/** The ordered deck of models/PokerDeck.ts, a `CardDeck` (models/CardDeck.ts)
    holding every value in every suit. Its cards come from models/Card.ts,
    which is not part of this model: a card is a (value, suit) pair, the
    values are the list `Object.values(Value)` given as a parameter, and the
    suits are those of models/FrenchCard.ts. */
module PokerDeck {
  import opened DeckSpec
  import opened FrenchCard
  import LegacyCardDeck

  datatype Card<V> = Card(value: V, suit: Suit)

  /** The suit order of the outer loop. */
  const SuitOrder: seq<Suit> := [Diamond, Heart, Club, Spade]

  /** One suit's run of cards: every value, in the order of `values`. */
  function Run<V>(values: seq<V>, suit: Suit): (r: seq<Card<V>>)
    ensures |r| == |values|
    ensures forall j :: 0 <= j < |values| ==> r[j] == Card(values[j], suit)
  {
    if values == [] then [] else Run(values[..|values| - 1], suit) + [Card(values[|values| - 1], suit)]
  }

  /** One run per suit, the runs in the order of `suits`. */
  function Runs<V>(values: seq<V>, suits: seq<Suit>): (r: seq<Card<V>>)
    ensures |r| == |suits| * |values|
    ensures forall c :: c in r ==> c.suit in suits
  {
    if suits == [] then []
    else
      var front := suits[..|suits| - 1];
      var r := Runs(values, front) + Run(values, suits[|suits| - 1]);
      assert |r| == (|suits| - 1) * |values| + |values|;
      r
  }

  /** The contents of `new PokerDeck()`: suit-major, Diamond first. */
  function OrderedDeck<V>(values: seq<V>): seq<Card<V>>
  {
    Runs(values, SuitOrder)
  }

  /** The inner loop's step: one more value in the current suit. */
  lemma RunStep<V>(values: seq<V>, suit: Suit, j: nat)
    requires j < |values|
    ensures Run(values[..j + 1], suit) == Run(values[..j], suit) + [Card(values[j], suit)]
  {
    assert values[..j + 1][..j] == values[..j];
  }

  /** The outer loop's step: one more suit's run. */
  lemma RunsStep<V>(values: seq<V>, suits: seq<Suit>, i: nat)
    requires i < |suits|
    ensures Runs(values, suits[..i + 1]) == Runs(values, suits[..i]) + Run(values, suits[i])
  {
    assert suits[..i + 1][..i] == suits[..i];
  }

  /** The nested loops of the constructor, which push value by value within
      suit after suit. */
  method OrderedCards<V>(values: seq<V>) returns (cards: seq<Card<V>>)
    ensures cards == OrderedDeck(values)
    ensures |cards| == 4 * |values|
  {
    cards := [];
    var i := 0;
    while i < |SuitOrder|
      invariant 0 <= i <= |SuitOrder|
      invariant cards == Runs(values, SuitOrder[..i])
    {
      var j := 0;
      while j < |values|
        invariant 0 <= j <= |values|
        invariant cards == Runs(values, SuitOrder[..i]) + Run(values[..j], SuitOrder[i])
      {
        RunStep(values, SuitOrder[i], j);
        cards := cards + [Card(values[j], SuitOrder[i])];
        j := j + 1;
      }
      assert values[..j] == values;
      RunsStep(values, SuitOrder, i);
      i := i + 1;
    }
    assert SuitOrder[..i] == SuitOrder;
  }

  /** The card at `i * |values| + j` has the `j`-th value and the `i`-th suit. */
  lemma {:induction false} RunsAt<V>(values: seq<V>, suits: seq<Suit>, i: nat, j: nat)
    requires i < |suits| && j < |values|
    ensures i * |values| + j < |Runs(values, suits)|
    ensures Runs(values, suits)[i * |values| + j] == Card(values[j], suits[i])
    decreases |suits|
  {
    var n, front := |values|, suits[..|suits| - 1];
    assert Runs(values, suits) == Runs(values, front) + Run(values, suits[|suits| - 1]);
    assert |Runs(values, front)| == (|suits| - 1) * n;
    if i < |suits| - 1 {
      RunsAt(values, front, i, j);
    } else {
      assert i * n == (|suits| - 1) * n;
    }
  }

  /** Distinct values in distinct suits give distinct cards. */
  lemma {:induction false} RunsDistinct<V>(values: seq<V>, suits: seq<Suit>)
    requires Distinct(values) && Distinct(suits)
    ensures Distinct(Runs(values, suits))
    decreases |suits|
  {
    if suits != [] {
      var front, last := suits[..|suits| - 1], suits[|suits| - 1];
      RunsDistinct(values, front);
      var a, b := Runs(values, front), Run(values, last);
      assert last !in front;
      forall x, y | 0 <= x < y < |a + b| ensures (a + b)[x] != (a + b)[y] {
        if y < |a| {
          assert (a + b)[x] == a[x] && (a + b)[y] == a[y];
        } else if x >= |a| {
          assert (a + b)[x] == b[x - |a|] && (a + b)[y] == b[y - |a|];
        } else {
          assert a[x] in a && a[x].suit in front;
          assert (a + b)[y].suit == last;
        }
      }
    }
  }

  /** The fresh deck has `4 * |values|` cards, and the card at
      `i * |values| + j` is the `j`-th value in the `i`-th suit of Diamond,
      Heart, Club, Spade. */
  lemma OrderedDeckAt<V>(values: seq<V>, i: nat, j: nat)
    requires i < 4 && j < |values|
    ensures |OrderedDeck(values)| == 4 * |values|
    ensures OrderedDeck(values)[i * |values| + j] == Card(values[j], SuitOrder[i])
  {
    RunsAt(values, SuitOrder, i, j);
  }

  /** Every (value, suit) pair is in the fresh deck. */
  lemma OrderedDeckHasEveryPair<V>(values: seq<V>, v: V, s: Suit)
    requires v in values
    ensures Card(v, s) in OrderedDeck(values)
  {
    var j :| 0 <= j < |values| && values[j] == v;
    var i := s.Ordinal();
    assert SuitOrder[i] == s;
    RunsAt(values, SuitOrder, i, j);
  }

  /** With distinct values, every (value, suit) pair occurs exactly once. */
  lemma OrderedDeckDistinct<V>(values: seq<V>)
    requires Distinct(values)
    ensures Distinct(OrderedDeck(values))
  {
    RunsDistinct(values, SuitOrder);
  }

  /** `new PokerDeck()`: a deck holding the ordered cards. */
  method NewPokerDeck<V>(values: seq<V>) returns (deck: LegacyCardDeck.CardDeck<Card<V>>)
    ensures fresh(deck)
    ensures deck.cards == OrderedDeck(values)
  {
    var cards := OrderedCards(values);
    deck := new LegacyCardDeck.CardDeck(cards);
  }

  /** `PokerDeck.shuffled(times)`: a fresh deck shuffled `times` times. */
  method Shuffled<V>(values: seq<V>, times: int := 1) returns (deck: LegacyCardDeck.CardDeck<Card<V>>)
    ensures fresh(deck)
    ensures |deck.cards| == 4 * |values|
    ensures multiset(deck.cards) == multiset(OrderedDeck(values))
    ensures times <= 0 ==> deck.cards == OrderedDeck(values)
  {
    deck := NewPokerDeck(values);
    var i := 0;
    while i < times
      invariant 0 <= i && (i == 0 || i <= times)
      invariant fresh(deck)
      invariant |deck.cards| == 4 * |values|
      invariant multiset(deck.cards) == multiset(OrderedDeck(values))
      invariant i == 0 ==> deck.cards == OrderedDeck(values)
    {
      var same, rolls := deck.Shuffle();
      i := i + 1;
    }
  }

  /** A shuffled deck of distinct values still has no duplicates. */
  method ShuffledDistinct<V>(values: seq<V>, times: int) returns (cards: seq<Card<V>>)
    requires Distinct(values)
    ensures |cards| == 4 * |values| && Distinct(cards)
  {
    var deck := Shuffled(values, times);
    cards := deck.cards;
    OrderedDeckDistinct(values);
    PermutationKeepsDistinct(OrderedDeck(values), cards);
  }
}
