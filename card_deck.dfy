/** The generic card deck of src/models/CardDeck.ts. The cards are a mutable
    sequence whose END is the top of the deck: `Draw` pops from the end, while
    `Add` puts a card at the front (the bottom), as `unshift` does. */
module CardDeck {
  import opened Wrappers
  import opened DeckSpec

  class CardDeck<T> {
    /** The private `#cards` array. */
    var cards: seq<T>

    constructor (cards: seq<T>)
      ensures this.cards == cards
    {
      this.cards := cards;
    }

    /** The `length` getter: always the number of cards held. */
    function Length(): (n: nat)
      reads this
      ensures n == |cards|
    {
      |cards|
    }

    /** Removes and returns the card at a random index; `undefined` (None) on
        an empty deck. `index` records the position `Math.random` chose. */
    method Pick() returns (card: Option<T>, ghost index: nat)
      modifies this
      ensures old(cards) == [] ==> card == None && cards == old(cards)
      ensures old(cards) != [] ==>
        index < |old(cards)| && card == Some(old(cards)[index]) &&
        cards == old(cards)[..index] + old(cards)[index + 1..]
      ensures |cards| == |old(cards)| - (if card.Some? then 1 else 0)
    {
      // floor(random * length) is 0 on an empty deck, and splice(0, 1) then removes nothing
      var i: nat := 0;
      if |cards| > 0 {
        i :| i < |cards|;
      }
      index := i;
      if i < |cards| {
        card := Some(cards[i]);
        cards := cards[..i] + cards[i + 1..];
      } else {
        card := None;
      }
    }

    /** Removes and returns the top card; None (and no change) when empty. */
    method Draw() returns (card: Option<T>)
      modifies this
      ensures old(cards) == [] ==> card == None && cards == old(cards)
      ensures old(cards) != [] ==>
        card == Some(old(cards)[|old(cards)| - 1]) && cards == old(cards)[..|old(cards)| - 1]
    {
      if cards == [] {
        card := None;
      } else {
        card := Some(cards[|cards| - 1]);
        cards := cards[..|cards| - 1];
      }
    }

    /** Draws `count` times and keeps the cards actually obtained: never fails,
        returns fewer than `count` cards once the deck runs out, and nothing
        for a non-positive count. */
    method DrawMany(count: int) returns (drawn: seq<T>)
      modifies this
      ensures var k := DrawCount(count, |old(cards)|);
        drawn == DrawnTop(old(cards), k) && cards == old(cards)[..|old(cards)| - k]
    {
      ghost var deck := cards;
      drawn := [];
      var i := 0;
      while i < count
        invariant 0 <= i && (i == 0 || i <= count)
        invariant drawn == DrawnTop(deck, DrawCount(i, |deck|))
        invariant cards == deck[..|deck| - DrawCount(i, |deck|)]
      {
        ghost var k := DrawCount(i, |deck|);
        var card := Draw();
        if card.Some? {
          DrawnTopNext(deck, k);
          drawn := drawn + [card.value];
        }
        i := i + 1;
      }
      assert DrawCount(i, |deck|) == DrawCount(count, |deck|);
    }

    /** `drawMany` as written: a drawn card is kept only if it is truthy,
        so a falsy card (the number 0, the empty string) leaves the deck and
        is not returned. `DrawMany` above keeps every card drawn. */
    method DrawManyTruthy(count: int, truthy: T -> bool) returns (drawn: seq<T>)
      modifies this
      ensures var k := DrawCount(count, |old(cards)|);
        drawn == KeepTruthy(DrawnTop(old(cards), k), truthy) && cards == old(cards)[..|old(cards)| - k]
    {
      ghost var deck, taken := cards, [];
      drawn := [];
      var i := 0;
      while i < count
        invariant 0 <= i && (i == 0 || i <= count)
        invariant taken == DrawnTop(deck, DrawCount(i, |deck|))
        invariant cards == deck[..|deck| - DrawCount(i, |deck|)]
        invariant drawn == KeepTruthy(taken, truthy)
      {
        ghost var k := DrawCount(i, |deck|);
        var card := Draw();
        if card.Some? {
          DrawnTopNext(deck, k);
          if truthy(card.value) {
            drawn := drawn + [card.value];
          }
          assert drawn == KeepTruthy(taken + [card.value], truthy) by {
            KeepTruthySnoc(taken, card.value, truthy);
          }
          taken := taken + [card.value];
        }
        i := i + 1;
      }
      assert DrawCount(i, |deck|) == DrawCount(count, |deck|);
    }

    /** Puts `card` at the bottom of the deck and returns the same deck. */
    method Add(card: T) returns (deck: CardDeck<T>)
      modifies this
      ensures deck == this
      ensures cards == [card] + old(cards)
    {
      cards := [card] + cards;
      deck := this;
    }

    /** Shuffles in place (Fisher–Yates) and returns the same deck. */
    method Shuffle() returns (deck: CardDeck<T>, ghost rolls: Rolls)
      modifies this
      ensures deck == this
      ensures rolls.FullPass(|old(cards)|) && cards == Shuffled(old(cards), rolls)
      ensures |cards| == |old(cards)| && multiset(cards) == multiset(old(cards))
      ensures |old(cards)| <= 1 ==> cards == old(cards)
    {
      cards, rolls := FisherYates(cards);
      deck := this;
    }
  }

  /** On a deck of `cards`, `add(card)` followed by `draw()`: a non-empty deck
      yields its previous top card, not `card`, which stays at the bottom. */
  method AddThenDraw<T>(cards: seq<T>, card: T) returns (drawn: Option<T>, left: seq<T>)
    ensures cards == [] ==> drawn == Some(card) && left == []
    ensures cards != [] ==>
      drawn == Some(cards[|cards| - 1]) && left == [card] + cards[..|cards| - 1]
  {
    var deck := new CardDeck(cards);
    var same := deck.Add(card);
    drawn := same.Draw();
    left := deck.cards;
  }

  /** `drawMany(count)` on a deck of `cards`: how many cards come back, that
      together with the cards left they are the original deck, and that an
      over-large count empties the deck. */
  method DrawManyFrom<T>(cards: seq<T>, count: int) returns (drawn: seq<T>, left: seq<T>)
    ensures |drawn| == DrawCount(count, |cards|) && |drawn| + |left| == |cards|
    ensures multiset(drawn) + multiset(left) == multiset(cards)
    ensures count >= |cards| ==> left == []
    ensures count <= 0 ==> drawn == [] && left == cards
  {
    var deck := new CardDeck(cards);
    drawn := deck.DrawMany(count);
    left := deck.cards;
    DrawnTopLength(cards, DrawCount(count, |cards|));
    DrawnTopPartition(cards, DrawCount(count, |cards|));
  }

  /** A deck holding the single card 0: drawing one card as written empties
      the deck and returns nothing, so the card is lost; the corrected
      `DrawMany` returns it. */
  method ZeroCardIsLost() returns (drawn: seq<int>, left: seq<int>, kept: seq<int>)
    ensures drawn == [] && left == []
    ensures kept == [0]
  {
    var deck := new CardDeck([0]);
    drawn := deck.DrawManyTruthy(1, n => n != 0);
    left := deck.cards;
    var other := new CardDeck([0]);
    kept := other.DrawMany(1);
  }

  /** On a deck of cards that are all truthy, `drawMany` as written and the
      corrected `DrawMany` draw the same cards and leave the same deck. */
  method DrawManyAgree<T>(cards: seq<T>, count: int, truthy: T -> bool)
    returns (written: seq<T>, corrected: seq<T>, writtenLeft: seq<T>, correctedLeft: seq<T>)
    requires forall i :: 0 <= i < |cards| ==> truthy(cards[i])
    ensures written == corrected
    ensures writtenLeft == correctedLeft
  {
    var a := new CardDeck(cards);
    written := a.DrawManyTruthy(count, truthy);
    writtenLeft := a.cards;
    var b := new CardDeck(cards);
    corrected := b.DrawMany(count);
    correctedLeft := b.cards;
    var k := DrawCount(count, |cards|);
    DrawnTopLength(cards, k);
    forall i | 0 <= i < k ensures truthy(DrawnTop(cards, k)[i]) {
      DrawnTopAt(cards, k, i);
    }
    KeepTruthyAll(DrawnTop(cards, k), truthy);
  }
}
