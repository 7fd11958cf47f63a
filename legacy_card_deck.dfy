/** The older generic card deck of models/CardDeck.ts. Like the newer deck,
    the END of the sequence is the top and `Draw` pops from there; unlike it,
    `Add` pushes onto that same end (its doc comment says "bottom", the code
    does `push`), so `Add` followed by `Draw` is last-in first-out. */
module LegacyCardDeck {
  import opened Wrappers
  import opened DeckSpec

  class CardDeck<T> {
    /** The private `#cards` array. */
    var cards: seq<T>

    constructor (cards: seq<T>)
      ensures this.cards == cards
    {
      this.cards := cards;
    }

    /** The `length` getter: always the number of cards held. */
    function Length(): (n: nat)
      reads this
      ensures n == |cards|
    {
      |cards|
    }

    /** Removes and returns the card at a random index; None on an empty deck.
        `index` records the position `Math.random` chose. */
    method Pick() returns (card: Option<T>, ghost index: nat)
      modifies this
      ensures old(cards) == [] ==> card == None && cards == old(cards)
      ensures old(cards) != [] ==>
        index < |old(cards)| && card == Some(old(cards)[index]) &&
        cards == old(cards)[..index] + old(cards)[index + 1..]
      ensures |cards| == |old(cards)| - (if card.Some? then 1 else 0)
    {
      // floor(random * length) is 0 on an empty deck, and splice(0, 1) then removes nothing
      var i: nat := 0;
      if |cards| > 0 {
        i :| i < |cards|;
      }
      index := i;
      if i < |cards| {
        card := Some(cards[i]);
        cards := cards[..i] + cards[i + 1..];
      } else {
        card := None;
      }
    }

    /** Removes and returns the top (last) card; None and no change when empty. */
    method Draw() returns (card: Option<T>)
      modifies this
      ensures old(cards) == [] ==> card == None && cards == old(cards)
      ensures old(cards) != [] ==>
        card == Some(old(cards)[|old(cards)| - 1]) && cards == old(cards)[..|old(cards)| - 1]
    {
      if cards == [] {
        card := None;
      } else {
        card := Some(cards[|cards| - 1]);
        cards := cards[..|cards| - 1];
      }
    }

    /** Pushes `card` onto the end `Draw` takes from; returns the same deck. */
    method Add(card: T) returns (deck: CardDeck<T>)
      modifies this
      ensures deck == this
      ensures cards == old(cards) + [card]
    {
      cards := cards + [card];
      deck := this;
    }

    /** Shuffles in place (Fisher–Yates) and returns the same deck. */
    method Shuffle() returns (deck: CardDeck<T>, ghost rolls: Rolls)
      modifies this
      ensures deck == this
      ensures rolls.FullPass(|old(cards)|) && cards == Shuffled(old(cards), rolls)
      ensures |cards| == |old(cards)| && multiset(cards) == multiset(old(cards))
      ensures |old(cards)| <= 1 ==> cards == old(cards)
    {
      cards, rolls := FisherYates(cards);
      deck := this;
    }
  }

  /** `add(card)` followed by `draw()` returns `card` and restores the deck. */
  method AddThenDraw<T>(cards: seq<T>, card: T) returns (drawn: Option<T>, left: seq<T>)
    ensures drawn == Some(card) && left == cards
  {
    var deck := new CardDeck(cards);
    var same := deck.Add(card);
    drawn := same.Draw();
    left := deck.cards;
  }

  /** `pick()` on a deck of `cards`: a non-empty deck loses exactly the
      returned card, an empty one returns nothing. */
  method PickFrom<T>(cards: seq<T>) returns (card: Option<T>, left: seq<T>)
    ensures card.None? <==> cards == []
    ensures card.Some? ==> card.value in cards && multiset(left) + multiset{card.value} == multiset(cards)
    ensures card.None? ==> left == cards
  {
    var deck := new CardDeck(cards);
    ghost var index;
    card, index := deck.Pick();
    left := deck.cards;
    if card.Some? {
      PickPartition(cards, index);
    }
  }
}
