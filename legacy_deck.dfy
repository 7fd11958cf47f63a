/** The card deck of models/Deck.ts. Its cards are `Card` values from
    models/Card.ts, which is not part of this model: the deck is generic in
    the card type, and a card's `toString` is the parameter `show`.
    The END of the sequence is the top; `Add` pushes onto that end. */
module LegacyDeck {
  import opened Wrappers
  import opened DeckSpec

  /** The strings of `cards` under `show`, in order (`cards.map(show)`). */
  function Shown<C>(show: C -> string, cards: seq<C>): (r: seq<string>)
    ensures |r| == |cards|
    ensures forall i :: 0 <= i < |cards| ==> r[i] == show(cards[i])
  {
    if cards == [] then [] else Shown(show, cards[..|cards| - 1]) + [show(cards[|cards| - 1])]
  }

  /** `Array.prototype.join`: the strings with `sep` between neighbours. */
  function Join(strs: seq<string>, sep: string): string
  {
    if strs == [] then ""
    else if |strs| == 1 then strs[0]
    else strs[0] + sep + Join(strs[1..], sep)
  }

  /** Joining one more string adds the separator and that string at the end. */
  lemma {:induction false} JoinSnoc(strs: seq<string>, sep: string, s: string)
    ensures Join(strs + [s], sep) == if strs == [] then s else Join(strs, sep) + sep + s
    decreases |strs|
  {
    if |strs| > 1 {
      JoinSnoc(strs[1..], sep, s);
      assert (strs + [s])[1..] == strs[1..] + [s];
    } else if |strs| == 1 {
      assert (strs + [s])[1..] == [s];
    }
  }

  /** The joined string holds every string and one separator between each
      pair of neighbours, and nothing else. */
  lemma {:induction false} JoinLength(strs: seq<string>, sep: string)
    ensures |Join(strs, sep)| == TotalLength(strs) + (if strs == [] then 0 else (|strs| - 1) * |sep|)
    decreases |strs|
  {
    if |strs| > 1 {
      JoinLength(strs[1..], sep);
    }
  }

  /** The summed lengths of `strs`. */
  function TotalLength(strs: seq<string>): nat
  {
    if strs == [] then 0 else |strs[0]| + TotalLength(strs[1..])
  }

  class Deck<C> {
    /** The private `#cards` array. */
    var cards: seq<C>

    constructor (cards: seq<C>)
      ensures this.cards == cards
    {
      this.cards := cards;
    }

    /** The `cards` getter: exactly the current contents. */
    function Cards(): (s: seq<C>)
      reads this
      ensures |s| == |cards| && forall i :: 0 <= i < |s| ==> s[i] == cards[i]
    {
      cards
    }

    /** Removes and returns the top (last) card; None and no change when empty. */
    method Draw() returns (card: Option<C>)
      modifies this
      ensures old(cards) == [] ==> card == None && cards == old(cards)
      ensures old(cards) != [] ==>
        card == Some(old(cards)[|old(cards)| - 1]) && cards == old(cards)[..|old(cards)| - 1]
    {
      if cards == [] {
        card := None;
      } else {
        card := Some(cards[|cards| - 1]);
        cards := cards[..|cards| - 1];
      }
    }

    /** Pushes `card` onto the end `Draw` takes from; returns the same deck. */
    method Add(card: C) returns (deck: Deck<C>)
      modifies this
      ensures deck == this
      ensures cards == old(cards) + [card]
    {
      cards := cards + [card];
      deck := this;
    }

    /** Shuffles in place (Fisher–Yates) and returns the same deck. */
    method Shuffle() returns (deck: Deck<C>, ghost rolls: Rolls)
      modifies this
      ensures deck == this
      ensures rolls.FullPass(|old(cards)|) && cards == Shuffled(old(cards), rolls)
      ensures |cards| == |old(cards)| && multiset(cards) == multiset(old(cards))
      ensures |old(cards)| <= 1 ==> cards == old(cards)
    {
      cards, rolls := FisherYates(cards);
      deck := this;
    }

    /** The cards' own strings joined with ", " in deck order. */
    function ToString(show: C -> string): (s: string)
      reads this
      ensures cards == [] ==> s == ""
      ensures |cards| == 1 ==> s == show(cards[0])
      ensures |s| == TotalLength(Shown(show, cards)) + (if cards == [] then 0 else (|cards| - 1) * 2)
    {
      JoinLength(Shown(show, cards), ", ");
      Join(Shown(show, cards), ", ")
    }
  }

  /** `add(card)` followed by `draw()` returns `card` and restores the deck. */
  method AddThenDraw<C>(cards: seq<C>, card: C) returns (drawn: Option<C>, left: seq<C>)
    ensures drawn == Some(card) && left == cards
  {
    var deck := new Deck(cards);
    var same := deck.Add(card);
    drawn := same.Draw();
    left := deck.Cards();
  }

  /** Adding a card to a deck extends its string by ", " and that card's
      string (or makes it the card's string alone, on an empty deck). */
  method ToStringAfterAdd<C>(cards: seq<C>, card: C, show: C -> string) returns (before: string, after: string)
    ensures after == if cards == [] then show(card) else before + ", " + show(card)
  {
    var deck := new Deck(cards);
    before := deck.ToString(show);
    var same := deck.Add(card);
    after := deck.ToString(show);
    assert Shown(show, cards + [card]) == Shown(show, cards) + [show(card)];
    JoinSnoc(Shown(show, cards), ", ", show(card));
  }
}
