/** The card type of models/FrenchCard.ts: the numeric enum `Suit`, the
    string enum `Value`, and the immutable card record with its formatter. */
module FrenchCard {
  import opened Wrappers

  /** The numeric enum `Suit`; `Ordinal` is its runtime number. */
  datatype Suit = Diamond | Heart | Club | Spade
  {
    function Ordinal(): (n: nat)
      ensures n < 4
    {
      match this
      case Diamond => 0
      case Heart => 1
      case Club => 2
      case Spade => 3
    }

    /** The member name, which is what the reverse mapping `Suit[n]` yields. */
    function Name(): string
    {
      match this
      case Diamond => "Diamond"
      case Heart => "Heart"
      case Club => "Club"
      case Spade => "Spade"
    }
  }

  /** The suits in declaration order. */
  const AllSuits: seq<Suit> := [Diamond, Heart, Club, Spade]

  /** The reverse mapping `Suit[n]`: a suit only for the four ordinals. */
  function SuitOf(n: int): (s: Option<Suit>)
    ensures s.Some? <==> 0 <= n < 4
    ensures s.Some? ==> s.value.Ordinal() == n
  {
    if n == 0 then Some(Diamond)
    else if n == 1 then Some(Heart)
    else if n == 2 then Some(Club)
    else if n == 3 then Some(Spade)
    else None
  }

  /** Diamond, Heart, Club and Spade are the numbers 0 to 3 in that order,
      and the reverse mapping gives each suit back from its number. */
  lemma SuitNumbering()
    ensures |AllSuits| == 4
    ensures forall i :: 0 <= i < 4 ==> AllSuits[i].Ordinal() == i
    ensures forall s: Suit :: SuitOf(s.Ordinal()) == Some(s)
  {
    forall s: Suit ensures SuitOf(s.Ordinal()) == Some(s) {
      match s
      case Diamond => case Heart => case Club => case Spade =>
    }
  }

  /** The string enum `Value`; `Label` is its runtime string. */
  datatype Value = One | Two | Three | Four | Five | Six | Seven | Eight | Nine | Ten
                 | Jack | Queen | King | Ace
  {
    /** The runtime string of the member. */
    function Label(): string
    {
      match this
      case One => "1"
      case Two => "2"
      case Three => "3"
      case Four => "4"
      case Five => "5"
      case Six => "6"
      case Seven => "7"
      case Eight => "8"
      case Nine => "9"
      case Ten => "10"
      case Jack => "J"
      case Queen => "Q"
      case King => "K"
      case Ace => "A"
    }

    /** The position of the member in declaration order. */
    function Index(): (n: nat)
      ensures n < |AllValues| && AllValues[n] == this
    {
      match this
      case One => 0
      case Two => 1
      case Three => 2
      case Four => 3
      case Five => 4
      case Six => 5
      case Seven => 6
      case Eight => 7
      case Nine => 8
      case Ten => 9
      case Jack => 10
      case Queen => 11
      case King => 12
      case Ace => 13
    }
  }

  /** `Object.values(Value)`: the members in declaration order. */
  const AllValues: seq<Value> :=
    [One, Two, Three, Four, Five, Six, Seven, Eight, Nine, Ten, Jack, Queen, King, Ace]

  /** The member whose label is `text`, if any. */
  function ValueOfLabel(text: string): (v: Option<Value>)
    ensures v.Some? ==> v.value.Label() == text
  {
    if text == "1" then Some(One)
    else if text == "2" then Some(Two)
    else if text == "3" then Some(Three)
    else if text == "4" then Some(Four)
    else if text == "5" then Some(Five)
    else if text == "6" then Some(Six)
    else if text == "7" then Some(Seven)
    else if text == "8" then Some(Eight)
    else if text == "9" then Some(Nine)
    else if text == "10" then Some(Ten)
    else if text == "J" then Some(Jack)
    else if text == "Q" then Some(Queen)
    else if text == "K" then Some(King)
    else if text == "A" then Some(Ace)
    else None
  }

  /** The suit whose member name is `name`, if any. */
  function SuitOfName(name: string): (s: Option<Suit>)
    ensures s.Some? ==> s.value.Name() == name
  {
    if name == "Diamond" then Some(Diamond)
    else if name == "Heart" then Some(Heart)
    else if name == "Club" then Some(Club)
    else if name == "Spade" then Some(Spade)
    else None
  }

  /** A label is one or two characters without a blank. */
  lemma LabelShape(v: Value)
    ensures 1 <= |v.Label()| <= 2 && ' ' !in v.Label()
  {
    match v
    case One => case Two => case Three => case Four => case Five => case Six =>
    case Seven => case Eight => case Nine => case Ten => case Jack => case Queen =>
    case King => case Ace =>
  }

  /** Each suit's name reads back to that suit. */
  lemma SuitNameReadsBack(t: Suit)
    ensures SuitOfName(t.Name()) == Some(t)
  {
    match t
    case Diamond => case Heart => case Club => case Spade =>
  }

  /** The 14 labels are pairwise different, and every member is listed. */
  lemma ValueLabelsDistinct()
    ensures |AllValues| == 14
    ensures forall v: Value :: v in AllValues && ValueOfLabel(v.Label()) == Some(v)
    ensures forall i, j :: 0 <= i < j < |AllValues| ==> AllValues[i].Label() != AllValues[j].Label()
  {
    forall v: Value ensures v in AllValues && ValueOfLabel(v.Label()) == Some(v) {
      assert AllValues[v.Index()] == v;
      match v
      case One => case Two => case Three => case Four => case Five => case Six =>
      case Seven => case Eight => case Nine => case Ten => case Jack => case Queen =>
      case King => case Ace =>
    }
  }

  /** A card: its `value` and `suit` are `readonly`, so a datatype. */
  datatype FrenchCard = FrenchCard(value: Value, suit: Suit)
  {
    /** `${value} of ${Suit[suit]}s`, e.g. "A of Spades". */
    function ToString(): (s: string)
      ensures Parse(s) == Some(this)
    {
      ParseFormatted(this);
      value.Label() + " of " + suit.Name() + "s"
    }
  }

  /** The constructor stores its two arguments, and cards are equal exactly
      when their values and suits are. */
  lemma CardStoresFields(v: Value, t: Suit, w: Value, u: Suit)
    ensures FrenchCard(v, t).value == v && FrenchCard(v, t).suit == t
    ensures FrenchCard(v, t) == FrenchCard(w, u) <==> v == w && t == u
  {
  }

  /** The text before the first space (all of `s` if it has none). */
  function UpToSpace(s: string): (r: string)
    ensures |r| <= |s|
  {
    if s == [] || s[0] == ' ' then [] else [s[0]] + UpToSpace(s[1..])
  }

  /** Reads back a string written by `ToString`: the text up to the first
      space, then " of ", the suit name and a final "s". */
  function Parse(s: string): Option<FrenchCard>
  {
    var text := UpToSpace(s);
    var rest := s[|text|..];
    if |rest| < 5 || rest[..4] != " of " || rest[|rest| - 1] != 's' then None
    else
      match (ValueOfLabel(text), SuitOfName(rest[4..|rest| - 1]))
      case (Some(v), Some(t)) => Some(FrenchCard(v, t))
      case _ => None
  }

  lemma {:induction false} UpToSpaceStops(a: string, b: string)
    requires ' ' !in a && b != [] && b[0] == ' '
    ensures UpToSpace(a + b) == a
    decreases |a|
  {
    if a != [] {
      UpToSpaceStops(a[1..], b);
      assert (a + b)[1..] == a[1..] + b;
    } else {
      assert a + b == b;
    }
  }

  lemma ParseFormatted(c: FrenchCard)
    ensures Parse(c.value.Label() + " of " + c.suit.Name() + "s") == Some(c)
  {
    var text, name := c.value.Label(), c.suit.Name();
    var s := text + " of " + name + "s";
    LabelShape(c.value);
    assert s == text + (" of " + name + "s");
    UpToSpaceStops(text, " of " + name + "s");
    var rest := s[|text|..];
    assert rest == " of " + name + "s";
    assert rest[4..|rest| - 1] == name;
    ValueLabelsDistinct();
    SuitNameReadsBack(c.suit);
  }

  /** Different cards are printed differently. */
  lemma ToStringInjective(c: FrenchCard, d: FrenchCard)
    requires c.ToString() == d.ToString()
    ensures c == d
  {
    assert Some(c) == Parse(c.ToString()) == Parse(d.ToString()) == Some(d);
  }

  /** A JavaScript value as `Object.values` returns it for an enum. */
  datatype JsValue = Str(s: string) | Num(n: int)

  /** `Object.values(Suit)`: a numeric enum also maps each number back to
      its name, and integer keys come first, so the names precede the numbers. */
  function SuitEnumValues(): seq<JsValue>
  {
    [Str("Diamond"), Str("Heart"), Str("Club"), Str("Spade"), Num(0), Num(1), Num(2), Num(3)]
  }

  /** `Number.parseInt` of such a value: None stands for NaN. A string parses
      only if it starts with a decimal digit (leading blanks and signs are not
      modelled: no enum value has them). */
  function ParseInt(v: JsValue): Option<int>
  {
    match v
    case Num(n) => Some(n)
    case Str(s) => if s != [] && '0' <= s[0] <= '9' then Some(DigitsValue(s, 0)) else None
  }

  /** The number written by the leading decimal digits of `s`, read after `acc`. */
  function DigitsValue(s: string, acc: nat): nat
    decreases |s|
  {
    if s != [] && '0' <= s[0] <= '9' then DigitsValue(s[1..], acc * 10 + (s[0] as int - '0' as int)) else acc
  }

  /** `.map(parseInt).filter(n => !Number.isNaN(n))`. */
  function Numbers(vs: seq<JsValue>): (r: seq<int>)
    ensures |r| <= |vs|
  {
    if vs == [] then []
    else
      match ParseInt(vs[0])
      case Some(n) => [n] + Numbers(vs[1..])
      case None => Numbers(vs[1..])
  }

  /** The filter keeps exactly the four ordinals, in order. */
  lemma SuitIndexesAreOrdinals()
    ensures Numbers(SuitEnumValues()) == [0, 1, 2, 3]
  {
    var vs := SuitEnumValues();
    assert Numbers(vs[8..]) == [];
    assert Numbers(vs[7..]) == [3];
    assert Numbers(vs[6..]) == [2, 3];
    assert Numbers(vs[5..]) == [1, 2, 3];
    assert Numbers(vs[4..]) == [0, 1, 2, 3];
    assert Numbers(vs[3..]) == Numbers(vs[4..]);
    assert Numbers(vs[2..]) == Numbers(vs[3..]);
    assert Numbers(vs[1..]) == Numbers(vs[2..]);
  }

  /** The card `random()` builds from the value index and the suit index its
      two `Math.random` calls yield. */
  function RandomCard(valueIndex: nat, suitIndex: nat): (c: FrenchCard)
    requires valueIndex < |AllValues| && suitIndex < 4
    ensures c.value == AllValues[valueIndex] && c.suit.Ordinal() == suitIndex
  {
    SuitIndexesAreOrdinals();
    FrenchCard(AllValues[valueIndex], SuitOf(Numbers(SuitEnumValues())[suitIndex]).value)
  }

  /** Every one of the 56 cards is a possible result of `random()`. */
  lemma EveryCardIsPossible(c: FrenchCard)
    ensures c.value.Index() < |AllValues| && c.suit.Ordinal() < 4
    ensures RandomCard(c.value.Index(), c.suit.Ordinal()) == c
  {
    var d := RandomCard(c.value.Index(), c.suit.Ordinal());
    assert d.suit == c.suit by {
      match c.suit
      case Diamond => case Heart => case Club => case Spade =>
    }
  }

  /** `FrenchCard.random()`: a value chosen among the 14 members and a suit
      chosen among the numbers the filter keeps. */
  method Random() returns (card: FrenchCard, ghost valueIndex: nat, ghost suitIndex: nat)
    ensures valueIndex < |AllValues| && suitIndex < 4
    ensures card == RandomCard(valueIndex, suitIndex)
  {
    var values := AllValues;
    var vi: nat :| vi < |values|;
    var indexes := Numbers(SuitEnumValues());
    SuitIndexesAreOrdinals();
    var si: nat :| si < |indexes|;
    var suit := SuitOf(indexes[si]);
    card := FrenchCard(values[vi], suit.value);
    valueIndex, suitIndex := vi, si;
  }
}
