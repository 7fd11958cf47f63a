/** Specification of the card-supply operations shared by the three deck
    classes (`CardDeck` in src/models and models, `Deck` in models).
    The top of a deck is the END of its sequence: `draw` pops from there. */
module DeckSpec {

  /** A sequence without repeated elements. */
  ghost predicate Distinct<X>(s: seq<X>)
  {
    forall a, b :: 0 <= a < b < |s| ==> s[a] != s[b]
  }

  /** A permutation of a sequence without repeats has none either. */
  lemma PermutationKeepsDistinct<X>(s: seq<X>, t: seq<X>)
    requires Distinct(s) && multiset(s) == multiset(t)
    ensures Distinct(t)
  {
    forall x, y | 0 <= x < y < |t| ensures t[x] != t[y] {
      if t[x] == t[y] {
        assert t == t[..x] + [t[x]] + t[x + 1..y] + [t[y]] + t[y + 1..];
        assert multiset(t)[t[x]] >= 2;
        DistinctCountsOne(s, t[x]);
      }
    }
  }

  /** In a sequence without repeats each element occurs at most once. */
  lemma {:induction false} DistinctCountsOne<X>(s: seq<X>, e: X)
    requires Distinct(s)
    ensures multiset(s)[e] <= 1
    decreases |s|
  {
    if s != [] {
      DistinctCountsOne(s[1..], e);
      assert s == [s[0]] + s[1..];
      if s[0] == e {
        assert e !in s[1..];
      }
    }
  }

  // ---------------------------------------------------------------------------
  // Fisher–Yates shuffle
  // ---------------------------------------------------------------------------

  /** Exchanges the elements at positions `i` and `j` (the destructuring swap
      `[a[i], a[j]] = [a[j], a[i]]`). */
  function Swap<T>(s: seq<T>, i: nat, j: nat): (r: seq<T>)
    requires i < |s| && j < |s|
    ensures |r| == |s|
  {
    s[i := s[j]][j := s[i]]
  }

  /** A swap exchanges the two cards and keeps every other card in place. */
  lemma SwapExchanges<T>(s: seq<T>, i: nat, j: nat)
    requires i < |s| && j < |s|
    ensures Swap(s, i, j)[i] == s[j] && Swap(s, i, j)[j] == s[i]
    ensures forall k :: 0 <= k < |s| && k != i && k != j ==> Swap(s, i, j)[k] == s[k]
  {
  }

  /** A swap neither adds nor loses a card. */
  lemma SwapPermutes<T>(s: seq<T>, i: nat, j: nat)
    requires i < |s| && j < |s|
    ensures multiset(Swap(s, i, j)) == multiset(s)
  {
  }

  /** The random indices drawn by a shuffle, the latest last: `Roll(earlier,
      j)` is the step that swaps position `n - Count()` with `j`. */
  datatype Rolls = Start | Roll(earlier: Rolls, index: nat)
  {
    /** The number of steps taken. */
    function Count(): nat
    {
      match this
      case Start => 0
      case Roll(earlier, _) => earlier.Count() + 1
    }

    /** Every step drew its index from `[0, i]`, `i` the position it works on,
        as `Math.floor(Math.random() * (i + 1))` does for a deck of `n` cards. */
    predicate InRange(n: nat)
    {
      match this
      case Start => true
      case Roll(earlier, j) => j + Count() <= n && earlier.InRange(n)
    }

    /** The rolls of a complete pass: one per position from `n - 1` down to 1. */
    predicate FullPass(n: nat)
    {
      InRange(n) && Count() == (if n == 0 then 0 else n - 1)
    }
  }

  /** The deck after the shuffle steps whose random indices are `rolls`. */
  function Shuffled<T>(s: seq<T>, rolls: Rolls): (r: seq<T>)
    requires rolls.InRange(|s|)
    ensures |r| == |s|
  {
    match rolls
    case Start => s
    case Roll(earlier, j) => Swap(Shuffled(s, earlier), |s| - rolls.Count(), j)
  }

  /** Whatever indices the random source yields, the shuffle is a permutation. */
  lemma {:induction false} ShuffledIsPermutation<T>(s: seq<T>, rolls: Rolls)
    requires rolls.InRange(|s|)
    ensures multiset(Shuffled(s, rolls)) == multiset(s)
  {
    match rolls
    case Start =>
    case Roll(earlier, j) =>
      ShuffledIsPermutation(s, earlier);
      SwapPermutes(Shuffled(s, earlier), |s| - rolls.Count(), j);
  }

  /** The rolls that draw, at each of the first `m` steps, the position the
      step works on. */
  function Staying(n: nat, m: nat): (rolls: Rolls)
    requires m < n
    ensures rolls.Count() == m && rolls.InRange(n)
  {
    if m == 0 then Start else Roll(Staying(n, m - 1), n - m)
  }

  /** Such rolls swap every card with itself: keeping the original order is
      one of the outcomes of a full pass. */
  lemma {:induction false} StayingKeepsOrder<T>(s: seq<T>, m: nat)
    requires m < |s|
    ensures Shuffled(s, Staying(|s|, m)) == s
  {
    if m > 0 {
      StayingKeepsOrder(s, m - 1);
      var i := |s| - m;
      assert Swap(s, i, i) == s;
    }
  }

  /** The descending swap loop of `shuffle`, working on a copy of the cards.
      `Math.random` is a nondeterministic choice in range; `rolls` records the
      indices chosen. */
  method FisherYates<T>(s: seq<T>) returns (r: seq<T>, ghost rolls: Rolls)
    ensures rolls.FullPass(|s|) && r == Shuffled(s, rolls)
    ensures |r| == |s| && multiset(r) == multiset(s)
    ensures |s| <= 1 ==> r == s
  {
    r, rolls := s, Start;
    var i := |s| - 1;
    while i > 0
      invariant -1 <= i < |s| && (i == -1 ==> |s| == 0)
      invariant rolls.Count() == |s| - 1 - i
      invariant rolls.InRange(|s|) && r == Shuffled(s, rolls)
    {
      var j: nat :| j <= i;
      r := Swap(r, i, j);
      rolls := Roll(rolls, j);
      i := i - 1;
    }
    ShuffledIsPermutation(s, rolls);
  }

  // ---------------------------------------------------------------------------
  // Drawing several cards
  // ---------------------------------------------------------------------------

  /** How many cards `drawMany(count)` obtains from a deck of `len` cards. */
  function DrawCount(count: int, len: nat): (k: nat)
    ensures k <= len
    ensures count <= 0 ==> k == 0
    ensures 0 <= count <= len ==> k == count
    ensures count >= len ==> k == len
  {
    if count <= 0 then 0 else if count < len then count else len
  }

  /** The cards obtained by drawing `k` times from `s`, in the order drawn:
      the top card first, then the top of what remains. */
  function DrawnTop<T>(s: seq<T>, k: nat): (r: seq<T>)
    requires k <= |s|
  {
    if k == 0 then [] else [s[|s| - 1]] + DrawnTop(s[..|s| - 1], k - 1)
  }

  /** The `m`-th card drawn is the card `m` places below the top: the drawn
      cards are the last `k` cards in reverse order. */
  lemma {:induction false} DrawnTopAt<T>(s: seq<T>, k: nat, m: nat)
    requires m < k <= |s|
    ensures |DrawnTop(s, k)| == k
    ensures DrawnTop(s, k)[m] == s[|s| - 1 - m]
    decreases k
  {
    DrawnTopLength(s, k);
    if m > 0 {
      DrawnTopAt(s[..|s| - 1], k - 1, m - 1);
    }
  }

  lemma {:induction false} DrawnTopLength<T>(s: seq<T>, k: nat)
    requires k <= |s|
    ensures |DrawnTop(s, k)| == k
    decreases k
  {
    if k > 0 {
      DrawnTopLength(s[..|s| - 1], k - 1);
    }
  }

  /** Drawing one more card appends the next card below the ones drawn. */
  lemma {:induction false} DrawnTopNext<T>(s: seq<T>, k: nat)
    requires k < |s|
    ensures DrawnTop(s, k + 1) == DrawnTop(s, k) + [s[|s| - 1 - k]]
    decreases k
  {
    var top, rest := s[|s| - 1], s[..|s| - 1];
    if k > 0 {
      DrawnTopNext(rest, k - 1);
      var next := rest[|rest| - 1 - (k - 1)];
      assert next == s[|s| - 1 - k];
      calc {
        DrawnTop(s, k + 1);
        [top] + DrawnTop(rest, k);
        [top] + (DrawnTop(rest, k - 1) + [next]);
        ([top] + DrawnTop(rest, k - 1)) + [next];
        DrawnTop(s, k) + [next];
      }
    } else {
      assert DrawnTop(s, 1) == [top] + DrawnTop(rest, 0);
    }
  }

  /** Drawing neither loses nor duplicates cards: the drawn cards and the
      cards left are together the original deck. */
  lemma {:induction false} DrawnTopPartition<T>(s: seq<T>, k: nat)
    requires k <= |s|
    ensures multiset(DrawnTop(s, k)) + multiset(s[..|s| - k]) == multiset(s)
    decreases k
  {
    if k > 0 {
      var rest := s[..|s| - 1];
      DrawnTopPartition(rest, k - 1);
      assert DrawnTop(s, k) == [s[|s| - 1]] + DrawnTop(rest, k - 1);
      assert rest[..|rest| - (k - 1)] == s[..|s| - k];
      assert s == rest + [s[|s| - 1]];
      assert multiset(s) == multiset(rest) + multiset{s[|s| - 1]};
      assert multiset(DrawnTop(s, k)) == multiset{s[|s| - 1]} + multiset(DrawnTop(rest, k - 1));
    } else {
      assert s[..|s|] == s;
    }
  }

  /** The elements of `s` that JavaScript treats as true in a condition,
      in order; `truthy` stands for that test, which depends on the card type. */
  function KeepTruthy<T>(s: seq<T>, truthy: T -> bool): (r: seq<T>)
    ensures |r| <= |s|
  {
    if s == [] then []
    else
      var front := KeepTruthy(s[..|s| - 1], truthy);
      if truthy(s[|s| - 1]) then front + [s[|s| - 1]] else front
  }

  /** Testing one more card keeps it at the end exactly when it is truthy. */
  lemma KeepTruthySnoc<T>(s: seq<T>, x: T, truthy: T -> bool)
    ensures KeepTruthy(s + [x], truthy) == KeepTruthy(s, truthy) + (if truthy(x) then [x] else [])
  {
    assert (s + [x])[..|s|] == s;
  }

  /** When every card is truthy (an object, say), nothing is dropped. */
  lemma {:induction false} KeepTruthyAll<T>(s: seq<T>, truthy: T -> bool)
    requires forall i :: 0 <= i < |s| ==> truthy(s[i])
    ensures KeepTruthy(s, truthy) == s
  {
    if s != [] {
      KeepTruthyAll(s[..|s| - 1], truthy);
      assert s[..|s| - 1] + [s[|s| - 1]] == s;
    }
  }

  // ---------------------------------------------------------------------------
  // Picking a card at an index
  // ---------------------------------------------------------------------------

  /** Removing the card at `i` (`splice(i, 1)`) keeps every other card. */
  lemma PickPartition<T>(s: seq<T>, i: nat)
    requires i < |s|
    ensures multiset(s[..i] + s[i + 1..]) + multiset{s[i]} == multiset(s)
  {
    assert s == s[..i] + [s[i]] + s[i + 1..];
  }
}
