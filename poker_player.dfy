/** The player record of src/models/PokerPlayer.ts: a name, a hand, a folded
    flag and a private chip balance whose setter only ever lowers it. The
    setter's `assert` throws; here it returns a failed outcome and leaves the
    player as it was. */
module PokerPlayer {
  import opened Wrappers

  /** The two assertions of the `chips` setter, in the order they are checked. */
  datatype ChipsError = NegativeAmount | AboveBalance
  {
    function Message(): string
    {
      match this
      case NegativeAmount => "Amount must be greater than or equal to 0."
      case AboveBalance => "Amount must be less than or equal to the players chips."
    }
  }

  /** What setting the balance `balance` to `amount` yields: the new balance,
      or the first assertion that fails. */
  function SetChips(balance: int, amount: int): (r: Result<int, ChipsError>)
    ensures r.Success? <==> 0 <= amount <= balance
    ensures r.Success? ==> r.value == amount
    ensures amount < 0 ==> r == Failure(NegativeAmount)
    ensures 0 <= amount && balance < amount ==> r == Failure(AboveBalance)
  {
    if amount < 0 then Failure(NegativeAmount)
    else if amount > balance then Failure(AboveBalance)
    else Success(amount)
  }

  /** The balance after calling the setter with each of `amounts` in turn,
      a call that throws leaving the balance as it was. */
  function AfterSets(balance: int, amounts: seq<int>): int
    decreases |amounts|
  {
    if amounts == [] then balance
    else
      var next := match SetChips(balance, amounts[0])
        case Success(b) => b
        case Failure(_) => balance;
      AfterSets(next, amounts[1..])
  }

  /** Whatever is asked of the setter, the balance never grows, and it is
      never negative unless it was so from construction and never changed. */
  lemma {:induction false} SetsNeverIncrease(balance: int, amounts: seq<int>)
    ensures AfterSets(balance, amounts) <= balance
    ensures AfterSets(balance, amounts) >= 0 || AfterSets(balance, amounts) == balance
    decreases |amounts|
  {
    if amounts != [] {
      match SetChips(balance, amounts[0])
      case Success(b) => SetsNeverIncrease(b, amounts[1..]);
      case Failure(_) => SetsNeverIncrease(balance, amounts[1..]);
    }
  }

  /** Setting the current non-negative balance again succeeds and changes nothing. */
  lemma SetToBalanceIsNoOp(balance: int)
    requires balance >= 0
    ensures SetChips(balance, balance) == Success(balance)
  {
  }

  /** A balance made negative by the constructor (which does not check it)
      can never be set again: every amount fails one of the two assertions. */
  lemma NegativeBalanceIsStuck(balance: int, amount: int)
    requires balance < 0
    ensures SetChips(balance, amount).Failure?
  {
  }

  class PokerPlayer<T> {
    var name: string
    var cards: seq<T>
    /** The private `#chips` field, read through `Chips()`. */
    var chips: int
    var folded: bool

    /** Stores `chips` as given, without the setter's checks. */
    constructor (name: string, cards: seq<T> := [], chips: int := 0)
      ensures this.name == name && this.cards == cards && this.chips == chips
      ensures !folded
    {
      this.name := name;
      this.cards := cards;
      this.chips := chips;
      folded := false;
    }

    /** The `chips` getter. */
    function Chips(): (n: int)
      reads this
      ensures n == chips
    {
      chips
    }

    /** The `chips` setter: on success the balance becomes `amount`; on
        failure nothing changes. Name, cards and folded flag never change. */
    method SetChipsTo(amount: int) returns (outcome: Outcome<ChipsError>)
      modifies this`chips
      ensures outcome.Pass? <==> 0 <= amount <= old(chips)
      ensures outcome.Pass? ==> chips == amount
      ensures outcome.Fail? ==> chips == old(chips) && SetChips(old(chips), amount) == Failure(outcome.error)
    {
      match SetChips(chips, amount)
      case Success(b) =>
        chips := b;
        outcome := Pass;
      case Failure(e) =>
        outcome := Fail(e);
    }
  }

  /** A player built with `chips` and then asked to set `amounts` in turn
      ends with the balance `AfterSets` describes. */
  method SetChipsInTurn<T>(name: string, chips: int, amounts: seq<int>) returns (balance: int)
    ensures balance == AfterSets(chips, amounts)
    ensures balance <= chips && (balance >= 0 || balance == chips)
  {
    var player := new PokerPlayer<T>(name, chips := chips);
    var i := 0;
    while i < |amounts|
      invariant 0 <= i <= |amounts|
      invariant AfterSets(player.chips, amounts[i..]) == AfterSets(chips, amounts)
    {
      var outcome := player.SetChipsTo(amounts[i]);
      assert amounts[i..][1..] == amounts[i + 1..];
      i := i + 1;
    }
    balance := player.Chips();
    SetsNeverIncrease(chips, amounts);
  }
}
