/** The forced-bet record of src/models/Blinds.ts: three amounts, each 0 when
    omitted, and a `total` computed from them on every read. The constructor
    checks nothing, so negative amounts are stored as given. */
module Blinds {

  datatype Blinds = Blinds(smallBlind: int := 0, bigBlind: int := 0, ante: int := 0)
  {
    /** The `total` getter. */
    function Total(): int
    {
      smallBlind + bigBlind + ante
    }
  }

  /** `new Blinds()` has nothing to pay, and the omitted amounts are 0. */
  lemma DefaultBlinds()
    ensures var b := Blinds(); b.smallBlind == 0 && b.bigBlind == 0 && b.ante == 0
    ensures Blinds().Total() == 0
  {
  }

  /** The total is the sum of the amounts the record holds at the time it is
      read: changing one amount changes the total by the same difference. */
  lemma TotalFollowsFields(b: Blinds, smallBlind: int, bigBlind: int, ante: int)
    ensures b.(smallBlind := smallBlind).Total() == b.Total() + (smallBlind - b.smallBlind)
    ensures b.(bigBlind := bigBlind).Total() == b.Total() + (bigBlind - b.bigBlind)
    ensures b.(ante := ante).Total() == b.Total() + (ante - b.ante)
    ensures b.Total() == b.smallBlind + b.bigBlind + b.ante
  {
  }

  /** Construction stores what it is given: the blinds {25, 50, 10} hold
      those amounts and total 85; negative amounts are accepted too. */
  lemma StoresGivenAmounts(smallBlind: int, bigBlind: int, ante: int)
    ensures var b := Blinds(smallBlind, bigBlind, ante);
      b.smallBlind == smallBlind && b.bigBlind == bigBlind && b.ante == ante
    ensures Blinds(25, 50, 10).Total() == 85
    ensures Blinds(ante := -10).Total() < 0
  {
  }
}
