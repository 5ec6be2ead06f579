/** The bucket quotas of successive validation panels: shares in tenths of a task, with the rounding error
    carried from panel to panel. */
module ValidationQuotas {
  import opened CatalogModel
  import opened CatalogEstimates

  function Get(c: Carry, b: Bucket): int {
    match b
    case Hard => c.hard
    case Uncertain => c.uncertain
    case Easy => c.easy
    case Coverage => c.coverage
  }

  function TargetUnits(b: Bucket): int {
    match b
    case Hard => 6
    case Uncertain => 2
    case Easy => 1
    case Coverage => 1
  }

  function Index(b: Bucket): int {
    match b
    case Hard => 0
    case Uncertain => 1
    case Easy => 2
    case Coverage => 3
  }

  function Ideal(c: Carry, b: Bucket): int { 12 * TargetUnits(b) + Get(c, b) }

  // Larger remainders first, ties in bucket order.
  predicate Before(c: Carry, a: Bucket, b: Bucket) {
    || Ideal(c, a) % 10 > Ideal(c, b) % 10
    || (Ideal(c, a) % 10 == Ideal(c, b) % 10 && Index(a) < Index(b))
  }

  function Rank(c: Carry, b: Bucket): nat {
    One(Before(c, Hard, b)) + One(Before(c, Uncertain, b)) + One(Before(c, Easy, b)) + One(Before(c, Coverage, b))
  }

  function Remaining(c: Carry): int {
    12 - Ideal(c, Hard) / 10 - Ideal(c, Uncertain) / 10 - Ideal(c, Easy) / 10 - Ideal(c, Coverage) / 10
  }

  // The remaining slots go, one each, to the buckets that sort first.
  function Quota(c: Carry, b: Bucket): int { Ideal(c, b) / 10 + One(Rank(c, b) < Remaining(c)) }

  function NextCarryOf(c: Carry, b: Bucket): int { Ideal(c, b) - 10 * Quota(c, b) }

  function NextCarry(c: Carry): Carry {
    Carry(NextCarryOf(c, Hard), NextCarryOf(c, Uncertain), NextCarryOf(c, Easy), NextCarryOf(c, Coverage))
  }

  // The sort puts the four buckets in four different places.
  lemma RanksPermute(c: Carry)
    ensures {Rank(c, Hard), Rank(c, Uncertain), Rank(c, Easy), Rank(c, Coverage)} == {0, 1, 2, 3}
  {
  }

  lemma SlotsGiven(c: Carry)
    requires 0 <= Remaining(c) <= 4
    ensures One(Rank(c, Hard) < Remaining(c)) + One(Rank(c, Uncertain) < Remaining(c))
          + One(Rank(c, Easy) < Remaining(c)) + One(Rank(c, Coverage) < Remaining(c)) == Remaining(c)
  {
    RanksPermute(c);
  }

  // The remainders add up to the remaining slots, so there are fewer slots than buckets with one.
  lemma RemaindersPay(c: Carry)
    requires CarryOk(c)
    ensures 10 * Remaining(c) == Ideal(c, Hard) % 10 + Ideal(c, Uncertain) % 10 + Ideal(c, Easy) % 10 + Ideal(c, Coverage) % 10
    ensures 0 <= Remaining(c) <= 3
  {
  }

  lemma RoundedUpHadRemainder(c: Carry, b: Bucket)
    requires CarryOk(c) && Rank(c, b) < Remaining(c)
    ensures Ideal(c, b) % 10 >= 1
  {
    RemaindersPay(c);
  }

  lemma QuotaBounds(c: Carry, b: Bucket)
    requires CarryOk(c)
    ensures Quota(c, b) >= 0 && -9 <= NextCarryOf(c, b) <= 9
  {
    if Rank(c, b) < Remaining(c) { RoundedUpHadRemainder(c, b); }
    IdealIsPositive(c, b);
  }

  lemma IdealIsPositive(c: Carry, b: Bucket)
    requires CarryOk(c)
    ensures Ideal(c, b) >= 3
  {
  }

  lemma QuotasFillPanel(c: Carry)
    requires CarryOk(c)
    ensures Quota(c, Hard) + Quota(c, Uncertain) + Quota(c, Easy) + Quota(c, Coverage) == 12
  {
    RemaindersPay(c);
    SlotsGiven(c);
  }

  lemma CarriesCancel(c: Carry)
    requires CarryOk(c) && Quota(c, Hard) + Quota(c, Uncertain) + Quota(c, Easy) + Quota(c, Coverage) == 12
    ensures NextCarryOf(c, Hard) + NextCarryOf(c, Uncertain) + NextCarryOf(c, Easy) + NextCarryOf(c, Coverage) == 0
  {
    var h, u, e, v := Quota(c, Hard), Quota(c, Uncertain), Quota(c, Easy), Quota(c, Coverage);
    assert 10 * h + 10 * u + 10 * e + 10 * v == 120;
  }

  // From a valid carry an allocation of quotas never fails: twelve slots, none negative, and the carry it
  // leaves is valid again.
  lemma QuotasNeverFail(c: Carry)
    requires CarryOk(c)
    ensures Quota(c, Hard) + Quota(c, Uncertain) + Quota(c, Easy) + Quota(c, Coverage) == 12
    ensures forall b :: Quota(c, b) >= 0
    ensures CarryOk(NextCarry(c))
  {
    QuotasFillPanel(c);
    CarriesCancel(c);
    forall b ensures Quota(c, b) >= 0 && -9 <= NextCarryOf(c, b) <= 9 { QuotaBounds(c, b); }
    NextCarryFrom(c, NextCarryOf(c, Hard), NextCarryOf(c, Uncertain), NextCarryOf(c, Easy), NextCarryOf(c, Coverage));
  }

  lemma NextCarryFrom(c: Carry, h: int, u: int, e: int, v: int)
    requires h == NextCarryOf(c, Hard) && u == NextCarryOf(c, Uncertain) && e == NextCarryOf(c, Easy) && v == NextCarryOf(c, Coverage)
    requires -9 <= h <= 9 && -9 <= u <= 9 && -9 <= e <= 9 && -9 <= v <= 9 && h + u + e + v == 0
    ensures CarryOk(NextCarry(c))
  {
    assert NextCarry(c) == Carry(h, u, e, v);
  }

  // The carry after some panels, and what a bucket's quota adds up to on the way.
  function Repeated(next: Carry -> Carry, c: Carry, panels: nat): Carry {
    if panels == 0 then c else next(Repeated(next, c, panels - 1))
  }

  function Added(next: Carry -> Carry, quota: Carry -> int, c: Carry, panels: nat): int {
    if panels == 0 then 0 else Added(next, quota, c, panels - 1) + quota(Repeated(next, c, panels - 1))
  }

  lemma {:induction false} CarriesStayValid(c: Carry, panels: nat)
    requires CarryOk(c)
    ensures CarryOk(Repeated(NextCarry, c, panels))
  {
    if panels > 0 {
      CarriesStayValid(c, panels - 1);
      QuotasNeverFail(Repeated(NextCarry, c, panels - 1));
    }
  }

  // A quota that pays its units and carries the difference pays exactly, up to the first and last carry.
  lemma {:induction false} DebtsCarry(
    next: Carry -> Carry, quota: Carry -> int, part: Carry -> int, units: int, c: Carry, panels: nat)
    requires forall x :: 10 * quota(x) == units + part(x) - part(next(x))
    ensures 10 * Added(next, quota, c, panels) == units * panels + part(c) - part(Repeated(next, c, panels))
  {
    if panels > 0 {
      DebtsCarry(next, quota, part, units, c, panels - 1);
      OneMore(units, panels);
    }
  }

  lemma OneMore(units: int, panels: nat)
    requires panels > 0
    ensures units * panels == units * (panels - 1) + units
  {
  }

  function QuotaFor(b: Bucket): Carry -> int { (c: Carry) => Quota(c, b) }

  function PartFor(b: Bucket): Carry -> int { (c: Carry) => Get(c, b) }

  lemma OnePanelShare(c: Carry, b: Bucket)
    ensures 10 * Quota(c, b) == 12 * TargetUnits(b) + Get(c, b) - Get(NextCarry(c), b)
  {
  }

  // However many panels are allocated, what a bucket got is its exact share up to the two carries, which
  // are under one task each.
  lemma SharesStayFair(c: Carry, panels: nat, b: Bucket)
    requires CarryOk(c)
    ensures 10 * Added(NextCarry, QuotaFor(b), c, panels)
         == 12 * TargetUnits(b) * panels + Get(c, b) - Get(Repeated(NextCarry, c, panels), b)
    ensures CarryOk(Repeated(NextCarry, c, panels))
  {
    CarriesStayValid(c, panels);
    forall x: Carry ensures 10 * QuotaFor(b)(x) == 12 * TargetUnits(b) + PartFor(b)(x) - PartFor(b)(NextCarry(x)) {
      OnePanelShare(x, b);
    }
    DebtsCarry(NextCarry, QuotaFor(b), PartFor(b), 12 * TargetUnits(b), c, panels);
  }
}
