/** Reservation of spool space with tiered limits (internal/queue/spool.go, AllocationSize of
    internal/disk/disk.go). */
module Spool {

  const MAX_INT64 := 0x7FFF_FFFF_FFFF_FFFF
  const UNIT := 65536
  const MAX_METADATA := 4 * 1024 * 1024
  const MIN_EMERGENCY := 16 * 1024 * 1024

  /** What one file or directory is charged. */
  function AllocationSize(size: int): (a: int)
    ensures size <= MAX_INT64 ==> a >= size && a >= UNIT
    ensures size > 0 ==> a - size < UNIT
    ensures a % UNIT == 0 || a == MAX_INT64
  {
    if size <= 0 then UNIT
    else if size > MAX_INT64 - (UNIT - 1) then MAX_INT64
    else (size + UNIT - 1) / UNIT * UNIT
  }

  lemma AllocationGrows(a: int, b: int)
    requires a <= b <= MAX_INT64
    ensures AllocationSize(a) <= AllocationSize(b)
  {
    if 0 < a && b <= MAX_INT64 - (UNIT - 1) {
      assert (a + UNIT - 1) / UNIT <= (b + UNIT - 1) / UNIT;
    }
  }

  /** What a burial holds while it replaces metadata of the given size. */
  function BurySize(meta: int): int {
    AllocationSize(meta + AllocationSize(0)) + AllocationSize(0)
  }

  const TERMINAL_RESERVE := BurySize(MAX_METADATA)

  /** Ordinary writes leave the emergency reserve alone, emergency writes leave room for one burial, and a
      terminal transition may use everything. */
  datatype Tier = Ordinary | Emergency | Terminal

  datatype Limits = Limits(max: int, emergency: int, minFree: int)

  /** What opening a queue accepts. */
  predicate LimitsOk(l: Limits) {
    0 <= l.max <= MAX_INT64 && 0 <= l.emergency <= MAX_INT64 && (l.max > 0 ==> MIN_EMERGENCY <= l.emergency < l.max)
  }

  function TierLimit(l: Limits, tier: Tier): int {
    match tier
    case Ordinary => l.max - l.emergency
    case Emergency => l.max - TERMINAL_RESERVE
    case Terminal => l.max
  }

  /** The reserve for one burial is smaller than the least emergency reserve. */
  lemma TiersNest(l: Limits)
    requires LimitsOk(l) && l.max > 0
    ensures 0 < TERMINAL_RESERVE < MIN_EMERGENCY
    ensures 0 < TierLimit(l, Ordinary) <= TierLimit(l, Emergency) < TierLimit(l, Terminal)
  {
    assert AllocationSize(0) == 65536;
    assert AllocationSize(MAX_METADATA + 65536) == 4259840;
  }

  lemma BuryFits(meta: int)
    requires 0 <= meta <= MAX_METADATA
    ensures meta + 2 * UNIT <= BurySize(meta) < meta + 3 * UNIT && BurySize(meta) <= TERMINAL_RESERVE
  {
    AllocationGrows(meta + AllocationSize(0), MAX_METADATA + AllocationSize(0));
  }

  /** The spool quota alone admits the reservation. */
  predicate Fits(l: Limits, taken: int, bytes: int, wanted: Tier) {
    bytes >= 0 && taken + bytes <= MAX_INT64 && (l.max > 0 ==> taken + bytes <= TierLimit(l, wanted))
  }

  /** The free space that the tier must leave on the disk. */
  function Floor(l: Limits, wanted: Tier): int {
    l.minFree + match wanted case Ordinary => l.emergency case Emergency => TERMINAL_RESERVE case Terminal => 0
  }

  /** The disk's free space covers the floor and everything reserved; without a floor it is not asked. */
  predicate Covered(l: Limits, reserved: int, wanted: Tier, free: int) {
    l.minFree > 0 ==> Floor(l, wanted) <= MAX_INT64 && reserved + Floor(l, wanted) <= free
  }

  /** The tiers differ by exactly the reserves: an ordinary write fits beside a full emergency reserve, an emergency
      write beside one burial, and a terminal one up to the limit; on the disk each leaves the same room free. */
  lemma TiersDiffer(l: Limits, taken: int, bytes: int, free: int)
    requires LimitsOk(l) && l.max > 0 && bytes >= 0 && taken >= 0 && free <= MAX_INT64
    ensures Fits(l, taken, bytes, Terminal) <==> taken + bytes <= l.max
    ensures Fits(l, taken, bytes, Emergency) <==> Fits(l, taken, bytes + TERMINAL_RESERVE, Terminal)
    ensures Fits(l, taken, bytes, Ordinary) <==> Fits(l, taken, bytes + l.emergency, Terminal)
    ensures Covered(l, bytes, Terminal, free) <==> l.minFree <= 0 || l.minFree + bytes <= free
    ensures Covered(l, bytes, Emergency, free) <==> Covered(l, bytes + TERMINAL_RESERVE, Terminal, free)
    ensures Covered(l, bytes, Ordinary, free) <==> Covered(l, bytes + l.emergency, Terminal, free)
  {
    TiersNest(l);
  }

  datatype Operation =
    | Reserving(bytes: int, wanted: Tier, free: int)
    | Committing(bytes: int) | Releasing(bytes: int) | Removing(bytes: int)

  class Usage {
    const limits: Limits
    var used: int
    var reserved: int
    /** The tier of the last reservation that was admitted. */
    ghost var tier: Tier

    ghost predicate Valid() reads this {
      LimitsOk(limits) && 0 <= used <= MAX_INT64 && 0 <= reserved <= MAX_INT64
    }

    /** What is used and reserved stays within the limit of the last reservation admitted. */
    ghost predicate Bounded() reads this {
      used + reserved <= MAX_INT64 && (limits.max > 0 ==> used + reserved <= TierLimit(limits, tier))
    }

    constructor (l: Limits)
      requires LimitsOk(l)
      ensures Valid() && Bounded() && limits == l && used == 0 && reserved == 0 && tier == Ordinary
    {
      limits, used, reserved, tier := l, 0, 0, Ordinary;
      new;
      if l.max > 0 { TiersNest(l); }
    }

    /** Reserves space if the tier's limit and the disk allow it. `free` is what the disk reports. */
    method Reserve(bytes: int, wanted: Tier, free: int) returns (ok: bool)
      requires Valid()
      modifies `reserved, `tier
      ensures Valid()
      ensures ok <==>
        Fits(limits, used + old(reserved), bytes, wanted) && Covered(limits, old(reserved) + bytes, wanted, free)
      ensures ok ==> reserved == old(reserved) + bytes && tier == wanted && Bounded()
      ensures !ok ==> reserved == old(reserved) && tier == old(tier)
    {
      if bytes < 0 { return false; }
      if reserved > MAX_INT64 - bytes { return false; }
      var total := reserved + bytes;
      if used > MAX_INT64 - total { return false; }
      if limits.max > 0 {
        TiersNest(limits);
        var limit := TierLimit(limits, wanted);
        if limit < 0 || used + total > limit { return false; }
      }
      if limits.minFree > 0 {
        var floor := Floor(limits, wanted);
        if floor > MAX_INT64 || free < floor || total > free - floor { return false; }
      }
      reserved := total;
      tier := wanted;
      return true;
    }

    /** Turns reserved bytes into used ones. A commit of no more than is reserved keeps the total. */
    method Commit(bytes: int)
      requires Valid() && 0 <= bytes
      modifies `used, `reserved
      ensures Valid()
      ensures reserved == if bytes > old(reserved) then 0 else old(reserved) - bytes
      ensures used == if old(used) + bytes > MAX_INT64 then MAX_INT64 else old(used) + bytes
      ensures old(Bounded()) && bytes <= old(reserved) ==> used + reserved == old(used) + old(reserved) && Bounded()
    {
      reserved := if bytes > reserved then 0 else reserved - bytes;
      if bytes > 0 {
        used := if used > MAX_INT64 - bytes then MAX_INT64 else used + bytes;
      }
    }

    method Release(bytes: int)
      requires Valid() && 0 <= bytes
      modifies `reserved
      ensures Valid() && reserved == if bytes > old(reserved) then 0 else old(reserved) - bytes
      ensures old(Bounded()) ==> Bounded()
    {
      reserved := if bytes > reserved then 0 else reserved - bytes;
    }

    method Remove(bytes: int)
      requires Valid()
      modifies `used
      ensures Valid() && used == if bytes <= 0 then old(used) else if bytes >= old(used) then 0 else old(used) - bytes
      ensures old(Bounded()) ==> Bounded()
    {
      if bytes <= 0 { return; }
      used := if bytes >= used then 0 else used - bytes;
    }

    /** Holds what a burial needs. Unless the last reservation admitted was terminal, the quota has room for it,
        so that only the disk's free space can stand in its way. */
    method Bury(meta: int, free: int) returns (ok: bool)
      requires Valid() && Bounded() && 0 <= meta <= MAX_METADATA
      modifies `reserved, `tier
      ensures Valid() && Bounded()
      ensures limits.max > 0 && !old(tier).Terminal? ==> Fits(limits, used + old(reserved), BurySize(meta), Terminal)
      ensures
        var fits := Fits(limits, used + old(reserved), BurySize(meta), Terminal);
        ok <==> fits && Covered(limits, old(reserved) + BurySize(meta), Terminal, free)
      ensures reserved == if ok then old(reserved) + BurySize(meta) else old(reserved)
    {
      if limits.max > 0 { TiersNest(limits); }
      BuryFits(meta);
      ok := Reserve(BurySize(meta), Terminal, free);
    }

    /** After any sequence of reservations of every tier, commits of what is reserved, releases and removals
        from an empty spool, whatever they were granted: unless the `last` reservation admitted was terminal, one
        burial passes the quota, and only the disk's free space beside what is `held` can refuse it. */
    method AnyRunThenBury(ops: seq<Operation>, meta: int, free: int)
      returns (ok: bool, ghost last: Tier, ghost held: int)
      requires Valid() && used == 0 && reserved == 0 && tier == Ordinary
      requires limits.max > 0 && 0 <= meta <= MAX_METADATA
      modifies this
      ensures Valid() && Bounded() && used + reserved <= limits.max
      ensures !last.Terminal? ==> Fits(limits, used + held, BurySize(meta), Terminal)
      ensures !last.Terminal? ==> (ok <==> Covered(limits, held + BurySize(meta), Terminal, free))
      ensures reserved == if ok then held + BurySize(meta) else held
    {
      TiersNest(limits);
      for i := 0 to |ops|
        invariant Valid() && Bounded()
      {
        match ops[i]
        case Reserving(bytes, wanted, free) => var granted := Reserve(bytes, wanted, free);
        case Committing(bytes) => if 0 <= bytes <= reserved { Commit(bytes); }
        case Releasing(bytes) => if 0 <= bytes { Release(bytes); }
        case Removing(bytes) => Remove(bytes);
      }
      last, held := tier, reserved;
      ok := Bury(meta, free);
    }
  }
}
