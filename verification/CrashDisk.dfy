/** The durability contract that the spool and the TLS store rest on (internal/disk/disk.go).

    A disk has a live state, which every read sees, and the finite set of states that a power
    cut at this instant may leave behind. An effect that has not been synced may or may not have
    reached the disk, so it adds outcomes; a sync removes the outcomes that disagree with the
    live state about what was synced. A rename may persist its new name before the old name is
    gone, but never loses both: renames are the store's atomic transitions. */
module CrashDisk {

  /** How a disk primitive ended: it succeeded, reported an I/O error, or the machine went down. */
  datatype Io = Done | Failed | Crashed

  /** What may go wrong: I/O errors, and death of the process or the machine. */
  datatype World = World(mayFail: bool, mayDie: bool)

  /** An I/O error, where errors may happen. */
  method Fails(w: World) returns (fails: bool)
    ensures fails ==> w.mayFail
  {
    fails := *;
    fails := fails && w.mayFail;
  }

  /** The outcomes after one unsynced effect. */
  function After<F(==)>(outcomes: set<F>, effect: F -> F): set<F> {
    outcomes + (set c | c in outcomes :: effect(c))
  }

  /** The outcomes after one unsynced rename. */
  function AfterMove<F(==)>(outcomes: set<F>, link: F -> F, unlink: F -> F): set<F> {
    outcomes + (set c | c in outcomes :: link(c)) + (set c | c in outcomes :: unlink(link(c)))
  }

  /** The outcomes that a successful sync leaves: those that agree with the live state. */
  function Kept<F(==)>(outcomes: set<F>, same: (F, F) -> bool, live: F): set<F> {
    set c | c in outcomes && same(c, live)
  }

  class Disk<F(==, !new)> {
    var live: F
    var outcomes: set<F>

    ghost predicate Valid() reads this {
      live in outcomes
    }

    /** Nothing is waiting for a sync. */
    ghost predicate Settled() reads this {
      outcomes == {live}
    }

    constructor (initial: F)
      ensures live == initial && Settled() && Valid()
    {
      live := initial;
      outcomes := {initial};
    }

    /** One visible but unsynced change. */
    method Do(effect: F -> F)
      requires Valid()
      modifies this
      ensures Valid()
      ensures live == effect(old(live))
      ensures outcomes == After(old(outcomes), effect)
    {
      outcomes := After(outcomes, effect);
      live := effect(live);
    }

    /** One visible but unsynced rename. */
    method Move(link: F -> F, unlink: F -> F)
      requires Valid()
      modifies this
      ensures Valid()
      ensures live == unlink(link(old(live)))
      ensures outcomes == AfterMove(old(outcomes), link, unlink)
    {
      outcomes := AfterMove(outcomes, link, unlink);
      live := unlink(link(live));
    }

    /** A sync that succeeded. */
    method Sync(same: (F, F) -> bool)
      requires Valid()
      requires same(live, live)
      modifies this`outcomes
      ensures Valid()
      ensures outcomes == Kept(old(outcomes), same, live)
    {
      outcomes := Kept(outcomes, same, live);
    }

    /** Power may go here: the live state becomes any outcome and nothing is pending. */
    method MaybeCrash(allowed: bool) returns (crashed: bool)
      requires Valid()
      modifies this
      ensures Valid()
      ensures crashed ==> allowed && live in old(outcomes) && Settled()
      ensures !crashed ==> live == old(live) && outcomes == old(outcomes)
    {
      crashed := *;
      crashed := crashed && allowed;
      if crashed {
        var left :| left in outcomes;
        live := left;
        outcomes := {left};
      }
    }
  }
}
