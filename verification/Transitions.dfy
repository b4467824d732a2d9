/** Which envelope of an ID may be scheduled, and how operations on one ID exclude each other
    (internal/queue/transitions.go, scheduleLocked of internal/queue/schedule.go, Requeue and RequeueAfter of
    internal/queue/delivery.go). */
module Transitions {
  import opened Grouping

  type Id = string

  /** What decides whether an envelope may be scheduled, and what is. */
  datatype Book = Book(accounted: map<Id, Version>, blocked: set<Id>, scheduled: map<Id, Envelope>)

  /** Only the accounted version of an ID that is neither blocked nor scheduled may be scheduled. */
  predicate Schedulable(b: Book, e: Envelope) {
    !Stale(b, e) && e.id !in b.scheduled
  }

  /** The envelope is of a version that is not, or no longer, the accounted one, or its ID is blocked. */
  predicate Stale(b: Book, e: Envelope) {
    e.id in b.blocked || e.id !in b.accounted || b.accounted[e.id] != e.version
  }

  function Schedule(b: Book, e: Envelope): Book {
    if Schedulable(b, e) then b.(scheduled := b.scheduled[e.id := e]) else b
  }

  /** What is scheduled under the ID makes place for this envelope, whether or not it may be scheduled. */
  function Replace(b: Book, e: Envelope): Book {
    Schedule(b.(scheduled := b.scheduled - {e.id}), e)
  }

  /** Replacing leaves the ID scheduled if and only if the envelope is not stale: a stale one drops what was
      scheduled, a newer version included, and puts nothing in its place. */
  lemma ReplaceIff(b: Book, e: Envelope)
    ensures e.id in Replace(b, e).scheduled <==> !Stale(b, e)
    ensures !Stale(b, e) ==> Replace(b, e).scheduled[e.id] == e
    ensures Replace(b, e).scheduled - {e.id} == b.scheduled - {e.id}
    ensures Replace(b, e).accounted == b.accounted && Replace(b, e).blocked == b.blocked
  {
  }

  /** The first of some envelopes that may be scheduled is. */
  function ScheduleOne(b: Book, es: seq<Envelope>): Book {
    if es == [] then b else if Schedulable(b, es[0]) then Schedule(b, es[0]) else ScheduleOne(b, es[1..])
  }

  predicate IsFirst(b: Book, es: seq<Envelope>, i: int) {
    0 <= i < |es| && Schedulable(b, es[i]) && forall k :: 0 <= k < i ==> !Schedulable(b, es[k])
  }

  /** What was held back is scheduled at the end of the transition if and only if some of it still may be, and
      then it is the first that may; nothing else changes. */
  lemma {:induction false} HeldBackIff(b: Book, es: seq<Envelope>, id: Id)
    requires id !in b.scheduled && forall i :: 0 <= i < |es| ==> es[i].id == id
    ensures id in ScheduleOne(b, es).scheduled <==> exists i :: 0 <= i < |es| && Schedulable(b, es[i])
    ensures forall i :: IsFirst(b, es, i) ==>
      id in ScheduleOne(b, es).scheduled && ScheduleOne(b, es).scheduled[id] == es[i]
    ensures ScheduleOne(b, es) == b.(scheduled := ScheduleOne(b, es).scheduled)
    ensures ScheduleOne(b, es).scheduled - {id} == b.scheduled - {id}
    decreases |es|
  {
    if es != [] && !Schedulable(b, es[0]) {
      HeldBackIff(b, es[1..], id);
      assert forall i :: 0 < i < |es| ==> es[i] == es[1..][i - 1];
      forall i | IsFirst(b, es, i) ensures IsFirst(b, es[1..], i - 1) {
        assert forall k :: 0 <= k < i - 1 ==> es[1..][k] == es[k + 1];
      }
    }
  }

  class Queue {
    var book: Book
    var transitioning: set<Id>
    var requeues: map<Id, seq<Envelope>>

    /** What is held back belongs to its ID, and the schedule files envelopes under their own IDs. */
    ghost predicate Valid() reads this {
      && (forall id :: id in requeues ==> forall i :: 0 <= i < |requeues[id]| ==> requeues[id][i].id == id)
      && (forall id :: id in book.scheduled ==> book.scheduled[id].id == id)
    }

    constructor (accounted: map<Id, Version>)
      ensures Valid() && book == Book(accounted, {}, map[]) && transitioning == {} && requeues == map[]
    {
      book, transitioning, requeues := Book(accounted, {}, map[]), {}, map[];
    }

    function HeldBack(id: Id): seq<Envelope>
      reads this
    {
      if id in requeues then requeues[id] else []
    }

    method ScheduleLocked(e: Envelope) returns (added: bool)
      requires Valid()
      modifies `book
      ensures Valid() && added == Schedulable(old(book), e) && book == Schedule(old(book), e)
      ensures added <==>
        && e.id !in book.blocked && e.id in book.accounted && book.accounted[e.id] == e.version
        && e.id !in old(book).scheduled
      ensures book == old(book).(scheduled := if added then old(book).scheduled[e.id := e] else old(book).scheduled)
    {
      if e.id in book.blocked { return false; }
      if e.id !in book.accounted || book.accounted[e.id] != e.version { return false; }
      if e.id in book.scheduled { return false; }
      book := book.(scheduled := book.scheduled[e.id := e]);
      return true;
    }

    /** Claims all IDs or none: an operation never gets an ID that another one has. */
    method BeginTransitions(ids: seq<Id>) returns (ok: bool)
      requires Valid()
      modifies `transitioning
      ensures Valid() && (ok <==> forall i :: 0 <= i < |ids| ==> ids[i] !in old(transitioning))
      ensures transitioning ==
        if ok then old(transitioning) + (set i | 0 <= i < |ids| :: ids[i]) else old(transitioning)
    {
      for i := 0 to |ids|
        invariant forall k :: 0 <= k < i ==> ids[k] !in transitioning
      {
        if ids[i] in transitioning { return false; }
      }
      for i := 0 to |ids|
        invariant transitioning == old(transitioning) + set k | 0 <= k < i :: ids[k]
      {
        transitioning := transitioning + {ids[i]};
      }
      return true;
    }

    /** Gives an ID back and schedules the first envelope held back for it that still may be. */
    method EndTransition(id: Id)
      requires Valid()
      modifies this
      ensures Valid() && transitioning == old(transitioning) - {id} && requeues == old(requeues) - {id}
      ensures book == ScheduleOne(old(book), old(HeldBack(id)))
      ensures id !in old(book).scheduled ==>
        (id in book.scheduled <==>
          exists i :: 0 <= i < |old(HeldBack(id))| && Schedulable(old(book), old(HeldBack(id))[i]))
      ensures id !in old(book).scheduled ==> forall i :: IsFirst(old(book), old(HeldBack(id)), i) ==>
        id in book.scheduled && book.scheduled[id] == old(HeldBack(id))[i]
    {
      var held := HeldBack(id);
      if id !in book.scheduled { HeldBackIff(book, held, id); }
      transitioning := transitioning - {id};
      requeues := requeues - {id};
      ghost var before := book;
      for i := 0 to |held|
        invariant Valid() && book == before && transitioning == old(transitioning) - {id}
        invariant requeues == old(requeues) - {id}
        invariant ScheduleOne(before, held[i..]) == ScheduleOne(before, held)
      {
        assert held[i..][0] == held[i] && held[i..][1..] == held[i + 1..];
        var added := ScheduleLocked(held[i]);
        if added { return; }
      }
      assert held[|held|..] == [];
    }

    /** Puts an envelope back on the schedule. While its ID is in transition it is held back, once per version. */
    method Requeue(e: Envelope)
      requires Valid()
      modifies this
      ensures Valid() && transitioning == old(transitioning)
      ensures e.id in transitioning ==> book == old(book) && requeues - {e.id} == old(requeues) - {e.id}
      ensures e.id in transitioning ==>
        var held := old(HeldBack(e.id));
        var known := exists i :: 0 <= i < |held| && held[i].version == e.version;
        HeldBack(e.id) == if known then held else held + [e]
      ensures e.id !in transitioning ==> requeues == old(requeues) && book == Schedule(old(book), e)
    {
      if e.id in transitioning {
        var held := HeldBack(e.id);
        for i := 0 to |held|
          invariant forall k :: 0 <= k < i ==> held[k].version != e.version
        {
          if held[i].version == e.version { return; }
        }
        requeues := requeues[e.id := held + [e]];
      } else {
        var added := ScheduleLocked(e);
      }
    }

    /** Reschedules an envelope for later. It does not look at transitions, and what is scheduled under the ID is
        dropped even if the envelope is stale, so that the ID may end up unscheduled. */
    method RequeueAfter(e: Envelope, when: int)
      requires Valid()
      modifies `book
      ensures Valid() && book == Replace(old(book), e.(next := when))
      ensures e.id in book.scheduled <==> !Stale(old(book), e)
      ensures e.id in book.scheduled ==> book.scheduled[e.id] == e.(next := when)
    {
      var deferred := e.(next := when);
      book := book.(scheduled := book.scheduled - {e.id});
      var added := ScheduleLocked(deferred);
    }
  }
}
