/** No message is lost while the deliverer runs (internal/deliver/run.go, attempt.go, admission.go): each that the
    queue accounts for stays on the schedule, in the parking list or with an attempt, until it is handled. */
module NotLost {
  import opened Options
  import opened Limits
  import opened Grouping
  import opened Transitions
  import opened Admission
  import opened OnePlace

  /** Every envelope, wherever it is, is of the accounted version. */
  ghost predicate Current(s: State) {
    && CurrentBook(s.book)
    && (forall i :: 0 <= i < |s.parked| ==> !Stale(s.book, s.parked[i].envelope))
    && (forall t :: Busy(s, t) ==> !Stale(s.book, s.threads[t].env.value))
  }

  ghost predicate CurrentBook(b: Book) {
    forall id :: id in b.scheduled ==> !Stale(b, b.scheduled[id])
  }

  /** After an error the caller of the attempt still knows the message. */
  predicate Recalls(s: State, t: nat, id: string) {
    && t in s.threads && (s.threads[t].stage.Leaving? || s.threads[t].stage.Left? || s.threads[t].stage.Failing?)
    && s.threads[t].copy.Some? && s.threads[t].copy.value.id == id && !Stale(s.book, s.threads[t].copy.value)
  }

  ghost predicate Recalled(s: State, id: string) {
    exists t :: Recalls(s, t, id)
  }

  /** Every message that may be delivered is somewhere, or known to a caller that is about to put it back. */
  ghost predicate Kept(s: State) {
    forall id :: id in s.book.accounted && id !in s.book.blocked ==> Somewhere(s, id) || Recalled(s, id)
  }

  /** The two ways in which the deliverer lets go of a message: a caller gives it up after an error that is not
      storage pressure, with nobody else to know it; or a late requeue finds someone else at work, or takes off the
      schedule what is newer than its copy. */
  ghost predicate LetsGo(s: State, e: Event)
    requires Enabled(s, e)
  {
    match e
    case Forget(t) => s.threads[t].copy.Some? && !Somewhere(s, s.threads[t].copy.value.id)
    case RequeueAfter(t) =>
      var copy := s.threads[t].copy.value;
      Collides(s, t) || (copy.id in s.book.scheduled && Stale(s.book, copy))
    case _ => false
  }

  // ---------- everything stays current ----------

  lemma ScheduleCurrent(b: Book, e: Envelope)
    requires CurrentBook(b)
    ensures CurrentBook(Schedule(b, e))
  {
  }

  lemma {:induction false} RequeueCurrent(b: Book, parked: seq<Wait>)
    requires CurrentBook(b)
    ensures CurrentBook(RequeueAll(b, parked))
    ensures RequeueAll(b, parked).accounted == b.accounted && RequeueAll(b, parked).blocked == b.blocked
    decreases |parked|
  {
    if parked != [] {
      ScheduleCurrent(b, parked[0].envelope);
      RequeueCurrent(Schedule(b, parked[0].envelope), parked[1..]);
    }
  }

  /** Only an outcome changes what is accounted. */
  lemma SameVersions(s: State, e: Event)
    requires Enabled(s, e) && !e.Settle? && CurrentBook(s.book)
    ensures Do(s, e).book.accounted == s.book.accounted && Do(s, e).book.blocked == s.book.blocked
    ensures CurrentBook(Do(s, e).book)
  {
    match e
    case Return => RequeueCurrent(s.book, s.parked);
    case RequeueAfter(t) => ReplaceIff(s.book, s.threads[t].copy.value);
    case _ =>
  }

  lemma ThreadsCurrent(s: State, e: Event, t: nat)
    requires Current(s) && Enabled(s, e) && !e.Settle? && Busy(Do(s, e), t)
    ensures !Stale(s.book, Do(s, e).threads[t].env.value)
  {
    if !e.Spawn? && t == Actor(e) {
      ActVersion(s, e);
    }
  }

  /** An event leaves its thread the version it had, gives it the one it popped, or takes it away. */
  lemma ActVersion(s: State, e: Event)
    requires Enabled(s, e) && !e.Spawn?
    ensures
      var th, th' := s.threads[Actor(e)], Act(s, e).thread;
      th'.Some? && th'.value.env.Some? ==>
        if e.Pop? then th'.value.env.value == s.book.scheduled[e.id]
        else
          && th.env.Some? && th.env.value.id == th'.value.env.value.id
          && th.env.value.version == th'.value.env.value.version
  {
  }

  lemma ParkedCurrent(s: State, e: Event, i: nat)
    requires Current(s) && Enabled(s, e) && !e.Settle? && i < |Do(s, e).parked|
    ensures !Stale(s.book, Do(s, e).parked[i].envelope)
  {
    if e.AskUser? || e.AskDomain? {
      assert Busy(s, 0);
    }
  }

  lemma OtherCurrent(s: State, e: Event)
    requires Current(s) && Enabled(s, e) && !e.Settle?
    ensures Current(Do(s, e))
  {
    var s' := Do(s, e);
    SameVersions(s, e);
    forall t | Busy(s', t) ensures !Stale(s'.book, s'.threads[t].env.value) {
      ThreadsCurrent(s, e, t);
    }
    forall i | 0 <= i < |s'.parked| ensures !Stale(s'.book, s'.parked[i].envelope) {
      ParkedCurrent(s, e, i);
    }
  }

  /** An outcome changes what is accounted of its own message only. */
  lemma SettledOthers(b: Book, e: Envelope, out: Outcome, x: Envelope)
    requires x.id != e.id
    ensures Stale(Settled(b, e, out), x) == Stale(b, x)
    ensures x.id in Settled(b, e, out).scheduled <==> x.id in b.scheduled
    ensures x.id in b.scheduled ==> Settled(b, e, out).scheduled[x.id] == b.scheduled[x.id]
  {
  }

  /** The message itself is handled, or what is left of it is current and on the schedule if it was put back. */
  lemma SettledOwn(b: Book, e: Envelope, out: Outcome)
    requires !Stale(b, e) && e.id !in b.scheduled
    ensures
      var b', e' := Settled(b, e, out), Stored(e, out);
      && (out.Handled? ==> e.id !in b'.accounted) && (!out.Handled? ==> !Stale(b', e'))
      && (out.Requeued? || out.Rescheduled? || (out.Erred? && out.back) ==>
           e.id in b'.scheduled && b'.scheduled[e.id] == e')
      && (e.id in b'.scheduled ==> b'.scheduled[e.id] == e' && !out.Handled?)
  {
  }

  lemma SettleBook(s: State, t: nat, out: Outcome)
    requires Once(s) && Current(s) && Enabled(s, Settle(t, out))
    ensures s.threads[t].env.value.id !in s.book.scheduled
    ensures CurrentBook(Settled(s.book, s.threads[t].env.value, out))
  {
    var e := s.threads[t].env.value;
    assert IdAt(s, WithThread(t)) == Some(e.id);
    assert e.id in s.book.scheduled ==> IdAt(s, OnSchedule(e.id)) == Some(e.id);
    var b' := Settled(s.book, e, out);
    SettledOwn(s.book, e, out);
    forall id | id in b'.scheduled ensures !Stale(b', b'.scheduled[id]) {
      if id != e.id {
        SettledElsewhere(s, e, out, id);
      }
    }
  }

  lemma SettledElsewhere(s: State, e: Envelope, out: Outcome, id: string)
    requires Filed(s.book) && CurrentBook(s.book) && id != e.id && id in Settled(s.book, e, out).scheduled
    ensures !Stale(Settled(s.book, e, out), Settled(s.book, e, out).scheduled[id])
  {
    assert id in s.book.scheduled;
    SettledOthers(s.book, e, out, s.book.scheduled[id]);
  }

  lemma SettleCurrent(s: State, t: nat, out: Outcome)
    requires Once(s) && Current(s) && Enabled(s, Settle(t, out))
    ensures Current(Do(s, Settle(t, out)))
  {
    var e, s' := s.threads[t].env.value, Do(s, Settle(t, out));
    assert IdAt(s, WithThread(t)) == Some(e.id);
    SettleBook(s, t, out);
    SettledOwn(s.book, e, out);
    forall x | Busy(s', x) ensures !Stale(s'.book, s'.threads[x].env.value) {
      assert x != t && Busy(s, x) && s'.threads[x] == s.threads[x];
      assert IdAt(s, WithThread(x)) == Some(s.threads[x].env.value.id);
      SettledOthers(s.book, e, out, s.threads[x].env.value);
    }
    forall i | 0 <= i < |s'.parked| ensures !Stale(s'.book, s'.parked[i].envelope) {
      if i < |s.parked| {
        assert IdAt(s, InParking(i)) == Some(s.parked[i].envelope.id);
        SettledOthers(s.book, e, out, s.parked[i].envelope);
      }
    }
  }

  lemma StepCurrent(s: State, e: Event)
    requires Once(s) && Current(s) && Enabled(s, e)
    ensures Current(Do(s, e))
  {
    if e.Settle? {
      SettleCurrent(s, e.t, e.out);
    } else {
      OtherCurrent(s, e);
    }
  }

  // ---------- nothing gets lost ----------

  lemma {:induction false} RequeueSchedules(b: Book, parked: seq<Wait>, id: string)
    requires id in b.scheduled || exists i :: 0 <= i < |parked| && parked[i].envelope.id == id
    requires forall i :: 0 <= i < |parked| ==> !Stale(b, parked[i].envelope)
    ensures id in RequeueAll(b, parked).scheduled
    decreases |parked|
  {
    if parked != [] {
      var b' := Schedule(b, parked[0].envelope);
      assert parked[0].envelope.id in b'.scheduled;
      if id !in b'.scheduled {
        var i :| 0 <= i < |parked| && parked[i].envelope.id == id;
        assert parked[1..][i - 1] == parked[i];
      }
      RequeueSchedules(b', parked[1..], id);
    }
  }

  /** Where an envelope goes that is at place `p` before the event. */
  function Destination(s: State, e: Event, p: Place): Place
    requires Enabled(s, e)
  {
    match e
    case Pop(id) => if p == OnSchedule(id) then WithThread(0) else p
    case AskUser =>
      if p == WithThread(0) && !Available(s.users, s.userLimit, s.threads[0].env.value.owner)
      then InParking(|s.parked|) else p
    case AskDomain =>
      if p == WithThread(0) && !Available(s.domains, s.domainLimit, NextPendingDomain(s.threads[0].env.value))
      then InParking(|s.parked|) else p
    case Spawn(t) => if p == WithThread(0) then WithThread(t) else p
    case Cancel => if p == WithThread(0) && Busy(s, 0) then OnSchedule(s.threads[0].env.value.id) else p
    case Return => if p.InParking? && p.i < |s.parked| then OnSchedule(s.parked[p.i].envelope.id) else p
    case Wake(i) =>
      if p == InParking(i) then OnSchedule(s.parked[i].envelope.id)
      else if p.InParking? && p.i > i then InParking(p.i - 1) else p
    case Settle(t, out) =>
      if p == WithThread(t) then
        if out.Parked? then InParking(|s.parked|) else OnSchedule(s.threads[t].env.value.id)
      else p
    case _ => p
  }

  lemma FromSchedule(s: State, e: Event, p: Place)
    requires PlacesOk(s) && Once(s) && Current(s) && Enabled(s, e) && !e.Settle? && !LetsGo(s, e)
    requires p.OnSchedule? && IdAt(s, p).Some?
    ensures IdAt(Do(s, e), Destination(s, e, p)) == IdAt(s, p)
  {
    if e.Return? {
      RequeueSchedules(s.book, s.parked, p.id);
    } else if e.RequeueAfter? {
      ReplaceIff(s.book, s.threads[e.t].copy.value);
      assert p.id != s.threads[e.t].copy.value.id ==> p.id in s.book.scheduled - {s.threads[e.t].copy.value.id};
    }
  }

  lemma FromParking(s: State, e: Event, p: Place)
    requires PlacesOk(s) && Once(s) && Current(s) && Enabled(s, e) && !e.Settle?
    requires p.InParking? && IdAt(s, p).Some?
    ensures IdAt(Do(s, e), Destination(s, e, p)) == IdAt(s, p)
  {
    if e.Return? {
      RequeueSchedules(s.book, s.parked, s.parked[p.i].envelope.id);
    } else if e.Wake? {
      FromWake(s, e.i, p.i);
    } else {
      ParkedStay(s, e);
    }
  }

  lemma FromWake(s: State, i: nat, k: nat)
    requires Current(s) && Enabled(s, Wake(i)) && k < |s.parked|
    ensures IdAt(Do(s, Wake(i)), Destination(s, Wake(i), InParking(k))) == Some(s.parked[k].envelope.id)
  {
    assert !Stale(s.book, s.parked[i].envelope);
  }

  lemma ParkedStay(s: State, e: Event)
    requires Enabled(s, e) && !e.Return? && !e.Wake?
    ensures s.parked <= Do(s, e).parked
  {
  }

  /** An event leaves the other threads alone. */
  lemma OthersStay(s: State, e: Event, t: nat)
    requires Enabled(s, e) && t != Actor(e) && e != Spawn(t)
    ensures t in Do(s, e).threads <==> t in s.threads
    ensures t in s.threads ==> Do(s, e).threads[t] == s.threads[t]
  {
  }

  lemma StaysPut(s: State, e: Event, t: nat)
    requires Enabled(s, e) && t != Actor(e) && e != Spawn(t)
    ensures Destination(s, e, WithThread(t)) == WithThread(t)
  {
  }

  lemma FromThread(s: State, e: Event, p: Place)
    requires PlacesOk(s) && Once(s) && Current(s) && Enabled(s, e) && !e.Settle?
    requires p.WithThread? && IdAt(s, p).Some?
    ensures IdAt(Do(s, e), Destination(s, e, p)) == IdAt(s, p)
  {
    if p.t == 0 && Actor(e) == 0 {
      FromLoop(s, e);
    } else if p.t == Actor(e) {
      FromAttempt(s, e);
    } else {
      OthersStay(s, e, p.t);
      StaysPut(s, e, p.t);
    }
  }

  lemma FromLoop(s: State, e: Event)
    requires PlacesOk(s) && Once(s) && Current(s) && Enabled(s, e) && Actor(e) == 0 && Busy(s, 0)
    ensures IdAt(Do(s, e), Destination(s, e, WithThread(0))) == IdAt(s, WithThread(0))
  {
    assert ThreadOk(s.threads[0]);
    if e.AskUser? || e.AskDomain? || e.Spawn? {
      FromAsking(s, e);
    } else if e.Cancel? {
      FromCancel(s);
    }
  }

  lemma FromAsking(s: State, e: Event)
    requires Enabled(s, e) && (e.AskUser? || e.AskDomain? || e.Spawn?)
    ensures IdAt(Do(s, e), Destination(s, e, WithThread(0))) == IdAt(s, WithThread(0))
  {
  }

  lemma FromCancel(s: State)
    requires Current(s) && Enabled(s, Cancel) && Busy(s, 0)
    ensures IdAt(Do(s, Cancel), OnSchedule(s.threads[0].env.value.id)) == IdAt(s, WithThread(0))
  {
    assert !Stale(s.book, s.threads[0].env.value);
  }

  /** An attempt keeps its envelope up to its outcome. */
  lemma FromAttempt(s: State, e: Event)
    requires PlacesOk(s) && Enabled(s, e) && !e.Settle? && Actor(e) != 0 && Busy(s, Actor(e))
    ensures IdAt(Do(s, e), WithThread(Actor(e))) == IdAt(s, WithThread(Actor(e)))
  {
    assert ThreadOk(s.threads[Actor(e)]);
  }

  /** Every other event takes an envelope from one place to another. */
  lemma Arrives(s: State, e: Event, p: Place)
    requires PlacesOk(s) && Once(s) && Current(s) && Enabled(s, e) && !e.Settle? && !LetsGo(s, e)
    requires IdAt(s, p).Some?
    ensures IdAt(Do(s, e), Destination(s, e, p)) == IdAt(s, p)
  {
    match p
    case OnSchedule(_) => FromSchedule(s, e, p);
    case InParking(_) => FromParking(s, e, p);
    case WithThread(_) => FromThread(s, e, p);
  }

  /** What a caller knows it still knows, or has put back, or somebody else has. */
  lemma StillRecalled(s: State, e: Event, t: nat, id: string)
    requires PlacesOk(s) && Once(s) && Current(s) && Enabled(s, e) && !e.Settle? && !LetsGo(s, e)
    requires Recalls(s, t, id)
    ensures Somewhere(Do(s, e), id) || Recalled(Do(s, e), id)
  {
    var s' := Do(s, e);
    SameVersions(s, e);
    assert ThreadOk(s.threads[t]) && t != 0;
    if e == RequeueAfter(t) {
      ReplaceIff(s.book, s.threads[t].copy.value);
      assert IdAt(s', OnSchedule(id)) == Some(id);
    } else if e == Forget(t) {
      var p: Place :| IdAt(s, p) == Some(id);
      Arrives(s, e, p);
    } else {
      Remembers(s, e, t, id);
    }
  }

  lemma Remembers(s: State, e: Event, t: nat, id: string)
    requires Enabled(s, e) && !e.Settle? && e != RequeueAfter(t) && e != Forget(t) && Recalls(s, t, id) && t != 0
    requires Do(s, e).book.accounted == s.book.accounted && Do(s, e).book.blocked == s.book.blocked
    ensures Recalls(Do(s, e), t, id)
  {
    if t == Actor(e) {
      assert e == DropDomain(t) || e == DropUser(t);
    } else {
      OthersStay(s, e, t);
    }
  }

  /** The message of an outcome is handled, put back, parked, or known to the caller. */
  lemma SettleKeepsOwn(s: State, t: nat, out: Outcome)
    requires PlacesOk(s) && Once(s) && Current(s) && Enabled(s, Settle(t, out)) && !out.Handled?
    ensures
      var s', id := Do(s, Settle(t, out)), s.threads[t].env.value.id;
      Somewhere(s', id) || Recalled(s', id)
  {
    var s', e := Do(s, Settle(t, out)), s.threads[t].env.value;
    SettleBook(s, t, out);
    SettledOwn(s.book, e, out);
    if out.Parked? {
      assert IdAt(s', InParking(|s.parked|)) == Some(e.id);
    } else if out.Erred? && !out.back {
      assert Recalls(s', t, e.id);
    } else {
      assert IdAt(s', OnSchedule(e.id)) == Some(e.id);
    }
  }

  lemma SettleKeepsOther(s: State, t: nat, out: Outcome, p: Place)
    requires PlacesOk(s) && Once(s) && Enabled(s, Settle(t, out)) && IdAt(s, p).Some? && p != WithThread(t)
    ensures IdAt(Do(s, Settle(t, out)), p) == IdAt(s, p)
  {
    assert IdAt(s, WithThread(t)) == Some(s.threads[t].env.value.id);
    if p.OnSchedule? {
      SettledOthers(s.book, s.threads[t].env.value, out, s.book.scheduled[p.id]);
    }
  }

  lemma SettleRecalled(s: State, t: nat, out: Outcome, x: nat, id: string)
    requires PlacesOk(s) && Enabled(s, Settle(t, out)) && Recalls(s, x, id) && id != s.threads[t].env.value.id
    ensures Recalls(Do(s, Settle(t, out)), x, id)
  {
    SettledOthers(s.book, s.threads[t].env.value, out, s.threads[x].copy.value);
  }

  lemma SettleKept(s: State, t: nat, out: Outcome, id: string)
    requires PlacesOk(s) && Once(s) && Current(s) && Enabled(s, Settle(t, out))
    requires Somewhere(s, id) || Recalled(s, id)
    requires out.Handled? ==> id != s.threads[t].env.value.id
    ensures Somewhere(Do(s, Settle(t, out)), id) || Recalled(Do(s, Settle(t, out)), id)
  {
    if id == s.threads[t].env.value.id {
      SettleKeepsOwn(s, t, out);
    } else if Somewhere(s, id) {
      var p: Place :| IdAt(s, p) == Some(id);
      SettleKeepsOther(s, t, out, p);
    } else {
      var x :| Recalls(s, x, id);
      SettleRecalled(s, t, out, x, id);
    }
  }

  lemma SettledKeys(b: Book, e: Envelope, out: Outcome, id: string)
    requires !Stale(b, e)
    ensures id in Settled(b, e, out).accounted <==> id in b.accounted && !(out.Handled? && id == e.id)
    ensures Settled(b, e, out).blocked == b.blocked
  {
  }

  /** Every event other than those keeps every message. */
  lemma StepKept(s: State, e: Event)
    requires PlacesOk(s) && Once(s) && Current(s) && Kept(s) && Enabled(s, e) && !LetsGo(s, e)
    ensures Current(Do(s, e)) && Kept(Do(s, e))
  {
    StepCurrent(s, e);
    var s' := Do(s, e);
    forall id | id in s'.book.accounted && id !in s'.book.blocked ensures Somewhere(s', id) || Recalled(s', id) {
      if e.Settle? {
        SettledKeys(s.book, s.threads[e.t].env.value, e.out, id);
        SettleKept(s, e.t, e.out, id);
      } else {
        SameVersions(s, e);
        OtherKept(s, e, id);
      }
    }
  }

  lemma OtherKept(s: State, e: Event, id: string)
    requires PlacesOk(s) && Once(s) && Current(s) && Enabled(s, e) && !e.Settle? && !LetsGo(s, e)
    requires Somewhere(s, id) || Recalled(s, id)
    ensures Somewhere(Do(s, e), id) || Recalled(Do(s, e), id)
  {
    if Somewhere(s, id) {
      var p: Place :| IdAt(s, p) == Some(id);
      Arrives(s, e, p);
    } else {
      var t :| Recalls(s, t, id);
      StillRecalled(s, e, t, id);
    }
  }

  /** No event of the run lets go of a message. */
  ghost predicate Careful(s: State, events: seq<Event>)
    requires Possible(s, events)
    decreases |events|
  {
    events != [] ==> !LetsGo(s, events[0]) && Careful(Do(s, events[0]), events[1..])
  }

  lemma {:induction false} RunKept(s: State, events: seq<Event>)
    requires PlacesOk(s) && Once(s) && Current(s) && Kept(s) && Possible(s, events) && Careful(s, events)
    ensures Once(Final(s, events)) && Current(Final(s, events)) && Kept(Final(s, events))
    decreases |events|
  {
    if events != [] {
      var e := events[0];
      StepPlaces(s, e);
      StepKept(s, e);
      if e.RequeueAfter? {
        LateRequeueIff(s, e.t);
      } else {
        StepOnce(s, e);
      }
      RunKept(Do(s, e), events[1..]);
    }
  }

  /** From a schedule that holds the accounted version of every message, along every run in which no event lets go
      of one: every message that is still accounted is on the schedule, in the parking list, with a thread, or known
      to a caller that will put it back; and once the run loop has returned, it is on the schedule. */
  lemma NothingLost(userLimit: int, domainLimit: int, book: Book, events: seq<Event>, id: string)
    requires Filed(book) && CurrentBook(book)
    requires forall x :: x in book.accounted && x !in book.blocked ==> x in book.scheduled
    requires
      var s := Initial(userLimit, domainLimit, book);
      Possible(s, events) && Careful(s, events)
    ensures
      var s := Final(Initial(userLimit, domainLimit, book), events);
      id in s.book.accounted && id !in s.book.blocked ==>
        && (Somewhere(s, id) || Recalled(s, id))
        && (At(s, 0, Returned) ==> id in s.book.scheduled)
  {
    var s0 := Initial(userLimit, domainLimit, book);
    forall x | x in book.accounted && x !in book.blocked ensures Somewhere(s0, x) {
      assert IdAt(s0, OnSchedule(x)) == Some(x);
    }
    RunKept(s0, events);
    RunPlaces(s0, events);
    var s := Final(s0, events);
    if id in s.book.accounted && id !in s.book.blocked && At(s, 0, Returned) {
      OnlyScheduled(s, id);
    }
  }

  lemma {:induction false} RunPlaces(s: State, events: seq<Event>)
    requires PlacesOk(s) && Possible(s, events)
    ensures PlacesOk(Final(s, events))
    decreases |events|
  {
    if events != [] {
      StepPlaces(s, events[0]);
      RunPlaces(Do(s, events[0]), events[1..]);
    }
  }

  /** After the return there is no other place. */
  lemma OnlyScheduled(s: State, id: string)
    requires PlacesOk(s) && At(s, 0, Returned) && (Somewhere(s, id) || Recalled(s, id))
    ensures id in s.book.scheduled
  {
    assert ThreadOk(s.threads[0]);
    assert forall t :: t in s.threads ==> t in s.threads.Keys;
  }
}
