/** Where an envelope can be while the deliverer runs: on the schedule, in the parking list, or with one
    thread. Every event keeps it in at most one of these places, except one that internal/deliver/run.go
    allows after a storage error. */
module OnePlace {
  import opened Options
  import opened Limits
  import opened Grouping
  import opened Transitions
  import opened Admission

  datatype Place = OnSchedule(id: string) | InParking(i: nat) | WithThread(t: nat)

  function IdAt(s: State, p: Place): Option<string> {
    match p
    case OnSchedule(id) => if id in s.book.scheduled then Some(id) else None
    case InParking(i) => if i < |s.parked| then Some(s.parked[i].envelope.id) else None
    case WithThread(t) => if Busy(s, t) then Some(s.threads[t].env.value.id) else None
  }

  /** The schedule files envelopes under their own IDs. */
  predicate Filed(b: Book) {
    forall id :: id in b.scheduled ==> b.scheduled[id].id == id
  }

  /** No envelope is in two places. */
  ghost predicate Once(s: State) {
    Filed(s.book) && forall p, q :: IdAt(s, p).Some? && IdAt(s, p) == IdAt(s, q) ==> p == q
  }

  /** Where the envelope at place `p` was before the event. */
  function Origin(s: State, e: Event, p: Place): Place
    requires Enabled(s, e)
  {
    match e
    case Pop(id) => if p == WithThread(0) then OnSchedule(id) else p
    case AskUser => if p == InParking(|s.parked|) then WithThread(0) else p
    case AskDomain => if p == InParking(|s.parked|) then WithThread(0) else p
    case Spawn(t) => if p == WithThread(t) then WithThread(0) else p
    case Cancel =>
      if Busy(s, 0) && p == OnSchedule(s.threads[0].env.value.id) && p.id !in s.book.scheduled then WithThread(0) else p
    case Return => if p.OnSchedule? && p.id !in s.book.scheduled then InParking(Position(s.parked, p.id)) else p
    case Wake(i) =>
      if p == OnSchedule(s.parked[i].envelope.id) && p.id !in s.book.scheduled then InParking(i)
      else if p.InParking? && p.i >= i then InParking(p.i + 1) else p
    case Settle(t, out) =>
      if out.Parked? && p == InParking(|s.parked|) then WithThread(t)
      else if p == OnSchedule(s.threads[t].env.value.id) && p.id !in s.book.scheduled then WithThread(t)
      else p
    case _ => p
  }

  function Position(parked: seq<Wait>, id: string): (i: nat)
    ensures i < |parked| ==> parked[i].envelope.id == id
    ensures i >= |parked| ==> forall j :: 0 <= j < |parked| ==> parked[j].envelope.id != id
  {
    if parked == [] then 0 else if parked[0].envelope.id == id then 0 else 1 + Position(parked[1..], id)
  }

  lemma {:induction false} RequeueKeys(b: Book, parked: seq<Wait>)
    requires Filed(b)
    ensures Filed(RequeueAll(b, parked))
    ensures forall id :: id in RequeueAll(b, parked).scheduled ==> id in b.scheduled || Position(parked, id) < |parked|
    decreases |parked|
  {
    if parked != [] {
      RequeueKeys(Schedule(b, parked[0].envelope), parked[1..]);
    }
  }

  lemma ScheduleOrigin(s: State, e: Event, p: Place)
    requires Filed(s.book) && Enabled(s, e) && !e.RequeueAfter?
    requires p.OnSchedule? && IdAt(Do(s, e), p).Some?
    ensures IdAt(s, Origin(s, e, p)) == IdAt(Do(s, e), p)
  {
    if e.Return? { RequeueKeys(s.book, s.parked); }
  }

  lemma ParkingOrigin(s: State, e: Event, p: Place)
    requires Enabled(s, e) && !e.RequeueAfter?
    requires p.InParking? && IdAt(Do(s, e), p).Some?
    ensures IdAt(s, Origin(s, e, p)) == IdAt(Do(s, e), p)
  {
  }

  /** An event leaves its thread the envelope it had, gives it the one it popped, or takes it away. */
  lemma ActEnvelope(s: State, e: Event)
    requires Enabled(s, e) && !e.Spawn?
    ensures
      var th, th' := s.threads[Actor(e)], Act(s, e).thread;
      th'.Some? && th'.value.env.Some? ==>
        if e.Pop? then th'.value.env.value == s.book.scheduled[e.id]
        else th.env.Some? && th.env.value.id == th'.value.env.value.id
  {
  }

  lemma ThreadOrigin(s: State, e: Event, p: Place)
    requires Filed(s.book) && Enabled(s, e) && !e.RequeueAfter?
    requires p.WithThread? && IdAt(Do(s, e), p).Some?
    ensures IdAt(s, Origin(s, e, p)) == IdAt(Do(s, e), p)
  {
    if !e.Spawn? {
      ActEnvelope(s, e);
    }
  }

  /** Every place holds what its origin held. */
  lemma OriginHolds(s: State, e: Event, p: Place)
    requires Filed(s.book) && Enabled(s, e) && !e.RequeueAfter?
    requires IdAt(Do(s, e), p).Some?
    ensures IdAt(s, Origin(s, e, p)) == IdAt(Do(s, e), p)
  {
    match p
    case OnSchedule(_) => ScheduleOrigin(s, e, p);
    case InParking(_) => ParkingOrigin(s, e, p);
    case WithThread(_) => ThreadOrigin(s, e, p);
  }

  lemma LoopDiffers(s: State, e: Event, p: Place, q: Place)
    requires Once(s) && Enabled(s, e) && (e.Pop? || e.AskUser? || e.AskDomain? || e.Spawn?)
    requires IdAt(Do(s, e), p).Some? && IdAt(Do(s, e), q).Some? && Origin(s, e, p) == Origin(s, e, q)
    ensures p == q
  {
    OriginHolds(s, e, p);
    OriginHolds(s, e, q);
  }

  lemma ReturnDiffers(s: State, e: Event, p: Place, q: Place)
    requires Once(s) && Enabled(s, e) && (e.Cancel? || e.Return? || e.Wake?)
    requires IdAt(Do(s, e), p).Some? && IdAt(Do(s, e), q).Some? && Origin(s, e, p) == Origin(s, e, q)
    ensures p == q
  {
    OriginHolds(s, e, p);
    OriginHolds(s, e, q);
  }

  lemma SettleDiffers(s: State, e: Event, p: Place, q: Place)
    requires Once(s) && Enabled(s, e) && e.Settle?
    requires IdAt(Do(s, e), p).Some? && IdAt(Do(s, e), q).Some? && Origin(s, e, p) == Origin(s, e, q)
    ensures p == q
  {
    OriginHolds(s, e, p);
    OriginHolds(s, e, q);
  }

  /** Different places have different origins. */
  lemma OriginDiffers(s: State, e: Event, p: Place, q: Place)
    requires Once(s) && Enabled(s, e) && !e.RequeueAfter?
    requires IdAt(Do(s, e), p).Some? && IdAt(Do(s, e), q).Some? && Origin(s, e, p) == Origin(s, e, q)
    ensures p == q
  {
    if e.Pop? || e.AskUser? || e.AskDomain? || e.Spawn? {
      LoopDiffers(s, e, p, q);
    } else if e.Cancel? || e.Return? || e.Wake? {
      ReturnDiffers(s, e, p, q);
    } else if e.Settle? {
      SettleDiffers(s, e, p, q);
    }
  }

  lemma BookFiled(s: State, e: Event)
    requires Filed(s.book) && Enabled(s, e)
    ensures Filed(BookAfter(s, e))
  {
    if e.Return? { RequeueKeys(s.book, s.parked); }
  }

  lemma StepFiled(s: State, e: Event)
    requires Filed(s.book) && Enabled(s, e)
    ensures Filed(Do(s, e).book)
  {
    if !e.Spawn? {
      BookFiled(s, e);
    }
  }

  /** An event other than the late requeue keeps every envelope in one place. */
  lemma StepOnce(s: State, e: Event)
    requires Once(s) && Enabled(s, e) && !e.RequeueAfter?
    ensures Once(Do(s, e))
  {
    StepFiled(s, e);
    forall p, q | IdAt(Do(s, e), p).Some? && IdAt(Do(s, e), p) == IdAt(Do(s, e), q) ensures p == q {
      OriginHolds(s, e, p);
      OriginHolds(s, e, q);
      OriginDiffers(s, e, p, q);
    }
  }

  // ---------- the late requeue ----------

  /** The envelope is somewhere that a late requeue does not clear: only its own entry on the schedule is
      replaced. */
  ghost predicate Elsewhere(s: State, id: string) {
    exists p: Place :: !p.OnSchedule? && IdAt(s, p) == Some(id)
  }

  ghost predicate Somewhere(s: State, id: string) {
    exists p: Place :: IdAt(s, p) == Some(id)
  }

  /** Another attempt, or the parking list, has the envelope that a late requeue is about to schedule. */
  ghost predicate Collides(s: State, t: nat)
    requires Enabled(s, RequeueAfter(t))
  {
    var copy := s.threads[t].copy.value;
    Elsewhere(s, copy.id) && !Stale(s.book, copy)
  }

  /** After a storage error the caller of an attempt puts its copy of the envelope back on the schedule.
      That keeps every envelope in one place exactly when nobody else has taken the envelope up since, or its
      version has been replaced. */
  lemma LateRequeueIff(s: State, t: nat)
    requires Once(s) && PlacesOk(s) && Enabled(s, RequeueAfter(t))
    ensures Once(Do(s, RequeueAfter(t))) <==> !Collides(s, t)
  {
    var copy := s.threads[t].copy.value;
    var s' := Do(s, RequeueAfter(t));
    assert ThreadOk(s.threads[t]);
    StepFiled(s, RequeueAfter(t));
    ReplaceIff(s.book, copy);
    if Collides(s, t) {
      var p: Place :| !p.OnSchedule? && IdAt(s, p) == Some(copy.id);
      assert IdAt(s', p) == Some(copy.id) && IdAt(s', OnSchedule(copy.id)) == Some(copy.id);
    } else {
      forall p, q | IdAt(s', p).Some? && IdAt(s', p) == IdAt(s', q) ensures p == q {
        LateRequeueSame(s, t, p);
        LateRequeueSame(s, t, q);
      }
    }
  }

  lemma LateRequeueSame(s: State, t: nat, p: Place)
    requires PlacesOk(s) && Enabled(s, RequeueAfter(t)) && IdAt(Do(s, RequeueAfter(t)), p).Some?
    ensures
      var copy := s.threads[t].copy.value;
      (p == OnSchedule(copy.id) && !Stale(s.book, copy)) || IdAt(s, p) == IdAt(Do(s, RequeueAfter(t)), p)
  {
    ReplaceIff(s.book, s.threads[t].copy.value);
  }

  /** A message is forgotten, on no schedule and with nobody until the next start, if and only if the late requeue
      comes with a replaced version and finds the message on the schedule: what is there makes place for nothing. */
  lemma ForgottenIff(s: State, t: nat)
    requires Once(s) && PlacesOk(s) && Enabled(s, RequeueAfter(t))
    ensures
      var copy := s.threads[t].copy.value;
      Somewhere(s, copy.id) && !Somewhere(Do(s, RequeueAfter(t)), copy.id) <==>
        copy.id in s.book.scheduled && Stale(s.book, copy)
  {
    var copy := s.threads[t].copy.value;
    var s' := Do(s, RequeueAfter(t));
    assert ThreadOk(s.threads[t]);
    ReplaceIff(s.book, copy);
    assert IdAt(s', OnSchedule(copy.id)).Some? <==> !Stale(s.book, copy);
    if copy.id in s.book.scheduled {
      assert IdAt(s, OnSchedule(copy.id)) == Some(copy.id);
      if Somewhere(s', copy.id) {
        var p: Place :| IdAt(s', p) == Some(copy.id);
        LateRequeueSame(s, t, p);
      }
    } else if Somewhere(s, copy.id) {
      var p: Place :| IdAt(s, p) == Some(copy.id);
      assert IdAt(s', p) == Some(copy.id);
    }
  }

  /** No late requeue of the run finds its envelope taken up by someone else. */
  ghost predicate Undisturbed(s: State, events: seq<Event>)
    requires Possible(s, events)
    decreases |events|
  {
    events != [] ==>
      && (events[0].RequeueAfter? ==> !Collides(s, events[0].t))
      && Undisturbed(Do(s, events[0]), events[1..])
  }

  /** Along every other run each envelope stays in at most one place. */
  lemma {:induction false} RunOnce(s: State, events: seq<Event>)
    requires Once(s) && PlacesOk(s) && Possible(s, events) && Undisturbed(s, events)
    ensures Once(Final(s, events))
    decreases |events|
  {
    if events != [] {
      var e := events[0];
      StepPlaces(s, e);
      if e.RequeueAfter? {
        LateRequeueIff(s, e.t);
      } else {
        StepOnce(s, e);
      }
      RunOnce(Do(s, e), events[1..]);
    }
  }

  /** From a filed schedule, with nothing under way, along every such run. */
  lemma OnceFromStart(userLimit: int, domainLimit: int, book: Book, events: seq<Event>)
    requires Filed(book)
    requires
      var s := Initial(userLimit, domainLimit, book);
      Possible(s, events) && Undisturbed(s, events)
    ensures Once(Final(Initial(userLimit, domainLimit, book), events))
  {
    RunOnce(Initial(userLimit, domainLimit, book), events);
  }

  // ---------- two runs in which a late requeue does harm ----------

  /** A run by its states and events. */
  datatype Trace = Trace(states: seq<State>, events: seq<Event>)

  ghost predicate Steps(r: Trace) {
    |r.states| == |r.events| + 1 && forall i :: 0 <= i < |r.events| ==> IsStep(r, i)
  }

  ghost predicate IsStep(r: Trace, i: nat)
    requires i < |r.events| && |r.states| == |r.events| + 1
  {
    Enabled(r.states[i], r.events[i]) && r.states[i + 1] == Do(r.states[i], r.events[i])
  }

  function Last(r: Trace): State
    requires r.states != []
  {
    r.states[|r.states| - 1]
  }

  /** The run goes on from `r`. */
  ghost predicate Continues(r: Trace, r': Trace) {
    r.states != [] && Steps(r') && r'.states[0] == r.states[0]
  }

  lemma {:induction false} StepsPossible(r: Trace)
    requires Steps(r)
    ensures Possible(r.states[0], r.events) && Final(r.states[0], r.events) == Last(r)
    decreases |r.events|
  {
    if r.events != [] {
      var rest := Trace(r.states[1..], r.events[1..]);
      assert IsStep(r, 0);
      forall i | 0 <= i < |rest.events| ensures IsStep(rest, i) {
        assert IsStep(r, i + 1);
      }
      StepsPossible(rest);
    }
  }

  /** One step more. */
  lemma Extend(r: Trace, e: Event, s: State) returns (r': Trace)
    requires Steps(r) && Enabled(Last(r), e) && Do(Last(r), e) == s
    ensures Continues(r, r') && Last(r') == s
  {
    r' := Trace(r.states + [s], r.events + [e]);
    forall i | 0 <= i < |r'.events| ensures IsStep(r', i) {
      if i < |r.events| {
        assert IsStep(r, i);
      }
    }
  }

  function Admitted(e: Envelope): Thread {
    Thread(Starting, e.owner, NextPendingDomain(e), Some(e), [], None)
  }

  /** An attempt that ran into its time limit before its first group. */
  function TimedOut(e: Envelope): Thread {
    Admitted(e).(stage := Settling(NONE), todo := Plan(e.recipients, NextPendingDomain(e)))
  }

  /** An attempt that has let go of its envelope, which its caller may still know. */
  function Ended(e: Envelope, copy: Option<Envelope>): Thread {
    TimedOut(e).(stage := Leaving, env := None, copy := copy)
  }

  function Bouncing(e: Envelope): Thread {
    Ended(e, Some(e)).(stage := Failing, user := NONE, domain := NONE)
  }

  function Having(s: State, t: nat, th: Thread): State {
    s.(threads := s.threads[t := th])
  }

  /** A book with the one message `e`, at version `v`. */
  function Sole(e: Envelope, v: Version, scheduled: map<Id, Envelope>): Book {
    Book(map[e.id := v], {}, scheduled)
  }

  lemma PopStep(r: Trace, e: Envelope) returns (r': Trace)
    requires Steps(r) && At(Last(r), 0, Idle) && Last(r).book == Sole(e, e.version, map[e.id := e])
    ensures Continues(r, r')
    ensures Last(r') == Having(Last(r), 0, IDLE.(stage := Got, env := Some(e))).(book := Sole(e, e.version, map[]))
  {
    r' := Extend(r, Pop(e.id),
      Having(Last(r), 0, IDLE.(stage := Got, env := Some(e))).(book := Sole(e, e.version, map[])));
  }

  lemma AskUserStep(r: Trace, e: Envelope) returns (r': Trace)
    requires Steps(r) && 0 in Last(r).threads && Last(r).threads[0] == IDLE.(stage := Got, env := Some(e))
    requires Available(Last(r).users, Last(r).userLimit, e.owner)
    ensures Continues(r, r')
    ensures Last(r') == Having(Last(r), 0, IDLE.(stage := HasUser, env := Some(e), user := e.owner))
      .(users := Take(Last(r).users, e.owner))
  {
    r' := Extend(r, AskUser,
      Having(Last(r), 0, IDLE.(stage := HasUser, env := Some(e), user := e.owner))
        .(users := Take(Last(r).users, e.owner)));
  }

  lemma AskDomainStep(r: Trace, e: Envelope) returns (r': Trace)
    requires Steps(r) && 0 in Last(r).threads
    requires Last(r).threads[0] == IDLE.(stage := HasUser, env := Some(e), user := e.owner)
    requires Available(Last(r).domains, Last(r).domainLimit, NextPendingDomain(e))
    ensures Continues(r, r')
    ensures Last(r') == Having(Last(r), 0, Admitted(e).(stage := HasBoth))
      .(domains := Take(Last(r).domains, NextPendingDomain(e)))
  {
    r' := Extend(r, AskDomain,
      Having(Last(r), 0, Admitted(e).(stage := HasBoth)).(domains := Take(Last(r).domains, NextPendingDomain(e))));
  }

  lemma SpawnStep(r: Trace, e: Envelope, t: nat) returns (r': Trace)
    requires Steps(r) && 0 in Last(r).threads && t !in Last(r).threads
    requires Last(r).threads[0] == Admitted(e).(stage := HasBoth)
    ensures Continues(r, r')
    ensures Last(r') == Last(r).(threads := Last(r).threads[t := Admitted(e)][0 := IDLE])
  {
    r' := Extend(r, Spawn(t), Last(r).(threads := Last(r).threads[t := Admitted(e)][0 := IDLE]));
  }

  /** The time limit passes before the first group. */
  lemma TimeOutStep(r: Trace, e: Envelope, t: nat) returns (r': Trace)
    requires Steps(r) && t in Last(r).threads && Last(r).threads[t] == Admitted(e) && e.preferred == NONE && t != 0
    ensures Continues(r, r') && Last(r') == Having(Last(r), t, TimedOut(e))
  {
    var begun := Having(Last(r), t, TimedOut(e).(stage := Choosing));
    r' := Extend(r, Begin(t, true), begun);
    r' := Extend(r', Break(t), Having(Last(r), t, TimedOut(e)));
  }

  /** The outcome could not be stored, and the queue has put the message back. */
  lemma SettleBack(r: Trace, e: Envelope, t: nat) returns (r': Trace)
    requires Steps(r) && t in Last(r).threads && Last(r).threads[t] == TimedOut(e)
    requires Last(r).book == Sole(e, e.version, map[])
    ensures Continues(r, r')
    ensures Last(r') == Having(Last(r), t, Ended(e, Some(e))).(book := Sole(e, e.version, map[e.id := e]))
  {
    var b := Sole(e, e.version, map[e.id := e]);
    SettleSole(e);
    r' := Extend(r, Settle(t, Erred(true, false)), Having(Last(r), t, Ended(e, Some(e))).(book := b));
  }

  lemma SettleSole(e: Envelope)
    ensures
      var b, e' := Sole(e, e.version, map[]), e.(version := Next(e.version));
      && Settled(b, e, Erred(true, false)) == Sole(e, e.version, map[e.id := e])
      && Settled(b, e, Rescheduled) == Sole(e, e'.version, map[e.id := e'])
  {
  }

  /** The outcome was stored, and the next version is scheduled. */
  lemma SettleStored(r: Trace, e: Envelope, t: nat) returns (r': Trace)
    requires Steps(r) && t in Last(r).threads && Last(r).threads[t] == TimedOut(e)
    requires Last(r).book == Sole(e, e.version, map[])
    ensures Continues(r, r')
    ensures Last(r') == Having(Last(r), t, Ended(e, None))
      .(book := Sole(e, Next(e.version), map[e.id := e.(version := Next(e.version))]))
  {
    var b := Sole(e, Next(e.version), map[e.id := e.(version := Next(e.version))]);
    SettleSole(e);
    r' := Extend(r, Settle(t, Rescheduled), Having(Last(r), t, Ended(e, None)).(book := b));
  }

  /** The deferred releases. */
  lemma ReleaseStep(r: Trace, e: Envelope, copy: Option<Envelope>, t: nat) returns (r': Trace)
    requires Steps(r) && t in Last(r).threads && Last(r).threads[t] == Ended(e, copy)
    ensures Continues(r, r')
    ensures
      var s := Last(r);
      var failing := Ended(e, copy).(stage := Failing, user := NONE, domain := NONE);
      Last(r') == s.(users := Give(s.users, e.owner), domains := Give(s.domains, NextPendingDomain(e)),
        threads := Put(s.threads, t, if copy.None? then None else Some(failing)))
  {
    var s := Last(r);
    var left := Ended(e, copy).(stage := Left, domain := NONE);
    var failing := Ended(e, copy).(stage := Failing, user := NONE, domain := NONE);
    var threads := Put(s.threads, t, if copy.None? then None else Some(failing));
    r' := Extend(r, DropDomain(t), Having(s, t, left).(domains := Give(s.domains, NextPendingDomain(e))));
    assert Put(s.threads[t := left], t, if copy.None? then None else Some(failing)) == threads;
    r' := Extend(r', DropUser(t),
      s.(users := Give(s.users, e.owner), domains := Give(s.domains, NextPendingDomain(e)), threads := threads));
  }

  lemma LateRequeueStep(r: Trace, e: Envelope, t: nat) returns (r': Trace)
    requires Steps(r) && t in Last(r).threads && Last(r).threads[t] == Bouncing(e)
    ensures Continues(r, r')
    ensures Last(r') == Last(r).(book := Replace(Last(r).book, e), threads := Last(r).threads - {t})
  {
    r' := Extend(r, RequeueAfter(t), Last(r).(book := Replace(Last(r).book, e), threads := Last(r).threads - {t}));
  }

  /** A scheduled message is admitted to a new attempt. */
  lemma AdmitNew(r: Trace, e: Envelope, t: nat) returns (r': Trace)
    requires Steps(r) && t != 0 && t !in Last(r).threads && 0 in Last(r).threads && Last(r).threads[0] == IDLE
    requires Last(r).book == Sole(e, e.version, map[e.id := e])
    requires Available(Last(r).users, Last(r).userLimit, e.owner)
    requires Available(Last(r).domains, Last(r).domainLimit, NextPendingDomain(e))
    ensures Continues(r, r')
    ensures
      var s := Last(r);
      Last(r') == s.(users := Take(s.users, e.owner), domains := Take(s.domains, NextPendingDomain(e)),
        book := Sole(e, e.version, map[]), threads := s.threads[t := Admitted(e)])
  {
    r' := PopStep(r, e);
    r' := AskUserStep(r', e);
    r' := AskDomainStep(r', e);
    r' := SpawnStep(r', e, t);
    assert Last(r').threads == Last(r).threads[t := Admitted(e)];
  }

  /** An attempt fails to store its outcome, after the queue has put the message back. */
  lemma Bounce(r: Trace, e: Envelope, t: nat) returns (r': Trace)
    requires Steps(r) && t in Last(r).threads && Last(r).threads[t] == Admitted(e) && e.preferred == NONE && t != 0
    requires Last(r).book == Sole(e, e.version, map[])
    ensures Continues(r, r')
    ensures
      var s := Last(r);
      Last(r') == s.(users := Give(s.users, e.owner), domains := Give(s.domains, NextPendingDomain(e)),
        book := Sole(e, e.version, map[e.id := e]), threads := s.threads[t := Bouncing(e)])
  {
    r' := TimeOutStep(r, e, t);
    r' := SettleBack(r', e, t);
    r' := ReleaseStep(r', e, Some(e), t);
    assert Last(r').threads == Last(r).threads[t := Bouncing(e)];
  }

  /** An attempt stores its outcome as the next version and leaves. */
  lemma Advance(r: Trace, e: Envelope, t: nat) returns (r': Trace)
    requires Steps(r) && t in Last(r).threads && Last(r).threads[t] == Admitted(e) && e.preferred == NONE && t != 0
    requires Last(r).book == Sole(e, e.version, map[])
    ensures Continues(r, r')
    ensures
      var s := Last(r);
      Last(r') == s.(users := Give(s.users, e.owner), domains := Give(s.domains, NextPendingDomain(e)),
        book := Sole(e, Next(e.version), map[e.id := e.(version := Next(e.version))]), threads := s.threads - {t})
  {
    r' := TimeOutStep(r, e, t);
    r' := SettleStored(r', e, t);
    r' := ReleaseStep(r', e, None, t);
    assert Last(r').threads == Last(r).threads - {t};
  }

  /** A message with an owner and somewhere to go, alone on the schedule. */
  predicate Fit(e: Envelope) {
    e.owner != NONE && e.preferred == NONE && NextPendingDomain(e) != NONE
  }

  function Alone(e: Envelope): State {
    Initial(2, 2, Sole(e, e.version, map[e.id := e]))
  }

  /** The attempt is under way, with one slot of each kind, among other threads. */
  function Trying(e: Envelope, others: map<nat, Thread>, t: nat): State {
    State(map[e.owner := 1], map[NextPendingDomain(e) := 1], 2, 2, Sole(e, e.version, map[]), [],
          others[t := Admitted(e)])
  }

  /** No slot is held. */
  function Quiet(b: Book, threads: map<nat, Thread>): State {
    State(map[], map[], 2, 2, b, [], threads)
  }

  lemma OneHolder(k: Key)
    requires k != NONE
    ensures Take(map[], k) == map[k := 1] && Give(map[k := 1], k) == map[]
  {
  }

  lemma OneSlotEach(e: Envelope)
    requires Fit(e)
    ensures Take(map[], e.owner) == map[e.owner := 1] && Give(map[e.owner := 1], e.owner) == map[]
    ensures
      var d := NextPendingDomain(e);
      Take(map[], d) == map[d := 1] && Give(map[d := 1], d) == map[]
  {
    OneHolder(e.owner);
    OneHolder(NextPendingDomain(e));
  }

  lemma ReplaceSole(e: Envelope, v: Version, scheduled: map<Id, Envelope>)
    requires scheduled.Keys <= {e.id}
    ensures Replace(Sole(e, v, scheduled), e) == Sole(e, v, if v == e.version then map[e.id := e] else map[])
  {
    assert scheduled - {e.id} == map[];
  }

  lemma Try(r: Trace, e: Envelope, others: map<nat, Thread>, t: nat) returns (r': Trace)
    requires Fit(e) && Steps(r) && Last(r) == Quiet(Sole(e, e.version, map[e.id := e]), others)
    requires t != 0 && t !in others && 0 in others && others[0] == IDLE
    ensures Continues(r, r') && Last(r') == Trying(e, others, t)
  {
    OneSlotEach(e);
    r' := AdmitNew(r, e, t);
  }

  lemma Overwrite(threads: map<nat, Thread>, t: nat, th: Thread, th': Thread)
    ensures threads[t := th][t := th'] == threads[t := th']
  {
  }

  lemma TryAndBounce(r: Trace, e: Envelope, others: map<nat, Thread>, t: nat) returns (r': Trace)
    requires Fit(e) && Steps(r) && Last(r) == Trying(e, others, t) && t != 0
    ensures Continues(r, r') && Last(r') == Quiet(Sole(e, e.version, map[e.id := e]), others[t := Bouncing(e)])
  {
    OneSlotEach(e);
    Overwrite(others, t, Admitted(e), Bouncing(e));
    r' := Bounce(r, e, t);
  }

  lemma TryAndAdvance(r: Trace, e: Envelope, others: map<nat, Thread>, t: nat) returns (r': Trace)
    requires Fit(e) && Steps(r) && Last(r) == Trying(e, others, t) && t != 0 && t !in others
    ensures Continues(r, r')
    ensures Last(r') == Quiet(Sole(e, Next(e.version), map[e.id := e.(version := Next(e.version))]), others)
  {
    OneSlotEach(e);
    r' := Advance(r, e, t);
    assert others[t := Admitted(e)] - {t} == others;
  }

  /** One attempt has bounced and a second one is under way. */
  lemma Overtake(e: Envelope) returns (r: Trace)
    requires Fit(e)
    ensures Steps(r) && r.states[0] == Alone(e) && Last(r) == Trying(e, map[0 := IDLE, 1 := Bouncing(e)], 2)
  {
    r := Trace([Alone(e)], []);
    r := Try(r, e, map[0 := IDLE], 1);
    r := TryAndBounce(r, e, map[0 := IDLE], 1);
    assert map[0 := IDLE][1 := Bouncing(e)] == map[0 := IDLE, 1 := Bouncing(e)];
    r := Try(r, e, map[0 := IDLE, 1 := Bouncing(e)], 2);
  }

  lemma OneLess(first: Thread, second: Thread)
    ensures map[0 := IDLE, 1 := first][2 := second] - {1} == map[0 := IDLE][2 := second]
    ensures map[0 := IDLE, 1 := first] - {1} == map[0 := IDLE]
  {
  }

  /** The late requeue while the second attempt is under way. */
  lemma PutBack(r: Trace, e: Envelope) returns (r': Trace)
    requires Steps(r) && Last(r) == Trying(e, map[0 := IDLE, 1 := Bouncing(e)], 2)
    ensures Continues(r, r')
    ensures Last(r') == Trying(e, map[0 := IDLE], 2).(book := Sole(e, e.version, map[e.id := e]))
  {
    ReplaceSole(e, e.version, map[]);
    OneLess(Bouncing(e), Admitted(e));
    r' := LateRequeueStep(r, e, 1);
  }

  lemma TryBeside(r: Trace, e: Envelope) returns (r': Trace)
    requires Fit(e) && Steps(r)
    requires Last(r) == Trying(e, map[0 := IDLE], 2).(book := Sole(e, e.version, map[e.id := e]))
    ensures Continues(r, r') && Last(r').threads == map[0 := IDLE, 2 := Admitted(e), 3 := Admitted(e)]
  {
    r' := AdmitNew(r, e, 3);
    assert Last(r').threads == map[0 := IDLE][2 := Admitted(e)][3 := Admitted(e)];
  }

  /** The late requeue after the second attempt. */
  lemma TakeOff(r: Trace, e: Envelope) returns (r': Trace)
    requires Steps(r)
    requires
      var e' := e.(version := Next(e.version));
      Last(r) == Quiet(Sole(e, e'.version, map[e.id := e']), map[0 := IDLE, 1 := Bouncing(e)])
    ensures Continues(r, r') && Last(r') == Quiet(Sole(e, Next(e.version), map[]), map[0 := IDLE])
  {
    ReplaceSole(e, Next(e.version), Last(r).book.scheduled);
    OneLess(Bouncing(e), Admitted(e));
    r' := LateRequeueStep(r, e, 1);
  }

  /** From a schedule that holds one message there is a run that ends with two attempts at it under way:
      the first attempt fails to store its outcome and bounces, a second one starts, the late requeue puts
      the message back, and a third one starts beside the second. */
  lemma TwoAttempts(e: Envelope) returns (events: seq<Event>)
    requires Fit(e)
    ensures Possible(Alone(e), events)
    ensures Final(Alone(e), events).threads == map[0 := IDLE, 2 := Admitted(e), 3 := Admitted(e)]
  {
    var r := Overtake(e);
    r := PutBack(r, e);
    r := TryBeside(r, e);
    StepsPossible(r);
    events := r.events;
  }

  /** And there is one that ends with the message forgotten: the second attempt stores the next version and
      schedules it, and the late requeue of the version before takes it off again. Nobody is at work any more,
      and the stored message stays accounted. */
  lemma ForgottenRun(e: Envelope) returns (events: seq<Event>)
    requires Fit(e)
    ensures Possible(Alone(e), events)
    ensures Final(Alone(e), events) == Quiet(Sole(e, Next(e.version), map[]), map[0 := IDLE])
  {
    var r := Overtake(e);
    r := TryAndAdvance(r, e, map[0 := IDLE, 1 := Bouncing(e)], 2);
    r := TakeOff(r, e);
    StepsPossible(r);
    events := r.events;
  }
}
