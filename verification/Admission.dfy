/** Admission control of the deliverer over every interleaving of its run loop, its attempts and the
    wake-ups of parked envelopes (internal/deliver/run.go, attempt.go, admission.go). */
module Admission {
  import opened Options
  import opened Limits
  import opened Grouping
  import opened Transitions
  import opened Sums

  datatype Kind = UserSlot | DomainSlot

  datatype Wait = Wait(envelope: Envelope, kind: Kind, key: Key)

  /** Where a thread stands. The run loop is the thread with number zero. */
  datatype Stage =
    // the run loop
    | Idle | Got | HasUser | HasBoth | Draining | Returned
    // an attempt: about to start, at the head of the loop over groups, talking to a group's hosts,
    // past the loop, in the deferred releases, and back in the caller with an error
    | Starting | Choosing | Sending | Settling(blocked: Key) | Leaving | Left | Failing

  /** The slots a thread holds, the envelope it owns, the domains of the groups still to do, and after an
      error the copy of the envelope that the caller still knows. */
  datatype Thread = Thread(stage: Stage, user: Key, domain: Key, env: Option<Envelope>, todo: seq<Key>,
                           copy: Option<Envelope>)

  const IDLE := Thread(Idle, NONE, NONE, None, [], None)

  datatype State = State(
    users: Table, domains: Table, userLimit: int, domainLimit: int,
    book: Book, parked: seq<Wait>, threads: map<nat, Thread>)

  /** What became of an attempt: the message left the queue, the envelope went back to the schedule as it is or
      in the next version that was stored, is parked in that version for the domain that had no slot, or an error
      was returned, possibly after the version was stored and after the queue had put the envelope back. */
  datatype Outcome = Handled | Requeued | Rescheduled | Parked | Erred(back: bool, stored: bool)

  /** The outcome comes with a new version. */
  predicate Stores(out: Outcome) {
    out.Rescheduled? || out.Parked? || (out.Erred? && out.stored)
  }

  datatype Event =
    | Pop(id: string) | AskUser | AskDomain | Spawn(t: nat) | Cancel | Return
    | Wake(i: nat)
    | Begin(t: nat, go: bool) | Choose(t: nat) | Break(t: nat) | Sent(t: nat, rs: seq<Recipient>, corrupt: bool)
    | Settle(t: nat, out: Outcome) | DropDomain(t: nat) | DropUser(t: nat)
    | RequeueAfter(t: nat) | Forget(t: nat)

  function Domains(order: seq<Group>): (ds: seq<Key>)
    ensures |ds| == |order| && forall i :: 0 <= i < |ds| ==> ds[i] == order[i].domain
  {
    seq(|order|, i requires 0 <= i < |order| => order[i].domain)
  }

  /** The domains of an attempt's groups, the admitted one first. */
  function Plan(rs: seq<Recipient>, admitted: Key): seq<Key> {
    Domains(if admitted == NONE then Order(rs) else Fronted(Order(rs), admitted))
  }

  function Next(v: Version): Version {
    v.(revision := v.revision + 1)
  }

  /** The envelope as an outcome leaves it. */
  function Stored(e: Envelope, out: Outcome): Envelope {
    if Stores(out) then e.(version := Next(e.version)) else e
  }

  /** The book after an outcome: versions are stored, handled messages are no longer accounted, and what goes back
      to the schedule is scheduled if it may be. */
  function Settled(b: Book, e: Envelope, out: Outcome): Book {
    var e' := Stored(e, out);
    var b' := if out.Handled? then b.(accounted := b.accounted - {e.id})
              else if Stores(out) then b.(accounted := b.accounted[e.id := e'.version]) else b;
    if out.Requeued? || out.Rescheduled? || (out.Erred? && out.back) then Schedule(b', e') else b'
  }

  function Park(s: State, e: Envelope, kind: Kind, key: Key): seq<Wait> {
    s.parked + [Wait(if kind.DomainSlot? then e.(preferred := key) else e, kind, key)]
  }

  predicate At(s: State, t: nat, stage: Stage) {
    t in s.threads && s.threads[t].stage == stage
  }

  predicate Busy(s: State, t: nat) {
    t in s.threads && s.threads[t].env.Some?
  }

  predicate Enabled(s: State, e: Event) {
    match e
    case Pop(id) => At(s, 0, Idle) && id in s.book.scheduled
    case AskUser => At(s, 0, Got) && Busy(s, 0)
    case AskDomain => At(s, 0, HasUser) && Busy(s, 0)
    case Spawn(t) => At(s, 0, HasBoth) && Busy(s, 0) && t !in s.threads
    case Cancel => At(s, 0, Idle) || ((At(s, 0, Got) || At(s, 0, HasBoth)) && Busy(s, 0))
    case Return => At(s, 0, Draining) && s.threads.Keys == {0}
    case Wake(i) => 0 in s.threads && i < |s.parked|
    case Begin(t, go) => At(s, t, Starting) && Busy(s, t)
    case Choose(t) => At(s, t, Choosing) && Busy(s, t) && s.threads[t].todo != []
    case Break(t) => At(s, t, Choosing) && Busy(s, t)
    case Sent(t, rs, corrupt) => At(s, t, Sending) && Busy(s, t) && s.threads[t].todo != []
    case Settle(t, out) =>
      && t in s.threads && s.threads[t].stage.Settling? && Busy(s, t)
      && (out.Parked? ==> s.threads[t].stage.blocked != NONE)
      && (Stores(out) ==> !Stale(s.book, s.threads[t].env.value))
    case DropDomain(t) => At(s, t, Leaving)
    case DropUser(t) => At(s, t, Left)
    case RequeueAfter(t) => At(s, t, Failing) && s.threads[t].copy.Some?
    case Forget(t) => At(s, t, Failing)
  }

  // ---------- what an event does ----------

  /** What an event does to its thread, which may end, and to the slots. */
  datatype Effect = Effect(thread: Option<Thread>, users: Table, domains: Table)

  /** The thread that an event belongs to. */
  function Actor(e: Event): nat {
    if e.Pop? || e.AskUser? || e.AskDomain? || e.Spawn? || e.Cancel? || e.Return? || e.Wake? then 0 else e.t
  }

  /** The run loop asks for a slot of the owner and then for one of the domain; without either it lets go of
      the envelope. */
  function AskUserEffect(s: State, th: Thread): Effect
    requires th.env.Some?
  {
    var owner := th.env.value.owner;
    if Available(s.users, s.userLimit, owner)
    then Effect(Some(th.(stage := HasUser, user := owner)), Take(s.users, owner), s.domains)
    else Effect(Some(IDLE), s.users, s.domains)
  }

  function AskDomainEffect(s: State, th: Thread): Effect
    requires th.env.Some?
  {
    var d := NextPendingDomain(th.env.value);
    if Available(s.domains, s.domainLimit, d)
    then Effect(Some(th.(stage := HasBoth, domain := d)), s.users, Take(s.domains, d))
    else Effect(Some(IDLE), Give(s.users, th.user), s.domains)
  }

  /** The head of the loop over groups: a slot that is held for the next domain is used, and otherwise one is
      taken; without one the attempt ends. */
  function ChooseEffect(s: State, th: Thread): Effect
    requires th.todo != []
  {
    var d := th.todo[0];
    if th.domain == d then Effect(Some(th.(stage := Sending)), s.users, s.domains)
    else if Available(s.domains, s.domainLimit, d)
    then Effect(Some(th.(stage := Sending, domain := d)), s.users, Take(s.domains, d))
    else Effect(Some(th.(stage := Settling(d))), s.users, s.domains)
  }

  /** Every group gives its slot back. */
  function SentEffect(s: State, th: Thread, rs: seq<Recipient>, corrupt: bool): Effect
    requires th.todo != [] && th.env.Some?
  {
    Effect(Some(th.(stage := if corrupt then Settling(NONE) else Choosing, domain := NONE,
                    todo := th.todo[1..], env := Some(th.env.value.(recipients := rs)))),
           s.users, Give(s.domains, th.todo[0]))
  }

  function BeginEffect(s: State, th: Thread, go: bool): Effect
    requires th.env.Some?
  {
    var e := th.env.value;
    Effect(Some(
      if go then th.(stage := Choosing, todo := Plan(e.recipients, th.domain), env := Some(e.(preferred := NONE)))
      else th.(stage := Settling(NONE))), s.users, s.domains)
  }

  function Act(s: State, e: Event): Effect
    requires Enabled(s, e) && !e.Spawn?
  {
    var th := s.threads[Actor(e)];
    match e
    case Pop(id) => Effect(Some(IDLE.(stage := Got, env := Some(s.book.scheduled[id]))), s.users, s.domains)
    case AskUser => AskUserEffect(s, th)
    case AskDomain => AskDomainEffect(s, th)
    case Cancel => Effect(Some(IDLE.(stage := Draining)), Give(s.users, th.user), Give(s.domains, th.domain))
    case Return => Effect(Some(IDLE.(stage := Returned)), s.users, s.domains)
    case Wake(i) => Effect(Some(th), s.users, s.domains)
    case Begin(t, go) => BeginEffect(s, th, go)
    case Choose(t) => ChooseEffect(s, th)
    case Break(t) => Effect(Some(th.(stage := Settling(NONE))), s.users, s.domains)
    case Sent(t, rs, corrupt) => SentEffect(s, th, rs, corrupt)
    case Settle(t, out) =>
      var copy := if out.Erred? then Some(Stored(th.env.value, out)) else None;
      Effect(Some(th.(stage := Leaving, env := None, copy := copy)), s.users, s.domains)
    case DropDomain(t) => Effect(Some(th.(stage := Left, domain := NONE)), s.users, Give(s.domains, th.domain))
    case DropUser(t) =>
      Effect(if th.copy.None? then None else Some(th.(stage := Failing, user := NONE)), Give(s.users, th.user),
             s.domains)
    case RequeueAfter(t) => Effect(None, s.users, s.domains)
    case Forget(t) => Effect(None, s.users, s.domains)
  }

  function RequeueAll(b: Book, parked: seq<Wait>): Book
    decreases |parked|
  {
    if parked == [] then b else RequeueAll(Schedule(b, parked[0].envelope), parked[1..])
  }

  function BookAfter(s: State, e: Event): Book
    requires Enabled(s, e)
  {
    match e
    case Pop(id) => s.book.(scheduled := s.book.scheduled - {id})
    case Cancel => if s.threads[0].env.Some? then Schedule(s.book, s.threads[0].env.value) else s.book
    case Return => RequeueAll(s.book, s.parked)
    case Wake(i) => Schedule(s.book, s.parked[i].envelope)
    case Settle(t, out) => Settled(s.book, s.threads[t].env.value, out)
    case RequeueAfter(t) => Replace(s.book, s.threads[t].copy.value)
    case _ => s.book
  }

  function ParkedAfter(s: State, e: Event): seq<Wait>
    requires Enabled(s, e)
  {
    match e
    case AskUser =>
      var env := s.threads[0].env.value;
      if Available(s.users, s.userLimit, env.owner) then s.parked else Park(s, env, UserSlot, env.owner)
    case AskDomain =>
      var env := s.threads[0].env.value;
      var d := NextPendingDomain(env);
      if Available(s.domains, s.domainLimit, d) then s.parked else Park(s, env, DomainSlot, d)
    case Return => []
    case Wake(i) => s.parked[..i] + s.parked[i + 1..]
    case Settle(t, out) =>
      var th := s.threads[t];
      if out.Parked? then Park(s, Stored(th.env.value, out), DomainSlot, th.stage.blocked) else s.parked
    case _ => s.parked
  }

  function Put(threads: map<nat, Thread>, t: nat, th: Option<Thread>): map<nat, Thread> {
    if th.None? then threads - {t} else threads[t := th.value]
  }

  /** The loop hands its slots and its envelope over to a new attempt. */
  function DoSpawn(s: State, t: nat): State
    requires Enabled(s, Spawn(t))
  {
    s.(threads := s.threads[t := s.threads[0].(stage := Starting)][0 := IDLE])
  }

  function Do(s: State, e: Event): State
    requires Enabled(s, e)
  {
    if e.Spawn? then DoSpawn(s, e.t)
    else
      var f := Act(s, e);
      State(f.users, f.domains, s.userLimit, s.domainLimit, BookAfter(s, e), ParkedAfter(s, e),
            Put(s.threads, Actor(e), f.thread))
  }

  // ---------- slots ----------

  function SlotOf(th: Thread, kind: Kind): Key {
    if kind.UserSlot? then th.user else th.domain
  }

  function Holds(kind: Kind, k: Key): (nat, Thread) -> int {
    (t, th) => if SlotOf(th, kind) == k then 1 else 0
  }

  /** The holders of every key are exactly the threads that will give a slot back. */
  ghost predicate SlotsOk(table: Table, limit: int, threads: map<nat, Thread>, kind: Kind) {
    TableOk(table, limit) && forall k :: k != NONE ==> Holders(table, k) == Total(threads, Holds(kind, k))
  }

  /** A holder less at `before`, a holder more at `after`; either may be none. */
  ghost predicate Moved(table: Table, table': Table, before: Key, after: Key) {
    forall k :: k != NONE ==>
      Holders(table', k) == Holders(table, k) - (if before == k then 1 else 0) + (if after == k then 1 else 0)
  }

  function SlotAt(threads: map<nat, Thread>, t: nat, kind: Kind): Key {
    if t in threads then SlotOf(threads[t], kind) else NONE
  }

  lemma MoveSlot(table: Table, table': Table, limit: int, threads: map<nat, Thread>, threads': map<nat, Thread>,
                 t: nat, kind: Kind)
    requires SlotsOk(table, limit, threads, kind) && TableOk(table', limit) && threads' - {t} == threads - {t}
    requires Moved(table, table', SlotAt(threads, t, kind), SlotAt(threads', t, kind))
    ensures SlotsOk(table', limit, threads', kind)
  {
    forall k | k != NONE ensures Holders(table', k) == Total(threads', Holds(kind, k)) {
      TotalChange(threads, threads', Holds(kind, k), t);
    }
  }

  lemma TakeMoves(table: Table, limit: int, k: Key)
    requires TableOk(table, limit) && Available(table, limit, k)
    ensures TableOk(Take(table, k), limit) && Moved(table, Take(table, k), NONE, k)
  {
  }

  /** Who holds a slot is counted for it. */
  lemma GiveMoves(table: Table, limit: int, threads: map<nat, Thread>, t: nat, kind: Kind)
    requires SlotsOk(table, limit, threads, kind) && t in threads
    ensures var k := SlotOf(threads[t], kind); TableOk(Give(table, k), limit) && Moved(table, Give(table, k), k, NONE)
  {
    var k := SlotOf(threads[t], kind);
    if k != NONE {
      TotalBounds(threads, Holds(kind, k));
      assert Holders(table, k) >= Holds(kind, k)(t, threads[t]);
    }
  }

  /** What holds of a thread at each stage. At the head of the loop a domain slot can only be held for the
      very group that comes next: a slot for any other group would be lost when the next one is taken. */
  predicate ThreadOk(th: Thread) {
    match th.stage
    case Idle => th == IDLE
    case Draining => th == IDLE.(stage := Draining)
    case Returned => th == IDLE.(stage := Returned)
    case Got => th.env.Some? && th.user == NONE && th.domain == NONE
    case HasUser => th.env.Some? && th.user == th.env.value.owner && th.domain == NONE
    case HasBoth => th.env.Some? && th.domain == NextPendingDomain(th.env.value)
    case Starting => th.env.Some? && th.domain == NextPendingDomain(th.env.value)
    case Choosing => th.env.Some? && (th.domain != NONE ==> th.todo != [] && th.todo[0] == th.domain)
    case Sending => th.env.Some? && th.todo != [] && th.todo[0] == th.domain
    case Settling(blocked) => th.env.Some?
    case Leaving => th.env.None?
    case Left => th.env.None? && th.domain == NONE
    case Failing => th.env.None? && th.domain == NONE && th.user == NONE
  }

  /** The run loop is in the loop's stages and attempts are in theirs; after the return there are none. */
  predicate PlacesOk(s: State) {
    && 0 in s.threads
    && (s.threads[0].stage.Returned? ==> s.threads.Keys == {0} && s.parked == [])
    && forall t :: t in s.threads ==> ThreadOk(s.threads[t]) && (t == 0 <==> LoopStage(s.threads[t].stage))
  }

  predicate LoopStage(st: Stage) {
    st.Idle? || st.Got? || st.HasUser? || st.HasBoth? || st.Draining? || st.Returned?
  }

  ghost predicate Inv(s: State) {
    && PlacesOk(s)
    && SlotsOk(s.users, s.userLimit, s.threads, UserSlot)
    && SlotsOk(s.domains, s.domainLimit, s.threads, DomainSlot)
  }

  /** The admitted domain heads the list of groups. */
  lemma AdmittedFirst(e: Envelope)
    ensures var d := NextPendingDomain(e); d != NONE ==> Plan(e.recipients, d) != [] && Plan(e.recipients, d)[0] == d
  {
    var d := NextPendingDomain(e);
    if d != NONE {
      var rs := e.recipients;
      var i :| 0 <= i < |rs| && rs[i].pending && rs[i].domain == d;
      assert Wanted(rs, KeyOf(rs[i]));
      var k :| 0 <= k < |Order(rs)| && Order(rs)[k] == KeyOf(rs[i]);
      assert Order(rs)[k].domain == d;
      FrontedPermutes(Order(rs), d);
    }
  }

  /** A thread in order, at a stage of its kind. */
  predicate Standing(th: Option<Thread>, t: nat) {
    if th.None? then t != 0 else ThreadOk(th.value) && (t == 0 <==> LoopStage(th.value.stage))
  }

  /** Whatever an event does to a slot of its thread, the table does too. */
  predicate InStep(table: Table, table': Table, limit: int, before: Key, after: Key) {
    || (table' == table && after == before)
    || (table' == Take(table, after) && before == NONE && Available(table, limit, after))
    || (table' == Give(table, before) && after == NONE)
  }

  function SlotLeft(th: Option<Thread>, kind: Kind): Key {
    if th.None? then NONE else SlotOf(th.value, kind)
  }

  /** The effect of an event on its thread, and on the slots that the thread holds. */
  predicate EffectOk(s: State, th: Thread, t: nat, f: Effect) {
    && Standing(f.thread, t)
    && InStep(s.users, f.users, s.userLimit, th.user, SlotLeft(f.thread, UserSlot))
    && InStep(s.domains, f.domains, s.domainLimit, th.domain, SlotLeft(f.thread, DomainSlot))
  }

  lemma AskUserOk(s: State, th: Thread)
    requires ThreadOk(th) && th.stage.Got?
    ensures EffectOk(s, th, 0, AskUserEffect(s, th))
  {
  }

  lemma AskDomainOk(s: State, th: Thread)
    requires ThreadOk(th) && th.stage.HasUser?
    ensures EffectOk(s, th, 0, AskDomainEffect(s, th))
  {
  }

  /** Where the rotation matters: the slot of the admitted domain is held for the first group. */
  lemma BeginOk(s: State, th: Thread, t: nat, go: bool)
    requires ThreadOk(th) && th.stage.Starting? && t != 0
    ensures EffectOk(s, th, t, BeginEffect(s, th, go))
  {
    AdmittedFirst(th.env.value);
  }

  lemma ChooseOk(s: State, th: Thread, t: nat)
    requires ThreadOk(th) && th.stage.Choosing? && th.todo != [] && t != 0
    ensures EffectOk(s, th, t, ChooseEffect(s, th))
  {
  }

  lemma SentOk(s: State, th: Thread, t: nat, rs: seq<Recipient>, corrupt: bool)
    requires ThreadOk(th) && th.stage.Sending? && t != 0
    ensures EffectOk(s, th, t, SentEffect(s, th, rs, corrupt))
  {
  }

  lemma LoopOk(s: State, e: Event)
    requires PlacesOk(s) && Enabled(s, e) && (e.Pop? || e.Cancel? || e.Return? || e.Wake?)
    ensures EffectOk(s, s.threads[0], 0, Act(s, e))
  {
    assert ThreadOk(s.threads[0]);
  }

  lemma SettleOk(s: State, e: Event)
    requires PlacesOk(s) && Enabled(s, e) && (e.Break? || e.Settle?)
    ensures EffectOk(s, s.threads[e.t], e.t, Act(s, e))
  {
    assert ThreadOk(s.threads[e.t]);
  }

  lemma LeaveOk(s: State, e: Event)
    requires PlacesOk(s) && Enabled(s, e) && (e.DropDomain? || e.DropUser? || e.RequeueAfter? || e.Forget?)
    ensures EffectOk(s, s.threads[e.t], e.t, Act(s, e))
  {
    assert ThreadOk(s.threads[e.t]);
  }

  lemma AttemptOk(s: State, e: Event)
    requires PlacesOk(s) && Enabled(s, e) && (e.Begin? || e.Choose? || e.Sent?)
    ensures EffectOk(s, s.threads[e.t], e.t, Act(s, e))
  {
    var th := s.threads[e.t];
    assert ThreadOk(th) && e.t != 0;
    match e
    case Begin(t, go) => BeginOk(s, th, t, go);
    case Choose(t) => ChooseOk(s, th, t);
    case Sent(t, rs, corrupt) => SentOk(s, th, t, rs, corrupt);
  }

  lemma ActOk(s: State, e: Event)
    requires PlacesOk(s) && Enabled(s, e) && !e.Spawn?
    ensures Actor(e) in s.threads && EffectOk(s, s.threads[Actor(e)], Actor(e), Act(s, e))
  {
    if e.Begin? || e.Choose? || e.Sent? {
      AttemptOk(s, e);
    } else if e.Break? || e.Settle? {
      SettleOk(s, e);
    } else if e.DropDomain? || e.DropUser? || e.RequeueAfter? || e.Forget? {
      LeaveOk(s, e);
    } else if e.AskUser? {
      AskUserOk(s, s.threads[0]);
    } else if e.AskDomain? {
      AskDomainOk(s, s.threads[0]);
    } else {
      LoopOk(s, e);
    }
  }

  lemma PutPlaces(s: State, s': State, t: nat, th: Option<Thread>)
    requires PlacesOk(s) && s'.threads == Put(s.threads, t, th) && Standing(th, t)
    requires 0 in s'.threads && s'.threads[0].stage.Returned? ==> s'.threads.Keys == {0} && s'.parked == []
    ensures PlacesOk(s')
  {
  }

  lemma SpawnPlaces(s: State, t: nat)
    requires PlacesOk(s) && Enabled(s, Spawn(t))
    ensures PlacesOk(DoSpawn(s, t))
  {
    assert ThreadOk(s.threads[0]);
  }

  /** After the return nothing can happen any more. */
  lemma ReturnedIsEnd(s: State, e: Event)
    requires PlacesOk(s) && s.threads[0].stage.Returned?
    ensures !Enabled(s, e)
  {
  }

  lemma StepPlaces(s: State, e: Event)
    requires PlacesOk(s) && Enabled(s, e)
    ensures PlacesOk(Do(s, e))
  {
    if s.threads[0].stage.Returned? {
      ReturnedIsEnd(s, e);
    } else if e.Spawn? {
      SpawnPlaces(s, e.t);
    } else {
      ActOk(s, e);
      ReturnsLast(s, e);
      PutPlaces(s, Do(s, e), Actor(e), Act(s, e).thread);
    }
  }

  lemma ReturnsLast(s: State, e: Event)
    requires PlacesOk(s) && Enabled(s, e) && !e.Spawn? && !s.threads[0].stage.Returned?
    ensures 0 in Do(s, e).threads && Do(s, e).threads[0].stage.Returned? ==>
      Do(s, e).threads.Keys == {0} && Do(s, e).parked == []
  {
    ActOk(s, e);
    if Actor(e) == 0 && !e.Return? {
      GoesOn(s, e);
    }
  }

  lemma GoesOn(s: State, e: Event)
    requires PlacesOk(s) && Enabled(s, e) && !e.Spawn? && !e.Return? && Actor(e) == 0 && !s.threads[0].stage.Returned?
    ensures Act(s, e).thread.Some? && !Act(s, e).thread.value.stage.Returned?
  {
  }

  lemma SlotsInStep(table: Table, table': Table, limit: int, threads: map<nat, Thread>, threads': map<nat, Thread>,
                    t: nat, kind: Kind)
    requires SlotsOk(table, limit, threads, kind) && threads' - {t} == threads - {t}
    requires InStep(table, table', limit, SlotAt(threads, t, kind), SlotAt(threads', t, kind))
    ensures SlotsOk(table', limit, threads', kind)
  {
    var before, after := SlotAt(threads, t, kind), SlotAt(threads', t, kind);
    if table' == Give(table, before) && after == NONE && t in threads {
      GiveMoves(table, limit, threads, t, kind);
    } else if table' == Take(table, after) && before == NONE && Available(table, limit, after) {
      TakeMoves(table, limit, after);
    }
    MoveSlot(table, table', limit, threads, threads', t, kind);
  }

  /** The attempt takes over the slots of the loop. */
  lemma SpawnSlots(s: State, t: nat, table: Table, limit: int, kind: Kind)
    requires PlacesOk(s) && Enabled(s, Spawn(t)) && SlotsOk(table, limit, s.threads, kind)
    ensures SlotsOk(table, limit, DoSpawn(s, t).threads, kind)
  {
    var mid := s.threads[t := s.threads[0].(stage := Starting)];
    var end := mid[0 := IDLE];
    assert mid - {t} == s.threads - {t} && end - {0} == mid - {0};
    forall k | k != NONE ensures Holders(table, k) == Total(end, Holds(kind, k)) {
      TotalChange(s.threads, mid, Holds(kind, k), t);
      TotalChange(mid, end, Holds(kind, k), 0);
    }
  }

  /** Every step of every thread keeps the slots: the holders of a key are exactly the threads that will
      give a slot of it back, and never more than the limit. */
  lemma StepKeeps(s: State, e: Event)
    requires Inv(s) && Enabled(s, e)
    ensures Inv(Do(s, e))
  {
    StepPlaces(s, e);
    if e.Spawn? {
      SpawnSlots(s, e.t, s.users, s.userLimit, UserSlot);
      SpawnSlots(s, e.t, s.domains, s.domainLimit, DomainSlot);
    } else {
      ActOk(s, e);
      var f, t := Act(s, e), Actor(e);
      PutOthers(s.threads, t, f.thread);
      SlotsInStep(s.users, f.users, s.userLimit, s.threads, Put(s.threads, t, f.thread), t, UserSlot);
      SlotsInStep(s.domains, f.domains, s.domainLimit, s.threads, Put(s.threads, t, f.thread), t, DomainSlot);
    }
  }

  lemma PutOthers(threads: map<nat, Thread>, t: nat, th: Option<Thread>)
    ensures Put(threads, t, th) - {t} == threads - {t}
    ensures forall kind :: SlotAt(Put(threads, t, th), t, kind) == SlotLeft(th, kind)
  {
  }

  // ---------- runs ----------

  function Initial(userLimit: int, domainLimit: int, book: Book): State {
    State(map[], map[], userLimit, domainLimit, book, [], map[0 := IDLE])
  }

  ghost predicate Possible(s: State, events: seq<Event>)
    decreases |events|
  {
    events != [] ==> Enabled(s, events[0]) && Possible(Do(s, events[0]), events[1..])
  }

  ghost function Final(s: State, events: seq<Event>): State
    requires Possible(s, events)
    decreases |events|
  {
    if events == [] then s else Final(Do(s, events[0]), events[1..])
  }

  lemma {:induction false} RunKeeps(s: State, events: seq<Event>)
    requires Inv(s) && Possible(s, events)
    ensures Inv(Final(s, events))
    decreases |events|
  {
    if events != [] {
      StepKeeps(s, events[0]);
      RunKeeps(Do(s, events[0]), events[1..]);
    }
  }

  lemma InitialInv(userLimit: int, domainLimit: int, book: Book)
    requires userLimit >= 1 && domainLimit >= 1
    ensures Inv(Initial(userLimit, domainLimit, book))
  {
    var threads := map[0 := IDLE];
    forall kind, k | k != NONE ensures Total(threads, Holds(kind, k)) == 0 {
      TotalZero(threads, Holds(kind, k));
    }
  }

  /** Once the run loop has returned no slot is held and nothing is parked. */
  lemma NothingLeft(userLimit: int, domainLimit: int, book: Book, events: seq<Event>)
    requires userLimit >= 1 && domainLimit >= 1 && Possible(Initial(userLimit, domainLimit, book), events)
    ensures
      var s := Final(Initial(userLimit, domainLimit, book), events);
      && (forall k :: Holders(s.users, k) <= userLimit && Holders(s.domains, k) <= domainLimit)
      && (At(s, 0, Returned) ==> s.users == map[] && s.domains == map[] && s.parked == [])
  {
    var s0 := Initial(userLimit, domainLimit, book);
    InitialInv(userLimit, domainLimit, book);
    RunKeeps(s0, events);
    LimitsStay(s0, events);
    var s := Final(s0, events);
    if At(s, 0, Returned) {
      EmptyTable(s.users, userLimit, s.threads, UserSlot);
      EmptyTable(s.domains, domainLimit, s.threads, DomainSlot);
    }
  }

  lemma {:induction false} LimitsStay(s: State, events: seq<Event>)
    requires Possible(s, events)
    ensures Final(s, events).userLimit == s.userLimit && Final(s, events).domainLimit == s.domainLimit
    decreases |events|
  {
    if events != [] {
      LimitsStay(Do(s, events[0]), events[1..]);
    }
  }

  lemma EmptyTable(table: Table, limit: int, threads: map<nat, Thread>, kind: Kind)
    requires SlotsOk(table, limit, threads, kind)
    requires threads.Keys == {0} && SlotOf(threads[0], kind) == NONE
    ensures table == map[]
  {
    forall k | k in table ensures Holders(table, k) == 0 {
      TotalZero(threads, Holds(kind, k));
    }
    assert table.Keys == {};
  }
}
