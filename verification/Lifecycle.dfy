/** The life of one accepted message and of the delivery status notifications (DSNs) generated for it:
    internal/queue/storage.go, dsn.go, dead.go, delivery.go and recovery.go.

    A message directory is in ready/ or in dead/ and holds metadata that is replaced under an optimistic
    revision check. A revived message gets a new DSN generation. The DSN of a generation is staged in
    dsn/, linked by the message's metadata, and only then renamed into ready/. */
module Lifecycle {
  import opened Options
  import opened CrashDisk

  /** The status of each recipient; addresses, bodies and the like are the content. */
  datatype Standing = Waiting | Taken | Refused
  type Delivery = seq<Standing>

  /** `linked` says that the metadata names the DSN of its generation. */
  datatype Meta = Meta(incarnation: nat, revision: nat, generation: nat, linked: bool, content: nat, delivery: Delivery)

  /** A DSN entry: which AddDSN call made it, the source revision it belongs to, and whether its marker
      says accepted. */
  datatype Dsn = Dsn(call: nat, revision: nat, accepted: bool)

  /** `revive` is the metadata staged beside `meta` by a revival. The directory can be linked in ready/ and
      in dead/ at once after a power cut. DSN entries are named by their generation. */
  datatype Files = Files(
    meta: Meta, revive: Option<Meta>, ready: bool, dead: bool,
    staged: map<nat, Dsn>, posted: map<nat, Dsn>, buried: map<nat, Dsn>)

  /** Every write of a metadata version. */
  function Updated(env: Meta): Meta {
    env.(revision := env.revision + 1)
  }

  function Revived(m: Meta): Meta {
    m.(revision := m.revision + 1, generation := m.generation + 1, linked := false, delivery := Reopened(m.delivery))
  }

  function Reopened(d: Delivery): Delivery {
    if d == [] then [] else [if d[0].Refused? then Waiting else d[0]] + Reopened(d[1..])
  }

  /** A revival makes every failed recipient pending again and leaves the others. */
  predicate Reopens(d: Delivery, d': Delivery) {
    |d'| == |d| && forall i :: 0 <= i < |d| ==> d'[i] == if d[i].Refused? then Waiting else d[i]
  }

  lemma {:induction false} ReopenedReopens(d: Delivery)
    ensures Reopens(d, Reopened(d))
    decreases |d|
  {
    if d != [] {
      ReopenedReopens(d[1..]);
      var rest := Reopened(d[1..]);
      forall i | 0 <= i < |d| ensures Reopened(d)[i] == if d[i].Refused? then Waiting else d[i] {
        if i > 0 { assert Reopened(d)[i] == rest[i - 1] && d[i] == d[1..][i - 1]; }
      }
    }
  }

  function Count(d: Delivery, s: Standing): nat {
    if d == [] then 0 else Count(d[1..], s) + if d[0] == s then 1 else 0
  }

  /** Nobody is failed any more, and as many more are pending as were failed. */
  lemma {:induction false} ReopenedCounts(d: Delivery, d': Delivery)
    requires Reopens(d, d')
    ensures Count(d', Refused) == 0 && Count(d', Waiting) == Count(d, Waiting) + Count(d, Refused)
    ensures Count(d', Taken) == Count(d, Taken)
    decreases |d|
  {
    if d != [] {
      forall i | 0 <= i < |d| - 1 ensures d'[1..][i] == if d[1..][i].Refused? then Waiting else d[1..][i] {
        assert d'[1..][i] == d'[i + 1] && d[1..][i] == d[i + 1];
      }
      ReopenedCounts(d[1..], d'[1..]);
    }
  }

  predicate Has(d: Delivery, s: Standing) {
    exists i :: 0 <= i < |d| && d[i] == s
  }

  /** The metadata of a revived message: the next revision and generation, no link, the same message, and every
      failed recipient pending again. */
  predicate RevivedFrom(m: Meta, m': Meta) {
    && m'.revision == m.revision + 1 && m'.generation == m.generation + 1 && !m'.linked
    && m'.incarnation == m.incarnation && m'.content == m.content && Reopens(m.delivery, m'.delivery)
  }

  lemma RevivedIsRevived(m: Meta)
    ensures RevivedFrom(m, Revived(m))
  {
    ReopenedReopens(m.delivery);
  }

  /** No DSN can be generated for the message as its recipients stand. */
  ghost predicate Unreportable(f: Files) {
    forall env: Meta, call :: env.delivery == f.meta.delivery ==> !Reportable(f, env, call)
  }

  lemma NeverReportable(m: Meta, f: Files)
    requires RevivedFrom(m, f.meta) && Has(m.delivery, Refused)
    ensures Unreportable(f)
  {
    forall env: Meta, call | env.delivery == f.meta.delivery ensures !Reportable(f, env, call) {
      NotReportable(m, f, env, call);
    }
  }

  /** A message revived with a failed recipient cannot be reported until an attempt has changed a recipient. */
  lemma NotReportable(m: Meta, f: Files, env: Meta, call: nat)
    requires RevivedFrom(m, f.meta) && Has(m.delivery, Refused) && env.delivery == f.meta.delivery
    ensures !Reportable(f, env, call)
  {
    var i :| 0 <= i < |m.delivery| && m.delivery[i] == Refused;
    assert f.meta.delivery[i] == Waiting;
  }

  /** The check that a stored version is the one an update is based on. */
  predicate Matches(current: Meta, env: Meta, link: bool) {
    && current.incarnation == env.incarnation && current.revision == env.revision
    && current.generation == env.generation && current.content == env.content
    && (if link then !current.linked && env.linked else current.linked == env.linked)
  }

  // ---------- what a running queue keeps, and what a power cut leaves ----------

  /** The DSN published for each generation, and the generations whose DSN has been handled for good. */
  datatype Past = Past(posted: map<nat, nat>, done: set<nat>)

  /** What was published stays on record: no second DSN takes the place of a published one. */
  predicate Grows(before: Past, after: Past) {
    && (forall g :: g in before.posted ==> g in after.posted && after.posted[g] == before.posted[g])
    && before.done <= after.done
  }

  /** A DSN entry in ready/ or dead/ is the published one of the current generation, which is linked. */
  predicate Current(f: Files, past: Past, g: nat, d: Dsn) {
    && g == f.meta.generation && f.meta.linked
    && g in past.posted && past.posted[g] == d.call && g !in past.done
  }

  predicate PastOk(f: Files, past: Past) {
    && (forall g :: g in f.posted ==> Current(f, past, g, f.posted[g]))
    && (forall g :: g in f.buried ==> Current(f, past, g, f.buried[g]))
    && (forall g :: g in past.posted ==> g < f.meta.generation || (g == f.meta.generation && f.meta.linked))
    && (forall g :: g in past.done ==> g in past.posted)
  }

  /** Between two operations of a running queue. */
  predicate Sane(f: Files, past: Past) {
    && PastOk(f, past)
    && !(f.ready && f.dead) && (f.ready ==> f.revive.None?)
    && f.staged == map[]
    && (forall g :: g in f.posted ==> g !in f.buried)
    && (f.meta.linked ==> f.meta.generation in past.posted)
  }

  /** A stage that a power cut can leave: not linked yet, or linked exactly, or already published too. */
  predicate StageOk(f: Files, past: Past, g: nat, d: Dsn) {
    && g == f.meta.generation && f.ready && !f.dead && f.revive.None? && f.buried == map[]
    && (g in past.posted ==> past.posted[g] == d.call && g !in past.done)
    && (f.meta.linked ==> d.accepted && d.revision == f.meta.revision)
    && (g in f.posted ==> f.posted[g] == d)
  }

  /** What a power cut can leave. */
  predicate Left(f: Files, past: Past) {
    && PastOk(f, past)
    && (forall g :: g in f.staged ==> StageOk(f, past, g, f.staged[g]))
    && (forall g :: g in f.posted && g in f.buried ==> f.posted[g] == f.buried[g])
    && (f.meta.linked ==> f.meta.generation in past.posted || f.meta.generation in f.staged)
    && (f.ready && f.revive.Some? ==>
      f.staged == map[] && f.posted == map[] && f.buried == map[] && f.revive.value in {f.meta, Revived(f.meta)})
  }

  /** The DSN of the linked generation is still around. */
  predicate HasDsn(f: Files) {
    var g := f.meta.generation;
    f.meta.linked && (g in f.staged || g in f.posted || g in f.buried)
  }

  /** A DSN can be generated on the strength of this copy of the metadata: delivery has ended with a failure,
      the copy is of the message in ready/, and it is up to date; or a DSN is linked already, and ready/ holds no
      DSN of another call or for another revision. */
  predicate Reportable(f: Files, env: Meta, call: nat) {
    && !Has(env.delivery, Waiting) && Has(env.delivery, Refused) && f.ready
    && env.generation == f.meta.generation && env.incarnation == f.meta.incarnation && env.content == f.meta.content
    && (if f.meta.linked then SamePosted(f, f.meta.generation, call) else env.revision == f.meta.revision)
  }

  /** What ready/ holds of a generation, if anything, is the DSN of this call for the source's revision. */
  predicate SamePosted(f: Files, g: nat, call: nat) {
    g in f.posted ==> f.posted[g].call == call && f.posted[g].revision == f.meta.revision
  }

  /** The copy is of the message that dead/ holds. */
  predicate AlreadyBuried(f: Files, env: Meta) {
    !f.ready && f.dead && f.meta.incarnation == env.incarnation && f.meta.revision == env.revision
  }

  /** The message is there, with version `a` or version `b`, and recovery will not make it anything else. */
  predicate Between(f: Files, a: Meta, b: Meta) {
    (f.ready || f.dead) && f.meta in {a, b} && (f.ready && f.revive.Some? ==> f.revive.value == b)
  }

  /** The two steps that publish a stage. */
  function Shelve(f: Files, g: nat): Files {
    if g in f.staged then f.(posted := f.posted[g := f.staged[g]]) else f
  }

  function Unstage(f: Files, g: nat): Files {
    f.(staged := f.staged - {g})
  }

  /** The stage of a generation is the DSN that ready/ now holds. */
  predicate Completed(before: Files, after: Files, g: nat) {
    g in before.staged && g in after.posted && after.posted[g] == before.staged[g]
  }

  /** Nothing leaves ready/ that dead/ does not hold too. */
  predicate PostedKept(before: Files, after: Files) {
    forall g :: g in before.posted && g !in before.buried ==> g in after.posted && after.posted[g] == before.posted[g]
  }

  function Unpost(f: Files, g: nat): Files {
    f.(posted := f.posted - {g})
  }

  /** The source links exactly this stage, or what was published in its place. */
  predicate CanPost(f: Files, g: nat, call: nat) {
    && f.ready && f.meta.linked && f.meta.generation == g
    && if g in f.staged then f.staged[g].accepted && f.staged[g].call == call && f.staged[g].revision == f.meta.revision
      else SamePosted(f, g, call)
  }

  /** An update that keeps generation and link keeps everything in order. */
  lemma UpdateSane(f: Files, past: Past, m: Meta)
    requires Sane(f, past) && m.generation == f.meta.generation && m.linked == f.meta.linked
    ensures Sane(f.(meta := m), past)
  {
    var f' := f.(meta := m);
    assert forall g :: g in f'.posted ==> Current(f, past, g, f.posted[g]);
    assert forall g :: g in f'.buried ==> Current(f, past, g, f.buried[g]);
  }

  lemma SaneLeft(f: Files, past: Past)
    requires Sane(f, past)
    ensures Left(f, past)
  {
  }

  /** Without a DSN of the linked generation there is no DSN at all. */
  lemma NothingAround(f: Files, past: Past)
    requires Sane(f, past)
    requires f.meta.linked ==> f.meta.generation !in f.posted && f.meta.generation !in f.buried
    ensures f.posted == map[] && f.buried == map[]
  {
    assert f.posted.Keys == {} && f.buried.Keys == {};
  }

  lemma MoveKeepsMeta(outcomes: set<Files>, after: set<Files>, link: Files -> Files, unlink: Files -> Files, m: Meta)
    requires after <= AfterMove(outcomes, link, unlink) && forall c :: c in outcomes ==> c.meta == m
    requires forall f: Files :: link(f).meta == f.meta && unlink(f).meta == f.meta
    ensures forall c :: c in after ==> c.meta == m
  {
  }

  class Store {
    const disk: Disk<Files>
    ghost var past: Past

    constructor (meta: Meta)
      requires !meta.linked
      ensures fresh(disk) && disk.Valid() && disk.Settled() && Sane(disk.live, past)
      ensures disk.live == Files(meta, None, true, false, map[], map[], map[])
    {
      var start := Files(meta, None, true, false, map[], map[], map[]);
      disk := new Disk(start);
      past := Past(map[], {});
    }

    /** A visible change and the sync that makes it durable. An error may come before or after the change. */
    method Write(effect: Files -> Files, same: (Files, Files) -> bool, w: World) returns (r: Io)
      requires disk.Valid() && forall f :: same(f, f)
      modifies disk
      ensures disk.Valid()
      ensures r.Failed? ==> w.mayFail && disk.live in {old(disk.live), effect(old(disk.live))}
      ensures r.Done? ==> disk.live == effect(old(disk.live))
      ensures r.Crashed? ==> w.mayDie && disk.Settled()
      ensures
        var x := old(disk.live);
        old(disk.Settled()) ==>
          && (r.Done? && (same(x, effect(x)) ==> x == effect(x)) ==> disk.Settled())
          && (r.Crashed? ==> disk.live in {x, effect(x)})
    {
      var early := Fails(w);
      if early { return Failed; }
      disk.Do(effect);
      var died := disk.MaybeCrash(w.mayDie);
      if died { return Crashed; }
      var late := Fails(w);
      if late { return Failed; }
      disk.Sync(same);
      return Done;
    }

    /** A rename and the syncs of both directories. After an error `moved` says that the rename is known to
        have happened. */
    method Rename(link: Files -> Files, unlink: Files -> Files, same: (Files, Files) -> bool, w: World)
      returns (r: Io, moved: bool)
      requires disk.Valid() && forall f :: same(f, f)
      modifies disk
      ensures disk.Valid() && disk.outcomes <= AfterMove(old(disk.outcomes), link, unlink)
      ensures r.Failed? ==> w.mayFail && disk.live in {old(disk.live), unlink(link(old(disk.live)))}
      ensures r.Done? ==> moved
      ensures moved && !r.Crashed? ==> disk.live == unlink(link(old(disk.live)))
      ensures r.Crashed? ==> w.mayDie && disk.Settled() && moved
      ensures
        var x := old(disk.live);
        var y := unlink(link(x));
        old(disk.Settled()) ==>
          && (r.Done? && !same(x, y) && (same(link(x), y) ==> link(x) == y) ==> disk.Settled())
          && (r.Crashed? ==> disk.live in {x, link(x), y})
          && (r.Failed? && moved ==> disk.outcomes == {x, link(x), y})
    {
      var early := Fails(w);
      if early { return Failed, false; }
      disk.Move(link, unlink);
      var died := disk.MaybeCrash(w.mayDie);
      if died { return Crashed, true; }
      var late := Fails(w);
      if late {
        var unread := Fails(w);
        return Failed, !unread;
      }
      disk.Sync(same);
      return Done, true;
    }

    // ---------- metadata under the revision check ----------

    /** Replaces the metadata of the message in ready/ if `env` is based on the stored version. */
    method StoreReady(env: Meta, link: bool, w: World) returns (r: Io, committed: bool)
      requires disk.Valid()
      modifies disk
      ensures disk.Valid() && (r.Crashed? ==> w.mayDie && disk.Settled())
      ensures !r.Crashed? ==> disk.live in {old(disk.live), old(disk.live).(meta := Updated(env))}
      ensures !r.Crashed? && disk.live != old(disk.live) ==>
        old(disk.live).ready && Matches(old(disk.live).meta, env, link)
      ensures r.Done? ==> committed
      ensures committed && !r.Crashed? ==>
        old(disk.live).ready && Matches(old(disk.live).meta, env, link) && disk.live.meta == Updated(env)
      ensures !w.mayFail ==> (r.Failed? <==> !(old(disk.live).ready && Matches(old(disk.live).meta, env, link)))
      ensures !w.mayFail && r.Failed? ==> disk.live == old(disk.live) && disk.outcomes == old(disk.outcomes)
      ensures old(disk.Settled()) ==>
        && (r.Done? ==> disk.Settled())
        && (r.Crashed? ==> disk.live in {old(disk.live), old(disk.live).(meta := Updated(env))})
        && (r.Crashed? ==> old(disk.live).ready && Matches(old(disk.live).meta, env, link))
    {
      var unread := Fails(w);
      if unread || !disk.live.ready || !Matches(disk.live.meta, env, link) {
        return Failed, false;
      }
      r := Write((f: Files) => f.(meta := Updated(env)),
                 (a: Files, b: Files) => a.meta == b.meta && a.revive == b.revive, w);
      committed := r.Done?;
      if r.Failed? {
        unread := Fails(w);
        committed := !unread && disk.live.meta == Updated(env);
      }
    }

    // ---------- publishing a DSN ----------

    /** Renames a stage into ready/. */
    method Publish(g: nat, w: World) returns (r: Io, moved: bool)
      requires disk.Valid() && g in disk.live.staged && forall c :: c in disk.outcomes ==> c.meta == disk.live.meta
      modifies disk
      ensures disk.Valid() && (r.Crashed? ==> w.mayDie && disk.Settled() && moved)
      ensures forall c :: c in disk.outcomes ==> c.meta == old(disk.live).meta
      ensures !w.mayFail ==> moved && !r.Failed?
      ensures r.Done? ==> moved
      ensures
        var x := old(disk.live);
        old(disk.Settled()) && r.Crashed? ==> disk.live in {x, Shelve(x, g), Unstage(Shelve(x, g), g)}
      ensures
        var x := old(disk.live);
        old(disk.Settled()) && moved && !r.Crashed? ==>
          && disk.live == Unstage(Shelve(x, g), g)
          && disk.outcomes == if r.Done? then {disk.live} else {x, Shelve(x, g), disk.live}
    {
      var d := disk.live.staged[g];
      ghost var x := disk.live;
      assert g in x.staged && g !in Unstage(x, g).staged && g !in Unstage(Shelve(x, g), g).staged;
      var link, unlink := (f: Files) => f.(posted := f.posted[g := d]), (f: Files) => Unstage(f, g);
      ghost var before := disk.outcomes;
      r, moved := Rename(link, unlink, (a: Files, b: Files) => a.posted == b.posted && a.staged == b.staged, w);
      MoveKeepsMeta(before, disk.outcomes, link, unlink, x.meta);
    }

    /** Makes the source's metadata durable and checks that it links exactly what is staged or was published. */
    method Barrier(g: nat, call: nat, w: World) returns (r: Io)
      requires disk.Valid()
      modifies disk
      ensures disk.Valid() && !r.Crashed? && disk.live == old(disk.live) && disk.outcomes <= old(disk.outcomes)
      ensures r.Done? ==> CanPost(disk.live, g, call) && forall c :: c in disk.outcomes ==> c.meta == disk.live.meta
      ensures !w.mayFail ==> (r.Done? <==> CanPost(disk.live, g, call))
    {
      if !disk.live.ready { return Failed; }
      var failed := Fails(w);
      if failed { return Failed; }
      disk.Sync((a: Files, b: Files) => a.meta == b.meta && a.revive == b.revive);
      if !(disk.live.meta.linked && disk.live.meta.generation == g) { return Failed; }
      if g !in disk.live.staged {
        return if SamePosted(disk.live, g, call) then Done else Failed;
      }
      var d := disk.live.staged[g];
      return if d.accepted && d.call == call && d.revision == disk.live.meta.revision then Done else Failed;
    }

    /** Publishes a stage, if the source's metadata, made durable first, links exactly it. */
    method Post(g: nat, call: nat, w: World) returns (r: Io, moved: bool)
      requires disk.Valid()
      modifies disk, `past
      ensures disk.Valid() && (r.Crashed? ==> w.mayDie && disk.Settled() && moved)
      ensures moved ==> g in old(disk.live).staged && CanPost(old(disk.live), g, call)
      ensures
        var f := old(disk.live);
        var exact := f.ready && f.meta.linked && f.meta.generation == g && g in f.staged
          && f.staged[g] == Dsn(call, f.meta.revision, true);
        (moved ==> exact) && (exact && !w.mayFail ==> moved)
      ensures moved ==> forall c :: c in disk.outcomes ==> c.meta == old(disk.live).meta
      ensures past == if moved then old(past).(posted := old(past).posted[g := call]) else old(past)
      ensures r.Done? && g in old(disk.live).staged ==> moved
      ensures !w.mayFail ==> (r.Failed? <==> !CanPost(old(disk.live), g, call))
      ensures old(disk.Settled()) && !moved && !w.mayFail ==> disk.Settled() && disk.live == old(disk.live)
      ensures
        var x := old(disk.live);
        old(disk.Settled()) && r.Crashed? ==> disk.live in {x, Shelve(x, g), Unstage(Shelve(x, g), g)}
      ensures
        var x := old(disk.live);
        old(disk.Settled()) && moved && !r.Crashed? ==>
          && disk.live == Unstage(Shelve(x, g), g)
          && disk.outcomes == if r.Done? then {disk.live} else {x, Shelve(x, g), disk.live}
    {
      moved := false;
      r := Barrier(g, call, w);
      if r.Failed? || g !in disk.live.staged { return; }
      r, moved := Publish(g, w);
      past := if moved then past.(posted := past.posted[g := call]) else past;
    }

    // ---------- operations of a running queue, cut off anywhere ----------

    ghost predicate Quiescent() reads this, disk {
      disk.Valid() && disk.Settled() && Sane(disk.live, past)
    }

    ghost predicate Interrupted() reads this, disk {
      disk.Valid() && disk.Settled() && Left(disk.live, past)
    }

    /** Stores the outcome of an attempt. */
    method Retry(env: Meta, mayDie: bool) returns (r: Io)
      requires Quiescent()
      modifies disk
      ensures if r.Crashed? then mayDie && Interrupted() else Quiescent()
      ensures r.Failed? <==> !(old(disk.live).ready && Matches(old(disk.live).meta, env, false))
      ensures var m := old(disk.live).meta; r.Failed? <==> !old(disk.live).ready || env.(delivery := m.delivery) != m
      ensures r.Failed? ==> disk.live == old(disk.live)
      ensures r.Done? ==> disk.live.meta == env.(revision := env.revision + 1)
      ensures r.Crashed? ==> disk.live in {old(disk.live), old(disk.live).(meta := Updated(env))}
      ensures r.Done? ==> disk.live == old(disk.live).(meta := Updated(env))
    {
      ghost var before := disk.live;
      var committed;
      r, committed := StoreReady(env, false, World(false, mayDie));
      if disk.live != before {
        UpdateSane(before, past, Updated(env));
      }
      SaneLeft(disk.live, past);
    }

    /** Stores the final metadata and renames the message into dead/. */
    method Bury(env: Meta, mayDie: bool) returns (r: Io)
      requires Quiescent()
      modifies disk
      ensures if r.Crashed? then mayDie && Interrupted() else Quiescent()
      ensures r.Failed? ==> disk.live == old(disk.live)
      ensures r.Done? ==>
        if AlreadyBuried(old(disk.live), env) then disk.live == old(disk.live)
        else disk.live == old(disk.live).(meta := Updated(env), ready := false, dead := true)
      ensures r.Crashed? ==> Between(disk.live, old(disk.live).meta, Updated(env))
      ensures
        var f := old(disk.live);
        r.Failed? <==> !AlreadyBuried(f, env) && !(f.ready && Matches(f.meta, env, false))
      ensures r.Done? ==>
        && disk.live.dead && !disk.live.ready && disk.live.meta.incarnation == env.incarnation
        && (if old(disk.live).ready then disk.live.meta == env.(revision := env.revision + 1)
            else disk.live.meta.revision == env.revision && disk.live == old(disk.live))
    {
      if AlreadyBuried(disk.live, env) { return Done; }
      r := Retry(env, mayDie);
      if !r.Done? { return; }
      var moved;
      r, moved := Rename((f: Files) => f.(dead := true), (f: Files) => f.(ready := false),
        (a: Files, b: Files) => a.ready == b.ready && a.dead == b.dead, World(false, mayDie));
    }

    /** Renames the message of ready/ away for good. */
    method Finish(env: Meta, mayDie: bool) returns (r: Io)
      requires Quiescent()
      modifies disk
      ensures if r.Crashed? then mayDie && Interrupted() else Quiescent()
      ensures r.Failed? ==> disk.live == old(disk.live)
      ensures r.Failed? <==> old(disk.live).ready && !Matches(old(disk.live).meta, env, false)
      ensures var m := old(disk.live).meta; r.Failed? <==> old(disk.live).ready && env.(delivery := m.delivery) != m
      ensures r.Done? ==> disk.live == old(disk.live).(ready := false)
    {
      if !disk.live.ready { return Done; }
      if !Matches(disk.live.meta, env, false) { return Failed; }
      var moved;
      r, moved := Rename((f: Files) => f, (f: Files) => f.(ready := false), (a: Files, b: Files) => a.ready == b.ready,
                         World(false, mayDie));
    }

    /** Gives a dead message a new generation and renames it into ready/, unless its DSN is still around. */
    method Revive(mayDie: bool) returns (r: Io)
      requires Quiescent()
      modifies disk
      ensures if r.Crashed? then mayDie && Interrupted() else Quiescent()
      ensures r.Failed? ==> disk.live == old(disk.live)
      ensures r.Failed? <==> !old(disk.live).dead || HasDsn(old(disk.live))
      ensures r.Done? ==>
        && RevivedFrom(old(disk.live).meta, disk.live.meta)
        && disk.live == old(disk.live).(meta := disk.live.meta, revive := None, ready := true, dead := false)
        && disk.live.meta == Revived(old(disk.live).meta)
      ensures r.Done? && Has(old(disk.live).meta.delivery, Refused) ==> Unreportable(disk.live)
      ensures r.Done? ==> disk.live.posted == map[] && disk.live.buried == map[] && disk.live.staged == map[]
      ensures r.Crashed? ==> Between(disk.live, old(disk.live).meta, Revived(old(disk.live).meta))
    {
      var g := disk.live.meta.generation;
      if !disk.live.dead { return Failed; }
      if disk.live.meta.linked && (g in disk.live.staged || g in disk.live.posted || g in disk.live.buried) {
        return Failed;
      }
      ghost var m := disk.live.meta;
      RevivedIsRevived(m);
      r := MoveRevived(Revived(disk.live.meta), mayDie);
      if r.Done? && Has(m.delivery, Refused) { NeverReportable(m, disk.live); }
    }

    /** Stages the metadata of the next generation, moves the message and puts the metadata into place. */
    method MoveRevived(next: Meta, mayDie: bool) returns (r: Io)
      requires Quiescent() && disk.live.dead && !HasDsn(disk.live) && next == Revived(disk.live.meta)
      modifies disk
      ensures if r.Crashed? then mayDie && Interrupted() else Quiescent()
      ensures !r.Failed?
      ensures r.Done? ==> disk.live == old(disk.live).(meta := next, revive := None, ready := true, dead := false)
      ensures r.Done? ==> disk.live.posted == map[] && disk.live.buried == map[] && disk.live.staged == map[]
      ensures r.Crashed? ==> Between(disk.live, old(disk.live).meta, next)
    {
      ghost var start := disk.live;
      NothingAround(start, past);
      var w := World(false, mayDie);
      r := Write((f: Files) => f.(revive := Some(next)),
                 (a: Files, b: Files) => a.meta == b.meta && a.revive == b.revive, w);
      if !r.Done? { return; }
      var moved;
      r, moved := Rename((f: Files) => f.(ready := true), (f: Files) => f.(dead := false),
        (a: Files, b: Files) => a.ready == b.ready && a.dead == b.dead, w);
      if !r.Done? { return; }
      r, moved := Rename((f: Files) => f.(meta := next), (f: Files) => f.(revive := None),
        (a: Files, b: Files) => a.meta == b.meta && a.revive == b.revive, w);
    }

    /** A published DSN is delivered, fails for good, is revived or is deleted. */
    method FinishDsn(g: nat, mayDie: bool) returns (r: Io)
      requires Quiescent() && g in disk.live.posted
      modifies disk, `past
      ensures if r.Crashed? then mayDie && Interrupted() else Quiescent()
      ensures !r.Failed? && Grows(old(past), past) && (r.Done? ==> g in past.done)
      ensures r.Done? ==> disk.live == old(disk.live).(posted := old(disk.live).posted - {g})
    {
      r := TakeAway(g, World(false, mayDie));
      if r.Done? {
        past := past.(done := past.done + {g});
      }
    }

    /** Renames a DSN out of ready/. What this leaves of an outcome is synced; the rest of it is not touched. */
    method TakeAway(g: nat, w: World) returns (r: Io)
      requires disk.Valid() && g in disk.live.posted
      modifies disk
      ensures disk.Valid() && (r.Crashed? ==> w.mayDie && disk.Settled()) && (r.Failed? ==> w.mayFail)
      ensures r.Done? ==> disk.live == Unpost(old(disk.live), g)
      ensures r.Done? ==> forall c :: c in disk.outcomes <==>
        c.posted == disk.live.posted && exists c0 :: c0 in old(disk.outcomes) && (c == c0 || c == Unpost(c0, g))
      ensures old(disk.Settled()) ==>
        && (r.Done? ==> disk.Settled())
        && (r.Crashed? ==> disk.live in {old(disk.live), Unpost(old(disk.live), g)})
    {
      var early := Fails(w);
      if early { return Failed; }
      disk.Move((f: Files) => f, (f: Files) => Unpost(f, g));
      var died := disk.MaybeCrash(w.mayDie);
      if died { return Crashed; }
      var late := Fails(w);
      if late { return Failed; }
      disk.Sync((a: Files, b: Files) => a.posted == b.posted);
      assert g !in disk.live.posted;
      return Done;
    }

    method BuryDsn(g: nat, mayDie: bool) returns (r: Io)
      requires Quiescent() && g in disk.live.posted
      modifies disk
      ensures if r.Crashed? then mayDie && Interrupted() else Quiescent()
      ensures !r.Failed?
      ensures
        var f := old(disk.live);
        r.Done? ==> disk.live == f.(posted := f.posted - {g}, buried := f.buried[g := f.posted[g]])
    {
      var d := disk.live.posted[g];
      var moved;
      r, moved := Rename((f: Files) => f.(buried := f.buried[g := d]), (f: Files) => f.(posted := f.posted - {g}),
        (a: Files, b: Files) => a.posted == b.posted && a.buried == b.buried, World(false, mayDie));
    }

    method ReviveDsn(g: nat, mayDie: bool) returns (r: Io)
      requires Quiescent() && g in disk.live.buried
      modifies disk
      ensures if r.Crashed? then mayDie && Interrupted() else Quiescent()
      ensures !r.Failed?
      ensures
        var f := old(disk.live);
        r.Done? ==> disk.live == f.(buried := f.buried - {g}, posted := f.posted[g := f.buried[g]])
    {
      var d := disk.live.buried[g];
      var moved;
      r, moved := Rename((f: Files) => f.(posted := f.posted[g := d]), (f: Files) => f.(buried := f.buried - {g}),
        (a: Files, b: Files) => a.posted == b.posted && a.buried == b.buried, World(false, mayDie));
    }

    method DeleteDsn(g: nat, mayDie: bool) returns (r: Io)
      requires Quiescent() && g in disk.live.buried
      modifies disk, `past
      ensures if r.Crashed? then mayDie && Interrupted() else Quiescent()
      ensures !r.Failed? && Grows(old(past), past) && (r.Done? ==> g in past.done)
      ensures r.Done? ==> disk.live == old(disk.live).(buried := old(disk.live).buried - {g})
    {
      var moved;
      r, moved := Rename((f: Files) => f, (f: Files) => f.(buried := f.buried - {g}),
        (a: Files, b: Files) => a.buried == b.buried, World(false, mayDie));
      if r.Done? {
        past := past.(done := past.done + {g});
      }
    }

    /** Stages the DSN of the current generation: first pending, then accepted. */
    method Stage(call: nat, mayDie: bool) returns (r: Io)
      requires Quiescent() && disk.live.ready && !disk.live.meta.linked
      modifies disk
      ensures !r.Failed? && (r.Crashed? ==> mayDie && Interrupted())
      ensures r.Done? ==> disk.Valid() && disk.Settled()
      ensures disk.live.(staged := map[]) == old(disk.live)
      ensures
        var m := old(disk.live).meta;
        r.Done? ==> disk.live == old(disk.live).(staged := map[m.generation := Dsn(call, m.revision + 1, true)])
    {
      var g := disk.live.meta.generation;
      NothingAround(disk.live, past);
      var w := World(false, mayDie);
      var pending := Dsn(call, disk.live.meta.revision + 1, false);
      r := Write((f: Files) => f.(staged := f.staged[g := pending]), (a: Files, b: Files) => a.staged == b.staged, w);
      if !r.Done? { return; }
      r := Write((f: Files) => f.(staged := f.staged[g := pending.(accepted := true)]),
                 (a: Files, b: Files) => a.staged == b.staged, w);
    }

    /** Stages a DSN, links it in the source's metadata and publishes it. */
    method AddDsn(env: Meta, call: nat, mayDie: bool) returns (r: Io)
      requires Quiescent()
      modifies disk, `past
      ensures if r.Crashed? then mayDie && Interrupted() else Quiescent()
      ensures r.Failed? ==> disk.live == old(disk.live)
      ensures r.Failed? <==> !Reportable(old(disk.live), env, call)
      ensures r.Crashed? ==> Between(disk.live, old(disk.live).meta, Updated(env.(linked := true)))
      ensures Grows(old(past), past)
      ensures r.Done? && !old(disk.live).meta.linked ==>
        disk.live.ready && !Has(disk.live.meta.delivery, Waiting) && Has(disk.live.meta.delivery, Refused)
      ensures
        var m := old(disk.live).meta;
        r.Done? ==> if m.linked then disk.live == old(disk.live) else
          disk.live ==
            old(disk.live).(meta := Updated(env.(linked := true)),
                            posted := map[m.generation := Dsn(call, m.revision + 1, true)])
    {
      var g := disk.live.meta.generation;
      if Has(env.delivery, Waiting) || !Has(env.delivery, Refused) { return Failed; }
      var m := disk.live.meta;
      if !disk.live.ready || !(env.generation == g && env.incarnation == m.incarnation && env.content == m.content) {
        return Failed;
      }
      var w := World(false, mayDie);
      var moved;
      if disk.live.meta.linked {
        r, moved := Post(g, call, w);
        return;
      }
      if disk.live.meta.revision != env.revision { return Failed; }
      r := Stage(call, mayDie);
      if !r.Done? { return; }
      var committed;
      r, committed := StoreReady(env.(linked := true), true, w);
      if !r.Done? { return; }
      r, moved := Post(g, call, w);
    }

    // ---------- recovery ----------

    /** Moves a stage to quarantine, and before it a source in ready/ that links it. */
    method QuarantineStage(g: nat, mayDie: bool) returns (r: Io)
      requires disk.Valid() && disk.Settled() && g in disk.live.staged
      modifies disk
      ensures disk.Valid() && disk.Settled() && !r.Failed? && (r.Crashed? ==> mayDie)
      ensures
        var x := old(disk.live);
        !(x.ready && x.meta.linked && x.meta.generation == g) ==>
          disk.live == Unstage(x, g) || (r.Crashed? && disk.live == x)
    {
      var w := World(false, mayDie);
      var moved;
      if disk.live.ready && disk.live.meta.linked && disk.live.meta.generation == g {
        r, moved := Rename((f: Files) => f, (f: Files) => f.(ready := false),
                           (a: Files, b: Files) => a.ready == b.ready, w);
        if !r.Done? { return; }
      }
      r := DropStage(g, mayDie);
    }

    method DropStage(g: nat, mayDie: bool) returns (r: Io)
      requires disk.Valid() && disk.Settled() && g in disk.live.staged
      modifies disk
      ensures disk.Valid() && disk.Settled() && !r.Failed? && (r.Crashed? ==> mayDie)
      ensures disk.live == Unstage(old(disk.live), g) || (r.Crashed? && disk.live == old(disk.live))
    {
      var moved;
      assert g !in Unstage(disk.live, g).staged;
      r, moved := Rename((f: Files) => f, (f: Files) => Unstage(f, g), (a: Files, b: Files) => a.staged == b.staged,
                         World(false, mayDie));
    }

    /** Publishes a stage that its source links exactly and moves any other to quarantine. */
    method RecoverStage(g: nat, mayDie: bool) returns (r: Io)
      requires Interrupted() && g in disk.live.staged
      modifies disk, `past
      ensures Interrupted() && (r.Crashed? ==> mayDie) && !r.Failed?
      ensures Grows(old(past), past)
      ensures r.Done? ==> disk.live.staged == old(disk.live).staged - {g}
      ensures r.Done? && old(disk.live).meta.linked ==> Completed(old(disk.live), disk.live, g)
      ensures forall h :: h in old(disk.live).posted && h != g ==>
        h in disk.live.posted && disk.live.posted[h] == old(disk.live).posted[h]
      ensures disk.live.(staged := map[], posted := map[]) == old(disk.live).(staged := map[], posted := map[])
    {
      var x := disk.live;
      var d := x.staged[g];
      assert StageOk(x, past, g, d);
      var exact := d.accepted && x.meta.linked && x.meta.generation == g && x.meta.revision == d.revision;
      var duplicate := g in x.posted && x.posted[g].call == d.call && x.posted[g].revision == x.meta.revision;
      if exact && g !in x.posted {
        var moved;
        r, moved := Post(g, d.call, World(false, mayDie));
      } else if exact && duplicate {
        r := DropStage(g, mayDie);
      } else {
        r := QuarantineStage(g, mayDie);
      }
    }

    method RecoverDsn(mayDie: bool) returns (r: Io)
      requires Interrupted()
      modifies disk, `past
      ensures Interrupted() && (r.Crashed? ==> mayDie) && !r.Failed?
      ensures Grows(old(past), past)
      ensures r.Done? ==> disk.live.staged == map[]
      ensures r.Done? && old(disk.live).meta.linked ==>
        forall g :: g in old(disk.live).staged ==> Completed(old(disk.live), disk.live, g)
      ensures disk.live.(staged := map[], posted := map[]) == old(disk.live).(staged := map[], posted := map[])
    {
      while disk.live.staged != map[]
        invariant Interrupted() && Grows(old(past), past)
        invariant old(disk.live).meta.linked ==> forall g :: g in old(disk.live).staged ==>
          || Completed(old(disk.live), disk.live, g)
          || (g in disk.live.staged && disk.live.staged[g] == old(disk.live).staged[g])
        invariant disk.live.(staged := map[], posted := map[]) == old(disk.live).(staged := map[], posted := map[])
        decreases |disk.live.staged|
      {
        ghost var before := disk.live.staged;
        var g: nat :| g in disk.live.staged;
        Fewer(before, g);
        r := RecoverStage(g, mayDie);
        if r.Crashed? { return; }
      }
      r := Done;
    }

    /** Completes a revival that was cut off. */
    method CompleteRevive(mayDie: bool) returns (r: Io)
      requires Interrupted() && disk.live.staged == map[] && disk.live.ready
      modifies disk
      ensures Interrupted() && disk.live.staged == map[] && (r.Crashed? ==> mayDie) && !r.Failed?
      ensures
        var x := old(disk.live);
        var next := if x.revive.Some? then x.revive.value else x.meta;
        if r.Done? then disk.live == x.(meta := next, revive := None)
        else disk.live in {x, x.(meta := next), x.(meta := next, revive := None)}
    {
      if disk.live.revive.None? { return Done; }
      var next := disk.live.revive.value;
      var moved;
      r, moved := Rename((f: Files) => f.(meta := next), (f: Files) => f.(revive := None),
        (a: Files, b: Files) => a.meta == b.meta && a.revive == b.revive, World(false, mayDie));
    }

    /** Completes a revival, and moves every entry of ready/ that dead/ holds too to quarantine. */
    method LoadReady(mayDie: bool) returns (r: Io)
      requires Interrupted() && disk.live.staged == map[]
      modifies disk
      ensures Interrupted() && (r.Crashed? ==> mayDie) && !r.Failed?
      ensures PostedKept(old(disk.live), disk.live)
      ensures r.Done? ==> Sane(disk.live, past)
      ensures old(disk.live).ready || old(disk.live).dead ==> disk.live.ready || disk.live.dead
      ensures
        var x := old(disk.live);
        disk.live.meta == x.meta || (x.ready && x.revive.Some? && disk.live.meta == x.revive.value)
      ensures disk.live.ready && disk.live.revive.Some? ==>
        old(disk.live).ready && disk.live.revive == old(disk.live).revive
    {
      var w := World(false, mayDie);
      var moved;
      if disk.live.ready {
        r := CompleteRevive(mayDie);
        if !r.Done? { return; }
        if disk.live.dead {
          r, moved := Rename((f: Files) => f, (f: Files) => f.(ready := false),
                             (a: Files, b: Files) => a.ready == b.ready, w);
          if !r.Done? { return; }
        }
      }
      r := DropDuplicates(mayDie);
    }

    method DropDuplicates(mayDie: bool) returns (r: Io)
      requires Interrupted() && disk.live.staged == map[]
      modifies disk
      ensures Interrupted() && (r.Crashed? ==> mayDie) && !r.Failed?
      ensures disk.live.(posted := map[]) == old(disk.live).(posted := map[])
      ensures r.Done? ==> forall g :: g in disk.live.posted ==> g !in disk.live.buried
      ensures PostedKept(old(disk.live), disk.live)
    {
      var twice := set g | g in disk.live.posted && g in disk.live.buried;
      while twice != {}
        invariant Interrupted()
        invariant disk.live.(posted := map[]) == old(disk.live).(posted := map[])
        invariant forall g :: g in twice <==> g in disk.live.posted && g in disk.live.buried
        invariant PostedKept(old(disk.live), disk.live)
        decreases |twice|
      {
        var g: nat :| g in twice;
        r := DropDuplicate(g, mayDie);
        if r.Crashed? { return; }
        twice := twice - {g};
      }
      r := Done;
    }

    method DropDuplicate(g: nat, mayDie: bool) returns (r: Io)
      requires Interrupted() && disk.live.staged == map[] && g in disk.live.posted && g in disk.live.buried
      modifies disk
      ensures Interrupted() && (r.Crashed? ==> mayDie) && !r.Failed?
      ensures
        || disk.live == old(disk.live).(posted := old(disk.live).posted - {g})
        || (r.Crashed? && disk.live == old(disk.live))
    {
      var moved;
      r, moved := Rename((f: Files) => f, (f: Files) => f.(posted := f.posted - {g}),
                         (a: Files, b: Files) => a.posted == b.posted, World(false, mayDie));
    }

    /** Startup. From anything that a power cut can leave it restores order: the message is in one place,
        with the metadata it had or the metadata that a revival had staged. */
    method Recover(mayDie: bool, ghost a: Meta, ghost b: Meta) returns (r: Io)
      requires Interrupted()
      modifies disk, `past
      ensures if r.Crashed? then mayDie && Interrupted() else Quiescent()
      ensures Grows(old(past), past)
      ensures !r.Crashed? && old(disk.live).meta.linked ==>
        forall g :: g in old(disk.live).staged ==> Completed(old(disk.live), disk.live, g)
      ensures Between(old(disk.live), a, b) ==> Between(disk.live, a, b)
    {
      r := RecoverDsn(mayDie);
      if !r.Done? { return; }
      r := LoadReady(mayDie);
    }

    /** A power cut during a burial, and during any number of recoveries after it: in the end the message
        is in exactly one of ready/ and dead/, with the old or the new metadata. */
    method CutInBury(env: Meta, cuts: nat)
      requires Quiescent() && disk.live.ready
      modifies disk, `past
      ensures Quiescent() && disk.live.ready != disk.live.dead
      ensures disk.live.meta in {old(disk.live).meta, Updated(env)}
    {
      ghost var a, b := disk.live.meta, Updated(env);
      var r := Bury(env, true);
      if r.Crashed? {
        RecoverAfter(cuts, a, b);
      }
    }

    /** The same for a revival. */
    method CutInRevive(cuts: nat)
      requires Quiescent() && disk.live.dead
      modifies disk, `past
      ensures Quiescent() && disk.live.ready != disk.live.dead
      ensures disk.live.meta == old(disk.live).meta || RevivedFrom(old(disk.live).meta, disk.live.meta)
      ensures disk.live.meta != old(disk.live).meta ==>
        disk.live.staged == map[] && disk.live.posted == map[] && disk.live.buried == map[]
    {
      ghost var a, b := disk.live.meta, Revived(disk.live.meta);
      RevivedIsRevived(a);
      var r := Revive(true);
      if r.Crashed? {
        RecoverAfter(cuts, a, b);
      }
      if disk.live.meta == b {
        NothingAround(disk.live, past);
      }
    }

    method RecoverAfter(cuts: nat, ghost a: Meta, ghost b: Meta)
      requires Interrupted() && Between(disk.live, a, b)
      modifies disk, `past
      ensures Quiescent() && Between(disk.live, a, b)
    {
      var r;
      for cut := 0 to cuts
        invariant Interrupted() && Between(disk.live, a, b)
      {
        r := Recover(true, a, b);
        if !r.Crashed? { SaneLeft(disk.live, past); }
      }
      r := Recover(false, a, b);
    }

    /** One operation of the running queue, on whatever copy of the metadata the caller holds. */
    method AnyOperation(op: Operation) returns (r: Io)
      requires Quiescent()
      modifies disk, `past
      ensures if r.Crashed? then Interrupted() else Quiescent()
      ensures Grows(old(past), past)
    {
      r := Failed;
      match op
      case Retrying(env) => r := Retry(env, true);
      case Burying(env) => r := Bury(env, true);
      case Reviving => r := Revive(true);
      case Finishing(env) => r := Finish(env, true);
      case AddingDsn(env, call) => r := AddDsn(env, call, true);
      case FinishingDsn(g) => if g in disk.live.posted { r := FinishDsn(g, true); }
      case BuryingDsn(g) => if g in disk.live.posted { r := BuryDsn(g, true); }
      case RevivingDsn(g) => if g in disk.live.buried { r := ReviveDsn(g, true); }
      case DeletingDsn(g) => if g in disk.live.buried { r := DeleteDsn(g, true); }
    }

    /** Any run of operations with power cuts anywhere, in recoveries too. No generation ever gets a second
        DSN and a linked generation has got its one, a DSN that was handled for good never comes back, and every
        DSN around belongs to the current generation, so a revived message has none of an earlier one. */
    method AnyRun(ops: seq<Operation>) returns (ghost history: seq<Past>)
      requires Quiescent()
      modifies disk, `past
      ensures Quiescent() && |history| == |ops| + 2 && history[0] == old(past) && history[|ops| + 1] == past
      ensures forall i, j :: 0 <= i <= j < |history| ==> Grows(history[i], history[j])
      ensures disk.live.meta.linked ==> disk.live.meta.generation in past.posted
      ensures forall g :: g in disk.live.posted || g in disk.live.buried ==>
        g == disk.live.meta.generation && g in past.posted && g !in past.done
    {
      history := [past];
      var r := Done;
      for i := 0 to |ops|
        invariant if r.Crashed? then Interrupted() else Quiescent()
        invariant |history| == i + 1 && history[0] == old(past) && history[i] == past
        invariant forall i, j :: 0 <= i <= j < |history| ==> Grows(history[i], history[j])
      {
        if r.Crashed? {
          r := Recover(true, disk.live.meta, disk.live.meta);
        } else {
          r := AnyOperation(ops[i]);
        }
        history := history + [past];
      }
      if !r.Crashed? { SaneLeft(disk.live, past); }
      r := Recover(false, disk.live.meta, disk.live.meta);
      history := history + [past];
      assert forall g :: g in disk.live.posted ==> Current(disk.live, past, g, disk.live.posted[g]);
      assert forall g :: g in disk.live.buried ==> Current(disk.live, past, g, disk.live.buried[g]);
    }

    /** Any number of updates with any copies of the metadata, under I/O errors but without a power cut.
        Every new version is one revision above the one it was checked against, no two commits are based
        on the same version, content never changes and a link is never taken back. */
    method AnyUpdates(updates: seq<Update>) returns (history: seq<Meta>, committed: seq<bool>)
      requires disk.Valid()
      modifies disk
      ensures disk.Valid() && |history| == |updates| + 1 && |committed| == |updates|
      ensures history[0] == old(disk.live).meta && history[|updates|] == disk.live.meta
      ensures forall i :: 0 <= i < |updates| ==> Version(history[i], updates[i], history[i + 1])
      ensures forall i :: 0 <= i < |updates| && committed[i] ==> history[i + 1] != history[i]
      ensures forall i, j :: 0 <= i < j < |updates| && committed[i] && committed[j] ==>
        updates[i].env.revision < updates[j].env.revision
      ensures forall i :: 0 <= i < |history| ==> SameMessage(history[0], history[i])
    {
      history, committed := [disk.live.meta], [];
      for i := 0 to |updates|
        invariant disk.Valid() && |history| == i + 1 && |committed| == i && history[i] == disk.live.meta
        invariant history[0] == old(disk.live).meta
        invariant forall k :: 0 <= k < i ==> Version(history[k], updates[k], history[k + 1])
        invariant forall k :: 0 <= k < i && committed[k] ==>
          history[k + 1] != history[k] && updates[k].env.revision < disk.live.meta.revision
        invariant forall j, k :: 0 <= j < k < i && committed[j] && committed[k] ==>
          updates[j].env.revision < updates[k].env.revision
        invariant forall k :: 0 <= k < |history| ==> SameMessage(history[0], history[k])
      {
        var r, done := StoreReady(updates[i].env, updates[i].link, World(true, false));
        history, committed := history + [disk.live.meta], committed + [done];
      }
    }

    /** A DSN is published, delivered and finished, under I/O errors at its publication. A power cut after that
        can leave its stage, linked as exactly as before, so that recovery publishes the delivered DSN again, if
        and only if the publication reported an error after the rename: the rename was not synced, but the DSN
        was scheduled all the same. */
    method RepublishedIff(g: nat, call: nat) returns (r: Io, moved: bool)
      requires disk.Valid() && disk.Settled() && CanPost(disk.live, g, call)
      requires g in disk.live.staged && g !in disk.live.posted
      modifies disk, `past
      ensures moved ==>
        (r.Failed? <==> exists c :: c in disk.outcomes && g in c.staged && CanPost(c, g, call))
      ensures !moved ==> r.Failed?
    {
      ghost var x := disk.live;
      r, moved := Post(g, call, World(true, false));
      if moved {
        var finished := TakeAway(g, World(false, false));
        assert g !in Unstage(Shelve(x, g), g).staged && Unpost(Shelve(x, g), g).posted == x.posted;
      }
    }
  }

  datatype Operation =
    | Retrying(env: Meta) | Burying(env: Meta) | Reviving | Finishing(env: Meta) | AddingDsn(env: Meta, call: nat)
    | FinishingDsn(g: nat) | BuryingDsn(g: nat) | RevivingDsn(g: nat) | DeletingDsn(g: nat)

  datatype Update = Update(env: Meta, link: bool)

  /** An update leaves the version alone, or makes the next one out of the caller's copy of it. */
  predicate Version(m: Meta, u: Update, m': Meta) {
    || m' == m
    || (&& u.env.revision == m.revision && u.env.incarnation == m.incarnation
        && m' == u.env.(revision := m.revision + 1))
  }

  predicate SameMessage(m: Meta, m': Meta) {
    && m'.incarnation == m.incarnation && m'.content == m.content && m'.generation == m.generation
    && m'.revision >= m.revision && (m.linked ==> m'.linked)
  }

  lemma Fewer<V>(m: map<nat, V>, g: nat)
    requires g in m
    ensures |m - {g}| == |m| - 1
  {
    assert (m - {g}).Keys == m.Keys - {g};
  }
}
