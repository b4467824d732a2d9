/** The life of a message and its DSNs under I/O errors as well as power cuts and restarts: the same operations as in
    Lifecycle, with the branches that internal/queue/dead.go and dsn.go take when a step fails.

    What the operations keep is that the DSNs published for one generation are all the work of one AddDSN call, and
    that a DSN of which nothing was left when it was handled never comes back. */
module Faults {
  import opened Options
  import opened CrashDisk
  import opened Lifecycle

  /** What goes wrong with a step: nothing, an error before its effect, an error after it, an error after it that
      hides whether it happened, or a power cut. */
  datatype Trouble = Fine | Early | Late | Blind | Cut

  /** The trouble of the i-th step of an operation. */
  function At(ts: seq<Trouble>, i: nat): Trouble {
    if i < |ts| then ts[i] else Fine
  }

  predicate Errs(t: Trouble) {
    t.Early? || t.Late? || t.Blind?
  }

  // ---------- steps ----------

  datatype Change =
    | Nothing
    | SetMeta(m: Meta) | SetRevive(staged: Option<Meta>) | SetReady(there: bool) | SetDead(there: bool)
    | PutStage(g: nat, d: Dsn) | DropStage(g: nat)
    | PutPosted(g: nat, d: Dsn) | DropPosted(g: nat)
    | PutBuried(g: nat, d: Dsn) | DropBuried(g: nat)

  function Apply(f: Files, x: Change): Files {
    match x
    case Nothing => f
    case SetMeta(m) => f.(meta := m)
    case SetRevive(staged) => f.(revive := staged)
    case SetReady(there) => f.(ready := there)
    case SetDead(there) => f.(dead := there)
    case PutStage(g, d) => f.(staged := f.staged[g := d])
    case DropStage(g) => f.(staged := f.staged - {g})
    case PutPosted(g, d) => f.(posted := f.posted[g := d])
    case DropPosted(g) => f.(posted := f.posted - {g})
    case PutBuried(g, d) => f.(buried := f.buried[g := d])
    case DropBuried(g) => f.(buried := f.buried - {g})
  }

  function Effect(x: Change): Files -> Files {
    (f: Files) => Apply(f, x)
  }

  /** What a sync covers: the files of the message, its place, or those directories in which its DSNs are. */
  datatype Scope = MessageFiles | Places | Dsns(stages: bool, ready: bool, dead: bool)

  predicate Alike(a: Files, b: Files, scope: Scope) {
    match scope
    case MessageFiles => a.meta == b.meta && a.revive == b.revive
    case Places => a.ready == b.ready && a.dead == b.dead
    case Dsns(stages, ready, dead) =>
      (stages ==> a.staged == b.staged) && (ready ==> a.posted == b.posted) && (dead ==> a.buried == b.buried)
  }

  // ---------- what every state that can be left keeps ----------

  /** The call behind the DSN of each generation. */
  type Calls = map<nat, nat>

  /** The call whose DSN was published for a generation, the call whose DSN the metadata of a generation links, and
      the generations whose DSN was handled with nothing of it left. */
  datatype Record = Record(past: Calls, links: Calls, done: set<nat>)

  predicate Extends(before: Calls, after: Calls) {
    forall g :: g in before ==> g in after && after[g] == before[g]
  }

  /** Nothing published or handled is forgotten. */
  predicate Grew(before: Record, after: Record) {
    Extends(before.past, after.past) && before.done <= after.done
  }

  /** The two differ in the links they know. */
  predicate Same(before: Record, after: Record) {
    after.past == before.past && after.done == before.done
  }

  /** Under this metadata no DSN is generated for the generation: it is past, or linked. */
  predicate Beyond(m: Meta, g: nat) {
    m.generation > g || (m.generation == g && m.linked)
  }

  predicate AllBeyond(m: Meta, calls: Calls) {
    forall g :: g in calls ==> Beyond(m, g)
  }

  predicate Agree(entries: map<nat, Dsn>, calls: Calls) {
    forall g :: g in entries && g in calls ==> entries[g].call == calls[g]
  }

  predicate Published(entries: map<nat, Dsn>, past: Calls) {
    forall g :: g in entries ==> g in past && entries[g].call == past[g]
  }

  predicate Absent(f: Files, g: nat) {
    g !in f.staged && g !in f.posted && g !in f.buried
  }

  /** What a power cut can leave: generations with a published DSN are past or linked, also under metadata that a
      revival has staged, entries belong to the calls on record, and of a handled DSN there is nothing. */
  predicate OutcomeOk(c: Files, book: Record) {
    && AllBeyond(c.meta, book.past)
    && (c.revive.Some? ==> !c.revive.value.linked && AllBeyond(c.revive.value, book.past))
    && Agree(c.staged, book.links) && Published(c.posted, book.past) && Published(c.buried, book.past)
    && forall g :: g in book.done ==> Absent(c, g)
  }

  ghost predicate AllOk(outcomes: set<Files>, book: Record) {
    forall c :: c in outcomes ==> OutcomeOk(c, book)
  }

  /** The live state knows every call that has been linked, published ones included. */
  predicate LiveOk(f: Files, book: Record) {
    && Extends(book.past, book.links) && AllBeyond(f.meta, book.links)
    && (f.meta.linked && f.meta.generation in f.staged ==> f.meta.generation in book.links)
    && forall g :: g in book.done ==> g in book.past
  }

  /** A change that may be made. */
  predicate ChangeOk(x: Change, book: Record) {
    match x
    case SetMeta(m) => AllBeyond(m, book.past)
    case SetRevive(staged) => staged.Some? ==> !staged.value.linked && AllBeyond(staged.value, book.past)
    case PutStage(g, d) => (g in book.links ==> book.links[g] == d.call) && g !in book.done
    case PutPosted(g, d) => g in book.past && book.past[g] == d.call && g !in book.done
    case PutBuried(g, d) => g in book.past && book.past[g] == d.call && g !in book.done
    case _ => true
  }

  lemma ApplyKeeps(c: Files, x: Change, book: Record)
    requires OutcomeOk(c, book) && ChangeOk(x, book)
    ensures OutcomeOk(Apply(c, x), book)
  {
  }

  lemma EffectKeeps(outcomes: set<Files>, x: Change, book: Record)
    requires AllOk(outcomes, book) && ChangeOk(x, book)
    ensures AllOk(After(outcomes, Effect(x)), book)
  {
    forall c | c in outcomes { ApplyKeeps(c, x, book); }
  }

  lemma MoveKeeps(outcomes: set<Files>, x: Change, y: Change, book: Record)
    requires AllOk(outcomes, book) && ChangeOk(x, book) && ChangeOk(y, book)
    ensures AllOk(AfterMove(outcomes, Effect(x), Effect(y)), book)
  {
    forall c | c in outcomes ensures OutcomeOk(Apply(c, x), book) && OutcomeOk(Apply(Apply(c, x), y), book) {
      ApplyKeeps(c, x, book);
      ApplyKeeps(Apply(c, x), y, book);
    }
  }

  /** The record after a power cut: of the links it knows those that the state says. */
  function Recalled(c: Files, book: Record): Record {
    var g := c.meta.generation;
    book.(links := if c.meta.linked && g in c.staged then book.past[g := c.staged[g].call] else book.past)
  }

  /** After a power cut what is left is in order. */
  lemma CutKeeps(c: Files, book: Record)
    requires OutcomeOk(c, book) && Extends(book.past, book.links) && forall g :: g in book.done ==> g in book.past
    ensures OutcomeOk(c, Recalled(c, book)) && LiveOk(c, Recalled(c, book))
  {
    var g := c.meta.generation;
    if c.meta.linked && g in c.staged && g in book.past {
      assert c.staged[g].call == book.links[g];
    }
  }

  class Store {
    const disk: Disk<Files>
    ghost var book: Record

    ghost predicate Agreed() reads this, disk {
      disk.Valid() && AllOk(disk.outcomes, book) && LiveOk(disk.live, book)
    }

    constructor (meta: Meta)
      requires !meta.linked
      ensures fresh(disk) && disk.Valid() && Agreed() && book == Record(map[], map[], {})
      ensures disk.live == Files(meta, None, true, false, map[], map[], map[])
    {
      disk := new Disk(Files(meta, None, true, false, map[], map[], map[]));
      book := Record(map[], map[], {});
    }

    /** The end of a step whose effect has happened. */
    method Settle(scope: Scope, t: Trouble) returns (r: Io)
      requires disk.Valid() && !t.Early?
      modifies disk, `book
      ensures disk.Valid() && (r.Failed? <==> Errs(t)) && (r.Crashed? ==> t.Cut?) && disk.outcomes <= old(disk.outcomes)
      ensures Same(old(book), book) && (!r.Crashed? ==> disk.live == old(disk.live) && book == old(book))
      ensures r.Done? ==> forall c :: c in disk.outcomes ==> Alike(c, disk.live, scope)
      ensures old(Agreed()) ==> Agreed()
    {
      ghost var agreed := Agreed();
      var died := disk.MaybeCrash(t.Cut?);
      if died {
        if agreed {
          CutKeeps(disk.live, book);
          book := Recalled(disk.live, book);
        }
        return Crashed;
      }
      if Errs(t) { return Failed; }
      disk.Sync((a: Files, b: Files) => Alike(a, b, scope));
      return Done;
    }

    /** A visible change and the sync that makes it durable. */
    method Write(x: Change, scope: Scope, t: Trouble) returns (r: Io)
      requires disk.Valid()
      modifies disk, `book
      ensures disk.Valid() && (r.Failed? <==> Errs(t)) && (r.Crashed? ==> t.Cut?)
      ensures Same(old(book), book) && (!r.Crashed? ==> book == old(book))
      ensures !r.Crashed? ==> disk.live == if t.Early? then old(disk.live) else Apply(old(disk.live), x)
      ensures r.Done? ==> forall c :: c in disk.outcomes ==> Alike(c, disk.live, scope)
      ensures AllOk(old(disk.outcomes), old(book)) && ChangeOk(x, old(book)) ==>
        LiveOk(if t.Early? then old(disk.live) else Apply(old(disk.live), x), old(book)) ==> Agreed()
    {
      if t.Early? { return Failed; }
      if AllOk(disk.outcomes, book) && ChangeOk(x, book) { EffectKeeps(disk.outcomes, x, book); }
      disk.Do(Effect(x));
      r := Settle(scope, t);
    }

    /** A rename and the syncs of both directories: the new name, and then without the old one. After an error
        `moved` says that the rename is known to have happened. */
    method Rename(x: Change, y: Change, scope: Scope, t: Trouble) returns (r: Io, moved: bool)
      requires disk.Valid()
      modifies disk, `book
      ensures disk.Valid() && (r.Failed? <==> Errs(t)) && (r.Crashed? ==> t.Cut?)
      ensures moved <==> !t.Early? && !t.Blind?
      ensures Same(old(book), book) && (!r.Crashed? ==> book == old(book))
      ensures !r.Crashed? ==> disk.live == if t.Early? then old(disk.live) else Apply(Apply(old(disk.live), x), y)
      ensures r.Done? ==> forall c :: c in disk.outcomes ==> Alike(c, disk.live, scope)
      ensures AllOk(old(disk.outcomes), old(book)) && ChangeOk(x, old(book)) && ChangeOk(y, old(book)) ==>
        LiveOk(if t.Early? then old(disk.live) else Apply(Apply(old(disk.live), x), y), old(book)) ==> Agreed()
    {
      if t.Early? { return Failed, false; }
      Move(x, y);
      r := Settle(scope, t);
      moved := !t.Blind?;
    }

    method Move(x: Change, y: Change)
      requires disk.Valid()
      modifies disk
      ensures disk.Valid() && disk.live == Apply(Apply(old(disk.live), x), y)
      ensures disk.outcomes == AfterMove(old(disk.outcomes), Effect(x), Effect(y))
      ensures AllOk(old(disk.outcomes), book) && ChangeOk(x, book) && ChangeOk(y, book) ==> AllOk(disk.outcomes, book)
    {
      ghost var after := AfterMove(disk.outcomes, Effect(x), Effect(y));
      if AllOk(disk.outcomes, book) && ChangeOk(x, book) && ChangeOk(y, book) { MoveKeeps(disk.outcomes, x, y, book); }
      disk.Move(Effect(x), Effect(y));
      assert disk.outcomes == after;
    }

    // ---------- metadata ----------

    /** Replaces the metadata of the message in ready/ if `env` is based on the stored version. */
    method StoreMeta(env: Meta, link: bool, t: Trouble) returns (r: Io)
      requires disk.Valid()
      modifies disk, `book
      ensures disk.Valid() && (r.Crashed? ==> t.Cut?) && Same(old(book), book)
      ensures r.Failed? <==> !Stored(old(disk.live), env, link) || Errs(t)
      ensures !r.Crashed? ==> book == old(book) && disk.live == AfterStore(old(disk.live), env, link, t)
      ensures AllOk(old(disk.outcomes), old(book)) ==>
        LiveOk(AfterStore(old(disk.live), env, link, t), old(book)) ==> Agreed()
    {
      if !Stored(disk.live, env, link) { return Failed; }
      if AllOk(disk.outcomes, book) { assert OutcomeOk(disk.live, book); }
      r := Write(SetMeta(Updated(env)), MessageFiles, t);
    }

    /** Stores the outcome of an attempt. */
    method Retry(env: Meta, ts: seq<Trouble>) returns (r: Io)
      requires disk.Valid()
      modifies disk, `book
      ensures disk.Valid() && (old(Agreed()) ==> Agreed()) && Same(old(book), book)
      ensures At(ts, 0).Fine? ==> disk.live == AfterStore(old(disk.live), env, false, Fine)
    {
      r := StoreMeta(env, false, At(ts, 0));
    }

    /** Stores the final metadata and renames the message into dead/. */
    method Bury(env: Meta, ts: seq<Trouble>) returns (r: Io)
      requires disk.Valid()
      modifies disk, `book
      ensures disk.Valid() && (old(Agreed()) ==> Agreed()) && Same(old(book), book)
      ensures ts == [] && Stored(old(disk.live), env, false) ==>
        disk.live == old(disk.live).(meta := Updated(env), ready := false, dead := true)
      ensures At(ts, 0).Early? ==> disk.live == old(disk.live)
    {
      if AlreadyBuried(disk.live, env) { return Done; }
      r := StoreMeta(env, false, At(ts, 0));
      if !r.Done? { return; }
      var moved;
      r, moved := Rename(SetDead(true), SetReady(false), Places, At(ts, 1));
    }

    /** Renames the message of ready/ away for good. */
    method Finish(env: Meta, ts: seq<Trouble>) returns (r: Io)
      requires disk.Valid()
      modifies disk, `book
      ensures disk.Valid() && (old(Agreed()) ==> Agreed()) && Same(old(book), book)
      ensures ts == [] && Stored(old(disk.live), env, false) ==> disk.live == old(disk.live).(ready := false)
    {
      if !disk.live.ready { return Done; }
      if !Matches(disk.live.meta, env, false) { return Failed; }
      var moved;
      r, moved := Rename(Nothing, SetReady(false), Places, At(ts, 0));
    }

    // ---------- DSNs after their publication ----------

    /** A DSN is handled for good when nothing of it is left in any outcome. */
    ghost method Close(g: nat)
      requires Agreed()
      modifies `book
      ensures Agreed() && Grew(old(book), book)
      ensures g in book.past && (forall c :: c in disk.outcomes ==> Absent(c, g)) ==> g in book.done
    {
      if g in book.past && forall c :: c in disk.outcomes ==> Absent(c, g) {
        book := book.(done := book.done + {g});
      }
    }

    /** A published DSN is delivered. If no outcome holds its stage or a dead copy, it is handled for good. */
    method FinishDsn(g: nat, ts: seq<Trouble>) returns (r: Io)
      requires disk.Valid()
      modifies disk, `book
      ensures disk.Valid() && (old(Agreed()) ==> Agreed()) && Grew(old(book), book)
      ensures ts == [] && g in old(disk.live).posted ==> disk.live == Unpost(old(disk.live), g)
      ensures old(Agreed()) && r.Done? && (forall c :: c in old(disk.outcomes) ==> g !in c.staged && g !in c.buried) ==>
        g in book.done
    {
      if g !in disk.live.posted { return Failed; }
      ghost var agreed := Agreed();
      if agreed { assert OutcomeOk(disk.live, book); }
      ghost var before := disk.outcomes;
      r := TakeOut(DropPosted(g), Dsns(false, true, false), At(ts, 0));
      if agreed && r.Done? {
        if forall c :: c in before ==> g !in c.staged && g !in c.buried { TakenOut(before, disk.outcomes, g); }
        Close(g);
      }
    }

    /** Renames an entry away. What is left of an outcome is what it was, with or without that entry. */
    method TakeOut(x: Change, scope: Scope, t: Trouble) returns (r: Io)
      requires disk.Valid() && (x.DropPosted? || x.DropBuried?)
      modifies disk, `book
      ensures disk.Valid() && (old(Agreed()) ==> Agreed()) && Same(old(book), book) && (r.Crashed? ==> t.Cut?)
      ensures t.Fine? ==> r.Done? && disk.live == Apply(old(disk.live), x)
      ensures r.Done? ==> forall c :: c in disk.outcomes ==> Alike(c, disk.live, scope)
      ensures r.Done? ==> disk.live == Apply(old(disk.live), x)
      ensures r.Done? ==> disk.outcomes <= AfterMove(old(disk.outcomes), Effect(Nothing), Effect(x))
    {
      if t.Early? { return Failed; }
      ghost var agreed := Agreed();
      if agreed { DropsKeep(disk.live, x, book); }
      Move(Nothing, x);
      assert agreed ==> Agreed();
      r := Settle(scope, t);
    }

    /** A dead DSN is deleted. */
    method DeleteDsn(g: nat, ts: seq<Trouble>) returns (r: Io)
      requires disk.Valid()
      modifies disk, `book
      ensures disk.Valid() && (old(Agreed()) ==> Agreed()) && Grew(old(book), book)
      ensures ts == [] && g in old(disk.live).buried ==> disk.live == Apply(old(disk.live), DropBuried(g))
    {
      if g !in disk.live.buried { return Failed; }
      r := TakeOut(DropBuried(g), Dsns(false, false, true), At(ts, 0));
      if r.Done? && Agreed() { Close(g); }
    }

    /** A DSN that fails for good is renamed into dead/. */
    method BuryDsn(g: nat, ts: seq<Trouble>) returns (r: Io)
      requires disk.Valid()
      modifies disk, `book
      ensures disk.Valid() && (old(Agreed()) ==> Agreed()) && Same(old(book), book)
      ensures
        var f := old(disk.live);
        ts == [] && g in f.posted ==> disk.live == Apply(Apply(f, PutBuried(g, f.posted[g])), DropPosted(g))
    {
      if g !in disk.live.posted { return Failed; }
      if Agreed() { assert OutcomeOk(disk.live, book); }
      var moved;
      r, moved := Rename(PutBuried(g, disk.live.posted[g]), DropPosted(g), Dsns(false, true, true), At(ts, 0));
    }

    /** A dead DSN is renamed back into ready/. */
    method ReviveDsn(g: nat, ts: seq<Trouble>) returns (r: Io)
      requires disk.Valid()
      modifies disk, `book
      ensures disk.Valid() && (old(Agreed()) ==> Agreed()) && Same(old(book), book)
      ensures
        var f := old(disk.live);
        ts == [] && g in f.buried ==> disk.live == Apply(Apply(f, PutPosted(g, f.buried[g])), DropBuried(g))
    {
      if g !in disk.live.buried { return Failed; }
      if Agreed() { assert OutcomeOk(disk.live, book); }
      var moved;
      r, moved := Rename(PutPosted(g, disk.live.buried[g]), DropBuried(g), Dsns(false, true, true), At(ts, 0));
    }

    // ---------- revival ----------

    /** Removes the metadata that a revival staged, if the message's directory is where it is looked for. */
    method Discard(there: bool, t: Trouble) returns (r: Io)
      requires disk.Valid()
      modifies disk, `book
      ensures disk.Valid() && (old(Agreed()) ==> Agreed()) && Same(old(book), book) && (r.Crashed? ==> t.Cut?)
      ensures !r.Crashed? ==>
        disk.live == if there && !t.Early? then old(disk.live).(revive := None) else old(disk.live)
    {
      if !there { return Failed; }
      r := Write(SetRevive(None), MessageFiles, t);
    }

    /** Stages the metadata of the next generation. */
    method StageRevival(next: Meta, t: Trouble, cleanup: Trouble) returns (r: Io)
      requires disk.Valid() && next == Revived(disk.live.meta)
      modifies disk, `book
      ensures disk.Valid() && (old(Agreed()) ==> Agreed()) && Same(old(book), book)
      ensures r.Done? ==> book == old(book) && disk.live == old(disk.live).(revive := Some(next))
      ensures t.Fine? ==> r.Done?
    {
      if Agreed() { RevivedFresh(disk.live.meta, book); }
      r := Write(SetRevive(Some(next)), MessageFiles, t);
      if r.Failed? {
        var discarded := Discard(disk.live.dead, cleanup);
        if discarded.Crashed? { return Crashed; }
      }
    }

    /** Gives a dead message a new generation and renames it into ready/, unless its DSN is still around. A step that
        fails is undone as far as the disk allows. */
    method Revive(ts: seq<Trouble>) returns (r: Io)
      requires disk.Valid()
      modifies disk, `book
      ensures disk.Valid() && (old(Agreed()) ==> Agreed()) && Same(old(book), book)
      ensures
        var f := old(disk.live);
        f.dead && !f.ready && !HasDsn(f) ==>
          && (ts == [] ==>
                && RevivedFrom(f.meta, disk.live.meta) && (Has(f.meta.delivery, Refused) ==> Unreportable(disk.live))
                && disk.live == f.(meta := disk.live.meta, revive := None, ready := true, dead := false))
          && (Stubborn(ts) ==>
                disk.live == f.(meta := Revived(f.meta), revive := Some(Revived(f.meta)), ready := true, dead := false))
    {
      if !disk.live.dead || disk.live.ready || HasDsn(disk.live) { return Failed; }
      var next := Revived(disk.live.meta);
      ghost var m := disk.live.meta;
      RevivedIsRevived(m);
      r := StageRevival(next, At(ts, 0), At(ts, 1));
      if !r.Done? { return; }
      var moved;
      r, moved := Rename(SetReady(true), SetDead(false), Places, At(ts, 2));
      if r.Crashed? { return; }
      if !moved {
        r := Discard(disk.live.dead, At(ts, 3));
        return if r.Crashed? then Crashed else Failed;
      }
      r := Activate(next, ts);
      if ts == [] && Has(m.delivery, Refused) { NeverReportable(m, disk.live); }
    }

    /** Puts the staged metadata into place, or moves the message back, or writes the metadata anew. */
    method Activate(next: Meta, ts: seq<Trouble>) returns (r: Io)
      requires disk.Valid() && next == Revived(disk.live.meta)
      modifies disk, `book
      ensures disk.Valid() && (old(Agreed()) ==> Agreed()) && Same(old(book), book)
      ensures ts == [] ==> disk.live == old(disk.live).(meta := next, revive := None)
      ensures Stubborn(ts) && old(disk.live).ready ==> disk.live == old(disk.live).(meta := next)
    {
      if Agreed() { RevivedFresh(disk.live.meta, book); }
      var moved;
      r, moved := Rename(SetMeta(next), SetRevive(None), MessageFiles, At(ts, 4));
      if r.Crashed? || moved { return; }
      r, moved := Rename(SetDead(true), SetReady(false), Places, At(ts, 5));
      if r.Crashed? { return; }
      if moved {
        r := Discard(disk.live.dead, At(ts, 6));
        return if r.Crashed? then Crashed else Failed;
      }
      if !disk.live.ready { return Failed; }
      r := Write(SetMeta(next), MessageFiles, At(ts, 7));
      if r.Crashed? || disk.live.meta != next { return; }
      r := Discard(disk.live.ready, At(ts, 8));
    }

    // ---------- publishing a DSN ----------

    /** Publishes a stage, if the source's metadata, made durable first, links exactly it. */
    method Post(g: nat, call: nat, barrier: Trouble, t: Trouble) returns (r: Io)
      requires disk.Valid()
      modifies disk, `book
      ensures disk.Valid()
      ensures old(Agreed()) && !LeftBehind(old(disk.live)) ==> Agreed() && Grew(old(book), book)
      ensures barrier.Fine? && t.Fine? && CanPost(old(disk.live), g, call) && g in old(disk.live).staged ==>
        disk.live == Unstage(Shelve(old(disk.live), g), g) && book == Noted(old(book), g, call)
      ensures r.Done? ==> CanPost(old(disk.live), g, call)
      ensures
        var f := old(disk.live);
        r.Done? && g in f.staged ==> disk.live == f.(staged := f.staged - {g}, posted := f.posted[g := f.staged[g]])
      ensures !r.Crashed? ==> Settling(old(disk.live), disk.live)
    {
      if !disk.live.ready || !barrier.Fine? { return Failed; }
      disk.Sync((a: Files, b: Files) => Alike(a, b, MessageFiles));
      if !CanPost(disk.live, g, call) { return Failed; }
      if g !in disk.live.staged { return Done; }
      r := Publish(g, call, t);
    }

    /** Renames a stage into ready/. */
    method Publish(g: nat, call: nat, t: Trouble) returns (r: Io)
      requires disk.Valid() && CanPost(disk.live, g, call) && g in disk.live.staged
      requires forall c :: c in disk.outcomes ==> Alike(c, disk.live, MessageFiles)
      modifies disk, `book
      ensures disk.Valid()
      ensures old(Agreed()) && !LeftBehind(old(disk.live)) ==> Agreed() && Grew(old(book), book)
      ensures t.Fine? ==> disk.live == Unstage(Shelve(old(disk.live), g), g) && book == Noted(old(book), g, call)
      ensures r.Done? ==> disk.live == Unstage(Shelve(old(disk.live), g), g)
      ensures !r.Crashed? ==> Settling(old(disk.live), disk.live)
    {
      if t.Early? { return Failed; }
      if Agreed() && !LeftBehind(disk.live) { PostKeeps(disk.outcomes, disk.live, book, g, call); }
      book := Noted(book, g, call);
      var moved;
      r, moved := Rename(PutPosted(g, disk.live.staged[g]), DropStage(g), Dsns(true, true, false), t);
    }

    // ---------- staging a DSN ----------

    /** Stages a DSN: first pending, then accepted. What fails is removed again if possible. */
    method Stage(g: nat, d: Dsn, ts: seq<Trouble>) returns (r: Io)
      requires disk.Valid() && d.accepted
      modifies disk, `book
      ensures disk.Valid() && (old(Agreed()) && !Beyond(old(disk.live).meta, g) ==> Agreed()) && Same(old(book), book)
      ensures r.Done? ==> book == old(book) && disk.live == Apply(old(disk.live), PutStage(g, d))
      ensures r.Done? ==> forall c :: c in disk.outcomes ==> c.staged == disk.live.staged
      ensures ts == [] ==> r.Done?
    {
      r := Write(PutStage(g, d.(accepted := false)), Dsns(true, false, false), At(ts, 1));
      if r.Done? {
        r := Write(PutStage(g, d), Dsns(true, false, false), At(ts, 3));
      }
      if r.Failed? {
        var removed := Write(DropStage(g), Dsns(true, false, false), At(ts, 2));
        if removed.Crashed? { return Crashed; }
      }
    }

    /** Links the stage, which is durable, in the source's metadata. */
    method Link(env: Meta, call: nat, t: Trouble) returns (r: Io)
      requires disk.Valid() && Stored(disk.live, env.(linked := true), true)
      requires
        var g := disk.live.meta.generation;
        && g in disk.live.staged && disk.live.staged[g].call == call
        && forall c :: c in disk.outcomes ==> c.staged == disk.live.staged
      modifies disk, `book
      ensures disk.Valid() && (old(Agreed()) ==> Agreed()) && Same(old(book), book)
      ensures (r.Failed? <==> Errs(t)) && (r.Crashed? ==> t.Cut?)
      ensures r.Done? ==> disk.live == old(disk.live).(meta := Updated(env.(linked := true)))
    {
      if !t.Early? {
        book := book.(links := book.links[disk.live.meta.generation := call]);
      }
      r := StoreMeta(env.(linked := true), true, t);
    }

    /** Stages a DSN, links it in the source's metadata and publishes it. The stage of an earlier call that was never
        linked is replaced. */
    method AddDsn(env: Meta, call: nat, ts: seq<Trouble>) returns (r: Io)
      requires disk.Valid()
      modifies disk, `book
      ensures disk.Valid()
      ensures old(Agreed()) && !(old(disk.live).ready && LeftBehind(old(disk.live))) ==>
        Agreed() && Grew(old(book), book)
      ensures ts == [] && Blank(old(disk.live)) && Reportable(old(disk.live), env, call) ==>
        && disk.live == Reported(old(disk.live), env, call)
        && book.past == old(book).past[old(disk.live).meta.generation := call]
      ensures
        var m := old(disk.live).meta;
        r.Done? && !m.linked ==>
          && disk.live.meta == env.(linked := true, revision := m.revision + 1)
          && disk.live.meta.generation == m.generation
          && m.generation in disk.live.posted && disk.live.posted[m.generation] == Dsn(call, m.revision + 1, true)
          && m.generation !in disk.live.staged
    {
      var m := disk.live.meta;
      var g := m.generation;
      if Has(env.delivery, Waiting) || !Has(env.delivery, Refused) { return Failed; }
      if !disk.live.ready || env.generation != g || env.incarnation != m.incarnation || env.content != m.content {
        return Failed;
      }
      if m.linked {
        r := Post(g, call, At(ts, 5), At(ts, 6));
        return;
      }
      if m.revision != env.revision || g in disk.live.posted || g in disk.live.buried { return Failed; }
      if g in disk.live.staged {
        r := Write(DropStage(g), Dsns(true, false, false), At(ts, 0));
        if !r.Done? { return; }
      }
      r := Stage(g, Dsn(call, m.revision + 1, true), ts);
      if !r.Done? { return; }
      r := Link(env, call, At(ts, 4));
      if !r.Done? { return; }
      r := Post(g, call, At(ts, 5), At(ts, 6));
    }

    // ---------- restart ----------

    /** Publishes a stage that its source links exactly and moves any other to quarantine. */
    method RecoverStage(g: nat, a: Trouble, b: Trouble) returns (r: Io)
      requires disk.Valid() && g in disk.live.staged
      modifies disk, `book
      ensures disk.Valid()
      ensures old(Agreed()) && !Exposed(old(disk.live)) ==> Agreed() && Grew(old(book), book)
      ensures !r.Crashed? ==> Settling(old(disk.live), disk.live)
      ensures
        var f := old(disk.live);
        var d := f.staged[g];
        var exact := d.accepted && f.ready && f.meta.linked && f.meta.generation == g && f.meta.revision == d.revision;
        a.Fine? && b.Fine? && exact && (g in f.posted ==> f.posted[g] == d) ==>
          disk.live == f.(staged := f.staged - {g}, posted := f.posted[g := d])
    {
      var x := disk.live;
      var d := x.staged[g];
      var exact := d.accepted && x.ready && x.meta.linked && x.meta.generation == g && x.meta.revision == d.revision;
      var duplicate := g in x.posted && x.posted[g].call == d.call && x.posted[g].revision == x.meta.revision;
      if exact && g !in x.posted {
        r := Post(g, d.call, a, b);
        return;
      }
      r := QuarantineStage(g, !(exact && duplicate), a, b);
    }

    /** Moves a stage out of the way, and unless it is a duplicate the source in ready/ that links it. */
    method QuarantineStage(g: nat, source: bool, a: Trouble, b: Trouble) returns (r: Io)
      requires disk.Valid()
      modifies disk, `book
      ensures disk.Valid() && (old(Agreed()) ==> Agreed()) && Same(old(book), book)
      ensures !r.Crashed? ==> Settling(old(disk.live), disk.live)
      ensures a.Fine? && b.Fine? ==>
        var f := old(disk.live);
        var away := source && f.ready && f.meta.linked && f.meta.generation == g;
        disk.live == f.(ready := f.ready && !away, staged := f.staged - {g})
    {
      var moved;
      if source && disk.live.ready && disk.live.meta.linked && disk.live.meta.generation == g {
        r, moved := Rename(Nothing, SetReady(false), Places, a);
        if !r.Done? { return; }
      }
      if Agreed() { DropsKeep(disk.live, DropStage(g), book); }
      r, moved := Rename(Nothing, DropStage(g), Dsns(true, false, false), b);
    }

    /** Goes through the stages; one that cannot be settled is left where it is. */
    method RecoverDsn(ts: seq<Trouble>) returns (r: Io)
      requires disk.Valid()
      modifies disk, `book
      ensures disk.Valid()
      ensures old(Agreed()) && !Exposed(old(disk.live)) ==> Agreed() && Grew(old(book), book)
      ensures old(disk.live).staged == map[] ==> r.Done? && disk.live == old(disk.live) && book == old(book)
    {
      r := Done;
      var todo := disk.live.staged.Keys;
      var i := 0;
      while todo != {}
        invariant disk.Valid() && !r.Crashed?
        invariant old(Agreed()) && !Exposed(old(disk.live)) ==> Agreed() && Grew(old(book), book)
        invariant !Exposed(old(disk.live)) ==> !Exposed(disk.live)
        invariant old(disk.live).staged == map[] ==>
          r.Done? && todo == {} && disk.live == old(disk.live) && book == old(book)
        decreases |todo|
      {
        var g: nat :| g in todo;
        todo := todo - {g};
        if g in disk.live.staged {
          r := RecoverStage(g, At(ts, i), At(ts, i + 1));
          if r.Crashed? { return; }
        }
        i := i + 2;
      }
      r := Done;
    }

    /** Completes a revival that was cut off, and drops what is in ready/ and dead/ at once. */
    method LoadReady(ts: seq<Trouble>) returns (r: Io)
      requires disk.Valid()
      modifies disk, `book
      ensures disk.Valid() && (old(Agreed()) ==> Agreed()) && Same(old(book), book)
      ensures
        var f := old(disk.live);
        ts == [] && f.ready && !f.dead && f.revive.Some? ==> disk.live == f.(meta := f.revive.value, revive := None)
    {
      r := Done;
      var moved;
      if disk.live.ready && disk.live.revive.Some? {
        r, moved := Complete(disk.live.revive.value, At(ts, 0));
        if !moved || r.Crashed? { return; }
      }
      if disk.live.ready && disk.live.dead {
        r, moved := Rename(Nothing, SetReady(false), Places, At(ts, 1));
      }
    }

    /** Puts the metadata of a revival into place. */
    method Complete(next: Meta, t: Trouble) returns (r: Io, moved: bool)
      requires disk.Valid() && disk.live.revive == Some(next)
      modifies disk, `book
      ensures disk.Valid() && (old(Agreed()) ==> Agreed()) && Same(old(book), book)
      ensures (r.Crashed? ==> t.Cut?) && (moved <==> !t.Early? && !t.Blind?)
      ensures !r.Crashed? && !t.Early? ==> disk.live == old(disk.live).(meta := next, revive := None)
    {
      if Agreed() { assert OutcomeOk(disk.live, book); }
      if !t.Early? {
        book := book.(links := book.past);
      }
      r, moved := Rename(SetMeta(next), SetRevive(None), MessageFiles, t);
    }

    /** A new start, after a power cut or not. */
    method Restart(ts: seq<Trouble>, us: seq<Trouble>) returns (r: Io)
      requires disk.Valid()
      modifies disk, `book
      ensures disk.Valid()
      ensures old(Agreed()) && !Exposed(old(disk.live)) ==> Agreed() && Grew(old(book), book)
      ensures
        var f := old(disk.live);
        us == [] && f.staged == map[] && f.ready && !f.dead && f.revive.Some? ==>
          disk.live == f.(meta := f.revive.value, revive := None)
    {
      r := RecoverDsn(ts);
      if r.Crashed? { return; }
      r := LoadReady(us);
    }

    // ---------- runs ----------

    method Perform(op: Op)
      requires disk.Valid()
      modifies disk, `book
      ensures disk.Valid()
      ensures old(Agreed()) && !Risky(op, old(disk.live)) ==> Agreed() && Grew(old(book), book)
    {
      var r;
      match op
      case Retrying(env, ts) => r := Retry(env, ts);
      case Burying(env, ts) => r := Bury(env, ts);
      case Finishing(env, ts) => r := Finish(env, ts);
      case Reviving(ts) => r := Revive(ts);
      case AddingDsn(env, call, ts) => r := AddDsn(env, call, ts);
      case FinishingDsn(g, ts) => r := FinishDsn(g, ts);
      case BuryingDsn(g, ts) => r := BuryDsn(g, ts);
      case RevivingDsn(g, ts) => r := ReviveDsn(g, ts);
      case DeletingDsn(g, ts) => r := DeleteDsn(g, ts);
      case Restarting(ts, us) => r := Restart(ts, us);
    }

    /** Any run of operations and restarts with I/O errors and power cuts anywhere. As long as no DSN is published
        beside metadata that a revival left behind, where the run stops, no generation ever gets a second DSN of
        another call, and a DSN that was handled for good never comes back. */
    method AnyRun(ops: seq<Op>) returns (done: nat, ghost history: seq<Record>)
      requires Agreed()
      modifies disk, `book
      ensures Agreed() && done <= |ops| && (done < |ops| ==> Risky(ops[done], disk.live))
      ensures |history| == done + 1 && history[0] == old(book) && history[done] == book
      ensures forall i, j :: 0 <= i <= j <= done ==> Grew(history[i], history[j])
      ensures forall g :: g in disk.live.posted || g in disk.live.buried ==>
        g in book.past && g !in book.done && Entry(disk.live, g).call == book.past[g]
    {
      history := [book];
      done := 0;
      while done < |ops|
        invariant Agreed() && done <= |ops| && |history| == done + 1 && history[0] == old(book) && history[done] == book
        invariant forall i, j :: 0 <= i <= j <= done ==> Grew(history[i], history[j])
        decreases |ops| - done
      {
        if Risky(ops[done], disk.live) { break; }
        Perform(ops[done]);
        history := history + [book];
        done := done + 1;
      }
      assert OutcomeOk(disk.live, book);
    }
  }

  datatype Op =
    | Retrying(env: Meta, ts: seq<Trouble>) | Burying(env: Meta, ts: seq<Trouble>)
    | Finishing(env: Meta, ts: seq<Trouble>) | Reviving(ts: seq<Trouble>)
    | AddingDsn(env: Meta, call: nat, ts: seq<Trouble>) | FinishingDsn(g: nat, ts: seq<Trouble>)
    | BuryingDsn(g: nat, ts: seq<Trouble>) | RevivingDsn(g: nat, ts: seq<Trouble>)
    | DeletingDsn(g: nat, ts: seq<Trouble>) | Restarting(ts: seq<Trouble>, us: seq<Trouble>)

  /** The operation may publish a DSN beside metadata that a revival left behind. */
  predicate Risky(op: Op, f: Files) {
    match op
    case AddingDsn(_, _, _) => f.ready && LeftBehind(f)
    case Restarting(_, _) => Exposed(f)
    case _ => false
  }

  function Entry(f: Files, g: nat): Dsn
    requires g in f.posted || g in f.buried
  {
    if g in f.posted then f.posted[g] else f.buried[g]
  }

  // ---------- a run with two reports ----------

  /** A message that failed once, was revived, and has its staged metadata left beside it. */
  method LeaveBehind(meta: Meta) returns (e: Store)
    requires !meta.linked
    ensures fresh(e) && fresh(e.disk) && e.disk.Valid() && e.book.past == map[]
    ensures
      var next := Revived(Updated(meta));
      e.disk.live == Files(next, Some(next), true, false, map[], map[], map[])
  {
    e := new Store(meta);
    var r := e.Bury(meta, []);
    r := e.Revive([Fine, Fine, Fine, Fine, Early, Early, Fine, Fine, Early]);
  }

  /** Every recipient has been refused. */
  function AllRefused(d: Delivery): Delivery {
    seq(|d|, i => Refused)
  }

  /** The message fails and is reported. */
  method FailAndReport(e: Store, call: nat)
    requires e.disk.Valid() && e.disk.live.ready && Blank(e.disk.live) && e.disk.live.meta.delivery != []
    modifies e, e.disk
    ensures e.disk.Valid()
    ensures
      var f := old(e.disk.live);
      var failed := f.meta.(delivery := AllRefused(f.meta.delivery));
      e.disk.live == Reported(f.(meta := Updated(failed)), Updated(failed), call)
    ensures e.book.past == old(e.book).past[old(e.disk.live).meta.generation := call]
  {
    var failed := e.disk.live.meta.(delivery := AllRefused(e.disk.live.meta.delivery));
    assert failed.delivery[0] == Refused;
    var r := e.Retry(failed, []);
    r := e.AddDsn(Updated(failed), call, []);
  }

  /** Wherever staged metadata was left behind, two DSNs of different calls can be published for one generation: the
      message fails and is reported, its burial fails, the report is delivered, a restart puts the staged metadata
      into place again, and the message fails and is reported once more. */
  method ReportTwice(e: Store, one: nat, two: nat) returns (ghost first: Calls)
    requires e.disk.Valid() && one != two
    requires
      var f := e.disk.live;
      && f.ready && !f.dead && Blank(f) && f.revive.Some? && f.meta.delivery != [] && f.revive.value.delivery != []
      && !f.revive.value.linked && f.revive.value.generation == f.meta.generation
    modifies e, e.disk
    ensures
      var g := old(e.disk.live).meta.generation;
      && g in first && first[g] == one
      && g in e.disk.live.posted && e.disk.live.posted[g].call == two
  {
    var g := e.disk.live.meta.generation;
    FailAndReport(e, one);
    first := e.book.past;
    var r := e.Bury(e.disk.live.meta, [Early]);
    r := e.FinishDsn(g, []);
    assert e.disk.live.posted == map[];
    r := e.Restart([], []);
    FailAndReport(e, two);
  }

  /** And this is reached from a new message. */
  method TwoReports(meta: Meta, one: nat, two: nat) returns (e: Store, ghost first: Calls)
    requires !meta.linked && meta.delivery != [] && one != two
    ensures
      var g := meta.generation + 1;
      && g in first && first[g] == one
      && g in e.disk.live.posted && e.disk.live.posted[g].call == two
  {
    RevivedIsRevived(Updated(meta));
    e := LeaveBehind(meta);
    first := ReportTwice(e, one, two);
  }

  // ---------- guards and results ----------

  lemma DropsKeep(f: Files, x: Change, book: Record)
    requires LiveOk(f, book) && (x.DropPosted? || x.DropBuried? || x.DropStage?)
    ensures LiveOk(Apply(f, x), book) && ChangeOk(x, book) && ChangeOk(Nothing, book)
  {
  }

  lemma TakenOut(before: set<Files>, after: set<Files>, g: nat)
    requires after <= AfterMove(before, Effect(Nothing), Effect(DropPosted(g)))
    requires forall c :: c in before ==> g !in c.staged && g !in c.buried
    ensures forall c :: c in after ==> g !in c.staged && g !in c.buried
  {
  }

  predicate Stored(f: Files, env: Meta, link: bool) {
    f.ready && Matches(f.meta, env, link)
  }

  function AfterStore(f: Files, env: Meta, link: bool, t: Trouble): Files {
    if Stored(f, env, link) && !t.Early? then f.(meta := Updated(env)) else f
  }

  /** The errors that leave staged metadata beside a revived message: it cannot be renamed into place, the message
      cannot be moved back, and after the metadata has been written the staged copy cannot be removed. */
  predicate Stubborn(ts: seq<Trouble>) {
    && At(ts, 0).Fine? && At(ts, 2).Fine? && At(ts, 4).Early? && At(ts, 5).Early? && At(ts, 7).Fine? && At(ts, 8).Early?
  }

  /** Stages are settled, and the message's files stay as they are. */
  predicate Settling(before: Files, after: Files) {
    after.meta == before.meta && after.revive == before.revive && after.staged.Keys <= before.staged.Keys
  }

  /** The metadata that a revival staged is still there although its generation is the current one. */
  predicate LeftBehind(f: Files) {
    f.revive.Some? && f.revive.value.generation <= f.meta.generation
  }

  /** And the metadata links a stage. */
  predicate Exposed(f: Files) {
    LeftBehind(f) && f.meta.linked && f.meta.generation in f.staged
  }

  /** Metadata of a generation for which nothing is on record. */
  predicate Fresh(m: Meta, book: Record) {
    !m.linked && AllBeyond(m, book.past) && AllBeyond(m, book.links)
  }

  lemma RevivedFresh(m: Meta, book: Record)
    requires AllBeyond(m, book.links) && Extends(book.past, book.links)
    ensures Fresh(Revived(m), book)
  {
  }

  function Noted(book: Record, g: nat, call: nat): Record {
    book.(past := book.past[g := call])
  }

  /** A stage that is linked exactly may be published: its call is the one on record, if any is. */
  lemma PostKeeps(outcomes: set<Files>, live: Files, book: Record, g: nat, call: nat)
    requires AllOk(outcomes, book) && LiveOk(live, book) && live in outcomes
    requires CanPost(live, g, call) && g in live.staged && !LeftBehind(live)
    requires forall c :: c in outcomes ==> Alike(c, live, MessageFiles)
    ensures
      var book' := Noted(book, g, call);
      && Grew(book, book') && AllOk(outcomes, book') && ChangeOk(PutPosted(g, live.staged[g]), book')
      && LiveOk(live, book') && LiveOk(Apply(Apply(live, PutPosted(g, live.staged[g])), DropStage(g)), book')
  {
    assert OutcomeOk(live, book);
    assert book.links[g] == call;
  }

  /** Nothing has been reported for the message. */
  predicate Blank(f: Files) {
    !f.meta.linked && f.staged == map[] && f.posted == map[] && f.buried == map[]
  }

  function Reported(f: Files, env: Meta, call: nat): Files {
    f.(meta := Updated(env.(linked := true)), posted := map[f.meta.generation := Dsn(call, f.meta.revision + 1, true)])
  }
}
