/** The acceptance protocol of the spool (internal/queue/add.go) under I/O errors, process deaths and
    power cuts, and what startup recovery (internal/queue/recovery.go) makes of what is left.

    The model follows one queue ID through any number of Add calls, each with an entry directory of its
    own. An entry is staged under tmp/, renamed into ready/ while its marker says pending, and accepted
    by rewriting the marker in place. */
module SpoolAdd {
  import opened Options
  import opened CrashDisk

  /** The contents of the acceptance marker. A torn one mixes both fixed-size states. */
  datatype Marker = Missing | Pending | Accepted | Torn

  /** An entry directory: its marker, and whether body and metadata are there. Files are replaced
      atomically, so they are whole or missing. */
  datatype Entry = Entry(marker: Marker, body: bool, meta: bool)

  const EMPTY := Entry(Missing, false, false)
  const STAGED := Entry(Pending, true, true)
  const STORED := Entry(Accepted, true, true)

  /** Which entry directory the queue ID names in tmp/ and in ready/, the quarantined ones, and what
      every entry directory holds. Entries are numbered by the Add call that made them. */
  datatype Names = Names(tmp: Option<nat>, ready: Option<nat>, corrupt: set<nat>, entries: map<nat, Entry>)

  function At(c: Names, i: nat): Entry {
    if i in c.entries then c.entries[i] else EMPTY
  }

  function Put(c: Names, i: nat, e: Entry): Names {
    c.(entries := c.entries[i := e])
  }

  function Mark(c: Names, i: nat, m: Marker): Names {
    Put(c, i, At(c, i).(marker := m))
  }

  /** The steps of a directory rename. */
  function LinkReady(c: Names, i: nat): Names { c.(ready := Some(i)) }
  function LinkCorrupt(c: Names, i: nat): Names { c.(corrupt := c.corrupt + {i}) }
  function UnlinkTmp(c: Names, i: nat): Names { if c.tmp == Some(i) then c.(tmp := None) else c }
  function UnlinkReady(c: Names, i: nat): Names { if c.ready == Some(i) then c.(ready := None) else c }

  /** What an Add call reported; a call that did not live to report anything stays open. */
  datatype Result = Open | Ok | Error | Unknown

  /** A disk state honours what was reported. An accepted entry is in ready/ with marker, body and
      metadata, and an entry reported as failed is not accepted in ready/. */
  predicate Honours(c: Names, results: seq<Result>) {
    && (c.ready.Some? ==> c.ready.value < |results|) && (c.tmp.Some? ==> c.tmp.value < |results|)
    && (forall i :: i in c.entries ==> i < |results|)
    && forall i {:trigger results[i]} :: 0 <= i < |results| ==>
      && (results[i].Ok? ==> c.ready == Some(i) && c.tmp != Some(i) && At(c, i) == STORED)
      && (results[i].Error? ==> c.ready == Some(i) ==> At(c, i).marker != Accepted)
  }

  predicate AllHonour(outcomes: set<Names>, results: seq<Result>) {
    forall c :: c in outcomes ==> Honours(c, results)
  }

  /** Whatever happens to the disk, entry i is not accepted. */
  predicate Quiet(outcomes: set<Names>, i: nat) {
    forall c :: c in outcomes ==> At(c, i).marker != Accepted && At(c, i).marker != Torn
  }

  /** Whatever happens to the disk, entry i holds exactly this. */
  predicate Holds(outcomes: set<Names>, i: nat, e: Entry) {
    forall c :: c in outcomes ==> At(c, i) == e
  }

  /** Whatever happens to the disk, entry i is in ready/, whole but for its acceptance. */
  predicate Landed(outcomes: set<Names>, i: nat) {
    forall c :: c in outcomes ==> c.ready == Some(i) && c.tmp != Some(i) && At(c, i).body && At(c, i).meta
  }

  /** No Add of this ID has been reported as accepted. */
  predicate NoneOk(results: seq<Result>) {
    forall i :: 0 <= i < |results| ==> !results[i].Ok?
  }

  lemma ReadyNotStored(c: Names, results: seq<Result>)
    requires Honours(c, results)
    requires c.ready.Some? ==> At(c, c.ready.value).marker != Accepted
    ensures NoneOk(results)
  {
  }

  lemma PutHonours(c: Names, results: seq<Result>, i: nat, e: Entry)
    requires Honours(c, results) && i < |results|
    requires results[i].Open? || (!results[i].Ok? && e.marker != Accepted)
    ensures Honours(Put(c, i, e), results)
  {
  }

  /** What entry i holds changes: to `e`, or only its marker to that of `e`. */
  function Change(c: Names, i: nat, e: Entry, markerOnly: bool): Names {
    if markerOnly then Mark(c, i, e.marker) else Put(c, i, e)
  }

  lemma ChangeKeeps(outcomes: set<Names>, effect: Names -> Names, results: seq<Result>, i: nat, e: Entry,
                    markerOnly: bool)
    requires forall c :: effect(c) == Change(c, i, e, markerOnly)
    requires AllHonour(outcomes, results) && i < |results|
    requires results[i].Open? || (!results[i].Ok? && e.marker != Accepted)
    ensures AllHonour(After(outcomes, effect), results)
  {
    forall c | c in After(outcomes, effect) ensures Honours(c, results) {
      if c !in outcomes {
        var c0 :| c0 in outcomes && c == effect(c0);
        PutHonours(c0, results, i, if markerOnly then At(c0, i).(marker := e.marker) else e);
      }
    }
  }

  lemma ChangeQuiet(outcomes: set<Names>, effect: Names -> Names, i: nat, e: Entry, markerOnly: bool, j: nat)
    requires forall c :: effect(c) == Change(c, i, e, markerOnly)
    requires Quiet(outcomes, j) && (i == j ==> e.marker.Missing? || e.marker.Pending?)
    ensures Quiet(After(outcomes, effect), j)
  {
    forall c | c in After(outcomes, effect) && c !in outcomes
      ensures At(c, j).marker != Accepted && At(c, j).marker != Torn
    {
      var c0 :| c0 in outcomes && c == effect(c0);
    }
  }

  lemma MarkLanded(outcomes: set<Names>, effect: Names -> Names, i: nat, e: Entry)
    requires forall c :: effect(c) == Change(c, i, e, true)
    requires Landed(outcomes, i)
    ensures Landed(After(outcomes, effect), i)
  {
    forall c | c in After(outcomes, effect) && c !in outcomes
      ensures c.ready == Some(i) && c.tmp != Some(i) && At(c, i).body && At(c, i).meta
    {
      var c0 :| c0 in outcomes && c == effect(c0);
    }
  }

  /** An effect on names alone that never breaks a report. */
  ghost predicate Harmless(effect: Names -> Names, results: seq<Result>) {
    forall c :: effect(c).entries == c.entries && (Honours(c, results) ==> Honours(effect(c), results))
  }

  lemma LinkKeeps(outcomes: set<Names>, effect: Names -> Names, results: seq<Result>, j: nat)
    requires Harmless(effect, results) && AllHonour(outcomes, results)
    ensures AllHonour(After(outcomes, effect), results)
    ensures Quiet(outcomes, j) ==> Quiet(After(outcomes, effect), j)
    ensures Holds(outcomes, j, STAGED) ==> Holds(After(outcomes, effect), j, STAGED)
  {
    forall c | c in After(outcomes, effect) && c !in outcomes
      ensures Honours(c, results) && exists c0 :: c0 in outcomes && c.entries == c0.entries
    {
      var c0 :| c0 in outcomes && c == effect(c0);
    }
    if Quiet(outcomes, j) {
      forall c | c in After(outcomes, effect) && c !in outcomes
        ensures At(c, j).marker != Accepted && At(c, j).marker != Torn
      {
        var c0 :| c0 in outcomes && c == effect(c0);
      }
    }
  }

  /** A rename leaves the outcomes of its two steps. */
  lemma MoveSteps(outcomes: set<Names>, link: Names -> Names, unlink: Names -> Names)
    ensures AfterMove(outcomes, link, unlink) <= After(After(outcomes, link), unlink)
  {
  }

  /** The entry in ready/ is accepted, or has no marker: a new call does not touch it. */
  predicate Occupied(c: Names) {
    c.ready.Some? && At(c, c.ready.value).marker in {Accepted, Missing}
  }

  /** A new call changes no report, and its entry does not exist yet. */
  lemma CallHonours(outcomes: set<Names>, results: seq<Result>)
    requires AllHonour(outcomes, results)
    ensures AllHonour(outcomes, results + [Open]) && Quiet(outcomes, |results|)
  {
    forall c | c in outcomes ensures Honours(c, results + [Open]) && At(c, |results|) == EMPTY {
      assert Honours(c, results);
      assert forall i :: 0 <= i < |results| ==> (results + [Open])[i] == results[i];
    }
  }

  /** A report that every outcome bears out. */
  lemma ReportHonours(outcomes: set<Names>, results: seq<Result>, i: nat, r: Result)
    requires AllHonour(outcomes, results) && i < |results| && results[i].Open?
    requires r.Ok? ==> Landed(outcomes, i) && Holds(outcomes, i, STORED)
    requires r.Error? ==> forall c :: c in outcomes ==> c.ready == Some(i) ==> At(c, i).marker != Accepted
    ensures AllHonour(outcomes, results[i := r])
  {
    forall c | c in outcomes ensures Honours(c, results[i := r]) {
      assert Honours(c, results);
      assert forall j :: 0 <= j < |results| && j != i ==> results[i := r][j] == results[j];
    }
  }

  /** How an attempt to accept an entry ended. */
  datatype Verdict = Committed | Refused | Unsure | Died

  /** What may go wrong with an Add call: in its steps, in the roll-back of the marker, in taking the entry out of
      ready/ again and in looking whether it is gone; and whether the caller gives up before the acceptance. */
  datatype Course = Course(steps: World, rollback: World, cleanup: World, look: World, cancelled: bool)

  predicate MayDie(x: Course) {
    x.steps.mayDie || x.rollback.mayDie || x.cleanup.mayDie
  }

  /** Entry i is in ready/ in some state that a power cut can leave. */
  predicate Lingers(outcomes: set<Names>, i: nat) {
    exists c :: c in outcomes && c.ready == Some(i)
  }

  /** Whatever happens to the disk, ready/ is free again and entry i is in quarantine. */
  predicate Withdrawn(outcomes: set<Names>, i: nat) {
    forall c :: c in outcomes ==> c.ready.None? && i in c.corrupt
  }

  class Spool {
    const disk: Disk<Names>
    /** The process runs and has opened the queue. */
    var running: bool
    /** The ID is blocked by an unresolved entry, or accounted as ready; both are forgotten on restart. */
    var blocked: bool
    var accounted: bool
    /** How many calls there were, and what they reported. */
    var calls: nat
    ghost var results: seq<Result>

    ghost predicate Valid() reads this, disk {
      disk.Valid() && AllHonour(disk.outcomes, results) && calls == |results|
    }

    constructor ()
      ensures Valid() && fresh(disk) && results == [] && !running
    {
      var start := Names(None, None, {}, map[]);
      disk := new Disk(start);
      running, blocked, accounted, calls, results := false, false, false, 0, [];
    }

    /** The process may die here, and the machine with it. */
    method Dies(w: World) returns (died: bool)
      requires disk.Valid()
      modifies disk
      ensures disk.Valid() && (died ==> w.mayDie) && disk.outcomes <= old(disk.outcomes)
      ensures !died ==> disk.live == old(disk.live) && disk.outcomes == old(disk.outcomes)
    {
      died := *;
      died := died && w.mayDie;
      if died {
        var off := disk.MaybeCrash(true);
      }
    }

    /** A sync that may report an error, and then promises nothing. */
    method Sync(same: (Names, Names) -> bool, w: World) returns (r: Io)
      requires disk.Valid() && same(disk.live, disk.live)
      modifies disk
      ensures disk.Valid() && disk.outcomes <= old(disk.outcomes)
      ensures r.Crashed? ==> w.mayDie
      ensures r.Failed? ==> w.mayFail
      ensures !r.Crashed? ==> disk.live == old(disk.live)
      ensures r.Done? ==> disk.outcomes == Kept(old(disk.outcomes), same, disk.live)
      ensures r.Failed? ==> disk.outcomes == old(disk.outcomes)
    {
      var died := Dies(w);
      if died { return Crashed; }
      var failed := Fails(w);
      if failed { return Failed; }
      disk.Sync(same);
      return Done;
    }

    // ---------- staging ----------

    /** Changes what entry i holds, visibly but not durably. */
    method Alter(i: nat, e: Entry, markerOnly: bool, ghost j: nat)
      requires Valid() && i < |results|
      requires results[i].Open? || (!results[i].Ok? && e.marker != Accepted)
      modifies disk
      ensures Valid() && disk.live == Change(old(disk.live), i, e, markerOnly)
      ensures Quiet(old(disk.outcomes), j) && (i == j ==> e.marker.Missing? || e.marker.Pending?) ==>
        Quiet(disk.outcomes, j)
      ensures markerOnly && Landed(old(disk.outcomes), i) ==> Landed(disk.outcomes, i)
    {
      var effect := (c: Names) => Change(c, i, e, markerOnly);
      ghost var before := disk.outcomes;
      disk.Do(effect);
      ChangeKeeps(before, effect, results, i, e, markerOnly);
      if Quiet(before, j) && (i == j ==> e.marker.Missing? || e.marker.Pending?) {
        ChangeQuiet(before, effect, i, e, markerOnly, j);
      }
      if markerOnly && Landed(before, i) {
        MarkLanded(before, effect, i, e);
      }
    }

    /** Changes names, visibly but not durably. */
    method Relink(effect: Names -> Names, ghost j: nat)
      requires Valid() && Harmless(effect, results)
      modifies disk
      ensures Valid() && disk.live == effect(old(disk.live))
      ensures Quiet(old(disk.outcomes), j) ==> Quiet(disk.outcomes, j)
    {
      LinkKeeps(disk.outcomes, effect, results, j);
      disk.Do(effect);
    }

    /** Renames a directory, visibly but not durably. */
    method Rename(link: Names -> Names, unlink: Names -> Names, ghost j: nat)
      requires Valid() && Harmless(link, results) && Harmless(unlink, results)
      modifies disk
      ensures Valid() && disk.live == unlink(link(old(disk.live)))
      ensures disk.outcomes == AfterMove(old(disk.outcomes), link, unlink)
      ensures Quiet(old(disk.outcomes), j) ==> Quiet(disk.outcomes, j)
      ensures Holds(old(disk.outcomes), j, STAGED) ==> Holds(disk.outcomes, j, STAGED)
    {
      LinkKeeps(disk.outcomes, link, results, j);
      LinkKeeps(After(disk.outcomes, link), unlink, results, j);
      MoveSteps(disk.outcomes, link, unlink);
      disk.Move(link, unlink);
    }

    /** Adds a file to the staged entry. The file appears whole or not at all, may have appeared although
        an error is reported, and is durable only after success. */
    method WriteFile(i: nat, e: Entry, w: World) returns (r: Io)
      requires Valid() && i < |results| && results[i].Open? && Quiet(disk.outcomes, i) && e.marker.Pending?
      modifies disk
      ensures Valid() && Quiet(disk.outcomes, i)
      ensures r.Crashed? ==> w.mayDie
      ensures r.Failed? ==> w.mayFail
      ensures !r.Crashed? ==> disk.live == old(disk.live) || disk.live == Put(old(disk.live), i, e)
      ensures r.Done? ==> disk.live == Put(old(disk.live), i, e)
      ensures r.Done? ==> Holds(disk.outcomes, i, e)
    {
      var early := Fails(w);
      if early { return Failed; }
      Alter(i, e, false, i);
      r := Sync((a, b) => At(a, i) == At(b, i), w);
    }

    /** Removes whatever tmp/ holds under the ID. An error may leave any part of it. */
    method RemoveTmp(ghost j: nat, w: World) returns (r: Io)
      requires Valid()
      modifies disk
      ensures Valid()
      ensures r.Crashed? ==> w.mayDie
      ensures r.Failed? ==> w.mayFail
      ensures !r.Crashed? ==> disk.live.ready == old(disk.live.ready)
      ensures r.Done? ==> disk.live.tmp.None?
      ensures Quiet(old(disk.outcomes), j) ==> Quiet(disk.outcomes, j)
    {
      if disk.live.tmp.None? { return Done; }
      var k := disk.live.tmp.value;
      Alter(k, EMPTY, false, j);
      var died := Dies(w);
      if died { return Crashed; }
      var failed := Fails(w);
      if failed { return Failed; }
      Relink((c: Names) => UnlinkTmp(c, k), j);
      died := Dies(w);
      if died { return Crashed; }
      failed := Fails(w);
      return if failed then Failed else Done;
    }

    /** Writes marker, body and metadata of a new entry in tmp/. */
    method Stage(i: nat, w: World) returns (r: Io)
      requires Valid() && i < |results| && results[i].Open? && Quiet(disk.outcomes, i)
      requires NoneOk(results) && disk.live.tmp.None?
      modifies disk
      ensures Valid() && Quiet(disk.outcomes, i)
      ensures r.Crashed? ==> w.mayDie
      ensures r.Failed? ==> w.mayFail
      ensures !r.Crashed? ==> disk.live.ready == old(disk.live.ready)
      ensures r.Done? ==> disk.live.tmp == Some(i) && Holds(disk.outcomes, i, STAGED)
    {
      var failed := Fails(w);
      if failed { return Failed; }
      Relink((c: Names) => c.(tmp := Some(i)), i);
      var died := Dies(w);
      if died { return Crashed; }
      r := WriteFile(i, Entry(Pending, false, false), w);
      if !r.Done? { return; }
      r := WriteFile(i, Entry(Pending, true, false), w);
      if !r.Done? { return; }
      r := WriteFile(i, STAGED, w);
      if !r.Done? { return; }
      r := Sync((a, b) => At(a, i) == At(b, i), w);
    }

    /** Renames the staged entry into ready/ and syncs both directories. */
    method MoveToReady(i: nat, w: World) returns (r: Io)
      requires Valid() && i < |results| && results[i].Open? && Quiet(disk.outcomes, i)
      requires NoneOk(results) && disk.live.tmp == Some(i) && disk.live.ready.None?
      requires Holds(disk.outcomes, i, STAGED)
      modifies disk
      ensures Valid() && Quiet(disk.outcomes, i)
      ensures r.Crashed? ==> w.mayDie
      ensures r.Failed? ==> w.mayFail
      ensures !r.Crashed? ==> disk.live.ready.None? || disk.live.ready == Some(i)
      ensures r.Done? ==> Landed(disk.outcomes, i)
    {
      var early := Fails(w);
      if early { return Failed; }
      Rename((c: Names) => LinkReady(c, i), (c: Names) => UnlinkTmp(c, i), i);
      r := Sync((a: Names, b: Names) => a.ready == b.ready, w);
      if !r.Done? { return; }
      r := Sync((a: Names, b: Names) => a.tmp == b.tmp, w);
    }

    // ---------- acceptance ----------

    /** Rewrites the marker in place. It can stop anywhere, with or without an error reported. */
    method WriteMarker(i: nat, m: Marker, w: World) returns (r: Io)
      requires Valid() && i < |results| && results[i].Open? && Landed(disk.outcomes, i)
      modifies disk
      ensures Valid() && Landed(disk.outcomes, i)
      ensures r.Crashed? ==> w.mayDie
      ensures r.Failed? ==> w.mayFail
      ensures r.Done? ==> At(disk.live, i).marker == m
    {
      var early := Fails(w);
      if early { return Failed; }
      Alter(i, EMPTY.(marker := Torn), true, i);
      var died := Dies(w);
      if died { return Crashed; }
      var short := Fails(w);
      if short { return Failed; }
      Alter(i, EMPTY.(marker := m), true, i);
      died := Dies(w);
      if died { return Crashed; }
      var late := Fails(w);
      return if late then Failed else Done;
    }

    /** Restores the pending marker and makes that durable. */
    method RollBack(i: nat, w: World) returns (r: Io)
      requires Valid() && i < |results| && results[i].Open? && Landed(disk.outcomes, i)
      modifies disk
      ensures Valid() && Landed(disk.outcomes, i)
      ensures r.Crashed? ==> w.mayDie
      ensures r.Failed? ==> w.mayFail
      ensures r.Done? ==> Quiet(disk.outcomes, i)
    {
      r := WriteMarker(i, Pending, w);
      if !r.Done? { return; }
      r := Sync((a, b) => At(a, i).marker == At(b, i).marker, w);
    }

    /** The sole acceptance transition: the sync of the rewritten marker commits. A roll-back without errors leaves
        no doubt. */
    method Accept(i: nat, w: World, back: World) returns (v: Verdict)
      requires Valid() && i < |results| && results[i].Open? && Landed(disk.outcomes, i) && Quiet(disk.outcomes, i)
      modifies disk
      ensures Valid() && Landed(disk.outcomes, i)
      ensures v.Died? ==> w.mayDie || back.mayDie
      ensures v.Refused? || v.Unsure? ==> w.mayFail
      ensures v.Unsure? ==> back.mayFail
      ensures v.Committed? ==> Holds(disk.outcomes, i, STORED)
      ensures v.Refused? ==> Quiet(disk.outcomes, i)
    {
      var unopened := Fails(w);
      if unopened { return Refused; }
      var r := WriteMarker(i, Accepted, w);
      if r.Crashed? { return Died; }
      if r.Done? {
        r := Sync((a, b) => At(a, i).marker == At(b, i).marker, w);
        if r.Crashed? { return Died; }
        if r.Done? { return Committed; }
      }
      r := RollBack(i, back);
      return if r.Crashed? then Died else if r.Done? then Refused else Unsure;
    }

    /** Moves the entry that ready/ holds to quarantine. After an error it may still be in ready/. */
    method Quarantine(i: nat, ghost j: nat, w: World) returns (r: Io)
      requires Valid() && i < |results| && !results[i].Ok? && disk.live.ready == Some(i)
      modifies disk
      ensures Valid()
      ensures r.Crashed? ==> w.mayDie
      ensures r.Failed? ==> w.mayFail && Lingers(disk.outcomes, i)
      ensures !r.Crashed? ==> disk.live in {old(disk.live), UnlinkReady(LinkCorrupt(old(disk.live), i), i)}
      ensures r.Done? ==> disk.live == UnlinkReady(LinkCorrupt(old(disk.live), i), i)
      ensures r.Done? ==> forall c :: c in disk.outcomes ==> c.ready.None? && i in c.corrupt
      ensures Quiet(old(disk.outcomes), j) ==> Quiet(disk.outcomes, j)
    {
      var early := Fails(w);
      if early {
        assert disk.live in disk.outcomes;
        return Failed;
      }
      ghost var linked := LinkCorrupt(disk.live, i);
      Rename((c: Names) => LinkCorrupt(c, i), (c: Names) => UnlinkReady(c, i), j);
      assert linked in disk.outcomes;
      r := Sync((a: Names, b: Names) => a.corrupt == b.corrupt, w);
      if !r.Done? { return; }
      assert linked in disk.outcomes;
      r := Sync((a: Names, b: Names) => a.ready == b.ready, w);
    }

    /** Takes an entry that was not accepted out of ready/. The outcome is unknown only when its acceptance is in
        doubt, an error kept it from quarantine, and it may still be in ready/ or cannot be looked for. */
    method AbortReady(i: nat, unsure: bool, w: World, look: World) returns (r: Result)
      requires Valid() && i < |results| && results[i].Open? && disk.live.ready == Some(i)
      requires unsure || Quiet(disk.outcomes, i)
      modifies disk, `blocked
      ensures Valid()
      ensures r.Open? ==> w.mayDie
      ensures !r.Ok? && blocked == (old(blocked) || r.Unknown?)
      ensures r.Unknown? ==> unsure && w.mayFail && (look.mayFail || Lingers(disk.outcomes, i))
      ensures r.Error? ==> forall c :: c in disk.outcomes ==> c.ready == Some(i) ==> At(c, i).marker != Accepted
      ensures !w.mayFail && !r.Open? ==> r.Error? && disk.live == UnlinkReady(LinkCorrupt(old(disk.live), i), i)
      ensures !w.mayFail && !r.Open? ==> forall c :: c in disk.outcomes ==> c.ready.None? && i in c.corrupt
    {
      var io := Quarantine(i, i, w);
      if io.Crashed? { return Open; }
      if io.Done? { return Error; }
      io := Sync((a: Names, b: Names) => a.ready == b.ready, w);
      if io.Crashed? { return Open; }
      var unread := Fails(look);
      if io.Done? && !unread && disk.live.ready.None? { return Error; }
      if unsure {
        blocked := true;
        return Unknown;
      }
      return Error;
    }

    /** Everything up to the rename into ready/. */
    method Prepare(i: nat, w: World) returns (r: Io)
      requires Valid() && i < |results| && results[i].Open? && Quiet(disk.outcomes, i)
      modifies disk
      ensures Valid() && Quiet(disk.outcomes, i)
      ensures r.Crashed? ==> w.mayDie
      ensures r.Failed? ==> w.mayFail || Occupied(old(disk.live))
      ensures r.Done? ==> Landed(disk.outcomes, i) && !Occupied(old(disk.live))
    {
      if disk.live.ready.Some? {
        var k := disk.live.ready.value;
        var unread := Fails(w);
        if unread || At(disk.live, k).marker.Missing? || At(disk.live, k).marker.Accepted? { return Failed; }
        r := Quarantine(k, i, w);
        if !r.Done? { return; }
      }
      ReadyNotStored(disk.live, results);
      r := RemoveTmp(i, w);
      if !r.Done? { return; }
      r := Stage(i, w);
      if r.Done? {
        r := MoveToReady(i, w);
      }
      if r.Failed? {
        var cleanup := RemoveTmp(i, w);
        if !cleanup.Crashed? {
          cleanup := Sync((a: Names, b: Names) => a.tmp == b.tmp, w);
        }
        if cleanup.Crashed? { return Crashed; }
      }
    }

    /** Brings the entry of call i into ready/ and accepts it. */
    method Store(i: nat, x: Course) returns (r: Result)
      requires Valid() && i < |results| && results[i].Open? && Quiet(disk.outcomes, i)
      modifies disk, `blocked
      ensures Valid() && (r.Open? ==> MayDie(x)) && blocked == (old(blocked) || r.Unknown?)
      ensures r.Error? || r.Unknown? ==> x.steps.mayFail || x.cancelled || Occupied(old(disk.live))
      ensures r.Unknown? ==> !x.cancelled && x.steps.mayFail && x.rollback.mayFail && x.cleanup.mayFail
      ensures r.Unknown? ==> x.look.mayFail || Lingers(disk.outcomes, i)
      ensures r.Ok? ==> !x.cancelled && !Occupied(old(disk.live))
      ensures r.Ok? ==> Landed(disk.outcomes, i) && Holds(disk.outcomes, i, STORED)
      ensures r.Error? ==> forall c :: c in disk.outcomes ==> c.ready == Some(i) ==> At(c, i).marker != Accepted
      ensures x.cancelled && !x.steps.mayFail && !x.cleanup.mayFail && !r.Open? && !Occupied(old(disk.live)) ==>
        r.Error? && Withdrawn(disk.outcomes, i)
    {
      var io := Prepare(i, x.steps);
      if io.Crashed? { return Open; }
      if io.Failed? { return Error; }
      var verdict := Refused;
      if !x.cancelled {
        verdict := Accept(i, x.steps, x.rollback);
      }
      match verdict
      case Died => return Open;
      case Committed => return Ok;
      case Refused => r := AbortReady(i, false, x.cleanup, x.look);
      case Unsure => r := AbortReady(i, true, x.cleanup, x.look);
    }

    /** Stores one more message under the ID. What it reports holds in every state that a power cut can
        leave from now on. A call that is cancelled before the acceptance is never unknown, and takes its entry out
        of ready/ if it can. */
    method Add(x: Course) returns (r: Result)
      requires Valid() && running
      modifies this, disk
      ensures Valid() && results == old(results) + [r]
      ensures if r.Open? then MayDie(x) && !running else running
      ensures blocked == (old(blocked) || r.Unknown?) && accounted == (old(accounted) || r.Ok?)
      ensures r.Unknown? ==> !x.cancelled && x.steps.mayFail && x.rollback.mayFail && x.cleanup.mayFail
      ensures r.Unknown? ==> x.look.mayFail || Lingers(disk.outcomes, |old(results)|)
      ensures
        var free := !old(blocked) && !old(accounted) && !Occupied(old(disk.live));
        !x.steps.mayFail && !r.Open? ==>
          && (r.Ok? <==> free && !x.cancelled)
          && (free && x.cancelled && !x.cleanup.mayFail ==> r.Error? && Withdrawn(disk.outcomes, |old(results)|))
      ensures old(blocked) || old(accounted) ==>
        r.Error? && disk.live == old(disk.live) && disk.outcomes == old(disk.outcomes)
    {
      var i := calls;
      CallHonours(disk.outcomes, results);
      results := results + [Open];
      calls := calls + 1;
      if blocked || accounted {
        r := Error;
      } else {
        r := Store(i, x);
      }
      accounted := accounted || r.Ok?;
      running := !r.Open?;
      ReportHonours(disk.outcomes, results, i, r);
      results := results[i := r];
    }

    // ---------- recovery ----------

    /** Moves the entry in tmp/ to quarantine. */
    method MoveTmp(k: nat, w: World) returns (r: Io)
      requires Valid() && disk.live.tmp == Some(k)
      modifies disk
      ensures Valid()
      ensures r.Crashed? ==> w.mayDie
      ensures r.Failed? ==> w.mayFail
      ensures !r.Crashed? ==> disk.live.ready == old(disk.live.ready) && disk.live.entries == old(disk.live.entries)
      ensures !r.Crashed? ==> disk.live.tmp.None? && k in disk.live.corrupt
    {
      Rename((c: Names) => LinkCorrupt(c, k), (c: Names) => UnlinkTmp(c, k), 0);
      r := Sync((a: Names, b: Names) => a.corrupt == b.corrupt, w);
      if r.Done? {
        r := Sync((a: Names, b: Names) => a.tmp == b.tmp, w);
      }
    }

    /** Moves what tmp/ holds to quarantine: nothing in tmp/ was accepted. */
    method RecoverTmp(w: World) returns (r: Io)
      requires Valid()
      modifies disk, `blocked
      ensures Valid()
      ensures r.Crashed? ==> w.mayDie
      ensures r.Failed? ==> w.mayFail
      ensures blocked ==> old(blocked) || w.mayFail
      ensures !r.Crashed? ==> disk.live.ready == old(disk.live.ready) && disk.live.entries == old(disk.live.entries)
      ensures
        var tmp := old(disk.live).tmp;
        !w.mayFail && !r.Crashed? && tmp.Some? ==> disk.live.tmp.None? && tmp.value in disk.live.corrupt
    {
      if disk.live.tmp.Some? {
        var failed := Fails(w);
        if failed {
          blocked := true;
        } else {
          r := MoveTmp(disk.live.tmp.value, w);
          if r.Crashed? { return; }
          blocked := blocked || r.Failed?;
        }
      }
      r := Sync((a: Names, b: Names) => a.tmp == b.tmp, w);
    }

    /** Schedules an accepted entry of ready/ and moves any other to quarantine; what cannot be read or
        moved is blocked. */
    method LoadReady(w: World) returns (r: Io, found: Option<nat>)
      requires Valid()
      modifies disk, `blocked, `accounted
      ensures Valid()
      ensures r.Crashed? ==> w.mayDie && found.None?
      ensures !r.Failed?
      ensures found.Some? ==> old(disk.live).ready == found && At(old(disk.live), found.value) == STORED
      ensures !w.mayFail && !old(blocked) && r.Done? ==>
        var ready := old(disk.live).ready;
        && found == (if ready.Some? && At(old(disk.live), ready.value) == STORED then ready else None)
        && accounted == (old(accounted) || found.Some?) && !blocked
        && (ready.Some? && found.None? ==> disk.live.ready.None? && ready.value in disk.live.corrupt)
    {
      found := None;
      if blocked || disk.live.ready.None? { return Done, None; }
      var k := disk.live.ready.value;
      var unread := Fails(w);
      if unread {
        blocked := true;
        return Done, None;
      }
      if At(disk.live, k) == STORED {
        accounted := true;
        return Done, Some(k);
      }
      r := Quarantine(k, k, w);
      if r.Crashed? { return; }
      blocked := r.Failed?;
      r := Done;
    }

    /** Opens the queue after a shutdown, a process death or a power cut. */
    method Recover(w: World) returns (found: Option<nat>)
      requires Valid()
      modifies this, disk
      ensures Valid() && results == old(results)
      ensures found.Some? ==> found.value < |results| && !results[found.value].Error?
      ensures !w.mayFail && !w.mayDie ==> running
      ensures !w.mayFail && !w.mayDie ==> forall i :: 0 <= i < |results| && results[i].Ok? ==> found == Some(i)
    {
      found := None;
      running, blocked, accounted := false, false, false;
      var r := RecoverTmp(w);
      if !r.Done? { return; }
      r, found := LoadReady(w);
      running := r.Done?;
    }

    /** Any run: calls, process deaths, power cuts and recoveries in any order, with I/O errors anywhere,
        then one recovery that nothing disturbs. An accepted message is scheduled by that recovery, and
        no recovery of the run ever scheduled a message whose call reported failure. */
    method AnyRun(steps: nat) returns (found: Option<nat>, ghost log: seq<nat>)
      requires Valid() && results == []
      modifies this, disk
      ensures Valid()
      ensures forall i :: 0 <= i < |results| && results[i].Ok? ==> found == Some(i)
      ensures forall k :: 0 <= k < |log| ==> log[k] < |results| && !results[log[k]].Error?
      ensures found.Some? ==> log != [] && log[|log| - 1] == found.value
    {
      log := [];
      var trouble := World(true, true);
      for step := 0 to steps
        invariant Valid()
        invariant forall k :: 0 <= k < |log| ==> log[k] < |results| && !results[log[k]].Error?
      {
        var add := *;
        if add && running {
          var cancelled := *;
          var r := Add(Course(trouble, trouble, trouble, trouble, cancelled));
        } else {
          var off := disk.MaybeCrash(true);
          found := Recover(trouble);
          log := if found.Some? then log + [found.value] else log;
        }
      }
      var off := disk.MaybeCrash(true);
      found := Recover(World(false, false));
      log := if found.Some? then log + [found.value] else log;
    }
  }
}
