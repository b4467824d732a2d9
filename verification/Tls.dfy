/** Crash recovery of the self-signed TLS pair (internal/certs/generate.go, internal/certs/certs.go).

    Generation writes a marker, stages the private key and the certificate, renames both into
    place and removes the marker. Power may go at any point of it, and at any point of every
    later recovery. */
module Tls {
  import opened CrashDisk

  /** A file that is missing, holds one half of generated pair `pair`, or was cut off while written. */
  datatype File = Absent | Whole(pair: nat) | Torn

  /** Marker and certificate files live in one directory, key files in another. */
  datatype Files = Files(marker: bool, keyStage: File, certStage: File, key: File, cert: File)

  datatype Target = Key | Cert

  const NO_FILES := Files(false, Absent, Absent, Absent, Absent)

  function Stage(f: Files, t: Target): File {
    if t.Key? then f.keyStage else f.certStage
  }

  function Final(f: Files, t: Target): File {
    if t.Key? then f.key else f.cert
  }

  function SetStage(f: Files, t: Target, x: File): Files {
    if t.Key? then f.(keyStage := x) else f.(certStage := x)
  }

  function SetFinal(f: Files, t: Target, x: File): Files {
    if t.Key? then f.(key := x) else f.(cert := x)
  }

  predicate SameDirectory(t: Target, a: Files, b: Files) {
    if t.Key? then a.keyStage == b.keyStage && a.key == b.key
    else a.marker == b.marker && a.certStage == b.certStage && a.cert == b.cert
  }

  /** The pair is installed and nothing of the generation is left. */
  predicate Complete(f: Files) {
    f.key.Whole? && f.cert == f.key && f.keyStage.Absent? && f.certStage.Absent? && !f.marker
  }

  /** What every crash leaves behind: a stage or a lone final file implies the marker, and a final
      key has its certificate, in place or staged whole. */
  predicate Recoverable(f: Files) {
    && !f.key.Torn? && !f.cert.Torn?
    && (f.cert.Whole? ==> f.key == f.cert)
    && (f.key.Whole? ==> f.cert == f.key || (f.cert.Absent? && f.certStage == f.key))
    && (f.keyStage != Absent || f.certStage != Absent || (f.key.Whole? && f.cert.Absent?) ==> f.marker)
  }

  /** Final files are never replaced. */
  predicate Preserves(before: Files, after: Files) {
    && (before.key.Whole? ==> after.key == before.key)
    && (before.cert.Whole? ==> after.cert == before.cert)
  }

  class Keeper {
    const disk: Disk<Files>

    constructor ()
      ensures fresh(disk) && disk.Valid() && disk.Settled() && disk.live == NO_FILES
    {
      disk := new Disk(NO_FILES);
    }

    /** Exclusive creation of the marker: create, write, sync the file, sync the directory. */
    method WriteMarker(mayCrash: bool) returns (r: Io)
      requires disk.Valid() && disk.Settled()
      modifies disk
      ensures disk.Valid() && disk.Settled()
      ensures r.Done? ==> !old(disk.live).marker && disk.live == old(disk.live).(marker := true)
      ensures r.Failed? <==> old(disk.live).marker
      ensures r.Failed? ==> disk.live == old(disk.live)
      ensures r.Crashed? ==> mayCrash && disk.live in {old(disk.live), old(disk.live).(marker := true)}
    {
      if disk.live.marker {
        return Failed;
      }
      disk.Do((f: Files) => f.(marker := true));
      var crashed := disk.MaybeCrash(mayCrash);
      if crashed { return Crashed; }
      disk.Sync((a, b) => SameDirectory(Cert, a, b));
      return Done;
    }

    /** Exclusive creation of a stage. Until the file sync its content may be cut off, and until
        the directory sync the file may be missing. */
    method WriteStage(t: Target, pair: nat, mayCrash: bool) returns (r: Io)
      requires disk.Valid() && disk.Settled()
      modifies disk
      ensures disk.Valid() && disk.Settled()
      ensures r.Done? ==> Stage(old(disk.live), t).Absent? && disk.live == SetStage(old(disk.live), t, Whole(pair))
      ensures r.Failed? ==> !Stage(old(disk.live), t).Absent? && disk.live == old(disk.live)
      ensures r.Crashed? ==>
        && mayCrash
        && disk.live in {old(disk.live), SetStage(old(disk.live), t, Torn), SetStage(old(disk.live), t, Whole(pair))}
    {
      if Stage(disk.live, t) != Absent {
        return Failed;
      }
      disk.Do((f: Files) => SetStage(f, t, Torn));
      var crashed := disk.MaybeCrash(mayCrash);
      if crashed { return Crashed; }
      disk.Do((f: Files) => SetStage(f, t, Whole(pair)));
      crashed := disk.MaybeCrash(mayCrash);
      if crashed { return Crashed; }
      disk.Sync((a: Files, b: Files) => !Stage(a, t).Torn?);
      crashed := disk.MaybeCrash(mayCrash);
      if crashed { return Crashed; }
      disk.Sync((a, b) => SameDirectory(t, a, b));
      return Done;
    }

    /** Rename of a stage onto its final name, then a sync of the directory. */
    method Install(t: Target, mayCrash: bool) returns (r: Io)
      requires disk.Valid() && disk.Settled()
      requires !Stage(disk.live, t).Absent?
      modifies disk
      ensures disk.Valid() && disk.Settled()
      ensures r.Done? || (r.Crashed? && mayCrash)
      ensures
        var linked := SetFinal(old(disk.live), t, Stage(old(disk.live), t));
        var moved := SetStage(linked, t, Absent);
        if r.Done? then disk.live == moved else disk.live in {old(disk.live), linked, moved}
    {
      disk.Move((f: Files) => SetFinal(f, t, Stage(f, t)), (f: Files) => SetStage(f, t, Absent));
      var crashed := disk.MaybeCrash(mayCrash);
      if crashed { return Crashed; }
      disk.Sync((a, b) => SameDirectory(t, a, b));
      return Done;
    }

    /** Removal of a stage, then a sync of its directory. */
    method RemoveStage(t: Target, mayCrash: bool) returns (r: Io)
      requires disk.Valid() && disk.Settled()
      modifies disk
      ensures disk.Valid() && disk.Settled()
      ensures r.Done? || (r.Crashed? && mayCrash)
      ensures
        var removed := SetStage(old(disk.live), t, Absent);
        if r.Done? then disk.live == removed else disk.live in {old(disk.live), removed}
    {
      if Stage(disk.live, t).Absent? {
        return Done;
      }
      disk.Do((f: Files) => SetStage(f, t, Absent));
      var crashed := disk.MaybeCrash(mayCrash);
      if crashed { return Crashed; }
      disk.Sync((a, b) => SameDirectory(t, a, b));
      return Done;
    }

    /** Removal of the marker, then a sync of its directory. */
    method RemoveMarker(mayCrash: bool) returns (r: Io)
      requires disk.Valid() && disk.Settled()
      requires disk.live.marker
      modifies disk
      ensures disk.Valid() && disk.Settled()
      ensures r.Done? || (r.Crashed? && mayCrash)
      ensures
        var removed := old(disk.live).(marker := false);
        if r.Done? then disk.live == removed else disk.live in {old(disk.live), removed}
    {
      disk.Do((f: Files) => f.(marker := false));
      var crashed := disk.MaybeCrash(mayCrash);
      if crashed { return Crashed; }
      disk.Sync((a, b) => SameDirectory(Cert, a, b));
      return Done;
    }

    /** Stages and installs a freshly generated pair. */
    method Generate(pair: nat, mayCrash: bool) returns (r: Io)
      requires disk.Valid() && disk.Settled()
      requires Recoverable(disk.live) && disk.live.key.Absent? && disk.live.cert.Absent?
      modifies disk
      ensures disk.Valid() && disk.Settled()
      ensures Recoverable(disk.live)
      ensures r.Crashed? ==> mayCrash
      ensures r.Failed? <==> old(disk.live) != NO_FILES
      ensures r.Failed? ==> disk.live == old(disk.live)
      ensures r.Done? ==> disk.live == Files(false, Absent, Absent, Whole(pair), Whole(pair))
    {
      if disk.live.keyStage != Absent || disk.live.certStage != Absent {
        return Failed;
      }
      r := WriteMarker(mayCrash);
      if !r.Done? { return; }
      r := WriteStage(Key, pair, mayCrash);
      if !r.Done? { return; }
      r := WriteStage(Cert, pair, mayCrash);
      if !r.Done? { return; }
      r := Install(Key, mayCrash);
      if !r.Done? { return; }
      r := Install(Cert, mayCrash);
      if !r.Done? { return; }
      r := RemoveMarker(mayCrash);
    }

    /** Drops both stages and then the marker. */
    method DiscardStages(mayCrash: bool) returns (r: Io)
      requires disk.Valid() && disk.Settled()
      requires Recoverable(disk.live) && disk.live.marker && disk.live.key.Absent? && disk.live.cert.Absent?
      modifies disk
      ensures disk.Valid() && disk.Settled()
      ensures Recoverable(disk.live) && Preserves(old(disk.live), disk.live)
      ensures r.Done? || (r.Crashed? && mayCrash)
      ensures r.Done? ==> disk.live == NO_FILES
    {
      r := RemoveStage(Key, mayCrash);
      if !r.Done? { return; }
      r := RemoveStage(Cert, mayCrash);
      if !r.Done? { return; }
      r := RemoveMarker(mayCrash);
    }

    /** Finishes one target of an interrupted generation: a leftover stage beside its final file
        is removed, a stage without a final file is installed. */
    method FinishTarget(t: Target, mayCrash: bool) returns (r: Io, present: bool)
      requires disk.Valid() && disk.Settled()
      modifies disk
      ensures disk.Valid() && disk.Settled()
      ensures r.Done? || (r.Crashed? && mayCrash)
      ensures r.Done? ==> (present <==> Final(old(disk.live), t) != Absent || Stage(old(disk.live), t) != Absent)
      ensures
        var start := old(disk.live);
        var final := if Final(start, t).Absent? then Stage(start, t) else Final(start, t);
        var linked := SetFinal(start, t, final);
        var done := SetStage(linked, t, Absent);
        if r.Done? then disk.live == done else disk.live in {start, linked, done}
    {
      present := false;
      var hasStage := Stage(disk.live, t) != Absent;
      if Final(disk.live, t) != Absent {
        present := true;
        r := Done;
        if hasStage {
          r := RemoveStage(t, mayCrash);
        }
      } else if hasStage {
        r := Install(t, mayCrash);
        present := true;
      } else {
        r := Done;
      }
    }

    /** Completes an interrupted generation, or discards it while no final file exists. */
    method RecoverGeneration(mayCrash: bool) returns (r: Io, complete: bool)
      requires disk.Valid() && disk.Settled()
      requires Recoverable(disk.live) && disk.live.marker
      modifies disk
      ensures disk.Valid() && disk.Settled()
      ensures Recoverable(disk.live) && Preserves(old(disk.live), disk.live)
      ensures r.Done? || (r.Crashed? && mayCrash)
      ensures r.Done? && complete ==> Complete(disk.live)
      ensures r.Done? && !complete ==> disk.live == NO_FILES
    {
      complete := false;
      var start := disk.live;
      var available := (if start.key != Absent || start.keyStage != Absent then 1 else 0)
                     + (if start.cert != Absent || start.certStage != Absent then 1 else 0);
      var finals := (if start.key != Absent then 1 else 0) + (if start.cert != Absent then 1 else 0);
      if available != 2 {
        if finals != 0 {
          return Failed, false;
        }
        r := DiscardStages(mayCrash);
        return;
      }
      var cert := if start.cert == Absent then start.certStage else start.cert;
      var key := if start.key == Absent then start.keyStage else start.key;
      if !(cert.Whole? && key == cert) {
        if finals == 0 {
          r := DiscardStages(mayCrash);
          return;
        }
        return Failed, false;
      }
      var keyPresent, certPresent;
      r, keyPresent := FinishTarget(Key, mayCrash);
      if !r.Done? { return; }
      r, certPresent := FinishTarget(Cert, mayCrash);
      if !r.Done? { return; }
      if keyPresent && certPresent {
        r := RemoveMarker(mayCrash);
        complete := true;
      } else {
        r := Failed;
      }
    }

    /** Entry point in self-signed mode: recover a marked generation, keep a complete pair, or
        generate one. It never reports an error in a state that a crash can leave. */
    method EnsureFiles(pair: nat, mayCrash: bool) returns (r: Io)
      requires disk.Valid() && disk.Settled()
      requires Recoverable(disk.live)
      modifies disk
      ensures disk.Valid() && disk.Settled()
      ensures Recoverable(disk.live) && Preserves(old(disk.live), disk.live)
      ensures r.Done? || (r.Crashed? && mayCrash)
      ensures r.Done? ==> Complete(disk.live)
    {
      if disk.live.marker {
        var complete;
        r, complete := RecoverGeneration(mayCrash);
        if !r.Done? || complete { return; }
        r := Generate(pair, mayCrash);
        return;
      }
      var certOk := disk.live.cert != Absent;
      var keyOk := disk.live.key != Absent;
      if certOk && keyOk {
        return Done;
      }
      if certOk || keyOk {
        return Failed;
      }
      r := Generate(pair, mayCrash);
    }

    /** Any crash schedule: from an empty store, |pairs| starts are cut off at arbitrary points,
        then one start runs to its end. It installs one pair, leaves no stage and no marker, and no
        start replaced a final file that an earlier one had put in place. */
    method AnyCrashSchedule(pairs: seq<nat>, last: nat) returns (history: seq<Files>)
      requires disk.Valid() && disk.Settled() && disk.live == NO_FILES
      modifies disk
      ensures Complete(disk.live) && disk.Settled()
      ensures |history| == |pairs| + 2 && history[|history| - 1] == disk.live
      ensures forall i :: 0 <= i < |history| ==> Recoverable(history[i])
      ensures forall i, j :: 0 <= i <= j < |history| ==> Preserves(history[i], history[j])
    {
      history := [disk.live];
      var r;
      for i := 0 to |pairs|
        invariant disk.Valid() && disk.Settled() && Recoverable(disk.live)
        invariant |history| == i + 1 && history[i] == disk.live
        invariant forall i :: 0 <= i < |history| ==> Recoverable(history[i])
        invariant forall i, j :: 0 <= i <= j < |history| ==> Preserves(history[i], history[j])
      {
        r := EnsureFiles(pairs[i], true);
        history := history + [disk.live];
      }
      r := EnsureFiles(last, false);
      history := history + [disk.live];
    }
  }
}
