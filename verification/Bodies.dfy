/** Reading one variant of a stored message back (internal/queue/body.go). */
module Bodies {
  import opened Octets
  import opened Options
  import opened Variants

  /** What the metadata says of the stored octets; without bodies the whole is the only variant. */
  datatype Manifest = Manifest(size: nat, digest: string, bodies: seq<Body>)

  /** A body as the metadata describes it. */
  predicate BodyIntact(b: Body, file: Octets, digest: Octets -> string) {
    0 <= b.offset && 0 <= b.size && b.offset + b.size <= |file| && digest(Slice(file, b)) == b.digest
  }

  /** A file as the metadata describes it. */
  predicate Intact(m: Manifest, file: Octets, digest: Octets -> string) {
    && |file| == m.size && digest(file) == m.digest
    && forall n :: 0 <= n < |m.bodies| ==> BodyIntact(m.bodies[n], file, digest)
  }

  /** The bodies of the metadata cover the data, as validation has made sure. */
  predicate ManifestOk(m: Manifest) {
    m.bodies == [] || Tiles(m.bodies, m.size)
  }

  /** Reads the octets of a body from where the last one ended, and compares their digest. */
  method VerifyBody(b: Body, file: Octets, end: int, digest: Octets -> string) returns (ok: bool)
    requires b.offset == end && 0 <= end && 0 <= b.size && end + b.size <= |file|
    ensures ok <==> BodyIntact(b, file, digest)
  {
    return digest(file[end..end + b.size]) == b.digest;
  }

  lemma BodyRange(bodies: seq<Body>, file: Octets, n: nat)
    requires Tiles(bodies, |file|) && n < |bodies|
    ensures
      var b := bodies[n];
      b.offset == EndAt(bodies, n) && 0 <= b.offset && 0 <= b.size && b.offset + b.size <= |file|
  {
    assert TileAt(bodies, n);
    SliceInside(bodies, |file|, n);
  }

  /** Verifies body after body. */
  method VerifyBodies(bodies: seq<Body>, file: Octets, digest: Octets -> string) returns (ok: bool)
    requires Tiles(bodies, |file|)
    ensures ok <==> forall k :: 0 <= k < |bodies| ==> BodyIntact(bodies[k], file, digest)
  {
    for n := 0 to |bodies|
      invariant forall k :: 0 <= k < n ==> BodyIntact(bodies[k], file, digest)
    {
      BodyRange(bodies, file, n);
      ok := VerifyBody(bodies[n], file, EndAt(bodies, n), digest);
      if !ok { return; }
    }
    return true;
  }

  /** Verifies the whole file and every body of it. */
  method VerifyFile(m: Manifest, file: Octets, digest: Octets -> string) returns (ok: bool)
    requires ManifestOk(m)
    ensures ok <==> Intact(m, file, digest)
  {
    if |file| != m.size { return false; }
    ok := true;
    if m.bodies != [] {
      ok := VerifyBodies(m.bodies, file, digest);
    }
    return ok && digest(file) == m.digest;
  }

  datatype Status = More | Eof | Corrupt

  function Min(a: int, b: int): int {
    if a < b then a else b
  }

  /** A reader of one variant that counts and digests what passes through it. `file` is what the disk holds
      while it reads, whatever was stored. */
  class Reader {
    const file: Octets
    const start: nat
    const size: nat
    const whole: bool
    const expected: string
    const digest: Octets -> string
    var remaining: nat
    /** What has passed, as the running digest knows it. */
    var passed: Octets
    var verified: bool

    ghost predicate Valid() reads this {
      && |passed| + remaining == size
      && (passed == [] || (start + |passed| <= |file| && passed == file[start..start + |passed|]))
      && (verified ==> remaining == 0 && Matches())
    }

    /** What has passed is what the metadata promises; a whole file must not have grown. */
    ghost predicate Matches() reads this {
      digest(passed) == expected && !(whole && start + |passed| < |file|)
    }

    /** The file holds what this reader is to read. */
    ghost predicate Sound() reads this {
      && start + size <= |file| && digest(file[start..start + size]) == expected
      && (whole ==> start + size == |file|)
    }

    constructor (
      file: Octets, start: nat, size: nat, whole: bool, expected: string, digest: Octets -> string)
      ensures Valid() && remaining == size && passed == [] && !verified
      ensures this.file == file && this.start == start && this.size == size && this.whole == whole
      ensures this.expected == expected && this.digest == digest
    {
      this.file, this.start, this.size, this.whole := file, start, size, whole;
      this.expected, this.digest := expected, digest;
      remaining, passed, verified := size, [], false;
    }

    /** The octets that a read hands over: no more than are asked for, than remain, than the system gives at
        once, and than the file holds. */
    function Portion(max: nat, chunk: nat): (out: Octets)
      reads this
      ensures |out| <= max && |out| <= remaining
    {
      var at := start + |passed|;
      if at >= |file| then [] else file[at..at + Min(Min(max, remaining), Min(chunk, |file| - at))]
    }

    /** Reads some octets. The end is reported only after the digest of everything read has matched;
        corruption exactly when the file ends early, has grown, or has another digest. `eager` says that
        the system reports a file that is too short together with its last octets; with the last octets that
        are wanted, files and sections of files never report the end. */
    method Read(max: nat, chunk: nat, eager: bool) returns (out: Octets, status: Status)
      requires Valid()
      modifies `remaining, `passed, `verified
      ensures Valid() && passed == old(passed) + out && remaining == old(remaining) - |out|
      ensures old(verified) ==> out == [] && status.Eof? && verified
      ensures !old(verified) && old(remaining) == 0 ==> out == [] && status == (if Matches() then Eof else Corrupt)
      ensures !old(verified) && old(remaining) > 0 ==>
        && out == old(Portion(max, chunk))
        && status == if EndsEarly(max, out, eager) then Corrupt else More
      ensures verified <==> status.Eof?
    {
      if verified { return [], Eof; }
      if remaining == 0 {
        if whole && start + |passed| < |file| { return [], Corrupt; }
        if digest(passed) != expected { return [], Corrupt; }
        verified := true;
        return [], Eof;
      }
      var at := start + |passed|;
      out := Portion(max, chunk);
      var ended := max > 0 && at + |out| >= |file| && (out == [] || eager);
      Joined(at, out);
      passed, remaining := passed + out, remaining - |out|;
      status := if ended && remaining != 0 then Corrupt else More;
    }

    /** What a read hands over continues what has passed. */
    lemma Joined(at: nat, out: Octets)
      requires Valid() && at == start + |passed| && (out == [] || (at + |out| <= |file| && out == file[at..at + |out|]))
      ensures passed + out == [] || (at + |out| <= |file| && passed + out == file[start..at + |out|])
    {
      if passed != [] && out != [] {
        assert file[start..at] + file[at..at + |out|] == file[start..at + |out|];
      }
    }

    /** The file ended although octets are missing. */
    ghost predicate EndsEarly(max: nat, out: Octets, eager: bool)
      reads this
    {
      remaining != 0 && max > 0 && start + |passed| >= |file| && (out == [] || eager)
    }

    /** Reads on until something other than more octets comes. A reported end hands over octets with the
        expected digest; and a sound file is read to its end, if the system gives at least one octet at a time
        and is asked often enough. */
    method ReadAll(chunks: seq<nat>, max: nat, eager: bool) returns (out: Octets, status: Status)
      requires Valid() && passed == [] && !verified && max > 0
      modifies `remaining, `passed, `verified
      ensures Valid() && out == passed && (verified <==> status.Eof?)
      ensures status.Eof? ==> |out| == size && digest(out) == expected
      ensures Sound() && (forall i :: 0 <= i < |chunks| ==> chunks[i] > 0) && |chunks| > size ==>
        status.Eof? && out == file[start..start + size]
    {
      out, status := [], More;
      for i := 0 to |chunks|
        invariant Valid() && out == passed && !verified && status.More?
        invariant Sound() && (forall k :: 0 <= k < |chunks| ==> chunks[k] > 0) ==> |passed| >= i
      {
        var piece;
        piece, status := Read(max, chunks[i], eager);
        out := out + piece;
        if !status.More? {
          if Sound() { NotShort(max, piece, eager); }
          return;
        }
      }
    }

    /** A sound file does not end early, and what has passed at its end is what it holds. */
    lemma NotShort(max: nat, out: Octets, eager: bool)
      requires Valid() && Sound()
      ensures !EndsEarly(max, out, eager) && (remaining == 0 ==> passed == file[start..start + size] && Matches())
    {
    }
  }

  /** Opens variant n of a stored message: `checked` is the file as it is verified, `file` as it is read. */
  method ReaderVariant(m: Manifest, checked: Octets, file: Octets, n: int, digest: Octets -> string)
    returns (r: Option<Reader>)
    requires ManifestOk(m)
    ensures r.Some? <==> Intact(m, checked, digest) && (if m.bodies == [] then n == 0 else 0 <= n < |m.bodies|)
    ensures r.Some? ==> fresh(r.value) && r.value.Valid() && r.value.passed == [] && !r.value.verified
    ensures r.Some? ==> r.value.file == file && r.value.digest == digest
    ensures r.Some? ==>
      if m.bodies == [] then
        r.value.start == 0 && r.value.size == m.size && r.value.whole && r.value.expected == m.digest
      else
        var b := m.bodies[n];
        r.value.start == b.offset && r.value.size == b.size && !r.value.whole && r.value.expected == b.digest
  {
    var ok := VerifyFile(m, checked, digest);
    if !ok { return None; }
    var reader;
    if m.bodies != [] {
      if n < 0 || n >= |m.bodies| { return None; }
      var b := m.bodies[n];
      reader := new Reader(file, b.offset, b.size, false, b.digest, digest);
    } else {
      if n != 0 { return None; }
      reader := new Reader(file, 0, m.size, true, m.digest, digest);
    }
    return Some(reader);
  }

  // ---------- from preparing to reading ----------

  /** The metadata of a prepared bundle. */
  function ManifestOf(b: Bundle, digest: Octets -> string): Manifest {
    Manifest(|b.data|, digest(b.data), Listed(b))
  }

  /** A prepared bundle is intact as it is stored. */
  lemma PreparedIsIntact(
    keys: seq<Key>, made: seq<Variant>, digest: Octets -> string, b: Bundle, variants: map<Key, int>)
    requires |made| == |keys| && Progress(keys, made, digest, b, variants, |keys|)
    ensures ManifestOk(ManifestOf(b, digest)) && Intact(ManifestOf(b, digest), b.data, digest)
  {
    var bodies := Listed(b);
    forall n | 0 <= n < |bodies| ensures BodyIntact(bodies[n], b.data, digest) {
      SliceInside(b.bodies, |b.data|, n);
      assert n in b.indexes;
      var k :| 0 <= k < |b.indexes| && b.indexes[k] == n;
      assert Holds(b, variants[keys[k]], Chosen(keys, made, |keys|)[keys[k]], digest);
    }
  }

  /** Reads the variant of recipient i from a file that held the bundle when it was opened. On an unchanged file
      the result is exactly the octets prepared for the recipient's key, if the system gives at least one octet
      at a time; on any other file an end that is reported hands over nothing else, provided that different
      octets have different digests. */
  method ReadRecipient(
    keys: seq<Key>, made: seq<Variant>, digest: Octets -> string, b: Bundle, variants: map<Key, int>, i: nat,
    file: Octets, chunks: seq<nat>, max: nat, eager: bool)
    returns (out: Octets, status: Status)
    requires |made| == |keys| && i < |keys| && Progress(keys, made, digest, b, variants, |keys|) && max > 0
    ensures keys[i] in Chosen(keys, made, |keys|)
    ensures
      var data := Chosen(keys, made, |keys|)[keys[i]].data;
      file == b.data && (forall k :: 0 <= k < |chunks| ==> chunks[k] > 0) && |chunks| > |data| ==>
        status.Eof? && out == data
    ensures
      var data := Chosen(keys, made, |keys|)[keys[i]].data;
      status.Eof? && (forall x, y :: digest(x) == digest(y) ==> x == y) ==> out == data
  {
    PreparedIsIntact(keys, made, digest, b, variants);
    ExpectsPrepared(keys, made, digest, b, variants, i);
    ghost var data := Chosen(keys, made, |keys|)[keys[i]].data;
    out, status := ReadVariant(ManifestOf(b, digest), b.data, file, b.indexes[i], digest, data, chunks, max, eager);
  }

  /** Opens and reads variant n, which was stored as `data`. */
  method ReadVariant(
    m: Manifest, checked: Octets, file: Octets, n: int, digest: Octets -> string, ghost data: Octets,
    chunks: seq<nat>, max: nat, eager: bool)
    returns (out: Octets, status: Status)
    requires ManifestOk(m) && Intact(m, checked, digest) && Stored(m.bodies, checked, n) == Some(data) && max > 0
    ensures file == checked && (forall k :: 0 <= k < |chunks| ==> chunks[k] > 0) && |chunks| > |data| ==>
      status.Eof? && out == data
    ensures status.Eof? && (forall x, y :: digest(x) == digest(y) ==> x == y) ==> out == data
  {
    var reader := ReaderVariant(m, checked, file, n, digest);
    StoredRange(m, checked, n, digest, data);
    ghost var r := reader.value;
    assert file == checked ==> file[r.start..r.start + r.size] == data && r.Sound();
    assert r.size == |data| && r.expected == digest(data);
    out, status := reader.value.ReadAll(chunks, max, eager);
  }

  /** Where a variant lies, and its digest. */
  lemma StoredRange(m: Manifest, checked: Octets, n: int, digest: Octets -> string, data: Octets)
    requires Intact(m, checked, digest) && Stored(m.bodies, checked, n) == Some(data)
    ensures
      if m.bodies == [] then n == 0 && m.size == |data| && m.digest == digest(data) && checked[0..m.size] == data
      else
        && 0 <= n < |m.bodies| && BodyIntact(m.bodies[n], checked, digest)
        && m.bodies[n].size == |data| && m.bodies[n].digest == digest(data) && Slice(checked, m.bodies[n]) == data
  {
    if m.bodies != [] {
      assert BodyIntact(m.bodies[n], checked, digest);
    }
  }

  /** What the metadata says of a recipient's variant is what was prepared for its key. */
  lemma ExpectsPrepared(
    keys: seq<Key>, made: seq<Variant>, digest: Octets -> string, b: Bundle, variants: map<Key, int>, i: nat)
    requires |made| == |keys| && i < |keys| && Progress(keys, made, digest, b, variants, |keys|)
    ensures keys[i] in Chosen(keys, made, |keys|) && |b.indexes| == |keys|
    ensures
      var data := Chosen(keys, made, |keys|)[keys[i]].data;
      Stored(ManifestOf(b, digest).bodies, b.data, b.indexes[i]) == Some(data)
  {
    PreparedIsValid(keys, made, digest, b, variants, i);
  }
}
