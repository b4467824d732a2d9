/** Message variants: how a submission bundles one body per recipient key (internal/smtpd/data.go), and what
    the queue checks of the bundle (internal/queue/validation.go). */
module Variants {
  import opened Options
  import opened Octets

  /** Which variant a recipient gets: the plain text, or the one for its encryption key. */
  datatype Key = Plaintext | Keyed(id: string)

  /** A body of the bundle: where it lies, and the digest of its octets. */
  datatype Body = Body(offset: int, size: int, digest: string, eightBit: bool)

  /** What was prepared for one key: the octets, and whether they need 8BITMIME. */
  datatype Variant = Variant(data: Octets, eightBit: bool)

  datatype Bundle = Bundle(data: Octets, bodies: seq<Body>, indexes: seq<int>)

  /** The variant of each key among the first i recipients: what was made for the first of them. */
  function Chosen(keys: seq<Key>, made: seq<Variant>, i: nat): map<Key, Variant>
    requires |made| == |keys| && i <= |keys|
  {
    if i == 0 then map[]
    else
      var before := Chosen(keys, made, i - 1);
      if keys[i - 1] in before then before else before[keys[i - 1] := made[i - 1]]
  }

  /** How big the chosen variants are together. */
  function Size(keys: seq<Key>, made: seq<Variant>, i: nat): nat
    requires |made| == |keys| && i <= |keys|
  {
    if i == 0 then 0
    else Size(keys, made, i - 1) + if keys[i - 1] in keys[..i - 1] then 0 else |made[i - 1].data|
  }

  lemma {:induction false} SizeGrows(keys: seq<Key>, made: seq<Variant>, i: nat, n: nat)
    requires |made| == |keys| && i <= n <= |keys|
    ensures Size(keys, made, i) <= Size(keys, made, n)
    decreases n
  {
    if i < n { SizeGrows(keys, made, i, n - 1); }
  }

  /** A recipient's variant is the one made for the first recipient with the same key. */
  lemma {:induction false} ChosenFirst(keys: seq<Key>, made: seq<Variant>, i: nat, j: nat)
    requires |made| == |keys| && j < i <= |keys| && forall k :: 0 <= k < j ==> keys[k] != keys[j]
    ensures keys[j] in Chosen(keys, made, i) && Chosen(keys, made, i)[keys[j]] == made[j]
    decreases i
  {
    if i - 1 > j {
      ChosenFirst(keys, made, i - 1, j);
    } else {
      NotChosen(keys, made, j, keys[j]);
    }
  }

  lemma {:induction false} NotChosen(keys: seq<Key>, made: seq<Variant>, i: nat, key: Key)
    requires |made| == |keys| && i <= |keys| && forall k :: 0 <= k < i ==> keys[k] != key
    ensures key !in Chosen(keys, made, i)
    decreases i
  {
    if i > 0 { NotChosen(keys, made, i - 1, key); }
  }

  /** The octets of one body. */
  function Slice(data: Octets, b: Body): Octets
    requires 0 <= b.offset && 0 <= b.size && b.offset + b.size <= |data|
  {
    data[b.offset..b.offset + b.size]
  }

  /** Where body n must start: where the body before it ends. */
  function EndAt(bodies: seq<Body>, n: int): int
    requires 0 <= n <= |bodies|
  {
    if n == 0 then 0 else bodies[n - 1].offset + bodies[n - 1].size
  }

  /** The bodies follow one another without a gap, none is empty, and they end where the data ends. */
  predicate Tiles(bodies: seq<Body>, size: int) {
    EndAt(bodies, |bodies|) == size && forall n :: 0 <= n < |bodies| ==> TileAt(bodies, n)
  }

  predicate TileAt(bodies: seq<Body>, n: int)
    requires 0 <= n < |bodies|
  {
    bodies[n].size > 0 && bodies[n].offset == EndAt(bodies, n)
  }

  lemma {:induction false} EndsGrow(bodies: seq<Body>, m: int, n: int)
    requires 0 <= m <= n <= |bodies|
    requires forall k :: 0 <= k < n ==> TileAt(bodies, k)
    ensures 0 <= EndAt(bodies, m) <= EndAt(bodies, n)
    decreases n
  {
    if n > 0 { assert TileAt(bodies, n - 1); }
    if m < n {
      EndsGrow(bodies, m, n - 1);
    } else if n > 0 {
      EndsGrow(bodies, 0, n - 1);
    }
  }

  lemma SliceInside(bodies: seq<Body>, size: int, n: int)
    requires Tiles(bodies, size) && 0 <= n < |bodies|
    ensures 0 <= bodies[n].offset && 0 < bodies[n].size && bodies[n].offset + bodies[n].size <= size
  {
    assert TileAt(bodies, n);
    EndsGrow(bodies, n, |bodies|);
    EndsGrow(bodies, n + 1, |bodies|);
  }

  // ---------- preparing ----------

  /** The recipients point to the bodies of their keys. */
  ghost predicate Pointed(keys: seq<Key>, indexes: seq<int>, variants: map<Key, int>, i: nat)
    requires i <= |keys|
  {
    |indexes| == i && forall k :: 0 <= k < i ==> keys[k] in variants && indexes[k] == variants[keys[k]]
  }

  /** The bodies of the keys are the chosen variants. */
  ghost predicate Bundled(b: Bundle, variants: map<Key, int>, chosen: map<Key, Variant>, digest: Octets -> string) {
    variants.Keys == chosen.Keys && forall key :: key in variants ==> Holds(b, variants[key], chosen[key], digest)
  }

  /** Every body is some recipient's. */
  predicate AllUsed(n: int, indexes: seq<int>) {
    forall k :: 0 <= k < n ==> k in indexes
  }

  /** The bodies tile the data, and every one is some recipient's. */
  predicate Packed(b: Bundle) {
    && Tiles(b.bodies, |b.data|) && |b.bodies| <= |b.indexes| && (b.indexes != [] ==> b.bodies != [])
    && AllUsed(|b.bodies|, b.indexes)
  }

  /** Body n of the bundle is this variant. */
  predicate Holds(b: Bundle, n: int, v: Variant, digest: Octets -> string) {
    && 0 <= n < |b.bodies|
    && var body := b.bodies[n];
      && 0 <= body.offset && 0 <= body.size && body.offset + body.size <= |b.data|
      && Slice(b.data, body) == v.data && body.digest == digest(v.data) && body.eightBit == v.eightBit
  }

  function Append(b: Bundle, v: Variant, digest: Octets -> string): Bundle {
    Bundle(b.data + v.data, b.bodies + [Body(|b.data|, |v.data|, digest(v.data), v.eightBit)], b.indexes + [|b.bodies|])
  }

  lemma AppendTiles(b: Bundle, v: Variant, digest: Octets -> string)
    requires Tiles(b.bodies, |b.data|) && v.data != []
    ensures var c := Append(b, v, digest); Tiles(c.bodies, |c.data|) && Holds(c, |b.bodies|, v, digest)
  {
    var c := Append(b, v, digest);
    var m := |b.bodies|;
    forall n | 0 <= n < |c.bodies| ensures TileAt(c.bodies, n) {
      assert n < |b.bodies| ==> TileAt(b.bodies, n);
      assert n > 0 ==> c.bodies[n - 1] == b.bodies[n - 1];
    }
    assert Slice(c.data, c.bodies[m]) == v.data;
  }

  lemma AppendHolds(b: Bundle, v: Variant, digest: Octets -> string, n: int, u: Variant)
    requires Holds(b, n, u, digest)
    ensures Holds(Append(b, v, digest), n, u, digest)
  {
    var c := Append(b, v, digest);
    assert c.bodies[n] == b.bodies[n];
    assert Slice(c.data, c.bodies[n]) == Slice(b.data, b.bodies[n]);
  }

  predicate Extends(variants: map<Key, int>, variants': map<Key, int>) {
    forall k :: k in variants ==> k in variants' && variants'[k] == variants[k]
  }

  /** More than one body must fit the size limit together. */
  predicate Fits(b: Bundle, max: int) {
    |b.bodies| <= 1 || |b.data| <= max
  }

  /** The variant of a key is the one made for its first recipient. */
  function Choose(chosen: map<Key, Variant>, key: Key, v: Variant): map<Key, Variant> {
    if key in chosen then chosen else chosen[key := v]
  }

  /** What one more recipient changes. */
  predicate Added(key: Key, v: Variant, b: Bundle, variants: map<Key, int>, b': Bundle, variants': map<Key, int>) {
    && |b'.data| == |b.data| + (if key in variants then 0 else |v.data|)
    && |b'.bodies| == |b.bodies| + (if key in variants then 0 else 1)
    && key in variants' && b'.indexes == b.indexes + [variants'[key]] && Extends(variants, variants')
  }

  /** Takes up one more recipient: its key's body is known, or its variant is added to the bundle. */
  method AddRecipient(key: Key, v: Variant, digest: Octets -> string, max: int, b: Bundle, variants: map<Key, int>,
                      ghost chosen: map<Key, Variant>)
    returns (ok: bool, b': Bundle, variants': map<Key, int>, ghost chosen': map<Key, Variant>)
    requires v.data != [] && Packed(b) && Bundled(b, variants, chosen, digest)
    ensures chosen' == Choose(chosen, key, v)
    ensures ok ==> Packed(b') && Bundled(b', variants', chosen', digest) && Added(key, v, b, variants, b', variants')
    ensures ok && Fits(b, max) ==> Fits(b', max)
    ensures !ok ==> key !in chosen && |b.data| + |v.data| > max && b.bodies != []
  {
    chosen' := Choose(chosen, key, v);
    if key in variants {
      b', variants' := b.(indexes := b.indexes + [variants[key]]), variants;
      assert Holds(b, variants[key], chosen[key], digest);
      MoreUsed(|b.bodies|, b.indexes, variants[key]);
      SameBundled(b, variants[key], variants, chosen, digest);
      return true, b', variants', chosen';
    }
    if |b.bodies| != 0 && |b.data| + |v.data| > max {
      return false, b, variants, chosen';
    }
    NewBundled(b, key, v, variants, chosen, digest);
    NewPacked(b, v, digest);
    return true, Append(b, v, digest), variants[key := |b.bodies|], chosen';
  }

  lemma PointedMore(keys: seq<Key>, indexes: seq<int>, variants: map<Key, int>, variants': map<Key, int>, i: nat)
    requires i < |keys| && Pointed(keys, indexes, variants, i)
    requires keys[i] in variants' && Extends(variants, variants')
    ensures Pointed(keys, indexes + [variants'[keys[i]]], variants', i + 1)
  {
  }

  lemma SameBundled(b: Bundle, x: int, variants: map<Key, int>, chosen: map<Key, Variant>, digest: Octets -> string)
    requires Bundled(b, variants, chosen, digest)
    ensures Bundled(b.(indexes := b.indexes + [x]), variants, chosen, digest)
  {
    forall key | key in variants ensures Holds(b.(indexes := b.indexes + [x]), variants[key], chosen[key], digest) {
      assert Holds(b, variants[key], chosen[key], digest);
    }
  }

  lemma NewBundled(b: Bundle, key: Key, v: Variant, variants: map<Key, int>, chosen: map<Key, Variant>,
                   digest: Octets -> string)
    requires Bundled(b, variants, chosen, digest) && key !in variants && Tiles(b.bodies, |b.data|) && v.data != []
    ensures Bundled(Append(b, v, digest), variants[key := |b.bodies|], chosen[key := v], digest)
  {
    var c := Append(b, v, digest);
    var after, picked := variants[key := |b.bodies|], chosen[key := v];
    AppendTiles(b, v, digest);
    forall k | k in after ensures Holds(c, after[k], picked[k], digest) {
      if k != key { AppendHolds(b, v, digest, variants[k], chosen[k]); }
    }
  }

  /** What the loop has done for the first i recipients. */
  ghost predicate Progress(keys: seq<Key>, made: seq<Variant>, digest: Octets -> string, b: Bundle,
                           variants: map<Key, int>, i: nat)
    requires |made| == |keys| && i <= |keys|
  {
    Packed(b) && Pointed(keys, b.indexes, variants, i) && Bundled(b, variants, Chosen(keys, made, i), digest)
  }

  lemma ChosenStep(keys: seq<Key>, made: seq<Variant>, i: nat)
    requires |made| == |keys| && i < |keys|
    ensures Chosen(keys, made, i + 1) == Choose(Chosen(keys, made, i), keys[i], made[i])
  {
  }

  lemma Proceed(keys: seq<Key>, made: seq<Variant>, digest: Octets -> string, indexes: seq<int>,
                variants: map<Key, int>, b: Bundle, variants': map<Key, int>, chosen: map<Key, Variant>, i: nat)
    requires |made| == |keys| && i < |keys| && Pointed(keys, indexes, variants, i)
    requires Packed(b) && Bundled(b, variants', chosen, digest) && Extends(variants, variants')
    requires keys[i] in variants' && b.indexes == indexes + [variants'[keys[i]]]
    requires chosen == Choose(Chosen(keys, made, i), keys[i], made[i])
    ensures Progress(keys, made, digest, b, variants', i + 1)
  {
    PointedMore(keys, indexes, variants, variants', i);
    ChosenStep(keys, made, i);
  }

  lemma AnotherKey(keys: seq<Key>, made: seq<Variant>, digest: Octets -> string, b: Bundle, variants: map<Key, int>,
                   i: nat)
    requires |made| == |keys| && i < |keys| && Progress(keys, made, digest, b, variants, i)
    requires b.bodies != [] && keys[i] !in Chosen(keys, made, i)
    ensures 0 < i && keys[i] != keys[0]
  {
    assert 0 in b.indexes;
    assert keys[0] in variants;
  }

  /** Some of the first i keys differ. */
  predicate Mixed(keys: seq<Key>, i: nat)
    requires i <= |keys|
  {
    exists k :: 0 < k < i && keys[k] != keys[0]
  }

  /** Different keys have different bodies. */
  lemma MoreBodies(keys: seq<Key>, made: seq<Variant>, digest: Octets -> string, b: Bundle, variants: map<Key, int>,
                   i: nat, n: nat)
    requires |made| == |keys| && i < |keys| && Progress(keys, made, digest, b, variants, i)
    requires n == |b.bodies| + (if keys[i] in Chosen(keys, made, i) then 0 else 1)
    requires Mixed(keys, i) ==> |b.bodies| > 1
    ensures Mixed(keys, i + 1) ==> n > 1
  {
    if Mixed(keys, i + 1) && !Mixed(keys, i) {
      ChosenKeys(keys, made, i, keys[i]);
      assert b.indexes != [];
    }
  }

  /** What the next recipient adds, and that it is not undone. */
  lemma SizeStep(keys: seq<Key>, made: seq<Variant>, i: nat)
    requires |made| == |keys| && i < |keys|
    ensures Size(keys, made, i + 1) ==
      Size(keys, made, i) + if keys[i] in Chosen(keys, made, i) then 0 else |made[i].data|
    ensures Size(keys, made, i + 1) <= Size(keys, made, |keys|)
  {
    ChosenKeys(keys, made, i, keys[i]);
    SizeGrows(keys, made, i + 1, |keys|);
  }

  lemma {:induction false} ChosenKeys(keys: seq<Key>, made: seq<Variant>, i: nat, key: Key)
    requires |made| == |keys| && i <= |keys|
    ensures key in Chosen(keys, made, i) <==> key in keys[..i]
    decreases i
  {
    if i > 0 {
      ChosenKeys(keys, made, i - 1, key);
      assert keys[..i] == keys[..i - 1] + [keys[i - 1]];
    }
  }

  /** Bundles one variant for every key among the recipients, in order of first use; `made` is what
      encryption and signing produce for each recipient. Nothing is bundled when together they are too big. */
  method PrepareVariants(keys: seq<Key>, made: seq<Variant>, digest: Octets -> string, max: int)
    returns (r: Option<Bundle>, variants: map<Key, int>)
    requires |made| == |keys| && forall i :: 0 <= i < |made| ==> made[i].data != []
    ensures r.Some? ==> Progress(keys, made, digest, r.value, variants, |keys|) && Fits(r.value, max)
    ensures r.Some? ==> |r.value.data| == Size(keys, made, |keys|)
    ensures r.None? <==> Size(keys, made, |keys|) > max && Mixed(keys, |keys|)
  {
    variants := map[];
    var b := Bundle([], [], []);
    for i := 0 to |keys|
      invariant Going(keys, made, digest, max, b, variants, i)
    {
      var ok;
      ok, b, variants := AddNext(keys, made, digest, max, b, variants, i);
      if !ok { return None, variants; }
    }
    return Some(b), variants;
  }

  /** One round of the loop. */
  method AddNext(keys: seq<Key>, made: seq<Variant>, digest: Octets -> string, max: int, b: Bundle,
                 variants: map<Key, int>, i: nat)
    returns (ok: bool, b': Bundle, variants': map<Key, int>)
    requires |made| == |keys| && i < |keys| && made[i].data != []
    requires Going(keys, made, digest, max, b, variants, i)
    ensures ok ==> Going(keys, made, digest, max, b', variants', i + 1)
    ensures !ok ==> Size(keys, made, |keys|) > max && Mixed(keys, |keys|)
  {
    ghost var chosen;
    ok, b', variants', chosen := AddRecipient(keys[i], made[i], digest, max, b, variants, Chosen(keys, made, i));
    if ok {
      GoesOn(keys, made, digest, max, b, variants, b', variants', chosen, i);
    } else {
      Refused(keys, made, digest, max, b, variants, i);
    }
  }

  /** What the loop knows: progress, the size so far, and that different keys have different bodies. */
  ghost predicate Going(keys: seq<Key>, made: seq<Variant>, digest: Octets -> string, max: int, b: Bundle,
                        variants: map<Key, int>, i: nat)
    requires |made| == |keys| && i <= |keys|
  {
    && Progress(keys, made, digest, b, variants, i) && Fits(b, max)
    && |b.data| == Size(keys, made, i) && (Mixed(keys, i) ==> |b.bodies| > 1)
  }

  lemma GoesOn(keys: seq<Key>, made: seq<Variant>, digest: Octets -> string, max: int, b: Bundle,
               variants: map<Key, int>, b': Bundle, variants': map<Key, int>, chosen: map<Key, Variant>, i: nat)
    requires |made| == |keys| && i < |keys| && Going(keys, made, digest, max, b, variants, i)
    requires Packed(b') && Bundled(b', variants', chosen, digest) && Fits(b', max)
    requires Added(keys[i], made[i], b, variants, b', variants')
    requires chosen == Choose(Chosen(keys, made, i), keys[i], made[i])
    ensures Going(keys, made, digest, max, b', variants', i + 1)
  {
    SizeStep(keys, made, i);
    MoreBodies(keys, made, digest, b, variants, i, |b'.bodies|);
    Proceed(keys, made, digest, b.indexes, variants, b', variants', chosen, i);
  }

  lemma Refused(keys: seq<Key>, made: seq<Variant>, digest: Octets -> string, max: int, b: Bundle,
                variants: map<Key, int>, i: nat)
    requires |made| == |keys| && i < |keys| && Going(keys, made, digest, max, b, variants, i)
    requires keys[i] !in Chosen(keys, made, i) && |b.data| + |made[i].data| > max && b.bodies != []
    ensures Size(keys, made, |keys|) > max && Mixed(keys, |keys|)
  {
    SizeStep(keys, made, i);
    AnotherKey(keys, made, digest, b, variants, i);
  }

  lemma MoreUsed(n: int, indexes: seq<int>, x: int)
    requires AllUsed(n, indexes)
    ensures AllUsed(n, indexes + [x]) && AllUsed(n + 1, indexes + [n])
  {
    assert (indexes + [n])[|indexes|] == n;
  }

  lemma NewPacked(b: Bundle, v: Variant, digest: Octets -> string)
    requires Packed(b) && v.data != []
    ensures Packed(Append(b, v, digest))
  {
    AppendTiles(b, v, digest);
    MoreUsed(|b.bodies|, b.indexes, 0);
  }

  // ---------- what the queue checks ----------

  /** The bodies that the envelope carries: a single body is the whole data and is not listed. */
  function Listed(b: Bundle): seq<Body> {
    if |b.bodies| > 1 then b.bodies else []
  }

  /** Recipients refer to listed bodies, or to the whole data when none is listed. */
  predicate Referred(n: int, indexes: seq<int>) {
    forall k :: 0 <= k < |indexes| ==> if n == 0 then indexes[k] == 0 else 0 <= indexes[k] < n
  }

  method CheckRanges(bodies: seq<Body>, size: int) returns (ok: bool)
    ensures ok <==> bodies == [] || Tiles(bodies, size)
  {
    var end := 0;
    for n := 0 to |bodies|
      invariant end == EndAt(bodies, n)
      invariant forall k :: 0 <= k < n ==> TileAt(bodies, k)
    {
      if bodies[n].offset != end || bodies[n].size <= 0 {
        assert !TileAt(bodies, n);
        return false;
      }
      if bodies[n].size > size - bodies[n].offset {
        TooFar(bodies, size, n);
        return false;
      }
      end := end + bodies[n].size;
    }
    return |bodies| == 0 || end == size;
  }

  method CheckIndexes(n: int, indexes: seq<int>) returns (ok: bool, used: set<int>)
    requires 0 <= n
    ensures ok <==> Referred(n, indexes)
    ensures ok && n > 0 ==> used == set k | 0 <= k < |indexes| :: indexes[k]
  {
    used := {};
    for k := 0 to |indexes|
      invariant forall j :: 0 <= j < k ==> if n == 0 then indexes[j] == 0 else 0 <= indexes[j] < n
      invariant n > 0 ==> used == set j | 0 <= j < k :: indexes[j]
    {
      if n == 0 {
        if indexes[k] != 0 { return false, used; }
      } else {
        if indexes[k] < 0 || indexes[k] >= n { return false, used; }
        used := used + {indexes[k]};
      }
    }
    return true, used;
  }

  /** The queue's checks of body ranges and references. */
  method ValidateBodies(bodies: seq<Body>, size: int, indexes: seq<int>) returns (ok: bool)
    ensures ok <==> BodiesOk(bodies, size, indexes)
  {
    if |bodies| > |indexes| { return false; }
    ok := CheckRanges(bodies, size);
    if !ok { return; }
    var used;
    ok, used := CheckIndexes(|bodies|, indexes);
    if !ok { return; }
    assert |bodies| > 0 ==> forall k :: 0 <= k < |indexes| ==> indexes[k] in used;
    for n := 0 to |bodies|
      invariant forall k :: 0 <= k < n ==> k in indexes
    {
      if n !in used {
        assert n !in indexes;
        return false;
      }
    }
    return true;
  }

  predicate BodiesOk(bodies: seq<Body>, size: int, indexes: seq<int>) {
    && |bodies| <= |indexes| && (bodies == [] || Tiles(bodies, size))
    && Referred(|bodies|, indexes) && AllUsed(|bodies|, indexes)
  }

  /** A prepared bundle passes the queue's checks, and what is stored for a recipient is the variant chosen
      for its key. */
  lemma PreparedIsValid(keys: seq<Key>, made: seq<Variant>, digest: Octets -> string, b: Bundle,
                        variants: map<Key, int>, i: nat)
    requires |made| == |keys| && i < |keys| && Progress(keys, made, digest, b, variants, |keys|)
    ensures BodiesOk(Listed(b), |b.data|, b.indexes)
    ensures keys[i] in Chosen(keys, made, |keys|)
    ensures Stored(Listed(b), b.data, b.indexes[i]) == Some(Chosen(keys, made, |keys|)[keys[i]].data)
  {
    var chosen := Chosen(keys, made, |keys|);
    assert Holds(b, variants[keys[i]], chosen[keys[i]], digest);
    forall k | 0 <= k < |b.indexes| ensures 0 <= b.indexes[k] < |b.bodies| {
      assert Holds(b, variants[keys[k]], chosen[keys[k]], digest);
    }
    if |b.bodies| == 1 {
      OnlyBody(b);
    } else {
      SliceInside(b.bodies, |b.data|, b.indexes[i]);
    }
  }

  /** What reading variant n returns: the listed range, or the whole data. */
  function Stored(bodies: seq<Body>, data: Octets, n: int): Option<Octets> {
    if bodies == [] then if n == 0 then Some(data) else None
    else if
      && 0 <= n < |bodies| && 0 <= bodies[n].offset && 0 <= bodies[n].size
      && bodies[n].offset + bodies[n].size <= |data|
    then Some(Slice(data, bodies[n])) else None
  }

  lemma OnlyBody(b: Bundle)
    requires Tiles(b.bodies, |b.data|) && |b.bodies| == 1
    ensures b.bodies[0].offset == 0 && b.bodies[0].size == |b.data| && Slice(b.data, b.bodies[0]) == b.data
  {
    assert TileAt(b.bodies, 0);
  }

  lemma TooFar(bodies: seq<Body>, size: int, n: int)
    requires 0 <= n < |bodies| && bodies[n].offset == EndAt(bodies, n) && bodies[n].size > size - bodies[n].offset
    ensures !Tiles(bodies, size)
  {
    if Tiles(bodies, size) { SliceInside(bodies, size, n); }
  }
}
