/** The order in which mail exchangers are tried (hosts of internal/deliver/discovery.go). */
module MxOrder {
  import opened Options

  /** A record by its preference and its host, in lower case and without the final dot; `refuses` marks the
      record of a domain that takes no mail, whose host is a single dot. A record whose name is empty names
      no host. */
  datatype Record = Record(preference: int, host: string, refuses: bool)

  predicate Named(r: Record) {
    r.host != "" && r.host != "."
  }

  predicate ByPreference(rs: seq<Record>) {
    forall i, j :: 0 <= i < j < |rs| ==> rs[i].preference <= rs[j].preference
  }

  /** What sorting and shuffling within groups of equal preference can make of the records. */
  predicate Arranged(records: seq<Record>, rs: seq<Record>) {
    multiset(rs) == multiset(records) && ByPreference(rs)
  }

  /** Shuffling one group of equal preference keeps the arrangement. */
  lemma ShuffleGroup(records: seq<Record>, rs: seq<Record>, start: int, end: int, group: seq<Record>)
    requires Arranged(records, rs) && 0 <= start <= end <= |rs| && multiset(group) == multiset(rs[start..end])
    requires forall i :: start <= i < end ==> rs[i].preference == rs[start].preference
    ensures Arranged(records, rs[..start] + group + rs[end..])
  {
    var after := rs[..start] + group + rs[end..];
    assert rs == rs[..start] + rs[start..end] + rs[end..];
    SameSize(group, rs[start..end]);
    forall i | start <= i < end ensures after[i].preference == rs[i].preference {
      assert after[i] == group[i - start] && group[i - start] in multiset(group);
      assert group[i - start] in rs[start..end];
    }
    forall i, j | 0 <= i < j < |after| ensures after[i].preference <= after[j].preference {
      assert after[i].preference == rs[i].preference && after[j].preference == rs[j].preference;
    }
  }

  lemma SameSize(a: seq<Record>, b: seq<Record>)
    requires multiset(a) == multiset(b)
    ensures |a| == |b|
  {
    assert |multiset(a)| == |a| && |multiset(b)| == |b|;
  }

  /** The lowest preference of a host that is among the records. */
  ghost predicate Lowest(records: seq<Record>, h: string, p: int) {
    && (exists r :: r in records && r.host == h && r.preference == p)
    && (forall r :: r in records && r.host == h ==> p <= r.preference)
  }

  /** The distinct hosts of the first n records, in order of first appearance. */
  function Distinct(rs: seq<Record>, n: nat): (hs: seq<string>)
    requires n <= |rs|
    ensures forall i, j :: 0 <= i < j < |hs| ==> hs[i] != hs[j]
    ensures forall h :: h in hs <==> exists i :: 0 <= i < n && rs[i].host == h && Named(rs[i])
  {
    if n == 0 then []
    else
      var before := Distinct(rs, n - 1);
      if Named(rs[n - 1]) && rs[n - 1].host !in before then before + [rs[n - 1].host] else before
  }

  /** Where a host first appears. */
  ghost function FirstAt(rs: seq<Record>, h: string): (i: int)
    requires exists i :: 0 <= i < |rs| && rs[i].host == h
    ensures 0 <= i < |rs| && rs[i].host == h && forall k :: 0 <= k < i ==> rs[k].host != h
  {
    FirstFrom(rs, h, 0)
  }

  ghost function FirstFrom(rs: seq<Record>, h: string, from: nat): (i: int)
    requires from <= |rs| && exists i :: from <= i < |rs| && rs[i].host == h
    ensures from <= i < |rs| && rs[i].host == h && forall k :: from <= k < i ==> rs[k].host != h
    decreases |rs| - from
  {
    if rs[from].host == h then from else FirstFrom(rs, h, from + 1)
  }

  lemma {:induction false} InOrder(rs: seq<Record>, n: nat, i: int, j: int)
    requires n <= |rs| && 0 <= i < j < |Distinct(rs, n)|
    requires forall k :: 0 <= k < |Distinct(rs, n)| ==> exists m :: 0 <= m < n && rs[m].host == Distinct(rs, n)[k]
    ensures FirstAt(rs, Distinct(rs, n)[i]) < FirstAt(rs, Distinct(rs, n)[j])
    decreases n
  {
    var hs := Distinct(rs, n);
    var before := Distinct(rs, n - 1);
    if j < |before| {
      forall k | 0 <= k < |before| ensures exists m :: 0 <= m < n - 1 && rs[m].host == before[k] {
        assert before[k] in before;
      }
      InOrder(rs, n - 1, i, j);
    } else {
      assert hs[i] in before;
      var m :| 0 <= m < n - 1 && rs[m].host == hs[i] && Named(rs[m]);
      assert FirstAt(rs, hs[i]) <= m;
      assert hs[j] == rs[n - 1].host && hs[j] !in before;
    }
  }

  /** Drops duplicates and caps the list. A domain with a null record, or without a host, takes no mail. */
  method Hosts(rs: seq<Record>, max: int) returns (r: Option<seq<string>>)
    requires max >= 1
    ensures r.None? <==> (exists i :: 0 <= i < |rs| && rs[i].refuses) || Distinct(rs, |rs|) == []
    ensures r.None? <==>
      || (exists i :: 0 <= i < |rs| && rs[i].refuses)
      || (forall i :: 0 <= i < |rs| ==> rs[i].host == "" || rs[i].host == ".")
    ensures r.Some? ==> var all := Distinct(rs, |rs|); r.value == if |all| <= max then all else all[..max]
  {
    for i := 0 to |rs|
      invariant forall k :: 0 <= k < i ==> !rs[k].refuses
    {
      if rs[i].refuses { return None; }
    }
    var hosts: seq<string> := [];
    var i := 0;
    while i < |rs| && |hosts| < max
      invariant 0 <= i <= |rs| && |hosts| <= max && hosts == Distinct(rs, i)
    {
      if Named(rs[i]) && rs[i].host !in hosts {
        hosts := hosts + [rs[i].host];
      }
      i := i + 1;
    }
    DistinctGrows(rs, i, |rs|);
    NoneNamed(rs);
    if hosts == [] { return None; }
    return Some(hosts);
  }

  lemma NoneNamed(rs: seq<Record>)
    ensures Distinct(rs, |rs|) == [] <==> forall i :: 0 <= i < |rs| ==> rs[i].host == "" || rs[i].host == "."
  {
    var hs := Distinct(rs, |rs|);
    if hs == [] {
      forall i | 0 <= i < |rs| ensures !Named(rs[i]) {
        assert rs[i].host !in hs;
      }
    } else {
      assert hs[0] in hs;
    }
  }

  lemma {:induction false} DistinctGrows(rs: seq<Record>, i: nat, n: nat)
    requires i <= n <= |rs|
    ensures |Distinct(rs, i)| <= |Distinct(rs, n)| && Distinct(rs, n)[..|Distinct(rs, i)|] == Distinct(rs, i)
    decreases n
  {
    if i < n { DistinctGrows(rs, i, n - 1); }
  }

  /** The first appearance of a host has its lowest preference. */
  lemma FirstIsLowest(records: seq<Record>, rs: seq<Record>, h: string)
    requires Arranged(records, rs) && exists i :: 0 <= i < |rs| && rs[i].host == h
    ensures Lowest(records, h, rs[FirstAt(rs, h)].preference)
  {
    var at := FirstAt(rs, h);
    assert rs[at] in multiset(rs) && rs[at] in records;
    forall r | r in records && r.host == h ensures rs[at].preference <= r.preference {
      assert r in multiset(records) && r in multiset(rs);
      var k :| 0 <= k < |rs| && rs[k] == r;
      assert at <= k;
    }
  }

  /** Every host of the list is a record's, and every record's host is in it. */
  lemma AllNamed(records: seq<Record>, rs: seq<Record>, h: string)
    requires Arranged(records, rs)
    ensures h in Distinct(rs, |rs|) <==> exists r :: r in records && r.host == h && Named(r)
    ensures h in Distinct(rs, |rs|) <==> h != "" && h != "." && exists r :: r in records && r.host == h
  {
    if h in Distinct(rs, |rs|) {
      var i :| 0 <= i < |rs| && rs[i].host == h && Named(rs[i]);
      assert rs[i] in multiset(rs) && rs[i] in records;
    }
    if exists r :: r in records && r.host == h && Named(r) {
      var r :| r in records && r.host == h && Named(r);
      assert r in multiset(records) && r in multiset(rs);
      var i :| 0 <= i < |rs| && rs[i] == r;
      assert rs[i].host == h && Named(rs[i]);
    }
  }

  /** Hosts come in the order of their lowest preferences, for every arrangement of the records: an earlier
      host, in particular one that the cap keeps, never has a higher lowest preference than a later one, in
      particular one that the cap drops. */
  lemma HostsInOrder(records: seq<Record>, rs: seq<Record>, i: int, j: int, p: int, q: int)
    requires Arranged(records, rs) && 0 <= i < j < |Distinct(rs, |rs|)|
    requires Lowest(records, Distinct(rs, |rs|)[i], p) && Lowest(records, Distinct(rs, |rs|)[j], q)
    ensures p <= q
  {
    var hs := Distinct(rs, |rs|);
    forall k | 0 <= k < |hs| ensures exists m :: 0 <= m < |rs| && rs[m].host == hs[k] {
      assert hs[k] in hs;
    }
    InOrder(rs, |rs|, i, j);
    FirstIsLowest(records, rs, hs[i]);
    FirstIsLowest(records, rs, hs[j]);
  }
}
