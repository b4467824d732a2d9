/** The order in which the scheduler serves messages and owners (internal/queue/schedule.go). */
module Ranks {

  /** The scheduler uses message IDs and owner names only by equality and by string order, so a name
      stands here for its rank in that order. */
  type Name = int

  type Times = map<Name, int>

  /** Earlier time first, then the smaller name. Only names with a known time can be compared. */
  predicate Less(at: Times, x: Name, y: Name)
    requires x in at && y in at
  {
    at[x] < at[y] || (at[x] == at[y] && x < y)
  }

  /** `x` comes first: it has the earliest time, and the least name among those. */
  predicate Earliest(at: Times, x: Name) {
    x in at && forall y :: y in at && y != x ==> Less(at, x, y)
  }

  lemma SomeKey<K, V>(m: map<K, V>) returns (k: K)
    requires m != map[]
    ensures k in m
  {
    k :| k in m;
  }

  lemma SizeWithout<K, V>(m: map<K, V>, k: K)
    requires k in m
    ensures |m - {k}| == |m| - 1
  {
    assert (m - {k}).Keys == m.Keys - {k};
  }

  lemma {:induction false} EarliestExists(at: Times)
    requires at != map[]
    ensures exists x :: Earliest(at, x)
    decreases |at|
  {
    var x := SomeKey(at);
    var rest := at - {x};
    if rest == map[] {
      assert forall y :: y in at && y != x ==> y in rest;
      assert Earliest(at, x);
    } else {
      EarliestExists(rest);
      var r :| Earliest(rest, r);
      assert forall y :: y in at && y != x ==> y in rest;
      if Less(at, x, r) {
        assert Earliest(at, x);
      } else {
        assert Earliest(at, r);
      }
    }
  }

  /** The name that comes first. */
  ghost function FirstOf(at: Times): (x: Name)
    requires at != map[]
    ensures Earliest(at, x)
  {
    EarliestExists(at);
    var x :| Earliest(at, x);
    x
  }

  /** The time of the name that comes first. */
  ghost function HeadOf(at: Times): int
    requires at != map[]
  {
    at[FirstOf(at)]
  }

  lemma FirstUnique(at: Times, x: Name)
    requires Earliest(at, x)
    ensures at != map[] && FirstOf(at) == x
  {
  }
}
