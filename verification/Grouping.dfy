/** How one attempt groups its pending recipients and brings the admitted domain to the front
    (internal/deliver/attempt.go), and which domain admission picks (internal/deliver/run.go). */
module Grouping {
  import opened Limits

  datatype Recipient = Recipient(domain: Key, body: int, pending: bool)

  datatype Group = Group(domain: Key, body: int)

  /** A version of a stored message, as the spool accounts it. */
  datatype Version = Version(incarnation: nat, revision: nat)

  datatype Envelope = Envelope(
    id: string, owner: Key, version: Version, next: int, preferred: Key, recipients: seq<Recipient>)

  function KeyOf(r: Recipient): Group {
    Group(r.domain, r.body)
  }

  /** Some pending recipient belongs to the group. */
  predicate Wanted(rs: seq<Recipient>, g: Group) {
    exists i :: 0 <= i < |rs| && rs[i].pending && KeyOf(rs[i]) == g
  }

  predicate DomainPending(rs: seq<Recipient>, d: Key) {
    exists i :: 0 <= i < |rs| && rs[i].pending && rs[i].domain == d
  }

  /** The groups in order of first appearance. */
  function Order(rs: seq<Recipient>): (order: seq<Group>)
    ensures forall g :: g in order <==> Wanted(rs, g)
    ensures forall i, j :: 0 <= i < j < |order| ==> order[i] != order[j]
  {
    if rs == [] then []
    else
      var init := rs[..|rs| - 1];
      var last := rs[|rs| - 1];
      var before := Order(init);
      assert rs == init + [last];
      assert forall g :: Wanted(rs, g) <==> Wanted(init, g) || (last.pending && g == KeyOf(last)) by {
        forall g ensures Wanted(rs, g) <==> Wanted(init, g) || (last.pending && g == KeyOf(last)) {
          if Wanted(init, g) {
            var i :| 0 <= i < |init| && init[i].pending && KeyOf(init[i]) == g;
            assert rs[i] == init[i];
          }
          if Wanted(rs, g) {
            var i :| 0 <= i < |rs| && rs[i].pending && KeyOf(rs[i]) == g;
            assert i < |init| ==> init[i] == rs[i];
          }
          if last.pending && g == KeyOf(last) {
            assert rs[|rs| - 1].pending;
          }
        }
      }
      if last.pending && KeyOf(last) !in before then before + [KeyOf(last)] else before
  }

  /** The recipients of a group, by position. */
  function Members(rs: seq<Recipient>, g: Group): (indexes: seq<int>)
    ensures forall i :: i in indexes <==> 0 <= i < |rs| && rs[i].pending && KeyOf(rs[i]) == g
    ensures forall a, b :: 0 <= a < b < |indexes| ==> indexes[a] < indexes[b]
  {
    if rs == [] then []
    else
      var last := |rs| - 1;
      var before := Members(rs[..last], g);
      assert forall a :: 0 <= a < |before| ==> before[a] in before;
      if rs[last].pending && KeyOf(rs[last]) == g then before + [last] else before
  }

  lemma NoMembers(rs: seq<Recipient>, g: Group)
    requires g !in Order(rs)
    ensures Members(rs, g) == []
  {
    if Members(rs, g) != [] {
      assert Members(rs, g)[0] in Members(rs, g);
    }
  }

  lemma OrderStep(rs: seq<Recipient>, r: Recipient)
    ensures Order(rs + [r]) == if r.pending && KeyOf(r) !in Order(rs) then Order(rs) + [KeyOf(r)] else Order(rs)
  {
    assert (rs + [r])[..|rs|] == rs;
  }

  lemma MembersStep(rs: seq<Recipient>, r: Recipient, g: Group)
    ensures Members(rs + [r], g) == if r.pending && KeyOf(r) == g then Members(rs, g) + [|rs|] else Members(rs, g)
  {
    assert (rs + [r])[..|rs|] == rs;
  }

  lemma HasMembers(rs: seq<Recipient>, g: Group)
    requires g in Order(rs)
    ensures Members(rs, g) != [] && 0 <= Members(rs, g)[0] < |rs|
  {
    var i :| 0 <= i < |rs| && rs[i].pending && KeyOf(rs[i]) == g;
    assert i in Members(rs, g);
    assert Members(rs, g)[0] in Members(rs, g);
  }

  /** Groups come in the order of their first recipients. */
  lemma {:induction false} OrderByFirst(rs: seq<Recipient>, i: int, j: int)
    requires 0 <= i < j < |Order(rs)|
    ensures Members(rs, Order(rs)[i]) != [] && Members(rs, Order(rs)[j]) != []
    ensures Members(rs, Order(rs)[i])[0] < Members(rs, Order(rs)[j])[0]
    decreases |rs|
  {
    var init, last := rs[..|rs| - 1], rs[|rs| - 1];
    assert rs == init + [last];
    OrderStep(init, last);
    var x, y := Order(rs)[i], Order(rs)[j];
    MembersStep(init, last, x);
    MembersStep(init, last, y);
    HasMembers(init, x);
    if j < |Order(init)| {
      OrderByFirst(init, i, j);
    } else {
      NoMembers(init, y);
    }
  }

  ghost predicate GroupMembers(rs: seq<Recipient>, groups: map<Group, seq<int>>) {
    forall g :: g in groups ==> groups[g] == Members(rs, g)
  }

  lemma GroupMembersStep(rs: seq<Recipient>, groups: map<Group, seq<int>>, r: Recipient)
    requires GroupMembers(rs, groups) && (KeyOf(r) !in groups ==> Members(rs, KeyOf(r)) == [])
    ensures
      var key := KeyOf(r);
      var members := (if key in groups then groups[key] else []) + [|rs|];
      GroupMembers(rs + [r], if r.pending then groups[key := members] else groups)
  {
    var key := KeyOf(r);
    var after := if r.pending then groups[key := (if key in groups then groups[key] else []) + [|rs|]] else groups;
    forall g | g in after ensures after[g] == Members(rs + [r], g) {
      MembersStep(rs, r, g);
    }
  }

  /** Builds the groups in one pass over the recipients. */
  method BuildGroups(rs: seq<Recipient>) returns (groups: map<Group, seq<int>>, order: seq<Group>)
    ensures order == Order(rs)
    ensures forall g :: g in groups <==> Wanted(rs, g)
    ensures forall g :: g in groups ==> groups[g] == Members(rs, g)
    ensures forall i, j :: 0 <= i < j < |order| ==>
      && order[i] in groups && order[j] in groups && groups[order[i]] != [] && groups[order[j]] != []
      && groups[order[i]][0] < groups[order[j]][0]
  {
    groups, order := map[], [];
    for i := 0 to |rs|
      invariant order == Order(rs[..i]) && GroupMembers(rs[..i], groups)
      invariant forall g :: g in groups <==> g in order
    {
      assert rs[..i + 1] == rs[..i] + [rs[i]];
      OrderStep(rs[..i], rs[i]);
      if KeyOf(rs[i]) !in groups {
        NoMembers(rs[..i], KeyOf(rs[i]));
      }
      GroupMembersStep(rs[..i], groups, rs[i]);
      if rs[i].pending {
        var key := KeyOf(rs[i]);
        if key !in groups {
          order := order + [key];
        }
        groups := groups[key := (if key in groups then groups[key] else []) + [i]];
      }
    }
    assert rs[..|rs|] == rs;
    ByFirst(rs, groups, order);
  }

  lemma ByFirst(rs: seq<Recipient>, groups: map<Group, seq<int>>, order: seq<Group>)
    requires order == Order(rs) && GroupMembers(rs, groups) && forall g :: g in groups <==> g in order
    ensures forall i, j :: 0 <= i < j < |order| ==>
      && order[i] in groups && order[j] in groups && groups[order[i]] != [] && groups[order[j]] != []
      && groups[order[i]][0] < groups[order[j]][0]
  {
    forall i, j | 0 <= i < j < |order|
      ensures Members(rs, order[i]) != [] && Members(rs, order[j]) != []
      ensures Members(rs, order[i])[0] < Members(rs, order[j])[0]
    {
      OrderByFirst(rs, i, j);
    }
  }

  /** The first group of domain `d` moved to the front. */
  function Fronted(order: seq<Group>, d: Key): (r: seq<Group>)
    ensures |r| == |order|
  {
    var k := FirstOf(order, d);
    if k == |order| then order else [order[k]] + order[..k] + order[k + 1..]
  }

  /** The position of the first group of domain `d`, or the length of the list. */
  function FirstOf(order: seq<Group>, d: Key): (k: int)
    ensures 0 <= k <= |order|
    ensures forall i :: 0 <= i < k ==> order[i].domain != d
    ensures k < |order| ==> order[k].domain == d
  {
    if order == [] then 0 else if order[0].domain == d then 0 else 1 + FirstOf(order[1..], d)
  }

  lemma FirstUnique(order: seq<Group>, d: Key, k: int)
    requires 0 <= k <= |order| && (forall i :: 0 <= i < k ==> order[i].domain != d)
    requires k < |order| ==> order[k].domain == d
    ensures FirstOf(order, d) == k
  {
  }

  predicate IsFirstOf(order: seq<Group>, d: Key, k: int) {
    0 <= k < |order| && order[k].domain == d && forall i :: 0 <= i < k ==> order[i].domain != d
  }

  /** The rotation only reorders, and an admitted domain with a group comes first; all other groups keep their
      order. */
  lemma FrontedPermutes(order: seq<Group>, d: Key)
    ensures (forall i :: 0 <= i < |order| ==> order[i].domain != d) ==> Fronted(order, d) == order
    ensures forall k :: IsFirstOf(order, d, k) ==> Fronted(order, d) == [order[k]] + order[..k] + order[k + 1..]
    ensures multiset(Fronted(order, d)) == multiset(order)
    ensures (exists i :: 0 <= i < |order| && order[i].domain == d) ==>
      Fronted(order, d) != [] && Fronted(order, d)[0].domain == d
  {
    var k := FirstOf(order, d);
    if k < |order| {
      assert order == order[..k] + [order[k]] + order[k + 1..];
    }
  }

  /** The rotation in place: everything before the admitted group moves one place back. */
  method Rotate(order: array<Group>, admitted: Key)
    modifies order
    ensures order[..] == if admitted == NONE then old(order[..]) else Fronted(old(order[..]), admitted)
    ensures
      var s := old(order[..]);
      admitted != NONE ==> forall k :: IsFirstOf(s, admitted, k) ==> order[..] == [s[k]] + s[..k] + s[k + 1..]
  {
    FrontedPermutes(order[..], admitted);
    MoveFront(order, admitted);
  }

  method MoveFront(order: array<Group>, admitted: Key)
    modifies order
    ensures order[..] == if admitted == NONE then old(order[..]) else Fronted(old(order[..]), admitted)
  {
    ghost var start := order[..];
    if admitted == NONE || order.Length <= 1 || order[0].domain == admitted {
      if admitted != NONE && order.Length >= 1 {
        FirstUnique(start, admitted, if order[0].domain == admitted then 0 else 1);
      }
      assert admitted != NONE ==> Fronted(start, admitted) == start;
      return;
    }
    var index := 1;
    while index < order.Length && order[index].domain != admitted
      invariant 1 <= index <= order.Length
      invariant forall i :: 0 <= i < index ==> order[i].domain != admitted
    {
      index := index + 1;
    }
    FirstUnique(start, admitted, index);
    if index < order.Length {
      ShiftRight(order, index);
    }
  }

  /** Moves the item at `index` to the front and those before it one place back. */
  method ShiftRight(a: array<Group>, index: int)
    requires 0 <= index < a.Length
    modifies a
    ensures a[..] == [old(a[index])] + old(a[..index]) + old(a[index + 1..])
  {
    var key := a[index];
    var i := index;
    while i > 0
      invariant 0 <= i <= index
      invariant forall k :: 0 <= k < i ==> a[k] == old(a[k])
      invariant forall k :: i < k <= index ==> a[k] == old(a[k - 1])
      invariant forall k :: index < k < a.Length ==> a[k] == old(a[k])
    {
      a[i] := a[i - 1];
      i := i - 1;
    }
    a[0] := key;
  }

  /** The domain that admission asks a slot for: the preferred one while it has pending recipients, or
      else the first pending one. */
  function NextPendingDomain(e: Envelope): (d: Key)
    ensures d != NONE ==> DomainPending(e.recipients, d)
    ensures e.preferred != NONE && DomainPending(e.recipients, e.preferred) ==> d == e.preferred
    ensures (forall i :: 0 <= i < |e.recipients| ==> !e.recipients[i].pending) ==> d == NONE
    ensures e.preferred == NONE || !DomainPending(e.recipients, e.preferred) ==>
      forall i :: IsFirstPending(e.recipients, i) ==> d == e.recipients[i].domain
  {
    if e.preferred != NONE && DomainPending(e.recipients, e.preferred) then e.preferred else FirstPending(e.recipients)
  }

  predicate IsFirstPending(rs: seq<Recipient>, i: int) {
    0 <= i < |rs| && rs[i].pending && forall k :: 0 <= k < i ==> !rs[k].pending
  }

  function FirstPending(rs: seq<Recipient>): (d: Key)
    ensures d != NONE ==> DomainPending(rs, d)
    ensures (forall i :: 0 <= i < |rs| ==> !rs[i].pending) ==> d == NONE
    ensures forall i :: IsFirstPending(rs, i) ==> d == rs[i].domain
  {
    if rs == [] then NONE
    else if rs[0].pending then assert rs[0].pending; rs[0].domain
    else
      var d := FirstPending(rs[1..]);
      assert forall i :: 0 <= i < |rs[1..]| ==> rs[1..][i] == rs[i + 1];
      d
  }
}
