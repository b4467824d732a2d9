/** What the delivery schedule does (internal/queue/schedule.go), without its heaps: per owner a map
    from message IDs to times, the owners whose first message lies ahead, and the first-in first-out
    list of due owners. */
module Plans {
  import opened Options
  import opened Ranks
  import opened Sums

  /** The messages of one owner: the time of the next attempt by message ID. */
  type Queue = Times

  datatype Message = Message(owner: Name, id: Name, next: int)

  /** `waiting` holds the time of the first message of each owner that is not due, `marked` the owners
      whose due mark is set. */
  datatype Plan = Plan(queues: map<Name, Queue>, waiting: Times, due: seq<Name>, marked: set<Name>, count: int)

  const EMPTY_PLAN := Plan(map[], map[], [], {}, 0)

  function Size(n: Name, q: Queue): int {
    |q|
  }

  predicate Distinct(s: seq<Name>) {
    forall i, j :: 0 <= i < j < |s| ==> s[i] != s[j]
  }

  /** An owner has messages and waits in the one place its mark names: on the due list, because its
      first message was due by `clock`, or among the waiting owners, under its first message's time. */
  ghost predicate OwnerOk(p: Plan, n: Name, clock: int)
    requires n in p.queues
  {
    && p.queues[n] != map[]
    && (n in p.marked <==> n in p.due) && (n in p.due <==> n !in p.waiting)
    && (if n in p.due then HeadOf(p.queues[n]) <= clock else p.waiting[n] == HeadOf(p.queues[n]))
  }

  ghost predicate PlanOk(p: Plan, clock: int) {
    && (forall n :: n in p.queues ==> OwnerOk(p, n, clock))
    && (forall n :: n in p.due || n in p.waiting || n in p.marked ==> n in p.queues)
    && Distinct(p.due)
    && p.count == Total(p.queues, Size)
  }

  /** The message is scheduled, for this owner and this time. */
  predicate Has(p: Plan, m: Message) {
    m.owner in p.queues && m.id in p.queues[m.owner] && p.queues[m.owner][m.id] == m.next
  }

  // ---------- the operations ----------

  function WithMessage(queues: map<Name, Queue>, m: Message): (q: Queue)
    ensures m.id in q && q[m.id] == m.next && q != map[]
  {
    var q := (if m.owner in queues then queues[m.owner] else map[])[m.id := m.next];
    assert m.id in q;
    q
  }

  ghost function Push(p: Plan, m: Message): Plan {
    var q := WithMessage(p.queues, m);
    var placed := m.owner in p.marked || (m.owner in p.queues && FirstOf(q) != m.id);
    p.(queues := p.queues[m.owner := q],
       waiting := if placed then p.waiting else p.waiting[m.owner := HeadOf(q)],
       count := p.count + 1)
  }

  ghost function PromoteFirst(p: Plan): Plan
    requires p.waiting != map[]
  {
    var n := FirstOf(p.waiting);
    p.(waiting := p.waiting - {n}, due := p.due + [n], marked := p.marked + {n})
  }

  /** Takes the first message of the first due owner; the owner goes to the end of the list while it
      has more that is due. */
  ghost function Serve(p: Plan, now: int): Plan
    requires p.due != [] && p.due[0] in p.queues && p.queues[p.due[0]] != map[]
  {
    var n := p.due[0];
    var rest := p.queues[n] - {FirstOf(p.queues[n])};
    if rest == map[] then Plan(p.queues - {n}, p.waiting, p.due[1..], p.marked - {n}, p.count - 1)
    else if HeadOf(rest) <= now then Plan(p.queues[n := rest], p.waiting, p.due[1..] + [n], p.marked, p.count - 1)
    else Plan(p.queues[n := rest], p.waiting[n := HeadOf(rest)], p.due[1..], p.marked - {n}, p.count - 1)
  }

  function Without(s: seq<Name>, x: Name): seq<Name> {
    if s == [] then [] else if s[0] == x then s[1..] else [s[0]] + Without(s[1..], x)
  }

  ghost function Remove(p: Plan, owner: Name, id: Name, now: int): Plan
    requires owner in p.queues && id in p.queues[owner]
  {
    var rest := p.queues[owner] - {id};
    var wasFirst := FirstOf(p.queues[owner]) == id;
    if rest == map[] then
      Plan(p.queues - {owner}, p.waiting - {owner}, Without(p.due, owner), p.marked - {owner}, p.count - 1)
    else if wasFirst && owner in p.marked && HeadOf(rest) > now then
      Plan(p.queues[owner := rest], p.waiting[owner := HeadOf(rest)], Without(p.due, owner), p.marked - {owner},
           p.count - 1)
    else if wasFirst && owner !in p.marked then
      Plan(p.queues[owner := rest], p.waiting[owner := HeadOf(rest)], p.due, p.marked, p.count - 1)
    else
      Plan(p.queues[owner := rest], p.waiting, p.due, p.marked, p.count - 1)
  }

  // ---------- every operation keeps the plan in order ----------

  /** The plans agree about every owner but one. */
  ghost predicate SameBut(p: Plan, p': Plan, n: Name) {
    forall m :: m != n ==>
      && (m in p'.queues <==> m in p.queues) && (m in p.queues ==> p'.queues[m] == p.queues[m])
      && (m in p'.waiting <==> m in p.waiting) && (m in p.waiting ==> p'.waiting[m] == p.waiting[m])
      && (m in p'.due <==> m in p.due) && (m in p'.marked <==> m in p.marked)
  }

  lemma ChangeKeeps(p: Plan, p': Plan, n: Name, clock: int)
    requires PlanOk(p, clock) && SameBut(p, p', n) && Distinct(p'.due)
    requires if n in p'.queues then OwnerOk(p', n, clock) else n !in p'.due && n !in p'.waiting && n !in p'.marked
    requires p'.queues - {n} == p.queues - {n}
    requires p'.count - p.count ==
      (if n in p'.queues then |p'.queues[n]| else 0) - (if n in p.queues then |p.queues[n]| else 0)
    ensures PlanOk(p', clock)
  {
    TotalChange(p.queues, p'.queues, Size, n);
    forall m | m in p'.queues ensures OwnerOk(p', m, clock) {
      if m != n { assert OwnerOk(p, m, clock); }
    }
  }

  lemma PushKeeps(p: Plan, m: Message, clock: int)
    requires PlanOk(p, clock) && (m.owner in p.queues ==> m.id !in p.queues[m.owner])
    ensures PlanOk(Push(p, m), clock)
  {
    var p' := Push(p, m);
    var q := WithMessage(p.queues, m);
    if m.owner in p.queues {
      assert OwnerOk(p, m.owner, clock);
      PushHead(p.queues[m.owner], m.id, m.next);
    }
    ChangeKeeps(p, p', m.owner, clock);
  }

  /** A new message is the first one, or the first one stays. */
  lemma PushHead(q: Queue, id: Name, next: int)
    requires q != map[] && id !in q
    ensures
      var q' := q[id := next];
      q' != map[] && HeadOf(q') <= HeadOf(q) && (FirstOf(q') != id ==> HeadOf(q') == HeadOf(q))
  {
    var q' := q[id := next];
    assert id in q';
    var x, y := FirstOf(q), FirstOf(q');
    assert x in q' && (x != y ==> Less(q', y, x));
    if y != id {
      assert y in q && (x != y ==> Less(q, x, y));
    }
  }

  /** The first waiting owner is due once the clock reaches its time. */
  lemma PromoteKeeps(p: Plan, clock: int)
    requires PlanOk(p, clock) && p.waiting != map[] && HeadOf(p.waiting) <= clock
    ensures PlanOk(PromoteFirst(p), clock)
  {
    var n := FirstOf(p.waiting);
    assert OwnerOk(p, n, clock);
    ChangeKeeps(p, PromoteFirst(p), n, clock);
  }

  lemma ServeSameBut(p: Plan, now: int)
    requires Distinct(p.due) && p.due != [] && p.due[0] in p.queues && p.queues[p.due[0]] != map[]
    ensures
      var p' := Serve(p, now);
      SameBut(p, p', p.due[0]) && Distinct(p'.due) && p'.queues - {p.due[0]} == p.queues - {p.due[0]}
  {
    var n := p.due[0];
    assert p.due == [n] + p.due[1..] && n !in p.due[1..];
  }

  lemma ServeOwner(p: Plan, now: int)
    requires PlanOk(p, now) && p.due != [] && p.due[0] in p.queues && p.queues[p.due[0]] != map[]
    ensures
      var p' := Serve(p, now);
      var n := p.due[0];
      if n in p'.queues then OwnerOk(p', n, now) else n !in p'.due && n !in p'.waiting && n !in p'.marked
  {
    var n := p.due[0];
    assert OwnerOk(p, n, now);
    assert n !in p.due[1..];
  }

  lemma ServeKeeps(p: Plan, now: int)
    requires PlanOk(p, now) && p.due != []
    ensures p.due[0] in p.queues && p.queues[p.due[0]] != map[] && PlanOk(Serve(p, now), now)
  {
    var n := p.due[0];
    assert OwnerOk(p, n, now);
    ServeSameBut(p, now);
    ServeOwner(p, now);
    SizeWithout(p.queues[n], FirstOf(p.queues[n]));
    ChangeKeeps(p, Serve(p, now), n, now);
  }

  lemma {:induction false} WithoutElements(s: seq<Name>, x: Name)
    requires Distinct(s)
    ensures Distinct(Without(s, x)) && x !in Without(s, x)
    ensures forall y :: y != x ==> (y in Without(s, x) <==> y in s)
  {
    if s != [] {
      var rest := s[1..];
      assert Distinct(rest) && s == [s[0]] + rest && s[0] !in rest;
      WithoutElements(rest, x);
      if s[0] != x {
        assert s[0] !in Without(rest, x);
      }
    }
  }

  lemma RemoveSameBut(p: Plan, owner: Name, id: Name, now: int)
    requires Distinct(p.due) && owner in p.queues && id in p.queues[owner]
    ensures
      var p' := Remove(p, owner, id, now);
      SameBut(p, p', owner) && Distinct(p'.due) && p'.queues - {owner} == p.queues - {owner}
  {
    WithoutElements(p.due, owner);
  }

  lemma RemoveOwner(p: Plan, owner: Name, id: Name, now: int)
    requires PlanOk(p, now) && owner in p.queues && id in p.queues[owner]
    ensures
      var p' := Remove(p, owner, id, now);
      if owner in p'.queues then OwnerOk(p', owner, now)
      else owner !in p'.due && owner !in p'.waiting && owner !in p'.marked
  {
    assert OwnerOk(p, owner, now);
    WithoutElements(p.due, owner);
    if p.queues[owner] - {id} != map[] { RemoveHead(p.queues[owner], id); }
  }

  lemma RemoveKeeps(p: Plan, owner: Name, id: Name, now: int)
    requires PlanOk(p, now) && owner in p.queues && id in p.queues[owner]
    ensures PlanOk(Remove(p, owner, id, now), now)
  {
    RemoveSameBut(p, owner, id, now);
    RemoveOwner(p, owner, id, now);
    SizeWithout(p.queues[owner], id);
    ChangeKeeps(p, Remove(p, owner, id, now), owner, now);
  }

  lemma {:induction false} WithoutAbsent(s: seq<Name>, x: Name)
    requires x !in s
    ensures Without(s, x) == s
  {
    if s != [] {
      WithoutAbsent(s[1..], x);
    }
  }

  /** Removing another message keeps the first one first. */
  lemma RemoveHead(q: Queue, id: Name)
    requires id in q && q - {id} != map[]
    ensures q != map[] && HeadOf(q) <= HeadOf(q - {id}) && (FirstOf(q) != id ==> HeadOf(q - {id}) == HeadOf(q))
  {
    var q' := q - {id};
    assert id in q;
    var x, y := FirstOf(q), FirstOf(q');
    assert y in q && (x != y ==> Less(q, x, y));
    if x != id {
      assert x in q' && (x != y ==> Less(q', y, x));
    }
  }

  // ---------- what is scheduled ----------

  /** A push adds its message and changes no other. */
  lemma PushAdds(p: Plan, m: Message, x: Message)
    requires m.owner in p.queues ==> m.id !in p.queues[m.owner]
    ensures Has(Push(p, m), x) <==> Has(p, x) || x == m
  {
  }

  /** A removal takes off its message and no other. */
  lemma RemoveTakes(p: Plan, owner: Name, id: Name, now: int, x: Message)
    requires owner in p.queues && id in p.queues[owner]
    ensures Has(Remove(p, owner, id, now), x) <==> Has(p, x) && !(x.owner == owner && x.id == id)
  {
    assert x.owner == owner && Has(p, x) && x.id != id ==> x.id in p.queues[owner] - {id};
  }

  /** Serving takes off the first message of the first due owner and no other. */
  lemma ServeTakes(p: Plan, now: int, x: Message)
    requires p.due != [] && p.due[0] in p.queues && p.queues[p.due[0]] != map[]
    ensures
      var n := p.due[0];
      Has(Serve(p, now), x) <==> Has(p, x) && x != Message(n, FirstOf(p.queues[n]), HeadOf(p.queues[n]))
  {
    var n := p.due[0];
    var first := FirstOf(p.queues[n]);
    assert x.owner == n && Has(p, x) && x.id != first ==> x.id in p.queues[n] - {first};
  }

  // ---------- popping ----------

  lemma LaterOk(p: Plan, before: int, now: int)
    requires PlanOk(p, before) && before <= now
    ensures PlanOk(p, now)
  {
    forall n | n in p.queues ensures OwnerOk(p, n, now) { assert OwnerOk(p, n, before); }
  }

  /** Every owner whose first message is due by `now` joins the due list. */
  ghost function PromoteAll(p: Plan, now: int): Plan
    decreases |p.waiting|
  {
    if p.waiting == map[] || HeadOf(p.waiting) > now then p
    else
      SizeWithout(p.waiting, FirstOf(p.waiting));
      PromoteAll(PromoteFirst(p), now)
  }

  lemma {:induction false} PromoteAllKeeps(p: Plan, now: int)
    requires PlanOk(p, now)
    ensures PlanOk(PromoteAll(p, now), now)
    ensures forall n :: n in PromoteAll(p, now).waiting ==> PromoteAll(p, now).waiting[n] > now
    decreases |p.waiting|
  {
    if p.waiting != map[] {
      if HeadOf(p.waiting) <= now {
        SizeWithout(p.waiting, FirstOf(p.waiting));
        PromoteKeeps(p, now);
        PromoteAllKeeps(PromoteFirst(p), now);
      } else {
        forall n | n in p.waiting ensures p.waiting[n] > now {
          assert n == FirstOf(p.waiting) || Less(p.waiting, FirstOf(p.waiting), n);
        }
      }
    }
  }

  /** Promotion appends exactly the waiting owners that are due, earliest first, and changes nothing else. */
  lemma {:induction false} PromotesInOrder(p: Plan, now: int) returns (promoted: seq<Name>)
    ensures PromoteAll(p, now).due == p.due + promoted
    ensures PromoteAll(p, now).queues == p.queues && PromoteAll(p, now).count == p.count
    ensures forall n :: n in promoted <==> n in p.waiting && p.waiting[n] <= now
    ensures forall i, j :: 0 <= i < j < |promoted| ==>
      promoted[i] in p.waiting && promoted[j] in p.waiting && Less(p.waiting, promoted[i], promoted[j])
    decreases |p.waiting|
  {
    if p.waiting == map[] || HeadOf(p.waiting) > now {
      promoted := [];
      forall n | n in p.waiting ensures p.waiting[n] > now {
        assert n == FirstOf(p.waiting) || Less(p.waiting, FirstOf(p.waiting), n);
      }
    } else {
      var n := FirstOf(p.waiting);
      SizeWithout(p.waiting, n);
      var rest := PromotesInOrder(PromoteFirst(p), now);
      promoted := [n] + rest;
      assert p.due + [n] + rest == p.due + promoted;
    }
  }

  /** The message that a pop at `now` returns. */
  ghost function Popped(p: Plan, now: int): Option<Message>
  {
    var q := PromoteAll(p, now);
    if q.due == [] || q.due[0] !in q.queues || q.queues[q.due[0]] == map[] then None
    else Some(Message(q.due[0], FirstOf(q.queues[q.due[0]]), HeadOf(q.queues[q.due[0]])))
  }

  ghost function Pop(p: Plan, now: int): Plan {
    if Popped(p, now).None? then PromoteAll(p, now) else Serve(PromoteAll(p, now), now)
  }

  /** A pop takes off what it returns and nothing else. */
  lemma PopTakes(p: Plan, now: int, x: Message)
    ensures Has(Pop(p, now), x) <==> Has(p, x) && Popped(p, now) != Some(x)
  {
    var promoted := PromotesInOrder(p, now);
    if Popped(p, now).Some? {
      ServeTakes(PromoteAll(p, now), now, x);
    }
  }

  /** A pop keeps the plan, and returns nothing exactly when no message is due. What it returns was
      scheduled, is not early, and is the first message of its owner. */
  lemma PopKeeps(p: Plan, clock: int, now: int)
    requires PlanOk(p, clock) && clock <= now
    ensures PlanOk(Pop(p, now), now)
    ensures Popped(p, now).None? <==> forall n, id :: n in p.queues && id in p.queues[n] ==> p.queues[n][id] > now
    ensures
      var m := Popped(p, now);
      m.Some? ==>
        && m.value.owner in p.queues && Earliest(p.queues[m.value.owner], m.value.id)
        && m.value.next == p.queues[m.value.owner][m.value.id] <= now
  {
    LaterOk(p, clock, now);
    PromoteAllKeeps(p, now);
    var promoted := PromotesInOrder(p, now);
    var q := PromoteAll(p, now);
    if q.due != [] {
      assert OwnerOk(q, q.due[0], now);
      ServeKeeps(q, now);
    } else {
      forall n, id | n in p.queues && id in p.queues[n] ensures p.queues[n][id] > now {
        assert OwnerOk(q, n, now);
        assert id == FirstOf(q.queues[n]) || Less(q.queues[n], FirstOf(q.queues[n]), id);
      }
    }
  }
}
