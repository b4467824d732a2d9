/** Fairness of the delivery schedule (internal/queue/schedule.go) over runs of pushes, pops and
    removals: due owners take turns. */
module Fairness {
  import opened Options
  import opened Ranks
  import opened Plans

  datatype Op = PushOp(m: Message) | PopOp(now: int) | RemoveOp(owner: Name, id: Name, now: int)

  predicate Allowed(p: Plan, clock: int, op: Op) {
    match op
    case PushOp(m) => m.owner in p.queues ==> m.id !in p.queues[m.owner]
    case PopOp(now) => clock <= now
    case RemoveOp(owner, id, now) => clock <= now && owner in p.queues && id in p.queues[owner]
  }

  function Clock(clock: int, op: Op): int {
    if op.PushOp? then clock else op.now
  }

  ghost function Step(p: Plan, op: Op): Plan {
    match op
    case PushOp(m) => Push(p, m)
    case PopOp(now) => Pop(p, now)
    case RemoveOp(owner, id, now) =>
      if owner in p.queues && id in p.queues[owner] then Remove(p, owner, id, now) else p
  }

  lemma StepKeeps(p: Plan, clock: int, op: Op)
    requires PlanOk(p, clock) && Allowed(p, clock, op)
    ensures PlanOk(Step(p, op), Clock(clock, op))
  {
    match op
    case PushOp(m) => PushKeeps(p, m, clock);
    case PopOp(now) => PopKeeps(p, clock, now);
    case RemoveOp(owner, id, now) =>
      LaterOk(p, clock, now);
      RemoveKeeps(p, owner, id, now);
  }

  /** Every operation of the run is allowed where it happens. */
  ghost predicate Run(p: Plan, clock: int, ops: seq<Op>)
    decreases |ops|
  {
    ops != [] ==> Allowed(p, clock, ops[0]) && Run(Step(p, ops[0]), Clock(clock, ops[0]), ops[1..])
  }

  /** The owner that this operation serves. */
  ghost function Served(p: Plan, op: Op): Option<Name> {
    if op.PopOp? && Popped(p, op.now).Some? then Some(Popped(p, op.now).value.owner) else None
  }

  /** How many pops of the run return a message. */
  ghost function Pops(p: Plan, ops: seq<Op>): nat
    decreases |ops|
  {
    if ops == [] then 0
    else (if Served(p, ops[0]).Some? then 1 else 0) + Pops(Step(p, ops[0]), ops[1..])
  }

  /** How many pops of the run serve owner n. */
  ghost function Turns(p: Plan, ops: seq<Op>, n: Name): nat
    decreases |ops|
  {
    if ops == [] then 0
    else (if Served(p, ops[0]) == Some(n) then 1 else 0) + Turns(Step(p, ops[0]), ops[1..], n)
  }

  /** Throughout the run n stays on the due list and is not served. */
  ghost predicate Waits(p: Plan, ops: seq<Op>, n: Name)
    decreases |ops|
  {
    && n in p.due
    && (ops != [] ==> Served(p, ops[0]) != Some(n) && Waits(Step(p, ops[0]), ops[1..], n))
  }

  /** No removal of the run takes n off the due list. */
  ghost predicate NotRemoved(p: Plan, ops: seq<Op>, n: Name)
    decreases |ops|
  {
    ops != [] ==>
      && (ops[0].RemoveOp? && n in p.due ==> n in Step(p, ops[0]).due)
      && NotRemoved(Step(p, ops[0]), ops[1..], n)
  }

  ghost function Final(p: Plan, ops: seq<Op>): Plan
    decreases |ops|
  {
    if ops == [] then p else Final(Step(p, ops[0]), ops[1..])
  }

  // ---------- no message is lost and none is served twice ----------

  /** How often the run pushes a message. */
  function Pushes(ops: seq<Op>, x: Message): nat {
    if ops == [] then 0 else (if ops[0] == PushOp(x) then 1 else 0) + Pushes(ops[1..], x)
  }

  /** The operation takes the message off the schedule: a pop returns it, or it is removed. */
  ghost predicate Takes(p: Plan, op: Op, x: Message) {
    match op
    case PushOp(_) => false
    case PopOp(now) => Popped(p, now) == Some(x)
    case RemoveOp(owner, id, _) => Has(p, x) && x.owner == owner && x.id == id
  }

  /** How often the run takes a message off. */
  ghost function Takings(p: Plan, ops: seq<Op>, x: Message): nat
    decreases |ops|
  {
    if ops == [] then 0 else (if Takes(p, ops[0], x) then 1 else 0) + Takings(Step(p, ops[0]), ops[1..], x)
  }

  function Count(b: bool): nat {
    if b then 1 else 0
  }

  lemma StepConserves(p: Plan, clock: int, op: Op, x: Message)
    requires PlanOk(p, clock) && Allowed(p, clock, op)
    ensures Count(Has(p, x)) + Count(op == PushOp(x)) == Count(Takes(p, op, x)) + Count(Has(Step(p, op), x))
  {
    match op
    case PushOp(m) => PushAdds(p, m, x);
    case RemoveOp(owner, id, now) => RemoveTakes(p, owner, id, now, x);
    case PopOp(now) =>
      PopTakes(p, now, x);
      PopKeeps(p, clock, now);
  }

  /** Conservation: over every run, what was scheduled and what is pushed is what is popped or removed and what
      stays scheduled, message by message. */
  lemma {:induction false} Conserved(p: Plan, clock: int, ops: seq<Op>, x: Message)
    requires PlanOk(p, clock) && Run(p, clock, ops)
    ensures Count(Has(p, x)) + Pushes(ops, x) == Takings(p, ops, x) + Count(Has(Final(p, ops), x))
    decreases |ops|
  {
    if ops != [] {
      StepConserves(p, clock, ops[0], x);
      StepKeeps(p, clock, ops[0]);
      Conserved(Step(p, ops[0]), Clock(clock, ops[0]), ops[1..], x);
    }
  }

  // ---------- how one operation moves the due list ----------

  /** Serving takes the head off the list and puts it, at most, at the end. */
  lemma ServeDue(q: Plan, now: int) returns (tail: seq<Name>)
    requires q.due != [] && q.due[0] in q.queues && q.queues[q.due[0]] != map[]
    ensures Serve(q, now).due == q.due[1..] + tail
  {
    var rest := q.queues[q.due[0]] - {FirstOf(q.queues[q.due[0]])};
    tail := if rest != map[] && HeadOf(rest) <= now then [q.due[0]] else [];
  }

  /** A pop serves the head of the due list, moves everyone else one place forward, and puts newcomers
      and the served owner behind them. */
  lemma PopRotates(p: Plan, clock: int, now: int) returns (tail: seq<Name>)
    requires PlanOk(p, clock) && clock <= now && p.due != []
    ensures Popped(p, now).Some? && Popped(p, now).value.owner == p.due[0]
    ensures Pop(p, now).due == p.due[1..] + tail
  {
    LaterOk(p, clock, now);
    PromoteAllKeeps(p, now);
    var promoted := PromotesInOrder(p, now);
    var q := PromoteAll(p, now);
    assert q.due[0] == p.due[0] && OwnerOk(q, q.due[0], now);
    var end := ServeDue(q, now);
    tail := promoted + end;
    assert q.due[1..] == p.due[1..] + promoted;
    assert p.due[1..] + promoted + end == p.due[1..] + tail;
  }

  /** Owners before position j of `after` were before position k of `before`. */
  predicate NoneCutIn(before: seq<Name>, k: int, after: seq<Name>, j: int)
    requires 0 <= k < |before| && 0 <= j < |after|
  {
    forall i :: 0 <= i < j ==> after[i] in before[..k]
  }

  /** Without one owner, everyone else keeps the order. */
  lemma {:induction false} WithoutShift(s: seq<Name>, x: Name, k: int) returns (j: int)
    requires 0 <= k < |s| && s[k] != x
    ensures 0 <= j < |Without(s, x)| && Without(s, x)[j] == s[k] && j <= k
    ensures NoneCutIn(s, k, Without(s, x), j)
    ensures forall i :: 0 <= i < k && s[i] != x ==> s[i] in Without(s, x)[..j]
  {
    var rest := s[1..];
    assert s == [s[0]] + rest;
    if s[0] == x {
      j := k - 1;
      assert s[..k] == [s[0]] + rest[..j];
    } else if k == 0 {
      j := 0;
    } else {
      var j' := WithoutShift(rest, x, k - 1);
      j := j' + 1;
      var w := Without(rest, x);
      assert Without(s, x) == [s[0]] + w && Without(s, x)[..j] == [s[0]] + w[..j'];
      assert s[..k] == [s[0]] + rest[..k - 1];
      forall i | 0 <= i < k && s[i] != x ensures s[i] in Without(s, x)[..j] {
        if i > 0 { assert s[i] == rest[i - 1]; }
      }
    }
  }

  /** The owner whose message the operation removes leaves the due list, or the list stays as it is. */
  lemma RemoveDue(p: Plan, clock: int, owner: Name, id: Name, now: int)
    requires PlanOk(p, clock) && owner in p.queues && id in p.queues[owner]
    ensures Remove(p, owner, id, now).due in {p.due, Without(p.due, owner)}
  {
  }

  /** Whoever is ahead of position k of `before` and is not `served` stays ahead, unless it left the list
      through a removal. */
  predicate StayAhead(before: seq<Name>, k: int, after: seq<Name>, j: int, served: Option<Name>, removal: bool)
    requires 0 <= k < |before| && 0 <= j < |after|
  {
    forall i :: 0 <= i < k && served != Some(before[i]) && (removal ==> before[i] in after) ==> before[i] in after[..j]
  }

  lemma PopShift(p: Plan, clock: int, now: int, k: int)
    requires PlanOk(p, clock) && clock <= now && 0 < k < |p.due|
    ensures Served(p, PopOp(now)) == Some(p.due[0])
    ensures k - 1 < |Pop(p, now).due| && Pop(p, now).due[k - 1] == p.due[k]
    ensures NoneCutIn(p.due, k, Pop(p, now).due, k - 1)
    ensures StayAhead(p.due, k, Pop(p, now).due, k - 1, Some(p.due[0]), false)
  {
    var tail := PopRotates(p, clock, now);
    var rest := p.due[1..];
    assert p.due == [p.due[0]] + rest && p.due[..k] == [p.due[0]] + rest[..k - 1];
    assert (rest + tail)[..k - 1] == rest[..k - 1];
  }

  lemma RemoveShift(p: Plan, clock: int, owner: Name, id: Name, now: int, k: int) returns (j: int)
    requires PlanOk(p, clock) && owner in p.queues && id in p.queues[owner]
    requires 0 <= k < |p.due| && p.due[k] in Remove(p, owner, id, now).due
    ensures
      var after := Remove(p, owner, id, now).due;
      && 0 <= j <= k && j < |after| && after[j] == p.due[k]
      && NoneCutIn(p.due, k, after, j) && StayAhead(p.due, k, after, j, None, true)
  {
    RemoveDue(p, clock, owner, id, now);
    if Remove(p, owner, id, now).due == p.due {
      j := k;
    } else {
      WithoutElements(p.due, owner);
      j := WithoutShift(p.due, owner, k);
    }
  }

  /** One operation that neither serves n nor takes it off the list brings n no further back, lets
      nobody cut in, and a pop brings n one place forward. Whoever was ahead of n stays ahead unless it
      is served or removed. */
  lemma OneStep(p: Plan, clock: int, op: Op, n: Name, k: int) returns (j: int)
    requires PlanOk(p, clock) && Allowed(p, clock, op)
    requires 0 <= k < |p.due| && p.due[k] == n
    requires Served(p, op) != Some(n) && n in Step(p, op).due
    ensures 0 <= j < |Step(p, op).due| && Step(p, op).due[j] == n
    ensures j <= k - (if Served(p, op).Some? then 1 else 0)
    ensures NoneCutIn(p.due, k, Step(p, op).due, j)
    ensures StayAhead(p.due, k, Step(p, op).due, j, Served(p, op), op.RemoveOp?)
  {
    match op
    case PushOp(m) =>
      j := k;
    case PopOp(now) =>
      var tail := PopRotates(p, clock, now);
      PopShift(p, clock, now, k);
      j := k - 1;
    case RemoveOp(owner, id, now) =>
      j := RemoveShift(p, clock, owner, id, now, k);
  }

  // ---------- the theorems ----------

  /** An owner at position k of the due list that is neither served nor removed has seen at most k
      successful pops: it is served by the (k+1)-th, or removed sooner. */
  lemma {:induction false} ServedInTurn(p: Plan, clock: int, ops: seq<Op>, n: Name, k: int)
    requires PlanOk(p, clock) && Run(p, clock, ops) && Waits(p, ops, n)
    requires 0 <= k < |p.due| && p.due[k] == n
    ensures Pops(p, ops) <= k
    decreases |ops|
  {
    if ops != [] {
      var j := OneStep(p, clock, ops[0], n, k);
      StepKeeps(p, clock, ops[0]);
      ServedInTurn(Step(p, ops[0]), Clock(clock, ops[0]), ops[1..], n, j);
    }
  }

  /** Nobody behind a waiting owner is served. */
  lemma {:induction false} NoTurnBehind(p: Plan, clock: int, ops: seq<Op>, n: Name, k: int, x: Name)
    requires PlanOk(p, clock) && Run(p, clock, ops) && Waits(p, ops, n)
    requires 0 <= k < |p.due| && p.due[k] == n && x != n && x !in p.due[..k]
    ensures Turns(p, ops, x) == 0
    decreases |ops|
  {
    if ops != [] {
      var op := ops[0];
      var j := OneStep(p, clock, op, n, k);
      StepKeeps(p, clock, op);
      if op.PopOp? {
        var tail := PopRotates(p, clock, op.now);
        assert p.due[0] == p.due[..k][0];
      }
      NoTurnBehind(Step(p, op), Clock(clock, op), ops[1..], n, j, x);
    }
  }

  /** An owner that is served is not ahead of those who were behind it. */
  lemma LeavesFront(p: Plan, clock: int, op: Op, j: int, x: Name)
    requires PlanOk(p, clock) && Allowed(p, clock, op) && Served(p, op) == Some(x) && x in p.due
    requires 0 <= j < |Step(p, op).due| && j < |p.due|
    ensures x !in Step(p, op).due[..j]
  {
    var tail := PopRotates(p, clock, op.now);
    var rest := p.due[1..];
    assert (rest + tail)[..j] == rest[..j];
  }

  /** Between an owner's turn and the moment it heads the list again, every owner ahead of it that is
      not removed gets exactly one turn. */
  lemma {:induction false} OneTurnEach(p: Plan, clock: int, ops: seq<Op>, n: Name, k: int, x: Name)
    requires PlanOk(p, clock) && Run(p, clock, ops) && Waits(p, ops, n)
    requires 0 <= k < |p.due| && p.due[k] == n && x in p.due[..k]
    requires NotRemoved(p, ops, x)
    requires Final(p, ops).due != [] && Final(p, ops).due[0] == n
    ensures Turns(p, ops, x) == 1
    decreases |ops|
  {
    if ops != [] {
      var op := ops[0];
      var j := OneStep(p, clock, op, n, k);
      StepKeeps(p, clock, op);
      var i :| 0 <= i < k && p.due[i] == x;
      if Served(p, op) == Some(x) {
        LeavesFront(p, clock, op, j, x);
        NoTurnBehind(Step(p, op), Clock(clock, op), ops[1..], n, j, x);
      } else {
        OneTurnEach(Step(p, op), Clock(clock, op), ops[1..], n, j, x);
      }
    }
  }

  /** The clock after the run. */
  function EndClock(clock: int, ops: seq<Op>): int
    decreases |ops|
  {
    if ops == [] then clock else EndClock(Clock(clock, ops[0]), ops[1..])
  }

  lemma {:induction false} FinalKeeps(p: Plan, clock: int, ops: seq<Op>, n: Name)
    requires PlanOk(p, clock) && Run(p, clock, ops) && Waits(p, ops, n)
    ensures PlanOk(Final(p, ops), EndClock(clock, ops)) && n in Final(p, ops).due
    decreases |ops|
  {
    if ops != [] {
      StepKeeps(p, clock, ops[0]);
      FinalKeeps(Step(p, ops[0]), Clock(clock, ops[0]), ops[1..], n);
    }
  }

  /** An owner that is served and stays due goes to the end of the list. */
  lemma ServedGoesLast(p: Plan, clock: int, now: int, n: Name)
    requires PlanOk(p, clock) && clock <= now && Served(p, PopOp(now)) == Some(n) && n in Pop(p, now).due
    ensures Pop(p, now).due != [] && Pop(p, now).due[|Pop(p, now).due| - 1] == n
  {
    LaterOk(p, clock, now);
    PromoteAllKeeps(p, now);
    var q := PromoteAll(p, now);
    assert n == q.due[0] && n !in q.due[1..];
  }

  lemma AgainFirst(p: Plan, clock: int, now: int, n: Name)
    requires PlanOk(p, clock) && clock <= now && n in p.due && Served(p, PopOp(now)) == Some(n)
    ensures p.due[0] == n
  {
    var tail := PopRotates(p, clock, now);
  }

  lemma AheadOfLast(due: seq<Name>, n: Name, x: Name)
    requires due != [] && due[|due| - 1] == n && x != n && x in due
    ensures x in due[..|due| - 1]
  {
    assert due == due[..|due| - 1] + [n];
  }

  lemma HeadsAgain(q: Plan, clock: int, ops: seq<Op>, second: int, n: Name)
    requires PlanOk(q, clock) && Run(q, clock, ops) && Waits(q, ops, n)
    requires EndClock(clock, ops) <= second && Served(Final(q, ops), PopOp(second)) == Some(n)
    ensures Final(q, ops).due != [] && Final(q, ops).due[0] == n
  {
    FinalKeeps(q, clock, ops, n);
    AgainFirst(Final(q, ops), EndClock(clock, ops), second, n);
  }

  /** Fairness: an owner is served at `first`, stays due, and is served again at `second`. In between,
      every other owner that was due after the first turn and was not removed is served exactly once. */
  lemma BetweenTwoTurns(p: Plan, clock: int, first: int, q: Plan, ops: seq<Op>, second: int, n: Name, x: Name)
    requires PlanOk(p, clock) && clock <= first && Served(p, PopOp(first)) == Some(n)
    requires q == Pop(p, first) && Run(q, first, ops) && Waits(q, ops, n)
    requires EndClock(first, ops) <= second && Served(Final(q, ops), PopOp(second)) == Some(n)
    requires x != n && x in q.due && NotRemoved(q, ops, x)
    ensures Turns(q, ops, x) == 1
  {
    PopKeeps(p, clock, first);
    ServedGoesLast(p, clock, first, n);
    AheadOfLast(q.due, n, x);
    HeadsAgain(q, first, ops, second, n);
    OneTurnEach(q, first, ops, n, |q.due| - 1, x);
  }
}
