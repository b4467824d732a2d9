/** The in-memory delivery schedule as it is built (internal/queue/schedule.go): a heap of messages per
    owner, a heap of the owners whose first message lies ahead, and a list of due owners. Every
    operation does to the plan it represents what the plan's own operation does. */
module Schedule {
  import opened Options
  import opened Ranks
  import opened Heaps
  import Plans

  /** An owner's messages and whether the owner is on the due list. */
  datatype User = User(messages: Heap, due: bool)

  function Queues(users: map<Name, User>): map<Name, Times> {
    map n | n in users :: users[n].messages.at
  }

  function Marked(users: map<Name, User>): set<Name> {
    set n | n in users && users[n].due
  }

  lemma UsersUpdate(users: map<Name, User>, n: Name, user: User)
    ensures Queues(users[n := user]) == Queues(users)[n := user.messages.at]
    ensures Marked(users[n := user]) == if user.due then Marked(users) + {n} else Marked(users) - {n}
  {
  }

  lemma UsersRemove(users: map<Name, User>, n: Name)
    ensures Queues(users - {n}) == Queues(users) - {n}
    ensures Marked(users - {n}) == Marked(users) - {n}
  {
  }

  /** Puts an owner that is not due where its first message belongs: a new owner is added, and an owner
      with another first message is moved. */
  method Place(future: Heap, owner: Name, due: bool, isNew: bool, moved: bool, when: int) returns (r: Heap)
    requires !due ==> (isNew <==> owner !in future.at)
    ensures r.at == if due || (!isNew && !moved) then future.at else future.at[owner := when]
  {
    r := future;
    if !due {
      if isNew {
        r := Heaps.Push(future, owner, when);
      } else if moved {
        r := Heaps.Fix(future, owner, when);
      }
    }
  }

  /** Adds a message to its owner's heap, and the owner, if new, to the users. */
  method Insert(users: map<Name, User>, m: Plans.Message) returns (users': map<Name, User>, first: Name)
    requires m.owner in users ==> m.id !in users[m.owner].messages.at
    ensures
      var q := Plans.WithMessage(Queues(users), m);
      Queues(users') == Queues(users)[m.owner := q] && Earliest(q, first)
    ensures Marked(users') == Marked(users)
  {
    var user := if m.owner in users then users[m.owner] else User(EMPTY, false);
    var messages := Heaps.Push(user.messages, m.id, m.next);
    first := First(messages);
    UsersUpdate(users, m.owner, User(messages, user.due));
    users' := users[m.owner := User(messages, user.due)];
  }

  /** What the schedule stands for. */
  function PlanOf(users: map<Name, User>, future: Heap, due: seq<Name>, count: int): Plans.Plan {
    Plans.Plan(Queues(users), future.at, due, Marked(users), count)
  }

  /** Moves the owners whose first message is due from the future to the due list. */
  method Promote(users0: map<Name, User>, future0: Heap, due0: seq<Name>, count: int, now: int)
    returns (users: map<Name, User>, future: Heap, due: seq<Name>)
    requires forall n :: n in future0.at ==> n in users0
    ensures PlanOf(users, future, due, count) == Plans.PromoteAll(PlanOf(users0, future0, due0, count), now)
  {
    users, future, due := users0, future0, due0;
    while future.at != map[] && future.at[First(future)] <= now
      invariant forall n :: n in future.at ==> n in users
      invariant Plans.PromoteAll(PlanOf(users, future, due, count), now) ==
        Plans.PromoteAll(PlanOf(users0, future0, due0, count), now)
      decreases |future.at|
    {
      ghost var p := PlanOf(users, future, due, count);
      FirstUnique(future.at, First(future));
      SizeWithout(future.at, First(future));
      var n;
      future, n := Heaps.Pop(future);
      users := MarkDue(users, n, true);
      due := due + [n];
      assert PlanOf(users, future, due, count) == Plans.PromoteFirst(p);
    }
    if future.at != map[] { FirstUnique(future.at, First(future)); }
  }

  method MarkDue(users: map<Name, User>, n: Name, due: bool) returns (users': map<Name, User>)
    requires n in users
    ensures Queues(users') == Queues(users) && users'.Keys == users.Keys
    ensures Marked(users') == if due then Marked(users) + {n} else Marked(users) - {n}
  {
    UsersUpdate(users, n, User(users[n].messages, due));
    users' := users[n := User(users[n].messages, due)];
    assert Queues(users') == Queues(users);
  }

  /** Removes a message from its owner's heap, and the owner once it has no message left. */
  method Delete(users: map<Name, User>, owner: Name, id: Name) returns (users': map<Name, User>, left: bool, next: int)
    requires owner in users && id in users[owner].messages.at
    ensures
      var rest := Queues(users)[owner] - {id};
      if left then
        && rest != map[] && next == HeadOf(rest)
        && Queues(users') == Queues(users)[owner := rest] && Marked(users') == Marked(users)
      else
        && rest == map[]
        && Queues(users') == Queues(users) - {owner} && Marked(users') == Marked(users) - {owner}
  {
    var user := users[owner];
    var messages := Heaps.Remove(user.messages, id);
    left, next := messages.at != map[], 0;
    if left {
      next := messages.at[First(messages)];
      FirstUnique(messages.at, First(messages));
      UsersUpdate(users, owner, User(messages, user.due));
      users' := users[owner := User(messages, user.due)];
      assert Marked(users') == Marked(users);
    } else {
      UsersRemove(users, owner);
      users' := users - {owner};
    }
  }

  /** A plan in order, with the latest clock value that an operation has used. */
  datatype Timed = Timed(plan: Plans.Plan, clock: int)

  type Order = t: Timed | Plans.PlanOk(t.plan, t.clock) ghost witness Timed(Plans.EMPTY_PLAN, 0)

  method PushInto(users: map<Name, User>, future: Heap, due: seq<Name>, count: int, m: Plans.Message)
    returns (users': map<Name, User>, future': Heap)
    requires m.owner in users ==> m.id !in users[m.owner].messages.at
    requires m.owner !in Marked(users) ==> (m.owner in users <==> m.owner in future.at)
    ensures PlanOf(users', future', due, count + 1) == Plans.Push(PlanOf(users, future, due, count), m)
  {
    var isNew := m.owner !in users;
    var first;
    users', first := Insert(users, m);
    FirstUnique(Queues(users')[m.owner], first);
    var user := users'[m.owner];
    assert user.due <==> m.owner in Marked(users');
    future' := Place(future, m.owner, user.due, isNew, first == m.id, user.messages.at[first]);
  }

  lemma PushedOrder(order: Order, m: Plans.Message) returns (after: Order)
    requires m.owner in order.plan.queues ==> m.id !in order.plan.queues[m.owner]
    ensures after == Timed(Plans.Push(order.plan, m), order.clock)
    ensures m.owner !in order.plan.marked ==> (m.owner in order.plan.queues <==> m.owner in order.plan.waiting)
  {
    if m.owner in order.plan.queues { assert Plans.OwnerOk(order.plan, m.owner, order.clock); }
    Plans.PushKeeps(order.plan, m, order.clock);
    after := Timed(Plans.Push(order.plan, m), order.clock);
  }

  method PushMessage(users: map<Name, User>, future: Heap, due: seq<Name>, count: int, m: Plans.Message,
                     ghost order: Order)
    returns (users': map<Name, User>, future': Heap, ghost order': Order)
    requires order.plan == PlanOf(users, future, due, count)
    requires m.owner in users ==> m.id !in users[m.owner].messages.at
    ensures order' == Timed(Plans.Push(order.plan, m), order.clock)
    ensures PlanOf(users', future', due, count + 1) == Plans.Push(order.plan, m)
  {
    order' := PushedOrder(order, m);
    users', future' := PushInto(users, future, due, count, m);
  }

  /** An owner that was due waits for its next message. */
  method Postpone(users: map<Name, User>, future: Heap, n: Name, next: int)
    returns (users': map<Name, User>, future': Heap)
    requires n in Queues(users) && n !in future.at
    ensures Queues(users') == Queues(users) && Marked(users') == Marked(users) - {n}
    ensures future'.at == future.at[n := next]
  {
    users' := MarkDue(users, n, false);
    future' := Heaps.Push(future, n, next);
  }

  /** After a turn, an owner with more that is due goes to the end of the list. */
  method Requeue(users: map<Name, User>, future: Heap, due: seq<Name>, n: Name, left: bool, next: int, now: int)
    returns (users': map<Name, User>, future': Heap, due': seq<Name>)
    requires left ==> n in Queues(users) && n !in future.at
    ensures Queues(users') == Queues(users)
    ensures Marked(users') == if left && next > now then Marked(users) - {n} else Marked(users)
    ensures future'.at == if left && next > now then future.at[n := next] else future.at
    ensures due' == if left && next <= now then due + [n] else due
  {
    users', future', due' := users, future, due;
    if left {
      if next <= now {
        due' := due + [n];
      } else {
        users', future' := Postpone(users, future, n, next);
      }
    }
  }

  /** What a turn does to the plan, case by case. */
  lemma ServedPlan(p: Plans.Plan, now: int, left: bool, next: int, first: Name)
    requires p.due != [] && p.due[0] in p.queues && Earliest(p.queues[p.due[0]], first)
    requires
      var rest := p.queues[p.due[0]] - {first};
      if left then rest != map[] && next == HeadOf(rest) else rest == map[]
    ensures
      var n := p.due[0];
      var rest := p.queues[n] - {first};
      && FirstOf(p.queues[n]) == first && p.queues[n] != map[]
      && Plans.Serve(p, now) ==
         if !left then Plans.Plan(p.queues - {n}, p.waiting, p.due[1..], p.marked - {n}, p.count - 1)
         else if next <= now then Plans.Plan(p.queues[n := rest], p.waiting, p.due[1..] + [n], p.marked, p.count - 1)
         else Plans.Plan(p.queues[n := rest], p.waiting[n := next], p.due[1..], p.marked - {n}, p.count - 1)
  {
    FirstUnique(p.queues[p.due[0]], first);
  }

  /** Serves the first due owner and puts it where its next message belongs. */
  method ServeFirst(users: map<Name, User>, future: Heap, due: seq<Name>, count: int, now: int, ghost p: Plans.Plan)
    returns (users': map<Name, User>, future': Heap, due': seq<Name>, m: Plans.Message)
    requires p == PlanOf(users, future, due, count) && due != [] && due[0] in users && due[0] !in future.at
    requires users[due[0]].messages.at != map[] && users[due[0]].due
    ensures PlanOf(users', future', due', count - 1) == Plans.Serve(p, now)
    ensures var q := p.queues[due[0]]; m == Plans.Message(due[0], FirstOf(q), HeadOf(q))
  {
    var n := due[0];
    var id := First(users[n].messages);
    m := Plans.Message(n, id, users[n].messages.at[id]);
    var left, next;
    users', left, next := Delete(users, n, id);
    ServedPlan(p, now, left, next, id);
    users', future', due' := Requeue(users', future, due[1..], n, left, next, now);
  }

  lemma DueHead(p: Plans.Plan, now: int)
    requires Plans.PlanOk(p, now) && p.due != []
    ensures var n := p.due[0]; n in p.queues && p.queues[n] != map[] && n !in p.waiting && n in p.marked
  {
    assert Plans.OwnerOk(p, p.due[0], now);
  }

  method PopFrom(users: map<Name, User>, future: Heap, due: seq<Name>, count: int, now: int, ghost order: Order)
    returns (users': map<Name, User>, future': Heap, due': seq<Name>, count': int, m: Option<Plans.Message>)
    requires order.plan == PlanOf(users, future, due, count) && order.clock <= now
    ensures PlanOf(users', future', due', count') == Plans.Pop(order.plan, now)
    ensures m == Plans.Popped(order.plan, now)
  {
    assert forall n :: n in future.at ==> n in order.plan.waiting;
    users', future', due' := Promote(users, future, due, count, now);
    count', m := count, None;
    if due' != [] {
      Promoted(order, now);
      DueHead(Plans.PromoteAll(order.plan, now), now);
      ghost var p := Plans.PromoteAll(order.plan, now);
      assert due'[0] in p.queues;
      var served;
      users', future', due', served := ServeFirst(users', future', due', count', now, p);
      count', m := count' - 1, Some(served);
    }
  }

  lemma Promoted(order: Order, now: int)
    requires order.clock <= now
    ensures Plans.PlanOk(Plans.PromoteAll(order.plan, now), now)
  {
    Plans.LaterOk(order.plan, order.clock, now);
    Plans.PromoteAllKeeps(order.plan, now);
  }

  lemma WithoutNext(due: seq<Name>, owner: Name, i: nat)
    requires i < |due|
    ensures due[i] == owner ==> Plans.Without(due[i..], owner) == due[i + 1..]
    ensures due[i] != owner ==>
      due[..i] + Plans.Without(due[i..], owner) == due[..i + 1] + Plans.Without(due[i + 1..], owner)
  {
    assert due[i..][0] == due[i] && due[i..][1..] == due[i + 1..] && due[..i + 1] == due[..i] + [due[i]];
  }

  /** Takes an owner off the due list. */
  method DropOwner(due: seq<Name>, owner: Name) returns (due': seq<Name>)
    ensures due' == Plans.Without(due, owner)
  {
    for i := 0 to |due|
      invariant Plans.Without(due, owner) == due[..i] + Plans.Without(due[i..], owner)
    {
      WithoutNext(due, owner, i);
      if due[i] == owner {
        return due[..i] + due[i + 1..];
      }
    }
    return due;
  }

  /** Where an owner is found, and what a removal does there. */
  lemma OwnerPlace(p: Plans.Plan, owner: Name, clock: int)
    requires Plans.PlanOk(p, clock) && owner in p.queues
    ensures owner in p.marked ==> owner !in p.waiting && p.waiting - {owner} == p.waiting
    ensures owner !in p.marked ==>
      owner in p.waiting && Plans.Without(p.due, owner) == p.due && p.marked - {owner} == p.marked
  {
    assert Plans.OwnerOk(p, owner, clock);
    if owner !in p.marked {
      Plans.WithoutAbsent(p.due, owner);
    }
  }

  /** Takes an owner without messages off the due list or out of the future. */
  method TakeOff(future: Heap, due: seq<Name>, owner: Name, isDue: bool) returns (future': Heap, due': seq<Name>)
    requires if isDue then owner !in future.at else owner in future.at && Plans.Without(due, owner) == due
    ensures future'.at == future.at - {owner} && due' == Plans.Without(due, owner)
  {
    future', due' := future, due;
    if isDue {
      due' := DropOwner(due, owner);
    } else {
      future' := Heaps.Remove(future, owner);
    }
  }

  /** The owner is on the due list or in the future, as it is marked. */
  ghost predicate Placed(users: map<Name, User>, future: Heap, due: seq<Name>, owner: Name) {
    && owner in users
    && if users[owner].due then owner !in future.at else owner in future.at && Plans.Without(due, owner) == due
  }

  /** What a removal does to the plan, case by case. */
  lemma RemovedPlan(p: Plans.Plan, owner: Name, id: Name, now: int, left: bool, next: int, first: Name)
    requires owner in p.queues && id in p.queues[owner] && Earliest(p.queues[owner], first)
    requires
      var rest := p.queues[owner] - {id};
      if left then rest != map[] && next == HeadOf(rest) else rest == map[]
    ensures
      var rest := p.queues[owner] - {id};
      var isDue := owner in p.marked;
      Plans.Remove(p, owner, id, now) ==
        if !left then
          Plans.Plan(p.queues - {owner}, p.waiting - {owner}, Plans.Without(p.due, owner), p.marked - {owner},
                     p.count - 1)
        else if first == id && isDue && next > now then
          Plans.Plan(p.queues[owner := rest], p.waiting[owner := next], Plans.Without(p.due, owner), p.marked - {owner},
                     p.count - 1)
        else if first == id && !isDue then
          Plans.Plan(p.queues[owner := rest], p.waiting[owner := next], p.due, p.marked, p.count - 1)
        else Plans.Plan(p.queues[owner := rest], p.waiting, p.due, p.marked, p.count - 1)
  {
    FirstUnique(p.queues[owner], first);
  }

  method RemoveFrom(users: map<Name, User>, future: Heap, due: seq<Name>, count: int, owner: Name, id: Name, now: int,
                    ghost p: Plans.Plan)
    returns (users': map<Name, User>, future': Heap, due': seq<Name>)
    requires p == PlanOf(users, future, due, count) && Placed(users, future, due, owner)
    requires id in users[owner].messages.at
    ensures PlanOf(users', future', due', count - 1) == Plans.Remove(p, owner, id, now)
  {
    var user := users[owner];
    var first := First(user.messages);
    future', due' := future, due;
    var left, next;
    users', left, next := Delete(users, owner, id);
    RemovedPlan(p, owner, id, now, left, next, first);
    if !left {
      future', due' := TakeOff(future, due, owner, user.due);
    } else if first == id {
      users', future', due' := MoveOwner(users', future, due, owner, next, now, user.due);
    }
  }

  /** Finds the owner its place after its first message was removed. */
  method MoveOwner(users: map<Name, User>, future: Heap, due: seq<Name>, owner: Name, next: int, now: int, isDue: bool)
    returns (users': map<Name, User>, future': Heap, due': seq<Name>)
    requires owner in Queues(users) && (isDue <==> owner !in future.at)
    ensures Queues(users') == Queues(users)
    ensures Marked(users') == if isDue && next > now then Marked(users) - {owner} else Marked(users)
    ensures future'.at == if isDue && next <= now then future.at else future.at[owner := next]
    ensures due' == if isDue && next > now then Plans.Without(due, owner) else due
  {
    users', future', due' := users, future, due;
    if !isDue {
      future' := Heaps.Fix(future, owner, next);
    } else if next > now {
      due' := DropOwner(due, owner);
      users', future' := Postpone(users, future, owner, next);
    }
  }

  lemma RemovedOrder(order: Order, owner: Name, id: Name, now: int) returns (after: Order)
    requires order.clock <= now && owner in order.plan.queues && id in order.plan.queues[owner]
    ensures after == Timed(Plans.Remove(order.plan, owner, id, now), now)
  {
    Plans.LaterOk(order.plan, order.clock, now);
    Plans.RemoveKeeps(order.plan, owner, id, now);
    after := Timed(Plans.Remove(order.plan, owner, id, now), now);
  }

  method RemoveMessage(users: map<Name, User>, future: Heap, due: seq<Name>, count: int, owner: Name, id: Name,
                       now: int, ghost order: Order)
    returns (users': map<Name, User>, future': Heap, due': seq<Name>, ghost order': Order)
    requires order.plan == PlanOf(users, future, due, count) && order.clock <= now
    requires owner in users && id in users[owner].messages.at
    ensures order' == Timed(Plans.Remove(order.plan, owner, id, now), now)
    ensures PlanOf(users', future', due', count - 1) == Plans.Remove(order.plan, owner, id, now)
  {
    order' := RemovedOrder(order, owner, id, now);
    OwnerPlace(order.plan, owner, order.clock);
    users', future', due' := RemoveFrom(users, future, due, count, owner, id, now, order.plan);
  }

  lemma PoppedOrder(order: Order, now: int) returns (after: Order)
    requires order.clock <= now
    ensures after == Timed(Plans.Pop(order.plan, now), now)
  {
    Plans.PopKeeps(order.plan, order.clock, now);
    after := Timed(Plans.Pop(order.plan, now), now);
  }

  class Schedule {
    var users: map<Name, User>
    var future: Heap
    var due: seq<Name>
    var count: int
    /** What the schedule stands for. */
    ghost var order: Order

    ghost predicate Valid() reads this {
      order.plan == PlanOf(users, future, due, count)
    }

    constructor (now: int)
      ensures Valid() && order == Timed(Plans.EMPTY_PLAN, now)
    {
      users, future, due, count := map[], EMPTY, [], 0;
      order := Timed(Plans.EMPTY_PLAN, now);
    }

    /** Schedules a message that is not scheduled yet. */
    method Push(m: Plans.Message)
      requires Valid()
      requires m.owner in users ==> m.id !in users[m.owner].messages.at
      modifies `users, `future, `count, `order
      ensures Valid() && order == Timed(Plans.Push(old(order.plan), m), old(order.clock))
    {
      users, future, order := PushMessage(users, future, due, count, m, order);
      count := count + 1;
    }

    /** Takes the next due message, if there is one. */
    method PopDue(now: int) returns (m: Option<Plans.Message>)
      requires Valid() && order.clock <= now
      modifies `users, `future, `due, `count, `order
      ensures Valid() && order == Timed(Plans.Pop(old(order.plan), now), now)
      ensures m == Plans.Popped(old(order.plan), now)
    {
      ghost var after := PoppedOrder(order, now);
      users, future, due, count, m := PopFrom(users, future, due, count, now, order);
      order := after;
    }

    /** Takes a message off the schedule, and reports whether it was on it. */
    method Remove(owner: Name, id: Name, now: int) returns (found: bool)
      requires Valid() && order.clock <= now
      modifies `users, `future, `due, `count, `order
      ensures Valid() && (found <==> owner in old(order.plan).queues && id in old(order.plan).queues[owner])
      ensures order == if found then Timed(Plans.Remove(old(order.plan), owner, id, now), now) else old(order)
    {
      found := owner in users && id in users[owner].messages.at;
      assert found <==> owner in order.plan.queues && id in order.plan.queues[owner];
      if found {
        users, future, due, order := RemoveMessage(users, future, due, count, owner, id, now, order);
        count := count - 1;
      }
    }
  }
}
