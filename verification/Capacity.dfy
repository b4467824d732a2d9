/** Counts, bytes and reservations of the queue, in all and per owner (internal/queue/capacity.go). */
module Capacity {
  import opened Sums

  const MAX_INT := 0x7FFF_FFFF_FFFF_FFFF

  /** Zero means unlimited. */
  datatype Limits = Limits(messages: int, bytes: int, userMessages: int, userBytes: int)

  /** A message in ready/, or a reservation for one. What has no owner counts towards no user. */
  datatype Item = Item(size: int, owner: string)

  datatype Sum = Sum(items: int, bytes: int)

  /** What a user has in ready/ and what is reserved. */
  datatype Usage = Usage(stored: Sum, held: Sum)

  const NOTHING := Sum(0, 0)

  function Plus(s: Sum, size: int): Sum { Sum(s.items + 1, s.bytes + size) }
  function Minus(s: Sum, size: int): Sum { Sum(s.items - 1, s.bytes - size) }

  function UsageOf(users: map<string, Usage>, owner: string): Usage {
    if owner in users then users[owner] else Usage(NOTHING, NOTHING)
  }

  // ---------- totals ----------

  function One<K>(): (K, Item) -> int { (k: K, e: Item) => 1 }
  function Size<K>(): (K, Item) -> int { (k: K, e: Item) => e.size }
  function OneOf<K>(o: string): (K, Item) -> int { (k: K, e: Item) => if e.owner == o then 1 else 0 }
  function SizeOf<K>(o: string): (K, Item) -> int { (k: K, e: Item) => if e.owner == o then e.size else 0 }

  ghost function Whole<K>(m: map<K, Item>): Sum {
    Sum(Total(m, One()), Total(m, Size()))
  }

  ghost function Share<K>(m: map<K, Item>, o: string): Sum {
    Sum(Total(m, OneOf(o)), Total(m, SizeOf(o)))
  }

  ghost predicate SizesOk<K(!new)>(m: map<K, Item>) {
    forall k :: k in m ==> 0 <= m[k].size
  }

  lemma AddItem<K>(m: map<K, Item>, k: K, e: Item, o: string)
    requires k !in m
    ensures Whole(m[k := e]) == Plus(Whole(m), e.size)
    ensures Share(m[k := e], o) == if e.owner == o then Plus(Share(m, o), e.size) else Share(m, o)
  {
    var after := m[k := e];
    assert after - {k} == m - {k};
    TotalChange(m, after, One(), k);
    TotalChange(m, after, Size(), k);
    TotalChange(m, after, OneOf(o), k);
    TotalChange(m, after, SizeOf(o), k);
  }

  lemma DropItem<K>(m: map<K, Item>, k: K, o: string)
    requires k in m
    ensures Whole(m - {k}) == Minus(Whole(m), m[k].size)
    ensures Share(m - {k}, o) == if m[k].owner == o then Minus(Share(m, o), m[k].size) else Share(m, o)
  {
    TotalRemove(m, One(), k);
    TotalRemove(m, Size(), k);
    TotalRemove(m, OneOf(o), k);
    TotalRemove(m, SizeOf(o), k);
  }

  predicate SumOk(s: Sum) {
    s.items >= 0 && s.bytes >= 0 && (s.items == 0 ==> s.bytes == 0)
  }

  lemma Bounded<K>(m: map<K, Item>, o: string)
    requires forall k :: k in m ==> 0 <= m[k].size
    ensures SumOk(Share(m, o)) && Whole(m).items >= 0 && Whole(m).bytes >= 0
    ensures forall k :: k in m ==> Whole(m).items >= 1 && Whole(m).bytes >= m[k].size
    ensures forall k :: k in m && m[k].owner == o ==> Share(m, o).items >= 1 && Share(m, o).bytes >= m[k].size
  {
    TotalBounds(m, One());
    TotalBounds(m, Size());
    TotalBounds(m, OneOf(o));
    TotalBounds(m, SizeOf(o));
    forall k | k in m ensures Whole(m).items >= 1 && Whole(m).bytes >= m[k].size {
      assert One()(k, m[k]) == 1 && Size()(k, m[k]) == m[k].size;
    }
    forall k | k in m && m[k].owner == o ensures Share(m, o).items >= 1 && Share(m, o).bytes >= m[k].size {
      assert OneOf(o)(k, m[k]) == 1 && SizeOf(o)(k, m[k]) == m[k].size;
    }
    if Total(m, OneOf(o)) == 0 {
      forall k | k in m ensures SizeOf(o)(k, m[k]) == 0 { assert OneOf(o)(k, m[k]) <= 0; }
      TotalZero(m, SizeOf(o));
    }
  }

  // ---------- the accounts ----------

  /** Users are counted exactly, and not forgotten while something of theirs is counted. */
  ghost predicate UsersOk(users: map<string, Usage>, entries: map<string, Item>, tickets: map<nat, Item>) {
    forall o :: o != "" ==> UsageOf(users, o) == Usage(Share(entries, o), Share(tickets, o))
  }

  /** No user has more than the limits allow, with what is in flight. */
  ghost predicate WithinQuota(l: Limits, entries: map<string, Item>, tickets: map<nat, Item>) {
    forall o :: o != "" ==>
      && (l.userMessages > 0 ==> Share(entries, o).items + Share(tickets, o).items <= l.userMessages)
      && (l.userBytes > 0 ==> Share(entries, o).bytes + Share(tickets, o).bytes <= l.userBytes)
  }

  /** The same for the whole queue, as long as nothing in it is exempt. */
  predicate WithinTotal(l: Limits, stored: Sum, held: Sum) {
    && (l.messages > 0 ==> stored.items + held.items <= l.messages)
    && (l.bytes > 0 ==> stored.bytes + held.bytes <= l.bytes)
  }

  lemma WholeCounts<K>(m: map<K, Item>)
    ensures Whole(m).items == |m|
    decreases |m|
  {
    if m != map[] {
      var k :| k in m;
      TotalRemove(m, One(), k);
      WholeCounts(m - {k});
      assert |m - {k}| == |m| - 1;
    }
  }

  /** Room in the counters for everything that is reserved. */
  predicate RoomFor(stored: Sum, held: Sum) {
    stored.items + held.items <= MAX_INT && stored.bytes + held.bytes <= MAX_INT
  }

  /** A user's record with one reservation more, one less, one message more, one less. */
  function Held(users: map<string, Usage>, e: Item): map<string, Usage> {
    if e.owner == "" then users
    else var u := UsageOf(users, e.owner); users[e.owner := u.(held := Plus(u.held, e.size))]
  }

  function Freed(users: map<string, Usage>, e: Item): map<string, Usage> {
    if e.owner == "" then users
    else var u := UsageOf(users, e.owner); users[e.owner := u.(held := Minus(u.held, e.size))]
  }

  function Stored(users: map<string, Usage>, e: Item): map<string, Usage> {
    if e.owner == "" then users
    else var u := UsageOf(users, e.owner); users[e.owner := u.(stored := Plus(u.stored, e.size))]
  }

  /** The record of a user with nothing left is dropped. */
  function Removed(users: map<string, Usage>, e: Item): map<string, Usage> {
    if e.owner == "" then users
    else
      var u := UsageOf(users, e.owner);
      var u' := u.(stored := Minus(u.stored, e.size));
      if u'.stored.items == 0 && u'.held.items == 0 then users - {e.owner} else users[e.owner := u']
  }

  lemma HeldOk(users: map<string, Usage>, entries: map<string, Item>, tickets: map<nat, Item>, t: nat, e: Item)
    requires UsersOk(users, entries, tickets) && t !in tickets
    ensures UsersOk(Held(users, e), entries, tickets[t := e])
  {
    forall o | o != "" ensures UsageOf(Held(users, e), o) == Usage(Share(entries, o), Share(tickets[t := e], o)) {
      AddItem(tickets, t, e, o);
    }
  }

  lemma FreedOk(users: map<string, Usage>, entries: map<string, Item>, tickets: map<nat, Item>, t: nat)
    requires UsersOk(users, entries, tickets) && t in tickets
    ensures UsersOk(Freed(users, tickets[t]), entries, tickets - {t})
  {
    forall o | o != ""
      ensures UsageOf(Freed(users, tickets[t]), o) == Usage(Share(entries, o), Share(tickets - {t}, o))
    {
      DropItem(tickets, t, o);
    }
  }

  lemma StoredOk(users: map<string, Usage>, entries: map<string, Item>, tickets: map<nat, Item>, id: string, e: Item)
    requires UsersOk(users, entries, tickets) && id !in entries
    ensures UsersOk(Stored(users, e), entries[id := e], tickets)
  {
    forall o | o != "" ensures UsageOf(Stored(users, e), o) == Usage(Share(entries[id := e], o), Share(tickets, o)) {
      AddItem(entries, id, e, o);
    }
  }

  lemma RemovedOk(users: map<string, Usage>, entries: map<string, Item>, tickets: map<nat, Item>, id: string)
    requires UsersOk(users, entries, tickets) && id in entries && SizesOk(entries) && SizesOk(tickets)
    ensures UsersOk(Removed(users, entries[id]), entries - {id}, tickets)
  {
    forall o | o != ""
      ensures UsageOf(Removed(users, entries[id]), o) == Usage(Share(entries - {id}, o), Share(tickets, o))
    {
      DropItem(entries, id, o);
      Bounded(entries - {id}, o);
      Bounded(tickets, o);
    }
  }

  /** A reservation that fits its owner's quota keeps everyone within it. */
  lemma HeldQuota(l: Limits, entries: map<string, Item>, tickets: map<nat, Item>, t: nat, e: Item)
    requires WithinQuota(l, entries, tickets) && t !in tickets
    requires e.owner != "" && l.userMessages > 0 ==>
      Share(entries, e.owner).items + Share(tickets, e.owner).items < l.userMessages
    requires e.owner != "" && l.userBytes > 0 ==>
      Share(entries, e.owner).bytes + Share(tickets, e.owner).bytes + e.size <= l.userBytes
    ensures WithinQuota(l, entries, tickets[t := e])
  {
    forall o | o != ""
      ensures l.userMessages > 0 ==> Share(entries, o).items + Share(tickets[t := e], o).items <= l.userMessages
      ensures l.userBytes > 0 ==> Share(entries, o).bytes + Share(tickets[t := e], o).bytes <= l.userBytes
    {
      AddItem(tickets, t, e, o);
    }
  }

  /** A reservation that ends, a reservation that becomes a message, and a message that goes. */
  lemma FreedQuota(l: Limits, entries: map<string, Item>, tickets: map<nat, Item>, t: nat)
    requires WithinQuota(l, entries, tickets) && t in tickets && 0 <= tickets[t].size
    ensures WithinQuota(l, entries, tickets - {t})
  {
    forall o | o != ""
      ensures Share(tickets - {t}, o).items <= Share(tickets, o).items
      ensures Share(tickets - {t}, o).bytes <= Share(tickets, o).bytes
    {
      DropItem(tickets, t, o);
    }
  }

  lemma MovedQuota(l: Limits, entries: map<string, Item>, tickets: map<nat, Item>, t: nat, id: string)
    requires WithinQuota(l, entries, tickets) && t in tickets && id !in entries && 0 <= tickets[t].size
    ensures WithinQuota(l, entries[id := tickets[t]], tickets - {t})
  {
    forall o | o != ""
      ensures Share(entries[id := tickets[t]], o).items + Share(tickets - {t}, o).items ==
        Share(entries, o).items + Share(tickets, o).items
      ensures Share(entries[id := tickets[t]], o).bytes + Share(tickets - {t}, o).bytes ==
        Share(entries, o).bytes + Share(tickets, o).bytes
    {
      AddItem(entries, id, tickets[t], o);
      DropItem(tickets, t, o);
    }
  }

  lemma GoneQuota(l: Limits, entries: map<string, Item>, tickets: map<nat, Item>, id: string)
    requires WithinQuota(l, entries, tickets) && id in entries && 0 <= entries[id].size
    ensures WithinQuota(l, entries - {id}, tickets)
  {
    forall o | o != ""
      ensures Share(entries - {id}, o).items <= Share(entries, o).items
      ensures Share(entries - {id}, o).bytes <= Share(entries, o).bytes
    {
      DropItem(entries, id, o);
    }
  }

  class Accounts {
    const limits: Limits
    var stored: Sum
    var held: Sum
    var users: map<string, Usage>
    var entries: map<string, Item>
    /** The reservations in flight. */
    ghost var tickets: map<nat, Item>

    ghost predicate Valid() reads this {
      && SizesOk(entries) && SizesOk(tickets)
      && stored == Whole(entries) && held == Whole(tickets)
      && UsersOk(users, entries, tickets) && RoomFor(stored, held)
    }

    constructor (l: Limits)
      ensures Valid() && limits == l && entries == map[] && tickets == map[] && WithinQuota(l, entries, tickets)
    {
      limits := l;
      stored, held, users, entries, tickets := NOTHING, NOTHING, map[], map[], map[];
    }

    /** Whether the quotas of an owner that is not exempt allow one more message. */
    predicate Allowed(size: int, owner: string)
      reads this
    {
      var u := UsageOf(users, owner);
      && (limits.messages > 0 ==> stored.items + held.items < limits.messages)
      && (limits.bytes > 0 ==> stored.bytes + held.bytes + size <= limits.bytes)
      && (limits.userMessages > 0 ==> u.stored.items + u.held.items < limits.userMessages)
      && (limits.userBytes > 0 ==> u.stored.bytes + u.held.bytes + size <= limits.userBytes)
    }

    /** The counters decide as the messages and reservations themselves would: one more, of this size, stays within
        every quota that is set. */
    lemma AllowedIff(size: int, owner: string)
      requires Valid() && owner != ""
      ensures
        var mine, waiting := Share(entries, owner), Share(tickets, owner);
        Allowed(size, owner) <==>
          && (limits.messages > 0 ==> |entries| + |tickets| + 1 <= limits.messages)
          && (limits.bytes > 0 ==> Whole(entries).bytes + Whole(tickets).bytes + size <= limits.bytes)
          && (limits.userMessages > 0 ==> mine.items + waiting.items + 1 <= limits.userMessages)
          && (limits.userBytes > 0 ==> mine.bytes + waiting.bytes + size <= limits.userBytes)
    {
      WholeCounts(entries);
      WholeCounts(tickets);
    }

    /** Reserves room for a message. An exempt reservation has no owner and no quota but the counters'. */
    method Reserve(size: int, exempt: bool, owner: string, space: bool, ghost t: nat) returns (ok: bool)
      requires Valid() && t !in tickets && (if exempt then owner == "" else owner != "")
      modifies `held, `users, `tickets
      ensures Valid() && (ok ==> held == Plus(old(held), size))
      ensures ok ==> tickets == old(tickets)[t := Item(size, owner)]
      ensures !ok ==> tickets == old(tickets) && held == old(held) && users == old(users)
      ensures ok <==>
        size >= 0 && space && RoomFor(stored, Plus(old(held), size)) && (exempt || old(Allowed(size, owner)))
      ensures ok && !exempt ==> WithinTotal(limits, stored, held)
      ensures WithinQuota(limits, entries, old(tickets)) ==> WithinQuota(limits, entries, tickets)
    {
      if size < 0 { return false; }
      if stored.items + held.items >= MAX_INT || stored.bytes + held.bytes + size > MAX_INT { return false; }
      if !exempt && !Allowed(size, owner) { return false; }
      if !space { return false; }
      ghost var item := Item(size, owner);
      AddItem(tickets, t, item, "");
      HeldOk(users, entries, tickets, t, item);
      if WithinQuota(limits, entries, tickets) {
        HeldQuota(limits, entries, tickets, t, item);
      }
      held := Plus(held, size);
      if !exempt {
        var u := UsageOf(users, owner);
        users := users[owner := u.(held := Plus(u.held, size))];
      }
      tickets := tickets[t := item];
      return true;
    }

    /** Ends a reservation. The guards against going below zero never act. */
    method Release(size: int, owner: string, ghost t: nat)
      requires Valid() && t in tickets && tickets[t] == Item(size, owner)
      modifies `held, `users, `tickets
      ensures Valid() && tickets == old(tickets) - {t} && held == Minus(old(held), size)
    {
      DropItem(tickets, t, owner);
      Bounded(tickets, owner);
      FreedOk(users, entries, tickets, t);
      held := Sum(if held.items > 0 then held.items - 1 else held.items,
                  if size > held.bytes then 0 else held.bytes - size);
      if owner != "" {
        var u := UsageOf(users, owner);
        users := users[owner := u.(held := Sum(
          if u.held.items > 0 then u.held.items - 1 else u.held.items,
          if size >= u.held.bytes then 0 else u.held.bytes - size))];
      }
      tickets := tickets - {t};
    }

    /** Counts a message. It fails only when a counter would overflow. */
    method NoteAdded(id: string, e: Item) returns (ok: bool)
      requires Valid() && 0 <= e.size <= MAX_INT
      modifies `stored, `users, `entries
      ensures ok ==> entries == if id in old(entries) then old(entries) else old(entries)[id := e]
      ensures !ok ==> entries == old(entries) && stored == old(stored) && users == old(users)
      ensures ok <==> id in old(entries) || (old(stored).items < MAX_INT && old(stored).bytes + e.size <= MAX_INT)
      ensures SizesOk(entries) && stored == Whole(entries) && UsersOk(users, entries, tickets)
      ensures RoomFor(stored, held) || (ok && id !in old(entries))
    {
      if id in entries { return true; }
      if stored.bytes + e.size > MAX_INT || stored.items == MAX_INT { return false; }
      Bounded(entries, e.owner);
      AddItem(entries, id, e, e.owner);
      StoredOk(users, entries, tickets, id, e);
      Bounded(tickets, e.owner);
      entries := entries[id := e];
      stored := Plus(stored, e.size);
      if e.owner != "" {
        var u := UsageOf(users, e.owner);
        users := users[e.owner := u.(stored := Plus(u.stored, e.size))];
      }
      return true;
    }

    /** A reservation becomes a message: a granted reservation never fails here. */
    method Publish(id: string, size: int, owner: string, ghost t: nat) returns (ok: bool)
      requires Valid() && t in tickets && tickets[t] == Item(size, owner) && id !in entries && 0 <= size <= MAX_INT
      modifies `stored, `held, `users, `entries, `tickets
      ensures Valid() && ok && entries == old(entries)[id := Item(size, owner)] && tickets == old(tickets) - {t}
      ensures WithinQuota(limits, old(entries), old(tickets)) ==> WithinQuota(limits, entries, tickets)
      ensures WithinTotal(limits, old(stored), old(held)) ==> WithinTotal(limits, stored, held)
    {
      if WithinQuota(limits, entries, tickets) {
        MovedQuota(limits, entries, tickets, t, id);
      }
      Bounded(entries, owner);
      Bounded(tickets, owner);
      ghost var before := stored;
      Release(size, owner, t);
      Bounded(tickets, owner);
      ok := NoteAdded(id, Item(size, owner));
      AddItem(old(entries), id, Item(size, owner), owner);
    }

    method NoteRemoved(id: string)
      requires Valid()
      modifies `stored, `users, `entries
      ensures Valid() && entries == old(entries) - {id}
      ensures WithinQuota(limits, old(entries), tickets) ==> WithinQuota(limits, entries, tickets)
      ensures WithinTotal(limits, old(stored), held) ==> WithinTotal(limits, stored, held)
    {
      if id !in entries {
        assert entries - {id} == entries;
        return;
      }
      var e := entries[id];
      if WithinQuota(limits, entries, tickets) {
        GoneQuota(limits, entries, tickets, id);
      }
      DropItem(entries, id, e.owner);
      RemovedOk(users, entries, tickets, id);
      entries := entries - {id};
      stored := Minus(stored, e.size);
      if e.owner != "" {
        var u := UsageOf(users, e.owner);
        u := u.(stored := Minus(u.stored, e.size));
        users := if u.stored.items == 0 && u.held.items == 0 then users - {e.owner} else users[e.owner := u];
      }
    }

    /** Any sequence of reservations, releases, publications and removals on an empty queue: all counts stay
        exact, no publication fails, and no user ever exceeds its quota, with what is in flight. Without exempt
        reservations the whole queue stays within its quota too. */
    method AnyRun(ops: seq<Operation>) returns (fine: bool)
      requires Valid() && entries == map[] && tickets == map[] && WithinQuota(limits, entries, tickets)
      modifies this
      ensures Valid() && WithinQuota(limits, entries, tickets) && fine
      ensures (forall i :: 0 <= i < |ops| && ops[i].Reserving? ==> ops[i].owner != "") ==>
        WithinTotal(limits, stored, held)
    {
      ghost var owned := forall i :: 0 <= i < |ops| && ops[i].Reserving? ==> ops[i].owner != "";
      fine := true;
      var mine: map<nat, Item> := map[];
      for i := 0 to |ops|
        invariant Valid() && WithinQuota(limits, entries, tickets) && fine
        invariant owned ==> WithinTotal(limits, stored, held)
        invariant mine == tickets && forall t :: t in mine ==> t < i
      {
        var ok;
        ok, mine := Perform(ops[i], i, mine);
        fine := fine && ok;
      }
    }

    /** One operation of a run; `mine` are the reservations that can be released or published. */
    method Perform(op: Operation, i: nat, mine: map<nat, Item>) returns (ok: bool, mine': map<nat, Item>)
      requires Valid() && WithinQuota(limits, entries, tickets) && mine == tickets && i !in mine
      modifies this
      ensures Valid() && WithinQuota(limits, entries, tickets) && ok
      ensures mine' == tickets && mine'.Keys <= mine.Keys + {i}
      ensures WithinTotal(limits, old(stored), old(held)) && (op.Reserving? ==> op.owner != "") ==>
        WithinTotal(limits, stored, held)
    {
      ok, mine' := true, mine;
      Bounded(tickets, "");
      Bounded(entries, "");
      match op
      case Reserving(size, owner, space) =>
        var granted := Reserve(size, owner == "", owner, space, i);
        if granted { mine' := mine[i := Item(size, owner)]; }
      case Releasing(t) =>
        if t in mine {
          FreedQuota(limits, entries, tickets, t);
          Release(mine[t].size, mine[t].owner, t);
          mine' := mine - {t};
        }
      case Publishing(t, id) =>
        if t in mine && id !in entries {
          ok := Publish(id, mine[t].size, mine[t].owner, t);
          mine' := mine - {t};
        }
      case Removing(id) =>
        NoteRemoved(id);
    }
  }

  datatype Operation =
    | Reserving(size: int, owner: string, space: bool) | Releasing(t: nat) | Publishing(t: nat, id: string)
    | Removing(id: string)
}
