/** Slots per key with a common limit (internal/deliver/limiter.go). */
module Limits {

  type Key = string

  /** No slot is ever counted for the empty key. */
  const NONE: Key := ""

  /** The holders of each key that has any. */
  type Table = map<Key, nat>

  function Holders(t: Table, k: Key): nat {
    if k in t then t[k] else 0
  }

  predicate Available(t: Table, limit: int, k: Key) {
    k == NONE || Holders(t, k) < limit
  }

  function Take(t: Table, k: Key): Table {
    if k == NONE then t else t[k := Holders(t, k) + 1]
  }

  function Give(t: Table, k: Key): Table {
    if k !in t then t else if t[k] <= 1 then t - {k} else t[k := t[k] - 1]
  }

  /** Only keys with holders are stored, and none has more than the limit. */
  predicate TableOk(t: Table, limit: int) {
    limit >= 1 && NONE !in t && forall k :: k in t ==> 1 <= t[k] <= limit
  }

  /** Giving a slot back undoes taking it, for every key. */
  lemma TakeGive(t: Table, limit: int, k: Key)
    requires TableOk(t, limit) && Available(t, limit, k)
    ensures TableOk(Take(t, k), limit) && Give(Take(t, k), k) == t
    ensures forall x :: Holders(Take(t, k), x) == Holders(t, x) + if x == k && k != NONE then 1 else 0
  {
  }

  class Limiter {
    const limit: int
    var slots: Table

    ghost predicate Valid() reads this {
      TableOk(slots, limit)
    }

    constructor (wanted: int)
      ensures Valid() && slots == map[] && limit == if wanted < 1 then 1 else wanted
    {
      limit := if wanted < 1 then 1 else wanted;
      slots := map[];
    }

    /** Takes a slot if one is left, without waiting. */
    method TryAcquire(k: Key) returns (ok: bool)
      requires Valid()
      modifies `slots
      ensures Valid() && ok == Available(old(slots), limit, k)
      ensures slots == if ok then Take(old(slots), k) else old(slots)
      ensures forall x :: Holders(slots, x) == Holders(old(slots), x) + if ok && x == k && k != NONE then 1 else 0
    {
      if k == NONE { return true; }
      if k in slots && slots[k] >= limit { return false; }
      var holders := if k in slots then slots[k] else 0;
      slots := slots[k := holders + 1];
      return true;
    }

    method Release(k: Key)
      requires Valid()
      modifies `slots
      ensures Valid() && slots == Give(old(slots), k)
      ensures forall x :: Holders(slots, x) == Holders(old(slots), x) - if x == k && k in old(slots) then 1 else 0
    {
      if k !in slots { return; }
      var holders := slots[k] - 1;
      if holders <= 0 {
        slots := slots - {k};
      } else {
        slots := slots[k := holders];
      }
    }
  }
}
