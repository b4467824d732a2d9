/** The list of envelopes that wait for a slot (internal/deliver/admission.go). */
module Parking {
  import opened Options
  import opened Limits
  import opened Grouping
  import opened Transitions
  import opened Admission

  predicate Waits(w: Wait, kind: Kind, key: Key) {
    w.kind == kind && w.key == key
  }

  /** The position of the first envelope that waits for this slot, or the length of the list. */
  function FirstWaiting(waiting: seq<Wait>, kind: Kind, key: Key): (i: nat)
    ensures i <= |waiting| && (i < |waiting| ==> Waits(waiting[i], kind, key))
    ensures forall k :: 0 <= k < i ==> !Waits(waiting[k], kind, key)
  {
    if waiting == [] then 0 else if Waits(waiting[0], kind, key) then 0 else 1 + FirstWaiting(waiting[1..], kind, key)
  }

  class Lot {
    var waiting: seq<Wait>

    constructor ()
      ensures waiting == []
    {
      waiting := [];
    }

    /** Parks an envelope behind the others; one that waits for a domain remembers it. */
    method Park(e: Envelope, kind: Kind, key: Key)
      modifies this
      ensures waiting == old(waiting) + [Wait(if kind.DomainSlot? then e.(preferred := key) else e, kind, key)]
    {
      var parked := e;
      if kind.DomainSlot? {
        parked := e.(preferred := key);
      }
      waiting := waiting + [Wait(parked, kind, key)];
    }

    /** Takes out the envelope that has waited longest for this slot, and no other. */
    method TakeFirst(kind: Kind, key: Key) returns (found: Option<Envelope>)
      modifies this
      ensures
        var i := FirstWaiting(old(waiting), kind, key);
        if i == |old(waiting)| then found.None? && waiting == old(waiting)
        else found == Some(old(waiting)[i].envelope) && waiting == old(waiting)[..i] + old(waiting)[i + 1..]
    {
      found := None;
      for i := 0 to |waiting|
        invariant waiting == old(waiting) && forall k :: 0 <= k < i ==> !Waits(waiting[k], kind, key)
      {
        if waiting[i].kind == kind && waiting[i].key == key {
          found := Some(waiting[i].envelope);
          waiting := waiting[..i] + waiting[i + 1..];
          return;
        }
      }
    }
  }

  /** Waking by the first match is one of the wake-ups that the interleavings allow. */
  lemma WakeIsEnabled(s: State, kind: Kind, key: Key)
    requires 0 in s.threads && FirstWaiting(s.parked, kind, key) < |s.parked|
    ensures
      var i := FirstWaiting(s.parked, kind, key);
      && Enabled(s, Wake(i)) && Do(s, Wake(i)).parked == s.parked[..i] + s.parked[i + 1..]
      && (Schedulable(s.book, s.parked[i].envelope) ==> s.parked[i].envelope.id in Do(s, Wake(i)).book.scheduled)
  {
  }

  /** Envelopes that wait for the same slot leave in the order in which they came. */
  lemma FirstComeFirstServed(waiting: seq<Wait>, kind: Kind, key: Key, j: int)
    requires 0 <= j < |waiting| && Waits(waiting[j], kind, key)
    ensures FirstWaiting(waiting, kind, key) <= j
    ensures
      var i := FirstWaiting(waiting, kind, key);
      var rest := waiting[..i] + waiting[i + 1..];
      i < j ==> rest[j - 1] == waiting[j] && FirstWaiting(rest, kind, key) <= j - 1
  {
    var i := FirstWaiting(waiting, kind, key);
    var rest := waiting[..i] + waiting[i + 1..];
    if i < j {
      assert Waits(rest[j - 1], kind, key);
    }
  }
}
