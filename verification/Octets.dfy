/** Octet strings, and searching them. */
module Octets {

  type Octet = x: int | 0 <= x < 256

  type Octets = seq<Octet>

  const NUL: Octet := 0
  const TAB: Octet := 9
  const LF: Octet := 10
  const CR: Octet := 13
  const SP: Octet := 32
  const COLON: Octet := 58
  const DEL: Octet := 127

  const CRLF: Octets := [CR, LF]

  predicate CrlfAt(s: Octets, i: int) {
    0 <= i < |s| - 1 && s[i] == CR && s[i + 1] == LF
  }

  /** The position of the first line end, or the length of the string when there is none. */
  function FirstCrlf(s: Octets): (i: nat)
    ensures i <= |s| && (i < |s| ==> CrlfAt(s, i))
    ensures forall j :: 0 <= j < i ==> !CrlfAt(s, j)
  {
    if s == [] then 0
    else if CrlfAt(s, 0) then 0
    else
      var i := FirstCrlf(s[1..]);
      assert forall j :: 0 < j < |s| ==> (CrlfAt(s, j) <==> CrlfAt(s[1..], j - 1));
      i + 1
  }

  /** The position of the first `b`, or the length of the string when there is none. */
  function FirstOf(s: Octets, b: Octet): (i: nat)
    ensures i <= |s| && (i < |s| ==> s[i] == b)
    ensures forall j :: 0 <= j < i ==> s[j] != b
  {
    if s == [] then 0 else if s[0] == b then 0 else 1 + FirstOf(s[1..], b)
  }

  lemma FirstCrlfIs(s: Octets, i: int)
    requires CrlfAt(s, i) && forall j :: 0 <= j < i ==> !CrlfAt(s, j)
    ensures FirstCrlf(s) == i
  {
    assert FirstCrlf(s) <= i;
  }

  lemma Assoc(a: Octets, b: Octets, c: Octets)
    ensures a + (b + c) == a + b + c
  {
  }

  function Concat(parts: seq<Octets>): Octets {
    if parts == [] then [] else parts[0] + Concat(parts[1..])
  }

  lemma {:induction false} ConcatAppend(a: seq<Octets>, b: seq<Octets>)
    ensures Concat(a + b) == Concat(a) + Concat(b)
  {
    if a == [] {
      assert a + b == b;
    } else {
      ConcatAppend(a[1..], b);
      assert (a + b)[1..] == a[1..] + b;
      Assoc(a[0], Concat(a[1..]), Concat(b));
    }
  }
}
