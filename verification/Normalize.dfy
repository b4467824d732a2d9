/** Line ends of a submission (normalize of internal/message/message.go). */
module Normalize {
  import opened Octets

  const MAX_LINE := 998

  datatype Error = Binary | LongLine

  datatype Result = Ok(data: Octets) | Err(error: Error)

  /** What every line end becomes, before the final one is made sure of. */
  function Normal(raw: Octets): Octets {
    if raw == [] then []
    else if raw[0] == CR then CRLF + Normal(raw[if |raw| > 1 && raw[1] == LF then 2 else 1..])
    else if raw[0] == LF then CRLF + Normal(raw[1..])
    else [raw[0]] + Normal(raw[1..])
  }

  predicate EndsLine(d: Octets) {
    |d| >= 2 && d[|d| - 2..] == CRLF
  }

  function Closed(d: Octets): Octets {
    if EndsLine(d) then d else d + CRLF
  }

  predicate InLine(b: Octet) {
    b != CR && b != LF
  }

  /** A line of more than MAX_LINE octets, the first of which follows `before` others. */
  predicate LongFrom(raw: Octets, before: nat) {
    before > MAX_LINE || (raw != [] && LongFrom(raw[1..], if InLine(raw[0]) then before + 1 else 0))
  }

  /** Some MAX_LINE + 1 consecutive octets hold no line end. */
  ghost predicate HasLongLine(raw: Octets) {
    exists i :: LongRunAt(raw, i)
  }

  predicate LongRunAt(raw: Octets, i: int) {
    0 <= i && i + MAX_LINE < |raw| && forall k :: i <= k <= i + MAX_LINE ==> InLine(raw[k])
  }

  /** Line ends are CR LF and nothing else, and the text ends with one. */
  predicate Canonical(d: Octets) {
    Paired(d) && EndsLine(d)
  }

  /** The length of the line end at position i, or zero. */
  function LineEnd(raw: Octets, i: int): (n: int)
    requires 0 <= i < |raw|
    ensures 0 <= n <= 2 && i + n <= |raw|
  {
    if raw[i] == CR then if i + 1 < |raw| && raw[i + 1] == LF then 2 else 1
    else if raw[i] == LF then 1 else 0
  }

  /** What the octets at position i contribute. */
  lemma NormalStep(raw: Octets, i: int)
    requires 0 <= i < |raw|
    ensures
      var n := LineEnd(raw, i);
      Normal(raw[i..]) == if n > 0 then CRLF + Normal(raw[i + n..]) else [raw[i]] + Normal(raw[i + 1..])
  {
    assert raw[i..][1..] == raw[i + 1..];
    if LineEnd(raw, i) == 2 {
      assert raw[i..][1] == LF && raw[i..][2..] == raw[i + 2..];
    }
  }

  lemma LongStep(raw: Octets, i: int, length: nat)
    requires 0 <= i < |raw| && length <= MAX_LINE
    ensures
      var n := LineEnd(raw, i);
      LongFrom(raw[i..], length) == if n > 0 then LongFrom(raw[i + n..], 0) else LongFrom(raw[i + 1..], length + 1)
  {
    assert raw[i..][1..] == raw[i + 1..];
    if LineEnd(raw, i) == 2 {
      assert raw[i + 1..][0] == LF && raw[i + 1..][1..] == raw[i + 2..];
    }
  }

  /** How far the loop has come. */
  predicate Done(raw: Octets, i: int, out: Octets, length: int) {
    && 0 <= i <= |raw| && 0 <= length <= MAX_LINE
    && out + Normal(raw[i..]) == Normal(raw) && LongFrom(raw[i..], length) == LongFrom(raw, 0)
  }

  lemma DoneEnd(raw: Octets, i: int, out: Octets, length: int)
    requires Done(raw, i, out, length) && i < |raw| && LineEnd(raw, i) > 0
    ensures Done(raw, i + LineEnd(raw, i), out + CRLF, 0)
  {
    NormalStep(raw, i);
    LongStep(raw, i, length);
    var rest := Normal(raw[i + LineEnd(raw, i)..]);
    assert out + (CRLF + rest) == (out + CRLF) + rest;
  }

  lemma DoneOctet(raw: Octets, i: int, out: Octets, length: int)
    requires Done(raw, i, out, length) && i < |raw| && LineEnd(raw, i) == 0 && length < MAX_LINE
    ensures Done(raw, i + 1, out + [raw[i]], length + 1)
  {
    NormalStep(raw, i);
    LongStep(raw, i, length);
    JoinOctet(out, raw[i], Normal(raw[i + 1..]));
  }

  lemma JoinOctet(a: Octets, b: Octet, c: Octets)
    ensures a + ([b] + c) == (a + [b]) + c
  {
  }

  lemma TooLong(raw: Octets, i: int, out: Octets)
    requires Done(raw, i, out, MAX_LINE) && i < |raw| && LineEnd(raw, i) == 0
    ensures LongFrom(raw, 0)
  {
    LongStep(raw, i, MAX_LINE);
  }

  lemma DoneNothing(raw: Octets)
    ensures Done(raw, 0, [], 0)
  {
    assert raw[0..] == raw && [] + Normal(raw) == Normal(raw);
  }

  lemma DoneAll(raw: Octets, out: Octets, length: int)
    requires Done(raw, |raw|, out, length)
    ensures out == Normal(raw) && !LongFrom(raw, 0)
  {
    assert raw[|raw|..] == [] && out + [] == out;
  }

  /** The canonical text with the lines of the submission, or an error. */
  method Normalize(raw: Octets) returns (r: Result)
    ensures r == if NUL in raw then Err(Binary) else if LongFrom(raw, 0) then Err(LongLine) else Ok(Closed(Normal(raw)))
    ensures r.Ok? ==> SameLines(raw, r.data)
  {
    r := Rewrite(raw);
    NormalizedLines(raw);
  }

  method Rewrite(raw: Octets) returns (r: Result)
    ensures r == if NUL in raw then Err(Binary) else if LongFrom(raw, 0) then Err(LongLine) else Ok(Closed(Normal(raw)))
  {
    if NUL in raw { return Err(Binary); }
    var out: Octets := [];
    var length := 0;
    var i := 0;
    DoneNothing(raw);
    while i < |raw|
      invariant Done(raw, i, out, length)
    {
      var n := LineEnd(raw, i);
      if n > 0 {
        DoneEnd(raw, i, out, length);
        i, out, length := i + n, out + CRLF, 0;
      } else {
        if length + 1 > MAX_LINE {
          TooLong(raw, i, out);
          return Err(LongLine);
        }
        DoneOctet(raw, i, out, length);
        i, out, length := i + 1, out + [raw[i]], length + 1;
      }
    }
    DoneAll(raw, out, length);
    return Ok(if EndsLine(out) then out else out + CRLF);
  }

  // ---------- what the result is like ----------

  /** The loop's count finds exactly the long lines. */
  lemma {:induction false} LongFromIff(raw: Octets, before: nat)
    ensures LongFrom(raw, before) <==>
      before > MAX_LINE || HasLongLine(raw) || (exists n :: HeadRun(raw, n) && before + n > MAX_LINE)
  {
    if before <= MAX_LINE && raw != [] {
      var rest := raw[1..];
      LongFromIff(rest, if InLine(raw[0]) then before + 1 else 0);
      RunShift(raw);
      if InLine(raw[0]) {
        assert LongRunAt(raw, 0) ==> HeadRun(rest, MAX_LINE);
        assert HeadRun(raw, 1);
        forall n | HeadRun(rest, n) ensures HeadRun(raw, n + 1) {}
        forall n | HeadRun(raw, n) && n > 0 ensures HeadRun(rest, n - 1) {}
        if exists n :: HeadRun(rest, n) && before + 1 + n > MAX_LINE {
          var n :| HeadRun(rest, n) && before + 1 + n > MAX_LINE;
          assert HeadRun(raw, n + 1);
        }
        if exists n :: HeadRun(raw, n) && before + n > MAX_LINE {
          var n :| HeadRun(raw, n) && before + n > MAX_LINE;
          assert HeadRun(rest, n - 1);
        }
      } else {
        if exists n :: HeadRun(rest, n) && n > MAX_LINE {
          var n :| HeadRun(rest, n) && n > MAX_LINE;
          assert LongRunAt(rest, 0);
        }
      }
    }
  }

  /** The first n octets hold no line end. */
  predicate HeadRun(raw: Octets, n: int) {
    0 <= n <= |raw| && forall k :: 0 <= k < n ==> InLine(raw[k])
  }

  lemma RunShift(raw: Octets)
    requires raw != []
    ensures HasLongLine(raw) <==> HasLongLine(raw[1..]) || LongRunAt(raw, 0)
  {
    var rest := raw[1..];
    forall i | LongRunAt(rest, i) ensures LongRunAt(raw, i + 1) {
      forall k | i + 1 <= k <= i + 1 + MAX_LINE ensures InLine(raw[k]) { assert rest[k - 1] == raw[k]; }
    }
    forall i | LongRunAt(raw, i) && i > 0 ensures LongRunAt(rest, i - 1) {}
  }

  lemma LongLineIff(raw: Octets)
    ensures LongFrom(raw, 0) <==> HasLongLine(raw)
  {
    LongFromIff(raw, 0);
    if exists n :: HeadRun(raw, n) && 0 + n > MAX_LINE {
      var n :| HeadRun(raw, n) && n > MAX_LINE;
      assert LongRunAt(raw, 0);
    }
  }

  /** Normalizing neither joins nor splits lines. */
  lemma {:induction false} LongKept(raw: Octets, before: nat)
    ensures LongFrom(Normal(raw), before) == LongFrom(raw, before)
    decreases |raw|
  {
    if raw != [] && before <= MAX_LINE {
      var n := Normal(raw);
      if raw[0] == CR {
        var rest := raw[if |raw| > 1 && raw[1] == LF then 2 else 1..];
        assert n[0] == CR && n[1..][0] == LF && n[1..][1..] == Normal(rest);
        LongKept(rest, 0);
        assert |raw| > 1 && raw[1] == LF ==> raw[1..][0] == LF && raw[1..][1..] == rest;
      } else if raw[0] == LF {
        assert n[0] == CR && n[1..][0] == LF && n[1..][1..] == Normal(raw[1..]);
        LongKept(raw[1..], 0);
      } else {
        assert n[0] == raw[0] && n[1..] == Normal(raw[1..]);
        LongKept(raw[1..], before + 1);
      }
    }
  }

  lemma {:induction false} LongClosed(d: Octets, before: nat)
    ensures LongFrom(d + CRLF, before) == LongFrom(d, before)
  {
    if d == [] {
      assert (d + CRLF)[1..] == [LF] && [LF][1..] == [];
      assert !LongFrom([LF], 0);
    } else {
      LongClosed(d[1..], if InLine(d[0]) then before + 1 else 0);
      assert (d + CRLF)[1..] == d[1..] + CRLF;
    }
  }

  /** Every CR is followed by LF and every LF preceded by CR. */
  predicate Paired(d: Octets) {
    forall i :: 0 <= i < |d| ==> PairedAt(d, i)
  }

  predicate PairedAt(d: Octets, i: int)
    requires 0 <= i < |d|
  {
    (d[i] == CR ==> i + 1 < |d| && d[i + 1] == LF) && (d[i] == LF ==> i > 0 && d[i - 1] == CR)
  }

  lemma PairedJoin(a: Octets, b: Octets)
    requires Paired(a) && Paired(b)
    ensures Paired(a + b)
  {
    forall i | 0 <= i < |a + b| ensures PairedAt(a + b, i) {
      if i < |a| { assert PairedAt(a, i); } else { assert PairedAt(b, i - |a|); }
    }
  }

  lemma {:induction false} NormalPaired(raw: Octets)
    ensures Paired(Normal(raw)) && (NUL !in raw ==> NUL !in Normal(raw))
    decreases |raw|
  {
    if raw != [] {
      if raw[0] == CR {
        var rest := raw[if |raw| > 1 && raw[1] == LF then 2 else 1..];
        NormalPaired(rest);
        PairedJoin(CRLF, Normal(rest));
      } else if raw[0] == LF {
        NormalPaired(raw[1..]);
        PairedJoin(CRLF, Normal(raw[1..]));
      } else {
        NormalPaired(raw[1..]);
        PairedJoin([raw[0]], Normal(raw[1..]));
      }
    }
  }

  /** Canonical text stays as it is. */
  lemma {:induction false} NormalFixes(d: Octets)
    requires Paired(d)
    ensures Normal(d) == d
    decreases |d|
  {
    if d != [] {
      assert PairedAt(d, 0);
      if d[0] == CR {
        PairedTail(d, 2);
        NormalFixes(d[2..]);
        assert d == CRLF + d[2..];
      } else {
        PairedTail(d, 1);
        NormalFixes(d[1..]);
        assert d == [d[0]] + d[1..];
      }
    }
  }

  lemma PairedTail(d: Octets, n: int)
    requires Paired(d) && 0 < n <= |d| && d[n - 1] != CR
    ensures Paired(d[n..])
  {
    var t := d[n..];
    forall i | 0 <= i < |t| ensures PairedAt(t, i) { assert PairedAt(d, i + n); }
  }

  /** The outcome of normalizing: an error exactly for a NUL octet or a long line, or canonical text without
      either. */
  lemma NormalizedIsCanonical(raw: Octets)
    requires NUL !in raw && !HasLongLine(raw)
    ensures var d := Closed(Normal(raw)); Canonical(d) && NUL !in d && !HasLongLine(d)
  {
    LongLineKept(raw);
    NormalPaired(raw);
    ClosedCanonical(Normal(raw));
  }

  lemma LongLineKept(raw: Octets)
    ensures HasLongLine(Closed(Normal(raw))) <==> HasLongLine(raw)
  {
    LongLineIff(raw);
    LongKept(raw, 0);
    LongClosed(Normal(raw), 0);
    LongLineIff(Closed(Normal(raw)));
  }

  lemma ClosedCanonical(d: Octets)
    requires Paired(d)
    ensures Canonical(Closed(d)) && (NUL !in d ==> NUL !in Closed(d))
  {
    CrlfPaired();
    PairedJoin(d, CRLF);
  }

  lemma CrlfPaired()
    ensures Paired(CRLF)
  {
  }

  /** Normalizing what was normalized changes nothing. */
  lemma NormalizeTwice(raw: Octets)
    ensures var d := Closed(Normal(raw)); Closed(Normal(d)) == d && LongFrom(d, 0) == LongFrom(raw, 0)
  {
    NormalPaired(raw);
    ClosedCanonical(Normal(raw));
    NormalFixes(Closed(Normal(raw)));
    LongKept(raw, 0);
    LongClosed(Normal(raw), 0);
  }

  /** The texts that normalizing leaves alone are the canonical ones. */
  lemma CanonicalIff(d: Octets)
    ensures Canonical(d) <==> Closed(Normal(d)) == d
  {
    if Canonical(d) {
      NormalFixes(d);
    }
    NormalPaired(d);
    ClosedCanonical(Normal(d));
  }

  // ---------- lines ----------

  datatype Ending = CrLf | LoneCr | LoneLf

  function EndOctets(e: Ending): Octets {
    match e
    case CrLf => [CR, LF]
    case LoneCr => [CR]
    case LoneLf => [LF]
  }

  /** A line and what ended it. */
  datatype Piece = Piece(line: Octets, end: Ending)

  predicate Plain(l: Octets) {
    forall i :: 0 <= i < |l| ==> InLine(l[i])
  }

  /** A text from its lines, and what follows the last line end. */
  function Text(ps: seq<Piece>, rest: Octets): Octets {
    if ps == [] then rest else ps[0].line + (EndOctets(ps[0].end) + Text(ps[1..], rest))
  }

  /** Lines hold no line end, and a CR that ends a line alone is not followed by LF. */
  predicate Proper(ps: seq<Piece>, rest: Octets) {
    if ps == [] then Plain(rest)
    else
      var tail := Text(ps[1..], rest);
      Plain(ps[0].line) && (ps[0].end.LoneCr? && tail != [] ==> tail[0] != LF) && Proper(ps[1..], rest)
  }

  /** The same lines, each ended by CR LF. */
  function AllCrlf(ps: seq<Piece>): seq<Piece> {
    if ps == [] then [] else [Piece(ps[0].line, CrLf)] + AllCrlf(ps[1..])
  }

  lemma {:induction false} NormalLine(l: Octets, tail: Octets)
    requires Plain(l)
    ensures Normal(l + tail) == l + Normal(tail)
    decreases |l|
  {
    if l == [] {
      assert l + tail == tail && l + Normal(tail) == Normal(tail);
    } else {
      assert (l + tail)[0] == l[0] && (l + tail)[1..] == l[1..] + tail;
      NormalLine(l[1..], tail);
      assert [l[0]] + (l[1..] + Normal(tail)) == l + Normal(tail);
    }
  }

  lemma NormalEnding(e: Ending, tail: Octets)
    requires e.LoneCr? && tail != [] ==> tail[0] != LF
    ensures Normal(EndOctets(e) + tail) == CRLF + Normal(tail)
  {
    var d := EndOctets(e) + tail;
    assert d[|EndOctets(e)|..] == tail;
  }

  /** Normalizing replaces every line end by CR LF and nothing else: whatever the lines of a text are, they stay. */
  lemma {:induction false} NormalText(ps: seq<Piece>, rest: Octets)
    requires Proper(ps, rest)
    ensures Normal(Text(ps, rest)) == Text(AllCrlf(ps), rest)
    decreases |ps|
  {
    if ps == [] {
      NormalLine(rest, []);
      assert rest + [] == rest;
    } else {
      var tail := Text(ps[1..], rest);
      NormalLine(ps[0].line, EndOctets(ps[0].end) + tail);
      NormalEnding(ps[0].end, tail);
      NormalText(ps[1..], rest);
      assert AllCrlf(ps)[1..] == AllCrlf(ps[1..]);
    }
  }

  /** Every text has lines. */
  lemma {:induction false} HasLines(raw: Octets) returns (ps: seq<Piece>, rest: Octets)
    ensures Proper(ps, rest) && Text(ps, rest) == raw
    decreases |raw|
  {
    if raw == [] {
      ps, rest := [], [];
    } else if InLine(raw[0]) {
      ps, rest := HasLines(raw[1..]);
      assert raw == [raw[0]] + raw[1..];
      if ps == [] {
        assert Text(ps, rest) == rest;
        rest := [raw[0]] + rest;
        assert Plain(rest);
      } else {
        ps := LongerLine(raw[0], ps, rest);
      }
    } else {
      var e := if raw[0] == LF then LoneLf else if |raw| > 1 && raw[1] == LF then CrLf else LoneCr;
      var n := |EndOctets(e)|;
      assert raw == EndOctets(e) + raw[n..];
      ps, rest := HasLines(raw[n..]);
      ps := EmptyLine(e, ps, rest);
    }
  }

  lemma EmptyLine(e: Ending, ps: seq<Piece>, rest: Octets) returns (more: seq<Piece>)
    requires Proper(ps, rest)
    requires var tail := Text(ps, rest); e.LoneCr? && tail != [] ==> tail[0] != LF
    ensures Proper(more, rest) && Text(more, rest) == EndOctets(e) + Text(ps, rest)
  {
    more := [Piece([], e)] + ps;
    assert more[1..] == ps;
    assert [] + (EndOctets(e) + Text(ps, rest)) == EndOctets(e) + Text(ps, rest);
  }

  lemma LongerLine(b: Octet, ps: seq<Piece>, rest: Octets) returns (longer: seq<Piece>)
    requires Proper(ps, rest) && ps != [] && InLine(b)
    ensures Proper(longer, rest) && Text(longer, rest) == [b] + Text(ps, rest)
  {
    var p := Piece([b] + ps[0].line, ps[0].end);
    longer := [p] + ps[1..];
    assert longer[1..] == ps[1..];
    var more := EndOctets(ps[0].end) + Text(ps[1..], rest);
    assert p.line + more == [b] + (ps[0].line + more);
  }

  /** The text ends with its last line end exactly when nothing follows that; a final line end is added if not. */
  lemma ClosedText(ps: seq<Piece>, rest: Octets)
    requires Plain(rest)
    ensures
      var d := Text(AllCrlf(ps), rest);
      Closed(d) == if ps != [] && rest == [] then d else d + CRLF
  {
    if rest != [] {
      LastOfRest(AllCrlf(ps), rest);
      LastInLine(Text(AllCrlf(ps), rest));
    } else if ps != [] {
      LastEnds(ps);
    }
  }

  lemma LastInLine(d: Octets)
    requires d != [] && InLine(d[|d| - 1])
    ensures !EndsLine(d)
  {
    if |d| >= 2 { assert d[|d| - 2..][1] == d[|d| - 1]; }
  }

  lemma {:induction false} LastOfRest(ps: seq<Piece>, rest: Octets)
    requires rest != []
    ensures var d := Text(ps, rest); d != [] && d[|d| - 1] == rest[|rest| - 1]
    decreases |ps|
  {
    if ps != [] { LastOfRest(ps[1..], rest); }
  }

  lemma {:induction false} LastEnds(ps: seq<Piece>)
    requires ps != []
    ensures EndsLine(Text(AllCrlf(ps), []))
    decreases |ps|
  {
    assert AllCrlf(ps)[1..] == AllCrlf(ps[1..]);
    if ps[1..] != [] {
      LastEnds(ps[1..]);
      EndsLineAfter(ps[0].line + CRLF, Text(AllCrlf(ps[1..]), []));
    } else {
      EndsLineAfter(ps[0].line, CRLF);
    }
    Reassociated(ps[0].line, CRLF, Text(AllCrlf(ps[1..]), []));
  }

  lemma EndsLineAfter(x: Octets, tail: Octets)
    requires EndsLine(tail)
    ensures EndsLine(x + tail)
  {
    assert (x + tail)[|x + tail| - 2..] == tail[|tail| - 2..];
  }

  lemma Reassociated(x: Octets, y: Octets, z: Octets)
    ensures x + (y + z) == (x + y) + z
    ensures z == [] ==> x + (y + z) == x + y
  { }

  /** The result has exactly the lines of the text, in order and octet for octet, each ended by CR LF. */
  ghost predicate SameLines(raw: Octets, d: Octets) {
    forall ps, rest :: Proper(ps, rest) && raw == Text(ps, rest) ==>
      d == Text(AllCrlf(ps), rest) + if ps != [] && rest == [] then [] else [CR, LF]
  }

  lemma NormalizedLines(raw: Octets)
    ensures SameLines(raw, Closed(Normal(raw)))
  {
    forall ps, rest | Proper(ps, rest) && raw == Text(ps, rest)
      ensures Closed(Normal(raw)) == Text(AllCrlf(ps), rest) + if ps != [] && rest == [] then [] else [CR, LF]
    {
      NormalText(ps, rest);
      RestPlain(ps, rest);
      ClosedText(ps, rest);
    }
  }

  lemma {:induction false} RestPlain(ps: seq<Piece>, rest: Octets)
    requires Proper(ps, rest)
    ensures Plain(rest)
    decreases |ps|
  {
    if ps != [] { RestPlain(ps[1..], rest); }
  }
}
