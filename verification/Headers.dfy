/** The header parser and the reassembly of a submission (split, scan and PrepareContext of
    internal/message/message.go). */
module Headers {
  import opened Octets

  const MAX_FIELDS := 1000

  /** A field by its lower-case name, and its lines. */
  datatype Field = Field(name: Octets, value: Octets)

  datatype Error = Malformed | FieldCount

  datatype Result = Ok(fields: seq<Field>) | Err(error: Error)

  predicate White(b: Octet) {
    b == SP || b == TAB
  }

  predicate Controls(s: Octets) {
    exists i :: 0 <= i < |s| && (s[i] == DEL || (s[i] < 32 && s[i] != TAB))
  }

  predicate Blank(s: Octets) {
    forall i :: 0 <= i < |s| ==> 9 <= s[i] <= 13 || s[i] == SP
  }

  predicate ValidName(s: Octets) {
    s != [] && forall i :: 0 <= i < |s| ==> 33 <= s[i] <= 126 && s[i] != COLON
  }

  function Lower(s: Octets): (r: Octets)
    ensures |r| == |s|
  {
    seq(|s|, i requires 0 <= i < |s| => if 65 <= s[i] <= 90 then s[i] + 32 else s[i])
  }

  // ---------- the grammar ----------

  /** One line end, at the end. */
  predicate IsLine(l: Octets) {
    |l| >= 2 && FirstCrlf(l) == |l| - 2
  }

  function Text(l: Octets): Octets
    requires |l| >= 2
  {
    l[..|l| - 2]
  }

  /** A line that continues a field. */
  predicate IsFold(l: Octets) {
    IsLine(l) && White(l[0]) && !Blank(Text(l)) && !Controls(Text(l))
  }

  /** A line that starts a field. */
  predicate IsHead(l: Octets) {
    && IsLine(l) && !White(l[0])
    && var colon := FirstOf(l, COLON);
      0 < colon < |l| && ValidName(l[..colon]) && !Controls(Text(l)[colon + 1..])
  }

  /** A field by its lines. */
  datatype Tree = Tree(head: Octets, folds: seq<Octets>)

  predicate TreeOk(t: Tree) {
    IsHead(t.head) && forall i :: 0 <= i < |t.folds| ==> IsFold(t.folds[i])
  }

  predicate TreesOk(ts: seq<Tree>) {
    forall i :: 0 <= i < |ts| ==> TreeOk(ts[i])
  }

  /** No line of a field holds a control character besides the tab before its line end; so it cannot pass for two
      lines, whatever reads it. */
  lemma CleanLine(l: Octets)
    requires IsHead(l) || IsFold(l)
    ensures forall i :: 0 <= i < |l| - 2 ==> l[i] == TAB || (32 <= l[i] && l[i] != DEL)
    ensures l[|l| - 2] == CR && l[|l| - 1] == LF
  {
    assert CrlfAt(l, |l| - 2);
    forall i | 0 <= i < |l| - 2 ensures l[i] == TAB || (32 <= l[i] && l[i] != DEL) {
      var colon := FirstOf(l, COLON);
      assert l[i] == Text(l)[i];
      if IsHead(l) && i < colon {
        assert l[..colon][i] == l[i];
      } else if IsHead(l) && i > colon {
        assert Text(l)[colon + 1..][i - colon - 1] == l[i];
      }
    }
  }

  function Print(t: Tree): Octets {
    t.head + Concat(t.folds)
  }

  function PrintAll(ts: seq<Tree>): Octets {
    if ts == [] then [] else Print(ts[0]) + PrintAll(ts[1..])
  }

  function FieldOf(t: Tree): Field {
    Field(Lower(t.head[..FirstOf(t.head, COLON)]), Print(t))
  }

  function FieldsOf(ts: seq<Tree>): (fs: seq<Field>)
    ensures |fs| == |ts| && forall i :: 0 <= i < |fs| ==> fs[i] == FieldOf(ts[i])
  {
    seq(|ts|, i requires 0 <= i < |ts| => FieldOf(ts[i]))
  }

  // ---------- the parser ----------

  function Extend(fields: seq<Field>, line: Octets): seq<Field>
    requires fields != []
  {
    fields[|fields| - 1 := fields[|fields| - 1].(value := fields[|fields| - 1].value + line)]
  }

  /** What one line does to the fields found so far. */
  function TakeLine(fields: seq<Field>, line: Octets): Result
    requires IsLine(line)
  {
    if White(line[0]) then
      if fields == [] || !IsFold(line) then Err(Malformed) else Ok(Extend(fields, line))
    else if !IsHead(line) then Err(Malformed)
    else if |fields| >= MAX_FIELDS then Err(FieldCount)
    else Ok(fields + [FieldOf(Tree(line, []))])
  }

  lemma FirstLine(rest: Octets)
    requires FirstCrlf(rest) < |rest|
    ensures IsLine(rest[..FirstCrlf(rest) + 2])
  {
    var end := FirstCrlf(rest);
    var l := rest[..end + 2];
    forall j | 0 <= j < end ensures !CrlfAt(l, j) {
      assert !CrlfAt(rest, j);
    }
    assert CrlfAt(l, end);
    FirstCrlfIs(l, end);
  }

  function Scan(fields: seq<Field>, rest: Octets): Result
    decreases |rest|
  {
    if rest == [] then Ok(fields)
    else
      var end := FirstCrlf(rest);
      if end == |rest| then Err(Malformed)
      else
        FirstLine(rest);
        var r := TakeLine(fields, rest[..end + 2]);
        if r.Err? then r else Scan(r.fields, rest[end + 2..])
  }

  // ---------- printing and scanning are inverse ----------

  lemma LineFirst(l: Octets, rest: Octets)
    requires IsLine(l)
    ensures FirstCrlf(l + rest) == |l| - 2 && (l + rest)[..|l|] == l && (l + rest)[|l|..] == rest
  {
    forall j | 0 <= j < |l| - 2 ensures !CrlfAt(l + rest, j) {
      assert !CrlfAt(l, j);
    }
    assert CrlfAt(l, |l| - 2);
    FirstCrlfIs(l + rest, |l| - 2);
  }

  lemma ScanLine(fields: seq<Field>, l: Octets, rest: Octets)
    requires IsLine(l)
    ensures Scan(fields, l + rest) == var r := TakeLine(fields, l); if r.Err? then r else Scan(r.fields, rest)
  {
    LineFirst(l, rest);
  }

  lemma ScanFold(fields: seq<Field>, l: Octets, rest: Octets)
    requires IsFold(l) && fields != []
    ensures Scan(fields, l + rest) == Scan(Extend(fields, l), rest)
  {
    ScanLine(fields, l, rest);
  }

  lemma ScanHead(fields: seq<Field>, l: Octets, rest: Octets)
    requires IsHead(l) && |fields| < MAX_FIELDS
    ensures Scan(fields, l + rest) == Scan(fields + [FieldOf(Tree(l, []))], rest)
  {
    ScanLine(fields, l, rest);
  }

  function Grow(t: Tree, folds: seq<Octets>): Tree {
    Tree(t.head, t.folds + folds)
  }

  /** Folds extend the last field. */
  lemma {:induction false} ScanFolds(before: seq<Field>, t: Tree, folds: seq<Octets>, rest: Octets)
    requires forall i :: 0 <= i < |folds| ==> IsFold(folds[i])
    ensures Scan(before + [FieldOf(t)], Concat(folds) + rest) == Scan(before + [FieldOf(Grow(t, folds))], rest)
    decreases |folds|
  {
    if folds == [] {
      assert Concat(folds) + rest == rest && t.folds + folds == t.folds;
    } else {
      var l, more := folds[0], folds[1..];
      Assoc(l, Concat(more), rest);
      ScanFold(before + [FieldOf(t)], l, Concat(more) + rest);
      GrowOne(before, t, l);
      ScanFolds(before, Grow(t, [l]), more, rest);
      GrowTwice(t, l, more);
      assert folds == [l] + more;
    }
  }

  lemma GrowTwice(t: Tree, l: Octets, more: seq<Octets>)
    ensures Grow(Grow(t, [l]), more) == Grow(t, [l] + more)
  {
    assert (t.folds + [l]) + more == t.folds + ([l] + more);
  }

  lemma GrowOne(before: seq<Field>, t: Tree, l: Octets)
    ensures Extend(before + [FieldOf(t)], l) == before + [FieldOf(Grow(t, [l]))]
  {
    ConcatAppend(t.folds, [l]);
    assert Concat([l]) == l;
    assert t.head + Concat(t.folds) + l == t.head + (Concat(t.folds) + l);
  }

  lemma ScanTree(before: seq<Field>, t: Tree, rest: Octets)
    requires TreeOk(t) && |before| < MAX_FIELDS
    ensures Scan(before, Print(t) + rest) == Scan(before + [FieldOf(t)], rest)
  {
    Assoc(t.head, Concat(t.folds), rest);
    ScanHead(before, t.head, Concat(t.folds) + rest);
    ScanFolds(before, Tree(t.head, []), t.folds, rest);
    assert Grow(Tree(t.head, []), t.folds) == t;
  }

  lemma FieldsSplit(before: seq<Field>, ts: seq<Tree>)
    requires ts != []
    ensures before + [FieldOf(ts[0])] + FieldsOf(ts[1..]) == before + FieldsOf(ts)
  {
  }

  /** Scanning what was printed finds exactly the printed fields. */
  lemma {:induction false} ScanPrinted(before: seq<Field>, ts: seq<Tree>)
    requires TreesOk(ts) && |before| + |ts| <= MAX_FIELDS
    ensures Scan(before, PrintAll(ts)) == Ok(before + FieldsOf(ts))
    decreases |ts|
  {
    if ts == [] {
      assert before + FieldsOf(ts) == before;
    } else {
      assert TreeOk(ts[0]) && TreesOk(ts[1..]);
      ScanTree(before, ts[0], PrintAll(ts[1..]));
      ScanPrinted(before + [FieldOf(ts[0])], ts[1..]);
      FieldsSplit(before, ts);
    }
  }

  lemma {:induction false} PrintAppend(a: seq<Tree>, b: seq<Tree>)
    ensures PrintAll(a + b) == PrintAll(a) + PrintAll(b)
  {
    if a == [] {
      assert a + b == b;
    } else {
      PrintAppend(a[1..], b);
      assert (a + b)[0] == a[0] && (a + b)[1..] == a[1..] + b;
      Assoc(Print(a[0]), PrintAll(a[1..]), PrintAll(b));
    }
  }

  lemma FieldsAppend(a: seq<Tree>, t: Tree)
    ensures FieldsOf(a + [t]) == FieldsOf(a) + [FieldOf(t)]
  {
  }

  lemma PrintLast(a: seq<Tree>, t: Tree)
    ensures PrintAll(a + [t]) == PrintAll(a) + Print(t)
  {
    PrintAppend(a, [t]);
    assert PrintAll([t]) == Print(t);
  }

  lemma GrownPrint(t: Tree, l: Octets)
    ensures Print(Grow(t, [l])) == Print(t) + l
  {
    ConcatAppend(t.folds, [l]);
    assert Concat([l]) == l;
    Assoc(t.head, Concat(t.folds), l);
  }

  /** A fold grows the last tree. */
  lemma FoldTree(init: seq<Tree>, t: Tree, l: Octets)
    ensures Extend(FieldsOf(init + [t]), l) == FieldsOf(init + [Grow(t, [l])])
    ensures PrintAll(init + [Grow(t, [l])]) == PrintAll(init + [t]) + l
  {
    FieldsAppend(init, t);
    FieldsAppend(init, Grow(t, [l]));
    GrowOne(FieldsOf(init), t, l);
    PrintLast(init, t);
    PrintLast(init, Grow(t, [l]));
    GrownPrint(t, l);
    Assoc(PrintAll(init), Print(t), l);
  }

  lemma HeadTree(ts: seq<Tree>, l: Octets)
    ensures FieldsOf(ts) + [FieldOf(Tree(l, []))] == FieldsOf(ts + [Tree(l, [])])
    ensures PrintAll(ts + [Tree(l, [])]) == PrintAll(ts) + l
  {
    FieldsAppend(ts, Tree(l, []));
    PrintLast(ts, Tree(l, []));
    assert Print(Tree(l, [])) == l;
  }

  /** What a line that is taken can be. */
  lemma TakenLine(fields: seq<Field>, l: Octets)
    requires IsLine(l) && TakeLine(fields, l).Ok?
    ensures
      || (IsFold(l) && fields != [] && TakeLine(fields, l).fields == Extend(fields, l))
      || (IsHead(l) && |fields| < MAX_FIELDS && TakeLine(fields, l).fields == fields + [FieldOf(Tree(l, []))])
  {
  }

  lemma GrowOk(t: Tree, l: Octets)
    requires TreeOk(t) && IsFold(l)
    ensures TreeOk(Grow(t, [l]))
  {
  }

  /** One line of a successful scan adds a tree or grows the last one. */
  lemma LineTree(ts: seq<Tree>, l: Octets) returns (ts': seq<Tree>)
    requires TreesOk(ts) && |ts| <= MAX_FIELDS && IsLine(l) && TakeLine(FieldsOf(ts), l).Ok?
    ensures TreesOk(ts') && |ts'| <= MAX_FIELDS
    ensures FieldsOf(ts') == TakeLine(FieldsOf(ts), l).fields && PrintAll(ts') == PrintAll(ts) + l
  {
    TakenLine(FieldsOf(ts), l);
    if IsFold(l) {
      ts' := Folded(ts, l);
    } else {
      HeadTree(ts, l);
      ts' := ts + [Tree(l, [])];
    }
  }

  lemma Folded(ts: seq<Tree>, l: Octets) returns (ts': seq<Tree>)
    requires TreesOk(ts) && ts != [] && IsFold(l)
    ensures TreesOk(ts') && |ts'| == |ts|
    ensures FieldsOf(ts') == Extend(FieldsOf(ts), l) && PrintAll(ts') == PrintAll(ts) + l
  {
    var init, t := ts[..|ts| - 1], ts[|ts| - 1];
    assert ts == init + [t];
    FoldTree(init, t, l);
    GrowOk(t, l);
    ts' := init + [Grow(t, [l])];
  }

  lemma ScanStep(fields: seq<Field>, rest: Octets) returns (l: Octets, tail: Octets)
    requires rest != [] && Scan(fields, rest).Ok?
    ensures rest == l + tail && IsLine(l) && TakeLine(fields, l).Ok?
    ensures Scan(fields, rest) == Scan(TakeLine(fields, l).fields, tail)
  {
    var end := FirstCrlf(rest);
    FirstLine(rest);
    l, tail := rest[..end + 2], rest[end + 2..];
  }

  /** Whatever scans is the print of well-formed fields, and the scan finds exactly those. */
  lemma {:induction false} ScannedPrints(ts: seq<Tree>, rest: Octets) returns (all: seq<Tree>)
    requires TreesOk(ts) && |ts| <= MAX_FIELDS && Scan(FieldsOf(ts), rest).Ok?
    ensures TreesOk(all) && |all| <= MAX_FIELDS
    ensures Scan(FieldsOf(ts), rest) == Ok(FieldsOf(all)) && PrintAll(all) == PrintAll(ts) + rest
    decreases |rest|
  {
    if rest == [] {
      all := ts;
    } else {
      var l, tail := ScanStep(FieldsOf(ts), rest);
      var ts' := LineTree(ts, l);
      all := ScannedPrints(ts', tail);
      Assoc(PrintAll(ts), l, tail);
    }
  }

  /** A header scans to `fields` exactly when it is the print of well-formed fields with those names and
      values, at most MAX_FIELDS of them. */
  lemma ScanIff(header: Octets, fields: seq<Field>)
    ensures Scan([], header) == Ok(fields) <==>
      exists ts :: TreesOk(ts) && |ts| <= MAX_FIELDS && PrintAll(ts) == header && FieldsOf(ts) == fields
  {
    assert FieldsOf([]) == [];
    if Scan([], header) == Ok(fields) {
      var ts := ScannedPrints([], header);
    }
    forall ts | TreesOk(ts) && |ts| <= MAX_FIELDS && PrintAll(ts) == header && FieldsOf(ts) == fields
      ensures Scan([], header) == Ok(fields)
    {
      ScanPrinted([], ts);
      assert [] + FieldsOf(ts) == FieldsOf(ts);
    }
  }

  // ---------- header and body ----------

  predicate EmptyLineAt(d: Octets, i: int) {
    CrlfAt(d, i) && CrlfAt(d, i + 2)
  }

  function FirstEmptyLine(d: Octets): (i: nat)
    ensures i <= |d| && (i < |d| ==> EmptyLineAt(d, i))
    ensures forall j :: 0 <= j < i ==> !EmptyLineAt(d, j)
  {
    if d == [] then 0
    else if EmptyLineAt(d, 0) then 0
    else
      var i := FirstEmptyLine(d[1..]);
      assert forall j :: 0 < j < |d| ==> (EmptyLineAt(d, j) <==> EmptyLineAt(d[1..], j - 1));
      i + 1
  }

  function Split(d: Octets): (Octets, Octets) {
    var i := FirstEmptyLine(d);
    if i == |d| then (d, []) else (d[..i + 2], d[i + 4..])
  }

  /** No empty line inside, and a line end at the end. */
  predicate Tidy(h: Octets) {
    && |h| >= 2 && CrlfAt(h, |h| - 2) && h[0] != CR
    && forall i :: 0 <= i < |h| - 2 && CrlfAt(h, i) ==> h[i + 2] != CR
  }

  lemma LineTidy(l: Octets)
    requires IsLine(l) && l[0] != CR
    ensures Tidy(l)
  {
  }

  lemma TidyJoin(a: Octets, b: Octets)
    requires Tidy(a) && Tidy(b)
    ensures Tidy(a + b)
  {
    var h := a + b;
    assert CrlfAt(b, |b| - 2);
    assert CrlfAt(a, |a| - 2);
    forall i | CrlfAt(h, i) && i + 2 < |h| ensures h[i + 2] != CR {
      if i + 1 < |a| {
        assert CrlfAt(a, i);
      } else {
        assert i >= |a| && CrlfAt(b, i - |a|);
      }
    }
  }

  lemma {:induction false} FoldsTidy(h: Octets, folds: seq<Octets>)
    requires Tidy(h) && forall i :: 0 <= i < |folds| ==> IsFold(folds[i])
    ensures Tidy(h + Concat(folds))
    decreases |folds|
  {
    if folds == [] {
      assert h + Concat(folds) == h;
    } else {
      LineTidy(folds[0]);
      TidyJoin(h, folds[0]);
      FoldsTidy(h + folds[0], folds[1..]);
      assert h + folds[0] + Concat(folds[1..]) == h + Concat(folds);
    }
  }

  lemma TreeTidy(t: Tree)
    requires TreeOk(t)
    ensures Tidy(Print(t))
  {
    var colon := FirstOf(t.head, COLON);
    assert t.head[0] == t.head[..colon][0];
    LineTidy(t.head);
    FoldsTidy(t.head, t.folds);
  }

  lemma {:induction false} PrintedTidy(ts: seq<Tree>)
    requires TreesOk(ts) && ts != []
    ensures Tidy(PrintAll(ts))
    decreases |ts|
  {
    TreeTidy(ts[0]);
    if |ts| == 1 {
      assert PrintAll(ts) == Print(ts[0]);
    } else {
      PrintedTidy(ts[1..]);
      TidyJoin(Print(ts[0]), PrintAll(ts[1..]));
    }
  }

  lemma SplitTidy(h: Octets, body: Octets)
    requires Tidy(h)
    ensures Split(h + CRLF + body) == (h, body)
  {
    var d := h + CRLF + body;
    var at := |h| - 2;
    assert CrlfAt(h, at);
    assert EmptyLineAt(d, at);
    forall j | 0 <= j < at ensures !EmptyLineAt(d, j) {
      if CrlfAt(d, j) { assert CrlfAt(h, j); }
    }
    assert FirstEmptyLine(d) == at;
    assert d[..at + 2] == h && d[at + 4..] == body;
  }

  /** Fields, an empty line and a body split into exactly those fields and that body, if and only if there
      is a field. */
  lemma SplitIff(ts: seq<Tree>, body: Octets)
    requires TreesOk(ts)
    ensures Split(PrintAll(ts) + CRLF + body) == (PrintAll(ts), body) <==> ts != []
  {
    if ts != [] {
      PrintedTidy(ts);
      SplitTidy(PrintAll(ts), body);
    } else {
      assert |Split(PrintAll(ts) + CRLF + body).0| > 0;
    }
  }

  // ---------- the parser's loop ----------

  /** Checks one line and adds it to the fields; `whole` is the last field's value with the line. */
  method ReadLine(fields: seq<Field>, line: Octets, whole: Octets) returns (r: Result)
    requires IsLine(line)
    requires fields != [] ==> whole == fields[|fields| - 1].value + line
    ensures r == TakeLine(fields, line)
  {
    if White(line[0]) {
      if fields == [] { return Err(Malformed); }
      if Blank(Text(line)) { return Err(Malformed); }
      if Controls(Text(line)) { return Err(Malformed); }
      var last := |fields| - 1;
      return Ok(fields[last := fields[last].(value := whole)]);
    }
    var colon := FirstOf(line, COLON);
    if colon == 0 || colon == |line| { return Err(Malformed); }
    if !ValidName(line[..colon]) { return Err(Malformed); }
    if Controls(Text(line)[colon + 1..]) { return Err(Malformed); }
    if |fields| >= MAX_FIELDS { return Err(FieldCount); }
    assert Print(Tree(line, [])) == line;
    return Ok(fields + [Field(Lower(line[..colon]), line)]);
  }

  /** The line of a header at an offset, and what scanning does with it. */
  lemma LineAt(fields: seq<Field>, header: Octets, offset: int, end: int)
    requires 0 <= offset < |header| && FirstCrlf(header[offset..]) < |header| - offset
    requires end == offset + FirstCrlf(header[offset..]) + 2
    ensures IsLine(header[offset..end])
    ensures
      var r := TakeLine(fields, header[offset..end]);
      Scan(fields, header[offset..]) == if r.Err? then r else Scan(r.fields, header[end..])
  {
    FirstLine(header[offset..]);
    Slices(header, offset, end);
    ScanFirst(fields, header[offset..], end - offset);
  }

  lemma Slices(header: Octets, offset: int, end: int)
    requires 0 <= offset <= end <= |header|
    ensures header[offset..][..end - offset] == header[offset..end] && header[offset..][end - offset..] == header[end..]
  {
  }

  /** Scanning takes the first line and goes on with the rest. */
  lemma ScanFirst(fields: seq<Field>, rest: Octets, n: int)
    requires FirstCrlf(rest) < |rest| && n == FirstCrlf(rest) + 2 && n <= |rest| && IsLine(rest[..n])
    ensures
      var r := TakeLine(fields, rest[..n]);
      Scan(fields, rest) == if r.Err? then r else Scan(r.fields, rest[n..])
  {
  }

  lemma LastValue(fields: seq<Field>, line: Octets)
    requires IsLine(line) && TakeLine(fields, line).Ok?
    ensures
      var after := TakeLine(fields, line).fields;
      after != [] && after[|after| - 1].value == if White(line[0]) then fields[|fields| - 1].value + line else line
  {
    assert Print(Tree(line, [])) == line;
  }

  /** The last field found began at `start`. */
  predicate SliceAt(header: Octets, fields: seq<Field>, start: int, offset: int) {
    && 0 <= start <= offset <= |header|
    && (fields != [] ==> fields[|fields| - 1].value == header[start..offset])
  }

  lemma SliceOn(header: Octets, fields: seq<Field>, start: int, offset: int, end: int, after: seq<Field>, fold: bool)
    requires SliceAt(header, fields, start, offset) && offset < end <= |header| && after != []
    requires fold ==> fields != []
    requires after[|after| - 1].value ==
      if fold then fields[|fields| - 1].value + header[offset..end] else header[offset..end]
    ensures SliceAt(header, after, if fold then start else offset, end)
  {
    assert header[start..offset] + header[offset..end] == header[start..end];
  }

  /** Takes the line at `offset`. */
  method NextLine(header: Octets, fields: seq<Field>, start: int, offset: int)
    returns (r: Result, start': int, offset': int)
    requires SliceAt(header, fields, start, offset) && offset < |header|
    ensures r.Err? ==> Scan(fields, header[offset..]) == r
    ensures r.Ok? ==> offset < offset' && SliceAt(header, r.fields, start', offset')
    ensures r.Ok? ==> Scan(fields, header[offset..]) == Scan(r.fields, header[offset'..])
  {
    start', offset' := start, offset;
    var found := FirstCrlf(header[offset..]);
    if found == |header[offset..]| { return Err(Malformed), start', offset'; }
    offset' := offset + found + 2;
    var line := header[offset..offset'];
    LineAt(fields, header, offset, offset');
    SliceJoins(header, start, offset, offset');
    r := ReadLine(fields, line, header[start..offset']);
    if r.Ok? {
      LastValue(fields, line);
      SliceOn(header, fields, start, offset, offset', r.fields, White(line[0]));
      start' := if White(line[0]) then start else offset;
    }
  }

  lemma SliceJoins(header: Octets, start: int, offset: int, end: int)
    requires 0 <= start <= offset <= end <= |header|
    ensures header[start..offset] + header[offset..end] == header[start..end]
  {
  }

  /** Scans a header line by line; a field's value is a slice of the header. */
  method ScanHeader(header: Octets) returns (r: Result)
    ensures r == Scan([], header)
  {
    var start, offset := 0, 0;
    assert header[0..] == header;
    r := Ok([]);
    while offset < |header|
      invariant r.Ok? && SliceAt(header, r.fields, start, offset)
      invariant Scan(r.fields, header[offset..]) == Scan([], header)
      decreases |header| - offset
    {
      r, start, offset := NextLine(header, r.fields, start, offset);
      if r.Err? { return; }
    }
    assert header[offset..] == [];
  }

  // ---------- reassembly ----------

  const BCC: Octets := [98, 99, 99]
  const RESENT_BCC: Octets := [114, 101, 115, 101, 110, 116, 45, 98, 99, 99]
  const RETURN_PATH: Octets := [114, 101, 116, 117, 114, 110, 45, 112, 97, 116, 104]
  const DATE: Octets := [100, 97, 116, 101]
  const MESSAGE_ID: Octets := [109, 101, 115, 115, 97, 103, 101, 45, 105, 100]

  predicate Hidden(name: Octets) {
    name == BCC || name == RESENT_BCC || name == RETURN_PATH
  }

  /** A field that the reassembly copies: not a hidden one, and not one that was replaced. */
  predicate Copied(f: Field, newDate: bool, newId: bool) {
    !Hidden(f.name) && !(newDate && f.name == DATE) && !(newId && f.name == MESSAGE_ID)
  }

  function Kept(ts: seq<Tree>, newDate: bool, newId: bool): (kept: seq<Tree>)
    ensures TreesOk(ts) ==> TreesOk(kept)
    ensures |kept| <= |ts| && forall i :: 0 <= i < |kept| ==> kept[i] in ts && Copied(FieldOf(kept[i]), newDate, newId)
  {
    if ts == [] then []
    else
      var rest := Kept(ts[1..], newDate, newId);
      if Copied(FieldOf(ts[0]), newDate, newId) then [ts[0]] + rest else rest
  }

  /** The same letter, whatever its case. */
  predicate SameLetter(a: Octet, b: Octet) {
    a == b || (65 <= a <= 90 && b == a + 32) || (65 <= b <= 90 && a == b + 32)
  }

  predicate SameName(a: Octets, b: Octets) {
    |a| == |b| && forall i :: 0 <= i < |a| ==> SameLetter(a[i], b[i])
  }

  lemma LowerIff(a: Octets, b: Octets)
    ensures Lower(a) == Lower(b) <==> SameName(a, b)
  {
    if Lower(a) == Lower(b) {
      forall i | 0 <= i < |a| ensures SameLetter(a[i], b[i]) {
        assert Lower(a)[i] == Lower(b)[i];
      }
    }
  }

  /** The name of a field as it is written. */
  function NameOf(t: Tree): Octets {
    t.head[..FirstOf(t.head, COLON)]
  }

  /** In whatever letter case it is written, the name is none of those that the reassembly leaves out. */
  predicate Stays(t: Tree, newDate: bool, newId: bool) {
    var n := NameOf(t);
    && !SameName(n, BCC) && !SameName(n, RESENT_BCC) && !SameName(n, RETURN_PATH)
    && !(newDate && SameName(n, DATE)) && !(newId && SameName(n, MESSAGE_ID))
  }

  lemma CopiedIff(t: Tree, newDate: bool, newId: bool)
    ensures Copied(FieldOf(t), newDate, newId) <==> Stays(t, newDate, newId)
  {
    assert Lower(BCC) == BCC && Lower(RESENT_BCC) == RESENT_BCC && Lower(RETURN_PATH) == RETURN_PATH;
    assert Lower(DATE) == DATE && Lower(MESSAGE_ID) == MESSAGE_ID;
    LowerIff(NameOf(t), BCC);
    LowerIff(NameOf(t), RESENT_BCC);
    LowerIff(NameOf(t), RETURN_PATH);
    LowerIff(NameOf(t), DATE);
    LowerIff(NameOf(t), MESSAGE_ID);
  }

  /** These positions, in order, are exactly those of the fields that stay. */
  ghost predicate Picks(ts: seq<Tree>, at: seq<int>, newDate: bool, newId: bool) {
    && (forall i, j :: 0 <= i < j < |at| ==> at[i] < at[j])
    && (forall i :: i in at <==> 0 <= i < |ts| && Stays(ts[i], newDate, newId))
  }

  /** The copied fields are exactly those that stay, whole and in their order. */
  lemma {:induction false} KeptPicks(ts: seq<Tree>, newDate: bool, newId: bool) returns (at: seq<int>)
    ensures Picks(ts, at, newDate, newId) && |Kept(ts, newDate, newId)| == |at|
    ensures forall i :: 0 <= i < |at| ==> 0 <= at[i] < |ts| && Kept(ts, newDate, newId)[i] == ts[at[i]]
    decreases |ts|
  {
    at := [];
    if ts != [] {
      var init, last := ts[..|ts| - 1], ts[|ts| - 1];
      assert ts == init + [last];
      var before := KeptPicks(init, newDate, newId);
      KeptLast(init, last, newDate, newId);
      CopiedIff(last, newDate, newId);
      at := PicksLast(init, last, before, newDate, newId);
    }
  }

  lemma KeptIff(ts: seq<Tree>, newDate: bool, newId: bool)
    ensures forall t :: t in Kept(ts, newDate, newId) <==> t in ts && Stays(t, newDate, newId)
  {
    var kept := Kept(ts, newDate, newId);
    var at := KeptPicks(ts, newDate, newId);
    forall t ensures t in kept <==> t in ts && Stays(t, newDate, newId) {
      if t in kept {
        CopiedIff(t, newDate, newId);
      }
      if t in ts && Stays(t, newDate, newId) {
        var i :| 0 <= i < |ts| && ts[i] == t;
        var k :| 0 <= k < |at| && at[k] == i;
        assert kept[k] == t;
      }
    }
  }

  lemma {:induction false} KeptLast(ts: seq<Tree>, t: Tree, newDate: bool, newId: bool)
    ensures Kept(ts + [t], newDate, newId) ==
      Kept(ts, newDate, newId) + if Copied(FieldOf(t), newDate, newId) then [t] else []
    decreases |ts|
  {
    if ts == [] {
      assert ts + [t] == [t];
    } else {
      assert (ts + [t])[0] == ts[0] && (ts + [t])[1..] == ts[1..] + [t];
      KeptLast(ts[1..], t, newDate, newId);
    }
  }

  lemma PicksLast(ts: seq<Tree>, t: Tree, before: seq<int>, newDate: bool, newId: bool) returns (at: seq<int>)
    requires Picks(ts, before, newDate, newId)
    ensures at == before + (if Stays(t, newDate, newId) then [|ts|] else []) && Picks(ts + [t], at, newDate, newId)
  {
    at := before + if Stays(t, newDate, newId) then [|ts|] else [];
    assert forall i :: 0 <= i < |before| ==> before[i] in before;
  }

  /** What is written after the first i fields, and what the others will add. */
  predicate Writing(out: Octets, header: Octets, ts: seq<Tree>, i: int, newDate: bool, newId: bool)
    requires 0 <= i <= |ts|
  {
    out + PrintAll(Kept(ts[i..], newDate, newId)) == header
  }

  /** Writes the generated fields, the copied ones, an empty line and the body. */
  method Reassemble(generated: Octets, fields: seq<Field>, body: Octets, newDate: bool, newId: bool,
                    ghost ts: seq<Tree>) returns (out: Octets)
    requires FieldsOf(ts) == fields
    ensures out == generated + PrintAll(Kept(ts, newDate, newId)) + CRLF + body
  {
    out := generated;
    ghost var header := generated + PrintAll(Kept(ts, newDate, newId));
    assert Writing(out, header, ts, 0, newDate, newId) by { assert ts[0..] == ts; }
    for i := 0 to |fields|
      invariant Writing(out, header, ts, i, newDate, newId)
    {
      ghost var after := CopyStep(out, header, fields, ts, i, newDate, newId);
      if Copied(fields[i], newDate, newId) {
        out := out + fields[i].value;
      }
    }
    Written(out, header, ts, newDate, newId);
    out := out + CRLF + body;
  }

  lemma KeptStep(ts: seq<Tree>, newDate: bool, newId: bool)
    requires ts != []
    ensures PrintAll(Kept(ts, newDate, newId)) ==
      (if Copied(FieldOf(ts[0]), newDate, newId) then FieldOf(ts[0]).value else [])
      + PrintAll(Kept(ts[1..], newDate, newId))
  {
    var rest := Kept(ts[1..], newDate, newId);
    assert ([ts[0]] + rest)[1..] == rest;
  }

  lemma Written(out: Octets, header: Octets, ts: seq<Tree>, newDate: bool, newId: bool)
    requires Writing(out, header, ts, |ts|, newDate, newId)
    ensures out == header
  {
    assert ts[|ts|..] == [];
  }

  lemma CopyStep(out: Octets, header: Octets, fields: seq<Field>, ts: seq<Tree>, i: int, newDate: bool, newId: bool)
    returns (after: Octets)
    requires FieldsOf(ts) == fields && 0 <= i < |ts| && Writing(out, header, ts, i, newDate, newId)
    ensures after == if Copied(fields[i], newDate, newId) then out + fields[i].value else out
    ensures Writing(after, header, ts, i + 1, newDate, newId)
  {
    assert fields[i] == FieldOf(ts[i]);
    after := if Copied(fields[i], newDate, newId) then out + fields[i].value else out;
    var rest := PrintAll(Kept(ts[i + 1..], newDate, newId));
    KeptStep(ts[i..], newDate, newId);
    assert ts[i..][0] == ts[i] && ts[i..][1..] == ts[i + 1..];
    Assoc(out, FieldOf(ts[i]).value, rest);
    assert [] + rest == rest;
  }

  lemma ScanAll(all: seq<Tree>)
    requires TreesOk(all) && |all| <= MAX_FIELDS
    ensures Scan([], PrintAll(all)) == Ok(FieldsOf(all))
  {
    ScanPrinted([], all);
    assert [] + FieldsOf(all) == FieldsOf(all);
  }

  lemma TreesJoin(a: seq<Tree>, b: seq<Tree>)
    requires TreesOk(a) && TreesOk(b)
    ensures TreesOk(a + b) && FieldsOf(a + b) == FieldsOf(a) + FieldsOf(b)
  {
  }

  function Reassembled(generated: seq<Tree>, kept: seq<Tree>, body: Octets): Octets {
    PrintAll(generated) + PrintAll(kept) + CRLF + body
  }

  /** The reassembled message splits into the generated and the copied fields, and the same body. */
  lemma ReassembledSplits(generated: seq<Tree>, kept: seq<Tree>, body: Octets)
    requires TreesOk(generated) && TreesOk(kept) && generated != []
    ensures Split(Reassembled(generated, kept, body)) == (PrintAll(generated + kept), body)
  {
    TreesJoin(generated, kept);
    PrintAppend(generated, kept);
    SplitIff(generated + kept, body);
  }

  /** Its header scans to exactly those fields, as long as they are not too many; so none of the hidden
      fields is left. */
  lemma ReassembledParses(generated: seq<Tree>, ts: seq<Tree>, body: Octets, newDate: bool, newId: bool)
    requires TreesOk(generated) && TreesOk(ts) && generated != []
    ensures
      var kept := Kept(ts, newDate, newId);
      var out := Split(Reassembled(generated, kept, body));
      && out.1 == body
      && (|generated| + |kept| <= MAX_FIELDS ==> Scan([], out.0) == Ok(FieldsOf(generated) + FieldsOf(kept)))
    ensures forall f :: f in FieldsOf(Kept(ts, newDate, newId)) ==> !Hidden(f.name)
    ensures forall t :: t in Kept(ts, newDate, newId) <==> t in ts && Stays(t, newDate, newId)
  {
    var kept := Kept(ts, newDate, newId);
    KeptIff(ts, newDate, newId);
    ReassembledSplits(generated, kept, body);
    TreesJoin(generated, kept);
    if |generated| + |kept| <= MAX_FIELDS {
      ScanAll(generated + kept);
    }
  }
}
