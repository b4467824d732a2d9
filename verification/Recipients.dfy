/** What an attempt does to its recipients (internal/deliver/send.go, outcome.go, attempt.go and response.go),
    and what the queue demands of them (internal/queue/validation.go). */
module Recipients {
  import opened Options
  import Codes

  /** A text by its code points. */
  type Text = seq<nat>

  const MAX_DETAIL := 65536
  const MAX_DIAGNOSTIC := 1024
  const SPACE: nat := 32

  /** The UTF-8 length of a code point. */
  function RuneLen(r: nat): (n: nat)
    ensures 1 <= n <= 4
  {
    if r < 0x80 then 1 else if r < 0x800 then 2 else if r < 0x10000 then 3 else 4
  }

  function Bytes(t: Text): nat {
    if t == [] then 0 else Bytes(t[..|t| - 1]) + RuneLen(t[|t| - 1])
  }

  predicate Visible(t: Text, hidden: nat -> bool) {
    forall i :: 0 <= i < |t| ==> !hidden(t[i])
  }

  // ---------- diagnostics ----------

  function TrimLeft(t: Text, white: nat -> bool): Text {
    if t != [] && white(t[0]) then TrimLeft(t[1..], white) else t
  }

  function TrimRight(t: Text, white: nat -> bool): Text {
    if t != [] && white(t[|t| - 1]) then TrimRight(t[..|t| - 1], white) else t
  }

  /** A text that normalizing leaves alone. */
  predicate Clean(t: Text, hidden: nat -> bool, white: nat -> bool) {
    Visible(t, hidden) && Bytes(t) <= MAX_DIAGNOSTIC && (t != [] ==> !white(t[0]) && !white(t[|t| - 1]))
  }

  lemma {:induction false} BytesDrop(t: Text)
    requires t != []
    ensures Bytes(t[1..]) <= Bytes(t)
    decreases |t|
  {
    if |t| > 1 {
      var init := t[..|t| - 1];
      BytesDrop(init);
      assert init[1..] == t[1..][..|t| - 2] && t[1..][|t| - 2] == t[|t| - 1];
    }
  }

  lemma {:induction false} LeftClean(t: Text, hidden: nat -> bool, white: nat -> bool)
    requires Visible(t, hidden) && Bytes(t) <= MAX_DIAGNOSTIC
    ensures var l := TrimLeft(t, white); Visible(l, hidden) && Bytes(l) <= MAX_DIAGNOSTIC && (l != [] ==> !white(l[0]))
    decreases |t|
  {
    if t != [] && white(t[0]) {
      BytesDrop(t);
      LeftClean(t[1..], hidden, white);
    }
  }

  lemma {:induction false} RightClean(t: Text, hidden: nat -> bool, white: nat -> bool)
    requires Visible(t, hidden) && Bytes(t) <= MAX_DIAGNOSTIC && (t != [] ==> !white(t[0]))
    ensures Clean(TrimRight(t, white), hidden, white)
    decreases |t|
  {
    if t != [] && white(t[|t| - 1]) {
      RightClean(t[..|t| - 1], hidden, white);
    }
  }

  /** The text with a space for every run of hidden characters between visible ones, and nothing for a run at
      an end. */
  function Squeezed(s: Text, hidden: nat -> bool): Text {
    if s == [] then []
    else
      var r, before := s[|s| - 1], Squeezed(s[..|s| - 1], hidden);
      if hidden(r) then before
      else if |s| > 1 && hidden(s[|s| - 2]) && before != [] then before + [SPACE, r]
      else before + [r]
  }

  /** The longest beginning of a text that is within the bound. */
  function Fit(t: Text): (p: Text)
    ensures p <= t && Bytes(p) <= MAX_DIAGNOSTIC && (p == t || Bytes(t[..|p| + 1]) > MAX_DIAGNOSTIC)
  {
    if Bytes(t) <= MAX_DIAGNOSTIC then t
    else
      var p := Fit(t[..|t| - 1]);
      assert if |p| + 1 == |t| then t[..|p| + 1] == t else t[..|p| + 1] == t[..|t| - 1][..|p| + 1];
      p
  }

  function Trimmed(t: Text, white: nat -> bool): Text {
    TrimRight(TrimLeft(t, white), white)
  }

  function Normalized(s: Text, hidden: nat -> bool, white: nat -> bool): Text {
    Trimmed(Fit(Squeezed(s, hidden)), white)
  }

  lemma BytesMore(t: Text, r: nat)
    ensures Bytes(t + [r]) == Bytes(t) + RuneLen(r)
  {
    assert (t + [r])[..|t|] == t;
  }

  lemma {:induction false} PrefixBytes(s: Text, n: int)
    requires 0 <= n <= |s|
    ensures Bytes(s[..n]) <= Bytes(s)
    decreases |s|
  {
    if n < |s| {
      PrefixBytes(s[..|s| - 1], n);
      assert s[..|s| - 1][..n] == s[..n];
    } else {
      assert s[..n] == s;
    }
  }

  /** The bound cuts where the next character does not fit. */
  lemma {:induction false} FitCut(t: Text, p: Text, r: nat)
    requires p + [r] <= t && Bytes(p) <= MAX_DIAGNOSTIC < Bytes(p + [r])
    ensures Fit(t) == p
    decreases |t|
  {
    assert t[..|p| + 1] == p + [r];
    PrefixBytes(t, |p| + 1);
    var init := t[..|t| - 1];
    if |t| == |p| + 1 {
      assert init == p;
    } else {
      assert p + [r] <= init;
      FitCut(init, p, r);
    }
  }

  lemma SqueezedStep(s: Text, i: nat, hidden: nat -> bool)
    requires i < |s|
    ensures
      var before, r := Squeezed(s[..i], hidden), s[i];
      Squeezed(s[..i + 1], hidden) ==
        if hidden(r) then before
        else if i > 0 && hidden(s[i - 1]) && before != [] then before + [SPACE, r]
        else before + [r]
  {
    assert s[..i + 1][..i] == s[..i];
  }

  lemma {:induction false} SqueezedPrefix(s: Text, i: nat, hidden: nat -> bool)
    requires i <= |s|
    ensures Squeezed(s[..i], hidden) <= Squeezed(s, hidden)
    decreases |s| - i
  {
    if i < |s| {
      SqueezedStep(s, i, hidden);
      SqueezedPrefix(s, i + 1, hidden);
    } else {
      assert s[..i] == s;
    }
  }

  lemma {:induction false} SqueezedVisible(s: Text, hidden: nat -> bool)
    requires !hidden(SPACE)
    ensures Visible(Squeezed(s, hidden), hidden)
    decreases |s|
  {
    if s != [] {
      SqueezedVisible(s[..|s| - 1], hidden);
      assert s[..|s|] == s;
      SqueezedStep(s, |s| - 1, hidden);
    }
  }

  lemma {:induction false} VisibleSqueezed(s: Text, hidden: nat -> bool)
    requires Visible(s, hidden)
    ensures Squeezed(s, hidden) == s
    decreases |s|
  {
    if s != [] {
      var init := s[..|s| - 1];
      VisibleSqueezed(init, hidden);
      assert s == init + [s[|s| - 1]];
    }
  }

  // ---------- what normalizing keeps ----------

  predicate AllHidden(t: Text, hidden: nat -> bool) {
    forall i :: 0 <= i < |t| ==> hidden(t[i])
  }

  /** Hidden characters at the end go without a trace. */
  lemma {:induction false} EndDropped(a: Text, h: Text, hidden: nat -> bool)
    requires AllHidden(h, hidden)
    ensures Squeezed(a + h, hidden) == Squeezed(a, hidden)
    decreases |h|
  {
    if h == [] {
      assert a + h == a;
    } else {
      var init := h[..|h| - 1];
      assert (a + h)[..|a + h| - 1] == a + init && (a + h)[|a + h| - 1] == h[|h| - 1];
      EndDropped(a, init, hidden);
    }
  }

  /** A run of hidden characters before visible ones is one space, or nothing where nothing visible came before:
      from run to run this says what becomes of every text. */
  lemma {:induction false} RunSqueezed(a: Text, h: Text, v: Text, hidden: nat -> bool)
    requires AllHidden(h, hidden) && Visible(v, hidden) && h != [] && v != []
    ensures Squeezed(a + h + v, hidden) ==
      if Squeezed(a, hidden) == [] then v else Squeezed(a, hidden) + [SPACE] + v
    decreases |v|
  {
    var init, r := v[..|v| - 1], v[|v| - 1];
    assert (a + h + v)[..|a + h + v| - 1] == a + h + init && (a + h + v)[|a + h + v| - 1] == r;
    assert v == init + [r];
    if init == [] {
      assert a + h + init == a + h && (a + h + v)[|a + h + v| - 2] == h[|h| - 1];
      EndDropped(a, h, hidden);
      assert v == [r];
    } else {
      assert (a + h + v)[|a + h + v| - 2] == init[|init| - 1];
      RunSqueezed(a, h, init, hidden);
    }
  }

  /** What of a text is neither hidden nor white. */
  function Ink(t: Text, hidden: nat -> bool, white: nat -> bool): Text {
    if t == [] then []
    else
      var r := t[|t| - 1];
      Ink(t[..|t| - 1], hidden, white) + if hidden(r) || white(r) then [] else [r]
  }

  lemma InkMore(t: Text, r: nat, hidden: nat -> bool, white: nat -> bool)
    ensures Ink(t + [r], hidden, white) == Ink(t, hidden, white) + if hidden(r) || white(r) then [] else [r]
  {
    assert (t + [r])[..|t|] == t;
  }

  lemma {:induction false} InkSqueezed(s: Text, hidden: nat -> bool, white: nat -> bool)
    requires white(SPACE)
    ensures Ink(Squeezed(s, hidden), hidden, white) == Ink(s, hidden, white)
    decreases |s|
  {
    if s != [] {
      var init, r := s[..|s| - 1], s[|s| - 1];
      var before := Squeezed(init, hidden);
      InkSqueezed(init, hidden, white);
      InkMore(before, SPACE, hidden, white);
      InkMore(before + [SPACE], r, hidden, white);
      InkMore(before, r, hidden, white);
      assert before + [SPACE, r] == before + [SPACE] + [r];
    }
  }

  /** Squeezing does not lengthen a text: a space is no longer than what it stands for. */
  lemma {:induction false} SqueezedBytes(s: Text, hidden: nat -> bool)
    ensures Bytes(Squeezed(s, hidden)) + (if s != [] && hidden(s[|s| - 1]) then 1 else 0) <= Bytes(s)
    decreases |s|
  {
    if s != [] {
      var init, r := s[..|s| - 1], s[|s| - 1];
      var before := Squeezed(init, hidden);
      SqueezedBytes(init, hidden);
      assert before + [SPACE, r] == before + [SPACE] + [r];
      BytesMore(before, SPACE);
      BytesMore(before + [SPACE], r);
      BytesMore(before, r);
    }
  }

  lemma {:induction false} InkPrefix(t: Text, n: int, hidden: nat -> bool, white: nat -> bool)
    requires 0 <= n <= |t|
    ensures Ink(t[..n], hidden, white) <= Ink(t, hidden, white)
    decreases |t|
  {
    if n < |t| {
      InkPrefix(t[..|t| - 1], n, hidden, white);
      assert t[..|t| - 1][..n] == t[..n];
    } else {
      assert t[..n] == t;
    }
  }

  lemma {:induction false} InkLeft(t: Text, hidden: nat -> bool, white: nat -> bool)
    ensures Ink(TrimLeft(t, white), hidden, white) == Ink(t, hidden, white)
    decreases |t|
  {
    if t != [] && white(t[0]) {
      InkTail(t, hidden, white);
      InkLeft(t[1..], hidden, white);
    }
  }

  lemma {:induction false} InkTail(t: Text, hidden: nat -> bool, white: nat -> bool)
    requires t != [] && white(t[0])
    ensures Ink(t[1..], hidden, white) == Ink(t, hidden, white)
    decreases |t|
  {
    var init := t[..|t| - 1];
    if |t| > 1 {
      InkTail(init, hidden, white);
      assert t[1..][..|t| - 2] == init[1..] && t[1..][|t| - 2] == t[|t| - 1];
    }
  }

  lemma {:induction false} InkRight(t: Text, hidden: nat -> bool, white: nat -> bool)
    ensures Ink(TrimRight(t, white), hidden, white) == Ink(t, hidden, white)
    decreases |t|
  {
    if t != [] && white(t[|t| - 1]) {
      InkRight(t[..|t| - 1], hidden, white);
    }
  }

  /** Every other character stays, in its order, up to where the bound cuts; a text within the bound loses none. */
  lemma NormalizedKeeps(s: Text, hidden: nat -> bool, white: nat -> bool)
    requires white(SPACE)
    ensures Ink(Normalized(s, hidden, white), hidden, white) <= Ink(s, hidden, white)
    ensures Bytes(s) <= MAX_DIAGNOSTIC ==> Ink(Normalized(s, hidden, white), hidden, white) == Ink(s, hidden, white)
  {
    var q := Squeezed(s, hidden);
    var f := Fit(q);
    InkSqueezed(s, hidden, white);
    SqueezedBytes(s, hidden);
    InkPrefix(q, |f|, hidden, white);
    assert q[..|f|] == f;
    if f != q { PrefixBytes(q, |f| + 1); }
    InkLeft(f, hidden, white);
    InkRight(TrimLeft(f, white), hidden, white);
  }

  /** What is normalized is clean, and what is clean stays as it is. */
  lemma NormalizedIsClean(s: Text, hidden: nat -> bool, white: nat -> bool)
    requires !hidden(SPACE)
    ensures Clean(Normalized(s, hidden, white), hidden, white)
    ensures Clean(s, hidden, white) ==> Normalized(s, hidden, white) == s
  {
    var q := Squeezed(s, hidden);
    SqueezedVisible(s, hidden);
    if Visible(s, hidden) { VisibleSqueezed(s, hidden); }
    LeftClean(Fit(q), hidden, white);
    RightClean(TrimLeft(Fit(q), white), hidden, white);
  }

  /** Bounds a diagnostic, replaces runs of control and format characters by a space, and trims: what remains
      is the longest beginning of the squeezed text that is within the bound. */
  method NormalizeDiagnostic(s: Text, hidden: nat -> bool, white: nat -> bool) returns (out: Text)
    requires !hidden(SPACE)
    ensures out == Normalized(s, hidden, white)
    ensures Clean(out, hidden, white) && (Clean(s, hidden, white) ==> out == s)
    ensures white(SPACE) ==> Ink(out, hidden, white) <= Ink(s, hidden, white)
    ensures white(SPACE) && Bytes(s) <= MAX_DIAGNOSTIC ==> Ink(out, hidden, white) == Ink(s, hidden, white)
  {
    NormalizedIsClean(s, hidden, white);
    if white(SPACE) { NormalizedKeeps(s, hidden, white); }
    out := [];
    var space := false;
    var i := 0;
    while i < |s|
      invariant 0 <= i <= |s| && Bytes(out) <= MAX_DIAGNOSTIC
      invariant out == Squeezed(s[..i], hidden) && space == (i > 0 && hidden(s[i - 1]))
    {
      var r := s[i];
      if hidden(r) {
        SqueezedStep(s, i, hidden);
        space := true;
      } else {
        ghost var before := out;
        if space && |out| > 0 && Bytes(out) < MAX_DIAGNOSTIC {
          out := out + [SPACE];
        }
        if Bytes(out) + RuneLen(r) > MAX_DIAGNOSTIC {
          Cut(s, i, before, out, space, hidden);
          return Trimmed(out, white);
        }
        Keep(s, i, before, out, space, hidden);
        space := false;
        out := out + [r];
      }
      i := i + 1;
    }
    assert s[..i] == s;
    out := Trimmed(out, white);
  }

  /** Where the loop goes on, it has everything so far. */
  lemma Keep(s: Text, i: nat, before: Text, out: Text, space: bool, hidden: nat -> bool)
    requires i < |s| && !hidden(s[i]) && before == Squeezed(s[..i], hidden) && space == (i > 0 && hidden(s[i - 1]))
    requires out == if space && |before| > 0 && Bytes(before) < MAX_DIAGNOSTIC then before + [SPACE] else before
    requires Bytes(before) <= MAX_DIAGNOSTIC && Bytes(out) + RuneLen(s[i]) <= MAX_DIAGNOSTIC
    ensures out + [s[i]] == Squeezed(s[..i + 1], hidden) && Bytes(out + [s[i]]) <= MAX_DIAGNOSTIC
  {
    SqueezedStep(s, i, hidden);
    BytesMore(out, s[i]);
  }

  /** Where the loop stops, it has the longest beginning. */
  lemma Cut(s: Text, i: nat, before: Text, out: Text, space: bool, hidden: nat -> bool)
    requires i < |s| && !hidden(s[i]) && before == Squeezed(s[..i], hidden) && space == (i > 0 && hidden(s[i - 1]))
    requires out == if space && |before| > 0 && Bytes(before) < MAX_DIAGNOSTIC then before + [SPACE] else before
    requires Bytes(before) <= MAX_DIAGNOSTIC < Bytes(out) + RuneLen(s[i])
    ensures out == Fit(Squeezed(s, hidden))
  {
    SqueezedStep(s, i, hidden);
    SqueezedPrefix(s, i + 1, hidden);
    var q := Squeezed(s[..i + 1], hidden);
    BytesMore(before, SPACE);
    BytesMore(out, q[|out|]);
    FitCut(Squeezed(s, hidden), out, q[|out|]);
  }

  // ---------- recipients ----------

  datatype Status = Pending | Sent | Failed

  datatype Recipient = Recipient(status: Status, code: nat, enhanced: string, detail: Text)

  /** The queue's checks of status, reply code, enhanced code and detail. */
  predicate RecipientOk(r: Recipient, hidden: nat -> bool) {
    && Bytes(r.detail) <= MAX_DETAIL && Visible(r.detail, hidden)
    && (r.code != 0 ==> 200 <= r.code <= 599)
    && (r.enhanced != "" ==> r.code != 0 && Codes.Valid(r.enhanced, r.code))
    && (match r.status
        case Pending => r.code == 0 && r.enhanced == ""
        case Sent => r.code != 0 ==> r.code / 100 == 2
        case Failed => r.code != 0 ==> r.code / 100 == 5)
  }

  /** A host's answer: agreement, or a refusal with its reply code (zero when it was not a reply) and text. Each
      comes with the diagnostic that describes it. */
  datatype Reply = Fine(detail: Text) | Refusal(code: nat, message: string, detail: Text)

  predicate Permanent(r: Reply) {
    r.Refusal? && 500 <= r.code < 600
  }

  /** A recipient of the group at work has no success code: it was pending when the group began. */
  predicate Fresh(r: Recipient) {
    r.code == 0 || r.status.Failed?
  }

  predicate Within(indexes: seq<nat>, n: nat) {
    forall k :: 0 <= k < |indexes| ==> indexes[k] < n
  }

  ghost predicate AllOk(rs: seq<Recipient>, hidden: nat -> bool) {
    forall i :: 0 <= i < |rs| ==> RecipientOk(rs[i], hidden)
  }

  ghost predicate GroupOk(rs: seq<Recipient>, indexes: seq<nat>, hidden: nat -> bool) {
    && Within(indexes, |rs|) && AllOk(rs, hidden)
    && (forall i :: 0 <= i < |rs| && i in indexes ==> Fresh(rs[i]))
  }

  function Rejected(r: Recipient, detail: Text): Recipient {
    r.(status := Failed, detail := detail)
  }

  function RejectedBy(r: Recipient, reply: Reply): Recipient
    requires reply.Refusal?
  {
    Recipient(Failed, reply.code, Codes.Parse(reply.code, reply.message), reply.detail)
  }

  const EXHAUSTED := "5.4.7"

  /** Exhaustion keeps a detail that is there, and expiry does not. */
  function GivenUp(r: Recipient, detail: Text, keep: bool): Recipient {
    if r.status.Pending? then Recipient(Failed, 554, EXHAUSTED, if keep && r.detail != [] then r.detail else detail)
    else r
  }

  /** A pending recipient without a detail gets the group's. */
  function FilledIn(r: Recipient, detail: Text): Recipient {
    if r.status.Pending? && r.detail == [] then r.(detail := detail) else r
  }

  /** A recipient that is still pending gets its earlier detail back. */
  function Restored(r: Recipient, earlier: Text): Recipient {
    if r.status.Pending? then r.(detail := earlier) else r
  }

  /** A detail that the queue accepts. */
  predicate DetailOk(d: Text, hidden: nat -> bool) {
    Bytes(d) <= MAX_DETAIL && Visible(d, hidden)
  }

  /** Every change that an attempt makes keeps a recipient valid. */
  lemma ChangesKeep(r: Recipient, reply: Reply, detail: Text, keep: bool, hidden: nat -> bool)
    requires RecipientOk(r, hidden) && DetailOk(detail, hidden) && DetailOk(reply.detail, hidden)
    ensures Fresh(r) ==> RecipientOk(Rejected(r, detail), hidden) && Fresh(Rejected(r, detail))
    ensures Permanent(reply) ==> RecipientOk(RejectedBy(r, reply), hidden) && Fresh(RejectedBy(r, reply))
    ensures RecipientOk(GivenUp(r, detail, keep), hidden)
    ensures RecipientOk(FilledIn(r, detail), hidden) && RecipientOk(Restored(r, detail), hidden)
    ensures r.status.Pending? ==> RecipientOk(r.(status := Sent, detail := reply.detail), hidden)
    ensures RecipientOk(r.(detail := reply.detail), hidden)
  {
    if Permanent(reply) && Codes.Parse(reply.code, reply.message) != "" {
      Codes.ParsedIsValid(reply.code, reply.message);
    }
    Codes.TerminalCode();
  }

  // ---------- changes to a group ----------

  /** The group's recipients have changed one by one, and nobody else. */
  ghost predicate Mapped(rs: seq<Recipient>, rs': seq<Recipient>, indexes: seq<nat>, change: Recipient -> Recipient) {
    && |rs'| == |rs|
    && forall i :: 0 <= i < |rs| ==> rs'[i] == if i in indexes then change(rs[i]) else rs[i]
  }

  lemma PrefixMore(indexes: seq<nat>, k: nat)
    requires 0 < k <= |indexes|
    ensures forall i :: i in indexes[..k] <==> i in indexes[..k - 1] || i == indexes[k - 1]
  {
    assert indexes[..k] == indexes[..k - 1] + [indexes[k - 1]];
  }

  /** Marks the recipients of a group as failed, without a reply. */
  method Reject(rs: array<Recipient>, indexes: seq<nat>, detail: Text)
    requires Within(indexes, rs.Length)
    modifies rs
    ensures Mapped(old(rs[..]), rs[..], indexes, r => Rejected(r, detail))
    ensures forall i :: 0 <= i < rs.Length && i in indexes ==> rs[i] == old(rs[i]).(status := Failed, detail := detail)
  {
    for k := 0 to |indexes|
      invariant forall i :: 0 <= i < rs.Length ==>
        rs[i] == if i in indexes[..k] then Rejected(old(rs[i]), detail) else old(rs[i])
    {
      PrefixMore(indexes, k + 1);
      rs[indexes[k]] := Rejected(rs[indexes[k]], detail);
    }
    assert indexes[..|indexes|] == indexes;
  }

  /** Marks them as failed by a reply. */
  method RejectSmtp(rs: array<Recipient>, indexes: seq<nat>, reply: Reply)
    requires Within(indexes, rs.Length) && reply.Refusal?
    modifies rs
    ensures Mapped(old(rs[..]), rs[..], indexes, r => RejectedBy(r, reply))
  {
    for k := 0 to |indexes|
      invariant forall i :: 0 <= i < rs.Length ==>
        rs[i] == if i in indexes[..k] then RejectedBy(old(rs[i]), reply) else old(rs[i])
    {
      PrefixMore(indexes, k + 1);
      rs[indexes[k]] := RejectedBy(rs[indexes[k]], reply);
    }
    assert indexes[..|indexes|] == indexes;
  }

  method MarkSent(rs: array<Recipient>, indexes: seq<nat>, detail: Text)
    requires Within(indexes, rs.Length)
    modifies rs
    ensures Mapped(old(rs[..]), rs[..], indexes, (r: Recipient) => r.(status := Sent, detail := detail))
  {
    for k := 0 to |indexes|
      invariant forall i :: 0 <= i < rs.Length ==>
        rs[i] == if i in indexes[..k] then old(rs[i]).(status := Sent, detail := detail) else old(rs[i])
    {
      PrefixMore(indexes, k + 1);
      rs[indexes[k]] := rs[indexes[k]].(status := Sent, detail := detail);
    }
    assert indexes[..|indexes|] == indexes;
  }

  /** After a group that failed, its error becomes the detail of those that have none. */
  method FillIn(rs: array<Recipient>, indexes: seq<nat>, detail: Text)
    requires Within(indexes, rs.Length)
    modifies rs
    ensures Mapped(old(rs[..]), rs[..], indexes, r => FilledIn(r, detail))
    ensures forall i :: 0 <= i < rs.Length && i in indexes ==>
      var r := old(rs[i]);
      rs[i] == if r.status.Pending? && r.detail == [] then r.(detail := detail) else r
  {
    for k := 0 to |indexes|
      invariant forall i :: 0 <= i < rs.Length ==>
        rs[i] == if i in indexes[..k] then FilledIn(old(rs[i]), detail) else old(rs[i])
    {
      PrefixMore(indexes, k + 1);
      if rs[indexes[k]].status.Pending? && rs[indexes[k]].detail == [] {
        rs[indexes[k]] := rs[indexes[k]].(detail := detail);
      }
    }
    assert indexes[..|indexes|] == indexes;
  }

  /** After a group that was cut short, those still pending get the details they had. */
  method Restore(rs: array<Recipient>, indexes: seq<nat>, previous: seq<Text>)
    requires Within(indexes, rs.Length) && Increasing(indexes) && |previous| == |indexes|
    modifies rs
    ensures forall i :: 0 <= i < rs.Length && i !in indexes ==> rs[i] == old(rs[i])
    ensures forall k :: 0 <= k < |indexes| ==> rs[indexes[k]] == Restored(old(rs[indexes[k]]), previous[k])
    ensures forall k :: 0 <= k < |indexes| && old(rs[indexes[k]]).status.Pending? ==>
      rs[indexes[k]] == old(rs[indexes[k]]).(detail := previous[k])
  {
    for k := 0 to |indexes|
      invariant forall i :: 0 <= i < rs.Length && i !in indexes[..k] ==> rs[i] == old(rs[i])
      invariant forall j :: 0 <= j < k ==> rs[indexes[j]] == Restored(old(rs[indexes[j]]), previous[j])
    {
      PrefixMore(indexes, k + 1);
      NotBefore(indexes, k);
      if rs[indexes[k]].status.Pending? {
        rs[indexes[k]] := rs[indexes[k]].(detail := previous[k]);
      }
    }
    assert indexes[..|indexes|] == indexes;
  }

  /** Expiry and exhaustion give up on whatever is pending. */
  method GiveUp(rs: array<Recipient>, detail: Text, keep: bool)
    modifies rs
    ensures forall i :: 0 <= i < rs.Length ==> rs[i] == GivenUp(old(rs[i]), detail, keep)
    ensures forall i :: 0 <= i < rs.Length && !old(rs[i]).status.Pending? ==> rs[i] == old(rs[i])
    ensures forall i :: 0 <= i < rs.Length && old(rs[i]).status.Pending? ==>
      rs[i].status.Failed? && rs[i].code == 554 && rs[i].enhanced == "5.4.7"
      && rs[i].detail == if keep && old(rs[i]).detail != [] then old(rs[i]).detail else detail
  {
    for i := 0 to rs.Length
      invariant forall k :: 0 <= k < i ==> rs[k] == GivenUp(old(rs[k]), detail, keep)
      invariant forall k :: i <= k < rs.Length ==> rs[k] == old(rs[k])
    {
      rs[i] := GivenUp(rs[i], detail, keep);
    }
  }

  // ---------- one session with a host ----------

  /** The positions of a group, in order. */
  predicate Increasing(indexes: seq<nat>) {
    forall a, b :: 0 <= a < b < |indexes| ==> indexes[a] < indexes[b]
  }

  /** What an answer to RCPT makes of a pending recipient. */
  function Answered(r: Recipient, reply: Reply): Recipient {
    if reply.Fine? then r else if Permanent(reply) then RejectedBy(r, reply) else r.(detail := reply.detail)
  }

  /** The state of one round of RCPT commands: the recipients, the accepted ones and the answers used. */
  datatype Round = Round(rs: seq<Recipient>, accepted: seq<nat>, used: nat)

  /** The next answer goes to the recipient at position i, if it is pending and there is an answer left. */
  function Next(s: Round, i: nat, rcpts: seq<Reply>): Round
    requires i < |s.rs|
  {
    if !s.rs[i].status.Pending? || s.used >= |rcpts| then s
    else
      var reply := rcpts[s.used];
      Round(s.rs[i := Answered(s.rs[i], reply)], if reply.Fine? then s.accepted + [i] else s.accepted, s.used + 1)
  }

  function AfterRcpt(rs: seq<Recipient>, indexes: seq<nat>, rcpts: seq<Reply>, k: nat): (s: Round)
    requires Within(indexes, |rs|) && k <= |indexes|
    ensures |s.rs| == |rs|
  {
    if k == 0 then Round(rs, [], 0) else Next(AfterRcpt(rs, indexes, rcpts, k - 1), indexes[k - 1], rcpts)
  }

  /** How many recipients of the group before position k are pending. */
  function Rank(rs: seq<Recipient>, indexes: seq<nat>, k: nat): nat
    requires Within(indexes, |rs|) && k <= |indexes|
  {
    if k == 0 then 0 else Rank(rs, indexes, k - 1) + if rs[indexes[k - 1]].status.Pending? then 1 else 0
  }

  lemma NotBefore(indexes: seq<nat>, k: nat)
    requires k < |indexes| && Increasing(indexes)
    ensures indexes[k] !in indexes[..k]
  {
  }

  /** Recipients whose turn has not come are as before, and so are those of other groups. */
  lemma {:induction false} RcptFrame(rs: seq<Recipient>, indexes: seq<nat>, rcpts: seq<Reply>, k: nat)
    requires Within(indexes, |rs|) && k <= |indexes|
    ensures forall i :: 0 <= i < |rs| && i !in indexes[..k] ==> AfterRcpt(rs, indexes, rcpts, k).rs[i] == rs[i]
    ensures forall i :: i in AfterRcpt(rs, indexes, rcpts, k).accepted ==> i in indexes[..k]
    decreases k
  {
    if k > 0 {
      RcptFrame(rs, indexes, rcpts, k - 1);
      PrefixMore(indexes, k);
    }
  }

  /** The answers used so far. */
  lemma {:induction false} RcptUsed(rs: seq<Recipient>, indexes: seq<nat>, rcpts: seq<Reply>, k: nat)
    requires Within(indexes, |rs|) && k <= |indexes| && Increasing(indexes)
    ensures
      var n := Rank(rs, indexes, k);
      AfterRcpt(rs, indexes, rcpts, k).used == if n < |rcpts| then n else |rcpts|
    decreases k
  {
    if k > 0 {
      RcptUsed(rs, indexes, rcpts, k - 1);
      RcptFrame(rs, indexes, rcpts, k - 1);
      NotBefore(indexes, k - 1);
    }
  }

  /** The n-th pending recipient of the group has the n-th answer, if the session got that far, and is among
      the accepted exactly when that answer was an agreement. Nobody else changes. */
  ghost predicate AnsweredAt(rs: seq<Recipient>, s: Round, indexes: seq<nat>, rcpts: seq<Reply>, k: nat)
    requires Within(indexes, |rs|) && |s.rs| == |rs| && k < |indexes|
  {
    var n := Rank(rs, indexes, k);
    var r := rs[indexes[k]];
    var answered := r.status.Pending? && n < |rcpts|;
    && s.rs[indexes[k]] == (if answered then Answered(r, rcpts[n]) else r)
    && (indexes[k] in s.accepted <==> answered && rcpts[n].Fine?)
  }

  lemma {:induction false} RcptAnswers(rs: seq<Recipient>, indexes: seq<nat>, rcpts: seq<Reply>, k: nat, j: nat)
    requires Within(indexes, |rs|) && j < k <= |indexes| && Increasing(indexes)
    ensures AnsweredAt(rs, AfterRcpt(rs, indexes, rcpts, k), indexes, rcpts, j)
    decreases k
  {
    if j < k - 1 {
      RcptAnswers(rs, indexes, rcpts, k - 1, j);
      assert indexes[j] < indexes[k - 1];
    } else {
      RcptFrame(rs, indexes, rcpts, j);
      RcptUsed(rs, indexes, rcpts, j);
      NotBefore(indexes, j);
    }
  }

  /** The answers to RCPT, in the order of the pending recipients; a session that breaks leaves some without. */
  method Answers(rs: array<Recipient>, indexes: seq<nat>, rcpts: seq<Reply>) returns (accepted: seq<nat>)
    requires Within(indexes, rs.Length)
    modifies rs
    ensures
      var s := AfterRcpt(old(rs[..]), indexes, rcpts, |indexes|);
      rs[..] == s.rs && accepted == s.accepted
  {
    accepted := [];
    var used := 0;
    for k := 0 to |indexes|
      invariant Round(rs[..], accepted, used) == AfterRcpt(old(rs[..]), indexes, rcpts, k)
    {
      var i := indexes[k];
      ghost var before := rs[..];
      if rs[i].status.Pending? && used < |rcpts| {
        rs[i] := Answered(rs[i], rcpts[used]);
        if rcpts[used].Fine? {
          accepted := accepted + [i];
        }
        used := used + 1;
        assert rs[..] == before[i := rs[i]];
      }
    }
  }

  /** What a session is told: the answers to MAIL and to the RCPT commands that were answered, and if it got that
      far the answer to the message itself. */
  datatype Session = Session(mail: Reply, rcpts: seq<Reply>, data: Option<Reply>)

  ghost predicate SessionDetailsOk(x: Session, hidden: nat -> bool) {
    && DetailOk(x.mail.detail, hidden) && (x.data.Some? ==> DetailOk(x.data.value.detail, hidden))
    && forall i :: 0 <= i < |x.rcpts| ==> DetailOk(x.rcpts[i].detail, hidden)
  }

  /** A recipient after one session with a host, its own answer being `rcpt`. */
  function Outcome(r: Recipient, rcpt: Option<Reply>, data: Option<Reply>): Recipient {
    if !r.status.Pending? || rcpt.None? then r
    else if !rcpt.value.Fine? || data.None? then Answered(r, rcpt.value)
    else if Permanent(data.value) then RejectedBy(r, data.value)
    else if data.value.Fine? then r.(status := Sent, detail := data.value.detail)
    else r
  }

  /** What a session makes of the group: a permanent refusal of MAIL fails all of it, another refusal changes
      nothing, and after an agreement the n-th pending recipient gets the n-th answer, those accepted sharing
      the answer to the message itself. */
  ghost predicate SessionOk(rs: seq<Recipient>, rs': seq<Recipient>, indexes: seq<nat>, x: Session)
    requires Within(indexes, |rs|)
  {
    && |rs'| == |rs|
    && (forall i :: 0 <= i < |rs| && i !in indexes ==> rs'[i] == rs[i])
    && (forall k :: 0 <= k < |indexes| ==> SessionAt(rs, rs', indexes, x, k))
  }

  ghost predicate SessionAt(rs: seq<Recipient>, rs': seq<Recipient>, indexes: seq<nat>, x: Session, k: nat)
    requires Within(indexes, |rs|) && |rs'| == |rs| && k < |indexes|
  {
    var r := rs[indexes[k]];
    var n := Rank(rs, indexes, k);
    rs'[indexes[k]] ==
      if Permanent(x.mail) then RejectedBy(r, x.mail)
      else if x.mail.Refusal? then r
      else Outcome(r, if n < |x.rcpts| then Some(x.rcpts[n]) else None, x.data)
  }

  /** A refusal for good. */
  predicate Final(reply: Reply) {
    reply.Refusal? && 500 <= reply.code <= 599
  }

  /** What becomes of a pending recipient, given the answer to MAIL, its own answer to RCPT and the answer to the
      message, as far as there were any: it is sent if and only if all three agreed, and failed, with the codes and the
      text of the refusal, if and only if one of those that were asked for it refused for good. Otherwise it stays
      pending. */
  predicate Delivered(r: Recipient, r': Recipient, mail: Reply, rcpt: Option<Reply>, data: Option<Reply>) {
    var asked := mail.Fine? && rcpt.Some?;
    var offered := asked && rcpt.value.Fine? && data.Some?;
    && (r'.status.Sent? <==> offered && data.value.Fine?)
    && (r'.status.Failed? <==> Final(mail) || (asked && Final(rcpt.value)) || (offered && Final(data.value)))
    && (r'.status.Failed? ==>
          var no := if Final(mail) then mail else if Final(rcpt.value) then rcpt.value else data.value;
          r'.code == no.code && r'.enhanced == Codes.Parse(no.code, no.message) && r'.detail == no.detail)
    && (r'.status.Sent? ==> r'.detail == data.value.detail)
    && (r'.status.Pending? ==> r'.detail == if asked && rcpt.value.Refusal? then rcpt.value.detail else r.detail)
    && (!r'.status.Failed? ==> r'.code == r.code && r'.enhanced == r.enhanced)
  }

  /** Every recipient of the group that was pending is delivered to as its answers say. */
  ghost predicate SessionDelivers(rs: seq<Recipient>, rs': seq<Recipient>, indexes: seq<nat>, x: Session)
    requires Within(indexes, |rs|) && |rs'| == |rs|
  {
    forall k :: 0 <= k < |indexes| && rs[indexes[k]].status.Pending? ==>
      Delivered(rs[indexes[k]], rs'[indexes[k]], x.mail, OwnAnswer(rs, indexes, x, k), x.data)
  }

  /** The answer to the RCPT command of the recipient at position k of the group. */
  function OwnAnswer(rs: seq<Recipient>, indexes: seq<nat>, x: Session, k: nat): Option<Reply>
    requires Within(indexes, |rs|) && k < |indexes|
  {
    var n := Rank(rs, indexes, k);
    if n < |x.rcpts| then Some(x.rcpts[n]) else None
  }

  lemma OkDelivers(rs: seq<Recipient>, rs': seq<Recipient>, indexes: seq<nat>, x: Session)
    requires Within(indexes, |rs|) && SessionOk(rs, rs', indexes, x)
    ensures SessionDelivers(rs, rs', indexes, x)
  {
    forall k | 0 <= k < |indexes| && rs[indexes[k]].status.Pending?
      ensures Delivered(rs[indexes[k]], rs'[indexes[k]], x.mail, OwnAnswer(rs, indexes, x, k), x.data)
    {
      assert SessionAt(rs, rs', indexes, x, k);
    }
  }

  /** One session with a host. */
  method Send(rs: array<Recipient>, indexes: seq<nat>, x: Session)
    requires Within(indexes, rs.Length) && Increasing(indexes)
    modifies rs
    ensures SessionOk(old(rs[..]), rs[..], indexes, x)
    ensures SessionDelivers(old(rs[..]), rs[..], indexes, x)
  {
    SendAll(rs, indexes, x);
    OkDelivers(old(rs[..]), rs[..], indexes, x);
  }

  method SendAll(rs: array<Recipient>, indexes: seq<nat>, x: Session)
    requires Within(indexes, rs.Length) && Increasing(indexes)
    modifies rs
    ensures SessionOk(old(rs[..]), rs[..], indexes, x)
  {
    ghost var start := rs[..];
    if Permanent(x.mail) {
      RejectSmtp(rs, indexes, x.mail);
      return;
    }
    if x.mail.Refusal? { return; }
    var accepted := Answers(rs, indexes, x.rcpts);
    RcptFrame(start, indexes, x.rcpts, |indexes|);
    assert indexes[..|indexes|] == indexes;
    assert Within(accepted, rs.Length) by {
      forall j | 0 <= j < |accepted| ensures accepted[j] < rs.Length { assert accepted[j] in indexes; }
    }
    if x.data.Some? {
      if Permanent(x.data.value) {
        RejectSmtp(rs, accepted, x.data.value);
      } else if x.data.value.Fine? {
        MarkSent(rs, accepted, x.data.value.detail);
      }
    }
    forall k | 0 <= k < |indexes| ensures SessionAt(start, rs[..], indexes, x, k) {
      RcptAnswers(start, indexes, x.rcpts, |indexes|, k);
    }
  }

  /** A recipient that an earlier host took stays sent through a later session if and only if that host does
      not refuse MAIL for good: such a refusal rewrites the whole group, sent recipients included. */
  lemma SentFinalIff(rs: seq<Recipient>, rs': seq<Recipient>, indexes: seq<nat>, x: Session, k: nat)
    requires Within(indexes, |rs|) && k < |indexes| && rs[indexes[k]].status.Sent? && SessionOk(rs, rs', indexes, x)
    ensures rs'[indexes[k]].status.Sent? <==> !Permanent(x.mail)
  {
    assert SessionAt(rs, rs', indexes, x, k);
  }

  // ---------- attempts ----------

  /** One recipient in the course of a group: whoever is still pending has changed in the detail only. */
  predicate Progress(r: Recipient, r': Recipient) {
    r'.status.Pending? ==> r == r'.(detail := r.detail)
  }

  /** The group is in order, nobody else has changed, and nobody has become pending. */
  ghost predicate GroupRuns(rs: seq<Recipient>, rs': seq<Recipient>, indexes: seq<nat>, hidden: nat -> bool) {
    && |rs'| == |rs| && GroupOk(rs', indexes, hidden)
    && (forall i :: 0 <= i < |rs| && i !in indexes ==> rs'[i] == rs[i])
    && (forall i :: 0 <= i < |rs| ==> Progress(rs[i], rs'[i]))
  }

  lemma OutcomeOk(r: Recipient, rcpt: Option<Reply>, data: Option<Reply>, hidden: nat -> bool)
    requires RecipientOk(r, hidden) && Fresh(r)
    requires rcpt.Some? ==> DetailOk(rcpt.value.detail, hidden)
    requires data.Some? ==> DetailOk(data.value.detail, hidden)
    ensures var o := Outcome(r, rcpt, data); RecipientOk(o, hidden) && Fresh(o) && Progress(r, o)
  {
    if rcpt.Some? { ChangesKeep(r, rcpt.value, [], false, hidden); }
    if data.Some? { ChangesKeep(r, data.value, [], false, hidden); }
  }

  lemma SessionKeepsAt(rs: seq<Recipient>, rs': seq<Recipient>, indexes: seq<nat>, x: Session, k: nat,
                       hidden: nat -> bool)
    requires GroupOk(rs, indexes, hidden) && SessionDetailsOk(x, hidden) && SessionOk(rs, rs', indexes, x)
    requires k < |indexes|
    ensures var i := indexes[k]; RecipientOk(rs'[i], hidden) && Fresh(rs'[i]) && Progress(rs[i], rs'[i])
  {
    assert SessionAt(rs, rs', indexes, x, k);
    assert indexes[k] in indexes;
    var n := Rank(rs, indexes, k);
    ChangesKeep(rs[indexes[k]], x.mail, [], false, hidden);
    OutcomeOk(rs[indexes[k]], if n < |x.rcpts| then Some(x.rcpts[n]) else None, x.data, hidden);
  }

  /** A session keeps every recipient valid. */
  lemma SessionKeeps(rs: seq<Recipient>, rs': seq<Recipient>, indexes: seq<nat>, x: Session, hidden: nat -> bool)
    requires GroupOk(rs, indexes, hidden) && SessionDetailsOk(x, hidden) && SessionOk(rs, rs', indexes, x)
    ensures GroupRuns(rs, rs', indexes, hidden)
  {
    forall i | 0 <= i < |rs'|
      ensures RecipientOk(rs'[i], hidden) && (i in indexes ==> Fresh(rs'[i])) && Progress(rs[i], rs'[i])
    {
      if i in indexes {
        var k :| 0 <= k < |indexes| && indexes[k] == i;
        SessionKeepsAt(rs, rs', indexes, x, k, hidden);
      }
    }
  }

  lemma RejectKeeps(rs: seq<Recipient>, rs': seq<Recipient>, indexes: seq<nat>, detail: Text, hidden: nat -> bool)
    requires GroupOk(rs, indexes, hidden) && DetailOk(detail, hidden)
    requires Mapped(rs, rs', indexes, r => Rejected(r, detail))
    ensures GroupRuns(rs, rs', indexes, hidden)
  {
    forall i | 0 <= i < |rs'| && i in indexes
      ensures RecipientOk(rs'[i], hidden) && Fresh(rs'[i]) && Progress(rs[i], rs'[i])
    {
      ChangesKeep(rs[i], Fine([]), detail, false, hidden);
    }
  }

  lemma RunsOn(rs: seq<Recipient>, rs': seq<Recipient>, rs'': seq<Recipient>, indexes: seq<nat>, hidden: nat -> bool)
    requires GroupRuns(rs, rs', indexes, hidden) && GroupRuns(rs', rs'', indexes, hidden)
    ensures GroupRuns(rs, rs'', indexes, hidden)
  {
  }

  /** What an attempt may do to a group: a session with one of its hosts, or a rejection without a reply. */
  datatype Call = Talk(session: Session) | Refuse(text: Text)

  function Described(r: Reply, hidden: nat -> bool, white: nat -> bool): Reply {
    r.(detail := Normalized(r.detail, hidden, white))
  }

  /** The session with its diagnostics normalized. */
  function Told(x: Session, hidden: nat -> bool, white: nat -> bool): Session {
    Session(Described(x.mail, hidden, white),
            seq(|x.rcpts|, i requires 0 <= i < |x.rcpts| => Described(x.rcpts[i], hidden, white)),
            if x.data.None? then None else Some(Described(x.data.value, hidden, white)))
  }

  lemma NormalizedOk(s: Text, hidden: nat -> bool, white: nat -> bool)
    requires !hidden(SPACE)
    ensures DetailOk(Normalized(s, hidden, white), hidden)
  {
    NormalizedIsClean(s, hidden, white);
  }

  lemma ToldOk(x: Session, hidden: nat -> bool, white: nat -> bool)
    requires !hidden(SPACE)
    ensures SessionDetailsOk(Told(x, hidden, white), hidden)
  {
    NormalizedOk(x.mail.detail, hidden, white);
    if x.data.Some? { NormalizedOk(x.data.value.detail, hidden, white); }
    var told := Told(x, hidden, white);
    forall i | 0 <= i < |told.rcpts| ensures DetailOk(told.rcpts[i].detail, hidden) {
      NormalizedOk(x.rcpts[i].detail, hidden, white);
      assert told.rcpts[i] == Described(x.rcpts[i], hidden, white);
    }
  }

  /** What one call makes of the group. */
  ghost predicate CallOk(rs: seq<Recipient>, rs': seq<Recipient>, indexes: seq<nat>, call: Call,
                         hidden: nat -> bool, white: nat -> bool)
    requires Within(indexes, |rs|)
  {
    match call
    case Talk(session) => SessionOk(rs, rs', indexes, Told(session, hidden, white))
    case Refuse(text) => Mapped(rs, rs', indexes, r => Rejected(r, Normalized(text, hidden, white)))
  }

  /** What several calls make of it, one after the other. */
  ghost predicate Talked(rs: seq<Recipient>, rs': seq<Recipient>, indexes: seq<nat>, calls: seq<Call>,
                         hidden: nat -> bool, white: nat -> bool)
    requires Within(indexes, |rs|)
    decreases |calls|
  {
    if calls == [] then rs' == rs
    else
      var n := |calls| - 1;
      exists mid ::
        |mid| == |rs| && Talked(rs, mid, indexes, calls[..n], hidden, white)
        && CallOk(mid, rs', indexes, calls[n], hidden, white)
  }

  lemma TalkedMore(rs: seq<Recipient>, mid: seq<Recipient>, rs': seq<Recipient>, indexes: seq<nat>, calls: seq<Call>,
                   c: nat, hidden: nat -> bool, white: nat -> bool)
    requires Within(indexes, |rs|) && |mid| == |rs| && c < |calls|
    requires Talked(rs, mid, indexes, calls[..c], hidden, white) && CallOk(mid, rs', indexes, calls[c], hidden, white)
    ensures Talked(rs, rs', indexes, calls[..c + 1], hidden, white)
  {
    assert calls[..c + 1][..c] == calls[..c];
  }

  /** MAIL, the message and some RCPT were agreed to. */
  predicate Agreeing(x: Session) {
    x.mail.Fine? && x.data.Some? && x.data.value.Fine? && exists n :: 0 <= n < |x.rcpts| && x.rcpts[n].Fine?
  }

  /** One of the first n calls was such a session. */
  predicate Carried(calls: seq<Call>, n: nat)
    requires n <= |calls|
  {
    exists c :: 0 <= c < n && calls[c].Talk? && Agreeing(calls[c].session)
  }

  predicate NewlySent(r: Recipient, r': Recipient) {
    r'.status.Sent? && !r.status.Sent?
  }

  /** Nobody is sent but by a session in which host and message agreed. */
  lemma SentByAgreement(rs: seq<Recipient>, rs': seq<Recipient>, indexes: seq<nat>, x: Session, i: nat)
    requires Within(indexes, |rs|) && SessionOk(rs, rs', indexes, x) && i < |rs| && NewlySent(rs[i], rs'[i])
    ensures Agreeing(x)
  {
    assert i in indexes;
    var k :| 0 <= k < |indexes| && indexes[k] == i;
    assert SessionAt(rs, rs', indexes, x, k);
    OkDelivers(rs, rs', indexes, x);
  }

  lemma ToldAgrees(x: Session, hidden: nat -> bool, white: nat -> bool)
    requires Agreeing(Told(x, hidden, white))
    ensures Agreeing(x)
  {
    var told := Told(x, hidden, white);
    var n :| 0 <= n < |told.rcpts| && told.rcpts[n].Fine?;
    assert x.rcpts[n].Fine?;
  }

  /** A call makes somebody sent only if it is such a session. */
  lemma CallAgrees(rs: seq<Recipient>, rs': seq<Recipient>, indexes: seq<nat>, call: Call, hidden: nat -> bool,
                   white: nat -> bool, i: nat)
    requires Within(indexes, |rs|) && CallOk(rs, rs', indexes, call, hidden, white) && |rs'| == |rs| && i < |rs|
    requires NewlySent(rs[i], rs'[i])
    ensures call.Talk? && Agreeing(call.session)
  {
    if call.Talk? {
      SentByAgreement(rs, rs', indexes, Told(call.session, hidden, white), i);
      ToldAgrees(call.session, hidden, white);
    }
  }

  /** Over several calls. */
  lemma {:induction false} TalkedAgrees(rs: seq<Recipient>, rs': seq<Recipient>, indexes: seq<nat>, calls: seq<Call>,
                                        hidden: nat -> bool, white: nat -> bool, i: nat)
    requires Within(indexes, |rs|) && Talked(rs, rs', indexes, calls, hidden, white) && i < |rs| && |rs'| == |rs|
    requires NewlySent(rs[i], rs'[i])
    ensures Carried(calls, |calls|)
    decreases |calls|
  {
    if calls != [] {
      var n := |calls| - 1;
      var mid: seq<Recipient> :| |mid| == |rs| && Talked(rs, mid, indexes, calls[..n], hidden, white)
        && CallOk(mid, rs', indexes, calls[n], hidden, white);
      if mid[i].status.Sent? {
        TalkedAgrees(rs, mid, indexes, calls[..n], hidden, white, i);
        var c :| 0 <= c < n && calls[..n][c].Talk? && Agreeing(calls[..n][c].session);
        assert calls[c].Talk? && Agreeing(calls[c].session);
      } else {
        CallAgrees(mid, rs', indexes, calls[n], hidden, white, i);
        assert calls[n].Talk?;
      }
    }
  }

  /** The hosts of a group, one after the other. */
  method Talks(rs: array<Recipient>, indexes: seq<nat>, calls: seq<Call>, hidden: nat -> bool, white: nat -> bool)
    requires GroupOk(rs[..], indexes, hidden) && Increasing(indexes) && !hidden(SPACE)
    modifies rs
    ensures GroupRuns(old(rs[..]), rs[..], indexes, hidden)
    ensures Talked(old(rs[..]), rs[..], indexes, calls, hidden, white)
  {
    for c := 0 to |calls|
      invariant GroupRuns(old(rs[..]), rs[..], indexes, hidden)
      invariant Talked(old(rs[..]), rs[..], indexes, calls[..c], hidden, white)
    {
      ghost var before := rs[..];
      match calls[c] {
        case Talk(session) =>
          var x := Told(session, hidden, white);
          ToldOk(session, hidden, white);
          Send(rs, indexes, x);
          SessionKeeps(before, rs[..], indexes, x, hidden);
        case Refuse(text) =>
          var detail := NormalizeDiagnostic(text, hidden, white);
          NormalizedOk(text, hidden, white);
          Reject(rs, indexes, detail);
          RejectKeeps(before, rs[..], indexes, detail, hidden);
      }
      RunsOn(old(rs[..]), before, rs[..], indexes, hidden);
      TalkedMore(old(rs[..]), before, rs[..], indexes, calls, c, hidden, white);
    }
    assert calls[..|calls|] == calls;
  }

  /** The pending recipients among those of a group, in order. */
  function PendingOf(rs: seq<Recipient>, members: set<nat>): (indexes: seq<nat>)
    ensures Increasing(indexes)
    ensures forall i :: i in indexes <==> 0 <= i < |rs| && rs[i].status.Pending? && i in members
  {
    if rs == [] then []
    else
      var last := |rs| - 1;
      var before := PendingOf(rs[..last], members);
      assert forall k :: 0 <= k < |before| ==> before[k] in before;
      if rs[last].status.Pending? && last in members then before + [last] else before
  }

  /** How a group ends: cut short, with an error, or neither. */
  datatype End = Canceled | Erred(text: Text) | Over

  /** A recipient before and after some attempts: what is settled is settled for good, and whoever is still
      pending has changed in the detail only. */
  predicate Later(r: Recipient, r': Recipient) {
    if r.status.Pending? then Progress(r, r') else r' == r
  }

  ghost predicate AllLater(rs: seq<Recipient>, rs': seq<Recipient>) {
    |rs'| == |rs| && forall i :: 0 <= i < |rs| ==> Later(rs[i], rs'[i])
  }

  /** A recipient after the end of its group, from what it was before the group and after the calls. */
  function Finished(r: Recipient, talked: Recipient, end: End, hidden: nat -> bool, white: nat -> bool): Recipient {
    match end
    case Canceled => Restored(talked, r.detail)
    case Erred(text) => FilledIn(talked, Normalized(text, hidden, white))
    case Over => talked
  }

  /** The group from the calls to its end. */
  ghost predicate Closed(rs: seq<Recipient>, talked: seq<Recipient>, rs': seq<Recipient>, indexes: seq<nat>, end: End,
                         hidden: nat -> bool, white: nat -> bool)
  {
    && |talked| == |rs| && |rs'| == |rs|
    && forall i :: 0 <= i < |rs| ==>
         rs'[i] == if i in indexes then Finished(rs[i], talked[i], end, hidden, white) else talked[i]
  }

  /** The end of a group: those still pending get back the detail they had, if the attempt was cut short, or the
      group's error if they have none. */
  method Close(ghost start: seq<Recipient>, rs: array<Recipient>, indexes: seq<nat>, previous: seq<Text>, end: End,
               hidden: nat -> bool, white: nat -> bool)
    requires |start| == rs.Length && Within(indexes, rs.Length) && Increasing(indexes) && !hidden(SPACE)
    requires |previous| == |indexes| && forall k :: 0 <= k < |indexes| ==> previous[k] == start[indexes[k]].detail
    modifies rs
    ensures Closed(start, old(rs[..]), rs[..], indexes, end, hidden, white)
  {
    match end
    case Canceled =>
      Restore(rs, indexes, previous);
    case Erred(text) =>
      var detail := NormalizeDiagnostic(text, hidden, white);
      FillIn(rs, indexes, detail);
    case Over =>
  }

  lemma ClosedKeeps(rs: seq<Recipient>, talked: seq<Recipient>, rs': seq<Recipient>, indexes: seq<nat>, end: End,
                    hidden: nat -> bool, white: nat -> bool)
    requires AllOk(rs, hidden) && GroupRuns(rs, talked, indexes, hidden) && !hidden(SPACE)
    requires Closed(rs, talked, rs', indexes, end, hidden, white)
    requires forall i :: 0 <= i < |rs| && i in indexes ==> rs[i].status.Pending?
    ensures AllOk(rs', hidden) && AllLater(rs, rs')
    ensures end.Canceled? ==> forall i :: 0 <= i < |rs| && i in indexes && rs'[i].status.Pending? ==> rs'[i] == rs[i]
  {
    if end.Erred? { NormalizedOk(end.text, hidden, white); }
    forall i | 0 <= i < |rs| && i in indexes
      ensures RecipientOk(rs'[i], hidden) && Progress(rs[i], rs'[i])
      ensures end.Canceled? && rs'[i].status.Pending? ==> rs'[i] == rs[i]
    {
      assert Progress(rs[i], talked[i]) && RecipientOk(rs[i], hidden);
      var detail := if end.Erred? then Normalized(end.text, hidden, white) else rs[i].detail;
      ChangesKeep(talked[i], Fine([]), detail, false, hidden);
    }
  }

  /** One group of an attempt: its recipients that are pending go through the calls and then the end of the group.
      A group that is cut short leaves whoever is still pending as it was. */
  method Group(rs: array<Recipient>, members: set<nat>, calls: seq<Call>, end: End,
               hidden: nat -> bool, white: nat -> bool)
    requires AllOk(rs[..], hidden) && !hidden(SPACE)
    modifies rs
    ensures AllOk(rs[..], hidden) && AllLater(old(rs[..]), rs[..])
    ensures Parted(old(rs[..]), rs[..], members, calls, end, hidden, white)
    ensures end.Canceled? ==>
      forall i :: 0 <= i < rs.Length && i in members && rs[i].status.Pending? ==> rs[i] == old(rs[i])
  {
    ghost var start := rs[..];
    var indexes := PendingOf(rs[..], members);
    PendingWithin(rs[..], members);
    var previous :=
      seq(|indexes|, k requires 0 <= k < |indexes| && indexes[k] < rs.Length reads rs => rs[indexes[k]].detail);
    Talks(rs, indexes, calls, hidden, white);
    ghost var talked := rs[..];
    Close(start, rs, indexes, previous, end, hidden, white);
    ClosedKeeps(start, talked, rs[..], indexes, end, hidden, white);
  }

  lemma PendingWithin(rs: seq<Recipient>, members: set<nat>)
    ensures Within(PendingOf(rs, members), |rs|)
  {
    var indexes := PendingOf(rs, members);
    forall k | 0 <= k < |indexes| ensures indexes[k] < |rs| { assert indexes[k] in indexes; }
  }

  /** What a group of an attempt makes of the recipients. */
  ghost predicate Parted(rs: seq<Recipient>, rs': seq<Recipient>, members: set<nat>, calls: seq<Call>, end: End,
                         hidden: nat -> bool, white: nat -> bool)
  {
    var indexes := PendingOf(rs, members);
    && Within(indexes, |rs|)
    && exists talked ::
         Talked(rs, talked, indexes, calls, hidden, white) && Closed(rs, talked, rs', indexes, end, hidden, white)
  }

  /** A group makes somebody sent only by such a session. */
  lemma PartAgrees(rs: seq<Recipient>, rs': seq<Recipient>, members: set<nat>, calls: seq<Call>, end: End,
                   hidden: nat -> bool, white: nat -> bool, i: nat)
    requires Parted(rs, rs', members, calls, end, hidden, white) && |rs'| == |rs|
    requires i < |rs| && NewlySent(rs[i], rs'[i])
    ensures i in members && Carried(calls, |calls|)
  {
    var indexes := PendingOf(rs, members);
    var talked: seq<Recipient> :|
      Talked(rs, talked, indexes, calls, hidden, white) && Closed(rs, talked, rs', indexes, end, hidden, white);
    assert talked[i].status.Sent?;
    TalkedAgrees(rs, talked, indexes, calls, hidden, white, i);
    if i !in indexes { TalkedOthers(rs, talked, indexes, calls, hidden, white, i); }
  }

  lemma {:induction false} TalkedOthers(rs: seq<Recipient>, rs': seq<Recipient>, indexes: seq<nat>, calls: seq<Call>,
                                        hidden: nat -> bool, white: nat -> bool, i: nat)
    requires Within(indexes, |rs|) && Talked(rs, rs', indexes, calls, hidden, white) && i < |rs| && |rs'| == |rs|
    requires i !in indexes
    ensures rs'[i] == rs[i]
    decreases |calls|
  {
    if calls != [] {
      var n := |calls| - 1;
      var mid: seq<Recipient> :| |mid| == |rs| && Talked(rs, mid, indexes, calls[..n], hidden, white)
        && CallOk(mid, rs', indexes, calls[n], hidden, white);
      TalkedOthers(rs, mid, indexes, calls[..n], hidden, white, i);
    }
  }

  /** Some group of the first n events, to which the recipient belonged, had such a session. */
  predicate Reached(events: seq<Event>, n: nat, i: nat)
    requires n <= |events|
  {
    exists e :: 0 <= e < n && events[e].Part? && i in events[e].members && Carried(events[e].calls, |events[e].calls|)
  }

  /** What happens to the recipients in the course of attempts: a group, which has its own members, or the end of
      all patience with what is pending. */
  datatype Event = Part(members: set<nat>, calls: seq<Call>, end: End) | Expiry(text: Text, keep: bool)

  /** Any sequence of groups, of one attempt or of many, with any sessions, rejections, errors and cancellations,
      and of expiry and exhaustion, whatever the hosts answer: every recipient stays fit for the queue, what is
      settled stays as it is, whoever is pending at the end has changed in the detail only, and whoever has become
      sent was in a group with a session in which MAIL, a recipient and the message were agreed to. */
  method AnyEvents(rs: array<Recipient>, events: seq<Event>, hidden: nat -> bool, white: nat -> bool)
    requires AllOk(rs[..], hidden) && !hidden(SPACE)
    modifies rs
    ensures AllOk(rs[..], hidden) && AllLater(old(rs[..]), rs[..])
    ensures forall i :: 0 <= i < rs.Length && NewlySent(old(rs[i]), rs[i]) ==> Reached(events, |events|, i)
  {
    for e := 0 to |events|
      invariant AllOk(rs[..], hidden) && AllLater(old(rs[..]), rs[..])
      invariant forall i :: 0 <= i < rs.Length && NewlySent(old(rs[i]), rs[i]) ==> Reached(events, e, i)
    {
      ghost var before := rs[..];
      match events[e] {
        case Part(members, calls, end) =>
          Group(rs, members, calls, end, hidden, white);
          forall i | 0 <= i < rs.Length && NewlySent(before[i], rs[i]) ensures Reached(events, e + 1, i) {
            PartAgrees(before, rs[..], members, calls, end, hidden, white, i);
            assert events[e].Part?;
          }
        case Expiry(text, keep) =>
          var detail := NormalizeDiagnostic(text, hidden, white);
          NormalizedOk(text, hidden, white);
          GiveUp(rs, detail, keep);
          forall i | 0 <= i < rs.Length ensures RecipientOk(rs[i], hidden) {
            ChangesKeep(before[i], Fine([]), detail, keep, hidden);
          }
      }
      assert AllLater(before, rs[..]);
    }
  }
}
