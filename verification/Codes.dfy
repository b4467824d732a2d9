/** Enhanced status codes (section 2 of RFC 3463): the parser of internal/deliver/response.go and the check of
    internal/queue/validation.go. */
module Codes {

  function Split(s: string): (parts: seq<string>)
    ensures parts != []
  {
    if s == "" then [""]
    else
      var rest := Split(s[1..]);
      if s[0] == '.' then [""] + rest else [[s[0]] + rest[0]] + rest[1..]
  }

  /** Unicode white space. */
  predicate White(c: char) {
    var n := c as int;
    || 9 <= n <= 13 || n == 32 || n == 0x85 || n == 0xA0 || n == 0x1680 || 0x2000 <= n <= 0x200A
    || n == 0x2028 || n == 0x2029 || n == 0x202F || n == 0x205F || n == 0x3000
  }

  function TrimLeft(s: string): string {
    if s != "" && White(s[0]) then TrimLeft(s[1..]) else s
  }

  function TrimRight(s: string): string {
    if s != "" && White(s[|s| - 1]) then TrimRight(s[..|s| - 1]) else s
  }

  /** Everything before the first space. */
  function Word(s: string): string {
    if s == "" || s[0] == ' ' then "" else [s[0]] + Word(s[1..])
  }

  predicate Digit(c: char) {
    '0' <= c <= '9'
  }

  predicate ShortNumber(part: string) {
    1 <= |part| <= 3 && forall i :: 0 <= i < |part| ==> Digit(part[i])
  }

  /** The code at the start of a reply's text, or the empty string. */
  function Parse(code: nat, message: string): string {
    var field := Word(TrimRight(TrimLeft(message)));
    var parts := Split(field);
    if || |parts| != 3 || |parts[0]| != 1 || parts[0][0] < '2' || parts[0][0] > '5'
       || (parts[0][0] - '0') as int != code / 100
    then ""
    else if parts[0] != "2" && parts[0] != "4" && parts[0] != "5" then ""
    else if !ShortNumber(parts[1]) || !ShortNumber(parts[2]) then ""
    else field
  }

  /** What the queue accepts beside a reply code. */
  predicate Valid(enhanced: string, code: nat) {
    var parts := Split(enhanced);
    && |parts| == 3 && |parts[0]| == 1 && (parts[0] == "2" || parts[0] == "4" || parts[0] == "5")
    && (code != 0 ==> (parts[0][0] - '0') as int == code / 100)
    && ShortNumber(parts[1]) && ShortNumber(parts[2])
  }

  /** Every code that the parser returns is accepted by the queue. */
  lemma ParsedIsValid(code: nat, message: string)
    requires Parse(code, message) != ""
    ensures code != 0 && Valid(Parse(code, message), code)
  {
  }

  predicate Plain(s: string) {
    forall i :: 0 <= i < |s| ==> Digit(s[i]) || s[i] == '.'
  }

  /** A string is plain when all its parts are. */
  lemma {:induction false} PartsPlain(s: string)
    requires forall k :: 0 <= k < |Split(s)| ==> forall i :: 0 <= i < |Split(s)[k]| ==> Digit(Split(s)[k][i])
    ensures Plain(s)
  {
    if s != "" {
      var rest := Split(s[1..]);
      var parts := Split(s);
      if s[0] == '.' {
        assert parts[1..] == rest;
        forall k | 0 <= k < |rest| ensures forall i :: 0 <= i < |rest[k]| ==> Digit(rest[k][i]) {
          assert parts[k + 1] == rest[k];
        }
      } else {
        assert parts[0][0] == s[0] && parts[0][1..] == rest[0];
        forall k | 0 <= k < |rest| ensures forall i :: 0 <= i < |rest[k]| ==> Digit(rest[k][i]) {
          if k == 0 {
            assert forall i :: 0 <= i < |rest[0]| ==> rest[0][i] == parts[0][i + 1];
          } else {
            assert parts[k] == rest[k];
          }
        }
      }
      PartsPlain(s[1..]);
      assert forall i :: 0 < i < |s| ==> s[i] == s[1..][i - 1];
    }
  }

  lemma ValidIsPlain(enhanced: string, code: nat)
    requires Valid(enhanced, code)
    ensures Plain(enhanced) && enhanced != ""
  {
    var parts := Split(enhanced);
    forall k | 0 <= k < |parts| ensures forall i :: 0 <= i < |parts[k]| ==> Digit(parts[k][i]) {
      assert k == 0 || k == 1 || k == 2;
    }
    PartsPlain(enhanced);
    assert enhanced != "" by { assert Split("") == [""]; }
  }

  lemma {:induction false} PlainWord(s: string)
    requires Plain(s)
    ensures Word(s) == s
  {
    if s != "" {
      assert forall i :: 0 <= i < |s[1..]| ==> s[1..][i] == s[i + 1];
      PlainWord(s[1..]);
    }
  }

  /** Conversely the parser returns every code that the queue accepts, and nothing else: for a reply code a
      string is valid exactly when parsing leaves it as it is. */
  lemma ValidIff(enhanced: string, code: nat)
    requires 100 <= code
    ensures Valid(enhanced, code) <==> enhanced != "" && Parse(code, enhanced) == enhanced
  {
    if Valid(enhanced, code) {
      ValidIsPlain(enhanced, code);
      PlainWord(enhanced);
      assert !White(enhanced[0]) && !White(enhanced[|enhanced| - 1]);
      assert TrimLeft(enhanced) == enhanced && TrimRight(enhanced) == enhanced;
    }
  }

  // ---------- what a code looks like ----------

  predicate NoDot(s: string) {
    forall i :: 0 <= i < |s| ==> s[i] != '.'
  }

  lemma {:induction false} SplitOne(a: string)
    requires NoDot(a)
    ensures Split(a) == [a]
  {
    if a != "" {
      SplitOne(a[1..]);
      assert [a[0]] + a[1..] == a;
    }
  }

  lemma {:induction false} SplitFirst(a: string, t: string)
    requires NoDot(a)
    ensures Split(a + "." + t) == [a] + Split(t)
    decreases |a|
  {
    if a == "" {
      assert a + "." + t == "." + t;
      SplitDot(t);
    } else {
      assert a + "." + t == [a[0]] + (a[1..] + "." + t);
      SplitChar(a[0], a[1..] + "." + t);
      SplitFirst(a[1..], t);
      assert [a[0]] + a[1..] == a;
    }
  }

  /** The first part, and what is left after its dot. */
  lemma {:induction false} SplitBack(s: string) returns (t: string)
    ensures NoDot(Split(s)[0])
    ensures if |Split(s)| == 1 then s == Split(s)[0] else s == Split(s)[0] + "." + t && Split(t) == Split(s)[1..]
  {
    t := "";
    if s != "" {
      if s[0] == '.' {
        t := s[1..];
      } else {
        t := SplitBack(s[1..]);
        assert s == [s[0]] + s[1..];
        var rest := Split(s[1..]);
        assert Split(s)[0] == [s[0]] + rest[0];
      }
    }
  }

  /** A class, a dot, up to three digits, a dot and up to three digits; and the class of the reply code if there
      is one. */
  predicate Written(enhanced: string, code: nat, kind: char, a: string, b: string) {
    && enhanced == [kind] + "." + a + "." + b && kind in {'2', '4', '5'}
    && 1 <= |a| <= 3 && 1 <= |b| <= 3
    && (forall i :: 0 <= i < |a| ==> '0' <= a[i] <= '9') && (forall i :: 0 <= i < |b| ==> '0' <= b[i] <= '9')
    && (code != 0 ==> code / 100 == (kind - '0') as int)
  }

  lemma WrittenIsValid(enhanced: string, code: nat, kind: char, a: string, b: string)
    requires Written(enhanced, code, kind, a, b)
    ensures Valid(enhanced, code)
  {
    assert enhanced == [kind] + "." + (a + "." + b);
    SplitFirst([kind], a + "." + b);
    SplitFirst(a, b);
    SplitOne(b);
    assert Split(enhanced) == [[kind], a, b];
  }

  /** The codes that the queue accepts are exactly those that section 2 of RFC 3463 writes. */
  lemma ValidIsWritten(enhanced: string, code: nat)
    ensures Valid(enhanced, code) <==> exists kind, a, b :: Written(enhanced, code, kind, a, b)
  {
    if Valid(enhanced, code) {
      var t := SplitBack(enhanced);
      var u := SplitBack(t);
      var parts := Split(enhanced);
      assert Split(t) == [parts[1], parts[2]] && Split(u) == [parts[2]];
      var v := SplitBack(u);
      assert enhanced == [parts[0][0]] + "." + parts[1] + "." + parts[2];
      assert Written(enhanced, code, parts[0][0], parts[1], parts[2]);
    }
    forall kind, a, b | Written(enhanced, code, kind, a, b) ensures Valid(enhanced, code) {
      WrittenIsValid(enhanced, code, kind, a, b);
    }
  }

  // ---------- where the parser finds it ----------

  predicate AllWhite(s: string) {
    forall i :: 0 <= i < |s| ==> White(s[i])
  }

  /** What may follow the code: a space and anything, or nothing but white space. */
  predicate Follows(t: string) {
    AllWhite(t) || t[0] == ' '
  }

  lemma {:induction false} TrimLeftBack(s: string) returns (w: string)
    ensures s == w + TrimLeft(s) && AllWhite(w)
  {
    w := "";
    if s != "" && White(s[0]) {
      w := TrimLeftBack(s[1..]);
      w := [s[0]] + w;
    }
  }

  lemma {:induction false} TrimRightBack(s: string) returns (x: string)
    ensures s == TrimRight(s) + x && AllWhite(x)
  {
    x := "";
    if s != "" && White(s[|s| - 1]) {
      x := TrimRightBack(s[..|s| - 1]);
      x := x + [s[|s| - 1]];
    }
  }

  lemma {:induction false} WordBack(s: string) returns (y: string)
    ensures s == Word(s) + y && (y == "" || y[0] == ' ')
  {
    y := s;
    if s != "" && s[0] != ' ' {
      y := WordBack(s[1..]);
    }
  }

  lemma {:induction false} TrimLeftOf(w: string, s: string)
    requires AllWhite(w) && s != "" && !White(s[0])
    ensures TrimLeft(w + s) == s
    decreases |w|
  {
    if w == "" {
      assert w + s == s;
    } else {
      assert (w + s)[0] == w[0] && (w + s)[1..] == w[1..] + s;
      TrimLeftOf(w[1..], s);
    }
  }

  lemma {:induction false} TrimRightOf(e: string, t: string) returns (t': string)
    requires e != "" && !White(e[|e| - 1]) && Follows(t)
    ensures TrimRight(e + t) == e + t' && (t' == "" || t'[0] == ' ')
    decreases |t|
  {
    t' := t;
    if t == "" {
      assert e + t == e;
    } else if White(t[|t| - 1]) {
      assert (e + t)[|e + t| - 1] == t[|t| - 1] && (e + t)[..|e + t| - 1] == e + t[..|t| - 1];
      t' := TrimRightOf(e, t[..|t| - 1]);
    } else {
      assert (e + t)[|e + t| - 1] == t[|t| - 1];
    }
  }

  lemma {:induction false} WordOf(e: string, t: string)
    requires Plain(e) && (t == "" || t[0] == ' ')
    ensures Word(e + t) == e
    decreases |e|
  {
    if e == "" {
      assert e + t == t;
    } else {
      assert (e + t)[0] == e[0] && (e + t)[1..] == e[1..] + t;
      WordOf(e[1..], t);
      assert [e[0]] + e[1..] == e;
    }
  }

  lemma ParseFinds(code: nat, w: string, e: string, t: string)
    requires code != 0 && Valid(e, code) && AllWhite(w) && Follows(t)
    ensures Parse(code, w + e + t) == e
  {
    ValidIsPlain(e, code);
    assert w + e + t == w + (e + t);
    TrimLeftOf(w, e + t);
    var t' := TrimRightOf(e, t);
    WordOf(e, t');
  }

  lemma ParseBack(code: nat, message: string) returns (w: string, t: string)
    requires Parse(code, message) != ""
    ensures message == w + Parse(code, message) + t && AllWhite(w) && Follows(t)
  {
    w := TrimLeftBack(message);
    var x := TrimRightBack(TrimLeft(message));
    var y := WordBack(TrimRight(TrimLeft(message)));
    t := y + x;
    ParseIsWord(code, message);
    Rejoined(w, Parse(code, message), y, x);
  }

  lemma ParseIsWord(code: nat, message: string)
    requires Parse(code, message) != ""
    ensures Parse(code, message) == Word(TrimRight(TrimLeft(message)))
  {
  }

  lemma Rejoined(w: string, e: string, y: string, x: string)
    requires AllWhite(x) && (y == "" || y[0] == ' ')
    ensures w + ((e + y) + x) == w + e + (y + x) && Follows(y + x)
  {
  }

  /** The parser returns a code exactly when the text starts with it, after white space, and a space or nothing but
      white space follows. */
  lemma ParseIff(code: nat, message: string, e: string)
    requires e != ""
    ensures Parse(code, message) == e <==>
      code != 0 && Valid(e, code) && exists w, t :: message == w + e + t && AllWhite(w) && Follows(t)
  {
    if Parse(code, message) == e {
      ParsedIsValid(code, message);
      var w, t := ParseBack(code, message);
    }
    forall w, t | code != 0 && Valid(e, code) && message == w + e + t && AllWhite(w) && Follows(t)
      ensures Parse(code, message) == e
    {
      ParseFinds(code, w, e, t);
    }
  }

  lemma SplitDot(s: string)
    ensures Split("." + s) == [""] + Split(s)
  {
    assert ("." + s)[1..] == s;
  }

  lemma SplitChar(c: char, s: string)
    requires c != '.'
    ensures Split([c] + s) == [[c] + Split(s)[0]] + Split(s)[1..]
  {
    assert ([c] + s)[1..] == s;
  }

  /** The code of an expired or exhausted recipient is a permanent one. */
  lemma TerminalCode()
    ensures Valid("5.4.7", 554)
  {
    assert "5.4.7" == ['5'] + "." + "4" + "." + "7";
    WrittenIsValid("5.4.7", 554, '5', "4", "7");
  }
}
