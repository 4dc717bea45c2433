/**
 * The purely syntactic cron splitter of lib/recurrence.py (`parse_cron_expression`).
 *
 * The source matches `^([^\s]+)\s+([^\s]+)((?:\s+[^\s]+){3,4})$`. Because a token
 * never holds whitespace and a gap holds nothing else, a string splits in at most
 * one way into alternating tokens and gaps; the regex accepts exactly the strings
 * that split into 5 or 6 tokens. `Split` computes that decomposition and
 * `Interleave` rebuilds a string from one, which gives the parser an independent
 * reference to be proved against.
 */
module Cron {
  import opened Wrappers

  /** Whitespace as Python's `\s` (on text) and `str.strip()` understand it. */
  predicate IsSpace(c: char) {
    var n := c as int;
    (9 <= n <= 13) || (28 <= n <= 32) || n == 0x85 || n == 0xA0 || n == 0x1680
    || (0x2000 <= n <= 0x200A) || n == 0x2028 || n == 0x2029 || n == 0x202F
    || n == 0x205F || n == 0x3000
  }

  /** A cron field: a non-empty run of non-whitespace characters. */
  predicate IsToken(t: string) {
    |t| > 0 && forall i :: 0 <= i < |t| ==> !IsSpace(t[i])
  }

  /** A separator: a non-empty run of whitespace. */
  predicate IsGap(g: string) {
    |g| > 0 && forall i :: 0 <= i < |g| ==> IsSpace(g[i])
  }

  /** `ts` are tokens, `gs` are gaps, and there is one gap between each two tokens. */
  predicate WellFormed(ts: seq<string>, gs: seq<string>) {
    && |ts| == |gs| + 1
    && (forall i :: 0 <= i < |ts| ==> IsToken(ts[i]))
    && (forall i :: 0 <= i < |gs| ==> IsGap(gs[i]))
  }

  /** The string made of `ts[0] gs[0] ts[1] gs[1] ... ts[n]`. */
  function Interleave(ts: seq<string>, gs: seq<string>): string
    requires |ts| == |gs| + 1
    decreases |gs|
  {
    if gs == [] then ts[0] else ts[0] + gs[0] + Interleave(ts[1..], gs[1..])
  }

  /** Length of the run of non-whitespace characters that starts `s`. */
  function TokenLength(s: string): (n: nat)
    ensures n <= |s|
  {
    if s == [] || IsSpace(s[0]) then 0 else 1 + TokenLength(s[1..])
  }

  /** Length of the run of whitespace that starts `s`. */
  function GapLength(s: string): (n: nat)
    ensures n <= |s|
  {
    if s == [] || !IsSpace(s[0]) then 0 else 1 + GapLength(s[1..])
  }

  /** `TokenLength` measures the longest whitespace-free prefix. */
  lemma {:induction false} TokenRun(s: string)
    ensures forall i :: 0 <= i < TokenLength(s) ==> !IsSpace(s[i])
    ensures TokenLength(s) < |s| ==> IsSpace(s[TokenLength(s)])
    decreases |s|
  {
    if s != [] && !IsSpace(s[0]) {
      TokenRun(s[1..]);
      forall i | 1 <= i < TokenLength(s) ensures !IsSpace(s[i]) {
        assert s[i] == s[1..][i - 1];
      }
      if TokenLength(s) < |s| {
        assert s[TokenLength(s)] == s[1..][TokenLength(s[1..])];
      }
    }
  }

  /** `GapLength` measures the longest all-whitespace prefix. */
  lemma {:induction false} GapRun(s: string)
    ensures forall i :: 0 <= i < GapLength(s) ==> IsSpace(s[i])
    ensures GapLength(s) < |s| ==> !IsSpace(s[GapLength(s)])
    decreases |s|
  {
    if s != [] && IsSpace(s[0]) {
      GapRun(s[1..]);
      forall i | 1 <= i < GapLength(s) ensures IsSpace(s[i]) {
        assert s[i] == s[1..][i - 1];
      }
      if GapLength(s) < |s| {
        assert s[GapLength(s)] == s[1..][GapLength(s[1..])];
      }
    }
  }

  /**
   * The tokens and gaps of `s`, or None when `s` is empty or begins or ends
   * with whitespace.
   */
  function Split(s: string): Option<(seq<string>, seq<string>)>
    decreases |s|
  {
    var k := TokenLength(s);
    if k == 0 then None
    else if k == |s| then Some(([s], []))
    else
      var g := GapLength(s[k..]);
      if k + g == |s| then None
      else
        match Split(s[k + g..])
        case None => None
        case Some(tail) => Some(([s[..k]] + tail.0, [s[k..k + g]] + tail.1))
  }

  /** What `Split` finds are tokens with gaps between them, and they make up the string. */
  lemma {:induction false} SplitSound(s: string)
    requires Split(s).Some?
    ensures WellFormed(Split(s).value.0, Split(s).value.1)
    ensures Interleave(Split(s).value.0, Split(s).value.1) == s
    decreases |s|, 1
  {
    if TokenLength(s) == |s| {
      TokenRun(s);
      assert WellFormed([s], []);
    } else {
      SplitStep(s);
    }
  }

  /** A token, then a gap, then a string `Split` takes apart soundly, is taken apart soundly too. */
  lemma {:induction false} SplitStep(s: string)
    requires Split(s).Some? && TokenLength(s) < |s|
    ensures WellFormed(Split(s).value.0, Split(s).value.1)
    ensures Interleave(Split(s).value.0, Split(s).value.1) == s
    decreases |s|, 0
  {
    var k := TokenLength(s);
    var g := GapLength(s[k..]);
    var t, gap := s[..k], s[k..k + g];
    var rest := s[k + g..];
    SplitSound(rest);
    var ts, gs := Split(rest).value.0, Split(rest).value.1;
    SplitStepParts(s, k, g, t, gap, rest);
    WellFormedCons(t, gap, ts, gs);
    InterleaveCons(t, gap, ts, gs);
    assert Split(s) == Some(([t] + ts, [gap] + gs));
  }

  lemma SplitStepParts(s: string, k: nat, g: nat, t: string, gap: string, rest: string)
    requires 0 < k == TokenLength(s) < |s|
    requires g == GapLength(s[k..]) && k + g < |s|
    requires t == s[..k] && gap == s[k..k + g] && rest == s[k + g..]
    ensures IsToken(t) && IsGap(gap) && s == t + gap + rest
  {
    TokenPrefixIsToken(s);
    assert IsSpace(s[k]) by {
      TokenRun(s);
    }
    GapAfterIsGap(s, k);
    ThreePieces(s, k, k + g);
  }

  lemma TokenPrefixIsToken(s: string)
    requires TokenLength(s) > 0
    ensures IsToken(s[..TokenLength(s)])
  {
    var t := s[..TokenLength(s)];
    TokenRun(s);
    forall i | 0 <= i < |t| ensures !IsSpace(t[i]) {
      assert t[i] == s[i];
    }
  }

  lemma GapAfterIsGap(s: string, k: int)
    requires 0 <= k < |s| && IsSpace(s[k])
    ensures IsGap(s[k..k + GapLength(s[k..])])
  {
    var g := s[k..k + GapLength(s[k..])];
    GapRun(s[k..]);
    assert IsSpace(s[k..][0]);
    forall i | 0 <= i < |g| ensures IsSpace(g[i]) {
      assert g[i] == s[k..][i];
    }
  }

  lemma ThreePieces(s: string, i: int, j: int)
    requires 0 <= i <= j <= |s|
    ensures s[..i] + s[i..j] + s[j..] == s
  {
    assert s[..i] + s[i..j] == s[..j];
    assert s[..j] + s[j..] == s;
  }

  lemma WellFormedCons(t: string, g: string, ts: seq<string>, gs: seq<string>)
    requires IsToken(t) && IsGap(g) && WellFormed(ts, gs)
    ensures WellFormed([t] + ts, [g] + gs)
  {
    forall i | 0 <= i < |[t] + ts| ensures IsToken(([t] + ts)[i]) {
      if i > 0 {
        assert ([t] + ts)[i] == ts[i - 1];
      }
    }
    forall i | 0 <= i < |[g] + gs| ensures IsGap(([g] + gs)[i]) {
      if i > 0 {
        assert ([g] + gs)[i] == gs[i - 1];
      }
    }
  }

  /** Python's `str.strip()`: drops leading and trailing whitespace. */
  function Strip(s: string): (r: string)
    decreases |s|
  {
    if |s| > 0 && IsSpace(s[0]) then Strip(s[1..])
    else if |s| > 0 && IsSpace(s[|s| - 1]) then Strip(s[..|s| - 1])
    else s
  }

  /** The three parts of a parsed expression, as recurrence.py:15-19 builds them. */
  datatype CronFields = CronFields(minute: string, hour: string, rest: string)

  /** Python's `$` matches at the very end and also just before one final newline. */
  function DropFinalNewline(s: string): string {
    if |s| > 0 && s[|s| - 1] == '\n' then s[..|s| - 1] else s
  }

  /**
   * `parse_cron_expression`: None where the source raises "is not a valid cron
   * expression". The rest is group 3 of the match, stripped.
   */
  function ParseCronExpression(expression: string): Option<CronFields> {
    var e := DropFinalNewline(expression);
    match Split(e)
    case None => None
    case Some(parts) =>
      var ts, gs := parts.0, parts.1;
      SplitSound(e);
      if 5 <= |ts| <= 6 then
        RestIsTail(ts, gs);
        Some(CronFields(ts[0], ts[1], Strip(e[|ts[0]| + |gs[0]| + |ts[1]|..])))
      else None
  }

  // ----- Lemmas -----

  lemma {:induction false} InterleaveEnds(ts: seq<string>, gs: seq<string>)
    requires WellFormed(ts, gs)
    ensures var s := Interleave(ts, gs); |s| > 0 && !IsSpace(s[0]) && !IsSpace(s[|s| - 1])
    decreases |gs|
  {
    if gs != [] {
      InterleaveEnds(ts[1..], gs[1..]);
      var t := Interleave(ts[1..], gs[1..]);
      assert Interleave(ts, gs) == ts[0] + gs[0] + t;
      assert (ts[0] + gs[0] + t)[0] == ts[0][0];
    }
  }

  lemma {:induction false} TokenLengthOf(t: string, u: string)
    requires IsToken(t)
    requires u == [] || IsSpace(u[0])
    ensures TokenLength(t + u) == |t|
    decreases |t|
  {
    if |t| > 1 {
      assert (t + u)[1..] == t[1..] + u;
      TokenLengthOf(t[1..], u);
    } else {
      assert (t + u)[1..] == u;
    }
  }

  lemma {:induction false} GapLengthOf(g: string, u: string)
    requires IsGap(g)
    requires u == [] || !IsSpace(u[0])
    ensures GapLength(g + u) == |g|
    decreases |g|
  {
    if |g| > 1 {
      assert (g + u)[1..] == g[1..] + u;
      GapLengthOf(g[1..], u);
    } else {
      assert (g + u)[1..] == u;
    }
  }

  /** One step of `Split`: a token, a gap, then a string that starts with a token. */
  lemma SplitCons(t: string, g: string, u: string)
    requires IsToken(t) && IsGap(g) && |u| > 0 && !IsSpace(u[0])
    ensures Split(t + g + u) == match Split(u)
      case None => None
      case Some(tail) => Some(([t] + tail.0, [g] + tail.1))
  {
    var s := t + g + u;
    assert s == t + (g + u);
    TokenLengthOf(t, g + u);
    var k := |t|;
    assert s[k..] == g + u;
    GapLengthOf(g, u);
    assert s[k + |g|..] == u;
    assert s[..k] == t;
    assert s[k..k + |g|] == g;
  }

  /** Splitting recovers exactly the tokens and gaps a string was built from. */
  lemma {:induction false} SplitInterleave(ts: seq<string>, gs: seq<string>)
    requires WellFormed(ts, gs)
    ensures Split(Interleave(ts, gs)) == Some((ts, gs))
    decreases |gs|
  {
    if gs == [] {
      SplitToken(ts[0]);
      assert ts == [ts[0]];
    } else {
      var ts', gs' := ts[1..], gs[1..];
      WellFormedUncons(ts, gs);
      InterleaveEnds(ts', gs');
      SplitInterleave(ts', gs');
      SplitCons(ts[0], gs[0], Interleave(ts', gs'));
    }
  }

  /** A single token splits into itself. */
  lemma SplitToken(t: string)
    requires IsToken(t)
    ensures Split(t) == Some(([t], []))
  {
    TokenLengthOf(t, []);
    assert t + [] == t;
  }

  /** The first token and gap of a well-formed split, and the well-formed rest. */
  lemma WellFormedUncons(ts: seq<string>, gs: seq<string>)
    requires WellFormed(ts, gs) && |gs| > 0
    ensures IsToken(ts[0]) && IsGap(gs[0]) && WellFormed(ts[1..], gs[1..])
    ensures [ts[0]] + ts[1..] == ts && [gs[0]] + gs[1..] == gs
    ensures Interleave(ts, gs) == ts[0] + gs[0] + Interleave(ts[1..], gs[1..])
  {
    forall i | 0 <= i < |ts| - 1 ensures IsToken(ts[1..][i]) {
      assert ts[1..][i] == ts[i + 1];
    }
    forall i | 0 <= i < |gs| - 1 ensures IsGap(gs[1..][i]) {
      assert gs[1..][i] == gs[i + 1];
    }
  }

  lemma {:induction false} StripGapThen(g: string, t: string)
    requires IsGap(g) || g == []
    requires |t| > 0 && !IsSpace(t[0]) && !IsSpace(t[|t| - 1])
    ensures Strip(g + t) == t
    decreases |g|
  {
    if g == [] {
      assert g + t == t;
    } else {
      assert (g + t)[1..] == g[1..] + t;
      StripGapThen(g[1..], t);
    }
  }

  /** The tail the parser returns is the verbatim tokens from the third on, with their gaps. */
  lemma RestIsTail(ts: seq<string>, gs: seq<string>)
    requires WellFormed(ts, gs) && |ts| >= 3
    ensures Interleave(ts, gs) == ts[0] + gs[0] + ts[1] + gs[1] + Interleave(ts[2..], gs[2..])
    ensures var e := Interleave(ts, gs);
      Strip(e[|ts[0]| + |gs[0]| + |ts[1]|..]) == Interleave(ts[2..], gs[2..])
  {
    var r := Interleave(ts[2..], gs[2..]);
    WellFormedUncons(ts, gs);
    WellFormedUncons(ts[1..], gs[1..]);
    assert ts[1..][1..] == ts[2..] && gs[1..][1..] == gs[2..];
    Regroup(ts[0], gs[0], ts[1], gs[1], r);
    DropFront(ts[0] + gs[0] + ts[1], gs[1] + r);
    InterleaveEnds(ts[2..], gs[2..]);
    StripGapThen(gs[1], r);
  }

  lemma Regroup(a: string, b: string, c: string, d: string, r: string)
    ensures a + b + (c + d + r) == a + b + c + d + r
    ensures a + b + (c + d + r) == (a + b + c) + (d + r)
  {
  }

  lemma DropFront(a: string, b: string)
    ensures (a + b)[|a|..] == b
  {
  }

  /**
   * Soundness: a successful parse splits the input into 5 or 6 tokens, minute
   * and hour are the first two and rest is the tail verbatim.
   */
  lemma ParseSound(expression: string)
    requires ParseCronExpression(expression).Some?
    ensures var e := DropFinalNewline(expression);
      && Split(e).Some?
      && var ts, gs := Split(e).value.0, Split(e).value.1;
      && WellFormed(ts, gs) && 5 <= |ts| <= 6
      && ParseCronExpression(expression).value == CronFields(ts[0], ts[1], Interleave(ts[2..], gs[2..]))
  {
    var e := DropFinalNewline(expression);
    var ts, gs := Split(e).value.0, Split(e).value.1;
    SplitSound(e);
    RestIsTail(ts, gs);
  }

  /** The minute and hour fields are non-empty and hold no whitespace. */
  lemma ParsedFieldsAreTokens(expression: string)
    requires ParseCronExpression(expression).Some?
    ensures IsToken(ParseCronExpression(expression).value.minute)
    ensures IsToken(ParseCronExpression(expression).value.hour)
  {
    ParseSound(expression);
  }

  /** A string that ends in a token loses nothing to `DropFinalNewline`, and loses exactly an added newline. */
  lemma DropFinalNewlineOf(e: string, newline: bool)
    requires |e| > 0 && !IsSpace(e[|e| - 1])
    ensures DropFinalNewline(e + (if newline then "\n" else "")) == e
  {
    var s := e + (if newline then "\n" else "");
    if newline { assert s[..|s| - 1] == e; } else { assert s == e; }
  }

  /**
   * Completeness: 5 or 6 tokens with any whitespace between them (and at most
   * one final newline) parse to the first token, the second, and the verbatim tail.
   */
  lemma ParseInterleave(ts: seq<string>, gs: seq<string>, newline: bool)
    requires WellFormed(ts, gs) && 5 <= |ts| <= 6
    ensures ParseCronExpression(Interleave(ts, gs) + (if newline then "\n" else ""))
         == Some(CronFields(ts[0], ts[1], Interleave(ts[2..], gs[2..])))
  {
    var e := Interleave(ts, gs);
    var x := e + (if newline then "\n" else "");
    InterleaveEnds(ts, gs);
    DropFinalNewlineOf(e, newline);
    SplitInterleave(ts, gs);
    RestIsTail(ts, gs);
    ParseOfSplit(x, ts, gs);
  }

  /** `ParseCronExpression` once the split of its input is known. */
  lemma ParseOfSplit(x: string, ts: seq<string>, gs: seq<string>)
    requires Split(DropFinalNewline(x)) == Some((ts, gs)) && 5 <= |ts| <= 6
    ensures |ts[0]| + |gs[0]| + |ts[1]| <= |DropFinalNewline(x)|
    ensures ParseCronExpression(x).Some?
    ensures ParseCronExpression(x).value.minute == ts[0]
    ensures ParseCronExpression(x).value.hour == ts[1]
    ensures ParseCronExpression(x).value.rest == Strip(DropFinalNewline(x)[|ts[0]| + |gs[0]| + |ts[1]|..])
  {
    var parts := Split(DropFinalNewline(x)).value;
    assert parts.0 == ts && parts.1 == gs;
  }

  /** Fewer than 5 or more than 6 fields never parse. */
  lemma ParseRejectsFieldCount(ts: seq<string>, gs: seq<string>, newline: bool)
    requires WellFormed(ts, gs) && (|ts| < 5 || |ts| > 6)
    ensures ParseCronExpression(Interleave(ts, gs) + (if newline then "\n" else "")).None?
  {
    InterleaveEnds(ts, gs);
    DropFinalNewlineOf(Interleave(ts, gs), newline);
    SplitInterleave(ts, gs);
  }

  /** Leading whitespace, and trailing whitespace other than one final newline, are refused. */
  lemma ParseRejectsOuterSpace(expression: string)
    requires ParseCronExpression(expression).Some?
    ensures var e := DropFinalNewline(expression);
      |e| > 0 && !IsSpace(e[0]) && !IsSpace(e[|e| - 1])
  {
    var e := DropFinalNewline(expression);
    SplitSound(e);
    InterleaveEnds(Split(e).value.0, Split(e).value.1);
  }

  lemma InterleaveCons(t: string, g: string, ts: seq<string>, gs: seq<string>)
    requires |ts| == |gs| + 1
    ensures Interleave([t] + ts, [g] + gs) == t + g + Interleave(ts, gs)
  {
    assert ([t] + ts)[1..] == ts;
    assert ([g] + gs)[1..] == gs;
  }

  /** The last `n` fields of a test case: `n` asterisks, one space apart. */
  lemma Stars(n: nat) returns (ts: seq<string>, gs: seq<string>)
    requires n > 0
    ensures |ts| == n && |gs| == n - 1 && WellFormed(ts, gs)
    ensures forall i :: 0 <= i < n ==> ts[i] == "*"
    ensures forall i :: 0 <= i < n - 1 ==> gs[i] == " "
    ensures n == 2 ==> Interleave(ts, gs) == "* *"
    ensures n == 3 ==> Interleave(ts, gs) == "* * *"
    ensures n == 4 ==> Interleave(ts, gs) == "* * * *"
    ensures n == 5 ==> Interleave(ts, gs) == "* * * * *"
  {
    if n == 1 {
      ts, gs := ["*"], [];
    } else {
      var ts', gs' := Stars(n - 1);
      ts, gs := ["*"] + ts', [" "] + gs';
      InterleaveCons("*", " ", ts', gs');
    }
  }

  // The unit tests' cases (tests/unit/test_recurrence.py:8-22). Each example is
  // stated of a string equal to the literal, which keeps the verifier from
  // evaluating the recursive splitter on the literal character by character.

  lemma ParseExampleSixFields(s: string)
    requires s == "30 15 * * * *"
    ensures ParseCronExpression(s) == Some(CronFields("30", "15", "* * * *"))
  {
    var st, sg := Stars(4);
    var ts, gs := ["30", "15"] + st, [" ", " "] + sg;
    assert ts == ["30"] + (["15"] + st) && gs == [" "] + ([" "] + sg);
    InterleaveCons("15", " ", st, sg);
    InterleaveCons("30", " ", ["15"] + st, [" "] + sg);
    assert ts[2..] == st && gs[2..] == sg;
    var x := Interleave(ts, gs);
    assert x == "30" + " " + ("15" + " " + "* * * *");
    assert x == s;
    assert x + "" == x;
    ParseInterleave(ts, gs, false);
  }

  lemma ParseExampleFiveFields(s: string)
    requires s == "30 15 * * *"
    ensures ParseCronExpression(s) == Some(CronFields("30", "15", "* * *"))
  {
    var st, sg := Stars(3);
    var ts, gs := ["30", "15"] + st, [" ", " "] + sg;
    assert ts == ["30"] + (["15"] + st) && gs == [" "] + ([" "] + sg);
    InterleaveCons("15", " ", st, sg);
    InterleaveCons("30", " ", ["15"] + st, [" "] + sg);
    assert ts[2..] == st && gs[2..] == sg;
    var x := Interleave(ts, gs);
    assert x == "30" + " " + ("15" + " " + "* * *");
    assert x == s;
    assert x + "" == x;
    ParseInterleave(ts, gs, false);
  }

  lemma ParseExampleFourFields(s: string)
    requires s == "30 15 * *"
    ensures ParseCronExpression(s).None?
  {
    var st, sg := Stars(2);
    var ts, gs := ["30", "15"] + st, [" ", " "] + sg;
    assert ts == ["30"] + (["15"] + st) && gs == [" "] + ([" "] + sg);
    InterleaveCons("15", " ", st, sg);
    InterleaveCons("30", " ", ["15"] + st, [" "] + sg);
    var x := Interleave(ts, gs);
    assert x == "30" + " " + ("15" + " " + "* *");
    assert x == s;
    assert x + "" == x;
    ParseRejectsFieldCount(ts, gs, false);
  }

  lemma ParseExampleSevenFields(s: string)
    requires s == "30 15 * * * * *"
    ensures ParseCronExpression(s).None?
  {
    var st, sg := Stars(5);
    var ts, gs := ["30", "15"] + st, [" ", " "] + sg;
    assert ts == ["30"] + (["15"] + st) && gs == [" "] + ([" "] + sg);
    InterleaveCons("15", " ", st, sg);
    InterleaveCons("30", " ", ["15"] + st, [" "] + sg);
    var x := Interleave(ts, gs);
    assert x == "30" + " " + ("15" + " " + "* * * * *");
    assert x == s;
    assert x + "" == x;
    ParseRejectsFieldCount(ts, gs, false);
  }

  lemma ParseExampleOneField(s: string)
    requires s == "foo"
    ensures ParseCronExpression(s).None?
  {
    assert WellFormed(["foo"], []);
    assert Interleave(["foo"], []) + "" == s;
    ParseRejectsFieldCount(["foo"], [], false);
  }

  lemma ParseExampleEmpty()
    ensures ParseCronExpression("").None?
  {
  }

  /**
   * Two tokens put, one space apart, in front of a well-formed tail of three or
   * four fields parse back to themselves and that tail.
   */
  lemma ParseTimeFieldsOver(m: string, h: string, ts: seq<string>, gs: seq<string>)
    requires IsToken(m) && IsToken(h) && WellFormed(ts, gs) && 3 <= |ts| <= 4
    ensures ParseCronExpression(m + " " + h + " " + Interleave(ts, gs)) == Some(CronFields(m, h, Interleave(ts, gs)))
  {
    var ts', gs' := PrependTimeFields(m, h, ts, gs);
    var x := Interleave(ts', gs');
    assert x + "" == x;
    ParseInterleave(ts', gs', false);
  }

  lemma PrependTimeFields(m: string, h: string, ts: seq<string>, gs: seq<string>) returns (ts': seq<string>, gs': seq<string>)
    requires IsToken(m) && IsToken(h) && WellFormed(ts, gs)
    ensures WellFormed(ts', gs') && |ts'| == |ts| + 2
    ensures ts'[0] == m && ts'[1] == h && ts'[2..] == ts && gs'[2..] == gs
    ensures Interleave(ts', gs') == m + " " + h + " " + Interleave(ts, gs)
  {
    ts', gs' := [m, h] + ts, [" ", " "] + gs;
    assert ts' == [m] + ([h] + ts) && gs' == [" "] + ([" "] + gs);
    InterleaveCons(h, " ", ts, gs);
    InterleaveCons(m, " ", [h] + ts, [" "] + gs);
    assert IsGap(" ");
  }

  /**
   * A daily expression `m h * * *`, the shape of every case in the unit tests of
   * the calculator, parses to its minute, its hour and `* * *`.
   */
  lemma ParseDaily(m: string, h: string, s: string)
    requires IsToken(m) && IsToken(h)
    requires s == m + " " + h + " * * *"
    ensures ParseCronExpression(s) == Some(CronFields(m, h, "* * *"))
  {
    var st, sg := Stars(3);
    assert s == m + " " + h + " " + Interleave(st, sg);
    ParseTimeFieldsOver(m, h, st, sg);
  }
}
