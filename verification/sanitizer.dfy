/**
  The terminal-output sanitizer of the interactive session
  (`TermuxInteractiveSession._clean_output` and its `ANSI_ESCAPE` pattern).

  Cleaning runs three passes over one decoded chunk of terminal output:
  1. one left-to-right substitution removes every ANSI escape sequence,
  2. CR LF becomes LF and every remaining CR is deleted,
  3. only printable characters, LF and TAB are kept.
 */
module Sanitizer {

  const ESC: char := '\U{1B}'
  const CR: char := '\r'
  const LF: char := '\n'
  const TAB: char := '\t'

  // ---------------------------------------------------------------------------
  // Character classes
  // ---------------------------------------------------------------------------

  /** Python's `str.isprintable` for one character. Exact on ASCII; above it,
      the C1 controls U+0080..U+009F are non-printable and everything else is
      treated as printable. */
  predicate IsPrintable(c: char)
    ensures c < '\U{80}' ==> (IsPrintable(c) <==> ' ' <= c <= '~')
    ensures IsPrintable(c) ==> c != LF && c != TAB && c != CR && c != ESC
  {
    (' ' <= c <= '~') || c >= '\U{A0}'
  }

  /** The characters the final filter keeps. */
  predicate IsVisible(c: char) {
    IsPrintable(c) || c == LF || c == TAB
  }

  predicate AllVisible(s: string) {
    forall i :: 0 <= i < |s| ==> IsVisible(s[i])
  }

  /** Second byte of a two-character escape: `@`..`Z` or backslash..`_`. */
  predicate IsFeByte(c: char) {
    ('@' <= c <= 'Z') || ('\\' <= c <= '_')
  }

  /** CSI parameter bytes `0`..`?`. */
  predicate IsParamByte(c: char) { '0' <= c <= '?' }

  /** CSI intermediate bytes space..`/`. */
  predicate IsIntermediateByte(c: char) { ' ' <= c <= '/' }

  /** CSI final bytes `@`..`~`. */
  predicate IsFinalByte(c: char) { '@' <= c <= '~' }

  predicate AllParams(s: string) {
    forall i :: 0 <= i < |s| ==> IsParamByte(s[i])
  }

  predicate AllIntermediates(s: string) {
    forall i :: 0 <= i < |s| ==> IsIntermediateByte(s[i])
  }

  // ---------------------------------------------------------------------------
  // The escape-sequence pattern
  // ---------------------------------------------------------------------------

  /** The language of the pattern, stated declaratively: ESC and one Fe byte,
      or ESC `[`, parameter bytes, intermediate bytes and one final byte. */
  ghost predicate IsEscapeSequence(e: string) {
    || (|e| == 2 && e[0] == ESC && IsFeByte(e[1]))
    || (|e| >= 3 && e[0] == ESC && e[1] == '[' && IsFinalByte(e[|e| - 1]) &&
        exists k :: 2 <= k <= |e| - 1 && AllParams(e[2..k]) && AllIntermediates(e[k..|e| - 1]))
  }

  /** Length of the longest run of parameter bytes at the start of `s`. */
  function ParamRun(s: string): (n: nat)
    ensures n <= |s| && AllParams(s[..n])
    ensures n < |s| ==> !IsParamByte(s[n])
  {
    if s != [] && IsParamByte(s[0]) then
      var m := ParamRun(s[1..]);
      assert s[..m + 1] == [s[0]] + s[1..][..m];
      1 + m
    else 0
  }

  /** Length of the longest run of intermediate bytes at the start of `s`. */
  function IntermediateRun(s: string): (n: nat)
    ensures n <= |s| && AllIntermediates(s[..n])
    ensures n < |s| ==> !IsIntermediateByte(s[n])
  {
    if s != [] && IsIntermediateByte(s[0]) then
      var m := IntermediateRun(s[1..]);
      assert s[..m + 1] == [s[0]] + s[1..][..m];
      1 + m
    else 0
  }

  /** Length of the pattern's match at the start of `s`, or 0 when it does not
      match there. The three CSI byte ranges are disjoint, so greedy runs never
      need to give characters back. */
  function EscapeLength(s: string): (n: nat)
    ensures n == 0 || (2 <= n <= |s| && s[0] == ESC)
  {
    if |s| < 2 || s[0] != ESC then 0
    else if IsFeByte(s[1]) then 2
    else if s[1] != '[' then 0
    else
      var p := 2 + ParamRun(s[2..]);
      var q := p + IntermediateRun(s[p..]);
      if q < |s| && IsFinalByte(s[q]) then q + 1 else 0
  }

  /** A run that is followed by a byte outside its class has exactly that length. */
  lemma {:induction false} ParamRunExact(s: string, k: nat)
    requires k <= |s| && AllParams(s[..k])
    requires k < |s| ==> !IsParamByte(s[k])
    ensures ParamRun(s) == k
  {
    if k > 0 {
      assert IsParamByte(s[..k][0]);
      assert s[1..][..k - 1] == s[..k][1..];
      ParamRunExact(s[1..], k - 1);
    }
  }

  lemma {:induction false} IntermediateRunExact(s: string, k: nat)
    requires k <= |s| && AllIntermediates(s[..k])
    requires k < |s| ==> !IsIntermediateByte(s[k])
    ensures IntermediateRun(s) == k
  {
    if k > 0 {
      assert IsIntermediateByte(s[..k][0]);
      assert s[1..][..k - 1] == s[..k][1..];
      IntermediateRunExact(s[1..], k - 1);
    }
  }

  /** Whatever EscapeLength matches is an escape sequence. */
  lemma EscapeLengthSound(s: string)
    requires EscapeLength(s) > 0
    ensures IsEscapeSequence(s[..EscapeLength(s)])
  {
    var n := EscapeLength(s);
    var e := s[..n];
    if !IsFeByte(s[1]) {
      var p := 2 + ParamRun(s[2..]);
      var q := p + IntermediateRun(s[p..]);
      assert e[2..p] == s[2..][..p - 2];
      assert e[p..|e| - 1] == s[p..][..q - p];
      assert 2 <= p <= |e| - 1 && AllParams(e[2..p]) && AllIntermediates(e[p..|e| - 1]);
    }
  }

  /** Every escape sequence at the start of `s` is exactly what EscapeLength
      matches: the pattern has at most one match at a position. */
  lemma EscapeLengthComplete(e: string, t: string)
    requires IsEscapeSequence(e)
    ensures EscapeLength(e + t) == |e|
  {
    var s := e + t;
    if |e| == 2 && IsFeByte(e[1]) {
    } else {
      assert !IsFeByte(e[1]);
      var k :| 2 <= k <= |e| - 1 && AllParams(e[2..k]) && AllIntermediates(e[k..|e| - 1]);
      assert s[2..][..k - 2] == e[2..k];
      if k < |e| - 1 {
        assert s[2..][k - 2] == e[k..|e| - 1][0];
      }
      ParamRunExact(s[2..], k - 2);
      assert s[k..][..|e| - 1 - k] == e[k..|e| - 1];
      assert s[k..][|e| - 1 - k] == e[|e| - 1];
      IntermediateRunExact(s[k..], |e| - 1 - k);
    }
  }

  // ---------------------------------------------------------------------------
  // The three passes
  // ---------------------------------------------------------------------------

  /** Pass 1, `ANSI_ESCAPE.sub('', text)`: scan left to right; at a match drop
      it and resume after it, otherwise keep one character and move on. */
  function StripAnsi(s: string): string
    decreases |s|
  {
    if s == [] then []
    else
      var n := EscapeLength(s);
      if n > 0 then StripAnsi(s[n..]) else [s[0]] + StripAnsi(s[1..])
  }

  /** `text.replace('\r\n', '\n')`: non-overlapping, left to right. */
  function ReplaceCrLf(s: string): string
    decreases |s|
  {
    if s == [] then []
    else if |s| >= 2 && s[0] == CR && s[1] == LF then [LF] + ReplaceCrLf(s[2..])
    else [s[0]] + ReplaceCrLf(s[1..])
  }

  /** `text.replace('\r', '')`. */
  function DropCr(s: string): string {
    if s == [] then [] else (if s[0] == CR then [] else [s[0]]) + DropCr(s[1..])
  }

  /** Pass 3: keep printable characters, LF and TAB. */
  function KeepVisible(s: string): string {
    if s == [] then [] else (if IsVisible(s[0]) then [s[0]] else []) + KeepVisible(s[1..])
  }

  /** The cleaned chunk, as a specification: the three passes in order. */
  function Clean(s: string): string {
    KeepVisible(DropCr(ReplaceCrLf(StripAnsi(s))))
  }

  /** The filter loop of `_clean_output`: each kept character is appended. */
  method FilterVisible(t: string) returns (cleaned: string)
    ensures cleaned == KeepVisible(t)
  {
    cleaned := "";
    var i := 0;
    while i < |t|
      invariant 0 <= i <= |t|
      invariant cleaned + KeepVisible(t[i..]) == KeepVisible(t)
    {
      assert t[i..][1..] == t[i + 1..];
      if IsVisible(t[i]) {
        cleaned := cleaned + [t[i]];
      }
      i := i + 1;
    }
    assert t[i..] == [];
  }

  /** `_clean_output`: the substitution and the two replacements, then the
      filter loop. */
  method CleanOutput(text: string) returns (cleaned: string)
    ensures cleaned == Clean(text)
  {
    cleaned := FilterVisible(DropCr(ReplaceCrLf(StripAnsi(text))));
  }

  // ---------------------------------------------------------------------------
  // Subsequences
  // ---------------------------------------------------------------------------

  /** `a` is obtained from `b` by deleting characters. */
  ghost predicate IsSubsequence(a: string, b: string)
    decreases |b|
  {
    || a == []
    || (b != [] && ((a[0] == b[0] && IsSubsequence(a[1..], b[1..])) || IsSubsequence(a, b[1..])))
  }

  lemma SubsequenceCons(x: char, a: string, b: string)
    requires IsSubsequence(a, b)
    ensures IsSubsequence([x] + a, [x] + b)
  {
    assert ([x] + a)[1..] == a;
    assert ([x] + b)[1..] == b;
  }

  lemma {:induction false} SubsequenceSkip(a: string, b: string, n: nat)
    requires n <= |b| && IsSubsequence(a, b[n..])
    ensures IsSubsequence(a, b)
  {
    if n > 0 {
      assert b[1..][n - 1..] == b[n..];
      SubsequenceSkip(a, b[1..], n - 1);
    }
  }

  lemma {:induction false} SubsequenceTrans(a: string, b: string, c: string)
    requires IsSubsequence(a, b) && IsSubsequence(b, c)
    ensures IsSubsequence(a, c)
    decreases |c|
  {
    if a == [] {
    } else if IsSubsequence(b, c[1..]) {
      SubsequenceTrans(a, b, c[1..]);
    } else {
      assert b[0] == c[0] && IsSubsequence(b[1..], c[1..]);
      if a[0] == b[0] && IsSubsequence(a[1..], b[1..]) {
        SubsequenceTrans(a[1..], b[1..], c[1..]);
      } else {
        SubsequenceTrans(a, b[1..], c[1..]);
      }
    }
  }

  lemma {:induction false} StripAnsiSubsequence(s: string)
    ensures IsSubsequence(StripAnsi(s), s)
    decreases |s|
  {
    if s != [] {
      var n := EscapeLength(s);
      if n > 0 {
        StripAnsiSubsequence(s[n..]);
        SubsequenceSkip(StripAnsi(s), s, n);
      } else {
        StripAnsiSubsequence(s[1..]);
        SubsequenceCons(s[0], StripAnsi(s[1..]), s[1..]);
        assert [s[0]] + s[1..] == s;
      }
    }
  }

  lemma {:induction false} ReplaceCrLfSubsequence(s: string)
    ensures IsSubsequence(ReplaceCrLf(s), s)
    decreases |s|
  {
    if s == [] {
    } else if |s| >= 2 && s[0] == CR && s[1] == LF {
      ReplaceCrLfSubsequence(s[2..]);
      assert s[1..][1..] == s[2..];
      SubsequenceCons(LF, ReplaceCrLf(s[2..]), s[2..]);
      assert [LF] + s[2..] == s[1..];
      SubsequenceSkip(ReplaceCrLf(s), s, 1);
    } else {
      ReplaceCrLfSubsequence(s[1..]);
      SubsequenceCons(s[0], ReplaceCrLf(s[1..]), s[1..]);
      assert [s[0]] + s[1..] == s;
    }
  }

  lemma {:induction false} DropCrSubsequence(s: string)
    ensures IsSubsequence(DropCr(s), s)
  {
    if s != [] {
      DropCrSubsequence(s[1..]);
      if s[0] == CR {
        assert DropCr(s) == DropCr(s[1..]);
        SubsequenceSkip(DropCr(s), s, 1);
      } else {
        SubsequenceCons(s[0], DropCr(s[1..]), s[1..]);
        assert [s[0]] + s[1..] == s;
      }
    }
  }

  lemma {:induction false} KeepVisibleSubsequence(s: string)
    ensures IsSubsequence(KeepVisible(s), s)
  {
    if s != [] {
      KeepVisibleSubsequence(s[1..]);
      if IsVisible(s[0]) {
        SubsequenceCons(s[0], KeepVisible(s[1..]), s[1..]);
        assert [s[0]] + s[1..] == s;
      } else {
        assert KeepVisible(s) == KeepVisible(s[1..]);
        SubsequenceSkip(KeepVisible(s), s, 1);
      }
    }
  }

  /** Cleaning only deletes characters. */
  lemma CleanSubsequence(s: string)
    ensures IsSubsequence(Clean(s), s)
  {
    var s1 := StripAnsi(s);
    var s2 := ReplaceCrLf(s1);
    var s3 := DropCr(s2);
    StripAnsiSubsequence(s);
    ReplaceCrLfSubsequence(s1);
    DropCrSubsequence(s2);
    KeepVisibleSubsequence(s3);
    SubsequenceTrans(s2, s1, s);
    SubsequenceTrans(s3, s2, s);
    SubsequenceTrans(Clean(s), s3, s);
  }

  // ---------------------------------------------------------------------------
  // Output alphabet and idempotence
  // ---------------------------------------------------------------------------

  lemma {:induction false} KeepVisibleAlphabet(s: string)
    ensures AllVisible(KeepVisible(s))
  {
    if s != [] {
      KeepVisibleAlphabet(s[1..]);
    }
  }

  /** Every character of a cleaned chunk is printable, LF or TAB; in particular
      no ESC, no CR, and no other C0 control or DEL survives. */
  lemma CleanAlphabet(s: string)
    ensures AllVisible(Clean(s))
    ensures ESC !in Clean(s) && CR !in Clean(s) && '\U{7F}' !in Clean(s)
    ensures forall c :: c in Clean(s) && c < ' ' ==> c == LF || c == TAB
  {
    KeepVisibleAlphabet(DropCr(ReplaceCrLf(StripAnsi(s))));
  }

  lemma {:induction false} StripAnsiWithoutEsc(s: string)
    requires ESC !in s
    ensures StripAnsi(s) == s
  {
    if s != [] {
      assert s[0] != ESC;
      assert ESC !in s[1..];
      StripAnsiWithoutEsc(s[1..]);
      assert [s[0]] + s[1..] == s;
    }
  }

  lemma {:induction false} ReplaceCrLfWithoutCr(s: string)
    requires CR !in s
    ensures ReplaceCrLf(s) == s
  {
    if s != [] {
      assert s[0] != CR;
      assert CR !in s[1..];
      ReplaceCrLfWithoutCr(s[1..]);
      assert [s[0]] + s[1..] == s;
    }
  }

  lemma {:induction false} DropCrWithoutCr(s: string)
    requires CR !in s
    ensures DropCr(s) == s
  {
    if s != [] {
      assert s[0] != CR;
      assert CR !in s[1..];
      DropCrWithoutCr(s[1..]);
      assert [s[0]] + s[1..] == s;
    }
  }

  lemma {:induction false} KeepVisibleOfVisible(s: string)
    requires AllVisible(s)
    ensures KeepVisible(s) == s
  {
    if s != [] {
      assert IsVisible(s[0]);
      KeepVisibleOfVisible(s[1..]);
      assert [s[0]] + s[1..] == s;
    }
  }

  /** Text made only of printable characters, LF and TAB is left as it is. */
  lemma CleanFixesVisible(s: string)
    requires AllVisible(s)
    ensures Clean(s) == s
  {
    assert ESC !in s && CR !in s by {
      forall i | 0 <= i < |s| ensures s[i] != ESC && s[i] != CR {
        assert IsVisible(s[i]);
      }
    }
    StripAnsiWithoutEsc(s);
    ReplaceCrLfWithoutCr(s);
    DropCrWithoutCr(s);
    KeepVisibleOfVisible(s);
  }

  /** Cleaning an already-cleaned chunk changes nothing. */
  lemma CleanIdempotent(s: string)
    ensures Clean(Clean(s)) == Clean(s)
  {
    CleanAlphabet(s);
    CleanFixesVisible(Clean(s));
  }

  // ---------------------------------------------------------------------------
  // Carriage returns
  // ---------------------------------------------------------------------------

  /** The two CR passes together delete exactly the CR characters. */
  lemma {:induction false} CrPassesDropEveryCr(s: string)
    ensures DropCr(ReplaceCrLf(s)) == DropCr(s)
    ensures CR !in DropCr(s)
    decreases |s|
  {
    if s == [] {
    } else if |s| >= 2 && s[0] == CR && s[1] == LF {
      CrPassesDropEveryCr(s[2..]);
      assert s[1..][1..] == s[2..];
      assert ([LF] + ReplaceCrLf(s[2..]))[1..] == ReplaceCrLf(s[2..]);
    } else {
      CrPassesDropEveryCr(s[1..]);
      assert ([s[0]] + ReplaceCrLf(s[1..]))[1..] == ReplaceCrLf(s[1..]);
    }
  }

  // ---------------------------------------------------------------------------
  // What the first pass removes
  // ---------------------------------------------------------------------------

  /** An escape sequence at the front is removed whole and scanning resumes
      right after it. */
  lemma EscapeRemovedWhole(e: string, t: string)
    requires IsEscapeSequence(e)
    ensures StripAnsi(e + t) == StripAnsi(t)
  {
    EscapeLengthComplete(e, t);
    assert (e + t)[|e|..] == t;
  }

  /** ESC followed by one byte in `@`..`Z` or backslash..`_` is a two-character
      sequence. */
  lemma TwoCharEscapeRemoved(c: char, t: string)
    requires IsFeByte(c)
    ensures StripAnsi([ESC, c] + t) == StripAnsi(t)
  {
    EscapeRemovedWhole([ESC, c], t);
  }

  /** ESC `[` parameters intermediates final is removed whole. */
  lemma CsiRemoved(params: string, inter: string, final: char, t: string)
    requires AllParams(params) && AllIntermediates(inter) && IsFinalByte(final)
    ensures StripAnsi([ESC, '['] + params + inter + [final] + t) == StripAnsi(t)
  {
    var e := [ESC, '['] + params + inter + [final];
    assert e[2..2 + |params|] == params;
    assert e[2 + |params|..|e| - 1] == inter;
    assert IsEscapeSequence(e);
    assert [ESC, '['] + params + inter + [final] + t == e + t;
    EscapeRemovedWhole(e, t);
  }

  /** "clear screen" then `ok` cleans to exactly `ok`. */
  lemma ClearScreenThenOk()
    ensures Clean([ESC] + "[2J" + "ok") == "ok"
  {
    var s := [ESC] + "[2J" + "ok";
    assert s == [ESC, '['] + "2" + "" + ['J'] + "ok";
    CsiRemoved("2", "", 'J', "ok");
    StripAnsiWithoutEsc("ok");
    CleanFixesVisible("ok");
  }

  /** A cursor move to row 10, column 5, then `ok` cleans to exactly `ok`. */
  lemma CursorMoveThenOk()
    ensures Clean([ESC] + "[10;5H" + "ok") == "ok"
  {
    var s := [ESC] + "[10;5H" + "ok";
    assert s == [ESC, '['] + "10;5" + "" + ['H'] + "ok";
    CsiRemoved("10;5", "", 'H', "ok");
    StripAnsiWithoutEsc("ok");
    CleanFixesVisible("ok");
  }

  /** An ESC that starts no sequence survives the first pass and is then
      dropped by the filter, so only the escape byte itself is lost. */
  lemma LoneEscDropped(t: string)
    requires AllVisible(t) && (t == [] || (!IsFeByte(t[0]) && t[0] != '['))
    ensures Clean([ESC] + t) == t
  {
    var s := [ESC] + t;
    assert EscapeLength(s) == 0;
    assert s[1..] == t;
    assert ESC !in t by {
      forall i | 0 <= i < |t| ensures t[i] != ESC { assert IsVisible(t[i]); }
    }
    StripAnsiWithoutEsc(t);
    assert StripAnsi(s) == s;
    assert CR !in s by {
      forall i | 0 <= i < |s| ensures s[i] != CR {
        if i > 0 { assert s[i] == t[i - 1]; assert IsVisible(t[i - 1]); }
      }
    }
    ReplaceCrLfWithoutCr(s);
    DropCrWithoutCr(s);
    assert KeepVisible(s) == KeepVisible(t);
    KeepVisibleOfVisible(t);
  }

  /** Cleaning works chunk by chunk: a clear-screen sequence split across two
      reads is not removed whole, and its tail stays in the output. */
  lemma SplitEscapeNotRemoved()
    ensures Clean([ESC]) + Clean("[2J") == "[2J"
    ensures Clean([ESC] + "[2J") == ""
  {
    LoneEscDropped([]);
    assert [ESC] + [] == [ESC];
    CleanFixesVisible("[2J");
    var s := [ESC] + "[2J";
    assert s == [ESC, '['] + "2" + "" + ['J'] + "";
    CsiRemoved("2", "", 'J', "");
  }
}
