/**
 * The pieces of Kotlin's string library that the core relies on: decimal
 * rendering of integers (`Long.toString`), truncating division, `isBlank`,
 * `lines`, `joinToString` and `trimMargin`, together with a reader that
 * turns rendered durations back into minutes.
 */
module Text {
  import opened Wrappers

  predicate IsDigit(c: char) {
    '0' <= c <= '9'
  }

  predicate AllDigits(s: string) {
    forall i :: 0 <= i < |s| ==> IsDigit(s[i])
  }

  function DigitChar(d: nat): (c: char)
    requires d < 10
    ensures IsDigit(c) && c as int - '0' as int == d
  {
    (48 + d) as char
  }

  /** The decimal digits of `n`, most significant first, as Kotlin prints a non-negative number. */
  function NatToString(n: nat): (s: string)
    ensures |s| >= 1 && AllDigits(s)
  {
    if n < 10 then [DigitChar(n)] else NatToString(n / 10) + [DigitChar(n % 10)]
  }

  /** The number a string of decimal digits denotes. */
  function DigitsValue(s: string): nat
    requires AllDigits(s)
  {
    if s == [] then 0 else DigitsValue(s[..|s| - 1]) * 10 + (s[|s| - 1] as int - '0' as int)
  }

  lemma {:induction false} DigitsValueOfNatToString(n: nat)
    ensures DigitsValue(NatToString(n)) == n
  {
    if n >= 10 {
      var s := NatToString(n);
      assert s[..|s| - 1] == NatToString(n / 10);
      DigitsValueOfNatToString(n / 10);
    }
  }

  /** Kotlin's `Long.toString()` and string templates: a minus sign, then the digits. */
  function LongToString(i: int): (s: string)
    ensures i >= 0 ==> s == NatToString(i)
    ensures i < 0 ==> s == "-" + NatToString(-i)
  {
    if i < 0 then "-" + NatToString(-i) else NatToString(i)
  }

  /** Kotlin's `/` on `Long`: the quotient is truncated toward zero. */
  function Quot(a: int, b: int): (q: int)
    requires b > 0
    ensures a >= 0 ==> 0 <= a - b * q < b
    ensures a < 0 ==> -b < a - b * q <= 0
  {
    if a >= 0 then a / b else -((-a) / b)
  }

  /** Kotlin's `%` on `Long`: the remainder takes the sign of the dividend. */
  function Rem(a: int, b: int): (r: int)
    requires b > 0
    ensures a >= 0 ==> 0 <= r < b
    ensures a < 0 ==> -b < r <= 0
    ensures a == b * Quot(a, b) + r
  {
    a - b * Quot(a, b)
  }

  /** Kotlin's `Char.isWhitespace()` on the JVM: Java whitespace or a Unicode space separator. */
  predicate IsWhitespace(c: char) {
    || c == ' ' || c == '\t' || c == '\n' || c == '\U{000B}' || c == '\U{000C}' || c == '\r'
    || ('\U{001C}' <= c <= '\U{001F}')
    || c == '\U{00A0}' || c == '\U{1680}' || ('\U{2000}' <= c <= '\U{200A}')
    || c == '\U{2028}' || c == '\U{2029}' || c == '\U{202F}' || c == '\U{205F}' || c == '\U{3000}'
  }

  /** Kotlin's `isBlank()`: empty, or whitespace only. */
  predicate IsBlank(s: string) {
    forall i :: 0 <= i < |s| ==> IsWhitespace(s[i])
  }

  /** Kotlin's `joinToString(sep)`. */
  function Join(sep: string, xs: seq<string>): string {
    if |xs| == 0 then "" else if |xs| == 1 then xs[0] else xs[0] + sep + Join(sep, xs[1..])
  }

  lemma {:induction false} JoinConcat(sep: string, xs: seq<string>, ys: seq<string>)
    requires |xs| >= 1 && |ys| >= 1
    ensures Join(sep, xs + ys) == Join(sep, xs) + sep + Join(sep, ys)
  {
    if |xs| == 1 {
      assert (xs + ys)[1..] == ys;
    } else {
      assert (xs + ys)[1..] == xs[1..] + ys;
      JoinConcat(sep, xs[1..], ys);
    }
  }

  lemma {:induction false} JoinPrefixFirst(p: string, xs: seq<string>)
    requires |xs| >= 1
    ensures p + Join("\n", xs) == Join("\n", [p + xs[0]] + xs[1..])
  {
    var ys := [p + xs[0]] + xs[1..];
    if |xs| > 1 {
      assert ys[1..] == xs[1..];
    }
  }

  predicate NoNewline(s: string) {
    '\n' !in s
  }

  /** The lines of `s`, split at every '\n'; as in Kotlin, "" has one empty line. */
  function Lines(s: string): (ls: seq<string>)
    ensures |ls| >= 1
    ensures forall i :: 0 <= i < |ls| ==> NoNewline(ls[i])
  {
    if s == [] then [""]
    else if s[0] == '\n' then [""] + Lines(s[1..])
    else
      var r := Lines(s[1..]);
      [[s[0]] + r[0]] + r[1..]
  }

  lemma {:induction false} LinesOfLine(a: string)
    requires NoNewline(a)
    ensures Lines(a) == [a]
  {
    if a != [] {
      LinesOfLine(a[1..]);
      assert [a[0]] + a[1..] == a;
    }
  }

  lemma {:induction false} LinesAfterLine(a: string, b: string)
    requires NoNewline(a)
    ensures Lines(a + "\n" + b) == [a] + Lines(b)
  {
    var s := a + "\n" + b;
    if a == [] {
      assert s[1..] == b;
    } else {
      assert s[1..] == a[1..] + "\n" + b;
      LinesAfterLine(a[1..], b);
      assert [a[0]] + a[1..] == a;
    }
  }

  /** Splitting a '\n'-join of newline-free lines gives the lines back. */
  lemma {:induction false} LinesOfJoin(xs: seq<string>)
    requires |xs| >= 1
    requires forall i :: 0 <= i < |xs| ==> NoNewline(xs[i])
    ensures Lines(Join("\n", xs)) == xs
  {
    if |xs| == 1 {
      LinesOfLine(xs[0]);
    } else {
      LinesOfJoin(xs[1..]);
      LinesAfterLine(xs[0], Join("\n", xs[1..]));
    }
  }

  lemma JoinInjective(xs: seq<string>, ys: seq<string>)
    requires |xs| >= 1 && |ys| >= 1
    requires forall i :: 0 <= i < |xs| ==> NoNewline(xs[i])
    requires forall i :: 0 <= i < |ys| ==> NoNewline(ys[i])
    requires Join("\n", xs) == Join("\n", ys)
    ensures xs == ys
  {
    LinesOfJoin(xs);
    LinesOfJoin(ys);
  }

  /** The first position of `c` in `s`, if any. */
  function IndexOf(s: string, c: char): (r: Option<nat>)
    ensures r.None? <==> c !in s
    ensures r.Some? ==> r.value < |s| && s[r.value] == c && c !in s[..r.value]
  {
    if s == [] then None
    else if s[0] == c then Some(0)
    else match IndexOf(s[1..], c)
      case None => None
      case Some(i) =>
        assert s[..i + 1] == [s[0]] + s[1..][..i];
        Some(i + 1)
  }

  lemma IndexOfAfter(a: string, c: char, b: string)
    requires c !in a
    ensures IndexOf(a + [c] + b, c) == Some(|a|)
  {
    var s := a + [c] + b;
    assert s[|a|] == c;
    assert forall k :: 0 <= k < |a| ==> s[k] == a[k];
    assert forall k :: |a| < k <= |s| ==> s[..k][|a|] == c;
  }

  /**
   * Reads a rendered duration `{h}h{sep}{m}m` or `{m}m` back into a whole
   * number of minutes, `h * 60 + m`; anything else is not a duration.
   */
  function ReadDuration(s: string, sep: string): Option<int> {
    if |s| == 0 || s[|s| - 1] != 'm' then None else ReadDurationBody(s[..|s| - 1], sep)
  }

  function ReadDurationBody(body: string, sep: string): Option<int> {
    match IndexOf(body, 'h')
    case None => ReadNumber(body)
    case Some(i) => ReadHoursThenMinutes(body[..i], body[i + 1..], sep)
  }

  function ReadNumber(s: string): Option<int> {
    if s != [] && AllDigits(s) then Some(DigitsValue(s)) else None
  }

  function ReadHoursThenMinutes(hours: string, rest: string, sep: string): Option<int> {
    if |sep| <= |rest| && rest[..|sep|] == sep then
      match (ReadNumber(hours), ReadNumber(rest[|sep|..]))
      case (Some(h), Some(m)) => Some(h * 60 + m)
      case _ => None
    else None
  }

  lemma DigitsHaveNoH(s: string)
    requires AllDigits(s)
    ensures 'h' !in s
  {
  }

  lemma ReadDurationParts(hs: string, ms: string, sep: string, h: nat, m: nat)
    requires hs != [] && AllDigits(hs) && ms != [] && AllDigits(ms)
    requires DigitsValue(hs) == h && DigitsValue(ms) == m
    ensures ReadDuration(hs + "h" + sep + ms + "m", sep) == Some(h * 60 + m)
  {
    var rest := sep + ms;
    var body := hs + ['h'] + rest;
    DurationShape(hs, sep, ms);
    ReadDurationOfBody(body, sep);
    ReadBodyParts(hs, rest, sep);
    ReadRestParts(hs, ms, sep, h, m);
  }

  lemma DurationShape(hs: string, sep: string, ms: string)
    ensures hs + "h" + sep + ms + "m" == hs + ['h'] + (sep + ms) + ['m']
  {
  }

  /** The reader drops the trailing 'm' and reads what comes before it. */
  lemma ReadDurationOfBody(body: string, sep: string)
    ensures ReadDuration(body + ['m'], sep) == ReadDurationBody(body, sep)
  {
    assert (body + ['m'])[..|body|] == body;
  }

  lemma ReadBodyParts(hs: string, rest: string, sep: string)
    requires AllDigits(hs)
    ensures ReadDurationBody(hs + ['h'] + rest, sep) == ReadHoursThenMinutes(hs, rest, sep)
  {
    var body := hs + ['h'] + rest;
    DigitsHaveNoH(hs);
    IndexOfAfter(hs, 'h', rest);
    assert body[..|hs|] == hs;
    assert body[|hs| + 1..] == rest;
  }

  lemma ReadRestParts(hs: string, ms: string, sep: string, h: nat, m: nat)
    requires hs != [] && AllDigits(hs) && ms != [] && AllDigits(ms)
    requires DigitsValue(hs) == h && DigitsValue(ms) == m
    ensures ReadHoursThenMinutes(hs, sep + ms, sep) == Some(h * 60 + m)
  {
    var rest := sep + ms;
    assert rest[..|sep|] == sep;
    assert rest[|sep|..] == ms;
  }

  lemma ReadHoursMinutes(h: nat, m: nat, sep: string)
    ensures ReadDuration(NatToString(h) + "h" + sep + NatToString(m) + "m", sep) == Some(h * 60 + m)
  {
    DigitsValueOfNatToString(h);
    DigitsValueOfNatToString(m);
    ReadDurationParts(NatToString(h), NatToString(m), sep, h, m);
  }

  lemma ReadMinutes(m: nat, sep: string)
    ensures ReadDuration(NatToString(m) + "m", sep) == Some(m)
  {
    var ms := NatToString(m);
    var s := ms + "m";
    assert s[..|s| - 1] == ms;
    DigitsHaveNoH(ms);
    DigitsValueOfNatToString(m);
  }

  /** Kotlin's per-line margin cut: leading whitespace and one '|' go, other lines stay as they are. */
  function StripMargin(line: string): string {
    match FirstNonWhitespace(line)
    case None => line
    case Some(k) => if line[k] == '|' then line[k + 1..] else line
  }

  function FirstNonWhitespace(line: string): (r: Option<nat>)
    ensures r.None? ==> IsBlank(line)
    ensures r.Some? ==> r.value < |line| && !IsWhitespace(line[r.value])
    ensures r.Some? ==> forall k :: 0 <= k < r.value ==> IsWhitespace(line[k])
  {
    if line == [] then None
    else if !IsWhitespace(line[0]) then Some(0)
    else match FirstNonWhitespace(line[1..])
      case None => None
      case Some(k) => Some(k + 1)
  }

  function StripAll(ls: seq<string>): (r: seq<string>)
    ensures |r| == |ls|
  {
    if ls == [] then [] else [StripMargin(ls[0])] + StripAll(ls[1..])
  }

  /** A first or last line that is blank is dropped; every other line loses its margin. */
  function TrimMarginLines(ls: seq<string>): seq<string>
    requires |ls| >= 1
  {
    if |ls| == 1 then EdgeLine(ls[0])
    else EdgeLine(ls[0]) + StripAll(ls[1..|ls| - 1]) + EdgeLine(ls[|ls| - 1])
  }

  function EdgeLine(line: string): seq<string> {
    if IsBlank(line) then [] else [StripMargin(line)]
  }

  /** Kotlin's `trimMargin()` with the default prefix "|". */
  function TrimMargin(s: string): string {
    Join("\n", TrimMarginLines(Lines(s)))
  }

  lemma DigitsNoNewline(s: string)
    requires AllDigits(s)
    ensures NoNewline(s)
  {
  }

  lemma LongToStringNoNewline(i: int)
    ensures NoNewline(LongToString(i))
  {
    DigitsNoNewline(NatToString(if i < 0 then -i else i));
  }

  /** A '\n'-joined part spliced into a join reads as its lines. */
  lemma JoinSplice(xs: seq<string>, mid: seq<string>, ys: seq<string>)
    requires |xs| >= 1 && |mid| >= 1 && |ys| >= 1
    ensures Join("\n", xs + [Join("\n", mid)] + ys) == Join("\n", xs + mid + ys)
  {
    JoinConcat("\n", xs + [Join("\n", mid)], ys);
    JoinConcat("\n", xs, [Join("\n", mid)]);
    JoinConcat("\n", xs + mid, ys);
    JoinConcat("\n", xs, mid);
  }

  /** Leading whitespace is skipped to the first other character. */
  lemma {:induction false} FirstNonWhitespaceAfter(w: string, rest: string)
    requires IsBlank(w)
    requires rest != [] && !IsWhitespace(rest[0])
    ensures FirstNonWhitespace(w + rest) == Some(|w|)
  {
    if w == [] {
      assert w + rest == rest;
    } else {
      assert (w + rest)[1..] == w[1..] + rest;
      FirstNonWhitespaceAfter(w[1..], rest);
    }
  }

  /** A line whose margin is whitespace and then '|' loses exactly that margin. */
  lemma StripMarginAfter(w: string, rest: string)
    requires IsBlank(w)
    ensures StripMargin(w + "|" + rest) == rest
  {
    FirstNonWhitespaceAfter(w, "|" + rest);
    assert w + "|" + rest == w + ("|" + rest);
    assert (w + "|" + rest)[|w| + 1..] == rest;
  }

  lemma StripMarginNoNewline(line: string)
    requires NoNewline(line)
    ensures NoNewline(StripMargin(line))
  {
    match FirstNonWhitespace(line)
    case None =>
    case Some(k) =>
      if line[k] == '|' {
        assert forall c :: c in line[k + 1..] ==> c in line;
      }
  }

  lemma {:induction false} StripAllConcat(xs: seq<string>, ys: seq<string>)
    ensures StripAll(xs + ys) == StripAll(xs) + StripAll(ys)
  {
    if xs == [] {
      assert xs + ys == ys;
    } else {
      assert (xs + ys)[1..] == xs[1..] + ys;
      StripAllConcat(xs[1..], ys);
    }
  }

  lemma {:induction false} StripAllNoNewline(xs: seq<string>)
    requires forall i :: 0 <= i < |xs| ==> NoNewline(xs[i])
    ensures forall i :: 0 <= i < |StripAll(xs)| ==> NoNewline(StripAll(xs)[i])
  {
    if xs != [] {
      StripMarginNoNewline(xs[0]);
      StripAllNoNewline(xs[1..]);
      var r := StripAll(xs);
      assert forall i :: 1 <= i < |r| ==> r[i] == StripAll(xs[1..])[i - 1];
    }
  }

  lemma {:induction false} StripAllNoMargin(xs: seq<string>)
    requires forall i :: 0 <= i < |xs| ==> StripMargin(xs[i]) == xs[i]
    ensures StripAll(xs) == xs
  {
    if xs != [] {
      StripAllNoMargin(xs[1..]);
      assert [xs[0]] + xs[1..] == xs;
    }
  }

  /**
   * `trimMargin` over lines split from a string: the first and last lines,
   * being blank, are dropped and the lines between lose their margins.
   */
  lemma TrimMarginBetweenBlanks(first: string, middle: seq<string>, last: string)
    requires IsBlank(first) && IsBlank(last)
    requires NoNewline(first) && NoNewline(last)
    requires forall i :: 0 <= i < |middle| ==> NoNewline(middle[i])
    ensures TrimMargin(Join("\n", [first] + middle + [last])) == Join("\n", StripAll(middle))
  {
    var ls := [first] + middle + [last];
    assert forall i :: 0 <= i < |ls| ==> NoNewline(ls[i]) by {
      forall i | 0 <= i < |ls| ensures NoNewline(ls[i]) {
        if 0 < i < |ls| - 1 {
          assert ls[i] == middle[i - 1];
        }
      }
    }
    LinesOfJoin(ls);
    assert ls[0] == first && ls[|ls| - 1] == last;
    assert ls[1..|ls| - 1] == middle;
    assert EdgeLine(first) == [] && EdgeLine(last) == [];
    assert TrimMarginLines(ls) == [] + StripAll(middle) + [];
    assert [] + StripAll(middle) + [] == StripAll(middle);
  }
}
