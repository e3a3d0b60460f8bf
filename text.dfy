/**
 * The string operations the context-file engine relies on: `str.split()`
 * (the whitespace word count that stands in for a token count),
 * `str.__contains__`, `str.strip()`, `split(':')[1]`, `str.endswith`,
 * `int()` and `'{}'.format` of an int, and `re.fullmatch` of the literal
 * alternatives used to recognise a shell.
 */
module Text {
  import opened Outcomes

  /** `str.isspace()` on ASCII: space, \t \n \v \f \r and the separators \x1c-\x1f. */
  predicate IsSpace(c: char) {
    c == ' ' || ('\t' <= c && c <= '\r') || ('\U{1C}' <= c && c <= '\U{1F}')
  }

  // ---------------------------------------------------------------------------
  // Words: `s.split()` and `len(s.split())`
  // ---------------------------------------------------------------------------

  /** The first character of `s` is the last one of a run of non-space characters. */
  predicate EndsRun(s: string)
    requires s != []
  {
    !IsSpace(s[0]) && (|s| == 1 || IsSpace(s[1]))
  }

  /** `len(s.split())`: the number of maximal runs of non-space characters, counted where each run ends. */
  function WordCount(s: string): nat
    decreases |s|
  {
    if s == [] then 0 else (if EndsRun(s) then 1 else 0) + WordCount(s[1..])
  }

  /** Length of the run of non-space characters that starts `s`. */
  function RunLength(s: string): (k: nat)
    requires s != [] && !IsSpace(s[0])
    ensures 1 <= k <= |s|
    ensures forall j :: 0 <= j < k ==> !IsSpace(s[j])
    ensures k == |s| || IsSpace(s[k])
    decreases |s|
  {
    if |s| == 1 || IsSpace(s[1]) then 1 else 1 + RunLength(s[1..])
  }

  /** `s.split()`: the maximal runs of non-space characters, in order. */
  function Words(s: string): (ws: seq<string>)
    ensures forall i :: 0 <= i < |ws| ==> ws[i] != []
    ensures forall i, j :: 0 <= i < |ws| && 0 <= j < |ws[i]| ==> !IsSpace(ws[i][j])
    decreases |s|
  {
    if s == [] then []
    else if IsSpace(s[0]) then Words(s[1..])
    else var k := RunLength(s); [s[..k]] + Words(s[k..])
  }

  /** `s.split()[i]` when `s` has exactly `n` words, and nothing otherwise. */
  function WordWhenCount(s: string, n: nat, i: nat): (r: Option<string>)
    requires i < n
    ensures r.Some? <==> |Words(s)| == n
  {
    var ws := Words(s);
    if |ws| == n then Some(ws[i]) else None
  }

  lemma {:induction false} RunCount(s: string)
    requires s != [] && !IsSpace(s[0])
    ensures WordCount(s) == 1 + WordCount(s[RunLength(s)..])
    decreases |s|
  {
    if |s| > 1 && !IsSpace(s[1]) {
      RunCount(s[1..]);
      assert s[1..][RunLength(s[1..])..] == s[RunLength(s)..];
    }
  }

  /** The token list and the run count agree: `len(s.split())` is the number of runs. */
  lemma {:induction false} WordsCount(s: string)
    ensures |Words(s)| == WordCount(s)
    decreases |s|
  {
    if s != [] {
      if IsSpace(s[0]) {
        WordsCount(s[1..]);
      } else {
        RunCount(s);
        WordsCount(s[RunLength(s)..]);
      }
    }
  }

  /** Word counts add up across a cut that falls on whitespace (as at the end of a line). */
  lemma {:induction false} WordCountAppend(a: string, b: string)
    requires a == [] || IsSpace(a[|a| - 1])
    ensures WordCount(a + b) == WordCount(a) + WordCount(b)
    decreases |a|
  {
    if a != [] {
      assert (a + b)[1..] == a[1..] + b;
      if |a| == 1 {
        assert !EndsRun(a + b) && !EndsRun(a);
        assert a[1..] == [] && (a + b)[1..] == b;
        assert WordCount(a) == WordCount(a[1..]);
        assert WordCount(a + b) == WordCount(b);
      } else {
        assert (a + b)[1] == a[1];
        assert EndsRun(a + b) == EndsRun(a);
        assert a[1..][|a| - 2] == a[|a| - 1];
        WordCountAppend(a[1..], b);
        assert WordCount(a + b) == (if EndsRun(a + b) then 1 else 0) + WordCount(a[1..] + b);
      }
    } else {
      assert a + b == b;
    }
  }

  // ---------------------------------------------------------------------------
  // Substrings
  // ---------------------------------------------------------------------------

  /** `sub in s` (`s.__contains__(sub)`). */
  predicate Contains(s: string, sub: string)
    decreases |s|
  {
    sub <= s || (s != [] && Contains(s[1..], sub))
  }

  lemma {:induction false} ContainsAt(s: string, sub: string, i: nat)
    requires i + |sub| <= |s| && s[i..i + |sub|] == sub
    ensures Contains(s, sub)
    decreases i
  {
    if i > 0 {
      assert s[1..][i - 1..i - 1 + |sub|] == sub;
      ContainsAt(s[1..], sub, i - 1);
    }
  }

  /** A text without one of the letters of `sub` does not contain `sub`. */
  lemma {:induction false} AbsentLetter(s: string, sub: string, c: char)
    requires c in sub && c !in s
    ensures !Contains(s, sub)
    decreases |s|
  {
    if s != [] {
      AbsentLetter(s[1..], sub, c);
    }
  }

  /** Index of the first `c` in `s`. */
  function IndexOf(s: string, c: char): (i: nat)
    requires c in s
    ensures i < |s| && s[i] == c && c !in s[..i]
  {
    if s[0] == c then 0 else 1 + IndexOf(s[1..], c)
  }

  /** The longest prefix of `s` without `c`. */
  function TakeUntil(s: string, c: char): (r: string)
    ensures r <= s && c !in r
    ensures r == s || s[|r|] == c
  {
    if s == [] || s[0] == c then [] else [s[0]] + TakeUntil(s[1..], c)
  }

  lemma {:induction false} TakeUntilAbsent(s: string, c: char)
    requires c !in s
    ensures TakeUntil(s, c) == s
  {
  }

  // ---------------------------------------------------------------------------
  // strip() and header fields
  // ---------------------------------------------------------------------------

  function StripLeft(s: string): (r: string)
    ensures r == [] || !IsSpace(r[0])
    decreases |s|
  {
    if s != [] && IsSpace(s[0]) then StripLeft(s[1..]) else s
  }

  function StripRight(s: string): (r: string)
    ensures r == [] || !IsSpace(r[|r| - 1])
    decreases |s|
  {
    if s != [] && IsSpace(s[|s| - 1]) then StripRight(s[..|s| - 1]) else s
  }

  /** `s.strip()`. */
  function Strip(s: string): string {
    StripRight(StripLeft(s))
  }

  /** A text that `strip()` leaves alone. */
  predicate Trimmed(t: string) {
    t == [] || (!IsSpace(t[0]) && !IsSpace(t[|t| - 1]))
  }

  /** Whitespace around a trimmed text is exactly what `strip()` removes. */
  lemma StripPadded(t: string)
    requires Trimmed(t)
    ensures Strip(" " + t + "\n") == t
  {
    assert (" " + t + "\n")[1..] == t + "\n";
    if t == [] {
      var pad := " " + t + "\n";
      assert pad[1..] == "\n" && "\n"[1..] == [];
      assert StripLeft(pad) == StripLeft("\n") == [];
    } else {
      var pad := " " + t + "\n";
      assert pad[0] == ' ';
      assert StripLeft(pad) == StripLeft(t + "\n");
      assert (t + "\n")[0] == t[0];
      assert StripLeft(t + "\n") == t + "\n";
      assert (t + "\n")[..|t + "\n"| - 1] == t;
      assert StripRight(t + "\n") == StripRight(t) == t;
    }
  }

  /** `s.split(':')[1]`: the text after the first ':' up to the second ':' or the end. */
  function ColonPiece(s: string): Result<string> {
    if ':' in s then Ok(TakeUntil(s[IndexOf(s, ':') + 1..], ':')) else Raised(IndexError)
  }

  /** `line.split(':')[1].strip()`: how a header value is read back. */
  function FieldValue(line: string): Result<string> {
    var piece :- ColonPiece(line);
    Ok(Strip(piece))
  }

  /** A text that can stand as a header value: no ':' or line break inside, nothing for strip() to remove. */
  predicate Clean(t: string) {
    (forall i :: 0 <= i < |t| ==> t[i] != ':' && t[i] != '\n') && Trimmed(t)
  }

  /** Reading back a `## <label>: <value>` line gives the value, when the tag has no ':' and the value is clean. */
  lemma FieldOfHeader(tag: string, t: string)
    requires ':' !in tag && Clean(t)
    ensures FieldValue("## " + tag + ": " + t + "\n") == Ok(t)
  {
    var pre := "## " + tag;
    var line := pre + ": " + t + "\n";
    assert line == pre + ([':'] + (" " + t + "\n"));
    assert ':' !in pre;
    assert line[|pre|] == ':';
    assert line[..|pre|] == pre;
    assert IndexOf(line, ':') == |pre|;
    assert line[|pre| + 1..] == " " + t + "\n";
    TakeUntilAbsent(" " + t + "\n", ':');
    StripPadded(t);
  }

  // ---------------------------------------------------------------------------
  // File names
  // ---------------------------------------------------------------------------

  predicate EndsWith(s: string, suffix: string) {
    |suffix| <= |s| && s[|s| - |suffix|..] == suffix
  }

  /** `name if name.endswith('.txt') else name + '.txt'`. */
  function WithTxt(name: string): (r: string)
    ensures EndsWith(r, ".txt")
    ensures EndsWith(name, ".txt") ==> r == name
    ensures !EndsWith(name, ".txt") ==> r == name + ".txt"
  {
    if EndsWith(name, ".txt") then name else name + ".txt"
  }

  /** Normalising a name twice is normalising it once. */
  lemma WithTxtIdempotent(name: string)
    ensures WithTxt(WithTxt(name)) == WithTxt(name)
  {
  }

  // ---------------------------------------------------------------------------
  // Integers: int() and '{}'.format
  // ---------------------------------------------------------------------------

  predicate IsDigit(c: char) {
    '0' <= c <= '9'
  }

  predicate AllDigits(s: string) {
    forall i :: 0 <= i < |s| ==> IsDigit(s[i])
  }

  function DigitChar(d: nat): (c: char)
    requires d < 10
    ensures IsDigit(c) && c as int - '0' as int == d
  {
    ('0' as int + d) as char
  }

  /** Decimal digits of `n`, most significant first, no leading zeros. */
  function NatToString(n: nat): (s: string)
    ensures s != [] && AllDigits(s)
    decreases n
  {
    if n < 10 then [DigitChar(n)] else NatToString(n / 10) + [DigitChar(n % 10)]
  }

  /** The value of a digit string. */
  function DigitsValue(s: string): nat
    requires AllDigits(s)
  {
    if s == [] then 0 else 10 * DigitsValue(s[..|s| - 1]) + (s[|s| - 1] as int - '0' as int)
  }

  /** `'{}'.format(i)` for an int. */
  function IntToString(i: int): (s: string)
    ensures Clean(s) && s != []
  {
    var s := if i < 0 then "-" + NatToString(-i) else NatToString(i);
    assert s[|s| - 1] == NatToString(if i < 0 then -i else i)[|NatToString(if i < 0 then -i else i)| - 1];
    s
  }

  /**
   * The digit part Python's `int()` accepts: ASCII digits, with single
   * underscores allowed between two digits (`1_000`).
   */
  predicate Numeral(s: string) {
    s != [] && IsDigit(s[0]) && IsDigit(s[|s| - 1]) &&
    (forall i :: 0 <= i < |s| ==> IsDigit(s[i]) || s[i] == '_') &&
    (forall i :: 0 <= i < |s| - 1 ==> s[i] == '_' ==> s[i + 1] != '_')
  }

  /** The digits of `s`, its underscores left out. */
  function DigitsOf(s: string): (d: string)
    requires forall i :: 0 <= i < |s| ==> IsDigit(s[i]) || s[i] == '_'
    ensures AllDigits(d) && |d| <= |s|
    ensures AllDigits(s) ==> d == s
  {
    if s == [] then []
    else
      var rest := DigitsOf(s[..|s| - 1]);
      if s[|s| - 1] == '_' then rest else rest + [s[|s| - 1]]
  }

  /** `int(s)` on a text without surrounding whitespace: an optional sign, then a numeral. */
  function ParseInt(s: string): (r: Result<int>)
    ensures r.Ok? <==> Numeral(s) || (|s| > 1 && (s[0] == '-' || s[0] == '+') && Numeral(s[1..]))
    ensures r.Raised? ==> r.exc == ValueError
    ensures s != [] && AllDigits(s) ==> r == Ok(DigitsValue(s))
    ensures r.Ok? && s[0] == '-' ==> r.value <= 0
    ensures r.Ok? && s[0] != '-' ==> r.value >= 0
  {
    if s == [] then Raised(ValueError)
    else if s[0] == '-' || s[0] == '+' then
      if Numeral(s[1..]) then Ok((if s[0] == '-' then -1 else 1) * DigitsValue(DigitsOf(s[1..])))
      else Raised(ValueError)
    else if Numeral(s) then Ok(DigitsValue(DigitsOf(s)))
    else Raised(ValueError)
  }

  lemma {:induction false} DigitsOfAppend(a: string, b: string)
    requires forall i :: 0 <= i < |a| ==> IsDigit(a[i]) || a[i] == '_'
    requires forall i :: 0 <= i < |b| ==> IsDigit(b[i]) || b[i] == '_'
    ensures DigitsOf(a + b) == DigitsOf(a) + DigitsOf(b)
    decreases |b|
  {
    if b != [] {
      assert (a + b)[..|a + b| - 1] == a + b[..|b| - 1];
      DigitsOfAppend(a, b[..|b| - 1]);
    } else {
      assert a + b == a;
    }
  }

  lemma NumeralsJoined(a: string, b: string)
    requires Numeral(a) && Numeral(b)
    ensures Numeral(a + "_" + b) && Numeral(a + b)
  {
    var u := a + "_" + b;
    assert forall i :: 0 <= i < |a| ==> u[i] == a[i];
    assert forall i :: 0 <= i < |b| ==> u[|a| + 1 + i] == b[i];
    assert forall i :: 0 <= i < |b| ==> (a + b)[|a| + i] == b[i];
  }

  /** A numeral without a sign reads as the value of its digits. */
  lemma UnsignedNumeral(u: string)
    requires Numeral(u)
    ensures ParseInt(u) == Ok(DigitsValue(DigitsOf(u)))
  {
    assert u[0] != '-' && u[0] != '+';
  }

  lemma DigitsOfJoined(a: string, b: string)
    requires Numeral(a) && Numeral(b)
    ensures Numeral(a + "_" + b) && Numeral(a + b)
    ensures DigitsOf(a + "_" + b) == DigitsOf(a + b)
  {
    NumeralsJoined(a, b);
    DigitsOfAppend(a + "_", b);
    DigitsOfAppend(a, "_");
    DigitsOfAppend(a, b);
  }

  /** An underscore between two numerals is skipped: `int('1_000') == int('1000')`. */
  lemma UnderscoreSkipped(a: string, b: string)
    requires Numeral(a) && Numeral(b)
    ensures Numeral(a + "_" + b) && ParseInt(a + "_" + b) == ParseInt(a + b)
  {
    DigitsOfJoined(a, b);
    UnsignedNumeral(a + "_" + b);
    UnsignedNumeral(a + b);
  }

  lemma {:induction false} DigitsRoundTrip(n: nat)
    ensures DigitsValue(NatToString(n)) == n
    decreases n
  {
    if n >= 10 {
      var s := NatToString(n);
      assert s[..|s| - 1] == NatToString(n / 10);
      DigitsRoundTrip(n / 10);
    }
  }

  /** A non-empty run of digits is a numeral whose digits are itself. */
  lemma DigitsNumeral(d: string)
    requires d != [] && AllDigits(d)
    ensures Numeral(d) && DigitsOf(d) == d
  {
  }

  lemma NegativeRoundTrip(n: nat)
    requires n > 0
    ensures ParseInt("-" + NatToString(n)) == Ok(-(n as int))
  {
    var d := NatToString(n);
    var s := "-" + d;
    DigitsRoundTrip(n);
    DigitsNumeral(d);
    assert s[0] == '-' && s[1..] == d;
  }

  /** `int('{}'.format(i)) == i`: a rendered int reads back as itself. */
  lemma IntRoundTrip(i: int)
    ensures ParseInt(IntToString(i)) == Ok(i)
  {
    if i < 0 {
      assert IntToString(i) == "-" + NatToString(-i);
      NegativeRoundTrip(-i);
    } else {
      var d := NatToString(i);
      assert IntToString(i) == d;
      DigitsRoundTrip(i);
      DigitsNumeral(d);
      assert IsDigit(d[0]);
    }
  }

  // ---------------------------------------------------------------------------
  // re.fullmatch of alternatives made of letters and '.'
  // ---------------------------------------------------------------------------

  /** `re.fullmatch(pattern, name)` for a pattern with no metacharacter but '.', which matches any character except a line break. */
  predicate FullMatch(name: string, pattern: string) {
    |name| == |pattern| &&
    forall i :: 0 <= i < |name| ==> if pattern[i] == '.' then name[i] != '\n' else name[i] == pattern[i]
  }

  /** `re.fullmatch('p0|p1|...', name)`. */
  predicate FullMatchAny(name: string, patterns: seq<string>) {
    exists i :: 0 <= i < |patterns| && FullMatch(name, patterns[i])
  }
}
