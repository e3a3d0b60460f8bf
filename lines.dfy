/**
 * A file's text and its lines: `f.readlines()` as `Lines`, `f.writelines(ls)`
 * and `''.join(ls)` as `Join`, Python's clamped slices `ls[:n]` and `ls[n:]`
 * as `Take` and `Drop`, and the per-line word sum of the token-count loops.
 */
module TextLines {
  import opened Text

  /** Length of the first line of `s`, its '\n' included. */
  function LineLength(s: string): (k: nat)
    requires s != []
    ensures 1 <= k <= |s|
    decreases |s|
  {
    if s[0] == '\n' || |s| == 1 then 1 else 1 + LineLength(s[1..])
  }

  /** The first line stops at the first '\n', or at the end of the text. */
  lemma {:induction false} LineLengthSpec(s: string)
    requires s != []
    ensures '\n' !in s[..LineLength(s) - 1]
    ensures s[LineLength(s) - 1] == '\n' || LineLength(s) == |s|
    decreases |s|
  {
    if !(s[0] == '\n' || |s| == 1) {
      LineLengthSpec(s[1..]);
      assert s[..LineLength(s) - 1] == [s[0]] + s[1..][..LineLength(s[1..]) - 1];
    }
  }

  /** `readlines()`: the lines of `s`, each keeping its '\n'; only the last may lack one. */
  function Lines(s: string): (ls: seq<string>)
    ensures ls == [] <==> s == []
    decreases |s|
  {
    if s == [] then [] else var k := LineLength(s); [s[..k]] + Lines(s[k..])
  }

  /** `''.join(ls)`, which is also what `writelines(ls)` stores. */
  function Join(ls: seq<string>): string {
    if ls == [] then "" else ls[0] + Join(ls[1..])
  }

  /** `ls[:n]` */
  function Take<T>(ls: seq<T>, n: nat): (r: seq<T>)
    ensures |r| == if n <= |ls| then n else |ls|
  {
    if n <= |ls| then ls[..n] else ls
  }

  /** `ls[n:]` */
  function Drop<T>(ls: seq<T>, n: nat): (r: seq<T>)
    ensures |r| == if n <= |ls| then |ls| - n else 0
  {
    if n <= |ls| then ls[n..] else []
  }

  /** One line as `readlines` produces it: not empty, no '\n' but possibly the last character. */
  predicate IsLine(l: string) {
    l != [] && '\n' !in l[..|l| - 1]
  }

  predicate Terminated(l: string) {
    l != [] && l[|l| - 1] == '\n'
  }

  /** A line list that `readlines` can give back after `writelines`. */
  predicate WellFormed(ls: seq<string>) {
    (forall i :: 0 <= i < |ls| ==> IsLine(ls[i])) &&
    (forall i :: 0 <= i < |ls| - 1 ==> Terminated(ls[i]))
  }

  /** The word count of every line, summed (`for line in ls: n += len(line.split())`). */
  function SumWords(ls: seq<string>): nat {
    if ls == [] then 0 else WordCount(ls[0]) + SumWords(ls[1..])
  }

  // ---------------------------------------------------------------------------
  // readlines / writelines
  // ---------------------------------------------------------------------------

  lemma {:induction false} LineLengthOf(a: string, b: string)
    requires IsLine(a) && (Terminated(a) || b == [])
    ensures LineLength(a + b) == |a|
    decreases |a|
  {
    if |a| == 1 {
      if !Terminated(a) {
        assert a + b == a;
      }
    } else {
      assert (a + b)[0] == a[0] != '\n';
      assert (a + b)[1..] == a[1..] + b;
      LineLengthOf(a[1..], b);
    }
  }

  /** A line in front of a text is the first line read back. */
  lemma LinesCons(a: string, b: string)
    requires IsLine(a) && (Terminated(a) || b == [])
    ensures Lines(a + b) == [a] + Lines(b)
  {
    LineLengthOf(a, b);
    assert (a + b)[..|a|] == a;
    assert (a + b)[|a|..] == b;
  }

  /** Writing back the lines read loses nothing: `writelines(readlines())` is the identity. */
  lemma {:induction false} JoinLines(s: string)
    ensures Join(Lines(s)) == s
    decreases |s|
  {
    if s != [] {
      var k := LineLength(s);
      var ls := Lines(s);
      JoinLines(s[k..]);
      assert ls == [s[..k]] + Lines(s[k..]);
      assert ls[0] == s[..k] && ls[1..] == Lines(s[k..]);
      calc {
        Join(ls);
        s[..k] + Join(Lines(s[k..]));
        s[..k] + s[k..];
        { assert s == s[..k] + s[k..]; }
        s;
      }
    }
  }

  /** What `readlines` returns is well formed. */
  lemma {:induction false} LinesWellFormed(s: string)
    ensures WellFormed(Lines(s))
    decreases |s|
  {
    if s != [] {
      var k := LineLength(s);
      LineLengthSpec(s);
      LinesWellFormed(s[k..]);
      var ls := Lines(s);
      assert ls == [s[..k]] + Lines(s[k..]);
      assert IsLine(s[..k]);
      if |ls| > 1 {
        assert s[k..] != [];
        assert Terminated(s[..k]);
      }
      forall i | 0 <= i < |ls| ensures IsLine(ls[i]) {
        if i > 0 {
          assert ls[i] == Lines(s[k..])[i - 1];
        }
      }
      forall i | 0 <= i < |ls| - 1 ensures Terminated(ls[i]) {
        if i > 0 {
          assert ls[i] == Lines(s[k..])[i - 1];
        }
      }
    }
  }

  /** Reading back what `writelines` stored gives the same lines, for a well-formed list. */
  lemma {:induction false} LinesJoin(ls: seq<string>)
    requires WellFormed(ls)
    ensures Lines(Join(ls)) == ls
  {
    if ls != [] {
      var rest := ls[1..];
      assert WellFormed(rest) by {
        forall i | 0 <= i < |rest| ensures IsLine(rest[i]) {
          assert rest[i] == ls[i + 1];
        }
        forall i | 0 <= i < |rest| - 1 ensures Terminated(rest[i]) {
          assert rest[i] == ls[i + 1];
        }
      }
      if rest != [] {
        assert Terminated(ls[0]);
      }
      LinesCons(ls[0], Join(rest));
      LinesJoin(rest);
    }
  }

  lemma {:induction false} JoinAppend(a: seq<string>, b: seq<string>)
    ensures Join(a + b) == Join(a) + Join(b)
  {
    if a == [] {
      assert a + b == b;
    } else {
      assert (a + b)[1..] == a[1..] + b;
      JoinAppend(a[1..], b);
    }
  }

  /** Every line of a text that ends with a line break ends with one. */
  lemma {:induction false} LinesTerminated(x: string)
    requires x == [] || Terminated(x)
    ensures forall i :: 0 <= i < |Lines(x)| ==> Terminated(Lines(x)[i])
    decreases |x|
  {
    if x != [] {
      var k := LineLength(x);
      LineLengthSpec(x);
      var rest := x[k..];
      assert Lines(x) == [x[..k]] + Lines(rest);
      if k < |x| {
        assert rest[|rest| - 1] == x[|x| - 1];
      }
      LinesTerminated(rest);
      forall i | 0 <= i < |Lines(x)| ensures Terminated(Lines(x)[i]) {
        if i == 0 {
          if k < |x| {
            assert x[..k][k - 1] == x[k - 1];
          } else {
            assert x[..k] == x;
          }
        } else {
          assert Lines(x)[i] == Lines(rest)[i - 1];
        }
      }
    }
  }

  /** Lines each of which ends with its only line break. */
  predicate Closed(ls: seq<string>) {
    forall i :: 0 <= i < |ls| ==> IsLine(ls[i]) && Terminated(ls[i])
  }

  lemma ClosedTail(ls: seq<string>)
    requires Closed(ls) && ls != []
    ensures Closed(ls[1..]) && IsLine(ls[0]) && Terminated(ls[0])
  {
    forall i | 0 <= i < |ls[1..]| ensures IsLine(ls[1..][i]) && Terminated(ls[1..][i]) {
      assert ls[1..][i] == ls[i + 1];
    }
  }

  /** Terminated lines in front of a text are read back first, then the text's own lines. */
  lemma {:induction false} JoinedLinesAppend(ls: seq<string>, y: string)
    requires Closed(ls)
    ensures Lines(Join(ls) + y) == ls + Lines(y)
  {
    if ls == [] {
      assert Join(ls) + y == y;
    } else {
      var rest := ls[1..];
      ClosedTail(ls);
      var t := Join(rest) + y;
      calc {
        Lines(Join(ls) + y);
        { assert Join(ls) + y == ls[0] + t; }
        Lines(ls[0] + t);
        { LinesCons(ls[0], t); }
        [ls[0]] + Lines(t);
        { JoinedLinesAppend(rest, y); }
        [ls[0]] + (rest + Lines(y));
        { assert ls == [ls[0]] + rest; }
        ls + Lines(y);
      }
    }
  }

  /** Appending to a text that ends with a line break adds the appended text's lines at the end. */
  lemma LinesAppend(x: string, y: string)
    requires x == [] || Terminated(x)
    ensures Lines(x + y) == Lines(x) + Lines(y)
  {
    LinesWellFormed(x);
    LinesTerminated(x);
    assert Closed(Lines(x));
    JoinLines(x);
    JoinedLinesAppend(Lines(x), y);
  }

  // ---------------------------------------------------------------------------
  // Well-formedness of the line lists the program writes
  // ---------------------------------------------------------------------------

  /** `lines[:a] + lines[b:]` keeps a well-formed list well formed. */
  lemma Splice(ls: seq<string>, a: nat, b: nat)
    requires WellFormed(ls) && a <= b
    ensures WellFormed(Take(ls, a) + Drop(ls, b))
  {
    var r := Take(ls, a) + Drop(ls, b);
    var t := Take(ls, a);
    forall i | 0 <= i < |r| ensures IsLine(r[i]) {
      if i < |t| {
        assert r[i] == ls[i];
      } else {
        assert r[i] == ls[b + (i - |t|)];
      }
    }
    forall i | 0 <= i < |r| - 1 ensures Terminated(r[i]) {
      if i < |t| {
        assert r[i] == ls[i];
      } else {
        assert r[i] == ls[b + (i - |t|)];
      }
    }
  }

  lemma Prefix(ls: seq<string>, n: nat)
    requires WellFormed(ls) && n <= |ls|
    ensures WellFormed(ls[..n])
  {
    assert ls[..n] == Take(ls, n) + Drop(ls, |ls|);
    Splice(ls, n, |ls|);
  }

  lemma Suffix(ls: seq<string>, n: nat)
    requires WellFormed(ls)
    ensures WellFormed(Drop(ls, n))
  {
    assert Drop(ls, n) == Take(ls, 0) + Drop(ls, n);
    Splice(ls, 0, n);
  }

  /** Terminated lines in front of a well-formed list keep it well formed. */
  lemma Stack(hs: seq<string>, body: seq<string>)
    requires forall i :: 0 <= i < |hs| ==> IsLine(hs[i]) && Terminated(hs[i])
    requires WellFormed(body)
    ensures WellFormed(hs + body)
  {
    var r := hs + body;
    forall i | 0 <= i < |r| ensures IsLine(r[i]) {
      if i >= |hs| {
        assert r[i] == body[i - |hs|];
      }
    }
    forall i | 0 <= i < |r| - 1 ensures Terminated(r[i]) {
      if i >= |hs| {
        assert r[i] == body[i - |hs|];
      }
    }
  }

  /** Replacing one line by a terminated line keeps the list well formed. */
  lemma Replace(ls: seq<string>, i: nat, l: string)
    requires WellFormed(ls) && i < |ls| && IsLine(l) && Terminated(l)
    ensures WellFormed(ls[i := l])
  {
  }

  // ---------------------------------------------------------------------------
  // Token counts over lines
  // ---------------------------------------------------------------------------

  lemma {:induction false} SumWordsSnoc(ls: seq<string>, l: string)
    ensures SumWords(ls + [l]) == SumWords(ls) + WordCount(l)
  {
    if ls == [] {
      assert [] + [l] == [l];
      assert [l][1..] == [];
    } else {
      assert (ls + [l])[1..] == ls[1..] + [l];
      SumWordsSnoc(ls[1..], l);
    }
  }

  lemma {:induction false} SumWordsAppend(a: seq<string>, b: seq<string>)
    ensures SumWords(a + b) == SumWords(a) + SumWords(b)
  {
    if a == [] {
      assert a + b == b;
    } else {
      assert (a + b)[1..] == a[1..] + b;
      SumWordsAppend(a[1..], b);
    }
  }

  /** Counting words line by line gives the word count of the whole text. */
  lemma {:induction false} SumWordsJoin(ls: seq<string>)
    requires WellFormed(ls)
    ensures SumWords(ls) == WordCount(Join(ls))
  {
    if ls != [] {
      var rest := ls[1..];
      assert WellFormed(rest) by {
        forall i | 0 <= i < |rest| ensures IsLine(rest[i]) {
          assert rest[i] == ls[i + 1];
        }
        forall i | 0 <= i < |rest| - 1 ensures Terminated(rest[i]) {
          assert rest[i] == ls[i + 1];
        }
      }
      SumWordsJoin(rest);
      if rest == [] {
        assert Join(ls) == ls[0] + "";
        assert ls[0] + "" == ls[0];
      } else {
        assert Terminated(ls[0]);
        WordCountAppend(ls[0], Join(rest));
      }
    }
  }

  /** The word count of a text is the sum over its lines. */
  lemma TextWords(s: string)
    ensures SumWords(Lines(s)) == WordCount(s)
  {
    LinesWellFormed(s);
    SumWordsJoin(Lines(s));
    JoinLines(s);
  }
}
