/**
 * The `## key: value` header block of a context file: the config dictionary,
 * how `'## engine: {}\n'.format(config['engine'])` and its siblings render it,
 * and how `lines[i].split(':')[1].strip()` reads it back by line position.
 */
module Headers {
  import opened Outcomes
  import opened Text
  import opened TextLines

  /** A value of the Python config dictionary. A float is kept as its text. */
  datatype Value = Str(s: string) | Int(i: int) | Float(text: string)

  /** The Python config dictionary. */
  type Config = map<string, Value>

  /** `'{}'.format(v)` */
  function Render(v: Value): string {
    match v
    case Str(s) => s
    case Int(i) => IntToString(i)
    case Float(t) => t
  }

  /** `config[key]` */
  function Lookup(c: Config, key: string): (r: Result<Value>)
    ensures r.Ok? <==> key in c
    ensures r.Ok? ==> r.value == c[key]
    ensures r.Raised? ==> r.exc == KeyError(key)
  {
    if key in c then Ok(c[key]) else Raised(KeyError(key))
  }

  /** How a header value is converted when read back: `strip()` alone, `float(...)` or `int(...)`. */
  datatype Kind = AsStr | AsFloat | AsInt

  /** One header line: the tag written in the file, the config key it holds, the conversion on reading. */
  datatype Field = Field(tag: string, key: string, kind: Kind)

  /** `'## <tag>: {}\n'.format(v)` */
  function HeaderLine(tag: string, v: Value): string {
    "## " + tag + ": " + Render(v) + "\n"
  }

  /**
   * The header block written for config `c`, one line per field in order;
   * a `KeyError` for the first field whose key `c` lacks.
   */
  function HeaderLines(c: Config, layout: seq<Field>): (r: Result<seq<string>>)
    ensures r.Ok? ==> |r.value| == |layout|
  {
    if layout == [] then Ok([])
    else
      var v :- Lookup(c, layout[0].key);
      var rest :- HeaderLines(c, layout[1..]);
      Ok([HeaderLine(layout[0].tag, v)] + rest)
  }

  /**
   * `lines[i].split(':')[1].strip()` for the first `n` lines: an `IndexError`
   * for a file shorter than `n` lines or a line without ':'.
   */
  function FieldTexts(lines: seq<string>, n: nat): (r: Result<seq<string>>)
    ensures r.Ok? ==> |r.value| == n && n <= |lines|
    ensures r.Raised? ==> r.exc == IndexError
  {
    if n == 0 then Ok([])
    else if lines == [] then Raised(IndexError)
    else
      var t :- FieldValue(lines[0]);
      var rest :- FieldTexts(lines[1..], n - 1);
      Ok([t] + rest)
  }

  function ConvertValue(t: string, k: Kind): Result<Value> {
    match k
    case AsStr => Ok(Str(t))
    case AsFloat => Ok(Float(t))
    case AsInt => var i :- ParseInt(t); Ok(Int(i))
  }

  /** The dictionary literal `{'engine': engine, 'temperature': float(temperature), ...}`, built left to right. */
  function Convert(texts: seq<string>, layout: seq<Field>): Result<Config>
    requires |texts| == |layout|
  {
    if layout == [] then Ok(map[])
    else
      var v :- ConvertValue(texts[0], layout[0].kind);
      var rest :- Convert(texts[1..], layout[1..]);
      Ok(map[layout[0].key := v] + rest)
  }

  /** `read_headers` on a file whose first line holds the engine: the header lines read by position. */
  function ParseHeaders(lines: seq<string>, layout: seq<Field>): (r: Result<Config>)
    ensures r.Ok? ==> |layout| <= |lines|
  {
    var texts :- FieldTexts(lines, |layout|);
    Convert(texts, layout)
  }

  /** The part of `c` that the header block holds. */
  function Project(c: Config, layout: seq<Field>): Config
    requires forall i :: 0 <= i < |layout| ==> layout[i].key in c
  {
    if layout == [] then map[] else map[layout[0].key := c[layout[0].key]] + Project(c, layout[1..])
  }

  function KeysOf(layout: seq<Field>): set<string> {
    set i | 0 <= i < |layout| :: layout[i].key
  }

  /** A value that reads back as itself through its field's conversion. */
  predicate Fits(v: Value, k: Kind) {
    match k
    case AsStr => v.Str? && Clean(v.s)
    case AsFloat => v.Float? && Clean(v.text)
    case AsInt => v.Int?
  }

  /** Every header key is present, with a value that survives the text round trip. */
  predicate Conforms(c: Config, layout: seq<Field>) {
    forall i :: 0 <= i < |layout| ==> layout[i].key in c && Fits(c[layout[i].key], layout[i].kind)
  }

  /** No header tag contains ':' or a line break. */
  predicate PlainTags(layout: seq<Field>) {
    forall i :: 0 <= i < |layout| ==> ':' !in layout[i].tag && '\n' !in layout[i].tag
  }

  /** The tags of both header layouts contain neither ':' nor a line break. */
  lemma KnownTagPlain(t: string)
    requires t == "engine" || t == "temperature" || t == "max_tokens" || t == "shell" ||
             t == "multi_turn" || t == "context_mode" || t == "token_count"
    ensures ':' !in t && '\n' !in t
  {
  }

  /** No header value of `c` contains a line break, so every header stays on its own line. */
  predicate NoBreaks(c: Config, layout: seq<Field>) {
    forall i :: 0 <= i < |layout| ==> layout[i].key in c ==> '\n' !in Render(c[layout[i].key])
  }

  // ---------------------------------------------------------------------------
  // Lemmas
  // ---------------------------------------------------------------------------

  /**
   * The header block holds one rendered line per field, in order, exactly when
   * every key is present; otherwise the `KeyError` names the first missing key.
   */
  lemma {:induction false} HeaderLinesSpec(c: Config, layout: seq<Field>)
    ensures HeaderLines(c, layout).Ok? <==> forall i :: 0 <= i < |layout| ==> layout[i].key in c
    ensures HeaderLines(c, layout).Ok? ==>
      forall i :: 0 <= i < |layout| ==> HeaderLines(c, layout).value[i] == HeaderLine(layout[i].tag, c[layout[i].key])
    ensures HeaderLines(c, layout).Raised? ==>
      exists j :: 0 <= j < |layout| && layout[j].key !in c && HeaderLines(c, layout).exc == KeyError(layout[j].key) &&
                  (forall i :: 0 <= i < j ==> layout[i].key in c)
  {
    if layout != [] {
      HeaderLinesSpec(c, layout[1..]);
      assert forall i :: 1 <= i < |layout| ==> layout[i] == layout[1..][i - 1];
      if layout[0].key in c && HeaderLines(c, layout[1..]).Raised? {
        var j :| 0 <= j < |layout[1..]| && layout[1..][j].key !in c && HeaderLines(c, layout[1..]).exc == KeyError(layout[1..][j].key) &&
                 (forall i :: 0 <= i < j ==> layout[1..][i].key in c);
        assert layout[j + 1].key !in c && forall i :: 0 <= i < j + 1 ==> layout[i].key in c;
      }
    }
  }

  /** The field texts of the first `n` lines, exactly when there are `n` lines and each has a ':'. */
  lemma {:induction false} FieldTextsSpec(lines: seq<string>, n: nat)
    ensures FieldTexts(lines, n).Ok? <==> n <= |lines| && forall i :: 0 <= i < n ==> FieldValue(lines[i]).Ok?
    ensures FieldTexts(lines, n).Ok? ==> forall i :: 0 <= i < n ==> FieldTexts(lines, n).value[i] == FieldValue(lines[i]).value
  {
    if n > 0 && lines != [] {
      FieldTextsSpec(lines[1..], n - 1);
      assert forall i :: 1 <= i < n && i < |lines| ==> lines[i] == lines[1..][i - 1];
    }
  }

  /** Setting a key that is already there, or a new one, never makes the header block fail. */
  lemma {:induction false} HeaderLinesUpdate(c: Config, layout: seq<Field>, k: string, x: Value)
    requires HeaderLines(c, layout).Ok?
    ensures HeaderLines(c[k := x], layout).Ok?
  {
    if layout != [] {
      HeaderLinesUpdate(c, layout[1..], k, x);
    }
  }

  lemma HeaderLineIsLine(tag: string, v: Value)
    requires '\n' !in tag && '\n' !in Render(v)
    ensures IsLine(HeaderLine(tag, v)) && Terminated(HeaderLine(tag, v))
  {
    var p := "## " + tag + ": " + Render(v);
    assert HeaderLine(tag, v) == p + "\n";
    assert '\n' !in p;
    forall j | 0 <= j < |p| ensures p[j] != '\n' {
      assert p[j] in p;
    }
  }

  /** The rendered header block is made of terminated lines, so nothing after it can merge into it. */
  lemma HeaderBlockLines(c: Config, layout: seq<Field>)
    requires PlainTags(layout) && NoBreaks(c, layout) && HeaderLines(c, layout).Ok?
    ensures forall i :: 0 <= i < |layout| ==> IsLine(HeaderLines(c, layout).value[i]) && Terminated(HeaderLines(c, layout).value[i])
  {
    var hs := HeaderLines(c, layout).value;
    HeaderLinesSpec(c, layout);
    forall i | 0 <= i < |layout| ensures IsLine(hs[i]) && Terminated(hs[i]) {
      HeaderLineIsLine(layout[i].tag, c[layout[i].key]);
    }
  }

  /** The header block followed by a well-formed body reads back as those header lines, then the body. */
  lemma HeadedLines(c: Config, layout: seq<Field>, body: seq<string>)
    requires PlainTags(layout) && NoBreaks(c, layout) && HeaderLines(c, layout).Ok? && WellFormed(body)
    ensures Lines(Join(HeaderLines(c, layout).value + body)) == HeaderLines(c, layout).value + body
  {
    HeaderBlockLines(c, layout);
    Stack(HeaderLines(c, layout).value, body);
    LinesJoin(HeaderLines(c, layout).value + body);
  }

  lemma FitsClean(v: Value, k: Kind)
    requires Fits(v, k)
    ensures Clean(Render(v)) && ConvertValue(Render(v), k) == Ok(v)
  {
    if k == AsInt {
      IntRoundTrip(v.i);
    }
  }

  lemma {:induction false} ConvertRendered(c: Config, layout: seq<Field>, texts: seq<string>)
    requires Conforms(c, layout) && |texts| == |layout|
    requires forall i :: 0 <= i < |layout| ==> texts[i] == Render(c[layout[i].key])
    ensures Convert(texts, layout) == Ok(Project(c, layout))
  {
    if layout != [] {
      FitsClean(c[layout[0].key], layout[0].kind);
      assert Conforms(c, layout[1..]) by {
        forall i | 0 <= i < |layout[1..]| ensures layout[1..][i].key in c && Fits(c[layout[1..][i].key], layout[1..][i].kind) {
          assert layout[1..][i] == layout[i + 1];
        }
      }
      forall i | 0 <= i < |layout[1..]| ensures texts[1..][i] == Render(c[layout[1..][i].key]) {
        assert layout[1..][i] == layout[i + 1];
      }
      ConvertRendered(c, layout[1..], texts[1..]);
    }
  }

  /** Header round trip: reading back the block `set_headers` writes gives the config's header fields. */
  lemma HeadersRoundTrip(c: Config, layout: seq<Field>, rest: seq<string>)
    requires PlainTags(layout) && Conforms(c, layout)
    ensures HeaderLines(c, layout).Ok?
    ensures ParseHeaders(HeaderLines(c, layout).value + rest, layout) == Ok(Project(c, layout))
  {
    HeaderLinesSpec(c, layout);
    var hs := HeaderLines(c, layout).value;
    var lines := hs + rest;
    var n := |layout|;
    forall i | 0 <= i < n ensures FieldValue(lines[i]) == Ok(Render(c[layout[i].key])) {
      assert lines[i] == HeaderLine(layout[i].tag, c[layout[i].key]);
      FitsClean(c[layout[i].key], layout[i].kind);
      FieldOfHeader(layout[i].tag, Render(c[layout[i].key]));
    }
    FieldTextsSpec(lines, n);
    var texts := FieldTexts(lines, n).value;
    ConvertRendered(c, layout, texts);
  }

  lemma {:induction false} ProjectKeys(c: Config, layout: seq<Field>)
    requires forall i :: 0 <= i < |layout| ==> layout[i].key in c
    ensures Project(c, layout).Keys == KeysOf(layout)
    ensures forall k :: k in Project(c, layout) ==> Project(c, layout)[k] == c[k]
  {
    if layout != [] {
      ProjectKeys(c, layout[1..]);
      KeysOfCons(layout);
    }
  }

  lemma KeysOfCons(layout: seq<Field>)
    requires layout != []
    ensures KeysOf(layout) == {layout[0].key} + KeysOf(layout[1..])
  {
    forall k | k in KeysOf(layout) ensures k in {layout[0].key} + KeysOf(layout[1..]) {
      var i :| 0 <= i < |layout| && layout[i].key == k;
      if i > 0 {
        assert layout[1..][i - 1].key == k;
      }
    }
    forall k | k in KeysOf(layout[1..]) ensures k in KeysOf(layout) {
      var i :| 0 <= i < |layout[1..]| && layout[1..][i].key == k;
      assert layout[i + 1].key == k;
    }
  }

  /** The dictionary `read_headers` builds has exactly the header keys, whatever the file says. */
  lemma {:induction false} ConvertKeys(texts: seq<string>, layout: seq<Field>)
    requires |texts| == |layout|
    ensures Convert(texts, layout).Ok? ==> Convert(texts, layout).value.Keys == KeysOf(layout)
  {
    if layout != [] {
      ConvertKeys(texts[1..], layout[1..]);
      KeysOfCons(layout);
    }
  }

  /** A config holding exactly the header keys reads back whole. */
  lemma ProjectWhole(c: Config, layout: seq<Field>)
    requires forall i :: 0 <= i < |layout| ==> layout[i].key in c
    requires c.Keys == KeysOf(layout)
    ensures Project(c, layout) == c
  {
    ProjectKeys(c, layout);
  }
}
