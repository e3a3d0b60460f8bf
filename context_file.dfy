/**
 * The behaviour both generations of `PromptFile` share, as functions from the
 * files and the config dictionary before a call to the files, the config and
 * the outcome after it. The two classes differ in the working file's name, the
 * multi-turn switch's key and tag, and what `read_headers` returns for a file
 * without headers; a `Variant` records those differences.
 */
module ContextFile {
  import opened Outcomes
  import opened Text
  import opened TextLines
  import opened Headers
  import opened Disk

  datatype Variant = Variant(
    path: string,             // the working context file
    contexts: string,         // folder of saved contexts and shell templates, with its '/'
    deleted: string,          // folder that clear() archives to, with its '/'
    layout: seq<Field>,       // the six header lines, in order; line 4 is the multi-turn switch
    defaults: Option<Config>) // what read_headers() returns for a file without headers; None: the current config

  /** The multi-turn switch: its config key and its header tag. */
  function Flag(v: Variant): string
    requires |v.layout| > 4
  {
    v.layout[4].key
  }

  predicate Valid(v: Variant) {
    |v.layout| == 6 && PlainTags(v.layout) &&
    v.layout[0] == Field("engine", "engine", AsStr) &&
    v.layout[4].kind == AsStr && v.layout[4].key != "token_count" &&
    v.layout[5] == Field("token_count", "token_count", AsInt) &&
    !(v.contexts <= v.path) && !(v.deleted <= v.path)
  }

  /** The files and the prompt file's `self.config`. */
  datatype State = State(files: map<string, string>, config: Config)

  /** The state after a call, and what the call returned or raised. */
  datatype Step<T> = Step(state: State, result: Result<T>)

  function Fail<T>(s: State, e: Exc): Step<T> {
    Step(s, Raised(e))
  }

  /** A step's outcome with its value replaced by `x`. */
  function Then<T, U>(st: Step<T>, x: U): Step<U> {
    Step(st.state, if st.result.Ok? then Ok(x) else Raised(st.result.exc))
  }

  /** The marker `has_headers` looks for in the first line. */
  const Marker := "## engine:"

  /** The conversation held after the six header lines, as one text. */
  function Transcript(text: string): string {
    Join(Drop(Lines(text), 6))
  }

  /** What the counting loop of `get_token_count` computes: the words of every line after the headers. */
  function TrueCount(text: string): nat {
    SumWords(Drop(Lines(text), 6))
  }

  /** `int(lines[5].split(':')[1].strip())`: the token count stored in the header block. */
  function StoredCount(lines: seq<string>): Result<int> {
    if |lines| <= 5 then Raised(IndexError)
    else
      var t :- FieldValue(lines[5]);
      ParseInt(t)
  }

  // ---------------------------------------------------------------------------
  // has_headers, read_headers, set_headers
  // ---------------------------------------------------------------------------

  /** `has_headers()`: no file means no headers; an empty file raises `IndexError` (`lines[0]`). */
  function HeadersPresent(files: map<string, string>, path: string): Result<bool> {
    if path !in files then Ok(false)
    else
      var ls := Lines(files[path]);
      if ls == [] then Raised(IndexError) else Ok(Contains(ls[0], Marker))
  }

  /** `read_headers()` */
  function ReadHeadersStep(v: Variant, s: State): Step<Config> {
    match HeadersPresent(s.files, v.path)
    case Raised(e) => Fail(s, e)
    case Ok(headed) =>
      if !headed then
        match v.defaults
        case None => Step(s, Ok(s.config))
        case Some(d) => Step(s.(config := d), Ok(d))
      else
        match ParseHeaders(Lines(s.files[v.path]), v.layout)
        case Raised(e) => Fail(s, e)
        case Ok(c) => Step(s.(config := c), Ok(c))
  }

  /** The lines `set_headers` keeps after the new header block: all of them, or those past the old block. */
  function Body(files: map<string, string>, path: string): seq<string> {
    if path !in files then []
    else if HeadersPresent(files, path) == Ok(true) then Drop(Lines(files[path]), 6)
    else Lines(files[path])
  }

  /**
   * `set_headers(c)`: `self.config = c` first, then the header block
   * (a `KeyError` for a missing key), then `has_headers()` (an `IndexError`
   * for an empty file), and only then the write.
   */
  function SetHeadersStep(v: Variant, s: State, c: Config): Step<()> {
    var s1 := s.(config := c);
    var prior := if v.path in s.files then Lines(s.files[v.path]) else [];
    match HeaderLines(c, v.layout)
    case Raised(e) => Fail(s1, e)
    case Ok(hs) =>
      match HeadersPresent(s.files, v.path)
      case Raised(e) => Fail(s1, e)
      case Ok(headed) =>
        var body := if headed then Drop(prior, 6) else prior;
        Step(s1.(files := s.files[v.path := Join(hs + body)]), Ok(()))
  }

  // ---------------------------------------------------------------------------
  // The conversation
  // ---------------------------------------------------------------------------

  /**
   * `add_input_output_pair(q, r)`: append both texts; in multi-turn mode add
   * their word counts to `config['token_count']` and rewrite the headers.
   */
  function AddPairStep(v: Variant, s: State, q: string, r: string): Step<()>
    requires |v.layout| > 4
  {
    var s1 := s.(files := s.files[v.path := Contents(s.files, v.path) + (q + r)]);
    match Lookup(s.config, Flag(v))
    case Raised(e) => Fail(s1, e)
    case Ok(f) =>
      if f != Str("on") then Step(s1, Ok(()))
      else
        match Lookup(s.config, "token_count")
        case Raised(e) => Fail(s1, e)
        case Ok(n) =>
          if !n.Int? then Fail(s1, TypeError)
          else SetHeadersStep(v, s1, s.config["token_count" := Int(n.i + WordCount(q) + WordCount(r))])
  }

  /** The limit over which `read_prompt_file` drops the oldest two lines. */
  const TokenLimit := 2048

  /**
   * `read_prompt_file(input)`: when the stored count plus the input's words
   * exceeds the limit, rewrite the file without lines 6 and 7; then return
   * everything after the header lines.
   */
  function ReadPromptStep(v: Variant, s: State, input: string): Step<string> {
    match Lookup(s.config, "token_count")
    case Raised(e) => Fail(s, e)
    case Ok(n) =>
      if !n.Int? then Fail(s, TypeError)
      else if n.i + WordCount(input) > TokenLimit && v.path !in s.files then Fail(s, FileNotFound)
      else
        var files :=
          if n.i + WordCount(input) > TokenLimit then
            var ls := Lines(s.files[v.path]);
            s.files[v.path := Join(Take(ls, 6)) + Join(Drop(ls, 8))]
          else s.files;
        if v.path !in files then Fail(s, FileNotFound)
        else Step(s.(files := files), Ok(Join(Drop(Lines(files[v.path]), 6))))
  }

  /**
   * `get_token_count()`: compare the stored count (0 without headers) with the
   * words after the header lines; on a mismatch store the true count in the
   * config and rewrite the headers. Returns the true count.
   */
  function TokenCountStep(v: Variant, s: State): Step<int> {
    match HeadersPresent(s.files, v.path)
    case Raised(e) => Fail(s, e)
    case Ok(headed) =>
      var stored := if headed then StoredCount(Lines(s.files[v.path])) else Ok(0);
      if stored.Raised? then Fail(s, stored.exc)
      else if v.path !in s.files then Fail(s, FileNotFound)
      else
        var n := TrueCount(s.files[v.path]);
        if n == stored.value then Step(s, Ok(n))
        else Then(SetHeadersStep(v, s, s.config["token_count" := Int(n)]), n)
  }

  /** The counting loop of `get_token_count`: `len(line.split())` summed over `lines`. */
  method CountWords(lines: seq<string>) returns (total: nat)
    ensures total == SumWords(lines)
  {
    total := 0;
    var i := 0;
    while i < |lines|
      invariant 0 <= i <= |lines|
      invariant total == SumWords(lines[..i])
    {
      assert lines[..i + 1] == lines[..i] + [lines[i]];
      SumWordsSnoc(lines[..i], lines[i]);
      total := total + WordCount(lines[i]);
      i := i + 1;
    }
    assert lines[..i] == lines;
  }

  // ---------------------------------------------------------------------------
  // Context management
  // ---------------------------------------------------------------------------

  /** Where `clear()` archives the file, for the time stamp `stamp`. */
  function Archive(v: Variant, stamp: string): string {
    v.deleted + stamp + ".txt"
  }

  /**
   * `clear()`: read the headers, copy the file to the archive, empty it, and
   * call `set_headers` with the headers read.
   */
  function ClearStep(v: Variant, s: State, stamp: string): Step<()> {
    var r := ReadHeadersStep(v, s);
    if r.result.Raised? then Fail(r.state, r.result.exc)
    else
      var s1 := r.state;
      if v.path !in s1.files then Fail(s1, FileNotFound)
      else
        var files := s1.files[Archive(v, stamp) := Join(Lines(s1.files[v.path]))][v.path := ""];
        SetHeadersStep(v, s1.(files := files), r.result.value)
  }

  /** `clear_last_interaction()`: drop the last two lines when there are more than one. */
  function ClearLastStep(v: Variant, s: State): Step<()> {
    if v.path !in s.files then Fail(s, FileNotFound)
    else
      var ls := Lines(s.files[v.path]);
      if |ls| > 1 then Step(s.(files := s.files[v.path := Join(ls[..|ls| - 2])]), Ok(()))
      else Step(s, Ok(()))
  }

  /** Where a context named `name` is saved and loaded from. */
  function Saved(v: Variant, name: string): string {
    v.contexts + WithTxt(name)
  }

  /** `save_to(name)`: copy the file's lines into the contexts folder. */
  function SaveToStep(v: Variant, s: State, name: string): Step<()> {
    if v.path !in s.files then Fail(s, FileNotFound)
    else Step(s.(files := s.files[Saved(v, name) := Join(Lines(s.files[v.path]))]), Ok(()))
  }

  /** `config[<switch>] = x` followed by `set_headers(config)`: the on and off commands. */
  function SetFlagStep(v: Variant, s: State, x: string): Step<()>
    requires |v.layout| > 4
  {
    SetHeadersStep(v, s, s.config[Flag(v) := Str(x)])
  }

  /**
   * `lines[k] = '## <tag>: {}\n'.format(config[key])` for each field in turn,
   * from line `k` on: each value is looked up (a `KeyError`) before its line is
   * replaced (an `IndexError` past the end).
   */
  function Restamp(lines: seq<string>, c: Config, fields: seq<Field>, k: nat): Result<seq<string>>
    decreases |fields|
  {
    if fields == [] then Ok(lines)
    else
      var x :- Lookup(c, fields[0].key);
      if k >= |lines| then Raised(IndexError)
      else Restamp(lines[k := HeaderLine(fields[0].tag, x)], c, fields[1..], k + 1)
  }

  /**
   * `default_context()` for the shell template at `template`: copy it with
   * line 4 replaced by the current switch. The result says whether the
   * template was found.
   */
  function DefaultContextStep(v: Variant, s: State, template: string): Step<bool>
    requires |v.layout| > 4
  {
    if template !in s.files then Step(s, Ok(false))
    else
      match Restamp(Lines(s.files[template]), s.config, [v.layout[4]], 4)
      case Raised(e) => Fail(s, e)
      case Ok(ls) => Step(s.(files := s.files[v.path := Join(ls)]), Ok(true))
  }

  // ---------------------------------------------------------------------------
  // Construction
  // ---------------------------------------------------------------------------

  /**
   * The first part of `__init__(fileName, cfg)`: for a saved context other
   * than the working file, take the config from the working file's headers when
   * it exists, and copy the saved context over it unless its switch reads
   * anything but "off". Gives the files and the config the object starts from.
   */
  function ImportStep(v: Variant, files: map<string, string>, fileName: string, cfg: Config): Result<(map<string, string>, Config)> {
    var full := v.contexts + fileName;
    if fileName == v.path || full !in files then Ok((files, cfg))
    else if v.path !in files then Ok((files[v.path := Join(Lines(files[full]))], cfg))
    else
      var texts :- FieldTexts(Lines(files[v.path]), |v.layout|);
      var c :- Convert(texts, v.layout);
      var flag := if |texts| > 4 then texts[4] else "";
      Ok((if flag == "off" then files[v.path := Join(Lines(files[full]))] else files, c))
  }

  /** `if self.has_headers() == False: self.set_headers(self.config)` */
  function EnsureHeadersStep(v: Variant, s: State): Step<()> {
    match HeadersPresent(s.files, v.path)
    case Raised(e) => Fail(s, e)
    case Ok(headed) => if headed then Step(s, Ok(())) else SetHeadersStep(v, s, s.config)
  }

  /** `if config[<switch>] == 'on': self.config['token_count'] = self.get_token_count()` */
  function SyncCountStep(v: Variant, s: State): Step<()>
    requires |v.layout| > 4
  {
    match Lookup(s.config, Flag(v))
    case Raised(e) => Fail(s, e)
    case Ok(f) =>
      if f != Str("on") then Step(s, Ok(()))
      else
        var t := TokenCountStep(v, s);
        match t.result
        case Raised(e) => Fail(t.state, e)
        case Ok(n) => Step(t.state.(config := t.state.config["token_count" := Int(n)]), Ok(()))
  }
}
