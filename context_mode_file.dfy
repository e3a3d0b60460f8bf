/**
 * `PromptFile` of prompt_file.py, the earlier generation: the working file
 * `openai_completion_input.txt` with a `context` switch written as
 * `context_mode`, a fixed default config for a file without headers, the
 * shell template found at call time, and `load_context` restamping the
 * loaded context with the current config.
 */
module ContextModeFile {
  import opened Outcomes
  import opened Text
  import opened TextLines
  import opened Headers
  import opened Disk
  import opened ContextFile
  import opened ContextLaws

  /** The six header lines, in the order `set_headers` writes them. */
  const Layout: seq<Field> := [
    Field("engine", "engine", AsStr),
    Field("temperature", "temperature", AsFloat),
    Field("max_tokens", "max_tokens", AsInt),
    Field("shell", "shell", AsStr),
    Field("context_mode", "context", AsStr),
    Field("token_count", "token_count", AsInt)]

  /** What `read_headers` sets for a file without headers. */
  const Defaults: Config := map[
    "engine" := Str("davinci_codex_msft"),
    "temperature" := Int(0),
    "max_tokens" := Int(300),
    "shell" := Str(""),
    "context" := Str("off"),
    "token_count" := Int(0)]

  const V := Variant("openai_completion_input.txt", "contexts/", "deleted/", Layout, Some(Defaults))

  lemma VValid()
    ensures Valid(V) && Flag(V) == "context"
  {
    assert V.contexts[0] != V.path[0] && V.deleted[0] != V.path[0];
    forall i | 0 <= i < |Layout|
      ensures ':' !in Layout[i].tag && '\n' !in Layout[i].tag
    {
      KnownTagPlain(Layout[i].tag);
    }
  }

  /** `contexts/<shell>_context.txt`, the template `default_context` copies. */
  function TemplatePath(shell: Value): string {
    V.contexts + Render(shell) + "_context.txt"
  }

  /**
   * `__init__(fileName, cfg)`: import a saved context, add headers to a file
   * without them, and in context mode resynchronise the token count.
   */
  function InitStep(files: map<string, string>, fileName: string, cfg: Config): Step<()> {
    VValid();
    match ImportStep(V, files, fileName, cfg)
    case Raised(e) => Fail(State(files, cfg), e)
    case Ok(imported) =>
      var h := EnsureHeadersStep(V, State(imported.0, imported.1));
      if h.result.Raised? then h else SyncCountStep(V, h.state)
  }

  /** `default_context()`: the template for the configured shell (a `KeyError` without one). */
  function ShellDefaultStep(s: State): Step<bool> {
    VValid();
    match Lookup(s.config, "shell")
    case Raised(e) => Fail(s, e)
    case Ok(sh) => DefaultContextStep(V, s, TemplatePath(sh))
  }

  /**
   * `load_context(name)`: the saved context with its first five lines replaced
   * by the current engine, temperature, max_tokens, shell and switch, written
   * over the working file; the result says whether it existed.
   */
  function LoadStep(s: State, name: string): Step<bool> {
    var p := Saved(V, name);
    if p !in s.files then Step(s, Ok(false))
    else
      match Restamp(Lines(s.files[p]), s.config, Layout[..5], 0)
      case Raised(e) => Fail(s, e)
      case Ok(ls) => Step(s.(files := s.files[V.path := Join(ls)]), Ok(true))
  }

  /**
   * `load_context(name)` with every header key set: nothing happens without
   * the saved context; a saved context of fewer than five lines raises
   * `IndexError`; otherwise the working file becomes the saved context with
   * its first five lines replaced by the current header lines, and no other
   * file changes.
   */
  lemma LoadRestamps(s: State, name: string)
    requires HeaderLines(s.config, Layout[..5]).Ok? && NoBreaks(s.config, Layout[..5])
    ensures LoadStep(s, name).state.config == s.config
    ensures Saved(V, name) !in s.files ==> LoadStep(s, name) == Step(s, Ok(false))
    ensures Saved(V, name) in s.files && |Lines(s.files[Saved(V, name)])| < 5 ==>
      LoadStep(s, name) == Fail(s, IndexError)
    ensures Saved(V, name) in s.files && |Lines(s.files[Saved(V, name)])| >= 5 ==>
      var files := LoadStep(s, name).state.files;
      && LoadStep(s, name).result == Ok(true)
      && files == s.files[V.path := files[V.path]]
      && Lines(files[V.path]) == HeaderLines(s.config, Layout[..5]).value + Lines(s.files[Saved(V, name)])[5..]
  {
    var p := Saved(V, name);
    if p in s.files {
      var ls := Lines(s.files[p]);
      if |ls| < 5 {
        RestampShort(ls, s.config, Layout[..5], 0);
      } else {
        var hs := HeaderLines(s.config, Layout[..5]).value;
        VValid();
        assert PlainTags(Layout[..5]);
        RestampSpec(ls, s.config, Layout[..5], 0);
        assert ls[..0] + hs + ls[5..] == hs + ls[5..];
        HeaderBlockLines(s.config, Layout[..5]);
        LinesWellFormed(s.files[p]);
        Suffix(ls, 5);
        assert Drop(ls, 5) == ls[5..];
        Stack(hs, ls[5..]);
        LinesJoin(hs + ls[5..]);
      }
    }
  }

  class PromptFile {
    const disk: FileSystem
    var config: Config

    /** The files and `self.config`, the state the step functions act on. */
    function Now(): State
      reads this, disk
    {
      State(disk.files, config)
    }

    constructor (disk: FileSystem, config: Config)
      ensures this.disk == disk && this.config == config
    {
      this.disk := disk;
      this.config := config;
    }

    /** `PromptFile(fileName, cfg)`: the object, or the exception its constructor raises. */
    static method Open(disk: FileSystem, fileName: string, cfg: Config) returns (r: Result<PromptFile>)
      modifies disk
      ensures var st := InitStep(old(disk.files), fileName, cfg);
        && disk.files == st.state.files
        && (r.Raised? <==> st.result.Raised?)
        && (r.Raised? ==> r.exc == st.result.exc)
        && (r.Ok? ==> fresh(r.value) && r.value.disk == disk && r.value.config == st.state.config)
    {
      VValid();
      var c :- Import(disk, fileName, cfg);
      var p := new PromptFile(disk, c);
      var u :- p.EnsureHeaders();
      u :- p.SyncCount();
      r := Ok(p);
    }

    /** The saved-context import at the start of `__init__`: the config to start from. */
    static method Import(disk: FileSystem, fileName: string, cfg: Config) returns (r: Result<Config>)
      modifies disk
      ensures r.Raised? ==> disk.files == old(disk.files) && ImportStep(V, old(disk.files), fileName, cfg) == Raised(r.exc)
      ensures r.Ok? ==> ImportStep(V, old(disk.files), fileName, cfg) == Ok((disk.files, r.value))
    {
      r := Ok(cfg);
      var full := V.contexts + fileName;
      if fileName != V.path && disk.Exists(full) {
        var flag := "off";
        if disk.Exists(V.path) {
          var read := disk.ReadLines(V.path);
          var texts :- FieldTexts(read.value, 6);
          r := Convert(texts, Layout);
          if r.Raised? {
            return;
          }
          flag := texts[4];
        }
        if flag == "off" {
          var saved := disk.ReadLines(full);
          disk.WriteLines(V.path, saved.value);
        }
      }
    }

    /** `if self.has_headers() == False: self.set_headers(self.config)` */
    method EnsureHeaders() returns (r: Result<()>)
      modifies this, disk
      ensures Step(Now(), r) == EnsureHeadersStep(V, old(Now()))
    {
      var headed :- HasHeaders();
      if headed {
        return Ok(());
      }
      r := SetHeaders(config);
    }

    /** `if config['context'] == 'on': self.config['token_count'] = self.get_token_count()` */
    method SyncCount() returns (r: Result<()>)
      modifies this, disk
      ensures Step(Now(), r) == SyncCountStep(V, old(Now()))
    {
      VValid();
      var f :- Lookup(config, "context");
      if f != Str("on") {
        return Ok(());
      }
      var n :- GetTokenCount();
      config := config["token_count" := Int(n)];
      r := Ok(());
    }

    /** `has_headers()` */
    method HasHeaders() returns (r: Result<bool>)
      ensures r == HeadersPresent(disk.files, V.path)
    {
      if !disk.Exists(V.path) {
        return Ok(false);
      }
      var read := disk.ReadLines(V.path);
      var ls := read.value;
      if |ls| == 0 {
        return Raised(IndexError);
      }
      r := Ok(Contains(ls[0], Marker));
    }

    /** `read_headers()`: the config the header block states, which becomes `self.config`. */
    method ReadHeaders() returns (r: Result<Config>)
      modifies this
      ensures Step(Now(), r) == ReadHeadersStep(V, old(Now()))
    {
      var headed :- HasHeaders();
      if !headed {
        config := Defaults;
        return Ok(config);
      }
      var read := disk.ReadLines(V.path);
      var c :- ParseHeaders(read.value, Layout);
      config := c;
      r := Ok(c);
    }

    /** `set_headers(c)`: a fresh header block in front of the lines past the old one. */
    method SetHeaders(c: Config) returns (r: Result<()>)
      modifies this, disk
      ensures Step(Now(), r) == SetHeadersStep(V, old(Now()), c)
    {
      config := c;
      var prior := [];
      if disk.Exists(V.path) {
        var read := disk.ReadLines(V.path);
        prior := read.value;
      }
      var block :- HeaderLines(c, Layout);
      var headed :- HasHeaders();
      if headed {
        prior := Drop(prior, 6);
      }
      disk.WriteLines(V.path, block + prior);
      r := Ok(());
    }

    /** `add_input_output_pair(q, a)` */
    method AddInputOutputPair(q: string, a: string) returns (r: Result<()>)
      modifies this, disk
      ensures Step(Now(), r) == AddPairStep(V, old(Now()), q, a)
    {
      ghost var s0 := Now();
      ghost var text := Contents(s0.files, V.path);
      disk.Append(V.path, q);
      disk.Append(V.path, a);
      assert text + q + a == text + (q + a);
      ghost var s1 := s0.(files := s0.files[V.path := text + (q + a)]);
      assert Now() == s1;
      var f :- Lookup(config, "context");
      if f != Str("on") {
        return Ok(());
      }
      var n :- Lookup(config, "token_count");
      if !n.Int? {
        return Raised(TypeError);
      }
      var c := config["token_count" := Int(n.i + WordCount(q) + WordCount(a))];
      AddPairOn(V, s0, q, a, n.i + WordCount(q) + WordCount(a));
      r := SetHeaders(c);
    }

    /** `read_prompt_file(input)`: the conversation after the headers, trimmed first when too long. */
    method ReadPromptFile(input: string) returns (r: Result<string>)
      modifies disk
      ensures Step(Now(), r) == ReadPromptStep(V, old(Now()), input)
    {
      var n :- Lookup(config, "token_count");
      if !n.Int? {
        return Raised(TypeError);
      }
      if n.i + WordCount(input) > TokenLimit {
        var ls :- disk.ReadLines(V.path);
        disk.Write(V.path, Join(Take(ls, 6)) + Join(Drop(ls, 8)));
      }
      var ls :- disk.ReadLines(V.path);
      r := Ok(Join(Drop(ls, 6)));
    }

    /** `get_token_count()`: the words after the headers, stored in the headers when they differ. */
    method GetTokenCount() returns (r: Result<int>)
      modifies this, disk
      ensures Step(Now(), r) == TokenCountStep(V, old(Now()))
    {
      var stored := 0;
      var headed :- HasHeaders();
      if headed {
        var read := disk.ReadLines(V.path);
        stored :- StoredCount(read.value);
      }
      var ls :- disk.ReadLines(V.path);
      var total := CountWords(Drop(ls, 6));
      if total != stored {
        var u :- SetHeaders(config["token_count" := Int(total)]);
      }
      r := Ok(total);
    }

    /** `clear()`, with the archive's time stamp given. */
    method Clear(stamp: string) returns (r: Result<()>)
      modifies this, disk
      ensures Step(Now(), r) == ClearStep(V, old(Now()), stamp)
    {
      var c :- ReadHeaders();
      var ls :- disk.ReadLines(V.path);
      disk.WriteLines(Archive(V, stamp), ls);
      disk.Write(V.path, "");
      r := SetHeaders(c);
    }

    /** `clear_last_interaction()`: pop the last line twice. */
    method ClearLastInteraction() returns (r: Result<()>)
      modifies disk
      ensures Step(Now(), r) == ClearLastStep(V, old(Now()))
    {
      var ls :- disk.ReadLines(V.path);
      if |ls| > 1 {
        ghost var all := ls;
        ls := ls[..|ls| - 1];
        ls := ls[..|ls| - 1];
        assert ls == all[..|all| - 2];
        disk.WriteLines(V.path, ls);
      }
      r := Ok(());
    }

    /** `save_to(name)` */
    method SaveTo(name: string) returns (r: Result<()>)
      modifies disk
      ensures Step(Now(), r) == SaveToStep(V, old(Now()), name)
    {
      var ls :- disk.ReadLines(V.path);
      disk.WriteLines(Saved(V, name), ls);
      r := Ok(());
    }

    /** `turn_on_context()` */
    method TurnOnContext() returns (r: Result<()>)
      modifies this, disk
      ensures Step(Now(), r) == SetFlagStep(V, old(Now()), "on")
    {
      VValid();
      r := SetHeaders(config["context" := Str("on")]);
    }

    /** `turn_off_context()` */
    method TurnOffContext() returns (r: Result<()>)
      modifies this, disk
      ensures Step(Now(), r) == SetFlagStep(V, old(Now()), "off")
    {
      VValid();
      r := SetHeaders(config["context" := Str("off")]);
    }

    /** `default_context()`: start over from the shell's template, keeping the switch. */
    method DefaultContext() returns (r: Result<bool>)
      modifies disk
      ensures Step(Now(), r) == ShellDefaultStep(old(Now()))
    {
      VValid();
      var sh :- Lookup(config, "shell");
      var template := TemplatePath(sh);
      if !disk.Exists(template) {
        return Ok(false);
      }
      var read := disk.ReadLines(template);
      var ls := read.value;
      var f :- Lookup(config, "context");
      if |ls| <= 4 {
        return Raised(IndexError);
      }
      ghost var lines := ls;
      ls := ls[4 := HeaderLine("context_mode", f)];
      assert Restamp(lines, config, [V.layout[4]], 4) == Restamp(ls, config, [], 5);
      disk.WriteLines(V.path, ls);
      r := Ok(true);
    }

    /** `load_context(name)` */
    method LoadContext(name: string) returns (r: Result<bool>)
      modifies disk
      ensures Step(Now(), r) == LoadStep(old(Now()), name)
    {
      var p := Saved(V, name);
      if !disk.Exists(p) {
        return Ok(false);
      }
      var read := disk.ReadLines(p);
      var ls :- Restamped(read.value);
      disk.WriteLines(V.path, ls);
      r := Ok(true);
    }

    /** The five assignments of `load_context` to `lines[0]` .. `lines[4]`, each looking its value up first. */
    method Restamped(lines: seq<string>) returns (r: Result<seq<string>>)
      ensures r == Restamp(lines, config, Layout[..5], 0)
    {
      ghost var fields := Layout[..5];
      var ls := lines;
      var engine :- Lookup(config, "engine");
      if |ls| <= 0 {
        return Raised(IndexError);
      }
      ls := ls[0 := HeaderLine("engine", engine)];
      assert Restamp(lines, config, fields, 0) == Restamp(ls, config, fields[1..], 1);
      var temperature :- Lookup(config, "temperature");
      if |ls| <= 1 {
        return Raised(IndexError);
      }
      ls := ls[1 := HeaderLine("temperature", temperature)];
      assert Restamp(lines, config, fields, 0) == Restamp(ls, config, fields[2..], 2);
      var maxTokens :- Lookup(config, "max_tokens");
      if |ls| <= 2 {
        return Raised(IndexError);
      }
      ls := ls[2 := HeaderLine("max_tokens", maxTokens)];
      assert Restamp(lines, config, fields, 0) == Restamp(ls, config, fields[3..], 3);
      var shell :- Lookup(config, "shell");
      if |ls| <= 3 {
        return Raised(IndexError);
      }
      ls := ls[3 := HeaderLine("shell", shell)];
      assert Restamp(lines, config, fields, 0) == Restamp(ls, config, fields[4..], 4);
      var context :- Lookup(config, "context");
      if |ls| <= 4 {
        return Raised(IndexError);
      }
      ls := ls[4 := HeaderLine("context_mode", context)];
      assert Restamp(lines, config, fields, 0) == Restamp(ls, config, fields[5..], 5);
      r := Ok(ls);
    }
  }
}
