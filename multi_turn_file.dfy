/**
 * `PromptFile` of src/prompt_file.py: the working file `current_context.txt`
 * with a `multi_turn` switch, a shell template path fixed at construction,
 * and `load_context` copying a saved context verbatim.
 */
module MultiTurnFile {
  import opened Outcomes
  import opened Text
  import opened TextLines
  import opened Headers
  import opened Disk
  import opened ContextFile
  import opened ContextLaws

  /** The six header lines, in the order `set_headers` writes them. */
  const Layout: seq<Field> := [
    Field("engine", "engine", AsStr),
    Field("temperature", "temperature", AsFloat),
    Field("max_tokens", "max_tokens", AsInt),
    Field("shell", "shell", AsStr),
    Field("multi_turn", "multi_turn", AsStr),
    Field("token_count", "token_count", AsInt)]

  const V := Variant("current_context.txt", "contexts/", "deleted/", Layout, None)

  lemma VValid()
    ensures Valid(V) && Flag(V) == "multi_turn"
  {
    assert V.contexts[1] != V.path[1] && V.deleted[0] != V.path[0];
    forall i | 0 <= i < |Layout|
      ensures ':' !in Layout[i].tag && '\n' !in Layout[i].tag
    {
      KnownTagPlain(Layout[i].tag);
    }
  }

  /** `contexts/<shell>-context.txt`, the template `default_context` copies. */
  function TemplatePath(shell: Value): string {
    V.contexts + Render(shell) + "-context.txt"
  }

  /**
   * `__init__(fileName, cfg)`: import a saved context, fix the template path
   * from the shell (a `KeyError` without one), add headers to a file without
   * them, and in multi-turn mode resynchronise the token count. The result is
   * the template path the object keeps.
   */
  function InitStep(files: map<string, string>, fileName: string, cfg: Config): Step<string> {
    VValid();
    match ImportStep(V, files, fileName, cfg)
    case Raised(e) => Fail(State(files, cfg), e)
    case Ok(imported) =>
      var s := State(imported.0, imported.1);
      match Lookup(s.config, "shell")
      case Raised(e) => Fail(s, e)
      case Ok(sh) =>
        var h := EnsureHeadersStep(V, s);
        if h.result.Raised? then Fail(h.state, h.result.exc)
        else Then(SyncCountStep(V, h.state), TemplatePath(sh))
  }

  /**
   * `load_context(name)`: copy the saved context over the working file; the
   * result says whether it existed.
   */
  function LoadStep(s: State, name: string): Step<bool> {
    var p := Saved(V, name);
    if p !in s.files then Step(s, Ok(false))
    else Step(s.(files := s.files[V.path := Join(Lines(s.files[p]))]), Ok(true))
  }

  /** A loaded context replaces the working file exactly, and nothing else changes. */
  lemma LoadCopies(s: State, name: string)
    ensures var st := LoadStep(s, name);
      && st.state.config == s.config
      && (st.result == Ok(true) <==> Saved(V, name) in s.files)
      && st.result.Ok?
      && (Saved(V, name) in s.files ==> st.state.files == s.files[V.path := s.files[Saved(V, name)]])
      && (Saved(V, name) !in s.files ==> st.state.files == s.files)
  {
    if Saved(V, name) in s.files {
      JoinLines(s.files[Saved(V, name)]);
    }
  }

  /** Loading twice in a row leaves what loading once leaves. */
  lemma LoadIdempotent(s: State, name: string)
    ensures LoadStep(LoadStep(s, name).state, name) == LoadStep(s, name)
  {
    var p := Saved(V, name);
    if p in s.files {
      assert p != V.path by {
        assert p[1] != V.path[1];
      }
      JoinLines(s.files[p]);
    }
  }

  class PromptFile {
    const disk: FileSystem
    var config: Config
    const defaultContextPath: string

    /** The files and `self.config`, the state the step functions act on. */
    function Now(): State
      reads this, disk
    {
      State(disk.files, config)
    }

    constructor (disk: FileSystem, config: Config, templatePath: string)
      ensures this.disk == disk && this.config == config && defaultContextPath == templatePath
    {
      this.disk := disk;
      this.config := config;
      defaultContextPath := templatePath;
    }

    /** `PromptFile(fileName, cfg)`: the object, or the exception its constructor raises. */
    static method Open(disk: FileSystem, fileName: string, cfg: Config) returns (r: Result<PromptFile>)
      modifies disk
      ensures var st := InitStep(old(disk.files), fileName, cfg);
        && disk.files == st.state.files
        && (r.Raised? <==> st.result.Raised?)
        && (r.Raised? ==> r.exc == st.result.exc)
        && (r.Ok? ==> fresh(r.value) && r.value.disk == disk
                      && r.value.config == st.state.config
                      && r.value.defaultContextPath == st.result.value)
    {
      VValid();
      var c :- Import(disk, fileName, cfg);
      var sh :- Lookup(c, "shell");
      var p := new PromptFile(disk, c, TemplatePath(sh));
      var u :- p.EnsureHeaders();
      u :- p.SyncCount();
      r := Ok(p);
    }

    /** The saved-context import at the start of `__init__`: the config to start from. */
    static method Import(disk: FileSystem, fileName: string, cfg: Config) returns (r: Result<Config>)
      modifies disk
      ensures r.Raised? ==> disk.files == old(disk.files) && ImportStep(V, old(disk.files), fileName, cfg) == Raised(r.exc)
      ensures r.Ok? ==> ImportStep(V, old(disk.files), fileName, cfg) == Ok((disk.files, r.value))
    {
      r := Ok(cfg);
      var full := V.contexts + fileName;
      if fileName != V.path && disk.Exists(full) {
        var flag := "off";
        if disk.Exists(V.path) {
          var read := disk.ReadLines(V.path);
          var texts :- FieldTexts(read.value, 6);
          r := Convert(texts, Layout);
          if r.Raised? {
            return;
          }
          flag := texts[4];
        }
        if flag == "off" {
          var saved := disk.ReadLines(full);
          disk.WriteLines(V.path, saved.value);
        }
      }
    }

    /** `if self.has_headers() == False: self.set_headers(self.config)` */
    method EnsureHeaders() returns (r: Result<()>)
      modifies this, disk
      ensures Step(Now(), r) == EnsureHeadersStep(V, old(Now()))
    {
      var headed :- HasHeaders();
      if headed {
        return Ok(());
      }
      r := SetHeaders(config);
    }

    /** `if config['multi_turn'] == 'on': self.config['token_count'] = self.get_token_count()` */
    method SyncCount() returns (r: Result<()>)
      modifies this, disk
      ensures Step(Now(), r) == SyncCountStep(V, old(Now()))
    {
      VValid();
      var f :- Lookup(config, "multi_turn");
      if f != Str("on") {
        return Ok(());
      }
      var n :- GetTokenCount();
      config := config["token_count" := Int(n)];
      r := Ok(());
    }

    /** `has_headers()` */
    method HasHeaders() returns (r: Result<bool>)
      ensures r == HeadersPresent(disk.files, V.path)
    {
      if !disk.Exists(V.path) {
        return Ok(false);
      }
      var read := disk.ReadLines(V.path);
      var ls := read.value;
      if |ls| == 0 {
        return Raised(IndexError);
      }
      r := Ok(Contains(ls[0], Marker));
    }

    /** `read_headers()`: the config the header block states, which becomes `self.config`. */
    method ReadHeaders() returns (r: Result<Config>)
      modifies this
      ensures Step(Now(), r) == ReadHeadersStep(V, old(Now()))
    {
      var headed :- HasHeaders();
      if !headed {
        return Ok(config);
      }
      var read := disk.ReadLines(V.path);
      var c :- ParseHeaders(read.value, Layout);
      config := c;
      r := Ok(c);
    }

    /** `set_headers(c)`: a fresh header block in front of the lines past the old one. */
    method SetHeaders(c: Config) returns (r: Result<()>)
      modifies this, disk
      ensures Step(Now(), r) == SetHeadersStep(V, old(Now()), c)
    {
      config := c;
      var prior := [];
      if disk.Exists(V.path) {
        var read := disk.ReadLines(V.path);
        prior := read.value;
      }
      var block :- HeaderLines(c, Layout);
      var headed :- HasHeaders();
      if headed {
        prior := Drop(prior, 6);
      }
      disk.WriteLines(V.path, block + prior);
      r := Ok(());
    }

    /** `add_input_output_pair(q, a)` */
    method AddInputOutputPair(q: string, a: string) returns (r: Result<()>)
      modifies this, disk
      ensures Step(Now(), r) == AddPairStep(V, old(Now()), q, a)
    {
      ghost var s0 := Now();
      ghost var text := Contents(s0.files, V.path);
      disk.Append(V.path, q);
      disk.Append(V.path, a);
      assert text + q + a == text + (q + a);
      ghost var s1 := s0.(files := s0.files[V.path := text + (q + a)]);
      assert Now() == s1;
      var f :- Lookup(config, "multi_turn");
      if f != Str("on") {
        return Ok(());
      }
      var n :- Lookup(config, "token_count");
      if !n.Int? {
        return Raised(TypeError);
      }
      var c := config["token_count" := Int(n.i + WordCount(q) + WordCount(a))];
      AddPairOn(V, s0, q, a, n.i + WordCount(q) + WordCount(a));
      r := SetHeaders(c);
    }

    /** `read_prompt_file(input)`: the conversation after the headers, trimmed first when too long. */
    method ReadPromptFile(input: string) returns (r: Result<string>)
      modifies disk
      ensures Step(Now(), r) == ReadPromptStep(V, old(Now()), input)
    {
      var n :- Lookup(config, "token_count");
      if !n.Int? {
        return Raised(TypeError);
      }
      if n.i + WordCount(input) > TokenLimit {
        var ls :- disk.ReadLines(V.path);
        disk.Write(V.path, Join(Take(ls, 6)) + Join(Drop(ls, 8)));
      }
      var ls :- disk.ReadLines(V.path);
      r := Ok(Join(Drop(ls, 6)));
    }

    /** `get_token_count()`: the words after the headers, stored in the headers when they differ. */
    method GetTokenCount() returns (r: Result<int>)
      modifies this, disk
      ensures Step(Now(), r) == TokenCountStep(V, old(Now()))
    {
      var stored := 0;
      var headed :- HasHeaders();
      if headed {
        var read := disk.ReadLines(V.path);
        stored :- StoredCount(read.value);
      }
      var ls :- disk.ReadLines(V.path);
      var total := CountWords(Drop(ls, 6));
      if total != stored {
        var u :- SetHeaders(config["token_count" := Int(total)]);
      }
      r := Ok(total);
    }

    /** `clear()`, with the archive's time stamp given. */
    method Clear(stamp: string) returns (r: Result<()>)
      modifies this, disk
      ensures Step(Now(), r) == ClearStep(V, old(Now()), stamp)
    {
      var c :- ReadHeaders();
      var ls :- disk.ReadLines(V.path);
      disk.WriteLines(Archive(V, stamp), ls);
      disk.Write(V.path, "");
      r := SetHeaders(c);
    }

    /** `clear_last_interaction()`: pop the last line twice. */
    method ClearLastInteraction() returns (r: Result<()>)
      modifies disk
      ensures Step(Now(), r) == ClearLastStep(V, old(Now()))
    {
      var ls :- disk.ReadLines(V.path);
      if |ls| > 1 {
        ghost var all := ls;
        ls := ls[..|ls| - 1];
        ls := ls[..|ls| - 1];
        assert ls == all[..|all| - 2];
        disk.WriteLines(V.path, ls);
      }
      r := Ok(());
    }

    /** `save_to(name)` */
    method SaveTo(name: string) returns (r: Result<()>)
      modifies disk
      ensures Step(Now(), r) == SaveToStep(V, old(Now()), name)
    {
      var ls :- disk.ReadLines(V.path);
      disk.WriteLines(Saved(V, name), ls);
      r := Ok(());
    }

    /** `start_multi_turn()`: switch on and write the headers. */
    method StartMultiTurn() returns (r: Result<()>)
      modifies this, disk
      ensures Step(Now(), r) == SetFlagStep(V, old(Now()), "on")
    {
      VValid();
      r := SetHeaders(config["multi_turn" := Str("on")]);
    }

    /** `stop_multi_turn()` */
    method StopMultiTurn() returns (r: Result<()>)
      modifies this, disk
      ensures Step(Now(), r) == SetFlagStep(V, old(Now()), "off")
    {
      VValid();
      r := SetHeaders(config["multi_turn" := Str("off")]);
    }

    /** `default_context()`: start over from the shell's template, keeping the switch. */
    method DefaultContext() returns (r: Result<bool>)
      modifies disk
      ensures Step(Now(), r) == DefaultContextStep(V, old(Now()), defaultContextPath)
    {
      VValid();
      if !disk.Exists(defaultContextPath) {
        return Ok(false);
      }
      var read := disk.ReadLines(defaultContextPath);
      var ls := read.value;
      var f :- Lookup(config, "multi_turn");
      if |ls| <= 4 {
        return Raised(IndexError);
      }
      ghost var template := ls;
      ls := ls[4 := HeaderLine("multi_turn", f)];
      assert Restamp(template, config, [V.layout[4]], 4) == Restamp(ls, config, [], 5);
      disk.WriteLines(V.path, ls);
      r := Ok(true);
    }

    /** `load_context(name)` */
    method LoadContext(name: string) returns (r: Result<bool>)
      modifies disk
      ensures Step(Now(), r) == LoadStep(old(Now()), name)
    {
      var p := Saved(V, name);
      if !disk.Exists(p) {
        return Ok(false);
      }
      var read := disk.ReadLines(p);
      disk.WriteLines(V.path, read.value);
      r := Ok(true);
    }
  }
}
