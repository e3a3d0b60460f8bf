/**
 * The driver script src/codex_query.py: pick the shell from the parent
 * process, open the prompt file (a saved context for that shell when one
 * exists), treat the input as a command or as a query, send the conversation
 * followed by the query, and in multi-turn mode record the exchange.
 * The model's answer is a parameter: it stands for what the API returned for
 * the query the run sends.
 */
module MultiTurnDriver {
  import opened Outcomes
  import opened Text
  import opened TextLines
  import opened Headers
  import opened Disk
  import opened Shells
  import opened ContextFile
  import opened ContextLaws
  import opened MultiTurnFile
  import MultiTurnCommands

  /**
   * `detect_shell()`: the name of the prompt file handed to `PromptFile`,
   * `<shell>-context.txt` when that saved context exists, the working file
   * otherwise.
   */
  function PromptName(files: map<string, string>, shell: string): (name: string)
    ensures TemplatePath(Str(shell)) in files ==> V.contexts + name == TemplatePath(Str(shell))
    ensures TemplatePath(Str(shell)) !in files ==> name == V.path
  {
    if TemplatePath(Str(shell)) in files then
      assert V.contexts + (shell + "-context.txt") == V.contexts + Render(Str(shell)) + "-context.txt";
      shell + "-context.txt"
    else V.path
  }

  /** The config `initialize()` builds: a `model` key where the header block expects `engine`. */
  function InitialConfig(model: string, shell: string): Config {
    map["model" := Str(model), "temperature" := Int(0), "max_tokens" := Int(300),
        "shell" := Str(shell), "multi_turn" := Str("off"), "token_count" := Int(0)]
  }

  /** `detect_shell()` then `initialize()`: the prompt file's state, and its template path or the exception. */
  function StartStep(files: map<string, string>, processName: string, model: string): Step<string> {
    var shell := ShellOf(processName);
    InitStep(files, PromptName(files, shell), InitialConfig(model, shell))
  }

  /** `detect_shell()` then `initialize()`, with the parent process name and the ini file's model as inputs. */
  method Initialize(disk: FileSystem, processName: string, model: string) returns (r: Result<PromptFile>)
    modifies disk
    ensures var st := StartStep(old(disk.files), processName, model);
      && disk.files == st.state.files
      && (r.Raised? <==> st.result.Raised?)
      && (r.Raised? ==> r.exc == st.result.exc)
      && (r.Ok? ==> fresh(r.value) && r.value.disk == disk
                    && r.value.config == st.state.config
                    && r.value.defaultContextPath == st.result.value)
  {
    var shell := ShellOf(processName);
    r := PromptFile.Open(disk, PromptName(disk.files, shell), InitialConfig(model, shell));
  }

  /** `get_query(prompt_file)`: the entry when it is no command, `None` (the script exits) after a command. */
  function GetQueryStep(s: State, template: string, entry: string, stamp: string): Step<Option<string>> {
    var c := MultiTurnCommands.CommandStep(s, template, entry, stamp);
    match c.result
    case Raised(e) => Fail(c.state, e)
    case Ok(reply) => Step(c.state, Ok(if reply == "" then Some(entry) else None))
  }

  /** `get_query(prompt_file)`, with the text read from standard input as `entry`. */
  method GetQuery(p: PromptFile, entry: string, stamp: string) returns (r: Result<Option<string>>)
    modifies p, p.disk
    ensures Step(p.Now(), r) == GetQueryStep(old(p.Now()), p.defaultContextPath, entry, stamp)
  {
    var reply :- MultiTurnCommands.GetCommandResult(entry, p, stamp);
    r := Ok(if reply == "" then Some(entry) else None);
  }

  /** The end of the script: in multi-turn mode a non-empty answer is recorded after the query. */
  function RecordStep(s: State, query: string, completion: string): Step<()> {
    match Lookup(s.config, "multi_turn")
    case Raised(e) => Fail(s, e)
    case Ok(f) =>
      if f == Str("on") && completion != "" then AddPairStep(V, s, query, completion)
      else Step(s, Ok(()))
  }

  method Record(p: PromptFile, query: string, completion: string) returns (r: Result<()>)
    modifies p, p.disk
    ensures Step(p.Now(), r) == RecordStep(old(p.Now()), query, completion)
  {
    VValid();
    var f :- Lookup(p.config, "multi_turn");
    if f == Str("on") && completion != "" {
      r := p.AddInputOutputPair(query, completion);
    } else {
      r := Ok(());
    }
  }

  /**
   * The arguments of the request at line 137, read from `config` in the order
   * Python evaluates them: `model`, then `shell` (joined to the system
   * message, so it must be a string), `temperature` and `max_tokens`.
   */
  function RequestArguments(c: Config): (r: Result<()>)
    ensures r.Ok? <==> "model" in c && "shell" in c && c["shell"].Str? && "temperature" in c && "max_tokens" in c
    ensures "model" !in c ==> r == Raised(KeyError("model"))
  {
    var model :- Lookup(c, "model");
    var shell :- Lookup(c, "shell");
    if !shell.Str? then Raised(TypeError)
    else
      var temperature :- Lookup(c, "temperature");
      var maxTokens :- Lookup(c, "max_tokens");
      Ok(())
  }

  /**
   * The body of the script after `get_query`: the text sent to the model is
   * `read_prompt_file(query) + query`; the request reads its arguments from
   * the config taken before the read; the exchange is then recorded.
   */
  function ExchangeStep(s: State, query: string, completion: string): Step<string> {
    var b := ReadPromptStep(V, s, query);
    match b.result
    case Raised(e) => Fail(b.state, e)
    case Ok(context) =>
      match RequestArguments(s.config)
      case Raised(e) => Fail(b.state, e)
      case Ok(_) =>
        var rec := RecordStep(b.state, query, completion);
        if rec.result.Raised? then Fail(rec.state, rec.result.exc) else Step(rec.state, Ok(context + query))
  }

  method Exchange(p: PromptFile, query: string, completion: string) returns (r: Result<string>)
    modifies p, p.disk
    ensures Step(p.Now(), r) == ExchangeStep(old(p.Now()), query, completion)
  {
    var config := p.config;
    var context :- p.ReadPromptFile(query);
    var request :- RequestArguments(config);
    var u :- Record(p, query, completion);
    r := Ok(context + query);
  }

  /**
   * One run of the script: the files it leaves, and the text it sends to the
   * model (`None` when the input was a command), or the exception that ended it.
   */
  function RunStep(files: map<string, string>, processName: string, model: string,
                   entry: string, completion: string, stamp: string): FileStep<Option<string>>
  {
    var init := StartStep(files, processName, model);
    if init.result.Raised? then FileStep(init.state.files, Raised(init.result.exc))
    else
      var g := GetQueryStep(init.state, init.result.value, entry, stamp);
      match g.result
      case Raised(e) => FileStep(g.state.files, Raised(e))
      case Ok(query) =>
        if query.None? then FileStep(g.state.files, Ok(None))
        else
          var x := ExchangeStep(g.state, query.value, completion);
          FileStep(x.state.files, if x.result.Raised? then Raised(x.result.exc) else Ok(Some(x.result.value)))
  }

  method Run(disk: FileSystem, processName: string, model: string, entry: string, completion: string, stamp: string)
    returns (r: Result<Option<string>>)
    modifies disk
    ensures FileStep(disk.files, r) == RunStep(old(disk.files), processName, model, entry, completion, stamp)
  {
    var p :- Initialize(disk, processName, model);
    var query :- GetQuery(p, entry, stamp);
    if query.None? {
      return Ok(None);
    }
    var sent :- Exchange(p, query.value, completion);
    r := Ok(Some(sent));
  }

  // ---------------------------------------------------------------------------
  // Properties
  // ---------------------------------------------------------------------------

  /** A saved context is never named like the working file. */
  lemma TemplateNameDiffers(shell: string)
    requires shell in {"powershell", "bash", "zsh", "unknown"}
    ensures shell + "-context.txt" != V.path
  {
    assert (shell + "-context.txt")[0] == shell[0];
  }

  /**
   * Without a saved context for the shell the working file is opened with the
   * built-in config whatever its headers say (so multi-turn mode is off); it
   * must already start with a header block, since writing one from that config
   * raises `KeyError('engine')`. Nothing is written.
   */
  lemma StartWithoutTemplate(files: map<string, string>, processName: string, model: string)
    requires TemplatePath(Str(ShellOf(processName))) !in files
    ensures var st := StartStep(files, processName, model);
      && st.state == State(files, InitialConfig(model, ShellOf(processName)))
      && (st.result.Ok? <==> HeadersPresent(files, V.path) == Ok(true))
      && (HeadersPresent(files, V.path) == Ok(false) ==> st.result == Raised(KeyError("engine")))
      && (st.result.Ok? ==> st.result.value == TemplatePath(Str(ShellOf(processName))))
  {
    var shell := ShellOf(processName);
    var c := InitialConfig(model, shell);
    assert PromptName(files, shell) == V.path;
    assert ImportStep(V, files, V.path, c) == Ok((files, c));
    assert Lookup(c, "engine") == Raised(KeyError("engine"));
    assert HeaderLines(c, Layout) == Raised(KeyError("engine"));
  }

  /**
   * A first run with a saved context for the shell and no working file copies
   * the saved context into the working file and keeps the built-in config; the
   * run goes on only when that copy starts with a header line.
   */
  lemma StartFromTemplate(files: map<string, string>, processName: string, model: string)
    requires TemplatePath(Str(ShellOf(processName))) in files && V.path !in files
    ensures var t := files[TemplatePath(Str(ShellOf(processName)))];
      var st := StartStep(files, processName, model);
      && st.state == State(files[V.path := t], InitialConfig(model, ShellOf(processName)))
      && (st.result.Ok? <==> Lines(t) != [] && Contains(Lines(t)[0], Marker))
      && (Lines(t) != [] && !Contains(Lines(t)[0], Marker) ==> st.result == Raised(KeyError("engine")))
  {
    var shell := ShellOf(processName);
    var c := InitialConfig(model, shell);
    var name := PromptName(files, shell);
    TemplateNameDiffers(shell);
    VValid();
    ImportSpec(V, files, name, c);
    assert ImportStep(V, files, name, c) == Ok((files[V.path := files[TemplatePath(Str(shell))]], c));
    assert Lookup(c, "engine") == Raised(KeyError("engine"));
    assert HeaderLines(c, Layout) == Raised(KeyError("engine"));
  }

  /**
   * The input is sent on exactly when it is no command (or a `set` command
   * with the wrong number of words), and then the prompt file is untouched;
   * otherwise the script stops after the command.
   */
  lemma GetQuerySpec(s: State, template: string, entry: string, stamp: string)
    ensures var c := MultiTurnCommands.Classify(entry);
      GetQueryStep(s, template, entry, stamp).result == Ok(Some(entry)) <==>
        c == MultiTurnCommands.NotACommand || (c.Set? && c.value.None?)
    ensures var g := GetQueryStep(s, template, entry, stamp);
      g.result.Ok? && g.result.value.Some? ==> g.result.value.value == entry && g.state == s
  {
    MultiTurnCommands.EmptyReplyIsNoCommand(s, template, entry, stamp);
  }

  /**
   * Outside multi-turn mode, or for an empty answer, the text sent is the
   * conversation after the header lines followed by the query, and nothing
   * is written while the count stays within the limit.
   */
  lemma ExchangeOnlyReads(s: State, query: string, completion: string)
    requires RequestArguments(s.config).Ok?
    requires "multi_turn" in s.config && (s.config["multi_turn"] != Str("on") || completion == "")
    requires V.path in s.files && "token_count" in s.config && s.config["token_count"].Int?
    requires s.config["token_count"].i + WordCount(query) <= TokenLimit
    ensures ExchangeStep(s, query, completion) == Step(s, Ok(Transcript(s.files[V.path]) + query))
  {
    ReadPromptSpec(V, s, query);
  }

  /**
   * In multi-turn mode a non-empty answer is recorded: the text sent is the
   * conversation followed by the query, the conversation then grows by the
   * query and the answer, and the stored token count keeps matching it.
   * The config must hold a `model` key besides the header keys; no run of the
   * script starts from such a config (see `RunNeverRecords`).
   */
  lemma ExchangeRecords(s: State, query: string, completion: string)
    requires Valid(V) && Synced(V, s) && Terminated(s.files[V.path])
    requires RequestArguments(s.config).Ok?
    requires "multi_turn" in s.config && s.config["multi_turn"] == Str("on") && completion != ""
    requires query == [] || IsSpace(query[|query| - 1])
    requires s.config["token_count"].i + WordCount(query) <= TokenLimit
    ensures var x := ExchangeStep(s, query, completion);
      && x.result == Ok(Transcript(s.files[V.path]) + query)
      && Synced(V, x.state)
      && Transcript(x.state.files[V.path]) == Transcript(s.files[V.path]) + (query + completion)
  {
    ReadPromptSpec(V, s, query);
    assert ReadPromptStep(V, s, query) == Step(s, Ok(Transcript(s.files[V.path])));
    assert RecordStep(s, query, completion) == AddPairStep(V, s, query, completion);
    AddPairKeepsCount(V, s, query, completion);
  }

  /**
   * A config without a `model` key (every config read from a header block)
   * stops the exchange at the request with `KeyError('model')`: nothing is
   * sent and nothing is recorded; the files are as reading the prompt left them.
   */
  lemma ExchangeWithoutModel(s: State, query: string, completion: string)
    requires "model" !in s.config
    ensures var b := ReadPromptStep(V, s, query);
      var x := ExchangeStep(s, query, completion);
      && x.result.Raised? && x.state == b.state
      && (b.result.Ok? ==> x.result.exc == KeyError("model"))
  {
  }

  /** The header keys of this generation, none of which is `model`. */
  lemma LayoutKeys()
    ensures KeysOf(Layout) == {"engine", "temperature", "max_tokens", "shell", "multi_turn", "token_count"}
  {
    assert Layout[0].key == "engine" && Layout[1].key == "temperature" && Layout[2].key == "max_tokens";
    assert Layout[3].key == "shell" && Layout[4].key == "multi_turn" && Layout[5].key == "token_count";
  }

  /** `__init__`'s import keeps the config it was given or replaces it by one with exactly the header keys. */
  lemma ImportKeys(files: map<string, string>, fileName: string, cfg: Config)
    ensures var i := ImportStep(V, files, fileName, cfg);
      i.Ok? ==> i.value.1 == cfg || i.value.1.Keys == KeysOf(Layout)
  {
    var full := V.contexts + fileName;
    if fileName != V.path && full in files && V.path in files {
      var texts := FieldTexts(Lines(files[V.path]), |V.layout|);
      if texts.Ok? {
        ConvertKeys(texts.value, V.layout);
      }
    }
  }

  /** Resynchronising the count changes no key, and outside multi-turn mode nothing at all. */
  lemma SyncKeys(s: State)
    requires "token_count" in s.config
    ensures SyncCountStep(V, s).state.config.Keys == s.config.Keys
    ensures Lookup(s.config, "multi_turn") != Ok(Str("on")) ==> SyncCountStep(V, s).state == s
  {
    VValid();
    if Lookup(s.config, "multi_turn") == Ok(Str("on")) {
      var t := TokenCountStep(V, s);
      assert t.state.config == s.config || exists n :: t.state.config == s.config["token_count" := Int(n)];
    }
  }

  /** `__init__` ends with the keys the import gave it, and outside multi-turn mode with that very config. */
  lemma InitKeys(files: map<string, string>, fileName: string, cfg: Config)
    requires "token_count" in cfg
    ensures var st := InitStep(files, fileName, cfg);
      var i := ImportStep(V, files, fileName, cfg);
      st.result.Ok? ==>
        && i.Ok? && st.state.config.Keys == i.value.1.Keys
        && (Lookup(i.value.1, "multi_turn") != Ok(Str("on")) ==> st.state.config == i.value.1)
  {
    VValid();
    LayoutKeys();
    ImportKeys(files, fileName, cfg);
    var i := ImportStep(V, files, fileName, cfg);
    if i.Ok? && "shell" in i.value.1 {
      var s := State(i.value.0, i.value.1);
      var h := EnsureHeadersStep(V, s);
      assert h.state.config == s.config;
      if h.result.Ok? {
        SyncKeys(h.state);
      }
    }
  }

  /**
   * The config a run starts from is the built-in one (multi-turn mode off,
   * with `model`) or one read from a header block (the header keys, without
   * `model`).
   */
  lemma StartConfig(files: map<string, string>, processName: string, model: string)
    ensures var st := StartStep(files, processName, model);
      st.result.Ok? ==>
        || st.state.config == InitialConfig(model, ShellOf(processName))
        || (st.state.config.Keys == KeysOf(Layout) && "model" !in st.state.config)
  {
    var shell := ShellOf(processName);
    var cfg := InitialConfig(model, shell);
    var name := PromptName(files, shell);
    assert StartStep(files, processName, model) == InitStep(files, name, cfg);
    var st := InitStep(files, name, cfg);
    LayoutKeys();
    assert "model" !in KeysOf(Layout);
    ImportKeys(files, name, cfg);
    InitKeys(files, name, cfg);
    assert Lookup(cfg, "multi_turn") == Ok(Str("off"));
  }

  /**
   * No run of the script records an exchange. A run that sends its query
   * started from the built-in config, whose switch is off; a run starting
   * from a config read from the headers (the only way the switch is on)
   * raises `KeyError('model')` before the request. So what a sending run
   * leaves on disk is exactly what `read_prompt_file` left.
   */
  lemma RunNeverRecords(files: map<string, string>, processName: string, model: string,
                        entry: string, completion: string, stamp: string)
    ensures var r := RunStep(files, processName, model, entry, completion, stamp);
      var s := StartStep(files, processName, model).state;
      var b := ReadPromptStep(V, s, entry);
      r.result.Ok? && r.result.value.Some? ==>
        && s.config == InitialConfig(model, ShellOf(processName))
        && b.result.Ok?
        && r == FileStep(b.state.files, Ok(Some(b.result.value + entry)))
  {
    var r := RunStep(files, processName, model, entry, completion, stamp);
    var init := StartStep(files, processName, model);
    var s := init.state;
    if r.result.Ok? && r.result.value.Some? {
      StartConfig(files, processName, model);
      GetQuerySpec(s, init.result.value, entry, stamp);
      var g := GetQueryStep(s, init.result.value, entry, stamp);
      assert g.state == s && g.result == Ok(Some(entry));
      if "model" !in s.config {
        ExchangeWithoutModel(s, entry, completion);
        assert false;
      }
      var b := ReadPromptStep(V, s, entry);
      assert b.state.config == s.config;
      assert RecordStep(b.state, entry, completion) == Step(b.state, Ok(()));
    }
  }

  /**
   * A run whose config was read from the headers, on an input that is no
   * command, ends in `KeyError('model')` once the prompt is read: nothing is
   * sent and nothing recorded.
   */
  lemma HeaderConfigRaises(files: map<string, string>, processName: string, model: string,
                           entry: string, completion: string, stamp: string)
    requires StartStep(files, processName, model).result.Ok?
    requires StartStep(files, processName, model).state.config != InitialConfig(model, ShellOf(processName))
    requires MultiTurnCommands.Classify(entry) == MultiTurnCommands.NotACommand
    ensures var s := StartStep(files, processName, model).state;
      var b := ReadPromptStep(V, s, entry);
      RunStep(files, processName, model, entry, completion, stamp) ==
        FileStep(b.state.files, Raised(if b.result.Raised? then b.result.exc else KeyError("model")))
  {
    var init := StartStep(files, processName, model);
    var s := init.state;
    StartConfig(files, processName, model);
    GetQuerySpec(s, init.result.value, entry, stamp);
    assert GetQueryStep(s, init.result.value, entry, stamp) == Step(s, Ok(Some(entry)));
    ExchangeWithoutModel(s, entry, completion);
  }
}
