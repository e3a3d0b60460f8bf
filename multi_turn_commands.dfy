/**
 * `get_command_result(input, prompt_file)` of src/commands.py: a fixed chain
 * of substring tests picks a command, and the command runs against the
 * `PromptFile` of src/prompt_file.py. The classification is a function of the
 * input alone; its effect is a step on the files and the config.
 */
module MultiTurnCommands {
  import opened Outcomes
  import opened Text
  import opened TextLines
  import opened Headers
  import opened ContextFile
  import opened ContextLaws
  import opened MultiTurnFile

  /** The four settings of the `set` command, in the order they are tried. */
  datatype Setting = Temperature | MaxTokens | ShellName | Model

  datatype Command =
    | Set(setting: Setting, value: Option<string>)  // None: not exactly four words
    | ShowConfig
    | StartMultiTurn
    | StopMultiTurn
    | DefaultContext
    | ShowContext(count: Option<string>)            // the fourth word, when there are more than three
    | ViewContext
    | SaveContext(name: Option<string>)             // None: not exactly four words
    | ClearContext
    | LoadContext(name: Option<string>)             // None: not exactly four words
    | NotACommand

  /** The config key a setting is stored under. */
  function Key(s: Setting): string {
    match s
    case Temperature => "temperature"
    case MaxTokens => "max_tokens"
    case ShellName => "shell"
    case Model => "model"
  }

  /** The first setting named in the input, in the order temperature, max_tokens, shell, model. */
  function SettingNamed(input: string): Option<Setting> {
    if Contains(input, "temperature") then Some(Temperature)
    else if Contains(input, "max_tokens") then Some(MaxTokens)
    else if Contains(input, "shell") then Some(ShellName)
    else if Contains(input, "model") then Some(Model)
    else None
  }

  /** The keyword chain of `get_command_result`, in the source's order. */
  function Classify(input: string): Command {
    if Contains(input, "set") && SettingNamed(input).Some? then Set(SettingNamed(input).value, WordWhenCount(input, 4, 3))
    else if Contains(input, "show config") then ShowConfig
    else if Contains(input, "multi-turn") && Contains(input, "start") then StartMultiTurn
    else if Contains(input, "multi-turn") && Contains(input, "stop") then StopMultiTurn
    else if !Contains(input, "context") then NotACommand
    else if Contains(input, "default") then DefaultContext
    else if Contains(input, "show") then
      var ws := Words(input);
      ShowContext(if |ws| > 3 then Some(ws[3]) else None)
    else if Contains(input, "view") then ViewContext
    else if Contains(input, "save") then SaveContext(WordWhenCount(input, 4, 3))
    else if Contains(input, "clear") then ClearContext
    else if Contains(input, "load") then LoadContext(WordWhenCount(input, 4, 3))
    else NotACommand
  }

  /** `float(t)`, `int(t)` or `t` itself, by setting. */
  function SettingValue(s: Setting, t: string): Result<Value> {
    match s
    case Temperature => Ok(Float(t))
    case MaxTokens => var n :- ParseInt(t); Ok(Int(n))
    case ShellName => Ok(Str(t))
    case Model => Ok(Str(t))
  }

  /**
   * The effect of `input` on a prompt file whose shell template is `template`,
   * with `stamp` the time stamp `context save` names the file after when no
   * name is given. The result is the command's reply, "" for no command.
   */
  function CommandStep(s: State, template: string, input: string, stamp: string): Step<string> {
    VValid();
    match Classify(input)
    case Set(setting, arg) =>
      if arg.None? then Step(s, Ok(""))
      else
        (match SettingValue(setting, arg.value)
         case Raised(e) => Fail(s, e)
         case Ok(x) => Then(SetHeadersStep(V, s, s.config[Key(setting) := x]), "config set"))
    case ShowConfig => Step(s, Ok("config shown"))
    case StartMultiTurn =>
      (match Lookup(s.config, "multi_turn")
       case Raised(e) => Fail(s, e)
       case Ok(f) =>
         if f == Str("off") then Then(SetFlagStep(V, s, "on"), "multi turn mode on")
         else Step(s, Ok("multi turn mode on")))
    case StopMultiTurn => Then(SetFlagStep(V, s, "off"), "multi turn mode off")
    case DefaultContext => Then(DefaultContextStep(V, s, template), "stopped context")
    case ShowContext(count) =>
      if V.path !in s.files then Fail(s, FileNotFound)
      else if count.Some? && ParseInt(count.value).Raised? then Fail(s, ParseInt(count.value).exc)
      else Step(s, Ok("context shown"))
    case ViewContext =>
      if "shell" !in s.config then Fail(s, KeyError("shell")) else Step(s, Ok("context shown"))
    case SaveContext(name) =>
      Then(SaveToStep(V, s, if name.Some? then name.value else stamp + ".txt"), "context saved")
    case ClearContext => Then(DefaultContextStep(V, s, template), "unlearned interaction")
    case LoadContext(name) =>
      if name.None? then Step(s, Ok("context loaded")) else Then(LoadStep(s, name.value), "context loaded")
    case NotACommand => Step(s, Ok(""))
  }

  /** `get_command_result(input, prompt_file)`; a missing prompt file gives "" and does nothing. */
  method GetCommandResult(input: string, prompt: PromptFile?, stamp: string) returns (r: Result<string>)
    modifies if prompt == null then {} else {prompt, prompt.disk}
    ensures prompt == null ==> r == Ok("")
    ensures prompt != null ==>
      Step(prompt.Now(), r) == CommandStep(old(prompt.Now()), prompt.defaultContextPath, input, stamp)
  {
    if prompt == null {
      return Ok("");
    }
    VValid();
    match Classify(input)
    case Set(setting, arg) =>
      if arg.None? {
        return Ok("");
      }
      var x :- SettingValue(setting, arg.value);
      prompt.config := prompt.config[Key(setting) := x];
      var u :- prompt.SetHeaders(prompt.config);
      r := Ok("config set");
    case ShowConfig =>
      r := Ok("config shown");
    case StartMultiTurn =>
      var f :- Lookup(prompt.config, "multi_turn");
      if f == Str("off") {
        var u :- prompt.StartMultiTurn();
      }
      r := Ok("multi turn mode on");
    case StopMultiTurn =>
      var u :- prompt.StopMultiTurn();
      r := Ok("multi turn mode off");
    case DefaultContext =>
      var found :- prompt.DefaultContext();
      r := Ok("stopped context");
    case ShowContext(count) =>
      var lines :- prompt.disk.ReadLines(V.path);
      if count.Some? {
        var n :- ParseInt(count.value);
      }
      r := Ok("context shown");
    case ViewContext =>
      var sh :- Lookup(prompt.config, "shell");
      r := Ok("context shown");
    case SaveContext(name) =>
      var fileName := stamp + ".txt";
      if name.Some? {
        fileName := name.value;
      }
      var u :- prompt.SaveTo(fileName);
      r := Ok("context saved");
    case ClearContext =>
      var found :- prompt.DefaultContext();
      r := Ok("unlearned interaction");
    case LoadContext(name) =>
      if name.Some? {
        var found := prompt.LoadContext(name.value);
      }
      r := Ok("context loaded");
    case NotACommand =>
      r := Ok("");
  }

  // ---------------------------------------------------------------------------
  // Properties
  // ---------------------------------------------------------------------------

  /**
   * The reply is "" exactly when the input is no command or a `set` command
   * with the wrong number of words, and then nothing changes.
   */
  lemma EmptyReplyIsNoCommand(s: State, template: string, input: string, stamp: string)
    ensures CommandStep(s, template, input, stamp).result == Ok("") <==>
      Classify(input) == NotACommand || (Classify(input).Set? && Classify(input).value.None?)
    ensures CommandStep(s, template, input, stamp).result == Ok("") ==>
      CommandStep(s, template, input, stamp).state == s
  {
  }

  /** `show config`, `context show` and `context view` change neither the files nor the config. */
  lemma ShowingChangesNothing(s: State, template: string, input: string, stamp: string)
    requires Classify(input).ShowConfig? || Classify(input).ShowContext? || Classify(input).ViewContext?
    ensures CommandStep(s, template, input, stamp).state == s
    ensures CommandStep(s, template, input, stamp).result.Ok? ==>
      CommandStep(s, template, input, stamp).result.value in {"config shown", "context shown"}
  {
  }

  /**
   * A `set` command with four words stores the converted fourth word under its
   * key, and the header block written then reads back with the new value.
   */
  lemma SetPersists(s: State, template: string, input: string, stamp: string, x: Value)
    requires Classify(input).Set? && Classify(input).value.Some?
    requires SettingValue(Classify(input).setting, Classify(input).value.value) == Ok(x)
    requires CommandStep(s, template, input, stamp).result.Ok?
    ensures var st := CommandStep(s, template, input, stamp);
      && st.result == Ok("config set")
      && st.state.config == s.config[Key(Classify(input).setting) := x]
      && (Conforms(st.state.config, Layout) ==>
            ReadHeadersStep(V, st.state).result == Ok(Project(st.state.config, Layout)))
  {
    VValid();
    var c := s.config[Key(Classify(input).setting) := x];
    SetHeadersConfig(V, s, c);
    if Conforms(c, Layout) {
      HeadersReadBack(V, s, c);
    }
  }

  /** `start multi-turn` twice leaves what it leaves once; with the switch already on it changes nothing. */
  lemma StartIdempotent(s: State, template: string, input: string, stamp: string)
    requires Classify(input) == StartMultiTurn
    requires CommandStep(s, template, input, stamp).result.Ok?
    ensures CommandStep(s, template, input, stamp).result == Ok("multi turn mode on")
    ensures "multi_turn" in s.config && s.config["multi_turn"] != Str("off") ==>
      CommandStep(s, template, input, stamp).state == s
    ensures var s1 := CommandStep(s, template, input, stamp).state;
      CommandStep(s1, template, input, stamp) == CommandStep(s, template, input, stamp).(state := s1)
  {
    VValid();
    var s1 := CommandStep(s, template, input, stamp).state;
    if s.config["multi_turn"] == Str("off") {
      SetHeadersConfig(V, s, s.config["multi_turn" := Str("on")]);
      assert s1.config["multi_turn"] == Str("on");
    }
  }

  /** `stop multi-turn` writes "off" into line 4, and a second one changes nothing. */
  lemma StopIdempotent(s: State, template: string, input: string, stamp: string)
    requires Classify(input) == StopMultiTurn && NoBreaks(s.config, Layout)
    requires CommandStep(s, template, input, stamp).result.Ok?
    ensures var s1 := CommandStep(s, template, input, stamp).state;
      && CommandStep(s1, template, input, stamp) == CommandStep(s, template, input, stamp)
      && V.path in s1.files && 4 < |Lines(s1.files[V.path])|
      && Lines(s1.files[V.path])[4] == HeaderLine("multi_turn", Str("off"))
  {
    VValid();
    SetFlagIdempotent(V, s, "off");
  }

  /** `context load` always replies "context loaded"; with a name it copies the saved context when there is one. */
  lemma LoadAlwaysReplies(s: State, template: string, input: string, stamp: string)
    requires Classify(input).LoadContext?
    ensures var st := CommandStep(s, template, input, stamp);
      && st.result == Ok("context loaded")
      && st.state.config == s.config
      && (Classify(input).name.None? || Saved(V, Classify(input).name.value) !in s.files ==> st.state == s)
      && (Classify(input).name.Some? && Saved(V, Classify(input).name.value) in s.files ==>
            st.state.files == s.files[V.path := s.files[Saved(V, Classify(input).name.value)]])
  {
    var name := Classify(input).name;
    assert CommandStep(s, template, input, stamp) ==
      if name.None? then Step(s, Ok("context loaded")) else Then(LoadStep(s, name.value), "context loaded");
    if name.Some? {
      LoadCopies(s, name.value);
    }
  }
}
