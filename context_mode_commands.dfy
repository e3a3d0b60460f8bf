/**
 * `get_command_result(input, prompt_file)` of commands.py, the interpreter
 * that goes with the `PromptFile` of prompt_file.py: `set` takes three words,
 * `unlearn` comes before the context commands, and `context load` reads from
 * the `saved` folder itself.
 */
module ContextModeCommands {
  import opened Outcomes
  import opened Text
  import opened TextLines
  import opened Headers
  import opened ContextFile
  import opened ContextLaws
  import opened ContextModeFile

  /** The four settings of the `set` command, in the order they are tried. */
  datatype Setting = Temperature | MaxTokens | ShellName | Engine

  datatype Command =
    | Set(setting: Setting, value: Option<string>)  // None: not exactly three words
    | ShowConfig
    | UnlearnAll
    | UnlearnLast
    | ShowContext(count: Option<string>)            // the fourth word, when there are more than three
    | EditContext
    | SaveContext(name: Option<string>)             // None: not exactly four words
    | ClearContext
    | LoadContext(name: Option<string>)             // None: not exactly four words
    | NotACommand

  /** The config key a setting is stored under. */
  function Key(s: Setting): string {
    match s
    case Temperature => "temperature"
    case MaxTokens => "max_tokens"
    case ShellName => "shell"
    case Engine => "engine"
  }

  /** The first setting named in the input, in the order temperature, max_tokens, shell, engine. */
  function SettingNamed(input: string): Option<Setting> {
    if Contains(input, "temperature") then Some(Temperature)
    else if Contains(input, "max_tokens") then Some(MaxTokens)
    else if Contains(input, "shell") then Some(ShellName)
    else if Contains(input, "engine") then Some(Engine)
    else None
  }

  /** The keyword chain of `get_command_result`, in the source's order. */
  function Classify(input: string): Command {
    if Contains(input, "set") && SettingNamed(input).Some? then Set(SettingNamed(input).value, WordWhenCount(input, 3, 2))
    else if Contains(input, "show config") then ShowConfig
    else if Contains(input, "unlearn") then (if Contains(input, "all") then UnlearnAll else UnlearnLast)
    else if !Contains(input, "context") then NotACommand
    else if Contains(input, "show") then
      var ws := Words(input);
      ShowContext(if |ws| > 3 then Some(ws[3]) else None)
    else if Contains(input, "edit") then EditContext
    else if Contains(input, "save") then SaveContext(WordWhenCount(input, 4, 3))
    else if Contains(input, "clear") then ClearContext
    else if Contains(input, "load") then LoadContext(WordWhenCount(input, 4, 3))
    else NotACommand
  }

  /** `float(t)`, `int(t)` or `t` itself, by setting. */
  function SettingValue(s: Setting, t: string): Result<Value> {
    match s
    case Temperature => Ok(Float(t))
    case MaxTokens => var n :- ParseInt(t); Ok(Int(n))
    case ShellName => Ok(Str(t))
    case Engine => Ok(Str(t))
  }

  /** The folder `context load` reads from, next to the working file. */
  const SavedFolder := "saved/"

  /** Where `context load <name>` looks for the context. */
  function SavedPath(name: string): string {
    SavedFolder + WithTxt(name)
  }

  /** `context load <name>`: copy the saved context's lines over the working file, when it exists. */
  function LoadSavedStep(s: State, name: string): Step<string> {
    var p := SavedPath(name);
    if p !in s.files then Step(s, Ok("context loaded"))
    else Step(s.(files := s.files[V.path := Join(Lines(s.files[p]))]), Ok("context loaded"))
  }

  /** Python's `ls[k:]` for any integer `k`: a negative `k` counts from the end. */
  function SliceFrom<T>(ls: seq<T>, k: int): (r: seq<T>)
    ensures |r| <= |ls| && r == ls[|ls| - |r|..]
  {
    if k >= 0 then Drop(ls, k) else Drop(ls, if |ls| + k >= 0 then |ls| + k else 0)
  }

  /**
   * The lines `context show [n]` prints: `lines[5:]`, or the last `n` of
   * them, `lines[5:][-n:]`, for a count other than 0.
   */
  function ShownLines(lines: seq<string>, n: int): seq<string> {
    var tail := Drop(lines, 5);
    if n != 0 then SliceFrom(tail, -n) else tail
  }

  /**
   * The effect of `input` on the prompt file's files and config, with `stamp`
   * the time stamp that `clear()` and `context save` name files after. The
   * result is the command's reply, "" for no command.
   */
  function CommandStep(s: State, input: string, stamp: string): Step<string> {
    VValid();
    match Classify(input)
    case Set(setting, arg) =>
      if arg.None? then Step(s, Ok(""))
      else
        (match SettingValue(setting, arg.value)
         case Raised(e) => Fail(s, e)
         case Ok(x) => Then(SetHeadersStep(V, s, s.config[Key(setting) := x]), "config set"))
    case ShowConfig => Then(ReadHeadersStep(V, s), "config shown")
    case UnlearnAll => Then(ClearStep(V, s, stamp), "unlearned interaction")
    case UnlearnLast => Then(ClearLastStep(V, s), "unlearned interaction")
    case ShowContext(count) =>
      if V.path !in s.files then Fail(s, FileNotFound)
      else if count.Some? && ParseInt(count.value).Raised? then Fail(s, ParseInt(count.value).exc)
      else Step(s, Ok("context shown"))
    case EditContext =>
      if "shell" !in s.config then Fail(s, KeyError("shell")) else Step(s, Ok("context shown"))
    case SaveContext(name) =>
      Then(SaveToStep(V, s, if name.Some? then name.value else stamp + ".txt"), "context saved")
    case ClearContext => Then(ClearStep(V, s, stamp), "unlearned interaction")
    case LoadContext(name) =>
      if name.None? then Step(s, Ok("context loaded")) else LoadSavedStep(s, name.value)
    case NotACommand => Step(s, Ok(""))
  }

  /** `get_command_result(input, prompt_file)`; a missing prompt file gives "" and does nothing. */
  method GetCommandResult(input: string, prompt: PromptFile?, stamp: string) returns (r: Result<string>)
    modifies if prompt == null then {} else {prompt, prompt.disk}
    ensures prompt == null ==> r == Ok("")
    ensures prompt != null ==> Step(prompt.Now(), r) == CommandStep(old(prompt.Now()), input, stamp)
  {
    if prompt == null {
      return Ok("");
    }
    VValid();
    match Classify(input)
    case Set(setting, arg) =>
      if arg.None? {
        return Ok("");
      }
      var x :- SettingValue(setting, arg.value);
      prompt.config := prompt.config[Key(setting) := x];
      var u :- prompt.SetHeaders(prompt.config);
      r := Ok("config set");
    case ShowConfig =>
      var c :- prompt.ReadHeaders();
      r := Ok("config shown");
    case UnlearnAll =>
      var u :- prompt.Clear(stamp);
      r := Ok("unlearned interaction");
    case UnlearnLast =>
      var u :- prompt.ClearLastInteraction();
      r := Ok("unlearned interaction");
    case ShowContext(count) =>
      var lines :- prompt.disk.ReadLines(V.path);
      if count.Some? {
        var n :- ParseInt(count.value);
      }
      r := Ok("context shown");
    case EditContext =>
      var sh :- Lookup(prompt.config, "shell");
      r := Ok("context shown");
    case SaveContext(name) =>
      var fileName := stamp + ".txt";
      if name.Some? {
        fileName := name.value;
      }
      var u :- prompt.SaveTo(fileName);
      r := Ok("context saved");
    case ClearContext =>
      var u :- prompt.Clear(stamp);
      r := Ok("unlearned interaction");
    case LoadContext(name) =>
      if name.Some? {
        var p := SavedPath(name.value);
        if prompt.disk.Exists(p) {
          var read := prompt.disk.ReadLines(p);
          prompt.disk.WriteLines(V.path, read.value);
        }
      }
      r := Ok("context loaded");
    case NotACommand =>
      r := Ok("");
  }

  // ---------------------------------------------------------------------------
  // Properties
  // ---------------------------------------------------------------------------

  /**
   * The reply is "" exactly when the input is no command or a `set` command
   * with other than three words, and then nothing changes.
   */
  lemma EmptyReplyIsNoCommand(s: State, input: string, stamp: string)
    ensures CommandStep(s, input, stamp).result == Ok("") <==>
      Classify(input) == NotACommand || (Classify(input).Set? && Classify(input).value.None?)
    ensures CommandStep(s, input, stamp).result == Ok("") ==> CommandStep(s, input, stamp).state == s
  {
  }

  /**
   * A `set` command with three words stores the converted third word under its
   * key, and the header block written then reads back with the new value.
   */
  lemma SetPersists(s: State, input: string, stamp: string, x: Value)
    requires Classify(input).Set? && Classify(input).value.Some?
    requires SettingValue(Classify(input).setting, Classify(input).value.value) == Ok(x)
    requires CommandStep(s, input, stamp).result.Ok?
    ensures var st := CommandStep(s, input, stamp);
      && st.result == Ok("config set")
      && st.state.config == s.config[Key(Classify(input).setting) := x]
      && (Conforms(st.state.config, Layout) ==>
            ReadHeadersStep(V, st.state).result == Ok(Project(st.state.config, Layout)))
  {
    VValid();
    var c := s.config[Key(Classify(input).setting) := x];
    SetHeadersConfig(V, s, c);
    if Conforms(c, Layout) {
      HeadersReadBack(V, s, c);
    }
  }

  /**
   * `show config` leaves the files alone; on a file whose headers were written
   * from a config of exactly the six header fields, it leaves that config as
   * it was. Without headers it puts the defaults in place.
   */
  lemma ShowConfigKeeps(s0: State, c: Config, input: string, stamp: string)
    requires Classify(input) == ShowConfig
    requires Conforms(c, Layout) && c.Keys == KeysOf(Layout) && SetHeadersStep(V, s0, c).result.Ok?
    ensures var s := SetHeadersStep(V, s0, c).state;
      CommandStep(s, input, stamp) == Step(s, Ok("config shown"))
  {
    VValid();
    HeadersReadBack(V, s0, c);
    SetHeadersConfig(V, s0, c);
  }

  /** Without a header block, `show config` resets the config to the defaults and changes no file. */
  lemma ShowConfigDefaults(s: State, input: string, stamp: string)
    requires Classify(input) == ShowConfig && HeadersPresent(s.files, V.path) == Ok(false)
    ensures CommandStep(s, input, stamp) == Step(s.(config := Defaults), Ok("config shown"))
  {
  }

  /**
   * `unlearn all` and `context clear` call `clear()`: the file is archived
   * verbatim and emptied, and then `clear()` raises, so the reply is never
   * given and the header block is gone.
   */
  lemma ClearingEmpties(s: State, input: string, stamp: string)
    requires Classify(input) == UnlearnAll || Classify(input) == ClearContext
    requires V.path in s.files && ReadHeadersStep(V, s).result.Ok?
    ensures var st := CommandStep(s, input, stamp);
      && st.result.Raised?
      && st.state.files == s.files[Archive(V, stamp) := s.files[V.path]][V.path := ""]
  {
    VValid();
    assert CommandStep(s, input, stamp) == Then(ClearStep(V, s, stamp), "unlearned interaction");
    ClearRaises(V, s, stamp);
  }

  /** `unlearn` without "all" drops the last two lines when there are more than one, else nothing. */
  lemma UnlearnLastTwo(s: State, input: string, stamp: string)
    requires Classify(input) == UnlearnLast && V.path in s.files
    ensures var st := CommandStep(s, input, stamp);
      var ls := Lines(s.files[V.path]);
      && st.result == Ok("unlearned interaction")
      && st.state.config == s.config
      && (|ls| <= 1 ==> st.state == s)
      && (|ls| > 1 ==> st.state.files == s.files[V.path := st.state.files[V.path]]
                       && Lines(st.state.files[V.path]) == ls[..|ls| - 2])
  {
    ClearLastSpec(V, s);
  }

  /**
   * `context save` copies the file verbatim to the contexts folder, under the
   * fourth word when there are exactly four, under the time stamp otherwise.
   */
  lemma SaveNames(s: State, input: string, stamp: string)
    requires Classify(input).SaveContext? && V.path in s.files
    ensures var name := if |Words(input)| == 4 then Words(input)[3] else stamp + ".txt";
      CommandStep(s, input, stamp) ==
        Step(s.(files := s.files[Saved(V, name) := s.files[V.path]]), Ok("context saved"))
  {
    var name := if |Words(input)| == 4 then Words(input)[3] else stamp + ".txt";
    var arg := Classify(input).name;
    assert arg == WordWhenCount(input, 4, 3);
    assert (if arg.Some? then arg.value else stamp + ".txt") == name;
    assert CommandStep(s, input, stamp) == Then(SaveToStep(V, s, name), "context saved");
    SaveToSpec(V, s, name);
  }

  /**
   * `context load` always replies "context loaded". With four words it copies
   * `saved/<name>.txt` verbatim over the working file when that exists;
   * otherwise nothing changes.
   */
  lemma LoadFromSaved(s: State, input: string, stamp: string)
    requires Classify(input).LoadContext?
    ensures var st := CommandStep(s, input, stamp);
      && st.result == Ok("context loaded")
      && st.state.config == s.config
      && (Classify(input).name.None? || SavedPath(Classify(input).name.value) !in s.files ==> st.state == s)
      && (Classify(input).name.Some? && SavedPath(Classify(input).name.value) in s.files ==>
            st.state.files == s.files[V.path := s.files[SavedPath(Classify(input).name.value)]])
  {
    if Classify(input).name.Some? && SavedPath(Classify(input).name.value) in s.files {
      JoinLines(s.files[SavedPath(Classify(input).name.value)]);
    }
  }

  /**
   * `context show` counts past five lines where the header block has six: on a
   * file with its header block, the first line shown (with no count, or a
   * count reaching back to the start) is the `token_count` header.
   */
  lemma ShowStartsAtCountHeader(lines: seq<string>, n: int)
    requires |lines| >= 6 && (n == 0 || n >= |lines| - 5)
    ensures ShownLines(lines, n) != [] && ShownLines(lines, n)[0] == lines[5]
  {
  }

  /** A positive count shows the last `n` lines after the first five, all of them when there are fewer. */
  lemma ShowLast(lines: seq<string>, n: int)
    requires n > 0
    ensures var tail := Drop(lines, 5);
      ShownLines(lines, n) == if n <= |tail| then tail[|tail| - n..] else tail
  {
  }
}
