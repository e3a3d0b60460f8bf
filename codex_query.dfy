/**
 * codex_query.py, the first single-file driver. The context file
 * `openai_completion_input.txt` starts with five header lines (engine,
 * temperature, max_tokens, shell, token_count) and an empty line; the
 * configuration lives in a dictionary passed from call to call; commands are
 * recognised by keyword; a query is appended to the file, whose two oldest
 * lines past the headers are dropped when the stored count and the query
 * together exceed 2048 words; the first line of the completion is appended
 * after it.
 */
module CodexQuery {
  import opened Outcomes
  import opened Text
  import opened TextLines
  import opened Headers
  import opened Disk
  import opened Shells
  import opened Completions
  import opened ContextFile
  import opened ContextLaws

  /** The working file, and the staging copy `initialize` writes beside it. */
  const Path := "openai_completion_input.txt"
  const Staging := "temp.txt"

  const Engine := "davinci-codex-msft"
  const Temperature := Float("0.5")
  const MaxTokens := Int(50)

  /** The five header lines, in the order `initialize` writes and `read_prompt_headers` reads them. */
  const Layout: seq<Field> := [
    Field("engine", "engine", AsStr),
    Field("temperature", "temperature", AsFloat),
    Field("max_tokens", "max_tokens", AsInt),
    Field("shell", "shell", AsStr),
    Field("token_count", "token_count", AsInt)]

  /** The replies of the commands, and the three after which the script stops. */
  const Unlearned := "unlearned interaction"
  const Shown := "context shown"
  const SavedReply := "context saved"
  const TemperatureSet := "temperature set"
  const MaxTokensSet := "max_tokens set"
  const ExitReplies := {Unlearned, Shown, SavedReply}

  /** The constants, the detected shell and a token count `n`: the dictionary of a fresh file. */
  function Defaults(shell: string, n: int): Config {
    map["engine" := Str(Engine), "temperature" := Temperature, "max_tokens" := MaxTokens,
        "shell" := Str(shell), "token_count" := Int(n)]
  }

  /** The five `'## <tag>: {}\n'.format(...)` lines `initialize` writes, before its empty line. */
  function HeaderBlock(shell: string, n: int): seq<string> {
    [HeaderLine("engine", Str(Engine)), HeaderLine("temperature", Temperature),
     HeaderLine("max_tokens", MaxTokens), HeaderLine("shell", Str(shell)),
     HeaderLine("token_count", Int(n))]
  }

  // ---------------------------------------------------------------------------
  // has_prompt_headers, read_prompt_headers, initialize
  // ---------------------------------------------------------------------------

  /** `has_prompt_headers()`: a missing file cannot be opened, an empty one has no `lines[0]`. */
  function HasPromptHeaders(files: map<string, string>): (r: Result<bool>)
    ensures r.Ok? ==> Path in files && Lines(files[Path]) != []
    ensures r.Raised? ==> r.exc == (if Path in files then IndexError else FileNotFound)
  {
    if Path !in files then Raised(FileNotFound)
    else
      var ls := Lines(files[Path]);
      if ls == [] then Raised(IndexError) else Ok(Contains(ls[0], Marker))
  }

  /** `read_prompt_headers()`: the defaults for a file without headers, else the five header values. */
  function ReadPromptHeaders(files: map<string, string>, shell: string): Result<Config> {
    var headed :- HasPromptHeaders(files);
    if !headed then Ok(Defaults(shell, 0)) else ParseHeaders(Lines(files[Path]), Layout)
  }

  /**
   * `initialize()`: create the file with the header block and an empty line,
   * or put them in front of a file without headers (counting its words, by way
   * of the staging file), then read the headers back.
   */
  function InitializeStep(files: map<string, string>, shell: string): FileStep<Config> {
    if Path !in files then
      var created := files[Path := Join(HeaderBlock(shell, 0) + ["\n"])];
      FileStep(created, ReadPromptHeaders(created, shell))
    else
      match HasPromptHeaders(files)
      case Raised(e) => FileStep(files, Raised(e))
      case Ok(headed) =>
        if headed then FileStep(files, ReadPromptHeaders(files, shell))
        else
          var ls := Lines(files[Path]);
          var text := Join(HeaderBlock(shell, SumWords(ls)) + ["\n"] + ls);
          var headedFiles := files[Staging := text][Path := text];
          FileStep(headedFiles, ReadPromptHeaders(headedFiles, shell))
  }

  method Initialize(disk: FileSystem, shell: string) returns (r: Result<Config>)
    modifies disk
    ensures FileStep(disk.files, r) == InitializeStep(old(disk.files), shell)
  {
    if !disk.Exists(Path) {
      disk.WriteLines(Path, HeaderBlock(shell, 0) + ["\n"]);
    } else {
      var headed := HasPromptHeaders(disk.files);
      if headed.Raised? {
        return Raised(headed.exc);
      }
      if !headed.value {
        var read := disk.ReadLines(Path);
        var count := CountWords(read.value);
        var text := Join(HeaderBlock(shell, count) + ["\n"] + read.value);
        disk.Write(Staging, text);
        disk.Write(Path, text);
      }
    }
    r := ReadPromptHeaders(disk.files, shell);
  }

  // ---------------------------------------------------------------------------
  // get_updated_prompt_file
  // ---------------------------------------------------------------------------

  /**
   * `get_updated_prompt_file(input, config)`: past 2048 words drop lines 5 and
   * 6 (the two oldest after the headers), append the input, and return
   * everything after the five header lines. The dictionary is not changed.
   */
  function UpdateStep(files: map<string, string>, config: Config, input: string): FileStep<string> {
    match Lookup(config, "token_count")
    case Raised(e) => FileStep(files, Raised(e))
    case Ok(n) =>
      if !n.Int? then FileStep(files, Raised(TypeError))
      else
        var refresh := n.i + WordCount(input) > TokenLimit;
        if refresh && Path !in files then FileStep(files, Raised(FileNotFound))
        else
          var trimmed := if refresh then
                           var ls := Lines(files[Path]);
                           files[Path := Join(Take(ls, 5) + Drop(ls, 7))]
                         else files;
          var appended := trimmed[Path := Contents(trimmed, Path) + input];
          FileStep(appended, Ok(Join(Drop(Lines(appended[Path]), 5))))
  }

  method GetUpdatedPromptFile(disk: FileSystem, input: string, config: Config) returns (r: Result<string>)
    modifies disk
    ensures FileStep(disk.files, r) == UpdateStep(old(disk.files), config, input)
  {
    var n :- Lookup(config, "token_count");
    if !n.Int? {
      return Raised(TypeError);
    }
    if n.i + WordCount(input) > TokenLimit {
      var lines :- disk.ReadLines(Path);
      disk.WriteLines(Path, Take(lines, 5) + Drop(lines, 7));
    }
    disk.Append(Path, input);
    var lines := disk.ReadLines(Path);
    r := Ok(Join(Drop(lines.value, 5)));
  }

  // ---------------------------------------------------------------------------
  // get_command_result
  // ---------------------------------------------------------------------------

  datatype Command =
    | SetTemperature(value: Option<string>)  // the third word, when there are exactly three
    | SetMaxTokens(value: Option<string>)
    | UnlearnAll
    | UnlearnLast
    | ShowContext(count: Option<string>)     // the fourth word, when there are more than three
    | EditContext
    | SaveContext(threeWords: bool)          // `split()[3]` is read when there are exactly three words
    | ClearContext
    | NotACommand

  /** The keyword chain of `get_command_result`, in the source's order. */
  function Classify(input: string): Command {
    if Contains(input, "set") && Contains(input, "temperature") then SetTemperature(WordWhenCount(input, 3, 2))
    else if Contains(input, "set") && Contains(input, "max_tokens") then SetMaxTokens(WordWhenCount(input, 3, 2))
    else if Contains(input, "unlearn") then (if Contains(input, "all") then UnlearnAll else UnlearnLast)
    else if !Contains(input, "context") then NotACommand
    else if Contains(input, "show") then
      (var ws := Words(input); ShowContext(if |ws| > 3 then Some(ws[3]) else None))
    else if Contains(input, "edit") then EditContext
    else if Contains(input, "save") then SaveContext(|Words(input)| == 3)
    else if Contains(input, "clear") then ClearContext
    else NotACommand
  }

  /**
   * `Path(__file__).with_name(filename)` for the saved copy under PowerShell:
   * `saved\<stamp>.txt`, one plain name on a POSIX path. For every other
   * shell the name is `saved/<stamp>.txt`, and `with_name` raises
   * `ValueError` on a name holding a `/` (see `CommandStep`).
   */
  function SaveTarget(stamp: string): string {
    "saved\\" + WithTxt(stamp + ".txt")
  }

  /**
   * `get_command_result(input, config)`: the reply ("" for no command) and
   * the dictionary, which only the two `set` commands change.
   */
  function CommandStep(s: State, input: string, stamp: string): Step<string> {
    match Classify(input)
    case SetTemperature(t) =>
      if t.None? then Step(s, Ok(""))
      else Step(s.(config := s.config["temperature" := Float(t.value)]), Ok(TemperatureSet))
    case SetMaxTokens(t) =>
      if t.None? then Step(s, Ok(""))
      else
        (match ParseInt(t.value)
         case Raised(e) => Fail(s, e)
         case Ok(n) => Step(s.(config := s.config["max_tokens" := Int(n)]), Ok(MaxTokensSet)))
    case UnlearnAll => Step(s.(files := s.files[Path := ""]), Ok(Unlearned))
    case UnlearnLast =>
      if Path !in s.files then Fail(s, FileNotFound)
      else
        var ls := Lines(s.files[Path]);
        if |ls| > 1 then Step(s.(files := s.files[Path := Join(ls[..|ls| - 2])]), Ok(Unlearned))
        else Step(s, Ok(Unlearned))
    case ShowContext(count) =>
      if Path !in s.files then Fail(s, FileNotFound)
      else if count.None? then Step(s, Ok(Shown))
      else
        (match ParseInt(count.value)
         case Raised(e) => Fail(s, e)
         case Ok(_) => Step(s, Ok(Shown)))
    case EditContext => Step(s, Ok(Shown))
    case SaveContext(threeWords) =>
      if threeWords then Fail(s, IndexError)
      else if Path !in s.files then Fail(s, FileNotFound)
      else
        (match Lookup(s.config, "shell")
         case Raised(e) => Fail(s, e)
         case Ok(sh) =>
           if sh != Str("powershell") then Fail(s, ValueError)
           else Step(s.(files := s.files[SaveTarget(stamp) := Join(Lines(s.files[Path]))]), Ok(SavedReply)))
    case ClearContext => Step(s.(files := s.files[Path := ""]), Ok(Unlearned))
    case NotACommand => Step(s, Ok(""))
  }

  method GetCommandResult(disk: FileSystem, input: string, config: Config, stamp: string)
    returns (r: Result<string>, updated: Config)
    modifies disk
    ensures Step(State(disk.files, updated), r) == CommandStep(State(old(disk.files), config), input, stamp)
  {
    updated := config;
    match Classify(input)
    case SetTemperature(t) =>
      if t.None? {
        return Ok(""), config;
      }
      updated := config["temperature" := Float(t.value)];
      r := Ok(TemperatureSet);
    case SetMaxTokens(t) =>
      if t.None? {
        return Ok(""), config;
      }
      var n := ParseInt(t.value);
      if n.Raised? {
        return Raised(n.exc), config;
      }
      updated := config["max_tokens" := Int(n.value)];
      r := Ok(MaxTokensSet);
    case UnlearnAll =>
      disk.Write(Path, "");
      r := Ok(Unlearned);
    case UnlearnLast =>
      var lines :- disk.ReadLines(Path);
      if |lines| > 1 {
        disk.WriteLines(Path, lines[..|lines| - 2]);
      }
      r := Ok(Unlearned);
    case ShowContext(count) =>
      var lines :- disk.ReadLines(Path);
      if count.Some? {
        var n :- ParseInt(count.value);
      }
      r := Ok(Shown);
    case EditContext =>
      r := Ok(Shown);
    case SaveContext(threeWords) =>
      if threeWords {
        return Raised(IndexError), config;
      }
      var lines :- disk.ReadLines(Path);
      var sh :- Lookup(config, "shell");
      if sh != Str("powershell") {
        return Raised(ValueError), config;
      }
      disk.WriteLines(SaveTarget(stamp), lines);
      r := Ok(SavedReply);
    case ClearContext =>
      disk.Write(Path, "");
      r := Ok(Unlearned);
    case NotACommand =>
      r := Ok("");
  }

  // ---------------------------------------------------------------------------
  // The script: get_prompt, the shell prefix, the completion
  // ---------------------------------------------------------------------------

  /** The line that primes the model for the shell in the dictionary (`'#' + shell` needs a string). */
  function Prefix(shell: Value): Result<string> {
    if shell == Str("zsh") then Ok("#!/bin/zsh\n\n")
    else if shell == Str("bash") then Ok("#!/bin/bash\n\n")
    else if shell == Str("powershell") then Ok("<# powershell #>")
    else if shell.Str? then Ok("#" + shell.s + "\n\n")
    else Raised(TypeError)
  }

  /**
   * `get_prompt(config)`: the command's reply, or for a line that is no
   * command the context after appending it.
   */
  function PromptStep(s: State, entry: string, stamp: string): Step<string> {
    var cmd := CommandStep(s, entry, stamp);
    if cmd.result == Ok("") then
      var got := UpdateStep(cmd.state.files, cmd.state.config, entry);
      Step(cmd.state.(files := got.files), got.result)
    else cmd
  }

  method GetPrompt(disk: FileSystem, entry: string, config: Config, stamp: string)
    returns (r: Result<string>, updated: Config)
    modifies disk
    ensures Step(State(disk.files, updated), r) == PromptStep(State(old(disk.files), config), entry, stamp)
  {
    r, updated := GetCommandResult(disk, entry, config, stamp);
    if r == Ok("") {
      r := GetUpdatedPromptFile(disk, entry, updated);
    }
  }

  /**
   * The rest of the script after `get_prompt`: stop on the three exit
   * replies, otherwise send the prefixed prompt and append the first line of
   * the answer `completion` to the file.
   */
  function QueryStep(files: map<string, string>, config: Config, prompt: string, completion: string)
    : FileStep<Option<string>>
  {
    if prompt in ExitReplies then FileStep(files, Ok(None))
    else
      match Lookup(config, "shell")
      case Raised(e) => FileStep(files, Raised(e))
      case Ok(sh) =>
        match Prefix(sh)
        case Raised(e) => FileStep(files, Raised(e))
        case Ok(prefix) =>
          FileStep(files[Path := Contents(files, Path) + FirstLine(completion) + "\n"], Ok(Some(prefix + prompt)))
  }

  method Query(disk: FileSystem, config: Config, prompt: string, completion: string)
    returns (r: Result<Option<string>>)
    modifies disk
    ensures FileStep(disk.files, r) == QueryStep(old(disk.files), config, prompt, completion)
  {
    if prompt in ExitReplies {
      return Ok(None);
    }
    var sh :- Lookup(config, "shell");
    var prefix :- Prefix(sh);
    var before := disk.files;
    disk.Append(Path, FirstLine(completion) + "\n");
    assert Contents(before, Path) + (FirstLine(completion) + "\n") == Contents(before, Path) + FirstLine(completion) + "\n";
    r := Ok(Some(prefix + prompt));
  }

  /**
   * One run of the script for the parent process `processName`, the line
   * `entry` typed at the prompt (with its '\n') and the model's answer
   * `completion`: None when a command ended the run, else the query sent.
   */
  function RunStep(files: map<string, string>, processName: string, entry: string,
                   completion: string, stamp: string): FileStep<Option<string>>
  {
    var init := InitializeStep(files, ShellOf(processName));
    match init.result
    case Raised(e) => FileStep(init.files, Raised(e))
    case Ok(config) =>
      var got := PromptStep(State(init.files, config), entry, stamp);
      match got.result
      case Raised(e) => FileStep(got.state.files, Raised(e))
      case Ok(prompt) => QueryStep(got.state.files, got.state.config, prompt, completion)
  }

  method Run(disk: FileSystem, processName: string, entry: string, completion: string, stamp: string)
    returns (r: Result<Option<string>>)
    modifies disk
    ensures FileStep(disk.files, r) == RunStep(old(disk.files), processName, entry, completion, stamp)
  {
    var config :- Initialize(disk, ShellOf(processName));
    var reply, updated := GetPrompt(disk, entry, config, stamp);
    var prompt :- reply;
    r := Query(disk, updated, prompt, completion);
  }

  // ---------------------------------------------------------------------------
  // Properties
  // ---------------------------------------------------------------------------

  /** The lines `initialize` writes are the header block of the defaults with the count `n`. */
  lemma HeaderBlockOfDefaults(shell: string, n: int)
    ensures HeaderLines(Defaults(shell, n), Layout) == Ok(HeaderBlock(shell, n))
  {
    var c := Defaults(shell, n);
    FiveLines(c, Layout[0], Layout[1], Layout[2], Layout[3], Layout[4]);
    assert Layout == [Layout[0], Layout[1], Layout[2], Layout[3], Layout[4]];
  }

  /** The header block of a five-field layout whose keys are all present. */
  lemma FiveLines(c: Config, a: Field, b: Field, d: Field, e: Field, f: Field)
    requires a.key in c && b.key in c && d.key in c && e.key in c && f.key in c
    ensures HeaderLines(c, [a, b, d, e, f]) ==
      Ok([HeaderLine(a.tag, c[a.key]), HeaderLine(b.tag, c[b.key]), HeaderLine(d.tag, c[d.key]),
          HeaderLine(e.tag, c[e.key]), HeaderLine(f.tag, c[f.key])])
  {
    var layout := [a, b, d, e, f];
    HeaderLinesSpec(c, layout);
    assert forall i :: 0 <= i < |layout| ==> layout[i].key in c;
    var hs := HeaderLines(c, layout).value;
    assert hs[0] == HeaderLine(a.tag, c[a.key]) && hs[1] == HeaderLine(b.tag, c[b.key]);
    assert hs[2] == HeaderLine(d.tag, c[d.key]) && hs[3] == HeaderLine(e.tag, c[e.key]);
    assert hs[4] == HeaderLine(f.tag, c[f.key]);
    assert hs == [HeaderLine(a.tag, c[a.key]), HeaderLine(b.tag, c[b.key]), HeaderLine(d.tag, c[d.key]),
                  HeaderLine(e.tag, c[e.key]), HeaderLine(f.tag, c[f.key])];
  }

  lemma ConstantsClean()
    ensures Clean(Engine) && Clean(Temperature.text)
  {
  }

  lemma LayoutPlain()
    ensures PlainTags(Layout)
  {
    forall i | 0 <= i < |Layout| ensures ':' !in Layout[i].tag && '\n' !in Layout[i].tag {
      KnownTagPlain(Layout[i].tag);
    }
  }

  lemma DefaultsKeys(shell: string, n: int)
    ensures forall i :: 0 <= i < |Layout| ==> Layout[i].key in Defaults(shell, n)
    ensures Defaults(shell, n).Keys == KeysOf(Layout)
  {
    var c := Defaults(shell, n);
    forall k | k in c ensures k in KeysOf(Layout) {
      var i := if k == "engine" then 0 else if k == "temperature" then 1 else if k == "max_tokens" then 2
               else if k == "shell" then 3 else 4;
      assert Layout[i].key == k;
    }
  }

  /** The defaults fill the five header lines with values that read back unchanged. */
  lemma DefaultsConform(shell: string, n: int)
    requires Clean(shell)
    ensures Conforms(Defaults(shell, n), Layout) && PlainTags(Layout)
    ensures Project(Defaults(shell, n), Layout) == Defaults(shell, n)
  {
    DefaultsFit(shell, n);
    LayoutPlain();
    DefaultsProject(shell, n);
  }

  lemma DefaultsFit(shell: string, n: int)
    requires Clean(shell)
    ensures Conforms(Defaults(shell, n), Layout)
  {
    var c := Defaults(shell, n);
    ConstantsClean();
    forall i | 0 <= i < |Layout| ensures Layout[i].key in c && Fits(c[Layout[i].key], Layout[i].kind) {
      if i == 0 {
        assert c[Layout[i].key] == Str(Engine);
      } else if i == 1 {
        assert c[Layout[i].key] == Temperature;
      } else if i == 2 {
        assert c[Layout[i].key] == MaxTokens;
      } else if i == 3 {
        assert c[Layout[i].key] == Str(shell);
      } else {
        assert c[Layout[i].key] == Int(n);
      }
    }
  }

  lemma DefaultsProject(shell: string, n: int)
    ensures forall i :: 0 <= i < |Layout| ==> Layout[i].key in Defaults(shell, n)
    ensures Project(Defaults(shell, n), Layout) == Defaults(shell, n)
  {
    DefaultsKeys(shell, n);
    ProjectWhole(Defaults(shell, n), Layout);
  }

  // One lemma per header line keeps each literal line out of the others' proofs.

  lemma EngineLineClosed()
    ensures IsLine(HeaderLine("engine", Str(Engine))) && Terminated(HeaderLine("engine", Str(Engine)))
  {
    HeaderLineIsLine("engine", Str(Engine));
  }

  lemma TemperatureLineClosed()
    ensures IsLine(HeaderLine("temperature", Temperature)) && Terminated(HeaderLine("temperature", Temperature))
  {
    HeaderLineIsLine("temperature", Temperature);
  }

  lemma MaxTokensLineClosed()
    ensures IsLine(HeaderLine("max_tokens", MaxTokens)) && Terminated(HeaderLine("max_tokens", MaxTokens))
  {
    CountNoBreaks(50);
    HeaderLineIsLine("max_tokens", MaxTokens);
  }

  lemma ShellLineClosed(shell: string)
    requires '\n' !in shell
    ensures IsLine(HeaderLine("shell", Str(shell))) && Terminated(HeaderLine("shell", Str(shell)))
  {
    HeaderLineIsLine("shell", Str(shell));
  }

  lemma CountLineClosed(n: int)
    ensures IsLine(HeaderLine("token_count", Int(n))) && Terminated(HeaderLine("token_count", Int(n)))
  {
    CountNoBreaks(n);
    HeaderLineIsLine("token_count", Int(n));
  }

  lemma SixClosed(a: string, b: string, c: string, d: string, e: string, f: string)
    requires IsLine(a) && Terminated(a) && IsLine(b) && Terminated(b) && IsLine(c) && Terminated(c)
    requires IsLine(d) && Terminated(d) && IsLine(e) && Terminated(e) && IsLine(f) && Terminated(f)
    ensures Closed([a, b, c, d, e, f])
  {
    var ls := [a, b, c, d, e, f];
    assert ls[0] == a && ls[1] == b && ls[2] == c && ls[3] == d && ls[4] == e && ls[5] == f;
  }

  /** Every header line and the empty line after them end with their only line break. */
  lemma BlockClosed(shell: string, n: int)
    requires '\n' !in shell
    ensures Closed(HeaderBlock(shell, n) + ["\n"])
  {
    EngineLineClosed();
    TemperatureLineClosed();
    MaxTokensLineClosed();
    ShellLineClosed(shell);
    CountLineClosed(n);
    SixClosed(HeaderLine("engine", Str(Engine)), HeaderLine("temperature", Temperature),
              HeaderLine("max_tokens", MaxTokens), HeaderLine("shell", Str(shell)),
              HeaderLine("token_count", Int(n)), "\n");
  }

  /** A text that starts with the header block reads as headed, whatever follows. */
  lemma BlockFirst(files: map<string, string>, shell: string, n: int, rest: seq<string>)
    requires Path in files && files[Path] == Join(HeaderBlock(shell, n) + rest)
    ensures HasPromptHeaders(files) == Ok(true)
  {
    var hs := HeaderBlock(shell, n) + rest;
    var first := HeaderLine("engine", Str(Engine));
    assert hs[0] == first;
    HeaderLineIsLine("engine", Str(Engine));
    LinesCons(first, Join(hs[1..]));
    EngineLine(Engine);
  }

  /** The header block with the count `n`, an empty line and then `body` reads back line by line. */
  lemma BlockLines(shell: string, n: int, body: seq<string>)
    requires '\n' !in shell && WellFormed(body)
    ensures Lines(Join(HeaderBlock(shell, n) + ["\n"] + body)) == HeaderBlock(shell, n) + ["\n"] + body
  {
    var hs := HeaderBlock(shell, n) + ["\n"];
    BlockClosed(shell, n);
    Stack(hs, body);
    LinesJoin(hs + body);
  }

  /** A file made of the header block with the count `n`, an empty line and `body` reads as the defaults with that count. */
  lemma ReadBlock(files: map<string, string>, shell: string, n: int, body: seq<string>)
    requires Clean(shell) && WellFormed(body)
    requires Path in files && files[Path] == Join(HeaderBlock(shell, n) + ["\n"] + body)
    ensures ReadPromptHeaders(files, shell) == Ok(Defaults(shell, n))
  {
    var c := Defaults(shell, n);
    var rest := ["\n"] + body;
    BlockLines(shell, n, body);
    assert Lines(files[Path]) == HeaderBlock(shell, n) + rest;
    BlockFirst(files, shell, n, rest);
    HeaderBlockOfDefaults(shell, n);
    DefaultsConform(shell, n);
    HeadersRoundTrip(c, Layout, rest);
    assert ParseHeaders(HeaderBlock(shell, n) + rest, Layout) == Ok(c);
  }

  /**
   * Without a context file, `initialize` creates one holding the five header
   * lines with a zero count and an empty line, changes no other file, and
   * returns the defaults with the detected shell.
   */
  lemma FreshFile(files: map<string, string>, shell: string)
    requires Path !in files && Clean(shell)
    ensures InitializeStep(files, shell).files == files[Path := Join(HeaderBlock(shell, 0) + ["\n"])]
    ensures Lines(InitializeStep(files, shell).files[Path]) == HeaderBlock(shell, 0) + ["\n"]
    ensures InitializeStep(files, shell).result == Ok(Defaults(shell, 0))
  {
    var hs := HeaderBlock(shell, 0) + ["\n"];
    assert hs + [] == hs;
    BlockLines(shell, 0, []);
    ReadBlock(files[Path := Join(hs)], shell, 0, []);
  }

  /**
   * A file without headers gets the header block, with its own word count as
   * the token count, and an empty line put in front of its unchanged lines;
   * the staging file holds the same text.
   */
  lemma HeadersPrepended(files: map<string, string>, shell: string)
    requires HasPromptHeaders(files) == Ok(false) && Clean(shell)
    ensures Lines(InitializeStep(files, shell).files[Path]) ==
            HeaderBlock(shell, WordCount(files[Path])) + ["\n"] + Lines(files[Path])
    ensures InitializeStep(files, shell).files[Staging] == InitializeStep(files, shell).files[Path]
    ensures InitializeStep(files, shell).result == Ok(Defaults(shell, WordCount(files[Path])))
  {
    var ls := Lines(files[Path]);
    TextWords(files[Path]);
    LinesWellFormed(files[Path]);
    var text := Join(HeaderBlock(shell, SumWords(ls)) + ["\n"] + ls);
    BlockLines(shell, SumWords(ls), ls);
    ReadBlock(files[Staging := text][Path := text], shell, SumWords(ls), ls);
  }

  /** An empty context file makes `initialize` raise `IndexError` and touch nothing. */
  lemma EmptyFileRaises(files: map<string, string>, shell: string)
    requires Path in files && files[Path] == ""
    ensures InitializeStep(files, shell) == FileStep(files, Raised(IndexError))
  {
  }

  /** `initialize` leaves a file it has initialised as it is and reads the same dictionary again. */
  lemma InitializeStable(files: map<string, string>, shell: string)
    ensures InitializeStep(InitializeStep(files, shell).files, shell) == InitializeStep(files, shell)
  {
    var st := InitializeStep(files, shell);
    if Path !in files {
      BlockFirst(st.files, shell, 0, ["\n"]);
    } else if HasPromptHeaders(files) == Ok(false) {
      var ls := Lines(files[Path]);
      assert HeaderBlock(shell, SumWords(ls)) + ["\n"] + ls == HeaderBlock(shell, SumWords(ls)) + (["\n"] + ls);
      BlockFirst(st.files, shell, SumWords(ls), ["\n"] + ls);
    }
  }

  /** Lines 0-4 and the kept lines after them, of a file whose lines all end with a line break. */
  lemma KeptClosed(ls: seq<string>, k: nat)
    requires Closed(ls) && 5 <= |ls| && (k == 5 || k == 7)
    ensures Closed(Take(ls, 5) + Drop(ls, k))
  {
    var hs := Take(ls, 5) + Drop(ls, k);
    forall i | 0 <= i < |hs| ensures IsLine(hs[i]) && Terminated(hs[i]) {
      if i < 5 {
        assert hs[i] == ls[i];
      } else {
        assert hs[i] == ls[i - 5 + k];
      }
    }
  }

  /**
   * On a file of at least five lines that ends with a line break, the update
   * keeps the five header lines, drops lines 5 and 6 exactly when the stored
   * count and the input's words together exceed 2048, appends the input, and
   * returns the kept lines followed by the input.
   */
  lemma UpdatedPrompt(files: map<string, string>, config: Config, input: string)
    requires Path in files && Terminated(files[Path]) && |Lines(files[Path])| >= 5
    requires "token_count" in config && config["token_count"].Int?
    ensures var ls := Lines(files[Path]);
      var kept := if config["token_count"].i + WordCount(input) > TokenLimit then Drop(ls, 7) else Drop(ls, 5);
      && UpdateStep(files, config, input).files == files[Path := Join(Take(ls, 5) + kept) + input]
      && Lines(UpdateStep(files, config, input).files[Path]) == Take(ls, 5) + kept + Lines(input)
      && UpdateStep(files, config, input).result == Ok(Join(kept) + input)
  {
    var ls := Lines(files[Path]);
    var refresh := config["token_count"].i + WordCount(input) > TokenLimit;
    var kept := if refresh then Drop(ls, 7) else Drop(ls, 5);
    var hs := Take(ls, 5) + kept;
    LinesWellFormed(files[Path]);
    LinesTerminated(files[Path]);
    KeptClosed(ls, if refresh then 7 else 5);
    if !refresh {
      assert hs == ls;
      JoinLines(files[Path]);
    }
    assert Drop(hs, 5) == kept;
    AppendAfterKept(hs, input);
    var trimmed := files[Path := Join(hs)];
    if refresh {
      assert UpdateStep(files, config, input) ==
        FileStep(trimmed[Path := Join(hs) + input], Ok(Join(Drop(Lines(Join(hs) + input), 5))));
    } else {
      assert trimmed == files;
      assert UpdateStep(files, config, input) ==
        FileStep(files[Path := files[Path] + input], Ok(Join(Drop(Lines(files[Path] + input), 5))));
    }
  }

  /** Appending to the text of closed lines: its lines, and the text after the first five. */
  lemma AppendAfterKept(hs: seq<string>, input: string)
    requires Closed(hs) && |hs| >= 5
    ensures Lines(Join(hs) + input) == hs + Lines(input)
    ensures Join(Drop(Lines(Join(hs) + input), 5)) == Join(Drop(hs, 5)) + input
  {
    JoinedLinesAppend(hs, input);
    assert Drop(hs + Lines(input), 5) == Drop(hs, 5) + Lines(input);
    JoinAppend(Drop(hs, 5), Lines(input));
    JoinLines(input);
  }

  /**
   * The reply is "" exactly for a line that is no command or a `set` command
   * without exactly three words, and then nothing changes.
   */
  lemma EmptyReplyIsNoCommand(s: State, input: string, stamp: string)
    ensures CommandStep(s, input, stamp).result == Ok("") <==>
      Classify(input) == NotACommand ||
      (Classify(input).SetTemperature? && Classify(input).value.None?) ||
      (Classify(input).SetMaxTokens? && Classify(input).value.None?)
    ensures CommandStep(s, input, stamp).result == Ok("") ==> CommandStep(s, input, stamp).state == s
  {
  }

  /**
   * Only the two `set` commands change the dictionary, and they change no
   * file: a setting lasts for the rest of the run and is never written.
   */
  lemma SetOnlyInMemory(s: State, input: string, stamp: string)
    ensures CommandStep(s, input, stamp).state.config != s.config ==>
      Classify(input).SetTemperature? || Classify(input).SetMaxTokens?
    ensures Classify(input).SetTemperature? || Classify(input).SetMaxTokens? ==>
      CommandStep(s, input, stamp).state.files == s.files
  {
  }

  /**
   * `unlearn all` and `clear context` empty the context file, after which the
   * next start of the script raises `IndexError` in `initialize`.
   */
  lemma ClearingBreaksNextStart(s: State, input: string, stamp: string, shell: string)
    requires Classify(input) == UnlearnAll || Classify(input) == ClearContext
    ensures CommandStep(s, input, stamp) == Step(s.(files := s.files[Path := ""]), Ok(Unlearned))
    ensures InitializeStep(CommandStep(s, input, stamp).state.files, shell).result == Raised(IndexError)
  {
    EmptyFileRaises(s.files[Path := ""], shell);
  }

  /**
   * `unlearn` removes the last two lines of a file with more than one line:
   * the rest reads back unchanged and the two removed lines complete it.
   */
  lemma UnlearnDropsTwo(s: State, input: string, stamp: string)
    requires Classify(input) == UnlearnLast && Path in s.files && |Lines(s.files[Path])| > 1
    ensures var ls := Lines(s.files[Path]);
      var after := CommandStep(s, input, stamp).state.files[Path];
      && CommandStep(s, input, stamp).result == Ok(Unlearned)
      && Lines(after) == ls[..|ls| - 2]
      && after + ls[|ls| - 2] + ls[|ls| - 1] == s.files[Path]
  {
    DropLastTwo(s.files[Path]);
  }

  /**
   * `save context` with exactly three words raises `IndexError` (it reads a
   * fourth word). Otherwise, once the file is read, every shell but
   * PowerShell raises `ValueError` from `with_name` and writes nothing;
   * under PowerShell the file is copied verbatim to a `.txt` file named
   * after the time stamp, and nothing else changes.
   */
  lemma SaveSpec(s: State, input: string, stamp: string)
    requires Classify(input).SaveContext?
    ensures |Words(input)| == 3 ==> CommandStep(s, input, stamp) == Fail(s, IndexError)
    ensures |Words(input)| != 3 && Path !in s.files ==> CommandStep(s, input, stamp) == Fail(s, FileNotFound)
    ensures |Words(input)| != 3 && Path in s.files && "shell" !in s.config ==> CommandStep(s, input, stamp) == Fail(s, KeyError("shell"))
    ensures |Words(input)| != 3 && Path in s.files && "shell" in s.config && s.config["shell"] != Str("powershell") ==>
      CommandStep(s, input, stamp) == Fail(s, ValueError)
    ensures |Words(input)| != 3 && Path in s.files && "shell" in s.config && s.config["shell"] == Str("powershell") ==>
      var target := SaveTarget(stamp);
      && CommandStep(s, input, stamp) == Step(s.(files := s.files[target := s.files[Path]]), Ok(SavedReply))
      && EndsWith(target, ".txt") && target != Path
  {
    if |Words(input)| != 3 && Path in s.files && "shell" in s.config && s.config["shell"] == Str("powershell") {
      JoinLines(s.files[Path]);
      var target := SaveTarget(stamp);
      assert target[0] == 's' && Path[0] == 'o';
    }
  }

  /**
   * Every prefix but the PowerShell one is a comment line followed by an
   * empty line; the PowerShell one has no line break at all.
   */
  lemma PrefixLines(shell: string)
    requires '\n' !in shell
    ensures Prefix(Str(shell)).Ok?
    ensures shell == "powershell" ==> '\n' !in Prefix(Str(shell)).value
    ensures shell != "powershell" ==>
      var p := Prefix(Str(shell)).value;
      |p| >= 3 && p[0] == '#' && p[|p| - 2..] == "\n\n" && '\n' !in p[..|p| - 2]
  {
    var p := Prefix(Str(shell)).value;
    if shell != "zsh" && shell != "bash" && shell != "powershell" {
      assert p == "#" + shell + "\n\n";
      assert p[..|p| - 2] == "#" + shell;
    }
  }

  /** What the end of the script does with the prompt: stop on the three exit replies, else send it after the prefix. */
  lemma QuerySpec(files: map<string, string>, config: Config, prompt: string, completion: string)
    ensures prompt in ExitReplies ==> QueryStep(files, config, prompt, completion) == FileStep(files, Ok(None))
    ensures prompt !in ExitReplies && QueryStep(files, config, prompt, completion).result.Ok? ==>
      var q := QueryStep(files, config, prompt, completion).result.value;
      && q.Some? && EndsWith(q.value, prompt)
      && QueryStep(files, config, prompt, completion).files == files[Path := Contents(files, Path) + FirstLine(completion) + "\n"]
  {
    if prompt !in ExitReplies && QueryStep(files, config, prompt, completion).result.Ok? {
      var prefix := Prefix(config["shell"]).value;
      assert (prefix + prompt)[|prefix|..] == prompt;
    }
  }

  /** The replies of the context commands are exactly the three that end the run. */
  lemma ContextReplies(s: State, entry: string, stamp: string)
    requires Classify(entry) != NotACommand && !Classify(entry).SetTemperature? && !Classify(entry).SetMaxTokens?
    ensures PromptStep(s, entry, stamp) == CommandStep(s, entry, stamp)
    ensures CommandStep(s, entry, stamp).result.Ok? ==> CommandStep(s, entry, stamp).result.value in ExitReplies
  {
  }

  /**
   * The context commands end the run: when a run that received one finishes
   * without an exception, nothing is sent to the model and no answer is
   * appended.
   */
  lemma ContextCommandsEndTheRun(files: map<string, string>, processName: string, entry: string,
                                 completion: string, stamp: string)
    requires Classify(entry) != NotACommand && !Classify(entry).SetTemperature? && !Classify(entry).SetMaxTokens?
    ensures RunStep(files, processName, entry, completion, stamp).result.Ok? ==>
      RunStep(files, processName, entry, completion, stamp).result == Ok(None)
  {
    var init := InitializeStep(files, ShellOf(processName));
    if init.result.Ok? {
      var s := State(init.files, init.result.value);
      ContextReplies(s, entry, stamp);
      var got := PromptStep(s, entry, stamp);
      if got.result.Ok? {
        QuerySpec(got.state.files, got.state.config, got.result.value, completion);
      }
    }
  }

  /**
   * A `set temperature` command is not among the replies that end the run,
   * so its reply "temperature set" is itself sent to the model, after the
   * shell prefix, and the answer to it is appended to the context file.
   */
  lemma SetReplyIsSent(files: map<string, string>, processName: string, entry: string,
                       completion: string, stamp: string)
    requires Classify(entry).SetTemperature? && Classify(entry).value.Some?
    ensures var r := RunStep(files, processName, entry, completion, stamp).result;
      r.Ok? ==> r.value.Some? && EndsWith(r.value.value, TemperatureSet)
  {
    var init := InitializeStep(files, ShellOf(processName));
    if init.result.Ok? {
      var s := State(init.files, init.result.value);
      var got := PromptStep(s, entry, stamp);
      assert got.result == Ok(TemperatureSet);
      QuerySpec(got.state.files, got.state.config, TemperatureSet, completion);
    }
  }

  /** A line without an 'm', a 'u' and a 'c' holds none of the keywords that decide, so it is no command. */
  lemma NoKeywordLetters(input: string)
    requires 'm' !in input && 'u' !in input && 'c' !in input
    ensures Classify(input) == NotACommand
  {
    AbsentLetter(input, "temperature", 'm');
    AbsentLetter(input, "max_tokens", 'm');
    AbsentLetter(input, "unlearn", 'u');
    AbsentLetter(input, "context", 'c');
  }

  /** After six closed lines ending with an empty one and a zero count, the update appends the line and returns it after the empty line. */
  lemma UpdateAfterBlock(files: map<string, string>, config: Config, hs: seq<string>, entry: string)
    requires Closed(hs) && |hs| == 6 && hs[5] == "\n"
    requires "token_count" in config && config["token_count"] == Int(0) && WordCount(entry) <= TokenLimit
    ensures UpdateStep(files[Path := Join(hs)], config, entry) == FileStep(files[Path := Join(hs) + entry], Ok("\n" + entry))
  {
    var created := files[Path := Join(hs)];
    BlockText(hs);
    UpdateWithinLimit(created, config, entry);
    assert created[Path := Join(hs) + entry] == files[Path := Join(hs) + entry];
  }

  /** Within the limit the update only appends the input, and returns what follows the five header lines. */
  lemma UpdateWithinLimit(files: map<string, string>, config: Config, input: string)
    requires Path in files && Terminated(files[Path]) && |Lines(files[Path])| >= 5
    requires "token_count" in config && config["token_count"].Int?
    requires config["token_count"].i + WordCount(input) <= TokenLimit
    ensures UpdateStep(files, config, input) ==
      FileStep(files[Path := files[Path] + input], Ok(Join(Drop(Lines(files[Path]), 5)) + input))
  {
    var ls := Lines(files[Path]);
    UpdatedPrompt(files, config, input);
    assert Take(ls, 5) + Drop(ls, 5) == ls;
    JoinLines(files[Path]);
  }

  /** Six closed lines ending with an empty one: a text that ends with a line break, read back as those lines. */
  lemma BlockText(hs: seq<string>)
    requires Closed(hs) && |hs| == 6 && hs[5] == "\n"
    ensures Terminated(Join(hs)) && Lines(Join(hs)) == hs && Join(Drop(hs, 5)) == "\n"
  {
    assert WellFormed(hs);
    LinesJoin(hs);
    assert hs == hs[..5] + ["\n"];
    JoinAppend(hs[..5], ["\n"]);
    assert Join(["\n"]) == "\n" + Join([]);
    assert Drop(hs, 5) == ["\n"];
  }

  /** On a freshly created file, the update appends the line after the empty line and returns both. */
  lemma FreshUpdate(files: map<string, string>, shell: string, entry: string)
    requires Clean(shell) && WordCount(entry) <= TokenLimit
    ensures var block := Join(HeaderBlock(shell, 0) + ["\n"]);
      UpdateStep(files[Path := block], Defaults(shell, 0), entry) ==
      FileStep(files[Path := block + entry], Ok("\n" + entry))
  {
    BlockClosed(shell, 0);
    UpdateAfterBlock(files, Defaults(shell, 0), HeaderBlock(shell, 0) + ["\n"], entry);
  }

  /** On a freshly created file, a line that is no command is appended after the empty line and sent with it. */
  lemma FreshPrompt(files: map<string, string>, shell: string, entry: string, stamp: string)
    requires Clean(shell) && Classify(entry) == NotACommand && WordCount(entry) <= TokenLimit
    ensures var block := Join(HeaderBlock(shell, 0) + ["\n"]);
      PromptStep(State(files[Path := block], Defaults(shell, 0)), entry, stamp) ==
      Step(State(files[Path := block + entry], Defaults(shell, 0)), Ok("\n" + entry))
  {
    var block := Join(HeaderBlock(shell, 0) + ["\n"]);
    var s := State(files[Path := block], Defaults(shell, 0));
    assert CommandStep(s, entry, stamp) == Step(s, Ok(""));
    FreshUpdate(files, shell, entry);
    assert files[Path := block][Path := block + entry] == files[Path := block + entry];
  }

  /** A prompt that ends no run is sent after the prefix of the string shell, and the answer's first line is appended. */
  lemma QuerySent(files: map<string, string>, config: Config, shell: string, prompt: string, completion: string)
    requires "shell" in config && config["shell"] == Str(shell) && prompt !in ExitReplies
    ensures Prefix(Str(shell)).Ok?
    ensures QueryStep(files, config, prompt, completion) ==
      FileStep(files[Path := Contents(files, Path) + FirstLine(completion) + "\n"], Ok(Some(Prefix(Str(shell)).value + prompt)))
  {
  }

  /** The first run in a folder without a context file reaches the query with the line after the empty line. */
  lemma FreshRun(files: map<string, string>, processName: string, entry: string, completion: string, stamp: string)
    requires Path !in files && Classify(entry) == NotACommand && WordCount(entry) <= TokenLimit
    ensures var shell := ShellOf(processName);
      RunStep(files, processName, entry, completion, stamp) ==
      QueryStep(files[Path := Join(HeaderBlock(shell, 0) + ["\n"]) + entry], Defaults(shell, 0), "\n" + entry, completion)
  {
    var shell := ShellOf(processName);
    ShellClean(processName);
    var config := Defaults(shell, 0);
    var block := Join(HeaderBlock(shell, 0) + ["\n"]);
    FreshFile(files, shell);
    FreshPrompt(files, shell, entry, stamp);
    RunAfterInit(files, processName, entry, completion, stamp, files[Path := block], config,
                 files[Path := block + entry], "\n" + entry);
  }

  /** The shell names are clean header values. */
  lemma ShellClean(processName: string)
    ensures Clean(ShellOf(processName))
  {
    var shell := ShellOf(processName);
    if shell == "powershell" {
      assert Clean("powershell");
    } else if shell == "bash" {
      assert Clean("bash");
    } else if shell == "zsh" {
      assert Clean("zsh");
    } else {
      assert Clean("unknown");
    }
  }

  /** A run whose initialisation and prompt step end as given goes on to the query with that prompt. */
  lemma RunAfterInit(files: map<string, string>, processName: string, entry: string, completion: string, stamp: string,
                     created: map<string, string>, config: Config, after: map<string, string>, prompt: string)
    requires InitializeStep(files, ShellOf(processName)) == FileStep(created, Ok(config))
    requires PromptStep(State(created, config), entry, stamp) == Step(State(after, config), Ok(prompt))
    ensures RunStep(files, processName, entry, completion, stamp) == QueryStep(after, config, prompt, completion)
  {
  }

  /** A prompt that starts with a line break is none of the replies that end the run. */
  lemma LeadingBreakEndsNoRun(entry: string)
    ensures "\n" + entry !in ExitReplies
  {
    assert ("\n" + entry)[0] == '\n';
  }

  /**
   * The first run in a folder without a context file, for a line that is no
   * command and has at most 2048 words: the file gets the header block, the
   * empty line and the line; the model is sent the shell's prefix, the empty
   * line and the line; the first line of its answer is appended.
   */
  lemma FirstQuery(files: map<string, string>, processName: string, entry: string, completion: string, stamp: string)
    requires Path !in files && Classify(entry) == NotACommand && WordCount(entry) <= TokenLimit
    ensures var shell := ShellOf(processName);
      var after := files[Path := Join(HeaderBlock(shell, 0) + ["\n"]) + entry];
      && Prefix(Str(shell)).Ok?
      && RunStep(files, processName, entry, completion, stamp) ==
         FileStep(after[Path := after[Path] + FirstLine(completion) + "\n"],
                  Ok(Some(Prefix(Str(shell)).value + ("\n" + entry))))
  {
    var shell := ShellOf(processName);
    var after := files[Path := Join(HeaderBlock(shell, 0) + ["\n"]) + entry];
    FreshRun(files, processName, entry, completion, stamp);
    LeadingBreakEndsNoRun(entry);
    QuerySent(after, Defaults(shell, 0), shell, "\n" + entry, completion);
  }
}
