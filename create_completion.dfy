/**
 * create_completion.py, the earliest driver. The context file
 * `openai_completion_input.txt` has no header block: the whole file is the
 * prompt. Standard input is one query or one command; past 2048 words the
 * two first lines of the file are dropped; the shell is only told apart as
 * PowerShell or not.
 */
module CreateCompletion {
  import opened Outcomes
  import opened Text
  import opened TextLines
  import opened Disk
  import opened Shells
  import opened Completions
  import ContextFile
  import ContextLaws

  const Path := "openai_completion_input.txt"

  /** The replies of the commands; every one of them ends the run. */
  const Unlearned := "unlearned interaction"
  const Shown := "context shown"
  const SavedReply := "context saved"
  const ExitReplies := {Unlearned, Shown, SavedReply}

  /** `POWERSHELL_MODE` decides the prefix; `BASH_MODE` is everything else, and is primed as zsh. */
  function Prefix(processName: string): string {
    if IsPowerShell(processName) then "<# powershell #>" else "#!/bin/zsh\n\n"
  }

  // ---------------------------------------------------------------------------
  // get_updated_prompt_file
  // ---------------------------------------------------------------------------

  /**
   * `get_updated_prompt_file(input)`: when the words of the whole file and of
   * the input exceed 2048, drop the file's first two lines; append the input;
   * return the whole file.
   */
  function UpdateStep(files: map<string, string>, input: string): FileStep<string> {
    if Path !in files then FileStep(files, Raised(FileNotFound))
    else
      var text := files[Path];
      var refresh := WordCount(text) + WordCount(input) > ContextFile.TokenLimit;
      var kept := if refresh then Join(Drop(Lines(text), 2)) else text;
      var appended := files[Path := kept + input];
      FileStep(appended, Ok(appended[Path]))
  }

  method GetUpdatedPromptFile(disk: FileSystem, input: string) returns (r: Result<string>)
    modifies disk
    ensures FileStep(disk.files, r) == UpdateStep(old(disk.files), input)
  {
    var lines :- disk.ReadLines(Path);
    JoinLines(disk.files[Path]);
    if WordCount(Join(lines)) + WordCount(input) > ContextFile.TokenLimit {
      disk.WriteLines(Path, Drop(lines, 2));
    }
    disk.Append(Path, input);
    r := Ok(disk.files[Path]);
  }

  // ---------------------------------------------------------------------------
  // get_command_result
  // ---------------------------------------------------------------------------

  datatype Command = UnlearnAll | UnlearnLast | ShowContext | EditContext | SaveContext | ClearContext | NotACommand

  /** The keyword chain of `get_command_result`, in the source's order. */
  function Classify(input: string): Command {
    if Contains(input, "unlearn") then (if Contains(input, "all") then UnlearnAll else UnlearnLast)
    else if !Contains(input, "context") then NotACommand
    else if Contains(input, "show") then ShowContext
    else if Contains(input, "edit") then EditContext
    else if Contains(input, "save") then SaveContext
    else if Contains(input, "clear") then ClearContext
    else NotACommand
  }

  /** `get_command_result(input)`: the reply, "" for no command. */
  function CommandStep(files: map<string, string>, input: string, stamp: string): FileStep<string> {
    match Classify(input)
    case UnlearnAll => FileStep(files[Path := ""], Ok(Unlearned))
    case UnlearnLast =>
      if Path !in files then FileStep(files, Raised(FileNotFound))
      else
        var ls := Lines(files[Path]);
        if |ls| > 1 then FileStep(files[Path := Join(ls[..|ls| - 2])], Ok(Unlearned))
        else FileStep(files, Ok(Unlearned))
    case ShowContext =>
      if Path !in files then FileStep(files, Raised(FileNotFound)) else FileStep(files, Ok(Shown))
    case EditContext => FileStep(files, Ok(Shown))
    case SaveContext =>
      if Path !in files then FileStep(files, Raised(FileNotFound))
      else FileStep(files[stamp + ".txt" := Join(Lines(files[Path]))], Ok(SavedReply))
    case ClearContext => FileStep(files[Path := ""], Ok(Unlearned))
    case NotACommand => FileStep(files, Ok(""))
  }

  method GetCommandResult(disk: FileSystem, input: string, stamp: string) returns (r: Result<string>)
    modifies disk
    ensures FileStep(disk.files, r) == CommandStep(old(disk.files), input, stamp)
  {
    match Classify(input)
    case UnlearnAll =>
      disk.Write(Path, "");
      r := Ok(Unlearned);
    case UnlearnLast =>
      var lines :- disk.ReadLines(Path);
      if |lines| > 1 {
        disk.WriteLines(Path, lines[..|lines| - 2]);
      }
      r := Ok(Unlearned);
    case ShowContext =>
      var lines :- disk.ReadLines(Path);
      r := Ok(Shown);
    case EditContext =>
      r := Ok(Shown);
    case SaveContext =>
      var lines :- disk.ReadLines(Path);
      disk.WriteLines(stamp + ".txt", lines);
      r := Ok(SavedReply);
    case ClearContext =>
      disk.Write(Path, "");
      r := Ok(Unlearned);
    case NotACommand =>
      r := Ok("");
  }

  // ---------------------------------------------------------------------------
  // The script
  // ---------------------------------------------------------------------------

  /** `get_prompt()` for the text `stdin` read from standard input. */
  function PromptStep(files: map<string, string>, stdin: string, stamp: string): FileStep<string> {
    var input := stdin + "\n";
    var cmd := CommandStep(files, input, stamp);
    if cmd.result == Ok("") then UpdateStep(cmd.files, input) else cmd
  }

  method GetPrompt(disk: FileSystem, stdin: string, stamp: string) returns (r: Result<string>)
    modifies disk
    ensures FileStep(disk.files, r) == PromptStep(old(disk.files), stdin, stamp)
  {
    var input := stdin + "\n";
    r := GetCommandResult(disk, input, stamp);
    if r == Ok("") {
      r := GetUpdatedPromptFile(disk, input);
    }
  }

  /** After `get_prompt`: stop on a command's reply, else send the prefixed prompt and append the answer's first line. */
  function QueryStep(files: map<string, string>, processName: string, prompt: string, completion: string)
    : FileStep<Option<string>>
  {
    if prompt in ExitReplies then FileStep(files, Ok(None))
    else FileStep(files[Path := Contents(files, Path) + FirstLine(completion) + "\n"], Ok(Some(Prefix(processName) + prompt)))
  }

  /**
   * One run for the parent process `processName`, standard input `stdin` and
   * the model's answer `completion`: None when a command ended the run, else
   * the query sent.
   */
  function RunStep(files: map<string, string>, processName: string, stdin: string, completion: string, stamp: string)
    : FileStep<Option<string>>
  {
    var got := PromptStep(files, stdin, stamp);
    match got.result
    case Raised(e) => FileStep(got.files, Raised(e))
    case Ok(prompt) => QueryStep(got.files, processName, prompt, completion)
  }

  method Run(disk: FileSystem, processName: string, stdin: string, completion: string, stamp: string)
    returns (r: Result<Option<string>>)
    modifies disk
    ensures FileStep(disk.files, r) == RunStep(old(disk.files), processName, stdin, completion, stamp)
  {
    var prompt :- GetPrompt(disk, stdin, stamp);
    if prompt in ExitReplies {
      return Ok(None);
    }
    var before := disk.files;
    disk.Append(Path, FirstLine(completion) + "\n");
    assert Contents(before, Path) + (FirstLine(completion) + "\n") == Contents(before, Path) + FirstLine(completion) + "\n";
    r := Ok(Some(Prefix(processName) + prompt));
  }

  // ---------------------------------------------------------------------------
  // Properties
  // ---------------------------------------------------------------------------

  /**
   * The update fails on a missing file and changes nothing then. Otherwise the
   * file keeps all its text, or loses exactly its first two lines when the
   * words of the file and of the input exceed 2048; the input is appended and
   * the whole file is the prompt, which therefore ends with the input.
   */
  lemma UpdateSpec(files: map<string, string>, input: string)
    ensures Path !in files ==> UpdateStep(files, input) == FileStep(files, Raised(FileNotFound))
    ensures Path in files ==>
      var text := files[Path];
      var ls := Lines(text);
      var refresh := WordCount(text) + WordCount(input) > ContextFile.TokenLimit;
      var kept := if refresh then Join(Drop(ls, 2)) else text;
      && UpdateStep(files, input) == FileStep(files[Path := kept + input], Ok(kept + input))
      && Join(Take(ls, 2)) + Join(Drop(ls, 2)) == text
      && EndsWith(kept + input, input)
  {
    if Path in files {
      var text := files[Path];
      var ls := Lines(text);
      JoinLines(text);
      assert Take(ls, 2) + Drop(ls, 2) == ls;
      JoinAppend(Take(ls, 2), Drop(ls, 2));
      var refresh := WordCount(text) + WordCount(input) > ContextFile.TokenLimit;
      var kept := if refresh then Join(Drop(ls, 2)) else text;
      assert (kept + input)[|kept|..] == input;
    }
  }

  /** The words the refresh drops are exactly those of the two removed lines. */
  lemma RefreshDropsTwoLinesOfWords(text: string)
    ensures WordCount(text) == SumWords(Take(Lines(text), 2)) + WordCount(Join(Drop(Lines(text), 2)))
  {
    var ls := Lines(text);
    TextWords(text);
    assert Take(ls, 2) + Drop(ls, 2) == ls;
    SumWordsAppend(Take(ls, 2), Drop(ls, 2));
    LinesWellFormed(text);
    Suffix(ls, 2);
    SumWordsJoin(Drop(ls, 2));
  }

  /**
   * Every reply is "" or one of the three that end the run: unlike the later
   * scripts, no command here lets the script go on to the model. The reply is
   * "" exactly for no command, and then nothing changes.
   */
  lemma EveryCommandEndsTheRun(files: map<string, string>, input: string, stamp: string)
    ensures CommandStep(files, input, stamp).result.Ok? ==>
      CommandStep(files, input, stamp).result.value == "" || CommandStep(files, input, stamp).result.value in ExitReplies
    ensures CommandStep(files, input, stamp).result == Ok("") <==> Classify(input) == NotACommand
    ensures Classify(input) == NotACommand ==> CommandStep(files, input, stamp).files == files
  {
  }

  /** `save context` copies the file verbatim to `<stamp>.txt` and changes nothing else. */
  lemma SaveCopies(files: map<string, string>, input: string, stamp: string)
    requires Classify(input) == SaveContext && Path in files
    ensures CommandStep(files, input, stamp) == FileStep(files[stamp + ".txt" := files[Path]], Ok(SavedReply))
  {
    JoinLines(files[Path]);
  }

  /**
   * `unlearn` removes the last two lines of a file with more than one line:
   * the rest reads back unchanged and the two removed lines complete it.
   */
  lemma UnlearnDropsTwo(files: map<string, string>, input: string, stamp: string)
    requires Classify(input) == UnlearnLast && Path in files && |Lines(files[Path])| > 1
    ensures var ls := Lines(files[Path]);
      var after := CommandStep(files, input, stamp).files[Path];
      && CommandStep(files, input, stamp).result == Ok(Unlearned)
      && Lines(after) == ls[..|ls| - 2]
      && after + ls[|ls| - 2] + ls[|ls| - 1] == files[Path]
  {
    ContextLaws.DropLastTwo(files[Path]);
  }

  /** A parent process detected as bash, zsh or an unknown shell is primed with the zsh line. */
  lemma NonPowerShellPrimedAsZsh(processName: string)
    ensures ShellOf(processName) == "powershell" <==> Prefix(processName) == "<# powershell #>"
    ensures ShellOf(processName) != "powershell" ==> Prefix(processName) == "#!/bin/zsh\n\n"
  {
    ShellOfSpec(processName);
    assert "<# powershell #>"[0] != "#!/bin/zsh\n\n"[0];
  }

  /**
   * A run for standard input that is no command, on an existing file: the
   * model is sent the prefix and the whole updated file, which ends with the
   * input and its added line break, and the answer's first line is appended
   * after it.
   */
  lemma QueryRun(files: map<string, string>, processName: string, stdin: string, completion: string, stamp: string)
    requires Path in files && Classify(stdin + "\n") == NotACommand
    ensures var got := UpdateStep(files, stdin + "\n");
      var prompt := got.files[Path];
      && EndsWith(prompt, stdin + "\n")
      && RunStep(files, processName, stdin, completion, stamp) ==
         FileStep(got.files[Path := prompt + FirstLine(completion) + "\n"], Ok(Some(Prefix(processName) + prompt)))
  {
    var input := stdin + "\n";
    UpdateSpec(files, input);
    var got := UpdateStep(files, input);
    assert CommandStep(files, input, stamp) == FileStep(files, Ok(""));
    assert PromptStep(files, stdin, stamp) == got;
    var prompt := got.files[Path];
    assert prompt[|prompt| - 1] == '\n';
    assert prompt !in ExitReplies by {
      assert Unlearned[|Unlearned| - 1] != '\n' && Shown[|Shown| - 1] != '\n' && SavedReply[|SavedReply| - 1] != '\n';
    }
    assert PromptStep(files, stdin, stamp) == got;
  }
}
