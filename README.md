# Codex CLI context-file engine, in Dafny

Codex CLI turns a line typed in a shell into a shell command by asking a
language model to complete a prompt. The prompt is built from a *context
file*, a plain text file of earlier queries and answers. The program's core
decides what that file holds. That means:

- the header block at the top of the file and how it is read back as a
  configuration dictionary;
- how the file is trimmed when it grows past 2048 words;
- how a line typed by the user is recognised as a command and what each
  command does to the file;
- what is sent to the model and what of its answer is written back.

Four generations of this engine exist side by side, and all four are
modelled.

- **create_completion.py**, the earliest script. The context file
  `openai_completion_input.txt` has no header block. Module
  `CreateCompletion` models it.
- **codex_query.py**, the second script. It adds a five-line header block
  (engine, temperature, max_tokens, shell, token_count) and an empty line,
  plus `set temperature` and `set max_tokens` commands that last for one run.
  Module `CodexQuery` models it.
- **prompt_file.py with commands.py**, the class-based engine. A
  `PromptFile` object owns the file, which has a six-line header block whose
  fifth line is a `context_mode` switch. Modules `ContextModeFile` and
  `ContextModeCommands` model it.
- **src/prompt_file.py with src/commands.py and src/codex_query.py**, the
  latest engine. Its switch is called `multi_turn`, and it has shell templates
  and a driver script. Modules `MultiTurnFile`, `MultiTurnCommands` and
  `MultiTurnDriver` model it.

## How the model is built

- **Files.** The file system is a map from path to text. Class
  `Disk.FileSystem` holds it, and its methods are `readlines`, `writelines`,
  `write` and append. `TextLines.Lines` is `readlines` and `TextLines.Join`
  is `''.join` / `writelines`; `JoinLines` and `LinesJoin` relate the two.
- **Configuration.** A configuration dictionary is a `map<string, Value>`.
  A value is a string, an int or a float kept as its text.
- **Exceptions.** A Python exception is a `Result` value: `IndexError`,
  `KeyError(key)`, `ValueError`, `TypeError` or `FileNotFound`. The files as
  they stood when the exception was raised are kept, so partial writes are
  visible.
- **Shared behaviour.** Both `PromptFile` classes share their behaviour
  through module `ContextFile`. It has one pure *step function* per method.
  A step maps the files and `self.config` before the call to the files,
  config and outcome after it. A `Variant` record holds the differences
  between the two classes: file name, switch key and tag, and the defaults
  `read_headers` returns. `ContextLaws` proves the properties of these steps.
- **Classes.** Each class is a Dafny `class` whose `config` field is
  reassigned and whose file-system object is modified. Every method ensures
  that the new files, config and outcome are those of its step function.
- **Drivers.** The module-level functions of the driver scripts are step
  functions over the files and the dictionary. Methods over a `FileSystem`
  are proved equal to them.
- **Inputs from outside.** Several things the scripts get from the outside
  world are parameters of the model:
  - the model's answer;
  - the time stamp used in file names;
  - the parent process name;
  - the model name read from the ini file.

Where the source and its intent part ways, the model follows the source.
Lemmas state what it actually does:

- **The `model` key in src/codex_query.py.** The driver builds its config
  with a `'model'` key while `set_headers` writes `config['engine']`. On a
  file without headers, the constructor therefore raises `KeyError('engine')`
  (`MultiTurnDriver.StartWithoutTemplate`).
- **The request in src/codex_query.py.** After reading the prompt, the
  script looks up `config['model']`. A config read back from a header block
  has the key `engine` and no `model`, so such a run raises `KeyError('model')`
  once the prompt is read: nothing is sent and nothing is recorded
  (`MultiTurnDriver.ExchangeWithoutModel`, `MultiTurnDriver.HeaderConfigRaises`).
- **No run of src/codex_query.py records an exchange.** A run that gets as
  far as sending started from the built-in config, whose switch is "off";
  the switch can only be "on" in a config read from the headers, and such a
  run stops at the request. Multi-turn mode therefore never appends to the
  file (`MultiTurnDriver.RunNeverRecords`).
- **`clear()`.** It empties the file and then calls `set_headers`. That
  calls `has_headers`, which indexes `lines[0]` of the empty file, so
  `clear()` always ends in `IndexError` (`ContextLaws.ClearRaises`).
- **`context save` in codex_query.py.** With exactly three words it reads
  `split()[3]` and raises `IndexError` (`CodexQuery.SaveSpec`).
- **`context save` in codex_query.py outside PowerShell.** Every shell but
  PowerShell prefixes the name with `saved/`. `Path.with_name` then raises
  `ValueError` on a name that holds a separator. The prompt file has
  already been read, nothing is written, and the driver catches only
  `FileNotFoundError` (`CodexQuery.SaveSpec`).
- **`set temperature` in codex_query.py.** Its reply "temperature set" is
  not among the replies that end the run, so that reply is sent to the model
  as a query (`CodexQuery.SetReplyIsSent`).
- **The PowerShell prefix.** It has no line break after it
  (`CodexQuery.PrefixLines`).
- **The shell prefix in create_completion.py.** Every shell other than
  PowerShell is primed as zsh (`CreateCompletion.NonPowerShellPrimedAsZsh`).
- **`context show` in commands.py.** It skips five lines where the header
  block has six, so the token-count header is shown
  (`ContextModeCommands.ShowStartsAtCountHeader`).
- **`clear_last_interaction` and `unlearn`.** These remove two *lines*, not
  one exchange (`ContextLaws.ClearLastSpec`, `CodexQuery.UnlearnDropsTwo`).
- **The prompt sent by src/codex_query.py.** It carries no shell prefix: the
  query is the conversation after the header block followed by the input
  (`MultiTurnDriver.ExchangeOnlyReads`).
- **`set_config` in src/commands.py.** src/commands.py calls `set_config`,
  which src/prompt_file.py does not define. The model gives the `set`
  commands the effect of `set_headers`.

## Model

| member | source | states |
|---|---|---|
| Text.Words | src/prompt_file.py:149 | the tokens of `split()` are non-empty and contain no whitespace |
| Text.WordsCount | src/prompt_file.py:149 | the number of `split()` tokens is the number of maximal non-space runs |
| Text.WordCountAppend | src/prompt_file.py:149 | when the first text is empty or ends in whitespace, the words of a concatenation are the sum of the words of its parts |
| Text.WordWhenCount | src/commands.py:31-33 | gives `split()[i]` exactly when the input has `n` words |
| Text.AbsentLetter | src/commands.py:28 | a text lacking one letter of a keyword does not contain that keyword |
| Text.TakeUntil | codex_query.py:352 | the longest prefix without the separator: a prefix, separator-free, ending at the separator or the end |
| Text.StripLeft | src/prompt_file.py:82 | `lstrip()` leaves no leading whitespace |
| Text.StripRight | src/prompt_file.py:82 | `rstrip()` leaves no trailing whitespace |
| Text.Strip | src/prompt_file.py:82-87 | `strip()` as `rstrip()` after `lstrip()`; no contract of its own, its laws are those of StripLeft, StripRight and StripPadded |
| Text.StripPadded | src/prompt_file.py:82-87 | `strip()` removes exactly the space and line break around a trimmed value |
| Text.FieldOfHeader | src/prompt_file.py:82-87 | `split(':')[1].strip()` of a written `## tag: value` line gives the value back |
| Text.WithTxt | src/prompt_file.py:245-246 | the name ends in `.txt`; it is unchanged when it already did, else `.txt` is appended |
| Text.WithTxtIdempotent | src/prompt_file.py:287-288 | adding the extension twice is adding it once |
| Text.IntToString | src/prompt_file.py:120 | a formatted int is non-empty and a clean header value |
| Text.NatToString | src/prompt_file.py:120 | decimal digits only, never empty |
| Text.DigitsOf | src/prompt_file.py:95 | the digits of a numeral with its underscores left out are all digits, and an all-digit text is its own digits |
| Text.ParseInt | src/prompt_file.py:95 | `int()` succeeds exactly on an optional sign followed by a numeral (digits, single underscores between them), else `ValueError`; on plain digits it is their decimal value; the sign decides the sign |
| Text.DigitsOfAppend | src/prompt_file.py:95 | the digits of a concatenation are the concatenation of the digits |
| Text.NumeralsJoined | src/prompt_file.py:95 | two numerals joined with or without one underscore form a numeral |
| Text.UnsignedNumeral | src/prompt_file.py:95 | a numeral without a sign reads as the value of its digits |
| Text.DigitsOfJoined | src/prompt_file.py:95 | joining two numerals with or without an underscore gives numerals with the same digits |
| Text.DigitsNumeral | src/prompt_file.py:95 | a non-empty run of digits is a numeral whose digits are itself |
| Text.NegativeRoundTrip | src/prompt_file.py:120 | `int('-' + str(n)) == -n` for positive `n` |
| Text.UnderscoreSkipped | src/prompt_file.py:95 | `int(a + "_" + b) == int(a + b)` for numerals `a`, `b`: an underscore between digits is skipped |
| Text.DigitsRoundTrip | src/prompt_file.py:95 | the digits of `n` have value `n` |
| Text.IntRoundTrip | src/prompt_file.py:95 | `int('{}'.format(i)) == i` for every int, negative ones included |
| TextLines.Lines | src/prompt_file.py:67 | `readlines()` is empty exactly for the empty text |
| TextLines.Take | src/prompt_file.py:168 | `ls[:n]` has `min(n, len(ls))` elements |
| TextLines.Drop | src/prompt_file.py:123 | `ls[n:]` has `len(ls) - n` elements, or none |
| TextLines.LineLengthSpec | src/prompt_file.py:67 | the first line ends at the first line break or at the end of the text |
| TextLines.JoinLines | src/prompt_file.py:44-47 | writing back the lines read gives the same text |
| TextLines.LinesWellFormed | src/prompt_file.py:67 | every line read is non-empty, and all but the last end with their only line break |
| TextLines.LinesJoin | src/prompt_file.py:128-129 | reading back well-formed lines after `writelines` gives the same lines |
| TextLines.JoinAppend | src/prompt_file.py:171-172 | two `writelines` calls write the concatenation |
| TextLines.LinesAppend | src/prompt_file.py:144-146 | appending to a text that ends with a line break appends its lines |
| TextLines.JoinedLinesAppend | src/prompt_file.py:144-146 | text appended after closed lines is read back after them |
| TextLines.Splice | src/prompt_file.py:168-172 | the first lines followed by a later suffix stay well formed |
| TextLines.Prefix | src/prompt_file.py:168 | a prefix of well-formed lines is well formed |
| TextLines.Suffix | src/prompt_file.py:123 | a suffix of well-formed lines is well formed |
| TextLines.Stack | src/prompt_file.py:126 | terminated lines put in front of well-formed lines keep them well formed |
| TextLines.Replace | src/prompt_file.py:279 | replacing one line by a terminated line keeps the lines well formed |
| TextLines.SumWordsSnoc | src/prompt_file.py:198-199 | adding a line adds its words to the count |
| TextLines.SumWordsAppend | src/prompt_file.py:198-199 | the count over two lists of lines is the sum |
| TextLines.SumWordsJoin | src/prompt_file.py:198-199 | counting line by line gives the words of the joined text |
| TextLines.TextWords | src/prompt_file.py:195-199 | counting words line by line gives the words of the whole file |
| Headers.Lookup | src/prompt_file.py:115 | `config[key]` is the value when the key is present and `KeyError(key)` otherwise |
| Headers.HeaderLines | src/prompt_file.py:115-120 | one header line per field |
| Headers.HeaderLinesSpec | src/prompt_file.py:115-120 | the block is written iff every key is present, line i is `## <tag>: <value>\n`; else the first missing key's `KeyError` |
| Headers.FieldTexts | src/prompt_file.py:82-87 | `n` field texts read by position, or `IndexError` |
| Headers.FieldTextsSpec | src/prompt_file.py:82-87 | the texts are read iff there are `n` lines and each has a ':'; text i is line i's field |
| Headers.ParseHeaders | src/prompt_file.py:80-96 | parsing succeeds only with at least as many lines as header fields |
| Headers.KnownTagPlain | src/prompt_file.py:115-120 | no header tag holds ':' or a line break |
| Headers.HeaderLinesUpdate | src/prompt_file.py:148-150 | setting a key keeps the header block writable |
| Headers.HeaderLineIsLine | src/prompt_file.py:115 | a header line is one terminated line when its value has no line break |
| Headers.HeaderBlockLines | src/prompt_file.py:113-120 | every line of the written block is one terminated line |
| Headers.HeadedLines | src/prompt_file.py:126-129 | the block followed by well-formed lines reads back as those lines |
| Headers.FitsClean | src/prompt_file.py:91-95 | a value that fits its field is written clean and converts back to itself |
| Headers.ConvertRendered | src/prompt_file.py:89-96 | converting the written texts rebuilds the header part of the config |
| Headers.HeadersRoundTrip | src/prompt_file.py:80-129 | reading back the written header block gives the header part of the config |
| Headers.ProjectKeys | src/prompt_file.py:89-96 | the dictionary read back has exactly the header keys, with the config's values |
| Headers.ProjectWhole | src/prompt_file.py:89-96 | a config of exactly the header keys is read back whole |
| Headers.KeysOfCons | src/prompt_file.py:89-96 | the header keys are the first field's key and the rest's keys |
| Headers.ConvertKeys | src/prompt_file.py:89-96 | the dictionary `read_headers` builds has exactly the header keys |
| Shells.ShellOf | src/codex_query.py:105-110 | the shell is one of powershell, bash, zsh, unknown |
| Shells.ShellOfSpec | src/codex_query.py:106-110 | each shell name is chosen iff its pattern matches, unknown iff none does |
| Shells.PatternsDisjoint | src/codex_query.py:106-108 | no process name matches the patterns of two shells |
| Shells.KnownNames | src/codex_query.py:106-108 | every name listed in a pattern is recognised as its shell |
| Shells.DotMatchesAnyCharacter | src/codex_query.py:107 | the unescaped '.' lets `bash_exe` count as bash; `fish` is unknown |
| Disk.FileSystem.ReadLines | src/prompt_file.py:66-67 | the file's lines, or `FileNotFound` |
| Disk.FileSystem.WriteLines | src/prompt_file.py:128-129 | the file becomes the joined lines, and no other file changes |
| Disk.FileSystem.Write | src/prompt_file.py:221-222 | the file becomes the text, and no other file changes |
| Disk.FileSystem.Append | src/prompt_file.py:144-146 | the text is added at the end of the file, which is created when missing |
| Completions.Pieces | codex_query.py:352 | `split('\n')` is never empty |
| Completions.PiecesFirst | codex_query.py:352 | the first piece runs to the first line break; there is one piece iff there is none |
| Completions.FirstLine | codex_query.py:351-361 | the choice of output from `split('\n')`; no contract of its own, characterised for every answer by FirstLineSpec |
| Completions.FirstLineSpec | codex_query.py:351-361 | the output is a prefix of the answer, empty iff the answer is, the whole answer after a leading blank line, otherwise one line |
| ContextFile.ReadHeadersStep | src/prompt_file.py:74-98 | step of `read_headers`: the current config or the class defaults without headers, else the parsed block stored as the config; laws in ContextLaws.HeadersReadBack and ReadHeadersKeepsFiles |
| ContextFile.SetHeadersStep | src/prompt_file.py:100-129 | step of `set_headers`; laws in ContextLaws.SetHeadersSpec, SetHeadersConfig, SetHeadersOnHeaded and SetHeadersIdempotent |
| ContextFile.AddPairStep | src/prompt_file.py:139-150 | step of `add_input_output_pair`; laws in ContextLaws.AddPairKeepsCount, AddPairConfig, AddPairOn and AddPairWhenOff |
| ContextFile.ReadPromptStep | src/prompt_file.py:152-182 | step of `read_prompt_file`; law in ContextLaws.ReadPromptSpec |
| ContextFile.TokenCountStep | src/prompt_file.py:184-205 | step of `get_token_count`; law in ContextLaws.TokenCountRepairs |
| ContextFile.ClearStep | src/prompt_file.py:207-224 | step of `clear`; law in ContextLaws.ClearRaises |
| ContextFile.ClearLastStep | src/prompt_file.py:226-237 | step of `clear_last_interaction`; laws in ContextLaws.ClearLastSpec and DropLastTwo |
| ContextFile.SaveToStep | src/prompt_file.py:239-251 | step of `save_to`; law in ContextLaws.SaveToSpec |
| ContextFile.SetFlagStep | src/prompt_file.py:253-268 | step of `start_multi_turn` and `stop_multi_turn`; law in ContextLaws.SetFlagIdempotent |
| ContextFile.DefaultContextStep | src/prompt_file.py:270-284 | step of `default_context`; law in ContextLaws.DefaultContextSpec |
| ContextFile.ImportStep | src/prompt_file.py:16-47 | the saved-context import of `__init__`; laws in ContextLaws.ImportSpec and ImportAfterSetHeaders |
| ContextFile.CountWords | src/prompt_file.py:194-199 | the counting loop sums the words of every line |
| ContextLaws.MarkerLine | src/prompt_file.py:115 | the first written header line holds the `## engine:` marker |
| ContextLaws.EngineLine | src/prompt_file.py:115 | any engine line holds the marker |
| ContextLaws.HeadersPresentFirstLine | src/prompt_file.py:60-72 | `has_headers` depends only on the first line |
| ContextLaws.BodyWellFormed | src/prompt_file.py:109-126 | the lines `set_headers` keeps are well formed |
| ContextLaws.ConformsNoBreaks | src/prompt_file.py:115-120 | values that read back unchanged have no line break |
| ContextLaws.UpdateNoBreaks | src/prompt_file.py:148-150 | setting a value without a break keeps every header on its line |
| ContextLaws.CountNoBreaks | src/prompt_file.py:120 | a written count has no line break |
| ContextLaws.CountLine | src/prompt_file.py:189-192 | the token-count header written for `n` reads back as `n` |
| ContextLaws.SetHeadersSpec | src/prompt_file.py:100-129 | config stored; writes the new block before the old body; first missing key's `KeyError`; `IndexError` iff the file exists and is empty; nothing else written |
| ContextLaws.SetHeadersConfig | src/prompt_file.py:108 | the config is stored whatever happens next |
| ContextLaws.SetHeadersOnHeaded | src/prompt_file.py:122-129 | on a headed file the old six lines are replaced |
| ContextLaws.SetHeadersIdempotent | src/prompt_file.py:100-129 | writing the same headers twice is writing them once |
| ContextLaws.HeadersReadBack | src/prompt_file.py:74-98 | `read_headers` after `set_headers(c)` returns and stores the header part of `c`, all of `c` when it holds nothing else |
| ContextLaws.ReadHeadersKeepsFiles | src/prompt_file.py:74-98 | `read_headers` writes no file and stores what it returns |
| ContextLaws.ReadPromptSpec | src/prompt_file.py:152-182 | config unchanged; `KeyError`/`TypeError` on a missing or non-int count; past 2048 words lines 6 and 7 are dropped; the result is the text after the header block |
| ContextLaws.TrueCountWords | src/prompt_file.py:194-199 | the counting loop counts the words of the conversation text |
| ContextLaws.TokenCountRepairs | src/prompt_file.py:184-205 | returns the conversation's word count, keeps the conversation, and leaves that count in the header |
| ContextLaws.AppendToConversation | src/prompt_file.py:144-146 | an append lands at the end of the conversation, adds its words, keeps the headers |
| ContextLaws.PairAppended | src/prompt_file.py:144-146 | appending query and answer extends the conversation by both and adds their words |
| ContextLaws.AddPairKeepsCount | src/prompt_file.py:139-150 | in multi-turn mode the header stays, the count keeps matching the conversation, which grows by query and answer |
| ContextLaws.AddPairConfig | src/prompt_file.py:148-149 | only the token count changes, raised by the words of both texts |
| ContextLaws.AddPairOn | src/prompt_file.py:144-150 | multi-turn mode appends, then writes the headers with the raised count |
| ContextLaws.AddPairRestores | src/prompt_file.py:144-150 | append followed by `set_headers` with the raised count restores the count invariant |
| ContextLaws.AddPairSync | src/prompt_file.py:150 | writing headers whose count matches the conversation keeps it and restores the invariant |
| ContextLaws.AddPairWhenOff | src/prompt_file.py:139-148 | outside multi-turn mode the text is appended and neither config nor headers change |
| ContextLaws.ClearRaises | src/prompt_file.py:207-224 | archives the file verbatim, empties it, stores the read config, then always raises (`IndexError` when the headers are writable) |
| ContextLaws.ClearLastSpec | src/prompt_file.py:226-237 | more than one line: the last two go and the rest reads back; otherwise no change; `FileNotFound` without the file |
| ContextLaws.DropLastTwo | src/prompt_file.py:232-234 | what remains followed by the two removed lines is the old text |
| ContextLaws.SaveToSpec | src/prompt_file.py:239-249 | copies the file verbatim to `contexts/<name>.txt` and changes nothing else; `FileNotFound` without the file |
| ContextLaws.SetFlagIdempotent | src/prompt_file.py:253-268 | switching on (off) writes line 4 with the new value, and a second switch changes nothing |
| ContextLaws.RestampSpec | prompt_file.py:290-294 | with every key set and enough lines, lines k.. are replaced by the header block |
| ContextLaws.RestampShort | prompt_file.py:290-294 | with every key set, a file too short raises `IndexError` |
| ContextLaws.SpliceAt | prompt_file.py:290-294 | setting one line then the following ones is replacing the run of lines |
| ContextLaws.DefaultContextSpec | src/prompt_file.py:270-284 | no template: nothing; else the file becomes the template with line 4 set to the switch, or `KeyError`/`IndexError` |
| ContextLaws.ImportSpec | src/prompt_file.py:15-47 | a saved context is imported when there is no working file or its switch reads "off"; the config then comes from its headers |
| ContextLaws.ImportAfterSetHeaders | src/prompt_file.py:15-47 | after `set_headers(c)` the import starts from `c`'s header fields and copies exactly when `c` had the switch off |
| MultiTurnFile.VValid | src/prompt_file.py:113-120 | the six header tags are plain and the switch key is `multi_turn` |
| MultiTurnFile.InitStep | src/prompt_file.py:15-58 | step of `__init__`: import, template path from the shell, headers when missing, count resynchronised when on; laws in MultiTurnDriver.StartWithoutTemplate, StartFromTemplate and InitKeys |
| MultiTurnFile.LoadStep | src/prompt_file.py:286-301 | step of `load_context`; laws in LoadCopies and LoadIdempotent |
| MultiTurnFile.LoadCopies | src/prompt_file.py:286-301 | a saved context replaces the working file exactly; without one nothing changes |
| MultiTurnFile.LoadIdempotent | src/prompt_file.py:286-301 | loading twice is loading once |
| MultiTurnFile.PromptFile.constructor | src/prompt_file.py:49-52 | keeps the file system, the config and the template path |
| MultiTurnFile.PromptFile.Open | src/prompt_file.py:15-58 | the files, the object's config and template path, or the exception, are those of the constructor's step |
| MultiTurnFile.PromptFile.Import | src/prompt_file.py:16-47 | the files and the starting config of the saved-context import, or its exception |
| MultiTurnFile.PromptFile.EnsureHeaders | src/prompt_file.py:54-55 | adds the header block when it is missing |
| MultiTurnFile.PromptFile.SyncCount | src/prompt_file.py:57-58 | in multi-turn mode stores the recounted token count |
| MultiTurnFile.PromptFile.HasHeaders | src/prompt_file.py:60-72 | whether the first line holds the marker; `IndexError` on an empty file |
| MultiTurnFile.PromptFile.ReadHeaders | src/prompt_file.py:74-98 | files and config after `read_headers` are those of its step |
| MultiTurnFile.PromptFile.SetHeaders | src/prompt_file.py:100-129 | files and config after `set_headers` are those of its step |
| MultiTurnFile.PromptFile.AddInputOutputPair | src/prompt_file.py:139-150 | files and config after the append are those of its step |
| MultiTurnFile.PromptFile.ReadPromptFile | src/prompt_file.py:152-182 | the trimmed file and the conversation returned are those of its step |
| MultiTurnFile.PromptFile.GetTokenCount | src/prompt_file.py:184-205 | the count and the repaired header are those of its step |
| MultiTurnFile.PromptFile.Clear | src/prompt_file.py:207-224 | the archive, emptied file and exception are those of its step |
| MultiTurnFile.PromptFile.ClearLastInteraction | src/prompt_file.py:226-237 | the file after dropping two lines is that of its step |
| MultiTurnFile.PromptFile.SaveTo | src/prompt_file.py:239-251 | the copy written is that of its step |
| MultiTurnFile.PromptFile.StartMultiTurn | src/prompt_file.py:253-259 | sets the switch on and writes the headers |
| MultiTurnFile.PromptFile.StopMultiTurn | src/prompt_file.py:262-268 | sets the switch off and writes the headers |
| MultiTurnFile.PromptFile.DefaultContext | src/prompt_file.py:270-284 | copies the template fixed at construction, as its step does |
| MultiTurnFile.PromptFile.LoadContext | src/prompt_file.py:286-301 | copies the saved context, as its step does |
| ContextModeFile.VValid | prompt_file.py:115-122 | the six header tags are plain and the switch key is `context` |
| ContextModeFile.InitStep | prompt_file.py:11-52 | step of `__init__`: import, headers when missing, count resynchronised in context mode |
| ContextModeFile.ShellDefaultStep | prompt_file.py:262-277 | step of `default_context` for the configured shell; `KeyError` without one; law in ContextLaws.DefaultContextSpec |
| ContextModeFile.LoadStep | prompt_file.py:279-302 | step of `load_context`; law in LoadRestamps |
| ContextModeFile.LoadRestamps | prompt_file.py:279-302 | no saved context: nothing; fewer than five lines: `IndexError`; else the saved context with its first five lines rewritten from the current config, no other file changed |
| ContextModeFile.PromptFile.constructor | prompt_file.py:45-46 | keeps the file system and the config |
| ContextModeFile.PromptFile.Open | prompt_file.py:11-52 | the files and the object's config, or the exception, are those of the constructor's step |
| ContextModeFile.PromptFile.Import | prompt_file.py:12-43 | the files and the starting config of the saved-context import, or its exception |
| ContextModeFile.PromptFile.EnsureHeaders | prompt_file.py:48-49 | adds the header block when it is missing |
| ContextModeFile.PromptFile.SyncCount | prompt_file.py:51-52 | in context mode stores the recounted token count |
| ContextModeFile.PromptFile.HasHeaders | prompt_file.py:54-66 | whether the first line holds the marker; `IndexError` on an empty file |
| ContextModeFile.PromptFile.ReadHeaders | prompt_file.py:68-100 | the fixed defaults without headers, else the parsed headers, as its step |
| ContextModeFile.PromptFile.SetHeaders | prompt_file.py:102-131 | files and config after `set_headers` are those of its step |
| ContextModeFile.PromptFile.AddInputOutputPair | prompt_file.py:133-144 | files and config after the append are those of its step |
| ContextModeFile.PromptFile.ReadPromptFile | prompt_file.py:146-176 | the trimmed file and the conversation returned are those of its step |
| ContextModeFile.PromptFile.GetTokenCount | prompt_file.py:178-199 | the count and the repaired header are those of its step |
| ContextModeFile.PromptFile.Clear | prompt_file.py:201-218 | the archive, emptied file and exception are those of its step |
| ContextModeFile.PromptFile.ClearLastInteraction | prompt_file.py:220-231 | the file after dropping two lines is that of its step |
| ContextModeFile.PromptFile.SaveTo | prompt_file.py:233-243 | the copy written is that of its step |
| ContextModeFile.PromptFile.TurnOnContext | prompt_file.py:245-251 | sets the switch on and writes the headers |
| ContextModeFile.PromptFile.TurnOffContext | prompt_file.py:254-260 | sets the switch off and writes the headers |
| ContextModeFile.PromptFile.DefaultContext | prompt_file.py:262-277 | copies the template of the configured shell, as its step does |
| ContextModeFile.PromptFile.LoadContext | prompt_file.py:279-302 | the restamped copy of the saved context, as its step |
| ContextModeFile.PromptFile.Restamped | prompt_file.py:289-294 | the saved lines with lines 0-4 rewritten from the current config |
| MultiTurnCommands.Classify | src/commands.py:28-150 | the keyword chain in the source's order: `set` with a setting, `show config`, `multi-turn` start/stop, then the `context` subcommands; laws in EmptyReplyIsNoCommand |
| MultiTurnCommands.CommandStep | src/commands.py:4-150 | what each command does to the files and config and its reply; laws in EmptyReplyIsNoCommand, ShowingChangesNothing, SetPersists, StartIdempotent, StopIdempotent and LoadAlwaysReplies |
| MultiTurnCommands.GetCommandResult | src/commands.py:4-150 | the reply and the prompt file's files and config are those of the command's step; no prompt file gives "" |
| MultiTurnCommands.EmptyReplyIsNoCommand | src/commands.py:28-150 | the reply is "" iff the line is no command or a `set` without four words, and then nothing changes |
| MultiTurnCommands.ShowingChangesNothing | src/commands.py:68-118 | `show config`, `context show`, `context view` change neither files nor config |
| MultiTurnCommands.SetPersists | src/commands.py:28-66 | a four-word `set` stores the converted value, and the header block reads back with it |
| MultiTurnCommands.StartIdempotent | src/commands.py:73-80 | `start multi-turn` always replies on, changes nothing when already on, and twice is once |
| MultiTurnCommands.StopIdempotent | src/commands.py:83-85 | `stop multi-turn` writes "off" in line 4, and twice is once |
| MultiTurnCommands.LoadAlwaysReplies | src/commands.py:139-148 | `context load` always replies "context loaded" and copies the saved context when named and present |
| ContextModeCommands.SliceFrom | commands.py:104 | `ls[k:]` for any int is a suffix of `ls` |
| ContextModeCommands.Classify | commands.py:30-168 | the keyword chain in the source's order: `set` with a setting, `show config`, `unlearn`, then the `context` subcommands; laws in EmptyReplyIsNoCommand |
| ContextModeCommands.SavedPath | commands.py:144-149 | `saved/<name>.txt`, with `.txt` added unless present |
| ContextModeCommands.LoadSavedStep | commands.py:140-166 | copies the saved context over the working file when it exists, and replies "context loaded" either way; law in LoadFromSaved |
| ContextModeCommands.ShownLines | commands.py:92-108 | `lines[5:]`, or its last `n` lines for `n` other than 0; laws in ShowStartsAtCountHeader and ShowLast |
| ContextModeCommands.CommandStep | commands.py:7-168 | what each command does to the files and config and its reply; laws in EmptyReplyIsNoCommand, SetPersists, ShowConfigKeeps, ClearingEmpties, UnlearnLastTwo and SaveNames |
| ContextModeCommands.GetCommandResult | commands.py:7-168 | the reply and the prompt file's files and config are those of the command's step |
| ContextModeCommands.EmptyReplyIsNoCommand | commands.py:30-168 | the reply is "" iff the line is no command or a `set` without three words, and then nothing changes |
| ContextModeCommands.SetPersists | commands.py:30-64 | a three-word `set` stores the converted value, and the header block reads back with it |
| ContextModeCommands.ShowConfigKeeps | commands.py:66-74 | `show config` writes no file and keeps a config that wrote the headers |
| ContextModeCommands.ShowConfigDefaults | commands.py:66-74 | without headers `show config` puts the fixed defaults in place |
| ContextModeCommands.ClearingEmpties | commands.py:79-82 | `unlearn all` and `context clear` archive and empty the file and end in an exception |
| ContextModeCommands.UnlearnLastTwo | commands.py:83-87 | `unlearn` drops the last two lines when there are more than one |
| ContextModeCommands.SaveNames | commands.py:120-131 | `context save` copies the file verbatim under the fourth word, or under the time stamp |
| ContextModeCommands.LoadFromSaved | commands.py:140-166 | `context load` always replies "context loaded" and copies `saved/<name>.txt` verbatim when present |
| ContextModeCommands.ShowStartsAtCountHeader | commands.py:95-97 | the first line shown is the token-count header |
| ContextModeCommands.ShowLast | commands.py:99-105 | a positive count shows the last `n` lines after the first five, all of them when fewer |
| CodexQuery.InitializeStep | codex_query.py:50-95 | `initialize`: files and dictionary; laws in FreshFile, HeadersPrepended, EmptyFileRaises and InitializeStable |
| CodexQuery.UpdateStep | codex_query.py:136-171 | `get_updated_prompt_file`; laws in UpdatedPrompt and UpdateWithinLimit |
| CodexQuery.Classify | codex_query.py:173-287 | the keyword chain in the source's order; laws in EmptyReplyIsNoCommand and NoKeywordLetters |
| CodexQuery.CommandStep | codex_query.py:173-287 | what each command does and its reply; laws in EmptyReplyIsNoCommand, SetOnlyInMemory, UnlearnDropsTwo, SaveSpec and ContextReplies |
| CodexQuery.Prefix | codex_query.py:332-342 | the shell's priming line; law in PrefixLines |
| CodexQuery.QueryStep | codex_query.py:328-370 | the text sent and the first line appended; laws in QuerySpec and QuerySent |
| CodexQuery.RunStep | codex_query.py:321-370 | the whole run; laws in RunAfterInit, FreshRun and FirstQuery |
| CodexQuery.HasPromptHeaders | codex_query.py:97-107 | a result only for a non-empty file; `IndexError` for an empty one, `FileNotFound` without one |
| CodexQuery.Initialize | codex_query.py:50-95 | the files and dictionary are those of the `initialize` step |
| CodexQuery.GetUpdatedPromptFile | codex_query.py:136-171 | the files and prompt are those of the update step |
| CodexQuery.GetCommandResult | codex_query.py:173-287 | the files, dictionary and reply are those of the command step |
| CodexQuery.GetPrompt | codex_query.py:289-307 | the reply, or the updated context for a line that is no command |
| CodexQuery.Query | codex_query.py:328-370 | the files and query sent are those of the query step |
| CodexQuery.Run | codex_query.py:321-370 | the files and query sent are those of the whole run |
| CodexQuery.HeaderBlockOfDefaults | codex_query.py:63-70 | the lines `initialize` writes are the header block of the defaults |
| CodexQuery.FiveLines | codex_query.py:64-69 | five present keys give five header lines |
| CodexQuery.ConstantsClean | codex_query.py:15-17 | the engine and temperature constants are clean header values |
| CodexQuery.LayoutPlain | codex_query.py:64-69 | the five tags are plain |
| CodexQuery.DefaultsKeys | codex_query.py:114-120 | the defaults hold exactly the five header keys |
| CodexQuery.DefaultsConform | codex_query.py:114-120 | the defaults read back unchanged through the header block |
| CodexQuery.DefaultsFit | codex_query.py:114-120 | each default fits its header field |
| CodexQuery.DefaultsProject | codex_query.py:128-134 | the header part of the defaults is the defaults |
| CodexQuery.EngineLineClosed | codex_query.py:65 | the engine line is one terminated line |
| CodexQuery.TemperatureLineClosed | codex_query.py:66 | the temperature line is one terminated line |
| CodexQuery.MaxTokensLineClosed | codex_query.py:67 | the max_tokens line is one terminated line |
| CodexQuery.ShellLineClosed | codex_query.py:68 | the shell line is one terminated line |
| CodexQuery.CountLineClosed | codex_query.py:69 | the token_count line is one terminated line |
| CodexQuery.SixClosed | codex_query.py:65-70 | six terminated lines form a closed block |
| CodexQuery.BlockClosed | codex_query.py:65-70 | the header lines and the empty line are closed lines |
| CodexQuery.BlockFirst | codex_query.py:97-107 | a file starting with the block has headers |
| CodexQuery.BlockLines | codex_query.py:63-70 | the block, the empty line and a well-formed body read back line by line |
| CodexQuery.ReadBlock | codex_query.py:109-134 | a file made of the block reads as the defaults with that count |
| CodexQuery.FreshFile | codex_query.py:63-95 | without a file: creates block + empty line, nothing else, returns the defaults |
| CodexQuery.HeadersPrepended | codex_query.py:71-95 | a file without headers gets the block with its own word count in front, the staging file the same text |
| CodexQuery.EmptyFileRaises | codex_query.py:101-104 | an empty file makes `initialize` raise `IndexError` and write nothing |
| CodexQuery.InitializeStable | codex_query.py:63-95 | initialising twice is initialising once |
| CodexQuery.KeptClosed | codex_query.py:150-156 | the kept lines stay closed |
| CodexQuery.UpdatedPrompt | codex_query.py:136-171 | keeps the five headers, drops lines 5-6 iff count + input words > 2048, appends the input, returns the rest |
| CodexQuery.AppendAfterKept | codex_query.py:158-169 | the input appended after closed lines is read back after them |
| CodexQuery.UpdateWithinLimit | codex_query.py:144-171 | within the limit the update only appends and returns what follows the headers |
| CodexQuery.BlockText | codex_query.py:63-70 | the written block ends with a line break and reads back as itself |
| CodexQuery.UpdateAfterBlock | codex_query.py:144-171 | after the fresh block the line is appended and returned after the empty line |
| CodexQuery.FreshUpdate | codex_query.py:136-171 | on a fresh file the update appends the line and returns it with the empty line |
| CodexQuery.EmptyReplyIsNoCommand | codex_query.py:173-287 | the reply is "" iff no command or a `set` without three words, and nothing changes then |
| CodexQuery.SetOnlyInMemory | codex_query.py:187-205 | only the `set` commands change the dictionary, and they write no file |
| CodexQuery.ClearingBreaksNextStart | codex_query.py:208-215 | `unlearn all` and `clear context` empty the file, and the next `initialize` raises `IndexError` |
| CodexQuery.UnlearnDropsTwo | codex_query.py:216-227 | `unlearn` removes the last two lines; the rest followed by them is the old text |
| CodexQuery.SaveSpec | codex_query.py:258-278 | three words raise `IndexError`; else a missing file raises `FileNotFoundError`, a missing shell `KeyError('shell')`, every shell but PowerShell `ValueError` with nothing written; under PowerShell a verbatim copy to `saved\<stamp>.txt` and nothing else |
| CodexQuery.ContextReplies | codex_query.py:231-285 | the context and unlearn commands reply with one of the three replies that end the run |
| CodexQuery.PrefixLines | codex_query.py:332-342 | every prefix but PowerShell's is a comment line and an empty line; PowerShell's has no line break |
| CodexQuery.QuerySpec | codex_query.py:328-370 | the three exit replies send nothing; else the query ends with the prompt and the answer's first line is appended |
| CodexQuery.QuerySent | codex_query.py:332-369 | a prompt sent after the shell's prefix; the answer's first line and a break are appended |
| CodexQuery.FreshPrompt | codex_query.py:289-305 | on a fresh file, a line that is no command is appended and returned after the empty line |
| CodexQuery.ShellClean | codex_query.py:317 | the detected shell name is a clean header value |
| CodexQuery.RunAfterInit | codex_query.py:321-326 | a run whose start and prompt end as given continues into the query |
| CodexQuery.FreshRun | codex_query.py:321-344 | the first run without a file reaches the query with the empty line and the line |
| CodexQuery.LeadingBreakEndsNoRun | codex_query.py:329 | a prompt starting with a line break is no exit reply |
| CodexQuery.FirstQuery | codex_query.py:321-370 | the first run writes block, empty line and line; sends prefix, empty line and line; appends the answer's first line |
| CodexQuery.ContextCommandsEndTheRun | codex_query.py:328-330 | after a context or unlearn command nothing is sent |
| CodexQuery.SetReplyIsSent | codex_query.py:289-307 | after `set temperature` the run sends a query ending with "temperature set" |
| CodexQuery.NoKeywordLetters | codex_query.py:187-287 | a line without 'm', 'u' and 'c' is no command |
| CreateCompletion.UpdateStep | create_completion.py:64-101 | `get_updated_prompt_file`; law in UpdateSpec |
| CreateCompletion.Classify | create_completion.py:103-180 | the keyword chain in the source's order; law in EveryCommandEndsTheRun |
| CreateCompletion.CommandStep | create_completion.py:103-180 | what each command does and its reply; laws in EveryCommandEndsTheRun, SaveCopies and UnlearnDropsTwo |
| CreateCompletion.Prefix | create_completion.py:212-216 | the priming line; law in NonPowerShellPrimedAsZsh |
| CreateCompletion.RunStep | create_completion.py:202-242 | the whole run; law in QueryRun |
| CreateCompletion.GetUpdatedPromptFile | create_completion.py:64-101 | the files and prompt are those of the update step |
| CreateCompletion.GetCommandResult | create_completion.py:103-180 | the files and reply are those of the command step |
| CreateCompletion.GetPrompt | create_completion.py:182-200 | the reply, or the updated file for input that is no command |
| CreateCompletion.Run | create_completion.py:202-242 | the files and query sent are those of the whole run |
| CreateCompletion.UpdateSpec | create_completion.py:64-101 | `FileNotFound` without a file; drops the first two lines iff file + input words > 2048; appends; the whole file is returned and ends with the input |
| CreateCompletion.RefreshDropsTwoLinesOfWords | create_completion.py:82-89 | the words dropped are those of the two removed lines |
| CreateCompletion.EveryCommandEndsTheRun | create_completion.py:103-180 | every reply is "" or one of the three exit replies; "" iff no command, and then nothing changes |
| CreateCompletion.SaveCopies | create_completion.py:162-171 | `save context` copies the file verbatim to `<stamp>.txt` |
| CreateCompletion.UnlearnDropsTwo | create_completion.py:128-139 | `unlearn` removes the last two lines; the rest followed by them is the old text |
| CreateCompletion.NonPowerShellPrimedAsZsh | create_completion.py:213-216 | every parent that is not PowerShell is primed with the zsh line |
| CreateCompletion.QueryRun | create_completion.py:202-242 | a query run sends prefix + whole updated file and appends the answer's first line |
| MultiTurnDriver.StartStep | src/codex_query.py:51-75 | `detect_shell` then `initialize`; laws in StartWithoutTemplate, StartFromTemplate and StartConfig |
| MultiTurnDriver.RecordStep | src/codex_query.py:156-158 | appends the exchange only in multi-turn mode with a non-empty answer |
| MultiTurnDriver.ExchangeStep | src/codex_query.py:134-158 | read the prompt, read the request's arguments, record; laws in ExchangeOnlyReads, ExchangeRecords and ExchangeWithoutModel |
| MultiTurnDriver.RunStep | src/codex_query.py:118-158 | the whole run; laws in RunNeverRecords and HeaderConfigRaises |
| MultiTurnDriver.PromptName | src/codex_query.py:112-115 | the shell's saved context when it exists, the working file otherwise |
| MultiTurnDriver.Initialize | src/codex_query.py:51-75 | the object and files, or the exception, are those of the start step |
| MultiTurnDriver.GetQuery | src/codex_query.py:78-98 | the query, or None when a command ran, as the step says |
| MultiTurnDriver.Record | src/codex_query.py:156-158 | appends the exchange only in multi-turn mode with a non-empty answer |
| MultiTurnDriver.RequestArguments | src/codex_query.py:137-148 | the request is built iff `model`, `shell` (a string), `temperature` and `max_tokens` are in the config; without `model` it raises `KeyError('model')` |
| MultiTurnDriver.Exchange | src/codex_query.py:125-158 | reads the prompt, reads the request's arguments from the config taken before the read, then records, as the step says |
| MultiTurnDriver.Run | src/codex_query.py:118-158 | the files and query sent, or the exception, are those of the whole run, including `KeyError('model')` at the request |
| MultiTurnDriver.TemplateNameDiffers | src/codex_query.py:112-115 | a saved context is never named like the working file |
| MultiTurnDriver.StartWithoutTemplate | src/codex_query.py:66-75 | built-in config, no file written, and `KeyError('engine')` unless the file already has headers |
| MultiTurnDriver.StartFromTemplate | src/codex_query.py:112-120 | the template is copied into the missing working file; the run goes on iff it starts with a header line |
| MultiTurnDriver.GetQuerySpec | src/codex_query.py:78-98 | the input goes on iff it is no command, and then the prompt file is untouched |
| MultiTurnDriver.ExchangeOnlyReads | src/codex_query.py:134-158 | for a config with the request's keys, outside multi-turn mode or with an empty answer, sends conversation + query and writes nothing |
| MultiTurnDriver.ExchangeRecords | src/codex_query.py:134-158 | for a config with the request's keys, multi-turn with an answer: sends conversation + query; conversation grows by both; count stays in sync |
| MultiTurnDriver.ExchangeWithoutModel | src/codex_query.py:134-137 | without `model` in the config the exchange raises: `KeyError('model')` once the prompt is read, nothing sent or recorded |
| MultiTurnDriver.LayoutKeys | src/prompt_file.py:89-96 | the header keys are the six fields' keys, none of them `model` |
| MultiTurnDriver.ImportKeys | src/prompt_file.py:16-47 | the import keeps the given config or replaces it by one with exactly the header keys |
| MultiTurnDriver.SyncKeys | src/prompt_file.py:57-58 | resynchronising the count changes no key, and outside multi-turn mode nothing |
| MultiTurnDriver.InitKeys | src/prompt_file.py:15-58 | `__init__` ends with the import's keys, and outside multi-turn mode with the import's config |
| MultiTurnDriver.StartConfig | src/codex_query.py:51-75 | a run starts from the built-in config or from one with exactly the header keys and no `model` |
| MultiTurnDriver.RunNeverRecords | src/codex_query.py:118-158 | a run that sends started from the built-in config, sends conversation + input, and leaves only what reading the prompt wrote: no run records |
| MultiTurnDriver.HeaderConfigRaises | src/codex_query.py:118-168 | a run from a header-read config on a non-command ends in `KeyError('model')` after reading the prompt |

## Left out

- The model calls (`openai.Completion.create`, `openai.ChatCompletion.create`): the answer is a parameter, and API errors are not modelled.
- Reading the ini file with `configparser`, the API keys, and `create_template_ini_file`: the model name is a parameter, and the script's exit when the ini file is missing is not modelled.
- `psutil` and the parent process: the process name is an input.
- `time.strftime`: the time stamp is an input.
- `print` output is not modelled. This includes the text `show config` and `context show` print; the lines shown are modelled (`ContextModeCommands.ShownLines`).
- `os.system` (`context edit` and `context view`, which open an editor) is not modelled. Only the `KeyError` for a missing shell is kept.
- `sys.exit` and `input()`: a run that stops is a `None` result, and the typed line is an input. The `DEBUG_MODE` branch of src/codex_query.py reads the same line.
- The drivers' `except` clauses: a `Raised` result stands for the error message they print.
- Paths: directories and `os.path.join` are abstracted to fixed key prefixes (`contexts/`, `deleted/`, `saved/`).
- CodexQuery.CommandStep: the `saved\<stamp>.txt` name under PowerShell in codex_query.py is one plain name on POSIX, as modelled. On Windows `\` is a separator too, so `with_name` would raise `ValueError` there as well. Windows path semantics are not modelled.
- `context show` in src/commands.py:96 opens `prompt_file.file_name`, a bare name relative to the working directory, while src/prompt_file.py uses `file_path` elsewhere. Both are taken to name the working file.
- `float()`: a float header value is kept as its text. Parsing it (and the `ValueError` of a malformed one) is left out.
- Text.ParseInt: accepts an optional sign and ASCII digits with single underscores between them, as `int()` does on a stripped text; the other Unicode decimal digits `int()` also accepts are not modelled.
- TextLines.Lines: reads the characters as stored. Text-mode `open(..., 'r')` turns `'\r\n'` and `'\r'` into `'\n'`, so on a file holding `'\r'` the model keeps characters Python drops; files are taken to use `'\n'` line breaks.
- `str.split()` and `strip()` use ASCII whitespace only. Python's Unicode whitespace is not modelled.
- The token count must be an `int`. Any other value gives `TypeError` instead of Python's wider arithmetic.
- `load_context` in src/prompt_file.py returns `None` or `False`; the model returns a boolean.
- The temporary `temp.txt` file in codex_query.py is modelled as a key. Its `open` without `close` is not modelled.
