/**
 * What the shared prompt-file operations guarantee: the header block
 * `set_headers` writes and reads back, the truncation of `read_prompt_file`,
 * the repair done by `get_token_count`, the token count that
 * `add_input_output_pair` keeps in step with the file, and the copies made by
 * the context commands.
 */
module ContextLaws {
  import opened Outcomes
  import opened Text
  import opened TextLines
  import opened Headers
  import opened Disk
  import opened ContextFile

  // ---------------------------------------------------------------------------
  // Helpers
  // ---------------------------------------------------------------------------

  lemma MarkerLine(v: Variant, c: Config)
    requires Valid(v) && HeaderLines(c, v.layout).Ok?
    ensures Contains(HeaderLines(c, v.layout).value[0], Marker)
  {
    HeaderLinesSpec(c, v.layout);
    EngineLine(Render(c["engine"]));
  }

  lemma EngineLine(t: string)
    ensures Contains(HeaderLine("engine", Str(t)), Marker)
  {
    var h := HeaderLine("engine", Str(t));
    assert h == Marker + (" " + t + "\n");
  }

  /** `has_headers` looks only at the first line. */
  lemma HeadersPresentFirstLine(files: map<string, string>, path: string, text: string)
    requires path in files && Lines(files[path]) != [] && Lines(text) != [] && Lines(text)[0] == Lines(files[path])[0]
    ensures HeadersPresent(files[path := text], path) == HeadersPresent(files, path)
  {
  }

  lemma BodyWellFormed(files: map<string, string>, path: string)
    ensures WellFormed(Body(files, path))
  {
    if path in files {
      LinesWellFormed(files[path]);
      Suffix(Lines(files[path]), 6);
    }
  }

  lemma ConformsNoBreaks(c: Config, layout: seq<Field>)
    requires Conforms(c, layout)
    ensures NoBreaks(c, layout)
  {
    forall i | 0 <= i < |layout| ensures '\n' !in Render(c[layout[i].key]) {
      FitsClean(c[layout[i].key], layout[i].kind);
    }
  }

  lemma UpdateNoBreaks(c: Config, layout: seq<Field>, k: string, x: Value)
    requires NoBreaks(c, layout) && '\n' !in Render(x)
    ensures NoBreaks(c[k := x], layout)
  {
  }

  lemma CountNoBreaks(n: int)
    ensures '\n' !in Render(Int(n))
  {
  }

  /** The token-count header written for `n` reads back as `n`. */
  lemma CountLine(v: Variant, c: Config, body: seq<string>)
    requires Valid(v) && HeaderLines(c, v.layout).Ok? && "token_count" in c && c["token_count"].Int?
    ensures StoredCount(HeaderLines(c, v.layout).value + body) == Ok(c["token_count"].i)
  {
    HeaderLinesSpec(c, v.layout);
    var n := c["token_count"].i;
    var ls := HeaderLines(c, v.layout).value + body;
    assert ls[5] == HeaderLine("token_count", Int(n));
    IntRoundTrip(n);
    FieldOfHeader("token_count", IntToString(n));
  }

  // ---------------------------------------------------------------------------
  // set_headers and read_headers
  // ---------------------------------------------------------------------------

  /**
   * `set_headers(c)` stores `c`, writes the header block of `c` in front of
   * the lines after the old block (or of all lines when there was none), and
   * touches no other file. It raises the `KeyError` of the first missing key,
   * and otherwise an `IndexError` exactly when the file exists and is empty.
   */
  lemma SetHeadersSpec(v: Variant, s: State, c: Config)
    requires Valid(v) && NoBreaks(c, v.layout)
    ensures SetHeadersStep(v, s, c).state.config == c
    ensures SetHeadersStep(v, s, c).result.Ok? <==>
      HeaderLines(c, v.layout).Ok? && !(v.path in s.files && s.files[v.path] == "")
    ensures HeaderLines(c, v.layout).Raised? ==> SetHeadersStep(v, s, c).result == Raised(HeaderLines(c, v.layout).exc)
    ensures HeaderLines(c, v.layout).Ok? && SetHeadersStep(v, s, c).result.Raised? ==>
      SetHeadersStep(v, s, c).result == Raised(IndexError)
    ensures SetHeadersStep(v, s, c).result.Raised? ==> SetHeadersStep(v, s, c).state.files == s.files
    ensures SetHeadersStep(v, s, c).result.Ok? ==>
      var files := SetHeadersStep(v, s, c).state.files;
      && v.path in files
      && files == s.files[v.path := files[v.path]]
      && Lines(files[v.path]) == HeaderLines(c, v.layout).value + Body(s.files, v.path)
      && HeadersPresent(files, v.path) == Ok(true)
  {
    var st := SetHeadersStep(v, s, c);
    if st.result.Ok? {
      var hs := HeaderLines(c, v.layout).value;
      var body := Body(s.files, v.path);
      BodyWellFormed(s.files, v.path);
      assert st.state.files == s.files[v.path := Join(hs + body)];
      HeadedLines(c, v.layout, body);
      MarkerLine(v, c);
      assert Lines(st.state.files[v.path])[0] == hs[0];
    }
  }

  /** `set_headers(c)` stores `c` whatever happens next. */
  lemma SetHeadersConfig(v: Variant, s: State, c: Config)
    ensures SetHeadersStep(v, s, c).state.config == c
  {
  }

  /** `set_headers(c)` on a file that has a header block replaces that block. */
  lemma SetHeadersOnHeaded(v: Variant, s: State, c: Config)
    requires HeaderLines(c, v.layout).Ok? && HeadersPresent(s.files, v.path) == Ok(true)
    ensures SetHeadersStep(v, s, c) ==
      Step(State(s.files[v.path := Join(HeaderLines(c, v.layout).value + Drop(Lines(s.files[v.path]), 6))], c), Ok(()))
  {
  }

  /** Writing the same headers twice is writing them once. */
  lemma SetHeadersIdempotent(v: Variant, s: State, c: Config)
    requires Valid(v) && NoBreaks(c, v.layout) && SetHeadersStep(v, s, c).result.Ok?
    ensures SetHeadersStep(v, SetHeadersStep(v, s, c).state, c) == SetHeadersStep(v, s, c)
  {
    var s1 := SetHeadersStep(v, s, c).state;
    SetHeadersSpec(v, s, c);
    var hs := HeaderLines(c, v.layout).value;
    var body := Body(s.files, v.path);
    var text := Join(hs + body);
    assert s1 == State(s.files[v.path := text], c);
    assert Lines(text) == hs + body;
    assert Drop(hs + body, 6) == body;
    SetHeadersOnHeaded(v, s1, c);
    assert s1.files[v.path := text] == s1.files;
  }

  /**
   * Header round trip: after `set_headers(c)`, `read_headers()` returns the
   * header fields of `c` (all of `c` when it holds nothing else) and stores them.
   */
  lemma HeadersReadBack(v: Variant, s: State, c: Config)
    requires Valid(v) && Conforms(c, v.layout) && SetHeadersStep(v, s, c).result.Ok?
    ensures ReadHeadersStep(v, SetHeadersStep(v, s, c).state) ==
      Step(SetHeadersStep(v, s, c).state.(config := Project(c, v.layout)), Ok(Project(c, v.layout)))
    ensures c.Keys == KeysOf(v.layout) ==> ReadHeadersStep(v, SetHeadersStep(v, s, c).state).result == Ok(c)
  {
    ConformsNoBreaks(c, v.layout);
    SetHeadersSpec(v, s, c);
    HeadersRoundTrip(c, v.layout, Body(s.files, v.path));
    if c.Keys == KeysOf(v.layout) {
      ProjectWhole(c, v.layout);
    }
  }

  // ---------------------------------------------------------------------------
  // read_prompt_file
  // ---------------------------------------------------------------------------

  /**
   * `read_prompt_file(input)` never changes the config. It fails, changing
   * nothing, without an integer token count or without the file. Otherwise,
   * when the stored count plus the input's words exceeds 2048 it leaves the
   * file as the header lines followed by all but the first two conversation
   * lines and returns those; when it does not it changes nothing and returns
   * the whole conversation.
   */
  lemma ReadPromptSpec(v: Variant, s: State, input: string)
    ensures ReadPromptStep(v, s, input).state.config == s.config
    ensures ReadPromptStep(v, s, input).result.Ok? <==>
      "token_count" in s.config && s.config["token_count"].Int? && v.path in s.files
    ensures "token_count" !in s.config ==> ReadPromptStep(v, s, input) == Fail(s, KeyError("token_count"))
    ensures "token_count" in s.config && !s.config["token_count"].Int? ==> ReadPromptStep(v, s, input) == Fail(s, TypeError)
    ensures "token_count" in s.config && s.config["token_count"].Int? && v.path !in s.files ==>
      ReadPromptStep(v, s, input) == Fail(s, FileNotFound)
    ensures ReadPromptStep(v, s, input).result.Ok? && s.config["token_count"].i + WordCount(input) > TokenLimit ==>
      var ls := Lines(s.files[v.path]);
      var files := ReadPromptStep(v, s, input).state.files;
      && v.path in files
      && files == s.files[v.path := files[v.path]]
      && Lines(files[v.path]) == Take(ls, 6) + Drop(ls, 8)
      && ReadPromptStep(v, s, input).result.value == Join(Drop(ls, 8))
    ensures ReadPromptStep(v, s, input).result.Ok? && s.config["token_count"].i + WordCount(input) <= TokenLimit ==>
      ReadPromptStep(v, s, input) == Step(s, Ok(Transcript(s.files[v.path])))
  {
    var st := ReadPromptStep(v, s, input);
    if st.result.Ok? && s.config["token_count"].i + WordCount(input) > TokenLimit {
      var ls := Lines(s.files[v.path]);
      var kept := Take(ls, 6) + Drop(ls, 8);
      JoinAppend(Take(ls, 6), Drop(ls, 8));
      LinesWellFormed(s.files[v.path]);
      Splice(ls, 6, 8);
      LinesJoin(kept);
      assert st.state.files[v.path] == Join(kept);
      assert Drop(kept, 6) == Drop(ls, 8) by {
        if |ls| >= 8 {
          assert kept == ls[..6] + ls[8..];
        } else if |ls| >= 6 {
          assert kept == ls[..6];
        } else {
          assert kept == ls;
        }
      }
    }
  }

  // ---------------------------------------------------------------------------
  // get_token_count
  // ---------------------------------------------------------------------------

  /** The counting loop counts the words of the conversation text. */
  lemma TrueCountWords(text: string)
    ensures TrueCount(text) == WordCount(Transcript(text))
  {
    LinesWellFormed(text);
    Suffix(Lines(text), 6);
    SumWordsJoin(Drop(Lines(text), 6));
  }

  /**
   * On a file with a readable header block, `get_token_count()` returns the
   * number of words in the conversation, leaves the conversation as it was,
   * and afterwards the stored token-count header holds that number.
   */
  lemma TokenCountRepairs(v: Variant, s: State)
    requires Valid(v) && v.path in s.files && HeadersPresent(s.files, v.path) == Ok(true)
    requires StoredCount(Lines(s.files[v.path])).Ok?
    requires HeaderLines(s.config, v.layout).Ok? && NoBreaks(s.config, v.layout)
    ensures TokenCountStep(v, s).result == Ok(WordCount(Transcript(s.files[v.path])))
    ensures var files := TokenCountStep(v, s).state.files;
      && v.path in files
      && files == s.files[v.path := files[v.path]]
      && Transcript(files[v.path]) == Transcript(s.files[v.path])
      && StoredCount(Lines(files[v.path])) == TokenCountStep(v, s).result
      && HeadersPresent(files, v.path) == Ok(true)
  {
    var text := s.files[v.path];
    var n := TrueCount(text);
    TrueCountWords(text);
    if StoredCount(Lines(text)) != Ok(n) {
      var c := s.config["token_count" := Int(n)];
      HeaderLinesUpdate(s.config, v.layout, "token_count", Int(n));
      CountNoBreaks(n);
      UpdateNoBreaks(s.config, v.layout, "token_count", Int(n));
      SetHeadersSpec(v, s, c);
      var body := Body(s.files, v.path);
      var hs := HeaderLines(c, v.layout).value;
      var files := SetHeadersStep(v, s, c).state.files;
      assert Lines(files[v.path]) == hs + body;
      CountLine(v, c, body);
      assert Drop(hs + body, 6) == body;
    }
  }

  // ---------------------------------------------------------------------------
  // add_input_output_pair
  // ---------------------------------------------------------------------------

  /**
   * The multi-turn invariant: the file has its header block and the config's
   * token count is the number of words in the conversation.
   */
  predicate Synced(v: Variant, s: State)
    requires Valid(v)
  {
    v.path in s.files && |Lines(s.files[v.path])| >= 6 &&
    HeadersPresent(s.files, v.path) == Ok(true) &&
    "token_count" in s.config && HeaderLines(s.config, v.layout).Ok? && NoBreaks(s.config, v.layout) &&
    s.config["token_count"] == Int(TrueCount(s.files[v.path]))
  }

  /** Appending to a file that ends with a line break puts the new text at the end of the conversation. */
  lemma AppendToConversation(text: string, more: string)
    requires Terminated(text) && |Lines(text)| >= 6
    ensures Drop(Lines(text + more), 6) == Drop(Lines(text), 6) + Lines(more)
    ensures Transcript(text + more) == Transcript(text) + more
    ensures TrueCount(text + more) == TrueCount(text) + WordCount(more)
    ensures Take(Lines(text + more), 6) == Take(Lines(text), 6)
    ensures |Lines(text + more)| >= 6 && Lines(text + more)[0] == Lines(text)[0]
  {
    var ls := Lines(text);
    LinesAppend(text, more);
    assert Drop(Lines(text + more), 6) == Drop(ls, 6) + Lines(more);
    JoinAppend(Drop(ls, 6), Lines(more));
    JoinLines(more);
    SumWordsAppend(Drop(ls, 6), Lines(more));
    TextWords(more);
  }

  /**
   * In multi-turn mode `add_input_output_pair(q, r)` keeps the invariant: the
   * conversation grows by exactly `q + r`, and the stored count, which the
   * invariant ties to the conversation's words, with it.
   * (The two counts agree when the words of `q` cannot run into those of `r`.)
   */
  lemma AddPairKeepsCount(v: Variant, s: State, q: string, r: string)
    requires Valid(v) && Synced(v, s) && Terminated(s.files[v.path])
    requires Flag(v) in s.config && s.config[Flag(v)] == Str("on")
    requires q == [] || IsSpace(q[|q| - 1])
    ensures AddPairStep(v, s, q, r).result.Ok?
    ensures Synced(v, AddPairStep(v, s, q, r).state)
    ensures Transcript(AddPairStep(v, s, q, r).state.files[v.path]) == Transcript(s.files[v.path]) + (q + r)
  {
    var n := s.config["token_count"].i + WordCount(q) + WordCount(r);
    AddPairOn(v, s, q, r, n);
    AddPairRestores(v, s, q, r, n);
  }

  /**
   * In multi-turn mode `add_input_output_pair(q, r)` changes only the token
   * count of the config, raising it by the words of `q` and of `r`.
   */
  lemma AddPairConfig(v: Variant, s: State, q: string, r: string)
    requires |v.layout| > 4 && Flag(v) in s.config && s.config[Flag(v)] == Str("on")
    requires v.path in s.files && "token_count" in s.config && s.config["token_count"].Int?
    ensures AddPairStep(v, s, q, r).state.config ==
      s.config["token_count" := Int(s.config["token_count"].i + WordCount(q) + WordCount(r))]
  {
    var n := s.config["token_count"].i + WordCount(q) + WordCount(r);
    AddPairOn(v, s, q, r, n);
    SetHeadersConfig(v, s.(files := s.files[v.path := s.files[v.path] + (q + r)]), s.config["token_count" := Int(n)]);
  }

  /** The append followed by `set_headers` with the count raised by the new words restores the invariant. */
  lemma AddPairRestores(v: Variant, s: State, q: string, r: string, n: int)
    requires Valid(v) && Synced(v, s) && Terminated(s.files[v.path])
    requires q == [] || IsSpace(q[|q| - 1])
    requires n == s.config["token_count"].i + WordCount(q) + WordCount(r)
    ensures var s1 := s.(files := s.files[v.path := s.files[v.path] + (q + r)]);
      var st := SetHeadersStep(v, s1, s.config["token_count" := Int(n)]);
      && st.result.Ok? && Synced(v, st.state)
      && Transcript(st.state.files[v.path]) == Transcript(s.files[v.path]) + (q + r)
  {
    var text := s.files[v.path];
    var text1 := text + (q + r);
    var c := s.config["token_count" := Int(n)];
    var s1 := s.(files := s.files[v.path := text1]);
    HeaderLinesUpdate(s.config, v.layout, "token_count", Int(n));
    PairAppended(text, q, r);
    HeadersPresentFirstLine(s.files, v.path, text1);
    CountNoBreaks(n);
    UpdateNoBreaks(s.config, v.layout, "token_count", Int(n));
    AddPairSync(v, s1, c, text1);
  }

  /** The text after appending a query and its answer to a file that ends with a line break. */
  lemma PairAppended(text: string, q: string, r: string)
    requires Terminated(text) && |Lines(text)| >= 6
    requires q == [] || IsSpace(q[|q| - 1])
    ensures |Lines(text + (q + r))| >= 6 && Lines(text + (q + r))[0] == Lines(text)[0]
    ensures TrueCount(text + (q + r)) == TrueCount(text) + WordCount(q) + WordCount(r)
    ensures Transcript(text + (q + r)) == Transcript(text) + (q + r)
  {
    AppendToConversation(text, q + r);
    WordCountAppend(q, r);
  }

  /** The multi-turn branch of `add_input_output_pair`: append, then `set_headers` with the raised count. */
  lemma AddPairOn(v: Variant, s: State, q: string, r: string, n: int)
    requires |v.layout| > 4 && Flag(v) in s.config && s.config[Flag(v)] == Str("on")
    requires "token_count" in s.config && s.config["token_count"].Int?
    requires n == s.config["token_count"].i + WordCount(q) + WordCount(r)
    ensures AddPairStep(v, s, q, r) ==
      SetHeadersStep(v, s.(files := s.files[v.path := Contents(s.files, v.path) + (q + r)]), s.config["token_count" := Int(n)])
  {
  }

  /** `set_headers(c)` on a headed file whose conversation holds `c`'s token count restores the invariant. */
  lemma AddPairSync(v: Variant, s: State, c: Config, text: string)
    requires Valid(v) && v.path in s.files && s.files[v.path] == text && |Lines(text)| >= 6
    requires HeadersPresent(s.files, v.path) == Ok(true)
    requires NoBreaks(c, v.layout) && HeaderLines(c, v.layout).Ok?
    requires "token_count" in c && c["token_count"] == Int(TrueCount(text))
    ensures SetHeadersStep(v, s, c).result.Ok?
    ensures Synced(v, SetHeadersStep(v, s, c).state)
    ensures SetHeadersStep(v, s, c).state.config == c
    ensures Transcript(SetHeadersStep(v, s, c).state.files[v.path]) == Transcript(text)
  {
    SetHeadersSpec(v, s, c);
    var hs := HeaderLines(c, v.layout).value;
    var body := Body(s.files, v.path);
    assert body == Drop(Lines(text), 6);
    var text2 := SetHeadersStep(v, s, c).state.files[v.path];
    assert Lines(text2) == hs + body;
    assert Drop(hs + body, 6) == body;
  }

  /**
   * With the switch off `add_input_output_pair(q, r)` only appends: the
   * conversation grows by `q + r`, the header lines and the config stay as they
   * were, so the stored count falls behind by the words added.
   */
  lemma AddPairWhenOff(v: Variant, s: State, q: string, r: string)
    requires Valid(v) && Flag(v) in s.config && s.config[Flag(v)] != Str("on")
    requires v.path in s.files && Terminated(s.files[v.path]) && |Lines(s.files[v.path])| >= 6
    ensures AddPairStep(v, s, q, r).result.Ok?
    ensures AddPairStep(v, s, q, r).state.config == s.config
    ensures var text := AddPairStep(v, s, q, r).state.files[v.path];
      && Take(Lines(text), 6) == Take(Lines(s.files[v.path]), 6)
      && Transcript(text) == Transcript(s.files[v.path]) + (q + r)
      && TrueCount(text) == TrueCount(s.files[v.path]) + WordCount(q + r)
  {
    var text := s.files[v.path];
    AppendToConversation(text, q + r);
  }

  // ---------------------------------------------------------------------------
  // clear, clear_last_interaction, save_to
  // ---------------------------------------------------------------------------

  /**
   * `clear()` as written: the file is archived verbatim and emptied, and the
   * closing `set_headers` then always raises (an `IndexError` from
   * `has_headers`, since the file is empty), leaving the file empty.
   */
  lemma ClearRaises(v: Variant, s: State, stamp: string)
    requires Valid(v) && v.path in s.files && ReadHeadersStep(v, s).result.Ok?
    ensures ClearStep(v, s, stamp).state.files == s.files[Archive(v, stamp) := s.files[v.path]][v.path := ""]
    ensures ClearStep(v, s, stamp).state.config == ReadHeadersStep(v, s).result.value
    ensures ClearStep(v, s, stamp).result.Raised?
    ensures HeaderLines(ReadHeadersStep(v, s).result.value, v.layout).Ok? ==> ClearStep(v, s, stamp).result == Raised(IndexError)
  {
    var r := ReadHeadersStep(v, s);
    ReadHeadersKeepsFiles(v, s);
    var c := r.result.value;
    JoinLines(s.files[v.path]);
    var files := s.files[Archive(v, stamp) := s.files[v.path]][v.path := ""];
    var s2 := r.state.(files := files);
    assert ClearStep(v, s, stamp) == SetHeadersStep(v, s2, c);
    assert HeadersPresent(files, v.path) == Raised(IndexError);
  }

  /** `read_headers()` reads the file and changes only the config. */
  lemma ReadHeadersKeepsFiles(v: Variant, s: State)
    ensures ReadHeadersStep(v, s).state.files == s.files
    ensures ReadHeadersStep(v, s).result.Ok? ==> ReadHeadersStep(v, s).state.config == ReadHeadersStep(v, s).result.value
  {
  }

  /**
   * `clear_last_interaction()`: with more than one line the last two are
   * removed, and what remains followed by them is the old text; otherwise
   * nothing changes. Without the file it raises.
   */
  lemma ClearLastSpec(v: Variant, s: State)
    ensures ClearLastStep(v, s).state.config == s.config
    ensures v.path !in s.files ==> ClearLastStep(v, s) == Fail(s, FileNotFound)
    ensures v.path in s.files && |Lines(s.files[v.path])| <= 1 ==> ClearLastStep(v, s) == Step(s, Ok(()))
    ensures v.path in s.files && |Lines(s.files[v.path])| > 1 ==>
      var ls := Lines(s.files[v.path]);
      var files := ClearLastStep(v, s).state.files;
      && ClearLastStep(v, s).result.Ok?
      && files == s.files[v.path := Join(ls[..|ls| - 2])]
      && Lines(files[v.path]) == ls[..|ls| - 2]
      && files[v.path] + ls[|ls| - 2] + ls[|ls| - 1] == s.files[v.path]
  {
    if v.path in s.files && |Lines(s.files[v.path])| > 1 {
      DropLastTwo(s.files[v.path]);
    }
  }

  lemma DropLastTwo(text: string)
    requires |Lines(text)| > 1
    ensures var ls := Lines(text);
      Lines(Join(ls[..|ls| - 2])) == ls[..|ls| - 2] && Join(ls[..|ls| - 2]) + ls[|ls| - 2] + ls[|ls| - 1] == text
  {
    var ls := Lines(text);
    var k := |ls| - 2;
    LinesWellFormed(text);
    Prefix(ls, k);
    LinesJoin(ls[..k]);
    var last := [ls[k], ls[k + 1]];
    assert ls == ls[..k] + last;
    JoinAppend(ls[..k], last);
    assert last[1..] == [ls[k + 1]] && [ls[k + 1]][1..] == [];
    assert Join([ls[k + 1]]) == ls[k + 1] + Join([]) == ls[k + 1];
    assert Join(last) == ls[k] + Join([ls[k + 1]]);
    JoinLines(text);
  }

  /** `save_to(name)` copies the file verbatim to the contexts folder and changes nothing else. */
  lemma SaveToSpec(v: Variant, s: State, name: string)
    ensures v.path !in s.files ==> SaveToStep(v, s, name) == Fail(s, FileNotFound)
    ensures v.path in s.files ==>
      SaveToStep(v, s, name) == Step(s.(files := s.files[Saved(v, name) := s.files[v.path]]), Ok(()))
  {
    if v.path in s.files {
      JoinLines(s.files[v.path]);
    }
  }

  // ---------------------------------------------------------------------------
  // The multi-turn switch and the default context
  // ---------------------------------------------------------------------------

  /**
   * Switching the mode on (or off) writes the switch's header line, and doing
   * it a second time changes nothing.
   */
  lemma SetFlagIdempotent(v: Variant, s: State, x: string)
    requires Valid(v) && NoBreaks(s.config, v.layout) && '\n' !in x && SetFlagStep(v, s, x).result.Ok?
    ensures SetFlagStep(v, SetFlagStep(v, s, x).state, x) == SetFlagStep(v, s, x)
    ensures var files := SetFlagStep(v, s, x).state.files;
      v.path in files && 4 < |Lines(files[v.path])| &&
      Lines(files[v.path])[4] == HeaderLine(v.layout[4].tag, Str(x))
  {
    var c := s.config[Flag(v) := Str(x)];
    UpdateNoBreaks(s.config, v.layout, Flag(v), Str(x));
    HeaderLinesSpec(c, v.layout);
    SetHeadersSpec(v, s, c);
    SetHeadersIdempotent(v, s, c);
    assert c[Flag(v) := Str(x)] == c;
  }

  /** Replacing lines `k..` by the header block of `fields`, when the file is long enough and every key is set. */
  lemma {:induction false} RestampSpec(lines: seq<string>, c: Config, fields: seq<Field>, k: nat)
    requires k + |fields| <= |lines| && HeaderLines(c, fields).Ok?
    ensures Restamp(lines, c, fields, k) == Ok(lines[..k] + HeaderLines(c, fields).value + lines[k + |fields|..])
    decreases |fields|
  {
    if fields == [] {
      assert lines[..k] + [] + lines[k..] == lines;
    } else {
      var h := HeaderLine(fields[0].tag, c[fields[0].key]);
      var lines1 := lines[k := h];
      var rest := fields[1..];
      var m := HeaderLines(c, rest).value;
      assert HeaderLines(c, fields).value == [h] + m;
      RestampSpec(lines1, c, rest, k + 1);
      assert Restamp(lines, c, fields, k) == Restamp(lines1, c, rest, k + 1);
      SpliceAt(lines, k, h, m);
    }
  }

  /** With every key set, a file that ends before the last line to replace raises `IndexError`. */
  lemma {:induction false} RestampShort(lines: seq<string>, c: Config, fields: seq<Field>, k: nat)
    requires k <= |lines| < k + |fields| && HeaderLines(c, fields).Ok?
    ensures Restamp(lines, c, fields, k) == Raised(IndexError)
    decreases |fields|
  {
    assert fields[0].key in c;
    if k < |lines| {
      var lines1 := lines[k := HeaderLine(fields[0].tag, c[fields[0].key])];
      assert HeaderLines(c, fields[1..]).Ok?;
      RestampShort(lines1, c, fields[1..], k + 1);
    }
  }

  /** Setting line `k` and then replacing the lines after it is replacing from line `k` on. */
  lemma SpliceAt<T>(ls: seq<T>, k: nat, h: T, m: seq<T>)
    requires k + 1 + |m| <= |ls|
    ensures ls[k := h][..k + 1] + m + ls[k := h][k + 1 + |m|..] == ls[..k] + ([h] + m) + ls[k + 1 + |m|..]
  {
    assert ls[k := h][..k + 1] == ls[..k] + [h];
    assert ls[k := h][k + 1 + |m|..] == ls[k + 1 + |m|..];
  }

  /**
   * `default_context()` with the template at `template`: nothing happens
   * without the template; with it, the working file becomes the template with
   * line 4 set to the current switch, or a `KeyError` / `IndexError` is raised
   * when the switch is unset / the template has fewer than five lines.
   */
  lemma DefaultContextSpec(v: Variant, s: State, template: string)
    requires Valid(v)
    ensures DefaultContextStep(v, s, template).state.config == s.config
    ensures template !in s.files ==> DefaultContextStep(v, s, template) == Step(s, Ok(false))
    ensures template in s.files && Flag(v) !in s.config ==>
      DefaultContextStep(v, s, template) == Fail(s, KeyError(Flag(v)))
    ensures template in s.files && Flag(v) in s.config && |Lines(s.files[template])| <= 4 ==>
      DefaultContextStep(v, s, template) == Fail(s, IndexError)
    ensures (template in s.files && Flag(v) in s.config && |Lines(s.files[template])| > 4 &&
             '\n' !in Render(s.config[Flag(v)])) ==>
      var files := DefaultContextStep(v, s, template).state.files;
      && DefaultContextStep(v, s, template).result == Ok(true)
      && v.path in files
      && files == s.files[v.path := files[v.path]]
      && Lines(files[v.path]) == Lines(s.files[template])[4 := HeaderLine(v.layout[4].tag, s.config[Flag(v)])]
  {
    if template in s.files && Flag(v) in s.config && |Lines(s.files[template])| > 4 {
      var ls := Lines(s.files[template]);
      var h := HeaderLine(v.layout[4].tag, s.config[Flag(v)]);
      HeaderLinesSpec(s.config, [v.layout[4]]);
      assert HeaderLines(s.config, [v.layout[4]]).value == [h];
      RestampSpec(ls, s.config, [v.layout[4]], 4);
      assert ls[..4] + [h] + ls[5..] == ls[4 := h];
      if '\n' !in Render(s.config[Flag(v)]) {
        LinesWellFormed(s.files[template]);
        HeaderLineIsLine(v.layout[4].tag, s.config[Flag(v)]);
        Replace(ls, 4, h);
        LinesJoin(ls[4 := h]);
      }
    }
  }

  // ---------------------------------------------------------------------------
  // Construction
  // ---------------------------------------------------------------------------

  /**
   * `__init__` with a saved context: it replaces the working file verbatim
   * when there is no working file, or when the working file's switch header
   * reads "off"; the config then comes from the working file's headers.
   * The working file itself, or a name with no saved context, changes nothing.
   */
  lemma ImportSpec(v: Variant, files: map<string, string>, fileName: string, cfg: Config)
    requires Valid(v)
    ensures fileName == v.path || v.contexts + fileName !in files ==> ImportStep(v, files, fileName, cfg) == Ok((files, cfg))
    ensures fileName != v.path && v.contexts + fileName in files && v.path !in files ==>
      ImportStep(v, files, fileName, cfg) == Ok((files[v.path := files[v.contexts + fileName]], cfg))
    ensures fileName != v.path && v.contexts + fileName in files && v.path in files ==>
      ImportStep(v, files, fileName, cfg) == (
        var c :- ParseHeaders(Lines(files[v.path]), v.layout);
        var off := FieldValue(Lines(files[v.path])[4]) == Ok("off");
        Ok((if off then files[v.path := files[v.contexts + fileName]] else files, c)))
  {
    var full := v.contexts + fileName;
    if full in files {
      JoinLines(files[full]);
    }
    if v.path in files {
      FieldTextsSpec(Lines(files[v.path]), |v.layout|);
    }
  }

  /**
   * A saved context reached through `__init__` after `set_headers(c)` wrote
   * the working file: the object starts from the header fields of `c`, and the
   * saved context is copied in exactly when `c` had the switch off.
   */
  lemma ImportAfterSetHeaders(v: Variant, s: State, c: Config, fileName: string, cfg: Config)
    requires Valid(v) && Conforms(c, v.layout) && SetHeadersStep(v, s, c).result.Ok?
    requires fileName != v.path && v.contexts + fileName in SetHeadersStep(v, s, c).state.files
    ensures var files := SetHeadersStep(v, s, c).state.files;
      ImportStep(v, files, fileName, cfg) ==
        Ok((if c[Flag(v)] == Str("off") then files[v.path := files[v.contexts + fileName]] else files, Project(c, v.layout)))
  {
    var files := SetHeadersStep(v, s, c).state.files;
    ConformsNoBreaks(c, v.layout);
    SetHeadersSpec(v, s, c);
    var body := Body(s.files, v.path);
    HeadersRoundTrip(c, v.layout, body);
    ImportSpec(v, files, fileName, cfg);
    HeaderLinesSpec(c, v.layout);
    var hs := HeaderLines(c, v.layout).value;
    assert Lines(files[v.path])[4] == HeaderLine(v.layout[4].tag, c[Flag(v)]);
    FitsClean(c[Flag(v)], AsStr);
    FieldOfHeader(v.layout[4].tag, Render(c[Flag(v)]));
  }
}
