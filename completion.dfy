/**
 * What the single-file drivers keep of a completion: the text itself when it
 * starts with a blank line, otherwise its first line, or the second one
 * (behind a line break) when the first is empty.
 */
module Completions {
  import opened Text
  import opened TextLines

  /** `s.split('\n')`: the pieces between line breaks, always at least one. */
  function Pieces(s: string): (ps: seq<string>)
    ensures ps != []
    decreases |s|
  {
    if '\n' in s then var i := IndexOf(s, '\n'); [s[..i]] + Pieces(s[i + 1..]) else [s]
  }

  /** The first piece is the text up to the first line break; there is only one piece without a line break. */
  lemma PiecesFirst(s: string)
    ensures Pieces(s)[0] == TakeUntil(s, '\n')
    ensures |Pieces(s)| == 1 <==> '\n' !in s
  {
    if '\n' in s {
      var i := IndexOf(s, '\n');
      assert TakeUntil(s, '\n') == s[..i];
    } else {
      TakeUntilAbsent(s, '\n');
    }
  }

  /**
   * The output chosen from `completion_all`:
   * the whole text when `completion_all[:2] == '\n\n'`, else a non-empty first
   * piece, else "" when there is a single piece, else '\n' and the second piece.
   */
  function FirstLine(completion: string): string {
    var pieces := Pieces(completion);
    if Take(completion, 2) == "\n\n" then completion
    else if pieces[0] != "" then pieces[0]
    else if |pieces| == 1 then ""
    else "\n" + pieces[1]
  }

  /**
   * The output is a prefix of the completion, empty only for an empty
   * completion. Unless the completion starts with a blank line, the output
   * has no line break after its first character and runs up to the next line
   * break or the end: one line, with the leading line break of an empty first
   * line kept.
   */
  lemma FirstLineSpec(completion: string)
    ensures FirstLine(completion) <= completion
    ensures FirstLine(completion) == "" <==> completion == ""
    ensures |completion| >= 2 && completion[..2] == "\n\n" ==> FirstLine(completion) == completion
    ensures !(|completion| >= 2 && completion[..2] == "\n\n") && completion != "" ==>
      var out := FirstLine(completion);
      '\n' !in out[1..] && (out == completion || completion[|out|] == '\n')
  {
    var c := completion;
    PiecesFirst(c);
    if c != [] && !(|c| >= 2 && c[..2] == "\n\n") {
      assert Take(c, 2) != "\n\n";
      if c[0] == '\n' {
        assert TakeUntil(c, '\n') == [];
        assert Pieces(c) == [c[..0]] + Pieces(c[1..]);
        var rest := c[1..];
        PiecesFirst(rest);
        var t := TakeUntil(rest, '\n');
        assert FirstLine(c) == "\n" + t;
        assert "\n" + t <= c by {
          assert c == [c[0]] + rest;
        }
        assert ("\n" + t)[1..] == t;
        if t != rest {
          assert c[|t| + 1] == rest[|t|];
        }
      }
    }
  }
}
