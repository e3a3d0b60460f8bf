/**
 * Which shell the program runs under, from the name of its parent process:
 * `re.fullmatch('pwsh|pwsh.exe|powershell.exe', name)` and its bash and zsh
 * siblings, tried in that order. The '.' in the patterns is unescaped, so it
 * matches any character but a line break.
 */
module Shells {
  import opened Text

  const PowerShellNames: seq<string> := ["pwsh", "pwsh.exe", "powershell.exe"]
  const BashNames: seq<string> := ["bash", "bash.exe"]
  const ZshNames: seq<string> := ["zsh", "zsh.exe"]

  predicate IsPowerShell(name: string) {
    FullMatchAny(name, PowerShellNames)
  }

  predicate IsBash(name: string) {
    FullMatchAny(name, BashNames)
  }

  predicate IsZsh(name: string) {
    FullMatchAny(name, ZshNames)
  }

  /** `"powershell" if POWERSHELL_MODE else "bash" if BASH_MODE else "zsh" if ZSH_MODE else "unknown"` */
  function ShellOf(name: string): (shell: string)
    ensures shell in {"powershell", "bash", "zsh", "unknown"}
  {
    if IsPowerShell(name) then "powershell"
    else if IsBash(name) then "bash"
    else if IsZsh(name) then "zsh"
    else "unknown"
  }

  /** No process name matches patterns of two shells: they differ in length or in a letter. */
  lemma PatternsDisjoint(name: string)
    ensures !(IsPowerShell(name) && IsBash(name))
    ensures !(IsPowerShell(name) && IsZsh(name))
    ensures !(IsBash(name) && IsZsh(name))
  {
    if IsPowerShell(name) {
      var i :| 0 <= i < |PowerShellNames| && FullMatch(name, PowerShellNames[i]);
      assert name[0] == 'p';
    }
    if IsBash(name) {
      var i :| 0 <= i < |BashNames| && FullMatch(name, BashNames[i]);
      assert name[0] == 'b';
    }
  }

  /**
   * Each shell is detected exactly when the name matches that shell's own
   * patterns: the order in which they are tried never matters.
   */
  lemma ShellOfSpec(name: string)
    ensures ShellOf(name) == "powershell" <==> IsPowerShell(name)
    ensures ShellOf(name) == "bash" <==> IsBash(name)
    ensures ShellOf(name) == "zsh" <==> IsZsh(name)
    ensures ShellOf(name) == "unknown" <==> !IsPowerShell(name) && !IsBash(name) && !IsZsh(name)
  {
    PatternsDisjoint(name);
  }

  /** Every listed process name is recognised as its shell. */
  lemma KnownNames()
    ensures forall i :: 0 <= i < |PowerShellNames| ==> ShellOf(PowerShellNames[i]) == "powershell"
    ensures forall i :: 0 <= i < |BashNames| ==> ShellOf(BashNames[i]) == "bash"
    ensures forall i :: 0 <= i < |ZshNames| ==> ShellOf(ZshNames[i]) == "zsh"
  {
    forall i | 0 <= i < |PowerShellNames| ensures IsPowerShell(PowerShellNames[i]) {
      assert FullMatch(PowerShellNames[i], PowerShellNames[i]);
    }
    forall i | 0 <= i < |BashNames| ensures IsBash(BashNames[i]) {
      assert FullMatch(BashNames[i], BashNames[i]);
    }
    forall i | 0 <= i < |ZshNames| ensures IsZsh(ZshNames[i]) {
      assert FullMatch(ZshNames[i], ZshNames[i]);
    }
    forall i | 0 <= i < |BashNames| ensures ShellOf(BashNames[i]) == "bash" {
      PatternsDisjoint(BashNames[i]);
    }
    forall i | 0 <= i < |ZshNames| ensures ShellOf(ZshNames[i]) == "zsh" {
      PatternsDisjoint(ZshNames[i]);
    }
  }

  /** The unescaped '.' lets a name like "bash_exe" pass for bash, and a name like "fish" is unknown. */
  lemma DotMatchesAnyCharacter()
    ensures ShellOf("bash_exe") == "bash"
    ensures ShellOf("fish") == "unknown"
  {
    assert FullMatch("bash_exe", BashNames[1]);
    PatternsDisjoint("bash_exe");
    ShellOfSpec("fish");
    assert !IsPowerShell("fish") && !IsBash("fish") && !IsZsh("fish") by {
      forall i | 0 <= i < |PowerShellNames| ensures !FullMatch("fish", PowerShellNames[i]) {
        assert "fish"[0] != PowerShellNames[i][0];
      }
      forall i | 0 <= i < |BashNames| ensures !FullMatch("fish", BashNames[i]) {
        assert "fish"[0] != BashNames[i][0];
      }
      forall i | 0 <= i < |ZshNames| ensures !FullMatch("fish", ZshNames[i]) {
        assert "fish"[0] != ZshNames[i][0];
      }
    }
  }
}
