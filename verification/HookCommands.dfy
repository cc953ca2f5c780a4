/** Recognizing the command lines tmnotify itself wrote into a provider's configuration. */
module HookCommands {
  import opened Wrappers

  /** How a quote inside a single-quoted shell word is written. */
  const QUOTED_QUOTE := "'\"'\"'"
  const CODEX_SUFFIX := " __hook-event codex"

  function ReplaceQuotes(s: string): string {
    if s == "" then "" else (if s[0] == '\'' then QUOTED_QUOTE else [s[0]]) + ReplaceQuotes(s[1..])
  }

  function ShellQuote(s: string): string {
    "'" + ReplaceQuotes(s) + "'"
  }

  // ---------- decoding ----------

  /** `find`: where the pattern first occurs, or |s|. */
  function Find(s: string): (i: nat)
    ensures i <= |s|
    ensures i < |s| ==> i + |QUOTED_QUOTE| <= |s| && s[i..i + |QUOTED_QUOTE|] == QUOTED_QUOTE
  {
    if s == "" then 0
    else if QUOTED_QUOTE <= s then 0
    else 1 + Find(s[1..])
  }

  function Unquoted(s: string): Option<string>
    decreases |s|
  {
    var i := Find(s);
    if i == |s| then if '\'' in s then None else Some(s)
    else
      match Unquoted(s[i + |QUOTED_QUOTE|..])
      case None => None
      case Some(rest) => Some(s[..i] + ['\''] + rest)
  }

  predicate Quoted(value: string) {
    value != "" && value[0] == '\'' && value[|value| - 1] == '\''
  }

  /** A lone quote both starts and ends with a quote, and the slice between them does not exist. */
  method DecodeSingleQuotedWord(value: string) returns (r: Option<string>)
    requires value != "'"
    ensures r == if Quoted(value) then Unquoted(value[1..|value| - 1]) else None
  {
    if value == "" || value[0] != '\'' || value[|value| - 1] != '\'' {
      return None;
    }
    var inner := value[1..|value| - 1];
    var output := "";
    var remaining := inner;
    if Unquoted(inner).Some? { assert "" + Unquoted(inner).value == Unquoted(inner).value; }
    while Find(remaining) < |remaining|
      invariant match Unquoted(remaining)
                case None => Unquoted(inner) == None
                case Some(rest) => Unquoted(inner) == Some(output + rest)
      decreases |remaining|
    {
      var index := Find(remaining);
      ghost var tail := remaining[index + |QUOTED_QUOTE|..];
      if Unquoted(tail).Some? {
        Regroup(output, remaining[..index], ['\''], Unquoted(tail).value);
      }
      output := output + remaining[..index] + ['\''];
      remaining := remaining[index + |QUOTED_QUOTE|..];
    }
    if '\'' in remaining {
      return None;
    }
    return Some(output + remaining);
  }

  lemma Regroup(a: string, b: string, c: string, d: string)
    ensures a + (b + c + d) == (a + b + c) + d
  {
  }

  // ---------- decoding undoes quoting ----------

  lemma {:induction false} FindSkips(plain: string, rest: string)
    requires '\'' !in plain
    ensures Find(plain + rest) == |plain| + Find(rest)
  {
    if plain == "" {
      assert plain + rest == rest;
    } else {
      var s := plain + rest;
      assert s[0] == plain[0] && plain[0] in plain;
      assert s[1..] == plain[1..] + rest;
      FindSkips(plain[1..], rest);
    }
  }

  lemma FindHere(rest: string)
    ensures Find(QUOTED_QUOTE + rest) == 0
  {
  }

  lemma UnquoteChar(c: char, rest: string)
    requires c != '\''
    ensures Unquoted([c] + rest) == match Unquoted(rest) case None => None case Some(r) => Some([c] + r)
  {
    var s := [c] + rest;
    FindSkips([c], rest);
    hide Find;
    var i := Find(rest);
    if i < |rest| {
      assert s[i + 1 + |QUOTED_QUOTE|..] == rest[i + |QUOTED_QUOTE|..];
      assert s[..i + 1] == [c] + rest[..i];
      if Unquoted(rest[i + |QUOTED_QUOTE|..]).Some? {
        CharFirst(c, rest[..i], Unquoted(rest[i + |QUOTED_QUOTE|..]).value);
      }
    } else {
      assert '\'' in s <==> '\'' in rest;
    }
  }

  lemma CharFirst(c: char, a: string, b: string)
    ensures ([c] + a) + ['\''] + b == [c] + (a + ['\''] + b)
  {
  }

  lemma UnquotePattern(rest: string)
    ensures Unquoted(QUOTED_QUOTE + rest) == match Unquoted(rest) case None => None case Some(r) => Some("'" + r)
  {
    var s := QUOTED_QUOTE + rest;
    FindHere(rest);
    assert s[0 + |QUOTED_QUOTE|..] == rest;
    assert s[..0] == "";
    if Unquoted(rest).Some? {
      assert "" + ['\''] + Unquoted(rest).value == "'" + Unquoted(rest).value;
    }
  }

  lemma {:induction false} UnquoteUndoes(s: string)
    ensures Unquoted(ReplaceQuotes(s)) == Some(s)
  {
    if s != "" {
      hide Unquoted;
      UnquoteUndoes(s[1..]);
      assert s == [s[0]] + s[1..];
      if s[0] == '\'' {
        UnquotePattern(ReplaceQuotes(s[1..]));
      } else {
        UnquoteChar(s[0], ReplaceQuotes(s[1..]));
      }
    }
  }

  /** Every string, quotes and all, is recovered from its shell-quoted form. */
  lemma DecodeUndoesQuote(s: string)
    ensures Quoted(ShellQuote(s)) && ShellQuote(s) != "'"
    ensures Unquoted(ShellQuote(s)[1..|ShellQuote(s)| - 1]) == Some(s)
  {
    var q := ShellQuote(s);
    assert q[1..|q| - 1] == ReplaceQuotes(s);
    UnquoteUndoes(s);
  }

  // ---------- the command line ----------

  predicate PlainByte(c: char) {
    'a' <= c <= 'z' || 'A' <= c <= 'Z' || '0' <= c <= '9' || c == '/' || c == '.' || c == '_' || c == '-' || c == '+'
  }

  function StripSuffix(s: string, suffix: string): Option<string> {
    if |s| >= |suffix| && s[|s| - |suffix|..] == suffix then Some(s[..|s| - |suffix|]) else None
  }

  /** What parsing a codex command comes to; `Panics` is the out-of-range slice. */
  datatype ParsedCommand = Panics | Foreign | Executable(path: string)

  function ParseCodexCommand(command: string): ParsedCommand {
    match StripSuffix(command, CODEX_SUFFIX)
    case None => Foreign
    case Some(prefix) =>
      if prefix != "" && prefix[0] == '\'' then
        if prefix == "'" then Panics
        else if !Quoted(prefix) then Foreign
        else match Unquoted(prefix[1..|prefix| - 1])
             case Some(path) => Executable(path)
             case None => Foreign
      else if prefix != "" && forall c :: c in prefix ==> PlainByte(c) then Executable(prefix)
      else Foreign
  }

  /** Parsing is total except on one command line: a lone quote where the executable should be. */
  lemma PanicsExactlyOnLoneQuote(command: string)
    ensures ParseCodexCommand(command) == Panics <==> command == "'" + CODEX_SUFFIX
  {
    var prefix := StripSuffix(command, CODEX_SUFFIX);
    if prefix.Some? {
      assert command == prefix.value + CODEX_SUFFIX;
    }
    assert StripSuffix("'" + CODEX_SUFFIX, CODEX_SUFFIX) == Some("'");
  }

  function CodexCommand(executable: string): string {
    ShellQuote(executable) + CODEX_SUFFIX
  }

  /** The command written for an executable is read back as that executable, whatever its path. */
  lemma CommandRecovered(executable: string)
    ensures ParseCodexCommand(CodexCommand(executable)) == Executable(executable)
  {
    var q := ShellQuote(executable);
    DecodeUndoesQuote(executable);
    var command := CodexCommand(executable);
    assert command[|command| - |CODEX_SUFFIX|..] == CODEX_SUFFIX && command[..|command| - |CODEX_SUFFIX|] == q;
  }
}
