/** What a shell makes of a command line: the part of token recognition (sections 2.2 and 2.3
    of the POSIX Shell Command Language) that needs no expansion. A line in which the shell
    would expand or control something has no words here. */
module ShellWords {
  import opened Wrappers
  import opened HookCommands

  datatype Mode = Bare | Single | Double

  /** The words so far, and the one being read. */
  datatype Reading = Reading(mode: Mode, words: seq<string>, word: Option<string>)

  const START := Reading(Bare, [], None)

  /** Characters with a meaning of their own outside quotes. */
  predicate Special(c: char) {
    c in "|&;<>()$`\\\t\n*?[]#~=%!{}^"
  }

  function Grown(word: Option<string>, text: string): Option<string> {
    Some((if word.Some? then word.value else "") + text)
  }

  function Read(r: Reading, c: char): Option<Reading> {
    match r.mode
    case Single => if c == '\'' then Some(r.(mode := Bare)) else Some(r.(word := Grown(r.word, [c])))
    case Double =>
      if c == '"' then Some(r.(mode := Bare))
      else if c in "$`\\" then None
      else Some(r.(word := Grown(r.word, [c])))
    case Bare =>
      if c == '\'' then Some(r.(mode := Single, word := Grown(r.word, "")))
      else if c == '"' then Some(r.(mode := Double, word := Grown(r.word, "")))
      else if c == ' ' then
        Some(if r.word.Some? then Reading(Bare, r.words + [r.word.value], None) else r)
      else if Special(c) then None
      else Some(r.(word := Grown(r.word, [c])))
  }

  function ReadAll(r: Reading, s: string): Option<Reading>
    decreases |s|
  {
    if s == "" then Some(r)
    else match Read(r, s[0])
         case None => None
         case Some(next) => ReadAll(next, s[1..])
  }

  /** The words of a line whose quotes are closed. */
  function Words(s: string): Option<seq<string>> {
    match ReadAll(START, s)
    case Some(r) =>
      if r.mode.Bare? then Some(r.words + if r.word.Some? then [r.word.value] else []) else None
    case None => None
  }

  lemma {:induction false} ReadAppend(r: Reading, a: string, b: string)
    ensures ReadAll(r, a + b) == match ReadAll(r, a) case None => None case Some(m) => ReadAll(m, b)
    decreases |a|
  {
    if a == "" {
      assert a + b == b;
    } else {
      assert (a + b)[1..] == a[1..] + b;
      hide Read;
      if Read(r, a[0]).Some? { ReadAppend(Read(r, a[0]).value, a[1..], b); }
    }
  }

  // ---------- what was written is what runs ----------

  lemma ReadPattern(r: Reading)
    requires r.mode.Single? && r.word.Some?
    ensures ReadAll(r, QUOTED_QUOTE) == Some(r.(word := Some(r.word.value + "'")))
  {
    var p := QUOTED_QUOTE;
    assert p[1..][1..] == p[2..] && p[2..][1..] == p[3..] && p[3..][1..] == p[4..] && p[4..][1..] == "";
    var bare := r.(mode := Bare);
    assert ReadAll(r, p) == ReadAll(bare, p[1..]);
    assert r.word.value + "" == r.word.value;
    var inside := r.(mode := Double);
    assert ReadAll(bare, p[1..]) == ReadAll(inside, p[2..]);
    var held := inside.(word := Some(r.word.value + "'"));
    assert ReadAll(inside, p[2..]) == ReadAll(held, p[3..]);
    assert ReadAll(held, p[3..]) == ReadAll(held.(mode := Bare), p[4..]);
    assert r.word.value + "'" + "" == r.word.value + "'";
  }

  lemma {:induction false} ReadQuoted(r: Reading, s: string)
    requires r.mode.Single? && r.word.Some?
    ensures ReadAll(r, ReplaceQuotes(s)) == Some(r.(word := Some(r.word.value + s)))
    decreases |s|
  {
    if s == "" {
      assert r.word.value + s == r.word.value;
    } else {
      var piece := if s[0] == '\'' then QUOTED_QUOTE else [s[0]];
      var next := r.(word := Some(r.word.value + [s[0]]));
      assert ReadAll(r, piece) == Some(next) by {
        if s[0] == '\'' { ReadPattern(r); } else { assert [s[0]][1..] == ""; }
      }
      ReadQuoted(next, s[1..]);
      hide ReadAll;
      ReadAppend(r, piece, ReplaceQuotes(s[1..]));
      assert r.word.value + [s[0]] + s[1..] == r.word.value + s;
    }
  }

  lemma {:induction false} ReadPlain(r: Reading, s: string)
    requires r.mode.Bare? && s != "" && forall c :: c in s ==> !Special(c) && c != '\'' && c != '"' && c != ' '
    ensures ReadAll(r, s) == Some(r.(word := Grown(r.word, s)))
    decreases |s|
  {
    var next := r.(word := Grown(r.word, [s[0]]));
    assert s[0] in s;
    assert ReadAll(r, s) == ReadAll(next, s[1..]);
    assert s == [s[0]] + s[1..];
    if s[1..] != "" {
      ReadPlain(next, s[1..]);
      var w := if r.word.Some? then r.word.value else "";
      assert w + [s[0]] + s[1..] == w + s;
    } else {
      assert [s[0]] == s;
    }
  }

  /** Text without anything a shell would look at. */
  predicate Plain(s: string) {
    forall c :: c in s ==> !Special(c) && c != '\'' && c != '"' && c != ' '
  }

  lemma ReadBlank(words: seq<string>, w: string)
    ensures ReadAll(Reading(Bare, words, Some(w)), " ") == Some(Reading(Bare, words + [w], None))
  {
    assert " "[1..] == "";
  }

  lemma ReadWord(words: seq<string>, x: string)
    requires x != "" && Plain(x)
    ensures ReadAll(Reading(Bare, words, None), x) == Some(Reading(Bare, words, Some(x)))
  {
    ReadPlain(Reading(Bare, words, None), x);
    assert "" + x == x;
  }

  /** Two more words, after one. */
  lemma ReadTwo(w: string, x: string, y: string)
    requires x != "" && y != "" && Plain(x) && Plain(y)
    ensures ReadAll(Reading(Bare, [], Some(w)), " " + (x + (" " + y))) == Some(Reading(Bare, [w, x], Some(y)))
  {
    ReadBlank([], w);
    ReadWord([w], x);
    ReadBlank([w], x);
    ReadWord([w, x], y);
    assert [] + [w] == [w] && [w] + [x] == [w, x];
    hide ReadAll;
    ReadAppend(Reading(Bare, [], Some(w)), " ", x + (" " + y));
    ReadAppend(Reading(Bare, [w], None), x, " " + y);
    ReadAppend(Reading(Bare, [w], Some(x)), " ", y);
  }

  lemma PlainBytes(s: string)
    requires forall c :: c in s ==> PlainByte(c)
    ensures Plain(s)
  {
  }

  /** What the arguments of a command are, and that they are plain. */
  lemma SuffixParts()
    ensures CODEX_SUFFIX == " " + ("__hook-event" + (" " + "codex"))
    ensures Plain("__hook-event") && Plain("codex")
  {
    PlainBytes("__hook-event");
    PlainBytes("codex");
    hide Plain;
  }

  function Arguments(path: string): seq<string> {
    [path, "__hook-event", "codex"]
  }

  lemma SuffixWords(prefix: string, w: string)
    requires ReadAll(START, prefix) == Some(Reading(Bare, [], Some(w)))
    ensures Words(prefix + CODEX_SUFFIX) == Some(Arguments(w))
  {
    hide ReadAll, Plain;
    ReadAppend(START, prefix, CODEX_SUFFIX);
    SuffixParts();
    ReadTwo(w, "__hook-event", "codex");
    assert [w, "__hook-event"] + ["codex"] == Arguments(w);
  }

  /** A shell runs the executable with the two fixed arguments, whatever its path contains. */
  lemma CommandRuns(executable: string)
    ensures Words(CodexCommand(executable)) == Some(Arguments(executable))
  {
    var opening := Reading(Single, [], Some(""));
    assert "" + "" == "";
    assert ReadAll(START, "'") == Some(opening) by { assert "'"[1..] == ""; }
    ReadQuoted(opening, executable);
    assert "" + executable == executable;
    var inside := Reading(Single, [], Some(executable));
    assert ReadAll(inside, "'") == Some(inside.(mode := Bare)) by { assert "'"[1..] == ""; }
    hide ReadAll, Read;
    ReadAppend(START, "'", ReplaceQuotes(executable) + "'");
    ReadAppend(opening, ReplaceQuotes(executable), "'");
    assert ShellQuote(executable) == "'" + (ReplaceQuotes(executable) + "'");
    SuffixWords(ShellQuote(executable), executable);
  }

  // ---------- counting quotes ----------

  function Quotes(s: string): nat
    decreases |s|
  {
    if s == "" then 0 else (if s[0] == '\'' then 1 else 0) + Quotes(s[1..])
  }

  function AllQuotes(words: seq<string>): nat {
    if words == [] then 0 else AllQuotes(words[..|words| - 1]) + Quotes(words[|words| - 1])
  }

  function Held(r: Reading): nat {
    AllQuotes(r.words) + if r.word.Some? then Quotes(r.word.value) else 0
  }

  lemma {:induction false} QuotesAppend(a: string, b: string)
    ensures Quotes(a + b) == Quotes(a) + Quotes(b)
    decreases |a|
  {
    if a == "" {
      assert a + b == b;
    } else {
      assert (a + b)[1..] == a[1..] + b;
      QuotesAppend(a[1..], b);
    }
  }

  lemma {:induction false} QuotesNone(s: string)
    requires '\'' !in s
    ensures Quotes(s) == 0 && ReplaceQuotes(s) == s
  {
    if s != "" {
      QuotesNone(s[1..]);
      assert s == [s[0]] + s[1..];
    }
  }

  function ModeAfter(m: Mode, c: char): Mode {
    match m
    case Single => if c == '\'' then Bare else Single
    case Double => if c == '"' then Bare else Double
    case Bare => if c == '\'' then Single else if c == '"' then Double else Bare
  }

  function ModeAll(m: Mode, s: string): Mode
    decreases |s|
  {
    if s == "" then m else ModeAll(ModeAfter(m, s[0]), s[1..])
  }

  /** How often single quotes are opened. */
  function Opened(m: Mode, s: string): nat
    decreases |s|
  {
    if s == "" then 0 else (if m.Bare? && s[0] == '\'' then 1 else 0) + Opened(ModeAfter(m, s[0]), s[1..])
  }

  function InSingle(m: Mode): nat {
    if m.Single? then 1 else 0
  }

  lemma {:induction false} ModesAppend(m: Mode, a: string, b: string)
    ensures ModeAll(m, a + b) == ModeAll(ModeAll(m, a), b)
    ensures Opened(m, a + b) == Opened(m, a) + Opened(ModeAll(m, a), b)
    decreases |a|
  {
    if a == "" {
      assert a + b == b;
    } else {
      assert (a + b)[1..] == a[1..] + b;
      ModesAppend(ModeAfter(m, a[0]), a[1..], b);
    }
  }

  lemma GrownQuotes(word: Option<string>, text: string)
    ensures Quotes(Grown(word, text).value) == (if word.Some? then Quotes(word.value) else 0) + Quotes(text)
  {
    QuotesAppend(if word.Some? then word.value else "", text);
  }

  lemma ReadCounts(r: Reading, c: char)
    requires Read(r, c).Some?
    ensures var n := Read(r, c).value;
            && n.mode == ModeAfter(r.mode, c)
            && Held(n) == Held(r) + Quotes([c]) - 2 * Opened(r.mode, [c]) + InSingle(n.mode) - InSingle(r.mode)
  {
    GrownQuotes(r.word, [c]);
    GrownQuotes(r.word, "");
    assert [c][1..] == "";
    if r.word.Some? { assert (r.words + [r.word.value])[..|r.words|] == r.words; }
  }

  /** A quote that is read is held in a word, or opens or closes single quotes. */
  lemma {:induction false} QuotesAccounted(r: Reading, s: string)
    requires ReadAll(r, s).Some?
    ensures var n := ReadAll(r, s).value;
            && n.mode == ModeAll(r.mode, s)
            && Held(n) == Held(r) + Quotes(s) - 2 * Opened(r.mode, s) + InSingle(n.mode) - InSingle(r.mode)
    decreases |s|
  {
    if s != "" {
      ReadCounts(r, s[0]);
      assert s == [s[0]] + s[1..];
      QuotesAppend([s[0]], s[1..]);
      ModesAppend(r.mode, [s[0]], s[1..]);
      hide Read, Held, Quotes;
      QuotesAccounted(Read(r, s[0]).value, s[1..]);
    }
  }

  // ---------- what is recognized and what runs ----------

  /** Read from any mode, the pattern opens single quotes once, and leaves them open only if
      they were. */
  lemma PatternModes(m: Mode)
    ensures Opened(m, QUOTED_QUOTE) == 1 && Quotes(QUOTED_QUOTE) == 3
    ensures ModeAll(m, QUOTED_QUOTE) == match m case Single => Single case Bare => Double case Double => Bare
  {
    var p := QUOTED_QUOTE;
    assert p[1..][1..] == p[2..] && p[2..][1..] == p[3..] && p[3..][1..] == p[4..] && p[4..][1..] == "";
    assert Quotes(p) == 1 + Quotes(p[1..]) && Quotes(p[1..]) == Quotes(p[2..]) && Quotes(p[2..]) == 1 + Quotes(p[3..]);
    assert Quotes(p[3..]) == Quotes(p[4..]) && Quotes(p[4..]) == 1;
    var m1 := ModeAfter(m, p[0]);
    var m2 := ModeAfter(m1, p[1]);
    var m3 := ModeAfter(m2, p[2]);
    var m4 := ModeAfter(m3, p[3]);
    assert ModeAll(m, p) == ModeAll(m1, p[1..]) == ModeAll(m2, p[2..]) == ModeAll(m3, p[3..]) == ModeAll(m4, p[4..]);
    assert Opened(m4, p[4..]) == if m4.Bare? then 1 else 0;
    assert Opened(m3, p[3..]) == Opened(m4, p[4..]);
    assert Opened(m2, p[2..]) == (if m2.Bare? then 1 else 0) + Opened(m3, p[3..]);
    assert Opened(m1, p[1..]) == Opened(m2, p[2..]);
  }

  /** Single quotes that are open at the end and were never opened were open throughout. */
  lemma {:induction false} StillOpen(m: Mode, a: string)
    requires Opened(m, a) == 0 && ModeAll(m, a).Single?
    ensures m.Single? && '\'' !in a
    decreases |a|
  {
    if a != "" {
      StillOpen(ModeAfter(m, a[0]), a[1..]);
    }
  }

  lemma {:induction false} NoQuoteModes(m: Mode, s: string)
    requires '\'' !in s
    ensures Opened(m, s) == 0 && (ModeAll(m, s).Single? ==> m.Single?)
    decreases |s|
  {
    if s != "" { NoQuoteModes(ModeAfter(m, s[0]), s[1..]); }
  }

  lemma {:induction false} ReplaceAppend(a: string, b: string)
    ensures ReplaceQuotes(a + b) == ReplaceQuotes(a) + ReplaceQuotes(b)
    decreases |a|
  {
    if a == "" {
      assert a + b == b;
    } else {
      assert (a + b)[1..] == a[1..] + b;
      ReplaceAppend(a[1..], b);
    }
  }

  lemma PathParts(a: string, rest: string)
    ensures Quotes(a + ['\''] + rest) == Quotes(a) + 1 + Quotes(rest)
    ensures '\'' !in a ==> ReplaceQuotes(a + ['\''] + rest) == a + QUOTED_QUOTE + ReplaceQuotes(rest)
  {
    QuotesAppend(a + ['\''], rest);
    QuotesAppend(a, ['\'']);
    assert ['\''][1..] == "";
    ReplaceAppend(a + ['\''], rest);
    ReplaceAppend(a, ['\'']);
    if '\'' !in a { QuotesNone(a); }
  }

  /** A word that decodes opens its single quotes at least as often as the decoded text says;
      and more often, if the word is not the one that is written for that text. */
  lemma {:induction false} DecodedOpens(m: Mode, s: string)
    requires Unquoted(s).Some?
    ensures var path := Unquoted(s).value;
            && 2 * Opened(m, s) >= Quotes(s) - Quotes(path)
            && (ModeAll(m, s).Single? && 2 * Opened(m, s) == Quotes(s) - Quotes(path) ==>
                  m.Single? && s == ReplaceQuotes(path))
    decreases |s|
  {
    var i := Find(s);
    if i == |s| {
      NoQuoteModes(m, s);
      QuotesNone(s);
    } else {
      var a, t := s[..i], s[i + |QUOTED_QUOTE|..];
      var rest := Unquoted(t).value;
      assert s == a + (QUOTED_QUOTE + t);
      var m1 := ModeAll(m, a);
      PatternModes(m1);
      hide Unquoted, Find;
      DecodedOpens(ModeAll(m1, QUOTED_QUOTE), t);
      ModesAppend(m, a, QUOTED_QUOTE + t);
      ModesAppend(m1, QUOTED_QUOTE, t);
      QuotesAppend(a, QUOTED_QUOTE + t);
      QuotesAppend(QUOTED_QUOTE, t);
      PathParts(a, rest);
      if Opened(m, a) == 0 && m1.Single? { StillOpen(m, a); }
    }
  }

  /** After the closing quote, text without quotes: only if the quotes were open are they
      closed now. */
  lemma TailModes(m: Mode, suffix: string)
    requires '\'' !in suffix && '"' !in suffix
    ensures ModeAll(m, "'" + suffix).Bare? ==> m.Single?
    ensures m.Single? ==> Opened(m, "'" + suffix) == 0
    ensures Quotes(suffix) == 0 && Quotes("'" + suffix) == 1
  {
    OneQuoteFrom(m);
    QuotesNone(suffix);
    NoQuoteModes(ModeAfter(m, '\''), suffix);
    StaysDouble(suffix);
    StaysSingle(suffix);
    hide ModeAll, Opened, Quotes;
    ModesAppend(m, "'", suffix);
    QuotesAppend("'", suffix);
  }

  lemma {:induction false} StaysDouble(s: string)
    requires '"' !in s
    ensures ModeAll(Double, s).Double?
  {
    if s != "" { StaysDouble(s[1..]); }
  }

  lemma {:induction false} StaysSingle(s: string)
    requires '\'' !in s
    ensures ModeAll(Single, s).Single?
  {
    if s != "" { StaysSingle(s[1..]); }
  }

  lemma ThreeWords(x: string, y: string, z: string)
    requires '\'' !in y && '\'' !in z
    ensures AllQuotes([x, y, z]) == Quotes(x)
  {
    QuotesNone(y);
    QuotesNone(z);
    WordsNext([], x);
    WordsNext([x], y);
    WordsNext([x, y], z);
    assert [] + [x] == [x] && [x] + [y] == [x, y] && [x, y] + [z] == [x, y, z];
  }

  lemma WordsNext(words: seq<string>, w: string)
    ensures AllQuotes(words + [w]) == AllQuotes(words) + Quotes(w)
  {
    assert (words + [w])[..|words|] == words;
  }

  lemma HeldIs(r: Reading, words: seq<string>)
    requires words == r.words + if r.word.Some? then [r.word.value] else []
    ensures AllQuotes(words) == Held(r)
  {
    if r.word.Some? { assert words[..|words| - 1] == r.words; } else { assert words == r.words; }
  }

  /** If the words are the decoded path and two without quotes, the quoted prefix is exactly the
      one that is written for that path. */
  lemma RunsMeansWritten(inner: string, suffix: string, y: string, z: string)
    requires Unquoted(inner).Some? && '\'' !in suffix && '"' !in suffix && '\'' !in y && '\'' !in z
    requires Words("'" + inner + "'" + suffix) == Some([Unquoted(inner).value, y, z])
    ensures inner == ReplaceQuotes(Unquoted(inner).value)
  {
    var path := Unquoted(inner).value;
    var line := "'" + inner + "'" + suffix;
    var tail := "'" + suffix;
    assert line == "'" + (inner + tail);
    var r := ReadAll(START, line).value;
    HeldIs(r, [path, y, z]);
    hide ReadAll, Unquoted, Held, AllQuotes, Quotes, Words, ModeAll, Opened;
    ThreeWords(path, y, z);
    QuotesAccounted(START, line);
    NothingHeld();
    OneQuoteFrom(Bare);
    TailModes(ModeAll(Single, inner), suffix);
    LineCounts(inner, tail);
    DecodedOpens(Single, inner);
  }

  lemma LineCounts(inner: string, tail: string)
    ensures ModeAll(Bare, "'" + (inner + tail)) == ModeAll(ModeAll(Single, inner), tail)
    ensures Opened(Bare, "'" + (inner + tail)) == 1 + Opened(Single, inner) + Opened(ModeAll(Single, inner), tail)
    ensures Quotes("'" + (inner + tail)) == 1 + Quotes(inner) + Quotes(tail)
  {
    OneQuoteFrom(Bare);
    hide ModeAll, Opened, Quotes;
    ModesAppend(Bare, "'", inner + tail);
    ModesAppend(Single, inner, tail);
    QuotesAppend("'", inner + tail);
    QuotesAppend(inner, tail);
  }

  lemma NothingHeld()
    ensures Held(START) == 0
  {
  }

  lemma OneQuoteFrom(m: Mode)
    ensures ModeAll(m, "'") == ModeAfter(m, '\'') && Opened(m, "'") == (if m.Bare? then 1 else 0)
    ensures Quotes("'") == 1
  {
    assert "'"[1..] == "";
  }

  lemma ArgumentsPlain()
    ensures '\'' !in CODEX_SUFFIX && '"' !in CODEX_SUFFIX && '\'' !in "__hook-event" && '\'' !in "codex"
  {
  }

  lemma Peeled(prefix: string)
    requires Quoted(prefix) && prefix != "'"
    ensures |prefix| >= 2 && prefix == "'" + prefix[1..|prefix| - 1] + "'"
  {
    assert prefix == [prefix[0]] + prefix[1..|prefix| - 1] + [prefix[|prefix| - 1]];
  }

  lemma QuotedRunsIff(prefix: string)
    requires Quoted(prefix) && prefix != "'" && Unquoted(prefix[1..|prefix| - 1]).Some?
    ensures var path := Unquoted(prefix[1..|prefix| - 1]).value;
            && (Words(prefix + CODEX_SUFFIX) == Some(Arguments(path)) <==> prefix == ShellQuote(path))
            && prefix != path
  {
    var inner := prefix[1..|prefix| - 1];
    var path := Unquoted(inner).value;
    Peeled(prefix);
    DecodedShorter(inner);
    CommandRuns(path);
    hide Words, Unquoted;
    ArgumentsPlain();
    if Words(prefix + CODEX_SUFFIX) == Some(Arguments(path)) {
      RunsMeansWritten(inner, CODEX_SUFFIX, "__hook-event", "codex");
    }
  }

  lemma PlainRuns(prefix: string)
    requires prefix != "" && forall c :: c in prefix ==> PlainByte(c)
    ensures Words(prefix + CODEX_SUFFIX) == Some(Arguments(prefix))
  {
    PlainBytes(prefix);
    ReadWord([], prefix);
    hide ReadAll, Words, Plain;
    SuffixWords(prefix, prefix);
  }

  lemma SamePrefix(a: string, b: string)
    ensures a + CODEX_SUFFIX == b + CODEX_SUFFIX <==> a == b
  {
    assert (a + CODEX_SUFFIX)[..|a + CODEX_SUFFIX| - |CODEX_SUFFIX|] == a;
    assert (b + CODEX_SUFFIX)[..|b + CODEX_SUFFIX| - |CODEX_SUFFIX|] == b;
  }

  /** A command line that is recognized runs what it was recognized as exactly if it is the line
      that is written for that path, or the path stands there as it is. */
  lemma RecognizedRunsIff(command: string)
    requires ParseCodexCommand(command).Executable?
    ensures var path := ParseCodexCommand(command).path;
            (Words(command) == Some(Arguments(path)))
            == (command == CodexCommand(path) || command == path + CODEX_SUFFIX)
  {
    var path := ParseCodexCommand(command).path;
    var prefix := StripSuffix(command, CODEX_SUFFIX).value;
    assert command == prefix + CODEX_SUFFIX;
    hide Words, Unquoted, ShellQuote;
    SamePrefix(prefix, path);
    SamePrefix(prefix, ShellQuote(path));
    if prefix != "" && prefix[0] == '\'' {
      QuotedRunsIff(prefix);
    } else {
      PlainRuns(prefix);
    }
  }

  lemma {:induction false} DecodedShorter(s: string)
    ensures Unquoted(s).Some? ==> |Unquoted(s).value| <= |s|
    decreases |s|
  {
    if Find(s) < |s| { DecodedShorter(s[Find(s) + |QUOTED_QUOTE|..]); }
  }

  // ---------- what is recognized wrongly ----------

  lemma {:induction false} TripledQuotes(s: string)
    ensures Quotes(ReplaceQuotes(s)) == 3 * Quotes(s)
    decreases |s|
  {
    if s != "" {
      TripledQuotes(s[1..]);
      PatternModes(Bare);
      QuotesAppend(if s[0] == '\'' then QUOTED_QUOTE else [s[0]], ReplaceQuotes(s[1..]));
      assert [s[0]][1..] == "";
    }
  }

  lemma FindPast(s: string)
    requires |s| > 1 && s[0] == '\'' && s[1] != '"'
    ensures Find(s) == 1 + Find(s[1..])
  {
    assert QUOTED_QUOTE <= s ==> s[1] == QUOTED_QUOTE[1];
  }

  /** The pattern is found behind a quote that does not start it. */
  lemma FindBehind(u: string, v: string, tail: string)
    requires '\'' !in u && '\'' !in v && (v != "" ==> v[0] != '"')
    requires QUOTED_QUOTE <= tail
    ensures Find(u + ("'" + (v + tail))) == |u| + 1 + |v|
  {
    var rest := "'" + (v + tail);
    assert Find(tail) == 0;
    assert tail[0] == '\'';
    hide Find;
    FindSkips(v, tail);
    assert rest[1..] == v + tail;
    assert rest[1] == if v == "" then tail[0] else v[0];
    FindPast(rest);
    FindSkips(u, rest);
  }

  lemma UnquoteFound(s: string, i: nat)
    requires Find(s) == i < |s|
    ensures Unquoted(s) == match Unquoted(s[i + |QUOTED_QUOTE|..])
                           case None => None
                           case Some(rest) => Some(s[..i] + ['\''] + rest)
  {
    hide Find;
  }

  lemma UnquoteNothing(t: string)
    requires '\'' !in t
    ensures Unquoted(t) == Some(t)
  {
    FindSkips(t, "");
    assert t + "" == t;
    hide Find;
    assert Find("") == 0 by { FindNothing(); }
  }

  lemma FindNothing()
    ensures Find("") == 0
  {
  }

  /** A lone quote before a quoted one is kept as it is. */
  lemma LoneQuoteKept(u: string, v: string, t: string)
    requires '\'' !in u && '\'' !in v && '\'' !in t && (v != "" ==> v[0] != '"')
    ensures Unquoted(u + ("'" + (v + (QUOTED_QUOTE + t)))) == Some(u + "'" + v + "'" + t)
  {
    hide Find, Unquoted;
    var tail := QUOTED_QUOTE + t;
    var s := u + ("'" + (v + tail));
    var i := |u| + 1 + |v|;
    FindBehind(u, v, tail);
    UnquoteFound(s, i);
    UnquoteNothing(t);
    Behind(u, v, QUOTED_QUOTE, t);
  }

  lemma Behind(u: string, v: string, p: string, t: string)
    ensures var s, i := u + ("'" + (v + (p + t))), |u| + 1 + |v|;
            && i + |p| <= |s| && s[..i] == u + "'" + v && s[i + |p|..] == t
  {
  }

  /** A line in which a lone quote stands before a quoted one, and what it decodes to. */
  function AmbiguousLine(u: string, v: string, t: string): string {
    "'" + (u + ("'" + (v + (QUOTED_QUOTE + t)))) + "'" + CODEX_SUFFIX
  }

  function DecodedPath(u: string, v: string, t: string): string {
    u + "'" + v + "'" + t
  }

  /** Such a line is recognized all the same, though
      a shell reads it as something else, or not at all. */
  lemma MisreadCommand(u: string, v: string, t: string)
    requires '\'' !in u && '\'' !in v && '\'' !in t && (v != "" ==> v[0] != '"')
    ensures ParseCodexCommand(AmbiguousLine(u, v, t)) == Executable(DecodedPath(u, v, t))
    ensures Words(AmbiguousLine(u, v, t)) != Some(Arguments(DecodedPath(u, v, t)))
  {
    var inner, path := u + ("'" + (v + (QUOTED_QUOTE + t))), u + "'" + v + "'" + t;
    var prefix := "'" + inner + "'";
    var command := prefix + CODEX_SUFFIX;
    assert command[|command| - |CODEX_SUFFIX|..] == CODEX_SUFFIX && command[..|command| - |CODEX_SUFFIX|] == prefix;
    assert prefix[1..|prefix| - 1] == inner;
    LoneQuoteKept(u, v, t);
    hide Words, Unquoted;
    QuotedRunsIff(prefix);
    if prefix == ShellQuote(path) {
      assert ShellQuote(path)[1..|ShellQuote(path)| - 1] == ReplaceQuotes(path);
      FourQuotes(u, v, t);
      TripledQuotes(path);
    }
  }

  lemma FourQuotes(u: string, v: string, t: string)
    requires '\'' !in u && '\'' !in v && '\'' !in t
    ensures Quotes(u + ("'" + (v + (QUOTED_QUOTE + t)))) == 4 && Quotes(u + "'" + v + "'" + t) == 2
  {
    QuotesNone(u);
    QuotesNone(v);
    QuotesNone(t);
    PatternModes(Bare);
    OneQuoteFrom(Bare);
    hide Quotes;
    QuotesAppend(u, "'" + (v + (QUOTED_QUOTE + t)));
    QuotesAppend("'", v + (QUOTED_QUOTE + t));
    QuotesAppend(v, QUOTED_QUOTE + t);
    QuotesAppend(QUOTED_QUOTE, t);
    QuotesAppend(u + "'" + v + "'", t);
    QuotesAppend(u + "'" + v, "'");
    QuotesAppend(u + "'", v);
    QuotesAppend(u, "'");
  }
}
