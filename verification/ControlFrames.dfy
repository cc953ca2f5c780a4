/** What tmux writes for a command and what is read from it: a begin line, the output and an end
    or error line, each with a time, the command's number and flags. */
module ControlFrames {
  import opened Wrappers
  import opened ControlParsing
  import opened ControlCorrelation

  const LARGEST: nat := 0xFFFF_FFFF_FFFF_FFFF

  function Decimal(n: nat): (s: string)
    ensures s != ""
  {
    if n < 10 then [('0' as int + n) as char] else Decimal(n / 10) + [('0' as int + n % 10) as char]
  }

  /** A field of a line. */
  predicate Word(w: string) {
    w != "" && forall c :: c in w ==> !IsSpace(c)
  }

  /** The line tmux writes. */
  function FrameLine(name: string, time: string, number: nat, flags: string): string {
    name + (" " + (time + (" " + (Decimal(number) + (" " + flags)))))
  }

  // ---------- numbers ----------

  lemma {:induction false} DecimalDigits(n: nat)
    ensures forall c :: c in Decimal(n) ==> '0' <= c <= '9'
  {
    if n >= 10 { DecimalDigits(n / 10); }
  }

  lemma OneDigit(d: nat, value: nat, t: string)
    requires d < 10
    ensures Digits([('0' as int + d) as char] + t, value)
         == if value * 10 + d > LARGEST then None else Digits(t, value * 10 + d)
  {
    var s := [('0' as int + d) as char] + t;
    assert s[1..] == t;
  }

  /** A number is read back exactly if it fits 64 bits. */
  lemma {:induction false} DigitsRead(n: nat, t: string)
    ensures Digits(Decimal(n) + t, 0) == if n > LARGEST then None else Digits(t, n)
  {
    if n < 10 {
      OneDigit(n, 0, t);
    } else {
      var last := [('0' as int + n % 10) as char];
      assert Decimal(n) + t == Decimal(n / 10) + (last + t);
      DigitsRead(n / 10, last + t);
      OneDigit(n % 10, n / 10, t);
      assert n == n / 10 * 10 + n % 10;
    }
  }

  lemma NumberRead(n: nat)
    ensures ParseU64(Decimal(n)) == if n > LARGEST then None else Some(n)
  {
    var s := Decimal(n);
    DecimalDigits(n);
    assert s[0] in s;
    DigitsRead(n, "");
    assert s + "" == s;
    hide Decimal;
    assert Digits("", n) == Some(n);
  }

  // ---------- fields ----------

  lemma {:induction false} FieldsWord(w: string, rest: string, sofar: string)
    requires forall c :: c in w ==> !IsSpace(c)
    ensures Fields(w + rest, sofar) == Fields(rest, sofar + w)
    decreases |w|
  {
    if w == "" {
      assert w + rest == rest && sofar + w == sofar;
    } else {
      assert (w + rest)[1..] == w[1..] + rest && w[0] in w;
      FieldsWord(w[1..], rest, sofar + [w[0]]);
      assert sofar + [w[0]] + w[1..] == sofar + w;
    }
  }

  lemma FieldsNext(w: string, rest: string)
    requires Word(w)
    ensures Fields(w + (" " + rest), "") == [w] + Fields(rest, "")
  {
    FieldsWord(w, " " + rest, "");
    assert "" + w == w;
    assert (" " + rest)[1..] == rest;
  }

  lemma FieldsLast(w: string)
    requires Word(w)
    ensures Fields(w, "") == [w]
  {
    FieldsWord(w, "", "");
    assert w + "" == w && "" + w == w;
  }

  lemma DecimalWord(n: nat)
    ensures Word(Decimal(n))
  {
    DecimalDigits(n);
    hide Decimal;
  }

  /** The number of the command is read from the line, or the line is refused. */
  lemma FrameRead(name: string, time: string, number: nat, flags: string)
    requires Word(name) && Word(time) && Word(flags)
    ensures FrameCommand(FrameLine(name, time, number, flags))
         == if number > LARGEST then Err(CommandNotNumeric) else Ok(number)
  {
    hide Fields, Decimal, ParseU64, Word;
    DecimalWord(number);
    FieldsNext(name, time + (" " + (Decimal(number) + (" " + flags))));
    FieldsNext(time, Decimal(number) + (" " + flags));
    FieldsNext(Decimal(number), flags);
    FieldsLast(flags);
    NumberRead(number);
    assert [name] + ([time] + ([Decimal(number)] + [flags])) == [name, time, Decimal(number), flags];
  }

  // ---------- a whole reply ----------

  /** A line of output that is no notification: it starts with no percent sign, or is an id. */
  predicate Output(line: string) {
    line == "" || line[0] != '%' || (|line| > 1 && '0' <= line[1] <= '9')
  }

  lemma OutputQuiet(line: string)
    requires Output(line)
    ensures Quiet(line) && TranslateNotification(line).None?
  {
    if line != "" && line[0] == '%' {
      NameStarts(line);
      LettersFirst(Name(line));
    }
    assert "%begin "[1] == 'b' && "%end "[1] == 'e' && "%error "[1] == 'e' && "%exit"[1] == 'e' && "%exit "[1] == 'e';
    hide Name;
  }

  lemma NameStarts(line: string)
    requires |line| > 1 && line[0] == '%' && '0' <= line[1] <= '9'
    ensures |Name(line)| > 1 && Name(line)[1] == line[1]
  {
    assert Name(line) == [line[0]] + Name(line[1..]);
    assert Name(line[1..]) == [line[1]] + Name(line[1..][1..]);
  }

  lemma LettersFirst(name: string)
    requires |name| > 1 && '0' <= name[1] <= '9'
    ensures name !in {
      "%client-attached", "%client-detached", "%client-session-changed", "%layout-change", "%session-changed",
      "%session-window-changed", "%sessions-changed", "%unlinked-window-add", "%unlinked-window-close",
      "%window-add", "%window-close", "%window-pane-changed", "%window-renamed"
    }
  {
  }

  lemma {:induction false} OutputKept(body: seq<string>)
    requires forall line :: line in body ==> Output(line)
    ensures AllQuiet(body) && Texts(body) == body && Notices(body) == []
  {
    if body != [] {
      OutputQuiet(body[0]);
      hide Quiet, TranslateNotification, Output;
      assert body == [body[0]] + body[1..];
      OutputKept(body[1..]);
    }
  }

  lemma FrameNames(time: string, number: nat, flags: string)
    ensures IsBegin(FrameLine("%begin", time, number, flags))
    ensures IsFinish(FrameLine("%end", time, number, flags)) && IsEnd(FrameLine("%end", time, number, flags))
    ensures IsFinish(FrameLine("%error", time, number, flags)) && !IsEnd(FrameLine("%error", time, number, flags))
    ensures Word("%begin") && Word("%end") && Word("%error")
  {
    var rest := time + (" " + (Decimal(number) + (" " + flags)));
    hide Decimal;
    assert "%begin" + (" " + rest) == "%begin " + rest;
    assert "%end" + (" " + rest) == "%end " + rest;
    assert "%error" + (" " + rest) == "%error " + rest;
    assert ("%error " + rest)[2] == 'r' && "%end "[2] == 'n';
  }

  /** What tmux writes for a command is read as the reply to the oldest ticket: its output, and
      success exactly if the frame ends with an end line and not an error line. */
  lemma ReplyRead(tickets: seq<Ticket>, time: string, number: nat, flags: string, body: seq<string>, ended: string,
                  endFlags: string, success: bool)
    requires tickets != [] && number <= LARGEST && Word(time) && Word(flags) && Word(ended) && Word(endFlags)
    requires (forall line :: line in body ==> Output(line)) && Fits(body)
    ensures var begin := FrameLine("%begin", time, number, flags);
            var finish := FrameLine(if success then "%end" else "%error", ended, number, endFlags);
            RunLines(ParserState(tickets, None), ([begin] + body) + [finish])
            == Ok((ParserState(tickets[1..], None), [Reply(CommandResult(tickets[0], body, success))]))
  {
    var begin := FrameLine("%begin", time, number, flags);
    var finish := FrameLine(if success then "%end" else "%error", ended, number, endFlags);
    hide FrameLine, Word, IsBegin, IsFinish, IsEnd, FrameCommand, RunLines, Output, Fits, AllQuiet, Texts, Notices;
    FrameNames(time, number, flags);
    FrameNames(ended, number, endFlags);
    FrameRead("%begin", time, number, flags);
    FrameRead(if success then "%end" else "%error", ended, number, endFlags);
    OutputKept(body);
    FrameRuns(ParserState(tickets, None), Frame(begin, body, finish));
    assert [] + [Reply(CommandResult(tickets[0], body, success))] == [Reply(CommandResult(tickets[0], body, success))];
  }
}
