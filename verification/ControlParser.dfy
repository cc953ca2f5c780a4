/** Correlating tmux's control-mode replies with the commands that asked for them. */
module ControlParsing {
  import opened Wrappers
  import opened Utf8

  type Ticket = nat

  datatype TmuxEvent = ConnectionLost | TopologyChanged
  datatype CommandResult = CommandResult(ticket: Ticket, output: seq<string>, success: bool)
  datatype ControlItem = Reply(result: CommandResult) | Notice(event: TmuxEvent)
  datatype ProtocolError =
    | NestedBegin | BeginWithoutCommand | CompletionWithoutBegin | CompletionMismatch
    | MalformedFrame | CommandNotNumeric | OutputTooLarge

  const MAX_COMMAND_OUTPUT_LINES := 4096
  const MAX_COMMAND_OUTPUT_BYTES := 4 * 1024 * 1024

  datatype Active = Active(ticket: Ticket, tmuxCommand: nat, output: seq<string>, outputBytes: nat)
  datatype ParserState = ParserState(pending: seq<Ticket>, active: Option<Active>)

  // ---------- reading one line ----------

  predicate StartsWith(line: string, prefix: string) {
    prefix <= line
  }

  predicate IsSpace(c: char) {
    || '\U{0009}' <= c <= '\U{000D}' || c == ' ' || c == '\U{0085}' || c == '\U{00A0}' || c == '\U{1680}'
    || '\U{2000}' <= c <= '\U{200A}' || c == '\U{2028}' || c == '\U{2029}' || c == '\U{202F}'
    || c == '\U{205F}' || c == '\U{3000}'
  }

  /** `split_whitespace`; `word` is the field being read. */
  function Fields(line: string, word: string): seq<string>
    decreases |line|
  {
    var done := if word == "" then [] else [word];
    if line == "" then done
    else if IsSpace(line[0]) then done + Fields(line[1..], "")
    else Fields(line[1..], word + [line[0]])
  }

  function Digits(s: string, value: nat): Option<nat>
    decreases |s|
  {
    if s == "" then Some(value)
    else if '0' <= s[0] <= '9' then
      var next := value * 10 + (s[0] as int - '0' as int);
      if next > 0xFFFF_FFFF_FFFF_FFFF then None else Digits(s[1..], next)
    else None
  }

  /** `str::parse::<u64>`. */
  function ParseU64(s: string): Option<nat> {
    var digits := if s != "" && s[0] == '+' then s[1..] else s;
    if digits == "" then None else Digits(digits, 0)
  }

  function FrameCommand(line: string): Result<nat, ProtocolError> {
    var fields := Fields(line, "");
    if |fields| != 4 then Err(MalformedFrame)
    else match ParseU64(fields[2])
         case Some(n) => Ok(n)
         case None => Err(CommandNotNumeric)
  }

  function Name(line: string): string {
    if line == "" || line[0] == ' ' then "" else [line[0]] + Name(line[1..])
  }

  function TranslateNotification(line: string): Option<TmuxEvent> {
    if line == "%exit" || StartsWith(line, "%exit ") then Some(ConnectionLost)
    else if !StartsWith(line, "%") then None
    else if Name(line) in {
      "%client-attached", "%client-detached", "%client-session-changed", "%layout-change", "%session-changed",
      "%session-window-changed", "%sessions-changed", "%unlinked-window-add", "%unlinked-window-close",
      "%window-add", "%window-close", "%window-pane-changed", "%window-renamed"
    } then Some(TopologyChanged)
    else None
  }

  predicate IsBegin(line: string) {
    StartsWith(line, "%begin ")
  }

  predicate IsEnd(line: string) {
    StartsWith(line, "%end ")
  }

  predicate IsFinish(line: string) {
    IsEnd(line) || StartsWith(line, "%error ")
  }

  // ---------- one step ----------

  function BeginFrame(s: ParserState, line: string): (ParserState, Option<ProtocolError>) {
    if s.active.Some? then (s, Some(NestedBegin))
    else match FrameCommand(line)
         case Err(e) => (s, Some(e))
         case Ok(command) =>
           if s.pending == [] then (s, Some(BeginWithoutCommand))
           else (ParserState(s.pending[1..], Some(Active(s.pending[0], command, [], 0))), None)
  }

  function FinishFrame(s: ParserState, line: string): (ParserState, Result<CommandResult, ProtocolError>) {
    match FrameCommand(line)
    case Err(e) => (s, Err(e))
    case Ok(command) =>
      if s.active.None? then (s, Err(CompletionWithoutBegin))
      else
        var a := s.active.value;
        (s.(active := None),
         if a.tmuxCommand != command then Err(CompletionMismatch)
         else Ok(CommandResult(a.ticket, a.output, IsEnd(line))))
  }

  predicate Overflows(a: Active, line: string) {
    |a.output| >= MAX_COMMAND_OUTPUT_LINES || a.outputBytes + ByteLength(line) > MAX_COMMAND_OUTPUT_BYTES
  }

  function Receive(s: ParserState, line: string): (ParserState, Result<seq<ControlItem>, ProtocolError>) {
    if IsBegin(line) then
      var (r, e) := BeginFrame(s, line);
      (r, if e.Some? then Err(e.value) else Ok([]))
    else if IsFinish(line) then
      var (r, result) := FinishFrame(s, line);
      (r, match result case Ok(c) => Ok([Reply(c)]) case Err(e) => Err(e))
    else match TranslateNotification(line)
         case Some(event) => (s, Ok([Notice(event)]))
         case None =>
           if s.active.None? then (s, Ok([]))
           else
             var a := s.active.value;
             if Overflows(a, line) then (s, Err(OutputTooLarge))
             else (s.(active := Some(a.(output := a.output + [line], outputBytes := a.outputBytes + ByteLength(line)))),
                   Ok([]))
  }

  // ---------- the parser as an object ----------

  class ControlParser {
    var pending: seq<Ticket>
    var active: Option<Active>

    ghost function View(): ParserState
      reads this
    {
      ParserState(pending, active)
    }

    constructor ()
      ensures View() == ParserState([], None)
    {
      pending, active := [], None;
    }

    method Submitted(ticket: Ticket)
      modifies this`pending
      ensures View() == ParserState(old(pending) + [ticket], old(active))
    {
      pending := pending + [ticket];
    }

    method Begin(line: string) returns (error: Option<ProtocolError>)
      modifies this
      ensures (View(), error) == BeginFrame(old(View()), line)
    {
      if active.Some? {
        return Some(NestedBegin);
      }
      var command := FrameCommand(line);
      if command.Err? {
        return Some(command.error);
      }
      if pending == [] {
        return Some(BeginWithoutCommand);
      }
      var ticket := pending[0];
      pending := pending[1..];
      active := Some(Active(ticket, command.value, [], 0));
      return None;
    }

    method Finish(line: string) returns (r: Result<CommandResult, ProtocolError>)
      modifies this`active
      ensures (View(), r) == FinishFrame(old(View()), line)
    {
      var command := FrameCommand(line);
      if command.Err? {
        return Err(command.error);
      }
      if active.None? {
        return Err(CompletionWithoutBegin);
      }
      var a := active.value;
      active := None;
      if a.tmuxCommand != command.value {
        return Err(CompletionMismatch);
      }
      return Ok(CommandResult(a.ticket, a.output, IsEnd(line)));
    }

    method ReceiveLine(line: string) returns (r: Result<seq<ControlItem>, ProtocolError>)
      modifies this
      ensures (View(), r) == Receive(old(View()), line)
    {
      hide FrameCommand, TranslateNotification;
      if IsBegin(line) {
        var error := Begin(line);
        return if error.Some? then Err(error.value) else Ok([]);
      }
      if IsFinish(line) {
        var finished := Finish(line);
        return match finished case Ok(c) => Ok([Reply(c)]) case Err(e) => Err(e);
      }
      var event := TranslateNotification(line);
      if event.Some? {
        return Ok([Notice(event.value)]);
      }
      if active.Some? {
        var a := active.value;
        if |a.output| >= MAX_COMMAND_OUTPUT_LINES || a.outputBytes + ByteLength(line) > MAX_COMMAND_OUTPUT_BYTES {
          return Err(OutputTooLarge);
        }
        active := Some(a.(output := a.output + [line], outputBytes := a.outputBytes + ByteLength(line)));
      }
      return Ok([]);
    }
  }

  // ---------- runs of lines ----------

  function RunLines(s: ParserState, lines: seq<string>): Result<(ParserState, seq<ControlItem>), ProtocolError>
    decreases |lines|
  {
    if lines == [] then Ok((s, []))
    else
      var (t, items) := Receive(s, lines[0]);
      match items
      case Err(e) => Err(e)
      case Ok(first) =>
        match RunLines(t, lines[1..])
        case Err(e) => Err(e)
        case Ok(rest) => Ok((rest.0, first + rest.1))
  }

  function RunOn(r: Result<(ParserState, seq<ControlItem>), ProtocolError>, lines: seq<string>)
    : Result<(ParserState, seq<ControlItem>), ProtocolError>
  {
    match r
    case Err(e) => Err(e)
    case Ok(sofar) =>
      match RunLines(sofar.0, lines)
      case Err(e) => Err(e)
      case Ok(rest) => Ok((rest.0, sofar.1 + rest.1))
  }

  lemma {:induction false} RunAppend(s: ParserState, a: seq<string>, b: seq<string>)
    ensures RunLines(s, a + b) == RunOn(RunLines(s, a), b)
    decreases |a|
  {
    if a == [] {
      assert a + b == b;
      match RunLines(s, b)
      case Ok(r) => assert [] + r.1 == r.1;
      case Err(_) =>
    } else {
      hide Receive;
      assert (a + b)[1..] == a[1..] + b;
      var (t, items) := Receive(s, a[0]);
      if items.Ok? {
        RunAppend(t, a[1..], b);
        if RunLines(t, a[1..]).Ok? {
          var m := RunLines(t, a[1..]).value;
          if RunLines(m.0, b).Ok? {
            assert items.value + (m.1 + RunLines(m.0, b).value.1) == (items.value + m.1) + RunLines(m.0, b).value.1;
          }
        }
      }
    }
  }

  // ---------- what a stream is made of ----------

  /** A line that is no frame line: a notification, or output if inside a frame. */
  predicate Quiet(line: string) {
    !IsBegin(line) && !IsFinish(line)
  }

  predicate AllQuiet(lines: seq<string>) {
    forall line :: line in lines ==> Quiet(line)
  }

  function Notices(lines: seq<string>): seq<ControlItem> {
    if lines == [] then []
    else match TranslateNotification(lines[0])
         case Some(e) => [Notice(e)] + Notices(lines[1..])
         case None => Notices(lines[1..])
  }

  /** The lines that are neither frame lines nor notifications. */
  function Texts(lines: seq<string>): seq<string> {
    if lines == [] then []
    else if TranslateNotification(lines[0]).None? then [lines[0]] + Texts(lines[1..])
    else Texts(lines[1..])
  }

  function Bytes(lines: seq<string>): nat {
    if lines == [] then 0 else ByteLength(lines[0]) + Bytes(lines[1..])
  }

  predicate Fits(output: seq<string>) {
    |output| <= MAX_COMMAND_OUTPUT_LINES && Bytes(output) <= MAX_COMMAND_OUTPUT_BYTES
  }

  datatype Frame = Frame(begin: string, inside: seq<string>, finish: string)

  /** A stream of lines: gaps between frames, and perhaps a frame still open at the end. */
  datatype Transcript =
    | Ended(gap: seq<string>)
    | Open(gap: seq<string>, begin: string, inside: seq<string>)
    | Framed(gap: seq<string>, frame: Frame, rest: Transcript)

  function Lines(t: Transcript): seq<string> {
    match t
    case Ended(gap) => gap
    case Open(gap, begin, inside) => gap + ([begin] + inside)
    case Framed(gap, f, rest) => gap + ([f.begin] + (f.inside + ([f.finish] + Lines(rest))))
  }

  predicate WellFormed(t: Transcript) {
    AllQuiet(t.gap)
    && match t
       case Ended(_) => true
       case Open(_, begin, inside) =>
         IsBegin(begin) && FrameCommand(begin).Ok? && AllQuiet(inside) && Fits(Texts(inside))
       case Framed(_, f, rest) =>
         && IsBegin(f.begin) && IsFinish(f.finish)
         && FrameCommand(f.begin).Ok? && FrameCommand(f.begin) == FrameCommand(f.finish)
         && AllQuiet(f.inside) && Fits(Texts(f.inside))
         && WellFormed(rest)
  }

  /** Frames begun. */
  function Begun(t: Transcript): nat {
    match t
    case Ended(_) => 0
    case Open(_, _, _) => 1
    case Framed(_, _, rest) => 1 + Begun(rest)
  }

  function FrameResult(ticket: Ticket, f: Frame): CommandResult {
    CommandResult(ticket, Texts(f.inside), IsEnd(f.finish))
  }

  function Items(t: Transcript, tickets: seq<Ticket>): seq<ControlItem>
    requires Begun(t) <= |tickets|
  {
    match t
    case Ended(gap) => Notices(gap)
    case Open(gap, _, inside) => Notices(gap) + Notices(inside)
    case Framed(gap, f, rest) =>
      Notices(gap) + (Notices(f.inside) + ([Reply(FrameResult(tickets[0], f))] + Items(rest, tickets[1..])))
  }

  function Final(t: Transcript, tickets: seq<Ticket>): ParserState
    requires Begun(t) <= |tickets| && WellFormed(t)
  {
    match t
    case Ended(_) => ParserState(tickets, None)
    case Open(_, begin, inside) =>
      ParserState(tickets[1..],
                  Some(Active(tickets[0], FrameCommand(begin).value, Texts(inside), Bytes(Texts(inside)))))
    case Framed(_, _, rest) => Final(rest, tickets[1..])
  }
}
