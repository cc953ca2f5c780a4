/** A batch of commands on one control connection and the replies it collects. */
module ControlConnections {
  import opened Wrappers
  import opened Seqs
  import opened ControlParsing
  import opened ControlCorrelation

  datatype ConnectionError =
    | EmptyBatch | Unencodable | WriteFailed | ReadFailed | TimedOut | Closed
    | Protocol(error: ProtocolError)

  /** What the reader thread hands over next; running out of arrivals is a timeout. */
  datatype Arrival = Line(text: string) | Failed | HungUp

  function RepliesOf(items: seq<ControlItem>): seq<CommandResult> {
    if items == [] then []
    else if items[0].Reply? then [items[0].result] + RepliesOf(items[1..])
    else RepliesOf(items[1..])
  }

  lemma {:induction false} RepliesAppend(a: seq<ControlItem>, b: seq<ControlItem>)
    ensures RepliesOf(a + b) == RepliesOf(a) + RepliesOf(b)
  {
    if a == [] {
      assert a + b == b;
    } else {
      RepliesAppend(a[1..], b);
      assert (a + b)[1..] == a[1..] + b;
    }
  }

  function Outputs(replies: seq<CommandResult>): seq<string> {
    if replies == [] then [] else replies[0].output + Outputs(replies[1..])
  }

  predicate Succeeded(replies: seq<CommandResult>) {
    forall r :: r in replies ==> r.success
  }

  /** The whole batch as one result. */
  function Combined(ticket: Ticket, replies: seq<CommandResult>): CommandResult {
    CommandResult(ticket, Outputs(replies), Succeeded(replies))
  }

  lemma {:induction false} OutputsAppend(a: seq<CommandResult>, b: seq<CommandResult>)
    ensures Outputs(a + b) == Outputs(a) + Outputs(b)
  {
    if a == [] {
      assert a + b == b;
    } else {
      OutputsAppend(a[1..], b);
      assert (a + b)[1..] == a[1..] + b;
      Associate(a[0].output, Outputs(a[1..]), Outputs(b));
    }
  }

  function Arrived(lines: seq<string>): seq<Arrival> {
    seq(|lines|, i requires 0 <= i < |lines| => Line(lines[i]))
  }

  /** The lines took the parser from one state to another and answered these commands. */
  ghost predicate Consumed(s: ParserState, lines: seq<string>, t: ParserState, replies: seq<CommandResult>) {
    RunLines(s, lines).Ok? && RunLines(s, lines).value.0 == t && RepliesOf(RunLines(s, lines).value.1) == replies
  }

  lemma ConsumedNone(s: ParserState)
    ensures Consumed(s, [], s, [])
  {
  }

  lemma ConsumedAppend(s: ParserState, a: seq<string>, t: ParserState, r: seq<CommandResult>, b: seq<string>,
                       u: ParserState, q: seq<CommandResult>)
    requires Consumed(s, a, t, r) && Consumed(t, b, u, q)
    ensures Consumed(s, a + b, u, r + q)
  {
    hide RunLines;
    RunAppend(s, a, b);
    RepliesAppend(RunLines(s, a).value.1, RunLines(t, b).value.1);
  }

  lemma ConsumedOne(s: ParserState, line: string)
    requires Receive(s, line).1.Ok?
    ensures Consumed(s, [line], Receive(s, line).0, RepliesOf(Receive(s, line).1.value))
  {
    hide Receive, RunLines;
    RunOne(s, line);
  }

  /** What has been collected so far of a batch. */
  ghost predicate Gathered(all: seq<Arrival>, start: ParserState, lines: seq<string>, s: ParserState,
                           replies: seq<CommandResult>, left: seq<Arrival>, output: seq<string>, success: bool) {
    && all == Arrived(lines) + left && Consumed(start, lines, s, replies)
    && output == Outputs(replies) && success == Succeeded(replies)
  }

  lemma GatheredNone(all: seq<Arrival>, start: ParserState)
    ensures Gathered(all, start, [], start, [], all, [], true)
  {
    ConsumedNone(start);
    assert Arrived([]) + all == all;
  }

  lemma GatheredNext(all: seq<Arrival>, start: ParserState, lines: seq<string>, s: ParserState,
                     replies: seq<CommandResult>, left: seq<Arrival>, output: seq<string>, success: bool,
                     more: seq<string>, t: ParserState, reply: CommandResult, rest: seq<Arrival>)
    requires Gathered(all, start, lines, s, replies, left, output, success)
    requires left == Arrived(more) + rest && Consumed(s, more, t, [reply])
    ensures Gathered(all, start, lines + more, t, replies + [reply], rest, output + reply.output,
                     success && reply.success)
  {
    hide Consumed;
    ConsumedAppend(start, lines, s, replies, more, t, [reply]);
    ArrivedAppend(lines, more);
    assert Arrived(lines) + (Arrived(more) + rest) == (Arrived(lines) + Arrived(more)) + rest;
    OutputsAppend(replies, [reply]);
    OneOutput(reply);
    assert forall x :: x in replies + [reply] <==> x in replies || x == reply;
  }

  lemma GatheredAll(all: seq<Arrival>, start: ParserState, lines: seq<string>, s: ParserState,
                    replies: seq<CommandResult>, left: seq<Arrival>, output: seq<string>, success: bool)
    requires Gathered(all, start, lines, s, replies, left, output, success)
    ensures all == Arrived(lines) + left && Consumed(start, lines, s, replies)
    ensures forall first :: CommandResult(first, output, success) == Combined(first, replies)
  {
    hide Consumed;
  }

  lemma StillInHand(first: Ticket, count: nat, s: ParserState)
    requires s == ParserState(TicketRange(first, count), None)
    ensures InHand(s) == TicketRange(first, count)
  {
    assert [] + s.pending == s.pending;
  }

  lemma NextInHand(first: Ticket, count: nat)
    requires count > 0
    ensures TicketRange(first, count)[0] == first && TicketRange(first, count)[1..] == TicketRange(first + 1, count - 1)
  {
  }

  class ControlConnection {
    const parser: ControlParser
    var nextTicket: Ticket
    var results: map<Ticket, CommandResult>
    var events: seq<TmuxEvent>
    var incoming: seq<Arrival>

    /** Between successful batches nothing is pending, active or left over. */
    ghost predicate Idle()
      reads this, parser
    {
      parser.View() == ParserState([], None) && results == map[] && Distinct(events)
    }

    constructor (incoming: seq<Arrival>)
      ensures fresh(parser) && Idle() && this.incoming == incoming && nextTicket == 1
    {
      parser := new ControlParser();
      nextTicket, results, events := 1, map[], [];
      this.incoming := incoming;
    }

    /** Repeated events are one event. */
    method EnqueueEvent(event: TmuxEvent)
      requires Distinct(events)
      modifies this`events
      ensures Distinct(events) && ToSet(events) == ToSet(old(events)) + {event}
    {
      if event !in events {
        AppendedDistinct(events, event);
        events := events + [event];
      }
      assert forall e :: e in events <==> e in old(events) || e == event;
    }

    method Consume(line: string) returns (error: Option<ConnectionError>)
      requires Distinct(events)
      modifies this`results, this`events, parser
      ensures Distinct(events) && ToSet(old(events)) <= ToSet(events)
      ensures var (t, items) := Receive(old(parser.View()), line);
              && parser.View() == t
              && (match items
                  case Err(e) => error == Some(Protocol(e)) && results == old(results)
                  case Ok(got) =>
                    error == None
                    && (match RepliesOf(got)
                        case rs => if rs == [] then results == old(results)
                                   else |rs| == 1 && results == old(results)[rs[0].ticket := rs[0]]))
    {
      AtMostOne(parser.View(), line);
      hide Receive;
      var items := parser.ReceiveLine(line);
      if items.Err? {
        return Some(Protocol(items.error));
      }
      if items.value != [] {
        assert items.value[1..] == [];
        match items.value[0]
        case Reply(result) => results := results[result.ticket := result];
        case Notice(event) => EnqueueEvent(event);
      }
      return None;
    }

    /** Reads lines until the reply to this ticket has arrived. */
    method WaitFor(ticket: Ticket) returns (r: Result<CommandResult, ConnectionError>, ghost lines: seq<string>)
      requires results == map[] && Distinct(events)
      requires InHand(parser.View()) != [] && InHand(parser.View())[0] == ticket
      modifies this`results, this`events, this`incoming, parser
      ensures Distinct(events)
      ensures r.Ok? ==>
        && old(incoming) == Arrived(lines) + incoming
        && Consumed(old(parser.View()), lines, parser.View(), [r.value]) && r.value.ticket == ticket
        && InHand(parser.View()) == old(InHand(parser.View()))[1..] && results == map[]
    {
      ghost var start := parser.View();
      ConsumedNone(start);
      lines := [];
      assert Arrived(lines) + incoming == incoming;
      while ticket !in results
        invariant Distinct(events) && old(incoming) == Arrived(lines) + incoming
        invariant results == map[] ==>
          Consumed(start, lines, parser.View(), []) && InHand(parser.View()) == InHand(start)
        invariant results != map[] ==>
          ticket in results && results == map[ticket := results[ticket]] && results[ticket].ticket == ticket
          && Consumed(start, lines, parser.View(), [results[ticket]]) && InHand(parser.View()) == InHand(start)[1..]
        decreases |incoming|
      {
        hide Receive, Consumed, InHand, ToSet;
        if incoming == [] {
          r := Err(TimedOut);
          return;
        }
        var arrival := incoming[0];
        incoming := incoming[1..];
        match arrival
        case Failed =>
          r := Err(ReadFailed);
          return;
        case HungUp =>
          r := Err(Closed);
          return;
        case Line(line) =>
          ghost var s := parser.View();
          AtMostOne(s, line);
          TakenLine(old(incoming), lines, line, incoming);
          var error := Consume(line);
          if error.Some? {
            r := Err(error.value);
            return;
          }
          ReplyIsNext(s, line);
          ConsumedOne(s, line);
          ConsumedAppend(start, lines, s, [], [line], parser.View(), RepliesOf(Receive(s, line).1.value));
          assert [] + RepliesOf(Receive(s, line).1.value) == RepliesOf(Receive(s, line).1.value);
          lines := lines + [line];
      }
      var result := results[ticket];
      results := results - {ticket};
      r := Ok(result);
    }

    /** The replies to `count` registered commands, in the order they were registered. */
    method Collect(first: Ticket, count: nat)
      returns (r: Result<CommandResult, ConnectionError>, ghost lines: seq<string>, ghost replies: seq<CommandResult>)
      requires results == map[] && Distinct(events) && InHand(parser.View()) == TicketRange(first, count)
      modifies this`results, this`events, this`incoming, parser
      ensures r.Ok? ==>
        && Idle() && old(incoming) == Arrived(lines) + incoming
        && Consumed(old(parser.View()), lines, ParserState([], None), replies)
        && |replies| == count && r.value == Combined(first, replies)
    {
      hide Receive, Consumed, RunLines, Gathered, InHand;
      ghost var start := parser.View();
      lines, replies := [], [];
      var output: seq<string> := [];
      var success := true;
      GatheredNone(old(incoming), start);
      for k := 0 to count
        invariant results == map[] && Distinct(events) && |replies| == k
        invariant Gathered(old(incoming), start, lines, parser.View(), replies, incoming, output, success)
        invariant InHand(parser.View()) == TicketRange(first + k, count - k)
      {
        ghost var s := parser.View();
        ghost var before := incoming;
        NextInHand(first + k, count - k);
        var waited;
        ghost var more;
        waited, more := WaitFor(first + k);
        if waited.Err? {
          r := Err(waited.error);
          return;
        }
        GatheredNext(old(incoming), start, lines, s, replies, before, output, success, more, parser.View(),
                     waited.value,
                     incoming);
        success := success && waited.value.success;
        output := output + waited.value.output;
        lines := lines + more;
        replies := replies + [waited.value];
      }
      NothingInHand(parser.View());
      GatheredAll(old(incoming), start, lines, parser.View(), replies, incoming, output, success);
      r := Ok(CommandResult(first, output, success));
    }

    /** One ticket per command, all registered before anything is read. `encodes` and
        `writes` say whether encoding the batch and writing it to tmux succeed. */
    method Run(count: nat, encodes: bool, writes: bool)
      returns (r: Result<CommandResult, ConnectionError>, ghost lines: seq<string>, ghost replies: seq<CommandResult>)
      requires Idle()
      modifies this, parser
      ensures r.Ok? ==>
        && Idle() && count > 0 && nextTicket == old(nextTicket) + count
        && old(incoming) == Arrived(lines) + incoming
        && Consumed(ParserState(TicketRange(old(nextTicket), count), None), lines, ParserState([], None), replies)
        && |replies| == count && r.value == Combined(old(nextTicket), replies)
      ensures count == 0 ==> r == Err(EmptyBatch)
    {
      hide Consumed, Combined;
      lines, replies := [], [];
      if count == 0 {
        r := Err(EmptyBatch);
        return;
      }
      if !encodes {
        r := Err(Unencodable);
        return;
      }
      var first := nextTicket;
      Register(count);
      if !writes {
        r := Err(WriteFailed);
        return;
      }
      StillInHand(first, count, parser.View());
      r, lines, replies := Collect(first, count);
    }

    method Register(count: nat)
      requires parser.View() == ParserState([], None)
      modifies this`nextTicket, parser
      ensures nextTicket == old(nextTicket) + count
      ensures parser.View() == ParserState(TicketRange(old(nextTicket), count), None)
    {
      for k := 0 to count
        invariant nextTicket == old(nextTicket) + k
        invariant parser.View() == ParserState(TicketRange(old(nextTicket), k), None)
      {
        parser.Submitted(nextTicket);
        nextTicket := nextTicket + 1;
      }
    }
  }

  function TicketRange(first: Ticket, count: nat): (r: seq<Ticket>)
    ensures |r| == count
  {
    seq(count, i requires 0 <= i < count => first + i)
  }

  lemma AtMostOne(s: ParserState, line: string)
    ensures Receive(s, line).1.Ok? ==> |Receive(s, line).1.value| <= 1
  {
  }

  /** The only reply a line can bring is to the ticket at the head. */
  lemma ReplyIsNext(s: ParserState, line: string)
    requires Receive(s, line).1.Ok?
    ensures var (t, items) := Receive(s, line); var rs := RepliesOf(items.value);
            && |rs| <= 1
            && (rs == [] ==> InHand(t) == InHand(s))
            && (rs != [] ==> InHand(s) != [] && rs[0].ticket == InHand(s)[0] && InHand(t) == InHand(s)[1..])
  {
    AtMostOne(s, line);
    ReceiveConserves(s, line);
    hide Receive, InHand;
    var items := Receive(s, line).1.value;
    if items != [] {
      assert items[1..] == [];
      assert items == [items[0]];
      assert TicketsOf([]) == [] && RepliesOf([]) == [];
    }
  }

  lemma TakenLine(all: seq<Arrival>, lines: seq<string>, line: string, rest: seq<Arrival>)
    requires all == Arrived(lines) + ([Line(line)] + rest)
    ensures all == Arrived(lines + [line]) + rest
  {
    assert Arrived(lines + [line]) == Arrived(lines) + [Line(line)];
  }

  lemma ArrivedAppend(a: seq<string>, b: seq<string>)
    ensures Arrived(a + b) == Arrived(a) + Arrived(b)
  {
  }

  lemma OneOutput(r: CommandResult)
    ensures Outputs([r]) == r.output
  {
    assert [r][1..] == [];
    assert r.output + [] == r.output;
  }

  lemma NothingInHand(s: ParserState)
    requires InHand(s) == []
    ensures s == ParserState([], None)
  {
  }

  // ---------- what a successful batch got ----------

  function FramesOf(t: Transcript): seq<Frame> {
    match t
    case Ended(_) => []
    case Open(_, _, _) => []
    case Framed(_, f, rest) => [f] + FramesOf(rest)
  }

  lemma {:induction false} NoticesHaveNoReplies(lines: seq<string>)
    ensures RepliesOf(Notices(lines)) == []
  {
    hide TranslateNotification;
    if lines != [] {
      NoticesHaveNoReplies(lines[1..]);
      assert Notices(lines) == Notices(lines[1..]) || Notices(lines)[1..] == Notices(lines[1..]);
    }
  }

  lemma {:induction false} FramesAnswered(t: Transcript, tickets: seq<Ticket>)
    requires WellFormed(t) && Begun(t) <= |tickets| && Final(t, tickets) == ParserState([], None)
    ensures |FramesOf(t)| == |tickets| && |RepliesOf(Items(t, tickets))| == |tickets|
    ensures forall k :: 0 <= k < |tickets| ==>
      RepliesOf(Items(t, tickets))[k] == FrameResult(tickets[k], FramesOf(t)[k])
    decreases t
  {
    hide FrameCommand, IsBegin, IsFinish, AllQuiet, Fits, ControlParsing.Texts, Notices, RepliesOf;
    NoticesHaveNoReplies(t.gap);
    match t
    case Ended(_) =>
    case Framed(gap, f, rest) =>
      NoticesHaveNoReplies(f.inside);
      FramesAnswered(rest, tickets[1..]);
      var reply := FrameResult(tickets[0], f);
      var tail := Items(rest, tickets[1..]);
      OneReply(reply);
      RepliesAppend([Reply(reply)], tail);
      RepliesAppend(Notices(f.inside), [Reply(reply)] + tail);
      RepliesAppend(Notices(gap), Notices(f.inside) + ([Reply(reply)] + tail));
      assert RepliesOf(Items(t, tickets)) == [reply] + RepliesOf(tail);
  }

  lemma OneReply(r: CommandResult)
    ensures RepliesOf([Reply(r)]) == [r]
  {
    assert [Reply(r)][1..] == [];
  }

  /** The lines a successful batch read are exactly its own commands' frames, in order,
      and each reply is its frame's output; notifications in between change nothing. */
  lemma BatchAnswersItsFrames(tickets: seq<Ticket>, lines: seq<string>, replies: seq<CommandResult>)
    returns (t: Transcript)
    requires Consumed(ParserState(tickets, None), lines, ParserState([], None), replies)
    ensures WellFormed(t) && Lines(t) == lines
    ensures |FramesOf(t)| == |tickets| == |replies|
    ensures forall k :: 0 <= k < |tickets| ==> replies[k] == FrameResult(tickets[k], FramesOf(t)[k])
  {
    hide RunLines, WellFormed, Lines, Begun, Final, Items, FrameResult;
    t := Unframe(ParserState(tickets, None), lines);
    TranscriptRuns(ParserState(tickets, None), t);
    FramesAnswered(t, tickets);
  }
}
