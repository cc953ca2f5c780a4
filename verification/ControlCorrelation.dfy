/** Every accepted stream of control-mode lines is a sequence of frames, and each reply is
    the output of its own frame, in submission order. */
module ControlCorrelation {
  import opened Wrappers
  import opened Utf8
  import opened ControlParsing

  // ---------- conservation of tickets ----------

  datatype Input = Submit(ticket: Ticket) | Received(line: string)

  function TicketsOf(items: seq<ControlItem>): seq<Ticket> {
    if items == [] then []
    else if items[0].Reply? then [items[0].result.ticket] + TicketsOf(items[1..])
    else TicketsOf(items[1..])
  }

  function Submissions(inputs: seq<Input>): seq<Ticket> {
    if inputs == [] then []
    else if inputs[0].Submit? then [inputs[0].ticket] + Submissions(inputs[1..])
    else Submissions(inputs[1..])
  }

  /** The tickets in hand: the active one, then those still pending. */
  function InHand(s: ParserState): seq<Ticket> {
    (if s.active.Some? then [s.active.value.ticket] else []) + s.pending
  }

  function Drive(s: ParserState, inputs: seq<Input>): Result<(ParserState, seq<ControlItem>), ProtocolError>
    decreases |inputs|
  {
    if inputs == [] then Ok((s, []))
    else match inputs[0]
         case Submit(ticket) => Drive(s.(pending := s.pending + [ticket]), inputs[1..])
         case Received(line) =>
           var (t, items) := Receive(s, line);
           match items
           case Err(e) => Err(e)
           case Ok(first) =>
             match Drive(t, inputs[1..])
             case Err(e) => Err(e)
             case Ok(rest) => Ok((rest.0, first + rest.1))
  }

  lemma ReceiveConserves(s: ParserState, line: string)
    requires Receive(s, line).1.Ok?
    ensures TicketsOf(Receive(s, line).1.value) + InHand(Receive(s, line).0) == InHand(s)
  {
    hide FrameCommand, TranslateNotification;
    var items := Receive(s, line).1.value;
    assert items == [] || items[1..] == [];
    assert TicketsOf([]) == [];
  }

  lemma {:induction false} TicketsAppend(a: seq<ControlItem>, b: seq<ControlItem>)
    ensures TicketsOf(a + b) == TicketsOf(a) + TicketsOf(b)
  {
    if a == [] {
      assert a + b == b;
    } else {
      TicketsAppend(a[1..], b);
      assert (a + b)[1..] == a[1..] + b;
    }
  }

  /** However submissions and lines interleave: the tickets answered, then the one being
      answered, then those waiting, are the tickets submitted, in order. */
  lemma {:induction false} TicketsConserved(s: ParserState, inputs: seq<Input>)
    requires Drive(s, inputs).Ok?
    ensures var (t, items) := Drive(s, inputs).value;
            TicketsOf(items) + InHand(t) == InHand(s) + Submissions(inputs)
    decreases |inputs|
  {
    if inputs != [] {
      match inputs[0]
      case Submit(ticket) =>
        var t := s.(pending := s.pending + [ticket]);
        TicketsConserved(t, inputs[1..]);
        assert InHand(t) + Submissions(inputs[1..]) == InHand(s) + ([ticket] + Submissions(inputs[1..]));
      case Received(line) =>
        hide Receive, InHand;
        var (t, items) := Receive(s, line);
        ReceiveConserves(s, line);
        TicketsConserved(t, inputs[1..]);
        var rest := Drive(t, inputs[1..]).value;
        TicketsAppend(items.value, rest.1);
        Regroup(TicketsOf(items.value), InHand(t), InHand(s), TicketsOf(rest.1), InHand(rest.0),
                Submissions(inputs[1..]));
    }
  }

  lemma Regroup(first: seq<Ticket>, t: seq<Ticket>, s: seq<Ticket>, rest: seq<Ticket>, r: seq<Ticket>,
                subs: seq<Ticket>)
    requires first + t == s && rest + r == t + subs
    ensures (first + rest) + r == s + subs
  {
    assert (first + rest) + r == first + (rest + r);
    assert first + (t + subs) == (first + t) + subs;
  }

  // ---------- accepted streams are exactly sequences of frames ----------

  lemma {:induction false} TextsAppend(a: seq<string>, b: seq<string>)
    ensures Texts(a + b) == Texts(a) + Texts(b)
  {
    hide TranslateNotification;
    if a == [] {
      assert a + b == b;
    } else {
      TextsAppend(a[1..], b);
      assert (a + b)[1..] == a[1..] + b;
    }
  }

  lemma {:induction false} NoticesAppend(a: seq<string>, b: seq<string>)
    ensures Notices(a + b) == Notices(a) + Notices(b)
  {
    hide TranslateNotification;
    if a == [] {
      assert a + b == b;
    } else {
      NoticesAppend(a[1..], b);
      assert (a + b)[1..] == a[1..] + b;
    }
  }

  lemma {:induction false} BytesAppend(a: seq<string>, b: seq<string>)
    ensures Bytes(a + b) == Bytes(a) + Bytes(b)
  {
    if a == [] {
      assert a + b == b;
    } else {
      BytesAppend(a[1..], b);
      assert (a + b)[1..] == a[1..] + b;
    }
  }

  lemma {:induction false} GapRuns(s: ParserState, gap: seq<string>)
    requires s.active.None? && AllQuiet(gap)
    ensures RunLines(s, gap) == Ok((s, Notices(gap)))
    decreases |gap|
  {
    if gap != [] {
      hide TranslateNotification, IsBegin, IsFinish;
      assert Quiet(gap[0]);
      assert AllQuiet(gap[1..]) by { assert forall x :: x in gap[1..] ==> x in gap; }
      GapRuns(s, gap[1..]);
      assert [] + Notices(gap[1..]) == Notices(gap[1..]);
    }
  }

  ghost predicate Counted(a: Active) {
    a.outputBytes == Bytes(a.output) && Fits(a.output)
  }

  function Extended(a: Active, texts: seq<string>): Active {
    a.(output := a.output + texts, outputBytes := a.outputBytes + Bytes(texts))
  }

  lemma TextsOne(line: string)
    ensures Texts([line]) == if TranslateNotification(line).None? then [line] else []
    ensures Notices([line]) == (match TranslateNotification(line) case Some(e) => [Notice(e)] case None => [])
    ensures Bytes([line]) == ByteLength(line)
  {
    hide TranslateNotification, ByteLength;
    assert [line][1..] == [];
  }

  /** One quiet line inside a frame. */
  lemma QuietInside(s: ParserState, line: string)
    requires s.active.Some? && Counted(s.active.value) && Quiet(line)
    ensures var a := s.active.value;
            && (Receive(s, line).1.Ok? <==> Fits(a.output + Texts([line])))
            && (Receive(s, line).1.Ok? ==>
                  Receive(s, line) == (s.(active := Some(Extended(a, Texts([line])))), Ok(Notices([line])))
                  && Counted(Extended(a, Texts([line]))))
  {
    hide TranslateNotification, IsBegin, IsFinish, ByteLength, Texts, Notices, Bytes;
    var a := s.active.value;
    TextsOne(line);
    BytesAppend(a.output, Texts([line]));
    assert a.output + [] == a.output;
    assert Bytes([]) == 0 by { BytesNone(); }
  }

  lemma BytesNone()
    ensures Bytes([]) == 0
  {
  }

  /** Inside a frame, quiet lines are accepted exactly as long as the output fits. */
  lemma {:induction false} InsideRuns(s: ParserState, inside: seq<string>)
    requires s.active.Some? && Counted(s.active.value) && AllQuiet(inside)
    ensures RunLines(s, inside).Ok? <==> Fits(s.active.value.output + Texts(inside))
    ensures RunLines(s, inside).Ok? ==>
      RunLines(s, inside) == Ok((s.(active := Some(Extended(s.active.value, Texts(inside)))), Notices(inside)))
      && Counted(Extended(s.active.value, Texts(inside)))
    decreases |inside|
  {
    var a := s.active.value;
    if inside == [] {
      assert a.output + [] == a.output;
    } else {
      hide TranslateNotification, IsBegin, IsFinish, ByteLength, Receive, Texts, Notices, Bytes, Fits, Counted;
      var line, rest := inside[0], inside[1..];
      assert Quiet(line);
      assert AllQuiet(rest) by { assert forall x :: x in rest ==> x in inside; }
      assert inside == [line] + rest;
      QuietInside(s, line);
      TextsAppend([line], rest);
      NoticesAppend([line], rest);
      var b := Extended(a, Texts([line]));
      ExtendedTwice(a, Texts([line]), Texts(rest));
      hide Extended;
      if Receive(s, line).1.Ok? {
        InsideRuns(s.(active := Some(b)), rest);
      } else {
        if Fits(a.output + Texts(inside)) { FitsLess(a.output + Texts([line]), Texts(rest)); }
      }
    }
  }

  lemma ExtendedTwice(a: Active, x: seq<string>, y: seq<string>)
    ensures Extended(Extended(a, x), y) == Extended(a, x + y)
    ensures Extended(a, x).output == a.output + x
    ensures (a.output + x) + y == a.output + (x + y)
  {
    BytesAppend(x, y);
    assert (a.output + x) + y == a.output + (x + y);
  }

  lemma FitsLess(a: seq<string>, b: seq<string>)
    requires Fits(a + b)
    ensures Fits(a)
  {
    BytesAppend(a, b);
  }

  lemma RunOne(s: ParserState, line: string)
    ensures RunLines(s, [line])
         == match Receive(s, line).1 case Ok(items) => Ok((Receive(s, line).0, items)) case Err(e) => Err(e)
  {
    hide Receive;
    assert [line][1..] == [];
    if Receive(s, line).1.Ok? { assert Receive(s, line).1.value + [] == Receive(s, line).1.value; }
  }

  /** A frame's begin and inside lines open it and collect its output. */
  lemma OpenRuns(s: ParserState, begin: string, inside: seq<string>)
    requires s.active.None? && s.pending != []
    requires IsBegin(begin) && FrameCommand(begin).Ok? && AllQuiet(inside) && Fits(Texts(inside))
    ensures RunLines(s, [begin] + inside)
         == Ok((ParserState(s.pending[1..],
                            Some(Active(s.pending[0], FrameCommand(begin).value, Texts(inside), Bytes(Texts(inside))))),
                Notices(inside)))
  {
    hide FrameCommand, TranslateNotification, IsBegin, RunLines, AllQuiet;
    RunOne(s, begin);
    RunAppend(s, [begin], inside);
    var a := Active(s.pending[0], FrameCommand(begin).value, [], 0);
    assert [] + Texts(inside) == Texts(inside);
    assert [] + Notices(inside) == Notices(inside);
    assert RunLines(s, [begin]) == Ok((ParserState(s.pending[1..], Some(a)), []));
    InsideRuns(ParserState(s.pending[1..], Some(a)), inside);
  }

  lemma FinishRuns(s: ParserState, finish: string)
    requires s.active.Some? && IsFinish(finish) && FrameCommand(finish) == Ok(s.active.value.tmuxCommand)
    ensures RunLines(s, [finish])
         == Ok((s.(active := None),
                [Reply(CommandResult(s.active.value.ticket, s.active.value.output, IsEnd(finish)))]))
  {
    hide FrameCommand, RunLines;
    assert !IsBegin(finish) by { assert finish[1] == 'e'; }
    RunOne(s, finish);
  }

  lemma FrameRuns(s: ParserState, f: Frame)
    requires s.active.None? && s.pending != []
    requires IsBegin(f.begin) && IsFinish(f.finish)
    requires FrameCommand(f.begin).Ok? && FrameCommand(f.begin) == FrameCommand(f.finish)
    requires AllQuiet(f.inside) && Fits(Texts(f.inside))
    ensures RunLines(s, ([f.begin] + f.inside) + [f.finish])
         == Ok((ParserState(s.pending[1..], None), Notices(f.inside) + [Reply(FrameResult(s.pending[0], f))]))
  {
    hide FrameCommand, IsBegin, IsFinish, RunLines, AllQuiet, Fits;
    OpenRuns(s, f.begin, f.inside);
    RunAppend(s, [f.begin] + f.inside, [f.finish]);
    FinishRuns(RunLines(s, [f.begin] + f.inside).value.0, f.finish);
  }

  /** A well-formed stream is accepted, and each reply is what its own frame holds. */
  lemma {:induction false} TranscriptRuns(s: ParserState, t: Transcript)
    requires s.active.None? && WellFormed(t) && Begun(t) <= |s.pending|
    ensures RunLines(s, Lines(t)) == Ok((Final(t, s.pending), Items(t, s.pending)))
    decreases t
  {
    hide FrameCommand, IsBegin, IsFinish, RunLines, AllQuiet, Fits;
    GapRuns(s, t.gap);
    match t
    case Ended(gap) =>
    case Open(gap, begin, inside) =>
      OpenRuns(s, begin, inside);
      RunAppend(s, gap, [begin] + inside);
    case Framed(gap, f, rest) =>
      FrameRuns(s, f);
      var framed := ([f.begin] + f.inside) + [f.finish];
      FramedShape(gap, f, rest, s.pending);
      RunAppend(s, gap, framed + Lines(rest));
      RunAppend(s, framed, Lines(rest));
      hide Lines, Items, Notices, FrameResult;
      TranscriptRuns(ParserState(s.pending[1..], None), rest);
  }

  lemma FramedShape(gap: seq<string>, f: Frame, rest: Transcript, tickets: seq<Ticket>)
    requires Begun(rest) + 1 <= |tickets|
    ensures Lines(Framed(gap, f, rest)) == gap + ((([f.begin] + f.inside) + [f.finish]) + Lines(rest))
    ensures Items(Framed(gap, f, rest), tickets)
         == Notices(gap) + ((Notices(f.inside) + [Reply(FrameResult(tickets[0], f))]) + Items(rest, tickets[1..]))
  {
    hide Notices, FrameResult;
    var lines, items := Lines(rest), Items(rest, tickets[1..]);
    assert [f.begin] + (f.inside + ([f.finish] + lines)) == (([f.begin] + f.inside) + [f.finish]) + lines;
    assert Notices(f.inside) + ([Reply(FrameResult(tickets[0], f))] + items)
        == (Notices(f.inside) + [Reply(FrameResult(tickets[0], f))]) + items;
  }

  /** Conversely, a stream the parser accepts is well formed. `inside` are the lines before
      the open frame ends; when it does, `finish` ends it and `rest` follows. */
  lemma {:induction false} Unframe(s: ParserState, lines: seq<string>) returns (t: Transcript)
    requires s.active.None? && RunLines(s, lines).Ok?
    ensures WellFormed(t) && Lines(t) == lines && Begun(t) <= |s.pending|
    decreases |lines|
  {
    hide FrameCommand, TranslateNotification, IsBegin, IsFinish, Lines;
    if lines == [] {
      t := Ended([]);
      EndedLines([]);
    } else if Quiet(lines[0]) {
      var tail := Unframe(s, lines[1..]);
      t := Prepended(lines[0], tail);
      PrependedKeeps(lines[0], tail);
      assert [lines[0]] + lines[1..] == lines;
    } else {
      assert IsBegin(lines[0]);
      var begun := Receive(s, lines[0]).0;
      var inside, finish, rest := UnframeInside(begun, lines[1..]);
      assert [] + Texts(inside) == Texts(inside);
      if finish.None? {
        t := Open([], lines[0], inside);
        OpenLines(lines[0], inside);
      } else {
        t := Framed([], Frame(lines[0], inside, finish.value), rest);
        FramedLines(lines[0], inside, finish.value, rest);
      }
    }
  }

  lemma {:induction false} UnframeInside(s: ParserState, lines: seq<string>)
    returns (inside: seq<string>, finish: Option<string>, rest: Transcript)
    requires s.active.Some? && Counted(s.active.value) && RunLines(s, lines).Ok?
    ensures AllQuiet(inside) && Fits(s.active.value.output + Texts(inside))
    ensures finish.None? ==> lines == inside
    ensures finish.Some? ==>
      && lines == inside + ([finish.value] + Lines(rest))
      && IsFinish(finish.value) && FrameCommand(finish.value) == Ok(s.active.value.tmuxCommand)
      && WellFormed(rest) && Begun(rest) <= |s.pending|
    decreases |lines|
  {
    hide FrameCommand, TranslateNotification, IsBegin, IsFinish, Lines, ByteLength;
    var a := s.active.value;
    rest := Ended([]);
    if lines == [] {
      inside, finish := [], None;
      assert a.output + [] == a.output;
    } else if Quiet(lines[0]) {
      QuietInside(s, lines[0]);
      var t := Receive(s, lines[0]).0;
      inside, finish, rest := UnframeInside(t, lines[1..]);
      QuietPrepended(s, lines[0], inside);
      inside := [lines[0]] + inside;
      assert [lines[0]] + lines[1..] == lines;
      if finish.Some? {
        assert [lines[0]] + (inside[1..] + ([finish.value] + Lines(rest))) == inside + ([finish.value] + Lines(rest));
      }
    } else {
      inside, finish := [], Some(lines[0]);
      assert IsFinish(lines[0]);
      rest := Unframe(Receive(s, lines[0]).0, lines[1..]);
      assert a.output + [] == a.output;
      assert lines == [] + ([lines[0]] + lines[1..]);
    }
  }

  lemma QuietPrepended(s: ParserState, line: string, inside: seq<string>)
    requires s.active.Some? && Quiet(line) && AllQuiet(inside)
    ensures AllQuiet([line] + inside)
    ensures (s.active.value.output + Texts([line])) + Texts(inside) == s.active.value.output + Texts([line] + inside)
  {
    TextsAppend([line], inside);
  }

  function Prepended(line: string, t: Transcript): Transcript {
    t.(gap := [line] + t.gap)
  }

  lemma PrependedKeeps(line: string, t: Transcript)
    requires Quiet(line) && WellFormed(t)
    ensures WellFormed(Prepended(line, t)) && Lines(Prepended(line, t)) == [line] + Lines(t)
    ensures Begun(Prepended(line, t)) == Begun(t)
  {
    hide FrameCommand, IsBegin, IsFinish, Fits;
    assert Lines(Prepended(line, t)) == [line] + Lines(t);
  }

  lemma EndedLines(gap: seq<string>)
    ensures Lines(Ended(gap)) == gap
  {
  }

  lemma OpenLines(begin: string, inside: seq<string>)
    ensures Lines(Open([], begin, inside)) == [begin] + inside
  {
  }

  lemma FramedLines(begin: string, inside: seq<string>, finish: string, rest: Transcript)
    ensures Lines(Framed([], Frame(begin, inside, finish), rest)) == [begin] + (inside + ([finish] + Lines(rest)))
  {
  }

  /** The parser accepts a stream of lines if and only if it is well formed with enough
      commands waiting, and then answers each frame with that frame's own output. */
  lemma AcceptedIffFramed(s: ParserState, lines: seq<string>)
    requires s.active.None?
    ensures RunLines(s, lines).Ok? <==> exists t :: WellFormed(t) && Lines(t) == lines && Begun(t) <= |s.pending|
    ensures forall t :: WellFormed(t) && Lines(t) == lines && Begun(t) <= |s.pending| ==>
      RunLines(s, lines) == Ok((Final(t, s.pending), Items(t, s.pending)))
  {
    hide RunLines, WellFormed, Lines, Begun, Final, Items;
    if RunLines(s, lines).Ok? {
      var t := Unframe(s, lines);
    }
    forall t | WellFormed(t) && Lines(t) == lines && Begun(t) <= |s.pending|
      ensures RunLines(s, lines) == Ok((Final(t, s.pending), Items(t, s.pending)))
    {
      TranscriptRuns(s, t);
    }
  }
}
