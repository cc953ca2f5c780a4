/** What installing, syncing and removing hooks does to a configuration: ours becomes exactly
    what is wanted, everyone else's stays as it was. */
module HookLaws {
  import opened Wrappers
  import opened Notifications
  import opened Seqs
  import opened Hooks
  import HookCommands
  import ShellWords

  // ---------- selections ----------

  lemma {:induction false} SelectAppend(a: seq<Record>, b: seq<Record>, p: Provider, ours: bool)
    ensures Select(a + b, p, ours) == Select(a, p, ours) + Select(b, p, ours)
  {
    hide Owned;
    if a == [] {
      assert a + b == b;
    } else {
      SelectAppend(a[1..], b, p, ours);
      assert (a + b)[1..] == a[1..] + b;
      Associate([a[0]], Select(a[1..], p, ours), Select(b, p, ours));
    }
  }

  lemma {:induction false} SelectNone(rs: seq<Record>, p: Provider)
    ensures Select(rs, p, false) == rs ==> Select(rs, p, true) == []
    ensures |Select(rs, p, false)| + |Select(rs, p, true)| == |rs|
  {
    hide Owned;
    if rs != [] { SelectNone(rs[1..], p); }
  }

  lemma {:induction false} SelectTwice(rs: seq<Record>, p: Provider)
    ensures Select(Select(rs, p, false), p, false) == Select(rs, p, false)
    ensures Select(Select(rs, p, false), p, true) == []
  {
    hide Owned;
    if rs != [] {
      SelectTwice(rs[1..], p);
      var rest := Select(rs[1..], p, false);
      if !Owned(rs[0].handler, p) {
        assert Select(rs, p, false)[1..] == rest;
      }
    }
  }

  lemma {:induction false} TaggedAppend(m: Option<string>, a: seq<Json>, b: seq<Json>)
    ensures Tagged(m, a + b) == Tagged(m, a) + Tagged(m, b)
  {
    if a == [] {
      assert a + b == b;
    } else {
      TaggedAppend(m, a[1..], b);
      assert (a + b)[1..] == a[1..] + b;
      Associate([Record(m, a[0])], Tagged(m, a[1..]), Tagged(m, b));
    }
  }

  lemma TaggedOne(matcher: Option<string>, handler: Json)
    ensures Tagged(matcher, [handler]) == [Record(matcher, handler)]
  {
    assert [handler][1..] == [];
    assert Tagged(matcher, []) == [];
  }

  lemma {:induction false} RecordsAppend(a: seq<Json>, b: seq<Json>)
    ensures RecordsIn(a + b) == RecordsIn(a) + RecordsIn(b)
  {
    hide GroupRecords;
    if a == [] {
      assert a + b == b;
    } else {
      RecordsAppend(a[1..], b);
      assert (a + b)[1..] == a[1..] + b;
      Associate(GroupRecords(a[0]), RecordsIn(a[1..]), RecordsIn(b));
    }
  }

  lemma RecordsOne(g: Json)
    ensures RecordsIn([g]) == GroupRecords(g)
  {
    assert [g][1..] == [];
    assert GroupRecords(g) + [] == GroupRecords(g);
  }

  // ---------- removing ----------

  lemma {:induction false} KeptSelects(m: Option<string>, hs: seq<Json>, p: Provider)
    ensures Tagged(m, KeptHandlers(hs, p)) == Select(Tagged(m, hs), p, false)
  {
    hide Owned;
    if hs != [] {
      KeptSelects(m, hs[1..], p);
      assert Tagged(m, hs)[1..] == Tagged(m, hs[1..]);
      var rest := KeptHandlers(hs[1..], p);
      if !Owned(hs[0], p) {
        assert KeptHandlers(hs, p)[1..] == rest;
      }
    }
  }

  lemma StrippedRecords(g: Json, p: Provider)
    ensures GroupRecords(Stripped(g, p)) == Select(GroupRecords(g), p, false)
  {
    assert Select([], p, false) == [];
    hide Select, KeptHandlers, Tagged;
    if Handlers(g).Some? {
      WithHandlersIs(g, KeptHandlers(Handlers(g).value, p));
      KeptSelects(TextField(g, "matcher"), Handlers(g).value, p);
    }
  }

  lemma WithHandlersIs(g: Json, hs: seq<Json>)
    requires g.Object?
    ensures Handlers(WithHandlers(g, hs)) == Some(hs)
    ensures TextField(WithHandlers(g, hs), "matcher") == TextField(g, "matcher")
  {
  }

  lemma {:induction false} KeptRecords(groups: seq<Json>, p: Provider)
    ensures RecordsIn(KeptGroups(groups, p)) == Select(RecordsIn(groups), p, false)
  {
    if groups != [] {
      hide Stripped, Select;
      var g := Stripped(groups[0], p);
      StrippedRecords(groups[0], p);
      KeptRecords(groups[1..], p);
      SelectAppend(GroupRecords(groups[0]), RecordsIn(groups[1..]), p, false);
      RecordsAppend([g], KeptGroups(groups[1..], p));
      RecordsOne(g);
      if Handlers(g) == Some([]) {
        assert GroupRecords(g) + RecordsIn(KeptGroups(groups[1..], p)) == RecordsIn(KeptGroups(groups[1..], p));
      }
    }
  }

  /** Removing leaves no handler of ours in any event, and of every event exactly the other
      records, in order. */
  lemma RemoveKeepsOthers(root: Json, p: Provider, event: string)
    ensures EventRecords(RemoveOwned(root, p), event) == Select(EventRecords(root, event), p, false)
    ensures Select(EventRecords(RemoveOwned(root, p), event), p, true) == []
  {
    hide Select, KeptGroups;
    KeptRecords(GroupsOf(root, event), p);
    SelectTwice(EventRecords(root, event), p);
    RemovedGroups(root, p, event);
    assert KeptGroups([], p) == [] by { KeptNone(p); }
  }

  lemma KeptNone(p: Provider)
    ensures KeptGroups([], p) == []
  {
  }

  lemma RemovedGroups(root: Json, p: Provider, event: string)
    ensures GroupsOf(RemoveOwned(root, p), event) == KeptGroups(GroupsOf(root, event), p)
  {
    hide KeptGroups;
    KeptNone(p);
  }

  // ---------- adding ----------

  lemma GroupGains(g: Json, hs: seq<Json>, handler: Json)
    requires Handlers(g) == Some(hs)
    ensures GroupRecords(WithHandlers(g, hs + [handler]))
        == GroupRecords(g) + [Record(TextField(g, "matcher"), handler)]
  {
    var m := TextField(g, "matcher");
    TaggedAppend(m, hs, [handler]);
    TaggedOne(m, handler);
  }

  lemma RecordsMiddle(a: seq<Json>, g: Json, b: seq<Json>)
    ensures RecordsIn(a + ([g] + b)) == (RecordsIn(a) + GroupRecords(g)) + RecordsIn(b)
  {
    hide GroupRecords, RecordsIn;
    RecordsAppend(a, [g] + b);
    RecordsAppend([g], b);
    RecordsOne(g);
    Associate(RecordsIn(a), GroupRecords(g), RecordsIn(b));
  }

  lemma SplitAt<T>(s: seq<T>, i: nat, x: T)
    requires i < |s|
    ensures s == s[..i] + ([s[i]] + s[i + 1..]) && s[i := x] == s[..i] + ([x] + s[i + 1..])
  {
  }

  lemma GroupReplaced(groups: seq<Json>, i: nat, handler: Json)
    returns (before: seq<Record>, after: seq<Record>)
    requires i < |groups| && Handlers(groups[i]).Some?
    ensures RecordsIn(groups) == before + after
    ensures RecordsIn(groups[i := WithHandlers(groups[i], Handlers(groups[i]).value + [handler])])
         == before + [Record(TextField(groups[i], "matcher"), handler)] + after
  {
    var g, hs := groups[i], Handlers(groups[i]).value;
    var h := WithHandlers(g, hs + [handler]);
    GroupGains(g, hs, handler);
    hide GroupRecords, WithHandlers, RecordsIn, Handlers, TextField;
    SplitAt(groups, i, h);
    RecordsMiddle(groups[..i], g, groups[i + 1..]);
    RecordsMiddle(groups[..i], h, groups[i + 1..]);
    before := RecordsIn(groups[..i]) + GroupRecords(g);
    after := RecordsIn(groups[i + 1..]);
    Associate(RecordsIn(groups[..i]), GroupRecords(g), [Record(TextField(g, "matcher"), handler)]);
  }

  /** Adding inserts one record somewhere and disturbs no other. */
  lemma AddInserts(groups: seq<Json>, matcher: Option<string>, handler: Json)
    returns (before: seq<Record>, after: seq<Record>)
    requires AddToGroups(groups, matcher, handler).Ok?
    ensures RecordsIn(groups) == before + after
    ensures RecordsIn(AddToGroups(groups, matcher, handler).value) == before + [Record(matcher, handler)] + after
  {
    var i := FindGroup(groups, matcher);
    if i == |groups| {
      before, after := RecordsIn(groups), [];
      var g := NewGroup(matcher, handler);
      RecordsAppend(groups, [g]);
      RecordsOne(g);
      NewGroupRecords(matcher, handler);
      assert before + after == before;
      assert before + [Record(matcher, handler)] + after == before + [Record(matcher, handler)];
    } else {
      before, after := GroupReplaced(groups, i, handler);
    }
  }

  lemma NewGroupRecords(matcher: Option<string>, handler: Json)
    ensures GroupRecords(NewGroup(matcher, handler)) == [Record(matcher, handler)]
  {
    var g := NewGroup(matcher, handler);
    assert TextField(g, "matcher") == matcher && Handlers(g) == Some([handler]);
    hide NewGroup, TextField, Handlers;
    TaggedOne(matcher, handler);
  }

  lemma AddedGroups(root: Json, p: Provider, event: string, executable: string, other: string)
    requires AddHandler(root, p, event, executable).Ok?
    ensures var r := AddHandler(root, p, event, executable).value;
            if other == event then
              AddToGroups(GroupsOf(root, event), RequiredMatcher(p, event), HandlerValue(p, executable))
                  == Ok(GroupsOf(r, event))
            else GroupsOf(r, other) == GroupsOf(root, other)
  {
    hide AddToGroups, RequiredMatcher, HandlerValue;
  }

  /** Adding a handler of ours to an event: the others' records stay, ours gains one and
      keeps the rest in order. */
  lemma AddKeepsOthers(root: Json, p: Provider, event: string, executable: string, other: string)
    returns (before: seq<Record>, after: seq<Record>)
    requires AddHandler(root, p, event, executable).Ok? && NamesProgram(executable)
    ensures var r := AddHandler(root, p, event, executable).value;
            && Select(EventRecords(r, other), p, false) == Select(EventRecords(root, other), p, false)
            && (other != event ==> EventRecords(r, other) == EventRecords(root, other))
            && Select(EventRecords(root, event), p, true) == before + after
            && Select(EventRecords(r, event), p, true)
               == before + [Record(RequiredMatcher(p, event), HandlerValue(p, executable))] + after
  {
    hide RequiredMatcher, HandlerValue, AddToGroups, Select, GroupsOf, AddHandler, NamesProgram, RecordsIn;
    var r := AddHandler(root, p, event, executable).value;
    AddedGroups(root, p, event, executable, other);
    AddedGroups(root, p, event, executable, event);
    var handler := HandlerValue(p, executable);
    var record := Record(RequiredMatcher(p, event), handler);
    var front, back := AddInserts(GroupsOf(root, event), RequiredMatcher(p, event), handler);
    HandlerRecognized(p, executable);
    InsertedSelect(front, back, record, p);
    before, after := Select(front, p, true), Select(back, p, true);
  }

  lemma InsertedSelect(before: seq<Record>, after: seq<Record>, record: Record, p: Provider)
    requires Owned(record.handler, p)
    ensures Select(before + [record] + after, p, false) == Select(before + after, p, false)
    ensures Select(before + after, p, true) == Select(before, p, true) + Select(after, p, true)
    ensures Select(before + [record] + after, p, true) == Select(before, p, true) + [record] + Select(after, p, true)
  {
    hide Owned, Select;
    SelectAppend(before, after, p, false);
    SelectAppend(before + [record], after, p, false);
    SelectAppend(before, [record], p, false);
    SelectAppend(before, after, p, true);
    SelectAppend(before + [record], after, p, true);
    SelectAppend(before, [record], p, true);
    SelectOne(record, p);
    assert Select(before, p, false) + [] == Select(before, p, false);
  }

  lemma SelectOne(record: Record, p: Provider)
    requires Owned(record.handler, p)
    ensures Select([record], p, false) == [] && Select([record], p, true) == [record]
  {
    hide Owned;
    assert [record][1..] == [];
  }

  // ---------- installing ----------

  /** Nobody else's record is touched, and ours are exactly one per wanted event. */
  lemma {:induction false} AddAllPlaces(root: Json, p: Provider, events: seq<string>, executable: string, event: string)
    requires AddAll(root, p, events, executable).Ok? && NamesProgram(executable) && Distinct(events)
    requires Select(EventRecords(root, event), p, true) == [] || event !in events
    ensures var r := AddAll(root, p, events, executable).value;
            && Select(EventRecords(r, event), p, false) == Select(EventRecords(root, event), p, false)
            && Select(EventRecords(r, event), p, true)
               == (if event in events then [Record(RequiredMatcher(p, event), HandlerValue(p, executable))]
                   else Select(EventRecords(root, event), p, true))
    decreases |events|
  {
    hide RequiredMatcher, HandlerValue, Select, EventRecords, AddHandler, NamesProgram;
    if events != [] {
      var r := AddHandler(root, p, events[0], executable).value;
      var before, after := AddKeepsOthers(root, p, events[0], executable, event);
      assert events == [events[0]] + events[1..];
      assert events[0] !in events[1..];
      AddAllPlaces(r, p, events[1..], executable, event);
    }
  }

  lemma InstallPlaces(root: Json, p: Provider, events: seq<string>, executable: string, event: string)
    requires Install(root, p, events, executable).Ok? && NamesProgram(executable) && Distinct(events)
    ensures var r := Install(root, p, events, executable).value;
            && Select(EventRecords(r, event), p, false) == Select(EventRecords(root, event), p, false)
            && Select(EventRecords(r, event), p, true)
               == if event in events then [Record(RequiredMatcher(p, event), HandlerValue(p, executable))] else []
  {
    hide RequiredMatcher, HandlerValue, Select, EventRecords, RemoveOwned, NamesProgram, AddAll;
    RemoveKeepsOthers(root, p, event);
    SelectTwice(EventRecords(root, event), p);
    AddAllPlaces(RemoveOwned(root, p), p, events, executable, event);
  }

  /** Claude's notification event is the one that is narrowed down, to an agent that needs
      input; every other handler is installed for all there is to match. What is installed is a
      command that runs the executable with the two fixed arguments: for Claude they are listed,
      for Codex they are what a shell reads in the line. */
  lemma InstalledHandler(root: Json, p: Provider, events: seq<string>, executable: string, event: string)
    requires Install(root, p, events, executable).Ok? && NamesProgram(executable) && Distinct(events)
    requires event in events
    ensures var ours := Select(EventRecords(Install(root, p, events, executable).value, event), p, true);
            && |ours| == 1
            && (ours[0].matcher == Some("agent_needs_input") <==> p.Claude? && event == "Notification")
            && (ours[0].matcher.None? <==> !(p.Claude? && event == "Notification"))
            && RunsProgram(ours[0].handler, p, executable)
  {
    InstallPlaces(root, p, events, executable, event);
    HandlerRuns(p, executable);
    hide Select, EventRecords, HandlerValue, NamesProgram, RunsProgram, Install;
  }

  /** The handler is a command that runs the executable for this provider. */
  predicate RunsProgram(handler: Json, p: Provider, executable: string) {
    && TextField(handler, "type") == Some("command") && TextField(handler, "command").Some?
    && match p
       case Claude =>
         && TextField(handler, "command").value == executable
         && Field(handler, "args") == Some(Array([Text("__hook-event"), Text("claude")]))
       case Codex =>
         && Field(handler, "args").None?
         && ShellWords.Words(TextField(handler, "command").value) == Some([executable, "__hook-event", "codex"])
  }

  lemma HandlerRuns(p: Provider, executable: string)
    ensures RunsProgram(HandlerValue(p, executable), p, executable)
  {
    ShellWords.CommandRuns(executable);
    hide ShellWords.Words, HookCommands.CodexCommand;
  }

  /** A Codex handler taken for ours runs the program it was taken for exactly if its line is the
      one that is written for that program, or has the path as it is. */
  lemma OwnedRunsIff(handler: Json, path: string)
    requires OwnedExecutable(handler, Codex) == Some(path)
    ensures var line := TextField(handler, "command");
            && line.Some?
            && RunsProgram(handler, Codex, path)
               == (line.value == HookCommands.CodexCommand(path) || line.value == path + HookCommands.CODEX_SUFFIX)
  {
    var line := TextField(handler, "command").value;
    ShellWords.RecognizedRunsIff(line);
    hide ShellWords.Words, HookCommands.CodexCommand, HookCommands.ParseCodexCommand, NamesProgram;
  }

  /** So a handler of somebody else's can be taken for ours, and be removed: one whose line has a
      lone quote before a quoted one. */
  lemma AmbiguousTaken(u: string, v: string, t: string)
    requires '\'' !in u && '\'' !in v && '\'' !in t && (v != "" ==> v[0] != '"')
    requires NamesProgram(ShellWords.DecodedPath(u, v, t))
    ensures var path := ShellWords.DecodedPath(u, v, t);
            var handler := Object(map["type" := Text("command"), "command" := Text(ShellWords.AmbiguousLine(u, v, t))]);
            OwnedExecutable(handler, Codex) == Some(path) && !RunsProgram(handler, Codex, path)
  {
    ShellWords.MisreadCommand(u, v, t);
    hide ShellWords.Words, ShellWords.AmbiguousLine, ShellWords.DecodedPath, HookCommands.ParseCodexCommand,
      NamesProgram;
  }

  // ---------- in sync ----------

  lemma CountedIn(events: set<string>, e: string, rest: seq<string>)
    requires e !in rest
    ensures |events * ToSet([e] + rest)| == (if e in events then 1 else 0) + |events * ToSet(rest)|
  {
    var tail := events * ToSet(rest);
    assert ToSet([e] + rest) == {e} + ToSet(rest);
    if e in events {
      assert events * ToSet([e] + rest) == {e} + tail && e !in tail;
    } else {
      assert events * ToSet([e] + rest) == tail;
    }
  }

  lemma {:induction false} InstalledRecords(root: Json, p: Provider, executable: string, events: set<string>,
                                            order: seq<string>)
    requires Distinct(order)
    requires forall e :: Select(EventRecords(root, e), p, true)
                      == if e in events then [Record(RequiredMatcher(p, e), HandlerValue(p, executable))] else []
    ensures |OwnedRecords(root, p, order)| == |events * ToSet(order)|
    ensures forall r :: r in OwnedRecords(root, p, order) ==>
      r.0 in events && r.1 == Record(RequiredMatcher(p, r.0), HandlerValue(p, executable))
  {
    hide RequiredMatcher, HandlerValue, Select, EventRecords, ToSet;
    if order == [] {
      NoneListed(events);
    } else {
      var e, rest := order[0], order[1..];
      assert order == [e] + rest && e !in rest;
      InstalledRecords(root, p, executable, events, rest);
      CountedIn(events, e, rest);
      var head := Labelled(e, Select(EventRecords(root, e), p, true));
      assert forall r :: r in head ==>
        e in events && r == (e, Record(RequiredMatcher(p, e), HandlerValue(p, executable)));
      assert OwnedRecords(root, p, order) == head + OwnedRecords(root, p, rest);
    }
  }

  lemma NoneListed(events: set<string>)
    ensures |events * ToSet([])| == 0
  {
    assert events * ToSet([]) == {};
  }

  /** After a successful install or sync the installation is in sync, however its events are listed. */
  lemma InstallIsInSync(root: Json, p: Provider, events: seq<string>, executable: string, order: seq<string>)
    requires Install(root, p, events, executable).Ok? && NamesProgram(executable) && Distinct(events)
    requires Distinct(order) && forall e :: e in events ==> e in order
    ensures InSync(Install(root, p, events, executable).value, p, executable, ToSet(events), order)
  {
    hide RequiredMatcher, HandlerValue, Select, EventRecords, Install, NamesProgram, OwnedRecords, OwnedExecutable;
    var r := Install(root, p, events, executable).value;
    forall e ensures Select(EventRecords(r, e), p, true)
                  == if e in ToSet(events) then [Record(RequiredMatcher(p, e), HandlerValue(p, executable))] else []
    {
      InstallPlaces(root, p, events, executable, e);
    }
    InstalledRecords(r, p, executable, ToSet(events), order);
    assert ToSet(events) * ToSet(order) == ToSet(events);
    HandlerRecognized(p, executable);
  }

  // ---------- doing it again ----------

  predicate CleanGroup(g: Json, p: Provider) {
    Stripped(g, p) == g && Handlers(g) != Some([])
  }

  predicate AllClean(groups: seq<Json>, p: Provider) {
    forall g :: g in groups ==> CleanGroup(g, p)
  }

  lemma {:induction false} KeptHandlersTwice(hs: seq<Json>, p: Provider)
    ensures KeptHandlers(KeptHandlers(hs, p), p) == KeptHandlers(hs, p)
  {
    hide Owned;
    if hs != [] {
      KeptHandlersTwice(hs[1..], p);
      if !Owned(hs[0], p) { assert KeptHandlers(hs, p)[1..] == KeptHandlers(hs[1..], p); }
    }
  }

  lemma StrippedTwice(g: Json, p: Provider)
    ensures Stripped(Stripped(g, p), p) == Stripped(g, p)
  {
    if Handlers(g).Some? {
      var hs := Handlers(g).value;
      KeptHandlersTwice(hs, p);
      var s := Stripped(g, p);
      assert s.fields["hooks" := Array(KeptHandlers(hs, p))] == s.fields;
    }
  }

  lemma {:induction false} KeptAreClean(groups: seq<Json>, p: Provider)
    ensures AllClean(KeptGroups(groups, p), p)
  {
    hide Stripped, Handlers;
    if groups != [] {
      KeptAreClean(groups[1..], p);
      StrippedTwice(groups[0], p);
    }
  }

  lemma {:induction false} CleanAreKept(groups: seq<Json>, p: Provider)
    requires AllClean(groups, p)
    ensures KeptGroups(groups, p) == groups
  {
    hide Stripped, Handlers;
    if groups != [] {
      assert groups == [groups[0]] + groups[1..];
      assert CleanGroup(groups[0], p);
      CleanAreKept(groups[1..], p);
    }
  }

  lemma {:induction false} KeptSplit(a: seq<Json>, b: seq<Json>, p: Provider)
    ensures KeptGroups(a + b, p) == KeptGroups(a, p) + KeptGroups(b, p)
  {
    hide Stripped, Handlers;
    if a == [] {
      assert a + b == b;
    } else {
      KeptSplit(a[1..], b, p);
      assert (a + b)[1..] == a[1..] + b;
    }
  }

  lemma KeptOne(g: Json, p: Provider)
    ensures KeptGroups([g], p) == if Handlers(Stripped(g, p)) == Some([]) then [] else [Stripped(g, p)]
  {
    hide Stripped, Handlers;
    assert [g][1..] == [];
    KeptNone(p);
  }

  lemma {:induction false} KeptHandlersAppend(hs: seq<Json>, h: Json, p: Provider)
    requires Owned(h, p)
    ensures KeptHandlers(hs + [h], p) == KeptHandlers(hs, p)
  {
    hide Owned;
    if hs == [] {
      assert hs + [h] == [h] && [h][1..] == [];
    } else {
      KeptHandlersAppend(hs[1..], h, p);
      assert (hs + [h])[1..] == hs[1..] + [h];
    }
  }

  /** Taking our handler out again gives back the groups it was put into. */
  lemma KeptMiddle(a: seq<Json>, g: Json, b: seq<Json>, p: Provider)
    ensures KeptGroups(a + ([g] + b), p) == KeptGroups(a, p) + (KeptGroups([g], p) + KeptGroups(b, p))
  {
    hide KeptGroups;
    KeptSplit(a, [g] + b, p);
    KeptSplit([g], b, p);
  }

  lemma NewGroupGoes(matcher: Option<string>, handler: Json, p: Provider)
    requires Owned(handler, p)
    ensures KeptGroups([NewGroup(matcher, handler)], p) == []
  {
    var g := NewGroup(matcher, handler);
    KeptOne(g, p);
    KeptHandlersAppend([], handler, p);
    assert [] + [handler] == [handler];
    assert Handlers(g) == Some([handler]);
  }

  lemma RemoveUndoesAdd(groups: seq<Json>, matcher: Option<string>, handler: Json, p: Provider)
    requires AllClean(groups, p) && Owned(handler, p) && AddToGroups(groups, matcher, handler).Ok?
    ensures KeptGroups(AddToGroups(groups, matcher, handler).value, p) == groups
  {
    var i := FindGroup(groups, matcher);
    hide Owned, Stripped, Handlers, WithHandlers, KeptGroups, NewGroup, FindGroup;
    CleanAreKept(groups, p);
    if i == |groups| {
      NewGroupGoes(matcher, handler, p);
      KeptSplit(groups, [NewGroup(matcher, handler)], p);
    } else {
      var g, hs := groups[i], Handlers(groups[i]).value;
      var h := WithHandlers(g, hs + [handler]);
      assert CleanGroup(g, p);
      StrippedBack(g, hs, handler, p);
      SplitAt(groups, i, h);
      KeptMiddle(groups[..i], g, groups[i + 1..], p);
      KeptMiddle(groups[..i], h, groups[i + 1..], p);
      KeptOne(h, p);
      KeptOne(g, p);
    }
  }

  lemma StrippedBack(g: Json, hs: seq<Json>, handler: Json, p: Provider)
    requires Handlers(g) == Some(hs) && CleanGroup(g, p) && Owned(handler, p)
    ensures Stripped(WithHandlers(g, hs + [handler]), p) == g
  {
    KeptHandlersAppend(hs, handler, p);
    var h := WithHandlers(g, hs + [handler]);
    assert h.fields["hooks" := Array(KeptHandlers(hs, p))] == g.fields["hooks" := Array(KeptHandlers(hs, p))];
  }

  /** A configuration with nothing of ours left and no empty groups or events. */
  predicate CleanRoot(root: Json, p: Provider) {
    match HooksOf(root)
    case None => true
    case Some(hs) => forall e :: e in hs && hs[e].Array? ==> hs[e].items != [] && AllClean(hs[e].items, p)
  }

  lemma RemovedIsClean(root: Json, p: Provider)
    ensures CleanRoot(RemoveOwned(root, p), p)
  {
    hide KeptGroups, AllClean;
    if HooksOf(root).Some? {
      var hs := HooksOf(root).value;
      var r := HooksOf(RemoveOwned(root, p)).value;
      forall e | e in r && r[e].Array? ensures r[e].items != [] && AllClean(r[e].items, p) {
        KeptAreClean(hs[e].items, p);
      }
    }
  }

  function ValueAt(root: Json, event: string): Option<Json> {
    match HooksOf(root)
    case Some(hs) => if event in hs then Some(hs[event]) else None
    case None => None
  }

  lemma CleanIsKept(root: Json, p: Provider)
    requires CleanRoot(root, p)
    ensures RemoveOwned(root, p) == root
  {
    hide KeptGroups, AllClean;
    if HooksOf(root).Some? {
      var hs := HooksOf(root).value;
      forall e | e in hs ensures Cleaned(hs[e], p) == Some(hs[e]) {
        if hs[e].Array? { CleanAreKept(hs[e].items, p); }
      }
      assert (map e | e in hs && Cleaned(hs[e], p).Some? :: Cleaned(hs[e], p).value) == hs;
      assert root.fields["hooks" := Object(hs)] == root.fields;
    }
  }

  /** The hooks object after one handler was added. */
  lemma AddedHooks(root: Json, p: Provider, event: string, executable: string)
    requires AddHandler(root, p, event, executable).Ok?
    ensures var r := AddHandler(root, p, event, executable).value;
            var hs := if HooksOf(root).Some? then HooksOf(root).value else map[];
            && root.Object? && ("hooks" in root.fields ==> HooksOf(root).Some?) && r.Object?
            && r.fields == root.fields["hooks" := r.fields["hooks"]]
            && (event in hs ==> hs[event].Array?)
            && AddToGroups(GroupsOf(root, event), RequiredMatcher(p, event), HandlerValue(p, executable)).Ok?
            && HooksOf(r) == Some(hs[event := Array(AddToGroups(GroupsOf(root, event), RequiredMatcher(p, event),
                                                                HandlerValue(p, executable)).value)])
  {
    hide AddToGroups, RequiredMatcher, HandlerValue;
  }

  lemma CleanedBack(groups: seq<Json>, matcher: Option<string>, handler: Json, p: Provider)
    requires AllClean(groups, p) && Owned(handler, p) && AddToGroups(groups, matcher, handler).Ok?
    ensures Cleaned(Array(AddToGroups(groups, matcher, handler).value), p)
            == if groups == [] then None else Some(Array(groups))
  {
    hide AddToGroups, KeptGroups, AllClean, Owned;
    RemoveUndoesAdd(groups, matcher, handler, p);
  }

  lemma GroupsClean(root: Json, p: Provider, event: string)
    requires CleanRoot(root, p)
    ensures AllClean(GroupsOf(root, event), p)
    ensures GroupsOf(root, event) == [] ==> ValueAt(root, event).None? || !ValueAt(root, event).value.Array?
  {
    hide CleanGroup;
  }

  lemma AddThenRemove(clean: Json, r: Json, p: Provider, event: string, executable: string)
    requires CleanRoot(clean, p) && HooksOf(clean).Some? && HooksOf(r).Some? && RemoveOwned(r, p) == clean
    requires ValueAt(r, event) == ValueAt(clean, event)
    requires AddHandler(r, p, event, executable).Ok? && NamesProgram(executable)
    ensures RemoveOwned(AddHandler(r, p, event, executable).value, p) == clean
  {
    hide AllClean, AddToGroups, RequiredMatcher, HandlerValue, NamesProgram, AddHandler, CleanRoot, Cleaned, KeptGroups;
    var handler := HandlerValue(p, executable);
    HandlerRecognized(p, executable);
    AddedHooks(r, p, event, executable);
    assert GroupsOf(r, event) == GroupsOf(clean, event);
    GroupsClean(clean, p, event);
    CleanedBack(GroupsOf(r, event), RequiredMatcher(p, event), handler, p);
    var hs := HooksOf(r).value;
    var after := HooksOf(AddHandler(r, p, event, executable).value).value;
    RemovedMap(hs, after, event, p, HooksOf(clean).value);
  }

  lemma RemovedMap(hs: map<string, Json>, after: map<string, Json>, event: string, p: Provider, 
                   clean: map<string, Json>)
    requires event in after && after == hs[event := after[event]]
    requires clean == map e | e in hs && Cleaned(hs[e], p).Some? :: Cleaned(hs[e], p).value
    requires Cleaned(after[event], p) == if event in clean then Some(clean[event]) else None
    ensures (map e | e in after && Cleaned(after[e], p).Some? :: Cleaned(after[e], p).value) == clean
  {
    hide Cleaned;
  }

  lemma {:induction false} AddAllThenRemove(clean: Json, r: Json, p: Provider, events: seq<string>, executable: string)
    requires CleanRoot(clean, p) && HooksOf(clean).Some? && HooksOf(r).Some? && RemoveOwned(r, p) == clean
    requires forall e :: e in events ==> ValueAt(r, e) == ValueAt(clean, e)
    requires Distinct(events) && AddAll(r, p, events, executable).Ok? && NamesProgram(executable)
    ensures RemoveOwned(AddAll(r, p, events, executable).value, p) == clean
    decreases |events|
  {
    if events != [] {
      hide AllClean, AddToGroups, RequiredMatcher, HandlerValue, NamesProgram, AddHandler, CleanRoot, RemoveOwned;
      AddThenRemove(clean, r, p, events[0], executable);
      AddedHooks(r, p, events[0], executable);
      assert events[0] !in events[1..];
      assert forall e :: e in events[1..] ==> e in events && e != events[0];
      AddAllThenRemove(clean, AddHandler(r, p, events[0], executable).value, p, events[1..], executable);
    }
  }

  /** The root with an empty hooks object where there was none. */
  function WithHooks(root: Json): Json {
    if root.Object? && "hooks" !in root.fields then Object(root.fields["hooks" := Object(map[])]) else root
  }

  lemma AddMakesHooks(root: Json, p: Provider, event: string, executable: string)
    ensures AddHandler(WithHooks(root), p, event, executable) == AddHandler(root, p, event, executable)
  {
    hide AddToGroups, RequiredMatcher, HandlerValue;
    if AddHandler(root, p, event, executable).Ok? && "hooks" !in root.fields {
      var hooks := AddHandler(root, p, event, executable).value.fields["hooks"];
      assert root.fields["hooks" := Object(map[])]["hooks" := hooks] == root.fields["hooks" := hooks];
    }
  }

  /** Installing again, on the installed configuration, changes nothing. */
  lemma InstallIsIdempotent(root: Json, p: Provider, events: seq<string>, executable: string)
    requires Install(root, p, events, executable).Ok? && NamesProgram(executable) && Distinct(events)
    ensures var r := Install(root, p, events, executable).value; Install(r, p, events, executable) == Ok(r)
  {
    hide RemoveOwned, AddHandler, CleanRoot, NamesProgram;
    var u := RemoveOwned(root, p);
    RemovedIsClean(root, p);
    CleanIsKept(u, p);
    if events != [] {
      var w := WithHooks(u);
      AddMakesHooks(u, p, events[0], executable);
      AddedHooks(u, p, events[0], executable);
      WithHooksClean(u, p);
      CleanIsKept(w, p);
      AddAllThenRemove(w, w, p, events, executable);
    }
  }

  lemma WithHooksClean(root: Json, p: Provider)
    requires CleanRoot(root, p)
    ensures CleanRoot(WithHooks(root), p)
    ensures root.Object? && (HooksOf(root).Some? || "hooks" !in root.fields) ==> HooksOf(WithHooks(root)).Some?
  {
  }

  // ---------- what being in sync does not say ----------

  ghost function EventsWithOurs(root: Json, p: Provider, order: seq<string>): set<string> {
    set e | e in order && Select(EventRecords(root, e), p, true) != []
  }

  lemma EventsNext(root: Json, p: Provider, e: string, rest: seq<string>)
    requires e !in rest
    ensures |EventsWithOurs(root, p, [e] + rest)|
         == (if Select(EventRecords(root, e), p, true) == [] then 0 else 1) + |EventsWithOurs(root, p, rest)|
  {
    hide Select, EventRecords;
    var tail := EventsWithOurs(root, p, rest);
    if Select(EventRecords(root, e), p, true) == [] {
      assert EventsWithOurs(root, p, [e] + rest) == tail;
    } else {
      assert EventsWithOurs(root, p, [e] + rest) == {e} + tail && e !in tail;
    }
  }

  lemma {:induction false} CountEvents(root: Json, p: Provider, order: seq<string>)
    requires Distinct(order)
    ensures |OwnedRecords(root, p, order)| >= |EventsWithOurs(root, p, order)|
    ensures |OwnedRecords(root, p, order)| == |EventsWithOurs(root, p, order)|
       <==> forall e :: e in order ==> |Select(EventRecords(root, e), p, true)| <= 1
  {
    hide Select, EventRecords, Labelled;
    if order == [] {
      assert EventsWithOurs(root, p, order) == {};
    } else {
      hide EventsWithOurs;
      var e, rest := order[0], order[1..];
      assert order == [e] + rest && e !in rest;
      CountEvents(root, p, rest);
      EventsNext(root, p, e, rest);
      assert forall x :: x in order <==> x == e || x in rest;
    }
  }

  lemma {:induction false} OursListed(root: Json, p: Provider, order: seq<string>, e: string)
    returns (r: (string, Record))
    requires e in order && Select(EventRecords(root, e), p, true) != []
    ensures r in OwnedRecords(root, p, order) && r.0 == e
  {
    hide Select, EventRecords;
    var head := Labelled(order[0], Select(EventRecords(root, order[0]), p, true));
    if order[0] == e {
      r := head[0];
      assert r in head;
    } else {
      assert order == [order[0]] + order[1..];
      r := OursListed(root, p, order[1..], e);
    }
  }

  /** Being in sync counts handlers and checks each; it means that every wanted event has one
      exactly when no event has two. */
  lemma InSyncCoversIffNoDuplicates(root: Json, p: Provider, executable: string, desired: set<string>,
                                    order: seq<string>)
    requires InSync(root, p, executable, desired, order) && Distinct(order)
    requires forall e :: EventRecords(root, e) != [] ==> e in order
    ensures (forall e :: e in desired ==> Select(EventRecords(root, e), p, true) != [])
       <==> (forall e :: e in order ==> |Select(EventRecords(root, e), p, true)| <= 1)
  {
    hide Select, EventRecords, OwnedRecords;
    CountEvents(root, p, order);
    var found := EventsWithOurs(root, p, order);
    forall e | e in found ensures e in desired {
      var r := OursListed(root, p, order, e);
    }
    NothingSelected(p);
    if found < desired {
      assert desired == found + (desired - found) && |desired| == |found| + |desired - found|;
    } else {
      assert found == desired;
    }
  }

  lemma NothingSelected(p: Provider)
    ensures Select([], p, true) == []
  {
  }

  /** It can be in sync and still lack one: two handlers on one event count for a second,
      missing event. Installing then leaves the file alone. */
  lemma InSyncWithoutHandler(executable: string)
    requires NamesProgram(executable)
    ensures var handler := HandlerValue(Codex, executable);
            var group := Object(map["hooks" := Array([handler, handler])]);
            var root := Object(map["hooks" := Object(map["Stop" := Array([group])])]);
            && InSync(root, Codex, executable, {"Stop", "SessionStart"}, ["Stop"])
            && Select(EventRecords(root, "SessionStart"), Codex, true) == []
  {
    var handler := HandlerValue(Codex, executable);
    var group := Object(map["hooks" := Array([handler, handler])]);
    var root := Object(map["hooks" := Object(map["Stop" := Array([group])])]);
    HandlerRecognized(Codex, executable);
    hide HandlerValue, OwnedExecutable, NamesProgram;
    var record := Record(None, handler);
    TwoRecords(group, handler);
    RecordsOne(group);
    assert EventRecords(root, "Stop") == [record, record];
    assert [record, record][1..] == [record] && [record][1..] == [];
    assert Select([record], Codex, true) == [record];
    assert Select([record, record], Codex, true) == [record, record];
    assert ["Stop"][1..] == [];
    assert OwnedRecords(root, Codex, []) == [];
    assert OwnedRecords(root, Codex, ["Stop"]) == Labelled("Stop", [record, record]);
    assert |{"Stop", "SessionStart"}| == 2;
  }

  lemma TwoRecords(group: Json, handler: Json)
    requires group == Object(map["hooks" := Array([handler, handler])])
    ensures GroupRecords(group) == [Record(None, handler), Record(None, handler)]
  {
    assert [handler, handler][1..] == [handler] && [handler][1..] == [];
    assert Tagged(None, []) == [];
    assert Tagged(None, [handler]) == [Record(None, handler)];
    assert Tagged(None, [handler, handler]) == [Record(None, handler), Record(None, handler)];
  }
}
