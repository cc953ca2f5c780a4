/** What installing and removing hooks leaves of the rest of a configuration: not only the other
    handlers, but every other value, event, group and field stands as it stood. */
module HookShapes {
  import opened Wrappers
  import opened Notifications
  import opened Hooks
  import opened HookLaws

  /** Two objects differ at most in the field. */
  ghost predicate SameBut(a: Json, b: Json, field: string) {
    a.Object? && b.Object? && a.fields - {field} == b.fields - {field}
  }

  /** The group as it is left without our handlers. */
  ghost predicate Thinned(before: Json, after: Json, p: Provider) {
    if Handlers(before).None? then after == before
    else
      && SameBut(before, after, "hooks") && Handlers(after).Some?
      && GroupRecords(after) == Select(GroupRecords(before), p, false)
  }

  /** The group holds handlers, or could, but none except ours. */
  ghost predicate NoneButOurs(g: Json, p: Provider) {
    Handlers(g).Some? && Select(GroupRecords(g), p, false) == []
  }

  /** `from` tells which group each remaining one was: they keep their order, and the groups
      that are gone held no handler but ours. */
  ghost predicate ThinnedFrom(before: seq<Json>, after: seq<Json>, from: seq<nat>, p: Provider) {
    && |from| == |after|
    && (forall i, j :: 0 <= i < j < |from| ==> from[i] < from[j])
    && (forall i :: 0 <= i < |from| ==> from[i] < |before| && Thinned(before[from[i]], after[i], p))
    && (forall k :: 0 <= k < |before| && k !in from ==> NoneButOurs(before[k], p))
  }

  lemma StrippedThins(g: Json, p: Provider)
    ensures Thinned(g, Stripped(g, p), p)
    ensures Handlers(Stripped(g, p)) == Some([]) ==> NoneButOurs(g, p)
  {
    StrippedRecords(g, p);
    hide Select, KeptHandlers;
    if Handlers(g).Some? {
      var r := WithHandlers(g, KeptHandlers(Handlers(g).value, p));
      assert g.fields - {"hooks"} == r.fields - {"hooks"};
    }
  }

  function Shifted(from: seq<nat>): seq<nat> {
    seq(|from|, i requires 0 <= i < |from| => from[i] + 1)
  }

  lemma ShiftedIn(from: seq<nat>, k: nat)
    requires k > 0 && k - 1 in from
    ensures k in Shifted(from)
  {
    var i :| 0 <= i < |from| && from[i] == k - 1;
    assert Shifted(from)[i] == k;
  }

  lemma ThinnedGone(before: seq<Json>, after: seq<Json>, from: seq<nat>, p: Provider)
    requires before != [] && ThinnedFrom(before[1..], after, from, p) && NoneButOurs(before[0], p)
    ensures ThinnedFrom(before, after, Shifted(from), p)
  {
    hide Thinned, NoneButOurs;
    forall k | 0 < k < |before| && k !in Shifted(from) ensures NoneButOurs(before[k], p) {
      if k - 1 in from { ShiftedIn(from, k); }
      assert before[k] == before[1..][k - 1];
    }
    assert forall i :: 0 <= i < |from| ==> before[from[i] + 1] == before[1..][from[i]];
  }

  lemma ThinnedKept(before: seq<Json>, after: seq<Json>, from: seq<nat>, g: Json, p: Provider)
    requires before != [] && ThinnedFrom(before[1..], after, from, p) && Thinned(before[0], g, p)
    ensures ThinnedFrom(before, [g] + after, [0] + Shifted(from), p)
  {
    hide Thinned, NoneButOurs;
    var r := [0] + Shifted(from);
    forall k | 0 <= k < |before| && k !in r ensures NoneButOurs(before[k], p) {
      assert r[0] == 0;
      if k - 1 in from { ShiftedIn(from, k); }
      assert before[k] == before[1..][k - 1];
    }
    forall i | 0 <= i < |r| ensures r[i] < |before| && Thinned(before[r[i]], ([g] + after)[i], p) {
      if i > 0 { assert before[from[i - 1] + 1] == before[1..][from[i - 1]]; }
    }
  }

  lemma {:induction false} KeptFrom(groups: seq<Json>, p: Provider) returns (from: seq<nat>)
    ensures ThinnedFrom(groups, KeptGroups(groups, p), from, p)
  {
    if groups == [] {
      from := [];
    } else {
      StrippedThins(groups[0], p);
      var rest := KeptFrom(groups[1..], p);
      hide Thinned, NoneButOurs, ThinnedFrom, Stripped;
      if Handlers(Stripped(groups[0], p)) == Some([]) {
        ThinnedGone(groups, KeptGroups(groups[1..], p), rest, p);
        from := Shifted(rest);
      } else {
        ThinnedKept(groups, KeptGroups(groups[1..], p), rest, Stripped(groups[0], p), p);
        from := [0] + Shifted(rest);
      }
    }
  }

  /** Removing ours leaves every other field of the configuration, every event that is no list,
      and of each list the groups in order, thinned of ours; an event goes when nothing is left
      of its groups. */
  lemma RemoveKeepsRest(root: Json, p: Provider, event: string) returns (from: seq<nat>)
    ensures var r := RemoveOwned(root, p);
            && (HooksOf(root).None? ==> r == root)
            && (HooksOf(root).Some? ==>
                  var hs := HooksOf(root).value;
                  && SameBut(root, r, "hooks") && HooksOf(r).Some?
                  && (event in HooksOf(r).value
                      <==> (event in hs && (!hs[event].Array? || GroupsOf(r, event) != [])))
                  && (event in hs && !hs[event].Array? ==> HooksOf(r).value[event] == hs[event]))
            && ThinnedFrom(GroupsOf(root, event), GroupsOf(r, event), from, p)
  {
    var r := RemoveOwned(root, p);
    RemovedGroups(root, p, event);
    from := KeptFrom(GroupsOf(root, event), p);
    hide ThinnedFrom, KeptGroups;
    if HooksOf(root).Some? {
      assert root.fields - {"hooks"} == r.fields - {"hooks"};
    }
  }

  /** One handler more, in a group that stands as it stood or in a new one at the end. */
  ghost predicate Gained(before: seq<Json>, after: seq<Json>, matcher: Option<string>, handler: Json) {
    || (exists i :: 0 <= i < |before| && GainedAt(before, after, i, matcher, handler))
    || (|after| == |before| + 1 && after[..|before|] == before && after[|before|].Object?
        && GroupRecords(after[|before|]) == [Record(matcher, handler)])
  }

  ghost predicate GainedAt(before: seq<Json>, after: seq<Json>, i: nat, matcher: Option<string>, handler: Json)
    requires i < |before|
  {
    && |after| == |before| && (forall j :: 0 <= j < |before| && j != i ==> after[j] == before[j])
    && TextField(before[i], "matcher") == matcher && SameBut(before[i], after[i], "hooks")
    && Handlers(before[i]).Some? && Handlers(after[i]) == Some(Handlers(before[i]).value + [handler])
  }

  lemma AddGains(groups: seq<Json>, matcher: Option<string>, handler: Json)
    requires AddToGroups(groups, matcher, handler).Ok?
    ensures Gained(groups, AddToGroups(groups, matcher, handler).value, matcher, handler)
  {
    var i := FindGroup(groups, matcher);
    var r := AddToGroups(groups, matcher, handler).value;
    if i == |groups| {
      NewGroupRecords(matcher, handler);
      assert r[..|groups|] == groups;
    } else {
      assert groups[i].fields - {"hooks"} == r[i].fields - {"hooks"};
      assert GainedAt(groups, r, i, matcher, handler);
    }
  }

  /** The configuration with one event's list replaced. */
  lemma EventReplaced(root: Json, hs: map<string, Json>, event: string, value: Json)
    requires root.Object? && (HooksOf(root).Some? ==> HooksOf(root).value == hs)
    ensures var r := Object(root.fields["hooks" := Object(hs[event := value])]);
            && SameBut(root, r, "hooks") && HooksOf(r) == Some(hs[event := value])
            && hs[event := value] - {event} == hs - {event}
  {
    var r := Object(root.fields["hooks" := Object(hs[event := value])]);
    assert root.fields - {"hooks"} == r.fields - {"hooks"};
  }

  function EventsOf(root: Json): map<string, Json> {
    match HooksOf(root) case Some(hs) => hs case None => map[]
  }

  lemma AddedForm(root: Json, p: Provider, event: string, executable: string)
    requires AddHandler(root, p, event, executable).Ok?
    ensures root.Object?
    ensures exists groups :: AddHandler(root, p, event, executable).value
                             == Object(root.fields["hooks" := Object(EventsOf(root)[event := Array(groups)])])
  {
    hide AddToGroups, RequiredMatcher, HandlerValue;
    var hooks := if "hooks" in root.fields then root.fields["hooks"] else Object(map[]);
    var value := if event in hooks.fields then hooks.fields[event] else Array([]);
    var groups := AddToGroups(value.items, RequiredMatcher(p, event), HandlerValue(p, executable)).value;
    assert hooks.fields == EventsOf(root);
    assert AddHandler(root, p, event, executable).value
        == Object(root.fields["hooks" := Object(EventsOf(root)[event := Array(groups)])]);
  }

  /** Adding one handler of ours changes that one event, by that one handler. */
  lemma AddKeepsRest(root: Json, p: Provider, event: string, executable: string)
    requires AddHandler(root, p, event, executable).Ok?
    ensures var r := AddHandler(root, p, event, executable).value;
            && SameBut(root, r, "hooks") && HooksOf(r).Some?
            && EventsOf(r) - {event} == EventsOf(root) - {event}
            && Gained(GroupsOf(root, event), GroupsOf(r, event), RequiredMatcher(p, event), HandlerValue(p, executable))
  {
    var r := AddHandler(root, p, event, executable).value;
    AddedGroups(root, p, event, executable, event);
    hide Gained, AddToGroups, RequiredMatcher, HandlerValue, GroupsOf;
    AddGains(GroupsOf(root, event), RequiredMatcher(p, event), HandlerValue(p, executable));
    AddedForm(root, p, event, executable);
    hide AddHandler;
    var groups :| r == Object(root.fields["hooks" := Object(EventsOf(root)[event := Array(groups)])]);
    EventReplaced(root, EventsOf(root), event, Array(groups));
  }

  lemma SameButCompose(a: Json, b: Json, c: Json, field: string)
    requires SameBut(a, b, field) && SameBut(b, c, field)
    ensures SameBut(a, c, field)
  {
  }

  lemma {:induction false} AddAllKeepsRest(root: Json, p: Provider, events: seq<string>, executable: string)
    requires AddAll(root, p, events, executable).Ok? && root.Object?
    ensures SameBut(root, AddAll(root, p, events, executable).value, "hooks")
    decreases |events|
  {
    if events != [] {
      AddKeepsRest(root, p, events[0], executable);
      hide SameBut, Gained, AddHandler;
      var r := AddHandler(root, p, events[0], executable).value;
      AddedObject(root, r);
      AddAllKeepsRest(r, p, events[1..], executable);
      SameButCompose(root, r, AddAll(root, p, events, executable).value, "hooks");
    }
  }

  lemma AddedObject(a: Json, b: Json)
    requires SameBut(a, b, "hooks")
    ensures b.Object?
  {
  }

  /** Installing leaves every field of the configuration but the hooks as it is, and installing
      nothing where there are none leaves it alone altogether. */
  lemma InstallKeepsRest(root: Json, p: Provider, events: seq<string>, executable: string)
    requires Install(root, p, events, executable).Ok?
    ensures var r := Install(root, p, events, executable).value;
            if events == [] && HooksOf(root).None? then r == root else SameBut(root, r, "hooks")
  {
    var _ := RemoveKeepsRest(root, p, "");
    var m := RemoveOwned(root, p);
    hide ThinnedFrom, RemoveOwned;
    if events != [] {
      assert AddHandler(m, p, events[0], executable).Ok?;
      AddAllKeepsRest(m, p, events, executable);
      assert SameBut(root, m, "hooks");
      SameButCompose(root, m, Install(root, p, events, executable).value, "hooks");
    }
  }
}
