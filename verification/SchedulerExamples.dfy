/** Runs from a new scheduler that reach each of its exceptions: the panic of the pending
    limit, with and without new limits, the lost record, and the timed-out pinned toast. */
module SchedulerExamples {
  import opened Wrappers
  import opened Notifications
  import opened Seqs
  import opened SchedulerModel
  import opened SchedulerInvariant
  import opened SchedulerSteps
  import opened SchedulerOperations
  import opened SchedulerRuns
  import opened SchedulerTimeouts
  import opened SchedulerDisplay
  import opened SchedulerLifecycle
  import opened SchedulerRecords
  import opened SchedulerForecast

  // ---------- runs, one call at a time ----------

  function AtStart(a: Action): Call {
    Call(a, 0, 0)
  }

  lemma {:induction false} RunOneMore(s: State, calls: seq<Call>, c: Call)
    requires LegalRun(s, calls) && Legal(Run(s, calls), c)
    ensures LegalRun(s, calls + [c]) && Run(s, calls + [c]) == Next(Run(s, calls), c)
    decreases |calls|
  {
    hide Legal, Next;
    if calls == [] {
      assert [c][1..] == [];
    } else {
      RunOneMore(Next(s, calls[0]), calls[1..], c);
      assert (calls + [c])[1..] == calls[1..] + [c];
    }
  }

  // ---------- states with no time passing ----------

  lemma ElapseStill(s: State)
    ensures Elapse(s, s.lastNow) == s
  {
    assert Elapse(s, s.lastNow).history.shown == s.history.shown;
  }

  /** No timer runs. */
  ghost predicate Still(s: State) {
    forall id :: id in s.active ==> !s.Ticking(id)
  }

  lemma NoneExpired(s: State)
    requires Tuned(s) && Still(s) && forall id :: id in s.active ==> id in s.entries
    ensures ExpiredIn(s.entries, s.active, s.lastNow) == []
  {
    forall id | id in s.active ensures !s.entries[id].timeout.Expired(s.lastNow) {
      assert TunedEntry(s, id, s.entries[id]);
    }
    NoneIn(s.entries, s.active, s.lastNow);
  }

  lemma {:induction false} NoneIn(e: Entries, ids: seq<NotificationId>, now: Instant)
    requires forall id :: id in ids ==> id in e && !e[id].timeout.Expired(now)
    ensures ExpiredIn(e, ids, now) == []
  {
    if ids != [] {
      assert ids[0] in ids;
      NoneIn(e, ids[1..], now);
    }
  }

  lemma PrepareStill(s: State, wall: WallTime)
    requires Inv(s) && Tuned(s) && Still(s)
    ensures Prepare(s, s.lastNow, wall) == s
  {
    SettledInv(s);
    CoreActive(s);
    NoneExpired(s);
    ElapseStill(s);
    hide Inv, Core, Conserving, Marked, Tuned, Still, Elapse, Rebalance, ExpiredIn;
    RebalanceIdle(s, s.lastNow, wall);
  }

  // ---------- the sample Notifications ----------

  /** A toast with a one-tick timeout and a source to jump to; the first one has a key. */
  function Sample(id: NotificationId, source: SourceContext): Draft {
    Content(if id == 1 then Some("k") else None, Info, Normal, Toast, "t", "b", After(1), Some(source), None,
            Metadata(None, None, None))
  }

  /** The Attention that replaces the first sample by its key. */
  function Urgent(source: SourceContext): Draft {
    Sample(1, source).(presentation := Attention, timeout := NeverExpires)
  }

  /** The samples `queue` wait and the samples `active` have the toast places; of all these,
      `pins` are being jumped to. */
  datatype Pose = Pose(source: SourceContext, limits: Limits, available: bool,
                       queue: seq<NotificationId>, active: seq<NotificationId>, pins: set<NotificationId>)

  ghost predicate Posed(s: State, p: Pose) {
    && Inv(s) && Exact(s) && s.limits == p.limits && s.lastNow == 0 && s.available == p.available
    && s.attention.None? && s.pending == p.queue && s.active == p.active && s.closed == []
    && s.history.submitted == s.entries.Keys && Samples(s.entries, p.source, p.pins)
    && (p.available ==> forall id :: id in p.active ==> id in p.pins)
  }

  ghost predicate Samples(e: Entries, source: SourceContext, pins: set<NotificationId>) {
    forall id :: id in e ==>
      e[id].notification.content == Sample(id, source) && (e[id].jumpNonce.Some? <==> id in pins)
  }

  lemma NewPosed(source: SourceContext, limits: Limits)
    ensures Posed(New(limits, 0), Pose(source, limits, false, [], [], {}))
  {
    NewIsGood(limits, 0);
  }

  lemma PosedParts(s: State, p: Pose)
    requires Posed(s, p)
    ensures Inv(s) && Exact(s) && Tuned(s) && Core(s) && Samples(s.entries, p.source, p.pins)
    ensures s.limits == p.limits && s.lastNow == 0 && s.available == p.available && s.attention.None?
    ensures s.pending == p.queue && s.active == p.active && s.closed == [] && s.history.submitted == s.entries.Keys
  {
    hide Core, Ranked, Conserving, Marked, Bounded, Tuned, Tallied, Unspent, Samples;
  }

  lemma PosedPlaces(s: State, p: Pose)
    requires Posed(s, p)
    ensures Still(s) && Distinct(p.queue) && forall id :: id in s.entries <==> id in p.queue || id in p.active
  {
    PosedParts(s, p);
    CoreContained(s);
    hide Inv, Core, Tuned, Tallied, Unspent;
  }

  // ---------- single calls ----------

  /** With no timer running and no time passing, a call is its tail. */
  lemma StillCall(s: State, a: Action)
    requires Inv(s) && Exact(s) && Tuned(s) && Still(s) && s.lastNow == 0
    requires !a.Draining? && !Rejected(s, AtStart(a)) && TailAllowed(s, TailOf(s, s, a), 0, 0)
    ensures var r := RunTail(s, TailOf(s, s, a), 0, 0);
            && Legal(s, AtStart(a)) && Next(s, AtStart(a)) == r && Inv(r) && r.lastNow == 0
            && (!TailUnpins(s, TailOf(s, s, a)) ==> Exact(r))
  {
    hide Inv, Tuned, Exact, Still, RunTail, TailOf, TailAllowed, TailUnpins, Prepare, Perform, Rejected;
    PrepareStill(s, 0);
    PerformShape(s, AtStart(a));
    AfterKeeps(s, TailOf(s, s, a), 0, 0);
  }

  ghost function SampleEntry(t: State, source: SourceContext, id: NotificationId): LiveEntry {
    LiveEntry(Notification.FromDraft(id, Sample(id, source), 0), t.nextSequence, Remaining(1, None), None)
  }

  lemma RankedAppend(e: Entries, ids: seq<NotificationId>, id: NotificationId, x: LiveEntry)
    requires Ranked(e, ids) && id !in ids && forall y :: y in ids ==> Precedes(e[id := x], y, id)
    ensures Ranked(e[id := x], ids + [id])
  {
    var r := ids + [id];
    forall i, j | 0 <= i < j < |r| ensures Precedes(e[id := x], r[i], r[j]) {
      assert r[i] in ids;
      if j < |ids| { assert r[j] in ids && Precedes(e, ids[i], ids[j]); }
    }
  }

  /** Samples rank equally, so a later one comes last. */
  lemma SampleLast(t: State, source: SourceContext, pins: set<NotificationId>, id: NotificationId)
    requires Samples(t.entries, source, pins) && SequencesUnique(t.entries, t.nextSequence) && id !in t.entries
    ensures forall y :: y in t.entries ==> Precedes(t.entries[id := SampleEntry(t, source, id)], y, id)
  {
  }

  lemma SampleAdmitted(t: State, source: SourceContext, id: NotificationId)
    ensures var a := Admitted(t, id, Sample(id, source), 0);
            && a.entries == t.entries[id := SampleEntry(t, source, id)] && a.pending == t.pending + [id]
            && a.active == t.active && a.attention == t.attention && a.available == t.available
            && a.limits == t.limits && a.lastNow == t.lastNow && a.closed == t.closed
            && a.history.submitted == t.history.submitted + {id}
  {
  }

  lemma SortedSample(t: State, source: SourceContext, pins: set<NotificationId>, id: NotificationId)
    requires Inv(t) && id !in t.history.submitted && !KeyIsLive(t, Sample(id, source))
    requires Samples(t.entries, source, pins)
    ensures var a := Admitted(t, id, Sample(id, source), 0);
            SortPending(a) == a && Core(a) && Ranked(a.entries, a.pending)
  {
    InvIsCore(t);
    FreshId(t, id);
    CoreContained(t);
    CoreParts(t);
    assert forall y :: y in t.pending ==> y in t.entries;
    hide Inv, Core, Contained, HistoryOk, NoncesUnique, SequencesUnique, Keyed, EntriesOk, TimersStarted, SortPending,
      Ranked, Samples, Precedes, KeyIsLive, Sample;
    AdmittedKeeps(t, id, Sample(id, source), 0);
    SampleAdmitted(t, source, id);
    SampleLast(t, source, pins, id);
    RankedAppend(t.entries, t.pending, id, SampleEntry(t, source, id));
    SortPendingKeeps(Admitted(t, id, Sample(id, source), 0));
  }

  lemma AdmittedSamples(t: State, source: SourceContext, pins: set<NotificationId>, id: NotificationId)
    requires Samples(t.entries, source, pins) && id !in t.entries && id !in pins
    ensures Samples(t.entries[id := SampleEntry(t, source, id)], source, pins)
  {
  }

  lemma TouchedSamples(e: Entries, source: SourceContext, pins: set<NotificationId>, f: Entries)
    requires Samples(e, source, pins) && Touched(e, f)
    ensures Samples(f, source, pins)
  {
  }

  lemma AllSamplesToasts(e: Entries, source: SourceContext, pins: set<NotificationId>)
    requires Samples(e, source, pins)
    ensures AllToasts(e)
  {
  }

  lemma SampleKeyFree(t: State, source: SourceContext, pins: set<NotificationId>, id: NotificationId)
    requires Core(t) && Samples(t.entries, source, pins) && id !in t.entries
    ensures !KeyIsLive(t, Sample(id, source))
  {
    CoreParts(t);
    hide Core;
  }

  /** The state `r` is `t` with the sample `id` behind the others in the queue. */
  ghost predicate Joined(t: State, r: State, source: SourceContext, pins: set<NotificationId>, id: NotificationId) {
    && r.pending == t.pending + [id] && r.active == t.active && r.attention == t.attention
    && Samples(r.entries, source, pins) && r.available == t.available && r.closed == t.closed
    && r.limits == t.limits && r.lastNow == t.lastNow && r.history.submitted == t.history.submitted + {id}
    && r.entries.Keys == t.entries.Keys + {id}
  }

  /** With the toast places taken or hidden, rebalancing moves nothing. */
  lemma NoRoom(a: State)
    requires Core(a) && Ranked(a.entries, a.pending) && AllToasts(a.entries) && a.lastNow == 0
    requires a.available ==> |a.active| >= a.limits.maxVisible
    ensures var r := Rebalance(a, 0, 0); r == a.(entries := r.entries) && Touched(a.entries, r.entries)
  {
    hide Core, Ranked, AllToasts, Conserving, Marked, Tuned, Tallied, Unspent, Rebalance, Touched;
    RebalanceQueue(a, 0, 0);
    RebalanceKeeps(a, 0, 0);
    assert a.pending[0..] == a.pending && a.active + a.pending[..0] == a.active;
  }

  /** A sample that finds no toast place free waits behind the others. */
  lemma SampleWaits(t: State, source: SourceContext, pins: set<NotificationId>, id: NotificationId)
    requires Inv(t) && t.lastNow == 0 && Samples(t.entries, source, pins) && id !in pins
    requires id !in t.history.submitted && !KeyIsLive(t, Sample(id, source))
    requires t.available ==> |t.active| == t.limits.maxVisible
    ensures Joined(t, Placed(t, id, Sample(id, source), 0, 0), source, pins, id)
  {
    var a := Admitted(t, id, Sample(id, source), 0);
    InvIsCore(t);
    FreshId(t, id);
    hide Inv, Core, Ranked, Samples, KeyIsLive, Sample, SampleEntry, SortPending, Rebalance, Touched, AllToasts, Joined;
    SampleAdmitted(t, source, id);
    hide Admitted;
    SortedSample(t, source, pins, id);
    SampleJoins(t, source, pins, id);
    NoRoom(a);
    JoinedTouched(t, a, Rebalance(a, 0, 0), source, pins, id);
  }

  lemma SampleJoins(t: State, source: SourceContext, pins: set<NotificationId>, id: NotificationId)
    requires Samples(t.entries, source, pins) && id !in t.entries && id !in pins
    ensures var a := Admitted(t, id, Sample(id, source), 0);
            Joined(t, a, source, pins, id) && AllToasts(a.entries)
  {
    hide Samples, AllToasts, Sample, SampleEntry, Admitted;
    SampleAdmitted(t, source, id);
    AdmittedSamples(t, source, pins, id);
    AllSamplesToasts(t.entries[id := SampleEntry(t, source, id)], source, pins);
  }

  lemma JoinedTouched(t: State, a: State, r: State, source: SourceContext, pins: set<NotificationId>,
                      id: NotificationId)
    requires Joined(t, a, source, pins, id) && r == a.(entries := r.entries) && Touched(a.entries, r.entries)
    ensures Joined(t, r, source, pins, id)
  {
    hide Samples, Touched;
    TouchedSamples(a.entries, source, pins, r.entries);
    TouchedKeys(a.entries, r.entries);
  }

  lemma TouchedKeys(e: Entries, f: Entries)
    requires Touched(e, f)
    ensures e.Keys == f.Keys
  {
  }

  lemma SampleTail(t: State, source: SourceContext, pins: set<NotificationId>, id: NotificationId)
    requires Inv(t) && t.lastNow == 0 && Samples(t.entries, source, pins) && id !in pins
    requires id !in t.history.submitted && t.history.submitted == t.entries.Keys
    requires |t.pending| < t.limits.maxPending && (t.available ==> |t.active| == t.limits.maxVisible)
    ensures var tail := Place(id, Sample(id, source));
            && TailOf(t, t, Submitting(Sample(id, source), id)) == tail && TailAllowed(t, tail, 0, 0)
            && Joined(t, RunTail(t, tail, 0, 0), source, pins, id)
  {
    InvIsCore(t);
    hide Inv, Core, Samples, Sample, Placed, KeyIsLive, RunTail, TailOf, TailAllowed;
    SampleKeyFree(t, source, pins, id);
    SampleWaits(t, source, pins, id);
    PlaceFits(t, id, Sample(id, source));
    JoinedBump(t, Placed(t, id, Sample(id, source), 0, 0), source, pins, id);
  }

  lemma PlaceFits(t: State, id: NotificationId, draft: Draft)
    requires !KeyIsLive(t, draft) && id !in t.history.submitted
    requires |Placed(t, id, draft, 0, 0).pending| <= Placed(t, id, draft, 0, 0).limits.maxPending
    ensures var tail := Place(id, draft);
            && TailOf(t, t, Submitting(draft, id)) == tail && TailAllowed(t, tail, 0, 0)
            && RunTail(t, tail, 0, 0) == BumpContent(Placed(t, id, draft, 0, 0))
  {
    hide Placed, KeyIsLive;
    EnforceStops(Placed(t, id, draft, 0, 0), 0);
    FewQueued(Placed(t, id, draft, 0, 0));
  }

  lemma JoinedBump(t: State, r: State, source: SourceContext, pins: set<NotificationId>, id: NotificationId)
    requires Joined(t, r, source, pins, id)
    ensures Joined(t, BumpContent(r), source, pins, id)
  {
    hide Samples;
  }

  lemma FewQueued(p: State)
    requires |p.pending| <= p.limits.maxPending
    ensures !OverPinned(p)
  {
  }

  lemma JoinedPosed(s: State, r: State, p: Pose, id: NotificationId)
    requires Posed(s, p) && Joined(s, r, p.source, p.pins, id) && Inv(r) && Exact(r)
    ensures Posed(r, p.(queue := p.queue + [id]))
  {
    hide Inv, Exact, Samples;
  }

  lemma SubmitSample(s: State, p: Pose, id: NotificationId)
    requires Posed(s, p) && id !in p.queue && id !in p.active && id !in p.pins
    requires |p.queue| < p.limits.maxPending && (p.available ==> |p.active| == p.limits.maxVisible)
    ensures var c := AtStart(Submitting(Sample(id, p.source), id));
            Legal(s, c) && Posed(Next(s, c), p.(queue := p.queue + [id]))
  {
    hide Posed, Inv, Exact, Tuned, Core, Still, Samples, Sample, RunTail, TailOf, TailAllowed, Legal, Perform, Joined;
    PosedParts(s, p);
    PosedPlaces(s, p);
    SampleTail(s, p.source, p.pins, id);
    StillCall(s, Submitting(Sample(id, p.source), id));
    JoinedPosed(s, Next(s, AtStart(Submitting(Sample(id, p.source), id))), p, id);
  }

  lemma JumpEntry(t: State, source: SourceContext, pins: set<NotificationId>, id: NotificationId)
    requires id in t.entries && id !in pins && Samples(t.entries, source, pins) && EntryOk(id, t.entries[id])
    ensures var r := BeginJumpInner(t, id).0;
            && r == t.(entries := r.entries, nextNonce := r.nextNonce) && r.entries.Keys == t.entries.Keys
            && Samples(r.entries, source, pins + {id})
  {
    var r := BeginJumpInner(t, id).0;
    assert r.entries == t.entries[id := r.entries[id]];
    assert r.entries.Keys == t.entries.Keys;
  }

  lemma JumpSample(s: State, p: Pose, id: NotificationId)
    requires Posed(s, p) && (id in p.queue || id in p.active) && id !in p.pins
    ensures var c := AtStart(BeginningJump(id));
            Legal(s, c) && Posed(Next(s, c), p.(pins := p.pins + {id}))
  {
    PosedParts(s, p);
    PosedPlaces(s, p);
    hide Inv, Exact, Tuned, Core, Still, Samples, RunTail, Legal, Perform, TailOf, TailAllowed, TailUnpins, Rejected,
      BeginJumpInner, EntryOk;
    CoreAt(s, id);
    JumpEntry(s, p.source, p.pins, id);
    JumpIsPin(s, id);
    StillCall(s, BeginningJump(id));
  }

  lemma JumpIsPin(s: State, id: NotificationId)
    ensures var a := BeginningJump(id);
            && TailOf(s, s, a) == Pin(id) && TailAllowed(s, Pin(id), 0, 0) && !TailUnpins(s, Pin(id))
            && !Rejected(s, AtStart(a)) && RunTail(s, Pin(id), 0, 0) == BeginJumpInner(s, id).0
  {
    hide BeginJumpInner;
  }

  /** The pose once the display is switched: the head of the queue takes the free places. */
  function Switched(p: Pose, available: bool): Pose {
    var k := if available then Room(p.limits.maxVisible, |p.active|, |p.queue|) else 0;
    p.(available := available, queue := p.queue[k..], active := p.active + p.queue[..k])
  }

  lemma SwitchTail(s: State, p: Pose, available: bool)
    requires Posed(s, p) && p.available != available
    ensures var r := Rebalance(BumpRevision(s.(available := available)), 0, 0);
            && r.pending == Switched(p, available).queue && r.active == Switched(p, available).active
            && r.attention.None? && r.available == available && r.limits == s.limits && r.closed == []
            && r.history == s.history && r.entries.Keys == s.entries.Keys
            && Samples(r.entries, p.source, p.pins)
  {
    var u := BumpRevision(s.(available := available));
    PosedParts(s, p);
    AllSamplesToasts(s.entries, p.source, p.pins);
    AvailableFrame(s, available);
    hide Inv, Exact, Tuned, Core, Samples, AllToasts, Rebalance, Ranked, Touched, Conserving, Marked, Tallied, Unspent;
    RebalanceQueue(u, 0, 0);
    RebalanceKeeps(u, 0, 0);
    TouchedSamples(u.entries, p.source, p.pins, Rebalance(u, 0, 0).entries);
    TouchedKeys(u.entries, Rebalance(u, 0, 0).entries);
  }

  lemma SwitchIsRebalance(s: State, available: bool)
    requires s.available != available
    ensures var a, tail := SettingAvailable(available), MakeAvailable(available);
            && TailOf(s, s, a) == tail && TailAllowed(s, tail, 0, 0) && !TailUnpins(s, tail) && !Rejected(s, AtStart(a))
            && RunTail(s, tail, 0, 0) == Rebalance(BumpRevision(s.(available := available)), 0, 0)
  {
    hide Rebalance;
  }

  lemma SwitchDisplay(s: State, p: Pose, available: bool)
    requires Posed(s, p) && p.available != available
    requires available ==> forall id :: id in Switched(p, available).active ==> id in p.pins
    ensures var c := AtStart(SettingAvailable(available));
            Legal(s, c) && Posed(Next(s, c), Switched(p, available))
  {
    PosedParts(s, p);
    PosedPlaces(s, p);
    SwitchTail(s, p, available);
    hide Inv, Exact, Tuned, Core, Still, Samples, RunTail, Legal, Perform, TailOf, TailAllowed, TailUnpins, Rejected,
      Rebalance;
    SwitchIsRebalance(s, available);
    StillCall(s, SettingAvailable(available));
  }

  // ---------- runs through poses ----------

  /** `calls` is a legal run of a new scheduler that ends in the pose. */
  ghost predicate Shows(calls: seq<Call>, p: Pose) {
    LegalRun(New(p.limits, 0), calls) && Posed(Run(New(p.limits, 0), calls), p)
  }

  lemma ThenSubmit(calls: seq<Call>, p: Pose, id: NotificationId)
    requires Shows(calls, p) && id !in p.queue && id !in p.active && id !in p.pins
    requires |p.queue| < p.limits.maxPending && (p.available ==> |p.active| == p.limits.maxVisible)
    ensures Shows(calls + [AtStart(Submitting(Sample(id, p.source), id))], p.(queue := p.queue + [id]))
  {
    hide Posed, Legal, Next, LegalRun, Run, Sample;
    SubmitSample(Run(New(p.limits, 0), calls), p, id);
    RunOneMore(New(p.limits, 0), calls, AtStart(Submitting(Sample(id, p.source), id)));
  }

  lemma ThenJump(calls: seq<Call>, p: Pose, id: NotificationId)
    requires Shows(calls, p) && (id in p.queue || id in p.active) && id !in p.pins
    ensures Shows(calls + [AtStart(BeginningJump(id))], p.(pins := p.pins + {id}))
  {
    hide Posed, Legal, Next, LegalRun, Run;
    JumpSample(Run(New(p.limits, 0), calls), p, id);
    RunOneMore(New(p.limits, 0), calls, AtStart(BeginningJump(id)));
  }

  lemma ThenSwitch(calls: seq<Call>, p: Pose, available: bool)
    requires Shows(calls, p) && p.available != available
    requires available ==> forall id :: id in Switched(p, available).active ==> id in p.pins
    ensures Shows(calls + [AtStart(SettingAvailable(available))], Switched(p, available))
  {
    hide Posed, Legal, Next, LegalRun, Run;
    SwitchDisplay(Run(New(p.limits, 0), calls), p, available);
    RunOneMore(New(p.limits, 0), calls, AtStart(SettingAvailable(available)));
  }

  lemma NothingYet(source: SourceContext, limits: Limits)
    ensures Shows([], Pose(source, limits, false, [], [], {}))
  {
    NewPosed(source, limits);
  }

  // ---------- the panic after lowered limits ----------

  /** Two Notifications wait with the display off, and both are being jumped to. */
  function TwoJumps(source: SourceContext): seq<Call> {
    []
    + [AtStart(Submitting(Sample(1, source), 1))]
    + [AtStart(Submitting(Sample(2, source), 2))]
    + [AtStart(BeginningJump(1))]
    + [AtStart(BeginningJump(2))]
  }

  lemma TwoJumpsShow(source: SourceContext)
    ensures Shows(TwoJumps(source), Pose(source, Limits(2, 1), false, [1, 2], [], {1, 2}))
  {
    hide Shows, Sample, AtStart;
    var calls := [];
    var p := Pose(source, Limits(2, 1), false, [], [], {});
    NothingYet(source, Limits(2, 1));
    ThenSubmit(calls, p, 1);
    calls, p := calls + [AtStart(Submitting(Sample(1, source), 1))], p.(queue := p.queue + [1]);
    ThenSubmit(calls, p, 2);
    calls, p := calls + [AtStart(Submitting(Sample(2, source), 2))], p.(queue := p.queue + [2]);
    ThenJump(calls, p, 1);
    calls, p := calls + [AtStart(BeginningJump(1))], p.(pins := p.pins + {1});
    ThenJump(calls, p, 2);
    assert p.queue == [1, 2] && p.pins + {2} == {1, 2};
  }

  lemma {:induction false} AllPinnedCount(e: Entries, ids: seq<NotificationId>)
    requires forall id :: id in ids ==> IsPinned(e, id)
    ensures Pinned(e, ids) == ids
  {
    if ids != [] {
      assert ids[0] in ids;
      AllPinnedCount(e, ids[1..]);
    }
  }

  /** With the display off and nothing active, new limits find the queue as it is. */
  lemma HiddenQueue(s: State, limits: Limits)
    requires !s.available && s.active == []
    ensures QueuedUnder(s, limits, 0) == s.pending && QueueSoon(s, 0) == s.pending && Expiring(s, 0) == []
  {
    assert s.pending[0..] == s.pending;
    assert ActiveSoon(s, 0) == [];
  }

  lemma PinnedPose(s: State, p: Pose, ids: seq<NotificationId>)
    requires Posed(s, p) && forall id :: id in ids ==> id in s.entries && id in p.pins
    ensures forall id :: id in ids ==> IsPinned(s.entries, id)
  {
    PosedParts(s, p);
    hide Inv, Exact, Core, Tuned;
  }

  lemma PinnedQueuePanics(s: State, limits: Limits)
    requires Inv(s) && s.lastNow == 0 && !s.available && s.active == [] && limits != s.limits
    requires (forall id :: id in s.pending ==> IsPinned(s.entries, id)) && |s.pending| > limits.maxPending
    ensures Panics(s, AtStart(SettingLimits(limits)))
  {
    hide Inv, Panics, QueuedUnder, QueueSoon, Expiring, IsPinned;
    AllPinnedCount(s.entries, s.pending);
    HiddenQueue(s, limits);
    PanicsExactly(s, AtStart(SettingLimits(limits)));
  }

  /** The pending limit panics when lowered below the number of queued jumps. */
  lemma LoweredLimitsPanic(source: SourceContext)
    ensures var s := Run(New(Limits(2, 1), 0), TwoJumps(source));
            LegalRun(New(Limits(2, 1), 0), TwoJumps(source)) && Panics(s, AtStart(SettingLimits(Limits(1, 1))))
  {
    hide LegalRun, Run, TwoJumps, Posed, Inv, Exact, Core, Tuned, Still, Samples, Panics, IsPinned, AtStart;
    var p := Pose(source, Limits(2, 1), false, [1, 2], [], {1, 2});
    var s := Run(New(Limits(2, 1), 0), TwoJumps(source));
    TwoJumpsShow(source);
    PosedParts(s, p);
    PosedPlaces(s, p);
    PinnedPose(s, p, s.pending);
    PinnedQueuePanics(s, Limits(1, 1));
  }

  // ---------- the panic without new limits ----------

  /** One Notification is displayed, one waits, both are being jumped to, and the display
      goes off. */
  function HiddenJumps(source: SourceContext): seq<Call> {
    []
    + [AtStart(Submitting(Sample(1, source), 1))]
    + [AtStart(BeginningJump(1))]
    + [AtStart(SettingAvailable(true))]
    + [AtStart(Submitting(Sample(2, source), 2))]
    + [AtStart(BeginningJump(2))]
    + [AtStart(SettingAvailable(false))]
  }

  lemma HiddenJumpsShow(source: SourceContext)
    ensures Shows(HiddenJumps(source), Pose(source, Limits(1, 1), false, [2], [1], {1, 2}))
  {
    hide Shows, Sample, AtStart;
    var calls := [];
    var p := Pose(source, Limits(1, 1), false, [], [], {});
    NothingYet(source, Limits(1, 1));
    ThenSubmit(calls, p, 1);
    calls, p := calls + [AtStart(Submitting(Sample(1, source), 1))], p.(queue := p.queue + [1]);
    ThenJump(calls, p, 1);
    calls, p := calls + [AtStart(BeginningJump(1))], p.(pins := p.pins + {1});
    ThenSwitch(calls, p, true);
    calls, p := calls + [AtStart(SettingAvailable(true))], Switched(p, true);
    ThenSubmit(calls, p, 2);
    calls, p := calls + [AtStart(Submitting(Sample(2, source), 2))], p.(queue := p.queue + [2]);
    ThenJump(calls, p, 2);
    calls, p := calls + [AtStart(BeginningJump(2))], p.(pins := p.pins + {2});
    ThenSwitch(calls, p, false);
    assert Switched(p, false) == Pose(source, Limits(1, 1), false, [2], [1], {1, 2});
  }

  /** The update by key turns the hidden toast into an Attention, and the queue over its
      limit: nothing enforces it there. */
  function Replacing(source: SourceContext): Action {
    Submitting(Urgent(source), 3)
  }

  lemma ReplacingTail(s: State, source: SourceContext, pins: set<NotificationId>)
    requires Keyed(s.entries, s.liveKeys) && 1 in s.entries && Samples(s.entries, source, pins)
    ensures TailOf(s, s, Replacing(source)) == Upsert(1, Urgent(source))
    ensures Urgent(source).key == s.entries[1].Key() && s.entries[1].Presentation() == Toast
  {
    assert s.entries[1].Key() == Some("k");
    assert s.liveKeys["k"] == 1;
  }

  lemma RequeuedShape(s: State, source: SourceContext)
    requires 1 in s.entries && s.pending == [2] && s.active == [1] && s.attention.None?
    ensures var v := Requeued(Revised(s, 1, Urgent(source), 0, 0), 1);
            && v.pending == [2, 1] && v.active == [] && v.attention.None? && v.available == s.available
            && v.limits == s.limits && v.history.submitted == s.history.submitted
            && v.entries.Keys == s.entries.Keys
            && forall id :: id in s.entries ==> v.entries[id].jumpNonce == s.entries[id].jumpNonce
  {
    assert Without([2], 1) == [2];
    assert Without([1], 1) == [];
  }

  lemma RequeuedSorts(v: State)
    requires Core(v) && v.lastNow == 0 && !v.available && v.pending == [2, 1]
    requires IsPinned(v.entries, 1) && IsPinned(v.entries, 2)
    ensures var r := Rebalance(SortPending(v), 0, 0);
            && (forall id :: id in r.pending <==> id == 1 || id == 2) && !r.available && r.limits == v.limits
            && r.history.submitted == v.history.submitted
            && IsPinned(r.entries, 1) && IsPinned(r.entries, 2)
  {
    hide Core, SortPending, Rebalance, Ranked, Settled, Unspent, Tallied, Exact, Conserving;
    SettleKeeps(v, 0, 0);
    SortedMembers(v);
    SortPendingKeeps(v);
    RebalanceQueue(SortPending(v), 0, 0);
  }

  lemma ReplacingQueues(s: State, source: SourceContext, pins: set<NotificationId>)
    requires Inv(s) && s.lastNow == 0 && !s.available && Samples(s.entries, source, pins)
    requires s.pending == [2] && s.active == [1] && s.attention.None?
    requires IsPinned(s.entries, 1) && IsPinned(s.entries, 2)
    ensures var r := Upserted(s, 1, Urgent(source), 0, 0);
            && (forall id :: id in r.pending <==> id == 1 || id == 2) && !r.available && r.limits == s.limits
            && r.history.submitted == s.history.submitted
            && IsPinned(r.entries, 1) && IsPinned(r.entries, 2)
  {
    hide Inv, Core, Samples, Urgent, SortPending, Rebalance, Revised, Requeued;
    InvIsCore(s);
    CoreParts(s);
    ReplacingTail(s, source, pins);
    RequeuedShape(s, source);
    assert Urgent(source).presentation == Attention by { UrgentIs(source); }
    RevisedElsewhere(s, 1, Urgent(source), 0, 0);
    RequeuedTime(s, source);
    RequeuedSorts(Requeued(Revised(s, 1, Urgent(source), 0, 0), 1));
  }

  lemma UrgentIs(source: SourceContext)
    ensures Urgent(source).presentation == Attention
  {
  }

  lemma RequeuedTime(s: State, source: SourceContext)
    requires 1 in s.entries
    ensures Requeued(Revised(s, 1, Urgent(source), 0, 0), 1).lastNow == s.lastNow
  {
  }

  lemma TwoMembers<T>(q: seq<T>, a: T, b: T)
    requires a in q && b in q && a != b
    ensures |q| >= 2
  {
  }

  lemma HiddenQueueSoon(s: State)
    requires !s.available
    ensures QueueSoon(s, 0) == s.pending
  {
    assert s.pending[0..] == s.pending;
  }

  lemma OverfullPanics(r: State, source: SourceContext)
    requires Inv(r) && r.lastNow == 0 && !r.available && r.limits == Limits(1, 1) && 4 !in r.history.submitted
    requires (forall id :: id in r.pending <==> id == 1 || id == 2) && IsPinned(r.entries, 1) && IsPinned(r.entries, 2)
    ensures Panics(r, AtStart(Submitting(Sample(4, source), 4)))
  {
    hide Inv, Panics, QueueSoon, Expiring, IsPinned;
    TwoMembers(r.pending, 1, 2);
    AllPinnedCount(r.entries, r.pending);
    HiddenQueueSoon(r);
    PanicsExactly(r, AtStart(Submitting(Sample(4, source), 4)));
  }

  /** What the replacement leaves behind. */
  lemma Replaced(s: State, p: Pose)
    requires Posed(s, p) && p == Pose(p.source, Limits(1, 1), false, [2], [1], {1, 2})
    ensures var c := AtStart(Replacing(p.source));
            var r := Next(s, c);
            && Legal(s, c) && Inv(r) && r.lastNow == 0 && !r.available && r.limits == Limits(1, 1)
            && 4 !in r.history.submitted && (forall id :: id in r.pending <==> id == 1 || id == 2)
            && IsPinned(r.entries, 1) && IsPinned(r.entries, 2)
  {
    hide Posed, Inv, Exact, Core, Tuned, Still, Samples, IsPinned, Urgent, Upserted, RunTail, TailOf, TailAllowed,
      Legal, Perform, Keyed, Contained, SequencesUnique, NoncesUnique, EntriesOk, TimersStarted, HistoryOk;
    PosedParts(s, p);
    PosedPlaces(s, p);
    CoreParts(s);
    PinnedPose(s, p, [1, 2]);
    ReplacingTail(s, p.source, p.pins);
    ReplacingQueues(s, p.source, p.pins);
    UpsertIs(s, p.source);
    StillCall(s, Replacing(p.source));
  }

  lemma UpsertIs(s: State, source: SourceContext)
    requires 1 in s.entries && Urgent(source).key == s.entries[1].Key()
    ensures var tail := Upsert(1, Urgent(source));
            TailAllowed(s, tail, 0, 0) && RunTail(s, tail, 0, 0) == Upserted(s, 1, Urgent(source), 0, 0)
  {
    hide Upserted, Urgent;
  }

  /** The pending limit panics although it never changed: an update by key leaves two
      pinned Notifications in a queue for one, and the next submission finds no other. */
  lemma OverfullQueuePanics(source: SourceContext)
    ensures var calls := HiddenJumps(source) + [AtStart(Replacing(source))];
            LegalRun(New(Limits(1, 1), 0), calls)
            && Panics(Run(New(Limits(1, 1), 0), calls), AtStart(Submitting(Sample(4, source), 4)))
  {
    hide LegalRun, Run, HiddenJumps, Posed, Inv, Legal, Next, Panics, IsPinned, AtStart, Replacing, Sample;
    HiddenJumpsShow(source);
    var s := Run(New(Limits(1, 1), 0), HiddenJumps(source));
    Replaced(s, Pose(source, Limits(1, 1), false, [2], [1], {1, 2}));
    RunOneMore(New(Limits(1, 1), 0), HiddenJumps(source), AtStart(Replacing(source)));
    OverfullPanics(Next(s, AtStart(Replacing(source))), source);
  }

  // ---------- the lost record ----------

  /** Five Notifications wait with the display off. */
  function FiveWaiting(source: SourceContext): seq<Call> {
    []
    + [AtStart(Submitting(Sample(1, source), 1))]
    + [AtStart(Submitting(Sample(2, source), 2))]
    + [AtStart(Submitting(Sample(3, source), 3))]
    + [AtStart(Submitting(Sample(4, source), 4))]
    + [AtStart(Submitting(Sample(5, source), 5))]
  }

  lemma FiveWaitingShow(source: SourceContext)
    ensures Shows(FiveWaiting(source), Pose(source, Limits(5, 1), false, [1, 2, 3, 4, 5], [], {}))
  {
    hide Shows, Sample, AtStart;
    var calls := [];
    var p := Pose(source, Limits(5, 1), false, [], [], {});
    NothingYet(source, Limits(5, 1));
    ThenSubmit(calls, p, 1);
    calls, p := calls + [AtStart(Submitting(Sample(1, source), 1))], p.(queue := p.queue + [1]);
    ThenSubmit(calls, p, 2);
    calls, p := calls + [AtStart(Submitting(Sample(2, source), 2))], p.(queue := p.queue + [2]);
    ThenSubmit(calls, p, 3);
    calls, p := calls + [AtStart(Submitting(Sample(3, source), 3))], p.(queue := p.queue + [3]);
    ThenSubmit(calls, p, 4);
    calls, p := calls + [AtStart(Submitting(Sample(4, source), 4))], p.(queue := p.queue + [4]);
    ThenSubmit(calls, p, 5);
    assert p.queue + [5] == [1, 2, 3, 4, 5];
  }

  lemma {:induction false} NonePinned(e: Entries, ids: seq<NotificationId>)
    requires forall id :: id in ids ==> id in e && e[id].jumpNonce.None?
    ensures Pinned(e, ids) == []
  {
    if ids != [] {
      assert ids[0] in ids;
      NonePinned(e, ids[1..]);
    }
  }

  lemma UnpinnedPose(s: State, p: Pose)
    requires Posed(s, p) && p.pins == {}
    ensures Pinned(s.entries, s.pending) == []
  {
    hide Posed, Inv, Exact, Core, Tuned, Still;
    PosedParts(s, p);
    PosedPlaces(s, p);
    NonePinned(s.entries, s.pending);
  }

  lemma LimitsLose(s: State, limits: Limits)
    requires Inv(s) && s.lastNow == 0 && !s.available && s.active == [] && s.closed == [] && limits != s.limits
    requires Pinned(s.entries, s.pending) == [] && |s.pending| > limits.maxPending
    ensures var c := AtStart(SettingLimits(limits));
            && Legal(s, c) && Next(s, c).limits == limits
            && |NewlyClosed(s, Next(s, c))| == |s.pending| - limits.maxPending
            && (LosesRecords(s, c) <==> |s.pending| - limits.maxPending > Capacity(limits))
  {
    var c := AtStart(SettingLimits(limits));
    hide Inv, Panics, Legal, Next, QueuedUnder, QueueSoon, Expiring, NewlyClosed, Pinned, Capacity;
    HiddenQueue(s, limits);
    PanicsExactly(s, c);
    LegalUnlessPanics(s, c);
    LimitsKeepRecordsIff(s, c);
    LimitsSet(s, limits);
  }

  lemma LimitsSet(s: State, limits: Limits)
    requires Inv(s) && s.lastNow == 0 && limits != s.limits && Legal(s, AtStart(SettingLimits(limits)))
    ensures Next(s, AtStart(SettingLimits(limits))).limits == limits
  {
    hide Inv, Exact, Tuned, Prepare, Relimited, OverPinned, ClosedSome, Derived, RunTail, Perform;
    PrepareKeeps(s, 0, 0);
    PerformShape(s, AtStart(SettingLimits(limits)));
    RelimitSets(Prepare(s, 0, 0), limits, 0, 0);
  }

  /** Lowering the limits to one and one suppresses four of the five, and the closed queue,
      drained just before, has room for three: one record is lost. */
  lemma LoweredLimitsLoseOne(source: SourceContext)
    ensures var s, c := Run(New(Limits(5, 1), 0), FiveWaiting(source)), AtStart(SettingLimits(Limits(1, 1)));
            && LegalRun(New(Limits(5, 1), 0), FiveWaiting(source)) && Legal(s, c) && s.closed == []
            && |NewlyClosed(s, Next(s, c))| == 4 && |Next(s, c).closed| == 3 && LosesRecords(s, c)
  {
    hide LegalRun, Run, FiveWaiting, Posed, Inv, Exact, Core, Tuned, Samples, Legal, Next, NewlyClosed, LosesRecords,
      Pinned;
    var p := Pose(source, Limits(5, 1), false, [1, 2, 3, 4, 5], [], {});
    var s, c := Run(New(Limits(5, 1), 0), FiveWaiting(source)), AtStart(SettingLimits(Limits(1, 1)));
    FiveWaitingShow(source);
    PosedParts(s, p);
    UnpinnedPose(s, p);
    LimitsLose(s, Limits(1, 1));
    StepKeeps(s, c);
    BoundedParts(Next(s, c));
    RecordsKeptExactly(s, c);
  }

  // ---------- the pinned toast that times out ----------

  /** A toast is displayed while it is being jumped to, and then gets a new title. */
  function PinnedToast(source: SourceContext): seq<Call> {
    []
    + [AtStart(Submitting(Sample(7, source), 7))]
    + [AtStart(BeginningJump(7))]
    + [AtStart(SettingAvailable(true))]
  }

  lemma PinnedToastShows(source: SourceContext)
    ensures Shows(PinnedToast(source), Pose(source, Limits(1, 1), true, [], [7], {7}))
  {
    hide Shows, Sample, AtStart;
    var calls := [];
    var p := Pose(source, Limits(1, 1), false, [], [], {});
    NothingYet(source, Limits(1, 1));
    ThenSubmit(calls, p, 7);
    calls, p := calls + [AtStart(Submitting(Sample(7, source), 7))], p.(queue := p.queue + [7]);
    ThenJump(calls, p, 7);
    calls, p := calls + [AtStart(BeginningJump(7))], p.(pins := p.pins + {7});
    ThenSwitch(calls, p, true);
    assert Switched(p, true) == Pose(source, Limits(1, 1), true, [], [7], {7});
  }

  function Retitling(): Action {
    Updating(7, Update(Some("u"), None, None, None, None, None))
  }

  lemma RetitlingUnpins(s: State, p: Pose)
    requires Posed(s, p) && p.available && p.active == [7] && p.pins == {7}
    ensures 7 in s.entries && UpdateUnpins(s, 7, Retitling().update)
    ensures Merged(s.entries[7].notification.content, Retitling().update).timeout == After(1)
  {
    hide Posed, Inv, Exact, Core, Tuned, Still;
    PosedParts(s, p);
    PosedPlaces(s, p);
  }

  /** The run of the exception: submitted, jumped to, displayed, retitled, and one tick
      later closed as timed out although the jump was neither committed nor cancelled. */
  lemma PinnedToastTimesOut(source: SourceContext)
    ensures var calls := PinnedToast(source) + [AtStart(Retitling())];
            var u := Run(New(Limits(1, 1), 0), calls);
            var r := Next(u, Call(Advancing, 1, 0));
            && LegalRun(New(Limits(1, 1), 0), calls) && Legal(u, Call(Advancing, 1, 0))
            && IsPinned(u.entries, 7) && 7 !in r.entries
            && exists n :: n in NewlyClosed(u, r) && n.id == 7 && n.closeReason == Some(TimedOut)
  {
    var calls := PinnedToast(source);
    var s := Run(New(Limits(1, 1), 0), calls);
    hide LegalRun, Run, PinnedToast, Posed, Inv, Exact, Core, Tuned, Samples, Still, Legal, Next, NewlyClosed,
      UpdateUnpins, Merged, ApplyUpdate, Prepare, Retitling, AtStart;
    PinnedToastShows(source);
    var p := Pose(source, Limits(1, 1), true, [], [7], {7});
    PosedParts(s, p);
    PosedPlaces(s, p);
    RetitlingUnpins(s, p);
    RetitlingCall(s);
    RunOneMore(New(Limits(1, 1), 0), calls, AtStart(Retitling()));
    PinnedUpdateTimesOut(s, 7, Retitling().update, 1, 0);
    AdvancingCall(Next(s, AtStart(Retitling())));
  }

  lemma RetitlingCall(s: State)
    requires Inv(s) && Exact(s) && Tuned(s) && Still(s) && s.lastNow == 0
    ensures Retitling().Updating?
    ensures Legal(s, AtStart(Retitling()))
      && Next(s, AtStart(Retitling())) == ApplyUpdate(s, 7, Retitling().update, 0, 0).0
  {
    hide Inv, Exact, Tuned, Still, ApplyUpdate, Legal, Perform;
    StillCall(s, Retitling());
  }

  lemma AdvancingCall(u: State)
    requires u.lastNow == 0
    ensures Legal(u, Call(Advancing, 1, 0)) && Next(u, Call(Advancing, 1, 0)) == Prepare(u, 1, 0)
  {
    hide Prepare;
  }
}
