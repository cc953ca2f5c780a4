/** What an operation will do, read off the state before it: exactly when the pending limit
    panics, and exactly when the closed queue loses a record. */
module SchedulerForecast {
  import opened Wrappers
  import opened Notifications
  import opened Seqs
  import opened SchedulerModel
  import opened SchedulerInvariant
  import opened SchedulerSteps
  import opened SchedulerOperations
  import opened SchedulerRuns
  import opened SchedulerTimeouts
  import opened SchedulerDisplay
  import opened SchedulerLifecycle
  import opened SchedulerRecords

  // ---------- what a caller can read before the call ----------

  /** The active toasts whose running timers are used up by `now`, and the others. */
  function Expiring(s: State, now: Instant): seq<NotificationId> {
    ExpiredIn(s.entries, s.active, now)
  }

  function Unexpired(e: Entries, ids: seq<NotificationId>, now: Instant): (r: seq<NotificationId>)
    ensures forall id :: id in r <==> id in ids && !(id in e && e[id].timeout.Expired(now))
  {
    if ids == [] then []
    else if ids[0] in e && e[ids[0]].timeout.Expired(now) then Unexpired(e, ids[1..], now)
    else [ids[0]] + Unexpired(e, ids[1..], now)
  }

  /** How many of the waiting move up into the free places. */
  function Room(places: nat, taken: nat, waiting: nat): nat {
    if taken >= places then 0 else if places - taken < waiting then places - taken else waiting
  }

  function MovingUp(s: State, places: nat, taken: nat, waiting: nat): nat {
    if s.available && s.attention.None? then Room(places, taken, waiting) else 0
  }

  function Rising(s: State, now: Instant): (k: nat)
    ensures k <= |s.pending|
  {
    MovingUp(s, s.limits.maxVisible, |Unexpired(s.entries, s.active, now)|, |s.pending|)
  }

  /** The queue and the active toasts once time has reached `now`. */
  function QueueSoon(s: State, now: Instant): seq<NotificationId> {
    s.pending[Rising(s, now)..]
  }

  function ActiveSoon(s: State, now: Instant): seq<NotificationId> {
    Unexpired(s.entries, s.active, now) + s.pending[..Rising(s, now)]
  }

  /** What is queued under new limits, before any of it is given up: the waiting that find
      no place, and the active toasts that lose theirs. */
  function Overflow(s: State, active: seq<NotificationId>, queue: seq<NotificationId>, limits: Limits)
    : seq<NotificationId>
  {
    if |active| > limits.maxVisible then queue + active[limits.maxVisible..]
    else queue[MovingUp(s, limits.maxVisible, |active|, |queue|)..]
  }

  function QueuedUnder(s: State, limits: Limits, now: Instant): seq<NotificationId> {
    Overflow(s, ActiveSoon(s, now), QueueSoon(s, now), limits)
  }

  // ---------- the queue after time has passed ----------

  lemma {:induction false} CloseAllElsewhere(s: State, ids: seq<NotificationId>, reason: CloseReason, wall: WallTime)
    requires forall id :: id in ids ==> id !in s.pending && s.attention != Some(id)
    ensures var r := CloseAll(s, ids, reason, wall); r.pending == s.pending && r.attention == s.attention
    decreases |ids|
  {
    if ids != [] {
      assert ids[0] in ids;
      var m := CloseInner(s, ids[0], reason, wall);
      assert m.pending == s.pending && m.attention == s.attention;
      CloseAllElsewhere(m, ids[1..], reason, wall);
    }
  }

  lemma {:induction false} SurvivingUnexpired(ids: seq<NotificationId>, e: Entries, f: Entries, now: Instant)
    requires forall id :: id in ids ==> id in e && (id in f <==> !e[id].timeout.Expired(now))
    ensures Surviving(ids, f) == Unexpired(e, ids, now)
  {
    if ids != [] {
      assert ids[0] in ids;
      SurvivingUnexpired(ids[1..], e, f, now);
    }
  }

  lemma ExpireActive(t: State, wall: WallTime)
    requires Core(t) && Ranked(t.entries, t.pending)
    ensures var c := Expire(t, wall);
            && c.pending == t.pending && c.attention == t.attention
            && c.active == Unexpired(t.entries, t.active, t.lastNow)
            && c.entries == t.entries - ToSet(ExpiredIn(t.entries, t.active, t.lastNow))
  {
    var ids := ExpiredIn(t.entries, t.active, t.lastNow);
    CoreContained(t);
    CloseAllElsewhere(t, ids, TimedOut, wall);
    CloseAllOrder(t, ids, TimedOut, wall);
    hide Core, Ranked, CloseAll, Contained, ExpiredIn;
    CloseAllKeeps(t, ids, TimedOut, wall);
    CoreActive(t);
    SurvivingUnexpired(t.active, t.entries, t.entries - ToSet(ids), t.lastNow);
  }

  /** Without an Attention to pick, rebalancing moves the head of the queue up. */
  lemma RebalanceQueue(c: State, now: Instant, wall: WallTime)
    requires Core(c) && Ranked(c.entries, c.pending)
    requires c.available && c.attention.None? ==> AllToasts(c.entries)
    ensures var r := Rebalance(c, now, wall);
            var k := MovingUp(c, c.limits.maxVisible, |c.active|, |c.pending|);
            && k <= |c.pending| && r.attention == c.attention
            && r.active == c.active + c.pending[..k] && r.pending == c.pending[k..]
  {
    hide Core, Ranked, MarkVisible, SetTimers, Fill;
    NothingToPick(c);
    FillToastsKeeps(c);
    if |c.active| >= c.limits.maxVisible { FillStops(c); }
    var f := FillToasts(c);
    SplitTail(c.active, c.pending, f.active, f.pending);
    SplitHead(c.active, c.pending, f.active, f.pending);
    hide PickAttention, FillToasts, Conserving, AllToasts;
    RebalanceFields(c, now, wall);
  }

  lemma NothingToPick(c: State)
    requires Core(c) && (c.available && c.attention.None? ==> AllToasts(c.entries))
    ensures PickAttention(c) == c
  {
    CoreContained(c);
    FirstOfAll(c.entries, c.pending, Attention);
  }

  lemma FillStops(c: State)
    requires |c.active| >= c.limits.maxVisible
    ensures FillToasts(c) == c
  {
  }

  lemma SplitHead<T>(a: seq<T>, p: seq<T>, b: seq<T>, q: seq<T>)
    requires a <= b && b + q == a + p
    ensures |b| - |a| <= |p| && b == a + p[..|b| - |a|]
  {
    assert |b| + |q| == |a| + |p|;
    assert b == (a + p)[..|b|];
  }

  lemma RebalanceFields(c: State, now: Instant, wall: WallTime)
    ensures var r, f := Rebalance(c, now, wall), FillToasts(PickAttention(c));
            r.pending == f.pending && r.active == f.active && r.attention == f.attention
  {
    hide PickAttention, FillToasts;
  }

  lemma FewerToasts(e: Entries, f: Entries)
    requires AllToasts(e) && f.Keys <= e.Keys && forall id :: id in f ==> f[id] == e[id]
    ensures AllToasts(f)
  {
  }

  lemma ConservingToasts(s: State)
    requires Conserving(s) && s.available && s.attention.None?
    ensures AllToasts(s.entries) && (|s.active| < s.limits.maxVisible ==> s.pending == [])
  {
  }

  lemma ElapsedParts(s: State, now: Instant)
    requires Inv(s) && s.lastNow <= now
    ensures var e := Elapse(s, now); Core(e) && Ranked(e.entries, e.pending) && e.closedCapacity > 0
  {
    hide Core, Ranked, Conserving, Marked;
    ElapseKeeps(s, now);
  }

  lemma ExpiredForecast(s: State, now: Instant, wall: WallTime)
    requires Inv(s) && s.lastNow <= now
    ensures var c := Expire(Elapse(s, now), wall);
            && Core(c) && Ranked(c.entries, c.pending) && c.lastNow == now
            && c.limits == s.limits && c.available == s.available && c.attention == s.attention
            && c.pending == s.pending && c.active == Unexpired(s.entries, s.active, now)
            && c.entries == s.entries - ToSet(Expiring(s, now))
  {
    hide Inv, Core, Ranked, Expire, ClosedSome, Unspent, Tallied;
    ElapsedParts(s, now);
    ExpireKeeps(Elapse(s, now), wall);
    ExpireActive(Elapse(s, now), wall);
  }

  lemma ExpiredToasts(s: State, c: State)
    requires Inv(s) && c.available == s.available && c.attention == s.attention
    requires c.entries.Keys <= s.entries.Keys && forall id :: id in c.entries ==> c.entries[id] == s.entries[id]
    ensures c.available && c.attention.None? ==> AllToasts(c.entries)
  {
    hide Core, Ranked, Marked, Bounded, AllToasts;
    if s.available && s.attention.None? { FewerToasts(s.entries, c.entries); }
  }

  /** What `prepare_time` leaves queued and active. */
  lemma PrepareForecast(s: State, now: Instant, wall: WallTime)
    requires Inv(s) && s.lastNow <= now
    ensures var t := Prepare(s, now, wall);
            && t.pending == QueueSoon(s, now) && t.active == ActiveSoon(s, now) && t.attention == s.attention
            && t.entries.Keys == s.entries.Keys - ToSet(Expiring(s, now))
  {
    var c := Expire(Elapse(s, now), wall);
    hide Inv, Core, Ranked, Expire, Rebalance, AllToasts, Conserving, Marked, Tuned, Touched, Expiring, Room;
    ExpiredForecast(s, now, wall);
    ExpiredToasts(s, c);
    RebalanceQueue(c, now, wall);
    KeptKeys(c, now, wall);
  }

  lemma KeptKeys(c: State, now: Instant, wall: WallTime)
    requires Core(c) && Ranked(c.entries, c.pending) && c.lastNow == now
    ensures Rebalance(c, now, wall).entries.Keys == c.entries.Keys
  {
    hide Core, Ranked, Rebalance, Conserving, Marked, Tuned, Tallied, Unspent;
    RebalanceKeeps(c, now, wall);
  }

  // ---------- the pinned ids in the queue ----------

  lemma SamePinnedCount(e: Entries, a: seq<NotificationId>, f: Entries, b: seq<NotificationId>)
    requires Distinct(a) && Distinct(b)
    requires forall id :: id in Pinned(e, a) <==> id in Pinned(f, b)
    ensures |Pinned(e, a)| == |Pinned(f, b)|
  {
    PinnedDistinct(e, a);
    PinnedDistinct(f, b);
    DistinctSize(Pinned(e, a));
    DistinctSize(Pinned(f, b));
    assert ToSet(Pinned(e, a)) == ToSet(Pinned(f, b));
  }

  /** Enqueued ids with their pins: all that counts towards a panic. */
  ghost predicate SameQueuedPins(e: Entries, a: seq<NotificationId>, f: Entries, b: seq<NotificationId>) {
    && Distinct(a) && Distinct(b)
    && (forall id :: id in a ==> id in e) && (forall id :: id in b ==> id in f)
    && (forall id :: id in a && e[id].jumpNonce.Some? ==> id in b && f[id].jumpNonce.Some?)
    && (forall id :: id in b && f[id].jumpNonce.Some? ==> id in a && e[id].jumpNonce.Some?)
  }

  lemma SameQueuedCount(e: Entries, a: seq<NotificationId>, f: Entries, b: seq<NotificationId>)
    requires SameQueuedPins(e, a, f, b)
    ensures |Pinned(e, a)| == |Pinned(f, b)|
  {
    SamePinnedCount(e, a, f, b);
  }

  // ---------- a new Notification ----------

  lemma SortedMembers(v: State)
    requires Core(v)
    ensures var r := SortPending(v);
            (forall id :: id in r.pending <==> id in v.pending) && |r.pending| == |v.pending|
  {
    CoreContained(v);
    CoreParts(v);
    hide Core;
    SortRankedSorts(v.entries, v.pending, v.nextSequence);
  }

  /** The one Attention goes to the slot, and everything else stays queued. */
  lemma PlacedAttention(v: State, id: NotificationId, now: Instant, wall: WallTime)
    requires Core(v) && Ranked(v.entries, v.pending) && id in v.pending && v.available && v.attention.None?
    requires forall x :: x in v.entries ==> (v.entries[x].Presentation() == Attention <==> x == id)
    ensures forall x :: x in Rebalance(v, now, wall).pending <==> x in v.pending && x != id
  {
    CoreContained(v);
    FirstOfAll(v.entries, v.pending, Attention);
    var i := FirstOf(v.entries, v.pending, Attention);
    assert v.entries[id].Presentation() == Attention;
    assert i < |v.pending| && v.pending[i] == id;
    hide Core, Ranked;
    TakenOut(v.entries, v.pending, i);
    RebalanceFields(v, now, wall);
  }

  /** The new toast takes a free place, or waits behind the others. */
  lemma PlacedToast(t: State, v: State, id: NotificationId, now: Instant, wall: WallTime)
    requires Core(v) && Ranked(v.entries, v.pending) && v.available == t.available && v.attention == t.attention
    requires v.limits == t.limits && v.active == t.active && Conserving(t)
    requires v.available && v.attention.None? ==> AllToasts(v.entries)
    requires forall x :: x in v.pending <==> x in t.pending || x == id
    ensures forall x :: x != id ==> (x in Rebalance(v, now, wall).pending <==> x in t.pending)
  {
    hide Core, Ranked, Rebalance, AllToasts;
    RebalanceQueue(v, now, wall);
  }

  lemma SortedAdmission(t: State, id: NotificationId, draft: Draft, wall: WallTime)
    requires Inv(t) && id !in t.history.submitted && !KeyIsLive(t, draft)
    ensures var v := SortPending(Admitted(t, id, draft, wall));
            && Core(v) && Ranked(v.entries, v.pending)
            && (forall x :: x in v.pending <==> x in t.pending || x == id)
  {
    hide Core, Ranked, Conserving, Marked, Bounded, SortPending, KeyIsLive;
    AdmittedKeeps(t, id, draft, wall);
    SortPendingKeeps(Admitted(t, id, draft, wall));
    SortedMembers(Admitted(t, id, draft, wall));
  }

  lemma PlacedQueue(t: State, id: NotificationId, draft: Draft, now: Instant, wall: WallTime)
    requires Inv(t) && t.lastNow == now && id !in t.history.submitted && !KeyIsLive(t, draft)
    ensures forall x :: x != id ==> (x in Placed(t, id, draft, now, wall).pending <==> x in t.pending)
  {
    FreshId(t, id);
    hide Core, Ranked, Marked, Bounded, Conserving, SortPending, Rebalance, KeyIsLive, AllToasts;
    SortedAdmission(t, id, draft, wall);
    var v := SortPending(Admitted(t, id, draft, wall));
    if t.available && t.attention.None? {
      ConservingToasts(t);
      AdmittedPresentations(t, id, draft, wall);
      if draft.presentation == Attention { PlacedAttention(v, id, now, wall); }
    }
    if !(t.available && t.attention.None? && draft.presentation == Attention) {
      PlacedToast(t, v, id, now, wall);
    }
  }

  lemma FreshId(t: State, id: NotificationId)
    requires Core(t) && id !in t.history.submitted
    ensures id !in t.entries && id !in t.pending && id !in t.active
  {
    CoreHistory(t);
  }

  lemma AdmittedPresentations(t: State, id: NotificationId, draft: Draft, wall: WallTime)
    requires AllToasts(t.entries) && id !in t.entries
    ensures var e := Admitted(t, id, draft, wall).entries;
            if draft.presentation == Attention
            then forall x :: x in e ==> (e[x].Presentation() == Attention <==> x == id)
            else AllToasts(e)
  {
  }

  // ---------- new limits ----------

  lemma OverflowDistinct(t: State, limits: Limits)
    requires Core(t)
    ensures var q := Overflow(t, t.active, t.pending, limits);
            Distinct(q) && forall id :: id in q ==> id in t.entries
  {
    CoreContained(t);
    hide Core;
    if |t.active| > limits.maxVisible {
      DeferredContained(t.entries, t.pending, t.active, t.attention, limits.maxVisible);
    }
  }

  lemma DeferredToasts(m: State, now: Instant)
    requires AllToasts(m.entries)
    ensures AllToasts(Deferred(m, now).entries)
  {
  }

  lemma DeferredQueue(m: State, now: Instant)
    ensures Deferred(m, now).limits == m.limits
    ensures var d := Deferred(m, now);
            if |m.active| > m.limits.maxVisible
            then d.pending == m.pending + m.active[m.limits.maxVisible..] && d.active == m.active[..m.limits.maxVisible]
            else d == m
  {
  }

  lemma SortedDeferral(t: State, limits: Limits, now: Instant)
    requires Inv(t) && t.lastNow == now
    ensures var d := Deferred(t.(limits := limits, closedCapacity := Capacity(limits)), now);
            var v := SortPending(d);
            && Core(v) && Ranked(v.entries, v.pending) && v == d.(pending := v.pending)
            && (|t.active| <= limits.maxVisible ==> v.pending == t.pending)
            && (forall x :: x in v.pending <==> x in d.pending) && |v.pending| == |d.pending|
            && (v.available && v.attention.None? ==> AllToasts(v.entries))
  {
    var m := t.(limits := limits, closedCapacity := Capacity(limits));
    var d := Deferred(m, now);
    InvIsCore(t);
    LimitsFrame(t, limits, now);
    DeferredQueue(m, now);
    SortedMembers(d);
    if t.available && t.attention.None? {
      ConservingToasts(t);
      DeferredToasts(m, now);
    }
    hide Inv, Core, Ranked, SortPending, AllToasts, Deferred;
    SortPendingKeeps(d);
  }

  lemma RelimitedQueue(t: State, limits: Limits, now: Instant, wall: WallTime)
    requires Inv(t) && t.lastNow == now
    ensures var p, q := Relimited(t, limits, now, wall).pending, Overflow(t, t.active, t.pending, limits);
            |p| == |q| && forall x :: x in p <==> x in q
  {
    var m := t.(limits := limits, closedCapacity := Capacity(limits));
    hide Inv, Core, Ranked, SortPending, AllToasts, Deferred, Rebalance;
    DeferredQueue(m, now);
    SortedDeferral(t, limits, now);
    var v := SortPending(Deferred(m, now));
    RebalanceQueue(v, now, wall);
    if |t.active| > limits.maxVisible {
      assert v.pending[0..] == v.pending;
    } else {
      assert v.pending == t.pending && v.active == t.active;
    }
  }

  // ---------- the panic ----------

  /** `enforce_pending_limit` stops above the limit: the source's `expect` fails. */
  predicate Stuck(p: State, wall: WallTime) {
    |Enforce(p, wall).pending| > p.limits.maxPending
  }

  /** The call panics. */
  predicate Panics(s: State, c: Call) {
    && !c.action.Draining? && !Rejected(s, c) && s.lastNow <= c.now
    && var t := Prepare(s, c.now, c.wall);
       match TailOf(s, t, c.action) {
         case Place(id, draft) => Stuck(Placed(t, id, draft, c.now, c.wall), c.wall)
         case Relimit(limits) => Stuck(Relimited(t, limits, c.now, c.wall), c.wall)
         case _ => false
       }
  }

  /** The draft's key belongs to a Notification that will not have timed out by `now`. */
  predicate KeyHeld(s: State, draft: Draft, now: Instant) {
    draft.key.Some? && draft.key.value in s.liveKeys && s.liveKeys[draft.key.value] !in Expiring(s, now)
  }

  /** More of the Notifications that will be queued are pinned than the queue may hold. */
  predicate TooManyPinned(s: State, c: Call) {
    match c.action
    case Submitting(draft, _) =>
      !KeyHeld(s, draft, c.now) && |Pinned(s.entries, QueueSoon(s, c.now))| > s.limits.maxPending
    case SettingLimits(limits) =>
      limits != s.limits && |Pinned(s.entries, QueuedUnder(s, limits, c.now))| > limits.maxPending
    case _ => false
  }

  lemma StuckIff(p: State, wall: WallTime)
    requires Settled(p) && p.closedCapacity > 0
    ensures Stuck(p, wall) <==> OverPinned(p)
  {
    hide Core, Ranked, Conserving, Marked, Tuned, Enforce, OverPinned, ClosedSome;
    EnforceKeeps(p, wall);
  }

  lemma KeyLiveIff(s: State, t: State, draft: Draft, now: Instant)
    requires Core(s) && Core(t) && Derived(s.entries, t.entries)
    requires t.entries.Keys == s.entries.Keys - ToSet(Expiring(s, now))
    ensures KeyIsLive(t, draft) <==> KeyHeld(s, draft, now)
  {
    CoreParts(s);
    CoreParts(t);
    hide Core, Contained, SequencesUnique, NoncesUnique, EntriesOk, TimersStarted, HistoryOk, Expiring;
    if draft.key.Some? {
      var k := draft.key.value;
      if k in s.liveKeys && s.liveKeys[k] !in Expiring(s, now) {
        assert s.liveKeys[k] in t.entries && t.entries[s.liveKeys[k]].Key() == Some(k);
      }
      if k in t.liveKeys {
        assert t.liveKeys[k] in s.entries && s.entries[t.liveKeys[k]].Key() == Some(k);
      }
    }
  }

  lemma DerivedQueuedPins(s: State, t: State, queue: seq<NotificationId>)
    requires Derived(s.entries, t.entries) && Distinct(queue) && forall id :: id in queue ==> id in t.entries
    ensures SameQueuedPins(s.entries, queue, t.entries, queue)
  {
  }

  /** Pins carry over from `t` to `p`, and no other Notification of `p` is pinned. */
  lemma CarriedQueuedPins(t: State, p: State, a: seq<NotificationId>)
    requires Core(p) && PinsFrom(t, p) && p.nextNonce == t.nextNonce && SamePins(t, p)
    requires Distinct(a) && forall id :: id in a ==> id in t.entries && id in p.entries
    requires forall id :: IsPinned(p.entries, id) ==> (id in a <==> id in p.pending)
    ensures SameQueuedPins(t.entries, a, p.entries, p.pending)
  {
    CoreContained(p);
    hide Core;
  }

  lemma PlacedFresh(t: State, p: State, id: NotificationId)
    requires Core(t) && id !in t.history.submitted && PinsFrom(t, p) && p.nextNonce == t.nextNonce
    ensures !IsPinned(p.entries, id)
  {
    FreshId(t, id);
  }

  lemma QueueLive(t: State)
    requires Core(t)
    ensures Distinct(t.pending) && forall id :: id in t.pending ==> id in t.entries
  {
    CoreContained(t);
    hide Core;
  }

  lemma PlacedQueuedPins(t: State, id: NotificationId, draft: Draft, now: Instant, wall: WallTime)
    requires Inv(t) && t.lastNow == now && id !in t.history.submitted && !KeyIsLive(t, draft)
    ensures var p := Placed(t, id, draft, now, wall); SameQueuedPins(t.entries, t.pending, p.entries, p.pending)
  {
    var p := Placed(t, id, draft, now, wall);
    hide Inv, Core, Placed, PinsFrom, SamePins, KeyIsLive, IsPinned, Ranked, Bounded;
    InvIsCore(t);
    QueueLive(t);
    PlacedNonce(t, id, draft, now, wall);
    PlacedKeeps(t, id, draft, now, wall);
    SettledQueue(p);
    PlacedQueue(t, id, draft, now, wall);
    PlacedPins(t, id, draft, now, wall);
    PlacedSamePins(t, id, draft, now, wall);
    PlacedFresh(t, p, id);
    CarriedQueuedPins(t, p, t.pending);
  }

  lemma RelimitedQueuedPins(t: State, limits: Limits, now: Instant, wall: WallTime)
    requires Inv(t) && t.lastNow == now
    ensures var p := Relimited(t, limits, now, wall);
            SameQueuedPins(t.entries, Overflow(t, t.active, t.pending, limits), p.entries, p.pending)
  {
    var p := Relimited(t, limits, now, wall);
    InvIsCore(t);
    OverflowDistinct(t, limits);
    RelimitedNonce(t, limits, now, wall);
    hide Inv, Core, Relimited, PinsFrom, SamePins, IsPinned, Ranked, Bounded, Overflow;
    RelimitedKeeps(t, limits, now, wall);
    SettledQueue(p);
    RelimitedQueue(t, limits, now, wall);
    RelimitedPins(t, limits, now, wall);
    RelimitedSamePins(t, limits, now, wall);
    CarriedQueuedPins(t, p, Overflow(t, t.active, t.pending, limits));
  }

  lemma SubmissionPanics(s: State, t: State, id: NotificationId, draft: Draft, now: Instant, wall: WallTime)
    requires Core(t) && Inv(t) && t.lastNow == now && id !in t.history.submitted && !KeyIsLive(t, draft)
    requires Derived(s.entries, t.entries)
    ensures Stuck(Placed(t, id, draft, now, wall), wall) <==> |Pinned(s.entries, t.pending)| > t.limits.maxPending
  {
    var p := Placed(t, id, draft, now, wall);
    CoreContained(t);
    hide Inv, Core, Placed, KeyIsLive, SameQueuedPins, Pinned, Stuck, Derived;
    PlacedKeeps(t, id, draft, now, wall);
    InvCapacity(t);
    StuckIff(p, wall);
    PlacedQueuedPins(t, id, draft, now, wall);
    SameQueuedCount(t.entries, t.pending, p.entries, p.pending);
    DerivedQueuedPins(s, t, t.pending);
    SameQueuedCount(s.entries, t.pending, t.entries, t.pending);
  }

  lemma InvCapacity(t: State)
    requires Inv(t)
    ensures t.closedCapacity == Capacity(t.limits) && t.closedCapacity > 0
  {
    hide Core, Ranked, Conserving, Marked;
  }

  lemma RelimitingPanics(s: State, t: State, limits: Limits, now: Instant, wall: WallTime)
    requires Core(t) && Inv(t) && t.lastNow == now && Derived(s.entries, t.entries)
    ensures Stuck(Relimited(t, limits, now, wall), wall)
            <==> |Pinned(s.entries, Overflow(t, t.active, t.pending, limits))| > limits.maxPending
  {
    var p, q := Relimited(t, limits, now, wall), Overflow(t, t.active, t.pending, limits);
    OverflowDistinct(t, limits);
    hide Inv, Core, Relimited, SameQueuedPins, Pinned, Stuck, Derived, Overflow;
    RelimitedKeeps(t, limits, now, wall);
    StuckIff(p, wall);
    RelimitedQueuedPins(t, limits, now, wall);
    SameQueuedCount(t.entries, q, p.entries, p.pending);
    DerivedQueuedPins(s, t, q);
    SameQueuedCount(s.entries, q, t.entries, q);
  }

  /** What the panic proofs need of the prepared state. */
  lemma PreparedParts(s: State, now: Instant, wall: WallTime)
    requires Inv(s) && s.lastNow <= now
    ensures var t := Prepare(s, now, wall);
            && Core(s) && Inv(t) && Core(t) && t.lastNow == now && Derived(s.entries, t.entries)
            && t.limits == s.limits && t.available == s.available && t.history.submitted == s.history.submitted
  {
    hide Inv, Core, Tuned, Exact, Prepare, Derived, ClosedSome;
    InvIsCore(s);
    PrepareKeeps(s, now, wall);
    InvIsCore(Prepare(s, now, wall));
  }

  lemma SubmittingPanics(s: State, c: Call)
    requires Inv(s) && s.lastNow <= c.now && c.action.Submitting? && c.action.newId !in s.history.submitted
    ensures Panics(s, c) <==> TooManyPinned(s, c)
  {
    hide Inv, Core, Prepare, Stuck, Placed, KeyIsLive, KeyHeld, Pinned, QueueSoon, ActiveSoon, Expiring, Derived;
    var t := Prepare(s, c.now, c.wall);
    PreparedParts(s, c.now, c.wall);
    PrepareForecast(s, c.now, c.wall);
    KeyLiveIff(s, t, c.action.draft, c.now);
    if !KeyIsLive(t, c.action.draft) { SubmissionPanics(s, t, c.action.newId, c.action.draft, c.now, c.wall); }
  }

  lemma SettingLimitsPanics(s: State, c: Call)
    requires Inv(s) && s.lastNow <= c.now && c.action.SettingLimits?
    ensures Panics(s, c) <==> TooManyPinned(s, c)
  {
    hide Inv, Core, Prepare, Stuck, Relimited, Pinned, QueueSoon, ActiveSoon, Expiring, Derived, Overflow;
    var t := Prepare(s, c.now, c.wall);
    PreparedParts(s, c.now, c.wall);
    PrepareForecast(s, c.now, c.wall);
    SameOverflow(s, t, c.action.limits, c.now);
    RelimitingPanics(s, t, c.action.limits, c.now, c.wall);
  }

  /** What `TooManyPinned` rules out is what the enforcement needs ruled out. */
  lemma RoomToPlace(s: State, draft: Draft, id: NotificationId, now: Instant, wall: WallTime)
    requires Inv(s) && s.lastNow <= now && id !in s.history.submitted
    requires !TooManyPinned(s, Call(Submitting(draft, id), now, wall))
    ensures var t := Prepare(s, now, wall);
            id !in t.history.submitted && (KeyIsLive(t, draft) || !OverPinned(Placed(t, id, draft, now, wall)))
  {
    hide Inv, Core, Prepare, Stuck, Placed, KeyIsLive, KeyHeld, Pinned, OverPinned, QueueSoon, ActiveSoon, Expiring,
      Derived;
    var t := Prepare(s, now, wall);
    PreparedParts(s, now, wall);
    PrepareForecast(s, now, wall);
    KeyLiveIff(s, t, draft, now);
    if !KeyIsLive(t, draft) {
      SubmissionPanics(s, t, id, draft, now, wall);
      PlacedKeeps(t, id, draft, now, wall);
      InvCapacity(t);
      StuckIff(Placed(t, id, draft, now, wall), wall);
    }
  }

  lemma RoomToRelimit(s: State, limits: Limits, now: Instant, wall: WallTime)
    requires Inv(s) && s.lastNow <= now && !TooManyPinned(s, Call(SettingLimits(limits), now, wall))
    ensures var t := Prepare(s, now, wall); t.limits == limits || !OverPinned(Relimited(t, limits, now, wall))
  {
    hide Inv, Core, Prepare, Stuck, Relimited, Pinned, OverPinned, QueueSoon, ActiveSoon, Expiring, Derived, Overflow;
    var t := Prepare(s, now, wall);
    PreparedParts(s, now, wall);
    PrepareForecast(s, now, wall);
    if t.limits != limits {
      SameOverflow(s, t, limits, now);
      RelimitingPanics(s, t, limits, now, wall);
      RelimitedKeeps(t, limits, now, wall);
      StuckIff(Relimited(t, limits, now, wall), wall);
    }
  }

  /** A call panics exactly when, as the state before it already shows, more of the
      Notifications that will be queued are pinned by jumps than the queue may hold. */
  lemma PanicsExactly(s: State, c: Call)
    requires Inv(s) && (c.action.Submitting? ==> c.action.newId !in s.history.submitted)
    ensures Panics(s, c) <==> s.lastNow <= c.now && TooManyPinned(s, c)
  {
    if s.lastNow <= c.now && c.action.Submitting? {
      hide Inv, Panics, TooManyPinned;
      SubmittingPanics(s, c);
    } else if s.lastNow <= c.now && c.action.SettingLimits? {
      hide Inv, Panics, TooManyPinned;
      SettingLimitsPanics(s, c);
    } else {
      OthersNeverPanic(s, c);
    }
  }

  lemma OthersNeverPanic(s: State, c: Call)
    requires c.now < s.lastNow || !(c.action.Submitting? || c.action.SettingLimits?)
    ensures !Panics(s, c) && (s.lastNow <= c.now ==> !TooManyPinned(s, c))
  {
    hide Prepare, Stuck, KeyIsLive, Placed, Relimited, Rejected;
    if !c.action.Draining? && s.lastNow <= c.now {
      TailOfShape(s, Prepare(s, c.now, c.wall), c.action);
    }
  }

  lemma SameOverflow(s: State, t: State, limits: Limits, now: Instant)
    requires t.pending == QueueSoon(s, now) && t.active == ActiveSoon(s, now) && t.attention == s.attention
    requires t.available == s.available
    ensures Overflow(t, t.active, t.pending, limits) == QueuedUnder(s, limits, now)
  {
    hide QueueSoon, ActiveSoon;
  }

  /** And what does not panic is legal, given a fresh id and a true enumeration. */
  lemma LegalUnlessPanics(s: State, c: Call)
    requires Inv(s) && (c.action.Submitting? ==> c.action.newId !in s.history.submitted)
    requires c.action.ShuttingDown? && s.lastNow <= c.now ==>
      ToSet(c.action.order) == Prepare(s, c.now, c.wall).entries.Keys
    ensures Legal(s, c) <==> !Panics(s, c)
  {
    hide Inv, Core, Tuned, Exact, Prepare, Stuck, OverPinned, Placed, Relimited, KeyIsLive, Derived, ClosedSome,
      Rejected, TailOf;
    if !c.action.Draining? && !Rejected(s, c) && s.lastNow <= c.now {
      var t := Prepare(s, c.now, c.wall);
      PrepareKeeps(s, c.now, c.wall);
      InvIsCore(t);
      InvCapacity(t);
      TailOfShape(s, t, c.action);
      TailOfAllowed(s, t, c.action);
      match TailOf(s, t, c.action)
      case Place(id, draft) =>
        PlacedKeeps(t, id, draft, c.now, c.wall);
        StuckIff(Placed(t, id, draft, c.now, c.wall), c.wall);
      case Relimit(limits) =>
        RelimitedKeeps(t, limits, c.now, c.wall);
        StuckIff(Relimited(t, limits, c.now, c.wall), c.wall);
      case _ =>
    }
  }

  // ---------- the closed queue ----------

  /** How many Notifications new limits will suppress. */
  function Suppressing(s: State, limits: Limits, now: Instant): nat {
    var n := |QueuedUnder(s, limits, now)|;
    if limits == s.limits || n <= limits.maxPending then 0 else n - limits.maxPending
  }

  lemma {:induction false} ExpiredDistinct(e: Entries, ids: seq<NotificationId>, now: Instant)
    requires Distinct(ids)
    ensures Distinct(ExpiredIn(e, ids, now))
  {
    if ids != [] {
      ExpiredDistinct(e, ids[1..], now);
      var rest := ExpiredIn(e, ids[1..], now);
      assert ids[0] !in ids[1..];
      PrependedDistinct(ids[0], rest);
      assert [] + rest == rest;
    }
  }

  lemma ExpiringCount(s: State, t: State, now: Instant)
    requires Core(s) && t.entries.Keys == s.entries.Keys - ToSet(Expiring(s, now))
    ensures |s.entries| - |t.entries| == |Expiring(s, now)|
  {
    CoreContained(s);
    ExpiredDistinct(s.entries, s.active, now);
    DistinctSize(Expiring(s, now));
    assert ToSet(Expiring(s, now)) <= s.entries.Keys;
    assert |s.entries| == |s.entries.Keys| && |t.entries| == |t.entries.Keys|;
  }

  /** Each Notification given up leaves the queue and nothing else. */
  lemma SuppressedCount(p: State, wall: WallTime)
    requires Settled(p) && p.closedCapacity > 0 && !OverPinned(p)
    ensures |p.entries| - |Enforce(p, wall).entries|
            == if |p.pending| > p.limits.maxPending then |p.pending| - p.limits.maxPending else 0
  {
    var u := Enforce(p, wall);
    hide Core, Ranked, Conserving, Marked, Tuned, Tallied, Enforce, OverPinned, Contained, ClosedSome;
    SettledQueue(p);
    EnforceKeeps(p, wall);
    OverloadSize(p, wall);
    CoreContained(p);
    CoreContained(u);
    ContainedSize(p.entries, p.pending, p.active, p.attention);
    ContainedSize(u.entries, u.pending, u.active, u.attention);
  }

  lemma RelimitCount(t: State, limits: Limits, now: Instant, wall: WallTime)
    requires Inv(t) && t.lastNow == now && !OverPinned(Relimited(t, limits, now, wall))
    ensures var r := RunTail(t, Relimit(limits), now, wall);
            var n := |Overflow(t, t.active, t.pending, limits)|;
            |t.entries| - |r.entries| == if n > limits.maxPending then n - limits.maxPending else 0
  {
    var p := Relimited(t, limits, now, wall);
    hide Inv, Core, Ranked, Enforce, OverPinned, Relimited, Overflow, Settled, Exact;
    RelimitedKeeps(t, limits, now, wall);
    RelimitedQueue(t, limits, now, wall);
    SuppressedCount(p, wall);
    assert |t.entries| == |t.entries.Keys| && |p.entries| == |p.entries.Keys|;
  }

  /** Records pass through two bounded queues one after the other: none is dropped exactly
      when both have the room. */
  lemma QueuesKeepIff(s: State, t: State, r: State)
    requires Enqueued(s, t) && Enqueued(t, r) && |t.closed| <= t.closedCapacity && |r.closed| <= r.closedCapacity
    requires s.history.log <= t.history.log && t.history.log <= r.history.log
    ensures var a, b := |NewlyClosed(s, t)|, |NewlyClosed(t, r)|;
            && |NewlyClosed(s, r)| == a + b
            && (r.closed == s.closed + NewlyClosed(s, r)
                <==> |s.closed| + a <= t.closedCapacity && |s.closed| + a + b <= r.closedCapacity)
  {
    NewlyClosedCompose(s.history.log, t.history.log, r.history.log);
    assert NewlyClosed(s, r) == NewlyClosed(s, t) + NewlyClosed(t, r);
    Associate(s.closed, NewlyClosed(s, t), NewlyClosed(t, r));
    hide NewlyClosed;
  }

  lemma LimitsTail(s: State, t: State, limits: Limits, now: Instant, wall: WallTime)
    requires Inv(t) && Tuned(t) && t.lastNow == now && t.limits == s.limits
    requires TailAllowed(t, TailOf(s, t, SettingLimits(limits)), now, wall)
    ensures var r := RunTail(t, TailOf(s, t, SettingLimits(limits)), now, wall);
            var n := |Overflow(t, t.active, t.pending, limits)|;
            && Inv(r) && Enqueued(t, r) && t.history.log <= r.history.log && r.limits == limits
            && |NewlyClosed(t, r)| == if limits == s.limits || n <= limits.maxPending then 0 else n - limits.maxPending
  {
    var tail := TailOf(s, t, SettingLimits(limits));
    hide Inv, Tuned, Enqueued, RunTail, OverPinned, Relimited, NewlyClosed, Overflow, Exact, TailCause;
    AfterKeeps(t, tail, now, wall);
    AfterCause(t, tail, now, wall);
    AfterCount(t, tail, now, wall);
    if limits != t.limits {
      RelimitCount(t, limits, now, wall);
      RelimitSets(t, limits, now, wall);
    } else {
      StaysPut(t, now, wall);
    }
  }

  lemma StaysPut(t: State, now: Instant, wall: WallTime)
    ensures RunTail(t, Stay, now, wall) == t && NewlyClosed(t, t) == []
  {
  }

  lemma RelimitSets(t: State, limits: Limits, now: Instant, wall: WallTime)
    requires Inv(t) && t.lastNow == now && !OverPinned(Relimited(t, limits, now, wall))
    ensures RunTail(t, Relimit(limits), now, wall).limits == limits
  {
    hide Inv, OverPinned, Relimited, Tuned, Exact, Enforce, ClosedSome;
    UpdateLimitsKeeps(t, limits, now, wall);
  }

  /** What is recorded before the limits change. */
  lemma DueRecords(s: State, now: Instant, wall: WallTime)
    requires Inv(s) && s.lastNow <= now
    ensures var t := Prepare(s, now, wall);
            && Enqueued(s, t) && s.history.log <= t.history.log && |NewlyClosed(s, t)| == |Expiring(s, now)|
            && |t.closed| <= t.closedCapacity == Capacity(s.limits)
  {
    hide Inv, Core, Prepare, Enqueued, NewlyClosed, Expiring, QueueSoon, ActiveSoon, Capacity;
    PrepareForecast(s, now, wall);
    PrepareRecords(s, now, wall);
    InvIsCore(s);
    ExpiringCount(s, Prepare(s, now, wall), now);
  }

  lemma SuppressedRecords(s: State, limits: Limits, now: Instant, wall: WallTime)
    requires Inv(s) && s.lastNow <= now
    requires var t := Prepare(s, now, wall); TailAllowed(t, TailOf(s, t, SettingLimits(limits)), now, wall)
    ensures var t := Prepare(s, now, wall);
            var r := RunTail(t, TailOf(s, t, SettingLimits(limits)), now, wall);
            && t.lastNow == now
            && Enqueued(t, r) && t.history.log <= r.history.log && |NewlyClosed(t, r)| == Suppressing(s, limits, now)
            && |r.closed| <= r.closedCapacity == Capacity(limits)
  {
    var t := Prepare(s, now, wall);
    hide Inv, Core, Tuned, Exact, Prepare, Enqueued, NewlyClosed, RunTail, TailAllowed, Expiring, Overflow, Derived,
      ClosedSome, QueueSoon, ActiveSoon, Capacity, TailOf;
    PrepareKeeps(s, now, wall);
    PrepareForecast(s, now, wall);
    SameOverflow(s, t, limits, now);
    LimitsTail(s, t, limits, now, wall);
    BoundedParts(RunTail(t, TailOf(s, t, SettingLimits(limits)), now, wall));
  }

  /** New limits close exactly the toasts that are due and what no longer fits, and every
      record survives exactly when the old queue has room for the first and the new queue
      for all: three numbers known before the call. */
  lemma LimitsKeepRecordsIff(s: State, c: Call)
    requires Inv(s) && Legal(s, c) && c.action.SettingLimits? && s.lastNow <= c.now
    ensures var r, due := Next(s, c), |Expiring(s, c.now)|;
            var n := due + Suppressing(s, c.action.limits, c.now);
            && |NewlyClosed(s, r)| == n
            && (r.closed == s.closed + NewlyClosed(s, r)
                <==> |s.closed| + due <= Capacity(s.limits) && |s.closed| + n <= Capacity(c.action.limits))
  {
    hide Inv, Prepare, Enqueued, NewlyClosed, RunTail, Perform, TailAllowed, Expiring, Suppressing, Capacity, TailOf;
    PerformShape(s, c);
    DueRecords(s, c.now, c.wall);
    SuppressedRecords(s, c.action.limits, c.now, c.wall);
    QueuesKeepIff(s, Prepare(s, c.now, c.wall), Next(s, c));
  }

  /** Lowered limits overrun the closed queue: the due and the suppressed outnumber it. */
  predicate LosesRecords(s: State, c: Call) {
    c.action.SettingLimits? && s.lastNow <= c.now
    && |Expiring(s, c.now)| + Suppressing(s, c.action.limits, c.now) > Capacity(c.action.limits)
  }

  lemma SameCapacity(s: State, c: Call)
    requires Inv(s) && Legal(s, c) && !c.action.Draining? && !(c.action.SettingLimits? && s.lastNow <= c.now)
    ensures Next(s, c).closedCapacity == Capacity(s.limits)
  {
    hide Inv, Tuned, Prepare, RunTail, Perform, TailAllowed, Capacity, Rejected, TailOf, Derived, ClosedSome;
    PerformShape(s, c);
    if Rejected(s, c) || c.now < s.lastNow {
      BoundedParts(s);
    } else {
      var t := Prepare(s, c.now, c.wall);
      PrepareKeeps(s, c.now, c.wall);
      TailOfShape(s, t, c.action);
      AfterKeeps(t, TailOf(s, t, c.action), c.now, c.wall);
      BoundedParts(Next(s, c));
    }
  }

  /** With the queue drained before it, a call loses a record exactly when `LosesRecords`
      says so; the queue then holds the newest, as many as fit. */
  lemma RecordsKeptExactly(s: State, c: Call)
    requires Inv(s) && Legal(s, c) && s.closed == [] && !c.action.Draining?
    ensures var r := Next(s, c);
            && r.closed == LastN(NewlyClosed(s, r), r.closedCapacity)
            && (r.closed == NewlyClosed(s, r) <==> !LosesRecords(s, c))
  {
    hide Inv, Legal, Next, NewlyClosed, Capacity, Suppressing, Expiring;
    StepRecords(s, c);
    if c.action.SettingLimits? && s.lastNow <= c.now {
      LimitsKeepRecordsIff(s, c);
      DueFit(s, c.now, c.wall);
      assert s.closed + NewlyClosed(s, Next(s, c)) == NewlyClosed(s, Next(s, c));
    } else {
      SameCapacity(s, c);
    }
  }

  lemma DueFit(s: State, now: Instant, wall: WallTime)
    requires Inv(s) && s.lastNow <= now
    ensures |Expiring(s, now)| <= Capacity(s.limits)
  {
    hide Inv, Core, Prepare, Expiring, Capacity, QueueSoon, ActiveSoon;
    InvIsCore(s);
    BoundedParts(s);
    PrepareForecast(s, now, wall);
    ExpiringCount(s, Prepare(s, now, wall), now);
  }

  // ---------- whole runs with a draining caller ----------

  /** One call, and the caller drains the closed queue. */
  ghost function Turn(s: State, c: Call): State {
    DrainClosed(Next(s, c)).0
  }

  ghost function Turns(s: State, calls: seq<Call>): State
    decreases |calls|
  {
    if calls == [] then s else Turns(Turn(s, calls[0]), calls[1..])
  }

  ghost predicate LegalTurns(s: State, calls: seq<Call>)
    decreases |calls|
  {
    calls != [] ==>
      && !calls[0].action.Draining? && Legal(s, calls[0])
      && !LosesRecords(s, calls[0])
      && LegalTurns(Turn(s, calls[0]), calls[1..])
  }

  /** Every record ever made has been forwarded, once, in order. */
  ghost predicate Forwarded(s: State) {
    s.closed == [] && s.history.forwarded == s.history.log
  }

  lemma TurnKeeps(s: State, c: Call)
    requires Inv(s) && Legal(s, c) && Forwarded(s) && !c.action.Draining?
    ensures Inv(Turn(s, c)) && (Forwarded(Turn(s, c)) <==> !LosesRecords(s, c))
  {
    hide Legal, Inv, Perform, LosesRecords;
    StepKeeps(s, c);
    StepRecords(s, c);
    RecordsKeptExactly(s, c);
    DrainKeeps(Next(s, c));
    InvIsCore(Next(s, c));
    TurnForwards(s, c);
  }

  lemma TurnForwards(s: State, c: Call)
    requires Forwarded(s) && RecordsQueued(s, Next(s, c))
    ensures Forwarded(Turn(s, c)) <==> Next(s, c).closed == NewlyClosed(s, Next(s, c))
  {
    hide Next;
    var r := Next(s, c);
    assert r.history.log == s.history.log + NewlyClosed(s, r);
  }

  lemma {:induction false} TurnsKeep(s: State, calls: seq<Call>)
    requires Inv(s) && Forwarded(s) && LegalTurns(s, calls)
    ensures Inv(Turns(s, calls)) && Forwarded(Turns(s, calls))
    decreases |calls|
  {
    hide Inv, Legal, Turn, Perform, LosesRecords;
    if calls != [] {
      TurnKeeps(s, calls[0]);
      TurnsKeep(Turn(s, calls[0]), calls[1..]);
    }
  }

  /** No lost or doubled lifecycle: when the caller drains after every operation and no
      lowered limits overrun the closed queue, at every moment every id ever submitted is
      either live or has been forwarded exactly once, with a reason; and no more than the
      limits allow is live. */
  lemma NoLostLifecycle(limits: Limits, start: Instant, calls: seq<Call>, id: NotificationId)
    requires LegalTurns(New(limits, start), calls)
    requires id in Turns(New(limits, start), calls).history.submitted
    ensures var s := Turns(New(limits, start), calls);
            && |s.entries| <= s.limits.maxPending + s.limits.maxVisible + 1
            && (id in s.entries <==> forall i :: 0 <= i < |s.history.forwarded| ==> s.history.forwarded[i].id != id)
            && (id !in s.entries ==>
                  exists i :: 0 <= i < |s.history.forwarded| && s.history.forwarded[i].id == id
                    && s.history.forwarded[i].closeReason.Some?
                    && forall j :: 0 <= j < |s.history.forwarded| && s.history.forwarded[j].id == id ==> j == i)
  {
    NewIsGood(limits, start);
    TurnsKeep(New(limits, start), calls);
    var s := Turns(New(limits, start), calls);
    hide LegalTurns, Turns;
    LogTellsAll(s, id);
  }
}
