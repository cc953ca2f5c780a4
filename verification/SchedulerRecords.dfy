/** Every close has exactly one cause, and no record of it is lost or doubled. */
module SchedulerRecords {
  import opened Wrappers
  import opened Notifications
  import opened Seqs
  import opened SchedulerModel
  import opened SchedulerInvariant
  import opened SchedulerSteps
  import opened SchedulerOperations
  import opened SchedulerRuns
  import opened SchedulerTimeouts
  import opened SchedulerLifecycle

  // ---------- what each tail closes ----------

  /** Why the tail may close this Notification. */
  ghost predicate TailCause(t: State, tail: Tail, n: Notification) {
    match tail
    case CloseOne(id, reason) => n.id == id && n.closeReason == Some(reason)
    case CloseEvery(_, reason) => n.closeReason == Some(reason)
    case Place(id, _) =>
      n.closeReason == Some(RenderSuppressed) && !IsPinned(t.entries, n.id) && (n.id == id || n.id in t.entries)
    case Relimit(_) => n.closeReason == Some(RenderSuppressed) && !IsPinned(t.entries, n.id) && n.id in t.entries
    case _ => false
  }

  ghost predicate ClosesForCause(t: State, r: State, tail: Tail) {
    t.history.log <= r.history.log && forall n :: n in NewlyClosed(t, r) ==> TailCause(t, tail, n)
  }

  /** Records closed in between are queued; the queue keeps the newest when it overflows. */
  ghost predicate Enqueued(t: State, r: State) {
    && r.history.forwarded == t.history.forwarded
    && LastN(r.closed, r.closedCapacity) == LastN(t.closed + NewlyClosed(t, r), r.closedCapacity)
  }

  lemma NoneClosed(t: State, r: State, tail: Tail)
    requires NothingNew(t, r)
    ensures ClosesForCause(t, r, tail) && Enqueued(t, r)
  {
    assert NewlyClosed(t, r) == [];
    assert t.closed + [] == t.closed;
  }

  /** An entry the pending limit gives up was queued and unpinned. */
  lemma SuppressedUnpinned(p: State, wall: WallTime, n: Notification)
    requires Settled(p) && p.closedCapacity > 0 && n in NewlyClosed(p, Enforce(p, wall))
    ensures n.closeReason == Some(RenderSuppressed) && n.id in p.entries && !IsPinned(p.entries, n.id)
  {
    var u := Enforce(p, wall);
    hide Core, Ranked, Conserving, Marked, Tuned, Tallied, Enforce, OverPinned, Contained;
    EnforceKeeps(p, wall);
    OverloadMembers(p, wall);
    CoreParts(u);
    CoreParts(p);
    assert n in u.history.log && n.id in LogIds(u.history.log);
    assert n.id in p.entries && n.id !in u.entries;
    SlotsLive(p.entries, p.pending, p.active, p.attention, n.id);
    SlotsLive(u.entries, u.pending, u.active, u.attention, n.id);
  }

  lemma SlotsLive(e: Entries, pending: seq<NotificationId>, active: seq<NotificationId>,
                  attention: Option<NotificationId>, id: NotificationId)
    requires Contained(e, pending, active, attention)
    ensures id in e <==> id in pending || id in active || attention == Some(id)
  {
  }

  /** Pins of the notifications that were live before are untouched on the way to the limit. */
  ghost predicate SamePins(t: State, p: State) {
    forall id :: id in t.entries && id in p.entries ==> t.entries[id].jumpNonce == p.entries[id].jumpNonce
  }

  lemma ClosedSomeCause(t: State, c: State, reason: CloseReason)
    requires ClosedSome(t, c, reason)
    ensures t.history.log <= c.history.log && Enqueued(t, c)
    ensures forall n :: n in NewlyClosed(t, c) ==> n.closeReason == Some(reason) && n.id in t.entries
  {
  }

  lemma CloseInnerOnly(t: State, id: NotificationId, reason: CloseReason, wall: WallTime)
    requires id in t.entries && t.entries[id].notification.id == id
    ensures NewlyClosed(t, CloseInner(t, id, reason, wall)) == [t.entries[id].notification.Close(reason, wall)]
  {
  }

  lemma SameRecords(t: State, c: State, r: State)
    requires NothingNew(c, r)
    ensures Enqueued(t, c) ==> Enqueued(t, r)
    ensures NewlyClosed(t, c) == NewlyClosed(t, r)
  {
  }

  lemma SettleSamePins(v: State, now: Instant, wall: WallTime)
    requires Core(v) && v.lastNow == now
    ensures SamePins(v, Rebalance(SortPending(v), now, wall))
  {
    hide Core, Ranked, Settled, Rebalance, SortPending;
    SettleKeeps(v, now, wall);
  }

  lemma PlacedSamePins(t: State, id: NotificationId, draft: Draft, now: Instant, wall: WallTime)
    requires Inv(t) && t.lastNow == now && id !in t.history.submitted && !KeyIsLive(t, draft)
    ensures SamePins(t, Placed(t, id, draft, now, wall))
  {
    hide Core, Ranked, Conserving, Marked, Rebalance, SortPending;
    CoreHistory(t);
    assert id !in t.entries;
    var a := Admitted(t, id, draft, wall);
    AdmittedKeeps(t, id, draft, wall);
    SettleSamePins(a, now, wall);
    PlacedKeeps(t, id, draft, now, wall);
    assert forall x :: x in t.entries ==> x in a.entries && a.entries[x] == t.entries[x];
  }

  lemma DeferredSamePins(m: State, now: Instant)
    ensures SamePins(m, Deferred(m, now))
  {
  }

  lemma RelimitedSamePins(t: State, l: Limits, now: Instant, wall: WallTime)
    requires Inv(t) && t.lastNow == now
    ensures SamePins(t, Relimited(t, l, now, wall))
  {
    var m := t.(limits := l, closedCapacity := Capacity(l));
    var v := Deferred(m, now);
    hide Inv, Core, Rebalance, SortPending, Deferred, Settled;
    DeferredSamePins(m, now);
    LimitsFrame(t, l, now);
    SettleSamePins(v, now, wall);
    RelimitedKeeps(t, l, now, wall);
  }

  lemma AfterCause(t: State, tail: Tail, now: Instant, wall: WallTime)
    requires Inv(t) && Tuned(t) && t.lastNow == now && TailAllowed(t, tail, now, wall)
    ensures ClosesForCause(t, RunTail(t, tail, now, wall), tail)
    ensures Enqueued(t, RunTail(t, tail, now, wall))
  {
    hide Enqueued, Inv, Tuned, Rebalance, CloseInner, CloseAll, Enforce, OverPinned, Upserted, Placed, Relimited,
      ApplyUpdate, BeginJumpInner, ClosesForCause, Repinned, NothingNew;
    match tail
    case CloseOne(id, reason) =>
      if id in t.entries && t.entries[id].notification.delivery != Closed {
        CloseOneCause(t, id, reason, now, wall);
      } else { Unmoved(t, tail); }
    case CloseEvery(order, reason) =>
      CloseEveryCause(t, order, reason, wall);
    case Upsert(id, draft) =>
      UpsertKeeps(t, id, draft, now, wall);
      NoneClosed(t, Upserted(t, id, draft, now, wall), tail);
    case Place(id, draft) => PlaceCause(t, id, draft, now, wall);
    case Revise(id, update) =>
      ApplyUpdateKeeps(t, id, update, now, wall);
      NoneClosed(t, ApplyUpdate(t, id, update, now, wall).0, tail);
    case MakeAvailable(a) =>
      AvailableKeeps(t, a, now, wall);
      NoneClosed(t, RunTail(t, tail, now, wall), tail);
    case Relimit(l) => RelimitCause(t, l, now, wall);
    case Pin(id) => BeginJumpKeeps(t, id); NoneClosed(t, BeginJumpInner(t, id).0, tail);
    case Unpin(intent) =>
      if Outstanding(t, intent) { UnpinCause(t, intent); } else { Unmoved(t, tail); }
    case Stay => Unmoved(t, tail);
  }

  lemma Unmoved(t: State, tail: Tail)
    ensures ClosesForCause(t, t, tail) && Enqueued(t, t)
  {
    NoneClosed(t, t, tail);
  }

  lemma UnpinCause(t: State, intent: JumpIntent)
    requires Outstanding(t, intent)
    ensures ClosesForCause(t, Repinned(t, intent.id, None, true), Unpin(intent))
    ensures Enqueued(t, Repinned(t, intent.id, None, true))
  {
    NoneClosed(t, Repinned(t, intent.id, None, true), Unpin(intent));
  }

  lemma CloseOneCause(t: State, id: NotificationId, reason: CloseReason, now: Instant, wall: WallTime)
    requires Inv(t) && t.lastNow == now && id in t.entries
    ensures ClosesForCause(t, Rebalance(CloseInner(t, id, reason, wall), now, wall), CloseOne(id, reason))
    ensures Enqueued(t, Rebalance(CloseInner(t, id, reason, wall), now, wall))
  {
    var c := CloseInner(t, id, reason, wall);
    hide Inv, Rebalance, CloseInner, ClosedSome;
    CoreAt(t, id) by { assert Core(t) by { InvIsCore(t); } }
    CloseTailKeeps(t, id, reason, now, wall);
    CloseInnerOnly(t, id, reason, wall);
    ClosedSomeCause(t, c, reason);
    SameRecords(t, c, Rebalance(c, now, wall));
  }

  lemma CloseEveryCause(t: State, order: seq<NotificationId>, reason: CloseReason, wall: WallTime)
    requires Inv(t) && ToSet(order) == t.entries.Keys
    ensures ClosesForCause(t, CloseAll(t, order, reason, wall), CloseEvery(order, reason))
    ensures Enqueued(t, CloseAll(t, order, reason, wall))
  {
    hide Inv, CloseAll, ClosedSome;
    ShutdownKeeps(t, order, reason, wall);
    ClosedSomeCause(t, CloseAll(t, order, reason, wall), reason);
  }

  lemma PlaceCause(t: State, id: NotificationId, draft: Draft, now: Instant, wall: WallTime)
    requires Inv(t) && t.lastNow == now && TailAllowed(t, Place(id, draft), now, wall)
    ensures ClosesForCause(t, RunTail(t, Place(id, draft), now, wall), Place(id, draft))
    ensures Enqueued(t, RunTail(t, Place(id, draft), now, wall))
  {
    var p := Placed(t, id, draft, now, wall);
    hide Core, Ranked, Conserving, Marked, Tuned, Tallied, Unspent, OverPinned, Enforce, Placed, SamePins, Settled;
    PlacedKeeps(t, id, draft, now, wall);
    PlacedSamePins(t, id, draft, now, wall);
    EnforcedCause(t, p, wall, Place(id, draft));
  }

  lemma EnforcedCause(t: State, p: State, wall: WallTime, tail: Tail)
    requires Settled(p) && p.closedCapacity > 0 && SamePins(t, p) && p.history.log == t.history.log
    requires tail.Place? || tail.Relimit?
    requires p.entries.Keys <= t.entries.Keys + NewIds(tail)
    ensures ClosesForCause(t, BumpContent(Enforce(p, wall)), tail)
    ensures p.closed == t.closed && p.history.forwarded == t.history.forwarded ==>
      Enqueued(t, BumpContent(Enforce(p, wall)))
  {
    var u := Enforce(p, wall);
    hide Core, Ranked, Conserving, Marked, Tuned, Tallied, Enforce, OverPinned;
    EnforceKeeps(p, wall);
    assert NewlyClosed(t, BumpContent(u)) == NewlyClosed(p, u);
    forall n | n in NewlyClosed(t, BumpContent(u)) ensures TailCause(t, tail, n) {
      SuppressedUnpinned(p, wall, n);
    }
  }

  lemma RelimitCause(t: State, l: Limits, now: Instant, wall: WallTime)
    requires Inv(t) && t.lastNow == now && TailAllowed(t, Relimit(l), now, wall)
    ensures ClosesForCause(t, RunTail(t, Relimit(l), now, wall), Relimit(l))
    ensures Enqueued(t, RunTail(t, Relimit(l), now, wall))
  {
    var p := Relimited(t, l, now, wall);
    hide Core, Ranked, Conserving, Marked, Tuned, Tallied, Unspent, OverPinned, Enforce, Relimited, SamePins, Settled;
    RelimitedKeeps(t, l, now, wall);
    RelimitedSamePins(t, l, now, wall);
    EnforcedCause(t, p, wall, Relimit(l));
    var u := BumpContent(Enforce(p, wall));
    assert NewlyClosed(t, RunTail(t, Relimit(l), now, wall)) == NewlyClosed(t, u);
  }

  // ---------- every close has its cause ----------

  /** Why an operation may close this Notification, reason by reason. */
  ghost predicate Caused(s: State, c: Call, n: Notification) {
    match n.closeReason
    case None => false
    case Some(TimedOut) => s.lastNow <= c.now && n.id in s.entries && Due(s, n.id, c.now)
    case Some(Dismissed) =>
      c.action == Dismissing(n.id)
      || (c.action.DismissingKeyed? && c.action.key in s.liveKeys && s.liveKeys[c.action.key] == n.id)
    case Some(Jumped) => c.action.CommittingJump? && c.action.intent.id == n.id && Outstanding(s, c.action.intent)
    case Some(RenderSuppressed) =>
      (c.action.Submitting? || c.action.SettingLimits?) && !IsPinned(s.entries, n.id)
    case Some(RenderFailed) => c.action == RenderFailing(n.id)
    case Some(reason) => c.action.ShuttingDown? && c.action.reason.Reason() == reason
  }

  lemma TailIsCaused(s: State, t: State, c: Call, n: Notification)
    requires !c.action.Draining? && !Rejected(s, c) && Derived(s.entries, t.entries)
    requires TailCause(t, TailOf(s, t, c.action), n)
    requires NewIds(TailOf(s, t, c.action)) !! s.entries.Keys
    ensures Caused(s, c, n)
  {
  }

  lemma SplitRecords(s: State, t: State, r: State, n: Notification)
    requires s.history.log <= t.history.log && t.history.log <= r.history.log && n in NewlyClosed(s, r)
    ensures n in NewlyClosed(s, t) || n in NewlyClosed(t, r)
  {
    NewlyClosedCompose(s.history.log, t.history.log, r.history.log);
  }

  lemma CausedUnpinned(s: State, c: Call, n: Notification)
    requires Caused(s, c, n) && IsPinned(s.entries, n.id)
    ensures n.closeReason != Some(TimedOut) && n.closeReason != Some(RenderSuppressed)
  {
  }

  lemma FreshIds(s: State, t: State, tail: Tail, now: Instant, wall: WallTime)
    requires Core(s) && t.history.submitted == s.history.submitted && TailAllowed(t, tail, now, wall)
    ensures NewIds(tail) !! s.entries.Keys
  {
    hide Core, OverPinned;
    CoreHistory(s);
  }

  /** Every Notification an operation closes has the cause its reason names; in particular
      only a commit of the outstanding intent closes as jumped, and a pinned Notification is
      never closed as timed out or suppressed. */
  lemma EveryCloseIsCaused(s: State, c: Call, n: Notification)
    requires Inv(s) && Exact(s) && Legal(s, c) && n in NewlyClosed(s, Next(s, c))
    ensures Caused(s, c, n)
    ensures IsPinned(s.entries, n.id) ==> n.closeReason != Some(TimedOut) && n.closeReason != Some(RenderSuppressed)
  {
    hide Inv, Exact, Prepare, RunTail, TailOf, Rejected, TailAllowed, Caused, TailCause, Due, IsPinned, Perform;
    if c.action.Draining? {
      DrainRecords(s, c);
    } else {
      PerformShape(s, c);
      if !Rejected(s, c) && s.lastNow <= c.now {
        var t := Prepare(s, c.now, c.wall);
        var r := Next(s, c);
        var tail := TailOf(s, t, c.action);
        InvIsCore(s);
        PrepareKeeps(s, c.now, c.wall);
        TimesOutExactly(s, c.now, c.wall);
        AfterCause(t, tail, c.now, c.wall);
        FreshIds(s, t, tail, c.now, c.wall);
        SplitRecords(s, t, r, n);
        if n in NewlyClosed(s, t) {
          assert Caused(s, c, n) by { TimedOutCaused(s, c, n); }
        } else {
          TailIsCaused(s, t, c, n);
        }
      }
    }
    if IsPinned(s.entries, n.id) { CausedUnpinned(s, c, n); }
  }

  lemma DrainRecords(s: State, c: Call)
    requires c.action.Draining?
    ensures NewlyClosed(s, Next(s, c)) == []
  {
  }

  lemma TimedOutCaused(s: State, c: Call, n: Notification)
    requires s.lastNow <= c.now && n.id in s.entries && Due(s, n.id, c.now) && n.closeReason == Some(TimedOut)
    ensures Caused(s, c, n)
  {
  }

  // ---------- counting ----------

  lemma {:induction false} EnforceSubmitted(s: State, wall: WallTime)
    ensures Enforce(s, wall).history.submitted == s.history.submitted
    decreases |s.pending|
  {
    if Enforce(s, wall) != s {
      EnforceSubmitted(CloseInner(s, s.pending[LastUnpinned(s.entries, s.pending)], RenderSuppressed, wall), wall);
    }
  }

  lemma {:induction false} CloseAllSubmitted(s: State, ids: seq<NotificationId>, reason: CloseReason, wall: WallTime)
    ensures CloseAll(s, ids, reason, wall).history.submitted == s.history.submitted
    decreases |ids|
  {
    if ids != [] { CloseAllSubmitted(CloseInner(s, ids[0], reason, wall), ids[1..], reason, wall); }
  }

  lemma RebalanceHistory(s: State, now: Instant, wall: WallTime)
    ensures Rebalance(s, now, wall).history == s.history
  {
  }

  lemma AfterSubmitted(t: State, tail: Tail, now: Instant, wall: WallTime)
    ensures RunTail(t, tail, now, wall).history.submitted == t.history.submitted + NewIds(tail)
  {
    hide Rebalance, CloseAll, Enforce, SortPending;
    match tail
    case CloseOne(id, reason) => RebalanceHistory(CloseInner(t, id, reason, wall), now, wall);
    case CloseEvery(order, reason) => CloseAllSubmitted(t, order, reason, wall);
    case Upsert(id, draft) => if id in t.entries { UpsertSubmitted(t, id, draft, now, wall); }
    case Place(id, draft) =>
      EnforceSubmitted(Placed(t, id, draft, now, wall), wall);
      SortedHistory(Admitted(t, id, draft, wall), now, wall);
    case Revise(id, update) => SortedHistory(t, now, wall); ReviseSubmitted(t, id, update, now, wall);
    case MakeAvailable(a) =>
      RebalanceHistory(if t.available != a then BumpRevision(t.(available := a)) else t, now, wall);
    case Relimit(l) =>
      EnforceSubmitted(Relimited(t, l, now, wall), wall);
      SortedHistory(Deferred(t.(limits := l, closedCapacity := Capacity(l)), now), now, wall);
    case Pin(id) =>
    case Unpin(intent) =>
    case Stay =>
  }

  lemma ReviseSubmitted(t: State, id: NotificationId, update: Update, now: Instant, wall: WallTime)
    ensures ApplyUpdate(t, id, update, now, wall).0.history.submitted == t.history.submitted
  {
  }

  lemma SortedHistory(v: State, now: Instant, wall: WallTime)
    ensures Rebalance(SortPending(v), now, wall).history == v.history
  {
    RebalanceHistory(SortPending(v), now, wall);
  }

  lemma UpsertSubmitted(t: State, id: NotificationId, draft: Draft, now: Instant, wall: WallTime)
    requires id in t.entries
    ensures Upserted(t, id, draft, now, wall).history.submitted == t.history.submitted
  {
    var u := Revised(t, id, draft, now, wall);
    SortedHistory(if draft.presentation != t.entries[id].Presentation() then Requeued(u, id) else u, now, wall);
  }

  lemma {:induction false} LogSize(log: seq<Notification>)
    requires forall i, j :: 0 <= i < j < |log| ==> log[i].id != log[j].id
    ensures |LogIds(log)| == |log|
  {
    if log == [] {
      assert LogIds(log) == {};
    } else {
      var init, last := log[..|log| - 1], log[|log| - 1];
      LogSize(init);
      assert log == init + [last];
      assert LogIds(log) == LogIds(init) + {last.id};
      assert last.id !in LogIds(init);
    }
  }

  lemma HistorySize(live: set<NotificationId>, h: History)
    requires HistoryOk(live, h)
    ensures |h.submitted| == |live| + |h.log|
  {
    LogSize(h.log);
  }

  /** Conservation: what was live, plus what was admitted, is what is live plus what closed. */
  lemma CloseCount(s: State, r: State, admitted: set<NotificationId>)
    requires HistoryOk(s.entries.Keys, s.history) && HistoryOk(r.entries.Keys, r.history)
    requires r.history.submitted == s.history.submitted + admitted && admitted !! s.history.submitted
    requires s.history.log <= r.history.log
    ensures |NewlyClosed(s, r)| == |s.entries| + |admitted| - |r.entries|
  {
    HistorySize(s.entries.Keys, s.history);
    HistorySize(r.entries.Keys, r.history);
    assert |s.entries| == |s.entries.Keys| && |r.entries| == |r.entries.Keys|;
  }

  lemma NewIdsFresh(t: State, tail: Tail, now: Instant, wall: WallTime)
    requires TailAllowed(t, tail, now, wall)
    ensures NewIds(tail) !! t.history.submitted
  {
  }

  /** A submission leaves something live, if only what it was too late for. */
  lemma SettledQueue(p: State)
    requires Settled(p)
    ensures Core(p) && Ranked(p.entries, p.pending)
  {
    hide Core, Ranked;
  }

  lemma EnforceStops(p: State, wall: WallTime)
    requires |p.pending| <= p.limits.maxPending
    ensures Enforce(p, wall) == p
  {
  }

  lemma PlaceLeavesSome(t: State, id: NotificationId, draft: Draft, now: Instant, wall: WallTime)
    requires Inv(t) && t.lastNow == now && TailAllowed(t, Place(id, draft), now, wall)
    ensures |RunTail(t, Place(id, draft), now, wall).entries| >= 1
  {
    var p := Placed(t, id, draft, now, wall);
    var u := Enforce(p, wall);
    hide Inv, Core, Ranked, Conserving, Marked, Tuned, Tallied, Unspent, Enforce, Placed, Contained, Settled,
      OverPinned;
    InvIsCore(t);
    PlacedKeeps(t, id, draft, now, wall);
    SettledQueue(p);
    EnforceKeeps(p, wall);
    OverloadSize(p, wall);
    CoreContained(u);
    ContainedSize(u.entries, u.pending, u.active, u.attention);
    if |p.pending| <= p.limits.maxPending {
      EnforceStops(p, wall);
      assert id in u.entries;
    }
  }

  lemma AfterCount(t: State, tail: Tail, now: Instant, wall: WallTime)
    requires Inv(t) && Tuned(t) && t.lastNow == now && TailAllowed(t, tail, now, wall)
    ensures var r := RunTail(t, tail, now, wall);
            && t.history.log <= r.history.log
            && |NewlyClosed(t, r)| == |t.entries| + |NewIds(tail)| - |r.entries|
            && |t.entries| + |NewIds(tail)| - |r.entries| <= |t.entries|
  {
    var r := RunTail(t, tail, now, wall);
    hide Inv, Tuned, RunTail, Enqueued, HistoryOk;
    InvIsCore(t);
    AfterKeeps(t, tail, now, wall);
    InvIsCore(r);
    AfterCause(t, tail, now, wall);
    AfterSubmitted(t, tail, now, wall);
    NewIdsFresh(t, tail, now, wall);
    hide Core, TailAllowed;
    CoreHistory(t);
    CoreHistory(r);
    CloseCount(t, r, NewIds(tail));
    match tail {
      case Place(id, draft) => PlaceLeavesSome(t, id, draft, now, wall);
      case _ =>
    }
  }

  // ---------- no record is lost ----------

  lemma TailOfQueue(s: State, t: State, r: State)
    requires s.closed == [] && Enqueued(s, t) && Enqueued(t, r)
    requires s.history.log <= t.history.log && t.history.log <= r.history.log
    requires |NewlyClosed(s, t)| <= t.closedCapacity && |t.closed| <= t.closedCapacity && |r.closed| <= r.closedCapacity
    ensures r.closed == LastN(NewlyClosed(s, r), r.closedCapacity)
  {
    assert [] + NewlyClosed(s, t) == NewlyClosed(s, t);
    assert t.closed == NewlyClosed(s, t);
    NewlyClosedCompose(s.history.log, t.history.log, r.history.log);
    assert NewlyClosed(s, r) == NewlyClosed(s, t) + NewlyClosed(t, r);
  }

  /** The queue holds the newest of the records made since it was drained, at most as many
      as were live: all of them if and only if they fit. */
  ghost predicate RecordsQueued(s: State, r: State) {
    && s.history.log <= r.history.log && r.history.forwarded == s.history.forwarded
    && r.closed == LastN(NewlyClosed(s, r), r.closedCapacity)
    && |NewlyClosed(s, r)| <= Capacity(s.limits)
    && (r.closed == NewlyClosed(s, r) <==> |NewlyClosed(s, r)| <= r.closedCapacity)
  }

  lemma RecordsJoin(s: State, t: State, r: State)
    requires s.closed == [] && Enqueued(s, t) && Enqueued(t, r)
    requires s.history.log <= t.history.log && t.history.log <= r.history.log
    requires |NewlyClosed(s, t)| + |NewlyClosed(t, r)| <= Capacity(s.limits) == t.closedCapacity
    requires |t.closed| <= t.closedCapacity && |r.closed| <= r.closedCapacity
    ensures RecordsQueued(s, r)
  {
    TailOfQueue(s, t, r);
    NewlyClosedCompose(s.history.log, t.history.log, r.history.log);
  }

  lemma LogGrows(s: State, t: State, reason: CloseReason)
    requires ClosedSome(s, t, reason)
    ensures s.history.log <= t.history.log && t.closedCapacity == s.closedCapacity
  {
  }

  lemma TailLogGrows(t: State, r: State, tail: Tail, now: Instant, wall: WallTime)
    requires Inv(t) && Tuned(t) && t.lastNow == now && TailAllowed(t, tail, now, wall)
      && r == RunTail(t, tail, now, wall)
    ensures t.history.log <= r.history.log
  {
    hide Inv, Tuned, RunTail, TailAllowed, NewlyClosed, TailCause;
    AfterCause(t, tail, now, wall);
  }

  lemma CountBetween(s: State, t: State)
    requires Inv(s) && Inv(t) && t.history.submitted == s.history.submitted && s.history.log <= t.history.log
    ensures |NewlyClosed(s, t)| == |s.entries| - |t.entries|
  {
    hide Core, HistoryOk, NewlyClosed, Ranked, Conserving, Marked, Bounded;
    CoreHistory(s);
    CoreHistory(t);
    assert s.history.submitted + {} == s.history.submitted;
    CloseCount(s, t, {});
  }

  lemma BoundedParts(s: State)
    requires Inv(s)
    ensures |s.entries| <= Capacity(s.limits) && s.closedCapacity == Capacity(s.limits)
      && |s.closed| <= s.closedCapacity
  {
    hide Core, Ranked, Conserving, Marked, Capacity;
  }

  /** What expiry alone records. */
  lemma PrepareRecords(s: State, now: Instant, wall: WallTime)
    requires Inv(s) && s.lastNow <= now
    ensures var t := Prepare(s, now, wall);
            && Enqueued(s, t) && s.history.log <= t.history.log
            && |NewlyClosed(s, t)| == |s.entries| - |t.entries|
            && t.closedCapacity == Capacity(s.limits) && |t.closed| <= t.closedCapacity
            && |s.entries| <= Capacity(s.limits)
  {
    var t := Prepare(s, now, wall);
    hide Inv, Tuned, Exact, Prepare, Enqueued, ClosedSome, Derived, ClosesForCause, NewlyClosed, Capacity;
    PrepareKeeps(s, now, wall);
    BoundedParts(s);
    BoundedParts(t);
    ClosedSomeCause(s, t, TimedOut);
    LogGrows(s, t, TimedOut);
    CountBetween(s, t);
  }

  lemma TailRecords(s: State, t: State, tail: Tail, now: Instant, wall: WallTime)
    requires Inv(s) && s.closed == [] && s.lastNow <= now && t == Prepare(s, now, wall)
    requires TailAllowed(t, tail, now, wall)
    ensures RecordsQueued(s, RunTail(t, tail, now, wall))
  {
    var r := RunTail(t, tail, now, wall);
    hide Inv, Core, Tuned, Exact, Prepare, RunTail, TailAllowed, Enqueued, ClosedSome, Derived, ClosesForCause,
      RecordsQueued;
    hide NewlyClosed, Ranked;
    PrepareRecords(s, now, wall);
    PrepareKeeps(s, now, wall);
    AfterKeeps(t, tail, now, wall);
    InvIsCore(r);
    TailLogGrows(t, r, tail, now, wall);
    AfterCause(t, tail, now, wall);
    AfterCount(t, tail, now, wall);
    RecordsJoin(s, t, r);
  }

  lemma StepRecords(s: State, c: Call)
    requires Inv(s) && Legal(s, c) && s.closed == [] && !c.action.Draining?
    ensures RecordsQueued(s, Next(s, c))
  {
    hide Core, Ranked, Conserving, Marked, Tuned, Prepare, RunTail, TailOf, Rejected, TailAllowed, Perform;
    PerformShape(s, c);
    if Rejected(s, c) || c.now < s.lastNow {
      assert NewlyClosed(s, s) == [];
    } else {
      hide RecordsQueued;
      PrepareKeeps(s, c.now, c.wall);
      TailRecords(s, Prepare(s, c.now, c.wall), TailOf(s, Prepare(s, c.now, c.wall), c.action), c.now, c.wall);
    }
  }

  lemma LoggedOnce(live: set<NotificationId>, h: History, id: NotificationId)
    requires HistoryOk(live, h) && id in LogIds(h.log)
    ensures exists i :: 0 <= i < |h.log| && h.log[i].id == id && h.log[i].closeReason.Some?
              && forall j :: 0 <= j < |h.log| && h.log[j].id == id ==> j == i
  {
    var n :| n in h.log && n.id == id;
    var i :| 0 <= i < |h.log| && h.log[i] == n;
    assert forall j :: 0 <= j < |h.log| && h.log[j].id == id ==> j == i;
  }

  lemma LogTellsAll(s: State, id: NotificationId)
    requires Inv(s) && id in s.history.submitted
    ensures var log := s.history.log;
            && (id in s.entries <==> forall i :: 0 <= i < |log| ==> log[i].id != id)
            && (id !in s.entries ==>
                  exists i :: 0 <= i < |log| && log[i].id == id && log[i].closeReason.Some?
                    && forall j :: 0 <= j < |log| && log[j].id == id ==> j == i)
  {
    hide Core;
    CoreHistory(s);
    var log := s.history.log;
    assert forall i :: 0 <= i < |log| ==> log[i].id in LogIds(log);
    if id !in s.entries {
      LoggedOnce(s.entries.Keys, s.history, id);
    }
  }

  // ---------- the panic ----------

  ghost function PinnedIds(e: Entries): set<NotificationId> {
    set id | id in e && e[id].jumpNonce.Some?
  }

  lemma {:induction false} PinnedDistinct(e: Entries, ids: seq<NotificationId>)
    requires Distinct(ids)
    ensures Distinct(Pinned(e, ids))
  {
    if ids != [] {
      PinnedDistinct(e, ids[1..]);
      assert ids[0] !in ids[1..];
      var rest := Pinned(e, ids[1..]);
      assert ids[0] !in rest;
      PrependedDistinct(ids[0], rest);
    }
  }

  lemma PrependedDistinct<T>(x: T, s: seq<T>)
    requires Distinct(s) && x !in s
    ensures Distinct([x] + s)
  {
    var r := [x] + s;
    forall i, j | 0 <= i < j < |r| ensures r[i] != r[j] {
      assert r[j] == s[j - 1];
      if i > 0 { assert r[i] == s[i - 1]; }
    }
  }

  lemma FewPinned(s: State, p: State)
    requires Contained(p.entries, p.pending, p.active, p.attention)
    requires PinsFrom(s, p) && p.nextNonce == s.nextNonce && |PinnedIds(s.entries)| <= p.limits.maxPending
    ensures !OverPinned(p)
  {
    var ids := Pinned(p.entries, p.pending);
    PinnedDistinct(p.entries, p.pending);
    DistinctSize(ids);
    assert forall id :: id in ids ==> IsPinned(p.entries, id);
    SubsetSize(ToSet(ids), PinnedIds(s.entries));
  }

  /** With no more jumps outstanding than the queue may hold, no operation can panic: the
      only other duties are a fresh id and a true enumeration of the live ids. */
  lemma FewJumpsNeverPanic(s: State, c: Call)
    requires Inv(s) && s.lastNow <= c.now && !c.action.Draining?
    requires c.action.Submitting? ==>
      c.action.newId !in s.history.submitted && |PinnedIds(s.entries)| <= s.limits.maxPending
    requires c.action.SettingLimits? ==> |PinnedIds(s.entries)| <= c.action.limits.maxPending
    requires c.action.ShuttingDown? ==> ToSet(c.action.order) == Prepare(s, c.now, c.wall).entries.Keys
    ensures Legal(s, c)
  {
    var t := Prepare(s, c.now, c.wall);
    hide Inv, Tuned, Exact, Prepare, OverPinned, PinsFrom, Rejected, Derived, TailAllowed, ClosedSome;
    PrepareKeeps(s, c.now, c.wall);
    PreparePins(s, c.now, c.wall);
    TailNeverPanics(s, t, c);
  }

  lemma TailNeverPanics(s: State, t: State, c: Call)
    requires PinsFrom(s, t) && t.nextNonce == s.nextNonce && t.limits == s.limits && !c.action.Draining?
    requires Inv(t) && t.lastNow == c.now && t.history.submitted == s.history.submitted
    requires c.action.Submitting? ==>
      c.action.newId !in s.history.submitted && |PinnedIds(s.entries)| <= s.limits.maxPending
    requires c.action.SettingLimits? ==> |PinnedIds(s.entries)| <= c.action.limits.maxPending
    requires c.action.ShuttingDown? ==> ToSet(c.action.order) == t.entries.Keys
    ensures TailAllowed(t, TailOf(s, t, c.action), c.now, c.wall)
  {
    var tail := TailOf(s, t, c.action);
    TailOfShape(s, t, c.action);
    hide Inv, Placed, Relimited, OverPinned, PinsFrom, PinnedIds, KeyIsLive, TailOf;
    InvIsCore(t);
    TailOfAllowed(s, t, c.action);
    match tail
    case Place(id, draft) => PlacedNeverPanics(s, t, id, draft, c.now, c.wall);
    case Relimit(l) => RelimitedNeverPanics(s, t, l, c.now, c.wall);
    case _ =>
  }

  lemma TailOfShape(s: State, t: State, a: Action)
    ensures var tail := TailOf(s, t, a);
            && (tail.Place? ==> a == Submitting(tail.draft, tail.id) && !KeyIsLive(t, tail.draft))
            && (tail.Relimit? ==> a == SettingLimits(tail.limits))
            && (tail.CloseEvery? ==> a.ShuttingDown? && a.order == tail.order)
  {
    hide KeyIsLive;
  }

  lemma PlacedNeverPanics(s: State, t: State, id: NotificationId, draft: Draft, now: Instant, wall: WallTime)
    requires PinsFrom(s, t) && t.nextNonce == s.nextNonce && |PinnedIds(s.entries)| <= t.limits.maxPending
    requires Inv(t) && t.lastNow == now && id !in t.history.submitted && !KeyIsLive(t, draft)
    ensures !OverPinned(Placed(t, id, draft, now, wall))
  {
    var p := Placed(t, id, draft, now, wall);
    PlacedNonce(t, id, draft, now, wall);
    hide Core, Ranked, Conserving, Marked, Tuned, Tallied, Unspent, Placed, OverPinned, PinsFrom, Contained;
    PlacedKeeps(t, id, draft, now, wall);
    PlacedPins(t, id, draft, now, wall);
    PinsCompose(s, t, p);
    CoreParts(p);
    FewPinned(s, p);
  }

  lemma PlacedNonce(t: State, id: NotificationId, draft: Draft, now: Instant, wall: WallTime)
    ensures Placed(t, id, draft, now, wall).nextNonce == t.nextNonce
  {
  }

  lemma RelimitedNonce(t: State, l: Limits, now: Instant, wall: WallTime)
    ensures Relimited(t, l, now, wall).nextNonce == t.nextNonce
  {
  }

  lemma RelimitedNeverPanics(s: State, t: State, l: Limits, now: Instant, wall: WallTime)
    requires PinsFrom(s, t) && t.nextNonce == s.nextNonce && |PinnedIds(s.entries)| <= l.maxPending
    requires Inv(t) && t.lastNow == now
    ensures !OverPinned(Relimited(t, l, now, wall))
  {
    var p := Relimited(t, l, now, wall);
    RelimitedNonce(t, l, now, wall);
    hide Core, Ranked, Conserving, Marked, Tuned, Tallied, Unspent, Relimited, OverPinned, PinsFrom, Contained;
    RelimitedKeeps(t, l, now, wall);
    RelimitedPins(t, l, now, wall);
    PinsCompose(s, t, p);
    CoreParts(p);
    FewPinned(s, p);
  }
}
