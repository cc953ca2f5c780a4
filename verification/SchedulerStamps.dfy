/** When a Notification was made, last touched and first displayed, and what the two counters
    and the settings tell: laws of every single call, on live and recorded Notifications. */
module SchedulerStamps {
  import opened Wrappers
  import opened Notifications
  import opened Seqs
  import opened SchedulerModel
  import opened SchedulerInvariant
  import opened SchedulerSteps
  import opened SchedulerOperations
  import opened SchedulerRuns
  import opened SchedulerTimeouts
  import opened SchedulerRecords
  import opened SchedulerContents

  // ---------- wall-clock stamps ----------

  /** A Notification keeps the time it was made, and is stamped anew if anything about it
      changes; a new one is made now. */
  ghost predicate LiveAged(s: State, id: NotificationId, n: Notification, wall: WallTime) {
    if id in s.entries then
      var o := s.entries[id].notification;
      n.createdAt == o.createdAt && (n == o || n.updatedAt == wall)
    else n.createdAt == wall && n.updatedAt == wall
  }

  ghost predicate RecordAged(s: State, n: Notification, wall: WallTime) {
    && n.updatedAt == wall
    && n.createdAt == if n.id in s.entries then s.entries[n.id].notification.createdAt else wall
  }

  ghost predicate Aged(s: State, r: State, wall: WallTime) {
    && s.history.log <= r.history.log
    && (forall id :: id in r.entries ==> LiveAged(s, id, r.entries[id].notification, wall))
    && (forall n :: n in NewlyClosed(s, r) ==> RecordAged(s, n, wall))
  }

  /** What is gone at `m` does not come back under the same id. */
  ghost predicate NoReturn(s: State, m: State, r: State) {
    && (forall id :: id in r.entries && id in s.entries ==> id in m.entries)
    && (forall n :: n in NewlyClosed(m, r) && n.id in s.entries ==> n.id in m.entries)
  }

  lemma AgedSame(s: State, r: State, wall: WallTime)
    requires r.history.log == s.history.log
    requires forall id :: id in r.entries ==>
      id in s.entries && r.entries[id].notification == s.entries[id].notification
    ensures Aged(s, r, wall)
  {
    assert NewlyClosed(s, r) == [];
  }

  lemma AgedCompose(s: State, m: State, r: State, wall: WallTime)
    requires Aged(s, m, wall) && Aged(m, r, wall) && NoReturn(s, m, r)
    ensures Aged(s, r, wall)
  {
    NewlyClosedCompose(s.history.log, m.history.log, r.history.log);
    assert NewlyClosed(s, r) == NewlyClosed(s, m) + NewlyClosed(m, r);
    hide NewlyClosed;
  }

  /** Nothing new appears from `m` on, so nothing returns. */
  lemma AgedOn(s: State, m: State, r: State, wall: WallTime)
    requires Aged(s, m, wall) && Aged(m, r, wall)
    requires r.entries.Keys <= m.entries.Keys && forall n :: n in NewlyClosed(m, r) ==> n.id in m.entries
    ensures Aged(s, r, wall)
  {
    hide Aged, NewlyClosed;
    AgedCompose(s, m, r, wall);
  }

  /** Only closing: what is left is untouched, and the records are of what is gone. */
  ghost predicate OnlyCloses(s: State, r: State, wall: WallTime) {
    && Aged(s, r, wall) && r.entries.Keys <= s.entries.Keys
    && (forall id :: id in r.entries ==> r.entries[id].notification == s.entries[id].notification)
    && (forall n :: n in NewlyClosed(s, r) ==> n.id in s.entries)
  }

  lemma CloseInnerAged(s: State, id: NotificationId, reason: CloseReason, wall: WallTime)
    requires Named(s.entries)
    ensures OnlyCloses(s, CloseInner(s, id, reason, wall), wall)
  {
    var r := CloseInner(s, id, reason, wall);
    if id in s.entries {
      assert NewlyClosed(s, r) == [s.entries[id].notification.Close(reason, wall)];
    } else {
      AgedSame(s, r, wall);
      assert NewlyClosed(s, r) == [];
    }
  }

  lemma ClosesCompose(s: State, m: State, r: State, wall: WallTime)
    requires OnlyCloses(s, m, wall) && OnlyCloses(m, r, wall)
    ensures OnlyCloses(s, r, wall)
  {
    hide Aged, NewlyClosed;
    AgedOn(s, m, r, wall);
    AgedLogs(s, m, wall);
    AgedLogs(m, r, wall);
    NewlyClosedCompose(s.history.log, m.history.log, r.history.log);
    RecordsOfBoth(s, m, r);
  }

  lemma AgedLogs(s: State, r: State, wall: WallTime)
    requires Aged(s, r, wall)
    ensures s.history.log <= r.history.log
  {
  }

  lemma RecordsOfBoth(s: State, m: State, r: State)
    requires s.history.log <= m.history.log <= r.history.log
    ensures forall n :: n in NewlyClosed(s, r) ==> n in NewlyClosed(s, m) || n in NewlyClosed(m, r)
  {
    NewlyClosedCompose(s.history.log, m.history.log, r.history.log);
  }

  lemma {:induction false} CloseAllAged(s: State, ids: seq<NotificationId>, reason: CloseReason, wall: WallTime)
    requires Named(s.entries)
    ensures OnlyCloses(s, CloseAll(s, ids, reason, wall), wall)
    decreases |ids|
  {
    if ids == [] {
      ClosesNothing(s, wall);
    } else {
      CloseInnerAged(s, ids[0], reason, wall);
      CloseInnerNamed(s, ids[0], reason, wall);
      hide Named, OnlyCloses, CloseInner;
      CloseAllAged(CloseInner(s, ids[0], reason, wall), ids[1..], reason, wall);
      ClosesCompose(s, CloseInner(s, ids[0], reason, wall), CloseAll(s, ids, reason, wall), wall);
    }
  }

  lemma ClosesNothing(s: State, wall: WallTime)
    ensures OnlyCloses(s, s, wall)
  {
    AgedSame(s, s, wall);
    assert NewlyClosed(s, s) == [];
  }

  lemma {:induction false} EnforceAged(s: State, wall: WallTime)
    requires Named(s.entries)
    ensures OnlyCloses(s, Enforce(s, wall), wall)
    decreases |s.pending|
  {
    var i := LastUnpinned(s.entries, s.pending);
    if |s.pending| > s.limits.maxPending && i < |s.pending| {
      var m := CloseInner(s, s.pending[i], RenderSuppressed, wall);
      CloseInnerAged(s, s.pending[i], RenderSuppressed, wall);
      CloseInnerNamed(s, s.pending[i], RenderSuppressed, wall);
      EnforceAged(m, wall);
      hide Named, OnlyCloses, CloseInner;
      ClosesCompose(s, m, Enforce(s, wall), wall);
    } else {
      ClosesNothing(s, wall);
    }
  }

  // ---------- when it is first displayed ----------

  /** A Notification is marked as displayed if it was before or is on screen now. */
  ghost predicate Delivered(s: State, r: State) {
    forall id :: id in r.entries ==>
      (r.entries[id].notification.delivery == DeliveryState.Visible
       <==> (id in s.entries && s.entries[id].notification.delivery == DeliveryState.Visible) || r.OnScreen(id))
  }

  /** Nothing is marked as displayed in between, and what is new is not. */
  ghost predicate Undelivered(s: State, r: State) {
    forall id :: id in r.entries ==>
      (r.entries[id].notification.delivery == DeliveryState.Visible
       <==> id in s.entries && s.entries[id].notification.delivery == DeliveryState.Visible)
  }

  lemma DeliveredAfter(s: State, m: State, r: State)
    requires Undelivered(s, m) && Delivered(m, r) && r.entries.Keys <= m.entries.Keys
    ensures Delivered(s, r)
  {
  }

  /** Entries may go, and the rest stand where they stood. */
  lemma DeliveredBefore(s: State, m: State, r: State)
    requires Delivered(s, m) && r.entries.Keys <= m.entries.Keys
    requires forall id :: id in r.entries ==> r.entries[id].notification == m.entries[id].notification
    requires r.active == m.active && r.attention == m.attention && r.available == m.available
    ensures Delivered(s, r)
  {
  }

  /** Every live Notification is open. */
  ghost predicate Open(e: Entries) {
    forall id :: id in e ==> e[id].notification.delivery != Closed
  }

  lemma CoreOpen(s: State)
    requires Core(s)
    ensures Open(s.entries) && Named(s.entries)
  {
    CoreNamed(s);
    CoreEntries(s);
    hide Core, TimersStarted, Named;
    forall id | id in s.entries ensures s.entries[id].notification.delivery != Closed {
      assert EntryOk(id, s.entries[id]);
    }
  }

  lemma MarkedOne(f: State, id: NotificationId, wall: WallTime)
    requires id in f.entries && f.entries[id].notification.delivery != Closed
    ensures var n, o := MarkVisible(f, wall).entries[id].notification, f.entries[id].notification;
            && n.content == o.content && n.createdAt == o.createdAt && (n == o || n.updatedAt == wall)
            && (n.delivery == DeliveryState.Visible <==> o.delivery == DeliveryState.Visible || f.OnScreen(id))
  {
  }

  lemma MarkedStamps(f: State, wall: WallTime)
    requires Open(f.entries)
    ensures var m := MarkVisible(f, wall);
            && m.entries.Keys == f.entries.Keys && Delivered(f, m)
            && (forall id :: id in f.entries ==>
                  LiveAged(f, id, m.entries[id].notification, wall)
                  && m.entries[id].notification.content == f.entries[id].notification.content)
  {
    var m := MarkVisible(f, wall);
    assert m.entries.Keys == f.entries.Keys && forall id :: m.OnScreen(id) == f.OnScreen(id);
    hide MarkVisible;
    forall id | id in f.entries
      ensures LiveAged(f, id, m.entries[id].notification, wall)
              && m.entries[id].notification.content == f.entries[id].notification.content
      ensures m.entries[id].notification.delivery == DeliveryState.Visible
         <==> f.entries[id].notification.delivery == DeliveryState.Visible || m.OnScreen(id)
    {
      MarkedOne(f, id, wall);
    }
  }

  lemma SetTimersSame(m: State, now: Instant)
    ensures var r := SetTimers(m, now);
            && r.entries.Keys == m.entries.Keys
            && r.active == m.active && r.attention == m.attention && r.available == m.available
            && r.contentRevision == m.contentRevision
            && forall id :: id in m.entries ==> r.entries[id].notification == m.entries[id].notification
  {
  }

  /** What rebalancing leaves, whatever it promotes. */
  lemma RebalanceStamps(s: State, now: Instant, wall: WallTime)
    requires Open(s.entries)
    ensures var r := Rebalance(s, now, wall);
            && r.entries.Keys == s.entries.Keys && Delivered(s, r) && r.contentRevision == s.contentRevision
            && r.history == s.history
            && (forall id :: id in s.entries ==>
                  LiveAged(s, id, r.entries[id].notification, wall)
                  && r.entries[id].notification.content == s.entries[id].notification.content)
  {
    var f := FillToasts(PickAttention(s));
    assert f.entries == s.entries && f.contentRevision == s.contentRevision;
    var m := MarkVisible(f, wall);
    assert m.contentRevision == f.contentRevision;
    MarkedStamps(f, wall);
    SetTimersSame(m, now);
    RebalanceHistory(s, now, wall);
    hide PickAttention, FillToasts, MarkVisible, SetTimers, Open;
    DeliveredBefore(f, m, SetTimers(m, now));
  }

  // ---------- the content revision ----------

  /** The content revision only grows, and while it stands still the same Notifications are live
      and say the same. */
  ghost predicate ContentTold(s: State, r: State) {
    && s.contentRevision <= r.contentRevision
    && (s.contentRevision == r.contentRevision ==>
          && r.entries.Keys == s.entries.Keys
          && forall id :: id in s.entries ==> r.entries[id].notification.content == s.entries[id].notification.content)
  }

  lemma ToldCompose(s: State, m: State, r: State)
    requires ContentTold(s, m) && ContentTold(m, r)
    ensures ContentTold(s, r)
  {
  }

  lemma {:induction false} CloseAllTold(s: State, ids: seq<NotificationId>, reason: CloseReason, wall: WallTime)
    ensures var r := CloseAll(s, ids, reason, wall);
            s.contentRevision <= r.contentRevision && (s.contentRevision == r.contentRevision ==> r == s)
    decreases |ids|
  {
    if ids != [] {
      CloseAllTold(CloseInner(s, ids[0], reason, wall), ids[1..], reason, wall);
    }
  }

  lemma {:induction false} EnforceTold(s: State, wall: WallTime)
    ensures s.contentRevision <= Enforce(s, wall).contentRevision
    decreases |s.pending|
  {
    if Enforce(s, wall) != s {
      var id := s.pending[LastUnpinned(s.entries, s.pending)];
      EnforceTold(CloseInner(s, id, RenderSuppressed, wall), wall);
    }
  }

  // ---------- the parts of an operation ----------

  /** The stamps a step leaves. */
  ghost predicate Stamped(s: State, r: State, wall: WallTime) {
    Aged(s, r, wall) && Delivered(s, r)
  }

  /** Whatever was edited or closed, and then rebalanced. */
  lemma BalancedStamps(t: State, p: State, now: Instant, wall: WallTime)
    requires Aged(t, p, wall) && Undelivered(t, p) && Open(p.entries)
    ensures Stamped(t, Rebalance(p, now, wall), wall)
    ensures Rebalance(p, now, wall).contentRevision == p.contentRevision
    ensures ContentTold(p, Rebalance(p, now, wall))
  {
    var r := Rebalance(p, now, wall);
    hide Rebalance, Undelivered, Delivered, Open, Aged, LiveAged, NewlyClosed;
    RebalanceStamps(p, now, wall);
    BalancedAged(p, r, wall);
    AgedOn(t, p, r, wall);
    DeliveredAfter(t, p, r);
  }

  lemma BalancedAged(p: State, r: State, wall: WallTime)
    requires r.entries.Keys == p.entries.Keys && r.history.log == p.history.log
    requires forall id :: id in p.entries ==> LiveAged(p, id, r.entries[id].notification, wall)
    ensures Aged(p, r, wall) && NewlyClosed(p, r) == []
  {
    hide LiveAged, RecordAged;
    assert NewlyClosed(p, r) == [];
  }

  lemma ClosesUndelivered(s: State, c: State, wall: WallTime)
    requires OnlyCloses(s, c, wall) && Open(s.entries)
    ensures Undelivered(s, c) && Open(c.entries) && Aged(s, c, wall)
  {
    hide Aged;
  }

  /** Counters, places, pins and timers are not part of it. */
  lemma SameStamped(t: State, q: State, r: State, wall: WallTime)
    requires Stamped(t, q, wall) && r.history.log == q.history.log && r.entries == q.entries
    requires r.active == q.active && r.attention == q.attention && r.available == q.available
    ensures Stamped(t, r, wall)
  {
    hide LiveAged, RecordAged;
    DeliveredBefore(t, q, r);
    assert NewlyClosed(t, r) == NewlyClosed(t, q);
  }

  /** Displayed as before, with nothing newly on screen. */
  lemma StillDelivered(t: State, r: State)
    requires Marked(t) && Undelivered(t, r) && r.entries.Keys <= t.entries.Keys
    requires r.active == t.active && r.attention == t.attention && r.available == t.available
    ensures Delivered(t, r)
  {
  }

  /** The queue's limit enforced on what was just displayed. */
  lemma EnforcedStamped(t: State, p: State, wall: WallTime)
    requires Stamped(t, p, wall) && Core(p) && Ranked(p.entries, p.pending) && p.closedCapacity > 0
    ensures Stamped(t, Enforce(p, wall), wall)
  {
    var r := Enforce(p, wall);
    hide Core, Ranked, Aged, Delivered, Enforce, ClosedSome, OverPinned, Named, Open, Tallied, Tuned, Conserving,
      Marked;
    CoreOpen(p);
    EnforceAged(p, wall);
    EnforceKeeps(p, wall);
    AgedOn(t, p, r, wall);
    DeliveredBefore(t, p, r);
  }

  // ---------- time passing ----------

  lemma ElapseStamps(s: State, now: Instant, c: State, wall: WallTime)
    requires s.lastNow <= now
    ensures var e := Elapse(s, now);
            && e.entries == s.entries && e.contentRevision == s.contentRevision
            && (Stamped(e, c, wall) ==> Stamped(s, c, wall)) && (ContentTold(e, c) ==> ContentTold(s, c))
  {
    var e := Elapse(s, now);
    assert forall id, n :: LiveAged(e, id, n, wall) == LiveAged(s, id, n, wall);
    assert forall n :: RecordAged(e, n, wall) == RecordAged(s, n, wall);
    assert NewlyClosed(e, c) == NewlyClosed(s, c);
    hide LiveAged, RecordAged, NewlyClosed;
  }

  lemma PrepareStamps(s: State, now: Instant, wall: WallTime)
    requires Inv(s) && s.lastNow <= now
    ensures Stamped(s, Prepare(s, now, wall), wall) && ContentTold(s, Prepare(s, now, wall))
  {
    var e := Elapse(s, now);
    var c := Expire(e, wall);
    InvIsCore(s);
    CoreOpen(s);
    hide Inv, Core, Open, Named, Rebalance, Stamped, Aged, Undelivered, OnlyCloses, CloseAll, ExpiredIn;
    ElapseStamps(s, now, Rebalance(c, now, wall), wall);
    CloseAllAged(e, ExpiredIn(e.entries, e.active, e.lastNow), TimedOut, wall);
    ClosesUndelivered(e, c, wall);
    BalancedStamps(e, c, now, wall);
    CloseAllTold(e, ExpiredIn(e.entries, e.active, e.lastNow), TimedOut, wall);
    CloseTold(e, c);
    ToldCompose(e, c, Rebalance(c, now, wall));
  }

  lemma CloseTold(e: State, c: State)
    requires e.contentRevision <= c.contentRevision && (e.contentRevision == c.contentRevision ==> c == e)
    ensures ContentTold(e, c)
  {
  }

  // ---------- what follows ----------

  lemma CloseOneStamps(t: State, id: NotificationId, reason: CloseReason, now: Instant, wall: WallTime)
    requires Core(t) && id in t.entries
    ensures var r := Rebalance(CloseInner(t, id, reason, wall), now, wall); Stamped(t, r, wall) && ContentTold(t, r)
  {
    var c := CloseInner(t, id, reason, wall);
    CoreOpen(t);
    assert c.contentRevision > t.contentRevision;
    hide Core, Open, Named, Rebalance, Stamped, Aged, Undelivered, OnlyCloses, CloseInner;
    CloseInnerAged(t, id, reason, wall);
    ClosesUndelivered(t, c, wall);
    BalancedStamps(t, c, now, wall);
  }

  lemma CloseEveryStamps(t: State, order: seq<NotificationId>, reason: CloseReason, wall: WallTime)
    requires Core(t) && ToSet(order) == t.entries.Keys
    ensures Stamped(t, CloseAll(t, order, reason, wall), wall) && ContentTold(t, CloseAll(t, order, reason, wall))
  {
    var r := CloseAll(t, order, reason, wall);
    CoreOpen(t);
    hide Core, Open, Named, CloseAll, Aged, Ranked, Tallied;
    CloseAllAged(t, order, reason, wall);
    CloseAllKeeps(t, order, reason, wall);
    CloseAllTold(t, order, reason, wall);
    CloseTold(t, r);
    assert r.entries == map[];
  }

  lemma RevisedStamps(t: State, id: NotificationId, content: Draft, now: Instant, wall: WallTime)
    requires id in t.entries && Open(t.entries)
    ensures var u := Revised(t, id, content, now, wall);
            && Aged(t, u, wall) && Undelivered(t, u) && Open(u.entries) && u.contentRevision == t.contentRevision
            && u.entries.Keys == t.entries.Keys
            && u.active == t.active && u.attention == t.attention && u.available == t.available
  {
    assert NewlyClosed(t, Revised(t, id, content, now, wall)) == [];
  }

  lemma UpsertStamps(t: State, id: NotificationId, draft: Draft, now: Instant, wall: WallTime)
    requires Core(t) && id in t.entries
    ensures var r := Upserted(t, id, draft, now, wall);
            Stamped(t, r, wall) && r.contentRevision == t.contentRevision + 1
  {
    var u := Revised(t, id, draft, now, wall);
    var v := if draft.presentation != t.entries[id].Presentation() then Requeued(u, id) else u;
    var p := SortPending(v);
    assert p.entries == u.entries && p.history == u.history && p.contentRevision == u.contentRevision;
    CoreOpen(t);
    hide Core, Rebalance, SortPending, Requeued, Revised, Stamped, Open, Named;
    RevisedStamps(t, id, draft, now, wall);
    SameAged(t, u, p, wall);
    hide Aged, Undelivered;
    BalancedStamps(t, p, now, wall);
    SameStamped(t, Rebalance(p, now, wall), BumpContent(Rebalance(p, now, wall)), wall);
  }

  lemma SameAged(t: State, u: State, p: State, wall: WallTime)
    requires Aged(t, u, wall) && Undelivered(t, u) && p.entries == u.entries && p.history.log == u.history.log
    ensures Aged(t, p, wall) && Undelivered(t, p)
  {
    assert NewlyClosed(t, p) == NewlyClosed(t, u);
    hide LiveAged, RecordAged, NewlyClosed;
  }

  lemma AdmittedStamps(t: State, id: NotificationId, draft: Draft, wall: WallTime)
    requires id !in t.entries && Open(t.entries)
    ensures var a := Admitted(t, id, draft, wall); Aged(t, a, wall) && Undelivered(t, a) && Open(a.entries)
  {
    assert NewlyClosed(t, Admitted(t, id, draft, wall)) == [];
  }

  lemma PlaceStamps(t: State, id: NotificationId, draft: Draft, now: Instant, wall: WallTime)
    requires Inv(t) && Core(t) && t.lastNow == now && id !in t.history.submitted && !KeyIsLive(t, draft)
    ensures var r := BumpContent(Enforce(Placed(t, id, draft, now, wall), wall));
            Stamped(t, r, wall) && r.contentRevision > t.contentRevision
  {
    var a := Admitted(t, id, draft, wall);
    var p := SortPending(a);
    var q := Placed(t, id, draft, now, wall);
    assert p.entries == a.entries && p.history == a.history && p.contentRevision == a.contentRevision;
    assert a.contentRevision == t.contentRevision;
    CoreOpen(t);
    CoreHistory(t);
    hide Inv, Core, Rebalance, SortPending, Admitted, Stamped, Open, Named, Enforce, KeyIsLive, Settled, Exact, Ranked;
    AdmittedStamps(t, id, draft, wall);
    SameAged(t, a, p, wall);
    hide Aged, Undelivered;
    BalancedStamps(t, p, now, wall);
    PlacedKeeps(t, id, draft, now, wall);
    SettledQueue(q);
    PlacedCapacity(t, id, draft, now, wall);
    EnforcedStamped(t, q, wall);
    EnforceTold(q, wall);
    SameStamped(t, Enforce(q, wall), BumpContent(Enforce(q, wall)), wall);
  }

  lemma PlacedCapacity(t: State, id: NotificationId, draft: Draft, now: Instant, wall: WallTime)
    requires Inv(t)
    ensures Placed(t, id, draft, now, wall).closedCapacity > 0
  {
    hide Core, Ranked, Conserving, Marked;
    assert Placed(t, id, draft, now, wall).closedCapacity == t.closedCapacity;
  }

  lemma DeferredStamps(t: State, m: State, now: Instant, wall: WallTime)
    requires m.entries == t.entries && m.history == t.history && Open(t.entries)
    ensures var d := Deferred(m, now);
            && Aged(t, d, wall) && Undelivered(t, d) && Open(d.entries) && d.contentRevision == m.contentRevision
  {
    AgedSame(t, Deferred(m, now), wall);
  }

  lemma RelimitStamps(t: State, limits: Limits, now: Instant, wall: WallTime)
    requires Inv(t) && Core(t) && t.lastNow == now
    ensures var u := Enforce(Relimited(t, limits, now, wall), wall);
            var r := BumpContent(u.(closed := LastN(u.closed, u.closedCapacity)));
            Stamped(t, r, wall) && r.contentRevision > t.contentRevision
  {
    var m := t.(limits := limits, closedCapacity := Capacity(limits));
    var d := Deferred(m, now);
    var p := SortPending(d);
    var q := Relimited(t, limits, now, wall);
    assert p.entries == d.entries && p.history == d.history && p.contentRevision == d.contentRevision;
    CoreOpen(t);
    hide Inv, Core, Rebalance, SortPending, Deferred, Stamped, Open, Named, Enforce, Settled, Exact, Ranked;
    DeferredStamps(t, m, now, wall);
    SameAged(t, d, p, wall);
    hide Aged, Undelivered;
    BalancedStamps(t, p, now, wall);
    RelimitedKeeps(t, limits, now, wall);
    SettledQueue(q);
    EnforcedStamped(t, q, wall);
    EnforceTold(q, wall);
    var u := Enforce(q, wall);
    SameStamped(t, u, BumpContent(u.(closed := LastN(u.closed, u.closedCapacity))), wall);
  }

  lemma ReviseStamps(t: State, id: NotificationId, update: Update, now: Instant, wall: WallTime)
    requires Core(t) && Marked(t)
    ensures var r := ApplyUpdate(t, id, update, now, wall).0; Stamped(t, r, wall) && ContentTold(t, r)
  {
    CoreOpen(t);
    SameStamps(t, t, wall);
    if id in t.entries {
      var c := Merged(t.entries[id].notification.content, update);
      var u := Revised(t, id, c, now, wall);
      var r := BumpContent(SortPending(u));
      assert r.entries == u.entries && r.history == u.history && r.active == u.active && r.attention == u.attention
             && r.available == u.available && r.contentRevision == u.contentRevision + 1;
      hide Core, Marked, SortPending, Revised, Open, Named, Merged;
      RevisedStamps(t, id, c, now, wall);
      SameAged(t, u, r, wall);
      hide Aged, Undelivered, Delivered;
      StillDelivered(t, r);
    }
  }

  /** Nothing about any Notification is touched, and the screen is the same. */
  lemma SameStamps(t: State, r: State, wall: WallTime)
    requires Marked(t) && r.history.log == t.history.log && r.entries.Keys == t.entries.Keys
    requires forall id :: id in t.entries ==> r.entries[id].notification == t.entries[id].notification
    requires r.active == t.active && r.attention == t.attention && r.available == t.available
    requires r.contentRevision == t.contentRevision
    ensures Stamped(t, r, wall) && ContentTold(t, r)
  {
    AgedSame(t, r, wall);
    hide Aged;
    StillDelivered(t, r);
  }

  lemma AvailableStamps(t: State, a: bool, now: Instant, wall: WallTime)
    requires Core(t)
    ensures var r := Rebalance(if t.available != a then BumpRevision(t.(available := a)) else t, now, wall);
            Stamped(t, r, wall) && ContentTold(t, r)
  {
    var u := if t.available != a then BumpRevision(t.(available := a)) else t;
    CoreOpen(t);
    AgedSame(t, u, wall);
    assert Undelivered(t, u);
    hide Core, Rebalance, Stamped, Open, Named, Aged, Undelivered;
    BalancedStamps(t, u, now, wall);
    assert ContentTold(t, u);
    ToldCompose(t, u, Rebalance(u, now, wall));
  }

  lemma PinStamps(t: State, id: NotificationId, wall: WallTime)
    requires Marked(t)
    ensures var r := BeginJumpInner(t, id).0; Stamped(t, r, wall) && ContentTold(t, r)
  {
    SameStamps(t, BeginJumpInner(t, id).0, wall);
  }

  lemma UnpinStamps(t: State, intent: JumpIntent, wall: WallTime)
    requires Marked(t) && Outstanding(t, intent)
    ensures var r := Repinned(t, intent.id, None, true); Stamped(t, r, wall) && ContentTold(t, r)
  {
    SameStamps(t, Repinned(t, intent.id, None, true), wall);
  }

  lemma AfterStamps(t: State, tail: Tail, now: Instant, wall: WallTime)
    requires Inv(t) && Core(t) && Marked(t) && t.lastNow == now && TailAllowed(t, tail, now, wall)
    ensures var r := RunTail(t, tail, now, wall); Stamped(t, r, wall) && ContentTold(t, r)
  {
    hide Inv, Core, Marked, Stamped, Rebalance, CloseInner, CloseAll, Enforce, OverPinned, Placed, Relimited,
      Upserted, ApplyUpdate, BeginJumpInner, Repinned, Outstanding, KeyIsLive;
    SameStamps(t, t, wall);
    match tail
    case Stay =>
    case CloseOne(id, reason) => if id in t.entries { CloseOneStamps(t, id, reason, now, wall); }
    case CloseEvery(order, reason) => CloseEveryStamps(t, order, reason, wall);
    case Upsert(id, draft) => UpsertStamps(t, id, draft, now, wall);
    case Place(id, draft) => PlaceStamps(t, id, draft, now, wall);
    case Revise(id, update) => ReviseStamps(t, id, update, now, wall);
    case MakeAvailable(a) => AvailableStamps(t, a, now, wall);
    case Relimit(limits) => RelimitStamps(t, limits, now, wall);
    case Pin(id) => PinStamps(t, id, wall);
    case Unpin(intent) => if Outstanding(t, intent) { UnpinStamps(t, intent, wall); }
  }

  // ---------- one call ----------

  /** A tail writes about what is live or new, so no id of before comes back. */
  lemma NothingReturns(s: State, t: State, tail: Tail, r: State)
    requires Carries(t, r, TailEdits(t, tail)) && Core(s) && s.history.submitted <= t.history.submitted
    requires tail.Upsert? ==> tail.id in t.entries
    requires tail.Place? ==> tail.id !in t.history.submitted
    ensures NoReturn(s, t, r)
  {
    CoreHistory(s);
    hide Core, NewlyClosed, Merged;
    assert forall id :: id in TailEdits(t, tail) ==> id in t.entries || id !in t.history.submitted;
  }

  /** Over any call: a Notification keeps the time it was made and is stamped with the time of
      the call if anything about it changed, a new one is made at that time, and a record is
      stamped with it. The content revision moves whenever one is made, closed or rewritten. */
  lemma StampsTell(s: State, c: Call)
    requires Inv(s) && Legal(s, c)
    ensures Aged(s, Next(s, c), c.wall) && ContentTold(s, Next(s, c))
  {
    hide Inv, Core, Aged, ContentTold, Stamped, RunTail, TailOf, TailAllowed, Prepare, Rejected, Marked;
    AgedSame(s, s, c.wall);
    AgedSame(s, DrainClosed(s).0, c.wall);
    NothingTold(s);
    if !c.action.Draining? {
      PerformShape(s, c);
      if !Rejected(s, c) && s.lastNow <= c.now {
        CallStamps(s, c);
      }
    }
  }

  lemma NothingTold(s: State)
    ensures ContentTold(s, s) && ContentTold(s, DrainClosed(s).0)
  {
  }

  lemma CallStamps(s: State, c: Call)
    requires Inv(s) && Legal(s, c) && !c.action.Draining? && !Rejected(s, c) && s.lastNow <= c.now
    ensures var t := Prepare(s, c.now, c.wall);
            && Stamped(s, t, c.wall) && Stamped(t, Next(s, c), c.wall)
            && Aged(s, Next(s, c), c.wall) && ContentTold(s, Next(s, c)) && NoReturn(s, t, Next(s, c))
  {
    var t := Prepare(s, c.now, c.wall);
    var tail := TailOf(s, t, c.action);
    hide Inv, Core, Aged, ContentTold, Delivered, RunTail, TailOf, Prepare, Rejected, Exact, Tuned, ClosedSome,
      Derived, Carries, TailEdits, NoReturn, Ranked, Conserving;
    PerformShape(s, c);
    PrepareKeeps(s, c.now, c.wall);
    InvMarked(t);
    InvIsCore(s);
    PrepareStamps(s, c.now, c.wall);
    AfterStamps(t, tail, c.now, c.wall);
    AfterCarries(t, tail, c.now, c.wall);
    TailNew(t, tail, c.now, c.wall);
    NothingReturns(s, t, tail, RunTail(t, tail, c.now, c.wall));
    AgedCompose(s, t, RunTail(t, tail, c.now, c.wall), c.wall);
    ToldCompose(s, t, RunTail(t, tail, c.now, c.wall));
  }

  lemma InvMarked(t: State)
    requires Inv(t)
    ensures Core(t) && Marked(t)
  {
    hide Core, Marked, Ranked, Conserving;
  }

  lemma TailNew(t: State, tail: Tail, now: Instant, wall: WallTime)
    requires TailAllowed(t, tail, now, wall)
    ensures tail.Upsert? ==> tail.id in t.entries
    ensures tail.Place? ==> tail.id !in t.history.submitted
  {
    hide OverPinned, Placed, Relimited, KeyIsLive;
  }

  /** A live Notification counts as displayed exactly if it did before, or if it is on screen
      once the time of the call has passed, or when the call is done. */
  lemma DisplayedTells(s: State, c: Call, id: NotificationId)
    requires Inv(s) && Legal(s, c) && id in Next(s, c).entries
    requires !c.action.Draining? && !Rejected(s, c) && s.lastNow <= c.now
    ensures var t, r := Advance(s, c.now, c.wall).0, Next(s, c);
            (r.entries[id].notification.delivery == DeliveryState.Visible)
            == ((id in s.entries && s.entries[id].notification.delivery == DeliveryState.Visible)
                || (id in t.entries && t.OnScreen(id)) || r.OnScreen(id))
  {
    hide Inv, Aged, Prepare, Rejected, Legal, ContentTold, NewlyClosed, Next;
    CallStamps(s, c);
  }

  // ---------- the clock and the settings ----------

  /** The call reads the clock and is not refused for it. */
  predicate Accepted(s: State, c: Call) {
    !c.action.Draining? && !Rejected(s, c) && s.lastNow <= c.now
  }

  /** These calls name no Notification, so only their time can be refused. */
  predicate Unconditional(a: Action) {
    a.Submitting? || a.ShuttingDown? || a.SettingAvailable? || a.SettingLimits? || a.Advancing?
  }

  lemma RebalanceSettings(s: State, now: Instant, wall: WallTime)
    ensures var r := Rebalance(s, now, wall);
            r.available == s.available && r.limits == s.limits && r.lastNow == s.lastNow
  {
  }

  lemma {:induction false} CloseAllSettings(s: State, ids: seq<NotificationId>, reason: CloseReason, wall: WallTime)
    ensures var r := CloseAll(s, ids, reason, wall);
            r.available == s.available && r.limits == s.limits && r.lastNow == s.lastNow
    decreases |ids|
  {
    if ids != [] { CloseAllSettings(CloseInner(s, ids[0], reason, wall), ids[1..], reason, wall); }
  }

  lemma {:induction false} EnforceSettings(s: State, wall: WallTime)
    ensures var r := Enforce(s, wall); r.available == s.available && r.limits == s.limits && r.lastNow == s.lastNow
    decreases |s.pending|
  {
    var i := LastUnpinned(s.entries, s.pending);
    if |s.pending| > s.limits.maxPending && i < |s.pending| {
      EnforceSettings(CloseInner(s, s.pending[i], RenderSuppressed, wall), wall);
    }
  }

  lemma SortedSettings(v: State, now: Instant, wall: WallTime)
    ensures var r := Rebalance(SortPending(v), now, wall);
            r.available == v.available && r.limits == v.limits && r.lastNow == v.lastNow
  {
    hide Rebalance;
    RebalanceSettings(SortPending(v), now, wall);
  }

  lemma AfterSettings(t: State, tail: Tail, now: Instant, wall: WallTime)
    ensures var r := RunTail(t, tail, now, wall);
            && r.available == (if tail.MakeAvailable? then tail.available else t.available)
            && r.limits == (if tail.Relimit? then tail.limits else t.limits) && r.lastNow == t.lastNow
  {
    hide Rebalance, CloseInner, CloseAll, Enforce, SortPending, Outstanding, Merged;
    match tail
    case Stay =>
    case CloseOne(id, reason) =>
      RebalanceSettings(CloseInner(t, id, reason, wall), now, wall);
      CloseAllSettings(t, [id], reason, wall);
      CloseInnerSettings(t, id, reason, wall);
    case CloseEvery(order, reason) => CloseAllSettings(t, order, reason, wall);
    case Upsert(id, draft) => if id in t.entries { UpsertSettings(t, id, draft, now, wall); }
    case Place(id, draft) =>
      SortedSettings(Admitted(t, id, draft, wall), now, wall);
      EnforceSettings(Placed(t, id, draft, now, wall), wall);
    case Revise(id, update) => ReviseSettings(t, id, update, now, wall);
    case MakeAvailable(a) =>
      RebalanceSettings(if t.available != a then BumpRevision(t.(available := a)) else t, now, wall);
    case Relimit(limits) =>
      SortedSettings(Deferred(t.(limits := limits, closedCapacity := Capacity(limits)), now), now, wall);
      EnforceSettings(Relimited(t, limits, now, wall), wall);
    case Pin(id) =>
    case Unpin(intent) =>
  }

  lemma CloseInnerSettings(t: State, id: NotificationId, reason: CloseReason, wall: WallTime)
    ensures var r := CloseInner(t, id, reason, wall);
            r.available == t.available && r.limits == t.limits && r.lastNow == t.lastNow
  {
  }

  lemma UpsertSettings(t: State, id: NotificationId, draft: Draft, now: Instant, wall: WallTime)
    requires id in t.entries
    ensures var r := Upserted(t, id, draft, now, wall);
            r.available == t.available && r.limits == t.limits && r.lastNow == t.lastNow
  {
    var u := Revised(t, id, draft, now, wall);
    var v := if draft.presentation != t.entries[id].Presentation() then Requeued(u, id) else u;
    hide Rebalance, SortPending;
    SortedSettings(v, now, wall);
  }

  lemma ReviseSettings(t: State, id: NotificationId, update: Update, now: Instant, wall: WallTime)
    ensures var r := ApplyUpdate(t, id, update, now, wall).0;
            r.available == t.available && r.limits == t.limits && r.lastNow == t.lastNow
  {
    hide SortRanked, Merged;
  }

  lemma RefusedForTime(s: State, c: Call)
    requires Inv(s)
    ensures Perform(s, c).1 == Some(TimeWentBackwards)
       <==> !c.action.Draining? && !Rejected(s, c) && c.now < s.lastNow
    ensures Accepted(s, c) && Unconditional(c.action) ==> Perform(s, c).1.None?
  {
    hide Inv, Prepare, Rebalance, CloseInner, CloseAll, Enforce, Relimited, Placed, Upserted, Merged, SortPending,
      KeyIsLive;
  }

  /** Availability and limits are what was last set, the time is that of the last call that was
      not refused, and a call is refused for its time exactly if that lies before it. */
  lemma SettingsTell(s: State, c: Call)
    requires Inv(s)
    ensures var r := Next(s, c);
            && r.available == (if Accepted(s, c) && c.action.SettingAvailable? then c.action.available else s.available)
            && r.limits == (if Accepted(s, c) && c.action.SettingLimits? then c.action.limits else s.limits)
            && r.lastNow == (if Accepted(s, c) then c.now else s.lastNow)
            && (!Accepted(s, c) ==> r.entries == s.entries)
            && (Perform(s, c).1 == Some(TimeWentBackwards))
               == (!c.action.Draining? && !Rejected(s, c) && c.now < s.lastNow)
            && (Accepted(s, c) && Unconditional(c.action) ==> Perform(s, c).1.None?)
  {
    hide Inv, RunTail, Prepare, Exact, Tuned, Derived, ClosedSome;
    RefusedForTime(s, c);
    if !c.action.Draining? {
      PerformShape(s, c);
      if Accepted(s, c) {
        PrepareKeeps(s, c.now, c.wall);
        var t := Prepare(s, c.now, c.wall);
        AfterSettings(t, TailOf(s, t, c.action), c.now, c.wall);
      }
    }
  }
}
