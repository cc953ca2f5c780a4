/** Work conservation: nothing waits that could be shown, promotions follow rank, nothing
    is preempted, and the revision counter tells when the display plan can have changed. */
module SchedulerDisplay {
  import opened Wrappers
  import opened Notifications
  import opened Seqs
  import opened SchedulerModel
  import opened SchedulerInvariant
  import opened SchedulerSteps
  import opened SchedulerOperations
  import opened SchedulerRuns

  // ---------- rebalance has nothing to do between operations ----------

  lemma PickAttentionIdle(s: State)
    requires Contained(s.entries, s.pending, s.active, s.attention) && Conserving(s)
    ensures PickAttention(s) == s && FillToasts(s) == s
  {
    FirstOfAll(s.entries, s.pending, Attention);
  }

  lemma MarkVisibleIdle(s: State, wall: WallTime)
    requires Marked(s)
    ensures MarkVisible(s, wall) == s
  {
    assert MarkVisible(s, wall).entries == s.entries;
  }

  lemma SetTimersIdle(s: State, now: Instant)
    requires Tuned(s) && TimersStarted(s.entries, s.active, s.lastNow)
    ensures SetTimers(s, now) == s
  {
    forall id | id in s.entries && id in s.active
      ensures s.entries[id].timeout.Switched(now, s.Ticking(id)) == s.entries[id].timeout
    {
      assert TunedEntry(s, id, s.entries[id]);
    }
    assert SetTimers(s, now).entries == s.entries;
  }

  /** `rebalance` leaves a settled state alone, whatever the time. */
  lemma RebalanceIdle(s: State, now: Instant, wall: WallTime)
    requires Core(s) && Conserving(s) && Marked(s) && Tuned(s)
    ensures Rebalance(s, now, wall) == s
  {
    hide Core, Conserving, Marked, Tuned, Contained, TimersStarted, PickAttention, FillToasts, MarkVisible, SetTimers;
    CoreParts(s);
    PickAttentionIdle(s);
    MarkVisibleIdle(s, wall);
    SetTimersIdle(s, now);
  }

  /** The settled states are exactly the fixed points of `rebalance`. */
  lemma SettledIffFixed(s: State, wall: WallTime)
    requires Core(s) && Ranked(s.entries, s.pending)
    ensures Rebalance(s, s.lastNow, wall) == s <==> Conserving(s) && Marked(s) && Tuned(s)
  {
    hide Core, Ranked, Conserving, Marked, Tuned, Rebalance;
    RebalanceKeeps(s, s.lastNow, wall);
    if Conserving(s) && Marked(s) && Tuned(s) { RebalanceIdle(s, s.lastNow, wall); }
  }

  // ---------- promotion ----------

  lemma FirstOutranks(e: Entries, ids: seq<NotificationId>, p: Presentation, waiting: NotificationId)
    requires Ranked(e, ids) && Distinct(ids) && FirstOf(e, ids, p) < |ids|
    requires waiting in RemoveAt(ids, FirstOf(e, ids, p)) && waiting in e && e[waiting].Presentation() == p
    ensures Precedes(e, ids[FirstOf(e, ids, p)], waiting)
  {
    var i := FirstOf(e, ids, p);
    RemoveAtIsWithout(ids, i);
    var j :| 0 <= j < |ids| && ids[j] == waiting;
    assert i < j;
  }

  lemma PrefixOutranks(e: Entries, ids: seq<NotificationId>, k: nat, promoted: NotificationId, waiting: NotificationId)
    requires Ranked(e, ids) && k <= |ids| && promoted in ids && promoted !in ids[k..] && waiting in ids[k..]
    ensures Precedes(e, promoted, waiting)
  {
    var i :| 0 <= i < |ids| && ids[i] == promoted;
    var j :| 0 <= j < |ids[k..]| && ids[k..][j] == waiting;
    forall m | k <= m < |ids| ensures ids[m] in ids[k..] {
      assert ids[k..][m - k] == ids[m];
    }
    assert Precedes(e, ids[i], ids[k + j]);
  }

  /** With the Attention slot free, the head of the queue moves up in one piece. */
  lemma FilledFromHead(s: State)
    requires Core(s) && Ranked(s.entries, s.pending)
    requires s.available && s.attention.None? ==> AllToasts(s.entries)
    ensures var f := FillToasts(s);
            |s.active| <= |f.active| && |f.active| - |s.active| <= |s.pending|
            && f.pending == s.pending[|f.active| - |s.active|..]
  {
    hide Core, Ranked, Contained, FillToasts, AllToasts;
    FillToastsKeeps(s);
    var f := FillToasts(s);
    SplitTail(s.active, s.pending, f.active, f.pending);
  }

  lemma SplitTail<T>(a: seq<T>, p: seq<T>, b: seq<T>, q: seq<T>)
    requires a <= b && b + q == a + p
    ensures |b| - |a| <= |p| && q == p[|b| - |a|..]
  {
    assert |b| + |q| == |a| + |p|;
    assert q == (a + p)[|b|..];
  }

  /** What is promoted outranks everything of its kind that still waits. */
  lemma PromotionsFollowRank(s: State, now: Instant, wall: WallTime, promoted: NotificationId, waiting: NotificationId)
    requires Core(s) && Ranked(s.entries, s.pending)
    requires var r := Rebalance(s, now, wall);
             promoted in s.pending && promoted !in r.pending && waiting in r.pending
    requires promoted in s.entries && waiting in s.entries
    requires s.entries[promoted].Presentation() == s.entries[waiting].Presentation()
    ensures Precedes(s.entries, promoted, waiting)
  {
    var p := PickAttention(s);
    assert FillToasts(p).pending == Rebalance(s, now, wall).pending;
    hide Rebalance;
    assert p.attention != s.attention ==> FillToasts(p) == p;
    if p.attention != s.attention {
      AttentionOutranks(s, promoted, waiting);
    } else {
      hide Core, Ranked, FillToasts;
      PickAttentionKeeps(s);
      FilledFromHead(p);
      PrefixOutranks(s.entries, s.pending, |FillToasts(p).active| - |s.active|, promoted, waiting);
    }
  }

  lemma AttentionOutranks(s: State, promoted: NotificationId, waiting: NotificationId)
    requires Core(s) && Ranked(s.entries, s.pending) && PickAttention(s).attention != s.attention
    requires promoted in s.pending && promoted !in PickAttention(s).pending && waiting in PickAttention(s).pending
    requires promoted in s.entries && waiting in s.entries
    requires s.entries[promoted].Presentation() == s.entries[waiting].Presentation()
    ensures Precedes(s.entries, promoted, waiting)
  {
    hide Core;
    CoreParts(s);
    var i := FirstOf(s.entries, s.pending, Attention);
    assert Distinct(s.pending);
    hide Contained;
    RemoveAtIsWithout(s.pending, i);
    assert promoted == s.pending[i];
    FirstOutranks(s.entries, s.pending, Attention, waiting);
  }

  // ---------- what the display plan shows ----------

  /** An id is in the plan exactly when it is displayed: it has the Attention slot, or that is
      empty and the id is among the active toasts. */
  ghost predicate ShowsExactly(p: DisplayPlan, available: bool, attention: Option<NotificationId>,
                               active: seq<NotificationId>)
  {
    && (forall id :: (p.attention == Some(id) || id in p.toasts)
                     <==> (available && (attention == Some(id) || (attention.None? && id in active))))
    && (p.attention.Some? ==> p.toasts == []) && (p.toasts == [] || p.toasts == active) && Distinct(p.toasts)
  }

  /** The plan shows exactly what is on screen: the Attention alone, or the active toasts in
      their order; and while the display is available and anything is live, something. */
  lemma PlanTells(s: State)
    requires Inv(s)
    ensures var p := Plan(s);
            && ShowsExactly(p, s.available, s.attention, s.active) && |p.toasts| <= s.limits.maxVisible
            && (p.attention.Some? ==>
                  p.attention.value in s.entries && s.entries[p.attention.value].Presentation() == Attention)
            && (forall id :: id in p.toasts ==> id in s.entries && s.entries[id].Presentation() == Toast)
            && (s.available && s.entries != map[] ==> p.attention.Some? || p.toasts != [])
            && p.revision == s.revision
  {
    hide Inv, Core, Marked, Conserving, Contained, ShowsExactly, Distinct;
    SettledInv(s);
    CoreContained(s);
    BoundedActive(s);
    PlanShows(s);
    SomethingShown(s);
  }

  lemma PlanShows(s: State)
    requires Contained(s.entries, s.pending, s.active, s.attention)
    ensures var p := Plan(s);
            && ShowsExactly(p, s.available, s.attention, s.active)
            && (p.attention.Some? ==>
                  p.attention.value in s.entries && s.entries[p.attention.value].Presentation() == Attention)
            && (forall id :: id in p.toasts ==> id in s.entries && s.entries[id].Presentation() == Toast)
  {
  }

  lemma SomethingShown(s: State)
    requires Contained(s.entries, s.pending, s.active, s.attention) && Conserving(s)
    ensures s.available && s.entries != map[] ==> s.attention.Some? || s.active != []
  {
    if s.entries != map[] {
      var id :| id in s.entries;
      assert id in s.pending || id in s.active || s.attention == Some(id);
    }
  }

  lemma SettledInv(s: State)
    requires Inv(s)
    ensures Core(s) && Conserving(s) && Marked(s)
  {
    hide Core, Conserving, Marked;
  }

  lemma BoundedActive(s: State)
    requires Inv(s)
    ensures |s.active| <= s.limits.maxVisible
  {
    hide Core, Ranked, Conserving, Marked;
  }

  // ---------- the revision counter ----------

  /** What a reader of the display plan can see. */
  ghost predicate SameDisplay(s: State, r: State) {
    && Plan(r).attention == Plan(s).attention && Plan(r).toasts == Plan(s).toasts
    && r.entries.Keys == s.entries.Keys
    && (forall id :: id in s.entries ==> r.entries[id].notification == s.entries[id].notification)
  }

  /** The revision only grows, and while it stands still nothing visible changes. */
  ghost predicate RevisionTells(s: State, r: State) {
    s.revision <= r.revision && (s.revision == r.revision ==> SameDisplay(s, r))
  }

  lemma RevisionCompose(s: State, m: State, r: State)
    requires RevisionTells(s, m) && RevisionTells(m, r)
    ensures RevisionTells(s, r)
  {
  }

  lemma {:induction false} CloseAllRevision(s: State, ids: seq<NotificationId>, reason: CloseReason, wall: WallTime)
    ensures var r := CloseAll(s, ids, reason, wall);
            s.revision <= r.revision && (s.revision == r.revision ==> r == s)
    decreases |ids|
  {
    if ids != [] {
      CloseAllRevision(CloseInner(s, ids[0], reason, wall), ids[1..], reason, wall);
    }
  }

  lemma {:induction false} EnforceRevision(s: State, wall: WallTime)
    ensures s.revision <= Enforce(s, wall).revision
    decreases |s.pending|
  {
    if Enforce(s, wall) != s {
      var id := s.pending[LastUnpinned(s.entries, s.pending)];
      EnforceRevision(CloseInner(s, id, RenderSuppressed, wall), wall);
    }
  }

  lemma SetTimersRevision(s: State, now: Instant)
    ensures RevisionTells(s, SetTimers(s, now))
  {
    assert SetTimers(s, now).entries.Keys == s.entries.Keys;
  }

  lemma ElapseDisplay(s: State, now: Instant)
    requires s.lastNow <= now && Conserving(s) && Marked(s)
    ensures var e := Elapse(s, now);
            Conserving(e) && Marked(e) && RevisionTells(s, e) && e.entries == s.entries
            && e.pending == s.pending && e.active == s.active && e.attention == s.attention
  {
  }

  lemma PrepareRevision(s: State, now: Instant, wall: WallTime)
    requires Inv(s) && s.lastNow <= now
    ensures RevisionTells(s, Prepare(s, now, wall))
  {
    var e := Elapse(s, now);
    var c := Expire(e, wall);
    hide Core, Conserving, Marked, CloseAll, PickAttention, FillToasts, MarkVisible, SetTimers, Contained,
      RevisionTells;
    CoreParts(s);
    CloseAllRevision(e, ExpiredIn(e.entries, e.active, e.lastNow), TimedOut, wall);
    ElapseDisplay(s, now);
    RebalanceRevision(c, now, wall);
    if c == e {
      PickAttentionIdle(e);
      MarkVisibleIdle(e, wall);
      SetTimersRevision(e, now);
      RevisionCompose(s, e, Prepare(s, now, wall));
    } else {
      RevisionGrows(s, c, Prepare(s, now, wall));
    }
  }

  lemma RebalanceRevision(s: State, now: Instant, wall: WallTime)
    ensures Rebalance(s, now, wall).revision == s.revision
  {
  }

  lemma RevisionGrows(s: State, c: State, r: State)
    requires s.revision < c.revision <= r.revision
    ensures RevisionTells(s, r)
  {
  }

  lemma AfterRevision(t: State, tail: Tail, now: Instant, wall: WallTime)
    requires Inv(t) && Tuned(t)
    ensures RevisionTells(t, RunTail(t, tail, now, wall))
  {
    hide Core, Tuned, Conserving, Marked, Ranked, UnpinsTimer, OverPinned, Placed, Relimited, Upserted, BeginJumpInner;
    match tail
    case CloseOne(id, reason) =>
      RebalanceRevision(CloseInner(t, id, reason, wall), now, wall);
    case CloseEvery(order, reason) => CloseAllRevision(t, order, reason, wall);
    case Place(id, draft) =>
      PlacedRevision(t, id, draft, now, wall);
      EnforceRevision(Placed(t, id, draft, now, wall), wall);
    case Relimit(l) =>
      RelimitedRevision(t, l, now, wall);
      EnforceRevision(Relimited(t, l, now, wall), wall);
    case MakeAvailable(a) =>
      hide Rebalance;
      if t.available == a { RebalanceIdle(t, now, wall); } else {
        RebalanceRevision(BumpRevision(t.(available := a)), now, wall);
      }
    case Upsert(id, draft) => if id in t.entries { UpsertRevision(t, id, draft, now, wall); }
    case Revise(id, update) =>
    case Pin(id) => BeginRevision(t, id);
    case Unpin(intent) => if Outstanding(t, intent) { RepinnedRevision(t, intent.id, None, true); }
    case Stay =>
  }

  lemma BeginRevision(t: State, id: NotificationId)
    ensures RevisionTells(t, BeginJumpInner(t, id).0)
  {
    if id in t.entries { RepinnedRevision(t, id, Some(t.nextNonce), false); }
  }

  lemma UpsertRevision(t: State, id: NotificationId, draft: Draft, now: Instant, wall: WallTime)
    requires id in t.entries
    ensures Upserted(t, id, draft, now, wall).revision == t.revision + 1
  {
  }

  lemma RepinnedRevision(t: State, id: NotificationId, nonce: Option<nat>, running: bool)
    requires id in t.entries
    ensures RevisionTells(t, Repinned(t, id, nonce, running))
  {
    assert Repinned(t, id, nonce, running).entries.Keys == t.entries.Keys;
  }

  lemma PlacedRevision(t: State, id: NotificationId, draft: Draft, now: Instant, wall: WallTime)
    ensures Placed(t, id, draft, now, wall).revision == t.revision
  {
  }

  lemma RelimitedRevision(t: State, l: Limits, now: Instant, wall: WallTime)
    ensures Relimited(t, l, now, wall).revision == t.revision
  {
  }

  /** An unchanged revision means an unchanged display plan and unchanged Notifications,
      over any operation: a caller that polls the revision misses nothing. */
  lemma RevisionTellsChange(s: State, c: Call)
    requires Inv(s) && Legal(s, c)
    ensures RevisionTells(s, Next(s, c))
  {
    hide Core, Tuned, Conserving, Marked, Ranked, TailAllowed, RunTail, TailOf, Prepare, Rejected;
    if !c.action.Draining? {
      PerformShape(s, c);
      if !Rejected(s, c) && s.lastNow <= c.now {
        PrepareKeeps(s, c.now, c.wall);
        PrepareRevision(s, c.now, c.wall);
        var t := Prepare(s, c.now, c.wall);
        AfterRevision(t, TailOf(s, t, c.action), c.now, c.wall);
        RevisionCompose(s, t, Next(s, c));
      }
    }
  }

  // ---------- no preemption ----------

  /** The ids of the list that are still live. */
  function Surviving(ids: seq<NotificationId>, e: Entries): (r: seq<NotificationId>)
    ensures forall id :: id in r <==> id in ids && id in e
  {
    if ids == [] then []
    else (if ids[0] in e then [ids[0]] else []) + Surviving(ids[1..], e)
  }

  lemma {:induction false} SurvivingAppend(a: seq<NotificationId>, b: seq<NotificationId>, e: Entries)
    ensures Surviving(a + b, e) == Surviving(a, e) + Surviving(b, e)
  {
    if a == [] {
      assert a + b == b;
    } else {
      assert (a + b)[1..] == a[1..] + b;
      SurvivingAppend(a[1..], b, e);
    }
  }

  lemma {:induction false} SurvivingAll(a: seq<NotificationId>, e: Entries)
    requires forall id :: id in a ==> id in e
    ensures Surviving(a, e) == a
  {
    if a != [] { SurvivingAll(a[1..], e); }
  }

  lemma {:induction false} SurvivingTwice(a: seq<NotificationId>, e: Entries, f: Entries)
    requires forall id :: id in a && id in f ==> id in e
    ensures Surviving(Surviving(a, e), f) == Surviving(a, f)
  {
    if a != [] {
      SurvivingTwice(a[1..], e, f);
      assert a[0] in e ==> ([a[0]] + Surviving(a[1..], e))[1..] == Surviving(a[1..], e);
      assert a[0] !in e ==> Surviving(a, e) == Surviving(a[1..], e);
    }
  }

  lemma {:induction false} WithoutIsSurviving(a: seq<NotificationId>, e: Entries, id: NotificationId)
    requires forall x :: x in a ==> x in e
    ensures Without(a, id) == Surviving(a, e - {id})
  {
    if a != [] {
      assert a[0] in e;
      WithoutIsSurviving(a[1..], e, id);
    }
  }

  /** Active toasts that are still live stay active, in the same order, ahead of any
      newly promoted one. */
  ghost predicate KeepsOrder(s: State, r: State) {
    Surviving(s.active, r.entries) <= r.active
  }

  lemma PrefixSurvives(a: seq<NotificationId>, b: seq<NotificationId>, e: Entries)
    requires a <= b
    ensures Surviving(a, e) <= Surviving(b, e)
  {
    assert b == a + b[|a|..];
    SurvivingAppend(a, b[|a|..], e);
  }

  lemma KeepsOrderCompose(s: State, m: State, r: State)
    requires KeepsOrder(s, m) && KeepsOrder(m, r)
    requires forall id :: id in s.active && id in r.entries ==> id in m.entries
    ensures KeepsOrder(s, r)
  {
    SurvivingTwice(s.active, m.entries, r.entries);
    PrefixSurvives(Surviving(s.active, m.entries), m.active, r.entries);
  }

  lemma {:induction false} CloseAllOrder(s: State, ids: seq<NotificationId>, reason: CloseReason, wall: WallTime)
    requires forall id :: id in s.active ==> id in s.entries
    ensures var r := CloseAll(s, ids, reason, wall);
            r.active == Surviving(s.active, r.entries) && r.entries.Keys <= s.entries.Keys
            && (forall id :: id in r.active ==> id in r.entries)
    decreases |ids|
  {
    if ids == [] {
      SurvivingAll(s.active, s.entries);
    } else {
      var m := CloseInner(s, ids[0], reason, wall);
      assert m.active == Surviving(s.active, m.entries) by {
        if ids[0] in s.entries {
          WithoutIsSurviving(s.active, s.entries, ids[0]);
        } else {
          SurvivingAll(s.active, s.entries);
        }
      }
      CloseAllOrder(m, ids[1..], reason, wall);
      SurvivingTwice(s.active, m.entries, CloseAll(s, ids, reason, wall).entries);
    }
  }

  lemma CoreActive(s: State)
    requires Core(s)
    ensures forall id :: id in s.active ==> id in s.entries
  {
  }

  lemma RebalanceOrder(s: State, now: Instant, wall: WallTime)
    requires Core(s) && Ranked(s.entries, s.pending) && s.lastNow == now
    ensures KeepsOrder(s, Rebalance(s, now, wall)) && Rebalance(s, now, wall).entries.Keys == s.entries.Keys
  {
    CoreActive(s);
    hide Core, Ranked, Rebalance;
    RebalanceKeeps(s, now, wall);
    SurvivingAll(s.active, Rebalance(s, now, wall).entries);
  }

  lemma PrepareOrder(s: State, now: Instant, wall: WallTime)
    requires Inv(s) && s.lastNow <= now
    ensures KeepsOrder(s, Prepare(s, now, wall))
  {
    var e := Elapse(s, now);
    var c := Expire(e, wall);
    CoreActive(s);
    hide Core, Ranked, CloseAll, Rebalance, KeepsOrder;
    ElapseKeeps(s, now);
    ExpireKeeps(e, wall);
    CloseAllOrder(e, ExpiredIn(e.entries, e.active, now), TimedOut, wall);
    assert KeepsOrder(s, c) by { FromSurviving(s, c); }
    RebalanceOrder(c, now, wall);
    KeepsOrderCompose(s, c, Prepare(s, now, wall));
  }

  lemma FromSurviving(s: State, c: State)
    requires c.active == Surviving(s.active, c.entries)
    ensures KeepsOrder(s, c)
  {
  }

  /** The operation may take a live toast off the active list: an upsert that changes its
      presentation, or a lowered visible limit. */
  predicate TakesDown(t: State, tail: Tail) {
    || (tail.Upsert? && tail.id in t.entries && tail.draft.presentation != t.entries[tail.id].Presentation())
    || (tail.Relimit? && |t.active| > tail.limits.maxVisible)
  }

  lemma SettleOrder(v: State, now: Instant, wall: WallTime)
    requires Core(v) && v.lastNow == now
    ensures KeepsOrder(v, Rebalance(SortPending(v), now, wall))
  {
    hide Core, Ranked, Rebalance, KeepsOrder, SortRanked;
    SortPendingKeeps(v);
    RebalanceOrder(SortPending(v), now, wall);
    SameActive(v, SortPending(v), Rebalance(SortPending(v), now, wall));
  }

  lemma SameActive(v: State, p: State, r: State)
    requires v.active == p.active && KeepsOrder(p, r)
    ensures KeepsOrder(v, r)
  {
  }

  lemma UnchangedOrder(v: State, r: State)
    requires r.active == v.active && forall id :: id in v.active ==> id in r.entries
    ensures KeepsOrder(v, r)
  {
    SurvivingAll(v.active, r.entries);
  }

  lemma InvActive(t: State)
    requires Inv(t)
    ensures forall id :: id in t.active ==> id in t.entries
  {
    InvIsCore(t);
    hide Inv;
    CoreActive(t);
  }

  lemma AfterOrder(t: State, tail: Tail, now: Instant, wall: WallTime)
    requires Inv(t) && Tuned(t) && t.lastNow == now && TailAllowed(t, tail, now, wall) && !TakesDown(t, tail)
    ensures KeepsOrder(t, RunTail(t, tail, now, wall))
  {
    hide Inv, Core, Tuned, KeepsOrder, Rebalance, CloseInner, CloseAll, Enforce, OverPinned, Upserted, Placed,
      Relimited, ApplyUpdate, BeginJumpInner, Repinned, Outstanding, KeyIsLive, ToSet, Surviving;
    InvActive(t);
    match tail
    case CloseOne(id, reason) =>
      if id in t.entries && t.entries[id].notification.delivery != Closed {
        CloseOneOrder(t, id, reason, now, wall);
      } else {
        UnchangedOrder(t, t);
      }
    case CloseEvery(order, reason) =>
      CloseAllOrder(t, order, reason, wall);
      FromSurviving(t, CloseAll(t, order, reason, wall));
    case Upsert(id, draft) => UpsertOrder(t, id, draft, now, wall);
    case Place(id, draft) => PlaceOrder(t, id, draft, now, wall);
    case Relimit(l) => RelimitOrder(t, l, now, wall);
    case MakeAvailable(a) => AvailableOrder(t, a, now, wall);
    case Revise(id, update) => ReviseOrder(t, id, update, now, wall);
    case Pin(id) => PinOrder(t, id);
    case Unpin(intent) =>
      if Outstanding(t, intent) { UnpinOrder(t, intent); } else { UnchangedOrder(t, t); }
    case Stay => UnchangedOrder(t, t);
  }

  lemma UnpinOrder(t: State, intent: JumpIntent)
    requires Outstanding(t, intent) && forall x :: x in t.active ==> x in t.entries
    ensures KeepsOrder(t, Repinned(t, intent.id, None, true))
  {
    UnchangedOrder(t, Repinned(t, intent.id, None, true));
  }

  lemma ReviseOrder(t: State, id: NotificationId, update: Update, now: Instant, wall: WallTime)
    requires forall x :: x in t.active ==> x in t.entries
    ensures KeepsOrder(t, ApplyUpdate(t, id, update, now, wall).0)
  {
    UnchangedOrder(t, ApplyUpdate(t, id, update, now, wall).0);
  }

  lemma PinOrder(t: State, id: NotificationId)
    requires forall x :: x in t.active ==> x in t.entries
    ensures KeepsOrder(t, BeginJumpInner(t, id).0)
  {
    UnchangedOrder(t, BeginJumpInner(t, id).0);
  }

  lemma CloseOneOrder(t: State, id: NotificationId, reason: CloseReason, now: Instant, wall: WallTime)
    requires Inv(t) && t.lastNow == now && id in t.entries
    ensures KeepsOrder(t, Rebalance(CloseInner(t, id, reason, wall), now, wall))
  {
    CoreActive(t);
    var c := CloseInner(t, id, reason, wall);
    hide Core, Ranked, Rebalance, KeepsOrder;
    CloseInnerKeeps(t, id, reason, wall);
    RebalanceOrder(c, now, wall);
    WithoutIsSurviving(t.active, t.entries, id);
    FromSurviving(t, c);
    KeepsOrderCompose(t, c, Rebalance(c, now, wall));
  }

  lemma UpsertOrder(t: State, id: NotificationId, draft: Draft, now: Instant, wall: WallTime)
    requires Inv(t) && t.lastNow == now && id in t.entries && draft.key == t.entries[id].Key()
    requires draft.presentation == t.entries[id].Presentation()
    ensures KeepsOrder(t, Upserted(t, id, draft, now, wall))
  {
    hide Core, Ranked, Rebalance, SortPending, KeepsOrder;
    var u := Revised(t, id, draft, now, wall);
    RevisedInPlace(t, id, draft, now, wall);
    SettleOrder(u, now, wall);
    var r := Rebalance(SortPending(u), now, wall);
    SameActive(t, u, r);
    SameEntries(t, r, BumpContent(r));
  }

  lemma SameEntries(t: State, r: State, b: State)
    requires KeepsOrder(t, r) && b.entries == r.entries && b.active == r.active
    ensures KeepsOrder(t, b)
  {
  }

  lemma PlaceOrder(t: State, id: NotificationId, draft: Draft, now: Instant, wall: WallTime)
    requires Inv(t) && t.lastNow == now && id !in t.history.submitted && !KeyIsLive(t, draft)
    requires !OverPinned(Placed(t, id, draft, now, wall))
    ensures KeepsOrder(t, BumpContent(Enforce(Placed(t, id, draft, now, wall), wall)))
  {
    hide Core, Ranked, Conserving, Marked, Tuned, Rebalance, SortPending, KeepsOrder, Enforce, OverPinned;
    var a := Admitted(t, id, draft, wall);
    AdmittedKeeps(t, id, draft, wall);
    SettleOrder(a, now, wall);
    var p := Placed(t, id, draft, now, wall);
    SameActive(t, a, p);
    PlacedKeeps(t, id, draft, now, wall);
    EnforceOrder(t, p, wall);
    SameEntries(t, Enforce(p, wall), BumpContent(Enforce(p, wall)));
  }

  lemma EnforceOrder(t: State, p: State, wall: WallTime)
    requires KeepsOrder(t, p) && Settled(p) && p.closedCapacity > 0
    ensures KeepsOrder(t, Enforce(p, wall))
  {
    hide Core, Ranked, Conserving, Marked, Tuned, KeepsOrder, Enforce;
    EnforceKeeps(p, wall);
    EnforceActive(p, wall);
    UnchangedOrder(p, Enforce(p, wall));
    KeepsOrderCompose(t, p, Enforce(p, wall));
  }

  lemma EnforceActive(p: State, wall: WallTime)
    requires Settled(p) && p.closedCapacity > 0
    ensures forall id :: id in p.active ==> id in Enforce(p, wall).entries
  {
    hide Core, Ranked, Conserving, Marked, Tuned, Enforce;
    EnforceKeeps(p, wall);
    CoreActive(Enforce(p, wall));
  }

  lemma RelimitOrder(t: State, l: Limits, now: Instant, wall: WallTime)
    requires Inv(t) && t.lastNow == now && |t.active| <= l.maxVisible && !OverPinned(Relimited(t, l, now, wall))
    ensures KeepsOrder(t, RunTail(t, Relimit(l), now, wall))
  {
    hide Core, Ranked, Conserving, Marked, Tuned, Tallied, Unspent, Rebalance, SortPending, KeepsOrder, Enforce,
      OverPinned;
    var v := Deferred(t.(limits := l, closedCapacity := Capacity(l)), now);
    RelimitedCore(t, l, now);
    SettleOrder(v, now, wall);
    var p := Relimited(t, l, now, wall);
    SameActive(t, v, p);
    RelimitedKeeps(t, l, now, wall);
    EnforceOrder(t, p, wall);
    SameEntries(t, Enforce(p, wall), RunTail(t, Relimit(l), now, wall));
  }

  lemma RelimitedCore(t: State, l: Limits, now: Instant)
    requires Inv(t) && t.lastNow == now
    ensures Core(Deferred(t.(limits := l, closedCapacity := Capacity(l)), now))
  {
    var m := t.(limits := l, closedCapacity := Capacity(l));
    hide Ranked, Conserving, Marked, Deferred;
    hide Contained, SequencesUnique, NoncesUnique, Keyed, EntriesOk, TimersStarted, HistoryOk;
    assert Core(m);
    hide Core;
    DeferredKeeps(m, now);
  }

  lemma AvailableOrder(t: State, a: bool, now: Instant, wall: WallTime)
    requires Inv(t) && t.lastNow == now
    ensures KeepsOrder(t, RunTail(t, MakeAvailable(a), now, wall))
  {
    var u := if t.available != a then BumpRevision(t.(available := a)) else t;
    hide Ranked, Rebalance, KeepsOrder;
    hide Contained, SequencesUnique, NoncesUnique, Keyed, EntriesOk, TimersStarted, HistoryOk;
    assert Core(u);
    hide Core;
    RebalanceOrder(u, now, wall);
    SameActive(t, u, Rebalance(u, now, wall));
  }

  lemma FreshNotActive(s: State, t: State, tail: Tail, now: Instant, wall: WallTime)
    requires Core(s) && t.history.submitted == s.history.submitted && TailAllowed(t, tail, now, wall)
    ensures forall id :: id in s.active ==> id !in NewIds(tail)
  {
    CoreActive(s);
    hide Core, Contained, OverPinned;
    CoreParts(s);
  }

  /** No preemption: over any operation that neither changes a presentation nor lowers the
      visible limit, live active toasts stay where they are, and newcomers queue up behind. */
  lemma ActiveToastsStay(s: State, c: Call)
    requires Inv(s) && Legal(s, c)
    requires c.action.Draining? || Rejected(s, c) || c.now < s.lastNow
             || !TakesDown(Prepare(s, c.now, c.wall), TailOf(s, Prepare(s, c.now, c.wall), c.action))
    ensures KeepsOrder(s, Next(s, c))
  {
    hide Inv, Core, Tuned, TailAllowed, RunTail, TailOf, Prepare, Rejected, TakesDown, KeepsOrder;
    InvIsCore(s);
    CoreActive(s);
    if c.action.Draining? {
      UnchangedOrder(s, Next(s, c));
    } else {
      PerformShape(s, c);
      if Rejected(s, c) || c.now < s.lastNow {
        UnchangedOrder(s, s);
      } else {
        PrepareKeeps(s, c.now, c.wall);
        PrepareOrder(s, c.now, c.wall);
        var t := Prepare(s, c.now, c.wall);
        AfterOrder(t, TailOf(s, t, c.action), c.now, c.wall);
        AfterKeeps(t, TailOf(s, t, c.action), c.now, c.wall);
        FreshNotActive(s, t, TailOf(s, t, c.action), c.now, c.wall);
        KeepsOrderCompose(s, t, Next(s, c));
      }
    }
  }
}
