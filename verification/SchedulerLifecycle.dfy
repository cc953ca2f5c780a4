/** Every close has its cause, every record is kept until it is forwarded, every id closes once. */
module SchedulerLifecycle {
  import opened Wrappers
  import opened Notifications
  import opened SchedulerModel
  import opened SchedulerInvariant
  import opened SchedulerSteps
  import opened SchedulerOperations
  import opened SchedulerRuns
  import opened SchedulerTimeouts

  // ---------- pins ----------

  predicate IsPinned(e: Entries, id: NotificationId) {
    id in e && e[id].jumpNonce.Some?
  }

  /** Pins are only ever added with a nonce not used before. */
  ghost predicate PinsFrom(s: State, r: State) {
    && s.nextNonce <= r.nextNonce
    && (forall id :: IsPinned(r.entries, id) ==>
          (id in s.entries && s.entries[id].jumpNonce == r.entries[id].jumpNonce)
          || s.nextNonce <= r.entries[id].jumpNonce.value < r.nextNonce)
  }

  lemma PinsCompose(s: State, m: State, r: State)
    requires PinsFrom(s, m) && PinsFrom(m, r)
    ensures PinsFrom(s, r)
  {
  }

  lemma DerivedPins(s: State, r: State)
    requires Derived(s.entries, r.entries) && r.nextNonce == s.nextNonce
    ensures PinsFrom(s, r)
  {
  }

  lemma TouchedPins(s: State, r: State)
    requires Touched(s.entries, r.entries) && r.nextNonce == s.nextNonce
    ensures PinsFrom(s, r)
  {
  }

  lemma CloseInnerPins(t: State, id: NotificationId, reason: CloseReason, wall: WallTime)
    ensures PinsFrom(t, CloseInner(t, id, reason, wall))
  {
  }

  lemma {:induction false} CloseAllPins(t: State, ids: seq<NotificationId>, reason: CloseReason, wall: WallTime)
    ensures PinsFrom(t, CloseAll(t, ids, reason, wall))
    decreases |ids|
  {
    if ids != [] {
      hide PinsFrom, CloseInner;
      var m := CloseInner(t, ids[0], reason, wall);
      CloseInnerPins(t, ids[0], reason, wall);
      CloseAllPins(m, ids[1..], reason, wall);
      PinsCompose(t, m, CloseAll(t, ids, reason, wall));
    }
  }

  lemma {:induction false} EnforcePins(t: State, wall: WallTime)
    ensures PinsFrom(t, Enforce(t, wall))
    decreases |t.pending|
  {
    var i := LastUnpinned(t.entries, t.pending);
    if |t.pending| > t.limits.maxPending && i < |t.pending| {
      var m := CloseInner(t, t.pending[i], RenderSuppressed, wall);
      CloseInnerPins(t, t.pending[i], RenderSuppressed, wall);
      EnforcePins(m, wall);
      hide PinsFrom, CloseInner;
      PinsCompose(t, m, Enforce(t, wall));
    }
  }

  lemma SettlePins(v: State, now: Instant, wall: WallTime)
    requires Core(v) && v.lastNow == now
    ensures PinsFrom(v, Rebalance(SortPending(v), now, wall))
  {
    hide Core, Ranked, Settled, Rebalance, SortPending, Touched, PinsFrom;
    SettleKeeps(v, now, wall);
    TouchedPins(v, Rebalance(SortPending(v), now, wall));
  }

  lemma RebalancePins(c: State, now: Instant, wall: WallTime)
    requires Core(c) && Ranked(c.entries, c.pending) && c.lastNow == now
    ensures PinsFrom(c, Rebalance(c, now, wall))
  {
    hide Core, Ranked, Rebalance, Touched, PinsFrom;
    RebalanceKeeps(c, now, wall);
    TouchedPins(c, Rebalance(c, now, wall));
  }

  lemma PreparePins(s: State, now: Instant, wall: WallTime)
    requires Inv(s) && s.lastNow <= now
    ensures PinsFrom(s, Prepare(s, now, wall))
  {
    hide Inv, Prepare, PinsFrom, Derived;
    PrepareKeeps(s, now, wall);
    DerivedPins(s, Prepare(s, now, wall));
  }

  lemma UpsertPins(t: State, id: NotificationId, draft: Draft, now: Instant, wall: WallTime)
    requires Inv(t) && t.lastNow == now && id in t.entries && draft.key == t.entries[id].Key()
    ensures PinsFrom(t, Upserted(t, id, draft, now, wall))
  {
    hide Core, Ranked, Conserving, Marked, Rebalance, SortPending;
    var u := Revised(t, id, draft, now, wall);
    var v := if draft.presentation != t.entries[id].Presentation() then Requeued(u, id) else u;
    if draft.presentation != t.entries[id].Presentation() {
      RevisedElsewhere(t, id, draft, now, wall);
    } else {
      RevisedInPlace(t, id, draft, now, wall);
    }
    SettlePins(v, now, wall);
  }

  lemma PlacedPins(t: State, id: NotificationId, draft: Draft, now: Instant, wall: WallTime)
    requires Inv(t) && t.lastNow == now && id !in t.history.submitted && !KeyIsLive(t, draft)
    ensures PinsFrom(t, Placed(t, id, draft, now, wall))
  {
    hide Core, Ranked, Conserving, Marked, Rebalance, SortPending;
    var a := Admitted(t, id, draft, wall);
    AdmittedKeeps(t, id, draft, wall);
    assert PinsFrom(t, a);
    hide PinsFrom;
    SettlePins(a, now, wall);
    PinsCompose(t, a, Placed(t, id, draft, now, wall));
  }

  lemma DeferredPins(t: State, m: State, now: Instant)
    requires m.entries == t.entries && m.nextNonce == t.nextNonce
    ensures PinsFrom(t, Deferred(m, now))
  {
  }

  lemma RelimitedPins(t: State, l: Limits, now: Instant, wall: WallTime)
    requires Inv(t) && t.lastNow == now
    ensures PinsFrom(t, Relimited(t, l, now, wall))
  {
    var m := t.(limits := l, closedCapacity := Capacity(l));
    var v := Deferred(m, now);
    hide Inv, Core, PinsFrom, Rebalance, SortPending, Deferred;
    DeferredPins(t, m, now);
    LimitsFrame(t, l, now);
    SettlePins(v, now, wall);
    PinsCompose(t, v, Relimited(t, l, now, wall));
  }

  lemma AfterPins(t: State, tail: Tail, now: Instant, wall: WallTime)
    requires Inv(t) && Tuned(t) && t.lastNow == now && TailAllowed(t, tail, now, wall)
    ensures PinsFrom(t, RunTail(t, tail, now, wall))
  {
    hide Inv, Tuned, Rebalance, CloseInner, CloseAll, Enforce, OverPinned, Upserted, Placed, Relimited;
    match tail
    case CloseOne(id, reason) =>
      if id in t.entries { CloseOnePins(t, id, reason, now, wall); }
    case CloseEvery(order, reason) => CloseAllPins(t, order, reason, wall);
    case Upsert(id, draft) => UpsertPins(t, id, draft, now, wall);
    case Place(id, draft) =>
      PlacedPins(t, id, draft, now, wall);
      EnforcePins(Placed(t, id, draft, now, wall), wall);
      PinsCompose(t, Placed(t, id, draft, now, wall), Enforce(Placed(t, id, draft, now, wall), wall));
    case MakeAvailable(a) => AvailablePins(t, a, now, wall);
    case Relimit(l) =>
      RelimitedPins(t, l, now, wall);
      EnforcePins(Relimited(t, l, now, wall), wall);
      PinsCompose(t, Relimited(t, l, now, wall), Enforce(Relimited(t, l, now, wall), wall));
    case _ =>
  }

  lemma CloseOnePins(t: State, id: NotificationId, reason: CloseReason, now: Instant, wall: WallTime)
    requires Inv(t) && t.lastNow == now && id in t.entries
    ensures PinsFrom(t, Rebalance(CloseInner(t, id, reason, wall), now, wall))
  {
    var c := CloseInner(t, id, reason, wall);
    hide Core, Ranked, Conserving, Marked, Rebalance, PinsFrom;
    CloseInnerPins(t, id, reason, wall);
    CloseInnerKeeps(t, id, reason, wall);
    RebalancePins(c, now, wall);
    PinsCompose(t, c, Rebalance(c, now, wall));
  }

  lemma AvailablePins(t: State, a: bool, now: Instant, wall: WallTime)
    requires Inv(t) && t.lastNow == now
    ensures PinsFrom(t, RunTail(t, MakeAvailable(a), now, wall))
  {
    var u := if t.available != a then BumpRevision(t.(available := a)) else t;
    assert PinsFrom(t, u);
    hide Inv, Core, Ranked, Rebalance, PinsFrom;
    AvailableFrame(t, a);
    RebalancePins(u, now, wall);
    PinsCompose(t, u, Rebalance(u, now, wall));
  }

  /** Over any operation, a pin was there before or carries a nonce issued by it. */
  lemma StepPins(s: State, c: Call)
    requires Inv(s) && Legal(s, c)
    ensures PinsFrom(s, Next(s, c))
  {
    hide Core, Ranked, Conserving, Marked, Bounded, Tuned, TailAllowed, RunTail, TailOf, Prepare, Rejected;
    if !c.action.Draining? {
      PerformShape(s, c);
      if !Rejected(s, c) && s.lastNow <= c.now {
        var t := Prepare(s, c.now, c.wall);
        PrepareKeeps(s, c.now, c.wall);
        PreparePins(s, c.now, c.wall);
        AfterPins(t, TailOf(s, t, c.action), c.now, c.wall);
        PinsCompose(s, t, Next(s, c));
      }
    }
  }

  // ---------- jump intents are linear ----------

  /** The nonce was issued, and no live Notification is pinned by it. */
  ghost predicate Spent(s: State, nonce: nat) {
    nonce < s.nextNonce && forall id :: id in s.entries ==> s.entries[id].jumpNonce != Some(nonce)
  }

  /** A spent nonce stays spent. */
  lemma {:induction false} SpentForever(s: State, calls: seq<Call>, nonce: nat)
    requires Inv(s) && LegalRun(s, calls) && Spent(s, nonce)
    ensures Spent(Run(s, calls), nonce)
    decreases |calls|
  {
    hide Inv, Legal, Next;
    if calls != [] {
      StepKeeps(s, calls[0]);
      StepPins(s, calls[0]);
      SpentForever(Next(s, calls[0]), calls[1..], nonce);
    }
  }

  lemma UniqueNonce(t: State, intent: JumpIntent)
    requires Core(t) && Outstanding(t, intent)
    ensures intent.nonce < t.nextNonce
    ensures forall id :: id in t.entries && id != intent.id ==> t.entries[id].jumpNonce != Some(intent.nonce)
  {
    hide Core, Contained;
    CoreParts(t);
  }

  predicate Resolves(c: Call, intent: JumpIntent) {
    c.action == CommittingJump(intent) || c.action == CancellingJump(intent)
  }

  lemma PinGone(t: State, r: State, intent: JumpIntent)
    requires Core(t) && Outstanding(t, intent) && PinsFrom(t, r) && !IsPinned(r.entries, intent.id)
    ensures Spent(r, intent.nonce)
  {
    UniqueNonce(t, intent);
    hide Core;
  }

  lemma CommitIsClose(s: State, intent: JumpIntent, now: Instant, wall: WallTime)
    requires CommitJump(s, intent, now, wall).1.Ok?
    ensures Outstanding(s, intent) && s.lastNow <= now
    ensures var t := Prepare(s, now, wall);
            intent.id in t.entries
            && CommitJump(s, intent, now, wall).0 == Rebalance(CloseInner(t, intent.id, Jumped, wall), now, wall)
  {
    hide Prepare, Rebalance, CloseInner, Outstanding;
  }

  lemma CommitSpends(s: State, intent: JumpIntent, now: Instant, wall: WallTime)
    requires Inv(s) && CommitJump(s, intent, now, wall).1.Ok?
    ensures Spent(CommitJump(s, intent, now, wall).0, intent.nonce)
  {
    var t := Prepare(s, now, wall);
    CommitIsClose(s, intent, now, wall);
    hide Inv, Core, Tuned, Exact, Prepare, Rebalance, CloseInner, PinsFrom, Derived, Outstanding, ClosedSome,
      NothingNew, Spent, CommitJump;
    PrepareKeeps(s, now, wall);
    InvIsCore(t);
    DerivedOutstanding(s, t, intent);
    CloseTailKeeps(t, intent.id, Jumped, now, wall);
    CloseOnePins(t, intent.id, Jumped, now, wall);
    PinGone(t, CommitJump(s, intent, now, wall).0, intent);
  }

  lemma CancelSpends(s: State, intent: JumpIntent, now: Instant, wall: WallTime)
    requires Inv(s) && CancelJump(s, intent, now, wall).1.Ok?
    ensures Spent(CancelJump(s, intent, now, wall).0, intent.nonce)
  {
    var t := Prepare(s, now, wall);
    assert Outstanding(t, intent) && s.lastNow <= now;
    var r := CancelJump(s, intent, now, wall).0;
    assert r == Repinned(t, intent.id, None, true);
    hide Repinned, Core, Ranked, Conserving, Marked, Tuned, Prepare, PinsFrom, Derived, Outstanding, CancelJump;
    PrepareKeeps(s, now, wall);
    UnpinnedPins(t, intent);
    PinGone(t, r, intent);
  }

  lemma UnpinnedPins(t: State, intent: JumpIntent)
    requires Outstanding(t, intent)
    ensures var r := Repinned(t, intent.id, None, true);
            PinsFrom(t, r) && !IsPinned(r.entries, intent.id)
  {
  }

  /** Committing or cancelling spends the intent. */
  lemma ResolvingSpends(s: State, c: Call, intent: JumpIntent)
    requires Inv(s) && Resolves(c, intent) && Perform(s, c).1.None?
    ensures Spent(Next(s, c), intent.nonce)
  {
    hide Inv, CommitJump, CancelJump, Spent;
    if c.action.CommittingJump? {
      CommitSpends(s, intent, c.now, c.wall);
    } else {
      CancelSpends(s, intent, c.now, c.wall);
    }
  }

  lemma DerivedOutstanding(s: State, t: State, intent: JumpIntent)
    requires Derived(s.entries, t.entries) && Outstanding(s, intent) && intent.id in t.entries
    ensures Outstanding(t, intent)
  {
  }

  lemma SpentIsStale(r: State, again: Call, intent: JumpIntent)
    requires Inv(r) && Spent(r, intent.nonce) && Resolves(again, intent)
    ensures Perform(r, again).1 == Some(StaleJumpIntent) || Perform(r, again).1 == Some(TimeWentBackwards)
  {
    hide Inv, Prepare;
    if r.lastNow <= again.now {
      PreparePins(r, again.now, again.wall);
    }
  }

  /** Each intent is committed or cancelled at most once: after either succeeds, every later
      attempt to resolve its nonce, anywhere in any run, fails. */
  lemma ResolvedAtMostOnce(s: State, c: Call, intent: JumpIntent, rest: seq<Call>, again: Call, copy: JumpIntent)
    requires Inv(s) && Legal(s, c) && Resolves(c, intent) && Perform(s, c).1.None?
    requires LegalRun(Next(s, c), rest)
    requires Resolves(again, copy) && copy.nonce == intent.nonce
    ensures var last := Run(Next(s, c), rest);
            Perform(last, again).1 == Some(StaleJumpIntent) || Perform(last, again).1 == Some(TimeWentBackwards)
  {
    ResolvingSpends(s, c, intent);
    hide Inv, Run, Perform, LegalRun, Legal, Spent, Resolves;
    StepKeeps(s, c);
    SpentForever(Next(s, c), rest, intent.nonce);
    RunKeeps(Next(s, c), rest);
    SpentIsStale(Run(Next(s, c), rest), again, copy);
  }

  /** A new intent carries a nonce no earlier intent had, and leaves no other pin. */
  lemma NewIntentIsFresh(s: State, id: NotificationId, now: Instant, wall: WallTime)
    requires Inv(s) && s.lastNow <= now && BeginJump(s, id, now, wall).1.Ok?
    ensures var r := BeginJump(s, id, now, wall).0;
            var intent := BeginJump(s, id, now, wall).1.value;
            && intent.id == id && intent.nonce >= s.nextNonce && intent.nonce < r.nextNonce && Outstanding(r, intent)
  {
    hide Inv, Prepare;
    PreparePins(s, now, wall);
  }
}
