/** The daemon over its whole life: ticks of the window policy, and calls of the scheduler
    between them. */
module DaemonLife {
  import opened Wrappers
  import opened Notifications
  import opened Seqs
  import opened SchedulerModel
  import opened SchedulerInvariant
  import opened SchedulerSteps
  import opened SchedulerRuns
  import opened SchedulerTimeouts
  import opened SchedulerRecords
  import opened WindowPolicy
  import opened WindowPolicyLaws

  /** What happens to the daemon: ticks, and calls of the scheduler in between. */
  datatype Happening = Ticking(answers: Answers, now: Instant, wall: WallTime) | Calling(call: Call)

  function After(v: Recon, s: State, h: Happening): (Recon, State) {
    match h
    case Ticking(a, now, wall) => var (u, t, _) := Tick(v, s, a, now, wall); (u, t)
    case Calling(c) => (v, Next(s, c))
  }

  /** Time does not run backwards over a tick, and only ticks switch the display or fail
      Notifications. */
  ghost predicate Allowed(s: State, h: Happening) {
    match h
    case Ticking(_, now, _) => s.lastNow <= now
    case Calling(c) => Legal(s, c) && !c.action.RenderFailing? && !c.action.SettingAvailable?
  }

  ghost function Lived(v: Recon, s: State, happenings: seq<Happening>): (Recon, State)
    decreases |happenings|
  {
    if happenings == [] then (v, s)
    else var (u, t) := After(v, s, happenings[0]); Lived(u, t, happenings[1..])
  }

  ghost predicate AllowedLife(v: Recon, s: State, happenings: seq<Happening>)
    decreases |happenings|
  {
    happenings != [] ==>
      && Allowed(s, happenings[0])
      && var (u, t) := After(v, s, happenings[0]); AllowedLife(u, t, happenings[1..])
  }

  /** A report of the history, the last before a reset, found every window of its plan's
      content out of attempts. */
  ghost predicate OnceExhausted(h: seq<ReportEvent>) {
    exists i :: 0 <= i < |h| - 1 && ExhaustedAt(h, i)
  }

  ghost predicate ExhaustedAt(h: seq<ReportEvent>, i: nat)
    requires i < |h| - 1
  {
    h[i].Reported? && h[i + 1] == AllReset && Exhausted(h[i].content, h[..i + 1])
  }

  ghost predicate DaemonOk(v: Recon, s: State) {
    && ReconOk(v) && Inv(s) && (s.available ==> v.successful != {})
    && (RenderFailures(s.history.log) != {} ==> OnceExhausted(v.reports))
  }

  lemma ExhaustedLater(h: seq<ReportEvent>, g: seq<ReportEvent>)
    requires OnceExhausted(h) && h <= g
    ensures OnceExhausted(g)
  {
    hide Exhausted;
    var i :| 0 <= i < |h| - 1 && ExhaustedAt(h, i);
    assert g[..i + 1] == h[..i + 1];
    assert ExhaustedAt(g, i);
  }

  lemma ExhaustedNow(h: seq<ReportEvent>, content: set<WindowId>)
    requires h != [] && h[|h| - 1].Reported? && h[|h| - 1].content == content && Exhausted(content, h)
    ensures OnceExhausted(h + [AllReset])
  {
    hide Exhausted;
    var g := h + [AllReset];
    assert g[..|h|] == h;
    assert ExhaustedAt(g, |h| - 1);
  }

  lemma TickGrows(v: Recon, s: State, out: Ticked, now: Instant)
    requires TickGood(v, s, out, now) && s.lastNow <= now
    ensures ReconOk(out.0) && Inv(out.1) && v.reports <= out.0.reports
    ensures out.1.available ==> out.0.successful != {}
  {
    hide ReconOk, Inv, RenderFailures, ToSet;
  }

  lemma TickLives(v: Recon, s: State, a: Answers, now: Instant, wall: WallTime)
    requires DaemonOk(v, s) && s.lastNow <= now
    ensures var (u, t, _) := Tick(v, s, a, now, wall); DaemonOk(u, t)
  {
    hide ReconOk, Inv, Tick, Judged, GetsReport, TickGood, Displayed, Exhausted, RenderFailures, ToSet, OnceExhausted;
    var (u, t, r) := Tick(v, s, a, now, wall);
    TickKeeps(v, s, a, now, wall);
    TickGrows(v, s, (u, t, r), now);
    GivesUpExactly(v, s, a, now, wall);
    if RenderFailures(s.history.log) != {} {
      ExhaustedLater(v.reports, u.reports);
    } else if RenderFailures(t.history.log) != {} {
      ReportOnTime(v, s, a, now, wall);
      JudgedOk(v, s, a, now, wall);
      ExhaustedNow(Judged(v, s, a, now, wall).reports, a.content);
    }
  }

  lemma RebalanceAvailable(c: State, now: Instant, wall: WallTime)
    ensures Rebalance(c, now, wall).available == c.available
  {
  }

  lemma {:induction false} CloseAllAvailable(s: State, ids: seq<NotificationId>, reason: CloseReason, wall: WallTime)
    ensures CloseAll(s, ids, reason, wall).available == s.available
    decreases |ids|
  {
    if ids != [] { CloseAllAvailable(CloseInner(s, ids[0], reason, wall), ids[1..], reason, wall); }
  }

  lemma {:induction false} EnforceAvailable(s: State, wall: WallTime)
    ensures Enforce(s, wall).available == s.available
    decreases |s.pending|
  {
    if Enforce(s, wall) != s {
      EnforceAvailable(CloseInner(s, s.pending[LastUnpinned(s.entries, s.pending)], RenderSuppressed, wall), wall);
    }
  }

  lemma SettledAvailable(t: State, id: NotificationId, draft: Draft, limits: Limits, now: Instant, wall: WallTime)
    ensures Placed(t, id, draft, now, wall).available == t.available
    ensures Relimited(t, limits, now, wall).available == t.available
    ensures id in t.entries ==> Upserted(t, id, draft, now, wall).available == t.available
  {
  }

  lemma RevisedAvailable(t: State, id: NotificationId, update: Update, now: Instant, wall: WallTime)
    ensures ApplyUpdate(t, id, update, now, wall).0.available == t.available
  {
  }

  lemma TailAvailable(t: State, tail: Tail, now: Instant, wall: WallTime)
    requires !tail.MakeAvailable?
    ensures RunTail(t, tail, now, wall).available == t.available
  {
    hide Enforce, Placed, Relimited, CloseAll, Upserted, ApplyUpdate, Rebalance;
    match tail
    case CloseOne(id, reason) => RebalanceAvailable(CloseInner(t, id, reason, wall), now, wall);
    case CloseEvery(order, reason) => CloseAllAvailable(t, order, reason, wall);
    case Upsert(id, draft) => SettledAvailable(t, id, draft, t.limits, now, wall);
    case Place(id, draft) =>
      SettledAvailable(t, id, draft, t.limits, now, wall);
      EnforceAvailable(Placed(t, id, draft, now, wall), wall);
    case Relimit(limits) =>
      RelimitedAvailable(t, limits, now, wall);
      EnforceAvailable(Relimited(t, limits, now, wall), wall);
    case Revise(id, update) => RevisedAvailable(t, id, update, now, wall);
    case Stay =>
    case Pin(id) =>
    case Unpin(intent) =>
  }

  lemma RelimitedAvailable(t: State, limits: Limits, now: Instant, wall: WallTime)
    ensures Relimited(t, limits, now, wall).available == t.available
  {
  }

  lemma NotFailed(s: State, t: State, a: Action, n: Notification)
    requires !a.RenderFailing? && TailCause(t, TailOf(s, t, a), n)
    ensures n.closeReason != Some(RenderFailed)
  {
    hide KeyIsLive;
  }

  lemma TailFailsNone(s: State, t: State, a: Action, r: State)
    requires !a.RenderFailing? && ClosesForCause(t, r, TailOf(s, t, a))
    ensures RenderFailures(r.history.log) == RenderFailures(t.history.log)
  {
    var p, q := t.history.log, r.history.log;
    forall n | n in q && n.closeReason == Some(RenderFailed) ensures n in p {
      var i :| 0 <= i < |q| && q[i] == n;
      if i < |p| {
        assert p[i] == n;
      } else {
        assert NewlyClosed(t, r)[i - |p|] == n && n in NewlyClosed(t, r);
        NotFailed(s, t, a, n);
      }
    }
    forall n | n in p ensures n in q {
      var i :| 0 <= i < |p| && p[i] == n;
      assert q[i] == n;
    }
  }

  lemma CallLives(v: Recon, s: State, c: Call)
    requires DaemonOk(v, s) && Allowed(s, Calling(c))
    ensures DaemonOk(v, Next(s, c))
  {
    hide ReconOk, Inv, Exact, Tuned, Prepare, Perform, RunTail, TailOf, TailAllowed, Rejected, RenderFailures,
      Enqueued, ClosesForCause, ClosedSome, OnceExhausted, Derived;
    StepKeeps(s, c);
    if c.action.Draining? {
      DrainSilent(s, c);
    } else {
      PerformShape(s, c);
      if !Rejected(s, c) && s.lastNow <= c.now {
        var t := Prepare(s, c.now, c.wall);
        PrepareKeeps(s, c.now, c.wall);
        OnlyOthersClosed(s, t, TimedOut);
        AfterCause(t, TailOf(s, t, c.action), c.now, c.wall);
        TailFailsNone(s, t, c.action, Next(s, c));
        SwitchesNone(s, t, c.action);
        TailAvailable(t, TailOf(s, t, c.action), c.now, c.wall);
      }
    }
  }

  lemma SwitchesNone(s: State, t: State, a: Action)
    requires !a.SettingAvailable?
    ensures !TailOf(s, t, a).MakeAvailable?
  {
    hide KeyIsLive;
  }

  lemma DrainSilent(s: State, c: Call)
    requires c.action.Draining?
    ensures var r := Next(s, c); r.history.log == s.history.log && r.available == s.available
  {
  }

  lemma AfterLives(v: Recon, s: State, h: Happening)
    requires DaemonOk(v, s) && Allowed(s, h)
    ensures var (u, t) := After(v, s, h); DaemonOk(u, t)
  {
    hide DaemonOk, Legal, Tick, Perform;
    match h
    case Ticking(a, now, wall) => TickLives(v, s, a, now, wall);
    case Calling(c) => CallLives(v, s, c);
  }

  lemma {:induction false} LifeKeeps(v: Recon, s: State, happenings: seq<Happening>)
    requires DaemonOk(v, s) && AllowedLife(v, s, happenings)
    ensures var (u, t) := Lived(v, s, happenings); DaemonOk(u, t)
    decreases |happenings|
  {
    hide DaemonOk, Allowed, After;
    if happenings != [] {
      AfterLives(v, s, happenings[0]);
      var (u, t) := After(v, s, happenings[0]);
      LifeKeeps(u, t, happenings[1..]);
    }
  }

  /** Over the daemon's whole life: whenever the scheduler may display, the backend is
      connected and the last applied report of some window said that it shows something; and
      if any Notification was ever given up, some report had found every window that should
      have shown something out of attempts. */
  lemma DaemonNeverGuesses(limits: Limits, start: Instant, happenings: seq<Happening>)
    requires AllowedLife(NewRecon(start), New(limits, start), happenings)
    ensures var (v, s) := Lived(NewRecon(start), New(limits, start), happenings);
            && (s.available ==> v.connected && exists w :: w in v.successful && Showing(v.reports, w))
            && (RenderFailures(s.history.log) != {} ==> OnceExhausted(v.reports))
  {
    hide AllowedLife, Lived, Inv, Exact, Showing, RetriesTell, OnceExhausted, RenderFailures;
    NewLives(limits, start);
    LifeKeeps(NewRecon(start), New(limits, start), happenings);
    var (v, s) := Lived(NewRecon(start), New(limits, start), happenings);
    if s.available {
      var w :| w in v.successful;
      assert Showing(v.reports, w);
    }
  }

  lemma NewLives(limits: Limits, start: Instant)
    ensures DaemonOk(NewRecon(start), New(limits, start))
  {
    hide Inv, Exact;
    NewIsGood(limits, start);
    NewIsOk(start);
    assert RenderFailures([]) == {};
  }
}
