/** What the window policy guarantees: a Notification is given up only when every window that
    should show it is out of attempts, and the scheduler believes in a display only after a
    window was reported to show something. */
module WindowPolicyLaws {
  import opened Wrappers
  import opened Notifications
  import opened Seqs
  import opened SchedulerModel
  import opened SchedulerInvariant
  import opened SchedulerSteps
  import opened SchedulerOperations
  import opened SchedulerRecords
  import opened WindowPolicy

  // ---------- what the reports said ----------

  /** Failed reports for a window since the last applied one or the last reset. */
  ghost function Strikes(h: seq<ReportEvent>, w: WindowId): nat {
    if h == [] then 0
    else match h[|h| - 1]
      case Reported(applied, _, failed) =>
        if w in failed then Strikes(h[..|h| - 1], w) + 1
        else if w in applied then 0
        else Strikes(h[..|h| - 1], w)
      case AllReset => 0
  }

  /** The last applied report for the window said that it shows something. */
  ghost predicate Showing(h: seq<ReportEvent>, w: WindowId) {
    h != [] &&
    match h[|h| - 1]
    case Reported(applied, content, _) => if w in applied then w in content else Showing(h[..|h| - 1], w)
    case AllReset => Showing(h[..|h| - 1], w)
  }

  /** Every window with content has failed at least three times since it last applied or was reset. */
  ghost predicate Exhausted(content: set<WindowId>, h: seq<ReportEvent>) {
    content != {} && forall w :: w in content ==> Strikes(h, w) >= MAX_RENDER_ATTEMPTS
  }

  ghost predicate RetriesTell(retries: Retries, h: seq<ReportEvent>) {
    forall w :: (w in retries <==> Strikes(h, w) > 0)
             && (w in retries ==> retries[w].attempts == if Strikes(h, w) <= 255 then Strikes(h, w) else 255)
  }

  ghost predicate ConfirmedTell(successful: set<WindowId>, h: seq<ReportEvent>) {
    forall w :: w in successful ==> Showing(h, w)
  }

  /** What holds of the reconciler between ticks. */
  ghost predicate ReconOk(v: Recon) {
    && (!v.connected ==> v.successful == {})
    && RetriesTell(v.retries, v.reports)
    && ConfirmedTell(v.successful, v.reports)
    && INITIAL_RECONNECT_BACKOFF <= v.reconnectBackoff <= MAX_RECONNECT_BACKOFF
  }

  lemma OneMore(h: seq<ReportEvent>, e: ReportEvent)
    ensures (h + [e])[..|h + [e]| - 1] == h && (h + [e])[|h + [e]| - 1] == e
  {
  }

  lemma ReportTold(retries: Retries, h: seq<ReportEvent>, applied: set<WindowId>, content: set<WindowId>,
                   failed: set<WindowId>, now: Instant)
    requires RetriesTell(retries, h) && applied !! failed
    ensures RetriesTell(Counted(retries, applied, failed, now), h + [Reported(applied, content, failed)])
  {
    OneMore(h, Reported(applied, content, failed));
  }

  lemma ShownTold(successful: set<WindowId>, h: seq<ReportEvent>, applied: set<WindowId>, content: set<WindowId>,
                  failed: set<WindowId>)
    requires ConfirmedTell(successful, h)
    ensures ConfirmedTell(content * applied + (successful - applied), h + [Reported(applied, content, failed)])
  {
    OneMore(h, Reported(applied, content, failed));
  }

  lemma ResetTold(successful: set<WindowId>, h: seq<ReportEvent>)
    requires ConfirmedTell(successful, h)
    ensures RetriesTell(map[], h + [AllReset]) && ConfirmedTell(successful, h + [AllReset])
  {
    OneMore(h, AllReset);
  }

  lemma FewerConfirmed(a: set<WindowId>, b: set<WindowId>, h: seq<ReportEvent>)
    requires ConfirmedTell(a, h) && b <= a
    ensures ConfirmedTell(b, h)
  {
  }

  /** The counters decide exactly what the reports say. */
  lemma GivesUpIffExhausted(v: Recon, content: set<WindowId>)
    requires ReconOk(v)
    ensures GivesUp(v, content) <==> v.successful == {} && Exhausted(content, v.reports)
  {
    hide Strikes, Showing, ConfirmedTell;
  }

  // ---------- the steps of a tick ----------

  lemma NewIsOk(now: Instant)
    ensures ReconOk(NewRecon(now))
  {
  }

  lemma ClearedOk(v: Recon)
    requires ReconOk(v)
    ensures ReconOk(Cleared(v)) && v.reports <= Cleared(v).reports
  {
    hide RetriesTell, ConfirmedTell;
    ResetTold(v.successful, v.reports);
  }

  lemma DisconnectedOk(v: Recon, now: Instant)
    requires ReconOk(v)
    ensures ReconOk(Disconnected(v, now)) && Disconnected(v, now).reports == v.reports
    ensures !v.connected ==> ReconOk(Reconnecting(v, now))
  {
    hide RetriesTell, ConfirmedTell;
    FewerConfirmed(v.successful, {}, v.reports);
  }

  lemma {:induction false} PollsOk(v: Recon, polls: seq<Polled>, now: Instant, budget: nat)
    requires ReconOk(v)
    ensures var u := AfterPolls(v, polls, now, budget); ReconOk(u) && v.reports <= u.reports
    decreases budget
  {
    hide ReconOk, Cleared, Disconnected;
    if budget > 0 && polls != [] {
      match polls[0]
      case Nothing =>
      case Happened(TopologyChanged) =>
        DirtyOk(v, true);
        ClearedOk(v.(dirty := true));
        PollsOk(Cleared(v.(dirty := true)), polls[1..], now, budget - 1);
      case Happened(Disconnection) => DisconnectedOk(v, now);
      case PollFailed => DisconnectedOk(v, now);
    }
  }

  lemma DirtyOk(v: Recon, dirty: bool)
    requires ReconOk(v)
    ensures ReconOk(v.(dirty := dirty))
  {
    hide RetriesTell, ConfirmedTell;
  }

  lemma ConnectedOk(v: Recon, t: Topology)
    requires ReconOk(v)
    ensures ReconOk(v.(topology := t))
    ensures ReconOk(v.(topology := t, connected := true, dirty := true, reconnectBackoff := INITIAL_RECONNECT_BACKOFF))
  {
    hide RetriesTell, ConfirmedTell;
  }

  lemma RefreshOk(v: Recon, snapshot: Option<Topology>, now: Instant)
    requires ReconOk(v)
    ensures var u := AfterRefresh(v, snapshot, now); ReconOk(u) && v.reports <= u.reports
  {
    hide ReconOk, Cleared, Disconnected;
    DisconnectedOk(v, now);
    if snapshot.Some? {
      var t := snapshot.value;
      ConnectedOk(v, t);
      ClearedOk(v.(topology := t));
      ClearedOk(v.(topology := t, connected := true, dirty := true, reconnectBackoff := INITIAL_RECONNECT_BACKOFF));
    }
  }

  lemma HeardOk(v: Recon, a: Answers, now: Instant)
    requires ReconOk(v)
    ensures ReconOk(Heard(v, a, now)) && v.reports <= Heard(v, a, now).reports
  {
    hide ReconOk, AfterPolls, AfterRefresh;
    PollsOk(v, a.polls, now, MAX_EVENTS_PER_TICK);
    RefreshOk(if v.connected then AfterPolls(v, a.polls, now, MAX_EVENTS_PER_TICK) else v, a.snapshot, now);
  }

  lemma ReportingOk(v: Recon, content: set<WindowId>, report: Report, now: Instant)
    requires ReconOk(v) && v.connected
    ensures var u := Reporting(v, content, report, now); ReconOk(u) && u.connected && v.reports <= u.reports
  {
    hide RetriesTell, ConfirmedTell, Counted;
    var eligible := v.topology.eligible;
    var applied := eligible * report.applied;
    var failed := (eligible - report.applied) + (report.failed - eligible);
    ReportTold(v.retries, v.reports, applied, content, failed, now);
    ShownTold(v.successful, v.reports, applied, content, failed);
    FewerConfirmed(content * applied + (v.successful - applied),
                   Reporting(v, content, report, now).successful,
                   Reporting(v, content, report, now).reports);
  }

  lemma EmptiedOk(v: Recon, report: Report, now: Instant)
    requires ReconOk(v)
    ensures var u := Emptied(v, report, now); ReconOk(u) && u.successful == v.successful && v.reports <= u.reports
  {
    hide RetriesTell, ConfirmedTell, Counted;
    ResetTold(v.successful, v.reports);
    ReportTold(v.retries, v.reports, {}, {}, report.failed, now);
    ShownTold(v.successful, v.reports, {}, {}, report.failed);
    FewerConfirmed(({} * {}) + (v.successful - {}), v.successful, v.reports + [Reported({}, {}, report.failed)]);
  }

  lemma NoticedOk(v: Recon, t: State, moved: bool)
    requires ReconOk(v)
    ensures var u := Noticed(v, t, moved); ReconOk(u) && u.connected == v.connected && v.reports <= u.reports
  {
    hide RetriesTell, ConfirmedTell;
    ResetTold(v.successful, v.reports);
  }

  // ---------- what the scheduler is told ----------

  ghost function RenderFailures(log: seq<Notification>): set<NotificationId> {
    set n | n in log && n.closeReason == Some(RenderFailed) :: n.id
  }

  lemma OnlyOthersClosed(s: State, r: State, reason: CloseReason)
    requires ClosedSome(s, r, reason) && reason != RenderFailed
    ensures RenderFailures(r.history.log) == RenderFailures(s.history.log)
  {
    var a, b := s.history.log, r.history.log;
    forall n | n in b && n.closeReason == Some(RenderFailed) ensures n in a {
      var i :| 0 <= i < |b| && b[i] == n;
      assert i < |a| && a[i] == b[i];
    }
    forall n | n in a ensures n in b {
      var i :| 0 <= i < |a| && a[i] == n;
      assert b[i] == n;
    }
  }

  lemma FailureLogged(t: State, id: NotificationId, now: Instant, wall: WallTime)
    requires id in t.entries && t.entries[id].notification.id == id
    ensures var r := Rebalance(CloseInner(t, id, RenderFailed, wall), now, wall);
            RenderFailures(r.history.log) == RenderFailures(t.history.log) + {id}
  {
    var c := CloseInner(t, id, RenderFailed, wall);
    RebalanceHistory(c, now, wall);
    hide Rebalance;
    var n := t.entries[id].notification.Close(RenderFailed, wall);
    assert c.history.log == t.history.log + [n];
    assert forall m :: m in c.history.log <==> m in t.history.log || m == n;
  }

  /** `t` is `s` after the scheduler was told whether it may display. */
  ghost predicate Offered(s: State, t: State, available: bool, now: Instant) {
    && Inv(t) && t.available == available && t.lastNow == now && t.entries.Keys <= s.entries.Keys
    && RenderFailures(t.history.log) == RenderFailures(s.history.log)
  }

  lemma OfferKeeps(s: State, available: bool, now: Instant, wall: WallTime)
    requires Inv(s)
    ensures var (t, e) := SetDisplayAvailable(s, available, now, wall);
            && (e.Ok? <==> s.lastNow <= now) && (e.Ok? ==> Offered(s, t, available, now))
    ensures now < s.lastNow ==> SetDisplayAvailable(s, available, now, wall) == (s, Err(TimeWentBackwards))
  {
    hide Inv, Tuned, Exact, Prepare, Rebalance, ClosedSome, RenderFailures;
    if s.lastNow <= now {
      PrepareKeeps(s, now, wall);
      OnlyOthersClosed(s, Prepare(s, now, wall), TimedOut);
      AvailableKeeps(Prepare(s, now, wall), available, now, wall);
    }
  }

  /** `t` is `s` after the Notification was given up, if it was still live. */
  ghost predicate Failing(s: State, t: State, id: NotificationId, closed: bool, now: Instant) {
    && Inv(t) && t.lastNow == now && t.entries.Keys <= s.entries.Keys - {id}
    && RenderFailures(t.history.log) == RenderFailures(s.history.log) + if closed then {id} else {}
  }

  lemma EntryIs(t: State, id: NotificationId)
    requires Inv(t) && id in t.entries
    ensures t.entries[id].notification.id == id && t.entries[id].notification.delivery != Closed
  {
    InvIsCore(t);
    hide Inv, Core;
    CoreAt(t, id);
  }

  lemma FailKeeps(s: State, id: NotificationId, now: Instant, wall: WallTime)
    requires Inv(s) && s.lastNow <= now
    ensures var (t, e) := CloseLive(s, id, RenderFailed, now, wall); Failing(s, t, id, e.Ok?, now)
  {
    hide Inv, Core, Tuned, Exact, Prepare, Rebalance, ClosedSome, RenderFailures, CloseInner, HistoryOk;
    PrepareKeeps(s, now, wall);
    var t := Prepare(s, now, wall);
    OnlyOthersClosed(s, t, TimedOut);
    if id in t.entries {
      EntryIs(t, id);
      CloseTailKeeps(t, id, RenderFailed, now, wall);
      FailureLogged(t, id, now, wall);
    }
  }

  /** Giving up a list leaves none of it live, and records exactly the ones it closed. */
  lemma {:induction false} GivenUpKeeps(s: State, ids: seq<NotificationId>, now: Instant, wall: WallTime)
    requires Inv(s) && s.lastNow == now
    ensures var (t, failed) := GivenUp(s, ids, now, wall);
            && Inv(t) && t.lastNow == now && t.entries.Keys <= s.entries.Keys
            && (forall id :: id in ids ==> id !in t.entries) && (forall id :: id in failed ==> id in ids)
            && RenderFailures(t.history.log) == RenderFailures(s.history.log) + ToSet(failed)
  {
    hide Inv, CloseLive, RenderFailures, ToSet;
    if ids == [] {
      ToSetNone<NotificationId>();
    } else {
      var n := |ids| - 1;
      GivenUpKeeps(s, ids[..n], now, wall);
      var (t, failed) := GivenUp(s, ids[..n], now, wall);
      FailKeeps(t, ids[n], now, wall);
      ToSetAppend(failed, ids[n]);
      assert ids == ids[..n] + [ids[n]];
    }
  }

  lemma ToSetAppend<T>(s: seq<T>, x: T)
    ensures ToSet(s + [x]) == ToSet(s) + {x}
  {
  }

  // ---------- one tick ----------

  /** What every way through a tick delivers. */
  ghost predicate TickGood(v: Recon, s: State, out: Ticked, now: Instant) {
    var (u, t, r) := out;
    && ReconOk(u) && Inv(t) && v.reports <= u.reports
    && (r.Ok? <==> s.lastNow <= now) && (r.Err? ==> t == s)
    && (r.Ok? ==>
          && r.value.visible == u.successful && (t.available <==> u.successful != {})
          && t.lastNow == now && t.entries.Keys <= s.entries.Keys
          && RenderFailures(t.history.log) == RenderFailures(s.history.log) + ToSet(r.value.renderFailed))
  }

  lemma ToldGood(v: Recon, s: State, available: bool, status: ReconcileStatus, now: Instant, wall: WallTime)
    requires ReconOk(v) && Inv(s) && (available <==> v.successful != {})
    ensures TickGood(v, s, Told(v, s, available, status, [], now, wall), now)
  {
    hide ReconOk, Inv, SetDisplayAvailable, RenderFailures;
    OfferKeeps(s, available, now, wall);
    NoneGivenUp(s);
  }

  lemma NoneGivenUp(s: State)
    ensures RenderFailures(s.history.log) + ToSet([]) == RenderFailures(s.history.log)
  {
    ToSetNone<NotificationId>();
  }

  lemma TickGoodFrom(w: Recon, r: State, v: Recon, s: State, out: Ticked, now: Instant)
    requires TickGood(v, s, out, now) && w.reports <= v.reports && Offered(r, s, true, now) && r.lastNow <= now
    ensures TickGood(w, r, out, now)
  {
    hide ReconOk, Inv, RenderFailures, ToSet;
  }

  lemma NoWindowsGood(v: Recon, s: State, report: Option<Report>, now: Instant, wall: WallTime)
    requires ReconOk(v) && Inv(s)
    ensures var out := NoWindows(v, s, report, now, wall);
            TickGood(v, s, out, now) && (out.2.Ok? ==> out.2.value.visible == {} && out.2.value.renderFailed == [])
  {
    hide ReconOk, Inv, SetDisplayAvailable, RenderFailures, Emptied, Disconnected;
    OfferKeeps(s, false, now, wall);
    NoneGivenUp(s);
    DisconnectedOk(v, now);
    EmptiedQuiet(v);
    if report.Some? {
      EmptiedOk(v, report.value, now);
      EmptiedQuiet(Emptied(v, report.value, now));
    }
    DisconnectedEmpty(v, now);
  }

  lemma DisconnectedEmpty(v: Recon, now: Instant)
    ensures Disconnected(v, now).successful == {} && !Disconnected(v, now).connected
  {
  }

  lemma EmptiedQuiet(v: Recon)
    requires ReconOk(v)
    ensures ReconOk(v.(successful := {}, dirty := false))
  {
    hide RetriesTell, ConfirmedTell;
    FewerConfirmed(v.successful, {}, v.reports);
  }

  lemma ConcludedGood(v: Recon, s: State, content: set<WindowId>, ids: seq<NotificationId>, now: Instant,
                      wall: WallTime)
    requires ReconOk(v) && Inv(s) && s.lastNow == now
    ensures var (u, t, r) := Concluded(v, s, content, ids, now, wall);
            && TickGood(v, s, (u, t, r), now) && r.Ok?
            && (forall id :: id in r.value.renderFailed ==> id in ids)
            && (GivesUp(v, content) ==>
                  u == Cleared(v) && u.successful == {} && forall id :: id in ids ==> id !in t.entries)
            && (!GivesUp(v, content) ==> u == v && r.value.renderFailed == [])
  {
    hide ReconOk, Inv, SetDisplayAvailable, RenderFailures, GivenUp, ToSet;
    if GivesUp(v, content) {
      GivenUpKeeps(s, ids, now, wall);
      ClearedOk(v);
      OfferKeeps(GivenUp(s, ids, now, wall).0, false, now, wall);
    } else {
      ToldGood(v, s, v.successful != {}, v.Status(), now, wall);
    }
  }

  /** This tick shows the plan to the backend, and the backend reports. */
  predicate GetsReport(v: Recon, s: State, a: Answers, now: Instant, wall: WallTime) {
    var u := Heard(v, a, now);
    && u.connected && u.topology.eligible != {} && s.lastNow <= now && a.report.Some?
    && var w := Noticed(u, SetDisplayAvailable(s, true, now, wall).0, a.moved);
       w.dirty || w.RetryDue(now)
  }

  /** The reconciler once that report is counted. */
  function Judged(v: Recon, s: State, a: Answers, now: Instant, wall: WallTime): Recon
    requires a.report.Some?
  {
    var w := Noticed(Heard(v, a, now), SetDisplayAvailable(s, true, now, wall).0, a.moved);
    Reporting(w, a.content, a.report.value, now).(dirty := false)
  }

  /** The Notifications on display when the scheduler may display. */
  function Displayed(s: State, now: Instant, wall: WallTime): seq<NotificationId> {
    PlanIds(Plan(SetDisplayAvailable(s, true, now, wall).0))
  }

  /** Those on screen then. */
  lemma DisplayedMeans(s: State, now: Instant, wall: WallTime)
    ensures var t := SetDisplayAvailable(s, true, now, wall).0;
            forall id :: id in Displayed(s, now, wall)
              <==> (t.available && (t.attention == Some(id) || (t.attention.None? && id in t.active)))
  {
    hide SetDisplayAvailable;
  }

  lemma JudgedOk(v: Recon, s: State, a: Answers, now: Instant, wall: WallTime)
    requires ReconOk(v) && GetsReport(v, s, a, now, wall)
    ensures var x := Judged(v, s, a, now, wall);
            && ReconOk(x) && v.reports < x.reports && x.reports[|x.reports| - 1].Reported?
            && x.reports[|x.reports| - 1].content == a.content
  {
    hide ReconOk, Heard, Noticed, SetDisplayAvailable;
    var u := Heard(v, a, now);
    var t := SetDisplayAvailable(s, true, now, wall).0;
    HeardOk(v, a, now);
    NoticedOk(u, t, a.moved);
    var w := Noticed(u, t, a.moved);
    ReportingOk(w, a.content, a.report.value, now);
    DirtyOk(Reporting(w, a.content, a.report.value, now), false);
  }

  /** The tick that gets a report is the conclusion drawn from it. */
  lemma ReportedTick(v: Recon, s: State, a: Answers, now: Instant, wall: WallTime)
    requires Inv(s) && GetsReport(v, s, a, now, wall)
    ensures var t := SetDisplayAvailable(s, true, now, wall).0;
            && Offered(s, t, true, now)
            && Tick(v, s, a, now, wall)
               == Concluded(Judged(v, s, a, now, wall), t, a.content, Displayed(s, now, wall), now, wall)
  {
    hide Inv, Heard, Noticed, SetDisplayAvailable, Concluded, Reporting, Offered, PlanIds, Plan;
    OfferKeeps(s, true, now, wall);
  }

  /** Any other tick gives nothing up. */
  lemma OtherTick(v: Recon, s: State, a: Answers, now: Instant, wall: WallTime)
    requires ReconOk(v) && Inv(s) && !GetsReport(v, s, a, now, wall)
    ensures var out := Tick(v, s, a, now, wall);
            TickGood(v, s, out, now) && (out.2.Ok? ==> out.2.value.renderFailed == [])
  {
    hide ReconOk, Inv, Heard, TickGood, NoWindows;
    var u := Heard(v, a, now);
    HeardOk(v, a, now);
    if !u.connected {
      NotConnectedEmpty(u);
      ToldGood(u, s, false, NotConnected, now, wall);
      LaterGood(v, u, s, Tick(v, s, a, now, wall), now);
    } else if u.topology.eligible == {} {
      NoWindowsGood(u, s, a.report, now, wall);
      LaterGood(v, u, s, Tick(v, s, a, now, wall), now);
    } else {
      UnreportedGood(u, s, a, now, wall);
      LaterGood(v, u, s, Tick(v, s, a, now, wall), now);
    }
  }

  lemma NotConnectedEmpty(v: Recon)
    requires ReconOk(v) && !v.connected
    ensures v.successful == {}
  {
    hide RetriesTell, ConfirmedTell;
  }

  lemma LaterGood(v: Recon, u: Recon, s: State, out: Ticked, now: Instant)
    requires v.reports <= u.reports && TickGood(u, s, out, now)
    ensures TickGood(v, s, out, now)
  {
    hide ReconOk, Inv, RenderFailures, ToSet;
  }

  lemma UnreportedGood(u: Recon, s: State, a: Answers, now: Instant, wall: WallTime)
    requires ReconOk(u) && Inv(s)
    requires s.lastNow <= now ==>
               a.report.None?
               || var w := Noticed(u, SetDisplayAvailable(s, true, now, wall).0, a.moved); !w.dirty && !w.RetryDue(now)
    ensures var out := Present(u, s, a, now, wall);
            TickGood(u, s, out, now) && (out.2.Ok? ==> out.2.value.renderFailed == [])
  {
    hide ReconOk, Inv, SetDisplayAvailable, Noticed, Disconnected, Told, Concluded, Reporting, TickGood;
    OfferKeeps(s, true, now, wall);
    var t := SetDisplayAvailable(s, true, now, wall).0;
    if s.lastNow <= now {
      OfferedInv(s, t, true, now);
      NoticedOk(u, t, a.moved);
      var w := Noticed(u, t, a.moved);
      if !w.dirty && !w.RetryDue(now) {
        ToldGood(w, t, w.successful != {}, w.Status(), now, wall);
        TickGoodFrom(u, s, w, t, Present(u, s, a, now, wall), now);
      } else {
        DisconnectedOk(w, now);
        DisconnectedEmpty(w, now);
        ToldGood(Disconnected(w, now), t, false, NotConnected, now, wall);
        TickGoodFrom(u, s, Disconnected(w, now), t, Present(u, s, a, now, wall), now);
      }
      ToldNone(w, t, w.successful != {}, w.Status(), now, wall);
      ToldNone(Disconnected(w, now), t, false, NotConnected, now, wall);
    } else {
      RefusedGood(u, s, now);
    }
  }

  lemma OfferedInv(s: State, t: State, available: bool, now: Instant)
    requires Offered(s, t, available, now)
    ensures Inv(t) && t.lastNow == now
  {
    hide Inv;
  }

  lemma ToldNone(v: Recon, s: State, available: bool, status: ReconcileStatus, now: Instant, wall: WallTime)
    ensures var out := Told(v, s, available, status, [], now, wall); out.2.Ok? ==> out.2.value.renderFailed == []
  {
    hide SetDisplayAvailable;
  }

  lemma RefusedGood(v: Recon, s: State, now: Instant)
    requires ReconOk(v) && Inv(s) && now < s.lastNow
    ensures TickGood(v, s, (v, s, Err(TimeWentBackwards)), now)
  {
    hide ReconOk, Inv, RenderFailures;
  }

  /** Every tick keeps both invariants, fails only on a backwards clock, and tells the
      scheduler that it may display exactly when some window is confirmed. */
  lemma TickKeeps(v: Recon, s: State, a: Answers, now: Instant, wall: WallTime)
    requires ReconOk(v) && Inv(s)
    ensures TickGood(v, s, Tick(v, s, a, now, wall), now)
  {
    hide ReconOk, Inv, Tick, Judged, GetsReport, TickGood, SetDisplayAvailable, Displayed, Concluded;
    if GetsReport(v, s, a, now, wall) {
      ReportOnTime(v, s, a, now, wall);
      var x, t := Judged(v, s, a, now, wall), SetDisplayAvailable(s, true, now, wall).0;
      JudgedOk(v, s, a, now, wall);
      ReportedTick(v, s, a, now, wall);
      OfferedInv(s, t, true, now);
      ConcludedGood(x, t, a.content, Displayed(s, now, wall), now, wall);
      TickGoodFrom(v, s, x, t, Tick(v, s, a, now, wall), now);
    } else {
      OtherTick(v, s, a, now, wall);
    }
  }

  lemma ReportOnTime(v: Recon, s: State, a: Answers, now: Instant, wall: WallTime)
    requires GetsReport(v, s, a, now, wall)
    ensures s.lastNow <= now && a.report.Some?
  {
  }

  /** A tick gives Notifications up exactly when it got a report, no window is confirmed
      after it, and every window that should show something has failed three times since it
      was last applied or reset, this report included. Then it closes what is on display and
      nothing else, and forgets the attempts. */
  lemma GivesUpExactly(v: Recon, s: State, a: Answers, now: Instant, wall: WallTime)
    requires ReconOk(v) && Inv(s)
    ensures var (u, t, r) := Tick(v, s, a, now, wall);
            if GetsReport(v, s, a, now, wall) && Judged(v, s, a, now, wall).successful == {}
               && Exhausted(a.content, Judged(v, s, a, now, wall).reports)
            then
              && r.Ok? && r.value.visible == {} && u.reports == Judged(v, s, a, now, wall).reports + [AllReset]
              && v.reports < Judged(v, s, a, now, wall).reports
              && RenderFailures(t.history.log) == RenderFailures(s.history.log) + ToSet(r.value.renderFailed)
              && (forall id :: id in r.value.renderFailed ==> id in Displayed(s, now, wall))
              && (forall id :: id in Displayed(s, now, wall) ==> id !in t.entries)
            else
              RenderFailures(t.history.log) == RenderFailures(s.history.log) && (r.Ok? ==> r.value.renderFailed == [])
  {
    hide ReconOk, Inv, Tick, Judged, GetsReport, TickGood, SetDisplayAvailable, Displayed, Concluded, Exhausted,
      GivesUp, RenderFailures, ToSet, Cleared;
    TickKeeps(v, s, a, now, wall);
    TickFailures(v, s, Tick(v, s, a, now, wall), now);
    NoneGivenUp(s);
    if GetsReport(v, s, a, now, wall) {
      ReportOnTime(v, s, a, now, wall);
      var x, t := Judged(v, s, a, now, wall), SetDisplayAvailable(s, true, now, wall).0;
      JudgedOk(v, s, a, now, wall);
      ReportedTick(v, s, a, now, wall);
      OfferedInv(s, t, true, now);
      GivesUpIffExhausted(x, a.content);
      ConcludedGood(x, t, a.content, Displayed(s, now, wall), now, wall);
      ClearedLog(x);
    } else {
      OtherTick(v, s, a, now, wall);
    }
  }

  lemma ClearedLog(v: Recon)
    ensures Cleared(v).reports == v.reports + [AllReset]
  {
  }

  lemma TickFailures(v: Recon, s: State, out: Ticked, now: Instant)
    requires TickGood(v, s, out, now)
    ensures out.2.Err? ==> out.1 == s
    ensures out.2.Ok? ==>
      && out.2.value.visible == out.0.successful
      && RenderFailures(out.1.history.log) == RenderFailures(s.history.log) + ToSet(out.2.value.renderFailed)
  {
    hide ReconOk, Inv, RenderFailures, ToSet;
  }

  /** The scheduler may display only if the backend is connected and the last applied report
      of some window said that it shows something. */
  lemma DisplayIsShown(v: Recon, s: State, a: Answers, now: Instant, wall: WallTime)
    requires ReconOk(v) && Inv(s) && s.lastNow <= now
    ensures var (u, t, r) := Tick(v, s, a, now, wall);
            && (t.available <==> u.successful != {})
            && (t.available ==> u.connected && exists w :: w in u.successful && Showing(u.reports, w))
  {
    hide Inv, Tick, Showing, RetriesTell, RenderFailures, ToSet;
    TickKeeps(v, s, a, now, wall);
    var u := Tick(v, s, a, now, wall).0;
    if u.successful != {} {
      var w :| w in u.successful;
      assert Showing(u.reports, w);
    }
  }

  // ---------- reconnecting ----------

  /** Until the next attempt is due the backend is not asked anything. */
  lemma WaitingTick(v: Recon, s: State, a: Answers, b: Answers, now: Instant, wall: WallTime)
    requires !v.connected && now < v.nextReconnectAt
    ensures Tick(v, s, a, now, wall) == Tick(v, s, b, now, wall) && Tick(v, s, a, now, wall).0 == v
  {
    hide Told;
    assert Told(v, s, false, NotConnected, [], now, wall).0 == v by { ToldSame(v, s, now, wall); }
  }

  lemma ToldSame(v: Recon, s: State, now: Instant, wall: WallTime)
    ensures Told(v, s, false, NotConnected, [], now, wall).0 == v
  {
    hide SetDisplayAvailable;
  }

  function Pow2(n: nat): nat {
    if n == 0 then 1 else 2 * Pow2(n - 1)
  }

  /** Attempts that fail at these times, one after the other. */
  function Tried(v: Recon, times: seq<Instant>): Recon {
    if times == [] then v else Reconnecting(Tried(v, times[..|times| - 1]), times[|times| - 1])
  }

  function Capped(d: Duration): Duration {
    if d <= MAX_RECONNECT_BACKOFF then d else MAX_RECONNECT_BACKOFF
  }

  /** The n-th attempt in a row that fails puts the next one off by a tenth of a second
      doubled n - 1 times, five seconds at most. */
  lemma {:induction false} BackoffDoubles(v: Recon, times: seq<Instant>)
    requires v.reconnectBackoff == INITIAL_RECONNECT_BACKOFF
    ensures Tried(v, times).reconnectBackoff == Capped(INITIAL_RECONNECT_BACKOFF * Pow2(|times|))
    ensures times != [] ==> Tried(v, times).nextReconnectAt
                            == times[|times| - 1] + Capped(INITIAL_RECONNECT_BACKOFF * Pow2(|times| - 1))
  {
    if times != [] { BackoffDoubles(v, times[..|times| - 1]); }
  }
}
