/** The window reconciler as the daemon holds it, updated in place. Every method is proved to
    compute the function of the same name in WindowPolicy.dfy, whose laws are in
    WindowPolicyLaws.dfy. The backend's answers are parameters. */
module WindowReconciliation {
  import opened Wrappers
  import opened Notifications
  import opened Seqs
  import opened SchedulerModel
  import opened SchedulerInvariant
  import opened SchedulerDisplay
  import opened LiveSchedulers
  import opened WindowPolicy
  import opened WindowPolicyLaws
  import opened WindowPolicyAsks

  lemma CountedOne(retries: Retries, applied: set<WindowId>, failed: set<WindowId>, w: WindowId, now: Instant)
    requires w !in applied && w !in failed && applied !! failed
    ensures Counted(retries, applied, failed + {w}, now)
            == Counted(retries, applied, failed, now)[w := Struck(Counted(retries, applied, failed, now), w, now)]
  {
  }

  lemma CountedApplied(retries: Retries, applied: set<WindowId>, failed: set<WindowId>, w: WindowId, now: Instant)
    requires w !in applied && w !in failed && applied !! failed
    ensures Counted(retries, applied + {w}, failed, now) == Counted(retries, applied, failed, now) - {w}
  {
  }

  lemma CountedNone(retries: Retries, now: Instant)
    ensures Counted(retries, {}, {}, now) == retries
  {
  }

  lemma CountedTwice(retries: Retries, applied: set<WindowId>, failed: set<WindowId>, others: set<WindowId>,
                     now: Instant)
    requires applied !! failed && others !! (applied + failed)
    ensures Counted(Counted(retries, applied, failed, now), {}, others, now)
            == Counted(retries, applied, failed + others, now)
  {
  }

  /** The windows confirmed when the eligible ones outside `rest` have been gone through. */
  ghost function Confirmed(eligible: set<WindowId>, rest: set<WindowId>, applied: set<WindowId>,
                           content: set<WindowId>, before: set<WindowId>): set<WindowId>
  {
    (eligible - rest) * applied * content + (eligible - (eligible - rest) * applied) * before
  }

  lemma ConfirmedNext(eligible: set<WindowId>, rest: set<WindowId>, applied: set<WindowId>,
                      content: set<WindowId>, before: set<WindowId>, w: WindowId)
    requires rest <= eligible && w in rest
    ensures var c := Confirmed(eligible, rest, applied, content, before);
            Confirmed(eligible, rest - {w}, applied, content, before)
            == if w !in applied then c else if w in content then c + {w} else c - {w}
  {
  }

  lemma ConfirmedAll(eligible: set<WindowId>, applied: set<WindowId>, content: set<WindowId>, before: set<WindowId>)
    ensures Confirmed(eligible, {}, applied, content, before)
            == eligible * applied * content + (eligible - applied) * before
    ensures Confirmed(eligible, eligible, applied, content, before) == eligible * before
  {
  }

  /** The retries when the eligible windows outside `rest` have been gone through. */
  ghost function CountedFor(retries: Retries, eligible: set<WindowId>, rest: set<WindowId>, applied: set<WindowId>,
                            now: Instant): Retries
  {
    Counted(retries, (eligible - rest) * applied, (eligible - rest) - applied, now)
  }

  lemma CountedNext(retries: Retries, eligible: set<WindowId>, rest: set<WindowId>, applied: set<WindowId>,
                    w: WindowId, now: Instant)
    requires rest <= eligible && w in rest
    ensures var c := CountedFor(retries, eligible, rest, applied, now);
            CountedFor(retries, eligible, rest - {w}, applied, now)
            == if w in applied then c - {w} else c[w := Struck(c, w, now)]
  {
    hide Counted, Struck;
    var done := eligible - rest;
    assert eligible - (rest - {w}) == done + {w};
    if w in applied {
      assert (done + {w}) * applied == done * applied + {w} && (done + {w}) - applied == done - applied;
      CountedApplied(retries, done * applied, done - applied, w, now);
    } else {
      assert (done + {w}) * applied == done * applied && (done + {w}) - applied == (done - applied) + {w};
      CountedOne(retries, done * applied, done - applied, w, now);
    }
  }

  lemma CountedAll(retries: Retries, eligible: set<WindowId>, applied: set<WindowId>, now: Instant)
    ensures CountedFor(retries, eligible, eligible, applied, now) == retries
    ensures CountedFor(retries, eligible, {}, applied, now)
            == Counted(retries, eligible * applied, eligible - applied, now)
  {
    CountedNone(retries, now);
    assert (eligible - eligible) * applied == {} && (eligible - eligible) - applied == {};
    assert eligible - {} == eligible;
  }

  class WindowReconciler {
    var topology: Topology
    var connected: bool
    var dirty: bool
    var successful: set<WindowId>
    var retries: Retries
    var contentRevision: nat
    var nextReconnectAt: Instant
    var reconnectBackoff: Duration
    ghost var reports: seq<ReportEvent>

    ghost function View(): Recon
      reads this
    {
      Recon(topology, connected, dirty, successful, retries, contentRevision, nextReconnectAt, reconnectBackoff,
            reports)
    }

    ghost predicate Valid()
      reads this
    {
      ReconOk(View())
    }

    constructor (now: Instant)
      ensures Valid() && View() == NewRecon(now)
    {
      topology := Topology({}, "");
      connected, dirty, successful, retries, contentRevision := false, true, {}, map[], 0;
      nextReconnectAt, reconnectBackoff := now, INITIAL_RECONNECT_BACKOFF;
      reports := [];
    }

    method ClearRetries()
      modifies this
      ensures View() == Cleared(old(View()))
    {
      retries := map[];
      reports := reports + [AllReset];
    }

    method RecordFailure(window: WindowId, now: Instant)
      modifies this`retries
      ensures retries == old(retries)[window := Struck(old(retries), window, now)]
    {
      var attempts := if window in retries then retries[window].attempts else 0;
      attempts := if attempts < 255 then attempts + 1 else 255;
      retries := retries[window := RetryState(attempts, now + RenderBackoff(attempts))];
    }

    method ScheduleReconnect(now: Instant)
      modifies this
      ensures View() == Reconnecting(old(View()), now)
    {
      connected := false;
      nextReconnectAt := now + reconnectBackoff;
      var doubled := reconnectBackoff * 2;
      reconnectBackoff := if doubled <= MAX_RECONNECT_BACKOFF then doubled else MAX_RECONNECT_BACKOFF;
    }

    method Disconnect(now: Instant)
      modifies this
      ensures View() == Disconnected(old(View()), now)
    {
      successful := {};
      ScheduleReconnect(now);
    }

    method PollEvents(polls: seq<Polled>, now: Instant)
      modifies this
      ensures View() == AfterPolls(old(View()), polls, now, MAX_EVENTS_PER_TICK)
      ensures old(connected) ==> PollsHeard(old(View()), View(), polls, MAX_EVENTS_PER_TICK, now)
    {
      hide Cleared, Disconnected, PollsHeard;
      if connected { PollsTell(View(), polls, now, MAX_EVENTS_PER_TICK); }
      assert polls[0..] == polls;
      for i := 0 to MAX_EVENTS_PER_TICK
        invariant i <= |polls|
        invariant AfterPolls(View(), polls[i..], now, MAX_EVENTS_PER_TICK - i)
               == AfterPolls(old(View()), polls, now, MAX_EVENTS_PER_TICK)
      {
        if i == |polls| {
          return;
        }
        assert polls[i..][1..] == polls[i + 1..];
        match polls[i]
        case Nothing => return;
        case Happened(TopologyChanged) =>
          dirty := true;
          ClearRetries();
        case Happened(Disconnection) =>
          Disconnect(now);
          return;
        case PollFailed =>
          Disconnect(now);
          return;
      }
    }

    /** Connects, or refreshes a doubtful topology. */
    method Refresh(snapshot: Option<Topology>, now: Instant) returns (usable: bool)
      modifies this
      ensures View() == AfterRefresh(old(View()), snapshot, now) && usable == connected
    {
      if !connected {
        if now < nextReconnectAt {
          return false;
        }
        if snapshot.None? {
          ScheduleReconnect(now);
          return false;
        }
        topology, connected, dirty := snapshot.value, true, true;
        reconnectBackoff := INITIAL_RECONNECT_BACKOFF;
        ClearRetries();
      } else if dirty {
        if snapshot.None? {
          Disconnect(now);
          return false;
        }
        if snapshot.value != topology {
          topology := snapshot.value;
            ClearRetries();
        }
      }
      return connected;
    }

    method RecordFailures(windows: set<WindowId>, now: Instant)
      modifies this`retries
      ensures retries == Counted(old(retries), {}, windows, now)
    {
      hide Counted;
      CountedNone(retries, now);
      var rest := windows;
      assert windows - windows == {};
      while rest != {}
        invariant rest <= windows && retries == Counted(old(retries), {}, windows - rest, now)
        decreases |rest|
      {
        var w :| w in rest;
        CountedOne(old(retries), {}, windows - rest, w, now);
        assert windows - (rest - {w}) == (windows - rest) + {w};
        rest := rest - {w};
        RecordFailure(w, now);
      }
      assert windows - {} == windows;
    }

    method ReportWindow(w: WindowId, shows: bool, applied: bool, now: Instant)
      modifies this`retries, this`successful
      ensures retries == if applied then old(retries) - {w} else old(retries)[w := Struck(old(retries), w, now)]
      ensures successful == if !applied then old(successful)
                            else if shows then old(successful) + {w} else old(successful) - {w}
    {
      if applied {
        retries := retries - {w};
        successful := if shows then successful + {w} else successful - {w};
      } else {
        RecordFailure(w, now);
      }
    }

    /** The part of a report that is about the eligible windows. */
    method ApplyEligible(content: set<WindowId>, applied: set<WindowId>, now: Instant)
      modifies this`retries, this`successful
      ensures var eligible := topology.eligible;
              && retries == Counted(old(retries), eligible * applied, eligible - applied, now)
              && successful == eligible * applied * content + (eligible - applied) * old(successful)
    {
      hide Counted, CountedFor, Confirmed, Struck;
      var eligible := topology.eligible;
      ConfirmedAll(eligible, applied, content, successful);
      CountedAll(retries, eligible, applied, now);
      successful := successful * eligible;
      var rest := eligible;
      while rest != {}
        invariant rest <= eligible
        invariant retries == CountedFor(old(retries), eligible, rest, applied, now)
        invariant successful == Confirmed(eligible, rest, applied, content, old(successful))
        decreases |rest|
      {
        var w :| w in rest;
        CountedNext(old(retries), eligible, rest, applied, w, now);
        ConfirmedNext(eligible, rest, applied, content, old(successful), w);
        rest := rest - {w};
        ReportWindow(w, w in content, w in applied, now);
      }
    }

    /** A confirmed window stays confirmed through a failed update; only an applied report
        says whether it shows something. */
    method ApplyReport(content: set<WindowId>, report: Report, now: Instant)
      modifies this
      ensures View() == Reporting(old(View()), content, report, now)
    {
      hide Counted, Struck;
      var eligible := topology.eligible;
      ApplyEligible(content, report.applied, now);
      CountedTwice(old(retries), eligible * report.applied, eligible - report.applied, report.failed - eligible, now);
      RecordFailures(report.failed - eligible, now);
      reports := reports + [Reported(eligible * report.applied, content,
                                     (eligible - report.applied) + (report.failed - eligible))];
    }

    predicate RetryDue(now: Instant)
      reads this
      ensures RetryDue(now) <==> View().RetryDue(now)
    {
      exists w :: w in retries && retries[w].attempts < MAX_RENDER_ATTEMPTS && retries[w].retryAt <= now
    }

    function Status(): (status: ReconcileStatus)
      reads this
      ensures status == View().Status()
    {
      if retries == map[] then AllApplied else WaitingForRetry
    }

    /** Tells the scheduler whether it may display, and reports the confirmed windows. */
    method Tell(scheduler: LiveScheduler, available: bool, status: ReconcileStatus, failed: seq<NotificationId>,
                now: Instant, wall: WallTime)
      returns (r: Result<Outcome, SchedulerError>)
      requires scheduler.Valid()
      modifies scheduler
      ensures scheduler.Valid()
      ensures (View(), scheduler.View(), r)
              == Told(old(View()), old(scheduler.View()), available, status, failed, now, wall)
    {
      hide Inv, SchedulerModel.SetDisplayAvailable;
      var told := scheduler.SetDisplayAvailable(available, now, wall);
      if told.Err? {
        return Err(told.error);
      }
      return Ok(Outcome(status, successful, failed));
    }

    /** Nowhere to display anything: the scheduler hears so first, then the panes are cleared. */
    method NoWindows(scheduler: LiveScheduler, report: Option<Report>, now: Instant, wall: WallTime)
      returns (r: Result<Outcome, SchedulerError>)
      requires Valid() && scheduler.Valid()
      modifies this, scheduler
      ensures scheduler.Valid()
      ensures (View(), scheduler.View(), r)
              == WindowPolicy.NoWindows(old(View()), old(scheduler.View()), report, now, wall)
      ensures r.Ok? ==> r.value.visible == {} && successful == {} && !scheduler.displayAvailable
      ensures RenderFailures(scheduler.history.log) == RenderFailures(old(scheduler.history.log))
    {
      hide Inv, SchedulerModel.SetDisplayAvailable, RenderFailures, ReconOk, Counted;
      OfferKeeps(scheduler.View(), false, now, wall);
      var told := scheduler.SetDisplayAvailable(false, now, wall);
      if told.Err? {
        return Err(told.error);
      }
      if dirty || successful != {} || RetryDue(now) {
        if report.None? {
          Disconnect(now);
          return Ok(Outcome(NotConnected, {}, []));
        }
        if report.value.failed == {} {
          ClearRetries();
        } else {
          RecordFailures(report.value.failed, now);
          reports := reports + [Reported({}, {}, report.value.failed)];
        }
      }
      successful := {};
      dirty := false;
      return Ok(Outcome(Status(), {}, []));
    }

    /** Every Notification on display is given up. Closing may fail; that is no error. */
    method GiveUp(scheduler: LiveScheduler, ids: seq<NotificationId>, now: Instant, wall: WallTime)
      returns (failed: seq<NotificationId>)
      requires scheduler.Valid()
      modifies scheduler
      ensures scheduler.Valid() && (scheduler.View(), failed) == GivenUp(old(scheduler.View()), ids, now, wall)
    {
      hide Inv, CloseLive;
      failed := [];
      for i := 0 to |ids|
        invariant scheduler.Valid()
        invariant (scheduler.View(), failed) == GivenUp(old(scheduler.View()), ids[..i], now, wall)
      {
        assert ids[..i + 1][..i] == ids[..i];
        var closed := scheduler.FailRendering(ids[i], now, wall);
        if closed.Ok? {
          failed := failed + [ids[i]];
        }
      }
      assert ids[..|ids|] == ids;
    }

    /** After a report: gives up what no window could show after three tries, then tells the
        scheduler. The panes cleared afterwards are best effort. */
    method Conclude(scheduler: LiveScheduler, content: set<WindowId>, ids: seq<NotificationId>, now: Instant,
                    wall: WallTime)
      returns (r: Result<Outcome, SchedulerError>)
      requires scheduler.Valid()
      modifies this, scheduler
      ensures scheduler.Valid()
      ensures (View(), scheduler.View(), r)
              == Concluded(old(View()), old(scheduler.View()), content, ids, now, wall)
    {
      hide Inv, Told, GivenUp;
      var failed: seq<NotificationId> := [];
      if content != {} && successful == {}
         && forall w :: w in content ==> w in retries && retries[w].attempts >= MAX_RENDER_ATTEMPTS {
        failed := GiveUp(scheduler, ids, now, wall);
        ClearRetries();
      }
      r := Tell(scheduler, successful != {}, Status(), failed, now, wall);
    }

    method DisplayedIds(scheduler: LiveScheduler) returns (ids: seq<NotificationId>)
      requires scheduler.Valid()
      ensures ids == PlanIds(Plan(scheduler.View()))
    {
      var plan := scheduler.GetDisplayPlan();
      return PlanIds(plan);
    }

    method Present(scheduler: LiveScheduler, a: Answers, now: Instant, wall: WallTime)
      returns (r: Result<Outcome, SchedulerError>)
      requires scheduler.Valid()
      modifies this, scheduler
      ensures scheduler.Valid()
      ensures (View(), scheduler.View(), r)
              == WindowPolicy.Present(old(View()), old(scheduler.View()), a, now, wall)
    {
      hide Inv, SchedulerModel.SetDisplayAvailable, Told, Concluded, Reporting, Disconnected, Plan, PlanIds,
        ShowsExactly;
      var told := scheduler.SetDisplayAvailable(true, now, wall);
      if told.Err? {
        return Err(told.error);
      }
      var ids := DisplayedIds(scheduler);
      if scheduler.contentRevision != contentRevision {
        contentRevision := scheduler.contentRevision;
        ClearRetries();
        dirty := true;
      }
      dirty := dirty || a.moved;
      if !dirty && !RetryDue(now) {
        r := Tell(scheduler, successful != {}, Status(), [], now, wall);
        return;
      }
      if a.report.None? {
        Disconnect(now);
        r := Tell(scheduler, false, NotConnected, [], now, wall);
        return;
      }
      ApplyReport(a.content, a.report.value, now);
      dirty := false;
      r := Conclude(scheduler, a.content, ids, now, wall);
    }

    /** One tick. Notifications are given up only when, by the reports up to and including
        this tick's, every window that should show something is out of attempts; and then only
        those on display. */
    method Tick(scheduler: LiveScheduler, a: Answers, now: Instant, wall: WallTime)
      returns (r: Result<Outcome, SchedulerError>)
      requires Valid() && scheduler.Valid()
      modifies this, scheduler
      ensures Valid() && scheduler.Valid()
      ensures (View(), scheduler.View(), r)
              == WindowPolicy.Tick(old(View()), old(scheduler.View()), a, now, wall)
      ensures r.Ok? <==> old(scheduler.lastNow) <= now
      ensures r.Ok? ==> r.value.visible == successful && (scheduler.displayAvailable <==> successful != {})
      ensures topology == TopologyNow(old(View()), a, now)
      ensures r.Ok? ==> Acted(old(View()), View(), old(scheduler.View()), r, a, now, wall)
      ensures GaveUpFairly(old(View()), View(), old(scheduler.View()), scheduler.View(), a, now, wall)
    {
      hide Acted, TopologyNow, PollsHeard, Inv, ReconOk, Told, WindowPolicy.NoWindows, WindowPolicy.Present,
        AfterPolls, AfterRefresh, GaveUpFairly;
      TickLaws(View(), scheduler.View(), a, now, wall);
      if connected {
        PollEvents(a.polls, now);
      }
      HeardOk(old(View()), a, now);
      var usable := Refresh(a.snapshot, now);
      if !usable {
        r := Tell(scheduler, false, NotConnected, [], now, wall);
      } else if topology.eligible == {} {
        r := NoWindows(scheduler, a.report, now, wall);
      } else {
        r := Present(scheduler, a, now, wall);
      }
    }
  }

  /** What is newly recorded as failed to render was on display, nothing of that is live any
      more, and the windows with content had used up their attempts in the reports before the
      reset that ends the tick, at least one of them this tick's. */
  ghost predicate GaveUpFairly(v: Recon, u: Recon, s: State, t: State, a: Answers, now: Instant, wall: WallTime) {
    RenderFailures(t.history.log) != RenderFailures(s.history.log) ==>
      && u.reports != [] && u.reports[|u.reports| - 1] == AllReset && u.successful == {}
      && v.reports < u.reports[..|u.reports| - 1] && Exhausted(a.content, u.reports[..|u.reports| - 1])
      && RenderFailures(t.history.log) <= RenderFailures(s.history.log) + ToSet(Displayed(s, now, wall))
      && (forall id :: id in Displayed(s, now, wall) ==> id !in t.entries)
  }

  /** Every law the object's tick states. */
  lemma TickLaws(v: Recon, s: State, a: Answers, now: Instant, wall: WallTime)
    requires ReconOk(v) && Inv(s)
    ensures var (u, t, r) := WindowPolicy.Tick(v, s, a, now, wall);
            && ReconOk(u) && Inv(t) && (r.Ok? <==> s.lastNow <= now)
            && (r.Ok? ==> r.value.visible == u.successful && (t.available <==> u.successful != {}))
            && u.topology == TopologyNow(v, a, now) && (r.Ok? ==> Acted(v, u, s, r, a, now, wall))
            && GaveUpFairly(v, u, s, t, a, now, wall)
  {
    hide Inv, ReconOk, WindowPolicy.Tick, TickGood, Acted, TopologyNow, GaveUpFairly;
    TickKeeps(v, s, a, now, wall);
    GivesUpFairly(v, s, a, now, wall);
    TopologyTaken(v, s, a, now, wall);
    if s.lastNow <= now { TickActs(v, s, a, now, wall); }
    GoodParts(v, s, WindowPolicy.Tick(v, s, a, now, wall), now);
  }

  lemma GoodParts(v: Recon, s: State, out: Ticked, now: Instant)
    requires TickGood(v, s, out, now)
    ensures var (u, t, r) := out;
            && ReconOk(u) && Inv(t) && (r.Ok? <==> s.lastNow <= now)
            && (r.Ok? ==> r.value.visible == u.successful && (t.available <==> u.successful != {}))
  {
    hide Inv, ReconOk, RenderFailures, ToSet;
  }

  lemma GivesUpFairly(v: Recon, s: State, a: Answers, now: Instant, wall: WallTime)
    requires ReconOk(v) && Inv(s)
    ensures var (u, t, _) := WindowPolicy.Tick(v, s, a, now, wall); GaveUpFairly(v, u, s, t, a, now, wall)
  {
    hide Inv, ReconOk, WindowPolicy.Tick, RenderFailures, Exhausted, Judged, GetsReport, Displayed, TickGood;
    GivesUpExactly(v, s, a, now, wall);
    TickKeeps(v, s, a, now, wall);
    var out := WindowPolicy.Tick(v, s, a, now, wall);
    TickFailures(v, s, out, now);
    if GetsReport(v, s, a, now, wall) {
      ReportOnTime(v, s, a, now, wall);
      var x := Judged(v, s, a, now, wall);
      assert (x.reports + [AllReset])[..|x.reports + [AllReset]| - 1] == x.reports;
    }
  }
}
