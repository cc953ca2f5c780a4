/** The daemon's policy over a backend that may fail, as a value: when to retry, when to give
    up, and when the scheduler may believe that something is on screen.

    What the backend answers during a tick is the parameter `Answers`; so are the plan's
    contents, which depend on layout and animation. The class in WindowReconciler.dfy is
    proved to compute exactly these functions; the laws are in WindowPolicyLaws.dfy. */
module WindowPolicy {
  import opened Wrappers
  import opened Notifications
  import opened SchedulerModel

  type WindowId = string

  const MAX_EVENTS_PER_TICK := 128
  const MAX_RENDER_ATTEMPTS := 3
  const INITIAL_RENDER_BACKOFF: Duration := 50_000_000
  const INITIAL_RECONNECT_BACKOFF: Duration := 100_000_000
  const MAX_RECONNECT_BACKOFF: Duration := 5_000_000_000

  datatype BackendEvent = TopologyChanged | Disconnection
  datatype Polled = Nothing | Happened(event: BackendEvent) | PollFailed
  /** The eligible windows, and whatever else a snapshot holds. */
  datatype Topology = Topology(eligible: set<WindowId>, rest: string)
  datatype Report = Report(applied: set<WindowId>, failed: set<WindowId>)
  datatype ReconcileStatus = AllApplied | WaitingForRetry | NotConnected
  datatype Outcome = Outcome(status: ReconcileStatus, visible: set<WindowId>, renderFailed: seq<NotificationId>)

  /** What the backend answers when asked during one tick: events in order, a topology
      snapshot, the report on the plan; None is an error. `content` are the windows whose
      desired displays are not empty, and `moved` says that the plan or an animation moved. */
  datatype Answers = Answers(polls: seq<Polled>, snapshot: Option<Topology>, moved: bool, content: set<WindowId>,
                             report: Option<Report>)

  /** `attempts` is a byte that saturates. */
  datatype RetryState = RetryState(attempts: nat, retryAt: Instant)
  type Retries = map<WindowId, RetryState>

  /** What reports said, in order: the windows applied, the windows that should show something
      once they are, and the windows failed. All counters may be reset in between. */
  datatype ReportEvent = Reported(applied: set<WindowId>, content: set<WindowId>, failed: set<WindowId>) | AllReset

  /** The fields of the reconciler. No operation reads `reports`. */
  datatype Recon = Recon(
    topology: Topology,
    connected: bool,
    dirty: bool,
    successful: set<WindowId>,
    retries: Retries,
    contentRevision: nat,
    nextReconnectAt: Instant,
    reconnectBackoff: Duration,
    reports: seq<ReportEvent>)
  {
    function Status(): ReconcileStatus {
      if retries == map[] then AllApplied else WaitingForRetry
    }

    predicate RetryDue(now: Instant) {
      exists w :: w in retries && retries[w].attempts < MAX_RENDER_ATTEMPTS && retries[w].retryAt <= now
    }
  }

  function NewRecon(now: Instant): Recon {
    Recon(Topology({}, ""), false, true, {}, map[], 0, now, INITIAL_RECONNECT_BACKOFF, [])
  }

  // ---------- counters and connection ----------

  function RenderBackoff(attempts: nat): Duration {
    INITIAL_RENDER_BACKOFF * if attempts > 0 then attempts else 1
  }

  function Struck(retries: Retries, w: WindowId, now: Instant): RetryState {
    var before := if w in retries then retries[w].attempts else 0;
    var attempts := if before < 255 then before + 1 else 255;
    RetryState(attempts, now + RenderBackoff(attempts))
  }

  /** `applied` windows leave the retries, `failed` ones count one more attempt. */
  function Counted(retries: Retries, applied: set<WindowId>, failed: set<WindowId>, now: Instant): Retries {
    map w | w in (retries.Keys - applied) + failed :: if w in failed then Struck(retries, w, now) else retries[w]
  }

  function Cleared(v: Recon): Recon {
    v.(retries := map[], reports := v.reports + [AllReset])
  }

  function Reconnecting(v: Recon, now: Instant): Recon {
    v.(connected := false,
       nextReconnectAt := now + v.reconnectBackoff,
       reconnectBackoff := if v.reconnectBackoff * 2 <= MAX_RECONNECT_BACKOFF then v.reconnectBackoff * 2
                           else MAX_RECONNECT_BACKOFF)
  }

  function Disconnected(v: Recon, now: Instant): Recon {
    Reconnecting(v.(successful := {}), now)
  }

  /** At most `budget` events are read; a lost connection ends the reading. */
  function AfterPolls(v: Recon, polls: seq<Polled>, now: Instant, budget: nat): Recon
    decreases budget
  {
    if budget == 0 || polls == [] then v
    else match polls[0]
      case Nothing => v
      case Happened(TopologyChanged) => AfterPolls(Cleared(v.(dirty := true)), polls[1..], now, budget - 1)
      case Happened(Disconnection) => Disconnected(v, now)
      case PollFailed => Disconnected(v, now)
  }

  /** Connects when it is time, or refreshes a doubtful topology. */
  function AfterRefresh(v: Recon, snapshot: Option<Topology>, now: Instant): Recon {
    if !v.connected then
      if now < v.nextReconnectAt then v
      else match snapshot
        case None => Reconnecting(v, now)
        case Some(t) =>
          Cleared(v.(topology := t, connected := true, dirty := true, reconnectBackoff := INITIAL_RECONNECT_BACKOFF))
    else if v.dirty then
      match snapshot
      case None => Disconnected(v, now)
      case Some(t) => if t != v.topology then Cleared(v.(topology := t)) else v
    else v
  }

  // ---------- reports ----------

  /** A confirmed window stays confirmed through a failed update; only an applied report
      says whether it shows something. */
  function Reporting(v: Recon, content: set<WindowId>, report: Report, now: Instant): Recon {
    var eligible := v.topology.eligible;
    var applied := eligible * report.applied;
    var failed := (eligible - report.applied) + (report.failed - eligible);
    v.(successful := applied * content + (eligible - report.applied) * v.successful,
       retries := Counted(v.retries, applied, failed, now),
       reports := v.reports + [Reported(applied, content, failed)])
  }

  // ---------- one tick ----------

  type Ticked = (Recon, State, Result<Outcome, SchedulerError>)

  /** The scheduler hears whether it may display, and the windows confirmed are reported. */
  function Told(v: Recon, s: State, available: bool, status: ReconcileStatus, failed: seq<NotificationId>,
                now: Instant, wall: WallTime): Ticked
  {
    var (t, e) := SetDisplayAvailable(s, available, now, wall);
    (v, t, match e case Ok(_) => Ok(Outcome(status, v.successful, failed)) case Err(error) => Err(error))
  }

  /** The panes cleared, as far as the report goes. */
  function Emptied(v: Recon, report: Report, now: Instant): Recon {
    if report.failed == {} then Cleared(v)
    else v.(retries := Counted(v.retries, {}, report.failed, now),
            reports := v.reports + [Reported({}, {}, report.failed)])
  }

  /** Nowhere to display anything: the scheduler hears so first, then the panes are cleared. */
  function NoWindows(v: Recon, s: State, report: Option<Report>, now: Instant, wall: WallTime): Ticked {
    var (t, e) := SetDisplayAvailable(s, false, now, wall);
    if e.Err? then (v, t, Err(e.error))
    else if (v.dirty || v.successful != {} || v.RetryDue(now)) && report.None? then
      (Disconnected(v, now), t, Ok(Outcome(NotConnected, {}, [])))
    else
      var u := if v.dirty || v.successful != {} || v.RetryDue(now) then Emptied(v, report.value, now) else v;
      (u.(successful := {}, dirty := false), t, Ok(Outcome(u.Status(), {}, [])))
  }

  function PlanIds(plan: DisplayPlan): seq<NotificationId> {
    (if plan.attention.Some? then [plan.attention.value] else []) + plan.toasts
  }

  /** Every Notification on display is given up. Closing may fail; that is no error. */
  function GivenUp(s: State, ids: seq<NotificationId>, now: Instant, wall: WallTime): (State, seq<NotificationId>) {
    if ids == [] then (s, [])
    else
      var n := |ids| - 1;
      var (t, failed) := GivenUp(s, ids[..n], now, wall);
      var (u, e) := CloseLive(t, ids[n], RenderFailed, now, wall);
      (u, if e.Ok? then failed + [ids[n]] else failed)
  }

  /** Nothing is confirmed, and no window that should show something has attempts left. */
  predicate GivesUp(v: Recon, content: set<WindowId>) {
    && content != {} && v.successful == {}
    && forall w :: w in content ==> w in v.retries && v.retries[w].attempts >= MAX_RENDER_ATTEMPTS
  }

  function Concluded(v: Recon, s: State, content: set<WindowId>, ids: seq<NotificationId>, now: Instant, wall: WallTime)
    : Ticked
  {
    if GivesUp(v, content) then
      var (t, failed) := GivenUp(s, ids, now, wall);
      var u := Cleared(v);
      Told(u, t, u.successful != {}, u.Status(), failed, now, wall)
    else Told(v, s, v.successful != {}, v.Status(), [], now, wall)
  }

  /** New content forgets the attempts made for the old. */
  function Noticed(v: Recon, t: State, moved: bool): Recon {
    var u := if t.contentRevision != v.contentRevision
             then Cleared(v.(contentRevision := t.contentRevision)).(dirty := true) else v;
    u.(dirty := u.dirty || moved)
  }

  /** The scheduler may select what to display without time advancing; what the backend
      then confirms decides what it is told. */
  function Present(v: Recon, s: State, a: Answers, now: Instant, wall: WallTime): Ticked {
    var (t, e) := SetDisplayAvailable(s, true, now, wall);
    if e.Err? then (v, t, Err(e.error))
    else
      var u := Noticed(v, t, a.moved);
      if !u.dirty && !u.RetryDue(now) then Told(u, t, u.successful != {}, u.Status(), [], now, wall)
      else match a.report
        case None => Told(Disconnected(u, now), t, false, NotConnected, [], now, wall)
        case Some(report) =>
          Concluded(Reporting(u, a.content, report, now).(dirty := false), t, a.content, PlanIds(Plan(t)), now, wall)
  }

  /** The reconciler once it has heard of events and topology. */
  function Heard(v: Recon, a: Answers, now: Instant): Recon {
    AfterRefresh(if v.connected then AfterPolls(v, a.polls, now, MAX_EVENTS_PER_TICK) else v, a.snapshot, now)
  }

  function Tick(v: Recon, s: State, a: Answers, now: Instant, wall: WallTime): Ticked {
    var u := Heard(v, a, now);
    if !u.connected then Told(u, s, false, NotConnected, [], now, wall)
    else if u.topology.eligible == {} then NoWindows(u, s, a.report, now, wall)
    else Present(u, s, a, now, wall)
  }
}
