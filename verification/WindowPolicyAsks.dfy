/** What the reconciler asks the backend for, and that it acts on the answers: told by what
    it held before the tick and by the answers alone. */
module WindowPolicyAsks {
  import opened Wrappers
  import opened Notifications
  import opened Seqs
  import opened SchedulerModel
  import opened SchedulerInvariant
  import opened WindowPolicy
  import opened WindowPolicyLaws

  // ---------- events ----------

  /** A topology change is heard: reading goes on only past topology changes, so this is the
      first answer or none of them. */
  predicate ChangeHeard(polls: seq<Polled>) {
    polls != [] && polls[0] == Happened(TopologyChanged)
  }

  /** Among the first `budget` answers, past topology changes only, the connection is lost. */
  ghost predicate LossHeard(polls: seq<Polled>, budget: nat) {
    exists i :: 0 <= i < |polls| && LostAt(polls, budget, i)
  }

  ghost predicate LostAt(polls: seq<Polled>, budget: nat, i: nat)
    requires i < |polls|
  {
    && i < budget && (polls[i] == Happened(Disconnection) || polls[i] == PollFailed)
    && forall j :: 0 <= j < i ==> polls[j] == Happened(TopologyChanged)
  }

  lemma LossNext(polls: seq<Polled>, budget: nat)
    requires polls != [] && budget > 0
    ensures LossHeard(polls, budget)
            <==> (polls[0] == Happened(Disconnection) || polls[0] == PollFailed
                  || (polls[0] == Happened(TopologyChanged) && LossHeard(polls[1..], budget - 1)))
  {
    if polls[0] == Happened(Disconnection) || polls[0] == PollFailed {
      assert LostAt(polls, budget, 0);
    }
    if polls[0] == Happened(TopologyChanged) && LossHeard(polls[1..], budget - 1) {
      var i :| 0 <= i < |polls[1..]| && LostAt(polls[1..], budget - 1, i);
      assert forall j :: 1 <= j < |polls| ==> polls[j] == polls[1..][j - 1];
      assert LostAt(polls, budget, i + 1);
    }
    if LossHeard(polls, budget) {
      var i :| 0 <= i < |polls| && LostAt(polls, budget, i);
      if i > 0 {
        assert forall j :: 0 <= j < i - 1 ==> polls[1..][j] == polls[j + 1];
        assert LostAt(polls[1..], budget - 1, i - 1);
      }
    }
  }

  /** What reading events does. */
  ghost predicate PollsHeard(v: Recon, u: Recon, polls: seq<Polled>, budget: nat, now: Instant) {
    && u.topology == v.topology && u.contentRevision == v.contentRevision
    && u.dirty == (v.dirty || (budget > 0 && ChangeHeard(polls)))
    && u.retries == (if budget > 0 && ChangeHeard(polls) then map[] else v.retries)
    && (u.connected <==> !LossHeard(polls, budget))
    && (u.connected ==> u.successful == v.successful && u.reconnectBackoff == v.reconnectBackoff
                        && u.nextReconnectAt == v.nextReconnectAt)
    && (!u.connected ==> u.successful == {} && u.nextReconnectAt == now + v.reconnectBackoff)
    && (forall i :: |v.reports| <= i < |u.reports| ==> u.reports[i] == AllReset)
    && v.reports <= u.reports
    && (budget == 0 || !ChangeHeard(polls) ==> u.reports == v.reports)
  }

  lemma {:induction false} PollsTell(v: Recon, polls: seq<Polled>, now: Instant, budget: nat)
    requires v.connected
    ensures PollsHeard(v, AfterPolls(v, polls, now, budget), polls, budget, now)
    decreases budget
  {
    if budget > 0 && polls != [] {
      LossNext(polls, budget);
      hide LossHeard;
      if polls[0] == Happened(TopologyChanged) {
        PollsTell(Cleared(v.(dirty := true)), polls[1..], now, budget - 1);
      }
    } else {
      assert !LossHeard(polls, budget);
    }
  }

  // ---------- the topology ----------

  /** Still connected after the events. */
  ghost predicate StaysConnected(v: Recon, a: Answers) {
    v.connected && !LossHeard(a.polls, MAX_EVENTS_PER_TICK)
  }

  /** The backend is asked for the topology: it is doubtful, or it is time to connect. */
  ghost predicate AsksTopology(v: Recon, a: Answers, now: Instant) {
    if v.connected then StaysConnected(v, a) && (v.dirty || ChangeHeard(a.polls))
    else v.nextReconnectAt <= now
  }

  /** The reconciler goes on connected. */
  ghost predicate Usable(v: Recon, a: Answers, now: Instant) {
    if AsksTopology(v, a, now) then a.snapshot.Some? else StaysConnected(v, a)
  }

  /** The topology in force. */
  ghost function TopologyNow(v: Recon, a: Answers, now: Instant): Topology {
    if AsksTopology(v, a, now) && a.snapshot.Some? then a.snapshot.value else v.topology
  }

  /** The attempts made for the old topology are forgotten. */
  ghost predicate ForgetsAttempts(v: Recon, a: Answers, now: Instant) {
    || (v.connected && ChangeHeard(a.polls))
    || (AsksTopology(v, a, now) && a.snapshot.Some? && (!v.connected || a.snapshot.value != v.topology))
  }

  /** What hearing of events and topology does. */
  ghost predicate TopologyHeard(v: Recon, u: Recon, a: Answers, now: Instant) {
    && (u.connected <==> Usable(v, a, now))
    && u.topology == TopologyNow(v, a, now) && u.contentRevision == v.contentRevision
    && (u.connected ==>
          && u.dirty == (v.dirty || AsksTopology(v, a, now))
          && u.successful == v.successful
          && u.retries == (if ForgetsAttempts(v, a, now) then map[] else v.retries)
          && u.reconnectBackoff == (if v.connected then v.reconnectBackoff else INITIAL_RECONNECT_BACKOFF))
    && v.reports <= u.reports && forall i :: |v.reports| <= i < |u.reports| ==> u.reports[i] == AllReset
  }

  lemma HeardTells(v: Recon, a: Answers, now: Instant)
    requires ReconOk(v)
    ensures TopologyHeard(v, Heard(v, a, now), a, now)
  {
    var p := if v.connected then AfterPolls(v, a.polls, now, MAX_EVENTS_PER_TICK) else v;
    if v.connected { PollsTell(v, a.polls, now, MAX_EVENTS_PER_TICK); }
    hide AfterPolls, LossHeard, RetriesTell, ConfirmedTell;
  }

  // ---------- the report ----------

  /** With windows to display in, the backend is asked to show the plan: the topology was
      asked for or is still doubtful, the contents or the plan changed, or a retry is due. */
  ghost predicate AsksReport(v: Recon, s: State, a: Answers, now: Instant, wall: WallTime) {
    || v.dirty || AsksTopology(v, a, now) || a.moved || v.RetryDue(now)
    || SetDisplayAvailable(s, true, now, wall).0.contentRevision != v.contentRevision
  }

  /** Without any, it is asked to clear the panes. */
  ghost predicate AsksClearing(v: Recon, a: Answers, now: Instant) {
    v.dirty || AsksTopology(v, a, now) || v.successful != {} || v.RetryDue(now)
  }

  /** The answer to the plan is counted, window by window, and nothing else is. */
  ghost predicate ReportCounted(v: Recon, u: Recon, eligible: set<WindowId>, content: set<WindowId>, report: Report) {
    exists i :: |v.reports| <= i < |u.reports| && CountedAt(v, u, eligible, content, report, i)
  }

  ghost predicate CountedAt(v: Recon, u: Recon, eligible: set<WindowId>, content: set<WindowId>, report: Report, i: nat)
    requires |v.reports| <= i < |u.reports|
  {
    && u.reports[i] == Reported(eligible * report.applied, content,
                                (eligible - report.applied) + (report.failed - eligible))
    && forall j :: |v.reports| <= j < |u.reports| && j != i ==> u.reports[j] == AllReset
  }

  ghost predicate OnlyResets(v: Recon, u: Recon) {
    v.reports <= u.reports && forall i :: |v.reports| <= i < |u.reports| ==> u.reports[i] == AllReset
  }

  /** A window shows something exactly if it is eligible and was applied with content, or was not
      applied and showed something before. */
  ghost predicate ShowsNow(v: Recon, u: Recon, content: set<WindowId>, report: Report) {
    forall w :: w in u.successful
      <==> (w in u.topology.eligible && (if w in report.applied then w in content else w in v.successful))
  }

  ghost predicate NothingFailed(u: Recon) {
    u.retries == map[]
  }

  /** What a tick with windows to display in asks for and makes of it. */
  ghost predicate Acted(v: Recon, u: Recon, s: State, r: Result<Outcome, SchedulerError>, a: Answers, now: Instant,
                        wall: WallTime)
    requires r.Ok?
  {
    && u.topology == TopologyNow(v, a, now)
    && (r.value.status == NotConnected <==> !u.connected)
    && (u.connected ==> (r.value.status == AllApplied <==> NothingFailed(u)))
    && (!Usable(v, a, now) ==> !u.connected && OnlyResets(v, u))
    && (Usable(v, a, now) && u.topology.eligible != {} && AsksReport(v, s, a, now, wall) ==>
          match a.report
          case None => !u.connected && OnlyResets(v, u)
          case Some(report) =>
            && u.connected && !u.dirty && ReportCounted(v, u, u.topology.eligible, a.content, report)
            && ShowsNow(v, u, a.content, report))
    && (Usable(v, a, now) && u.topology.eligible != {} && !AsksReport(v, s, a, now, wall) ==>
          u.connected && OnlyResets(v, u) && u.successful == v.successful)
    && (Usable(v, a, now) && u.topology.eligible == {} && AsksClearing(v, a, now) ==>
          match a.report
          case None => !u.connected && OnlyResets(v, u)
          case Some(_) => u.connected && !u.dirty && u.successful == {})
    && (Usable(v, a, now) && u.topology.eligible == {} && !AsksClearing(v, a, now) ==>
          u.connected && OnlyResets(v, u) && u.successful == {})
  }

  lemma ToldAnswer(v: Recon, s: State, available: bool, status: ReconcileStatus, failed: seq<NotificationId>,
                   now: Instant, wall: WallTime)
    requires s.lastNow <= now && Inv(s)
    ensures var (u, _, r) := Told(v, s, available, status, failed, now, wall);
            u == v && r == Ok(Outcome(status, v.successful, failed))
  {
    hide Inv, SetDisplayAvailable;
    OfferKeeps(s, available, now, wall);
  }

  /** The steps of a tick, told by what the reconciler then holds. */
  lemma TickSteps(v: Recon, s: State, a: Answers, now: Instant, wall: WallTime)
    requires ReconOk(v) && Inv(s) && s.lastNow <= now
    ensures var h := Heard(v, a, now);
            var t := SetDisplayAvailable(s, true, now, wall).0;
            var w := Noticed(h, t, a.moved);
            var (u, _, r) := Tick(v, s, a, now, wall);
            && r.Ok?
            && (!h.connected ==> u == h && r.value.status == NotConnected)
            && (h.connected && h.topology.eligible != {} && !w.dirty && !w.RetryDue(now) ==>
                  u == w && r.value.status == w.Status())
            && (h.connected && h.topology.eligible != {} && (w.dirty || w.RetryDue(now)) ==>
                  match a.report
                  case None => u == Disconnected(w, now) && r.value.status == NotConnected
                  case Some(report) =>
                    var x := Reporting(w, a.content, report, now).(dirty := false);
                    (u == x || u == Cleared(x)) && r.value.status == u.Status())
            && (h.connected && h.topology.eligible == {} ==>
                  if !(h.dirty || h.successful != {} || h.RetryDue(now))
                  then u == h.(successful := {}, dirty := false) && r.value.status == u.Status()
                  else match a.report
                    case None => u == Disconnected(h, now) && r.value.status == NotConnected
                    case Some(report) =>
                      u == Emptied(h, report, now).(successful := {}, dirty := false) && r.value.status == u.Status())
  {
    hide ReconOk, Inv, Heard, Noticed, SetDisplayAvailable, Disconnected, Reporting, Emptied, Cleared, Offered;
    var h := Heard(v, a, now);
    OfferKeeps(s, true, now, wall);
    OfferKeeps(s, false, now, wall);
    var t := SetDisplayAvailable(s, true, now, wall).0;
    OfferedInv(s, t, true, now);
    var w := Noticed(h, t, a.moved);
    ToldAnswer(h, s, false, NotConnected, [], now, wall);
    ToldAnswer(w, t, w.successful != {}, w.Status(), [], now, wall);
    ToldAnswer(Disconnected(w, now), t, false, NotConnected, [], now, wall);
    if a.report.Some? {
      ConcludedAnswer(Reporting(w, a.content, a.report.value, now).(dirty := false), t, a.content, PlanIds(Plan(t)),
                      now, wall);
    }
    hide Told, Concluded, Plan, PlanIds;
  }

  lemma ConcludedAnswer(x: Recon, s: State, content: set<WindowId>, ids: seq<NotificationId>, now: Instant,
                        wall: WallTime)
    requires Inv(s) && s.lastNow == now
    ensures var (u, _, r) := Concluded(x, s, content, ids, now, wall);
            r.Ok? && (u == x || u == Cleared(x)) && r.value.status == u.Status()
  {
    hide Inv, SetDisplayAvailable, GivenUp, RenderFailures, ToSet;
    GivenUpKeeps(s, ids, now, wall);
    var t := GivenUp(s, ids, now, wall).0;
    ToldAnswer(Cleared(x), t, Cleared(x).successful != {}, Cleared(x).Status(), GivenUp(s, ids, now, wall).1, now,
               wall);
    ToldAnswer(x, s, x.successful != {}, x.Status(), [], now, wall);
  }

  lemma NoticedTells(h: Recon, t: State, moved: bool)
    ensures var w := Noticed(h, t, moved);
            && w.topology == h.topology && w.connected == h.connected && w.successful == h.successful
            && w.dirty == (h.dirty || moved || t.contentRevision != h.contentRevision)
            && (t.contentRevision == h.contentRevision ==> w.retries == h.retries)
            && w.contentRevision == t.contentRevision && OnlyResets(h, w)
  {
  }

  lemma ResetsCompose(v: Recon, h: Recon, w: Recon)
    requires OnlyResets(v, h) && OnlyResets(h, w)
    ensures OnlyResets(v, w)
  {
    assert forall i :: 0 <= i < |h.reports| ==> w.reports[i] == h.reports[i];
  }

  lemma CountedOnce(v: Recon, w: Recon, u: Recon, eligible: set<WindowId>, content: set<WindowId>, report: Report)
    requires OnlyResets(v, w)
    requires var e := Reported(eligible * report.applied, content, (eligible - report.applied)
                               + (report.failed - eligible));
             u.reports == w.reports + [e] || u.reports == w.reports + [e] + [AllReset]
    ensures ReportCounted(v, u, eligible, content, report)
  {
    var i := |w.reports|;
    assert forall j :: 0 <= j < i ==> u.reports[j] == w.reports[j];
    assert CountedAt(v, u, eligible, content, report, i);
  }

  lemma SameReports(v: Recon, w: Recon, u: Recon)
    requires OnlyResets(v, w) && u.reports == w.reports
    ensures OnlyResets(v, u)
  {
  }

  /** What hearing leaves, as the rest of the tick needs it. */
  lemma HeardAsks(v: Recon, h: Recon, a: Answers, now: Instant)
    requires TopologyHeard(v, h, a, now) && ReconOk(v)
    ensures OnlyResets(v, h) && h.topology == TopologyNow(v, a, now) && (h.connected <==> Usable(v, a, now))
    ensures h.contentRevision == v.contentRevision
    ensures h.connected ==> h.successful == v.successful
    ensures h.connected ==> (h.dirty || h.RetryDue(now) <==> v.dirty || AsksTopology(v, a, now) || v.RetryDue(now))
  {
    hide LossHeard, RetriesTell, ConfirmedTell;
  }

  /** A tick asks exactly when there is reason to, and acts on every answer: after a topology
      change it has the snapshot's topology or is disconnected, and every change of what is to
      be shown or where is put to the backend. */
  lemma TickActs(v: Recon, s: State, a: Answers, now: Instant, wall: WallTime)
    requires ReconOk(v) && Inv(s) && s.lastNow <= now
    ensures var (u, _, r) := Tick(v, s, a, now, wall); r.Ok? && Acted(v, u, s, r, a, now, wall)
  {
    hide ReconOk, Inv, Heard, Noticed, SetDisplayAvailable, Tick, OnlyResets, Usable, AsksTopology, TopologyNow,
      TopologyHeard, Counted, ReportCounted;
    var h := Heard(v, a, now);
    var t := SetDisplayAvailable(s, true, now, wall).0;
    var w := Noticed(h, t, a.moved);
    var u := Tick(v, s, a, now, wall).0;
    HeardTells(v, a, now);
    HeardAsks(v, h, a, now);
    NoticedTells(h, t, a.moved);
    ResetsCompose(v, h, w);
    TickSteps(v, s, a, now, wall);
    NoticedDue(h, w, t, a.moved, now);
    if h.connected && h.topology.eligible != {} {
      if w.dirty || w.RetryDue(now) {
        ShownActs(v, w, u, a, now);
      }
    } else if h.connected {
      ClearedActs(v, h, u, a, now);
    }
  }

  lemma NoticedDue(h: Recon, w: Recon, t: State, moved: bool, now: Instant)
    requires w == Noticed(h, t, moved)
    ensures (w.dirty || w.RetryDue(now))
         == (h.dirty || h.RetryDue(now) || moved || t.contentRevision != h.contentRevision)
  {
  }

  lemma ShownActs(v: Recon, w: Recon, u: Recon, a: Answers, now: Instant)
    requires OnlyResets(v, w) && w.connected
    requires match a.report
             case None => u == Disconnected(w, now)
             case Some(report) =>
               var x := Reporting(w, a.content, report, now).(dirty := false); u == x || u == Cleared(x)
    ensures u.topology == w.topology
    ensures match a.report
            case None => !u.connected && OnlyResets(v, u)
            case Some(report) => u.connected && !u.dirty && ReportCounted(v, u, w.topology.eligible, a.content, report)
  {
    hide OnlyResets, ReportCounted, Counted;
    if a.report.Some? {
      CountedOnce(v, w, u, w.topology.eligible, a.content, a.report.value);
    } else {
      SameReports(v, w, u);
    }
  }

  lemma ClearedActs(v: Recon, h: Recon, u: Recon, a: Answers, now: Instant)
    requires OnlyResets(v, h) && h.connected
    requires if !(h.dirty || h.successful != {} || h.RetryDue(now)) then u == h.(successful := {}, dirty := false)
             else match a.report
               case None => u == Disconnected(h, now)
               case Some(report) => u == Emptied(h, report, now).(successful := {}, dirty := false)
    ensures u.topology == h.topology
    ensures if !(h.dirty || h.successful != {} || h.RetryDue(now))
            then u.connected && OnlyResets(v, u) && u.successful == {}
            else match a.report
              case None => !u.connected && OnlyResets(v, u)
              case Some(_) => u.connected && !u.dirty && u.successful == {}
  {
    hide OnlyResets, Counted;
    if u.reports == h.reports { SameReports(v, h, u); }
  }

  /** Also a tick that fails has taken the topology in. */
  lemma TopologyTaken(v: Recon, s: State, a: Answers, now: Instant, wall: WallTime)
    requires ReconOk(v) && Inv(s)
    ensures Tick(v, s, a, now, wall).0.topology == TopologyNow(v, a, now)
  {
    hide Inv, ReconOk, SetDisplayAvailable;
    if s.lastNow <= now {
      hide Tick, Acted, TopologyNow;
      TickActs(v, s, a, now, wall);
      ActedTopology(v, Tick(v, s, a, now, wall).0, s, Tick(v, s, a, now, wall).2, a, now, wall);
    } else {
      hide Heard, TopologyNow;
      HeardTells(v, a, now);
      OfferKeeps(s, true, now, wall);
      OfferKeeps(s, false, now, wall);
    }
  }

  lemma ActedTopology(v: Recon, u: Recon, s: State, r: Result<Outcome, SchedulerError>, a: Answers, now: Instant,
                      wall: WallTime)
    requires r.Ok? && Acted(v, u, s, r, a, now, wall)
    ensures u.topology == TopologyNow(v, a, now)
  {
  }

  // ---------- what is answered, and when it is tried again ----------

  /** The status names the connection, and whether any window still has a failure standing. */
  lemma StatusTells(v: Recon, s: State, a: Answers, now: Instant, wall: WallTime)
    requires ReconOk(v) && Inv(s) && s.lastNow <= now
    ensures var (u, _, r) := Tick(v, s, a, now, wall);
            && r.Ok? && (r.value.status == NotConnected <==> !u.connected)
            && (r.value.status == AllApplied <==> u.connected && forall w :: Strikes(u.reports, w) == 0)
  {
    hide ReconOk, Inv, Tick, Acted, TickGood;
    TickActs(v, s, a, now, wall);
    TickKeeps(v, s, a, now, wall);
    var (u, _, r) := Tick(v, s, a, now, wall);
    GoodOk(v, s, (u, Tick(v, s, a, now, wall).1, r), now);
    ActedStatus(v, u, s, r, a, now, wall);
    StandingFailures(u);
  }

  lemma GoodOk(v: Recon, s: State, out: Ticked, now: Instant)
    requires TickGood(v, s, out, now)
    ensures ReconOk(out.0)
  {
    hide ReconOk, Inv, RenderFailures, ToSet;
  }

  lemma ActedStatus(v: Recon, u: Recon, s: State, r: Result<Outcome, SchedulerError>, a: Answers, now: Instant,
                    wall: WallTime)
    requires r.Ok? && Acted(v, u, s, r, a, now, wall)
    ensures r.value.status == NotConnected <==> !u.connected
    ensures u.connected ==> (r.value.status == AllApplied <==> u.retries == map[])
  {
  }

  lemma StandingFailures(u: Recon)
    requires ReconOk(u)
    ensures u.retries == map[] <==> forall w :: Strikes(u.reports, w) == 0
  {
    hide Strikes, ConfirmedTell;
    if u.retries != map[] {
      var w :| w in u.retries;
      assert Strikes(u.reports, w) > 0;
    }
  }

  /** The failures a report leaves standing are tried again fifty milliseconds later for each
      of them, saturating with the counter. */
  lemma RetriesScheduled(v: Recon, content: set<WindowId>, report: Report, now: Instant, w: WindowId)
    requires ReconOk(v) && v.connected
    ensures var u := Reporting(v, content, report, now);
            var eligible := v.topology.eligible;
            && (w in (eligible - report.applied) + (report.failed - eligible) ==>
                  && w in u.retries && Strikes(u.reports, w) == Strikes(v.reports, w) + 1
                  && u.retries[w].retryAt
                     == now + 50_000_000 * (if Strikes(u.reports, w) <= 255 then Strikes(u.reports, w) else 255))
            && (w in eligible * report.applied ==> w !in u.retries)
            && (w !in eligible + report.failed ==>
                  (w in u.retries <==> w in v.retries) && (w in v.retries ==> u.retries[w] == v.retries[w]))
  {
    var u := Reporting(v, content, report, now);
    OneMore(v.reports, u.reports[|u.reports| - 1]);
    ReportingOk(v, content, report, now);
    hide ConfirmedTell;
  }

  /** A retry is due for windows that failed once or twice only. */
  lemma DueMeans(v: Recon, now: Instant)
    requires ReconOk(v)
    ensures v.RetryDue(now)
            <==> exists w :: w in v.retries && 0 < Strikes(v.reports, w) < 3 && v.retries[w].retryAt <= now
  {
    hide Strikes, ConfirmedTell;
  }
}
