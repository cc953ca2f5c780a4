/** Exact timeouts: a toast closes as timed out precisely when it has been on screen,
    unpinned, for its whole timeout since its content last changed. */
module SchedulerTimeouts {
  import opened Wrappers
  import opened Notifications
  import opened Seqs
  import opened SchedulerModel
  import opened SchedulerInvariant
  import opened SchedulerSteps
  import opened SchedulerOperations
  import opened SchedulerRuns

  // ---------- whole runs ----------

  ghost function Run(s: State, calls: seq<Call>): State
    decreases |calls|
  {
    if calls == [] then s else Run(Next(s, calls[0]), calls[1..])
  }

  ghost predicate LegalRun(s: State, calls: seq<Call>)
    decreases |calls|
  {
    calls != [] ==> Legal(s, calls[0]) && LegalRun(Next(s, calls[0]), calls[1..])
  }

  /** No call of the run restarts a pinned toast's timer. */
  ghost predicate CalmRun(s: State, calls: seq<Call>)
    decreases |calls|
  {
    calls != [] ==> !Unpins(s, calls[0]) && CalmRun(Next(s, calls[0]), calls[1..])
  }

  lemma NewIsGood(limits: Limits, now: Instant)
    ensures Inv(New(limits, now)) && Exact(New(limits, now))
  {
  }

  /** The invariant holds in every reachable state, and the timers are exact in every state
      reached without touching a pinned toast. */
  lemma {:induction false} RunKeeps(s: State, calls: seq<Call>)
    requires Inv(s) && LegalRun(s, calls)
    ensures Inv(Run(s, calls))
    ensures Exact(s) && CalmRun(s, calls) ==> Exact(Run(s, calls))
    decreases |calls|
  {
    hide Inv, Exact, Legal, Unpins, Next;
    if calls != [] {
      StepKeeps(s, calls[0]);
      RunKeeps(Next(s, calls[0]), calls[1..]);
    }
  }

  // ---------- time shown ----------

  /** How long the toast still has, the run in progress included. */
  function TimeLeft(s: State, id: NotificationId): int
    requires id in s.entries && s.entries[id].timeout.Remaining?
  {
    s.entries[id].timeout.duration - RunSoFar(s.entries[id].timeout, s.lastNow)
  }

  /** In every state of every calm run, what is left of a finite timeout and the time the
      toast was displayed since its last content change add up to the timeout; nothing ever
      went below zero. */
  lemma ExactTimeouts(limits: Limits, start: Instant, calls: seq<Call>, id: NotificationId)
    requires LegalRun(New(limits, start), calls) && CalmRun(New(limits, start), calls)
    requires id in Run(New(limits, start), calls).entries
    ensures var s := Run(New(limits, start), calls);
            && id in s.history.shown
            && (s.entries[id].timeout.Remaining? <==> s.entries[id].Timeout().After?)
            && (s.entries[id].timeout.Remaining? ==>
                  && TimeLeft(s, id) >= 0
                  && TimeLeft(s, id) + s.history.shown[id] == s.entries[id].Timeout().duration)
  {
    NewIsGood(limits, start);
    RunKeeps(New(limits, start), calls);
    var s := Run(New(limits, start), calls);
    CoreAt(s, id);
    hide Core, LegalRun, CalmRun, Run;
    assert TalliedEntry(s, id, s.entries[id]);
  }

  /** By `now` the toast will have been on screen, unpinned, for its whole timeout. */
  predicate Due(s: State, id: NotificationId, now: Instant)
    requires s.lastNow <= now
  {
    s.Ticking(id) && id in s.history.shown && s.entries[id].Timeout().After?
    && s.history.shown[id] + (now - s.lastNow) >= s.entries[id].Timeout().duration
  }

  lemma ExpiredIsDue(s: State, now: Instant, id: NotificationId)
    requires Core(s) && Exact(s) && s.lastNow <= now && id in s.entries
    ensures id in s.active && s.entries[id].timeout.Expired(now) <==> Due(s, id, now)
  {
    CoreAt(s, id);
    hide Core;
    assert TalliedEntry(s, id, s.entries[id]) && TunedEntry(s, id, s.entries[id]);
  }

  /** Passing time closes exactly the toasts that are due, as timed out. */
  lemma TimesOutExactly(s: State, now: Instant, wall: WallTime)
    requires Inv(s) && Exact(s) && s.lastNow <= now
    ensures var t := Prepare(s, now, wall);
            && (forall id :: id in s.entries ==> (id in t.entries <==> !Due(s, id, now)))
            && (forall n :: n in NewlyClosed(s, t) ==>
                  n.id in s.entries && Due(s, n.id, now) && n.closeReason == Some(TimedOut))
  {
    var t := Prepare(s, now, wall);
    var e := Elapse(s, now);
    var ids := ExpiredIn(e.entries, e.active, now);
    hide Core, Exact, CloseAll, Rebalance, Ranked, ExpiredIn;
    PrepareKeeps(s, now, wall);
    ElapseKeeps(s, now);
    CloseAllKeeps(e, ids, TimedOut, wall);
    RebalanceKeeps(Expire(e, wall), now, wall);
    assert t.entries.Keys == s.entries.Keys - ToSet(ids);
    forall id | id in s.entries ensures id in ids <==> Due(s, id, now) {
      ExpiredIsDue(s, now, id);
    }
    CoreHistory(t);
    forall n | n in NewlyClosed(s, t)
      ensures n.id in s.entries && Due(s, n.id, now) && n.closeReason == Some(TimedOut)
    {
      assert n in t.history.log;
      assert n.id in LogIds(t.history.log);
    }
  }

  lemma CoreHistory(s: State)
    requires Core(s)
    ensures HistoryOk(s.entries.Keys, s.history)
  {
  }

  // ---------- the exception ----------

  /** A Notification that is no longer live has left a record. */
  lemma LoggedLater(a: seq<Notification>, b: seq<Notification>, id: NotificationId)
    requires a <= b && id in LogIds(b) && id !in LogIds(a)
    ensures exists n :: n in b[|a|..] && n.id == id
  {
    var n :| n in b && n.id == id;
    assert n !in a;
    assert b == a + b[|a|..];
  }

  lemma LeftIsLogged(s: State, r: State, id: NotificationId)
    requires HistoryOk(s.entries.Keys, s.history) && HistoryOk(r.entries.Keys, r.history)
    requires s.history.submitted <= r.history.submitted && s.history.log <= r.history.log
    requires id in s.entries && id !in r.entries
    ensures exists n :: n in NewlyClosed(s, r) && n.id == id
  {
    assert id in r.history.submitted;
    assert id in LogIds(r.history.log);
    assert id !in LogIds(s.history.log);
    LoggedLater(s.history.log, r.history.log, id);
  }

  /** After such an update the jump is still pending, and letting the new timeout pass
      closes the pinned toast as timed out: the jump no longer protects it. */
  lemma PinnedUpdateTimesOut(t: State, id: NotificationId, update: Update, later: Instant, wall: WallTime)
    requires Inv(t) && Tuned(t) && UpdateUnpins(t, id, update)
    requires later >= t.lastNow + Merged(t.entries[id].notification.content, update).timeout.duration
    ensures var u := ApplyUpdate(t, id, update, t.lastNow, wall).0;
            && id in u.entries && u.entries[id].jumpNonce.Some? && u.lastNow == t.lastNow
            && var r := Prepare(u, later, wall);
               && id !in r.entries
               && exists n :: n in NewlyClosed(u, r) && n.id == id && n.closeReason == Some(TimedOut)
  {
    var u := ApplyUpdate(t, id, update, t.lastNow, wall).0;
    hide Inv, Tuned, Exact, SortRanked, Merged;
    ApplyUpdateKeeps(t, id, update, t.lastNow, wall);
    assert u.entries[id].timeout.Expired(later);
    assert id in u.active;
    hide ApplyUpdate;
    TimerRunsOut(u, id, later, wall);
  }

  lemma TimerRunsOut(u: State, id: NotificationId, later: Instant, wall: WallTime)
    requires Inv(u) && u.lastNow <= later && id in u.active && id in u.entries && u.entries[id].timeout.Expired(later)
    ensures var r := Prepare(u, later, wall);
            && id !in r.entries
            && exists n :: n in NewlyClosed(u, r) && n.id == id && n.closeReason == Some(TimedOut)
  {
    var r := Prepare(u, later, wall);
    var e := Elapse(u, later);
    var ids := ExpiredIn(e.entries, e.active, later);
    assert id in ids;
    hide Core, Ranked, CloseAll, Rebalance, ExpiredIn;
    PrepareKeeps(u, later, wall);
    ElapseKeeps(u, later);
    CloseAllKeeps(e, ids, TimedOut, wall);
    RebalanceKeeps(Expire(e, wall), later, wall);
    CoreHistory(u);
    CoreHistory(r);
    LeftIsLogged(u, r, id);
  }
}
