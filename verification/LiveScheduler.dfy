/** The live scheduler as the daemon runs it: one object, its fields updated in place.

    `View()` is the object's state as a value; every method is proved to take it where the
    function of the same operation in SchedulerModel does, and to keep it valid. */
module LiveSchedulers {
  import opened Wrappers
  import opened Notifications
  import opened Seqs
  import opened SchedulerModel
  import opened SchedulerInvariant
  import opened SchedulerSteps
  import opened SchedulerOperations
  import opened SchedulerRuns
  import opened SchedulerDisplay
  import opened SchedulerForecast
  import opened SchedulerContents

  // ---------- loop steps ----------

  /** Entries after the first few ids of a list have been marked visible. */
  ghost function Marking(e: Entries, ids: seq<NotificationId>, wall: WallTime): Entries {
    map id | id in e :: if id in ids then e[id].(notification := e[id].notification.MarkVisible(wall)) else e[id]
  }

  lemma MarkingNext(e: Entries, ids: seq<NotificationId>, i: nat, wall: WallTime)
    requires Distinct(ids) && i < |ids| && ids[i] in e
    ensures var m := Marking(e, ids[..i], wall);
            ids[i] in m && m[ids[i]] == e[ids[i]]
            && Marking(e, ids[..i + 1], wall)
               == m[ids[i] := m[ids[i]].(notification := m[ids[i]].notification.MarkVisible(wall))]
  {
    assert ids[..i + 1] == ids[..i] + [ids[i]];
    assert ids[i] !in ids[..i];
  }

  /** Entries after the first few ids of a list have had their timers switched. */
  ghost function Switching(e: Entries, ids: seq<NotificationId>, now: Instant, running: set<NotificationId>): Entries {
    map id | id in e :: if id in ids then e[id].(timeout := e[id].timeout.Switched(now, id in running)) else e[id]
  }

  lemma SwitchingNext(e: Entries, ids: seq<NotificationId>, i: nat, now: Instant, running: set<NotificationId>)
    requires Distinct(ids) && i < |ids| && ids[i] in e
    ensures var m := Switching(e, ids[..i], now, running);
            ids[i] in m && m[ids[i]] == e[ids[i]]
            && Switching(e, ids[..i + 1], now, running)
               == m[ids[i] := e[ids[i]].(timeout := e[ids[i]].timeout.Switched(now, ids[i] in running))]
  {
    assert ids[..i + 1] == ids[..i] + [ids[i]];
    assert ids[i] !in ids[..i];
  }

  /** The two halves of closing: out of every index, then onto the record. */
  ghost function Unplaced(s: State, id: NotificationId): State
    requires id in s.entries
  {
    s.(entries := s.entries - {id},
       liveKeys := if s.entries[id].Key().Some? then s.liveKeys - {s.entries[id].Key().value} else s.liveKeys,
       pending := Without(s.pending, id),
       active := Without(s.active, id),
       attention := if s.attention == Some(id) then None else s.attention)
  }

  ghost function Recorded(s: State, n: Notification): State {
    BumpContent(s.(closed := PushClosed(s.closed, s.closedCapacity, n),
                   history := s.history.(log := s.history.log + [n], shown := s.history.shown - {n.id})))
  }

  lemma CloseInnerSplit(s: State, id: NotificationId, reason: CloseReason, wall: WallTime)
    requires id in s.entries && s.entries[id].notification.id == id
    ensures CloseInner(s, id, reason, wall) == Recorded(Unplaced(s, id), s.entries[id].notification.Close(reason, wall))
  {
  }

  class LiveScheduler {
    var limits: Limits
    var entries: Entries
    var closed: seq<Notification>
    var closedCapacity: nat
    var liveKeys: map<Key, NotificationId>
    var pending: seq<NotificationId>
    var activeToasts: seq<NotificationId>
    var activeAttention: Option<NotificationId>
    var displayAvailable: bool
    var nextSequence: nat
    var nextJumpNonce: nat
    var revision: nat
    var contentRevision: nat
    var lastNow: Instant
    ghost var history: History

    ghost function View(): State
      reads this
    {
      State(limits, entries, closed, closedCapacity, liveKeys, pending, activeToasts, activeAttention,
            displayAvailable, nextSequence, nextJumpNonce, revision, contentRevision, lastNow, history)
    }

    ghost predicate Valid()
      reads this
    {
      Inv(View())
    }

    constructor (limits: Limits, now: Instant)
      ensures Valid() && View() == New(limits, now)
    {
      this.limits := limits;
      entries := map[];
      closed := [];
      closedCapacity := limits.maxPending + limits.maxVisible + 1;
      liveKeys := map[];
      pending, activeToasts, activeAttention := [], [], None;
      displayAvailable := false;
      nextSequence, nextJumpNonce, revision, contentRevision := 0, 0, 0, 0;
      lastNow := now;
      history := History({}, [], [], map[]);
    }

    // ---------- internal steps ----------

    method BumpRevision()
      modifies this`revision
      ensures View() == SchedulerModel.BumpRevision(old(View()))
    {
      revision := revision + 1;
    }

    method BumpContentRevision()
      modifies this`revision, this`contentRevision
      ensures View() == BumpContent(old(View()))
    {
      contentRevision := contentRevision + 1;
      BumpRevision();
    }

    method Unplace(id: NotificationId)
      requires id in entries
      modifies this`entries, this`liveKeys, this`pending, this`activeToasts, this`activeAttention
      ensures View() == Unplaced(old(View()), id)
    {
      var key := entries[id].Key();
      entries := entries - {id};
      if key.Some? {
        liveKeys := liveKeys - {key.value};
      }
      pending := Without(pending, id);
      activeToasts := Without(activeToasts, id);
      if activeAttention == Some(id) {
        activeAttention := None;
      }
    }

    method QueueClosed(notification: Notification)
      modifies this`closed, this`history, this`revision, this`contentRevision
      ensures View() == Recorded(old(View()), notification)
    {
      if |closed| == closedCapacity && closed != [] {
        closed := closed[1..];
      }
      closed := closed + [notification];
      history := history.(log := history.log + [notification], shown := history.shown - {notification.id});
      BumpContentRevision();
    }

    method CloseInner(id: NotificationId, reason: CloseReason, wall: WallTime)
      requires id in entries ==> entries[id].notification.id == id
      modifies this
      ensures View() == SchedulerModel.CloseInner(old(View()), id, reason, wall)
    {
      if id in entries {
        hide Unplaced, Recorded, SchedulerModel.CloseInner;
        var notification := entries[id].notification.Close(reason, wall);
        CloseInnerSplit(View(), id, reason, wall);
        Unplace(id);
        QueueClosed(notification);
      }
    }

    method SortPending()
      modifies this`pending
      ensures View() == SchedulerModel.SortPending(old(View()))
    {
      pending := SortRanked(entries, pending);
    }

    predicate ToastTimerShouldRun(id: NotificationId)
      reads this
    {
      displayAvailable && activeAttention.None? && id in activeToasts
    }

    predicate IsDesiredVisible(id: NotificationId)
      reads this
    {
      displayAvailable && (activeAttention == Some(id) || (activeAttention.None? && id in activeToasts))
    }

    method PromoteAttention()
      modifies this`activeAttention, this`pending
      ensures View() == PickAttention(old(View()))
    {
      if displayAvailable && activeAttention.None? {
        var index := FirstOf(entries, pending, Attention);
        if index < |pending| {
          activeAttention := Some(pending[index]);
          pending := RemoveAt(pending, index);
        }
      }
    }

    method PromoteToasts()
      modifies this`activeToasts, this`pending
      ensures View() == FillToasts(old(View()))
    {
      if displayAvailable && activeAttention.None? {
        while |activeToasts| < limits.maxVisible
          invariant Fill(entries, pending, activeToasts, limits.maxVisible)
                 == Fill(entries, old(pending), old(activeToasts), limits.maxVisible)
          decreases |pending|
        {
          var index := FirstOf(entries, pending, Toast);
          if index == |pending| {
            break;
          }
          var id := pending[index];
          pending := RemoveAt(pending, index);
          activeToasts := activeToasts + [id];
        }
      }
    }

    method MarkDisplayed(wall: WallTime)
      requires Distinct(activeToasts)
      requires forall id :: id in activeToasts ==> id in entries
      requires activeAttention.Some? ==> activeAttention.value in entries
      modifies this`entries
      ensures View() == MarkVisible(old(View()), wall)
    {
      ghost var before := entries;
      if displayAvailable {
        if activeAttention.Some? {
          var id := activeAttention.value;
          entries := entries[id := entries[id].(notification := entries[id].notification.MarkVisible(wall))];
          assert entries == MarkVisible(old(View()), wall).entries;
        } else {
          assert entries == Marking(before, activeToasts[..0], wall);
          for i := 0 to |activeToasts|
            invariant entries == Marking(before, activeToasts[..i], wall)
          {
            var id := activeToasts[i];
            MarkingNext(before, activeToasts, i, wall);
            entries := entries[id := entries[id].(notification := entries[id].notification.MarkVisible(wall))];
          }
          assert activeToasts[..|activeToasts|] == activeToasts;
          assert entries == MarkVisible(old(View()), wall).entries;
        }
      } else {
        assert entries == MarkVisible(old(View()), wall).entries;
      }
    }

    /** Starts or pauses one timer. */
    method SwitchTimer(id: NotificationId, now: Instant, running: bool)
      requires id in entries && entries[id].timeout.SetRunning(now, running).Ok?
      modifies this`entries
      ensures var e := old(entries)[id];
              entries == old(entries)[id := e.(timeout := e.timeout.Switched(now, running))]
    {
      var switched := entries[id].timeout.SetRunning(now, running);
      entries := entries[id := entries[id].(timeout := switched.value)];
    }

    /** Pauses or starts every active toast's timer. `set_running` cannot fail here. */
    method SwitchTimers(now: Instant)
      requires Distinct(activeToasts) && lastNow <= now
      requires forall id :: id in activeToasts ==> id in entries
      requires TimersStarted(entries, activeToasts, lastNow)
      modifies this`entries
      ensures View() == SetTimers(old(View()), now)
    {
      ghost var before := entries;
      var running := if displayAvailable && activeAttention.None?
                     then set id | id in activeToasts && id in entries && entries[id].jumpNonce.None?
                     else {};
      assert entries == Switching(before, activeToasts[..0], now, running);
      for i := 0 to |activeToasts|
        invariant entries == Switching(before, activeToasts[..i], now, running)
      {
        var id := activeToasts[i];
        SwitchingNext(before, activeToasts, i, now, running);
        SwitchTimer(id, now, id in running);
      }
      assert activeToasts[..|activeToasts|] == activeToasts;
      assert entries == SetTimers(old(View()), now).entries;
    }

    method Rebalance(now: Instant, wall: WallTime)
      requires Core(View()) && Ranked(entries, pending) && lastNow == now
      modifies this
      ensures View() == SchedulerModel.Rebalance(old(View()), now, wall)
    {
      ghost var s := View();
      PromoteAttention();
      PromoteToasts();
      RebalanceReady(s, wall);
      MarkDisplayed(wall);
      SwitchTimers(now);
    }

    /** Closes each of the listed Notifications that is live, in order. */
    method CloseEach(ids: seq<NotificationId>, reason: CloseReason, wall: WallTime)
      requires Core(View())
      modifies this
      ensures View() == CloseAll(old(View()), ids, reason, wall) && Core(View())
    {
      hide Core, EntriesOk, SchedulerModel.CloseInner;
      for i := 0 to |ids|
        invariant Core(View())
        invariant CloseAll(View(), ids[i..], reason, wall) == CloseAll(old(View()), ids, reason, wall)
      {
        ghost var s := View();
        if ids[i] in entries { CoreAt(s, ids[i]); }
        CloseInnerKeeps(s, ids[i], reason, wall);
        CloseInner(ids[i], reason, wall);
        assert ids[i..][0] == ids[i] && ids[i..][1..] == ids[i + 1..];
      }
    }

    /** `prepare_time`. */
    method PrepareTime(now: Instant, wall: WallTime) returns (r: Result<Unit, SchedulerError>)
      requires Valid()
      modifies this
      ensures now < old(lastNow) ==> r == Err(TimeWentBackwards) && View() == old(View())
      ensures old(lastNow) <= now ==> r == Ok(true) && View() == Prepare(old(View()), now, wall)
      ensures Valid() && (r.Ok? ==> lastNow == now && Tuned(View()))
    {
      if now < lastNow {
        return Err(TimeWentBackwards);
      }
      ghost var s := View();
      ElapseClock(now);
      hide Core, Ranked, Conserving, Marked, CloseAll, SchedulerModel.Rebalance, Elapse, Tuned;
      PrepareKeeps(s, now, wall);
      ElapseKeeps(s, now);
      assert Ranked(entries, pending) by { ElapseFields(s, now); }
      ghost var e := View();
      var expired := ExpiredIn(entries, activeToasts, now);
      ElapseFields(s, now);
      ExpireKeeps(e, wall);
      CloseEach(expired, TimedOut, wall);
      if activeToasts != [] || activeAttention.Some? || pending != [] {
        Rebalance(now, wall);
      } else {
        NothingToBalance(View(), now, wall);
      }
      r := Ok(true);
    }

    method ElapseClock(now: Instant)
      requires lastNow <= now
      modifies this`lastNow, this`history
      ensures View() == Elapse(old(View()), now)
    {
      ghost var s := View();
      lastNow := now;
      history := Elapse(s, now).history;
    }

    /** `enforce_pending_limit`: as long as too many wait, the worst unpinned one closes.
        The victim the source's `expect` asks for exists. */
    method EnforcePendingLimit(wall: WallTime) returns (suppressed: set<NotificationId>)
      requires Core(View()) && Ranked(entries, pending) && !OverPinned(View())
      modifies this
      ensures View() == Enforce(old(View()), wall)
      ensures suppressed == old(entries).Keys - entries.Keys
    {
      suppressed := {};
      ghost var s := View();
      hide Core, Ranked, SchedulerModel.CloseInner, Pinned, LastUnpinned;
      while |pending| > limits.maxPending
        invariant Core(View()) && Ranked(entries, pending) && !OverPinned(View())
        invariant Enforce(View(), wall) == Enforce(s, wall)
        invariant suppressed == s.entries.Keys - entries.Keys && entries.Keys <= s.entries.Keys
        decreases |pending|
      {
        ghost var v := View();
        EnforceRound(v, wall);
        AllPinned(entries, pending);
        var index := LastUnpinned(entries, pending);
        assert index < |pending|;
        var id := pending[index];
        CoreAt(v, id);
        suppressed := suppressed + {id};
        CloseInner(id, RenderSuppressed, wall);
        assert entries.Keys == v.entries.Keys - {id};
      }
    }

    // ---------- submitting ----------

    /** New content for a live Notification; its timer and the time shown start over. */
    method ReviseEntry(id: NotificationId, content: Draft, now: Instant, wall: WallTime)
      requires id in entries
      modifies this`entries, this`history
      ensures View() == Revised(old(View()), id, content, now, wall)
    {
      var running := ToastTimerShouldRun(id);
      var entry := entries[id];
      entries := entries[id := entry.(notification := entry.notification.ReplaceContent(content, wall),
                                      timeout := Restarted(content.timeout, now, running))];
      history := history.(shown := history.shown[id := 0]);
    }

    method Requeue(id: NotificationId)
      modifies this`pending, this`activeToasts, this`activeAttention
      ensures View() == Requeued(old(View()), id)
    {
      pending := Without(pending, id);
      activeToasts := Without(activeToasts, id);
      if activeAttention == Some(id) {
        activeAttention := None;
      }
      pending := pending + [id];
    }

    /** Sorts the queue, then displays what fits. */
    method Settle(now: Instant, wall: WallTime)
      requires Core(View()) && lastNow == now
      modifies this
      ensures View() == SchedulerModel.Rebalance(SchedulerModel.SortPending(old(View())), now, wall)
    {
      hide Core, Ranked, SchedulerModel.Rebalance, SchedulerModel.SortPending;
      SortPendingKeeps(View());
      SortPending();
      Rebalance(now, wall);
    }

    /** A changed presentation also sends the Notification back to the queue. */
    method ReviseLive(id: NotificationId, draft: Draft, now: Instant, wall: WallTime)
      requires Core(View()) && lastNow == now && id in entries && draft.key == entries[id].Key()
      modifies this
      ensures var t := old(View()); var u := Revised(t, id, draft, now, wall);
              View() == if draft.presentation != t.entries[id].Presentation() then Requeued(u, id) else u
      ensures Core(View()) && lastNow == now
    {
      ghost var t := View();
      var prior := entries[id].Presentation();
      hide Core, Revised, Requeued;
      ReviseEntry(id, draft, now, wall);
      RevisedFields(t, id, draft, now, wall);
      if draft.presentation != prior {
        RevisedElsewhere(t, id, draft, now, wall);
        Requeue(id);
      } else {
        RevisedInPlace(t, id, draft, now, wall);
      }
    }

    method UpsertLive(id: NotificationId, draft: Draft, now: Instant, wall: WallTime)
      requires Valid() && lastNow == now && id in entries && draft.key == entries[id].Key()
      modifies this
      ensures Valid() && View() == Upserted(old(View()), id, draft, now, wall)
    {
      ghost var t := View();
      hide Inv, Core, Tuned, Exact, SchedulerModel.Rebalance, SchedulerModel.SortPending, Revised, Requeued;
      UpsertKeeps(t, id, draft, now, wall);
      InvIsCore(t);
      ReviseLive(id, draft, now, wall);
      Settle(now, wall);
      BumpContentRevision();
    }

    method AdmitNew(newId: NotificationId, draft: Draft, wall: WallTime)
      modifies this`liveKeys, this`entries, this`nextSequence, this`pending, this`history
      ensures View() == Admitted(old(View()), newId, draft, wall)
    {
      if draft.key.Some? {
        liveKeys := liveKeys[draft.key.value := newId];
      }
      entries := entries[newId := LiveEntry(Notification.FromDraft(newId, draft, wall), nextSequence,
                                            Restarted(draft.timeout, 0, false), None)];
      nextSequence := nextSequence + 1;
      pending := pending + [newId];
      history := history.(submitted := history.submitted + {newId}, shown := history.shown[newId := 0]);
    }

    method SubmitNew(draft: Draft, newId: NotificationId, now: Instant, wall: WallTime)
      returns (suppressed: set<NotificationId>)
      requires Valid() && lastNow == now && newId !in history.submitted && !KeyIsLive(View(), draft)
      requires !OverPinned(Placed(View(), newId, draft, now, wall))
      modifies this
      ensures Valid()
      ensures View() == BumpContent(Enforce(Placed(old(View()), newId, draft, now, wall), wall))
      ensures newId in suppressed <==> newId !in entries
    {
      ghost var t := View();
      hide Core, Ranked, Conserving, Marked, Tuned, Exact, Enforce, OverPinned, Admitted, SchedulerModel.Rebalance,
        SchedulerModel.SortPending;
      AdmittedKeeps(t, newId, draft, wall);
      AdmittedFields(t, newId, draft, wall);
      SubmitNewKeeps(t, newId, draft, now, wall);
      PlacedKeeps(t, newId, draft, now, wall);
      AdmitNew(newId, draft, wall);
      Settle(now, wall);
      suppressed := EnforcePendingLimit(wall);
      BumpContentRevision();
    }

    method Submit(draft: Draft, newId: NotificationId, now: Instant, wall: WallTime)
      returns (r: Result<SubmitOutcome, SchedulerError>)
      requires Valid() && newId !in history.submitted
      requires lastNow <= now ==> !TooManyPinned(View(), Call(Submitting(draft, newId), now, wall))
      modifies this
      ensures Valid() && (View(), r) == SchedulerModel.Submit(old(View()), draft, newId, now, wall)
    {
      ghost var s := View();
      hide Inv, Tuned, Prepare, Upserted, Placed, Enforce, OverPinned, TooManyPinned;
      if lastNow <= now {
        PrepareKeeps(s, now, wall);
        RoomToPlace(s, draft, newId, now, wall);
      }
      var prepared := PrepareTime(now, wall);
      if prepared.Err? {
        return Err(prepared.error);
      }
      if draft.key.Some? && draft.key.value in liveKeys && liveKeys[draft.key.value] in entries {
        var id := liveKeys[draft.key.value];
        if entries[id].notification.content == draft {
          return Ok(SubmitOutcome(id, SubmitDisposition.Duplicate));
        }
        KeyedEntry(View(), draft.key.value);
        UpsertLive(id, draft, now, wall);
        return Ok(SubmitOutcome(id, SubmitDisposition.Updated));
      }
      var suppressed := SubmitNew(draft, newId, now, wall);
      if newId in suppressed {
        r := Ok(SubmitOutcome(newId, SubmitDisposition.Suppressed));
      } else if IsDesiredVisible(newId) {
        r := Ok(SubmitOutcome(newId, SubmitDisposition.Visible));
      } else {
        r := Ok(SubmitOutcome(newId, SubmitDisposition.Queued));
      }
    }

    // ---------- updating ----------

    method ApplyUpdate(id: NotificationId, update: Update, now: Instant, wall: WallTime)
      returns (r: Result<UpdateDisposition, SchedulerError>)
      requires Valid() && Tuned(View()) && lastNow == now
      modifies this
      ensures Valid() && (View(), r) == SchedulerModel.ApplyUpdate(old(View()), id, update, now, wall)
      ensures r.Ok? ==> OnlyWrote(old(entries), entries, id, update)
    {
      hide Inv, Tuned, Exact, Merged, Revised, SchedulerModel.SortPending, OnlyWrote, Carries;
      StillCarries(View());
      if id in entries { ApplyWrites(View(), View(), id, update, now, wall); }
      ApplyUpdateKeeps(View(), id, update, now, wall);
      if id !in entries {
        return Err(NotificationNotLive);
      }
      var content := Merged(entries[id].notification.content, update);
      if content == entries[id].notification.content {
        return Ok(UpdateDisposition.Duplicate);
      }
      ReviseEntry(id, content, now, wall);
      SortPending();
      BumpContentRevision();
      r := Ok(UpdateDisposition.Updated);
    }

    method UpdateByKey(key: Key, update: Update, now: Instant, wall: WallTime)
      returns (r: Result<UpdateDisposition, SchedulerError>)
      requires Valid()
      modifies this
      ensures Valid() && (View(), r) == SchedulerModel.UpdateByKey(old(View()), key, update, now, wall)
      ensures r.Ok? ==> key in old(liveKeys) && OnlyWrote(old(entries), entries, old(liveKeys)[key], update)
    {
      hide Inv, Tuned, Prepare, SchedulerModel.ApplyUpdate, OnlyWrote;
      KeyedUpdateWrites(View(), key, update, now, wall);
      var prepared := PrepareTime(now, wall);
      if prepared.Err? {
        return Err(prepared.error);
      }
      if key !in liveKeys {
        return Err(KeyNotLive);
      }
      r := ApplyUpdate(liveKeys[key], update, now, wall);
    }

    method Update(id: NotificationId, update: Update, now: Instant, wall: WallTime)
      returns (r: Result<UpdateDisposition, SchedulerError>)
      requires Valid()
      modifies this
      ensures Valid() && (View(), r) == UpdateById(old(View()), id, update, now, wall)
      ensures r.Ok? ==> OnlyWrote(old(entries), entries, id, update)
    {
      hide Inv, Tuned, Prepare, SchedulerModel.ApplyUpdate, OnlyWrote;
      UpdateWrites(View(), id, update, now, wall);
      var prepared := PrepareTime(now, wall);
      if prepared.Err? {
        return Err(prepared.error);
      }
      r := ApplyUpdate(id, update, now, wall);
    }

    // ---------- closing ----------

    method Close(id: NotificationId, reason: CloseReason, now: Instant, wall: WallTime)
      returns (r: Result<Unit, SchedulerError>)
      requires Valid()
      modifies this
      ensures Valid() && (View(), r) == CloseLive(old(View()), id, reason, now, wall)
    {
      hide Inv, Core, Ranked, Tuned, Exact, Prepare, SchedulerModel.CloseInner, SchedulerModel.Rebalance;
      var prepared := PrepareTime(now, wall);
      if prepared.Err? {
        return Err(prepared.error);
      }
      if id !in entries || entries[id].notification.delivery == Closed {
        return Err(NotificationNotLive);
      }
      ghost var t := View();
      CloseTailKeeps(t, id, reason, now, wall);
      CloseReady(t, id, reason, wall);
      CloseInner(id, reason, wall);
      Rebalance(now, wall);
      r := Ok(true);
    }

    method DismissByKey(key: Key, now: Instant, wall: WallTime) returns (r: Result<NotificationId, SchedulerError>)
      requires Valid()
      modifies this
      ensures Valid() && (View(), r) == SchedulerModel.DismissByKey(old(View()), key, now, wall)
    {
      hide Inv, CloseLive;
      if key !in liveKeys {
        return Err(KeyNotLive);
      }
      var id := liveKeys[key];
      var closing := Close(id, Dismissed, now, wall);
      r := match closing case Ok(_) => Ok(id) case Err(e) => Err(e);
    }

    method Dismiss(id: NotificationId, now: Instant, wall: WallTime) returns (r: Result<Unit, SchedulerError>)
      requires Valid()
      modifies this
      ensures Valid() && (View(), r) == CloseLive(old(View()), id, Dismissed, now, wall)
    {
      r := Close(id, Dismissed, now, wall);
    }

    method FailRendering(id: NotificationId, now: Instant, wall: WallTime) returns (r: Result<Unit, SchedulerError>)
      requires Valid()
      modifies this
      ensures Valid() && (View(), r) == CloseLive(old(View()), id, RenderFailed, now, wall)
    {
      r := Close(id, RenderFailed, now, wall);
    }

    /** Closes everything, in whatever order the map yields it. */
    method Shutdown(reason: ShutdownReason, now: Instant, wall: WallTime)
      returns (r: Result<Unit, SchedulerError>, ghost order: seq<NotificationId>)
      requires Valid()
      modifies this
      ensures Valid()
      ensures old(lastNow) <= now ==> ToSet(order) == Prepare(old(View()), now, wall).entries.Keys && entries == map[]
      ensures (View(), r) == SchedulerModel.Shutdown(old(View()), reason, order, now, wall)
    {
      hide Inv, Tuned, Exact, Prepare, CloseAll;
      order := [];
      r := PrepareTime(now, wall);
      if r.Err? {
        return;
      }
      var ids := Enumerate(entries.Keys);
      order := ids;
      ShutdownKeeps(View(), ids, reason.Reason(), wall);
      assert Core(View()) by { InvIsCore(View()); }
      CloseEach(ids, reason.Reason(), wall);
    }

    // ---------- display and limits ----------

    method SetDisplayAvailable(available: bool, now: Instant, wall: WallTime) returns (r: Result<Unit, SchedulerError>)
      requires Valid()
      modifies this
      ensures Valid() && (View(), r) == SchedulerModel.SetDisplayAvailable(old(View()), available, now, wall)
    {
      hide Inv, Core, Ranked, Tuned, Exact, Prepare, SchedulerModel.Rebalance;
      r := PrepareTime(now, wall);
      if r.Err? {
        return;
      }
      ghost var t := View();
      AvailableKeeps(t, available, now, wall);
      AvailableFrame(t, available);
      if displayAvailable != available {
        displayAvailable := available;
        BumpRevision();
      }
      Rebalance(now, wall);
    }

    method PauseEach(ids: seq<NotificationId>, now: Instant)
      requires Distinct(ids) && lastNow <= now && (forall id :: id in ids ==> id in entries)
      requires TimersStarted(entries, activeToasts, lastNow)
      modifies this`entries
      ensures entries == Switching(old(entries), ids, now, {})
    {
      assert entries == Switching(old(entries), ids[..0], now, {});
      for i := 0 to |ids|
        invariant entries == Switching(old(entries), ids[..i], now, {})
      {
        SwitchingNext(old(entries), ids, i, now, {});
        SwitchTimer(ids[i], now, false);
      }
      assert ids[..|ids|] == ids;
    }

    /** Toasts past a reduced visible capacity go back to the queue, their timers paused. */
    method DeferExcess(now: Instant)
      requires Core(View()) && lastNow == now
      modifies this`activeToasts, this`pending, this`entries
      ensures View() == Deferred(old(View()), now)
    {
      hide Core, Contained, TimersStarted;
      if |activeToasts| > limits.maxVisible {
        ghost var s := View();
        DeferredListed(s);
        DeferredPaused(s, now);
        var deferred := activeToasts[limits.maxVisible..];
        PauseEach(deferred, now);
        activeToasts := activeToasts[..limits.maxVisible];
        pending := pending + deferred;
      }
    }

    /** The limits take effect; whatever no longer fits the queue closes. */
    method ApplyLimits(newLimits: Limits, now: Instant, wall: WallTime)
      requires Valid() && lastNow == now && !OverPinned(Relimited(View(), newLimits, now, wall))
      modifies this
      ensures View() == Enforce(Relimited(old(View()), newLimits, now, wall), wall)
    {
      ghost var t := View();
      hide Core, Ranked, Settled, Deferred, OverPinned, Enforce, SchedulerModel.Rebalance, SchedulerModel.SortPending;
      RelimitedKeeps(t, newLimits, now, wall);
      LimitsFrame(t, newLimits, now);
      limits := newLimits;
      closedCapacity := newLimits.maxPending + newLimits.maxVisible + 1;
      DeferExcess(now);
      Settle(now, wall);
      SettledRanked(View());
      var _ := EnforcePendingLimit(wall);
    }

    method TrimClosed()
      modifies this`closed
      ensures closed == LastN(old(closed), closedCapacity)
    {
      while |closed| > closedCapacity
        invariant LastN(closed, closedCapacity) == LastN(old(closed), closedCapacity)
        decreases |closed|
      {
        closed := closed[1..];
      }
    }

    method UpdateLimits(newLimits: Limits, now: Instant, wall: WallTime) returns (r: Result<Unit, SchedulerError>)
      requires Valid()
      requires lastNow <= now ==> !TooManyPinned(View(), Call(SettingLimits(newLimits), now, wall))
      modifies this
      ensures Valid() && (View(), r) == SchedulerModel.UpdateLimits(old(View()), newLimits, now, wall)
    {
      hide Inv, Tuned, Exact, Prepare, Relimited, Enforce, OverPinned, TooManyPinned;
      if lastNow <= now { RoomToRelimit(View(), newLimits, now, wall); }
      r := PrepareTime(now, wall);
      if r.Err? || limits == newLimits {
        return;
      }
      UpdateLimitsKeeps(View(), newLimits, now, wall);
      ApplyLimits(newLimits, now, wall);
      TrimClosed();
      BumpContentRevision();
    }

    method Advance(now: Instant, wall: WallTime) returns (r: Result<Unit, SchedulerError>)
      requires Valid()
      modifies this
      ensures Valid() && (View(), r) == SchedulerModel.Advance(old(View()), now, wall)
    {
      hide Inv, Tuned, Prepare;
      r := PrepareTime(now, wall);
    }

    // ---------- jumps ----------

    method BeginJumpInner(id: NotificationId) returns (r: Result<JumpIntent, SchedulerError>)
      requires Valid() && Tuned(View())
      modifies this
      ensures Valid() && (View(), r) == SchedulerModel.BeginJumpInner(old(View()), id)
    {
      hide Inv, Tuned, Exact;
      ghost var t := View();
      BeginJumpKeeps(t, id);
      if id in entries { StartedInPast(t, id); }
      var timerWasRunning := ToastTimerShouldRun(id);
      if id !in entries || entries[id].notification.delivery == Closed {
        return Err(NotificationNotLive);
      }
      if entries[id].jumpNonce.Some? {
        return Err(JumpAlreadyPending);
      }
      var source := entries[id].notification.content.source;
      if source.None? {
        return Err(MissingSource);
      }
      var nonce := nextJumpNonce;
      nextJumpNonce := nextJumpNonce + 1;
      entries := entries[id := entries[id].(jumpNonce := Some(nonce))];
      if timerWasRunning {
        SwitchTimer(id, lastNow, false);
      }
      assert entries == SchedulerModel.BeginJumpInner(t, id).0.entries;
      r := Ok(JumpIntent(id, nonce, source.value));
    }

    method BeginJump(id: NotificationId, now: Instant, wall: WallTime) returns (r: Result<JumpIntent, SchedulerError>)
      requires Valid()
      modifies this
      ensures Valid() && (View(), r) == SchedulerModel.BeginJump(old(View()), id, now, wall)
    {
      hide Inv, Tuned, Prepare, SchedulerModel.BeginJumpInner;
      var prepared := PrepareTime(now, wall);
      if prepared.Err? {
        return Err(prepared.error);
      }
      r := BeginJumpInner(id);
    }

    method BeginJumpByKey(key: Key, now: Instant, wall: WallTime) returns (r: Result<JumpIntent, SchedulerError>)
      requires Valid()
      modifies this
      ensures Valid() && (View(), r) == SchedulerModel.BeginJumpByKey(old(View()), key, now, wall)
    {
      hide Inv, Tuned, Prepare, SchedulerModel.BeginJumpInner;
      var prepared := PrepareTime(now, wall);
      if prepared.Err? {
        return Err(prepared.error);
      }
      if key !in liveKeys {
        return Err(KeyNotLive);
      }
      r := BeginJumpInner(liveKeys[key]);
    }

    method CancelJump(intent: JumpIntent, now: Instant, wall: WallTime) returns (r: Result<Unit, SchedulerError>)
      requires Valid()
      modifies this
      ensures Valid() && (View(), r) == SchedulerModel.CancelJump(old(View()), intent, now, wall)
    {
      hide Inv, Tuned, Exact, Prepare;
      r := PrepareTime(now, wall);
      if r.Err? {
        return;
      }
      var id := intent.id;
      if id !in entries || entries[id].jumpNonce != Some(intent.nonce) {
        return Err(StaleJumpIntent);
      }
      ghost var t := View();
      CancelTailKeeps(t, intent);
      StartedInPast(t, id);
      entries := entries[id := entries[id].(jumpNonce := None)];
      if ToastTimerShouldRun(id) {
        SwitchTimer(id, lastNow, true);
      }
      assert entries == Repinned(t, id, None, true).entries;
    }

    method CommitJump(intent: JumpIntent, now: Instant, wall: WallTime) returns (r: Result<Unit, SchedulerError>)
      requires Valid()
      modifies this
      ensures Valid() && (View(), r) == SchedulerModel.CommitJump(old(View()), intent, now, wall)
    {
      hide Inv, CloseLive;
      if intent.id !in entries || entries[intent.id].jumpNonce != Some(intent.nonce) {
        return Err(StaleJumpIntent);
      }
      r := Close(intent.id, Jumped, now, wall);
    }

    // ---------- reading out ----------

    method GetDisplayPlan() returns (plan: DisplayPlan)
      requires Valid()
      ensures plan == Plan(View()) && plan.revision == revision
      ensures ShowsExactly(plan, displayAvailable, activeAttention, activeToasts)
      ensures displayAvailable && entries != map[] ==> plan.attention.Some? || plan.toasts != []
    {
      hide Inv, ShowsExactly;
      PlanTells(View());
      plan := DisplayPlan(revision,
                          if displayAvailable then activeAttention else None,
                          if displayAvailable && activeAttention.None? then activeToasts else []);
    }

    method DrainClosed() returns (drained: seq<Notification>)
      requires Valid()
      modifies this`closed, this`history
      ensures Valid() && (View(), drained) == SchedulerModel.DrainClosed(old(View()))
      ensures drained == old(closed) && closed == [] && history.forwarded == old(history.forwarded) + drained
    {
      hide Core, Ranked;
      DrainKeeps(View());
      drained := closed;
      history := history.(forwarded := history.forwarded + closed);
      closed := [];
    }
  }

  lemma DeferredListed(s: State)
    requires Core(s) && |s.active| > s.limits.maxVisible
    ensures var d := s.active[s.limits.maxVisible..];
            Distinct(d) && (forall id :: id in d ==> id in s.entries && id in s.active)
            && TimersStarted(s.entries, s.active, s.lastNow)
  {
    hide SequencesUnique, NoncesUnique, Keyed, EntriesOk, TimersStarted, HistoryOk;
  }

  lemma DeferredPaused(s: State, now: Instant)
    requires |s.active| > s.limits.maxVisible
    ensures Deferred(s, now).entries == Switching(s.entries, s.active[s.limits.maxVisible..], now, {})
  {
  }

  lemma SettledRanked(s: State)
    requires Settled(s)
    ensures Core(s) && Ranked(s.entries, s.pending)
  {
    hide Core, Ranked;
  }

  lemma StartedInPast(t: State, id: NotificationId)
    requires Inv(t) && id in t.entries
    ensures t.entries[id].timeout.Remaining? && t.entries[id].timeout.runningSince.Some? ==>
              t.entries[id].timeout.runningSince.value <= t.lastNow
  {
    hide Contained, SequencesUnique, NoncesUnique, Keyed, EntriesOk, HistoryOk, Ranked, Conserving, Marked, Bounded;
  }

  lemma CloseReady(t: State, id: NotificationId, reason: CloseReason, wall: WallTime)
    requires Inv(t) && id in t.entries
    ensures t.entries[id].notification.id == id
    ensures var c := CloseInner(t, id, reason, wall); Core(c) && Ranked(c.entries, c.pending) && c.lastNow == t.lastNow
  {
    hide Core, Ranked;
    CoreAt(t, id);
    CloseInnerKeeps(t, id, reason, wall);
  }

  lemma RevisedFields(t: State, id: NotificationId, draft: Draft, now: Instant, wall: WallTime)
    requires id in t.entries
    ensures var r := Revised(t, id, draft, now, wall); r.lastNow == t.lastNow && Requeued(r, id).lastNow == t.lastNow
  {
  }

  lemma AdmittedFields(t: State, id: NotificationId, draft: Draft, wall: WallTime)
    ensures Admitted(t, id, draft, wall).lastNow == t.lastNow
  {
  }

  lemma KeyedEntry(t: State, key: Key)
    requires Inv(t) && key in t.liveKeys
    ensures t.liveKeys[key] in t.entries && t.entries[t.liveKeys[key]].Key() == Some(key)
  {
    hide Core, Contained;
    CoreParts(t);
  }

  lemma ElapseFields(s: State, now: Instant)
    requires s.lastNow <= now
    ensures var e := Elapse(s, now);
            && e.entries == s.entries && e.pending == s.pending && e.active == s.active && e.lastNow == now
            && e.closedCapacity == s.closedCapacity && e.limits == s.limits
  {
  }

  lemma NothingToBalance(s: State, now: Instant, wall: WallTime)
    requires Core(s) && s.pending == [] && s.active == [] && s.attention.None?
    ensures Rebalance(s, now, wall) == s
  {
    hide Core, Contained, Conserving, Marked, Tuned, Rebalance;
    CoreParts(s);
    ContainedSize(s.entries, s.pending, s.active, s.attention);
    assert s.entries == map[];
    EmptySettled(s);
    EmptyTuned(s);
    RebalanceIdle(s, now, wall);
  }

  lemma EmptyTuned(s: State)
    requires s.entries == map[]
    ensures Tuned(s)
  {
  }

  /** What the second half of `rebalance` relies on. */
  lemma RebalanceReady(s: State, wall: WallTime)
    requires Core(s) && Ranked(s.entries, s.pending)
    ensures var f := FillToasts(PickAttention(s));
            && Distinct(f.active) && (forall id :: id in f.active ==> id in f.entries)
            && (f.attention.Some? ==> f.attention.value in f.entries)
            && var m := MarkVisible(f, wall);
               && (forall id :: id in m.active ==> id in m.entries)
               && TimersStarted(m.entries, m.active, m.lastNow)
  {
    var f := FillToasts(PickAttention(s));
    hide Core, Ranked, Conserving, PickAttention, FillToasts, MarkVisible, Marked, EntriesOk;
    PickAttentionKeeps(s);
    FillToastsKeeps(PickAttention(s));
    MarkVisibleKeeps(f, wall);
    CoreParts(f);
    CoreParts(MarkVisible(f, wall));
  }
}
