/** What the scheduler answers, and what a caller may conclude from it, told by the state
    before the call: which Notifications are live and will not have timed out. */
module SchedulerAnswers {
  import opened Wrappers
  import opened Notifications
  import opened Seqs
  import opened SchedulerModel
  import opened SchedulerInvariant
  import opened SchedulerSteps
  import opened SchedulerOperations
  import opened SchedulerRecords
  import opened SchedulerForecast

  /** Live, and still live when time has reached `now`. */
  predicate StillLive(s: State, id: NotificationId, now: Instant) {
    id in s.entries && id !in Expiring(s, now)
  }

  /** What is left of the live Notifications at `now`. */
  ghost function LiveSoon(s: State, now: Instant): set<NotificationId> {
    set id | id in s.entries && id !in Expiring(s, now)
  }

  lemma PreparedLive(s: State, now: Instant, wall: WallTime)
    requires Inv(s) && s.lastNow <= now
    ensures var t := Prepare(s, now, wall);
            && Inv(t) && Core(t) && Tuned(t) && t.lastNow == now && Derived(s.entries, t.entries)
            && t.entries.Keys == LiveSoon(s, now) && (forall id :: id in t.entries <==> StillLive(s, id, now))
            && t.nextNonce == s.nextNonce
  {
    hide Inv, Core, Prepare, Derived, ClosedSome, Tuned, Exact, Expiring, QueueSoon, ActiveSoon;
    PrepareKeeps(s, now, wall);
    PrepareForecast(s, now, wall);
    InvIsCore(Prepare(s, now, wall));
    assert LiveSoon(s, now) == s.entries.Keys - ToSet(Expiring(s, now));
  }

  // ---------- submitting ----------

  /** The Notification that holds the draft's key. */
  function Holder(s: State, draft: Draft): NotificationId
    requires draft.key.Some? && draft.key.value in s.liveKeys
  {
    s.liveKeys[draft.key.value]
  }

  /** A submission under a key that is held is for the Notification that holds it, and a
      duplicate exactly if that says the same already. */
  lemma KeyedSubmitTells(s: State, draft: Draft, newId: NotificationId, now: Instant, wall: WallTime)
    requires Inv(s) && s.lastNow <= now && KeyHeld(s, draft, now)
    ensures var a, id := Submit(s, draft, newId, now, wall).1, Holder(s, draft);
            && StillLive(s, id, now) && s.entries[id].Key() == draft.key && a.Ok? && a.value.id == id
            && a.value.disposition == (if s.entries[id].notification.content == draft
                                       then SubmitDisposition.Duplicate else SubmitDisposition.Updated)
  {
    hide Inv, Core, Prepare, Derived, Tuned, KeyIsLive, KeyHeld, Upserted, Placed, Enforce, Expiring, LiveSoon;
    PreparedLive(s, now, wall);
    InvIsCore(s);
    HolderStays(s, Prepare(s, now, wall), draft, now);
  }

  /** Any other submission is for the new Notification, and tells whether that is displayed,
      waits, or was given up. */
  lemma FreshSubmitTells(s: State, draft: Draft, newId: NotificationId, now: Instant, wall: WallTime)
    requires Inv(s) && s.lastNow <= now && !KeyHeld(s, draft, now)
    ensures var (r, a) := Submit(s, draft, newId, now, wall);
            && a.Ok? && a.value.id == newId
            && (a.value.disposition == Suppressed <==> newId !in r.entries)
            && (a.value.disposition == SubmitDisposition.Visible <==> newId in r.entries && r.OnScreen(newId))
            && (a.value.disposition == Queued <==> newId in r.entries && !r.OnScreen(newId))
  {
    hide Inv, Core, Prepare, Derived, Tuned, KeyIsLive, KeyHeld, Upserted, Placed, Enforce, Expiring;
    PreparedLive(s, now, wall);
    InvIsCore(s);
    LiveKeys(s, Prepare(s, now, wall), now);
    KeyLiveIff(s, Prepare(s, now, wall), draft, now);
  }

  lemma LiveKeys(s: State, t: State, now: Instant)
    requires t.entries.Keys == LiveSoon(s, now)
    ensures t.entries.Keys == s.entries.Keys - ToSet(Expiring(s, now))
  {
  }

  lemma HolderStays(s: State, t: State, draft: Draft, now: Instant)
    requires Core(s) && Core(t) && Derived(s.entries, t.entries) && t.entries.Keys == LiveSoon(s, now)
    ensures KeyHeld(s, draft, now) ==>
      var id := Holder(s, draft);
      && StillLive(s, id, now) && s.entries[id].Key() == draft.key
      && KeyIsLive(t, draft) && t.liveKeys[draft.key.value] == id
      && t.entries[id].notification.content == s.entries[id].notification.content
  {
    CoreParts(s);
    CoreParts(t);
    hide Core, Contained, SequencesUnique, NoncesUnique, EntriesOk, TimersStarted, HistoryOk, Expiring;
    if KeyHeld(s, draft, now) {
      var id := Holder(s, draft);
      assert id in t.entries && t.entries[id].Key() == draft.key;
    }
  }

  // ---------- updating ----------

  /** An update succeeds exactly on what is still live, and is a duplicate exactly if it
      changes nothing. */
  lemma UpdateTells(s: State, id: NotificationId, update: Update, now: Instant, wall: WallTime)
    requires Inv(s) && s.lastNow <= now
    ensures var (r, a) := UpdateById(s, id, update, now, wall);
            && (a.Ok? <==> StillLive(s, id, now)) && (a.Err? ==> a.error == NotificationNotLive)
            && r.entries.Keys == LiveSoon(s, now)
            && (a.Ok? ==>
                  (a.value == UpdateDisposition.Duplicate
                   <==> r.entries[id].notification.content == s.entries[id].notification.content))
  {
    hide Inv, Core, Prepare, Tuned, Expiring, LiveSoon, ApplyUpdate;
    PreparedLive(s, now, wall);
    AppliedTells(Prepare(s, now, wall), id, update, now, wall);
  }

  lemma AppliedTells(t: State, id: NotificationId, update: Update, now: Instant, wall: WallTime)
    ensures var (r, a) := ApplyUpdate(t, id, update, now, wall);
            && (a.Ok? <==> id in t.entries) && (a.Err? ==> a.error == NotificationNotLive)
            && r.entries.Keys == t.entries.Keys
            && (a.Ok? ==>
                  (a.value == UpdateDisposition.Duplicate
                   <==> r.entries[id].notification.content == t.entries[id].notification.content))
  {
    hide SortRanked, Merged;
    if id in t.entries {
      var c := Merged(t.entries[id].notification.content, update);
      var u := Revised(t, id, c, now, wall);
      assert SortPending(u).entries == u.entries;
      assert u.entries.Keys == t.entries.Keys;
    }
  }

  /** The key is that of a Notification still live, or the update fails. */
  lemma KeyedUpdateTells(s: State, key: Key, update: Update, now: Instant, wall: WallTime)
    requires Inv(s) && s.lastNow <= now
    ensures var held := key in s.liveKeys && StillLive(s, s.liveKeys[key], now);
            && (!held ==> UpdateByKey(s, key, update, now, wall).1 == Err(KeyNotLive))
            && (held ==> UpdateByKey(s, key, update, now, wall) == UpdateById(s, s.liveKeys[key], update, now, wall))
  {
    var t := Prepare(s, now, wall);
    hide Inv, Core, Prepare, Tuned, Expiring, LiveSoon, Derived, ApplyUpdate;
    PreparedLive(s, now, wall);
    InvIsCore(s);
    KeysStay(s, t, key, now);
  }

  lemma KeysStay(s: State, t: State, key: Key, now: Instant)
    requires Core(s) && Core(t) && Derived(s.entries, t.entries) && t.entries.Keys == LiveSoon(s, now)
    ensures key in t.liveKeys <==> key in s.liveKeys && StillLive(s, s.liveKeys[key], now)
    ensures key in t.liveKeys ==> t.liveKeys[key] == s.liveKeys[key]
  {
    CoreParts(s);
    CoreParts(t);
    hide Core, Contained, SequencesUnique, NoncesUnique, EntriesOk, TimersStarted, HistoryOk, Expiring;
    if key in t.liveKeys {
      assert t.entries[t.liveKeys[key]].Key() == Some(key);
      assert s.entries[t.liveKeys[key]].Key() == Some(key);
    }
    if key in s.liveKeys && StillLive(s, s.liveKeys[key], now) {
      assert t.entries[s.liveKeys[key]].Key() == Some(key);
    }
  }

  // ---------- closing ----------

  /** A Notification still live is closed, alone but for what time closes, and for the reason
      asked; otherwise only time has passed. */
  lemma CloseTells(s: State, id: NotificationId, reason: CloseReason, now: Instant, wall: WallTime)
    requires Inv(s) && s.lastNow <= now
    ensures var (r, a) := CloseLive(s, id, reason, now, wall);
            && (a.Ok? <==> StillLive(s, id, now)) && (a.Err? ==> a.error == NotificationNotLive)
            && r.entries.Keys == LiveSoon(s, now) - {id}
            && (a.Ok? ==> r.history.log != [] && r.history.log[|r.history.log| - 1].id == id
                          && r.history.log[|r.history.log| - 1].closeReason == Some(reason))
  {
    hide Inv, Core, Prepare, Tuned, Expiring, LiveSoon, Derived, CloseInner, Rebalance, Exact, ClosedSome;
    PreparedLive(s, now, wall);
    var t := Prepare(s, now, wall);
    if id in t.entries {
      CoreAt(t, id);
      CloseTailKeeps(t, id, reason, now, wall);
      LastRecord(t, id, reason, now, wall);
    } else {
      assert t.entries.Keys - {id} == t.entries.Keys;
    }
  }

  lemma LastRecord(t: State, id: NotificationId, reason: CloseReason, now: Instant, wall: WallTime)
    requires id in t.entries && t.entries[id].notification.id == id
    ensures var log := Rebalance(CloseInner(t, id, reason, wall), now, wall).history.log;
            log != [] && log[|log| - 1].id == id && log[|log| - 1].closeReason == Some(reason)
  {
    RebalanceHistory(CloseInner(t, id, reason, wall), now, wall);
    hide Rebalance;
  }

  /** Dismissing by key is for the Notification that held the key when it was asked, even if that
      is due by then, and names it. */
  lemma KeyedDismissTells(s: State, key: Key, now: Instant, wall: WallTime)
    requires Inv(s) && s.lastNow <= now
    ensures var (r, a) := DismissByKey(s, key, now, wall);
            && (a.Ok? <==> key in s.liveKeys && StillLive(s, s.liveKeys[key], now))
            && (a.Ok? ==>
                  && a.value == s.liveKeys[key] && r.entries.Keys == LiveSoon(s, now) - {a.value}
                  && r.history.log != [] && r.history.log[|r.history.log| - 1].id == a.value
                  && r.history.log[|r.history.log| - 1].closeReason == Some(Dismissed))
            && (a.Err? ==> a.error == if key in s.liveKeys then NotificationNotLive else KeyNotLive)
            && (key !in s.liveKeys ==> r == s)
  {
    hide Inv, Expiring, LiveSoon, CloseLive;
    if key in s.liveKeys {
      CloseTells(s, s.liveKeys[key], Dismissed, now, wall);
      var closed := CloseLive(s, s.liveKeys[key], Dismissed, now, wall).1;
      assert closed.Err? ==> closed.error == NotificationNotLive;
    }
  }

  /** The daemon ends with nothing live, and what was not due is recorded with the name of the
      ending: an interrupt, a stop, or the end of the tmux server. */
  lemma ShutdownTells(s: State, reason: ShutdownReason, order: seq<NotificationId>, now: Instant, wall: WallTime)
    requires Inv(s) && s.lastNow <= now && ToSet(order) == LiveSoon(s, now)
    ensures var (r, a) := Shutdown(s, reason, order, now, wall);
            && a.Ok? && r.entries == map[]
            && (forall n :: n in NewlyClosed(Advance(s, now, wall).0, r) ==>
                  n.closeReason == Some(if reason.ByInterrupt? then DaemonInterrupted
                                        else if reason.ByStop? then DaemonStopped else ServerEnded))
  {
    hide Inv, Core, Prepare, Tuned, Expiring, LiveSoon, Derived, CloseAll, Exact;
    PreparedLive(s, now, wall);
    ShutdownKeeps(Prepare(s, now, wall), order, reason.Reason(), wall);
  }

  // ---------- jumping ----------

  /** A jump begins exactly on a Notification still live that has a source and no jump pending;
      the intent names it, its source, and the nonce it is now pinned by. */
  lemma BeginJumpTells(s: State, id: NotificationId, now: Instant, wall: WallTime)
    requires Inv(s) && s.lastNow <= now
    ensures var (r, a) := BeginJump(s, id, now, wall);
            && (a == Err(NotificationNotLive) <==> !StillLive(s, id, now))
            && (a == Err(JumpAlreadyPending) <==> StillLive(s, id, now) && s.entries[id].jumpNonce.Some?)
            && (a == Err(MissingSource)
                <==> StillLive(s, id, now) && s.entries[id].jumpNonce.None?
                     && s.entries[id].notification.content.source.None?)
            && (a.Ok? ==>
                  && a.value.id == id && s.entries[id].notification.content.source == Some(a.value.source)
                  && Outstanding(r, a.value) && a.value.nonce == s.nextNonce < r.nextNonce)
            && (a.Ok? <==> StillLive(s, id, now) && s.entries[id].jumpNonce.None?
                           && s.entries[id].notification.content.source.Some?)
  {
    hide Inv, Core, Prepare, Tuned, Expiring, LiveSoon;
    PreparedLive(s, now, wall);
    var t := Prepare(s, now, wall);
    if id in t.entries { CoreAt(t, id); }
  }

  /** A jump by key is one to the Notification that holds the key and is still live. */
  lemma KeyedJumpTells(s: State, key: Key, now: Instant, wall: WallTime)
    requires Inv(s) && s.lastNow <= now
    ensures var held := key in s.liveKeys && StillLive(s, s.liveKeys[key], now);
            && (!held ==> BeginJumpByKey(s, key, now, wall).1 == Err(KeyNotLive))
            && (held ==> BeginJumpByKey(s, key, now, wall) == BeginJump(s, s.liveKeys[key], now, wall))
  {
    var t := Prepare(s, now, wall);
    hide Inv, Core, Prepare, Tuned, Expiring, LiveSoon, Derived, BeginJumpInner;
    PreparedLive(s, now, wall);
    InvIsCore(s);
    KeysStay(s, t, key, now);
  }

  /** A jump is called off exactly if the intent is outstanding and its Notification did not
      time out meanwhile. */
  lemma CancelTells(s: State, intent: JumpIntent, now: Instant, wall: WallTime)
    requires Inv(s) && s.lastNow <= now
    ensures var (r, a) := CancelJump(s, intent, now, wall);
            && (a.Ok? <==> Outstanding(s, intent) && intent.id !in Expiring(s, now))
            && (a.Err? ==> a.error == StaleJumpIntent)
            && (a.Ok? ==> intent.id in r.entries && r.entries[intent.id].jumpNonce.None?)
  {
    hide Inv, Core, Prepare, Tuned, Expiring, LiveSoon;
    PreparedLive(s, now, wall);
  }

  /** A jump is carried out exactly then, and closes its Notification as jumped. */
  lemma CommitTells(s: State, intent: JumpIntent, now: Instant, wall: WallTime)
    requires Inv(s) && s.lastNow <= now
    ensures var (r, a) := CommitJump(s, intent, now, wall);
            && (a.Ok? <==> Outstanding(s, intent) && intent.id !in Expiring(s, now))
            && (a.Err? ==> a.error == if Outstanding(s, intent) then NotificationNotLive else StaleJumpIntent)
            && (a.Ok? ==>
                  && r.entries.Keys == LiveSoon(s, now) - {intent.id}
                  && r.history.log != [] && r.history.log[|r.history.log| - 1].id == intent.id
                  && r.history.log[|r.history.log| - 1].closeReason == Some(Jumped))
  {
    hide Inv, Expiring, LiveSoon, CloseLive;
    CloseTells(s, intent.id, Jumped, now, wall);
  }
}
