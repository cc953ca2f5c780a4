/** Every public operation of the scheduler, on every path, keeps the invariant. */
module SchedulerOperations {
  import opened Wrappers
  import opened Notifications
  import opened Seqs
  import opened SchedulerModel
  import opened SchedulerInvariant
  import opened SchedulerSteps

  // ---------- content changes ----------

  /** One entry replaced by another with the same key, place in line and pin. */
  lemma SlotReplaced(e: Entries, id: NotificationId, x: LiveEntry, seqs: nat, nonces: nat, 
                     keys: map<Key, NotificationId>)
    requires id in e && x.sequence == e[id].sequence && x.jumpNonce == e[id].jumpNonce && x.Key() == e[id].Key()
    requires SequencesUnique(e, seqs) && NoncesUnique(e, nonces) && Keyed(e, keys)
    ensures SequencesUnique(e[id := x], seqs) && NoncesUnique(e[id := x], nonces) && Keyed(e[id := x], keys)
  {
  }

  lemma EntryReplaced(e: Entries, id: NotificationId, x: LiveEntry, active: seq<NotificationId>, now: Instant)
    requires EntriesOk(e) && TimersStarted(e, active, now) && EntryOk(id, x)
    requires x.timeout.Remaining? && x.timeout.runningSince.Some? ==>
      id in active && x.timeout.runningSince.value <= now
    ensures EntriesOk(e[id := x]) && TimersStarted(e[id := x], active, now)
  {
  }

  /** A live Notification that keeps its presentation keeps its place. */
  lemma PlaceKept(e: Entries, id: NotificationId, x: LiveEntry, pending: seq<NotificationId>,
                  active: seq<NotificationId>, attention: Option<NotificationId>)
    requires Contained(e, pending, active, attention) && id in e && x.Presentation() == e[id].Presentation()
    ensures Contained(e[id := x], pending, active, attention)
  {
  }

  lemma QueuedContained(e: Entries, id: NotificationId, x: LiveEntry, pending: seq<NotificationId>,
                        active: seq<NotificationId>, attention: Option<NotificationId>)
    requires Contained(e, pending, active, attention) && id !in e
    ensures Contained(e[id := x], pending + [id], active, attention)
  {
    assert id !in pending;
    AppendedDistinct(pending, id);
    var p := pending + [id];
    assert forall y :: y in p <==> y in pending || y == id;
  }

  lemma RequeuedContained(e: Entries, id: NotificationId, x: LiveEntry, pending: seq<NotificationId>,
                          active: seq<NotificationId>, attention: Option<NotificationId>)
    requires Contained(e, pending, active, attention) && id in e
    ensures Contained(e[id := x], Without(pending, id) + [id], Without(active, id),
                      if attention == Some(id) then None else attention)
  {
    hide Contained;
    WithoutContained(e, pending, active, attention, id);
    QueuedContained(e - {id}, id, x, Without(pending, id), Without(active, id),
                    if attention == Some(id) then None else attention);
    assert e[id := x] == (e - {id})[id := x];
  }

  lemma CoreAt(s: State, id: NotificationId)
    requires Core(s) && id in s.entries
    ensures EntryOk(id, s.entries[id]) && s.history.shown.Keys == s.entries.Keys
    ensures id in s.active ==> s.entries[id].Presentation() == Toast
  {
  }

  ghost function RevisedEntry(s: State, id: NotificationId, content: Draft, now: Instant, wall: WallTime): LiveEntry
    requires id in s.entries
  {
    s.entries[id].(notification := s.entries[id].notification.ReplaceContent(content, wall),
                   timeout := Restarted(content.timeout, now, s.ToastOnScreen(id)))
  }

  /** Changing content in place keeps everything but, perhaps, the place. */
  lemma RevisedParts(s: State, id: NotificationId, content: Draft, now: Instant, wall: WallTime)
    requires Core(s) && id in s.entries && content.key == s.entries[id].Key() && s.lastNow == now
    ensures var r := Revised(s, id, content, now, wall);
            && SequencesUnique(r.entries, r.nextSequence) && NoncesUnique(r.entries, r.nextNonce)
            && Keyed(r.entries, r.liveKeys) && EntriesOk(r.entries)
            && TimersStarted(r.entries, r.active, r.lastNow) && HistoryOk(r.entries.Keys, r.history)
  {
    hide Core, Contained, SequencesUnique, NoncesUnique, Keyed, EntriesOk, TimersStarted, HistoryOk;
    var x := RevisedEntry(s, id, content, now, wall);
    CoreAt(s, id);
    CoreParts(s);
    SlotReplaced(s.entries, id, x, s.nextSequence, s.nextNonce, s.liveKeys);
    EntryReplaced(s.entries, id, x, s.active, now);
    RevisedHistory(s.entries.Keys, s.history, id);
    assert s.entries[id := x].Keys == s.entries.Keys;
  }

  lemma RevisedInPlace(s: State, id: NotificationId, content: Draft, now: Instant, wall: WallTime)
    requires Core(s) && id in s.entries && content.key == s.entries[id].Key() && s.lastNow == now
    requires content.presentation == s.entries[id].Presentation()
    ensures Core(Revised(s, id, content, now, wall))
  {
    hide Core, Contained, SequencesUnique, NoncesUnique, Keyed, EntriesOk, TimersStarted, HistoryOk;
    CoreParts(s);
    RevisedParts(s, id, content, now, wall);
    PlaceKept(s.entries, id, RevisedEntry(s, id, content, now, wall), s.pending, s.active, s.attention);
    CoreJoin(Revised(s, id, content, now, wall));
  }

  lemma RevisedElsewhere(s: State, id: NotificationId, content: Draft, now: Instant, wall: WallTime)
    requires Core(s) && id in s.entries && content.key == s.entries[id].Key() && s.lastNow == now
    requires content.presentation != s.entries[id].Presentation()
    ensures Core(Requeued(Revised(s, id, content, now, wall), id))
  {
    hide Core, Contained, SequencesUnique, NoncesUnique, Keyed, EntriesOk, TimersStarted, HistoryOk;
    var x := RevisedEntry(s, id, content, now, wall);
    CoreAt(s, id);
    CoreParts(s);
    RevisedParts(s, id, content, now, wall);
    RequeuedContained(s.entries, id, x, s.pending, s.active, s.attention);
    RequeuedTimers(s.entries, id, x, s.active, now);
    CoreJoin(Requeued(Revised(s, id, content, now, wall), id));
  }

  lemma RevisedHistory(live: set<NotificationId>, h: History, id: NotificationId)
    requires HistoryOk(live, h) && id in live
    ensures HistoryOk(live, h.(shown := h.shown[id := 0]))
  {
  }

  lemma RequeuedTimers(e: Entries, id: NotificationId, x: LiveEntry, active: seq<NotificationId>, now: Instant)
    requires TimersStarted(e[id := x], active, now)
    requires x.timeout.Remaining? ==> x.timeout.runningSince.None?
    ensures TimersStarted(e[id := x], Without(active, id), now)
  {
  }

  lemma RevisedTallied(s: State, id: NotificationId, content: Draft, now: Instant, wall: WallTime)
    requires id in s.entries && s.lastNow == now && Tallied(s) && Unspent(s.entries, now)
    ensures var r := Revised(s, id, content, now, wall); Tallied(r) && Unspent(r.entries, now)
  {
    var r := Revised(s, id, content, now, wall);
    forall x | x in r.entries ensures TalliedEntry(r, x, r.entries[x]) {
      if x != id { assert TalliedEntry(s, x, s.entries[x]); }
    }
  }

  // ---------- settling: sort the queue, then display what fits ----------

  /** Everything `Inv` and the timers ask for after a rebalance. */
  ghost predicate Settled(r: State) {
    Core(r) && Ranked(r.entries, r.pending) && Conserving(r) && Marked(r) && Tuned(r)
  }

  lemma SettleKeeps(v: State, now: Instant, wall: WallTime)
    requires Core(v) && v.lastNow == now
    ensures var r := Rebalance(SortPending(v), now, wall);
            && Settled(r)
            && (Tallied(v) && Unspent(v.entries, now) ==> Exact(r))
            && (|v.active| <= v.limits.maxVisible ==> |r.active| <= r.limits.maxVisible)
            && Touched(v.entries, r.entries)
            && r == v.(entries := r.entries, pending := r.pending, active := r.active, attention := r.attention)
  {
    hide Core, Ranked, Conserving, Marked, Tuned, Tallied, Unspent, SortPending, Rebalance;
    SortPendingKeeps(v);
    var p := SortPending(v);
    if Tallied(v) && Unspent(v.entries, now) { SameTally(v, p); }
    RebalanceKeeps(p, now, wall);
  }

  lemma SameTally(v: State, p: State)
    requires Tallied(v) && p.entries == v.entries && p.lastNow == v.lastNow && p.history == v.history
    ensures Tallied(p)
  {
    forall id | id in p.entries ensures TalliedEntry(p, id, p.entries[id]) {
      assert TalliedEntry(v, id, v.entries[id]);
    }
  }

  lemma RequeuedActive(v: State, id: NotificationId)
    ensures |Requeued(v, id).active| <= |v.active|
  {
  }

  lemma UpsertKeeps(t: State, id: NotificationId, draft: Draft, now: Instant, wall: WallTime)
    requires Inv(t) && t.lastNow == now && id in t.entries && draft.key == t.entries[id].Key()
    ensures var r := Upserted(t, id, draft, now, wall);
            && Inv(r) && Tuned(r) && (Exact(t) ==> Exact(r))
            && r.entries.Keys == t.entries.Keys && r.limits == t.limits && r.lastNow == now
            && NothingNew(t, r)
  {
    hide Core, Ranked, Conserving, Marked, Tuned, Tallied, Unspent, SortPending, Rebalance;
    var u := Revised(t, id, draft, now, wall);
    var v := if draft.presentation != t.entries[id].Presentation() then Requeued(u, id) else u;
    assert u.entries.Keys == t.entries.Keys;
    if draft.presentation != t.entries[id].Presentation() {
      RevisedElsewhere(t, id, draft, now, wall);
      RequeuedActive(u, id);
    } else {
      RevisedInPlace(t, id, draft, now, wall);
    }
    if Exact(t) {
      RevisedTallied(t, id, draft, now, wall);
      SameTally(u, v);
    }
    SettleKeeps(v, now, wall);
    var r := Rebalance(SortPending(v), now, wall);
    BumpFrame(r);
  }

  /** Revision counters are not part of any of these. */
  lemma BumpFrame(r: State)
    requires Settled(r)
    ensures Settled(BumpContent(r)) && Settled(BumpRevision(r))
    ensures Exact(r) ==> Exact(BumpContent(r)) && Exact(BumpRevision(r))
  {
    hide Contained, SequencesUnique, NoncesUnique, Keyed, EntriesOk, TimersStarted, HistoryOk;
    forall id | id in r.entries && Exact(r)
      ensures TalliedEntry(BumpContent(r), id, r.entries[id]) && TalliedEntry(BumpRevision(r), id, r.entries[id])
    {
      assert TalliedEntry(r, id, r.entries[id]);
    }
    forall id | id in r.entries
      ensures TunedEntry(BumpContent(r), id, r.entries[id]) && TunedEntry(BumpRevision(r), id, r.entries[id])
    {
      assert TunedEntry(r, id, r.entries[id]);
    }
  }

  /** No record was closed. */
  ghost predicate NothingNew(s: State, r: State) {
    && r.history.log == s.history.log && r.closed == s.closed && r.closedCapacity == s.closedCapacity
    && r.history.forwarded == s.history.forwarded
  }

  // ---------- a new Notification ----------

  lemma AdmittedKeys(e: Entries, keys: map<Key, NotificationId>, id: NotificationId, x: LiveEntry)
    requires Keyed(e, keys) && id !in e && (x.Key().Some? ==> x.Key().value !in keys)
    ensures Keyed(e[id := x], if x.Key().Some? then keys[x.Key().value := id] else keys)
  {
  }

  lemma AdmittedEntries(e: Entries, id: NotificationId, x: LiveEntry, active: seq<NotificationId>,
                        seqs: nat, nonces: nat, now: Instant)
    requires SequencesUnique(e, seqs) && NoncesUnique(e, nonces) && EntriesOk(e) && TimersStarted(e, active, now)
    requires id !in e && x.sequence == seqs && x.jumpNonce.None? && EntryOk(id, x)
    requires x.timeout.Remaining? ==> x.timeout.runningSince.None?
    ensures SequencesUnique(e[id := x], seqs + 1) && NoncesUnique(e[id := x], nonces)
    ensures EntriesOk(e[id := x]) && TimersStarted(e[id := x], active, now)
  {
  }

  lemma AdmittedHistory(live: set<NotificationId>, h: History, id: NotificationId)
    requires HistoryOk(live, h) && id !in h.submitted
    ensures HistoryOk(live + {id}, h.(submitted := h.submitted + {id}, shown := h.shown[id := 0]))
  {
  }

  lemma AdmittedKeeps(t: State, id: NotificationId, draft: Draft, wall: WallTime)
    requires Core(t) && id !in t.history.submitted && !KeyIsLive(t, draft)
    ensures var r := Admitted(t, id, draft, wall);
            Core(r) && r.entries.Keys == t.entries.Keys + {id}
  {
    var x := LiveEntry(Notification.FromDraft(id, draft, wall), t.nextSequence, Restarted(draft.timeout, 0, false),
                       None);
    assert t.entries[id := x].Keys == t.entries.Keys + {id};
    hide Core, Contained, SequencesUnique, NoncesUnique, EntriesOk, TimersStarted;
    CoreParts(t);
    assert id !in t.entries;
    AdmittedKeys(t.entries, t.liveKeys, id, x);
    hide HistoryOk, Keyed;
    AdmittedEntries(t.entries, id, x, t.active, t.nextSequence, t.nextNonce, t.lastNow);
    AdmittedHistory(t.entries.Keys, t.history, id);
    QueuedContained(t.entries, id, x, t.pending, t.active, t.attention);
    CoreJoin(Admitted(t, id, draft, wall));
  }

  lemma AdmittedTallied(t: State, id: NotificationId, draft: Draft, wall: WallTime)
    requires Tallied(t) && Unspent(t.entries, t.lastNow)
    ensures var r := Admitted(t, id, draft, wall); Tallied(r) && Unspent(r.entries, r.lastNow)
  {
    var r := Admitted(t, id, draft, wall);
    forall x | x in r.entries ensures TalliedEntry(r, x, r.entries[x]) {
      if x != id { assert TalliedEntry(t, x, t.entries[x]); }
    }
  }

  lemma PlacedKeeps(t: State, id: NotificationId, draft: Draft, now: Instant, wall: WallTime)
    requires Inv(t) && t.lastNow == now && id !in t.history.submitted && !KeyIsLive(t, draft)
    ensures var p := Placed(t, id, draft, now, wall);
            && Settled(p) && (Exact(t) ==> Exact(p))
            && |p.active| <= p.limits.maxVisible && p.entries.Keys == t.entries.Keys + {id}
            && p.lastNow == now && p.limits == t.limits && NothingNew(t, p)
  {
    hide Core, Ranked, Conserving, Marked, Tuned, Tallied, Unspent, SortPending, Rebalance, Settled;
    var a := Admitted(t, id, draft, wall);
    AdmittedKeeps(t, id, draft, wall);
    if Exact(t) { AdmittedTallied(t, id, draft, wall); }
    SettleKeeps(a, now, wall);
  }

  /** Live Notifications are counted by their containers. */
  lemma ContainedSize(e: Entries, pending: seq<NotificationId>, active: seq<NotificationId>,
                      attention: Option<NotificationId>)
    requires Contained(e, pending, active, attention)
    ensures |e| == |pending| + |active| + if attention.Some? then 1 else 0
  {
    var p, a, s := ToSet(pending), ToSet(active), if attention.Some? then {attention.value} else {};
    DistinctSize(pending);
    DistinctSize(active);
    assert p !! a && (p + a) !! s;
    assert e.Keys == p + a + s;
    assert |e| == |e.Keys|;
  }

  lemma LiveBound(r: State)
    requires Core(r) && |r.pending| <= r.limits.maxPending && |r.active| <= r.limits.maxVisible
    ensures |r.entries| <= Capacity(r.limits)
  {
    hide Contained, Core;
    CoreParts(r);
    ContainedSize(r.entries, r.pending, r.active, r.attention);
  }

  /** The pending limit enforced on a settled state. */
  lemma EnforceSettled(p: State, wall: WallTime)
    requires Settled(p) && |p.active| <= p.limits.maxVisible && p.closedCapacity > 0 && !OverPinned(p)
    ensures var r := Enforce(p, wall);
            && Settled(r) && (Exact(p) ==> Exact(r))
            && |r.pending| <= r.limits.maxPending && |r.active| <= r.limits.maxVisible
            && |r.entries| <= Capacity(r.limits)
            && r.limits == p.limits && r.lastNow == p.lastNow && r.entries.Keys <= p.entries.Keys
            && ClosedSome(p, r, RenderSuppressed)
  {
    hide Core, Ranked, Conserving, Marked, Tuned, Tallied, Unspent, Enforce, OverPinned, ClosedSome;
    EnforceKeeps(p, wall);
    var r := Enforce(p, wall);
    LiveBound(r);
    if Exact(p) { UnspentSubset(p.entries, r.entries, p.lastNow); }
  }

  lemma UnspentSubset(e: Entries, f: Entries, now: Instant)
    requires Unspent(e, now) && f.Keys <= e.Keys && forall id :: id in f ==> f[id] == e[id]
    ensures Unspent(f, now)
  {
  }

  lemma SubmitNewKeeps(t: State, id: NotificationId, draft: Draft, now: Instant, wall: WallTime)
    requires Inv(t) && t.lastNow == now && id !in t.history.submitted && !KeyIsLive(t, draft)
    requires !OverPinned(Placed(t, id, draft, now, wall))
    ensures var p := Placed(t, id, draft, now, wall);
            var r := BumpContent(Enforce(p, wall));
            && Inv(r) && Tuned(r) && (Exact(t) ==> Exact(r)) && |r.pending| <= r.limits.maxPending
            && r.entries.Keys <= t.entries.Keys + {id} && r.limits == t.limits && r.lastNow == now
            && NothingNew(t, p) && ClosedSome(p, Enforce(p, wall), RenderSuppressed)
  {
    hide Core, Ranked, Conserving, Marked, Tuned, Tallied, Unspent, Exact, OverPinned, Enforce, Placed;
    PlacedKeeps(t, id, draft, now, wall);
    var p := Placed(t, id, draft, now, wall);
    EnforceSettled(p, wall);
    BumpFrame(Enforce(p, wall));
  }

  // ---------- partial update ----------

  /** A content change that keeps the presentation does not change what is displayed. */
  lemma RevisedDisplay(s: State, id: NotificationId, content: Draft, now: Instant, wall: WallTime)
    requires id in s.entries && content.presentation == s.entries[id].Presentation()
    ensures var r := Revised(s, id, content, now, wall);
            (Conserving(s) ==> Conserving(r)) && (Marked(s) ==> Marked(r))
  {
    var r := Revised(s, id, content, now, wall);
    assert forall x :: s.OnScreen(x) <==> r.OnScreen(x);
    assert forall x :: x in r.entries ==>
      r.entries[x].Presentation() == s.entries[x].Presentation()
      && r.entries[x].notification.delivery == s.entries[x].notification.delivery;
  }

  /** The timer restarts although a jump pins the toast exactly when the toast is on
      screen, pinned, and still has a finite timeout. */
  predicate UnpinsTimer(t: State, id: NotificationId, content: Draft) {
    id in t.entries && t.ToastOnScreen(id) && t.entries[id].jumpNonce.Some? && content.timeout.After?
  }

  lemma RevisedTuned(s: State, id: NotificationId, content: Draft, now: Instant, wall: WallTime)
    requires id in s.entries && Tuned(s)
    ensures Tuned(Revised(s, id, content, now, wall)) <==> !UnpinsTimer(s, id, content)
  {
    var r := Revised(s, id, content, now, wall);
    assert forall x :: s.Ticking(x) <==> r.Ticking(x);
    forall x | x in r.entries && x != id ensures TunedEntry(r, x, r.entries[x]) {
      assert TunedEntry(s, x, s.entries[x]);
    }
    assert TunedEntry(r, id, r.entries[id]) <==> !UnpinsTimer(s, id, content);
  }

  lemma SortPendingTimers(u: State)
    ensures var r := BumpContent(SortPending(u));
            && (Tuned(r) <==> Tuned(u)) && (Tallied(r) <==> Tallied(u)) && (Marked(r) <==> Marked(u))
            && r.entries == u.entries
  {
    var r := BumpContent(SortPending(u));
    assert forall x :: u.Ticking(x) <==> r.Ticking(x);
    assert forall x :: u.OnScreen(x) <==> r.OnScreen(x);
    assert forall x :: x in u.entries ==>
      (TunedEntry(u, x, u.entries[x]) <==> TunedEntry(r, x, r.entries[x]))
      && (TalliedEntry(u, x, u.entries[x]) <==> TalliedEntry(r, x, r.entries[x]));
  }

  lemma RevisedSorted(t: State, id: NotificationId, c: Draft, now: Instant, wall: WallTime)
    requires Inv(t) && Tuned(t) && t.lastNow == now && id in t.entries
    requires c.key == t.entries[id].Key() && c.presentation == t.entries[id].Presentation()
    ensures var r := BumpContent(SortPending(Revised(t, id, c, now, wall)));
            && Inv(r) && r.entries.Keys == t.entries.Keys && r.limits == t.limits && r.lastNow == now
            && NothingNew(t, r)
            && (Tuned(r) <==> !UnpinsTimer(t, id, c))
            && (Exact(t) ==> Tallied(r) && Unspent(r.entries, now))
  {
    hide Core, Ranked, Conserving, Marked, Tuned, Tallied, Unspent, SortPending, UnpinsTimer;
    var u := Revised(t, id, c, now, wall);
    RevisedInPlace(t, id, c, now, wall);
    RevisedDisplay(t, id, c, now, wall);
    RevisedTuned(t, id, c, now, wall);
    if Exact(t) { RevisedTallied(t, id, c, now, wall); }
    SortPendingKeeps(u);
    SortPendingTimers(u);
    assert u.entries.Keys == t.entries.Keys;
    BumpCore(SortPending(u));
  }

  lemma MergedKeeps(c: Draft, u: Update)
    ensures Merged(c, u).key == c.key && Merged(c, u).presentation == c.presentation
  {
  }

  /** The update changes content and so restarts the timer of a pinned toast on screen. */
  predicate UpdateUnpins(t: State, id: NotificationId, update: Update) {
    id in t.entries
    && Merged(t.entries[id].notification.content, update) != t.entries[id].notification.content
    && UnpinsTimer(t, id, Merged(t.entries[id].notification.content, update))
  }

  /** A partial update keeps the invariant; it keeps the timers exact if and only if it
      does not restart the timer of a pinned toast. */
  lemma ApplyUpdateKeeps(t: State, id: NotificationId, update: Update, now: Instant, wall: WallTime)
    requires Inv(t) && Tuned(t) && t.lastNow == now
    ensures var r := ApplyUpdate(t, id, update, now, wall).0;
            && Inv(r) && r.entries.Keys == t.entries.Keys && r.limits == t.limits && r.lastNow == now
            && NothingNew(t, r)
            && (Exact(t) ==> (Exact(r) <==> !UpdateUnpins(t, id, update)))
  {
    hide Inv, Tuned, Tallied, Unspent, SortPending, UnpinsTimer, Merged, Revised;
    if id in t.entries {
      var c := Merged(t.entries[id].notification.content, update);
      MergedKeeps(t.entries[id].notification.content, update);
      if c != t.entries[id].notification.content {
        RevisedSorted(t, id, c, now, wall);
      }
    }
  }

  lemma BumpCore(r: State)
    requires Core(r)
    ensures Core(BumpContent(r))
    ensures Conserving(r) ==> Conserving(BumpContent(r))
  {
    hide Contained, SequencesUnique, NoncesUnique, Keyed, EntriesOk, TimersStarted, HistoryOk;
  }

  // ---------- closing one, closing all ----------

  lemma CloseInnerFields(t: State, id: NotificationId, reason: CloseReason, wall: WallTime)
    ensures var c := CloseInner(t, id, reason, wall);
            c.lastNow == t.lastNow && c.limits == t.limits && c.available == t.available
  {
  }

  lemma CloseTailKeeps(t: State, id: NotificationId, reason: CloseReason, now: Instant, wall: WallTime)
    requires Inv(t) && t.lastNow == now && id in t.entries
    ensures var c := CloseInner(t, id, reason, wall);
            var r := Rebalance(c, now, wall);
            && Inv(r) && Tuned(r) && (Exact(t) ==> Exact(r))
            && r.entries.Keys == t.entries.Keys - {id} && r.limits == t.limits && r.lastNow == now
            && ClosedSome(t, c, reason) && NothingNew(c, r)
  {
    hide Core, Ranked, Conserving, Marked, Tuned, Tallied, Unspent, Rebalance, ClosedSome, CloseInner;
    CoreAt(t, id);
    var c := CloseInner(t, id, reason, wall);
    CloseInnerFields(t, id, reason, wall);
    CloseInnerKeeps(t, id, reason, wall);
    CloseInnerCloses(t, id, reason, wall);
    ClosedBound(t, c, reason);
    if Exact(t) { UnspentSubset(t.entries, c.entries, now); }
    RebalanceKeeps(c, now, wall);
    SubsetSize(c.entries.Keys, t.entries.Keys);
    assert (t.entries - {id}).Keys == t.entries.Keys - {id};
  }

  lemma EmptySettled(r: State)
    requires Core(r) && r.entries == map[]
    ensures Conserving(r) && Marked(r) && Exact(r) && Ranked(r.entries, r.pending)
  {
    CoreParts(r);
    ContainedSize(r.entries, r.pending, r.active, r.attention);
  }

  lemma ShutdownKeeps(t: State, order: seq<NotificationId>, reason: CloseReason, wall: WallTime)
    requires Inv(t) && ToSet(order) == t.entries.Keys
    ensures var r := CloseAll(t, order, reason, wall);
            && Inv(r) && Exact(r) && r.entries == map[] && r.limits == t.limits && r.lastNow == t.lastNow
            && ClosedSome(t, r, reason)
  {
    hide Core, Ranked, Conserving, Marked, Tuned, Tallied, Unspent, CloseAll, ClosedSome, EntriesOk;
    CoreEntries(t);
    CloseAllKeeps(t, order, reason, wall);
    CloseAllCloses(t, order, reason, wall);
    var r := CloseAll(t, order, reason, wall);
    assert r.entries == map[];
    EmptySettled(r);
    ClosedBound(t, r, reason);
  }

  lemma ClosedBound(s: State, r: State, reason: CloseReason)
    requires ClosedSome(s, r, reason) && |s.closed| <= s.closedCapacity
    ensures |r.closed| <= r.closedCapacity && r.closedCapacity == s.closedCapacity
  {
  }

  // ---------- availability and limits ----------

  lemma AvailableFrame(t: State, available: bool)
    requires Inv(t)
    ensures var u := if t.available != available then BumpRevision(t.(available := available)) else t;
            Core(u) && Ranked(u.entries, u.pending) && u.lastNow == t.lastNow
  {
    hide Ranked, Contained, SequencesUnique, NoncesUnique, Keyed, EntriesOk, TimersStarted, HistoryOk;
  }

  lemma AvailableKeeps(t: State, available: bool, now: Instant, wall: WallTime)
    requires Inv(t) && t.lastNow == now
    ensures var u := if t.available != available then BumpRevision(t.(available := available)) else t;
            var r := Rebalance(u, now, wall);
            && Inv(r) && Tuned(r) && (Exact(t) ==> Exact(r)) && r.available == available
            && r.entries.Keys == t.entries.Keys && r.limits == t.limits && r.lastNow == now && NothingNew(t, r)
  {
    var u := if t.available != available then BumpRevision(t.(available := available)) else t;
    hide Ranked, Conserving, Marked, Tuned, Tallied, Unspent, Rebalance;
    hide Contained, SequencesUnique, NoncesUnique, Keyed, EntriesOk, TimersStarted, HistoryOk;
    assert Core(u);
    hide Core;
    if Exact(t) { SameTally(t, u); }
    RebalanceKeeps(u, now, wall);
  }

  lemma DeferredContained(e: Entries, pending: seq<NotificationId>, active: seq<NotificationId>,
                          attention: Option<NotificationId>, k: nat)
    requires Contained(e, pending, active, attention) && k <= |active|
    ensures Contained(e, pending + active[k..], active[..k], attention)
  {
    var p := pending + active[k..];
    forall i, j | 0 <= i < j < |p| ensures p[i] != p[j] {
      if i < |pending| <= j {
        assert p[i] in pending && p[j] in active;
      }
    }
    assert forall x :: x in p <==> x in pending || x in active[k..];
    assert forall x :: x in active <==> x in active[..k] || x in active[k..] by {
      assert active == active[..k] + active[k..];
    }
    assert forall x :: x in active[..k] ==> x !in active[k..];
  }

  lemma DeferredTimers(s: State, now: Instant)
    requires TimersStarted(s.entries, s.active, now) && |s.active| > s.limits.maxVisible
    ensures var r := Deferred(s, now); TimersStarted(r.entries, r.active, now)
  {
    var k := s.limits.maxVisible;
    assert forall x :: x in s.active ==> x in s.active[..k] || x in s.active[k..] by {
      assert s.active == s.active[..k] + s.active[k..];
    }
  }

  lemma DeferredTouches(s: State, now: Instant)
    requires EntriesOk(s.entries) && TimersStarted(s.entries, s.active, now) && |s.active| > s.limits.maxVisible
    ensures var r := Deferred(s, now);
            Touched(s.entries, r.entries) && EntriesOk(r.entries) && TimersStarted(r.entries, r.active, now)
  {
    hide EntryOk, TimersStarted;
    DeferredTimers(s, now);
    var r := Deferred(s, now);
    assert r.entries.Keys == s.entries.Keys;
    forall id | id in r.entries ensures EntryOk(id, r.entries[id]) {
      SwitchedOk(id, s.entries[id], now, false);
    }
  }

  lemma DeferredTallied(s: State, now: Instant)
    requires TimersStarted(s.entries, s.active, now) && s.lastNow == now && |s.active| > s.limits.maxVisible
    requires Tallied(s) && Unspent(s.entries, now)
    ensures var r := Deferred(s, now); Tallied(r) && Unspent(r.entries, now)
  {
    var r := Deferred(s, now);
    forall id | id in r.entries
      ensures TalliedEntry(r, id, r.entries[id])
      ensures r.entries[id].timeout.Remaining? ==>
        RunSoFar(r.entries[id].timeout, now) <= r.entries[id].timeout.duration
    {
      assert TalliedEntry(s, id, s.entries[id]);
    }
  }

  lemma DeferredKeeps(s: State, now: Instant)
    requires Core(s) && s.lastNow == now
    ensures var r := Deferred(s, now);
            && Core(r) && r.entries.Keys == s.entries.Keys && |r.active| <= r.limits.maxVisible
            && r == s.(entries := r.entries, pending := r.pending, active := r.active)
            && (Tallied(s) && Unspent(s.entries, now) ==> Tallied(r) && Unspent(r.entries, now))
  {
    hide SequencesUnique, NoncesUnique, Keyed, EntriesOk, TimersStarted, HistoryOk, Core, Tallied, Unspent, Contained;
    CoreParts(s);
    if |s.active| > s.limits.maxVisible {
      DeferredTouches(s, now);
      if Tallied(s) && Unspent(s.entries, now) { DeferredTallied(s, now); }
      DeferredContained(s.entries, s.pending, s.active, s.attention, s.limits.maxVisible);
      var r := Deferred(s, now);
      SlotsFrame(s.entries, r.entries, r.pending, r.active, r.attention, r.nextSequence, r.nextNonce, r.liveKeys);
      CoreJoin(r);
    }
  }

  /** New limits do not disturb the containers. */
  lemma LimitsFrame(t: State, limits: Limits, now: Instant)
    requires Inv(t) && t.lastNow == now
    ensures var l := t.(limits := limits, closedCapacity := Capacity(limits));
            && Core(l) && Core(Deferred(l, now))
            && Deferred(l, now).lastNow == now && Deferred(l, now).entries.Keys == t.entries.Keys
  {
    var l := t.(limits := limits, closedCapacity := Capacity(limits));
    hide Core, Deferred, Ranked, Conserving, Marked, Bounded, Tallied, Unspent;
    CoreParts(t);
    hide Contained, SequencesUnique, NoncesUnique, Keyed, EntriesOk, TimersStarted, HistoryOk;
    CoreJoin(l);
    DeferredKeeps(l, now);
  }

  lemma RelimitedKeeps(t: State, limits: Limits, now: Instant, wall: WallTime)
    requires Inv(t) && t.lastNow == now
    ensures var p := Relimited(t, limits, now, wall);
            && Settled(p) && (Exact(t) ==> Exact(p)) && |p.active| <= limits.maxVisible
            && p.entries.Keys == t.entries.Keys && p.limits == limits && p.lastNow == now
            && p.history == t.history && p.closed == t.closed && p.closedCapacity == Capacity(limits)
  {
    var l := t.(limits := limits, closedCapacity := Capacity(limits));
    hide Ranked, Conserving, Marked, Tuned, Tallied, Unspent, SortPending, Rebalance, Settled, Deferred;
    hide Core;
    LimitsFrame(t, limits, now);
    if Exact(t) { SameTally(t, l); }
    DeferredKeeps(l, now);
    SettleKeeps(Deferred(l, now), now, wall);
  }

  lemma TrimFrame(r: State)
    requires Settled(r)
    ensures var c := BumpContent(r.(closed := LastN(r.closed, r.closedCapacity)));
            Settled(c) && (Exact(r) ==> Exact(c)) && |c.closed| <= c.closedCapacity
  {
    hide Contained, SequencesUnique, NoncesUnique, Keyed, EntriesOk, TimersStarted, HistoryOk;
    var c := BumpContent(r.(closed := LastN(r.closed, r.closedCapacity)));
    forall id | id in r.entries
      ensures TunedEntry(c, id, r.entries[id])
      ensures Exact(r) ==> TalliedEntry(c, id, r.entries[id])
    {
      assert TunedEntry(r, id, r.entries[id]);
      assert Exact(r) ==> TalliedEntry(r, id, r.entries[id]);
    }
  }

  lemma UpdateLimitsKeeps(t: State, limits: Limits, now: Instant, wall: WallTime)
    requires Inv(t) && t.lastNow == now && !OverPinned(Relimited(t, limits, now, wall))
    ensures var p := Relimited(t, limits, now, wall);
            var u := Enforce(p, wall);
            var r := BumpContent(u.(closed := LastN(u.closed, u.closedCapacity)));
            && Inv(r) && Tuned(r) && (Exact(t) ==> Exact(r)) && |r.pending| <= limits.maxPending
            && r.entries.Keys <= t.entries.Keys && r.limits == limits && r.lastNow == now
            && ClosedSome(p, u, RenderSuppressed)
  {
    hide Core, Ranked, Conserving, Marked, Tuned, Tallied, Unspent, Exact, OverPinned, Enforce, Relimited, ClosedSome;
    RelimitedKeeps(t, limits, now, wall);
    var p := Relimited(t, limits, now, wall);
    EnforceSettled(p, wall);
    ClosedCapacityKept(p, Enforce(p, wall));
    TrimFrame(Enforce(p, wall));
  }

  lemma ClosedCapacityKept(s: State, r: State)
    requires ClosedSome(s, r, RenderSuppressed)
    ensures r.closedCapacity == s.closedCapacity
  {
  }

  // ---------- jumps ----------

  /** One entry gets a pin (or loses it) and its timer is switched; nothing else moves. */
  ghost function Repinned(t: State, id: NotificationId, nonce: Option<nat>, running: bool): State
    requires id in t.entries
  {
    var e := t.entries[id];
    t.(entries := t.entries[id := e.(jumpNonce := nonce,
         timeout := if t.ToastOnScreen(id) then e.timeout.Switched(t.lastNow, running) else e.timeout)])
  }

  lemma RepinnedEntries(t: State, id: NotificationId, nonce: Option<nat>, running: bool, next: nat)
    requires EntriesOk(t.entries) && TimersStarted(t.entries, t.active, t.lastNow) && id in t.entries
    requires SequencesUnique(t.entries, t.nextSequence) && NoncesUnique(t.entries, t.nextNonce) && t.nextNonce <= next
    requires nonce.Some? ==> nonce.value == t.nextNonce < next
    ensures var f := Repinned(t, id, nonce, running).entries;
            && EntriesOk(f) && TimersStarted(f, t.active, t.lastNow)
            && SequencesUnique(f, t.nextSequence) && NoncesUnique(f, next)
  {
    assert EntryOk(id, t.entries[id]);
  }

  lemma RepinnedKeyed(t: State, id: NotificationId, nonce: Option<nat>, running: bool)
    requires id in t.entries && Keyed(t.entries, t.liveKeys)
    ensures Keyed(Repinned(t, id, nonce, running).entries, t.liveKeys)
  {
  }

  lemma RepinnedSlots(t: State, id: NotificationId, nonce: Option<nat>, running: bool)
    requires id in t.entries && Contained(t.entries, t.pending, t.active, t.attention)
    requires Ranked(t.entries, t.pending)
    ensures var f := Repinned(t, id, nonce, running).entries;
            && f.Keys == t.entries.Keys && Contained(f, t.pending, t.active, t.attention) && Ranked(f, t.pending)
  {
    var r := Repinned(t, id, nonce, running);
    assert r.entries.Keys == t.entries.Keys;
    assert r.entries == t.entries[id := r.entries[id]];
    assert Contained(r.entries, t.pending, t.active, t.attention) by {
      hide Contained;
      PlaceKept(t.entries, id, r.entries[id], t.pending, t.active, t.attention);
    }
    hide Contained;
    forall i, j | 0 <= i < j < |t.pending| ensures Precedes(r.entries, t.pending[i], t.pending[j]) {
      assert Precedes(t.entries, t.pending[i], t.pending[j]);
    }
  }

  lemma RepinnedDisplay(t: State, id: NotificationId, nonce: Option<nat>, running: bool)
    requires id in t.entries
    ensures var r := Repinned(t, id, nonce, running);
            (Conserving(t) ==> Conserving(r)) && (Marked(t) ==> Marked(r))
  {
    var r := Repinned(t, id, nonce, running);
    assert forall x :: t.OnScreen(x) <==> r.OnScreen(x);
    assert forall x :: x in t.entries ==> t.entries[x].notification == r.entries[x].notification;
  }

  lemma RepinnedTimers(t: State, id: NotificationId, nonce: Option<nat>, running: bool)
    requires id in t.entries && Tuned(t) && (running <==> nonce.None?)
    ensures var r := Repinned(t, id, nonce, running);
            && Tuned(r)
            && (Tallied(t) && Unspent(t.entries, t.lastNow) && TimersStarted(t.entries, t.active, t.lastNow) ==>
                  Tallied(r) && Unspent(r.entries, r.lastNow))
  {
    var r := Repinned(t, id, nonce, running);
    forall x | x in r.entries ensures TunedEntry(r, x, r.entries[x]) {
      assert TunedEntry(t, x, t.entries[x]);
      assert x != id ==> (t.Ticking(x) <==> r.Ticking(x));
    }
    if Tallied(t) && Unspent(t.entries, t.lastNow) && TimersStarted(t.entries, t.active, t.lastNow) {
      forall x | x in r.entries
        ensures TalliedEntry(r, x, r.entries[x])
        ensures r.entries[x].timeout.Remaining? ==>
          RunSoFar(r.entries[x].timeout, t.lastNow) <= r.entries[x].timeout.duration
      {
        assert TalliedEntry(t, x, t.entries[x]);
      }
    }
  }

  lemma RepinnedKeeps(t: State, id: NotificationId, nonce: Option<nat>, running: bool, next: nat)
    requires Inv(t) && Tuned(t) && id in t.entries && t.nextNonce <= next && (running <==> nonce.None?)
    requires nonce.Some? ==> nonce.value == t.nextNonce < next
    ensures var r := Repinned(t, id, nonce, running).(nextNonce := next);
            && Inv(r) && Tuned(r) && (Exact(t) ==> Exact(r)) && r.entries.Keys == t.entries.Keys
  {
    hide SequencesUnique, NoncesUnique, Keyed, EntriesOk, TimersStarted, HistoryOk, Contained;
    hide Core, Tallied, Unspent, Tuned, Marked, Conserving, Ranked;
    CoreParts(t);
    RepinnedEntries(t, id, nonce, running, next);
    RepinnedKeyed(t, id, nonce, running);
    RepinnedSlots(t, id, nonce, running);
    RepinnedDisplay(t, id, nonce, running);
    RepinnedTimers(t, id, nonce, running);
    var m := Repinned(t, id, nonce, running);
    var r := m.(nextNonce := next);
    CoreJoin(r);
    NonceFrame(m, next);
  }

  lemma NonceFrame(m: State, next: nat)
    ensures var r := m.(nextNonce := next);
            && (Tuned(m) ==> Tuned(r)) && (Tallied(m) ==> Tallied(r))
            && (Marked(m) ==> Marked(r)) && (Conserving(m) ==> Conserving(r))
  {
    var r := m.(nextNonce := next);
    forall x | x in r.entries
      ensures Tuned(m) ==> TunedEntry(r, x, r.entries[x])
      ensures Tallied(m) ==> TalliedEntry(r, x, r.entries[x])
    {
      assert Tuned(m) ==> TunedEntry(m, x, m.entries[x]);
      assert Tallied(m) ==> TalliedEntry(m, x, m.entries[x]);
    }
  }

  lemma BeginJumpKeeps(t: State, id: NotificationId)
    requires Inv(t) && Tuned(t)
    ensures var r := BeginJumpInner(t, id).0;
            && Inv(r) && Tuned(r) && (Exact(t) ==> Exact(r)) && r.entries.Keys == t.entries.Keys
            && r.limits == t.limits && r.lastNow == t.lastNow && NothingNew(t, r)
  {
    hide Inv, Tuned, Exact;
    if BeginJumpInner(t, id).1.Ok? {
      RepinnedKeeps(t, id, Some(t.nextNonce), false, t.nextNonce + 1);
    }
  }

  lemma CancelTailKeeps(t: State, intent: JumpIntent)
    requires Inv(t) && Tuned(t) && Outstanding(t, intent)
    ensures var r := Repinned(t, intent.id, None, true);
            && Inv(r) && Tuned(r) && (Exact(t) ==> Exact(r)) && r.entries.Keys == t.entries.Keys
  {
    hide Inv, Tuned, Exact;
    RepinnedKeeps(t, intent.id, None, true, t.nextNonce);
  }
}
