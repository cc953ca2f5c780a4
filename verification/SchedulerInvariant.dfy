/** What holds of the scheduler between operations, and what each internal step keeps of it. */
module SchedulerInvariant {
  import opened Wrappers
  import opened Notifications
  import opened Seqs
  import opened SchedulerModel

  // ---------- the invariant ----------

  /** Live entries are the disjoint, duplicate-free union of the pending queue, the
      active toasts and the Attention slot; the slots hold their own presentation. */
  ghost predicate Contained(e: Entries, pending: seq<NotificationId>, active: seq<NotificationId>,
                            attention: Option<NotificationId>)
  {
    && Distinct(pending)
    && Distinct(active)
    && (forall id :: id in pending ==> id in e && id !in active && attention != Some(id))
    && (forall id :: id in active ==> id in e && attention != Some(id) && e[id].Presentation() == Toast)
    && (attention.Some? ==> attention.value in e && e[attention.value].Presentation() == Attention)
    && (forall id :: id in e ==> id in pending || id in active || attention == Some(id))
  }

  ghost predicate SequencesUnique(e: Entries, next: nat) {
    && (forall id :: id in e ==> e[id].sequence < next)
    && (forall a, b :: a in e && b in e && a != b ==> e[a].sequence != e[b].sequence)
  }

  ghost predicate NoncesUnique(e: Entries, next: nat) {
    && (forall id :: id in e && e[id].jumpNonce.Some? ==> e[id].jumpNonce.value < next)
    && (forall a, b :: a in e && b in e && a != b && e[a].jumpNonce.Some? ==> e[a].jumpNonce != e[b].jumpNonce)
  }

  /** `live_keys` is the exact inverse of the live entries' keys. */
  ghost predicate Keyed(e: Entries, keys: map<Key, NotificationId>) {
    && (forall k :: k in keys ==> keys[k] in e && e[keys[k]].Key() == Some(k))
    && (forall id :: id in e && e[id].Key().Some? ==> e[id].Key().value in keys && keys[e[id].Key().value] == id)
  }

  ghost predicate EntryOk(id: NotificationId, e: LiveEntry) {
    && e.notification.id == id
    && e.notification.delivery != Closed
    && (e.timeout.Untimed? <==> e.Timeout() == NeverExpires)
  }

  ghost predicate EntriesOk(e: Entries) {
    forall id :: id in e ==> EntryOk(id, e[id])
  }

  /** Only an active toast's timer runs, and it started in the past. */
  ghost predicate TimersStarted(e: Entries, active: seq<NotificationId>, now: Instant) {
    forall id :: id in e && e[id].timeout.Remaining? && e[id].timeout.runningSince.Some? ==>
      id in active && e[id].timeout.runningSince.value <= now
  }

  ghost function LogIds(log: seq<Notification>): set<NotificationId> {
    set n | n in log :: n.id
  }

  /** Every id ever submitted is live or has been closed exactly once, never both. */
  ghost predicate HistoryOk(live: set<NotificationId>, h: History) {
    && h.shown.Keys == live
    && h.submitted == live + LogIds(h.log)
    && live !! LogIds(h.log)
    && (forall i, j :: 0 <= i < j < |h.log| ==> h.log[i].id != h.log[j].id)
    && (forall n :: n in h.log ==> n.delivery == Closed && n.closeReason.Some?)
  }

  /** The part every internal step keeps. */
  ghost predicate Core(s: State) {
    && Contained(s.entries, s.pending, s.active, s.attention)
    && SequencesUnique(s.entries, s.nextSequence)
    && NoncesUnique(s.entries, s.nextNonce)
    && Keyed(s.entries, s.liveKeys)
    && EntriesOk(s.entries)
    && TimersStarted(s.entries, s.active, s.lastNow)
    && HistoryOk(s.entries.Keys, s.history)
  }

  /** `Core` taken apart and put together, for proofs that keep its parts folded. */
  lemma CoreParts(s: State)
    requires Core(s)
    ensures Contained(s.entries, s.pending, s.active, s.attention)
    ensures SequencesUnique(s.entries, s.nextSequence) && NoncesUnique(s.entries, s.nextNonce)
    ensures Keyed(s.entries, s.liveKeys) && EntriesOk(s.entries)
    ensures TimersStarted(s.entries, s.active, s.lastNow) && HistoryOk(s.entries.Keys, s.history)
  {
    hide Contained, SequencesUnique, NoncesUnique, Keyed, EntriesOk, TimersStarted, HistoryOk;
  }

  lemma CoreJoin(s: State)
    requires Contained(s.entries, s.pending, s.active, s.attention)
    requires SequencesUnique(s.entries, s.nextSequence) && NoncesUnique(s.entries, s.nextNonce)
    requires Keyed(s.entries, s.liveKeys) && EntriesOk(s.entries)
    requires TimersStarted(s.entries, s.active, s.lastNow) && HistoryOk(s.entries.Keys, s.history)
    ensures Core(s)
  {
    hide Contained, SequencesUnique, NoncesUnique, Keyed, EntriesOk, TimersStarted, HistoryOk;
  }

  ghost predicate Ranked(e: Entries, ids: seq<NotificationId>) {
    forall i, j :: 0 <= i < j < |ids| ==> Precedes(e, ids[i], ids[j])
  }

  /** Nothing waits that could be displayed. */
  ghost predicate Conserving(s: State) {
    s.available && s.attention.None? ==>
      && AllToasts(s.entries)
      && (|s.active| < s.limits.maxVisible ==> s.pending == [])
  }

  /** Everything on screen has been marked so. */
  ghost predicate Marked(s: State) {
    forall id :: id in s.entries && s.OnScreen(id) ==> s.entries[id].notification.delivery == DeliveryState.Visible
  }

  ghost predicate Bounded(s: State) {
    && |s.active| <= s.limits.maxVisible
    && |s.entries| <= Capacity(s.limits)
    && s.closedCapacity == Capacity(s.limits)
    && |s.closed| <= s.closedCapacity
  }

  ghost predicate Inv(s: State) {
    Core(s) && Ranked(s.entries, s.pending) && Conserving(s) && Marked(s) && Bounded(s)
  }

  lemma InvIsCore(s: State)
    requires Inv(s)
    ensures Core(s) && Ranked(s.entries, s.pending) && Bounded(s)
  {
    hide Core, Ranked, Bounded;
  }

  // ---------- the timer invariant ----------

  /** How much of the current run of a timer has elapsed. */
  function RunSoFar(t: TimeoutState, now: Instant): int {
    if t.Remaining? && t.runningSince.Some? then now - t.runningSince.value else 0
  }

  /** Remaining time plus time shown is the timeout. */
  ghost predicate TalliedEntry(s: State, id: NotificationId, e: LiveEntry) {
    e.timeout.Remaining? && id in s.history.shown && e.Timeout().After? ==>
      e.timeout.duration - RunSoFar(e.timeout, s.lastNow) + s.history.shown[id] == e.Timeout().duration
  }

  ghost predicate Tallied(s: State) {
    forall id :: id in s.entries ==> TalliedEntry(s, id, s.entries[id])
  }

  /** No running timer has overrun. */
  ghost predicate Unspent(e: Entries, now: Instant) {
    forall id :: id in e && e[id].timeout.Remaining? ==> RunSoFar(e[id].timeout, now) <= e[id].timeout.duration
  }

  ghost predicate TunedEntry(s: State, id: NotificationId, e: LiveEntry) {
    e.timeout.Remaining? ==> (e.timeout.runningSince.Some? <==> s.Ticking(id))
  }

  /** Exactly the displayed, unpinned toasts have their timer running. */
  ghost predicate Tuned(s: State) {
    forall id :: id in s.entries ==> TunedEntry(s, id, s.entries[id])
  }

  ghost predicate Exact(s: State) {
    Tallied(s) && Unspent(s.entries, s.lastNow) && Tuned(s)
  }

  // ---------- moves between containers ----------

  lemma {:induction false} FirstOfAll(e: Entries, ids: seq<NotificationId>, p: Presentation)
    requires forall id :: id in ids ==> id in e
    ensures FirstOf(e, ids, p) == |ids| <==> (forall id :: id in ids ==> e[id].Presentation() != p)
  {
  }

  /** Taking one queued id out keeps the queue's order and the rest of its contents. */
  lemma TakenOut(e: Entries, pending: seq<NotificationId>, i: nat)
    requires Distinct(pending) && Ranked(e, pending) && i < |pending|
    ensures var r := RemoveAt(pending, i);
            Distinct(r) && Ranked(e, r) && |r| == |pending| - 1
            && (forall id :: id in r <==> id in pending && id != pending[i])
  {
    RemoveAtIsWithout(pending, i);
    WithoutDistinct(pending, pending[i]);
    WithoutOrder(pending, pending[i], (a, b) => Precedes(e, a, b));
  }

  /** Steps that only move ids between containers: nothing else changes. */
  ghost predicate OnlyMoved(s: State, r: State) {
    r == s.(pending := r.pending, active := r.active, attention := r.attention)
  }

  ghost predicate AllToasts(e: Entries) {
    forall id :: id in e ==> e[id].Presentation() == Toast
  }

  /** Where the line runs between active toasts and queue does not matter when every
      live Notification is a toast. */
  lemma Resplit(e: Entries, pending: seq<NotificationId>, active: seq<NotificationId>,
                p: seq<NotificationId>, a: seq<NotificationId>)
    requires Contained(e, pending, active, None) && AllToasts(e) && a + p == active + pending
    ensures Contained(e, p, a, None)
  {
    var all := active + pending;
    assert Distinct(all) by {
      forall i, j | 0 <= i < j < |all| ensures all[i] != all[j] {
        if i < |active| <= j { assert all[j] in pending && all[i] in active; }
      }
    }
    assert forall i :: 0 <= i < |a| ==> a[i] == all[i];
    assert forall i :: 0 <= i < |p| ==> p[i] == all[|a| + i];
    assert forall id :: id in all <==> id in active || id in pending;
    assert forall id :: id in a || id in p <==> id in all;
  }

  lemma PromotedAttention(e: Entries, pending: seq<NotificationId>, active: seq<NotificationId>, i: nat)
    requires Contained(e, pending, active, None) && i < |pending| && Ranked(e, pending)
    requires e[pending[i]].Presentation() == Attention
    ensures Contained(e, RemoveAt(pending, i), active, Some(pending[i]))
    ensures Ranked(e, RemoveAt(pending, i))
  {
    TakenOut(e, pending, i);
  }

  lemma PickAttentionKeeps(s: State)
    requires Core(s) && Ranked(s.entries, s.pending)
    ensures var r := PickAttention(s);
            && Core(r) && Ranked(r.entries, r.pending) && OnlyMoved(s, r) && r.active == s.active
            && (s.attention.Some? ==> r == s)
            && (r.available && r.attention.None? ==> r == s && AllToasts(r.entries))
  {
    hide Core, Contained, SequencesUnique, NoncesUnique, Keyed, EntriesOk, TimersStarted, HistoryOk, Ranked, RemoveAt,
      AllToasts;
    CoreParts(s);
    var i := FirstOf(s.entries, s.pending, Attention);
    if s.available && s.attention.None? {
      if i < |s.pending| {
        PromotedAttention(s.entries, s.pending, s.active, i);
        CoreJoin(PickAttention(s));
      } else {
        NoAttention(s.entries, s.pending, s.active);
      }
    }
  }

  /** With the slot empty and no Attention queued, there are only toasts. */
  lemma NoAttention(e: Entries, pending: seq<NotificationId>, active: seq<NotificationId>)
    requires Contained(e, pending, active, None) && FirstOf(e, pending, Attention) == |pending|
    ensures AllToasts(e)
  {
    FirstOfAll(e, pending, Attention);
  }

  /** The queue's head is promoted until the slots are full. */
  lemma {:induction false} FillSplits(e: Entries, pending: seq<NotificationId>, active: seq<NotificationId>, max: nat)
    requires forall i :: 0 <= i < |pending| ==> pending[i] in e && e[pending[i]].Presentation() == Toast
    ensures var (p, a) := Fill(e, pending, active, max);
            && active <= a && a + p == active + pending
            && (|active| <= max ==> |a| <= max)
            && (|a| < max ==> p == [])
    decreases |pending|
  {
    if |active| < max && pending != [] {
      assert FirstOf(e, pending, Toast) == 0;
      assert RemoveAt(pending, 0) == pending[1..];
      FillSplits(e, pending[1..], active + [pending[0]], max);
      Regroup(active, pending);
    }
  }

  lemma Regroup<T>(a: seq<T>, b: seq<T>)
    requires b != []
    ensures a + [b[0]] + b[1..] == a + b
  {
  }

  lemma RankedSuffix(e: Entries, pending: seq<NotificationId>, k: nat)
    requires Ranked(e, pending) && k <= |pending|
    ensures Ranked(e, pending[k..])
  {
  }

  lemma SuffixMoved<T>(p: seq<T>, a: seq<T>, pending: seq<T>, active: seq<T>)
    requires a + p == active + pending && active <= a
    ensures |a| - |active| <= |pending| && p == pending[|a| - |active|..]
    ensures forall x :: x in active ==> x in a
  {
    assert (a + p)[|a|..] == p;
    assert (active + pending)[|a|..] == pending[|a| - |active|..];
  }

  lemma FilledCore(s: State, r: State)
    requires Core(s) && Ranked(s.entries, s.pending) && AllToasts(s.entries) && s.attention.None?
    requires OnlyMoved(s, r) && r.attention.None?
    requires s.active <= r.active && r.active + r.pending == s.active + s.pending
    ensures Core(r) && Ranked(r.entries, r.pending)
  {
    hide Core, Contained, HistoryOk, NoncesUnique, SequencesUnique, Keyed, EntriesOk, Ranked, AllToasts;
    CoreParts(s);
    Resplit(s.entries, s.pending, s.active, r.pending, r.active);
    SuffixMoved(r.pending, r.active, s.pending, s.active);
    RankedSuffix(s.entries, s.pending, |r.active| - |s.active|);
    CoreJoin(r);
  }

  lemma QueuedToasts(s: State)
    requires Core(s) && AllToasts(s.entries)
    ensures forall i :: 0 <= i < |s.pending| ==>
      s.pending[i] in s.entries && s.entries[s.pending[i]].Presentation() == Toast
  {
    hide SequencesUnique, NoncesUnique, Keyed, EntriesOk, TimersStarted, HistoryOk;
  }

  lemma FillToastsKeeps(s: State)
    requires Core(s) && Ranked(s.entries, s.pending)
    requires s.available && s.attention.None? ==> AllToasts(s.entries)
    ensures var r := FillToasts(s);
            && Core(r) && Ranked(r.entries, r.pending) && OnlyMoved(s, r) && r.attention == s.attention
            && Conserving(r)
            && (|s.active| <= s.limits.maxVisible ==> |r.active| <= r.limits.maxVisible)
            && s.active <= r.active && r.active + r.pending == s.active + s.pending
            && (!(s.available && s.attention.None?) ==> r == s)
  {
    hide Core, Ranked, AllToasts;
    if s.available && s.attention.None? {
      QueuedToasts(s);
      FillSplits(s.entries, s.pending, s.active, s.limits.maxVisible);
      FilledCore(s, FillToasts(s));
    }
  }

  // ---------- steps that change entries in place ----------

  /** Two entries that agree on everything ordering, lookup and containment read. */
  ghost predicate SameSlot(a: LiveEntry, b: LiveEntry) {
    && a.Presentation() == b.Presentation() && a.Rank() == b.Rank() && a.Key() == b.Key()
    && a.sequence == b.sequence && a.jumpNonce == b.jumpNonce
  }

  /** If entries keep their slots, everything but the entries' own rules carries over. */
  lemma SlotsFrame(e: Entries, f: Entries, pending: seq<NotificationId>, active: seq<NotificationId>,
                   attention: Option<NotificationId>, seqs: nat, nonces: nat, keys: map<Key, NotificationId>)
    requires e.Keys == f.Keys && forall id :: id in e ==> SameSlot(e[id], f[id])
    requires SequencesUnique(e, seqs) && NoncesUnique(e, nonces) && Keyed(e, keys)
    requires Contained(e, pending, active, attention)
    ensures SequencesUnique(f, seqs) && NoncesUnique(f, nonces) && Keyed(f, keys)
    ensures Contained(f, pending, active, attention)
    ensures Ranked(e, pending) ==> Ranked(f, pending)
    ensures AllToasts(e) ==> AllToasts(f)
  {
  }

  /** `f` is `e` with only notifications' delivery or timers touched. */
  ghost predicate Touched(e: Entries, f: Entries) {
    e.Keys == f.Keys
    && forall id :: id in e ==>
         SameSlot(e[id], f[id]) && f[id].notification.content == e[id].notification.content
  }

  lemma TouchedFrame(s: State, r: State)
    requires Core(s) && Touched(s.entries, r.entries) && r == s.(entries := r.entries)
    requires EntriesOk(r.entries) && TimersStarted(r.entries, r.active, r.lastNow)
    ensures Core(r)
    ensures Ranked(s.entries, s.pending) ==> Ranked(r.entries, r.pending)
    ensures Conserving(s) ==> Conserving(r)
  {
    SlotsFrame(s.entries, r.entries, s.pending, s.active, s.attention, s.nextSequence, s.nextNonce, s.liveKeys);
  }

  lemma MarkVisibleTouches(s: State, wall: WallTime)
    requires EntriesOk(s.entries) && TimersStarted(s.entries, s.active, s.lastNow)
    ensures var r := MarkVisible(s, wall);
            && Touched(s.entries, r.entries) && Marked(r)
            && EntriesOk(r.entries) && TimersStarted(r.entries, r.active, r.lastNow)
            && (forall id :: id in s.entries ==> r.entries[id].timeout == s.entries[id].timeout)
  {
    var r := MarkVisible(s, wall);
    assert r.entries.Keys == s.entries.Keys;
    assert forall id :: s.OnScreen(id) <==> r.OnScreen(id);
    forall id | id in r.entries ensures EntryOk(id, r.entries[id]) {
      assert EntryOk(id, s.entries[id]);
    }
  }

  lemma MarkVisibleKeeps(s: State, wall: WallTime)
    requires Core(s)
    ensures var r := MarkVisible(s, wall);
            && Core(r) && Marked(r) && r == s.(entries := r.entries) && Touched(s.entries, r.entries)
            && (Ranked(s.entries, s.pending) ==> Ranked(r.entries, r.pending))
            && (Conserving(s) ==> Conserving(r))
            && (forall id :: id in s.entries ==> r.entries[id].timeout == s.entries[id].timeout)
  {
    MarkVisibleTouches(s, wall);
    TouchedFrame(s, MarkVisible(s, wall));
  }

  /** Under `TimersStarted`, the clock check inside `set_running` cannot fail. */
  lemma NoClockError(s: State, id: NotificationId, now: Instant, running: bool)
    requires TimersStarted(s.entries, s.active, s.lastNow) && id in s.entries && s.lastNow <= now
    ensures s.entries[id].timeout.SetRunning(now, running) == Ok(s.entries[id].timeout.Switched(now, running))
  {
  }

  lemma SetTimersTouches(s: State, now: Instant)
    requires EntriesOk(s.entries) && TimersStarted(s.entries, s.active, s.lastNow) && s.lastNow == now
    ensures var r := SetTimers(s, now);
            && Touched(s.entries, r.entries)
            && EntriesOk(r.entries) && TimersStarted(r.entries, r.active, r.lastNow)
            && (forall id :: id in s.entries ==> r.entries[id].notification == s.entries[id].notification)
  {
    var r := SetTimers(s, now);
    assert r.entries.Keys == s.entries.Keys;
    hide EntryOk;
    forall id | id in r.entries ensures EntryOk(id, r.entries[id]) {
      SwitchedOk(id, s.entries[id], now, s.Ticking(id));
    }
  }

  lemma SwitchedOk(id: NotificationId, x: LiveEntry, now: Instant, running: bool)
    requires EntryOk(id, x)
    ensures EntryOk(id, x) && EntryOk(id, x.(timeout := x.timeout.Switched(now, running)))
  {
  }

  lemma SetTimersTunes(s: State, now: Instant)
    requires TimersStarted(s.entries, s.active, s.lastNow) && s.lastNow == now
    ensures Tuned(SetTimers(s, now))
  {
    var r := SetTimers(s, now);
    forall id | id in r.entries ensures TunedEntry(r, id, r.entries[id]) {
      assert s.Ticking(id) <==> r.Ticking(id);
    }
  }

  /** Pausing banks the elapsed time: the tally is unchanged and nothing saturates. */
  lemma SetTimersTallies(s: State, now: Instant)
    requires TimersStarted(s.entries, s.active, s.lastNow) && s.lastNow == now && Tallied(s)
      && Unspent(s.entries, s.lastNow)
    ensures Tallied(SetTimers(s, now)) && Unspent(SetTimers(s, now).entries, now)
  {
    var r := SetTimers(s, now);
    forall id | id in r.entries
      ensures TalliedEntry(r, id, r.entries[id])
      ensures r.entries[id].timeout.Remaining? ==>
        RunSoFar(r.entries[id].timeout, now) <= r.entries[id].timeout.duration
    {
      assert TalliedEntry(s, id, s.entries[id]);
    }
  }

  lemma SetTimersKeeps(s: State, now: Instant)
    requires Core(s) && s.lastNow == now
    ensures var r := SetTimers(s, now);
            && Core(r) && r == s.(entries := r.entries) && Touched(s.entries, r.entries)
            && (Ranked(s.entries, s.pending) ==> Ranked(r.entries, r.pending))
            && (Conserving(s) ==> Conserving(r))
            && (forall id :: id in s.entries ==> r.entries[id].notification == s.entries[id].notification)
            && Tuned(r) && (Marked(s) ==> Marked(r))
            && (Tallied(s) && Unspent(s.entries, s.lastNow) ==> Tallied(r) && Unspent(r.entries, r.lastNow))
  {
    assert TimersStarted(s.entries, s.active, s.lastNow) && EntriesOk(s.entries);
    hide Core, Ranked, Conserving, Tuned, Tallied, Unspent, TimersStarted, EntriesOk;
    SetTimersTouches(s, now);
    SetTimersTunes(s, now);
    if Tallied(s) && Unspent(s.entries, s.lastNow) { SetTimersTallies(s, now); }
    TouchedFrame(s, SetTimers(s, now));
  }

  lemma RebalanceKeeps(s: State, now: Instant, wall: WallTime)
    requires Core(s) && Ranked(s.entries, s.pending) && s.lastNow == now
    ensures var r := Rebalance(s, now, wall);
            && Core(r) && Ranked(r.entries, r.pending) && Conserving(r) && Marked(r) && Tuned(r)
            && (Tallied(s) && Unspent(s.entries, s.lastNow) ==> Exact(r))
            && (|s.active| <= s.limits.maxVisible ==> |r.active| <= r.limits.maxVisible)
            && Touched(s.entries, r.entries) && s.active <= r.active
            && r == s.(entries := r.entries, pending := r.pending, active := r.active, attention := r.attention)
  {
    hide Core, Ranked, Conserving, Marked, Tuned, Tallied, Unspent, Touched;
    var p := PickAttention(s);
    PickAttentionKeeps(s);
    var f := FillToasts(p);
    FillToastsKeeps(p);
    var m := MarkVisible(f, wall);
    MarkVisibleKeeps(f, wall);
    SetTimersKeeps(m, now);
    TouchedCompose(f.entries, m.entries, SetTimers(m, now).entries);
    if Tallied(s) && Unspent(s.entries, s.lastNow) {
      TalliedFrame(s, f);
      TouchedContent(f.entries, m.entries);
      TalliedFrame(f, m);
    }
  }

  lemma TouchedCompose(e: Entries, f: Entries, g: Entries)
    requires Touched(e, f) && Touched(f, g)
    ensures Touched(e, g)
  {
  }

  lemma TouchedContent(e: Entries, f: Entries)
    requires Touched(e, f)
    ensures e.Keys == f.Keys && forall id :: id in e ==> f[id].notification.content == e[id].notification.content
  {
  }

  /** Tallies depend on the timers, the timeouts, the clock and the time shown only. */
  lemma TalliedFrame(s: State, r: State)
    requires Tallied(s) && Unspent(s.entries, s.lastNow) && s.entries.Keys == r.entries.Keys
    requires r.lastNow == s.lastNow && r.history.shown == s.history.shown
    requires forall id :: id in s.entries ==>
               r.entries[id].timeout == s.entries[id].timeout && r.entries[id].Timeout() == s.entries[id].Timeout()
    ensures Tallied(r) && Unspent(r.entries, r.lastNow)
  {
    forall id | id in r.entries ensures TalliedEntry(r, id, r.entries[id]) {
      assert TalliedEntry(s, id, s.entries[id]);
    }
  }

  // ---------- closing ----------

  lemma WithoutRanked(e: Entries, f: Entries, ids: seq<NotificationId>, gone: NotificationId)
    requires Ranked(e, ids) && f == e - {gone}
    ensures Ranked(f, Without(ids, gone))
  {
    WithoutOrder(ids, gone, (a, b) => Precedes(e, a, b));
    var r := Without(ids, gone);
    forall i, j | 0 <= i < j < |r| ensures Precedes(f, r[i], r[j]) {
      assert Precedes(e, r[i], r[j]);
      assert r[i] in r && r[j] in r;
    }
  }

  /** Without the order, containment is about three sets. */
  lemma WithoutContained(e: Entries, pending: seq<NotificationId>, active: seq<NotificationId>,
                         attention: Option<NotificationId>, gone: NotificationId)
    requires Contained(e, pending, active, attention)
    ensures Contained(e - {gone}, Without(pending, gone), Without(active, gone),
                      if attention == Some(gone) then None else attention)
  {
    WithoutDistinct(pending, gone);
    WithoutDistinct(active, gone);
    WithoutFacts(pending, gone);
    WithoutFacts(active, gone);
    hide Without, Distinct;
  }

  lemma WithoutFacts(s: seq<NotificationId>, gone: NotificationId)
    ensures forall x :: x in Without(s, gone) <==> x in s && x != gone
  {
  }

  lemma ClosedHistory(live: set<NotificationId>, h: History, n: Notification)
    requires HistoryOk(live, h) && n.id in live && n.delivery == Closed && n.closeReason.Some?
    ensures HistoryOk(live - {n.id}, h.(log := h.log + [n], shown := h.shown - {n.id}))
  {
    assert LogIds(h.log + [n]) == LogIds(h.log) + {n.id};
    forall i | 0 <= i < |h.log| ensures h.log[i].id != n.id {
      assert h.log[i] in h.log;
      assert h.log[i].id in LogIds(h.log);
    }
  }

  lemma ClosedKeyed(e: Entries, keys: map<Key, NotificationId>, id: NotificationId)
    requires Keyed(e, keys) && id in e
    ensures Keyed(e - {id}, if e[id].Key().Some? then keys - {e[id].Key().value} else keys)
  {
  }

  lemma ClosedEntries(e: Entries, active: seq<NotificationId>, id: NotificationId, seqs: nat, nonces: nat, now: Instant)
    requires SequencesUnique(e, seqs) && NoncesUnique(e, nonces) && EntriesOk(e) && TimersStarted(e, active, now)
    ensures SequencesUnique(e - {id}, seqs) && NoncesUnique(e - {id}, nonces) && EntriesOk(e - {id})
    ensures TimersStarted(e - {id}, Without(active, id), now)
  {
  }

  lemma CloseInnerCore(s: State, id: NotificationId, reason: CloseReason, wall: WallTime)
    requires Core(s) && id in s.entries
    ensures Core(CloseInner(s, id, reason, wall))
  {
    assert EntryOk(id, s.entries[id]);
    hide Contained, HistoryOk, NoncesUnique, SequencesUnique, Keyed, EntriesOk, TimersStarted;
    WithoutContained(s.entries, s.pending, s.active, s.attention, id);
    ClosedHistory(s.entries.Keys, s.history, s.entries[id].notification.Close(reason, wall));
    ClosedKeyed(s.entries, s.liveKeys, id);
    ClosedEntries(s.entries, s.active, id, s.nextSequence, s.nextNonce, s.lastNow);
    assert (s.entries - {id}).Keys == s.entries.Keys - {id};
  }

  lemma CloseInnerKeeps(s: State, id: NotificationId, reason: CloseReason, wall: WallTime)
    requires Core(s)
    ensures var r := CloseInner(s, id, reason, wall);
            && Core(r)
            && (Ranked(s.entries, s.pending) ==> Ranked(r.entries, r.pending))
            && (Tallied(s) ==> Tallied(r))
            && r.entries == s.entries - {id} && |r.active| <= |s.active|
  {
    hide Core, Tallied, Unspent, Ranked;
    if id in s.entries {
      CloseInnerCore(s, id, reason, wall);
      if Ranked(s.entries, s.pending) { WithoutRanked(s.entries, s.entries - {id}, s.pending, id); }
      if Tallied(s) { CloseInnerTallied(s, id, reason, wall); }
    }
  }

  lemma CloseInnerTallied(s: State, id: NotificationId, reason: CloseReason, wall: WallTime)
    requires Tallied(s)
    ensures Tallied(CloseInner(s, id, reason, wall))
  {
    var r := CloseInner(s, id, reason, wall);
    forall x | x in r.entries ensures TalliedEntry(r, x, r.entries[x]) {
      assert TalliedEntry(s, x, s.entries[x]);
    }
  }

  lemma {:induction false} CloseAllKeeps(s: State, ids: seq<NotificationId>, reason: CloseReason, wall: WallTime)
    requires Core(s)
    ensures var r := CloseAll(s, ids, reason, wall);
            && Core(r)
            && (Ranked(s.entries, s.pending) ==> Ranked(r.entries, r.pending))
            && (Tallied(s) ==> Tallied(r))
            && r.entries == s.entries - ToSet(ids) && |r.active| <= |s.active|
            && r.lastNow == s.lastNow && r.limits == s.limits && r.available == s.available
            && r.closedCapacity == s.closedCapacity && r.history.submitted == s.history.submitted
            && r.nextNonce == s.nextNonce
    decreases |ids|
  {
    hide Core, Tallied, Unspent, Ranked;
    if ids != [] {
      CloseInnerKeeps(s, ids[0], reason, wall);
      CloseAllKeeps(CloseInner(s, ids[0], reason, wall), ids[1..], reason, wall);
      assert ToSet(ids) == {ids[0]} + ToSet(ids[1..]);
    }
  }
}
