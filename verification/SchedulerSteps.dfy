/** What each internal step of the scheduler keeps and closes. */
module SchedulerSteps {
  import opened Wrappers
  import opened Notifications
  import opened Seqs
  import opened SchedulerModel
  import opened SchedulerInvariant

  // ---------- sorting ----------

  lemma {:induction false} InsertRankedSorts(e: Entries, ids: seq<NotificationId>, id: NotificationId, next: nat)
    requires SequencesUnique(e, next) && Ranked(e, ids) && id in e && id !in ids
    requires forall x :: x in ids ==> x in e
    ensures var r := InsertRanked(e, ids, id);
            && Ranked(e, r) && |r| == |ids| + 1 && (forall x :: x in r <==> x in ids || x == id)
  {
    if ids != [] {
      if Precedes(e, id, ids[0]) {
        var r := [id] + ids;
        forall i, j | 0 <= i < j < |r| ensures Precedes(e, r[i], r[j]) {
          if j > 1 { assert Precedes(e, ids[0], ids[j - 1]); }
        }
      } else {
        assert ids[0] in e && Precedes(e, ids[0], id);
        var rest := InsertRanked(e, ids[1..], id);
        InsertRankedSorts(e, ids[1..], id, next);
        forall x | x in rest ensures Precedes(e, ids[0], x) {
          if x != id { assert x in ids[1..]; }
        }
        PrependRanked(e, ids[0], rest);
      }
    }
  }

  lemma PrependRanked(e: Entries, head: NotificationId, rest: seq<NotificationId>)
    requires Ranked(e, rest) && forall x :: x in rest ==> Precedes(e, head, x)
    ensures Ranked(e, [head] + rest)
  {
    var r := [head] + rest;
    forall i, j | 0 <= i < j < |r| ensures Precedes(e, r[i], r[j]) {
      assert r[j] == rest[j - 1];
      if i > 0 { assert r[i] == rest[i - 1]; }
    }
  }

  lemma {:induction false} SortRankedSorts(e: Entries, ids: seq<NotificationId>, next: nat)
    requires SequencesUnique(e, next) && Distinct(ids) && forall x :: x in ids ==> x in e
    ensures var r := SortRanked(e, ids);
            && Ranked(e, r) && |r| == |ids| && (forall x :: x in r <==> x in ids)
  {
    if ids != [] {
      var init, last := ids[..|ids| - 1], ids[|ids| - 1];
      assert last !in init;
      SortRankedSorts(e, init, next);
      InsertRankedSorts(e, SortRanked(e, init), last, next);
      assert forall x :: x in ids <==> x in init || x == last by { assert ids == init + [last]; }
    }
  }

  lemma RankedDistinct(e: Entries, ids: seq<NotificationId>)
    requires Ranked(e, ids)
    ensures Distinct(ids)
  {
  }

  /** The rank order leaves one way to arrange a set of queued ids. */
  lemma {:induction false} RankedUnique(e: Entries, a: seq<NotificationId>, b: seq<NotificationId>)
    requires Ranked(e, a) && Ranked(e, b) && (forall x :: x in a <==> x in b)
    ensures a == b
  {
    if b != [] { assert b[0] in a; }
    if a != [] {
      assert a[0] in b;
      assert a[0] == b[0];
      forall x ensures x in a[1..] <==> x in b[1..] {
        if x in a[1..] { assert x in b; assert Precedes(e, a[0], x); }
        if x in b[1..] { assert x in a; assert Precedes(e, b[0], x); }
      }
      RankedUnique(e, a[1..], b[1..]);
      assert a == [a[0]] + a[1..] && b == [b[0]] + b[1..];
    }
  }

  lemma SortPendingKeeps(s: State)
    requires Core(s)
    ensures var r := SortPending(s);
            && Core(r) && Ranked(r.entries, r.pending) && r == s.(pending := r.pending)
            && (Ranked(s.entries, s.pending) ==> r == s)
            && (Conserving(s) ==> Conserving(r))
  {
    hide HistoryOk, NoncesUnique, Keyed, EntriesOk;
    SortRankedSorts(s.entries, s.pending, s.nextSequence);
    var r := SortPending(s);
    RankedDistinct(r.entries, r.pending);
    if Ranked(s.entries, s.pending) { RankedUnique(s.entries, s.pending, r.pending); }
  }

  // ---------- time ----------

  lemma ElapseKeeps(s: State, now: Instant)
    requires Core(s) && s.lastNow <= now
    ensures var r := Elapse(s, now);
            && Core(r)
            && (Tallied(s) && Tuned(s) ==> Tallied(r) && Tuned(r))
  {
    hide Contained, NoncesUnique, SequencesUnique, Keyed, EntriesOk, Tallied, Tuned;
    var r := Elapse(s, now);
    assert r.history.shown.Keys == s.history.shown.Keys;
    if Tallied(s) && Tuned(s) { ElapseTallies(s, now); }
  }

  /** Running timers and shown time advance together. */
  lemma ElapseTallies(s: State, now: Instant)
    requires Tallied(s) && Tuned(s) && s.history.shown.Keys == s.entries.Keys && s.lastNow <= now
    ensures Tallied(Elapse(s, now)) && Tuned(Elapse(s, now))
  {
    var r := Elapse(s, now);
    forall id | id in r.entries ensures TalliedEntry(r, id, r.entries[id]) && TunedEntry(r, id, r.entries[id]) {
      assert TalliedEntry(s, id, s.entries[id]) && TunedEntry(s, id, s.entries[id]);
      assert s.Ticking(id) <==> r.Ticking(id);
    }
  }

  /** Closing what has expired leaves no overrun timer. */
  lemma ExpiredClosed(e: Entries, active: seq<NotificationId>, now: Instant)
    requires TimersStarted(e, active, now)
    ensures Unspent(e - ToSet(ExpiredIn(e, active, now)), now)
  {
  }

  // ---------- closing and the closed queue ----------

  lemma LastNTwice<T>(a: seq<T>, b: seq<T>, c: nat)
    ensures LastN(LastN(a, c) + b, c) == LastN(a + b, c)
  {
  }

  /** `r` closed some of the Notifications live in `s`, all for one reason, and queued
      the records; the queue keeps the newest when it is full. */
  ghost predicate ClosedSome(s: State, r: State, reason: CloseReason) {
    && s.history.log <= r.history.log
    && (forall i :: |s.history.log| <= i < |r.history.log| ==>
          r.history.log[i].id in s.entries && r.history.log[i].closeReason == Some(reason))
    && QueuedClosed(s, r)
  }

  ghost function NewlyClosed(s: State, r: State): seq<Notification> {
    if |s.history.log| <= |r.history.log| then r.history.log[|s.history.log|..] else []
  }

  ghost predicate QueuedClosed(s: State, r: State) {
    && r.closedCapacity == s.closedCapacity
    && r.history.forwarded == s.history.forwarded
    && LastN(r.closed, r.closedCapacity) == LastN(s.closed + NewlyClosed(s, r), r.closedCapacity)
    && (|s.closed| <= s.closedCapacity ==> |r.closed| <= r.closedCapacity)
  }

  lemma PushClosedQueues(closed: seq<Notification>, cap: nat, n: Notification)
    requires cap > 0
    ensures LastN(PushClosed(closed, cap, n), cap) == LastN(closed + [n], cap)
    ensures |closed| <= cap ==> |PushClosed(closed, cap, n)| <= cap
  {
    if |closed| == cap {
      assert closed[1..] + [n] == (closed + [n])[1..];
    } else {
      hide LastN;
    }
  }

  lemma CloseInnerCloses(s: State, id: NotificationId, reason: CloseReason, wall: WallTime)
    requires s.closedCapacity > 0 && (id in s.entries ==> s.entries[id].notification.id == id)
    ensures ClosedSome(s, CloseInner(s, id, reason, wall), reason)
  {
    var r := CloseInner(s, id, reason, wall);
    if id in s.entries {
      var n := s.entries[id].notification.Close(reason, wall);
      assert NewlyClosed(s, r) == [n];
      PushClosedQueues(s.closed, s.closedCapacity, n);
    } else {
      assert NewlyClosed(s, r) == [];
      assert s.closed + [] == s.closed;
    }
  }

  lemma TailCompose<T>(a: seq<T>, d: seq<T>, m: seq<T>, f: seq<T>, r: seq<T>, c: nat)
    requires LastN(m, c) == LastN(a + d, c) && LastN(r, c) == LastN(m + f, c)
    ensures LastN(r, c) == LastN(a + (d + f), c)
  {
    LastNTwice(m, f, c);
    LastNTwice(a + d, f, c);
    assert (a + d) + f == a + (d + f);
  }

  lemma ClosedSomeCompose(s: State, m: State, r: State, reason: CloseReason)
    requires ClosedSome(s, m, reason) && ClosedSome(m, r, reason) && m.entries.Keys <= s.entries.Keys
    ensures ClosedSome(s, r, reason)
  {
    NewlyClosedCompose(s.history.log, m.history.log, r.history.log);
    TailCompose(s.closed, NewlyClosed(s, m), m.closed, NewlyClosed(m, r), r.closed, r.closedCapacity);
    hide LastN;
    forall i | |s.history.log| <= i < |r.history.log|
      ensures r.history.log[i].id in s.entries && r.history.log[i].closeReason == Some(reason)
    {
      if i < |m.history.log| { assert r.history.log[i] == m.history.log[i]; }
    }
  }

  lemma NewlyClosedCompose<T>(a: seq<T>, b: seq<T>, c: seq<T>)
    requires a <= b && b <= c
    ensures c[|a|..] == b[|a|..] + c[|b|..]
  {
    assert c[..|b|] == b;
  }

  lemma {:induction false} CloseAllCloses(s: State, ids: seq<NotificationId>, reason: CloseReason, wall: WallTime)
    requires s.closedCapacity > 0 && EntriesOk(s.entries)
    ensures ClosedSome(s, CloseAll(s, ids, reason, wall), reason)
    decreases |ids|
  {
    if ids == [] {
      assert NewlyClosed(s, s) == [];
      assert s.closed + [] == s.closed;
    } else {
      if ids[0] in s.entries { assert EntryOk(ids[0], s.entries[ids[0]]); }
      var m := CloseInner(s, ids[0], reason, wall);
      CloseInnerCloses(s, ids[0], reason, wall);
      assert forall id :: id in m.entries ==> id in s.entries && m.entries[id] == s.entries[id];
      CloseAllCloses(m, ids[1..], reason, wall);
      ClosedSomeCompose(s, m, CloseAll(s, ids, reason, wall), reason);
    }
  }

  // ---------- preparing an operation ----------

  lemma ExpireKeeps(s: State, wall: WallTime)
    requires Core(s) && Ranked(s.entries, s.pending) && s.closedCapacity > 0
    ensures var r := Expire(s, wall);
            && Core(r) && Ranked(r.entries, r.pending) && Unspent(r.entries, r.lastNow)
            && (Tallied(s) ==> Tallied(r))
            && r.entries.Keys <= s.entries.Keys && |r.active| <= |s.active|
            && (forall id :: id in r.entries ==> r.entries[id] == s.entries[id])
            && r.lastNow == s.lastNow && r.limits == s.limits && r.available == s.available
            && r.history.submitted == s.history.submitted && r.nextNonce == s.nextNonce
            && ClosedSome(s, r, TimedOut)
  {
    CoreEntries(s);
    var ids := ExpiredIn(s.entries, s.active, s.lastNow);
    ExpiredClosed(s.entries, s.active, s.lastNow);
    hide Core, Ranked, Tallied, Unspent, CloseAll, EntriesOk, ClosedSome;
    CloseAllKeeps(s, ids, TimedOut, wall);
    CloseAllCloses(s, ids, TimedOut, wall);
  }

  /** What is left of `e` in `f` kept its content, its place in line and its pin. */
  ghost predicate Derived(e: Entries, f: Entries) {
    f.Keys <= e.Keys
    && forall id :: id in f ==> SameSlot(e[id], f[id]) && f[id].notification.content == e[id].notification.content
  }

  /** What passing time does, as every operation sees it. */
  lemma PrepareKeeps(s: State, now: Instant, wall: WallTime)
    requires Inv(s) && s.lastNow <= now
    ensures var r := Prepare(s, now, wall);
            && Inv(r) && Tuned(r) && r.lastNow == now
            && (Exact(s) ==> Exact(r))
            && Derived(s.entries, r.entries) && r.limits == s.limits && r.available == s.available
            && r.history.submitted == s.history.submitted && r.nextNonce == s.nextNonce
            && ClosedSome(s, r, TimedOut)
  {
    hide Core, Ranked, Conserving, Marked, Tuned, Tallied, Unspent, Expire, Rebalance;
    var t := Elapse(s, now);
    ElapseKeeps(s, now);
    var c := Expire(t, wall);
    ExpireKeeps(t, wall);
    RebalanceKeeps(c, now, wall);
    SubsetSize(c.entries.Keys, s.entries.Keys);
  }

  lemma CoreEntries(s: State)
    requires Core(s)
    ensures EntriesOk(s.entries) && TimersStarted(s.entries, s.active, s.lastNow)
  {
  }

  // ---------- the pending limit ----------

  /** Closing a queued Notification disturbs nothing on screen. */
  lemma CloseQueuedKeeps(s: State, id: NotificationId, reason: CloseReason, wall: WallTime)
    requires Contained(s.entries, s.pending, s.active, s.attention) && id in s.pending
    ensures var r := CloseInner(s, id, reason, wall);
            && r.active == s.active && r.attention == s.attention && r.pending == Without(s.pending, id)
            && |r.pending| == |s.pending| - 1
            && r.lastNow == s.lastNow && r.limits == s.limits && r.available == s.available
            && (Tuned(s) ==> Tuned(r)) && (Conserving(s) ==> Conserving(r)) && (Marked(s) ==> Marked(r))
  {
    var r := CloseInner(s, id, reason, wall);
    WithoutDistinct(s.pending, id);
    if Tuned(s) {
      forall x | x in r.entries ensures TunedEntry(r, x, r.entries[x]) {
        assert TunedEntry(s, x, s.entries[x]);
      }
    }
  }

  lemma {:induction false} PinnedWithout(e: Entries, ids: seq<NotificationId>, id: NotificationId)
    requires id in e && e[id].jumpNonce.None?
    ensures Pinned(e - {id}, Without(ids, id)) == Pinned(e, ids)
  {
    if ids != [] {
      PinnedWithout(e, ids[1..], id);
      assert ids[0] != id ==> ([ids[0]] + Without(ids[1..], id))[1..] == Without(ids[1..], id);
    }
  }

  /** `rposition` finds no victim exactly when every queued id is pinned. */
  lemma {:induction false} AllPinned(e: Entries, ids: seq<NotificationId>)
    ensures LastUnpinned(e, ids) == |ids| <==> |Pinned(e, ids)| == |ids|
  {
    if ids != [] {
      AllPinned(e, ids[1..]);
      var i := LastUnpinned(e, ids);
      assert i < |ids| && i > 0 ==> ids[i] == ids[1..][i - 1];
      assert forall j :: 0 < j < |ids| ==> ids[j] == ids[1..][j - 1];
    }
  }

  lemma {:induction false} EnforceKeeps(s: State, wall: WallTime)
    requires Core(s) && Ranked(s.entries, s.pending) && s.closedCapacity > 0
    ensures var r := Enforce(s, wall);
            && Core(r) && Ranked(r.entries, r.pending)
            && (Tallied(s) ==> Tallied(r)) && (Tuned(s) ==> Tuned(r))
            && (Conserving(s) ==> Conserving(r)) && (Marked(s) ==> Marked(r))
            && r.active == s.active && r.attention == s.attention
            && r.lastNow == s.lastNow && r.limits == s.limits && r.available == s.available
            && r.entries.Keys <= s.entries.Keys
            && (forall id :: id in r.entries ==> r.entries[id] == s.entries[id])
            && ClosedSome(s, r, RenderSuppressed)
            && (|r.pending| <= s.limits.maxPending <==> !OverPinned(s))
            && (|s.pending| <= s.limits.maxPending ==> r == s)
    decreases |s.pending|
  {
    CoreEntries(s);
    CoreContained(s);
    AllPinned(s.entries, s.pending);
    var i := LastUnpinned(s.entries, s.pending);
    hide Core, Ranked, Tallied, Tuned, Conserving, Marked, Contained, CloseInner;
    if |s.pending| > s.limits.maxPending && i < |s.pending| {
      var id := s.pending[i];
      var m := CloseInner(s, id, RenderSuppressed, wall);
      assert EntryOk(id, s.entries[id]);
      CloseInnerKeeps(s, id, RenderSuppressed, wall);
      CloseQueuedKeeps(s, id, RenderSuppressed, wall);
      CloseInnerCloses(s, id, RenderSuppressed, wall);
      PinnedWithout(s.entries, s.pending, id);
      EnforceKeeps(m, wall);
      ClosedSomeCompose(s, m, Enforce(m, wall), RenderSuppressed);
    } else {
      NothingClosed(s, RenderSuppressed);
    }
  }

  lemma NothingClosed(s: State, reason: CloseReason)
    ensures ClosedSome(s, s, reason)
  {
    assert s.closed + NewlyClosed(s, s) == s.closed;
  }

  lemma CoreContained(s: State)
    requires Core(s)
    ensures Contained(s.entries, s.pending, s.active, s.attention)
    ensures HistoryOk(s.entries.Keys, s.history)
  {
  }

  /** The next Notification `enforce_pending_limit` gives up, if it gives one up. */
  predicate HasVictim(s: State) {
    |s.pending| > s.limits.maxPending && LastUnpinned(s.entries, s.pending) < |s.pending|
  }

  /** One round of `enforce_pending_limit`. */
  lemma EnforceRound(s: State, wall: WallTime)
    requires Core(s) && Ranked(s.entries, s.pending)
    ensures !HasVictim(s) ==> Enforce(s, wall) == s
    ensures HasVictim(s) ==>
      var id := s.pending[LastUnpinned(s.entries, s.pending)];
      var m := CloseInner(s, id, RenderSuppressed, wall);
      && id in s.entries && s.entries[id].jumpNonce.None? && id in s.pending
      && Enforce(s, wall) == Enforce(m, wall)
      && Core(m) && Ranked(m.entries, m.pending) && m.limits == s.limits
      && m.entries == s.entries - {id} && m.pending == Without(s.pending, id)
      && |m.pending| == |s.pending| - 1
      && Pinned(m.entries, m.pending) == Pinned(s.entries, s.pending)
  {
    CoreContained(s);
    if HasVictim(s) {
      var id := s.pending[LastUnpinned(s.entries, s.pending)];
      hide Core, Ranked, Contained;
      CloseInnerKeeps(s, id, RenderSuppressed, wall);
      CloseQueuedKeeps(s, id, RenderSuppressed, wall);
      PinnedWithout(s.entries, s.pending, id);
    }
  }

  /** Only unpinned Notifications leave the queue. */
  lemma {:induction false} OverloadMembers(s: State, wall: WallTime)
    requires Core(s) && Ranked(s.entries, s.pending)
    ensures var r := Enforce(s, wall);
            && (forall id :: id in r.pending ==> id in s.pending)
            && (forall id :: id in s.pending && id in s.entries && s.entries[id].jumpNonce.Some? ==> id in r.pending)
    decreases |s.pending|
  {
    EnforceRound(s, wall);
    hide Core, Ranked, Enforce, Pinned, LastUnpinned, CloseInner;
    if HasVictim(s) {
      OverloadMembers(CloseInner(s, s.pending[LastUnpinned(s.entries, s.pending)], RenderSuppressed, wall), wall);
    }
  }

  lemma {:induction false} OverloadSize(s: State, wall: WallTime)
    requires Core(s) && Ranked(s.entries, s.pending)
    ensures |Enforce(s, wall).pending| ==
            if |s.pending| <= s.limits.maxPending then |s.pending|
            else if OverPinned(s) then |Pinned(s.entries, s.pending)|
            else s.limits.maxPending
    decreases |s.pending|
  {
    EnforceRound(s, wall);
    AllPinned(s.entries, s.pending);
    hide Core, Ranked, Enforce, Pinned, LastUnpinned, CloseInner;
    if HasVictim(s) {
      OverloadSize(CloseInner(s, s.pending[LastUnpinned(s.entries, s.pending)], RenderSuppressed, wall), wall);
    }
  }

  /** An unpinned `kept` stays queued although `lost` does not. */
  ghost predicate Outlives(s: State, r: State, kept: NotificationId, lost: NotificationId) {
    && kept in s.pending && kept in r.pending && kept in s.entries && s.entries[kept].jumpNonce.None?
    && lost in s.pending && lost !in r.pending
  }

  /** Every unpinned survivor outranks every victim. */
  lemma {:induction false} OverloadOutranks(s: State, wall: WallTime, kept: NotificationId, lost: NotificationId)
    requires Core(s) && Ranked(s.entries, s.pending) && Outlives(s, Enforce(s, wall), kept, lost)
    ensures Precedes(s.entries, kept, lost)
    decreases |s.pending|
  {
    EnforceRound(s, wall);
    CoreContained(s);
    if HasVictim(s) {
      VictimIsWorst(s.entries, s.pending);
      hide Core, Ranked, Contained, Enforce, Pinned, LastUnpinned, CloseInner;
      var id := s.pending[LastUnpinned(s.entries, s.pending)];
      var m := CloseInner(s, id, RenderSuppressed, wall);
      OverloadMembers(m, wall);
      if lost != id { OverloadOutranks(m, wall, kept, lost); }
    }
  }

  /** Overload keeps the best: the limit is met unless too many queued Notifications are
      pinned, no pinned one is lost, and every unpinned survivor outranks every victim. */
  lemma OverloadKeepsBest(s: State, wall: WallTime)
    requires Core(s) && Ranked(s.entries, s.pending)
    ensures var r := Enforce(s, wall);
            && (forall id :: id in r.pending ==> id in s.pending)
            && (forall id :: id in s.pending && id in s.entries && s.entries[id].jumpNonce.Some? ==> id in r.pending)
            && (forall kept, lost :: Outlives(s, r, kept, lost) ==> Precedes(s.entries, kept, lost))
            && |r.pending| == if |s.pending| <= s.limits.maxPending then |s.pending|
                              else if OverPinned(s) then |Pinned(s.entries, s.pending)|
                              else s.limits.maxPending
  {
    OverloadMembers(s, wall);
    OverloadSize(s, wall);
    forall kept, lost | Outlives(s, Enforce(s, wall), kept, lost) ensures Precedes(s.entries, kept, lost) {
      OverloadOutranks(s, wall, kept, lost);
    }
  }

  lemma VictimIsWorst(e: Entries, ids: seq<NotificationId>)
    requires Ranked(e, ids) && LastUnpinned(e, ids) < |ids| && forall id :: id in ids ==> id in e
    ensures var v := ids[LastUnpinned(e, ids)];
            forall id :: id in ids && e[id].jumpNonce.None? && id != v ==> Precedes(e, id, v)
  {
    var i := LastUnpinned(e, ids);
    forall id | id in ids && e[id].jumpNonce.None? && id != ids[i] ensures Precedes(e, id, ids[i]) {
      var j :| 0 <= j < |ids| && ids[j] == id;
      assert j < i;
    }
  }
}
