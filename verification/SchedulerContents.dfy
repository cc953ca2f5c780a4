/** What a Notification says: over whole runs, the last draft submitted for it with the
    updates accepted since, whether it is still live or already recorded as closed. */
module SchedulerContents {
  import opened Wrappers
  import opened Notifications
  import opened Seqs
  import opened SchedulerModel
  import opened SchedulerInvariant
  import opened SchedulerSteps
  import opened SchedulerOperations
  import opened SchedulerRuns
  import opened SchedulerTimeouts
  import opened SchedulerRecords

  // ---------- one update ----------

  /** The fields an update names have the named values, an Attention keeps its timeout, and
      everything else is as it was. */
  ghost predicate Wrote(before: Draft, u: Update, after: Draft) {
    && (u.title.Some? ==> after.title == u.title.value) && (u.title.None? ==> after.title == before.title)
    && (u.body.Some? ==> after.body == u.body.value) && (u.body.None? ==> after.body == before.body)
    && (u.level.Some? ==> after.level == u.level.value) && (u.level.None? ==> after.level == before.level)
    && (u.priority.Some? ==> after.priority == u.priority.value)
    && (u.priority.None? ==> after.priority == before.priority)
    && (u.position.Some? ==> after.position == u.position.value)
    && (u.position.None? ==> after.position == before.position)
    && (u.timeout.Some? && before.presentation == Toast ==> after.timeout == u.timeout.value)
    && (u.timeout.None? || before.presentation == Attention ==> after.timeout == before.timeout)
    && after.key == before.key && after.presentation == before.presentation
    && after.source == before.source && after.metadata == before.metadata
  }

  lemma MergedWrites(c: Draft, u: Update)
    ensures Wrote(c, u, Merged(c, u))
  {
  }

  // ---------- what a step leaves of each Notification ----------

  /** The same Notification, except for when it was last touched and whether it was shown. */
  ghost predicate SameFace(a: Notification, b: Notification) {
    b.id == a.id && b.content == a.content && b.createdAt == a.createdAt && b.lastJumpedAt == a.lastJumpedAt
  }

  /** The record of a Notification: closed, and marked as jumped to exactly if that is why. */
  ghost predicate ClosedFace(a: Notification, n: Notification) {
    && n.id == a.id && n.content == a.content && n.createdAt == a.createdAt
    && n.delivery == Closed && n.closeReason.Some?
    && n.lastJumpedAt == if n.closeReason == Some(Jumped) then Some(n.updatedAt) else a.lastJumpedAt
  }

  /** When a Notification was last jumped to, as far as it is live. */
  ghost function Mark(s: State, id: NotificationId): Option<WallTime> {
    if id in s.entries then s.entries[id].notification.lastJumpedAt else None
  }

  /** Notifications keep their place in line, and new ones come after all there were. */
  ghost predicate InTurn(s: State, r: State) {
    && s.nextSequence <= r.nextSequence
    && forall id :: id in r.entries ==>
         if id in s.entries then r.entries[id].sequence == s.entries[id].sequence
         else s.nextSequence <= r.entries[id].sequence
  }

  /** What a live Notification says after a step: what was written, or what it said. */
  ghost predicate LiveTells(s: State, edited: map<NotificationId, Draft>, id: NotificationId, n: Notification) {
    if id in edited then n.content == edited[id] && n.lastJumpedAt == Mark(s, id)
    else id in s.entries && SameFace(s.entries[id].notification, n)
  }

  /** And what a new record says. */
  ghost predicate RecordTells(s: State, edited: map<NotificationId, Draft>, n: Notification) {
    if n.id in edited
    then n.content == edited[n.id] && n.closeReason.Some?
         && n.lastJumpedAt == if n.closeReason == Some(Jumped) then Some(n.updatedAt) else Mark(s, n.id)
    else n.id in s.entries && ClosedFace(s.entries[n.id].notification, n)
  }

  /** From `s` to `r`, every Notification live or newly recorded carries its face over, but for
      those edited, which have the content given. */
  ghost predicate Carries(s: State, r: State, edited: map<NotificationId, Draft>) {
    && InTurn(s, r) && s.history.log <= r.history.log
    && (forall id :: id in r.entries ==> LiveTells(s, edited, id, r.entries[id].notification))
    && (forall n :: n in NewlyClosed(s, r) ==> RecordTells(s, edited, n))
  }

  lemma CarriesNothing(s: State, r: State)
    requires r.history.log == s.history.log
    requires forall id :: id in r.entries ==>
      id in s.entries && SameFace(s.entries[id].notification, r.entries[id].notification)
      && r.entries[id].sequence == s.entries[id].sequence
    requires r.nextSequence == s.nextSequence
    ensures Carries(s, r, map[])
  {
    assert NewlyClosed(s, r) == [];
  }

  /** Two steps, of which at most one writes about this Notification. */
  lemma TellsOn(s: State, m: State, first: map<NotificationId, Draft>, second: map<NotificationId, Draft>,
                id: NotificationId, n: Notification)
    requires id in m.entries ==> LiveTells(s, first, id, m.entries[id].notification)
    requires first == map[] || second == map[]
    requires id in second && id in s.entries ==> id in m.entries
    ensures LiveTells(m, second, id, n) ==> LiveTells(s, first + second, id, n)
    ensures n.id == id && RecordTells(m, second, n) ==> RecordTells(s, first + second, n)
  {
  }

  lemma CarriesBoth(s: State, m: State, r: State, first: map<NotificationId, Draft>, second: map<NotificationId, Draft>)
    requires Carries(s, m, first) && Carries(m, r, second) && (first == map[] || second == map[])
    requires forall n :: n in NewlyClosed(s, m) ==> n.id !in second
    requires forall id :: id in second && id in s.entries ==> id in m.entries
    ensures Carries(s, r, first + second)
  {
    NewlyClosedCompose(s.history.log, m.history.log, r.history.log);
    assert NewlyClosed(s, r) == NewlyClosed(s, m) + NewlyClosed(m, r);
    TurnsCompose(s, m, r, second);
    assert first + second == if first == map[] then second else first;
    hide NewlyClosed, LiveTells, RecordTells, InTurn;
    forall id | id in r.entries ensures LiveTells(s, first + second, id, r.entries[id].notification) {
      TellsOn(s, m, first, second, id, r.entries[id].notification);
    }
    forall n | n in NewlyClosed(s, r) ensures RecordTells(s, first + second, n) {
      if n in NewlyClosed(s, m) {
        RecordStays(s, first, second, n);
      } else {
        TellsOn(s, m, first, second, n.id, n);
      }
    }
  }

  lemma RecordStays(s: State, first: map<NotificationId, Draft>, second: map<NotificationId, Draft>, n: Notification)
    requires RecordTells(s, first, n) && n.id !in second
    ensures RecordTells(s, first + second, n)
  {
  }

  lemma TurnsCompose(s: State, m: State, r: State, written: map<NotificationId, Draft>)
    requires InTurn(s, m) && InTurn(m, r)
    requires forall id :: id in r.entries ==> LiveTells(m, written, id, r.entries[id].notification)
    requires forall id :: id in written && id in s.entries ==> id in m.entries
    ensures InTurn(s, r)
  {
  }

  lemma CarriesOn(s: State, m: State, r: State, edited: map<NotificationId, Draft>)
    requires Carries(s, m, edited) && Carries(m, r, map[])
    ensures Carries(s, r, edited)
  {
    hide Carries;
    CarriesBoth(s, m, r, edited, map[]);
    assert edited + map[] == edited;
  }

  lemma CarriesInto(s: State, m: State, r: State, edited: map<NotificationId, Draft>)
    requires Carries(s, m, map[]) && Carries(m, r, edited)
    requires forall n :: n in NewlyClosed(s, m) ==> n.id !in edited
    requires forall id :: id in edited && id in s.entries ==> id in m.entries
    ensures Carries(s, r, edited)
  {
    hide Carries, NewlyClosed;
    CarriesBoth(s, m, r, map[], edited);
    assert map[] + edited == edited;
  }

  lemma CloseInnerCarries(s: State, id: NotificationId, reason: CloseReason, wall: WallTime)
    requires id in s.entries ==> s.entries[id].notification.id == id
    ensures Carries(s, CloseInner(s, id, reason, wall), map[])
  {
    var r := CloseInner(s, id, reason, wall);
    if id in s.entries {
      assert NewlyClosed(s, r) == [s.entries[id].notification.Close(reason, wall)];
    } else {
      CarriesNothing(s, r);
    }
  }

  ghost predicate Named(e: Entries) {
    forall id :: id in e ==> e[id].notification.id == id
  }

  lemma CoreNamed(s: State)
    requires Core(s)
    ensures Named(s.entries)
  {
    CoreEntries(s);
    hide Core, TimersStarted;
    forall id | id in s.entries ensures s.entries[id].notification.id == id {
      assert EntryOk(id, s.entries[id]);
    }
  }

  lemma CloseInnerNamed(s: State, id: NotificationId, reason: CloseReason, wall: WallTime)
    requires Named(s.entries)
    ensures Named(CloseInner(s, id, reason, wall).entries)
  {
  }

  lemma {:induction false} CloseAllCarries(s: State, ids: seq<NotificationId>, reason: CloseReason, wall: WallTime)
    requires Named(s.entries)
    ensures Carries(s, CloseAll(s, ids, reason, wall), map[])
    decreases |ids|
  {
    if ids == [] {
      CarriesNothing(s, s);
    } else {
      CloseInnerCarries(s, ids[0], reason, wall);
      CloseInnerNamed(s, ids[0], reason, wall);
      hide Named, Carries, CloseInner;
      CloseAllCarries(CloseInner(s, ids[0], reason, wall), ids[1..], reason, wall);
      CarriesOn(s, CloseInner(s, ids[0], reason, wall), CloseAll(s, ids, reason, wall), map[]);
    }
  }

  lemma {:induction false} EnforceCarries(s: State, wall: WallTime)
    requires Named(s.entries)
    ensures Carries(s, Enforce(s, wall), map[])
    decreases |s.pending|
  {
    var i := LastUnpinned(s.entries, s.pending);
    if |s.pending| > s.limits.maxPending && i < |s.pending| {
      var m := CloseInner(s, s.pending[i], RenderSuppressed, wall);
      CloseInnerCarries(s, s.pending[i], RenderSuppressed, wall);
      CloseInnerNamed(s, s.pending[i], RenderSuppressed, wall);
      EnforceCarries(m, wall);
      hide Named, Carries, CloseInner;
      CarriesOn(s, m, Enforce(s, wall), map[]);
    } else {
      CarriesNothing(s, s);
    }
  }

  lemma RebalanceCarries(s: State, now: Instant, wall: WallTime)
    ensures Carries(s, Rebalance(s, now, wall), map[])
  {
    var r := Rebalance(s, now, wall);
    RebalanceHistory(s, now, wall);
    RebalanceFaces(s, now, wall);
    hide Rebalance;
    CarriesNothing(s, r);
  }

  lemma RebalanceFaces(s: State, now: Instant, wall: WallTime)
    ensures var r := Rebalance(s, now, wall);
            && r.entries.Keys == s.entries.Keys
            && r.nextSequence == s.nextSequence
            && forall id :: id in s.entries ==>
                 SameFace(s.entries[id].notification, r.entries[id].notification)
                 && r.entries[id].sequence == s.entries[id].sequence
  {
    var f := FillToasts(PickAttention(s));
    assert f.entries == s.entries;
    var m := MarkVisible(f, wall);
    assert forall id :: id in s.entries ==> SameFace(s.entries[id].notification, m.entries[id].notification);
    hide PickAttention, FillToasts, MarkVisible;
  }

  /** Nothing is edited by the passing of time. */
  lemma PrepareCarries(s: State, now: Instant, wall: WallTime)
    requires Inv(s) && s.lastNow <= now
    ensures Carries(s, Prepare(s, now, wall), map[])
  {
    var e := Elapse(s, now);
    CarriesNothing(s, e);
    InvIsCore(s);
    CoreNamed(s);
    hide Inv, Core, Ranked, Named, Carries, Rebalance, ExpiredIn;
    CloseAllCarries(e, ExpiredIn(e.entries, e.active, e.lastNow), TimedOut, wall);
    var c := Expire(e, wall);
    RebalanceCarries(c, now, wall);
    CarriesOn(s, e, c, map[]);
    CarriesOn(s, c, Rebalance(c, now, wall), map[]);
  }

  // ---------- what a call edits ----------

  /** The contents a tail writes. */
  ghost function TailEdits(t: State, tail: Tail): map<NotificationId, Draft> {
    match tail
    case Upsert(id, draft) => map[id := draft]
    case Place(id, draft) => map[id := draft]
    case Revise(id, update) =>
      if id in t.entries then map[id := Merged(t.entries[id].notification.content, update)] else map[]
    case _ => map[]
  }

  /** `r` is `s` with only counters, places, pins and timers changed. */
  lemma SameFacesCarry(s: State, m: State, r: State, edited: map<NotificationId, Draft>)
    requires Carries(s, m, edited) && r.history.log == m.history.log && r.entries == m.entries
    requires r.nextSequence == m.nextSequence
    ensures Carries(s, r, edited)
  {
  }

  lemma RevisedCarries(t: State, id: NotificationId, content: Draft, now: Instant, wall: WallTime)
    requires id in t.entries
    ensures Carries(t, Revised(t, id, content, now, wall), map[id := content])
  {
    assert NewlyClosed(t, Revised(t, id, content, now, wall)) == [];
  }

  lemma AdmittedCarries(t: State, id: NotificationId, draft: Draft, wall: WallTime)
    requires id !in t.entries
    ensures Carries(t, Admitted(t, id, draft, wall), map[id := draft])
  {
    assert NewlyClosed(t, Admitted(t, id, draft, wall)) == [];
  }

  /** The queue sorted and rebalanced. */
  lemma SettledCarries(t: State, v: State, edited: map<NotificationId, Draft>, now: Instant, wall: WallTime)
    requires Carries(t, v, edited)
    ensures Carries(t, Rebalance(SortPending(v), now, wall), edited)
  {
    var p := SortPending(v);
    SameFacesCarry(t, v, p, edited);
    hide Carries, Rebalance, SortPending;
    RebalanceCarries(p, now, wall);
    CarriesOn(t, p, Rebalance(p, now, wall), edited);
  }

  lemma EnforcedCarries(t: State, p: State, edited: map<NotificationId, Draft>, wall: WallTime)
    requires Carries(t, p, edited) && Named(p.entries)
    ensures Carries(t, Enforce(p, wall), edited)
  {
    hide Carries, Named, Enforce;
    EnforceCarries(p, wall);
    CarriesOn(t, p, Enforce(p, wall), edited);
  }

  lemma UpsertCarries(t: State, id: NotificationId, draft: Draft, now: Instant, wall: WallTime)
    requires id in t.entries
    ensures Carries(t, Upserted(t, id, draft, now, wall), map[id := draft])
  {
    var u := Revised(t, id, draft, now, wall);
    var v := if draft.presentation != t.entries[id].Presentation() then Requeued(u, id) else u;
    hide Rebalance, SortPending, Carries;
    RevisedCarries(t, id, draft, now, wall);
    SameFacesCarry(t, u, v, map[id := draft]);
    SettledCarries(t, v, map[id := draft], now, wall);
    var p := Rebalance(SortPending(v), now, wall);
    SameFacesCarry(t, p, BumpContent(p), map[id := draft]);
  }

  lemma PlaceCarries(t: State, id: NotificationId, draft: Draft, now: Instant, wall: WallTime)
    requires Inv(t) && t.lastNow == now && id !in t.history.submitted && !KeyIsLive(t, draft)
    ensures Carries(t, BumpContent(Enforce(Placed(t, id, draft, now, wall), wall)), map[id := draft])
  {
    var p := Placed(t, id, draft, now, wall);
    hide Inv, Core, Rebalance, SortPending, Carries, Named, KeyIsLive, Enforce, Settled, Exact;
    InvIsCore(t);
    CoreHistory(t);
    AdmittedCarries(t, id, draft, wall);
    SettledCarries(t, Admitted(t, id, draft, wall), map[id := draft], now, wall);
    PlacedKeeps(t, id, draft, now, wall);
    SettledQueue(p);
    CoreNamed(p);
    EnforcedCarries(t, p, map[id := draft], wall);
    SameFacesCarry(t, Enforce(p, wall), BumpContent(Enforce(p, wall)), map[id := draft]);
  }

  lemma DeferredCarries(m: State, now: Instant)
    ensures Carries(m, Deferred(m, now), map[])
  {
    assert NewlyClosed(m, Deferred(m, now)) == [];
  }

  lemma RelimitCarries(t: State, limits: Limits, now: Instant, wall: WallTime)
    requires Inv(t) && t.lastNow == now
    ensures var u := Enforce(Relimited(t, limits, now, wall), wall);
            Carries(t, BumpContent(u.(closed := LastN(u.closed, u.closedCapacity))), map[])
  {
    var m := t.(limits := limits, closedCapacity := Capacity(limits));
    var p := Relimited(t, limits, now, wall);
    CarriesNothing(t, m);
    hide Inv, Core, Rebalance, SortPending, Carries, Named, Enforce, Settled, Exact, Deferred;
    DeferredCarries(m, now);
    CarriesOn(t, m, Deferred(m, now), map[]);
    SettledCarries(t, Deferred(m, now), map[], now, wall);
    RelimitedKeeps(t, limits, now, wall);
    SettledQueue(p);
    CoreNamed(p);
    EnforcedCarries(t, p, map[], wall);
    var u := Enforce(p, wall);
    SameFacesCarry(t, u, BumpContent(u.(closed := LastN(u.closed, u.closedCapacity))), map[]);
  }

  lemma ReviseCarries(t: State, id: NotificationId, update: Update, now: Instant, wall: WallTime)
    ensures Carries(t, ApplyUpdate(t, id, update, now, wall).0, TailEdits(t, Revise(id, update)))
  {
    if id in t.entries {
      var c := Merged(t.entries[id].notification.content, update);
      var u := Revised(t, id, c, now, wall);
      RevisedCarries(t, id, c, now, wall);
      SameFacesCarry(t, u, BumpContent(SortPending(u)), map[id := c]);
      if c == t.entries[id].notification.content { Unedited(t, map[id := c]); }
    } else {
      CarriesNothing(t, t);
    }
  }

  /** Writing what is there already is no edit. */
  lemma Unedited(t: State, edited: map<NotificationId, Draft>)
    requires forall id :: id in edited && id in t.entries ==> t.entries[id].notification.content == edited[id]
    ensures Carries(t, t, edited)
  {
    assert NewlyClosed(t, t) == [];
  }

  lemma CloseOneCarries(t: State, id: NotificationId, reason: CloseReason, now: Instant, wall: WallTime)
    requires Named(t.entries)
    ensures Carries(t, Rebalance(CloseInner(t, id, reason, wall), now, wall), map[])
  {
    var c := CloseInner(t, id, reason, wall);
    CloseInnerCarries(t, id, reason, wall);
    hide Carries, Rebalance, CloseInner, Named;
    RebalanceCarries(c, now, wall);
    CarriesOn(t, c, Rebalance(c, now, wall), map[]);
  }

  lemma AvailableCarries(t: State, a: bool, now: Instant, wall: WallTime)
    ensures Carries(t, Rebalance(if t.available != a then BumpRevision(t.(available := a)) else t, now, wall), map[])
  {
    var u := if t.available != a then BumpRevision(t.(available := a)) else t;
    CarriesNothing(t, u);
    hide Carries, Rebalance;
    RebalanceCarries(u, now, wall);
    CarriesOn(t, u, Rebalance(u, now, wall), map[]);
  }

  lemma PinCarries(t: State, id: NotificationId)
    ensures Carries(t, BeginJumpInner(t, id).0, map[])
  {
    CarriesNothing(t, BeginJumpInner(t, id).0);
  }

  lemma UnpinCarries(t: State, id: NotificationId)
    requires id in t.entries
    ensures Carries(t, Repinned(t, id, None, true), map[])
  {
    CarriesNothing(t, Repinned(t, id, None, true));
  }

  lemma AfterCarries(t: State, tail: Tail, now: Instant, wall: WallTime)
    requires Inv(t) && Core(t) && t.lastNow == now && TailAllowed(t, tail, now, wall)
    ensures Carries(t, RunTail(t, tail, now, wall), TailEdits(t, tail))
  {
    hide Inv, Core, Carries, Named, Rebalance, CloseInner, CloseAll, Enforce, OverPinned, Placed, Relimited, Upserted,
      ApplyUpdate, BeginJumpInner, Repinned, Outstanding, KeyIsLive;
    CoreNamed(t);
    CarriesNothing(t, t);
    match tail
    case Stay =>
    case CloseOne(id, reason) => CloseOneCarries(t, id, reason, now, wall);
    case CloseEvery(order, reason) => CloseAllCarries(t, order, reason, wall);
    case Upsert(id, draft) => UpsertCarries(t, id, draft, now, wall);
    case Place(id, draft) => PlaceCarries(t, id, draft, now, wall);
    case Revise(id, update) => ReviseCarries(t, id, update, now, wall);
    case MakeAvailable(a) => AvailableCarries(t, a, now, wall);
    case Relimit(limits) => RelimitCarries(t, limits, now, wall);
    case Pin(id) => PinCarries(t, id);
    case Unpin(intent) => if Outstanding(t, intent) { UnpinSome(t, intent); }
  }

  lemma UnpinSome(t: State, intent: JumpIntent)
    requires Outstanding(t, intent)
    ensures Carries(t, Repinned(t, intent.id, None, true), map[])
  {
    UnpinCarries(t, intent.id);
  }

  // ---------- one call ----------

  datatype Edit = Drafted(draft: Draft) | Changed(update: Update)

  /** What the call wrote, as its answer tells the caller: a submission names the Notification
      it was for, an update succeeds, and a key stands for the Notification that has it. */
  ghost function Edits(s: State, c: Call): map<NotificationId, Edit> {
    match c.action
    case Submitting(draft, newId) =>
      (match Submit(s, draft, newId, c.now, c.wall).1
       case Ok(outcome) => map[outcome.id := Drafted(draft)]
       case Err(_) => map[])
    case Updating(id, update) =>
      if UpdateById(s, id, update, c.now, c.wall).1.Ok? then map[id := Changed(update)] else map[]
    case UpdatingKeyed(key, update) =>
      if UpdateByKey(s, key, update, c.now, c.wall).1.Ok? && key in s.liveKeys
      then map[s.liveKeys[key] := Changed(update)] else map[]
    case _ => map[]
  }

  /** The content after the edit. */
  ghost predicate Follows(before: State, id: NotificationId, e: Edit, content: Draft) {
    match e
    case Drafted(draft) => content == draft
    case Changed(update) => id in before.entries && Wrote(before.entries[id].notification.content, update, content)
  }

  /** From `s` to `r`: what was edited follows its edit, everything else carries over. */
  ghost predicate ContentsTell(s: State, r: State, edits: map<NotificationId, Edit>) {
    && InTurn(s, r) && s.history.log <= r.history.log
    && (forall id :: id in r.entries ==>
          if id in edits
          then Follows(s, id, edits[id], r.entries[id].notification.content)
               && r.entries[id].notification.lastJumpedAt == Mark(s, id)
          else id in s.entries && SameFace(s.entries[id].notification, r.entries[id].notification))
    && (forall n :: n in NewlyClosed(s, r) ==>
          if n.id in edits
          then Follows(s, n.id, edits[n.id], n.content) && n.closeReason.Some?
               && n.lastJumpedAt == if n.closeReason == Some(Jumped) then Some(n.updatedAt) else Mark(s, n.id)
          else n.id in s.entries && ClosedFace(s.entries[n.id].notification, n))
  }

  /** The contents the call writes once time is prepared. */
  ghost function Written(t: State, a: Action): map<NotificationId, Draft> {
    match a
    case Submitting(draft, newId) =>
      if KeyIsLive(t, draft) then map[t.liveKeys[draft.key.value] := draft] else map[newId := draft]
    case Updating(id, update) => TailEdits(t, Revise(id, update))
    case UpdatingKeyed(key, update) =>
      if key in t.liveKeys then TailEdits(t, Revise(t.liveKeys[key], update)) else map[]
    case _ => map[]
  }

  lemma CallCarries(s: State, t: State, c: Call)
    requires Inv(t) && Core(t) && t.lastNow == c.now && TailAllowed(t, TailOf(s, t, c.action), c.now, c.wall)
    ensures Carries(t, RunTail(t, TailOf(s, t, c.action), c.now, c.wall), Written(t, c.action))
  {
    hide Inv, Core, Carries, RunTail, TailAllowed, Merged;
    AfterCarries(t, TailOf(s, t, c.action), c.now, c.wall);
    if c.action.Submitting? && KeyIsLive(t, c.action.draft) {
      StayIs(t, c.now, c.wall);
      if t.entries[t.liveKeys[c.action.draft.key.value]].notification.content == c.action.draft {
        Unedited(t, Written(t, c.action));
      }
    }
  }

  lemma StayIs(t: State, now: Instant, wall: WallTime)
    ensures RunTail(t, Stay, now, wall) == t
  {
  }

  /** What is written is live, or new. */
  lemma WrittenWhere(s: State, t: State, c: Call)
    requires Core(t) && TailAllowed(t, TailOf(s, t, c.action), c.now, c.wall)
    ensures forall id :: id in Written(t, c.action) ==> id in t.entries || id !in t.history.submitted
  {
    CoreParts(t);
    hide Core, OverPinned, Placed, Relimited, Merged;
  }

  lemma ClosedElsewhere(s: State, t: State, written: map<NotificationId, Draft>)
    requires HistoryOk(t.entries.Keys, t.history) && s.history.log <= t.history.log
    requires forall id :: id in written ==> id in t.entries || id !in t.history.submitted
    ensures forall n :: n in NewlyClosed(s, t) ==> n.id !in written
  {
    forall n | n in NewlyClosed(s, t) ensures n.id !in written {
      assert n in t.history.log;
      assert n.id in LogIds(t.history.log);
    }
  }

  lemma WrittenStays(s: State, t: State, written: map<NotificationId, Draft>)
    requires Core(s) && s.history.submitted == t.history.submitted
    requires forall id :: id in written ==> id in t.entries || id !in t.history.submitted
    ensures forall id :: id in written && id in s.entries ==> id in t.entries
  {
    CoreHistory(s);
  }

  /** The answer tells which Notifications were written, and with what. */
  ghost predicate EditsMatch(s: State, edits: map<NotificationId, Edit>, written: map<NotificationId, Draft>) {
    edits.Keys == written.Keys && forall id :: id in edits ==> Follows(s, id, edits[id], written[id])
  }

  lemma KeyStays(s: State, t: State, key: Key)
    requires Keyed(s.entries, s.liveKeys) && Keyed(t.entries, t.liveKeys) && Derived(s.entries, t.entries)
    requires key in t.liveKeys
    ensures key in s.liveKeys && s.liveKeys[key] == t.liveKeys[key] && t.liveKeys[key] in t.entries
  {
    assert t.entries[t.liveKeys[key]].Key() == Some(key);
    assert s.entries[t.liveKeys[key]].Key() == Some(key);
  }

  lemma SubmitMatches(s: State, c: Call)
    requires s.lastNow <= c.now && c.action.Submitting?
    ensures EditsMatch(s, Edits(s, c), Written(Prepare(s, c.now, c.wall), c.action))
  {
    hide Prepare, Upserted, Placed, Enforce;
  }

  lemma UpdateMatches(s: State, t: State, id: NotificationId, update: Update, now: Instant, wall: WallTime)
    requires Derived(s.entries, t.entries)
    ensures var edits := if ApplyUpdate(t, id, update, now, wall).1.Ok? then map[id := Changed(update)] else map[];
            EditsMatch(s, edits, TailEdits(t, Revise(id, update)))
  {
    hide Revised, SortPending, Merged, Wrote;
    if id in t.entries { MergedWrites(t.entries[id].notification.content, update); }
  }

  lemma PreparedKeys(s: State, now: Instant, wall: WallTime)
    requires Inv(s) && s.lastNow <= now
    ensures var t := Prepare(s, now, wall);
            Derived(s.entries, t.entries) && Keyed(s.entries, s.liveKeys) && Keyed(t.entries, t.liveKeys)
  {
    hide Inv, Core, Prepare, Derived, ClosedSome, Tuned, Exact, Keyed, Contained, SequencesUnique, NoncesUnique,
      EntriesOk, TimersStarted, HistoryOk;
    PrepareKeeps(s, now, wall);
    InvIsCore(s);
    InvIsCore(Prepare(s, now, wall));
    CoreParts(s);
    CoreParts(Prepare(s, now, wall));
  }

  lemma KeyedMatches(s: State, c: Call)
    requires Inv(s) && s.lastNow <= c.now && c.action.UpdatingKeyed?
    ensures EditsMatch(s, Edits(s, c), Written(Prepare(s, c.now, c.wall), c.action))
  {
    hide Inv, Prepare, Derived, ApplyUpdate, EditsMatch, TailEdits, Keyed;
    var t := Prepare(s, c.now, c.wall);
    var key := c.action.key;
    PreparedKeys(s, c.now, c.wall);
    NoEdits(s);
    if key in t.liveKeys {
      KeyStays(s, t, key);
      UpdateMatches(s, t, t.liveKeys[key], c.action.update, c.now, c.wall);
    }
  }

  lemma EditsAreWritten(s: State, c: Call)
    requires Inv(s) && s.lastNow <= c.now
    ensures EditsMatch(s, Edits(s, c), Written(Prepare(s, c.now, c.wall), c.action))
  {
    if c.action.Submitting? {
      SubmitMatches(s, c);
    } else if c.action.UpdatingKeyed? {
      KeyedMatches(s, c);
    } else {
      hide Inv, Prepare, Derived, ApplyUpdate, EditsMatch, TailEdits, Keyed;
      PreparedKeys(s, c.now, c.wall);
      NoEdits(s);
      if c.action.Updating? {
        UpdateMatches(s, Prepare(s, c.now, c.wall), c.action.id, c.action.update, c.now, c.wall);
      }
    }
  }

  lemma NoEdits(s: State)
    ensures EditsMatch(s, map[], map[])
  {
  }

  lemma CarriesTells(s: State, r: State, edits: map<NotificationId, Edit>, written: map<NotificationId, Draft>)
    requires Carries(s, r, written) && EditsMatch(s, edits, written)
    ensures ContentsTell(s, r, edits)
  {
    hide Follows, SameFace, ClosedFace, NewlyClosed, InTurn;
  }

  lemma StillTells(s: State, r: State)
    requires Carries(s, r, map[])
    ensures ContentsTell(s, r, map[])
  {
    hide SameFace, ClosedFace, NewlyClosed, InTurn;
  }

  /** Every call: what its answer says it wrote is there, field by field, and everything else,
      live or recorded, says what it said before. */
  lemma StepContents(s: State, c: Call)
    requires Inv(s) && Legal(s, c)
    ensures ContentsTell(s, Next(s, c), Edits(s, c))
  {
    hide Inv, Core, Prepare, Derived, EditsMatch, ClosedSome, Tuned, Exact, Rejected, TailOf, RunTail, TailAllowed,
      Perform, Carries, Written, NewlyClosed, ContentsTell, Edits;
    if c.action.Draining? || Rejected(s, c) || c.now < s.lastNow {
      RefusedContents(s, c);
    } else {
      var t := Prepare(s, c.now, c.wall);
      var r := Next(s, c);
      PerformShape(s, c);
      PrepareKeeps(s, c.now, c.wall);
      PrepareCarries(s, c.now, c.wall);
      InvIsCore(s);
      InvIsCore(t);
      CallCarries(s, t, c);
      WrittenWhere(s, t, c);
      CarriesLog(s, t);
      CoreHistory(t);
      ClosedElsewhere(s, t, Written(t, c.action));
      WrittenStays(s, t, Written(t, c.action));
      CarriesInto(s, t, r, Written(t, c.action));
      EditsAreWritten(s, c);
      CarriesTells(s, r, Edits(s, c), Written(t, c.action));
    }
  }

  lemma CarriesLog(s: State, t: State)
    requires Carries(s, t, map[])
    ensures s.history.log <= t.history.log
  {
  }

  lemma RefusedContents(s: State, c: Call)
    requires c.action.Draining? || Rejected(s, c) || c.now < s.lastNow
    ensures ContentsTell(s, Next(s, c), Edits(s, c))
  {
    hide Prepare, ContentsTell;
    assert Next(s, c).entries == s.entries && Next(s, c).history.log == s.history.log && Edits(s, c) == map[];
    CarriesNothing(s, Next(s, c));
    StillTells(s, Next(s, c));
  }

  /** The Notification has what the update named, and no other changed what it says. */
  ghost predicate OnlyWrote(before: Entries, after: Entries, id: NotificationId, update: Update) {
    && id in before && id in after
    && Wrote(before[id].notification.content, update, after[id].notification.content)
    && forall x :: x in after && x != id ==> x in before && SameFace(before[x].notification, after[x].notification)
  }

  lemma ApplyWrites(s: State, t: State, id: NotificationId, update: Update, now: Instant, wall: WallTime)
    requires Carries(s, t, map[]) && id in t.entries
    ensures OnlyWrote(s.entries, ApplyUpdate(t, id, update, now, wall).0.entries, id, update)
  {
    hide SortPending, Merged, Wrote, InTurn, NewlyClosed;
    MergedWrites(t.entries[id].notification.content, update);
    ReviseCarries(t, id, update, now, wall);
    AppliedKeeps(t, id, update, now, wall);
  }

  lemma StillCarries(s: State)
    ensures Carries(s, s, map[])
  {
    CarriesNothing(s, s);
  }

  lemma AppliedKeeps(t: State, id: NotificationId, update: Update, now: Instant, wall: WallTime)
    ensures ApplyUpdate(t, id, update, now, wall).0.entries.Keys == t.entries.Keys
    ensures ApplyUpdate(t, id, update, now, wall).1.Ok? ==> id in t.entries
  {
    hide SortRanked, Merged;
  }

  lemma UpdateWrites(s: State, id: NotificationId, update: Update, now: Instant, wall: WallTime)
    requires Inv(s)
    ensures var (r, a) := UpdateById(s, id, update, now, wall);
            a.Ok? ==> OnlyWrote(s.entries, r.entries, id, update)
  {
    hide Inv, Prepare, ApplyUpdate, OnlyWrote, Carries;
    if s.lastNow <= now && UpdateById(s, id, update, now, wall).1.Ok? {
      PrepareCarries(s, now, wall);
      AppliedKeeps(Prepare(s, now, wall), id, update, now, wall);
      ApplyWrites(s, Prepare(s, now, wall), id, update, now, wall);
    }
  }

  lemma KeyedUpdateWrites(s: State, key: Key, update: Update, now: Instant, wall: WallTime)
    requires Inv(s)
    ensures var (r, a) := UpdateByKey(s, key, update, now, wall);
            a.Ok? ==> key in s.liveKeys && OnlyWrote(s.entries, r.entries, s.liveKeys[key], update)
  {
    hide Inv, Prepare, ApplyUpdate, OnlyWrote, Carries, Derived, Keyed;
    if s.lastNow <= now && UpdateByKey(s, key, update, now, wall).1.Ok? {
      var t := Prepare(s, now, wall);
      PrepareCarries(s, now, wall);
      PreparedKeys(s, now, wall);
      KeyStays(s, t, key);
      ApplyWrites(s, t, t.liveKeys[key], update, now, wall);
    }
  }

  // ---------- whole runs ----------

  lemma {:induction false} RunLast(s: State, calls: seq<Call>)
    requires LegalRun(s, calls) && calls != []
    ensures var init, last := calls[..|calls| - 1], calls[|calls| - 1];
            LegalRun(s, init) && Legal(Run(s, init), last) && Run(s, calls) == Next(Run(s, init), last)
    decreases |calls|
  {
    hide Legal, Next;
    var init := calls[..|calls| - 1];
    if |calls| == 1 {
      assert calls[1..] == [] && init == [];
    } else {
      RunLast(Next(s, calls[0]), calls[1..]);
      assert calls[1..][..|calls| - 2] == init[1..];
    }
  }

  /** Everything written about a Notification over a run, in order. */
  ghost function EditsOf(s: State, calls: seq<Call>, id: NotificationId): seq<Edit>
    decreases |calls|
  {
    if calls == [] then []
    else
      var init, last := calls[..|calls| - 1], calls[|calls| - 1];
      var now := Edits(Run(s, init), last);
      if id in now then EditsOf(s, init, id) + [now[id]] else EditsOf(s, init, id)
  }

  /** The content these edits make, one after the other. */
  ghost predicate Made(edits: seq<Edit>, content: Draft)
    decreases |edits|
  {
    edits != [] &&
    match edits[|edits| - 1]
    case Drafted(draft) => content == draft
    case Changed(update) => exists before: Draft :: Made(edits[..|edits| - 1], before) && Wrote(before, update, content)
  }

  /** Every Notification live or recorded has the content its edits make, and the mark of a
      jump exactly if it was closed by one. */
  ghost predicate AllMade(s0: State, calls: seq<Call>) {
    var s := Run(s0, calls);
    && (forall id :: id in s.entries ==>
          && Made(EditsOf(s0, calls, id), s.entries[id].notification.content)
          && s.entries[id].notification.lastJumpedAt.None?)
    && (forall n :: n in s.history.log ==>
          Made(EditsOf(s0, calls, n.id), n.content) && (n.lastJumpedAt.Some? <==> n.closeReason == Some(Jumped)))
  }

  lemma MadeNext(edits: seq<Edit>, s: State, id: NotificationId, e: Edit, content: Draft)
    requires Follows(s, id, e, content)
    requires id in s.entries ==> Made(edits, s.entries[id].notification.content)
    ensures Made(edits + [e], content)
  {
    assert (edits + [e])[..|edits|] == edits;
  }

  /** A closed Notification is never written again. */
  lemma ClosedUnwritten(s: State, c: Call, n: Notification)
    requires Inv(s) && Legal(s, c) && n in s.history.log
    ensures n.id !in Edits(s, c)
  {
    hide Inv, Core, Prepare, EditsMatch, ClosedSome, Tuned, Exact, Rejected, TailOf, TailAllowed, Written, Edits,
      Derived;
    if c.action.Draining? || Rejected(s, c) || c.now < s.lastNow {
      RefusedEdits(s, c);
    } else {
      var t := Prepare(s, c.now, c.wall);
      PrepareKeeps(s, c.now, c.wall);
      PrepareCarries(s, c.now, c.wall);
      CarriesLog(s, t);
      InvIsCore(t);
      WrittenWhere(s, t, c);
      EditsAreWritten(s, c);
      CoreHistory(t);
      LoggedIsOut(t, n);
      SameKeys(s, Edits(s, c), Written(t, c.action));
    }
  }

  lemma SameKeys(s: State, edits: map<NotificationId, Edit>, written: map<NotificationId, Draft>)
    requires EditsMatch(s, edits, written)
    ensures edits.Keys == written.Keys
  {
  }

  lemma LoggedIsOut(t: State, n: Notification)
    requires HistoryOk(t.entries.Keys, t.history) && n in t.history.log
    ensures n.id !in t.entries && n.id in t.history.submitted
  {
    assert n.id in LogIds(t.history.log);
  }

  lemma RefusedEdits(s: State, c: Call)
    requires c.action.Draining? || Rejected(s, c) || c.now < s.lastNow
    ensures Edits(s, c) == map[]
  {
    hide Prepare;
  }

  lemma LiveMade(s0: State, calls: seq<Call>, id: NotificationId)
    requires calls != [] && LegalRun(s0, calls) && Inv(s0) && AllMade(s0, calls[..|calls| - 1])
    requires id in Run(s0, calls).entries
    ensures var n := Run(s0, calls).entries[id].notification;
            Made(EditsOf(s0, calls, id), n.content) && n.lastJumpedAt.None?
  {
    var init, last := calls[..|calls| - 1], calls[|calls| - 1];
    var s := Run(s0, init);
    RunLast(s0, calls);
    hide Inv, LegalRun, Run, Legal, Next, Made, Edits, Follows;
    RunKeeps(s0, init);
    StepContents(s, last);
    if id in Edits(s, last) {
      MadeNext(EditsOf(s0, init, id), s, id, Edits(s, last)[id], Run(s0, calls).entries[id].notification.content);
    }
  }

  lemma RecordMade(s0: State, calls: seq<Call>, n: Notification)
    requires calls != [] && LegalRun(s0, calls) && Inv(s0) && AllMade(s0, calls[..|calls| - 1])
    requires n in Run(s0, calls).history.log
    ensures Made(EditsOf(s0, calls, n.id), n.content) && (n.lastJumpedAt.Some? <==> n.closeReason == Some(Jumped))
  {
    var init, last := calls[..|calls| - 1], calls[|calls| - 1];
    var s := Run(s0, init);
    RunLast(s0, calls);
    hide Inv, LegalRun, Run, Legal, Next, Made, Edits, Follows;
    RunKeeps(s0, init);
    StepContents(s, last);
    if n in s.history.log {
      ClosedUnwritten(s, last, n);
    } else {
      NewRecord(s.history.log, Run(s0, calls).history.log, n);
      assert n in NewlyClosed(s, Run(s0, calls));
      if n.id in Edits(s, last) {
        MadeNext(EditsOf(s0, init, n.id), s, n.id, Edits(s, last)[n.id], n.content);
      }
    }
  }

  lemma NewRecord<T>(a: seq<T>, b: seq<T>, x: T)
    requires a <= b && x in b && x !in a
    ensures x in b[|a|..]
  {
    assert b == a + b[|a|..];
  }

  lemma {:induction false} RunMade(s0: State, calls: seq<Call>)
    requires Inv(s0) && LegalRun(s0, calls) && s0.entries == map[] && s0.history.log == []
    ensures AllMade(s0, calls)
    decreases |calls|
  {
    hide Inv, LegalRun, Legal, Next, Made, EditsOf;
    if calls != [] {
      RunLast(s0, calls);
      RunMade(s0, calls[..|calls| - 1]);
      hide Run;
      forall id | id in Run(s0, calls).entries
        ensures var n := Run(s0, calls).entries[id].notification;
                Made(EditsOf(s0, calls, id), n.content) && n.lastJumpedAt.None?
      {
        LiveMade(s0, calls, id);
      }
      forall n | n in Run(s0, calls).history.log
        ensures Made(EditsOf(s0, calls, n.id), n.content) && (n.lastJumpedAt.Some? <==> n.closeReason == Some(Jumped))
      {
        RecordMade(s0, calls, n);
      }
    }
  }

  /** Over every run, every Notification, live or recorded, says what was last submitted for it
      with the updates accepted since, each naming exactly the fields it changed; and it is
      marked as jumped to exactly if a jump closed it. */
  lemma ContentIsItsEdits(limits: Limits, start: Instant, calls: seq<Call>)
    requires LegalRun(New(limits, start), calls)
    ensures AllMade(New(limits, start), calls)
  {
    hide Inv, Exact, LegalRun, AllMade;
    NewIsGood(limits, start);
    RunMade(New(limits, start), calls);
  }
}
