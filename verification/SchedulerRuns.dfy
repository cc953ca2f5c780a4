/** Runs of the scheduler: any sequence of operations at any times, and what holds over all of them. */
module SchedulerRuns {
  import opened Wrappers
  import opened Notifications
  import opened Seqs
  import opened SchedulerModel
  import opened SchedulerInvariant
  import opened SchedulerSteps
  import opened SchedulerOperations

  /** One call of the scheduler's interface. */
  datatype Action =
    | Submitting(draft: Draft, newId: NotificationId)
    | Updating(id: NotificationId, update: Update)
    | UpdatingKeyed(key: Key, update: Update)
    | Dismissing(id: NotificationId)
    | DismissingKeyed(key: Key)
    | RenderFailing(id: NotificationId)
    | ShuttingDown(reason: ShutdownReason, order: seq<NotificationId>)
    | SettingAvailable(available: bool)
    | SettingLimits(limits: Limits)
    | Advancing
    | BeginningJump(id: NotificationId)
    | BeginningJumpKeyed(key: Key)
    | CancellingJump(intent: JumpIntent)
    | CommittingJump(intent: JumpIntent)
    | Draining

  datatype Call = Call(action: Action, now: Instant, wall: WallTime)

  function Failure<T>(r: Result<T, SchedulerError>): Option<SchedulerError> {
    match r case Ok(_) => None case Err(e) => Some(e)
  }

  function Perform(s: State, c: Call): (State, Option<SchedulerError>) {
    match c.action
    case Submitting(draft, newId) => var (t, r) := Submit(s, draft, newId, c.now, c.wall); (t, Failure(r))
    case Updating(id, update) => var (t, r) := UpdateById(s, id, update, c.now, c.wall); (t, Failure(r))
    case UpdatingKeyed(key, update) => var (t, r) := UpdateByKey(s, key, update, c.now, c.wall); (t, Failure(r))
    case Dismissing(id) => var (t, r) := CloseLive(s, id, Dismissed, c.now, c.wall); (t, Failure(r))
    case DismissingKeyed(key) => var (t, r) := DismissByKey(s, key, c.now, c.wall); (t, Failure(r))
    case RenderFailing(id) => var (t, r) := CloseLive(s, id, RenderFailed, c.now, c.wall); (t, Failure(r))
    case ShuttingDown(reason, order) => var (t, r) := Shutdown(s, reason, order, c.now, c.wall); (t, Failure(r))
    case SettingAvailable(a) => var (t, r) := SetDisplayAvailable(s, a, c.now, c.wall); (t, Failure(r))
    case SettingLimits(l) => var (t, r) := UpdateLimits(s, l, c.now, c.wall); (t, Failure(r))
    case Advancing => var (t, r) := Advance(s, c.now, c.wall); (t, Failure(r))
    case BeginningJump(id) => var (t, r) := BeginJump(s, id, c.now, c.wall); (t, Failure(r))
    case BeginningJumpKeyed(key) => var (t, r) := BeginJumpByKey(s, key, c.now, c.wall); (t, Failure(r))
    case CancellingJump(i) => var (t, r) := CancelJump(s, i, c.now, c.wall); (t, Failure(r))
    case CommittingJump(i) => var (t, r) := CommitJump(s, i, c.now, c.wall); (t, Failure(r))
    case Draining => (DrainClosed(s).0, None)
  }

  function Next(s: State, c: Call): State {
    Perform(s, c).0
  }

  // ---------- what an operation does once time has been prepared ----------

  datatype Tail =
    | Stay
    | CloseOne(id: NotificationId, reason: CloseReason)
    | CloseEvery(order: seq<NotificationId>, reason: CloseReason)
    | Upsert(id: NotificationId, draft: Draft)
    | Place(id: NotificationId, draft: Draft)
    | Revise(id: NotificationId, update: Update)
    | MakeAvailable(available: bool)
    | Relimit(limits: Limits)
    | Pin(id: NotificationId)
    | Unpin(intent: JumpIntent)

  /** The operation stops before it looks at the clock. */
  predicate Rejected(s: State, c: Call) {
    || (c.action.DismissingKeyed? && c.action.key !in s.liveKeys)
    || (c.action.CommittingJump? && !Outstanding(s, c.action.intent))
  }

  function TailOf(s: State, t: State, a: Action): Tail {
    match a
    case Submitting(draft, newId) =>
      if !KeyIsLive(t, draft) then Place(newId, draft)
      else if t.entries[t.liveKeys[draft.key.value]].notification.content == draft then Stay
      else Upsert(t.liveKeys[draft.key.value], draft)
    case Updating(id, update) => Revise(id, update)
    case UpdatingKeyed(key, update) => if key in t.liveKeys then Revise(t.liveKeys[key], update) else Stay
    case Dismissing(id) => CloseOne(id, Dismissed)
    case DismissingKeyed(key) => if key in s.liveKeys then CloseOne(s.liveKeys[key], Dismissed) else Stay
    case RenderFailing(id) => CloseOne(id, RenderFailed)
    case ShuttingDown(reason, order) => CloseEvery(order, reason.Reason())
    case SettingAvailable(a) => MakeAvailable(a)
    case SettingLimits(l) => if l == t.limits then Stay else Relimit(l)
    case Advancing => Stay
    case BeginningJump(id) => Pin(id)
    case BeginningJumpKeyed(key) => if key in t.liveKeys then Pin(t.liveKeys[key]) else Stay
    case CancellingJump(i) => Unpin(i)
    case CommittingJump(i) => CloseOne(i.id, Jumped)
    case Draining => Stay
  }

  ghost function RunTail(t: State, tail: Tail, now: Instant, wall: WallTime): State {
    match tail
    case Stay => t
    case CloseOne(id, reason) =>
      if id in t.entries && t.entries[id].notification.delivery != Closed
      then Rebalance(CloseInner(t, id, reason, wall), now, wall) else t
    case CloseEvery(order, reason) => CloseAll(t, order, reason, wall)
    case Upsert(id, draft) => if id in t.entries then Upserted(t, id, draft, now, wall) else t
    case Place(id, draft) => BumpContent(Enforce(Placed(t, id, draft, now, wall), wall))
    case Revise(id, update) => ApplyUpdate(t, id, update, now, wall).0
    case MakeAvailable(a) =>
      Rebalance(if t.available != a then BumpRevision(t.(available := a)) else t, now, wall)
    case Relimit(l) =>
      var u := Enforce(Relimited(t, l, now, wall), wall);
      BumpContent(u.(closed := LastN(u.closed, u.closedCapacity)))
    case Pin(id) => BeginJumpInner(t, id).0
    case Unpin(intent) => if Outstanding(t, intent) then Repinned(t, intent.id, None, true) else t
  }

  /** Every operation is: reject, or prepare time and then do its tail. */
  lemma PerformShape(s: State, c: Call)
    requires !c.action.Draining?
    ensures Rejected(s, c) || c.now < s.lastNow ==> Next(s, c) == s && Perform(s, c).1.Some?
    ensures !Rejected(s, c) && c.now < s.lastNow ==> Perform(s, c).1 == Some(TimeWentBackwards)
    ensures !Rejected(s, c) && s.lastNow <= c.now ==>
      var t := Prepare(s, c.now, c.wall);
      t.lastNow == c.now ==> Next(s, c) == RunTail(t, TailOf(s, t, c.action), c.now, c.wall)
  {
    hide Prepare, Rebalance, CloseInner, CloseAll, Enforce, Relimited, Placed, Upserted, ApplyUpdate, BeginJumpInner;
  }

  // ---------- legality ----------

  /** What callers and the environment guarantee: a new id was never used before, the map
      order enumerates the live ids, and the pending limit finds enough unpinned
      Notifications to give up (see `FewJumpsNeverPanic`). */
  ghost predicate TailAllowed(t: State, tail: Tail, now: Instant, wall: WallTime) {
    match tail
    case Place(id, draft) =>
      id !in t.history.submitted && !KeyIsLive(t, draft) && !OverPinned(Placed(t, id, draft, now, wall))
    case CloseEvery(order, _) => ToSet(order) == t.entries.Keys
    case Relimit(l) => !OverPinned(Relimited(t, l, now, wall))
    case Upsert(id, draft) => id in t.entries && draft.key == t.entries[id].Key()
    case _ => true
  }

  ghost predicate Legal(s: State, c: Call) {
    c.action.Draining? || Rejected(s, c) || c.now < s.lastNow
    || var t := Prepare(s, c.now, c.wall);
       TailAllowed(t, TailOf(s, t, c.action), c.now, c.wall)
  }

  /** The operation restarts the timer of a toast that a jump pins. */
  predicate TailUnpins(t: State, tail: Tail) {
    tail.Revise? && UpdateUnpins(t, tail.id, tail.update)
  }

  predicate Unpins(s: State, c: Call) {
    !c.action.Draining? && !Rejected(s, c) && s.lastNow <= c.now
    && var t := Prepare(s, c.now, c.wall);
       TailUnpins(t, TailOf(s, t, c.action))
  }

  // ---------- the invariant over every operation ----------

  function NewIds(tail: Tail): set<NotificationId> {
    if tail.Place? then {tail.id} else {}
  }

  lemma AfterKeeps(t: State, tail: Tail, now: Instant, wall: WallTime)
    requires Inv(t) && Tuned(t) && t.lastNow == now && TailAllowed(t, tail, now, wall)
    ensures var r := RunTail(t, tail, now, wall);
            && Inv(r) && r.lastNow == now
            && (Exact(t) ==> (Exact(r) <==> !TailUnpins(t, tail)))
            && (!tail.Relimit? ==> r.limits == t.limits)
            && r.entries.Keys <= t.entries.Keys + NewIds(tail)
  {
    hide Inv, Tuned, Exact, OverPinned, Rebalance, CloseInner, CloseAll, Enforce, Relimited, Placed, Upserted,
      ApplyUpdate, BeginJumpInner, UpdateUnpins, Outstanding, Repinned;
    match tail
    case Stay => ExactTuned(t);
    case CloseOne(id, reason) =>
      if id in t.entries { CloseTailKeeps(t, id, reason, now, wall); }
    case CloseEvery(order, reason) => ShutdownKeeps(t, order, reason, wall);
    case Upsert(id, draft) => UpsertKeeps(t, id, draft, now, wall);
    case Place(id, draft) => SubmitNewKeeps(t, id, draft, now, wall);
    case Revise(id, update) => ApplyUpdateKeeps(t, id, update, now, wall);
    case MakeAvailable(a) => AvailableKeeps(t, a, now, wall);
    case Relimit(l) => UpdateLimitsKeeps(t, l, now, wall);
    case Pin(id) => BeginJumpKeeps(t, id);
    case Unpin(intent) =>
      if Outstanding(t, intent) { CancelTailKeeps(t, intent); UnpinFields(t, intent); }
  }

  lemma ExactTuned(t: State)
    ensures Exact(t) ==> Tuned(t)
  {
    hide Tuned, Tallied, Unspent;
  }

  lemma UnpinFields(t: State, intent: JumpIntent)
    requires Outstanding(t, intent)
    ensures var r := Repinned(t, intent.id, None, true); r.lastNow == t.lastNow && r.limits == t.limits
  {
  }

  lemma TailOfAllowed(s: State, t: State, a: Action)
    requires Core(t)
    ensures var tail := TailOf(s, t, a);
            tail.Upsert? ==> tail.id in t.entries && tail.draft.key == t.entries[tail.id].Key()
  {
    CoreParts(t);
  }

  lemma DrainKeeps(s: State)
    requires Inv(s)
    ensures Inv(DrainClosed(s).0) && (Exact(s) ==> Exact(DrainClosed(s).0))
  {
    var r := DrainClosed(s).0;
    hide Core, Ranked;
    DrainCore(s);
    if Exact(s) { DrainExact(s); }
  }

  lemma DrainCore(s: State)
    requires Core(s)
    ensures Core(DrainClosed(s).0)
  {
    hide Core, Contained, SequencesUnique, NoncesUnique, Keyed, EntriesOk, TimersStarted;
    CoreParts(s);
    CoreJoin(DrainClosed(s).0);
  }

  lemma DrainExact(s: State)
    requires Exact(s)
    ensures Exact(DrainClosed(s).0)
  {
    var r := DrainClosed(s).0;
    hide Unspent;
    forall id | id in r.entries ensures TalliedEntry(r, id, r.entries[id]) && TunedEntry(r, id, r.entries[id]) {
      assert TalliedEntry(s, id, s.entries[id]) && TunedEntry(s, id, s.entries[id]);
    }
  }

  /** Every operation, on every path including its errors, keeps the invariant; it keeps
      the timers exact if and only if it does not restart a pinned toast's timer. */
  lemma StepKeeps(s: State, c: Call)
    requires Inv(s) && Legal(s, c)
    ensures Inv(Next(s, c))
    ensures Exact(s) ==> (Exact(Next(s, c)) <==> !Unpins(s, c))
  {
    hide Core, Tuned, Exact, TailAllowed, TailUnpins, RunTail, TailOf, Prepare;
    if c.action.Draining? {
      DrainKeeps(s);
    } else {
      PerformShape(s, c);
      if !Rejected(s, c) && s.lastNow <= c.now {
        PrepareKeeps(s, c.now, c.wall);
        var t := Prepare(s, c.now, c.wall);
        AfterKeeps(t, TailOf(s, t, c.action), c.now, c.wall);
      }
    }
  }
}
