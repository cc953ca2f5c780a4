/** The live scheduler as a value: one function per public operation.

    Every function here follows one method of `LiveScheduler`. The class in
    LiveScheduler.dfy is proved to compute exactly these functions; the laws about
    them are in the other Scheduler files. */
module SchedulerModel {
  import opened Wrappers
  import opened Notifications
  import opened Seqs

  datatype SchedulerError =
    | TimeWentBackwards | NotificationNotLive | KeyNotLive
    | MissingSource | JumpAlreadyPending | StaleJumpIntent

  datatype LimitValues = Limits(maxPending: nat, maxVisible: nat)
  /** `SchedulerLimits::new` rejects zero. */
  type Limits = l: LimitValues | l.maxPending > 0 && l.maxVisible > 0 witness Limits(1, 1)

  datatype SubmitDisposition = Queued | Visible | Updated | Duplicate | Suppressed
  datatype UpdateDisposition = Updated | Duplicate
  datatype SubmitOutcome = SubmitOutcome(id: NotificationId, disposition: SubmitDisposition)
  datatype ShutdownReason = ByInterrupt | ByStop | ByServerEnd {
    function Reason(): CloseReason {
      match this
      case ByInterrupt => DaemonInterrupted
      case ByStop => DaemonStopped
      case ByServerEnd => ServerEnded
    }
  }
  datatype JumpIntent = JumpIntent(id: NotificationId, nonce: nat, source: SourceContext)
  datatype DisplayPlan = DisplayPlan(revision: nat, attention: Option<NotificationId>, toasts: seq<NotificationId>)

  datatype TimeoutState = Untimed | Remaining(duration: Duration, runningSince: Option<Instant>) {
    /** The state after `set_running`; the subtraction saturates as in the source. */
    function Switched(now: Instant, running: bool): TimeoutState {
      match this
      case Untimed => this
      case Remaining(_, None) => if running then this.(runningSince := Some(now)) else this
      case Remaining(d, Some(start)) =>
        if running then this
        else Remaining(if start <= now && now - start <= d then d - (now - start) else 0, None)
    }

    function SetRunning(now: Instant, running: bool): Result<TimeoutState, SchedulerError> {
      if Remaining? && runningSince.Some? && now < runningSince.value
      then Err(TimeWentBackwards) else Ok(Switched(now, running))
    }

    predicate Expired(now: Instant) {
      Remaining? && runningSince.Some? && runningSince.value <= now
      && now - runningSince.value >= duration
    }
  }

  function Restarted(timeout: Timeout, now: Instant, running: bool): TimeoutState {
    match timeout
    case After(d) => Remaining(d, if running then Some(now) else None)
    case NeverExpires => Untimed
  }

  datatype LiveEntry = LiveEntry(
    notification: Notification,
    sequence: nat,
    timeout: TimeoutState,
    jumpNonce: Option<nat>)
  {
    function Presentation(): Presentation { notification.content.presentation }
    function Key(): Option<Key> { notification.content.key }
    function Timeout(): Timeout { notification.content.timeout }
    function Rank(): nat { notification.content.priority.Rank() }
  }

  type Entries = map<NotificationId, LiveEntry>

  /** What the run has done so far. No operation reads it:
      `submitted` are the ids ever given out, `log` every close in order, `forwarded`
      everything drained, and `shown` how long each live Notification has been
      displayed since its content last changed. */
  datatype History = History(
    submitted: set<NotificationId>,
    log: seq<Notification>,
    forwarded: seq<Notification>,
    shown: map<NotificationId, Duration>)

  datatype State = State(
    limits: Limits,
    entries: Entries,
    closed: seq<Notification>,
    closedCapacity: nat,
    liveKeys: map<Key, NotificationId>,
    pending: seq<NotificationId>,
    active: seq<NotificationId>,
    attention: Option<NotificationId>,
    available: bool,
    nextSequence: nat,
    nextNonce: nat,
    revision: nat,
    contentRevision: nat,
    lastNow: Instant,
    history: History)
  {
    /** `is_desired_visible`: on screen right now. */
    predicate OnScreen(id: NotificationId) {
      available && (attention == Some(id) || (attention.None? && id in active))
    }

    /** `toast_timer_should_run`. */
    predicate ToastOnScreen(id: NotificationId) {
      available && attention.None? && id in active
    }

    /** A displayed toast that no jump pins: the only ones whose timeout may run. */
    predicate Ticking(id: NotificationId) {
      ToastOnScreen(id) && id in entries && entries[id].jumpNonce.None?
    }
  }

  function Capacity(limits: Limits): nat {
    limits.maxPending + limits.maxVisible + 1
  }

  function New(limits: Limits, now: Instant): State {
    State(limits, map[], [], Capacity(limits), map[], [], [], None, false, 0, 0, 0, 0, now,
          History({}, [], [], map[]))
  }

  // ---------- ordering ----------

  /** Priority descending, then submission order. */
  predicate Precedes(e: Entries, a: NotificationId, b: NotificationId) {
    a in e && b in e
    && (e[a].Rank() > e[b].Rank() || (e[a].Rank() == e[b].Rank() && e[a].sequence < e[b].sequence))
  }

  function InsertRanked(e: Entries, s: seq<NotificationId>, id: NotificationId): seq<NotificationId> {
    if s == [] then [id]
    else if Precedes(e, id, s[0]) then [id] + s
    else [s[0]] + InsertRanked(e, s[1..], id)
  }

  /** The stable `sort_by` of the pending queue. */
  function SortRanked(e: Entries, s: seq<NotificationId>): seq<NotificationId> {
    if s == [] then [] else InsertRanked(e, SortRanked(e, s[..|s| - 1]), s[|s| - 1])
  }

  function SortPending(s: State): State {
    s.(pending := SortRanked(s.entries, s.pending))
  }

  /** Index of the first queued id of the given presentation, or |ids|. */
  function FirstOf(e: Entries, ids: seq<NotificationId>, p: Presentation): (i: nat)
    ensures i <= |ids|
    ensures i < |ids| ==> ids[i] in e && e[ids[i]].Presentation() == p
    ensures forall j :: 0 <= j < i ==> !(ids[j] in e && e[ids[j]].Presentation() == p)
  {
    if ids == [] then 0
    else if ids[0] in e && e[ids[0]].Presentation() == p then 0
    else 1 + FirstOf(e, ids[1..], p)
  }

  // ---------- shared internal steps ----------

  function BumpRevision(s: State): State {
    s.(revision := s.revision + 1)
  }

  function BumpContent(s: State): State {
    s.(contentRevision := s.contentRevision + 1, revision := s.revision + 1)
  }

  function PushClosed(closed: seq<Notification>, capacity: nat, n: Notification): seq<Notification> {
    (if |closed| == capacity && closed != [] then closed[1..] else closed) + [n]
  }

  function CloseInner(s: State, id: NotificationId, reason: CloseReason, wall: WallTime): State {
    if id !in s.entries then s
    else
      var n := s.entries[id].notification.Close(reason, wall);
      s.(entries := s.entries - {id},
         liveKeys := if n.content.key.Some? then s.liveKeys - {n.content.key.value} else s.liveKeys,
         pending := Without(s.pending, id),
         active := Without(s.active, id),
         attention := if s.attention == Some(id) then None else s.attention,
         closed := PushClosed(s.closed, s.closedCapacity, n),
         contentRevision := s.contentRevision + 1,
         revision := s.revision + 1,
         history := s.history.(log := s.history.log + [n], shown := s.history.shown - {id}))
  }

  function CloseAll(s: State, ids: seq<NotificationId>, reason: CloseReason, wall: WallTime): State
    decreases |ids|
  {
    if ids == [] then s else CloseAll(CloseInner(s, ids[0], reason, wall), ids[1..], reason, wall)
  }

  function PickAttention(s: State): State {
    var i := FirstOf(s.entries, s.pending, Attention);
    if s.available && s.attention.None? && i < |s.pending|
    then s.(attention := Some(s.pending[i]), pending := RemoveAt(s.pending, i))
    else s
  }

  /** The first queued toast moves to the end of the active list until that is full. */
  function Fill(e: Entries, pending: seq<NotificationId>, active: seq<NotificationId>, maxVisible: nat)
    : (r: (seq<NotificationId>, seq<NotificationId>))
    decreases |pending|
  {
    var i := FirstOf(e, pending, Toast);
    if |active| < maxVisible && i < |pending|
    then Fill(e, RemoveAt(pending, i), active + [pending[i]], maxVisible)
    else (pending, active)
  }

  function FillToasts(s: State): State {
    if s.available && s.attention.None?
    then
      var (pending, active) := Fill(s.entries, s.pending, s.active, s.limits.maxVisible);
      s.(pending := pending, active := active)
    else s
  }

  function MarkVisible(s: State, wall: WallTime): State {
    s.(entries := map id | id in s.entries ::
         if s.OnScreen(id)
         then s.entries[id].(notification := s.entries[id].notification.MarkVisible(wall))
         else s.entries[id])
  }

  function SetTimers(s: State, now: Instant): State {
    s.(entries := map id | id in s.entries ::
         if id in s.active
         then s.entries[id].(timeout := s.entries[id].timeout.Switched(now, s.Ticking(id)))
         else s.entries[id])
  }

  function Rebalance(s: State, now: Instant, wall: WallTime): State {
    SetTimers(MarkVisible(FillToasts(PickAttention(s)), wall), now)
  }

  /** Time passes: every ticking toast has been shown that much longer. */
  function Elapse(s: State, now: Instant): State
    requires s.lastNow <= now
  {
    s.(lastNow := now,
       history := s.history.(shown := map id | id in s.history.shown ::
         s.history.shown[id] + if s.Ticking(id) then now - s.lastNow else 0))
  }

  function ExpiredIn(e: Entries, ids: seq<NotificationId>, now: Instant): (r: seq<NotificationId>)
    ensures forall id :: id in r <==> id in ids && id in e && e[id].timeout.Expired(now)
  {
    if ids == [] then []
    else (if ids[0] in e && e[ids[0]].timeout.Expired(now) then [ids[0]] else [])
         + ExpiredIn(e, ids[1..], now)
  }

  /** Every active toast whose running timer is used up closes. */
  function Expire(s: State, wall: WallTime): State {
    CloseAll(s, ExpiredIn(s.entries, s.active, s.lastNow), TimedOut, wall)
  }

  function Prepare(s: State, now: Instant, wall: WallTime): State
    requires s.lastNow <= now
  {
    Rebalance(Expire(Elapse(s, now), wall), now, wall)
  }

  /** Index of the worst-ranked queued id that no jump pins, or |ids| when all are pinned. */
  function LastUnpinned(e: Entries, ids: seq<NotificationId>): (i: nat)
    ensures i <= |ids|
    ensures i < |ids| ==> ids[i] in e && e[ids[i]].jumpNonce.None?
    ensures forall j :: 0 <= j < |ids| && (i == |ids| || i < j) ==> !(ids[j] in e && e[ids[j]].jumpNonce.None?)
  {
    if ids == [] then 0
    else
      var n := |ids| - 1;
      if ids[n] in e && e[ids[n]].jumpNonce.None? then n
      else
        var i := LastUnpinned(e, ids[..n]);
        assert forall j :: 0 <= j < n ==> ids[..n][j] == ids[j];
        if i == n then |ids| else i
  }

  /** `enforce_pending_limit`. The source panics when the queue is over its limit and
      every queued Notification is pinned; this function stops there (see `OverPinned`). */
  function Enforce(s: State, wall: WallTime): State
    decreases |s.pending|
  {
    var i := LastUnpinned(s.entries, s.pending);
    if |s.pending| > s.limits.maxPending && i < |s.pending| && s.pending[i] in s.entries
    then
      var id := s.pending[i];
      Enforce(CloseInner(s, id, RenderSuppressed, wall), wall)
    else s
  }

  function Pinned(e: Entries, ids: seq<NotificationId>): (r: seq<NotificationId>)
    ensures |r| <= |ids|
    ensures forall id :: id in r <==> id in ids && !(id in e && e[id].jumpNonce.None?)
  {
    if ids == [] then []
    else (if ids[0] in e && e[ids[0]].jumpNonce.None? then [] else [ids[0]]) + Pinned(e, ids[1..])
  }

  /** More queued Notifications are pinned by a jump than the queue may hold. */
  predicate OverPinned(s: State) {
    |Pinned(s.entries, s.pending)| > s.limits.maxPending
  }

  // ---------- public operations ----------

  type Unit = bool

  /** New content restarts the timer and the time shown. */
  function Revised(t: State, id: NotificationId, content: Draft, now: Instant, wall: WallTime): State
    requires id in t.entries
  {
    var e := t.entries[id];
    t.(entries := t.entries[id := e.(notification := e.notification.ReplaceContent(content, wall),
                                     timeout := Restarted(content.timeout, now, t.ToastOnScreen(id)))],
       history := t.history.(shown := t.history.shown[id := 0]))
  }

  /** A changed presentation sends the Notification back to the end of the queue. */
  function Requeued(t: State, id: NotificationId): State {
    t.(pending := Without(t.pending, id) + [id],
       active := Without(t.active, id),
       attention := if t.attention == Some(id) then None else t.attention)
  }

  function Upserted(t: State, id: NotificationId, draft: Draft, now: Instant, wall: WallTime): State
    requires id in t.entries
  {
    var u := Revised(t, id, draft, now, wall);
    var v := if draft.presentation != t.entries[id].Presentation() then Requeued(u, id) else u;
    BumpContent(Rebalance(SortPending(v), now, wall))
  }

  function Admitted(s: State, id: NotificationId, draft: Draft, wall: WallTime): State {
    s.(liveKeys := if draft.key.Some? then s.liveKeys[draft.key.value := id] else s.liveKeys,
       entries := s.entries[id := LiveEntry(Notification.FromDraft(id, draft, wall), s.nextSequence,
                                            Restarted(draft.timeout, 0, false), None)],
       nextSequence := s.nextSequence + 1,
       pending := s.pending + [id],
       history := s.history.(submitted := s.history.submitted + {id}, shown := s.history.shown[id := 0]))
  }

  /** Queued and displayed, but the pending limit not yet enforced. */
  function Placed(s: State, id: NotificationId, draft: Draft, now: Instant, wall: WallTime): State {
    Rebalance(SortPending(Admitted(s, id, draft, wall)), now, wall)
  }

  predicate KeyIsLive(s: State, draft: Draft) {
    draft.key.Some? && draft.key.value in s.liveKeys && s.liveKeys[draft.key.value] in s.entries
  }

  /** `newId` is the id `Notification::from_draft` would generate. */
  function Submit(s: State, draft: Draft, newId: NotificationId, now: Instant, wall: WallTime)
    : (State, Result<SubmitOutcome, SchedulerError>)
  {
    if now < s.lastNow then (s, Err(TimeWentBackwards))
    else
      var t := Prepare(s, now, wall);
      if KeyIsLive(t, draft) then
        var id := t.liveKeys[draft.key.value];
        if t.entries[id].notification.content == draft then (t, Ok(SubmitOutcome(id, SubmitDisposition.Duplicate)))
        else (Upserted(t, id, draft, now, wall), Ok(SubmitOutcome(id, SubmitDisposition.Updated)))
      else
        var u := BumpContent(Enforce(Placed(t, newId, draft, now, wall), wall));
        (u, Ok(SubmitOutcome(newId, if newId !in u.entries then Suppressed
                                    else if u.OnScreen(newId) then SubmitDisposition.Visible else Queued)))
  }

  function ApplyUpdate(t: State, id: NotificationId, update: Update, now: Instant, wall: WallTime)
    : (State, Result<UpdateDisposition, SchedulerError>)
  {
    if id !in t.entries then (t, Err(NotificationNotLive))
    else
      var e := t.entries[id];
      var c := Merged(e.notification.content, update);
      if c == e.notification.content then (t, Ok(UpdateDisposition.Duplicate))
      else
        (BumpContent(SortPending(Revised(t, id, c, now, wall))), Ok(UpdateDisposition.Updated))
  }

  function UpdateById(s: State, id: NotificationId, update: Update, now: Instant, wall: WallTime)
    : (State, Result<UpdateDisposition, SchedulerError>)
  {
    if now < s.lastNow then (s, Err(TimeWentBackwards))
    else ApplyUpdate(Prepare(s, now, wall), id, update, now, wall)
  }

  function UpdateByKey(s: State, key: Key, update: Update, now: Instant, wall: WallTime)
    : (State, Result<UpdateDisposition, SchedulerError>)
  {
    if now < s.lastNow then (s, Err(TimeWentBackwards))
    else
      var t := Prepare(s, now, wall);
      if key !in t.liveKeys then (t, Err(KeyNotLive))
      else ApplyUpdate(t, t.liveKeys[key], update, now, wall)
  }

  function CloseLive(s: State, id: NotificationId, reason: CloseReason, now: Instant, wall: WallTime)
    : (State, Result<Unit, SchedulerError>)
  {
    if now < s.lastNow then (s, Err(TimeWentBackwards))
    else
      var t := Prepare(s, now, wall);
      if id !in t.entries || t.entries[id].notification.delivery == Closed then (t, Err(NotificationNotLive))
      else (Rebalance(CloseInner(t, id, reason, wall), now, wall), Ok(true))
  }

  /** The key is looked up before time advances. */
  function DismissByKey(s: State, key: Key, now: Instant, wall: WallTime)
    : (State, Result<NotificationId, SchedulerError>)
  {
    if key !in s.liveKeys then (s, Err(KeyNotLive))
    else
      var id := s.liveKeys[key];
      var (t, r) := CloseLive(s, id, Dismissed, now, wall);
      (t, match r case Ok(_) => Ok(id) case Err(e) => Err(e))
  }

  /** `order` is the order in which the hash map yields the live ids. */
  function Shutdown(s: State, reason: ShutdownReason, order: seq<NotificationId>, now: Instant, wall: WallTime)
    : (State, Result<Unit, SchedulerError>)
  {
    if now < s.lastNow then (s, Err(TimeWentBackwards))
    else (CloseAll(Prepare(s, now, wall), order, reason.Reason(), wall), Ok(true))
  }

  function SetDisplayAvailable(s: State, available: bool, now: Instant, wall: WallTime)
    : (State, Result<Unit, SchedulerError>)
  {
    if now < s.lastNow then (s, Err(TimeWentBackwards))
    else
      var t := Prepare(s, now, wall);
      var u := if t.available != available then BumpRevision(t.(available := available)) else t;
      (Rebalance(u, now, wall), Ok(true))
  }

  /** Toasts past the reduced visible capacity, paused and queued again. */
  function Deferred(s: State, now: Instant): State {
    if |s.active| > s.limits.maxVisible then
      var kept := s.active[..s.limits.maxVisible];
      var deferred := s.active[s.limits.maxVisible..];
      s.(active := kept,
         pending := s.pending + deferred,
         entries := map id | id in s.entries ::
           if id in deferred then s.entries[id].(timeout := s.entries[id].timeout.Switched(now, false))
           else s.entries[id])
    else s
  }

  /** New limits in force, the pending limit not yet enforced. */
  function Relimited(t: State, limits: Limits, now: Instant, wall: WallTime): State {
    Rebalance(SortPending(Deferred(t.(limits := limits, closedCapacity := Capacity(limits)), now)), now, wall)
  }

  function UpdateLimits(s: State, limits: Limits, now: Instant, wall: WallTime)
    : (State, Result<Unit, SchedulerError>)
  {
    if now < s.lastNow then (s, Err(TimeWentBackwards))
    else
      var t := Prepare(s, now, wall);
      if t.limits == limits then (t, Ok(true))
      else
        var u := Enforce(Relimited(t, limits, now, wall), wall);
        (BumpContent(u.(closed := LastN(u.closed, u.closedCapacity))), Ok(true))
  }

  function Advance(s: State, now: Instant, wall: WallTime): (State, Result<Unit, SchedulerError>) {
    if now < s.lastNow then (s, Err(TimeWentBackwards)) else (Prepare(s, now, wall), Ok(true))
  }

  function BeginJumpInner(t: State, id: NotificationId): (State, Result<JumpIntent, SchedulerError>) {
    if id !in t.entries then (t, Err(NotificationNotLive))
    else
      var e := t.entries[id];
      if e.notification.delivery == Closed then (t, Err(NotificationNotLive))
      else if e.jumpNonce.Some? then (t, Err(JumpAlreadyPending))
      else if e.notification.content.source.None? then (t, Err(MissingSource))
      else
        var timeout := if t.ToastOnScreen(id) then e.timeout.Switched(t.lastNow, false) else e.timeout;
        (t.(nextNonce := t.nextNonce + 1,
            entries := t.entries[id := e.(jumpNonce := Some(t.nextNonce), timeout := timeout)]),
         Ok(JumpIntent(id, t.nextNonce, e.notification.content.source.value)))
  }

  function BeginJump(s: State, id: NotificationId, now: Instant, wall: WallTime)
    : (State, Result<JumpIntent, SchedulerError>)
  {
    if now < s.lastNow then (s, Err(TimeWentBackwards)) else BeginJumpInner(Prepare(s, now, wall), id)
  }

  function BeginJumpByKey(s: State, key: Key, now: Instant, wall: WallTime)
    : (State, Result<JumpIntent, SchedulerError>)
  {
    if now < s.lastNow then (s, Err(TimeWentBackwards))
    else
      var t := Prepare(s, now, wall);
      if key !in t.liveKeys then (t, Err(KeyNotLive)) else BeginJumpInner(t, t.liveKeys[key])
  }

  predicate Outstanding(s: State, intent: JumpIntent) {
    intent.id in s.entries && s.entries[intent.id].jumpNonce == Some(intent.nonce)
  }

  function CancelJump(s: State, intent: JumpIntent, now: Instant, wall: WallTime)
    : (State, Result<Unit, SchedulerError>)
  {
    if now < s.lastNow then (s, Err(TimeWentBackwards))
    else
      var t := Prepare(s, now, wall);
      if !Outstanding(t, intent) then (t, Err(StaleJumpIntent))
      else
        var e := t.entries[intent.id];
        var timeout := if t.ToastOnScreen(intent.id) then e.timeout.Switched(t.lastNow, true) else e.timeout;
        (t.(entries := t.entries[intent.id := e.(jumpNonce := None, timeout := timeout)]), Ok(true))
  }

  /** The intent is checked before time advances. */
  function CommitJump(s: State, intent: JumpIntent, now: Instant, wall: WallTime)
    : (State, Result<Unit, SchedulerError>)
  {
    if !Outstanding(s, intent) then (s, Err(StaleJumpIntent))
    else CloseLive(s, intent.id, Jumped, now, wall)
  }

  function DrainClosed(s: State): (State, seq<Notification>) {
    (s.(closed := [], history := s.history.(forwarded := s.history.forwarded + s.closed)), s.closed)
  }

  function Plan(s: State): DisplayPlan {
    DisplayPlan(s.revision,
                if s.available then s.attention else None,
                if s.available && s.attention.None? then s.active else [])
  }
}
