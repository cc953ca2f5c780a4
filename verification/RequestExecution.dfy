/** Idempotent request execution as a protocol: any number of workers interleave, each
    handling one decoded request under the lock of its request id's stripe.

    A step is what happens between two suspension points. The reference functions of
    ResultCaches are what the cache's own methods compute, under its mutex. */
module RequestExecution {
  import opened Wrappers
  import opened Notifications
  import opened Seqs
  import opened ResultCaches
  import opened ResultCacheLaws
  import opened ResultCacheExact

  type Worker = nat

  /** The stripe of a request id is some function of the id alone. */
  datatype Config = Config(stripe: RequestId -> nat, capacity: nat, ttl: Duration, maxResponse: nat)

  datatype Reply = Sent(response: Response) | Reused | TooLarge
  datatype Phase =
    | Waiting(request: Request)
    | Holding(request: Request)
    | Stamped(request: Request, now: Instant)
    | Running(request: Request, now: Instant, run: nat)
    | Responding(request: Request, now: Instant, response: Response)
    | Done(request: Request, reply: Reply)
  {
    predicate InCritical() {
      !Waiting? && !Done?
    }

    predicate Executing() {
      Running? || Responding?
    }
  }

  /** One execution of the handler, from the step that started it to the step that ended it. */
  datatype HandlerRun = HandlerRun(id: RequestId, worker: Worker, began: nat, ended: Option<nat>)

  datatype World = World(
    clock: Instant,
    cache: seq<Slot>,
    locks: map<nat, Worker>,
    workers: map<Worker, Phase>,
    runs: seq<HandlerRun>,
    steps: nat)

  datatype Step =
    | Tick(elapsed: Duration)
    | Arrive(worker: Worker, request: Request)
    | Acquire(worker: Worker)
    | ReadClock(worker: Worker)
    | Consult(worker: Worker)
    | Complete(worker: Worker, response: Response)
    | Store(worker: Worker)
    | Abandon(worker: Worker)

  function Start(clock: Instant): World {
    World(clock, [], map[], map[], [], 0)
  }

  predicate Enabled(c: Config, s: World, step: Step) {
    match step
    case Tick(_) => true
    case Arrive(w, _) => w !in s.workers
    case Acquire(w) => w in s.workers && s.workers[w].Waiting? && c.stripe(s.workers[w].request.id) !in s.locks
    case ReadClock(w) => w in s.workers && s.workers[w].Holding?
    case Consult(w) => w in s.workers && s.workers[w].Stamped?
    case Complete(w, _) => w in s.workers && s.workers[w].Running?
    case Store(w) => w in s.workers && s.workers[w].Responding?
    case Abandon(w) => w in s.workers && !s.workers[w].Done?
  }

  /** The access to the cache a step makes, if any. */
  function Access(s: World, step: Step): Option<CacheOp> {
    match step
    case Consult(w) =>
      if w in s.workers && s.workers[w].Stamped?
      then Some(LookupOp(s.workers[w].request, s.workers[w].now)) else None
    case Store(w) =>
      if w in s.workers && s.workers[w].Responding?
      then Some(InsertOp(s.workers[w].request, s.workers[w].response, s.workers[w].now)) else None
    case _ => None
  }

  function CacheAfter(c: Config, s: World, step: Step): seq<Slot> {
    match Access(s, step)
    case None => s.cache
    case Some(op) => Apply(s.cache, op, c.ttl, c.capacity)
  }

  function Released(c: Config, s: World, w: Worker): map<nat, Worker>
    requires w in s.workers
  {
    if s.workers[w].InCritical() then s.locks - {c.stripe(s.workers[w].request.id)} else s.locks
  }

  function EndRun(s: World, w: Worker): seq<HandlerRun>
    requires w in s.workers
  {
    match s.workers[w]
    case Running(_, _, k) => if k < |s.runs| then s.runs[k := s.runs[k].(ended := Some(s.steps))] else s.runs
    case _ => s.runs
  }

  function Finish(c: Config, s: World, w: Worker, reply: Reply): World
    requires w in s.workers
  {
    s.(locks := Released(c, s, w), workers := s.workers[w := Done(s.workers[w].request, reply)], runs := EndRun(s, w))
  }

  function Act(c: Config, s: World, step: Step): World
    requires Enabled(c, s, step)
  {
    match step
    case Tick(d) => s.(clock := s.clock + d)
    case Arrive(w, request) => s.(workers := s.workers[w := Waiting(request)])
    case Acquire(w) =>
      s.(locks := s.locks[c.stripe(s.workers[w].request.id) := w],
         workers := s.workers[w := Holding(s.workers[w].request)])
    case ReadClock(w) => s.(workers := s.workers[w := Stamped(s.workers[w].request, s.clock)])
    case Consult(w) =>
      var p := s.workers[w];
      (match AnswerTo(s.cache, LookupOp(p.request, p.now), c.ttl)
       case Replay(response) => Finish(c, s, w, Sent(response))
       case PayloadMismatch => Finish(c, s, w, Reused)
       case Miss =>
         s.(workers := s.workers[w := Running(p.request, p.now, |s.runs|)],
            runs := s.runs + [HandlerRun(p.request.id, w, s.steps, None)]))
    case Complete(w, response) =>
      if |response| > c.maxResponse then Finish(c, s, w, TooLarge)
      else
        s.(workers := s.workers[w := Responding(s.workers[w].request, s.workers[w].now, response)],
           runs := EndRun(s, w))
    case Store(w) => Finish(c, s, w, Sent(s.workers[w].response))
    case Abandon(w) => s.(locks := Released(c, s, w), workers := s.workers - {w}, runs := EndRun(s, w))
  }

  function Take(c: Config, s: World, step: Step): World
    requires Enabled(c, s, step)
  {
    Act(c, s, step).(cache := CacheAfter(c, s, step), steps := s.steps + 1)
  }

  // ---------- what every step keeps ----------

  /** A worker is in its critical section exactly while it holds its stripe's lock. */
  ghost predicate Locked(c: Config, s: World) {
    && (forall w :: w in s.workers && s.workers[w].InCritical() ==>
          c.stripe(s.workers[w].request.id) in s.locks && s.locks[c.stripe(s.workers[w].request.id)] == w)
    && (forall k :: k in s.locks ==>
          s.locks[k] in s.workers && s.workers[s.locks[k]].InCritical()
          && c.stripe(s.workers[s.locks[k]].request.id) == k)
  }

  /** The open handler runs are exactly those of the workers now running their handler. */
  ghost predicate RunsMatch(workers: map<Worker, Phase>, runs: seq<HandlerRun>) {
    && (forall w :: w in workers && workers[w].Running? ==>
          var k := workers[w].run;
          k < |runs| && runs[k].ended.None? && runs[k].worker == w && runs[k].id == workers[w].request.id)
    && (forall k :: 0 <= k < |runs| && runs[k].ended.None? ==>
          runs[k].worker in workers && workers[runs[k].worker].Running? && workers[runs[k].worker].run == k)
  }

  ghost predicate RunsTimed(runs: seq<HandlerRun>, steps: nat) {
    forall k :: 0 <= k < |runs| ==>
      runs[k].began < steps && (runs[k].ended.Some? ==> runs[k].began < runs[k].ended.value < steps)
  }

  /** Of two handler runs for one request id, the earlier ended before the later began. */
  ghost predicate Serial(runs: seq<HandlerRun>) {
    forall i, j :: 0 <= i < j < |runs| && runs[i].id == runs[j].id ==>
      runs[i].ended.Some? && runs[i].ended.value < runs[j].began
  }

  /** While a handler for an id runs, or its response waits to be stored, the cache has nothing for the id. */
  ghost predicate Uncached(s: World) {
    forall w :: w in s.workers && s.workers[w].Executing() ==>
      s.workers[w].request.id !in IdSet(s.cache)
  }

  ghost predicate Good(c: Config, s: World) {
    && c.capacity > 0
    && UniqueIds(s.cache) && |s.cache| <= c.capacity
    && Locked(c, s) && Uncached(s)
    && RunsMatch(s.workers, s.runs) && RunsTimed(s.runs, s.steps) && Serial(s.runs)
  }

  lemma StartIsGood(c: Config, clock: Instant)
    requires c.capacity > 0
    ensures Good(c, Start(clock))
  {
  }

  /** Locks exclude: two workers past the lock never handle the same request id. */
  lemma Exclusive(c: Config, s: World, v: Worker, w: Worker)
    requires Locked(c, s) && v in s.workers && w in s.workers
    requires s.workers[v].InCritical() && s.workers[w].InCritical()
    requires s.workers[v].request.id == s.workers[w].request.id
    ensures v == w
  {
  }

  lemma LockedKeeps(c: Config, s: World, step: Step)
    requires Locked(c, s) && Enabled(c, s, step)
    ensures Locked(c, Take(c, s, step))
  {
    hide Apply, AnswerTo, EndRun;
  }

  // The three things a step can do to the handler runs: nothing, start one, end one.

  lemma RunsUntouched(workers: map<Worker, Phase>, after: map<Worker, Phase>, runs: seq<HandlerRun>, w: Worker)
    requires RunsMatch(workers, runs) && (w in workers ==> !workers[w].Running?)
    requires after - {w} == workers - {w} && (w in after ==> !after[w].Running?)
    ensures RunsMatch(after, runs)
  {
    assert forall v :: v != w && v in workers ==> v in workers - {w};
    assert forall v :: v != w && v in after ==> v in after - {w};
    assert forall v :: v != w ==> (v in workers <==> v in after) && (v in after ==> after[v] == workers[v]) by {
      forall v | v != w ensures (v in workers <==> v in after) && (v in after ==> after[v] == workers[v]) {
        assert v in workers - {w} <==> v in after - {w};
        if v in after { assert (after - {w})[v] == (workers - {w})[v]; }
      }
    }
  }

  lemma RunStarted(workers: map<Worker, Phase>, runs: seq<HandlerRun>, w: Worker, now: Instant, step: nat)
    requires RunsMatch(workers, runs) && w in workers && !workers[w].Running?
    ensures var id := workers[w].request;
            RunsMatch(workers[w := Running(id, now, |runs|)], runs + [HandlerRun(id.id, w, step, None)])
  {
  }

  lemma RunEnded(workers: map<Worker, Phase>, runs: seq<HandlerRun>, w: Worker, step: nat)
    requires RunsMatch(workers, runs) && w in workers && workers[w].Running?
    ensures workers[w].run < |runs|
    ensures RunsMatch(workers - {w}, runs[workers[w].run := runs[workers[w].run].(ended := Some(step))])
  {
  }

  lemma RunsMatchKeeps(c: Config, s: World, step: Step)
    requires RunsMatch(s.workers, s.runs) && Enabled(c, s, step)
    ensures RunsMatch(Take(c, s, step).workers, Take(c, s, step).runs)
  {
    hide Apply, AnswerTo, Released, RunsMatch;
    var r := Take(c, s, step);
    if step.Tick? {
      return;
    }
    var w := step.worker;
    if w in s.workers && s.workers[w].Running? {
      RunEnded(s.workers, s.runs, w, s.steps);
      RunsUntouched(s.workers - {w}, r.workers, r.runs, w);
    } else if w in r.workers && r.workers[w].Running? {
      RunStarted(s.workers, s.runs, w, r.workers[w].now, s.steps);
    } else {
      RunsUntouched(s.workers, r.workers, s.runs, w);
    }
  }

  lemma RunsTimedKeeps(c: Config, s: World, step: Step)
    requires RunsTimed(s.runs, s.steps) && Enabled(c, s, step)
    ensures RunsTimed(Take(c, s, step).runs, s.steps + 1)
  {
    hide Apply, AnswerTo, Released;
  }

  /** A handler starts only when no earlier run for its id is open: such a run's worker would
      hold the lock this worker holds. */
  lemma SerialKeeps(c: Config, s: World, step: Step)
    requires Locked(c, s) && RunsMatch(s.workers, s.runs) && RunsTimed(s.runs, s.steps) && Serial(s.runs)
    requires Enabled(c, s, step)
    ensures Serial(Take(c, s, step).runs)
  {
    hide Apply, AnswerTo, Released;
  }

  lemma ApplyIds(l: seq<Slot>, op: CacheOp, ttl: Duration, capacity: nat)
    ensures IdSet(Apply(l, op, ttl, capacity)) <= IdSet(l) + (if op.InsertOp? then {op.request.id} else {})
  {
    hide Renew;
    var d := DropStale(l, op.now, ttl);
    DropStaleSuffix(l, op.now, ttl);
    assert forall x :: x in d ==> x in l;
    match op
    case LookupOp(request, now) =>
      var i := IndexOf(d, request.id);
      if i < |d| { RenewIds(d, Slot(request.id, d[i].entry.(touchedAt := now))); }
    case InsertOp(request, response, now) =>
      RenewIds(d, Inserted(request, response, now));
      assert forall x :: x in LastN(Renew(d, Inserted(request, response, now)), capacity) ==>
        x in Renew(d, Inserted(request, response, now));
  }

  lemma RenewIds(d: seq<Slot>, slot: Slot)
    ensures forall x :: x in Renew(d, slot) ==> x in d || x == slot
  {
    ForgetMembers(d, slot.id);
  }

  lemma MissedUncached(l: seq<Slot>, request: Request, now: Instant, ttl: Duration, capacity: nat)
    requires AnswerTo(l, LookupOp(request, now), ttl).Miss?
    ensures request.id !in IdSet(Apply(l, LookupOp(request, now), ttl, capacity))
  {
  }

  lemma UncachedKeeps(c: Config, s: World, step: Step)
    requires Locked(c, s) && Uncached(s) && Enabled(c, s, step)
    ensures Uncached(Take(c, s, step))
  {
    hide Apply, AnswerTo, IdSet, Released, EndRun;
    var r := Take(c, s, step);
    var op := Access(s, step);
    if op.Some? {
      ApplyIds(s.cache, op.value, c.ttl, c.capacity);
    }
    forall v | v in r.workers && r.workers[v].Executing() ensures r.workers[v].request.id !in IdSet(r.cache) {
      if step.Consult? && v == step.worker {
        MissedUncached(s.cache, s.workers[v].request, s.workers[v].now, c.ttl, c.capacity);
      } else if step.Store? {
        if s.workers[v].request.id == s.workers[step.worker].request.id {
          Exclusive(c, s, v, step.worker);
        }
      }
    }
  }

  /** No step of any worker, in any order, breaks any of this. */
  lemma StepKeeps(c: Config, s: World, step: Step)
    requires Good(c, s) && Enabled(c, s, step)
    ensures Good(c, Take(c, s, step))
  {
    LockedKeeps(c, s, step);
    RunsMatchKeeps(c, s, step);
    RunsTimedKeeps(c, s, step);
    SerialKeeps(c, s, step);
    UncachedKeeps(c, s, step);
    hide UniqueIds, Locked, RunsMatch, RunsTimed, Serial, Uncached, Apply, Act;
    if Access(s, step).Some? {
      ApplyKeeps(s.cache, Access(s, step).value, c.ttl, c.capacity);
    }
  }

  // ---------- whole runs ----------

  ghost predicate Allowed(c: Config, s: World, steps: seq<Step>)
    decreases |steps|
  {
    steps == [] || (Enabled(c, s, steps[0]) && Allowed(c, Take(c, s, steps[0]), steps[1..]))
  }

  ghost function Reached(c: Config, s: World, steps: seq<Step>): World
    requires Allowed(c, s, steps)
    decreases |steps|
  {
    if steps == [] then s else Reached(c, Take(c, s, steps[0]), steps[1..])
  }

  lemma {:induction false} RunKeeps(c: Config, s: World, steps: seq<Step>)
    requires Good(c, s) && Allowed(c, s, steps)
    ensures Good(c, Reached(c, s, steps))
    decreases |steps|
  {
    if steps != [] {
      hide Good;
      StepKeeps(c, s, steps[0]);
      RunKeeps(c, Take(c, s, steps[0]), steps[1..]);
    }
  }

  /** Under every interleaving, no two handler runs for one request id overlap, and no id
      whose handler runs has a cached response. */
  lemma HandlersNeverOverlap(c: Config, clock: Instant, steps: seq<Step>)
    requires c.capacity > 0 && Allowed(c, Start(clock), steps)
    ensures var s := Reached(c, Start(clock), steps); Serial(s.runs) && Uncached(s)
  {
    hide Serial, Uncached;
    StartIsGood(c, clock);
    RunKeeps(c, Start(clock), steps);
  }

  // ---------- at most once ----------

  /** Along the run the cache is never consulted when the entry of `id` has reached the time
      to live, and fewer than `capacity` other ids are touched since `id` last was. */
  ghost predicate Quiet(c: Config, s: World, id: RequestId, touchedAt: Instant, since: set<RequestId>, steps: seq<Step>)
    requires Allowed(c, s, steps)
    decreases |steps|
  {
    steps == [] ||
    var t := Take(c, s, steps[0]);
    match Access(s, steps[0])
    case None => Quiet(c, t, id, touchedAt, since, steps[1..])
    case Some(op) =>
      var touched := TouchedBy(s.cache, op, c.ttl);
      && Age(op.now, touchedAt) < c.ttl
      && |Since(since, id, touched)| < c.capacity
      && Quiet(c, t, id, if touched == Some(id) then op.now else touchedAt, Since(since, id, touched), steps[1..])
  }

  /** What every request for a cached id is answered. */
  function ReplyFrom(x: Slot, request: Request): Reply {
    if request.payload == x.entry.payload then Sent(x.entry.response) else Reused
  }

  /** Between two worlds, no handler ran for the cached id, and every request for it that
      was answered was answered from the cache. */
  ghost predicate OnlyReplayed(s: World, r: World, x: Slot) {
    && |s.runs| <= |r.runs|
    && (forall k :: |s.runs| <= k < |r.runs| ==> r.runs[k].id != x.id)
    && (forall w :: w in r.workers && r.workers[w].Done? && r.workers[w].request.id == x.id
                    && !(w in s.workers && s.workers[w].Done?) ==>
          r.workers[w].reply == ReplyFrom(x, r.workers[w].request))
    && (forall w :: w in s.workers && s.workers[w].Done? ==> w in r.workers && r.workers[w] == s.workers[w])
  }

  lemma CachedIsNotExecuting(s: World, a: seq<Slot>, x: Slot, b: seq<Slot>, w: Worker)
    requires Uncached(s) && Around(s.cache, a, x, b) && w in s.workers && s.workers[w].Executing()
    ensures s.workers[w].request.id != x.id
  {
    assert x in s.cache;
  }

  lemma StepReplays(c: Config, s: World, a: seq<Slot>, x: Slot, b: seq<Slot>, step: Step)
    requires Uncached(s) && Around(s.cache, a, x, b) && Enabled(c, s, step)
    requires Access(s, step).Some? ==> !Stale(x, Access(s, step).value.now, c.ttl)
    ensures OnlyReplayed(s, Take(c, s, step), x)
  {
    hide Apply, AnswerTo, Uncached, Around, Released;
    if !step.Tick? && step.worker in s.workers {
      if s.workers[step.worker].Executing() {
        CachedIsNotExecuting(s, a, x, b, step.worker);
      } else if step.Consult? && s.workers[step.worker].request.id == x.id {
        AnswersFromCache(s.cache, a, x, b, s.workers[step.worker].request, s.workers[step.worker].now, c.ttl);
      }
    }
  }

  lemma AnswersFromCache(l: seq<Slot>, a: seq<Slot>, x: Slot, b: seq<Slot>, request: Request, now: Instant,
                         ttl: Duration)
    requires Around(l, a, x, b) && !Stale(x, now, ttl) && request.id == x.id
    ensures AnswerTo(l, LookupOp(request, now), ttl)
         == if request.payload == x.entry.payload then Replay(x.entry.response) else PayloadMismatch
  {
    hide UniqueIds, DropStale;
    var a' := DropStaleAround(l, a, x, b, now, ttl);
    AroundIndex(DropStale(l, now, ttl), a', x, b);
  }

  lemma ReplayedCompose(s: World, t: World, r: World, x: Slot, y: Slot)
    requires OnlyReplayed(s, t, x) && OnlyReplayed(t, r, y)
    requires x.id == y.id && x.entry.payload == y.entry.payload && x.entry.response == y.entry.response
    requires |t.runs| <= |r.runs| && forall k :: 0 <= k < |t.runs| ==> t.runs[k].id == r.runs[k].id
    ensures OnlyReplayed(s, r, x)
  {
  }

  lemma {:induction false} RunIdsKept(c: Config, s: World, steps: seq<Step>)
    requires Allowed(c, s, steps)
    ensures var r := Reached(c, s, steps);
            |s.runs| <= |r.runs| && forall k :: 0 <= k < |s.runs| ==> s.runs[k].id == r.runs[k].id
    decreases |steps|
  {
    if steps != [] {
      StepRunIds(c, s, steps[0]);
      hide Take;
      RunIdsKept(c, Take(c, s, steps[0]), steps[1..]);
    }
  }

  lemma StepRunIds(c: Config, s: World, step: Step)
    requires Enabled(c, s, step)
    ensures var r := Take(c, s, step);
            |s.runs| <= |r.runs| && forall k :: 0 <= k < |s.runs| ==> s.runs[k].id == r.runs[k].id
  {
    hide Apply, AnswerTo, Released;
  }

  lemma {:induction false} CachedIsOnlyReplayed(c: Config, s: World, a: seq<Slot>, x: Slot, b: seq<Slot>,
                                                since: set<RequestId>, steps: seq<Step>)
    requires Good(c, s) && Allowed(c, s, steps) && Around(s.cache, a, x, b) && IdSet(b) <= since
    requires Quiet(c, s, x.id, x.entry.touchedAt, since, steps)
    ensures OnlyReplayed(s, Reached(c, s, steps), x)
    decreases |steps|
  {
    hide Good, Around, IdSet, OnlyReplayed, Take, Since, TouchedBy;
    if steps == [] {
      NothingReplayed(s, x);
    } else {
      var t := Take(c, s, steps[0]);
      var a', x', b', since' := CachedStep(c, s, a, x, b, since, steps[0]);
      StepKeeps(c, s, steps[0]);
      GoodParts(c, s);
      StepReplays(c, s, a, x, b, steps[0]);
      CachedIsOnlyReplayed(c, t, a', x', b', since', steps[1..]);
      RunIdsKept(c, t, steps[1..]);
      ReplayedCompose(s, t, Reached(c, s, steps), x, x');
    }
  }

  lemma NothingReplayed(s: World, x: Slot)
    ensures OnlyReplayed(s, s, x)
  {
  }

  lemma GoodParts(c: Config, s: World)
    requires Good(c, s)
    ensures Uncached(s) && |s.cache| <= c.capacity && UniqueIds(s.cache) && c.capacity > 0
  {
    hide Uncached, UniqueIds;
  }

  /** Where the cached entry is after one step. */
  lemma CachedStep(c: Config, s: World, a: seq<Slot>, x: Slot, b: seq<Slot>, since: set<RequestId>, step: Step)
    returns (a': seq<Slot>, x': Slot, b': seq<Slot>, since': set<RequestId>)
    requires Good(c, s) && Enabled(c, s, step) && Around(s.cache, a, x, b) && IdSet(b) <= since
    requires Access(s, step).Some? ==>
      !Stale(x, Access(s, step).value.now, c.ttl)
      && |Since(since, x.id, TouchedBy(s.cache, Access(s, step).value, c.ttl))| < c.capacity
    ensures Around(Take(c, s, step).cache, a', x', b') && IdSet(b') <= since'
    ensures x'.id == x.id && x'.entry.payload == x.entry.payload && x'.entry.response == x.entry.response
    ensures match Access(s, step)
            case None => since' == since && x' == x
            case Some(op) =>
              since' == Since(since, x.id, TouchedBy(s.cache, op, c.ttl))
              && x'.entry.touchedAt
                  == (if TouchedBy(s.cache, op, c.ttl) == Some(x.id) then op.now else x.entry.touchedAt)
  {
    hide Good, Around, IdSet, Apply, TouchedBy, Since, Act, Uncached, UniqueIds;
    GoodParts(c, s);
    match Access(s, step)
    case None => a', x', b', since' := a, x, b, since;
    case Some(op) =>
      if step.Store? { CachedIsNotExecuting(s, a, x, b, step.worker); }
      a', x', b' := StaysCached(s.cache, a, x, b, since, op, c.ttl, c.capacity);
      since' := Since(since, x.id, TouchedBy(s.cache, op, c.ttl));
  }

  /** Under every interleaving: once a response is stored, its request id is not executed
      again. Every later request with the same payload gets the stored bytes and every
      other payload is refused, until the entry's own age reaches the time to live at
      some access or `capacity` other ids have been touched since it was. */
  lemma StoredIsNotExecutedAgain(c: Config, s: World, w: Worker, steps: seq<Step>)
    requires Good(c, s) && Enabled(c, s, Store(w)) && Allowed(c, Take(c, s, Store(w)), steps)
    requires Quiet(c, Take(c, s, Store(w)), s.workers[w].request.id, s.workers[w].now, {}, steps)
    ensures var x := Inserted(s.workers[w].request, s.workers[w].response, s.workers[w].now);
            OnlyReplayed(Take(c, s, Store(w)), Reached(c, Take(c, s, Store(w)), steps), x)
  {
    var t := Take(c, s, Store(w));
    var x := Inserted(s.workers[w].request, s.workers[w].response, s.workers[w].now);
    StepKeeps(c, s, Store(w));
    GoodParts(c, s);
    GoodParts(c, t);
    hide Good, Quiet, OnlyReplayed, UniqueIds, Uncached, Allowed, Reached;
    var a := StoredLast(s.cache, Access(s, Store(w)).value, c.ttl, c.capacity);
    assert IdSet([]) == {};
    CachedIsOnlyReplayed(c, t, a, x, [], {}, steps);
  }

  lemma StoredLast(l: seq<Slot>, op: CacheOp, ttl: Duration, capacity: nat) returns (a: seq<Slot>)
    requires UniqueIds(l) && |l| <= capacity && capacity > 0 && op.InsertOp?
    ensures Around(Apply(l, op, ttl, capacity), a, Inserted(op.request, op.response, op.now), [])
  {
    hide UniqueIds;
    ApplyKeeps(l, op, ttl, capacity);
    var r := Apply(l, op, ttl, capacity);
    assert r != [] && r[|r| - 1] == Inserted(op.request, op.response, op.now);
    a := r[..|r| - 1];
    assert r == a + [r[|r| - 1]] + [];
  }

  lemma ForgottenMisses(l: seq<Slot>, request: Request, now: Instant, ttl: Duration)
    requires request.id !in IdSet(l)
    ensures AnswerTo(l, LookupOp(request, now), ttl) == Miss
  {
    DropStaleSuffix(l, now, ttl);
    var d := DropStale(l, now, ttl);
    assert forall x :: x in d ==> x in l;
  }

  /** However a handler run ends, its response is in the cache afterwards exactly when the run
      ended by storing it. The other endings are a response over the size limit and a task
      dropped before it stored: the ways in which an id that was executed is executed again
      although nothing expired or was evicted. */
  lemma OnlyStoringRemembers(c: Config, s: World, w: Worker, step: Step)
    requires Good(c, s) && Enabled(c, s, step) && w in s.workers && s.workers[w].Executing()
    requires var t := Take(c, s, step); !(w in t.workers && t.workers[w].Executing())
    ensures s.workers[w].request.id in IdSet(Take(c, s, step).cache) <==> step == Store(w)
    ensures step == Store(w) || step == Abandon(w)
      || (step.Complete? && step.worker == w && |step.response| > c.maxResponse)
  {
    hide UniqueIds, Locked, RunsMatch, RunsTimed, Serial, IdSet, Apply, AnswerTo, Released, EndRun;
    if step == Store(w) {
      StoredLastIn(s.cache, Access(s, step).value, c.ttl, c.capacity);
    }
  }

  lemma StoredLastIn(l: seq<Slot>, op: CacheOp, ttl: Duration, capacity: nat)
    requires UniqueIds(l) && |l| <= capacity && capacity > 0 && op.InsertOp?
    ensures op.request.id in IdSet(Apply(l, op, ttl, capacity))
  {
    hide UniqueIds, Apply;
    var a := StoredLast(l, op, ttl, capacity);
    assert Inserted(op.request, op.response, op.now) in Apply(l, op, ttl, capacity);
  }

  /** After a response over the size limit, whatever is asked next under that id, the cache
      misses and the handler runs. */
  lemma OversizedIsExecutedAgain(c: Config, s: World, w: Worker, response: Response, request: Request, now: Instant)
    requires Good(c, s) && Enabled(c, s, Complete(w, response)) && |response| > c.maxResponse
    requires request.id == s.workers[w].request.id
    ensures var t := Take(c, s, Complete(w, response));
            t.workers[w] == Done(s.workers[w].request, TooLarge)
            && AnswerTo(t.cache, LookupOp(request, now), c.ttl) == Miss
  {
    GoodParts(c, s);
    hide Good, UniqueIds, AnswerTo;
    ForgottenMisses(s.cache, request, now, c.ttl);
  }

  /** No worker waits for ever on a lock nobody will release: while any request is
      unanswered, some worker has a step of its own to take. */
  lemma NeverStuck(c: Config, s: World, w: Worker)
    requires Locked(c, s) && w in s.workers && !s.workers[w].Done?
    ensures exists step :: Enabled(c, s, step) && !step.Tick? && !step.Arrive? && !step.Abandon?
  {
    var v := if s.workers[w].Waiting? && c.stripe(s.workers[w].request.id) in s.locks
             then s.locks[c.stripe(s.workers[w].request.id)] else w;
    match s.workers[v]
    case Waiting(_) => assert Enabled(c, s, Acquire(v));
    case Holding(_) => assert Enabled(c, s, ReadClock(v));
    case Stamped(_, _) => assert Enabled(c, s, Consult(v));
    case Running(_, _, _) => assert Enabled(c, s, Complete(v, ""));
    case Responding(_, _, _) => assert Enabled(c, s, Store(v));
  }

  // ---------- the age of what is sent ----------

  /** The accesses to the cache the steps make, in order. */
  ghost function Accesses(c: Config, s: World, steps: seq<Step>): seq<CacheOp>
    requires Allowed(c, s, steps)
    decreases |steps|
  {
    if steps == [] then []
    else
      var rest := Accesses(c, Take(c, s, steps[0]), steps[1..]);
      match Access(s, steps[0])
      case None => rest
      case Some(op) => [op] + rest
  }

  function ApplyAll(l: seq<Slot>, ops: seq<CacheOp>, ttl: Duration, capacity: nat): seq<Slot>
    decreases |ops|
  {
    if ops == [] then l else ApplyAll(Apply(l, ops[0], ttl, capacity), ops[1..], ttl, capacity)
  }

  lemma {:induction false} CacheIsItsAccesses(c: Config, s: World, steps: seq<Step>)
    requires Allowed(c, s, steps)
    ensures Reached(c, s, steps).cache == ApplyAll(s.cache, Accesses(c, s, steps), c.ttl, c.capacity)
    decreases |steps|
  {
    hide Apply, Act, Enabled;
    if steps != [] {
      var t := Take(c, s, steps[0]);
      CacheIsItsAccesses(c, t, steps[1..]);
      var rest := Accesses(c, t, steps[1..]);
      if Access(s, steps[0]).Some? { assert ([Access(s, steps[0]).value] + rest)[1..] == rest; }
    }
  }

  lemma {:induction false} LastAnswer(l: seq<Slot>, ops: seq<CacheOp>, op: CacheOp, ttl: Duration, capacity: nat)
    ensures |Answers(l, ops + [op], ttl, capacity)| == |ops| + 1
    ensures Answers(l, ops + [op], ttl, capacity)[|ops|] == AnswerTo(ApplyAll(l, ops, ttl, capacity), op, ttl)
    decreases |ops|
  {
    hide Apply, AnswerTo;
    if ops == [] {
      assert [op][1..] == [] && [] + [op] == [op];
    } else {
      LastAnswer(Apply(l, ops[0], ttl, capacity), ops[1..], op, ttl, capacity);
      assert (ops + [op])[1..] == ops[1..] + [op];
    }
  }

  /** The steps after which operation `j` was made, and that was it. */
  lemma {:induction false} AccessedAt(c: Config, s: World, steps: seq<Step>, j: nat) returns (k: nat)
    requires Allowed(c, s, steps) && j < |Accesses(c, s, steps)|
    ensures k < |steps| && Allowed(c, s, steps[..k])
    ensures Access(Reached(c, s, steps[..k]), steps[k]) == Some(Accesses(c, s, steps)[j])
    decreases |steps|
  {
    hide Act, Apply, Enabled;
    var t := Take(c, s, steps[0]);
    if Access(s, steps[0]).Some? && j == 0 {
      k := 0;
    } else {
      var m := AccessedAt(c, t, steps[1..], if Access(s, steps[0]).Some? then j - 1 else j);
      k := m + 1;
      assert steps[..k][1..] == steps[1..][..m];
    }
  }

  /** Under every interleaving in which the stamps used at the cache do not run backwards: a
      request is answered from the cache exactly with what was stored last under its id for its
      payload, provided that was stored or last replayed under a stamp less than the time to
      live older, and fewer other ids than the cache holds were used since. */
  lemma RepliesAreFresh(c: Config, clock: Instant, steps: seq<Step>, w: Worker, response: Response)
    requires c.capacity > 0 && Allowed(c, Start(clock), steps)
    requires Enabled(c, Reached(c, Start(clock), steps), Consult(w))
    requires var s := Reached(c, Start(clock), steps);
             Nondecreasing(0, Accesses(c, Start(clock), steps) + [LookupOp(s.workers[w].request, s.workers[w].now)])
    ensures var s := Reached(c, Start(clock), steps);
            var ops := Accesses(c, Start(clock), steps) + [LookupOp(s.workers[w].request, s.workers[w].now)];
            var answers := Answers([], ops, c.ttl, c.capacity);
            var n := |ops| - 1;
            && |answers| == |ops|
            && (Take(c, s, Consult(w)).workers[w] == Done(s.workers[w].request, Sent(response))
                <==> exists i: nat, j: nat ::
                       StillThere(ops, answers, n, c.ttl, c.capacity, i, j)
                       && ops[i].request.payload == s.workers[w].request.payload && ops[i].response == response)
  {
    hide Allowed, Reached, Accesses, Nondecreasing, Answers, AnswerTo, Apply, StillThere, Released, EndRun, ApplyAll;
    var s := Reached(c, Start(clock), steps);
    var op := LookupOp(s.workers[w].request, s.workers[w].now);
    var ops := Accesses(c, Start(clock), steps) + [op];
    CacheIsItsAccesses(c, Start(clock), steps);
    LastAnswer([], Accesses(c, Start(clock), steps), op, c.ttl, c.capacity);
    LookupsAnsweredExactly(ops, c.ttl, c.capacity, |ops| - 1);
    ThereIsStored(ops, Answers([], ops, c.ttl, c.capacity), |ops| - 1, c.ttl, c.capacity);
  }

  lemma ThereIsStored(ops: seq<CacheOp>, answers: seq<CacheLookup>, n: nat, ttl: Duration, capacity: nat)
    requires n < |ops| && |answers| == |ops|
    ensures forall i: nat, j: nat :: StillThere(ops, answers, n, ttl, capacity, i, j) ==> i < n && ops[i].InsertOp?
  {
  }

  // ---------- a stale response that is sent ----------

  lemma {:induction false} RunsJoin(c: Config, s: World, a: seq<Step>, b: seq<Step>)
    requires Allowed(c, s, a) && Allowed(c, Reached(c, s, a), b)
    ensures Allowed(c, s, a + b) && Reached(c, s, a + b) == Reached(c, Reached(c, s, a), b)
    decreases |a|
  {
    hide Take, Enabled;
    if a == [] {
      assert a + b == b;
    } else {
      RunsJoin(c, Take(c, s, a[0]), a[1..], b);
      assert (a + b)[1..] == a[1..] + b;
    }
  }

  lemma OneStep(c: Config, s: World, step: Step)
    requires Enabled(c, s, step)
    ensures Allowed(c, s, [step]) && Reached(c, s, [step]) == Take(c, s, step)
  {
    hide Take, Enabled;
    assert [step][1..] == [];
  }

  lemma ThreeSteps(c: Config, s: World, x: Step, y: Step, z: Step)
    requires Enabled(c, s, x) && Enabled(c, Take(c, s, x), y) && Enabled(c, Take(c, Take(c, s, x), y), z)
    ensures Allowed(c, s, [x, y, z]) && Reached(c, s, [x, y, z]) == Take(c, Take(c, Take(c, s, x), y), z)
  {
    hide Take, Enabled;
    var t := Take(c, s, x);
    OneStep(c, s, x);
    OneStep(c, t, y);
    OneStep(c, Take(c, t, y), z);
    RunsJoin(c, s, [x], [y]);
    RunsJoin(c, s, [x] + [y], [z]);
    assert [x] + [y] + [z] == [x, y, z];
  }

  /** A new worker takes the lock of its request and reads the clock. */
  function Entering(w: Worker, request: Request): seq<Step> {
    [Arrive(w, request), Acquire(w), ReadClock(w)]
  }

  lemma Enters(c: Config, s: World, w: Worker, request: Request)
    requires w !in s.workers && c.stripe(request.id) !in s.locks
    ensures Allowed(c, s, Entering(w, request))
    ensures var r := Reached(c, s, Entering(w, request));
            && r.clock == s.clock && r.cache == s.cache && r.locks == s.locks[c.stripe(request.id) := w]
            && r.workers == s.workers[w := Stamped(request, s.clock)]
  {
    hide Apply, AnswerTo;
    ThreeSteps(c, s, Arrive(w, request), Acquire(w), ReadClock(w));
  }

  /** A worker whose request the cache does not know runs the handler and stores the response. */
  function Executed(w: Worker, response: Response): seq<Step> {
    [Consult(w), Complete(w, response), Store(w)]
  }

  lemma Executes(c: Config, s: World, w: Worker, response: Response)
    requires w in s.workers && s.workers[w].Stamped? && |response| <= c.maxResponse
    requires var p := s.workers[w]; AnswerTo(s.cache, LookupOp(p.request, p.now), c.ttl).Miss?
    ensures Allowed(c, s, Executed(w, response))
    ensures var r, p := Reached(c, s, Executed(w, response)), s.workers[w];
            && r.clock == s.clock && r.locks == s.locks - {c.stripe(p.request.id)}
            && r.cache == Apply(Apply(s.cache, LookupOp(p.request, p.now), c.ttl, c.capacity),
                                InsertOp(p.request, response, p.now), c.ttl, c.capacity)
            && r.workers == s.workers[w := Done(p.request, Sent(response))]
  {
    hide Apply, AnswerTo, EndRun;
    ThreeSteps(c, s, Consult(w), Complete(w, response), Store(w));
  }

  /** Worker 2 reads the clock, is overtaken by worker 1, and stores its response under the
      old time behind the newer one; two ticks later worker 3 asks for it again. */
  function Overtaking(p: Payload, response: Response): seq<Step> {
    Entering(2, Request(2, p)) + [Tick(10)]
    + Entering(1, Request(1, p)) + Executed(1, response)
    + Executed(2, response)
    + [Tick(2)] + Entering(3, Request(2, p))
  }

  lemma OvertakingCaches(p: Payload, response: Response)
    ensures var first := [Slot(1, CacheEntry(p, response, 10))];
            && AnswerTo([], LookupOp(Request(1, p), 10), 5).Miss?
            && Apply(Apply([], LookupOp(Request(1, p), 10), 5, 4), InsertOp(Request(1, p), response, 10), 5, 4) == first
            && AnswerTo(first, LookupOp(Request(2, p), 0), 5).Miss?
            && Apply(Apply(first, LookupOp(Request(2, p), 0), 5, 4), InsertOp(Request(2, p), response, 0), 5, 4)
               == first + [Slot(2, CacheEntry(p, response, 0))]
  {
    var first := [Slot(1, CacheEntry(p, response, 10))];
    assert first[1..] == [];
    assert IndexOf(first, 2) == 1;
  }

  lemma OvertakingReplays(p: Payload, response: Response)
    ensures var both := [Slot(1, CacheEntry(p, response, 10))] + [Slot(2, CacheEntry(p, response, 0))];
            AnswerTo(both, LookupOp(Request(2, p), 12), 5) == Replay(response) && Stale(both[1], 12, 5)
  {
    var both := [Slot(1, CacheEntry(p, response, 10))] + [Slot(2, CacheEntry(p, response, 0))];
    assert IndexOf(both, 2) == 1 by { assert both[1..][0].id == 2; }
  }

  ghost predicate Leads(c: Config, s: World, steps: seq<Step>, r: World) {
    Allowed(c, s, steps) && Reached(c, s, steps) == r
  }

  lemma LeadsOn(c: Config, s: World, a: seq<Step>, t: World, b: seq<Step>, r: World)
    requires Leads(c, s, a, t) && Leads(c, t, b, r)
    ensures Leads(c, s, a + b, r)
  {
    RunsJoin(c, s, a, b);
  }

  lemma Passes(c: Config, s: World, elapsed: Duration)
    ensures Enabled(c, s, Tick(elapsed)) && Leads(c, s, [Tick(elapsed)], Take(c, s, Tick(elapsed)))
    ensures var r := Take(c, s, Tick(elapsed));
            r.clock == s.clock + elapsed && r.cache == s.cache && r.locks == s.locks && r.workers == s.workers
  {
    OneStep(c, s, Tick(elapsed));
  }

  /** The first half: both responses are stored, the older time last. */
  lemma Overtaken(c: Config, p: Payload, response: Response) returns (s: World)
    requires c.ttl == 5 && c.capacity == 4 && |response| <= c.maxResponse && c.stripe(1) != c.stripe(2)
    ensures Leads(c, Start(0), Entering(2, Request(2, p)) + [Tick(10)] + Entering(1, Request(1, p))
                               + Executed(1, response) + Executed(2, response), s)
    ensures s.clock == 10 && s.locks == map[] && 3 !in s.workers
    ensures s.cache == [Slot(1, CacheEntry(p, response, 10))] + [Slot(2, CacheEntry(p, response, 0))]
  {
    hide Allowed, Reached, Apply, AnswerTo, Leads, Take, Entering, Executed;
    OvertakingCaches(p, response);
    var a, b := Request(1, p), Request(2, p);
    Enters(c, Start(0), 2, b);
    var s1 := Reached(c, Start(0), Entering(2, b));
    LeadsTo(c, Start(0), Entering(2, b));
    Passes(c, s1, 10);
    var s2 := Take(c, s1, Tick(10));
    LeadsOn(c, Start(0), Entering(2, b), s1, [Tick(10)], s2);
    Enters(c, s2, 1, a);
    LeadsTo(c, s2, Entering(1, a));
    var s3 := Reached(c, s2, Entering(1, a));
    LeadsOn(c, Start(0), Entering(2, b) + [Tick(10)], s2, Entering(1, a), s3);
    Executes(c, s3, 1, response);
    LeadsTo(c, s3, Executed(1, response));
    var s4 := Reached(c, s3, Executed(1, response));
    LeadsOn(c, Start(0), Entering(2, b) + [Tick(10)] + Entering(1, a), s3, Executed(1, response), s4);
    Executes(c, s4, 2, response);
    LeadsTo(c, s4, Executed(2, response));
    s := Reached(c, s4, Executed(2, response));
    LeadsOn(c, Start(0), Entering(2, b) + [Tick(10)] + Entering(1, a) + Executed(1, response), s4,
            Executed(2, response), s);
  }

  lemma LeadsTo(c: Config, s: World, steps: seq<Step>)
    requires Allowed(c, s, steps)
    ensures Leads(c, s, steps, Reached(c, s, steps))
  {
  }

  /** The expiry of the cache looks at its front only, and the protocol reaches the state in
      which that matters: two workers interleave, and a third is sent a response whose time is
      twelve ticks old although responses live for five. */
  lemma StaleResponseIsSent(c: Config, p: Payload, response: Response)
    requires c.ttl == 5 && c.capacity == 4 && |response| <= c.maxResponse && c.stripe(1) != c.stripe(2)
    ensures Allowed(c, Start(0), Overtaking(p, response))
    ensures var s := Reached(c, Start(0), Overtaking(p, response));
            && Enabled(c, s, Consult(3)) && s.clock == 12
            && (exists x :: x in s.cache && x.id == 2 && Stale(x, s.clock, c.ttl))
            && Take(c, s, Consult(3)).workers[3] == Done(Request(2, p), Sent(response))
  {
    hide Allowed, Reached, Apply, AnswerTo, Stale, Leads, Entering, Executed;
    var first := Entering(2, Request(2, p)) + [Tick(10)] + Entering(1, Request(1, p))
                 + Executed(1, response) + Executed(2, response);
    var s := Overtaken(c, p, response);
    Passes(c, s, 2);
    var t := Take(c, s, Tick(2));
    LeadsOn(c, Start(0), first, s, [Tick(2)], t);
    Enters(c, t, 3, Request(2, p));
    LeadsTo(c, t, Entering(3, Request(2, p)));
    var r := Reached(c, t, Entering(3, Request(2, p)));
    LeadsOn(c, Start(0), first + [Tick(2)], t, Entering(3, Request(2, p)), r);
    assert first + [Tick(2)] + Entering(3, Request(2, p)) == Overtaking(p, response);
    LeadsMeans(c, Start(0), Overtaking(p, response), r);
    OvertakingReplays(p, response);
    assert r.cache[1].id == 2 && r.cache[1] in r.cache;
  }

  lemma LeadsMeans(c: Config, s: World, steps: seq<Step>, r: World)
    requires Leads(c, s, steps, r)
    ensures Allowed(c, s, steps) && Reached(c, s, steps) == r
  {
  }
}
