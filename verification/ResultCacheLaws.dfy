/** What the request cache promises: exact age and recency when times do not run backwards,
    and how long an entry is sure to stay when they may. */
module ResultCacheLaws {
  import opened Wrappers
  import opened Notifications
  import opened Seqs
  import opened ResultCaches

  datatype CacheOp =
    | LookupOp(request: Request, now: Instant)
    | InsertOp(request: Request, response: Response, now: Instant)

  function Apply(l: seq<Slot>, op: CacheOp, ttl: Duration, capacity: nat): seq<Slot> {
    var d := DropStale(l, op.now, ttl);
    match op
    case LookupOp(request, now) => AfterLookup(d, request, now)
    case InsertOp(request, response, now) => LastN(Renew(d, Inserted(request, response, now)), capacity)
  }

  /** An insert answers nothing; `Miss` stands for that. */
  function AnswerTo(l: seq<Slot>, op: CacheOp, ttl: Duration): CacheLookup {
    match op
    case LookupOp(request, now) => Answer(DropStale(l, now, ttl), request)
    case InsertOp(_, _, _) => Miss
  }

  // ---------- lists of slots ----------

  lemma {:induction false} DropStaleSuffix(l: seq<Slot>, now: Instant, ttl: Duration)
    ensures var d := DropStale(l, now, ttl);
            && |d| <= |l| && d == l[|l| - |d|..]
            && (forall i :: 0 <= i < |l| - |d| ==> Stale(l[i], now, ttl))
            && (d != [] ==> !Stale(d[0], now, ttl))
  {
    if l != [] && Stale(l[0], now, ttl) {
      DropStaleSuffix(l[1..], now, ttl);
      var d := DropStale(l, now, ttl);
      assert d == l[1..][|l| - 1 - |d|..] == l[|l| - |d|..];
      forall i | 0 <= i < |l| - |d| ensures Stale(l[i], now, ttl) {
        if i > 0 { assert l[1..][i - 1] == l[i]; }
      }
    }
  }

  lemma IndexAt(l: seq<Slot>, i: nat)
    requires UniqueIds(l) && i < |l|
    ensures IndexOf(l, l[i].id) == i
  {
  }

  lemma RenewKeeps(l: seq<Slot>, slot: Slot)
    requires UniqueIds(l)
    ensures UniqueIds(Renew(l, slot)) && |Renew(l, slot)| <= |l| + 1
    ensures IndexOf(l, slot.id) < |l| ==> |Renew(l, slot)| == |l|
  {
  }

  lemma SuffixUnique(l: seq<Slot>, k: nat)
    requires UniqueIds(l) && k <= |l|
    ensures UniqueIds(l[k..])
  {
  }

  /** For any times at all: no id twice, never more than the capacity. */
  lemma ApplyKeeps(l: seq<Slot>, op: CacheOp, ttl: Duration, capacity: nat)
    requires UniqueIds(l) && |l| <= capacity
    ensures UniqueIds(Apply(l, op, ttl, capacity)) && |Apply(l, op, ttl, capacity)| <= capacity
  {
    hide Renew, IndexOf, DropStale, UniqueIds;
    var d := DropStale(l, op.now, ttl);
    DropStaleSuffix(l, op.now, ttl);
    SuffixUnique(l, |l| - |d|);
    match op
    case LookupOp(request, now) =>
      var i := IndexOf(d, request.id);
      if i < |d| { RenewKeeps(d, Slot(request.id, d[i].entry.(touchedAt := now))); }
    case InsertOp(request, response, now) =>
      var r := Renew(d, Inserted(request, response, now));
      RenewKeeps(d, Inserted(request, response, now));
      if |r| > capacity { SuffixUnique(r, |r| - capacity); }
  }

  // ---------- age ----------

  ghost predicate StaleFirst(l: seq<Slot>, now: Instant, ttl: Duration) {
    forall i, j :: 0 <= i < j < |l| && Stale(l[j], now, ttl) ==> Stale(l[i], now, ttl)
  }

  lemma {:induction false} LiveMembers(l: seq<Slot>, now: Instant, ttl: Duration)
    ensures forall x :: x in Live(l, now, ttl) <==> x in l && !Stale(x, now, ttl)
    ensures |Live(l, now, ttl)| <= |l|
    ensures Live(l, now, ttl) == l <==> forall i :: 0 <= i < |l| ==> !Stale(l[i], now, ttl)
  {
    if l != [] {
      LiveMembers(l[1..], now, ttl);
      assert l == [l[0]] + l[1..];
      var rest := Live(l[1..], now, ttl);
      if Stale(l[0], now, ttl) {
        assert |Live(l, now, ttl)| < |l|;
      } else {
        assert Live(l, now, ttl)[1..] == rest;
        if Live(l, now, ttl) == l {
          assert rest == l[1..];
        }
      }
    }
  }

  lemma {:induction false} LiveAfterStale(l: seq<Slot>, k: nat, now: Instant, ttl: Duration)
    requires k <= |l| && forall i :: 0 <= i < k ==> Stale(l[i], now, ttl)
    ensures Live(l, now, ttl) == Live(l[k..], now, ttl)
  {
    if k > 0 {
      LiveAfterStale(l[1..], k - 1, now, ttl);
      assert l[1..][k - 1..] == l[k..];
    } else {
      assert l[0..] == l;
    }
  }

  /** Looking only at the front expires exactly what is too old if, and only if, no stale
      slot sits behind a fresh one. */
  lemma FrontExpiryIsExact(l: seq<Slot>, now: Instant, ttl: Duration)
    ensures DropStale(l, now, ttl) == Live(l, now, ttl) <==> StaleFirst(l, now, ttl)
  {
    var d := DropStale(l, now, ttl);
    DropStaleSuffix(l, now, ttl);
    LiveAfterStale(l, |l| - |d|, now, ttl);
    LiveMembers(d, now, ttl);
    hide DropStale, Live, Stale, StaleFirst;
    FreshFrom(l, d, now, ttl);
  }

  /** Past a stale front that ends in a fresh slot: all fresh means no stale slot is behind a fresh one. */
  lemma FreshFrom(l: seq<Slot>, d: seq<Slot>, now: Instant, ttl: Duration)
    requires |d| <= |l| && d == l[|l| - |d|..] && (d != [] ==> !Stale(d[0], now, ttl))
    requires forall i :: 0 <= i < |l| - |d| ==> Stale(l[i], now, ttl)
    ensures (forall i :: 0 <= i < |d| ==> !Stale(d[i], now, ttl)) <==> StaleFirst(l, now, ttl)
  {
    hide Stale;
    var k := |l| - |d|;
    assert forall i :: 0 <= i < |d| ==> d[i] == l[k + i];
    assert forall i :: k <= i < |l| ==> l[i] == d[i - k];
  }

  /** Least recently used first is also longest untouched first. */
  ghost predicate Aged(l: seq<Slot>, now: Instant) {
    && (forall i, j :: 0 <= i < j < |l| ==> l[i].entry.touchedAt <= l[j].entry.touchedAt)
    && (forall i :: 0 <= i < |l| ==> l[i].entry.touchedAt <= now)
  }

  lemma AgedStaleFirst(l: seq<Slot>, prior: Instant, now: Instant, ttl: Duration)
    requires Aged(l, prior)
    ensures StaleFirst(l, now, ttl)
  {
  }

  // ---------- the bounded cache against an unbounded memory ----------

  /** A memory that never forgets, seen through the cache's age and size limits. */
  function Window(memory: seq<Slot>, now: Instant, ttl: Duration, capacity: nat): seq<Slot> {
    LastN(Live(memory, now, ttl), capacity)
  }

  function Remember(memory: seq<Slot>, op: CacheOp, ttl: Duration, capacity: nat): seq<Slot> {
    match op
    case LookupOp(request, now) =>
      (match Answer(Window(memory, now, ttl, capacity), request)
       case Replay(response) => Renew(memory, Inserted(request, response, now))
       case _ => memory)
    case InsertOp(request, response, now) => Renew(memory, Inserted(request, response, now))
  }

  function Recall(memory: seq<Slot>, op: CacheOp, ttl: Duration, capacity: nat): CacheLookup {
    match op
    case LookupOp(request, now) => Answer(Window(memory, now, ttl, capacity), request)
    case InsertOp(_, _, _) => Miss
  }

  /** The cache holds the newest part of the memory, and what it lacks is too old or too far down. */
  ghost predicate Mirrors(l: seq<Slot>, memory: seq<Slot>, now: Instant, ttl: Duration, capacity: nat) {
    && |l| <= |memory| && |l| <= capacity && l == memory[|memory| - |l|..]
    && (|l| == capacity || forall i :: 0 <= i < |memory| - |l| ==> Stale(memory[i], now, ttl))
  }

  lemma SuffixOfSuffix(m: seq<Slot>, l: seq<Slot>, d: seq<Slot>)
    requires |d| <= |l| <= |m| && l == m[|m| - |l|..] && d == l[|l| - |d|..]
    ensures d == m[|m| - |d|..]
    ensures |d| < |l| ==> m[|m| - |d| - 1] == l[|l| - |d| - 1]
  {
  }

  lemma StaleBefore(m: seq<Slot>, prior: Instant, now: Instant, ttl: Duration, j: nat)
    requires Aged(m, prior) && j < |m| && Stale(m[j], now, ttl)
    ensures forall i :: 0 <= i <= j ==> Stale(m[i], now, ttl)
  {
  }

  lemma StaleLater(m: seq<Slot>, k: nat, prior: Instant, now: Instant, ttl: Duration)
    requires k <= |m| && prior <= now && forall i :: 0 <= i < k ==> Stale(m[i], prior, ttl)
    ensures forall i :: 0 <= i < k ==> Stale(m[i], now, ttl)
  {
  }

  lemma ExpiryMirrors(l: seq<Slot>, memory: seq<Slot>, prior: Instant, now: Instant, ttl: Duration, capacity: nat)
    requires Mirrors(l, memory, prior, ttl, capacity) && Aged(memory, prior) && prior <= now
    ensures Mirrors(DropStale(l, now, ttl), memory, now, ttl, capacity)
  {
    var d := DropStale(l, now, ttl);
    DropStaleSuffix(l, now, ttl);
    hide DropStale, Stale, Aged;
    SuffixOfSuffix(memory, l, d);
    if |d| < |l| {
      assert Stale(l[|l| - |d| - 1], now, ttl);
      StaleBefore(memory, prior, now, ttl, |memory| - |d| - 1);
    } else if |l| < capacity {
      StaleLater(memory, |memory| - |l|, prior, now, ttl);
    }
  }

  lemma {:induction false} LiveSplit(a: seq<Slot>, b: seq<Slot>, now: Instant, ttl: Duration)
    ensures Live(a + b, now, ttl) == Live(a, now, ttl) + Live(b, now, ttl)
  {
    hide Stale;
    if a == [] {
      assert a + b == b;
      assert [] + Live(b, now, ttl) == Live(b, now, ttl);
    } else {
      LiveSplit(a[1..], b, now, ttl);
      assert (a + b)[1..] == a[1..] + b;
      Associate([a[0]], Live(a[1..], now, ttl), Live(b, now, ttl));
    }
  }

  /** Once expired, the cache is exactly what age and size leave of the memory. */
  lemma ExpiredIsWindow(d: seq<Slot>, memory: seq<Slot>, prior: Instant, now: Instant, ttl: Duration, capacity: nat)
    requires Mirrors(d, memory, now, ttl, capacity) && Aged(memory, prior)
    requires d != [] ==> !Stale(d[0], now, ttl)
    ensures d == Window(memory, now, ttl, capacity)
  {
    var k := |memory| - |d|;
    AgedStaleFirst(memory, prior, now, ttl);
    forall i | 0 <= i < |d| ensures !Stale(d[i], now, ttl) {
      assert d[i] == memory[k + i] && d[0] == memory[k];
    }
    LiveMembers(d, now, ttl);
    assert memory == memory[..k] + d;
    LiveSplit(memory[..k], d, now, ttl);
    var front := Live(memory[..k], now, ttl);
    if |d| < capacity {
      LiveAfterStale(memory[..k], k, now, ttl);
      assert memory[..k][k..] == [];
      assert front == [];
    }
    assert Window(memory, now, ttl, capacity) == LastN(front + d, capacity) == d;
  }

  lemma {:induction false} IndexSplit(a: seq<Slot>, b: seq<Slot>, id: RequestId)
    ensures IndexOf(a + b, id) == if IndexOf(a, id) < |a| then IndexOf(a, id) else |a| + IndexOf(b, id)
  {
    if a == [] {
      assert a + b == b;
    } else if a[0].id != id {
      IndexSplit(a[1..], b, id);
      assert (a + b)[1..] == a[1..] + b;
    }
  }

  lemma RemoveAtSplit(a: seq<Slot>, b: seq<Slot>, i: nat)
    requires i < |a| + |b|
    ensures RemoveAt(a + b, i) == if i < |a| then RemoveAt(a, i) + b else a + RemoveAt(b, i - |a|)
  {
  }

  lemma OnlyOnce(a: seq<Slot>, b: seq<Slot>, id: RequestId)
    requires UniqueIds(a + b) && IndexOf(b, id) < |b|
    ensures IndexOf(a, id) == |a|
  {
    var i, j := IndexOf(a, id), IndexOf(b, id);
    assert (a + b)[|a| + j] == b[j];
    assert forall m :: 0 <= m < |a| ==> (a + b)[m] == a[m];
  }

  lemma ForgetSplit(a: seq<Slot>, b: seq<Slot>, id: RequestId)
    requires UniqueIds(a + b)
    ensures IndexOf(b, id) < |b| ==> Forget(a + b, id) == a + Forget(b, id)
    ensures IndexOf(b, id) == |b| ==> Forget(a + b, id) == Forget(a, id) + b && Forget(b, id) == b
  {
    hide UniqueIds, RemoveAt, IndexOf;
    IndexSplit(a, b, id);
    RemoveAtSplitAll(a, b);
    if IndexOf(b, id) < |b| {
      OnlyOnce(a, b, id);
    }
  }

  lemma RemoveAtSplitAll(a: seq<Slot>, b: seq<Slot>)
    ensures forall i {:trigger RemoveAt(a + b, i)} :: 0 <= i < |a| + |b| ==>
      RemoveAt(a + b, i) == if i < |a| then RemoveAt(a, i) + b else a + RemoveAt(b, i - |a|)
  {
    forall i | 0 <= i < |a| + |b|
      ensures RemoveAt(a + b, i) == if i < |a| then RemoveAt(a, i) + b else a + RemoveAt(b, i - |a|)
    {
      RemoveAtSplit(a, b, i);
    }
  }

  /** The renewed slot was cached: the part before the cache is untouched. */
  lemma RenewInside(a: seq<Slot>, d: seq<Slot>, slot: Slot)
    requires UniqueIds(a + d) && IndexOf(d, slot.id) < |d|
    ensures Renew(a + d, slot) == a + Renew(d, slot) && |Renew(d, slot)| == |d|
  {
    hide UniqueIds, IndexOf;
    ForgetSplit(a, d, slot.id);
  }

  lemma RenewOutside(a: seq<Slot>, d: seq<Slot>, slot: Slot)
    requires UniqueIds(a + d) && IndexOf(d, slot.id) == |d|
    ensures Renew(a + d, slot) == Forget(a, slot.id) + (d + [slot]) && Renew(d, slot) == d + [slot]
    ensures forall x :: x in Forget(a, slot.id) ==> x in a
  {
    hide UniqueIds, IndexOf, Forget;
    ForgetSplit(a, d, slot.id);
    ForgetMembers(a, slot.id);
    assert (Forget(a, slot.id) + d) + [slot] == Forget(a, slot.id) + (d + [slot]);
  }

  lemma ForgetMembers(a: seq<Slot>, id: RequestId)
    ensures forall x :: x in Forget(a, id) ==> x in a
  {
  }

  lemma SuffixTail(f: seq<Slot>, n: seq<Slot>, capacity: nat)
    requires |n| <= capacity + 1
    ensures var r := LastN(n, capacity); var m := f + n;
            |r| <= |m| && r == m[|m| - |r|..] && |r| <= capacity && (|n| <= capacity ==> r == n)
            && (|n| > capacity ==> |r| == capacity)
  {
  }

  lemma RenewMirrors(d: seq<Slot>, memory: seq<Slot>, slot: Slot, now: Instant, ttl: Duration, capacity: nat)
    requires Mirrors(d, memory, now, ttl, capacity) && UniqueIds(memory) && capacity > 0
    ensures Mirrors(LastN(Renew(d, slot), capacity), Renew(memory, slot), now, ttl, capacity)
  {
    var k := |memory| - |d|;
    var a := memory[..k];
    assert memory == a + d;
    assert |d| < capacity ==> forall x :: x in a ==> Stale(x, now, ttl);
    hide UniqueIds, LastN, Renew, Forget, Stale, IndexOf, Mirrors;
    if IndexOf(d, slot.id) < |d| {
      RenewInside(a, d, slot);
      BehindMirrors(a, Renew(d, slot), now, ttl, capacity);
    } else {
      RenewOutside(a, d, slot);
      BehindMirrors(Forget(a, slot.id), d + [slot], now, ttl, capacity);
    }
  }

  /** A cache behind a stale part, or full, mirrors the two together. */
  lemma BehindMirrors(f: seq<Slot>, n: seq<Slot>, now: Instant, ttl: Duration, capacity: nat)
    requires |n| <= capacity + 1
    requires |n| < capacity ==> forall x :: x in f ==> Stale(x, now, ttl)
    ensures Mirrors(LastN(n, capacity), f + n, now, ttl, capacity)
  {
    hide Stale;
    SuffixTail(f, n, capacity);
  }

  lemma RenewAged(memory: seq<Slot>, slot: Slot, prior: Instant, now: Instant)
    requires Aged(memory, prior) && prior <= now && slot.entry.touchedAt == now
    ensures Aged(Renew(memory, slot), now)
  {
  }

  /** A replayed slot is renewed with the payload it has, which is the request's. */
  lemma ReplayRenews(d: seq<Slot>, request: Request, now: Instant)
    requires Answer(d, request).Replay?
    ensures AfterLookup(d, request, now) == Renew(d, Inserted(request, Answer(d, request).response, now))
    ensures |AfterLookup(d, request, now)| == |d|
  {
  }

  /** One operation: the bounded cache and the unbounded memory answer alike and stay in step. */
  lemma StepMirrors(l: seq<Slot>, memory: seq<Slot>, op: CacheOp, prior: Instant, ttl: Duration, capacity: nat)
    requires Mirrors(l, memory, prior, ttl, capacity) && Aged(memory, prior) && UniqueIds(memory)
    requires prior <= op.now && capacity > 0
    ensures AnswerTo(l, op, ttl) == Recall(memory, op, ttl, capacity)
    ensures var m := Remember(memory, op, ttl, capacity);
            Mirrors(Apply(l, op, ttl, capacity), m, op.now, ttl, capacity) && Aged(m, op.now) && UniqueIds(m)
  {
    hide DropStale, Mirrors, Aged, UniqueIds, Window, Renew, Answer, AfterLookup;
    var d := DropStale(l, op.now, ttl);
    ExpiryMirrors(l, memory, prior, op.now, ttl, capacity);
    DropStaleSuffix(l, op.now, ttl);
    ExpiredIsWindow(d, memory, prior, op.now, ttl, capacity);
    AgedLater(memory, prior, op.now);
    var response := if op.InsertOp? then op.response
                    else if Answer(d, op.request).Replay? then Answer(d, op.request).response
                    else "";
    var slot := Inserted(op.request, response, op.now);
    RenewMirrors(d, memory, slot, op.now, ttl, capacity);
    RenewAged(memory, slot, prior, op.now);
    RenewKeeps(memory, slot);
    if op.LookupOp? {
      if Answer(d, op.request).Replay? {
        ReplayRenews(d, op.request, op.now);
        MirrorsSize(d, memory, op.now, ttl, capacity);
      } else {
        NoReplay(d, op.request, op.now);
      }
    }
  }

  lemma NoReplay(d: seq<Slot>, request: Request, now: Instant)
    requires !Answer(d, request).Replay?
    ensures AfterLookup(d, request, now) == d
  {
  }

  lemma MirrorsSize(d: seq<Slot>, memory: seq<Slot>, now: Instant, ttl: Duration, capacity: nat)
    requires Mirrors(d, memory, now, ttl, capacity)
    ensures |d| <= capacity
  {
  }

  lemma AgedLater(memory: seq<Slot>, prior: Instant, now: Instant)
    requires Aged(memory, prior) && prior <= now
    ensures Aged(memory, now)
  {
  }

  function Answers(l: seq<Slot>, ops: seq<CacheOp>, ttl: Duration, capacity: nat): seq<CacheLookup>
    decreases |ops|
  {
    if ops == [] then []
    else [AnswerTo(l, ops[0], ttl)] + Answers(Apply(l, ops[0], ttl, capacity), ops[1..], ttl, capacity)
  }

  function Recalls(memory: seq<Slot>, ops: seq<CacheOp>, ttl: Duration, capacity: nat): seq<CacheLookup>
    decreases |ops|
  {
    if ops == [] then []
    else [Recall(memory, ops[0], ttl, capacity)]
         + Recalls(Remember(memory, ops[0], ttl, capacity), ops[1..], ttl, capacity)
  }

  ghost predicate Nondecreasing(prior: Instant, ops: seq<CacheOp>)
    decreases |ops|
  {
    ops == [] || (prior <= ops[0].now && Nondecreasing(ops[0].now, ops[1..]))
  }

  lemma {:induction false} AnswersMirror(l: seq<Slot>, memory: seq<Slot>, prior: Instant, ops: seq<CacheOp>,
                                         ttl: Duration, capacity: nat)
    requires Mirrors(l, memory, prior, ttl, capacity) && Aged(memory, prior) && UniqueIds(memory)
    requires Nondecreasing(prior, ops) && capacity > 0
    ensures Answers(l, ops, ttl, capacity) == Recalls(memory, ops, ttl, capacity)
    decreases |ops|
  {
    if ops != [] {
      hide Mirrors, Aged, UniqueIds, Apply, Remember, Recall, AnswerTo;
      StepMirrors(l, memory, ops[0], prior, ttl, capacity);
      AnswersMirror(Apply(l, ops[0], ttl, capacity), Remember(memory, ops[0], ttl, capacity), ops[0].now, ops[1..],
                    ttl, capacity);
    }
  }

  /** For every history of operations whose times do not run backwards, the cache answers as
      a memory of everything ever stored, of which only the `capacity` most recently used
      slots younger than the time to live may be seen. */
  lemma CacheIsBoundedMemory(ops: seq<CacheOp>, ttl: Duration, capacity: nat)
    requires Nondecreasing(0, ops) && capacity > 0
    ensures Answers([], ops, ttl, capacity) == Recalls([], ops, ttl, capacity)
  {
    AnswersMirror([], [], 0, ops, ttl, capacity);
  }

  // ---------- how long an entry is sure to stay ----------

  /** The id an operation makes the most recently used. */
  function TouchedBy(l: seq<Slot>, op: CacheOp, ttl: Duration): Option<RequestId> {
    if op.InsertOp? || AnswerTo(l, op, ttl).Replay? then Some(op.request.id) else None
  }

  /** The other ids touched since `id` last was. */
  function Since(since: set<RequestId>, id: RequestId, touched: Option<RequestId>): set<RequestId> {
    if touched == None then since
    else if touched == Some(id) then {}
    else since + {touched.value}
  }

  /** Along the operations, `id` is never too old when the cache is looked at, fewer than
      `capacity` others are touched since it last was, and nothing overwrites it. */
  ghost predicate Undisturbed(l: seq<Slot>, id: RequestId, touchedAt: Instant, since: set<RequestId>,
                              ops: seq<CacheOp>, ttl: Duration, capacity: nat)
    decreases |ops|
  {
    ops == [] ||
    var op := ops[0];
    var touched := TouchedBy(l, op, ttl);
    && Age(op.now, touchedAt) < ttl
    && (op.InsertOp? ==> op.request.id != id)
    && |Since(since, id, touched)| < capacity
    && Undisturbed(Apply(l, op, ttl, capacity), id, if touched == Some(id) then op.now else touchedAt,
                   Since(since, id, touched), ops[1..], ttl, capacity)
  }

  ghost function IdSet(l: seq<Slot>): set<RequestId> {
    set x | x in l :: x.id
  }

  lemma {:induction false} IdSetSize(l: seq<Slot>)
    requires UniqueIds(l)
    ensures |IdSet(l)| == |l|
  {
    if l == [] {
      assert IdSet(l) == {};
    } else {
      IdSetSize(l[1..]);
      assert l == [l[0]] + l[1..];
      assert l[0].id !in IdSet(l[1..]);
      assert IdSet(l) == {l[0].id} + IdSet(l[1..]);
    }
  }

  /** A cache list with one slot singled out. */
  ghost predicate Around(l: seq<Slot>, a: seq<Slot>, x: Slot, b: seq<Slot>) {
    l == a + [x] + b && UniqueIds(l)
  }

  lemma AroundIndex(l: seq<Slot>, a: seq<Slot>, x: Slot, b: seq<Slot>)
    requires Around(l, a, x, b)
    ensures |l| == |a| + 1 + |b| && l[|a|] == x && IndexOf(l, x.id) == |a|
    ensures IndexOf(b, x.id) == |b| && UniqueIds(b) && l == a + ([x] + b)
  {
    assert l[|a|] == x;
    assert a + [x] + b == a + ([x] + b);
    AroundTail(l, a, x, b);
    hide UniqueIds;
    IndexAt(l, |a|);
  }

  lemma AroundTail(l: seq<Slot>, a: seq<Slot>, x: Slot, b: seq<Slot>)
    requires Around(l, a, x, b)
    ensures IndexOf(b, x.id) == |b| && UniqueIds(b)
  {
    var k := |a| + 1;
    assert l[k..] == b;
    SuffixUnique(l, k);
    assert l[|a|] == x;
    assert forall i :: k <= i < |l| ==> l[i] == b[i - k];
    hide IndexOf;
    NotBehind(b, x.id);
  }

  lemma NotBehind(b: seq<Slot>, id: RequestId)
    requires forall i :: 0 <= i < |b| ==> b[i].id != id
    ensures IndexOf(b, id) == |b|
  {
  }

  lemma {:induction false} DropStaleAround(l: seq<Slot>, a: seq<Slot>, x: Slot, b: seq<Slot>, now: Instant,
                                           ttl: Duration)
    returns (a': seq<Slot>)
    requires Around(l, a, x, b) && !Stale(x, now, ttl)
    ensures Around(DropStale(l, now, ttl), a', x, b)
  {
    AroundIndex(l, a, x, b);
    DropStaleSuffix(l, now, ttl);
    var d := DropStale(l, now, ttl);
    var k := |l| - |d|;
    SuffixUnique(l, k);
    assert k <= |a| by {
      assert l[|a|] == x;
    }
    a' := a[k..];
    assert d == a' + [x] + b;
  }

  lemma RenewAround(l: seq<Slot>, a: seq<Slot>, x: Slot, b: seq<Slot>, slot: Slot)
    returns (a': seq<Slot>, b': seq<Slot>)
    requires Around(l, a, x, b) && slot.id != x.id
    ensures Around(Renew(l, slot), a', x, b') && IdSet(b') == IdSet(b) + {slot.id}
  {
    AroundIndex(l, a, x, b);
    RenewKeeps(l, slot);
    ForgetSplit(a + [x], b, slot.id);
    if IndexOf(b, slot.id) < |b| {
      a', b' := a, Forget(b, slot.id) + [slot];
      ForgotIds(b, slot.id);
    } else {
      assert UniqueIds(a + [x]) by { assert forall i :: 0 <= i < |a| + 1 ==> (a + [x])[i] == l[i]; }
      ForgetSplit(a, [x], slot.id);
      a', b' := Forget(a, slot.id), b + [slot];
      assert Forget(a + [x], slot.id) == Forget(a, slot.id) + [x];
    }
    assert Renew(l, slot) == a' + [x] + b';
    AppendedIds(Forget(b, slot.id), slot);
    AppendedIds(b, slot);
  }

  lemma AppendedIds(b: seq<Slot>, slot: Slot)
    ensures IdSet(b + [slot]) == IdSet(b) + {slot.id}
  {
    assert forall x :: x in b + [slot] <==> x in b || x == slot;
  }

  lemma ForgotIds(b: seq<Slot>, id: RequestId)
    ensures IdSet(Forget(b, id)) + {id} == IdSet(b) + {id}
  {
    var i := IndexOf(b, id);
    if i < |b| {
      assert b == b[..i] + [b[i]] + b[i + 1..];
      assert forall x :: x in Forget(b, id) <==> x in b[..i] || x in b[i + 1..];
      assert forall x :: x in b <==> x in b[..i] || x in b[i + 1..] || x == b[i];
    }
  }

  lemma NewestAround(l: seq<Slot>, a: seq<Slot>, x: Slot, b: seq<Slot>, capacity: nat)
    returns (a': seq<Slot>)
    requires Around(l, a, x, b) && |b| < capacity
    ensures Around(LastN(l, capacity), a', x, b)
  {
    if |l| > capacity {
      var k := |l| - capacity;
      SuffixUnique(l, k);
      a' := a[k..];
      assert l[k..] == a' + [x] + b;
    } else {
      a' := a;
    }
  }

  /** One operation that leaves `x` alone: it stays, and the slots behind it are the ones touched since. */
  lemma StaysCached(l: seq<Slot>, a: seq<Slot>, x: Slot, b: seq<Slot>, since: set<RequestId>, op: CacheOp,
                    ttl: Duration, capacity: nat)
    returns (a': seq<Slot>, x': Slot, b': seq<Slot>)
    requires Around(l, a, x, b) && |l| <= capacity && IdSet(b) <= since
    requires !Stale(x, op.now, ttl) && (op.InsertOp? ==> op.request.id != x.id)
    requires |Since(since, x.id, TouchedBy(l, op, ttl))| < capacity
    ensures Around(Apply(l, op, ttl, capacity), a', x', b') && IdSet(b') <= Since(since, x.id, TouchedBy(l, op, ttl))
    ensures x' == if TouchedBy(l, op, ttl) == Some(x.id) then Slot(x.id, x.entry.(touchedAt := op.now)) else x
    ensures op.LookupOp? && op.request.id == x.id ==>
      AnswerTo(l, op, ttl)
      == if op.request.payload == x.entry.payload then Replay(x.entry.response) else PayloadMismatch
  {
    hide DropStale, Renew, LastN, UniqueIds, Stale, IdSet;
    var a0 := DropStaleAround(l, a, x, b, op.now, ttl);
    var d := DropStale(l, op.now, ttl);
    AroundIndex(d, a0, x, b);
    DropStaleSuffix(l, op.now, ttl);
    if op.request.id == x.id {
      if op.request.payload == x.entry.payload {
        x' := Slot(x.id, x.entry.(touchedAt := op.now));
        a', b' := a0 + b, [];
        RenewSelf(d, a0, x, b, x');
      } else {
        a', x', b' := a0, x, b;
      }
    } else {
      x' := x;
      var i := IndexOf(d, op.request.id);
      if TouchedBy(l, op, ttl) == None {
        a', b' := a0, b;
      } else {
        var slot := if op.InsertOp? then Inserted(op.request, op.response, op.now)
                    else Slot(op.request.id, d[i].entry.(touchedAt := op.now));
        a', b' := RenewAround(d, a0, x, b, slot);
        BehindSize(Renew(d, slot), a', x, b', Since(since, x.id, TouchedBy(l, op, ttl)));
        if op.InsertOp? {
          a' := NewestAround(Renew(d, slot), a', x, b', capacity);
        }
      }
    }
  }

  lemma BehindSize(l: seq<Slot>, a: seq<Slot>, x: Slot, b: seq<Slot>, since: set<RequestId>)
    requires Around(l, a, x, b) && IdSet(b) <= since
    ensures |b| <= |since|
  {
    AroundTail(l, a, x, b);
    IdSetSize(b);
    SubsetSize(IdSet(b), since);
  }

  lemma RenewSelf(d: seq<Slot>, a: seq<Slot>, x: Slot, b: seq<Slot>, renewed: Slot)
    requires Around(d, a, x, b) && renewed.id == x.id
    ensures Around(Renew(d, renewed), a + b, renewed, []) && IdSet([]) == {}
  {
    AroundIndex(d, a, x, b);
    RenewKeeps(d, renewed);
    assert Forget(d, x.id) == a + b;
    assert Renew(d, renewed) == a + b + [renewed] + [];
  }

  lemma {:induction false} RetainedAround(l: seq<Slot>, a: seq<Slot>, x: Slot, b: seq<Slot>, since: set<RequestId>,
                                          ops: seq<CacheOp>, ttl: Duration, capacity: nat, k: nat)
    requires Around(l, a, x, b) && |l| <= capacity && IdSet(b) <= since
    requires Undisturbed(l, x.id, x.entry.touchedAt, since, ops, ttl, capacity)
    requires k < |ops| && ops[k].LookupOp? && ops[k].request.id == x.id
    ensures |Answers(l, ops, ttl, capacity)| == |ops|
    ensures Answers(l, ops, ttl, capacity)[k]
         == if ops[k].request.payload == x.entry.payload then Replay(x.entry.response) else PayloadMismatch
    decreases |ops|
  {
    hide Around, IdSet, Apply, TouchedBy, Since, AnswerTo;
    var a', x', b' := StaysCached(l, a, x, b, since, ops[0], ttl, capacity);
    AroundKeeps(l, a, x, b, ops[0], ttl, capacity);
    AnswersSize(Apply(l, ops[0], ttl, capacity), ops[1..], ttl, capacity);
    if k > 0 {
      RetainedAround(Apply(l, ops[0], ttl, capacity), a', x', b', Since(since, x.id, TouchedBy(l, ops[0], ttl)),
                     ops[1..], ttl, capacity, k - 1);
    }
  }

  lemma AroundKeeps(l: seq<Slot>, a: seq<Slot>, x: Slot, b: seq<Slot>, op: CacheOp, ttl: Duration, capacity: nat)
    requires Around(l, a, x, b) && |l| <= capacity
    ensures |Apply(l, op, ttl, capacity)| <= capacity
  {
    ApplyKeeps(l, op, ttl, capacity);
  }

  lemma {:induction false} AnswersSize(l: seq<Slot>, ops: seq<CacheOp>, ttl: Duration, capacity: nat)
    ensures |Answers(l, ops, ttl, capacity)| == |ops|
    decreases |ops|
  {
    if ops != [] { AnswersSize(Apply(l, ops[0], ttl, capacity), ops[1..], ttl, capacity); }
  }

  /** Whatever the times are: a stored response is replayed, byte for byte, to every later
      lookup with the same payload, and refused to any other payload, for as long as the
      cache is never consulted when the entry's own age has reached the time to live and
      fewer than `capacity` other ids have been touched since it was. */
  lemma StoredIsReplayed(l: seq<Slot>, request: Request, response: Response, now: Instant, ops: seq<CacheOp>,
                         ttl: Duration, capacity: nat, k: nat)
    requires UniqueIds(l) && |l| <= capacity && capacity > 0
    requires var r := Apply(l, InsertOp(request, response, now), ttl, capacity);
             Undisturbed(r, request.id, now, {}, ops, ttl, capacity)
    requires k < |ops| && ops[k].LookupOp? && ops[k].request.id == request.id
    ensures var r := Apply(l, InsertOp(request, response, now), ttl, capacity);
            |Answers(r, ops, ttl, capacity)| == |ops|
            && Answers(r, ops, ttl, capacity)[k]
               == if ops[k].request.payload == request.payload then Replay(response) else PayloadMismatch
  {
    hide UniqueIds, Undisturbed, Answers;
    var op := InsertOp(request, response, now);
    var r := Apply(l, op, ttl, capacity);
    var x := Inserted(request, response, now);
    ApplyKeeps(l, op, ttl, capacity);
    assert r != [] && r[|r| - 1] == x;
    var a := r[..|r| - 1];
    assert r == a + [x] + [];
    assert IdSet([]) == {};
    RetainedAround(r, a, x, [], {}, ops, ttl, capacity, k);
  }

  /** The times do matter: an insert stamped before an earlier lookup leaves a stale slot
      behind a fresh one, and it is replayed past its time to live. */
  lemma StaleReplay(p: Payload, r: Response)
    ensures var ops := [InsertOp(Request(1, p), r, 10), InsertOp(Request(2, p), r, 0), LookupOp(Request(2, p), 12)];
            Answers([], ops, 5, 4) == [Miss, Miss, Replay(r)]
            && Recalls([], ops, 5, 4) == [Miss, Miss, Miss]
  {
    var first := [Slot(1, CacheEntry(p, r, 10))];
    var both := first + [Slot(2, CacheEntry(p, r, 0))];
    var ops := [InsertOp(Request(1, p), r, 10), InsertOp(Request(2, p), r, 0), LookupOp(Request(2, p), 12)];
    assert Apply([], ops[0], 5, 4) == first == Remember([], ops[0], 5, 4);
    assert Apply(first, ops[1], 5, 4) == both == Remember(first, ops[1], 5, 4);
    assert ops[1..][1..] == [ops[2]];
    assert DropStale(both, 12, 5) == both;
    assert IndexOf(both, 2) == 1 by { assert both[1..][0].id == 2; }
    assert AnswerTo(both, ops[2], 5) == Replay(r);
    assert Live(both, 12, 5) == first by {
      assert both == first + [both[1]];
      LiveSplit(first, [both[1]], 12, 5);
      assert [both[1]][1..] == [] && first[1..] == [];
      assert Live([], 12, 5) == [];
      assert Live(first, 12, 5) == first;
    }
    assert Recall(both, ops[2], 5, 4) == Miss;
    OneAnswer(both, ops[2], 5, 4);
    assert ops[1..][0] == ops[1];
  }

  lemma OneAnswer(l: seq<Slot>, op: CacheOp, ttl: Duration, capacity: nat)
    ensures Answers(l, [op], ttl, capacity) == [AnswerTo(l, op, ttl)]
    ensures Recalls(l, [op], ttl, capacity) == [Recall(l, op, ttl, capacity)]
  {
    assert [op][1..] == [];
  }
}
