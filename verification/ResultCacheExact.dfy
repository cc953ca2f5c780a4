/** The answers of the cache, told by the operations alone: what was stored last, when it was
    last used, and how many others were used since. */
module ResultCacheExact {
  import opened Notifications
  import opened Seqs
  import opened ResultCaches
  import opened ResultCacheLaws

  // ---------- what the operations say ----------

  /** The operation uses the id: it stores a response for it or is answered with one. */
  predicate Uses(ops: seq<CacheOp>, answers: seq<CacheLookup>, j: nat, id: RequestId)
    requires j < |ops| && |answers| == |ops|
  {
    ops[j].request.id == id && (ops[j].InsertOp? || answers[j].Replay?)
  }

  ghost predicate LastUse(ops: seq<CacheOp>, answers: seq<CacheLookup>, n: nat, id: RequestId, j: nat)
    requires n <= |ops| && |answers| == |ops|
  {
    j < n && Uses(ops, answers, j, id) && forall m :: j < m < n ==> !Uses(ops, answers, m, id)
  }

  predicate Stores(op: CacheOp, id: RequestId) {
    op.InsertOp? && op.request.id == id
  }

  ghost predicate LastStore(ops: seq<CacheOp>, n: nat, id: RequestId, i: nat)
    requires n <= |ops|
  {
    i < n && Stores(ops[i], id) && forall m :: i < m < n ==> !Stores(ops[m], id)
  }

  /** The ids used after operation `j` and before operation `n`. */
  ghost function UsedBetween(ops: seq<CacheOp>, answers: seq<CacheLookup>, j: nat, n: nat): set<RequestId>
    requires n <= |ops| && |answers| == |ops|
  {
    set m | j < m < n && Uses(ops, answers, m, ops[m].request.id) :: ops[m].request.id
  }

  /** At operation `n`, what operation `i` stored under the id is still there: nothing was
      stored over it, it was last used, at operation `j`, less than the time to live ago, and
      fewer other ids than the cache holds were used since. */
  ghost predicate StillThere(ops: seq<CacheOp>, answers: seq<CacheLookup>, n: nat, ttl: Duration, capacity: nat,
                             i: nat, j: nat)
    requires n < |ops| && |answers| == |ops|
  {
    && LastStore(ops, n, ops[n].request.id, i) && LastUse(ops, answers, n, ops[n].request.id, j)
    && ops[n].now - ops[j].now < ttl
    && |UsedBetween(ops, answers, j, n)| < capacity
  }

  // ---------- the memory, slot by slot ----------

  /** Each slot of the memory is what was stored last under its id and when that was last
      used; `stores` and `uses` are those operations, and the memory is in order of use. */
  ghost predicate Told(memory: seq<Slot>, ops: seq<CacheOp>, answers: seq<CacheLookup>, n: nat,
                       stores: seq<nat>, uses: seq<nat>)
    requires n <= |ops| && |answers| == |ops|
  {
    && |stores| == |memory| && |uses| == |memory|
    && (forall p :: 0 <= p < |memory| ==> SlotTold(memory[p], ops, answers, n, stores[p], uses[p]))
    && (forall p, q :: 0 <= p < q < |uses| ==> uses[p] < uses[q])
    && (forall m :: 0 <= m < n && Uses(ops, answers, m, ops[m].request.id) ==> ops[m].request.id in IdSet(memory))
  }

  ghost predicate SlotTold(x: Slot, ops: seq<CacheOp>, answers: seq<CacheLookup>, n: nat, i: nat, j: nat)
    requires n <= |ops| && |answers| == |ops|
  {
    && LastStore(ops, n, x.id, i) && LastUse(ops, answers, n, x.id, j)
    && x.entry == CacheEntry(ops[i].request.payload, ops[i].response, ops[j].now)
  }

  lemma SlotStays(x: Slot, ops: seq<CacheOp>, answers: seq<CacheLookup>, n: nat, i: nat, j: nat)
    requires n < |ops| && |answers| == |ops| && SlotTold(x, ops, answers, n, i, j)
    requires !Uses(ops, answers, n, x.id)
    ensures SlotTold(x, ops, answers, n + 1, i, j)
  {
  }

  /** An operation that uses nothing. */
  lemma ToldStill(memory: seq<Slot>, ops: seq<CacheOp>, answers: seq<CacheLookup>, n: nat,
                  stores: seq<nat>, uses: seq<nat>)
    requires n < |ops| && |answers| == |ops| && Told(memory, ops, answers, n, stores, uses)
    requires !Uses(ops, answers, n, ops[n].request.id)
    ensures Told(memory, ops, answers, n + 1, stores, uses)
  {
    hide SlotTold;
    forall p | 0 <= p < |memory| ensures SlotTold(memory[p], ops, answers, n + 1, stores[p], uses[p]) {
      SlotStays(memory[p], ops, answers, n, stores[p], uses[p]);
    }
  }

  lemma RemovedAt<T>(s: seq<T>, i: nat)
    requires i < |s|
    ensures |RemoveAt(s, i)| == |s| - 1
    ensures forall p :: 0 <= p < |s| - 1 ==> RemoveAt(s, i)[p] == s[if p < i then p else p + 1]
  {
  }

  /** The slot of an id used now, and those of the others as they were. */
  lemma ToldRenewed(memory: seq<Slot>, ops: seq<CacheOp>, answers: seq<CacheLookup>, n: nat,
                    stores: seq<nat>, uses: seq<nat>, slot: Slot, i: nat)
    returns (stores': seq<nat>, uses': seq<nat>)
    requires n < |ops| && |answers| == |ops| && Told(memory, ops, answers, n, stores, uses) && UniqueIds(memory)
    requires Uses(ops, answers, n, slot.id) && SlotTold(slot, ops, answers, n + 1, i, n)
    ensures Told(Renew(memory, slot), ops, answers, n + 1, stores', uses')
  {
    var p := IndexOf(memory, slot.id);
    if p == |memory| {
      stores', uses' := stores + [i], uses + [n];
      ToldAppended(memory, memory, ops, answers, n, stores, uses, slot, i);
    } else {
      RemovedAt(memory, p);
      RemovedAt(stores, p);
      RemovedAt(uses, p);
      stores', uses' := RemoveAt(stores, p) + [i], RemoveAt(uses, p) + [n];
      hide RemoveAt, SlotTold;
      assert forall q :: 0 <= q < |memory| && q != p ==> memory[q].id != slot.id;
      ForgotIds(memory, slot.id);
      ToldAppended(memory, RemoveAt(memory, p), ops, answers, n, RemoveAt(stores, p), RemoveAt(uses, p), slot, i);
    }
  }

  lemma ToldAppended(memory: seq<Slot>, rest: seq<Slot>, ops: seq<CacheOp>, answers: seq<CacheLookup>, n: nat,
                     stores: seq<nat>, uses: seq<nat>, slot: Slot, i: nat)
    requires n < |ops| && |answers| == |ops| && |stores| == |rest| && |uses| == |rest|
    requires forall p :: 0 <= p < |rest| ==>
      rest[p].id != slot.id && SlotTold(rest[p], ops, answers, n, stores[p], uses[p])
    requires forall p, q :: 0 <= p < q < |uses| ==> uses[p] < uses[q]
    requires forall m :: 0 <= m < n && Uses(ops, answers, m, ops[m].request.id) ==> ops[m].request.id in IdSet(memory)
    requires IdSet(memory) <= IdSet(rest) + {slot.id}
    requires Uses(ops, answers, n, slot.id) && SlotTold(slot, ops, answers, n + 1, i, n)
    ensures Told(rest + [slot], ops, answers, n + 1, stores + [i], uses + [n])
  {
    var r, s, u := rest + [slot], stores + [i], uses + [n];
    AppendedIds(rest, slot);
    forall p | 0 <= p < |rest| ensures SlotTold(rest[p], ops, answers, n + 1, stores[p], uses[p]) && uses[p] < n {
      SlotStays(rest[p], ops, answers, n, stores[p], uses[p]);
    }
    hide SlotTold, IdSet;
    forall p | 0 <= p < |r| ensures SlotTold(r[p], ops, answers, n + 1, s[p], u[p]) {
    }
  }

  // ---------- the memory after some operations ----------

  function MemoryAfter(memory: seq<Slot>, ops: seq<CacheOp>, n: nat, ttl: Duration, capacity: nat): seq<Slot>
    requires n <= |ops|
    decreases n
  {
    if n == 0 then memory else MemoryAfter(Remember(memory, ops[0], ttl, capacity), ops[1..], n - 1, ttl, capacity)
  }

  lemma {:induction false} MemoryNext(memory: seq<Slot>, ops: seq<CacheOp>, n: nat, ttl: Duration, capacity: nat)
    requires n < |ops|
    ensures MemoryAfter(memory, ops, n + 1, ttl, capacity)
            == Remember(MemoryAfter(memory, ops, n, ttl, capacity), ops[n], ttl, capacity)
    decreases n
  {
    hide Remember;
    if n > 0 { MemoryNext(Remember(memory, ops[0], ttl, capacity), ops[1..], n - 1, ttl, capacity); }
  }

  lemma {:induction false} RecallsAt(memory: seq<Slot>, ops: seq<CacheOp>, n: nat, ttl: Duration, capacity: nat)
    requires n < |ops|
    ensures |Recalls(memory, ops, ttl, capacity)| == |ops|
    ensures Recalls(memory, ops, ttl, capacity)[n]
            == Recall(MemoryAfter(memory, ops, n, ttl, capacity), ops[n], ttl, capacity)
    decreases |ops|
  {
    hide Remember, Recall;
    var rest := Remember(memory, ops[0], ttl, capacity);
    if |ops| > 1 {
      RecallsAt(rest, ops[1..], if n > 0 then n - 1 else 0, ttl, capacity);
    } else {
      assert ops[1..] == [];
    }
  }

  lemma {:induction false} InOrder(prior: Instant, ops: seq<CacheOp>, i: nat, j: nat)
    requires Nondecreasing(prior, ops) && i <= j < |ops|
    ensures prior <= ops[i].now <= ops[j].now
    decreases |ops|
  {
    if i > 0 {
      InOrder(ops[0].now, ops[1..], i - 1, j - 1);
    } else if j > 0 {
      InOrder(ops[0].now, ops[1..], 0, j - 1);
    }
  }

  lemma WindowMembers(memory: seq<Slot>, now: Instant, ttl: Duration, capacity: nat)
    ensures forall x :: x in Window(memory, now, ttl, capacity) ==> x in memory
  {
    LiveMembers(memory, now, ttl);
    hide Live, Stale;
  }

  /** A replayed slot of the memory. */
  lemma ReplayedSlot(memory: seq<Slot>, request: Request, now: Instant, ttl: Duration, capacity: nat)
    returns (p: nat)
    requires Answer(Window(memory, now, ttl, capacity), request).Replay?
    ensures p < |memory| && memory[p].id == request.id && memory[p].entry.payload == request.payload
    ensures Answer(Window(memory, now, ttl, capacity), request) == Replay(memory[p].entry.response)
  {
    var w := Window(memory, now, ttl, capacity);
    WindowMembers(memory, now, ttl, capacity);
    var x := w[IndexOf(w, request.id)];
    assert x in memory;
    p :| p < |memory| && memory[p] == x;
  }

  /** One operation, and the memory is told by one operation more. */
  lemma RememberTold(memory: seq<Slot>, ops: seq<CacheOp>, answers: seq<CacheLookup>, n: nat,
                     stores: seq<nat>, uses: seq<nat>, ttl: Duration, capacity: nat)
    returns (stores': seq<nat>, uses': seq<nat>)
    requires n < |ops| && |answers| == |ops| && Told(memory, ops, answers, n, stores, uses) && UniqueIds(memory)
    requires answers[n] == Recall(memory, ops[n], ttl, capacity)
    ensures Told(Remember(memory, ops[n], ttl, capacity), ops, answers, n + 1, stores', uses')
  {
    hide UniqueIds, Renew, Window, Answer;
    match ops[n]
    case InsertOp(request, response, now) =>
      hide Told;
      stores', uses' :=
        ToldRenewed(memory, ops, answers, n, stores, uses, Inserted(request, response, now), n);
    case LookupOp(request, now) =>
      if answers[n].Replay? {
        var p := ReplayedSlot(memory, request, now, ttl, capacity);
        assert SlotTold(memory[p], ops, answers, n, stores[p], uses[p]);
        hide Told;
        stores', uses' :=
          ToldRenewed(memory, ops, answers, n, stores, uses, Inserted(request, answers[n].response, now), stores[p]);
      } else {
        stores', uses' := stores, uses;
        ToldStill(memory, ops, answers, n, stores, uses);
      }
  }

  lemma {:induction false} MemoryTold(ops: seq<CacheOp>, n: nat, ttl: Duration, capacity: nat)
    returns (stores: seq<nat>, uses: seq<nat>)
    requires Nondecreasing(0, ops) && n <= |ops| && capacity > 0
    ensures var memory, answers := MemoryAfter([], ops, n, ttl, capacity), Recalls([], ops, ttl, capacity);
            && |answers| == |ops| && UniqueIds(memory) && Told(memory, ops, answers, n, stores, uses)
            && Aged(memory, if n == 0 then 0 else ops[n - 1].now)
    decreases n
  {
    hide UniqueIds, Aged, Told, Remember, Recall, Recalls, Nondecreasing;
    if n == 0 {
      stores, uses := [], [];
      NothingTold(ops, ttl, capacity);
    } else {
      stores, uses := MemoryTold(ops, n - 1, ttl, capacity);
      var memory := MemoryAfter([], ops, n - 1, ttl, capacity);
      MemoryNext([], ops, n - 1, ttl, capacity);
      RecallsAt([], ops, n - 1, ttl, capacity);
      stores, uses := RememberTold(memory, ops, Recalls([], ops, ttl, capacity), n - 1, stores, uses, ttl, capacity);
      InOrder(0, ops, if n > 1 then n - 2 else 0, n - 1);
      RememberKeeps(memory, ops[n - 1], if n == 1 then 0 else ops[n - 2].now, ttl, capacity);
    }
  }

  lemma NothingTold(ops: seq<CacheOp>, ttl: Duration, capacity: nat)
    ensures var answers := Recalls([], ops, ttl, capacity);
            |answers| == |ops| && Told([], ops, answers, 0, [], []) && UniqueIds([]) && Aged([], 0)
  {
    RecallsSize([], ops, ttl, capacity);
  }

  lemma {:induction false} RecallsSize(memory: seq<Slot>, ops: seq<CacheOp>, ttl: Duration, capacity: nat)
    ensures |Recalls(memory, ops, ttl, capacity)| == |ops|
    decreases |ops|
  {
    hide Remember, Recall;
    if ops != [] { RecallsSize(Remember(memory, ops[0], ttl, capacity), ops[1..], ttl, capacity); }
  }

  lemma RememberKeeps(memory: seq<Slot>, op: CacheOp, prior: Instant, ttl: Duration, capacity: nat)
    requires UniqueIds(memory) && Aged(memory, prior) && prior <= op.now
    ensures UniqueIds(Remember(memory, op, ttl, capacity)) && Aged(Remember(memory, op, ttl, capacity), op.now)
  {
    hide UniqueIds, Aged, Renew, Window, Answer;
    AgedLater(memory, prior, op.now);
    var response := Recall(memory, op, ttl, capacity);
    var slot := Inserted(op.request,
                         if op.InsertOp? then op.response else if response.Replay? then response.response else "",
                         op.now);
    RenewAged(memory, slot, prior, op.now);
    RenewKeeps(memory, slot);
  }

  // ---------- what the window shows ----------

  /** In a memory in order of use, a slot is seen exactly if it is young enough and fewer than
      `capacity` slots come after it. */
  lemma WindowShows(memory: seq<Slot>, now: Instant, ttl: Duration, capacity: nat, p: nat)
    requires UniqueIds(memory) && Aged(memory, now) && p < |memory|
    ensures var w := Window(memory, now, ttl, capacity);
            var seen := now - memory[p].entry.touchedAt < ttl && |memory| - p - 1 < capacity;
            && (seen ==> IndexOf(w, memory[p].id) < |w| && w[IndexOf(w, memory[p].id)] == memory[p])
            && (!seen ==> IndexOf(w, memory[p].id) == |w|)
  {
    var k := FirstLive(memory, now, ttl);
    WindowFrom(memory, k, now, ttl, capacity);
    hide UniqueIds, Aged, Window, IndexOf;
    SuffixIndex(memory, if |memory| - k > capacity then |memory| - capacity else k, p);
    StaleIs(memory, now, ttl, p);
  }

  lemma WindowFrom(memory: seq<Slot>, k: nat, now: Instant, ttl: Duration, capacity: nat)
    requires k <= |memory| && forall p :: 0 <= p < |memory| ==> (Stale(memory[p], now, ttl) <==> p < k)
    ensures Window(memory, now, ttl, capacity)
         == memory[if |memory| - k > capacity then |memory| - capacity else k..]
  {
    LiveIsSuffix(memory, k, now, ttl);
    hide Live, Stale;
    assert LastN(memory[k..], capacity) == memory[if |memory| - k > capacity then |memory| - capacity else k..];
  }

  lemma StaleIs(memory: seq<Slot>, now: Instant, ttl: Duration, p: nat)
    requires Aged(memory, now) && p < |memory|
    ensures !Stale(memory[p], now, ttl) <==> now - memory[p].entry.touchedAt < ttl
  {
  }

  /** How many slots at the front are too old. */
  lemma FirstLive(memory: seq<Slot>, now: Instant, ttl: Duration) returns (k: nat)
    requires Aged(memory, now)
    ensures k <= |memory| && forall p :: 0 <= p < |memory| ==> (Stale(memory[p], now, ttl) <==> p < k)
  {
    k := 0;
    while k < |memory| && Stale(memory[k], now, ttl)
      invariant k <= |memory| && forall p :: 0 <= p < k ==> Stale(memory[p], now, ttl)
    {
      k := k + 1;
    }
  }

  lemma LiveIsSuffix(memory: seq<Slot>, k: nat, now: Instant, ttl: Duration)
    requires k <= |memory| && forall p :: 0 <= p < |memory| ==> (Stale(memory[p], now, ttl) <==> p < k)
    ensures Live(memory, now, ttl) == memory[k..]
  {
    hide Stale;
    LiveAfterStale(memory, k, now, ttl);
    LiveMembers(memory[k..], now, ttl);
  }

  lemma SuffixIndex(memory: seq<Slot>, from: nat, p: nat)
    requires UniqueIds(memory) && from <= |memory| && p < |memory|
    ensures var w := memory[from..];
            if p >= from then IndexOf(w, memory[p].id) == p - from && w[p - from] == memory[p]
            else IndexOf(w, memory[p].id) == |w|
  {
    var w := memory[from..];
    SuffixUnique(memory, from);
    assert forall q :: 0 <= q < |w| ==> w[q] == memory[from + q];
    if p >= from {
      assert w[p - from] == memory[p];
      IndexAt(w, p - from);
    } else {
      NotBehind(w, memory[p].id);
    }
  }

  // ---------- the answers ----------

  /** The ids used since are those of the slots behind. */
  lemma UsedBehind(memory: seq<Slot>, ops: seq<CacheOp>, answers: seq<CacheLookup>, n: nat,
                   stores: seq<nat>, uses: seq<nat>, p: nat)
    requires n <= |ops| && |answers| == |ops| && Told(memory, ops, answers, n, stores, uses) && UniqueIds(memory)
    requires p < |memory|
    ensures |UsedBetween(ops, answers, uses[p], n)| == |memory| - p - 1
  {
    var behind := memory[p + 1..];
    var used := UsedBetween(ops, answers, uses[p], n);
    UsedIsBehind(memory, ops, answers, n, stores, uses, p);
    BehindIsUsed(memory, ops, answers, n, stores, uses, p);
    assert used == IdSet(behind);
    SuffixUnique(memory, p + 1);
    IdSetSize(behind);
  }

  lemma UsedIsBehind(memory: seq<Slot>, ops: seq<CacheOp>, answers: seq<CacheLookup>, n: nat,
                     stores: seq<nat>, uses: seq<nat>, p: nat)
    requires n <= |ops| && |answers| == |ops| && Told(memory, ops, answers, n, stores, uses) && UniqueIds(memory)
    requires p < |memory|
    ensures forall id :: id in UsedBetween(ops, answers, uses[p], n) ==> id in IdSet(memory[p + 1..])
  {
    var behind := memory[p + 1..];
    forall id | id in UsedBetween(ops, answers, uses[p], n) ensures id in IdSet(behind) {
      var m: nat :| uses[p] < m < n && Uses(ops, answers, m, ops[m].request.id) && ops[m].request.id == id;
      var x :| x in memory && x.id == id;
      var q :| 0 <= q < |memory| && memory[q] == x;
      assert SlotTold(memory[q], ops, answers, n, stores[q], uses[q]);
      assert SlotTold(memory[p], ops, answers, n, stores[p], uses[p]);
      assert q != p && m <= uses[q];
      assert q > p;
      assert memory[q] == behind[q - p - 1];
    }
  }

  lemma BehindIsUsed(memory: seq<Slot>, ops: seq<CacheOp>, answers: seq<CacheLookup>, n: nat,
                     stores: seq<nat>, uses: seq<nat>, p: nat)
    requires n <= |ops| && |answers| == |ops| && Told(memory, ops, answers, n, stores, uses) && UniqueIds(memory)
    requires p < |memory|
    ensures forall id :: id in IdSet(memory[p + 1..]) ==> id in UsedBetween(ops, answers, uses[p], n)
  {
    var behind := memory[p + 1..];
    forall id | id in IdSet(behind) ensures id in UsedBetween(ops, answers, uses[p], n) {
      var x :| x in behind && x.id == id;
      var q :| 0 <= q < |behind| && behind[q] == x;
      assert memory[p + 1 + q] == x;
      assert SlotTold(memory[p + 1 + q], ops, answers, n, stores[p + 1 + q], uses[p + 1 + q]);
    }
  }

  /** The operations that stored and used it last are the only ones to ask about. */
  lemma OnlyThese(ops: seq<CacheOp>, answers: seq<CacheLookup>, n: nat, ttl: Duration, capacity: nat,
                  i: nat, j: nat, i': nat, j': nat)
    requires n < |ops| && |answers| == |ops|
    requires LastStore(ops, n, ops[n].request.id, i) && LastUse(ops, answers, n, ops[n].request.id, j)
    requires StillThere(ops, answers, n, ttl, capacity, i', j')
    ensures i' == i && j' == j
  {
  }

  /** Found in the memory. */
  lemma FoundExactly(ops: seq<CacheOp>, n: nat, ttl: Duration, capacity: nat, p: nat,
                     stores: seq<nat>, uses: seq<nat>)
    requires Nondecreasing(0, ops) && n < |ops| && capacity > 0 && ops[n].LookupOp?
    requires var memory, answers := MemoryAfter([], ops, n, ttl, capacity), Recalls([], ops, ttl, capacity);
             && |answers| == |ops| && UniqueIds(memory) && Told(memory, ops, answers, n, stores, uses)
             && Aged(memory, ops[n].now) && p < |memory| && memory[p].id == ops[n].request.id
    ensures var answers := Recalls([], ops, ttl, capacity);
            var i, j := stores[p], uses[p];
            && i < n && j < n && LastStore(ops, n, ops[n].request.id, i)
            && LastUse(ops, answers, n, ops[n].request.id, j)
            && answers[n] == if !StillThere(ops, answers, n, ttl, capacity, i, j) then Miss
                             else if ops[i].request.payload == ops[n].request.payload then Replay(ops[i].response)
                             else PayloadMismatch
  {
    var memory, answers := MemoryAfter([], ops, n, ttl, capacity), Recalls([], ops, ttl, capacity);
    RecallsAt([], ops, n, ttl, capacity);
    UsedBehind(memory, ops, answers, n, stores, uses, p);
    WindowShows(memory, ops[n].now, ttl, capacity, p);
    assert SlotTold(memory[p], ops, answers, n, stores[p], uses[p]);
    hide Told, UniqueIds, Aged, Window, Recalls, MemoryAfter, Nondecreasing, UsedBetween;
  }

  /** What lookup `n` is answered: nothing when nothing was stored under the id that is still
      there, the response to the payload it was stored for, a refusal to any other. */
  ghost predicate AnsweredExactly(ops: seq<CacheOp>, answers: seq<CacheLookup>, n: nat, ttl: Duration, capacity: nat)
    requires n < |ops| && |answers| == |ops|
  {
    && (answers[n] == Miss <==> forall i: nat, j: nat :: !StillThere(ops, answers, n, ttl, capacity, i, j))
    && (forall i: nat, j: nat :: StillThere(ops, answers, n, ttl, capacity, i, j) ==>
          answers[n] == if ops[i].request.payload == ops[n].request.payload then Replay(ops[i].response)
                        else PayloadMismatch)
  }

  /** For every history whose times do not run backwards, every lookup is answered exactly so:
      a response is replayed if and only if it was the last one stored under the id, for this
      payload, the id was last used less than the time to live ago, and fewer other ids than
      the cache holds were used since. */
  lemma LookupsAnsweredExactly(ops: seq<CacheOp>, ttl: Duration, capacity: nat, n: nat)
    requires Nondecreasing(0, ops) && capacity > 0 && n < |ops| && ops[n].LookupOp?
    ensures |Answers([], ops, ttl, capacity)| == |ops|
    ensures AnsweredExactly(ops, Answers([], ops, ttl, capacity), n, ttl, capacity)
  {
    hide Answers, Recalls, MemoryAfter, Nondecreasing, UniqueIds, Aged, Told, AnsweredExactly;
    CacheIsBoundedMemory(ops, ttl, capacity);
    RecallsAt([], ops, n, ttl, capacity);
    var memory, answers := MemoryAfter([], ops, n, ttl, capacity), Recalls([], ops, ttl, capacity);
    var stores, uses := MemoryTold(ops, n, ttl, capacity);
    InOrder(0, ops, if n > 0 then n - 1 else 0, n);
    AgedLater(memory, if n == 0 then 0 else ops[n - 1].now, ops[n].now);
    var p := IndexOf(memory, ops[n].request.id);
    if p < |memory| {
      ToldSizes(memory, ops, answers, n, stores, uses);
      FoundExactly(ops, n, ttl, capacity, p, stores, uses);
      FoundAnswered(ops, answers, n, ttl, capacity, stores[p], uses[p]);
    } else {
      NeverUsed(memory, ops, answers, n, stores, uses);
      NothingThere(memory, ops, answers, n, ttl, capacity);
    }
  }

  lemma ToldSizes(memory: seq<Slot>, ops: seq<CacheOp>, answers: seq<CacheLookup>, n: nat,
                  stores: seq<nat>, uses: seq<nat>)
    requires n <= |ops| && |answers| == |ops| && Told(memory, ops, answers, n, stores, uses)
    ensures |stores| == |memory| && |uses| == |memory|
  {
  }

  lemma FoundAnswered(ops: seq<CacheOp>, answers: seq<CacheLookup>, n: nat, ttl: Duration, capacity: nat, i: nat,
                      j: nat)
    requires n < |ops| && |answers| == |ops|
    requires LastStore(ops, n, ops[n].request.id, i) && LastUse(ops, answers, n, ops[n].request.id, j)
    requires answers[n] == if !StillThere(ops, answers, n, ttl, capacity, i, j) then Miss
                           else if ops[i].request.payload == ops[n].request.payload then Replay(ops[i].response)
                           else PayloadMismatch
    ensures AnsweredExactly(ops, answers, n, ttl, capacity)
  {
    forall i': nat, j': nat | StillThere(ops, answers, n, ttl, capacity, i', j') ensures i' == i && j' == j {
      OnlyThese(ops, answers, n, ttl, capacity, i, j, i', j');
    }
    hide StillThere, LastStore, LastUse;
  }

  lemma NeverUsed(memory: seq<Slot>, ops: seq<CacheOp>, answers: seq<CacheLookup>, n: nat,
                  stores: seq<nat>, uses: seq<nat>)
    requires n < |ops| && |answers| == |ops| && Told(memory, ops, answers, n, stores, uses)
    requires IndexOf(memory, ops[n].request.id) == |memory|
    ensures forall m :: 0 <= m < n ==> !Uses(ops, answers, m, ops[n].request.id)
    ensures ops[n].request.id !in IdSet(memory)
  {
  }

  lemma NothingThere(memory: seq<Slot>, ops: seq<CacheOp>, answers: seq<CacheLookup>, n: nat, ttl: Duration,
                     capacity: nat)
    requires n < |ops| && |answers| == |ops| && ops[n].LookupOp? && ops[n].request.id !in IdSet(memory)
    requires forall m :: 0 <= m < n ==> !Uses(ops, answers, m, ops[n].request.id)
    requires answers[n] == Recall(memory, ops[n], ttl, capacity)
    ensures AnsweredExactly(ops, answers, n, ttl, capacity)
  {
    WindowMembers(memory, ops[n].now, ttl, capacity);
    hide Window;
  }
}
