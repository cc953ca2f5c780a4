/** The cache that makes client retries idempotent: least recently used, with a time to live.

    Its slots, least recently used first, are its value. `lookup` and `insert` are given
    their own `now`, and nothing makes those times increase, so every law that needs
    ordered times says so. */
module ResultCaches {
  import opened Notifications
  import opened Seqs

  type RequestId = nat
  type Payload = string
  type Response = string

  datatype Request = Request(id: RequestId, payload: Payload)
  datatype CacheEntry = CacheEntry(payload: Payload, response: Response, touchedAt: Instant)
  datatype CacheLookup = Miss | Replay(response: Response) | PayloadMismatch
  datatype Slot = Slot(id: RequestId, entry: CacheEntry)

  // ---------- the cache as a list ----------

  /** `saturating_duration_since`. */
  function Age(now: Instant, since: Instant): Duration {
    if since <= now then now - since else 0
  }

  predicate Stale(slot: Slot, now: Instant, ttl: Duration) {
    Age(now, slot.entry.touchedAt) >= ttl
  }

  ghost predicate UniqueIds(l: seq<Slot>) {
    forall i, j :: 0 <= i < j < |l| ==> l[i].id != l[j].id
  }

  /** Stale slots leave from the front only, as the code does it. */
  function DropStale(l: seq<Slot>, now: Instant, ttl: Duration): seq<Slot> {
    if l != [] && Stale(l[0], now, ttl) then DropStale(l[1..], now, ttl) else l
  }

  /** Every stale slot leaves, as a time to live promises it. */
  function Live(l: seq<Slot>, now: Instant, ttl: Duration): seq<Slot> {
    if l == [] then []
    else if Stale(l[0], now, ttl) then Live(l[1..], now, ttl)
    else [l[0]] + Live(l[1..], now, ttl)
  }

  function IndexOf(l: seq<Slot>, id: RequestId): (i: nat)
    ensures i <= |l|
    ensures i < |l| ==> l[i].id == id
    ensures forall j :: 0 <= j < i ==> l[j].id != id
  {
    if l == [] then 0 else if l[0].id == id then 0 else 1 + IndexOf(l[1..], id)
  }

  function Forget(l: seq<Slot>, id: RequestId): seq<Slot> {
    var i := IndexOf(l, id);
    if i < |l| then RemoveAt(l, i) else l
  }

  /** A slot becomes the most recently used. */
  function Renew(l: seq<Slot>, slot: Slot): seq<Slot> {
    Forget(l, slot.id) + [slot]
  }

  /** What a lookup answers, given the slots that survived expiry. */
  function Answer(l: seq<Slot>, request: Request): CacheLookup {
    var i := IndexOf(l, request.id);
    if i == |l| then Miss
    else if l[i].entry.payload != request.payload then PayloadMismatch
    else Replay(l[i].entry.response)
  }

  function AfterLookup(l: seq<Slot>, request: Request, now: Instant): seq<Slot> {
    var i := IndexOf(l, request.id);
    if Answer(l, request).Replay? then Renew(l, Slot(request.id, l[i].entry.(touchedAt := now))) else l
  }

  function Inserted(request: Request, response: Response, now: Instant): Slot {
    Slot(request.id, CacheEntry(request.payload, response, now))
  }

  // ---------- the cache as an object ----------

  function Slots(entries: map<RequestId, CacheEntry>, order: seq<RequestId>): (l: seq<Slot>)
    requires forall id :: id in order ==> id in entries
    ensures |l| == |order|
  {
    seq(|order|, i requires 0 <= i < |order| => Slot(order[i], entries[order[i]]))
  }

  class RequestResultCache {
    var entries: map<RequestId, CacheEntry>
    var order: seq<RequestId>
    const capacity: nat
    const ttl: Duration

    /** The order lists exactly the cached ids, each once. */
    ghost predicate Consistent()
      reads this
    {
      Distinct(order) && forall id :: id in order <==> id in entries
    }

    ghost predicate Valid()
      reads this
    {
      Consistent() && capacity > 0 && |entries| <= capacity
    }

    ghost function View(): seq<Slot>
      requires Consistent()
      reads this
    {
      Slots(entries, order)
    }

    constructor (capacity: nat, ttl: Duration)
      requires capacity > 0
      ensures Valid() && View() == [] && this.capacity == capacity && this.ttl == ttl
    {
      entries, order := map[], [];
      this.capacity, this.ttl := capacity, ttl;
    }

    /** The first branch of the loop skips ids without an entry; a consistent cache has none. */
    method Expire(now: Instant)
      modifies this
      ensures old(Consistent()) ==> Consistent() && View() == DropStale(old(View()), now, ttl)
    {
      while order != []
        invariant old(Consistent()) ==> Consistent()
        invariant old(Consistent()) ==> DropStale(View(), now, ttl) == DropStale(old(View()), now, ttl)
        decreases |order|
      {
        var id := order[0];
        if id !in entries {
          order := order[1..];
          continue;
        }
        if Age(now, entries[id].touchedAt) < ttl {
          break;
        }
        if Consistent() { FrontRemoved(entries, order); }
        order := order[1..];
        entries := entries - {id};
      }
    }

    method Touch(id: RequestId)
      requires id in entries && Distinct(order)
      requires forall x :: x in entries && x != id ==> x in order
      requires forall x :: x in order ==> x in entries
      modifies this`order
      ensures Consistent() && order == Without(old(order), id) + [id]
    {
      var index := 0;
      while index < |order| && order[index] != id
        invariant index <= |order| && id !in order[..index]
      {
        index := index + 1;
      }
      if index < |order| {
        RemoveAtIsWithout(order, index);
        order := order[..index] + order[index + 1..];
      } else {
        assert order[..index] == order;
      }
      WithoutDistinct(old(order), id);
      AppendedDistinct(order, id);
      order := order + [id];
    }

    method Lookup(request: Request, now: Instant) returns (answer: CacheLookup)
      requires Valid()
      modifies this
      ensures Valid()
      ensures var l := DropStale(old(View()), now, ttl);
              answer == Answer(l, request) && View() == AfterLookup(l, request, now)
    {
      Expire(now);
      ghost var l := View();
      DroppedSize(old(View()), now, ttl);
      SizesAgree(old(entries), old(order));
      SizesAgree(entries, order);
      SlotsIndex(entries, order, request.id);
      if request.id !in entries {
        return Miss;
      }
      var entry := entries[request.id];
      if entry.payload != request.payload {
        return PayloadMismatch;
      }
      Renewed(entries, order, request.id, entry.(touchedAt := now));
      entries := entries[request.id := entry.(touchedAt := now)];
      Touch(request.id);
      SizesAgree(entries, order);
      return Replay(entry.response);
    }

    method Insert(request: Request, response: Response, now: Instant)
      requires Valid()
      modifies this
      ensures Valid()
      ensures View() == LastN(Renew(DropStale(old(View()), now, ttl), Inserted(request, response, now)), capacity)
    {
      Expire(now);
      var entry := CacheEntry(request.payload, response, now);
      Renewed(entries, order, request.id, entry);
      entries := entries[request.id := entry];
      Touch(request.id);
      EvictExcess();
    }

    method EvictExcess()
      requires Consistent()
      modifies this
      ensures Consistent() && |entries| <= capacity && View() == LastN(old(View()), capacity)
    {
      SizesAgree(entries, order);
      while |entries| > capacity
        invariant Consistent() && |entries| == |order| && LastN(View(), capacity) == LastN(old(View()), capacity)
        decreases |order|
      {
        EvictedOne(entries, order, capacity);
        var oldest := order[0];
        order := order[1..];
        entries := entries - {oldest};
        SizesAgree(entries, order);
      }
    }
  }

  lemma EvictedOne(entries: map<RequestId, CacheEntry>, order: seq<RequestId>, capacity: nat)
    requires |order| > capacity && Distinct(order) && forall id :: id in order <==> id in entries
    ensures forall id :: id in order[1..] <==> id in entries - {order[0]}
    ensures Distinct(order[1..])
    ensures LastN(Slots(entries - {order[0]}, order[1..]), capacity) == LastN(Slots(entries, order), capacity)
  {
    FrontRemoved(entries, order);
    var s := Slots(entries, order);
    assert |s| == |order|;
    hide Slots;
    assert LastN(s[1..], capacity) == LastN(s, capacity);
  }

  lemma SizesAgree(entries: map<RequestId, CacheEntry>, order: seq<RequestId>)
    requires Distinct(order) && forall id :: id in order <==> id in entries
    ensures |entries| == |order|
  {
    DistinctSize(order);
    assert ToSet(order) == entries.Keys;
  }

  lemma FrontRemoved(entries: map<RequestId, CacheEntry>, order: seq<RequestId>)
    requires order != [] && Distinct(order) && forall id :: id in order <==> id in entries
    ensures forall id :: id in order[1..] <==> id in entries - {order[0]}
    ensures Slots(entries - {order[0]}, order[1..]) == Slots(entries, order)[1..]
    ensures Slots(entries, order)[0] == Slot(order[0], entries[order[0]])
  {
    assert order == [order[0]] + order[1..];
    assert order[0] !in order[1..];
  }

  lemma {:induction false} DroppedSize(l: seq<Slot>, now: Instant, ttl: Duration)
    ensures |DropStale(l, now, ttl)| <= |l|
  {
    if l != [] && Stale(l[0], now, ttl) { DroppedSize(l[1..], now, ttl); }
  }

  lemma SlotsIndex(entries: map<RequestId, CacheEntry>, order: seq<RequestId>, id: RequestId)
    requires forall x :: x in order <==> x in entries
    ensures var l := Slots(entries, order); var i := IndexOf(l, id);
            (id in entries <==> i < |l|) && (i < |l| ==> l[i] == Slot(id, entries[id]))
  {
    var l := Slots(entries, order);
    if id in order {
      var k :| 0 <= k < |order| && order[k] == id;
      assert l[k].id == id;
    }
  }

  lemma SlotsRemoved(entries: map<RequestId, CacheEntry>, order: seq<RequestId>, i: nat)
    requires i < |order| && forall x :: x in order ==> x in entries
    ensures forall x :: x in RemoveAt(order, i) ==> x in entries
    ensures Slots(entries, RemoveAt(order, i)) == RemoveAt(Slots(entries, order), i)
  {
  }

  lemma SlotsForgotten(entries: map<RequestId, CacheEntry>, order: seq<RequestId>, id: RequestId)
    requires Distinct(order) && forall x :: x in order <==> x in entries
    ensures Slots(entries, Without(order, id)) == Forget(Slots(entries, order), id)
  {
    hide Slots, RemoveAt, Without, Distinct, IndexOf;
    SlotsIndex(entries, order, id);
    var i := IndexOf(Slots(entries, order), id);
    if i < |order| {
      SlotAt(entries, order, i);
      RemoveAtIsWithout(order, i);
      SlotsRemoved(entries, order, i);
    }
  }

  lemma SlotAt(entries: map<RequestId, CacheEntry>, order: seq<RequestId>, i: nat)
    requires i < |order| && forall x :: x in order ==> x in entries
    ensures Slots(entries, order)[i].id == order[i]
  {
  }

  lemma SlotsAppended(entries: map<RequestId, CacheEntry>, order: seq<RequestId>, id: RequestId, entry: CacheEntry)
    requires id !in order && forall x :: x in order ==> x in entries
    ensures Slots(entries[id := entry], order + [id]) == Slots(entries, order) + [Slot(id, entry)]
  {
  }

  lemma Renewed(entries: map<RequestId, CacheEntry>, order: seq<RequestId>, id: RequestId, entry: CacheEntry)
    requires Distinct(order) && forall x :: x in order <==> x in entries
    ensures Slots(entries[id := entry], Without(order, id) + [id]) == Renew(Slots(entries, order), Slot(id, entry))
  {
    hide Slots, Forget, Without;
    SlotsForgotten(entries, order, id);
    SlotsAppended(entries, Without(order, id), id, entry);
  }
}
