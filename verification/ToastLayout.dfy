/** Where toasts go in a window, in the program's 16-bit saturating arithmetic. */
module ToastLayout {
  import opened Notifications

  type U16 = n: int | 0 <= n < 0x1_0000
  const U16_MAX: U16 := 0xFFFF

  function SatAdd(a: U16, b: U16): U16 {
    if a + b <= U16_MAX then a + b else U16_MAX
  }

  function SatSub(a: U16, b: U16): U16 {
    if b <= a then a - b else 0
  }

  function SatMul(a: U16, b: U16): U16 {
    if a * b <= U16_MAX then a * b else U16_MAX
  }

  /** `u16::try_from(n).unwrap_or(u16::MAX)`. */
  function Clamped(n: nat): U16 {
    if n <= U16_MAX then n else U16_MAX
  }

  datatype WindowSize = WindowSize(width: U16, height: U16)
  datatype Geometry = Geometry(x: U16, y: U16, width: U16, height: U16, zIndex: U16)
  datatype StackOrder = OldestFirst | NewestFirst
  datatype DisplayPolicy = DisplayPolicy(
    toastWidth: U16, toastHeight: U16, toastGap: U16, maxVisible: nat, order: StackOrder)

  predicate AtTop(p: Placement) {
    p.TopLeft? || p.TopCenter? || p.TopRight?
  }

  predicate SameAnchor(p: Placement, q: Placement) {
    match p
    case TopLeft | BottomLeft => q.TopLeft? || q.BottomLeft?
    case TopCenter | BottomCenter => q.TopCenter? || q.BottomCenter?
    case TopRight | BottomRight => q.TopRight? || q.BottomRight?
  }

  function HorizontalOrigin(windowWidth: U16, width: U16, p: Placement): U16 {
    match p
    case TopLeft | BottomLeft => 0
    case TopCenter | BottomCenter => SatSub(windowWidth, width) / 2
    case TopRight | BottomRight => SatSub(windowWidth, width)
  }

  function VerticalOrigin(windowHeight: U16, height: U16, stride: U16, index: nat, p: Placement): U16 {
    var offset := SatMul(Clamped(index), stride);
    if AtTop(p) then offset else SatSub(SatSub(windowHeight, height), offset)
  }

  function ToastGeometry(size: WindowSize, width: U16, height: U16, stride: U16, index: nat, p: Placement, z: nat)
    : Geometry
  {
    Geometry(HorizontalOrigin(size.width, width, p), VerticalOrigin(size.height, height, stride, index, p),
             width, height, Clamped(z))
  }

  // ---------- planning the toasts of a window ----------

  /** Too narrow for the full width means one borderless row. */
  function ToastSize(size: WindowSize, policy: DisplayPolicy): (U16, U16) {
    if size.width < policy.toastWidth then (size.width, 1) else (policy.toastWidth, policy.toastHeight)
  }

  function Stride(height: U16, gap: U16): (s: U16)
    ensures s > 0
  {
    if SatAdd(height, gap) > 0 then SatAdd(height, gap) else 1
  }

  function Capacity(size: WindowSize, height: U16, gap: U16, most: nat): nat {
    var fit := SatAdd(size.height, gap) / Stride(height, gap);
    if fit <= most then fit else most
  }

  function Reversed<T>(s: seq<T>): (r: seq<T>)
    ensures |r| == |s|
  {
    seq(|s|, i requires 0 <= i < |s| => s[|s| - 1 - i])
  }

  function Taken<T>(s: seq<T>, n: nat): (r: seq<T>)
    ensures |r| <= n && |r| <= |s|
  {
    if |s| <= n then s else s[..n]
  }

  /** The toasts that fit, outermost first. */
  function Shown(ids: seq<NotificationId>, size: WindowSize, policy: DisplayPolicy): seq<NotificationId> {
    if size.width < 24 || size.height == 0 then []
    else
      var capacity := Capacity(size, ToastSize(size, policy).1, policy.toastGap, policy.maxVisible);
      Taken(if policy.order.OldestFirst? then ids else Reversed(ids), capacity)
  }

  function PlacementIndex(p: Placement): (i: nat)
    ensures i < 6
  {
    match p
    case TopLeft => 0
    case TopCenter => 1
    case TopRight => 2
    case BottomLeft => 3
    case BottomCenter => 4
    case BottomRight => 5
  }

  /** How many of the first `n` toasts have this placement. */
  function CountOf(placements: seq<Placement>, n: nat, p: Placement): nat
    requires n <= |placements|
  {
    if n == 0 then 0 else CountOf(placements, n - 1, p) + if placements[n - 1] == p then 1 else 0
  }

  /** Each toast takes the next slot of its own placement. */
  function PlannedGeometry(placements: seq<Placement>, i: nat, size: WindowSize, policy: DisplayPolicy): Geometry
    requires i < |placements|
  {
    var (width, height) := ToastSize(size, policy);
    ToastGeometry(size, width, height, Stride(height, policy.toastGap), CountOf(placements, i, placements[i]),
                  placements[i], i)
  }

  function PlacementsOf(ids: seq<NotificationId>, placement: map<NotificationId, Placement>, fallback: Placement)
    : seq<Placement>
  {
    seq(|ids|, i requires 0 <= i < |ids| => if ids[i] in placement then placement[ids[i]] else fallback)
  }

  method TakeSlot(slots: array<nat>, p: Placement) returns (slot: nat)
    requires slots.Length == 6
    modifies slots
    ensures slot == old(slots[PlacementIndex(p)])
    ensures slots[..] == old(slots[..])[PlacementIndex(p) := slot + 1]
  {
    slot := slots[PlacementIndex(p)];
    slots[PlacementIndex(p)] := slot + 1;
  }

  /** `placement` holds the positions notifications override; the policy's placement is the fallback. */
  method PlannedToasts(ids: seq<NotificationId>, placement: map<NotificationId, Placement>, fallback: Placement,
                       size: WindowSize, policy: DisplayPolicy)
    returns (shown: seq<NotificationId>, planned: seq<Geometry>)
    ensures shown == Shown(ids, size, policy) && |planned| == |shown|
    ensures var places := PlacementsOf(shown, placement, fallback);
            forall i :: 0 <= i < |planned| ==> planned[i] == PlannedGeometry(places, i, size, policy)
  {
    planned := [];
    if size.width < 24 || size.height == 0 {
      return [], [];
    }
    var (width, height) := ToastSize(size, policy);
    var stride := Stride(height, policy.toastGap);
    var capacity := Capacity(size, height, policy.toastGap, policy.maxVisible);
    shown := Taken(if policy.order.OldestFirst? then ids else Reversed(ids), capacity);
    var slots := new nat[6](_ => 0);
    ghost var places := PlacementsOf(shown, placement, fallback);
    hide Capacity, ToastSize, ToastGeometry, Stride, CountOf, SlotsCount, PlacementIndex, PlannedSoFar, PlannedGeometry;
    NonePlanned(places, size, policy);
    NoSlotTaken(slots[..], places);
    for z := 0 to |shown|
      invariant |planned| == z
      invariant SlotsCount(slots[..], places, z)
      invariant PlannedSoFar(planned, places, size, policy)
    {
      var p := if shown[z] in placement then placement[shown[z]] else fallback;
      assert places[z] == p;
      SlotTaken(slots[..], places, z);
      var slot := TakeSlot(slots, p);
      OneMorePlanned(planned, places, size, policy);
      planned := planned + [ToastGeometry(size, width, height, stride, slot, p, z)];
    }
    AllPlanned(planned, places, size, policy);
  }

  ghost predicate PlannedSoFar(planned: seq<Geometry>, places: seq<Placement>, size: WindowSize,
                               policy: DisplayPolicy)
  {
    |planned| <= |places| && forall i :: 0 <= i < |planned| ==> planned[i] == PlannedGeometry(places, i, size, policy)
  }

  lemma NonePlanned(places: seq<Placement>, size: WindowSize, policy: DisplayPolicy)
    ensures PlannedSoFar([], places, size, policy)
  {
  }

  lemma OneMorePlanned(planned: seq<Geometry>, places: seq<Placement>, size: WindowSize, policy: DisplayPolicy)
    requires PlannedSoFar(planned, places, size, policy) && |planned| < |places|
    ensures var z := |planned|; var (width, height) := ToastSize(size, policy);
            PlannedSoFar(planned + [ToastGeometry(size, width, height, Stride(height, policy.toastGap),
                                                  CountOf(places, z, places[z]), places[z], z)], places, size, policy)
  {
    hide ToastSize, ToastGeometry, Stride, CountOf;
  }

  lemma AllPlanned(planned: seq<Geometry>, places: seq<Placement>, size: WindowSize, policy: DisplayPolicy)
    requires PlannedSoFar(planned, places, size, policy)
    ensures forall i :: 0 <= i < |planned| ==> planned[i] == PlannedGeometry(places, i, size, policy)
  {
    hide PlannedGeometry;
  }

  /** The six counters hold what `CountOf` says of each placement. */
  ghost predicate SlotsCount(slots: seq<nat>, placements: seq<Placement>, n: nat) {
    |slots| == 6 && n <= |placements| && forall p: Placement :: slots[PlacementIndex(p)] == CountOf(placements, n, p)
  }

  lemma NoSlotTaken(slots: seq<nat>, placements: seq<Placement>)
    requires |slots| == 6 && forall i :: 0 <= i < 6 ==> slots[i] == 0
    ensures SlotsCount(slots, placements, 0)
  {
  }

  lemma SlotTaken(slots: seq<nat>, placements: seq<Placement>, n: nat)
    requires SlotsCount(slots, placements, n) && n < |placements|
    ensures |slots| == 6 && slots[PlacementIndex(placements[n])] == CountOf(placements, n, placements[n])
    ensures SlotsCount(slots[PlacementIndex(placements[n]) := slots[PlacementIndex(placements[n])] + 1], placements,
                       n + 1)
  {
    assert forall q: Placement :: PlacementIndex(q) == PlacementIndex(placements[n]) ==> q == placements[n];
  }

  // ---------- inside the window, and apart ----------

  predicate Inside(g: Geometry, size: WindowSize) {
    g.x + g.width <= size.width && g.y + g.height <= size.height
  }

  predicate Apart(g: Geometry, h: Geometry, gap: U16) {
    g.y + g.height + gap <= h.y || h.y + h.height + gap <= g.y
  }

  lemma {:induction false} CountBounds(placements: seq<Placement>, n: nat, p: Placement, q: Placement)
    requires n <= |placements|
    ensures CountOf(placements, n, p) <= n
    ensures p != q ==> CountOf(placements, n, p) + CountOf(placements, n, q) <= n
  {
    if n > 0 { CountBounds(placements, n - 1, p, q); }
  }

  lemma {:induction false} CountGrows(placements: seq<Placement>, i: nat, n: nat, p: Placement)
    requires i < n <= |placements|
    ensures CountOf(placements, i, p) <= CountOf(placements, n, p)
    ensures placements[i] == p ==> CountOf(placements, i, p) < CountOf(placements, n, p)
  {
    if i < n - 1 { CountGrows(placements, i, n - 1, p); }
  }

  /** Slots below the capacity do not saturate, and end inside the height with a gap to spare. */
  lemma SlotFits(height: U16, gap: U16, windowHeight: U16, slots: nat)
    requires 0 < height && height + gap <= U16_MAX && 0 < slots
    requires slots <= SatAdd(windowHeight, gap) / (height + gap)
    ensures slots * (height + gap) <= windowHeight + gap && slots * (height + gap) <= U16_MAX && slots <= U16_MAX
  {
    var stride, room := height + gap, SatAdd(windowHeight, gap);
    assert room == stride * (room / stride) + room % stride;
    assert slots * stride <= stride * (room / stride) by { MulMonotone(slots, room / stride, stride); }
    assert slots <= slots * stride by { MulMonotone(1, stride, slots); }
  }

  lemma MulMonotone(a: nat, b: nat, c: nat)
    requires a <= b
    ensures a * c <= b * c && a * c <= c * b && c * a <= c * b
  {
  }

  lemma OffsetIs(index: nat, stride: U16, slots: nat)
    requires index < slots && slots * stride <= U16_MAX && slots <= U16_MAX
    ensures SatMul(Clamped(index), stride) == index * stride
  {
    MulMonotone(index, slots, stride);
  }

  predicate Sensible(policy: DisplayPolicy) {
    policy.toastHeight >= 1 && policy.toastHeight + policy.toastGap <= U16_MAX && 1 + policy.toastGap <= U16_MAX
  }

  lemma OneMore(a: nat, n: nat, stride: nat)
    requires a < n
    ensures a * stride + stride <= n * stride
  {
    MulMonotone(a + 1, n, stride);
    assert (a + 1) * stride == a * stride + stride;
  }

  lemma BothEnds(a: nat, b: nat, n: nat, stride: nat)
    requires a + b + 2 <= n
    ensures a * stride + b * stride + stride + stride <= n * stride
  {
    MulMonotone(a + b + 2, n, stride);
    assert (a + b + 2) * stride == a * stride + b * stride + 2 * stride;
  }

  /** A slot's row, when the slot before the capacity's end cannot saturate. */
  lemma RowIs(windowHeight: U16, height: U16, stride: U16, gap: U16, slot: nat, slots: nat, p: Placement)
    requires stride == height + gap && slot < slots <= U16_MAX && slots * stride <= U16_MAX
    requires slots * stride <= windowHeight + gap
    ensures slot * stride + height <= windowHeight
    ensures VerticalOrigin(windowHeight, height, stride, slot, p)
         == if AtTop(p) then slot * stride else windowHeight - height - slot * stride
  {
    OneMore(slot, slots, stride);
    OffsetIs(slot, stride, slots);
    hide SatMul, Clamped;
  }

  /** Where a planned toast's rows are, without saturation. */
  lemma PlannedRows(placements: seq<Placement>, i: nat, size: WindowSize, policy: DisplayPolicy)
    requires Sensible(policy) && i < |placements|
    requires |placements| <= Capacity(size, ToastSize(size, policy).1, policy.toastGap, policy.maxVisible)
    ensures var h := ToastSize(size, policy).1; var stride := h + policy.toastGap;
            var slot := CountOf(placements, i, placements[i]);
            && |placements| * stride <= size.height + policy.toastGap && slot < |placements|
            && slot * stride + h <= size.height
            && PlannedGeometry(placements, i, size, policy).y
               == (if AtTop(placements[i]) then slot * stride else size.height - h - slot * stride)
            && PlannedGeometry(placements, i, size, policy).height == h
  {
    var h := ToastSize(size, policy).1;
    var slot := CountOf(placements, i, placements[i]);
    CountBounds(placements, i, placements[i], placements[i]);
    FitsStride(size, h, policy);
    hide CountOf, Capacity, VerticalOrigin, HorizontalOrigin;
    SlotFits(h, policy.toastGap, size.height, |placements|);
    RowIs(size.height, h, h + policy.toastGap, policy.toastGap, slot, |placements|, placements[i]);
  }

  lemma FitsStride(size: WindowSize, height: U16, policy: DisplayPolicy)
    requires 0 < height && height + policy.toastGap <= U16_MAX
    ensures Stride(height, policy.toastGap) == height + policy.toastGap
    ensures Capacity(size, height, policy.toastGap, policy.maxVisible)
         <= SatAdd(size.height, policy.toastGap) / (height + policy.toastGap)
  {
  }

  lemma ColumnsInside(size: WindowSize, policy: DisplayPolicy, p: Placement)
    ensures var w := ToastSize(size, policy).0; HorizontalOrigin(size.width, w, p) + w <= size.width
  {
  }

  /** Every planned toast lies inside its window. */
  lemma PlannedInside(placements: seq<Placement>, i: nat, size: WindowSize, policy: DisplayPolicy)
    requires Sensible(policy) && i < |placements|
    requires |placements| <= Capacity(size, ToastSize(size, policy).1, policy.toastGap, policy.maxVisible)
    ensures Inside(PlannedGeometry(placements, i, size, policy), size)
  {
    PlannedRows(placements, i, size, policy);
    ColumnsInside(size, policy, placements[i]);
    hide CountOf, Capacity, VerticalOrigin, HorizontalOrigin, ToastSize;
    PlannedColumns(placements, i, size, policy);
    hide PlannedGeometry;
    RowsInside(CountOf(placements, i, placements[i]), ToastSize(size, policy).1 + policy.toastGap);
  }

  lemma RowsInside(slot: nat, stride: nat)
    ensures slot * stride >= 0
  {
  }

  lemma PlannedColumns(placements: seq<Placement>, i: nat, size: WindowSize, policy: DisplayPolicy)
    requires i < |placements|
    ensures var g := PlannedGeometry(placements, i, size, policy); var w := ToastSize(size, policy).0;
            g.width == w && g.x == HorizontalOrigin(size.width, w, placements[i])
  {
    hide CountOf, Capacity, VerticalOrigin, HorizontalOrigin, ToastSize;
  }

  /** Two planned toasts under the same horizontal anchor keep the gap, also when one is
      stacked from the top and the other from the bottom. */
  lemma PlannedApart(placements: seq<Placement>, i: nat, j: nat, size: WindowSize, policy: DisplayPolicy)
    requires Sensible(policy) && i < j < |placements| && SameAnchor(placements[i], placements[j])
    requires |placements| <= Capacity(size, ToastSize(size, policy).1, policy.toastGap, policy.maxVisible)
    ensures Apart(PlannedGeometry(placements, i, size, policy), PlannedGeometry(placements, j, size, policy),
                  policy.toastGap)
  {
    var p, q := placements[i], placements[j];
    var stride := ToastSize(size, policy).1 + policy.toastGap;
    var a, b := CountOf(placements, i, p), CountOf(placements, j, q);
    PlannedRows(placements, i, size, policy);
    PlannedRows(placements, j, size, policy);
    hide CountOf, Capacity, VerticalOrigin, HorizontalOrigin, ToastSize, PlannedGeometry;
    if p == q {
      CountGrows(placements, i, j, p);
      OneMore(a, b, stride);
    } else {
      CountGrows(placements, i, |placements|, p);
      CountGrows(placements, j, |placements|, q);
      CountBounds(placements, |placements|, p, q);
      BothEnds(a, b, |placements|, stride);
    }
  }

  // ---------- at their own edge, growing inwards ----------

  /** Left toasts touch the left edge and right ones the right edge; centred ones have the same
      room on both sides, but for the odd column. */
  predicate AtItsSide(g: Geometry, size: WindowSize, p: Placement) {
    match p
    case TopLeft | BottomLeft => g.x == 0
    case TopCenter | BottomCenter => 2 * g.x + g.width <= size.width <= 2 * g.x + g.width + 1
    case TopRight | BottomRight => g.x + g.width == size.width
  }

  /** The outermost toast of a placement touches the top or the bottom. */
  predicate AtItsEdge(g: Geometry, size: WindowSize, p: Placement) {
    match p
    case TopLeft | TopCenter | TopRight => g.y == 0
    case BottomLeft | BottomCenter | BottomRight => g.y + g.height == size.height
  }

  /** `inner` is stacked on `outer`, away from the edge and one gap apart. */
  predicate StackedOn(outer: Geometry, inner: Geometry, gap: U16, p: Placement) {
    match p
    case TopLeft | TopCenter | TopRight => inner.y == outer.y + outer.height + gap
    case BottomLeft | BottomCenter | BottomRight => outer.y == inner.y + inner.height + gap
  }

  lemma {:induction false} NoneEarlier(placements: seq<Placement>, i: nat, n: nat, p: Placement)
    requires i <= n <= |placements| && forall k :: i <= k < n ==> placements[k] != p
    ensures CountOf(placements, n, p) == CountOf(placements, i, p)
  {
    if i < n { NoneEarlier(placements, i, n - 1, p); }
  }

  lemma NextSlot(placements: seq<Placement>, i: nat, j: nat)
    requires i < j < |placements| && placements[i] == placements[j]
    requires forall k :: i < k < j ==> placements[k] != placements[i]
    ensures CountOf(placements, j, placements[j]) == CountOf(placements, i, placements[i]) + 1
  {
    hide CountOf;
    SlotGone(placements, i);
    NoneEarlier(placements, i + 1, j, placements[i]);
  }

  lemma SlotGone(placements: seq<Placement>, i: nat)
    requires i < |placements|
    ensures CountOf(placements, i + 1, placements[i]) == CountOf(placements, i, placements[i]) + 1
  {
  }

  lemma NextRow(slot: nat, stride: nat)
    ensures (slot + 1) * stride == slot * stride + stride
  {
  }

  lemma OriginAtSide(size: WindowSize, policy: DisplayPolicy, p: Placement, g: Geometry)
    requires var w := ToastSize(size, policy).0; g.width == w && g.x == HorizontalOrigin(size.width, w, p)
    ensures AtItsSide(g, size, p)
  {
  }

  /** Every toast is at the side it was placed on, the first of a placement at the edge as
      well, as wide as the policy says where that fits, and above those shown before it. */
  lemma PlannedAnchored(placements: seq<Placement>, i: nat, size: WindowSize, policy: DisplayPolicy)
    requires Sensible(policy) && i < |placements|
    requires |placements| <= Capacity(size, ToastSize(size, policy).1, policy.toastGap, policy.maxVisible)
    ensures var g := PlannedGeometry(placements, i, size, policy);
            && AtItsSide(g, size, placements[i])
            && ((forall k :: 0 <= k < i ==> placements[k] != placements[i]) ==> AtItsEdge(g, size, placements[i]))
            && g.zIndex == (if i <= U16_MAX then i else U16_MAX)
            && (if policy.toastWidth <= size.width
                then g.width == policy.toastWidth && g.height == policy.toastHeight
                else g.width == size.width && g.height == 1)
  {
    PlannedRows(placements, i, size, policy);
    PlannedColumns(placements, i, size, policy);
    OriginAtSide(size, policy, placements[i], PlannedGeometry(placements, i, size, policy));
    hide Capacity, VerticalOrigin, HorizontalOrigin, AtItsSide;
    if forall k :: 0 <= k < i ==> placements[k] != placements[i] { NoneEarlier(placements, 0, i, placements[i]); }
  }

  /** A toast lies one gap further in than the one its placement was given before. */
  lemma PlannedStacks(placements: seq<Placement>, i: nat, j: nat, size: WindowSize, policy: DisplayPolicy)
    requires Sensible(policy) && i < j < |placements| && placements[i] == placements[j]
    requires forall k :: i < k < j ==> placements[k] != placements[i]
    requires |placements| <= Capacity(size, ToastSize(size, policy).1, policy.toastGap, policy.maxVisible)
    ensures StackedOn(PlannedGeometry(placements, i, size, policy), PlannedGeometry(placements, j, size, policy),
                      policy.toastGap, placements[i])
  {
    PlannedRows(placements, i, size, policy);
    PlannedRows(placements, j, size, policy);
    NextSlot(placements, i, j);
    hide CountOf, Capacity, VerticalOrigin, HorizontalOrigin, ToastSize, PlannedGeometry;
    NextRow(CountOf(placements, i, placements[i]), ToastSize(size, policy).1 + policy.toastGap);
  }

  lemma MostThatFit(n: nat, stride: nat, room: nat)
    requires stride > 0
    ensures n <= room / stride <==> n * stride <= room
  {
    assert room == stride * (room / stride) + room % stride;
    if n <= room / stride {
      MulMonotone(n, room / stride, stride);
    } else {
      MulMonotone(room / stride + 1, n, stride);
      assert (room / stride + 1) * stride == stride * (room / stride) + stride;
    }
  }

  /** The capacity is the most toasts that go above each other with their gaps, within the
      configured number. */
  lemma CapacityIsMost(size: WindowSize, height: U16, gap: U16, most: nat, n: nat)
    requires 0 < height && height + gap <= U16_MAX && size.height + gap <= U16_MAX && 0 < n
    ensures n <= Capacity(size, height, gap, most) <==> n <= most && n * height + (n - 1) * gap <= size.height
  {
    MostThatFit(n, height + gap, size.height + gap);
    assert n * (height + gap) == n * height + (n - 1) * gap + gap;
  }

  /** What the planner shows is the first in stack order, as many as the capacity allows, so
      the laws above apply to everything it plans. */
  lemma ShownFits(ids: seq<NotificationId>, size: WindowSize, policy: DisplayPolicy)
    ensures var capacity := Capacity(size, ToastSize(size, policy).1, policy.toastGap, policy.maxVisible);
            |Shown(ids, size, policy)|
            == if size.width < 24 || size.height == 0 then 0 else if |ids| <= capacity then |ids| else capacity
    ensures forall i :: 0 <= i < |Shown(ids, size, policy)| ==>
      Shown(ids, size, policy)[i] == if policy.order.OldestFirst? then ids[i] else ids[|ids| - 1 - i]
  {
    hide Capacity;
  }

  // ---------- one stack with a waiting count ----------

  datatype SlotContent = ToastSlot(sequence: nat) | WaitingSlot(count: nat)
  datatype PlacedSlot = PlacedSlot(geometry: Geometry, content: SlotContent)
  datatype WindowLayout = WindowLayout(slots: seq<PlacedSlot>, suppressed: nat)
  datatype LayoutOptions = LayoutOptions(placement: Placement, policy: DisplayPolicy)

  const MIN_TOAST_WIDTH := 24

  function InsertBySequence(s: seq<nat>, n: nat, order: StackOrder): seq<nat> {
    if s == [] then [n]
    else if (order.OldestFirst? && n < s[0]) || (order.NewestFirst? && n > s[0]) then [n] + s
    else [s[0]] + InsertBySequence(s[1..], n, order)
  }

  /** The stable sort of the toasts by sequence. */
  function Ordered(sequences: seq<nat>, order: StackOrder): seq<nat> {
    if sequences == [] then []
    else InsertBySequence(Ordered(sequences[..|sequences| - 1], order), sequences[|sequences| - 1], order)
  }

  /** The innermost slot tells how many wait when not all fit. */
  function LayoutContents(ordered: seq<nat>, perWindow: nat): seq<SlotContent>
    requires perWindow > 0
  {
    var capacity := if |ordered| > perWindow then perWindow - 1 else perWindow;
    var toasts := Taken(ordered, capacity);
    seq(|toasts|, i requires 0 <= i < |toasts| => ToastSlot(toasts[i]))
    + if |ordered| > capacity then [WaitingSlot(|ordered| - capacity)] else []
  }

  function LayoutWindow(viewport: WindowSize, sequences: seq<nat>, options: LayoutOptions): WindowLayout {
    var policy := options.policy;
    var (width, height) := ToastSize(viewport, policy);
    var perWindow := Capacity(viewport, height, policy.toastGap, policy.maxVisible);
    if viewport.width < MIN_TOAST_WIDTH || perWindow == 0 then WindowLayout([], |sequences|)
    else
      var contents := LayoutContents(Ordered(sequences, policy.order), perWindow);
      var slots := seq(|contents|, i requires 0 <= i < |contents| =>
        PlacedSlot(ToastGeometry(viewport, width, height, SatAdd(height, policy.toastGap), i, options.placement, i),
                   contents[i]));
      var last := if contents == [] then 0
                  else match contents[|contents| - 1]
                    case WaitingSlot(n) => n
                    case ToastSlot(_) => 0;
      WindowLayout(slots, last)
  }

  function ToastCount(slots: seq<PlacedSlot>): nat {
    if slots == [] then 0 else ToastCount(slots[..|slots| - 1]) + if slots[|slots| - 1].content.ToastSlot? then 1 else 0
  }

  lemma {:induction false} InsertLength(s: seq<nat>, n: nat, order: StackOrder)
    ensures |InsertBySequence(s, n, order)| == |s| + 1
  {
    if s != [] { InsertLength(s[1..], n, order); }
  }

  lemma {:induction false} OrderedLength(sequences: seq<nat>, order: StackOrder)
    ensures |Ordered(sequences, order)| == |sequences|
  {
    if sequences != [] {
      OrderedLength(sequences[..|sequences| - 1], order);
      InsertLength(Ordered(sequences[..|sequences| - 1], order), sequences[|sequences| - 1], order);
    }
  }

  predicate Before(a: nat, b: nat, order: StackOrder) {
    if order.OldestFirst? then a <= b else a >= b
  }

  predicate InLine(s: seq<nat>, order: StackOrder) {
    forall i, j :: 0 <= i < j < |s| ==> Before(s[i], s[j], order)
  }

  lemma PrependInLine(n: nat, s: seq<nat>, order: StackOrder)
    requires InLine(s, order) && forall x :: x in s ==> Before(n, x, order)
    ensures InLine([n] + s, order)
  {
    var r := [n] + s;
    forall i, j | 0 <= i < j < |r| ensures Before(r[i], r[j], order) {
      assert r[j] == s[j - 1];
    }
  }

  lemma TailInLine(s: seq<nat>, order: StackOrder)
    requires InLine(s, order) && s != []
    ensures InLine(s[1..], order) && forall x :: x in s[1..] ==> Before(s[0], x, order)
  {
  }

  lemma {:induction false} InsertKeeps(s: seq<nat>, n: nat, order: StackOrder)
    ensures multiset(InsertBySequence(s, n, order)) == multiset(s) + multiset{n}
  {
    if s == [] {
      assert multiset([n]) == multiset{n};
    } else {
      assert s == [s[0]] + s[1..];
      InsertKeeps(s[1..], n, order);
    }
  }

  lemma InsertedMembers(s: seq<nat>, n: nat, order: StackOrder)
    ensures forall x :: x in InsertBySequence(s, n, order) ==> x == n || x in s
  {
    hide InsertBySequence;
    InsertKeeps(s, n, order);
    forall x | x in InsertBySequence(s, n, order) ensures x == n || x in s {
      assert x in multiset(InsertBySequence(s, n, order));
    }
  }

  lemma {:induction false} InsertSorts(s: seq<nat>, n: nat, order: StackOrder)
    requires InLine(s, order)
    ensures InLine(InsertBySequence(s, n, order), order)
  {
    if s != [] {
      hide InLine;
      TailInLine(s, order);
      if (order.OldestFirst? && n < s[0]) || (order.NewestFirst? && n > s[0]) {
        PrependInLine(n, s, order);
      } else {
        InsertSorts(s[1..], n, order);
        InsertedMembers(s[1..], n, order);
        PrependInLine(s[0], InsertBySequence(s[1..], n, order), order);
      }
    }
  }

  /** The sort keeps every toast and puts the first ones in line first. */
  lemma {:induction false} OrderedSorts(sequences: seq<nat>, order: StackOrder)
    ensures InLine(Ordered(sequences, order), order) && multiset(Ordered(sequences, order)) == multiset(sequences)
  {
    if sequences != [] {
      var front, last := sequences[..|sequences| - 1], sequences[|sequences| - 1];
      OrderedSorts(front, order);
      InsertSorts(Ordered(front, order), last, order);
      InsertKeeps(Ordered(front, order), last, order);
      assert sequences == front + [last];
    }
  }

  lemma {:induction false} AllToastsCount(slots: seq<PlacedSlot>, n: nat)
    requires n <= |slots| <= n + 1
    requires forall i :: 0 <= i < n ==> slots[i].content.ToastSlot?
    requires |slots| == n + 1 ==> slots[n].content.WaitingSlot?
    ensures ToastCount(slots) == n
    decreases |slots|
  {
    if slots != [] {
      var front := slots[..|slots| - 1];
      AllToastsCount(front, if |slots| == n + 1 then n else n - 1);
    }
  }

  /** Shown plus waiting is everything, and the waiting count is told truthfully. */
  lemma LayoutAccounts(viewport: WindowSize, sequences: seq<nat>, options: LayoutOptions)
    ensures var l := LayoutWindow(viewport, sequences, options); ToastCount(l.slots) + l.suppressed == |sequences|
    ensures var l := LayoutWindow(viewport, sequences, options);
            |l.slots| <= Capacity(viewport, ToastSize(viewport, options.policy).1, options.policy.toastGap,
                                  options.policy.maxVisible)
  {
    var policy := options.policy;
    hide Ordered;
    OrderedLength(sequences, policy.order);
    var l := LayoutWindow(viewport, sequences, options);
    if l.slots != [] {
      var n := |l.slots| - if l.slots[|l.slots| - 1].content.WaitingSlot? then 1 else 0;
      AllToastsCount(l.slots, n);
    }
  }

  /** All toasts are shown if they fit; if not, all but the innermost slot hold the first ones
      in line and that slot tells how many wait. Too small a window shows nothing. */
  lemma LayoutShows(viewport: WindowSize, sequences: seq<nat>, options: LayoutOptions)
    ensures var l := LayoutWindow(viewport, sequences, options);
            var ordered := Ordered(sequences, options.policy.order);
            var most := Capacity(viewport, ToastSize(viewport, options.policy).1, options.policy.toastGap,
                                 options.policy.maxVisible);
            if viewport.width < MIN_TOAST_WIDTH || most == 0 then l.slots == [] && l.suppressed == |sequences|
            else if |sequences| <= most then
              && |l.slots| == |sequences| && l.suppressed == 0
              && forall i :: 0 <= i < |l.slots| ==> l.slots[i].content == ToastSlot(ordered[i])
            else
              && |l.slots| == most && l.suppressed == |sequences| - (most - 1)
              && l.slots[most - 1].content == WaitingSlot(l.suppressed)
              && forall i :: 0 <= i < most - 1 ==> l.slots[i].content == ToastSlot(ordered[i])
  {
    OrderedLength(sequences, options.policy.order);
    hide Ordered, ToastGeometry, Capacity, ToastSize;
  }

  /** The slots of one layout lie inside the viewport and keep the gap. */
  lemma LayoutFits(viewport: WindowSize, sequences: seq<nat>, options: LayoutOptions, i: nat, j: nat)
    requires Sensible(options.policy)
    requires i < j < |LayoutWindow(viewport, sequences, options).slots|
             || i == j < |LayoutWindow(viewport, sequences, options).slots|
    ensures var l := LayoutWindow(viewport, sequences, options);
            && Inside(l.slots[i].geometry, viewport)
            && (i < j ==> Apart(l.slots[i].geometry, l.slots[j].geometry, options.policy.toastGap))
  {
    var l := LayoutWindow(viewport, sequences, options);
    LayoutAccounts(viewport, sequences, options);
    var placements := seq(|l.slots|, k => options.placement);
    SamePlacement(placements, options.placement, i);
    SamePlacement(placements, options.placement, j);
    PlannedInside(placements, i, viewport, options.policy);
    if i < j { PlannedApart(placements, i, j, viewport, options.policy); }
  }

  /** The slots of one layout are at the side they are placed on, the first at the edge and
      each other one gap further in. */
  lemma LayoutAnchored(viewport: WindowSize, sequences: seq<nat>, options: LayoutOptions, i: nat)
    requires Sensible(options.policy) && i < |LayoutWindow(viewport, sequences, options).slots|
    ensures var slots := LayoutWindow(viewport, sequences, options).slots;
            && AtItsSide(slots[i].geometry, viewport, options.placement)
            && (if i == 0 then AtItsEdge(slots[0].geometry, viewport, options.placement)
                else StackedOn(slots[i - 1].geometry, slots[i].geometry, options.policy.toastGap, options.placement))
  {
    var l := LayoutWindow(viewport, sequences, options);
    LayoutAccounts(viewport, sequences, options);
    var placements := seq(|l.slots|, k => options.placement);
    SamePlacement(placements, options.placement, i);
    PlannedAnchored(placements, i, viewport, options.policy);
    if i > 0 {
      SamePlacement(placements, options.placement, i - 1);
      PlannedStacks(placements, i - 1, i, viewport, options.policy);
    }
  }

  lemma {:induction false} SamePlacement(placements: seq<Placement>, p: Placement, n: nat)
    requires n <= |placements| && forall k :: 0 <= k < |placements| ==> placements[k] == p
    ensures CountOf(placements, n, p) == n
  {
    if n > 0 { SamePlacement(placements, p, n - 1); }
  }
}
