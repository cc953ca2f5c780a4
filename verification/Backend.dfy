/** Bringing tmux's floating panes to the desired plan.

    tmux is an oracle: any command may succeed, fail or lose the connection, which the code
    below leaves open with `*`, as it does the time and the token generator's draws. */
module Backend {
  import opened Wrappers
  import opened Seqs
  import Notifications
  import ToastLayout
  import opened RendererSessionStores
  import opened TmuxLog
  import opened PaneLedger

  // ---------- identifiers ----------

  predicate ValidDisplayId(s: string) {
    0 < |s| <= 128 && forall c :: c in s ==>
      'a' <= c <= 'z' || 'A' <= c <= 'Z' || '0' <= c <= '9' || c == '-' || c == '_' || c == ':' || c == '@' || c == '%'
  }

  // ---------- the commands of an update ----------

  function Move(pane: PaneId, direction: Direction, cells: U16): seq<TmuxCommand> {
    if cells > 0 then [MovePane(pane, direction, cells)] else []
  }

  function RelativeMoves(pane: PaneId, actual: Geometry, desired: Geometry): seq<TmuxCommand> {
    Move(pane, Right, ToastLayout.SatSub(desired.x, actual.x))
    + Move(pane, Left, ToastLayout.SatSub(actual.x, desired.x))
    + Move(pane, Down, ToastLayout.SatSub(desired.y, actual.y))
    + Move(pane, Up, ToastLayout.SatSub(actual.y, desired.y))
  }

  function AtLeastOne(n: U16): U16 {
    if n == 0 then 1 else n
  }

  function UpdateCommands(pane: PaneId, actual: Geometry, desired: Geometry): seq<TmuxCommand> {
    (if actual.width != desired.width || actual.height != desired.height
     then [ResizePane(pane, AtLeastOne(desired.width), AtLeastOne(desired.height))] else [])
    + RelativeMoves(pane, actual, desired)
    + (if actual.zIndex != desired.zIndex then [RaisePane(pane, desired.zIndex)] else [])
  }

  /** What each command does to the pane's geometry. */
  function Applied(g: Geometry, command: TmuxCommand): Geometry {
    match command
    case ResizePane(_, w, h) => g.(width := w, height := h)
    case MovePane(_, Right, n) => g.(x := ToastLayout.SatAdd(g.x, n))
    case MovePane(_, Left, n) => g.(x := ToastLayout.SatSub(g.x, n))
    case MovePane(_, Down, n) => g.(y := ToastLayout.SatAdd(g.y, n))
    case MovePane(_, Up, n) => g.(y := ToastLayout.SatSub(g.y, n))
    case RaisePane(_, z) => g.(zIndex := z)
    case _ => g
  }

  function AllApplied(g: Geometry, commands: seq<TmuxCommand>): Geometry
    decreases |commands|
  {
    if commands == [] then g else AllApplied(Applied(g, commands[0]), commands[1..])
  }

  lemma {:induction false} AppliedAppend(g: Geometry, a: seq<TmuxCommand>, b: seq<TmuxCommand>)
    ensures AllApplied(g, a + b) == AllApplied(AllApplied(g, a), b)
    decreases |a|
  {
    if a == [] {
      assert a + b == b;
    } else {
      AppliedAppend(Applied(g, a[0]), a[1..], b);
      assert (a + b)[1..] == a[1..] + b;
    }
  }

  lemma AppliedOne(g: Geometry, c: TmuxCommand)
    ensures AllApplied(g, [c]) == Applied(g, c) && AllApplied(g, []) == g
  {
    assert [c][1..] == [];
  }

  lemma MoveApplied(g: Geometry, pane: PaneId, direction: Direction, cells: U16)
    ensures AllApplied(g, Move(pane, direction, cells)) == Applied(g, MovePane(pane, direction, cells))
  {
    AppliedOne(g, MovePane(pane, direction, cells));
  }

  /** Relative moves worked out from the registered coordinate bring this one to the desired
      one: it is the registered one, or an edge of the screen stops it there. */
  predicate Meets(actual: U16, desired: U16, found: U16) {
    if desired > actual then found == actual || (desired == 65535 && found > actual)
    else if desired < actual then found == actual || (desired == 0 && found < actual)
    else found == desired
  }

  /** A size is absolute when it is sent at all. */
  predicate Fits(sent: bool, desired: U16, found: U16) {
    if sent then desired > 0 else found == desired
  }

  lemma AxisMeets(actual: U16, desired: U16, found: U16)
    ensures ToastLayout.SatSub(ToastLayout.SatAdd(found, ToastLayout.SatSub(desired, actual)),
                               ToastLayout.SatSub(actual, desired)) == desired
       <==> Meets(actual, desired, found)
  {
  }

  lemma MovesLand(g: Geometry, pane: PaneId, actual: Geometry, desired: Geometry)
    ensures AllApplied(g, RelativeMoves(pane, actual, desired))
         == g.(x := ToastLayout.SatSub(ToastLayout.SatAdd(g.x, ToastLayout.SatSub(desired.x, actual.x)),
                                       ToastLayout.SatSub(actual.x, desired.x)),
               y := ToastLayout.SatSub(ToastLayout.SatAdd(g.y, ToastLayout.SatSub(desired.y, actual.y)),
                                       ToastLayout.SatSub(actual.y, desired.y)))
  {
    var right, left := ToastLayout.SatSub(desired.x, actual.x), ToastLayout.SatSub(actual.x, desired.x);
    var down, up := ToastLayout.SatSub(desired.y, actual.y), ToastLayout.SatSub(actual.y, desired.y);
    var r, l, d, u := Move(pane, Right, right), Move(pane, Left, left), Move(pane, Down, down), Move(pane, Up, up);
    MoveApplied(g, pane, Right, right);
    var g1 := AllApplied(g, r);
    MoveApplied(g1, pane, Left, left);
    var g2 := AllApplied(g1, l);
    MoveApplied(g2, pane, Down, down);
    var g3 := AllApplied(g2, d);
    MoveApplied(g3, pane, Up, up);
    AppliedAppend(g, r, l);
    AppliedAppend(g, r + l, d);
    AppliedAppend(g, r + l + d, u);
  }

  /** What a pane found elsewhere than registered needs for the commands to take it where they
      should: each coordinate and size meets the desired one on its own. */
  predicate Lands(actual: Geometry, desired: Geometry, found: Geometry) {
    var resized := actual.width != desired.width || actual.height != desired.height;
    && Fits(resized, desired.width, found.width) && Fits(resized, desired.height, found.height)
    && Meets(actual.x, desired.x, found.x) && Meets(actual.y, desired.y, found.y)
    && (actual.zIndex == desired.zIndex ==> found.zIndex == desired.zIndex)
  }

  lemma UpdateLandsIff(pane: PaneId, actual: Geometry, desired: Geometry, found: Geometry)
    ensures AllApplied(found, UpdateCommands(pane, actual, desired)) == desired <==> Lands(actual, desired, found)
  {
    var resize := if actual.width != desired.width || actual.height != desired.height
                  then [ResizePane(pane, AtLeastOne(desired.width), AtLeastOne(desired.height))] else [];
    var moves := RelativeMoves(pane, actual, desired);
    var raise := if actual.zIndex != desired.zIndex then [RaisePane(pane, desired.zIndex)] else [];
    AppliedOne(found, ResizePane(pane, AtLeastOne(desired.width), AtLeastOne(desired.height)));
    var sized := AllApplied(found, resize);
    MovesLand(sized, pane, actual, desired);
    AxisMeets(actual.x, desired.x, found.x);
    AxisMeets(actual.y, desired.y, found.y);
    AppliedOne(AllApplied(sized, moves), RaisePane(pane, desired.zIndex));
    AppliedAppend(found, resize, moves);
    AppliedAppend(found, resize + moves, raise);
  }

  /** The commands of an update carry the registered geometry to the desired one, exactly
      unless a size has to change and a desired dimension is zero; and there are none exactly
      when there is nothing to change. */
  lemma UpdateReaches(pane: PaneId, actual: Geometry, desired: Geometry)
    ensures AllApplied(actual, UpdateCommands(pane, actual, desired)) == desired
       <==> ((desired.width > 0 && desired.height > 0)
             || (actual.width == desired.width && actual.height == desired.height))
    ensures UpdateCommands(pane, actual, desired) == [] <==> actual == desired
  {
    UpdateLandsIff(pane, actual, desired, actual);
  }

  /** A batch that fails after its first move leaves the registry as it was; the next pass
      sends the move again, and then registers a place where the pane is not. */
  lemma RetryDrifts(pane: PaneId, actual: Geometry, desired: Geometry)
    requires actual.x < desired.x < 65535 && actual.width == desired.width && actual.height == desired.height
    ensures var commands := UpdateCommands(pane, actual, desired);
            && commands[0] == MovePane(pane, Right, desired.x - actual.x)
            && AllApplied(AllApplied(actual, commands[..1]), commands) != desired
  {
    var commands := UpdateCommands(pane, actual, desired);
    assert commands[..1] == [commands[0]];
    AppliedOne(actual, commands[0]);
    UpdateLandsIff(pane, actual, desired, AllApplied(actual, commands[..1]));
  }

  // ---------- what a window should hold ----------

  ghost function Ids(desired: seq<PlannedDisplay>): set<DisplayId> {
    set d | d in desired :: d.id
  }

  ghost predicate Shows(displays: Registry, w: WindowId, d: PlannedDisplay) {
    d.id in displays
    && displays[d.id].window == w && displays[d.id].kind == d.kind
    && displays[d.id].geometry == d.geometry && displays[d.id].content == d.content
  }

  ghost predicate OnlyDesired(displays: Registry, w: WindowId, desired: seq<PlannedDisplay>) {
    forall id :: id in displays && displays[id].window == w ==> id in Ids(desired)
  }

  /** The registry, restricted to the window, is the desired displays; tmux can name them all. */
  ghost predicate Realized(displays: Registry, w: WindowId, desired: seq<PlannedDisplay>) {
    StableId(w, '@') && OnlyDesired(displays, w, desired) && AllShown(displays, w, desired, |desired|)
  }

  /** What working on one window leaves alone: other windows, but for displays it takes over. */
  ghost predicate OthersKept(before: Registry, after: Registry, w: WindowId, ids: set<DisplayId>) {
    && (forall id :: id in after && after[id].window != w ==> id in before && before[id] == after[id])
    && (forall id :: id in before && before[id].window != w && id !in ids ==> id in after && after[id] == before[id])
  }

  ghost predicate PanesValid(displays: Registry) {
    forall id :: id in displays ==> StableId(displays[id].pane, '%') && ValidDisplayId(id)
  }

  /** The display stood in the window in this form already. */
  ghost predicate Stood(displays: Registry, window: WindowId, desired: PlannedDisplay) {
    desired.id in displays && displays[desired.id].window == window && displays[desired.id].kind == desired.kind
  }

  /** The last thing said to tmux placed the display's pane. */
  ghost predicate PlacedLast(log: Log, window: WindowId, desired: PlannedDisplay, pane: PaneId) {
    var n := if desired.kind.ToastDisplay? then 2 else 1;
    n <= |log| && Placed(log[|log| - n..], window, desired.kind.ToastDisplay?, desired.geometry, desired.id, pane)
  }

  /** A display that stood there already was given the content if it differs; any other was
      given a new renderer session with the content, and a pane placed where it should be. */
  ghost predicate Presented(before: Registry, after: Registry, window: WindowId, desired: PlannedDisplay, log: Log,
                            early: History, late: History)
  {
    if Stood(before, window, desired) && before[desired.id].content == desired.content then late == early
    else
      && LastContent(late, desired.id) == Some(desired.content)
      && (Stood(before, window, desired)
          || (desired.id in after && PlacedLast(log, window, desired, after[desired.id].pane)))
  }

  /** tmux can be told of every display. */
  ghost predicate AllNameable(desired: seq<PlannedDisplay>) {
    forall k :: 0 <= k < |desired| ==> ValidDisplayId(desired[k].id)
  }

  ghost predicate NameableBut(plan: Plan, rest: set<WindowId>) {
    forall w :: w in plan && w !in rest ==> StableId(w, '@') && AllNameable(plan[w])
  }

  /** tmux can be told of every window and display of the plan. */
  ghost predicate Nameable(plan: Plan) {
    forall w :: w in plan ==> StableId(w, '@') && AllNameable(plan[w])
  }

  class ProductionBackend {
    var displays: Registry
    var connected: bool
    const renderers: RendererSessions
    /** Everything said to tmux, with its answers. */
    ghost var log: Log
    /** Panes that a topology no longer listed. */
    ghost var vanished: set<PaneId>
    /** How often tmux or a renderer session answered that something could not be done. */
    ghost var troubles: nat

    /** Renderer sessions exist only for registered displays. */
    ghost predicate Registered()
      reads this, renderers
    {
      renderers.Valid() && renderers.displays.Keys <= displays.Keys && PanesValid(displays)
    }

    ghost predicate Valid()
      reads this, renderers
    {
      Registered() && Ledger(displays, log, vanished)
    }

    constructor (renderers: RendererSessions)
      requires renderers.Valid() && renderers.displays == map[]
      ensures Valid() && displays == map[] && this.renderers == renderers
      ensures log == [] && vanished == {} && troubles == 0
    {
      this.renderers := renderers;
      displays, connected, log, vanished, troubles := map[], true, [], {}, 0;
    }

    method Command(commands: seq<TmuxCommand>) returns (reply: TmuxReply)
      modifies this`connected, this`log, this`troubles
      ensures connected == !reply.ConnectionLost? && log == old(log) + [Exchange(commands, reply)]
      ensures troubles == old(troubles) + (if Exchange(commands, reply).Fine() then 0 else 1)
    {
      reply := *;
      connected := !reply.ConnectionLost?;
      log := log + [Exchange(commands, reply)];
      if !Exchange(commands, reply).Fine() { troubles := troubles + 1; }
    }

    method TerminateRenderer(id: DisplayId)
      requires renderers.Valid()
      modifies renderers
      ensures renderers.Valid() && renderers.displays.Keys == old(renderers.displays.Keys) - {id}
    {
      var sent: SendOutcome := *;
      var _ := renderers.Terminate(id, sent);
    }

    method Forget(id: DisplayId)
      requires Registered()
      modifies this`displays, renderers
      ensures Registered() && displays == old(displays) - {id}
    {
      if id in displays {
        displays := displays - {id};
        TerminateRenderer(id);
      }
    }

    method ForgetAll(ids: seq<DisplayId>)
      requires Registered()
      modifies this`displays, renderers
      ensures Registered() && displays == old(displays) - ToSet(ids)
    {
      hide PanesValid, ToSet, DisplaysAgree, Paired, ExpiryAgrees, RetiredOk, RetiredTells, Proper;
      ghost var before := displays;
      NoneLess(before, ids);
      for i := 0 to |ids|
        invariant Registered() && displays == before - ToSet(ids[..i])
      {
        OneLess(before, ids, i);
        Forget(ids[i]);
      }
      assert ids[..|ids|] == ids;
    }

    /** All of them, or none: the panes of those that are registered are killed in one batch,
        and the displays are forgotten only when tmux confirms it. */
    method CloseDisplays(ids: seq<DisplayId>) returns (ok: bool)
      requires Valid()
      modifies this`displays, this`connected, this`log, this`troubles, renderers
      ensures Valid() && displays == if ok then old(displays) - ToSet(ids) else old(displays)
      ensures !Listed(old(displays), ids) ==>
        ok && displays == old(displays) && log == old(log) && connected == old(connected)
      ensures Listed(old(displays), ids) ==>
        && |log| == |old(log)| + 1 && ClosesExactly(log[|old(log)|].commands, old(displays), ids)
        && (ok <==> log[|old(log)|].Succeeded())
      ensures Accounted(old(displays), displays, old(log), log)
      ensures (ok <==> troubles == old(troubles)) && troubles >= old(troubles)
    {
      hide PanesValid, ToSet, Ledger, Accounted, Aimed, ClosesExactly, Listed;
      ghost var before, early := displays, log;
      var kills := KillCommands(displays, ids);
      KillsExactly(displays, ids);
      AccountedSame(displays, log);
      if kills != [] {
        ClosingAimed(displays, log, vanished, kills, ids);
        var reply := Command(kills);
        if reply.ConnectionLost? || !reply.success {
          AccountedKept(before, before, early, log);
          LedgerThrough(before, before, early, Exchange(kills, reply), vanished);
          return false;
        }
        ForgottenOnly(before, ids);
        ClosedAccounted(before, before - ToSet(ids), ids, early, Exchange(kills, reply));
        LedgerThrough(before, before - ToSet(ids), early, Exchange(kills, reply), vanished);
      } else {
        NothingListed(displays, ids);
      }
      ForgetAll(ids);
      return true;
    }

    /** The pane of a new display, if tmux made one and put it where it was wanted. */
    method MakePane(window: WindowId, desired: PlannedDisplay) returns (pane: Option<PaneId>)
      requires OnlyOurs(log)
      modifies this`connected, this`log, this`troubles
      ensures OnlyOurs(log) && old(log) <= log
      ensures pane.Some? ==>
        && StableId(pane.value, '%')
        && Placed(log[|old(log)|..], window, desired.kind.ToastDisplay?, desired.geometry, desired.id, pane.value)
      ensures pane.None? ==>
        NotPlaced(log[|old(log)|..], window, desired.kind.ToastDisplay?, desired.geometry, desired.id)
      ensures (pane.Some? <==> troubles == old(troubles)) && troubles >= old(troubles)
    {
      hide OnlyOurs, Made;
      ghost var early := log;
      var create := if desired.kind.ToastDisplay? then SplitWindow(window, desired.id)
                    else NewPane(window, desired.geometry, desired.id);
      var reply := Command([create]);
      CreateSaid(early, create, reply);
      assert log[|early|..] == [Exchange([create], reply)];
      if reply.ConnectionLost? || !reply.success {
        return None;
      }
      pane := PaneIn(reply.output);
      if pane.Some? && desired.kind.ToastDisplay? {
        var place := BreakPane(pane.value, window, desired.geometry);
        var broken := Command([place]);
        SaidAbout(early + [Exchange([create], reply)], place, broken);
        assert log[|early|..] == [Exchange([create], reply), Exchange([place], broken)];
        if broken.ConnectionLost? || !broken.success {
          var last := Command([KillPane(pane.value)]);
          SaidAbout(early + [Exchange([create], reply)] + [Exchange([place], broken)], KillPane(pane.value), last);
          assert log[|early|..]
              == [Exchange([create], reply), Exchange([place], broken), Exchange([KillPane(pane.value)], last)];
          assert Undone(log[|early|..], window, desired.geometry, desired.id, pane.value);
          return None;
        }
      }
    }

    /** A renderer session for a new display, with the content it is to show. */
    method OpenSession(id: DisplayId, content: RendererContent) returns (ok: bool)
      requires renderers.Valid()
      modifies this`troubles, renderers
      ensures renderers.Valid() && renderers.displays.Keys <= old(renderers.displays.Keys) + {id}
      ensures (ok <==> troubles == old(troubles)) && troubles >= old(troubles)
      ensures if ok then LastContent(renderers.history, id) == Some(content) else id !in renderers.displays
    {
      hide DisplaysAgree, Paired, ExpiryAgrees, RetiredOk, RetiredTells, Proper, LastContent, LiveSession;
      var now: Notifications.Instant := *;
      var t0, t1, t2, t3: Option<Token> := *, *, *, *;
      var launch := renderers.Create(id, content, now, [t0, t1, t2, t3]);
      if launch.Err? {
        troubles := troubles + 1;
        return false;
      }
      Renewed(renderers.history, launch.value, now, content);
      return true;
    }

    /** A display's pane and its registration. */
    method PlaceDisplay(window: WindowId, desired: PlannedDisplay) returns (ok: bool)
      requires PanesValid(displays) && Ledger(displays, log, vanished)
      requires desired.id !in displays && ValidDisplayId(desired.id)
      modifies this`displays, this`connected, this`log, this`troubles
      ensures PanesValid(displays) && Ledger(displays, log, vanished) && old(log) <= log
      ensures (ok <==> troubles == old(troubles)) && troubles >= old(troubles)
      ensures if ok then
                && desired.id in displays && displays == old(displays)[desired.id := displays[desired.id]]
                && Shows(displays, window, desired)
                && Placed(log[|old(log)|..], window, desired.kind.ToastDisplay?, desired.geometry, desired.id,
                          displays[desired.id].pane)
              else displays == old(displays)
    {
      hide PanesValid, StableId, ValidDisplayId, Placed, NotPlaced, OnlyOurs, Ledger;
      LedgerOurs(displays, log, vanished);
      ghost var before, early := displays, log;
      var pane := MakePane(window, desired);
      ghost var made := log[|early|..];
      assert log == early + made;
      if pane.None? {
        LedgerNotPlaced(before, early, made, window, desired.kind.ToastDisplay?, desired.geometry, desired.id,
                        vanished);
        return false;
      }
      var actual := ActualDisplay(pane.value, window, desired.kind, desired.geometry, desired.content);
      PutRegistered(displays, desired.id, actual);
      LedgerPlaced(before, early, made, desired.id, actual, vanished);
      displays := displays[desired.id := actual];
      return true;
    }

    /** A display not yet registered: its renderer session, its pane, then its registration. */
    method CreateDisplay(window: WindowId, desired: PlannedDisplay) returns (ok: bool)
      requires Valid() && desired.id !in displays && ValidDisplayId(desired.id)
      modifies this`displays, this`connected, this`log, this`troubles, renderers
      ensures Valid() && old(log) <= log
      ensures (ok <==> troubles == old(troubles)) && troubles >= old(troubles)
      ensures if ok then
                && desired.id in displays && displays == old(displays)[desired.id := displays[desired.id]]
                && Shows(displays, window, desired)
                && Placed(log[|old(log)|..], window, desired.kind.ToastDisplay?, desired.geometry, desired.id,
                          displays[desired.id].pane)
                && LastContent(renderers.history, desired.id) == Some(desired.content)
              else displays == old(displays)
    {
      hide PanesValid, ValidDisplayId, DisplaysAgree, Paired, ExpiryAgrees, RetiredOk, RetiredTells, Proper, Placed,
        Ledger, LastContent, LiveSession;
      var launched := OpenSession(desired.id, desired.content);
      if !launched {
        return false;
      }
      ok := PlaceDisplay(window, desired);
      if !ok {
        TerminateRenderer(desired.id);
      }
    }

    /** Geometry first, then content; what was done before a failure stays done. */
    method UpdateDisplay(window: WindowId, desired: PlannedDisplay) returns (ok: bool)
      requires Valid() && desired.id in displays
      requires displays[desired.id].window == window && displays[desired.id].kind == desired.kind
      modifies this`displays, this`connected, this`log, this`troubles, renderers
      ensures Valid() && desired.id in displays && displays == old(displays)[desired.id := displays[desired.id]]
      ensures var was := old(displays)[desired.id]; var now := displays[desired.id];
              now.pane == was.pane && now.window == was.window && now.kind == was.kind
      ensures var was := old(displays)[desired.id]; var now := displays[desired.id];
              var commands := UpdateCommands(was.pane, was.geometry, desired.geometry);
              var done := commands == [] || (|log| == |old(log)| + 1 && log[|old(log)|].Succeeded());
              && (commands == [] ==> log == old(log) && connected == old(connected))
              && (commands != [] ==>
                    |log| == |old(log)| + 1 && old(log) <= log && log[|old(log)|].commands == commands)
              && now.geometry == (if done then desired.geometry else was.geometry)
              && (ok <==> done && now.content == desired.content)
              && (ok && was.content != desired.content ==>
                    LiveSession(old(renderers.history), desired.id, renderers.limits.tokenTtl))
              && renderers.history == old(renderers.history)
                 + (if done && was.content != desired.content
                       && LiveSession(old(renderers.history), desired.id, renderers.limits.tokenTtl)
                    then [Updated(desired.id, desired.content)] else [])
      ensures ok ==> Shows(displays, window, desired)
      ensures (ok <==> troubles == old(troubles)) && troubles >= old(troubles)
      ensures old(Shows(displays, window, desired)) ==>
        ok && displays == old(displays) && log == old(log) && connected == old(connected)
    {
      hide PanesValid, DisplaysAgree, Paired, ExpiryAgrees, RetiredOk, RetiredTells, Proper, Ledger, Accounted, Aimed,
        LiveSession;
      ghost var before, early := displays, log;
      var id, actual := desired.id, displays[desired.id];
      PaneValid(displays, id);
      UpdateReaches(actual.pane, actual.geometry, desired.geometry);
      UpdatesItsPane(actual.pane, actual.geometry, desired.geometry);
      hide UpdateCommands;
      var commands := UpdateCommands(actual.pane, actual.geometry, desired.geometry);
      if commands != [] {
        UpdatingAimed(displays, log, vanished, commands, id);
        var reply := Command(commands);
        AccountedKept(before, before, early, log);
        LedgerThrough(before, before, early, Exchange(commands, reply), vanished);
        if reply.ConnectionLost? || !reply.success {
          return false;
        }
        PutRegistered(displays, id, actual.(geometry := desired.geometry));
        SamePanes(displays, log, vanished, id, actual.(geometry := desired.geometry));
        displays := displays[id := actual.(geometry := desired.geometry)];
      }
      if actual.content != desired.content {
        var sent: SendOutcome := *;
        var updated := renderers.Update(id, desired.content, sent);
        if updated.Err? {
          troubles := troubles + 1;
          return false;
        }
        PutRegistered(displays, id, displays[id].(content := desired.content));
        SamePanes(displays, log, vanished, id, displays[id].(content := desired.content));
        displays := displays[id := displays[id].(content := desired.content)];
      }
      return true;
    }

    /** A display registered elsewhere, or of another kind, is closed first. */
    method TakeOver(window: WindowId, desired: PlannedDisplay) returns (ok: bool)
      requires Valid()
      modifies this`displays, this`connected, this`log, this`troubles, renderers
      ensures Valid() && OnlyChanged(old(displays), displays, window, desired.id)
      ensures Accounted(old(displays), displays, old(log), log)
      ensures (ok <==> troubles == old(troubles)) && troubles >= old(troubles)
      ensures ok ==>
        if old(Stood(displays, window, desired))
        then displays == old(displays) && renderers.history == old(renderers.history)
        else desired.id !in displays
      ensures ok && desired.id in displays ==>
        displays[desired.id].window == window && displays[desired.id].kind == desired.kind
      ensures old(Shows(displays, window, desired)) ==>
        ok && displays == old(displays) && log == old(log) && connected == old(connected)
    {
      hide PanesValid, DisplaysAgree, Paired, ExpiryAgrees, RetiredOk, RetiredTells, Proper, OnlyChanged, ToSet,
        Ledger, Accounted, ClosesExactly;
      AccountedSame(displays, log);
      NothingChanged(displays, window, desired.id);
      if desired.id !in displays
         || (displays[desired.id].window == window && displays[desired.id].kind == desired.kind) {
        return true;
      }
      OneListed(desired.id);
      RemovedOnly(displays, window, desired.id);
      ok := CloseDisplays([desired.id]);
    }

    /** One desired display: taken over from elsewhere if need be, then updated or created. */
    method ReconcileDisplay(window: WindowId, desired: PlannedDisplay) returns (ok: bool)
      requires Valid()
      modifies this`displays, this`connected, this`log, this`troubles, renderers
      ensures Valid() && OnlyChanged(old(displays), displays, window, desired.id)
      ensures Accounted(old(displays), displays, old(log), log)
      ensures (ok <==> ValidDisplayId(desired.id) && troubles == old(troubles)) && troubles >= old(troubles)
      ensures ok ==>
        Presented(old(displays), displays, window, desired, log, old(renderers.history), renderers.history)
      ensures ok ==> Shows(displays, window, desired) && ValidDisplayId(desired.id)
      ensures old(Shows(displays, window, desired)) && ValidDisplayId(desired.id) ==>
        ok && displays == old(displays) && log == old(log) && connected == old(connected)
    {
      hide PanesValid, DisplaysAgree, Paired, ExpiryAgrees, RetiredOk, RetiredTells, Proper, OnlyChanged,
        ValidDisplayId, UpdateCommands, Ledger, Accounted, Placed, LastContent, LiveSession, PlacedLast;
      ghost var before, early := displays, log;
      AccountedSame(displays, log);
      NothingChanged(displays, window, desired.id);
      if !ValidDisplayId(desired.id) {
        return false;
      }
      var taken := TakeOver(window, desired);
      if !taken {
        return false;
      }
      ghost var mid, midLog, midHistory := displays, log, renderers.history;
      NothingChanged(mid, window, desired.id);
      if desired.id in displays {
        UpdateReaches(displays[desired.id].pane, displays[desired.id].geometry, desired.geometry);
        ok := UpdateDisplay(window, desired);
        AccountedKept(mid, displays, midLog, log);
        HistoryNext(midHistory, Updated(desired.id, desired.content), desired.id);
        PutOnly(mid, window, desired.id, displays[desired.id]);
      } else {
        ok := CreateDisplay(window, desired);
        AccountedKept(mid, displays, midLog, log);
        if ok { LastPlaced(midLog, log, window, desired, displays[desired.id].pane); }
        if ok { PutOnly(mid, window, desired.id, displays[desired.id]); }
      }
      AccountedCompose(before, mid, displays, early, midLog, log);
      ChangedCompose(before, mid, displays, window, desired.id);
    }

    /** The desired displays of a window, one by one. */
    method ReconcileEach(window: WindowId, desired: seq<PlannedDisplay>) returns (ok: bool)
      requires Valid() && UniqueDisplays(desired) && OnlyDesired(displays, window, desired)
      modifies this`displays, this`connected, this`log, this`troubles, renderers
      ensures Valid() && OthersKept(old(displays), displays, window, Ids(desired))
        && OnlyDesired(displays, window, desired)
      ensures Accounted(old(displays), displays, old(log), log)
      ensures (ok <==> AllNameable(desired) && troubles == old(troubles)) && troubles >= old(troubles)
      ensures ok ==> AllShown(displays, window, desired, |desired|)
      ensures old(AllShown(displays, window, desired, |desired|)) ==>
        ok && displays == old(displays) && log == old(log) && connected == old(connected)
    {
      hide PanesValid, DisplaysAgree, Paired, ExpiryAgrees, RetiredOk, RetiredTells, Proper, Ids, OnlyDesired,
        OthersKept, Shows, OnlyChanged, AllShown, ValidDisplayId, UniqueDisplays, AllNameable, Ledger, Accounted,
        Presented;
      ghost var before, early := displays, log;
      AccountedSame(displays, log);
      SameKept(displays, window, Ids(desired));
      NoneShown(displays, window, desired);
      for i := 0 to |desired|
        invariant Valid() && OthersKept(before, displays, window, Ids(desired))
          && OnlyDesired(displays, window, desired)
        invariant Accounted(before, displays, early, log)
        invariant troubles == old(troubles)
        invariant AllShown(displays, window, desired, i)
        invariant AllShown(before, window, desired, |desired|) ==>
          displays == before && log == old(log) && connected == old(connected)
      {
        ghost var mid, midLog := displays, log;
        ShownAt(before, window, desired, i);
        ok := ReconcileDisplay(window, desired[i]);
        AccountedCompose(before, mid, displays, early, midLog, log);
        OneMoreKept(before, mid, displays, window, desired, i, ok);
        if !ok {
          NotNameable(desired, i);
          return false;
        }
      }
      ShownNameable(displays, window, desired);
      return true;
    }

    method ReconcileWindow(window: WindowId, desired: seq<PlannedDisplay>) returns (ok: bool)
      requires Valid() && UniqueDisplays(desired)
      modifies this`displays, this`connected, this`log, this`troubles, renderers
      ensures Valid() && OthersKept(old(displays), displays, window, Ids(desired))
      ensures Accounted(old(displays), displays, old(log), log)
      ensures (ok <==> StableId(window, '@') && AllNameable(desired) && troubles == old(troubles))
        && troubles >= old(troubles)
      ensures ok ==> Realized(displays, window, desired)
      ensures old(Realized(displays, window, desired)) ==>
        ok && displays == old(displays) && log == old(log) && connected == old(connected)
    {
      hide PanesValid, DisplaysAgree, Paired, ExpiryAgrees, RetiredOk, RetiredTells, Proper, Ids, OnlyDesired,
        OthersKept, AllShown, StableId, UniqueDisplays, AllNameable, ToSet, Ledger, Accounted, ClosesExactly;
      ghost var before, early := displays, log;
      AccountedSame(displays, log);
      SameKept(displays, window, Ids(desired));
      if !StableId(window, '@') {
        return false;
      }
      var obsolete := Obsolete(displays, window, desired);
      ObsoleteNone(before, window, desired, obsolete);
      var closed := CloseDisplays(obsolete);
      if !closed {
        return false;
      }
      ObsoleteClosed(before, displays, window, desired, obsolete);
      ghost var mid, midLog := displays, log;
      ok := ReconcileEach(window, desired);
      AccountedCompose(before, mid, displays, early, midLog, log);
      KeptCompose(before, mid, displays, window, Ids(desired));
    }

    /** Closes every display whose window is not planned at all, window by window. */
    method CloseStale(plan: Plan) returns (lost: bool, failed: set<WindowId>)
      requires Valid()
      modifies this`displays, this`connected, this`log, this`troubles, renderers
      ensures Valid()
      ensures !lost ==> forall id :: id in displays ==> displays[id].window in plan || displays[id].window in failed
      ensures Accounted(old(displays), displays, old(log), log)
      ensures (!lost && failed == {} <==> troubles == old(troubles)) && troubles >= old(troubles)
      ensures lost ==> !connected
      ensures failed !! plan.Keys
      ensures old(InPlan(displays, plan)) ==>
        !lost && failed == {} && displays == old(displays) && log == old(log) && connected == old(connected)
    {
      hide PanesValid, DisplaysAgree, Paired, ExpiryAgrees, RetiredOk, RetiredTells, Proper, ToSet, Ledger, Accounted,
        ClosesExactly, Listed;
      AccountedSame(displays, log);
      lost, failed := false, {};
      var rest := set id | id in displays && displays[id].window !in plan :: displays[id].window;
      while rest != {}
        invariant Valid() && failed !! plan.Keys && rest !! plan.Keys
        invariant (failed == {} <==> troubles == old(troubles)) && troubles >= old(troubles)
        invariant Accounted(old(displays), displays, old(log), log)
        invariant forall id :: id in displays ==>
          displays[id].window in plan || displays[id].window in failed || displays[id].window in rest
        invariant old(InPlan(displays, plan)) ==>
          rest == {} && failed == {} && displays == old(displays) && log == old(log)
          && connected == old(connected)
        decreases |rest|
      {
        var w :| w in rest;
        rest := rest - {w};
        var ids := Enumerate(set id | id in displays && displays[id].window == w);
        ghost var before, early := displays, log;
        var closed := CloseDisplays(ids);
        AccountedCompose(old(displays), before, displays, old(log), early, log);
        if closed {
          WindowClosed(before, ids, w);
        } else {
          failed := failed + {w};
          if !connected {
            lost := true;
            return;
          }
        }
      }
    }

    /** One pass over the plan. It stops at once when the connection is lost; any other failure
        only fails its window. */
    method Reconcile(plan: Plan) returns (lost: bool, applied: set<WindowId>, failed: set<WindowId>)
      requires Valid() && UniquePlan(plan)
      modifies this`displays, this`connected, this`log, this`troubles, renderers
      ensures Valid()
      ensures Accounted(old(displays), displays, old(log), log)
      ensures (!lost && failed == {} <==> Nameable(plan) && troubles == old(troubles)) && troubles >= old(troubles)
      ensures lost ==> !connected
      ensures !lost ==>
        && applied <= plan.Keys && plan.Keys <= applied + failed && applied !! failed
        && (forall w :: w in applied ==> Realized(displays, w, plan[w]))
        && (failed == {} ==> Converged(displays, plan))
      ensures old(Converged(displays, plan)) ==>
        !lost && failed == {} && displays == old(displays) && log == old(log)
    {
      hide PanesValid, DisplaysAgree, Paired, ExpiryAgrees, RetiredOk, RetiredTells, Proper, Realized, OthersKept,
        UniquePlan, NameableBut, Nameable, Ledger, Accounted;
      applied := {};
      lost, failed := CloseStale(plan);
      if lost {
        return;
      }
      var rest := plan.Keys;
      NameableEnds(plan);
      while rest != {}
        invariant Valid() && rest <= plan.Keys && applied <= plan.Keys && applied !! rest && applied !! failed
          && failed !! rest
        invariant (failed == {} <==> NameableBut(plan, rest) && troubles == old(troubles))
          && troubles >= old(troubles)
        invariant Accounted(old(displays), displays, old(log), log)
        invariant plan.Keys <= applied + failed + rest
        invariant forall w :: w in applied ==> Realized(displays, w, plan[w])
        invariant failed == {} ==> InPlan(displays, plan)
        invariant old(Converged(displays, plan)) ==>
          failed == {} && displays == old(displays) && log == old(log)
        decreases |rest|
      {
        var w :| w in rest;
        NameableNext(plan, rest, w);
        rest := rest - {w};
        ghost var before, early := displays, log;
        UniqueIn(plan, w);
        var ok := ReconcileWindow(w, plan[w]);
        AccountedCompose(old(displays), before, displays, old(log), early, log);
        ProgressKept(before, displays, plan, applied, w);
        if ok {
          applied := applied + {w};
        } else {
          failed := failed + {w};
          if !connected {
            lost := true;
            return;
          }
        }
      }
    }

    /** Panes that vanished from tmux's topology are forgotten, sessions and all. */
    method PruneMissing(panes: set<PaneId>)
      requires Valid()
      modifies this`displays, this`vanished, renderers
      ensures Valid()
      ensures displays == map id | id in old(displays) && old(displays)[id].pane in panes :: old(displays)[id]
      ensures vanished
           == old(vanished)
              + (set id | id in old(displays) && old(displays)[id].pane !in panes :: old(displays)[id].pane)
    {
      hide PanesValid, DisplaysAgree, Paired, ExpiryAgrees, RetiredOk, RetiredTells, Proper, ToSet, Ledger;
      var missing := Enumerate(set id | id in displays && displays[id].pane !in panes);
      ghost var before := displays;
      ghost var gone := set id | id in displays && displays[id].pane !in panes :: displays[id].pane;
      ForgetAll(missing);
      Pruned(before, missing, panes);
      LedgerVanished(before, displays, log, vanished, gone);
      vanished := vanished + gone;
    }

    /** A modal Attention is gone before focus moves to the Source Pane, or the jump fails. */
    method CloseAttentionBeforeJump() returns (ok: bool)
      requires Valid()
      modifies this`displays, this`connected, this`log, this`troubles, renderers
      ensures Valid()
      ensures displays == if ok
                          then map id | id in old(displays) && old(displays)[id].kind.ToastDisplay? :: old(displays)[id]
                          else old(displays)
      ensures if forall id :: id in old(displays) ==> old(displays)[id].kind.ToastDisplay? then ok && log == old(log)
              else
                && |log| == |old(log)| + 1 && (ok <==> log[|old(log)|].Succeeded())
                && (forall id :: id in old(displays) && old(displays)[id].kind.AttentionDisplay? ==>
                      KillPane(old(displays)[id].pane) in log[|old(log)|].commands)
                && (forall c :: c in log[|old(log)|].commands ==>
                      c.KillPane? && exists id :: id in old(displays) && old(displays)[id].kind.AttentionDisplay?
                                                  && old(displays)[id].pane == c.pane)
    {
      hide PanesValid, DisplaysAgree, Paired, ExpiryAgrees, RetiredOk, RetiredTells, Proper, ToSet, Ledger, Accounted;
      var ids := Enumerate(set id | id in displays && displays[id].kind.AttentionDisplay?);
      ghost var before := displays;
      ok := CloseDisplays(ids);
      if ok { AttentionGone(before, ids); }
    }
  }

  lemma LastPlaced(early: Log, late: Log, window: WindowId, desired: PlannedDisplay, pane: PaneId)
    requires early <= late
    requires Placed(late[|early|..], window, desired.kind.ToastDisplay?, desired.geometry, desired.id, pane)
    ensures PlacedLast(late, window, desired, pane)
  {
    var n := if desired.kind.ToastDisplay? then 2 else 1;
    assert |late[|early|..]| == n;
    assert |late| - n == |early|;
  }

  lemma NotNameable(desired: seq<PlannedDisplay>, i: nat)
    requires i < |desired|
    ensures !ValidDisplayId(desired[i].id) ==> !AllNameable(desired)
  {
  }

  lemma ShownNameable(displays: Registry, w: WindowId, desired: seq<PlannedDisplay>)
    requires AllShown(displays, w, desired, |desired|)
    ensures AllNameable(desired)
  {
  }

  lemma NameableEnds(plan: Plan)
    ensures NameableBut(plan, plan.Keys) && (NameableBut(plan, {}) <==> Nameable(plan))
  {
    hide AllNameable, StableId;
  }

  lemma NameableNext(plan: Plan, rest: set<WindowId>, w: WindowId)
    requires w in plan && w in rest
    ensures NameableBut(plan, rest - {w}) <==> NameableBut(plan, rest) && StableId(w, '@') && AllNameable(plan[w])
    ensures Nameable(plan) ==> NameableBut(plan, rest - {w})
  {
    hide AllNameable, StableId;
  }

  lemma Renewed(h: History, launch: RendererLaunch, now: Notifications.Instant, content: RendererContent)
    requires h != [] && h[|h| - 1] == Created(launch.display, launch.token, launch.generation, now, content)
    ensures LastContent(h, launch.display) == Some(content)
  {
  }

  lemma Pruned(before: Registry, missing: seq<DisplayId>, panes: set<PaneId>)
    requires forall id :: id in missing <==> id in before && before[id].pane !in panes
    ensures before - ToSet(missing) == map id | id in before && before[id].pane in panes :: before[id]
  {
  }

  lemma AttentionGone(before: Registry, ids: seq<DisplayId>)
    requires forall id :: id in ids <==> id in before && before[id].kind.AttentionDisplay?
    ensures before - ToSet(ids) == map id | id in before && before[id].kind.ToastDisplay? :: before[id]
  {
  }

  ghost predicate InPlan(displays: Registry, plan: Plan) {
    forall id :: id in displays ==> displays[id].window in plan
  }

  /** Everything planned is shown, and nothing else is registered. */
  ghost predicate Converged(displays: Registry, plan: Plan) {
    InPlan(displays, plan) && forall w :: w in plan ==> Realized(displays, w, plan[w])
  }

  /** No display is planned twice, in one window or in two. */
  ghost predicate UniquePlan(plan: Plan) {
    && (forall w :: w in plan ==> UniqueDisplays(plan[w]))
    && (forall v, w :: v in plan && w in plan && v != w ==> Ids(plan[v]) !! Ids(plan[w]))
  }

  lemma UniqueIn(plan: Plan, w: WindowId)
    requires UniquePlan(plan) && w in plan
    ensures UniqueDisplays(plan[w])
  {
  }

  lemma WindowClosed(before: Registry, ids: seq<DisplayId>, w: WindowId)
    requires forall id :: id in ids <==> id in before && before[id].window == w
    ensures forall id :: id in before - ToSet(ids) ==> before[id].window != w
  {
  }

  /** Working on one window undoes no other applied window. */
  lemma RealizedKept(before: Registry, after: Registry, v: WindowId, mine: seq<PlannedDisplay>, w: WindowId,
                     theirs: seq<PlannedDisplay>)
    requires v != w && Ids(mine) !! Ids(theirs)
    requires Realized(before, v, mine) && OthersKept(before, after, w, Ids(theirs))
    ensures Realized(after, v, mine)
  {
    hide StableId, ValidDisplayId;
    assert forall d :: d in mine ==> d.id in Ids(mine);
    hide Ids;
    forall k | 0 <= k < |mine| ensures Shows(after, v, mine[k]) {
      assert Shows(before, v, mine[k]) && mine[k] in mine;
    }
  }

  lemma ProgressKept(before: Registry, after: Registry, plan: Plan, applied: set<WindowId>, w: WindowId)
    requires UniquePlan(plan) && w in plan && applied <= plan.Keys && w !in applied
    requires OthersKept(before, after, w, Ids(plan[w])) && forall v :: v in applied ==> Realized(before, v, plan[v])
    ensures forall v :: v in applied ==> Realized(after, v, plan[v])
    ensures InPlan(before, plan) ==> InPlan(after, plan)
  {
    hide Realized, Ids, UniqueDisplays;
    forall v | v in applied ensures Realized(after, v, plan[v]) {
      RealizedKept(before, after, v, plan[v], w, plan[w]);
    }
  }

  /** Only this display differs, and it is nowhere else than it was or in the window. */
  ghost predicate OnlyChanged(before: Registry, after: Registry, w: WindowId, id: DisplayId) {
    after - {id} == before - {id} && OthersKept(before, after, w, {id})
  }

  lemma NothingChanged(displays: Registry, w: WindowId, id: DisplayId)
    ensures OnlyChanged(displays, displays, w, id)
  {
  }

  lemma RemovedOnly(displays: Registry, w: WindowId, id: DisplayId)
    ensures OnlyChanged(displays, displays - {id}, w, id)
  {
    assert (displays - {id}) - {id} == displays - {id};
  }

  lemma PutOnly(displays: Registry, w: WindowId, id: DisplayId, actual: ActualDisplay)
    requires actual.window == w
    ensures OnlyChanged(displays, displays[id := actual], w, id)
  {
    assert displays[id := actual] - {id} == displays - {id};
  }

  lemma KeptCompose(a: Registry, b: Registry, c: Registry, w: WindowId, ids: set<DisplayId>)
    requires OthersKept(a, b, w, ids) && OthersKept(b, c, w, ids)
    ensures OthersKept(a, c, w, ids)
  {
  }

  lemma ChangedCompose(a: Registry, b: Registry, c: Registry, w: WindowId, id: DisplayId)
    requires OnlyChanged(a, b, w, id) && OnlyChanged(b, c, w, id)
    ensures OnlyChanged(a, c, w, id)
  {
    hide OthersKept;
    KeptCompose(a, b, c, w, {id});
  }

  ghost predicate AllShown(displays: Registry, w: WindowId, desired: seq<PlannedDisplay>, n: nat) {
    n <= |desired| && forall k :: 0 <= k < n ==> Shows(displays, w, desired[k]) && ValidDisplayId(desired[k].id)
  }

  lemma NoneShown(displays: Registry, w: WindowId, desired: seq<PlannedDisplay>)
    ensures AllShown(displays, w, desired, 0)
  {
  }

  lemma ShownAt(displays: Registry, w: WindowId, desired: seq<PlannedDisplay>, i: nat)
    requires i < |desired|
    ensures AllShown(displays, w, desired, |desired|) ==>
      Shows(displays, w, desired[i]) && ValidDisplayId(desired[i].id)
  {
    hide Shows, ValidDisplayId;
  }

  ghost predicate UniqueDisplays(desired: seq<PlannedDisplay>) {
    forall i, j :: 0 <= i < j < |desired| ==> desired[i].id != desired[j].id
  }

  lemma OneListed(id: DisplayId)
    ensures ToSet([id]) == {id}
  {
  }

  /** Registered in the window and not desired there, in the registry's order. */
  method Obsolete(displays: Registry, w: WindowId, desired: seq<PlannedDisplay>) returns (ids: seq<DisplayId>)
    ensures forall id :: id in ids <==> id in displays && displays[id].window == w && id !in Ids(desired)
  {
    var wanted: set<DisplayId> := set d | d in desired :: d.id;
    ids := Enumerate(set id | id in displays && displays[id].window == w && id !in wanted);
  }

  lemma SameKept(displays: Registry, w: WindowId, ids: set<DisplayId>)
    ensures OthersKept(displays, displays, w, ids)
  {
  }

  lemma ObsoleteNone(before: Registry, w: WindowId, desired: seq<PlannedDisplay>, obsolete: seq<DisplayId>)
    requires forall id :: id in obsolete <==> id in before && before[id].window == w && id !in Ids(desired)
    ensures OnlyDesired(before, w, desired) ==> forall id :: id in obsolete ==> id !in before
  {
    hide Ids;
  }

  lemma ObsoleteClosed(before: Registry, after: Registry, w: WindowId, desired: seq<PlannedDisplay>,
                       obsolete: seq<DisplayId>)
    requires forall id :: id in obsolete <==> id in before && before[id].window == w && id !in Ids(desired)
    requires after == before - ToSet(obsolete)
    ensures OthersKept(before, after, w, Ids(desired)) && OnlyDesired(after, w, desired)
    ensures OnlyDesired(before, w, desired) ==> after == before
  {
    hide Ids;
    if OnlyDesired(before, w, desired) {
      assert ToSet(obsolete) == {};
      assert before - {} == before;
    }
  }

  lemma OneMoreKept(before: Registry, mid: Registry, after: Registry, w: WindowId, desired: seq<PlannedDisplay>,
                    i: nat, ok: bool)
    requires i < |desired| && UniqueDisplays(desired)
    requires OthersKept(before, mid, w, Ids(desired)) && OnlyDesired(mid, w, desired) && AllShown(mid, w, desired, i)
    requires OnlyChanged(mid, after, w, desired[i].id)
    requires ok ==> Shows(after, w, desired[i]) && ValidDisplayId(desired[i].id)
    ensures OthersKept(before, after, w, Ids(desired)) && OnlyDesired(after, w, desired)
    ensures ok ==> AllShown(after, w, desired, i + 1)
  {
    hide ValidDisplayId;
    var id := desired[i].id;
    assert id in Ids(desired);
    hide Ids;
    ElsewhereSame(mid, after, w, id);
  }

  lemma ElsewhereSame(mid: Registry, after: Registry, w: WindowId, id: DisplayId)
    requires OnlyChanged(mid, after, w, id)
    ensures forall x :: x != id ==> (x in mid <==> x in after) && (x in mid ==> mid[x] == after[x])
  {
    forall x | x != id ensures (x in mid <==> x in after) && (x in mid ==> mid[x] == after[x]) {
      assert x in mid - {id} <==> x in after - {id};
      if x in mid { assert (mid - {id})[x] == (after - {id})[x]; }
    }
  }

  lemma PutRegistered(displays: Registry, id: DisplayId, actual: ActualDisplay)
    ensures PanesValid(displays) && StableId(actual.pane, '%') && ValidDisplayId(id) ==>
      PanesValid(displays[id := actual])
  {
  }

  lemma PaneValid(displays: Registry, id: DisplayId)
    requires PanesValid(displays) && id in displays
    ensures StableId(displays[id].pane, '%') && ValidDisplayId(id)
  {
  }

  function KillCommands(displays: Registry, ids: seq<DisplayId>): seq<TmuxCommand> {
    if ids == [] then []
    else if ids[0] in displays then [KillPane(displays[ids[0]].pane)] + KillCommands(displays, ids[1..])
    else KillCommands(displays, ids[1..])
  }

  lemma {:induction false} KillsExactly(displays: Registry, ids: seq<DisplayId>)
    ensures ClosesExactly(KillCommands(displays, ids), displays, ids)
    ensures KillCommands(displays, ids) == [] <==> !Listed(displays, ids)
  {
    if ids != [] {
      KillsExactly(displays, ids[1..]);
      assert ids == [ids[0]] + ids[1..];
      var rest := KillCommands(displays, ids[1..]);
      forall c | c in rest
        ensures c.KillPane? && exists id :: id in ids && id in displays && displays[id].pane == c.pane
      {
        var id :| id in ids[1..] && id in displays && displays[id].pane == c.pane;
        assert id in ids;
      }
      if ids[0] in displays { assert KillPane(displays[ids[0]].pane) in KillCommands(displays, ids); }
    }
  }

  lemma ForgottenOnly(displays: Registry, ids: seq<DisplayId>)
    ensures forall id :: id in displays - ToSet(ids) ==> id in displays && (displays - ToSet(ids))[id] == displays[id]
    ensures forall id :: id in displays && id !in ids ==> id in displays - ToSet(ids)
  {
  }

  lemma UpdatesItsPane(pane: PaneId, actual: Geometry, desired: Geometry)
    ensures forall c :: c in UpdateCommands(pane, actual, desired) ==> !c.Creates() && c.pane == pane
  {
  }

  lemma NothingListed(displays: Registry, ids: seq<DisplayId>)
    requires !Listed(displays, ids)
    ensures displays - ToSet(ids) == displays
  {
  }

  lemma NoneLess(displays: Registry, ids: seq<DisplayId>)
    ensures displays - ToSet(ids[..0]) == displays
  {
  }

  lemma OneLess(displays: Registry, ids: seq<DisplayId>, i: nat)
    requires i < |ids|
    ensures displays - ToSet(ids[..i + 1]) == (displays - ToSet(ids[..i])) - {ids[i]}
  {
    ToSetNext(ids, i);
  }

}