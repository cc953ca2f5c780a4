/** The registry of displays set against the log of what was said to tmux: no pane the
    registry drops is left on the screen, and no pane tmux made is lost track of. */
module PaneLedger {
  import opened RendererSessionStores
  import opened TmuxLog

  datatype DisplayKind = ToastDisplay | AttentionDisplay
  datatype PlannedDisplay = PlannedDisplay(id: DisplayId, kind: DisplayKind, geometry: Geometry,
                                           content: RendererContent)
  datatype ActualDisplay = ActualDisplay(
    pane: PaneId, window: WindowId, kind: DisplayKind, geometry: Geometry, content: RendererContent)
  type Registry = map<DisplayId, ActualDisplay>
  type Plan = map<WindowId, seq<PlannedDisplay>>

  // ---------- what is dropped was killed ----------

  ghost predicate KeptOrKilled(id: DisplayId, pane: PaneId, after: Registry, log: Log) {
    (id in after && after[id].pane == pane) || Killed(log, pane)
  }

  /** Every display registered before still has its pane, or tmux has confirmed since then that
      it killed the pane. */
  ghost predicate Accounted(before: Registry, after: Registry, early: Log, late: Log) {
    early <= late && forall id :: id in before ==> KeptOrKilled(id, before[id].pane, after, late[|early|..])
  }

  lemma AccountedSame(displays: Registry, log: Log)
    ensures Accounted(displays, displays, log, log)
  {
  }

  /** A display that keeps its pane is accounted for, whatever was said to tmux. */
  lemma AccountedKept(before: Registry, after: Registry, early: Log, late: Log)
    requires early <= late && forall id :: id in before ==> id in after && after[id].pane == before[id].pane
    ensures Accounted(before, after, early, late)
  {
  }

  lemma AccountedCompose(a: Registry, b: Registry, c: Registry, early: Log, mid: Log, late: Log)
    requires Accounted(a, b, early, mid) && Accounted(b, c, mid, late)
    ensures Accounted(a, c, early, late)
  {
    hide Killed;
    forall id | id in a ensures KeptOrKilled(id, a[id].pane, c, late[|early|..]) {
      assert KeptOrKilled(id, a[id].pane, b, mid[|early|..]);
      if Killed(mid[|early|..], a[id].pane) {
        KilledGrows(early, early, mid, late, a[id].pane);
      } else {
        assert KeptOrKilled(id, b[id].pane, c, late[|mid|..]);
        if Killed(late[|mid|..], a[id].pane) { KilledGrows(early, mid, late, late, a[id].pane); }
      }
    }
  }

  // ---------- closing displays ----------

  /** The commands are kills, and what they kill is exactly the panes of the listed displays
      that are registered. */
  ghost predicate ClosesExactly(commands: seq<TmuxCommand>, displays: Registry, ids: seq<DisplayId>) {
    && (forall c :: c in commands ==>
          c.KillPane? && exists id :: id in ids && id in displays && displays[id].pane == c.pane)
    && (forall id :: id in ids && id in displays ==> KillPane(displays[id].pane) in commands)
  }

  ghost predicate Listed(displays: Registry, ids: seq<DisplayId>) {
    exists id :: id in ids && id in displays
  }

  lemma ClosedAccounted(before: Registry, after: Registry, ids: seq<DisplayId>, log: Log, e: Exchange)
    requires ClosesExactly(e.commands, before, ids) && e.Succeeded()
    requires forall id :: id in before && id !in ids ==> id in after && after[id] == before[id]
    ensures Accounted(before, after, log, log + [e])
  {
    assert (log + [e])[|log|..] == [e];
    forall id | id in before ensures KeptOrKilled(id, before[id].pane, after, [e]) {
      if id in ids { assert [e][0].Kills(before[id].pane); }
    }
  }

  // ---------- every pane is ours, and none is lost ----------

  ghost predicate PanesMade(displays: Registry, log: Log) {
    forall id :: id in displays ==> Made(log, displays[id].pane)
  }

  ghost predicate Holds(displays: Registry, pane: PaneId) {
    exists id :: id in displays && displays[id].pane == pane
  }

  /** tmux refused to let the pane float, and was asked right away to kill it. */
  ghost predicate GivenUp(log: Log, k: nat, pane: PaneId) {
    && k + 2 < |log|
    && |log[k + 1].commands| == 1 && log[k + 1].commands[0].BreakPane? && log[k + 1].commands[0].pane == pane
    && !log[k + 1].Succeeded()
    && log[k + 2].commands == [KillPane(pane)]
  }

  /** What became of the pane made at `k`: a display holds it, tmux killed it, it was given up
      as soon as it was made, or tmux no longer listed it. */
  ghost predicate Settled(log: Log, k: nat, pane: PaneId, displays: Registry, vanished: set<PaneId>) {
    k < |log| && (Holds(displays, pane) || Killed(log[k + 1..], pane) || GivenUp(log, k, pane) || pane in vanished)
  }

  ghost predicate Tracked(log: Log, displays: Registry, vanished: set<PaneId>) {
    forall k: nat, pane :: k < |log| && log[k].Makes(pane) ==> Settled(log, k, pane, displays, vanished)
  }

  ghost predicate MakesNothing(log: Log) {
    forall k :: 0 <= k < |log| ==> forall c :: c in log[k].commands ==> !c.Creates()
  }

  /** A pane that the registry held is still held, or was killed later than it was made. */
  lemma SettledThrough(before: Registry, after: Registry, early: Log, late: Log, k: nat, pane: PaneId,
                       vanished: set<PaneId>)
    requires Accounted(before, after, early, late) && k < |early| && Settled(early, k, pane, before, vanished)
    ensures Settled(late, k, pane, after, vanished)
  {
    hide Killed;
    if Holds(before, pane) {
      var id :| id in before && before[id].pane == pane;
      assert KeptOrKilled(id, before[id].pane, after, late[|early|..]);
      if Killed(late[|early|..], pane) { KilledGrows(early[..k + 1], early, late, late, pane); }
    } else if Killed(early[k + 1..], pane) {
      KilledGrows(early[..k + 1], early[..k + 1], early, late, pane);
    }
  }

  lemma TrackedThrough(before: Registry, after: Registry, early: Log, late: Log, vanished: set<PaneId>)
    requires Tracked(early, before, vanished) && Accounted(before, after, early, late)
    requires MakesNothing(late[|early|..])
    ensures Tracked(late, after, vanished)
  {
    hide Settled, Accounted;
    AccountedGrows(before, after, early, late);
    NothingMadeSince(early, late);
    forall k: nat, pane | k < |late| && late[k].Makes(pane) ensures Settled(late, k, pane, after, vanished) {
      assert early[k].Makes(pane);
      SettledThrough(before, after, early, late, k, pane, vanished);
    }
  }

  lemma NothingMadeSince(early: Log, late: Log)
    requires early <= late && MakesNothing(late[|early|..])
    ensures forall k, pane :: |early| <= k < |late| ==> !late[k].Makes(pane)
  {
    forall k, pane | |early| <= k < |late| ensures !late[k].Makes(pane) {
      assert late[k] == late[|early|..][k - |early|];
    }
  }

  lemma AccountedGrows(before: Registry, after: Registry, early: Log, late: Log)
    requires Accounted(before, after, early, late)
    ensures early <= late
  {
  }

  lemma PanesMadeGrow(displays: Registry, early: Log, late: Log)
    requires PanesMade(displays, early) && early <= late
    ensures PanesMade(displays, late)
  {
    hide Made;
    forall id | id in displays ensures Made(late, displays[id].pane) {
      MadeGrows(early, late, displays[id].pane);
    }
  }

  /** A new display holds the pane that was placed for it. */
  lemma TrackedPlaced(displays: Registry, log: Log, made: Log, id: DisplayId, actual: ActualDisplay,
                      vanished: set<PaneId>)
    requires Tracked(log, displays, vanished) && id !in displays
    requires Placed(made, actual.window, actual.kind.ToastDisplay?, actual.geometry, id, actual.pane)
    ensures Tracked(log + made, displays[id := actual], vanished)
    ensures PanesMade(displays, log) ==> PanesMade(displays[id := actual], log + made)
  {
    var late, after := log + made, displays[id := actual];
    assert late[|log|] == made[0];
    assert Made(late, actual.pane);
    AccountedKept(displays, after, log, late);
    if PanesMade(displays, log) { PanesMadeGrow(displays, log, late); }
    forall k: nat, pane | k < |late| && late[k].Makes(pane) ensures Settled(late, k, pane, after, vanished) {
      if k < |log| {
        assert log[k].Makes(pane);
        SettledThrough(displays, after, log, late, k, pane, vanished);
      } else {
        assert late[k] == made[k - |log|];
        assert k == |log|;
        assert after[id].pane == pane;
      }
    }
  }

  /** A pane that could not be placed was given up at once. */
  lemma TrackedNotPlaced(displays: Registry, log: Log, made: Log, window: WindowId, toast: bool, geometry: Geometry,
                         id: DisplayId, vanished: set<PaneId>)
    requires Tracked(log, displays, vanished) && NotPlaced(made, window, toast, geometry, id)
    ensures Tracked(log + made, displays, vanished)
  {
    var late := log + made;
    AccountedKept(displays, displays, log, late);
    forall k: nat, pane | k < |late| && late[k].Makes(pane) ensures Settled(late, k, pane, displays, vanished) {
      if k < |log| {
        assert log[k].Makes(pane);
        SettledThrough(displays, displays, log, late, k, pane, vanished);
      } else {
        assert late[k] == made[k - |log|];
        var p :| Undone(made, window, geometry, id, p);
        assert k == |log| && late[k + 1] == made[1] && late[k + 2] == made[2];
        assert GivenUp(late, k, pane);
      }
    }
  }

  /** What tmux no longer lists may be forgotten. */
  lemma TrackedVanished(before: Registry, after: Registry, log: Log, vanished: set<PaneId>, gone: set<PaneId>)
    requires Tracked(log, before, vanished)
    requires forall id :: id in before ==> (id in after && after[id].pane == before[id].pane) || before[id].pane in gone
    ensures Tracked(log, after, vanished + gone)
  {
    forall k: nat, pane | k < |log| && log[k].Makes(pane) ensures Settled(log, k, pane, after, vanished + gone) {
      assert Settled(log, k, pane, before, vanished);
      if Holds(before, pane) {
        var id :| id in before && before[id].pane == pane;
        if pane !in gone { assert after[id].pane == pane; }
      }
    }
  }

  /** The object's whole record: no command was ever about a pane tmux had not made for it,
      every registered pane was made for it, and none it made is lost track of. */
  ghost predicate Ledger(displays: Registry, log: Log, vanished: set<PaneId>) {
    OnlyOurs(log) && PanesMade(displays, log) && Tracked(log, displays, vanished)
  }

  lemma LedgerOurs(displays: Registry, log: Log, vanished: set<PaneId>)
    requires Ledger(displays, log, vanished)
    ensures OnlyOurs(log)
  {
  }

  /** One exchange that creates nothing, about our panes, after which the registry has lost only
      what was killed. */
  lemma LedgerThrough(before: Registry, after: Registry, log: Log, e: Exchange, vanished: set<PaneId>)
    requires Ledger(before, log, vanished) && Aimed(log, e.commands) && forall c :: c in e.commands ==> !c.Creates()
    requires Accounted(before, after, log, log + [e])
    requires forall id :: id in after ==> id in before && after[id].pane == before[id].pane
    ensures Ledger(after, log + [e], vanished)
  {
    hide OnlyOurs, Aimed, Accounted, Tracked, Made;
    OnlyOursNext(log, e);
    assert (log + [e])[|log|..] == [e];
    assert MakesNothing([e]);
    TrackedThrough(before, after, log, log + [e], vanished);
    PanesMadeGrow(before, log, log + [e]);
  }

  lemma LedgerPlaced(displays: Registry, log: Log, made: Log, id: DisplayId, actual: ActualDisplay,
                     vanished: set<PaneId>)
    requires Ledger(displays, log, vanished) && OnlyOurs(log + made) && id !in displays
    requires Placed(made, actual.window, actual.kind.ToastDisplay?, actual.geometry, id, actual.pane)
    ensures Ledger(displays[id := actual], log + made, vanished)
  {
    hide OnlyOurs, PanesMade, Tracked, Placed;
    TrackedPlaced(displays, log, made, id, actual, vanished);
  }

  lemma LedgerNotPlaced(displays: Registry, log: Log, made: Log, window: WindowId, toast: bool, geometry: Geometry,
                        id: DisplayId, vanished: set<PaneId>)
    requires Ledger(displays, log, vanished) && OnlyOurs(log + made)
    requires NotPlaced(made, window, toast, geometry, id)
    ensures Ledger(displays, log + made, vanished)
  {
    hide OnlyOurs, PanesMade, Tracked, NotPlaced;
    PanesMadeGrow(displays, log, log + made);
    TrackedNotPlaced(displays, log, made, window, toast, geometry, id, vanished);
  }

  lemma LedgerVanished(before: Registry, after: Registry, log: Log, vanished: set<PaneId>, gone: set<PaneId>)
    requires Ledger(before, log, vanished)
    requires forall id :: id in before ==> (id in after && after[id].pane == before[id].pane) || before[id].pane in gone
    requires forall id :: id in after ==> id in before && after[id].pane == before[id].pane
    ensures Ledger(after, log, vanished + gone)
  {
    hide OnlyOurs, Tracked, Made;
    TrackedVanished(before, after, log, vanished, gone);
  }

  lemma ClosingAimed(displays: Registry, log: Log, vanished: set<PaneId>, commands: seq<TmuxCommand>,
                     ids: seq<DisplayId>)
    requires Ledger(displays, log, vanished) && ClosesExactly(commands, displays, ids)
    ensures Aimed(log, commands) && forall c :: c in commands ==> !c.Creates()
  {
    hide OnlyOurs, Tracked, Made;
    forall k | 0 <= k < |commands| ensures AboutOurs(log, commands[k]) {
      assert commands[k] in commands;
      var id :| id in ids && id in displays && displays[id].pane == commands[k].pane;
    }
  }

  /** Commands about one registered pane. */
  lemma UpdatingAimed(displays: Registry, log: Log, vanished: set<PaneId>, commands: seq<TmuxCommand>, id: DisplayId)
    requires Ledger(displays, log, vanished) && id in displays
    requires forall c :: c in commands ==> !c.Creates() && c.pane == displays[id].pane
    ensures Aimed(log, commands)
  {
    hide OnlyOurs, Tracked, Made;
  }

  lemma SamePanes(displays: Registry, log: Log, vanished: set<PaneId>, id: DisplayId, actual: ActualDisplay)
    requires Ledger(displays, log, vanished) && id in displays && displays[id].pane == actual.pane
    ensures Ledger(displays[id := actual], log, vanished)
  {
    hide OnlyOurs, Tracked, Made;
    TrackedVanished(displays, displays[id := actual], log, vanished, {});
    assert vanished + {} == vanished;
  }
}
