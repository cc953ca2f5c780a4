/** What the backend says to tmux and what tmux answers.

    A command batch and its answer are an exchange, and the log is every exchange so far. The
    predicates below say what a log tells of a pane: that tmux made it, that tmux killed it,
    and whose panes the commands were about. */
module TmuxLog {
  import opened Wrappers
  import ToastLayout
  import Wire

  type WindowId = string
  type PaneId = string
  type Geometry = ToastLayout.Geometry
  type U16 = ToastLayout.U16

  datatype Direction = Right | Left | Down | Up
  datatype TmuxCommand =
    | KillPane(pane: PaneId)
    | SplitWindow(window: WindowId, display: string)
    | NewPane(window: WindowId, geometry: Geometry, display: string)
    | BreakPane(pane: PaneId, window: WindowId, geometry: Geometry)
    | ResizePane(pane: PaneId, width: U16, height: U16)
    | MovePane(pane: PaneId, direction: Direction, cells: U16)
    | RaisePane(pane: PaneId, zIndex: U16)
  {
    predicate Creates() {
      SplitWindow? || NewPane?
    }
  }
  datatype TmuxReply = Answered(success: bool, output: seq<string>) | ConnectionLost

  predicate StableId(s: string, prefix: char) {
    |s| > 1 && s[0] == prefix && Wire.AllDigits(s[1..])
  }

  /** The last line that names a pane. */
  function PaneIn(output: seq<string>): (p: Option<PaneId>)
    ensures p.Some? ==> StableId(p.value, '%')
  {
    if output == [] then None
    else if StableId(output[|output| - 1], '%') then Some(output[|output| - 1])
    else PaneIn(output[..|output| - 1])
  }

  ghost predicate LastNamed(output: seq<string>, k: nat) {
    k < |output| && StableId(output[k], '%') && forall j :: k < j < |output| ==> !StableId(output[j], '%')
  }

  /** None, if no line names a pane. */
  lemma {:induction false} PaneInIsLast(output: seq<string>)
    ensures match PaneIn(output)
            case Some(p) => exists k: nat :: LastNamed(output, k) && output[k] == p
            case None => forall j :: 0 <= j < |output| ==> !StableId(output[j], '%')
    decreases |output|
  {
    hide StableId;
    if output != [] {
      var front := output[..|output| - 1];
      if StableId(output[|output| - 1], '%') {
        assert LastNamed(output, |output| - 1);
      } else {
        PaneInIsLast(front);
        if PaneIn(front).Some? {
          var k: nat :| LastNamed(front, k) && front[k] == PaneIn(front).value;
          assert forall j :: 0 <= j < |front| ==> output[j] == front[j];
          assert LastNamed(output, k);
        }
      }
    }
  }

  datatype Exchange = Exchange(commands: seq<TmuxCommand>, reply: TmuxReply) {
    predicate Succeeded() {
      reply.Answered? && reply.success
    }
    /** tmux did what was asked, and named the pane if it was asked for one. */
    predicate Fine() {
      Succeeded() && ((exists c :: c in commands && c.Creates()) ==> PaneIn(reply.output).Some?)
    }
    predicate Kills(pane: PaneId) {
      Succeeded() && KillPane(pane) in commands
    }
    /** tmux made a pane and named it. */
    predicate Makes(pane: PaneId) {
      Succeeded() && |commands| == 1 && commands[0].Creates() && PaneIn(reply.output) == Some(pane)
    }
  }
  type Log = seq<Exchange>

  ghost predicate Killed(log: Log, pane: PaneId) {
    exists k :: 0 <= k < |log| && log[k].Kills(pane)
  }

  ghost predicate Made(log: Log, pane: PaneId) {
    exists k :: 0 <= k < |log| && log[k].Makes(pane)
  }

  // ---------- whose panes the commands are about ----------

  /** The command creates a pane, or is about one that was made before. */
  ghost predicate AboutOurs(log: Log, c: TmuxCommand) {
    c.Creates() || Made(log, c.pane)
  }

  ghost predicate Aimed(log: Log, commands: seq<TmuxCommand>) {
    forall k :: 0 <= k < |commands| ==> AboutOurs(log, commands[k])
  }

  /** No command ever was about a pane that tmux had not made for one of these commands. */
  ghost predicate OnlyOurs(log: Log) {
    forall k :: 0 <= k < |log| ==> Aimed(log[..k], log[k].commands)
  }

  lemma MadeNext(log: Log, e: Exchange, pane: PaneId)
    ensures Made(log + [e], pane) <==> Made(log, pane) || e.Makes(pane)
  {
    if Made(log, pane) {
      var k :| 0 <= k < |log| && log[k].Makes(pane);
      assert (log + [e])[k].Makes(pane);
    }
    if e.Makes(pane) { assert (log + [e])[|log|].Makes(pane); }
  }

  lemma MadeGrows(a: Log, b: Log, pane: PaneId)
    requires a <= b && Made(a, pane)
    ensures Made(b, pane)
  {
    var k :| 0 <= k < |a| && a[k].Makes(pane);
    assert b[k].Makes(pane);
  }

  /** Killed in a later stretch of the log, killed in a longer one. */
  lemma KilledGrows(a: Log, b: Log, c: Log, d: Log, pane: PaneId)
    requires a <= b <= c <= d && Killed(c[|b|..], pane)
    ensures Killed(d[|a|..], pane)
  {
    var k :| 0 <= k < |c[|b|..]| && c[|b|..][k].Kills(pane);
    assert d[|a|..][k + |b| - |a|] == c[|b|..][k];
  }

  lemma OnlyOursNext(log: Log, e: Exchange)
    requires OnlyOurs(log) && Aimed(log, e.commands)
    ensures OnlyOurs(log + [e])
  {
    hide Aimed;
    var r := log + [e];
    forall k | 0 <= k < |r| ensures Aimed(r[..k], r[k].commands) {
      assert r[..k] == log[..k];
      assert log[..|log|] == log;
    }
  }

  lemma CreateSaid(log: Log, create: TmuxCommand, reply: TmuxReply)
    requires OnlyOurs(log) && create.Creates()
    ensures var e := Exchange([create], reply);
            && OnlyOurs(log + [e])
            && (e.Succeeded() && PaneIn(reply.output).Some? ==> Made(log + [e], PaneIn(reply.output).value))
  {
    hide OnlyOurs, Made;
    var e := Exchange([create], reply);
    OnlyOursNext(log, e);
    if e.Succeeded() && PaneIn(reply.output).Some? { MadeNext(log, e, PaneIn(reply.output).value); }
  }

  lemma SaidAbout(log: Log, c: TmuxCommand, reply: TmuxReply)
    requires OnlyOurs(log) && !c.Creates() && Made(log, c.pane)
    ensures OnlyOurs(log + [Exchange([c], reply)]) && Made(log + [Exchange([c], reply)], c.pane)
  {
    hide OnlyOurs, Made;
    OnlyOursNext(log, Exchange([c], reply));
    MadeNext(log, Exchange([c], reply), c.pane);
  }

  // ---------- how a pane is made ----------

  /** The exchanges that leave a display's pane at its geometry in the window. */
  ghost predicate Placed(log: Log, window: WindowId, toast: bool, geometry: Geometry, display: string, pane: PaneId)
  {
    && |log| == (if toast then 2 else 1)
    && log[0].Makes(pane)
    && (if toast then
          && log[0].commands == [SplitWindow(window, display)]
          && log[1].commands == [BreakPane(pane, window, geometry)] && log[1].Succeeded()
        else log[0].commands == [NewPane(window, geometry, display)])
  }

  /** tmux made the pane but would not put it where it should float, so it was asked to kill
      the pane again. */
  ghost predicate Undone(log: Log, window: WindowId, geometry: Geometry, display: string, pane: PaneId) {
    && |log| == 3
    && log[0].Makes(pane) && log[0].commands == [SplitWindow(window, display)]
    && log[1].commands == [BreakPane(pane, window, geometry)] && !log[1].Succeeded()
    && log[2].commands == [KillPane(pane)]
  }

  /** The exchanges that leave no pane for the display. */
  ghost predicate NotPlaced(log: Log, window: WindowId, toast: bool, geometry: Geometry, display: string) {
    || (&& |log| == 1
        && log[0].commands == [if toast then SplitWindow(window, display) else NewPane(window, geometry, display)]
        && (!log[0].Succeeded() || PaneIn(log[0].reply.output).None?))
    || (toast && exists pane :: Undone(log, window, geometry, display, pane))
  }
}
