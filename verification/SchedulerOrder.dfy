/** Who waits before whom: priority first, and the first come first among equals. */
module SchedulerOrder {
  import opened Notifications
  import opened SchedulerModel
  import opened SchedulerInvariant
  import opened SchedulerSteps
  import opened SchedulerRuns
  import opened SchedulerTimeouts
  import opened SchedulerRecords
  import opened SchedulerContents

  /** Critical before high, high before normal, normal before low. */
  predicate Outweighs(a: Priority, b: Priority) {
    match a
    case Critical => b != Critical
    case High => b == Normal || b == Low
    case Normal => b == Low
    case Low => false
  }

  ghost function PriorityOf(s: State, id: NotificationId): Priority
    requires id in s.entries
  {
    s.entries[id].notification.content.priority
  }

  /** Nothing waits behind what it outweighs. */
  lemma QueueFollowsPriority(s: State, i: nat, j: nat)
    requires Inv(s) && i < j < |s.pending|
    ensures s.pending[i] in s.entries && s.pending[j] in s.entries
    ensures !Outweighs(PriorityOf(s, s.pending[j]), PriorityOf(s, s.pending[i]))
  {
    hide Inv, Core, Bounded, Ranked;
    InvIsCore(s);
    RankedAt(s.entries, s.pending, i, j);
  }

  lemma RankedAt(e: Entries, ids: seq<NotificationId>, i: nat, j: nat)
    requires Ranked(e, ids) && i < j < |ids|
    ensures Precedes(e, ids[i], ids[j])
  {
  }

  // ---------- first come, first served ----------

  lemma StepInTurn(s: State, c: Call)
    requires Inv(s) && Legal(s, c)
    ensures InTurn(s, Next(s, c))
  {
    hide Inv, Legal, Next, Edits, InTurn, Follows;
    StepContents(s, c);
  }

  /** A step brings to life only what was never submitted. */
  lemma StepAdmits(s: State, c: Call)
    requires Inv(s) && Legal(s, c)
    ensures var r := Next(s, c);
            && s.history.submitted <= r.history.submitted
            && forall id :: id in r.entries ==> id in s.entries || id !in s.history.submitted
  {
    hide Inv, Core, Prepare, Derived, ClosedSome, Tuned, Exact, Rejected, TailOf, RunTail, TailAllowed, Perform;
    if c.action.Draining? {
      DrainAdmits(s, c);
    } else {
      PerformShape(s, c);
      if !Rejected(s, c) && s.lastNow <= c.now {
        var t := Prepare(s, c.now, c.wall);
        PrepareKeeps(s, c.now, c.wall);
        AfterKeeps(t, TailOf(s, t, c.action), c.now, c.wall);
        AfterSubmitted(t, TailOf(s, t, c.action), c.now, c.wall);
        NewIdsFresh(t, TailOf(s, t, c.action), c.now, c.wall);
        DerivedKeys(s, t);
      }
    }
  }

  lemma DerivedKeys(s: State, t: State)
    requires Derived(s.entries, t.entries)
    ensures t.entries.Keys <= s.entries.Keys
  {
  }

  lemma DrainAdmits(s: State, c: Call)
    requires c.action.Draining?
    ensures var r := Next(s, c); r.history.submitted == s.history.submitted && r.entries == s.entries
  {
  }

  /** Who was submitted by then keeps the place in line it had; who came later comes after. */
  ghost predicate StillInTurn(s: State, r: State) {
    forall id :: id in r.entries ==>
      if id in s.history.submitted then id in s.entries && r.entries[id].sequence == s.entries[id].sequence
      else s.nextSequence <= r.entries[id].sequence
  }

  lemma LiveSubmitted(s: State)
    requires Inv(s)
    ensures StillInTurn(s, s) && SequencesUnique(s.entries, s.nextSequence)
  {
    InvIsCore(s);
    CoreParts(s);
    CoreHistory(s);
    hide Inv, Core, Contained, NoncesUnique, Keyed, EntriesOk, TimersStarted;
  }

  lemma TurnsOn(s: State, m: State, r: State)
    requires InTurn(s, m) && StillInTurn(m, r) && s.history.submitted <= m.history.submitted
    requires forall id :: id in m.entries ==> id in s.entries || id !in s.history.submitted
    requires forall id :: id in s.entries ==> id in s.history.submitted
    ensures StillInTurn(s, r)
  {
  }

  lemma SubmittedLive(s: State)
    requires Inv(s)
    ensures forall id :: id in s.entries ==> id in s.history.submitted
  {
    InvIsCore(s);
    CoreHistory(s);
    hide Inv, Core;
  }

  lemma {:induction false} RunInTurn(s: State, calls: seq<Call>)
    requires Inv(s) && LegalRun(s, calls)
    ensures StillInTurn(s, Run(s, calls))
    decreases |calls|
  {
    hide Inv, Legal, Next, InTurn, StillInTurn;
    if calls == [] {
      LiveSubmitted(s);
    } else {
      StepKeeps(s, calls[0]);
      StepInTurn(s, calls[0]);
      StepAdmits(s, calls[0]);
      SubmittedLive(s);
      RunInTurn(Next(s, calls[0]), calls[1..]);
      TurnsOn(s, Next(s, calls[0]), Run(s, calls));
    }
  }

  lemma {:induction false} RunSplits(s: State, calls: seq<Call>, k: nat)
    requires LegalRun(s, calls) && k <= |calls|
    ensures LegalRun(s, calls[..k]) && LegalRun(Run(s, calls[..k]), calls[k..])
    ensures Run(s, calls) == Run(Run(s, calls[..k]), calls[k..])
    decreases |calls|
  {
    hide Legal, Next;
    if k == 0 {
      assert calls[..0] == [] && calls[0..] == calls;
    } else {
      RunSplits(Next(s, calls[0]), calls[1..], k - 1);
      assert calls[..k][1..] == calls[1..][..k - 1] && calls[1..][k - 1..] == calls[k..];
    }
  }

  /** In every run, of two that wait with one priority, the one submitted first stands first,
      whatever happened to them in between. */
  lemma FirstComeFirstServed(limits: Limits, start: Instant, calls: seq<Call>, k: nat, i: nat, j: nat)
    requires LegalRun(New(limits, start), calls) && k <= |calls|
    requires var s := Run(New(limits, start), calls);
             var before := Run(New(limits, start), calls[..k]);
             && i < |s.pending| && j < |s.pending|
             && s.pending[i] in s.entries && s.pending[j] in s.entries
             && PriorityOf(s, s.pending[i]) == PriorityOf(s, s.pending[j])
             && s.pending[i] in before.history.submitted && s.pending[j] !in before.history.submitted
    ensures i < j
  {
    var s0 := New(limits, start);
    var m := Run(s0, calls[..k]);
    var s := Run(s0, calls);
    hide Inv, Exact, LegalRun, Run;
    NewIsGood(limits, start);
    RunSplits(s0, calls, k);
    RunKeeps(s0, calls[..k]);
    RunKeeps(s0, calls);
    RunInTurn(m, calls[k..]);
    LiveSubmitted(m);
    EarlierFirst(m, s, i, j);
  }

  lemma EarlierFirst(m: State, s: State, i: nat, j: nat)
    requires Inv(s) && StillInTurn(m, s) && SequencesUnique(m.entries, m.nextSequence)
    requires i < |s.pending| && j < |s.pending| && s.pending[i] in s.entries && s.pending[j] in s.entries
    requires PriorityOf(s, s.pending[i]) == PriorityOf(s, s.pending[j])
    requires s.pending[i] in m.history.submitted && s.pending[j] !in m.history.submitted
    ensures i < j
  {
    hide Inv, Core, Bounded, Ranked;
    InvIsCore(s);
    if j < i { RankedAt(s.entries, s.pending, j, i); }
  }
}
