/**
 * The accounts of best-effort budgets over a whole schedule: they start balanced, every window
 * passes them on balanced, and so no assertion about a remainder ever fails without jitter.
 */
module ScheduleBooks {
  import opened Options
  import opened Model
  import opened Phases
  import opened TimeTable
  import opened Conservation
  import opened Frame

  ghost predicate AllClosed(parts: seq<Part>, exact: bool) {
    forall p :: 0 <= p < |parts| ==> Closed(parts[p], exact)
  }

  /** A partition which has not run yet, with its whole fixed budgets. */
  lemma FreshIsClosed(p: Part, exact: bool)
    requires PartOk(p) && p.log == []
    requires forall j :: 0 <= j < |p.procs| ==> p.procs[j].jitter == 0 && p.procs[j].actual == p.procs[j].budget
    ensures Closed(p, exact)
  {
    forall j | 0 <= j < |p.procs|
      ensures Settled(p, j, exact)
    {
      assert Ledger(p.log, j) == Account(0, 0, None);
    }
  }

  /** One window with whatever happens in it: timeouts, completions and exits. */
  datatype EventRun = EventRun(before: Win, steps: seq<Step>, states: seq<Win>, after: Win)

  /** Nothing but signals and ends of its processes happens to a partition which the window does not use. */
  ghost predicate FlagsOnly(p: Part, q: Part) {
    && q.cur == p.cur && q.log == p.log && |q.procs| == |p.procs|
    && forall j :: 0 <= j < |p.procs| ==>
         && q.procs[j] == p.procs[j].(spawned := q.procs[j].spawned, signalled := q.procs[j].signalled)
         && (q.procs[j].spawned ==> p.procs[j].spawned) && (p.procs[j].signalled ==> q.procs[j].signalled)
  }

  /** Times are counted from the beginning of the schedule. */
  function ClockOf(exact: bool, t0: int, end: int): Clock {
    Clock(exact, t0 % 1_000_000, end)
  }

  /** A window run from `from`: no event is late, and the window is stopped at its end. */
  ghost predicate Plays(cfg: WinCfg, parts: seq<Part>, after: seq<Part>, from: int, run: EventRun, c: Clock) {
    && WinCfgOk(cfg, |parts|) && |after| == |parts|
    && Wired(run.before, cfg, parts) && Wired(run.after, cfg, after)
    && IsRun(run.before, from, run.steps, run.states) && StepsInTime(run.steps, run.states, c)
    && c.end == from + Ms(cfg.length)
    && (forall p :: 0 <= p < |parts| && Unused(cfg, p) ==> FlagsOnly(parts[p], after[p]))
    && var last := run.states[|run.steps|];
       && WinShaped(last) && run.after == Stop(last, c.end)
       && forall i :: 0 <= i < |last.slices| ==> NotOverdue(last.slices[i], c.end)
  }

  ghost predicate EventfulRun(cfg: seq<WinCfg>, t0: int, parts: seq<seq<Part>>, runs: seq<EventRun>, exact: bool) {
    && |cfg| > 0 && |parts| == |runs| + 1 && CfgOk(cfg, |parts[0]|)
    && forall k :: 0 <= k < |runs| ==>
         Plays(cfg[WindowAt(|cfg|, k)], parts[k], parts[k + 1], WindowStart(cfg, t0, k), runs[k],
               ClockOf(exact, t0, WindowStart(cfg, t0, k + 1)))
  }

  lemma StartOnGrid(cfg: seq<WinCfg>, t0: int, k: nat)
    requires |cfg| > 0
    ensures WindowStart(cfg, t0, k) % 1_000_000 == t0 % 1_000_000
  {
    var q, r, e := t0 / 1_000_000, t0 % 1_000_000, Elapsed(cfg, k);
    assert WindowStart(cfg, t0, k) == 1_000_000 * (q + e) + r;
  }

  lemma OpensBalanced(w: Win, cfg: WinCfg, parts: seq<Part>, c: Clock)
    requires WinCfgOk(cfg, |parts|) && Wired(w, cfg, parts) && AllClosed(parts, c.exact) && Idle(w)
    ensures WinBooks(w, c)
  {
    hide Closed, Open;
    ScsExist(cfg, |parts|);
    forall i | 0 <= i < |w.slices|
      ensures SliceBooks(w.slices[i], c)
    {
      assert SliceOk(w.slices[i]) && !w.slices[i].running;
    }
  }

  lemma FlagsKeepClosed(p: Part, q: Part, exact: bool)
    requires Closed(p, exact) && FlagsOnly(p, q)
    ensures Closed(q, exact)
  {
    forall j | 0 <= j < |q.procs|
      ensures ProcOk(q.procs[j]) && q.procs[j].jitter == 0 && Settled(q, j, exact)
    {
      assert ProcOk(p.procs[j]) && p.procs[j].jitter == 0 && Settled(p, j, exact);
    }
  }

  lemma ClosesBalanced(w: Win, cfg: WinCfg, parts: seq<Part>, after: seq<Part>, c: Clock)
    requires WinCfgOk(cfg, |parts|) && |after| == |parts| && Wired(w, cfg, after)
    requires WinBooks(w, c) && Idle(w) && AllClosed(parts, c.exact)
    requires forall p :: 0 <= p < |parts| && Unused(cfg, p) ==> FlagsOnly(parts[p], after[p])
    ensures AllClosed(after, c.exact)
  {
    hide Closed, Open, FlagsOnly, PartIn;
    forall p | 0 <= p < |after|
      ensures Closed(after[p], c.exact)
    {
      if r, i :| UsedAs(cfg, p, r, i) {
        assert r == Sc || r == Be;
        assert SliceBooks(w.slices[i], c) && SliceOk(w.slices[i]) && !w.slices[i].running;
        assert PartOf(w.slices[i], r) == Some(after[p]);
      } else {
        assert Unused(cfg, p);
        FlagsKeepClosed(parts[p], after[p], c.exact);
      }
    }
  }

  /** What holds of a window whose partitions are balanced at its start. */
  ghost predicate Balanced(run: EventRun, after: seq<Part>, c: Clock) {
    && WinBooks(run.before, c)
    && |run.states| == |run.steps| + 1 && StopsWell(run.states[|run.steps|], c.end)
    && AllClosed(after, c.exact)
  }

  lemma WindowKeepsBooks(cfg: WinCfg, parts: seq<Part>, after: seq<Part>, from: int, run: EventRun, c: Clock)
    requires Plays(cfg, parts, after, from, run, c) && AllClosed(parts, c.exact)
    requires OnGrid(from, c) && OnGrid(c.end, c)
    ensures Balanced(run, after, c)
  {
    hide Wired, AllClosed, Idle, WinCfgOk, Start, Apply, Enabled, StepsInTime, WinBooks, StopFits, NotOverdue;
    hide Stop, FlagsOnly, Unused, Inv;
    var last := run.states[|run.steps|];
    OpensBalanced(run.before, cfg, parts, c);
    assert cfg.length > 0 by { LengthIsPositive(cfg, |parts|); }
    RunKeepsInv(run.before, from, run.steps, run.states, |run.steps|);
    RunKeepsBooks(run.before, from, run.steps, run.states, |run.steps|, c);
    StopBooks(last, c);
    StopSafe(last, c.end);
    ClosesBalanced(run.after, cfg, parts, after, c);
  }

  lemma LengthIsPositive(cfg: WinCfg, n: nat)
    requires WinCfgOk(cfg, n)
    ensures cfg.length > 0
  {
  }

  /**
   * Conservation over the whole schedule. If the accounts balance at the beginning, they balance
   * at every change of window, whatever happens in between; the assertions about remainders hold
   * at the end of every window, and the account of every running process is in order all along.
   */
  lemma {:induction false} ScheduleKeepsBooks(cfg: seq<WinCfg>, t0: int, parts: seq<seq<Part>>, runs: seq<EventRun>, exact: bool, k: nat)
    requires EventfulRun(cfg, t0, parts, runs, exact) && AllClosed(parts[0], exact) && k <= |runs|
    ensures AllClosed(parts[k], exact)
    ensures k < |runs| ==> Balanced(runs[k], parts[k + 1], ClockOf(exact, t0, WindowStart(cfg, t0, k + 1)))
    decreases k
  {
    hide Plays, Balanced, AllClosed, WindowStart, CfgOk;
    if k > 0 {
      ScheduleKeepsBooks(cfg, t0, parts, runs, exact, k - 1);
      BalancedMeans(runs[k - 1], parts[k], ClockOf(exact, t0, WindowStart(cfg, t0, k)));
    }
    if k < |runs| {
      StartOnGrid(cfg, t0, k);
      StartOnGrid(cfg, t0, k + 1);
      WindowKeepsBooks(cfg[WindowAt(|cfg|, k)], parts[k], parts[k + 1], WindowStart(cfg, t0, k), runs[k],
                       ClockOf(exact, t0, WindowStart(cfg, t0, k + 1)));
    }
  }

  lemma BalancedMeans(run: EventRun, after: seq<Part>, c: Clock)
    requires Balanced(run, after, c)
    ensures WinBooks(run.before, c) && AllClosed(after, c.exact)
    ensures |run.states| == |run.steps| + 1 && StopsWell(run.states[|run.steps|], c.end)
  {
  }

  lemma PlaysMeans(cfg: WinCfg, parts: seq<Part>, after: seq<Part>, from: int, run: EventRun, c: Clock)
    requires Plays(cfg, parts, after, from, run, c)
    ensures cfg.length > 0 && from < c.end
    ensures IsRun(run.before, from, run.steps, run.states) && StepsInTime(run.steps, run.states, c)
  {
    hide Wired, IsRun, StepsInTime, Stop, NotOverdue, FlagsOnly, Unused;
  }

  /**
   * So in every state of every window, when the process of a slice has used up what it was
   * granted, the fragments it ran since its last completion, in whichever windows, add up to its
   * budget: exactly, if every event lies a whole number of milliseconds after the beginning.
   */
  lemma ScheduleConserves(cfg: seq<WinCfg>, t0: int, parts: seq<seq<Part>>, runs: seq<EventRun>, exact: bool, k: nat, m: nat, i: nat)
    requires EventfulRun(cfg, t0, parts, runs, exact) && AllClosed(parts[0], exact) && k < |runs|
    requires m < |runs[k].states| && m <= |runs[k].steps|
    requires i < |runs[k].states[m].slices| && runs[k].states[m].slices[i].running
    ensures Shaped(runs[k].states[m].slices[i])
    ensures var s := runs[k].states[m].slices[i];
            var p := Current(s);
            var a := Ledger(p.log, p.cur);
            && a.run.Some?
            && var total := a.ran + (s.timeout - a.run.value.0);
               && Ms(p.procs[p.cur].budget) - a.cuts * 999_999 <= total <= Ms(p.procs[p.cur].budget)
               && (exact ==> total == Ms(p.procs[p.cur].budget))
  {
    hide Plays, Balanced, AllClosed, WindowStart, CfgOk, WinBooks, IsRun, StepsInTime, Ledger, Shaped;
    var c := ClockOf(exact, t0, WindowStart(cfg, t0, k + 1));
    ScheduleKeepsBooks(cfg, t0, parts, runs, exact, k);
    BalancedMeans(runs[k], parts[k + 1], c);
    PlaysMeans(cfg[WindowAt(|cfg|, k)], parts[k], parts[k + 1], WindowStart(cfg, t0, k), runs[k], c);
    StartOnGrid(cfg, t0, k);
    BudgetConservation(runs[k].before, WindowStart(cfg, t0, k), runs[k].steps, runs[k].states, m, i, c);
  }

  // ----- Runs of timeouts alone -----

  /** A run over many windows, with nothing assumed about what stopping a window asserts. */
  ghost predicate FrameTrace(cfg: seq<WinCfg>, t0: int, parts: seq<seq<Part>>, runs: seq<WindowRun>) {
    && |cfg| > 0 && |parts| == |runs| + 1
    && AllRest(parts[0]) && CfgOk(cfg, |parts[0]|)
    && forall k :: 0 <= k < |runs| ==>
         TracesWindow(cfg[WindowAt(|cfg|, k)], parts[k], parts[k + 1], WindowStart(cfg, t0, k), runs[k])
  }

  function Eventful(run: WindowRun): EventRun {
    EventRun(run.before, Timeouts(run.order), run.states, run.after)
  }

  lemma TimeoutsAreInTime(run: WindowRun, from: int, c: Clock)
    requires Finished(run, from, c.end)
    ensures IsRun(run.before, from, Timeouts(run.order), run.states) && StepsInTime(Timeouts(run.order), run.states, c)
    ensures var last := run.states[|run.order|];
            forall i :: 0 <= i < |last.slices| ==> NotOverdue(last.slices[i], c.end)
  {
    hide Start, ScheduleNext, Stop, Idle;
    TimelyIsRun(run.before, from, c.end, run.order, run.states);
    forall k | 0 <= k < |run.order|
      ensures StepInTime(Timeouts(run.order)[k], run.states[k], c)
    {
      assert Due(run.states[k], run.order[k], c.end);
    }
  }

  lemma TracePlays(cfg: WinCfg, parts: seq<Part>, after: seq<Part>, from: int, run: WindowRun, c: Clock)
    requires TracesWindow(cfg, parts, after, from, run) && c.end == from + Ms(cfg.length)
    ensures Plays(cfg, parts, after, from, Eventful(run), c)
  {
    hide Wired, IsRun, StepsInTime, Stop, NotOverdue, Unused, TimelyRun, Over;
    TimeoutsAreInTime(run, from, c);
  }

  lemma TraceRuns(cfg: WinCfg, parts: seq<Part>, after: seq<Part>, from: int, run: WindowRun, c: Clock)
    requires TracesWindow(cfg, parts, after, from, run) && c.end == from + Ms(cfg.length)
    requires Balanced(Eventful(run), after, c)
    ensures RunsWindow(cfg, parts, after, from, run)
  {
    hide Wired, WinCfgOk, Stop, Unused, TimelyRun, Over, AllClosed, StopFits;
  }

  lemma TraceIsEventful(cfg: seq<WinCfg>, t0: int, parts: seq<seq<Part>>, runs: seq<WindowRun>, exact: bool) returns (events: seq<EventRun>)
    requires FrameTrace(cfg, t0, parts, runs)
    ensures EventfulRun(cfg, t0, parts, events, exact)
    ensures |events| == |runs| && forall k :: 0 <= k < |runs| ==> events[k] == Eventful(runs[k])
  {
    hide Plays, TracesWindow, CfgOk, AllRest, Eventful;
    events := seq(|runs|, k requires 0 <= k < |runs| => Eventful(runs[k]));
    forall k | 0 <= k < |runs|
      ensures Plays(cfg[WindowAt(|cfg|, k)], parts[k], parts[k + 1], WindowStart(cfg, t0, k), events[k],
                    ClockOf(exact, t0, WindowStart(cfg, t0, k + 1)))
    {
      TracePlays(cfg[WindowAt(|cfg|, k)], parts[k], parts[k + 1], WindowStart(cfg, t0, k), runs[k],
                 ClockOf(exact, t0, WindowStart(cfg, t0, k + 1)));
    }
  }

  /** Without jitter no window ends in a failed assertion: every trace is a run which follows the table. */
  lemma TraceIsRun(cfg: seq<WinCfg>, t0: int, parts: seq<seq<Part>>, runs: seq<WindowRun>, exact: bool)
    requires FrameTrace(cfg, t0, parts, runs) && AllClosed(parts[0], exact)
    ensures FrameRun(cfg, t0, parts, runs)
    ensures forall k :: 0 <= k <= |runs| ==> AllClosed(parts[k], exact)
    ensures forall k :: 0 <= k <= |runs| ==> TableAfter(cfg, parts[0], t0, k) == Some(parts[k])
  {
    hide Plays, TracesWindow, RunsWindow, Balanced, AllClosed, CfgOk, AllRest, Eventful, WindowTable;
    var events := TraceIsEventful(cfg, t0, parts, runs, exact);
    forall k | 0 <= k <= |runs|
      ensures AllClosed(parts[k], exact)
      ensures k < |runs| ==> RunsWindow(cfg[WindowAt(|cfg|, k)], parts[k], parts[k + 1], WindowStart(cfg, t0, k), runs[k])
    {
      ScheduleKeepsBooks(cfg, t0, parts, events, exact, k);
      if k < |runs| {
        TraceRuns(cfg[WindowAt(|cfg|, k)], parts[k], parts[k + 1], WindowStart(cfg, t0, k), runs[k],
                  ClockOf(exact, t0, WindowStart(cfg, t0, k + 1)));
      }
    }
    forall k | 0 <= k <= |runs|
      ensures TableAfter(cfg, parts[0], t0, k) == Some(parts[k])
    {
      ScheduleFollowsTable(cfg, t0, parts, runs, k);
    }
  }

  /** If nothing has failed so far, the next window does not fail either. */
  lemma TraceGoesOn(cfg: seq<WinCfg>, t0: int, parts: seq<seq<Part>>, runs: seq<WindowRun>, exact: bool, w0: Win,
        order: seq<nat>, states: seq<Win>)
    requires FrameTrace(cfg, t0, parts, runs) && AllClosed(parts[0], exact)
    requires var k := |runs|;
             && WinCfgOk(cfg[WindowAt(|cfg|, k)], |parts[k]|) && Wired(w0, cfg[WindowAt(|cfg|, k)], parts[k])
             && TimelyRun(w0, WindowStart(cfg, t0, k), WindowStart(cfg, t0, k + 1), order, states)
             && Over(states[|order|], WindowStart(cfg, t0, k + 1))
    ensures StopsWell(states[|order|], WindowStart(cfg, t0, |runs| + 1))
  {
    hide TracesWindow, FrameRun, TableAfter, AllClosed, AllRest, CfgOk, Wired, WinCfgOk, WinBooks, StopFits, Stop;
    hide Over, Start, Due, WindowStart, Shaped, ScheduleNext, Idle, WindowAt;
    var k := |runs|;
    var c := ClockOf(exact, t0, WindowStart(cfg, t0, k + 1));
    TraceIsRun(cfg, t0, parts, runs, exact);
    StartOnGrid(cfg, t0, k);
    StartOnGrid(cfg, t0, k + 1);
    OpensBalanced(w0, cfg[WindowAt(|cfg|, k)], parts[k], c);
    FixedBudgetsFit(w0, WindowStart(cfg, t0, k), order, states, c);
  }

  lemma ServedTraces(cfg: WinCfg, parts: seq<Part>, after: seq<Part>, from: int, end: int, w0: Win, order: seq<nat>,
        states: seq<Win>) returns (run: WindowRun)
    requires WinCfgOk(cfg, |parts|) && |after| == |parts| && end == from + Ms(cfg.length)
    requires TimelyRun(w0, from, end, order, states) && Over(states[|order|], end) && WinShaped(states[|order|])
    requires Wired(w0, cfg, parts) && Wired(Stop(states[|order|], end), cfg, after)
    requires forall p :: 0 <= p < |parts| && Unused(cfg, p) ==> after[p] == parts[p]
    ensures TracesWindow(cfg, parts, after, from, run)
  {
    hide Wired, WinCfgOk, Start, Due, Idle, Over, Stop, Unused, Shaped;
    run := WindowRun(w0, order, states, Stop(states[|order|], end));
  }

  lemma TraceExtends(cfg: seq<WinCfg>, t0: int, parts: seq<seq<Part>>, runs: seq<WindowRun>, after: seq<Part>, run: WindowRun)
    requires FrameTrace(cfg, t0, parts, runs)
    requires TracesWindow(cfg[WindowAt(|cfg|, |runs|)], parts[|runs|], after, WindowStart(cfg, t0, |runs|), run)
    ensures FrameTrace(cfg, t0, parts + [after], runs + [run])
  {
    hide TracesWindow, AllRest, CfgOk, WindowStart, WindowAt;
    var more, all := parts + [after], runs + [run];
    forall k | 0 <= k < |all|
      ensures TracesWindow(cfg[WindowAt(|cfg|, k)], more[k], more[k + 1], WindowStart(cfg, t0, k), all[k])
    {
      if k < |runs| {
        assert TracesWindow(cfg[WindowAt(|cfg|, k)], parts[k], parts[k + 1], WindowStart(cfg, t0, k), runs[k]);
      }
    }
  }
}
