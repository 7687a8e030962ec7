/**
 * The major frame: windows follow each other without drift, and over any number of windows the
 * event-driven scheduler does what a recursive function of the configuration says.
 */
module Frame {
  import opened Options
  import opened Model
  import opened Phases
  import opened TimeTable
  import opened Conservation
  import opened Arithmetic

  /** Which partitions, by number, a slice serves. */
  datatype SliceCfg = SliceCfg(sc: Option<nat>, be: Option<nat>)

  /** Window lengths are in milliseconds. */
  datatype WinCfg = WinCfg(length: int, slices: seq<SliceCfg>)

  ghost predicate UsedAs(w: WinCfg, p: int, r: Role, i: int) {
    0 <= i < |w.slices| && 0 <= p && (if r == Sc then w.slices[i].sc else w.slices[i].be) == Some(p)
  }

  /** Partitions exist and have at most one role in the window. */
  ghost predicate WinCfgOk(w: WinCfg, n: nat) {
    && w.length > 0
    && (forall p, r, i :: UsedAs(w, p, r, i) ==> p < n)
    && (forall p, r, i, r', i' :: UsedAs(w, p, r, i) && UsedAs(w, p, r', i') ==> r == r' && i == i')
  }

  ghost predicate CfgOk(cfg: seq<WinCfg>, n: nat) {
    |cfg| > 0 && forall k :: 0 <= k < |cfg| ==> WinCfgOk(cfg[k], n)
  }

  // ----- The cycle of windows -----

  /** Which window comes after `k` changes of window, starting from the first of `n`. */
  function WindowAt(n: nat, k: nat): (c: nat)
    requires n > 0
    ensures c < n
  {
    if k == 0 then 0 else Next(n, WindowAt(n, k - 1))
  }

  lemma WindowAfter(n: nat, k: nat)
    requires n > 0
    ensures WindowAt(n, k + 1) == Next(n, WindowAt(n, k))
  {
  }

  lemma {:induction false} WindowAtIsMod(n: nat, k: nat)
    requires n > 0
    ensures WindowAt(n, k) == k % n
    decreases k
  {
    if k == 0 {
      RemainderIs(0, n, 0, 0);
    } else {
      WindowAtIsMod(n, k - 1);
      var q, r := (k - 1) / n, (k - 1) % n;
      if r + 1 < n {
        RemainderIs(k, n, q, r + 1);
      } else {
        assert n * (q + 1) == n * q + n;
        RemainderIs(k, n, q + 1, 0);
      }
    }
  }

  /** The sum of the lengths of `k` windows, going round. */
  function Elapsed(cfg: seq<WinCfg>, k: nat): int
    requires |cfg| > 0
  {
    if k == 0 then 0 else Elapsed(cfg, k - 1) + cfg[WindowAt(|cfg|, k - 1)].length
  }

  function WindowStart(cfg: seq<WinCfg>, t0: int, k: nat): int
    requires |cfg| > 0
  {
    t0 + Ms(Elapsed(cfg, k))
  }

  lemma {:induction false} WindowAtRepeats(n: nat, k: nat)
    requires n > 0
    ensures WindowAt(n, k + n) == WindowAt(n, k)
    decreases k
  {
    if k == 0 {
      FirstRound(n, n - 1);
    } else {
      WindowAtRepeats(n, k - 1);
    }
  }

  lemma {:induction false} FirstRound(n: nat, k: nat)
    requires k < n
    ensures WindowAt(n, k) == k
    decreases k
  {
    if k > 0 {
      FirstRound(n, k - 1);
    }
  }

  /** A whole frame later the schedule is the same, shifted by the frame's length. */
  lemma {:induction false} Periodic(cfg: seq<WinCfg>, k: nat)
    requires |cfg| > 0
    ensures Elapsed(cfg, k + |cfg|) == Elapsed(cfg, k) + Elapsed(cfg, |cfg|)
    decreases k
  {
    if k > 0 {
      Periodic(cfg, k - 1);
      WindowAtRepeats(|cfg|, k - 1);
    }
  }

  // ----- The table over many windows -----

  ghost predicate AllRest(parts: seq<Part>) {
    forall p :: 0 <= p < |parts| ==> Rests(parts[p])
  }

  ghost function ScDoneIn(parts: seq<Part>, s: SliceCfg, from: int): int
    requires AllRest(parts) && (s.sc.Some? ==> s.sc.value < |parts|)
  {
    if s.sc.None? then from else ServedUntil(parts[s.sc.value], Sc, from)
  }

  ghost function ScTimesIn(parts: seq<Part>, slices: seq<SliceCfg>, from: int): (r: seq<int>)
    requires AllRest(parts)
    requires forall i :: 0 <= i < |slices| ==> slices[i].sc.Some? ==> slices[i].sc.value < |parts|
    ensures |r| == |slices| && forall i :: 0 <= i < |r| ==> r[i] == ScDoneIn(parts, slices[i], from)
  {
    seq(|slices|, i requires 0 <= i < |slices| => ScDoneIn(parts, slices[i], from))
  }

  /** When best effort starts: the latest end of a safety-critical partition. */
  ghost function BeStartIn(parts: seq<Part>, slices: seq<SliceCfg>, from: int): int
    requires AllRest(parts)
    requires forall i :: 0 <= i < |slices| ==> slices[i].sc.Some? ==> slices[i].sc.value < |parts|
  {
    Latest(from, ScTimesIn(parts, slices, from))
  }

  lemma ScsExist(w: WinCfg, n: nat)
    requires WinCfgOk(w, n)
    ensures forall i :: 0 <= i < |w.slices| ==> w.slices[i].sc.Some? ==> w.slices[i].sc.value < n
    ensures forall i :: 0 <= i < |w.slices| ==> w.slices[i].be.Some? ==> w.slices[i].be.value < n
  {
    forall i | 0 <= i < |w.slices|
      ensures w.slices[i].sc.Some? ==> w.slices[i].sc.value < n
      ensures w.slices[i].be.Some? ==> w.slices[i].be.value < n
    {
      assert w.slices[i].sc.Some? ==> UsedAs(w, w.slices[i].sc.value, Sc, i);
      assert w.slices[i].be.Some? ==> UsedAs(w, w.slices[i].be.value, Be, i);
    }
  }

  /** What a window starting at `from` makes of partition `p`. */
  ghost function PartAfter(parts: seq<Part>, w: WinCfg, from: int, p: nat): Part
    requires AllRest(parts) && WinCfgOk(w, |parts|) && p < |parts|
  {
    ScsExist(w, |parts|);
    var end := from + Ms(w.length);
    var at := BeStartIn(parts, w.slices, from);
    if exists i :: UsedAs(w, p, Sc, i) then Served(parts[p], Sc, from, end)
    else if (exists i :: UsedAs(w, p, Be, i)) && at < end then Served(parts[p], Be, at, end)
    else parts[p]
  }

  ghost function WindowTable(parts: seq<Part>, w: WinCfg, from: int): (r: seq<Part>)
    requires AllRest(parts) && WinCfgOk(w, |parts|)
    ensures |r| == |parts|
    ensures forall p :: 0 <= p < |parts| ==> r[p] == PartAfter(parts, w, from, p)
  {
    seq(|parts|, p requires 0 <= p < |parts| => PartAfter(parts, w, from, p))
  }

  // ----- Runs of the scheduler over many windows -----

  /** The slices of a window hold the partitions the configuration names. */
  ghost predicate Wired(w: Win, cfg: WinCfg, parts: seq<Part>)
    requires WinCfgOk(cfg, |parts|)
  {
    ScsExist(cfg, |parts|);
    && |w.slices| == |cfg.slices|
    && forall i :: 0 <= i < |w.slices| ==>
         && w.slices[i].sc == (if cfg.slices[i].sc.None? then None else Some(parts[cfg.slices[i].sc.value]))
         && w.slices[i].be == (if cfg.slices[i].be.None? then None else Some(parts[cfg.slices[i].be.value]))
  }

  /** One window as it was run: its state before and after, and the timeouts served in order. */
  datatype WindowRun = WindowRun(before: Win, order: seq<nat>, states: seq<Win>, after: Win)

  /** A timely run up to the end of the window, at which the window is stopped. */
  ghost predicate Finished(run: WindowRun, from: int, end: int) {
    && TimelyRun(run.before, from, end, run.order, run.states)
    && var last := run.states[|run.order|];
       WinShaped(last) && Over(last, end) && run.after == Stop(last, end)
  }

  /** The assertions of `set_remaining_budget` hold when the window is stopped. */
  ghost predicate StopsWell(last: Win, end: int) {
    WinShaped(last) && forall i :: 0 <= i < |last.slices| ==> StopFits(last.slices[i], end)
  }

  ghost predicate Unused(w: WinCfg, p: int) {
    forall r, i :: !UsedAs(w, p, r, i)
  }

  /** A window run from `from` takes the partitions from `parts` to `after`, whatever its end asserts. */
  ghost predicate TracesWindow(cfg: WinCfg, parts: seq<Part>, after: seq<Part>, from: int, run: WindowRun) {
    && WinCfgOk(cfg, |parts|) && |after| == |parts|
    && Wired(run.before, cfg, parts) && Wired(run.after, cfg, after)
    && Finished(run, from, from + Ms(cfg.length))
    && forall p :: 0 <= p < |parts| && Unused(cfg, p) ==> after[p] == parts[p]
  }

  /** And its end asserts nothing which does not hold. */
  ghost predicate RunsWindow(cfg: WinCfg, parts: seq<Part>, after: seq<Part>, from: int, run: WindowRun) {
    && TracesWindow(cfg, parts, after, from, run)
    && StopsWell(run.states[|run.order|], from + Ms(cfg.length))
  }

  /** A run over many windows: `parts[k]` are the partitions when the `k`-th window starts. */
  ghost predicate FrameRun(cfg: seq<WinCfg>, t0: int, parts: seq<seq<Part>>, runs: seq<WindowRun>) {
    && |cfg| > 0 && |parts| == |runs| + 1
    && AllRest(parts[0]) && CfgOk(cfg, |parts[0]|)
    && forall k :: 0 <= k < |runs| ==>
         RunsWindow(cfg[WindowAt(|cfg|, k)], parts[k], parts[k + 1], WindowStart(cfg, t0, k), runs[k])
  }

  lemma BeStartAgrees(w: Win, cfg: WinCfg, parts: seq<Part>, from: int)
    requires AllRest(parts) && WinCfgOk(cfg, |parts|) && Wired(w, cfg, parts)
    requires forall i :: 0 <= i < |w.slices| ==> Resting(w.slices[i])
    requires forall i :: 0 <= i < |cfg.slices| ==> cfg.slices[i].sc.Some? ==> cfg.slices[i].sc.value < |parts|
    ensures BeStart(w.slices, from) == BeStartIn(parts, cfg.slices, from)
  {
    hide ServedUntil, Resting, Latest;
    var a, b := ScTimes(w.slices, from), ScTimesIn(parts, cfg.slices, from);
    forall i | 0 <= i < |a|
      ensures a[i] == b[i]
    {
      assert a[i] == ScDoneAt(w.slices[i], from) && b[i] == ScDoneIn(parts, cfg.slices[i], from);
    }
    assert a == b;
  }

  /** `r` is what the table makes of the window `w0` which lasts from `from` to `end`. */
  ghost predicate EndsAs(w0: Win, r: Win, from: int, end: int) {
    && Idle(r) && |r.slices| == |w0.slices|
    && (forall i :: 0 <= i < |w0.slices| ==> Resting(w0.slices[i]))
    && var at := BeStart(w0.slices, from);
       forall i :: 0 <= i < |w0.slices| ==>
         && r.slices[i].sc == ScAfter(w0.slices[i], from, end)
         && r.slices[i].be == BeAfter(w0.slices[i], at, end)
  }

  lemma RunEndsAs(run: WindowRun, from: int, end: int)
    requires Finished(run, from, end) && StopsWell(run.states[|run.order|], end)
    ensures EndsAs(run.before, run.after, from, end)
  {
    RunFollowsTable(run.before, from, end, run.order, run.states);
    RunTracks(run.before, from, end, run.order, run.states, |run.order|);
    hide Served, BeStart, Stop, Start, ScheduleNext, ScAfter, BeAfter, Over, Due, StopFits, SliceOk, OnTrack, Resting;
    StopSafe(run.states[|run.order|], end);
  }

  /** A window run is what the table says, partition by partition. */
  lemma WindowFollowsTable(cfg: WinCfg, parts: seq<Part>, after: seq<Part>, from: int, run: WindowRun)
    requires AllRest(parts) && WinCfgOk(cfg, |parts|) && RunsWindow(cfg, parts, after, from, run)
    ensures after == WindowTable(parts, cfg, from)
    ensures AllRest(after)
  {
    hide Finished, StopsWell, WinCfgOk, Wired, AllRest, EndsAs, WindowTable;
    RunEndsAs(run, from, from + Ms(cfg.length));
    EndFollowsTable(cfg, parts, after, from, run.before, run.after);
  }

  /**
   * The same for the states which the objects go through: from the window about to start, through
   * the timeouts served in it, to what it leaves when it is stopped at its end.
   */
  lemma ServedWindowFollowsTable(cfg: WinCfg, parts: seq<Part>, after: seq<Part>, from: int, w0: Win, order: seq<nat>, states: seq<Win>)
    requires AllRest(parts) && WinCfgOk(cfg, |parts|) && |after| == |parts|
    requires Wired(w0, cfg, parts) && TimelyRun(w0, from, from + Ms(cfg.length), order, states)
    requires var last := states[|order|];
             && WinShaped(last) && Over(last, from + Ms(cfg.length))
             && (forall i :: 0 <= i < |last.slices| ==> StopFits(last.slices[i], from + Ms(cfg.length)))
             && Wired(Stop(last, from + Ms(cfg.length)), cfg, after)
    requires forall p :: 0 <= p < |parts| && Unused(cfg, p) ==> after[p] == parts[p]
    ensures after == WindowTable(parts, cfg, from) && AllRest(after)
  {
    hide WinCfgOk, Wired, AllRest, WindowTable, Over, Stop, Unused, Start, Enabled, Idle;
    WindowFollowsTable(cfg, parts, after, from, WindowRun(w0, order, states, Stop(states[|order|], from + Ms(cfg.length))));
  }

  lemma EndFollowsTable(cfg: WinCfg, parts: seq<Part>, after: seq<Part>, from: int, w0: Win, r: Win)
    requires AllRest(parts) && WinCfgOk(cfg, |parts|) && |after| == |parts|
    requires Wired(w0, cfg, parts) && Wired(r, cfg, after)
    requires EndsAs(w0, r, from, from + Ms(cfg.length))
    requires forall p :: 0 <= p < |parts| && Unused(cfg, p) ==> after[p] == parts[p]
    ensures after == WindowTable(parts, cfg, from)
    ensures AllRest(after)
  {
    ScsExist(cfg, |parts|);
    BeStartAgrees(w0, cfg, parts, from);
    hide Served, BeStartIn, BeStart, ScAfter, BeAfter, UsedAs, Unused, Idle, Wired, Resting;
    forall p | 0 <= p < |parts|
      ensures after[p] == PartAfter(parts, cfg, from, p) && Rests(after[p])
    {
      PartFollowsTable(cfg, parts, after, from, w0, r, p);
    }
  }

  lemma PartFollowsTable(cfg: WinCfg, parts: seq<Part>, after: seq<Part>, from: int, w0: Win, r: Win, p: nat)
    requires AllRest(parts) && WinCfgOk(cfg, |parts|) && |after| == |parts| && p < |parts|
    requires Wired(w0, cfg, parts) && Wired(r, cfg, after) && Idle(r)
    requires forall i :: 0 <= i < |w0.slices| ==> Resting(w0.slices[i])
    requires forall i :: 0 <= i < |cfg.slices| ==> cfg.slices[i].sc.Some? ==> cfg.slices[i].sc.value < |parts|
    requires var end := from + Ms(cfg.length);
             var at := BeStartIn(parts, cfg.slices, from);
             forall i :: 0 <= i < |w0.slices| ==>
               && r.slices[i].sc == ScAfter(w0.slices[i], from, end)
               && r.slices[i].be == BeAfter(w0.slices[i], at, end)
    requires Unused(cfg, p) ==> after[p] == parts[p]
    ensures after[p] == PartAfter(parts, cfg, from, p) && Rests(after[p])
  {
    hide Served, BeStartIn, Ms;
    IdleRests(r);
    if i :| UsedAs(cfg, p, Sc, i) {
      assert r.slices[i].sc == Some(after[p]) && w0.slices[i].sc == Some(parts[p]);
    } else if i :| UsedAs(cfg, p, Be, i) {
      assert r.slices[i].be == Some(after[p]) && w0.slices[i].be == Some(parts[p]);
    } else {
      forall q, i
        ensures !UsedAs(cfg, p, q, i)
      {
        assert q == Sc || q == Be;
      }
    }
  }

  /** The partitions after `k` windows, computed from the configuration alone. */
  ghost function TableAfter(cfg: seq<WinCfg>, parts: seq<Part>, t0: int, k: nat): (r: Option<seq<Part>>)
    requires CfgOk(cfg, |parts|)
    ensures r.Some? ==> |r.value| == |parts| && AllRest(r.value)
  {
    if k == 0 then if AllRest(parts) then Some(parts) else None
    else
      var before := TableAfter(cfg, parts, t0, k - 1);
      if before.None? then None
      else
        var after := WindowTable(before.value, cfg[WindowAt(|cfg|, k - 1)], WindowStart(cfg, t0, k - 1));
        if AllRest(after) then Some(after) else None
  }

  lemma FrameRunIs(cfg: seq<WinCfg>, t0: int, parts: seq<seq<Part>>, runs: seq<WindowRun>)
    requires FrameRun(cfg, t0, parts, runs)
    ensures |cfg| > 0 && |parts| == |runs| + 1 && AllRest(parts[0]) && CfgOk(cfg, |parts[0]|)
    ensures forall k :: 0 <= k < |runs| ==> |parts[k + 1]| == |parts[k]|
  {
    hide Wired, Finished, StopsWell, WinCfgOk;
  }

  lemma WindowIsOk(cfg: seq<WinCfg>, n: nat, c: nat)
    requires CfgOk(cfg, n) && c < |cfg|
    ensures WinCfgOk(cfg[c], n)
  {
  }

  /**
   * Refinement of the whole schedule: over any number of windows, in whatever order simultaneous
   * timeouts are served, the history, cursor and remaining budgets of every partition are what
   * the recursive table computes from the configuration.
   */
  lemma {:induction false} ScheduleFollowsTable(cfg: seq<WinCfg>, t0: int, parts: seq<seq<Part>>, runs: seq<WindowRun>, k: nat)
    requires FrameRun(cfg, t0, parts, runs) && k <= |runs|
    ensures TableAfter(cfg, parts[0], t0, k) == Some(parts[k])
  {
    hide WindowTable, RunsWindow, AllRest, WindowStart, CfgOk;
    FrameRunIs(cfg, t0, parts, runs);
    if k > 0 {
      ScheduleFollowsTable(cfg, t0, parts, runs, k - 1);
      WindowIsOk(cfg, |parts[0]|, WindowAt(|cfg|, k - 1));
      WindowFollowsTable(cfg[WindowAt(|cfg|, k - 1)], parts[k - 1], parts[k], WindowStart(cfg, t0, k - 1), runs[k - 1]);
    }
  }

  // ----- Budgets over windows -----

  function Timeouts(order: seq<nat>): (steps: seq<Step>)
    ensures |steps| == |order| && forall k :: 0 <= k < |order| ==> steps[k] == Timeout(order[k])
  {
    seq(|order|, k requires 0 <= k < |order| => Timeout(order[k]))
  }

  lemma TimelyIsRun(w0: Win, from: int, end: int, order: seq<nat>, states: seq<Win>)
    requires TimelyRun(w0, from, end, order, states)
    ensures IsRun(w0, from, Timeouts(order), states)
  {
    forall k | 0 <= k < |order|
      ensures Enabled(states[k], Timeouts(order)[k]) && states[k + 1] == Apply(states[k], Timeouts(order)[k])
    {
      RunTracks(w0, from, end, order, states, k);
      hide Start, ScheduleNext, OnTrack, PartIn;
      assert SliceOk(states[k].slices[order[k]]);
    }
  }

  /**
   * Without jitter every timely window ends well: the remainders which `Slice::stop` stores are
   * accepted, so a run never fails there, and the books are in order for the next window.
   */
  lemma FixedBudgetsFit(w0: Win, from: int, order: seq<nat>, states: seq<Win>, c: Clock)
    requires TimelyRun(w0, from, c.end, order, states) && Over(states[|order|], c.end)
    requires WinBooks(w0, c) && OnGrid(from, c) && OnGrid(c.end, c)
    ensures var last := states[|order|];
            && WinShaped(last)
            && (forall i :: 0 <= i < |last.slices| ==> StopFits(last.slices[i], c.end))
            && WinBooks(Stop(last, c.end), c)
  {
    hide Start, ScheduleNext, SliceBooks, Stop, StopFits;
    var steps := Timeouts(order);
    TimelyIsRun(w0, from, c.end, order, states);
    forall k | 0 <= k < |steps|
      ensures StepInTime(steps[k], states[k], c)
    {
      assert Due(states[k], order[k], c.end);
    }
    RunKeepsBooks(w0, from, steps, states, |steps|, c);
    StopBooks(states[|order|], c);
  }
}
