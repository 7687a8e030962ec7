/**
 * No starvation in a whole schedule in which nobody signals or ends: in which window, and when in
 * it, a best-effort process gets its turn, whatever the safety-critical partitions leave of each
 * window.
 */
module ScheduleFairness {
  import opened Model
  import opened Phases
  import opened TimeTable
  import opened ClosedForm
  import opened Fairness
  import opened Frame

  // ----- Best effort starts on the grid of the window -----

  ghost predicate WholeMs(from: int, to: int) {
    exists d: nat :: to == from + Ms(d)
  }

  lemma WholeMsAdds(a: int, b: int, c: int)
    requires WholeMs(a, b) && WholeMs(b, c)
    ensures WholeMs(a, c)
  {
    var d: nat :| b == a + Ms(d);
    var e: nat :| c == b + Ms(e);
    assert c == a + Ms(d + e);
  }

  lemma WholeMsAfter(a: int, d: nat)
    ensures WholeMs(a, a + Ms(d))
  {
  }

  lemma {:induction false} DoneAtWhole(p: Part, role: Role, timeout: int)
    requires Runs(p)
    ensures WholeMs(timeout, DoneAt(p, role, timeout))
    decreases OpenCount(p.procs)
  {
    hide WholeMs, Turn, Runs, Ms;
    var (q, b) := Turn(p, role, timeout);
    if b.Some? {
      DoneAtWhole(q, role, timeout + Ms(b.value));
      WholeMsAfter(timeout, b.value);
      WholeMsAdds(timeout, timeout + Ms(b.value), DoneAt(q, role, timeout + Ms(b.value)));
    } else {
      NoTime(timeout);
    }
  }

  lemma NoTime(a: int)
    ensures WholeMs(a, a)
  {
    assert a == a + Ms(0);
  }

  lemma ServedUntilWhole(p: Part, role: Role, from: int)
    requires Rests(p)
    ensures WholeMs(from, ServedUntil(p, role, from))
  {
    hide WholeMs, FirstTurn, Rests, Ms;
    var (q, b) := FirstTurn(p, role, from);
    if b.Some? {
      DoneAtWhole(q, role, from + Ms(b.value));
      WholeMsAfter(from, b.value);
      WholeMsAdds(from, from + Ms(b.value), DoneAt(q, role, from + Ms(b.value)));
    } else {
      NoTime(from);
    }
  }

  lemma BeStartWhole(parts: seq<Part>, slices: seq<SliceCfg>, from: int)
    requires AllRest(parts)
    requires forall i :: 0 <= i < |slices| ==> slices[i].sc.Some? ==> slices[i].sc.value < |parts|
    ensures WholeMs(from, BeStartIn(parts, slices, from))
  {
    hide WholeMs, ServedUntil, Rests, Latest;
    NoTime(from);
    var times := ScTimesIn(parts, slices, from);
    forall i | 0 <= i < |slices|
      ensures WholeMs(from, times[i])
    {
      if slices[i].sc.Some? {
        ServedUntilWhole(parts[slices[i].sc.value], Sc, from);
      }
    }
    LatestIsMax(from, times);
  }

  // ----- One window -----

  ghost function BeStartOf(parts: seq<Part>, w: WinCfg, from: int): int
    requires AllRest(parts) && WinCfgOk(w, |parts|)
  {
    ScsExist(w, |parts|);
    BeStartIn(parts, w.slices, from)
  }

  /** For how many milliseconds a window serves a best-effort partition. */
  ghost function ServedMs(parts: seq<Part>, w: WinCfg, from: int, p: nat): (ms: int)
    requires AllRest(parts) && WinCfgOk(w, |parts|)
    ensures ms >= 0
  {
    var at, end := BeStartOf(parts, w, from), from + Ms(w.length);
    if (exists i :: UsedAs(w, p, Be, i)) && at < end then (end - at) / 1_000_000 else 0
  }

  ghost predicate BeOnlyIn(w: WinCfg, p: nat) {
    forall i :: !UsedAs(w, p, Sc, i)
  }

  lemma ServedMsIs(parts: seq<Part>, w: WinCfg, from: int, p: nat)
    requires AllRest(parts) && WinCfgOk(w, |parts|) && p < |parts| && BeOnlyIn(w, p)
    ensures var at, ms := BeStartOf(parts, w, from), ServedMs(parts, w, from, p);
            PartAfter(parts, w, from, p) == if ms > 0 then Served(parts[p], Be, at, at + Ms(ms)) else parts[p]
  {
    hide BeStartIn, Served, AllRest, UsedAs;
    ScsExist(w, |parts|);
    BeStartWhole(parts, w.slices, from);
    var at := BeStartIn(parts, w.slices, from);
    var d: nat :| at == from + Ms(d);
    var end := from + Ms(w.length);
    if at < end {
      assert end == at + Ms(w.length - d);
      assert (end - at) / 1_000_000 == w.length - d;
    }
  }

  /** What process `j` of a partition has been started with since `p`. */
  ghost predicate NotYet(p: Part, q: Part, j: nat) {
    forall e :: e in Starts(q.log) ==> e in Starts(p.log) || (e.Started? && e.proc != j)
  }

  ghost predicate InRange(p: Part, j: nat) {
    Plain(p) && Quiet(p) && j < |p.procs|
  }

  lemma ServingStarts(p: Part, from: int, ms: int, j: nat)
    requires InRange(p, j) && ms > 0
    ensures Rests(p) && p.cur < |p.procs|
    ensures var q := Served(p, Be, from, from + Ms(ms));
            && InRange(q, j) && |q.procs| == |p.procs| && q.cur < |q.procs|
            && Starts(q.log) == Starts(p.log) + BeRows(p, from, ms)
            && TurnOrCloser(p, q, from, ms, j)
  {
    hide Plain, Quiet, PartOk, Rests, Served, Starts, Rows, Leaves, Begun, TurnOrCloser, Ms;
    RangeMeans(p, j);
    ServingProgress(p, from, ms, j);
    ServingRows(p, from, ms);
    PlainRests(Served(p, Be, from, from + Ms(ms)));
  }

  lemma ServingRows(p: Part, from: int, ms: int)
    requires Plain(p) && Quiet(p) && ms > 0
    ensures Rests(p) && p.cur < |p.procs|
    ensures Starts(Served(p, Be, from, from + Ms(ms)).log) == Starts(p.log) + BeRows(p, from, ms)
  {
    PlainRests(p);
    hide Plain, Quiet, Served, Starts, Rows, Leaves, Begun;
    ServedClosedForm(p, Be, from, from + Ms(ms));
  }

  lemma RangeMeans(p: Part, j: nat)
    requires InRange(p, j)
    ensures j < |p.procs| && p.cur < |p.procs| && Rests(p)
  {
  }

  /** A window serves a best-effort partition for `ms` milliseconds from `at` on, or not at all. */
  ghost predicate StepsTo(p: Part, q: Part, at: int, ms: int)
    requires Rests(p)
  {
    q == if ms > 0 then Served(p, Be, at, at + Ms(ms)) else p
  }

  /** As long as it does not get its turn, a process only comes closer. */
  lemma StillWaits(p0: Part, p: Part, q: Part, at: int, ms: int, j: nat)
    requires InRange(p, j) && Rests(p) && StepsTo(p, q, at, ms) && ms >= 0
    requires p.cur < |p.procs| && j < |p.procs| && ms <= Wait(p, j) && NotYet(p0, p, j)
    ensures InRange(q, j) && q.cur < |q.procs| && j < |q.procs|
    ensures Wait(q, j) == Wait(p, j) - ms && NotYet(p0, q, j)
  {
    hide Starts, BeRows, Wait, Served, InRange, Rests;
    if ms > 0 {
      ServingStarts(p, at, ms, j);
      assert Misses(p, at, ms, j);
      forall e | e in Starts(q.log)
        ensures e in Starts(p0.log) || (e.Started? && e.proc != j)
      {
        assert e in Starts(p.log) || e in BeRows(p, at, ms);
      }
    }
  }

  /** When it is its turn, it is started as soon as those before it are through. */
  lemma GetsTurn(p: Part, q: Part, at: int, ms: int, j: nat)
    requires InRange(p, j) && Rests(p) && StepsTo(p, q, at, ms) && p.cur < |p.procs| && j < |p.procs| && 0 <= Wait(p, j) < ms
    ensures Started(at + Ms(Wait(p, j)), Be, j, p.procs[j].actual) in Starts(q.log)
  {
    hide Starts, BeRows, Wait, Served, InRange, Rests;
    ServingStarts(p, at, ms, j);
    assert Gets(p, at, ms, j);
  }

  // ----- The schedule -----

  ghost predicate BeOnly(cfg: seq<WinCfg>, p: nat) {
    forall c :: 0 <= c < |cfg| ==> BeOnlyIn(cfg[c], p)
  }

  lemma FrameRests(cfg: seq<WinCfg>, t0: int, parts: seq<seq<Part>>, runs: seq<WindowRun>, k: nat)
    requires FrameRun(cfg, t0, parts, runs) && k <= |runs|
    ensures |cfg| > 0 && |parts| == |runs| + 1 && |parts[k]| == |parts[0]| && AllRest(parts[k])
    ensures WinCfgOk(cfg[WindowAt(|cfg|, k)], |parts[k]|)
    ensures k < |runs| ==> parts[k + 1] == WindowTable(parts[k], cfg[WindowAt(|cfg|, k)], WindowStart(cfg, t0, k))
  {
    hide WindowTable, RunsWindow, AllRest, WindowStart, CfgOk, WinCfgOk;
    FrameRunIs(cfg, t0, parts, runs);
    ScheduleFollowsTable(cfg, t0, parts, runs, k);
    WindowIsOk(cfg, |parts[0]|, WindowAt(|cfg|, k));
    if k < |runs| {
      WindowFollowsTable(cfg[WindowAt(|cfg|, k)], parts[k], parts[k + 1], WindowStart(cfg, t0, k), runs[k]);
    }
  }

  /** When best effort starts in the `k`-th window, and how long it is served there. */
  ghost function ServingOf(cfg: seq<WinCfg>, t0: int, parts: seq<seq<Part>>, runs: seq<WindowRun>, p: nat, k: nat): (s: Serving)
    requires FrameRun(cfg, t0, parts, runs) && k < |runs|
    ensures s.ms >= 0
  {
    FrameRests(cfg, t0, parts, runs, k);
    var w := cfg[WindowAt(|cfg|, k)];
    Serving(BeStartOf(parts[k], w, WindowStart(cfg, t0, k)), ServedMs(parts[k], w, WindowStart(cfg, t0, k), p))
  }

  /** For how many milliseconds the first `k` windows have served the partition. */
  ghost function TimeServed(cfg: seq<WinCfg>, t0: int, parts: seq<seq<Part>>, runs: seq<WindowRun>, p: nat, k: nat): int
    requires FrameRun(cfg, t0, parts, runs) && k <= |runs|
  {
    if k == 0 then 0 else TimeServed(cfg, t0, parts, runs, p, k - 1) + ServingOf(cfg, t0, parts, runs, p, k - 1).ms
  }

  lemma WindowSteps(cfg: seq<WinCfg>, t0: int, parts: seq<seq<Part>>, runs: seq<WindowRun>, p: nat, k: nat)
    requires FrameRun(cfg, t0, parts, runs) && k < |runs| && BeOnly(cfg, p) && p < |parts[0]|
    ensures |parts[k]| == |parts[0]| == |parts[k + 1]| && Rests(parts[k][p])
    ensures var s := ServingOf(cfg, t0, parts, runs, p, k);
            StepsTo(parts[k][p], parts[k + 1][p], s.from, s.ms)
  {
    hide FrameRun, WinCfgOk, Rests, Served, WindowStart, BeStartOf, ServedMs;
    FrameRests(cfg, t0, parts, runs, k);
    FrameRests(cfg, t0, parts, runs, k + 1);
    ServedMsIs(parts[k], cfg[WindowAt(|cfg|, k)], WindowStart(cfg, t0, k), p);
  }

  /** While the time served does not exceed the wait, the process waits, closer by that time. */
  lemma {:induction false} WaitsOn(cfg: seq<WinCfg>, t0: int, parts: seq<seq<Part>>, runs: seq<WindowRun>, p: nat, j: nat, k: nat)
    requires FrameRun(cfg, t0, parts, runs) && k <= |runs| && BeOnly(cfg, p) && p < |parts[0]|
    requires InRange(parts[0][p], j) && j < |parts[0][p].procs| && parts[0][p].cur < |parts[0][p].procs|
    requires TimeServed(cfg, t0, parts, runs, p, k) <= Wait(parts[0][p], j)
    ensures |parts[k]| == |parts[0]| && InRange(parts[k][p], j)
    ensures j < |parts[k][p].procs| && parts[k][p].cur < |parts[k][p].procs|
    ensures Wait(parts[k][p], j) == Wait(parts[0][p], j) - TimeServed(cfg, t0, parts, runs, p, k)
    ensures NotYet(parts[0][p], parts[k][p], j)
    decreases k
  {
    hide FrameRun, InRange, Wait, Starts, ServingOf, StepsTo;
    FrameRests(cfg, t0, parts, runs, k);
    if k > 0 {
      WindowSteps(cfg, t0, parts, runs, p, k - 1);
      WaitsOn(cfg, t0, parts, runs, p, j, k - 1);
      var s := ServingOf(cfg, t0, parts, runs, p, k - 1);
      StillWaits(parts[0][p], parts[k - 1][p], parts[k][p], s.from, s.ms, j);
    }
  }

  /**
   * No starvation, with the exact turn: in the first window in which the time served exceeds what
   * the processes ahead of `j` had, and in no window before, `j` is started, at the very moment
   * at which that time is used up.
   */
  lemma ProcessGetsTurn(cfg: seq<WinCfg>, t0: int, parts: seq<seq<Part>>, runs: seq<WindowRun>, p: nat, j: nat) returns (k: nat)
    requires FrameRun(cfg, t0, parts, runs) && BeOnly(cfg, p) && p < |parts[0]|
    requires InRange(parts[0][p], j) && j < |parts[0][p].procs| && parts[0][p].cur < |parts[0][p].procs|
    requires Wait(parts[0][p], j) < TimeServed(cfg, t0, parts, runs, p, |runs|)
    ensures k < |runs| && p < |parts[k]| && p < |parts[k + 1]| && j < |parts[k][p].procs|
    ensures TimeServed(cfg, t0, parts, runs, p, k) <= Wait(parts[0][p], j) < TimeServed(cfg, t0, parts, runs, p, k + 1)
    ensures var at := ServingOf(cfg, t0, parts, runs, p, k).from + Ms(Wait(parts[0][p], j) - TimeServed(cfg, t0, parts, runs, p, k));
            Started(at, Be, j, parts[k][p].procs[j].actual) in Starts(parts[k + 1][p].log)
    ensures NotYet(parts[0][p], parts[k][p], j)
  {
    hide FrameRun, BeOnly, InRange, Wait, Starts, ServingOf, StepsTo, NotYet, Ms;
    FrameRests(cfg, t0, parts, runs, 0);
    WaitNotNegative(parts[0][p], j);
    k := 0;
    while TimeServed(cfg, t0, parts, runs, p, k + 1) <= Wait(parts[0][p], j)
      invariant k < |runs| && TimeServed(cfg, t0, parts, runs, p, k) <= Wait(parts[0][p], j)
      decreases |runs| - k
    {
      k := k + 1;
    }
    WaitsOn(cfg, t0, parts, runs, p, j, k);
    WindowSteps(cfg, t0, parts, runs, p, k);
    assert |parts| == |runs| + 1;
    WaitNotNegative(parts[k][p], j);
    var s := ServingOf(cfg, t0, parts, runs, p, k);
    GetsTurn(parts[k][p], parts[k + 1][p], s.from, s.ms, j);
  }

  lemma {:induction false} TimeGrows(cfg: seq<WinCfg>, t0: int, parts: seq<seq<Part>>, runs: seq<WindowRun>, p: nat, k: nat)
    requires FrameRun(cfg, t0, parts, runs) && k <= |runs|
    requires forall i :: 0 <= i < k ==> ServingOf(cfg, t0, parts, runs, p, i).ms > 0
    ensures TimeServed(cfg, t0, parts, runs, p, k) >= k
    decreases k
  {
    hide FrameRun, ServingOf;
    if k > 0 {
      TimeGrows(cfg, t0, parts, runs, p, k - 1);
    }
  }

  /**
   * If every window leaves some time to its partition, a process is started at the latest in the
   * window numbered by the milliseconds which the processes ahead of it had.
   */
  lemma StartsWithinWait(cfg: seq<WinCfg>, t0: int, parts: seq<seq<Part>>, runs: seq<WindowRun>, p: nat,
        j: nat) returns (k: nat, at: int, b: int)
    requires FrameRun(cfg, t0, parts, runs) && BeOnly(cfg, p) && p < |parts[0]|
    requires InRange(parts[0][p], j) && j < |parts[0][p].procs| && parts[0][p].cur < |parts[0][p].procs|
    requires forall i :: 0 <= i < |runs| ==> ServingOf(cfg, t0, parts, runs, p, i).ms > 0
    requires Wait(parts[0][p], j) < |runs|
    ensures k <= Wait(parts[0][p], j) && k < |runs| && p < |parts[k]| && p < |parts[k + 1]|
    ensures Started(at, Be, j, b) in Starts(parts[k + 1][p].log) && NotYet(parts[0][p], parts[k][p], j)
  {
    hide FrameRun, ServingOf, InRange, Wait, BeOnly, Starts, NotYet, TimeServed;
    FrameRests(cfg, t0, parts, runs, 0);
    TimeGrows(cfg, t0, parts, runs, p, |runs|);
    k := ProcessGetsTurn(cfg, t0, parts, runs, p, j);
    TimeGrows(cfg, t0, parts, runs, p, k);
    at := ServingOf(cfg, t0, parts, runs, p, k).from + Ms(Wait(parts[0][p], j) - TimeServed(cfg, t0, parts, runs, p, k));
    b := parts[k][p].procs[j].actual;
  }

  lemma WaitNotNegative(p: Part, j: nat)
    requires InRange(p, j) && p.cur < |p.procs| && j < |p.procs|
    ensures Wait(p, j) >= 0
  {
    SumGrows(p, p.cur, 0, Behind(|p.procs|, p.cur, j));
    SumStart(p, p.cur);
  }
}
