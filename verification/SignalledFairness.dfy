/**
 * No starvation when processes signal. A process which is not started in a window comes closer by
 * at least a millisecond whenever its best-effort partition is launched there, however the window
 * and the processes ahead of it go on.
 */
module SignalledFairness {
  import opened Options
  import opened Model
  import opened Phases
  import opened TimeTable
  import opened ClosedForm
  import opened Fairness
  import opened Conservation
  import opened Frame
  import opened ScheduleBooks
  import opened ScheduleFairness
  import opened BestEffort

  /** Process `j` of a best-effort partition was started after the partition was `p` and before it is `q`. */
  ghost predicate GotTurn(p: Part, q: Part, j: nat) {
    && |p.log| <= |q.log| && q.log[..|p.log|] == p.log
    && exists i :: |p.log| <= i < |q.log| && IsStart(q.log[i], j)
  }

  predicate IsStart(e: Event, j: nat) {
    e.Started? && e.role == Be && e.proc == j
  }

  /** Signals are all that has happened to the partition. */
  ghost predicate SignalsOnly(p: Part, q: Part) {
    && q.cur == p.cur && q.log == p.log && |q.procs| == |p.procs|
    && forall j :: 0 <= j < |p.procs| ==> q.procs[j] == p.procs[j].(signalled := q.procs[j].signalled)
  }

  // ----- A partition on its way to process `j` -----

  /** A process ahead of `j` runs; it was started before `end`. */
  ghost predicate RunsBefore(p: Part, q: Part, k: nat, due: int, end: int, j: nat)
    requires p.cur < |p.procs| && j < |p.procs|
  {
    && k < Behind(|p.procs|, p.cur, j) && RunsAt(p, q, p.cur, k)
    && |p.log| <= |q.log| && q.log[..|p.log|] == p.log
    && due < end + Ms(Grant(p, p.cur, k))
  }

  /** The partition, which was `p` when the window started, has started `j` or is on its way there. */
  ghost predicate Comes(p: Part, a: Side, launches: nat, end: int, j: nat)
    requires p.cur < |p.procs| && j < |p.procs|
  {
    && a.part.Some? && SideOk(a)
    && (launches == 0 ==> a.due.None? && SignalsOnly(p, a.part.value))
    && (launches != 0 ==>
          || GotTurn(p, a.part.value, j)
          || (a.due.Some? && exists k: nat :: RunsBefore(p, a.part.value, k, a.due.value, end, j)))
  }

  lemma GotTurnGrows(p: Part, q: Part, r: Part, more: seq<Event>, j: nat)
    requires GotTurn(p, q, j) && r.log == q.log + more
    ensures GotTurn(p, r, j)
  {
    var i :| |p.log| <= i < |q.log| && IsStart(q.log[i], j);
    assert r.log[i] == q.log[i];
  }

  lemma {:induction false} GoesLogs(p: Part, t: int) returns (more: seq<Event>)
    requires p.cur < |p.procs|
    ensures StartNext(p, Be, t).0.log == p.log + more
    decreases PendingCount(p.procs)
  {
    var (q, found) := SeekPart(p);
    if !found {
      more := [];
    } else {
      var (x, b) := Draw(q.procs[q.cur]);
      if b == 0 {
        PendingCountUpdate(q.procs, q.cur, x.(completed := true));
        more := GoesLogs(Skip(q), t);
      } else {
        more := [Started(t, Be, q.cur, b)];
      }
    }
  }

  /** From a moment between two processes on, the next one is started: `j`, or one ahead of it. */
  lemma BetweenComes(p: Part, q: Part, k: nat, t: int, end: int, j: nat)
    requires p.cur < |p.procs| && j < |p.procs| && Between(p, q, p.cur, k) && k <= Behind(|p.procs|, p.cur, j)
    requires |p.log| <= |q.log| && q.log[..|p.log|] == p.log && t < end
    ensures q.cur < |q.procs| && Comes(p, Goes(q, t), 1, end, j)
  {
    hide Plain, Quiet, Same, Runs, StartNext;
    BetweenMeans(p, q, p.cur, k);
    StartBetween(p, q, p.cur, k, Be, t);
    var a := Goes(q, t);
    var r := a.part.value;
    RunsAtRuns(p, r, p.cur, k);
    assert r.log[..|p.log|] == p.log;
    if k == Behind(|p.procs|, p.cur, j) {
      assert IsStart(r.log[|q.log|], j);
    } else {
      assert RunsBefore(p, r, k, a.due.value, end, j);
    }
  }

  lemma BetweenMeans(p: Part, q: Part, c: nat, k: nat)
    requires c < |p.procs| && Between(p, q, c, k)
    ensures q.cur < |q.procs| == |p.procs|
  {
  }

  lemma ResetComes(p: Part, q: Part)
    requires Plain(p) && Quiet(p) && SignalsOnly(p, q)
    ensures p.cur < |p.procs| && q.cur < |q.procs| && Between(p, Reset(q, false), p.cur, 0)
    ensures Reset(q, false).log == p.log
  {
    var r := Reset(q, false);
    forall j | 0 <= j < |p.procs|
      ensures ProcOk(r.procs[j]) && r.procs[j].frozen && r.procs[j].spawned && r.procs[j].jitter == 0
      ensures r.procs[j].actual == p.procs[j].actual && r.procs[j].budget == p.procs[j].budget && !r.procs[j].completed
    {
      assert ProcOk(p.procs[j]);
    }
  }

  lemma LaunchComes(p: Part, a: Side, t: int, end: int, j: nat)
    requires Plain(p) && Quiet(p) && p.cur < |p.procs| && j < |p.procs| && Comes(p, a, 0, end, j) && t < end
    ensures Comes(p, Launched(a, t), 1, end, j)
  {
    hide Plain, Quiet, Between, SignalsOnly, Goes;
    ResetComes(p, a.part.value);
    assert p.log[..|p.log|] == p.log;
    BetweenComes(p, Reset(a.part.value, false), 0, t, end, j);
  }

  lemma MoveComes(p: Part, a: Side, launches: nat, t: int, end: int, j: nat)
    requires p.cur < |p.procs| && j < |p.procs| && Comes(p, a, launches, end, j) && launches != 0 && t < end
    ensures Comes(p, Moved(a, t), launches, end, j)
  {
    hide Plain, Quiet, Between, RunsAt, StartNext, GotTurn;
    var q := a.part.value;
    var e := EndCurrent(q, Be, t, true);
    if GotTurn(p, q, j) {
      var more := GoesLogs(e, t);
      var r := StartNext(e, Be, t).0;
      assert r.log == q.log + ([Ended(t, Be, q.cur, true)] + more);
      GotTurnGrows(p, q, r, [Ended(t, Be, q.cur, true)] + more, j);
    } else {
      var k: nat :| RunsBefore(p, q, k, a.due.value, end, j);
      EndBetween(p, q, p.cur, k, Be, t);
      assert e.log[..|p.log|] == q.log[..|p.log|];
      BetweenComes(p, e, k + 1, t, end, j);
    }
  }

  lemma SignalKeepsRunning(p: Part, q: Part, k: nat, i: nat, x: Proc)
    requires p.cur < |p.procs| && RunsAt(p, q, p.cur, k) && i < |q.procs| && x == q.procs[i].(signalled := true)
    ensures RunsAt(p, q.(procs := q.procs[i := x]), p.cur, k)
  {
    var r := q.(procs := q.procs[i := x]);
    forall m | 0 <= m < |r.procs|
      ensures ProcOk(r.procs[m]) && r.procs[m] == q.procs[m].(signalled := r.procs[m].signalled)
    {
      assert ProcOk(q.procs[m]);
    }
  }

  lemma FlagComes(p: Part, a: Side, b: Side, launches: nat, end: int, j: nat)
    requires p.cur < |p.procs| && j < |p.procs| && Comes(p, a, launches, end, j) && Flag(a, b, false)
    ensures Comes(p, b, launches, end, j)
  {
    hide RunsAt;
    if b.part != a.part {
      var i: nat, x :| Flags(a, b, i, x, false);
      if launches != 0 && !GotTurn(p, a.part.value, j) {
        var k: nat :| RunsBefore(p, a.part.value, k, a.due.value, end, j);
        SignalKeepsRunning(p, a.part.value, k, i, x);
        assert RunsBefore(p, b.part.value, k, b.due.value, end, j);
      }
    }
  }

  // ----- The end of the window -----

  /** What a window makes of the partition `p`: `j` has been started, or is closer if it was launched. */
  ghost predicate Outcome(p: Part, q: Part, launches: nat, j: nat)
    requires p.cur < |p.procs| && j < |p.procs|
  {
    if launches == 0 then SignalsOnly(p, q)
    else GotTurn(p, q, j) || (Plain(q) && Quiet(q) && q.cur < |q.procs| == |p.procs| && Wait(q, j) < Wait(p, j))
  }

  /** A process which is cut off has at least a millisecond less than it was given. */
  lemma CutComes(p: Part, q: Part, k: nat, due: int, end: int, j: nat)
    requires Plain(p) && p.cur < |p.procs| && j < |p.procs| && RunsBefore(p, q, k, due, end, j) && end < due + 1_000_000
    ensures Runs(q)
    ensures var r := CutOff(q, Be, due, end);
            Plain(r) && Quiet(r) && r.cur < |r.procs| == |p.procs| && Wait(r, j) < Wait(p, j)
  {
    hide Sum, Quiet, Same, Wait;
    var c, n := p.cur, |p.procs|;
    var left := TruncMs(due - end);
    RunsAtRuns(p, q, c, k);
    assert 0 <= left < Grant(p, c, k);
    CutLeaves(p, q, k, due, end);
    var r := CutOff(q, Be, due, end);
    SumGrows(p, c, 0, k);
    SumStart(p, c);
    SumStep(p, c, k);
    if left == 0 {
      SumGrows(p, c, k + 1, Behind(n, c, j));
      if k + 1 < n {
        SumStep(p, c, k + 1);
        WaitFrom(p, r, k + 1, Grant(p, c, k + 1), j);
      }
      WaitIs(p, j);
    } else {
      WaitFrom(p, r, k, left, j);
    }
  }

  lemma WaitIs(p: Part, j: nat)
    requires p.cur < |p.procs| && j < |p.procs|
    ensures Wait(p, j) == Sum(p, p.cur, Behind(|p.procs|, p.cur, j))
  {
  }

  lemma CutLeaves(p: Part, q: Part, k: nat, due: int, end: int)
    requires Plain(p) && p.cur < |p.procs| && k < |p.procs| && RunsAt(p, q, p.cur, k)
    requires 0 <= TruncMs(due - end) < Grant(p, p.cur, k)
    ensures Runs(q)
    ensures var r := CutOff(q, Be, due, end);
            var left := TruncMs(due - end);
            && Plain(r) && Quiet(r) && |r.procs| == |p.procs|
            && r.cur == Ahead(|p.procs|, p.cur, if left > 0 then k else k + 1)
            && (forall m :: k < m < |p.procs| ==> Grant(r, p.cur, m) == Grant(p, p.cur, m))
            && (left > 0 ==> Grant(r, p.cur, k) == left)
  {
    var left := TruncMs(due - end);
    AheadIsBijective(|p.procs|, p.cur);
    if left == 0 {
      EndBetween(p, q, p.cur, k, Be, end);
      SeekBetween(p, EndCurrent(q, Be, end, true), p.cur, k + 1);
    } else {
      assert 0 < left < Grant(p, p.cur, k) <= p.procs[q.cur].budget;
    }
  }

  lemma StopComes(p: Part, s: Slice, launches: nat, end: int, j: nat)
    requires Plain(p) && Quiet(p) && p.cur < |p.procs| && j < |p.procs| && SliceOk(s) && Comes(p, BeSide(s), launches, end, j)
    requires NotOverdue(s, end)
    ensures var r := StopSlice(s, end).0; r.be.Some? && Outcome(p, r.be.value, launches, j)
  {
    hide Plain, Quiet, SignalsOnly, GotTurn, RunsBefore, PartOk, Wait;
    StopBeSide(s, end);
    var r := StopSlice(s, end).0;
    var q := s.be.value;
    if launches != 0 {
      if GotTurn(p, q, j) {
        GotTurnGrows(p, q, r.be.value, r.be.value.log[|q.log|..], j);
      } else {
        var k: nat :| RunsBefore(p, q, k, s.timeout, end, j);
        CutComes(p, q, k, s.timeout, end, j);
      }
    }
  }

  lemma StopBeSide(s: Slice, end: int)
    requires SliceOk(s) && s.be.Some?
    ensures var r := StopSlice(s, end).0;
            && r.be.Some?
            && |s.be.value.log| <= |r.be.value.log| && r.be.value.log == s.be.value.log + r.be.value.log[|s.be.value.log|..]
            && (if s.running && s.role == Some(Be) then Runs(s.be.value) && r.be.value == CutOff(s.be.value, Be, s.timeout, end)
                else r.be == s.be)
  {
    hide Seek;
  }

  // ----- One window -----

  /** The event ends a process of the best-effort partition of slice `i`. */
  predicate EndsOne(e: Step, i: nat) {
    e.Exit? && e.i == i && e.role == Be
  }

  lemma StepComes(p: Part, w: Win, e: Step, i: nat, c: Clock, j: nat)
    requires Plain(p) && Quiet(p) && p.cur < |p.procs| && j < |p.procs|
    requires Inv(w) && Enabled(w, e) && i < |w.slices| && StepInTime(e, w, c) && !EndsOne(e, i)
    requires Comes(p, BeSide(w.slices[i]), w.launches, c.end, j)
    ensures Comes(p, BeSide(Apply(w, e).slices[i]), Apply(w, e).launches, c.end, j)
  {
    hide Inv, Flag, Comes, Launched, Moved, Apply, Enabled, Plain, Quiet;
    var u := ApplySide(w, e, i);
    FlagComes(p, BeSide(w.slices[i]), u, w.launches, c.end, j);
    var r := Apply(w, e);
    var t := TimeOf(e, w);
    if t.Some? && r.launches != w.launches {
      LaunchComes(p, u, t.value, c.end, j);
    } else if t.Some? && BeSide(r.slices[i]) != u {
      ComesDue(p, u, w.launches, c.end, j);
      MoveComes(p, u, w.launches, t.value, c.end, j);
    }
  }

  lemma ComesDue(p: Part, a: Side, launches: nat, end: int, j: nat)
    requires p.cur < |p.procs| && j < |p.procs| && Comes(p, a, launches, end, j) && a.due.Some?
    ensures launches != 0
  {
  }

  lemma StartComes(p: Part, w: Win, from: int, i: nat, end: int, j: nat)
    requires Plain(p) && Quiet(p) && p.cur < |p.procs| && j < |p.procs|
    requires Idle(w) && WinShaped(w) && from < end && i < |w.slices| && w.slices[i].be == Some(p)
    ensures Comes(p, BeSide(Start(w, from).slices[i]), Start(w, from).launches, end, j)
  {
    hide Idle, Start, Launched, Plain, Quiet;
    StartSide(w, from, i);
    if Start(w, from).launches == 1 {
      LaunchComes(p, Side(Some(p), None), from, end, j);
    }
  }

  lemma {:induction false} RunComes(p: Part, w0: Win, from: int, steps: seq<Step>, states: seq<Win>, c: Clock, i: nat, j: nat, k: nat)
    requires Plain(p) && Quiet(p) && p.cur < |p.procs| && j < |p.procs|
    requires IsRun(w0, from, steps, states) && StepsInTime(steps, states, c) && from < c.end && k <= |steps|
    requires i < |w0.slices| && w0.slices[i].be == Some(p)
    requires forall m :: 0 <= m < |steps| ==> !EndsOne(steps[m], i)
    ensures i < |states[k].slices| && Inv(states[k])
    ensures Comes(p, BeSide(states[k].slices[i]), states[k].launches, c.end, j)
    decreases k
  {
    hide Comes, Start, Inv, Idle, Apply, Enabled, Plain, Quiet, EndsOne, StepInTime;
    RunKeepsInv(w0, from, steps, states, k);
    if k == 0 {
      StartComes(p, w0, from, i, c.end, j);
    } else {
      RunComes(p, w0, from, steps, states, c, i, j, k - 1);
      StepComes(p, states[k - 1], steps[k - 1], i, c, j);
    }
  }

  lemma WindowComes(p: Part, w0: Win, from: int, steps: seq<Step>, states: seq<Win>, c: Clock, i: nat, j: nat)
    requires Plain(p) && Quiet(p) && p.cur < |p.procs| && j < |p.procs|
    requires IsRun(w0, from, steps, states) && StepsInTime(steps, states, c) && from < c.end
    requires i < |w0.slices| && w0.slices[i].be == Some(p)
    requires forall m :: 0 <= m < |steps| ==> !EndsOne(steps[m], i)
    requires i < |states[|steps|].slices| ==> NotOverdue(states[|steps|].slices[i], c.end)
    ensures WinShaped(states[|steps|]) && i < |states[|steps|].slices|
    ensures var r := Stop(states[|steps|], c.end);
            r.slices[i].be.Some? && Outcome(p, r.slices[i].be.value, states[|steps|].launches, j)
  {
    hide Comes, Start, Idle, Apply, Enabled, Plain, Quiet, EndsOne, StepsInTime, StopSlice, NotOverdue, Outcome;
    var last := states[|steps|];
    RunComes(p, w0, from, steps, states, c, i, j, |steps|);
    assert SliceOk(last.slices[i]);
    hide SliceOk, InPhase;
    StopComes(p, last.slices[i], last.launches, c.end, j);
    StopFromParts(last.(stopping := true), 0, c.end);
  }

  // ----- The schedule -----

  /** How often, once or not at all, a window launches the partition. */
  ghost function LaunchesIn(w: WinCfg, run: EventRun, p: nat): nat {
    if (exists i :: UsedAs(w, p, Be, i)) && |run.states| > |run.steps| && run.states[|run.steps|].launches != 0 then 1 else 0
  }

  /** No process of the partition ends, while the window runs it or while it rests. */
  ghost predicate NobodyExits(w: WinCfg, before: Part, after: Part, run: EventRun, p: nat) {
    && (forall k, i: nat :: 0 <= k < |run.steps| && UsedAs(w, p, Be, i) ==> !EndsOne(run.steps[k], i))
    && (Unused(w, p) ==>
          forall j :: 0 <= j < |before.procs| && j < |after.procs| ==> after.procs[j].spawned == before.procs[j].spawned)
  }

  lemma PlayComes(w: WinCfg, parts: seq<Part>, after: seq<Part>, from: int, run: EventRun, c: Clock, p: nat, j: nat)
    requires Plays(w, parts, after, from, run, c) && p < |parts| == |after| && BeOnlyIn(w, p)
    requires InRange(parts[p], j) && parts[p].cur < |parts[p].procs| && j < |parts[p].procs|
    requires NobodyExits(w, parts[p], after[p], run, p)
    ensures Outcome(parts[p], after[p], LaunchesIn(w, run, p), j)
  {
    hide Plain, Quiet, Stop, StepsInTime, NotOverdue, Idle, Start, Apply, Enabled, Outcome, FlagsOnly, EndsOne;
    PlaysMeans(w, parts, after, from, run, c);
    ScsExist(w, |parts|);
    if i: nat :| UsedAs(w, p, Be, i) {
      WindowComes(parts[p], run.before, from, run.steps, run.states, c, i, j);
      PhaseSeparation(run.before, from, run.steps, run.states, |run.steps|);
      assert run.after.slices[i].be == Some(after[p]);
    } else {
      assert Unused(w, p) by {
        forall r, i
          ensures !UsedAs(w, p, r, i)
        {
          assert r == Sc || r == Be;
        }
      }
      FlagsAreSignals(w, parts[p], after[p], run, p, j);
    }
  }

  lemma FlagsAreSignals(w: WinCfg, before: Part, after: Part, run: EventRun, p: nat, j: nat)
    requires before.cur < |before.procs| && j < |before.procs|
    requires FlagsOnly(before, after) && Unused(w, p) && NobodyExits(w, before, after, run, p)
    ensures Outcome(before, after, 0, j)
  {
  }

  /** How many of the first `k` windows launch the partition. */
  ghost function LaunchesOf(cfg: seq<WinCfg>, runs: seq<EventRun>, p: nat, k: nat): nat
    requires |cfg| > 0 && k <= |runs|
  {
    if k == 0 then 0 else LaunchesOf(cfg, runs, p, k - 1) + LaunchesIn(cfg[WindowAt(|cfg|, k - 1)], runs[k - 1], p)
  }

  /** No process of the partition ends during the schedule. */
  ghost predicate AllStay(cfg: seq<WinCfg>, parts: seq<seq<Part>>, runs: seq<EventRun>, p: nat)
    requires |cfg| > 0 && |parts| == |runs| + 1
  {
    forall k :: 0 <= k < |runs| && p < |parts[k]| && p < |parts[k + 1]| ==>
      NobodyExits(cfg[WindowAt(|cfg|, k)], parts[k][p], parts[k + 1][p], runs[k], p)
  }

  /** Before the `k`-th window, `j` is as many milliseconds closer as there were launches. */
  ghost predicate Closer(cfg: seq<WinCfg>, parts: seq<seq<Part>>, runs: seq<EventRun>, p: nat, j: nat, k: nat)
    requires |cfg| > 0 && |parts| == |runs| + 1 && k <= |runs| && p < |parts[0]|
  {
    && p < |parts[k]| && InRange(parts[k][p], j)
    && parts[k][p].cur < |parts[k][p].procs| && j < |parts[k][p].procs|
    && parts[0][p].cur < |parts[0][p].procs| && j < |parts[0][p].procs|
    && Wait(parts[k][p], j) + LaunchesOf(cfg, runs, p, k) <= Wait(parts[0][p], j)
  }

  lemma OutcomeCloser(p: Part, q: Part, launches: nat, j: nat)
    requires InRange(p, j) && p.cur < |p.procs| && j < |p.procs| && Outcome(p, q, launches, j) && launches <= 1 && !GotTurn(p, q, j)
    ensures InRange(q, j) && q.cur < |q.procs| && j < |q.procs| && Wait(q, j) + launches <= Wait(p, j)
  {
    hide Sum, GotTurn;
    if launches == 0 {
      forall m | 0 <= m < |q.procs|
        ensures ProcOk(q.procs[m]) && q.procs[m].actual == p.procs[m].actual
      {
        assert ProcOk(p.procs[m]);
      }
      SumSame(p, q, p.cur, Behind(|p.procs|, p.cur, j));
    }
  }

  lemma WindowCloser(cfg: seq<WinCfg>, t0: int, parts: seq<seq<Part>>, runs: seq<EventRun>, exact: bool, p: nat, j: nat, k: nat)
    requires EventfulRun(cfg, t0, parts, runs, exact) && BeOnly(cfg, p) && p < |parts[0]| && AllStay(cfg, parts, runs, p)
    requires k < |runs| && Closer(cfg, parts, runs, p, j, k)
    ensures p < |parts[k]| && p < |parts[k + 1]|
    ensures GotTurn(parts[k][p], parts[k + 1][p], j) || Closer(cfg, parts, runs, p, j, k + 1)
    ensures GotTurn(parts[k][p], parts[k + 1][p], j) ==> LaunchesIn(cfg[WindowAt(|cfg|, k)], runs[k], p) == 1
  {
    hide InRange, Wait, GotTurn, NobodyExits, WindowStart, BeOnlyIn, BeOnly, Plays, EventfulRun, AllStay, LaunchesIn, ClockOf, Outcome;
    PlaysAt(cfg, t0, parts, runs, exact, p, k);
    var w := cfg[WindowAt(|cfg|, k)];
    var c := ClockOf(exact, t0, WindowStart(cfg, t0, k + 1));
    PlaysLength(w, parts[k], parts[k + 1], WindowStart(cfg, t0, k), runs[k], c);
    LaunchesOnce(w, runs[k], p);
    PlayComes(w, parts[k], parts[k + 1], WindowStart(cfg, t0, k), runs[k], c, p, j);
    NoTurnAtRest(parts[k][p], parts[k + 1][p], LaunchesIn(w, runs[k], p), j);
    if !GotTurn(parts[k][p], parts[k + 1][p], j) {
      OutcomeCloser(parts[k][p], parts[k + 1][p], LaunchesIn(w, runs[k], p), j);
    }
  }

  lemma PlaysAt(cfg: seq<WinCfg>, t0: int, parts: seq<seq<Part>>, runs: seq<EventRun>, exact: bool, p: nat, k: nat)
    requires EventfulRun(cfg, t0, parts, runs, exact) && BeOnly(cfg, p) && AllStay(cfg, parts, runs, p) && k < |runs|
    ensures |cfg| > 0 && |parts| == |runs| + 1 && BeOnlyIn(cfg[WindowAt(|cfg|, k)], p)
    ensures Plays(cfg[WindowAt(|cfg|, k)], parts[k], parts[k + 1], WindowStart(cfg, t0, k), runs[k],
                  ClockOf(exact, t0, WindowStart(cfg, t0, k + 1)))
    ensures p < |parts[k]| && p < |parts[k + 1]| ==>
              NobodyExits(cfg[WindowAt(|cfg|, k)], parts[k][p], parts[k + 1][p], runs[k], p)
  {
    hide Plays, NobodyExits, WindowStart, BeOnlyIn;
  }

  lemma LaunchesOnce(w: WinCfg, run: EventRun, p: nat)
    ensures LaunchesIn(w, run, p) <= 1
  {
  }

  lemma PlaysLength(w: WinCfg, parts: seq<Part>, after: seq<Part>, from: int, run: EventRun, c: Clock)
    requires Plays(w, parts, after, from, run, c)
    ensures |after| == |parts|
  {
    hide Wired, IsRun, StepsInTime, Stop, NotOverdue, FlagsOnly, Unused;
  }

  lemma NoTurnAtRest(p: Part, q: Part, launches: nat, j: nat)
    requires p.cur < |p.procs| && j < |p.procs| && Outcome(p, q, launches, j)
    ensures GotTurn(p, q, j) ==> launches != 0
  {
  }

  /**
   * No starvation, whoever signals. Whatever timeouts and signals the windows see, a process of a
   * best-effort partition none of whose processes ends is started at the latest in the window
   * which launches the partition after as many launches as there were milliseconds ahead of it.
   */
  lemma StartsDespiteSignals(cfg: seq<WinCfg>, t0: int, parts: seq<seq<Part>>, runs: seq<EventRun>, exact: bool, p: nat,
        j: nat) returns (k: nat)
    requires EventfulRun(cfg, t0, parts, runs, exact) && BeOnly(cfg, p) && p < |parts[0]| && AllStay(cfg, parts, runs, p)
    requires InRange(parts[0][p], j) && j < |parts[0][p].procs| && parts[0][p].cur < |parts[0][p].procs|
    requires LaunchesOf(cfg, runs, p, |runs|) > Wait(parts[0][p], j)
    ensures k < |runs| && p < |parts[k]| && p < |parts[k + 1]|
    ensures GotTurn(parts[k][p], parts[k + 1][p], j)
    ensures LaunchesIn(cfg[WindowAt(|cfg|, k)], runs[k], p) == 1 && LaunchesOf(cfg, runs, p, k) <= Wait(parts[0][p], j)
  {
    hide InRange, Wait, GotTurn, BeOnly, EventfulRun, AllStay, LaunchesIn, Closer;
    EventfulMeans(cfg, t0, parts, runs, exact);
    k := 0;
    StartsCloser(cfg, parts, runs, p, j);
    CloserMeans(cfg, parts, runs, p, j, k);
    while k < |runs| && (p < |parts[k]| && p < |parts[k + 1]| ==> !GotTurn(parts[k][p], parts[k + 1][p], j))
      invariant k <= |runs| && Closer(cfg, parts, runs, p, j, k)
    {
      WindowCloser(cfg, t0, parts, runs, exact, p, j, k);
      k := k + 1;
    }
    CloserMeans(cfg, parts, runs, p, j, k);
    WindowCloser(cfg, t0, parts, runs, exact, p, j, k);
  }

  lemma EventfulMeans(cfg: seq<WinCfg>, t0: int, parts: seq<seq<Part>>, runs: seq<EventRun>, exact: bool)
    requires EventfulRun(cfg, t0, parts, runs, exact)
    ensures |cfg| > 0 && |parts| == |runs| + 1
  {
    hide Plays;
  }

  lemma StartsCloser(cfg: seq<WinCfg>, parts: seq<seq<Part>>, runs: seq<EventRun>, p: nat, j: nat)
    requires |cfg| > 0 && |parts| == |runs| + 1 && p < |parts[0]|
    requires InRange(parts[0][p], j) && j < |parts[0][p].procs| && parts[0][p].cur < |parts[0][p].procs|
    ensures Closer(cfg, parts, runs, p, j, 0)
  {
    hide InRange, Wait;
  }

  lemma CloserMeans(cfg: seq<WinCfg>, parts: seq<seq<Part>>, runs: seq<EventRun>, p: nat, j: nat, k: nat)
    requires |cfg| > 0 && |parts| == |runs| + 1 && k <= |runs| && p < |parts[0]| && Closer(cfg, parts, runs, p, j, k)
    ensures parts[0][p].cur < |parts[0][p].procs| && j < |parts[0][p].procs|
    ensures LaunchesOf(cfg, runs, p, k) <= Wait(parts[0][p], j)
  {
    hide Wait;
    WaitNotNegative(parts[k][p], j);
  }
}
