/**
 * The scheduler put together: from processes to a major frame which is ready to be started.
 */
module Assembly {
  import opened Options
  import opened Scheduler
  import opened MajorFrame
  import M = Model
  import P = Phases
  import F = Frame
  import B = ScheduleBooks
  import C = Conservation

  /** A partition of one process with a fixed budget, before it has run. */
  ghost function Unrun(budget: int): M.Part {
    M.Part([M.Proc(budget, 0, Fixed(), 0, budget, false, false, 0, true, true)], 0, [])
  }

  method Alone(budget: int) returns (p: Partition)
    requires 0 < budget
    ensures fresh(p.Footprint()) && p.Valid() && P.Quiet(p.Snap()) && |p.processes| == 1
    ensures p.Snap() == Unrun(budget) && p.owner == null
    ensures C.Closed(p.Snap(), true)
  {
    var x := new Process(budget, 0, Fixed());
    x.Exec();
    p := new Partition([x]);
    B.FreshIsClosed(p.Snap(), true);
    assert p.Snap().procs == [x.Snap()];
  }

  function Fixed(): nat -> int {
    (n: nat) => 0
  }

  /** Two windows: the first serves both partitions, the second the best-effort one only. */
  ghost function Plan(first: int, second: int): seq<F.WinCfg> {
    [F.WinCfg(first, [F.SliceCfg(Some(0), Some(1))]), F.WinCfg(second, [F.SliceCfg(None, Some(1))])]
  }

  lemma PlanOk(first: int, second: int)
    requires first > 0 && second > 0
    ensures F.CfgOk(Plan(first, second), 2)
  {
  }

  /** The objects of such a frame: windows `v` and `w` with one slice each, `s` and `u`. */
  ghost predicate Built(f: MajorFrame, v: Window, w: Window, s: Slice, u: Slice, sc: Partition, be: Partition, first: int, second: int)
    reads v, w, s, u
  {
    && f.windows == [v, w] && f.partitions == [sc, be] && f.cfg == Plan(first, second)
    && v.length == first && w.length == second && v.slices == [s] && w.slices == [u]
    && s.window == v && s.sc == sc && s.be == be && u.window == w && u.sc == null && u.be == be
    && v.repr == {s} + sc.Footprint() + be.Footprint() && w.repr == {u} + be.Footprint()
    && sc.Footprint() !! be.Footprint() && {f as object, v, w, s, u} !! sc.Footprint() + be.Footprint()
    && v != w && s != u
  }

  lemma Parts(f: MajorFrame, v: Window, w: Window, s: Slice, u: Slice, sc: Partition, be: Partition, first: int, second: int)
    requires Built(f, v, w, s, u, sc, be, first, second)
    ensures f.PartitionsApart() && f.WindowWired(0) && f.WindowWired(1) && f.Apart(0, 1) && f.Apart(1, 0)
  {
    FirstWired(f, v, w, s, u, sc, be, first, second);
    SecondWired(f, v, w, s, u, sc, be, first, second);
  }

  lemma FirstWired(f: MajorFrame, v: Window, w: Window, s: Slice, u: Slice, sc: Partition, be: Partition, first: int, second: int)
    requires Built(f, v, w, s, u, sc, be, first, second)
    ensures f.WindowWired(0)
  {
    assert F.UsedAs(f.cfg[0], 0, M.Sc, 0) && F.UsedAs(f.cfg[0], 1, M.Be, 0);
  }

  lemma SecondWired(f: MajorFrame, v: Window, w: Window, s: Slice, u: Slice, sc: Partition, be: Partition, first: int, second: int)
    requires Built(f, v, w, s, u, sc, be, first, second)
    ensures f.WindowWired(1)
  {
    assert F.UsedAs(f.cfg[1], 1, M.Be, 0);
  }

  lemma Ready(f: MajorFrame, v: Window, w: Window, s: Slice, u: Slice, sc: Partition, be: Partition, first: int, second: int)
    requires first > 0 && second > 0 && Built(f, v, w, s, u, sc, be, first, second)
    requires sc.Valid() && be.Valid() && P.Quiet(sc.Snap()) && P.Quiet(be.Snap())
    requires f.SliceRests(s) && f.SliceRests(u) && !v.stopping && !w.stopping && sc.owner == null && be.owner == null
    ensures f.Stopped()
  {
    hide F.CfgOk, F.Unused, P.Quiet;
    PlanOk(first, second);
    Parts(f, v, w, s, u, sc, be, first, second);
  }

  lemma Means(f: MajorFrame, v: Window, w: Window, s: Slice, u: Slice, sc: Partition, be: Partition, first: int, second: int)
    requires Built(f, v, w, s, u, sc, be, first, second)
    ensures f.partitions == [sc, be] && f.windows == [v, w] && f.cfg == Plan(first, second)
    ensures f.Reach() <= {s, u} + sc.Footprint() + be.Footprint()
  {
  }

  twostate lemma NewReach(new f: MajorFrame, new s: Slice, new u: Slice, new sc: Partition, new be: Partition)
    requires f.Reach() <= {s, u} + sc.Footprint() + be.Footprint()
    requires fresh(s) && fresh(u) && fresh(sc.Footprint()) && fresh(be.Footprint())
    ensures fresh(f.Reach())
  {
  }

  /** A window of one slice. */
  method OneSlice(length: int, sc: Partition?, be: Partition) returns (w: Window, s: Slice)
    requires (sc != null ==> sc.Valid() && P.Quiet(sc.Snap()) && sc.owner == null) && be.Valid() && P.Quiet(be.Snap()) && be.owner == null
    requires PartFootprint(sc) !! be.Footprint()
    ensures fresh(w) && fresh(s) && w.slices == [s] && w.length == length && !w.stopping
    ensures w.repr == {s} + PartFootprint(sc) + be.Footprint()
    ensures s.window == w && s.sc == sc && s.be == be && !s.armed
    ensures s.runningProcess == null && s.runningPartition == null
  {
    hide P.Quiet, P.SliceOk;
    w := new Window(length);
    s := w.AddSlice(sc, be);
  }

  method TwoWindows(sc: Partition, be: Partition, first: int, second: int)
    returns (f: MajorFrame, ghost v: Window, ghost w: Window, ghost s: Slice, ghost u: Slice)
    requires first > 0 && second > 0
    requires sc.Valid() && be.Valid() && P.Quiet(sc.Snap()) && P.Quiet(be.Snap()) && sc.Footprint() !! be.Footprint()
    requires sc.owner == null && be.owner == null
    ensures fresh(f) && fresh(v) && fresh(w) && fresh(s) && fresh(u) && Built(f, v, w, s, u, sc, be, first, second)
    ensures f.Stopped() && f.currentWin == 0 && f.changes == 0 && f.began == 0
  {
    hide P.Quiet, M.PartOk, F.CfgOk, F.Unused, Plan;
    var a, b := OneSlice(first, sc, be);
    var c, d := OneSlice(second, null, be);
    v, w, s, u := a, c, b, d;
    f := new MajorFrame([a, c], Plan(first, second), [sc, be], 0);
    Ready(f, v, w, s, u, sc, be, first, second);
  }

  lemma AllBalanced(f: MajorFrame, sc: Partition, be: Partition)
    requires f.partitions == [sc, be] && C.Closed(sc.Snap(), true) && C.Closed(be.Snap(), true)
    ensures B.AllClosed(f.PartSnaps(), true) && f.PartSnaps() == [sc.Snap(), be.Snap()]
  {
    hide C.Closed;
  }

  /** With a partition of its own for the safety-critical process. */
  method Assemble(scBudget: int, beBudget: int, first: int, second: int) returns (f: MajorFrame)
    requires 0 < scBudget && 0 < beBudget && first > 0 && second > 0
    ensures f.cfg == Plan(first, second) && f.Stopped() && f.currentWin == 0 && f.changes == 0 && f.began == 0
    ensures f.PartSnaps() == [Unrun(scBudget), Unrun(beBudget)] && B.AllClosed(f.PartSnaps(), true)
    ensures fresh(f) && fresh(f.windows) && fresh(f.Reach())
  {
    hide P.Quiet, C.Closed, F.CfgOk, Unrun, Plan, Built, MajorFrame.Reach, MajorFrame.Stopped, MajorFrame.PartSnaps;
    var sc := Alone(scBudget);
    var be := Alone(beBudget);
    ghost var v, w, s, u;
    f, v, w, s, u := TwoWindows(sc, be, first, second);
    Means(f, v, w, s, u, sc, be, first, second);
    NewReach(f, s, u, sc, be);
    AllBalanced(f, sc, be);
  }

  /**
   * A frame whose windows share a best-effort partition is served for `n` windows: without jitter
   * no assertion fails, whatever the budgets and the lengths.
   */
  method ServeShared(scBudget: int, beBudget: int, first: int, second: int, n: nat)
    returns (ghost parts: seq<seq<M.Part>>, ghost runs: seq<F.WindowRun>)
    requires 0 < scBudget && 0 < beBudget && first > 0 && second > 0
    ensures |runs| == n && |parts| == n + 1 && parts[0] == [Unrun(scBudget), Unrun(beBudget)]
    ensures F.FrameRun(Plan(first, second), 0, parts, runs)
    ensures F.CfgOk(Plan(first, second), |parts[0]|)
    ensures F.TableAfter(Plan(first, second), parts[0], 0, n) == Some(parts[n])
  {
    hide F.FrameRun, F.CfgOk, F.TableAfter, Unrun, Plan, B.AllClosed;
    var f := Assemble(scBudget, beBudget, first, second);
    parts, runs := f.Serve(0, n, true);
  }
}
