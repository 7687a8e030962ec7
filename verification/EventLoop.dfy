/**
 * The objects driven by their event loop while processes signal and end: whatever arrives, each
 * window is a run of timeouts, signals and ends as the theorems about conservation speak of.
 */
module EventLoop {
  import opened Options
  import opened Scheduler
  import opened MajorFrame
  import M = Model
  import P = Phases
  import F = Frame
  import T = TimeTable
  import B = ScheduleBooks
  import C = Conservation
  import Progress

  /** In which slice of the current window, and for which role, or which partition otherwise. */
  datatype Origin = Here(i: nat, role: M.Role) | Elsewhere(p: nat)

  /** At `at` a process signals, or ends. */
  datatype Arrival = Arrival(at: int, origin: Origin, proc: nat, exits: bool)

  // ----- What can arrive -----

  /**
   * What comes of something which arrives at a window in state `w`, with timer `end`. A signal is
   * passed on if the partition is connected; as the code takes for granted, a process runs then.
   * Otherwise it is only noted.
   */
  function EventOf(w: M.Win, a: Arrival, end: int): (e: Option<P.Step>)
    ensures e.Some? ==> !e.value.Timeout? && (e.value.Complete? ==> e.value.now == a.at < end)
  {
    if a.at >= end || a.origin.Elsewhere? || a.origin.i >= |w.slices| then None
    else
      var i, role := a.origin.i, a.origin.role;
      var p := M.PartOf(w.slices[i], role);
      if p.None? || a.proc >= |p.value.procs| then None
      else if a.exits then Some(P.Exit(i, role, a.proc))
      else if role !in w.slices[i].linked then Some(P.Note(i, role, a.proc))
      else if w.slices[i].running then Some(P.Complete(i, role, a.proc, a.at))
      else None
  }

  /** The same, as the slices tell it. */
  function Arrives(w: Window, a: Arrival, end: int): (e: Option<P.Step>)
    reads w, w.slices, Sender(w, a)
  {
    if a.at >= end || Sender(w, a) == {} then None
    else
      var s := w.slices[a.origin.i];
      var p := s.Part(a.origin.role);
      if a.proc >= |p.processes| then None
      else if a.exits then Some(P.Exit(a.origin.i, a.origin.role, a.proc))
      else if p.owner == null then Some(P.Note(a.origin.i, a.origin.role, a.proc))
      else if s.runningProcess != null then Some(P.Complete(a.origin.i, a.origin.role, a.proc, a.at))
      else None
  }

  /** The partition of the process which has signalled or ended, if there is such a partition. */
  function Sender(w: Window, a: Arrival): (r: set<Partition>)
    reads w, w.slices
    ensures r != {} ==> a.origin.Here? && a.origin.i < |w.slices| && w.slices[a.origin.i].Part(a.origin.role) != null
  {
    if a.origin.Elsewhere? || a.origin.i >= |w.slices| then {}
    else
      var p := w.slices[a.origin.i].Part(a.origin.role);
      if p == null then {} else {p}
  }

  lemma ArrivesIs(w: Window, a: Arrival, end: int)
    requires w.Valid()
    ensures Arrives(w, a, end) == EventOf(w.Snap(), a, end)
    ensures Arrives(w, a, end).Some? ==> P.Enabled(w.Snap(), Arrives(w, a, end).value)
  {
    if a.origin.Here? && a.origin.i < |w.slices| {
      var s := w.slices[a.origin.i];
      assert s.Valid() && w.Snap().slices[a.origin.i] == s.Snap();
      if s.Part(a.origin.role) != null {
        s.LinkedMeans(a.origin.role);
      }
    }
  }

  predicate Uses(w: Window, p: Partition)
    reads w, w.slices
  {
    exists i :: 0 <= i < |w.slices| && (w.slices[i].sc == p || w.slices[i].be == p)
  }

  lemma NotUsed(f: MajorFrame, c: nat, p: nat)
    requires f.Layout() && c < |f.windows| && p < |f.partitions| && !Uses(f.windows[c], f.partitions[p])
    ensures F.Unused(f.cfg[c], p)
  {
    assert f.WindowWired(c);
    forall r, i
      ensures !F.UsedAs(f.cfg[c], p, r, i)
    {
      if F.UsedAs(f.cfg[c], p, r, i) {
        assert f.SliceWired(c, i);
        assert Uses(f.windows[c], f.partitions[p]);
      }
    }
  }

  // ----- One window -----

  lemma RunExtends(w0: M.Win, from: int, steps: seq<P.Step>, states: seq<M.Win>, e: P.Step, c: C.Clock)
    requires P.IsRun(w0, from, steps, states) && C.StepsInTime(steps, states, c)
    requires P.Enabled(states[|steps|], e) && C.StepInTime(e, states[|steps|], c)
    ensures var more := states + [P.Apply(states[|steps|], e)];
            P.IsRun(w0, from, steps + [e], more) && C.StepsInTime(steps + [e], more, c)
  {
    hide P.Idle, M.Start, P.Apply, P.Enabled, C.StepInTime, M.Shaped;
    var more, all := states + [P.Apply(states[|steps|], e)], steps + [e];
    forall k | 0 <= k < |all|
      ensures P.Enabled(more[k], all[k]) && more[k + 1] == P.Apply(more[k], all[k]) && C.StepInTime(all[k], more[k], c)
    {
      if k < |steps| {
        assert more[k] == states[k] && all[k] == steps[k] && more[k + 1] == states[k + 1];
      }
    }
  }

  /** The current window, which was started as `w0` at `from` when the partitions were `first`, so far. */
  ghost predicate Playing(f: MajorFrame, w0: M.Win, from: int, steps: seq<P.Step>, states: seq<M.Win>, c: C.Clock, first: seq<M.Part>)
    reads f, f.windows, f.Reach()
  {
    && f.WindowRuns(f.currentWin) && f.OnTime() && c.end == f.timeout
    && P.IsRun(w0, from, steps, states) && C.StepsInTime(steps, states, c)
    && states[|steps|] == f.windows[f.currentWin].Snap()
    && |first| == |f.partitions|
    && forall p :: 0 <= p < |first| && F.Unused(f.cfg[f.currentWin], p) ==> B.FlagsOnly(first[p], f.PartSnaps()[p])
  }

  lemma PlayingMeans(f: MajorFrame, w0: M.Win, from: int, steps: seq<P.Step>, states: seq<M.Win>, c: C.Clock, first: seq<M.Part>)
    requires Playing(f, w0, from, steps, states, c, first)
    ensures f.WindowRuns(f.currentWin) && f.OnTime() && c.end == f.timeout
    ensures f.currentWin < |f.windows| == |f.cfg| && f.windows[f.currentWin].Valid() && f.Layout() && f.PartsOk()
    ensures |states| == |steps| + 1 && states[|steps|] == f.windows[f.currentWin].Snap()
    ensures P.Inv(f.windows[f.currentWin].Snap()) && M.WinShaped(f.windows[f.currentWin].Snap())
    ensures P.IsRun(w0, from, steps, states) && C.StepsInTime(steps, states, c)
    ensures |first| == |f.partitions|
    ensures forall p :: 0 <= p < |first| && F.Unused(f.cfg[f.currentWin], p) ==> B.FlagsOnly(first[p], f.PartSnaps()[p])
    ensures f as object !in f.Reach() && forall k :: 0 <= k < |f.windows| ==> f.windows[k] as object != f && f as object !in f.windows[k].repr
    ensures f.windows[f.currentWin].repr <= f.Reach()
  {
    hide P.Inv, C.StepsInTime, F.Unused, B.FlagsOnly, MajorFrame.OnTime, MajorFrame.PartSnaps, P.Idle, M.Start, P.Enabled, P.Apply;
    f.RunsNotReached(f.currentWin);
  }

  method PlayHere(f: MajorFrame, e: P.Step, ghost w0: M.Win, ghost from: int, ghost steps: seq<P.Step>, ghost states: seq<M.Win>,
        ghost c: C.Clock, ghost first: seq<M.Part>)
    returns (ghost steps': seq<P.Step>, ghost states': seq<M.Win>)
    requires Playing(f, w0, from, steps, states, c, first) && f.currentWin < |f.windows| && f.windows[f.currentWin].Valid()
    requires P.Enabled(f.windows[f.currentWin].Snap(), e) && C.StepInTime(e, f.windows[f.currentWin].Snap(), c)
    modifies f.windows, f.Reach()
    ensures Playing(f, w0, from, steps', states', c, first) && f.SameLayout()
    ensures steps' == steps + [e] && |states'| == |steps'| + 1 && states <= states'
    ensures f.currentWin < |f.windows| && f.windows[f.currentWin].Valid()
    ensures f.windows[f.currentWin].Snap() == P.Apply(old(f.windows[f.currentWin].Snap()), e)
  {
    hide P.Inv, P.IsRun, P.Apply, P.Enabled, C.StepsInTime, C.StepInTime, F.Unused, B.FlagsOnly;
    hide MajorFrame.OnTime, MajorFrame.WindowRuns, MajorFrame.PartSnaps, MajorFrame.Layout, MajorFrame.PartsOk, MajorFrame.Reach;
    hide Window.Valid, Window.Snap;
    PlayingMeans(f, w0, from, steps, states, c, first);
    RunExtends(w0, from, steps, states, e, c);
    f.Dispatch(e);
    steps', states' := steps + [e], states + [f.windows[f.currentWin].Snap()];
    PlayingAgain(f, w0, from, steps', states', c, first);
  }

  lemma PlayingAgain(f: MajorFrame, w0: M.Win, from: int, steps: seq<P.Step>, states: seq<M.Win>, c: C.Clock, first: seq<M.Part>)
    requires f.WindowRuns(f.currentWin) && f.OnTime() && c.end == f.timeout
    requires f.currentWin < |f.windows| && f.windows[f.currentWin].Valid()
    requires P.IsRun(w0, from, steps, states) && C.StepsInTime(steps, states, c)
    requires states[|steps|] == f.windows[f.currentWin].Snap() && |first| == |f.partitions| && f.currentWin < |f.cfg|
    requires forall p :: 0 <= p < |first| && F.Unused(f.cfg[f.currentWin], p) ==> B.FlagsOnly(first[p], f.PartSnaps()[p])
    ensures Playing(f, w0, from, steps, states, c, first)
  {
    hide P.Inv, P.IsRun, C.StepsInTime, F.Unused, B.FlagsOnly, MajorFrame.OnTime, MajorFrame.PartSnaps;
  }

  lemma FlagsAgain(p: M.Part, q: M.Part, r: M.Part)
    requires B.FlagsOnly(p, q) && B.FlagsOnly(q, r)
    ensures B.FlagsOnly(p, r)
  {
  }

  lemma NoFlags(p: M.Part)
    ensures B.FlagsOnly(p, p)
  {
  }

  method PlayElsewhere(f: MajorFrame, part: Partition, ghost p: nat, j: nat, exits: bool, ghost w0: M.Win, ghost from: int,
        ghost steps: seq<P.Step>, ghost states: seq<M.Win>, ghost c: C.Clock, ghost first: seq<M.Part>)
    requires Playing(f, w0, from, steps, states, c, first) && f.currentWin < |f.windows|
    requires p < |f.partitions| && part == f.partitions[p] && j < |part.processes| && !Uses(f.windows[f.currentWin], part)
    modifies f.Reach()
    ensures Playing(f, w0, from, steps, states, c, first) && f.SameLayout()
    ensures |f.PartSnaps()| == |old(f.PartSnaps())| > p
    ensures var q := old(f.PartSnaps())[p];
            && j < |q.procs|
            && var x := if exits then q.procs[j].(spawned := false) else q.procs[j].(signalled := true);
               f.PartSnaps() == old(f.PartSnaps())[p := q.(procs := q.procs[j := x])]
  {
    hide P.Inv, P.IsRun, P.Apply, P.Enabled, C.StepsInTime, C.StepInTime, F.Unused, B.FlagsOnly;
    hide MajorFrame.OnTime, MajorFrame.WindowRuns, MajorFrame.PartSnaps, MajorFrame.Layout, MajorFrame.PartsOk, MajorFrame.Reach;
    hide Window.Valid, Window.Snap;
    PlayingMeans(f, w0, from, steps, states, c, first);
    NotUsed(f, f.currentWin, p);
    ProcessReached(f, p, j);
    ghost var was := f.PartSnaps();
    f.DispatchElsewhere(part, p, j, exits);
    forall q | 0 <= q < |first| && F.Unused(f.cfg[f.currentWin], q)
      ensures B.FlagsOnly(first[q], f.PartSnaps()[q])
    {
      if q == p {
        FlagsAgain(first[q], was[q], f.PartSnaps()[q]);
      }
    }
    PlayingAgain(f, w0, from, steps, states, c, first);
  }

  lemma ProcessReached(f: MajorFrame, p: nat, j: nat)
    requires p < |f.partitions| && j < |f.partitions[p].processes|
    ensures f.partitions[p].processes[j] in f.Reach()
  {
    assert f.partitions[p].processes[j] in f.partitions[p].Footprint();
  }

  ghost function Add(steps: seq<P.Step>, e: Option<P.Step>): seq<P.Step> {
    if e.None? then steps else steps + [e.value]
  }

  /** An event which arrives at a partition which the window does not use. */
  ghost predicate Away(f: MajorFrame, a: Arrival)
    reads f, f.windows, f.Reach()
  {
    && a.at < f.timeout && a.origin.Elsewhere? && a.origin.p < |f.partitions| && f.currentWin < |f.windows|
    && a.proc < |f.partitions[a.origin.p].processes| && !Uses(f.windows[f.currentWin], f.partitions[a.origin.p])
  }

  /** What arrives before the end of the window is handled, unless there is nobody it could come from. */
  method Handle(f: MajorFrame, a: Arrival, parts: seq<Partition>, ghost w0: M.Win, ghost from: int, ghost steps: seq<P.Step>,
        ghost states: seq<M.Win>, ghost c: C.Clock, ghost first: seq<M.Part>)
    returns (ghost steps': seq<P.Step>, ghost states': seq<M.Win>)
    requires Playing(f, w0, from, steps, states, c, first) && parts == f.partitions && C.OnGrid(a.at, c)
    requires |states| == |steps| + 1
    modifies f.windows, f.Reach()
    ensures Playing(f, w0, from, steps', states', c, first) && f.SameLayout()
    ensures steps' == Add(steps, EventOf(states[|steps|], a, c.end)) && |states'| == |steps'| + 1 && states <= states'
    ensures old(Away(f, a)) ==>
              && |f.PartSnaps()| == |old(f.PartSnaps())| > a.origin.p
              && var p := old(f.PartSnaps())[a.origin.p];
                 && a.proc < |p.procs|
                 && var x := if a.exits then p.procs[a.proc].(spawned := false) else p.procs[a.proc].(signalled := true);
                    f.PartSnaps() == old(f.PartSnaps())[a.origin.p := p.(procs := p.procs[a.proc := x])]
  {
    hide P.Inv, P.IsRun, P.Apply, P.Enabled, C.StepsInTime, C.OnGrid, F.Unused, Playing, Uses;
    hide MajorFrame.OnTime, MajorFrame.WindowRuns, MajorFrame.PartSnaps, MajorFrame.Layout, MajorFrame.PartsOk, MajorFrame.Reach;
    hide Window.Valid, Window.Snap;
    PlayingMeans(f, w0, from, steps, states, c, first);
    steps', states' := steps, states;
    var w := f.windows[f.currentWin];
    var e := Arrives(w, a, f.timeout);
    ArrivesIs(w, a, f.timeout);
    hide EventOf, Arrives;
    if e.Some? {
      InTime(w, a, f.timeout, c);
      steps', states' := PlayHere(f, e.value, w0, from, steps, states, c, first);
    } else if a.at < f.timeout && a.origin.Elsewhere? {
      var p := a.origin.p;
      if p < |parts| && a.proc < |parts[p].processes| && !Uses(w, parts[p]) {
        PlayElsewhere(f, parts[p], p, a.proc, a.exits, w0, from, steps, states, c, first);
      }
    }
  }

  lemma InTime(w: Window, a: Arrival, end: int, c: C.Clock)
    requires w.Valid() && Arrives(w, a, end).Some? && c.end == end && C.OnGrid(a.at, c)
    ensures C.StepInTime(Arrives(w, a, end).value, w.Snap(), c)
    ensures a.origin.Here?
  {
    hide Window.Snap, Window.Valid;
  }

  /** Nothing but timers was served in between. */
  ghost predicate OnlyTimers(steps: seq<P.Step>, states: seq<M.Win>, steps': seq<P.Step>, states': seq<M.Win>) {
    steps <= steps' && states <= states' && forall n :: |steps| <= n < |steps'| ==> steps'[n].Timeout?
  }

  lemma TimersAgain(a: seq<P.Step>, s: seq<M.Win>, b: seq<P.Step>, t: seq<M.Win>, c: seq<P.Step>, u: seq<M.Win>)
    requires OnlyTimers(a, s, b, t) && OnlyTimers(b, t, c, u)
    ensures OnlyTimers(a, s, c, u)
  {
    forall n | |a| <= n < |c|
      ensures c[n].Timeout?
    {
      if n < |b| {
        assert c[n] == b[n];
      }
    }
  }

  /** Serves the next timer of a slice, unless none expires before `limit`. */
  method PlayTimer(f: MajorFrame, limit: int, ghost w0: M.Win, ghost from: int, ghost steps: seq<P.Step>, ghost states: seq<M.Win>,
        ghost c: C.Clock, ghost first: seq<M.Part>)
    returns (more: bool, ghost steps': seq<P.Step>, ghost states': seq<M.Win>)
    requires Playing(f, w0, from, steps, states, c, first) && f.currentWin < |f.windows| && f.windows[f.currentWin].Valid()
    requires limit <= f.timeout
    modifies f.windows, f.Reach()
    ensures Playing(f, w0, from, steps', states', c, first) && f.SameLayout() && |states'| == |steps'| + 1
    ensures f.currentWin < |f.windows| && f.windows[f.currentWin].Valid()
    ensures !more ==> T.Over(states'[|steps'|], limit)
    ensures more ==> f.WorkLeft() < old(f.WorkLeft())
    ensures |states| == |steps| + 1 && OnlyTimers(steps, states, steps', states')
  {
    hide P.Inv, P.IsRun, P.Apply, P.Enabled, C.StepsInTime, F.Unused, Playing, M.Start;
    hide MajorFrame.OnTime, MajorFrame.WindowRuns, MajorFrame.PartSnaps, MajorFrame.Layout, MajorFrame.PartsOk, MajorFrame.Reach;
    hide Window.Valid, Window.Snap;
    hide MajorFrame.FirstDue, Progress.Work;
    PlayingMeans(f, w0, from, steps, states, c, first);
    var w := f.windows[f.currentWin];
    f.FirstDueIsDue(w);
    var i := f.FirstDue(w, |w.slices|);
    TimeoutIs(w, i);
    if i.None? || w.slices[i.value].timeout >= limit {
      return false, steps, states;
    }
    f.DueIsEnabled(w.Snap(), i.value, f.timeout);
    steps', states' := PlayHere(f, P.Timeout(i.value), w0, from, steps, states, c, first);
    more := true;
  }

  lemma TimeoutIs(w: Window, i: Option<nat>)
    requires w.Valid()
    ensures i.Some? && i.value < |w.slices| ==> w.slices[i.value].timeout == w.Snap().slices[i.value].timeout
  {
  }

  /** Serves the timers of the slices which expire before `limit`. */
  method PlayTimers(f: MajorFrame, limit: int, ghost w0: M.Win, ghost from: int, ghost steps: seq<P.Step>, ghost states: seq<M.Win>,
        ghost c: C.Clock, ghost first: seq<M.Part>)
    returns (ghost steps': seq<P.Step>, ghost states': seq<M.Win>)
    requires Playing(f, w0, from, steps, states, c, first) && f.currentWin < |f.windows| && f.windows[f.currentWin].Valid()
    requires limit <= c.end
    modifies f.windows, f.Reach()
    ensures Playing(f, w0, from, steps', states', c, first) && f.SameLayout()
    ensures f.currentWin < |f.windows| && f.windows[f.currentWin].Valid()
    ensures |states'| == |steps'| + 1 && T.Over(states'[|steps'|], limit)
    ensures OnlyTimers(steps, states, steps', states')
  {
    hide OnlyTimers;
    hide P.Inv, P.IsRun, P.Apply, P.Enabled, C.StepsInTime, F.Unused, Playing, M.Start, T.Over, T.Due;
    hide MajorFrame.OnTime, MajorFrame.WindowRuns, MajorFrame.PartSnaps, MajorFrame.Layout, MajorFrame.PartsOk, MajorFrame.Reach;
    hide Window.Valid, Window.Snap;
    hide MajorFrame.WorkLeft, MajorFrame.FirstDue;
    steps', states' := steps, states;
    NoTimers(steps, states);
    PlayingMeans(f, w0, from, steps, states, c, first);
    var more := true;
    while more
      invariant Playing(f, w0, from, steps', states', c, first) && f.SameLayout()
      invariant f.currentWin < |f.windows| && f.windows[f.currentWin].Valid() && |states'| == |steps'| + 1
      invariant !more ==> T.Over(states'[|steps'|], limit)
      invariant OnlyTimers(steps, states, steps', states')
      decreases more, f.WorkLeft()
    {
      f.SameReach();
      PlayingMeans(f, w0, from, steps', states', c, first);
      ghost var a, s := steps', states';
      more, steps', states' := PlayTimer(f, limit, w0, from, steps', states', c, first);
      TimersAgain(steps, states, a, s, steps', states');
    }
  }

  lemma NoTimers(steps: seq<P.Step>, states: seq<M.Win>)
    ensures OnlyTimers(steps, states, steps, states)
  {
  }

  /**
   * What becomes of the first of a script: each has its place in the run. No timer is due earlier
   * there, and the event there is what comes of it, if anything does. All other events are timers.
   */
  ghost predicate Accounted(script: seq<Arrival>, places: seq<nat>, steps: seq<P.Step>, states: seq<M.Win>, end: int) {
    && |places| <= |script| && |states| == |steps| + 1
    && (forall m :: 0 <= m < |places| ==> Placed(script[m], places[m], steps, states, end))
    && (forall m, l :: 0 <= m < l < |places| ==>
          places[m] <= places[l] && (places[m] < |states| && EventOf(states[places[m]], script[m], end).Some? ==> places[m] < places[l]))
    && (forall n :: 0 <= n < |steps| && !steps[n].Timeout? ==> exists m :: 0 <= m < |places| && places[m] == n)
  }

  ghost predicate Placed(a: Arrival, n: nat, steps: seq<P.Step>, states: seq<M.Win>, end: int) {
    && n <= |steps| && |states| == |steps| + 1 && T.Over(states[n], Earlier(a.at, end))
    && (EventOf(states[n], a, end).Some? ==> n < |steps| && EventOf(states[n], a, end) == Some(steps[n]))
  }

  lemma TimersAccounted(script: seq<Arrival>, places: seq<nat>, steps: seq<P.Step>, states: seq<M.Win>, end: int,
        steps': seq<P.Step>, states': seq<M.Win>)
    requires Accounted(script, places, steps, states, end) && OnlyTimers(steps, states, steps', states') && |states'| == |steps'| + 1
    ensures Accounted(script, places, steps', states', end)
  {
    hide EventOf, T.Over;
    forall m | 0 <= m < |places|
      ensures places[m] < |states| && states'[places[m]] == states[places[m]] && Placed(script[m], places[m], steps', states', end)
    {
      assert Placed(script[m], places[m], steps, states, end);
    }
    forall n | 0 <= n < |steps'| && !steps'[n].Timeout?
      ensures exists m :: 0 <= m < |places| && places[m] == n
    {
      assert n < |steps| && steps'[n] == steps[n];
    }
  }

  lemma ArrivalAccounted(script: seq<Arrival>, places: seq<nat>, steps: seq<P.Step>, states: seq<M.Win>, end: int, states': seq<M.Win>)
    requires Accounted(script, places, steps, states, end) && |places| < |script|
    requires T.Over(states[|steps|], Earlier(script[|places|].at, end))
    requires var steps' := Add(steps, EventOf(states[|steps|], script[|places|], end)); states <= states' && |states'| == |steps'| + 1
    ensures Accounted(script, places + [|steps|], Add(steps, EventOf(states[|steps|], script[|places|], end)), states', end)
  {
    hide EventOf, T.Over;
    var steps' := Add(steps, EventOf(states[|steps|], script[|places|], end));
    var all := places + [|steps|];
    assert states'[|steps|] == states[|steps|];
    forall m | 0 <= m < |all|
      ensures all[m] < |states| && states'[all[m]] == states[all[m]] && Placed(script[m], all[m], steps', states', end)
    {
      if m < |places| {
        assert Placed(script[m], places[m], steps, states, end);
      }
    }
    forall n | 0 <= n < |steps'| && !steps'[n].Timeout?
      ensures exists m :: 0 <= m < |all| && all[m] == n
    {
      if n < |steps| {
        var m :| 0 <= m < |places| && places[m] == n;
        assert all[m] == n;
      } else {
        assert all[|places|] == n;
      }
    }
  }

  /**
   * Timers and arrivals are handled in turn: before something which arrives the timers which have
   * expired by then, and in the end those which expire before the window's own.
   */
  method PlayWindow(f: MajorFrame, script: seq<Arrival>, parts: seq<Partition>, ghost w0: M.Win, ghost from: int, ghost c: C.Clock,
        ghost first: seq<M.Part>)
    returns (ghost steps: seq<P.Step>, ghost states: seq<M.Win>, ghost places: seq<nat>)
    requires M.WinShaped(w0) && Playing(f, w0, from, [], [M.Start(w0, from)], c, first) && parts == f.partitions
    requires forall k :: 0 <= k < |script| ==> C.OnGrid(script[k].at, c)
    modifies f.windows, f.Reach()
    ensures Playing(f, w0, from, steps, states, c, first) && f.SameLayout()
    ensures |states| == |steps| + 1 && T.Over(states[|steps|], c.end)
    ensures |places| == |script| && Accounted(script, places, steps, states, c.end)
  {
    hide P.Inv, P.IsRun, P.Apply, P.Enabled, C.StepsInTime, C.OnGrid, F.Unused, Playing, M.Start, T.Over, T.Due;
    hide Accounted, OnlyTimers, EventOf, Earlier, Add, Away;
    hide MajorFrame.OnTime, MajorFrame.WindowRuns, MajorFrame.PartSnaps, MajorFrame.Layout, MajorFrame.PartsOk, MajorFrame.Reach;
    hide Window.Valid, Window.Snap;
    steps, states, places := [], [M.Start(w0, from)], [];
    NothingYet(script, M.Start(w0, from), c.end);
    var k := 0;
    while k < |script|
      invariant k == |places| <= |script| && Playing(f, w0, from, steps, states, c, first) && f.SameLayout()
      invariant |states| == |steps| + 1 && Accounted(script, places, steps, states, c.end)
    {
      f.SameReach();
      PlayingMeans(f, w0, from, steps, states, c, first);
      ghost var a, s := steps, states;
      steps, states := PlayTimers(f, Earlier(script[k].at, f.timeout), w0, from, steps, states, c, first);
      TimersAccounted(script, places, a, s, c.end, steps, states);
      f.SameReach();
      a, s := steps, states;
      steps, states := Handle(f, script[k], parts, w0, from, steps, states, c, first);
      ArrivalAccounted(script, places, a, s, c.end, states);
      places := places + [|a|];
      k := k + 1;
    }
    f.SameReach();
    PlayingMeans(f, w0, from, steps, states, c, first);
    ghost var a, s := steps, states;
    steps, states := PlayTimers(f, f.timeout, w0, from, steps, states, c, first);
    TimersAccounted(script, places, a, s, c.end, steps, states);
  }

  lemma NothingYet(script: seq<Arrival>, w: M.Win, end: int)
    ensures Accounted(script, [], [], [w], end)
  {
  }

  function Earlier(a: int, b: int): (r: int)
    ensures r <= a && r <= b
  {
    if a < b then a else b
  }

  // ----- The schedule -----

  ghost predicate Booked(cfg: seq<F.WinCfg>, t0: int, parts: seq<seq<M.Part>>, runs: seq<B.EventRun>, exact: bool, w0: M.Win) {
    && B.EventfulRun(cfg, t0, parts, runs, exact) && B.AllClosed(parts[0], exact)
    && P.Idle(w0) && M.WinShaped(w0)
    && F.WinCfgOk(cfg[F.WindowAt(|cfg|, |runs|)], |parts[|runs|]|) && F.Wired(w0, cfg[F.WindowAt(|cfg|, |runs|)], parts[|runs|])
  }

  lemma BookedMeans(cfg: seq<F.WinCfg>, t0: int, parts: seq<seq<M.Part>>, runs: seq<B.EventRun>, exact: bool, w0: M.Win)
    requires Booked(cfg, t0, parts, runs, exact, w0)
    ensures |cfg| > 0 && |parts| == |runs| + 1 && P.Idle(w0) && M.WinShaped(w0)
    ensures F.WinCfgOk(cfg[F.WindowAt(|cfg|, |runs|)], |parts[|runs|]|)
    ensures F.Wired(w0, cfg[F.WindowAt(|cfg|, |runs|)], parts[|runs|]) && B.AllClosed(parts[|runs|], exact)
    ensures F.WindowStart(cfg, t0, |runs| + 1) == F.WindowStart(cfg, t0, |runs|) + M.Ms(cfg[F.WindowAt(|cfg|, |runs|)].length)
    ensures F.WindowStart(cfg, t0, |runs|) < F.WindowStart(cfg, t0, |runs| + 1)
  {
    hide P.Idle, F.Wired, B.Plays, B.AllClosed, F.WindowAt, F.WinCfgOk, F.CfgOk;
    B.ScheduleKeepsBooks(cfg, t0, parts, runs, exact, |runs|);
    B.LengthIsPositive(cfg[F.WindowAt(|cfg|, |runs|)], |parts[|runs|]|);
  }

  /** The window which was played can be stopped: the assertions about remainders hold. */
  lemma EndsWell(cfg: seq<F.WinCfg>, t0: int, parts: seq<seq<M.Part>>, runs: seq<B.EventRun>, exact: bool, w0: M.Win,
        steps: seq<P.Step>, states: seq<M.Win>)
    requires Booked(cfg, t0, parts, runs, exact, w0) && |cfg| > 0 && |states| == |steps| + 1
    requires var c := B.ClockOf(exact, t0, F.WindowStart(cfg, t0, |runs| + 1));
             && P.IsRun(w0, F.WindowStart(cfg, t0, |runs|), steps, states) && C.StepsInTime(steps, states, c)
             && T.Over(states[|steps|], c.end)
    ensures F.StopsWell(states[|steps|], F.WindowStart(cfg, t0, |runs| + 1))
    ensures forall i :: 0 <= i < |states[|steps|].slices| ==> C.NotOverdue(states[|steps|].slices[i], F.WindowStart(cfg, t0, |runs| + 1))
  {
    hide P.Idle, F.Wired, B.AllClosed, F.WindowAt, F.WinCfgOk, F.CfgOk, P.IsRun, C.StepsInTime, C.WinBooks, P.StopFits, P.Inv, F.WindowStart;
    hide Booked;
    BookedMeans(cfg, t0, parts, runs, exact, w0);
    var c := B.ClockOf(exact, t0, F.WindowStart(cfg, t0, |runs| + 1));
    B.StartOnGrid(cfg, t0, |runs|);
    B.StartOnGrid(cfg, t0, |runs| + 1);
    B.OpensBalanced(w0, cfg[F.WindowAt(|cfg|, |runs|)], parts[|runs|], c);
    C.RunKeepsBooks(w0, F.WindowStart(cfg, t0, |runs|), steps, states, |steps|, c);
    C.StopBooks(states[|steps|], c);
  }

  lemma NextBooked(cfg: seq<F.WinCfg>, t0: int, parts: seq<seq<M.Part>>, runs: seq<B.EventRun>, exact: bool, w0: M.Win,
        steps: seq<P.Step>, states: seq<M.Win>, mid: seq<M.Part>, next: M.Win)
    requires Booked(cfg, t0, parts, runs, exact, w0) && |cfg| > 0 && |parts| == |runs| + 1 && |states| == |steps| + 1
    requires var end := F.WindowStart(cfg, t0, |runs| + 1);
             var last := states[|steps|];
             && P.IsRun(w0, F.WindowStart(cfg, t0, |runs|), steps, states)
             && C.StepsInTime(steps, states, B.ClockOf(exact, t0, end))
             && M.WinShaped(last) && (forall i :: 0 <= i < |last.slices| ==> C.NotOverdue(last.slices[i], end))
             && |mid| == |parts[|runs|]| && F.WinCfgOk(cfg[F.WindowAt(|cfg|, |runs|)], |mid|)
             && F.Wired(M.Stop(last, end), cfg[F.WindowAt(|cfg|, |runs|)], mid)
    requires forall p :: 0 <= p < |mid| && F.Unused(cfg[F.WindowAt(|cfg|, |runs|)], p) ==> B.FlagsOnly(parts[|runs|][p], mid[p])
    requires F.WinCfgOk(cfg[F.WindowAt(|cfg|, |runs| + 1)], |mid|) && F.Wired(next, cfg[F.WindowAt(|cfg|, |runs| + 1)], mid)
    requires P.Idle(next) && M.WinShaped(next)
    ensures var run := B.EventRun(w0, steps, states, M.Stop(states[|steps|], F.WindowStart(cfg, t0, |runs| + 1)));
            Booked(cfg, t0, parts + [mid], runs + [run], exact, next)
  {
    hide P.Idle, F.Wired, B.AllClosed, F.WindowAt, F.WinCfgOk, F.CfgOk, P.IsRun, C.StepsInTime, F.WindowStart, F.Unused, B.FlagsOnly;
    hide M.Stop, C.NotOverdue;
    BookedMeans(cfg, t0, parts, runs, exact, w0);
    var end := F.WindowStart(cfg, t0, |runs| + 1);
    var run := B.EventRun(w0, steps, states, M.Stop(states[|steps|], end));
    assert B.Plays(cfg[F.WindowAt(|cfg|, |runs|)], parts[|runs|], mid, F.WindowStart(cfg, t0, |runs|), run, B.ClockOf(exact, t0, end));
    RunsOn(cfg, t0, parts, runs, exact, mid, run);
    assert (parts + [mid])[0] == parts[0] && (parts + [mid])[|runs + [run]|] == mid;
  }

  lemma RunsOn(cfg: seq<F.WinCfg>, t0: int, parts: seq<seq<M.Part>>, runs: seq<B.EventRun>, exact: bool, mid: seq<M.Part>, run: B.EventRun)
    requires B.EventfulRun(cfg, t0, parts, runs, exact)
    requires B.Plays(cfg[F.WindowAt(|cfg|, |runs|)], parts[|runs|], mid, F.WindowStart(cfg, t0, |runs|), run,
                     B.ClockOf(exact, t0, F.WindowStart(cfg, t0, |runs| + 1)))
    ensures B.EventfulRun(cfg, t0, parts + [mid], runs + [run], exact)
  {
    hide B.Plays, F.WindowAt, F.WindowStart, F.CfgOk, B.ClockOf;
    var more, all := parts + [mid], runs + [run];
    forall k | 0 <= k < |all|
      ensures B.Plays(cfg[F.WindowAt(|cfg|, k)], more[k], more[k + 1], F.WindowStart(cfg, t0, k), all[k],
                      B.ClockOf(exact, t0, F.WindowStart(cfg, t0, k + 1)))
    {
      if k < |runs| {
        assert more[k] == parts[k] && more[k + 1] == parts[k + 1] && all[k] == runs[k];
      }
    }
  }

  /** The window `w0` has just been started, and everything else is as it was at the change of window. */
  ghost predicate Underway(f: MajorFrame, parts: seq<seq<M.Part>>, runs: seq<B.EventRun>, exact: bool, w0: M.Win)
    reads f, f.windows, f.Reach()
  {
    && f.WindowRuns(f.currentWin) && f.OnTime() && f.changes == |runs|
    && Booked(f.cfg, f.began, parts, runs, exact, w0)
    && f.windows[f.currentWin].Snap() == M.Start(w0, F.WindowStart(f.cfg, f.began, |runs|))
    && |parts| == |runs| + 1 && |parts[|runs|]| == |f.partitions|
    && forall p :: 0 <= p < |f.partitions| && F.Unused(f.cfg[f.currentWin], p) ==> f.PartSnaps()[p] == parts[|runs|][p]
  }

  lemma UnderwayMeans(f: MajorFrame, parts: seq<seq<M.Part>>, runs: seq<B.EventRun>, exact: bool, w0: M.Win)
    requires Underway(f, parts, runs, exact, w0)
    ensures f.WindowRuns(f.currentWin) && f.OnTime() && f.currentWin < |f.windows| == |f.cfg| && f.windows[f.currentWin].Valid()
    ensures |parts| == |runs| + 1 && |parts[|runs|]| == |f.partitions| && f.changes == |runs| && |f.cfg| > 0
    ensures Booked(f.cfg, f.began, parts, runs, exact, w0) && M.WinShaped(w0)
    ensures f.timeout == F.WindowStart(f.cfg, f.began, |runs| + 1) && f.currentWin == F.WindowAt(|f.cfg|, |runs|)
    ensures F.WinCfgOk(f.cfg[f.currentWin], |f.partitions|) && F.WinCfgOk(f.cfg[F.WindowAt(|f.cfg|, |runs| + 1)], |f.partitions|)
  {
    hide P.Inv, P.Idle, M.Start, MajorFrame.PartsOk, F.WindowAt, Booked, F.WindowStart, MajorFrame.PartSnaps, F.Unused, F.WinCfgOk;
    BookedMeans(f.cfg, f.began, parts, runs, exact, w0);
    f.RunsNotReached(f.currentWin);
    F.WindowIsOk(f.cfg, |f.partitions|, F.WindowAt(|f.cfg|, |runs|));
    F.WindowIsOk(f.cfg, |f.partitions|, F.WindowAt(|f.cfg|, |runs| + 1));
  }

  lemma PlayingAtFirst(f: MajorFrame, parts: seq<seq<M.Part>>, runs: seq<B.EventRun>, exact: bool, w0: M.Win)
    requires Underway(f, parts, runs, exact, w0)
    ensures M.WinShaped(w0) && |f.cfg| > 0 && |parts| == |runs| + 1
    ensures var from, c := F.WindowStart(f.cfg, f.began, |runs|), B.ClockOf(exact, f.began, F.WindowStart(f.cfg, f.began, |runs| + 1));
            Playing(f, w0, from, [], [M.Start(w0, from)], c, parts[|runs|])
  {
    hide P.Inv, M.Start, MajorFrame.PartsOk, F.WindowAt, F.WindowStart, MajorFrame.PartSnaps, F.Unused, B.FlagsOnly, P.Idle;
    hide MajorFrame.WindowRuns, MajorFrame.OnTime, Booked;
    UnderwayMeans(f, parts, runs, exact, w0);
    BookedMeans(f.cfg, f.began, parts, runs, exact, w0);
    forall p | 0 <= p < |f.partitions| && F.Unused(f.cfg[f.currentWin], p)
      ensures B.FlagsOnly(parts[|runs|][p], f.PartSnaps()[p])
    {
      NoFlags(parts[|runs|][p]);
    }
    var from := F.WindowStart(f.cfg, f.began, |runs|);
    var c := B.ClockOf(exact, f.began, F.WindowStart(f.cfg, f.began, |runs| + 1));
    PlayingAgain(f, w0, from, [], [M.Start(w0, from)], c, parts[|runs|]);
  }

  /** One window is played to its end and the next one started. */
  method PlayNext(f: MajorFrame, script: seq<Arrival>, objs: seq<Partition>, ghost parts: seq<seq<M.Part>>,
        ghost runs: seq<B.EventRun>, ghost exact: bool, ghost w0: M.Win)
    returns (ghost parts': seq<seq<M.Part>>, ghost runs': seq<B.EventRun>, ghost next: M.Win, ghost places: seq<nat>)
    requires Underway(f, parts, runs, exact, w0) && objs == f.partitions
    requires forall k :: 0 <= k < |script| ==> C.OnGrid(script[k].at, B.ClockOf(exact, f.began, 0))
    modifies f, f.windows, f.Reach()
    ensures Underway(f, parts', runs', exact, next) && f.SameLayout() && f.began == old(f.began)
    ensures |runs'| == |runs| + 1 && |parts'| == |runs'| + 1 && |parts| > 0 && parts'[0] == parts[0]
    ensures runs <= runs' && |places| == |script|
    ensures Accounted(script, places, runs'[|runs|].steps, runs'[|runs|].states, F.WindowStart(f.cfg, f.began, |runs| + 1))
  {
    hide Accounted;
    hide P.Inv, P.Idle, P.IsRun, C.StepsInTime, F.Unused, F.Wired, F.WinCfgOk, F.CfgOk, M.Start, M.Stop, T.Over, F.StopsWell, C.NotOverdue;
    hide F.WindowAt, F.WindowStart, Playing, Booked, Underway, B.FlagsOnly, M.Shaped;
    hide MajorFrame.OnTime, MajorFrame.WindowRuns, MajorFrame.PartSnaps, MajorFrame.Layout, MajorFrame.PartsOk, MajorFrame.Reach;
    hide Window.Valid, Window.Snap;
    UnderwayMeans(f, parts, runs, exact, w0);
    PlayingAtFirst(f, parts, runs, exact, w0);
    ghost var from := F.WindowStart(f.cfg, f.began, |runs|);
    ghost var c := B.ClockOf(exact, f.began, F.WindowStart(f.cfg, f.began, |runs| + 1));
    ghost var steps, states;
    steps, states, places := PlayWindow(f, script, objs, w0, from, c, parts[|runs|]);
    f.SameReach();
    PlayingMeans(f, w0, from, steps, states, c, parts[|runs|]);
    EndsWell(f.cfg, f.began, parts, runs, exact, w0, steps, states);
    f.FitsAtEnd(states[|steps|], f.timeout);
    ghost var mid;
    var late;
    late, mid, next := f.TimeoutCb();
    f.OnTimeMeans();
    parts', runs' := parts + [mid], runs + [B.EventRun(w0, steps, states, M.Stop(states[|steps|], c.end))];
    NextBooked(f.cfg, f.began, parts, runs, exact, w0, steps, states, mid, next);
    UnderwayAgain(f, parts', runs', exact, next);
  }

  lemma UnderwayAgain(f: MajorFrame, parts: seq<seq<M.Part>>, runs: seq<B.EventRun>, exact: bool, w0: M.Win)
    requires f.WindowRuns(f.currentWin) && f.OnTime() && f.changes == |runs| && M.WinShaped(w0)
    requires Booked(f.cfg, f.began, parts, runs, exact, w0) && f.currentWin < |f.windows| && f.windows[f.currentWin].Valid()
    requires |f.cfg| > 0 && f.windows[f.currentWin].Snap() == M.Start(w0, F.WindowStart(f.cfg, f.began, |runs|))
    requires |parts| == |runs| + 1 && |parts[|runs|]| == |f.partitions| && f.currentWin < |f.cfg|
    requires forall p :: 0 <= p < |f.partitions| && F.Unused(f.cfg[f.currentWin], p) ==> f.PartSnaps()[p] == parts[|runs|][p]
    ensures Underway(f, parts, runs, exact, w0)
  {
    hide P.Inv, M.Start, MajorFrame.PartsOk, F.WindowAt, F.WindowStart, MajorFrame.PartSnaps, F.Unused, MajorFrame.OnTime, Booked;
  }

  /** Everything which arrives in a window is handled there, in order. */
  ghost predicate AllAccounted(cfg: seq<F.WinCfg>, t: int, scripts: seq<seq<Arrival>>, places: seq<seq<nat>>, runs: seq<B.EventRun>) {
    && |places| == |scripts| == |runs| && |cfg| > 0
    && forall k :: 0 <= k < |runs| ==>
         |places[k]| == |scripts[k]| && Accounted(scripts[k], places[k], runs[k].steps, runs[k].states, F.WindowStart(cfg, t, k + 1))
  }

  /**
   * The schedule over as many windows as there are scripts of what arrives in them, without
   * jitter: no assertion about a remainder fails, and the objects go through one of the runs over
   * which the accounts of all budgets stay balanced.
   */
  method Play(f: MajorFrame, t: int, scripts: seq<seq<Arrival>>, objs: seq<Partition>, ghost exact: bool)
    returns (ghost parts: seq<seq<M.Part>>, ghost runs: seq<B.EventRun>, ghost places: seq<seq<nat>>)
    requires f.Stopped() && f.currentWin == 0 && f.changes == 0 && t == f.began && B.AllClosed(f.PartSnaps(), exact)
    requires objs == f.partitions
    requires forall n, k :: 0 <= n < |scripts| && 0 <= k < |scripts[n]| ==> C.OnGrid(scripts[n][k].at, B.ClockOf(exact, t, 0))
    modifies f, f.windows, f.Reach()
    ensures |runs| == |scripts| && |parts| == |scripts| + 1 && parts[0] == old(f.PartSnaps())
    ensures B.EventfulRun(f.cfg, t, parts, runs, exact)
    ensures forall k :: 0 <= k <= |runs| ==> B.AllClosed(parts[k], exact)
    ensures f.WindowRuns(f.currentWin) && f.OnTime() && f.changes == |scripts|
    ensures AllAccounted(f.cfg, t, scripts, places, runs)
  {
    hide Accounted;
    hide P.Inv, P.Idle, P.IsRun, F.Unused, F.Wired, F.WinCfgOk, F.CfgOk, M.Start, F.WindowAt, F.WindowStart, Booked, Underway, M.Shaped;
    hide MajorFrame.OnTime, MajorFrame.WindowRuns, MajorFrame.PartSnaps, MajorFrame.Layout, MajorFrame.PartsOk, MajorFrame.Reach;
    hide Window.Valid, Window.Snap;
    hide MajorFrame.Stopped, MajorFrame.Underway, B.AllClosed, B.EventfulRun, C.OnGrid;
    ghost var w0;
    ghost var none;
    parts, none, w0 := f.Begin(t, exact);
    runs, places := [], [];
    BeginsUnderway(f, parts, none, exact, w0);
    UnderwayMeans(f, parts, [], exact, w0);
    var n := 0;
    while n < |scripts|
      invariant n == |runs| <= |scripts| && |parts| == n + 1 && parts[0] == old(f.PartSnaps()) && f.began == t
      invariant Underway(f, parts, runs, exact, w0) && f.SameLayout()
      invariant |places| == n && forall k :: 0 <= k < n ==>
                  |places[k]| == |scripts[k]| && Accounted(scripts[k], places[k], runs[k].steps, runs[k].states, F.WindowStart(f.cfg, t, k + 1))
    {
      f.SameReach();
      ghost var here;
      parts, runs, w0, here := PlayNext(f, scripts[n], objs, parts, runs, exact, w0);
      places := places + [here];
      n := n + 1;
    }
    UnderwayMeans(f, parts, runs, exact, w0);
    BookedIsEventful(f.cfg, t, parts, runs, exact, w0);
  }

  lemma BeginsUnderway(f: MajorFrame, parts: seq<seq<M.Part>>, none: seq<F.WindowRun>, exact: bool, w0: M.Win)
    requires f.Underway(parts, none, exact, w0) && none == [] && |parts| == 1
    ensures Underway(f, parts, [], exact, w0)
  {
    hide P.Inv, P.Idle, M.Start, F.Wired, F.WindowStart, MajorFrame.PartsOk, MajorFrame.PartSnaps, F.Unused, MajorFrame.OnTime, B.AllClosed;
  }

  lemma BookedIsEventful(cfg: seq<F.WinCfg>, t0: int, parts: seq<seq<M.Part>>, runs: seq<B.EventRun>, exact: bool, w0: M.Win)
    requires Booked(cfg, t0, parts, runs, exact, w0)
    ensures B.EventfulRun(cfg, t0, parts, runs, exact) && |parts| == |runs| + 1
    ensures forall k :: 0 <= k <= |runs| ==> B.AllClosed(parts[k], exact)
  {
    hide P.Idle, F.Wired, B.Plays, B.AllClosed, F.WindowAt, F.WinCfgOk, F.CfgOk;
    forall k | 0 <= k <= |runs|
      ensures B.AllClosed(parts[k], exact)
    {
      B.ScheduleKeepsBooks(cfg, t0, parts, runs, exact, k);
    }
  }
}
