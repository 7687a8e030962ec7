/**
 * The scheduler's objects. Each method changes them step by step, re-entrant callbacks included,
 * and is proved to have the effect which `Model` gives for it on the values of these objects.
 */
module Scheduler {
  import opened Options
  import M = Model
  import P = Phases

  class Process {
    const budget: int
    const jitter: nat
    /** The random draws, in the order in which they are made. */
    const noise: nat -> int
    var draws: nat
    var actualBudget: int
    var completed: bool
    var demosCompleted: bool
    /** The eventfd which releases the client from `demos_completed`. */
    var continueTokens: nat
    var spawned: bool
    var frozen: bool

    ghost function Snap(): M.Proc
      reads this
    {
      M.Proc(budget, jitter, noise, draws, actualBudget, completed, demosCompleted, continueTokens, spawned, frozen)
    }

    constructor (budget: int, jitter: nat, noise: nat -> int)
      requires 0 < budget && jitter <= 2 * budget
      requires forall k :: -(jitter / 2) <= noise(k) <= jitter - jitter / 2
      ensures Snap() == M.Proc(budget, jitter, noise, 0, budget, false, false, 0, false, true)
      ensures M.ProcOk(Snap())
    {
      this.budget := budget;
      this.jitter := jitter;
      this.noise := noise;
      draws := 0;
      actualBudget := budget;
      completed := false;
      demosCompleted := false;
      continueTokens := 0;
      spawned := false;
      frozen := true;
    }

    method Exec()
      modifies `spawned
      ensures Snap() == old(Snap()).(spawned := true)
    {
      spawned := true;
    }

    method HandleEnd()
      modifies `spawned
      ensures Snap() == old(Snap()).(spawned := false)
    {
      spawned := false;
    }

    method SignalCompletion()
      modifies `demosCompleted
      ensures Snap() == old(Snap()).(signalled := true)
    {
      demosCompleted := true;
    }

    method Suspend()
      modifies `frozen
      ensures Snap() == old(Snap()).(frozen := true)
    {
      frozen := true;
    }

    method Resume()
      requires spawned
      modifies `continueTokens, `demosCompleted, `frozen
      ensures Snap() == M.Resume(old(Snap()))
    {
      if demosCompleted {
        continueTokens := continueTokens + 1;
        demosCompleted := false;
      }
      frozen := false;
    }

    method GetActualBudget() returns (b: int)
      requires M.ProcOk(Snap())
      modifies `draws
      ensures (Snap(), b) == M.Draw(old(Snap()))
      ensures 0 <= b && M.ProcOk(Snap())
    {
      P.DrawnBudget(Snap());
      if budget != actualBudget {
        return actualBudget;
      }
      b := actualBudget + noise(draws);
      draws := draws + 1;
    }

    method IsPending() returns (r: bool)
      ensures r == M.Pending(Snap())
    {
      r := spawned && !completed;
    }

    method MarkCompleted()
      modifies `completed
      ensures Snap() == old(Snap()).(completed := true)
    {
      completed := true;
    }

    method MarkUncompleted()
      modifies `completed
      ensures Snap() == old(Snap()).(completed := false)
    {
      completed := false;
    }

    method SetRemainingBudget(ms: int)
      requires 0 < ms < budget
      modifies `actualBudget
      ensures Snap() == old(Snap()).(actual := ms)
    {
      actualBudget := ms;
    }

    method ResetBudget()
      modifies `actualBudget
      ensures Snap() == old(Snap()).(actual := budget)
    {
      actualBudget := budget;
    }
  }

  class Partition {
    const processes: seq<Process>
    var current: nat
    /** The slice whose `schedule_next` is the completion callback, if one is connected. */
    var owner: Slice?
    ghost var log: seq<M.Event>

    ghost predicate Distinct() {
      forall j, k :: 0 <= j < k < |processes| ==> processes[j] != processes[k]
    }

    ghost function Footprint(): (r: set<object>)
      ensures this in r && forall j :: 0 <= j < |processes| ==> processes[j] in r
    {
      {this as object} + (set j | 0 <= j < |processes| :: processes[j] as object)
    }

    ghost predicate Valid()
      reads this, processes
    {
      Distinct() && current < |processes| && M.PartOk(Snap())
    }

    ghost function Snap(): (r: M.Part)
      reads this, processes
      ensures |r.procs| == |processes| && r.cur == current && r.log == log
      ensures forall j :: 0 <= j < |processes| ==> r.procs[j] == processes[j].Snap()
    {
      M.Part(seq(|processes|, j requires 0 <= j < |processes| reads processes => processes[j].Snap()), current, log)
    }

    /** Nothing but process `j`, the cursor and the history of this partition has changed. */
    twostate lemma OnlyProcess(j: nat)
      requires j < |processes| && Distinct()
      requires forall k :: 0 <= k < |processes| && k != j ==> unchanged(processes[k])
      ensures Snap() == M.Part(old(Snap()).procs[j := processes[j].Snap()], current, log)
    {
      assert Snap().procs == old(Snap()).procs[j := processes[j].Snap()];
    }

    twostate lemma ProcessKeepsValid(j: nat)
      requires old(Valid()) && unchanged(this) && j < |processes|
      requires forall k :: 0 <= k < |processes| && k != j ==> unchanged(processes[k])
      requires M.ProcOk(processes[j].Snap())
      ensures Valid() && Snap() == old(Snap()).(procs := old(Snap()).procs[j := processes[j].Snap()])
    {
      OnlyProcess(j);
      assert forall k :: 0 <= k < |processes| ==> old(M.ProcOk(Snap().procs[k]));
    }

    twostate lemma Untouched()
      requires unchanged(this) && unchanged(processes)
      ensures Snap() == old(Snap()) && (Valid() <==> old(Valid()))
    {
      assert Snap().procs == old(Snap()).procs;
    }

    constructor (processes: seq<Process>)
      requires 0 < |processes|
      requires forall j, k :: 0 <= j < k < |processes| ==> processes[j] != processes[k]
      requires forall j :: 0 <= j < |processes| ==> M.ProcOk(processes[j].Snap())
      ensures Valid() && this.processes == processes && current == 0 && log == [] && owner == null
    {
      this.processes := processes;
      current := 0;
      owner := null;
      log := [];
    }

    method ClearCompletedFlag()
      requires Valid()
      modifies processes
      ensures Valid() && Snap() == old(Snap()).(procs := M.Uncompleted(old(Snap()).procs))
    {
      var j := 0;
      while j < |processes|
        invariant j <= |processes|
        invariant forall k :: 0 <= k < |processes| ==>
                    processes[k].Snap() == if k < j then old(processes[k].Snap()).(completed := false)
                                           else old(processes[k].Snap())
      {
        processes[j].MarkUncompleted();
        j := j + 1;
      }
      assert Snap().procs == M.Uncompleted(old(Snap()).procs);
    }

    method Reset(moveToFirst: bool, slice: Slice)
      requires Valid()
      modifies `current, `owner, processes
      ensures Valid() && Snap() == M.Reset(old(Snap()), moveToFirst) && owner == slice
    {
      ClearCompletedFlag();
      owner := slice;
      if moveToFirst {
        current := 0;
      }
    }

    method Disconnect()
      modifies `owner
      ensures owner == null && Snap() == old(Snap()) && Valid() == old(Valid())
    {
      owner := null;
      assert Snap().procs == old(Snap()).procs;
    }

    lemma CurrentOk()
      requires Valid()
      ensures current < |processes| && M.ProcOk(processes[current].Snap())
    {
      assert M.ProcOk(Snap().procs[current]);
    }

    method MoveToNextProc()
      requires current < |processes|
      modifies `current
      ensures current == M.Next(|processes|, old(current))
    {
      current := current + 1;
      if current == |processes| {
        current := 0;
      }
    }

    method SeekPendingProcess() returns (p: Process?)
      requires Valid()
      modifies `current
      ensures Valid()
      ensures var (q, found) := M.SeekPart(old(Snap()));
              && Snap() == q
              && p == if found then processes[current] else null
    {
      ghost var procs := Snap().procs;
      var i := 0;
      while i < |processes|
        invariant i <= |processes| && current < |processes|
        invariant M.Seek(procs, current, |processes| - i) == M.Seek(procs, old(current), |processes|)
      {
        var pending := processes[current].IsPending();
        if pending {
          p := processes[current];
          assert Snap().procs == procs;
          return;
        }
        MoveToNextProc();
        i := i + 1;
      }
      MoveToNextProc();
      p := null;
      assert Snap().procs == procs;
    }
  }

  /** `start_next_process` one process at a time, with its reports to the window. */
  lemma StartNextUnfolds(w: M.Win, i: nat, t: int)
    requires M.WinShaped(w) && i < |w.slices| && w.slices[i].role.Some?
    ensures var (v, found) := M.LoadNext(w, i, t);
            if !found then M.StartNextAt(w, i, t) == v
            else
              && v.slices[i].role.Some?
              && var (r, started) := M.RunInSlice(v.slices[i], t);
                 var u := v.(slices := v.slices[i := r]);
                 M.StartNextAt(w, i, t) == if started then u else M.StartNextAt(u, i, t)
  {
    M.StartNextUnfolds(w.slices[i], t);
    hide M.StartNextInSlice, M.RunInSlice, M.SeekInSlice, M.ScEnd, M.Shaped;
    var (s, found) := M.SeekInSlice(w.slices[i]);
    if found {
      var r := M.RunInSlice(s, t).0;
      assert w.slices[i := s][i := r] == w.slices[i := r];
      assert w.slices[i := r][i := M.StartNextInSlice(r, t)] == w.slices[i := M.StartNextInSlice(r, t)];
    }
  }

  /** A report of slice `i` may launch the best-effort partitions; no other slice must run then. */
  predicate MayReport(w: M.Win, i: nat) {
    !w.stopping && w.finished + 1 == |w.slices| ==>
      forall k :: 0 <= k < |w.slices| && k != i ==> !w.slices[k].running
  }

  lemma MayReportStays(w: M.Win, i: nat, s: M.Slice)
    requires i < |w.slices|
    ensures MayReport(w, i) ==> MayReport(w.(slices := w.slices[i := s]), i)
  {
  }

  /** Slice `s` with `x` for its current process and `log` for the history of its partition. */
  ghost function With(s: M.Slice, x: M.Proc, log: seq<M.Event>): (r: M.Slice)
    requires M.Shaped(s) && s.role.Some?
    ensures M.Shaped(r) && r.role == s.role
  {
    var p := M.Current(s);
    M.WithPart(s, s.role.value, p.(procs := p.procs[p.cur := x], log := log))
  }

  /** Drawing the budget of the loaded process and then passing over it or launching it. */
  lemma RunSteps(s: M.Slice, t: int)
    requires M.Shaped(s) && s.role.Some?
    ensures var p := M.Current(s);
            var (x, b) := M.Draw(p.procs[p.cur]);
            var d := With(s, x, p.log);
            && M.Current(d) == p.(procs := p.procs[p.cur := x]) && d.role == s.role
            && M.RunInSlice(s, t) ==
               if b == 0 then (With(d, x.(completed := true), p.log).(running := false), false)
               else
                 (With(d, M.Resume(x).(actual := x.budget), p.log + [M.Started(t, s.role.value, p.cur, b)])
                  .(running := true, timeout := t + M.Ms(b), armed := true), true)
  {
    var p := M.Current(s);
    var (x, b) := M.Draw(p.procs[p.cur]);
    assert p.procs[p.cur := x][p.cur := x.(completed := true)] == p.procs[p.cur := x.(completed := true)];
    var y := M.Resume(x).(actual := x.budget);
    assert p.procs[p.cur := x][p.cur := y] == p.procs[p.cur := y];
  }

  /** Freezing the current process and then writing the end of its run to the history. */
  lemma EndSteps(s: M.Slice, t: int, done: bool)
    requires M.Shaped(s) && s.running
    ensures var p := M.Current(s);
            var x := p.procs[p.cur].(frozen := true, completed := done || p.procs[p.cur].completed);
            var d := With(s, x, p.log).(armed := false);
            && M.Current(d) == p.(procs := p.procs[p.cur := x])
            && M.EndInSlice(s, t, done) ==
               M.WithPart(d, s.role.value, M.Part(M.Current(d).procs[p.cur := x], p.cur, p.log + [M.Ended(t, s.role.value, p.cur, done)]))
               .(running := false)
  {
    var p := M.Current(s);
    var x := p.procs[p.cur].(frozen := true, completed := done || p.procs[p.cur].completed);
    assert p.procs[p.cur := x][p.cur := x] == p.procs[p.cur := x];
  }

  /** `Slice::stop` when the process ran out of budget exactly at the end of the window. */
  lemma StopUnfolds(w: M.Win, i: nat, t: int)
    requires M.WinShaped(w) && i < |w.slices| && w.stopping
    requires w.slices[i].running && M.Remaining(w.slices[i], t) == 0
    ensures var e := M.EndInSlice(w.slices[i].(linked := {}), t, true);
            var u := w.(slices := w.slices[i := e]);
            && e.role.Some? && M.WinShaped(u)
            && var v := M.LoadNext(u, i, t).0;
               M.StopAt(w, i, t) == v.(slices := v.slices[i := v.slices[i].(running := false)])
  {
    var s := w.slices[i];
    var e := M.EndInSlice(s.(linked := {}), t, true);
    var (p, found) := M.SeekPart(M.Current(e));
    var f := M.WithPart(e, e.role.value, p);
    assert w.slices[i := e][i := f.(running := found)] == w.slices[i := f.(running := found)];
    assert M.StopSlice(s, t).0 == f;
    assert f.running == false;
    assert w.slices[i := f.(running := found)][i := f] == w.slices[i := f];
  }

  /** The search leaves the processes as they are. */
  lemma SeekSteps(s: M.Slice)
    requires M.Shaped(s) && s.role.Some?
    ensures var p := M.Current(s);
            var (q, found) := M.SeekPart(p);
            && q.procs == p.procs && q.log == p.log && q.procs[q.cur := q.procs[q.cur]] == q.procs
            && (found ==> M.Pending(q.procs[q.cur]))
            && M.SeekInSlice(s) == (M.WithPart(s, s.role.value, q).(running := found), found)
  {
  }

  /** And the report which it may lead to. */
  lemma LoadSteps(w: M.Win, i: nat, t: int)
    requires M.WinShaped(w) && i < |w.slices| && w.slices[i].role.Some?
    ensures var (s, found) := M.SeekInSlice(w.slices[i]);
            var u := w.(slices := w.slices[i := s]);
            && M.WinShaped(u)
            && M.LoadNext(w, i, t) == (if found || w.slices[i].role != Some(M.Sc) then u else M.ScEnd(u, i, t), found)
  {
    hide M.SeekPart, M.ScEnd;
  }

  /** `Slice::start_partition` after the binding. */
  lemma BeginSteps(w: M.Win, i: nat, role: M.Role, t: int)
    requires M.WinShaped(w) && i < |w.slices| && M.PartOf(w.slices[i], role).Some?
    ensures var v := w.(slices := w.slices[i := M.Bind(w.slices[i], role)]);
            M.StartNextAt(v, i, t) == M.Settle(w.(slices := w.slices[i := M.Begin(w.slices[i], role, t)]), i, t)
  {
    hide M.StartNextInSlice, M.Bind, M.Settle;
    var b := M.Bind(w.slices[i], role);
    assert w.slices[i := b][i := M.StartNextInSlice(b, t)] == w.slices[i := M.StartNextInSlice(b, t)];
  }

  /** `Slice::stop` once the timer is stopped and nothing is connected. */
  lemma StopSteps(s: M.Slice, t: int)
    requires M.Shaped(s) && P.StopFits(s, t)
    ensures var u := s.(armed := false, linked := {});
            && M.Shaped(u) && P.StopFits(u, t) && M.Remaining(u, t) == M.Remaining(s, t)
            && M.StopSlice(s, t) == M.StopUnlinked(u, t)
            && (!s.running ==> M.StopSlice(s, t) == (u, false))
            && (s.running && M.Remaining(s, t) == 0 ==> M.EndInSlice(s.(linked := {}), t, true) == M.EndInSlice(u, t, true))
  {
    hide M.TruncMs, M.EndCurrent, M.SeekPart;
  }

  /** A process which is cut off at the end of a window. */
  lemma CutSteps(s: M.Slice, t: int)
    requires M.Shaped(s) && P.StopFits(s, t) && s.running && M.Remaining(s, t) != 0
    ensures var left := M.Remaining(s, t);
            if s.role == Some(M.Be) then
              && 0 < left < M.Current(s).procs[M.Current(s).cur].budget
              && M.StopUnlinked(s, t) == (M.EndInSlice(s.(be := Some(M.SetRemaining(s.be.value, left))), t, false), false)
            else M.StopUnlinked(s, t) == (M.EndInSlice(s, t, false), false)
  {
    hide M.TruncMs, M.EndCurrent;
  }

  lemma NoRoleLeft(roles: set<M.Role>)
    ensures roles - {M.Sc} - {M.Be} == {}
  {
    assert forall r :: r in roles ==> r == M.Sc || r == M.Be;
  }

  ghost function PartFootprint(p: Partition?): (r: set<object>)
    ensures p != null ==> p in r && forall j :: 0 <= j < |p.processes| ==> p.processes[j] in r
  {
    if p == null then {} else p.Footprint()
  }

  ghost function PartSnap(p: Partition?): Option<M.Part>
    reads p, if p == null then {} else set x: Process | x in p.processes
  {
    if p == null then None else Some(p.Snap())
  }

  class Slice {
    const window: Window
    const sc: Partition?
    const be: Partition?
    var runningProcess: Process?
    var runningPartition: Partition?
    var timeout: int
    /** Whether the timer is armed; its deadline is `timeout`. */
    var armed: bool
    ghost var signals: nat

    constructor (window: Window, sc: Partition?, be: Partition?)
      requires sc != null ==> sc.Valid() && sc.owner == null
      requires be != null ==> be.Valid() && be.owner == null
      requires PartFootprint(sc) !! PartFootprint(be)
      ensures this.window == window && this.sc == sc && this.be == be
      ensures Valid() && runningProcess == null && runningPartition == null && !armed
      ensures Snap().role == None && Snap().signals == 0 && Snap().linked == {}
    {
      this.window := window;
      this.sc := sc;
      this.be := be;
      runningProcess := null;
      runningPartition := null;
      timeout := 0;
      armed := false;
      signals := 0;
    }

    ghost function Footprint(): set<object> {
      {this as object} + PartFootprint(sc) + PartFootprint(be)
    }

    ghost predicate Valid()
      reads this, Footprint()
    {
      && (sc != null ==> sc.Valid())
      && (be != null ==> be.Valid())
      && this as object !in PartFootprint(sc) + PartFootprint(be)
      && PartFootprint(sc) !! PartFootprint(be)
      && (sc != null ==> sc.owner == null || sc.owner == this)
      && (be != null ==> be.owner == null || be.owner == this)
      && (runningPartition == null || runningPartition == sc || runningPartition == be)
      && (runningProcess != null ==>
            runningPartition != null && runningProcess == runningPartition.processes[runningPartition.current])
    }

    ghost function RoleOf(p: Partition?): Option<M.Role> {
      if p == null then None else if p == sc then Some(M.Sc) else Some(M.Be)
    }

    /** In which roles a partition is connected to this slice. */
    ghost function Linked(): set<M.Role>
      reads sc, be
    {
      (if sc != null && sc.owner == this then {M.Sc} else {}) + (if be != null && be.owner == this then {M.Be} else {})
    }

    ghost function Snap(): M.Slice
      reads this, Footprint()
    {
      M.Slice(PartSnap(sc), PartSnap(be), RoleOf(runningPartition), runningProcess != null, timeout, armed, Linked(), signals)
    }

    /** Nothing but process `j` and the cursor and history of the running partition has changed. */
    twostate lemma OnlyRunning(j: nat)
      requires old(Valid()) && runningPartition != null && runningPartition == old(runningPartition)
      requires runningPartition.owner == old(runningPartition.owner)
      requires j < |runningPartition.processes|
      requires forall k :: 0 <= k < |runningPartition.processes| && k != j ==> unchanged(runningPartition.processes[k])
      requires sc != null && sc != runningPartition ==> unchanged(sc) && unchanged(sc.processes)
      requires be != null && be != runningPartition ==> unchanged(be) && unchanged(be.processes)
      requires runningPartition.current < |runningPartition.processes|
      requires M.ProcOk(runningPartition.processes[j].Snap())
      requires runningProcess != null ==> runningProcess == runningPartition.processes[runningPartition.current]
      ensures Valid()
      ensures var r := RoleOf(runningPartition).value;
              var p := old(runningPartition.Snap());
              var q := M.Part(p.procs[j := runningPartition.processes[j].Snap()], runningPartition.current, runningPartition.log);
              Snap() == M.WithPart(old(Snap()), r, q).(running := runningProcess != null, timeout := timeout, armed := armed, signals := signals)
    {
      runningPartition.OnlyProcess(j);
      var other := if runningPartition == sc then be else sc;
      if other != null {
        assert PartSnap(other) == old(PartSnap(other));
        assert other.Valid();
      }
    }

    lemma SnapIsShaped()
      requires Valid()
      ensures M.Shaped(Snap())
      ensures runningPartition != null ==> M.Current(Snap()) == runningPartition.Snap()
    {
    }

    lemma SnapMeans()
      ensures Snap().running == (runningProcess != null) && Snap().timeout == timeout && Snap().role == RoleOf(runningPartition)
    {
    }

    /** What there is to know about the process which runs. */
    lemma RunningMeans()
      requires Valid() && runningProcess != null
      ensures runningPartition != null && (runningPartition == sc || runningPartition == be) && sc != be
      ensures runningPartition.Distinct() && runningPartition.current < |runningPartition.processes|
      ensures runningProcess == runningPartition.processes[runningPartition.current] && M.ProcOk(runningProcess.Snap())
      ensures forall k :: 0 <= k < |runningPartition.processes| && k != runningPartition.current ==>
                runningPartition.processes[k] != runningProcess
      ensures sc != null && sc != runningPartition ==> runningProcess !in sc.processes
      ensures be != null && be != runningPartition ==> runningProcess !in be.processes
      ensures M.Shaped(Snap()) && Snap().role == RoleOf(runningPartition) && M.Current(Snap()) == runningPartition.Snap()
      ensures var p := M.Current(Snap()); p.procs[p.cur] == runningProcess.Snap()
      ensures {runningProcess as object, runningPartition, this} <= Footprint()
    {
      var j := runningPartition.current;
      assert M.ProcOk(runningPartition.Snap().procs[j]);
      assert runningPartition.processes[j] in runningPartition.Footprint();
      assert sc != null && runningProcess in sc.processes ==> runningProcess as object in PartFootprint(sc);
      assert be != null && runningProcess in be.processes ==> runningProcess as object in PartFootprint(be);
    }

    /** Number of processes the running partition can still start; bounds the recursion. */
    ghost function Pendings(): nat
      reads this, runningPartition, if runningPartition == null then [] else runningPartition.processes
    {
      if runningPartition == null then 0 else M.PendingCount(runningPartition.Snap().procs)
    }

    /** What `LoadNextProcess` does to this slice itself. */
    method TakePending()
      requires Valid() && runningProcess == null && runningPartition != null
      modifies `runningProcess, runningPartition`current
      ensures Valid() && M.Shaped(old(Snap())) && old(Snap()).role.Some?
      ensures (Snap(), runningProcess != null) == M.SeekInSlice(old(Snap()))
      ensures runningProcess != null ==> Pendings() == old(Pendings()) && M.Pending(runningProcess.Snap())
    {
      hide Valid, Partition.Valid, M.PartOk, M.ProcOk, M.SeekPart;
      BoundMeans();
      SeekSteps(Snap());
      ghost var p := runningPartition.Snap();
      runningProcess := runningPartition.SeekPendingProcess();
      runningPartition.CurrentOk();
      OnlyRunning(runningPartition.current);
      assert runningPartition.Snap().procs == p.procs;
    }

    /** What there is to know about the partition which was started. */
    lemma BoundMeans()
      requires Valid() && runningPartition != null
      ensures runningPartition.Valid() && (runningPartition == sc || runningPartition == be) && sc != be
      ensures M.Shaped(Snap()) && Snap().role == RoleOf(runningPartition) && M.Current(Snap()) == runningPartition.Snap()
    {
    }

    method LoadNextProcess(ghost i: nat, t: int) returns (found: bool)
      requires window.Valid() && i < |window.slices| && window.slices[i] == this
      requires runningProcess == null && runningPartition != null
      requires runningPartition == sc ==> MayReport(window.Snap(), i)
      modifies window`finishedScPartitions, window`launches, window.repr
      ensures window.Valid() && old(window.Snap().slices[i].role).Some?
      ensures (window.Snap(), found) == M.LoadNext(old(window.Snap()), i, t)
      ensures found ==>
                && runningPartition == old(runningPartition) && Pendings() == old(Pendings())
                && runningProcess != null && M.Pending(runningProcess.Snap())
                && window.Snap().finished == old(window.Snap()).finished
                && (MayReport(old(window.Snap()), i) ==> MayReport(window.Snap(), i))
      decreases if runningPartition == sc then 1 else 0, 0, Pendings(), 0
    {
      BoundMeans();
      SliceAt(i);
      LoadSteps(window.Snap(), i, t);
      found := TakePendingAt(i);
      hide M.SeekInSlice, M.ScEnd, M.LoadNext, Valid, Snap, Window.Valid, M.Shaped;
      if !found {
        if runningPartition == sc {
          window.SliceScEndCb(i, t);
        }
      }
    }

    /** The search, as the window sees it. */
    method TakePendingAt(ghost i: nat) returns (found: bool)
      requires window.Valid() && i < |window.slices| && window.slices[i] == this
      requires runningProcess == null && runningPartition != null
      modifies `runningProcess, runningPartition`current
      ensures window.Valid() && Valid() && old(window.Snap().slices[i].role).Some?
      ensures var w := old(window.Snap());
              (window.Snap(), found) == (w.(slices := w.slices[i := M.SeekInSlice(w.slices[i]).0]), M.SeekInSlice(w.slices[i]).1)
      ensures found == (runningProcess != null) && runningPartition == old(runningPartition)
      ensures (runningPartition == sc) == (old(window.Snap().slices[i].role) == Some(M.Sc))
      ensures found ==> Pendings() == old(Pendings()) && M.Pending(runningProcess.Snap())
      ensures MayReport(old(window.Snap()), i) ==> MayReport(window.Snap(), i)
    {
      hide M.SeekInSlice, Window.Valid, Pendings;
      ghost var w := window.Snap();
      SliceAt(i);
      BoundMeans();
      TakePending();
      window.OnlySlice(i);
      MayReportStays(w, i, Snap());
      found := runningProcess != null;
    }

    lemma SliceAt(i: nat)
      requires window.Valid() && i < |window.slices| && window.slices[i] == this
      ensures Valid() && window.Snap().slices[i] == Snap()
    {
    }

    method DrawBudget() returns (b: int)
      requires Valid() && runningProcess != null
      modifies runningProcess`draws
      ensures Valid() && M.Shaped(old(Snap())) && Pendings() == old(Pendings())
      ensures M.Pending(runningProcess.Snap()) == old(M.Pending(runningProcess.Snap())) && runningProcess.spawned == old(runningProcess.spawned)
      ensures var p := M.Current(old(Snap()));
              && b == M.Draw(p.procs[p.cur]).1
              && Snap() == With(old(Snap()), M.Draw(p.procs[p.cur]).0, p.log)
    {
      hide Valid, M.PartOk, M.Draw, M.Pending;
      RunningMeans();
      DrawnOk(runningProcess.Snap());
      ghost var p := runningPartition.Snap();
      b := runningProcess.GetActualBudget();
      OnlyRunning(runningPartition.current);
      runningPartition.OnlyProcess(runningPartition.current);
      M.PendingCountUpdate(p.procs, p.cur, runningProcess.Snap());
    }

    lemma DrawnOk(x: M.Proc)
      requires M.ProcOk(x)
      ensures M.ProcOk(M.Draw(x).0) && (M.Pending(M.Draw(x).0) <==> M.Pending(x))
    {
    }

    method SkipLoaded()
      requires Valid() && runningProcess != null && M.Pending(runningProcess.Snap())
      modifies `runningProcess, runningProcess`completed
      ensures Valid() && M.Shaped(old(Snap())) && Pendings() < old(Pendings())
      ensures runningProcess == null
      ensures var p := M.Current(old(Snap()));
              Snap() == With(old(Snap()), p.procs[p.cur].(completed := true), p.log).(running := false)
    {
      hide Valid, M.PartOk;
      RunningMeans();
      ghost var p := runningPartition.Snap();
      runningProcess.MarkCompleted();
      runningProcess := null;
      OnlyRunning(runningPartition.current);
      runningPartition.OnlyProcess(runningPartition.current);
      M.PendingCountUpdate(p.procs, p.cur, runningPartition.processes[p.cur].Snap());
    }

    method LaunchLoaded(t: int, budget: int)
      requires Valid() && runningProcess != null && runningProcess.spawned
      modifies `timeout, `armed, runningProcess, runningPartition`log
      ensures Valid() && M.Shaped(old(Snap()))
      ensures var p := M.Current(old(Snap()));
              var x := p.procs[p.cur];
              Snap() == With(old(Snap()), M.Resume(x).(actual := x.budget),
                             p.log + [M.Started(t, old(Snap()).role.value, p.cur, budget)])
                        .(timeout := t + M.Ms(budget), armed := true)
    {
      hide Valid, M.PartOk;
      RunningMeans();
      runningPartition.log := runningPartition.log + [M.Started(t, RoleOf(runningPartition).value, runningPartition.current, budget)];
      runningProcess.Resume();
      timeout := t + M.Ms(budget);
      runningProcess.ResetBudget();
      armed := true;
      OnlyRunning(runningPartition.current);
    }

    /** What `StartNextProcess` does once a process is loaded, up to its recursive call. */
    method RunLoaded(t: int) returns (started: bool)
      requires Valid() && runningProcess != null && M.Pending(runningProcess.Snap())
      modifies `runningProcess, `timeout, `armed, runningProcess, runningPartition`log
      ensures Valid() && M.Shaped(old(Snap())) && runningPartition == old(runningPartition)
      ensures (Snap(), started) == M.RunInSlice(old(Snap()), t)
      ensures started == (runningProcess != null)
      ensures !started ==> Pendings() < old(Pendings())
    {
      hide Valid, M.RunInSlice, With, M.Draw, M.Resume, M.WithPart, M.Shaped, M.PartOk, Snap, Pendings, Linked, Partition.Snap, PartSnap;
      RunningMeans();
      RunSteps(Snap(), t);
      var budget := DrawBudget();
      if budget == 0 {
        SkipLoaded();
        return false;
      }
      LaunchLoaded(t, budget);
      SnapMeans();
      return true;
    }

    method RunLoadedAt(ghost i: nat, t: int) returns (started: bool)
      requires window.Valid() && i < |window.slices| && window.slices[i] == this
      requires runningProcess != null && M.Pending(runningProcess.Snap())
      modifies window.repr
      ensures window.Valid() && runningPartition == old(runningPartition) && old(Snap()).role.Some?
      ensures started == (runningProcess != null)
      ensures var w := old(window.Snap());
              var (r, s) := M.RunInSlice(w.slices[i], t);
              started == s && window.Snap() == w.(slices := w.slices[i := r])
      ensures !started ==> Pendings() < old(Pendings())
    {
      hide M.RunInSlice, M.Pending, M.Shaped;
      started := RunLoaded(t);
      window.OnlySlice(i);
    }

    method StartNextProcess(ghost i: nat, t: int)
      requires window.Valid() && i < |window.slices| && window.slices[i] == this
      requires runningProcess == null && runningPartition != null
      requires runningPartition == sc ==> MayReport(window.Snap(), i)
      modifies window`finishedScPartitions, window`launches, window.repr
      ensures window.Valid() && old(window.Snap().slices[i].role).Some?
      ensures window.Snap() == M.StartNextAt(old(window.Snap()), i, t)
      decreases if runningPartition == sc then 1 else 0, 0, Pendings(), 1
    {
      SnapIsShaped();
      StartNextUnfolds(window.Snap(), i, t);
      hide M.StartNextAt, M.LoadNext, M.RunInSlice;
      var found := LoadNextProcess(i, t);
      if !found {
        return;
      }
      ghost var w := window.Snap();
      var started := RunLoadedAt(i, t);
      if !started {
        MayReportStays(w, i, window.Snap().slices[i]);
        StartNextProcess(i, t);
      }
    }

    /** What `StartPartition` does to this slice itself. */
    method BindPartition(part: Partition, moveToFirst: bool)
      requires Valid() && runningProcess == null && (part == sc || part == be) && moveToFirst == (part == sc)
      modifies `runningPartition, part`current, part`owner, part.processes
      ensures Valid() && runningProcess == null && runningPartition == part
      ensures var s := old(Snap());
              var role := RoleOf(part).value;
              && M.Shaped(s) && M.PartOf(s, role).Some? && Snap() == M.Bind(s, role)
    {
      hide Partition.Valid, Partition.Snap, M.PartOk, M.Reset;
      SnapIsShaped();
      runningPartition := part;
      part.Reset(moveToFirst, this);
      ghost var other := if part == sc then be else sc;
      if other != null {
        other.Untouched();
      }
    }

    method StartPartition(ghost i: nat, part: Partition, t: int, moveToFirst: bool)
      requires window.Valid() && i < |window.slices| && window.slices[i] == this
      requires runningProcess == null && (part == sc || part == be)
      requires part == sc ==> MayReport(window.Snap(), i)
      requires moveToFirst == (part == sc)
      modifies window`finishedScPartitions, window`launches, window.repr
      ensures window.Valid()
      ensures var w := old(window.Snap());
              var role := RoleOf(part).value;
              && M.PartOf(w.slices[i], role).Some?
              && window.Snap() == M.Settle(w.(slices := w.slices[i := M.Begin(w.slices[i], role, t)]), i, t)
      decreases if part == sc then 1 else 0, 1, 0, 0
    {
      ghost var w := window.Snap();
      BindAt(i, part, moveToFirst);
      BeginSteps(w, i, RoleOf(part).value, t);
      hide M.Bind, M.StartNextInSlice, M.Begin, M.Settle, Valid;
      StartNextProcess(i, t);
    }

    /** The binding, as the window sees it. */
    method BindAt(ghost i: nat, part: Partition, moveToFirst: bool)
      requires window.Valid() && i < |window.slices| && window.slices[i] == this
      requires runningProcess == null && (part == sc || part == be) && moveToFirst == (part == sc)
      modifies window.repr
      ensures window.Valid() && runningProcess == null && runningPartition == part
      ensures var w := old(window.Snap());
              var role := RoleOf(part).value;
              && M.PartOf(w.slices[i], role).Some? && window.Snap() == w.(slices := w.slices[i := M.Bind(w.slices[i], role)])
      ensures MayReport(old(window.Snap()), i) ==> MayReport(window.Snap(), i)
    {
      hide M.Bind;
      ghost var w := window.Snap();
      BindPartition(part, moveToFirst);
      window.OnlySlice(i);
      MayReportStays(w, i, Snap());
    }

    method StartSc(ghost i: nat, t: int)
      requires window.Valid() && i < |window.slices| && window.slices[i] == this
      requires runningProcess == null && MayReport(window.Snap(), i)
      modifies window`finishedScPartitions, window`launches, window.repr
      ensures window.Valid()
      ensures window.Snap() == M.StartScAt(old(window.Snap()), i, t)
      decreases 1, 2, 0, 0
    {
      if sc == null {
        window.SliceScEndCb(i, t);
        return;
      }
      StartPartition(i, sc, t, true);
    }

    method StartBe(ghost i: nat, t: int)
      requires window.Valid() && i < |window.slices| && window.slices[i] == this
      requires runningProcess == null
      modifies window`finishedScPartitions, window`launches, window.repr
      ensures window.Valid()
      ensures var w := old(window.Snap());
              window.Snap() == w.(slices := w.slices[i := M.BeginBe(w.slices[i], t)])
      decreases 0, 2, 0, 0
    {
      if be == null {
        assert window.Snap().slices[i := Snap()] == window.Snap().slices;
        return;
      }
      assert be != sc;
      StartPartition(i, be, t, false);
    }

    /** The timer is stopped and the running process is frozen. */
    method FreezeRunning(markCompleted: bool)
      requires Valid() && runningProcess != null
      modifies `armed, runningProcess`frozen, runningProcess`completed
      ensures Valid() && M.Shaped(old(Snap()))
      ensures var p := M.Current(old(Snap()));
              var x := p.procs[p.cur];
              Snap() == With(old(Snap()), x.(frozen := true, completed := markCompleted || x.completed), p.log).(armed := false)
    {
      hide Valid, M.ProcOk, M.PartOk, Partition.Valid, M.Shaped;
      RunningMeans();
      FrozenOk(runningProcess.Snap(), markCompleted);
      armed := false;
      runningProcess.Suspend();
      if markCompleted {
        runningProcess.MarkCompleted();
      }
      OnlyRunning(runningPartition.current);
    }

    lemma FrozenOk(x: M.Proc, done: bool)
      requires M.ProcOk(x)
      ensures M.ProcOk(x.(frozen := true)) && M.ProcOk(x.(frozen := true, completed := done || x.completed))
    {
    }

    method StopCurrentProcess(t: int, markCompleted: bool)
      requires Valid() && runningProcess != null
      modifies `runningProcess, `armed, runningProcess, runningPartition`log
      ensures Valid() && runningPartition == old(runningPartition) && runningProcess == null
      ensures M.Shaped(old(Snap())) && Snap() == M.EndInSlice(old(Snap()), t, markCompleted)
    {
      SnapIsShaped();
      EndSteps(Snap(), t, markCompleted);
      hide M.EndInSlice, With;
      FreezeRunning(markCompleted);
      EndRun(t, markCompleted);
    }

    /** The end of the run is written to the history, and nothing runs any more. */
    method EndRun(t: int, done: bool)
      requires Valid() && runningProcess != null
      modifies `runningProcess, runningPartition`log
      ensures Valid() && runningPartition == old(runningPartition) && runningProcess == null && M.Shaped(old(Snap()))
      ensures var role := old(Snap()).role.value;
              var p := M.Current(old(Snap()));
              Snap() == M.WithPart(old(Snap()), role, M.Part(p.procs[p.cur := p.procs[p.cur]], p.cur, p.log + [M.Ended(t, role, p.cur, done)]))
                        .(running := false)
    {
      SnapIsShaped();
      hide Valid, M.PartOk;
      RunningMeans();
      ghost var j := runningPartition.current;
      runningPartition.log := runningPartition.log + [M.Ended(t, RoleOf(runningPartition).value, j, done)];
      runningProcess := null;
      OnlyRunning(j);
    }

    method ScheduleNext(ghost i: nat, t: int)
      requires window.Valid() && i < |window.slices| && window.slices[i] == this
      requires runningProcess != null
      requires runningPartition == sc ==> MayReport(window.Snap(), i)
      modifies window`finishedScPartitions, window`launches, window.repr
      ensures window.Valid()
      ensures window.Snap() == M.ScheduleNext(old(window.Snap()), i, t)
    {
      ghost var w := window.Snap();
      StopCurrentProcess(t, true);
      window.OnlySlice(i);
      MayReportStays(w, i, Snap());
      StartNextProcess(i, t);
    }

    method StopTimerAndDisconnect()
      requires Valid()
      modifies Footprint()
      ensures Valid() && M.Shaped(old(Snap())) && Snap() == old(Snap()).(armed := false, linked := {})
      ensures runningProcess == old(runningProcess) && runningPartition == old(runningPartition)
    {
      hide Valid, Snap;
      SnapIsShaped();
      NoRoleLeft(Snap().linked);
      StopTimer();
      DisconnectFrom(sc, M.Sc);
      DisconnectFrom(be, M.Be);
    }

    method StopTimer()
      requires Valid()
      modifies `armed
      ensures Valid() && Snap() == old(Snap()).(armed := false)
      ensures runningProcess == old(runningProcess) && runningPartition == old(runningPartition)
    {
      armed := false;
      assert PartSnap(sc) == old(PartSnap(sc)) && PartSnap(be) == old(PartSnap(be));
    }

    method DisconnectFrom(part: Partition?, ghost role: M.Role)
      requires Valid() && part == Part(role)
      modifies Footprint()
      ensures Valid() && Snap() == old(Snap()).(linked := old(Snap()).linked - {role})
      ensures runningProcess == old(runningProcess) && runningPartition == old(runningPartition)
    {
      hide Partition.Valid, Partition.Snap, M.PartOk;
      if part == null {
        return;
      }
      part.Disconnect();
      ghost var other := if role.Sc? then be else sc;
      if other != null {
        other.Untouched();
      }
    }

    method StoreRemaining(ms: int)
      requires Valid() && runningProcess != null && runningPartition == be && be != sc
      requires 0 < ms < runningProcess.budget
      modifies runningProcess`actualBudget
      ensures Valid() && runningProcess != null && old(Snap()).be.Some? && M.Shaped(old(Snap()))
      ensures Snap() == old(Snap()).(be := Some(M.SetRemaining(old(Snap()).be.value, ms)))
    {
      SnapIsShaped();
      runningProcess.SetRemainingBudget(ms);
      OnlyRunning(runningPartition.current);
    }

    /** What `Stop` does to this slice itself; `again` if it still looks for the next process. */
    method StopHere(t: int) returns (again: bool)
      requires Valid() && M.Shaped(Snap()) && P.StopFits(Snap(), t)
      modifies Footprint()
      ensures Valid() && M.Shaped(old(Snap())) && runningPartition == old(runningPartition) && runningProcess == null
      ensures again == (old(Snap()).running && M.Remaining(old(Snap()), t) == 0)
      ensures Snap() == if again then M.EndInSlice(old(Snap()).(linked := {}), t, true) else M.StopSlice(old(Snap()), t).0
      ensures !again ==> !M.StopSlice(old(Snap()), t).1
    {
      StopSteps(Snap(), t);
      hide Valid, M.EndInSlice, M.StopSlice, M.StopUnlinked, M.Remaining, P.StopFits, M.Shaped, Snap, Footprint;
      SnapMeans();
      StopTimerAndDisconnect();
      SnapMeans();
      if runningProcess == null {
        return false;
      }
      again := StopRunning(t);
    }

    /** The running process is through, or cut off and its remainder kept if it is best effort. */
    method StopRunning(t: int) returns (again: bool)
      requires Valid() && runningProcess != null && M.Shaped(Snap()) && Snap().running && P.StopFits(Snap(), t)
      modifies Footprint()
      ensures Valid() && runningPartition == old(runningPartition) && runningProcess == null
      ensures again == (M.Remaining(old(Snap()), t) == 0)
      ensures Snap() == if again then M.EndInSlice(old(Snap()), t, true) else M.StopUnlinked(old(Snap()), t).0
      ensures !again ==> !M.StopUnlinked(old(Snap()), t).1
    {
      hide Valid, M.EndInSlice, M.StopUnlinked, M.TruncMs, P.StopFits, M.Shaped, Snap, Footprint, M.SetRemaining;
      SnapMeans();
      RunningMeans();
      var remaining := M.TruncMs(timeout - t);
      if remaining == 0 {
        StopCurrentProcess(t, true);
        return true;
      }
      CutSteps(Snap(), t);
      if runningPartition == be {
        StoreRemaining(remaining);
      }
      StopCurrentProcess(t, false);
      return false;
    }

    ghost method CountSignal()
      requires Valid()
      modifies `signals
      ensures Valid() && Snap() == old(Snap()).(signals := old(Snap()).signals + 1)
      ensures runningProcess == old(runningProcess)
    {
      signals := signals + 1;
      assert PartSnap(sc) == old(PartSnap(sc)) && PartSnap(be) == old(PartSnap(be));
    }

    ghost method ForgetSignals()
      requires Valid()
      modifies `signals
      ensures Valid() && Snap() == old(Snap()).(signals := 0)
    {
      signals := 0;
      assert PartSnap(sc) == old(PartSnap(sc)) && PartSnap(be) == old(PartSnap(be));
    }

    function Part(role: M.Role): Partition? {
      if role.Sc? then sc else be
    }

    /** Only process `j` of one of the partitions has changed. */
    twostate lemma OnlyProcess(new role: M.Role, j: nat)
      requires old(Valid()) && unchanged(this) && Part(role) != null && j < |Part(role).processes|
      requires unchanged(Part(role))
      requires forall k :: 0 <= k < |Part(role).processes| && k != j ==> unchanged(Part(role).processes[k])
      requires sc != null && sc != Part(role) ==> unchanged(sc) && unchanged(sc.processes)
      requires be != null && be != Part(role) ==> unchanged(be) && unchanged(be.processes)
      requires M.ProcOk(Part(role).processes[j].Snap())
      ensures Valid() && runningProcess == old(runningProcess)
      ensures M.PartOf(old(Snap()), role).Some? && j < |M.PartOf(old(Snap()), role).value.procs|
      ensures var p := M.PartOf(old(Snap()), role).value;
              Snap() == M.WithPart(old(Snap()), role, p.(procs := p.procs[j := Part(role).processes[j].Snap()]))
    {
      hide M.PartOk, M.ProcOk, Partition.Valid;
      Part(role).ProcessKeepsValid(j);
      if sc != null && sc != Part(role) {
        sc.Untouched();
      }
      if be != null && be != Part(role) {
        be.Untouched();
      }
    }

    lemma LinkedMeans(role: M.Role)
      requires Valid() && Part(role) != null
      ensures role in Snap().linked <==> Part(role).owner != null
    {
    }

    lemma LinkedAt(i: nat, role: M.Role)
      requires window.Valid() && i < |window.slices| && window.slices[i] == this && Part(role) != null
      ensures Valid() && window.Snap().slices[i] == Snap() && (role in Snap().linked <==> Part(role).owner != null)
    {
      LinkedMeans(role);
    }

    /**
     * The client of process `j` of one of the partitions has signalled completion. While the
     * partition is connected, the slice must run something then.
     */
    method CompletedCb(ghost i: nat, role: M.Role, j: nat, now: int)
      requires window.Valid() && i < |window.slices| && window.slices[i] == this
      requires Part(role) != null && j < |Part(role).processes|
      requires role in Snap().linked ==> runningProcess != null
      requires role in Snap().linked && runningPartition == sc ==> MayReport(window.Snap(), i)
      modifies window`finishedScPartitions, window`launches, window.repr
      ensures window.Valid()
      ensures var w := old(window.Snap());
              window.Snap() == if role in w.slices[i].linked then M.CompleteAt(w, i, role, j, now) else M.NoteAt(w, i, role, j)
    {
      LinkedAt(i, role);
      hide M.NoteAt, M.ScheduleNext, M.Shaped, M.WinShaped, Valid, Linked, Snap, Window.Valid, Window.Snap, MayReport;
      NoteSignalAt(i, role, j);
      if Part(role).owner != null {
        ScheduleNext(i, now);
      }
    }

    /** The signal itself, without what it may lead to. */
    method NoteSignalAt(ghost i: nat, role: M.Role, j: nat)
      requires window.Valid() && i < |window.slices| && window.slices[i] == this
      requires Part(role) != null && j < |Part(role).processes|
      modifies Part(role).processes[j]
      ensures window.Valid() && M.PartOf(old(window.Snap().slices[i]), role).Some?
      ensures window.Snap() == M.NoteAt(old(window.Snap()), i, role, j)
      ensures MayReport(old(window.Snap()), i) ==> MayReport(window.Snap(), i)
    {
      hide M.Shaped;
      ghost var w := window.Snap();
      NoteSignal(role, j);
      window.OnlySlice(i);
      MayReportStays(w, i, Snap());
    }

    method NoteSignal(role: M.Role, j: nat)
      requires Valid() && Part(role) != null && j < |Part(role).processes|
      modifies Part(role).processes[j]
      ensures Valid() && M.PartOf(old(Snap()), role).Some?
      ensures var p := M.PartOf(old(Snap()), role).value;
              Snap() == M.WithPart(old(Snap()), role, p.(procs := p.procs[j := p.procs[j].(signalled := true)]))
    {
      Part(role).processes[j].SignalCompletion();
      OnlyProcess(role, j);
    }

    /** Process `j` of one of the partitions has ended. */
    method ExitCb(role: M.Role, j: nat)
      requires Valid() && Part(role) != null && j < |Part(role).processes|
      modifies Part(role).processes[j]
      ensures Valid() && M.PartOf(old(Snap()), role).Some?
      ensures var p := M.PartOf(old(Snap()), role).value;
              Snap() == M.WithPart(old(Snap()), role, p.(procs := p.procs[j := p.procs[j].(spawned := false)]))
    {
      Part(role).processes[j].HandleEnd();
      OnlyProcess(role, j);
    }

    method ClearRunning()
      requires Valid()
      modifies `runningProcess
      ensures Valid() && Snap() == old(Snap()).(running := false)
    {
      runningProcess := null;
      assert PartSnap(sc) == old(PartSnap(sc)) && PartSnap(be) == old(PartSnap(be));
    }

    /** The search for the next process after a run which ended with the window. */
    method PrepareNext(ghost i: nat, t: int)
      requires window.Valid() && i < |window.slices| && window.slices[i] == this
      requires runningProcess == null && runningPartition != null && window.stopping
      modifies window`finishedScPartitions, window`launches, window.repr
      ensures window.Valid() && old(window.Snap().slices[i].role).Some?
      ensures var v := M.LoadNext(old(window.Snap()), i, t).0;
              window.Snap() == v.(slices := v.slices[i := v.slices[i].(running := false)])
    {
      hide M.LoadNext;
      var found := LoadNextProcess(i, t);
      label loaded:
      ClearRunning();
      window.OnlySlice@loaded(i);
    }

    method Stop(ghost i: nat, t: int)
      requires window.Valid() && i < |window.slices| && window.slices[i] == this
      requires window.stopping && P.StopFits(window.Snap().slices[i], t)
      modifies window`finishedScPartitions, window`launches, window.repr
      ensures window.Valid()
      ensures window.Snap() == M.StopAt(old(window.Snap()), i, t)
    {
      ghost var w := window.Snap();
      var again := StopHere(t);
      window.OnlySlice(i);
      if again {
        StopUnfolds(w, i, t);
        hide M.StopAt, M.LoadNext, M.EndInSlice;
        PrepareNext(i, t);
      }
    }
  }

  /** One more element of `prev` is replaced by its successor in `next`. */
  lemma Advance<T>(next: seq<T>, prev: seq<T>, k: nat)
    requires |next| == |prev| && k < |prev|
    ensures (next[..k] + prev[k..])[k := next[k]] == next[..k + 1] + prev[k + 1..]
    ensures (next[..k] + prev[k..])[k] == prev[k]
  {
  }

  /** In `Window::start` a report of the slice whose turn it is may launch best effort. */
  lemma StartedMayReport(w: M.Win, i: nat)
    requires P.StartedUpTo(w, i) && i < |w.slices|
    ensures MayReport(w, i)
  {
    hide P.SliceOk, P.ScDone;
    if w.finished + 1 == |w.slices| {
      P.ReportLast(w, i, i + 1);
    }
  }

  /** So may a report of a slice whose safety-critical process was running. */
  lemma RunningMayReport(w: M.Win, i: nat)
    requires P.Inv(w) && i < |w.slices| && w.slices[i].running
    ensures w.slices[i].role == Some(M.Sc) ==> MayReport(w, i)
  {
    hide P.SliceOk, P.ScDone;
    if w.slices[i].role == Some(M.Sc) && w.finished + 1 == |w.slices| {
      var s := w.slices[i].(running := false);
      P.SignalsUpdate(w.slices, i, s);
      var v := w.(slices := w.slices[i := s]);
      P.ReportLast(v, i, |w.slices|);
      assert forall k :: 0 <= k < |w.slices| && k != i ==> v.slices[k] == w.slices[k];
    }
  }

  lemma StopTouchesOnly(w: M.Win, i: nat, t: int)
    requires M.WinShaped(w) && i < |w.slices| && w.stopping
    ensures forall k :: 0 <= k < |w.slices| && k != i ==> M.StopAt(w, i, t).slices[k] == w.slices[k]
  {
    hide M.StopSlice;
  }

  class Window {
    const length: int
    var slices: seq<Slice>
    var finishedScPartitions: nat
    var stopping: bool
    ghost var launches: nat
    ghost var repr: set<object>

    ghost predicate Valid()
      reads this, repr
    {
      && this !in repr
      && (forall i :: 0 <= i < |slices| ==>
            slices[i] in repr && slices[i].window == this && slices[i].Footprint() <= repr && slices[i].Valid())
      && (forall i, j :: 0 <= i < j < |slices| ==> slices[i].Footprint() !! slices[j].Footprint())
    }

    ghost function Snap(): (w: M.Win)
      reads this, repr
      requires Valid()
      ensures |w.slices| == |slices|
      ensures forall i :: 0 <= i < |slices| ==> w.slices[i] == slices[i].Snap()
      ensures w.finished == finishedScPartitions && w.stopping == stopping && w.launches == launches
      ensures M.WinShaped(w)
    {
      forall i | 0 <= i < |slices|
        ensures M.Shaped(slices[i].Snap())
      {
        slices[i].SnapIsShaped();
      }
      M.Win(seq(|slices|, i requires 0 <= i < |slices| && Valid() reads this, repr => slices[i].Snap()),
            finishedScPartitions, stopping, launches)
    }

    /** Only slice `i` and what belongs to it has changed. */
    twostate lemma OnlySlice(i: nat)
      requires old(Valid()) && unchanged(this) && i < |slices|
      requires forall o: object :: o in repr && o !in slices[i].Footprint() ==> unchanged(o)
      requires slices[i].Valid()
      ensures Valid()
      ensures Snap() == old(Snap()).(slices := old(Snap()).slices[i := slices[i].Snap()])
    {
      forall k | 0 <= k < |slices| && k != i
        ensures slices[k].Valid() && slices[k].Snap() == old(slices[k].Snap())
      {
        assert slices[k].Footprint() !! slices[i].Footprint();
        assert forall o: object :: o in slices[k].Footprint() ==> unchanged(o);
      }
      assert Snap().slices == old(Snap()).slices[i := slices[i].Snap()];
    }

    /** Only the fields of the window itself have changed. */
    twostate lemma OnlyCounters()
      requires old(Valid()) && slices == old(slices) && repr == old(repr)
      requires forall o: object :: o in repr ==> unchanged(o)
      ensures Valid()
      ensures Snap() == old(Snap()).(finished := finishedScPartitions, stopping := stopping, launches := launches)
    {
      forall k | 0 <= k < |slices|
        ensures slices[k].Valid() && slices[k].Snap() == old(slices[k].Snap())
      {
        assert forall o: object :: o in slices[k].Footprint() ==> unchanged(o);
      }
      assert Snap().slices == old(Snap()).slices;
    }

    predicate HasScFinished()
      reads this
    {
      finishedScPartitions == |slices|
    }

    /** The report itself, without the launch which may follow it. */
    method NoteReport(ghost i: nat)
      requires Valid() && i < |slices|
      modifies `finishedScPartitions, slices[i]
      ensures Valid()
      ensures var w := old(Snap());
              Snap() == w.(finished := w.finished + 1, slices := w.slices[i := w.slices[i].(signals := w.slices[i].signals + 1)])
    {
      finishedScPartitions := finishedScPartitions + 1;
      OnlyCounters();
      label counted:
      slices[i].CountSignal();
      OnlySlice@counted(i);
    }

    method StartBePartitions(t: int)
      requires Valid() && forall k :: 0 <= k < |slices| ==> !Snap().slices[k].running
      modifies `finishedScPartitions, `launches, repr
      ensures Valid()
      ensures Snap() == old(Snap()).(slices := M.BeginBeAll(old(Snap()).slices, t))
      decreases 0, 3, 0, 0
    {
      hide M.BeginBe, M.BeginBeAll, Launched, M.Shaped;
      ghost var w := Snap();
      var k := 0;
      LaunchedFirst(w.slices, t);
      while k < |slices|
        invariant k <= |slices| == |w.slices| && Valid()
        invariant Snap() == w.(slices := Launched(w.slices, k, t))
      {
        LaunchedNext(w.slices, k, t);
        slices[k].StartBe(k, t);
        k := k + 1;
      }
    }

    /** The best-effort partitions of the first `k` slices are launched. */
    static ghost function Launched(slices: seq<M.Slice>, k: nat, t: int): (r: seq<M.Slice>)
      requires k <= |slices| && forall i :: 0 <= i < |slices| ==> M.Shaped(slices[i])
      ensures |r| == |slices| && forall i :: k <= i < |slices| ==> r[i] == slices[i]
    {
      M.BeginBeAll(slices, t)[..k] + slices[k..]
    }

    static lemma LaunchedFirst(slices: seq<M.Slice>, t: int)
      requires forall i :: 0 <= i < |slices| ==> M.Shaped(slices[i])
      ensures Launched(slices, 0, t) == slices && Launched(slices, |slices|, t) == M.BeginBeAll(slices, t)
    {
      hide M.Shaped;
      var u := M.BeginBeAll(slices, t);
      assert u[..0] + slices[0..] == slices && u[..|slices|] + slices[|slices|..] == u;
    }

    static lemma LaunchedNext(slices: seq<M.Slice>, k: nat, t: int)
      requires k < |slices| && forall i :: 0 <= i < |slices| ==> M.Shaped(slices[i])
      ensures var f := Launched(slices, k, t);
              && f[k] == slices[k] && M.Shaped(f[k])
              && f[k := M.BeginBe(f[k], t)] == Launched(slices, k + 1, t)
    {
      hide M.Shaped, M.BeginBe;
      Advance(M.BeginBeAll(slices, t), slices, k);
    }

    method SliceScEndCb(ghost i: nat, t: int)
      requires Valid() && i < |slices| && slices[i].runningProcess == null && MayReport(Snap(), i)
      modifies `finishedScPartitions, `launches, repr
      ensures Valid()
      ensures Snap() == M.ScEnd(old(Snap()), i, t)
      decreases 0, 4, 0, 0
    {
      hide M.BeginBeAll;
      NoteReport(i);
      if stopping {
        return;
      }
      if HasScFinished() {
        label reported:
        launches := launches + 1;
        OnlyCounters@reported();
        StartBePartitions(t);
      }
    }

    constructor (length: int)
      ensures Valid() && this.length == length && slices == [] && repr == {} && P.Idle(Snap())
    {
      this.length := length;
      slices := [];
      finishedScPartitions := 0;
      stopping := false;
      launches := 0;
      repr := {};
    }

    /** `s` has been put behind the slices there were. */
    twostate lemma Appended(new s: Slice)
      requires old(Valid()) && old(allocated(this)) && slices == old(slices) + [s] && repr == old(repr) + s.Footprint()
      requires finishedScPartitions == old(finishedScPartitions) && stopping == old(stopping) && launches == old(launches)
      requires forall o: object :: o in old(repr) ==> unchanged(o)
      requires s.Footprint() !! old(repr) && this !in s.Footprint() && s.window == this && s.Valid()
      ensures Valid() && Snap() == old(Snap()).(slices := old(Snap()).slices + [s.Snap()])
    {
      forall k | 0 <= k < |slices| - 1
        ensures slices[k] == old(slices)[k] && slices[k].Valid() && slices[k].Snap() == old(slices[k].Snap())
        ensures slices[k].Footprint() <= old(repr)
      {
        assert forall o: object :: o in slices[k].Footprint() ==> unchanged(o);
      }
      assert Snap().slices == old(Snap()).slices + [s.Snap()];
    }

    method AddSlice(sc: Partition?, be: Partition?) returns (s: Slice)
      requires Valid() && P.Idle(Snap())
      requires PartFootprint(sc) !! PartFootprint(be) && PartFootprint(sc) + PartFootprint(be) !! repr
      requires this !in PartFootprint(sc) + PartFootprint(be)
      requires sc != null ==> sc.Valid() && P.Quiet(sc.Snap()) && sc.owner == null
      requires be != null ==> be.Valid() && P.Quiet(be.Snap()) && be.owner == null
      modifies `slices, `repr
      ensures Valid() && P.Idle(Snap())
      ensures slices == old(slices) + [s] && repr == old(repr) + {s} + PartFootprint(sc) + PartFootprint(be)
      ensures fresh(s) && s.window == this && s.sc == sc && s.be == be
      ensures s.runningProcess == null && s.runningPartition == null && !s.armed
      ensures Snap().slices == old(Snap()).slices + [s.Snap()]
    {
      hide P.Idle, P.SliceOk, P.Quiet, M.PartOk, Slice.Snap;
      s := new Slice(this, sc, be);
      FreshIdle(Snap(), s);
      slices := slices + [s];
      repr := repr + s.Footprint();
      Appended(s);
    }

    lemma FreshIdle(w: M.Win, s: Slice)
      requires P.Idle(w) && s.Valid() && s.runningProcess == null && s.runningPartition == null && !s.armed && s.Snap().linked == {}
      requires s.sc != null ==> P.Quiet(s.sc.Snap())
      requires s.be != null ==> P.Quiet(s.be.Snap())
      ensures P.Idle(w.(slices := w.slices + [s.Snap()]))
    {
      assert P.SliceOk(s.Snap());
      hide P.SliceOk;
    }

    /** The reports of slice `i` to the previous window are forgotten. */
    ghost method ForgetReportsOf(i: nat)
      requires Valid() && i < |slices|
      modifies slices[i]
      ensures Valid()
      ensures var w := old(Snap());
              Snap() == w.(slices := w.slices[i := w.slices[i].(signals := 0)])
    {
      slices[i].ForgetSignals();
      OnlySlice(i);
    }

    ghost method ForgetEach()
      requires Valid()
      modifies slices
      ensures Valid() && Snap() == old(Snap()).(slices := M.Unsignalled(old(Snap()).slices))
    {
      hide M.Shaped, M.Unsignalled, Forgot;
      var w := Snap();
      var k := 0;
      ForgotFirst(w.slices);
      while k < |slices|
        invariant k <= |slices| == |w.slices| && Valid()
        invariant Snap() == w.(slices := Forgot(w.slices, k))
      {
        ForgotNext(w.slices, k);
        ForgetReportsOf(k);
        k := k + 1;
      }
    }

    /** The reports of the first `k` slices are forgotten. */
    static ghost function Forgot(slices: seq<M.Slice>, k: nat): (r: seq<M.Slice>)
      requires k <= |slices|
      ensures |r| == |slices|
    {
      M.Unsignalled(slices)[..k] + slices[k..]
    }

    static lemma ForgotFirst(slices: seq<M.Slice>)
      ensures Forgot(slices, 0) == slices && Forgot(slices, |slices|) == M.Unsignalled(slices)
    {
      var u := M.Unsignalled(slices);
      assert u[..0] + slices[0..] == slices && u[..|slices|] + slices[|slices|..] == u;
    }

    static lemma ForgotNext(slices: seq<M.Slice>, k: nat)
      requires k < |slices|
      ensures var f := Forgot(slices, k); f[k := f[k].(signals := 0)] == Forgot(slices, k + 1)
    {
      Advance(M.Unsignalled(slices), slices, k);
    }

    /** The history of the previous window is forgotten; no slice changes otherwise. */
    method ForgetReports()
      requires Valid()
      modifies `finishedScPartitions, `launches, slices
      ensures Valid()
      ensures Snap() == old(Snap()).(finished := 0, launches := 0, slices := M.Unsignalled(old(Snap()).slices))
    {
      finishedScPartitions := 0;
      launches := 0;
      OnlyCounters();
      ForgetEach();
    }

    /** The loop of `start`: every slice is started in turn, and reports may already launch best effort. */
    method StartSlices(t: int)
      requires Valid() && P.StartedUpTo(Snap(), 0)
      modifies `finishedScPartitions, `launches, repr
      ensures Valid() && Snap() == M.StartFrom(old(Snap()), 0, t)
      ensures P.Inv(Snap())
    {
      hide M.StartScAt, P.SliceOk, P.InPhase, P.Counted;
      var k := 0;
      while k < |slices|
        invariant k <= |slices| && Valid() && P.StartedUpTo(Snap(), k)
        invariant M.StartFrom(Snap(), k, t) == M.StartFrom(old(Snap()), 0, t)
      {
        StartedMayReport(Snap(), k);
        P.StartScAtSafe(Snap(), k, t);
        slices[k].StartSc(k, t);
        k := k + 1;
      }
    }

    method Start(t: int)
      requires Valid() && P.Idle(Snap())
      modifies `finishedScPartitions, `launches, repr
      ensures Valid() && Snap() == M.Start(old(Snap()), t)
      ensures P.Inv(Snap())
    {
      P.UnsignalledSafe(Snap());
      ForgetReports();
      StartSlices(t);
    }

    method StopSlices(t: int)
      requires Valid() && stopping
      requires forall k :: 0 <= k < |slices| ==> P.StopFits(Snap().slices[k], t)
      modifies `finishedScPartitions, `launches, repr
      ensures Valid() && Snap() == M.StopFrom(old(Snap()), 0, t)
    {
      hide M.StopAt, P.StopFits;
      var k := 0;
      while k < |slices|
        invariant k <= |slices| && Valid()
        invariant forall j :: k <= j < |slices| ==> Snap().slices[j] == old(Snap()).slices[j]
        invariant M.StopFrom(Snap(), k, t) == M.StopFrom(old(Snap()), 0, t)
      {
        StopTouchesOnly(Snap(), k, t);
        slices[k].Stop(k, t);
        k := k + 1;
      }
    }

    method Stop(t: int)
      requires Valid()
      requires forall k :: 0 <= k < |slices| ==> P.StopFits(Snap().slices[k], t)
      modifies `finishedScPartitions, `launches, `stopping, repr
      ensures Valid() && Snap() == M.Stop(old(Snap()), t)
    {
      stopping := true;
      OnlyCounters();
      StopSlices(t);
      label stopped:
      stopping := false;
      OnlyCounters@stopped();
    }

    /** The event loop has an event for this window: its callback runs to the end. */
    method Dispatch(e: P.Step)
      requires Valid() && P.Inv(Snap()) && P.Enabled(Snap(), e)
      modifies `finishedScPartitions, `launches, repr
      ensures Valid() && Snap() == P.Apply(old(Snap()), e)
    {
      hide M.NoteAt, M.ScheduleNext, M.Shaped, P.Inv;
      ghost var w := Snap();
      match e
      case Timeout(i) =>
        RunningMayReport(w, i);
        slices[i].ScheduleNext(i, slices[i].timeout);
      case Complete(i, role, j, now) =>
        RunningMayReport(w, i);
        slices[i].CompletedCb(i, role, j, now);
      case Note(i, role, j) =>
        slices[i].CompletedCb(i, role, j, 0);
      case Exit(i, role, j) =>
        slices[i].ExitCb(role, j);
        OnlySlice(i);
    }
  }
}
