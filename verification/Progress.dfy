/**
 * Timely runs of a window come to an end: as long as a timeout lies before the end of the window
 * one can be served, and no more are served than there are processes.
 */
module Progress {
  import opened Options
  import opened Model
  import opened Phases
  import opened TimeTable

  /** The running slice with the earliest timeout among the first `n`. */
  lemma {:induction false} Earliest(w: Win, n: nat) returns (e: Option<nat>)
    requires n <= |w.slices|
    ensures e.None? ==> forall k :: 0 <= k < n ==> !w.slices[k].running
    ensures e.Some? ==>
              && e.value < n && w.slices[e.value].running
              && forall k :: 0 <= k < n && w.slices[k].running ==> w.slices[e.value].timeout <= w.slices[k].timeout
  {
    if n == 0 {
      e := None;
    } else {
      e := Earliest(w, n - 1);
      if w.slices[n - 1].running && (e.None? || w.slices[n - 1].timeout < w.slices[e.value].timeout) {
        e := Some(n - 1);
      }
    }
  }

  /** Unless the window is over, some timeout is due. */
  lemma SomethingIsDue(w: Win, end: int)
    requires WinShaped(w) && !Over(w, end)
    ensures exists i :: Due(w, i, end)
  {
    var e := Earliest(w, |w.slices|);
    assert Due(w, e.value, end);
  }

  function Size(p: Option<Part>): nat {
    if p.Some? then |p.value.procs| else 0
  }

  /** How many timeouts a slice can still cause. */
  ghost function SliceWork(s: Slice, all: bool): nat {
    if s.signals == 0 then (if s.sc.Some? then OpenCount(s.sc.value.procs) else 0) + Size(s.be)
    else if !all then Size(s.be)
    else if s.running && s.be.Some? then OpenCount(s.be.value.procs)
    else 0
  }

  ghost function Work(slices: seq<Slice>, all: bool): nat {
    if |slices| == 0 then 0 else Work(slices[..|slices| - 1], all) + SliceWork(slices[|slices| - 1], all)
  }

  lemma {:induction false} WorkLess(a: seq<Slice>, b: seq<Slice>, all: bool, all': bool, i: nat)
    requires |a| == |b| && i < |a|
    requires forall k :: 0 <= k < |a| ==> SliceWork(b[k], all') <= SliceWork(a[k], all)
    requires SliceWork(b[i], all') < SliceWork(a[i], all)
    ensures Work(b, all') < Work(a, all)
  {
    hide SliceWork;
    var n := |a| - 1;
    if i < n {
      WorkLess(a[..n], b[..n], all, all', i);
    } else {
      WorkNoMore(a[..n], b[..n], all, all');
    }
  }

  lemma {:induction false} WorkNoMore(a: seq<Slice>, b: seq<Slice>, all: bool, all': bool)
    requires |a| == |b|
    requires forall k :: 0 <= k < |a| ==> SliceWork(b[k], all') <= SliceWork(a[k], all)
    ensures Work(b, all') <= Work(a, all)
  {
    hide SliceWork;
    if |a| > 0 {
      var n := |a| - 1;
      WorkNoMore(a[..n], b[..n], all, all');
    }
  }

  /** The work of one slice shrinks by a turn. */
  lemma TurnWork(s: Slice, all: bool)
    requires SliceOk(s) && InPhase(s, all) && s.running
    ensures var r := StartNextInSlice(EndInSlice(s, s.timeout, true), s.timeout);
            && SliceOk(r) && r.signals == s.signals && r.role == s.role && (s.role == Some(Sc) ==> s.signals == 0)
            && (r.running || r.role == Some(Be) ==> SliceWork(r, all) < SliceWork(s, all))
            && (!r.running && r.role == Some(Sc) ==> Size(r.be) < SliceWork(s, all))
  {
    var p := Current(s);
    var e := EndInSlice(s, s.timeout, true);
    EndSafe(s, s.timeout, true);
    StartNextInSliceSafe(e, s.timeout);
    assert s.role.value == Sc || s.role.value == Be;
    assert Runs(p);
    assert Current(e) == EndCurrent(p, s.role.value, s.timeout, true);
    var (q, b) := Turn(p, s.role.value, s.timeout);
    assert Current(StartNextInSlice(e, s.timeout)) == q;
  }

  lemma LaunchWork(s: Slice, t: int)
    requires SliceOk(s) && !s.running && s.signals == 1
    ensures SliceWork(BeginBe(s, t), true) <= Size(s.be)
  {
    if s.be.Some? {
      BeginSafe(s, Be, t);
      var r := BeginBe(s, t);
      assert r.be == Some(Current(r));
      assert |r.be.value.procs| == |s.be.value.procs|;
      OpenCountBound(r.be.value.procs);
    }
  }

  lemma ReportWork(w: Win, v: Win, i: nat, t: int)
    requires Inv(w) && WinShaped(w) && WinShaped(v) && i < |w.slices| == |v.slices| && !v.stopping
    requires w.slices[i].signals == 0
    requires v.finished == w.finished && Counted(v)
    requires forall k :: 0 <= k < |w.slices| && k != i ==> v.slices[k] == w.slices[k]
    requires SliceOk(v.slices[i]) && !v.slices[i].running && v.slices[i].signals == 0
    requires Size(v.slices[i].be) < SliceWork(w.slices[i], AllReported(w))
    ensures Work(ScEnd(v, i, t).slices, AllReported(ScEnd(v, i, t))) < Work(w.slices, AllReported(w))
  {
    hide SliceOk, ScDone, PartIn, BeginBe;
    SomeUnreported(w, i);
    ReportCounts(v, i, |v.slices|);
    var slices := v.slices[i := v.slices[i].(signals := 1)];
    var r := ScEnd(v, i, t);
    ReportSafe(v.slices[i], 1);
    if v.finished + 1 == |v.slices| {
      ReportLast(v, i, |v.slices|);
      forall k | 0 <= k < |slices|
        ensures SliceWork(r.slices[k], true) <= SliceWork(w.slices[k], false)
        ensures k == i ==> SliceWork(r.slices[k], true) < SliceWork(w.slices[k], false)
      {
        LaunchWork(slices[k], t);
        assert r.slices[k] == BeginBe(slices[k], t);
      }
      WorkLess(w.slices, r.slices, false, true, i);
    } else {
      assert r.slices == slices;
      WorkLess(w.slices, r.slices, false, false, i);
    }
  }

  /** Every timeout served leaves less work. */
  lemma TickWork(w: Win, i: nat)
    requires Inv(w) && WinShaped(w) && i < |w.slices| && w.slices[i].running
    ensures var v := ScheduleNext(w, i, w.slices[i].timeout);
            Work(v.slices, AllReported(v)) < Work(w.slices, AllReported(w))
  {
    hide PartIn, ScDone, SliceWork, StartNextInSlice, EndInSlice, ScEnd, ScheduleNext;
    var s := w.slices[i];
    var t := s.timeout;
    var r := StartNextInSlice(EndInSlice(s, t, true), t);
    TurnWork(s, AllReported(w));
    ScheduleNextIs(w, i, t);
    SignalsUpdate(w.slices, i, r);
    assert r.role.value == Sc || r.role.value == Be;
    var v := w.(slices := w.slices[i := r]);
    if !r.running && r.role == Some(Sc) {
      ReportWork(w, v, i, t);
    } else {
      assert forall k :: 0 <= k < |w.slices| && k != i ==> v.slices[k] == w.slices[k];
      WorkLess(w.slices, v.slices, AllReported(w), AllReported(w), i);
    }
  }

  /** A timely run serves at most as many timeouts as there was work when the window was started. */
  lemma {:induction false} RunIsBounded(w0: Win, from: int, end: int, order: seq<nat>, states: seq<Win>, k: nat)
    requires TimelyRun(w0, from, end, order, states) && k <= |order|
    ensures k + Work(states[k].slices, AllReported(states[k])) <= Work(states[0].slices, AllReported(states[0]))
  {
    hide Start, ScheduleNext, Work;
    if k > 0 {
      RunIsBounded(w0, from, end, order, states, k - 1);
      RunTracks(w0, from, end, order, states, k - 1);
      TickWork(states[k - 1], order[k - 1]);
    }
  }

  ghost function Processes(slices: seq<Slice>): nat {
    if |slices| == 0 then 0
    else Processes(slices[..|slices| - 1]) + Size(slices[|slices| - 1].sc) + Size(slices[|slices| - 1].be)
  }

  lemma {:induction false} WorkBound(slices: seq<Slice>, all: bool)
    ensures Work(slices, all) <= Processes(slices)
  {
    if |slices| > 0 {
      var s := slices[|slices| - 1];
      WorkBound(slices[..|slices| - 1], all);
      if s.sc.Some? {
        OpenCountBound(s.sc.value.procs);
      }
      if s.be.Some? {
        OpenCountBound(s.be.value.procs);
      }
    }
  }

  /** So a window with `n` processes serves at most `n` timeouts of its slices. */
  lemma RunsEnd(w0: Win, from: int, end: int, order: seq<nat>, states: seq<Win>)
    requires TimelyRun(w0, from, end, order, states)
    ensures |order| <= Processes(states[0].slices)
    ensures Over(states[|order|], end) || exists i :: Due(states[|order|], i, end)
  {
    RunIsBounded(w0, from, end, order, states, |order|);
    WorkBound(states[0].slices, AllReported(states[0]));
    RunTracks(w0, from, end, order, states, |order|);
    if !Over(states[|order|], end) {
      SomethingIsDue(states[|order|], end);
    }
  }
}
