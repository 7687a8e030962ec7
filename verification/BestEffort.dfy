/**
 * A slice seen by its best-effort partition alone. In a window this is launched at most once,
 * and afterwards only the end of its running process, by timeout or by a signal, takes it on.
 */
module BestEffort {
  import opened Options
  import opened Model
  import opened Phases

  /** A best-effort partition and, while a process of it runs, when that has used up its budget. */
  datatype Side = Side(part: Option<Part>, due: Option<int>)

  function BeSide(s: Slice): Side {
    Side(s.be, if s.running && s.role == Some(Be) then Some(s.timeout) else None)
  }

  predicate SideOk(a: Side) {
    a.part.Some? ==> a.part.value.cur < |a.part.value.procs|
  }

  /** The next process is started at `t`, if there is one. */
  function Goes(p: Part, t: int): Side
    requires p.cur < |p.procs|
  {
    var (q, b) := StartNext(p, Be, t);
    Side(Some(q), if b.None? then None else Some(t + Ms(b.value)))
  }

  /** The partition is launched at `t`. */
  function Launched(a: Side, t: int): Side
    requires SideOk(a)
  {
    if a.part.None? then a else Goes(Reset(a.part.value, false), t)
  }

  /** Its running process ends at `t`. */
  function Moved(a: Side, t: int): Side
    requires SideOk(a) && a.part.Some?
  {
    Goes(EndCurrent(a.part.value, Be, t, true), t)
  }

  /** A signal of a process is noted, or it has ended. */
  ghost predicate Flag(a: Side, b: Side, exits: bool) {
    && b.due == a.due
    && (b.part == a.part || exists j: nat, x :: Flags(a, b, j, x, exits))
  }

  ghost predicate Flags(a: Side, b: Side, j: nat, x: Proc, exits: bool) {
    && a.part.Some? && j < |a.part.value.procs|
    && b.part == Some(a.part.value.(procs := a.part.value.procs[j := x]))
    && var y := a.part.value.procs[j]; x == y.(signalled := true) || (exits && x == y.(spawned := false))
  }

  /**
   * What an event at `t` can do to the partition, besides: nothing, a launch, or, if the event
   * concerns its slice (`own`), the end of its running process. The numbers are those of launches.
   */
  ghost predicate Onward(a: Side, launches: nat, b: Side, after: nat, t: int, own: bool)
    requires SideOk(a)
  {
    || (after == launches && b == a)
    || (launches == 0 && after == 1 && a.due.None? && b == Launched(a, t))
    || (own && after == launches && a.part.Some? && a.due.Some? && b == Moved(a, t))
  }

  // ----- The calls of a window -----

  ghost predicate Carries(w: Win, r: Win, i: nat, t: int, own: bool) {
    && |r.slices| == |w.slices| && i < |w.slices| && SideOk(BeSide(w.slices[i]))
    && Onward(BeSide(w.slices[i]), w.launches, BeSide(r.slices[i]), r.launches, t, own)
  }

  lemma BeginBeSide(s: Slice, n: nat, t: int)
    requires SliceOk(s) && !s.running
    ensures var v := s.(signals := n);
            Shaped(v) && SideOk(BeSide(s)) && BeSide(BeginBe(v, t)) == Launched(BeSide(s), t)
  {
    hide StartNext, Reset;
    var v := s.(signals := n);
    if s.be.Some? {
      var u := WithPart(v, Be, Reset(s.be.value, false)).(role := Some(Be));
      assert Current(u) == Reset(s.be.value, false);
    }
  }

  lemma ScEndCarries(w: Win, m: nat, hi: nat, t: int, i: nat)
    requires WinShaped(w) && m < hi <= |w.slices| && !w.stopping && Counted(w) && i < |w.slices|
    requires forall k :: 0 <= k < |w.slices| ==> SliceOk(w.slices[k])
    requires forall k :: 0 <= k < hi && k != m ==> InPhase(w.slices[k], AllReported(w))
    requires forall k :: hi <= k < |w.slices| ==> !w.slices[k].running && w.slices[k].signals == 0
    requires !w.slices[m].running && w.slices[m].signals == 0
    ensures Carries(w, ScEnd(w, m, t), i, t, false)
  {
    hide SliceOk, ScDone, BeginBe, Launched;
    ReportCounts(w, m, hi);
    BeSideShape(w.slices[i]);
    if w.finished + 1 == |w.slices| {
      ReportLast(w, m, hi);
      BeginBeSide(w.slices[i], if i == m then 1 else w.slices[i].signals, t);
      assert i != m ==> w.slices[i].(signals := w.slices[i].signals) == w.slices[i];
    }
  }

  lemma BeSideShape(s: Slice)
    requires SliceOk(s)
    ensures SideOk(BeSide(s)) && Shaped(s)
  {
  }

  lemma StartScAtCarries(w: Win, m: nat, t: int, i: nat)
    requires StartedUpTo(w, m) && m < |w.slices| && WinShaped(w) && i < |w.slices|
    ensures Carries(w, StartScAt(w, m, t), i, t, false)
  {
    SignalsFull(w.slices);
    hide Begin, SliceOk, ScDone, ScEnd, Onward, Launched;
    if w.slices[m].sc.None? {
      ScEndCarries(w, m, m + 1, t, i);
    } else {
      var s := Begin(w.slices[m], Sc, t);
      BeginScSide(w.slices[m], t);
      SignalsUpdate(w.slices, m, s);
      var v := w.(slices := w.slices[m := s]);
      BeSideShape(w.slices[i]);
      if !s.running {
        ScEndCarries(v, m, m + 1, t, i);
        assert Carries(v, ScEnd(v, m, t), i, t, false);
      } else {
        NothingMoves(w, v, i, t, false);
      }
    }
  }

  lemma NothingMoves(w: Win, r: Win, i: nat, t: int, own: bool)
    requires |r.slices| == |w.slices| && i < |w.slices| && SideOk(BeSide(w.slices[i]))
    requires BeSide(r.slices[i]) == BeSide(w.slices[i]) && r.launches == w.launches
    ensures Carries(w, r, i, t, own)
  {
  }

  lemma BeginScSide(s: Slice, t: int)
    requires SliceOk(s) && !s.running && s.sc.Some?
    ensures var r := Begin(s, Sc, t); SliceOk(r) && r.signals == s.signals && r.role == Some(Sc) && BeSide(r) == BeSide(s)
  {
    BeginSafe(s, Sc, t);
  }

  /** There is at most one launch. */
  lemma CarriesOn(w: Win, u: Win, r: Win, i: nat, t: int)
    requires Carries(w, u, i, t, false) && Carries(u, r, i, t, false)
    ensures Carries(w, r, i, t, false)
  {
    hide Launched;
  }

  lemma {:induction false} StartFromCarries(w: Win, m: nat, t: int, i: nat)
    requires StartedUpTo(w, m) && WinShaped(w) && i < |w.slices|
    ensures Carries(w, StartFrom(w, m, t), i, t, false)
    decreases |w.slices| - m
  {
    hide SliceOk, InPhase, StartScAt, Counted, Carries;
    if m < |w.slices| {
      StartScAtSafe(w, m, t);
      StartScAtCarries(w, m, t, i);
      StartFromCarries(StartScAt(w, m, t), m + 1, t, i);
      CarriesOn(w, StartScAt(w, m, t), StartFrom(w, m, t), i, t);
    } else {
      assert w.slices[i] == w.slices[i] && SliceOk(w.slices[i]);
      BeSideShape(w.slices[i]);
      NothingMoves(w, w, i, t, false);
    }
  }

  /** The start of a window leaves the partition alone or launches it. */
  lemma StartSide(w: Win, t: int, i: nat)
    requires Idle(w) && i < |w.slices|
    ensures WinShaped(w) && SideOk(BeSide(w.slices[i])) && BeSide(w.slices[i]) == Side(w.slices[i].be, None)
    ensures var r := Start(w, t);
            Onward(BeSide(w.slices[i]), 0, BeSide(r.slices[i]), r.launches, t, false)
  {
    hide Onward;
    UnsignalledSafe(w);
    var v := w.(finished := 0, launches := 0, slices := Unsignalled(w.slices));
    StartFromCarries(v, 0, t, i);
    assert BeSide(v.slices[i]) == BeSide(w.slices[i]);
  }

  lemma EndScSide(s: Slice, t: int)
    requires SliceOk(s) && s.running && s.role == Some(Sc)
    ensures var r := StartNextInSlice(EndInSlice(s, t, true), t);
            SliceOk(r) && r.signals == s.signals && r.role == s.role && BeSide(r) == BeSide(s)
  {
    EndSafe(s, t, true);
    StartNextInSliceSafe(EndInSlice(s, t, true), t);
  }

  lemma EndBeSide(s: Slice, t: int)
    requires SliceOk(s) && s.running && s.role == Some(Be)
    ensures SideOk(BeSide(s)) && BeSide(s).part.Some? && BeSide(s).due.Some?
    ensures var r := StartNextInSlice(EndInSlice(s, t, true), t);
            SliceOk(r) && r.signals == s.signals && r.role == s.role && BeSide(r) == Moved(BeSide(s), t)
  {
    EndSafe(s, t, true);
    StartNextInSliceSafe(EndInSlice(s, t, true), t);
    hide PartIn, StartNext, EndCurrent;
    assert Current(EndInSlice(s, t, true)) == EndCurrent(s.be.value, Be, t, true);
  }

  /** The end of the running process of slice `m`. */
  lemma ScheduleNextCarries(w: Win, m: nat, t: int, i: nat)
    requires Inv(w) && WinShaped(w) && m < |w.slices| && w.slices[m].running && i < |w.slices|
    ensures Carries(w, ScheduleNext(w, m, t), i, t, m == i)
  {
    hide ScDone, ScEnd, StartNextInSlice, EndInSlice, ScheduleNext, PartIn, Launched, Moved;
    var s := w.slices[m];
    var r := StartNextInSlice(EndInSlice(s, t, true), t);
    var v := w.(slices := w.slices[m := r]);
    ScheduleNextIs(w, m, t);
    BeSideShape(w.slices[i]);
    if s.role == Some(Sc) {
      EndScSide(s, t);
      SignalsUpdate(w.slices, m, r);
      SignalsFull(w.slices);
      if r.running {
        NothingMoves(w, v, i, t, m == i);
      } else {
        ScEndCarries(v, m, |w.slices|, t, i);
      }
    } else {
      EndBeSide(s, t);
      if m != i {
        NothingMoves(w, v, i, t, false);
      }
    }
  }

  // ----- Events -----

  /** When an event happens; what is only noted has no time of its own. */
  function TimeOf(e: Step, w: Win): Option<int>
    requires e.Timeout? ==> e.i < |w.slices|
  {
    match e
    case Timeout(i) => Some(w.slices[i].timeout)
    case Complete(_, _, _, now) => Some(now)
    case Note(_, _, _) => None
    case Exit(_, _, _) => None
  }

  lemma FlagAt(w: Win, m: nat, role: Role, j: nat, x: Proc, i: nat, exits: bool)
    requires WinShaped(w) && m < |w.slices| && PartOf(w.slices[m], role).Some? && i < |w.slices|
    requires j < |PartOf(w.slices[m], role).value.procs|
    requires var y := PartOf(w.slices[m], role).value.procs[j]; x == y.(signalled := true) || (exits && x == y.(spawned := false))
    ensures var p := PartOf(w.slices[m], role).value;
            var s := WithPart(w.slices[m], role, p.(procs := p.procs[j := x]));
            && Flag(BeSide(w.slices[i]), BeSide(w.slices[m := s][i]), exits && m == i && role == Be)
            && SideOk(BeSide(w.slices[m := s][i]))
  {
    var p := PartOf(w.slices[m], role).value;
    var s := WithPart(w.slices[m], role, p.(procs := p.procs[j := x]));
    if m == i && role == Be {
      assert Flags(BeSide(w.slices[i]), BeSide(s), j, x, exits);
    } else {
      assert BeSide(w.slices[m := s][i]) == BeSide(w.slices[i]);
    }
  }

  /** Every event, seen by the best-effort partition of slice `i`: a flag, and what the event leads to. */
  lemma ApplySide(w: Win, e: Step, i: nat) returns (u: Side)
    requires Inv(w) && Enabled(w, e) && i < |w.slices|
    ensures SideOk(u) && Flag(BeSide(w.slices[i]), u, e.Exit? && e.i == i && e.role == Be)
    ensures var r := Apply(w, e);
            var t := TimeOf(e, w);
            if t.Some? then Onward(u, w.launches, BeSide(r.slices[i]), r.launches, t.value, e.i == i)
            else BeSide(r.slices[i]) == u && r.launches == w.launches
  {
    hide Inv, Onward, ScheduleNext, Flag;
    match e
    case Timeout(m) =>
      ScheduleNextCarries(w, m, w.slices[m].timeout, i);
      u := BeSide(w.slices[i]);
      NoFlag(u);
    case Complete(m, role, j, now) =>
      var v := NoteAt(w, m, role, j);
      FlagAt(w, m, role, j, PartOf(w.slices[m], role).value.procs[j].(signalled := true), i, false);
      NoteSafe(w, m, role, j);
      ScheduleNextCarries(v, m, now, i);
      u := BeSide(v.slices[i]);
    case Note(m, role, j) =>
      FlagAt(w, m, role, j, PartOf(w.slices[m], role).value.procs[j].(signalled := true), i, false);
      u := BeSide(Apply(w, e).slices[i]);
    case Exit(m, role, j) =>
      FlagAt(w, m, role, j, PartOf(w.slices[m], role).value.procs[j].(spawned := false), i, true);
      u := BeSide(Apply(w, e).slices[i]);
  }

  lemma NoFlag(a: Side)
    ensures Flag(a, a, false)
  {
  }
}
