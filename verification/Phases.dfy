/**
 * What holds in every state of a window, whatever the order of timeouts, completions and exits
 * and whatever the random budgets: phase separation, exclusive execution, one report per slice.
 */
module Phases {
  import opened Options
  import opened Model

  // ----- Partitions -----

  ghost predicate Quiet(p: Part) {
    forall j :: 0 <= j < |p.procs| ==> p.procs[j].frozen
  }

  /** The process under the cursor is the only one which can execute. */
  ghost predicate OnlyCurrent(p: Part) {
    && p.cur < |p.procs|
    && (forall j :: 0 <= j < |p.procs| ==> (p.procs[j].frozen <==> j != p.cur))
    && !p.procs[p.cur].completed
  }

  ghost predicate NonePending(p: Part) {
    forall j :: 0 <= j < |p.procs| ==> !Pending(p.procs[j])
  }

  /** The process `k` places after `c` on a circle of `n`. */
  function Ahead(n: nat, c: nat, k: nat): nat
    requires c < n && k <= n
  {
    if c + k < n then c + k else c + k - n
  }

  /** A search visits the processes in cyclic order and stops at the first pending one. */
  lemma {:induction false} SeekIsCyclic(procs: seq<Proc>, c: nat, fuel: nat)
    requires c < |procs| && fuel <= |procs|
    ensures var (d, found) := Seek(procs, c, fuel);
            if found then
              exists k :: 0 <= k < fuel && d == Ahead(|procs|, c, k) && Pending(procs[d]) &&
                          forall m :: 0 <= m < k ==> !Pending(procs[Ahead(|procs|, c, m)])
            else
              && d == Next(|procs|, Ahead(|procs|, c, fuel))
              && forall m :: 0 <= m < fuel ==> !Pending(procs[Ahead(|procs|, c, m)])
    decreases fuel
  {
    var n := |procs|;
    if fuel == 0 {
    } else if Pending(procs[c]) {
      assert c == Ahead(n, c, 0);
    } else {
      var e := Next(n, c);
      SeekIsCyclic(procs, e, fuel - 1);
      assert forall k :: 0 <= k < fuel ==> Ahead(n, e, k) == Ahead(n, c, k + 1);
      assert forall m :: 0 < m <= fuel ==> Ahead(n, c, m) == Ahead(n, e, m - 1);
      var (d, found) := Seek(procs, c, fuel);
      if found {
        var k :| 0 <= k < fuel - 1 && d == Ahead(n, e, k) &&
                 forall m :: 0 <= m < k ==> !Pending(procs[Ahead(n, e, m)]);
        assert d == Ahead(n, c, k + 1);
        assert forall m :: 0 <= m < k + 1 ==> !Pending(procs[Ahead(n, c, m)]);
      }
    }
  }

  /**
   * `seek_pending_process`: the first pending process in cyclic order from the cursor; when there
   * is none the cursor moves forward by exactly one position.
   */
  lemma SeekPartSpec(p: Part)
    requires p.cur < |p.procs|
    ensures var (q, found) := SeekPart(p);
            && (found <==> exists j :: 0 <= j < |p.procs| && Pending(p.procs[j]))
            && (!found ==> q.cur == Next(|p.procs|, p.cur))
            && (found ==> exists k :: 0 <= k < |p.procs| && q.cur == Ahead(|p.procs|, p.cur, k) &&
                            Pending(p.procs[q.cur]) &&
                            forall m :: 0 <= m < k ==> !Pending(p.procs[Ahead(|p.procs|, p.cur, m)]))
  {
    var n := |p.procs|;
    SeekIsCyclic(p.procs, p.cur, n);
    var (q, found) := SeekPart(p);
    if !found {
      forall j | 0 <= j < n
        ensures !Pending(p.procs[j])
      {
        var m := if j >= p.cur then j - p.cur else j + n - p.cur;
        assert j == Ahead(n, p.cur, m);
      }
    }
  }

  /** A drawn budget is never negative and exceeds the configured one by at most half the jitter. */
  lemma DrawnBudget(p: Proc)
    requires ProcOk(p)
    ensures 0 <= Draw(p).1 <= p.budget + (p.jitter - p.jitter / 2)
    ensures p.jitter == 0 ==> 0 < Draw(p).1 == p.actual
    ensures ProcOk(Draw(p).0)
  {
    var b := p.noise(p.draws);
    assert -(p.jitter / 2) <= b <= p.jitter - p.jitter / 2;
  }

  /** Starting the next process leaves exactly one thawed process, or none if nothing is pending. */
  lemma {:induction false} StartNextSafe(p: Part, role: Role, t: int)
    requires PartOk(p) && Quiet(p)
    ensures var (q, b) := StartNext(p, role, t);
            && PartOk(q)
            && (if b.Some? then
                  && OnlyCurrent(q) && q.procs[q.cur].spawned && q.procs[q.cur].actual == q.procs[q.cur].budget
                  && 0 < b.value <= q.procs[q.cur].budget + (q.procs[q.cur].jitter - q.procs[q.cur].jitter / 2)
                else Quiet(q) && NonePending(q))
    decreases PendingCount(p.procs)
  {
    SeekPartSpec(p);
    var (q, found) := SeekPart(p);
    if found {
      DrawnBudget(q.procs[q.cur]);
      if Draw(q.procs[q.cur]).1 == 0 {
        PendingCountUpdate(q.procs, q.cur, Draw(q.procs[q.cur]).0.(completed := true));
        StartNextSafe(Skip(q), role, t);
      }
    }
  }

  // ----- Slices -----

  ghost predicate PartIn(p: Option<Part>, runs: bool) {
    p.Some? ==> PartOk(p.value) && if runs then OnlyCurrent(p.value) else Quiet(p.value)
  }

  /** Every process of the slice is frozen except the running one, and the timer runs with it. */
  ghost predicate SliceOk(s: Slice) {
    && Shaped(s)
    && s.running == s.armed
    && PartIn(s.sc, s.running && s.role == Some(Sc))
    && PartIn(s.be, s.running && s.role == Some(Be))
  }

  ghost predicate ScDone(s: Slice) {
    s.sc.Some? ==> NonePending(s.sc.value)
  }

  lemma StartNextInSliceSafe(s: Slice, t: int)
    requires SliceOk(s) && !s.running && s.role.Some?
    ensures var r := StartNextInSlice(s, t);
            && SliceOk(r) && r.signals == s.signals && r.linked == s.linked
            && (!r.running ==> NonePending(Current(r)))
            && (s.role == Some(Be) ==> r.sc == s.sc)
            && (s.role == Some(Sc) ==> r.be == s.be)
  {
    StartNextSafe(Current(s), s.role.value, t);
  }

  lemma BeginSafe(s: Slice, role: Role, t: int)
    requires SliceOk(s) && !s.running && PartOf(s, role).Some?
    ensures var r := Begin(s, role, t);
            && SliceOk(r) && r.signals == s.signals && r.linked == s.linked + {role}
            && (!r.running ==> NonePending(Current(r)))
            && (role == Be ==> r.sc == s.sc)
            && (role == Sc ==> r.be == s.be)
  {
    var p := Reset(PartOf(s, role).value, role.Sc?);
    assert PartOk(p) && Quiet(p);
    StartNextInSliceSafe(WithPart(s, role, p).(role := Some(role), linked := s.linked + {role}), t);
  }

  lemma EndSafe(s: Slice, t: int, done: bool)
    requires SliceOk(s) && s.running
    ensures var e := EndInSlice(s, t, done);
            && SliceOk(e) && e.signals == s.signals && e.linked == s.linked
            && (s.role == Some(Be) ==> e.sc == s.sc)
            && (s.role == Some(Sc) ==> e.be == s.be)
  {
  }

  /** What `set_remaining_budget` asserts, for the slices on which `Slice::stop` calls it. */
  ghost predicate StopFits(s: Slice, t: int)
    requires Shaped(s)
  {
    s.running && s.role == Some(Be) && Remaining(s, t) != 0 ==>
      0 < Remaining(s, t) < Current(s).procs[Current(s).cur].budget
  }

  /** The process which runs is through, and the next one is looked for. */
  lemma ThroughSafe(s: Slice, t: int)
    requires SliceOk(s) && s.running
    ensures var e := EndInSlice(s, t, true);
            var (p, found) := SeekPart(Current(e));
            var r := WithPart(e, e.role.value, p);
            && SliceOk(r) && !r.running && r.signals == s.signals && r.linked == s.linked
            && (!found && s.role == Some(Sc) ==> ScDone(r))
            && (s.role != Some(Sc) ==> r.sc == s.sc)
  {
    hide Seek, ProcOk;
    EndSafe(s, t, true);
    SeekPartSpec(Current(EndInSlice(s, t, true)));
  }

  /** A remainder may be stored for the process which runs. */
  lemma RemainderSafe(s: Slice, left: int)
    requires SliceOk(s) && s.running && s.role == Some(Be)
    requires 0 < left < Current(s).procs[Current(s).cur].budget
    ensures SliceOk(s.(be := Some(SetRemaining(s.be.value, left))))
  {
    var p := SetRemaining(s.be.value, left);
    assert PartOk(p) && OnlyCurrent(p);
  }

  lemma StopSliceSafe(s: Slice, t: int)
    requires SliceOk(s) && StopFits(s, t)
    ensures var (r, scDone) := StopSlice(s, t);
            && SliceOk(r) && !r.running && r.signals == s.signals && r.linked == {}
            && (scDone ==> s.running && s.role == Some(Sc) && ScDone(r))
            && (!(s.running && s.role == Some(Sc)) ==> r.sc == s.sc)
  {
    hide Seek, TruncMs, PartIn, ProcOk;
    var u := s.(linked := {});
    if s.running {
      if Remaining(s, t) == 0 {
        ThroughSafe(u, t);
      } else if s.role == Some(Be) {
        RemainderSafe(u, Remaining(s, t));
        EndSafe(u.(be := Some(SetRemaining(s.be.value, Remaining(s, t)))), t, false);
      } else {
        EndSafe(u, t, false);
      }
    }
  }

  // ----- Windows -----

  function Signals(slices: seq<Slice>): nat {
    if |slices| == 0 then 0 else Signals(slices[..|slices| - 1]) + slices[|slices| - 1].signals
  }

  lemma {:induction false} SignalsUpdate(slices: seq<Slice>, i: nat, s: Slice)
    requires i < |slices|
    ensures Signals(slices[i := s]) == Signals(slices) - slices[i].signals + s.signals
  {
    var n := |slices| - 1;
    if i == n {
      assert slices[i := s][..n] == slices[..n];
    } else {
      assert slices[i := s][..n] == slices[..n][i := s];
      SignalsUpdate(slices[..n], i, s);
    }
  }

  lemma {:induction false} SignalsSame(a: seq<Slice>, b: seq<Slice>)
    requires |a| == |b| && forall i :: 0 <= i < |a| ==> a[i].signals == b[i].signals
    ensures Signals(a) == Signals(b)
  {
    if |a| > 0 {
      SignalsSame(a[..|a| - 1], b[..|b| - 1]);
    }
  }

  /** With at most one report each, all slices have reported iff their reports are as many as they. */
  lemma {:induction false} SignalsFull(slices: seq<Slice>)
    requires forall i :: 0 <= i < |slices| ==> slices[i].signals <= 1
    ensures Signals(slices) <= |slices|
    ensures Signals(slices) == |slices| <==> forall i :: 0 <= i < |slices| ==> slices[i].signals == 1
  {
    if |slices| > 0 {
      var n := |slices| - 1;
      SignalsFull(slices[..n]);
      assert forall i :: 0 <= i < n ==> slices[..n][i] == slices[i];
    }
  }

  /** The safety-critical partition is connected from the start on, the other one since best effort was launched. */
  ghost predicate LinkedIn(s: Slice, launched: bool) {
    && (Sc in s.linked <==> s.sc.Some?)
    && (Be in s.linked <==> s.be.Some? && launched)
  }

  /** The state of a slice after it was started, `all` telling whether every slice has reported. */
  ghost predicate InPhase(s: Slice, all: bool) {
    && s.signals <= 1
    && LinkedIn(s, all)
    && (s.signals == 0 ==> s.running && s.role == Some(Sc))
    && (s.signals == 1 ==> ScDone(s) && (s.running ==> all && s.role == Some(Be)))
  }

  ghost predicate AllReported(w: Win) {
    w.finished == |w.slices|
  }

  ghost predicate Counted(w: Win) {
    && w.finished == Signals(w.slices)
    && w.launches == if AllReported(w) && |w.slices| > 0 then 1 else 0
  }

  /** A window whose slices below `i` have been started. */
  ghost predicate StartedUpTo(w: Win, i: nat) {
    && i <= |w.slices|
    && !w.stopping
    && Counted(w)
    && (forall k :: 0 <= k < |w.slices| ==> SliceOk(w.slices[k]))
    && (forall k :: 0 <= k < i ==> InPhase(w.slices[k], AllReported(w)))
    && (forall k :: i <= k < |w.slices| ==> !w.slices[k].running && w.slices[k].signals == 0 && w.slices[k].linked == {})
  }

  /** The invariant of a window between events. */
  ghost predicate Inv(w: Win) {
    StartedUpTo(w, |w.slices|)
  }

  /** Nothing runs: what a window needs before it is started, and what it leaves behind. */
  ghost predicate Idle(w: Win) {
    && !w.stopping
    && forall k :: 0 <= k < |w.slices| ==> SliceOk(w.slices[k]) && !w.slices[k].running && w.slices[k].linked == {}
  }

  /** Launching every best-effort partition, once all slices have reported. */
  lemma BeginBeAllSafe(slices: seq<Slice>, t: int)
    requires forall k :: 0 <= k < |slices| ==>
               SliceOk(slices[k]) && !slices[k].running && slices[k].signals == 1 && ScDone(slices[k]) && LinkedIn(slices[k], false)
    ensures forall k :: 0 <= k < |slices| ==> Shaped(slices[k])
    ensures var r := BeginBeAll(slices, t);
            && Signals(r) == Signals(slices)
            && forall k :: 0 <= k < |r| ==> SliceOk(r[k]) && InPhase(r[k], true)
  {
    var r := BeginBeAll(slices, t);
    forall k | 0 <= k < |slices|
      ensures SliceOk(r[k]) && r[k].signals == 1 && InPhase(r[k], true)
    {
      if slices[k].be.Some? {
        BeginSafe(slices[k], Be, t);
      }
    }
    SignalsSame(slices, r);
  }

  /** A report of slice `i`, which launches the best-effort partitions if it is the last one. */
  lemma ScEndSafe(w: Win, i: nat, hi: nat, t: int)
    requires WinShaped(w) && i < hi <= |w.slices| && !w.stopping && Counted(w)
    requires forall k :: 0 <= k < |w.slices| ==> SliceOk(w.slices[k])
    requires forall k :: 0 <= k < hi && k != i ==> InPhase(w.slices[k], AllReported(w))
    requires forall k :: hi <= k < |w.slices| ==> !w.slices[k].running && w.slices[k].signals == 0 && w.slices[k].linked == {}
    requires !w.slices[i].running && w.slices[i].signals == 0 && ScDone(w.slices[i]) && LinkedIn(w.slices[i], false)
    ensures StartedUpTo(ScEnd(w, i, t), hi)
  {
    hide SliceOk, ScDone, Shaped, BeginBe, LinkedIn;
    ReportSafe(w.slices[i], 1);
    var s := w.slices[i].(signals := 1);
    var slices := w.slices[i := s];
    ReportCounts(w, i, hi);
    if w.finished + 1 == |w.slices| {
      ReportLast(w, i, hi);
      BeginBeAllSafe(slices, t);
      assert ScEnd(w, i, t).slices == BeginBeAll(slices, t);
    } else {
      hide InPhase;
      assert forall k :: 0 <= k < |w.slices| && k != i ==> slices[k] == w.slices[k];
      assert ScEnd(w, i, t).slices == slices;
      assert slices[i] == s;
    }
  }

  lemma ReportCounts(w: Win, i: nat, hi: nat)
    requires i < hi <= |w.slices| && Counted(w)
    requires forall k :: 0 <= k < hi && k != i ==> InPhase(w.slices[k], AllReported(w))
    requires forall k :: hi <= k < |w.slices| ==> w.slices[k].signals == 0
    requires w.slices[i].signals == 0
    ensures w.finished < |w.slices|
    ensures Signals(w.slices[i := w.slices[i].(signals := 1)]) == w.finished + 1
    ensures ScDone(w.slices[i].(signals := 1)) && !w.slices[i].running && LinkedIn(w.slices[i], false) ==>
              InPhase(w.slices[i].(signals := 1), false)
  {
    hide SliceOk, ScDone;
    SignalsUpdate(w.slices, i, w.slices[i].(signals := 1));
    SignalsFull(w.slices);
  }

  /** If the report of slice `i` is the last one, every slice has now reported and none runs. */
  lemma ReportLast(w: Win, i: nat, hi: nat)
    requires i < hi <= |w.slices| && Counted(w) && w.finished + 1 == |w.slices|
    requires forall k :: 0 <= k < hi && k != i ==> InPhase(w.slices[k], false)
    requires forall k :: hi <= k < |w.slices| ==> !w.slices[k].running && w.slices[k].signals == 0
    requires !w.slices[i].running && w.slices[i].signals == 0
    ensures forall k :: 0 <= k < |w.slices| && k != i ==>
              !w.slices[k].running && w.slices[k].signals == 1 && ScDone(w.slices[k]) && LinkedIn(w.slices[k], false)
  {
    hide SliceOk, ScDone, LinkedIn;
    var slices := w.slices[i := w.slices[i].(signals := 1)];
    SignalsUpdate(w.slices, i, slices[i]);
    SignalsFull(slices);
    forall k | 0 <= k < |w.slices| && k != i
      ensures !w.slices[k].running && w.slices[k].signals == 1 && ScDone(w.slices[k]) && LinkedIn(w.slices[k], false)
    {
      assert slices[k] == w.slices[k];
    }
  }

  lemma ReportSafe(s: Slice, n: nat)
    requires SliceOk(s)
    ensures SliceOk(s.(signals := n))
    ensures ScDone(s) ==> ScDone(s.(signals := n))
    ensures LinkedIn(s, false) ==> LinkedIn(s.(signals := n), false)
  {
  }

  lemma SettleSafe(w: Win, i: nat, hi: nat, t: int)
    requires WinShaped(w) && i < hi <= |w.slices| && !w.stopping && Counted(w)
    requires forall k :: 0 <= k < |w.slices| ==> SliceOk(w.slices[k])
    requires forall k :: 0 <= k < hi && k != i ==> InPhase(w.slices[k], AllReported(w))
    requires forall k :: hi <= k < |w.slices| ==> !w.slices[k].running && w.slices[k].signals == 0 && w.slices[k].linked == {}
    requires w.slices[i].role == Some(Sc) ==> w.slices[i].signals == 0 && LinkedIn(w.slices[i], false) && !AllReported(w)
    requires w.slices[i].role == Some(Sc) && !w.slices[i].running ==> ScDone(w.slices[i])
    requires w.slices[i].role != Some(Sc) ==> InPhase(w.slices[i], AllReported(w))
    ensures StartedUpTo(Settle(w, i, t), hi)
  {
    if !w.slices[i].running && w.slices[i].role == Some(Sc) {
      ScEndSafe(w, i, hi, t);
    }
  }

  lemma StartScAtSafe(w: Win, i: nat, t: int)
    requires StartedUpTo(w, i) && i < |w.slices|
    ensures StartedUpTo(StartScAt(w, i, t), i + 1)
  {
    SignalsFull(w.slices);
    assert !AllReported(w) by {
      assert w.slices[i].signals == 0;
    }
    if w.slices[i].sc.None? {
      ScEndSafe(w, i, i + 1, t);
    } else {
      var s := Begin(w.slices[i], Sc, t);
      BeginSafe(w.slices[i], Sc, t);
      SignalsUpdate(w.slices, i, s);
      SettleSafe(w.(slices := w.slices[i := s]), i, i + 1, t);
    }
  }

  lemma {:induction false} StartFromSafe(w: Win, i: nat, t: int)
    requires StartedUpTo(w, i)
    ensures Inv(StartFrom(w, i, t))
    decreases |w.slices| - i
  {
    if i < |w.slices| {
      StartScAtSafe(w, i, t);
      StartFromSafe(StartScAt(w, i, t), i + 1, t);
    }
  }

  lemma UnsignalledSafe(w: Win)
    requires Idle(w)
    ensures WinShaped(w)
    ensures StartedUpTo(w.(finished := 0, launches := 0, slices := Unsignalled(w.slices)), 0)
  {
    var u := Unsignalled(w.slices);
    forall k | 0 <= k < |u|
      ensures SliceOk(u[k]) && !u[k].running && u[k].linked == {}
    {
      assert SliceOk(w.slices[k]);
    }
    SignalsFull(u);
    SignalsZero(u);
  }

  /** `Window::start` on an idle window establishes the invariant. */
  lemma StartSafe(w: Win, t: int)
    requires Idle(w)
    ensures WinShaped(w) && Inv(Start(w, t))
  {
    UnsignalledSafe(w);
    StartFromSafe(w.(finished := 0, launches := 0, slices := Unsignalled(w.slices)), 0, t);
  }

  lemma {:induction false} SignalsZero(slices: seq<Slice>)
    requires forall i :: 0 <= i < |slices| ==> slices[i].signals == 0
    ensures Signals(slices) == 0
  {
    if |slices| > 0 {
      SignalsZero(slices[..|slices| - 1]);
    }
  }

  /** A timeout or a completion keeps the invariant. */
  lemma ScheduleNextSafe(w: Win, i: nat, t: int)
    requires Inv(w) && i < |w.slices| && w.slices[i].running
    ensures Inv(ScheduleNext(w, i, t))
  {
    var e := EndInSlice(w.slices[i], t, true);
    EndSafe(w.slices[i], t, true);
    var r := StartNextInSlice(e, t);
    StartNextInSliceSafe(e, t);
    SignalsUpdate(w.slices, i, r);
    SignalsUpdate(w.slices, i, e);
    SignalsFull(w.slices);
    var v := w.(slices := w.slices[i := e]);
    assert v.slices[i := r] == w.slices[i := r];
    SettleSafe(w.(slices := w.slices[i := r]), i, |w.slices|, t);
  }

  /** A process signals completion or ends: neither matters to the invariant of its slice. */
  lemma FlagInSliceSafe(s: Slice, r: Role, j: nat, x: Proc, all: bool)
    requires SliceOk(s) && InPhase(s, all) && PartOf(s, r).Some?
    requires j < |PartOf(s, r).value.procs|
    requires var y := PartOf(s, r).value.procs[j]; x == y.(signalled := true) || x == y.(spawned := false)
    ensures var p := PartOf(s, r).value;
            var u := WithPart(s, r, p.(procs := p.procs[j := x]));
            SliceOk(u) && InPhase(u, all) && u.signals == s.signals
  {
    var p := PartOf(s, r).value;
    var q := p.(procs := p.procs[j := x]);
    assert PartOk(p);
    assert PartOk(q);
    assert OnlyCurrent(p) ==> OnlyCurrent(q);
    assert Quiet(p) ==> Quiet(q);
    assert NonePending(p) ==> NonePending(q);
  }

  lemma ExitSafe(w: Win, i: nat, r: Role, j: nat)
    requires Inv(w) && i < |w.slices| && PartOf(w.slices[i], r).Some?
    requires j < |PartOf(w.slices[i], r).value.procs|
    ensures WinShaped(w) && Inv(ExitAt(w, i, r, j))
  {
    FlagInSliceSafe(w.slices[i], r, j, PartOf(w.slices[i], r).value.procs[j].(spawned := false), AllReported(w));
    SignalsUpdate(w.slices, i, ExitAt(w, i, r, j).slices[i]);
  }

  lemma NoteSafe(w: Win, i: nat, r: Role, j: nat)
    requires Inv(w) && i < |w.slices| && PartOf(w.slices[i], r).Some?
    requires j < |PartOf(w.slices[i], r).value.procs|
    ensures WinShaped(w) && Inv(NoteAt(w, i, r, j))
  {
    FlagInSliceSafe(w.slices[i], r, j, PartOf(w.slices[i], r).value.procs[j].(signalled := true), AllReported(w));
    SignalsUpdate(w.slices, i, NoteAt(w, i, r, j).slices[i]);
  }

  lemma CompleteSafe(w: Win, i: nat, r: Role, j: nat, now: int)
    requires Inv(w) && i < |w.slices| && w.slices[i].running && PartOf(w.slices[i], r).Some?
    requires j < |PartOf(w.slices[i], r).value.procs|
    ensures WinShaped(w) && Inv(CompleteAt(w, i, r, j, now))
  {
    NoteSafe(w, i, r, j);
    hide Inv, NoteAt, ScheduleNext;
    ScheduleNextSafe(NoteAt(w, i, r, j), i, now);
  }

  /** A window being stopped, whose slices below `i` have been stopped already. */
  ghost predicate Halting(w: Win, i: nat) {
    && i <= |w.slices|
    && w.stopping
    && w.finished == Signals(w.slices)
    && w.launches <= 1
    && (forall k :: 0 <= k < |w.slices| ==>
          && SliceOk(w.slices[k])
          && w.slices[k].signals <= 1
          && (w.slices[k].signals == 1 ==> ScDone(w.slices[k])))
    && (forall k :: 0 <= k < i ==> !w.slices[k].running && w.slices[k].linked == {})
    && (forall k :: i <= k < |w.slices| ==>
          (w.slices[k].running && w.slices[k].role == Some(Sc) ==> w.slices[k].signals == 0))
  }

  lemma StopAtSafe(w: Win, i: nat, t: int)
    requires Halting(w, i) && i < |w.slices| && StopFits(w.slices[i], t)
    ensures WinShaped(w) && Halting(StopAt(w, i, t), i + 1)
    ensures forall k :: 0 <= k < |w.slices| && k != i ==> StopAt(w, i, t).slices[k] == w.slices[k]
    ensures StopAt(w, i, t).launches == w.launches
  {
    hide StopSlice;
    StopSliceSafe(w.slices[i], t);
    var (s, scDone) := StopSlice(w.slices[i], t);
    SignalsUpdate(w.slices, i, s);
    var v := w.(slices := w.slices[i := s]);
    if scDone {
      var u := s.(signals := s.signals + 1);
      ReportSafe(s, u.signals);
      SignalsUpdate(v.slices, i, u);
      assert ScEnd(v, i, t).slices == v.slices[i := u];
    }
  }

  lemma {:induction false} StopFromSafe(w: Win, i: nat, t: int)
    requires Halting(w, i)
    requires forall k :: i <= k < |w.slices| ==> StopFits(w.slices[k], t)
    ensures WinShaped(w) && Halting(StopFrom(w, i, t), |w.slices|)
    ensures StopFrom(w, i, t).launches == w.launches
    decreases |w.slices| - i
  {
    if i < |w.slices| {
      StopAtSafe(w, i, t);
      StopFromSafe(StopAt(w, i, t), i + 1, t);
    }
  }

  /**
   * `Window::stop`: afterwards every process is frozen and every timer disarmed, no best-effort
   * partition was launched by it, and `has_sc_finished` tells whether every slice reported.
   */
  lemma StopSafe(w: Win, t: int)
    requires Inv(w)
    requires forall k :: 0 <= k < |w.slices| ==> StopFits(w.slices[k], t)
    ensures WinShaped(w)
    ensures var r := Stop(w, t);
            && Idle(r) && r.launches == w.launches
            && (AllReported(r) <==> forall k :: 0 <= k < |r.slices| ==> r.slices[k].signals == 1)
            && (forall k :: 0 <= k < |r.slices| ==>
                  && !r.slices[k].armed && r.slices[k].signals <= 1
                  && (r.slices[k].signals == 1 ==> ScDone(r.slices[k])))
  {
    var h := w.(stopping := true);
    StopFromSafe(h, 0, t);
    SignalsFull(StopFrom(h, 0, t).slices);
  }

  lemma {:induction false} StopFromIdle(w: Win, i: nat, t: int)
    requires i <= |w.slices| && w.stopping
    requires forall k :: 0 <= k < |w.slices| ==> SliceOk(w.slices[k]) && !w.slices[k].running && w.slices[k].linked == {}
    ensures WinShaped(w) && StopFrom(w, i, t) == w
    decreases |w.slices| - i
  {
    hide PartIn;
    if i < |w.slices| {
      var s := w.slices[i];
      assert StopSlice(s, t) == (s, false);
      assert w.slices[i := s] == w.slices;
      StopFromIdle(w, i + 1, t);
    }
  }

  /** Stopping an idle window changes nothing. */
  lemma StopIdle(w: Win, t: int)
    requires Idle(w)
    ensures WinShaped(w) && Stop(w, t) == w
    ensures forall k :: 0 <= k < |w.slices| ==> StopFits(w.slices[k], t)
  {
    StopFromIdle(w.(stopping := true), 0, t);
  }

  // ----- Runs -----

  /**
   * What can happen to slice `i`. A signal of a process is passed on while its partition is
   * connected, and only noted otherwise.
   */
  datatype Step =
    | Timeout(i: nat)
    | Complete(i: nat, role: Role, proc: nat, now: int)
    | Note(i: nat, role: Role, proc: nat)
    | Exit(i: nat, role: Role, proc: nat)

  ghost predicate Enabled(w: Win, e: Step) {
    && WinShaped(w)
    && e.i < |w.slices|
    && match e
       case Timeout(i) => w.slices[i].armed && w.slices[i].running
       case Complete(i, r, j, _) =>
         w.slices[i].running && r in w.slices[i].linked && PartOf(w.slices[i], r).Some? && j < |PartOf(w.slices[i], r).value.procs|
       case Note(i, r, j) => r !in w.slices[i].linked && PartOf(w.slices[i], r).Some? && j < |PartOf(w.slices[i], r).value.procs|
       case Exit(i, r, j) => PartOf(w.slices[i], r).Some? && j < |PartOf(w.slices[i], r).value.procs|
  }

  ghost function Apply(w: Win, e: Step): (r: Win)
    requires Enabled(w, e)
    ensures WinShaped(r) && |r.slices| == |w.slices|
  {
    match e
    case Timeout(i) => ScheduleNext(w, i, w.slices[i].timeout)
    case Complete(i, r, j, now) => CompleteAt(w, i, r, j, now)
    case Note(i, r, j) => NoteAt(w, i, r, j)
    case Exit(i, r, j) => ExitAt(w, i, r, j)
  }

  /** Every event keeps the invariant. */
  lemma ApplyKeepsInv(w: Win, e: Step)
    requires Inv(w) && Enabled(w, e)
    ensures Inv(Apply(w, e))
  {
    hide Inv;
    match e
    case Timeout(i) => ScheduleNextSafe(w, i, w.slices[i].timeout);
    case Complete(i, r, j, now) => CompleteSafe(w, i, r, j, now);
    case Note(i, r, j) => NoteSafe(w, i, r, j);
    case Exit(i, r, j) => ExitSafe(w, i, r, j);
  }

  /** `states` is the trace of a window from its start at `t` through the events `steps`. */
  ghost predicate IsRun(w0: Win, t: int, steps: seq<Step>, states: seq<Win>) {
    && Idle(w0) && WinShaped(w0)
    && |states| == |steps| + 1
    && states[0] == Start(w0, t)
    && forall k :: 0 <= k < |steps| ==>
         Enabled(states[k], steps[k]) && states[k + 1] == Apply(states[k], steps[k])
  }

  lemma {:induction false} RunKeepsInv(w0: Win, t: int, steps: seq<Step>, states: seq<Win>, k: nat)
    requires IsRun(w0, t, steps, states) && k <= |steps|
    ensures Inv(states[k])
    ensures |states[k].slices| == |w0.slices|
  {
    if k == 0 {
      StartSafe(w0, t);
    } else {
      RunKeepsInv(w0, t, steps, states, k - 1);
      ApplyKeepsInv(states[k - 1], steps[k - 1]);
    }
  }

  /**
   * Phase separation: while a best-effort process runs in any slice, no safety-critical process
   * of any slice of the window is pending, all slices have reported exactly once, and
   * best-effort partitions were launched exactly once.
   */
  lemma PhaseSeparation(w0: Win, t: int, steps: seq<Step>, states: seq<Win>, k: nat)
    requires IsRun(w0, t, steps, states) && k <= |steps|
    ensures var w := states[k];
            && w.launches <= 1
            && w.finished == Signals(w.slices)
            && (forall i :: 0 <= i < |w.slices| ==> w.slices[i].signals <= 1)
            && (forall i :: 0 <= i < |w.slices| && w.slices[i].running && w.slices[i].role == Some(Be) ==>
                  && w.launches == 1
                  && forall m :: 0 <= m < |w.slices| ==> w.slices[m].signals == 1 && ScDone(w.slices[m]))
  {
    RunKeepsInv(w0, t, steps, states, k);
    SignalsFull(states[k].slices);
  }

  /**
   * Whose signals are passed on: those of the safety-critical partitions from the start of the
   * window on, those of the best-effort partitions since these were launched, and nobody's once the
   * window was stopped.
   */
  lemma Connected(w0: Win, t: int, steps: seq<Step>, states: seq<Win>, k: nat, i: nat, end: int)
    requires IsRun(w0, t, steps, states) && k <= |steps| && i < |states[k].slices|
    ensures var w := states[k];
            && (Sc in w.slices[i].linked <==> w.slices[i].sc.Some?)
            && (Be in w.slices[i].linked <==> w.slices[i].be.Some? && w.launches == 1)
    ensures WinShaped(states[k]) &&
            ((forall m :: 0 <= m < |states[k].slices| ==> StopFits(states[k].slices[m], end)) ==> Stop(states[k], end).slices[i].linked == {})
  {
    RunKeepsInv(w0, t, steps, states, k);
    hide SliceOk, StopFits, Stop, Start, Apply, Enabled;
    assert InPhase(states[k].slices[i], AllReported(states[k]));
    if forall m :: 0 <= m < |states[k].slices| ==> StopFits(states[k].slices[m], end) {
      StopSafe(states[k], end);
    }
    InvShaped(states[k]);
  }

  lemma InvShaped(w: Win)
    requires Inv(w)
    ensures WinShaped(w)
  {
    assert forall k :: 0 <= k < |w.slices| ==> SliceOk(w.slices[k]);
  }

  /**
   * Exclusive execution: a process is thawed iff it is the running process of its slice, so no
   * partition ever has two thawed processes, and a timer is armed exactly while a process runs.
   */
  lemma ExclusiveExecution(w0: Win, t: int, steps: seq<Step>, states: seq<Win>, k: nat, i: nat, r: Role, j: nat)
    requires IsRun(w0, t, steps, states) && k <= |steps|
    requires i < |states[k].slices| && PartOf(states[k].slices[i], r).Some?
    requires j < |PartOf(states[k].slices[i], r).value.procs|
    ensures var s := states[k].slices[i];
            && s.armed == s.running
            && (!PartOf(s, r).value.procs[j].frozen <==>
                  s.running && s.role == Some(r) && j == PartOf(s, r).value.cur)
  {
    RunKeepsInv(w0, t, steps, states, k);
    assert SliceOk(states[k].slices[i]);
  }
}
