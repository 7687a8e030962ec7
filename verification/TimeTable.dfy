/**
 * The time table of a window: what the event-driven scheduler does, computed one partition at a
 * time. Every timely run of a window, in whichever order simultaneous timeouts are served, leaves
 * each partition exactly as its own row of the table says.
 */
module TimeTable {
  import opened Options
  import opened Model
  import opened Phases

  // ----- One partition on its own -----

  function OpenCount(procs: seq<Proc>): nat {
    if |procs| == 0 then 0
    else OpenCount(procs[..|procs| - 1]) + if procs[|procs| - 1].completed then 0 else 1
  }

  lemma {:induction false} OpenCountUpdate(procs: seq<Proc>, j: nat, p: Proc)
    requires j < |procs|
    ensures OpenCount(procs[j := p]) ==
            OpenCount(procs) - (if procs[j].completed then 0 else 1) + if p.completed then 0 else 1
  {
    var n := |procs| - 1;
    if j == n {
      assert procs[j := p][..n] == procs[..n];
    } else {
      assert procs[j := p][..n] == procs[..n][j := p];
      OpenCountUpdate(procs[..n], j, p);
    }
  }

  lemma {:induction false} OpenCountBound(procs: seq<Proc>)
    ensures OpenCount(procs) <= |procs|
  {
    if |procs| > 0 {
      OpenCountBound(procs[..|procs| - 1]);
    }
  }

  /** Looking for the next process never reopens one. */
  lemma {:induction false} StartNextOpens(p: Part, role: Role, t: int)
    requires p.cur < |p.procs|
    ensures OpenCount(StartNext(p, role, t).0.procs) <= OpenCount(p.procs)
    decreases PendingCount(p.procs)
  {
    var (q, found) := SeekPart(p);
    if found {
      var (x, b) := Draw(q.procs[q.cur]);
      if b == 0 {
        PendingCountUpdate(q.procs, q.cur, x.(completed := true));
        OpenCountUpdate(q.procs, q.cur, x.(completed := true));
        StartNextOpens(Skip(q), role, t);
      } else {
        OpenCountUpdate(q.procs, q.cur, Resume(x).(actual := x.budget));
      }
    }
  }

  /** A partition whose current process runs. */
  ghost predicate Runs(p: Part) {
    PartOk(p) && OnlyCurrent(p)
  }

  /** The current process ends in time and the next one is started. */
  ghost function Turn(p: Part, role: Role, t: int): (r: (Part, Option<int>))
    requires Runs(p)
    ensures OpenCount(r.0.procs) < OpenCount(p.procs)
    ensures if r.1.Some? then Runs(r.0) && r.1.value > 0 else PartOk(r.0) && Quiet(r.0) && NonePending(r.0)
  {
    var q := EndCurrent(p, role, t, true);
    assert PartOk(q) && Quiet(q);
    OpenCountUpdate(p.procs, p.cur, q.procs[p.cur]);
    StartNextOpens(q, role, t);
    StartNextSafe(q, role, t);
    StartNext(q, role, t)
  }

  /** The window ends at `end` while the current process still has its budget up to `timeout`. */
  ghost function CutOff(p: Part, role: Role, timeout: int, end: int): Part
    requires Runs(p)
  {
    if TruncMs(timeout - end) == 0 then SeekPart(EndCurrent(p, role, end, true)).0
    else if role == Be then EndCurrent(SetRemaining(p, TruncMs(timeout - end)), role, end, false)
    else EndCurrent(p, role, end, false)
  }

  /** The partition as it is after the window, if nothing but time acts on it. */
  ghost function RunOut(p: Part, role: Role, timeout: int, end: int): Part
    requires Runs(p)
    decreases OpenCount(p.procs)
  {
    if timeout >= end then CutOff(p, role, timeout, end)
    else
      var (q, b) := Turn(p, role, timeout);
      if b.None? then q else RunOut(q, role, timeout + Ms(b.value), end)
  }

  /** What `set_remaining_budget` asserts if the current process is cut off then. */
  ghost predicate CutFits(p: Part, role: Role, timeout: int, end: int)
    requires Runs(p)
  {
    role == Be && TruncMs(timeout - end) != 0 ==> 0 < TruncMs(timeout - end) < p.procs[p.cur].budget
  }

  /** The same for the process which is cut off when the partition is left to run. */
  ghost predicate FitsOut(p: Part, role: Role, timeout: int, end: int)
    requires Runs(p)
    decreases OpenCount(p.procs)
  {
    if timeout >= end then CutFits(p, role, timeout, end)
    else
      var (q, b) := Turn(p, role, timeout);
      b.Some? ==> FitsOut(q, role, timeout + Ms(b.value), end)
  }

  /** When the partition is through with all its processes, however long the window. */
  ghost function DoneAt(p: Part, role: Role, timeout: int): int
    requires Runs(p)
    decreases OpenCount(p.procs)
  {
    var (q, b) := Turn(p, role, timeout);
    if b.None? then timeout else DoneAt(q, role, timeout + Ms(b.value))
  }

  lemma {:induction false} DoneAtLater(p: Part, role: Role, timeout: int)
    requires Runs(p)
    ensures DoneAt(p, role, timeout) >= timeout
    decreases OpenCount(p.procs)
  {
    var (q, b) := Turn(p, role, timeout);
    if b.Some? {
      DoneAtLater(q, role, timeout + Ms(b.value));
    }
  }

  ghost predicate Rests(p: Part) {
    PartOk(p) && Quiet(p)
  }

  ghost function FirstTurn(p: Part, role: Role, from: int): (r: (Part, Option<int>))
    requires Rests(p)
    ensures if r.1.Some? then Runs(r.0) && r.1.value > 0 else PartOk(r.0) && Quiet(r.0) && NonePending(r.0)
  {
    var q := Reset(p, role.Sc?);
    assert PartOk(q) && Quiet(q);
    StartNextSafe(q, role, from);
    StartNext(q, role, from)
  }

  /** A row of the table: a resting partition served from `from` on, in a window ending at `end`. */
  ghost function Served(p: Part, role: Role, from: int, end: int): Part
    requires Rests(p)
  {
    var (q, b) := FirstTurn(p, role, from);
    if b.None? then q else RunOut(q, role, from + Ms(b.value), end)
  }

  /** Serving the partition does not end in a failed assertion. */
  ghost predicate ServingFits(p: Part, role: Role, from: int, end: int)
    requires Rests(p)
  {
    var (q, b) := FirstTurn(p, role, from);
    b.Some? ==> FitsOut(q, role, from + Ms(b.value), end)
  }

  ghost function ServedUntil(p: Part, role: Role, from: int): int
    requires Rests(p)
  {
    var (q, b) := FirstTurn(p, role, from);
    if b.None? then from else DoneAt(q, role, from + Ms(b.value))
  }

  // ----- The table of a window -----

  ghost predicate Resting(s: Slice) {
    && Shaped(s) && !s.running
    && (s.sc.Some? ==> Rests(s.sc.value))
    && (s.be.Some? ==> Rests(s.be.value))
  }

  ghost function ScDoneAt(s: Slice, from: int): int
    requires Resting(s)
  {
    if s.sc.None? then from else ServedUntil(s.sc.value, Sc, from)
  }

  /** The latest of some times, but not before `from`. */
  function Latest(from: int, times: seq<int>): int {
    if |times| == 0 then from
    else
      var b := Latest(from, times[..|times| - 1]);
      var d := times[|times| - 1];
      if d > b then d else b
  }

  lemma {:induction false} LatestIsMax(from: int, times: seq<int>)
    ensures from <= Latest(from, times) && forall i :: 0 <= i < |times| ==> times[i] <= Latest(from, times)
    ensures Latest(from, times) == from || Latest(from, times) in times
  {
    if |times| > 0 {
      LatestIsMax(from, times[..|times| - 1]);
    }
  }

  ghost function ScTimes(slices: seq<Slice>, from: int): (r: seq<int>)
    requires forall i :: 0 <= i < |slices| ==> Resting(slices[i])
    ensures |r| == |slices| && forall i :: 0 <= i < |r| ==> r[i] == ScDoneAt(slices[i], from)
  {
    seq(|slices|, i requires 0 <= i < |slices| => ScDoneAt(slices[i], from))
  }

  /** Best-effort partitions start together, when the last safety-critical one is through. */
  ghost function BeStart(slices: seq<Slice>, from: int): int
    requires forall i :: 0 <= i < |slices| ==> Resting(slices[i])
  {
    Latest(from, ScTimes(slices, from))
  }

  lemma BeStartIsMax(slices: seq<Slice>, from: int)
    requires forall i :: 0 <= i < |slices| ==> Resting(slices[i])
    ensures from <= BeStart(slices, from)
    ensures forall i :: 0 <= i < |slices| ==> ScDoneAt(slices[i], from) <= BeStart(slices, from)
    ensures BeStart(slices, from) == from || exists i :: 0 <= i < |slices| && ScDoneAt(slices[i], from) == BeStart(slices, from)
  {
    hide ScDoneAt, Resting, Latest;
    var times := ScTimes(slices, from);
    LatestIsMax(from, times);
    forall i | 0 <= i < |slices|
      ensures ScDoneAt(slices[i], from) <= BeStart(slices, from)
    {
      assert times[i] <= Latest(from, times);
    }
  }

  /** The safety-critical partition of a slice after a window which lasts from `from` to `end`. */
  ghost function ScAfter(s: Slice, from: int, end: int): Option<Part>
    requires Resting(s)
  {
    if s.sc.None? then None else Some(Served(s.sc.value, Sc, from, end))
  }

  /** The best-effort one, served from `at` on if that is before the end of the window. */
  ghost function BeAfter(s: Slice, at: int, end: int): Option<Part>
    requires Resting(s)
  {
    if s.be.None? || at >= end then s.be else Some(Served(s.be.value, Be, at, end))
  }

  ghost predicate BeFits(s: Slice, at: int, end: int)
    requires Resting(s)
  {
    s.be.Some? && at < end ==> ServingFits(s.be.value, Be, at, end)
  }

  // ----- Timely runs -----

  /** The timeout of slice `i` is served: it lies inside the window and no other is earlier. */
  ghost predicate Due(w: Win, i: nat, end: int) {
    && WinShaped(w)
    && i < |w.slices| && w.slices[i].running && w.slices[i].timeout < end
    && forall k :: 0 <= k < |w.slices| && w.slices[k].running ==> w.slices[i].timeout <= w.slices[k].timeout
  }

  /** No timeout is left before the end of the window: the next event is the window's own. */
  ghost predicate Over(w: Win, end: int) {
    forall k :: 0 <= k < |w.slices| && w.slices[k].running ==> end <= w.slices[k].timeout
  }

  ghost predicate TimelyRun(w0: Win, from: int, end: int, order: seq<nat>, states: seq<Win>) {
    && Idle(w0) && WinShaped(w0) && from < end
    && |states| == |order| + 1
    && states[0] == Start(w0, from)
    && (forall k :: 0 <= k < |order| ==>
          && Due(states[k], order[k], end)
          && states[k + 1] == ScheduleNext(states[k], order[k], states[k].slices[order[k]].timeout))
  }

  lemma IdleRests(w: Win)
    requires Idle(w)
    ensures forall i :: 0 <= i < |w.slices| ==> Resting(w.slices[i])
  {
    forall i | 0 <= i < |w.slices|
      ensures Resting(w.slices[i])
    {
      assert SliceOk(w.slices[i]);
    }
  }

  /** The safety-critical partition of `s` still runs and is on its way to what the table says. */
  ghost predicate OnTheWaySc(s0: Slice, s: Slice, from: int, end: int)
    requires Resting(s0)
  {
    && s0.sc.Some? && s.sc.Some? && Runs(s.sc.value)
    && RunOut(s.sc.value, Sc, s.timeout, end) == ScAfter(s0, from, end).value
    && DoneAt(s.sc.value, Sc, s.timeout) == ScDoneAt(s0, from)
  }

  ghost predicate OnTheWayBe(s0: Slice, s: Slice, at: int, end: int)
    requires Resting(s0)
  {
    && s0.be.Some? && s.be.Some? && Runs(s.be.value)
    && Some(RunOut(s.be.value, Be, s.timeout, end)) == BeAfter(s0, at, end)
    && FitsOut(s.be.value, Be, s.timeout, end) == BeFits(s0, at, end)
  }

  /** Slice `s`, which was `s0` when the window started, is where the table wants it at `now`. */
  ghost predicate OnTrack(s0: Slice, s: Slice, from: int, end: int, at: int, all: bool, now: int)
    requires Resting(s0)
  {
    && SliceOk(s) && InPhase(s, all)
    && (s.running ==> now <= s.timeout)
    && (s.signals == 0 ==> OnTheWaySc(s0, s, from, end) && s.be == s0.be)
    && (s.signals == 1 ==> s.sc == ScAfter(s0, from, end) && ScDoneAt(s0, from) <= now)
    && (s.signals == 1 && !all ==> s.be == s0.be)
    && (s.signals == 1 && all ==> if s.running then OnTheWayBe(s0, s, at, end) else s.be == BeAfter(s0, at, end) && BeFits(s0, at, end))
  }

  ghost predicate Tracking(w0: Win, w: Win, from: int, end: int, hi: nat, now: int)
  {
    && (forall k :: 0 <= k < |w0.slices| ==> Resting(w0.slices[k]))
    && |w.slices| == |w0.slices|
    && from <= now < end
    && Model.WinShaped(w) && StartedUpTo(w, hi)
    && (forall k :: 0 <= k < hi ==>
          OnTrack(w0.slices[k], w.slices[k], from, end, BeStart(w0.slices, from), AllReported(w), now))
    && (forall k :: hi <= k < |w.slices| ==>
          w.slices[k].sc == w0.slices[k].sc && w.slices[k].be == w0.slices[k].be)
  }

  /** The partition runs on from `q` at `later` as it would have from `p` at `timeout`. */
  ghost predicate GoesOn(p: Part, timeout: int, q: Part, later: int, role: Role, end: int)
    requires Runs(p)
  {
    && Runs(q) && later > timeout
    && RunOut(q, role, later, end) == RunOut(p, role, timeout, end)
    && FitsOut(q, role, later, end) == FitsOut(p, role, timeout, end)
    && DoneAt(q, role, later) == DoneAt(p, role, timeout)
  }

  /** The partition gets through with all its processes at `timeout`, as `q`. */
  ghost predicate GetsDone(p: Part, timeout: int, q: Part, role: Role, end: int)
    requires Runs(p)
  {
    && NonePending(q)
    && q == RunOut(p, role, timeout, end)
    && FitsOut(p, role, timeout, end)
    && DoneAt(p, role, timeout) == timeout
  }

  lemma TurnRow(p: Part, role: Role, timeout: int, end: int)
    requires Runs(p) && timeout < end
    ensures var (q, b) := Turn(p, role, timeout);
            if b.Some? then GoesOn(p, timeout, q, timeout + Ms(b.value), role, end) else GetsDone(p, timeout, q, role, end)
  {
    hide Turn, Runs, NonePending, CutOff, CutFits;
  }

  lemma TurnInSlice(s: Slice, t: int)
    requires SliceOk(s) && s.running
    ensures Runs(Current(s))
    ensures var r := StartNextInSlice(EndInSlice(s, t, true), t);
            var (q, b) := Turn(Current(s), s.role.value, t);
            && r.role == s.role && Current(r) == q && r.running == b.Some?
            && (b.Some? ==> r.timeout == t + Ms(b.value))
  {
    hide PartOk, OnlyCurrent, Quiet, NonePending, StartNext, EndCurrent, Ms;
    assert Current(EndInSlice(s, t, true)) == EndCurrent(Current(s), s.role.value, t, true);
  }

  lemma TurnIsSafe(s: Slice, t: int)
    requires SliceOk(s) && s.running
    ensures var r := StartNextInSlice(EndInSlice(s, t, true), t);
            && SliceOk(r) && r.signals == s.signals && r.linked == s.linked
            && (s.role == Some(Be) ==> r.sc == s.sc) && (s.role == Some(Sc) ==> r.be == s.be)
  {
    EndSafe(s, t, true);
    StartNextInSliceSafe(EndInSlice(s, t, true), t);
    hide SliceOk, StartNextInSlice, EndInSlice;
  }

  /** One turn of a slice takes it along its row. */
  lemma TurnKeeps(s: Slice, end: int)
    requires SliceOk(s) && s.running && s.timeout < end
    ensures Runs(Current(s))
    ensures var r := StartNextInSlice(EndInSlice(s, s.timeout, true), s.timeout);
            && SliceOk(r) && r.role == s.role && r.signals == s.signals && r.linked == s.linked
            && (s.role == Some(Be) ==> r.sc == s.sc) && (s.role == Some(Sc) ==> r.be == s.be)
            && (if r.running then GoesOn(Current(s), s.timeout, Current(r), r.timeout, s.role.value, end)
                else GetsDone(Current(s), s.timeout, Current(r), s.role.value, end))
  {
    hide PartIn, Runs, StartNextInSlice, EndInSlice, GoesOn, GetsDone, Turn, Ms;
    TurnInSlice(s, s.timeout);
    TurnIsSafe(s, s.timeout);
    TurnRow(Current(s), s.role.value, s.timeout, end);
  }

  /** Starting a resting partition puts it at the beginning of its row. */
  lemma BeginKeeps(s: Slice, role: Role, t: int, end: int)
    requires SliceOk(s) && !s.running && PartOf(s, role).Some? && t < end
    ensures Rests(PartOf(s, role).value)
    ensures var p := PartOf(s, role).value;
            var r := Begin(s, role, t);
            var q := Current(r);
            && SliceOk(r) && r.role == Some(role) && r.signals == s.signals && r.linked == s.linked + {role}
            && (role == Be ==> r.sc == s.sc) && (role == Sc ==> r.be == s.be)
            && (if r.running then
                  && Runs(q) && r.timeout > t
                  && RunOut(q, role, r.timeout, end) == Served(p, role, t, end)
                  && FitsOut(q, role, r.timeout, end) == ServingFits(p, role, t, end)
                  && DoneAt(q, role, r.timeout) == ServedUntil(p, role, t)
                else
                  && NonePending(q)
                  && q == Served(p, role, t, end)
                  && ServingFits(p, role, t, end)
                  && t == ServedUntil(p, role, t))
  {
    hide Begin, PartOk, OnlyCurrent, Quiet, NonePending, PartIn, SliceOk, RunOut, FitsOut, DoneAt, Runs, Rests, Ms;
    BeginSafe(s, role, t);
    BeginIs(s, role, t);
    var (q, b) := FirstTurn(PartOf(s, role).value, role, t);
    assert b.Some? ==> Ms(b.value) > 0 by { MsGrows(b); }
  }

  lemma MsGrows(b: Option<int>)
    ensures b.Some? && b.value > 0 ==> Ms(b.value) > 0
  {
  }

  lemma BeginIs(s: Slice, role: Role, t: int)
    requires SliceOk(s) && !s.running && PartOf(s, role).Some?
    ensures Rests(PartOf(s, role).value)
    ensures var r := Begin(s, role, t);
            var (q, b) := FirstTurn(PartOf(s, role).value, role, t);
            Current(r) == q && r.running == b.Some? && (b.Some? ==> r.timeout == t + Ms(b.value))
  {
    hide PartOk, OnlyCurrent, Quiet, NonePending, Reset, StartNext, Ms;
    assert Current(Bind(s, role)) == Reset(PartOf(s, role).value, role.Sc?);
  }

  /** The launch of the best-effort partitions puts every slice on its best-effort row. */
  lemma BeginBeKeeps(s0: Slice, s: Slice, from: int, end: int, now: int)
    requires Resting(s0) && SliceOk(s) && !s.running && s.signals == 1 && ScDone(s) && LinkedIn(s, false)
    requires s.sc == ScAfter(s0, from, end) && ScDoneAt(s0, from) <= now < end && s.be == s0.be
    ensures OnTrack(s0, BeginBe(s, now), from, end, now, true, now)
  {
    if s.be.Some? {
      BeginKeeps(s, Be, now, end);
      BeginSafe(s, Be, now);
      assert PartOf(s, Be) == s0.be;
      var r := BeginBe(s, now);
      assert Current(r) == r.be.value;
    }
  }

  /** The rows of all slices but `i`, while not every slice has reported. */
  ghost predicate OthersOnTrack(w0: Win, w: Win, i: nat, hi: nat, from: int, end: int, now: int) {
    && |w.slices| == |w0.slices| && i < hi <= |w.slices|
    && from <= now < end
    && WinShaped(w) && !w.stopping && Counted(w) && !AllReported(w)
    && (forall k :: 0 <= k < |w0.slices| ==> Resting(w0.slices[k]))
    && (forall k :: 0 <= k < |w.slices| ==> SliceOk(w.slices[k]))
    && (forall k :: 0 <= k < hi && k != i ==>
          OnTrack(w0.slices[k], w.slices[k], from, end, BeStart(w0.slices, from), false, now))
    && (forall k :: hi <= k < |w.slices| ==>
          && !w.slices[k].running && w.slices[k].signals == 0 && w.slices[k].linked == {}
          && w.slices[k].sc == w0.slices[k].sc && w.slices[k].be == w0.slices[k].be)
  }

  ghost predicate ScFinished(s0: Slice, s: Slice, from: int, end: int, now: int)
    requires Resting(s0)
  {
    && !s.running && ScDone(s) && LinkedIn(s, false)
    && s.sc == ScAfter(s0, from, end) && s.be == s0.be
    && ScDoneAt(s0, from) == now
  }

  lemma ScEndKeeps(w0: Win, w: Win, i: nat, hi: nat, from: int, end: int, now: int)
    requires OthersOnTrack(w0, w, i, hi, from, end, now)
    requires w.slices[i].signals == 0 && ScFinished(w0.slices[i], w.slices[i], from, end, now)
    ensures Tracking(w0, ScEnd(w, i, now), from, end, hi, now)
  {
    hide SliceOk, ScAfter, BeAfter, ScDoneAt, ScDone, OnTheWaySc, OnTheWayBe, Resting, Ms, BeginBe, Shaped, Signals, BeStart;
    var n := |w.slices|;
    var at := BeStart(w0.slices, from);
    ScEndSafe(w, i, hi, now);
    ReportSafe(w.slices[i], 1);
    ReportCounts(w, i, hi);
    var s := w.slices[i].(signals := 1);
    var slices := w.slices[i := s];
    var r := ScEnd(w, i, now);
    if w.finished + 1 == n {
      ReportLast(w, i, hi);
      BeStartIsMax(w0.slices, from);
      LaunchTime(w0.slices, i, from, now);
      forall k | 0 <= k < n
        ensures OnTrack(w0.slices[k], r.slices[k], from, end, at, true, now)
      {
        assert slices[k].signals == 1;
        BeginBeKeeps(w0.slices[k], slices[k], from, end, now);
        assert r.slices[k] == BeginBe(slices[k], now);
      }
    } else {
      assert r.slices == slices;
    }
  }

  lemma LaunchTime(slices: seq<Slice>, i: nat, from: int, now: int)
    requires forall k :: 0 <= k < |slices| ==> Resting(slices[k]) && ScDoneAt(slices[k], from) <= now
    requires i < |slices| && ScDoneAt(slices[i], from) == now && from <= now
    ensures BeStart(slices, from) == now
  {
    hide ScDoneAt, Resting;
    BeStartIsMax(slices, from);
  }

  lemma OnTrackLater(s0: Slice, s: Slice, from: int, end: int, at: int, all: bool, now: int, t: int)
    requires Resting(s0) && OnTrack(s0, s, from, end, at, all, now)
    requires now <= t && (s.running ==> t <= s.timeout)
    ensures OnTrack(s0, s, from, end, at, all, t)
  {
    hide SliceOk, ScAfter, BeAfter, ScDoneAt, OnTheWaySc, OnTheWayBe, Resting;
  }

  lemma TurnShape(s: Slice, t: int)
    requires SliceOk(s) && s.running
    ensures var r := StartNextInSlice(EndInSlice(s, t, true), t);
            (r.sc.Some? <==> s.sc.Some?) && (r.be.Some? <==> s.be.Some?)
  {
    hide PartIn, StartNext, EndCurrent;
  }

  /** A slice whose timeout is served, seen on its own. */
  lemma TurnOnTrack(s0: Slice, s: Slice, from: int, end: int, at: int, all: bool, now: int)
    requires Resting(s0) && OnTrack(s0, s, from, end, at, all, now)
    requires s.running && s.timeout < end && (s.signals == 0 ==> !all)
    ensures var r := StartNextInSlice(EndInSlice(s, s.timeout, true), s.timeout);
            && SliceOk(r) && r.signals == s.signals && r.role == s.role
            && (r.running || s.role == Some(Be) ==> OnTrack(s0, r, from, end, at, all, s.timeout))
            && (!r.running && s.role == Some(Sc) ==> ScFinished(s0, r, from, end, s.timeout))
  {
    hide StartNextInSlice, EndInSlice, PartIn, RunOut, FitsOut, DoneAt, BeAfter, Served, Ms, NonePending, Runs;
    TurnKeeps(s, end);
    TurnShape(s, s.timeout);
    var r := StartNextInSlice(EndInSlice(s, s.timeout, true), s.timeout);
    assert s.role == Some(Sc) ==> Current(s) == s.sc.value && Current(r) == r.sc.value;
    assert s.role == Some(Be) ==> Current(s) == s.be.value && Current(r) == r.be.value;
  }

  lemma OthersLater(w0: Win, w: Win, i: nat, from: int, end: int, now: int)
    requires Tracking(w0, w, from, end, |w.slices|, now) && Due(w, i, end)
    ensures forall k :: 0 <= k < |w.slices| && k != i ==>
              OnTrack(w0.slices[k], w.slices[k], from, end, BeStart(w0.slices, from), AllReported(w), w.slices[i].timeout)
  {
    hide SliceOk, ScAfter, BeAfter, ScDoneAt, OnTheWaySc, OnTheWayBe, Resting, Shaped, InPhase;
    forall k | 0 <= k < |w.slices| && k != i
      ensures OnTrack(w0.slices[k], w.slices[k], from, end, BeStart(w0.slices, from), AllReported(w), w.slices[i].timeout)
    {
      OnTrackLater(w0.slices[k], w.slices[k], from, end, BeStart(w0.slices, from), AllReported(w), now, w.slices[i].timeout);
    }
  }

  /** Slice `i` has been brought to `r` by its timeout, all others are where they should be. */
  lemma TickAssembles(w0: Win, w: Win, i: nat, r: Slice, from: int, end: int, t: int)
    requires |w.slices| == |w0.slices| && i < |w.slices| && from <= t < end
    requires WinShaped(w) && Inv(w) && Shaped(r)
    requires forall k :: 0 <= k < |w0.slices| ==> Resting(w0.slices[k])
    requires forall k :: 0 <= k < |w.slices| && k != i ==>
               OnTrack(w0.slices[k], w.slices[k], from, end, BeStart(w0.slices, from), AllReported(w), t)
    requires SliceOk(r) && r.role.Some? && r.signals == w.slices[i].signals
    requires r.running || r.role == Some(Be) ==>
               OnTrack(w0.slices[i], r, from, end, BeStart(w0.slices, from), AllReported(w), t)
    requires !r.running && r.role == Some(Sc) ==> r.signals == 0 && ScFinished(w0.slices[i], r, from, end, t)
    requires Inv(Settle(w.(slices := w.slices[i := r]), i, t))
    ensures Tracking(w0, Settle(w.(slices := w.slices[i := r]), i, t), from, end, |w.slices|, t)
  {
    hide SliceOk, ScAfter, BeAfter, ScDoneAt, ScDone, Resting, Shaped, InPhase, OnTrack, ScFinished;
    var v := w.(slices := w.slices[i := r]);
    if !r.running && r.role == Some(Sc) {
      SignalsUpdate(w.slices, i, r);
      SomeUnreported(w, i);
      ScEndKeeps(w0, v, i, |w.slices|, from, end, t);
    } else {
      assert r.running || r.role.value == Be;
      assert Settle(v, i, t) == v;
      assert forall k :: 0 <= k < |w.slices| && k != i ==> v.slices[k] == w.slices[k];
    }
  }

  lemma TickKeeps(w0: Win, w: Win, i: nat, from: int, end: int, now: int)
    requires Tracking(w0, w, from, end, |w.slices|, now) && Due(w, i, end)
    ensures Tracking(w0, ScheduleNext(w, i, w.slices[i].timeout), from, end, |w.slices|, w.slices[i].timeout)
  {
    hide ScAfter, BeAfter, ScDoneAt, ScDone, OnTheWaySc, OnTheWayBe, Resting, StartNextInSlice, EndInSlice, PartIn, Settle;
    var s := w.slices[i];
    var t := s.timeout;
    assert OnTrack(w0.slices[i], s, from, end, BeStart(w0.slices, from), AllReported(w), now);
    ScheduleNextSafe(w, i, t);
    ScheduleNextIs(w, i, t);
    if s.signals == 0 {
      SomeUnreported(w, i);
    }
    TurnOnTrack(w0.slices[i], s, from, end, BeStart(w0.slices, from), AllReported(w), now);
    OthersLater(w0, w, i, from, end, now);
    TickAssembles(w0, w, i, StartNextInSlice(EndInSlice(s, t, true), t), from, end, t);
  }

  lemma SomeUnreported(w: Win, i: nat)
    requires Inv(w) && i < |w.slices| && w.slices[i].signals == 0
    ensures !AllReported(w)
  {
    hide SliceOk, ScDone;
    SignalsFull(w.slices);
  }

  /** Slice `i` has been started as `r`, those below it before. */
  lemma StartAssembles(w0: Win, w: Win, i: nat, r: Slice, from: int, end: int)
    requires Tracking(w0, w, from, end, i, from) && i < |w.slices| && !AllReported(w)
    requires Shaped(r) && SliceOk(r) && r.signals == 0 && r.role == Some(Sc) && w.slices[i].signals == 0
    requires if r.running then OnTrack(w0.slices[i], r, from, end, BeStart(w0.slices, from), false, from)
             else ScFinished(w0.slices[i], r, from, end, from)
    requires StartedUpTo(Settle(w.(slices := w.slices[i := r]), i, from), i + 1)
    ensures Tracking(w0, Settle(w.(slices := w.slices[i := r]), i, from), from, end, i + 1, from)
  {
    hide SliceOk, ScAfter, BeAfter, ScDoneAt, ScDone, Resting, Shaped, InPhase, OnTrack, ScFinished, BeStart, Signals;
    var v := w.(slices := w.slices[i := r]);
    if r.running {
      assert forall k :: 0 <= k < |w.slices| && k != i ==> v.slices[k] == w.slices[k];
      assert Settle(v, i, from) == v;
    } else {
      StartedOthers(w0, w, i, r, from, end);
      ScEndKeeps(w0, v, i, i + 1, from, end, from);
    }
  }

  lemma StartedOthers(w0: Win, w: Win, i: nat, r: Slice, from: int, end: int)
    requires Tracking(w0, w, from, end, i, from) && i < |w.slices| && !AllReported(w)
    requires Shaped(r) && SliceOk(r) && r.signals == w.slices[i].signals
    ensures OthersOnTrack(w0, w.(slices := w.slices[i := r]), i, i + 1, from, end, from)
  {
    hide SliceOk, ScAfter, BeAfter, ScDoneAt, ScDone, Resting, Shaped, InPhase, OnTrack, BeStart, Signals;
    SignalsUpdate(w.slices, i, r);
    assert forall k :: 0 <= k < |w.slices| && k != i ==> w.slices[i := r][k] == w.slices[k];
  }

  lemma StartScAtKeeps(w0: Win, w: Win, i: nat, from: int, end: int)
    requires Tracking(w0, w, from, end, i, from) && i < |w.slices|
    ensures Tracking(w0, StartScAt(w, i, from), from, end, i + 1, from)
  {
    hide ScAfter, BeAfter, ScDoneAt, ScDone, Resting, Begin, OnTrack, PartIn, ScFinished, InPhase, ScEnd, Settle;
    var s := w.slices[i];
    StartScAtSafe(w, i, from);
    StartIncomplete(w, i);
    BeginOnTrack(w0.slices[i], s, from, end, BeStart(w0.slices, from));
    if s.sc.None? {
      ScEndKeeps(w0, w, i, i + 1, from, end, from);
    } else {
      StartAssembles(w0, w, i, Begin(s, Sc, from), from, end);
    }
  }

  lemma StartIncomplete(w: Win, i: nat)
    requires StartedUpTo(w, i) && i < |w.slices|
    ensures !AllReported(w)
  {
    hide SliceOk, ScDone;
    SignalsFull(w.slices);
  }

  /** A slice being started, seen on its own. */
  lemma BeginOnTrack(s0: Slice, s: Slice, from: int, end: int, at: int)
    requires Resting(s0) && SliceOk(s) && !s.running && s.signals == 0 && s.linked == {} && from < end
    requires s.sc == s0.sc && s.be == s0.be
    ensures s.sc.None? ==> ScFinished(s0, s, from, end, from)
    ensures s.sc.Some? ==>
              var r := Begin(s, Sc, from);
              && SliceOk(r) && r.signals == 0 && r.role == Some(Sc)
              && (if r.running then OnTrack(s0, r, from, end, at, false, from) else ScFinished(s0, r, from, end, from))
  {
    if s.sc.Some? {
      BeginKeeps(s, Sc, from, end);
      var r := Begin(s, Sc, from);
      assert Current(r) == r.sc.value && PartOf(s, Sc) == s.sc;
    }
  }

  lemma {:induction false} StartFromKeeps(w0: Win, w: Win, i: nat, from: int, end: int)
    requires Tracking(w0, w, from, end, i, from)
    ensures Tracking(w0, StartFrom(w, i, from), from, end, |w.slices|, from)
    decreases |w.slices| - i
  {
    if i < |w.slices| {
      StartScAtKeeps(w0, w, i, from, end);
      StartFromKeeps(w0, StartScAt(w, i, from), i + 1, from, end);
    }
  }

  lemma StartTracks(w0: Win, from: int, end: int)
    requires Idle(w0) && from < end
    ensures WinShaped(w0) && Tracking(w0, Start(w0, from), from, end, |w0.slices|, from)
  {
    IdleRests(w0);
    var u := Unsignalled(w0.slices);
    forall k | 0 <= k < |u|
      ensures SliceOk(u[k]) && !u[k].running
    {
      ReportSafe(w0.slices[k], 0);
    }
    SignalsFull(u);
    SignalsZero(u);
    StartFromKeeps(w0, w0.(finished := 0, launches := 0, slices := u), 0, from, end);
  }

  /** When the last event of a run was served. */
  ghost function LastEvent(from: int, order: seq<nat>, states: seq<Win>, k: nat): int
    requires k < |states| && k <= |order| && forall m :: 0 <= m < k ==> order[m] < |states[m].slices|
  {
    if k == 0 then from else states[k - 1].slices[order[k - 1]].timeout
  }

  lemma {:induction false} RunTracks(w0: Win, from: int, end: int, order: seq<nat>, states: seq<Win>, k: nat)
    requires TimelyRun(w0, from, end, order, states) && k <= |order|
    ensures Tracking(w0, states[k], from, end, |w0.slices|, LastEvent(from, order, states, k))
  {
    if k == 0 {
      StartTracks(w0, from, end);
    } else {
      RunTracks(w0, from, end, order, states, k - 1);
      TickKeeps(w0, states[k - 1], order[k - 1], from, end, LastEvent(from, order, states, k - 1));
    }
  }

  // ----- The end of the window -----

  /** Stopping changes the partitions of each slice as `StopSlice` alone does. */
  lemma {:induction false} StopFromParts(w: Win, i: nat, t: int)
    requires WinShaped(w) && w.stopping && i <= |w.slices|
    ensures var r := StopFrom(w, i, t);
            && |r.slices| == |w.slices|
            && (forall k :: 0 <= k < i ==> r.slices[k] == w.slices[k])
            && (forall k :: i <= k < |w.slices| ==>
                  && r.slices[k].sc == StopSlice(w.slices[k], t).0.sc
                  && r.slices[k].be == StopSlice(w.slices[k], t).0.be)
    decreases |w.slices| - i
  {
    hide StopSlice, Shaped;
    if i < |w.slices| {
      var v := StopAt(w, i, t);
      var s := StopSlice(w.slices[i], t).0;
      assert v.slices[i].sc == s.sc && v.slices[i].be == s.be;
      assert forall k :: 0 <= k < |w.slices| && k != i ==> v.slices[k] == w.slices[k];
      StopFromParts(v, i + 1, t);
    }
  }

  lemma StopCutsOff(s: Slice, end: int)
    requires SliceOk(s) && s.running && end <= s.timeout
    ensures Runs(Current(s))
    ensures var r := StopSlice(s, end).0;
            && (s.role == Some(Sc) ==> r.sc == Some(RunOut(Current(s), Sc, s.timeout, end)) && r.be == s.be)
            && (s.role == Some(Be) ==> r.be == Some(RunOut(Current(s), Be, s.timeout, end)) && r.sc == s.sc)
  {
    hide PartOk, OnlyCurrent, Quiet, EndCurrent, SetRemaining, SeekPart;
    var p := Current(s);
    assert s.role == Some(Sc) ==> s.sc == Some(p);
    assert s.role == Some(Be) ==> s.be == Some(p);
    assert Runs(p);
    assert RunOut(p, s.role.value, s.timeout, end) == CutOff(p, s.role.value, s.timeout, end);
  }

  lemma StopOnTrack(s0: Slice, s: Slice, from: int, end: int, at: int, all: bool, now: int)
    requires Resting(s0) && OnTrack(s0, s, from, end, at, all, now)
    requires s.running ==> end <= s.timeout
    requires if all then s.signals == 1 else at >= end
    ensures var r := StopSlice(s, end).0;
            r.sc == ScAfter(s0, from, end) && r.be == BeAfter(s0, at, end)
  {
    if s.running {
      StopCutsOff(s, end);
      hide StopSlice, RunOut, DoneAt, ScDone, Served, ServedUntil, Runs, PartIn;
      assert Current(s) == if s.role == Some(Sc) then s.sc.value else s.be.value;
      if s.signals == 0 {
        assert s.role == Some(Sc) && OnTheWaySc(s0, s, from, end);
      } else {
        assert s.role == Some(Be) && OnTheWayBe(s0, s, at, end);
      }
    }
  }

  /**
   * Refinement to the time table. However simultaneous timeouts are ordered, and however often
   * the end of a safety-critical partition re-enters the window from inside its own loops, a
   * timely run leaves every partition of the window exactly as its row of the table says.
   */
  lemma RunFollowsTable(w0: Win, from: int, end: int, order: seq<nat>, states: seq<Win>)
    requires TimelyRun(w0, from, end, order, states) && Over(states[|order|], end)
    ensures forall i :: 0 <= i < |w0.slices| ==> Resting(w0.slices[i])
    ensures |states[|order|].slices| == |w0.slices| && WinShaped(states[|order|])
    ensures var r := Stop(states[|order|], end);
            var at := BeStart(w0.slices, from);
            forall i :: 0 <= i < |w0.slices| ==>
              && r.slices[i].sc == ScAfter(w0.slices[i], from, end)
              && r.slices[i].be == BeAfter(w0.slices[i], at, end)
  {
    hide StopSlice, ScAfter, BeAfter, Resting, SliceOk, OnTrack, StopFits, Start, ScheduleNext;
    var w := states[|order|];
    var n := |w0.slices|;
    var now := LastEvent(from, order, states, |order|);
    RunTracks(w0, from, end, order, states, |order|);
    var at := BeStart(w0.slices, from);
    var r := Stop(w, end);
    StopFromParts(w.(stopping := true), 0, end);
    SignalsFull(w.slices);
    if !AllReported(w) {
      NotReportedIsLate(w0, w, from, end, now);
    }
    forall i | 0 <= i < n
      ensures r.slices[i].sc == ScAfter(w0.slices[i], from, end) && r.slices[i].be == BeAfter(w0.slices[i], at, end)
    {
      StopOnTrack(w0.slices[i], w.slices[i], from, end, at, AllReported(w), now);
    }
  }

  /** If a slice has not reported by the end of the window, best effort would start too late. */
  lemma NotReportedIsLate(w0: Win, w: Win, from: int, end: int, now: int)
    requires Tracking(w0, w, from, end, |w.slices|, now) && Over(w, end) && !AllReported(w)
    ensures BeStart(w0.slices, from) >= end
  {
    hide Ms, RunOut, ScAfter, BeAfter, PartIn;
    SignalsFull(w.slices);
    var k :| 0 <= k < |w.slices| && w.slices[k].signals != 1;
    var s := w.slices[k];
    assert InPhase(s, AllReported(w)) && OnTheWaySc(w0.slices[k], s, from, end);
    DoneAtLater(s.sc.value, Sc, s.timeout);
    BeStartIsMax(w0.slices, from);
  }
}
