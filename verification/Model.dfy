/**
 * Scheduler state as plain values, and the effect of every scheduling call on it.
 *
 * Process, Partition, Slice and Window objects are described by `Proc`, `Part`, `Slice` and `Win`.
 * Times are nanoseconds, budgets are milliseconds. A slice value holds the values of its own
 * partitions, which is sound because a partition has at most one role in a window.
 *
 * The random part of a budget is an arbitrary stream per process (`noise`), so every function
 * below is deterministic while each lemma about it speaks of every possible outcome of the draws.
 */
module Model {
  import opened Options

  /** Milliseconds as nanoseconds. */
  function Ms(n: int): int {
    n * 1_000_000
  }

  datatype Role = Sc | Be

  /** History of a partition: what the schedule logger writes, and when each run ended. */
  datatype Event =
    | Started(at: int, role: Role, proc: nat, budget: int)
    | Ended(at: int, role: Role, proc: nat, done: bool)

  datatype Proc = Proc(
    budget: int, jitter: nat, noise: nat -> int, draws: nat, actual: int,
    completed: bool, signalled: bool, tokens: nat, spawned: bool, frozen: bool)

  datatype Part = Part(procs: seq<Proc>, cur: nat, log: seq<Event>)

  /** `linked`: whose signals are passed on to the slice, as its callback is connected there. */
  datatype Slice = Slice(
    sc: Option<Part>, be: Option<Part>, role: Option<Role>,
    running: bool, timeout: int, armed: bool, linked: set<Role>, signals: nat)

  /**
   * `signals` and `launches` are history: how often a slice reported the end of its
   * safety-critical partition, and how often best-effort partitions were launched, since the
   * window was started.
   */
  datatype Win = Win(slices: seq<Slice>, finished: nat, stopping: bool, launches: nat)

  // ----- Process -----

  ghost predicate ProcOk(p: Proc) {
    && 0 < p.budget
    && p.jitter <= 2 * p.budget
    && 0 < p.actual <= p.budget
    && forall k :: -(p.jitter / 2) <= p.noise(k) <= p.jitter - p.jitter / 2
  }

  predicate Pending(p: Proc) {
    p.spawned && !p.completed
  }

  /** A shortened budget is used as it is, a full one gets its random part. */
  function Draw(p: Proc): (Proc, int) {
    if p.budget != p.actual then (p, p.actual)
    else (p.(draws := p.draws + 1), p.actual + p.noise(p.draws))
  }

  /** Unfreezes the process, releasing its client if it had signalled completion. */
  function Resume(p: Proc): Proc {
    if p.signalled then p.(signalled := false, tokens := p.tokens + 1, frozen := false)
    else p.(frozen := false)
  }

  // ----- Partition -----

  ghost predicate PartOk(p: Part) {
    && p.cur < |p.procs|
    && forall j :: 0 <= j < |p.procs| ==> ProcOk(p.procs[j])
  }

  function Next(n: nat, c: nat): (d: nat)
    requires c < n
    ensures d < n
  {
    if c + 1 == n then 0 else c + 1
  }

  /** The cursor after looking at up to `fuel` processes, and whether it stands on a pending one. */
  function Seek(procs: seq<Proc>, c: nat, fuel: nat): (r: (nat, bool))
    requires c < |procs|
    ensures r.0 < |procs| && (r.1 ==> Pending(procs[r.0]))
    decreases fuel
  {
    if fuel == 0 then (Next(|procs|, c), false)
    else if Pending(procs[c]) then (c, true)
    else Seek(procs, Next(|procs|, c), fuel - 1)
  }

  function PendingCount(procs: seq<Proc>): nat {
    if |procs| == 0 then 0
    else PendingCount(procs[..|procs| - 1]) + if Pending(procs[|procs| - 1]) then 1 else 0
  }

  lemma {:induction false} PendingCountUpdate(procs: seq<Proc>, j: nat, p: Proc)
    requires j < |procs|
    ensures PendingCount(procs[j := p]) ==
            PendingCount(procs) - (if Pending(procs[j]) then 1 else 0) + if Pending(p) then 1 else 0
  {
    var n := |procs| - 1;
    if j == n {
      assert procs[j := p][..n] == procs[..n];
    } else {
      assert procs[j := p][..n] == procs[..n][j := p];
      PendingCountUpdate(procs[..n], j, p);
    }
  }

  function SeekPart(p: Part): (r: (Part, bool))
    requires p.cur < |p.procs|
    ensures r.0.cur < |r.0.procs| && r.0.procs == p.procs
  {
    var (c, found) := Seek(p.procs, p.cur, |p.procs|);
    (p.(cur := c), found)
  }

  /** The current process has nothing to do this time and is passed over. */
  function Skip(p: Part): (q: Part)
    requires p.cur < |p.procs|
    ensures q.cur == p.cur && |q.procs| == |p.procs|
  {
    p.(procs := p.procs[p.cur := Draw(p.procs[p.cur]).0.(completed := true)])
  }

  /** The current process is let run for `b` milliseconds. */
  function Launch(p: Part, role: Role, t: int): (q: Part)
    requires p.cur < |p.procs|
    ensures q.cur == p.cur && |q.procs| == |p.procs|
  {
    var (x, b) := Draw(p.procs[p.cur]);
    p.(procs := p.procs[p.cur := Resume(x).(actual := x.budget)],
       log := p.log + [Started(t, role, p.cur, b)])
  }

  /** Seeks the next pending process with a non-zero budget and starts it; returns its budget. */
  function StartNext(p: Part, role: Role, t: int): (r: (Part, Option<int>))
    requires p.cur < |p.procs|
    ensures r.0.cur < |r.0.procs| && |r.0.procs| == |p.procs|
    decreases PendingCount(p.procs)
  {
    var (q, found) := SeekPart(p);
    if !found then (q, None)
    else
      var b := Draw(q.procs[q.cur]).1;
      if b == 0 then
        PendingCountUpdate(q.procs, q.cur, Draw(q.procs[q.cur]).0.(completed := true));
        StartNext(Skip(q), role, t)
      else (Launch(q, role, t), Some(b))
  }

  /** Freezes the current process; `done` tells whether it is finished for this window. */
  function EndCurrent(p: Part, role: Role, t: int, done: bool): (q: Part)
    requires p.cur < |p.procs|
    ensures q.cur == p.cur && |q.procs| == |p.procs|
  {
    var x := p.procs[p.cur];
    p.(procs := p.procs[p.cur := x.(frozen := true, completed := done || x.completed)],
       log := p.log + [Ended(t, role, p.cur, done)])
  }

  function Uncompleted(procs: seq<Proc>): (r: seq<Proc>)
    ensures |r| == |procs|
    ensures forall j :: 0 <= j < |procs| ==> r[j] == procs[j].(completed := false)
  {
    seq(|procs|, j requires 0 <= j < |procs| => procs[j].(completed := false))
  }

  function Reset(p: Part, first: bool): (q: Part)
    requires p.cur < |p.procs|
    ensures q.cur < |q.procs| && |q.procs| == |p.procs|
  {
    p.(procs := Uncompleted(p.procs), cur := if first then 0 else p.cur)
  }

  function SetRemaining(p: Part, ms: int): (q: Part)
    requires p.cur < |p.procs|
    ensures q.cur == p.cur && |q.procs| == |p.procs|
  {
    p.(procs := p.procs[p.cur := p.procs[p.cur].(actual := ms)])
  }

  // ----- Slice -----

  function PartOf(s: Slice, r: Role): Option<Part> {
    match r case Sc => s.sc case Be => s.be
  }

  function WithPart(s: Slice, r: Role, p: Part): Slice {
    match r case Sc => s.(sc := Some(p)) case Be => s.(be := Some(p))
  }

  /** Cursors are in range, and a slice which runs something knows in which partition. */
  predicate Shaped(s: Slice) {
    && (s.sc.Some? ==> s.sc.value.cur < |s.sc.value.procs|)
    && (s.be.Some? ==> s.be.value.cur < |s.be.value.procs|)
    && (s.role.Some? ==> PartOf(s, s.role.value).Some?)
    && (s.running ==> s.role.Some?)
  }

  function Current(s: Slice): (p: Part)
    requires Shaped(s) && s.role.Some?
    ensures p.cur < |p.procs|
  {
    PartOf(s, s.role.value).value
  }

  function StartNextInSlice(s: Slice, t: int): (r: Slice)
    requires Shaped(s) && s.role.Some?
    ensures Shaped(r) && r.role == s.role
  {
    var (p, b) := StartNext(Current(s), s.role.value, t);
    var r := WithPart(s, s.role.value, p);
    if b.None? then r.(running := false)
    else r.(running := true, timeout := t + Ms(b.value), armed := true)
  }

  /** The slice's part of `Slice::load_next_process`. */
  function SeekInSlice(s: Slice): (r: (Slice, bool))
    requires Shaped(s) && s.role.Some?
    ensures Shaped(r.0) && r.0.role == s.role && r.0.running == r.1
  {
    var (p, found) := SeekPart(Current(s));
    (WithPart(s, s.role.value, p).(running := found), found)
  }

  /** The loaded process is run, or passed over if its budget is zero this time. */
  function RunInSlice(s: Slice, t: int): (r: (Slice, bool))
    requires Shaped(s) && s.role.Some?
    ensures Shaped(r.0) && r.0.role == s.role && r.0.running == r.1
  {
    var p := Current(s);
    var b := Draw(p.procs[p.cur]).1;
    if b == 0 then (WithPart(s, s.role.value, Skip(p)).(running := false), false)
    else
      (WithPart(s, s.role.value, Launch(p, s.role.value, t)).(running := true, timeout := t + Ms(b), armed := true), true)
  }

  /** `StartNextInSlice` one process at a time, as `Slice::start_next_process` goes about it. */
  lemma StartNextUnfolds(s: Slice, t: int)
    requires Shaped(s) && s.role.Some?
    ensures var (u, found) := SeekInSlice(s);
            StartNextInSlice(s, t) ==
            if !found then u
            else
              var (r, started) := RunInSlice(u, t);
              if started then r else StartNextInSlice(r, t)
  {
    hide Seek;
    var (q, found) := SeekPart(Current(s));
    if found {
      var u := SeekInSlice(s).0;
      assert Current(u) == q;
      if Draw(q.procs[q.cur]).1 == 0 {
        assert Current(RunInSlice(u, t).0) == Skip(q);
      }
    }
  }

  /** The partition is reset for this window and connected; only a safety-critical one begins at the first process. */
  function Bind(s: Slice, role: Role): (r: Slice)
    requires Shaped(s) && PartOf(s, role).Some?
    ensures Shaped(r) && r.role == Some(role)
  {
    WithPart(s, role, Reset(PartOf(s, role).value, role.Sc?)).(role := Some(role), linked := s.linked + {role})
  }

  function Begin(s: Slice, role: Role, t: int): (r: Slice)
    requires Shaped(s) && PartOf(s, role).Some?
    ensures Shaped(r) && r.role == Some(role)
  {
    StartNextInSlice(Bind(s, role), t)
  }

  function BeginBe(s: Slice, t: int): (r: Slice)
    requires Shaped(s)
    ensures Shaped(r)
  {
    if s.be.None? then s else Begin(s, Be, t)
  }

  function EndInSlice(s: Slice, t: int, done: bool): (r: Slice)
    requires Shaped(s) && s.running
    ensures Shaped(r) && r.role == s.role && !r.running
  {
    WithPart(s, s.role.value, EndCurrent(Current(s), s.role.value, t, done)).(running := false, armed := false)
  }

  /** Whole milliseconds in a duration, truncated toward zero as `duration_cast` does. */
  function TruncMs(d: int): int {
    if d >= 0 then d / 1_000_000 else -((-d) / 1_000_000)
  }

  function Remaining(s: Slice, t: int): int {
    TruncMs(s.timeout - t)
  }

  /** `Slice::stop`; the flag tells whether the safety-critical partition got done by it. */
  function StopSlice(s: Slice, t: int): (r: (Slice, bool))
    requires Shaped(s)
    ensures Shaped(r.0) && !r.0.running
  {
    StopUnlinked(s.(linked := {}), t)
  }

  /** The rest of it, once both partitions are disconnected. */
  function StopUnlinked(s: Slice, t: int): (r: (Slice, bool))
    requires Shaped(s)
    ensures Shaped(r.0) && !r.0.running
  {
    if !s.running then (s.(armed := false), false)
    else if Remaining(s, t) == 0 then
      var e := EndInSlice(s, t, true);
      var (p, found) := SeekPart(Current(e));
      (WithPart(e, e.role.value, p), !found && e.role == Some(Sc))
    else if s.role == Some(Be) then
      (EndInSlice(s.(be := Some(SetRemaining(s.be.value, Remaining(s, t)))), t, false), false)
    else (EndInSlice(s, t, false), false)
  }

  // ----- Window -----

  predicate WinShaped(w: Win) {
    forall i :: 0 <= i < |w.slices| ==> Shaped(w.slices[i])
  }

  function BeginBeAll(slices: seq<Slice>, t: int): (r: seq<Slice>)
    requires forall i :: 0 <= i < |slices| ==> Shaped(slices[i])
    ensures |r| == |slices|
    ensures forall i :: 0 <= i < |slices| ==> r[i] == BeginBe(slices[i], t) && Shaped(r[i])
  {
    seq(|slices|, i requires 0 <= i < |slices| => BeginBe(slices[i], t))
  }

  /** `Window::slice_sc_end_cb`, called for slice `i`. */
  function ScEnd(w: Win, i: nat, t: int): (r: Win)
    requires WinShaped(w) && i < |w.slices|
    ensures WinShaped(r) && |r.slices| == |w.slices| && r.stopping == w.stopping
  {
    var s := w.slices[i].(signals := w.slices[i].signals + 1);
    var v := w.(finished := w.finished + 1, slices := w.slices[i := s]);
    if !v.stopping && v.finished == |v.slices| then
      v.(slices := BeginBeAll(v.slices, t), launches := v.launches + 1)
    else v
  }

  /** A slice whose safety-critical partition has nothing left to start reports it to the window. */
  function Settle(w: Win, i: nat, t: int): (r: Win)
    requires WinShaped(w) && i < |w.slices|
    ensures WinShaped(r) && |r.slices| == |w.slices| && r.stopping == w.stopping
  {
    if !w.slices[i].running && w.slices[i].role == Some(Sc) then ScEnd(w, i, t) else w
  }

  /** `Slice::load_next_process` of slice `i`. */
  function LoadNext(w: Win, i: nat, t: int): (r: (Win, bool))
    requires WinShaped(w) && i < |w.slices| && w.slices[i].role.Some?
    ensures WinShaped(r.0) && |r.0.slices| == |w.slices|
  {
    var (s, found) := SeekInSlice(w.slices[i]);
    (Settle(w.(slices := w.slices[i := s]), i, t), found)
  }

  /** `Slice::start_next_process` of slice `i`. */
  function StartNextAt(w: Win, i: nat, t: int): (r: Win)
    requires WinShaped(w) && i < |w.slices| && w.slices[i].role.Some?
    ensures WinShaped(r) && |r.slices| == |w.slices| && r.stopping == w.stopping
  {
    Settle(w.(slices := w.slices[i := StartNextInSlice(w.slices[i], t)]), i, t)
  }

  /** `Slice::start_sc` of slice `i`. */
  function StartScAt(w: Win, i: nat, t: int): (r: Win)
    requires WinShaped(w) && i < |w.slices|
    ensures WinShaped(r) && |r.slices| == |w.slices| && r.stopping == w.stopping
  {
    if w.slices[i].sc.None? then ScEnd(w, i, t)
    else Settle(w.(slices := w.slices[i := Begin(w.slices[i], Sc, t)]), i, t)
  }

  /** The loop of `Window::start`, from slice `i` on. */
  function StartFrom(w: Win, i: nat, t: int): (r: Win)
    requires WinShaped(w) && i <= |w.slices|
    ensures WinShaped(r) && |r.slices| == |w.slices| && r.stopping == w.stopping
    decreases |w.slices| - i
  {
    if i == |w.slices| then w else StartFrom(StartScAt(w, i, t), i + 1, t)
  }

  function Unsignalled(slices: seq<Slice>): (r: seq<Slice>)
    ensures |r| == |slices|
    ensures forall i :: 0 <= i < |slices| ==> r[i] == slices[i].(signals := 0)
  {
    seq(|slices|, i requires 0 <= i < |slices| => slices[i].(signals := 0))
  }

  /** `Window::start`. */
  function Start(w: Win, t: int): (r: Win)
    requires WinShaped(w)
    ensures WinShaped(r) && |r.slices| == |w.slices| && r.stopping == w.stopping
  {
    StartFrom(w.(finished := 0, launches := 0, slices := Unsignalled(w.slices)), 0, t)
  }

  /** `Slice::schedule_next` of slice `i`: its process ran out of budget or signalled completion. */
  function ScheduleNext(w: Win, i: nat, t: int): (r: Win)
    requires WinShaped(w) && i < |w.slices| && w.slices[i].running
    ensures WinShaped(r) && |r.slices| == |w.slices| && r.stopping == w.stopping
  {
    StartNextAt(w.(slices := w.slices[i := EndInSlice(w.slices[i], t, true)]), i, t)
  }

  /** With the slice brought to the next process first, and its report after that. */
  lemma ScheduleNextIs(w: Win, i: nat, t: int)
    requires WinShaped(w) && i < |w.slices| && w.slices[i].running
    ensures ScheduleNext(w, i, t) ==
            Settle(w.(slices := w.slices[i := StartNextInSlice(EndInSlice(w.slices[i], t, true), t)]), i, t)
  {
    hide StartNextInSlice, EndInSlice, Settle;
    var e := EndInSlice(w.slices[i], t, true);
    var u := w.(slices := w.slices[i := e]);
    assert u.slices[i := StartNextInSlice(e, t)] == w.slices[i := StartNextInSlice(e, t)];
  }

  /** `Slice::stop` of slice `i`, with its report to the window. */
  function StopAt(w: Win, i: nat, t: int): (r: Win)
    requires WinShaped(w) && i < |w.slices|
    ensures WinShaped(r) && |r.slices| == |w.slices| && r.stopping == w.stopping
  {
    var (s, scDone) := StopSlice(w.slices[i], t);
    var v := w.(slices := w.slices[i := s]);
    if scDone then ScEnd(v, i, t) else v
  }

  /** The loop of `Window::stop`, from slice `i` on. */
  function StopFrom(w: Win, i: nat, t: int): (r: Win)
    requires WinShaped(w) && i <= |w.slices|
    ensures WinShaped(r) && |r.slices| == |w.slices| && r.stopping == w.stopping
    decreases |w.slices| - i
  {
    if i == |w.slices| then w else StopFrom(StopAt(w, i, t), i + 1, t)
  }

  /** `Window::stop`. */
  function Stop(w: Win, t: int): (r: Win)
    requires WinShaped(w)
    ensures WinShaped(r) && |r.slices| == |w.slices| && !r.stopping
  {
    StopFrom(w.(stopping := true), 0, t).(stopping := false)
  }

  /** A signal of process `j` in role `r` of slice `i` is noted. */
  function NoteAt(w: Win, i: nat, r: Role, j: nat): (v: Win)
    requires WinShaped(w) && i < |w.slices| && PartOf(w.slices[i], r).Some?
    requires j < |PartOf(w.slices[i], r).value.procs|
    ensures WinShaped(v) && |v.slices| == |w.slices| && v.stopping == w.stopping
    ensures v.slices[i].running == w.slices[i].running
  {
    var p := PartOf(w.slices[i], r).value;
    var q := p.(procs := p.procs[j := p.procs[j].(signalled := true)]);
    w.(slices := w.slices[i := WithPart(w.slices[i], r, q)])
  }

  /**
   * The signal is passed on to the slice at time `now`, which takes it for that of its running
   * process, whichever process sent it.
   */
  function CompleteAt(w: Win, i: nat, r: Role, j: nat, now: int): (v: Win)
    requires WinShaped(w) && i < |w.slices| && w.slices[i].running && PartOf(w.slices[i], r).Some?
    requires j < |PartOf(w.slices[i], r).value.procs|
    ensures WinShaped(v) && |v.slices| == |w.slices| && v.stopping == w.stopping
  {
    ScheduleNext(NoteAt(w, i, r, j), i, now)
  }

  /** A process of slice `i` ends: its cgroup got empty. */
  function ExitAt(w: Win, i: nat, r: Role, j: nat): (v: Win)
    requires WinShaped(w) && i < |w.slices| && PartOf(w.slices[i], r).Some?
    requires j < |PartOf(w.slices[i], r).value.procs|
    ensures WinShaped(v) && |v.slices| == |w.slices|
  {
    var p := PartOf(w.slices[i], r).value;
    var q := p.(procs := p.procs[j := p.procs[j].(spawned := false)]);
    w.(slices := w.slices[i := WithPart(w.slices[i], r, q)])
  }
}
