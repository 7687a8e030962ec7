/**
 * Accounting of best-effort budgets: however a process is cut off by the ends of windows, the
 * fragments it runs between two completions add up to its budget.
 */
module Conservation {
  import opened Options
  import opened Model
  import opened Phases

  /** Nanoseconds and interruptions since the last completion, and the run in progress. */
  datatype Account = Account(ran: int, cuts: nat, run: Option<(int, int)>)

  /**
   * The account of process `j`, read off the history. A safety-critical run which is cut off is
   * given up: the process starts over with its whole budget.
   */
  function Ledger(log: seq<Event>, j: nat): Account {
    if |log| == 0 then Account(0, 0, None)
    else
      var a := Ledger(log[..|log| - 1], j);
      match log[|log| - 1]
      case Started(at, _, proc, b) => if proc == j then a.(run := Some((at, b))) else a
      case Ended(at, role, proc, done) =>
        if proc != j || a.run.None? then a
        else if done || role == Sc then Account(0, 0, None)
        else Account(a.ran + (at - a.run.value.0), a.cuts + 1, None)
  }

  lemma LedgerAppend(log: seq<Event>, e: Event, j: nat)
    ensures var a := Ledger(log, j);
            Ledger(log + [e], j) ==
            match e
            case Started(at, _, proc, b) => if proc == j then a.(run := Some((at, b))) else a
            case Ended(at, role, proc, done) =>
              if proc != j || a.run.None? then a
              else if done || role == Sc then Account(0, 0, None)
              else Account(a.ran + (at - a.run.value.0), a.cuts + 1, None)
  {
    assert (log + [e])[..|log|] == log;
  }

  /**
   * `used` milliseconds of the budget are spent for the time in the account: exactly that time on
   * a millisecond grid (`exact`), else with less than a millisecond lost at each interruption.
   */
  ghost predicate Fits(a: Account, used: int, exact: bool) {
    if exact then a.ran == Ms(used) else Ms(used) - a.cuts * 999_999 <= a.ran <= Ms(used)
  }

  /**
   * How time is looked at: `exact` if every event lies `grid` nanoseconds after a whole
   * millisecond, and processes are only started before `end`.
   */
  datatype Clock = Clock(exact: bool, grid: int, end: int)

  predicate OnGrid(t: int, c: Clock) {
    c.exact ==> t % 1_000_000 == c.grid
  }

  predicate InTime(t: int, c: Clock) {
    t < c.end && OnGrid(t, c)
  }

  ghost predicate Settled(p: Part, j: nat, exact: bool)
    requires j < |p.procs|
  {
    && Ledger(p.log, j).run.None?
    && Fits(Ledger(p.log, j), p.procs[j].budget - p.procs[j].actual, exact)
  }

  /** The current process was granted `b` milliseconds at `at`. */
  ghost predicate Granted(p: Part, at: int, b: int, c: Clock)
    requires p.cur < |p.procs|
  {
    && Ledger(p.log, p.cur).run == Some((at, b))
    && 0 < b <= p.procs[p.cur].budget == p.procs[p.cur].actual
    && Fits(Ledger(p.log, p.cur), p.procs[p.cur].budget - b, c.exact)
    && InTime(at, c)
  }

  ghost predicate Fixed(p: Part) {
    PartOk(p) && forall j :: 0 <= j < |p.procs| ==> p.procs[j].jitter == 0
  }

  /** The books of a partition which does not run. */
  ghost predicate Closed(p: Part, exact: bool) {
    Fixed(p) && forall j :: 0 <= j < |p.procs| ==> Settled(p, j, exact)
  }

  /** The books of a partition whose current process runs until `timeout`. */
  ghost predicate Open(p: Part, timeout: int, c: Clock) {
    && Fixed(p)
    && (forall j :: 0 <= j < |p.procs| && j != p.cur ==> Settled(p, j, c.exact))
    && Ledger(p.log, p.cur).run.Some?
    && var (at, b) := Ledger(p.log, p.cur).run.value;
       Granted(p, at, b, c) && timeout == at + Ms(b)
  }

  lemma LaunchBooks(p: Part, role: Role, t: int, c: Clock)
    requires Closed(p, c.exact) && InTime(t, c)
    ensures Open(Launch(p, role, t), t + Ms(p.procs[p.cur].actual), c)
  {
    var q := Launch(p, role, t);
    DrawnBudget(p.procs[p.cur]);
    forall j | 0 <= j < |p.procs|
      ensures Ledger(q.log, j) == if j == p.cur then Ledger(p.log, j).(run := Some((t, p.procs[j].actual))) else Ledger(p.log, j)
    {
      LedgerAppend(p.log, Started(t, role, p.cur, Draw(p.procs[p.cur]).1), j);
    }
    assert Settled(p, p.cur, c.exact);
    forall j | 0 <= j < |p.procs| && j != p.cur
      ensures Settled(q, j, c.exact)
    {
      assert Settled(p, j, c.exact);
    }
  }

  lemma StartNextBooks(p: Part, role: Role, t: int, c: Clock)
    requires Closed(p, c.exact) && InTime(t, c)
    ensures var (q, b) := StartNext(p, role, t);
            if b.Some? then Open(q, t + Ms(b.value), c) else Closed(q, c.exact)
  {
    var (q, found) := SeekPart(p);
    assert Closed(q, c.exact) by {
      assert forall j :: 0 <= j < |p.procs| ==> Settled(p, j, c.exact) ==> Settled(q, j, c.exact);
    }
    if found {
      DrawnBudget(q.procs[q.cur]);
      LaunchBooks(q, role, t, c);
    }
  }

  lemma EndBooks(p: Part, role: Role, timeout: int, t: int, done: bool, c: Clock)
    requires Open(p, timeout, c) && (done || role == Sc)
    ensures Closed(EndCurrent(p, role, t, done), c.exact)
  {
    var q := EndCurrent(p, role, t, done);
    forall j | 0 <= j < |p.procs|
      ensures Settled(q, j, c.exact)
    {
      LedgerAppend(p.log, Ended(t, role, p.cur, done), j);
      assert j != p.cur ==> Settled(p, j, c.exact);
    }
  }

  /** A best-effort process is cut off at `t` with `rem` whole milliseconds left. */
  lemma CutBooks(p: Part, timeout: int, t: int, c: Clock)
    requires Open(p, timeout, c) && OnGrid(t, c)
    requires Ledger(p.log, p.cur).run.value.0 < t && TruncMs(timeout - t) > 0
    ensures 0 < TruncMs(timeout - t) < p.procs[p.cur].budget
    ensures Closed(EndCurrent(SetRemaining(p, TruncMs(timeout - t)), Be, t, false), c.exact)
  {
    var (at, b) := Ledger(p.log, p.cur).run.value;
    var rem := TruncMs(timeout - t);
    CutArithmetic(at, b, t, rem, c);
    var q := EndCurrent(SetRemaining(p, rem), Be, t, false);
    forall j | 0 <= j < |p.procs|
      ensures Settled(q, j, c.exact)
    {
      LedgerAppend(p.log, Ended(t, Be, p.cur, false), j);
      assert j != p.cur ==> Settled(p, j, c.exact);
    }
  }

  lemma CutArithmetic(at: int, b: int, t: int, rem: int, c: Clock)
    requires at < t && rem == TruncMs(at + Ms(b) - t) && rem > 0
    requires OnGrid(at, c) && OnGrid(t, c)
    ensures rem < b
    ensures Ms(b - rem) - 999_999 <= t - at <= Ms(b - rem)
    ensures c.exact ==> t - at == Ms(b - rem)
  {
    if c.exact {
      var k, m := at / 1_000_000, t / 1_000_000;
      assert at == 1_000_000 * k + c.grid && t == 1_000_000 * m + c.grid;
      assert at + Ms(b) - t == 1_000_000 * (k + b - m);
      assert rem == k + b - m;
    }
  }

  /** When the granted time is used up, the fragments since the last completion are the budget. */
  lemma FragmentsAddUp(p: Part, timeout: int, c: Clock)
    requires Open(p, timeout, c)
    ensures var a := Ledger(p.log, p.cur);
            var total := a.ran + (timeout - a.run.value.0);
            && Ms(p.procs[p.cur].budget) - a.cuts * 999_999 <= total <= Ms(p.procs[p.cur].budget)
            && (c.exact ==> total == Ms(p.procs[p.cur].budget))
  {
    var a := Ledger(p.log, p.cur);
    if c.exact {
      assert 0 <= a.cuts * 999_999;
    }
  }

  // ----- Slices and windows -----

  ghost predicate InBooks(p: Option<Part>, runs: bool, timeout: int, c: Clock) {
    p.Some? ==> if runs then Open(p.value, timeout, c) else Closed(p.value, c.exact)
  }

  ghost predicate SliceBooks(s: Slice, c: Clock) {
    && Shaped(s)
    && InBooks(s.sc, s.running && s.role == Some(Sc), s.timeout, c)
    && InBooks(s.be, s.running && s.role == Some(Be), s.timeout, c)
  }

  lemma StartNextInSliceBooks(s: Slice, t: int, c: Clock)
    requires SliceBooks(s, c) && !s.running && s.role.Some? && InTime(t, c)
    ensures SliceBooks(StartNextInSlice(s, t), c)
  {
    StartNextBooks(Current(s), s.role.value, t, c);
    hide Open, Closed, StartNext;
    assert s.role.value == Sc || s.role.value == Be;
  }

  lemma ResetBooks(p: Part, first: bool, exact: bool)
    requires Closed(p, exact)
    ensures Closed(Reset(p, first), exact)
  {
    assert forall j :: 0 <= j < |p.procs| ==> Settled(p, j, exact) ==> Settled(Reset(p, first), j, exact);
  }

  lemma BeginBooks(s: Slice, role: Role, t: int, c: Clock)
    requires SliceBooks(s, c) && !s.running && PartOf(s, role).Some? && InTime(t, c)
    ensures SliceBooks(Begin(s, role, t), c)
  {
    hide Open, Closed, Reset;
    ResetBooks(PartOf(s, role).value, role.Sc?, c.exact);
    var p := Reset(PartOf(s, role).value, role.Sc?);
    StartNextInSliceBooks(WithPart(s, role, p).(role := Some(role)), t, c);
  }

  lemma EndInSliceBooks(s: Slice, t: int, done: bool, c: Clock)
    requires SliceBooks(s, c) && s.running && (done || s.role == Some(Sc))
    ensures SliceBooks(EndInSlice(s, t, done), c)
  {
    EndBooks(Current(s), s.role.value, s.timeout, t, done, c);
    hide Open, Closed, EndCurrent;
    assert s.role.value == Sc || s.role.value == Be;
  }

  /** At the end of the window the process of the slice is not overdue. */
  ghost predicate NotOverdue(s: Slice, t: int) {
    s.running ==> t < s.timeout + 1_000_000
  }

  lemma StopSliceBooks(s: Slice, t: int, c: Clock)
    requires SliceBooks(s, c) && NotOverdue(s, t) && t >= c.end && OnGrid(t, c)
    ensures SliceBooks(StopSlice(s, t).0, c)
    ensures StopFits(s, t)
  {
    if s.running {
      var p := Current(s);
      assert s.role.value == Sc || s.role.value == Be;
      if Remaining(s, t) == 0 {
        EndInSliceBooks(s, t, true, c);
        var e := EndInSlice(s, t, true);
        SeekBooks(Current(e), c.exact);
      } else if s.role == Some(Be) {
        CutBooks(p, s.timeout, t, c);
      } else {
        EndInSliceBooks(s, t, false, c);
      }
    }
  }

  lemma SeekBooks(p: Part, exact: bool)
    requires Closed(p, exact)
    ensures Closed(SeekPart(p).0, exact)
  {
    assert forall j :: 0 <= j < |p.procs| ==> Settled(p, j, exact) ==> Settled(SeekPart(p).0, j, exact);
  }

  ghost predicate WinBooks(w: Win, c: Clock) {
    forall i :: 0 <= i < |w.slices| ==> SliceBooks(w.slices[i], c)
  }

  lemma ReportBooks(s: Slice, n: nat, c: Clock)
    requires SliceBooks(s, c)
    ensures SliceBooks(s.(signals := n), c)
  {
  }

  lemma ScEndBooks(w: Win, i: nat, hi: nat, t: int, c: Clock)
    requires WinShaped(w) && i < hi <= |w.slices| && !w.stopping && Counted(w)
    requires forall k :: 0 <= k < hi && k != i ==> InPhase(w.slices[k], AllReported(w))
    requires forall k :: hi <= k < |w.slices| ==> !w.slices[k].running && w.slices[k].signals == 0
    requires !w.slices[i].running && w.slices[i].signals == 0
    requires WinBooks(w, c) && InTime(t, c)
    ensures WinBooks(ScEnd(w, i, t), c)
  {
    hide InBooks, ScDone, Begin;
    ReportCounts(w, i, hi);
    ReportBooks(w.slices[i], 1, c);
    var slices := w.slices[i := w.slices[i].(signals := 1)];
    if w.finished + 1 == |w.slices| {
      ReportLast(w, i, hi);
      forall k | 0 <= k < |slices|
        ensures SliceBooks(BeginBe(slices[k], t), c)
      {
        if slices[k].be.Some? {
          BeginBooks(slices[k], Be, t, c);
        }
      }
    }
  }

  lemma StartScAtBooks(w: Win, i: nat, t: int, c: Clock)
    requires StartedUpTo(w, i) && i < |w.slices| && WinShaped(w)
    requires WinBooks(w, c) && InTime(t, c)
    ensures WinBooks(StartScAt(w, i, t), c)
  {
    SignalsFull(w.slices);
    hide SliceBooks, Begin, SliceOk, ScDone, ScEnd;
    if w.slices[i].sc.None? {
      ScEndBooks(w, i, i + 1, t, c);
    } else {
      var s := Begin(w.slices[i], Sc, t);
      BeginKeepsSignals(w.slices[i], t);
      BeginBooks(w.slices[i], Sc, t, c);
      SignalsUpdate(w.slices, i, s);
      if !s.running {
        ScEndBooks(w.(slices := w.slices[i := s]), i, i + 1, t, c);
      }
    }
  }

  lemma BeginKeepsSignals(s: Slice, t: int)
    requires SliceOk(s) && !s.running && s.sc.Some?
    ensures Begin(s, Sc, t).signals == s.signals
  {
    BeginSafe(s, Sc, t);
  }

  lemma {:induction false} StartFromBooks(w: Win, i: nat, t: int, c: Clock)
    requires StartedUpTo(w, i) && WinShaped(w) && WinBooks(w, c) && InTime(t, c)
    ensures WinBooks(StartFrom(w, i, t), c)
    decreases |w.slices| - i
  {
    hide SliceBooks, SliceOk, InPhase, StartScAt, Counted;
    if i < |w.slices| {
      StartScAtSafe(w, i, t);
      StartScAtBooks(w, i, t, c);
      StartFromBooks(StartScAt(w, i, t), i + 1, t, c);
    }
  }

  lemma StartBooks(w: Win, t: int, c: Clock)
    requires Idle(w) && WinShaped(w) && WinBooks(w, c) && InTime(t, c)
    ensures WinBooks(Start(w, t), c)
  {
    hide InBooks, PartIn;
    var u := Unsignalled(w.slices);
    forall k | 0 <= k < |u|
      ensures SliceOk(u[k]) && !u[k].running && SliceBooks(u[k], c)
    {
      ReportSafe(w.slices[k], 0);
      ReportBooks(w.slices[k], 0, c);
    }
    SignalsFull(u);
    SignalsZero(u);
    StartFromBooks(w.(finished := 0, launches := 0, slices := u), 0, t, c);
  }

  lemma ScheduleNextBooks(w: Win, i: nat, t: int, c: Clock)
    requires Inv(w) && WinShaped(w) && i < |w.slices| && w.slices[i].running
    requires WinBooks(w, c) && InTime(t, c)
    ensures WinBooks(ScheduleNext(w, i, t), c)
  {
    var s := w.slices[i];
    var e := EndInSlice(s, t, true);
    EndSafe(s, t, true);
    EndInSliceBooks(s, t, true, c);
    StartNextInSliceSafe(e, t);
    StartNextInSliceBooks(e, t, c);
    var r := StartNextInSlice(e, t);
    var v := w.(slices := w.slices[i := r]);
    ScheduleNextIs(w, i, t);
    SignalsUpdate(w.slices, i, r);
    SignalsFull(w.slices);
    hide SliceBooks, SliceOk, ScDone, ScEnd, StartNextInSlice, EndInSlice, ScheduleNext;
    if !r.running && r.role == Some(Sc) {
      ScEndBooks(v, i, |w.slices|, t, c);
    }
  }

  /** Flags which are not about budgets do not enter the books. */
  lemma FlagBooks(p: Part, j: nat, x: Proc, runs: bool, timeout: int, c: Clock)
    requires j < |p.procs| && InBooks(Some(p), runs, timeout, c)
    requires ProcOk(x) && x.jitter == p.procs[j].jitter
    requires x.budget == p.procs[j].budget && x.actual == p.procs[j].actual
    ensures InBooks(Some(p.(procs := p.procs[j := x])), runs, timeout, c)
  {
    var q := p.(procs := p.procs[j := x]);
    assert forall k :: 0 <= k < |p.procs| ==> Settled(p, k, c.exact) ==> Settled(q, k, c.exact);
  }

  lemma NoteBooks(w: Win, i: nat, r: Role, j: nat, c: Clock)
    requires WinShaped(w) && i < |w.slices| && PartOf(w.slices[i], r).Some?
    requires j < |PartOf(w.slices[i], r).value.procs| && WinBooks(w, c)
    ensures WinBooks(NoteAt(w, i, r, j), c)
  {
    var s := w.slices[i];
    var p := PartOf(s, r).value;
    assert r == Sc || r == Be;
    FlagBooks(p, j, p.procs[j].(signalled := true), s.running && s.role == Some(r), s.timeout, c);
  }

  lemma CompleteBooks(w: Win, i: nat, r: Role, j: nat, now: int, c: Clock)
    requires Inv(w) && WinShaped(w) && i < |w.slices| && w.slices[i].running && PartOf(w.slices[i], r).Some?
    requires j < |PartOf(w.slices[i], r).value.procs| && WinBooks(w, c) && InTime(now, c)
    ensures WinBooks(CompleteAt(w, i, r, j, now), c)
  {
    NoteSafe(w, i, r, j);
    NoteBooks(w, i, r, j, c);
    hide Inv, WinBooks, NoteAt, ScheduleNext;
    ScheduleNextBooks(NoteAt(w, i, r, j), i, now, c);
  }

  lemma ExitBooks(w: Win, i: nat, r: Role, j: nat, c: Clock)
    requires WinShaped(w) && i < |w.slices| && PartOf(w.slices[i], r).Some?
    requires j < |PartOf(w.slices[i], r).value.procs| && WinBooks(w, c)
    ensures WinBooks(ExitAt(w, i, r, j), c)
  {
    var s := w.slices[i];
    var p := PartOf(s, r).value;
    assert r == Sc || r == Be;
    FlagBooks(p, j, p.procs[j].(spawned := false), s.running && s.role == Some(r), s.timeout, c);
  }

  lemma StopAtBooks(w: Win, i: nat, t: int, c: Clock)
    requires WinShaped(w) && w.stopping && i < |w.slices| && WinBooks(w, c)
    requires NotOverdue(w.slices[i], t) && t >= c.end && OnGrid(t, c)
    ensures WinBooks(StopAt(w, i, t), c)
    ensures forall k :: 0 <= k < |w.slices| && k != i ==> StopAt(w, i, t).slices[k] == w.slices[k]
  {
    StopSliceBooks(w.slices[i], t, c);
    var (s, scDone) := StopSlice(w.slices[i], t);
    ReportBooks(s, s.signals + 1, c);
    hide SliceBooks, StopSlice;
  }

  lemma {:induction false} StopFromBooks(w: Win, i: nat, t: int, c: Clock)
    requires WinShaped(w) && w.stopping && i <= |w.slices| && WinBooks(w, c) && t >= c.end && OnGrid(t, c)
    requires forall k :: i <= k < |w.slices| ==> NotOverdue(w.slices[k], t)
    ensures WinBooks(StopFrom(w, i, t), c)
    decreases |w.slices| - i
  {
    hide SliceBooks, StopAt;
    if i < |w.slices| {
      StopAtBooks(w, i, t, c);
      StopFromBooks(StopAt(w, i, t), i + 1, t, c);
    }
  }

  /**
   * At the end of a window the assertions of `set_remaining_budget` hold, and the books of every
   * partition are in order for the next window.
   */
  lemma StopBooks(w: Win, c: Clock)
    requires WinShaped(w) && WinBooks(w, c) && OnGrid(c.end, c)
    requires forall k :: 0 <= k < |w.slices| ==> NotOverdue(w.slices[k], c.end)
    ensures forall k :: 0 <= k < |w.slices| ==> StopFits(w.slices[k], c.end)
    ensures WinBooks(Stop(w, c.end), c)
  {
    forall k | 0 <= k < |w.slices|
      ensures StopFits(w.slices[k], c.end)
    {
      StopSliceBooks(w.slices[k], c.end, c);
    }
    StopFromBooks(w.(stopping := true), 0, c.end, c);
  }

  // ----- Runs -----

  /** Completions are seen before the end of the window, and on the grid if there is one. */
  ghost predicate StepInTime(e: Step, w: Win, c: Clock) {
    match e
    case Timeout(i) => i < |w.slices| && w.slices[i].timeout < c.end
    case Complete(_, _, _, now) => InTime(now, c)
    case Note(_, _, _) => true
    case Exit(_, _, _) => true
  }

  ghost predicate StepsInTime(steps: seq<Step>, states: seq<Win>, c: Clock)
    requires |states| == |steps| + 1
  {
    forall k :: 0 <= k < |steps| ==> StepInTime(steps[k], states[k], c)
  }

  lemma StepKeepsBooks(w: Win, e: Step, c: Clock)
    requires Inv(w) && Enabled(w, e) && WinBooks(w, c) && StepInTime(e, w, c)
    ensures WinBooks(Apply(w, e), c)
  {
    hide SliceBooks, SliceOk, ScheduleNext, CompleteAt, NoteAt, ExitAt;
    match e
    case Timeout(i) =>
      TimeoutOnGrid(w.slices[i], c);
      ScheduleNextBooks(w, i, w.slices[i].timeout, c);
    case Complete(i, r, j, now) => CompleteBooks(w, i, r, j, now, c);
    case Note(i, r, j) => NoteBooks(w, i, r, j, c);
    case Exit(i, r, j) => ExitBooks(w, i, r, j, c);
  }

  lemma {:induction false} RunKeepsBooks(w0: Win, t: int, steps: seq<Step>, states: seq<Win>, k: nat, c: Clock)
    requires IsRun(w0, t, steps, states) && k <= |steps|
    requires WinBooks(w0, c) && InTime(t, c) && StepsInTime(steps, states, c)
    ensures WinShaped(states[k]) && WinBooks(states[k], c)
  {
    hide WinBooks, StepInTime, SliceOk, Start, Inv, Idle, Apply, Enabled;
    RunKeepsInv(w0, t, steps, states, k);
    if k == 0 {
      StartBooks(w0, t, c);
    } else {
      RunKeepsInv(w0, t, steps, states, k - 1);
      RunKeepsBooks(w0, t, steps, states, k - 1, c);
      StepKeepsBooks(states[k - 1], steps[k - 1], c);
    }
  }

  lemma TimeoutOnGrid(s: Slice, c: Clock)
    requires SliceBooks(s, c) && s.running
    ensures OnGrid(s.timeout, c)
  {
    var p := Current(s);
    assert s.role.value == Sc || s.role.value == Be;
    var (at, b) := Ledger(p.log, p.cur).run.value;
    if c.exact {
      var k := at / 1_000_000;
      assert s.timeout == 1_000_000 * (k + b) + c.grid;
    }
  }

  /**
   * Conservation of best-effort budgets. Whenever the process of a slice has used up what it was
   * granted, the fragments it ran since its last completion, in however many windows, add up to
   * its budget: exactly so on a millisecond grid, and otherwise short by less than a millisecond
   * for each time it was cut off.
   */
  lemma BudgetConservation(w0: Win, t: int, steps: seq<Step>, states: seq<Win>, k: nat, i: nat, c: Clock)
    requires IsRun(w0, t, steps, states) && k <= |steps|
    requires WinBooks(w0, c) && InTime(t, c) && StepsInTime(steps, states, c)
    requires i < |states[k].slices| && states[k].slices[i].running
    ensures WinShaped(states[k])
    ensures var s := states[k].slices[i];
            var p := Current(s);
            var a := Ledger(p.log, p.cur);
            && a.run.Some?
            && var total := a.ran + (s.timeout - a.run.value.0);
               && Ms(p.procs[p.cur].budget) - a.cuts * 999_999 <= total <= Ms(p.procs[p.cur].budget)
               && (c.exact ==> total == Ms(p.procs[p.cur].budget))
  {
    RunKeepsBooks(w0, t, steps, states, k, c);
    var s := states[k].slices[i];
    assert SliceBooks(s, c);
    assert s.role.value == Sc || s.role.value == Be;
    hide Ledger, Fits;
    FragmentsAddUp(Current(s), s.timeout, c);
  }

  // ----- When the assertion of `set_remaining_budget` holds -----

  /**
   * With jitter the assertion can fail: a best-effort process with a budget of 10 ms stretched to
   * 15 ms, cut off after 2 ms, would be left with more than its budget.
   */
  lemma JitterBreaksRemainder()
    ensures var p := Proc(10, 10, k => 5, 0, 10, false, false, 0, true, true);
            && ProcOk(p)
            && var s := Begin(Slice(None, Some(Part([p], 0, [])), None, false, 0, false, {}, 0), Be, 0);
               s.running && !StopFits(s, Ms(2)) && Remaining(s, Ms(2)) == 13
  {
    var p := Proc(10, 10, k => 5, 0, 10, false, false, 0, true, true);
    assert p.noise(0) == 5;
    var u := Slice(None, Some(Part([p], 0, [])), None, false, 0, false, {}, 0);
    var v := WithPart(u, Be, Reset(Part([p], 0, []), false)).(role := Some(Be), linked := {Be});
    assert Reset(Part([p], 0, []), false).procs == [p];
    assert Current(v) == Part([p], 0, []);
    assert Draw(p).1 == 15;
    assert StartNext(Part([p], 0, []), Be, 0).1 == Some(15);
    assert Begin(u, Be, 0) == StartNextInSlice(v, 0);
  }
}
