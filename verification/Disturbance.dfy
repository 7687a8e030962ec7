/**
 * Random budgets when processes signal and end: exactly which best-effort partitions never
 * violate the assertion of `set_remaining_budget`, in whichever window they are served, whatever
 * is drawn and whoever signals or ends when.
 */
module Disturbance {
  import opened Options
  import opened Model
  import opened Phases
  import opened TimeTable
  import opened Jitter
  import opened BestEffort

  // ----- A partition on its way -----

  /** Nothing has happened to the process but signals and its end, and it has not been through. */
  ghost predicate Fresh(x: Proc, y: Proc) {
    (y.spawned ==> x.spawned) && y == x.(completed := false, spawned := y.spawned, signalled := y.signalled)
  }

  /** The partition `q`, which is not served yet, has only been flagged since it was `p`. */
  ghost predicate Untouched(p: Part, q: Part) {
    && q.cur == p.cur && |q.procs| == |p.procs|
    && forall j :: 0 <= j < |p.procs| ==> Fresh(p.procs[j], q.procs[j].(completed := false))
  }

  /** The process `k` places after `c` runs, those before it are through. */
  ghost predicate On(p: Part, q: Part, c: nat, k: nat)
    requires c < |p.procs|
  {
    && k < |p.procs| == |q.procs|
    && Runs(q) && q.cur == Ahead(|p.procs|, c, k)
    && At(q, c, k).budget == At(p, c, k).budget
    && (forall m :: 0 <= m < k ==> !Pending(At(q, c, m)))
    && (forall m :: k < m < |p.procs| ==> Fresh(At(p, c, m), At(q, c, m)))
  }

  /** The first `k` processes from `c` on are through, and none runs. */
  ghost predicate Off(p: Part, q: Part, c: nat, k: nat)
    requires c < |p.procs|
  {
    && k <= |p.procs| == |q.procs|
    && PartOk(q) && Quiet(q)
    && (forall m :: 0 <= m < k ==> !Pending(At(q, c, m)))
    && (forall m :: k <= m < |p.procs| ==> Fresh(At(p, c, m), At(q, c, m)))
    && exists i :: 0 <= i <= k && i < |p.procs| && q.cur == Ahead(|p.procs|, c, i)
  }

  lemma ResetOff(p: Part, q: Part)
    requires Rests(p) && Untouched(p, q)
    ensures p.cur < |p.procs| && q.cur < |q.procs| && Off(p, Reset(q, false), p.cur, 0)
  {
    var r := Reset(q, false);
    forall j | 0 <= j < |p.procs|
      ensures ProcOk(r.procs[j]) && r.procs[j].frozen && Fresh(p.procs[j], r.procs[j])
    {
      assert ProcOk(p.procs[j]) && p.procs[j].frozen;
    }
    assert r.cur == Ahead(|p.procs|, p.cur, 0);
  }

  lemma EndOff(p: Part, q: Part, c: nat, k: nat, t: int)
    requires c < |p.procs| && On(p, q, c, k)
    ensures q.cur < |q.procs| && Off(p, EndCurrent(q, Be, t, true), c, k + 1)
  {
    PlaceUpdate(q, EndCurrent(q, Be, t, true), c, k, q.procs[q.cur].(frozen := true, completed := true));
  }

  /** Seen from the partition as it is, which other processes are through does not matter. */
  lemma OffPast(p: Part, q: Part, c: nat, k: nat)
    requires c < |p.procs| && Off(p, q, c, k)
    ensures var u := Reset(q, false);
            && |u.procs| == |p.procs| && Unbegun(u) && Past(u, q, c, k)
            && forall m :: k <= m < |p.procs| ==> At(u, c, m) == At(q, c, m)
  {
    var u := Reset(q, false);
    forall m | k <= m < |p.procs|
      ensures At(u, c, m) == At(q, c, m)
    {
      assert Fresh(At(p, c, m), At(q, c, m));
    }
    forall j | 0 <= j < |u.procs|
      ensures ProcOk(u.procs[j])
    {
      assert ProcOk(q.procs[j]);
    }
  }

  /** What a process may draw is no more than it could have drawn before. */
  lemma FreshShare(x: Proc, y: Proc)
    requires ProcOk(x) && Fresh(x, y)
    ensures ProcOk(y) && y.budget == x.budget
    ensures Share(y, Drawn) <= Share(x, Most)
  {
    ShareBounds(x);
    assert forall k :: y.noise(k) == x.noise(k);
  }

  lemma BusyOn(p: Part, u: Part, q: Part, r: Part, c: nat, k: nat, m: nat)
    requires PartOk(p) && c < |p.procs| && Off(p, q, c, k) && k <= m < |p.procs| == |u.procs|
    requires forall x :: k <= x < |p.procs| ==> At(u, c, x) == At(q, c, x)
    requires Busy(u, r, c, m)
    ensures On(p, r, c, m)
    ensures Share(At(u, c, m), Drawn) <= Share(At(p, c, m), Most)
  {
    hide Runs, ProcOk, Share;
    assert Fresh(At(p, c, m), At(q, c, m));
    PlaceOk(p, c, m);
    FreshShare(At(p, c, m), At(q, c, m));
    forall x | m < x < |p.procs|
      ensures Fresh(At(p, c, x), At(r, c, x))
    {
      assert Fresh(At(p, c, x), At(q, c, x));
    }
  }

  /** The next process which is started, and how long it may run. */
  lemma GoesOnTo(p: Part, q: Part, c: nat, k: nat, t: int) returns (m: nat)
    requires PartOk(p) && c < |p.procs| && Off(p, q, c, k)
    ensures q.cur < |q.procs| && k <= m <= |p.procs|
    ensures var a := Goes(q, t);
            && a.part.Some?
            && (a.due.Some? ==> m < |p.procs| && On(p, a.part.value, c, m) && a.due.value <= t + Ms(Share(At(p, c, m), Most)))
  {
    hide PartOk, Quiet, Past, Busy, Unbegun, On, Off, StartNext, Share;
    OffPast(p, q, c, k);
    OffMeans(p, q, c, k);
    var u := Reset(q, false);
    StartPast(u, q, c, k, Be, t);
    m := NextPlace(u, c, k);
    if m < |p.procs| {
      BusyOn(p, u, q, StartNext(q, Be, t).0, c, k, m);
    }
  }

  lemma OffMeans(p: Part, q: Part, c: nat, k: nat)
    requires c < |p.procs| && Off(p, q, c, k)
    ensures q.cur < |q.procs| == |p.procs| && k <= |p.procs|
  {
  }

  // ----- How late a process can run -----

  /**
   * The process at the `k`-th place, started at the latest when those before it have used up the
   * most they can draw, and before the end of the window, uses up its own by `due`.
   */
  ghost predicate Within(p: Part, k: nat, due: int, at: int, end: int)
    requires p.cur < |p.procs| && k < |p.procs|
  {
    && due <= at + Ms(Offset(p, p.cur, k + 1, Most))
    && due < end + Ms(Share(At(p, p.cur, k), Most))
  }

  ghost predicate RunsWithin(p: Part, q: Part, k: nat, due: int, at: int, end: int)
    requires p.cur < |p.procs|
  {
    k < |p.procs| && On(p, q, p.cur, k) && Within(p, k, due, at, end)
  }

  /** The partition, which was `p` when the window started, is launched by `at` if at all. */
  ghost predicate Holds(p: Part, a: Side, launches: nat, at: int, end: int)
    requires p.cur < |p.procs|
  {
    && a.part.Some? && SideOk(a)
    && (launches == 0 ==> a.due.None? && Untouched(p, a.part.value))
    && (launches != 0 && a.due.Some? ==> exists k: nat :: RunsWithin(p, a.part.value, k, a.due.value, at, end))
  }

  lemma LaunchHolds(p: Part, a: Side, t: int, at: int, end: int)
    requires Rests(p) && p.cur < |p.procs| && Holds(p, a, 0, at, end) && t <= at && t < end
    ensures Holds(p, Launched(a, t), 1, at, end)
  {
    hide PartOk, Quiet, Untouched, On, Off, Share;
    var q := a.part.value;
    RestsMeans(p);
    ResetOff(p, q);
    var m := GoesOnTo(p, Reset(q, false), p.cur, 0, t);
    var b := Goes(Reset(q, false), t);
    if b.due.Some? {
      OffsetGrows(p, p.cur, 0, m, Most);
      assert RunsWithin(p, b.part.value, m, b.due.value, at, end);
    }
  }

  lemma MoveHolds(p: Part, a: Side, launches: nat, t: int, at: int, end: int)
    requires Rests(p) && p.cur < |p.procs| && Holds(p, a, launches, at, end) && launches != 0
    requires a.due.Some? && t <= a.due.value && t < end
    ensures Holds(p, Moved(a, t), launches, at, end)
  {
    hide PartOk, Quiet, Untouched, On, Off, Share;
    var q := a.part.value;
    RestsMeans(p);
    var k: nat :| RunsWithin(p, q, k, a.due.value, at, end);
    EndOff(p, q, p.cur, k, t);
    var e := EndCurrent(q, Be, t, true);
    var m := GoesOnTo(p, e, p.cur, k + 1, t);
    var b := Goes(e, t);
    if b.due.Some? {
      OffsetGrows(p, p.cur, k + 1, m, Most);
      assert RunsWithin(p, b.part.value, m, b.due.value, at, end);
    }
  }

  /** Signals and ends only take processes away. */
  lemma FlagKeepsOn(p: Part, q: Part, c: nat, k: nat, j: nat, x: Proc)
    requires c < |p.procs| && On(p, q, c, k) && j < |q.procs|
    requires x == q.procs[j].(signalled := true) || x == q.procs[j].(spawned := false)
    ensures On(p, q.(procs := q.procs[j := x]), c, k)
  {
    var n := |p.procs|;
    var r := q.(procs := q.procs[j := x]);
    forall m | 0 <= m < n
      ensures At(r, c, m) == if Ahead(n, c, m) == j then x else At(q, c, m)
    {
    }
    assert Runs(r) by {
      forall i | 0 <= i < n
        ensures ProcOk(r.procs[i])
      {
        assert ProcOk(q.procs[i]);
      }
    }
    forall m | k < m < n
      ensures Fresh(At(p, c, m), At(r, c, m))
    {
      assert Fresh(At(p, c, m), At(q, c, m));
    }
    forall m | 0 <= m < k
      ensures !Pending(At(r, c, m))
    {
      assert !Pending(At(q, c, m));
    }
  }

  lemma FlagHolds(p: Part, a: Side, b: Side, launches: nat, exits: bool, at: int, end: int)
    requires p.cur < |p.procs| && Holds(p, a, launches, at, end) && Flag(a, b, exits)
    ensures Holds(p, b, launches, at, end)
  {
    hide On, Within;
    if b.part != a.part {
      var j: nat, x :| Flags(a, b, j, x, exits);
      if launches != 0 && a.due.Some? {
        var k: nat :| RunsWithin(p, a.part.value, k, a.due.value, at, end);
        FlagKeepsOn(p, a.part.value, p.cur, k, j, x);
        assert RunsWithin(p, b.part.value, k, b.due.value, at, end);
      }
    }
  }

  // ----- Windows in which anything happens -----

  /** A window as it went, and one of its slices. */
  datatype Course = Course(before: Win, from: int, steps: seq<Step>, states: seq<Win>, slice: nat)

  /** An event comes before the window's end and before any timer has expired unseen. */
  ghost predicate Prompt(e: Step, w: Win, now: int, end: int) {
    && e.i < |w.slices|
    && var t := TimeOf(e, w);
       t.Some? ==> now <= t.value < end && forall m :: 0 <= m < |w.slices| && w.slices[m].running ==> t.value <= w.slices[m].timeout
  }

  /** The time of an event, or `now` if it has none of its own. */
  function TimeFrom(e: Step, w: Win, now: int): int
    requires e.Timeout? ==> e.i < |w.slices|
  {
    if TimeOf(e, w).Some? then TimeOf(e, w).value else now
  }

  /** The events come in the order of their times, from `now` on. */
  ghost predicate InOrder(now: int, end: int, steps: seq<Step>, states: seq<Win>)
    requires |states| == |steps| + 1
    decreases |steps|
  {
    |steps| == 0 ||
    (Prompt(steps[0], states[0], now, end) && InOrder(TimeFrom(steps[0], states[0], now), end, steps[1..], states[1..]))
  }

  lemma {:induction false} PromptAt(now: int, end: int, steps: seq<Step>, states: seq<Win>, k: nat)
    requires |states| == |steps| + 1 && InOrder(now, end, steps, states) && k < |steps|
    ensures steps[k].i < |states[k].slices|
    ensures exists t :: Prompt(steps[k], states[k], t, end)
    decreases k
  {
    hide Prompt;
    if k > 0 {
      PromptIndex(steps[0], states[0], now, end);
      PromptAt(TimeFrom(steps[0], states[0], now), end, steps[1..], states[1..], k - 1);
    } else {
      PromptIndex(steps[0], states[0], now, end);
    }
  }

  lemma PromptIndex(e: Step, w: Win, now: int, end: int)
    requires Prompt(e, w, now, end)
    ensures e.i < |w.slices|
  {
  }

  /** Step `k` does not launch best effort after `at`. */
  ghost predicate NotLater(e: Step, w: Win, r: Win, at: int) {
    && e.i < |w.slices|
    && (w.launches == 0 && r.launches == 1 ==> TimeOf(e, w).Some? && TimeOf(e, w).value <= at)
  }

  /** If the window launches its best-effort partitions, it does so by `at`. */
  ghost predicate LaunchedBy(r: Course, at: int) {
    && |r.states| == |r.steps| + 1
    && (r.states[0].launches == 1 ==> r.from <= at)
    && forall k :: 0 <= k < |r.steps| ==> NotLater(r.steps[k], r.states[k], r.states[k + 1], at)
  }

  /**
   * The slice serves the partition `p`, with whatever random numbers, in a window which goes on
   * until `end`: timers expire in time, processes signal and end as they like.
   */
  ghost predicate Serves(p: Part, r: Course, at: int, end: int) {
    && IsRun(r.before, r.from, r.steps, r.states) && InOrder(r.from, end, r.steps, r.states)
    && r.from < end && LaunchedBy(r, at) && Over(r.states[|r.steps|], end)
    && r.slice < |r.before.slices|
    && r.before.slices[r.slice].be.Some? && Redrawn(p, r.before.slices[r.slice].be.value)
  }

  /** Stopping the slice meets the assertion of `set_remaining_budget`. */
  ghost predicate EndsWell(r: Course, end: int) {
    && |r.states| == |r.steps| + 1
    && var w := r.states[|r.steps|];
       r.slice < |w.slices| && Shaped(w.slices[r.slice]) && StopFits(w.slices[r.slice], end)
  }

  lemma StepHolds(p: Part, w: Win, e: Step, i: nat, now: int, at: int, end: int)
    requires Rests(p) && p.cur < |p.procs| && Inv(w) && Enabled(w, e) && i < |w.slices|
    requires Prompt(e, w, now, end) && NotLater(e, w, Apply(w, e), at)
    requires Holds(p, BeSide(w.slices[i]), w.launches, at, end)
    ensures Holds(p, BeSide(Apply(w, e).slices[i]), Apply(w, e).launches, at, end)
  {
    hide Inv, Flag, Holds, Launched, Moved, Apply, Enabled;
    var u := ApplySide(w, e, i);
    var exits := e.Exit? && e.i == i && e.role == Be;
    FlagHolds(p, BeSide(w.slices[i]), u, w.launches, exits, at, end);
    var r := Apply(w, e);
    var t := TimeOf(e, w);
    if t.Some? && BeSide(r.slices[i]) != u {
      FlagKeepsDue(BeSide(w.slices[i]), u, exits);
      if w.launches == 0 && r.launches == 1 {
        LaunchHolds(p, u, t.value, at, end);
      } else {
        HoldsDue(p, u, w.launches, at, end);
        MoveHolds(p, u, w.launches, t.value, at, end);
      }
    } else if t.Some? && r.launches != w.launches {
      LaunchHolds(p, u, t.value, at, end);
    }
  }

  lemma FlagKeepsDue(a: Side, b: Side, exits: bool)
    requires Flag(a, b, exits)
    ensures b.due == a.due
  {
  }

  lemma HoldsDue(p: Part, a: Side, launches: nat, at: int, end: int)
    requires p.cur < |p.procs| && Holds(p, a, launches, at, end) && a.due.Some?
    ensures launches != 0
  {
  }

  lemma StartHolds(p: Part, r: Course, at: int, end: int)
    requires Rests(p) && p.cur < |p.procs| && Idle(r.before) && WinShaped(r.before) && r.from < end
    requires r.slice < |r.before.slices| && r.before.slices[r.slice].be == Some(p)
    requires Start(r.before, r.from).launches == 1 ==> r.from <= at
    ensures Holds(p, BeSide(Start(r.before, r.from).slices[r.slice]), Start(r.before, r.from).launches, at, end)
  {
    hide Idle, Start, Launched, Untouched;
    StartSide(r.before, r.from, r.slice);
    var a := Side(Some(p), None);
    UntouchedItself(p);
    if Start(r.before, r.from).launches == 1 {
      LaunchHolds(p, a, r.from, at, end);
    }
  }

  lemma UntouchedItself(p: Part)
    ensures Untouched(p, p)
  {
  }

  lemma {:induction false} RunHolds(p: Part, r: Course, at: int, end: int, k: nat)
    requires Rests(p) && p.cur < |p.procs| && Serves(p, r, at, end) && r.before.slices[r.slice].be == Some(p) && k <= |r.steps|
    ensures r.slice < |r.states[k].slices| && Inv(r.states[k])
    ensures Holds(p, BeSide(r.states[k].slices[r.slice]), r.states[k].launches, at, end)
    decreases k
  {
    hide Holds, Start, Inv, Idle, Apply, Enabled, Redrawn, Rests, Prompt, NotLater, Over;
    RunKeepsInv(r.before, r.from, r.steps, r.states, k);
    if k == 0 {
      StartHolds(p, r, at, end);
    } else {
      RunHolds(p, r, at, end, k - 1);
      PromptAt(r.from, end, r.steps, r.states, k - 1);
      var now :| Prompt(r.steps[k - 1], r.states[k - 1], now, end);
      StepHolds(p, r.states[k - 1], r.steps[k - 1], r.slice, now, at, end);
    }
  }

  // ----- Partitions which never fail -----

  /**
   * The process at the `k`-th place is stretched by nothing, or by so little that it has less than
   * its budget left at `end` even if it is started as late as can be.
   */
  ghost predicate PlaceCalm(p: Part, c: nat, k: nat, at: int, end: int)
    requires c < |p.procs| && k < |p.procs|
  {
    Stretch(At(p, c, k)) == 0 || at + Ms(Offset(p, c, k, Most) + Stretch(At(p, c, k))) < end
  }

  lemma CalmFits(p: Part, k: nat, due: int, at: int, end: int)
    requires PartOk(p) && p.cur < |p.procs| && k < |p.procs| && PlaceCalm(p, p.cur, k, at, end)
    requires Within(p, k, due, at, end) && end <= due
    ensures 0 <= TruncMs(due - end) < At(p, p.cur, k).budget
  {
    hide Share, Stretch, PartOk;
    PlaceOk(p, p.cur, k);
    ShareBounds(At(p, p.cur, k));
    assert Offset(p, p.cur, k + 1, Most) == Offset(p, p.cur, k, Most) + Share(At(p, p.cur, k), Most);
  }

  lemma CalmStops(p: Part, s: Slice, launches: nat, at: int, end: int)
    requires PartOk(p) && p.cur < |p.procs| && SliceOk(s) && Holds(p, BeSide(s), launches, at, end)
    requires forall k :: 0 <= k < |p.procs| ==> PlaceCalm(p, p.cur, k, at, end)
    requires s.running ==> end <= s.timeout
    ensures Shaped(s) && StopFits(s, end)
  {
    hide PartOk, PartIn, PlaceCalm, Within, Runs;
    if s.running && s.role == Some(Be) {
      var k: nat :| RunsWithin(p, s.be.value, k, s.timeout, at, end);
      CalmFits(p, k, s.timeout, at, end);
      assert At(s.be.value, p.cur, k) == s.be.value.procs[s.be.value.cur];
    }
  }

  lemma RedrawnCalm(p: Part, q: Part, at: int, end: int)
    requires Rests(p) && Redrawn(p, q)
    ensures Rests(q) && q.cur == p.cur < |q.procs| == |p.procs|
    ensures forall k :: 0 <= k < |p.procs| && PlaceCalm(p, p.cur, k, at, end) ==> PlaceCalm(q, p.cur, k, at, end)
  {
    hide Redrawn, Rests, Share, Stretch;
    RedrawnLength(p, q);
    RestsMeans(p);
    RestsMeans(q);
    forall k | 0 <= k < |p.procs| && PlaceCalm(p, p.cur, k, at, end)
      ensures PlaceCalm(q, p.cur, k, at, end)
    {
      RedrawnBounds(p, q, p.cur, k);
    }
  }

  lemma CalmEndsWell(p: Part, r: Course, at: int, end: int)
    requires Rests(p) && p.cur < |p.procs| && Serves(p, r, at, end)
    requires forall k :: 0 <= k < |p.procs| ==> PlaceCalm(p, p.cur, k, at, end)
    ensures EndsWell(r, end)
  {
    hide Rests, Redrawn, PlaceCalm, Holds, IsRun, InOrder, LaunchedBy, StopFits, SliceOk;
    var q := r.before.slices[r.slice].be.value;
    RedrawnCalm(p, q, at, end);
    ItselfRedrawn(p, q);
    RunHolds(q, r, at, end, |r.steps|);
    RunMeans(r);
    var w := r.states[|r.steps|];
    RestsMeans(q);
    CalmStops(q, w.slices[r.slice], w.launches, at, end);
  }

  lemma ItselfRedrawn(p: Part, q: Part)
    requires Redrawn(p, q)
    ensures Redrawn(q, q)
  {
  }

  lemma RunMeans(r: Course)
    requires IsRun(r.before, r.from, r.steps, r.states)
    ensures |r.states| == |r.steps| + 1
    ensures forall i :: 0 <= i < |r.states[|r.steps|].slices| ==> SliceOk(r.states[|r.steps|].slices[i])
  {
    RunKeepsInv(r.before, r.from, r.steps, r.states, |r.steps|);
  }

  // ----- Partitions which can fail -----

  /** The process which draws the most it can, every time. */
  function Longest(x: Proc): Proc {
    x.(noise := (n: nat) => x.jitter - x.jitter / 2)
  }

  function AllLongest(p: Part): (q: Part)
    ensures |q.procs| == |p.procs| && forall j :: 0 <= j < |p.procs| ==> q.procs[j] == Longest(p.procs[j])
  {
    p.(procs := seq(|p.procs|, j requires 0 <= j < |p.procs| => Longest(p.procs[j])))
  }

  lemma LongestShare(x: Proc)
    requires ProcOk(x)
    ensures ProcOk(Longest(x)) && Share(Longest(x), Drawn) == Share(x, Most)
  {
    var y := Longest(x);
    assert forall k: nat :: y.noise(k) == x.jitter - x.jitter / 2;
  }

  lemma LongestRedrawn(p: Part)
    requires PartOk(p)
    ensures Redrawn(p, AllLongest(p))
  {
    var q := AllLongest(p);
    forall j | 0 <= j < |p.procs|
      ensures ProcOk(q.procs[j]) && q.procs[j] == p.procs[j].(noise := q.procs[j].noise)
    {
      assert ProcOk(p.procs[j]);
      LongestShare(p.procs[j]);
    }
  }

  /** With its flags cleared, and everybody drawing the most. */
  lemma {:induction false} LongestOffset(p: Part, u: Part, c: nat, k: nat)
    requires PartOk(p) && u == Reset(AllLongest(p), false) && c < |p.procs| && k <= |p.procs|
    ensures Offset(u, c, k, Drawn) == Offset(p, c, k, Most)
    ensures forall m :: 0 <= m < |p.procs| ==> Share(At(u, c, m), Drawn) == Share(At(p, c, m), Most)
    decreases k
  {
    forall m | 0 <= m < |p.procs|
      ensures Share(At(u, c, m), Drawn) == Share(At(p, c, m), Most)
    {
      PlaceOk(p, c, m);
      LongestShare(At(p, c, m));
    }
    if k > 0 {
      LongestOffset(p, u, c, k - 1);
    }
  }

  /** A window of one slice with nothing but the best-effort partition `q`, whose process runs until `due`. */
  ghost predicate Lone(w: Win, q: Part, due: int) {
    && |w.slices| == 1 && Inv(w) && w.launches == 1
    && BeSide(w.slices[0]) == Side(Some(q), Some(due))
  }

  /** The running process has signalled. */
  function Signalled(q: Part): (r: Part)
    requires q.cur < |q.procs|
    ensures r.cur == q.cur && |r.procs| == |q.procs|
  {
    q.(procs := q.procs[q.cur := q.procs[q.cur].(signalled := true)])
  }

  /** Its signals are passed on. */
  lemma LoneLinked(w: Win, q: Part, due: int)
    requires Lone(w, q, due)
    ensures Be in w.slices[0].linked
  {
    hide SliceOk;
    assert InPhase(w.slices[0], true);
  }

  /** It does so at `t`. */
  lemma Strike(w: Win, q: Part, due: int, t: int)
    requires Lone(w, q, due)
    ensures q.cur < |q.procs|
    ensures var e := Complete(0, Be, q.cur, t);
            && Enabled(w, e)
            && var a, r := Goes(EndCurrent(Signalled(q), Be, t, true), t), Apply(w, e);
               |r.slices| == 1 && BeSide(r.slices[0]) == a && r.launches == 1 && Inv(r)
  {
    hide StartNext, EndCurrent, StartNextInSlice, EndInSlice, ScheduleNext, InPhase, PartIn;
    assert SliceOk(w.slices[0]);
    LoneLinked(w, q, due);
    NoteSafe(w, 0, Be, q.cur);
    var v := NoteAt(w, 0, Be, q.cur);
    assert v.slices[0].be == Some(Signalled(q));
    ScheduleNextSafe(v, 0, t);
    ScheduleNextIs(v, 0, t);
    assert SliceOk(v.slices[0]);
    EndBeSide(v.slices[0], t);
  }

  /** When the place is reached if everybody before it signals at `last`, unless through by then. */
  function Reached(u: Part, c: nat, k: nat, at: int, last: int): int
    requires c < |u.procs| && k <= |u.procs|
  {
    if at + Ms(Offset(u, c, k, Drawn)) < last then at + Ms(Offset(u, c, k, Drawn)) else last
  }

  /** The process at the `m`-th place, reached in that way, runs. */
  ghost predicate Chased(u: Part, c: nat, m: nat, at: int, last: int, w: Win, q: Part)
    requires c < |u.procs|
  {
    && m < |u.procs| && Busy(u, q, c, m)
    && Lone(w, q, Reached(u, c, m, at, last) + Ms(Share(At(u, c, m), Drawn)))
  }

  /** Events which take the window from `w` to `r`, in order and without another launch. */
  ghost predicate Leads(w: Win, now: int, end: int, steps: seq<Step>, states: seq<Win>, r: Win) {
    && |states| == |steps| + 1 && states[0] == w && states[|steps|] == r
    && (forall k :: 0 <= k < |states| ==> states[k].launches == 1)
    && (forall k :: 0 <= k < |steps| ==> Enabled(states[k], steps[k]) && states[k + 1] == Apply(states[k], steps[k]))
    && InOrder(now, end, steps, states)
  }

  lemma LeadsFrom(w: Win, e: Step, now: int, end: int, steps: seq<Step>, states: seq<Win>, r: Win)
    requires Enabled(w, e) && w.launches == 1 && Prompt(e, w, now, end)
    requires Leads(Apply(w, e), TimeFrom(e, w, now), end, steps, states, r)
    ensures Leads(w, now, end, [e] + steps, [w] + states, r)
  {
    hide Prompt, Enabled, Apply;
    var more, all := [e] + steps, [w] + states;
    assert more[1..] == steps && all[1..] == states;
    forall k | 0 <= k < |more|
      ensures Enabled(all[k], more[k]) && all[k + 1] == Apply(all[k], more[k])
    {
      if k > 0 {
        assert more[k] == steps[k - 1] && all[k] == states[k - 1] && all[k + 1] == states[k - 1 + 1];
      }
    }
  }

  lemma SignalledBusy(u: Part, q: Part, c: nat, m: nat)
    requires c < |u.procs| && Busy(u, q, c, m)
    ensures q.cur < |q.procs| && Busy(u, Signalled(q), c, m)
  {
    PlaceUpdate(q, Signalled(q), c, m, q.procs[q.cur].(signalled := true));
    var r := Signalled(q);
    forall j | 0 <= j < |r.procs|
      ensures ProcOk(r.procs[j])
    {
      assert ProcOk(q.procs[j]);
    }
  }

  /** The running process signals and the next one is reached. */
  lemma ChaseStep(u: Part, c: nat, m: nat, k: nat, at: int, last: int, w: Win, q: Part) returns (n: nat, r: Part)
    requires Unbegun(u) && c < |u.procs| && Chased(u, c, m, at, last, w, q) && m < k < |u.procs|
    requires Share(At(u, c, k), Drawn) != 0
    ensures m < n <= k && q.cur < |q.procs|
    ensures Offset(u, c, n, Drawn) == Offset(u, c, m, Drawn) + Share(At(u, c, m), Drawn)
    ensures var e := Complete(0, Be, q.cur, Reached(u, c, n, at, last));
            Enabled(w, e) && Chased(u, c, n, at, last, Apply(w, e), r)
  {
    hide PartOk, Share, Busy, Unbegun, StartNext, NextPlace, EndCurrent, Inv, Enabled, Apply;
    n := NextPlace(u, c, m + 1);
    NextPlaceBefore(u, c, m + 1, k);
    EmptyPlacesFit(u, c, m + 1, 0);
    var t := Reached(u, c, n, at, last);
    Strike(w, q, Reached(u, c, m, at, last) + Ms(Share(At(u, c, m), Drawn)), t);
    SignalledBusy(u, q, c, m);
    TurnBusy(u, Signalled(q), c, m, t);
    TurnGoes(Signalled(q), t);
    r := StartNext(EndCurrent(Signalled(q), Be, t, true), Be, t).0;
  }

  lemma TurnGoes(q: Part, t: int)
    requires Runs(q)
    ensures q.cur < |q.procs| && Turn(q, Be, t) == StartNext(EndCurrent(q, Be, t, true), Be, t)
  {
    hide StartNext;
  }

  lemma NextPlaceBefore(u: Part, c: nat, i: nat, k: nat)
    requires c < |u.procs| && i <= k < |u.procs| && Share(At(u, c, k), Drawn) != 0
    ensures NextPlace(u, c, i) <= k
  {
  }

  lemma LeadsNowhere(w: Win, now: int, end: int)
    requires w.launches == 1
    ensures Leads(w, now, end, [], [w], w)
  {
  }

  lemma ChasedMeans(u: Part, c: nat, m: nat, at: int, last: int, w: Win, q: Part)
    requires Unbegun(u) && c < |u.procs| && Chased(u, c, m, at, last, w, q)
    ensures w.launches == 1 && q.cur < |q.procs| && m < |u.procs|
    ensures Share(At(u, c, m), Drawn) >= 0
  {
    hide Share;
    PlaceOk(u, c, m);
    ShareBounds(At(u, c, m));
  }

  /** The signal comes in time: after the process was started, and before it is through. */
  lemma ChasedPrompt(u: Part, c: nat, m: nat, n: nat, at: int, last: int, end: int, w: Win, q: Part)
    requires Unbegun(u) && c < |u.procs| && Chased(u, c, m, at, last, w, q) && n <= |u.procs|
    requires Offset(u, c, n, Drawn) == Offset(u, c, m, Drawn) + Share(At(u, c, m), Drawn) && last < end
    ensures Prompt(Complete(0, Be, q.cur, Reached(u, c, n, at, last)), w, Reached(u, c, m, at, last), end)
  {
    ChasedMeans(u, c, m, at, last, w, q);
    hide Share, Offset, Busy, Unbegun, Inv;
    var s := w.slices[0];
    assert s.running && s.role == Some(Be) && s.timeout == Reached(u, c, m, at, last) + Ms(Share(At(u, c, m), Drawn));
  }

  /** In this way the `k`-th place is reached, when its time has come or at `last`. */
  lemma {:induction false} Chase(u: Part, c: nat, m: nat, k: nat, at: int, last: int, end: int, w: Win, q: Part)
    returns (steps: seq<Step>, states: seq<Win>, r: Part)
    requires Unbegun(u) && c < |u.procs| && Chased(u, c, m, at, last, w, q) && m <= k < |u.procs|
    requires Share(At(u, c, k), Drawn) != 0 && at <= last < end
    ensures |states| == |steps| + 1 && Leads(w, Reached(u, c, m, at, last), end, steps, states, states[|steps|])
    ensures Chased(u, c, k, at, last, states[|steps|], r)
    decreases k - m
  {
    hide PartOk, Share, Busy, Unbegun, Inv, Enabled, Apply, Leads, Offset, Chased;
    if m == k {
      steps, states, r := [], [w], q;
      ChasedMeans(u, c, m, at, last, w, q);
      LeadsNowhere(w, Reached(u, c, m, at, last), end);
    } else {
      var n, v := ChaseStep(u, c, m, k, at, last, w, q);
      var t := Reached(u, c, n, at, last);
      var e := Complete(0, Be, q.cur, t);
      ChasedMeans(u, c, m, at, last, w, q);
      ChasedPrompt(u, c, m, n, at, last, end, w, q);
      steps, states, r := Chase(u, c, n, k, at, last, end, Apply(w, e), v);
      LeadsFrom(w, e, Reached(u, c, m, at, last), end, steps, states, states[|steps|]);
      assert ([w] + states)[|[e] + steps|] == states[|steps|];
      steps, states := [e] + steps, [w] + states;
    }
  }

  function LoneWindow(q: Part): Win {
    Win([Slice(None, Some(q), None, false, 0, false, {}, 0)], 0, false, 0)
  }

  /** A window with nothing else to do launches the partition at once. */
  lemma LoneStarts(q: Part, at: int)
    requires Rests(q)
    ensures var w := LoneWindow(q);
            && q.cur < |q.procs| && Idle(w) && WinShaped(w)
            && var r := Start(w, at);
               |r.slices| == 1 && r.launches == 1 && Inv(r) && BeSide(r.slices[0]) == Goes(Reset(q, false), at)
  {
    hide StartNext, Reset, InPhase;
    var w := LoneWindow(q);
    StartSafe(w, at);
    StartSide(w, at, 0);
    var u := w.(slices := Unsignalled(w.slices));
    assert Unsignalled(w.slices)[0] == w.slices[0];
    assert StartScAt(u, 0, at) == ScEnd(u, 0, at);
    assert StartFrom(StartScAt(u, 0, at), 1, at) == ScEnd(u, 0, at);
    assert ScEnd(u, 0, at).launches == 1;
  }

  /** The first process which gets any time is reached at once. */
  lemma LoneChased(q: Part, at: int, last: int, k: nat) returns (m: nat, v: Part)
    requires Rests(q) && at <= last && q.cur < |q.procs| && k < |q.procs|
    requires Share(At(Reset(q, false), q.cur, k), Drawn) != 0
    ensures var u := Reset(q, false);
            && Unbegun(u) && m <= k && Reached(u, q.cur, m, at, last) == at
            && Chased(u, q.cur, m, at, last, Start(LoneWindow(q), at), v)
  {
    hide PartOk, Quiet, Share, Past, Busy, StartNext, Start, Inv, Reset;
    var u := Reset(q, false);
    LoneStarts(q, at);
    ResetPast(q);
    StartPast(u, u, u.cur, 0, Be, at);
    NextPlaceBefore(u, u.cur, 0, k);
    EmptyPlacesFit(u, u.cur, 0, 0);
    m := NextPlace(u, u.cur, 0);
    v := StartNext(u, Be, at).0;
    assert Offset(u, u.cur, 0, Drawn) == 0;
  }

  /** A run in which a place which is not calm fails. */
  lemma NotCalmFails(p: Part, k: nat, at: int, end: int) returns (r: Course)
    requires Rests(p) && at < end && p.cur < |p.procs| && k < |p.procs| && !PlaceCalm(p, p.cur, k, at, end)
    ensures Serves(p, r, at, end) && !EndsWell(r, end)
  {
    hide PartOk, Quiet, Share, Stretch, Busy, Start, Inv, Redrawn, Leads, Enabled, Apply, Chased, Reached, Unbegun;
    RestsMeans(p);
    var q, c := AllLongest(p), p.cur;
    LongestRedrawn(p);
    RedrawnLength(p, q);
    var u := Reset(q, false);
    LongestOffset(p, u, c, k);
    PlaceOk(p, c, k);
    StretchShare(At(p, c, k));
    var x := At(p, c, k);
    var last := if at < end - Ms(Stretch(x)) then end - Ms(Stretch(x)) else at;
    assert At(u, c, k).budget == x.budget;
    var m, v := LoneChased(q, at, last, k);
    var steps, states, z := Chase(u, c, m, k, at, last, end, Start(LoneWindow(q), at), v);
    OffsetGrows(p, c, 0, k, Most);
    ReachedLast(u, c, k, at, last);
    LoneStarts(q, at);
    r := Course(LoneWindow(q), at, steps, states, 0);
    LastFails(x, u, c, k, at, last, end, states[|steps|], z);
    LeadsServes(p, q, r, end);
  }

  /** Started as late as `last`, it has its budget or more left at `end`. */
  lemma LastFails(x: Proc, u: Part, c: nat, k: nat, at: int, last: int, end: int, w: Win, q: Part)
    requires c < |u.procs| && Chased(u, c, k, at, last, w, q) && Reached(u, c, k, at, last) == last
    requires Share(At(u, c, k), Drawn) == x.budget + Stretch(x) && At(u, c, k).budget == x.budget > 0
    requires end - Ms(Stretch(x)) <= last
    ensures |w.slices| == 1 && Shaped(w.slices[0]) && Over(w, end) && !StopFits(w.slices[0], end)
  {
    hide Share, Stretch, Runs, InPhase, PartIn, Reached;
    var s := w.slices[0];
    assert SliceOk(s) && s.running && s.role == Some(Be) && s.be == Some(q);
    assert s.timeout == last + Ms(x.budget + Stretch(x));
    assert At(q, c, k) == q.procs[q.cur];
    assert TruncMs(s.timeout - end) >= x.budget;
  }

  lemma StretchShare(x: Proc)
    requires ProcOk(x) && Stretch(x) != 0
    ensures Stretch(x) > 0 && Share(x, Most) == x.budget + Stretch(x) && x.budget > 0
  {
    ShareBounds(x);
  }

  lemma ReachedLast(u: Part, c: nat, k: nat, at: int, last: int)
    requires c < |u.procs| && k <= |u.procs| && last <= at + Ms(Offset(u, c, k, Drawn))
    ensures Reached(u, c, k, at, last) == last
  {
  }

  lemma LeadsServes(p: Part, q: Part, r: Course, end: int)
    requires Redrawn(p, q) && r.before == LoneWindow(q) && r.slice == 0 && |r.states| == |r.steps| + 1 && r.from < end
    requires Idle(r.before) && WinShaped(r.before)
    requires Leads(Start(r.before, r.from), r.from, end, r.steps, r.states, r.states[|r.steps|])
    requires Over(r.states[|r.steps|], end)
    ensures Serves(p, r, r.from, end)
  {
    hide Redrawn, Start, Apply, InOrder, Idle, Over;
    forall k | 0 <= k < |r.steps|
      ensures NotLater(r.steps[k], r.states[k], r.states[k + 1], r.from)
    {
      assert Enabled(r.states[k], r.steps[k]);
    }
  }

  /**
   * A best-effort partition never violates the assertion of `set_remaining_budget` in a window
   * which launches it by `at` and goes on until `end`, whatever is drawn, whoever signals or ends
   * when and whatever the rest of the window does, iff for every process with a random part its
   * latest possible start plus the most its budget can be stretched by lies before the end. When
   * the window is launched earlier because its safety-critical processes signal, this stays so.
   */
  lemma NeverFailsIff(p: Part, at: int, end: int)
    requires Rests(p) && at < end
    ensures p.cur < |p.procs|
    ensures (forall r :: Serves(p, r, at, end) ==> EndsWell(r, end)) <==>
            forall k :: 0 <= k < |p.procs| ==> PlaceCalm(p, p.cur, k, at, end)
  {
    hide Rests, Serves, EndsWell, PlaceCalm;
    RestsMeans(p);
    if forall k :: 0 <= k < |p.procs| ==> PlaceCalm(p, p.cur, k, at, end) {
      forall r | Serves(p, r, at, end)
        ensures EndsWell(r, end)
      {
        CalmEndsWell(p, r, at, end);
      }
    }
    if k :| 0 <= k < |p.procs| && !PlaceCalm(p, p.cur, k, at, end) {
      var r := NotCalmFails(p, k, at, end);
    }
  }

  /**
   * The condition is stronger than that for windows in which nobody signals: a process with a
   * budget of 10 ms and a jitter of 10 ms, behind one which uses 20 ms, is never started within
   * 18 ms then. If the one ahead of it signals, it may be, and fails.
   */
  lemma EarlySignalBreaks()
    ensures var a := Proc(20, 0, (n: nat) => 0, 0, 20, false, false, 0, true, true);
            var b := Proc(10, 10, (n: nat) => 5, 0, 10, false, false, 0, true, true);
            var p := Part([a, b], 0, []);
            && Rests(p)
            && (forall q :: Redrawn(p, q) ==> Rests(q) && ServingFits(q, Be, 0, Ms(18)))
            && exists r :: Serves(p, r, 0, Ms(18)) && !EndsWell(r, Ms(18))
  {
    hide ServingFits, Serves, EndsWell, Redrawn;
    var a := Proc(20, 0, (n: nat) => 0, 0, 20, false, false, 0, true, true);
    var b := Proc(10, 10, (n: nat) => 5, 0, 10, false, false, 0, true, true);
    var p := Part([a, b], 0, []);
    assert ProcOk(a) && ProcOk(b);
    assert At(p, 0, 0) == a && At(p, 0, 1) == b;
    assert Offset(p, 0, 0, Most) == 0 && Offset(p, 0, 1, Most) == 20 && Offset(p, 0, 1, Least) == 20;
    assert PlaceSafe(p, 0, 0, 18) && PlaceSafe(p, 0, 1, 18);
    assert !PlaceCalm(p, 0, 1, 0, Ms(18));
    UndisturbedIff(p, 0, 18);
    NeverFailsIff(p, 0, Ms(18));
  }
}
