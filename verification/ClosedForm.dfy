/**
 * The rows of the time table in closed form, for processes without jitter: starts at prefix sums
 * of the budgets, cut at the end of the window, and what is saved for the next window.
 */
module ClosedForm {
  import opened Options
  import opened Model
  import opened Phases
  import opened TimeTable

  /** Every process is alive and has a fixed budget. */
  ghost predicate Plain(p: Part) {
    && PartOk(p)
    && forall j :: 0 <= j < |p.procs| ==> p.procs[j].spawned && p.procs[j].jitter == 0
  }

  /** Where a partition begins: safety-critical ones at their first process. */
  function First(p: Part, role: Role): nat {
    if role == Sc then 0 else p.cur
  }

  /** Milliseconds granted to the process `k` places after `c`. */
  function Grant(p: Part, c: nat, k: nat): int
    requires c < |p.procs| && k < |p.procs|
  {
    p.procs[Ahead(|p.procs|, c, k)].actual
  }

  /** Milliseconds granted to the `k` processes from `c` on. */
  function Sum(p: Part, c: nat, k: nat): int
    requires c < |p.procs| && k <= |p.procs|
  {
    if k == 0 then 0 else Sum(p, c, k - 1) + Grant(p, c, k - 1)
  }

  function StartOf(p: Part, c: nat, from: int, k: nat): int
    requires c < |p.procs| && k <= |p.procs|
  {
    from + Ms(Sum(p, c, k))
  }

  /** How many processes, of those from the `k`-th on, are started before `end`. */
  function Begun(p: Part, c: nat, from: int, end: int, k: nat): (n: nat)
    requires c < |p.procs| && k <= |p.procs|
    ensures k <= n <= |p.procs|
    decreases |p.procs| - k
  {
    if k == |p.procs| || StartOf(p, c, from, k) >= end then k else Begun(p, c, from, end, k + 1)
  }

  /** The time table rows themselves, from the `k`-th process on. */
  function Rows(p: Part, role: Role, c: nat, from: int, end: int, k: nat): seq<Event>
    requires c < |p.procs| && k <= |p.procs|
    decreases |p.procs| - k
  {
    if k == |p.procs| || StartOf(p, c, from, k) >= end then []
    else [Started(StartOf(p, c, from, k), role, Ahead(|p.procs|, c, k), Grant(p, c, k))] + Rows(p, role, c, from, end, k + 1)
  }

  /** Milliseconds the last started process still has when the window ends. */
  function Left(p: Part, c: nat, from: int, end: int, n: nat): int
    requires c < |p.procs| && n <= |p.procs|
  {
    if StartOf(p, c, from, n) <= end then 0 else (StartOf(p, c, from, n) - end) / 1_000_000
  }

  /** What the schedule logger wrote. */
  function Starts(log: seq<Event>): seq<Event> {
    if |log| == 0 then []
    else Starts(log[..|log| - 1]) + if log[|log| - 1].Started? then [log[|log| - 1]] else []
  }

  lemma StartsAppend(log: seq<Event>, e: Event)
    ensures Starts(log + [e]) == Starts(log) + if e.Started? then [e] else []
  {
    assert (log + [e])[..|log|] == log;
  }

  /** `q` has the processes of `p`, of which the first `k` from `c` on are through. */
  ghost predicate Same(p: Part, q: Part, c: nat, k: nat)
    requires c < |p.procs|
  {
    && |q.procs| == |p.procs| && k <= |p.procs|
    && (forall m :: 0 <= m < |p.procs| ==>
          var j := Ahead(|p.procs|, c, m);
          && q.procs[j].budget == p.procs[j].budget
          && (q.procs[j].completed <==> m < k))
  }

  /** Between two processes: the first `k` are through, the rest wait with what they had. */
  ghost predicate Between(p: Part, q: Part, c: nat, k: nat)
    requires c < |p.procs|
  {
    && Plain(q) && Quiet(q) && Same(p, q, c, k)
    && q.cur == (if k == 0 then c else Ahead(|p.procs|, c, k - 1))
    && forall m :: 0 <= m < |p.procs| ==>
         q.procs[Ahead(|p.procs|, c, m)].actual ==
         if m < k then p.procs[Ahead(|p.procs|, c, m)].budget else Grant(p, c, m)
  }

  /** The `k`-th process runs. */
  ghost predicate RunsAt(p: Part, q: Part, c: nat, k: nat)
    requires c < |p.procs|
  {
    && k < |p.procs|
    && Plain(q) && Runs(q) && Same(p, q, c, k)
    && q.cur == Ahead(|p.procs|, c, k)
    && forall m :: 0 <= m < |p.procs| ==>
         q.procs[Ahead(|p.procs|, c, m)].actual ==
         if m <= k then p.procs[Ahead(|p.procs|, c, m)].budget else Grant(p, c, m)
  }

  /** How many places after `c` the place `j` comes. */
  function Behind(n: nat, c: nat, j: nat): (m: nat)
    requires c < n && j < n
    ensures m < n && Ahead(n, c, m) == j
  {
    if j >= c then j - c else j + n - c
  }

  /** Places on the circle are distinct and every place is reached. */
  lemma AheadIsBijective(n: nat, c: nat)
    requires c < n
    ensures forall a, b :: 0 <= a < n && 0 <= b < n && Ahead(n, c, a) == Ahead(n, c, b) ==> a == b
    ensures forall j :: 0 <= j < n ==> Ahead(n, c, Behind(n, c, j)) == j
  {
  }

  lemma SeekBetween(p: Part, q: Part, c: nat, k: nat)
    requires c < |p.procs| && Between(p, q, c, k)
    ensures var (r, found) := SeekPart(q);
            && (found <==> k < |p.procs|)
            && r.cur == Ahead(|p.procs|, c, k)
  {
    var n := |p.procs|;
    AheadIsBijective(n, c);
    SeekPartSpec(q);
    var (r, found) := SeekPart(q);
    if k < n {
      var d := if k > 0 then 1 else 0;
      assert Ahead(n, q.cur, d) == Ahead(n, c, k);
      assert Pending(q.procs[Ahead(n, q.cur, d)]);
      assert k > 0 ==> !Pending(q.procs[Ahead(n, q.cur, 0)]);
      var m :| 0 <= m < n && r.cur == Ahead(n, q.cur, m) && Pending(q.procs[r.cur]) &&
               forall i :: 0 <= i < m ==> !Pending(q.procs[Ahead(n, q.cur, i)]);
      assert m == d;
    } else {
      forall j | 0 <= j < n
        ensures !Pending(q.procs[j])
      {
        assert j == Ahead(n, c, Behind(n, c, j));
      }
    }
  }

  lemma StartBetween(p: Part, q: Part, c: nat, k: nat, role: Role, t: int)
    requires c < |p.procs| && Between(p, q, c, k)
    ensures var (r, b) := StartNext(q, role, t);
            if k == |p.procs| then
              b.None? && r == q.(cur := c)
            else
              && b == Some(Grant(p, c, k)) && RunsAt(p, r, c, k)
              && r.log == q.log + [Started(t, role, Ahead(|p.procs|, c, k), Grant(p, c, k))]
  {
    var n := |p.procs|;
    SeekBetween(p, q, c, k);
    AheadIsBijective(n, c);
    if k < n {
      var (s, _) := SeekPart(q);
      var x := s.procs[s.cur];
      DrawnBudget(x);
      assert Draw(x).1 == Grant(p, c, k);
      assert x.jitter == 0 && x.noise(x.draws) == 0;
      StartNextSafe(q, role, t);
    } else {
      assert Ahead(n, c, n) == c;
    }
  }

  lemma EndBetween(p: Part, q: Part, c: nat, k: nat, role: Role, t: int)
    requires c < |p.procs| && RunsAt(p, q, c, k)
    ensures Between(p, EndCurrent(q, role, t, true), c, k + 1)
  {
    AheadIsBijective(|p.procs|, c);
  }

  /** What a window leaves of `p` when `n` processes were started in it. */
  ghost predicate Leaves(p: Part, q: Part, role: Role, c: nat, from: int, end: int, n: nat)
    requires c < |p.procs|
  {
    && 0 < n <= |p.procs| == |q.procs|
    && Plain(q) && Quiet(q)
    && var left := Left(p, c, from, end, n);
       && q.cur == Ahead(|p.procs|, c, if left > 0 then n - 1 else n)
       && (forall m :: 0 <= m < |p.procs| ==>
             var j := Ahead(|p.procs|, c, m);
             && q.procs[j].budget == p.procs[j].budget
             && q.procs[j].actual ==
                if m >= n then Grant(p, c, m)
                else if m == n - 1 && left > 0 && role == Be then left
                else p.procs[j].budget)
  }

  lemma {:induction false} SumGrows(p: Part, c: nat, k: nat, m: nat)
    requires PartOk(p) && c < |p.procs| && k <= m <= |p.procs|
    ensures Sum(p, c, k) <= Sum(p, c, m)
    ensures k < m ==> Sum(p, c, k) < Sum(p, c, m)
    decreases m
  {
    if k < m {
      SumGrows(p, c, k, m - 1);
    }
  }

  lemma CutOffLeaves(p: Part, q: Part, role: Role, c: nat, k: nat, from: int, end: int)
    requires Plain(p) && c < |p.procs| && RunsAt(p, q, c, k)
    requires StartOf(p, c, from, k) < end <= StartOf(p, c, from, k + 1)
    ensures Leaves(p, CutOff(q, role, StartOf(p, c, from, k + 1), end), role, c, from, end, k + 1)
  {
    var n := |p.procs|;
    var timeout := StartOf(p, c, from, k + 1);
    var left := Left(p, c, from, end, k + 1);
    assert TruncMs(timeout - end) == left;
    AheadIsBijective(n, c);
    if left == 0 {
      EndBetween(p, q, c, k, role, end);
      SeekBetween(p, EndCurrent(q, role, end, true), c, k + 1);
    } else {
      assert Ms(left) <= timeout - end < Ms(Grant(p, c, k));
      assert 0 < left < Grant(p, c, k) <= p.procs[q.cur].budget;
    }
  }

  lemma BetweenLeaves(p: Part, q: Part, role: Role, c: nat, from: int, end: int)
    requires Plain(p) && c < |p.procs| && Between(p, q, c, |p.procs|)
    requires StartOf(p, c, from, |p.procs|) <= end
    ensures Leaves(p, q.(cur := c), role, c, from, end, |p.procs|)
  {
    assert Ahead(|p.procs|, c, |p.procs|) == c;
  }

  lemma StartOfNext(p: Part, c: nat, from: int, k: nat)
    requires c < |p.procs| && k < |p.procs|
    ensures StartOf(p, c, from, k + 1) == StartOf(p, c, from, k) + Ms(Grant(p, c, k))
  {
  }

  lemma RowsStep(p: Part, role: Role, c: nat, from: int, end: int, k: nat, log: seq<Event>)
    requires c < |p.procs| && k < |p.procs| && StartOf(p, c, from, k) < end
    ensures var e := Started(StartOf(p, c, from, k), role, Ahead(|p.procs|, c, k), Grant(p, c, k));
            log + [e] + Rows(p, role, c, from, end, k + 1) == log + Rows(p, role, c, from, end, k)
  {
  }

  /** From a state `q` with `k` processes through, the `k`-th one was started, giving `r`. */
  ghost predicate Advanced(p: Part, q: Part, r: Part, b: Option<int>, role: Role, c: nat, k: nat, t: int)
    requires c < |p.procs|
  {
    if k < |p.procs| then
      && b == Some(Grant(p, c, k)) && RunsAt(p, r, c, k)
      && Starts(r.log) == Starts(q.log) + [Started(t, role, Ahead(|p.procs|, c, k), Grant(p, c, k))]
    else
      && b.None? && Starts(r.log) == Starts(q.log)
      && exists e :: Between(p, e, c, |p.procs|) && r == e.(cur := c)
  }

  /** What an advance means when there is a next process, and when there is none. */
  lemma AdvancedTo(p: Part, q: Part, r: Part, b: Option<int>, role: Role, c: nat, k: nat, t: int)
    requires c < |p.procs| && Advanced(p, q, r, b, role, c, k, t)
    ensures k < |p.procs| ==>
              && b == Some(Grant(p, c, k)) && RunsAt(p, r, c, k) && Runs(r)
              && Starts(r.log) == Starts(q.log) + [Started(t, role, Ahead(|p.procs|, c, k), Grant(p, c, k))]
    ensures k >= |p.procs| ==> b.None? && Starts(r.log) == Starts(q.log)
  {
    hide Plain, Quiet, Same, Between, Starts;
  }

  lemma AdvancedPast(p: Part, q: Part, r: Part, b: Option<int>, role: Role, c: nat, from: int, t: int, end: int)
    requires c < |p.procs| && Plain(p) && Advanced(p, q, r, b, role, c, |p.procs|, t)
    requires StartOf(p, c, from, |p.procs|) <= end
    ensures Leaves(p, r, role, c, from, end, |p.procs|)
  {
    hide Plain, Between, Leaves, StartOf;
    var e :| Between(p, e, c, |p.procs|) && r == e.(cur := c);
    BetweenLeaves(p, e, role, c, from, end);
  }

  lemma RunsAtRuns(p: Part, q: Part, c: nat, k: nat)
    requires c < |p.procs| && RunsAt(p, q, c, k)
    ensures Runs(q) && q.cur < |q.procs| && k < |p.procs|
  {
  }

  /** A turn from the `k`-th process to the next one, or to the end of the row. */
  lemma TurnAt(p: Part, q: Part, role: Role, c: nat, k: nat, t: int)
    requires c < |p.procs| && RunsAt(p, q, c, k)
    ensures var (r, b) := Turn(q, role, t); Advanced(p, q, r, b, role, c, k + 1, t)
  {
    hide Plain, Quiet, Same, Grant, Ahead, PartOk, OnlyCurrent, NonePending, StartNext, Between, RunsAt, Runs, Starts, OpenCount;
    RunsAtRuns(p, q, c, k);
    var e := EndCurrent(q, role, t, true);
    EndBetween(p, q, c, k, role, t);
    StartsAppend(q.log, Ended(t, role, q.cur, true));
    StartBetween(p, e, c, k + 1, role, t);
    TurnIs(q, role, t);
    hide Turn, EndCurrent;
    if k + 1 < |p.procs| {
      StartsAppend(e.log, Started(t, role, Ahead(|p.procs|, c, k + 1), Grant(p, c, k + 1)));
    }
  }

  lemma TurnIs(q: Part, role: Role, t: int)
    requires Runs(q)
    ensures q.cur < |q.procs| && Turn(q, role, t) == StartNext(EndCurrent(q, role, t, true), role, t)
    ensures EndCurrent(q, role, t, true).log == q.log + [Ended(t, role, q.cur, true)]
  {
    hide StartNext;
  }

  lemma {:induction false} RunOutLeaves(p: Part, q: Part, role: Role, c: nat, k: nat, from: int, end: int)
    requires Plain(p) && c < |p.procs| && RunsAt(p, q, c, k)
    requires StartOf(p, c, from, k) < end
    ensures Leaves(p, RunOut(q, role, StartOf(p, c, from, k + 1), end), role, c, from, end, Begun(p, c, from, end, k))
    decreases |p.procs| - k
  {
    hide Plain, Quiet, PartOk, Grant, Ahead, Sum, Ms, Starts, Turn, CutOff, Leaves, Advanced, RunsAt, Runs;
    RunsAtRuns(p, q, c, k);
    var timeout := StartOf(p, c, from, k + 1);
    if timeout >= end {
      CutOffLeaves(p, q, role, c, k, from, end);
    } else {
      TurnAt(p, q, role, c, k, timeout);
      var (r, b) := Turn(q, role, timeout);
      AdvancedTo(p, q, r, b, role, c, k + 1, timeout);
      if k + 1 < |p.procs| {
        StartOfNext(p, c, from, k + 1);
        RunOutLeaves(p, r, role, c, k + 1, from, end);
      } else {
        AdvancedPast(p, q, r, b, role, c, from, timeout, end);
      }
    }
  }

  lemma {:induction false} RunOutRows(p: Part, q: Part, role: Role, c: nat, k: nat, from: int, end: int)
    requires c < |p.procs| && RunsAt(p, q, c, k)
    requires StartOf(p, c, from, k) < end
    ensures Starts(RunOut(q, role, StartOf(p, c, from, k + 1), end).log) == Starts(q.log) + Rows(p, role, c, from, end, k + 1)
    decreases |p.procs| - k
  {
    hide Plain, Quiet, PartOk, Grant, Ahead, Sum, Ms, Starts, Turn, CutOff, Leaves, Advanced, RunsAt, Runs;
    RunsAtRuns(p, q, c, k);
    var timeout := StartOf(p, c, from, k + 1);
    if timeout >= end {
      CutOffStarts(q, role, timeout, end);
    } else {
      TurnAt(p, q, role, c, k, timeout);
      var (r, b) := Turn(q, role, timeout);
      AdvancedTo(p, q, r, b, role, c, k + 1, timeout);
      if k + 1 < |p.procs| {
        StartOfNext(p, c, from, k + 1);
        RunOutRows(p, r, role, c, k + 1, from, end);
        RowsStep(p, role, c, from, end, k + 1, Starts(q.log));
      }
    }
  }

  lemma CutOffStarts(q: Part, role: Role, timeout: int, end: int)
    requires Runs(q)
    ensures Starts(CutOff(q, role, timeout, end).log) == Starts(q.log)
  {
    StartsAppend(q.log, Ended(end, role, q.cur, true));
    StartsAppend(q.log, Ended(end, role, q.cur, false));
  }

  /** A resting partition, once its flags are cleared, has nothing through yet. */
  lemma ResetBetween(p: Part, role: Role)
    requires Plain(p) && Quiet(p)
    ensures First(p, role) < |p.procs| && Between(p, Reset(p, role.Sc?), First(p, role), 0)
  {
  }

  /** Serving a partition is running out what its first turn left. */
  lemma ServedFrom(p: Part, role: Role, from: int, end: int) returns (q: Part)
    requires Plain(p) && Quiet(p)
    ensures Rests(p) && First(p, role) < |p.procs| && Runs(q)
    ensures Advanced(p, p, q, Some(Grant(p, First(p, role), 0)), role, First(p, role), 0, from)
    ensures Served(p, role, from, end) == RunOut(q, role, StartOf(p, First(p, role), from, 1), end)
    ensures ServedUntil(p, role, from) == DoneAt(q, role, StartOf(p, First(p, role), from, 1))
  {
    hide Ms, Sum, RunOut, DoneAt, Advanced, Plain, Quiet, PartOk, First, Grant, StartOf, Runs, FirstTurn;
    FirstTurnAt(p, role, from);
    StartOfOne(p, First(p, role), from);
    q := FirstTurn(p, role, from).0;
  }

  /** `q` is what the closed form says about serving `p`. */
  ghost predicate Row(p: Part, q: Part, role: Role, from: int, end: int)
    requires PartOk(p)
  {
    var c := First(p, role);
    && Starts(q.log) == Starts(p.log) + Rows(p, role, c, from, end, 0)
    && Leaves(p, q, role, c, from, end, Begun(p, c, from, end, 0))
  }

  /**
   * The closed form of a row. Processes start at prefix sums of their budgets, in cyclic order,
   * as long as that is before the end of the window. The cursor stays on the last process if it
   * was cut off with at least a millisecond left, and a best-effort one keeps that remainder;
   * otherwise the cursor is on the process after it, and every process that ran has its full
   * budget back.
   */
  lemma ServedClosedForm(p: Part, role: Role, from: int, end: int)
    requires Plain(p) && Quiet(p) && from < end
    ensures Row(p, Served(p, role, from, end), role, from, end)
  {
    var q := ServedFrom(p, role, from, end);
    hide Ms, Sum, RunOut, DoneAt, Row, Advanced, Served, ServedUntil, Plain, Quiet, PartOk, First, Grant, StartOf, Runs;
    FromFirstTurn(p, q, role, from, end);
  }

  lemma FromFirstTurn(p: Part, q: Part, role: Role, from: int, end: int)
    requires Plain(p) && from < end && First(p, role) < |p.procs|
    requires Advanced(p, p, q, Some(Grant(p, First(p, role), 0)), role, First(p, role), 0, from)
    ensures Runs(q)
    ensures Row(p, RunOut(q, role, StartOf(p, First(p, role), from, 1), end), role, from, end)
  {
    var c := First(p, role);
    hide Ms, TruncMs, Left, Sum, CutOff, RunOut, Leaves, Begun;
    StartOfOne(p, c, from);
    RunOutLeaves(p, q, role, c, 0, from, end);
    RunOutRows(p, q, role, c, 0, from, end);
    RowsStep(p, role, c, from, end, 0, Starts(p.log));
  }

  lemma FirstTurnAt(p: Part, role: Role, from: int)
    requires Plain(p) && Quiet(p)
    ensures Rests(p) && First(p, role) < |p.procs|
    ensures var (q, b) := FirstTurn(p, role, from);
            b == Some(Grant(p, First(p, role), 0)) && Runs(q) && Advanced(p, p, q, b, role, First(p, role), 0, from)
  {
    var c := First(p, role);
    var u := Reset(p, role.Sc?);
    ResetBetween(p, role);
    assert u.log == p.log && c < |p.procs|;
    hide Plain, Quiet, Same, Grant, Ahead, PartOk, OnlyCurrent, NonePending, StartNext, Between, Reset, First;
    StartBetween(p, u, c, 0, role, from);
    StartsAppend(p.log, Started(from, role, Ahead(|p.procs|, c, 0), Grant(p, c, 0)));
  }

  lemma StartOfOne(p: Part, c: nat, from: int)
    requires c < |p.procs|
    ensures StartOf(p, c, from, 0) == from
    ensures StartOf(p, c, from, 1) == from + Ms(Grant(p, c, 0))
  {
    assert Sum(p, c, 1) == Grant(p, c, 0);
  }

  /** A safety-critical partition is through after the sum of its budgets. */
  lemma {:induction false} DoneAtClosedForm(p: Part, q: Part, role: Role, c: nat, k: nat, from: int)
    requires Plain(p) && c < |p.procs| && RunsAt(p, q, c, k)
    ensures DoneAt(q, role, StartOf(p, c, from, k + 1)) == StartOf(p, c, from, |p.procs|)
    decreases |p.procs| - k
  {
    hide Plain, Quiet, PartOk, Grant, Ahead, Sum, Ms, Starts, Turn, CutOff, Leaves, Advanced, RunsAt, Runs;
    RunsAtRuns(p, q, c, k);
    var timeout := StartOf(p, c, from, k + 1);
    TurnAt(p, q, role, c, k, timeout);
    var (r, b) := Turn(q, role, timeout);
    AdvancedTo(p, q, r, b, role, c, k + 1, timeout);
    if k + 1 < |p.procs| {
      StartOfNext(p, c, from, k + 1);
      DoneAtClosedForm(p, r, role, c, k + 1, from);
    }
  }

  lemma ServedUntilClosedForm(p: Part, role: Role, from: int)
    requires Plain(p) && Quiet(p)
    ensures ServedUntil(p, role, from) == StartOf(p, First(p, role), from, |p.procs|)
  {
    var q := ServedFrom(p, role, from, from);
    hide Ms, Sum, RunOut, DoneAt, Row, Advanced, Served, ServedUntil, Plain, Quiet, PartOk, First, Grant, StartOf, Runs;
    DoneFromFirstTurn(p, q, role, from);
  }

  lemma DoneFromFirstTurn(p: Part, q: Part, role: Role, from: int)
    requires Plain(p) && First(p, role) < |p.procs|
    requires Advanced(p, p, q, Some(Grant(p, First(p, role), 0)), role, First(p, role), 0, from)
    ensures Runs(q)
    ensures DoneAt(q, role, StartOf(p, First(p, role), from, 1)) == StartOf(p, First(p, role), from, |p.procs|)
  {
    hide Ms, Sum, DoneAt, Starts, Grant;
    DoneAtClosedForm(p, q, role, First(p, role), 0, from);
  }

  /**
   * A best-effort partition of one process: each window starts it with what it has left, and when
   * that does not exceed the window it has its whole budget again in the next one.
   */
  lemma LoneProcess(p: Part, from: int, ms: int)
    requires Plain(p) && Quiet(p) && |p.procs| == 1 && ms > 0
    ensures Rests(p)
    ensures var q := Served(p, Be, from, from + Ms(ms));
            var left := p.procs[0].actual;
            && Starts(q.log) == Starts(p.log) + [Started(from, Be, 0, left)]
            && |q.procs| == 1 && q.cur == 0
            && q.procs[0].actual == (if left > ms then left - ms else p.procs[0].budget)
  {
    hide Served, Starts, Quiet, Plain, Row, PartOk;
    var end := from + Ms(ms);
    var _ := ServedFrom(p, Be, from, end);
    ServedClosedForm(p, Be, from, end);
    RowOfOne(p, Served(p, Be, from, end), from, ms);
  }

  lemma RowOfOne(p: Part, q: Part, from: int, ms: int)
    requires Plain(p) && |p.procs| == 1 && ms > 0 && Row(p, q, Be, from, from + Ms(ms))
    ensures var left := p.procs[0].actual;
            && Starts(q.log) == Starts(p.log) + [Started(from, Be, 0, left)]
            && |q.procs| == 1 && q.cur == 0
            && q.procs[0].actual == (if left > ms then left - ms else p.procs[0].budget)
  {
    hide Starts, Quiet;
    BegunOfOne(p, from, ms);
    LeftOfOne(p, from, ms);
    assert q.procs[Ahead(1, 0, 0)] == q.procs[0];
  }

  lemma BegunOfOne(p: Part, from: int, ms: int)
    requires |p.procs| == 1 && ms > 0
    ensures Begun(p, 0, from, from + Ms(ms), 0) == 1
    ensures Rows(p, Be, 0, from, from + Ms(ms), 0) == [Started(from, Be, 0, p.procs[0].actual)]
  {
    StartOfOne(p, 0, from);
  }

  lemma LeftOfOne(p: Part, from: int, ms: int)
    requires |p.procs| == 1 && ms > 0
    ensures Left(p, 0, from, from + Ms(ms), 1) == if p.procs[0].actual > ms then p.procs[0].actual - ms else 0
  {
    StartOfOne(p, 0, from);
  }
}
