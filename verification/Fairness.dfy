/**
 * Best-effort partitions while nobody signals or ends: no process starves, however short the time
 * left for it in each window, and its exact turn is known beforehand. `SignalledFairness` has the
 * bound which is left when processes signal.
 */
module Fairness {
  import opened Model
  import opened Phases
  import opened TimeTable
  import opened ClosedForm

  /** Milliseconds which the processes before `j` in the queue still have. */
  function Wait(p: Part, j: nat): int
    requires p.cur < |p.procs| && j < |p.procs|
  {
    Sum(p, p.cur, Behind(|p.procs|, p.cur, j))
  }

  lemma {:induction false} SumSame(p: Part, q: Part, c: nat, k: nat)
    requires c < |p.procs| == |q.procs| && k <= |p.procs|
    requires forall m :: 0 <= m < k ==> Grant(q, c, m) == Grant(p, c, m)
    ensures Sum(q, c, k) == Sum(p, c, k)
    decreases k
  {
    if k > 0 {
      SumSame(p, q, c, k - 1);
    }
  }

  /** Summing on from another place on the circle. */
  lemma {:induction false} SumShift(p: Part, c: nat, a: nat, k: nat)
    requires c < |p.procs| && a < |p.procs| && a + k <= |p.procs|
    ensures Sum(p, Ahead(|p.procs|, c, a), k) == Sum(p, c, a + k) - Sum(p, c, a)
    decreases k
  {
    if k > 0 {
      SumShift(p, c, a, k - 1);
      assert Ahead(|p.procs|, Ahead(|p.procs|, c, a), k - 1) == Ahead(|p.procs|, c, a + k - 1);
    }
  }

  lemma {:induction false} BegunSpec(p: Part, c: nat, from: int, end: int, k: nat)
    requires c < |p.procs| && k <= |p.procs|
    ensures var n := Begun(p, c, from, end, k);
            && (n == |p.procs| || StartOf(p, c, from, n) >= end)
            && forall m :: k <= m < n ==> StartOf(p, c, from, m) < end
    decreases |p.procs| - k
  {
    if !(k == |p.procs| || StartOf(p, c, from, k) >= end) {
      BegunSpec(p, c, from, end, k + 1);
    }
  }

  /** The rows are one entry per started process, in order. */
  lemma {:induction false} RowsSpec(p: Part, role: Role, c: nat, from: int, end: int, k: nat)
    requires c < |p.procs| && k <= |p.procs|
    ensures var rows := Rows(p, role, c, from, end, k);
            && |rows| == Begun(p, c, from, end, k) - k
            && forall m :: 0 <= m < |rows| ==>
                 rows[m] == Started(StartOf(p, c, from, k + m), role, Ahead(|p.procs|, c, k + m), Grant(p, c, k + m))
    decreases |p.procs| - k
  {
    if !(k == |p.procs| || StartOf(p, c, from, k) >= end) {
      RowsSpec(p, role, c, from, end, k + 1);
    }
  }

  /** The rows of a best-effort partition served for `ms` milliseconds. */
  function BeRows(p: Part, from: int, ms: int): seq<Event>
    requires p.cur < |p.procs|
  {
    Rows(p, Be, p.cur, from, from + Ms(ms), 0)
  }

  /** Process `j` is started in that time, at the moment its predecessors are through. */
  predicate Gets(p: Part, from: int, ms: int, j: nat)
    requires p.cur < |p.procs| && j < |p.procs|
  {
    Started(from + Ms(Wait(p, j)), Be, j, p.procs[j].actual) in BeRows(p, from, ms)
  }

  predicate Misses(p: Part, from: int, ms: int, j: nat)
    requires p.cur < |p.procs| && j < |p.procs|
  {
    forall e :: e in BeRows(p, from, ms) ==> e.Started? && e.proc != j
  }

  lemma BegunIsTurn(p: Part, from: int, ms: int, d: nat)
    requires Plain(p) && d < |p.procs|
    ensures Sum(p, p.cur, d) < ms <==> d < Begun(p, p.cur, from, from + Ms(ms), 0)
  {
    var b := Begun(p, p.cur, from, from + Ms(ms), 0);
    BegunSpec(p, p.cur, from, from + Ms(ms), 0);
    hide ProcOk, Begun;
    if b <= d {
      SumGrows(p, p.cur, b, d);
    } else {
      assert StartOf(p, p.cur, from, d) < from + Ms(ms);
    }
  }

  lemma WaitOrTurn(p: Part, from: int, ms: int, j: nat)
    requires Plain(p) && ms > 0 && j < |p.procs|
    ensures if Wait(p, j) < ms then Gets(p, from, ms, j) else Misses(p, from, ms, j)
  {
    var c, n := p.cur, |p.procs|;
    var d := Behind(n, c, j);
    var rows := BeRows(p, from, ms);
    BegunIsTurn(p, from, ms, d);
    RowsSpec(p, Be, c, from, from + Ms(ms), 0);
    hide Plain, Rows, Begun, Sum, Ms;
    if Wait(p, j) < ms {
      assert rows[d] == Started(from + Ms(Wait(p, j)), Be, j, p.procs[j].actual);
    } else {
      forall e | e in rows
        ensures e.Started? && e.proc != j
      {
        var m :| 0 <= m < |rows| && e == rows[m];
        assert Ahead(n, c, m) != Ahead(n, c, d);
      }
    }
  }

  /** Where the cursor is left after `ms` milliseconds: `s` places on, with `left` for the first. */
  lemma CursorAfter(p: Part, from: int, ms: int, b: nat)
    requires Plain(p) && ms > 0 && b == Begun(p, p.cur, from, from + Ms(ms), 0)
    requires b < |p.procs|
    ensures 0 < b && Left(p, p.cur, from, from + Ms(ms), b) == Sum(p, p.cur, b) - ms
    ensures Sum(p, p.cur, b - 1) < ms
  {
    BegunSpec(p, p.cur, from, from + Ms(ms), 0);
    SumStart(p, p.cur);
    assert StartOf(p, p.cur, from, b) >= from + Ms(ms);
    assert StartOf(p, p.cur, from, b - 1) < from + Ms(ms);
  }

  /** The waiting time seen from a cursor `s` places on, if the process there has `left`. */
  lemma WaitFrom(p: Part, q: Part, s: nat, left: int, j: nat)
    requires PartOk(p) && PartOk(q) && |p.procs| == |q.procs| && j < |p.procs|
    requires s <= Behind(|p.procs|, p.cur, j) && q.cur == Ahead(|p.procs|, p.cur, s)
    requires forall m :: s < m < |p.procs| ==> Grant(q, p.cur, m) == Grant(p, p.cur, m)
    requires s < Behind(|p.procs|, p.cur, j) ==> Grant(q, p.cur, s) == left
    ensures Wait(q, j) == if s == Behind(|p.procs|, p.cur, j) then 0
                          else Wait(p, j) - Sum(p, p.cur, s + 1) + left
  {
    hide ProcOk, Sum;
    var c, n := p.cur, |p.procs|;
    var d := Behind(n, c, j);
    assert Ahead(n, q.cur, d - s) == j;
    assert Behind(n, q.cur, j) == d - s;
    assert forall m :: 0 <= m < d - s ==> Ahead(n, q.cur, m) == Ahead(n, c, s + m);
    if s < d {
      forall m | 0 < m < d - s
        ensures Grant(q, q.cur, m) == Grant(p, q.cur, m)
      {
        assert Grant(q, q.cur, m) == Grant(q, c, s + m);
      }
      SumButFirst(p, q, q.cur, d - s);
      SumShift(p, c, s, d - s);
      SumStep(p, c, s);
    } else {
      SumStart(q, q.cur);
    }
  }

  lemma SumStep(p: Part, c: nat, k: nat)
    requires c < |p.procs| && k < |p.procs|
    ensures Sum(p, c, k + 1) == Sum(p, c, k) + Grant(p, c, k)
  {
  }

  lemma SumStart(p: Part, c: nat)
    requires c < |p.procs|
    ensures Sum(p, c, 0) == 0
  {
  }

  /** A process which does not get its turn has come closer by exactly the time served. */
  lemma WaitShrinks(p: Part, q: Part, from: int, ms: int, j: nat)
    requires Plain(p) && ms > 0 && j < |p.procs| && ms <= Wait(p, j)
    requires Leaves(p, q, Be, p.cur, from, from + Ms(ms), Begun(p, p.cur, from, from + Ms(ms), 0))
    ensures Wait(q, j) == Wait(p, j) - ms
  {
    var c, n := p.cur, |p.procs|;
    var end := from + Ms(ms);
    var d := Behind(n, c, j);
    var b := Begun(p, c, from, end, 0);
    BegunIsTurn(p, from, ms, d);
    CursorAfter(p, from, ms, b);
    var left := Left(p, c, from, end, b);
    hide ProcOk, Sum, Begun, Left, Ms;
    if left > 0 {
      assert q.cur == Ahead(n, c, b - 1);
      WaitFrom(p, q, b - 1, left, j);
    } else {
      assert q.cur == Ahead(n, c, b);
      WaitFrom(p, q, b, Grant(p, c, b), j);
      SumStep(p, c, b);
    }
  }

  lemma {:induction false} SumButFirst(p: Part, q: Part, c: nat, k: nat)
    requires c < |p.procs| == |q.procs| && 0 < k <= |p.procs|
    requires forall m :: 0 < m < k ==> Grant(q, c, m) == Grant(p, c, m)
    ensures Sum(q, c, k) - Grant(q, c, 0) == Sum(p, c, k) - Grant(p, c, 0)
    decreases k
  {
    if k == 1 {
      assert Sum(p, c, 0) == 0 && Sum(q, c, 0) == 0;
    } else {
      SumButFirst(p, q, c, k - 1);
    }
  }

  lemma ServingLeaves(p: Part, from: int, ms: int)
    requires Plain(p) && Quiet(p) && ms > 0
    ensures var q := Served(p, Be, from, from + Ms(ms));
            && Plain(q) && Quiet(q) && |q.procs| == |p.procs|
            && Leaves(p, q, Be, p.cur, from, from + Ms(ms), Begun(p, p.cur, from, from + Ms(ms), 0))
  {
    hide Served, Begun, Leaves, Starts, Rows, Rests, PartOk, Plain, Quiet;
    PlainRests(p);
    ServedClosedForm(p, Be, from, from + Ms(ms));
    LeavesPlain(p, Served(p, Be, from, from + Ms(ms)), Be, p.cur, from, from + Ms(ms), Begun(p, p.cur, from, from + Ms(ms), 0));
  }

  lemma PlainRests(p: Part)
    requires Plain(p) && Quiet(p)
    ensures Rests(p) && PartOk(p) && p.cur < |p.procs|
  {
  }

  lemma LeavesPlain(p: Part, q: Part, role: Role, c: nat, from: int, end: int, n: nat)
    requires c < |p.procs| && Leaves(p, q, role, c, from, end, n)
    ensures Plain(q) && Quiet(q) && |q.procs| == |p.procs|
  {
  }

  /** `j` gets its turn in a serving, or its wait shrinks by the time served. */
  ghost predicate TurnOrCloser(p: Part, q: Part, from: int, ms: int, j: nat)
    requires p.cur < |p.procs| && q.cur < |q.procs| == |p.procs| && j < |p.procs|
  {
    if Wait(p, j) < ms then Gets(p, from, ms, j)
    else Misses(p, from, ms, j) && Wait(q, j) == Wait(p, j) - ms
  }

  /** One window: either `j` gets its turn, or its wait shrinks by the time served. */
  lemma ServingProgress(p: Part, from: int, ms: int, j: nat)
    requires Plain(p) && Quiet(p) && ms > 0 && j < |p.procs|
    ensures var q := Served(p, Be, from, from + Ms(ms));
            && Plain(q) && Quiet(q) && |q.procs| == |p.procs|
            && TurnOrCloser(p, q, from, ms, j)
  {
    assert Rests(p);
    ServingLeaves(p, from, ms);
    WaitOrTurn(p, from, ms, j);
    hide Gets, Misses, Served, Begun, Left, Leaves, Sum, ProcOk, Ms, Wait;
    if ms <= Wait(p, j) {
      WaitShrinks(p, Served(p, Be, from, from + Ms(ms)), from, ms, j);
    }
  }

  // ----- Over many windows -----

  datatype Serving = Serving(from: int, ms: int)

  function Total(s: seq<Serving>): int {
    if |s| == 0 then 0 else s[0].ms + Total(s[1..])
  }

  ghost predicate Servable(p: Part, s: seq<Serving>) {
    Plain(p) && Quiet(p) && forall i :: 0 <= i < |s| ==> s[i].ms > 0
  }

  ghost function Serve(p: Part, x: Serving): (q: Part)
    requires Plain(p) && Quiet(p) && x.ms > 0
    ensures Plain(q) && Quiet(q) && |q.procs| == |p.procs|
  {
    ServingLeaves(p, x.from, x.ms);
    Served(p, Be, x.from, x.from + Ms(x.ms))
  }

  lemma ServeProgress(p: Part, x: Serving, j: nat)
    requires Plain(p) && Quiet(p) && x.ms > 0 && j < |p.procs|
    ensures TurnOrCloser(p, Serve(p, x), x.from, x.ms, j)
  {
    ServingProgress(p, x.from, x.ms, j);
    hide Gets, Misses, Wait, Served, ProcOk, Ms;
  }

  /** The partition before its `w`-th serving. */
  ghost function Before(p: Part, s: seq<Serving>, w: nat): (q: Part)
    requires Servable(p, s) && w <= |s|
    ensures Plain(q) && Quiet(q) && |q.procs| == |p.procs|
    decreases w
  {
    if w == 0 then p else Serve(Before(p, s, w - 1), s[w - 1])
  }

  lemma {:induction false} TotalStep(s: seq<Serving>, w: nat)
    requires w < |s|
    ensures Total(s[..w + 1]) == Total(s[..w]) + s[w].ms
    decreases w
  {
    if w > 0 {
      assert s[1..][..w] == s[..w + 1][1..] && s[1..][..w - 1] == s[..w][1..];
      TotalStep(s[1..], w - 1);
    }
  }

  /** As long as the time served so far does not exceed the wait, `j` has not been started. */
  lemma {:induction false} StillWaiting(p: Part, s: seq<Serving>, w: nat, j: nat)
    requires Servable(p, s) && w <= |s| && j < |p.procs|
    requires Total(s[..w]) <= Wait(p, j)
    ensures Wait(Before(p, s, w), j) == Wait(p, j) - Total(s[..w])
    ensures forall v :: 0 <= v < w ==> Misses(Before(p, s, v), s[v].from, s[v].ms, j)
    decreases w
  {
    hide Ms, Gets, Misses, Wait, Serve, Plain, Quiet;
    if w == 0 {
      assert s[..0] == [];
    } else {
      TotalStep(s, w - 1);
      StillWaiting(p, s, w - 1, j);
      ServeProgress(Before(p, s, w - 1), s[w - 1], j);
    }
  }

  /**
   * No starvation, with the exact turn: `j` is started in the first window in which the time
   * served since the beginning exceeds what the processes ahead of it had, and in no window
   * before. As every serving lasts at least a millisecond, this is after at most `Wait` windows.
   */
  lemma {:induction false} NoStarvation(p: Part, s: seq<Serving>, j: nat) returns (w: nat)
    requires Servable(p, s) && j < |p.procs| && Wait(p, j) < Total(s)
    ensures w < |s| && w <= Wait(p, j)
    ensures Total(s[..w]) <= Wait(p, j) < Total(s[..w + 1])
    ensures Gets(Before(p, s, w), s[w].from, s[w].ms, j)
    ensures forall v :: 0 <= v < w ==> Misses(Before(p, s, v), s[v].from, s[v].ms, j)
  {
    hide Ms, Gets, Misses, Served, Serve, ProcOk;
    w := 0;
    SumGrows(p, p.cur, 0, Behind(|p.procs|, p.cur, j));
    assert s[..|s|] == s;
    while w < |s| && Total(s[..w + 1]) <= Wait(p, j)
      invariant w <= |s| && Total(s[..w]) <= Wait(p, j) && w <= Total(s[..w])
    {
      TotalStep(s, w);
      w := w + 1;
    }
    StillWaiting(p, s, w, j);
    TotalStep(s, w);
    ServeProgress(Before(p, s, w), s[w], j);
  }

  lemma {:induction false} TotalAtLeast(s: seq<Serving>)
    requires forall i :: 0 <= i < |s| ==> s[i].ms > 0
    ensures Total(s) >= |s|
  {
    if |s| > 0 {
      TotalAtLeast(s[1..]);
    }
  }

  /** A best-effort process starts at the latest in the window numbered by the budgets ahead of it. */
  lemma StartsWithin(p: Part, s: seq<Serving>, j: nat)
    requires Servable(p, s) && j < |p.procs| && Wait(p, j) < |s|
    ensures exists w :: 0 <= w <= Wait(p, j) && Gets(Before(p, s, w), s[w].from, s[w].ms, j)
  {
    TotalAtLeast(s);
    var w := NoStarvation(p, s, j);
  }
}
