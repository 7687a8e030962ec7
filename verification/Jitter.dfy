/**
 * Random budgets and the assertion of `set_remaining_budget`, while nobody signals or ends: exactly
 * which best-effort partitions never violate it, whatever is drawn. `Disturbance` says the same
 * for windows in which anything can happen.
 */
module Jitter {
  import opened Options
  import opened Model
  import opened Phases
  import opened TimeTable
  import opened ClosedForm

  // ----- The end of a window -----

  /**
   * When a window which nobody disturbs is stopped, the assertion holds for a slice iff serving
   * its best-effort partition, from when the last safety-critical one is through, fits.
   */
  lemma StopFitsIff(w0: Win, from: int, end: int, order: seq<nat>, states: seq<Win>, i: nat)
    requires TimelyRun(w0, from, end, order, states) && Over(states[|order|], end) && i < |w0.slices|
    ensures forall k :: 0 <= k < |w0.slices| ==> Resting(w0.slices[k])
    ensures |states[|order|].slices| == |w0.slices| && Shaped(states[|order|].slices[i])
    ensures StopFits(states[|order|].slices[i], end) <==> BeFits(w0.slices[i], BeStart(w0.slices, from), end)
  {
    hide ScAfter, BeAfter, Resting, PartIn, ScDone, OnTheWaySc, FitsOut, Runs, Start, ScheduleNext, BeFits, RunOut;
    var w := states[|order|];
    var now := LastEvent(from, order, states, |order|);
    RunTracks(w0, from, end, order, states, |order|);
    SignalsFull(w.slices);
    if !AllReported(w) {
      NotReportedIsLate(w0, w, from, end, now);
      LateFits(w0.slices[i], BeStart(w0.slices, from), end);
    }
    FitsOnTrack(w0.slices[i], w.slices[i], from, end, BeStart(w0.slices, from), AllReported(w), now);
  }

  lemma LateFits(s: Slice, at: int, end: int)
    requires Resting(s) && at >= end
    ensures BeFits(s, at, end)
  {
  }

  lemma FitsOnTrack(s0: Slice, s: Slice, from: int, end: int, at: int, all: bool, now: int)
    requires Resting(s0) && OnTrack(s0, s, from, end, at, all, now)
    requires s.running ==> end <= s.timeout
    requires if all then s.signals == 1 else BeFits(s0, at, end)
    ensures StopFits(s, end) <==> BeFits(s0, at, end)
  {
    hide ScAfter, BeAfter, ScDoneAt, Resting, PartIn, ScDone, RunOut, DoneAt, ServingFits;
    if s.running && s.role == Some(Be) {
      assert OnTheWayBe(s0, s, at, end);
      CutIsLast(s.be.value, s.timeout, end);
    }
  }

  lemma CutIsLast(p: Part, timeout: int, end: int)
    requires Runs(p) && timeout >= end
    ensures FitsOut(p, Be, timeout, end) == CutFits(p, Be, timeout, end)
  {
  }

  // ----- What may be drawn -----

  datatype Kind = Least | Drawn | Most

  /** Milliseconds which a process gets this time, and the bounds of that. */
  function Share(x: Proc, b: Kind): int {
    if !x.spawned then 0
    else if x.actual != x.budget then x.actual
    else
      match b
      case Least => x.budget - x.jitter / 2
      case Drawn => x.budget + x.noise(x.draws)
      case Most => x.budget + (x.jitter - x.jitter / 2)
  }

  /** By how much a draw may exceed the budget; a remainder is not drawn. */
  function Stretch(x: Proc): int {
    if x.spawned && x.actual == x.budget then x.jitter - x.jitter / 2 else 0
  }

  lemma ShareBounds(x: Proc)
    requires ProcOk(x)
    ensures 0 <= Share(x, Least) <= Share(x, Drawn) <= Share(x, Most) <= x.budget + Stretch(x)
    ensures Stretch(x) == 0 ==> Share(x, Drawn) <= x.budget
    ensures x.spawned ==> Share(x, Drawn) == Draw(x).1
    ensures Stretch(x) > 0 ==> Share(x, Most) == x.budget + Stretch(x)
  {
    assert -(x.jitter / 2) <= x.noise(x.draws) <= x.jitter - x.jitter / 2;
  }

  /** The process `k` places after `c`. */
  function At(p: Part, c: nat, k: nat): Proc
    requires c < |p.procs| && k < |p.procs|
  {
    p.procs[Ahead(|p.procs|, c, k)]
  }

  /** When the process `k` places after `c` starts, in milliseconds since the first one. */
  function Offset(p: Part, c: nat, k: nat, b: Kind): int
    requires c < |p.procs| && k <= |p.procs|
  {
    if k == 0 then 0 else Offset(p, c, k - 1, b) + Share(At(p, c, k - 1), b)
  }

  lemma {:induction false} OffsetBounds(p: Part, c: nat, k: nat)
    requires PartOk(p) && c < |p.procs| && k <= |p.procs|
    ensures Offset(p, c, k, Least) <= Offset(p, c, k, Drawn) <= Offset(p, c, k, Most)
    decreases k
  {
    hide Share;
    if k > 0 {
      OffsetBounds(p, c, k - 1);
      ShareBounds(At(p, c, k - 1));
    }
  }

  lemma {:induction false} OffsetGrows(p: Part, c: nat, k: nat, m: nat, b: Kind)
    requires PartOk(p) && c < |p.procs| && k <= m <= |p.procs|
    ensures Offset(p, c, k, b) <= Offset(p, c, m, b)
    decreases m
  {
    hide Share;
    if k < m {
      OffsetGrows(p, c, k, m - 1, b);
      ShareBounds(At(p, c, m - 1));
    }
  }

  lemma {:induction false} OffsetSame(p: Part, q: Part, c: nat, k: nat, b: Kind)
    requires c < |p.procs| == |q.procs| && k <= |p.procs|
    requires forall m :: 0 <= m < k ==> Share(At(q, c, m), b) == Share(At(p, c, m), b)
    ensures Offset(q, c, k, b) == Offset(p, c, k, b)
    decreases k
  {
    if k > 0 {
      OffsetSame(p, q, c, k - 1, b);
    }
  }

  // ----- A serving with given draws -----

  /** If the process at the `k`-th place is cut off after `ms`, less than its budget is left to it. */
  ghost predicate PlaceFits(p: Part, c: nat, k: nat, ms: int)
    requires c < |p.procs| && k < |p.procs|
  {
    Offset(p, c, k, Drawn) < ms < Offset(p, c, k + 1, Drawn) ==> Offset(p, c, k + 1, Drawn) - ms < At(p, c, k).budget
  }

  ghost predicate PlacesFit(p: Part, c: nat, from: nat, ms: int)
    requires c < |p.procs|
  {
    forall k :: from <= k < |p.procs| ==> PlaceFits(p, c, k, ms)
  }

  /** The first place from `k` on whose process gets any time. */
  function NextPlace(p: Part, c: nat, k: nat): (m: nat)
    requires c < |p.procs| && k <= |p.procs|
    ensures k <= m <= |p.procs|
    ensures m < |p.procs| ==> Share(At(p, c, m), Drawn) != 0
    ensures forall i :: k <= i < m ==> Share(At(p, c, i), Drawn) == 0
    decreases |p.procs| - k
  {
    if k == |p.procs| || Share(At(p, c, k), Drawn) != 0 then k else NextPlace(p, c, k + 1)
  }

  /** `q` is `p` with the first `k` places from `c` on through, between two processes. */
  ghost predicate Past(p: Part, q: Part, c: nat, k: nat)
    requires c < |p.procs|
  {
    && k <= |p.procs| == |q.procs|
    && PartOk(q) && Quiet(q)
    && (forall m :: 0 <= m < k ==> !Pending(At(q, c, m)))
    && (forall m :: k <= m < |p.procs| ==> At(q, c, m) == At(p, c, m))
    && exists i :: 0 <= i <= k && i < |p.procs| && q.cur == Ahead(|p.procs|, c, i)
  }

  /** The process at the `k`-th place runs, those before it are through. */
  ghost predicate Busy(p: Part, q: Part, c: nat, k: nat)
    requires c < |p.procs|
  {
    && k < |p.procs| == |q.procs|
    && Runs(q) && q.cur == Ahead(|p.procs|, c, k)
    && At(q, c, k).budget == At(p, c, k).budget
    && (forall m :: 0 <= m < k ==> !Pending(At(q, c, m)))
    && (forall m :: k < m < |p.procs| ==> At(q, c, m) == At(p, c, m))
  }

  /** No process has been through yet. */
  ghost predicate Unbegun(p: Part) {
    PartOk(p) && forall j :: 0 <= j < |p.procs| ==> !p.procs[j].completed
  }

  /** The first place from `k` on whose process is alive. */
  function Alive(p: Part, c: nat, k: nat): (m: nat)
    requires c < |p.procs| && k <= |p.procs|
    ensures k <= m <= |p.procs|
    ensures m < |p.procs| ==> At(p, c, m).spawned
    ensures forall i :: k <= i < m ==> !At(p, c, i).spawned
    decreases |p.procs| - k
  {
    if k == |p.procs| || At(p, c, k).spawned then k else Alive(p, c, k + 1)
  }

  /** Which places are pending: none before the first one which is alive. */
  lemma PendingPlaces(p: Part, q: Part, c: nat, k: nat)
    requires Unbegun(p) && c < |p.procs| && Past(p, q, c, k)
    ensures q.cur < |q.procs| == |p.procs|
    ensures var m := Alive(p, c, k);
            && (forall x :: 0 <= x < |p.procs| && x < m ==> !Pending(At(q, c, x)))
            && (m < |p.procs| ==> Pending(At(q, c, m)) && At(q, c, m) == At(p, c, m))
  {
    hide ProcOk;
    var m := Alive(p, c, k);
    forall x | 0 <= x < |p.procs| && x < m
      ensures !Pending(At(q, c, x))
    {
      if x >= k {
        assert At(q, c, x) == At(p, c, x);
      }
    }
    if m < |p.procs| {
      assert At(q, c, m) == At(p, c, m);
    }
  }

  /** A search from the `i`-th place finds the first pending place behind it. */
  lemma SeekPlace(q: Part, c: nat, i: nat, m: nat)
    requires c < |q.procs| && i < |q.procs| && i <= m < |q.procs| && q.cur == Ahead(|q.procs|, c, i)
    requires Pending(At(q, c, m)) && forall x :: 0 <= x < m ==> !Pending(At(q, c, x))
    ensures var (r, found) := SeekPart(q);
            found && r.cur == Ahead(|q.procs|, c, m)
  {
    var n := |q.procs|;
    SeekPartSpec(q);
    var (r, found) := SeekPart(q);
    assert Pending(q.procs[Ahead(n, c, m)]);
    var d :| 0 <= d < n && r.cur == Ahead(n, q.cur, d) && Pending(q.procs[r.cur]) &&
             forall e :: 0 <= e < d ==> !Pending(q.procs[Ahead(n, q.cur, e)]);
    SamePlace(n, c, i, d);
    SamePlace(n, c, i, m - i);
    var x := if i + d < n then i + d else i + d - n;
    assert r.cur == Ahead(n, c, x) && Pending(At(q, c, x));
    forall e | 0 <= e < d
      ensures Ahead(n, q.cur, e) != Ahead(n, c, m)
    {
      assert !Pending(q.procs[Ahead(n, q.cur, e)]);
    }
  }

  lemma SeekNowhere(q: Part, c: nat)
    requires c < |q.procs| && q.cur < |q.procs| && forall x :: 0 <= x < |q.procs| ==> !Pending(At(q, c, x))
    ensures !SeekPart(q).1
  {
    SeekPartSpec(q);
    forall j | 0 <= j < |q.procs|
      ensures !Pending(q.procs[j])
    {
      assert q.procs[j] == At(q, c, Behind(|q.procs|, c, j));
    }
  }

  /** The search goes to the next process which is alive. */
  lemma SeekPast(p: Part, q: Part, c: nat, k: nat)
    requires Unbegun(p) && c < |p.procs| && Past(p, q, c, k)
    ensures q.cur < |q.procs|
    ensures var (r, found) := SeekPart(q);
            var m := Alive(p, c, k);
            && (found <==> m < |p.procs|)
            && (found ==> r.cur == Ahead(|p.procs|, c, m) && Past(p, r, c, m))
  {
    hide SeekPart, ProcOk, Pending, Ahead;
    PendingPlaces(p, q, c, k);
    var m := Alive(p, c, k);
    if m < |p.procs| {
      var i :| 0 <= i <= k && i < |p.procs| && q.cur == Ahead(|p.procs|, c, i);
      SeekPlace(q, c, i, m);
      MovedPast(p, q, c, k, m, SeekPart(q).0);
    } else {
      SeekNowhere(q, c);
    }
  }

  lemma MovedPast(p: Part, q: Part, c: nat, k: nat, m: nat, r: Part)
    requires c < |p.procs| && Past(p, q, c, k) && k <= m < |p.procs|
    requires forall x :: 0 <= x < m ==> !Pending(At(q, c, x))
    requires r.procs == q.procs && r.cur == Ahead(|p.procs|, c, m)
    ensures Past(p, r, c, m)
  {
    hide ProcOk;
    assert forall x :: 0 <= x < |p.procs| ==> At(r, c, x) == At(q, c, x);
  }

  /** A change of one process is a change of one place. */
  lemma PlaceUpdate(q: Part, r: Part, c: nat, k: nat, x: Proc)
    requires c < |q.procs| && k < |q.procs| && r.procs == q.procs[Ahead(|q.procs|, c, k) := x]
    ensures forall m :: 0 <= m < |q.procs| ==> At(r, c, m) == if m == k then x else At(q, c, m)
  {
    AheadIsBijective(|q.procs|, c);
  }

  /** Going on from the `i`-th place. */
  lemma SamePlace(n: nat, c: nat, i: nat, d: nat)
    requires c < n && i < n && d < n
    ensures Ahead(n, Ahead(n, c, i), d) == Ahead(n, c, if i + d < n then i + d else i + d - n)
  {
  }

  /** A process with nothing to do this time is passed over. */
  lemma SkipPast(p: Part, q: Part, c: nat, k: nat)
    requires c < |p.procs| && k < |p.procs| && Past(p, q, c, k) && q.cur == Ahead(|p.procs|, c, k)
    ensures Past(p, Skip(q), c, k + 1)
  {
    DrawnBudget(q.procs[q.cur]);
    PlaceUpdate(q, Skip(q), c, k, Draw(q.procs[q.cur]).0.(completed := true));
  }

  lemma LaunchBusy(p: Part, q: Part, c: nat, k: nat, role: Role, t: int)
    requires c < |p.procs| && k < |p.procs| && Past(p, q, c, k) && q.cur == Ahead(|p.procs|, c, k)
    requires Pending(q.procs[q.cur])
    ensures Busy(p, Launch(q, role, t), c, k)
  {
    DrawnBudget(q.procs[q.cur]);
    var x := Draw(q.procs[q.cur]).0;
    PlaceUpdate(q, Launch(q, role, t), c, k, Resume(x).(actual := x.budget));
    assert At(q, c, k) == At(p, c, k);
  }

  /** The next process is the first one which gets any time. */
  lemma {:induction false} StartPast(p: Part, q: Part, c: nat, k: nat, role: Role, t: int)
    requires Unbegun(p) && c < |p.procs| && Past(p, q, c, k)
    ensures var (r, b) := StartNext(q, role, t);
            var m := NextPlace(p, c, k);
            if m == |p.procs| then b.None?
            else b == Some(Share(At(p, c, m), Drawn)) && Busy(p, r, c, m)
    decreases |p.procs| - k
  {
    hide PartOk, Busy, Past, Skip, Launch, Quiet, Share;
    SeekPast(p, q, c, k);
    PastMeans(p, q, c, k);
    var (r, found) := SeekPart(q);
    var m := Alive(p, c, k);
    AliveIsNext(p, c, k);
    if found {
      PastMeans(p, r, c, m);
      ShareBounds(At(p, c, m));
      if Draw(r.procs[r.cur]).1 == 0 {
        SkipPast(p, r, c, m);
        StartPast(p, Skip(r), c, m + 1, role, t);
      } else {
        LaunchBusy(p, r, c, m, role, t);
      }
    }
  }

  lemma PastMeans(p: Part, q: Part, c: nat, k: nat)
    requires Unbegun(p) && c < |p.procs| && Past(p, q, c, k)
    ensures k <= |p.procs| == |q.procs| && q.cur < |q.procs|
    ensures k < |p.procs| ==> At(q, c, k) == At(p, c, k) && ProcOk(At(p, c, k))
  {
  }

  /** A process which is not alive gets no time. */
  lemma {:induction false} AliveIsNext(p: Part, c: nat, k: nat)
    requires c < |p.procs| && k <= |p.procs|
    ensures var m := Alive(p, c, k);
            NextPlace(p, c, k) == if m < |p.procs| && Share(At(p, c, m), Drawn) == 0 then NextPlace(p, c, m + 1) else m
    decreases |p.procs| - k
  {
    if k < |p.procs| && !At(p, c, k).spawned {
      AliveIsNext(p, c, k + 1);
    }
  }

  lemma EndPast(p: Part, q: Part, c: nat, k: nat, role: Role, t: int)
    requires c < |p.procs| && Busy(p, q, c, k)
    ensures Past(p, EndCurrent(q, role, t, true), c, k + 1)
  {
    PlaceUpdate(q, EndCurrent(q, role, t, true), c, k, q.procs[q.cur].(frozen := true, completed := true));
  }

  /** Places which get no time start no later ones. */
  lemma {:induction false} OffsetStays(p: Part, c: nat, k: nat, m: nat)
    requires c < |p.procs| && k <= m <= |p.procs|
    requires forall i :: k <= i < m ==> Share(At(p, c, i), Drawn) == 0
    ensures Offset(p, c, m, Drawn) == Offset(p, c, k, Drawn)
    decreases m
  {
    if k < m {
      OffsetStays(p, c, k, m - 1);
    }
  }

  /** Places up to the next one which gets any time fit. */
  lemma EmptyPlacesFit(p: Part, c: nat, k: nat, ms: int)
    requires c < |p.procs| && k <= |p.procs|
    ensures PlacesFit(p, c, k, ms) <==> PlacesFit(p, c, NextPlace(p, c, k), ms)
    ensures Offset(p, c, NextPlace(p, c, k), Drawn) == Offset(p, c, k, Drawn)
  {
    var m := NextPlace(p, c, k);
    OffsetStays(p, c, k, m);
    forall i | k <= i < m
      ensures PlaceFits(p, c, i, ms)
    {
      assert Offset(p, c, i + 1, Drawn) == Offset(p, c, i, Drawn) + Share(At(p, c, i), Drawn);
    }
  }

  lemma CutPlaces(p: Part, q: Part, c: nat, k: nat, from: int, ms: int)
    requires PartOk(p) && c < |p.procs| && Busy(p, q, c, k)
    requires Offset(p, c, k, Drawn) < ms <= Offset(p, c, k + 1, Drawn)
    ensures CutFits(q, Be, from + Ms(Offset(p, c, k + 1, Drawn)), from + Ms(ms)) <==> PlacesFit(p, c, k, ms)
  {
    hide Share;
    var o := Offset(p, c, k + 1, Drawn);
    assert TruncMs(from + Ms(o) - (from + Ms(ms))) == o - ms;
    forall m | k < m < |p.procs|
      ensures PlaceFits(p, c, m, ms)
    {
      OffsetGrows(p, c, k + 1, m, Drawn);
    }
    assert q.procs[q.cur] == At(q, c, k);
    assert CutFits(q, Be, from + Ms(o), from + Ms(ms)) <==> PlaceFits(p, c, k, ms);
  }

  /** From a running process on, the partition fits iff every place from there on does. */
  lemma {:induction false} FitsOutIff(p: Part, q: Part, c: nat, k: nat, from: int, ms: int)
    requires Unbegun(p) && c < |p.procs| && Busy(p, q, c, k) && Offset(p, c, k, Drawn) < ms
    ensures Runs(q)
    ensures FitsOut(q, Be, from + Ms(Offset(p, c, k + 1, Drawn)), from + Ms(ms)) <==> PlacesFit(p, c, k, ms)
    decreases |p.procs| - k
  {
    hide PartOk, Share, CutFits, Turn, OnlyCurrent, Quiet, PlacesFit, Past, Busy, Unbegun, NextPlace;
    BusyMeans(p, q, c, k);
    var timeout := from + Ms(Offset(p, c, k + 1, Drawn));
    if Offset(p, c, k + 1, Drawn) >= ms {
      hide FitsOut;
      FitsOutCut(q, timeout, from + Ms(ms));
      CutPlaces(p, q, c, k, from, ms);
    } else {
      TurnBusy(p, q, c, k, timeout);
      EmptyPlacesFit(p, c, k + 1, ms);
      PassedPlaceFits(p, c, k, ms);
      var (r, b) := Turn(q, Be, timeout);
      var m := NextPlace(p, c, k + 1);
      if m < |p.procs| {
        FitsOutIff(p, r, c, m, from, ms);
        assert timeout + Ms(b.value) == from + Ms(Offset(p, c, m + 1, Drawn));
      } else {
        NoPlaces(p, c, ms);
      }
    }
  }

  lemma TurnBusy(p: Part, q: Part, c: nat, k: nat, t: int)
    requires Unbegun(p) && c < |p.procs| && Busy(p, q, c, k)
    ensures Runs(q)
    ensures var (r, b) := Turn(q, Be, t);
            var m := NextPlace(p, c, k + 1);
            if m == |p.procs| then b.None?
            else b == Some(Share(At(p, c, m), Drawn)) && Busy(p, r, c, m)
  {
    hide PartOk, Share, Past, Busy, Unbegun, StartNext, NextPlace;
    BusyMeans(p, q, c, k);
    EndPast(p, q, c, k, Be, t);
    StartPast(p, EndCurrent(q, Be, t, true), c, k + 1, Be, t);
    TurnIs(q, Be, t);
  }

  lemma FitsOutCut(q: Part, timeout: int, end: int)
    requires Runs(q) && timeout >= end
    ensures FitsOut(q, Be, timeout, end) == CutFits(q, Be, timeout, end)
  {
  }

  lemma PassedPlaceFits(p: Part, c: nat, k: nat, ms: int)
    requires c < |p.procs| && k < |p.procs| && Offset(p, c, k + 1, Drawn) < ms
    ensures PlacesFit(p, c, k, ms) <==> PlacesFit(p, c, k + 1, ms)
  {
    hide Offset;
    assert PlaceFits(p, c, k, ms);
  }

  lemma NoPlaces(p: Part, c: nat, ms: int)
    requires c < |p.procs|
    ensures PlacesFit(p, c, |p.procs|, ms)
  {
  }

  lemma BusyMeans(p: Part, q: Part, c: nat, k: nat)
    requires Unbegun(p) && c < |p.procs| && Busy(p, q, c, k)
    ensures k < |p.procs| == |q.procs| && Runs(q) && PartOk(p)
  {
  }

  /** The partition as it is when it is served: nothing has been through yet. */
  lemma ResetPast(p: Part)
    requires Rests(p)
    ensures var u := Reset(p, false); Unbegun(u) && u.cur == p.cur && |u.procs| == |p.procs| && Past(u, u, u.cur, 0)
  {
    var u := Reset(p, false);
    assert Ahead(|u.procs|, u.cur, 0) == u.cur;
  }

  /** Serving a partition fits iff each place does. */
  lemma ServingFitsIff(p: Part, from: int, ms: int)
    requires Rests(p) && ms > 0
    ensures p.cur < |p.procs|
    ensures ServingFits(p, Be, from, from + Ms(ms)) <==> PlacesFit(p, p.cur, 0, ms)
  {
    hide PartOk, Share, Quiet, PlacesFit, FitsOut, Reset, Past, Busy, Runs;
    RestsMeans(p);
    var u := Reset(p, false);
    ResetPast(p);
    ResetShares(p, ms);
    FirstTurnIs(p, from);
    StartPast(u, u, u.cur, 0, Be, from);
    EmptyPlacesFit(u, u.cur, 0, ms);
    var m := NextPlace(u, u.cur, 0);
    assert Offset(u, u.cur, 0, Drawn) == 0;
    if m < |u.procs| {
      FitsOutIff(u, FirstTurn(p, Be, from).0, u.cur, m, from, ms);
      assert Offset(u, u.cur, m + 1, Drawn) == Share(At(u, u.cur, m), Drawn);
    } else {
      NoPlaces(u, u.cur, ms);
    }
  }

  lemma FirstTurnIs(p: Part, from: int)
    requires Rests(p)
    ensures Reset(p, false).cur < |Reset(p, false).procs|
    ensures FirstTurn(p, Be, from) == StartNext(Reset(p, false), Be, from)
  {
    hide StartNext;
  }

  lemma ResetShares(p: Part, ms: int)
    requires Rests(p)
    ensures p.cur < |p.procs| == |Reset(p, false).procs|
    ensures PlacesFit(Reset(p, false), p.cur, 0, ms) <==> PlacesFit(p, p.cur, 0, ms)
  {
    var u, c := Reset(p, false), p.cur;
    forall k | 0 <= k < |p.procs|
      ensures PlaceFits(u, c, k, ms) <==> PlaceFits(p, c, k, ms)
    {
      OffsetSame(p, u, c, k, Drawn);
      OffsetSame(p, u, c, k + 1, Drawn);
    }
  }

  // ----- Over all draws -----

  /** The same partition with other random numbers to come. */
  ghost predicate Redrawn(p: Part, q: Part) {
    && q.cur == p.cur && q.log == p.log && |q.procs| == |p.procs|
    && forall j :: 0 <= j < |p.procs| ==> ProcOk(q.procs[j]) && q.procs[j] == p.procs[j].(noise := q.procs[j].noise)
  }

  /** No draw of the process at the `k`-th place can leave it with its whole budget or more after `ms`. */
  ghost predicate PlaceSafe(p: Part, c: nat, k: nat, ms: int)
    requires c < |p.procs| && k < |p.procs|
  {
    || Stretch(At(p, c, k)) == 0
    || Offset(p, c, k, Least) >= ms
    || Offset(p, c, k, Most) + Stretch(At(p, c, k)) < ms
  }

  lemma RedrawnBounds(p: Part, q: Part, c: nat, k: nat)
    requires PartOk(p) && Redrawn(p, q) && c < |p.procs| && k <= |p.procs|
    ensures PartOk(q)
    ensures Offset(q, c, k, Least) == Offset(p, c, k, Least) && Offset(q, c, k, Most) == Offset(p, c, k, Most)
    ensures forall m :: 0 <= m < |p.procs| ==> Stretch(At(q, c, m)) == Stretch(At(p, c, m)) && At(q, c, m).budget == At(p, c, m).budget
  {
    hide ProcOk;
    OffsetSame(p, q, c, k, Least);
    OffsetSame(p, q, c, k, Most);
  }

  /** A safe place fits, whatever is drawn. */
  lemma SafeFits(p: Part, q: Part, c: nat, k: nat, ms: int)
    requires PartOk(p) && Redrawn(p, q) && c < |p.procs| && k < |p.procs| && PlaceSafe(p, c, k, ms)
    ensures PlaceFits(q, c, k, ms)
  {
    hide PartOk, Share, Stretch, Redrawn;
    RedrawnLength(p, q);
    RedrawnBounds(p, q, c, k);
    OffsetBounds(q, c, k);
    PlaceOk(q, c, k);
    ShareBounds(At(q, c, k));
  }

  lemma RedrawnLength(p: Part, q: Part)
    requires Redrawn(p, q)
    ensures |q.procs| == |p.procs| && q.cur == p.cur
    ensures PartOk(p) ==> PartOk(q)
    ensures Rests(p) ==> Rests(q)
  {
  }

  /** One process is given a fixed random number. */
  function Fix(q: Part, j: nat, v: int): Part
    requires j < |q.procs|
  {
    q.(procs := q.procs[j := q.procs[j].(noise := (n: nat) => v)])
  }

  lemma FixIsRedrawn(p: Part, q: Part, j: nat, v: int)
    requires PartOk(p) && Redrawn(p, q) && j < |p.procs|
    requires -(p.procs[j].jitter / 2) <= v <= p.procs[j].jitter - p.procs[j].jitter / 2
    ensures Redrawn(p, Fix(q, j, v))
  {
    var r := Fix(q, j, v);
    assert forall k: nat :: r.procs[j].noise(k) == v;
  }

  /** The number which gives the process `d` milliseconds, if any can. */
  function NoiseFor(x: Proc, d: int): int {
    if x.spawned && x.actual == x.budget then d - x.budget else 0
  }

  /** Any time between the bounds can be drawn for a place, without a change to the others. */
  lemma DrawFor(p: Part, q: Part, c: nat, k: nat, d: int) returns (r: Part)
    requires PartOk(p) && Redrawn(p, q) && c < |p.procs| && k < |p.procs|
    requires Share(At(p, c, k), Least) <= d <= Share(At(p, c, k), Most)
    ensures Redrawn(p, r) && Share(At(r, c, k), Drawn) == d
    ensures forall m :: 0 <= m < |p.procs| && m != k ==> At(r, c, m) == At(q, c, m)
  {
    AheadIsBijective(|p.procs|, c);
    var j := Ahead(|p.procs|, c, k);
    var v := NoiseFor(p.procs[j], d);
    assert ProcOk(p.procs[j]);
    FixIsRedrawn(p, q, j, v);
    r := Fix(q, j, v);
    assert r.procs[j].noise(r.procs[j].draws) == v;
  }

  /** Any start between the bounds can come about. */
  lemma {:induction false} Reach(p: Part, c: nat, k: nat, o: int) returns (q: Part)
    requires PartOk(p) && c < |p.procs| && k <= |p.procs|
    requires Offset(p, c, k, Least) <= o <= Offset(p, c, k, Most)
    ensures Redrawn(p, q) && Offset(q, c, k, Drawn) == o
    decreases k
  {
    hide PartOk, Share, Redrawn;
    if k == 0 {
      q := p;
      Itself(p);
    } else {
      PlaceOk(p, c, k - 1);
      ShareBounds(At(p, c, k - 1));
      OffsetBounds(p, c, k - 1);
      var d := o - Offset(p, c, k - 1, Least);
      if d > Share(At(p, c, k - 1), Most) {
        d := Share(At(p, c, k - 1), Most);
      }
      var r := Reach(p, c, k - 1, o - d);
      RedrawnLength(p, r);
      q := DrawFor(p, r, c, k - 1, d);
      RedrawnLength(p, q);
      OffsetSame(r, q, c, k - 1, Drawn);
    }
  }

  lemma Itself(p: Part)
    requires PartOk(p)
    ensures Redrawn(p, p)
  {
  }

  /** A place which is not safe need not fit. */
  lemma UnsafeBreaks(p: Part, c: nat, k: nat, ms: int) returns (q: Part)
    requires PartOk(p) && c < |p.procs| && k < |p.procs| && !PlaceSafe(p, c, k, ms)
    ensures Redrawn(p, q) && |q.procs| == |p.procs| && !PlaceFits(q, c, k, ms)
  {
    hide PartOk, Share, Stretch, Redrawn;
    var x := At(p, c, k);
    var o := Offset(p, c, k, Least);
    OffsetBounds(p, c, k);
    if o < ms - Stretch(x) {
      o := ms - Stretch(x);
    }
    assert ProcOk(x) by { PlaceOk(p, c, k); }
    ShareBounds(x);
    StretchIsJitter(x);
    var r := Reach(p, c, k, o);
    RedrawnLength(p, r);
    q := DrawFor(p, r, c, k, Share(x, Most));
    RedrawnLength(p, q);
    OffsetSame(r, q, c, k, Drawn);
    RedrawnBounds(p, q, c, k);
  }

  lemma PlaceOk(p: Part, c: nat, k: nat)
    requires PartOk(p) && c < |p.procs| && k < |p.procs|
    ensures ProcOk(At(p, c, k))
  {
  }

  lemma StretchIsJitter(x: Proc)
    requires ProcOk(x)
    ensures Stretch(x) >= 0 && x.budget > 0
  {
  }

  /**
   * Serving a best-effort partition for `ms` milliseconds, if nobody signals or ends, never fails
   * the assertion, whatever is drawn, iff for every process with a random part its latest possible
   * start plus the most its budget can be stretched by lies before the end, or its earliest
   * possible start does not.
   */
  lemma UndisturbedIff(p: Part, from: int, ms: int)
    requires Rests(p) && ms > 0
    ensures p.cur < |p.procs|
    ensures (forall q :: Redrawn(p, q) ==> Rests(q) && ServingFits(q, Be, from, from + Ms(ms))) <==>
            forall k :: 0 <= k < |p.procs| ==> PlaceSafe(p, p.cur, k, ms)
  {
    hide PartOk, Quiet, ServingFits, PlaceSafe, PlaceFits, Redrawn, Ms;
    RestsMeans(p);
    if forall k :: 0 <= k < |p.procs| ==> PlaceSafe(p, p.cur, k, ms) {
      forall q | Redrawn(p, q)
        ensures Rests(q) && ServingFits(q, Be, from, from + Ms(ms))
      {
        RedrawnLength(p, q);
        ServingFitsIff(q, from, ms);
        forall k | 0 <= k < |p.procs|
          ensures PlaceFits(q, p.cur, k, ms)
        {
          SafeFits(p, q, p.cur, k, ms);
        }
      }
    }
    if k :| 0 <= k < |p.procs| && !PlaceSafe(p, p.cur, k, ms) {
      var q := UnsafeBreaks(p, p.cur, k, ms);
      RedrawnLength(p, q);
      ServingFitsIff(q, from, ms);
    }
  }

  lemma RestsMeans(p: Part)
    requires Rests(p)
    ensures PartOk(p) && p.cur < |p.procs|
  {
  }

  /** A partition of one process with its whole budget: the window must exceed what it can be stretched by. */
  lemma LoneUndisturbedIff(p: Part, from: int, ms: int)
    requires Rests(p) && ms > 0 && |p.procs| == 1 && p.procs[0].spawned && p.procs[0].actual == p.procs[0].budget
    ensures (forall q :: Redrawn(p, q) ==> Rests(q) && ServingFits(q, Be, from, from + Ms(ms))) <==>
            p.procs[0].jitter - p.procs[0].jitter / 2 < ms
  {
    hide ServingFits, Redrawn;
    UndisturbedIff(p, from, ms);
    assert At(p, 0, 0) == p.procs[0];
    assert PlaceSafe(p, 0, 0, ms) <==> p.procs[0].jitter - p.procs[0].jitter / 2 < ms;
  }
}
