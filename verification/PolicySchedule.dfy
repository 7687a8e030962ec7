/**
 * The per-process policy as the scheduler calls it: the locks of a cluster are the processes which
 * the slices of the window run, and the calls come as the policy takes for granted.
 */
module PolicySchedule {
  import opened Options
  import opened Model
  import opened Phases
  import Q = PowerPolicy

  // ----- The calls which one change of the running processes makes -----

  /** For each slice the process it runs, as the policy sees it. */
  type Table = seq<Option<Q.Proc>>

  /** Those of the first `k` slices which are in `ending` end their process. */
  function EndCalls(a: Table, ending: set<nat>, k: nat): seq<Q.Event>
    requires k <= |a|
  {
    if k == 0 then []
    else EndCalls(a, ending, k - 1) + if k - 1 in ending && a[k - 1].Some? then [Q.Ends(a[k - 1].value)] else []
  }

  /** And then those which run a process now, and did not go on with an earlier one, start it. */
  function StartCalls(a: Table, b: Table, ending: set<nat>, k: nat): seq<Q.Event>
    requires k <= |a| == |b|
  {
    if k == 0 then []
    else
      StartCalls(a, b, ending, k - 1) +
      if b[k - 1].Some? && (k - 1 in ending || a[k - 1].None?) then [Q.Starts(b[k - 1].value)] else []
  }

  function CallsOf(a: Table, b: Table, ending: set<nat>): seq<Q.Event>
    requires |a| == |b|
  {
    EndCalls(a, ending, |a|) + StartCalls(a, b, ending, |a|)
  }

  /** The policy after some calls, and whether none of them found a conflict, which ends them. */
  ghost function Made(s: Q.State, calls: seq<Q.Event>): (r: (Q.State, bool)) {
    if calls == [] then (s, true)
    else
      var (t, ok) := Made(s, calls[..|calls| - 1]);
      if ok then Q.Apply(t, calls[|calls| - 1]) else (t, false)
  }

  /** Every call is one which the policy expects: it starts what does not run, and ends what does. */
  ghost predicate Expected(s: Q.State, calls: seq<Q.Event>) {
    forall k :: 0 <= k < |calls| && Made(s, calls[..k]).1 ==> Q.Enabled(Made(s, calls[..k]).0, calls[k])
  }

  lemma MadeAppend(s: Q.State, calls: seq<Q.Event>, e: Q.Event)
    ensures Made(s, calls + [e]) == if Made(s, calls).1 then Q.Apply(Made(s, calls).0, e) else Made(s, calls)
    ensures Expected(s, calls) && (Made(s, calls).1 ==> Q.Enabled(Made(s, calls).0, e)) ==> Expected(s, calls + [e])
  {
    assert (calls + [e])[..|calls|] == calls;
    if Expected(s, calls) && (Made(s, calls).1 ==> Q.Enabled(Made(s, calls).0, e)) {
      forall k | 0 <= k < |calls + [e]| && Made(s, (calls + [e])[..k]).1
        ensures Q.Enabled(Made(s, (calls + [e])[..k]).0, (calls + [e])[k])
      {
        if k < |calls| {
          assert (calls + [e])[..k] == calls[..k];
        }
      }
    }
  }

  lemma {:induction false} MadeOf(s: Q.State, calls: seq<Q.Event>, more: seq<Q.Event>)
    ensures Made(s, calls + more) == if Made(s, calls).1 then Made(Made(s, calls).0, more) else Made(s, calls)
    ensures Expected(s, calls) && (Made(s, calls).1 ==> Expected(Made(s, calls).0, more)) ==> Expected(s, calls + more)
    decreases |more|
  {
    hide Q.Apply, Q.Enabled, Expected;
    if more == [] {
      assert calls + more == calls;
    } else {
      var n := |more| - 1;
      assert more[..n] + [more[n]] == more;
      assert calls + more == (calls + more[..n]) + [more[n]];
      MadeOf(s, calls, more[..n]);
      MadeAppend(s, calls + more[..n], more[n]);
      ExpectedPrefix(s, calls, more, n);
    }
  }

  lemma ExpectedPrefix(s: Q.State, calls: seq<Q.Event>, more: seq<Q.Event>, n: nat)
    requires n < |more|
    ensures Expected(Made(s, calls).0, more) ==>
              && Expected(Made(s, calls).0, more[..n])
              && (Made(Made(s, calls).0, more[..n]).1 ==> Q.Enabled(Made(Made(s, calls).0, more[..n]).0, more[n]))
  {
    var t := Made(s, calls).0;
    if Expected(t, more) {
      forall k | 0 <= k < n && Made(t, more[..n][..k]).1
        ensures Q.Enabled(Made(t, more[..n][..k]).0, more[..n][k])
      {
        assert more[..n][..k] == more[..k];
      }
    }
  }

  /** The policy's list of running processes is what the table says. */
  ghost predicate Holds(s: Q.State, a: Table) {
    && Q.Inv(s)
    && (forall i :: 0 <= i < |a| && a[i].Some? ==> a[i].value.id.slice == i)
    && (forall p :: p in s.running <==> Some(p) in a)
  }

  lemma EndOne(s: Q.State, a: Table, i: nat)
    requires Holds(s, a) && i < |a| && a[i].Some?
    ensures Q.Enabled(s, Q.Ends(a[i].value))
    ensures Q.Apply(s, Q.Ends(a[i].value)).1 && Holds(Q.Apply(s, Q.Ends(a[i].value)).0, a[i := None])
  {
    var p := a[i].value;
    var b := a[i := None];
    assert Some(p) in a;
    Q.EndKeeps(s, p);
    var r := Q.Apply(s, Q.Ends(p)).0;
    forall q
      ensures q in r.running <==> Some(q) in b
    {
      if Some(q) in b {
        var j :| 0 <= j < |b| && b[j] == Some(q);
        assert a[j] == Some(q) && q.id.slice == j;
      }
      if q in r.running {
        assert Some(q) in a;
        var j :| 0 <= j < |a| && a[j] == Some(q);
        assert j != i;
        assert b[j] == Some(q);
      }
    }
  }

  lemma StartOne(s: Q.State, a: Table, i: nat, p: Q.Proc)
    requires Holds(s, a) && i < |a| && a[i].None? && p.id.slice == i
    ensures Q.Enabled(s, Q.Starts(p))
    ensures Q.Apply(s, Q.Starts(p)).1 ==> Holds(Q.Apply(s, Q.Starts(p)).0, a[i := Some(p)])
  {
    forall k | 0 <= k < |s.running|
      ensures s.running[k].id != p.id
    {
      assert s.running[k] in s.running;
      var j :| 0 <= j < |a| && a[j] == Some(s.running[k]);
    }
    if Q.Apply(s, Q.Starts(p)).1 {
      Q.StartKeeps(s, p);
      var r := Q.Apply(s, Q.Starts(p)).0;
      var b := a[i := Some(p)];
      forall q
        ensures q in r.running <==> Some(q) in b
      {
        assert b[i] == Some(p);
        if Some(q) in b {
          var j :| 0 <= j < |b| && b[j] == Some(q);
          if j != i {
            assert a[j] == Some(q);
          }
        }
        if q in s.running {
          var j :| 0 <= j < |a| && a[j] == Some(q);
          assert b[j] == Some(q);
        }
      }
    }
  }

  /** From `s` the calls are expected, and unless one finds a conflict they lead to the table. */
  ghost predicate Reaches(s: Q.State, calls: seq<Q.Event>, a: Table) {
    Expected(s, calls) && (Made(s, calls).1 ==> Holds(Made(s, calls).0, a))
  }

  lemma ReachesAtOnce(s: Q.State, a: Table)
    requires Holds(s, a)
    ensures Reaches(s, [], a)
  {
  }

  lemma ReachesEnd(s: Q.State, calls: seq<Q.Event>, a: Table, i: nat)
    requires Reaches(s, calls, a) && i < |a| && a[i].Some?
    ensures Reaches(s, calls + [Q.Ends(a[i].value)], a[i := None])
    ensures Made(s, calls).1 ==> Made(s, calls + [Q.Ends(a[i].value)]).1
  {
    hide Holds, Q.Enabled, Q.Apply, Expected;
    if Made(s, calls).1 {
      EndOne(Made(s, calls).0, a, i);
    }
    MadeAppend(s, calls, Q.Ends(a[i].value));
  }

  lemma ReachesStart(s: Q.State, calls: seq<Q.Event>, a: Table, i: nat, p: Q.Proc)
    requires Reaches(s, calls, a) && i < |a| && a[i].None? && p.id.slice == i
    ensures Reaches(s, calls + [Q.Starts(p)], a[i := Some(p)])
  {
    hide Holds, Q.Enabled, Q.Apply, Expected;
    if Made(s, calls).1 {
      StartOne(Made(s, calls).0, a, i, p);
    }
    MadeAppend(s, calls, Q.Starts(p));
  }

  /** What is left in the table when the first `k` slices have ended what they are to end. */
  function Ended(a: Table, ending: set<nat>, k: nat): (r: Table)
    requires k <= |a|
    ensures |r| == |a|
    ensures forall i :: 0 <= i < |a| ==> r[i] == if i < k && i in ending then None else a[i]
  {
    seq(|a|, i requires 0 <= i < |a| => if i < k && i in ending then None else a[i])
  }

  lemma EndedMore(a: Table, ending: set<nat>, k: nat)
    requires 0 < k <= |a|
    ensures Ended(a, ending, 0) == a
    ensures var b := Ended(a, ending, k - 1);
            && |b| == |a| && b[k - 1] == a[k - 1]
            && if k - 1 in ending && a[k - 1].Some? then
                 && b[k - 1 := None] == Ended(a, ending, k)
                 && EndCalls(a, ending, k) == EndCalls(a, ending, k - 1) + [Q.Ends(a[k - 1].value)]
               else b == Ended(a, ending, k) && EndCalls(a, ending, k) == EndCalls(a, ending, k - 1)
  {
    var b := Ended(a, ending, k - 1);
    if k - 1 in ending && a[k - 1].Some? {
      assert b[k - 1 := None] == Ended(a, ending, k);
    } else {
      assert b == Ended(a, ending, k);
    }
  }

  lemma EndedNone(s: Q.State, a: Table, ending: set<nat>)
    requires Holds(s, a)
    ensures Reaches(s, [], Ended(a, ending, 0)) && Made(s, []).1
  {
    assert Ended(a, ending, 0) == a;
  }

  lemma {:induction false} EndCallsReach(s: Q.State, a: Table, ending: set<nat>, k: nat)
    requires Holds(s, a) && k <= |a|
    ensures Reaches(s, EndCalls(a, ending, k), Ended(a, ending, k)) && Made(s, EndCalls(a, ending, k)).1
    decreases k
  {
    hide Holds, Reaches, Ended, Made;
    if k == 0 {
      EndedNone(s, a, ending);
    } else {
      EndCallsReach(s, a, ending, k - 1);
      EndedMore(a, ending, k);
      if k - 1 in ending && a[k - 1].Some? {
        ReachesEnd(s, EndCalls(a, ending, k - 1), Ended(a, ending, k - 1), k - 1);
      }
    }
  }

  /** What slice `i` goes on with is the same before and after. */
  predicate GoesOn(a: Table, b: Table, ending: set<nat>, i: nat)
    requires i < |a| == |b|
  {
    (i !in ending && a[i].Some? ==> b[i] == a[i]) && (b[i].Some? ==> b[i].value.id.slice == i)
  }

  /** The table when the first `k` slices have started what they are to start. */
  function StartedIn(a: Table, b: Table, ending: set<nat>, k: nat): (r: Table)
    requires k <= |a| == |b|
    ensures |r| == |a|
  {
    seq(|a|, i requires 0 <= i < |a| => if i < k then b[i] else Ended(a, ending, |a|)[i])
  }

  lemma StartedNone(a: Table, b: Table, ending: set<nat>)
    requires |a| == |b|
    ensures StartedIn(a, b, ending, 0) == Ended(a, ending, |a|) && StartedIn(a, b, ending, |a|) == b
  {
  }

  lemma StartedMore(a: Table, b: Table, ending: set<nat>, k: nat)
    requires 0 < k <= |a| == |b| && GoesOn(a, b, ending, k - 1)
    ensures var c := StartedIn(a, b, ending, k - 1);
            if b[k - 1].Some? && (k - 1 in ending || a[k - 1].None?) then
              && c[k - 1].None? && c[k - 1 := b[k - 1]] == StartedIn(a, b, ending, k)
              && b[k - 1].value.id.slice == k - 1
              && StartCalls(a, b, ending, k) == StartCalls(a, b, ending, k - 1) + [Q.Starts(b[k - 1].value)]
            else c == StartedIn(a, b, ending, k) && StartCalls(a, b, ending, k) == StartCalls(a, b, ending, k - 1)
  {
    var c := StartedIn(a, b, ending, k - 1);
    assert c[k - 1] == Ended(a, ending, |a|)[k - 1];
    if b[k - 1].Some? && (k - 1 in ending || a[k - 1].None?) {
      assert c[k - 1 := b[k - 1]] == StartedIn(a, b, ending, k);
    } else {
      assert c == StartedIn(a, b, ending, k);
    }
  }

  lemma {:induction false} StartCallsReach(s: Q.State, a: Table, b: Table, ending: set<nat>, k: nat)
    requires k <= |a| == |b| && Holds(s, Ended(a, ending, |a|))
    requires forall i :: 0 <= i < |a| ==> GoesOn(a, b, ending, i)
    ensures Reaches(s, StartCalls(a, b, ending, k), StartedIn(a, b, ending, k))
    decreases k
  {
    hide Holds, Reaches, GoesOn;
    if k == 0 {
      StartedNone(a, b, ending);
      ReachesAtOnce(s, StartedIn(a, b, ending, 0));
    } else {
      StartCallsReach(s, a, b, ending, k - 1);
      StartedMore(a, b, ending, k);
      if b[k - 1].Some? && (k - 1 in ending || a[k - 1].None?) {
        ReachesStart(s, StartCalls(a, b, ending, k - 1), StartedIn(a, b, ending, k - 1), k - 1, b[k - 1].value);
      }
    }
  }

  /** The calls of a change from table `a` to table `b` take the policy from one to the other. */
  lemma CallsReach(s: Q.State, a: Table, b: Table, ending: set<nat>)
    requires |a| == |b| && Holds(s, a) && forall i :: 0 <= i < |a| ==> GoesOn(a, b, ending, i)
    ensures Reaches(s, CallsOf(a, b, ending), b)
  {
    hide Holds, Q.Enabled, Q.Apply, Expected, Made, GoesOn;
    EndCallsReach(s, a, ending, |a|);
    var t := Made(s, EndCalls(a, ending, |a|)).0;
    StartCallsReach(t, a, b, ending, |a|);
    StartedNone(a, b, ending);
    MadeOf(s, EndCalls(a, ending, |a|), StartCalls(a, b, ending, |a|));
  }

  // ----- The window -----

  /** The CPUs of the slices, and which frequency each process asks for, if any. */
  datatype Setup = Setup(cpus: seq<set<nat>>, frequency: Q.Id -> Option<nat>)

  /** The process which a slice runs; its partition was given the slice's CPUs when it was reset. */
  function RunningIn(c: Setup, s: Slice, i: nat): (r: Option<Q.Proc>)
    requires Shaped(s) && i < |c.cpus|
    ensures r.Some? <==> s.running
    ensures r.Some? ==> r.value.id.slice == i && r.value.cpus == c.cpus[i]
  {
    if !s.running then None
    else
      var id := Q.Id(i, s.role.value, Current(s).cur);
      Some(Q.Proc(id, c.frequency(id), c.cpus[i]))
  }

  function TableOf(c: Setup, w: Win): (r: Table)
    requires WinShaped(w) && |c.cpus| == |w.slices|
    ensures |r| == |w.slices| && forall i :: 0 <= i < |r| ==> r[i] == RunningIn(c, w.slices[i], i)
  {
    seq(|w.slices|, i requires 0 <= i < |w.slices| => RunningIn(c, w.slices[i], i))
  }

  function Nobody(n: nat): (r: Table)
    ensures |r| == n && forall i :: 0 <= i < n ==> r[i] == None
  {
    seq(n, i => None)
  }

  /** Which slice ends its process at an event. */
  function Ending(e: Step): set<nat> {
    if e.Timeout? || e.Complete? then {e.i} else {}
  }

  /** The report of slice `m` disturbs no slice which runs. */
  lemma ScEndOthers(w: Win, m: nat, hi: nat, t: int, i: nat)
    requires WinShaped(w) && m < hi <= |w.slices| && !w.stopping && Counted(w) && i < |w.slices| && i != m
    requires forall k :: 0 <= k < hi && k != m ==> InPhase(w.slices[k], AllReported(w))
    requires forall k :: hi <= k < |w.slices| ==> !w.slices[k].running && w.slices[k].signals == 0
    requires !w.slices[m].running && w.slices[m].signals == 0
    ensures w.slices[i].running ==> ScEnd(w, m, t).slices[i] == w.slices[i]
  {
    hide ScDone, BeginBe;
    ReportCounts(w, m, hi);
    if w.finished + 1 == |w.slices| {
      ReportLast(w, m, hi);
    }
  }

  lemma ScheduleNextOthers(w: Win, m: nat, t: int, i: nat)
    requires Inv(w) && WinShaped(w) && m < |w.slices| && w.slices[m].running && i < |w.slices| && i != m
    ensures w.slices[i].running ==> ScheduleNext(w, m, t).slices[i] == w.slices[i]
  {
    hide ScDone, ScEnd, StartNextInSlice, EndInSlice, ScheduleNext, PartIn;
    var s := w.slices[m];
    var r := StartNextInSlice(EndInSlice(s, t, true), t);
    var v := w.(slices := w.slices[m := r]);
    ScheduleNextIs(w, m, t);
    EndSafe(s, t, true);
    StartNextInSliceSafe(EndInSlice(s, t, true), t);
    SignalsUpdate(w.slices, m, r);
    SignalsFull(w.slices);
    if !r.running && r.role == Some(Sc) {
      ScEndOthers(v, m, |w.slices|, t, i);
    }
  }

  /** Flags do not change who runs. */
  lemma FlagRuns(c: Setup, w: Win, m: nat, role: Role, j: nat, x: Proc)
    requires WinShaped(w) && |c.cpus| == |w.slices| && m < |w.slices| && PartOf(w.slices[m], role).Some?
    requires j < |PartOf(w.slices[m], role).value.procs|
    ensures var p := PartOf(w.slices[m], role).value;
            var s := WithPart(w.slices[m], role, p.(procs := p.procs[j := x]));
            Shaped(s) && TableOf(c, w.(slices := w.slices[m := s])) == TableOf(c, w)
  {
    var p := PartOf(w.slices[m], role).value;
    var s := WithPart(w.slices[m], role, p.(procs := p.procs[j := x]));
    assert RunningIn(c, s, m) == RunningIn(c, w.slices[m], m);
    var v := w.(slices := w.slices[m := s]);
    assert forall i :: 0 <= i < |w.slices| ==> TableOf(c, v)[i] == TableOf(c, w)[i];
  }

  /** An event ends the process of its slice, if it is a timeout or a signal passed on, and no other. */
  lemma OthersGoOn(c: Setup, w: Win, e: Step)
    requires Inv(w) && Enabled(w, e) && |c.cpus| == |w.slices|
    ensures forall i :: 0 <= i < |w.slices| ==> GoesOn(TableOf(c, w), TableOf(c, Apply(w, e)), Ending(e), i)
  {
    hide Inv, ScheduleNext, NoteAt, ExitAt, Shaped;
    match e
    case Timeout(m) =>
      forall i | 0 <= i < |w.slices| && i != m
        ensures w.slices[i].running ==> Apply(w, e).slices[i] == w.slices[i]
      {
        ScheduleNextOthers(w, m, w.slices[m].timeout, i);
      }
    case Complete(m, role, j, now) =>
      var v := NoteAt(w, m, role, j);
      NoteSafe(w, m, role, j);
      NoteRuns(c, w, m, role, j);
      forall i | 0 <= i < |w.slices| && i != m
        ensures v.slices[i].running ==> Apply(w, e).slices[i] == v.slices[i]
      {
        ScheduleNextOthers(v, m, now, i);
      }
      forall i | 0 <= i < |w.slices| && i != m && w.slices[i].running
        ensures TableOf(c, Apply(w, e))[i] == TableOf(c, w)[i]
      {
        assert TableOf(c, v)[i] == TableOf(c, w)[i];
      }
    case Note(m, role, j) => NoteRuns(c, w, m, role, j);
    case Exit(m, role, j) => ExitRuns(c, w, m, role, j);
  }

  lemma NoteRuns(c: Setup, w: Win, m: nat, role: Role, j: nat)
    requires WinShaped(w) && |c.cpus| == |w.slices| && m < |w.slices| && PartOf(w.slices[m], role).Some?
    requires j < |PartOf(w.slices[m], role).value.procs|
    ensures TableOf(c, NoteAt(w, m, role, j)) == TableOf(c, w)
  {
    FlagRuns(c, w, m, role, j, PartOf(w.slices[m], role).value.procs[j].(signalled := true));
  }

  lemma ExitRuns(c: Setup, w: Win, m: nat, role: Role, j: nat)
    requires WinShaped(w) && |c.cpus| == |w.slices| && m < |w.slices| && PartOf(w.slices[m], role).Some?
    requires j < |PartOf(w.slices[m], role).value.procs|
    ensures TableOf(c, ExitAt(w, m, role, j)) == TableOf(c, w)
  {
    FlagRuns(c, w, m, role, j, PartOf(w.slices[m], role).value.procs[j].(spawned := false));
  }

  // ----- Runs -----

  ghost predicate SameCores(s: Q.State, t: Q.State) {
    |s.clusters| == |t.clusters| && forall k :: 0 <= k < |s.clusters| ==> t.clusters[k].cores == s.clusters[k].cores
  }

  lemma ApplyKeepsCores(s: Q.State, e: Q.Event)
    requires Q.Apply(s, e).1
    ensures SameCores(s, Q.Apply(s, e).0)
  {
    if e.Starts? {
      forall k | 0 <= k < |s.clusters|
        ensures Q.Apply(s, e).0.clusters[k].cores == s.clusters[k].cores
      {
        Q.StartIs(s.clusters, e.p, k);
      }
    }
  }

  lemma {:induction false} MadeKeepsCores(s: Q.State, calls: seq<Q.Event>)
    requires Made(s, calls).1
    ensures SameCores(s, Made(s, calls).0)
    decreases |calls|
  {
    hide Q.Apply;
    if calls != [] {
      MadeKeepsCores(s, calls[..|calls| - 1]);
      ApplyKeepsCores(Made(s, calls[..|calls| - 1]).0, calls[|calls| - 1]);
    }
  }

  /** The policy is told of a change of the running processes, and finds no conflict. */
  ghost predicate Told(s: Q.State, a: Table, b: Table, ending: set<nat>, t: Q.State)
    requires |a| == |b|
  {
    Made(s, CallsOf(a, b, ending)) == (t, true)
  }

  ghost predicate Sized(c: Setup, w: Win) {
    WinShaped(w) && |c.cpus| == |w.slices|
  }

  /** A run of a window and the policy beside it, before whose start nobody ran. */
  ghost predicate PolicyRun(c: Setup, w0: Win, t: int, steps: seq<Step>, states: seq<Win>, before: Q.State, policy: seq<Q.State>) {
    && IsRun(w0, t, steps, states) && |policy| == |states| && Holds(before, Nobody(|c.cpus|))
    && (forall k :: 0 <= k < |states| ==> Sized(c, states[k]))
    && Told(before, Nobody(|c.cpus|), TableOf(c, states[0]), {}, policy[0])
    && forall k :: 0 <= k < |steps| ==>
         Told(policy[k], TableOf(c, states[k]), TableOf(c, states[k + 1]), Ending(steps[k]), policy[k + 1])
  }

  lemma ToldHolds(s: Q.State, a: Table, b: Table, ending: set<nat>, t: Q.State)
    requires |a| == |b| && Holds(s, a) && forall i :: 0 <= i < |a| ==> GoesOn(a, b, ending, i)
    ensures Expected(s, CallsOf(a, b, ending))
    ensures Told(s, a, b, ending, t) ==> Holds(t, b) && SameCores(s, t)
  {
    hide Holds, GoesOn, Expected, Made, SameCores;
    CallsReach(s, a, b, ending);
    if Told(s, a, b, ending, t) {
      MadeKeepsCores(s, CallsOf(a, b, ending));
    }
  }

  /**
   * The locks of a cluster are exactly the running processes of the slices whose CPUs meet it and
   * which ask for a frequency, in every state of a window; they agree on the one last written.
   */
  lemma {:induction false} LocksFollowSchedule(c: Setup, w0: Win, t: int, steps: seq<Step>, states: seq<Win>,
        before: Q.State, policy: seq<Q.State>, k: nat)
    requires PolicyRun(c, w0, t, steps, states, before, policy) && k <= |steps|
    ensures Sized(c, states[k]) && Holds(policy[k], TableOf(c, states[k])) && SameCores(before, policy[k])
    ensures LocksAre(c, states[k], policy[k])
    decreases k
  {
    hide Holds, GoesOn, Told, SameCores, IsRun, RunningIn, Inv, PolicyRun, LocksAre, Enabled, Apply, Sized;
    PolicyRunMeans(c, w0, t, steps, states, before, policy, k);
    if k == 0 {
      FromNobody(TableOf(c, states[0]));
      ToldHolds(before, Nobody(|c.cpus|), TableOf(c, states[0]), {}, policy[0]);
    } else {
      LocksFollowSchedule(c, w0, t, steps, states, before, policy, k - 1);
      PolicyRunMeans(c, w0, t, steps, states, before, policy, k - 1);
      OthersGoOn(c, states[k - 1], steps[k - 1]);
      ToldHolds(policy[k - 1], TableOf(c, states[k - 1]), TableOf(c, states[k]), Ending(steps[k - 1]), policy[k]);
      CoresAgain(before, policy[k - 1], policy[k]);
    }
    HoldsLocks(c, states[k], policy[k]);
  }

  lemma PolicyRunMeans(c: Setup, w0: Win, t: int, steps: seq<Step>, states: seq<Win>, before: Q.State, policy: seq<Q.State>, k: nat)
    requires PolicyRun(c, w0, t, steps, states, before, policy) && k <= |steps|
    ensures |policy| == |states| == |steps| + 1 && Holds(before, Nobody(|c.cpus|))
    ensures Inv(states[k]) && Sized(c, states[k]) && WinShaped(states[k]) && |c.cpus| == |states[k].slices|
    ensures k == 0 ==> Told(before, Nobody(|c.cpus|), TableOf(c, states[0]), {}, policy[0])
    ensures k < |steps| ==>
              && Enabled(states[k], steps[k]) && states[k + 1] == Apply(states[k], steps[k])
              && Told(policy[k], TableOf(c, states[k]), TableOf(c, states[k + 1]), Ending(steps[k]), policy[k + 1])
  {
    hide Holds, Told, RunningIn, Inv, Idle, Start, Apply, Enabled;
    RunKeepsInv(w0, t, steps, states, k);
  }

  /** Some slice runs the process. */
  ghost predicate IsRunning(c: Setup, w: Win, x: Q.Proc)
    requires Sized(c, w)
  {
    exists i :: 0 <= i < |c.cpus| && RunningIn(c, w.slices[i], i) == Some(x)
  }

  /** The locks of each cluster are those of the running processes of the slices, and agree. */
  ghost predicate LocksAre(c: Setup, w: Win, s: Q.State)
    requires Sized(c, w)
  {
    && (forall m, x :: 0 <= m < |s.clusters| ==>
          (x in s.clusters[m].requesting <==> IsRunning(c, w, x) && Q.Locks(x, s.clusters[m].cores)))
    && forall m :: 0 <= m < |s.clusters| ==> Q.Agreed(s.clusters[m])
  }

  lemma HoldsLocks(c: Setup, w: Win, s: Q.State)
    requires Sized(c, w) && Holds(s, TableOf(c, w))
    ensures LocksAre(c, w, s)
  {
    hide Holds, RunningIn, IsRunning, Q.Agreed, Q.Locks;
    HoldsMeans(s, TableOf(c, w));
    TableMeans(c, w);
  }

  lemma FromNobody(b: Table)
    requires forall i :: 0 <= i < |b| && b[i].Some? ==> b[i].value.id.slice == i
    ensures forall i :: 0 <= i < |b| ==> GoesOn(Nobody(|b|), b, {}, i)
  {
  }

  lemma CoresAgain(s: Q.State, t: Q.State, u: Q.State)
    requires SameCores(s, t) && SameCores(t, u)
    ensures SameCores(s, u)
  {
  }

  lemma HoldsMeans(s: Q.State, a: Table)
    requires Holds(s, a)
    ensures forall m, x :: 0 <= m < |s.clusters| ==>
              (x in s.clusters[m].requesting <==> Some(x) in a && Q.Locks(x, s.clusters[m].cores))
    ensures forall m :: 0 <= m < |s.clusters| ==> Q.Agreed(s.clusters[m])
  {
    hide Q.Locks, Q.Agreed;
  }

  lemma TableMeans(c: Setup, w: Win)
    requires Sized(c, w)
    ensures forall x :: Some(x) in TableOf(c, w) <==> IsRunning(c, w, x)
  {
    hide RunningIn;
    var a := TableOf(c, w);
    forall x
      ensures Some(x) in a <==> IsRunning(c, w, x)
    {
      if i :| 0 <= i < |c.cpus| && RunningIn(c, w.slices[i], i) == Some(x) {
        assert a[i] == Some(x);
      }
    }
  }

  /** Whatever conflicts there are: every call which an event leads to is one which the policy expects. */
  lemma CallsAreExpected(c: Setup, w: Win, e: Step, s: Q.State)
    requires Inv(w) && Enabled(w, e) && Sized(c, w) && Holds(s, TableOf(c, w))
    ensures Expected(s, CallsOf(TableOf(c, w), TableOf(c, Apply(w, e)), Ending(e)))
  {
    hide Holds, GoesOn, Told, SameCores, RunningIn, Inv, Expected;
    OthersGoOn(c, w, e);
    ToldHolds(s, TableOf(c, w), TableOf(c, Apply(w, e)), Ending(e), s);
  }

  function Everybody(n: nat): (r: set<nat>)
    ensures forall i :: 0 <= i < n ==> i in r
  {
    if n == 0 then {} else Everybody(n - 1) + {n - 1}
  }

  lemma {:induction false} NoStarts(a: Table, ending: set<nat>, k: nat)
    requires k <= |a|
    ensures StartCalls(a, Nobody(|a|), ending, k) == []
  {
    if k > 0 {
      NoStarts(a, ending, k - 1);
    }
  }

  /** The end of a window gives all locks back, so that the next one finds the policy as this one did. */
  lemma StopReleases(c: Setup, w: Win, t: int, s: Q.State)
    requires Inv(w) && Sized(c, w) && Holds(s, TableOf(c, w))
    requires forall k :: 0 <= k < |w.slices| ==> StopFits(w.slices[k], t)
    ensures Sized(c, Stop(w, t)) && TableOf(c, Stop(w, t)) == Nobody(|c.cpus|)
    ensures var (r, ok) := Made(s, CallsOf(TableOf(c, w), Nobody(|c.cpus|), Everybody(|c.cpus|)));
            ok && Holds(r, Nobody(|c.cpus|)) && r.running == []
  {
    hide Holds, Expected, SameCores, Inv, Stop, StopFits, SliceOk, ScDone, Made;
    StopSafe(w, t);
    var a, n := TableOf(c, w), |c.cpus|;
    assert TableOf(c, Stop(w, t)) == Nobody(n);
    EndCallsReach(s, a, Everybody(n), n);
    assert Ended(a, Everybody(n), n) == Nobody(n);
    NoStarts(a, Everybody(n), n);
    assert CallsOf(a, Nobody(n), Everybody(n)) == EndCalls(a, Everybody(n), n);
    NobodyRuns(Made(s, CallsOf(a, Nobody(n), Everybody(n))).0, n);
  }

  lemma NobodyRuns(s: Q.State, n: nat)
    ensures Holds(s, Nobody(n)) ==> s.running == []
  {
    if Holds(s, Nobody(n)) {
      assert forall x :: x in s.running ==> Some(x) in Nobody(n);
      HasMember(s.running);
    }
  }

  lemma HasMember(s: seq<Q.Proc>)
    ensures s != [] ==> exists x :: x in s
  {
    if s != [] {
      assert s[0] in s;
    }
  }

  /** A start is refused iff a slice runs a process which asks for another frequency of a common cluster. */
  lemma RefusedIff(s: Q.State, a: Table, p: Q.Proc)
    requires Holds(s, a) && Q.Enabled(s, Q.Starts(p))
    ensures !Q.Apply(s, Q.Starts(p)).1 <==>
            exists m, i :: 0 <= m < |s.clusters| && 0 <= i < |a| && a[i].Some? && Q.Clash(s.clusters[m].cores, p, a[i].value)
  {
    Q.StartFails(s.clusters, p);
    if m :| 0 <= m < |s.clusters| && Q.Conflicts(s.clusters[m], p) {
      var x := s.clusters[m].requesting[0];
      assert x in s.running && Some(x) in a;
      var i :| 0 <= i < |a| && a[i] == Some(x);
      assert Q.Agreed(s.clusters[m]) && Q.Clash(s.clusters[m].cores, p, a[i].value);
    }
    if m, i :| 0 <= m < |s.clusters| && 0 <= i < |a| && a[i].Some? && Q.Clash(s.clusters[m].cores, p, a[i].value) {
      var l := s.clusters[m];
      assert Some(a[i].value) in a && a[i].value in l.requesting && Q.Agreed(l);
      assert l.requesting[0].frequency == l.frequency;
      assert Q.Conflicts(l, p);
    }
  }
}
