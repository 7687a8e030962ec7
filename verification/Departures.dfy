/**
 * A process which has ended is never started again: not in the window in which it ended, and in no
 * later one.
 */
module Departures {
  import opened Options
  import opened Model
  import opened Phases
  import opened Conservation
  import opened Frame
  import opened ScheduleBooks
  import opened Effects

  /** The history of `p` goes on in `q`, in which only processes alive in `p` were started; none is reborn. */
  ghost predicate Follows(p: Part, q: Part) {
    StartsAlive(p, q) && StayDead(p, q)
  }

  ghost predicate PartsFollow(p: Option<Part>, q: Option<Part>) {
    p.Some? == q.Some? && (p.Some? ==> Follows(p.value, q.value))
  }

  ghost predicate SliceFollows(s: Slice, u: Slice) {
    PartsFollow(s.sc, u.sc) && PartsFollow(s.be, u.be)
  }

  ghost predicate WinFollows(w: Win, v: Win) {
    |w.slices| == |v.slices| && forall i :: 0 <= i < |w.slices| ==> SliceFollows(w.slices[i], v.slices[i])
  }

  lemma FollowsItself(p: Part)
    ensures Follows(p, p)
  {
    assert p.log[..|p.log|] == p.log;
  }

  lemma FollowsOn(p: Part, q: Part, r: Part)
    requires Follows(p, q) && Follows(q, r)
    ensures Follows(p, r)
  {
    assert r.log[..|p.log|] == r.log[..|q.log|][..|p.log|];
    forall x | |p.log| <= x < |r.log| && r.log[x].Started?
      ensures r.log[x].proc < |p.procs| && p.procs[r.log[x].proc].spawned
    {
      if x < |q.log| {
        assert r.log[x] == r.log[..|q.log|][x];
      }
    }
  }

  lemma SliceItself(s: Slice, u: Slice)
    requires u.sc == s.sc && u.be == s.be
    ensures SliceFollows(s, u)
  {
    if s.sc.Some? {
      FollowsItself(s.sc.value);
    }
    if s.be.Some? {
      FollowsItself(s.be.value);
    }
  }

  lemma SliceOn(s: Slice, u: Slice, v: Slice)
    requires SliceFollows(s, u) && SliceFollows(u, v)
    ensures SliceFollows(s, v)
  {
    hide Follows;
    if s.sc.Some? {
      FollowsOn(s.sc.value, u.sc.value, v.sc.value);
    }
    if s.be.Some? {
      FollowsOn(s.be.value, u.be.value, v.be.value);
    }
  }

  lemma WinOn(w: Win, u: Win, v: Win)
    requires WinFollows(w, u) && WinFollows(u, v)
    ensures WinFollows(w, v)
  {
    hide SliceFollows;
    forall i | 0 <= i < |w.slices|
      ensures SliceFollows(w.slices[i], v.slices[i])
    {
      SliceOn(w.slices[i], u.slices[i], v.slices[i]);
    }
  }

  // ----- What happens in a window -----

  lemma ClearedFollows(p: Part, role: Role, t: int, q: Part, due: Option<int>)
    requires ClearsAndStarts(p, role, t, q, due)
    ensures Follows(p, q)
  {
    hide StartsFirst;
    var e :| Cleared(p, role == Sc, e) && StartsFirst(e, role, t, q, due);
    StartsFirstMeans(e, role, t, q, due);
  }

  lemma LaunchFollows(s: Slice, u: Slice, t: int)
    requires LaunchedIn(s, u, t)
    ensures SliceFollows(s, u)
  {
    hide ClearsAndStarts, Follows;
    SliceItself(s, s);
    if s.be.Some? {
      var due :| RunsUntil(u, due) && ClearsAndStarts(s.be.value, Be, t, u.be.value, due);
      ClearedFollows(s.be.value, Be, t, u.be.value, due);
    }
  }

  lemma ReportFollows(w: Win, i: nat, s: Slice, v: Win, t: int)
    requires Reports(w, i, s, v, t) && SliceFollows(w.slices[i], s)
    ensures WinFollows(w, v)
  {
    hide LaunchedIn, SliceFollows;
    var y := s.(signals := s.signals + 1);
    SliceItself(s, y);
    SliceOn(w.slices[i], s, y);
    forall m | 0 <= m < |w.slices|
      ensures SliceFollows(w.slices[m], v.slices[m])
    {
      SliceItself(w.slices[m], w.slices[m]);
      if v.finished == |w.slices| {
        assert LaunchedIn(if m == i then y else w.slices[m], v.slices[m], t);
        LaunchFollows(if m == i then y else w.slices[m], v.slices[m], t);
        if m == i {
          SliceOn(w.slices[i], y, v.slices[i]);
        }
      }
    }
  }

  lemma MovedFollows(s: Slice, u: Slice, t: int, due: Option<int>)
    requires s.role.Some? && PartOf(s, s.role.value).Some? && MovedSlice(s, u, t, due)
    ensures SliceFollows(s, u)
  {
    hide EndsAndStarts, StartsAlive, StayDead;
    var role := s.role.value;
    assert role == Sc || role == Be;
    EndsMeans(PartOf(s, role).value, role, t, PartOf(u, role).value, due);
    SliceItself(s, s);
  }

  lemma OneFollows(w: Win, i: nat, u: Slice)
    requires i < |w.slices| && SliceFollows(w.slices[i], u)
    ensures WinFollows(w, w.(slices := w.slices[i := u]))
  {
    hide SliceFollows;
    forall m | 0 <= m < |w.slices|
      ensures SliceFollows(w.slices[m], w.slices[i := u][m])
    {
      SliceItself(w.slices[m], w.slices[m]);
    }
  }

  lemma MovesFollow(w: Win, i: nat, s: Slice, v: Win, t: int)
    requires MovesOn(w, i, s, v, t) && SliceFollows(w.slices[i], s)
    ensures WinFollows(w, v)
  {
    hide MovedSlice, Reports, SliceFollows, WinFollows;
    var u, due :| MovedSlice(s, u, t, due) &&
                  if due.None? && s.role == Some(Sc) then Reports(w, i, u, v, t) else v == w.(slices := w.slices[i := u]);
    MovedFollows(s, u, t, due);
    SliceOn(w.slices[i], s, u);
    if due.None? && s.role == Some(Sc) {
      ReportFollows(w, i, u, v, t);
    } else {
      OneFollows(w, i, u);
    }
  }

  lemma FlagFollows(s: Slice, r: Role, j: nat, x: Proc)
    requires PartOf(s, r).Some? && j < |PartOf(s, r).value.procs|
    requires x.spawned ==> PartOf(s, r).value.procs[j].spawned
    ensures SliceFollows(s, WithProc(s, r, j, x))
  {
    hide StartsAlive;
    var p := PartOf(s, r).value;
    var q := p.(procs := p.procs[j := x]);
    FlagAlive(p, j, x);
    SliceItself(s, s);
    assert r == Sc || r == Be;
  }

  lemma FlagAlive(p: Part, j: nat, x: Proc)
    requires j < |p.procs|
    ensures StartsAlive(p, p.(procs := p.procs[j := x]))
  {
    assert p.log[..|p.log|] == p.log;
  }

  lemma EventFollows(w: Win, e: Step, v: Win)
    requires Enabled(w, e) && Becomes(w, e, v)
    ensures WinFollows(w, v)
  {
    hide MovesOn, SliceFollows, WinFollows, Shaped, WithProc;
    match e
    case Timeout(i) =>
      SliceItself(w.slices[i], w.slices[i]);
      MovesFollow(w, i, w.slices[i], v, w.slices[i].timeout);
    case Complete(i, r, j, now) =>
      FlagFollows(w.slices[i], r, j, PartOf(w.slices[i], r).value.procs[j].(signalled := true));
      MovesFollow(w, i, Signalled(w.slices[i], r, j), v, now);
    case Note(i, r, j) =>
      FlagFollows(w.slices[i], r, j, PartOf(w.slices[i], r).value.procs[j].(signalled := true));
      OneFollows(w, i, Signalled(w.slices[i], r, j));
    case Exit(i, r, j) =>
      FlagFollows(w.slices[i], r, j, PartOf(w.slices[i], r).value.procs[j].(spawned := false));
      OneFollows(w, i, Gone(w.slices[i], r, j));
  }

  lemma {:induction false} RunFollows(w0: Win, t0: int, steps: seq<Step>, states: seq<Win>, k: nat, n: nat)
    requires IsRun(w0, t0, steps, states) && k <= n <= |steps|
    ensures |states| == |steps| + 1 && WinFollows(states[k], states[n])
    decreases n
  {
    hide Becomes, Enabled, Apply, Start, Idle, WinFollows;
    if k == n {
      WinItself(states[k]);
    } else {
      RunFollows(w0, t0, steps, states, k, n - 1);
      EventEffect(w0, t0, steps, states, n - 1);
      EventFollows(states[n - 1], steps[n - 1], states[n]);
      WinOn(states[k], states[n - 1], states[n]);
    }
  }

  lemma WinItself(w: Win)
    ensures WinFollows(w, w)
  {
    hide SliceFollows;
    forall i | 0 <= i < |w.slices|
      ensures SliceFollows(w.slices[i], w.slices[i])
    {
      SliceItself(w.slices[i], w.slices[i]);
    }
  }

  lemma OpenFollows(s: Slice, u: Slice, t: int)
    requires OpenedIn(s, u, t)
    ensures SliceFollows(s, u)
  {
    hide ClearsAndStarts, Follows;
    SliceItself(s, s);
    if s.sc.Some? {
      var due :| RunsUntil(u, due) && ClearsAndStarts(s.sc.value, Sc, t, u.sc.value, due) && u.signals == (if due.None? then 1 else 0);
      ClearedFollows(s.sc.value, Sc, t, u.sc.value, due);
    }
  }

  lemma StartFollows(w: Win, t: int)
    requires Idle(w)
    ensures WinShaped(w) && WinFollows(w, Start(w, t))
  {
    hide OpenedIn, LaunchedIn, SliceFollows, Idle, Start;
    StartOpens(w, t);
    var v := Start(w, t);
    var mid: seq<Slice> :| OpensBy(w, mid, v, t);
    forall m | 0 <= m < |w.slices|
      ensures SliceFollows(w.slices[m], v.slices[m])
    {
      OpenFollows(w.slices[m], mid[m], t);
      if |mid| > 0 && forall m :: 0 <= m < |mid| ==> mid[m].signals == 1 {
        LaunchFollows(mid[m], v.slices[m], t);
        SliceOn(w.slices[m], mid[m], v.slices[m]);
      }
    }
  }

  lemma StopSliceFollows(s: Slice, u: Slice, t: int)
    requires StopsIn(s, u, t) && (s.sc.Some? <==> u.sc.Some?) && (s.be.Some? <==> u.be.Some?)
    ensures SliceFollows(s, u)
  {
    hide Pending, Follows;
    SliceItself(s, s);
    if s.running {
      var role := s.role.value;
      assert role == Sc || role == Be;
      var p, q := PartOf(s, role).value, PartOf(u, role).value;
      if TruncMs(s.timeout - t) == 0 {
        var e :| EndsCurrent(p, role, t, e) && Seeks(e, q);
        LogFollows(p, q, Ended(t, role, p.cur, true));
      } else {
        LogFollows(p, q, Ended(t, role, p.cur, false));
      }
    }
  }

  lemma LogFollows(p: Part, q: Part, e: Event)
    requires q.log == p.log + [e] && e.Ended? && |q.procs| == |p.procs|
    requires forall j :: 0 <= j < |p.procs| ==> q.procs[j].spawned == p.procs[j].spawned
    ensures Follows(p, q)
  {
    assert q.log[..|p.log|] == p.log;
  }

  lemma StopFollows(w0: Win, t0: int, steps: seq<Step>, states: seq<Win>, t: int)
    requires IsRun(w0, t0, steps, states)
    ensures WinShaped(states[|steps|]) && WinFollows(states[|steps|], Stop(states[|steps|], t))
  {
    hide StopsIn, Stop, SliceFollows, Start, Apply, Enabled, Idle;
    StopEffect(w0, t0, steps, states, |steps|, t);
    var w := states[|steps|];
    forall m | 0 <= m < |w.slices|
      ensures SliceFollows(w.slices[m], Stop(w, t).slices[m])
    {
      StopsShape(w.slices[m], Stop(w, t).slices[m], t);
      StopSliceFollows(w.slices[m], Stop(w, t).slices[m], t);
    }
  }

  lemma StopsShape(s: Slice, u: Slice, t: int)
    requires StopsIn(s, u, t)
    ensures (s.sc.Some? <==> u.sc.Some?) && (s.be.Some? <==> u.be.Some?)
  {
    hide EndsCurrent, Seeks, CutsCurrent;
    if s.running {
      assert s.role == Some(Sc) || s.role == Some(Be);
    }
  }

  /** What a process which has ended stands for: none of its starts is in `q` beyond what is in `p`. */
  ghost predicate GoneFrom(p: Part, j: nat, q: Part) {
    && |p.log| <= |q.log| && q.log[..|p.log|] == p.log
    && j < |q.procs| && !q.procs[j].spawned
    && forall x :: |p.log| <= x < |q.log| && q.log[x].Started? ==> q.log[x].proc != j
  }

  lemma FollowsGone(p: Part, q: Part, j: nat)
    requires Follows(p, q) && j < |p.procs| && !p.procs[j].spawned
    ensures GoneFrom(p, j, q)
  {
  }

  lemma GoneSlice(s: Slice, u: Slice, r: Role, j: nat)
    requires SliceFollows(s, u) && PartOf(s, r).Some? && j < |PartOf(s, r).value.procs| && !PartOf(s, r).value.procs[j].spawned
    ensures PartOf(u, r).Some? && GoneFrom(PartOf(s, r).value, j, PartOf(u, r).value)
  {
    assert r == Sc || r == Be;
    FollowsGone(PartOf(s, r).value, PartOf(u, r).value, j);
  }

  lemma ExitLog(w0: Win, t0: int, steps: seq<Step>, states: seq<Win>, m: nat)
    requires IsRun(w0, t0, steps, states) && m < |steps| && steps[m].Exit?
    ensures var e, w, v := steps[m], states[m], states[m + 1];
            && e.i < |w.slices| == |v.slices| && PartOf(w.slices[e.i], e.role).Some? && PartOf(v.slices[e.i], e.role).Some?
            && var p, q := PartOf(w.slices[e.i], e.role).value, PartOf(v.slices[e.i], e.role).value;
               q.log == p.log && e.proc < |q.procs| && !q.procs[e.proc].spawned
  {
    hide IsRun;
    ExitEffect(w0, t0, steps, states, m);
    var e := steps[m];
    assert e.role == Sc || e.role == Be;
  }

  /** In the window in which a process ends, it is never started after its end. */
  lemma NoStartAfterExit(w0: Win, t0: int, steps: seq<Step>, states: seq<Win>, m: nat, n: nat)
    requires IsRun(w0, t0, steps, states) && m < n <= |steps| && steps[m].Exit?
    ensures var e, w, v := steps[m], states[m], states[n];
            && e.i < |w.slices| == |v.slices| && PartOf(w.slices[e.i], e.role).Some? && PartOf(v.slices[e.i], e.role).Some?
            && GoneFrom(PartOf(w.slices[e.i], e.role).value, e.proc, PartOf(v.slices[e.i], e.role).value)
  {
    hide IsRun, SliceFollows, GoneFrom, PartOf;
    var e := steps[m];
    RunFollows(w0, t0, steps, states, m + 1, n);
    ExitLog(w0, t0, steps, states, m);
    SlicesFollow(states[m + 1], states[n], e.i);
    GoneSlice(states[m + 1].slices[e.i], states[n].slices[e.i], e.role, e.proc);
    GoneAlike(PartOf(states[m + 1].slices[e.i], e.role).value, PartOf(states[m].slices[e.i], e.role).value, e.proc,
              PartOf(states[n].slices[e.i], e.role).value);
  }

  lemma SlicesFollow(w: Win, v: Win, i: nat)
    requires WinFollows(w, v) && i < |w.slices|
    ensures |v.slices| == |w.slices| && SliceFollows(w.slices[i], v.slices[i])
  {
  }

  lemma GoneAlike(p: Part, a: Part, j: nat, q: Part)
    requires GoneFrom(p, j, q) && a.log == p.log
    ensures GoneFrom(a, j, q)
  {
  }

  // ----- From window to window -----

  ghost predicate AllFollow(parts: seq<Part>, after: seq<Part>) {
    |parts| == |after| && forall p :: 0 <= p < |parts| ==> Follows(parts[p], after[p])
  }

  lemma FlagsFollow(p: Part, q: Part)
    requires FlagsOnly(p, q)
    ensures Follows(p, q)
  {
    assert q.log[..|p.log|] == p.log;
  }

  lemma WindowFollows(w0: Win, t0: int, steps: seq<Step>, states: seq<Win>, t: int)
    requires IsRun(w0, t0, steps, states) && WinShaped(states[|steps|])
    ensures WinFollows(w0, Stop(states[|steps|], t))
    ensures forall m :: 0 <= m <= |steps| ==> WinFollows(states[m], Stop(states[|steps|], t))
  {
    hide WinFollows, WinShaped, Stop, Start, Apply, Enabled, Idle;
    StopFollows(w0, t0, steps, states, t);
    forall m | 0 <= m <= |steps|
      ensures WinFollows(states[m], Stop(states[|steps|], t))
    {
      RunFollows(w0, t0, steps, states, m, |steps|);
      WinOn(states[m], states[|steps|], Stop(states[|steps|], t));
    }
    StartFollows(w0, t0);
    WinOn(w0, states[0], Stop(states[|steps|], t));
  }

  lemma UsedFollows(cfg: WinCfg, parts: seq<Part>, after: seq<Part>, w: Win, v: Win, p: nat, r: Role, i: nat)
    requires WinCfgOk(cfg, |parts|) && |after| == |parts| && p < |parts| && UsedAs(cfg, p, r, i)
    requires Wired(w, cfg, parts) && Wired(v, cfg, after) && WinFollows(w, v)
    ensures Follows(parts[p], after[p])
  {
    hide Follows, WinCfgOk;
    assert r == Sc || r == Be;
    assert SliceFollows(w.slices[i], v.slices[i]);
  }

  lemma PlayFollows(cfg: WinCfg, parts: seq<Part>, after: seq<Part>, from: int, run: EventRun, c: Clock)
    requires Plays(cfg, parts, after, from, run, c)
    ensures AllFollow(parts, after)
    ensures forall m :: 0 <= m <= |run.steps| ==> WinFollows(run.states[m], run.after)
  {
    hide Follows, FlagsOnly, Wired, WinFollows, WinShaped, Stop, Start, Apply, Enabled, Idle, UsedAs, StepsInTime, NotOverdue, WinCfgOk;
    WindowFollows(run.before, from, run.steps, run.states, c.end);
    forall p | 0 <= p < |parts|
      ensures Follows(parts[p], after[p])
    {
      if r, i: nat :| UsedAs(cfg, p, r, i) {
        UsedFollows(cfg, parts, after, run.before, run.after, p, r, i);
      } else {
        NeverUsed(cfg, p);
        FlagsFollow(parts[p], after[p]);
      }
    }
  }

  lemma NeverUsed(cfg: WinCfg, p: nat)
    requires forall r, i: nat :: !UsedAs(cfg, p, r, i)
    ensures Unused(cfg, p)
  {
    forall r, i
      ensures !UsedAs(cfg, p, r, i)
    {
      if i >= 0 {
        var n: nat := i;
        assert !UsedAs(cfg, p, r, n);
      }
    }
  }

  lemma {:induction false} ScheduleGoesOn(cfg: seq<WinCfg>, t0: int, parts: seq<seq<Part>>, runs: seq<EventRun>, exact: bool, k: nat, n: nat)
    requires EventfulRun(cfg, t0, parts, runs, exact) && k <= n <= |runs|
    ensures AllFollow(parts[k], parts[n])
    decreases n
  {
    hide Plays, Follows, WindowStart, CfgOk;
    if k == n {
      forall p | 0 <= p < |parts[k]|
        ensures Follows(parts[k][p], parts[k][p])
      {
        FollowsItself(parts[k][p]);
      }
    } else {
      ScheduleGoesOn(cfg, t0, parts, runs, exact, k, n - 1);
      PlayFollows(cfg[WindowAt(|cfg|, n - 1)], parts[n - 1], parts[n], WindowStart(cfg, t0, n - 1), runs[n - 1],
                  ClockOf(exact, t0, WindowStart(cfg, t0, n)));
      forall p | 0 <= p < |parts[k]|
        ensures Follows(parts[k][p], parts[n][p])
      {
        FollowsOn(parts[k][p], parts[n - 1][p], parts[n][p]);
      }
    }
  }

  /** Who is not alive at a change of window is never started from there on, in whichever window it ended. */
  lemma NeverReturns(cfg: seq<WinCfg>, t0: int, parts: seq<seq<Part>>, runs: seq<EventRun>, exact: bool, k: nat, n: nat, p: nat, j: nat)
    requires EventfulRun(cfg, t0, parts, runs, exact) && k <= n <= |runs|
    requires p < |parts[k]| && j < |parts[k][p].procs| && !parts[k][p].procs[j].spawned
    ensures p < |parts[n]| && GoneFrom(parts[k][p], j, parts[n][p])
  {
    hide Plays, Follows, WindowStart, CfgOk;
    ScheduleGoesOn(cfg, t0, parts, runs, exact, k, n);
    FollowsGone(parts[k][p], parts[n][p], j);
  }

  lemma ExitFollows(cfg: WinCfg, parts: seq<Part>, after: seq<Part>, from: int, run: EventRun, c: Clock, m: nat, p: nat)
    requires Plays(cfg, parts, after, from, run, c) && |run.states| == |run.steps| + 1
    requires m < |run.steps| && run.steps[m].Exit? && UsedAs(cfg, p, run.steps[m].role, run.steps[m].i)
    ensures var e, w, v := run.steps[m], run.states[m], run.states[m + 1];
            && e.i < |w.slices| == |v.slices| && PartOf(w.slices[e.i], e.role).Some? && PartOf(v.slices[e.i], e.role).Some?
            && p < |after|
            && var a, b := PartOf(w.slices[e.i], e.role).value, PartOf(v.slices[e.i], e.role).value;
               b.log == a.log && e.proc < |b.procs| && !b.procs[e.proc].spawned && Follows(b, after[p])
  {
    hide Follows, FlagsOnly, WinShaped, IsRun, Stop, StepsInTime, NotOverdue, SliceFollows;
    PlaysMeans(cfg, parts, after, from, run, c);
    PlayFollows(cfg, parts, after, from, run, c);
    ExitLog(run.before, from, run.steps, run.states, m);
    var e := run.steps[m];
    SlicesFollow(run.states[m + 1], run.after, e.i);
    PartFollows(run.states[m + 1].slices[e.i], run.after.slices[e.i], e.role);
  }

  lemma PartFollows(s: Slice, u: Slice, r: Role)
    requires SliceFollows(s, u) && PartOf(s, r).Some?
    ensures PartOf(u, r).Some? && Follows(PartOf(s, r).value, PartOf(u, r).value)
  {
    hide Follows;
    assert r == Sc || r == Be;
  }

  /** And a process which ends in a window is never started after its end, in that window or in any later one. */
  lemma NoStartAfterDeparture(cfg: seq<WinCfg>, t0: int, parts: seq<seq<Part>>, runs: seq<EventRun>, exact: bool, k: nat, m: nat, n: nat, p: nat)
    requires EventfulRun(cfg, t0, parts, runs, exact) && k < n <= |runs|
    requires m < |runs[k].steps| && m < |runs[k].states| && runs[k].steps[m].Exit?
    requires UsedAs(cfg[WindowAt(|cfg|, k)], p, runs[k].steps[m].role, runs[k].steps[m].i)
    ensures var e, w := runs[k].steps[m], runs[k].states[m];
            && e.i < |w.slices| && PartOf(w.slices[e.i], e.role).Some? && p < |parts[n]|
            && GoneFrom(PartOf(w.slices[e.i], e.role).value, e.proc, parts[n][p])
  {
    hide Plays, Follows, WindowStart, CfgOk, GoneFrom, UsedAs, PartOf;
    var e := runs[k].steps[m];
    var c := ClockOf(exact, t0, WindowStart(cfg, t0, k + 1));
    PlaysMeans(cfg[WindowAt(|cfg|, k)], parts[k], parts[k + 1], WindowStart(cfg, t0, k), runs[k], c);
    ExitFollows(cfg[WindowAt(|cfg|, k)], parts[k], parts[k + 1], WindowStart(cfg, t0, k), runs[k], c, m, p);
    ScheduleGoesOn(cfg, t0, parts, runs, exact, k + 1, n);
    var a, b := PartOf(runs[k].states[m].slices[e.i], e.role).value, PartOf(runs[k].states[m + 1].slices[e.i], e.role).value;
    FollowsOn(b, parts[k + 1][p], parts[n][p]);
    FollowsGone(b, parts[n][p], e.proc);
    GoneAlike(b, a, e.proc, parts[n][p]);
  }
}
