/**
 * What every event does to a window, told on the fields of its slices and processes: which process
 * ends, which one runs next and until when, who reports, and what becomes of flags.
 */
module Effects {
  import opened Options
  import opened Model
  import opened Phases
  import opened TimeTable
  import opened ClosedForm
  import opened Jitter

  // ----- Which process is started -----

  /** The process is alive, has not been through, and gets some time. */
  ghost predicate Up(x: Proc) {
    x.spawned && !x.completed && Share(x, Drawn) != 0
  }

  /** The `k`-th process from the cursor on is the first one which is up. */
  ghost predicate FirstUp(p: Part, k: nat) {
    && p.cur < |p.procs| && k < |p.procs| && Up(At(p, p.cur, k))
    && forall m :: 0 <= m < k ==> !Up(At(p, p.cur, m))
  }

  ghost predicate NoneUp(p: Part) {
    p.cur < |p.procs| && forall m :: 0 <= m < |p.procs| ==> !Up(At(p, p.cur, m))
  }

  /** A process which draws no time is through at once. */
  function Passed(x: Proc): Proc {
    if x.spawned && !x.completed then x.(completed := true, draws := x.draws + 1) else x
  }

  /** A process which runs: its client is released if it had signalled, and its budget is whole again. */
  function LetRun(x: Proc): Proc {
    x.(frozen := false, actual := x.budget, draws := x.draws + (if x.actual == x.budget then 1 else 0),
       signalled := false, tokens := x.tokens + (if x.signalled then 1 else 0))
  }

  /** Of `p` the `k`-th process from the cursor on was started at `t`, which gave `q`. */
  ghost predicate Chosen(p: Part, role: Role, t: int, q: Part, due: Option<int>, k: nat)
    requires p.cur < |p.procs| && k < |p.procs|
  {
    var b := Share(At(p, p.cur, k), Drawn);
    && |q.procs| == |p.procs| && q.cur == Ahead(|p.procs|, p.cur, k)
    && due == Some(t + Ms(b)) && q.log == p.log + [Started(t, role, q.cur, b)]
    && forall m :: 0 <= m < |p.procs| ==>
         At(q, p.cur, m) ==
         if m < k then Passed(At(p, p.cur, m)) else if m == k then LetRun(At(p, p.cur, m)) else At(p, p.cur, m)
  }

  /** The last of the processes which were still pending, or the one under the cursor. */
  ghost predicate LastPending(p: Part, k: nat) {
    && p.cur < |p.procs| && k < |p.procs| && (k == 0 || Pending(At(p, p.cur, k)))
    && forall m :: k < m < |p.procs| ==> !Pending(At(p, p.cur, m))
  }

  /** Of `p` no process could be started, which gave `q`. */
  ghost predicate Exhausted(p: Part, q: Part)
    requires p.cur < |p.procs|
  {
    && |q.procs| == |p.procs| && q.log == p.log
    && (forall m :: 0 <= m < |p.procs| ==> At(q, p.cur, m) == Passed(At(p, p.cur, m)))
    && forall k: nat :: LastPending(p, k) ==> q.cur == Next(|p.procs|, Ahead(|p.procs|, p.cur, k))
  }

  /** The first process which is up has been started at `t` and runs until `due`; or there is none. */
  ghost predicate StartsFirst(p: Part, role: Role, t: int, q: Part, due: Option<int>) {
    && (NoneUp(p) ==> due.None? && Exhausted(p, q))
    && (forall k: nat :: FirstUp(p, k) ==> Chosen(p, role, t, q, due, k))
  }

  lemma {:induction false} FirstOrNone(p: Part, n: nat) returns (k: nat)
    requires p.cur < |p.procs| && n <= |p.procs|
    ensures if k < n then FirstUp(p, k) else forall m :: 0 <= m < n ==> !Up(At(p, p.cur, m))
  {
    hide Up;
    k := 0;
    while k < n && !Up(At(p, p.cur, k))
      invariant k <= n && forall m :: 0 <= m < k ==> !Up(At(p, p.cur, m))
    {
      k := k + 1;
    }
  }

  /** The drawn time in terms of `Draw`. */
  lemma DrawShare(x: Proc)
    requires ProcOk(x) && Pending(x)
    ensures Draw(x).1 == Share(x, Drawn)
    ensures Draw(x).1 == 0 ==> Draw(x).0.(completed := true) == Passed(x)
    ensures Resume(Draw(x).0).(actual := x.budget) == LetRun(x)
    ensures Up(x) <==> Draw(x).1 != 0
  {
  }

  /** The places from a cursor `k` further on. */
  lemma Turned(p: Part, c: nat, k: nat, m: nat)
    requires c < |p.procs| && k < |p.procs| && m < |p.procs|
    ensures var n := |p.procs|;
            var d := Ahead(n, c, k);
            At(p, c, m) == At(p, d, if m >= k then m - k else m + n - k)
  {
  }

  lemma SeekFirst(p: Part)
    requires PartOk(p)
    ensures var (q, found) := SeekPart(p);
            if found then
              exists k: nat :: k < |p.procs| && q.cur == Ahead(|p.procs|, p.cur, k) && Pending(At(p, p.cur, k)) &&
                               forall m :: 0 <= m < k ==> !Pending(At(p, p.cur, m))
            else q.cur == Next(|p.procs|, p.cur) && forall m :: 0 <= m < |p.procs| ==> !Pending(At(p, p.cur, m))
  {
    SeekPartSpec(p);
    var (q, found) := SeekPart(p);
    if found {
      var k :| 0 <= k < |p.procs| && q.cur == Ahead(|p.procs|, p.cur, k) && Pending(p.procs[q.cur]) &&
               forall m :: 0 <= m < k ==> !Pending(p.procs[Ahead(|p.procs|, p.cur, m)]);
      assert Pending(At(p, p.cur, k));
    }
  }

  lemma NothingFound(p: Part, q: Part, role: Role, t: int)
    requires p.cur < |p.procs| && q == p.(cur := Next(|p.procs|, p.cur))
    requires forall m :: 0 <= m < |p.procs| ==> !Pending(At(p, p.cur, m))
    ensures StartsFirst(p, role, t, q, None)
  {
  }

  lemma LaunchChosen(p: Part, k: nat, role: Role, t: int)
    requires PartOk(p) && k < |p.procs| && Pending(At(p, p.cur, k)) && Up(At(p, p.cur, k))
    requires forall m :: 0 <= m < k ==> !Pending(At(p, p.cur, m))
    ensures var d := p.(cur := Ahead(|p.procs|, p.cur, k));
            StartsFirst(p, role, t, Launch(d, role, t), Some(t + Ms(Draw(At(p, p.cur, k)).1)))
  {
    hide ProcOk;
    var d := p.(cur := Ahead(|p.procs|, p.cur, k));
    var x := At(p, p.cur, k);
    assert ProcOk(x);
    DrawShare(x);
    hide Share, LetRun, Draw;
    var q := Launch(d, role, t);
    LaunchIs(d, role, t);
    PlaceUpdate(p, q, p.cur, k, LetRun(x));
    assert forall m :: 0 <= m < k ==> !Up(At(p, p.cur, m)) && Passed(At(p, p.cur, m)) == At(p, p.cur, m);
    assert Chosen(p, role, t, q, Some(t + Ms(Share(x, Drawn))), k);
    assert FirstUp(p, k);
  }

  lemma LaunchIs(d: Part, role: Role, t: int)
    requires d.cur < |d.procs| && ProcOk(d.procs[d.cur]) && Pending(d.procs[d.cur])
    ensures var x := d.procs[d.cur];
            && Launch(d, role, t).procs == d.procs[d.cur := LetRun(x)]
            && Launch(d, role, t).log == d.log + [Started(t, role, d.cur, Share(x, Drawn))]
  {
    DrawShare(d.procs[d.cur]);
  }

  /** The process `k` places on is passed over, and `q` comes of searching on from there. */
  lemma PassedOn(p: Part, k: nat, d: Part, q: Part, due: Option<int>, role: Role, t: int)
    requires PartOk(p) && k < |p.procs| && Pending(At(p, p.cur, k)) && !Up(At(p, p.cur, k))
    requires forall m :: 0 <= m < k ==> !Pending(At(p, p.cur, m))
    requires d.cur == Ahead(|p.procs|, p.cur, k) && d.log == p.log && d.procs == p.procs[d.cur := Passed(At(p, p.cur, k))]
    requires StartsFirst(d, role, t, q, due)
    ensures StartsFirst(p, role, t, q, due)
  {
    hide Share, ProcOk, StartsFirst, Up, Passed, Chosen;
    PlacesOn(p, k, d);
    var f := FirstOrNone(p, |p.procs|);
    if f >= |p.procs| {
      PassedNone(p, k, d, q, due, role, t);
    } else {
      PassedFirst(p, k, d, q, due, role, t, f);
      OnlyFirst(p, role, t, q, due, f);
    }
  }

  lemma OnlyFirst(p: Part, role: Role, t: int, q: Part, due: Option<int>, f: nat)
    requires FirstUp(p, f) && Chosen(p, role, t, q, due, f)
    ensures StartsFirst(p, role, t, q, due)
  {
    hide Up, Chosen;
    forall k: nat | FirstUp(p, k)
      ensures k == f
    {
      assert !(k < f) && !(f < k);
    }
  }

  /** Starting the next process, in whatever role, starts the first one which is up. */
  lemma {:induction false} StartNextFirst(p: Part, role: Role, t: int)
    requires PartOk(p)
    ensures var (q, b) := StartNext(p, role, t);
            StartsFirst(p, role, t, q, if b.None? then None else Some(t + Ms(b.value)))
    decreases PendingCount(p.procs)
  {
    hide PartOk, Share, StartsFirst, Launch, Passed, Skip, Draw, Pending, Up, ProcOk, Seek, PendingCount;
    PartMeans(p);
    SeekFirst(p);
    var (d, found) := SeekPart(p);
    if !found {
      NothingFound(p, d, role, t);
    } else {
      var k: nat :| k < |p.procs| && d.cur == Ahead(|p.procs|, p.cur, k) && Pending(At(p, p.cur, k)) &&
                    forall m :: 0 <= m < k ==> !Pending(At(p, p.cur, m));
      var x := At(p, p.cur, k);
      DrawShare(x);
      if Draw(x).1 == 0 {
        SkipOk(p, k);
        SkipCounts(d);
        StartNextFirst(Skip(d), role, t);
        var (q, b) := StartNext(Skip(d), role, t);
        PassedOn(p, k, Skip(d), q, if b.None? then None else Some(t + Ms(b.value)), role, t);
      } else {
        LaunchChosen(p, k, role, t);
      }
    }
  }

  lemma SkipCounts(d: Part)
    requires d.cur < |d.procs| && Pending(d.procs[d.cur])
    ensures PendingCount(Skip(d).procs) < PendingCount(d.procs)
  {
    PendingCountUpdate(d.procs, d.cur, Draw(d.procs[d.cur]).0.(completed := true));
  }

  lemma PartMeans(p: Part)
    requires PartOk(p)
    ensures p.cur < |p.procs| && forall m :: 0 <= m < |p.procs| ==> ProcOk(At(p, p.cur, m))
  {
  }

  lemma SkipOk(p: Part, k: nat)
    requires PartOk(p) && k < |p.procs| && Pending(At(p, p.cur, k)) && Draw(At(p, p.cur, k)).1 == 0
    ensures var d := p.(cur := Ahead(|p.procs|, p.cur, k));
            && PartOk(Skip(d)) && Skip(d).cur == d.cur && Skip(d).log == p.log
            && Skip(d).procs == p.procs[d.cur := Passed(At(p, p.cur, k))]
  {
    var d := p.(cur := Ahead(|p.procs|, p.cur, k));
    assert ProcOk(d.procs[d.cur]);
    DrawShare(d.procs[d.cur]);
    DrawnBudget(d.procs[d.cur]);
  }

  /** The place which is the `m`-th from a cursor, seen from one `k` further on. */
  function Back(n: nat, k: nat, m: nat): (x: nat)
    requires k < n && m < n
    ensures x < n
  {
    if m >= k then m - k else m + n - k
  }

  lemma SeenFrom(q: Part, c: nat, k: nat)
    requires c < |q.procs| && k < |q.procs|
    ensures forall m :: 0 <= m < |q.procs| ==> At(q, Ahead(|q.procs|, c, k), Back(|q.procs|, k, m)) == At(q, c, m)
  {
  }

  function Forth(n: nat, k: nat, x: nat): (m: nat)
    requires k < n && x < n
    ensures m < n && Back(n, k, m) == x
  {
    if x + k < n then x + k else x + k - n
  }

  /** The places of `d`, seen from the cursor of `p`. */
  lemma PlacesOn(p: Part, k: nat, d: Part)
    requires p.cur < |p.procs| && k < |p.procs| && d.cur == Ahead(|p.procs|, p.cur, k)
    requires d.procs == p.procs[d.cur := Passed(At(p, p.cur, k))]
    ensures forall m :: 0 <= m < |p.procs| ==>
              At(d, d.cur, Back(|p.procs|, k, m)) == if m == k then Passed(At(p, p.cur, k)) else At(p, p.cur, m)
  {
    hide Passed;
    SeenFrom(d, p.cur, k);
    PlaceUpdate(p, d, p.cur, k, Passed(At(p, p.cur, k)));
  }

  lemma NotUpAhead(p: Part, k: nat)
    requires p.cur < |p.procs| && k < |p.procs| && !Up(At(p, p.cur, k)) && Pending(At(p, p.cur, k))
    requires forall m :: 0 <= m < k ==> !Pending(At(p, p.cur, m))
    ensures forall m :: 0 <= m <= k ==> !Up(At(p, p.cur, m))
    ensures forall m :: 0 <= m < k ==> Passed(At(p, p.cur, m)) == At(p, p.cur, m)
    ensures !Up(Passed(At(p, p.cur, k))) && !Pending(Passed(At(p, p.cur, k)))
    ensures Passed(Passed(At(p, p.cur, k))) == Passed(At(p, p.cur, k))
  {
    hide Share;
  }

  lemma PassedNone(p: Part, k: nat, d: Part, q: Part, due: Option<int>, role: Role, t: int)
    requires p.cur < |p.procs| == |d.procs| && d.cur < |d.procs| && k < |p.procs| && NoneUp(p) && d.log == p.log
    requires d.cur == Ahead(|p.procs|, p.cur, k) && Pending(At(p, p.cur, k))
    requires forall m :: 0 <= m < k ==> !Pending(At(p, p.cur, m))
    requires forall m :: 0 <= m < |p.procs| ==>
               At(d, d.cur, Back(|p.procs|, k, m)) == if m == k then Passed(At(p, p.cur, k)) else At(p, p.cur, m)
    requires StartsFirst(d, role, t, q, due)
    ensures StartsFirst(p, role, t, q, due)
  {
    hide Share, Up, Passed, Chosen;
    var n := |p.procs|;
    NotUpAhead(p, k);
    SeenFrom(d, p.cur, k);
    forall x | 0 <= x < n
      ensures !Up(At(d, d.cur, x))
    {
      var m := Forth(n, k, x);
      assert !Up(At(p, p.cur, m));
    }
    assert Exhausted(d, q);
    SeenFrom(q, p.cur, k);
    forall m | 0 <= m < n
      ensures At(q, p.cur, m) == Passed(At(p, p.cur, m))
    {
      assert At(q, d.cur, Back(n, k, m)) == Passed(At(d, d.cur, Back(n, k, m)));
    }
    forall l: nat | LastPending(p, l)
      ensures q.cur == Next(n, Ahead(n, p.cur, l))
    {
      LastOn(p, k, d, l);
    }
    forall l: nat
      ensures !FirstUp(p, l)
    {
    }
  }

  lemma LastOn(p: Part, k: nat, d: Part, l: nat)
    requires p.cur < |p.procs| == |d.procs| && d.cur < |d.procs| && k < |p.procs| && Pending(At(p, p.cur, k))
    requires d.cur == Ahead(|p.procs|, p.cur, k) && LastPending(p, l)
    requires forall m :: 0 <= m < k ==> !Pending(At(p, p.cur, m))
    requires forall m :: 0 <= m < |p.procs| ==>
               At(d, d.cur, Back(|p.procs|, k, m)) == if m == k then Passed(At(p, p.cur, k)) else At(p, p.cur, m)
    ensures k <= l && LastPending(d, l - k) && Ahead(|p.procs|, d.cur, l - k) == Ahead(|p.procs|, p.cur, l)
  {
    hide Share;
    var n := |p.procs|;
    SeenFrom(d, p.cur, k);
    assert !Pending(Passed(At(p, p.cur, k)));
    assert Back(n, k, l) == l - k;
    forall x | l - k < x < n
      ensures !Pending(At(d, d.cur, x))
    {
      var m := Forth(n, k, x);
      assert m != k && (m < k || m > l);
    }
  }

  lemma PassedFirst(p: Part, k: nat, d: Part, q: Part, due: Option<int>, role: Role, t: int, f: nat)
    requires p.cur < |p.procs| == |d.procs| && d.cur < |d.procs| && k < |p.procs| && FirstUp(p, f) && d.log == p.log
    requires d.cur == Ahead(|p.procs|, p.cur, k) && Pending(At(p, p.cur, k)) && !Up(At(p, p.cur, k))
    requires forall m :: 0 <= m < k ==> !Pending(At(p, p.cur, m))
    requires forall m :: 0 <= m < |p.procs| ==>
               At(d, d.cur, Back(|p.procs|, k, m)) == if m == k then Passed(At(p, p.cur, k)) else At(p, p.cur, m)
    requires StartsFirst(d, role, t, q, due)
    ensures Chosen(p, role, t, q, due, f)
  {
    hide Share, Up, Passed, LetRun, Exhausted;
    var n := |p.procs|;
    NotUpAhead(p, k);
    assert f > k;
    forall x | 0 <= x < f - k
      ensures !Up(At(d, d.cur, x))
    {
      assert Back(n, k, x + k) == x;
    }
    assert Back(n, k, f) == f - k;
    assert FirstUp(d, f - k);
    assert Chosen(d, role, t, q, due, f - k);
    SeenFrom(q, p.cur, k);
    forall m | 0 <= m < n
      ensures At(q, p.cur, m) ==
              if m < f then Passed(At(p, p.cur, m)) else if m == f then LetRun(At(p, p.cur, m)) else At(p, p.cur, m)
    {
      var x := Back(n, k, m);
      assert At(q, d.cur, x) ==
             if x < f - k then Passed(At(d, d.cur, x)) else if x == f - k then LetRun(At(d, d.cur, x)) else At(d, d.cur, x);
    }
  }

  // ----- A process ends -----

  /** The process under the cursor has ended at `t`, which gave `q`. */
  ghost predicate EndsCurrent(p: Part, role: Role, t: int, q: Part) {
    && p.cur < |p.procs| == |q.procs| && q.cur == p.cur && q.log == p.log + [Ended(t, role, p.cur, true)]
    && forall j :: 0 <= j < |p.procs| ==>
         q.procs[j] == if j == p.cur then p.procs[j].(frozen := true, completed := true) else p.procs[j]
  }

  /** It has ended, and the first process which is up then runs until `due`, if there is one. */
  ghost predicate EndsAndStarts(p: Part, role: Role, t: int, q: Part, due: Option<int>) {
    exists e :: EndsCurrent(p, role, t, e) && StartsFirst(e, role, t, q, due)
  }

  /** The slice runs a process until `due`, or it keeps still. */
  ghost predicate RunsUntil(u: Slice, due: Option<int>) {
    u.running == u.armed == due.Some? && (due.Some? ==> u.timeout == due.value)
  }

  lemma SliceGoesOn(s: Slice, t: int)
    requires SliceOk(s) && s.running
    ensures var r := StartNextInSlice(EndInSlice(s, t, true), t);
            var role := s.role.value;
            var due := if r.running then Some(r.timeout) else None;
            && PartOf(r, role).Some? && r.role == s.role && r.signals == s.signals && RunsUntil(r, due)
            && (if role == Sc then r.be == s.be else r.sc == s.sc)
            && EndsAndStarts(Current(s), role, t, PartOf(r, role).value, due)
  {
    hide StartsFirst, StartNext, EndsCurrent, Quiet, PartOk;
    var role := s.role.value;
    EndIs(Current(s), role, t);
    var e := EndInSlice(s, t, true);
    EndSafe(s, t, true);
    CurrentOk(e);
    assert Current(e) == EndCurrent(Current(s), role, t, true);
    StartNextFirst(Current(e), role, t);
    assert role == Sc || role == Be;
  }

  lemma EndIs(p: Part, role: Role, t: int)
    requires p.cur < |p.procs|
    ensures EndsCurrent(p, role, t, EndCurrent(p, role, t, true))
  {
  }

  lemma CurrentOk(s: Slice)
    requires SliceOk(s) && s.role.Some?
    ensures PartOk(Current(s))
  {
    assert s.role.value == Sc || s.role.value == Be;
  }

  // ----- A launch -----

  /** The partition when it is about to be served: nothing has been through. */
  ghost predicate Cleared(p: Part, first: bool, q: Part) {
    && p.cur < |p.procs| == |q.procs| && q.log == p.log && q.cur == (if first then 0 else p.cur)
    && forall j :: 0 <= j < |p.procs| ==> q.procs[j] == p.procs[j].(completed := false)
  }

  ghost predicate ClearsAndStarts(p: Part, role: Role, t: int, q: Part, due: Option<int>) {
    exists e :: Cleared(p, role == Sc, e) && StartsFirst(e, role, t, q, due)
  }

  /** The best-effort partition of the slice, if there is one, has been launched at `t`. */
  ghost predicate LaunchedIn(s: Slice, u: Slice, t: int) {
    if s.be.None? then u == s
    else
      && u.be.Some? && u.sc == s.sc && u.role == Some(Be) && u.signals == s.signals
      && exists due :: RunsUntil(u, due) && ClearsAndStarts(s.be.value, Be, t, u.be.value, due)
  }

  lemma BeginStarts(s: Slice, role: Role, t: int)
    requires SliceOk(s) && !s.running && PartOf(s, role).Some?
    ensures var r := Begin(s, role, t);
            var due := if r.running then Some(r.timeout) else None;
            && PartOf(r, role).Some? && r.role == Some(role) && r.signals == s.signals && RunsUntil(r, due)
            && (if role == Sc then r.be == s.be else r.sc == s.sc)
            && ClearsAndStarts(PartOf(s, role).value, role, t, PartOf(r, role).value, due)
  {
    hide StartsFirst, StartNext, Quiet;
    var p := PartOf(s, role).value;
    var z := Reset(p, role.Sc?);
    assert role == Sc || role == Be;
    ResetOk(p, role.Sc?);
    hide PartOk, Reset;
    StartNextFirst(z, role, t);
    var v := WithPart(s, role, z).(role := Some(role), linked := s.linked + {role});
    assert Current(v) == z;
    assert Begin(s, role, t) == StartNextInSlice(v, t);
  }

  lemma ResetOk(p: Part, first: bool)
    requires PartOk(p)
    ensures PartOk(Reset(p, first)) && Cleared(p, first, Reset(p, first))
  {
    forall j | 0 <= j < |p.procs|
      ensures ProcOk(Reset(p, first).procs[j])
    {
      assert ProcOk(p.procs[j]);
    }
  }

  lemma BeginBeLaunches(s: Slice, n: nat, t: int)
    requires SliceOk(s) && !s.running
    ensures var v := s.(signals := n); Shaped(v) && LaunchedIn(v, BeginBe(v, t), t)
  {
    hide ClearsAndStarts, Begin, PartIn;
    var v := s.(signals := n);
    if v.be.Some? {
      SignalsKeepOk(s, n);
      BeginStarts(v, Be, t);
    }
  }

  lemma SignalsKeepOk(s: Slice, n: nat)
    requires SliceOk(s)
    ensures SliceOk(s.(signals := n))
  {
  }

  // ----- The window -----

  /**
   * Slice `i`, which is `s` now, is through with its safety-critical partition and has reported
   * at `t`; with the last report best effort is launched in all slices.
   */
  ghost predicate Reports(w: Win, i: nat, s: Slice, v: Win, t: int) {
    && |v.slices| == |w.slices| && i < |w.slices| && v.stopping == w.stopping && v.finished == w.finished + 1
    && var u := s.(signals := s.signals + 1);
       if v.finished == |w.slices| then
         && v.launches == w.launches + 1
         && forall m :: 0 <= m < |w.slices| ==> LaunchedIn(if m == i then u else w.slices[m], v.slices[m], t)
       else v.launches == w.launches && v.slices == w.slices[i := u]
  }

  /** The process of slice `i`, which is `s` when this happens, ends at `t`. */
  ghost predicate MovesOn(w: Win, i: nat, s: Slice, v: Win, t: int) {
    && |v.slices| == |w.slices| && i < |w.slices| && s.role.Some? && PartOf(s, s.role.value).Some?
    && exists u, due :: MovedSlice(s, u, t, due) &&
         if due.None? && s.role == Some(Sc) then Reports(w, i, u, v, t) else v == w.(slices := w.slices[i := u])
  }

  /** What becomes of the slice itself: its partition goes on, the other one stays. */
  ghost predicate MovedSlice(s: Slice, u: Slice, t: int, due: Option<int>)
    requires s.role.Some? && PartOf(s, s.role.value).Some?
  {
    var role := s.role.value;
    && PartOf(u, role).Some? && u.role == s.role && u.signals == s.signals && RunsUntil(u, due)
    && (if role == Sc then u.be == s.be else u.sc == s.sc)
    && EndsAndStarts(PartOf(s, role).value, role, t, PartOf(u, role).value, due)
  }

  lemma ScEndReports(w: Win, i: nat, t: int)
    requires WinShaped(w) && i < |w.slices| && !w.stopping
    requires forall k :: 0 <= k < |w.slices| ==> SliceOk(w.slices[k])
    requires w.finished + 1 == |w.slices| ==> forall k :: 0 <= k < |w.slices| ==> !w.slices[k].running
    ensures Reports(w, i, w.slices[i], ScEnd(w, i, t), t)
  {
    hide SliceOk, BeginBe, LaunchedIn;
    if w.finished + 1 == |w.slices| {
      forall m | 0 <= m < |w.slices|
        ensures LaunchedIn(if m == i then w.slices[i].(signals := w.slices[i].signals + 1) else w.slices[m],
                           ScEnd(w, i, t).slices[m], t)
      {
        BeginBeLaunches(w.slices[m], if m == i then w.slices[i].signals + 1 else w.slices[m].signals, t);
        assert m != i ==> w.slices[m].(signals := w.slices[m].signals) == w.slices[m];
      }
    }
  }

  lemma ScheduleNextMoves(w: Win, i: nat, t: int)
    requires Inv(w) && WinShaped(w) && i < |w.slices| && w.slices[i].running
    ensures MovesOn(w, i, w.slices[i], ScheduleNext(w, i, t), t)
  {
    hide ScDone, ScEnd, StartNextInSlice, EndInSlice, ScheduleNext, PartIn, EndsAndStarts, Reports;
    var s := w.slices[i];
    var r := StartNextInSlice(EndInSlice(s, t, true), t);
    var v := w.(slices := w.slices[i := r]);
    ScheduleNextIs(w, i, t);
    EndSafe(s, t, true);
    StartNextInSliceSafe(EndInSlice(s, t, true), t);
    SliceGoesOn(s, t);
    SignalsUpdate(w.slices, i, r);
    SignalsFull(w.slices);
    var due := if r.running then Some(r.timeout) else None;
    assert MovedSlice(s, r, t, due);
    if !r.running && r.role == Some(Sc) {
      LastReport(v, i);
      ScEndReports(v, i, t);
      ReportsAlike(w, i, r, v, ScEnd(v, i, t), t);
    }
  }

  /** When the last slice reports nothing runs. */
  lemma LastReport(w: Win, i: nat)
    requires i < |w.slices| && Counted(w) && !w.slices[i].running && w.slices[i].signals == 0
    requires forall k :: 0 <= k < |w.slices| && k != i ==> InPhase(w.slices[k], AllReported(w))
    ensures w.finished + 1 == |w.slices| ==> forall k :: 0 <= k < |w.slices| ==> !w.slices[k].running
  {
    hide ScDone;
    if w.finished + 1 == |w.slices| {
      ReportLast(w, i, |w.slices|);
    }
  }

  lemma ReportsAlike(w: Win, i: nat, r: Slice, v: Win, x: Win, t: int)
    requires i < |w.slices| && v == w.(slices := w.slices[i := r]) && Reports(v, i, r, x, t)
    ensures Reports(w, i, r, x, t)
  {
    hide LaunchedIn;
    assert v.slices[i := r.(signals := r.signals + 1)] == w.slices[i := r.(signals := r.signals + 1)];
    forall m | 0 <= m < |w.slices| && x.finished == |w.slices|
      ensures LaunchedIn(if m == i then r.(signals := r.signals + 1) else w.slices[m], x.slices[m], t)
    {
      assert LaunchedIn(if m == i then r.(signals := r.signals + 1) else v.slices[m], x.slices[m], t);
    }
  }

  // ----- Every event -----

  /** Process `j` of one of the partitions of the slice is `x` instead. */
  function WithProc(s: Slice, r: Role, j: nat, x: Proc): Slice
    requires PartOf(s, r).Some? && j < |PartOf(s, r).value.procs|
  {
    var p := PartOf(s, r).value;
    var q := p.(procs := p.procs[j := x]);
    if r == Sc then s.(sc := Some(q)) else s.(be := Some(q))
  }

  /** The slice when process `j` has signalled, or has ended. */
  function Signalled(s: Slice, r: Role, j: nat): Slice
    requires PartOf(s, r).Some? && j < |PartOf(s, r).value.procs|
  {
    WithProc(s, r, j, PartOf(s, r).value.procs[j].(signalled := true))
  }

  function Gone(s: Slice, r: Role, j: nat): Slice
    requires PartOf(s, r).Some? && j < |PartOf(s, r).value.procs|
  {
    WithProc(s, r, j, PartOf(s, r).value.procs[j].(spawned := false))
  }

  ghost predicate Becomes(w: Win, e: Step, v: Win)
    requires Enabled(w, e)
  {
    match e
    case Timeout(i) => MovesOn(w, i, w.slices[i], v, w.slices[i].timeout)
    case Complete(i, r, j, now) => MovesOn(w, i, Signalled(w.slices[i], r, j), v, now)
    case Note(i, r, j) => v == w.(slices := w.slices[i := Signalled(w.slices[i], r, j)])
    case Exit(i, r, j) => v == w.(slices := w.slices[i := Gone(w.slices[i], r, j)])
  }

  lemma MovesAlike(w: Win, i: nat, s: Slice, u: Win, v: Win, t: int)
    requires i < |w.slices| && u == w.(slices := w.slices[i := s]) && MovesOn(u, i, s, v, t)
    ensures MovesOn(w, i, s, v, t)
  {
    hide MovedSlice, LaunchedIn;
    var x, due :| MovedSlice(s, x, t, due) &&
                  if due.None? && s.role == Some(Sc) then Reports(u, i, x, v, t) else v == u.(slices := u.slices[i := x]);
    assert u.slices[i := x] == w.slices[i := x];
    if due.None? && s.role == Some(Sc) {
      ReportsOver(w, i, s, u, x, v, t);
    }
  }

  lemma ReportsOver(w: Win, i: nat, s: Slice, u: Win, x: Slice, v: Win, t: int)
    requires i < |w.slices| && u == w.(slices := w.slices[i := s]) && Reports(u, i, x, v, t)
    ensures Reports(w, i, x, v, t)
  {
    hide LaunchedIn;
    var y := x.(signals := x.signals + 1);
    assert u.slices[i := y] == w.slices[i := y];
    forall m | 0 <= m < |w.slices| && v.finished == |w.slices|
      ensures LaunchedIn(if m == i then y else w.slices[m], v.slices[m], t)
    {
      assert LaunchedIn(if m == i then y else u.slices[m], v.slices[m], t);
    }
  }

  lemma EventBecomes(w: Win, e: Step)
    requires Inv(w) && Enabled(w, e)
    ensures Becomes(w, e, Apply(w, e))
  {
    hide Inv, MovesOn, ScheduleNext;
    match e
    case Timeout(i) => ScheduleNextMoves(w, i, w.slices[i].timeout);
    case Complete(i, r, j, now) =>
      var u := NoteAt(w, i, r, j);
      NoteSafe(w, i, r, j);
      assert u.slices[i] == Signalled(w.slices[i], r, j);
      ScheduleNextMoves(u, i, now);
      MovesAlike(w, i, u.slices[i], u, Apply(w, e), now);
    case Note(i, r, j) =>
    case Exit(i, r, j) =>
  }

  /**
   * Every event of every run, on the fields: a timeout or a signal which is passed on ends the
   * running process of the slice, in either role, and starts the first one which is up; or the
   * slice has nothing more to run, and a safety-critical partition reports it, the last of them
   * launching best effort everywhere. A signal which is noted, and an end, set one flag.
   */
  lemma EventEffect(w0: Win, t: int, steps: seq<Step>, states: seq<Win>, k: nat)
    requires IsRun(w0, t, steps, states) && k < |steps|
    ensures Enabled(states[k], steps[k]) && Becomes(states[k], steps[k], states[k + 1])
  {
    hide Inv, Becomes, Enabled, Apply, Start, Idle;
    RunKeepsInv(w0, t, steps, states, k);
    EventBecomes(states[k], steps[k]);
  }

  // ----- What this means for a process which runs -----

  /** The first process behind the current one which has not been through and gets any time. */
  ghost predicate NextUp(p: Part, m: nat) {
    && p.cur < |p.procs| && 0 < m < |p.procs| && Up(At(p, p.cur, m))
    && forall x :: 0 < x < m ==> !Up(At(p, p.cur, x))
  }

  /** The first process which gets any time when the partition is launched. */
  ghost predicate FirstAlive(p: Part, m: nat) {
    && p.cur < |p.procs| && m < |p.procs| && Share(At(p, p.cur, m), Drawn) != 0
    && forall x :: 0 <= x < m ==> Share(At(p, p.cur, x), Drawn) == 0
  }

  /** In slice `u` the process `m` places behind the cursor of `p` has been started at `t`. */
  ghost predicate RunsFrom(p: Part, role: Role, m: nat, t: int, u: Slice) {
    && p.cur < |p.procs| && m < |p.procs| && PartOf(u, role).Some?
    && u.running && u.armed && u.role == Some(role) && u.timeout == t + Ms(Share(At(p, p.cur, m), Drawn))
    && var q := PartOf(u, role).value;
       && q.cur == Ahead(|p.procs|, p.cur, m) && q.cur < |q.procs|
       && !q.procs[q.cur].frozen && !q.procs[q.cur].signalled
  }

  /** The best-effort partition of the slice `s` has been launched at `t`, and runs if it can. */
  ghost predicate LaunchRuns(s: Slice, u: Slice, t: int) {
    s.be.Some? ==>
      && (forall m: nat :: FirstAlive(s.be.value, m) ==> RunsFrom(s.be.value, Be, m, t, u))
      && ((forall m: nat :: !FirstAlive(s.be.value, m)) ==> !u.running)
  }

  lemma LaunchedRuns(s: Slice, u: Slice, t: int)
    requires LaunchedIn(s, u, t)
    ensures LaunchRuns(s, u, t)
  {
    hide Share, Exhausted, PartOk, Quiet;
    if s.be.Some? {
      var p := s.be.value;
      var due :| RunsUntil(u, due) && ClearsAndStarts(p, Be, t, u.be.value, due);
      var z :| Cleared(p, false, z) && StartsFirst(z, Be, t, u.be.value, due);
      ClearedShares(p, z);
      forall m: nat | FirstAlive(p, m)
        ensures RunsFrom(p, Be, m, t, u)
      {
        assert FirstUp(z, m);
        assert At(u.be.value, z.cur, m) == LetRun(At(z, z.cur, m));
      }
      if forall m: nat :: !FirstAlive(p, m) {
        NobodyAlive(p, |p.procs|);
        assert NoneUp(z);
      }
    }
  }

  lemma ClearedShares(p: Part, z: Part)
    requires Cleared(p, false, z)
    ensures z.cur == p.cur && |z.procs| == |p.procs|
    ensures forall m :: 0 <= m < |p.procs| ==>
              Share(At(z, p.cur, m), Drawn) == Share(At(p, p.cur, m), Drawn) &&
              (Up(At(z, p.cur, m)) <==> Share(At(p, p.cur, m), Drawn) != 0)
  {
  }

  lemma {:induction false} NobodyAlive(p: Part, n: nat)
    requires p.cur < |p.procs| && n <= |p.procs| && forall m: nat :: !FirstAlive(p, m)
    ensures forall m :: 0 <= m < n ==> Share(At(p, p.cur, m), Drawn) == 0
  {
    hide Share;
    if n > 0 {
      NobodyAlive(p, n - 1);
      assert !FirstAlive(p, n - 1);
    }
  }

  /** What the log has gained names only processes of `p` which are alive. */
  ghost predicate StartsAlive(p: Part, q: Part) {
    && |p.procs| == |q.procs| && |p.log| <= |q.log| && q.log[..|p.log|] == p.log
    && forall x :: |p.log| <= x < |q.log| && q.log[x].Started? ==> q.log[x].proc < |p.procs| && p.procs[q.log[x].proc].spawned
  }

  /** Nobody comes back to life. */
  ghost predicate StayDead(p: Part, q: Part) {
    |p.procs| == |q.procs| && forall j :: 0 <= j < |p.procs| && q.procs[j].spawned ==> p.procs[j].spawned
  }

  /** What a search can do to a process: nothing, to pass it over, or to let it run. */
  ghost predicate Treated(x: Proc, y: Proc, started: bool) {
    if started then Up(x) && y == LetRun(x) else y == x || y == Passed(x)
  }

  ghost predicate AllTreated(p: Part, q: Part, started: bool) {
    && |q.procs| == |p.procs| && q.cur < |q.procs|
    && forall j :: 0 <= j < |p.procs| ==> Treated(p.procs[j], q.procs[j], started && j == q.cur)
  }

  lemma StartsFirstTreats(p: Part, role: Role, t: int, q: Part, due: Option<int>) returns (f: nat)
    requires p.cur < |p.procs| && StartsFirst(p, role, t, q, due)
    ensures AllTreated(p, q, due.Some?)
    ensures if due.Some? then FirstUp(p, f) && Chosen(p, role, t, q, due, f) else NoneUp(p) && q.log == p.log
  {
    hide Share, LastPending, Up, Passed, LetRun;
    var n := |p.procs|;
    f := FirstOrNone(p, n);
    if f < n {
      assert Chosen(p, role, t, q, due, f);
    } else {
      assert NoneUp(p);
      var l := LastOf(p, n);
      LastIn(p, l);
      assert q.cur == Next(n, Ahead(n, p.cur, l));
    }
    forall j | 0 <= j < n
      ensures Treated(p.procs[j], q.procs[j], due.Some? && j == q.cur)
    {
      var m := Behind(n, p.cur, j);
      assert q.procs[j] == At(q, p.cur, m) && p.procs[j] == At(p, p.cur, m);
    }
  }

  lemma LastIn(p: Part, l: nat)
    requires LastPending(p, l)
    ensures p.cur < |p.procs| && l < |p.procs|
  {
  }

  lemma TreatedKeeps(p: Part, q: Part, started: bool)
    requires AllTreated(p, q, started)
    ensures StayDead(p, q)
    ensures forall j :: 0 <= j < |p.procs| && p.procs[j].completed ==> q.procs[j] == p.procs[j]
    ensures forall j :: 0 <= j < |p.procs| && p.procs[j].signalled ==> q.procs[j].signalled || (started && q.cur == j)
    ensures started ==> p.procs[q.cur].spawned && !q.procs[q.cur].frozen && !q.procs[q.cur].signalled
  {
    hide Share;
    forall j | 0 <= j < |p.procs|
      ensures q.procs[j].spawned == p.procs[j].spawned
      ensures p.procs[j].completed ==> q.procs[j] == p.procs[j]
      ensures p.procs[j].signalled ==> q.procs[j].signalled || (started && q.cur == j)
    {
      assert Treated(p.procs[j], q.procs[j], started && j == q.cur);
    }
    if started {
      assert Treated(p.procs[q.cur], q.procs[q.cur], true);
    }
  }

  lemma OneFirst(p: Part, f: nat, k: nat)
    requires FirstUp(p, f) && FirstUp(p, k)
    ensures f == k
  {
    hide Up;
    assert !(k < f) && !(f < k);
  }

  lemma StartsFirstMeans(p: Part, role: Role, t: int, q: Part, due: Option<int>)
    requires p.cur < |p.procs| && StartsFirst(p, role, t, q, due)
    ensures |q.procs| == |p.procs| && q.cur < |q.procs| && StartsAlive(p, q) && StayDead(p, q)
    ensures forall j :: 0 <= j < |p.procs| && p.procs[j].completed ==> q.procs[j] == p.procs[j]
    ensures forall j :: 0 <= j < |p.procs| && p.procs[j].signalled ==> q.procs[j].signalled || (due.Some? && q.cur == j)
    ensures due.Some? ==> !q.procs[q.cur].frozen && !q.procs[q.cur].signalled
    ensures forall k: nat :: FirstUp(p, k) ==>
              due == Some(t + Ms(Share(At(p, p.cur, k), Drawn))) && q.cur == Ahead(|p.procs|, p.cur, k)
    ensures NoneUp(p) ==> due.None?
  {
    hide Share, Treated, Up, StartsFirst, StayDead;
    var f := StartsFirstTreats(p, role, t, q, due);
    TreatedKeeps(p, q, due.Some?);
    forall k: nat | FirstUp(p, k)
      ensures due == Some(t + Ms(Share(At(p, p.cur, k), Drawn))) && q.cur == Ahead(|p.procs|, p.cur, k)
    {
      if due.Some? {
        OneFirst(p, f, k);
      }
    }
  }

  lemma {:induction false} LastOf(p: Part, n: nat) returns (l: nat)
    requires p.cur < |p.procs| && 0 < n <= |p.procs|
    requires forall m :: n <= m < |p.procs| ==> !Pending(At(p, p.cur, m))
    ensures LastPending(p, l)
    decreases n
  {
    hide Pending;
    if n == 1 || Pending(At(p, p.cur, n - 1)) {
      l := n - 1;
    } else {
      l := LastOf(p, n - 1);
    }
  }

  /** The places behind the current one, once it has ended. */
  lemma EndPlaces(p: Part, role: Role, t: int, e: Part)
    requires EndsCurrent(p, role, t, e)
    ensures forall m: nat :: NextUp(p, m) ==> FirstUp(e, m) && Share(At(e, e.cur, m), Drawn) == Share(At(p, p.cur, m), Drawn)
    ensures (forall m: nat :: !NextUp(p, m)) ==> NoneUp(e)
  {
    hide Share;
    EndShares(p, role, t, e);
    hide Up;
    var f := FirstOrNone(e, |p.procs|);
    assert f < |p.procs| ==> NextUp(p, f);
  }

  lemma EndShares(p: Part, role: Role, t: int, e: Part)
    requires EndsCurrent(p, role, t, e)
    ensures forall m :: 0 < m < |p.procs| ==> At(e, p.cur, m) == At(p, p.cur, m)
    ensures !Up(At(e, p.cur, 0)) && Up(At(e, p.cur, 0)) == false
  {
    hide Share;
    forall m | 0 < m < |p.procs|
      ensures At(e, p.cur, m) == At(p, p.cur, m)
    {
    }
    assert At(e, p.cur, 0) == e.procs[p.cur];
  }

  lemma EndedAlive(p: Part, role: Role, t: int, e: Part, q: Part)
    requires EndsCurrent(p, role, t, e) && StartsAlive(e, q) && StayDead(e, q)
    ensures StartsAlive(p, q) && StayDead(p, q)
    ensures |p.log| < |q.log| && q.log[..|p.log| + 1] == p.log + [Ended(t, role, p.cur, true)]
  {
    assert q.log[..|e.log|] == e.log;
    assert q.log[|p.log|] == e.log[|p.log|];
    forall x | |p.log| <= x < |q.log| && q.log[x].Started?
      ensures q.log[x].proc < |p.procs| && p.procs[q.log[x].proc].spawned
    {
    }
  }

  /** The current process has ended and `q` has come of it. */
  lemma EndsMeans(p: Part, role: Role, t: int, q: Part, due: Option<int>)
    requires EndsAndStarts(p, role, t, q, due)
    ensures p.cur < |p.procs| == |q.procs| && q.cur < |q.procs|
    ensures q.procs[p.cur].completed && q.procs[p.cur].frozen
    ensures |p.log| < |q.log| && q.log[..|p.log| + 1] == p.log + [Ended(t, role, p.cur, true)]
    ensures StartsAlive(p, q) && StayDead(p, q)
    ensures forall j :: 0 <= j < |p.procs| && p.procs[j].signalled ==> q.procs[j].signalled || (due.Some? && q.cur == j)
    ensures due.Some? ==> !q.procs[q.cur].frozen && !q.procs[q.cur].signalled
    ensures forall m: nat :: NextUp(p, m) ==>
              due == Some(t + Ms(Share(At(p, p.cur, m), Drawn))) && q.cur == Ahead(|p.procs|, p.cur, m)
    ensures (forall m: nat :: !NextUp(p, m)) ==> due.None?
  {
    hide Share, StartsFirst, StartsAlive, StayDead, NextUp, FirstUp, NoneUp;
    var e :| EndsCurrent(p, role, t, e) && StartsFirst(e, role, t, q, due);
    StartsFirstMeans(e, role, t, q, due);
    EndPlaces(p, role, t, e);
    EndedAlive(p, role, t, e, q);
  }

  /** The slice has nothing more to run in role `role`, and what this means for the window. */
  ghost predicate NothingLeft(w: Win, i: nat, role: Role, v: Win, t: int)
    requires |v.slices| == |w.slices| && i < |w.slices|
  {
    if role == Be then !v.slices[i].running && v == w.(slices := v.slices)
    else
      && v.slices[i].signals == w.slices[i].signals + 1 && v.finished == w.finished + 1
      && if v.finished == |w.slices| then
           v.launches == w.launches + 1 && forall n :: 0 <= n < |w.slices| ==> LaunchRuns(w.slices[n], v.slices[n], t)
         else !v.slices[i].running && v.launches == w.launches
  }

  /** The process which slice `i` of `w` runs has ended at `t`, which gave `v`. */
  ghost predicate RunEnds(w: Win, i: nat, v: Win, t: int) {
    && |v.slices| == |w.slices| && i < |w.slices| && w.slices[i].role.Some?
    && var role := w.slices[i].role.value;
       && PartOf(w.slices[i], role).Some? && PartOf(v.slices[i], role).Some?
       && var p, q := PartOf(w.slices[i], role).value, PartOf(v.slices[i], role).value;
          && p.cur < |p.procs| == |q.procs|
          && q.procs[p.cur].completed && q.procs[p.cur].frozen
          && |p.log| < |q.log| && q.log[..|p.log| + 1] == p.log + [Ended(t, role, p.cur, true)]
          && (forall m: nat :: NextUp(p, m) ==> RunsFrom(p, role, m, t, v.slices[i]))
          && ((forall m: nat :: !NextUp(p, m)) ==> NothingLeft(w, i, role, v, t))
  }

  /** The partitions differ in who has signalled, if at all. */
  ghost predicate Alike(p: Part, q: Part) {
    && q.cur == p.cur && q.log == p.log && |q.procs| == |p.procs|
    && forall j :: 0 <= j < |p.procs| ==> q.procs[j] == p.procs[j].(signalled := q.procs[j].signalled)
  }

  ghost predicate SlicesAlike(s: Slice, u: Slice) {
    && u == s.(sc := u.sc, be := u.be)
    && s.sc.Some? == u.sc.Some? && (s.sc.Some? ==> Alike(s.sc.value, u.sc.value))
    && s.be.Some? == u.be.Some? && (s.be.Some? ==> Alike(s.be.value, u.be.value))
  }

  lemma AlikeShares(p: Part, q: Part)
    requires Alike(p, q)
    ensures p.cur < |p.procs| ==>
              forall m :: 0 <= m < |p.procs| ==>
                Share(At(q, p.cur, m), Drawn) == Share(At(p, p.cur, m), Drawn) && (Up(At(q, p.cur, m)) <==> Up(At(p, p.cur, m)))
    ensures forall m: nat :: (NextUp(p, m) <==> NextUp(q, m)) && (FirstAlive(p, m) <==> FirstAlive(q, m))
  {
    if p.cur < |p.procs| {
      forall m | 0 <= m < |p.procs|
        ensures Share(At(q, p.cur, m), Drawn) == Share(At(p, p.cur, m), Drawn)
        ensures Up(At(q, p.cur, m)) <==> Up(At(p, p.cur, m))
      {
        assert At(q, p.cur, m) == At(p, p.cur, m).(signalled := At(q, p.cur, m).signalled);
      }
    }
    hide Up, Share;
  }

  lemma LaunchAlike(s: Slice, a: Slice, u: Slice, t: int)
    requires s.be.Some? == a.be.Some? && (s.be.Some? ==> Alike(s.be.value, a.be.value)) && LaunchRuns(a, u, t)
    ensures LaunchRuns(s, u, t)
  {
    hide Share, Alike;
    if s.be.Some? {
      AlikeShares(s.be.value, a.be.value);
      AlikeSize(s.be.value, a.be.value);
      forall m: nat | FirstAlive(s.be.value, m)
        ensures RunsFrom(s.be.value, Be, m, t, u)
      {
        assert RunsFrom(a.be.value, Be, m, t, u);
      }
    }
  }

  lemma AlikeSize(p: Part, q: Part)
    requires Alike(p, q)
    ensures q.cur == p.cur && q.log == p.log && |q.procs| == |p.procs|
  {
  }

  lemma ReportsMean(w: Win, i: nat, s: Slice, u: Slice, v: Win, t: int)
    requires i < |w.slices| && SlicesAlike(w.slices[i], s) && Reports(w, i, u, v, t)
    requires u.be == s.be && !u.running && u.signals == s.signals
    ensures |v.slices| == |w.slices| && v.slices[i].sc == u.sc && NothingLeft(w, i, Sc, v, t)
  {
    hide LaunchedIn, LaunchRuns, Alike;
    var y := u.(signals := u.signals + 1);
    if v.finished == |w.slices| {
      forall n | 0 <= n < |w.slices|
        ensures LaunchRuns(w.slices[n], v.slices[n], t)
      {
        assert LaunchedIn(if n == i then y else w.slices[n], v.slices[n], t);
        if n == i {
          LaunchedRuns(y, v.slices[n], t);
          LaunchAlike(w.slices[i], y, v.slices[i], t);
        } else {
          LaunchedRuns(w.slices[n], v.slices[n], t);
        }
      }
      assert LaunchedIn(y, v.slices[i], t);
      LaunchedKeepsSc(y, v.slices[i], t);
    }
  }

  lemma LaunchedKeepsSc(s: Slice, u: Slice, t: int)
    requires LaunchedIn(s, u, t)
    ensures u.sc == s.sc && u.signals == s.signals
  {
  }

  /** The event of the finding process: what `MovesOn` means for the slice as it was. */
  lemma MovesEnd(w: Win, i: nat, s: Slice, v: Win, t: int)
    requires MovesOn(w, i, s, v, t) && SlicesAlike(w.slices[i], s)
    ensures RunEnds(w, i, v, t)
  {
    hide Share, EndsAndStarts, Reports, NextUp, Alike, LaunchRuns;
    var u, due :| MovedSlice(s, u, t, due) &&
                  if due.None? && s.role == Some(Sc) then Reports(w, i, u, v, t) else v == w.(slices := w.slices[i := u]);
    var role := s.role.value;
    var p, p', q := PartOf(w.slices[i], role).value, PartOf(s, role).value, PartOf(u, role).value;
    assert role == Sc || role == Be;
    EndsMeans(p', role, t, q, due);
    AlikeSize(p, p');
    AlikeShares(p, p');
    if due.None? && role == Sc {
      ReportsMean(w, i, s, u, v, t);
    }
    forall m: nat | NextUp(p, m)
      ensures RunsFrom(p, role, m, t, v.slices[i])
    {
      assert NextUp(p', m);
      NextUpSize(p, m);
    }
  }

  lemma NextUpSize(p: Part, m: nat)
    requires NextUp(p, m)
    ensures p.cur < |p.procs| && m < |p.procs|
  {
  }

  lemma FlagAlike(s: Slice, r: Role, j: nat)
    requires PartOf(s, r).Some? && j < |PartOf(s, r).value.procs|
    ensures SlicesAlike(s, Signalled(s, r, j)) && SlicesAlike(s, s)
  {
    hide Alike;
    var p := PartOf(s, r).value;
    PartAlike(p, j);
    if s.sc.Some? {
      AlikeItself(s.sc.value);
    }
    if s.be.Some? {
      AlikeItself(s.be.value);
    }
    assert r == Sc || r == Be;
  }

  lemma PartAlike(p: Part, j: nat)
    requires j < |p.procs|
    ensures Alike(p, p.(procs := p.procs[j := p.procs[j].(signalled := true)]))
  {
  }

  lemma AlikeItself(p: Part)
    ensures Alike(p, p)
  {
  }

  lemma MomentsMove(w: Win, e: Step, v: Win, t: int)
    requires Enabled(w, e) && Becomes(w, e, v)
    requires (e.Timeout? && t == w.slices[e.i].timeout) || (e.Complete? && t == e.now)
    ensures e.i < |w.slices|
    ensures exists s :: SlicesAlike(w.slices[e.i], s) && MovesOn(w, e.i, s, v, t) &&
                        (e.Complete? ==> PartOf(w.slices[e.i], e.role).Some? && e.proc < |PartOf(w.slices[e.i], e.role).value.procs| &&
                                         s == Signalled(w.slices[e.i], e.role, e.proc))
  {
    hide MovesOn, Shaped;
    if e.Complete? {
      FlagAlike(w.slices[e.i], e.role, e.proc);
    } else {
      assert SlicesAlike(w.slices[e.i], w.slices[e.i]);
    }
  }

  /**
   * A timeout, and a signal which is passed on, ends the process which the slice runs, whatever its
   * role: it is through, and its history says so. If another process of the partition is up, the
   * first such in cyclic order runs from then on for the time it draws. Otherwise the slice keeps
   * still; a safety-critical partition reports, and the last report launches best effort.
   */
  lemma RunningEnds(w0: Win, t0: int, steps: seq<Step>, states: seq<Win>, k: nat, t: int)
    requires IsRun(w0, t0, steps, states) && k < |steps| && (steps[k].Timeout? || steps[k].Complete?)
    requires steps[k].Timeout? ==> steps[k].i < |states[k].slices| && t == states[k].slices[steps[k].i].timeout
    requires steps[k].Complete? ==> t == steps[k].now
    ensures RunEnds(states[k], steps[k].i, states[k + 1], t)
  {
    hide Becomes, Enabled, Apply, Start, Idle, MovesOn, RunEnds, SlicesAlike, Shaped;
    EventEffect(w0, t0, steps, states, k);
    MomentsMove(states[k], steps[k], states[k + 1], t);
    var s :| SlicesAlike(states[k].slices[steps[k].i], s) && MovesOn(states[k], steps[k].i, s, states[k + 1], t);
    MovesEnd(states[k], steps[k].i, s, states[k + 1], t);
  }

  /** And a process which has signalled stays so until it is let run again. */
  ghost predicate SignalKept(u: Slice, r: Role, j: nat) {
    && PartOf(u, r).Some? && j < |PartOf(u, r).value.procs|
    && (PartOf(u, r).value.procs[j].signalled || (u.running && u.role == Some(r) && PartOf(u, r).value.cur == j))
  }

  lemma LaunchKeepsSignal(s: Slice, u: Slice, t: int, r: Role, j: nat)
    requires LaunchedIn(s, u, t) && PartOf(s, r).Some? && j < |PartOf(s, r).value.procs| && PartOf(s, r).value.procs[j].signalled
    ensures SignalKept(u, r, j)
  {
    hide StartsFirst, StartsAlive;
    if s.be.Some? && r == Be {
      var due :| RunsUntil(u, due) && ClearsAndStarts(s.be.value, Be, t, u.be.value, due);
      var e :| Cleared(s.be.value, false, e) && StartsFirst(e, Be, t, u.be.value, due);
      StartsFirstMeans(e, Be, t, u.be.value, due);
      assert e.procs[j].signalled;
    } else {
      assert r == Sc || r == Be;
    }
  }

  lemma MoveKeepsSignal(w: Win, i: nat, s: Slice, v: Win, t: int, r: Role, j: nat)
    requires MovesOn(w, i, s, v, t) && PartOf(s, r).Some? && j < |PartOf(s, r).value.procs| && PartOf(s, r).value.procs[j].signalled
    ensures |v.slices| == |w.slices| && i < |w.slices| && SignalKept(v.slices[i], r, j)
  {
    hide EndsAndStarts, LaunchedIn;
    var u, due :| MovedSlice(s, u, t, due) &&
                  if due.None? && s.role == Some(Sc) then Reports(w, i, u, v, t) else v == w.(slices := w.slices[i := u]);
    var role := s.role.value;
    assert (role == Sc || role == Be) && (r == Sc || r == Be);
    EndsMeans(PartOf(s, role).value, role, t, PartOf(u, role).value, due);
    assert SignalKept(u, r, j);
    if due.None? && role == Sc && v.finished == |w.slices| {
      var y := u.(signals := u.signals + 1);
      assert LaunchedIn(y, v.slices[i], t);
      LaunchKeepsSignal(y, v.slices[i], t, r, j);
    }
  }

  /** Whoever sends a signal which is passed on: it is noted for that process until it runs again. */
  lemma SignalIsNoted(w0: Win, t0: int, steps: seq<Step>, states: seq<Win>, k: nat)
    requires IsRun(w0, t0, steps, states) && k < |steps| && (steps[k].Complete? || steps[k].Note?)
    ensures steps[k].i < |states[k + 1].slices|
    ensures SignalKept(states[k + 1].slices[steps[k].i], steps[k].role, steps[k].proc)
  {
    hide Becomes, Enabled, Apply, Start, Idle, MovesOn, SlicesAlike, Shaped, SignalKept;
    EventEffect(w0, t0, steps, states, k);
    var w, e := states[k], steps[k];
    if e.Complete? {
      MomentsMove(w, e, states[k + 1], e.now);
      FlagSets(w.slices[e.i], e.role, e.proc);
      MoveKeepsSignal(w, e.i, Signalled(w.slices[e.i], e.role, e.proc), states[k + 1], e.now, e.role, e.proc);
    } else {
      NoteKept(w, e, states[k + 1]);
    }
  }

  lemma FlagSets(s: Slice, r: Role, j: nat)
    requires PartOf(s, r).Some? && j < |PartOf(s, r).value.procs|
    ensures var u := Signalled(s, r, j); PartOf(u, r).Some? && j < |PartOf(u, r).value.procs| && PartOf(u, r).value.procs[j].signalled
  {
  }

  lemma NoteKept(w: Win, e: Step, v: Win)
    requires Enabled(w, e) && Becomes(w, e, v) && e.Note?
    ensures e.i < |v.slices| && SignalKept(v.slices[e.i], e.role, e.proc)
  {
  }

  /** A process which ends is not alive any more, and nothing else changes. */
  lemma ExitEffect(w0: Win, t0: int, steps: seq<Step>, states: seq<Win>, k: nat)
    requires IsRun(w0, t0, steps, states) && k < |steps| && steps[k].Exit?
    ensures var e, w, v := steps[k], states[k], states[k + 1];
            && e.i < |w.slices| && PartOf(w.slices[e.i], e.role).Some? && e.proc < |PartOf(w.slices[e.i], e.role).value.procs|
            && v == w.(slices := w.slices[e.i := Gone(w.slices[e.i], e.role, e.proc)])
            && PartOf(v.slices[e.i], e.role).Some? && !PartOf(v.slices[e.i], e.role).value.procs[e.proc].spawned
  {
    hide Inv, Apply, Start, Idle;
    EventEffect(w0, t0, steps, states, k);
  }

  // ----- The start of a window -----

  /** The safety-critical partition of `s` has been started at `t`; without one the slice reports at once. */
  ghost predicate OpenedIn(s: Slice, u: Slice, t: int) {
    if s.sc.None? then u == s.(signals := 1)
    else
      && u.sc.Some? && u.be == s.be && u.role == Some(Sc)
      && exists due :: RunsUntil(u, due) && ClearsAndStarts(s.sc.value, Sc, t, u.sc.value, due) &&
                       u.signals == (if due.None? then 1 else 0)
  }

  /** All slices have been started as `mid` says; best effort is launched at once if all have reported. */
  ghost predicate OpensBy(w: Win, mid: seq<Slice>, v: Win, t: int) {
    && |mid| == |w.slices| == |v.slices| && v.finished == Signals(mid) && v.stopping == w.stopping
    && (forall m :: 0 <= m < |mid| ==> OpenedIn(w.slices[m], mid[m], t))
    && if |mid| > 0 && forall m :: 0 <= m < |mid| ==> mid[m].signals == 1 then
         v.launches == 1 && forall m :: 0 <= m < |mid| ==> LaunchedIn(mid[m], v.slices[m], t)
       else v.launches == 0 && v.slices == mid
  }

  /** The slices below `i` have been started, and best effort has not been launched. */
  ghost predicate OpenedUpTo(w0: Win, w: Win, i: nat, t: int) {
    && |w.slices| == |w0.slices| && i <= |w.slices| && WinShaped(w) && StartedUpTo(w, i) && w.launches == 0
    && (forall m :: 0 <= m < i ==> OpenedIn(w0.slices[m], w.slices[m], t))
    && (forall m :: i <= m < |w.slices| ==> w.slices[m] == w0.slices[m].(signals := 0))
  }

  lemma OpensOne(w: Win, i: nat, t: int) returns (u: Slice)
    requires WinShaped(w) && StartedUpTo(w, i) && i < |w.slices|
    ensures SliceOk(u) && OpenedIn(w.slices[i], u, t) && u.signals <= 1
    ensures var v := StartScAt(w, i, t);
            if u.signals == 0 then v == w.(slices := w.slices[i := u])
            else Reports(w, i, u.(signals := 0), v, t)
  {
    hide StartsFirst, ScDone, Begin, ScEnd, LaunchedIn, PartIn;
    var s := w.slices[i];
    StartIncomplete(w, i);
    NoneRunsYet(w, i);
    if s.sc.None? {
      u := s.(signals := 1);
      SignalsKeepOk(s, 1);
      ScEndReports(w, i, t);
      assert s == u.(signals := 0);
    } else {
      var b := Begin(s, Sc, t);
      BeginSafe(s, Sc, t);
      BeginStarts(s, Sc, t);
      var due := if b.running then Some(b.timeout) else None;
      u := b.(signals := if b.running then 0 else 1);
      SignalsKeepOk(b, u.signals);
      assert PartOf(s, Sc) == s.sc && PartOf(b, Sc) == b.sc;
      assert RunsUntil(u, due) && ClearsAndStarts(s.sc.value, Sc, t, u.sc.value, due);
      if b.running {
        assert b == u;
      } else {
        var v := w.(slices := w.slices[i := b]);
        assert b == u.(signals := 0);
        ScEndReports(v, i, t);
        ReportsAlike(w, i, b, v, ScEnd(v, i, t), t);
      }
    }
  }

  lemma StartIncomplete(w: Win, i: nat)
    requires StartedUpTo(w, i) && i < |w.slices|
    ensures !AllReported(w) && w.launches == 0
  {
    hide SliceOk, ScDone;
    SignalsFull(w.slices);
  }

  /** If only one report is missing, it is that of the slice about to be started, and nothing runs. */
  lemma NoneRunsYet(w: Win, i: nat)
    requires StartedUpTo(w, i) && i < |w.slices|
    ensures w.finished + 1 == |w.slices| ==> forall k :: 0 <= k < |w.slices| ==> !w.slices[k].running
    ensures w.finished + 1 == |w.slices| ==> forall k :: 0 <= k < |w.slices| && k != i ==> w.slices[k].signals == 1
  {
    hide SliceOk, ScDone;
    StartIncomplete(w, i);
    if w.finished + 1 == |w.slices| {
      ReportLast(w, i, i + 1);
    }
  }

  lemma SignalsAtMost(w: Win, i: nat)
    requires StartedUpTo(w, i)
    ensures w.finished == Signals(w.slices)
    ensures forall k :: 0 <= k < |w.slices| ==> w.slices[k].signals <= 1
    ensures forall k :: i <= k < |w.slices| ==> w.slices[k].signals == 0
  {
    hide SliceOk, ScDone;
  }

  /** Slice `i` has been started as `u`; the window is `v` now. */
  ghost predicate StartedAs(w: Win, i: nat, u: Slice, v: Win, t: int) {
    && i < |w.slices| && u.signals <= 1
    && if u.signals == 0 then v == w.(slices := w.slices[i := u]) else Reports(w, i, u.(signals := 0), v, t)
  }

  lemma OpensMiddle(w0: Win, w: Win, i: nat, u: Slice, v: Win, t: int)
    requires OpenedUpTo(w0, w, i, t) && i + 1 < |w.slices| && OpenedIn(w0.slices[i], u, t) && StartedAs(w, i, u, v, t)
    requires WinShaped(v) && StartedUpTo(v, i + 1)
    ensures OpenedUpTo(w0, v, i + 1, t)
  {
    hide SliceOk, ScDone, OpenedIn, LaunchedIn, StartedUpTo, Shaped;
    SignalsAtMost(w, i);
    NoneRunsYet(w, i);
    assert w.slices[i + 1].signals == 0;
    assert u.signals != 0 ==> u == u.(signals := 0).(signals := 1);
    assert v.slices == w.slices[i := u];
  }

  lemma OpensEnd(w0: Win, w: Win, i: nat, u: Slice, v: Win, t: int)
    requires OpenedUpTo(w0, w, i, t) && i + 1 == |w.slices| && OpenedIn(w0.slices[i], u, t) && StartedAs(w, i, u, v, t)
    requires v.stopping == w0.stopping == w.stopping
    ensures OpensBy(w0, w.slices[i := u], v, t)
  {
    hide SliceOk, ScDone, OpenedIn, LaunchedIn, StartedUpTo, Shaped;
    SignalsAtMost(w, i);
    SignalsUpdate(w.slices, i, u);
    var mid := w.slices[i := u];
    assert forall k :: 0 <= k < |mid| ==> mid[k].signals <= 1;
    SignalsFull(mid);
    if u.signals != 0 {
      assert u == u.(signals := 0).(signals := 1);
      ReportsLaunch(w, i, u, v, t);
    }
  }

  lemma ReportsLaunch(w: Win, i: nat, u: Slice, v: Win, t: int)
    requires i < |w.slices| && u.signals == 1 && Reports(w, i, u.(signals := 0), v, t)
    ensures |v.slices| == |w.slices| && v.finished == w.finished + 1
    ensures if v.finished == |w.slices| then
              && v.launches == w.launches + 1
              && forall m :: 0 <= m < |w.slices| ==> LaunchedIn(w.slices[i := u][m], v.slices[m], t)
            else v.launches == w.launches && v.slices == w.slices[i := u]
  {
    hide LaunchedIn;
    assert u == u.(signals := 0).(signals := 1);
    if v.finished == |w.slices| {
      forall m | 0 <= m < |w.slices|
        ensures LaunchedIn(w.slices[i := u][m], v.slices[m], t)
      {
        assert LaunchedIn(if m == i then u else w.slices[m], v.slices[m], t);
      }
    }
  }

  lemma OpensNext(w0: Win, w: Win, i: nat, t: int)
    requires OpenedUpTo(w0, w, i, t) && i < |w.slices| && w.stopping == w0.stopping
    ensures var v := StartScAt(w, i, t);
            if i + 1 == |w.slices| then OpensLast(w0, v, t) else OpenedUpTo(w0, v, i + 1, t)
  {
    hide SliceOk, ScDone, OpenedIn, LaunchedIn, StartScAt, InPhase, OpensBy, Reports, Shaped;
    var u := OpensOne(w, i, t);
    var v := StartScAt(w, i, t);
    StartScAtSafe(w, i, t);
    OpenedFrom(w0.slices[i], w.slices[i], u, t);
    if i + 1 == |w.slices| {
      OpensEnd(w0, w, i, u, v, t);
    } else {
      OpensMiddle(w0, w, i, u, v, t);
    }
  }

  lemma {:induction false} StartFromOpens(w0: Win, w: Win, i: nat, t: int)
    requires OpenedUpTo(w0, w, i, t) && i < |w.slices| && w.stopping == w0.stopping
    ensures OpensLast(w0, StartFrom(w, i, t), t)
    decreases |w.slices| - i
  {
    hide OpenedUpTo, OpensLast, StartScAt;
    OpenedShape(w0, w, i, t);
    OpensNext(w0, w, i, t);
    if i + 1 < |w.slices| {
      StartFromOpens(w0, StartScAt(w, i, t), i + 1, t);
    }
  }

  lemma OpenedShape(w0: Win, w: Win, i: nat, t: int)
    requires OpenedUpTo(w0, w, i, t)
    ensures WinShaped(w) && |w.slices| == |w0.slices|
  {
  }

  /**
   * The start of a window, on the fields: every slice starts its safety-critical partition at the
   * first process which is up, from the first one on, or reports if there is none; if all have
   * reported, best effort is launched at once.
   */
  lemma StartOpens(w: Win, t: int)
    requires Idle(w)
    ensures WinShaped(w) && OpensLast(w, Start(w, t), t)
  {
    hide OpenedIn, LaunchedIn, StartScAt, SliceOk;
    UnsignalledSafe(w);
    StartSafe(w, t);
    var u := w.(finished := 0, launches := 0, slices := Unsignalled(w.slices));
    if |w.slices| > 0 {
      StartIncomplete(u, 0);
      assert OpenedUpTo(w, u, 0, t);
      StartFromOpens(w, u, 0, t);
    } else {
      assert OpensBy(w, [], Start(w, t), t);
    }
  }

  ghost predicate OpensLast(w0: Win, v: Win, t: int) {
    exists mid :: OpensBy(w0, mid, v, t)
  }

  lemma OpenedFrom(s0: Slice, s: Slice, u: Slice, t: int)
    requires s == s0.(signals := 0) && OpenedIn(s, u, t)
    ensures OpenedIn(s0, u, t)
  {
  }

  // ----- The end of a window -----

  /** The cursor goes to the first pending process from where it is, or one on if there is none. */
  ghost predicate Seeks(p: Part, q: Part) {
    && q.procs == p.procs && q.log == p.log && p.cur < |p.procs|
    && (forall k: nat :: k < |p.procs| && Pending(At(p, p.cur, k)) && (forall m :: 0 <= m < k ==> !Pending(At(p, p.cur, m))) ==>
          q.cur == Ahead(|p.procs|, p.cur, k))
    && ((forall m :: 0 <= m < |p.procs| ==> !Pending(At(p, p.cur, m))) ==> q.cur == Next(|p.procs|, p.cur))
  }

  /** The process under the cursor is cut off at `t`, with `left` milliseconds for the next window if it is best effort. */
  ghost predicate CutsCurrent(p: Part, role: Role, t: int, left: int, q: Part) {
    && p.cur < |p.procs| == |q.procs| && q.cur == p.cur && q.log == p.log + [Ended(t, role, p.cur, false)]
    && forall j :: 0 <= j < |p.procs| ==>
         q.procs[j] ==
         if j != p.cur then p.procs[j]
         else if role == Be then p.procs[j].(frozen := true, actual := left)
         else p.procs[j].(frozen := true)
  }

  /** What stopping the slice at `t` makes of its partitions. */
  ghost predicate StopsIn(s: Slice, u: Slice, t: int) {
    if !s.running then u.sc == s.sc && u.be == s.be
    else
      && s.role.Some? && PartOf(s, s.role.value).Some? && PartOf(u, s.role.value).Some?
      && var role := s.role.value;
         var p, q, left := PartOf(s, role).value, PartOf(u, role).value, TruncMs(s.timeout - t);
         && (if role == Sc then u.be == s.be else u.sc == s.sc)
         && if left == 0 then exists e :: EndsCurrent(p, role, t, e) && Seeks(e, q) else CutsCurrent(p, role, t, left, q)
  }

  lemma SeekSeeks(p: Part)
    requires PartOk(p)
    ensures Seeks(p, SeekPart(p).0)
  {
    hide ProcOk;
    SeekFirst(p);
    var (q, found) := SeekPart(p);
    forall k: nat | k < |p.procs| && Pending(At(p, p.cur, k)) && forall m :: 0 <= m < k ==> !Pending(At(p, p.cur, m))
      ensures q.cur == Ahead(|p.procs|, p.cur, k)
    {
      if found {
        var l: nat :| l < |p.procs| && q.cur == Ahead(|p.procs|, p.cur, l) && Pending(At(p, p.cur, l)) &&
                      forall m :: 0 <= m < l ==> !Pending(At(p, p.cur, m));
        assert !(k < l) && !(l < k);
      }
    }
  }

  lemma StopSliceStops(s: Slice, t: int)
    requires SliceOk(s)
    ensures StopsIn(s, StopSlice(s, t).0, t)
  {
    hide Quiet, Seeks, PartOk, Seek;
    if s.running {
      var role, p := s.role.value, Current(s);
      assert role == Sc || role == Be;
      if Remaining(s, t) == 0 {
        EndIs(p, role, t);
        EndSafe(s, t, true);
        var e := EndInSlice(s, t, true);
        assert Current(e) == EndCurrent(p, role, t, true);
        CurrentOk(e);
        SeekSeeks(Current(e));
      } else {
        CutIs(p, role, t, Remaining(s, t));
      }
    }
  }

  lemma CutIs(p: Part, role: Role, t: int, left: int)
    requires p.cur < |p.procs| && !p.procs[p.cur].completed
    ensures CutsCurrent(p, role, t, left, EndCurrent(if role == Be then SetRemaining(p, left) else p, role, t, false))
  {
  }

  /**
   * The end of a window, on the fields: who runs is frozen and taken back, its remainder is kept if
   * it is best effort; with less than a millisecond left it is through.
   */
  lemma StopEffect(w0: Win, t0: int, steps: seq<Step>, states: seq<Win>, k: nat, t: int)
    requires IsRun(w0, t0, steps, states) && k <= |steps|
    ensures WinShaped(states[k])
    ensures forall m :: 0 <= m < |states[k].slices| ==> StopsIn(states[k].slices[m], Stop(states[k], t).slices[m], t)
  {
    hide StopSlice, StopsIn, SliceOk, InPhase, Start, Apply, Enabled, Idle;
    RunKeepsInv(w0, t0, steps, states, k);
    var w := states[k];
    InvMeans(w);
    StopFromParts(w.(stopping := true), 0, t);
    forall m | 0 <= m < |w.slices|
      ensures StopsIn(w.slices[m], Stop(w, t).slices[m], t)
    {
      StopSliceStops(w.slices[m], t);
      StopsAlike(w.slices[m], StopSlice(w.slices[m], t).0, Stop(w, t).slices[m], t);
    }
  }

  lemma InvMeans(w: Win)
    requires Inv(w)
    ensures WinShaped(w) && forall m :: 0 <= m < |w.slices| ==> SliceOk(w.slices[m])
  {
  }

  lemma StopsAlike(s: Slice, a: Slice, b: Slice, t: int)
    requires StopsIn(s, a, t) && b.sc == a.sc && b.be == a.be
    ensures StopsIn(s, b, t)
  {
  }
}
