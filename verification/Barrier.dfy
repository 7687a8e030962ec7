/**
 * What holds over every run from the start of the initialization on: the end of a process is
 * handled exactly once, and the initialization is declared over at the right moment, or when a
 * process was counted twice.
 */
module Barrier {
  import opened Lifecycle

  /** Kernel events, their notifications, and signals of completion, in any order. */
  datatype Event =
    | Forks(g: nat, p: nat)
    | ChildDies(g: nat, p: nat)
    | OrphanDies(g: nat, p: nat)
    | Reap(g: nat, p: nat)
    | Notify(g: nat, p: nat)
    | Signal(g: nat, p: nat)

  /**
   * An empty cgroup stays empty. A notification may come at any time, also when nothing changed.
   * During the initialization a process signals, once, if it is thawed, or was until it ended: what
   * it wrote before is still read then.
   */
  predicate Enabled(m: Manager, e: Event) {
    && At(m, e.g, e.p)
    && var c := Get(m, e.g, e.p);
       match e
       case Forks(_, _) => Populated(c)
       case ChildDies(_, _) => c.alive
       case OrphanDies(_, _) => c.others > 0
       case Reap(_, _) => !c.alive && !c.reaped
       case Notify(_, _) => true
       case Signal(_, _) => m.initializing ==> c.init && !c.signalled && (!c.frozen || c.ended > 0)
  }

  function Apply(m: Manager, e: Event): Manager
    requires Enabled(m, e)
  {
    var c := Get(m, e.g, e.p);
    match e
    case Forks(g, p) => Put(m, g, p, c.(others := c.others + 1))
    case ChildDies(g, p) => Put(m, g, p, c.(alive := false))
    case OrphanDies(g, p) => Put(m, g, p, c.(others := c.others - 1))
    case Reap(g, p) => Reaped(m, g, p)
    case Notify(g, p) => Notified(m, g, p)
    case Signal(g, p) => Signalled(m, g, p)
  }

  /** All processes have been created, none has run. */
  ghost predicate Created(m: Manager) {
    && m.remaining == 0 && m.barrier == [] && m.completions == 0
    && forall g :: 0 <= g < |m.groups| ==>
         && m.groups[g].empty == (|m.groups[g].procs| == 0)
         && forall p :: 0 <= p < |m.groups[g].procs| ==>
              var c := m.groups[g].procs[p];
              c.spawned && !c.waiting && c.frozen && !c.signalled && c.ended == 0 && !c.reaped
  }

  ghost predicate IsRun(m: Manager, events: seq<Event>, states: seq<Manager>) {
    && Created(m)
    && |states| == |events| + 1
    && states[0] == RunInit(m)
    && forall k :: 0 <= k < |events| ==> Enabled(states[k], events[k]) && states[k + 1] == Apply(states[k], events[k])
  }

  // ----- What is known of every process and partition -----

  ghost predicate ChildOk(c: Child) {
    && c.ended <= 1
    && (c.spawned <==> c.ended == 0)
    && (c.ended == 1 <==> c.reaped && !c.waiting)
    && (c.waiting ==> c.reaped)
    && (c.reaped ==> !c.alive)
    && (c.ended == 1 ==> !Populated(c))
  }

  ghost predicate GroupOk(h: Group) {
    && (h.empty <==> NoneSpawned(h.procs))
    && forall p :: 0 <= p < |h.procs| ==> ChildOk(h.procs[p])
  }

  ghost predicate LifeOk(groups: seq<Group>) {
    forall g :: 0 <= g < |groups| ==> GroupOk(groups[g])
  }

  ghost predicate HasProcs(groups: seq<Group>) {
    exists g :: 0 <= g < |groups| && |groups[g].procs| > 0
  }

  /** The completion callback is called once, when the last process has ended. */
  ghost predicate CompletionOk(m: Manager) {
    m.completions == if AllEmpty(m.groups) && HasProcs(m.groups) then 1 else 0
  }

  // ----- Counting initializations -----

  /** What a process contributes to the number of initializations still awaited. */
  function Owes(c: Child): int {
    if !c.init then 0 else 1 - (if c.signalled then 1 else 0) - c.ended
  }

  function OwedIn(procs: seq<Child>): int {
    if |procs| == 0 then 0 else OwedIn(procs[..|procs| - 1]) + Owes(procs[|procs| - 1])
  }

  function Owed(groups: seq<Group>): int {
    if |groups| == 0 then 0 else Owed(groups[..|groups| - 1]) + OwedIn(groups[|groups| - 1].procs)
  }

  lemma {:induction false} OwedInUpdate(procs: seq<Child>, p: nat, c: Child)
    requires p < |procs|
    ensures OwedIn(procs[p := c]) == OwedIn(procs) - Owes(procs[p]) + Owes(c)
  {
    var n := |procs| - 1;
    if p == n {
      assert procs[p := c][..n] == procs[..n];
    } else {
      assert procs[p := c][..n] == procs[..n][p := c];
      OwedInUpdate(procs[..n], p, c);
    }
  }

  lemma {:induction false} OwedGroup(groups: seq<Group>, g: nat, h: Group)
    requires g < |groups|
    ensures Owed(groups[g := h]) == Owed(groups) - OwedIn(groups[g].procs) + OwedIn(h.procs)
  {
    var n := |groups| - 1;
    if g == n {
      assert groups[g := h][..n] == groups[..n];
    } else {
      assert groups[g := h][..n] == groups[..n][g := h];
      OwedGroup(groups[..n], g, h);
    }
  }

  lemma OwedUpdate(m: Manager, g: nat, p: nat, c: Child)
    requires At(m, g, p)
    ensures Owed(Put(m, g, p, c).groups) == Owed(m.groups) - Owes(Get(m, g, p)) + Owes(c)
  {
    OwedInUpdate(m.groups[g].procs, p, c);
    OwedGroup(m.groups, g, m.groups[g].(procs := m.groups[g].procs[p := c]));
  }

  lemma {:induction false} OwedInSame(a: seq<Child>, b: seq<Child>)
    requires |a| == |b| && forall p :: 0 <= p < |a| ==> Owes(a[p]) == Owes(b[p])
    ensures OwedIn(a) == OwedIn(b)
  {
    if |a| > 0 {
      OwedInSame(a[..|a| - 1], b[..|b| - 1]);
    }
  }

  lemma {:induction false} OwedSame(a: seq<Group>, b: seq<Group>)
    requires |a| == |b| && forall g :: 0 <= g < |a| ==> OwedIn(a[g].procs) == OwedIn(b[g].procs)
    ensures Owed(a) == Owed(b)
  {
    if |a| > 0 {
      OwedSame(a[..|a| - 1], b[..|b| - 1]);
    }
  }

  /** The process has signalled the end of its initialization, or exited. */
  predicate Done(c: Child) {
    c.init ==> c.signalled || c.ended > 0
  }

  /** The process has signalled and exited as well. */
  predicate Twice(c: Child) {
    c.init && c.signalled && c.ended > 0
  }

  ghost predicate EachDone(groups: seq<Group>) {
    forall g, p :: 0 <= g < |groups| && 0 <= p < |groups[g].procs| ==> Done(groups[g].procs[p])
  }

  ghost predicate NoneTwice(groups: seq<Group>) {
    forall g, p :: 0 <= g < |groups| && 0 <= p < |groups[g].procs| ==> !Twice(groups[g].procs[p])
  }

  lemma {:induction false} OwedInBounds(procs: seq<Child>)
    requires forall p :: 0 <= p < |procs| ==> procs[p].ended <= 1
    ensures (forall p :: 0 <= p < |procs| ==> !Twice(procs[p])) ==>
              OwedIn(procs) >= 0 && (OwedIn(procs) == 0 <==> forall p :: 0 <= p < |procs| ==> Done(procs[p]))
    ensures (forall p :: 0 <= p < |procs| ==> Done(procs[p])) ==>
              OwedIn(procs) <= 0 && (OwedIn(procs) == 0 <==> forall p :: 0 <= p < |procs| ==> !Twice(procs[p]))
  {
    if |procs| > 0 {
      var n := |procs| - 1;
      OwedInBounds(procs[..n]);
      assert forall p :: 0 <= p < n ==> procs[..n][p] == procs[p];
    }
  }

  /**
   * Nothing is owed: then all are done iff none was counted twice; and as long as none was counted
   * twice, something is owed iff one is not done.
   */
  lemma {:induction false} OwedBounds(groups: seq<Group>)
    requires LifeOk(groups)
    ensures NoneTwice(groups) ==> Owed(groups) >= 0 && (Owed(groups) == 0 <==> EachDone(groups))
    ensures EachDone(groups) ==> Owed(groups) <= 0 && (Owed(groups) == 0 <==> NoneTwice(groups))
  {
    hide OwedIn, Done, Twice;
    if |groups| > 0 {
      var n := |groups| - 1;
      OwedBounds(groups[..n]);
      assert GroupOk(groups[n]);
      OwedInBounds(groups[n].procs);
      assert forall g :: 0 <= g < n ==> groups[..n][g] == groups[g];
      assert NoneTwice(groups) <==> NoneTwice(groups[..n]) && forall p :: 0 <= p < |groups[n].procs| ==> !Twice(groups[n].procs[p]);
      assert EachDone(groups) <==> EachDone(groups[..n]) && forall p :: 0 <= p < |groups[n].procs| ==> Done(groups[n].procs[p]);
    }
  }

  // ----- The invariant -----

  /** Exactly the processes whose initialization is under way may execute. */
  predicate Held(c: Child) {
    c.frozen <==> !(c.init && !c.signalled && c.ended == 0)
  }

  ghost predicate AllHeld(groups: seq<Group>, connected: bool) {
    forall g :: 0 <= g < |groups| ==>
      && groups[g].connected == connected
      && forall p :: 0 <= p < |groups[g].procs| ==> Held(groups[g].procs[p])
  }

  /** What was done stays done. */
  ghost predicate Later(a: seq<Group>, b: seq<Group>) {
    && |a| == |b|
    && forall g :: 0 <= g < |a| ==>
         && |a[g].procs| == |b[g].procs|
         && forall p :: 0 <= p < |a[g].procs| ==>
              var c, d := a[g].procs[p], b[g].procs[p];
              c.init == d.init && (c.signalled ==> d.signalled) && c.ended <= d.ended
  }

  /** Nobody was frozen or thawed in between. */
  ghost predicate StillFrozen(a: seq<Group>, b: seq<Group>) {
    && |a| == |b|
    && forall g :: 0 <= g < |a| ==>
         && |a[g].procs| == |b[g].procs|
         && forall p :: 0 <= p < |a[g].procs| ==> a[g].procs[p].frozen == b[g].procs[p].frozen
  }

  ghost predicate BarrierOk(m: Manager) {
    if m.initializing then
      && m.barrier == [] && m.remaining > 0
      && m.remaining == Owed(m.groups)
      && AllHeld(m.groups, true)
    else
      && |m.barrier| == 1
      && LifeOk(m.barrier[0]) && Owed(m.barrier[0]) == 0
      && AllHeld(m.barrier[0], false)
      && Later(m.barrier[0], m.groups) && StillFrozen(m.barrier[0], m.groups)
      && forall g :: 0 <= g < |m.groups| ==> !m.groups[g].connected
  }

  ghost predicate Inv(m: Manager) {
    LifeOk(m.groups) && CompletionOk(m) && BarrierOk(m)
  }

  /** `b` differs from `a` only in who is frozen and what is connected. */
  ghost predicate Alike(a: seq<Group>, b: seq<Group>) {
    && |a| == |b|
    && forall g :: 0 <= g < |a| ==>
         && |a[g].procs| == |b[g].procs| && a[g].empty == b[g].empty
         && forall p :: 0 <= p < |a[g].procs| ==> b[g].procs[p] == a[g].procs[p].(frozen := b[g].procs[p].frozen)
  }

  lemma AlikeKeeps(a: seq<Group>, b: seq<Group>)
    requires Alike(a, b)
    ensures LifeOk(a) ==> LifeOk(b)
    ensures AllEmpty(a) == AllEmpty(b) && HasProcs(a) == HasProcs(b)
    ensures Owed(a) == Owed(b) && Later(a, b)
  {
    forall g | 0 <= g < |a|
      ensures OwedIn(a[g].procs) == OwedIn(b[g].procs)
      ensures GroupOk(a[g]) ==> GroupOk(b[g])
    {
      OwedInSame(a[g].procs, b[g].procs);
    }
    OwedSame(a, b);
  }

  // One partition changes, the others do not.

  lemma LifeGroup(groups: seq<Group>, g: nat, h: Group)
    requires LifeOk(groups) && g < |groups| && GroupOk(h)
    ensures LifeOk(groups[g := h])
  {
    hide GroupOk;
  }

  lemma HeldGroup(groups: seq<Group>, g: nat, h: Group, connected: bool)
    requires AllHeld(groups, connected) && g < |groups| && h.connected == connected
    requires forall p :: 0 <= p < |h.procs| ==> Held(h.procs[p])
    ensures AllHeld(groups[g := h], connected)
  {
    hide Held;
  }

  lemma LaterGroup(a: seq<Group>, groups: seq<Group>, g: nat, p: nat, h: Group)
    requires Later(a, groups) && g < |groups| && p < |groups[g].procs|
    requires |h.procs| == |groups[g].procs|
    requires forall k :: 0 <= k < |h.procs| && k != p ==> h.procs[k] == groups[g].procs[k]
    requires var c, d := groups[g].procs[p], h.procs[p];
             c.init == d.init && (c.signalled ==> d.signalled) && c.ended <= d.ended
    ensures Later(a, groups[g := h])
  {
    var b := groups[g := h];
    forall k | 0 <= k < |a|
      ensures |a[k].procs| == |b[k].procs|
      ensures forall j :: 0 <= j < |a[k].procs| ==>
                var c, d := a[k].procs[j], b[k].procs[j];
                c.init == d.init && (c.signalled ==> d.signalled) && c.ended <= d.ended
    {
    }
  }

  lemma StillGroup(a: seq<Group>, groups: seq<Group>, g: nat, p: nat, h: Group)
    requires StillFrozen(a, groups) && g < |groups| && p < |groups[g].procs| && |h.procs| == |groups[g].procs|
    requires forall k :: 0 <= k < |h.procs| && k != p ==> h.procs[k] == groups[g].procs[k]
    requires groups[g].procs[p].frozen == h.procs[p].frozen
    ensures StillFrozen(a, groups[g := h])
  {
    var b := groups[g := h];
    forall k | 0 <= k < |a|
      ensures |a[k].procs| == |b[k].procs|
      ensures forall j :: 0 <= j < |a[k].procs| ==> a[k].procs[j].frozen == b[k].procs[j].frozen
    {
    }
  }

  lemma CompletionGroup(m: Manager, g: nat, h: Group)
    requires CompletionOk(m) && g < |m.groups| && |m.groups[g].procs| > 0
    requires |h.procs| > 0 && h.empty == m.groups[g].empty
    ensures CompletionOk(m.(groups := m.groups[g := h]))
  {
    var n := m.(groups := m.groups[g := h]);
    assert HasProcs(m.groups) by {
      assert |m.groups[g].procs| > 0;
    }
    assert HasProcs(n.groups) by {
      assert |n.groups[g].procs| > 0;
    }
    assert AllEmpty(n.groups) == AllEmpty(m.groups) by {
      assert forall k :: 0 <= k < |n.groups| ==> n.groups[k].empty == m.groups[k].empty;
    }
  }

  lemma FrozenAlike(m: Manager, g: nat, p: nat)
    requires At(m, g, p)
    ensures Alike(m.groups, Put(m, g, p, Get(m, g, p).(frozen := true)).groups)
  {
    var h := m.groups[g].(procs := m.groups[g].procs[p := Get(m, g, p).(frozen := true)]);
    var b := m.groups[g := h];
    forall k | 0 <= k < |b|
      ensures |m.groups[k].procs| == |b[k].procs| && m.groups[k].empty == b[k].empty
      ensures forall j :: 0 <= j < |b[k].procs| ==> b[k].procs[j] == m.groups[k].procs[j].(frozen := b[k].procs[j].frozen)
    {
      if k == g {
        assert b[k] == h;
      } else {
        assert b[k] == m.groups[k];
      }
    }
  }

  lemma ConnectedAlike(a: seq<Group>, to: bool)
    ensures Alike(a, Connected(a, to)) && Alike(Connected(a, to), Connected(a, to))
    ensures AllHeld(a, !to) ==> AllHeld(Connected(a, to), to)
  {
  }

  lemma AlikeTransitive(a: seq<Group>, b: seq<Group>, c: seq<Group>)
    requires Alike(a, b) && Alike(b, c)
    ensures Alike(a, c)
  {
  }

  /** The initialization is over once nothing is owed. */
  lemma FinishKeeps(n: Manager)
    requires n.initializing && n.barrier == [] && n.remaining == 0
    requires LifeOk(n.groups) && Owed(n.groups) == 0 && AllHeld(n.groups, true)
    ensures var r := FinishInit(n);
            Alike(n.groups, r.groups) && LifeOk(r.groups) && BarrierOk(r)
  {
    var c := Connected(n.groups, false);
    ConnectedAlike(n.groups, false);
    AlikeKeeps(n.groups, c);
    AlikeKeeps(c, c);
    hide Alike, LifeOk, AllHeld, Owed, Later;
    assert n.barrier + [c] == [c];
  }

  /** The initialization of process `p` of partition `g` counts as over. */
  lemma InitDoneKeeps(m: Manager, g: nat, p: nat)
    requires At(m, g, p) && m.initializing && m.barrier == []
    requires LifeOk(m.groups) && m.remaining > 0 && m.remaining - 1 == Owed(m.groups)
    requires AllHeld(Put(m, g, p, Get(m, g, p).(frozen := true)).groups, true)
    ensures var r := InitDone(m, g, p);
            Alike(m.groups, r.groups) && LifeOk(r.groups) && BarrierOk(r) && r.completions == m.completions
  {
    var n := Put(m, g, p, Get(m, g, p).(frozen := true)).(remaining := m.remaining - 1);
    FrozenAlike(m, g, p);
    AlikeKeeps(m.groups, n.groups);
    hide Alike, LifeOk, AllHeld, Owed, Later;
    if n.remaining == 0 {
      FinishKeeps(n);
      AlikeTransitive(m.groups, n.groups, FinishInit(n).groups);
    }
  }

  /** A process changes in a way which settles nothing: Put of `c` keeps the invariant. */
  lemma PutKeeps(m: Manager, g: nat, p: nat, c: Child)
    requires Inv(m) && At(m, g, p) && ChildOk(c)
    requires var x := Get(m, g, p);
             && c.init == x.init && c.spawned == x.spawned && c.frozen == x.frozen
             && c.ended == x.ended && (x.signalled ==> c.signalled)
    requires m.initializing ==> c.signalled == Get(m, g, p).signalled
    ensures Inv(Put(m, g, p, c))
  {
    var h := m.groups[g].(procs := m.groups[g].procs[p := c]);
    LifePut(m.groups[g], p, c);
    OwedUpdate(m, g, p, c);
    hide Owed, LifeOk, GroupOk, ChildOk;
    LifeGroup(m.groups, g, h);
    CompletionGroup(m, g, h);
    if m.initializing {
      HeldPut(m.groups, g, p, c);
    } else {
      LaterGroup(m.barrier[0], m.groups, g, p, h);
      StillGroup(m.barrier[0], m.groups, g, p, h);
      hide AllHeld, Later, StillFrozen;
    }
  }

  lemma HeldPut(groups: seq<Group>, g: nat, p: nat, c: Child)
    requires AllHeld(groups, true) && g < |groups| && p < |groups[g].procs| && Held(c)
    ensures AllHeld(groups[g := groups[g].(procs := groups[g].procs[p := c])], true)
  {
    hide Held;
    HeldGroup(groups, g, groups[g].(procs := groups[g].procs[p := c]), true);
  }

  lemma LifePut(h: Group, p: nat, c: Child)
    requires GroupOk(h) && p < |h.procs| && ChildOk(c) && c.spawned == h.procs[p].spawned
    ensures GroupOk(h.(procs := h.procs[p := c]))
  {
    hide ChildOk;
    var procs := h.procs[p := c];
    assert NoneSpawned(procs) <==> NoneSpawned(h.procs) by {
      assert forall k :: 0 <= k < |procs| ==> procs[k].spawned == h.procs[k].spawned;
    }
  }

  /** A partition after process `p` has become `c` and the flag `empty` was brought up to date. */
  function Updated(h: Group, p: nat, c: Child): Group
    requires p < |h.procs|
  {
    var procs := h.procs[p := c];
    h.(procs := procs, empty := NoneSpawned(procs))
  }

  predicate Ends(x: Child, c: Child) {
    && x.spawned && x.ended == 0 && !c.spawned && c.ended == 1
    && c.init == x.init && c.frozen == x.frozen && c.signalled == x.signalled
  }

  lemma UpdatedLife(m: Manager, g: nat, p: nat, c: Child)
    requires LifeOk(m.groups) && CompletionOk(m) && At(m, g, p) && Ends(Get(m, g, p), c) && ChildOk(c)
    ensures var groups := m.groups[g := Updated(m.groups[g], p, c)];
            LifeOk(groups) && HasProcs(groups) && m.completions == 0
  {
    assert GroupOk(m.groups[g]);
    assert !m.groups[g].empty by {
      assert m.groups[g].procs[p].spawned;
    }
    var h := Updated(m.groups[g], p, c);
    assert GroupOk(h);
    LifeGroup(m.groups, g, h);
    assert |m.groups[g := h][g].procs| > 0;
  }

  lemma UpdatedOwed(m: Manager, g: nat, p: nat, c: Child)
    requires At(m, g, p) && Ends(Get(m, g, p), c)
    ensures Owed(m.groups[g := Updated(m.groups[g], p, c)]) == Owed(m.groups) - if c.init then 1 else 0
  {
    OwedInUpdate(m.groups[g].procs, p, c);
    OwedGroup(m.groups, g, Updated(m.groups[g], p, c));
  }

  /** While initializations are under way: the process held from now on. */
  lemma UpdatedHeld(groups: seq<Group>, g: nat, p: nat, c: Child)
    requires AllHeld(groups, true) && g < |groups| && p < |groups[g].procs| && Ends(groups[g].procs[p], c)
    ensures var u := groups[g := Updated(groups[g], p, c)];
            if c.init then AllHeld(u[g := u[g].(procs := u[g].procs[p := c.(frozen := true)])], true)
            else AllHeld(u, true)
  {
    var h := Updated(groups[g], p, c);
    assert forall k :: 0 <= k < |h.procs| && k != p ==> h.procs[k] == groups[g].procs[k];
    if c.init {
      var f := h.(procs := h.procs[p := c.(frozen := true)]);
      assert forall k :: 0 <= k < |f.procs| ==> Held(f.procs[k]);
      HeldGroup(groups, g, f, true);
      assert groups[g := h][g := f] == groups[g := f];
    } else {
      assert Held(c);
      HeldGroup(groups, g, h, true);
    }
  }

  lemma UpdatedBarrier(m: Manager, g: nat, p: nat, c: Child)
    requires BarrierOk(m) && At(m, g, p) && Ends(Get(m, g, p), c)
    requires m.initializing ==> !c.init
    ensures BarrierOk(m.(groups := m.groups[g := Updated(m.groups[g], p, c)]))
  {
    UpdatedOwed(m, g, p, c);
    hide Owed, LifeOk;
    if m.initializing {
      UpdatedHeld(m.groups, g, p, c);
      hide AllHeld;
    } else {
      LaterGroup(m.barrier[0], m.groups, g, p, Updated(m.groups[g], p, c));
      StillGroup(m.barrier[0], m.groups, g, p, Updated(m.groups[g], p, c));
      hide AllHeld, Later, StillFrozen;
    }
  }

  /** `ProcExit` of the process which became `c`, in terms of `Updated`. */
  lemma ProcExitIs(m: Manager, g: nat, p: nat, c: Child)
    requires At(m, g, p)
    ensures var n := m.(groups := m.groups[g := Updated(m.groups[g], p, c)]);
            && At(n, g, p) && Get(n, g, p) == c
            && ProcExit(Put(m, g, p, c), g, p) == ExitSeen(if n.initializing && c.init then InitDone(n, g, p) else n, g)
  {
    hide ExitSeen, InitDone, NoneSpawned;
    var h := m.groups[g].(procs := m.groups[g].procs[p := c]);
    assert m.groups[g := h][g := Updated(m.groups[g], p, c)] == m.groups[g := Updated(m.groups[g], p, c)];
  }

  /** The callback of the process manager for a partition which has just lost a process. */
  lemma ExitSeenKeeps(r: Manager, g: nat)
    requires LifeOk(r.groups) && BarrierOk(r) && g < |r.groups| && HasProcs(r.groups) && r.completions == 0
    ensures Inv(ExitSeen(r, g))
  {
    hide LifeOk, AllHeld, Later, Owed, HasProcs;
    if AllEmpty(r.groups) {
      assert r.groups[g].empty;
    }
  }

  /** The end of process `p`, now known to the partition, is passed on. */
  lemma ProcExitKeeps(m: Manager, g: nat, p: nat, c: Child)
    requires Inv(m) && At(m, g, p)
    requires Ends(Get(m, g, p), c) && ChildOk(c)
    ensures Inv(ProcExit(Put(m, g, p, c), g, p))
  {
    var n := m.(groups := m.groups[g := Updated(m.groups[g], p, c)]);
    UpdatedLife(m, g, p, c);
    UpdatedOwed(m, g, p, c);
    ProcExitIs(m, g, p, c);
    hide LifeOk, ChildOk, Owed, AllHeld, Later, Alike, Ends, HasProcs, ProcExit, Updated, ExitSeen, Inv, AllEmpty;
    if m.initializing && c.init {
      UpdatedHeld(m.groups, g, p, c);
      InitDoneKeeps(n, g, p);
      AlikeKeeps(n.groups, InitDone(n, g, p).groups);
      ExitSeenKeeps(InitDone(n, g, p), g);
    } else {
      UpdatedBarrier(m, g, p, c);
      ExitSeenKeeps(n, g);
    }
  }

  lemma StepKeeps(m: Manager, e: Event)
    requires Inv(m) && Enabled(m, e)
    ensures Inv(Apply(m, e))
  {
    var g, p := e.g, e.p;
    var c := Get(m, g, p);
    assert GroupOk(m.groups[g]) && ChildOk(c);
    hide Inv, GroupOk;
    match e
    case Forks(_, _) => PutKeeps(m, g, p, c.(others := c.others + 1));
    case ChildDies(_, _) => PutKeeps(m, g, p, c.(alive := false));
    case OrphanDies(_, _) => PutKeeps(m, g, p, c.(others := c.others - 1));
    case Reap(_, _) =>
      var d := c.(reaped := true);
      if c.others > 0 {
        PutKeeps(m, g, p, d.(waiting := true));
      } else {
        EndKeeps(m, g, p, d);
      }
    case Notify(_, _) =>
      if !Populated(c) && c.waiting {
        EndKeeps(m, g, p, c.(waiting := false));
      }
    case Signal(_, _) => SignalKeeps(m, g, p);
  }

  lemma EndKeeps(m: Manager, g: nat, p: nat, d: Child)
    requires Inv(m) && At(m, g, p)
    requires var c := Get(m, g, p);
             && ChildOk(c) && c.ended == 0 && !Populated(c)
             && d == c.(reaped := true, waiting := false)
    ensures Inv(HandleEnd(Put(m, g, p, d), g, p))
  {
    var e := d.(spawned := false, ended := 1);
    PutTwice(m, g, p, d, e);
    assert Ends(Get(m, g, p), e) && ChildOk(e);
    hide Inv, ProcExit, ChildOk, Ends, Put;
    assert HandleEnd(Put(m, g, p, d), g, p) == ProcExit(Put(m, g, p, e), g, p);
    ProcExitKeeps(m, g, p, e);
  }

  lemma SignalKeeps(m: Manager, g: nat, p: nat)
    requires Inv(m) && Enabled(m, Signal(g, p))
    ensures Inv(Signalled(m, g, p))
  {
    var c := Get(m, g, p).(signalled := true);
    assert GroupOk(m.groups[g]) && ChildOk(Get(m, g, p));
    if m.initializing {
      var n := Put(m, g, p, c);
      LifePut(m.groups[g], p, c);
      LifeGroup(m.groups, g, n.groups[g]);
      OwedUpdate(m, g, p, c);
      CompletionGroup(m, g, n.groups[g]);
      assert n.groups[g].connected;
      HeldPut(m.groups, g, p, c.(frozen := true));
      PutTwice(m, g, p, c, c.(frozen := true));
      hide GroupOk, Owed, ChildOk, LifeOk, AllHeld, Later, InitDone, Alike;
      InitDoneKeeps(n, g, p);
      AlikeKeeps(n.groups, InitDone(n, g, p).groups);
    } else {
      PutKeeps(m, g, p, c);
      assert !m.groups[g].connected;
    }
  }

  // ----- The start -----

  lemma {:induction false} ThawedOwedIn(procs: seq<Child>)
    requires forall p :: 0 <= p < |procs| ==> !procs[p].signalled && procs[p].ended == 0
    ensures OwedIn(ThawedIn(procs)) == InitsIn(procs)
  {
    if |procs| > 0 {
      var n := |procs| - 1;
      assert ThawedIn(procs)[..n] == ThawedIn(procs[..n]);
      ThawedOwedIn(procs[..n]);
    }
  }

  lemma {:induction false} ThawedOwed(groups: seq<Group>)
    requires forall g, p :: 0 <= g < |groups| && 0 <= p < |groups[g].procs| ==>
               !groups[g].procs[p].signalled && groups[g].procs[p].ended == 0
    ensures Owed(Thawed(groups)) == Inits(groups)
  {
    if |groups| > 0 {
      var n := |groups| - 1;
      assert Thawed(groups)[..n] == Thawed(groups[..n]);
      ThawedOwed(groups[..n]);
      ThawedOwedIn(groups[n].procs);
    }
  }

  lemma StartKeeps(m: Manager)
    requires Created(m)
    ensures Inv(RunInit(m))
  {
    hide LifeOk, AllHeld, HasProcs, AllEmpty, Alike, Later, Owed, Inits, Thawed, Connected, Created;
    var groups := Connected(m.groups, true);
    var u := Thawed(groups);
    StartLife(m);
    StartOwed(m);
    var n := m.(groups := u, initializing := true, remaining := Inits(m.groups));
    if n.remaining == 0 {
      FinishKeeps(n);
      AlikeKeeps(u, FinishInit(n).groups);
    }
  }

  lemma StartOwed(m: Manager)
    requires Created(m)
    ensures Owed(Thawed(Connected(m.groups, true))) == Inits(m.groups)
  {
    ConnectedInits(m.groups, true);
    ThawedOwed(Connected(m.groups, true));
  }

  lemma StartLife(m: Manager)
    requires Created(m)
    ensures var u := Thawed(Connected(m.groups, true));
            LifeOk(u) && AllHeld(u, true) && !(AllEmpty(u) && HasProcs(u))
    ensures m.barrier == [] && m.remaining == 0 && m.completions == 0
  {
    var u := Thawed(Connected(m.groups, true));
    forall g | 0 <= g < |u|
      ensures GroupOk(u[g])
      ensures forall p :: 0 <= p < |u[g].procs| ==> Held(u[g].procs[p])
    {
      if |u[g].procs| > 0 {
        assert u[g].procs[0].spawned;
      }
    }
  }

  lemma {:induction false} RunKeepsInv(m: Manager, events: seq<Event>, states: seq<Manager>, k: nat)
    requires IsRun(m, events, states) && k <= |events|
    ensures Inv(states[k])
  {
    if k == 0 {
      StartKeeps(m);
    } else {
      RunKeepsInv(m, events, states, k - 1);
      hide Inv, RunInit, Created;
      StepKeeps(states[k - 1], events[k - 1]);
    }
  }

  // ----- Main results -----

  /**
   * Exit detection: in every order of deaths, reports and notifications the end of a process is
   * handled at most once and never while its cgroup is populated; a partition is empty iff none
   * of its processes is spawned; and completion is reported once, with the end of the last process.
   */
  lemma EndHandledOnce(m: Manager, events: seq<Event>, states: seq<Manager>, k: nat, g: nat, p: nat)
    requires IsRun(m, events, states) && k <= |events| && At(states[k], g, p)
    ensures var s := states[k];
            var c := Get(s, g, p);
            && c.ended <= 1
            && (c.ended == 1 <==> !c.spawned)
            && (c.ended == 1 ==> c.reaped && !Populated(c))
            && (s.groups[g].empty <==> NoneSpawned(s.groups[g].procs))
            && s.completions <= 1
            && (s.completions == 1 <==> forall h :: 0 <= h < |s.groups| ==> NoneSpawned(s.groups[h].procs))
  {
    RunKeepsInv(m, events, states, k);
    var s := states[k];
    assert GroupOk(s.groups[g]) && ChildOk(Get(s, g, p));
    assert |s.groups[g].procs| > 0;
    assert AllEmpty(s.groups) <==> forall h :: 0 <= h < |s.groups| ==> NoneSpawned(s.groups[h].procs) by {
      assert forall h :: 0 <= h < |s.groups| ==> GroupOk(s.groups[h]);
    }
  }

  /** And it is handled: by the report of the death, or by the next notification after the cgroup got empty. */
  lemma EndIsHandled(m: Manager, events: seq<Event>, states: seq<Manager>, k: nat)
    requires IsRun(m, events, states) && k < |events|
    requires var e := events[k];
             var c := Get(states[k], e.g, e.p);
             (e.Reap? && c.others == 0) || (e.Notify? && c.reaped && !Populated(c))
    ensures At(states[k + 1], events[k].g, events[k].p) && Get(states[k + 1], events[k].g, events[k].p).ended == 1
  {
    RunKeepsInv(m, events, states, k);
    var s, e := states[k], events[k];
    var c := Get(s, e.g, e.p);
    assert GroupOk(s.groups[e.g]) && ChildOk(c);
    var d := c.(reaped := true, waiting := false);
    if c.ended == 0 {
      EndCounts(s, e.g, e.p, d);
    }
  }

  lemma EndCounts(m: Manager, g: nat, p: nat, d: Child)
    requires At(m, g, p)
    ensures var r := HandleEnd(Put(m, g, p, d), g, p);
            At(r, g, p) && Get(r, g, p).ended == d.ended + 1
  {
    var e := d.(spawned := false, ended := d.ended + 1);
    PutTwice(m, g, p, d, e);
    ProcExitIs(m, g, p, e);
    var n := m.(groups := m.groups[g := Updated(m.groups[g], p, e)]);
    hide Put, Updated;
    assert Get(n, g, p) == e;
  }

  /**
   * The barrier: `init_cb` is called at most once. At the call nothing but processes still
   * initializing can execute, all partitions are disconnected, and every process with an
   * initialization has signalled or exited iff none has done both.
   */
  lemma BarrierAtMostOnce(m: Manager, events: seq<Event>, states: seq<Manager>, k: nat)
    requires IsRun(m, events, states) && k <= |events|
    ensures |states[k].barrier| <= 1
    ensures |states[k].barrier| == 1 ==>
              var b := states[k].barrier[0];
              AllHeld(b, false) && (EachDone(b) <==> NoneTwice(b))
  {
    RunKeepsInv(m, events, states, k);
    if |states[k].barrier| == 1 {
      OwedBounds(states[k].barrier[0]);
    }
  }

  /**
   * While initializations are awaited, a process can run iff it has an initialization and has
   * neither signalled nor exited: each is resumed at the start, and frozen as soon as it is through.
   * Nobody is frozen or thawed any more once they are declared over.
   */
  lemma ThawedIff(m: Manager, events: seq<Event>, states: seq<Manager>, k: nat, g: nat, p: nat)
    requires IsRun(m, events, states) && k <= |events| && At(states[k], g, p)
    ensures states[k].initializing <==> states[k].barrier == []
    ensures states[k].initializing ==>
              var c := Get(states[k], g, p);
              !c.frozen <==> c.init && !c.signalled && c.ended == 0
    ensures !states[k].initializing ==>
              && g < |states[k].barrier[0]| && p < |states[k].barrier[0][g].procs|
              && Get(states[k], g, p).frozen == states[k].barrier[0][g].procs[p].frozen
  {
    RunKeepsInv(m, events, states, k);
    if states[k].initializing {
      assert Held(states[k].groups[g].procs[p]);
    }
  }

  /** A signal is noted, whether it still counts or not. */
  lemma SignalIsNoted(m: Manager, events: seq<Event>, states: seq<Manager>, k: nat)
    requires IsRun(m, events, states) && k < |events| && events[k].Signal?
    ensures var e := events[k];
            At(states[k + 1], e.g, e.p) && Get(states[k + 1], e.g, e.p).signalled
  {
    RunKeepsInv(m, events, states, k);
    var s, e := states[k], events[k];
    var c := Get(s, e.g, e.p).(signalled := true);
    PutTwice(s, e.g, e.p, c, c.(frozen := true));
  }

  ghost predicate AllFrozen(groups: seq<Group>) {
    forall g, p :: 0 <= g < |groups| && 0 <= p < |groups[g].procs| ==> groups[g].procs[p].frozen
  }

  /**
   * As long as no process has both signalled and exited, the initialization has been declared over
   * iff every process with an initialization has signalled or exited; all were frozen then.
   */
  lemma BarrierExact(m: Manager, events: seq<Event>, states: seq<Manager>, k: nat)
    requires IsRun(m, events, states) && k <= |events|
    requires NoneTwice(states[k].groups)
    ensures |states[k].barrier| == 1 <==> EachDone(states[k].groups)
    ensures |states[k].barrier| == 1 ==> EachDone(states[k].barrier[0]) && AllFrozen(states[k].barrier[0])
  {
    RunKeepsInv(m, events, states, k);
    var s := states[k];
    if s.initializing {
      OwedBounds(s.groups);
    } else {
      var b := s.barrier[0];
      forall g, p | 0 <= g < |b| && 0 <= p < |b[g].procs|
        ensures !Twice(b[g].procs[p])
      {
        assert !Twice(s.groups[g].procs[p]);
      }
      OwedBounds(b);
      LaterDone(b, s.groups);
      forall g, p | 0 <= g < |b| && 0 <= p < |b[g].procs|
        ensures b[g].procs[p].frozen
      {
        assert Held(b[g].procs[p]) && Done(b[g].procs[p]);
      }
    }
  }

  lemma LaterDone(a: seq<Group>, b: seq<Group>)
    requires Later(a, b) && EachDone(a)
    ensures EachDone(b)
  {
    forall g, p | 0 <= g < |b| && 0 <= p < |b[g].procs|
      ensures Done(b[g].procs[p])
    {
      assert Done(a[g].procs[p]);
    }
  }

  const STARTED := Child(true, true, false, true, false, 0, true, false, 0)

  /**
   * A process which signals and then exits is counted twice: the initialization of the other one
   * is declared over although it has neither signalled nor exited, and it still runs.
   */
  lemma CountedTwice() returns (m: Manager, events: seq<Event>, states: seq<Manager>)
    ensures IsRun(m, events, states)
    ensures var s := states[|events|];
            && |s.barrier| == 1 && |s.barrier[0]| == 1 && |s.barrier[0][0].procs| == 2
            && !Done(s.barrier[0][0].procs[1]) && !s.barrier[0][0].procs[1].frozen
  {
    m := Manager([Group([STARTED, STARTED], false, false)], 0, false, [], 0);
    events := [Signal(0, 0), ChildDies(0, 0), Reap(0, 0)];
    var run := STARTED.(frozen := false);
    var s0 := Manager([Group([run, run], false, true)], 2, true, [], 0);
    assert RunInit(m) == s0 by {
      TwoInits();
      assert ThawedIn([STARTED, STARTED]) == [run, run];
      assert Connected(m.groups, true) == [Group([STARTED, STARTED], false, true)];
      assert Thawed([Group([STARTED, STARTED], false, true)]) == s0.groups;
    }
    var a := run.(signalled := true);
    var f := a.(frozen := true);
    var s1 := s0.(groups := [Group([f, run], false, true)], remaining := 1);
    assert Apply(s0, events[0]) == s1 by {
      FirstOfTwo(s0, run, run, a);
      FirstOfTwo(s0.(groups := [Group([a, run], false, true)]), a, run, f);
    }
    var b := f.(alive := false);
    var s2 := s1.(groups := [Group([b, run], false, true)]);
    assert Apply(s1, events[1]) == s2 by {
      FirstOfTwo(s1, f, run, b);
    }
    var s3 := Apply(s2, events[2]);
    assert s3.barrier[0] == [Group([b.(reaped := true, spawned := false, ended := 1), run], false, false)] by {
      LastCount(s2, b, run);
    }
    states := [s0, s1, s2, s3];
  }

  lemma FirstOfTwo(m: Manager, x: Child, y: Child, z: Child)
    requires |m.groups| == 1 && m.groups[0].procs == [x, y]
    ensures Put(m, 0, 0, z) == m.(groups := [m.groups[0].(procs := [z, y])])
  {
    assert [x, y][0 := z] == [z, y];
  }

  /** The end of the first of two processes is the last initialization awaited. */
  lemma LastCount(m: Manager, x: Child, y: Child)
    requires m.groups == [Group([x, y], false, true)] && m.initializing && m.remaining == 1 && m.barrier == []
    requires x.init && x.frozen && x.others == 0 && x.ended == 0 && y.spawned
    ensures At(m, 0, 0)
    ensures Reaped(m, 0, 0).barrier == [[Group([x.(reaped := true, spawned := false, ended := 1), y], false, false)]]
  {
    var r := x.(reaped := true);
    var e := r.(spawned := false, ended := 1);
    FirstOfTwo(m, x, y, r);
    var n := m.(groups := [Group([r, y], false, true)]);
    FirstOfTwo(n, r, y, e);
    var u := m.(groups := [Group([e, y], false, true)]);
    assert [e, y][1].spawned;
    assert u.groups[0 := u.groups[0].(empty := false)] == u.groups;
    FirstOfTwo(u, e, y, e);
    assert Connected(u.groups, false) == [Group([e, y], false, false)];
  }

  lemma TwoInits()
    ensures Inits([Group([STARTED, STARTED], false, false)]) == 2
  {
    assert [STARTED, STARTED][..1] == [STARTED] && [STARTED][..0] == [];
    assert InitsIn([STARTED]) == 1;
    assert [Group([STARTED, STARTED], false, false)][..0] == [];
  }
}
