/**
 * Processes from their launch to their end: the barrier at which all initializations are over,
 * and the detection of a process's end from two unordered sources, the death of the child and
 * the emptiness of its cgroup.
 */
module Lifecycle {
  import opened Options
  import A = Assignment

  /**
   * A process as the scheduler sees it, and behind it what the kernel knows: whether the child is
   * alive and how many `others` the cgroup holds. `ended` counts the calls of `handle_end`.
   */
  datatype Child = Child(
    init: bool, spawned: bool, waiting: bool, frozen: bool, signalled: bool, ended: nat,
    alive: bool, reaped: bool, others: nat)

  datatype Group = Group(procs: seq<Child>, empty: bool, connected: bool)

  /**
   * `initializing` tells which exit callback is installed. `barrier` holds the partitions as they
   * were at each call of `init_cb`, and `completions` counts the calls of `completion_cb`.
   */
  datatype Manager = Manager(
    groups: seq<Group>, remaining: int, initializing: bool, barrier: seq<seq<Group>>, completions: nat)

  predicate At(m: Manager, g: nat, p: nat) {
    g < |m.groups| && p < |m.groups[g].procs|
  }

  function Get(m: Manager, g: nat, p: nat): Child
    requires At(m, g, p)
  {
    m.groups[g].procs[p]
  }

  function Put(m: Manager, g: nat, p: nat, c: Child): (r: Manager)
    requires At(m, g, p)
    ensures At(r, g, p) && Get(r, g, p) == c
  {
    m.(groups := m.groups[g := m.groups[g].(procs := m.groups[g].procs[p := c])])
  }

  lemma PutTwice(m: Manager, g: nat, p: nat, c: Child, d: Child)
    requires At(m, g, p)
    ensures Put(Put(m, g, p, c), g, p, d) == Put(m, g, p, d)
  {
    var h := m.groups[g];
    assert h.procs[p := c][p := d] == h.procs[p := d];
    assert m.groups[g := h.(procs := h.procs[p := c])][g := h.(procs := h.procs[p := d])] == m.groups[g := h.(procs := h.procs[p := d])];
  }

  // ----- The callbacks -----

  function Connected(groups: seq<Group>, to: bool): (r: seq<Group>)
    ensures |r| == |groups|
    ensures forall g :: 0 <= g < |groups| ==> r[g] == groups[g].(connected := to)
  {
    seq(|groups|, g requires 0 <= g < |groups| => groups[g].(connected := to))
  }

  function FinishInit(m: Manager): Manager {
    var groups := Connected(m.groups, false);
    m.(groups := groups, initializing := false, barrier := m.barrier + [groups])
  }

  /** `process_init_completion_cb` */
  function InitDone(m: Manager, g: nat, p: nat): (r: Manager)
    requires At(m, g, p)
    ensures At(r, g, p)
  {
    var n := Put(m, g, p, Get(m, g, p).(frozen := true)).(remaining := m.remaining - 1);
    if n.remaining == 0 then FinishInit(n) else n
  }

  predicate AllEmpty(groups: seq<Group>) {
    forall g :: 0 <= g < |groups| ==> groups[g].empty
  }

  /** `process_exit_cb` */
  function ExitSeen(m: Manager, g: nat): Manager
    requires g < |m.groups|
  {
    if m.groups[g].empty && AllEmpty(m.groups) then m.(completions := m.completions + 1) else m
  }

  predicate NoneSpawned(procs: seq<Child>) {
    forall p :: 0 <= p < |procs| ==> !procs[p].spawned
  }

  /** `Partition::proc_exit_cb`, with the callback installed in it. */
  function ProcExit(m: Manager, g: nat, p: nat): (r: Manager)
    requires At(m, g, p)
    ensures At(r, g, p)
  {
    var n := m.(groups := m.groups[g := m.groups[g].(empty := NoneSpawned(m.groups[g].procs))]);
    ExitSeen(if n.initializing && Get(n, g, p).init then InitDone(n, g, p) else n, g)
  }

  function HandleEnd(m: Manager, g: nat, p: nat): (r: Manager)
    requires At(m, g, p)
    ensures At(r, g, p)
  {
    var c := Get(m, g, p);
    ProcExit(Put(m, g, p, c.(spawned := false, ended := c.ended + 1)), g, p)
  }

  /** `child_terminated_cb` */
  function Reaped(m: Manager, g: nat, p: nat): (r: Manager)
    requires At(m, g, p)
    ensures At(r, g, p)
  {
    var c := Get(m, g, p).(reaped := true);
    if c.others > 0 then Put(m, g, p, c.(waiting := true)) else HandleEnd(Put(m, g, p, c), g, p)
  }

  predicate Populated(c: Child) {
    c.alive || c.others > 0
  }

  /** `populated_cb`, called with what the cgroup says at that moment. */
  function Notified(m: Manager, g: nat, p: nat): (r: Manager)
    requires At(m, g, p)
    ensures At(r, g, p)
  {
    var c := Get(m, g, p);
    if Populated(c) || !c.waiting then m
    else HandleEnd(Put(m, g, p, c.(waiting := false)), g, p)
  }

  /** `completed_cb`, with the callback connected to the partition. */
  function Signalled(m: Manager, g: nat, p: nat): (r: Manager)
    requires At(m, g, p)
    ensures At(r, g, p)
  {
    var n := Put(m, g, p, Get(m, g, p).(signalled := true));
    if n.groups[g].connected then InitDone(n, g, p) else n
  }

  function InitsIn(procs: seq<Child>): nat {
    if |procs| == 0 then 0 else InitsIn(procs[..|procs| - 1]) + if procs[|procs| - 1].init then 1 else 0
  }

  function Inits(groups: seq<Group>): nat {
    if |groups| == 0 then 0 else Inits(groups[..|groups| - 1]) + InitsIn(groups[|groups| - 1].procs)
  }

  function ThawedIn(procs: seq<Child>): (r: seq<Child>)
    ensures |r| == |procs|
    ensures forall p :: 0 <= p < |procs| ==> r[p] == procs[p].(frozen := procs[p].frozen && !procs[p].init)
  {
    seq(|procs|, p requires 0 <= p < |procs| => procs[p].(frozen := procs[p].frozen && !procs[p].init))
  }

  function Thawed(groups: seq<Group>): (r: seq<Group>)
    ensures |r| == |groups|
    ensures forall g :: 0 <= g < |groups| ==> r[g] == groups[g].(procs := ThawedIn(groups[g].procs))
  {
    seq(|groups|, g requires 0 <= g < |groups| => groups[g].(procs := ThawedIn(groups[g].procs)))
  }

  /** Every process with an initialization has been spawned. */
  ghost predicate Startable(procs: seq<Child>) {
    forall p :: 0 <= p < |procs| && procs[p].init ==> procs[p].spawned
  }

  /** `run_process_init` */
  function RunInit(m: Manager): Manager {
    var n := m.(groups := Thawed(Connected(m.groups, true)), initializing := true, remaining := m.remaining + Inits(m.groups));
    if n.remaining == 0 then FinishInit(n) else n
  }

  // ----- The same, step by step -----

  /** `best` is the first of the widest CPU sets of the slices which serve the partition, or empty if none does. */
  ghost predicate WidestOf(windows: seq<seq<A.Served>>, g: nat, best: set<nat>) {
    var slices := A.Flatten(windows);
    A.Widest(slices, g, Some(best)) || (A.Widest(slices, g, None) && best == {})
  }

  class PartitionManager {
    var partitions: seq<Group>
    var remainingProcessInits: int
    var initializing: bool
    /** The CPUs on which each partition may run, as it was last reset. */
    var cpus: seq<set<nat>>
    ghost var barrier: seq<seq<Group>>
    ghost var completions: nat

    ghost function Snap(): Manager
      reads this
    {
      Manager(partitions, remainingProcessInits, initializing, barrier, completions)
    }

    constructor (partitions: seq<Group>)
      ensures Snap() == Manager(partitions, 0, false, [], 0)
    {
      this.partitions := partitions;
      cpus := [];
      remainingProcessInits := 0;
      initializing := false;
      barrier := [];
      completions := 0;
    }

    method ProcessExitCb(g: nat)
      requires g < |partitions|
      modifies `completions
      ensures Snap() == ExitSeen(old(Snap()), g)
    {
      if !partitions[g].empty {
        return;
      }
      var k := 0;
      while k < |partitions|
        invariant k <= |partitions|
        invariant forall j :: 0 <= j < k ==> partitions[j].empty
      {
        if !partitions[k].empty {
          return;
        }
        k := k + 1;
      }
      completions := completions + 1;
    }

    method SetConnected(to: bool)
      modifies `partitions
      ensures Snap() == old(Snap()).(groups := Connected(old(partitions), to))
    {
      var k := 0;
      while k < |partitions|
        invariant k <= |partitions| == |old(partitions)|
        invariant forall j :: 0 <= j < |partitions| ==>
                    partitions[j] == if j < k then old(partitions)[j].(connected := to) else old(partitions)[j]
      {
        partitions := partitions[k := partitions[k].(connected := to)];
        k := k + 1;
      }
    }

    method FinishProcessInit()
      modifies `partitions, `initializing, `barrier
      ensures Snap() == FinishInit(old(Snap()))
    {
      initializing := false;
      SetConnected(false);
      barrier := barrier + [partitions];
    }

    method ProcessInitCompletionCb(g: nat, p: nat)
      requires At(Snap(), g, p)
      modifies this
      ensures Snap() == InitDone(old(Snap()), g, p)
    {
      SetProcess(g, p, partitions[g].procs[p].(frozen := true));
      remainingProcessInits := remainingProcessInits - 1;
      if remainingProcessInits == 0 {
        FinishProcessInit();
      }
    }

    method SetProcess(g: nat, p: nat, c: Child)
      requires At(Snap(), g, p)
      modifies `partitions
      ensures Snap() == Put(old(Snap()), g, p, c)
    {
      partitions := partitions[g := partitions[g].(procs := partitions[g].procs[p := c])];
    }

    /** `Partition::proc_exit_cb` of partition `g`, up to the callback. */
    method UpdateEmpty(g: nat)
      requires g < |partitions|
      modifies `partitions
      ensures Snap() == old(Snap()).(groups := old(partitions)[g := old(partitions)[g].(empty := NoneSpawned(old(partitions)[g].procs))])
    {
      var empty := true;
      var p := 0;
      while p < |partitions[g].procs|
        invariant p <= |partitions[g].procs|
        invariant empty <==> forall j :: 0 <= j < p ==> !partitions[g].procs[j].spawned
      {
        if partitions[g].procs[p].spawned {
          empty := false;
        }
        p := p + 1;
      }
      partitions := partitions[g := partitions[g].(empty := empty)];
    }

    method ProcExitCb(g: nat, p: nat)
      requires At(Snap(), g, p)
      modifies this
      ensures Snap() == ProcExit(old(Snap()), g, p)
    {
      UpdateEmpty(g);
      if initializing {
        if partitions[g].procs[p].init {
          ProcessInitCompletionCb(g, p);
        }
      }
      ProcessExitCb(g);
    }

    method HandleEndOf(g: nat, p: nat)
      requires At(Snap(), g, p)
      modifies this
      ensures Snap() == HandleEnd(old(Snap()), g, p)
    {
      var c := partitions[g].procs[p];
      SetProcess(g, p, c.(spawned := false, ended := c.ended + 1));
      ProcExitCb(g, p);
    }

    method ChildTerminatedCb(g: nat, p: nat)
      requires At(Snap(), g, p) && !Get(Snap(), g, p).alive
      modifies this
      ensures Snap() == Reaped(old(Snap()), g, p)
    {
      var c := partitions[g].procs[p].(reaped := true);
      SetProcess(g, p, c);
      PutTwice(old(Snap()), g, p, c, c.(waiting := true));
      if Populated(c) {
        SetProcess(g, p, c.(waiting := true));
      } else {
        HandleEndOf(g, p);
      }
    }

    method PopulatedCb(g: nat, p: nat)
      requires At(Snap(), g, p)
      modifies this
      ensures Snap() == Notified(old(Snap()), g, p)
    {
      var c := partitions[g].procs[p];
      if Populated(c) {
        return;
      }
      if c.waiting {
        SetProcess(g, p, c.(waiting := false));
        HandleEndOf(g, p);
      }
    }

    method CompletedCb(g: nat, p: nat)
      requires At(Snap(), g, p)
      modifies this
      ensures Snap() == Signalled(old(Snap()), g, p)
    {
      SetProcess(g, p, partitions[g].procs[p].(signalled := true));
      if partitions[g].connected {
        ProcessInitCompletionCb(g, p);
      }
    }

    /** Resumes and counts the processes of one partition which need an initialization. */
    method StartInitsIn(g: nat)
      requires g < |partitions| && Startable(partitions[g].procs)
      modifies `partitions, `remainingProcessInits
      ensures var s := old(Snap());
              Snap() == s.(groups := s.groups[g := s.groups[g].(procs := ThawedIn(s.groups[g].procs))],
                           remaining := s.remaining + InitsIn(s.groups[g].procs))
    {
      hide InitsIn;
      ghost var was := partitions[g].procs;
      NoInits();
      var p := 0;
      while p < |partitions[g].procs|
        invariant |partitions| == |old(partitions)| && p <= |was| == |partitions[g].procs|
        invariant forall k :: 0 <= k < |partitions| && k != g ==> partitions[k] == old(partitions)[k]
        invariant partitions[g].(procs := was) == old(partitions)[g]
        invariant forall j :: 0 <= j < |was| ==> partitions[g].procs[j] == if j < p then ThawedIn(was)[j] else was[j]
        invariant remainingProcessInits == old(remainingProcessInits) + InitsIn(was[..p])
      {
        InitsInStep(was, p);
        if partitions[g].procs[p].init {
          remainingProcessInits := remainingProcessInits + 1;
          ResumeProcess(g, p);
        }
        p := p + 1;
      }
      assert was[..|was|] == was && partitions[g].procs == ThawedIn(was);
    }

    /** `resume`, with its assertion. */
    method ResumeProcess(g: nat, p: nat)
      requires At(Snap(), g, p) && partitions[g].procs[p].spawned
      modifies `partitions
      ensures Snap() == Put(old(Snap()), g, p, Get(old(Snap()), g, p).(frozen := false))
    {
      SetProcess(g, p, partitions[g].procs[p].(frozen := false));
    }

    method StartInits()
      requires forall g :: 0 <= g < |partitions| ==> Startable(partitions[g].procs)
      modifies `partitions, `remainingProcessInits
      ensures Snap() == old(Snap()).(groups := Thawed(old(partitions)), remaining := old(remainingProcessInits) + Inits(old(partitions)))
    {
      ghost var was := partitions;
      var g := 0;
      while g < |partitions|
        invariant g <= |was| == |partitions|
        invariant forall k :: 0 <= k < |was| ==> partitions[k] == if k < g then Thawed(was)[k] else was[k]
        invariant remainingProcessInits == old(remainingProcessInits) + Inits(was[..g])
      {
        assert was[..g + 1][..g] == was[..g];
        StartInitsIn(g);
        g := g + 1;
      }
      assert was[..|was|] == was;
    }

    /** Each partition gets the widest set of CPUs on which it is ever served, or none. */
    method SetWidestCpus(windows: seq<seq<A.Served>>)
      modifies `cpus
      ensures |cpus| == |partitions|
      ensures forall g :: 0 <= g < |cpus| ==> WidestOf(windows, g, cpus[g])
    {
      hide A.Widest;
      cpus := [];
      while |cpus| < |partitions|
        invariant |cpus| <= |partitions|
        invariant forall g :: 0 <= g < |cpus| ==> WidestOf(windows, g, cpus[g])
      {
        var best := A.FindWidestCpuSet(windows, |cpus|);
        cpus := cpus + [if best.Some? then best.value else {}];
      }
    }

    /** Connects, counts and resumes all processes with an initialization. */
    method ResumeInits()
      requires forall g :: 0 <= g < |partitions| ==> Startable(partitions[g].procs)
      modifies `partitions, `remainingProcessInits, `initializing, `barrier
      ensures Snap() == RunInit(old(Snap()))
    {
      SetConnected(true);
      initializing := true;
      ConnectedInits(old(partitions), true);
      StartInits();
      if remainingProcessInits == 0 {
        FinishProcessInit();
      }
    }

    method RunProcessInit(windows: seq<seq<A.Served>>)
      requires forall g :: 0 <= g < |partitions| ==> Startable(partitions[g].procs)
      modifies this
      ensures Snap() == RunInit(old(Snap()))
      ensures |cpus| == |old(partitions)|
      ensures forall g :: 0 <= g < |cpus| ==> WidestOf(windows, g, cpus[g])
    {
      hide WidestOf, RunInit;
      SetWidestCpus(windows);
      ResumeInits();
    }
  }

  lemma NoInits()
    ensures InitsIn([]) == 0
  {
  }

  lemma InitsInStep(procs: seq<Child>, p: nat)
    requires p < |procs|
    ensures InitsIn(procs[..p + 1]) == InitsIn(procs[..p]) + if procs[p].init then 1 else 0
  {
    assert procs[..p + 1][..p] == procs[..p];
  }

  lemma {:induction false} ConnectedInits(groups: seq<Group>, to: bool)
    ensures Inits(Connected(groups, to)) == Inits(groups)
  {
    if |groups| > 0 {
      var n := |groups| - 1;
      assert Connected(groups, to)[..n] == Connected(groups[..n], to);
      ConnectedInits(groups[..n], to);
    }
  }
}
