/**
 * The per-process frequency policy: running processes lock the frequency of the CPU clusters they
 * run on, and a process which asks for another frequency there is a conflict.
 */
module PowerPolicy {
  import opened Options
  import M = Model

  /** Which process it is: by its slice in the window, the role of its partition, and its place there. */
  datatype Id = Id(slice: nat, role: M.Role, index: nat)

  /** A process as the policy sees it when it starts: `cpus` are those of its partition. */
  datatype Proc = Proc(id: Id, frequency: Option<nat>, cpus: set<nat>)

  /** `frequency` is the last one written to the cluster. */
  datatype Cluster = Cluster(cores: set<nat>, requesting: seq<Proc>, frequency: Option<nat>)

  predicate Locks(p: Proc, cores: set<nat>) {
    p.frequency.Some? && p.cpus * cores != {}
  }

  predicate Conflicts(c: Cluster, p: Proc) {
    Locks(p, c.cores) && c.requesting != [] && c.requesting[0].frequency != p.frequency
  }

  function Lock(c: Cluster, p: Proc): Cluster {
    if Locks(p, c.cores) then c.(requesting := c.requesting + [p], frequency := p.frequency) else c
  }

  function Without(s: seq<Proc>, id: Id): (r: seq<Proc>)
    ensures forall p :: p in r <==> p in s && p.id != id
  {
    if s == [] then []
    else if s[0].id == id then Without(s[1..], id)
    else [s[0]] + Without(s[1..], id)
  }

  /** The clusters after a start, and whether it went through: a conflict ends it where it is found. */
  function Start(clusters: seq<Cluster>, p: Proc): (r: (seq<Cluster>, bool))
    ensures |r.0| == |clusters|
  {
    if clusters == [] then ([], true)
    else if Conflicts(clusters[0], p) then (clusters, false)
    else
      var (rest, ok) := Start(clusters[1..], p);
      ([Lock(clusters[0], p)] + rest, ok)
  }

  function End(clusters: seq<Cluster>, p: Proc): (r: seq<Cluster>)
    ensures |r| == |clusters|
    ensures forall k :: 0 <= k < |r| ==> r[k] == clusters[k].(requesting := Without(clusters[k].requesting, p.id))
  {
    seq(|clusters|, k requires 0 <= k < |clusters| => clusters[k].(requesting := Without(clusters[k].requesting, p.id)))
  }

  class PerProcess {
    var clusters: seq<Cluster>

    constructor (cores: seq<set<nat>>)
      ensures |clusters| == |cores|
      ensures forall k :: 0 <= k < |cores| ==> clusters[k] == Cluster(cores[k], [], None)
    {
      clusters := seq(|cores|, k requires 0 <= k < |cores| => Cluster(cores[k], [], None));
    }

    method OnProcessStart(p: Proc) returns (ok: bool)
      modifies this
      ensures (clusters, ok) == Start(old(clusters), p)
    {
      hide Start, Conflicts, Lock;
      ghost var was := clusters;
      assert was[0..] == was && [] + Start(was, p).0 == Start(was, p).0;
      StartEnds(was, p);
      var k := 0;
      while k < |clusters|
        invariant k <= |clusters| == |was|
        invariant forall j :: k <= j < |clusters| ==> clusters[j] == was[j]
        invariant Start(was, p) == (clusters[..k] + Start(was[k..], p).0, Start(was[k..], p).1)
      {
        StartStep(was, k, p);
        if Conflicts(clusters[k], p) {
          assert clusters[..k] + was[k..] == clusters;
          return false;
        }
        ghost var before := clusters[..k];
        clusters := clusters[k := Lock(clusters[k], p)];
        k := k + 1;
        assert clusters[..k] == before + [Lock(was[k - 1], p)];
        assert before + ([Lock(was[k - 1], p)] + Start(was[k..], p).0) == clusters[..k] + Start(was[k..], p).0;
      }
      assert clusters[..k] + [] == clusters;
      return true;
    }

    method OnProcessEnd(p: Proc)
      modifies this
      ensures clusters == End(old(clusters), p)
    {
      var k := 0;
      while k < |clusters|
        invariant k <= |clusters| == |old(clusters)|
        invariant forall j :: 0 <= j < |clusters| ==>
                    clusters[j] == if j < k then End(old(clusters), p)[j] else old(clusters)[j]
      {
        clusters := clusters[k := clusters[k].(requesting := Without(clusters[k].requesting, p.id))];
        k := k + 1;
      }
    }
  }

  lemma StartStep(clusters: seq<Cluster>, k: nat, p: Proc)
    requires k < |clusters|
    ensures Start(clusters[k..], p) ==
            if Conflicts(clusters[k], p) then (clusters[k..], false)
            else ([Lock(clusters[k], p)] + Start(clusters[k + 1..], p).0, Start(clusters[k + 1..], p).1)
  {
    assert clusters[k..][1..] == clusters[k + 1..];
  }

  lemma StartEnds(clusters: seq<Cluster>, p: Proc)
    ensures Start(clusters[|clusters|..], p) == ([], true)
  {
  }

  // ----- Runs -----

  datatype Event = Starts(p: Proc) | Ends(p: Proc)

  /** `running` are the running processes, in the order in which they started. */
  datatype State = State(clusters: seq<Cluster>, running: seq<Proc>)

  ghost predicate Enabled(s: State, e: Event) {
    match e
    case Starts(p) => forall k :: 0 <= k < |s.running| ==> s.running[k].id != p.id
    case Ends(p) => p in s.running
  }

  ghost function Apply(s: State, e: Event): (r: (State, bool)) {
    match e
    case Starts(p) =>
      var (clusters, ok) := Start(s.clusters, p);
      (State(clusters, s.running + [p]), ok)
    case Ends(p) => (State(End(s.clusters, p), Without(s.running, p.id)), true)
  }

  /** A run of starts and ends from a fresh policy in which no conflict was reported. */
  ghost predicate IsRun(cores: seq<set<nat>>, events: seq<Event>, states: seq<State>) {
    && |states| == |events| + 1
    && states[0] == State(seq(|cores|, k requires 0 <= k < |cores| => Cluster(cores[k], [], None)), [])
    && forall k :: 0 <= k < |events| ==> Enabled(states[k], events[k]) && Apply(states[k], events[k]) == (states[k + 1], true)
  }

  /** The processes of a list which lock a cluster, in the same order. */
  function Locking(s: seq<Proc>, cores: set<nat>): (r: seq<Proc>)
    ensures forall p :: p in r <==> p in s && Locks(p, cores)
  {
    if s == [] then []
    else if Locks(s[|s| - 1], cores) then Locking(s[..|s| - 1], cores) + [s[|s| - 1]]
    else Locking(s[..|s| - 1], cores)
  }

  ghost predicate Distinct(s: seq<Proc>) {
    forall i, j :: 0 <= i < j < |s| ==> s[i].id != s[j].id
  }

  /** All locks on a cluster agree, and the agreed frequency is the one last written to it. */
  ghost predicate Agreed(c: Cluster) {
    forall k :: 0 <= k < |c.requesting| ==> c.requesting[k].frequency == c.frequency
  }

  ghost predicate Inv(s: State) {
    && Distinct(s.running)
    && forall k :: 0 <= k < |s.clusters| ==>
         s.clusters[k].requesting == Locking(s.running, s.clusters[k].cores) && Agreed(s.clusters[k])
  }

  lemma {:induction false} LockingWithout(s: seq<Proc>, cores: set<nat>, id: Id)
    ensures Locking(Without(s, id), cores) == Without(Locking(s, cores), id)
  {
    if s != [] {
      var t, p := s[..|s| - 1], s[|s| - 1];
      LockingWithout(t, cores, id);
      assert s == t + [p];
      WithoutAppend(t, p, id);
      WithoutAppend(Locking(t, cores), p, id);
      LockingAppend(Without(t, id), p, cores);
      LockingAppend(t, p, cores);
      hide Locking, Without, Locks;
      Nothing(Locking(t, cores));
      Nothing(Without(t, id));
      Nothing(Locking(Without(t, id), cores));
    }
  }

  lemma Nothing(s: seq<Proc>)
    ensures s + [] == s
  {
  }

  lemma {:induction false} WithoutAppend(s: seq<Proc>, p: Proc, id: Id)
    ensures Without(s + [p], id) == Without(s, id) + if p.id == id then [] else [p]
  {
    if s == [] {
      assert s + [p] == [p];
    } else {
      assert (s + [p])[1..] == s[1..] + [p];
      WithoutAppend(s[1..], p, id);
    }
  }

  lemma LockingAppend(s: seq<Proc>, p: Proc, cores: set<nat>)
    ensures Locking(s + [p], cores) == Locking(s, cores) + if Locks(p, cores) then [p] else []
  {
    assert (s + [p])[..|s|] == s;
  }

  lemma {:induction false} WithoutDistinct(s: seq<Proc>, id: Id)
    requires Distinct(s)
    ensures Distinct(Without(s, id))
  {
    if s != [] {
      WithoutDistinct(s[1..], id);
      if s[0].id != id {
        var r := Without(s[1..], id);
        forall j | 0 <= j < |r|
          ensures r[j].id != s[0].id
        {
          assert r[j] in s[1..];
          var i :| 0 <= i < |s[1..]| && s[1..][i] == r[j];
          assert s[i + 1] == r[j];
        }
      }
    }
  }

  lemma {:induction false} StartIs(clusters: seq<Cluster>, p: Proc, k: nat)
    requires k < |clusters| && Start(clusters, p).1
    ensures Start(clusters, p).0[k] == Lock(clusters[k], p) && !Conflicts(clusters[k], p)
  {
    if k > 0 {
      StartIs(clusters[1..], p, k - 1);
    }
  }

  lemma StartKeeps(s: State, p: Proc)
    requires Inv(s) && Enabled(s, Starts(p)) && Apply(s, Starts(p)).1
    ensures Inv(Apply(s, Starts(p)).0)
  {
    var r := Apply(s, Starts(p)).0;
    forall k | 0 <= k < |r.clusters|
      ensures r.clusters[k].requesting == Locking(r.running, r.clusters[k].cores) && Agreed(r.clusters[k])
    {
      StartIs(s.clusters, p, k);
      LockingAppend(s.running, p, s.clusters[k].cores);
      var c := s.clusters[k];
      assert Agreed(c);
      assert c.requesting == Locking(s.running, c.cores);
      if c.requesting != [] {
        assert c.requesting[0].frequency == c.frequency;
      }
    }
  }

  lemma EndKeeps(s: State, p: Proc)
    requires Inv(s) && Enabled(s, Ends(p))
    ensures Inv(Apply(s, Ends(p)).0)
  {
    var r := Apply(s, Ends(p)).0;
    WithoutDistinct(s.running, p.id);
    forall k | 0 <= k < |r.clusters|
      ensures r.clusters[k].requesting == Locking(r.running, r.clusters[k].cores) && Agreed(r.clusters[k])
    {
      var c := s.clusters[k];
      assert c.requesting == Locking(s.running, c.cores) && Agreed(c);
      LockingWithout(s.running, c.cores, p.id);
      forall j | 0 <= j < |r.clusters[k].requesting|
        ensures r.clusters[k].requesting[j].frequency == c.frequency
      {
        assert r.clusters[k].requesting[j] in c.requesting;
      }
    }
  }

  /**
   * The locks on a cluster are exactly the running processes which ask for a frequency and may run
   * on it, each once; they all ask for the same one, and it is the last one written to the cluster.
   */
  lemma {:induction false} LocksAreRunning(cores: seq<set<nat>>, events: seq<Event>, states: seq<State>, k: nat)
    requires IsRun(cores, events, states) && k <= |events|
    ensures Inv(states[k])
    ensures |states[k].clusters| == |cores| && forall c :: 0 <= c < |cores| ==> states[k].clusters[c].cores == cores[c]
  {
    if k > 0 {
      LocksAreRunning(cores, events, states, k - 1);
      var s := states[k - 1];
      assert Apply(s, events[k - 1]) == (states[k], true);
      match events[k - 1]
      case Starts(p) =>
        StartKeeps(s, p);
        forall c | 0 <= c < |cores|
          ensures states[k].clusters[c].cores == cores[c]
        {
          StartIs(s.clusters, p, c);
        }
      case Ends(p) => EndKeeps(s, p);
    }
  }

  lemma {:induction false} StartFails(clusters: seq<Cluster>, p: Proc)
    ensures !Start(clusters, p).1 <==> exists k :: 0 <= k < |clusters| && Conflicts(clusters[k], p)
  {
    if clusters != [] {
      StartFails(clusters[1..], p);
      if exists k :: 0 <= k < |clusters[1..]| && Conflicts(clusters[1..][k], p) {
        var k :| 0 <= k < |clusters[1..]| && Conflicts(clusters[1..][k], p);
        assert Conflicts(clusters[k + 1], p);
      }
      if exists k :: 0 <= k < |clusters| && Conflicts(clusters[k], p) && !Conflicts(clusters[0], p) {
        var k :| 0 <= k < |clusters| && Conflicts(clusters[k], p) && !Conflicts(clusters[0], p);
        assert Conflicts(clusters[1..][k - 1], p);
      }
    }
  }

  /** Two processes ask for different frequencies of one cluster. */
  ghost predicate Clash(cores: set<nat>, p: Proc, q: Proc) {
    Locks(p, cores) && Locks(q, cores) && p.frequency != q.frequency
  }

  /** A conflict is reported iff a running process asks for another frequency of a common cluster. */
  lemma ConflictIff(cores: seq<set<nat>>, events: seq<Event>, states: seq<State>, k: nat, p: Proc)
    requires IsRun(cores, events, states) && k <= |events| && Enabled(states[k], Starts(p))
    ensures !Apply(states[k], Starts(p)).1 <==>
            exists c, q :: 0 <= c < |cores| && q in states[k].running && Clash(cores[c], p, q)
  {
    LocksAreRunning(cores, events, states, k);
    var s := states[k];
    StartFails(s.clusters, p);
    if c :| 0 <= c < |s.clusters| && Conflicts(s.clusters[c], p) {
      var q := s.clusters[c].requesting[0];
      assert q in Locking(s.running, cores[c]);
      assert Clash(cores[c], p, q);
    }
    if c, q :| 0 <= c < |cores| && q in s.running && Clash(cores[c], p, q) {
      var l := s.clusters[c];
      assert q in l.requesting && Agreed(l);
      assert l.requesting[0].frequency == l.frequency;
      assert Conflicts(l, p);
    }
  }
}
