/**
 * Which CPUs a slice runs on: the validation of the configured sets, and their restriction to the
 * CPUs on which the scheduler may run at all.
 */
module Assignment {
  import opened Options
  import opened CpuList
  import opened CpuListParser
  import opened CpuListMeaning
  import opened RangeLoop

  /** A slice in the normalized configuration; partitions are referred to by name. */
  datatype SliceConfig = SliceConfig(cpu: string, sc: Option<string>, be: Option<string>)

  /** For each window its slices, and the names of the defined partitions. */
  datatype Config = Config(partitions: seq<string>, windows: seq<seq<SliceConfig>>)

  datatype Verdict = Accepted | UnknownPartition | BadCpuList | Overlap

  // ----- CPU sets -----

  /** `parse_cpu_set` for sets of `n` CPUs. */
  ghost function ParseCpus(text: string, all: set<nat>, n: nat): Option<set<nat>> {
    if text == "all" then Some(all)
    else
      match Parse(text, {}, n, false)
      case Endless => None
      case Returns(cpus, rc) => if rc == 0 then Some(cpus) else None
  }

  /** The list can be read in finite time. The same lists were read when the configuration was normalized. */
  predicate Readable(text: string) {
    text == "all" || AllBounded(text)
  }

  method ReadCpus(text: string, all: set<nat>, n: nat) returns (r: Option<set<nat>>)
    requires Readable(text)
    ensures r == ParseCpus(text, all, n)
  {
    if text == "all" {
      return Some(all);
    }
    ReturnsIff(text, {}, n);
    var bits := new bool[n];
    var rc := CpulistParse(text, bits, false);
    if rc != 0 {
      return None;
    }
    var cpus := Collect(bits);
    return Some(cpus);
  }

  method Collect(bits: array<bool>) returns (r: set<nat>)
    ensures r == Cpus(bits[..])
  {
    r := {};
    var k := 0;
    while k < bits.Length
      invariant k <= bits.Length
      invariant forall x :: x in r <==> 0 <= x < k && bits[x]
    {
      if bits[k] {
        r := r + {k};
      }
      k := k + 1;
    }
  }

  // ----- Validation -----

  predicate Resolves(name: Option<string>, partitions: seq<string>) {
    name.Some? ==> name.value in partitions
  }

  predicate SliceResolves(s: SliceConfig, partitions: seq<string>) {
    Resolves(s.sc, partitions) && Resolves(s.be, partitions)
  }

  ghost predicate ReferencesOk(slices: seq<SliceConfig>, partitions: seq<string>) {
    forall i :: 0 <= i < |slices| ==> SliceResolves(slices[i], partitions)
  }

  /** The CPUs of a slice as validation sees them: `all` counts as none. */
  ghost function Configured(s: SliceConfig, n: nat): Option<set<nat>> {
    ParseCpus(s.cpu, {}, n)
  }

  ghost predicate SliceDisjoint(s: SliceConfig, t: SliceConfig, n: nat) {
    && s.cpu != "all" && t.cpu != "all"
    && Configured(s, n).Some? && Configured(t, n).Some?
    && Configured(s, n).value !! Configured(t, n).value
  }

  /** Every list is well formed, no two slices share a CPU, and `all` appears only alone. */
  ghost predicate CpusOk(slices: seq<SliceConfig>, n: nat) {
    && (forall i :: 0 <= i < |slices| ==> Configured(slices[i], n).Some?)
    && (forall i, j :: 0 <= i < j < |slices| ==> SliceDisjoint(slices[i], slices[j], n))
  }

  ghost predicate AllReadable(slices: seq<SliceConfig>) {
    forall i :: 0 <= i < |slices| ==> Readable(slices[i].cpu)
  }

  method Contains(partitions: seq<string>, name: string) returns (r: bool)
    ensures r == (name in partitions)
  {
    var k := 0;
    while k < |partitions|
      invariant k <= |partitions| && name !in partitions[..k]
    {
      if partitions[k] == name {
        return true;
      }
      k := k + 1;
    }
    return false;
  }

  method ReferencesResolve(slices: seq<SliceConfig>, partitions: seq<string>) returns (ok: bool)
    ensures ok <==> ReferencesOk(slices, partitions)
  {
    var k := 0;
    while k < |slices|
      invariant k <= |slices|
      invariant forall i :: 0 <= i < k ==> SliceResolves(slices[i], partitions)
    {
      var found := true;
      if slices[k].sc.Some? {
        found := Contains(partitions, slices[k].sc.value);
      }
      if found && slices[k].be.Some? {
        found := Contains(partitions, slices[k].be.value);
      }
      if !found {
        assert !SliceResolves(slices[k], partitions);
        return false;
      }
      k := k + 1;
    }
    return true;
  }

  /** `acc` are the CPUs of the first `k` slices, which are in order among themselves. */
  ghost predicate Gathered(slices: seq<SliceConfig>, k: nat, n: nat, acc: set<nat>) {
    && k <= |slices|
    && CpusOk(slices[..k], n)
    && (forall i :: 0 <= i < k ==> Configured(slices[i], n).Some? && Configured(slices[i], n).value <= acc)
    && (forall x :: x in acc ==> exists i :: 0 <= i < k && Configured(slices[i], n).Some? && x in Configured(slices[i], n).value)
    && (|slices| > 1 ==> forall i :: 0 <= i < k ==> slices[i].cpu != "all")
  }

  lemma AllOnlyAlone(slices: seq<SliceConfig>, k: nat, n: nat)
    requires k < |slices| && slices[k].cpu == "all" && |slices| > 1
    ensures !CpusOk(slices, n)
  {
    if k == 0 {
      assert !SliceDisjoint(slices[0], slices[1], n);
    } else {
      assert !SliceDisjoint(slices[0], slices[k], n);
    }
  }

  lemma OverlapFound(slices: seq<SliceConfig>, k: nat, n: nat, acc: set<nat>)
    requires k < |slices| && Gathered(slices, k, n, acc)
    requires Configured(slices[k], n).Some? && acc * Configured(slices[k], n).value != {}
    ensures !CpusOk(slices, n)
  {
    hide ParseCpus;
    var x :| x in acc * Configured(slices[k], n).value;
    var i :| 0 <= i < k && Configured(slices[i], n).Some? && x in Configured(slices[i], n).value;
    assert !SliceDisjoint(slices[i], slices[k], n);
  }

  lemma GatherNext(slices: seq<SliceConfig>, k: nat, n: nat, acc: set<nat>)
    requires k < |slices| && Gathered(slices, k, n, acc)
    requires Configured(slices[k], n).Some? && acc * Configured(slices[k], n).value == {}
    requires slices[k].cpu == "all" ==> |slices| == 1
    ensures Gathered(slices, k + 1, n, acc + Configured(slices[k], n).value)
  {
    hide ParseCpus;
    var next := slices[..k + 1];
    assert forall i :: 0 <= i < k ==> next[i] == slices[i] == slices[..k][i];
    forall i, j | 0 <= i < j < |next|
      ensures SliceDisjoint(next[i], next[j], n)
    {
      if j < k {
        assert SliceDisjoint(slices[..k][i], slices[..k][j], n);
      } else {
        assert Configured(slices[i], n).value <= acc;
        assert slices[i].cpu != "all";
        assert slices[k].cpu != "all";
        assert forall x :: x in acc && x in Configured(slices[k], n).value ==> x in acc * Configured(slices[k], n).value;
      }
    }
    forall x | x in acc + Configured(slices[k], n).value
      ensures exists i :: 0 <= i < k + 1 && Configured(slices[i], n).Some? && x in Configured(slices[i], n).value
    {
      if x in Configured(slices[k], n).value {
      } else {
        var i :| 0 <= i < k && Configured(slices[i], n).Some? && x in Configured(slices[i], n).value;
      }
    }
  }

  lemma BadListFound(slices: seq<SliceConfig>, k: nat, n: nat)
    requires k < |slices| && Configured(slices[k], n).None?
    ensures !CpusOk(slices, n)
  {
  }

  lemma GatheredEnds(slices: seq<SliceConfig>, n: nat)
    ensures Gathered(slices, 0, n, {})
  {
  }

  lemma GatheredAll(slices: seq<SliceConfig>, n: nat, acc: set<nat>)
    requires Gathered(slices, |slices|, n, acc)
    ensures CpusOk(slices, n)
  {
    hide CpusOk;
    assert slices[..|slices|] == slices;
  }

  /** Slice `k` wants CPUs of a slice before it, or all of them beside other slices. */
  ghost predicate Clashes(slices: seq<SliceConfig>, k: nat, n: nat)
    requires k < |slices|
  {
    || (slices[k].cpu == "all" && |slices| > 1)
    || exists i, x :: 0 <= i < k && Wants(slices[i], x, n) && Wants(slices[k], x, n)
  }

  ghost predicate Wants(s: SliceConfig, x: nat, n: nat) {
    Configured(s, n).Some? && x in Configured(s, n).value
  }

  /** Slice `k` is the first of a window which is not in order, and that is what is wrong with it. */
  ghost predicate FirstFault(slices: seq<SliceConfig>, k: nat, n: nat, v: Verdict) {
    && k < |slices|
    && (forall i :: 0 <= i < k ==> Configured(slices[i], n).Some? && !Clashes(slices, i, n))
    && if Configured(slices[k], n).None? then v == BadCpuList else v == Overlap && Clashes(slices, k, n)
  }

  lemma ClashesIff(slices: seq<SliceConfig>, k: nat, n: nat, acc: set<nat>)
    requires k < |slices| && Gathered(slices, k, n, acc) && Configured(slices[k], n).Some?
    ensures Clashes(slices, k, n) <==> (slices[k].cpu == "all" && |slices| > 1) || acc * Configured(slices[k], n).value != {}
  {
    hide ParseCpus, CpusOk;
    if x :| x in acc * Configured(slices[k], n).value {
      var i :| 0 <= i < k && Configured(slices[i], n).Some? && x in Configured(slices[i], n).value;
      assert Wants(slices[i], x, n) && Wants(slices[k], x, n);
    }
    if i, x :| 0 <= i < k && Wants(slices[i], x, n) && Wants(slices[k], x, n) {
      assert x in acc * Configured(slices[k], n).value;
    }
  }

  /** Collects the CPUs of the slices of one window as long as they do not overlap. */
  method CpusOverlap(slices: seq<SliceConfig>, n: nat) returns (v: Verdict)
    requires AllReadable(slices)
    ensures v == Accepted <==> CpusOk(slices, n)
    ensures v != UnknownPartition
    ensures v != Accepted ==> exists k :: FirstFault(slices, k, n, v)
  {
    hide Gathered, CpusOk, ParseCpus, Readable, Clashes;
    var acc: set<nat> := {};
    var k := 0;
    GatheredEnds(slices, n);
    while k < |slices|
      invariant k <= |slices| && Gathered(slices, k, n, acc)
      invariant forall i :: 0 <= i < k ==> Configured(slices[i], n).Some? && !Clashes(slices, i, n)
    {
      var cpus := ReadCpus(slices[k].cpu, {}, n);
      if cpus.None? {
        BadListFound(slices, k, n);
        assert FirstFault(slices, k, n, BadCpuList);
        return BadCpuList;
      }
      ClashesIff(slices, k, n, acc);
      if (slices[k].cpu == "all" && |slices| > 1) || acc * cpus.value != {} {
        if slices[k].cpu == "all" && |slices| > 1 {
          AllOnlyAlone(slices, k, n);
        } else {
          OverlapFound(slices, k, n, acc);
        }
        assert FirstFault(slices, k, n, Overlap);
        return Overlap;
      }
      GatherNext(slices, k, n, acc);
      acc := acc + cpus.value;
      k := k + 1;
    }
    GatheredAll(slices, n, acc);
    return Accepted;
  }

  ghost predicate ConfigOk(c: Config, n: nat) {
    forall w :: 0 <= w < |c.windows| ==> ReferencesOk(c.windows[w], c.partitions) && CpusOk(c.windows[w], n)
  }

  /** The first window whose CPUs are not in order, and the first slice there which is not. */
  ghost predicate FaultIn(c: Config, w: nat, k: nat, n: nat, v: Verdict) {
    && w < |c.windows| && (forall u :: 0 <= u < w ==> CpusOk(c.windows[u], n))
    && FirstFault(c.windows[w], k, n, v)
  }

  /** `validate_config`: first every reference of every window, then the CPUs of every window. */
  method ValidateConfig(c: Config, n: nat) returns (v: Verdict)
    requires forall w :: 0 <= w < |c.windows| ==> AllReadable(c.windows[w])
    ensures v == Accepted <==> ConfigOk(c, n)
    ensures v == UnknownPartition <==> exists w :: 0 <= w < |c.windows| && !ReferencesOk(c.windows[w], c.partitions)
    ensures v != Accepted && v != UnknownPartition ==> exists w, k :: FaultIn(c, w, k, n, v)
  {
    hide ReferencesOk, CpusOk, AllReadable, FirstFault;
    var w := 0;
    while w < |c.windows|
      invariant w <= |c.windows|
      invariant forall u :: 0 <= u < w ==> ReferencesOk(c.windows[u], c.partitions)
    {
      var ok := ReferencesResolve(c.windows[w], c.partitions);
      if !ok {
        return UnknownPartition;
      }
      w := w + 1;
    }
    w := 0;
    while w < |c.windows|
      invariant w <= |c.windows|
      invariant forall u :: 0 <= u < w ==> CpusOk(c.windows[u], n)
    {
      var r := CpusOverlap(c.windows[w], n);
      if r != Accepted {
        ghost var k :| FirstFault(c.windows[w], k, n, r);
        assert FaultIn(c, w, k, n, r);
        return r;
      }
      w := w + 1;
    }
    return Accepted;
  }

  /** The first partition with a name, if there is one. */
  predicate IsFirst(r: Option<nat>, name: string, partitions: seq<string>) {
    match r
    case None => name !in partitions
    case Some(k) => k < |partitions| && partitions[k] == name && name !in partitions[..k]
  }

  /** The lookup of a partition; the source throws when there is none. */
  method FindPartition(name: string, partitions: seq<string>) returns (r: Option<nat>)
    ensures IsFirst(r, name, partitions)
  {
    var k := 0;
    while k < |partitions|
      invariant k <= |partitions| && name !in partitions[..k]
    {
      if partitions[k] == name {
        return Some(k);
      }
      k := k + 1;
    }
    return None;
  }

  // ----- Restriction to the allowed CPUs -----

  lemma {:induction false} LowestExists(cpus: set<nat>, x: nat)
    requires x in cpus
    ensures exists y :: y in cpus && forall z :: z in cpus ==> y <= z
  {
    if y :| y in cpus && y < x {
      LowestExists(cpus, y);
    }
  }

  ghost function Lowest(cpus: set<nat>): (x: nat)
    requires cpus != {}
    ensures x in cpus && forall y :: y in cpus ==> x <= y
  {
    LowestExists(cpus, var y :| y in cpus; y);
    var x :| x in cpus && forall y :: y in cpus ==> x <= y;
    x
  }

  /** `lowest`, which throws for the empty set. */
  method FindLowest(bits: array<bool>) returns (r: Option<nat>)
    ensures if Cpus(bits[..]) == {} then r == None else r == Some(Lowest(Cpus(bits[..])))
  {
    var i := 0;
    while i < bits.Length
      invariant i <= bits.Length && forall y :: 0 <= y < i ==> !bits[y]
    {
      if bits[i] {
        assert i in Cpus(bits[..]);
        return Some(i);
      }
      i := i + 1;
    }
    return None;
  }

  /** The CPUs on which a slice really runs; `allowed` is never empty. */
  ghost function Restrict(cpus: set<nat>, allowed: set<nat>): set<nat>
    requires allowed != {}
  {
    if cpus * allowed == {} then {Lowest(allowed)} else cpus * allowed
  }

  /**
   * Which CPUs a slice keeps, one by one: those of its own which are allowed if there are any, and
   * otherwise the lowest allowed one alone.
   */
  lemma AssignedMembers(s: SliceConfig, allowed: set<nat>, n: nat, x: nat)
    requires allowed != {} && Configured(s, n).Some?
    ensures var own := if s.cpu == "all" then allowed else Configured(s, n).value;
            x in Assigned(s, allowed, n) <==>
            if exists y :: y in own && y in allowed then x in own && x in allowed
            else x in allowed && forall y :: y in allowed ==> x <= y
  {
    hide Parse;
    var own := if s.cpu == "all" then allowed else Configured(s, n).value;
    assert ParseCpus(s.cpu, allowed, n).value == own;
    if y :| y in own && y in allowed {
      assert y in own * allowed;
    } else {
      assert own * allowed == {};
      assert x in allowed && (forall y :: y in allowed ==> x <= y) ==> x == Lowest(allowed);
    }
  }

  /** What the log is told about the CPUs of a slice. */
  datatype Notice = Untouched | Narrowed | Moved

  /**
   * The restriction itself, in place: without a common CPU the set is cleared and gets the lowest
   * allowed one, otherwise what is not allowed is taken out of it.
   */
  method RestrictInPlace(cpus: array<bool>, allowed: array<bool>) returns (notice: Notice)
    requires cpus != allowed && cpus.Length == allowed.Length && exists x :: 0 <= x < allowed.Length && allowed[x]
    modifies cpus
    ensures var meets := exists x :: 0 <= x < cpus.Length && old(cpus[x]) && allowed[x];
            && (forall x :: 0 <= x < cpus.Length ==>
                  cpus[x] == if meets then old(cpus[x]) && allowed[x] else allowed[x] && forall y :: 0 <= y < x ==> !allowed[y])
            && (notice == Moved <==> !meets)
            && (notice == Untouched <==> meets && forall x :: 0 <= x < cpus.Length ==> cpus[x] == old(cpus[x]))
  {
    var meets := Meet(cpus, allowed);
    var within := Within(cpus, allowed);
    if !meets {
      Clear(cpus);
      assert exists x :: 0 <= x < allowed.Length && allowed[x];
      var least := FindLowest(allowed);
      var k :| 0 <= k < allowed.Length && allowed[k];
      assert k in Cpus(allowed[..]);
      cpus[least.value] := true;
      return Moved;
    } else if !within {
      And(cpus, allowed);
      return Narrowed;
    }
    return Untouched;
  }

  /** `(cpus & allowed).count() != 0` */
  method Meet(cpus: array<bool>, allowed: array<bool>) returns (r: bool)
    requires cpus.Length == allowed.Length
    ensures r <==> exists x :: 0 <= x < cpus.Length && cpus[x] && allowed[x]
  {
    for k := 0 to cpus.Length
      invariant forall x :: 0 <= x < k ==> !(cpus[x] && allowed[x])
    {
      if cpus[k] && allowed[k] {
        return true;
      }
    }
    return false;
  }

  /** `(cpus & allowed) == cpus` */
  method Within(cpus: array<bool>, allowed: array<bool>) returns (r: bool)
    requires cpus.Length == allowed.Length
    ensures r <==> forall x :: 0 <= x < cpus.Length && cpus[x] ==> allowed[x]
  {
    for k := 0 to cpus.Length
      invariant forall x :: 0 <= x < k && cpus[x] ==> allowed[x]
    {
      if cpus[k] && !allowed[k] {
        return false;
      }
    }
    return true;
  }

  /** `cpus &= allowed` */
  method And(cpus: array<bool>, allowed: array<bool>)
    requires cpus != allowed && cpus.Length == allowed.Length
    modifies cpus
    ensures forall x :: 0 <= x < cpus.Length ==> cpus[x] == (old(cpus[x]) && allowed[x])
  {
    for k := 0 to cpus.Length
      invariant forall x :: 0 <= x < cpus.Length ==> cpus[x] == (old(cpus[x]) && (x < k ==> allowed[x]))
    {
      cpus[k] := cpus[k] && allowed[k];
    }
  }

  /** The CPUs of a slice of a validated window, read and restricted to `allowed`. */
  method AssignCpus(s: SliceConfig, allowed: array<bool>) returns (cpus: array<bool>, notice: Notice)
    requires Readable(s.cpu) && Configured(s, allowed.Length).Some? && Cpus(allowed[..]) != {}
    ensures fresh(cpus) && cpus.Length == allowed.Length
    ensures Cpus(cpus[..]) == Assigned(s, Cpus(allowed[..]), allowed.Length)
  {
    hide Parse, AllBounded;
    cpus := new bool[allowed.Length];
    if s.cpu == "all" {
      for k := 0 to allowed.Length
        invariant forall x :: 0 <= x < k ==> cpus[x] == allowed[x]
      {
        cpus[k] := allowed[k];
      }
      assert Cpus(cpus[..]) == Cpus(allowed[..]);
    } else {
      ReturnsIff(s.cpu, {}, allowed.Length);
      var rc := CpulistParse(s.cpu, cpus, false);
    }
    ghost var own := Cpus(cpus[..]);
    var y :| y in Cpus(allowed[..]);
    assert allowed[y];
    notice := RestrictInPlace(cpus, allowed);
    forall x
      ensures x in Cpus(cpus[..]) <==> x in Restrict(own, Cpus(allowed[..]))
    {
      RestrictAt(own, allowed[..], x);
    }
  }

  lemma RestrictAt(own: set<nat>, allowed: seq<bool>, x: nat)
    requires Cpus(allowed) != {}
    ensures x in Restrict(own, Cpus(allowed)) <==>
            x < |allowed| &&
            if exists y :: 0 <= y < |allowed| && y in own && allowed[y] then x in own && allowed[x]
            else allowed[x] && forall y :: 0 <= y < x ==> !allowed[y]
  {
    var a := Cpus(allowed);
    if y :| 0 <= y < |allowed| && y in own && allowed[y] {
      assert y in own * a;
    } else {
      assert own * a == {};
      if x < |allowed| && allowed[x] && forall y :: 0 <= y < x ==> !allowed[y] {
        assert x in a && Lowest(a) in a && allowed[Lowest(a)];
      }
    }
  }

  /** A slice always gets some CPU, and only allowed ones; exactly its own if these are allowed. */
  lemma RestrictIsAllowed(cpus: set<nat>, allowed: set<nat>)
    requires allowed != {}
    ensures Restrict(cpus, allowed) != {} && Restrict(cpus, allowed) <= allowed
    ensures cpus <= allowed && cpus != {} ==> Restrict(cpus, allowed) == cpus
    ensures Restrict(allowed, allowed) == allowed
  {
    if cpus * allowed != {} {
      assert cpus <= allowed ==> cpus * allowed == cpus;
    }
    assert allowed * allowed == allowed;
  }

  /** Two disjoint sets collide once restricted. */
  ghost predicate Collide(a: set<nat>, b: set<nat>, allowed: set<nat>)
    requires allowed != {}
  {
    a * allowed == {} && (b * allowed == {} || Lowest(allowed) in b)
  }

  /**
   * Restriction keeps two disjoint sets disjoint iff neither of them misses the allowed CPUs while
   * the other one misses them as well or holds the lowest of them.
   */
  lemma RestrictKeepsDisjoint(a: set<nat>, b: set<nat>, allowed: set<nat>)
    requires allowed != {} && a !! b
    ensures Restrict(a, allowed) !! Restrict(b, allowed) <==> !Collide(a, b, allowed) && !Collide(b, a, allowed)
  {
    var l := Lowest(allowed);
    if a * allowed == {} || b * allowed == {} {
      if Collide(a, b, allowed) || Collide(b, a, allowed) {
        assert l in a ==> l in a * allowed;
        assert l in b ==> l in b * allowed;
        assert l in Restrict(a, allowed) && l in Restrict(b, allowed);
      }
    } else {
      assert forall x :: x in a * allowed ==> x !in b * allowed;
    }
  }

  /** The CPUs which a slice of a validated window gets. */
  ghost function Assigned(s: SliceConfig, allowed: set<nat>, n: nat): set<nat>
    requires allowed != {} && Configured(s, n).Some?
  {
    Restrict(ParseCpus(s.cpu, allowed, n).value, allowed)
  }

  ghost predicate AssignedApart(slices: seq<SliceConfig>, allowed: set<nat>, n: nat)
    requires allowed != {} && CpusOk(slices, n)
  {
    forall i, j :: 0 <= i < j < |slices| ==> Assigned(slices[i], allowed, n) !! Assigned(slices[j], allowed, n)
  }

  ghost predicate SliceCollide(s: SliceConfig, t: SliceConfig, allowed: set<nat>, n: nat)
    requires allowed != {} && Configured(s, n).Some? && Configured(t, n).Some?
  {
    Collide(Configured(s, n).value, Configured(t, n).value, allowed) || Collide(Configured(t, n).value, Configured(s, n).value, allowed)
  }

  /**
   * The slices of a validated window really run on disjoint CPUs iff no two of them collide; in
   * particular if every configured set meets the allowed one.
   */
  lemma AssignedApartIff(slices: seq<SliceConfig>, allowed: set<nat>, n: nat)
    requires allowed != {} && CpusOk(slices, n)
    ensures AssignedApart(slices, allowed, n) <==>
            forall i, j :: 0 <= i < j < |slices| ==> !SliceCollide(slices[i], slices[j], allowed, n)
    ensures (forall i :: 0 <= i < |slices| ==> Configured(slices[i], n).value * allowed != {}) ==> AssignedApart(slices, allowed, n)
  {
    forall i, j | 0 <= i < j < |slices|
      ensures Assigned(slices[i], allowed, n) !! Assigned(slices[j], allowed, n) <==> !SliceCollide(slices[i], slices[j], allowed, n)
    {
      assert SliceDisjoint(slices[i], slices[j], n);
      RestrictKeepsDisjoint(Configured(slices[i], n).value, Configured(slices[j], n).value, allowed);
    }
  }

  /** Two slices which validation accepts end up on the same CPU when one of theirs is not allowed. */
  lemma CollisionAfterValidation(a: SliceConfig, b: SliceConfig, allowed: set<nat>, n: nat)
    requires allowed != {} && SliceDisjoint(a, b, n)
    requires Configured(b, n).value * allowed == {} && Lowest(allowed) in Configured(a, n).value
    ensures CpusOk([a, b], n) && !AssignedApart([a, b], allowed, n)
  {
    AssignedApartIff([a, b], allowed, n);
    assert SliceCollide([a, b][0], [a, b][1], allowed, n);
  }

  /** A list of one number is read as that CPU. */
  lemma OneCpu(text: string, all: set<nat>, n: nat)
    requires Number(text) && Value(text) < n && Value(text) < UINT_MAX && text != "all"
    ensures ParseCpus(text, all, n) == Some({Value(text)})
  {
    hide Parse, Value, AllDigits, Members, Beyond;
    var items := [One(text)];
    assert ListText(items) == text;
    OneMember(Value(text));
    assert Low(items[0]) == High(items[0]) == Value(text) && Step(items[0]) == 1;
    ParseDenotes(items, {}, n);
    assert Named(items[1..]) == {};
    assert {} + Below(Named(items), n) == {Value(text)};
  }

  lemma OneMember(x: nat)
    ensures Members(x, x, 1) == {x} && Beyond(x, x, 1) == x + 1
  {
    assert Members(x + 1, x, 1) == {};
  }

  /** For instance, the lists `0` and `5` where only CPU 0 is allowed. */
  lemma CollisionExample(n: nat)
    requires n > 5
    ensures var a, b := SliceConfig("0", None, None), SliceConfig("5", None, None);
            && Configured(a, n).Some? && Configured(b, n).Some?
            && CpusOk([a, b], n) && Assigned(a, {0}, n) == Assigned(b, {0}, n) == {0}
  {
    hide ParseCpus, Number, Value;
    var a, b := SliceConfig("0", None, None), SliceConfig("5", None, None);
    SmallValues();
    OneCpu("0", {}, n);
    OneCpu("0", {0}, n);
    OneCpu("5", {}, n);
    OneCpu("5", {0}, n);
    CollisionAfterValidation(a, b, {0}, n);
    assert {0} * {0} == {0} && {5} * {0} == {};
  }

  /** Nothing keeps a partition from being referred to by two slices of a window. */
  lemma SharedPartitionIsAccepted(a: SliceConfig, b: SliceConfig, p: string, n: nat)
    requires a.sc == Some(p) && b.sc == Some(p) && a.be == None && b.be == None && SliceDisjoint(a, b, n)
    ensures ConfigOk(Config([p], [[a, b]]), n)
  {
    hide ParseCpus;
  }

  // ----- The widest set of a partition -----

  /** A slice which serves partitions by number, and its CPUs. */
  datatype Served = Served(sc: Option<nat>, be: Option<nat>, cpus: set<nat>)

  predicate Serves(s: Served, p: nat) {
    s.sc == Some(p) || s.be == Some(p)
  }

  /** The slices of all windows, one window after the other. */
  function Flatten(windows: seq<seq<Served>>): seq<Served> {
    if |windows| == 0 then [] else Flatten(windows[..|windows| - 1]) + windows[|windows| - 1]
  }

  /** `best` is the first of the widest CPU sets of the slices which serve `p`. */
  ghost predicate Widest(slices: seq<Served>, p: nat, best: Option<set<nat>>) {
    match best
    case None => forall i :: 0 <= i < |slices| ==> !Serves(slices[i], p)
    case Some(cpus) =>
      exists k :: 0 <= k < |slices| && Serves(slices[k], p) && slices[k].cpus == cpus &&
                  (forall i :: 0 <= i < |slices| && Serves(slices[i], p) ==> |slices[i].cpus| <= |cpus|) &&
                  (forall i :: 0 <= i < k && Serves(slices[i], p) ==> |slices[i].cpus| < |cpus|)
  }

  lemma WidestNext(slices: seq<Served>, s: Served, p: nat, best: Option<set<nat>>)
    requires Widest(slices, p, best)
    ensures Widest(slices + [s], p,
                   if Serves(s, p) && (best.None? || |s.cpus| > |best.value|) then Some(s.cpus) else best)
  {
    var all := slices + [s];
    assert forall i :: 0 <= i < |slices| ==> all[i] == slices[i];
    if Serves(s, p) && (best.None? || |s.cpus| > |best.value|) {
      assert Serves(all[|slices|], p);
    } else if best.Some? {
      var k :| 0 <= k < |slices| && Serves(slices[k], p) && slices[k].cpus == best.value &&
               (forall i :: 0 <= i < |slices| && Serves(slices[i], p) ==> |slices[i].cpus| <= |best.value|) &&
               (forall i :: 0 <= i < k && Serves(slices[i], p) ==> |slices[i].cpus| < |best.value|);
      assert Serves(all[k], p);
    }
  }

  /** `find_widest_cpu_set`: where a partition is initialized. */
  method FindWidestCpuSet(windows: seq<seq<Served>>, p: nat) returns (best: Option<set<nat>>)
    ensures Widest(Flatten(windows), p, best)
  {
    best := None;
    var w := 0;
    while w < |windows|
      invariant w <= |windows| && Widest(Flatten(windows[..w]), p, best)
    {
      hide Widest;
      var i := 0;
      assert Flatten(windows[..w]) + windows[w][..0] == Flatten(windows[..w]);
      while i < |windows[w]|
        invariant i <= |windows[w]| && Widest(Flatten(windows[..w]) + windows[w][..i], p, best)
      {
        var s := windows[w][i];
        WidestNext(Flatten(windows[..w]) + windows[w][..i], s, p, best);
        assert Flatten(windows[..w]) + windows[w][..i] + [s] == Flatten(windows[..w]) + windows[w][..i + 1];
        if (s.sc == Some(p) || s.be == Some(p)) && (best.None? || |s.cpus| > |best.value|) {
          assert Serves(s, p);
          best := Some(s.cpus);
        }
        i := i + 1;
      }
      assert windows[..w + 1][..w] == windows[..w] && windows[w][..i] == windows[w];
      w := w + 1;
    }
    assert windows[..w] == windows;
  }
}
