/**
 * What a configuration means as it is written: which ones are accepted, and what each key of an
 * accepted one becomes. Nothing here is computed the way normalization computes it.
 */
module Written {
  import opened Options
  import opened CpuList
  import opened Normalization
  import CpuListParser

  // ----- Processes -----

  /** The keys of a process; `odd` if there is one which a process must not have. */
  datatype Keys = Keys(cmd: Option<string>, budget: Option<int>, jitter: Option<int>, init: Option<bool>, frequency: Option<real>, odd: bool)

  /** A bare string is a command. */
  function KeysOf(p: ProcNode): Keys {
    match p
    case Command(cmd) => Keys(Some(cmd), None, None, None, None, false)
    case Fields(cmd, budget, jitter, init, frequency, other) => Keys(cmd, budget, jitter, init, frequency, other.Some?)
  }

  function AllKeys(ps: seq<ProcNode>): (r: seq<Keys>)
    ensures |r| == |ps| && forall j :: 0 <= j < |ps| ==> r[j] == KeysOf(ps[j])
  {
    seq(|ps|, j requires 0 <= j < |ps| => KeysOf(ps[j]))
  }

  /** An empty list stands for one process without keys. */
  function Listed(l: seq<ProcNode>): (r: seq<Keys>)
    ensures |r| > 0
  {
    if l == [] then [Keys(None, None, None, None, None, false)] else AllKeys(l)
  }

  /** The processes of a partition: the listed ones, or the one which the keys of the partition describe. */
  function Processes(part: PartNode): (r: seq<Keys>)
    ensures |r| > 0
  {
    match part
    case Name(_) => Listed([])
    case ProcList(l) => Listed(l)
    case PartMap(_, processes, inline, _) =>
      match processes
      case Some(Single(p)) => [KeysOf(p)]
      case Some(List(l)) => if l == [] then [InlineKeys(inline)] else Listed(l)
      case None => [InlineKeys(inline)]
  }

  function InlineKeys(i: Inline): Keys {
    Keys(i.cmd, i.budget, i.jitter, i.init, None, i.legacy.Some?)
  }

  /**
   * The default budget of each of `n` processes in a window of `length` milliseconds: six tenths
   * of it, or all of it, divided equally and cut to whole milliseconds.
   */
  function DefaultBudget(sc: bool, length: int, n: nat): int
    requires n > 0
  {
    var tenths := if sc then 6 * length else 10 * length;
    if tenths >= 0 then tenths / (10 * n) else -((-tenths) / (10 * n))
  }

  function BudgetOf(k: Keys, default: Option<int>): Option<int> {
    if k.budget.Some? then k.budget else default
  }

  /** The keys are those of a process, and its budget is positive whatever the jitter adds to it. */
  predicate ProcWell(k: Keys, default: Option<int>) {
    && !k.odd
    && BudgetOf(k, default).Some? && BudgetOf(k, default).value > 0
    && (k.jitter.Some? ==> 0 <= k.jitter.value && BudgetOf(k, default).value * 2 >= k.jitter.value)
  }

  /** Every key is kept; without one there is no jitter and no initialization. */
  predicate ProcIs(k: Keys, default: Option<int>, p: NProc) {
    && p.cmd == k.cmd && p.frequency == k.frequency
    && BudgetOf(k, default) == Some(p.budget)
    && (match k.jitter case Some(j) => p.jitter == j case None => p.jitter == 0)
    && (match k.init case Some(i) => p.init == i case None => !p.init)
  }

  ghost predicate ProcsWell(ks: seq<Keys>, default: Option<int>) {
    forall j :: 0 <= j < |ks| ==> ProcWell(ks[j], default)
  }

  ghost predicate ProcsAre(ks: seq<Keys>, default: Option<int>, ps: seq<NProc>) {
    |ps| == |ks| && forall j :: 0 <= j < |ks| ==> ProcIs(ks[j], default, ps[j])
  }

  /** The default as normalization is given it, and what it comes to. */
  ghost predicate Comes(total: Option<real>, n: nat, default: Option<int>)
    requires n > 0
  {
    match total
    case None => default.None?
    case Some(t) => default == Some(Trunc(t / n as real))
  }

  lemma ProcNormalizes(p: ProcNode, each: Option<real>, default: Option<int>)
    requires Comes(each, 1, default)
    ensures var r := NormProc(p, each);
            && (r.Ok? <==> ProcWell(KeysOf(p), default))
            && (r.Ok? ==> ProcIs(KeysOf(p), default, r.value))
  {
    hide Trunc;
    assert each.Some? ==> each.value / 1.0 == each.value;
  }

  lemma {:induction false} ListNormalizes(l: seq<ProcNode>, k: nat, each: Option<real>, default: Option<int>, acc: seq<NProc>)
    requires k == |acc| <= |l| && Comes(each, 1, default) && ProcsAre(AllKeys(l[..k]), default, acc)
    ensures var r := NormProcsFrom(l, k, each, acc);
            && (r.Ok? <==> forall j :: k <= j < |l| ==> ProcWell(KeysOf(l[j]), default))
            && (r.Ok? ==> ProcsAre(AllKeys(l), default, r.value))
    decreases |l| - k
  {
    hide NormProc, ProcIs, ProcWell, KeysOf, Comes;
    if k == |l| {
      assert l[..k] == l;
    } else {
      ProcNormalizes(l[k], each, default);
      if NormProc(l[k], each).Ok? {
        ListNormalizes(l, k + 1, each, default, acc + [NormProc(l[k], each).value]);
      }
    }
  }

  lemma ShareComes(total: Option<real>, n: nat, default: Option<int>)
    requires n > 0 && Comes(total, n, default)
    ensures Comes(Share(total, n), 1, default)
  {
    hide Trunc;
    assert total.Some? ==> total.value / n as real / 1.0 == total.value / n as real;
  }

  lemma ProcsNormalize(ps: Procs, total: Option<real>, default: Option<int>)
    requires Comes(total, (match ps case List(l) => if |l| > 0 then |l| else 1 case Single(_) => 1), default)
    ensures var r := NormProcs(ps, total);
            match ps
            case Single(p) => (r.Ok? <==> ProcsWell([KeysOf(p)], default)) && (r.Ok? ==> ProcsAre([KeysOf(p)], default, r.value))
            case List(l) =>
              if l == [] then r == Ok([])
              else (r.Ok? <==> ProcsWell(AllKeys(l), default)) && (r.Ok? ==> ProcsAre(AllKeys(l), default, r.value))
  {
    hide Share, Comes, KeysOf, ProcWell, ProcIs;
    match ps
    case Single(p) =>
      assert AllKeys([p]) == [KeysOf(p)];
      ListNormalizes([p], 0, total, default, []);
    case List(l) =>
      if l != [] {
        ShareComes(total, |l|, default);
        ListNormalizes(l, 0, Share(total, |l|), default, []);
      }
  }

  // ----- Partitions -----

  /** A name is not a definition. */
  ghost predicate PartWell(part: PartNode, default: Option<int>) {
    !part.Name? && (part.PartMap? ==> part.otherKey.None?) && ProcsWell(Processes(part), default)
  }

  lemma InlineNormalizes(inline: Inline, total: Option<real>, default: Option<int>)
    requires Comes(total, 1, default)
    ensures var r := OrInline(Ok([]), inline, total);
            && (r.Ok? <==> ProcsWell([InlineKeys(inline)], default))
            && (r.Ok? ==> ProcsAre([InlineKeys(inline)], default, r.value))
  {
    ProcNormalizes(InlineProc(inline), total, default);
    assert KeysOf(InlineProc(inline)) == InlineKeys(inline);
    hide NormProc, ProcIs, ProcWell, Comes, KeysOf, InlineKeys;
    assert ProcsWell([InlineKeys(inline)], default) <==> ProcWell([InlineKeys(inline)][0], default);
  }

  lemma OrElse(procs: Result<seq<NProc>>, inline: Inline, total: Option<real>, ks: seq<Keys>, default: Option<int>)
    requires |ks| > 0
    requires (procs.Ok? <==> ProcsWell(ks, default)) && (procs.Ok? ==> ProcsAre(ks, default, procs.value))
    ensures OrInline(procs, inline, total) == procs
  {
  }

  lemma PartNormalizes(part: PartNode, total: Option<real>, default: Option<int>)
    requires Comes(total, |Processes(part)|, default)
    ensures var r := PartProcs(part, total);
            && (r.Ok? <==> PartWell(part, default))
            && (r.Ok? ==> ProcsAre(Processes(part), default, r.value))
  {
    hide NormProcs, OrInline, ProcsWell, ProcsAre, Comes;
    match part
    case Name(_) =>
    case ProcList(l) =>
      ProcsNormalize(List(l), total, default);
      if l != [] {
        OrElse(NormProcs(List(l), total), NO_INLINE, total, AllKeys(l), default);
      } else {
        InlineNormalizes(NO_INLINE, total, default);
      }
    case PartMap(_, processes, inline, _) =>
      match processes
      case None => InlineNormalizes(inline, total, default);
      case Some(Single(p)) =>
        ProcsNormalize(Single(p), total, default);
        OrElse(NormProcs(Single(p), total), inline, total, [KeysOf(p)], default);
      case Some(List(l)) =>
        ProcsNormalize(List(l), total, default);
        if l != [] {
          OrElse(NormProcs(List(l), total), inline, total, AllKeys(l), default);
        } else {
          InlineNormalizes(inline, total, default);
        }
  }

  lemma FloorDiv(a: nat, d: nat)
    requires d > 0
    ensures (a as real / d as real).Floor == a / d
  {
    var q, m := a / d, a % d;
    assert a as real == q as real * d as real + m as real by {
      assert a == q * d + m;
      assert (q * d) as real == q as real * d as real;
    }
    Quotient(q as real, d as real, m as real, a as real);
  }

  lemma Quotient(q: real, d: real, m: real, a: real)
    requires d > 0.0 && a == q * d + m && 0.0 <= m < d
    ensures q <= a / d < q + 1.0
  {
    var x := m / d;
    assert a / d == q + x;
    assert x * d == m;
    assert x < 0.0 ==> x * d < 0.0;
    assert x >= 1.0 ==> x * d >= 1.0 * d;
  }

  lemma Tenth(length: int, n: nat)
    requires n > 0
    ensures length as real * 0.6 / n as real == (6 * length) as real / (10 * n) as real
    ensures length as real / n as real == (10 * length) as real / (10 * n) as real
  {
    var l, m := length as real, n as real;
    assert (6 * length) as real == 6.0 * l && (10 * length) as real == 10.0 * l && (10 * n) as real == 10.0 * m;
    Cancel(l * 0.6, 6.0 * l, m);
    Cancel(l, 10.0 * l, m);
  }

  lemma Cancel(a: real, b: real, m: real)
    requires m > 0.0 && b == 10.0 * a
    ensures a / m == b / (10.0 * m)
  {
    var x := a / m;
    assert a == x * m;
    assert b == x * (10.0 * m);
  }

  /** The default budgets are what the shares of the window come to. */
  lemma DefaultComes(e: Entry, length: int, n: nat)
    requires n > 0
    ensures Comes(TotalOf(e, length), n, Some(DefaultBudget(ForSc(e), length, n)))
  {
    hide Trunc;
    Tenth(length, n);
    TruncDiv(if ForSc(e) then 6 * length else 10 * length, 10 * n);
  }

  lemma TruncDiv(a: int, d: nat)
    requires d > 0
    ensures Trunc(a as real / d as real) == if a >= 0 then a / d else -((-a) / d)
  {
    if a >= 0 {
      FloorDiv(a, d);
      Sign(a as real, d as real);
    } else {
      FloorDiv(-a, d);
      Sign(a as real, d as real);
      assert (-a) as real == -(a as real);
    }
  }

  lemma Sign(a: real, d: real)
    requires d > 0.0
    ensures a / d >= 0.0 <==> a >= 0.0
    ensures -(a / d) == (-a) / d
  {
    var x := a / d;
    assert x * d == a;
    assert x < 0.0 ==> x * d < 0.0;
    assert x >= 0.0 ==> x * d >= 0.0;
  }

  // ----- Definitions -----

  predicate ForSc(e: Entry) {
    match e
    case ScPartition(_) => true
    case ScProcesses(_) => true
    case BePartition(_) => false
    case BeProcesses(_) => false
  }

  /** A partition which is defined, by its own name if it has one, with the default of its budgets. */
  datatype Def = Def(name: Option<string>, procs: seq<Keys>, default: Option<int>)

  /** A partition from the list of partitions: there is no default. */
  function ListedDef(part: PartNode): Def {
    Def(if part.PartMap? then part.nameKey else None, Processes(part), None)
  }

  function PlacedDef(part: PartNode, sc: bool, length: int): Def {
    var ks := Processes(part);
    Def(if part.PartMap? then part.nameKey else None, ks, Some(DefaultBudget(sc, length, |ks|)))
  }

  function ProcsDef(ps: Procs, sc: bool, length: int): Def {
    var ks := match ps case Single(p) => [KeysOf(p)] case List(l) => Listed(l);
    Def(None, ks, Some(DefaultBudget(sc, length, |ks|)))
  }

  /** What is defined in place of an entry; nothing, if it names a partition. */
  function EntryDefs(e: Entry, length: int): seq<Def> {
    match e
    case ScPartition(p) => if p.Name? then [] else [PlacedDef(p, true, length)]
    case BePartition(p) => if p.Name? then [] else [PlacedDef(p, false, length)]
    case ScProcesses(ps) => [ProcsDef(ps, true, length)]
    case BeProcesses(ps) => [ProcsDef(ps, false, length)]
  }

  ghost predicate DefWell(d: Def) {
    ProcsWell(d.procs, d.default)
  }

  ghost predicate EntryWell(e: Entry, length: int) {
    && (e.ScPartition? || e.BePartition? ==> e.part.PartMap? ==> e.part.otherKey.None?)
    && forall k :: 0 <= k < |EntryDefs(e, length)| ==> DefWell(EntryDefs(e, length)[k])
  }

  /** How many of the first `k` have no name of their own. */
  function Unnamed(defs: seq<Def>, k: nat): nat
    requires k <= |defs|
  {
    if k == 0 then 0 else Unnamed(defs, k - 1) + if defs[k - 1].name.None? then 1 else 0
  }

  /** Partition `k` is the one defined there: under its own name, or under the next number. */
  ghost predicate DefinedAt(defs: seq<Def>, k: nat, p: NPart)
    requires k < |defs|
  {
    && p.name == (if defs[k].name.Some? then defs[k].name.value else "anonymous_" + Decimal(Unnamed(defs, k)))
    && ProcsAre(defs[k].procs, defs[k].default, p.procs)
  }

  ghost predicate PartsAre(defs: seq<Def>, parts: seq<NPart>) {
    |parts| == |defs| && forall k :: 0 <= k < |defs| ==> DefinedAt(defs, k, parts[k])
  }

  ghost predicate Match(d: Defs, defs: seq<Def>) {
    PartsAre(defs, d.parts) && d.counter == Unnamed(defs, |defs|)
  }

  lemma {:induction false} UnnamedPrefix(defs: seq<Def>, more: seq<Def>, k: nat)
    requires k <= |defs|
    ensures Unnamed(defs + more, k) == Unnamed(defs, k)
  {
    if k > 0 {
      UnnamedPrefix(defs, more, k - 1);
    }
  }

  lemma OneMore(d: Defs, defs: seq<Def>, def: Def, p: NPart, counter: nat)
    requires Match(d, defs) && ProcsAre(def.procs, def.default, p.procs)
    requires p.name == (if def.name.Some? then def.name.value else "anonymous_" + Decimal(d.counter))
    requires counter == d.counter + if def.name.None? then 1 else 0
    ensures Match(Defs(d.parts + [p], counter), defs + [def])
  {
    hide ProcsAre, Decimal;
    forall k | 0 <= k <= |defs|
      ensures Unnamed(defs + [def], k) == Unnamed(defs, k)
    {
      UnnamedPrefix(defs, [def], k);
    }
    forall k | 0 <= k < |defs| + 1
      ensures DefinedAt(defs + [def], k, (d.parts + [p])[k])
    {
      if k < |defs| {
        assert DefinedAt(defs, k, d.parts[k]);
      }
    }
  }

  lemma PartDefines(part: PartNode, total: Option<real>, default: Option<int>, d: Defs, defs: seq<Def>)
    requires Comes(total, |Processes(part)|, default) && Match(d, defs)
    ensures var def := Def(if part.PartMap? then part.nameKey else None, Processes(part), default);
            var r := NormPart(part, total, d);
            && (r.Ok? <==> PartWell(part, default))
            && (r.Ok? ==> Match(r.value.1, defs + [def]) && d.parts <= r.value.1.parts && r.value.0 == r.value.1.parts[|defs|].name)
  {
    hide Comes, PartWell, ProcsAre, PartProcs, Processes, Decimal;
    PartNormalizes(part, total, default);
    var r := NormPart(part, total, d);
    if r.Ok? {
      var def := Def(if part.PartMap? then part.nameKey else None, Processes(part), default);
      OneMore(d, defs, def, NPart(r.value.0, PartProcs(part, total).value), r.value.1.counter);
    }
  }

  /** The name stands for the entry: it is the one given, or that of the partition defined in place. */
  ghost predicate Named(name: string, e: Entry, length: int, defs: seq<Def>, parts: seq<NPart>) {
    if EntryDefs(e, length) == [] then (e.ScPartition? || e.BePartition?) && e.part == Name(name)
    else exists k :: 0 <= k < |defs| && k < |parts| && EntryDefs(e, length) == [defs[k]] && parts[k].name == name
  }

  lemma EntryPlaces(e: Entry, length: int, d: Defs, defs: seq<Def>)
    requires Match(d, defs)
    ensures var r := Place(e, length, d);
            && (r.Ok? <==> EntryWell(e, length))
            && (r.Ok? ==> Match(r.value.1, defs + EntryDefs(e, length)) && d.parts <= r.value.1.parts &&
                          Named(r.value.0, e, length, defs + EntryDefs(e, length), r.value.1.parts))
  {
    hide Match, Comes, NormPart, ProcsWell, DefaultBudget, TotalOf, EntryWell, PartWell;
    PlacedIs(e);
    WellIs(e, length);
    if PartOf(e).Name? {
      assert defs + [] == defs;
    } else {
      DefaultComes(e, length, |Processes(PartOf(e))|);
      var default := Some(DefaultBudget(ForSc(e), length, |Processes(PartOf(e))|));
      PartDefines(PartOf(e), TotalOf(e, length), default, d, defs);
      MatchSize(d, defs);
      if Place(e, length, d).Ok? {
        MatchSize(Place(e, length, d).value.1, defs + EntryDefs(e, length));
        assert (defs + EntryDefs(e, length))[|defs|] == EntryDefs(e, length)[0];
      }
    }
  }

  lemma WellIs(e: Entry, length: int)
    ensures EntryWell(e, length) <==> PartOf(e).Name? || PartWell(PartOf(e), Some(DefaultBudget(ForSc(e), length, |Processes(PartOf(e))|)))
  {
    hide ProcsWell, DefaultBudget, Processes;
    PlacedIs(e);
    assert !PartOf(e).Name? ==> |EntryDefs(e, length)| == 1 && (EntryWell(e, length) ==> DefWell(EntryDefs(e, length)[0]));
  }

  lemma MatchSize(d: Defs, defs: seq<Def>)
    requires Match(d, defs)
    ensures |d.parts| == |defs|
  {
  }

  lemma PlacedIs(e: Entry)
    ensures e.ScProcesses? || e.BeProcesses? ==>
              Processes(PartOf(e)) == match e.procs case Single(p) => [KeysOf(p)] case List(l) => Listed(l)
    ensures e.ScPartition? || e.BePartition? ==> PartOf(e) == e.part
  {
  }

  // ----- Slices -----

  /** What the first `k` entries define, in order. */
  function DefsUpTo(es: seq<Entry>, k: nat, length: int): seq<Def>
    requires k <= |es|
  {
    if k == 0 then [] else DefsUpTo(es, k - 1, length) + EntryDefs(es[k - 1], length)
  }

  /** Entry `i` is the last of the first `k` for a role. */
  ghost predicate LastFor(es: seq<Entry>, k: nat, sc: bool, i: nat) {
    i < k <= |es| && ForSc(es[i]) == sc && forall m :: i < m < k ==> ForSc(es[m]) != sc
  }

  /** The last of the first `k` entries for a role says which partition has it; without one there is none. */
  ghost predicate RoleIs(name: Option<string>, es: seq<Entry>, k: nat, sc: bool, length: int, defs: seq<Def>, parts: seq<NPart>) {
    && k <= |es|
    && (forall i: nat :: LastFor(es, k, sc, i) ==> name.Some? && Named(name.value, es[i], length, defs, parts))
    && ((forall i :: 0 <= i < k ==> ForSc(es[i]) != sc) ==> name.None?)
  }

  lemma NamedLater(name: string, e: Entry, length: int, defs: seq<Def>, parts: seq<NPart>, more: seq<Def>, all: seq<NPart>)
    requires Named(name, e, length, defs, parts) && defs <= more && parts <= all
    ensures Named(name, e, length, more, all)
  {
    if EntryDefs(e, length) != [] {
      var k :| 0 <= k < |defs| && k < |parts| && EntryDefs(e, length) == [defs[k]] && parts[k].name == name;
      assert more[k] == defs[k] && all[k] == parts[k];
    }
  }

  lemma RoleLater(name: Option<string>, es: seq<Entry>, k: nat, sc: bool, length: int, defs: seq<Def>, parts: seq<NPart>,
        more: seq<Def>, all: seq<NPart>)
    requires RoleIs(name, es, k, sc, length, defs, parts) && defs <= more && parts <= all
    ensures RoleIs(name, es, k, sc, length, more, all)
  {
    hide Named, LastFor;
    forall i: nat | LastFor(es, k, sc, i)
      ensures i < |es| && Named(name.value, es[i], length, more, all)
    {
      LastIn(es, k, sc, i);
      NamedLater(name.value, es[i], length, defs, parts, more, all);
    }
  }

  lemma LastIn(es: seq<Entry>, k: nat, sc: bool, i: nat)
    requires LastFor(es, k, sc, i)
    ensures i < k <= |es|
  {
  }

  /** One entry more: it counts for its role, and the other role is not touched. */
  lemma RoleStep(old': Option<string>, name: string, es: seq<Entry>, k: nat, sc: bool, length: int, defs: seq<Def>, parts: seq<NPart>)
    requires k < |es| && RoleIs(old', es, k, sc, length, defs, parts) && Named(name, es[k], length, defs, parts)
    ensures RoleIs(if ForSc(es[k]) == sc then Some(name) else old', es, k + 1, sc, length, defs, parts)
  {
    hide Named;
    forall i: nat | LastFor(es, k + 1, sc, i)
      ensures if ForSc(es[k]) == sc then i == k else LastFor(es, k, sc, i)
    {
      assert ForSc(es[k]) == sc ==> !(i < k < k + 1);
    }
  }

  ghost predicate RolesAre(n: NSlice, es: seq<Entry>, k: nat, length: int, defs: seq<Def>, parts: seq<NPart>) {
    RoleIs(n.sc, es, k, true, length, defs, parts) && RoleIs(n.be, es, k, false, length, defs, parts)
  }

  ghost predicate EntriesWell(es: seq<Entry>, k: nat, length: int) {
    forall i :: k <= i < |es| ==> EntryWell(es[i], length)
  }

  lemma WithEntryIs(s: NSlice, e: Entry, name: string)
    ensures var n := WithEntry(s, e, name);
            && n.cpu == s.cpu && n.frequency == s.frequency
            && n.sc == (if ForSc(e) then Some(name) else s.sc)
            && n.be == (if ForSc(e) then s.be else Some(name))
  {
  }

  lemma {:induction false} EntriesMean(es: seq<Entry>, k: nat, length: int, s: NSlice, d: Defs, pre: seq<Def>)
    requires k <= |es| && Match(d, pre + DefsUpTo(es, k, length)) && RolesAre(s, es, k, length, pre + DefsUpTo(es, k, length), d.parts)
    ensures var r := NormEntriesFrom(es, k, length, s, d);
            && (r.Ok? <==> EntriesWell(es, k, length))
            && (r.Ok? ==>
                  var (n, d') := r.value;
                  var defs := pre + DefsUpTo(es, |es|, length);
                  && Match(d', defs) && d.parts <= d'.parts && n.cpu == s.cpu && n.frequency == s.frequency
                  && RolesAre(n, es, |es|, length, defs, d'.parts))
    decreases |es| - k
  {
    hide Match, Place, RoleIs, Named, EntryWell, WithEntry, EntryDefs;
    if k < |es| {
      var defs := pre + DefsUpTo(es, k, length);
      var more := pre + DefsUpTo(es, k + 1, length);
      assert defs + EntryDefs(es[k], length) == more;
      EntryPlaces(es[k], length, d, defs);
      var p := Place(es[k], length, d);
      if p.Ok? {
        var (name, d') := p.value;
        RoleLater(s.sc, es, k, true, length, defs, d.parts, more, d'.parts);
        RoleLater(s.be, es, k, false, length, defs, d.parts, more, d'.parts);
        RoleStep(s.sc, name, es, k, true, length, more, d'.parts);
        RoleStep(s.be, name, es, k, false, length, more, d'.parts);
        WithEntryIs(s, es[k], name);
        EntriesMean(es, k + 1, length, WithEntry(s, es[k], name), d', pre);
      }
    }
  }

  /** A CPU list which is read, or the word for all of them; how many CPUs there are does not matter. */
  ghost predicate ListAccepted(text: string) {
    text == "all" || exists cpus :: CpuListParser.Parse(text, {}, 0, false) == CpuListParser.Returns(cpus, 0)
  }

  lemma AcceptedIs(text: string)
    ensures CpuTextOk(text) <==> ListAccepted(text)
  {
    CpuListParser.ReturnsIff(text, {}, 0);
    hide CpuListParser.Parse, CpuListParser.AllBounded;
    if CpuTextOk(text) && text != "all" {
      assert CpuListParser.Parse(text, {}, 0, false) ==
             CpuListParser.Returns(CpuListParser.Parse(text, {}, 0, false).cpus, 0);
    }
  }

  ghost predicate SliceWell(s: SliceNode, length: int) {
    s.other.None? && EntriesWell(s.entries, 0, length) && s.cpu.Some? && ListAccepted(s.cpu.value)
  }

  ghost predicate SliceIs(n: NSlice, s: SliceNode, length: int, defs: seq<Def>, parts: seq<NPart>) {
    && Some(n.cpu) == s.cpu && n.frequency == s.frequency
    && RolesAre(n, s.entries, |s.entries|, length, defs, parts)
  }

  lemma NoRoles(n: NSlice, es: seq<Entry>, length: int, defs: seq<Def>, parts: seq<NPart>)
    requires n.sc.None? && n.be.None?
    ensures RolesAre(n, es, 0, length, defs, parts)
  {
  }

  lemma SliceMeans(s: SliceNode, length: int, d: Defs, pre: seq<Def>)
    requires Match(d, pre)
    ensures var r := NormSlice(s, length, d);
            && (r.Ok? <==> SliceWell(s, length))
            && (r.Ok? ==>
                  var (n, d') := r.value;
                  var defs := pre + DefsUpTo(s.entries, |s.entries|, length);
                  Match(d', defs) && d.parts <= d'.parts && SliceIs(n, s, length, defs, d'.parts))
  {
    hide Match, EntriesWell, ListAccepted, CpuText, RoleIs, NormEntriesFrom;
    var s0 := NSlice("", s.frequency, None, None);
    assert pre + [] == pre;
    NoRoles(s0, s.entries, length, pre, d.parts);
    EntriesMean(s.entries, 0, length, s0, d, pre);
    if s.cpu.Some? {
      AcceptedIs(s.cpu.value);
    }
  }

  function SlicesDefs(ss: seq<SliceNode>, k: nat, length: int): seq<Def>
    requires k <= |ss|
  {
    if k == 0 then [] else SlicesDefs(ss, k - 1, length) + DefsUpTo(ss[k - 1].entries, |ss[k - 1].entries|, length)
  }

  /** The first slices are kept one by one. */
  ghost predicate SlicesAre(ns: seq<NSlice>, ss: seq<SliceNode>, length: int, defs: seq<Def>, parts: seq<NPart>) {
    |ns| <= |ss| && forall i :: 0 <= i < |ns| ==> SliceIs(ns[i], ss[i], length, defs, parts)
  }

  lemma SliceLater(n: NSlice, s: SliceNode, length: int, defs: seq<Def>, parts: seq<NPart>, more: seq<Def>, all: seq<NPart>)
    requires SliceIs(n, s, length, defs, parts) && defs <= more && parts <= all
    ensures SliceIs(n, s, length, more, all)
  {
    hide RoleIs;
    RoleLater(n.sc, s.entries, |s.entries|, true, length, defs, parts, more, all);
    RoleLater(n.be, s.entries, |s.entries|, false, length, defs, parts, more, all);
  }

  lemma SlicesLater(ns: seq<NSlice>, ss: seq<SliceNode>, length: int, defs: seq<Def>, parts: seq<NPart>, more: seq<Def>, all: seq<NPart>)
    requires SlicesAre(ns, ss, length, defs, parts) && defs <= more && parts <= all
    ensures SlicesAre(ns, ss, length, more, all)
  {
    hide SliceIs;
    forall i | 0 <= i < |ns|
      ensures SliceIs(ns[i], ss[i], length, more, all)
    {
      SliceLater(ns[i], ss[i], length, defs, parts, more, all);
    }
  }

  ghost predicate SlicesWell(ss: seq<SliceNode>, k: nat, length: int) {
    forall i :: k <= i < |ss| ==> SliceWell(ss[i], length)
  }

  lemma {:induction false} SlicesMean(ss: seq<SliceNode>, k: nat, length: int, acc: seq<NSlice>, d: Defs, pre: seq<Def>)
    requires k == |acc| <= |ss| && Match(d, pre + SlicesDefs(ss, k, length))
    requires SlicesAre(acc, ss, length, pre + SlicesDefs(ss, k, length), d.parts)
    ensures var r := NormSlicesFrom(ss, k, length, acc, d);
            && (r.Ok? <==> SlicesWell(ss, k, length))
            && (r.Ok? ==>
                  var (ns, d') := r.value;
                  var defs := pre + SlicesDefs(ss, |ss|, length);
                  Match(d', defs) && d.parts <= d'.parts && |ns| == |ss| && SlicesAre(ns, ss, length, defs, d'.parts))
    decreases |ss| - k
  {
    hide Match, NormSlice, SliceWell, SliceIs, DefsUpTo;
    if k < |ss| {
      var defs := pre + SlicesDefs(ss, k, length);
      var more := pre + SlicesDefs(ss, k + 1, length);
      assert defs + DefsUpTo(ss[k].entries, |ss[k].entries|, length) == more;
      SliceMeans(ss[k], length, d, defs);
      var r := NormSlice(ss[k], length, d);
      if r.Ok? {
        var (n, d') := r.value;
        SlicesLater(acc, ss, length, defs, d.parts, more, d'.parts);
        SlicesMean(ss, k + 1, length, acc + [n], d', pre);
      }
    }
  }

  // ----- Windows -----

  predicate NoOwnKeys(w: WinNode) {
    w.cpu.None? && w.scPartition.None? && w.bePartition.None? && w.scProcesses.None? && w.beProcesses.None?
  }

  /** What a window says itself about the partition of a role. */
  function OwnEntry(w: WinNode, sc: bool): Option<Entry> {
    if sc then
      if w.scPartition.Some? then Some(ScPartition(w.scPartition.value))
      else if w.scProcesses.Some? then Some(ScProcesses(w.scProcesses.value)) else None
    else
      if w.bePartition.Some? then Some(BePartition(w.bePartition.value))
      else if w.beProcesses.Some? then Some(BeProcesses(w.beProcesses.value)) else None
  }

  /** Either slices or keys of a slice, neither role twice, and nothing else. */
  ghost predicate WindowWell(w: WinNode) {
    && w.length.Some? && w.before.None? && w.after.None?
    && if w.slices.Some? then NoOwnKeys(w) && SlicesWell(w.slices.value, 0, w.length.value)
       else
         && !(w.scPartition.Some? && w.scProcesses.Some?) && !(w.bePartition.Some? && w.beProcesses.Some?)
         && (OwnEntry(w, true).Some? ==> EntryWell(OwnEntry(w, true).value, w.length.value))
         && (OwnEntry(w, false).Some? ==> EntryWell(OwnEntry(w, false).value, w.length.value))
         && (w.cpu.Some? ==> ListAccepted(w.cpu.value))
  }

  function EntryDefsOf(e: Option<Entry>, length: int): seq<Def> {
    if e.Some? then EntryDefs(e.value, length) else []
  }

  /** Partitions are normalized before lists of processes. */
  function OwnDefs(w: WinNode, length: int): seq<Def> {
    var sc, be := EntryDefsOf(OwnEntry(w, true), length), EntryDefsOf(OwnEntry(w, false), length);
    if w.bePartition.Some? && w.scPartition.None? then be + sc else sc + be
  }

  function WindowDefs(w: WinNode): seq<Def> {
    match w.length
    case None => []
    case Some(length) => if w.slices.Some? then SlicesDefs(w.slices.value, |w.slices.value|, length) else OwnDefs(w, length)
  }

  ghost predicate OwnRole(name: Option<string>, e: Option<Entry>, length: int, defs: seq<Def>, parts: seq<NPart>) {
    match e
    case None => name.None?
    case Some(x) => name.Some? && Named(name.value, x, length, defs, parts)
  }

  /** The slice which a window describes itself has its CPUs, or all, and exactly its partitions. */
  ghost predicate OwnIs(n: NSlice, w: WinNode, length: int, defs: seq<Def>, parts: seq<NPart>) {
    && n.cpu == (if w.cpu.Some? then w.cpu.value else "all") && n.frequency.None?
    && OwnRole(n.sc, OwnEntry(w, true), length, defs, parts)
    && OwnRole(n.be, OwnEntry(w, false), length, defs, parts)
  }

  ghost predicate WinIs(n: NWin, w: WinNode, defs: seq<Def>, parts: seq<NPart>) {
    && Some(n.length) == w.length
    && if w.slices.Some? then
         n.slices.Some? && |n.slices.value| == |w.slices.value| && SlicesAre(n.slices.value, w.slices.value, n.length, defs, parts)
       else if NoOwnKeys(w) then n.slices.None?
       else n.slices.Some? && |n.slices.value| == 1 && OwnIs(n.slices.value[0], w, n.length, defs, parts)
  }

  /** The entries are those of the two roles, in one order or the other. */
  ghost predicate Holds(es: seq<Entry>, x: Option<Entry>, y: Option<Entry>, beFirst: bool) {
    && (x.Some? ==> ForSc(x.value)) && (y.Some? ==> !ForSc(y.value))
    && var a, b := if x.Some? then [x.value] else [], if y.Some? then [y.value] else [];
       es == if beFirst then b + a else a + b
  }

  lemma OwnEntries(w: WinNode)
    requires !(w.scPartition.Some? && w.scProcesses.Some?) && !(w.bePartition.Some? && w.beProcesses.Some?)
    ensures Holds(InlineSlice(w).entries, OwnEntry(w, true), OwnEntry(w, false), w.bePartition.Some? && w.scPartition.None?)
  {
  }

  lemma HoldsDefs(es: seq<Entry>, x: Option<Entry>, y: Option<Entry>, beFirst: bool, length: int)
    requires Holds(es, x, y, beFirst)
    ensures DefsUpTo(es, |es|, length) ==
            if beFirst then EntryDefsOf(y, length) + EntryDefsOf(x, length) else EntryDefsOf(x, length) + EntryDefsOf(y, length)
    ensures EntriesWell(es, 0, length) <==>
            (x.Some? ==> EntryWell(x.value, length)) && (y.Some? ==> EntryWell(y.value, length))
  {
    hide EntryDefs, EntryWell;
    if x.Some? && y.Some? {
      assert es == if beFirst then [y.value, x.value] else [x.value, y.value];
      assert DefsUpTo(es, 1, length) == [] + EntryDefs(es[0], length);
      assert es[0] == y.value || es[1] == y.value;
    } else if x.Some? {
      assert es == [x.value];
      assert DefsUpTo(es, 1, length) == [] + EntryDefs(x.value, length);
    } else if y.Some? {
      assert es == [y.value];
      assert DefsUpTo(es, 1, length) == [] + EntryDefs(y.value, length);
    }
  }

  lemma HoldsRole(name: Option<string>, es: seq<Entry>, x: Option<Entry>, y: Option<Entry>, beFirst: bool, sc: bool, length: int,
        defs: seq<Def>, parts: seq<NPart>)
    requires Holds(es, x, y, beFirst) && RoleIs(name, es, |es|, sc, length, defs, parts)
    ensures OwnRole(name, if sc then x else y, length, defs, parts)
  {
    hide Named;
    var e := if sc then x else y;
    if e.Some? {
      var i: nat := if x.Some? && y.Some? && sc == beFirst then 1 else 0;
      assert es[i] == e.value;
      assert LastFor(es, |es|, sc, i);
    } else {
      assert forall i :: 0 <= i < |es| ==> ForSc(es[i]) != sc;
    }
  }

  lemma OneSlice(s: SliceNode, length: int)
    ensures SlicesDefs([s], 1, length) == DefsUpTo(s.entries, |s.entries|, length)
    ensures SlicesWell([s], 0, length) <==> SliceWell(s, length)
  {
    hide SliceWell, DefsUpTo;
    assert SlicesDefs([s], 0, length) + DefsUpTo(s.entries, |s.entries|, length) == DefsUpTo(s.entries, |s.entries|, length);
    assert SlicesWell([s], 0, length) ==> SliceWell([s][0], length);
  }

  lemma OwnMeans(w: WinNode, length: int, d: Defs, pre: seq<Def>)
    requires !(w.scPartition.Some? && w.scProcesses.Some?) && !(w.bePartition.Some? && w.beProcesses.Some?)
    requires Match(d, pre)
    ensures var r := NormSlicesFrom([InlineSlice(w)], 0, length, [], d);
            && (r.Ok? <==>
                  && (OwnEntry(w, true).Some? ==> EntryWell(OwnEntry(w, true).value, length))
                  && (OwnEntry(w, false).Some? ==> EntryWell(OwnEntry(w, false).value, length))
                  && (w.cpu.Some? ==> ListAccepted(w.cpu.value)))
            && (r.Ok? ==>
                  var (ns, d') := r.value;
                  var defs := pre + OwnDefs(w, length);
                  Match(d', defs) && d.parts <= d'.parts && |ns| == 1 && OwnIs(ns[0], w, length, defs, d'.parts))
  {
    hide Match, EntryWell, RoleIs, OwnRole, NormSlicesFrom, DefsUpTo, Holds, EntriesWell, EntryDefsOf, OwnEntry;
    var s := InlineSlice(w);
    var beFirst := w.bePartition.Some? && w.scPartition.None?;
    var x, y := OwnEntry(w, true), OwnEntry(w, false);
    OwnEntries(w);
    HoldsDefs(s.entries, x, y, beFirst, length);
    OneSlice(s, length);
    assert pre + [] == pre;
    SlicesMean([s], 0, length, [], d, pre);
    var r := NormSlicesFrom([s], 0, length, [], d);
    if r.Ok? {
      var (ns, d') := r.value;
      assert SliceIs(ns[0], [s][0], length, pre + OwnDefs(w, length), d'.parts);
      HoldsRole(ns[0].sc, s.entries, x, y, beFirst, true, length, pre + OwnDefs(w, length), d'.parts);
      HoldsRole(ns[0].be, s.entries, x, y, beFirst, false, length, pre + OwnDefs(w, length), d'.parts);
    }
  }

  lemma WindowMeans(w: WinNode, d: Defs, pre: seq<Def>)
    requires Match(d, pre)
    ensures var r := NormWindow(w, d);
            && (r.Ok? <==> WindowWell(w))
            && (r.Ok? ==>
                  var (n, d') := r.value;
                  var defs := pre + WindowDefs(w);
                  Match(d', defs) && d.parts <= d'.parts && WinIs(n, w, defs, d'.parts))
  {
    hide Match, EntryWell, OwnIs, NormSlicesFrom, InlineSlice, SliceIs, SliceWell, OwnDefs;
    assert pre + [] == pre;
    if w.length.Some? {
      var length := w.length.value;
      if w.slices.Some? {
        SlicesMean(w.slices.value, 0, length, [], d, pre);
      } else if !(w.scPartition.Some? && w.scProcesses.Some?) && !(w.bePartition.Some? && w.beProcesses.Some?) {
        OwnMeans(w, length, d, pre);
        NoneOfOwn(w, length);
      }
    }
  }

  lemma NoneOfOwn(w: WinNode, length: int)
    ensures NoOwnKeys(w) ==> OwnDefs(w, length) == [] && OwnEntry(w, true).None? && OwnEntry(w, false).None?
  {
  }

  // ----- The configuration -----

  function WindowsDefs(ws: seq<WinNode>, k: nat): seq<Def>
    requires k <= |ws|
  {
    if k == 0 then [] else WindowsDefs(ws, k - 1) + WindowDefs(ws[k - 1])
  }

  function ListedDefs(ps: seq<PartNode>): (r: seq<Def>)
    ensures |r| == |ps| && forall k :: 0 <= k < |ps| ==> r[k] == ListedDef(ps[k])
  {
    seq(|ps|, k requires 0 <= k < |ps| => ListedDef(ps[k]))
  }

  /** All partitions which the configuration defines, in order. */
  function Definitions(c: ConfigNode): seq<Def> {
    ListedDefs(c.partitions) + WindowsDefs(c.windows, |c.windows|)
  }

  ghost predicate WindowsAre(ns: seq<NWin>, ws: seq<WinNode>, defs: seq<Def>, parts: seq<NPart>) {
    |ns| <= |ws| && forall k :: 0 <= k < |ns| ==> WinIs(ns[k], ws[k], defs, parts)
  }

  lemma WindowLater(n: NWin, w: WinNode, defs: seq<Def>, parts: seq<NPart>, more: seq<Def>, all: seq<NPart>)
    requires WinIs(n, w, defs, parts) && defs <= more && parts <= all
    ensures WinIs(n, w, more, all)
  {
    hide SliceIs, Named;
    if w.slices.Some? {
      SlicesLater(n.slices.value, w.slices.value, n.length, defs, parts, more, all);
    } else if !NoOwnKeys(w) {
      RoleKept(n.slices.value[0].sc, OwnEntry(w, true), n.length, defs, parts, more, all);
      RoleKept(n.slices.value[0].be, OwnEntry(w, false), n.length, defs, parts, more, all);
    }
  }

  lemma RoleKept(name: Option<string>, e: Option<Entry>, length: int, defs: seq<Def>, parts: seq<NPart>, more: seq<Def>, all: seq<NPart>)
    requires OwnRole(name, e, length, defs, parts) && defs <= more && parts <= all
    ensures OwnRole(name, e, length, more, all)
  {
    hide Named;
    if e.Some? {
      NamedLater(name.value, e.value, length, defs, parts, more, all);
    }
  }

  lemma WindowsLater(ns: seq<NWin>, ws: seq<WinNode>, defs: seq<Def>, parts: seq<NPart>, more: seq<Def>, all: seq<NPart>)
    requires WindowsAre(ns, ws, defs, parts) && defs <= more && parts <= all
    ensures WindowsAre(ns, ws, more, all)
  {
    hide WinIs;
    forall k | 0 <= k < |ns|
      ensures WinIs(ns[k], ws[k], more, all)
    {
      WindowLater(ns[k], ws[k], defs, parts, more, all);
    }
  }

  ghost predicate WindowsWell(ws: seq<WinNode>, k: nat) {
    forall i :: k <= i < |ws| ==> WindowWell(ws[i])
  }

  lemma {:induction false} WindowsMean(ws: seq<WinNode>, k: nat, acc: seq<NWin>, d: Defs, pre: seq<Def>)
    requires k == |acc| <= |ws| && Match(d, pre + WindowsDefs(ws, k)) && WindowsAre(acc, ws, pre + WindowsDefs(ws, k), d.parts)
    ensures var r := NormWindowsFrom(ws, k, acc, d);
            && (r.Ok? <==> WindowsWell(ws, k))
            && (r.Ok? ==>
                  var (ns, d') := r.value;
                  var defs := pre + WindowsDefs(ws, |ws|);
                  Match(d', defs) && |ns| == |ws| && WindowsAre(ns, ws, defs, d'.parts))
    decreases |ws| - k
  {
    hide Match, NormWindow, WindowWell, WinIs, WindowDefs;
    if k < |ws| {
      var defs := pre + WindowsDefs(ws, k);
      var more := pre + WindowsDefs(ws, k + 1);
      assert defs + WindowDefs(ws[k]) == more;
      WindowMeans(ws[k], d, defs);
      var r := NormWindow(ws[k], d);
      if r.Ok? {
        var (n, d') := r.value;
        WindowsLater(acc, ws, defs, d.parts, more, d'.parts);
        WindowsMean(ws, k + 1, acc + [n], d', pre);
      }
    }
  }

  ghost predicate ListedWell(ps: seq<PartNode>, k: nat) {
    forall i :: k <= i < |ps| ==> PartWell(ps[i], None)
  }

  lemma {:induction false} PartsMean(ps: seq<PartNode>, k: nat, d: Defs)
    requires k <= |ps| && Match(d, ListedDefs(ps[..k]))
    ensures var r := NormPartsFrom(ps, k, d);
            && (r.Ok? <==> ListedWell(ps, k))
            && (r.Ok? ==> Match(r.value, ListedDefs(ps)))
    decreases |ps| - k
  {
    hide Match, NormPart, PartWell, Processes;
    if k == |ps| {
      assert ps[..k] == ps;
    } else {
      PartDefines(ps[k], None, None, d, ListedDefs(ps[..k]));
      assert ListedDefs(ps[..k]) + [ListedDef(ps[k])] == ListedDefs(ps[..k + 1]);
      if NormPart(ps[k], None, d).Ok? {
        PartsMean(ps, k + 1, NormPart(ps[k], None, d).value.1);
      }
    }
  }

  /** The working directory is changed as written, or if the configuration comes from a file. */
  function CwdOf(c: ConfigNode, fromFile: bool): bool {
    match c.setCwd case Some(b) => b case None => fromFile
  }

  /**
   * What is accepted: `set_cwd` only in files, and true only in regular ones; a list of CPUs; known
   * keys; and partitions and windows which are in order.
   */
  ghost predicate ConfigWell(c: ConfigNode, fromFile: bool, regular: bool) {
    && (c.setCwd.Some? ==> fromFile) && (CwdOf(c, fromFile) && fromFile ==> regular)
    && (c.demosCpu.Some? ==> ListAccepted(c.demosCpu.value)) && c.other.None?
    && ListedWell(c.partitions, 0) && WindowsWell(c.windows, 0)
  }

  /** What an accepted configuration becomes. */
  ghost predicate ConfigIs(c: ConfigNode, fromFile: bool, n: NConfig) {
    && n.setCwd == CwdOf(c, fromFile)
    && n.demosCpu == (if c.demosCpu.Some? then c.demosCpu.value else "all")
    && PartsAre(Definitions(c), n.partitions)
    && |n.windows| == |c.windows| && WindowsAre(n.windows, c.windows, Definitions(c), n.partitions)
  }

  lemma NothingYet()
    ensures Match(Defs([], 0), []) && ListedDefs([]) == []
  {
  }

  lemma ConfigSplits(c: ConfigNode, fromFile: bool, regular: bool)
    ensures var listed := NormPartsFrom(c.partitions, 0, Defs([], 0));
            && (listed.Ok? <==> ListedWell(c.partitions, 0))
            && (listed.Ok? ==>
                  var ws := NormWindowsFrom(c.windows, 0, [], listed.value);
                  && (ws.Ok? <==> WindowsWell(c.windows, 0))
                  && (ws.Ok? ==>
                        && PartsAre(Definitions(c), ws.value.1.parts) && |ws.value.0| == |c.windows|
                        && WindowsAre(ws.value.0, c.windows, Definitions(c), ws.value.1.parts)))
  {
    hide PartsAre, WindowWell, PartWell, WinIs, NormWindowsFrom, NormPartsFrom;
    NothingYet();
    assert c.partitions[..0] == [];
    PartsMean(c.partitions, 0, Defs([], 0));
    var listed := NormPartsFrom(c.partitions, 0, Defs([], 0));
    if listed.Ok? {
      var pre := ListedDefs(c.partitions);
      assert pre + [] == pre;
      WindowsMean(c.windows, 0, [], listed.value, pre);
    }
  }

  /** Which configurations are accepted, and what each key of an accepted one becomes. */
  lemma NormalizeMeans(c: ConfigNode, fromFile: bool, regular: bool)
    ensures var r := Normalize(c, fromFile, regular);
            && (r.Ok? <==> ConfigWell(c, fromFile, regular))
            && (r.Ok? ==> ConfigIs(c, fromFile, r.value))
  {
    hide PartsAre, WindowsWell, ListedWell, WindowsAre, NormWindowsFrom, NormPartsFrom, CpuText, ListAccepted, Definitions;
    ConfigSplits(c, fromFile, regular);
    AcceptedIs(if c.demosCpu.Some? then c.demosCpu.value else "all");
    AllIsAccepted();
  }

  lemma AllIsAccepted()
    ensures ListAccepted("all")
  {
  }
}
