/**
 * What normalization keeps: a normalized configuration is left as it is, and every slice refers by
 * name to the partition which was written in its place.
 */
module NormalForm {
  import opened Options
  import opened CpuList
  import opened Normalization
  import Assignment
  import CpuListMeaning
  import CpuListParser

  // ----- The normal form, and the tree for it -----

  predicate ProcNormal(p: NProc) {
    p.budget > 0 && 0 <= p.jitter <= 2 * p.budget
  }

  ghost predicate PartNormal(p: NPart) {
    |p.procs| > 0 && forall j :: 0 <= j < |p.procs| ==> ProcNormal(p.procs[j])
  }

  ghost predicate PartsNormal(parts: seq<NPart>) {
    forall k :: 0 <= k < |parts| ==> PartNormal(parts[k])
  }

  ghost predicate SlicesNormal(ss: seq<NSlice>) {
    forall i :: 0 <= i < |ss| ==> CpuTextOk(ss[i].cpu)
  }

  ghost predicate WinNormal(w: NWin) {
    w.slices.Some? ==> SlicesNormal(w.slices.value)
  }

  ghost predicate Normal(n: NConfig) {
    && CpuTextOk(n.demosCpu)
    && PartsNormal(n.partitions)
    && forall k :: 0 <= k < |n.windows| ==> WinNormal(n.windows[k])
  }

  function ProcTree(p: NProc): ProcNode {
    Fields(p.cmd, Some(p.budget), Some(p.jitter), Some(p.init), p.frequency, None)
  }

  function ProcTrees(ps: seq<NProc>): (r: seq<ProcNode>)
    ensures |r| == |ps| && forall j :: 0 <= j < |ps| ==> r[j] == ProcTree(ps[j])
  {
    seq(|ps|, j requires 0 <= j < |ps| => ProcTree(ps[j]))
  }

  function PartTree(p: NPart): PartNode {
    PartMap(Some(p.name), Some(List(ProcTrees(p.procs))), NO_INLINE, None)
  }

  function SliceTree(s: NSlice): SliceNode {
    SliceNode(Some(s.cpu), s.frequency,
              (if s.sc.Some? then [ScPartition(Name(s.sc.value))] else [])
              + (if s.be.Some? then [BePartition(Name(s.be.value))] else []),
              None)
  }

  function SliceTrees(ss: seq<NSlice>): (r: seq<SliceNode>)
    ensures |r| == |ss| && forall i :: 0 <= i < |ss| ==> r[i] == SliceTree(ss[i])
  {
    seq(|ss|, i requires 0 <= i < |ss| => SliceTree(ss[i]))
  }

  function WinTree(w: NWin): WinNode {
    WinNode(Some(w.length), if w.slices.None? then None else Some(SliceTrees(w.slices.value)),
            None, None, None, None, None, None, None)
  }

  /** The tree of a normalized configuration, as it would be read again. */
  function Tree(n: NConfig): ConfigNode {
    ConfigNode(
      Some(n.setCwd), Some(n.demosCpu),
      seq(|n.partitions|, k requires 0 <= k < |n.partitions| => PartTree(n.partitions[k])),
      seq(|n.windows|, k requires 0 <= k < |n.windows| => WinTree(n.windows[k])),
      None)
  }

  // ----- Normalization yields the normal form -----

  lemma {:induction false} ProcsAreNormal(ps: seq<ProcNode>, k: nat, each: Option<real>, acc: seq<NProc>)
    requires k <= |ps| && forall j :: 0 <= j < |acc| ==> ProcNormal(acc[j])
    ensures var r := NormProcsFrom(ps, k, each, acc);
            r.Ok? ==> forall j :: 0 <= j < |r.value| ==> ProcNormal(r.value[j])
    decreases |ps| - k
  {
    if k < |ps| && NormProc(ps[k], each).Ok? {
      ProcsAreNormal(ps, k + 1, each, acc + [NormProc(ps[k], each).value]);
    }
  }

  lemma PartIsNormal(part: PartNode, total: Option<real>)
    ensures var r := PartProcs(part, total);
            r.Ok? ==> |r.value| > 0 && forall j :: 0 <= j < |r.value| ==> ProcNormal(r.value[j])
  {
    hide NormProc, NormProcs, ProcNormal;
    match part
    case Name(_) =>
    case ProcList(l) => OrInlineIsNormal(List(l), NO_INLINE, total);
    case PartMap(_, processes, inline, _) =>
      NoneAreNormal(inline, total);
      if processes.Some? {
        OrInlineIsNormal(processes.value, inline, total);
      }
  }

  lemma NoneAreNormal(inline: Inline, total: Option<real>)
    ensures var r := OrInline(Ok([]), inline, total);
            r.Ok? ==> |r.value| > 0 && forall j :: 0 <= j < |r.value| ==> ProcNormal(r.value[j])
  {
  }

  lemma OrInlineIsNormal(ps: Procs, inline: Inline, total: Option<real>)
    ensures var r := OrInline(NormProcs(ps, total), inline, total);
            r.Ok? ==> |r.value| > 0 && forall j :: 0 <= j < |r.value| ==> ProcNormal(r.value[j])
  {
    hide NormProc, ProcNormal, NormProcs;
    NoneAreNormal(inline, total);
    AllAreNormal(ps, total);
    var procs := NormProcs(ps, total);
    if procs.Ok? {
      if |procs.value| == 0 {
        assert procs.value == [];
      } else {
        assert procs.value != [];
      }
    }
  }

  lemma AllAreNormal(ps: Procs, total: Option<real>)
    ensures var r := NormProcs(ps, total); r.Ok? ==> forall j :: 0 <= j < |r.value| ==> ProcNormal(r.value[j])
  {
    hide NormProc, ProcNormal;
    match ps
    case List(l) => ProcsAreNormal(l, 0, Share(total, |l|), []);
    case Single(p) => ProcsAreNormal([p], 0, total, []);
  }

  lemma PlaceKeepsNormal(e: Entry, length: int, d: Defs)
    requires PartsNormal(d.parts)
    ensures var r := Place(e, length, d); r.Ok? ==> PartsNormal(r.value.1.parts)
  {
    PartIsNormal(PartOf(e), TotalOf(e, length));
    hide ProcNormal, PartProcs, TotalOf;
  }

  lemma {:induction false} EntriesKeepNormal(es: seq<Entry>, k: nat, length: int, s: NSlice, d: Defs)
    requires k <= |es| && PartsNormal(d.parts)
    ensures var r := NormEntriesFrom(es, k, length, s, d);
            r.Ok? ==> PartsNormal(r.value.1.parts) && r.value.0.cpu == s.cpu
    decreases |es| - k
  {
    hide Place, PartsNormal;
    if k < |es| {
      PlaceKeepsNormal(es[k], length, d);
      var p := Place(es[k], length, d);
      if p.Ok? {
        EntriesKeepNormal(es, k + 1, length, WithEntry(s, es[k], p.value.0), p.value.1);
      }
    }
  }

  lemma {:induction false} SlicesAreNormal(ss: seq<SliceNode>, k: nat, length: int, acc: seq<NSlice>, d: Defs)
    requires k <= |ss| && PartsNormal(d.parts) && SlicesNormal(acc)
    ensures var r := NormSlicesFrom(ss, k, length, acc, d);
            r.Ok? ==> PartsNormal(r.value.1.parts) && SlicesNormal(r.value.0)
    decreases |ss| - k
  {
    hide PartsNormal, CpuText;
    if k < |ss| {
      var r := NormSlice(ss[k], length, d);
      if r.Ok? {
        EntriesKeepNormal(ss[k].entries, 0, length, NSlice("", ss[k].frequency, None, None), d);
        SlicesAreNormal(ss, k + 1, length, acc + [r.value.0], r.value.1);
      }
    }
  }

  lemma {:induction false} WindowsAreNormal(ws: seq<WinNode>, k: nat, acc: seq<NWin>, d: Defs)
    requires k <= |ws| && PartsNormal(d.parts) && forall j :: 0 <= j < |acc| ==> WinNormal(acc[j])
    ensures var r := NormWindowsFrom(ws, k, acc, d);
            r.Ok? ==> PartsNormal(r.value.1.parts) && forall j :: 0 <= j < |r.value.0| ==> WinNormal(r.value.0[j])
    decreases |ws| - k
  {
    hide PartsNormal, SlicesNormal, NormSlicesFrom, SlicesOf;
    if k < |ws| {
      var r := NormWindow(ws[k], d);
      if r.Ok? {
        if SlicesOf(ws[k]).Some? {
          EmptyIsNormal();
          SlicesAreNormal(SlicesOf(ws[k]).value, 0, ws[k].length.value, [], d);
        }
        WindowsAreNormal(ws, k + 1, acc + [r.value.0], r.value.1);
      }
    }
  }

  lemma EmptyIsNormal()
    ensures SlicesNormal([]) && PartsNormal([])
  {
  }

  lemma {:induction false} PartsAreNormal(ps: seq<PartNode>, k: nat, d: Defs)
    requires k <= |ps| && PartsNormal(d.parts)
    ensures var r := NormPartsFrom(ps, k, d); r.Ok? ==> PartsNormal(r.value.parts)
    decreases |ps| - k
  {
    if k < |ps| {
      PartIsNormal(ps[k], None);
      var r := NormPart(ps[k], None, d);
      if r.Ok? {
        PartsAreNormal(ps, k + 1, r.value.1);
      }
    }
  }

  lemma ResultIsNormal(c: ConfigNode, fromFile: bool, regular: bool)
    ensures var r := Normalize(c, fromFile, regular); r.Ok? ==> Normal(r.value)
  {
    hide PartsNormal, WinNormal, CpuText, NormPartsFrom, NormWindowsFrom;
    EmptyIsNormal();
    PartsAreNormal(c.partitions, 0, Defs([], 0));
    var d := NormPartsFrom(c.partitions, 0, Defs([], 0));
    if d.Ok? {
      WindowsAreNormal(c.windows, 0, [], d.value);
    }
  }

  // ----- The normal form is left as it is -----

  lemma {:induction false} ProcsStay(ps: seq<NProc>, k: nat, each: Option<real>)
    requires k <= |ps| && forall j :: 0 <= j < |ps| ==> ProcNormal(ps[j])
    ensures NormProcsFrom(ProcTrees(ps), k, each, ps[..k]) == Ok(ps)
    decreases |ps| - k
  {
    if k < |ps| {
      assert NormProc(ProcTree(ps[k]), each) == Ok(ps[k]);
      assert ps[..k] + [ps[k]] == ps[..k + 1];
      ProcsStay(ps, k + 1, each);
    } else {
      assert ps[..k] == ps;
    }
  }

  lemma PartStays(p: NPart, d: Defs)
    requires PartNormal(p)
    ensures NormPart(PartTree(p), None, d) == Ok((p.name, d.(parts := d.parts + [p])))
  {
    ProcsStay(p.procs, 0, Share(None, |p.procs|));
  }

  lemma {:induction false} PartsStay(ps: seq<NPart>, trees: seq<PartNode>, k: nat)
    requires k <= |ps| == |trees| && PartsNormal(ps)
    requires forall j :: 0 <= j < |ps| ==> trees[j] == PartTree(ps[j])
    ensures NormPartsFrom(trees, k, Defs(ps[..k], 0)) == Ok(Defs(ps, 0))
    decreases |ps| - k
  {
    hide PartTree, NormPart;
    if k < |ps| {
      PartStays(ps[k], Defs(ps[..k], 0));
      assert ps[..k] + [ps[k]] == ps[..k + 1];
      PartsStay(ps, trees, k + 1);
    } else {
      assert ps[..k] == ps;
    }
  }

  lemma SliceStays(s: NSlice, length: int, d: Defs)
    requires CpuTextOk(s.cpu)
    ensures NormSlice(SliceTree(s), length, d) == Ok((s, d))
  {
    hide CpuText;
    var es := SliceTree(s).entries;
    var s0 := NSlice("", s.frequency, None, None);
    var last := s.(cpu := "");
    assert NormEntriesFrom(es, |es|, length, last, d) == Ok((last, d));
    if s.sc.Some? && s.be.Some? {
      assert es == [ScPartition(Name(s.sc.value)), BePartition(Name(s.be.value))];
      assert NormEntriesFrom(es, 1, length, s0.(sc := s.sc), d) == Ok((last, d));
    } else if s.sc.Some? {
      assert es == [ScPartition(Name(s.sc.value))];
    } else if s.be.Some? {
      assert es == [BePartition(Name(s.be.value))];
    }
  }

  lemma {:induction false} SlicesStay(ss: seq<NSlice>, k: nat, length: int, d: Defs)
    requires k <= |ss| && SlicesNormal(ss)
    ensures NormSlicesFrom(SliceTrees(ss), k, length, ss[..k], d) == Ok((ss, d))
    decreases |ss| - k
  {
    hide SliceTree, NormSlice, CpuText;
    if k < |ss| {
      SliceStays(ss[k], length, d);
      assert ss[..k] + [ss[k]] == ss[..k + 1];
      SlicesStay(ss, k + 1, length, d);
    } else {
      assert ss[..k] == ss;
    }
  }

  lemma WindowStays(w: NWin, d: Defs)
    requires WinNormal(w)
    ensures NormWindow(WinTree(w), d) == Ok((w, d))
  {
    if w.slices.Some? {
      SlicesStay(w.slices.value, 0, w.length, d);
    }
  }

  lemma {:induction false} WindowsStay(ws: seq<NWin>, trees: seq<WinNode>, k: nat, d: Defs)
    requires k <= |ws| == |trees| && forall j :: 0 <= j < |ws| ==> WinNormal(ws[j])
    requires forall j :: 0 <= j < |ws| ==> trees[j] == WinTree(ws[j])
    ensures NormWindowsFrom(trees, k, ws[..k], d) == Ok((ws, d))
    decreases |ws| - k
  {
    hide WinTree, NormWindow, WinNormal;
    if k < |ws| {
      WindowStays(ws[k], d);
      assert ws[..k] + [ws[k]] == ws[..k + 1];
      WindowsStay(ws, trees, k + 1, d);
    } else {
      assert ws[..k] == ws;
    }
  }

  /** A normal form which was read from a file is its own normal form, unless `set_cwd` is refused there. */
  lemma NormalStays(n: NConfig, regular: bool)
    requires Normal(n)
    ensures Normalize(Tree(n), true, regular) == if n.setCwd && !regular then Fail(Refused) else Ok(n)
  {
    hide CpuText, PartsNormal, WinNormal, NormPartsFrom, NormWindowsFrom, PartTree, WinTree;
    PartsStay(n.partitions, Tree(n).partitions, 0);
    WindowsStay(n.windows, Tree(n).windows, 0, Defs(n.partitions, 0));
  }

  /** Normalization is idempotent on configurations from files. */
  lemma Idempotent(c: ConfigNode, regular: bool)
    requires Normalize(c, true, regular).Ok?
    ensures var n := Normalize(c, true, regular).value;
            Normalize(Tree(n), true, regular) == Ok(n)
  {
    ResultIsNormal(c, true, regular);
    NormalStays(Normalize(c, true, regular).value, regular);
  }

  /**
   * It is so only there: the normal form always has `set_cwd`, which is refused in place. So what
   * normalizes is left as it is the second time iff it comes from a file.
   */
  lemma IdempotentIff(c: ConfigNode, fromFile: bool, regular: bool)
    requires Normalize(c, fromFile, regular).Ok?
    ensures Normalize(Tree(Normalize(c, fromFile, regular).value), fromFile, regular) ==
            if fromFile then Normalize(c, fromFile, regular) else Fail(Refused)
  {
    if fromFile {
      Idempotent(c, regular);
    }
  }

  // ----- Slices refer to what was written in place -----

  /** What a slice ends up with for a role: its last entry for it counts. */
  function LastEntry(es: seq<Entry>, sc: bool): Option<Entry> {
    if |es| == 0 then None
    else if IsSc(es[|es| - 1]) == sc then Some(es[|es| - 1])
    else LastEntry(es[..|es| - 1], sc)
  }

  ghost predicate Defined(parts: seq<NPart>, name: string, procs: Result<seq<NProc>>) {
    exists k :: 0 <= k < |parts| && parts[k].name == name && Ok(parts[k].procs) == procs
  }

  /** The name stands for the entry: it is the entry itself, or names a partition like the one in place. */
  ghost predicate Refers(name: Option<string>, e: Option<Entry>, length: int, parts: seq<NPart>) {
    match e
    case None => name.None?
    case Some(x) =>
      && name.Some?
      && if PartOf(x).Name? then name.value == PartOf(x).name
         else Defined(parts, name.value, PartProcs(PartOf(x), TotalOf(x, length)))
  }

  lemma RefersLater(name: Option<string>, e: Option<Entry>, length: int, parts: seq<NPart>, more: seq<NPart>)
    requires Refers(name, e, length, parts) && parts <= more
    ensures Refers(name, e, length, more)
  {
    if e.Some? && !PartOf(e.value).Name? {
      var procs := PartProcs(PartOf(e.value), TotalOf(e.value, length));
      var k :| 0 <= k < |parts| && parts[k].name == name.value && Ok(parts[k].procs) == procs;
      assert more[k] == parts[k];
    }
  }

  lemma PlaceRefers(e: Entry, length: int, d: Defs)
    requires Place(e, length, d).Ok?
    ensures var (name, d') := Place(e, length, d).value;
            d.parts <= d'.parts && Refers(Some(name), Some(e), length, d'.parts)
  {
    hide PartProcs;
    var (name, d') := Place(e, length, d).value;
    if !PartOf(e).Name? {
      assert d'.parts[|d.parts|].name == name;
    }
  }

  lemma {:induction false} EntriesRefer(es: seq<Entry>, k: nat, length: int, s: NSlice, d: Defs)
    requires k <= |es| && NormEntriesFrom(es, k, length, s, d).Ok?
    requires Refers(s.sc, LastEntry(es[..k], true), length, d.parts)
    requires Refers(s.be, LastEntry(es[..k], false), length, d.parts)
    ensures var (n, d') := NormEntriesFrom(es, k, length, s, d).value;
            && d.parts <= d'.parts
            && Refers(n.sc, LastEntry(es, true), length, d'.parts)
            && Refers(n.be, LastEntry(es, false), length, d'.parts)
    decreases |es| - k
  {
    if k == |es| {
      assert es[..k] == es;
    } else {
      hide Refers, Place;
      PlaceRefers(es[k], length, d);
      var (name, d') := Place(es[k], length, d).value;
      assert es[..k + 1][..k] == es[..k];
      RefersLater(s.sc, LastEntry(es[..k], true), length, d.parts, d'.parts);
      RefersLater(s.be, LastEntry(es[..k], false), length, d.parts, d'.parts);
      EntriesRefer(es, k + 1, length, WithEntry(s, es[k], name), d');
    }
  }

  ghost predicate SliceRefers(n: NSlice, s: SliceNode, length: int, parts: seq<NPart>) {
    && Some(n.cpu) == s.cpu && n.frequency == s.frequency
    && Refers(n.sc, LastEntry(s.entries, true), length, parts)
    && Refers(n.be, LastEntry(s.entries, false), length, parts)
  }

  lemma {:induction false} EntriesKeep(es: seq<Entry>, k: nat, length: int, s: NSlice, d: Defs)
    requires k <= |es| && NormEntriesFrom(es, k, length, s, d).Ok?
    ensures var n := NormEntriesFrom(es, k, length, s, d).value.0; n.cpu == s.cpu && n.frequency == s.frequency
    decreases |es| - k
  {
    if k < |es| {
      hide Place;
      var (name, d') := Place(es[k], length, d).value;
      EntriesKeep(es, k + 1, length, WithEntry(s, es[k], name), d');
    }
  }

  lemma SliceMeans(s: SliceNode, length: int, d: Defs)
    requires NormSlice(s, length, d).Ok?
    ensures var (n, d') := NormSlice(s, length, d).value;
            d.parts <= d'.parts && SliceRefers(n, s, length, d'.parts)
  {
    hide CpuText;
    var s0 := NSlice("", s.frequency, None, None);
    EntriesRefer(s.entries, 0, length, s0, d);
    EntriesKeep(s.entries, 0, length, s0, d);
  }

  ghost predicate AllRefer(ns: seq<NSlice>, ss: seq<SliceNode>, length: int, parts: seq<NPart>) {
    |ns| <= |ss| && forall i :: 0 <= i < |ns| ==> SliceRefers(ns[i], ss[i], length, parts)
  }

  lemma AllReferLater(ns: seq<NSlice>, ss: seq<SliceNode>, length: int, parts: seq<NPart>, more: seq<NPart>)
    requires AllRefer(ns, ss, length, parts) && parts <= more
    ensures AllRefer(ns, ss, length, more)
  {
    hide Refers;
    forall i | 0 <= i < |ns|
      ensures SliceRefers(ns[i], ss[i], length, more)
    {
      assert SliceRefers(ns[i], ss[i], length, parts);
      RefersLater(ns[i].sc, LastEntry(ss[i].entries, true), length, parts, more);
      RefersLater(ns[i].be, LastEntry(ss[i].entries, false), length, parts, more);
    }
  }

  lemma {:induction false} SlicesMean(ss: seq<SliceNode>, k: nat, length: int, acc: seq<NSlice>, d: Defs)
    requires k == |acc| <= |ss| && NormSlicesFrom(ss, k, length, acc, d).Ok? && AllRefer(acc, ss, length, d.parts)
    ensures var (ns, d') := NormSlicesFrom(ss, k, length, acc, d).value;
            d.parts <= d'.parts && |ns| == |ss| && AllRefer(ns, ss, length, d'.parts)
    decreases |ss| - k
  {
    hide SliceRefers, NormSlice;
    if k < |ss| {
      SliceMeans(ss[k], length, d);
      var (n, d') := NormSlice(ss[k], length, d).value;
      AllReferLater(acc, ss, length, d.parts, d'.parts);
      SlicesMean(ss, k + 1, length, acc + [n], d');
    }
  }

  ghost predicate WinRefers(n: NWin, w: WinNode, parts: seq<NPart>) {
    && Some(n.length) == w.length
    && match SlicesOf(w)
       case None => n.slices.None?
       case Some(ss) => n.slices.Some? && |n.slices.value| == |ss| && AllRefer(n.slices.value, ss, n.length, parts)
  }

  lemma WindowMeans(w: WinNode, d: Defs)
    requires NormWindow(w, d).Ok?
    ensures var (n, d') := NormWindow(w, d).value;
            d.parts <= d'.parts && WinRefers(n, w, d'.parts)
  {
    hide SliceRefers, NormSlicesFrom, SlicesOf;
    if SlicesOf(w).Some? {
      SlicesMean(SlicesOf(w).value, 0, w.length.value, [], d);
    }
  }

  lemma {:induction false} WindowsMean(ws: seq<WinNode>, k: nat, acc: seq<NWin>, d: Defs)
    requires k == |acc| <= |ws| && NormWindowsFrom(ws, k, acc, d).Ok?
    requires forall j :: 0 <= j < |acc| ==> WinRefers(acc[j], ws[j], d.parts)
    ensures var (ns, d') := NormWindowsFrom(ws, k, acc, d).value;
            && d.parts <= d'.parts && |ns| == |ws|
            && forall j :: 0 <= j < |ns| ==> WinRefers(ns[j], ws[j], d'.parts)
    decreases |ws| - k
  {
    hide NormWindow, WinRefers;
    if k < |ws| {
      WindowMeans(ws[k], d);
      var (n, d') := NormWindow(ws[k], d).value;
      forall j | 0 <= j < |acc|
        ensures WinRefers(acc[j], ws[j], d'.parts)
      {
        WinRefersLater(acc[j], ws[j], d.parts, d'.parts);
      }
      WindowsMean(ws, k + 1, acc + [n], d');
    }
  }

  lemma WinRefersLater(n: NWin, w: WinNode, parts: seq<NPart>, more: seq<NPart>)
    requires WinRefers(n, w, parts) && parts <= more
    ensures WinRefers(n, w, more)
  {
    hide SlicesOf, AllRefer;
    if SlicesOf(w).Some? {
      AllReferLater(n.slices.value, SlicesOf(w).value, n.length, parts, more);
    }
  }

  /**
   * Meaning: every slice of every window keeps its CPUs and frequency, and for either role it has
   * the name it was given, or the name of a defined partition with exactly the processes written
   * in its place.
   */
  lemma ConfigMeans(c: ConfigNode, fromFile: bool, regular: bool)
    requires Normalize(c, fromFile, regular).Ok?
    ensures var n := Normalize(c, fromFile, regular).value;
            |n.windows| == |c.windows| && forall k :: 0 <= k < |n.windows| ==> WinRefers(n.windows[k], c.windows[k], n.partitions)
  {
    hide CpuText, NormPartsFrom, NormWindowsFrom, WinRefers;
    WindowsMean(c.windows, 0, [], NormPartsFrom(c.partitions, 0, Defs([], 0)).value);
  }

  // ----- Names -----

  /** What is defined in place of an entry: nothing, or a partition with or without a name of its own. */
  function EntryDecl(e: Entry): seq<Option<string>> {
    if PartOf(e).Name? then [] else [OwnName(PartOf(e))]
  }

  function EntryDecls(es: seq<Entry>, k: nat): seq<Option<string>>
    requires k <= |es|
    decreases |es| - k
  {
    if k == |es| then [] else EntryDecl(es[k]) + EntryDecls(es, k + 1)
  }

  function SliceDecls(ss: seq<SliceNode>, k: nat): seq<Option<string>>
    requires k <= |ss|
    decreases |ss| - k
  {
    if k == |ss| then [] else EntryDecls(ss[k].entries, 0) + SliceDecls(ss, k + 1)
  }

  function WinDecls(ws: seq<WinNode>, k: nat): seq<Option<string>>
    requires k <= |ws|
    decreases |ws| - k
  {
    if k == |ws| then []
    else (match SlicesOf(ws[k]) case None => [] case Some(ss) => SliceDecls(ss, 0)) + WinDecls(ws, k + 1)
  }

  function PartDecls(ps: seq<PartNode>, k: nat): seq<Option<string>>
    requires k <= |ps|
    decreases |ps| - k
  {
    if k == |ps| then [] else [OwnName(ps[k])] + PartDecls(ps, k + 1)
  }

  /** All partitions which the configuration defines, in order, by their own names if they have one. */
  function Declared(c: ConfigNode): seq<Option<string>> {
    PartDecls(c.partitions, 0) + WinDecls(c.windows, 0)
  }

  /** How many of the first `k` have no name of their own. */
  function Nameless(decl: seq<Option<string>>, k: nat): nat
    requires k <= |decl|
  {
    if k == 0 then 0 else Nameless(decl, k - 1) + if decl[k - 1].None? then 1 else 0
  }

  function Label(decl: seq<Option<string>>, k: nat): string
    requires k < |decl|
  {
    if decl[k].Some? then decl[k].value else Anonymous(Nameless(decl, k))
  }

  ghost predicate Labelled(d: Defs, decl: seq<Option<string>>) {
    && |d.parts| == |decl|
    && d.counter == Nameless(decl, |decl|)
    && forall k :: 0 <= k < |decl| ==> d.parts[k].name == Label(decl, k)
  }

  lemma {:induction false} NamelessPrefix(decl: seq<Option<string>>, more: seq<Option<string>>, k: nat)
    requires k <= |decl|
    ensures Nameless(decl + more, k) == Nameless(decl, k)
  {
    if k > 0 {
      NamelessPrefix(decl, more, k - 1);
    }
  }

  lemma PartIsLabelled(part: PartNode, total: Option<real>, d: Defs, decl: seq<Option<string>>)
    requires Labelled(d, decl) && NormPart(part, total, d).Ok?
    ensures Labelled(NormPart(part, total, d).value.1, decl + [OwnName(part)])
  {
    hide PartProcs, Anonymous;
    var n := [OwnName(part)];
    forall k | 0 <= k <= |decl|
      ensures Nameless(decl + n, k) == Nameless(decl, k)
    {
      NamelessPrefix(decl, n, k);
    }
  }

  lemma PlaceIsLabelled(e: Entry, length: int, d: Defs, decl: seq<Option<string>>)
    requires Place(e, length, d).Ok? && Labelled(d, decl)
    ensures Labelled(Place(e, length, d).value.1, decl + EntryDecl(e))
  {
    hide Labelled, NormPart;
    if PartOf(e).Name? {
      assert decl + [] == decl;
    } else {
      PartIsLabelled(PartOf(e), TotalOf(e, length), d, decl);
    }
  }

  lemma {:induction false} EntriesAreLabelled(es: seq<Entry>, k: nat, length: int, s: NSlice, d: Defs, decl: seq<Option<string>>)
    requires k <= |es| && NormEntriesFrom(es, k, length, s, d).Ok? && Labelled(d, decl)
    ensures Labelled(NormEntriesFrom(es, k, length, s, d).value.1, decl + EntryDecls(es, k))
    decreases |es| - k
  {
    hide Labelled, Place, EntryDecl, WithEntry;
    if k == |es| {
      assert decl + [] == decl;
    } else {
      var (name, d') := Place(es[k], length, d).value;
      PlaceIsLabelled(es[k], length, d, decl);
      assert decl + EntryDecls(es, k) == (decl + EntryDecl(es[k])) + EntryDecls(es, k + 1);
      EntriesAreLabelled(es, k + 1, length, WithEntry(s, es[k], name), d', decl + EntryDecl(es[k]));
    }
  }

  lemma {:induction false} SlicesAreLabelled(ss: seq<SliceNode>, k: nat, length: int, acc: seq<NSlice>, d: Defs, decl: seq<Option<string>>)
    requires k <= |ss| && NormSlicesFrom(ss, k, length, acc, d).Ok? && Labelled(d, decl)
    ensures Labelled(NormSlicesFrom(ss, k, length, acc, d).value.1, decl + SliceDecls(ss, k))
    decreases |ss| - k
  {
    hide Labelled, NormEntriesFrom, CpuText, EntryDecls;
    if k == |ss| {
      assert decl + [] == decl;
    } else {
      var (n, d') := NormSlice(ss[k], length, d).value;
      var here := EntryDecls(ss[k].entries, 0);
      EntriesAreLabelled(ss[k].entries, 0, length, NSlice("", ss[k].frequency, None, None), d, decl);
      assert decl + SliceDecls(ss, k) == (decl + here) + SliceDecls(ss, k + 1);
      SlicesAreLabelled(ss, k + 1, length, acc + [n], d', decl + here);
    }
  }

  lemma {:induction false} WindowsAreLabelled(ws: seq<WinNode>, k: nat, acc: seq<NWin>, d: Defs, decl: seq<Option<string>>)
    requires k <= |ws| && NormWindowsFrom(ws, k, acc, d).Ok? && Labelled(d, decl)
    ensures Labelled(NormWindowsFrom(ws, k, acc, d).value.1, decl + WinDecls(ws, k))
    decreases |ws| - k
  {
    hide Labelled, NormSlicesFrom, SlicesOf, SliceDecls;
    if k == |ws| {
      assert decl + [] == decl;
    } else {
      var (n, d') := NormWindow(ws[k], d).value;
      var here := match SlicesOf(ws[k]) case None => [] case Some(ss) => SliceDecls(ss, 0);
      if SlicesOf(ws[k]).Some? {
        SlicesAreLabelled(SlicesOf(ws[k]).value, 0, ws[k].length.value, [], d, decl);
      } else {
        assert decl + here == decl;
      }
      assert decl + WinDecls(ws, k) == (decl + here) + WinDecls(ws, k + 1);
      WindowsAreLabelled(ws, k + 1, acc + [n], d', decl + here);
    }
  }

  lemma {:induction false} PartsAreLabelled(ps: seq<PartNode>, k: nat, d: Defs, decl: seq<Option<string>>)
    requires k <= |ps| && NormPartsFrom(ps, k, d).Ok? && Labelled(d, decl)
    ensures Labelled(NormPartsFrom(ps, k, d).value, decl + PartDecls(ps, k))
    decreases |ps| - k
  {
    hide Labelled, NormPart;
    if k == |ps| {
      assert decl + [] == decl;
    } else {
      PartIsLabelled(ps[k], None, d, decl);
      assert decl + PartDecls(ps, k) == (decl + [OwnName(ps[k])]) + PartDecls(ps, k + 1);
      PartsAreLabelled(ps, k + 1, NormPart(ps[k], None, d).value.1, decl + [OwnName(ps[k])]);
    }
  }

  ghost predicate DistinctNames(parts: seq<NPart>) {
    forall i, j :: 0 <= i < j < |parts| ==> parts[i].name != parts[j].name
  }

  /** Own names are different from each other and from those which nameless partitions get. */
  ghost predicate NamesFree(decl: seq<Option<string>>) {
    && (forall i, j :: 0 <= i < j < |decl| && decl[i].Some? && decl[j].Some? ==> decl[i] != decl[j])
    && (forall i, j :: 0 <= i < |decl| && 0 <= j < |decl| && decl[i].Some? && decl[j].None? ==>
          decl[i].value != Label(decl, j))
  }

  lemma AnonymousDiffer(j: nat, k: nat)
    requires j != k
    ensures Anonymous(j) != Anonymous(k)
  {
    var p := "anonymous_";
    assert Anonymous(j)[|p|..] == Decimal(j) && Anonymous(k)[|p|..] == Decimal(k);
    assert Value(Decimal(j)) == j && Value(Decimal(k)) == k;
  }

  lemma {:induction false} NamelessGrows(decl: seq<Option<string>>, i: nat, j: nat)
    requires i < j <= |decl|
    ensures Nameless(decl, i) <= Nameless(decl, j)
    ensures decl[i].None? ==> Nameless(decl, i) < Nameless(decl, j)
    decreases j
  {
    if i < j - 1 {
      NamelessGrows(decl, i, j - 1);
    }
  }

  lemma LabelsDiffer(decl: seq<Option<string>>, i: nat, j: nat)
    requires i < j < |decl| && NamesFree(decl)
    ensures Label(decl, i) != Label(decl, j)
  {
    hide Anonymous;
    if decl[i].None? && decl[j].None? {
      NamelessGrows(decl, i, j);
      AnonymousDiffer(Nameless(decl, i), Nameless(decl, j));
    }
  }

  lemma Labels(c: ConfigNode, fromFile: bool, regular: bool)
    requires Normalize(c, fromFile, regular).Ok?
    ensures var parts := Normalize(c, fromFile, regular).value.partitions;
            |parts| == |Declared(c)| && forall k :: 0 <= k < |parts| ==> parts[k].name == Label(Declared(c), k)
  {
    hide CpuText, NormPartsFrom, NormWindowsFrom, Label, PartDecls, WinDecls;
    var d := NormPartsFrom(c.partitions, 0, Defs([], 0)).value;
    PartsAreLabelled(c.partitions, 0, Defs([], 0), []);
    assert [] + PartDecls(c.partitions, 0) == PartDecls(c.partitions, 0);
    WindowsAreLabelled(c.windows, 0, [], d, PartDecls(c.partitions, 0));
  }

  /**
   * The partitions of the normal form have different names iff the names written in the
   * configuration differ from each other and from the `anonymous_k` which are handed out.
   */
  lemma NamesDifferIff(c: ConfigNode, fromFile: bool, regular: bool)
    requires Normalize(c, fromFile, regular).Ok?
    ensures DistinctNames(Normalize(c, fromFile, regular).value.partitions) <==> NamesFree(Declared(c))
  {
    Labels(c, fromFile, regular);
    hide Normalize, Declared, Anonymous;
    var decl := Declared(c);
    var parts := Normalize(c, fromFile, regular).value.partitions;
    if NamesFree(decl) {
      forall i, j | 0 <= i < j < |parts|
        ensures parts[i].name != parts[j].name
      {
        LabelsDiffer(decl, i, j);
      }
    }
    if DistinctNames(parts) {
      forall i, j | 0 <= i < |decl| && 0 <= j < |decl| && decl[i].Some? && decl[j].None?
        ensures decl[i].value != Label(decl, j)
      {
        assert parts[i].name == Label(decl, i) && parts[j].name == Label(decl, j);
      }
      forall i, j | 0 <= i < j < |decl| && decl[i].Some? && decl[j].Some?
        ensures decl[i] != decl[j]
      {
        assert parts[i].name == Label(decl, i) && parts[j].name == Label(decl, j);
      }
    }
  }

  // ----- What comes after normalization -----

  function Names(parts: seq<NPart>): (r: seq<string>)
    ensures |r| == |parts| && forall k :: 0 <= k < |parts| ==> r[k] == parts[k].name
  {
    seq(|parts|, k requires 0 <= k < |parts| => parts[k].name)
  }

  /** With different names the lookup by name finds the very partition which was written in place. */
  lemma LookupFindsIt(parts: seq<NPart>, name: string, procs: Result<seq<NProc>>, r: Option<nat>)
    requires DistinctNames(parts) && Defined(parts, name, procs)
    requires Assignment.IsFirst(r, name, Names(parts))
    ensures r.Some? && Ok(parts[r.value].procs) == procs
  {
    var k :| 0 <= k < |parts| && parts[k].name == name && Ok(parts[k].procs) == procs;
    assert Names(parts)[k] == name;
    assert parts[r.value].name == name;
  }

  /** What the lookup of a role finds is what was written in its place. */
  ghost predicate Finds(name: Option<string>, e: Option<Entry>, length: int, parts: seq<NPart>) {
    e.Some? && !PartOf(e.value).Name? ==>
      && name.Some?
      && forall r: Option<nat> :: Assignment.IsFirst(r, name.value, Names(parts)) ==>
           r.Some? && Ok(parts[r.value].procs) == PartProcs(PartOf(e.value), TotalOf(e.value, length))
  }

  ghost predicate WinFinds(n: NWin, w: WinNode, parts: seq<NPart>) {
    n.slices.Some? ==>
      && SlicesOf(w).Some? && |n.slices.value| == |SlicesOf(w).value|
      && forall i :: 0 <= i < |n.slices.value| ==> SliceFinds(n.slices.value[i], SlicesOf(w).value[i], n.length, parts)
  }

  ghost predicate SliceFinds(n: NSlice, s: SliceNode, length: int, parts: seq<NPart>) {
    Finds(n.sc, LastEntry(s.entries, true), length, parts) && Finds(n.be, LastEntry(s.entries, false), length, parts)
  }

  lemma RefersFinds(name: Option<string>, e: Option<Entry>, length: int, parts: seq<NPart>)
    requires Refers(name, e, length, parts) && DistinctNames(parts)
    ensures Finds(name, e, length, parts)
  {
    hide PartProcs;
    if e.Some? && !PartOf(e.value).Name? {
      forall r: Option<nat> | Assignment.IsFirst(r, name.value, Names(parts))
        ensures r.Some? && Ok(parts[r.value].procs) == PartProcs(PartOf(e.value), TotalOf(e.value, length))
      {
        LookupFindsIt(parts, name.value, PartProcs(PartOf(e.value), TotalOf(e.value, length)), r);
      }
    }
  }

  /** If the names are free, every slice gets the processes which were written in it. */
  lemma ConfigFinds(c: ConfigNode, fromFile: bool, regular: bool)
    requires Normalize(c, fromFile, regular).Ok? && NamesFree(Declared(c))
    ensures var n := Normalize(c, fromFile, regular).value;
            |n.windows| == |c.windows| && forall k :: 0 <= k < |n.windows| ==> WinFinds(n.windows[k], c.windows[k], n.partitions)
  {
    ConfigMeans(c, fromFile, regular);
    NamesDifferIff(c, fromFile, regular);
    hide Normalize, Refers, Finds, SlicesOf, DistinctNames, NamesFree;
    var n := Normalize(c, fromFile, regular).value;
    forall k | 0 <= k < |n.windows|
      ensures WinFinds(n.windows[k], c.windows[k], n.partitions)
    {
      var w := n.windows[k];
      assert WinRefers(w, c.windows[k], n.partitions);
      if w.slices.Some? {
        var ss := SlicesOf(c.windows[k]).value;
        forall i | 0 <= i < |ss|
          ensures SliceFinds(w.slices.value[i], ss[i], w.length, n.partitions)
        {
          assert SliceRefers(w.slices.value[i], ss[i], w.length, n.partitions);
          RefersFinds(w.slices.value[i].sc, LastEntry(ss[i].entries, true), w.length, n.partitions);
          RefersFinds(w.slices.value[i].be, LastEntry(ss[i].entries, false), w.length, n.partitions);
        }
      }
    }
  }

  /** A window as validation sees it. */
  function Checked(w: NWin): (r: seq<Assignment.SliceConfig>)
    ensures w.slices.Some? ==> |r| == |w.slices.value| && forall i :: 0 <= i < |r| ==> r[i].cpu == w.slices.value[i].cpu
  {
    if w.slices.None? then []
    else
      var ss := w.slices.value;
      seq(|ss|, i requires 0 <= i < |ss| => Assignment.SliceConfig(ss[i].cpu, ss[i].sc, ss[i].be))
  }

  /** Validation reads no list which normalization could not read. */
  lemma ResultIsReadable(c: ConfigNode, fromFile: bool, regular: bool)
    requires Normalize(c, fromFile, regular).Ok?
    ensures var n := Normalize(c, fromFile, regular).value;
            forall k :: 0 <= k < |n.windows| ==> Assignment.AllReadable(Checked(n.windows[k]))
  {
    ResultIsNormal(c, fromFile, regular);
    hide Normalize, PartsNormal;
    var n := Normalize(c, fromFile, regular).value;
    forall k | 0 <= k < |n.windows|
      ensures Assignment.AllReadable(Checked(n.windows[k]))
    {
      assert WinNormal(n.windows[k]);
    }
  }

  /** A configuration which is never normalized: the list of all CPUs up to the largest number. */
  lemma EndlessConfig(c: ConfigNode, regular: bool)
    requires c.setCwd == Some(false) && c.demosCpu == Some("0-4294967295")
    ensures Normalize(c, true, regular) == Fail(NoReturn)
  {
    hide CpuText;
    EndlessText();
  }

  lemma EndlessText()
    ensures CpuText("0-4294967295") == Fail(NoReturn)
  {
    hide CpuListParser.AllBounded, CpuListParser.Parse;
    CpuListMeaning.EndlessLists({}, 0);
    var t := CpuListMeaning.ListText([CpuListMeaning.Range("0", "4294967295")]);
    assert t == "0" + "-" + "4294967295" == "0-4294967295";
    CpuListParser.ReturnsIff(t, {}, 0);
    assert |t| != |"all"|;
  }
}
