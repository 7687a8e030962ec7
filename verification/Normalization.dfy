/**
 * Normalization of the configuration: shorthand forms of processes, partitions, slices and windows
 * are written out, and partitions defined in place move to the list of partitions under a name.
 *
 * The configuration is given as an already parsed tree. `other` is a key which is not expected; in a
 * window it matters whether it is met before the slices.
 * Default budgets are computed without rounding errors.
 */
module Normalization {
  import opened Options
  import opened CpuList
  import Assignment
  import CpuListParser

  /** A configuration is refused, or reading one of its CPU lists never ends. */
  datatype Failure = Refused | NoReturn

  datatype Result<+T> = Ok(value: T) | Fail(why: Failure)

  // ----- The tree as it is written -----

  datatype ProcNode =
    | Command(cmd: string)
    | Fields(cmdKey: Option<string>, budget: Option<int>, jitter: Option<int>, init: Option<bool>,
             frequency: Option<real>, other: Option<string>)

  const NO_FIELDS := Fields(None, None, None, None, None, None)

  datatype Procs = List(procs: seq<ProcNode>) | Single(proc: ProcNode)

  /** The keys of a partition which describe a single process; a partition may have `legacy` ones, a process not. */
  datatype Inline = Inline(cmd: Option<string>, budget: Option<int>, jitter: Option<int>, init: Option<bool>, legacy: Option<string>)

  const NO_INLINE := Inline(None, None, None, None, None)

  function InlineProc(i: Inline): ProcNode {
    Fields(i.cmd, i.budget, i.jitter, i.init, None, i.legacy)
  }

  datatype PartNode =
    | Name(name: string)
    | ProcList(procs: seq<ProcNode>)
    | PartMap(nameKey: Option<string>, processes: Option<Procs>, inline: Inline, otherKey: Option<string>)

  /** What a slice says about its partitions, in the order of its keys. */
  datatype Entry =
    | ScPartition(part: PartNode)
    | BePartition(part: PartNode)
    | ScProcesses(procs: Procs)
    | BeProcesses(procs: Procs)

  datatype SliceNode = SliceNode(cpu: Option<string>, frequency: Option<real>, entries: seq<Entry>, other: Option<string>)

  datatype WinNode = WinNode(
    length: Option<int>, slices: Option<seq<SliceNode>>, cpu: Option<string>,
    scPartition: Option<PartNode>, bePartition: Option<PartNode>,
    scProcesses: Option<Procs>, beProcesses: Option<Procs>, before: Option<string>, after: Option<string>)

  datatype ConfigNode = ConfigNode(
    setCwd: Option<bool>, demosCpu: Option<string>, partitions: seq<PartNode>, windows: seq<WinNode>, other: Option<string>)

  // ----- The normal form -----

  datatype NProc = NProc(cmd: Option<string>, budget: int, jitter: int, init: bool, frequency: Option<real>)

  datatype NPart = NPart(name: string, procs: seq<NProc>)

  datatype NSlice = NSlice(cpu: string, frequency: Option<real>, sc: Option<string>, be: Option<string>)

  datatype NWin = NWin(length: int, slices: Option<seq<NSlice>>)

  datatype NConfig = NConfig(setCwd: bool, demosCpu: string, partitions: seq<NPart>, windows: seq<NWin>)

  // ----- Processes -----

  /** A conversion to an integer, which cuts toward zero. */
  function Trunc(r: real): int {
    if r >= 0.0 then r.Floor else -((-r).Floor)
  }

  /** `total` is the default budget of a process, if there is one. */
  function NormProc(p: ProcNode, total: Option<real>): Result<NProc> {
    var f := if p.Command? then NO_FIELDS.(cmdKey := Some(p.cmd)) else p;
    if f.other.Some? || (f.budget.None? && total.None?) then Fail(Refused)
    else
      var b := if f.budget.Some? then f.budget.value else Trunc(total.value);
      var j := if f.jitter.Some? then f.jitter.value else 0;
      if b <= 0 || j < 0 || j > 2 * b then Fail(Refused)
      else Ok(NProc(f.cmdKey, b, j, f.init == Some(true), f.frequency))
  }

  function NormProcsFrom(ps: seq<ProcNode>, k: nat, each: Option<real>, acc: seq<NProc>): Result<seq<NProc>>
    requires k <= |ps|
    decreases |ps| - k
  {
    if k == |ps| then Ok(acc)
    else
      match NormProc(ps[k], each)
      case Fail(why) => Fail(why)
      case Ok(p) => NormProcsFrom(ps, k + 1, each, acc + [p])
  }

  /** The default of one process among `n`. */
  function Share(total: Option<real>, n: nat): Option<real> {
    if total.None? || n == 0 then None else Some(total.value / n as real)
  }

  function NormProcs(ps: Procs, total: Option<real>): Result<seq<NProc>> {
    match ps
    case List(l) => NormProcsFrom(l, 0, Share(total, |l|), [])
    case Single(p) => NormProcsFrom([p], 0, total, [])
  }

  // ----- Partitions -----

  /** The processes of a partition; without any, its own keys describe a single one. */
  function PartProcs(part: PartNode, total: Option<real>): Result<seq<NProc>> {
    match part
    case Name(_) => Fail(Refused)
    case ProcList(l) => OrInline(NormProcs(List(l), total), NO_INLINE, total)
    case PartMap(_, processes, inline, otherKey) =>
      if otherKey.Some? then Fail(Refused)
      else OrInline(if processes.Some? then NormProcs(processes.value, total) else Ok([]), inline, total)
  }

  function OrInline(procs: Result<seq<NProc>>, inline: Inline, total: Option<real>): Result<seq<NProc>> {
    if procs == Ok([]) then
      match NormProc(InlineProc(inline), total)
      case Fail(why) => Fail(why)
      case Ok(p) => Ok([p])
    else procs
  }

  function Anonymous(k: nat): string {
    "anonymous_" + Decimal(k)
  }

  /** The name a definition gives itself. */
  function OwnName(part: PartNode): Option<string> {
    if part.PartMap? then part.nameKey else None
  }

  /** The partitions defined so far, and how many of them are anonymous. */
  datatype Defs = Defs(parts: seq<NPart>, counter: nat)

  function NormPart(part: PartNode, total: Option<real>, d: Defs): Result<(string, Defs)> {
    match PartProcs(part, total)
    case Fail(why) => Fail(why)
    case Ok(procs) =>
      match OwnName(part)
      case Some(n) => Ok((n, d.(parts := d.parts + [NPart(n, procs)])))
      case None =>
        var n := Anonymous(d.counter);
        Ok((n, Defs(d.parts + [NPart(n, procs)], d.counter + 1)))
  }

  // ----- Slices -----

  predicate IsSc(e: Entry) {
    e.ScPartition? || e.ScProcesses?
  }

  function PartOf(e: Entry): PartNode {
    if e.ScPartition? || e.BePartition? then e.part else PartMap(None, Some(e.procs), NO_INLINE, None)
  }

  /** Safety-critical partitions leave part of the window to best effort by default. */
  function TotalOf(e: Entry, length: int): Option<real> {
    Some(if IsSc(e) then length as real * 0.6 else length as real)
  }

  function Place(e: Entry, length: int, d: Defs): Result<(string, Defs)> {
    if PartOf(e).Name? then Ok((PartOf(e).name, d)) else NormPart(PartOf(e), TotalOf(e, length), d)
  }

  function WithEntry(s: NSlice, e: Entry, name: string): NSlice {
    if IsSc(e) then s.(sc := Some(name)) else s.(be := Some(name))
  }

  function NormEntriesFrom(es: seq<Entry>, k: nat, length: int, s: NSlice, d: Defs): Result<(NSlice, Defs)>
    requires k <= |es|
    decreases |es| - k
  {
    if k == |es| then Ok((s, d))
    else
      match Place(es[k], length, d)
      case Fail(why) => Fail(why)
      case Ok((name, d')) => NormEntriesFrom(es, k + 1, length, WithEntry(s, es[k], name), d')
  }

  /** What comes of reading a CPU list; the size of the sets does not matter to that. */
  ghost function CpuText(text: string): Result<()> {
    if !Assignment.Readable(text) then Fail(NoReturn)
    else if Assignment.ParseCpus(text, {}, 0).None? then Fail(Refused)
    else Ok(())
  }

  /** The text is a CPU list which is read, or stands for all CPUs. */
  ghost predicate CpuTextOk(text: string) {
    CpuText(text).Ok?
  }

  lemma SizeDoesNotMatter(text: string, n: nat)
    requires Assignment.Readable(text)
    ensures Assignment.ParseCpus(text, {}, n).None? <==> CpuText(text) == Fail(Refused)
  {
    CpuListParser.ReturnsIff(text, {}, n);
    CpuListParser.SizeDoesNotMatter(text, {}, {}, n, 0);
  }

  /** The keys of a slice come first, then its CPU list is read. */
  ghost function NormSlice(s: SliceNode, length: int, d: Defs): Result<(NSlice, Defs)> {
    if s.other.Some? then Fail(Refused)
    else
      match NormEntriesFrom(s.entries, 0, length, NSlice("", s.frequency, None, None), d)
      case Fail(why) => Fail(why)
      case Ok((n, d')) =>
        if s.cpu.None? then Fail(Refused)
        else
          match CpuText(s.cpu.value)
          case Fail(why) => Fail(why)
          case Ok(_) => Ok((n.(cpu := s.cpu.value), d'))
  }

  ghost function NormSlicesFrom(ss: seq<SliceNode>, k: nat, length: int, acc: seq<NSlice>, d: Defs): Result<(seq<NSlice>, Defs)>
    requires k <= |ss|
    decreases |ss| - k
  {
    if k == |ss| then Ok((acc, d))
    else
      match NormSlice(ss[k], length, d)
      case Fail(why) => Fail(why)
      case Ok((s, d')) => NormSlicesFrom(ss, k + 1, length, acc + [s], d')
  }

  // ----- Windows -----

  predicate HasInline(w: WinNode) {
    w.cpu.Some? || w.scPartition.Some? || w.bePartition.Some? || w.scProcesses.Some? || w.beProcesses.Some?
  }

  predicate WinFormOk(w: WinNode) {
    && w.length.Some? && w.before.None?
    && (w.slices.None? ==> w.after.None?)
    && (w.slices.Some? ==> !HasInline(w))
    && !(w.scPartition.Some? && w.scProcesses.Some?)
    && !(w.bePartition.Some? && w.beProcesses.Some?)
  }

  /** The slice which a window describes by its own keys. */
  function InlineSlice(w: WinNode): SliceNode {
    SliceNode(
      Some(if w.cpu.Some? then w.cpu.value else "all"), None,
      (if w.scPartition.Some? then [ScPartition(w.scPartition.value)] else [])
      + (if w.bePartition.Some? then [BePartition(w.bePartition.value)] else [])
      + (if w.scProcesses.Some? then [ScProcesses(w.scProcesses.value)] else [])
      + (if w.beProcesses.Some? then [BeProcesses(w.beProcesses.value)] else []),
      None)
  }

  /** The slices of a window; none at all if it only has a length. */
  function SlicesOf(w: WinNode): Option<seq<SliceNode>> {
    if w.slices.Some? then w.slices
    else if HasInline(w) then Some([InlineSlice(w)])
    else None
  }

  ghost function NormWindow(w: WinNode, d: Defs): Result<(NWin, Defs)> {
    if !WinFormOk(w) then Fail(Refused)
    else
      match SlicesOf(w)
      case None => Ok((NWin(w.length.value, None), d))
      case Some(ss) =>
        match NormSlicesFrom(ss, 0, w.length.value, [], d)
        case Fail(why) => Fail(why)
        case Ok((ns, d')) => if w.after.Some? then Fail(Refused) else Ok((NWin(w.length.value, Some(ns)), d'))
  }

  ghost function NormWindowsFrom(ws: seq<WinNode>, k: nat, acc: seq<NWin>, d: Defs): Result<(seq<NWin>, Defs)>
    requires k <= |ws|
    decreases |ws| - k
  {
    if k == |ws| then Ok((acc, d))
    else
      match NormWindow(ws[k], d)
      case Fail(why) => Fail(why)
      case Ok((w, d')) => NormWindowsFrom(ws, k + 1, acc + [w], d')
  }

  /** The listed partitions must give every budget. */
  function NormPartsFrom(ps: seq<PartNode>, k: nat, d: Defs): Result<Defs>
    requires k <= |ps|
    decreases |ps| - k
  {
    if k == |ps| then Ok(d)
    else
      match NormPart(ps[k], None, d)
      case Fail(why) => Fail(why)
      case Ok((_, d')) => NormPartsFrom(ps, k + 1, d')
  }

  /** `fromFile`: the configuration was read from a file, `regular` from a regular one. */
  ghost function Normalize(c: ConfigNode, fromFile: bool, regular: bool): Result<NConfig> {
    var cwd := if c.setCwd.Some? then c.setCwd.value else fromFile;
    var cpu := if c.demosCpu.Some? then c.demosCpu.value else "all";
    if (c.setCwd.Some? && !fromFile) || (cwd && fromFile && !regular) then Fail(Refused)
    else if CpuText(cpu).Fail? then Fail(CpuText(cpu).why)
    else
      match NormPartsFrom(c.partitions, 0, Defs([], 0))
      case Fail(why) => Fail(why)
      case Ok(d) =>
        match NormWindowsFrom(c.windows, 0, [], d)
        case Fail(why) => Fail(why)
        case Ok((ws, d')) => if c.other.Some? then Fail(Refused) else Ok(NConfig(cwd, cpu, d'.parts, ws))
  }

  // ----- Which lists are read, and when that ends -----

  function Why<T>(r: Result<T>): Option<Failure> {
    match r case Ok(_) => None case Fail(w) => Some(w)
  }

  /** The CPU lists which are read, in order, and whether nothing but them can be refused. */
  datatype Reading = Reading(lists: seq<string>, through: bool)

  predicate EntryFormOk(e: Entry, length: int) {
    PartOf(e).Name? || PartProcs(PartOf(e), TotalOf(e, length)).Ok?
  }

  predicate SliceFormOk(s: SliceNode, length: int) {
    s.other.None? && s.cpu.Some? && forall k :: 0 <= k < |s.entries| ==> EntryFormOk(s.entries[k], length)
  }

  function SlicesRead(ss: seq<SliceNode>, k: nat, length: int): Reading
    requires k <= |ss|
    decreases |ss| - k
  {
    if k == |ss| then Reading([], true)
    else if !SliceFormOk(ss[k], length) then Reading([], false)
    else
      var r := SlicesRead(ss, k + 1, length);
      Reading([ss[k].cpu.value] + r.lists, r.through)
  }

  function WindowReads(w: WinNode): Reading {
    if !WinFormOk(w) then Reading([], false)
    else
      match SlicesOf(w)
      case None => Reading([], true)
      case Some(ss) =>
        var r := SlicesRead(ss, 0, w.length.value);
        Reading(r.lists, r.through && w.after.None?)
  }

  function WindowsRead(ws: seq<WinNode>, k: nat): Reading
    requires k <= |ws|
    decreases |ws| - k
  {
    if k == |ws| then Reading([], true)
    else
      var r := WindowReads(ws[k]);
      if !r.through then r
      else
        var m := WindowsRead(ws, k + 1);
        Reading(r.lists + m.lists, m.through)
  }

  function CpuOf(c: ConfigNode): string {
    if c.demosCpu.Some? then c.demosCpu.value else "all"
  }

  predicate CwdOk(c: ConfigNode, fromFile: bool, regular: bool) {
    var cwd := if c.setCwd.Some? then c.setCwd.value else fromFile;
    !(c.setCwd.Some? && !fromFile) && !(cwd && fromFile && !regular)
  }

  function ConfigReads(c: ConfigNode, fromFile: bool, regular: bool): Reading {
    if !CwdOk(c, fromFile, regular) then Reading([], false)
    else if exists k :: 0 <= k < |c.partitions| && PartProcs(c.partitions[k], None).Fail? then Reading([CpuOf(c)], false)
    else
      var r := WindowsRead(c.windows, 0);
      Reading([CpuOf(c)] + r.lists, r.through && c.other.None?)
  }

  /** What stops the reading of some lists. */
  ghost function Verdict(lists: seq<string>): Option<Failure> {
    if |lists| == 0 then None
    else if CpuText(lists[0]).Fail? then Some(CpuText(lists[0]).why)
    else Verdict(lists[1..])
  }

  /** Every list before which all others are accepted can be read to its end. */
  ghost predicate Settles(lists: seq<string>) {
    forall k :: 0 <= k < |lists| && (forall i :: 0 <= i < k ==> CpuTextOk(lists[i])) ==> Assignment.Readable(lists[k])
  }

  lemma {:induction false} SettlesIff(lists: seq<string>)
    ensures Settles(lists) <==> Verdict(lists) != Some(NoReturn)
  {
    hide Assignment.Readable, Assignment.ParseCpus;
    if |lists| > 0 {
      var rest := lists[1..];
      SettlesIff(rest);
      assert forall i :: 0 <= i < |rest| ==> rest[i] == lists[i + 1];
      if Settles(lists) && CpuTextOk(lists[0]) {
        forall k | 0 <= k < |rest| && forall i :: 0 <= i < k ==> CpuTextOk(rest[i])
          ensures Assignment.Readable(rest[k])
        {
          forall i | 0 <= i < k + 1
            ensures CpuTextOk(lists[i])
          {
            assert i > 0 ==> rest[i - 1] == lists[i];
          }
          assert Assignment.Readable(lists[k + 1]);
        }
      }
      if CpuTextOk(lists[0]) && Settles(rest) {
        forall k | 0 <= k < |lists| && forall i :: 0 <= i < k ==> CpuTextOk(lists[i])
          ensures Assignment.Readable(lists[k])
        {
          if k > 0 {
            forall i | 0 <= i < k - 1
              ensures CpuTextOk(rest[i])
            {
              assert rest[i] == lists[i + 1];
            }
            assert Assignment.Readable(rest[k - 1]);
          }
        }
      }
    }
  }

  lemma {:induction false} VerdictOfBoth(a: seq<string>, b: seq<string>)
    ensures Verdict(a + b) == if Verdict(a).Some? then Verdict(a) else Verdict(b)
  {
    hide CpuText;
    if |a| == 0 {
      assert a + b == b;
    } else {
      assert (a + b)[1..] == a[1..] + b;
      VerdictOfBoth(a[1..], b);
    }
  }

  /** What comes of it. */
  ghost function Came(r: Reading): Option<Failure> {
    if Verdict(r.lists).Some? then Verdict(r.lists) else if r.through then None else Some(Refused)
  }

  lemma {:induction false} ProcsFail(ps: seq<ProcNode>, k: nat, each: Option<real>, acc: seq<NProc>)
    requires k <= |ps|
    ensures var r := NormProcsFrom(ps, k, each, acc); r.Fail? ==> r.why == Refused
    decreases |ps| - k
  {
    if k < |ps| && NormProc(ps[k], each).Ok? {
      ProcsFail(ps, k + 1, each, acc + [NormProc(ps[k], each).value]);
    }
  }

  lemma PartFails(part: PartNode, total: Option<real>)
    ensures var r := PartProcs(part, total); r.Fail? ==> r.why == Refused
  {
    hide NormProcsFrom;
    match part
    case Name(_) =>
    case ProcList(l) => ProcsFail(l, 0, Share(total, |l|), []);
    case PartMap(_, processes, _, _) =>
      if processes.Some? {
        match processes.value
        case List(l) => ProcsFail(l, 0, Share(total, |l|), []);
        case Single(p) => ProcsFail([p], 0, total, []);
      }
  }

  lemma {:induction false} EntriesCame(es: seq<Entry>, k: nat, length: int, s: NSlice, d: Defs)
    requires k <= |es|
    ensures Why(NormEntriesFrom(es, k, length, s, d)) ==
            if forall j :: k <= j < |es| ==> EntryFormOk(es[j], length) then None else Some(Refused)
    decreases |es| - k
  {
    hide PartProcs, TotalOf, PartOf;
    if k < |es| {
      PartFails(PartOf(es[k]), TotalOf(es[k], length));
      if Place(es[k], length, d).Ok? {
        var (name, d') := Place(es[k], length, d).value;
        EntriesCame(es, k + 1, length, WithEntry(s, es[k], name), d');
      } else {
        assert !EntryFormOk(es[k], length);
      }
    }
  }

  lemma SliceCame(s: SliceNode, length: int, d: Defs)
    ensures Why(NormSlice(s, length, d)) == if !SliceFormOk(s, length) then Some(Refused) else Why(CpuText(s.cpu.value))
  {
    hide EntryFormOk, NormEntriesFrom, CpuText;
    EntriesCame(s.entries, 0, length, NSlice("", s.frequency, None, None), d);
  }

  lemma {:induction false} SlicesCame(ss: seq<SliceNode>, k: nat, length: int, acc: seq<NSlice>, d: Defs)
    requires k <= |ss|
    ensures Why(NormSlicesFrom(ss, k, length, acc, d)) == Came(SlicesRead(ss, k, length))
    decreases |ss| - k
  {
    hide SliceFormOk, NormSlice, CpuText;
    if k < |ss| {
      SliceCame(ss[k], length, d);
      if NormSlice(ss[k], length, d).Ok? {
        var (s, d') := NormSlice(ss[k], length, d).value;
        SlicesCame(ss, k + 1, length, acc + [s], d');
      }
      SliceHasCpu(ss[k], length);
      if SliceFormOk(ss[k], length) {
        var rest := SlicesRead(ss, k + 1, length).lists;
        assert ([ss[k].cpu.value] + rest)[1..] == rest;
      }
    }
  }

  lemma WindowCame(w: WinNode, d: Defs)
    ensures Why(NormWindow(w, d)) == Came(WindowReads(w))
  {
    hide NormSlicesFrom, SlicesRead, Verdict, WinFormOk, SlicesOf;
    WindowLength(w);
    if WinFormOk(w) && SlicesOf(w).Some? {
      SlicesCame(SlicesOf(w).value, 0, w.length.value, [], d);
    } else {
      assert Verdict([]) == None by { NoLists(); }
    }
  }

  lemma WindowLength(w: WinNode)
    ensures WinFormOk(w) ==> w.length.Some?
  {
  }

  lemma NoLists()
    ensures Verdict([]) == None
  {
  }

  lemma {:induction false} WindowsCame(ws: seq<WinNode>, k: nat, acc: seq<NWin>, d: Defs)
    requires k <= |ws|
    ensures Why(NormWindowsFrom(ws, k, acc, d)) == Came(WindowsRead(ws, k))
    decreases |ws| - k
  {
    hide NormWindow, WindowReads, Verdict;
    NoLists();
    if k < |ws| {
      WindowCame(ws[k], d);
      if NormWindow(ws[k], d).Ok? {
        var (w, d') := NormWindow(ws[k], d).value;
        WindowsCame(ws, k + 1, acc + [w], d');
      }
      VerdictOfBoth(WindowReads(ws[k]).lists, WindowsRead(ws, k + 1).lists);
    }
  }

  lemma {:induction false} PartsCame(ps: seq<PartNode>, k: nat, d: Defs)
    requires k <= |ps|
    ensures Why(NormPartsFrom(ps, k, d)) ==
            if exists j :: k <= j < |ps| && PartProcs(ps[j], None).Fail? then Some(Refused) else None
    decreases |ps| - k
  {
    hide PartProcs;
    if k < |ps| {
      PartFails(ps[k], None);
      if NormPart(ps[k], None, d).Ok? {
        var (_, d') := NormPart(ps[k], None, d).value;
        PartsCame(ps, k + 1, d');
      } else {
        assert PartProcs(ps[k], None).Fail?;
      }
    }
  }

  lemma VerdictFirst(cpu: string, rest: seq<string>)
    ensures Verdict([cpu] + rest) == if CpuText(cpu).Fail? then Some(CpuText(cpu).why) else Verdict(rest)
  {
    hide CpuText;
    assert ([cpu] + rest)[1..] == rest;
  }

  /** Normalization is stopped by the first list which is not accepted, or refuses after the last one. */
  lemma ConfigCame(c: ConfigNode, fromFile: bool, regular: bool)
    ensures Why(Normalize(c, fromFile, regular)) == Came(ConfigReads(c, fromFile, regular))
  {
    hide CpuText, NormPartsFrom, NormWindowsFrom, WindowsRead, PartProcs, Verdict;
    PartsCame(c.partitions, 0, Defs([], 0));
    NoLists();
    VerdictFirst(CpuOf(c), []);
    VerdictFirst(CpuOf(c), WindowsRead(c.windows, 0).lists);
    assert [CpuOf(c)] + [] == [CpuOf(c)];
    var p := NormPartsFrom(c.partitions, 0, Defs([], 0));
    if p.Ok? {
      WindowsCame(c.windows, 0, [], p.value);
    }
  }

  /**
   * Normalization returns iff the first of the lists it reaches which is not accepted, if there is
   * one, can be read to its end.
   */
  lemma NormalizeReturnsIff(c: ConfigNode, fromFile: bool, regular: bool)
    ensures Normalize(c, fromFile, regular) != Fail(NoReturn) <==> Settles(ConfigReads(c, fromFile, regular).lists)
  {
    hide Normalize, ConfigReads, Verdict, Settles;
    ConfigCame(c, fromFile, regular);
    SettlesIff(ConfigReads(c, fromFile, regular).lists);
  }

  lemma SliceReturnsIff(s: SliceNode, length: int, d: Defs)
    ensures NormSlice(s, length, d) != Fail(NoReturn) <==> (SliceFormOk(s, length) ==> Assignment.Readable(s.cpu.value))
  {
    hide SliceFormOk, NormSlice, Assignment.Readable, Assignment.ParseCpus;
    SliceCame(s, length, d);
    SliceHasCpu(s, length);
  }

  lemma SliceHasCpu(s: SliceNode, length: int)
    ensures SliceFormOk(s, length) ==> s.cpu.Some?
  {
  }

  lemma WindowReturnsIff(w: WinNode, d: Defs)
    ensures NormWindow(w, d) != Fail(NoReturn) <==> Settles(WindowReads(w).lists)
  {
    hide NormWindow, WindowReads, Verdict, Settles;
    WindowCame(w, d);
    SettlesIff(WindowReads(w).lists);
  }

  lemma WindowsReturnIff(ws: seq<WinNode>, d: Defs)
    ensures NormWindowsFrom(ws, 0, [], d) != Fail(NoReturn) <==> Settles(WindowsRead(ws, 0).lists)
  {
    hide NormWindowsFrom, WindowsRead, Verdict, Settles;
    WindowsCame(ws, 0, [], d);
    SettlesIff(WindowsRead(ws, 0).lists);
  }

  /** Every list of the configuration can be read to its end. */
  predicate ListsReadable(c: ConfigNode) {
    && Assignment.Readable(CpuOf(c))
    && forall k :: 0 <= k < |c.windows| && SlicesOf(c.windows[k]).Some? ==> SlicesReadable(SlicesOf(c.windows[k]).value)
  }

  predicate SlicesReadable(ss: seq<SliceNode>) {
    forall i :: 0 <= i < |ss| && ss[i].cpu.Some? ==> Assignment.Readable(ss[i].cpu.value)
  }

  lemma {:induction false} SlicesReadOwn(ss: seq<SliceNode>, k: nat, length: int)
    requires k <= |ss| && SlicesReadable(ss)
    ensures forall x :: x in SlicesRead(ss, k, length).lists ==> Assignment.Readable(x)
    decreases |ss| - k
  {
    hide Assignment.Readable, PartProcs;
    if k < |ss| {
      SlicesReadOwn(ss, k + 1, length);
    }
  }

  lemma {:induction false} WindowsReadOwn(ws: seq<WinNode>, k: nat)
    requires k <= |ws|
    requires forall j :: 0 <= j < |ws| && SlicesOf(ws[j]).Some? ==> SlicesReadable(SlicesOf(ws[j]).value)
    ensures forall x :: x in WindowsRead(ws, k).lists ==> Assignment.Readable(x)
    decreases |ws| - k
  {
    hide Assignment.Readable, SlicesReadable, SlicesRead, SlicesOf;
    if k < |ws| {
      WindowsReadOwn(ws, k + 1);
      WindowLength(ws[k]);
      if WinFormOk(ws[k]) && SlicesOf(ws[k]).Some? {
        SlicesReadOwn(SlicesOf(ws[k]).value, 0, ws[k].length.value);
      }
    }
  }

  /** So a configuration whose lists can all be read to their end is normalized or refused. */
  lemma ReadableReturns(c: ConfigNode, fromFile: bool, regular: bool)
    requires ListsReadable(c)
    ensures Normalize(c, fromFile, regular) != Fail(NoReturn)
  {
    WindowsReadOwn(c.windows, 0);
    hide Normalize, Assignment.Readable, WindowsRead, PartProcs;
    NormalizeReturnsIff(c, fromFile, regular);
  }

  // ----- The same, step by step -----

  class Config {
    const maxCpus: nat
    var anonymousPartitionCounter: nat
    var partitions: seq<NPart>

    ghost function Snap(): Defs
      reads this
    {
      Defs(partitions, anonymousPartitionCounter)
    }

    constructor (maxCpus: nat)
      ensures Snap() == Defs([], 0) && this.maxCpus == maxCpus
    {
      this.maxCpus := maxCpus;
      anonymousPartitionCounter := 0;
      partitions := [];
    }

    method NormalizeProcesses(ps: seq<ProcNode>, each: Option<real>) returns (r: Result<seq<NProc>>)
      ensures r == NormProcsFrom(ps, 0, each, [])
    {
      var acc: seq<NProc> := [];
      var k := 0;
      while k < |ps|
        invariant k <= |ps| && NormProcsFrom(ps, k, each, acc) == NormProcsFrom(ps, 0, each, [])
      {
        var p := NormProc(ps[k], each);
        if p.Fail? {
          return Fail(p.why);
        }
        acc := acc + [p.value];
        k := k + 1;
      }
      r := Ok(acc);
    }

    method NormalizePartition(part: PartNode, total: Option<real>) returns (r: Result<string>)
      modifies this
      ensures match NormPart(part, total, old(Snap()))
              case Fail(why) => r == Fail(why)
              case Ok((name, d)) => r == Ok(name) && Snap() == d
    {
      if part.Name? {
        return Fail(Refused);
      }
      var procs: Result<seq<NProc>> := Ok([]);
      if part.ProcList? {
        procs := NormalizeProcesses(part.procs, Share(total, |part.procs|));
      } else {
        if part.otherKey.Some? {
          return Fail(Refused);
        }
        if part.processes.Some? {
          if part.processes.value.List? {
            procs := NormalizeProcesses(part.processes.value.procs, Share(total, |part.processes.value.procs|));
          } else {
            procs := NormalizeProcesses([part.processes.value.proc], total);
          }
        }
      }
      if procs.Fail? {
        return Fail(procs.why);
      }
      var list := procs.value;
      if list == [] {
        var p := NormProc(InlineProc(if part.PartMap? then part.inline else NO_INLINE), total);
        if p.Fail? {
          return Fail(p.why);
        }
        list := [p.value];
      }
      var name;
      if part.PartMap? && part.nameKey.Some? {
        name := part.nameKey.value;
      } else {
        name := Anonymous(anonymousPartitionCounter);
        anonymousPartitionCounter := anonymousPartitionCounter + 1;
      }
      partitions := partitions + [NPart(name, list)];
      r := Ok(name);
    }

    /** Reads a CPU list only to see whether it is one. */
    method CheckCpus(text: string) returns (ok: bool)
      requires CpuText(text) != Fail(NoReturn)
      ensures CpuText(text) == if ok then Ok(()) else Fail(Refused)
    {
      var cpus := Assignment.ReadCpus(text, {}, maxCpus);
      SizeDoesNotMatter(text, maxCpus);
      ok := cpus.Some?;
    }

    method NormalizeSlice(s: SliceNode, length: int) returns (r: Result<NSlice>)
      requires SliceFormOk(s, length) ==> Assignment.Readable(s.cpu.value)
      modifies this
      ensures match NormSlice(s, length, old(Snap()))
              case Fail(why) => r == Fail(why)
              case Ok((n, d)) => r == Ok(n) && Snap() == d
    {
      hide CpuText, SliceFormOk, Assignment.Readable;
      SliceReturnsIff(s, length, Snap());
      if s.other.Some? {
        return Fail(Refused);
      }
      var n := NSlice("", s.frequency, None, None);
      var k := 0;
      while k < |s.entries|
        invariant k <= |s.entries|
        invariant NormEntriesFrom(s.entries, k, length, n, Snap()) ==
                  NormEntriesFrom(s.entries, 0, length, NSlice("", s.frequency, None, None), old(Snap()))
      {
        var e := s.entries[k];
        var name;
        if PartOf(e).Name? {
          name := Ok(PartOf(e).name);
        } else {
          name := NormalizePartition(PartOf(e), TotalOf(e, length));
        }
        if name.Fail? {
          return Fail(name.why);
        }
        n := WithEntry(n, e, name.value);
        k := k + 1;
      }
      if s.cpu.None? {
        return Fail(Refused);
      }
      var ok := CheckCpus(s.cpu.value);
      if !ok {
        return Fail(Refused);
      }
      r := Ok(n.(cpu := s.cpu.value));
    }

    method NormalizeWindow(w: WinNode) returns (r: Result<NWin>)
      requires Settles(WindowReads(w).lists)
      modifies this
      ensures match NormWindow(w, old(Snap()))
              case Fail(why) => r == Fail(why)
              case Ok((n, d)) => r == Ok(n) && Snap() == d
    {
      WindowReturnsIff(w, Snap());
      hide Settles, SliceFormOk, Assignment.Readable;
      if !WinFormOk(w) {
        return Fail(Refused);
      }
      var length := w.length.value;
      var ss := SlicesOf(w);
      if ss.None? {
        return Ok(NWin(length, None));
      }
      var acc: seq<NSlice> := [];
      var k := 0;
      while k < |ss.value|
        invariant k <= |ss.value|
        invariant NormSlicesFrom(ss.value, k, length, acc, Snap()) == NormSlicesFrom(ss.value, 0, length, [], old(Snap()))
      {
        SliceReturnsIff(ss.value[k], length, Snap());
        var s := NormalizeSlice(ss.value[k], length);
        if s.Fail? {
          return Fail(s.why);
        }
        acc := acc + [s.value];
        k := k + 1;
      }
      if w.after.Some? {
        return Fail(Refused);
      }
      r := Ok(NWin(length, Some(acc)));
    }

    method NormalizeParts(ps: seq<PartNode>) returns (r: Result<()>)
      modifies this
      ensures match NormPartsFrom(ps, 0, old(Snap()))
              case Fail(why) => r == Fail(why)
              case Ok(d) => r == Ok(()) && Snap() == d
    {
      var k := 0;
      while k < |ps|
        invariant k <= |ps| && NormPartsFrom(ps, k, Snap()) == NormPartsFrom(ps, 0, old(Snap()))
      {
        var name := NormalizePartition(ps[k], None);
        if name.Fail? {
          return Fail(name.why);
        }
        k := k + 1;
      }
      r := Ok(());
    }

    method NormalizeWindows(ws: seq<WinNode>) returns (r: Result<seq<NWin>>)
      requires Settles(WindowsRead(ws, 0).lists)
      modifies this
      ensures match NormWindowsFrom(ws, 0, [], old(Snap()))
              case Fail(why) => r == Fail(why)
              case Ok((n, d)) => r == Ok(n) && Snap() == d
    {
      WindowsReturnIff(ws, Snap());
      hide Settles, WindowsRead, WindowReads, NormWindow;
      var acc: seq<NWin> := [];
      var k := 0;
      while k < |ws|
        invariant k <= |ws| && NormWindowsFrom(ws, k, acc, Snap()) == NormWindowsFrom(ws, 0, [], old(Snap()))
      {
        WindowReturnsIff(ws[k], Snap());
        var w := NormalizeWindow(ws[k]);
        if w.Fail? {
          return Fail(w.why);
        }
        acc := acc + [w.value];
        k := k + 1;
      }
      r := Ok(acc);
    }

    method NormalizeConfig(c: ConfigNode, fromFile: bool, regular: bool) returns (r: Result<NConfig>)
      requires Snap() == Defs([], 0)
      requires Settles(ConfigReads(c, fromFile, regular).lists)
      modifies this
      ensures r == Normalize(c, fromFile, regular)
    {
      NormalizeReturnsIff(c, fromFile, regular);
      hide Settles, ConfigReads, CpuText, NormWindowsFrom, NormPartsFrom;
      if c.setCwd.Some? && !fromFile {
        return Fail(Refused);
      }
      var cwd := if c.setCwd.Some? then c.setCwd.value else fromFile;
      if cwd && fromFile && !regular {
        return Fail(Refused);
      }
      var cpu := if c.demosCpu.Some? then c.demosCpu.value else "all";
      var read := CheckCpus(cpu);
      if !read {
        return Fail(Refused);
      }
      var ps := NormalizeParts(c.partitions);
      if ps.Fail? {
        return Fail(ps.why);
      }
      WindowsReturnIff(c.windows, Snap());
      var ws := NormalizeWindows(c.windows);
      if ws.Fail? {
        return Fail(ws.why);
      }
      if c.other.Some? {
        return Fail(Refused);
      }
      r := Ok(NConfig(cwd, cpu, partitions, ws.value));
    }
  }
}
