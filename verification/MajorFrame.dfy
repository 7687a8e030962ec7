/**
 * The object which goes from window to window. Windows share their partitions, so while one window
 * runs the others are only at rest as far as their own slices are concerned.
 */
module MajorFrame {
  import opened Options
  import opened Scheduler
  import M = Model
  import P = Phases
  import F = Frame
  import T = TimeTable
  import B = ScheduleBooks
  import Progress

  class MajorFrame {
    const windows: seq<Window>
    var currentWin: nat
    /** The end of the current window. */
    var timeout: int
    var armed: bool
    ghost const cfg: seq<F.WinCfg>
    ghost const partitions: seq<Partition>
    /** When the schedule began, and how often the window has changed since. */
    ghost var began: int
    ghost var changes: nat

    constructor (windows: seq<Window>, ghost cfg: seq<F.WinCfg>, ghost partitions: seq<Partition>, ghost began: int)
      requires |windows| > 0
      ensures this.windows == windows && this.cfg == cfg && this.partitions == partitions
      ensures currentWin == 0 && !armed && changes == 0 && this.began == began
    {
      this.windows := windows;
      this.cfg := cfg;
      this.partitions := partitions;
      this.began := began;
      changes := 0;
      currentWin := 0;
      timeout := 0;
      armed := false;
    }

    ghost function Ref(p: Option<nat>): Partition?
    {
      if p.Some? && p.value < |partitions| then partitions[p.value] else null
    }

    ghost predicate SliceWired(k: nat, i: nat)
      requires k < |windows| && k < |cfg| && i < |cfg[k].slices|
      reads windows
    {
      && i < |windows[k].slices|
      && var s := windows[k].slices[i];
         && s.window == windows[k]
         && s.sc == Ref(cfg[k].slices[i].sc) && s.be == Ref(cfg[k].slices[i].be)
         && s.Footprint() <= windows[k].repr
         && s as object !in PartFootprint(s.sc) + PartFootprint(s.be)
         && PartFootprint(s.sc) !! PartFootprint(s.be)
    }

    /** Window `k` is built as configured, and reaches nothing which is not its own. */
    ghost predicate WindowWired(k: nat)
      requires k < |windows| == |cfg|
      reads windows
    {
      && windows[k].length == cfg[k].length
      && |windows[k].slices| == |cfg[k].slices|
      && (forall i :: 0 <= i < |cfg[k].slices| ==> SliceWired(k, i))
      && (forall i, j :: 0 <= i < j < |windows[k].slices| ==> windows[k].slices[i].Footprint() !! windows[k].slices[j].Footprint())
      && this as object !in windows[k].repr
      && (forall j :: 0 <= j < |windows| ==> windows[j] as object !in windows[k].repr)
      && (forall p :: 0 <= p < |partitions| && F.Unused(cfg[k], p) ==> partitions[p].Footprint() !! windows[k].repr)
    }

    /** Slices belong to one window only. */
    ghost predicate Apart(j: nat, k: nat)
      requires j < |windows| && k < |windows|
      reads windows
    {
      forall i :: 0 <= i < |windows[j].slices| ==> windows[j].slices[i] as object !in windows[k].repr
    }

    ghost predicate PartitionsApart() {
      && (forall p, q :: 0 <= p < q < |partitions| ==> partitions[p].Footprint() !! partitions[q].Footprint())
      && (forall p, k :: 0 <= p < |partitions| && 0 <= k < |windows| ==> windows[k] as object !in partitions[p].Footprint())
    }

    /** Everything the windows consist of. */
    ghost function Reach(): (r: set<object>)
      reads windows
      ensures forall k, o: object :: 0 <= k < |windows| && o in windows[k].repr ==> o in r
      ensures forall k, i :: 0 <= k < |windows| && 0 <= i < |windows[k].slices| ==> windows[k].slices[i] as object in r
      ensures forall p :: 0 <= p < |partitions| ==> partitions[p].Footprint() <= r
    {
      (set k, o: object | 0 <= k < |windows| && o in windows[k].repr :: o)
      + (set k, i | 0 <= k < |windows| && 0 <= i < |windows[k].slices| :: windows[k].slices[i] as object)
      + (set p, o: object | 0 <= p < |partitions| && o in partitions[p].Footprint() :: o)
    }

    /** What does not change while the schedule runs. */
    ghost predicate Layout()
      reads windows
    {
      && |windows| == |cfg| && F.CfgOk(cfg, |partitions|)
      && PartitionsApart()
      && (forall j, k :: 0 <= j < k < |windows| ==> windows[j] != windows[k])
      && (forall k :: 0 <= k < |windows| ==> WindowWired(k))
      && (forall j, k :: 0 <= j < |windows| && 0 <= k < |windows| && j != k ==> Apart(j, k))
    }

    ghost predicate PartsOk()
      reads partitions, set p, j | 0 <= p < |partitions| && 0 <= j < |partitions[p].processes| :: partitions[p].processes[j]
    {
      forall p :: 0 <= p < |partitions| ==> partitions[p].Valid()
    }

    /** A slice which runs nothing. */
    ghost predicate SliceRests(s: Slice)
      reads s
    {
      s.runningProcess == null && !s.armed && (s.runningPartition == null || s.runningPartition == s.sc || s.runningPartition == s.be)
    }

    ghost predicate Rests(k: nat)
      requires k < |windows|
      reads windows, windows[k].slices
    {
      !windows[k].stopping && forall i :: 0 <= i < |windows[k].slices| ==> SliceRests(windows[k].slices[i])
    }

    ghost function PartSnaps(): (r: seq<M.Part>)
      reads partitions, set p, j | 0 <= p < |partitions| && 0 <= j < |partitions[p].processes| :: partitions[p].processes[j]
      ensures |r| == |partitions|
      ensures forall p :: 0 <= p < |partitions| ==> r[p] == partitions[p].Snap()
    {
      seq(|partitions|, p requires 0 <= p < |partitions|
                        reads partitions, set p, j | 0 <= p < |partitions| && 0 <= j < |partitions[p].processes| :: partitions[p].processes[j] =>
          partitions[p].Snap())
    }

    lemma RefExists(k: nat, i: nat)
      requires Layout() && k < |windows| && i < |cfg[k].slices|
      ensures cfg[k].slices[i].sc.Some? ==> cfg[k].slices[i].sc.value < |partitions| && F.UsedAs(cfg[k], cfg[k].slices[i].sc.value, M.Sc, i)
      ensures cfg[k].slices[i].be.Some? ==> cfg[k].slices[i].be.value < |partitions| && F.UsedAs(cfg[k], cfg[k].slices[i].be.value, M.Be, i)
    {
      F.ScsExist(cfg[k], |partitions|);
    }

    /** No partition is connected to a slice. */
    ghost predicate AllFree()
      reads partitions
    {
      forall p :: 0 <= p < |partitions| ==> partitions[p].owner == null
    }

    lemma RestingSliceIsValid(k: nat, i: nat)
      requires Layout() && PartsOk() && AllFree() && k < |windows| && i < |windows[k].slices| && Rests(k)
      ensures windows[k].slices[i].Valid()
    {
      assert WindowWired(k) && SliceWired(k, i);
      RefExists(k, i);
      assert SliceRests(windows[k].slices[i]);
    }

    lemma RestingIsValid(k: nat)
      requires Layout() && PartsOk() && AllFree() && k < |windows| && Rests(k)
      ensures windows[k].Valid()
    {
      assert WindowWired(k);
      forall i | 0 <= i < |windows[k].slices|
        ensures windows[k].slices[i].Valid()
        ensures windows[k].slices[i].window == windows[k] && windows[k].slices[i].Footprint() <= windows[k].repr
        ensures windows[k].slices[i] in windows[k].repr
      {
        RestingSliceIsValid(k, i);
        assert SliceWired(k, i);
        assert windows[k].slices[i] in windows[k].slices[i].Footprint();
      }
    }

    ghost predicate AllQuiet()
      reads partitions, set p, j | 0 <= p < |partitions| && 0 <= j < |partitions[p].processes| :: partitions[p].processes[j]
    {
      forall p :: 0 <= p < |partitions| ==> P.Quiet(partitions[p].Snap())
    }

    lemma RestingIsIdle(k: nat)
      requires Layout() && PartsOk() && AllQuiet() && AllFree() && k < |windows| && Rests(k)
      ensures windows[k].Valid() && P.Idle(windows[k].Snap())
    {
      RestingIsValid(k);
      assert WindowWired(k);
      forall i | 0 <= i < |windows[k].slices|
        ensures P.SliceOk(windows[k].Snap().slices[i]) && !windows[k].Snap().slices[i].running && windows[k].Snap().slices[i].linked == {}
      {
        assert SliceWired(k, i);
        RefExists(k, i);
        assert SliceRests(windows[k].slices[i]);
        windows[k].slices[i].SnapIsShaped();
      }
    }

    lemma WiredSnaps(k: nat)
      requires Layout() && k < |windows| && windows[k].Valid()
      ensures F.Wired(windows[k].Snap(), cfg[k], PartSnaps())
    {
      assert WindowWired(k);
      var w := windows[k].Snap();
      F.ScsExist(cfg[k], |partitions|);
      forall i | 0 <= i < |w.slices|
        ensures w.slices[i].sc == (if cfg[k].slices[i].sc.None? then None else Some(PartSnaps()[cfg[k].slices[i].sc.value]))
        ensures w.slices[i].be == (if cfg[k].slices[i].be.None? then None else Some(PartSnaps()[cfg[k].slices[i].be.value]))
      {
        assert SliceWired(k, i);
        RefExists(k, i);
      }
    }

    /** Only window `c`, and what it reaches, has changed; it is valid. */
    twostate predicate OnlyWindow(c: nat)
      reads windows, windows[c].repr
      requires c < |windows|
      reads set k, i | 0 <= k < |windows| && 0 <= i < |windows[k].slices| :: windows[k].slices[i]
      reads partitions, set p, j | 0 <= p < |partitions| && 0 <= j < |partitions[p].processes| :: partitions[p].processes[j]
    {
      && windows[c].slices == old(windows[c].slices) && windows[c].repr == old(windows[c].repr)
      && (forall k :: 0 <= k < |windows| && k != c ==>
            unchanged(windows[k]) && forall i :: 0 <= i < |windows[k].slices| ==> unchanged(windows[k].slices[i]))
      && (forall p :: 0 <= p < |partitions| && partitions[p].Footprint() !! windows[c].repr ==>
            unchanged(partitions[p]) && forall j :: 0 <= j < |partitions[p].processes| ==> unchanged(partitions[p].processes[j]))
    }

    /** What window `c` does not reach. */
    lemma Untouched(c: nat)
      requires Layout() && c < |windows|
      ensures this as object !in windows[c].repr
      ensures forall k :: 0 <= k < |windows| && k != c ==>
                && windows[k] != windows[c] && windows[k] as object !in windows[c].repr
                && forall i :: 0 <= i < |windows[k].slices| ==> windows[k].slices[i] as object !in windows[c].repr
      ensures forall p :: 0 <= p < |partitions| ==> windows[c] as object !in partitions[p].Footprint()
      ensures forall p :: 0 <= p < |partitions| && F.Unused(cfg[c], p) ==> partitions[p].Footprint() !! windows[c].repr
    {
      assert WindowWired(c);
      forall k | 0 <= k < |windows| && k != c
        ensures windows[k] != windows[c] && windows[k] as object !in windows[c].repr
        ensures forall i :: 0 <= i < |windows[k].slices| ==> windows[k].slices[i] as object !in windows[c].repr
      {
        assert Apart(k, c);
      }
    }

    /** A partition which window `c` uses is valid if the window is. */
    lemma UsedIsValid(c: nat, p: nat)
      requires Layout() && c < |windows| && windows[c].Valid() && p < |partitions| && !F.Unused(cfg[c], p)
      ensures partitions[p].Valid()
      ensures P.Idle(windows[c].Snap()) ==> P.Quiet(partitions[p].Snap()) && partitions[p].owner == null
    {
      var r, i :| F.UsedAs(cfg[c], p, r, i);
      assert WindowWired(c) && SliceWired(c, i);
      assert r == M.Sc || r == M.Be;
      assert windows[c].Snap().slices[i] == windows[c].slices[i].Snap();
      assert P.Idle(windows[c].Snap()) ==> P.SliceOk(windows[c].slices[i].Snap()) && !windows[c].slices[i].Snap().running;
    }

    /** Window `c` has done something: the rest is as it was. */
    twostate lemma AfterWindow(c: nat)
      requires c < |windows| && old(Layout()) && old(PartsOk()) && OnlyWindow(c) && windows[c].Valid()
      requires forall k :: 0 <= k < |windows| && k != c ==> old(Rests(k))
      ensures Layout() && PartsOk()
      ensures forall k :: 0 <= k < |windows| && k != c ==> Rests(k)
      ensures forall p :: 0 <= p < |partitions| && F.Unused(cfg[c], p) ==> PartSnaps()[p] == old(PartSnaps())[p]
      ensures forall p :: 0 <= p < |partitions| && F.Unused(cfg[c], p) ==> partitions[p].owner == old(partitions[p].owner)
    {
      assert forall k :: 0 <= k < |windows| ==> windows[k].slices == old(windows[k].slices) && windows[k].repr == old(windows[k].repr);
      LayoutStays();
      assert old(WindowWired(c));
      forall p | 0 <= p < |partitions|
        ensures partitions[p].Valid()
        ensures F.Unused(cfg[c], p) ==> partitions[p].Snap() == old(partitions[p].Snap()) && partitions[p].owner == old(partitions[p].owner)
      {
        if F.Unused(cfg[c], p) {
          assert unchanged(partitions[p]);
          assert old(partitions[p].Valid());
        } else {
          UsedIsValid(c, p);
        }
      }
      forall k | 0 <= k < |windows| && k != c
        ensures Rests(k)
      {
        assert old(Rests(k));
      }
    }

    twostate lemma LayoutStays()
      requires old(Layout())
      requires forall k :: 0 <= k < |windows| ==> windows[k].slices == old(windows[k].slices) && windows[k].repr == old(windows[k].repr)
      ensures Layout()
    {
      forall k | 0 <= k < |windows|
        ensures WindowWired(k)
      {
        assert old(WindowWired(k));
        assert forall i :: 0 <= i < |cfg[k].slices| ==> old(SliceWired(k, i)) ==> SliceWired(k, i);
      }
      forall j, k | 0 <= j < |windows| && 0 <= k < |windows| && j != k
        ensures Apart(j, k)
      {
        assert old(Apart(j, k));
      }
    }

    /** The windows consist of the same objects. */
    twostate predicate SameLayout()
      reads windows
    {
      forall k :: 0 <= k < |windows| ==> windows[k].repr == old(windows[k].repr) && windows[k].slices == old(windows[k].slices)
    }

    twostate lemma SameReach()
      requires SameLayout()
      ensures Reach() == old(Reach())
    {
    }

    /** Nothing runs: before the start, after a stop and between two windows. */
    ghost predicate Stopped()
      reads windows, Reach()
    {
      Layout() && PartsOk() && AllQuiet() && AllFree() && forall k :: 0 <= k < |windows| ==> Rests(k)
    }

    method MoveToNextWindow()
      requires currentWin < |windows|
      modifies `currentWin
      ensures currentWin == M.Next(|windows|, old(currentWin))
    {
      currentWin := currentWin + 1;
      if currentWin == |windows| {
        currentWin := 0;
      }
    }

    /** Window `c` runs and everything else is at rest. */
    ghost predicate WindowRuns(c: nat)
      reads windows, Reach()
    {
      && Layout() && PartsOk() && c < |windows|
      && windows[c].Valid() && P.Inv(windows[c].Snap())
      && (forall k :: 0 <= k < |windows| && k != c ==> Rests(k))
      && (forall p :: 0 <= p < |partitions| && F.Unused(cfg[c], p) ==> P.Quiet(partitions[p].Snap()) && partitions[p].owner == null)
    }

    /** The timer is armed for the end of the current window, whatever the delays so far. */
    ghost predicate OnTime()
      reads this
    {
      && |cfg| > 0 && armed
      && currentWin == F.WindowAt(|cfg|, changes) && timeout == F.WindowStart(cfg, began, changes + 1)
    }

    /** Partitions which window `c` does not use are as they were. */
    twostate predicate UnusedStay(c: nat)
      requires c < |cfg|
      reads partitions, set p, j | 0 <= p < |partitions| && 0 <= j < |partitions[p].processes| :: partitions[p].processes[j]
    {
      forall p :: 0 <= p < |partitions| && F.Unused(cfg[c], p) ==> PartSnaps()[p] == old(PartSnaps())[p]
    }

    twostate lemma UnusedStayQuiet(c: nat)
      requires c < |cfg| && UnusedStay(c)
      ensures forall p :: 0 <= p < |partitions| && F.Unused(cfg[c], p) ==>
                (old(P.Quiet(partitions[p].Snap())) <==> P.Quiet(partitions[p].Snap()))
    {
      forall p | 0 <= p < |partitions| && F.Unused(cfg[c], p)
        ensures partitions[p].Snap() == old(partitions[p].Snap())
      {
        assert PartSnaps()[p] == old(PartSnaps())[p];
      }
    }

    method StartWindow(c: nat, t: int)
      requires Stopped() && c < |windows|
      modifies {windows[c]}, windows[c].repr
      ensures WindowRuns(c) && windows[c].Valid()
      ensures old(windows[c].Valid()) && P.Idle(old(windows[c].Snap()))
      ensures F.Wired(old(windows[c].Snap()), cfg[c], old(PartSnaps()))
      ensures windows[c].Snap() == M.Start(old(windows[c].Snap()), t)
      ensures UnusedStay(c) && SameLayout()
    {
      hide P.Idle, P.Inv, F.Wired, F.CfgOk, M.Start;
      RestingIsIdle(c);
      WiredSnaps(c);
      Untouched(c);
      windows[c].Start(t);
      AfterWindow(c);
      UnusedStayQuiet(c);
    }

    /** `start` */
    method Start(t: int)
      requires Stopped() && currentWin < |windows|
      requires currentWin == F.WindowAt(|cfg|, changes) && t == F.WindowStart(cfg, began, changes)
      modifies `timeout, `armed, {windows[currentWin]}, windows[currentWin].repr
      ensures WindowRuns(currentWin) && OnTime() && currentWin == old(currentWin) && windows[currentWin].Valid()
      ensures old(windows[currentWin].Valid()) && P.Idle(old(windows[currentWin].Snap()))
      ensures F.Wired(old(windows[currentWin].Snap()), cfg[currentWin], old(PartSnaps()))
      ensures windows[currentWin].Snap() == M.Start(old(windows[currentWin].Snap()), t)
      ensures UnusedStay(currentWin) && SameLayout()
    {
      hide P.Idle, P.Inv, F.Wired, M.Start, F.CfgOk, WindowRuns, UnusedStay, PartsOk, AllQuiet, Rests, Stopped, Layout, Reach;
      StoppedNotReached();
      StartWindow(currentWin, t);
      RunsNotReached(currentWin);
      timeout := t + M.Ms(windows[currentWin].length);
      armed := true;
    }

    /** The windows do not reach this object. */
    lemma NotReached()
      requires Layout()
      ensures |windows| == |cfg| > 0
      ensures this as object !in Reach()
      ensures forall k :: 0 <= k < |windows| ==> this as object !in windows[k].repr && windows[k].length == cfg[k].length
    {
      forall k | 0 <= k < |windows|
        ensures this as object !in windows[k].repr && windows[k].length == cfg[k].length
      {
        assert WindowWired(k);
      }
    }

    lemma RunsNotReached(c: nat)
      requires WindowRuns(c)
      ensures this as object !in Reach() && c < |windows| == |cfg|
      ensures forall k :: 0 <= k < |windows| ==> windows[k] as object != this && this as object !in windows[k].repr
    {
      NotReached();
    }

    lemma StoppedNotReached()
      requires Stopped()
      ensures this as object !in Reach() && |windows| == |cfg| > 0
      ensures forall k :: 0 <= k < |windows| ==> windows[k] as object != this && this as object !in windows[k].repr
      ensures forall k :: 0 <= k < |windows| ==> windows[k].length == cfg[k].length
    {
      NotReached();
    }

    /** Window `c` can be stopped at `t`: nothing runs anyway, or the assertions about remainders hold. */
    ghost predicate CanStop(c: nat, t: int)
      reads windows, Reach()
    {
      && c < |windows| && windows[c].Valid()
      && (Stopped() ||
          (WindowRuns(c) && forall i :: 0 <= i < |windows[c].slices| ==> P.StopFits(windows[c].Snap().slices[i], t)))
    }

    lemma RunsCanStop(c: nat, t: int)
      requires WindowRuns(c)
      requires forall i :: 0 <= i < |windows[c].slices| ==> P.StopFits(windows[c].Snap().slices[i], t)
      ensures CanStop(c, t)
    {
      hide P.Inv, P.StopFits, Layout, PartsOk;
    }

    lemma CanStopMeans(c: nat, t: int)
      requires CanStop(c, t)
      ensures Layout() && PartsOk() && c < |windows| && windows[c].Valid()
      ensures forall i :: 0 <= i < |windows[c].slices| ==> P.StopFits(windows[c].Snap().slices[i], t)
      ensures M.WinShaped(windows[c].Snap()) && P.Idle(M.Stop(windows[c].Snap(), t))
      ensures forall k :: 0 <= k < |windows| && k != c ==> Rests(k)
      ensures forall p :: 0 <= p < |partitions| && F.Unused(cfg[c], p) ==> P.Quiet(partitions[p].Snap()) && partitions[p].owner == null
      ensures this as object !in Reach()
      ensures forall k :: 0 <= k < |windows| ==> windows[k] as object != this && this as object !in windows[k].repr
    {
      hide P.Idle, P.Inv, F.CfgOk, M.Stop, P.StopFits, Reach, P.Quiet;
      if Stopped() {
        StoppedNotReached();
        RestingIsIdle(c);
        P.StopIdle(windows[c].Snap(), t);
      } else {
        RunsNotReached(c);
        P.StopSafe(windows[c].Snap(), t);
      }
    }

    /** The current window is stopped: afterwards nothing runs. */
    method StopWindow(c: nat, t: int)
      requires CanStop(c, t)
      modifies {windows[c]}, windows[c].repr
      ensures Stopped() && windows[c].Valid()
      ensures forall k :: 0 <= k < |windows| ==> windows[k].repr == old(windows[k].repr)
      ensures windows[c].Snap() == M.Stop(old(windows[c].Snap()), t)
      ensures F.Wired(windows[c].Snap(), cfg[c], PartSnaps())
      ensures UnusedStay(c) && SameLayout()
    {
      hide P.Idle, P.Inv, F.Wired, F.CfgOk, M.Stop, P.StopFits, CanStop, Reach;
      CanStopMeans(c, t);
      Untouched(c);
      windows[c].Stop(t);
      AfterWindow(c);
      UnusedStayQuiet(c);
      WiredSnaps(c);
      IdleIsQuiet(c);
    }

    /** What an idle window leaves: its slices at rest and its partitions quiet. */
    lemma IdleIsQuiet(c: nat)
      requires Layout() && c < |windows| && windows[c].Valid() && P.Idle(windows[c].Snap())
      ensures Rests(c)
      ensures forall p :: 0 <= p < |partitions| && !F.Unused(cfg[c], p) ==> P.Quiet(partitions[p].Snap()) && partitions[p].owner == null
    {
      forall p | 0 <= p < |partitions| && !F.Unused(cfg[c], p)
        ensures P.Quiet(partitions[p].Snap()) && partitions[p].owner == null
      {
        UsedIsValid(c, p);
      }
      forall i | 0 <= i < |windows[c].slices|
        ensures SliceRests(windows[c].slices[i])
      {
        assert windows[c].Snap().slices[i] == windows[c].slices[i].Snap();
        assert P.SliceOk(windows[c].Snap().slices[i]) && !windows[c].Snap().slices[i].running;
      }
    }

    /**
     * The window timer: the window is stopped at its planned end, and the next one is started
     * there, however late this is. Returns whether the safety-critical partitions were late;
     * `mid` are the partitions between the two windows, and `next` the window about to start.
     */
    method TimeoutCb() returns (late: bool, ghost mid: seq<M.Part>, ghost next: M.Win)
      requires WindowRuns(currentWin) && OnTime()
      requires forall i :: 0 <= i < |windows[currentWin].slices| ==> P.StopFits(windows[currentWin].Snap().slices[i], timeout)
      modifies this, windows, Reach()
      ensures WindowRuns(currentWin) && OnTime() && changes == old(changes) + 1 && began == old(began)
      ensures currentWin < |windows| && windows[currentWin].Valid() && SameLayout()
      ensures var c, t := old(currentWin), old(timeout);
              var after := M.Stop(old(windows[currentWin].Snap()), t);
              && late == !P.AllReported(after)
              && |mid| == |partitions| && F.Wired(after, cfg[c], mid)
              && (forall p :: 0 <= p < |partitions| && F.Unused(cfg[c], p) ==> mid[p] == old(PartSnaps())[p])
              && P.Idle(next) && M.WinShaped(next) && F.Wired(next, cfg[currentWin], mid)
              && windows[currentWin].Snap() == M.Start(next, t)
              && (forall p :: 0 <= p < |partitions| && F.Unused(cfg[currentWin], p) ==> PartSnaps()[p] == mid[p])
    {
      hide P.Idle, P.Inv, F.Wired, F.CfgOk, M.Stop, M.Start, P.StopFits, WindowRuns, Stopped, Reach, F.WindowStart, F.WindowAt;
      RunsNotReached(currentWin);
      late, mid := LeaveWindow();
      next := NextWindow();
      StoppedNotReached();
      Start(timeout);
    }

    /** The current window is stopped at its planned end, and the next one becomes the current one. */
    method LeaveWindow() returns (late: bool, ghost mid: seq<M.Part>)
      requires WindowRuns(currentWin) && OnTime()
      requires forall i :: 0 <= i < |windows[currentWin].slices| ==> P.StopFits(windows[currentWin].Snap().slices[i], timeout)
      modifies `currentWin, `changes, {windows[currentWin]}, windows[currentWin].repr
      ensures Stopped() && currentWin < |windows| && mid == PartSnaps()
      ensures SameLayout()
      ensures changes == old(changes) + 1 && timeout == old(timeout) && began == old(began)
      ensures currentWin == F.WindowAt(|cfg|, changes) && timeout == F.WindowStart(cfg, began, changes)
      ensures var c := old(currentWin);
              var after := M.Stop(old(windows[currentWin].Snap()), timeout);
              && late == !P.AllReported(after) && F.Wired(after, cfg[c], mid)
              && (forall p :: 0 <= p < |partitions| && F.Unused(cfg[c], p) ==> mid[p] == old(PartSnaps())[p])
    {
      hide P.Idle, P.Inv, F.Wired, F.CfgOk, F.Unused, M.Stop, P.StopFits, WindowRuns, Stopped, Reach, F.WindowStart, F.WindowAt;
      RunsNotReached(currentWin);
      RunsCanStop(currentWin, timeout);
      StopWindow(currentWin, timeout);
      late := !windows[currentWin].HasScFinished();
      mid := PartSnaps();
      AdvanceWindow();
    }

    lemma NextWindow() returns (next: M.Win)
      requires Stopped() && currentWin < |windows|
      ensures windows[currentWin].Valid() && next == windows[currentWin].Snap()
    {
      RestingIsIdle(currentWin);
      next := windows[currentWin].Snap();
    }

    /** The next window becomes the current one. */
    method AdvanceWindow()
      requires Stopped() && currentWin < |windows|
      requires currentWin == F.WindowAt(|cfg|, changes) && timeout == F.WindowStart(cfg, began, changes + 1)
      modifies `currentWin, `changes
      ensures Stopped() && currentWin < |windows| && PartSnaps() == old(PartSnaps())
      ensures changes == old(changes) + 1
      ensures currentWin == F.WindowAt(|cfg|, changes) && timeout == F.WindowStart(cfg, began, changes)
    {
      hide F.CfgOk, F.WindowStart, F.WindowAt, M.Next, PartSnaps, Layout, PartsOk, AllQuiet, Rests, Reach;
      StoppedNotReached();
      F.WindowAfter(|cfg|, changes);
      MoveToNextWindow();
      changes := changes + 1;
    }

    /** `stop`, which changes nothing if nothing runs. */
    method Stop(t: int)
      requires CanStop(currentWin, t)
      modifies `armed, {windows[currentWin]}, windows[currentWin].repr
      ensures currentWin == old(currentWin) < |windows|
      ensures Stopped() && !armed && windows[currentWin].Valid()
      ensures windows[currentWin].Snap() == M.Stop(old(windows[currentWin].Snap()), t)
      ensures old(Stopped()) ==> windows[currentWin].Snap() == old(windows[currentWin].Snap())
    {
      hide P.Idle, P.Inv, F.Wired, F.CfgOk, M.Stop, P.StopFits, UnusedStay, Reach, CanStop, Stopped, WindowRuns;
      CanStopMeans(currentWin, t);
      StoppedStays(currentWin, t);
      armed := false;
      StopWindow(currentWin, t);
    }

    lemma StoppedStays(c: nat, t: int)
      requires c < |windows| && windows[c].Valid()
      ensures Stopped() ==> M.Stop(windows[c].Snap(), t) == windows[c].Snap()
    {
      hide P.Idle, P.Inv, F.CfgOk, M.Stop;
      if Stopped() {
        RestingIsIdle(c);
        P.StopIdle(windows[c].Snap(), t);
      }
    }

    /** An event of the current window. */
    method Dispatch(e: P.Step)
      requires WindowRuns(currentWin) && OnTime() && P.Enabled(windows[currentWin].Snap(), e)
      modifies {windows[currentWin]}, windows[currentWin].repr
      ensures currentWin == old(currentWin) < |windows| && windows[currentWin].Valid()
      ensures WindowRuns(currentWin) && OnTime() && UnusedStay(currentWin) && SameLayout()
      ensures windows[currentWin].Snap() == P.Apply(old(windows[currentWin].Snap()), e)
    {
      hide P.Inv, F.Wired, F.CfgOk, P.Apply, P.Enabled;
      var c := currentWin;
      Untouched(c);
      P.ApplyKeepsInv(windows[c].Snap(), e);
      windows[c].Dispatch(e);
      AfterWindow(c);
      UnusedStayQuiet(c);
    }

    /** Partitions share no processes, and window `c` reaches none of a partition which it does not use. */
    lemma ProcessElsewhere(c: nat, p: nat, j: nat)
      requires Layout() && c < |windows| && p < |partitions| && j < |partitions[p].processes| && partitions[p].Valid()
      ensures M.ProcOk(partitions[p].processes[j].Snap())
      ensures F.Unused(cfg[c], p) ==> partitions[p].processes[j] as object !in windows[c].repr
      ensures forall q :: 0 <= q < |partitions| && q != p ==> partitions[p].processes[j] !in partitions[q].processes
    {
      Untouched(c);
      assert partitions[p].processes[j] in partitions[p].Footprint();
      assert M.ProcOk(partitions[p].Snap().procs[j]);
      forall q | 0 <= q < |partitions| && q != p
        ensures partitions[p].processes[j] !in partitions[q].processes
      {
        assert partitions[p].Footprint() !! partitions[q].Footprint();
        if i :| 0 <= i < |partitions[q].processes| && partitions[q].processes[i] == partitions[p].processes[j] {
          assert partitions[q].processes[i] in partitions[q].Footprint();
        }
      }
    }

    lemma RunsMeans(c: nat)
      requires WindowRuns(c)
      ensures Layout() && PartsOk() && c < |windows| == |cfg| && windows[c].Valid()
      ensures forall p :: 0 <= p < |partitions| ==> partitions[p].Valid()
    {
    }

    /** A signal, or the end, of a process of a partition which the current window does not use. */
    method DispatchElsewhere(part: Partition, ghost p: nat, j: nat, exits: bool)
      requires WindowRuns(currentWin) && OnTime() && p < |partitions| && part == partitions[p] && j < |part.processes|
      requires currentWin < |cfg| && F.Unused(cfg[currentWin], p)
      modifies part.processes[j]
      ensures currentWin < |windows| && windows[currentWin].Valid()
      ensures WindowRuns(currentWin) && OnTime() && SameLayout()
      ensures windows[currentWin].Snap() == old(windows[currentWin].Snap())
      ensures var q := old(PartSnaps())[p];
              var x := if exits then q.procs[j].(spawned := false) else q.procs[j].(signalled := true);
              PartSnaps() == old(PartSnaps())[p := q.(procs := q.procs[j := x])]
      ensures B.FlagsOnly(old(PartSnaps())[p], PartSnaps()[p])
    {
      hide P.Inv, F.CfgOk, F.Unused, M.PartOk, Layout, Rests, Reach, OnTime, B.FlagsOnly, Window.Valid, Window.Snap;
      RunsMeans(currentWin);
      ProcessElsewhere(currentWin, p, j);
      if exits {
        part.processes[j].HandleEnd();
      } else {
        part.processes[j].SignalCompletion();
      }
      part.ProcessKeepsValid(j);
      forall q | 0 <= q < |partitions| && q != p
        ensures partitions[q].Valid() && partitions[q].Snap() == old(partitions[q].Snap())
      {
        partitions[q].Untouched();
      }
      assert PartSnaps() == old(PartSnaps())[p := part.Snap()];
      OneFlag(old(PartSnaps())[p], j, part.processes[j].Snap());
    }

    lemma OneFlag(q: M.Part, j: nat, x: M.Proc)
      requires j < |q.procs| && (x == q.procs[j].(spawned := false) || x == q.procs[j].(signalled := true))
      ensures B.FlagsOnly(q, q.(procs := q.procs[j := x]))
      ensures P.Quiet(q) ==> P.Quiet(q.(procs := q.procs[j := x]))
    {
    }

    // ----- The event loop, when nothing but time passes -----

    /** The slice, of the first `k`, whose timer expires first, if one does before the window ends. */
    function FirstDue(w: Window, k: nat): (r: Option<nat>)
      requires k <= |w.slices|
      reads this, w, w.slices
      ensures r.Some? ==> r.value < k
      decreases k
    {
      if k == 0 then None
      else
        var r := FirstDue(w, k - 1);
        var first := if r.Some? then w.slices[r.value].timeout else timeout;
        if w.slices[k - 1].runningProcess != null && w.slices[k - 1].timeout < first then Some(k - 1) else r
    }

    lemma {:induction false} FirstDueIs(w: Window, k: nat, s: seq<M.Slice>)
      requires k <= |w.slices| == |s|
      requires forall j :: 0 <= j < |s| ==> s[j].running == (w.slices[j].runningProcess != null) && s[j].timeout == w.slices[j].timeout
      ensures match FirstDue(w, k)
              case None => forall j :: 0 <= j < k && s[j].running ==> timeout <= s[j].timeout
              case Some(i) =>
                && s[i].running && s[i].timeout < timeout
                && forall j :: 0 <= j < k && s[j].running ==> s[i].timeout <= s[j].timeout
      decreases k
    {
      if k > 0 {
        FirstDueIs(w, k - 1, s);
      }
    }

    lemma FirstDueIsDue(w: Window)
      requires w.Valid()
      ensures match FirstDue(w, |w.slices|)
              case None => T.Over(w.Snap(), timeout)
              case Some(i) => T.Due(w.Snap(), i, timeout)
    {
      hide M.Shaped, FirstDue;
      var s := w.Snap().slices;
      assert forall j :: 0 <= j < |s| ==> s[j] == w.slices[j].Snap();
      FirstDueIs(w, |w.slices|, s);
    }

    /** What is known of the current window, which was started as `w0` at `from`, after some timeouts. */
    ghost predicate Serving(w0: M.Win, from: int, order: seq<nat>, states: seq<M.Win>)
      reads this, windows, Reach()
    {
      && WindowRuns(currentWin) && OnTime()
      && T.TimelyRun(w0, from, timeout, order, states)
      && states[|order|] == windows[currentWin].Snap()
    }

    lemma ServingMeans(w0: M.Win, from: int, order: seq<nat>, states: seq<M.Win>)
      requires Serving(w0, from, order, states)
      ensures WindowRuns(currentWin) && OnTime() && currentWin < |windows| == |cfg| && windows[currentWin].Valid()
      ensures T.TimelyRun(w0, from, timeout, order, states)
      ensures states[|order|] == windows[currentWin].Snap()
      ensures P.Inv(windows[currentWin].Snap()) && M.WinShaped(windows[currentWin].Snap())
      ensures |states| == |order| + 1
      ensures windows[currentWin] as object != this && this as object !in windows[currentWin].repr
    {
      hide P.Inv, Layout, PartsOk, Reach, OnTime, P.Idle, T.Due;
      RunsNotReached(currentWin);
    }

    lemma ServingBegins(w0: M.Win, from: int)
      requires WindowRuns(currentWin) && OnTime() && from < timeout
      requires P.Idle(w0) && M.WinShaped(w0) && windows[currentWin].Snap() == M.Start(w0, from)
      ensures currentWin < |windows| == |cfg| && windows[currentWin].Valid()
      ensures windows[currentWin] as object != this && this as object !in windows[currentWin].repr
      ensures Serving(w0, from, [], [windows[currentWin].Snap()])
    {
      hide P.Inv, P.Idle, M.Start, Layout, PartsOk, Reach, OnTime;
      RunsNotReached(currentWin);
    }

    /** One more timeout of a timely run. */
    lemma OneMore(w0: M.Win, from: int, end: int, order: seq<nat>, states: seq<M.Win>, i: nat, w: M.Win)
      requires T.TimelyRun(w0, from, end, order, states) && T.Due(states[|order|], i, end)
      requires w == M.ScheduleNext(states[|order|], i, states[|order|].slices[i].timeout)
      ensures T.TimelyRun(w0, from, end, order + [i], states + [w])
    {
      hide M.Start, M.ScheduleNext, T.Due, P.Idle, M.Shaped;
    }

    /** The due timeout is an event of the window, and leaves less work. */
    lemma DueIsEnabled(w: M.Win, i: nat, end: int)
      requires P.Inv(w) && T.Due(w, i, end)
      ensures P.Enabled(w, P.Timeout(i)) && P.Apply(w, P.Timeout(i)) == M.ScheduleNext(w, i, w.slices[i].timeout)
      ensures var v := M.ScheduleNext(w, i, w.slices[i].timeout);
              Progress.Work(v.slices, P.AllReported(v)) < Progress.Work(w.slices, P.AllReported(w))
    {
      assert P.SliceOk(w.slices[i]);
      Progress.TickWork(w, i);
    }

    /** Serves the next timer of a slice, unless only the window's own is left. */
    method ServeOne(ghost w0: M.Win, ghost from: int, ghost order: seq<nat>, ghost states: seq<M.Win>)
      returns (more: bool, ghost order': seq<nat>, ghost states': seq<M.Win>)
      requires currentWin < |windows| == |cfg| && windows[currentWin].Valid()
      requires Serving(w0, from, order, states)
      modifies {windows[currentWin]}, windows[currentWin].repr
      ensures currentWin == old(currentWin) && windows[currentWin].Valid() && windows[currentWin].repr == old(windows[currentWin].repr)
      ensures |states'| == |order'| + 1 && Serving(w0, from, order', states')
      ensures UnusedStay(currentWin) && SameLayout()
      ensures !more ==> T.Over(states'[|order'|], timeout)
      ensures more ==> WorkLeft() < old(WorkLeft())
    {
      hide P.Idle, P.Inv, F.CfgOk, M.Start, M.ScheduleNext, T.Due, T.Over, P.Enabled, P.Apply, Reach, WindowRuns;
      hide OnTime, Progress.Work, F.UsedAs, F.Unused, Layout, PartsOk, T.TimelyRun;
      ServingMeans(w0, from, order, states);
      order', states' := order, states;
      FirstDueIsDue(windows[currentWin]);
      var i := FirstDue(windows[currentWin], |windows[currentWin].slices|);
      if i.None? {
        return false, order, states;
      }
      DueIsEnabled(states[|order|], i.value, timeout);
      Dispatch(P.Timeout(i.value));
      OneMore(w0, from, timeout, order, states, i.value, windows[currentWin].Snap());
      return true, order + [i.value], states + [windows[currentWin].Snap()];
    }

    ghost function WorkLeft(): nat
      requires currentWin < |windows| && windows[currentWin].Valid()
      reads this, windows, windows[currentWin].repr
    {
      Progress.Work(windows[currentWin].Snap().slices, P.AllReported(windows[currentWin].Snap()))
    }

    /** Serves the timers of the slices until only the window's own is left. */
    method ServeWindow(ghost w0: M.Win, ghost from: int) returns (ghost order: seq<nat>, ghost states: seq<M.Win>)
      requires WindowRuns(currentWin) && OnTime() && from < timeout
      requires P.Idle(w0) && M.WinShaped(w0) && windows[currentWin].Snap() == M.Start(w0, from)
      modifies {windows[currentWin]}, windows[currentWin].repr
      ensures currentWin == old(currentWin) < |windows| && windows[currentWin].Valid()
      ensures windows[currentWin].repr == old(windows[currentWin].repr)
      ensures |states| == |order| + 1 && Serving(w0, from, order, states) && T.Over(states[|order|], timeout)
      ensures UnusedStay(currentWin) && SameLayout()
    {
      hide P.Idle, M.Start, T.Over, WindowRuns, OnTime, Serving, WorkLeft, F.Unused, PartSnaps;
      ServingBegins(w0, from);
      order, states := [], [windows[currentWin].Snap()];
      var more := true;
      while more
        invariant currentWin == old(currentWin) < |windows| == |cfg| && windows[currentWin].Valid()
        invariant windows[currentWin].repr == old(windows[currentWin].repr)
        invariant |states| == |order| + 1 && Serving(w0, from, order, states)
        invariant SameLayout()
        invariant windows[currentWin] as object != this && this as object !in windows[currentWin].repr
        invariant UnusedStay(currentWin)
        invariant !more ==> T.Over(states[|order|], timeout)
        decreases more, WorkLeft()
      {
        more, order, states := ServeOne(w0, from, order, states);
      }
    }

    /** The schedule so far: `parts` are the partitions at the changes of window, `w0` the window last started. */
    ghost predicate Booked(t0: int, parts: seq<seq<M.Part>>, runs: seq<F.WindowRun>, exact: bool, w0: M.Win) {
      && F.CfgOk(cfg, |partitions|)
      && B.FrameTrace(cfg, t0, parts, runs) && B.AllClosed(parts[0], exact)
      && |parts[|runs|]| == |partitions|
      && P.Idle(w0) && M.WinShaped(w0) && F.Wired(w0, cfg[F.WindowAt(|cfg|, |runs|)], parts[|runs|])
    }

    lemma BookedMeans(t0: int, parts: seq<seq<M.Part>>, runs: seq<F.WindowRun>, exact: bool, w0: M.Win)
      requires Booked(t0, parts, runs, exact, w0)
      ensures |cfg| > 0 && |parts| == |runs| + 1 && P.Idle(w0) && M.WinShaped(w0) && |parts[|runs|]| == |partitions|
      ensures F.WinCfgOk(cfg[F.WindowAt(|cfg|, |runs|)], |partitions|)
      ensures F.WindowStart(cfg, t0, |runs|) < F.WindowStart(cfg, t0, |runs| + 1)
    {
      hide P.Idle, F.Wired, F.TracesWindow, B.AllClosed, F.AllRest, F.WindowAt, F.WinCfgOk;
      F.WindowIsOk(cfg, |partitions|, F.WindowAt(|cfg|, |runs|));
      B.LengthIsPositive(cfg[F.WindowAt(|cfg|, |runs|)], |partitions|);
    }

    /** The window which was served ends well. */
    lemma EndsWell(t0: int, parts: seq<seq<M.Part>>, runs: seq<F.WindowRun>, exact: bool, w0: M.Win, order: seq<nat>, states: seq<M.Win>)
      requires Booked(t0, parts, runs, exact, w0) && |cfg| > 0
      requires T.TimelyRun(w0, F.WindowStart(cfg, t0, |runs|), F.WindowStart(cfg, t0, |runs| + 1), order, states)
      requires T.Over(states[|order|], F.WindowStart(cfg, t0, |runs| + 1))
      ensures F.StopsWell(states[|order|], F.WindowStart(cfg, t0, |runs| + 1))
    {
      BookedMeans(t0, parts, runs, exact, w0);
      hide P.Idle, F.Wired, B.FrameTrace, B.AllClosed, F.AllRest, F.WindowAt, F.WinCfgOk, F.CfgOk, T.TimelyRun;
      hide T.Over, F.StopsWell, F.WindowStart, M.Shaped;
      B.TraceGoesOn(cfg, t0, parts, runs, exact, w0, order, states);
    }

    lemma NextBooked(t0: int, parts: seq<seq<M.Part>>, runs: seq<F.WindowRun>, exact: bool, w0: M.Win,
          order: seq<nat>, states: seq<M.Win>, mid: seq<M.Part>, next: M.Win)
        returns (run: F.WindowRun)
      requires Booked(t0, parts, runs, exact, w0) && |cfg| > 0
      requires var c, end := F.WindowAt(|cfg|, |runs|), F.WindowStart(cfg, t0, |runs| + 1);
               && T.TimelyRun(w0, F.WindowStart(cfg, t0, |runs|), end, order, states) && T.Over(states[|order|], end)
               && M.WinShaped(states[|order|]) && |mid| == |partitions|
               && F.WinCfgOk(cfg[c], |mid|) && F.Wired(M.Stop(states[|order|], end), cfg[c], mid)
               && (forall p :: 0 <= p < |partitions| && F.Unused(cfg[c], p) ==> mid[p] == parts[|runs|][p])
               && F.WinCfgOk(cfg[F.WindowAt(|cfg|, |runs| + 1)], |mid|) && F.Wired(next, cfg[F.WindowAt(|cfg|, |runs| + 1)], mid)
      requires P.Idle(next) && M.WinShaped(next)
      ensures Booked(t0, parts + [mid], runs + [run], exact, next)
    {
      BookedMeans(t0, parts, runs, exact, w0);
      hide P.Idle, F.Wired, B.AllClosed, F.AllRest, F.WindowAt, F.WinCfgOk, F.CfgOk, T.TimelyRun, T.Over;
      hide F.WindowStart, M.Shaped, F.Unused, M.Stop, B.FrameTrace;
      EndIs(t0, |runs|);
      run := B.ServedTraces(cfg[F.WindowAt(|cfg|, |runs|)], parts[|runs|], mid, F.WindowStart(cfg, t0, |runs|),
                            F.WindowStart(cfg, t0, |runs| + 1), w0, order, states);
      B.TraceExtends(cfg, t0, parts, runs, mid, run);
      BookedAgain(t0, parts, runs, exact, w0, mid, run, next);
    }

    lemma BookedAgain(t0: int, parts: seq<seq<M.Part>>, runs: seq<F.WindowRun>, exact: bool, w0: M.Win,
          mid: seq<M.Part>, run: F.WindowRun, next: M.Win)
      requires Booked(t0, parts, runs, exact, w0) && |mid| == |partitions| && |cfg| > 0 && |parts| == |runs| + 1
      requires B.FrameTrace(cfg, t0, parts + [mid], runs + [run])
      requires F.WinCfgOk(cfg[F.WindowAt(|cfg|, |runs| + 1)], |mid|) && F.Wired(next, cfg[F.WindowAt(|cfg|, |runs| + 1)], mid)
      requires P.Idle(next) && M.WinShaped(next)
      ensures Booked(t0, parts + [mid], runs + [run], exact, next)
    {
      hide P.Idle, F.Wired, B.AllClosed, F.WinCfgOk, F.CfgOk, M.Shaped, F.TracesWindow, F.AllRest, F.WindowAt, F.WindowStart;
      assert (parts + [mid])[0] == parts[0] && (parts + [mid])[|runs + [run]|] == mid;
    }

    /** The windows before and after the change are well configured. */
    lemma BothOk(t0: int, parts: seq<seq<M.Part>>, runs: seq<F.WindowRun>, exact: bool, w0: M.Win)
      requires Booked(t0, parts, runs, exact, w0) && |cfg| > 0
      ensures F.WinCfgOk(cfg[F.WindowAt(|cfg|, |runs|)], |partitions|) && F.WinCfgOk(cfg[F.WindowAt(|cfg|, |runs| + 1)], |partitions|)
    {
      hide P.Idle, F.Wired, B.FrameTrace, F.WindowAt, F.WinCfgOk;
      F.WindowIsOk(cfg, |partitions|, F.WindowAt(|cfg|, |runs|));
      F.WindowIsOk(cfg, |partitions|, F.WindowAt(|cfg|, |runs| + 1));
    }

    lemma OnTimeMeans()
      requires OnTime()
      ensures |cfg| > 0 && currentWin == F.WindowAt(|cfg|, changes) && timeout == F.WindowStart(cfg, began, changes + 1)
    {
    }

    lemma EndIs(t0: int, k: nat)
      requires |cfg| > 0
      ensures F.WindowStart(cfg, t0, k + 1) == F.WindowStart(cfg, t0, k) + M.Ms(cfg[F.WindowAt(|cfg|, k)].length)
    {
    }

    /** The window `w0` has just been started, and everything else is as it was at the change of window. */
    ghost predicate Underway(parts: seq<seq<M.Part>>, runs: seq<F.WindowRun>, exact: bool, w0: M.Win)
      reads this, windows, Reach()
    {
      && WindowRuns(currentWin) && OnTime() && changes == |runs|
      && Booked(began, parts, runs, exact, w0)
      && windows[currentWin].Snap() == M.Start(w0, F.WindowStart(cfg, began, |runs|))
      && |parts| == |runs| + 1 && |parts[|runs|]| == |partitions|
      && forall p :: 0 <= p < |partitions| && F.Unused(cfg[currentWin], p) ==> PartSnaps()[p] == parts[|runs|][p]
    }

    lemma UnderwayMeans(parts: seq<seq<M.Part>>, runs: seq<F.WindowRun>, exact: bool, w0: M.Win)
      requires Underway(parts, runs, exact, w0)
      ensures WindowRuns(currentWin) && OnTime() && currentWin < |windows| == |cfg| && windows[currentWin].Valid()
      ensures |parts| == |runs| + 1 && |parts[|runs|]| == |partitions| && changes == |runs| && |cfg| > 0
      ensures Booked(began, parts, runs, exact, w0) && P.Idle(w0) && M.WinShaped(w0)
      ensures timeout == F.WindowStart(cfg, began, |runs| + 1) && F.WindowStart(cfg, began, |runs|) < timeout
      ensures windows[currentWin].Snap() == M.Start(w0, F.WindowStart(cfg, began, |runs|))
      ensures currentWin == F.WindowAt(|cfg|, |runs|)
      ensures forall p :: 0 <= p < |partitions| && F.Unused(cfg[currentWin], p) ==> PartSnaps()[p] == parts[|runs|][p]
      ensures this as object !in Reach()
      ensures forall k :: 0 <= k < |windows| ==> windows[k] as object != this && this as object !in windows[k].repr
      ensures windows[currentWin].repr <= Reach()
    {
      hide P.Inv, P.Idle, M.Start, PartsOk, F.WindowAt, Booked, F.WindowStart, PartSnaps, F.Unused;
      RunsNotReached(currentWin);
      BookedMeans(began, parts, runs, exact, w0);
    }

    /** One window is served and the next one started. */
    method ServeNext(ghost parts: seq<seq<M.Part>>, ghost runs: seq<F.WindowRun>, ghost exact: bool, ghost w0: M.Win)
      returns (ghost parts': seq<seq<M.Part>>, ghost runs': seq<F.WindowRun>, ghost next: M.Win)
      requires Underway(parts, runs, exact, w0)
      modifies this, windows, Reach()
      ensures Underway(parts', runs', exact, next) && SameLayout() && began == old(began)
      ensures |runs'| == |runs| + 1 && |parts'| == |runs'| + 1 && |parts| > 0 && parts'[0] == parts[0]
    {
      hide P.Idle, M.Start, M.Stop, F.WindowAt, F.WindowStart, F.Wired, F.CfgOk, F.WinCfgOk, F.Unused, Booked;
      hide WindowRuns, OnTime, Reach, PartSnaps, T.TimelyRun, T.Over, F.StopsWell, Serving, Underway, M.Shaped;
      UnderwayMeans(parts, runs, exact, w0);
      ghost var order, states := ServeWindow(w0, F.WindowStart(cfg, began, |runs|));
      SameReach();
      ServingMeans(w0, F.WindowStart(cfg, began, |runs|), order, states);
      EndsWell(began, parts, runs, exact, w0, order, states);
      FitsAtEnd(states[|order|], timeout);
      var late;
      ghost var mid;
      BothOk(began, parts, runs, exact, w0);
      late, mid, next := TimeoutCb();
      OnTimeMeans();
      ghost var run := NextBooked(began, parts, runs, exact, w0, order, states, mid, next);
      parts', runs' := parts + [mid], runs + [run];
      UnderwayAgain(parts, runs, exact, mid, run, next);
    }

    lemma UnderwayAgain(parts: seq<seq<M.Part>>, runs: seq<F.WindowRun>, exact: bool, mid: seq<M.Part>, run: F.WindowRun, next: M.Win)
      requires |parts| == |runs| + 1 && |mid| == |partitions| && |cfg| > 0
      requires WindowRuns(currentWin) && OnTime() && changes == |runs| + 1
      requires Booked(began, parts + [mid], runs + [run], exact, next) && M.WinShaped(next)
      requires windows[currentWin].Valid()
      requires windows[currentWin].Snap() == M.Start(next, F.WindowStart(cfg, began, |runs| + 1))
      requires forall p :: 0 <= p < |partitions| && F.Unused(cfg[currentWin], p) ==> PartSnaps()[p] == mid[p]
      ensures Underway(parts + [mid], runs + [run], exact, next)
    {
      hide Booked, P.Inv, M.Start, F.WindowStart, PartSnaps, F.Unused, PartsOk, OnTime;
      RunsNotReached(currentWin);
    }

    lemma FitsAtEnd(w: M.Win, end: int)
      requires F.StopsWell(w, end)
      ensures M.WinShaped(w) && forall i :: 0 <= i < |w.slices| ==> P.StopFits(w.slices[i], end)
    {
    }

    lemma BookedAtFirst(parts: seq<M.Part>, exact: bool, w0: M.Win)
      requires |cfg| > 0 && F.CfgOk(cfg, |partitions|) && |parts| == |partitions| && F.AllRest(parts) && B.AllClosed(parts, exact)
      requires F.WinCfgOk(cfg[0], |parts|) && P.Idle(w0) && M.WinShaped(w0) && F.Wired(w0, cfg[0], parts)
      ensures Booked(began, [parts], [], exact, w0)
    {
      hide P.Idle, F.Wired, B.AllClosed, F.WinCfgOk, F.CfgOk, M.Shaped, F.AllRest;
      assert F.WindowAt(|cfg|, 0) == 0;
    }

    lemma UnderwayAtFirst(parts: seq<M.Part>, exact: bool, w0: M.Win)
      requires WindowRuns(currentWin) && OnTime() && changes == 0 && currentWin < |windows| && windows[currentWin].Valid()
      requires Booked(began, [parts], [], exact, w0) && |parts| == |partitions| && M.WinShaped(w0)
      requires windows[currentWin].Snap() == M.Start(w0, began)
      requires forall p :: 0 <= p < |partitions| && F.Unused(cfg[currentWin], p) ==> PartSnaps()[p] == parts[p]
      ensures Underway([parts], [], exact, w0)
    {
      hide Booked, P.Inv, M.Start, PartSnaps, F.Unused, PartsOk, OnTime;
      RunsNotReached(currentWin);
      BeganAt();
    }

    lemma BeganAt()
      requires |cfg| > 0
      ensures F.WindowStart(cfg, began, 0) == began && F.WindowAt(|cfg|, 0) == 0
    {
    }

    lemma StoppedRests()
      requires Stopped()
      ensures F.AllRest(PartSnaps()) && |cfg| == |windows| > 0 && F.CfgOk(cfg, |partitions|)
      ensures forall c :: 0 <= c < |cfg| ==> F.WinCfgOk(cfg[c], |partitions|)
    {
      hide P.Quiet, M.PartOk, F.WinCfgOk, WindowWired;
      StoppedNotReached();
      forall p | 0 <= p < |partitions|
        ensures T.Rests(PartSnaps()[p])
      {
        assert partitions[p].Valid() && P.Quiet(partitions[p].Snap());
      }
    }

    /**
     * The schedule from its beginning over `n` windows, if nothing but time passes and no budget
     * is random: no assertion fails, and it is one of the runs which the time table determines.
     */
    method Serve(t: int, n: nat, ghost exact: bool) returns (ghost parts: seq<seq<M.Part>>, ghost runs: seq<F.WindowRun>)
      requires Stopped() && currentWin == 0 && changes == 0 && t == began && B.AllClosed(PartSnaps(), exact)
      modifies this, windows, Reach()
      ensures |runs| == n && |parts| == n + 1 && parts[0] == old(PartSnaps())
      ensures F.FrameRun(cfg, old(began), parts, runs)
      ensures F.CfgOk(cfg, |parts[0]|) && F.TableAfter(cfg, parts[0], old(began), n) == Some(parts[n])
      ensures WindowRuns(currentWin) && OnTime() && changes == n
    {
      hide P.Idle, M.Start, F.WindowAt, F.WindowStart, F.Wired, F.CfgOk, F.WinCfgOk, F.Unused, Booked, WindowRuns;
      hide OnTime, Reach, PartSnaps, Stopped, Underway, M.Shaped, B.AllClosed, F.AllRest, F.FrameRun, F.TableAfter;
      ghost var w0;
      parts, runs, w0 := Begin(t, exact);
      var k := 0;
      while k < n
        invariant k == |runs| <= n && |parts| == k + 1 && parts[0] == old(PartSnaps()) && began == old(began)
        invariant Underway(parts, runs, exact, w0) && SameLayout()
      {
        SameReach();
        parts, runs, w0 := ServeNext(parts, runs, exact, w0);
        k := k + 1;
      }
      UnderwayMeans(parts, runs, exact, w0);
      BookedIsRun(began, parts, runs, exact, w0);
    }

    lemma BookedIsRun(t0: int, parts: seq<seq<M.Part>>, runs: seq<F.WindowRun>, exact: bool, w0: M.Win)
      requires Booked(t0, parts, runs, exact, w0)
      ensures F.FrameRun(cfg, t0, parts, runs)
      ensures |parts| == |runs| + 1 && F.CfgOk(cfg, |parts[0]|) && F.TableAfter(cfg, parts[0], t0, |runs|) == Some(parts[|runs|])
    {
      hide P.Idle, F.Wired, F.TracesWindow, B.AllClosed, F.AllRest, F.WindowAt, F.WinCfgOk, F.TableAfter, F.FrameRun, F.CfgOk;
      B.TraceIsRun(cfg, t0, parts, runs, exact);
    }

    /** The first window is started. */
    method Begin(t: int, ghost exact: bool) returns (ghost parts: seq<seq<M.Part>>, ghost runs: seq<F.WindowRun>, ghost w0: M.Win)
      requires Stopped() && currentWin == 0 && changes == 0 && t == began && B.AllClosed(PartSnaps(), exact)
      modifies this, windows, Reach()
      ensures Underway(parts, runs, exact, w0) && runs == [] && |parts| == 1 && parts[0] == old(PartSnaps())
      ensures SameLayout() && began == old(began)
    {
      hide P.Idle, M.Start, F.WindowAt, F.WindowStart, F.Wired, F.CfgOk, F.WinCfgOk, F.Unused, Booked, WindowRuns;
      hide OnTime, Reach, PartSnaps, Stopped, Underway, M.Shaped, B.AllClosed, F.AllRest;
      StoppedRests();
      StoppedNotReached();
      BeganAt();
      parts, runs := [PartSnaps()], [];
      w0 := NextWindow();
      RestingStart();
      BookedAtFirst(parts[0], exact, w0);
      Start(t);
      UnderwayAtFirst(parts[0], exact, w0);
    }

    /** The window about to start is idle and holds its partitions. */
    lemma RestingStart()
      requires Stopped() && currentWin < |windows|
      ensures |windows| == |cfg| && windows[currentWin].Valid() && P.Idle(windows[currentWin].Snap()) && M.WinShaped(windows[currentWin].Snap())
      ensures F.WinCfgOk(cfg[currentWin], |partitions|) && F.Wired(windows[currentWin].Snap(), cfg[currentWin], PartSnaps())
    {
      hide P.Idle, F.Wired, F.WinCfgOk, M.Shaped;
      StoppedRests();
      RestingIsIdle(currentWin);
      WiredSnaps(currentWin);
    }
  }
}
