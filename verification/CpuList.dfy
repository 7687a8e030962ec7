/**
 * CPU lists such as "0-3,5,8-16:2": the printer, which writes into a buffer of limited size, and
 * the parser, which accepts more than it should and may wrap around.
 */
module CpuList {
  // ----- Decimal numbers -----

  const ULONG_MAX := 0xFFFF_FFFF_FFFF_FFFF

  predicate IsDigit(c: char) {
    '0' <= c <= '9'
  }

  predicate AllDigits(s: string) {
    forall k :: 0 <= k < |s| ==> IsDigit(s[k])
  }

  /** How many digits the text starts with. */
  function DigitCount(s: string): (n: nat)
    ensures n <= |s| && AllDigits(s[..n]) && (n < |s| ==> !IsDigit(s[n]))
  {
    if s == "" || !IsDigit(s[0]) then 0 else 1 + DigitCount(s[1..])
  }

  function Value(s: string): nat
    requires AllDigits(s)
  {
    if s == "" then 0 else 10 * Value(s[..|s| - 1]) + (s[|s| - 1] as int - '0' as int)
  }

  function Decimal(n: nat): (s: string)
    ensures |s| > 0 && AllDigits(s) && Value(s) == n
  {
    var d := ['0' + (n % 10) as char];
    if n < 10 then d
    else
      var s := Decimal(n / 10) + d;
      assert s[..|s| - 1] == Decimal(n / 10);
      s
  }

  /** `m` decimal digits are enough for what is below the power of ten `p`. */
  lemma {:induction false} DecimalLength(n: nat, m: nat, p: nat)
    requires m > 0 && p == Power(m) && n < p
    ensures |Decimal(n)| <= m
  {
    if n >= 10 {
      DecimalLength(n / 10, m - 1, Power(m - 1));
    }
  }

  function Power(m: nat): nat {
    if m == 0 then 1 else 10 * Power(m - 1)
  }

  // ----- Sets of CPUs -----

  /** The CPUs of a bit set. */
  function Cpus(bits: seq<bool>): (r: set<nat>)
    ensures forall x :: x in r <==> 0 <= x < |bits| && bits[x]
  {
    set x: nat | x < |bits| && bits[x]
  }

  // ----- Printing -----

  /** How many bits are set in a row from `i` on. */
  function RunLength(bits: seq<bool>, i: nat): (n: nat)
    requires i <= |bits|
    ensures i + n <= |bits|
    ensures forall k :: i <= k < i + n ==> bits[k]
    ensures i + n < |bits| ==> !bits[i + n]
    decreases |bits| - i
  {
    if i == |bits| || !bits[i] then 0 else 1 + RunLength(bits, i + 1)
  }

  /** The entry for a run of set bits from `i` on, of which `run` follow the first. */
  function EntryText(i: nat, run: nat): string {
    if run == 0 then Decimal(i) + ","
    else if run == 1 then Decimal(i) + "," + Decimal(i + 1) + ","
    else Decimal(i) + "-" + Decimal(i + run) + ","
  }

  /** What is printed for the bits from `i` on, before the last comma is cut off. */
  function Printed(bits: seq<bool>, i: nat): string
    requires i <= |bits|
    decreases |bits| - i
  {
    if i == |bits| then ""
    else if !bits[i] then Printed(bits, i + 1)
    else
      var run := RunLength(bits, i + 1);
      EntryText(i, run) + Printed(bits, i + 1 + run)
  }

  function Cut(s: string): string {
    if s == "" then s else s[..|s| - 1]
  }

  function Min(a: nat, b: nat): nat {
    if a < b then a else b
  }

  /** Prints at `at` what fits, leaving place for the end mark; tells how long the text is. */
  method Snprintf(buf: array<char>, at: nat, len: nat, text: string) returns (rlen: nat)
    requires at + len == buf.Length
    modifies buf
    ensures rlen == |text|
    ensures buf[..at] == old(buf[..at])
    ensures len > 0 ==> var n := Min(|text|, len - 1); buf[at..at + n] == text[..n] && buf[at + n] == '\0'
  {
    rlen := |text|;
    if len == 0 {
      return;
    }
    var n := Min(|text|, len - 1);
    var k := 0;
    while k < n
      invariant k <= n
      invariant buf[..at] == old(buf[..at]) && buf[at..at + k] == text[..k]
    {
      buf[at + k] := text[k];
      k := k + 1;
    }
    buf[at + n] := '\0';
  }

  /** How many set bits follow bit `i` without a gap. */
  method CountRun(cpus: array<bool>, i: nat) returns (run: nat)
    requires i < cpus.Length
    ensures run == RunLength(cpus[..], i + 1)
  {
    var j := i + 1;
    run := 0;
    while j < cpus.Length && cpus[j]
      invariant i < j <= cpus.Length && j == i + 1 + run
      invariant RunLength(cpus[..], i + 1) == run + RunLength(cpus[..], j)
    {
      run := run + 1;
      j := j + 1;
    }
  }

  /** One entry is printed behind the text which the buffer holds already; fails if it does not fit. */
  method Append(buf: array<char>, ptr: nat, entry: string) returns (ok: bool)
    requires ptr < buf.Length
    modifies buf
    ensures ok == (ptr + |entry| < buf.Length)
    ensures ok ==> buf[..ptr + |entry|] == old(buf[..ptr]) + entry
    ensures !ok ==> buf[..] == (old(buf[..ptr]) + entry)[..buf.Length - 1] + ['\0']
  {
    ghost var before := buf[..ptr];
    var rlen := Snprintf(buf, ptr, buf.Length - ptr, entry);
    ok := rlen < buf.Length - ptr;
    if ok {
      assert buf[..ptr + rlen] == buf[..ptr] + buf[ptr..ptr + rlen];
    } else {
      LastIs(buf[..], ptr);
      assert buf[..][..ptr] == buf[..ptr] && buf[..][ptr..buf.Length - 1] == buf[ptr..buf.Length - 1];
      CutBehind(before, entry, buf.Length - 1);
    }
  }

  lemma LastIs(s: string, n: nat)
    requires n < |s|
    ensures s == s[..n] + s[n..|s| - 1] + [s[|s| - 1]]
  {
  }

  lemma CutBehind(a: string, b: string, n: nat)
    requires |a| <= n <= |a| + |b|
    ensures (a + b)[..n] == a + b[..n - |a|]
  {
  }

  /**
   * Succeeds iff the text with its last comma fits; then the buffer holds the text without it.
   * Otherwise the buffer holds as much of the text as fits.
   */
  method CpulistCreate(buf: array<char>, cpus: array<bool>) returns (ok: bool)
    requires buf.Length > 0
    modifies buf
    ensures var text := Printed(old(cpus[..]), 0);
            && ok == (|text| < buf.Length)
            && (ok ==> buf[..|Cut(text)| + 1] == Cut(text) + ['\0'])
            && (!ok ==> buf[..] == text[..buf.Length - 1] + ['\0'])
  {
    ghost var bits := cpus[..];
    ghost var text := Printed(bits, 0);
    PrintedEnds(bits);
    hide EntryText, Printed, RunLength, Decimal, Cut;
    var ptr, entryMade, i := 0, 0, 0;
    while i < cpus.Length
      invariant i <= cpus.Length && 0 <= ptr < buf.Length
      invariant text == buf[..ptr] + Printed(bits, i)
      invariant entryMade == if ptr == 0 then 0 else 1
    {
      if cpus[i] {
        entryMade := 1;
        var run := CountRun(cpus, i);
        var fits := AppendRun(buf, ptr, i, run, text, bits);
        if !fits {
          return false;
        }
        ptr := ptr + |EntryText(i, run)|;
        i := i + run;
      } else {
        PrintedUnfolds(bits, i);
      }
      i := i + 1;
    }
    assert text == buf[..ptr];
    EndText(buf, ptr - entryMade, text, entryMade);
    ok := true;
  }

  /** The entry for a run of bits from `i` on is printed, of which `text` holds what is printed in the end. */
  method AppendRun(buf: array<char>, ptr: nat, i: nat, run: nat, ghost text: string, ghost bits: seq<bool>) returns (fits: bool)
    requires ptr < buf.Length && i < |bits| && bits[i] && run == RunLength(bits, i + 1)
    requires text == buf[..ptr] + Printed(bits, i)
    modifies buf
    ensures fits ==> ptr < ptr + |EntryText(i, run)| < buf.Length
    ensures fits ==> text == buf[..ptr + |EntryText(i, run)|] + Printed(bits, i + 1 + run)
    ensures !fits ==> |text| >= buf.Length && buf[..] == text[..buf.Length - 1] + ['\0']
  {
    hide EntryText, Printed, RunLength;
    PrintedNext(text, buf[..ptr], bits, i, buf.Length - 1);
    fits := Append(buf, ptr, EntryText(i, run));
  }

  /** The end mark takes the place of the last comma. */
  method EndText(buf: array<char>, at: nat, ghost text: string, ghost entryMade: nat)
    requires at + entryMade < buf.Length && text == buf[..at + entryMade]
    requires entryMade == if |text| == 0 then 0 else 1
    modifies buf
    ensures buf[..|Cut(text)| + 1] == Cut(text) + ['\0']
  {
    CutIs(text, entryMade);
    hide Cut;
    buf[at] := '\0';
  }

  lemma PrintedUnfolds(bits: seq<bool>, i: nat)
    requires i < |bits|
    ensures if !bits[i] then Printed(bits, i) == Printed(bits, i + 1)
            else
              var run := RunLength(bits, i + 1);
              Printed(bits, i) == EntryText(i, run) + Printed(bits, i + 1 + run) && |EntryText(i, run)| > 0
  {
  }

  /** What is still to be printed behind `done`: from the next bit on, or an entry and what follows its run. */
  lemma PrintedNext(text: string, done: string, bits: seq<bool>, i: nat, n: nat)
    requires i < |bits| && text == done + Printed(bits, i)
    ensures if !bits[i] then text == done + Printed(bits, i + 1)
            else
              var run := RunLength(bits, i + 1);
              var more := done + EntryText(i, run);
              && text == more + Printed(bits, i + 1 + run) && |EntryText(i, run)| > 0
              && (n <= |more| ==> text[..n] == more[..n])
  {
    hide Printed, EntryText, RunLength;
    PrintedUnfolds(bits, i);
    if bits[i] {
      var run := RunLength(bits, i + 1);
      var e, rest := EntryText(i, run), Printed(bits, i + 1 + run);
      assert text == done + (e + rest);
      Regroup(done, e, rest, n);
    }
  }

  /** Whoever prints `a` and then `b` has printed the start of the whole text. */
  lemma Regroup(a: string, b: string, c: string, n: nat)
    ensures a + (b + c) == (a + b) + c
    ensures n <= |a + b| ==> (a + (b + c))[..n] == (a + b)[..n]
  {
  }

  lemma PrintedEnds(bits: seq<bool>)
    ensures Printed(bits, |bits|) == ""
  {
  }

  lemma CutIs(text: string, entryMade: nat)
    requires entryMade == if |text| == 0 then 0 else 1
    ensures Cut(text) == text[..|text| - entryMade]
  {
  }

  // ----- The form of the text -----

  /** CPUs `lo` to `hi` are set, and their neighbours are not. */
  ghost predicate Maximal(bits: seq<bool>, lo: nat, hi: nat) {
    && lo <= hi < |bits| && (forall x :: lo <= x <= hi ==> bits[x])
    && (lo > 0 ==> !bits[lo - 1]) && (hi + 1 < |bits| ==> !bits[hi + 1])
  }

  /** The runs of the set, in ascending order, and all of them. */
  ghost predicate AreRuns(bits: seq<bool>, from: nat, runs: seq<(nat, nat)>) {
    && (forall k :: 0 <= k < |runs| ==> from <= runs[k].0 && Maximal(bits, runs[k].0, runs[k].1))
    && (forall k, l :: 0 <= k < l < |runs| ==> runs[k].1 < runs[l].0)
    && (forall x :: from <= x < |bits| && bits[x] ==> exists k :: 0 <= k < |runs| && runs[k].0 <= x <= runs[k].1)
  }

  /** A lone CPU and two neighbours are written as numbers, longer runs as a range. */
  function TextOfRun(lo: nat, hi: nat): string {
    if hi == lo then Decimal(lo)
    else if hi == lo + 1 then Decimal(lo) + "," + Decimal(hi)
    else Decimal(lo) + "-" + Decimal(hi)
  }

  /** With commas in between. */
  function Joined(runs: seq<(nat, nat)>): string {
    if |runs| == 0 then ""
    else if |runs| == 1 then TextOfRun(runs[0].0, runs[0].1)
    else TextOfRun(runs[0].0, runs[0].1) + "," + Joined(runs[1..])
  }

  lemma RunIs(bits: seq<bool>, i: nat)
    requires i < |bits| && bits[i] && (i > 0 ==> !bits[i - 1])
    ensures var hi := i + RunLength(bits, i + 1);
            Maximal(bits, i, hi) && EntryText(i, hi - i) == TextOfRun(i, hi) + "," && |TextOfRun(i, hi)| > 0
  {
    hide Decimal;
  }

  lemma NextRuns(bits: seq<bool>, i: nat, hi: nat, runs: seq<(nat, nat)>)
    requires Maximal(bits, i, hi) && AreRuns(bits, hi + 1, runs)
    ensures AreRuns(bits, i, [(i, hi)] + runs)
  {
    var all := [(i, hi)] + runs;
    assert forall k :: 1 <= k < |all| ==> all[k] == runs[k - 1];
    forall x | i <= x < |bits| && bits[x]
      ensures exists k :: 0 <= k < |all| && all[k].0 <= x <= all[k].1
    {
      if x <= hi {
        assert all[0].0 <= x <= all[0].1;
      } else {
        var k :| 0 <= k < |runs| && runs[k].0 <= x <= runs[k].1;
        assert all[k + 1].0 <= x <= all[k + 1].1;
      }
    }
  }

  lemma JoinedNext(lo: nat, hi: nat, runs: seq<(nat, nat)>)
    ensures Joined([(lo, hi)] + runs) == if runs == [] then TextOfRun(lo, hi) else TextOfRun(lo, hi) + "," + Joined(runs)
  {
    hide TextOfRun;
    assert ([(lo, hi)] + runs)[1..] == runs;
  }

  lemma {:induction false} PrintedRuns(bits: seq<bool>, i: nat) returns (runs: seq<(nat, nat)>)
    requires i <= |bits| && (0 < i < |bits| && bits[i] ==> !bits[i - 1])
    ensures AreRuns(bits, i, runs)
    ensures Printed(bits, i) == if runs == [] then "" else Joined(runs) + ","
    decreases |bits| - i
  {
    hide TextOfRun, EntryText, RunLength, Decimal, Printed, AreRuns, Joined, Maximal;
    if i == |bits| {
      PrintedEnds(bits);
      NoRuns(bits, i, []);
      runs := [];
    } else if !bits[i] {
      PrintedUnfolds(bits, i);
      runs := PrintedRuns(bits, i + 1);
      NoRuns(bits, i, runs);
    } else {
      PrintedUnfolds(bits, i);
      RunIs(bits, i);
      var run := RunLength(bits, i + 1);
      var rest := PrintedRuns(bits, i + 1 + run);
      NextRuns(bits, i, i + run, rest);
      JoinedNext(i, i + run, rest);
      JoinText(TextOfRun(i, i + run), Joined(rest), rest == []);
      runs := [(i, i + run)] + rest;
    }
  }

  lemma NoRuns(bits: seq<bool>, i: nat, runs: seq<(nat, nat)>)
    requires i <= |bits|
    ensures i == |bits| && runs == [] ==> AreRuns(bits, i, runs)
    ensures i < |bits| && !bits[i] && AreRuns(bits, i + 1, runs) ==> AreRuns(bits, i, runs)
  {
    if i < |bits| && !bits[i] && AreRuns(bits, i + 1, runs) {
      forall x | i <= x < |bits| && bits[x]
        ensures exists k :: 0 <= k < |runs| && runs[k].0 <= x <= runs[k].1
      {
        assert i + 1 <= x;
      }
    }
  }

  lemma JoinText(a: string, b: string, alone: bool)
    ensures (a + ",") + (if alone then "" else b + ",") == (if alone then a else a + "," + b) + ","
  {
  }

  /**
   * The printed text: the maximal runs of the set in ascending order, separated by commas, where a
   * lone CPU and a pair of neighbours are spelled out and a longer run is a range.
   */
  lemma PrintedForm(bits: seq<bool>) returns (runs: seq<(nat, nat)>)
    ensures AreRuns(bits, 0, runs) && Cut(Printed(bits, 0)) == Joined(runs)
  {
    hide Printed;
    runs := PrintedRuns(bits, 0);
    if runs == [] {
      assert Joined(runs) == "";
    } else {
      assert (Joined(runs) + ",")[..|Joined(runs)|] == Joined(runs);
    }
  }

  /** And there is only one such list of runs. */
  lemma {:induction false} RunsAreUnique(bits: seq<bool>, from: nat, a: seq<(nat, nat)>, b: seq<(nat, nat)>)
    requires AreRuns(bits, from, a) && AreRuns(bits, from, b)
    ensures a == b
    decreases |a|
  {
    hide AreRuns, Maximal;
    FirstSet(bits, from, a);
    FirstSet(bits, from, b);
    if a != [] {
      SameEnd(bits, a[0].0, a[0].1, b[0].1);
      RestOfRuns(bits, from, a);
      RestOfRuns(bits, from, b);
      RunsAreUnique(bits, a[0].1 + 1, a[1..], b[1..]);
    }
  }

  lemma RestOfRuns(bits: seq<bool>, from: nat, a: seq<(nat, nat)>)
    requires AreRuns(bits, from, a) && a != []
    ensures AreRuns(bits, a[0].1 + 1, a[1..])
  {
    var rest := a[1..];
    assert forall k :: 0 <= k < |rest| ==> rest[k] == a[k + 1];
    forall x | a[0].1 + 1 <= x < |bits| && bits[x]
      ensures exists k :: 0 <= k < |rest| && rest[k].0 <= x <= rest[k].1
    {
      assert from <= a[0].0 <= a[0].1;
      var k :| 0 <= k < |a| && a[k].0 <= x <= a[k].1;
      assert k > 0 && rest[k - 1].0 <= x <= rest[k - 1].1;
    }
  }

  /** The list is empty iff nothing is set; otherwise it starts with the first CPU. */
  lemma FirstSet(bits: seq<bool>, from: nat, a: seq<(nat, nat)>)
    requires AreRuns(bits, from, a)
    ensures a == [] <==> forall x :: from <= x < |bits| ==> !bits[x]
    ensures a != [] ==> from <= a[0].0 <= a[0].1 < |bits| && bits[a[0].0] && Maximal(bits, a[0].0, a[0].1) &&
                        forall x :: from <= x < a[0].0 ==> !bits[x]
  {
    if a != [] {
      assert Maximal(bits, a[0].0, a[0].1) && bits[a[0].0];
      forall x | from <= x < a[0].0
        ensures !bits[x]
      {
        forall k | 0 <= k < |a|
          ensures !(a[k].0 <= x <= a[k].1)
        {
          assert Maximal(bits, a[0].0, a[0].1);
          assert k > 0 ==> a[0].1 < a[k].0;
        }
      }
    }
  }

  lemma SameEnd(bits: seq<bool>, lo: nat, h: nat, k: nat)
    requires Maximal(bits, lo, h) && Maximal(bits, lo, k)
    ensures h == k
  {
    var x := if h < k then h + 1 else k + 1;
    assert lo <= x;
  }

  // ----- How long the text is -----

  lemma {:induction false} PrintedLength(bits: seq<bool>, i: nat)
    requires i <= |bits| <= 1_000_000
    ensures |Printed(bits, i)| <= 7 * (|bits| - i)
    decreases |bits| - i
  {
    if i < |bits| {
      PrintedUnfolds(bits, i);
      hide Printed, EntryText, RunLength;
      if !bits[i] {
        PrintedLength(bits, i + 1);
      } else {
        var run := RunLength(bits, i + 1);
        PrintedLength(bits, i + 1 + run);
        EntryLength(i, run);
      }
    }
  }

  lemma EntryLength(i: nat, run: nat)
    requires i + run < 1_000_000
    ensures |EntryText(i, run)| <= 7 * (run + 1)
  {
    SixDigits(i);
    SixDigits(i + run);
    hide Decimal;
  }

  lemma SixDigits(n: nat)
    requires n < 1_000_000
    ensures |Decimal(n)| <= 6
  {
    assert Power(6) == 1_000_000;
    DecimalLength(n, 6, Power(6));
  }

  /** A buffer of seven characters per bit is always large enough for up to a million bits. */
  lemma SevenPerBit(bits: seq<bool>)
    requires 0 < |bits| <= 1_000_000
    ensures |Printed(bits, 0)| < 7 * |bits|
  {
    if !bits[0] {
      PrintedLength(bits, 1);
    } else {
      var run := RunLength(bits, 1);
      PrintedLength(bits, 1 + run);
      SixDigits(run);
      assert |Decimal(0)| == 1;
    }
  }

  /** The first two of every three of 64 CPUs. */
  function TwoOfThree(): (r: seq<bool>)
    ensures |r| == 64 && forall i :: 0 <= i < 64 ==> r[i] == (i % 3 != 2)
  {
    seq(64, i => i % 3 != 2)
  }

  lemma {:induction false} TwoOfThreeLength(k: nat)
    requires k <= 21
    ensures |Printed(TwoOfThree(), 3 * k)| == 3 + 6 * (21 - k) - (if k <= 3 then 7 - 2 * k else 0)
    decreases 21 - k
  {
    var bits := TwoOfThree();
    var i := 3 * k;
    PrintedUnfolds(bits, i);
    OneOrTwoDigits(i);
    if k < 21 {
      TwoOfThreeLength(k + 1);
      OneOrTwoDigits(i + 1);
      TwoOfThreeAt(k);
      assert RunLength(bits, i + 1) == 1;
      PrintedUnfolds(bits, i + 2);
    } else {
      TwoOfThreeAt(k);
      assert RunLength(bits, 64) == 0;
      PrintedEnds(bits);
    }
    hide Printed, Decimal, RunLength;
  }

  lemma TwoOfThreeAt(k: nat)
    requires 3 * k < 64
    ensures TwoOfThree()[3 * k]
    ensures k < 21 ==> TwoOfThree()[3 * k + 1] && !TwoOfThree()[3 * k + 2]
  {
    assert (3 * k) % 3 == 0 && (3 * k + 1) % 3 == 1 && (3 * k + 2) % 3 == 2;
  }

  lemma OneOrTwoDigits(n: nat)
    requires n < 100
    ensures |Decimal(n)| == if n < 10 then 1 else 2
  {
  }

  /** The buffer of 100 characters which `as_list` uses is too small for this set. */
  lemma AsListTruncates()
    ensures |Printed(TwoOfThree(), 0)| == 122
    ensures |Cut(Printed(TwoOfThree(), 0))| + 1 > 100
  {
    TwoOfThreeLength(0);
  }
}
