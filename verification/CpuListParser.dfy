/**
 * The parser of CPU lists: what it reads from any text, and that it reads a well-formed list, in
 * particular a printed one, as the set the list denotes.
 */
module CpuListParser {
  import opened Options
  import opened CpuList
  import opened RangeLoop

  // ----- One entry -----

  /** The place of the first `c`, or the end of the text. */
  function Index(s: string, c: char): (n: nat)
    ensures n <= |s| && c !in s[..n] && (n < |s| ==> s[n] == c)
  {
    if s == "" || s[0] == c then 0 else 1 + Index(s[1..], c)
  }

  /** `nextnumber`: the number at the start of the text, cut to 32 bits, and the rest of the text. */
  function Read(s: string): (r: Option<(nat, string)>)
    ensures r.Some? ==> r.value.0 <= UINT_MAX && |r.value.1| < |s|
  {
    var n := DigitCount(s);
    if n == 0 || Value(s[..n]) > ULONG_MAX then None
    else Some((Value(s[..n]) % (UINT_MAX + 1), s[n..]))
  }

  /** A range with a stride; `tail` is what follows the last number read. */
  datatype Reading = Bad | Entry(a: nat, b: nat, s: nat, tail: string)

  predicate Proper(r: Reading) {
    r.Entry? ==> r.s > 0 && r.a <= UINT_MAX && r.b <= UINT_MAX && r.s <= UINT_MAX
  }

  /** The rest of an entry behind the end of its range. */
  function ReadStride(a: nat, b: nat, u: string): (r: Reading)
    ensures a <= UINT_MAX && b <= UINT_MAX ==> Proper(r)
  {
    var c := Index(u, ':');
    if c == |u| then Entry(a, b, 1, u)
    else
      match Read(u[c + 1..])
      case None => Bad
      case Some((s, v)) => if s == 0 then Bad else Entry(a, b, s, v)
  }

  /** The rest of an entry behind its first number. */
  function ReadRange(a: nat, t: string): (r: Reading)
    ensures a <= UINT_MAX ==> Proper(r)
  {
    var d := Index(t, '-');
    if d == |t| then Entry(a, a, 1, t)
    else
      match Read(t[d + 1..])
      case None => Bad
      case Some((b, u)) => ReadStride(a, b, u)
  }

  /** What is read from the text between two commas: anything between the numbers is passed over. */
  function ReadEntry(token: string): (r: Reading)
    ensures Proper(r)
  {
    match Read(token)
    case None => Bad
    case Some((a, t)) => ReadRange(a, t)
  }

  // ----- A list -----

  /** The CPUs read and the return code, 1 for a malformed list and 2 for a CPU out of bounds; or nothing, ever. */
  datatype Outcome = Returns(cpus: set<nat>, rc: int) | Endless

  /** What is made of any text, for sets of `n` CPUs. */
  ghost function Parse(text: string, cpus: set<nat>, n: nat, fail: bool): Outcome
    decreases |text|
  {
    var k := Index(text, ',');
    match ReadEntry(text[..k])
    case Bad => Returns(cpus, 1)
    case Entry(a, b, s, tail) =>
      if a > b then Returns(cpus, 1)
      else if !Ends(a, b, s, n, fail) then Endless
      else
        var (visited, through) := Walk(a, b, s, n, fail);
        var all := cpus + Below(visited, n);
        if !through then Returns(all, 2)
        else if k == |text| then Returns(all, if tail == "" then 0 else 1)
        else Parse(text[k + 1..], all, n, fail)
  }

  /** Every entry up to the first malformed one has a loop which ends, by the condition of `EndsIff`. */
  predicate AllBounded(text: string)
    decreases |text|
  {
    var k := Index(text, ',');
    var e := ReadEntry(text[..k]);
    e.Entry? && e.a <= e.b ==> Top(e.a, e.s) > e.b && (k < |text| ==> AllBounded(text[k + 1..]))
  }

  /** If CPUs need not fit, the parser returns iff these loops end. */
  lemma {:induction false} ReturnsIff(text: string, cpus: set<nat>, n: nat)
    ensures Parse(text, cpus, n, false).Returns? <==> AllBounded(text)
    decreases |text|
  {
    hide ReadEntry, Index, Walk, Ends, Top, Below;
    var k := Index(text, ',');
    var e := ReadEntry(text[..k]);
    if e.Entry? && e.a <= e.b {
      EndsIff(e.a, e.b, e.s, n, false);
      if Ends(e.a, e.b, e.s, n, false) {
        SameWalk(e.a, e.b, e.s, n, n);
        if k < |text| {
          ReturnsIff(text[k + 1..], cpus + Below(Walk(e.a, e.b, e.s, n, false).0, n), n);
        }
      }
    }
  }

  /** The counter leaves the range, and no CPU before that is out of bounds. */
  ghost predicate GetsThrough(a: nat, b: nat, s: nat, n: nat) {
    exists k: nat :: Round(a, s, k) > b && forall i: nat :: i < k ==> Round(a, s, i) < n
  }

  lemma ThroughIff(a: nat, b: nat, s: nat, n: nat)
    requires Ends(a, b, s, n, true)
    ensures Walk(a, b, s, n, true).1 <==> GetsThrough(a, b, s, n)
  {
    hide Round;
    var j := Rounds(a, b, s, n, true);
    if GetsThrough(a, b, s, n) {
      var k: nat :| Round(a, s, k) > b && forall i: nat :: i < k ==> Round(a, s, i) < n;
      assert Stops(Round(a, s, k), b, n, true);
    }
  }

  /** The same if CPUs must fit: a loop also ends when its counter gets out of bounds, and with it the list. */
  ghost predicate AllBoundedChecked(text: string, n: nat)
    decreases |text|
  {
    var k := Index(text, ',');
    var e := ReadEntry(text[..k]);
    e.Entry? && e.a <= e.b ==>
      && (Top(e.a, e.s) > e.b || Top(e.a, e.s) >= n)
      && (k < |text| && GetsThrough(e.a, e.b, e.s, n) ==> AllBoundedChecked(text[k + 1..], n))
  }

  lemma {:induction false} ReturnsIffChecked(text: string, cpus: set<nat>, n: nat)
    ensures Parse(text, cpus, n, true).Returns? <==> AllBoundedChecked(text, n)
    decreases |text|
  {
    hide ReadEntry, Index, Walk, Ends, Top, Below, GetsThrough;
    var k := Index(text, ',');
    var e := ReadEntry(text[..k]);
    if e.Entry? && e.a <= e.b {
      EndsIff(e.a, e.b, e.s, n, true);
      if Ends(e.a, e.b, e.s, n, true) {
        ThroughIff(e.a, e.b, e.s, n);
        if k < |text| {
          ReturnsIffChecked(text[k + 1..], cpus + Below(Walk(e.a, e.b, e.s, n, true).0, n), n);
        }
      }
    }
  }

  /** Whether and with which code the parser returns does not depend on the size unless CPUs must fit. */
  lemma {:induction false} SizeDoesNotMatter(text: string, cpus: set<nat>, others: set<nat>, n: nat, m: nat)
    ensures var r, t := Parse(text, cpus, n, false), Parse(text, others, m, false);
            (r.Returns? <==> t.Returns?) && (r.Returns? ==> r.rc == t.rc)
    decreases |text|
  {
    hide ReadEntry, Index, Below;
    var k := Index(text, ',');
    var e := ReadEntry(text[..k]);
    if e.Entry? && e.a <= e.b {
      SameWalk(e.a, e.b, e.s, n, m);
      hide Walk, Ends;
      if k < |text| && Ends(e.a, e.b, e.s, n, false) && Walk(e.a, e.b, e.s, n, false).1 {
        var w := Walk(e.a, e.b, e.s, n, false).0;
        SizeDoesNotMatter(text[k + 1..], cpus + Below(w, n), others + Below(Walk(e.a, e.b, e.s, m, false).0, m), n, m);
      }
    }
  }

  lemma SameWalk(a: nat, b: nat, s: nat, n: nat, m: nat)
    ensures Ends(a, b, s, n, false) <==> Ends(a, b, s, m, false)
    ensures Ends(a, b, s, n, false) ==> Walk(a, b, s, n, false).1 && Walk(a, b, s, m, false).1
  {
    hide Round;
    if k: nat :| Stops(Round(a, s, k), b, n, false) {
      assert Stops(Round(a, s, k), b, m, false);
    }
    if k: nat :| Stops(Round(a, s, k), b, m, false) {
      assert Stops(Round(a, s, k), b, n, false);
    }
  }

  // ----- The parser, step by step -----

  /** `strchr` and one step further; -1 stands for a null pointer. */
  method NextToken(str: string, pos: int, sep: char) returns (r: int)
    requires -1 <= pos <= |str|
    ensures pos < 0 ==> r == -1
    ensures pos >= 0 ==> var k := Index(str[pos..], sep);
                         r == if k == |str[pos..]| then -1 else pos + k + 1
  {
    if pos < 0 {
      return -1;
    }
    var i := pos;
    while i < |str| && str[i] != sep
      invariant pos <= i <= |str|
      invariant Index(str[pos..], sep) == i - pos + Index(str[i..], sep)
    {
      assert str[i..][1..] == str[i + 1..];
      i := i + 1;
    }
    r := if i == |str| then -1 else i + 1;
  }

  method NextNumber(str: string, pos: nat) returns (ok: bool, end: nat, result: nat)
    requires pos <= |str|
    ensures match Read(str[pos..])
            case None => !ok
            case Some((v, rest)) => ok && pos < end <= |str| && result == v && rest == str[end..]
  {
    ghost var s := str[pos..];
    var i := pos;
    var v: nat := 0;
    hide Read, Digits, IsDigit;
    DigitsBegin(s);
    while i < |str| && IsDigit(str[i])
      invariant pos <= i <= |str| && Digits(s, i - pos, v)
    {
      DigitsStep(str, pos, i, v);
      v := 10 * v + (str[i] as int - '0' as int);
      i := i + 1;
    }
    DigitsEnd(str, pos, i, v);
    if i == pos || v > ULONG_MAX {
      return false, pos, 0;
    }
    return true, i, v % (UINT_MAX + 1);
  }

  /** The first `n` characters are digits and make up `v`. */
  ghost predicate Digits(s: string, n: int, v: nat) {
    && 0 <= n <= |s|
    && DigitCount(s) == n + DigitCount(s[n..])
    && AllDigits(s[..n]) && v == Value(s[..n])
  }

  lemma DigitsBegin(s: string)
    ensures Digits(s, 0, 0)
  {
    assert s[0..] == s;
  }

  lemma DigitsStep(str: string, pos: nat, i: nat, v: nat)
    requires pos <= i < |str| && IsDigit(str[i]) && Digits(str[pos..], i - pos, v)
    ensures str[i] >= '0' && Digits(str[pos..], i + 1 - pos, 10 * v + (str[i] as int - '0' as int))
  {
    hide Value, AllDigits, DigitCount, IsDigit;
    var s, n := str[pos..], i - pos;
    assert s[n] == str[i];
    OneMoreDigit(s, n);
  }

  lemma OneMoreDigit(s: string, n: nat)
    requires n < |s| && IsDigit(s[n]) && AllDigits(s[..n])
    ensures DigitCount(s[n..]) == 1 + DigitCount(s[n + 1..]) && s[n] >= '0'
    ensures AllDigits(s[..n + 1]) && Value(s[..n + 1]) == 10 * Value(s[..n]) + (s[n] as int - '0' as int)
  {
    assert s[n..][1..] == s[n + 1..];
    assert s[..n + 1][..n] == s[..n];
  }

  lemma DigitsEnd(str: string, pos: nat, i: nat, v: nat)
    requires pos <= i <= |str| && Digits(str[pos..], i - pos, v) && (i < |str| ==> !IsDigit(str[i]))
    ensures Read(str[pos..]) == if i == pos || v > ULONG_MAX then None else Some((v % (UINT_MAX + 1), str[i..]))
  {
    hide Value, AllDigits;
    var s, n := str[pos..], i - pos;
    assert n < |s| ==> s[n] == str[i];
    assert DigitCount(s[n..]) == 0;
    assert s[n..] == str[i..];
  }

  /** Sets the bits of a range whose loop ends; fails at a CPU out of bounds if it must. */
  method SetRange(cpus: array<bool>, first: nat, b: nat, s: nat, fail: bool) returns (ok: bool)
    requires Ends(first, b, s, cpus.Length, fail)
    modifies cpus
    ensures var (visited, through) := Walk(first, b, s, cpus.Length, fail);
            ok == through && Cpus(cpus[..]) == old(Cpus(cpus[..])) + Below(visited, cpus.Length)
  {
    hide Ends, Walk, Next;
    ghost var n := cpus.Length;
    var a: nat := first;
    ghost var done: set<nat> := {};
    while a <= b
      invariant Ends(a, b, s, n, fail)
      invariant Walk(first, b, s, n, fail).0 == done + Walk(a, b, s, n, fail).0
      invariant Walk(first, b, s, n, fail).1 == Walk(a, b, s, n, fail).1
      invariant Cpus(cpus[..]) == old(Cpus(cpus[..])) + Below(done, n)
      decreases Rounds(a, b, s, n, fail)
    {
      WalkUnfolds(a, b, s, n, fail);
      if fail && a >= cpus.Length {
        return false;
      }
      if a < cpus.Length {
        cpus[a] := true;
      }
      done := done + {a};
      NextValue(a, s);
      a := (a + s) % (UINT_MAX + 1);
    }
    WalkUnfolds(a, b, s, n, fail);
    return true;
  }

  lemma NextValue(a: nat, s: nat)
    ensures Next(a, s) == (a + s) % (UINT_MAX + 1)
  {
  }

  // Where the text is cut at a comma does not matter to what is read before it.

  lemma {:induction false} DigitsCut(s: string, k: nat)
    requires k <= |s| && (k < |s| ==> !IsDigit(s[k]))
    ensures DigitCount(s[..k]) == Min(DigitCount(s), k)
    ensures k < |s| ==> DigitCount(s) <= k
  {
    if s != "" && IsDigit(s[0]) && k > 0 {
      assert s[..k][1..] == s[1..][..k - 1];
      DigitsCut(s[1..], k - 1);
    }
  }

  lemma {:induction false} IndexCut(s: string, k: nat, c: char)
    requires k <= |s|
    ensures Index(s[..k], c) == Min(Index(s, c), k)
  {
    if s != "" && s[0] != c && k > 0 {
      assert s[..k][1..] == s[1..][..k - 1];
      IndexCut(s[1..], k - 1, c);
    }
  }

  lemma {:induction false} IndexFrom(s: string, n: nat, c: char)
    requires n <= Index(s, c)
    ensures Index(s[n..], c) == Index(s, c) - n
  {
    if n > 0 {
      IndexFrom(s[1..], n - 1, c);
      assert s[1..][n - 1..] == s[n..];
    }
  }

  lemma ReadCut(s: string, k: nat)
    requires k <= |s| && (k < |s| ==> !IsDigit(s[k]))
    ensures match Read(s)
            case None => Read(s[..k]) == None
            case Some((v, rest)) =>
              var n := |s| - |rest|;
              n <= k && rest == s[n..] && Read(s[..k]) == Some((v, s[n..k]))
  {
    DigitsCut(s, k);
    var n := DigitCount(s);
    if n <= k {
      assert s[..k][..n] == s[..n] && s[..k][n..] == s[n..k];
    }
  }

  /** Reads the number at `pos`, which lies before the comma at `stop`. */
  method NumberBefore(str: string, pos: nat, ghost stop: nat) returns (ok: bool, end: nat, result: nat)
    requires pos <= stop <= |str| && (stop < |str| ==> str[stop] == ',')
    ensures match Read(str[pos..stop])
            case None => !ok
            case Some((v, rest)) => ok && pos < end <= stop && result == v && rest == str[end..stop]
  {
    ok, end, result := NextNumber(str, pos);
    ghost var s := str[pos..];
    ReadCut(s, stop - pos);
    assert s[..stop - pos] == str[pos..stop];
    if ok {
      assert s[end - pos..] == str[end..];
      assert |str[end..]| == |str| - end;
      assert s[end - pos..stop - pos] == str[end..stop];
    }
  }

  /** Looks for `sep` before the next comma. */
  method TokenBefore(str: string, pos: nat, sep: char, c2: int, ghost stop: nat) returns (found: bool, next: nat)
    requires pos <= stop <= |str| && stop - pos == Index(str[pos..], ',') && sep != ','
    requires c2 == if stop == |str| then -1 else stop + 1
    ensures var k := Index(str[pos..stop], sep);
            if k == stop - pos then !found else found && next == pos + k + 1
  {
    var c1 := NextToken(str, pos, sep);
    found := c1 >= 0 && (c2 < 0 || c1 < c2);
    next := if found then c1 else 0;
    IndexCut(str[pos..], stop - pos, sep);
    assert str[pos..][..stop - pos] == str[pos..stop];
  }

  method NextStride(str: string, pos: nat, b: nat, c2: int, ghost a: nat, ghost stop: nat) returns (ok: bool, end: nat, s: nat)
    requires pos <= stop <= |str| && stop - pos == Index(str[pos..], ',')
    requires c2 == if stop == |str| then -1 else stop + 1
    ensures match ReadStride(a, b, str[pos..stop])
            case Bad => !ok
            case Entry(_, _, s', tail) => ok && s == s' && pos <= end <= stop && tail == str[end..stop]
  {
    assert stop < |str| ==> str[stop] == ',';
    hide Read, Index;
    var colon, c1 := TokenBefore(str, pos, ':', c2, stop);
    if !colon {
      return true, pos, 1;
    }
    assert str[pos..stop][c1 - pos..] == str[c1..stop];
    ok, end, s := NumberBefore(str, c1, stop);
    ok := ok && s != 0;
  }

  lemma StopIsComma(str: string, pos: nat, stop: nat)
    requires pos <= stop <= |str| && stop - pos == Index(str[pos..], ',')
    ensures stop < |str| ==> str[stop] == ','
    ensures |str[pos..stop]| == stop - pos == Index(str[pos..], ',') && |str[pos..]| == |str| - pos
  {
  }

  /** The rest of an entry behind its first number, by its place in the text. */
  lemma RangeAt(a: nat, str: string, pos: nat, stop: nat)
    requires pos <= stop <= |str|
    ensures var d := Index(str[pos..stop], '-');
            if d == stop - pos then ReadRange(a, str[pos..stop]) == Entry(a, a, 1, str[pos..stop])
            else
              && pos + d + 1 <= stop
              && ReadRange(a, str[pos..stop]) ==
                 match Read(str[pos + d + 1..stop])
                 case None => Bad
                 case Some((b, u)) => ReadStride(a, b, u)
  {
    hide Read, ReadStride;
    var d := Index(str[pos..stop], '-');
    if d < stop - pos {
      assert str[pos..stop][d + 1..] == str[pos + d + 1..stop];
    }
  }

  method NextRange(str: string, pos: nat, a: nat, ghost stop: nat) returns (ok: bool, end: nat, b: nat, s: nat)
    requires pos <= stop <= |str| && stop - pos == Index(str[pos..], ',')
    ensures match ReadRange(a, str[pos..stop])
            case Bad => !ok
            case Entry(_, b', s', tail) => ok && b == b' && s == s' && pos <= end <= stop && tail == str[end..stop]
  {
    hide Read, ReadRange, ReadStride, Index;
    StopIsComma(str, pos, stop);
    RangeAt(a, str, pos, stop);
    var c2 := NextToken(str, pos, ',');
    var dash, c1 := TokenBefore(str, pos, '-', c2, stop);
    if !dash {
      return true, pos, a, 1;
    }
    ok, end, b := NumberBefore(str, c1, stop);
    s := 1;
    if ok {
      Comma(str, pos, end, stop);
      StrideKeepsRange(a, b, str[end..stop]);
      ok, end, s := NextStride(str, end, b, c2, a, stop);
    }
  }

  method NextEntry(str: string, p: nat, ghost stop: nat) returns (ok: bool, end: nat, a: nat, b: nat, s: nat)
    requires p <= stop <= |str| && stop - p == Index(str[p..], ',')
    ensures match ReadEntry(str[p..stop])
            case Bad => !ok
            case Entry(a', b', s', tail) => ok && a == a' && b == b' && s == s' && p < end <= stop && tail == str[end..stop]
  {
    assert stop < |str| ==> str[stop] == ',';
    ok, end, a := NumberBefore(str, p, stop);
    b, s := a, 1;
    if ok {
      Comma(str, p, end, stop);
      hide Read, ReadRange;
      RangeKeepsFirst(a, str[end..stop]);
      ok, end, b, s := NextRange(str, end, a, stop);
    }
  }

  lemma StrideKeepsRange(a: nat, b: nat, u: string)
    ensures var r := ReadStride(a, b, u); r.Entry? ==> r.a == a && r.b == b
  {
  }

  lemma RangeKeepsFirst(a: nat, t: string)
    ensures var r := ReadRange(a, t); r.Entry? ==> r.a == a
  {
  }

  lemma Comma(str: string, p: nat, e: nat, stop: nat)
    requires p <= e <= stop <= |str| && stop - p == Index(str[p..], ',')
    ensures stop - e == Index(str[e..], ',')
  {
    IndexFrom(str[p..], e - p, ',');
    assert str[p..][e - p..] == str[e..];
  }

  lemma ParseUnfolds(text: string, k: nat, cpus: set<nat>, n: nat, fail: bool)
    requires k == Index(text, ',') && Parse(text, cpus, n, fail).Returns?
    ensures var e := ReadEntry(text[..k]);
            if e.Bad? || e.a > e.b then Parse(text, cpus, n, fail) == Returns(cpus, 1)
            else
              && Ends(e.a, e.b, e.s, n, fail)
              && var w := Walk(e.a, e.b, e.s, n, fail);
                 var all := cpus + Below(w.0, n);
                 Parse(text, cpus, n, fail) ==
                 if !w.1 then Returns(all, 2)
                 else if k == |text| then Returns(all, if e.tail == "" then 0 else 1)
                 else Parse(text[k + 1..], all, n, fail)
  {
    hide ReadEntry, Ends, Walk, Below, Index;
  }

  method Clear(cpus: array<bool>)
    modifies cpus
    ensures Cpus(cpus[..]) == {}
  {
    var k := 0;
    while k < cpus.Length
      invariant k <= cpus.Length && forall j :: 0 <= j < k ==> !cpus[j]
    {
      cpus[k] := false;
      k := k + 1;
    }
  }

  /** Reads any list whose loops end. */
  method CpulistParse(str: string, cpus: array<bool>, fail: bool) returns (rc: int)
    requires Parse(str, {}, cpus.Length, fail).Returns?
    modifies cpus
    ensures Returns(Cpus(cpus[..]), rc) == Parse(str, {}, cpus.Length, fail)
  {
    hide Parse, ReadEntry, Ends, Walk, Below, Cpus;
    Clear(cpus);
    var q, end := 0, 0;
    assert str[0..] == str;
    while q >= 0
      invariant -1 <= q <= |str| && 0 <= end <= |str|
      invariant Parse(str, {}, cpus.Length, fail) ==
                if q >= 0 then Parse(str[q..], Cpus(cpus[..]), cpus.Length, fail)
                else Returns(Cpus(cpus[..]), if end == |str| then 0 else 1)
      decreases if q >= 0 then |str| - q + 1 else 0
    {
      var p := q;
      ghost var k := Index(str[p..], ',');
      ParseUnfolds(str[p..], k, Cpus(cpus[..]), cpus.Length, fail);
      assert str[p..][..k] == str[p..p + k];
      q := NextToken(str, p, ',');
      var ok, e, a, b, s := NextEntry(str, p, p + k);
      if !ok || a > b {
        return 1;
      }
      end := e;
      assert Proper(ReadEntry(str[p..p + k]));
      var fits := SetRange(cpus, a, b, s, fail);
      if !fits {
        return 2;
      }
      if q >= 0 {
        assert str[p..][k + 1..] == str[q..];
      }
    }
    rc := if end == |str| then 0 else 1;
  }
}
