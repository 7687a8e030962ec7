/**
 * What a CPU list means: a well-formed list is read as the union of its entries, and a printed
 * set is read back as the same set.
 */
module CpuListMeaning {
  import opened Options
  import opened CpuList
  import opened CpuListParser
  import opened RangeLoop

  /** An entry as it is written: one number, a range, or a range with a stride. */
  datatype Item =
    | One(first: string)
    | Range(first: string, last: string)
    | Strided(first: string, last: string, stride: string)

  predicate Number(s: string) {
    s != "" && AllDigits(s) && Value(s) <= UINT_MAX
  }

  predicate Numbers(i: Item) {
    && Number(i.first)
    && (!i.One? ==> Number(i.last))
    && (i.Strided? ==> Number(i.stride))
  }

  function Low(i: Item): nat
    requires Numbers(i)
  {
    Value(i.first)
  }

  function High(i: Item): nat
    requires Numbers(i)
  {
    if i.One? then Value(i.first) else Value(i.last)
  }

  function Step(i: Item): nat
    requires Numbers(i)
  {
    if i.Strided? then Value(i.stride) else 1
  }

  predicate WellFormed(i: Item) {
    Numbers(i) && Low(i) <= High(i) && Step(i) > 0
  }

  function ItemText(i: Item): string {
    match i
    case One(f) => f
    case Range(f, l) => f + "-" + l
    case Strided(f, l, s) => f + "-" + l + ":" + s
  }

  function ListText(items: seq<Item>): string
    requires |items| > 0
  {
    if |items| == 1 then ItemText(items[0]) else ItemText(items[0]) + "," + ListText(items[1..])
  }

  ghost predicate AllWellFormed(items: seq<Item>) {
    forall k :: 0 <= k < |items| ==> WellFormed(items[k])
  }

  function MembersOf(i: Item): set<nat>
    requires WellFormed(i)
  {
    Members(Low(i), High(i), Step(i))
  }

  /** The CPUs which a list names. */
  function Named(items: seq<Item>): set<nat>
    requires AllWellFormed(items)
  {
    if |items| == 0 then {} else MembersOf(items[0]) + Named(items[1..])
  }

  lemma {:induction false} DigitsThen(d: string, rest: string)
    requires AllDigits(d) && (rest != "" ==> !IsDigit(rest[0]))
    ensures DigitCount(d + rest) == |d|
  {
    if d == "" {
      assert d + rest == rest;
    } else {
      assert (d + rest)[1..] == d[1..] + rest;
      DigitsThen(d[1..], rest);
    }
  }

  lemma ReadThen(d: string, rest: string)
    requires Number(d) && (rest != "" ==> !IsDigit(rest[0]))
    ensures Read(d + rest) == Some((Value(d), rest))
  {
    DigitsThen(d, rest);
    assert (d + rest)[..|d|] == d && (d + rest)[|d|..] == rest;
  }

  lemma {:induction false} IndexThen(d: string, rest: string, c: char)
    requires c !in d
    ensures Index(d + rest, c) == |d| + Index(rest, c)
  {
    if d == "" {
      assert d + rest == rest;
    } else {
      assert (d + rest)[1..] == d[1..] + rest;
      assert forall k :: 0 <= k < |d[1..]| ==> d[1..][k] == d[k + 1];
      IndexThen(d[1..], rest, c);
    }
  }

  lemma ReadStrideText(a: nat, b: nat, s: string)
    requires Number(s) && Value(s) > 0
    ensures ReadStride(a, b, ":" + s) == Entry(a, b, Value(s), "")
  {
    assert (":" + s)[1..] == s + "";
    ReadThen(s, "");
  }

  lemma ReadNoStride(a: nat, b: nat)
    ensures ReadStride(a, b, "") == Entry(a, b, 1, "")
    ensures ReadRange(a, "") == Entry(a, a, 1, "")
  {
  }

  lemma DashFirst(t: string)
    ensures Index("-" + t, '-') == 0 && ("-" + t)[1..] == t
    ensures 0 < |"-" + t|
  {
  }

  lemma ReadRangeText(a: nat, l: string, u: string)
    requires Number(l) && (u != "" ==> u[0] == ':')
    ensures ReadRange(a, "-" + l + u) == ReadStride(a, Value(l), u)
  {
    hide Read, ReadStride, Index, Value, AllDigits;
    DashFirst(l + u);
    assert "-" + l + u == "-" + (l + u);
    ReadThen(l, u);
  }

  /** An entry is read as it is meant. */
  lemma ReadItem(i: Item)
    requires Numbers(i) && Step(i) > 0
    ensures ReadEntry(ItemText(i)) == Entry(Low(i), High(i), Step(i), "")
  {
    hide Read, ReadRange, ReadStride, Value;
    match i
    case One(f) =>
      assert f + "" == f;
      ReadThen(f, "");
      ReadNoStride(Value(f), Value(f));
    case Range(f, l) =>
      assert f + "-" + l == f + ("-" + l + "");
      ReadThen(f, "-" + l + "");
      ReadRangeText(Value(f), l, "");
      ReadNoStride(Value(f), Value(l));
    case Strided(f, l, s) =>
      assert f + "-" + l + ":" + s == f + ("-" + l + (":" + s));
      ReadThen(f, "-" + l + (":" + s));
      ReadRangeText(Value(f), l, ":" + s);
      ReadStrideText(Value(f), Value(l), s);
  }

  lemma NoComma(i: Item)
    requires Numbers(i)
    ensures ',' !in ItemText(i)
  {
  }

  lemma FirstComma(items: seq<Item>)
    requires |items| > 0 && AllWellFormed(items)
    ensures var text, k := ListText(items), |ItemText(items[0])|;
            && Index(text, ',') == k && text[..k] == ItemText(items[0])
            && (k == |text| <==> |items| == 1)
            && (|items| > 1 ==> text[k + 1..] == ListText(items[1..]))
  {
    var d := ItemText(items[0]);
    NoComma(items[0]);
    if |items| == 1 {
      assert d + "" == d;
      IndexThen(d, "", ',');
    } else {
      var rest := "," + ListText(items[1..]);
      assert ListText(items) == d + rest;
      IndexThen(d, rest, ',');
    }
  }

  /** No range of the list wraps around: the number behind each of them is representable. */
  ghost predicate NoneWraps(items: seq<Item>)
    requires AllWellFormed(items)
  {
    forall k :: 0 <= k < |items| ==> Beyond(Low(items[k]), High(items[k]), Step(items[k])) <= UINT_MAX
  }

  /** The parser at a list which does not wrap around: its first entry, and then the others. */
  lemma ParseItem(items: seq<Item>, cpus: set<nat>, n: nat, fail: bool)
    requires |items| > 0 && AllWellFormed(items) && NoneWraps(items)
    ensures var m := MembersOf(items[0]);
            var all := cpus + Below(m, n);
            Parse(ListText(items), cpus, n, fail) ==
            if fail && !(forall x :: x in m ==> x < n) then Returns(all, 2)
            else if |items| == 1 then Returns(all, 0)
            else Parse(ListText(items[1..]), all, n, fail)
  {
    var i := items[0];
    FirstComma(items);
    ReadItem(i);
    PlainWalk(Low(i), High(i), Step(i), n, fail);
    hide Members, ReadEntry, ItemText, Index, ListText, Value, Walk, Ends, Beyond;
  }

  /** Denotation of the parser when CPUs need not fit: those which fit are read. */
  lemma {:induction false} ParseDenotes(items: seq<Item>, cpus: set<nat>, n: nat)
    requires |items| > 0 && AllWellFormed(items) && NoneWraps(items)
    ensures Parse(ListText(items), cpus, n, false) == Returns(cpus + Below(Named(items), n), 0)
  {
    hide Parse, MembersOf, ListText, Beyond, WellFormed;
    var all := cpus + Below(MembersOf(items[0]), n);
    ParseItem(items, cpus, n, false);
    if |items| > 1 {
      ParseDenotes(items[1..], all, n);
      assert all + Below(Named(items[1..]), n) == cpus + Below(Named(items), n);
    } else {
      assert all == cpus + Below(Named(items), n);
    }
  }

  /** Denotation when all CPUs must fit: the code is 2 iff one does not. */
  lemma {:induction false} ParseChecks(items: seq<Item>, cpus: set<nat>, n: nat)
    requires |items| > 0 && AllWellFormed(items) && NoneWraps(items)
    ensures var r := Parse(ListText(items), cpus, n, true);
            && r.Returns?
            && if forall x :: x in Named(items) ==> x < n then r.rc == 0 && r.cpus == cpus + Named(items) else r.rc == 2
  {
    hide Parse, MembersOf, ListText, Beyond, WellFormed;
    var m := MembersOf(items[0]);
    var all := cpus + Below(m, n);
    ParseItem(items, cpus, n, true);
    assert Named(items) == m + Named(items[1..]);
    if |items| > 1 {
      ParseChecks(items[1..], all, n);
    }
    if forall x :: x in Named(items) ==> x < n {
      assert forall x :: x in m ==> x in Named(items);
      assert forall x :: x in Named(items[1..]) ==> x in Named(items);
      assert all + Named(items[1..]) == cpus + Named(items);
      assert |items| == 1 ==> all == cpus + Named(items);
    }
  }

  /** The counter gets behind the range of the entry. */
  predicate GetsBehind(i: Item)
    requires WellFormed(i)
  {
    Top(Low(i), Step(i)) > High(i)
  }

  /** A well-formed list is read in finite time iff the counter of each range can get behind it. */
  lemma {:induction false} WellFormedReturnsIff(items: seq<Item>, cpus: set<nat>, n: nat)
    requires |items| > 0 && AllWellFormed(items)
    ensures Parse(ListText(items), cpus, n, false).Returns? <==> forall k :: 0 <= k < |items| ==> GetsBehind(items[k])
  {
    ReturnsIff(ListText(items), cpus, n);
    BoundedIff(items);
  }

  lemma BoundedFirst(items: seq<Item>)
    requires |items| > 0 && AllWellFormed(items)
    ensures AllBounded(ListText(items)) <==>
            GetsBehind(items[0]) && (|items| > 1 ==> AllBounded(ListText(items[1..])))
  {
    hide Top, ReadEntry, ItemText, Index, ListText, Value;
    FirstComma(items);
    ReadItem(items[0]);
  }

  lemma {:induction false} BoundedIff(items: seq<Item>)
    requires |items| > 0 && AllWellFormed(items)
    ensures AllBounded(ListText(items)) <==> forall k :: 0 <= k < |items| ==> GetsBehind(items[k])
  {
    hide Top, ReadEntry, ItemText, Index, ListText, Value, GetsBehind, AllBounded;
    BoundedFirst(items);
    if |items| > 1 {
      BoundedIff(items[1..]);
      assert forall k :: 0 < k < |items| ==> items[k] == items[1..][k - 1];
    }
  }

  /** Two lists on which the parser never returns: up to the largest number, and up to the one before it. */
  lemma EndlessLists(cpus: set<nat>, n: nat)
    ensures Parse(ListText([Range("0", "4294967295")]), cpus, n, false) == Endless
    ensures Parse(ListText([Strided("0", "4294967294", "2")]), cpus, n, false) == Endless
    ensures n <= UINT_MAX ==> Parse(ListText([Range("0", "4294967295")]), cpus, n, true).Returns?
  {
    hide Parse, Value, AllDigits, ListText, ItemText, Twos, Pow2;
    var x, y := [Range("0", "4294967295")], [Strided("0", "4294967294", "2")];
    SmallValues();
    LargeValues();
    SmallGrains();
    assert Low(x[0]) == 0 && High(x[0]) == UINT_MAX && Step(x[0]) == 1;
    assert Low(y[0]) == 0 && High(y[0]) == UINT_MAX - 1 && Step(y[0]) == 2;
    assert Top(0, 1) == UINT_MAX && Top(0, 2) == UINT_MAX - 1;
    WellFormedReturnsIff(x, cpus, n);
    WellFormedReturnsIff(y, cpus, n);
    FirstComma(x);
    ReadItem(x[0]);
    ReturnsIffChecked(ListText(x), cpus, n);
  }

  /** A list which names CPU 1 alone and is read as CPUs 0 and 1. */
  lemma WrappingList(n: nat)
    ensures var x := [Strided("1", "10", "4294967295")];
            && ListText(x) == "1-10:4294967295"
            && AllWellFormed(x) && Named(x) == {1}
            && Parse(ListText(x), {}, n, false) == Returns(Below({0, 1}, n), 0)
  {
    hide Value, AllDigits, ReadEntry, Index, Walk, Ends, Members;
    var x := [Strided("1", "10", "4294967295")];
    SmallValues();
    LargeValues();
    WrapExample(n);
    FirstComma(x);
    ReadItem(x[0]);
    assert "1" + "-" + "10" + ":" + "4294967295" == "1-10:4294967295";
    assert Low(x[0]) == 1 && High(x[0]) == 10 && Step(x[0]) == UINT_MAX;
    assert Named(x[1..]) == {};
    assert {} + Below({0, 1}, n) == Below({0, 1}, n);
  }

  lemma SmallGrains()
    ensures Grain(1) == 1 && Grain(2) == 2
  {
  }

  lemma SmallValues()
    ensures Number("0") && Value("0") == 0
    ensures Number("1") && Value("1") == 1
    ensures Number("2") && Value("2") == 2
    ensures Number("5") && Value("5") == 5
    ensures Number("10") && Value("10") == 10
  {
    hide Value, AllDigits;
    NoDigits();
    PrefixValue("", '0');
    PrefixValue("", '1');
    PrefixValue("1", '0');
    PrefixValue("", '2');
    PrefixValue("", '5');
    assert "" + "0" == "0" && "" + "1" == "1" && "" + "2" == "2" && "" + "5" == "5" && "1" + "0" == "10";
  }

  lemma LargeValues()
    ensures Number("4294967295") && Value("4294967295") == UINT_MAX
    ensures Number("4294967294") && Value("4294967294") == UINT_MAX - 1
  {
    hide Value, AllDigits;
    NoDigits();
    PrefixValue("", '4');
    PrefixValue("4", '2');
    PrefixValue("42", '9');
    PrefixValue("429", '4');
    PrefixValue("4294", '9');
    PrefixValue("42949", '6');
    PrefixValue("429496", '7');
    PrefixValue("4294967", '2');
    PrefixValue("42949672", '9');
    PrefixValue("429496729", '5');
    PrefixValue("429496729", '4');
    assert "" + "4" == "4";
    assert "4" + "2" == "42" && "42" + "9" == "429" && "429" + "4" == "4294";
    assert "4294" + "9" == "42949" && "42949" + "6" == "429496" && "429496" + "7" == "4294967";
    assert "4294967" + "2" == "42949672" && "42949672" + "9" == "429496729";
    assert "429496729" + "5" == "4294967295" && "429496729" + "4" == "4294967294";
  }

  lemma NoDigits()
    ensures AllDigits("") && Value("") == 0
  {
  }

  lemma PrefixValue(s: string, c: char)
    requires AllDigits(s) && IsDigit(c)
    ensures AllDigits(s + [c]) && Value(s + [c]) == 10 * Value(s) + (c as int - '0' as int)
  {
    assert (s + [c])[..|s|] == s;
  }

  // ----- Round trip -----

  /** The entries which are printed for a run of bits from `i` on. */
  function RunItems(i: nat, run: nat): seq<Item> {
    if run == 0 then [One(Decimal(i))]
    else if run == 1 then [One(Decimal(i)), One(Decimal(i + 1))]
    else [Range(Decimal(i), Decimal(i + run))]
  }

  /** The entries which are printed for the bits from `i` on. */
  function Items(bits: seq<bool>, i: nat): seq<Item>
    requires i <= |bits|
    decreases |bits| - i
  {
    if i == |bits| then []
    else if !bits[i] then Items(bits, i + 1)
    else
      var run := RunLength(bits, i + 1);
      RunItems(i, run) + Items(bits, i + 1 + run)
  }

  /** The entries one after the other, each with a comma behind it. */
  function Ended(items: seq<Item>): string {
    if |items| == 0 then "" else ItemText(items[0]) + "," + Ended(items[1..])
  }

  lemma {:induction false} EndedIsList(items: seq<Item>)
    requires |items| > 0
    ensures Ended(items) == ListText(items) + ","
  {
    if |items| > 1 {
      EndedIsList(items[1..]);
    }
  }

  lemma {:induction false} EndedAppend(a: seq<Item>, b: seq<Item>)
    ensures Ended(a + b) == Ended(a) + Ended(b)
  {
    if |a| == 0 {
      assert a + b == b;
    } else {
      assert (a + b)[1..] == a[1..] + b;
      EndedAppend(a[1..], b);
    }
  }

  lemma RunText(i: nat, run: nat)
    ensures Ended(RunItems(i, run)) == EntryText(i, run)
  {
    hide Decimal;
    if run == 1 {
      var x, y := One(Decimal(i)), One(Decimal(i + 1));
      assert [x, y][1..] == [y];
      assert Ended([y]) == Decimal(i + 1) + ",";
    }
  }

  lemma ItemsUnfold(bits: seq<bool>, i: nat)
    requires i < |bits|
    ensures if !bits[i] then Items(bits, i) == Items(bits, i + 1)
            else
              var run := RunLength(bits, i + 1);
              i + 1 + run <= |bits| && Items(bits, i) == RunItems(i, run) + Items(bits, i + 1 + run)
  {
    hide RunItems;
  }

  lemma ItemsEnd(bits: seq<bool>)
    ensures Ended(Items(bits, |bits|)) == ""
  {
  }

  lemma {:induction false} PrintedIsEnded(bits: seq<bool>, i: nat)
    requires i <= |bits|
    ensures Printed(bits, i) == Ended(Items(bits, i))
    decreases |bits| - i
  {
    hide Printed, Decimal, Items, Ended, RunItems, EntryText, RunLength;
    if i < |bits| {
      PrintedUnfolds(bits, i);
      ItemsUnfold(bits, i);
      if !bits[i] {
        PrintedIsEnded(bits, i + 1);
      } else {
        var run := RunLength(bits, i + 1);
        PrintedIsEnded(bits, i + 1 + run);
        RunText(i, run);
        EndedAppend(RunItems(i, run), Items(bits, i + 1 + run));
      }
    } else {
      PrintedEnds(bits);
      ItemsEnd(bits);
    }
  }

  /** The CPUs from `i` on. */
  function CpusFrom(bits: seq<bool>, i: nat): (r: set<nat>)
    ensures forall x :: x in r <==> i <= x < |bits| && bits[x]
  {
    set x: nat | i <= x < |bits| && bits[x]
  }

  lemma {:induction false} MembersOfRun(a: nat, b: nat)
    ensures forall x :: x in Members(a, b, 1) <==> a <= x <= b
    ensures a <= b ==> Beyond(a, b, 1) == b + 1
    decreases b + 1 - a
  {
    if a <= b {
      MembersOfRun(a + 1, b);
    }
  }

  ghost predicate Printable(i: Item, n: nat) {
    WellFormed(i) && High(i) < n && Step(i) == 1
  }

  lemma {:induction false} NamedAppend(a: seq<Item>, b: seq<Item>)
    requires AllWellFormed(a) && AllWellFormed(b)
    ensures AllWellFormed(a + b) && Named(a + b) == Named(a) + Named(b)
  {
    if |a| == 0 {
      assert a + b == b;
    } else {
      assert (a + b)[1..] == a[1..] + b;
      NamedAppend(a[1..], b);
    }
  }

  ghost predicate AllPrintable(items: seq<Item>, n: nat) {
    forall k :: 0 <= k < |items| ==> Printable(items[k], n)
  }

  lemma OneIs(i: nat, n: nat)
    requires i < n <= UINT_MAX
    ensures Printable(One(Decimal(i)), n) && MembersOf(One(Decimal(i))) == {i}
  {
    MembersOfRun(i, i);
  }

  lemma RangeIs(i: nat, j: nat, n: nat)
    requires i <= j < n <= UINT_MAX
    ensures Printable(Range(Decimal(i), Decimal(j)), n)
    ensures forall x :: x in MembersOf(Range(Decimal(i), Decimal(j))) <==> i <= x <= j
  {
    MembersOfRun(i, j);
  }

  /** The entries for one run of bits name exactly these. */
  lemma RunIsNamed(i: nat, run: nat, n: nat)
    requires i + run < n <= UINT_MAX
    ensures AllPrintable(RunItems(i, run), n) && AllWellFormed(RunItems(i, run))
    ensures forall x :: x in Named(RunItems(i, run)) <==> i <= x <= i + run
  {
    hide MembersOf, Decimal, WellFormed, Printable, Named;
    PrintableIsWellFormed(RunItems(i, run), n);
    OneIs(i, n);
    if run == 0 {
      NamedOne(One(Decimal(i)));
    } else if run == 1 {
      OneIs(i + 1, n);
      NamedTwo(One(Decimal(i)), One(Decimal(i + 1)));
    } else {
      RangeIs(i, i + run, n);
      NamedOne(Range(Decimal(i), Decimal(i + run)));
    }
  }

  lemma PrintableIsWellFormed(items: seq<Item>, n: nat)
    ensures AllPrintable(items, n) ==> AllWellFormed(items)
  {
    hide WellFormed;
  }

  lemma NamedTwo(i: Item, j: Item)
    requires WellFormed(i) && WellFormed(j)
    ensures Named([i, j]) == MembersOf(i) + MembersOf(j)
  {
    NamedOne(j);
    hide MembersOf, WellFormed;
    assert [i, j][1..] == [j];
  }

  lemma NamedOne(i: Item)
    requires WellFormed(i)
    ensures Named([i]) == MembersOf(i)
  {
    hide MembersOf;
    assert Named([i][1..]) == {};
  }

  /** The set bits from `i` on are the run there and the set bits behind it. */
  lemma RunOfCpus(bits: seq<bool>, i: nat, r: set<nat>)
    requires i < |bits| && bits[i]
    requires forall x :: x in r <==> i <= x <= i + RunLength(bits, i + 1)
    ensures r + CpusFrom(bits, i + 1 + RunLength(bits, i + 1)) == CpusFrom(bits, i)
  {
  }

  lemma NothingNamed(bits: seq<bool>)
    ensures Items(bits, |bits|) == [] && Named([]) == {} && CpusFrom(bits, |bits|) == {}
  {
  }

  lemma {:induction false} ItemsAreNamed(bits: seq<bool>, i: nat)
    requires i <= |bits| <= UINT_MAX
    ensures AllPrintable(Items(bits, i), |bits|)
    ensures AllWellFormed(Items(bits, i)) && Named(Items(bits, i)) == CpusFrom(bits, i)
    decreases |bits| - i
  {
    hide Items, Named, RunItems, WellFormed, Printable, RunLength;
    if i == |bits| {
      NothingNamed(bits);
    } else {
      ItemsUnfold(bits, i);
      if !bits[i] {
        ItemsAreNamed(bits, i + 1);
        assert CpusFrom(bits, i + 1) == CpusFrom(bits, i);
      } else {
        var run := RunLength(bits, i + 1);
        ItemsAreNamed(bits, i + 1 + run);
        RunIsNamed(i, run, |bits|);
        var a, b := RunItems(i, run), Items(bits, i + 1 + run);
        NamedAppend(a, b);
        RunOfCpus(bits, i, Named(a));
      }
    }
  }

  /**
   * Round trip: the text printed for a non-empty set is read back, whether or not CPUs must
   * fit, as exactly that set.
   */
  lemma RoundTrip(bits: seq<bool>, fail: bool)
    requires |bits| <= UINT_MAX && Cpus(bits) != {}
    ensures var text := Cut(Printed(bits, 0));
            Parse(text, {}, |bits|, fail) == Returns(Cpus(bits), 0)
  {
    var items := Items(bits, 0);
    PrintedIsEnded(bits, 0);
    ItemsAreNamed(bits, 0);
    assert CpusFrom(bits, 0) == Cpus(bits);
    hide Items, Printed, ListText, Parse, MembersOf, Beyond, Members, WellFormed;
    NamedSomething(items);
    EndedIsList(items);
    assert Cut(ListText(items) + ",") == ListText(items);
    PrintableFits(items, |bits|);
    ParseDenotes(items, {}, |bits|);
    ParseChecks(items, {}, |bits|);
    assert {} + Below(Named(items), |bits|) == Cpus(bits) && {} + Named(items) == Cpus(bits);
    assert forall x :: x in Named(items) ==> x < |bits|;
  }

  lemma NamedSomething(items: seq<Item>)
    requires AllWellFormed(items) && Named(items) != {}
    ensures |items| > 0
  {
  }

  lemma PrintableFits(items: seq<Item>, n: nat)
    requires AllPrintable(items, n) && AllWellFormed(items) && n <= UINT_MAX
    ensures NoneWraps(items)
  {
    forall k | 0 <= k < |items|
      ensures Beyond(Low(items[k]), High(items[k]), Step(items[k])) <= UINT_MAX
    {
      assert Printable(items[k], n);
      MembersOfRun(Low(items[k]), High(items[k]));
    }
  }

  /** The empty set is printed as the empty text, which the parser refuses. */
  lemma EmptyIsRefused(bits: seq<bool>, fail: bool)
    requires Cpus(bits) == {}
    ensures Cut(Printed(bits, 0)) == "" && Parse("", {}, |bits|, fail) == Returns({}, 1)
  {
    NothingPrinted(bits, 0);
  }

  lemma {:induction false} NothingPrinted(bits: seq<bool>, i: nat)
    requires i <= |bits| && Cpus(bits) == {}
    ensures Printed(bits, i) == ""
    decreases |bits| - i
  {
    if i < |bits| {
      assert bits[i] ==> i in Cpus(bits);
      NothingPrinted(bits, i + 1);
    }
  }

  // ----- Accepted texts -----

  /** Numbers of 32 bits with nothing between them but the sign which separates them. */
  predicate Tight(token: string) {
    var n := DigitCount(token);
    && Number(token[..n])
    && (n < |token| ==> token[n] == '-' && TightEnd(token[n + 1..]))
  }

  predicate TightEnd(t: string) {
    var n := DigitCount(t);
    && Number(t[..n])
    && (n < |t| ==> t[n] == ':' && TightStride(t[n + 1..]))
  }

  predicate TightStride(t: string) {
    Number(t[..DigitCount(t)]) && DigitCount(t) == |t|
  }

  predicate AllTight(text: string)
    decreases |text|
  {
    var k := Index(text, ',');
    Tight(text[..k]) && (k < |text| ==> AllTight(text[k + 1..]))
  }

  /** The item which a tight text is. */
  function ItemOf(token: string): (i: Item)
    requires Tight(token)
    ensures Numbers(i) && ItemText(i) == token
  {
    hide Number, TightEnd;
    var n := DigitCount(token);
    if n == |token| then One(token[..n])
    else ItemFrom(token[..n], token[n + 1..])
  }

  function ItemFrom(f: string, t: string): (i: Item)
    requires Number(f) && TightEnd(t)
    ensures Numbers(i) && ItemText(i) == f + ("-" + t)
  {
    hide Value, AllDigits;
    var m := DigitCount(t);
    if m == |t| then
      assert t[..m] == t;
      Range(f, t)
    else
      var v := t[m + 1..];
      assert t == t[..m] + (":" + v) && v[..|v|] == v;
      Strided(f, t[..m], v)
  }

  lemma TightIsRead(token: string)
    requires Tight(token) && Step(ItemOf(token)) > 0
    ensures var i := ItemOf(token); ReadEntry(token) == Entry(Low(i), High(i), Step(i), "")
  {
    ReadItem(ItemOf(token));
  }

  /** A stride of 0 is refused. */
  lemma TightStep(token: string)
    requires Tight(token) && ReadEntry(token).Entry?
    ensures Step(ItemOf(token)) > 0
  {
    hide Value;
    match ItemOf(token)
    case One(_) =>
    case Range(_, _) =>
    case Strided(f, l, s) =>
      if Value(s) == 0 {
        ZeroStrideIsBad(f, l, s);
        assert false;
      }
  }

  lemma ZeroStrideIsBad(f: string, l: string, s: string)
    requires Number(f) && Number(l) && Number(s) && Value(s) == 0
    ensures ReadEntry(ItemText(Strided(f, l, s))) == Bad
  {
    hide Value, AllDigits, Read, ReadRange, ReadStride;
    ReadZeroStride(Value(f), Value(l), s);
    ReadRangeText(Value(f), l, ":" + s);
    assert ItemText(Strided(f, l, s)) == f + ("-" + l + (":" + s));
    ReadThen(f, "-" + l + (":" + s));
  }

  lemma ReadZeroStride(a: nat, b: nat, s: string)
    requires Number(s) && Value(s) == 0
    ensures ReadStride(a, b, ":" + s) == Bad
  {
    assert (":" + s)[1..] == s + "";
    ReadThen(s, "");
  }

  lemma ItemIsTight(i: Item)
    requires Numbers(i)
    ensures Tight(ItemText(i))
  {
    hide Tight, TightEnd, Number;
    match i
    case One(f) =>
      NumberIsTight(f);
    case Range(f, l) =>
      NumberIsTight(l);
      RangeIsTight(f, l);
      assert f + "-" + l == f + ("-" + l);
    case Strided(f, l, s) =>
      StrideIsTight(l, s);
      RangeIsTight(f, l + (":" + s));
      assert f + "-" + l + ":" + s == f + ("-" + (l + (":" + s)));
  }

  lemma NumberIsTight(d: string)
    requires Number(d)
    ensures Tight(d) && TightEnd(d) && TightStride(d)
  {
    hide Value;
    DigitsThen(d, "");
    assert d + "" == d && d[..|d|] == d;
  }

  lemma RangeIsTight(f: string, t: string)
    requires Number(f) && TightEnd(t)
    ensures Tight(f + ("-" + t))
  {
    hide Value, TightEnd;
    DigitsThen(f, "-" + t);
    assert (f + ("-" + t))[..|f|] == f && (f + ("-" + t))[|f| + 1..] == t;
  }

  lemma StrideIsTight(l: string, s: string)
    requires Number(l) && Number(s)
    ensures TightEnd(l + (":" + s))
  {
    NumberIsTight(s);
    hide Value, TightStride;
    DigitsThen(l, ":" + s);
    assert (l + (":" + s))[..|l|] == l && (l + (":" + s))[|l| + 1..] == s;
  }

  ghost predicate Written(text: string, items: seq<Item>) {
    |items| > 0 && AllWellFormed(items) && ListText(items) == text
  }

  /** An entry which the parser accepts is written as it should be iff it is tight. */
  lemma EntryWellFormedIff(token: string)
    requires var e := ReadEntry(token); e.Entry? && e.a <= e.b
    ensures Tight(token) <==> exists i :: WellFormed(i) && ItemText(i) == token
  {
    if Tight(token) {
      var i := ItemOf(token);
      TightStep(token);
      TightIsRead(token);
      assert WellFormed(i) && ItemText(i) == token;
    }
    if i :| WellFormed(i) && ItemText(i) == token {
      ItemIsTight(i);
    }
  }

  /**
   * Of all the texts which the parser accepts, exactly those are well-formed lists whose entries
   * are tight: no gap before a sign or the end of an entry, and only numbers of 32 bits.
   */
  lemma {:induction false} AcceptedWellFormedIff(text: string, cpus: set<nat>, n: nat, fail: bool)
    requires var r := Parse(text, cpus, n, fail); r.Returns? && r.rc == 0
    ensures AllTight(text) <==> exists items :: Written(text, items)
    decreases |text|
  {
    hide ReadEntry, Index, Tight, ListText, ItemText, WellFormed, Walk, Below, Ends;
    if AllTight(text) {
      var items := TightIsWritten(text, cpus, n, fail);
    }
    if items :| Written(text, items) {
      WrittenIsTight(items);
    }
  }

  lemma {:induction false} TightIsWritten(text: string, cpus: set<nat>, n: nat, fail: bool) returns (items: seq<Item>)
    requires var r := Parse(text, cpus, n, fail); r.Returns? && r.rc == 0
    requires AllTight(text)
    ensures Written(text, items)
    decreases |text|
  {
    hide Parse, ReadEntry, Tight, ItemText, WellFormed, Walk, Below, Ends, Index, Written;
    var k := Index(text, ',');
    ParseUnfolds(text, k, cpus, n, fail);
    var e := ReadEntry(text[..k]);
    EntryWellFormedIff(text[..k]);
    var i :| WellFormed(i) && ItemText(i) == text[..k];
    if k == |text| {
      items := [i];
      LoneIsWritten(text, i);
    } else {
      var more := TightIsWritten(text[k + 1..], cpus + Below(Walk(e.a, e.b, e.s, n, fail).0, n), n, fail);
      items := [i] + more;
      MoreIsWritten(text, k, i, more);
    }
  }

  lemma LoneIsWritten(text: string, i: Item)
    requires WellFormed(i) && ItemText(i) == text[..|text|]
    ensures Written(text, [i])
  {
    hide ItemText, WellFormed;
    assert text[..|text|] == text;
  }

  lemma MoreIsWritten(text: string, k: nat, i: Item, more: seq<Item>)
    requires k < |text| && text[k] == ',' && WellFormed(i) && ItemText(i) == text[..k] && Written(text[k + 1..], more)
    ensures Written(text, [i] + more)
  {
    hide ItemText, WellFormed;
    assert ([i] + more)[1..] == more;
    assert text == text[..k] + "," + text[k + 1..];
  }

  lemma {:induction false} WrittenIsTight(items: seq<Item>)
    requires |items| > 0 && AllWellFormed(items)
    ensures AllTight(ListText(items))
  {
    FirstComma(items);
    ItemIsTight(items[0]);
    hide Tight, ItemText, ListText;
    if |items| > 1 {
      WrittenIsTight(items[1..]);
    }
  }

  /** A gap before the sign of a range is passed over. */
  lemma GapIsPassedOver(f: string, gap: string, l: string)
    requires Number(f) && Number(l) && gap != "" && !IsDigit(gap[0]) && ',' !in gap && '-' !in gap
    ensures ReadEntry(f + (gap + ("-" + l))) == Entry(Value(f), Value(l), 1, "")
    ensures !Tight(f + (gap + ("-" + l)))
  {
    hide Value, Read, ReadStride;
    ReadThen(f, gap + ("-" + l));
    DigitsThen(f, gap + ("-" + l));
    IndexThen(gap, "-" + l, '-');
    DashFirst(l);
    ReadNoStride(Value(f), Value(l));
    ReadThen(l, "");
    assert l + "" == l;
    assert (gap + ("-" + l))[|gap| + 1..] == l;
  }

  /** A number of more than 32 bits is cut to them. */
  lemma LargeNumberIsCut(d: string)
    requires d != "" && AllDigits(d) && UINT_MAX < Value(d) <= ULONG_MAX
    ensures ReadEntry(d) == Entry(Value(d) % WORD, Value(d) % WORD, 1, "")
    ensures !Tight(d)
  {
    hide Value;
    DigitsThen(d, "");
    assert d + "" == d && d[..|d|] == d && d[|d|..] == "";
  }

  /** Text behind a number is passed over if another entry follows. */
  lemma JunkIsPassedOver(f: string, junk: string, items: seq<Item>, n: nat)
    requires Number(f) && junk != "" && !IsDigit(junk[0]) && ',' !in junk && '-' !in junk
    requires |items| > 0 && AllWellFormed(items) && NoneWraps(items)
    ensures WellFormed(One(f))
    ensures Parse((f + junk) + ("," + ListText(items)), {}, n, false) ==
            if Value(f) < UINT_MAX then Returns(Below(Named([One(f)] + items), n), 0) else Endless
  {
    hide ReadEntry, Members, ListText, Value, Index, DigitCount, Named, AllDigits, Walk, Ends, Beyond, Top;
    var v := Value(f);
    JunkRead(f, junk);
    IndexThen(f + junk, "," + ListText(items), ',');
    Around(f + junk, ListText(items));
    LoneNumber(v, n);
    if v < UINT_MAX {
      var all := Below(Members(v, v, 1), n);
      ParseDenotes(items, all, n);
      NamedOne(One(f));
      NamedAppend([One(f)], items);
      assert {} + all == all;
      assert all + Below(Named(items), n) == Below(Named([One(f)] + items), n);
    }
  }

  /** The loop for a single number. */
  lemma LoneNumber(v: nat, n: nat)
    requires v <= UINT_MAX
    ensures Ends(v, v, 1, n, false) <==> v < UINT_MAX
    ensures v < UINT_MAX ==> WalksMembers(v, v, 1, n, false)
  {
    EndsIff(v, v, 1, n, false);
    assert Grain(1) == 1;
    if v < UINT_MAX {
      MembersOfRun(v, v);
      PlainWalk(v, v, 1, n, false);
    }
  }

  lemma Around(a: string, b: string)
    ensures (a + ("," + b))[..|a|] == a && (a + ("," + b))[|a| + 1..] == b
    ensures Index("," + b, ',') == 0
  {
  }

  /** At the end of the list the same text makes the list malformed. */
  lemma JunkAtEnd(f: string, junk: string, n: nat)
    requires Number(f) && junk != "" && !IsDigit(junk[0]) && ',' !in junk && '-' !in junk
    ensures var r := Parse(f + junk, {}, n, false);
            if Value(f) < UINT_MAX then r.Returns? && r.rc == 1 else r == Endless
  {
    hide ReadEntry, Members, Value, Walk, Ends, Top;
    JunkRead(f, junk);
    assert (f + junk) + "" == f + junk;
    IndexThen(f + junk, "", ',');
    LoneNumber(Value(f), n);
  }

  lemma JunkRead(f: string, junk: string)
    requires Number(f) && junk != "" && !IsDigit(junk[0]) && ',' !in junk && '-' !in junk
    ensures ',' !in f + junk && ReadEntry(f + junk) == Entry(Value(f), Value(f), 1, junk)
  {
    ReadThen(f, junk);
    assert junk + "" == junk;
    IndexThen(junk, "", '-');
    hide Read;
  }
}
