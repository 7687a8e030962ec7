/**
 * The loop over a range of CPUs with a stride, on a counter of 32 bits: which numbers it visits,
 * and exactly when it ends.
 */
module RangeLoop {
  import opened Arithmetic

  const UINT_MAX := 0xFFFF_FFFF
  const WORD := 0x1_0000_0000

  // ----- The numbers which are meant -----

  /** `a`, `a + s` and so on up to `b`. */
  function Members(a: nat, b: nat, s: nat): (r: set<nat>)
    requires s > 0
    decreases b + 1 - a
  {
    if a > b then {} else {a} + Members(a + s, b, s)
  }

  /** The first of `a`, `a + s` and so on which exceeds `b`. */
  function Beyond(a: nat, b: nat, s: nat): (r: nat)
    requires s > 0
    ensures b < r && (a <= b ==> r <= b + s)
    decreases b + 1 - a
  {
    if a > b then a else Beyond(a + s, b, s)
  }

  lemma {:induction false} MembersAre(a: nat, b: nat, s: nat, x: nat)
    requires s > 0
    ensures x in Members(a, b, s) <==> a <= x <= b && (x - a) % s == 0
    decreases b + 1 - a
  {
    if a <= b {
      MembersAre(a + s, b, s, x);
      if a <= x {
        StepBack(x - a, s);
      }
    }
  }

  /** Remainders do not change by steps of `s`, and below `s` only 0 leaves none. */
  lemma StepBack(y: nat, s: nat)
    requires s > 0
    ensures y >= s ==> (y - s) % s == y % s
    ensures y < s ==> y % s == y
  {
    if y >= s {
      var q, r := (y - s) / s, (y - s) % s;
      assert y == s * (q + 1) + r by {
        assert s * (q + 1) == s * q + s;
      }
      RemainderIs(y, s, q + 1, r);
    } else {
      RemainderIs(y, s, 0, y);
    }
  }

  function Below(x: set<nat>, n: nat): (r: set<nat>)
    ensures forall c :: c in r <==> c in x && c < n
  {
    set c | c in x && c < n
  }

  // ----- The counter -----

  function Next(a: nat, s: nat): (r: nat)
    ensures r <= UINT_MAX
  {
    (a + s) % WORD
  }

  /** The counter after `k` rounds. */
  function Round(a: nat, s: nat, k: nat): nat {
    if k == 0 then a else Next(Round(a, s, k - 1), s)
  }

  /** The loop is left at `v`: the range is through, or a CPU is out of bounds and must not be. */
  predicate Stops(v: nat, b: nat, n: nat, fail: bool) {
    v > b || (fail && v >= n)
  }

  ghost predicate Ends(a: nat, b: nat, s: nat, n: nat, fail: bool) {
    exists k: nat :: Stops(Round(a, s, k), b, n, fail)
  }

  lemma {:induction false} Shift(a: nat, s: nat, k: nat)
    ensures Round(Next(a, s), s, k) == Round(a, s, k + 1)
  {
    if k > 0 {
      Shift(a, s, k - 1);
    }
  }

  ghost predicate FirstStop(a: nat, b: nat, s: nat, n: nat, fail: bool, k: nat) {
    && Stops(Round(a, s, k), b, n, fail)
    && forall i: nat :: i < k ==> !Stops(Round(a, s, i), b, n, fail)
  }

  lemma {:induction false} FirstStopExists(a: nat, b: nat, s: nat, n: nat, fail: bool, k: nat) returns (j: nat)
    requires Stops(Round(a, s, k), b, n, fail)
    ensures FirstStop(a, b, s, n, fail, j)
    decreases k
  {
    hide Round, Stops;
    j := k;
    if i: nat :| i < k && Stops(Round(a, s, i), b, n, fail) {
      j := FirstStopExists(a, b, s, n, fail, i);
    }
  }

  lemma EndsFirst(a: nat, b: nat, s: nat, n: nat, fail: bool)
    requires Ends(a, b, s, n, fail)
    ensures exists k: nat :: FirstStop(a, b, s, n, fail, k)
  {
    var k: nat :| Stops(Round(a, s, k), b, n, fail);
    var _ := FirstStopExists(a, b, s, n, fail, k);
  }

  /** How many rounds the loop makes. */
  ghost function Rounds(a: nat, b: nat, s: nat, n: nat, fail: bool): (k: nat)
    requires Ends(a, b, s, n, fail)
    ensures FirstStop(a, b, s, n, fail, k)
  {
    EndsFirst(a, b, s, n, fail);
    var k: nat :| FirstStop(a, b, s, n, fail, k);
    k
  }

  /** The values of the counter in the first `k` rounds. */
  ghost function Visited(a: nat, s: nat, k: nat): set<nat> {
    if k == 0 then {} else Visited(a, s, k - 1) + {Round(a, s, k - 1)}
  }

  /** What the loop does: the numbers it visits, and whether it gets through the range. */
  ghost function Walk(a: nat, b: nat, s: nat, n: nat, fail: bool): (set<nat>, bool)
    requires Ends(a, b, s, n, fail)
  {
    var k := Rounds(a, b, s, n, fail);
    (Visited(a, s, k), Round(a, s, k) > b)
  }

  lemma {:induction false} VisitedShift(a: nat, s: nat, k: nat)
    ensures Visited(a, s, k + 1) == {a} + Visited(Next(a, s), s, k)
  {
    if k > 0 {
      VisitedShift(a, s, k - 1);
      Shift(a, s, k - 1);
    }
  }

  lemma EndsUnfolds(a: nat, b: nat, s: nat, n: nat, fail: bool)
    ensures Stops(a, b, n, fail) ==> Ends(a, b, s, n, fail)
    ensures !Stops(a, b, n, fail) ==> (Ends(a, b, s, n, fail) <==> Ends(Next(a, s), b, s, n, fail))
  {
    hide Next;
    assert Round(a, s, 0) == a;
    if !Stops(a, b, n, fail) {
      if Ends(a, b, s, n, fail) {
        var k: nat :| Stops(Round(a, s, k), b, n, fail);
        assert k > 0;
        Shift(a, s, k - 1);
      }
      if Ends(Next(a, s), b, s, n, fail) {
        var k: nat :| Stops(Round(Next(a, s), s, k), b, n, fail);
        Shift(a, s, k);
      }
    }
  }

  /** The loop, one round at a time. */
  lemma WalkUnfolds(a: nat, b: nat, s: nat, n: nat, fail: bool)
    requires Ends(a, b, s, n, fail)
    ensures if Stops(a, b, n, fail) then
              Rounds(a, b, s, n, fail) == 0 && Walk(a, b, s, n, fail) == ({}, a > b)
            else
              && Ends(Next(a, s), b, s, n, fail)
              && Rounds(a, b, s, n, fail) == 1 + Rounds(Next(a, s), b, s, n, fail)
              && Walk(a, b, s, n, fail) == ({a} + Walk(Next(a, s), b, s, n, fail).0, Walk(Next(a, s), b, s, n, fail).1)
  {
    hide Next;
    EndsUnfolds(a, b, s, n, fail);
    var k := Rounds(a, b, s, n, fail);
    assert Round(a, s, 0) == a;
    if !Stops(a, b, n, fail) {
      var j := Rounds(Next(a, s), b, s, n, fail);
      Shift(a, s, k - 1);
      Shift(a, s, j);
      VisitedShift(a, s, j);
    }
  }

  // ----- When it ends -----

  function Pow2(m: nat): (p: nat)
    ensures p > 0
  {
    if m == 0 then 1 else 2 * Pow2(m - 1)
  }

  /** How often 2 divides a number. */
  function Twos(s: nat): nat
    requires s > 0
  {
    if s % 2 == 1 then 0 else 1 + Twos(s / 2)
  }

  /** The largest power of two which divides the stride. */
  function Grain(s: nat): (g: nat)
    requires s > 0
    ensures g > 0
  {
    Pow2(Twos(s))
  }

  /** The largest number which the counter ever reaches. */
  function Top(a: nat, s: nat): int
    requires s > 0
  {
    WORD - Grain(s) + a % Grain(s)
  }

  /** A number is its largest power of two times an odd one. */
  lemma {:induction false} OddPart(s: nat) returns (o: nat)
    requires s > 0
    ensures s == Grain(s) * o && o % 2 == 1
  {
    if s % 2 == 1 {
      o := s;
    } else {
      o := OddPart(s / 2);
      assert s == 2 * (s / 2);
      Times3(2, Grain(s / 2), o);
    }
  }

  lemma Times3(x: int, y: int, z: int)
    ensures x * (y * z) == (x * y) * z
  {
  }

  lemma {:induction false} Pow2Splits(m: nat, e: nat)
    requires e <= m
    ensures Pow2(m) == Pow2(e) * Pow2(m - e)
    decreases m
  {
    if e < m {
      Pow2Splits(m - 1, e);
      assert Pow2(m) == 2 * Pow2(m - 1);
      assert Pow2(m - e) == 2 * Pow2(m - 1 - e);
      Swap2(Pow2(e), Pow2(m - 1 - e));
    } else {
      assert Pow2(0) == 1;
    }
  }

  lemma Swap2(x: int, y: int)
    ensures 2 * (x * y) == x * (2 * y)
  {
  }

  lemma {:induction false} Pow2Grows(e: nat, m: nat)
    requires e <= m
    ensures Pow2(e) <= Pow2(m)
    decreases m
  {
    if e < m {
      Pow2Grows(e, m - 1);
    }
  }

  lemma WordIs()
    ensures Pow2(32) == WORD
  {
    assert Pow2(8) == 256;
    assert Pow2(16) == 65536;
    assert Pow2(24) == 16777216;
  }

  /** The power of two in a number of 32 bits divides their count. */
  lemma GrainDivides(s: nat) returns (h: nat)
    requires 0 < s <= UINT_MAX
    ensures WORD == Grain(s) * h && h > 0
    ensures Twos(s) <= 32 && h == Pow2(32 - Twos(s))
  {
    var o := OddPart(s);
    MultipleAtLeast(Grain(s), o);
    WordIs();
    if Twos(s) >= 32 {
      Pow2Grows(32, Twos(s));
    }
    Pow2Splits(32, Twos(s));
    h := Pow2(32 - Twos(s));
  }

  /** Multiples of an odd number reach every remainder of a power of two. */
  lemma {:induction false} OddReaches(o: nat, m: nat, c: int) returns (k: nat, x: int)
    requires o % 2 == 1
    ensures k * o == c + x * Pow2(m)
  {
    if m == 0 {
      k, x := 0, -c;
    } else {
      var p := Pow2(m - 1);
      var y;
      k, y := OddReaches(o, m - 1, c);
      if y % 2 == 0 {
        x := y / 2;
        HalfTimes(y, p);
      } else {
        HalfTimes(y + o, p);
        Distribute(k, p, o);
        Distribute(y, o, p);
        Commute(p, o);
        k, x := k + p, (y + o) / 2;
      }
    }
  }

  lemma HalfTimes(y: int, p: int)
    requires y % 2 == 0
    ensures y * p == (y / 2) * (2 * p)
  {
    var h := y / 2;
    assert y == 2 * h;
    Times3(h, 2, p);
  }

  lemma Distribute(x: int, y: int, z: int)
    ensures (x + y) * z == x * z + y * z
  {
  }

  lemma Commute(x: int, y: int)
    ensures x * y == y * x
  {
  }

  lemma NextIs(a: nat, s: nat)
    requires a <= UINT_MAX && s <= UINT_MAX
    ensures Next(a, s) == if a + s < WORD then a + s else a + s - WORD
  {
  }

  /** The remainder of the counter by the grain never changes. */
  lemma {:induction false} RoundGrain(a: nat, s: nat, g: nat, o: nat, h: nat, q: nat, r: nat, k: nat) returns (y: nat)
    requires a <= UINT_MAX && s <= UINT_MAX && s == g * o && WORD == g * h && a == g * q + r && r < g
    ensures Round(a, s, k) == g * y + r && Round(a, s, k) <= UINT_MAX
  {
    if k == 0 {
      y := q;
    } else {
      var z := RoundGrain(a, s, g, o, h, q, r, k - 1);
      NextIs(Round(a, s, k - 1), s);
      y := GrainStep(Round(a, s, k - 1), g, z, o, h, r);
    }
  }

  lemma FewGrains(g: nat, y: nat, h: nat, r: nat)
    requires g * y + r < g * h
    ensures y < h
  {
    if y >= h {
      Larger(g, h, y);
    }
  }

  /** A step by `o` grains on a counter of `h` grains. */
  lemma GrainStep(v: nat, g: nat, z: nat, o: nat, h: nat, r: nat) returns (y: nat)
    requires r < g && v == g * z + r && v < g * h
    ensures (if v + g * o < g * h then v + g * o else v + g * o - g * h) == g * y + r
  {
    Distribute(z, o, g);
    Commute(g, z);
    Commute(g, o);
    Commute(g, z + o);
    y := z + o;
    if v + g * o >= g * h {
      AtLeastOnce(g, z + o, h, r);
      Distribute(z + o - h, h, g);
      Commute(g, h);
      Commute(g, z + o - h);
      y := z + o - h;
    }
  }

  lemma AtLeastOnce(g: nat, y: nat, h: nat, r: nat)
    requires r < g && g * y + r >= g * h
    ensures y >= h
  {
    if y < h {
      Larger(g, y, h);
    }
  }

  lemma Larger(g: nat, h: int, y: int)
    requires h <= y
    ensures g * h <= g * y
    ensures h < y ==> g * h + g <= g * y
  {
    if h < y {
      MultipleAtLeast(g, y - h);
      assert g * y == g * h + g * (y - h);
    }
  }

  lemma {:induction false} RoundIs(a: nat, s: nat, k: nat) returns (q: nat)
    requires a <= UINT_MAX && s <= UINT_MAX
    ensures a + k * s == WORD * q + Round(a, s, k) && Round(a, s, k) <= UINT_MAX
  {
    if k == 0 {
      q := 0;
    } else {
      q := RoundIs(a, s, k - 1);
      NextIs(Round(a, s, k - 1), s);
      assert k * s == (k - 1) * s + s;
      if Round(a, s, k - 1) + s >= WORD {
        q := q + 1;
      }
    }
  }

  /** The counter never exceeds `Top`. */
  lemma NeverAboveTop(a: nat, s: nat, k: nat)
    requires a <= UINT_MAX && 0 < s <= UINT_MAX
    ensures Round(a, s, k) <= Top(a, s)
  {
    hide Round, Grain, Pow2, Twos;
    var g := Grain(s);
    var h := GrainDivides(s);
    var o := OddPart(s);
    var y := RoundGrain(a, s, g, o, h, a / g, a % g, k);
    FewGrains(g, y, h, a % g);
    Larger(g, y, h);
  }

  /** And it reaches it. */
  lemma ReachesTop(a: nat, s: nat) returns (k: nat)
    requires a <= UINT_MAX && 0 < s <= UINT_MAX
    ensures Round(a, s, k) == Top(a, s)
  {
    hide Round, Twos;
    var e := Twos(s);
    var g := Grain(s);
    var o := OddPart(s);
    var h := GrainDivides(s);
    var q, r := a / g, a % g;
    assert a == g * q + r;
    var x;
    k, x := OddReaches(o, 32 - e, h - 1 - q);
    var w := RoundIs(a, s, k);
    Commute(x, h);
    ReachedValue(g, o, h, q, r, k, x);
    assert a + k * s == WORD * x + Top(a, s);
    SameRemainder(WORD, w, Round(a, s, k), x, Top(a, s));
  }

  lemma ReachedValue(g: int, o: int, h: int, q: int, r: int, k: int, x: int)
    requires k * o == h - 1 - q + h * x
    ensures g * q + r + k * (g * o) == (g * h) * x + (g * h - g + r)
  {
    assert k * (g * o) == g * (k * o) by {
      Times3(k, g, o);
      Commute(k, g);
      Times3(g, k, o);
    }
    assert g * (h - 1 - q + h * x) == g * h - g - g * q + g * (h * x);
    Times3(g, h, x);
  }

  lemma SameRemainder(n: nat, q: int, r: int, q': int, r': int)
    requires 0 <= r < n && 0 <= r' < n && n * q + r == n * q' + r'
    ensures r == r'
  {
    if q < q' {
      Larger(n, q, q');
    } else if q' < q {
      Larger(n, q', q);
    }
  }

  /**
   * The loop ends iff the largest number which its counter reaches exceeds the range, or is out of
   * bounds when every CPU must fit.
   */
  lemma EndsIff(a: nat, b: nat, s: nat, n: nat, fail: bool)
    requires a <= UINT_MAX && 0 < s <= UINT_MAX
    ensures Ends(a, b, s, n, fail) <==> Top(a, s) > b || (fail && Top(a, s) >= n)
  {
    hide Round, Top;
    if Ends(a, b, s, n, fail) {
      var k: nat :| Stops(Round(a, s, k), b, n, fail);
      NeverAboveTop(a, s, k);
    }
    var k := ReachesTop(a, s);
    assert Stops(Round(a, s, k), b, n, fail) == Stops(Top(a, s), b, n, fail);
  }

  // ----- What it visits -----

  lemma {:induction false} AtLeast(a: nat, b: nat, s: nat)
    requires s > 0
    ensures forall x :: x in Members(a, b, s) ==> x >= a
    decreases b + 1 - a
  {
    if a <= b {
      AtLeast(a + s, b, s);
    }
  }

  /** The members which fit were visited, and all of them if the loop got through. */
  ghost predicate WalksMembers(a: nat, b: nat, s: nat, n: nat, fail: bool)
    requires s > 0 && Ends(a, b, s, n, fail)
  {
    var (visited, through) := Walk(a, b, s, n, fail);
    && through == (fail ==> forall x :: x in Members(a, b, s) ==> x < n)
    && (through ==> visited == Members(a, b, s))
    && Below(visited, n) == Below(Members(a, b, s), n)
  }

  /** Without wrapping around the loop visits the members of the range. */
  lemma {:induction false} PlainWalk(a: nat, b: nat, s: nat, n: nat, fail: bool)
    requires 0 < s <= UINT_MAX && Beyond(a, b, s) <= UINT_MAX
    ensures Ends(a, b, s, n, fail) && WalksMembers(a, b, s, n, fail)
    decreases b + 1 - a
  {
    hide Walk, Ends, Next;
    EndsUnfolds(a, b, s, n, fail);
    if a > b {
      WalkUnfolds(a, b, s, n, fail);
    } else if Stops(a, b, n, fail) {
      WalkUnfolds(a, b, s, n, fail);
      AtLeast(a, b, s);
      assert a in Members(a, b, s);
    } else {
      NextIs(a, s);
      PlainWalk(a + s, b, s, n, fail);
      WalkUnfolds(a, b, s, n, fail);
      assert Members(a, b, s) == {a} + Members(a + s, b, s);
    }
  }

  /** Where the counter first wraps around. */
  lemma {:induction false} WrapsAt(a: nat, b: nat, s: nat) returns (j: nat)
    requires a <= b <= UINT_MAX && 0 < s <= UINT_MAX && Beyond(a, b, s) > UINT_MAX
    ensures j > 0 && Round(a, s, j) == Beyond(a, b, s) - WORD
    ensures forall i: nat :: i < j ==> Round(a, s, i) <= b
    decreases b - a
  {
    NextIs(a, s);
    hide Next;
    assert Round(a, s, 0) == a;
    assert Round(a, s, 1) == Next(a, s);
    if a + s <= b {
      var i := WrapsAt(a + s, b, s);
      j := i + 1;
      Shift(a, s, i);
      forall k: nat | k < j
        ensures Round(a, s, k) <= b
      {
        if k > 0 {
          Shift(a, s, k - 1);
        }
      }
    } else {
      j := 1;
    }
  }

  lemma {:induction false} Cycle(a: nat, s: nat, j: nat, k: nat)
    requires Round(a, s, j) == a
    ensures Round(a, s, k + j) == Round(a, s, k)
  {
    if k > 0 {
      Cycle(a, s, j, k - 1);
    }
  }

  lemma {:induction false} IsVisited(a: nat, s: nat, k: nat, j: nat)
    requires j < k
    ensures Round(a, s, j) in Visited(a, s, k)
  {
    if j < k - 1 {
      IsVisited(a, s, k - 1, j);
    }
  }

  /** A range which wraps around and yet ends visits a number which is not one of its members. */
  lemma WrapVisitsOthers(a: nat, b: nat, s: nat, n: nat)
    requires a <= b <= UINT_MAX && 0 < s <= UINT_MAX && Beyond(a, b, s) > UINT_MAX
    requires Ends(a, b, s, n, false)
    ensures exists x :: x in Walk(a, b, s, n, false).0 && x !in Members(a, b, s)
  {
    hide Round, Ends, Members, Beyond;
    var j := WrapsAt(a, b, s);
    var k := Rounds(a, b, s, n, false);
    var x := Round(a, s, j);
    BeyondStep(a, b, s);
    assert Stops(Round(a, s, k), b, n, false);
    IsVisited(a, s, k, j);
    MembersAre(a, b, s, x);
    if x in Members(a, b, s) {
      StepBack(x - a, s);
      Cycle(a, s, j, k - j);
      assert false;
    }
  }

  /** For instance, 1 to 10 with a stride of 2^32 - 1: the counter goes from 1 to 0 and then behind the range. */
  lemma WrapExample(n: nat)
    ensures Ends(1, 10, UINT_MAX, n, false) && Walk(1, 10, UINT_MAX, n, false) == ({0, 1}, true)
    ensures Members(1, 10, UINT_MAX) == {1}
  {
    assert Next(1, UINT_MAX) == 0 && Next(0, UINT_MAX) == UINT_MAX;
    EndsUnfolds(1, 10, UINT_MAX, n, false);
    EndsUnfolds(0, 10, UINT_MAX, n, false);
    EndsUnfolds(UINT_MAX, 10, UINT_MAX, n, false);
    WalkUnfolds(1, 10, UINT_MAX, n, false);
    WalkUnfolds(0, 10, UINT_MAX, n, false);
    WalkUnfolds(UINT_MAX, 10, UINT_MAX, n, false);
    assert Members(1 + UINT_MAX, 10, UINT_MAX) == {};
    assert {1} + ({0} + {}) == {0, 1};
  }

  lemma BeyondStep(a: nat, b: nat, s: nat)
    requires a <= b && s > 0
    ensures b < Beyond(a, b, s) <= b + s
  {
  }

  /** A range which ends visits exactly its members iff it does not wrap around. */
  lemma VisitsMembersIff(a: nat, b: nat, s: nat, n: nat)
    requires a <= b <= UINT_MAX && 0 < s <= UINT_MAX && Ends(a, b, s, n, false)
    ensures Walk(a, b, s, n, false).0 == Members(a, b, s) <==> Beyond(a, b, s) <= UINT_MAX
  {
    hide Walk, Ends;
    if Beyond(a, b, s) <= UINT_MAX {
      PlainWalk(a, b, s, n, false);
    } else {
      WrapVisitsOthers(a, b, s, n);
    }
  }
}
