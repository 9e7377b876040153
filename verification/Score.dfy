// Backing a score up from the replies: the acceptance threshold, the weighted
// mean of the accepted replies, and the stochastic rounding.
module Score {
  import opened Geometry

  // exp(-y) for y >= 0: any function with values in (0, 1].
  ghost predicate Decay(e: real -> real) { forall y: real :: y >= 0.0 ==> 0.0 < e(y) <= 1.0 }

  // ---- round_stochastic ----

  function Truncated(x: real): int { if x >= 0.0 then x.Floor else -((-x).Floor) }

  // To the nearest integer, halves away from zero.
  function HalfAway(x: real): int { if x >= 0.0 then (x + 0.5).Floor else -((-x + 0.5).Floor) }

  // u in [0, 1) comes from hashing the move.
  function Rounded(x: real, u: real): int {
    var t := Truncated(x);
    if x == t as real then t
    else if Abs(t) <= 2 then HalfAway(x)
    else
      var b := x.Floor;
      if u < x - b as real then b + 1 else b
  }

  // Whichever way it rounds, integer bounds survive.
  lemma RoundingKeepsBounds(x: real, u: real, lo: int, hi: int)
    requires lo as real <= x <= hi as real
    ensures lo <= Rounded(x, u) <= hi
  {
  }

  // Integers stay; otherwise the result is one of the two neighbours.
  lemma RoundsToNeighbour(x: real, u: real)
    ensures Rounded(x, u) == x.Floor || (Rounded(x, u) == x.Floor + 1 && x != x.Floor as real)
    ensures x - 1.0 < Rounded(x, u) as real < x + 1.0
  {
    var f := x.Floor;
    RoundingKeepsBounds(x, u, f, if x == f as real then f else f + 1);
    hide Rounded;
  }

  // What rounding is: to a neighbour of x, and to x itself if that is an integer. From 3 on away from zero it is
  // the upper one exactly when u is below the fraction, nearer to zero the nearest, halves away from zero.
  ghost predicate Rounds(x: real, u: real, r: int) {
    var d := r as real - x;
    && -1.0 < d < 1.0
    && (-3.0 < x < 3.0 ==> -0.5 <= d <= 0.5 && (d == 0.5 ==> x > 0.0) && (d == -0.5 ==> x < 0.0))
    && (!(-3.0 < x < 3.0) ==> (d > 0.0 ==> u < 1.0 - d) && (d < 0.0 ==> u >= -d))
  }

  lemma RoundedIs(x: real, u: real, r: int)
    ensures Rounds(x, u, r) <==> r == Rounded(x, u)
  {
    RoundedFits(x, u);
    if Rounds(x, u, r) {
      OneRounding(x, u, r, Rounded(x, u));
    }
  }

  lemma RoundedFits(x: real, u: real)
    ensures Rounds(x, u, Rounded(x, u))
  {
    var t, b := Truncated(x), x.Floor;
    assert x >= 0.0 ==> t == b;
    assert x < 0.0 && x != b as real ==> t == b + 1;
    if x == t as real {
      assert Rounded(x, u) == t;
    } else if Abs(t) <= 2 {
      hide Truncated;
      var h := HalfAway(x);
      assert -0.5 <= h as real - x <= 0.5;
    } else {
      hide Truncated, HalfAway;
      assert !(-3.0 < x < 3.0);
    }
  }

  lemma OneRounding(x: real, u: real, r: int, q: int)
    requires Rounds(x, u, r) && Rounds(x, u, q)
    ensures r == q
  {
  }

  // ---- getthrottle ----

  function Lowest(e: real -> real): real
    requires Decay(e)
  {
    -30.0 - 10.0 / (1.0 + e(3.0))
  }

  function Throttle(best: int, e: real -> real): real
    requires Decay(e)
  {
    var m := best as real;
    if best >= 75 then m
    else if best >= -30 then
      var t := m - 10.0 / (1.0 + e(Abs(best) as real / 10.0));
      if best > 50 then t + (m - 50.0) / 25.0 * (m - t) else t
    else if best > -50 then -50.0 + (m + 50.0) / 20.0 * (Lowest(e) + 50.0)
    else -50.0
  }

  lemma Shave(d: real)
    requires 0.0 < d <= 1.0
    ensures 5.0 <= 10.0 / (1.0 + d) < 10.0
  {
    var q := 10.0 / (1.0 + d);
    assert q * (1.0 + d) == 10.0;
  }

  lemma Product(x: real, y: real)
    requires x >= 0.0 && y >= 0.0
    ensures x * y >= 0.0
  {
  }

  lemma Blend(x: real, y: real, w: real)
    requires x <= y && 0.0 <= w <= 1.0
    ensures x <= x + w * (y - x) <= y
  {
    Product(w, y - x);
    Product(1.0 - w, y - x);
    assert w * (y - x) + (1.0 - w) * (y - x) == y - x;
  }

  // The threshold is less than ten below the best score, or is -50.
  lemma ThrottleBounds(best: int, e: real -> real)
    requires Decay(e)
    ensures best > -50 ==> best as real - 10.0 < Throttle(best, e) <= best as real
    ensures best <= -50 ==> Throttle(best, e) == -50.0
  {
    if -30 <= best < 75 {
      UpperRamp(best, e(Abs(best) as real / 10.0));
    } else if -50 < best < -30 {
      Shave(e(3.0));
      LowerRamp(best as real, Lowest(e));
    }
  }

  // The threshold, without divisions: a logistic curve less than ten below the best score from -30 to 50, drawn
  // up to the score itself at 75, and down in a straight line to -50 at -50.
  ghost predicate Throttles(best: int, e: real -> real, t: real) {
    var m := best as real;
    && (best >= 75 ==> t == m)
    && (50 < best < 75 ==> 25.0 * (m - t) * (1.0 + e(m / 10.0)) == 10.0 * (75.0 - m))
    && (0 <= best <= 50 ==> (m - t) * (1.0 + e(m / 10.0)) == 10.0)
    && (-30 <= best < 0 ==> (m - t) * (1.0 + e(-m / 10.0)) == 10.0)
    && (-50 < best < -30 ==> 2.0 * (t + 50.0) * (1.0 + e(3.0)) == (m + 50.0) * (1.0 + 2.0 * e(3.0)))
    && (best <= -50 ==> t == -50.0)
  }

  lemma ThrottleIs(best: int, e: real -> real)
    requires Decay(e)
    ensures Throttles(best, e, Throttle(best, e))
  {
    var m, t := best as real, Throttle(best, e);
    if 50 < best < 75 {
      UpperIs(m, e(m / 10.0), t);
    } else if -50 < best < -30 {
      LowerIs(m, e(3.0), t);
    }
  }

  lemma UpperIs(m: real, d: real, t: real)
    requires 0.0 < d <= 1.0
    requires var c := m - 10.0 / (1.0 + d); t == c + (m - 50.0) / 25.0 * (m - c)
    ensures 25.0 * (m - t) * (1.0 + d) == 10.0 * (75.0 - m)
  {
    var q, w := 10.0 / (1.0 + d), (m - 50.0) / 25.0;
    assert m - t == q - w * q == q * (1.0 - w);
    assert 25.0 * (1.0 - w) == 75.0 - m;
    assert q * (1.0 + d) == 10.0;
    assert 25.0 * (q * (1.0 - w)) * (1.0 + d) == (q * (1.0 + d)) * (25.0 * (1.0 - w));
  }

  lemma LowerIs(m: real, d: real, t: real)
    requires 0.0 < d <= 1.0 && t == -50.0 + (m + 50.0) / 20.0 * (-30.0 - 10.0 / (1.0 + d) + 50.0)
    ensures 2.0 * (t + 50.0) * (1.0 + d) == (m + 50.0) * (1.0 + 2.0 * d)
  {
    var q, w := 10.0 / (1.0 + d), (m + 50.0) / 20.0;
    assert q * (1.0 + d) == 10.0;
    assert t + 50.0 == w * (20.0 - q);
    assert 20.0 * w == m + 50.0;
    assert (20.0 - q) * (1.0 + d) == 10.0 + 20.0 * d;
    assert 2.0 * (w * (20.0 - q)) * (1.0 + d) == 2.0 * w * ((20.0 - q) * (1.0 + d));
    assert 2.0 * w * (10.0 + 20.0 * d) == 20.0 * w * (1.0 + 2.0 * d);
  }

  lemma UpperRamp(best: int, d: real)
    requires 0.0 < d <= 1.0
    ensures var m := best as real; var t := m - 10.0 / (1.0 + d);
      && m - 10.0 < t <= m - 5.0
      && (50 < best < 75 ==> t <= t + (m - 50.0) / 25.0 * (m - t) <= m)
  {
    var m := best as real;
    Shave(d);
    var t := m - 10.0 / (1.0 + d);
    if 50 < best < 75 {
      Blend(t, m, (m - 50.0) / 25.0);
    }
  }

  lemma LowerRamp(m: real, low: real)
    requires -50.0 < m < -30.0 && -40.0 < low <= -35.0
    ensures m - 10.0 < -50.0 + (m + 50.0) / 20.0 * (low + 50.0) <= m
  {
    var w, d := (m + 50.0) / 20.0, low + 50.0;
    assert 0.0 < w < 1.0 && 10.0 < d <= 15.0;
    assert w * 20.0 == m + 50.0;
    assert w * d == w * 20.0 - w * (20.0 - d);
    Scaled(w, 20.0 - d);
    assert -50.0 + w * d == m - w * (20.0 - d);
    assert (m + 50.0) / 20.0 * (low + 50.0) == w * d;
  }

  lemma Scaled(w: real, d: real)
    requires 0.0 < w < 1.0 && 0.0 < d < 10.0
    ensures 0.0 < w * d < 10.0
  {
    assert w * d == d - (1.0 - w) * d;
  }

  // ---- the replies ----

  ghost predicate Falling(s: seq<int>) { forall i, j :: 0 <= i <= j < |s| ==> s[i] >= s[j] }

  function Sum(s: seq<int>): int { if s == [] then 0 else Sum(s[..|s| - 1]) + s[|s| - 1] }

  // The n scores weighted n, n - 1, ..., 1.
  function Weighted(s: seq<int>): int { if s == [] then 0 else |s| * s[0] + Weighted(s[1..]) }

  function Tri(n: nat): nat { n * (n + 1) / 2 }

  function LinearMean(s: seq<int>): real
    requires s != []
  {
    TriPositive(|s|);
    Weighted(s) as real / Tri(|s|) as real
  }

  lemma TriPositive(n: nat)
    ensures n > 0 ==> Tri(n) >= n
    ensures n > 1 ==> Tri(n) > n
    ensures Tri(n + 1) == Tri(n) + n + 1 && 2 * Tri(n) == n * (n + 1)
  {
    if n > 1 {
      assert n * (n + 1) >= n * 3;
    }
    assert (n + 1) * (n + 2) == n * (n + 1) + 2 * (n + 1);
    Even(n);
  }

  lemma {:induction false} Even(n: nat)
    ensures n * (n + 1) % 2 == 0
  {
    if n > 0 {
      Even(n - 1);
      assert n * (n + 1) == (n - 1) * n + 2 * n;
    }
  }

  lemma {:induction false} SumMore(s: seq<int>)
    requires s != []
    ensures Sum(s) == s[0] + Sum(s[1..])
  {
    if |s| > 1 {
      var init := s[..|s| - 1];
      SumMore(init);
      assert s[1..][..|s| - 2] == init[1..];
    }
  }

  // Adding up prefix sums weights the scores linearly.
  lemma {:induction false} WeightedMore(s: seq<int>, x: int)
    ensures Weighted(s + [x]) == Weighted(s) + Sum(s) + x
  {
    if s == [] {
      assert [x][1..] == [];
    } else {
      WeightedMore(s[1..], x);
      SumMore(s);
      assert (s + [x])[1..] == s[1..] + [x];
      assert (|s| + 1) * s[0] == |s| * s[0] + s[0];
    }
  }

  lemma FallingPrefix(s: seq<int>)
    requires Falling(s) && s != []
    ensures Falling(s[..|s| - 1]) && s == s[..|s| - 1] + [s[|s| - 1]]
  {
  }

  // n falling scores from b down to y, at most gap apart, add up to m.
  ghost predicate Sums(n: nat, y: int, b: int, gap: int, m: int) {
    n * y <= m <= n * b && m >= n * b - (n - 1) * gap
  }

  // Their weighted sum is a, where t is the sum of the weights.
  ghost predicate Weighs(n: nat, t: int, b: int, gap: int, m: int, a: int) {
    2 * a >= (n + 1) * m && t * b - (t - n) * gap <= a <= t * b
  }

  lemma SumStep(n: nat, x: int, y: int, b: int, gap: int, m: int)
    requires n >= 1 && x <= y && x <= b && b - x <= gap && Sums(n, y, b, gap, m)
    ensures Sums(n + 1, x, b, gap, m + x)
  {
    assert n * x <= n * y;
    assert (n + 1) * x == n * x + x && (n + 1) * b == n * b + b && n * gap == (n - 1) * gap + gap;
  }

  lemma {:induction false} SumBounds(s: seq<int>, gap: int)
    requires Falling(s) && s != [] && s[0] - s[|s| - 1] <= gap
    ensures Sums(|s|, s[|s| - 1], s[0], gap, Sum(s))
  {
    var n, x := |s| - 1, s[|s| - 1];
    var init := s[..n];
    if n > 0 {
      FallingPrefix(s);
      SumBounds(init, gap);
      var y, b, m := init[n - 1], s[0], Sum(init);
      hide Falling, Sums;
      SumStep(n, x, y, b, gap, m);
    } else {
      assert init == [];
    }
  }

  lemma Grows(n: nat, x: int, y: int)
    requires x <= y
    ensures n * x <= n * y
  {
  }

  lemma Distributes(n: int, k: int, x: int)
    ensures (n + k) * x == n * x + k * x
  {
  }

  lemma TwiceStep(n: nat, x: int, y: int, m: int, a: int)
    requires n >= 1 && x <= y && n * y <= m && 2 * a >= (n + 1) * m
    ensures 2 * (a + m + x) >= (n + 2) * (m + x)
  {
    Grows(n, x, y);
    var nx, nm, am := n * x, n * m, (n + 1) * m;
    Distributes(n, 1, m);
    Distributes(n, 2, m + x);
    SpreadOut(n, m, x);
    var all := (n + 2) * (m + x);
    assert all == nm + nx + 2 * (m + x);
  }

  lemma SpreadOut(n: int, m: int, x: int)
    ensures n * (m + x) == n * m + n * x
  {
  }

  lemma GapStep(n: nat, t: nat, b: int, gap: int, m: int, a: int, x: int)
    requires n >= 1 && x <= b && b - x <= gap && m <= n * b && m >= n * b - (n - 1) * gap
    requires t * b - (t - n) * gap <= a <= t * b
    ensures (t + n + 1) * b - t * gap <= a + m + x <= (t + n + 1) * b
  {
    var nb, tb, tg, ng := n * b, t * b, t * gap, n * gap;
    Distributes(t, n, b);
    Distributes(t + n, 1, b);
    Distributes(t, 0 - n, gap);
    Distributes(n, -1, gap);
    Negated(n, gap);
    var low, less := (t - n) * gap, (n - 1) * gap;
    var all := (t + n + 1) * b;
    assert all == tb + nb + b && low == tg - ng && less == ng - gap;
  }

  lemma Negated(n: int, x: int)
    ensures -n * x == -(n * x)
  {
  }

  lemma WeightStep(n: nat, x: int, y: int, b: int, gap: int, m: int, a: int, t: nat)
    requires n >= 1 && x <= y && x <= b && b - x <= gap && Sums(n, y, b, gap, m) && Weighs(n, t, b, gap, m, a)
    ensures Weighs(n + 1, t + n + 1, b, gap, m + x, a + m + x)
  {
    TwiceStep(n, x, y, m, a);
    GapStep(n, t, b, gap, m, a, x);
  }

  lemma {:induction false} WeightedBounds(s: seq<int>, gap: int)
    requires Falling(s) && s != [] && s[0] - s[|s| - 1] <= gap
    ensures Weighs(|s|, Tri(|s|), s[0], gap, Sum(s), Weighted(s))
  {
    hide Tri, Sum;
    var n, x := |s| - 1, s[|s| - 1];
    var init := s[..n];
    FallingPrefix(s);
    if n > 0 {
      WeightedBounds(init, gap);
      hide Weighted, Weighs;
      WeightedLonger(init, x, gap);
    } else {
      assert s == [x] && [x][1..] == [];
      TriOne();
      assert Sum(s) == x by { SumMore(s); NoSum(); }
    }
  }

  lemma WeightedLonger(s: seq<int>, x: int, gap: int)
    requires s != [] && Falling(s) && x <= s[|s| - 1] <= s[0] && s[0] - x <= gap
    requires Weighs(|s|, Tri(|s|), s[0], gap, Sum(s), Weighted(s))
    ensures Weighs(|s| + 1, Tri(|s| + 1), s[0], gap, Sum(s + [x]), Weighted(s + [x]))
  {
    hide *;
    var n := |s|;
    var y, b := s[n - 1], s[0];
    SumBounds(s, gap);
    SumLast(s, x);
    WeightedMore(s, x);
    TriNext(n);
    var m, a, t := Sum(s), Weighted(s), Tri(n);
    WeightStep(n, x, y, b, gap, m, a, t);
  }

  lemma TriNext(n: nat)
    ensures Tri(n + 1) == Tri(n) + n + 1
  {
    TriPositive(n);
  }

  lemma TriOne()
    ensures Tri(0) == 0 && Tri(1) == 1
  {
  }

  lemma Quotient(w: int, t: nat)
    requires t > 0
    ensures w as real / t as real * t as real == w as real
  {
  }

  lemma QuotientAtMost(w: int, t: nat, b: int)
    requires t > 0 && w <= t * b
    ensures w as real / t as real <= b as real
  {
    var q, r := w as real / t as real, t as real;
    Quotient(w, t);
    assert (t * b) as real == r * b as real;
    if q > b as real {
      Less(b as real, q, r);
    }
  }

  lemma QuotientAtLeast(w: int, t: nat, b: int)
    requires t > 0 && w >= t * b
    ensures w as real / t as real >= b as real
  {
    var q, r := w as real / t as real, t as real;
    Quotient(w, t);
    assert (t * b) as real == r * b as real;
    if q < b as real {
      Less(q, b as real, r);
    }
  }

  lemma Less(x: real, y: real, r: real)
    requires x < y && r > 0.0
    ensures x * r < y * r
  {
  }

  lemma QuotientsOrdered(w: int, t: nat, v: int, n: nat)
    requires t > 0 && n > 0 && w * n >= v * t
    ensures v as real / n as real <= w as real / t as real
  {
    var p, q, r, k := w as real / t as real, v as real / n as real, t as real, n as real;
    Quotient(w, t);
    Quotient(v, n);
    assert (w * n) as real == w as real * k && (v * t) as real == v as real * r;
    assert p * (r * k) == (p * r) * k && q * (r * k) == (q * k) * r;
    if p < q {
      Less(p, q, r * k);
    }
  }

  // The linear mean lies between the plain mean and the best score.
  lemma MeanLiesBetween(s: seq<int>)
    requires Falling(s) && s != []
    ensures Sum(s) as real / |s| as real <= LinearMean(s) <= s[0] as real
  {
    var n, w, t, b, v := |s|, Weighted(s), Tri(|s|), s[0], Sum(s);
    WeightedBounds(s, b - s[n - 1]);
    TriPositive(n);
    hide Tri, Weighted, Sum, Falling;
    QuotientAtMost(w, t, b);
    Cross(w, n, v, t);
    QuotientsOrdered(w, t, v, n);
  }

  lemma Cross(w: int, n: nat, v: int, t: nat)
    requires 2 * w >= (n + 1) * v && 2 * t == n * (n + 1)
    ensures w * n >= v * t
  {
    assert (2 * w) * n >= ((n + 1) * v) * n;
    assert ((n + 1) * v) * n == v * (n * (n + 1)) == v * (2 * t);
  }

  // ---- the backed-up score ----

  function Accepted(s: seq<int>, t: real): nat {
    if s == [] || s[0] as real < t then 0 else 1 + Accepted(s[1..], t)
  }

  // The score stored for the move that leads to replies s, best first.
  function BackedUp(s: seq<int>, e: real -> real, u: real): int
    requires s != [] && Decay(e)
  {
    var best := s[0];
    var t := Throttle(best, e);
    AcceptedFits(s, t);
    var n := Accepted(s, t);
    var b := best as real;
    if Abs(best) >= 10000 then best
    else if n > 1 then Rounded((b * 3.0 + LinearMean(s[..n]) * 2.0) / 5.0, u)
    else if |s| > 1 then
      if 0 < best < 50 then Rounded((b * 4.0 + t) / 5.0, u)
      else if 50 <= best < 75 then Rounded((b * 13.0 + t * 2.0) / 15.0, u)
      else best
    else if 20 < Abs(best) < 100 then LoneScore(best, u)
    else best
  }

  // How far a lone reply is from 50 towards 100.
  function Far(best: int): real {
    var far := (Abs(best) as real - 50.0) / 50.0;
    if far > 0.0 then far else 0.0
  }

  // A lone reply is shrunk in two parts, each rounded.
  function LoneScore(best: int, u: real): int {
    Rounded(best as real * 0.9, u) + Rounded(LoneTail(best), u)
  }

  function LoneTail(best: int): real { best as real * 0.1 * Far(best) }

  lemma {:induction false} AcceptedFits(s: seq<int>, t: real)
    ensures Accepted(s, t) <= |s|
    ensures forall i :: 0 <= i < Accepted(s, t) ==> s[i] as real >= t
    ensures Accepted(s, t) < |s| ==> (s[Accepted(s, t)] as real) < t
  {
    if s != [] && s[0] as real >= t {
      AcceptedFits(s[1..], t);
      forall i | 0 <= i < Accepted(s, t)
        ensures s[i] as real >= t
      {
        if i > 0 {
          assert s[i] == s[1..][i - 1];
        }
      }
    }
  }

  // ---- what the value is ----

  // The first n replies reach t, the next one does not.
  ghost predicate Reach(s: seq<int>, t: real, n: nat) {
    n <= |s| && (forall i :: 0 <= i < n ==> s[i] as real >= t) && (n < |s| ==> (s[n] as real) < t)
  }

  // The sum of (|s| - i) * s[i] over i < k.
  ghost function Dot(s: seq<int>, k: nat): int
    requires k <= |s|
  {
    if k == 0 then 0 else Dot(s, k - 1) + (|s| - (k - 1)) * s[k - 1]
  }

  // Two or more accepted replies: three parts of the best, two of their mean weighted n, n - 1, ..., 1.
  ghost predicate Mixes(a: seq<int>, u: real, r: int) {
    var n := |a|;
    && n > 1
    && Rounds((3.0 * a[0] as real + 4.0 * Dot(a, n) as real / (n * (n + 1)) as real) / 5.0, u, r)
  }

  // One accepted reply of several: from 0 to 75 the threshold takes the place of the mean.
  ghost predicate Leans(best: int, t: real, u: real, r: int) {
    && (0 < best < 50 ==> Rounds((4.0 * best as real + t) / 5.0, u, r))
    && (50 <= best < 75 ==> Rounds((13.0 * best as real + 2.0 * t) / 15.0, u, r))
    && (best <= 0 || best >= 75 ==> r == best)
  }

  // A lone reply between 20 and 100 either way: nine tenths of it, and beyond 50 a part that grows to the last tenth.
  ghost predicate Shrinks(best: int, u: real, r: int) {
    if 20 < Abs(best) < 100 then
      var x := if Abs(best) <= 50 then 0.0 else (best * (Abs(best) - 50)) as real / 500.0;
      AddsUp(9.0 * best as real / 10.0, x, u, r)
    else r == best
  }

  // r is x rounded plus y rounded.
  ghost predicate AddsUp(x: real, y: real, u: real, r: int) { exists p: int :: Rounds(x, u, p) && Rounds(y, u, r - p) }

  // The score that replies s, best first, back up to when the threshold is t.
  ghost predicate Backs(s: seq<int>, t: real, u: real, r: int)
    requires s != []
  {
    if Abs(s[0]) >= 10000 then r == s[0] else exists n: nat :: Reach(s, t, n) && BacksFrom(s, t, n, u, r)
  }

  ghost predicate BacksFrom(s: seq<int>, t: real, n: nat, u: real, r: int)
    requires s != [] && Reach(s, t, n)
  {
    if n > 1 then Mixes(s[..n], u, r) else if |s| > 1 then Leans(s[0], t, u, r) else Shrinks(s[0], u, r)
  }

  // The score that replies s, best first, back up to.
  ghost predicate Worth(s: seq<int>, e: real -> real, u: real, r: int)
    requires s != []
  {
    exists t: real :: Throttles(s[0], e, t) && Backs(s, t, u, r)
  }

  lemma BackUpWorth(s: seq<int>, e: real -> real, u: real)
    requires s != [] && Decay(e)
    ensures Worth(s, e, u, BackedUp(s, e, u))
  {
    hide Throttles, Throttle, Backs, BackedUp;
    ThrottleIs(s[0], e);
    BackedUpIs(s, e, u);
  }

  lemma BackedUpIs(s: seq<int>, e: real -> real, u: real)
    requires s != [] && Decay(e)
    ensures Backs(s, Throttle(s[0], e), u, BackedUp(s, e, u))
  {
    var t := Throttle(s[0], e);
    var n, r := Accepted(s, t), BackedUp(s, e, u);
    AcceptedFits(s, t);
    assert Reach(s, t, n);
    if Abs(s[0]) < 10000 {
      hide Throttle, Accepted, BackedUp, BacksFrom, Decay;
      if n > 1 {
        ManyAccepted(s, e, u);
      } else if |s| > 1 {
        OneAccepted(s, e, u);
      } else {
        OneReply(s, e, u);
      }
      assert BacksFrom(s, t, n, u, r);
    }
  }

  lemma ManyAccepted(s: seq<int>, e: real -> real, u: real)
    requires s != [] && Decay(e) && Abs(s[0]) < 10000
    requires var t := Throttle(s[0], e); Reach(s, t, Accepted(s, t)) && Accepted(s, t) > 1
    ensures var t := Throttle(s[0], e); BacksFrom(s, t, Accepted(s, t), u, BackedUp(s, e, u))
  {
    hide Throttle, Accepted, Decay, Rounded, LinearMean, Mixes;
    var a := s[..Accepted(s, Throttle(s[0], e))];
    MixedIs(a, u);
    assert a[0] == s[0];
  }

  lemma OneAccepted(s: seq<int>, e: real -> real, u: real)
    requires s != [] && Decay(e) && Abs(s[0]) < 10000 && |s| > 1
    requires var t := Throttle(s[0], e); Reach(s, t, Accepted(s, t)) && Accepted(s, t) <= 1
    ensures var t := Throttle(s[0], e); BacksFrom(s, t, Accepted(s, t), u, BackedUp(s, e, u))
  {
    hide Throttle, Accepted, Decay, Rounded, LinearMean, Leans, Reach;
    var b, t := s[0] as real, Throttle(s[0], e);
    LeansIs(s[0], t, (b * 4.0 + t) / 5.0, (b * 13.0 + t * 2.0) / 15.0, u);
  }

  lemma OneReply(s: seq<int>, e: real -> real, u: real)
    requires s != [] && Decay(e) && Abs(s[0]) < 10000 && |s| == 1
    requires var t := Throttle(s[0], e); Reach(s, t, Accepted(s, t))
    ensures var t := Throttle(s[0], e); BacksFrom(s, t, Accepted(s, t), u, BackedUp(s, e, u))
  {
    hide Throttle, Accepted, Decay, Rounded, LinearMean, Shrinks, LoneScore;
    ShrunkIs(s[0], u);
  }

  lemma LeansIs(best: int, t: real, x: real, y: real, u: real)
    requires x == (best as real * 4.0 + t) / 5.0 && y == (best as real * 13.0 + t * 2.0) / 15.0
    ensures Leans(best, t, u, if 0 < best < 50 then Rounded(x, u) else if 50 <= best < 75 then Rounded(y, u) else best)
  {
    hide Rounded, Rounds;
    RoundedIs(x, u, Rounded(x, u));
    RoundedIs(y, u, Rounded(y, u));
  }

  lemma MixedIs(a: seq<int>, u: real)
    requires |a| > 1
    ensures Mixes(a, u, Rounded((a[0] as real * 3.0 + LinearMean(a) * 2.0) / 5.0, u))
  {
    var n, w, k := |a|, Weighted(a), Tri(|a|);
    DotIs(a, n);
    TriPositive(n);
    assert a[n..] == [];
    NoWeight();
    assert 2.0 * LinearMean(a) == 4.0 * w as real / (n * (n + 1)) as real by {
      hide Weighted, Tri, Dot;
      TwiceOver(w, k, n * (n + 1));
    }
    var x := (a[0] as real * 3.0 + LinearMean(a) * 2.0) / 5.0;
    RoundedIs(x, u, Rounded(x, u));
    hide Weighted, Tri, LinearMean, Dot, Rounded, Rounds;
  }

  lemma TwiceOver(w: int, k: nat, m: nat)
    requires k > 0 && m == 2 * k
    ensures 2.0 * (w as real / k as real) == 4.0 * w as real / m as real
  {
    assert m as real == 2.0 * k as real;
  }

  lemma {:induction false} DotIs(s: seq<int>, k: nat)
    requires k <= |s|
    ensures Dot(s, k) + Weighted(s[k..]) == Weighted(s)
  {
    if k > 0 {
      DotIs(s, k - 1);
      assert s[k - 1..][1..] == s[k..];
    } else {
      assert s[0..] == s;
    }
  }

  lemma ShrunkIs(best: int, u: real)
    ensures Shrinks(best, u, if 20 < Abs(best) < 100 then LoneScore(best, u) else best)
  {
    if 20 < Abs(best) < 100 {
      ShrunkParts(best, u);
    }
    hide LoneScore;
  }

  lemma ShrunkParts(best: int, u: real)
    requires 20 < Abs(best) < 100
    ensures Shrinks(best, u, LoneScore(best, u))
  {
    TailIs(best);
    var x, y := best as real * 0.9, LoneTail(best);
    var p, q := Rounded(x, u), Rounded(y, u);
    RoundedIs(x, u, p);
    RoundedIs(y, u, q);
    assert LoneScore(best, u) == p + q;
    hide LoneTail, LoneScore, Rounded, Rounds;
    assert x == 9.0 * best as real / 10.0;
    SumOfTwo(best, u, p, q);
  }

  lemma SumOfTwo(best: int, u: real, p: int, q: int)
    requires 20 < Abs(best) < 100 && Rounds(9.0 * best as real / 10.0, u, p)
    requires Rounds(if Abs(best) <= 50 then 0.0 else (best * (Abs(best) - 50)) as real / 500.0, u, q)
    ensures Shrinks(best, u, p + q)
  {
    hide Rounds;
    var r := p + q;
    assert r - p == q;
  }

  // Of two accepted replies the first has thirteen parts in fifteen.
  lemma TwoReplies(b: int, c: int, e: real -> real, u: real)
    requires Decay(e) && Abs(b) < 10000 && b >= c && c as real >= Throttle(b, e)
    ensures Rounds((13.0 * b as real + 2.0 * c as real) / 15.0, u, BackedUp([b, c], e, u))
  {
    var s, r, t := [b, c], BackedUp([b, c], e, u), Throttle(b, e);
    BackedUpIs(s, e, u);
    hide Throttle, Rounds, BackedUp, Decay, BacksFrom;
    var n: nat :| Reach(s, t, n) && BacksFrom(s, t, n, u, r);
    assert n == 2;
    assert s[..2] == s;
    TwoMixed(b, c, t, u, r);
  }

  lemma TwoMixed(b: int, c: int, t: real, u: real, r: int)
    requires Reach([b, c], t, 2) && BacksFrom([b, c], t, 2, u, r)
    ensures Rounds((13.0 * b as real + 2.0 * c as real) / 15.0, u, r)
  {
    hide Rounds;
    var s := [b, c];
    assert s[..2] == s;
    assert Dot(s, 1) == 2 * b;
    assert Dot(s, 2) == 2 * b + c;
  }

  // With two or more accepted replies the score lies in [best - 4, best].
  lemma BackupBound(s: seq<int>, e: real -> real, u: real)
    requires s != [] && Falling(s) && Decay(e) && Abs(s[0]) < 10000 && Accepted(s, Throttle(s[0], e)) > 1
    ensures s[0] - 4 <= BackedUp(s, e, u) <= s[0]
  {
    var best, t := s[0], Throttle(s[0], e);
    var n := Accepted(s, t);
    AcceptedFits(s, t);
    ThrottleBounds(best, e);
    hide Throttle, Accepted, Rounded, Decay;
    var a := s[..n];
    assert a[0] == best && a[n - 1] == s[n - 1] >= best - 9;
    AcceptedMean(a);
    var mean := LinearMean(a);
    hide LinearMean, Falling, Sum;
    RoundingKeepsBounds((best as real * 3.0 + mean * 2.0) / 5.0, u, best - 4, best);
  }

  lemma AcceptedMean(s: seq<int>)
    requires Falling(s) && s != [] && s[|s| - 1] >= s[0] - 9
    ensures s[0] as real - 9.0 <= LinearMean(s) <= s[0] as real
  {
    MeanAbove(s);
    MeanLiesBetween(s);
  }

  lemma MeanAbove(s: seq<int>)
    requires Falling(s) && s != [] && s[|s| - 1] >= s[0] - 9
    ensures LinearMean(s) >= s[0] as real - 9.0
  {
    var n, w, k, best := |s|, Weighted(s), Tri(|s|), s[0];
    WeightedBounds(s, 9);
    TriPositive(n);
    hide Tri, Weighted, Falling;
    WideGap(k, n, best, w);
    QuotientAtLeast(w, k, best - 9);
  }

  lemma WideGap(k: nat, n: nat, best: int, w: int)
    requires w >= k * best - (k - n) * 9
    ensures w >= k * (best - 9)
  {
  }

  // With one accepted reply of several the score loses at most two.
  lemma SingleAcceptedBound(s: seq<int>, e: real -> real, u: real)
    requires s != [] && Falling(s) && Decay(e) && |s| > 1 && Accepted(s, Throttle(s[0], e)) <= 1
    ensures s[0] - 2 <= BackedUp(s, e, u) <= s[0]
  {
    hide Tri, Weighted, Sum, Throttle, Accepted, Rounded;
    var best, t := s[0], Throttle(s[0], e);
    ThrottleBounds(best, e);
    AcceptedFits(s, t);
    var b := best as real;
    if 0 < best < 50 {
      RoundingKeepsBounds((b * 4.0 + t) / 5.0, u, best - 2, best);
    } else if 50 <= best < 75 {
      RoundingKeepsBounds((b * 13.0 + t * 2.0) / 15.0, u, best - 2, best);
    }
  }

  // A lone reply gains at most one, and keeps its sign.
  lemma LoneReplyBound(best: int, e: real -> real, u: real)
    requires Decay(e)
    ensures best > 0 ==> best - best / 10 - 2 <= BackedUp([best], e, u) <= best + 1 && BackedUp([best], e, u) > 0
    ensures best < 0 ==> best - 1 <= BackedUp([best], e, u) <= best + (-best) / 10 + 2 && BackedUp([best], e, u) < 0
    ensures best == 0 ==> BackedUp([best], e, u) == 0
  {
    hide Rounded, Throttle;
    var s := [best];
    assert s[1..] == [];
    assert Accepted(s, Throttle(best, e)) <= 1;
    hide LoneScore;
    if 20 < best < 100 {
      LoneGain(best, u);
    } else if 20 < -best < 100 {
      LoneLoss(best, u);
    }
  }

  lemma LoneGain(best: int, u: real)
    requires 20 < best < 100
    ensures best - best / 10 - 2 <= LoneScore(best, u) <= best + 1 && LoneScore(best, u) > 0
  {
    hide Rounded, LoneTail;
    TailBounds(best);
    var x, y := best as real * 0.9, LoneTail(best);
    RoundsToNeighbour(x, u);
    RoundsToNeighbour(y, u);
    RoundingKeepsBounds(y, u, 0, best);
    RoundingKeepsBounds(x, u, 18, best);
    GainParts(best, x, y, Rounded(x, u), Rounded(y, u));
  }

  lemma TailBounds(best: int)
    requires 20 < Abs(best) < 100
    ensures best > 0 ==> 0.0 <= LoneTail(best) < best as real * 0.1
    ensures best < 0 ==> best as real * 0.1 < LoneTail(best) <= 0.0
  {
    assert 0.0 <= Far(best) < 1.0;
    hide Far;
    SmallPart(best as real, Far(best), LoneTail(best));
  }

  lemma GainParts(best: int, x: real, y: real, p: int, q: int)
    requires x == best as real * 0.9 && 0.0 <= y < best as real * 0.1 && p > 0 && q >= 0
    requires x - 1.0 < p as real < x + 1.0 && y - 1.0 < q as real < y + 1.0
    ensures best - best / 10 - 2 <= p + q <= best + 1 && p + q > 0
  {
    assert best < 10 * (best / 10 + 1);
    assert (p + q) as real < best as real + 2.0;
    assert p as real > best as real - best as real * 0.1 - 1.0;
    assert best as real * 0.1 < (best / 10 + 1) as real;
  }

  lemma LoneLoss(best: int, u: real)
    requires 20 < -best < 100
    ensures best - 1 <= LoneScore(best, u) <= best + (-best) / 10 + 2 && LoneScore(best, u) < 0
  {
    hide Rounded, LoneTail;
    TailBounds(best);
    var x, y := best as real * 0.9, LoneTail(best);
    RoundsToNeighbour(x, u);
    RoundsToNeighbour(y, u);
    RoundingKeepsBounds(y, u, best, 0);
    RoundingKeepsBounds(x, u, best, -18);
    GainParts(-best, -x, -y, -Rounded(x, u), -Rounded(y, u));
  }

  // A lone reply is rounded twice. It gains by that only close to 100.
  ghost predicate Gains(best: int, u: real) {
    (best == 97 && u < 0.118) || (best == 98 && u < 0.2) || (best == 99 && u < 0.1)
  }

  ghost predicate Loses(best: int, u: real) {
    (best == -97 && u >= 0.882) || (best == -98 && u >= 0.8) || (best == -99 && u >= 0.9)
  }

  lemma LoneReplyExact(best: int, e: real -> real, u: real)
    requires Decay(e)
    ensures best >= 0 ==> (BackedUp([best], e, u) > best <==> Gains(best, u))
    ensures best <= 0 ==> (BackedUp([best], e, u) < best <==> Loses(best, u))
  {
    hide Rounded, Throttle, LoneScore;
    var s := [best];
    assert s[1..] == [];
    assert Accepted(s, Throttle(best, e)) <= 1;
    if 20 < Abs(best) <= 94 {
      FarFromHundred(best, u);
    } else if 94 < Abs(best) < 100 {
      NearHundred(best, u);
    }
  }

  // What the caller can test: away from 97, 98 and 99 a lone reply never gains, whatever u is.
  lemma LoneReplyNeverGains(best: int, e: real -> real)
    requires Decay(e)
    ensures (forall u: real :: 0.0 <= u < 1.0 ==> Abs(BackedUp([best], e, u)) <= Abs(best)) <==>
      !(97 <= Abs(best) <= 99)
  {
    hide BackedUp;
    forall u: real | 0.0 <= u < 1.0 && !(97 <= Abs(best) <= 99)
      ensures Abs(BackedUp([best], e, u)) <= Abs(best)
    {
      LoneReplyExact(best, e, u);
      LoneReplyBound(best, e, u);
    }
    if 97 <= Abs(best) <= 99 {
      var u := if best > 0 then 0.0 else 0.95;
      LoneReplyExact(best, e, u);
      assert Abs(BackedUp([best], e, u)) > Abs(best);
    }
  }

  lemma FarFromHundred(best: int, u: real)
    requires 20 < Abs(best) <= 94
    ensures best > 0 ==> LoneScore(best, u) <= best
    ensures best < 0 ==> LoneScore(best, u) >= best
  {
    var x, y, b := best as real * 0.9, LoneTail(best), Abs(best);
    var p, q := Rounded(x, u), Rounded(y, u);
    RoundsWithinOne(x, u);
    RoundsWithinOne(y, u);
    if b <= 50 {
      TailIs(best);
      RoundingKeepsBounds(y, u, 0, 0);
      hide *;
    } else {
      var w := FarTail(best, b);
      hide *;
      if best > 0 {
        TwoRoundings(b, w, x, y, p, q);
      } else {
        TwoRoundings(b, w, -x, -y, -p, -q);
      }
    }
  }

  lemma RoundsWithinOne(x: real, u: real)
    ensures x - 1.0 < Rounded(x, u) as real < x + 1.0
  {
    RoundsToNeighbour(x, u);
  }

  lemma FarTail(best: int, b: int) returns (w: int)
    requires b == Abs(best) && 50 < b <= 94
    ensures w <= 50 * b - 500 && LoneTail(best) == (if best > 0 then w else -w) as real / 500.0
  {
    w := b * (b - 50);
    TailIs(best);
    Wide(b);
    hide LoneTail;
    if best < 0 {
      Negated(b, b - 50);
      assert best * (b - 50) == -w;
    }
  }

  lemma TwoRoundings(b: int, w: int, x: real, y: real, p: int, q: int)
    requires w <= 50 * b - 500 && x == b as real * 0.9 && y == w as real / 500.0
    requires (p as real) < x + 1.0 && (q as real) < y + 1.0
    ensures p + q <= b
  {
    assert y <= b as real / 10.0 - 1.0;
    assert (p + q) as real < b as real + 1.0;
  }

  lemma TailIs(best: int)
    requires 20 < Abs(best) < 100
    ensures LoneTail(best) == if Abs(best) <= 50 then 0.0 else (best * (Abs(best) - 50)) as real / 500.0
  {
    if Abs(best) > 50 {
      var c := (Abs(best) - 50) as real;
      assert Far(best) == c / 50.0;
      assert (best * (Abs(best) - 50)) as real == best as real * c;
      TenthOfFiftieth(best as real, c);
    }
  }

  lemma TenthOfFiftieth(x: real, c: real)
    ensures x * 0.1 * (c / 50.0) == x * c / 500.0
  {
  }

  lemma Wide(b: int)
    requires 50 < b <= 94
    ensures b * (b - 50) <= 50 * b - 500
  {
    assert (b - 50) * (94 - b) >= 0;
    assert (b - 50) * (94 - b) == 144 * b - b * b - 4700;
  }

  lemma Steps(x: real, u: real, f: int)
    requires f as real < x < f as real + 1.0 && (f > 2 || f < -3)
    ensures Rounded(x, u) == if u < x - f as real then f + 1 else f
  {
    assert x.Floor == f;
    assert (-x).Floor == -f - 1;
  }

  lemma NearHundred(best: int, u: real)
    requires 94 < Abs(best) < 100
    ensures best > 0 ==> (LoneScore(best, u) > best <==> Gains(best, u))
    ensures best < 0 ==> (LoneScore(best, u) < best <==> Loses(best, u))
  {
    var p: int := if Abs(best) == 95 then 85 else if Abs(best) == 96 then 86 else Abs(best) - 10;
    var q: int := if Abs(best) <= 96 then 8 else 9;
    TailIs(best);
    hide LoneTail, Rounded;
    Steps(best as real * 0.9, u, if best > 0 then p else -p - 1);
    Steps(LoneTail(best), u, if best > 0 then q else -q - 1);
  }

  lemma SmallPart(b: real, f: real, y: real)
    requires 0.0 <= f < 1.0 && y == b * 0.1 * f
    ensures b > 0.0 ==> 0.0 <= y < b * 0.1
    ensures b < 0.0 ==> b * 0.1 < y <= 0.0
  {
    var c := b * 0.1;
    assert y == c - c * (1.0 - f);
    if b > 0.0 {
      assert c * (1.0 - f) > 0.0;
    } else if b < 0.0 {
      assert c * (1.0 - f) < 0.0;
    }
  }

  // The loop of the program: sums of sums over the accepted replies.
  method BackUp(s: seq<int>, e: real -> real, u: real) returns (score: int)
    requires s != [] && Decay(e)
    ensures score == BackedUp(s, e, u)
    ensures Worth(s, e, u, score)
  {
    hide Worth, Throttle, Rounded, Tri, Weighted, Truncated, HalfAway, Sum;
    var best := s[0];
    assert Sum([]) == 0 by { NoSum(); }
    var throttle := Throttle(best, e);
    var nextSum, nextCount, total := 0, 0, 0;
    assert Weighted([]) == 0 by { NoWeight(); }
    assert s[..0] == [] && s[0..] == s;
    while nextCount < |s| && s[nextCount] as real >= throttle
      invariant nextCount <= |s| && Accepted(s, throttle) == nextCount + Accepted(s[nextCount..], throttle)
      invariant nextSum == Sum(s[..nextCount]) && total == Weighted(s[..nextCount])
    {
      var x := s[nextCount];
      WeightedMore(s[..nextCount], x);
      SumLast(s[..nextCount], x);
      assert s[..nextCount + 1] == s[..nextCount] + [x];
      assert s[..nextCount + 1][..nextCount] == s[..nextCount];
      assert s[nextCount..][0] == x && s[nextCount..][1..] == s[nextCount + 1..];
      nextCount := nextCount + 1;
      nextSum := nextSum + x;
      total := total + nextSum;
    }
    score := best;
    var b := best as real;
    if Abs(best) < 10000 {
      if nextCount > 1 {
        TriPositive(nextCount);
        score := Rounded((b * 3.0 + total as real / Tri(nextCount) as real * 2.0) / 5.0, u);
      } else if |s| > 1 {
        if 0 < best < 50 {
          score := Rounded((b * 4.0 + throttle) / 5.0, u);
        } else if 50 <= best < 75 {
          score := Rounded((b * 13.0 + throttle * 2.0) / 15.0, u);
        }
      } else if 20 < Abs(best) < 100 {
        score := LoneScore(best, u);
      }
    }
    BackUpWorth(s, e, u);
  }

  lemma NoSum()
    ensures Sum([]) == 0
  {
  }

  lemma SumLast(s: seq<int>, x: int)
    ensures Sum(s + [x]) == Sum(s) + x
  {
    assert (s + [x])[..|s|] == s;
  }

  lemma NoWeight()
    ensures Weighted([]) == 0
  {
  }
}
