// The regression of csrc/get_clock.cc over the exact reals: the line through the samples, what
// it minimises, and what r^2 measures. An Option that is None stands for a result that is not a
// number, which is what a division of zero by zero gives there.

module ClockFit {
  import opened Wrappers

  const MIN_CORRELATION := 0.9

  datatype Point = Point(x: real, y: real)

  // The five sums of the loop, and the number of samples.
  datatype Sums = Sums(n: real, sx: real, sy: real, sxx: real, syy: real, sxy: real)

  // A product, as a function that a proof can hide.
  function Times(a: real, b: real): real { a * b }

  function Square(v: real): real { Times(v, v) }

  function Plus(s: Sums, p: Point): Sums {
    Sums(s.n + 1.0, s.sx + p.x, s.sy + p.y, s.sxx + Times(p.x, p.x), s.syy + Times(p.y, p.y), s.sxy + Times(p.x, p.y))
  }

  function Moments(ps: seq<Point>): (s: Sums)
    ensures s.n == |ps| as real
  {
    if ps == [] then Sums(0.0, 0.0, 0.0, 0.0, 0.0, 0.0) else Plus(Moments(ps[..|ps| - 1]), ps[|ps| - 1])
  }

  // The sum of squared errors of the line y = a + b x.
  ghost function Errors(ps: seq<Point>, a: real, b: real): real {
    if ps == [] then 0.0
    else
      var p := ps[|ps| - 1];
      Errors(ps[..|ps| - 1], a, b) + Square(p.y - a - Times(b, p.x))
  }

  ghost predicate OnLine(ps: seq<Point>, a: real, b: real) {
    forall i :: 0 <= i < |ps| ==> ps[i].y == a + Times(b, ps[i].x)
  }

  // ---------------------------------------------------------------- products and squares

  lemma Distribute(c: real, u: real, v: real)
    ensures Times(c, u + v) == Times(c, u) + Times(c, v)
    ensures Times(u + v, c) == Times(u, c) + Times(v, c)
  {
  }

  lemma Positive(u: real, v: real)
    requires u > 0.0 && v > 0.0
    ensures Times(u, v) > 0.0
  {
    assert u * v > 0.0;
  }

  lemma SquarePositive(v: real)
    requires v > 0.0
    ensures Square(v) > 0.0
  {
    Positive(v, v);
    hide Times;
  }

  lemma SquareNegate(v: real)
    ensures Square(-v) == Square(v)
  {
  }

  lemma SquareSign(v: real)
    ensures Square(v) >= 0.0 && (Square(v) == 0.0 <==> v == 0.0)
  {
    assert Square(0.0) == 0.0;
    hide Square;
    if v > 0.0 {
      SquarePositive(v);
    } else if v < 0.0 {
      SquarePositive(-v);
      SquareNegate(v);
    }
  }

  // ---------------------------------------------------------------- errors from the sums

  ghost function Expanded(s: Sums, a: real, b: real): real {
    s.syy - Times(2.0 * a, s.sy) - Times(2.0 * b, s.sxy)
    + Times(a * a, s.n) + Times(2.0 * a * b, s.sx) + Times(b * b, s.sxx)
  }

  lemma ExpandSquare(p: Point, a: real, b: real)
    ensures Square(p.y - a - Times(b, p.x))
      == Times(p.y, p.y) - Times(2.0 * a, p.y) - Times(2.0 * b, Times(p.x, p.y))
         + Times(a * a, 1.0) + Times(2.0 * a * b, p.x) + Times(b * b, Times(p.x, p.x))
  {
  }

  lemma ExpandPlus(s: Sums, p: Point, a: real, b: real)
    ensures Expanded(Plus(s, p), a, b) == Expanded(s, a, b) + Square(p.y - a - Times(b, p.x))
  {
    ExpandSquare(p, a, b);
    Distribute(2.0 * a, s.sy, p.y);
    Distribute(2.0 * b, s.sxy, Times(p.x, p.y));
    Distribute(a * a, s.n, 1.0);
    Distribute(2.0 * a * b, s.sx, p.x);
    Distribute(b * b, s.sxx, Times(p.x, p.x));
    hide Square, Times;
  }

  lemma {:induction false} ErrorsExpand(ps: seq<Point>, a: real, b: real)
    ensures Errors(ps, a, b) == Expanded(Moments(ps), a, b)
  {
    if ps == [] {
      assert Times(2.0 * a, 0.0) == Times(2.0 * b, 0.0) == Times(a * a, 0.0) == Times(2.0 * a * b, 0.0) ==
          Times(b * b, 0.0) == 0.0;
    } else {
      hide Expanded, Square, Plus, Times;
      ErrorsExpand(ps[..|ps| - 1], a, b);
      ExpandPlus(Moments(ps[..|ps| - 1]), ps[|ps| - 1], a, b);
    }
  }

  lemma {:induction false} ErrorsSign(ps: seq<Point>, a: real, b: real)
    ensures Errors(ps, a, b) >= 0.0 && (Errors(ps, a, b) == 0.0 <==> OnLine(ps, a, b))
  {
    if ps != [] {
      hide Square, Times;
      var k := |ps| - 1;
      ErrorsSign(ps[..k], a, b);
      SquareSign(ps[k].y - a - Times(b, ps[k].x));
      assert OnLine(ps, a, b) <==> OnLine(ps[..k], a, b) && ps[k].y == a + Times(b, ps[k].x);
    }
  }

  // ---------------------------------------------------------------- spread

  // n * sum of squares - square of the sum, of the x and of the y values; and the mixed term.
  function SpreadX(s: Sums): real { Times(s.n, s.sxx) - Times(s.sx, s.sx) }

  function SpreadY(s: Sums): real { Times(s.n, s.syy) - Times(s.sy, s.sy) }

  function Mixed(s: Sums): real { Times(s.n, s.sxy) - Times(s.sx, s.sy) }

  function Swapped(ps: seq<Point>): (r: seq<Point>)
    ensures |r| == |ps| && forall i :: 0 <= i < |ps| ==> r[i] == Point(ps[i].y, ps[i].x)
  {
    seq(|ps|, i requires 0 <= i < |ps| => Point(ps[i].y, ps[i].x))
  }

  ghost predicate ConstantX(ps: seq<Point>) {
    forall i, j :: 0 <= i < j < |ps| ==> ps[i].x == ps[j].x
  }

  ghost predicate ConstantY(ps: seq<Point>) {
    forall i, j :: 0 <= i < j < |ps| ==> ps[i].y == ps[j].y
  }

  // The level line through the mean of y has n * errors == spread.
  lemma MeanErrors(s: Sums, mean: real)
    requires s.n > 0.0 && Times(s.n, mean) == s.sy
    ensures Times(s.n, Expanded(s, mean, 0.0)) == SpreadY(s)
  {
    LevelExpanded(s, mean);
    Cancel(s.n, s.syy, mean, s.sy);
  }

  lemma LevelExpanded(s: Sums, mean: real)
    requires Times(s.n, mean) == s.sy
    ensures Expanded(s, mean, 0.0) == s.syy - Times(mean, s.sy)
  {
    assert Times(2.0 * 0.0, s.sxy) == 0.0 && Times(2.0 * mean * 0.0, s.sx) == 0.0 && Times(0.0 * 0.0, s.sxx) == 0.0;
    assert Times(mean * mean, s.n) == mean * (mean * s.n) == Times(mean, s.sy);
    assert Times(2.0 * mean, s.sy) == 2.0 * Times(mean, s.sy);
  }

  lemma Cancel(n: real, syy: real, mean: real, sy: real)
    requires Times(n, mean) == sy
    ensures Times(n, syy - Times(mean, sy)) == Times(n, syy) - Times(sy, sy)
  {
    assert n * (mean * sy) == (n * mean) * sy;
  }

  // The spread of the y values is never negative, and zero only if they are all the same.
  lemma SpreadSign(ps: seq<Point>)
    requires ps != []
    ensures SpreadY(Moments(ps)) >= 0.0 && (SpreadY(Moments(ps)) == 0.0 <==> ConstantY(ps))
  {
    var s := Moments(ps);
    var mean := s.sy / s.n;
    assert Times(s.n, mean) == s.sy;
    MeanErrors(s, mean);
    ErrorsExpand(ps, mean, 0.0);
    ErrorsSign(ps, mean, 0.0);
    ProductSign(s.n, Errors(ps, mean, 0.0));
    assert OnLine(ps, mean, 0.0) <==> forall i :: 0 <= i < |ps| ==> ps[i].y == mean by {
      forall i | 0 <= i < |ps| ensures Times(0.0, ps[i].x) == 0.0 {}
    }
    if ConstantY(ps) {
      Repeated(ps, ps[0].y);
      hide Moments, Errors, Expanded;
      assert mean == ps[0].y by { Quotient(s.n, ps[0].y, s.sy); }
    }
    hide Moments, Errors, Expanded, Times, OnLine, SpreadY;
  }

  lemma ProductSign(u: real, v: real)
    requires u > 0.0
    ensures v >= 0.0 ==> Times(u, v) >= 0.0
    ensures Times(u, v) == 0.0 <==> v == 0.0
  {
    if v > 0.0 {
      Positive(u, v);
    } else if v < 0.0 {
      Positive(u, -v);
      assert u * -v == -(u * v);
    }
  }

  lemma Quotient(n: real, v: real, s: real)
    requires n > 0.0 && s == Times(n, v)
    ensures s / n == v
  {
  }

  lemma {:induction false} Repeated(ps: seq<Point>, v: real)
    requires forall i :: 0 <= i < |ps| ==> ps[i].y == v
    ensures Moments(ps).sy == Times(|ps| as real, v)
  {
    if ps == [] {
      assert Times(0.0, v) == 0.0;
    } else {
      var k := |ps| - 1;
      Repeated(ps[..k], v);
      Distribute(v, k as real, 1.0);
      hide Times;
    }
  }

  lemma {:induction false} SwapMoments(ps: seq<Point>)
    ensures var s := Moments(ps);
      Moments(Swapped(ps)) == Sums(s.n, s.sy, s.sx, s.syy, s.sxx, s.sxy)
  {
    if ps != [] {
      var k := |ps| - 1;
      assert Swapped(ps)[..k] == Swapped(ps[..k]);
      SwapMoments(ps[..k]);
      assert Times(ps[k].x, ps[k].y) == Times(ps[k].y, ps[k].x);
      hide Times;
    }
  }

  // The denominator of the slope.
  lemma SpreadXSign(ps: seq<Point>)
    requires ps != []
    ensures SpreadX(Moments(ps)) >= 0.0 && (SpreadX(Moments(ps)) == 0.0 <==> ConstantX(ps))
  {
    var q := Swapped(ps);
    SwapMoments(ps);
    SpreadSign(q);
    hide Moments;
    assert ConstantY(q) <==> ConstantX(ps) by {
      if ConstantY(q) {
        forall i, j | 0 <= i < j < |ps| ensures ps[i].x == ps[j].x {
          assert q[i].y == q[j].y;
        }
      }
    }
  }

  // ---------------------------------------------------------------- the line

  function Slope(s: Sums): real
    requires SpreadX(s) != 0.0
  {
    Mixed(s) / SpreadX(s)
  }

  function Intercept(s: Sums): real
    requires SpreadX(s) != 0.0 && s.n != 0.0
  {
    (s.sy - Times(Slope(s), s.sx)) / s.n
  }

  // The two conditions that characterise the best line.
  ghost predicate Normal(s: Sums, a: real, b: real) {
    s.sy == a * s.n + b * s.sx && s.sxy == a * s.sx + b * s.sxx
  }

  lemma DivTimes(u: real, v: real)
    requires v != 0.0
    ensures (u / v) * v == u
  {
  }

  lemma LineIsNormal(s: Sums)
    requires s.n > 0.0 && SpreadX(s) != 0.0
    ensures Normal(s, Intercept(s), Slope(s))
  {
    var a, b := Intercept(s), Slope(s);
    DivTimes(s.sy - Times(b, s.sx), s.n);
    DivTimes(Mixed(s), SpreadX(s));
    assert a * s.n == s.sy - b * s.sx;
    assert b * SpreadX(s) == Mixed(s);
    SecondCondition(s.n, s.sx, s.sy, s.sxx, s.sxy, a, b);
  }

  lemma SecondCondition(n: real, sx: real, sy: real, sxx: real, sxy: real, a: real, b: real)
    requires n > 0.0 && a * n == sy - b * sx && b * (n * sxx - sx * sx) == n * sxy - sx * sy
    ensures sxy == a * sx + b * sxx
  {
    assert n * (a * sx) == (a * n) * sx == sy * sx - (b * sx) * sx;
    assert n * (b * sxx) == b * (n * sxx - sx * sx) + (b * sx) * sx;
    assert n * (a * sx + b * sxx) == n * sxy;
    CancelFactor(n, a * sx + b * sxx, sxy);
  }

  lemma CancelFactor(n: real, u: real, v: real)
    requires n > 0.0 && n * u == n * v
    ensures u == v
  {
  }

  // What a line (a + u) + (b + v) x loses against the line a + b x.
  ghost function Loss(s: Sums, u: real, v: real): real {
    u * u * s.n + 2.0 * u * v * s.sx + v * v * s.sxx
  }

  lemma Shift(s: Sums, a: real, b: real, u: real, v: real)
    requires Normal(s, a, b)
    ensures Expanded(s, a + u, b + v) == Expanded(s, a, b) + Loss(s, u, v)
  {
    ShiftTerms(s.n, s.sx, s.sxx, s.syy, a, b, u, v);
  }

  lemma ShiftTerms(n: real, sx: real, sxx: real, syy: real, a: real, b: real, u: real, v: real)
    ensures var s := Sums(n, sx, a * n + b * sx, sxx, syy, a * sx + b * sxx);
      Expanded(s, a + u, b + v) == Expanded(s, a, b) + Loss(s, u, v)
  {
  }

  lemma LossTerms(n: real, sx: real, sxx: real, u: real, v: real)
    ensures n * (u * u * n + 2.0 * u * v * sx + v * v * sxx)
      == (n * u + v * sx) * (n * u + v * sx) + v * v * (n * sxx - sx * sx)
  {
    var nu, w := n * u, v * sx;
    assert n * (u * u * n) == nu * nu;
    assert n * (2.0 * u * v * sx) == 2.0 * nu * w;
    assert v * v * (n * sxx - sx * sx) == n * (v * v * sxx) - w * w;
    assert (nu + w) * (nu + w) == nu * nu + 2.0 * nu * w + w * w;
  }

  // n * loss is a sum of two squares, the second one weighted.
  lemma LossIs(s: Sums, u: real, v: real)
    ensures Times(s.n, Loss(s, u, v)) == Square(s.n * u + v * s.sx) + Times(SpreadX(s), Square(v))
  {
    LossTerms(s.n, s.sx, s.sxx, u, v);
    assert v * v * (s.n * s.sxx - s.sx * s.sx) == (s.n * s.sxx - s.sx * s.sx) * (v * v);
  }

  lemma ZeroLine(n: real, sx: real, u: real, v: real)
    requires n > 0.0 && v == 0.0
    ensures n * u + v * sx == 0.0 <==> u == 0.0
  {
    assert v * sx == 0.0;
    ProductSign(n, u);
  }

  lemma LossSign(s: Sums, u: real, v: real)
    requires s.n > 0.0 && SpreadX(s) > 0.0
    ensures Loss(s, u, v) >= 0.0 && (Loss(s, u, v) == 0.0 <==> u == 0.0 && v == 0.0)
  {
    hide Loss, SpreadX, Square, Times;
    LossIs(s, u, v);
    SquareSign(s.n * u + v * s.sx);
    SquareSign(v);
    ProductSign(SpreadX(s), Square(v));
    ProductSign(s.n, Loss(s, u, v));
    SignOfFactor(s.n, Loss(s, u, v));
    if v == 0.0 {
      ZeroLine(s.n, s.sx, u, v);
    }
  }

  // ---------------------------------------------------------------- what the line and r^2 mean

  // Least squares: for x values that are not all the same, no line has fewer errors than the
  // computed one, and only that line has as few.
  lemma Optimal(ps: seq<Point>, a: real, b: real)
    requires ps != [] && !ConstantX(ps)
    ensures var s := Moments(ps);
      && s.n != 0.0 && SpreadX(s) != 0.0
      && Errors(ps, Intercept(s), Slope(s)) <= Errors(ps, a, b)
      && (Errors(ps, Intercept(s), Slope(s)) == Errors(ps, a, b) <==> a == Intercept(s) && b == Slope(s))
  {
    var s := Moments(ps);
    SpreadXSign(ps);
    LineIsNormal(s);
    var a0, b0 := Intercept(s), Slope(s);
    ErrorsExpand(ps, a0, b0);
    ErrorsExpand(ps, a, b);
    Shift(s, a0, b0, a - a0, b - b0);
    LossSign(s, a - a0, b - b0);
    hide Loss, Expanded, Errors, Moments, SpreadX, Slope, Intercept, Normal;
    assert a0 + (a - a0) == a && b0 + (b - b0) == b;
  }

  function RSquared(s: Sums): real
    requires SpreadX(s) != 0.0 && SpreadY(s) != 0.0
  {
    Times(Mixed(s), Mixed(s)) / SpreadX(s) / SpreadY(s)
  }

  // n * spread of x * least errors == spread of x * spread of y - mixed^2.
  lemma LeastErrors(s: Sums, a: real, b: real)
    requires s.n > 0.0 && Normal(s, a, b)
    ensures s.n * Expanded(s, a, b) == SpreadY(s) - b * Mixed(s)
    ensures b * SpreadX(s) == Mixed(s)
  {
    LeastTerms(s.n, s.sx, s.sxx, s.syy, a, b);
    assert s == Sums(s.n, s.sx, a * s.n + b * s.sx, s.sxx, s.syy, a * s.sx + b * s.sxx);
    hide Expanded, SpreadX, SpreadY, Mixed;
  }

  lemma LeastTerms(n: real, sx: real, sxx: real, syy: real, a: real, b: real)
    ensures var s := Sums(n, sx, a * n + b * sx, sxx, syy, a * sx + b * sxx);
      && n * Expanded(s, a, b) == SpreadY(s) - b * Mixed(s)
      && b * SpreadX(s) == Mixed(s)
  {
  }

  // b * mixed is r^2 times the spread of y.
  lemma RSquaredTerm(mixed: real, dx: real, dy: real, b: real)
    requires dx > 0.0 && dy > 0.0 && b * dx == mixed
    ensures (mixed * mixed / dx / dy) * dy == b * mixed
  {
    DivTimes(mixed * mixed / dx, dy);
    DivTimes(mixed * mixed, dx);
    assert mixed * mixed == (b * mixed) * dx;
    CancelFactor(dx, mixed * mixed / dx, b * mixed);
  }

  // r^2 is the share of the squared deviations of y from its mean that the line explains: it is
  // between 0 and 1, and 1 exactly if every sample is on the line.
  lemma Explained(ps: seq<Point>)
    requires ps != [] && !ConstantX(ps) && !ConstantY(ps)
    ensures var s := Moments(ps);
      && s.n != 0.0 && SpreadX(s) > 0.0 && SpreadY(s) > 0.0
      && var a, b, mean := Intercept(s), Slope(s), s.sy / s.n;
      && Errors(ps, mean, 0.0) > 0.0
      && Errors(ps, a, b) == (1.0 - RSquared(s)) * Errors(ps, mean, 0.0)
      && 0.0 <= RSquared(s) <= 1.0
      && (RSquared(s) == 1.0 <==> OnLine(ps, a, b))
  {
    hide Moments, Errors, Expanded, Times, Slope, Intercept, SpreadX, SpreadY, Mixed, OnLine, Normal, ConstantX,
         ConstantY;
    var s := Moments(ps);
    var mean := s.sy / s.n;
    SpreadXSign(ps);
    SpreadSign(ps);
    LineIsNormal(s);
    var a, b := Intercept(s), Slope(s);
    MeanOf(s.n, s.sy);
    LeastErrors(s, a, b);
    RSquaredTerm(Mixed(s), SpreadX(s), SpreadY(s), b);
    SquareIs(Mixed(s));
    ErrorsExpand(ps, a, b);
    ErrorsExpand(ps, mean, 0.0);
    MeanErrors(s, mean);
    ErrorsSign(ps, a, b);
    RSquaredSign(Mixed(s), SpreadX(s), SpreadY(s));
    ShareOf(s.n, Errors(ps, a, b), Errors(ps, mean, 0.0), RSquared(s));
  }

  lemma MeanOf(n: real, sum: real)
    requires n != 0.0
    ensures Times(n, sum / n) == sum
  {
  }

  lemma SquareIs(v: real)
    ensures Times(v, v) == v * v
  {
  }

  lemma RSquaredSign(mixed: real, dx: real, dy: real)
    requires dx > 0.0 && dy > 0.0
    ensures Times(mixed, mixed) / dx / dy >= 0.0
  {
    SquareSign(mixed);
  }

  lemma ShareOf(n: real, least: real, total: real, r2: real)
    requires n > 0.0 && least >= 0.0 && r2 >= 0.0 && Times(n, total) > 0.0
    requires n * least == Times(n, total) - r2 * Times(n, total)
    ensures total > 0.0 && least == (1.0 - r2) * total && r2 <= 1.0 && (r2 == 1.0 <==> least == 0.0)
  {
    SignOfFactor(n, total);
    assert n * least == n * ((1.0 - r2) * total);
    CancelFactor(n, least, (1.0 - r2) * total);
    SignOfFactor(total, 1.0 - r2);
    assert Times(total, 1.0 - r2) == least;
    ProductSign(total, 1.0 - r2);
  }

  lemma SignOfFactor(u: real, v: real)
    requires u > 0.0
    ensures Times(u, v) > 0.0 ==> v > 0.0
    ensures Times(u, v) >= 0.0 ==> v >= 0.0
  {
    if v < 0.0 {
      Positive(u, -v);
      assert Times(u, -v) == -Times(u, v);
    } else if v == 0.0 {
      assert Times(u, 0.0) == 0.0;
    }
  }

  // ---------------------------------------------------------------- the procedure

  function Samples(x: seq<int>, y: seq<int>): (ps: seq<Point>)
    requires |x| == |y|
    ensures |ps| == |x| && forall i :: 0 <= i < |x| ==> ps[i] == Point(x[i] as real, y[i] as real)
  {
    seq(|x|, i requires 0 <= i < |x| => Point(x[i] as real, y[i] as real))
  }

  // csrc/get_clock.cc:101-109.
  method Accumulate(x: array<int>, y: array<int>) returns (sx: real, sy: real, sxx: real, syy: real, sxy: real)
    requires x.Length == y.Length
    ensures Moments(Samples(x[..], y[..])) == Sums(x.Length as real, sx, sy, sxx, syy, sxy)
  {
    sx, sy, sxx, syy, sxy := 0.0, 0.0, 0.0, 0.0, 0.0;
    ghost var ps := Samples(x[..], y[..]);
    assert ps[..0] == [];
    for i := 0 to x.Length
      invariant Moments(ps[..i]) == Sums(i as real, sx, sy, sxx, syy, sxy)
    {
      var tx := x[i] as real;
      var ty := y[i] as real;
      sx := sx + tx;
      sy := sy + ty;
      sxx := sxx + tx * tx;
      syy := syy + ty * ty;
      sxy := sxy + tx * ty;
      assert ps[..i + 1][..i] == ps[..i] && ps[..i + 1][i] == Point(tx, ty);
    }
    assert ps[..x.Length] == ps;
  }

  ghost predicate Best(ps: seq<Point>, a: real, b: real) {
    forall a', b' :: Errors(ps, a, b) <= Errors(ps, a', b')
  }

  // r2 is the share of the squared deviations of y from its mean that the line accounts for.
  ghost predicate Accounts(ps: seq<Point>, a: real, b: real, r2: real)
    requires ps != []
  {
    var s := Moments(ps);
    0.0 <= r2 <= 1.0 && Errors(ps, a, b) == (1.0 - r2) * Errors(ps, s.sy / s.n, 0.0)
  }

  // The line leaves at most a tenth of the squared deviations of y from its mean.
  ghost predicate CloseFit(ps: seq<Point>, a: real, b: real)
    requires ps != []
  {
    Errors(ps, a, b) <= 0.1 * Errors(ps, Moments(ps).sy / Moments(ps).n, 0.0)
  }

  lemma Threshold(least: real, total: real, r2: real)
    requires total > 0.0 && least == (1.0 - r2) * total
    ensures least <= 0.1 * total <==> r2 >= 0.9
  {
    assert 0.1 * total - least == Times(total, r2 - 0.9);
    SignOfFactor(total, r2 - 0.9);
    if r2 >= 0.9 {
      ProductSign(total, r2 - 0.9);
    }
  }

  // Where r2 says nothing, because all y are the same, the line is without errors.
  lemma FlatFit(ps: seq<Point>, a: real, b: real)
    requires ps != [] && Best(ps, a, b) && ConstantY(ps)
    ensures CloseFit(ps, a, b)
  {
    var s := Moments(ps);
    var mean := s.sy / s.n;
    hide Moments, Errors, Expanded, Times, SpreadY, ConstantY, OnLine;
    SpreadSign(ps);
    MeanOf(s.n, s.sy);
    MeanErrors(s, mean);
    ErrorsExpand(ps, mean, 0.0);
    ErrorsSign(ps, a, b);
    SignOfFactor(s.n, Errors(ps, mean, 0.0));
    assert Errors(ps, a, b) <= Errors(ps, mean, 0.0);
  }

  lemma FitFacts(ps: seq<Point>, s: Sums)
    requires ps != [] && s == Moments(ps) && SpreadX(s) != 0.0
    ensures CloseFit(ps, Intercept(s), Slope(s)) <==> SpreadY(s) == 0.0 || RSquared(s) >= 0.9
  {
    LineFacts(ps, s);
    hide Moments, Errors, SpreadX, SpreadY, Intercept, Slope, RSquared, ConstantX, ConstantY, Best;
    if SpreadY(s) == 0.0 {
      FlatFit(ps, Intercept(s), Slope(s));
    } else {
      Explained(ps);
      Threshold(Errors(ps, Intercept(s), Slope(s)), Errors(ps, s.sy / s.n, 0.0), RSquared(s));
    }
  }

  lemma LineFacts(ps: seq<Point>, s: Sums)
    requires ps != [] && s == Moments(ps)
    ensures SpreadX(s) == 0.0 <==> ConstantX(ps)
    ensures SpreadY(s) == 0.0 <==> ConstantY(ps)
    ensures SpreadX(s) != 0.0 ==> Best(ps, Intercept(s), Slope(s))
    ensures SpreadX(s) != 0.0 && SpreadY(s) != 0.0 ==> Accounts(ps, Intercept(s), Slope(s), RSquared(s))
  {
    hide Moments, Errors, SpreadX, SpreadY, Intercept, Slope, RSquared;
    SpreadXSign(ps);
    SpreadSign(ps);
    if SpreadX(s) != 0.0 {
      forall a, b ensures Errors(ps, Intercept(s), Slope(s)) <= Errors(ps, a, b) {
        Optimal(ps, a, b);
      }
      if SpreadY(s) != 0.0 {
        Explained(ps);
      }
    }
  }

  // csrc/get_clock.cc:111-131, with the sums of the loop before it. `line` and `r2` are the
  // variables a, b and r_2; `mhz` is what is returned: the cycles per microsecond, 0 when the
  // samples are too far from a line, and not a number when the x values are all the same.
  method SampleGetCpuMhz(x: array<int>, y: array<int>)
      returns (line: Option<(real, real)>, r2: Option<real>, mhz: Option<real>)
    requires x.Length == y.Length > 0
    ensures var ps := Samples(x[..], y[..]);
      && (line.None? <==> ConstantX(ps)) && (r2.None? <==> ConstantX(ps) || ConstantY(ps))
      && (line.Some? ==> Best(ps, line.value.0, line.value.1))
      && (r2.Some? ==> Accounts(ps, line.value.0, line.value.1, r2.value))
      && mhz == (if line.None? then None
                 else if CloseFit(ps, line.value.0, line.value.1) then Some(line.value.1)
                 else Some(0.0))
  {
    hide Moments, Best, Accounts, CloseFit, ConstantX, ConstantY, Samples;
    var sx, sy, sxx, syy, sxy := Accumulate(x, y);
    var n := x.Length as real;
    ghost var s := Sums(n, sx, sy, sxx, syy, sxy);
    LineFacts(Samples(x[..], y[..]), s);
    var dx, dy := n * sxx - sx * sx, n * syy - sy * sy;
    assert dx == SpreadX(s) && dy == SpreadY(s);
    if dx == 0.0 {
      return None, None, None;
    }
    var mixed := n * sxy - sx * sy;
    var b := mixed / dx;
    var a := (sy - b * sx) / n;
    assert mixed == Mixed(s) && a == Intercept(s) && b == Slope(s);
    FitFacts(Samples(x[..], y[..]), s);
    line, r2, mhz := Some((a, b)), None, Some(b);
    if dy != 0.0 {
      hide SpreadX, SpreadY, Mixed, Intercept, Slope;
      var v := mixed * mixed / dx / dy;
      SquareIs(mixed);
      assert v == RSquared(s) by { hide Times; }
      r2 := Some(v);
      if v < MIN_CORRELATION {
        mhz := Some(0.0);
      }
    }
  }
}
