/** Nonnegative ridge regression by coordinate descent, over weighted rows of three components. */
module Regression {
  const RIDGE: real := 0.001
  const SWEEPS: nat := 300

  function Times(a: real, b: real): real { a * b }

  function Square(x: real): real { x * x }

  function Ridge(x: real): real { 0.001 * x }

  // ---- vectors of overhead, prefill and decode time ----

  datatype Vec = Vec(x0: real, x1: real, x2: real) {
    function At(i: nat): real
      requires i < 3
    {
      if i == 0 then x0 else if i == 1 then x1 else x2
    }

    function With(i: nat, z: real): Vec
      requires i < 3
    {
      if i == 0 then this.(x0 := z) else if i == 1 then this.(x1 := z) else this.(x2 := z)
    }

    function Dot(v: Vec): real { x0 * v.x0 + x1 * v.x1 + x2 * v.x2 }

    function Minus(v: Vec): Vec { Vec(x0 - v.x0, x1 - v.x1, x2 - v.x2) }

    predicate NonNegative() { x0 >= 0.0 && x1 >= 0.0 && x2 >= 0.0 }
  }

  const ZERO := Vec(0.0, 0.0, 0.0)

  /** A weighted observation. */
  datatype Row = Row(w: real, x: Vec, y: real)

  predicate Weighted(rows: seq<Row>) { forall r :: r in rows ==> r.w > 0.0 }

  // ---- the normal equations, over the first `n` rows ----

  function GramRow(r: Row, i: nat, j: nat): real
    requires i < 3 && j < 3
  {
    r.w * r.x.At(i) * r.x.At(j)
  }

  function MomentRow(r: Row, i: nat): real
    requires i < 3
  {
    r.w * r.x.At(i) * r.y
  }

  function Gram(rows: seq<Row>, n: nat, i: nat, j: nat): real
    requires n <= |rows| && i < 3 && j < 3
  {
    if n == 0 then 0.0 else Gram(rows, n - 1, i, j) + GramRow(rows[n - 1], i, j)
  }

  function Moment(rows: seq<Row>, n: nat, i: nat): real
    requires n <= |rows| && i < 3
  {
    if n == 0 then 0.0 else Moment(rows, n - 1, i) + MomentRow(rows[n - 1], i)
  }

  /** The contribution of the coordinates below `k` other than `i`. */
  function Others(rows: seq<Row>, n: nat, beta: Vec, i: nat, k: nat): real
    requires n <= |rows| && i < 3 && k <= 3
  {
    if k == 0 then 0.0
    else Others(rows, n, beta, i, k - 1) + (if k - 1 == i then 0.0 else Times(Gram(rows, n, i, k - 1), beta.At(k - 1)))
  }

  function SquaredError(rows: seq<Row>, n: nat, beta: Vec): real
    requires n <= |rows|
  {
    if n == 0 then 0.0
    else SquaredError(rows, n - 1, beta) + RowError(rows[n - 1], beta)
  }

  function Objective(rows: seq<Row>, beta: Vec): real { SquaredError(rows, |rows|, beta) + Ridge(beta.Dot(beta)) }

  function Residual(rows: seq<Row>, beta: Vec, i: nat): real
    requires i < 3
  {
    Moment(rows, |rows|, i) - Others(rows, |rows|, beta, i, 3)
  }

  /** The division clamped at zero. */
  function Best(r: real, p: real): (z: real)
    requires p > 0.0
    ensures z >= 0.0
  {
    if r / p < 0.0 then 0.0 else r / p
  }

  /** One coordinate update. */
  function Step(rows: seq<Row>, beta: Vec, i: nat): (next: Vec)
    requires i < 3 && Gram(rows, |rows|, i, i) >= 0.0
  {
    beta.With(i, Best(Residual(rows, beta, i), Gram(rows, |rows|, i, i) + RIDGE))
  }

  lemma {:induction false} DiagonalNonNegative(rows: seq<Row>, n: nat, i: nat)
    requires Weighted(rows) && n <= |rows| && i < 3
    ensures Gram(rows, n, i, i) >= 0.0
  {
    if n > 0 {
      DiagonalNonNegative(rows, n - 1, i);
      var x := rows[n - 1].x.At(i);
      assert rows[n - 1] in rows && x * x >= 0.0;
      assert rows[n - 1].w * x * x == rows[n - 1].w * (x * x);
    }
  }

  /** The steps of a sweep, the first `k` coordinates in order. */
  function Swept(rows: seq<Row>, beta: Vec, k: nat): Vec
    requires Weighted(rows) && k <= 3
  {
    if k == 0 then beta
    else
      DiagonalNonNegative(rows, |rows|, k - 1);
      Step(rows, Swept(rows, beta, k - 1), k - 1)
  }

  function Descended(rows: seq<Row>, n: nat): Vec
    requires Weighted(rows)
  {
    if n == 0 then ZERO else Swept(rows, Descended(rows, n - 1), 3)
  }

  function Fit(rows: seq<Row>): Vec
    requires Weighted(rows)
  {
    Descended(rows, SWEEPS)
  }

  lemma SquareSign(p: real, d: real)
    requires p >= 0.0
    ensures p * (d * d) >= 0.0
  {
    assert d * d >= 0.0;
  }

  // ---- the Gram matrix is positive semidefinite ----

  function Term(rows: seq<Row>, n: nat, v: Vec, i: nat, j: nat): real
    requires n <= |rows| && i < 3 && j < 3
  {
    v.At(i) * v.At(j) * Gram(rows, n, i, j)
  }

  function Quadratic(rows: seq<Row>, n: nat, v: Vec): real
    requires n <= |rows|
  {
    Term(rows, n, v, 0, 0) + Term(rows, n, v, 0, 1) + Term(rows, n, v, 0, 2) +
    Term(rows, n, v, 1, 0) + Term(rows, n, v, 1, 1) + Term(rows, n, v, 1, 2) +
    Term(rows, n, v, 2, 0) + Term(rows, n, v, 2, 1) + Term(rows, n, v, 2, 2)
  }

  function WeightedSquares(rows: seq<Row>, n: nat, v: Vec): real
    requires n <= |rows|
  {
    if n == 0 then 0.0
    else WeightedSquares(rows, n - 1, v) + rows[n - 1].w * (v.Dot(rows[n - 1].x) * v.Dot(rows[n - 1].x))
  }

  /** The quadratic form of the accumulated matrix is a weighted sum of squares, so it is never negative. */
  lemma {:induction false} QuadraticIsWeightedSquares(rows: seq<Row>, n: nat, v: Vec)
    requires Weighted(rows) && n <= |rows|
    ensures Quadratic(rows, n, v) == WeightedSquares(rows, n, v) >= 0.0
  {
    if n > 0 {
      var r := rows[n - 1];
      assert r in rows;
      QuadraticIsWeightedSquares(rows, n - 1, v);
      SquareSign(r.w, v.Dot(r.x));
      forall i, j | 0 <= i < 3 && 0 <= j < 3
        ensures Term(rows, n, v, i, j) == Term(rows, n - 1, v, i, j) + TermRow(r, v, i, j)
      {
        TermOfRow(rows, n, v, i, j);
      }
      TermsOfRow(r, v);
      hide Term, TermRow, Vec.Dot;
      assert Quadratic(rows, n, v) == Quadratic(rows, n - 1, v) + r.w * (v.Dot(r.x) * v.Dot(r.x));
    }
  }

  function TermRow(r: Row, v: Vec, i: nat, j: nat): real
    requires i < 3 && j < 3
  {
    r.w * (v.At(i) * r.x.At(i)) * (v.At(j) * r.x.At(j))
  }

  lemma TermsOfRow(r: Row, v: Vec)
    ensures r.w * (v.Dot(r.x) * v.Dot(r.x)) ==
            TermRow(r, v, 0, 0) + TermRow(r, v, 0, 1) + TermRow(r, v, 0, 2) +
            TermRow(r, v, 1, 0) + TermRow(r, v, 1, 1) + TermRow(r, v, 1, 2) +
            TermRow(r, v, 2, 0) + TermRow(r, v, 2, 1) + TermRow(r, v, 2, 2)
  {
    RowQuadratic(r.w, v.x0 * r.x.x0, v.x1 * r.x.x1, v.x2 * r.x.x2, v.Dot(r.x));
  }

  lemma TermOfRow(rows: seq<Row>, n: nat, v: Vec, i: nat, j: nat)
    requires 0 < n <= |rows| && i < 3 && j < 3
    ensures Term(rows, n, v, i, j) == Term(rows, n - 1, v, i, j) + TermRow(rows[n - 1], v, i, j)
  {
    var r := rows[n - 1];
    var before, after := Gram(rows, n - 1, i, j), Gram(rows, n, i, j);
    hide Gram, Vec.At;
    TermGrows(r.w, v.At(i), v.At(j), r.x.At(i), r.x.At(j), before, after);
  }

  lemma TermGrows(w: real, vi: real, vj: real, xi: real, xj: real, before: real, after: real)
    requires after == before + w * xi * xj
    ensures vi * vj * after == vi * vj * before + w * (vi * xi) * (vj * xj)
  {
  }

  lemma RowQuadratic(w: real, s: real, t: real, u: real, dot: real)
    requires dot == s + t + u
    ensures w * (dot * dot) ==
            w * s * s + w * s * t + w * s * u + w * t * s + w * t * t + w * t * u + w * u * s + w * u * t + w * u * u
  {
  }

  // ---- one coordinate at a time ----

  lemma {:induction false} OthersOfRow(rows: seq<Row>, n: nat, beta: Vec, i: nat, k: nat)
    requires 0 < n <= |rows| && i < 3 && k <= 3
    ensures var r := rows[n - 1];
            Others(rows, n, beta, i, k) ==
            Others(rows, n - 1, beta, i, k) + OthersRow(r, beta, i, k)
  {
    if k > 0 {
      OthersOfRow(rows, n, beta, i, k - 1);
      var r, j := rows[n - 1], k - 1;
      OthersRowGrows(r, beta, i, j);
      Distribute(beta.At(j), Gram(rows, n - 1, i, j), GramRow(r, i, j), Gram(rows, n, i, j));
      hide OthersRow, GramRow, Gram, Times, Vec.At;
    }
  }

  lemma OthersRowGrows(r: Row, beta: Vec, i: nat, j: nat)
    requires i < 3 && j < 3
    ensures OthersRow(r, beta, i, j + 1) ==
            OthersRow(r, beta, i, j) + (if j == i then 0.0 else Times(GramRow(r, i, j), beta.At(j)))
  {
    hide Vec.At;
    if j != i {
      ProductGrows(r.w * r.x.At(i), PartialDot(beta, r.x, i, j), r.x.At(j), beta.At(j));
    }
  }

  lemma ProductGrows(wx: real, partial: real, x: real, b: real)
    ensures wx * (partial + x * b) == wx * partial + Times(wx * x, b)
  {
  }

  function OthersRow(r: Row, beta: Vec, i: nat, k: nat): real
    requires i < 3 && k <= 3
  {
    r.w * r.x.At(i) * PartialDot(beta, r.x, i, k)
  }

  function PartialDot(beta: Vec, x: Vec, i: nat, k: nat): real
    requires i < 3 && k <= 3
  {
    if k == 0 then 0.0 else PartialDot(beta, x, i, k - 1) + (if k - 1 == i then 0.0 else x.At(k - 1) * beta.At(k - 1))
  }

  lemma DotSplits(beta: Vec, x: Vec, i: nat, z: real)
    requires i < 3
    ensures beta.With(i, z).Dot(x) == PartialDot(beta, x, i, 3) + z * x.At(i)
  {
    assert PartialDot(beta, x, i, 1) == if i == 0 then 0.0 else x.x0 * beta.x0;
    assert PartialDot(beta, x, i, 2) == PartialDot(beta, x, i, 1) + if i == 1 then 0.0 else x.x1 * beta.x1;
    assert PartialDot(beta, x, i, 3) == PartialDot(beta, x, i, 2) + if i == 2 then 0.0 else x.x2 * beta.x2;
  }

  lemma SquareAlong(w: real, y: real, d: real, x: real, z: real, e: real, g: real, m: real, o: real)
    requires e == y - (d + z * x) && g == w * x * x && m == w * x * y && o == w * x * d
    ensures WeightedSquare(w, e) == Parabola(g, m - o, WeightedSquare(w, y - d), z)
  {
    assert e * e == (y - d) * (y - d) - 2.0 * ((y - d) * x) * z + x * x * (z * z);
    assert w * (x * x * (z * z)) == g * (z * z);
    assert w * ((y - d) * x) == m - o;
    assert w * (((y - d) * x) * z) == (m - o) * z;
  }

  /** Along one coordinate the squared error is a parabola with the matrix entry and the residual as coefficients. */
  lemma {:induction false} ErrorAlong(rows: seq<Row>, n: nat, beta: Vec, i: nat, z: real)
    requires n <= |rows| && i < 3
    ensures SquaredError(rows, n, beta.With(i, z)) ==
            Parabola(Gram(rows, n, i, i), Moment(rows, n, i) - Others(rows, n, beta, i, 3),
                     SquaredError(rows, n, beta.With(i, 0.0)), z)
  {
    hide Vec.Dot, Vec.With, Others, OthersRow, GramRow, MomentRow, RowError, Parabola;
    if n == 0 {
      OthersOfNone(rows, beta, i, 3);
      FlatParabola(z);
    } else {
      ErrorAlong(rows, n - 1, beta, i, z);
      OthersOfRow(rows, n, beta, i, 3);
      var r := rows[n - 1];
      RowAlong(r, beta, i, z);
      var before := Moment(rows, n - 1, i) - Others(rows, n - 1, beta, i, 3);
      var added := MomentRow(r, i) - OthersRow(r, beta, i, 3);
      ParabolasAdd(Gram(rows, n - 1, i, i), GramRow(r, i, i), before, added,
                   SquaredError(rows, n - 1, beta.With(i, 0.0)), RowError(r, beta.With(i, 0.0)), z);
      assert Moment(rows, n, i) - Others(rows, n, beta, i, 3) == before + added;
    }
  }

  lemma FlatParabola(z: real)
    ensures Parabola(0.0, 0.0, 0.0, z) == 0.0
  {
  }

  function WeightedSquare(w: real, e: real): real { w * (e * e) }

  function RowError(r: Row, beta: Vec): real { WeightedSquare(r.w, r.y - beta.Dot(r.x)) }

  lemma RowAlong(r: Row, beta: Vec, i: nat, z: real)
    requires i < 3
    ensures RowError(r, beta.With(i, z)) ==
            Parabola(GramRow(r, i, i), MomentRow(r, i) - OthersRow(r, beta, i, 3), RowError(r, beta.With(i, 0.0)), z)
  {
    hide Vec.Dot, Vec.With, PartialDot, WeightedSquare, Parabola, GramRow, MomentRow, OthersRow;
    DotSplits(beta, r.x, i, z);
    DotWithout(beta, r.x, i);
    RowParabola(r, beta, i, z, r.y - beta.With(i, z).Dot(r.x));
  }

  lemma DotWithout(beta: Vec, x: Vec, i: nat)
    requires i < 3
    ensures beta.With(i, 0.0).Dot(x) == PartialDot(beta, x, i, 3)
  {
    DotSplits(beta, x, i, 0.0);
  }

  lemma RowParabola(r: Row, beta: Vec, i: nat, z: real, e: real)
    requires i < 3 && e == r.y - (PartialDot(beta, r.x, i, 3) + z * r.x.At(i))
    ensures WeightedSquare(r.w, e) ==
            Parabola(GramRow(r, i, i), MomentRow(r, i) - OthersRow(r, beta, i, 3),
                     WeightedSquare(r.w, r.y - PartialDot(beta, r.x, i, 3)), z)
  {
    hide Vec.At, PartialDot, WeightedSquare, Parabola;
    SquareAlong(r.w, r.y, PartialDot(beta, r.x, i, 3), r.x.At(i), z, e,
                GramRow(r, i, i), MomentRow(r, i), OthersRow(r, beta, i, 3));
  }

  /** A parabola with leading coefficient `p`, vertex numerator `r` and value `c` at zero. */
  function Parabola(p: real, r: real, c: real, z: real): real { p * (z * z) - 2.0 * r * z + c }

  lemma ParabolasAdd(p: real, q: real, r: real, s: real, c: real, d: real, z: real)
    ensures Parabola(p, r, c, z) + Parabola(q, s, d, z) == Parabola(p + q, r + s, c + d, z)
  {
  }

  lemma {:induction false} OthersOfNone(rows: seq<Row>, beta: Vec, i: nat, k: nat)
    requires i < 3 && k <= 3
    ensures Others(rows, 0, beta, i, k) == 0.0
  {
    if k > 0 {
      OthersOfNone(rows, beta, i, k - 1);
    }
  }

  lemma ParabolaMinimum(p: real, r: real, c: real, z: real)
    requires p > 0.0 && z >= 0.0
    ensures var best := Best(r, p);
            Parabola(p, r, c, z) >= Parabola(p, r, c, best) + p * ((z - best) * (z - best))
  {
    var q := r / p;
    assert r == p * q;
    assert p * (z * z) - 2.0 * r * z == p * (z * z - 2.0 * q * z);
    if q < 0.0 {
      assert r < 0.0;
      assert r * z <= 0.0;
    } else {
      assert (z - q) * (z - q) == z * z - 2.0 * q * z + q * q;
      assert p * (q * q) - 2.0 * r * q == p * (q * q - 2.0 * q * q);
    }
  }

  lemma RidgeAlong(beta: Vec, i: nat, z: real)
    requires i < 3
    ensures Ridge(beta.With(i, z).Dot(beta.With(i, z))) ==
            Parabola(RIDGE, 0.0, Ridge(beta.With(i, 0.0).Dot(beta.With(i, 0.0))), z)
  {
  }

  /** The objective along one coordinate. */
  lemma ObjectiveAlong(rows: seq<Row>, beta: Vec, i: nat, z: real)
    requires i < 3
    ensures Objective(rows, beta.With(i, z)) ==
            Parabola(Gram(rows, |rows|, i, i) + RIDGE, Residual(rows, beta, i), Objective(rows, beta.With(i, 0.0)), z)
  {
    ErrorAlong(rows, |rows|, beta, i, z);
    RidgeAlong(beta, i, z);
    hide Vec.Dot, Vec.With, SquaredError, Gram, Parabola;
    ParabolasAdd(Gram(rows, |rows|, i, i), RIDGE, Residual(rows, beta, i), 0.0,
                 SquaredError(rows, |rows|, beta.With(i, 0.0)),
                 Ridge(beta.With(i, 0.0).Dot(beta.With(i, 0.0))), z);
  }

  /**
   A coordinate update is the exact minimiser of the objective over the nonnegative values of that
   coordinate, and every other value costs at least the ridge times the squared distance from it.
   */
  lemma StepIsExact(rows: seq<Row>, beta: Vec, i: nat, z: real)
    requires Weighted(rows) && i < 3 && z >= 0.0 && Gram(rows, |rows|, i, i) >= 0.0
    ensures var best := Step(rows, beta, i).At(i);
            Objective(rows, Step(rows, beta, i)) + Ridge(Square(z - best)) <= Objective(rows, beta.With(i, z))
  {
    var best := Step(rows, beta, i).At(i);
    var g := Gram(rows, |rows|, i, i);
    hide Objective, Residual, Gram, Parabola, Best, Square;
    assert Step(rows, beta, i) == beta.With(i, best);
    ObjectiveAlong(rows, beta, i, z);
    ObjectiveAlong(rows, beta, i, best);
    BestOfParabola(g, g + RIDGE, Residual(rows, beta, i), Objective(rows, beta.With(i, 0.0)), z, best);
  }

  lemma BestOfParabola(g: real, p: real, r: real, c: real, z: real, best: real)
    requires g >= 0.0 && z >= 0.0 && p == g + RIDGE && best == Best(r, p)
    ensures Parabola(p, r, c, best) + Ridge(Square(z - best)) <= Parabola(p, r, c, z)
  {
    ParabolaMinimum(p, r, c, z);
    RidgeOnTop(g, RIDGE, p, z - best);
  }

  lemma RidgeOnTop(g: real, ridge: real, p: real, d: real)
    requires g >= 0.0 && p == g + ridge
    ensures p * (d * d) >= ridge * (d * d)
  {
    SquareSign(g, d);
  }

  // ---- whole runs of the descent ----

  function Distance(u: Vec, v: Vec): real { u.Minus(v).Dot(u.Minus(v)) }

  lemma {:induction false} SweepShape(rows: seq<Row>, beta: Vec, k: nat)
    requires Weighted(rows) && beta.NonNegative() && k <= 3
    ensures Swept(rows, beta, k).NonNegative() && forall i :: k <= i < 3 ==> Swept(rows, beta, k).At(i) == beta.At(i)
  {
    if k > 0 {
      SweepShape(rows, beta, k - 1);
      DiagonalNonNegative(rows, |rows|, k - 1);
      hide Residual, Gram, Best;
    }
  }

  /** A sweep lowers the objective by at least the ridge times the squared move. */
  lemma {:induction false} SweepDescends(rows: seq<Row>, beta: Vec, k: nat)
    requires Weighted(rows) && beta.NonNegative() && k <= 3
    ensures Objective(rows, Swept(rows, beta, k)) + Ridge(Distance(Swept(rows, beta, k), beta)) <= Objective(rows, beta)
  {
    if k == 0 {
      assert Distance(beta, beta) == 0.0;
    } else {
      var now, i := Swept(rows, beta, k - 1), k - 1;
      SweepDescends(rows, beta, i);
      SweepShape(rows, beta, i);
      DiagonalNonNegative(rows, |rows|, i);
      StepDescends(rows, now, i);
      MoveAdds(now, Step(rows, now, i), beta, i);
      hide Objective, Residual, Gram, Distance, Vec.Dot, Vec.With, Step, Square, Best;
    }
  }

  lemma StepDescends(rows: seq<Row>, beta: Vec, i: nat)
    requires Weighted(rows) && i < 3 && beta.NonNegative() && Gram(rows, |rows|, i, i) >= 0.0
    ensures var next := Step(rows, beta, i);
            next.NonNegative() && next == beta.With(i, next.At(i)) &&
            (forall j :: 0 <= j < 3 && j != i ==> next.At(j) == beta.At(j)) &&
            Objective(rows, next) + Ridge(Square(beta.At(i) - next.At(i))) <= Objective(rows, beta)
  {
    StepIsExact(rows, beta, i, beta.At(i));
    hide Objective, Residual, Gram, Best, Ridge, Square, Vec.Dot;
    assert beta.With(i, beta.At(i)) == beta;
  }

  lemma MoveAdds(now: Vec, next: Vec, beta: Vec, i: nat)
    requires i < 3 && next == now.With(i, next.At(i)) && now.At(i) == beta.At(i)
    ensures Distance(next, beta) == Distance(now, beta) + Square(now.At(i) - next.At(i))
  {
  }

  lemma {:induction false} DescentKeepsSign(rows: seq<Row>, n: nat)
    requires Weighted(rows)
    ensures Descended(rows, n).NonNegative()
  {
    if n > 0 {
      DescentKeepsSign(rows, n - 1);
      SweepShape(rows, Descended(rows, n - 1), 3);
    }
  }

  /** The squared moves of the first `n` sweeps, summed. */
  function Travel(rows: seq<Row>, n: nat): real
    requires Weighted(rows)
  {
    if n == 0 then 0.0 else Travel(rows, n - 1) + Distance(Descended(rows, n), Descended(rows, n - 1))
  }

  /** The objective never rises, and the ridge bounds how far all the sweeps together can move the fit. */
  lemma {:induction false} DescentConverges(rows: seq<Row>, n: nat)
    requires Weighted(rows)
    ensures Objective(rows, Descended(rows, n)) + Ridge(Travel(rows, n)) <= Objective(rows, ZERO)
  {
    if n > 0 {
      DescentConverges(rows, n - 1);
      DescentKeepsSign(rows, n - 1);
      SweepDescends(rows, Descended(rows, n - 1), 3);
    }
  }

  lemma {:induction false} ObjectiveNeverRises(rows: seq<Row>, m: nat, n: nat)
    requires Weighted(rows) && m <= n
    ensures Objective(rows, Descended(rows, n)) <= Objective(rows, Descended(rows, m))
  {
    if m < n {
      ObjectiveNeverRises(rows, m, n - 1);
      DescentKeepsSign(rows, n - 1);
      SweepDescends(rows, Descended(rows, n - 1), 3);
      var d := Descended(rows, n).Minus(Descended(rows, n - 1));
      DotSign(d);
    }
  }

  lemma DotSign(v: Vec)
    ensures v.Dot(v) >= 0.0
  {
    assert v.x0 * v.x0 >= 0.0 && v.x1 * v.x1 >= 0.0 && v.x2 * v.x2 >= 0.0;
  }

  /** The fitted coefficients are nonnegative and explain the history no worse than predicting nothing at all. */
  lemma FitBeatsZero(rows: seq<Row>)
    requires Weighted(rows)
    ensures Fit(rows).NonNegative() && SquaredError(rows, |rows|, Fit(rows)) <= SquaredError(rows, |rows|, ZERO)
    ensures SquaredError(rows, |rows|, Fit(rows)) + Ridge(Fit(rows).Dot(Fit(rows))) <= SquaredError(rows, |rows|, ZERO)
  {
    DescentKeepsSign(rows, SWEEPS);
    ObjectiveNeverRises(rows, 0, SWEEPS);
    DotSign(Fit(rows));
    assert ZERO.Dot(ZERO) == 0.0;
  }

  // ---- where the sweeps stop moving is the global minimum ----

  function SlopeRow(r: Row, beta: Vec, i: nat): real
    requires i < 3
  {
    r.w * r.x.At(i) * (beta.Dot(r.x) - r.y)
  }

  function Slope(rows: seq<Row>, n: nat, beta: Vec, i: nat): real
    requires n <= |rows| && i < 3
  {
    if n == 0 then 0.0 else Slope(rows, n - 1, beta, i) + SlopeRow(rows[n - 1], beta, i)
  }

  lemma SlopeRowIsResidual(r: Row, beta: Vec, i: nat)
    requires i < 3
    ensures SlopeRow(r, beta, i) == Times(GramRow(r, i, i), beta.At(i)) + OthersRow(r, beta, i, 3) - MomentRow(r, i)
  {
    DotSplits(beta, r.x, i, beta.At(i));
    assert beta.With(i, beta.At(i)) == beta;
    hide Vec.Dot, Vec.At, Vec.With, PartialDot;
    SlopeOfRow(r.w * r.x.At(i), r.x.At(i), beta.At(i), PartialDot(beta, r.x, i, 3), r.y, beta.Dot(r.x));
  }

  lemma {:induction false} SlopeIsResidual(rows: seq<Row>, n: nat, beta: Vec, i: nat)
    requires n <= |rows| && i < 3
    ensures Slope(rows, n, beta, i) ==
            Times(Gram(rows, n, i, i), beta.At(i)) + Others(rows, n, beta, i, 3) - Moment(rows, n, i)
  {
    if n == 0 {
      OthersOfNone(rows, beta, i, 3);
    } else {
      var r := rows[n - 1];
      SlopeIsResidual(rows, n - 1, beta, i);
      OthersOfRow(rows, n, beta, i, 3);
      SlopeRowIsResidual(r, beta, i);
      hide Others, OthersRow, GramRow, MomentRow, SlopeRow, Vec.At, Times;
      Distribute(beta.At(i), Gram(rows, n - 1, i, i), GramRow(r, i, i), Gram(rows, n, i, i));
    }
  }

  lemma Distribute(q: real, a: real, b: real, ab: real)
    requires ab == a + b
    ensures Times(ab, q) == Times(a, q) + Times(b, q)
  {
  }

  lemma SlopeOfRow(wx: real, x: real, b: real, partial: real, y: real, dot: real)
    requires dot == partial + b * x
    ensures wx * (dot - y) == wx * x * b + wx * partial - wx * y
  {
  }

  /** The first-order change of an error from `beta` to `v`. */
  function Tangent(s0: real, s1: real, s2: real, v: Vec, beta: Vec): real {
    Times(s0, v.x0 - beta.x0) + Times(s1, v.x1 - beta.x1) + Times(s2, v.x2 - beta.x2)
  }

  lemma TangentAdds(s0: real, s1: real, s2: real, t0: real, t1: real, t2: real, v: Vec, beta: Vec)
    ensures Tangent(s0 + t0, s1 + t1, s2 + t2, v, beta) == Tangent(s0, s1, s2, v, beta) + Tangent(t0, t1, t2, v, beta)
  {
  }

  lemma RowAboveTangent(r: Row, beta: Vec, v: Vec)
    requires r.w > 0.0
    ensures RowError(r, v) >=
            RowError(r, beta) + 2.0 * Tangent(SlopeRow(r, beta, 0), SlopeRow(r, beta, 1), SlopeRow(r, beta, 2), v, beta)
  {
    var e, d := beta.Dot(r.x) - r.y, v.Dot(r.x) - beta.Dot(r.x);
    SquareAboveTangent(r.w, r.y, beta.Dot(r.x), v.Dot(r.x), e, d);
    TangentOfRow(r.w, r.x, e, d, v, beta);
    hide Tangent, Vec.Dot, WeightedSquare;
  }

  lemma SquareAboveTangent(w: real, y: real, b: real, v: real, e: real, d: real)
    requires w > 0.0 && e == b - y && d == v - b
    ensures WeightedSquare(w, y - v) >= WeightedSquare(w, y - b) + 2.0 * (w * e * d)
  {
    SquareSign(w, d);
    assert (y - v) * (y - v) == (y - b) * (y - b) + 2.0 * (e * d) + d * d;
    assert w * ((y - v) * (y - v)) == w * ((y - b) * (y - b)) + 2.0 * (w * e * d) + w * (d * d);
  }

  lemma TangentOfRow(w: real, x: Vec, e: real, d: real, v: Vec, beta: Vec)
    requires d == v.Dot(x) - beta.Dot(x)
    ensures w * e * d == Tangent(w * x.x0 * e, w * x.x1 * e, w * x.x2 * e, v, beta)
  {
    Distributes(w * e, v.x0 - beta.x0, x.x0, v.x1 - beta.x1, x.x1, v.x2 - beta.x2, x.x2);
  }

  lemma Distributes(q: real, a: real, x: real, b: real, y: real, c: real, z: real)
    ensures q * (a * x + b * y + c * z) == q * x * a + q * y * b + q * z * c
  {
  }

  lemma {:induction false} ErrorAboveTangent(rows: seq<Row>, n: nat, beta: Vec, v: Vec)
    requires Weighted(rows) && n <= |rows|
    ensures SquaredError(rows, n, v) >=
            SquaredError(rows, n, beta) +
            2.0 * Tangent(Slope(rows, n, beta, 0), Slope(rows, n, beta, 1), Slope(rows, n, beta, 2), v, beta)
  {
    if n > 0 {
      var r := rows[n - 1];
      assert r in rows;
      ErrorAboveTangent(rows, n - 1, beta, v);
      RowAboveTangent(r, beta, v);
      TangentAdds(Slope(rows, n - 1, beta, 0), Slope(rows, n - 1, beta, 1), Slope(rows, n - 1, beta, 2),
                  SlopeRow(r, beta, 0), SlopeRow(r, beta, 1), SlopeRow(r, beta, 2), v, beta);
      hide RowError, Tangent, SlopeRow;
    }
  }

  lemma RidgeAboveTangent(beta: Vec, v: Vec)
    ensures Ridge(v.Dot(v)) >=
            Ridge(beta.Dot(beta)) + 2.0 * Tangent(Ridge(beta.x0), Ridge(beta.x1), Ridge(beta.x2), v, beta)
  {
    RidgeCoordinate(beta.x0, v.x0);
    RidgeCoordinate(beta.x1, v.x1);
    RidgeCoordinate(beta.x2, v.x2);
    assert v.Dot(v) == Square(v.x0) + Square(v.x1) + Square(v.x2);
    assert beta.Dot(beta) == Square(beta.x0) + Square(beta.x1) + Square(beta.x2);
    hide Vec.Dot, Square, Times;
  }

  lemma RidgeCoordinate(b: real, v: real)
    ensures Ridge(Square(v)) >= Ridge(Square(b)) + 2.0 * Times(Ridge(b), v - b)
  {
    assert (v - b) * (v - b) >= 0.0;
    assert (v - b) * (v - b) == v * v - b * b - 2.0 * (b * (v - b));
    assert Ridge(b) * (v - b) == Ridge(b * (v - b));
  }

  lemma FixedCoordinate(p: real, r: real, b: real, v: real)
    requires p > 0.0 && v >= 0.0 && b == Best(r, p)
    ensures (p * b - r) * (v - b) >= 0.0
  {
    assert r == p * (r / p);
    if r / p < 0.0 {
      assert r < 0.0;
    }
  }

  /** Nonnegative coefficients that a sweep leaves alone minimise the objective over all nonnegative coefficients. */
  lemma FixedPointIsOptimal(rows: seq<Row>, beta: Vec, v: Vec)
    requires Weighted(rows) && beta.NonNegative() && v.NonNegative() && Swept(rows, beta, 3) == beta
    ensures Objective(rows, beta) <= Objective(rows, v)
  {
    var n := |rows|;
    StillSteps(rows, beta);
    StillCoordinate(rows, beta, 0, v.x0);
    StillCoordinate(rows, beta, 1, v.x1);
    StillCoordinate(rows, beta, 2, v.x2);
    ErrorAboveTangent(rows, n, beta, v);
    RidgeAboveTangent(beta, v);
    hide Swept, Slope, SquaredError, Times, Ridge, Vec.Dot;
    TangentAdds(Slope(rows, n, beta, 0), Slope(rows, n, beta, 1), Slope(rows, n, beta, 2),
                Ridge(beta.x0), Ridge(beta.x1), Ridge(beta.x2), v, beta);
  }

  /** A sweep that changes nothing changes nothing at any of its steps. */
  lemma StillSteps(rows: seq<Row>, beta: Vec)
    requires Weighted(rows) && Swept(rows, beta, 3) == beta
    ensures forall i :: 0 <= i < 3 ==> Gram(rows, |rows|, i, i) >= 0.0 && Step(rows, beta, i) == beta
  {
    hide Residual, Gram;
    DiagonalNonNegative(rows, |rows|, 0);
    DiagonalNonNegative(rows, |rows|, 1);
    DiagonalNonNegative(rows, |rows|, 2);
    var one, two := Step(rows, beta, 0), Step(rows, Step(rows, beta, 0), 1);
    assert Swept(rows, beta, 1) == one;
    assert Swept(rows, beta, 2) == two;
    assert Swept(rows, beta, 3) == Step(rows, two, 2);
    assert one == beta && two == beta;
  }

  lemma StillCoordinate(rows: seq<Row>, beta: Vec, i: nat, z: real)
    requires Weighted(rows) && i < 3 && z >= 0.0 && Gram(rows, |rows|, i, i) >= 0.0 && Step(rows, beta, i) == beta
    ensures Times(Slope(rows, |rows|, beta, i) + Ridge(beta.At(i)), z - beta.At(i)) >= 0.0
  {
    SlopeIsResidual(rows, |rows|, beta, i);
    hide Others, Moment, Gram, Best, Times, Slope, Ridge;
    assert Step(rows, beta, i).At(i) == beta.At(i);
    StillScalar(Gram(rows, |rows|, i, i), Gram(rows, |rows|, i, i) + RIDGE, Residual(rows, beta, i),
                Slope(rows, |rows|, beta, i),
                beta.At(i), z);
  }

  lemma StillScalar(g: real, p: real, r: real, slope: real, b: real, z: real)
    requires g >= 0.0 && z >= 0.0 && p == g + RIDGE && slope == Times(g, b) - r && b == Best(r, p)
    ensures Times(slope + Ridge(b), z - b) >= 0.0
  {
    FixedCoordinate(p, r, b, z);
    assert p * b == g * b + RIDGE * b;
    assert slope + Ridge(b) == p * b - r;
  }
}
