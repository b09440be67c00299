/**
  The fixed-size linear-algebra kernel of the turtle interpreter: 3-vectors,
  3x3 matrices, their products, and the three rotation matrices Ru, Rl and Rh
  of the turtle's local frame.

  The source keeps every matrix and vector in a C array and every helper fills
  an out-parameter array in nested loops. Here the arrays stay arrays
  (`array2<real>`, `array<real>`), each helper is a method, and each method is
  proved against a value-level function on `Vec`/`Mat` (sequences of reals).
  `double` arithmetic is modelled by `real`; cosine and sine are left abstract
  as the two functions carried by a `Trig` value.
*/
module Kernel {

  /** A 3-vector (`double V[DIM]`). */
  type Vec = v: seq<real> | |v| == 3 witness [0.0, 0.0, 0.0]

  const Zero: Vec := [0.0, 0.0, 0.0]

  /** A 3x3 matrix as three rows (`double M[DIM][DIM]`). */
  type Mat = m: seq<Vec> | |m| == 3 witness [Zero, Zero, Zero]

  /** The value of `PI` the source defines. */
  const PI: real := 3.14159265

  /** Cosine and sine, uninterpreted: nothing below depends on their values. */
  datatype Trig = Trig(cos: real -> real, sin: real -> real)

  /** The facts of trigonometry at the radian value x that the inverse-rotation
      lemmas rely on: cos^2 + sin^2 = 1, cos is even and sin is odd. */
  ghost predicate TrigLawsAt(trig: Trig, x: real)
  {
    && trig.cos(x) * trig.cos(x) + trig.sin(x) * trig.sin(x) == 1.0
    && trig.cos(-x) == trig.cos(x)
    && trig.sin(-x) == -trig.sin(x)
  }

  /** Degrees to radians, as every rotation constructor does first. */
  function Radians(angle: real): real
  {
    (angle * PI) / 180.0
  }

  function Identity(): Mat
  {
    [[1.0, 0.0, 0.0], [0.0, 1.0, 0.0], [0.0, 0.0, 1.0]]
  }

  /** Sum of the first k products u[i] * v[i], accumulated in the source's order. */
  function PartialDot(u: Vec, v: Vec, k: nat): real
    requires k <= 3
  {
    if k == 0 then 0.0 else PartialDot(u, v, k - 1) + u[k - 1] * v[k - 1]
  }

  function Dot(u: Vec, v: Vec): real
  {
    u[0] * v[0] + u[1] * v[1] + u[2] * v[2]
  }

  /** Accumulating all three products gives the dot product. */
  lemma PartialDotFull(u: Vec, v: Vec)
    ensures PartialDot(u, v, 3) == Dot(u, v)
  {
    assert PartialDot(u, v, 1) == u[0] * v[0];
    assert PartialDot(u, v, 2) == u[0] * v[0] + u[1] * v[1];
  }

  /** Column j of m. */
  function Col(m: Mat, j: nat): Vec
    requires j < 3
  {
    [m[0][j], m[1][j], m[2][j]]
  }

  /** Row-by-column product A * B. */
  function MatMul(A: Mat, B: Mat): Mat
  {
    [[Dot(A[0], Col(B, 0)), Dot(A[0], Col(B, 1)), Dot(A[0], Col(B, 2))],
     [Dot(A[1], Col(B, 0)), Dot(A[1], Col(B, 1)), Dot(A[1], Col(B, 2))],
     [Dot(A[2], Col(B, 0)), Dot(A[2], Col(B, 1)), Dot(A[2], Col(B, 2))]]
  }

  /** Matrix times column vector M * v. */
  function MatVec(M: Mat, v: Vec): Vec
  {
    [Dot(M[0], v), Dot(M[1], v), Dot(M[2], v)]
  }

  function VecAdd(u: Vec, v: Vec): Vec
  {
    [u[0] + v[0], u[1] + v[1], u[2] + v[2]]
  }

  function Scale(a: real, v: Vec): Vec
  {
    [a * v[0], a * v[1], a * v[2]]
  }

  /** Rotation about the Up axis by `angle` degrees. */
  function Ru(trig: Trig, angle: real): Mat
  {
    var alfa := Radians(angle);
    [[trig.cos(alfa), trig.sin(alfa), 0.0],
     [trig.sin(alfa * -1.0), trig.cos(alfa), 0.0],
     [0.0, 0.0, 1.0]]
  }

  /** Rotation about the Left axis by `angle` degrees. */
  function Rl(trig: Trig, angle: real): Mat
  {
    var alfa := Radians(angle);
    [[trig.cos(alfa), 0.0, trig.sin(alfa * -1.0)],
     [0.0, 1.0, 0.0],
     [trig.sin(alfa), 0.0, trig.cos(alfa)]]
  }

  /** Rotation about the Heading axis by `angle` degrees. */
  function Rh(trig: Trig, angle: real): Mat
  {
    var alfa := Radians(angle);
    [[1.0, 0.0, 0.0],
     [0.0, trig.cos(alfa), trig.sin(alfa * -1.0)],
     [0.0, trig.sin(alfa), trig.cos(alfa)]]
  }

  /** Two vectors are equal when their three entries are. */
  lemma VecExt(u: Vec, v: Vec)
    requires u[0] == v[0] && u[1] == v[1] && u[2] == v[2]
    ensures u == v
  {
  }

  /** Two matrices are equal when their nine entries are. */
  lemma MatExt(A: Mat, B: Mat)
    requires forall i, j :: 0 <= i < 3 && 0 <= j < 3 ==> A[i][j] == B[i][j]
    ensures A == B
  {
    VecExt(A[0], B[0]);
    VecExt(A[1], B[1]);
    VecExt(A[2], B[2]);
  }

  // ---------------------------------------------------------------------
  // Arrays and their values

  /** The value held by a 3x3 array. */
  function MatOf(a: array2<real>): Mat
    requires a.Length0 == 3 && a.Length1 == 3
    reads a
  {
    [[a[0, 0], a[0, 1], a[0, 2]], [a[1, 0], a[1, 1], a[1, 2]], [a[2, 0], a[2, 1], a[2, 2]]]
  }

  /** `assign_mat`: copy a matrix into `result`. */
  method AssignMat(result: array2<real>, M: Mat)
    requires result.Length0 == 3 && result.Length1 == 3
    modifies result
    ensures MatOf(result) == M
  {
    for i := 0 to 3
      invariant forall r, c :: 0 <= r < i && 0 <= c < 3 ==> result[r, c] == M[r][c]
    {
      for j := 0 to 3
        invariant forall r, c :: 0 <= r < i && 0 <= c < 3 ==> result[r, c] == M[r][c]
        invariant forall c :: 0 <= c < j ==> result[i, c] == M[i][c]
      {
        result[i, j] := M[i][j];
      }
    }
    MatExt(MatOf(result), M);
  }

  /** `assign_vec`: copy a vector into `result`. */
  method AssignVec(result: array<real>, A: Vec)
    requires result.Length == 3
    modifies result
    ensures result[..] == A
  {
    for i := 0 to 3
      invariant forall k :: 0 <= k < i ==> result[k] == A[k]
    {
      result[i] := A[i];
    }
  }

  /** `mat_by_mat`: result := A * B, for a result distinct from both operands. */
  method MatByMat(result: array2<real>, A: array2<real>, B: array2<real>)
    requires result.Length0 == 3 && result.Length1 == 3
    requires A.Length0 == 3 && A.Length1 == 3 && B.Length0 == 3 && B.Length1 == 3
    requires result != A && result != B
    modifies result
    ensures MatOf(result) == MatMul(MatOf(A), MatOf(B))
  {
    ghost var a, b := MatOf(A), MatOf(B);
    for i := 0 to 3
      invariant forall r, c :: 0 <= r < i && 0 <= c < 3 ==> result[r, c] == Dot(a[r], Col(b, c))
    {
      for j := 0 to 3
        invariant forall r, c :: 0 <= r < i && 0 <= c < 3 ==> result[r, c] == Dot(a[r], Col(b, c))
        invariant forall c :: 0 <= c < j ==> result[i, c] == Dot(a[i], Col(b, c))
      {
        var sum := 0.0;
        for k := 0 to 3
          invariant sum == PartialDot(a[i], Col(b, j), k)
        {
          sum := sum + A[i, k] * B[k, j];
        }
        PartialDotFull(a[i], Col(b, j));
        result[i, j] := sum;
      }
    }
  }

  /** `mat_by_vec`: result := M * V, for a result distinct from V. */
  method MatByVec(result: array<real>, M: array2<real>, V: array<real>)
    requires result.Length == 3 && V.Length == 3 && M.Length0 == 3 && M.Length1 == 3
    requires result != V
    modifies result
    ensures result[..] == MatVec(MatOf(M), V[..])
  {
    ghost var m, v: Vec := MatOf(M), V[..];
    for i := 0 to 3
      invariant forall r :: 0 <= r < i ==> result[r] == Dot(m[r], v)
    {
      result[i] := 0.0;
      for j := 0 to 3
        invariant forall r :: 0 <= r < i ==> result[r] == Dot(m[r], v)
        invariant result[i] == PartialDot(m[i], v, j)
      {
        result[i] := result[i] + M[i, j] * V[j];
      }
      PartialDotFull(m[i], v);
    }
  }

  /** `sum_vec`: result := A + B. Either operand may be `result` itself, as in the
      call that adds the step to the current point in place. */
  method SumVec(result: array<real>, A: array<real>, B: array<real>)
    requires result.Length == 3 && A.Length == 3 && B.Length == 3
    modifies result
    ensures result[..] == VecAdd(old(A[..]), old(B[..]))
  {
    for i := 0 to 3
      invariant forall k :: 0 <= k < i ==> result[k] == old(A[k]) + old(B[k])
      invariant forall k :: i <= k < 3 ==> A[k] == old(A[k]) && B[k] == old(B[k])
    {
      result[i] := A[i] + B[i];
    }
  }

  /** `Ru_matrix`: R := Ru(angle). */
  method RuMatrix(R: array2<real>, trig: Trig, angle: real)
    requires R.Length0 == 3 && R.Length1 == 3
    modifies R
    ensures MatOf(R) == Ru(trig, angle)
  {
    var alfa := (angle * PI) / 180.0;
    AssignMat(R, [[trig.cos(alfa), trig.sin(alfa), 0.0],
                  [trig.sin(alfa * -1.0), trig.cos(alfa), 0.0],
                  [0.0, 0.0, 1.0]]);
  }

  /** `Rl_matrix`: R := Rl(angle). */
  method RlMatrix(R: array2<real>, trig: Trig, angle: real)
    requires R.Length0 == 3 && R.Length1 == 3
    modifies R
    ensures MatOf(R) == Rl(trig, angle)
  {
    var alfa := (angle * PI) / 180.0;
    AssignMat(R, [[trig.cos(alfa), 0.0, trig.sin(alfa * -1.0)],
                  [0.0, 1.0, 0.0],
                  [trig.sin(alfa), 0.0, trig.cos(alfa)]]);
  }

  /** `Rh_matrix`: R := Rh(angle). */
  method RhMatrix(R: array2<real>, trig: Trig, angle: real)
    requires R.Length0 == 3 && R.Length1 == 3
    modifies R
    ensures MatOf(R) == Rh(trig, angle)
  {
    var alfa := (angle * PI) / 180.0;
    AssignMat(R, [[1.0, 0.0, 0.0],
                  [0.0, trig.cos(alfa), trig.sin(alfa * -1.0)],
                  [0.0, trig.sin(alfa), trig.cos(alfa)]]);
  }

  // ---------------------------------------------------------------------
  // Properties of the kernel

  /** Column j of a product is the left factor applied to column j of the right one:
      post-multiplying the frame T by R re-expresses R's columns in T's frame. */
  lemma ColumnOfProduct(A: Mat, B: Mat, j: nat)
    requires j < 3
    ensures Col(MatMul(A, B), j) == MatVec(A, Col(B, j))
  {
    var P := MatMul(A, B);
    if j == 0 {
      VecExt(Col(P, 0), MatVec(A, Col(B, 0)));
    } else if j == 1 {
      VecExt(Col(P, 1), MatVec(A, Col(B, 1)));
    } else {
      VecExt(Col(P, 2), MatVec(A, Col(B, 2)));
    }
  }

  /** Applying a frame to (a, 0, 0) gives a times its first column (the Heading). */
  lemma ForwardIsScaledHeading(T: Mat, a: real)
    ensures MatVec(T, [a, 0.0, 0.0]) == Scale(a, Col(T, 0))
  {
    VecExt(MatVec(T, [a, 0.0, 0.0]), Scale(a, Col(T, 0)));
  }

  /** Applying any matrix to a unit axis picks out the matching column. */
  lemma AxisPicksColumn(T: Mat, j: nat, e: Vec)
    requires j < 3
    requires forall k :: 0 <= k < 3 ==> e[k] == if k == j then 1.0 else 0.0
    ensures MatVec(T, e) == Col(T, j)
  {
    if j == 0 {
      VecExt(MatVec(T, e), Col(T, 0));
    } else if j == 1 {
      VecExt(MatVec(T, e), Col(T, 1));
    } else {
      VecExt(MatVec(T, e), Col(T, 2));
    }
  }

  /** A yaw (Ru) keeps the Up column of the frame, whatever the angle and trig values. */
  lemma YawKeepsUp(T: Mat, trig: Trig, angle: real)
    ensures Col(MatMul(T, Ru(trig, angle)), 2) == Col(T, 2)
  {
    ColumnOfProduct(T, Ru(trig, angle), 2);
    AxisPicksColumn(T, 2, Col(Ru(trig, angle), 2));
  }

  /** A pitch (Rl) keeps the Left column of the frame. */
  lemma PitchKeepsLeft(T: Mat, trig: Trig, angle: real)
    ensures Col(MatMul(T, Rl(trig, angle)), 1) == Col(T, 1)
  {
    ColumnOfProduct(T, Rl(trig, angle), 1);
    AxisPicksColumn(T, 1, Col(Rl(trig, angle), 1));
  }

  /** A roll (Rh) keeps the Heading column of the frame. */
  lemma RollKeepsHeading(T: Mat, trig: Trig, angle: real)
    ensures Col(MatMul(T, Rh(trig, angle)), 0) == Col(T, 0)
  {
    ColumnOfProduct(T, Rh(trig, angle), 0);
    AxisPicksColumn(T, 0, Col(Rh(trig, angle), 0));
  }

  /** Matrix product is associative. */
  lemma MatMulAssoc(A: Mat, B: Mat, C: Mat)
    ensures MatMul(MatMul(A, B), C) == MatMul(A, MatMul(B, C))
  {
    var L, R := MatMul(MatMul(A, B), C), MatMul(A, MatMul(B, C));
    forall i, j | 0 <= i < 3 && 0 <= j < 3
      ensures L[i][j] == R[i][j]
    {
      AssocEntry(A, B, C, i, j);
    }
    MatExt(L, R);
  }

  /** One entry of the associativity law. */
  lemma AssocEntry(A: Mat, B: Mat, C: Mat, i: nat, j: nat)
    requires i < 3 && j < 3
    ensures MatMul(MatMul(A, B), C)[i][j] == MatMul(A, MatMul(B, C))[i][j]
  {
    var AB, BC, c := MatMul(A, B), MatMul(B, C), Col(C, j);
    EntryOfProduct(AB, C, i, j);
    EntryOfProduct(A, BC, i, j);
    RowOfProduct(A, B, i);
    ColumnOfProduct(B, C, j);
    DotRowTimes(A[i], B, c);
  }

  /** Row vector a times B. */
  function RowTimes(a: Vec, B: Mat): Vec
  {
    [Dot(a, Col(B, 0)), Dot(a, Col(B, 1)), Dot(a, Col(B, 2))]
  }

  /** Row i of a product is row i of the left factor times the right one. */
  lemma RowOfProduct(A: Mat, B: Mat, i: nat)
    requires i < 3
    ensures MatMul(A, B)[i] == RowTimes(A[i], B)
  {
  }

  /** (a B) . c == a . (B c): the double sum of a[l] * B[l][k] * c[k] in either order. */
  lemma DotRowTimes(a: Vec, B: Mat, c: Vec)
    ensures Dot(RowTimes(a, B), c) == Dot(a, MatVec(B, c))
  {
    SumOfProductsSwap(a, B, c);
  }

  /** The double sum over l and k of a[l] * B[l][k] * c[k], in either order. */
  lemma SumOfProductsSwap(a: Vec, B: Mat, c: Vec)
    ensures (a[0] * B[0][0] + a[1] * B[1][0] + a[2] * B[2][0]) * c[0]
          + (a[0] * B[0][1] + a[1] * B[1][1] + a[2] * B[2][1]) * c[1]
          + (a[0] * B[0][2] + a[1] * B[1][2] + a[2] * B[2][2]) * c[2]
         == a[0] * (B[0][0] * c[0] + B[0][1] * c[1] + B[0][2] * c[2])
          + a[1] * (B[1][0] * c[0] + B[1][1] * c[1] + B[1][2] * c[2])
          + a[2] * (B[2][0] * c[0] + B[2][1] * c[1] + B[2][2] * c[2])
  {
  }

  /** Entry (i, j) of a product, for variable indices. */
  lemma EntryOfProduct(A: Mat, B: Mat, i: nat, j: nat)
    requires i < 3 && j < 3
    ensures MatMul(A, B)[i][j] == Dot(A[i], Col(B, j))
  {
    if i == 0 {
    } else if i == 1 {
    } else {
    }
  }

  /** The identity is a right unit of the product. */
  lemma MatMulIdentity(A: Mat)
    ensures MatMul(A, Identity()) == A
  {
    forall i, j | 0 <= i < 3 && 0 <= j < 3
      ensures MatMul(A, Identity())[i][j] == A[i][j]
    {
      EntryOfProduct(A, Identity(), i, j);
    }
    MatExt(MatMul(A, Identity()), A);
  }

  /** Two matrices are equal when their three rows are. */
  lemma MatRows(A: Mat, B: Mat)
    requires A[0] == B[0] && A[1] == B[1] && A[2] == B[2]
    ensures A == B
  {
    assert A == [A[0], A[1], A[2]];
    assert B == [B[0], B[1], B[2]];
  }

  /** The yaw matrix with cosine c and sine s times the one with sine -s
      is the identity when c^2 + s^2 = 1. */
  lemma YawPair(c: real, s: real)
    requires c * c + s * s == 1.0
    ensures MatMul([[c, s, 0.0], [-s, c, 0.0], [0.0, 0.0, 1.0]],
                   [[c, -s, 0.0], [s, c, 0.0], [0.0, 0.0, 1.0]]) == Identity()
  {
    var P := MatMul([[c, s, 0.0], [-s, c, 0.0], [0.0, 0.0, 1.0]],
                    [[c, -s, 0.0], [s, c, 0.0], [0.0, 0.0, 1.0]]);
    VecExt(P[0], [1.0, 0.0, 0.0]);
    VecExt(P[1], [0.0, 1.0, 0.0]);
    VecExt(P[2], [0.0, 0.0, 1.0]);
    MatRows(P, Identity());
  }

  /** A yaw by -angle undoes a yaw by angle (given the laws of cos and sin). */
  lemma YawInverse(trig: Trig, angle: real)
    requires TrigLawsAt(trig, Radians(angle))
    ensures MatMul(Ru(trig, angle), Ru(trig, angle * -1.0)) == Identity()
  {
    var a := Radians(angle);
    var c, s := trig.cos(a), trig.sin(a);
    assert Radians(angle * -1.0) == a * -1.0 == -a;
    assert -a * -1.0 == a;
    assert Ru(trig, angle) == [[c, s, 0.0], [-s, c, 0.0], [0.0, 0.0, 1.0]];
    assert Ru(trig, angle * -1.0) == [[c, -s, 0.0], [s, c, 0.0], [0.0, 0.0, 1.0]];
    YawPair(c, s);
  }

  /** The pitch matrix with cosine c and sine s times the one with sine -s
      is the identity when c^2 + s^2 = 1. */
  lemma PitchPair(c: real, s: real)
    requires c * c + s * s == 1.0
    ensures MatMul([[c, 0.0, -s], [0.0, 1.0, 0.0], [s, 0.0, c]],
                   [[c, 0.0, s], [0.0, 1.0, 0.0], [-s, 0.0, c]]) == Identity()
  {
    var P := MatMul([[c, 0.0, -s], [0.0, 1.0, 0.0], [s, 0.0, c]],
                    [[c, 0.0, s], [0.0, 1.0, 0.0], [-s, 0.0, c]]);
    VecExt(P[0], [1.0, 0.0, 0.0]);
    VecExt(P[1], [0.0, 1.0, 0.0]);
    VecExt(P[2], [0.0, 0.0, 1.0]);
    MatRows(P, Identity());
  }

  /** A pitch by -angle undoes a pitch by angle (given the laws of cos and sin). */
  lemma PitchInverse(trig: Trig, angle: real)
    requires TrigLawsAt(trig, Radians(angle))
    ensures MatMul(Rl(trig, angle), Rl(trig, angle * -1.0)) == Identity()
  {
    var a := Radians(angle);
    var c, s := trig.cos(a), trig.sin(a);
    assert Radians(angle * -1.0) == a * -1.0 == -a;
    assert -a * -1.0 == a;
    assert Rl(trig, angle) == [[c, 0.0, -s], [0.0, 1.0, 0.0], [s, 0.0, c]];
    assert Rl(trig, angle * -1.0) == [[c, 0.0, s], [0.0, 1.0, 0.0], [-s, 0.0, c]];
    PitchPair(c, s);
  }

  /** The roll matrix with cosine c and sine s times the one with sine -s
      is the identity when c^2 + s^2 = 1. */
  lemma RollPair(c: real, s: real)
    requires c * c + s * s == 1.0
    ensures MatMul([[1.0, 0.0, 0.0], [0.0, c, -s], [0.0, s, c]],
                   [[1.0, 0.0, 0.0], [0.0, c, s], [0.0, -s, c]]) == Identity()
  {
    var P := MatMul([[1.0, 0.0, 0.0], [0.0, c, -s], [0.0, s, c]],
                    [[1.0, 0.0, 0.0], [0.0, c, s], [0.0, -s, c]]);
    VecExt(P[0], [1.0, 0.0, 0.0]);
    VecExt(P[1], [0.0, 1.0, 0.0]);
    VecExt(P[2], [0.0, 0.0, 1.0]);
    MatRows(P, Identity());
  }

  /** A roll by -angle undoes a roll by angle (given the laws of cos and sin). */
  lemma RollInverse(trig: Trig, angle: real)
    requires TrigLawsAt(trig, Radians(angle))
    ensures MatMul(Rh(trig, angle), Rh(trig, angle * -1.0)) == Identity()
  {
    var a := Radians(angle);
    var c, s := trig.cos(a), trig.sin(a);
    assert Radians(angle * -1.0) == a * -1.0 == -a;
    assert -a * -1.0 == a;
    assert Rh(trig, angle) == [[1.0, 0.0, 0.0], [0.0, c, -s], [0.0, s, c]];
    assert Rh(trig, angle * -1.0) == [[1.0, 0.0, 0.0], [0.0, c, s], [0.0, -s, c]];
    RollPair(c, s);
  }

  /** Post-multiplying a frame by R and then by an inverse of R gives the frame back. */
  lemma UndoTurn(T: Mat, R: Mat, R': Mat)
    requires MatMul(R, R') == Identity()
    ensures MatMul(MatMul(T, R), R') == T
  {
    MatMulAssoc(T, R, R');
    MatMulIdentity(T);
  }
}
