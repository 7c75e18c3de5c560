/** Real vectors and matrices, with the few linear-algebra facts the model needs. */
module LinearAlgebra {

  type Vector = seq<real>
  type Matrix = seq<seq<real>>

  predicate IsMatrix(m: Matrix, rows: nat, cols: nat)
  {
    |m| == rows && forall i :: 0 <= i < |m| ==> |m[i]| == cols
  }

  /** Every row of `m` has `cols` entries (the row count is free). */
  predicate HasCols(m: Matrix, cols: nat)
  {
    forall i :: 0 <= i < |m| ==> |m[i]| == cols
  }

  function Zeros(n: nat): (v: Vector)
    ensures |v| == n
    ensures forall i :: 0 <= i < n ==> v[i] == 0.0
  {
    seq(n, _ => 0.0)
  }

  function Add(u: Vector, v: Vector): (r: Vector)
    requires |u| == |v|
    ensures |r| == |u|
    ensures forall i :: 0 <= i < |r| ==> r[i] == u[i] + v[i]
  {
    seq(|u|, i requires 0 <= i < |u| => u[i] + v[i])
  }

  function Sub(u: Vector, v: Vector): (r: Vector)
    requires |u| == |v|
    ensures |r| == |u|
    ensures forall i :: 0 <= i < |r| ==> r[i] == u[i] - v[i]
  {
    seq(|u|, i requires 0 <= i < |u| => u[i] - v[i])
  }

  function Scale(k: real, v: Vector): (r: Vector)
    ensures |r| == |v|
    ensures forall i :: 0 <= i < |r| ==> r[i] == k * v[i]
  {
    seq(|v|, i requires 0 <= i < |v| => k * v[i])
  }

  function Neg(v: Vector): (r: Vector)
    ensures |r| == |v|
    ensures forall i :: 0 <= i < |r| ==> r[i] == -v[i]
  {
    seq(|v|, i requires 0 <= i < |v| => -v[i])
  }

  function Dot(u: Vector, v: Vector): real
    requires |u| == |v|
    decreases |u|
  {
    if |u| == 0 then 0.0 else u[0] * v[0] + Dot(u[1..], v[1..])
  }

  function MatVec(m: Matrix, v: Vector): (r: Vector)
    requires HasCols(m, |v|)
    ensures |r| == |m|
    ensures forall i :: 0 <= i < |m| ==> r[i] == Dot(m[i], v)
  {
    seq(|m|, i requires 0 <= i < |m| => Dot(m[i], v))
  }

  function Column(m: Matrix, j: nat): (c: Vector)
    requires forall i :: 0 <= i < |m| ==> j < |m[i]|
    ensures |c| == |m|
    ensures forall i :: 0 <= i < |m| ==> c[i] == m[i][j]
  {
    seq(|m|, i requires 0 <= i < |m| => m[i][j])
  }

  /** The product of an r-by-k matrix and a k-by-c matrix. */
  function MatMul(a: Matrix, b: Matrix, c: nat): (p: Matrix)
    requires HasCols(a, |b|)
    requires HasCols(b, c)
    ensures IsMatrix(p, |a|, c)
    ensures forall i, j :: 0 <= i < |a| && 0 <= j < c ==> p[i][j] == Dot(a[i], Column(b, j))
  {
    seq(|a|, i requires 0 <= i < |a| =>
      seq(c, j requires 0 <= j < c => Dot(a[i], Column(b, j))))
  }

  /** Side-by-side concatenation [a | b]. */
  function HConcat(a: Matrix, b: Matrix): (h: Matrix)
    requires |a| == |b|
    ensures |h| == |a|
    ensures forall i :: 0 <= i < |h| ==> h[i] == a[i] + b[i]
  {
    seq(|a|, i requires 0 <= i < |a| => a[i] + b[i])
  }

  /** k times the n-by-n identity matrix. */
  function ScaledIdentity(k: real, n: nat): (m: Matrix)
    ensures IsMatrix(m, n, n)
    ensures forall i, j :: 0 <= i < n && 0 <= j < n ==> m[i][j] == if i == j then k else 0.0
  {
    seq(n, i => seq(n, j => if i == j then k else 0.0))
  }

  /** A square matrix has full rank exactly when only the zero vector is mapped to zero. */
  ghost predicate TrivialKernel(m: Matrix)
    requires IsMatrix(m, |m|, |m|)
  {
    forall v :: |v| == |m| && MatVec(m, v) == Zeros(|m|) ==> v == Zeros(|m|)
  }

  /** Equality of short vectors, one component at a time. */
  lemma Equal2(a: Vector, b: Vector)
    requires |a| == |b| == 2
    requires a[0] == b[0] && a[1] == b[1]
    ensures a == b
  {
    forall i | 0 <= i < 2
      ensures a[i] == b[i]
    {
      if i == 0 {} else {}
    }
  }

  lemma Equal3(a: Vector, b: Vector)
    requires |a| == |b| == 3
    requires a[0] == b[0] && a[1] == b[1] && a[2] == b[2]
    ensures a == b
  {
    forall i | 0 <= i < 3
      ensures a[i] == b[i]
    {
      if i == 0 {} else if i == 1 {} else {}
    }
  }

  lemma Equal4(a: Vector, b: Vector)
    requires |a| == |b| == 4
    requires a[0] == b[0] && a[1] == b[1] && a[2] == b[2] && a[3] == b[3]
    ensures a == b
  {
    forall i | 0 <= i < 4
      ensures a[i] == b[i]
    {
      if i == 0 {} else if i == 1 {} else if i == 2 {} else {}
    }
  }

  lemma Dot1(u: Vector, v: Vector)
    requires |u| == |v| == 1
    ensures Dot(u, v) == u[0] * v[0]
  {
    assert Dot(u[1..], v[1..]) == 0.0;
  }

  lemma Dot2(u: Vector, v: Vector)
    requires |u| == |v| == 2
    ensures Dot(u, v) == u[0] * v[0] + u[1] * v[1]
  {
    Dot1(u[1..], v[1..]);
  }

  lemma Dot4(u: Vector, v: Vector)
    requires |u| == |v| == 4
    ensures Dot(u, v) == u[0] * v[0] + u[1] * v[1] + u[2] * v[2] + u[3] * v[3]
  {
    Dot2(u[2..], v[2..]);
    assert u[1..][1..] == u[2..] && v[1..][1..] == v[2..];
  }

  /** Scaling the right operand scales the dot product. */
  lemma {:induction false} DotScale(u: Vector, v: Vector, k: real)
    requires |u| == |v|
    ensures Dot(u, Scale(k, v)) == k * Dot(u, v)
    decreases |u|
  {
    if |u| > 0 {
      assert forall j :: 0 <= j < |v| - 1 ==> Scale(k, v)[1..][j] == Scale(k, v[1..])[j];
      assert Scale(k, v)[1..] == Scale(k, v[1..]);
      DotScale(u[1..], v[1..], k);
      assert u[0] * (k * v[0]) == k * (u[0] * v[0]);
    }
  }

  /** The dot product distributes over a sum in its right operand. */
  lemma {:induction false} DotAdd(u: Vector, v: Vector, w: Vector)
    requires |u| == |v| == |w|
    ensures Dot(u, Add(v, w)) == Dot(u, v) + Dot(u, w)
    decreases |u|
  {
    if |u| > 0 {
      assert Add(v, w)[1..] == Add(v[1..], w[1..]);
      DotAdd(u[1..], v[1..], w[1..]);
    }
  }

  lemma {:induction false} DotZeros(u: Vector)
    ensures Dot(u, Zeros(|u|)) == 0.0
    decreases |u|
  {
    if |u| > 0 {
      assert Zeros(|u|)[1..] == Zeros(|u| - 1);
      DotZeros(u[1..]);
    }
  }

  /** Row i of k*I picks out k times component i. */
  lemma {:induction false} DotUnitRow(row: Vector, v: Vector, i: nat, k: real)
    requires |row| == |v| && i < |v|
    requires forall j :: 0 <= j < |row| ==> row[j] == if j == i then k else 0.0
    ensures Dot(row, v) == k * v[i]
    decreases |row|
  {
    if i == 0 {
      var rest := row[1..];
      assert forall j :: 0 <= j < |rest| ==> rest[j] == 0.0 * v[1..][j];
      DotScaleZero(rest, v[1..]);
    } else {
      DotUnitRow(row[1..], v[1..], i - 1, k);
    }
  }

  lemma {:induction false} DotScaleZero(row: Vector, v: Vector)
    requires |row| == |v|
    requires forall j :: 0 <= j < |row| ==> row[j] == 0.0 * v[j]
    ensures Dot(row, v) == 0.0
    decreases |row|
  {
    if |row| > 0 {
      DotScaleZero(row[1..], v[1..]);
    }
  }

  /** A matrix is a linear map: it commutes with scaling. */
  lemma MatVecScale(m: Matrix, v: Vector, k: real)
    requires HasCols(m, |v|)
    ensures MatVec(m, Scale(k, v)) == Scale(k, MatVec(m, v))
  {
    var lhs := MatVec(m, Scale(k, v));
    var rhs := Scale(k, MatVec(m, v));
    forall i | 0 <= i < |m|
      ensures lhs[i] == rhs[i]
    {
      DotScale(m[i], v, k);
    }
  }

  /** A matrix is a linear map: it commutes with addition. */
  lemma MatVecAdd(m: Matrix, v: Vector, w: Vector)
    requires |v| == |w| && HasCols(m, |v|)
    ensures MatVec(m, Add(v, w)) == Add(MatVec(m, v), MatVec(m, w))
  {
    var lhs := MatVec(m, Add(v, w));
    var rhs := Add(MatVec(m, v), MatVec(m, w));
    forall i | 0 <= i < |m|
      ensures lhs[i] == rhs[i]
    {
      DotAdd(m[i], v, w);
    }
  }

  lemma MatVecZeros(m: Matrix, n: nat)
    requires HasCols(m, n)
    ensures MatVec(m, Zeros(n)) == Zeros(|m|)
  {
    var lhs := MatVec(m, Zeros(n));
    forall i | 0 <= i < |m|
      ensures lhs[i] == 0.0
    {
      DotZeros(m[i]);
    }
  }

  /** k*I acts on a vector by scaling it by k. */
  lemma ScaledIdentityActs(k: real, v: Vector)
    ensures MatVec(ScaledIdentity(k, |v|), v) == Scale(k, v)
  {
    var m := ScaledIdentity(k, |v|);
    var lhs := MatVec(m, v);
    forall i | 0 <= i < |v|
      ensures lhs[i] == k * v[i]
    {
      DotUnitRow(m[i], v, i, k);
    }
  }
}
