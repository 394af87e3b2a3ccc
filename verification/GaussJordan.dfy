/** Row operations on A * X = B over GF(256), and what they keep. */
module GaussJordan {
  import opened Bytes
  import opened Gf256
  import opened Cauchy

  type Matrix = seq<seq<Byte>>

  ghost predicate Shape(m: Matrix, rows: nat, columns: nat) {
    |m| == rows && forall r :: 0 <= r < rows ==> |m[r]| == columns
  }

  ghost function Column(x: Matrix, t: nat): (c: seq<Byte>)
    requires forall r :: 0 <= r < |x| ==> t < |x[r]|
    ensures |c| == |x| && forall r :: 0 <= r < |x| ==> c[r] == x[r][t]
  {
    seq(|x|, r requires 0 <= r < |x| => x[r][t])
  }

  ghost function Scaled(c: Byte, u: seq<Byte>): (r: seq<Byte>)
    ensures |r| == |u| && forall i :: 0 <= i < |u| ==> r[i] == Mul(u[i], c)
  {
    seq(|u|, i requires 0 <= i < |u| => Mul(u[i], c))
  }

  ghost function Summed(u: seq<Byte>, f: Byte, p: seq<Byte>): (r: seq<Byte>)
    requires |u| == |p|
    ensures |r| == |u| && forall i :: 0 <= i < |u| ==> r[i] == Add(u[i], Mul(f, p[i]))
  {
    seq(|u|, i requires 0 <= i < |u| => Add(u[i], Mul(f, p[i])))
  }

  ghost function SwapRows(m: Matrix, i: nat, j: nat): Matrix
    requires i < |m| && j < |m|
  {
    m[i := m[j]][j := m[i]]
  }

  ghost function ScaleRow(m: Matrix, i: nat, c: Byte): Matrix
    requires i < |m|
  {
    m[i := Scaled(c, m[i])]
  }

  ghost function AddRow(m: Matrix, r: nat, f: Byte, p: nat): Matrix
    requires r < |m| && p < |m| && |m[r]| == |m[p]|
  {
    m[r := Summed(m[r], f, m[p])]
  }

  /** x solves a * x = b, column by column. */
  ghost predicate Solves(a: Matrix, b: Matrix, x: Matrix, k: nat, s: nat) {
    && Shape(a, k, k) && Shape(b, k, s) && Shape(x, k, s)
    && forall r, t :: 0 <= r < k && 0 <= t < s ==> Dot(a[r], Column(x, t)) == b[r][t]
  }

  ghost predicate Kernel(a: Matrix, v: seq<Byte>, k: nat) {
    Shape(a, k, k) && |v| == k && forall r :: 0 <= r < k ==> Dot(a[r], v) == 0
  }

  ghost predicate NonSingular(a: Matrix, k: nat) {
    Shape(a, k, k) && forall v :: Kernel(a, v, k) ==> Zero(v)
  }

  lemma {:induction false} DotScaled(c: Byte, u: seq<Byte>, v: seq<Byte>)
    requires |u| == |v|
    ensures Dot(Scaled(c, u), v) == Mul(c, Dot(u, v))
  {
    hide Mul, Add;
    var n := |u| - 1;
    MulUnit(c);
    if u != [] {
      DotScaled(c, u[..n], v[..n]);
      assert Scaled(c, u)[..n] == Scaled(c, u[..n]);
      MulComm(u[n], c);
      MulAssoc(c, u[n], v[n]);
      MulAddRight(Dot(u[..n], v[..n]), Mul(u[n], v[n]), c);
    }
  }

  lemma {:induction false} DotSummed(u: seq<Byte>, f: Byte, p: seq<Byte>, v: seq<Byte>)
    requires |u| == |v| == |p|
    ensures Dot(Summed(u, f, p), v) == Add(Dot(u, v), Mul(f, Dot(p, v)))
  {
    hide Mul, Add;
    var n := |u| - 1;
    MulUnit(f);
    AddLaws(0, 0, 0);
    if u != [] {
      DotSummed(u[..n], f, p[..n], v[..n]);
      assert Summed(u, f, p)[..n] == Summed(u[..n], f, p[..n]);
      MulAddLeft(u[n], Mul(f, p[n]), v[n]);
      MulAssoc(f, p[n], v[n]);
      var d, e := Dot(u[..n], v[..n]), Dot(p[..n], v[..n]);
      AddSwap(d, Mul(f, e), Mul(u[n], v[n]), Mul(f, Mul(p[n], v[n])));
      MulAddRight(e, Mul(p[n], v[n]), f);
    }
  }

  lemma {:induction false} DotAdd(u: seq<Byte>, v: seq<Byte>, w: seq<Byte>, vw: seq<Byte>)
    requires |u| == |v| == |w| == |vw|
    requires forall i :: 0 <= i < |v| ==> vw[i] == Add(v[i], w[i])
    ensures Dot(u, vw) == Add(Dot(u, v), Dot(u, w))
  {
    hide Mul, Add;
    var n := |u| - 1;
    AddLaws(0, 0, 0);
    if u != [] {
      DotAdd(u[..n], v[..n], w[..n], vw[..n]);
      MulAddRight(v[n], w[n], u[n]);
      AddSwap(Dot(u[..n], v[..n]), Dot(u[..n], w[..n]), Mul(u[n], v[n]), Mul(u[n], w[n]));
    }
  }

  /** Two systems with the same solutions and the same kernel. */
  ghost predicate Equivalent(a0: Matrix, b0: Matrix, a: Matrix, b: Matrix, k: nat, s: nat) {
    && Shape(a0, k, k) && Shape(b0, k, s) && Shape(a, k, k) && Shape(b, k, s)
    && (forall x :: Solves(a0, b0, x, k, s) <==> Solves(a, b, x, k, s))
    && (forall v :: Kernel(a0, v, k) <==> Kernel(a, v, k))
  }

  lemma EquivalentTransitive(a0: Matrix, b0: Matrix, a: Matrix, b: Matrix, a': Matrix, b': Matrix, k: nat, s: nat)
    requires Equivalent(a0, b0, a, b, k, s) && Equivalent(a, b, a', b', k, s)
    ensures Equivalent(a0, b0, a', b', k, s)
  {
    hide Solves, Kernel;
  }

  lemma SwapKeeps(a: Matrix, b: Matrix, i: nat, j: nat, k: nat, s: nat)
    requires Shape(a, k, k) && Shape(b, k, s) && i < k && j < k
    ensures Equivalent(a, b, SwapRows(a, i, j), SwapRows(b, i, j), k, s)
  {
    hide Dot;
    var a', b' := SwapRows(a, i, j), SwapRows(b, i, j);
    assert SwapRows(a', i, j) == a && SwapRows(b', i, j) == b;
    forall x ensures Solves(a, b, x, k, s) <==> Solves(a', b', x, k, s) {
      if Solves(a, b, x, k, s) { assert Solves(a', b', x, k, s); }
      if Solves(a', b', x, k, s) {
        forall r, t | 0 <= r < k && 0 <= t < s ensures Dot(a[r], Column(x, t)) == b[r][t] {
          var r' := if r == i then j else if r == j then i else r;
          assert a'[r'] == a[r] && b'[r'] == b[r];
        }
      }
    }
    forall v ensures Kernel(a, v, k) <==> Kernel(a', v, k) {
      if Kernel(a', v, k) {
        forall r | 0 <= r < k ensures Dot(a[r], v) == 0 {
          var r' := if r == i then j else if r == j then i else r;
          assert a'[r'] == a[r];
        }
      }
    }
  }

  lemma ScaleKeeps(a: Matrix, b: Matrix, i: nat, c: Byte, k: nat, s: nat)
    requires Shape(a, k, k) && Shape(b, k, s) && i < k && c != 0
    ensures Equivalent(a, b, ScaleRow(a, i, c), ScaleRow(b, i, c), k, s)
  {
    hide Dot, Mul;
    var a', b' := ScaleRow(a, i, c), ScaleRow(b, i, c);
    forall x ensures Solves(a, b, x, k, s) <==> Solves(a', b', x, k, s) {
      if Shape(x, k, s) {
        forall t | 0 <= t < s ensures Dot(a[i], Column(x, t)) == b[i][t] <==> Dot(a'[i], Column(x, t)) == b'[i][t] {
          ScaleCancel(c, a[i], Column(x, t), b[i][t]);
        }
        if Solves(a', b', x, k, s) {
          forall r, t | 0 <= r < k && 0 <= t < s ensures Dot(a[r], Column(x, t)) == b[r][t] {
            assert Dot(a'[r], Column(x, t)) == b'[r][t];
            if r != i { assert a'[r] == a[r] && b'[r] == b[r]; }
          }
        }
      }
    }
    forall v ensures Kernel(a, v, k) <==> Kernel(a', v, k) {
      if |v| == k {
        ScaleCancel(c, a[i], v, 0);
        MulUnit(c);
        if Kernel(a', v, k) {
          forall r | 0 <= r < k ensures Dot(a[r], v) == 0 {
            if r != i { assert a'[r] == a[r]; }
          }
        }
      }
    }
  }

  lemma ScaleCancel(c: Byte, u: seq<Byte>, v: seq<Byte>, e: Byte)
    requires c != 0 && |u| == |v|
    ensures Dot(u, v) == e <==> Dot(Scaled(c, u), v) == Mul(e, c)
  {
    hide Mul, Dot;
    DotScaled(c, u, v);
    MulComm(c, e);
    MulCancel(c, e);
    MulCancel(c, Dot(u, v));
  }

  lemma SumCancel(f: Byte, u: seq<Byte>, p: seq<Byte>, v: seq<Byte>, e: Byte, g: Byte)
    requires |u| == |p| == |v| && Dot(p, v) == g
    ensures Dot(u, v) == e <==> Dot(Summed(u, f, p), v) == Add(e, Mul(f, g))
  {
    hide Mul, Dot, Add;
    DotSummed(u, f, p, v);
    AddCancel(Mul(f, g), e);
    AddCancel(Mul(f, g), Dot(u, v));
  }

  lemma AddKeeps(a: Matrix, b: Matrix, i: nat, f: Byte, p: nat, k: nat, s: nat)
    requires Shape(a, k, k) && Shape(b, k, s) && i < k && p < k && i != p
    ensures Equivalent(a, b, AddRow(a, i, f, p), AddRow(b, i, f, p), k, s)
  {
    hide Dot, Mul, Add;
    var a', b' := AddRow(a, i, f, p), AddRow(b, i, f, p);
    assert a'[p] == a[p] && b'[p] == b[p];
    forall x ensures Solves(a, b, x, k, s) <==> Solves(a', b', x, k, s) {
      if Solves(a, b, x, k, s) {
        forall r, t | 0 <= r < k && 0 <= t < s ensures Dot(a'[r], Column(x, t)) == b'[r][t] {
          assert Dot(a[r], Column(x, t)) == b[r][t] && Dot(a[p], Column(x, t)) == b[p][t];
          SumCancel(f, a[i], a[p], Column(x, t), b[i][t], b[p][t]);
        }
      }
      if Solves(a', b', x, k, s) {
        forall r, t | 0 <= r < k && 0 <= t < s ensures Dot(a[r], Column(x, t)) == b[r][t] {
          assert Dot(a'[r], Column(x, t)) == b'[r][t] && Dot(a'[p], Column(x, t)) == b'[p][t];
          SumCancel(f, a[i], a[p], Column(x, t), b[i][t], b[p][t]);
        }
      }
    }
    MulUnit(f);
    AddLaws(0, 0, 0);
    forall v ensures Kernel(a, v, k) <==> Kernel(a', v, k) {
      if Kernel(a, v, k) {
        SumCancel(f, a[i], a[p], v, 0, 0);
      }
      if Kernel(a', v, k) {
        forall r | 0 <= r < k ensures Dot(a[r], v) == 0 {
          assert Dot(a'[r], v) == 0 && Dot(a'[p], v) == 0;
          SumCancel(f, a[i], a[p], v, 0, 0);
        }
      }
    }
  }

  /** Columns below col are unit columns. */
  ghost predicate Reduced(a: Matrix, k: nat, col: nat) {
    && Shape(a, k, k) && col <= k
    && forall r, c :: 0 <= r < k && 0 <= c < col ==> a[r][c] == if r == c then 1 else 0
  }

  /** A column without a pivot gives a nonzero vector of the kernel. */
  lemma KernelWitness(a: Matrix, k: nat, col: nat) returns (ve: seq<Byte>)
    requires Reduced(a, k, col) && col < k && forall r :: col <= r < k ==> a[r][col] == 0
    ensures Kernel(a, ve, k) && ve[col] == 1
  {
    hide Mul, Add, Dot;
    var v := seq(k, c requires 0 <= c < k => if c < col then a[c][col] else 0);
    var e := UnitRow(k, col);
    ve := v[col := 1];
    forall r | 0 <= r < k ensures Dot(a[r], ve) == 0 {
      forall i | 0 <= i < k ensures ve[i] == Add(v[i], e[i]) { AddLaws(v[i], 0, 0); AddLaws(1, 0, 0); }
      DotAdd(a[r], v, e, ve);
      DotSingle(a[r], e, col);
      MulUnit(a[r][col]);
      DotSingle(a[r], v, r);
      AddCancel(a[r][col], a[r][col]);
      MulUnit(v[r]);
      MulUnit(a[r][r]);
      AddLaws(0, 0, 0);
    }
  }

  /** A non-singular system reduced up to col has a pivot for col: the search cannot run off the end. */
  lemma PivotExists(a: Matrix, k: nat, col: nat)
    requires NonSingular(a, k) && Reduced(a, k, col) && col < k
    ensures exists r :: col <= r < k && a[r][col] != 0
  {
    hide Dot;
    if forall r :: col <= r < k ==> a[r][col] == 0 {
      var _ := KernelWitness(a, k, col);
    }
  }

  /** Fully reduced, the right-hand side is the solution. */
  lemma ReducedSolution(a: Matrix, b: Matrix, k: nat, s: nat)
    requires Reduced(a, k, k) && Shape(b, k, s)
    ensures Solves(a, b, b, k, s)
    ensures forall x :: Solves(a, b, x, k, s) ==> x == b
  {
    hide Mul, Add, Dot;
    forall x, r, t | Shape(x, k, s) && 0 <= r < k && 0 <= t < s ensures Dot(a[r], Column(x, t)) == x[r][t] {
      DotSingle(a[r], Column(x, t), r);
      MulUnit(x[r][t]);
    }
    forall x | Solves(a, b, x, k, s) ensures x == b {
      forall r | 0 <= r < k ensures x[r] == b[r] {
        forall t | 0 <= t < s ensures x[r][t] == b[r][t] {
          assert Dot(a[r], Column(x, t)) == b[r][t];
        }
      }
    }
  }
}
