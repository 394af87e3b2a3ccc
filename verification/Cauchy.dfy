/** Cauchy rows over GF(256): any set of them is non-singular on as many columns. */
module Cauchy {
  import opened Bytes
  import opened Gf256

  function Dot(u: seq<Byte>, v: seq<Byte>): Byte
    requires |u| == |v|
  {
    if u == [] then 0
    else Add(Dot(u[..|u| - 1], v[..|u| - 1]), Mul(u[|u| - 1], v[|u| - 1]))
  }

  ghost predicate Zero(v: seq<Byte>) {
    forall i :: 0 <= i < |v| ==> v[i] == 0
  }

  /** The coefficients 1 / (x ^ i) for i below k, which is the row of the repair symbol numbered x - k. */
  ghost function CauchyRow(k: nat, x: Byte): (row: seq<Byte>)
    requires k <= x
    ensures |row| == k && forall i :: 0 <= i < k ==> Add(x, i) != 0 && row[i] == Inverse(Add(x, i))
  {
    if k == 0 then []
    else
      AddCancel(x, k - 1);
      CauchyRow(k - 1, x) + [Inverse(Add(x, k - 1))]
  }

  /** The row e_i of a source symbol. */
  function UnitRow(k: nat, i: nat): (row: seq<Byte>)
    requires i < k
    ensures |row| == k && forall j :: 0 <= j < k ==> row[j] == if j == i then 1 else 0
  {
    seq(k, j => if j == i then 1 else 0)
  }

  /** A sum with one nonzero term is that term. */
  lemma {:induction false} DotSingle(u: seq<Byte>, v: seq<Byte>, l: nat)
    requires |u| == |v| && l < |u|
    requires forall i :: 0 <= i < |u| && i != l ==> u[i] == 0 || v[i] == 0
    ensures Dot(u, v) == Mul(u[l], v[l])
  {
    hide Mul, Add;
    var n := |u| - 1;
    var u', v' := u[..n], v[..n];
    if l == n {
      DotZero(u', v');
    } else {
      DotSingle(u', v', l);
      MulUnit(u[n]);
      MulUnit(v[n]);
    }
    AddLaws(Mul(u[l], v[l]), 0, 0);
  }

  lemma {:induction false} DotZero(u: seq<Byte>, v: seq<Byte>)
    requires |u| == |v|
    requires forall i :: 0 <= i < |u| ==> u[i] == 0 || v[i] == 0
    ensures Dot(u, v) == 0
  {
    hide Mul, Add;
    if u != [] {
      var n := |u| - 1;
      DotZero(u[..n], v[..n]);
      MulUnit(u[n]);
      MulUnit(v[n]);
      AddLaws(0, 0, 0);
    }
  }

  /** The combination that eliminates column l using the row of xl. */
  ghost function Eliminated(v: seq<Byte>, l: Byte, xl: Byte): (w: seq<Byte>)
    requires |v| <= xl
    ensures |w| == |v|
    ensures forall i :: 0 <= i < |v| ==> Add(xl, i) != 0 && w[i] == Mul(Mul(v[i], Add(i, l)), Inverse(Add(xl, i)))
  {
    if v == [] then []
    else
      var n := |v| - 1;
      AddCancel(xl, n);
      Eliminated(v[..n], l, xl) + [Mul(Mul(v[n], Add(n, l)), Inverse(Add(xl, n)))]
  }

  /** (a + d) / a + (b + d) / b == (d / b) * (a + b) / a in characteristic 2. */
  lemma Fractions(a: Byte, b: Byte, d: Byte)
    requires a != 0 && b != 0
    ensures Add(Mul(Add(a, d), Inverse(a)), Mul(Add(b, d), Inverse(b)))
         == Mul(Add(a, b), Mul(Mul(d, Inverse(b)), Inverse(a)))
  {
    hide *;
    var p, q := Inverse(a), Inverse(b);
    MulAddLeft(a, d, p);
    MulAddLeft(b, d, q);
    var dp, dq := Mul(d, p), Mul(d, q);
    AddSwap(1, dp, 1, dq);
    AddLaws(1, 0, 0);
    AddLaws(Add(dp, dq), 0, 0);
    assert Add(Mul(Add(a, d), p), Mul(Add(b, d), q)) == Add(dp, dq);
    var dqp := Mul(dq, p);
    MulAddLeft(a, b, dqp);
    // a * (d q p) == d q
    MulComm(dq, p);
    MulAssoc(a, p, dq);
    MulUnit(dq);
    assert Mul(a, dqp) == dq;
    // b * (d q p) == d p
    MulComm(d, q);
    MulAssoc(q, d, p);
    MulAssoc(b, q, dp);
    MulUnit(dp);
    assert Mul(b, dqp) == dp;
    AddLaws(dp, dq, 0);
  }

  /** One column of the elimination, with the coefficient c. */
  lemma EliminateTerm(c: Byte, i: Byte, l: Byte, x: Byte, xl: Byte)
    requires Add(x, i) != 0 && Add(xl, i) != 0
    ensures Add(Mul(Add(x, l), Mul(Inverse(Add(x, i)), c)), Mul(Add(xl, l), Mul(Inverse(Add(xl, i)), c)))
         == Mul(Add(x, xl), Mul(Inverse(Add(x, i)), Mul(Mul(c, Add(i, l)), Inverse(Add(xl, i)))))
  {
    hide *;
    var a, b, d := Add(x, i), Add(xl, i), Add(i, l);
    var p, q := Inverse(a), Inverse(b);
    assert Add(a, d) == Add(x, l) && Add(b, d) == Add(xl, l) && Add(a, b) == Add(x, xl) by {
      AddLaws(x, i, d); AddLaws(xl, i, d); AddCancel(i, l);
      AddSwap(x, i, xl, i); AddLaws(i, 0, 0); AddLaws(Add(x, xl), 0, 0);
    }
    Fractions(a, b, d);
    var left := Add(Mul(Add(a, d), p), Mul(Add(b, d), q));
    MulAssoc(Add(a, d), p, c);
    MulAssoc(Add(b, d), q, c);
    MulAddLeft(Mul(Add(a, d), p), Mul(Add(b, d), q), c);
    assert Add(Mul(Add(x, l), Mul(p, c)), Mul(Add(xl, l), Mul(q, c))) == Mul(left, c);
    var dqp := Mul(Mul(d, q), p);
    MulAssoc(Add(a, b), dqp, c);
    assert Mul(dqp, c) == Mul(p, Mul(Mul(c, d), q)) by {
      MulComm(Mul(d, q), p);
      MulAssoc(p, Mul(d, q), c);
      MulComm(Mul(d, q), c);
      MulAssoc(c, d, q);
    }
  }

  /** Dot products split off their last column. */
  lemma DotLast(k: nat, x: Byte, v: seq<Byte>)
    requires |v| == k + 1 && k + 1 <= x
    ensures Add(x, k) != 0
    ensures Dot(CauchyRow(k + 1, x), v) == Add(Dot(CauchyRow(k, x), v[..k]), Mul(Inverse(Add(x, k)), v[k]))
  {
    hide Mul, Add;
    AddCancel(x, k);
    assert CauchyRow(k + 1, x)[..k] == CauchyRow(k, x);
  }

  /** Combining the equations of x and xl removes column l and leaves an equation of the same shape. */
  lemma {:induction false} EliminateSum(v: seq<Byte>, l: Byte, x: Byte, xl: Byte)
    requires |v| <= x && |v| <= xl
    ensures Add(Mul(Add(x, l), Dot(CauchyRow(|v|, x), v)), Mul(Add(xl, l), Dot(CauchyRow(|v|, xl), v)))
         == Mul(Add(x, xl), Dot(CauchyRow(|v|, x), Eliminated(v, l, xl)))
  {
    hide Mul, Add;
    var k := |v| - 1;
    if v == [] {
      MulUnit(Add(x, l)); MulUnit(Add(xl, l)); MulUnit(Add(x, xl));
      AddLaws(0, 0, 0);
    } else {
      var w := Eliminated(v, l, xl);
      EliminateSum(v[..k], l, x, xl);
      DotLast(k, x, v);
      DotLast(k, xl, v);
      DotLast(k, x, w);
      assert w[..k] == Eliminated(v[..k], l, xl);
      AddCancel(xl, k);
      EliminateTerm(v[k], k, l, x, xl);
      SplitLast(x, xl, l, Dot(CauchyRow(k, x), v[..k]), Mul(Inverse(Add(x, k)), v[k]),
        Dot(CauchyRow(k, xl), v[..k]), Mul(Inverse(Add(xl, k)), v[k]),
        Dot(CauchyRow(k, x), w[..k]), Mul(Inverse(Add(x, k)), w[k]));
    }
  }

  /** Two equations between linear combinations add up. */
  lemma SplitLast(x: Byte, xl: Byte, l: Byte, d: Byte, t: Byte, dl: Byte, tl: Byte, e: Byte, u: Byte)
    requires Add(Mul(Add(x, l), d), Mul(Add(xl, l), dl)) == Mul(Add(x, xl), e)
    requires Add(Mul(Add(x, l), t), Mul(Add(xl, l), tl)) == Mul(Add(x, xl), u)
    ensures Add(Mul(Add(x, l), Add(d, t)), Mul(Add(xl, l), Add(dl, tl))) == Mul(Add(x, xl), Add(e, u))
  {
    hide *;
    MulAddRight(d, t, Add(x, l));
    MulAddRight(dl, tl, Add(xl, l));
    MulAddRight(e, u, Add(x, xl));
    AddSwap(Mul(Add(x, l), d), Mul(Add(x, l), t), Mul(Add(xl, l), dl), Mul(Add(xl, l), tl));
  }

  ghost predicate Distinct(xs: seq<Byte>) {
    forall i, j :: 0 <= i < j < |xs| ==> xs[i] != xs[j]
  }

  /** v satisfies the homogeneous equation of every Cauchy row in xs. */
  ghost predicate Annihilates(xs: seq<Byte>, v: seq<Byte>) {
    forall r :: 0 <= r < |xs| ==> |v| <= xs[r] && Dot(CauchyRow(|v|, xs[r]), v) == 0
  }

  /** With column l eliminated, the remaining rows annihilate what is left. */
  lemma EliminateKeeps(v: seq<Byte>, l: Byte, xs: seq<Byte>)
    requires xs != [] && Distinct(xs) && Annihilates(xs, v)
    ensures |v| <= xs[|xs| - 1]
    ensures Annihilates(xs[..|xs| - 1], Eliminated(v, l, xs[|xs| - 1]))
  {
    hide Mul, Add, Dot;
    var xl := xs[|xs| - 1];
    var w := Eliminated(v, l, xl);
    forall r | 0 <= r < |xs| - 1 ensures Dot(CauchyRow(|w|, xs[r]), w) == 0 {
      var x := xs[r];
      EliminateSum(v, l, x, xl);
      MulUnit(Add(x, l));
      MulUnit(Add(xl, l));
      AddLaws(0, 0, 0);
      AddCancel(x, xl);
      MulCancel(Add(x, xl), Dot(CauchyRow(|v|, x), w));
    }
  }

  /** If column l's elimination leaves nothing, only column l can be nonzero. */
  lemma EliminatedZero(v: seq<Byte>, l: Byte, xl: Byte, i: nat)
    requires |v| <= xl && i < |v| && i != l
    requires Eliminated(v, l, xl)[i] == 0
    ensures v[i] == 0
  {
    hide Mul, Add, Eliminated;
    var d := Add(i, l);
    AddCancel(i, l);
    var q := Inverse(Add(xl, i));
    MulComm(Mul(v[i], d), q);
    MulCancel(q, Mul(v[i], d));
    MulComm(v[i], d);
    MulCancel(d, v[i]);
  }

  /**
   * As many Cauchy rows as unknown columns determine the unknowns: a vector that vanishes
   * outside the columns in missing and is annihilated by |missing| distinct rows is zero.
   */
  lemma {:induction false} CauchyKernel(v: seq<Byte>, missing: set<int>, xs: seq<Byte>)
    requires Distinct(xs) && Annihilates(xs, v) && |missing| <= |xs|
    requires forall i :: 0 <= i < |v| && i !in missing ==> v[i] == 0
    ensures Zero(v)
    decreases |xs|
  {
    hide Mul, Add, Dot;
    if l :| l in missing && 0 <= l < |v| {
      var n := |xs| - 1;
      var xl := xs[n];
      var w := Eliminated(v, l, xl);
      EliminateKeeps(v, l, xs);
      forall i | 0 <= i < |w| && i !in missing - {l} ensures w[i] == 0 {
        MulUnit(Add(i, l));
        MulUnit(v[i]);
        AddCancel(i, l);
        MulUnit(Inverse(Add(xl, i)));
      }
      CauchyKernel(w, missing - {l}, xs[..n]);
      forall i | 0 <= i < |v| && i != l ensures v[i] == 0 {
        EliminatedZero(v, l, xl, i);
      }
      DotSingle(CauchyRow(|v|, xl), v, l);
      MulCancel(Inverse(Add(xl, l)), v[l]);
    }
  }
}
