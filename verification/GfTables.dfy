/** The log, exponent and nibble tables, and the arithmetic read from them. */
module GfTables {
  import opened Bytes
  import opened Gf256

  /** What the exponent and logarithm tables hold. */
  ghost predicate TablesCorrect(exp: seq<Byte>, log: seq<Byte>) {
    && |exp| == 512 && |log| == 256
    && (forall i :: 0 <= i < 512 ==> exp[i] == Power(i))
    && (forall a: Byte :: a != 0 ==> log[a] < 255 && Power(log[a]) == a)
  }

  lemma {:induction false} PowerPeriod(i: nat)
    ensures Power(i + 255) == Power(i)
  {
    hide Power;
    PowerOrder();
    PowerAdd(i, 255);
    MulUnit(Power(i));
  }

  /** A product is the power at the sum of the logarithms. */
  lemma TableProduct(exp: seq<Byte>, log: seq<Byte>, a: Byte, b: Byte)
    requires TablesCorrect(exp, log) && a != 0 && b != 0
    ensures exp[log[a] as int + log[b]] == Mul(a, b)
  {
    hide Power, Mul;
    PowerAdd(log[a] as int, log[b]);
  }

  lemma PowerDoubles(i: nat)
    ensures Power(i + 1) == if 2 * Power(i) >= 256 then Xor(2 * Power(i), 0x11D) else 2 * Power(i)
  {
    hide Xor;
    XorZero(2 * Power(i));
  }

  /** Once every power has its logarithm stored, every nonzero element has. */
  lemma LogsCorrect(filled: seq<Byte>, log: seq<Byte>)
    requires |filled| == 256 && log == filled[0 := 0]
    requires forall j :: 0 <= j < 255 ==> filled[Power(j)] == j
    ensures forall a: Byte :: a != 0 ==> log[a] < 255 && Power(log[a]) == a
  {
    hide Power;
    forall a: Byte | a != 0 ensures log[a] < 255 && Power(log[a]) == a {
      PowerOnto(a);
      var j: nat :| j < 255 && Power(j) == a;
    }
  }

  lemma ProductCases(exp: seq<Byte>, log: seq<Byte>, a: Byte, b: Byte)
    requires TablesCorrect(exp, log)
    ensures if a == 0 || b == 0 then Mul(a, b) == 0 else log[a] as int + log[b] < 512 && exp[log[a] as int + log[b]] == Mul(a, b)
  {
    hide Mul, Power;
    MulUnit(a);
    MulUnit(b);
    MulComm(a, b);
    if a != 0 && b != 0 { TableProduct(exp, log, a, b); }
  }

  /** An inverse is the power at the complement of the logarithm. */
  lemma TableInverse(exp: seq<Byte>, log: seq<Byte>, a: Byte)
    requires TablesCorrect(exp, log) && a != 0
    ensures Mul(a, exp[255 - log[a]]) == 1
  {
    hide Power, Mul;
    var i := log[a];
    PowerAdd(i, 255 - i);
    PowerOrder();
  }

  lemma XorDisjointStep(l: nat, l': nat, h: nat)
    requires l' == l / 2 && Xor(l', h) == l' + h
    ensures Xor(l, 2 * h) == l + 2 * h
  {
    hide Xor;
    XorHalve(l, 2 * h);
  }

  /** Disjoint nibbles: their exclusive or is their sum. */
  lemma XorNibbles(l: nat, h: nat)
    requires l < 16
    ensures Xor(l, 16 * h) == l + 16 * h
  {
    hide Xor;
    var l1 := l / 2;
    var l2 := l1 / 2;
    var l3 := l2 / 2;
    XorZero(h);
    XorDisjointStep(l3, 0, h);
    XorDisjointStep(l2, l3, 2 * h);
    XorDisjointStep(l1, l2, 4 * h);
    XorDisjointStep(l, l1, 8 * h);
  }

  /** Splitting the second factor into nibbles splits the product. */
  lemma NibbleSplit(c: Byte, v: Byte)
    ensures Mul(c, v) == Add(Mul(c, v % 16), Mul(c, v / 16 * 16))
  {
    hide Mul, Xor;
    XorNibbles(v % 16, v / 16);
    MulAddRight(v % 16, v / 16 * 16, c);
  }

  class Tables {
    var log: array<Byte>
    var exp: array<Byte>
    var mulLo: array2<Byte>
    var mulHi: array2<Byte>

    ghost predicate Valid()
      reads this, log, exp, mulLo, mulHi
    {
      && log.Length == 256 && exp.Length == 512
      && TablesCorrect(exp[..], log[..]) && log[0] == 0
      && mulLo.Length0 == mulHi.Length0 == 256 && mulLo.Length1 == mulHi.Length1 == 16
      && (forall c: Byte, n :: 0 <= n < 16 ==> mulLo[c, n] == Mul(c, n))
      && (forall c: Byte, n :: 0 <= n < 16 ==> mulHi[c, n] == Mul(c, n * 16))
    }

    /** An array the tables do not use. */
    ghost predicate Apart(a: array<Byte>)
      reads this
    {
      a != log && a != exp
    }

    ghost predicate Apart2(m: array2<Byte>)
      reads this
    {
      m != mulLo && m != mulHi
    }

    constructor ()
      ensures Valid() && fresh(log) && fresh(exp) && fresh(mulLo) && fresh(mulHi)
    {
      log := new Byte[256];
      exp := new Byte[512];
      mulLo := new Byte[256, 16];
      mulHi := new Byte[256, 16];
      new;
      FillPowers();
      FillNibbles();
    }

    /** The doubling loop, the copied second period and the pinned log[0]. */
    method FillPowers()
      requires log.Length == 256 && exp.Length == 512 && log != exp
      modifies log, exp
      ensures TablesCorrect(exp[..], log[..]) && log[0] == 0
    {
      hide Power, Xor, Times2;
      var x: nat := 1;
      var i := 0;
      PowerFirst();
      while i < 255
        invariant 0 <= i <= 255
        invariant x == Power(i)
        invariant forall j :: 0 <= j < i ==> exp[j] == Power(j)
        invariant forall j :: 0 <= j < i ==> log[Power(j)] == j
      {
        forall j | 0 <= j < i ensures Power(j) != Power(i) { PowerInjective(j, i); }
        PowerDoubles(i);
        exp[i] := x;
        log[x] := i;
        x := 2 * x;
        if x >= 0x100 {
          x := Xor(x, 0x11D);
        }
        i := i + 1;
      }
      ghost var logs := log[..];
      while i < 512
        invariant 255 <= i <= 512
        invariant forall j :: 0 <= j < i ==> exp[j] == Power(j)
        invariant log[..] == logs
      {
        PowerPeriod(i - 255);
        exp[i] := exp[i - 255];
        i := i + 1;
      }
      log[0] := 0;
      LogsCorrect(logs, log[..]);
    }

    method FillNibbles()
      requires log.Length == 256 && exp.Length == 512 && TablesCorrect(exp[..], log[..])
      requires mulLo.Length0 == mulHi.Length0 == 256 && mulLo.Length1 == mulHi.Length1 == 16
      requires mulLo != mulHi
      modifies mulLo, mulHi
      ensures forall c: Byte, n :: 0 <= n < 16 ==> mulLo[c, n] == Mul(c, n)
      ensures forall c: Byte, n :: 0 <= n < 16 ==> mulHi[c, n] == Mul(c, n * 16)
    {
      hide Mul, Power;
      var c := 0;
      while c < 256
        invariant 0 <= c <= 256
        invariant forall d, n :: 0 <= d < c && 0 <= n < 16 ==> mulLo[d, n] == Mul(d, n) && mulHi[d, n] == Mul(d, n * 16)
      {
        var n := 0;
        while n < 16
          invariant 0 <= n <= 16
          invariant forall d, m :: 0 <= d < c && 0 <= m < 16 ==> mulLo[d, m] == Mul(d, m) && mulHi[d, m] == Mul(d, m * 16)
          invariant forall m :: 0 <= m < n ==> mulLo[c, m] == Mul(c, m) && mulHi[c, m] == Mul(c, m * 16)
        {
          mulLo[c, n] := Product(c, n);
          mulHi[c, n] := Product(c, n * 16);
          n := n + 1;
        }
        c := c + 1;
      }
    }

    /** gf_mul: zero when a factor is zero, else the power at the sum of the logarithms. */
    function Product(a: Byte, b: Byte): (r: Byte)
      requires log.Length == 256 && exp.Length == 512 && TablesCorrect(exp[..], log[..])
      reads this, log, exp
      ensures r == Mul(a, b)
    {
      hide Mul, Power;
      ProductCases(exp[..], log[..], a, b);
      if a == 0 || b == 0 then 0 else exp[log[a] as int + log[b]]
    }

    /** gf_inv. */
    function Reciprocal(a: Byte): (r: Byte)
      requires Valid() && a != 0
      reads this, log, exp, mulLo, mulHi
      ensures Mul(a, r) == 1
    {
      TableInverse(exp[..], log[..], a);
      exp[255 - log[a]]
    }

    /** The table pair a vector implementation multiplies by: one lookup per nibble. */
    function NibbleProduct(c: Byte, v: Byte): (r: Byte)
      requires Valid()
      reads this, log, exp, mulLo, mulHi
      ensures r == Mul(c, v)
    {
      NibbleSplit(c, v);
      Add(mulLo[c, v % 16], mulHi[c, v / 16])
    }

    /** gf_mul_xor: out[i] ^= c * input[i], with the shortcuts for 0 and 1. */
    method MulXor(c: Byte, input: seq<Byte>, out: array<Byte>)
      requires Valid() && |input| == out.Length
      requires Apart(out)
      modifies out
      ensures forall i :: 0 <= i < out.Length ==> out[i] == Add(old(out[i]), Mul(c, input[i]))
    {
      hide Mul, Power, Add;
      if c == 0 {
        forall i | 0 <= i < out.Length ensures out[i] == Add(out[i], Mul(c, input[i])) {
          MulUnit(input[i]);
          AddLaws(out[i], 0, 0);
        }
        return;
      }
      var i := 0;
      if c == 1 {
        while i < out.Length
          invariant 0 <= i <= out.Length
          invariant forall j :: 0 <= j < i ==> out[j] == Add(old(out[j]), Mul(c, input[j]))
          invariant forall j :: i <= j < out.Length ==> out[j] == old(out[j])
        {
          MulUnit(input[i]);
          out[i] := Add(out[i], input[i]);
          i := i + 1;
        }
        return;
      }
      var coefficientLog := log[c];
      while i < out.Length
        invariant 0 <= i <= out.Length
        invariant forall j :: 0 <= j < i ==> out[j] == Add(old(out[j]), Mul(c, input[j]))
        invariant forall j :: i <= j < out.Length ==> out[j] == old(out[j])
      {
        var v := input[i];
        if v != 0 {
          TableProduct(exp[..], log[..], c, v);
          out[i] := Add(out[i], exp[coefficientLog as int + log[v]]);
        } else {
          MulUnit(c);
          AddLaws(out[i], 0, 0);
        }
        i := i + 1;
      }
    }
  }
}
