/** The field GF(256) as polynomials over GF(2) modulo x^8 + x^4 + x^3 + x^2 + 1 (0x11D). */
module Gf256 {
  import opened Bytes

  /** Bitwise exclusive or. */
  function Xor(a: nat, b: nat): nat
    decreases a + b
  {
    if a == 0 && b == 0 then 0 else (if a % 2 == b % 2 then 0 else 1) + 2 * Xor(a / 2, b / 2)
  }

  lemma {:induction false} XorComm(a: nat, b: nat)
    ensures Xor(a, b) == Xor(b, a)
    decreases a + b
  {
    if a != 0 || b != 0 { XorComm(a / 2, b / 2); }
  }

  lemma {:induction false} XorZero(a: nat)
    ensures Xor(a, 0) == a && Xor(0, a) == a && Xor(a, a) == 0
  {
    if a != 0 { XorZero(a / 2); }
  }

  lemma {:induction false} XorAssoc(a: nat, b: nat, c: nat)
    ensures Xor(Xor(a, b), c) == Xor(a, Xor(b, c))
    decreases a + b + c
  {
    if a != 0 || b != 0 || c != 0 {
      XorAssoc(a / 2, b / 2, c / 2);
      var ab, bc := Xor(a, b), Xor(b, c);
      assert ab / 2 == Xor(a / 2, b / 2) && ab % 2 == (if a % 2 == b % 2 then 0 else 1);
      assert bc / 2 == Xor(b / 2, c / 2) && bc % 2 == (if b % 2 == c % 2 then 0 else 1);
    }
  }

  predicate PowerOfTwo(m: nat) {
    m == 1 || (m > 1 && m % 2 == 0 && PowerOfTwo(m / 2))
  }

  /** The exclusive or of two numbers below 2m stays below 2m, and its top bit is set when exactly one is. */
  lemma {:induction false} XorTop(m: nat, a: nat, b: nat)
    requires PowerOfTwo(m) && a < 2 * m && b < 2 * m
    ensures Xor(a, b) < 2 * m
    ensures Xor(a, b) >= m <==> (a >= m) != (b >= m)
    decreases m
  {
    if m > 1 { XorTop(m / 2, a / 2, b / 2); }
    else { assert Xor(a / 2, b / 2) == 0; }
  }

  /** Setting the top bit is an exclusive or. */
  lemma {:induction false} XorHigh(m: nat, a: nat)
    requires PowerOfTwo(m) && a < m
    ensures Xor(m, a) == m + a
    decreases m
  {
    if m > 1 { XorHigh(m / 2, a / 2); }
    else { XorZero(1); }
  }

  /** Field addition. */
  function Add(a: Byte, b: Byte): Byte {
    XorTop(128, a, b);
    Xor(a, b)
  }

  lemma AddLaws(a: Byte, b: Byte, c: Byte)
    ensures Add(a, b) == Add(b, a)
    ensures Add(Add(a, b), c) == Add(a, Add(b, c))
    ensures Add(a, 0) == a && Add(0, a) == a && Add(a, a) == 0
  {
    XorComm(a, b);
    XorAssoc(a, b, c);
    XorZero(a);
  }

  lemma AddCancel(a: Byte, b: Byte)
    ensures Add(a, Add(a, b)) == b && Add(Add(b, a), a) == b
    ensures Add(a, b) == 0 <==> a == b
  {
    AddLaws(a, a, b);
    AddLaws(b, a, a);
    AddLaws(a, b, b);
    AddLaws(b, b, a);
  }

  lemma AddSwap(a: Byte, b: Byte, c: Byte, d: Byte)
    ensures Add(Add(a, b), Add(c, d)) == Add(Add(a, c), Add(b, d))
  {
    AddLaws(a, b, Add(c, d));
    AddLaws(b, c, d);
    AddLaws(c, b, d);
    AddLaws(a, c, Add(b, d));
  }

  /** What the shift of an element overflowing eight bits is reduced by. */
  function Reduction(a: Byte): nat {
    if a >= 128 then 0x11D else 0
  }

  /** Multiplication by the generator 2: shift left, reduce by 0x11D on overflow. */
  function Times2(a: Byte): Byte {
    XorTop(256, 2 * a, Reduction(a));
    Xor(2 * a, Reduction(a))
  }

  lemma XorSwap(a: nat, b: nat, c: nat, d: nat)
    ensures Xor(Xor(a, b), Xor(c, d)) == Xor(Xor(a, c), Xor(b, d))
  {
    XorAssoc(a, b, Xor(c, d));
    XorAssoc(b, c, d);
    XorComm(b, c);
    XorAssoc(c, b, d);
    XorAssoc(a, c, Xor(b, d));
  }

  lemma Times2Linear(a: Byte, b: Byte)
    ensures Times2(Add(a, b)) == Add(Times2(a), Times2(b))
  {
    assert Xor(2 * a, 2 * b) == 2 * Xor(a, b);
    assert Reduction(Add(a, b)) == Xor(Reduction(a), Reduction(b)) by {
      XorTop(128, a, b);
      XorZero(0x11D);
      XorZero(0);
    }
    XorSwap(2 * a, 2 * b, Reduction(a), Reduction(b));
  }

  /** Every element is a doubling plus its own last bit. */
  lemma LastBit(a: Byte)
    ensures a == Add(Times2(a / 2), a % 2)
  {
    XorZero(2 * (a / 2));
    assert Xor(2 * (a / 2), a % 2) == a by {
      XorZero(a / 2);
      assert Xor(2 * (a / 2), a % 2) == a % 2 + 2 * Xor(a / 2, 0);
    }
  }

  /** Product of polynomials modulo 0x11D, one bit of b at a time: the reference for the tables. */
  function Mul(a: Byte, b: nat): Byte
    decreases b
  {
    if b == 0 then 0 else Add(if b % 2 == 1 then a else 0, Mul(Times2(a), b / 2))
  }

  lemma {:induction false} MulTimes2(a: Byte, b: nat)
    ensures Mul(Times2(a), b) == Times2(Mul(a, b))
    ensures Mul(a, 2 * b) == Times2(Mul(a, b))
    decreases b
  {
    XorZero(0);
    if b != 0 {
      MulTimes2(Times2(a), b / 2);
      Times2Linear(if b % 2 == 1 then a else 0, Mul(Times2(a), b / 2));
      AddLaws(Mul(Times2(a), b), 0, 0);
    }
  }

  lemma {:induction false} MulAddLeft(a: Byte, b: Byte, c: nat)
    ensures Mul(Add(a, b), c) == Add(Mul(a, c), Mul(b, c))
    decreases c
  {
    AddLaws(0, 0, 0);
    if c != 0 {
      MulAddLeft(Times2(a), Times2(b), c / 2);
      Times2Linear(a, b);
      var a', b' := if c % 2 == 1 then a else 0, if c % 2 == 1 then b else 0;
      AddSwap(a', b', Mul(Times2(a), c / 2), Mul(Times2(b), c / 2));
    }
  }

  lemma {:induction false} MulUnit(a: Byte)
    ensures Mul(0, a) == 0 && Mul(1, a) == a && Mul(a, 1) == a && Mul(a, 0) == 0
    decreases a
  {
    AddLaws(0, 0, 0);
    AddLaws(a, 0, 0);
    XorZero(2);
    if a != 0 {
      MulUnit(a / 2);
      MulTimes2(0, a / 2);
      MulTimes2(1, a / 2);
      LastBit(a);
      AddLaws(Times2(a / 2), a % 2, 0);
    }
  }

  lemma {:induction false} MulComm(a: Byte, b: Byte)
    ensures Mul(a, b) == Mul(b, a)
    decreases b
  {
    MulUnit(a);
    if b != 0 {
      MulComm(a, b / 2);
      LastBit(b);
      MulAddLeft(Times2(b / 2), b % 2, a);
      MulTimes2(b / 2, a);
      MulTimes2(a, b / 2);
      AddLaws(Times2(Mul(a, b / 2)), Mul(b % 2, a), 0);
    }
  }

  lemma MulAddRight(a: Byte, b: Byte, c: Byte)
    ensures Mul(c, Add(a, b)) == Add(Mul(c, a), Mul(c, b))
  {
    MulAddLeft(a, b, c);
    MulComm(c, a);
    MulComm(c, b);
    MulComm(c, Add(a, b));
  }

  lemma {:induction false} MulAssoc(a: Byte, b: Byte, c: Byte)
    ensures Mul(Mul(a, b), c) == Mul(a, Mul(b, c))
    decreases c
  {
    MulUnit(a);
    if c != 0 {
      var b' := if c % 2 == 1 then b else 0;
      MulAddRight(b', Mul(Times2(b), c / 2), a);
      MulAssoc(a, Times2(b), c / 2);
      MulComm(a, Times2(b));
      MulTimes2(b, a);
      MulComm(a, b);
    }
  }

  /** Powers of the generator: the exponent table. */
  function Power(n: nat): Byte {
    if n == 0 then 1 else Times2(Power(n - 1))
  }

  lemma {:induction false} PowerAdd(m: nat, n: nat)
    ensures Power(m + n) == Mul(Power(m), Power(n))
    decreases m
  {
    MulUnit(Power(n));
    if m != 0 {
      PowerAdd(m - 1, n);
      MulTimes2(Power(m - 1), Power(n));
    }
  }

  /** Flipping one bit of weight w whose present value is the last bit of b. */
  function Flip(b: nat, w: int): int {
    if b % 2 == 0 then w else -w
  }

  lemma XorHalve(a: nat, b: nat)
    ensures Xor(a, b) == (if a % 2 == b % 2 then 0 else 1) + 2 * Xor(a / 2, b / 2)
  {
  }

  /** Flipping the modulus out of a doubled element, on half of it. */
  lemma XorModulus(a: Byte)
    requires a >= 128
    ensures Xor(2 * a, 0x11D) == 2 * a - 255 + Flip(a / 2, 4) + Flip(a / 4, 8) + Flip(a / 8, 16)
  {
    hide Xor;
    var a2 := a / 2;
    var a4 := a2 / 2;
    var a8 := a4 / 2;
    var h := a8 / 2;
    assert a4 == a / 4 && a8 == a / 8;
    assert Xor(h, 8) == h - 8 by {
      XorHigh(8, h - 8);
      XorComm(h, 8);
      XorAssoc(8, 8, h - 8);
      XorZero(8);
      XorZero(h - 8);
    }
    XorHalve(a8, 17);
    XorHalve(a4, 35);
    XorHalve(a2, 71);
    XorHalve(a, 142);
    XorHalve(2 * a, 0x11D);
    assert Flip(a8, 16) == (if a8 % 2 == 0 then 16 else -16);
  }

  /** Times2 as arithmetic: the modulus flips the bits of weight 16, 8, 4 and 1. */
  lemma Times2Value(a: Byte)
    ensures Times2(a) ==
      if a < 128 then 2 * a else 2 * a - 255 + Flip(a / 2, 4) + Flip(a / 4, 8) + Flip(a / 8, 16)
  {
    hide Xor;
    XorZero(2 * a);
    if a >= 128 { XorModulus(a); }
  }

  lemma PowerStep(n: nat, p: Byte, q: Byte)
    requires Power(n) == p
    requires q as int == if p < 128 then 2 * p else 2 * p - 255 + Flip(p / 2, 4) + Flip(p / 4, 8) + Flip(p / 8, 16)
    ensures Power(n + 1) == q
  {
    hide Times2;
    Times2Value(p);
  }

  lemma PowerFirst()
    ensures Power(0) == 1 && Power(1) == 2 && Power(8) == 29 && Power(15) == 38
  {
    assert Power(0) == 1;
    hide Power;
    PowerStep(0, 1, 2);
    PowerStep(1, 2, 4);
    PowerStep(2, 4, 8);
    PowerStep(3, 8, 16);
    PowerStep(4, 16, 32);
    PowerStep(5, 32, 64);
    PowerStep(6, 64, 128);
    PowerStep(7, 128, 29);
    PowerStep(8, 29, 58);
    PowerStep(9, 58, 116);
    PowerStep(10, 116, 232);
    PowerStep(11, 232, 205);
    PowerStep(12, 205, 135);
    PowerStep(13, 135, 19);
    PowerStep(14, 19, 38);
  }

  /** Three is a power of the generator, so powers of x + 1 reach the large exponents. */
  lemma Power25()
    ensures Power(25) == 3
  {
    hide Power;
    PowerFirst();
    PowerStep(15, 38, 76);
    PowerStep(16, 76, 152);
    PowerStep(17, 152, 45);
    PowerStep(18, 45, 90);
    PowerStep(19, 90, 180);
    PowerStep(20, 180, 117);
    PowerStep(21, 117, 234);
    PowerStep(22, 234, 201);
    PowerStep(23, 201, 143);
    PowerStep(24, 143, 3);
  }

  /** Products with 3, 5 and 17 take one exclusive or. */
  lemma SparseProducts(a: Byte)
    ensures Mul(a, 3) == Add(a, Times2(a))
    ensures Mul(a, 5) == Add(a, Times2(Times2(a)))
    ensures Mul(a, 17) == Add(a, Times2(Times2(Times2(Times2(a)))))
  {
    hide Xor;
    var a2 := Times2(Times2(a));
    MulUnit(Times2(a));
    MulUnit(a2);
    MulUnit(Times2(Times2(a2)));
    AddLaws(a2, 0, 0);
    AddLaws(Times2(Times2(a2)), 0, 0);
    AddLaws(Mul(Times2(Times2(a2)), 1), 0, 0);
    hide Add, Times2;
    assert Mul(a, 3) == Add(a, Mul(Times2(a), 1));
    assert Mul(Times2(a), 2) == Add(0, Mul(a2, 1));
    assert Mul(a, 5) == Add(a, Mul(Times2(a), 2));
    assert Mul(Times2(a2), 2) == Add(0, Mul(Times2(Times2(a2)), 1));
    assert Mul(a2, 4) == Add(0, Mul(Times2(a2), 2));
    assert Mul(Times2(a), 8) == Add(0, Mul(a2, 4));
    assert Mul(a, 17) == Add(a, Mul(Times2(a), 8));
    AddLaws(Mul(Times2(a2), 2), 0, 0);
    AddLaws(Mul(a2, 4), 0, 0);
  }

  lemma SmallSums()
    ensures Xor(3, 6) == 5 && Xor(5, 10) == 15
  {
    XorZero(1);
    assert Xor(1, 2) == 3;
    assert Xor(2, 5) == 7;
  }

  lemma Sum5And20()
    ensures Xor(5, 20) == 17
  {
    XorZero(2);
    assert Xor(1, 5) == 4;
    assert Xor(2, 10) == 8;
  }

  lemma Sum17And13()
    ensures Xor(17, 13) == 28
  {
    XorZero(1);
    assert Xor(2, 1) == 3;
    assert Xor(4, 3) == 7;
    assert Xor(8, 6) == 14;
  }

  lemma Sum28And112()
    ensures Xor(28, 112) == 108
  {
    XorZero(3);
    assert Xor(1, 7) == 6;
    assert Xor(3, 14) == 13;
    assert Xor(7, 28) == 27;
    assert Xor(14, 56) == 54;
  }

  lemma Power50And75()
    ensures Power(50) == 5 && Power(75) == 15
  {
    hide Power, Mul, Times2, Xor;
    Power25();
    PowerAdd(25, 25);
    PowerAdd(50, 25);
    SmallSums();
    SparseProducts(3);
    SparseProducts(5);
    Times2Value(3);
    Times2Value(5);
  }

  lemma Power200()
    ensures Power(200) == 28
  {
    hide Power, Mul, Times2, Xor;
    Power50And75();
    PowerAdd(50, 50);
    SparseProducts(5);
    Times2Value(5); Times2Value(10);
    Sum5And20();
    PowerAdd(100, 100);
    SparseProducts(17);
    Times2Value(17); Times2Value(34); Times2Value(68); Times2Value(136);
    Sum17And13();
  }

  lemma Power250()
    ensures Power(250) == 108
  {
    hide Power, Mul, Times2, Xor;
    Power50And75();
    Power200();
    PowerAdd(200, 50);
    SparseProducts(28);
    Times2Value(28); Times2Value(56);
    Sum28And112();
  }

  /** The generator's order divides 255 and none of 85, 51 and 15. */
  lemma PowerOrder()
    ensures Power(255) == 1 && Power(85) != 1 && Power(51) != 1 && Power(15) != 1
  {
    hide Power;
    PowerFirst();
    Power50And75();
    PowerStep(50, 5, 10);
    PowerStep(75, 15, 30);
    PowerStep(76, 30, 60);
    PowerStep(77, 60, 120);
    PowerStep(78, 120, 240);
    PowerStep(79, 240, 253);
    PowerStep(80, 253, 231);
    PowerStep(81, 231, 211);
    PowerStep(82, 211, 187);
    PowerStep(83, 187, 107);
    PowerStep(84, 107, 214);
    Power250();
    PowerStep(250, 108, 216);
    PowerStep(251, 216, 173);
    PowerStep(252, 173, 71);
    PowerStep(253, 71, 142);
    PowerStep(254, 142, 1);
  }

  /** A power that is 1 makes every multiple of it 1. */
  lemma {:induction false} PowerMultiple(d: nat, m: nat)
    requires Power(d) == 1
    ensures Power(d * m) == 1
  {
    hide Mul, Xor, Times2;
    if m == 0 {
      assert d * m == 0;
    } else {
      hide Power;
      PowerMultiple(d, m - 1);
      assert d * m == d * (m - 1) + d;
      PowerAdd(d * (m - 1), d);
      MulUnit(1);
    }
  }

  /** If d is invertible modulo the prime factor p of 255, a power of order d has order 255/p. */
  lemma CofactorProduct(d: nat, p: nat, q: nat, m: nat, c: nat)
    requires p * q == 255 && d * m == p * c + 1
    ensures d * (m * q) == 255 * c + q
  {
    assert d * (m * q) == (d * m) * q == (p * c + 1) * q == p * c * q + q;
    assert p * c * q == (p * q) * c;
  }

  lemma PowerCofactor(d: nat, p: nat, q: nat, m: nat, c: nat)
    requires Power(d) == 1 && Power(255) == 1 && p * q == 255 && d * m == p * c + 1
    ensures Power(q) == 1
  {
    hide *;
    PowerMultiple(d, m * q);
    PowerMultiple(255, c);
    CofactorProduct(d, p, q, m, c);
    PowerAdd(255 * c, q);
    MulUnit(Power(q));
  }

  /** A multiplier m with d * m == 1 modulo 17, and the quotient. */
  lemma Inverse17(d: nat) returns (m: nat, c: nat)
    requires d % 17 != 0
    ensures d * m == 17 * c + 1
  {
    var q := d / 17;
    m, c := 0, 0;
    match d % 17 {
      case 1 => m, c := 1, 1 * q + 0;
      case 2 => m, c := 9, 9 * q + 1;
      case 3 => m, c := 6, 6 * q + 1;
      case 4 => m, c := 13, 13 * q + 3;
      case 5 => m, c := 7, 7 * q + 2;
      case 6 => m, c := 3, 3 * q + 1;
      case 7 => m, c := 5, 5 * q + 2;
      case 8 => m, c := 15, 15 * q + 7;
      case 9 => m, c := 2, 2 * q + 1;
      case 10 => m, c := 12, 12 * q + 7;
      case 11 => m, c := 14, 14 * q + 9;
      case 12 => m, c := 10, 10 * q + 7;
      case 13 => m, c := 4, 4 * q + 3;
      case 14 => m, c := 11, 11 * q + 9;
      case 15 => m, c := 8, 8 * q + 7;
      case 16 => m, c := 16, 16 * q + 15;
    }
  }

  lemma Inverse3(d: nat) returns (m: nat, c: nat)
    requires d % 3 != 0
    ensures d * m == 3 * c + 1
  {
    var q := d / 3;
    m, c := 1, q;
    if d % 3 == 2 { m, c := 2, 2 * q + 1; }
  }

  lemma Inverse5(d: nat) returns (m: nat, c: nat)
    requires d % 5 != 0
    ensures d * m == 5 * c + 1
  {
    var q := d / 5;
    m, c := 0, 0;
    match d % 5 {
      case 1 => m, c := 1, q;
      case 2 => m, c := 3, 3 * q + 1;
      case 3 => m, c := 2, 2 * q + 1;
      case 4 => m, c := 4, 4 * q + 3;
    }
  }

  /** Below 255 a positive number misses one of the prime factors. */
  lemma MissesFactor(d: nat)
    requires 0 < d < 255 && d % 3 == 0 && d % 5 == 0
    ensures d % 17 != 0
  {
  }

  /** The generator has order exactly 255. */
  lemma PowerPrimitive(d: nat)
    requires 0 < d < 255
    ensures Power(d) != 1
  {
    hide *;
    PowerOrder();
    if Power(d) == 1 {
      if d % 3 != 0 {
        var m, c := Inverse3(d);
        PowerCofactor(d, 3, 85, m, c);
      } else if d % 5 != 0 {
        var m, c := Inverse5(d);
        PowerCofactor(d, 5, 51, m, c);
      } else {
        MissesFactor(d);
        var m, c := Inverse17(d);
        PowerCofactor(d, 17, 15, m, c);
      }
    }
  }

  lemma {:induction false} PowerNonZero(n: nat)
    ensures Power(n) != 0
  {
    if n != 0 {
      PowerNonZero(n - 1);
      Times2Value(Power(n - 1));
    }
  }

  /** Distinct exponents below 255 give distinct elements. */
  lemma PowerInjective(i: nat, j: nat)
    requires i < j < 255
    ensures Power(i) != Power(j)
  {
    hide Power;
    if Power(i) == Power(j) {
      PowerOrder();
      PowerAdd(i, 255 - i);
      PowerAdd(j, 255 - i);
      PowerAdd(255, j - i);
      MulUnit(Power(j - i));
      PowerPrimitive(j - i);
    }
  }

  ghost function PowersBelow(n: nat): set<Byte> {
    set i | 0 <= i < n :: Power(i)
  }

  lemma {:induction false} CountPowers(n: nat)
    requires n <= 255
    ensures |PowersBelow(n)| == n
  {
    if n != 0 {
      CountPowers(n - 1);
      forall i | 0 <= i < n - 1 ensures Power(i) != Power(n - 1) { PowerInjective(i, n - 1); }
      assert PowersBelow(n) == PowersBelow(n - 1) + {Power(n - 1)};
    }
  }

  ghost function Upto(n: nat): (r: set<int>)
    ensures forall x :: x in r <==> 1 <= x <= n
    ensures |r| == n
  {
    if n == 0 then {} else Upto(n - 1) + {n}
  }

  lemma FullSubset<T>(a: set<T>, b: set<T>)
    requires a <= b && |a| == |b|
    ensures a == b
  {
    if a != b {
      var x :| x in b && x !in a;
      assert |b - {x}| == |b| - 1;
      FullSubsetCard(a, b - {x});
    }
  }

  lemma {:induction false} FullSubsetCard<T>(a: set<T>, b: set<T>)
    requires a <= b
    ensures |a| <= |b|
  {
    if a != {} {
      var x :| x in a;
      FullSubsetCard(a - {x}, b - {x});
      assert |a - {x}| == |a| - 1 && |b - {x}| == |b| - 1;
    }
  }

  /** Every nonzero element is a power of the generator. */
  lemma PowerOnto(a: Byte)
    requires a != 0
    ensures exists i :: 0 <= i < 255 && Power(i) == a
  {
    CountPowers(255);
    forall x | x in PowersBelow(255) ensures x in Upto(255) {
      var i :| 0 <= i < 255 && Power(i) == x;
      PowerNonZero(i);
    }
    FullSubset(PowersBelow(255), Upto(255));
    assert a in PowersBelow(255);
  }

  /** The discrete logarithm to base 2. */
  ghost function Log(a: Byte): (i: nat)
    requires a != 0
    ensures i < 255 && Power(i) == a
  {
    PowerOnto(a);
    var i: nat :| i < 255 && Power(i) == a;
    i
  }

  ghost function Inverse(a: Byte): (r: Byte)
    requires a != 0
    ensures Mul(a, r) == 1 && r != 0
  {
    var i := Log(a);
    PowerAdd(i, 255 - i);
    PowerOrder();
    PowerNonZero(255 - i);
    Power(255 - i)
  }

  /** A field has no zero divisors, so factors cancel. */
  lemma MulCancel(a: Byte, b: Byte)
    requires a != 0
    ensures Mul(Inverse(a), Mul(a, b)) == b && Mul(a, Mul(Inverse(a), b)) == b
    ensures Mul(a, b) == 0 ==> b == 0
  {
    MulAssoc(Inverse(a), a, b);
    MulAssoc(a, Inverse(a), b);
    MulComm(a, Inverse(a));
    MulUnit(b);
    MulUnit(Inverse(a));
  }
}
