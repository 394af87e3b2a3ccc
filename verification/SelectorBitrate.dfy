/** What the selector's bitrates leave for the rest of the air. */
module SelectorBitrate {
  import opened Bytes
  import opened SelectorSpec

  // ---- the air rate, from the modulation -------------------------------------------------------------

  /** Bits a carrier takes per symbol: BPSK, QPSK, 16-QAM, 64-QAM. */
  function BitsPerCarrier(mcs: nat): nat {
    if mcs == 0 then 1 else if mcs <= 2 then 2 else if mcs <= 4 then 4 else 6
  }

  /** Code rate in twelfths: 1/2, 3/4, 2/3, 5/6. */
  function CodeTwelfths(mcs: nat): nat {
    if mcs == 0 || mcs == 1 || mcs == 3 then 6 else if mcs == 2 || mcs == 4 || mcs == 6 then 9 else if mcs == 5 then 8 else 10
  }

  /** Data bits of a symbol of 52 carriers. */
  function SymbolBits(mcs: nat): nat {
    52 * BitsPerCarrier(mcs) * CodeTwelfths(mcs) / 12
  }

  /** Length of a symbol in tenths of a microsecond, guard interval included. */
  function SymbolTenths(shortGuard: bool): nat {
    if shortGuard then 36 else 40
  }

  /** The rate table is a symbol's bits over its length. */
  lemma AirRate(mcs: nat, shortGuard: bool)
    requires mcs < 8
    ensures var air := Air(mcs, shortGuard);
            air * SymbolTenths(shortGuard) <= SymbolBits(mcs) * 10000 < (air + 1) * SymbolTenths(shortGuard)
  {
  }

  // ---- what is left of it ------------------------------------------------------------------------------

  /** The air rate times airtime times what FEC leaves, in units of a kbps over a million symbol tenths. */
  function Budget(p: Profile): nat {
    SymbolBits(p.mcs) * 10000 * p.airtime * (1000 - p.fecOverhead)
  }

  function ReserveKbps(p: Profile): nat {
    (p.reserveControlBps + p.reserveTelemetryBps) / 1000
  }

  lemma Scale(a: int, b: int, c: nat)
    requires a <= b
    ensures a * c <= b * c
  {
  }

  /** Rounding down three times over loses less than three. */
  lemma ThreeFloors(top: nat, t: nat, a: nat, c: nat, air: nat, s1: nat, s2: nat)
    requires a <= 1000 && c <= 1000 && air * t <= top < (air + 1) * t
    requires s1 == air * a / 1000 && s2 == s1 * c / 1000
    ensures s2 * t * 1000000 <= top * a * c < (s2 + 3) * t * 1000000
  {
    assert s1 * 1000 <= air * a < (s1 + 1) * 1000 && s2 * 1000 <= s1 * c < (s2 + 1) * 1000;
    FloorsBelow(top, t, a, c, air, s1, s2);
    FloorsAbove(top, t, a, c, air, s1, s2);
  }

  lemma FloorsBelow(top: nat, t: nat, a: nat, c: nat, air: nat, s1: nat, s2: nat)
    requires air * t <= top && s1 * 1000 <= air * a && s2 * 1000 <= s1 * c
    ensures s2 * t * 1000000 <= top * a * c
  {
    Scale(s1 * 1000, air * a, c);
    assert s2 * 1000000 <= air * a * c;
    Scale(s2 * 1000000, air * a * c, t);
    Scale(air * t, top, a * c);
    assert air * a * c * t == air * t * (a * c);
    assert top * (a * c) == top * a * c;
    assert s2 * 1000000 * t == s2 * t * 1000000;
  }

  lemma FloorsAbove(top: nat, t: nat, a: nat, c: nat, air: nat, s1: nat, s2: nat)
    requires a <= 1000 && c <= 1000 && top < (air + 1) * t && air * a < (s1 + 1) * 1000 && s1 * c < (s2 + 1) * 1000
    ensures top * a * c < (s2 + 3) * t * 1000000
  {
    SharesAbove(a, c, air, s1, s2);
    Products(a, c);
    Regroup(top, a, c);
    Scale(top, (air + 1) * t, a * c);
    Spread(air, t, a, c);
    Strictly(air * a * c + a * c, (s2 + 3) * 1000000, t);
    Regroup(s2 + 3, 1000000, t);
  }

  lemma SharesAbove(a: nat, c: nat, air: nat, s1: nat, s2: nat)
    requires c <= 1000 && air * a < (s1 + 1) * 1000 && s1 * c < (s2 + 1) * 1000
    ensures air * a * c < (s2 + 2) * 1000000
  {
    Scale(air * a, (s1 + 1) * 1000, c);
    assert (s1 + 1) * 1000 * c == (s1 * c + c) * 1000;
  }

  lemma Regroup(x: nat, y: nat, z: nat)
    ensures x * y * z == x * (y * z) == x * z * y
  {
  }

  lemma Spread(air: nat, t: nat, a: nat, c: nat)
    ensures (air + 1) * t * (a * c) == (air * a * c + a * c) * t
  {
    var m := a * c;
    assert air * a * c == air * m;
    assert (air + 1) * t * m == (air + 1) * m * t;
    assert (air + 1) * m == air * m + m;
  }

  lemma Products(a: nat, c: nat)
    requires a <= 1000 && c <= 1000
    ensures a * c <= 1000000
  {
    Scale(a, 1000, c);
  }

  lemma Strictly(a: int, b: int, t: nat)
    requires a < b && t > 0
    ensures a * t < b * t
  {
  }

  /**
   * The derived rate and the reserves never exceed the air rate times airtime less the FEC share, unless the profile's minimum
   * applies; and they fall short of it by less than three kbps of rounding.
   */
  lemma WithinBudget(p: Profile)
    requires p.mcs < 8
    ensures var rate, tenths := Derived(p), SymbolTenths(p.shortGuard);
            && (rate > p.bitrateMinKbps ==> (rate + ReserveKbps(p)) * tenths * 1000000 <= Budget(p))
            && Budget(p) < (rate + ReserveKbps(p) + 3) * tenths * 1000000
  {
    hide *;
    var s2 := DerivedIs(p);
    Scale(s2 + 3, Derived(p) + ReserveKbps(p) + 3, SymbolTenths(p.shortGuard));
  }

  function Air(mcs: nat, shortGuard: bool): nat
    requires mcs < 8
  {
    if shortGuard then HT20_KBPS[mcs] * 10 / 9 else HT20_KBPS[mcs]
  }

  /** The air rate's share before the reserves. */
  function Share(p: Profile): nat
    requires p.mcs < 8
  {
    Air(p.mcs, p.shortGuard) * p.airtime / 1000 * (1000 - p.fecOverhead) / 1000
  }

  lemma DerivedFrom(p: Profile)
    requires p.mcs < 8
    ensures Derived(p) == if Share(p) > ReserveKbps(p) + p.bitrateMinKbps then Share(p) - ReserveKbps(p) else p.bitrateMinKbps
  {
  }

  lemma DerivedIs(p: Profile) returns (s2: nat)
    requires p.mcs < 8
    ensures s2 * SymbolTenths(p.shortGuard) * 1000000 <= Budget(p) < (s2 + 3) * SymbolTenths(p.shortGuard) * 1000000
    ensures s2 <= Derived(p) + ReserveKbps(p) && (Derived(p) > p.bitrateMinKbps ==> Derived(p) + ReserveKbps(p) == s2)
  {
    hide *;
    DerivedFrom(p);
    s2 := Share(p);
    ShareOfBudget(p);
  }

  lemma ShareOfBudget(p: Profile)
    requires p.mcs < 8
    ensures Share(p) * SymbolTenths(p.shortGuard) * 1000000 <= Budget(p) < (Share(p) + 3) * SymbolTenths(p.shortGuard) * 1000000
  {
    AirRate(p.mcs, p.shortGuard);
    hide SymbolBits, HT20_KBPS, SymbolTenths, Air;
    ThreeFloors(SymbolBits(p.mcs) * 10000, SymbolTenths(p.shortGuard), p.airtime, 1000 - p.fecOverhead, Air(p.mcs, p.shortGuard),
                Air(p.mcs, p.shortGuard) * p.airtime / 1000, Share(p));
  }

  /** Beyond the single-stream schemes, and with nothing left, the minimum is commanded. */
  lemma MinimumApplies(p: Profile)
    requires p.mcs >= 8 || Budget(p) <= (p.bitrateMinKbps + ReserveKbps(p)) * SymbolTenths(p.shortGuard) * 1000000
    ensures Derived(p) == p.bitrateMinKbps
  {
    if p.mcs < 8 && Derived(p) > p.bitrateMinKbps {
      WithinBudget(p);
      hide Derived, Budget;
      Strictly(p.bitrateMinKbps + ReserveKbps(p), Derived(p) + ReserveKbps(p), SymbolTenths(p.shortGuard));
    }
  }

  // ---- how it moves -------------------------------------------------------------------------------------

  lemma DivMono(a: nat, b: nat, d: nat)
    requires a <= b && d > 0
    ensures a / d <= b / d
  {
    if a / d > b / d {
      assert (a / d) * d <= a && b < (b / d + 1) * d;
      Scale(b / d + 1, a / d, d);
    }
  }

  lemma ShareMono(a: nat, b: nat, x: nat, y: nat)
    requires a <= b && x <= y
    ensures a * x / 1000 <= b * y / 1000
  {
    Scale(a, b, x);
    Scale(x, y, b);
    assert b * x <= b * y;
    DivMono(a * x, b * y, 1000);
  }

  lemma AirMono(i: nat, j: nat, shortI: bool, shortJ: bool)
    requires i <= j < 8 && (shortI ==> shortJ)
    ensures Air(i, shortI) <= Air(j, shortJ)
  {
  }

  /** More airtime, a faster scheme, the short guard; less for FEC and for the reserves: the rate does not fall. */
  lemma MoreIsMore(p: Profile, q: Profile)
    requires p.mcs <= q.mcs < 8 && p.airtime <= q.airtime && (p.shortGuard ==> q.shortGuard)
    requires p.fecOverhead >= q.fecOverhead && p.bitrateMinKbps <= q.bitrateMinKbps
    requires p.reserveControlBps + p.reserveTelemetryBps >= q.reserveControlBps + q.reserveTelemetryBps
    ensures Derived(p) <= Derived(q)
  {
    hide *;
    DerivedFrom(p);
    DerivedFrom(q);
    ShareRises(p, q);
    ReserveFalls(p, q);
  }

  lemma ShareRises(p: Profile, q: Profile)
    requires p.mcs <= q.mcs < 8 && p.airtime <= q.airtime && (p.shortGuard ==> q.shortGuard) && p.fecOverhead >= q.fecOverhead
    ensures Share(p) <= Share(q)
  {
    AirMono(p.mcs, q.mcs, p.shortGuard, q.shortGuard);
    hide Air;
    ShareMono(Air(p.mcs, p.shortGuard), Air(q.mcs, q.shortGuard), p.airtime, q.airtime);
    ShareMono(Air(p.mcs, p.shortGuard) * p.airtime / 1000, Air(q.mcs, q.shortGuard) * q.airtime / 1000,
              1000 - p.fecOverhead, 1000 - q.fecOverhead);
  }

  lemma ReserveFalls(p: Profile, q: Profile)
    requires p.reserveControlBps + p.reserveTelemetryBps >= q.reserveControlBps + q.reserveTelemetryBps
    ensures ReserveKbps(p) >= ReserveKbps(q)
  {
    DivMono(q.reserveControlBps + q.reserveTelemetryBps, p.reserveControlBps + p.reserveTelemetryBps, 1000);
  }

  // ---- a few rungs ---------------------------------------------------------------------------------------

  function Rung(mcs: Byte, shortGuard: bool, airtime: Permille, fec: Permille, control: U32, telemetry: U32, least: U32): Profile {
    Profile(0, mcs, shortGuard, 0, airtime, fec, control, telemetry, least)
  }

  lemma LongGuardRungs()
    ensures Derived(Rung(0, false, 600, 0, 64000, 32000, 2200)) == 3804 && Derived(Rung(5, false, 600, 0, 64000, 32000, 2200)) == 31104
    ensures Derived(Rung(0, false, 10, 0, 64000, 32000, 2200)) == 2200
    ensures Derived(Rung(5, false, 1000, 200, 0, 0, 1000)) == 41600
  {
  }

  lemma ShortGuardRungs()
    ensures Derived(Rung(5, true, 1000, 200, 0, 0, 1000)) == 46221
    ensures Derived(Rung(3, true, 800, 250, 64000, 8000, 1000)) == 17260
    ensures Derived(Rung(9, false, 1000, 0, 0, 0, 1000)) == 1000
  {
  }

  lemma SomeRungs()
    ensures Derived(Rung(0, false, 600, 0, 64000, 32000, 2200)) == 3804 && Derived(Rung(5, false, 600, 0, 64000, 32000, 2200)) == 31104
    ensures Derived(Rung(0, false, 10, 0, 64000, 32000, 2200)) == 2200
    ensures Derived(Rung(5, false, 1000, 200, 0, 0, 1000)) == 41600
    ensures Derived(Rung(5, true, 1000, 200, 0, 0, 1000)) == 46221
    ensures Derived(Rung(3, true, 800, 250, 64000, 8000, 1000)) == 17260
    ensures Derived(Rung(9, false, 1000, 0, 0, 0, 1000)) == 1000
  {
    hide *;
    LongGuardRungs();
    ShortGuardRungs();
  }
}
