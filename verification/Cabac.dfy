/** The put-bit arithmetic encoder of the concealment writer (section 9.3.4 of ITU-T H.265). */
module Cabac {
  import opened Bits

  type State = s: int | 0 <= s < 64

  /** Never empty, never the whole range. */
  type LpsSize = x: int | 2 <= x <= 240 witness 2

  datatype LpsRow = LpsRow(q0: LpsSize, q1: LpsSize, q2: LpsSize, q3: LpsSize)

  /** Range of the less probable symbol, by state and range quarter (table 9-46). */
  const LPS_TABLE: seq<LpsRow> :=
    [LpsRow(128, 176, 208, 240), LpsRow(128, 167, 197, 227), LpsRow(128, 158, 187, 216), LpsRow(123, 150, 178, 205),
     LpsRow(116, 142, 169, 195), LpsRow(111, 135, 160, 185), LpsRow(105, 128, 152, 175), LpsRow(100, 122, 144, 166)]
    + [LpsRow(95, 116, 137, 158), LpsRow(90, 110, 130, 150), LpsRow(85, 104, 123, 142), LpsRow(81, 99, 117, 135),
       LpsRow(77, 94, 111, 128), LpsRow(73, 89, 105, 122), LpsRow(69, 85, 100, 116), LpsRow(66, 80, 95, 110)]
    + [LpsRow(62, 76, 90, 104), LpsRow(59, 72, 86, 99), LpsRow(56, 69, 81, 94), LpsRow(53, 65, 77, 89),
       LpsRow(51, 62, 73, 85), LpsRow(48, 59, 69, 80), LpsRow(46, 56, 66, 76), LpsRow(43, 53, 63, 72)]
    + [LpsRow(41, 50, 59, 69), LpsRow(39, 48, 56, 65), LpsRow(37, 45, 54, 62), LpsRow(35, 43, 51, 59),
       LpsRow(33, 41, 48, 56), LpsRow(32, 39, 46, 53), LpsRow(30, 37, 43, 50), LpsRow(29, 35, 41, 48)]
    + [LpsRow(27, 33, 39, 45), LpsRow(26, 31, 37, 43), LpsRow(24, 30, 35, 41), LpsRow(23, 28, 33, 39),
       LpsRow(22, 27, 32, 37), LpsRow(21, 26, 30, 35), LpsRow(20, 24, 29, 33), LpsRow(19, 23, 27, 31)]
    + [LpsRow(18, 22, 26, 30), LpsRow(17, 21, 25, 28), LpsRow(16, 20, 23, 27), LpsRow(15, 19, 22, 25),
       LpsRow(14, 18, 21, 24), LpsRow(14, 17, 20, 23), LpsRow(13, 16, 19, 22), LpsRow(12, 15, 18, 21)]
    + [LpsRow(12, 14, 17, 20), LpsRow(11, 14, 16, 19), LpsRow(11, 13, 15, 18), LpsRow(10, 12, 15, 17),
       LpsRow(10, 12, 14, 16), LpsRow(9, 11, 13, 15), LpsRow(9, 11, 12, 14), LpsRow(8, 10, 12, 14)]
    + [LpsRow(8, 9, 11, 13), LpsRow(7, 9, 11, 12), LpsRow(7, 9, 10, 12), LpsRow(7, 8, 10, 11),
       LpsRow(6, 8, 9, 11), LpsRow(6, 7, 9, 10), LpsRow(6, 7, 8, 9), LpsRow(2, 2, 2, 2)]

  /** State after a more probable symbol (table 9-47). */
  const NEXT_STATE_MPS: seq<State> :=
    [1, 2, 3, 4, 5, 6, 7, 8] + [9, 10, 11, 12, 13, 14, 15, 16]
    + [17, 18, 19, 20, 21, 22, 23, 24] + [25, 26, 27, 28, 29, 30, 31, 32]
    + [33, 34, 35, 36, 37, 38, 39, 40] + [41, 42, 43, 44, 45, 46, 47, 48]
    + [49, 50, 51, 52, 53, 54, 55, 56] + [57, 58, 59, 60, 61, 62, 62, 63]

  /** State after a less probable symbol (table 9-47). */
  const NEXT_STATE_LPS: seq<State> :=
    [0, 0, 1, 2, 2, 4, 4, 5] + [6, 7, 8, 9, 9, 11, 11, 12]
    + [13, 13, 15, 15, 16, 16, 18, 18] + [19, 19, 21, 21, 22, 22, 23, 24]
    + [24, 25, 26, 26, 27, 27, 28, 29] + [29, 30, 30, 30, 31, 32, 32, 33]
    + [33, 33, 34, 34, 35, 35, 35, 36] + [36, 36, 37, 37, 37, 38, 38, 63]

  /** The range given to the less probable symbol. */
  function LpsRange(s: State, range: nat): LpsSize {
    var row := LPS_TABLE[s];
    match (range / 64) % 4
    case 0 => row.q0
    case 1 => row.q1
    case 2 => row.q2
    case _ => row.q3
  }

  datatype Ctx = Ctx(state: State, mps: Bit)

  /** Context adaptation after coding bin. */
  function NextCtx(c: Ctx, bin: Bit): Ctx {
    if bin == c.mps then c.(state := NEXT_STATE_MPS[c.state])
    else Ctx(NEXT_STATE_LPS[c.state], if c.state == 0 then 1 - c.mps else c.mps)
  }

  // ---- the encoder's specification -------------------------------------------------

  /** Registers of the encoder and the bits of the current substream. */
  datatype Enc = Enc(low: nat, range: nat, outstanding: nat, first: bool, out: seq<Bit>)

  const ENC_START := Enc(0, 510, 0, true, [])

  function Repeated(b: Bit, n: nat): (r: seq<Bit>)
    ensures |r| == n
  {
    if n == 0 then [] else Repeated(b, n - 1) + [b]
  }

  /** Emit b, or swallow it when it is the first, then the outstanding bits as its complement. */
  function WithBit(e: Enc, b: Bit): Enc {
    e.(first := false, outstanding := 0, out := e.out + (if e.first then [] else [b]) + Repeated(1 - b, e.outstanding))
  }

  /** One doubling of the renormalisation. */
  function Shifted(e: Enc): Enc {
    var f := if e.low < 256 then WithBit(e, 0)
             else if e.low >= 512 then WithBit(e.(low := e.low - 512), 1)
             else e.(low := e.low - 256, outstanding := e.outstanding + 1);
    f.(range := 2 * f.range, low := 2 * f.low)
  }

  function Renormed(e: Enc): Enc
    requires e.range > 0
    decreases 256 - e.range
  {
    if e.range < 256 then Renormed(Shifted(e)) else e
  }

  /** The subinterval of a bin, before renormalisation. */
  function Narrowed(e: Enc, c: Ctx, bin: Bit): Enc
    requires e.range > LpsRange(c.state, e.range)
  {
    var lps := LpsRange(c.state, e.range);
    if bin == c.mps then e.(range := e.range - lps)
    else e.(low := e.low + e.range - lps, range := lps)
  }

  function AfterBin(e: Enc, c: Ctx, bin: Bit): Enc
    requires e.range >= 256
  {
    Renormed(Narrowed(e, c, bin))
  }

  /** A terminating bin of value 0. */
  function AfterContinue(e: Enc): Enc
    requires e.range >= 256
  {
    Renormed(e.(range := e.range - 2))
  }

  /** A terminating bin of value 1, up to the renormalisation. */
  function FlushStart(e: Enc): Enc
    requires e.range >= 256
  {
    Renormed(e.(low := e.low + e.range - 2, range := 2))
  }

  /** The flush: the last put bit and two more, the second forced to 1. */
  function AfterFlush(e: Enc): Enc
    requires e.range >= 256
  {
    var f := FlushStart(e);
    var g := WithBit(f, (f.low / 512) % 2);
    g.(out := g.out + [(f.low / 256) % 2, 1])
  }

  // ---- numbers written in binary ---------------------------------------------------

  lemma {:induction false} ValueRun(s: seq<Bit>, b: Bit, n: nat)
    ensures Value(s + Repeated(b, n)) == Value(s) * Pow2(n) + (if b == 1 then Pow2(n) - 1 else 0)
  {
    hide Value;
    if n == 0 {
      assert s + Repeated(b, 0) == s;
    } else {
      ValueRun(s, b, n - 1);
      assert s + Repeated(b, n) == (s + Repeated(b, n - 1)) + [b];
      ValueAppend(s + Repeated(b, n - 1), b);
      Doubling(Value(s), Pow2(n - 1));
    }
  }

  // ---- the encoder's interval at full precision ------------------------------------

  /** Bits settled or outstanding so far: the number of doublings done. */
  function Shifts(e: Enc): nat {
    e.outstanding + if e.first then 0 else |e.out| + 1
  }

  /** What the emitted and the outstanding bits spell, the outstanding ones taken as 0 1 1 ... 1. */
  function Settled(e: Enc): nat {
    PowPositive(e.outstanding);
    2 * (Value(e.out) * Pow2(e.outstanding)) + Pow2(e.outstanding) - 1
  }

  /** The lower end of the coding interval without truncation. */
  function Low(e: Enc): nat {
    Settled(e) * 512 + e.low
  }

  /** Register bounds while renormalising, and the interval's place within the initial range. */
  ghost predicate Bounded(e: Enc) {
    && 0 < e.range && e.low + e.range <= 1024
    && Low(e) + e.range <= 510 * Pow2(Shifts(e))
    && (e.first ==> e.out == [])
  }

  /** Putting a bit resolves the outstanding ones: the spelled number grows by exactly b. */
  lemma WithBitValue(e: Enc, b: Bit)
    requires e.first ==> e.out == [] && b == 0
    ensures Value(WithBit(e, b).out) == Settled(e) + b
    ensures |WithBit(e, b).out| == Shifts(e)
    ensures Settled(WithBit(e, b)) == 2 * (Settled(e) + b)
  {
    hide Value;
    var o := e.outstanding;
    var s := if e.first then e.out else e.out + [b];
    assert WithBit(e, b).out == s + Repeated(1 - b, o);
    ValueRun(s, 1 - b, o);
    PowPositive(o);
    if e.first {
      ValueEmpty();
    } else {
      ValueAppend(e.out, b);
      Doubling(Value(e.out), Pow2(o));
      assert (2 * Value(e.out) + b) * Pow2(o) == 2 * (Value(e.out) * Pow2(o)) + b * Pow2(o);
    }
  }

  /** The swallowed first bit is always 0. */
  lemma FirstBitIsZero(e: Enc)
    requires Bounded(e) && e.first
    ensures e.low < 512
  {
    PowPositive(e.outstanding);
  }

  /** What is settled does not depend on the registers. */
  lemma SettledFrame(e: Enc, f: Enc)
    requires e.out == f.out && e.outstanding == f.outstanding
    ensures Settled(e) == Settled(f)
  {
  }

  lemma SettledOutstanding(e: Enc, f: Enc)
    requires e.out == f.out && f.outstanding == e.outstanding + 1
    ensures Settled(f) == 2 * Settled(e) + 1
  {
    hide Value;
    Doubling(Value(e.out), Pow2(e.outstanding));
    PowPositive(e.outstanding);
  }

  /** One doubling doubles the interval. */
  lemma ShiftDoubles(e: Enc)
    requires Bounded(e) && e.range < 256
    ensures var f := Shifted(e); Low(f) == 2 * Low(e) && f.range == 2 * e.range && Shifts(f) == Shifts(e) + 1
    ensures Bounded(Shifted(e))
  {
    hide Value, Settled, Repeated;
    var f := Shifted(e);
    if e.first { FirstBitIsZero(e); }
    if e.low < 256 {
      WithBitValue(e, 0);
      SettledFrame(WithBit(e, 0), f);
    } else if e.low >= 512 {
      var d := e.(low := e.low - 512);
      WithBitValue(d, 1);
      SettledFrame(e, d);
      SettledFrame(WithBit(d, 1), f);
    } else {
      SettledOutstanding(e, f);
    }
  }

  /** After renormalisation the range is back in [256, 510] and the registers fit ten bits. */
  ghost predicate Ready(e: Enc) {
    Bounded(e) && 256 <= e.range <= 510
  }

  lemma {:induction false} RenormReady(e: Enc)
    requires Bounded(e) && e.range <= 510
    ensures Ready(Renormed(e))
    decreases 256 - e.range
  {
    assert e.range > 0;
    hide Bounded, Shifted;
    if e.range < 256 {
      ShiftDoubles(e);
      RenormReady(Shifted(e));
    }
  }

  lemma NarrowBounded(e: Enc, c: Ctx, bin: Bit)
    requires Ready(e)
    ensures Bounded(Narrowed(e, c, bin)) && Narrowed(e, c, bin).range <= 510
    ensures Ready(AfterBin(e, c, bin))
    ensures Ready(AfterContinue(e))
  {
    hide Settled, LpsRange;
    SettledFrame(e, Narrowed(e, c, bin));
    RenormReady(Narrowed(e, c, bin));
    var d := e.(range := e.range - 2);
    SettledFrame(e, d);
    RenormReady(d);
  }

  // ---- the decoder of section 9.3.4.3 ------------------------------------------------

  /** The arithmetic decoding engine: its two registers and the read position. */
  datatype Dec = Dec(range: nat, offset: nat, pos: nat)

  function BitAt(v: seq<Bit>, i: nat): Bit {
    if i < |v| then v[i] else 0
  }

  /** Initialisation reads nine bits. */
  function DecStart(v: seq<Bit>): Dec {
    Dec(510, 256 * BitAt(v, 0) + 128 * BitAt(v, 1) + 64 * BitAt(v, 2) + 32 * BitAt(v, 3) + 16 * BitAt(v, 4)
           + 8 * BitAt(v, 5) + 4 * BitAt(v, 6) + 2 * BitAt(v, 7) + BitAt(v, 8), 9)
  }

  function RenormD(d: Dec, v: seq<Bit>): Dec
    requires d.range > 0
    decreases 256 - d.range
  {
    if d.range < 256 then RenormD(Dec(2 * d.range, 2 * d.offset + BitAt(v, d.pos), d.pos + 1), v) else d
  }

  /** DecodeDecision: the bin and the engine after it. */
  function DecodeBin(d: Dec, c: Ctx, v: seq<Bit>): (Bit, Dec)
    requires d.range >= 256
  {
    var lps := LpsRange(c.state, d.range);
    var range := d.range - lps;
    if d.offset >= range then (1 - c.mps, RenormD(Dec(lps, d.offset - range, d.pos), v))
    else (c.mps, RenormD(Dec(range, d.offset, d.pos), v))
  }

  /** DecodeTerminate: no renormalisation after a 1. */
  function DecodeTerminate(d: Dec, v: seq<Bit>): (Bit, Dec)
    requires d.range >= 256
  {
    var range := d.range - 2;
    if d.offset >= range then (1, Dec(range, d.offset, d.pos)) else (0, RenormD(Dec(range, d.offset, d.pos), v))
  }

  // ---- the decoder follows the encoder -------------------------------------------------

  /** The number the decoder has read: nine bits and one per doubling. */
  function Window(v: seq<Bit>, n: nat): nat
    requires n + 9 <= |v|
  {
    Value(v[..n + 9])
  }

  /** The final bits of the substream fall in the coding interval. */
  ghost predicate Lands(e: Enc, v: seq<Bit>) {
    Shifts(e) + 9 <= |v| && Low(e) <= Window(v, Shifts(e)) < Low(e) + e.range
  }

  /** A decoder that mirrors the encoder's registers. */
  function Mirror(e: Enc, v: seq<Bit>): Dec
    requires Lands(e, v)
  {
    Dec(e.range, Window(v, Shifts(e)) - Low(e), Shifts(e) + 9)
  }

  /** Landing after a doubling means landing before it, and the decoder's doubling mirrors the encoder's. */
  lemma ShiftLands(e: Enc, v: seq<Bit>)
    requires Bounded(e) && e.range < 256 && Lands(Shifted(e), v)
    ensures Lands(e, v)
    ensures var d := Mirror(e, v); Mirror(Shifted(e), v) == Dec(2 * d.range, 2 * d.offset + BitAt(v, d.pos), d.pos + 1)
  {
    hide Value, Low, Shifts, Shifted, Bounded;
    ShiftDoubles(e);
    var n := Shifts(e);
    assert v[..n + 10] == v[..n + 9] + [v[n + 9]];
    ValueAppend(v[..n + 9], v[n + 9]);
  }

  lemma {:induction false} RenormLands(e: Enc, v: seq<Bit>)
    requires Bounded(e) && e.range <= 510 && Lands(Renormed(e), v)
    ensures Lands(e, v) && Mirror(Renormed(e), v) == RenormD(Mirror(e, v), v)
    decreases 256 - e.range
  {
    assert e.range > 0;
    hide Bounded, Lands, Shifted;
    if e.range < 256 {
      ShiftDoubles(e);
      RenormLands(Shifted(e), v);
      ShiftLands(e, v);
    }
  }

  /** Every doubling leaves one more zero at the end of low: the weights removed are 256 and 512. */
  lemma ShiftDivides(e: Enc, m: nat, h: nat, q: nat) returns (q': nat)
    requires e.low == m * q && m * h == 256 && m > 0
    ensures Shifted(e).low == (2 * m) * q'
  {
    hide Repeated;
    var c := if e.low < 256 then 0 else if e.low >= 512 then 2 else 1;
    assert m * (c * h) == c * (m * h);
    assert m * (q - c * h) == m * q - m * (c * h) >= 0;
    q' := q - c * h;
    assert (2 * m) * q' == 2 * (m * q');
  }

  /** The flush doubles the range from 2 to 256: seven times, leaving seven zero bits in low. */
  lemma FlushDoubles(e: Enc)
    requires Bounded(e) && e.range == 2
    ensures var f := Renormed(e);
            Bounded(f) && f.range == 256 && Low(f) == 128 * Low(e) && Shifts(f) == Shifts(e) + 7 && f.low % 128 == 0
  {
    hide Bounded, Shifted, Low, Shifts;
    var e1 := Shifted(e);
    ShiftDoubles(e);  var q1 := ShiftDivides(e, 1, 256, e.low);
    var e2 := Shifted(e1);
    ShiftDoubles(e1); var q2 := ShiftDivides(e1, 2, 128, q1);
    var e3 := Shifted(e2);
    ShiftDoubles(e2); var q3 := ShiftDivides(e2, 4, 64, q2);
    var e4 := Shifted(e3);
    ShiftDoubles(e3); var q4 := ShiftDivides(e3, 8, 32, q3);
    var e5 := Shifted(e4);
    ShiftDoubles(e4); var q5 := ShiftDivides(e4, 16, 16, q4);
    var e6 := Shifted(e5);
    ShiftDoubles(e5); var q6 := ShiftDivides(e5, 32, 8, q5);
    var e7 := Shifted(e6);
    ShiftDoubles(e6); var q7 := ShiftDivides(e6, 64, 4, q6);
    assert Renormed(e) == Renormed(e1) == Renormed(e2) == Renormed(e3);
    assert Renormed(e3) == Renormed(e4) == Renormed(e5) == Renormed(e6) == e7;
  }

  /** The interval of a terminating 1. */
  function FlushInterval(e: Enc): Enc
    requires e.range >= 256
  {
    e.(low := e.low + e.range - 2, range := 2)
  }

  /** The flush ends the string inside the interval of the terminating bin, with a 1 as its last bit. */
  lemma FlushLands(e: Enc)
    requires Ready(e)
    ensures Bounded(FlushInterval(e))
    ensures var v := AfterFlush(e).out;
            Lands(FlushInterval(e), v) && |v| == Shifts(e) + 9 && v[|v| - 1] == 1
  {
    hide Settled, Value, Repeated, Renormed;
    var mid := FlushInterval(e);
    SettledFrame(e, mid);
    FlushDoubles(mid);
    var f := Renormed(mid);
    var b := f.low / 512;
    if f.first { FirstBitIsZero(f); }
    WithBitValue(f, b);
    var w := WithBit(f, b).out;
    var b8 := (f.low / 256) % 2;
    var v := AfterFlush(e).out;
    assert v == w + [b8, 1];
    assert v == (w + [b8]) + [1];
    ValueAppend(w, b8);
    ValueAppend(w + [b8], 1);
    assert v[..Shifts(mid) + 9] == v;
  }

  // ---- whole substreams ------------------------------------------------------------------

  /** One coded bin: with a context, or a terminating bin of value 0. */
  datatype Op = Code(ctx: nat, bin: Bit) | Continue

  ghost predicate Usable(ops: seq<Op>, ctxs: seq<Ctx>) {
    forall i :: 0 <= i < |ops| && ops[i].Code? ==> ops[i].ctx < |ctxs|
  }

  /** The encoder after the bins ops and the terminating 1. */
  function EncodeAll(e: Enc, ctxs: seq<Ctx>, ops: seq<Op>): Enc
    requires Ready(e) && Usable(ops, ctxs)
    decreases |ops|
  {
    if ops == [] then AfterFlush(e)
    else
      match ops[0]
      case Code(i, bin) =>
        NarrowBounded(e, ctxs[i], bin);
        EncodeAll(AfterBin(e, ctxs[i], bin), ctxs[i := NextCtx(ctxs[i], bin)], ops[1..])
      case Continue =>
        NarrowBounded(e, Ctx(0, 0), 0);
        EncodeAll(AfterContinue(e), ctxs, ops[1..])
  }

  datatype Decoded = Decoded(bins: seq<Bit>, last: Dec)

  /** The decoder along the same contexts: the bins it reads, the terminating ones included. */
  ghost function DecodeAll(d: Dec, ctxs: seq<Ctx>, ops: seq<Op>, v: seq<Bit>): Decoded
    requires Usable(ops, ctxs)
    decreases |ops|
  {
    if d.range < 256 then Decoded([], d)
    else if ops == [] then
      var (bin, d') := DecodeTerminate(d, v);
      Decoded([bin], d')
    else
      match ops[0]
      case Code(i, _) =>
        var (bin, d') := DecodeBin(d, ctxs[i], v);
        var rest := DecodeAll(d', ctxs[i := NextCtx(ctxs[i], bin)], ops[1..], v);
        Decoded([bin] + rest.bins, rest.last)
      case Continue =>
        var (bin, d') := DecodeTerminate(d, v);
        var rest := DecodeAll(d', ctxs, ops[1..], v);
        Decoded([bin] + rest.bins, rest.last)
  }

  /** The bins of a substream, with the terminating 1. */
  ghost function Bins(ops: seq<Op>): seq<Bit> {
    if ops == [] then [1] else [if ops[0].Code? then ops[0].bin else 0] + Bins(ops[1..])
  }

  /** A context bin: if the encoder after it lands, so did the encoder before, and the decoder reads the bin. */
  lemma BinLands(e: Enc, c: Ctx, bin: Bit, v: seq<Bit>)
    requires Ready(e) && Lands(AfterBin(e, c, bin), v)
    ensures Lands(e, v) && DecodeBin(Mirror(e, v), c, v) == (bin, Mirror(AfterBin(e, c, bin), v))
  {
    hide Settled, Renormed, RenormD, Value, LpsRange;
    var m := Narrowed(e, c, bin);
    NarrowBounded(e, c, bin);
    SettledFrame(e, m);
    RenormLands(m, v);
  }

  lemma ContinueLands(e: Enc, v: seq<Bit>)
    requires Ready(e) && Lands(AfterContinue(e), v)
    ensures Lands(e, v) && DecodeTerminate(Mirror(e, v), v) == (0, Mirror(AfterContinue(e), v))
  {
    hide Settled, Renormed, RenormD, Value;
    var m := e.(range := e.range - 2);
    SettledFrame(e, m);
    RenormLands(m, v);
  }

  /** From any ready encoder on, the decoder reads back exactly the coded bins and every emitted bit. */
  lemma {:induction false} DecodesFrom(e: Enc, ctxs: seq<Ctx>, ops: seq<Op>)
    requires Ready(e) && Usable(ops, ctxs)
    ensures var v := EncodeAll(e, ctxs, ops).out;
      && Lands(e, v) && v != [] && v[|v| - 1] == 1
      && DecodeAll(Mirror(e, v), ctxs, ops, v).bins == Bins(ops)
      && DecodeAll(Mirror(e, v), ctxs, ops, v).last.pos == |v|
    decreases |ops|
  {
    hide Mirror, Lands, AfterBin, AfterContinue, AfterFlush, DecodeBin, DecodeTerminate;
    var v := EncodeAll(e, ctxs, ops).out;
    if ops == [] {
      TerminateLands(e);
    } else {
      match ops[0] {
        case Code(i, bin) =>
          NarrowBounded(e, ctxs[i], bin);
          DecodesFrom(AfterBin(e, ctxs[i], bin), ctxs[i := NextCtx(ctxs[i], bin)], ops[1..]);
          BinLands(e, ctxs[i], bin, v);
          MirrorReady(e, v);
        case Continue =>
          NarrowBounded(e, Ctx(0, 0), 0);
          DecodesFrom(AfterContinue(e), ctxs, ops[1..]);
          ContinueLands(e, v);
          MirrorReady(e, v);
      }
    }
  }

  lemma MirrorReady(e: Enc, v: seq<Bit>)
    requires Ready(e) && Lands(e, v)
    ensures Mirror(e, v).range >= 256
  {
  }

  lemma TerminateLands(e: Enc)
    requires Ready(e)
    ensures var v := AfterFlush(e).out;
      && Lands(e, v) && v != [] && v[|v| - 1] == 1 && Mirror(e, v).range >= 256
      && DecodeTerminate(Mirror(e, v), v).0 == 1 && DecodeTerminate(Mirror(e, v), v).1.pos == |v|
  {
    hide Settled, Renormed, RenormD, Value, AfterFlush;
    FlushLands(e);
    SettledFrame(e, FlushInterval(e));
  }

  lemma StartReady()
    ensures Ready(ENC_START) && Shifts(ENC_START) == 0 && Low(ENC_START) == 0
  {
    ValueEmpty();
    assert Pow2(0) == 1;
  }

  /** Reading nine bits is the window of an encoder that has not shifted yet. */
  lemma StartMirrors(v: seq<Bit>)
    requires Lands(ENC_START, v)
    ensures DecStart(v) == Mirror(ENC_START, v)
  {
    StartReady();
    hide Value, Low, Shifts, DecStart;
    FirstNine(v);
    DecStartRegisters(v);
  }

  lemma DecStartRegisters(v: seq<Bit>)
    ensures DecStart(v).range == 510 && DecStart(v).pos == 9
  {
  }

  lemma FirstNine(v: seq<Bit>)
    requires |v| >= 9
    ensures Value(v[..9]) == DecStart(v).offset
  {
    hide Value;
    assert Value(v[..9]) == 256 * v[0] as int + 128 * v[1] as int + 64 * v[2] as int + 32 * v[3] as int
      + 16 * v[4] as int + 8 * v[5] as int + 4 * v[6] as int + 2 * v[7] as int + v[8] by { NineBits(v); }
  }

  lemma NineBits(v: seq<Bit>)
    requires |v| >= 9
    ensures Value(v[..9]) == 256 * v[0] as int + 128 * v[1] as int + 64 * v[2] as int + 32 * v[3] as int
      + 16 * v[4] as int + 8 * v[5] as int + 4 * v[6] as int + 2 * v[7] as int + v[8]
  {
    hide Value;
    ValueEmpty();
    assert v[..0] == [];
    Prefix(v, 0, 1);
    Prefix(v, 1, 2);
    Prefix(v, 2, 3);
    assert Value(v[..3]) == 4 * v[0] as int + 2 * v[1] as int + v[2];
    Prefix(v, 3, 4);
    Prefix(v, 4, 5);
    Prefix(v, 5, 6);
    assert Value(v[..6]) == 8 * Value(v[..3]) + 4 * v[3] as int + 2 * v[4] as int + v[5];
    Prefix(v, 6, 7);
    Prefix(v, 7, 8);
    Prefix(v, 8, 9);
  }

  lemma Prefix(v: seq<Bit>, i: nat, j: nat)
    requires i < |v| && j == i + 1
    ensures Value(v[..j]) == 2 * Value(v[..i]) + v[i]
  {
    assert v[..j] == v[..i] + [v[i]];
    ValueAppend(v[..i], v[i]);
  }

  /**
   * Round trip: whatever the contexts and bins, an arithmetic decoder initialised on the emitted bits
   * reads the same bins and consumes the string up to and including its final 1.
   */
  lemma RoundTrip(ctxs: seq<Ctx>, ops: seq<Op>)
    requires Usable(ops, ctxs)
    ensures Ready(ENC_START)
    ensures var v := EncodeAll(ENC_START, ctxs, ops).out;
      && v != [] && v[|v| - 1] == 1
      && DecodeAll(DecStart(v), ctxs, ops, v).bins == Bins(ops)
      && DecodeAll(DecStart(v), ctxs, ops, v).last.pos == |v|
  {
    StartReady();
    DecodesFrom(ENC_START, ctxs, ops);
    StartMirrors(EncodeAll(ENC_START, ctxs, ops).out);
  }

  // ---- the encoder -----------------------------------------------------------------------

  class CabacEnc {
    const bw: BitWriter
    var low: nat
    var range: nat
    var outstanding: nat
    var first: bool
    ghost var origin: nat  // where the current substream starts in the writer

    ghost predicate Valid()
      reads this, bw
    {
      origin <= |bw.bits|
    }

    /** The registers and the bits of the current substream. */
    ghost function View(): Enc
      requires Valid()
      reads this, bw
    {
      Enc(low, range, outstanding, first, bw.bits[origin..])
    }

    constructor (writer: BitWriter)
      ensures bw == writer && Valid() && origin == |writer.bits| && View() == ENC_START
    {
      bw := writer;
      low, range, outstanding, first := 0, 510, 0, true;
      origin := |writer.bits|;
    }

    method Reset()
      modifies this
      ensures Valid() && origin == |bw.bits| && View() == ENC_START
    {
      low, range, outstanding, first := 0, 510, 0, true;
      origin := |bw.bits|;
    }

    method PutBit(b: Bit)
      requires Valid()
      modifies this, bw
      ensures Valid() && origin == old(origin) && bw.bits[..origin] == old(bw.bits[..origin])
      ensures View() == WithBit(old(View()), b)
    {
      if first {
        first := false;
      } else {
        bw.PutBit(b);
      }
      ghost var put := bw.bits[origin..];
      ghost var total := outstanding;
      while outstanding > 0
        invariant Valid() && outstanding <= total && origin == old(origin)
        invariant bw.bits[..origin] == old(bw.bits[..origin])
        invariant bw.bits[origin..] == put + Repeated(1 - b, total - outstanding)
        invariant low == old(low) && range == old(range) && !first
      {
        bw.PutBit(1 - b);
        outstanding := outstanding - 1;
      }
    }

    method Renorm()
      requires Valid() && range > 0
      modifies this, bw
      ensures Valid() && origin == old(origin) && bw.bits[..origin] == old(bw.bits[..origin])
      ensures View() == Renormed(old(View()))
    {
      while range < 256
        invariant Valid() && range > 0 && origin == old(origin)
        invariant bw.bits[..origin] == old(bw.bits[..origin])
        invariant Renormed(View()) == Renormed(old(View()))
        decreases 256 - range
      {
        if low < 256 {
          PutBit(0);
        } else if low >= 512 {
          low := low - 512;
          PutBit(1);
        } else {
          low := low - 256;
          outstanding := outstanding + 1;
        }
        range := 2 * range;
        low := 2 * low;
      }
    }

    /** Code one bin; the adapted context is returned. */
    method EncodeBin(c: Ctx, bin: Bit) returns (c': Ctx)
      requires Valid() && range >= 256
      modifies this, bw
      ensures Valid() && origin == old(origin) && bw.bits[..origin] == old(bw.bits[..origin])
      ensures View() == AfterBin(old(View()), c, bin) && c' == NextCtx(c, bin)
    {
      hide Renormed, LPS_TABLE;
      var lps := LpsRange(c.state, range);
      range := range - lps;
      c' := c;
      if bin != c.mps {
        low := low + range;
        range := lps;
        if c'.state == 0 {
          c' := c'.(mps := 1 - c'.mps);
        }
        c' := c'.(state := NEXT_STATE_LPS[c.state]);
      } else {
        c' := c'.(state := NEXT_STATE_MPS[c.state]);
      }
      Renorm();
    }

    /** end_of_slice_segment_flag and end_of_subset_one_bit. */
    method EncodeTerminate(bin: Bit)
      requires Valid() && range >= 256
      modifies this, bw
      ensures Valid() && origin == old(origin) && bw.bits[..origin] == old(bw.bits[..origin])
      ensures bin == 0 ==> View() == AfterContinue(old(View()))
      ensures bin == 1 ==> View() == AfterFlush(old(View()))
    {
      hide Renormed, Repeated;
      range := range - 2;
      if bin == 1 {
        low := low + range;
        range := 2;
        Renorm();
        PutBit((low / 512) % 2);
        ghost var g := View();
        bw.PutBit((low / 256) % 2);
        bw.PutBit(1);
        assert View().out == g.out + [(low / 256) % 2, 1];
      } else {
        Renorm();
      }
    }
  }
}
