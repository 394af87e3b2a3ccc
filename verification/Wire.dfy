/** The wire codec: every packet type as a prefix, a row of big-endian fields and a tail. */
module Wire {
  import opened Bytes

  datatype Width = Octet | Half | Word

  function Octets(w: Width): nat {
    match w
    case Octet => 1
    case Half => 2
    case Word => 4
  }

  predicate Fits(w: Width, v: nat) {
    match w
    case Octet => v < 0x100
    case Half => v < 0x1_0000
    case Word => v < 0x1_0000_0000
  }

  function Size(ws: seq<Width>): nat {
    if ws == [] then 0 else Octets(ws[0]) + Size(ws[1..])
  }

  predicate AllFit(ws: seq<Width>, vs: seq<nat>) {
    |vs| == |ws| && forall i :: 0 <= i < |ws| ==> Fits(ws[i], vs[i])
  }

  function FieldBytes(w: Width, v: nat): (b: seq<Byte>)
    requires Fits(w, v)
    ensures |b| == Octets(w)
  {
    match w
    case Octet => [v]
    case Half => Be16(v)
    case Word => Be32(v)
  }

  function FieldValue(w: Width, b: seq<Byte>): (v: nat)
    requires |b| >= Octets(w)
    ensures Fits(w, v)
  {
    match w
    case Octet => b[0]
    case Half => ReadBe16(b, 0)
    case Word => ReadBe32(b, 0)
  }

  lemma FieldRoundTrip(w: Width, v: nat, rest: seq<Byte>)
    requires Fits(w, v)
    ensures FieldValue(w, FieldBytes(w, v) + rest) == v
  {
    match w {
      case Octet =>
      case Half => Be16RoundTrip([], v, rest); assert [] + Be16(v) + rest == Be16(v) + rest;
      case Word => Be32RoundTrip([], v, rest); assert [] + Be32(v) + rest == Be32(v) + rest;
    }
  }

  lemma FieldReprint(w: Width, b: seq<Byte>)
    requires |b| >= Octets(w)
    ensures FieldBytes(w, FieldValue(w, b)) == b[..Octets(w)]
  {
    hide Be16, Be32, ReadBe16, ReadBe32;
    match w {
      case Octet =>
      case Half => Be16Reprint(b);
      case Word => Be32Reprint(b);
    }
  }

  function Print(ws: seq<Width>, vs: seq<nat>): (b: seq<Byte>)
    requires AllFit(ws, vs)
    ensures |b| == Size(ws)
    decreases |ws|
  {
    if ws == [] then [] else FieldBytes(ws[0], vs[0]) + Print(ws[1..], vs[1..])
  }

  function Parse(ws: seq<Width>, b: seq<Byte>): (vs: seq<nat>)
    requires |b| >= Size(ws)
    ensures |vs| == |ws| && AllFit(ws, vs)
    decreases |ws|
  {
    if ws == [] then [] else [FieldValue(ws[0], b)] + Parse(ws[1..], b[Octets(ws[0])..])
  }

  lemma {:induction false} ParsePrint(ws: seq<Width>, vs: seq<nat>, rest: seq<Byte>)
    requires AllFit(ws, vs)
    ensures Parse(ws, Print(ws, vs) + rest) == vs
    decreases |ws|
  {
    if ws != [] {
      var tail := Print(ws[1..], vs[1..]) + rest;
      assert Print(ws, vs) + rest == FieldBytes(ws[0], vs[0]) + tail;
      assert (FieldBytes(ws[0], vs[0]) + tail)[Octets(ws[0])..] == tail;
      FieldRoundTrip(ws[0], vs[0], tail);
      ParsePrint(ws[1..], vs[1..], rest);
      hide FieldValue, FieldBytes;
    }
  }

  lemma {:induction false} PrintParse(ws: seq<Width>, b: seq<Byte>)
    requires |b| >= Size(ws)
    ensures Print(ws, Parse(ws, b)) == b[..Size(ws)]
    decreases |ws|
  {
    if ws != [] {
      var n := Octets(ws[0]);
      FieldReprint(ws[0], b);
      PrintParse(ws[1..], b[n..]);
      hide FieldValue, FieldBytes;
      assert b[..n] + b[n..][..Size(ws[1..])] == b[..Size(ws)];
    }
  }

  // ---- packets --------------------------------------------------------------------------------------

  datatype Prefix = Prefix(originator: U16, destination: U16, session: U32)

  datatype Kind =
    | Data | ReservedNack | LinkReport | Heartbeat | Csa | RecoveryRequest | JsccFeedback | CacheStatus | CacheRequest
    | CacheReply | Announce | CacheAssign | VehicleCmd | SelectorState | CalProbe | CalTally | LinkVerdict | ExtUnknown

  /** Field values in wire order and whatever follows them. */
  datatype Packet = Packet(kind: Kind, prefix: Prefix, fields: seq<nat>, tail: seq<Byte>)

  datatype Error = TooShort | BadMagic | BadVersion | UnknownType | Truncated | LengthMismatch | InvalidField

  datatype Decoded = Ok(p: Packet) | Fail(e: Error)

  const PREFIX_SIZE := 11
  const MAGIC: U16 := 0x5742
  const PSK_SIZE := 16
  const HIGH_BUDGET := 3072
  const CAL_PROBE_SIZE := 22

  function TypeOf(k: Kind): (t: Byte)
    ensures 1 <= t < 16
  {
    match k
    case Data => 1
    case ReservedNack => 2
    case LinkReport => 3
    case Heartbeat => 4
    case Csa => 5
    case RecoveryRequest => 6
    case JsccFeedback => 7
    case CacheStatus => 8
    case CacheRequest => 9
    case CacheReply => 10
    case Announce => 11
    case CacheAssign => 12
    case VehicleCmd => 13
    case SelectorState => 14
    case CalProbe => 15
    case CalTally => 15
    case LinkVerdict => 15
    case ExtUnknown => 15
  }

  /** The fields of each packet; a selector state has them all, whichever of its lengths is sent. */
  function Layout(k: Kind): seq<Width> {
    match k
    // stream id, stream type, seq, block, flags, active profile, table version, payload length
    case Data => [Octet, Octet, Word, Word, Octet, Octet, Octet, Half]
    case ReservedNack => []
    // target originator, session, stream; epoch, table version, two rssi, loss, uniq, diversity, adapters, probe, profile
    case LinkReport => [Half, Word, Octet, Word, Octet, Octet, Octet, Half, Word, Word, Octet, Half, Octet]
    case Heartbeat => []
    // nonce, copy, channel, width, class, dt, revert, previous channel, previous width, power, mac
    case Csa => [Word, Octet, Half, Octet, Octet, Half, Half, Half, Octet, Octet, Word]
    case RecoveryRequest => [Half, Word, Octet]
    // target originator, session, stream; epoch, demand, rtt, repair samples, rtt samples, valid flags, observed block
    case JsccFeedback => [Half, Word, Octet, Word, Half, Word, Half, Half, Octet, Word]
    // target originator, session, stream; oldest, newest, health, capabilities
    case CacheStatus => [Half, Word, Octet, Word, Word, Half, Octet]
    // target originator, session, stream, cache; request, block, window, max symbols, length of the have bitmap
    case CacheRequest => [Half, Word, Octet, Half, Word, Word, Half, Octet, Octet]
    // request, wrapped length
    case CacheReply => [Word, Half]
    // flags, claimed by
    case Announce => [Octet, Half]
    // cache, originator, epoch, channel, width, net id
    case CacheAssign => [Half, Half, Word, Half, Octet, Octet]
    // nonce, copy, flags, id, argument, mac
    case VehicleCmd => [Word, Octet, Octet, Octet, Octet, Word]
    // table version, active, floor, ceiling and lockout profile, flags, strikes, remaining, reason, loss window, active and
    // latched mask, loss ewma, uniq, score; holder; calibration word, fingerprint
    case SelectorState => [Octet, Octet, Octet, Octet, Octet, Octet, Octet, Half, Octet, Half, Octet, Octet, Half, Word, Octet,
                           Half, Octet, Octet]
    // extended id, run, dwell, seq, count
    case CalProbe => [Octet, Word, Half, Half, Half]
    // extended id, run, dwell, received, rssi sum, mcs, fingerprint
    case CalTally => [Octet, Word, Half, Half, Word, Octet, Octet]
    // extended id, target originator, session, epoch, verdict
    case LinkVerdict => [Octet, Half, Word, Word, Octet]
    case ExtUnknown => [Octet]
  }

  /** How many of a selector state's fields its flags put on the wire. */
  function SelectorFields(flags: nat): nat {
    if Bit(flags, 16) then 18 else if Bit(flags, 8) then 16 else 15
  }

  predicate Bit(v: nat, weight: nat)
    requires weight > 0
  {
    v / weight % 2 == 1
  }

  /** No bit of a outside b. */
  predicate Within(a: nat, b: nat) {
    && (Bit(a, 1) ==> Bit(b, 1)) && (Bit(a, 2) ==> Bit(b, 2)) && (Bit(a, 4) ==> Bit(b, 4)) && (Bit(a, 8) ==> Bit(b, 8))
    && (Bit(a, 16) ==> Bit(b, 16)) && (Bit(a, 32) ==> Bit(b, 32)) && (Bit(a, 64) ==> Bit(b, 64)) && (Bit(a, 128) ==> Bit(b, 128))
  }

  /** selector_state_fields_valid. */
  predicate SelectorValid(f: seq<nat>)
    requires |f| == 18
  {
    var active, latched, conflict := Bit(f[5], 1), Bit(f[5], 2), Bit(f[5], 4);
    if f[5] >= 32 || ((latched || conflict) && !active) || f[8] > 10 || f[9] > 1000 || f[12] > 1000 || !Within(f[11], f[10]) then false
    else if !active then f[4] == 0xFF && f[6] == 0 && f[7] == 0 && f[10] == 0 && f[11] == 0
    else if f[4] == 0xFF || f[6] == 0 || f[10] == 0 || (latched && f[11] == 0) then false
    else if latched then f[7] == 0 else f[7] > 0
  }

  /** What both directions demand of the fields alone. */
  predicate FieldsValid(k: Kind, prefix: Prefix, f: seq<nat>)
    requires |f| == |Layout(k)|
  {
    match k
    case Data => true
    case ReservedNack => true
    case LinkReport => true
    case Heartbeat => true
    case Csa => true
    case RecoveryRequest => true
    case JsccFeedback => f[8] < 4
    case CacheStatus => f[5] <= 1000 && f[6] < 2
    case CacheRequest => 0 < f[6] <= MAX_SYMBOLS && f[7] != 0 && f[8] <= 32
    case CacheReply => f[1] >= DATA_HEADER
    case Announce => true
    case CacheAssign => f[0] != 0 && f[1] != 0 && f[3] != 0 && f[4] <= 2
    case VehicleCmd => f[2] < 4 && (f[3] == 7 || f[4] <= 4)
    case SelectorState => (Bit(f[5], 16) ==> Bit(f[5], 8)) && SelectorValid(f)
    case CalProbe => f[0] == 1 && f[2] != 0 && f[3] != 0 && f[4] != 0 && f[3] <= f[4] && prefix.destination != 0
    case CalTally => f[0] == 2 && f[2] != 0 && prefix.destination != 0
    case LinkVerdict => f[0] == 3 && f[4] <= 6 && prefix.destination != 0
    case ExtUnknown => f[0] > 3
  }

  /** How long the tail of a packet is. */
  predicate TailFits(k: Kind, f: seq<nat>, tail: nat)
    requires |f| == |Layout(k)|
  {
    match k
    case Data => tail == f[7]
    case CacheRequest => tail == (f[6] + 7) / 8 + f[8]
    case CacheReply => tail == f[1]
    case Announce => tail == PSK_SIZE
    case CalProbe => CAL_PROBE_SIZE + tail <= HIGH_BUDGET
    case ReservedNack => tail == 0
    case LinkReport => tail == 0
    case Heartbeat => tail == 0
    case Csa => tail == 0
    case RecoveryRequest => tail == 0
    case JsccFeedback => tail == 0
    case CacheStatus => tail == 0
    case CacheAssign => tail == 0
    case VehicleCmd => tail == 0
    case SelectorState => tail == 0
    case CalTally => tail == 0
    case LinkVerdict => tail == 0
    case ExtUnknown => tail == 0
  }

  // ---- encoding ---------------------------------------------------------------------------------------

  function PrefixBytes(k: Kind, prefix: Prefix): (b: seq<Byte>)
    ensures |b| == PREFIX_SIZE
  {
    Be16(MAGIC) + [TypeOf(k)] + Be16(prefix.originator) + Be16(prefix.destination) + Be32(prefix.session)
  }

  /** The fields of a packet that go on the wire. */
  function SentLayout(k: Kind, f: seq<nat>): (ws: seq<Width>)
    requires |f| == |Layout(k)|
    ensures |ws| <= |f| && ws == Layout(k)[..|ws|]
  {
    if k == SelectorState then SelectorLayout(SelectorFields(f[5])) else Layout(k)
  }

  /** What the encoders accept; a retired or unknown type has none. */
  predicate Encodable(p: Packet) {
    && p.kind != ReservedNack && p.kind != ExtUnknown
    && AllFit(Layout(p.kind), p.fields) && FieldsValid(p.kind, p.prefix, p.fields) && TailFits(p.kind, p.fields, |p.tail|)
    && (p.kind == CalProbe ==> forall i :: 0 <= i < |p.tail| ==> p.tail[i] == 0)
  }

  function Encode(p: Packet): (b: seq<Byte>)
    requires Encodable(p)
  {
    var ws := SentLayout(p.kind, p.fields);
    PrefixBytes(p.kind, p.prefix) + (Print(ws, p.fields[..|ws|]) + p.tail)
  }

  // ---- decoding ---------------------------------------------------------------------------------------

  function PrefixOf(b: seq<Byte>): Prefix
    requires |b| >= PREFIX_SIZE
  {
    Prefix(ReadBe16(b, 3), ReadBe16(b, 5), ReadBe32(b, 7))
  }

  datatype Named = Known(k: Kind) | Unnamed(e: Error)

  /** The packet type a frame announces. */
  function KindOf(b: seq<Byte>): Named {
    if |b| < 2 then Unnamed(TooShort)
    else if ReadBe16(b, 0) != MAGIC then Unnamed(BadMagic)
    else if |b| < PREFIX_SIZE then Unnamed(TooShort)
    else if b[2] >= 16 then Unnamed(BadVersion)
    else if b[2] == 1 then Known(Data)
    else if b[2] == 2 then Known(ReservedNack)
    else if b[2] == 3 then Known(LinkReport)
    else if b[2] == 4 then Known(Heartbeat)
    else if b[2] == 5 then Known(Csa)
    else if b[2] == 6 then Known(RecoveryRequest)
    else if b[2] == 7 then Known(JsccFeedback)
    else if b[2] == 8 then Known(CacheStatus)
    else if b[2] == 9 then Known(CacheRequest)
    else if b[2] == 10 then Known(CacheReply)
    else if b[2] == 11 then Known(Announce)
    else if b[2] == 12 then Known(CacheAssign)
    else if b[2] == 13 then Known(VehicleCmd)
    else if b[2] == 14 then Known(SelectorState)
    else if b[2] != 15 then Unnamed(UnknownType)
    else if |b| < PREFIX_SIZE + 1 then Unnamed(Truncated)
    else if b[11] == 0 then Unnamed(InvalidField)
    else if b[11] == 1 then Known(CalProbe)
    else if b[11] == 2 then Known(CalTally)
    else if b[11] == 3 then Known(LinkVerdict)
    else Known(ExtUnknown)
  }

  lemma KindSized(b: seq<Byte>)
    requires KindOf(b).Known?
    ensures |b| >= PREFIX_SIZE && (KindOf(b).k == ExtUnknown ==> |b| > PREFIX_SIZE)
  {
  }

  function Decode(b: seq<Byte>): Decoded {
    match KindOf(b)
    case Unnamed(e) => Fail(e)
    case Known(k) => KindSized(b); DecodeAs(k, PrefixOf(b), b[PREFIX_SIZE..])
  }

  /** The body of a packet whose type is known. */
  function DecodeAs(k: Kind, prefix: Prefix, body: seq<Byte>): Decoded
    requires k == ExtUnknown ==> body != []
  {
    var ws := Layout(k);
    if k == ReservedNack then Ok(Packet(k, prefix, [], []))
    else if k == ExtUnknown then Ok(Packet(k, prefix, [body[0] as nat], []))
    else if k == SelectorState then DecodeSelector(prefix, body)
    else if |body| < Size(ws) then Fail(Truncated)
    else DecodeFields(k, prefix, Parse(ws, body), body[Size(ws)..])
  }

  /** The checks on a packet whose fields are read, in the order the decoder makes them. */
  function DecodeFields(k: Kind, prefix: Prefix, f: seq<nat>, tail: seq<Byte>): Decoded
    requires |f| == |Layout(k)|
  {
    match k
    case Data =>
      if |tail| != f[7] then Fail(LengthMismatch) else if f[7] > MAX_DATA_PAYLOAD then Fail(InvalidField) else Ok(Packet(k, prefix, f, tail))
    case CacheRequest =>
      if !FieldsValid(k, prefix, f) then Fail(InvalidField)
      else if !TailFits(k, f, |tail|) then Fail(LengthMismatch)
      else Ok(Packet(k, prefix, f, tail))
    case CacheReply =>
      if !FieldsValid(k, prefix, f) then Fail(InvalidField)
      else if !TailFits(k, f, |tail|) then Fail(LengthMismatch)
      else Ok(Packet(k, prefix, f, tail))
    case CalProbe =>
      if !TailFits(k, f, |tail|) then Fail(LengthMismatch)
      else if !FieldsValid(k, prefix, f) then Fail(InvalidField)
      else Ok(Packet(k, prefix, f, ZeroBytes(|tail|)))
    case Announce =>
      if |tail| < PSK_SIZE then Fail(Truncated)
      else if |tail| > PSK_SIZE then Fail(LengthMismatch)
      else if f[0] >= 4 then Fail(InvalidField)
      else Ok(Packet(k, prefix, f, tail))
    case LinkReport => Plain(k, prefix, f, tail)
    case Heartbeat => Plain(k, prefix, f, tail)
    case Csa => Plain(k, prefix, f, tail)
    case RecoveryRequest => Plain(k, prefix, f, tail)
    case JsccFeedback => Plain(k, prefix, f, tail)
    case CacheStatus => Plain(k, prefix, f, tail)
    case CacheAssign => Plain(k, prefix, f, tail)
    case VehicleCmd => Plain(k, prefix, f, tail)
    case CalTally => Plain(k, prefix, f, tail)
    case LinkVerdict => Plain(k, prefix, f, tail)
    case ReservedNack => Ok(Packet(k, prefix, [], []))
    case ExtUnknown => Ok(Packet(k, prefix, f, []))
    case SelectorState => if SelectorValid(f) then Ok(Packet(k, prefix, f, [])) else Fail(InvalidField)
  }

  /** A packet of exactly its fields. */
  function Plain(k: Kind, prefix: Prefix, f: seq<nat>, tail: seq<Byte>): Decoded
    requires |f| == |Layout(k)|
  {
    if tail != [] then Fail(LengthMismatch)
    else if !FieldsValid(k, prefix, f) then Fail(InvalidField)
    else Ok(Packet(k, prefix, f, []))
  }

  const SELECTOR_SHORT := 21

  /** Three lengths, told apart by two flags; fields not sent read as zero. */
  function DecodeSelector(prefix: Prefix, body: seq<Byte>): Decoded {
    if |body| < SELECTOR_SHORT then Fail(Truncated)
    else if |body| != SELECTOR_SHORT && |body| != SELECTOR_SHORT + 2 && |body| != SELECTOR_SHORT + 4 then Fail(LengthMismatch)
    else if Bit(body[5], 16) && !Bit(body[5], 8) then Fail(InvalidField)
    else
      var ws := SelectorLayout(SelectorFields(body[5]));
      if |body| != Size(ws) then Fail(LengthMismatch) else SelectorFrom(prefix, Parse(ws, body))
  }

  function SelectorLayout(n: nat): (ws: seq<Width>)
    requires n <= 18
    ensures |ws| == n
  {
    Layout(SelectorState)[..n]
  }

  /** A selector state from the fields sent. */
  function SelectorFrom(prefix: Prefix, sent: seq<nat>): Decoded
    requires |sent| <= 18
  {
    var f := sent + seq(18 - |sent|, _ => 0);
    if SelectorValid(f) then Ok(Packet(SelectorState, prefix, f, [])) else Fail(InvalidField)
  }

  // ---- both ways ----------------------------------------------------------------------------------------

  lemma PrefixRead(k: Kind, prefix: Prefix, rest: seq<Byte>)
    ensures var b := PrefixBytes(k, prefix) + rest;
            && ReadBe16(b, 0) == MAGIC && b[2] == TypeOf(k) && PrefixOf(b) == prefix && b[PREFIX_SIZE..] == rest
  {
    var b := PrefixBytes(k, prefix) + rest;
    var o, d, s := Be16(prefix.originator), Be16(prefix.destination), Be32(prefix.session);
    var head := Be16(MAGIC) + [TypeOf(k)];
    assert b == [] + Be16(MAGIC) + ([TypeOf(k)] + o + d + s + rest);
    Be16RoundTrip([], MAGIC, [TypeOf(k)] + o + d + s + rest);
    assert b == head + o + (d + s + rest);
    Be16RoundTrip(head, prefix.originator, d + s + rest);
    assert b == (head + o) + d + (s + rest);
    Be16RoundTrip(head + o, prefix.destination, s + rest);
    assert b == (head + o + d) + s + rest;
    Be32RoundTrip(head + o + d, prefix.session, rest);
  }

  lemma PrefixReprint(k: Kind, b: seq<Byte>)
    requires KindOf(b) == Known(k)
    ensures |b| >= PREFIX_SIZE && b[..PREFIX_SIZE] == PrefixBytes(k, PrefixOf(b))
  {
    KindSized(b);
    assert b[2] == TypeOf(k);
    Be16Reprint(b);
    Be16Reprint(b[3..]);
    Be16Reprint(b[5..]);
    Be32Reprint(b[7..]);
    hide Be16, Be32;
    assert b[..PREFIX_SIZE] == b[..2] + [b[2]] + b[3..][..2] + b[5..][..2] + b[7..][..4];
  }

  /** A frame with the magic, a type byte and, for the extended types, an id names its type. */
  lemma KindNamed(k: Kind, b: seq<Byte>)
    requires |b| >= PREFIX_SIZE && ReadBe16(b, 0) == MAGIC && b[2] == TypeOf(k)
    requires TypeOf(k) == 15 ==> |b| > PREFIX_SIZE && b[PREFIX_SIZE] == match k case CalProbe => 1 case CalTally => 2 case _ => 3
    requires k != ReservedNack && k != ExtUnknown
    ensures KindOf(b) == Known(k)
  {
    hide ReadBe16;
  }

  /** The first byte of a printed extended packet is its id. */
  lemma ExtendedId(p: Packet)
    requires Encodable(p) && TypeOf(p.kind) == 15
    ensures |Encode(p)| > PREFIX_SIZE && PREFIX_SIZE < |Encode(p)|
    ensures Encode(p)[PREFIX_SIZE] == match p.kind case CalProbe => 1 case CalTally => 2 case _ => 3
  {
    hide PrefixBytes, ReadBe16, PrefixOf;
    PrefixRead(p.kind, p.prefix, Print(Layout(p.kind), p.fields) + p.tail);
    assert SentLayout(p.kind, p.fields) == Layout(p.kind);
    assert p.fields[..|Layout(p.kind)|] == p.fields;
    assert Encode(p)[PREFIX_SIZE..][0] == p.fields[0];
  }

  lemma EncodeStarts(p: Packet) returns (rest: seq<Byte>)
    requires Encodable(p)
    ensures Encode(p) == PrefixBytes(p.kind, p.prefix) + rest
  {
    hide PrefixBytes;
    var ws := SentLayout(p.kind, p.fields);
    rest := Print(ws, p.fields[..|ws|]) + p.tail;
  }

  lemma KindRead(p: Packet)
    requires Encodable(p)
    ensures KindOf(Encode(p)) == Known(p.kind)
  {
    hide PrefixBytes, ReadBe16, PrefixOf, KindOf, Encode, Layout, FieldsValid, TailFits, AllFit;
    var rest := EncodeStarts(p);
    PrefixRead(p.kind, p.prefix, rest);
    if TypeOf(p.kind) == 15 { ExtendedId(p); }
    KindNamed(p.kind, Encode(p));
  }

  lemma SizeStep(s: seq<Width>, i: nat)
    requires i < |s|
    ensures Size(s[i..]) == Octets(s[i]) + Size(s[i + 1..])
  {
    assert s[i..][1..] == s[i + 1..];
  }

  lemma SizeOne(w: Width)
    ensures Size([w]) == Octets(w) && Size([]) == 0
  {
  }

  lemma SelectorSizes()
    ensures Size(SelectorLayout(15)) == SELECTOR_SHORT
    ensures Size(SelectorLayout(16)) == SELECTOR_SHORT + 2
    ensures Size(SelectorLayout(18)) == SELECTOR_SHORT + 4
  {
    hide Size;
    var ws := Layout(SelectorState);
    SelectorHead(ws[..15]);
    SizeOne(Half);
    SizeOne(Octet);
    SizeSplit(ws[..15], [Half]);
    assert ws[..16] == ws[..15] + [Half];
    SizeSplit([Octet], [Octet]);
    SizeSplit(ws[..16], [Octet, Octet]);
    assert [Octet] + [Octet] == [Octet, Octet];
    assert ws[..18] == ws[..16] + [Octet, Octet];
  }

  lemma SelectorHead(s: seq<Width>)
    requires |s| == 15 && s[7] == s[9] == s[12] == Half && s[13] == Word
    requires forall i :: 0 <= i < 15 && i !in {7, 9, 12, 13} ==> s[i] == Octet
    ensures Size(s) == SELECTOR_SHORT
  {
    hide Size;
    SizeOne(Octet);
    assert s[15..] == [] && s[0..] == s;
    SizeStep(s, 14); SizeStep(s, 13); SizeStep(s, 12); SizeStep(s, 11); SizeStep(s, 10); SizeStep(s, 9); SizeStep(s, 8);
    SizeStep(s, 7); SizeStep(s, 6); SizeStep(s, 5); SizeStep(s, 4); SizeStep(s, 3); SizeStep(s, 2); SizeStep(s, 1); SizeStep(s, 0);
  }

  lemma {:induction false} SizeSplit(a: seq<Width>, b: seq<Width>)
    ensures Size(a + b) == Size(a) + Size(b)
    decreases |a|
  {
    if a == [] {
      assert a + b == b;
    } else {
      assert (a + b)[1..] == a[1..] + b;
      SizeSplit(a[1..], b);
    }
  }

  /** Packets that arrive as they were: a payload the decoder takes, no reserved announce flag, nothing in fields not sent. */
  predicate Survives(p: Packet)
    requires Encodable(p)
  {
    && (p.kind == Data ==> |p.tail| <= MAX_DATA_PAYLOAD)
    && (p.kind == Announce ==> p.fields[0] < 4)
    && (p.kind == SelectorState ==> forall i :: SelectorFields(p.fields[5]) <= i < 18 ==> p.fields[i] == 0)
  }

  lemma FieldsDecode(p: Packet)
    requires Encodable(p) && p.kind != SelectorState
    ensures DecodeFields(p.kind, p.prefix, p.fields, p.tail) == Ok(p) <==> Survives(p)
  {
    assert p.kind == CalProbe ==> p.tail == ZeroBytes(|p.tail|);
    hide Layout, AllFit;
  }

  lemma BodyDecodes(p: Packet)
    requires Encodable(p) && p.kind != SelectorState
    ensures DecodeAs(p.kind, p.prefix, Print(Layout(p.kind), p.fields) + p.tail) == Ok(p) <==> Survives(p)
  {
    FieldsDecode(p);
    assert p.kind != ReservedNack && p.kind != ExtUnknown && AllFit(Layout(p.kind), p.fields);
    hide Print, Parse, Size, Layout, DecodeFields, Survives, Encodable, AllFit;
    var ws := Layout(p.kind);
    var body := Print(ws, p.fields) + p.tail;
    ParsePrint(ws, p.fields, p.tail);
    assert body[Size(ws)..] == p.tail;
  }

  /** The lockout checks do not look at the optional fields. */
  lemma OptionalFieldsFree(f: seq<nat>, g: seq<nat>)
    requires |f| == |g| == 18 && forall i :: 0 <= i < 15 ==> f[i] == g[i]
    ensures SelectorValid(f) == SelectorValid(g)
  {
    hide Bit, Within;
  }

  /** Of the fields sent, a selector state comes back whole exactly when the others are zero. */
  lemma SentComesBack(p: Packet)
    requires Encodable(p) && p.kind == SelectorState
    ensures var n := SelectorFields(p.fields[5]);
            SelectorFrom(p.prefix, p.fields[..n]) == Ok(p) <==> Survives(p)
  {
    var n := SelectorFields(p.fields[5]);
    var f := p.fields[..n] + seq(18 - n, _ => 0);
    assert |p.fields| == 18 && p.tail == [] && SelectorValid(p.fields);
    OptionalFieldsFree(f, p.fields);
    hide Layout, AllFit, SelectorValid;
    assert f == p.fields <==> forall i :: n <= i < 18 ==> p.fields[i] == 0;
  }

  lemma SelectorShape(p: Packet)
    requires Encodable(p) && p.kind == SelectorState
    ensures |p.fields| == 18 && p.tail == [] && (Bit(p.fields[5], 16) ==> Bit(p.fields[5], 8))
    ensures var ws := SelectorLayout(SelectorFields(p.fields[5])); AllFit(ws, p.fields[..|ws|])
  {
  }

  /** A printed selector body is read back field by field. */
  lemma SelectorBody(prefix: Prefix, sent: seq<nat>, body: seq<Byte>)
    requires |sent| == 15 || |sent| == 16 || |sent| == 18
    requires AllFit(SelectorLayout(|sent|), sent) && body == Print(SelectorLayout(|sent|), sent)
    requires |body| > 5 && body[5] == sent[5] && |sent| == SelectorFields(sent[5]) && (Bit(sent[5], 16) ==> Bit(sent[5], 8))
    ensures DecodeSelector(prefix, body) == SelectorFrom(prefix, sent)
  {
    hide Print, Parse, Size, Bit, SelectorFrom, AllFit, Layout, SelectorLayout, SelectorFields;
    SelectorSizes();
    ParsePrint(SelectorLayout(|sent|), sent, []);
    assert body + [] == body;
  }

  lemma SelectorDecodes(p: Packet)
    requires Encodable(p) && p.kind == SelectorState
    ensures var ws := SentLayout(p.kind, p.fields);
            DecodeAs(p.kind, p.prefix, Print(ws, p.fields[..|ws|]) + p.tail) == Ok(p) <==> Survives(p)
  {
    hide Print, Bit, SelectorFrom, Survives, Encodable, AllFit, Layout, SelectorLayout, DecodeSelector, DecodeAs;
    SelectorShape(p);
    SentComesBack(p);
    var n := SelectorFields(p.fields[5]);
    assert n == 15 || n == 16 || n == 18;
    hide SelectorFields;
    var ws := SelectorLayout(n);
    FlagsRead(p, ws);
    var body := Print(ws, p.fields[..n]);
    SelectorBody(p.prefix, p.fields[..n], body);
    SelectorAs(p.prefix, body);
    assert body + p.tail == body;
  }

  lemma SelectorOctets(n: nat)
    requires 15 <= n <= 18
    ensures forall i :: 0 <= i <= 5 ==> SelectorLayout(n)[i] == Octet
  {
    var ws := Layout(SelectorState);
    assert forall i :: 0 <= i <= 5 ==> ws[i] == Octet;
    hide Layout;
  }

  /** The flags octet is the sixth of the body. */
  lemma FlagsRead(p: Packet, ws: seq<Width>)
    requires Encodable(p) && p.kind == SelectorState && ws == SentLayout(p.kind, p.fields)
    ensures |Print(ws, p.fields[..|ws|])| > 5 && Print(ws, p.fields[..|ws|])[5] == p.fields[5]
  {
    SelectorShape(p);
    SelectorOctets(|ws|);
    hide Layout, SelectorLayout, Encodable, AllFit, Print;
    PrintOctets(ws, p.fields[..|ws|], 5);
  }

  lemma {:induction false} PrintOctets(ws: seq<Width>, vs: seq<nat>, n: nat)
    requires AllFit(ws, vs) && n < |ws| && forall i :: 0 <= i <= n ==> ws[i] == Octet
    ensures |Print(ws, vs)| > n && Print(ws, vs)[n] == vs[n]
    decreases n
  {
    if n > 0 { PrintOctets(ws[1..], vs[1..], n - 1); }
  }

  /** What is encoded decodes to itself, exactly when it survives. */
  lemma DecodeEncode(p: Packet)
    requires Encodable(p)
    ensures Decode(Encode(p)) == Ok(p) <==> Survives(p)
  {
    var ws := SentLayout(p.kind, p.fields);
    var rest := Print(ws, p.fields[..|ws|]) + p.tail;
    KindRead(p);
    PrefixRead(p.kind, p.prefix, rest);
    if p.kind == SelectorState {
      SelectorDecodes(p);
    } else {
      assert ws == Layout(p.kind) && p.fields[..|ws|] == p.fields;
      BodyDecodes(p);
    }
    hide DecodeAs, Survives, Print, PrefixBytes, KindOf, Encodable, PrefixOf;
  }

  /** The fields of an idle selector state whose last field is set although its flag is clear. */
  function StrayField(): seq<nat> {
    seq(18, i => if i == 4 then 0xFF else if i == 17 then 1 else 0)
  }

  /** An encoder accepts it, and the field does not arrive. */
  lemma StrayFieldLost()
    ensures var p := Packet(SelectorState, Prefix(1, 0, 1), StrayField(), []); Encodable(p) && !Survives(p)
  {
    var f := StrayField();
    assert f[5] == 0 && f[17] == 1;
    assert SelectorValid(f);
    assert SelectorFields(f[5]) == 15;
    StrayFits();
  }

  lemma StrayFits()
    ensures AllFit(Layout(SelectorState), StrayField())
  {
  }

  /** Two more packets an encoder accepts that do not arrive as they were. */
  lemma DoesNotSurvive()
    ensures var p := Packet(Announce, Prefix(1, 0, 1), [4, 0], ZeroBytes(PSK_SIZE)); Encodable(p) && !Survives(p)
    ensures var p := Packet(Data, Prefix(1, 0, 1), [0, 0, 0, 0, 0, 0, 0, 4097], ZeroBytes(4097)); Encodable(p) && !Survives(p)
  {
  }

  // ---- re-encoding --------------------------------------------------------------------------------------

  lemma FieldsReencode(k: Kind, prefix: Prefix, f: seq<nat>, tail: seq<Byte>, p: Packet)
    requires AllFit(Layout(k), f) && DecodeFields(k, prefix, f, tail) == Ok(p)
    requires k != SelectorState && k != ReservedNack && k != ExtUnknown
    ensures Encodable(p) && p.kind == k && p.prefix == prefix && p.fields == f
    ensures p.tail == if k == CalProbe then ZeroBytes(|tail|) else tail
  {
    hide Layout;
  }

  lemma BodyReencodes(k: Kind, prefix: Prefix, body: seq<Byte>, p: Packet)
    requires k != SelectorState && k != ReservedNack && k != ExtUnknown
    requires DecodeAs(k, prefix, body) == Ok(p)
    ensures |body| >= Size(Layout(k)) && Encodable(p) && p.kind == k && p.prefix == prefix && p.fields == Parse(Layout(k), body)
    ensures p.tail == if k == CalProbe then ZeroBytes(|body| - Size(Layout(k))) else body[Size(Layout(k))..]
    ensures Print(Layout(k), p.fields) + p.tail == body <==> p.tail == body[Size(Layout(k))..]
  {
    hide Print, Parse, Size, Layout, DecodeFields, Encodable, FieldsValid, AllFit;
    var ws := Layout(k);
    var f := Parse(ws, body);
    FieldsReencode(k, prefix, f, body[Size(ws)..], p);
    PrintParse(ws, body);
    assert body[..Size(ws)] + body[Size(ws)..] == body;
    SameStart(body[..Size(ws)], p.tail, body[Size(ws)..]);
  }

  lemma TailsDiffer(a: seq<Byte>, x: seq<Byte>, y: seq<Byte>)
    requires x != y
    ensures a + x != a + y
  {
    assert (a + x)[|a|..] == x && (a + y)[|a|..] == y;
  }

  /** A selector state made of the fields sent is one an encoder takes. */
  lemma SelectorMade(prefix: Prefix, sent: seq<nat>, p: Packet)
    requires |sent| == 15 || |sent| == 16 || |sent| == 18
    requires AllFit(SelectorLayout(|sent|), sent) && |sent| == SelectorFields(sent[5]) && (Bit(sent[5], 16) ==> Bit(sent[5], 8))
    requires SelectorFrom(prefix, sent) == Ok(p)
    ensures Encodable(p) && p.kind == SelectorState && p.prefix == prefix && p.tail == []
    ensures |p.fields| == 18 && p.fields[..|sent|] == sent && SentLayout(p.kind, p.fields) == SelectorLayout(|sent|)
  {
    var f := sent + seq(18 - |sent|, _ => 0);
    assert p.fields == f && f[5] == sent[5];
    var all := Layout(SelectorState);
    forall i | 0 <= i < 18 ensures Fits(all[i], f[i]) {
      if i < |sent| { assert SelectorLayout(|sent|)[i] == all[i] && f[i] == sent[i]; }
    }
    hide SelectorValid, Bit;
  }

  lemma SelectorReencodes(prefix: Prefix, body: seq<Byte>, p: Packet)
    requires DecodeSelector(prefix, body) == Ok(p)
    ensures Encodable(p) && p.kind == SelectorState && p.prefix == prefix
    ensures var ws := SentLayout(p.kind, p.fields); Print(ws, p.fields[..|ws|]) + p.tail == body
  {
    hide Layout, SelectorLayout, SelectorFrom, Parse, Print, Size, AllFit, Encodable;
    var n := SelectorFields(body[5]);
    assert n == 15 || n == 16 || n == 18;
    var ws := SelectorLayout(n);
    assert |body| == Size(ws) && SelectorFrom(prefix, Parse(ws, body)) == Ok(p);
    assert Bit(body[5], 16) ==> Bit(body[5], 8);
    hide DecodeSelector, Bit, SelectorFields;
    SelectorOctets(n);
    ParseOctets(ws, body, 5);
    SelectorMade(prefix, Parse(ws, body), p);
    PrintParse(ws, body);
    assert body[..|body|] == body;
    assert Print(ws, Parse(ws, body)) + [] == Print(ws, Parse(ws, body));
  }

  lemma {:induction false} ParseOctets(ws: seq<Width>, b: seq<Byte>, n: nat)
    requires |b| >= Size(ws) && n < |ws| && forall i :: 0 <= i <= n ==> ws[i] == Octet
    ensures |b| > n && Parse(ws, b)[n] == b[n]
    decreases n
  {
    if n > 0 { ParseOctets(ws[1..], b[1..], n - 1); }
  }

  /** What follows the fixed fields of a calibration probe. */
  function Padding(b: seq<Byte>): seq<Byte> {
    if |b| >= CAL_PROBE_SIZE then b[CAL_PROBE_SIZE..] else []
  }

  /** Whatever decodes re-encodes to itself, but for a calibration probe's padding; retired and unknown types have no encoder. */
  lemma EncodeDecode(b: seq<Byte>, p: Packet)
    requires Decode(b) == Ok(p) && p.kind != ReservedNack && p.kind != ExtUnknown
    ensures Encodable(p)
    ensures Encode(p) == b <==> (p.kind == CalProbe ==> Padding(b) == ZeroBytes(|Padding(b)|))
  {
    hide Print, PrefixBytes, KindOf, Encodable, PrefixOf, Parse, Size, DecodeAs, Layout, ZeroBytes;
    KindSized(b);
    var k := KindOf(b).k;
    PrefixReprint(k, b);
    var body := b[PREFIX_SIZE..];
    assert b == PrefixBytes(k, PrefixOf(b)) + body;
    DecodedKind(k, PrefixOf(b), body);
    if k == SelectorState {
      SelectorAs(PrefixOf(b), body);
      SelectorReencodes(PrefixOf(b), body, p);
    } else {
      BodyReencodes(k, PrefixOf(b), body, p);
      assert SentLayout(k, p.fields) == Layout(k) && p.fields[..|p.fields|] == p.fields;
      if k == CalProbe { ProbeSize(); }
      SameStart(PrefixBytes(k, PrefixOf(b)), Print(Layout(k), p.fields) + p.tail, body);
    }
  }

  /** A probe's frame with its padding replaced: it decodes to the probe all the same, and re-encodes with zeros. */
  lemma PaddingForgotten(p: Packet, padding: seq<Byte>)
    requires Encodable(p) && p.kind == CalProbe && |padding| == |p.tail|
    ensures var b := PrefixBytes(CalProbe, p.prefix) + (Print(Layout(CalProbe), p.fields) + padding);
            Decode(b) == Ok(p) && (Encode(p) == b <==> padding == ZeroBytes(|padding|))
  {
    hide PrefixBytes, ReadBe16, PrefixOf, KindOf, Print, Parse, Size;
    var ws := Layout(CalProbe);
    var body := Print(ws, p.fields) + padding;
    var b := PrefixBytes(CalProbe, p.prefix) + body;
    PrefixRead(CalProbe, p.prefix, body);
    ProbeSize();
    ExtendedId(p);
    assert p.fields[..|ws|] == p.fields && Encode(p) == PrefixBytes(CalProbe, p.prefix) + (Print(ws, p.fields) + p.tail);
    assert b[PREFIX_SIZE] == body[0] == Print(ws, p.fields)[0] == Encode(p)[PREFIX_SIZE];
    KindNamed(CalProbe, b);
    KindSized(b);
    ParsePrint(ws, p.fields, padding);
    assert body[Size(ws)..] == padding && p.tail == ZeroBytes(|p.tail|);
    assert b[PREFIX_SIZE..] == body;
    assert Decode(b) == Ok(p);
    hide Encode;
    if padding != p.tail { assert body != Print(ws, p.fields) + p.tail by { assert body[Size(ws)..] != p.tail; } }
    assert Encode(p)[PREFIX_SIZE..] == Print(ws, p.fields) + p.tail;
  }

  /** A probe of 23 bytes whose last byte is 1 decodes, and does not encode back to those bytes. */
  lemma ProbeReencodesZeroed()
    ensures var p := Packet(CalProbe, Prefix(1, 2, 0), [1, 0, 1, 1, 1], [0]);
            && Encodable(p)
            && var b := PrefixBytes(CalProbe, p.prefix) + (Print(Layout(CalProbe), p.fields) + [1]);
               Decode(b) == Ok(p) && Encode(p) != b
  {
    var p := Packet(CalProbe, Prefix(1, 2, 0), [1, 0, 1, 1, 1], [0]);
    assert AllFit(Layout(CalProbe), p.fields);
    assert [1] != ZeroBytes(1) by { assert ZeroBytes(1)[0] == 0; }
    hide Decode, Encode, Print, PrefixBytes;
    PaddingForgotten(p, [1]);
  }

  lemma SelectorAs(prefix: Prefix, body: seq<Byte>)
    ensures DecodeAs(SelectorState, prefix, body) == DecodeSelector(prefix, body)
  {
    hide DecodeSelector;
  }

  lemma SameStart(a: seq<Byte>, x: seq<Byte>, y: seq<Byte>)
    ensures a + x == a + y <==> x == y
  {
    if x != y { TailsDiffer(a, x, y); }
  }

  lemma DecodedKind(k: Kind, prefix: Prefix, body: seq<Byte>)
    requires k == ExtUnknown ==> body != []
    requires DecodeAs(k, prefix, body).Ok?
    ensures DecodeAs(k, prefix, body).p.kind == k
  {
    hide Parse, Size, Layout, SelectorValid;
  }

  lemma ProbeSize()
    ensures Size(Layout(CalProbe)) == CAL_PROBE_SIZE - PREFIX_SIZE
  {
    hide Size;
    SizeOne(Octet);
    var ws := Layout(CalProbe);
    assert ws[5..] == [] && ws[0..] == ws;
    SizeStep(ws, 4);
    SizeStep(ws, 3);
    SizeStep(ws, 2);
    SizeStep(ws, 1);
    SizeStep(ws, 0);
  }

  // ---- into a caller's buffer -----------------------------------------------------------------------------

  lemma {:induction false} PrintStep(ws: seq<Width>, vs: seq<nat>, i: nat)
    requires AllFit(ws, vs) && i < |ws|
    ensures Print(ws[..i + 1], vs[..i + 1]) == Print(ws[..i], vs[..i]) + FieldBytes(ws[i], vs[i])
    decreases i
  {
    hide FieldBytes;
    if i == 0 {
      assert ws[..1][1..] == [] && vs[..1][1..] == [];
    } else {
      PrintStep(ws[1..], vs[1..], i - 1);
      assert ws[..i + 1][1..] == ws[1..][..i] && vs[..i + 1][1..] == vs[1..][..i];
      assert ws[..i][1..] == ws[1..][..i - 1] && vs[..i][1..] == vs[1..][..i - 1];
    }
  }

  lemma {:induction false} SizeGrows(ws: seq<Width>, i: nat)
    requires i <= |ws|
    ensures Size(ws[..i]) <= Size(ws)
  {
    SizeSplit(ws[..i], ws[i..]);
    assert ws[..i] + ws[i..] == ws;
  }

  /** Bytes in a row from an offset on, nothing else touched. */
  method Write(out: array<Byte>, off: nat, bytes: seq<Byte>)
    requires off + |bytes| <= out.Length
    modifies out
    ensures out[..off] == old(out[..off]) && out[off..off + |bytes|] == bytes && out[off + |bytes|..] == old(out[off + |bytes|..])
  {
    var i := 0;
    while i < |bytes|
      invariant 0 <= i <= |bytes|
      invariant forall x :: 0 <= x < out.Length ==> out[x] == if off <= x < off + i then bytes[x - off] else old(out[x])
    {
      out[off + i] := bytes[i];
      i := i + 1;
    }
  }

  /** Each field at its offset, in wire order. */
  method WriteFields(out: array<Byte>, off: nat, ws: seq<Width>, vs: seq<nat>)
    requires AllFit(ws, vs) && off + Size(ws) <= out.Length
    modifies out
    ensures out[..off] == old(out[..off]) && out[off..off + Size(ws)] == Print(ws, vs)
    ensures out[off + Size(ws)..] == old(out[off + Size(ws)..])
  {
    hide Size, Print, FieldBytes;
    var i, at := 0, off;
    SizeOne(Octet);
    assert ws[..0] == [] && vs[..0] == [];
    assert Print([], []) == [];
    SizeGrows(ws, 0);
    while i < |ws|
      invariant 0 <= i <= |ws| && at == off + Size(ws[..i]) <= off + Size(ws)
      invariant out[..off] == old(out[..off]) && out[off..at] == Print(ws[..i], vs[..i])
      invariant out[off + Size(ws)..] == old(out[off + Size(ws)..])
    {
      PrintStep(ws, vs, i);
      SizeSplit(ws[..i], [ws[i]]);
      SizeOne(ws[i]);
      assert ws[..i + 1] == ws[..i] + [ws[i]];
      SizeGrows(ws, i + 1);
      ghost var before := out[..];
      Write(out, at, FieldBytes(ws[i], vs[i]));
      assert out[..off] == before[..off] && out[off..at] == before[off..at];
      assert out[off..at + Octets(ws[i])] == out[off..at] + out[at..at + Octets(ws[i])];
      assert out[off + Size(ws)..] == before[off + Size(ws)..];
      at := at + Octets(ws[i]);
      i := i + 1;
    }
    assert ws[..i] == ws && vs[..i] == vs;
  }

  /** A prefix, fields and a tail one after the other from the start of the buffer. */
  method WriteParts(out: array<Byte>, head: seq<Byte>, ws: seq<Width>, vs: seq<nat>, tail: seq<Byte>)
    requires AllFit(ws, vs) && |head| + Size(ws) + |tail| <= out.Length
    modifies out
    ensures out[..|head| + Size(ws) + |tail|] == head + (Print(ws, vs) + tail)
    ensures out[|head| + Size(ws) + |tail|..] == old(out[|head| + Size(ws) + |tail|..])
  {
    hide Print, Size, AllFit;
    var a, b, c := |head|, |head| + Size(ws), |head| + Size(ws) + |tail|;
    ghost var was := out[..];
    Write(out, 0, head);
    assert out[..a] == head && out[a..] == was[a..];
    ghost var first := out[..];
    WriteFields(out, a, ws, vs);
    assert out[..a] == first[..a] && out[b..] == first[b..];
    ghost var second := out[..];
    Write(out, b, tail);
    assert out[..a] == second[..a] && out[a..b] == second[a..b] && out[c..] == second[c..];
    assert out[..c] == out[..a] + (out[a..b] + out[b..c]);
    assert was[b..][c - b..] == was[c..] && first[b..] == was[b..];
  }

  /** The length written, or zero for a packet refused or a buffer too small. */
  method EncodeInto(p: Packet, out: array<Byte>) returns (n: nat)
    modifies out
    ensures n == if Encodable(p) && |Encode(p)| <= out.Length then |Encode(p)| else 0
    ensures n > 0 ==> out[..n] == Encode(p)
    ensures out[n..] == old(out[n..])
  {
    if !Encodable(p) {
      return 0;
    }
    var ws := SentLayout(p.kind, p.fields);
    assert AllFit(ws, p.fields[..|ws|]);
    hide Print, Size, PrefixBytes, Layout, AllFit, Encodable;
    var size := PREFIX_SIZE + Size(ws) + |p.tail|;
    assert size == |Encode(p)|;
    if size > out.Length {
      return 0;
    }
    WriteParts(out, PrefixBytes(p.kind, p.prefix), ws, p.fields[..|ws|], p.tail);
    n := size;
  }
}
