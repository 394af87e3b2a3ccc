/** Where everything lies in a frame. */
module WireLayout {
  import opened Bytes
  import opened Wire

  /** The bytes say the number, the most significant first. */
  predicate Says(b: seq<Byte>, v: int) {
    match |b|
    case 1 => v == b[0]
    case 2 => v == 0x100 * b[0] as int + b[1]
    case 4 => v == 0x100_0000 * b[0] as int + 0x1_0000 * b[1] as int + 0x100 * b[2] as int + b[3]
    case _ => false
  }

  lemma FieldSays(w: Width, v: nat)
    requires Fits(w, v)
    ensures |FieldBytes(w, v)| == Octets(w) && Says(FieldBytes(w, v), v)
  {
    if w == Word {
      hide Be32;
      Be32RoundTrip([], v, []);
      assert [] + Be32(v) + [] == Be32(v);
    }
  }

  /** Magic, version and type, originator, destination and session. */
  lemma PrefixLaid(k: Kind, prefix: Prefix)
    ensures var b := PrefixBytes(k, prefix);
            && b[..2] == [0x57, 0x42] && b[2] == TypeOf(k) && Says(b[3..5], prefix.originator) && Says(b[5..7], prefix.destination)
            && Says(b[7..11], prefix.session)
  {
    FieldSays(Half, prefix.originator);
    FieldSays(Half, prefix.destination);
    FieldSays(Word, prefix.session);
    var b := PrefixBytes(k, prefix);
    var o, d, s := Be16(prefix.originator), Be16(prefix.destination), Be32(prefix.session);
    hide Says, Be32, TypeOf;
    assert b[3..5] == o && b[5..7] == d && b[7..11] == s;
  }

  lemma {:induction false} PrintedAt(ws: seq<Width>, vs: seq<nat>, i: nat)
    requires AllFit(ws, vs) && i < |ws|
    ensures Size(ws[..i]) + Octets(ws[i]) <= Size(ws)
    ensures Print(ws, vs)[Size(ws[..i])..Size(ws[..i]) + Octets(ws[i])] == FieldBytes(ws[i], vs[i])
    decreases i
  {
    hide FieldBytes;
    if i > 0 {
      PrintedAt(ws[1..], vs[1..], i - 1);
      assert ws[..i][1..] == ws[1..][..i - 1] && ws[..i][0] == ws[0];
      var first, rest := FieldBytes(ws[0], vs[0]), Print(ws[1..], vs[1..]);
      var at := Size(ws[1..][..i - 1]);
      assert (first + rest)[|first| + at..|first| + at + Octets(ws[i])] == rest[at..at + Octets(ws[i])];
    }
  }

  /** Every field of an encoded packet lies behind those before it, the most significant byte first; the tail comes last. */
  lemma FieldLaid(p: Packet, i: nat)
    requires Encodable(p) && i < |SentLayout(p.kind, p.fields)|
    ensures var ws, b := SentLayout(p.kind, p.fields), Encode(p);
            var at := PREFIX_SIZE + Size(ws[..i]);
            && |b| == PREFIX_SIZE + Size(ws) + |p.tail| && at + Octets(ws[i]) <= |b|
            && b[..PREFIX_SIZE] == PrefixBytes(p.kind, p.prefix)
            && Says(b[at..at + Octets(ws[i])], p.fields[i])
            && b[PREFIX_SIZE + Size(ws)..] == p.tail
  {
    var ws := SentLayout(p.kind, p.fields);
    var vs := p.fields[..|ws|];
    SentFit(p);
    FieldSays(ws[i], vs[i]);
    hide *;
    PrintedAt(ws, vs, i);
    EncodeParts(p);
    Third(PrefixBytes(p.kind, p.prefix), Print(ws, vs), p.tail, Size(ws[..i]), Octets(ws[i]));
  }

  lemma SentFit(p: Packet)
    requires Encodable(p)
    ensures var ws := SentLayout(p.kind, p.fields);
            |ws| <= |p.fields| && AllFit(ws, p.fields[..|ws|]) && forall i :: 0 <= i < |ws| ==> Fits(ws[i], p.fields[i])
  {
    hide Layout, FieldsValid, TailFits, SelectorLayout, Fits;
  }

  lemma EncodeParts(p: Packet)
    requires Encodable(p)
    ensures var ws := SentLayout(p.kind, p.fields);
            && AllFit(ws, p.fields[..|ws|]) && Encode(p) == PrefixBytes(p.kind, p.prefix) + (Print(ws, p.fields[..|ws|]) + p.tail)
            && |PrefixBytes(p.kind, p.prefix)| == PREFIX_SIZE && |Print(ws, p.fields[..|ws|])| == Size(ws)
  {
    SentFit(p);
    hide AllFit, Print, PrefixBytes, Layout;
  }

  lemma Third(a: seq<Byte>, b: seq<Byte>, c: seq<Byte>, at: nat, n: nat)
    requires at + n <= |b|
    ensures var s := a + (b + c);
            && |s| == |a| + |b| + |c| && s[..|a|] == a && s[|a| + at..|a| + at + n] == b[at..at + n] && s[|a| + |b|..] == c
  {
  }

  /** Running totals of the widths. */
  lemma {:induction false} SizeSums(ws: seq<Width>, sums: seq<nat>)
    requires |sums| == |ws| + 1 && sums[0] == 0 && forall i :: 0 <= i < |ws| ==> sums[i + 1] == sums[i] + Octets(ws[i])
    ensures forall i :: 0 <= i <= |ws| ==> Size(ws[..i]) == sums[i]
    decreases |ws|
  {
    hide Size;
    SizeOne(Octet);
    if ws != [] {
      var n := |ws| - 1;
      SizeSums(ws[..n], sums[..|ws|]);
      SizeSplit(ws[..n], [ws[n]]);
      SizeOne(ws[n]);
      assert ws[..n] + [ws[n]] == ws && ws[..|ws|] == ws;
      assert ws[..n][..n] == ws[..n];
      assert Size(ws[..n]) == sums[..|ws|][n] == sums[n];
      forall i | 0 <= i <= |ws| ensures Size(ws[..i]) == sums[i] {
        if i <= n { assert ws[..n][..i] == ws[..i] && sums[..|ws|][i] == sums[i]; }
      }
    }
  }

  /** Where the fields of a packet type begin, and where its tail does. */
  function Offsets(k: Kind): (s: seq<nat>)
    ensures |s| == |Layout(k)| + 1
  {
    seq(|Layout(k)| + 1, i requires 0 <= i <= |Layout(k)| => PREFIX_SIZE + Size(Layout(k)[..i]))
  }

  lemma OffsetsAre(k: Kind, sums: seq<nat>)
    requires |sums| == |Layout(k)| + 1 && sums[0] == 0 && forall i :: 0 <= i < |Layout(k)| ==> sums[i + 1] == sums[i] + Octets(Layout(k)[i])
    ensures forall i :: 0 <= i < |sums| ==> Offsets(k)[i] == PREFIX_SIZE + sums[i]
  {
    hide Size, Layout;
    SizeSums(Layout(k), sums);
  }

  lemma DataOffsets()
    ensures TypeOf(Kind.Data) == 1 && Offsets(Kind.Data) == [11, 12, 13, 17, 21, 22, 23, 24, 26]
  {
    hide Size, Octets;
    var sums: seq<nat> := [0, 1, 2, 6, 10, 11, 12, 13, 15];
    assert Octets(Octet) == 1 && Octets(Half) == 2 && Octets(Word) == 4 by { Widths(); }
    OffsetsAre(Kind.Data, sums);
  }

  lemma LinkReportOffsets()
    ensures TypeOf(Kind.LinkReport) == 3 && Offsets(Kind.LinkReport) == [11, 13, 17, 18, 22, 23, 24, 25, 27, 31, 35, 36, 38, 39]
  {
    hide Size, Octets;
    var sums: seq<nat> := [0, 2, 6, 7, 11, 12, 13, 14, 16, 20, 24, 25, 27, 28];
    assert Octets(Octet) == 1 && Octets(Half) == 2 && Octets(Word) == 4 by { Widths(); }
    OffsetsAre(Kind.LinkReport, sums);
  }

  lemma HeartbeatOffsets()
    ensures TypeOf(Kind.Heartbeat) == 4 && Offsets(Kind.Heartbeat) == [11]
  {
    hide Size, Octets;
    var sums: seq<nat> := [0];
    assert Octets(Octet) == 1 && Octets(Half) == 2 && Octets(Word) == 4 by { Widths(); }
    OffsetsAre(Kind.Heartbeat, sums);
  }

  lemma CsaOffsets()
    ensures TypeOf(Kind.Csa) == 5 && Offsets(Kind.Csa) == [11, 15, 16, 18, 19, 20, 22, 24, 26, 27, 28, 32]
  {
    hide Size, Octets;
    var sums: seq<nat> := [0, 4, 5, 7, 8, 9, 11, 13, 15, 16, 17, 21];
    assert Octets(Octet) == 1 && Octets(Half) == 2 && Octets(Word) == 4 by { Widths(); }
    OffsetsAre(Kind.Csa, sums);
  }

  lemma RecoveryRequestOffsets()
    ensures TypeOf(Kind.RecoveryRequest) == 6 && Offsets(Kind.RecoveryRequest) == [11, 13, 17, 18]
  {
    hide Size, Octets;
    var sums: seq<nat> := [0, 2, 6, 7];
    assert Octets(Octet) == 1 && Octets(Half) == 2 && Octets(Word) == 4 by { Widths(); }
    OffsetsAre(Kind.RecoveryRequest, sums);
  }

  lemma JsccFeedbackOffsets()
    ensures TypeOf(Kind.JsccFeedback) == 7 && Offsets(Kind.JsccFeedback) == [11, 13, 17, 18, 22, 24, 28, 30, 32, 33, 37]
  {
    hide Size, Octets;
    var sums: seq<nat> := [0, 2, 6, 7, 11, 13, 17, 19, 21, 22, 26];
    assert Octets(Octet) == 1 && Octets(Half) == 2 && Octets(Word) == 4 by { Widths(); }
    OffsetsAre(Kind.JsccFeedback, sums);
  }

  lemma CacheStatusOffsets()
    ensures TypeOf(Kind.CacheStatus) == 8 && Offsets(Kind.CacheStatus) == [11, 13, 17, 18, 22, 26, 28, 29]
  {
    hide Size, Octets;
    var sums: seq<nat> := [0, 2, 6, 7, 11, 15, 17, 18];
    assert Octets(Octet) == 1 && Octets(Half) == 2 && Octets(Word) == 4 by { Widths(); }
    OffsetsAre(Kind.CacheStatus, sums);
  }

  lemma CacheRequestOffsets()
    ensures TypeOf(Kind.CacheRequest) == 9 && Offsets(Kind.CacheRequest) == [11, 13, 17, 18, 20, 24, 28, 30, 31, 32]
  {
    hide Size, Octets;
    var sums: seq<nat> := [0, 2, 6, 7, 9, 13, 17, 19, 20, 21];
    assert Octets(Octet) == 1 && Octets(Half) == 2 && Octets(Word) == 4 by { Widths(); }
    OffsetsAre(Kind.CacheRequest, sums);
  }

  lemma CacheReplyOffsets()
    ensures TypeOf(Kind.CacheReply) == 10 && Offsets(Kind.CacheReply) == [11, 15, 17]
  {
    hide Size, Octets;
    var sums: seq<nat> := [0, 4, 6];
    assert Octets(Octet) == 1 && Octets(Half) == 2 && Octets(Word) == 4 by { Widths(); }
    OffsetsAre(Kind.CacheReply, sums);
  }

  lemma AnnounceOffsets()
    ensures TypeOf(Kind.Announce) == 11 && Offsets(Kind.Announce) == [11, 12, 14]
  {
    hide Size, Octets;
    var sums: seq<nat> := [0, 1, 3];
    assert Octets(Octet) == 1 && Octets(Half) == 2 && Octets(Word) == 4 by { Widths(); }
    OffsetsAre(Kind.Announce, sums);
  }

  lemma CacheAssignOffsets()
    ensures TypeOf(Kind.CacheAssign) == 12 && Offsets(Kind.CacheAssign) == [11, 13, 15, 19, 21, 22, 23]
  {
    hide Size, Octets;
    var sums: seq<nat> := [0, 2, 4, 8, 10, 11, 12];
    assert Octets(Octet) == 1 && Octets(Half) == 2 && Octets(Word) == 4 by { Widths(); }
    OffsetsAre(Kind.CacheAssign, sums);
  }

  lemma VehicleCmdOffsets()
    ensures TypeOf(Kind.VehicleCmd) == 13 && Offsets(Kind.VehicleCmd) == [11, 15, 16, 17, 18, 19, 23]
  {
    hide Size, Octets;
    var sums: seq<nat> := [0, 4, 5, 6, 7, 8, 12];
    assert Octets(Octet) == 1 && Octets(Half) == 2 && Octets(Word) == 4 by { Widths(); }
    OffsetsAre(Kind.VehicleCmd, sums);
  }

  lemma SelectorWidths(i: nat)
    requires i < 18
    ensures |Layout(SelectorState)| == 18
    ensures Octets(Layout(SelectorState)[i]) == if i == 13 then 4 else if i == 7 || i == 9 || i == 12 || i == 15 then 2 else 1
  {
  }

  const SELECTOR_SUMS: seq<nat> := [0, 1, 2, 3, 4, 5, 6, 7, 9, 10] + [12, 13, 14, 16, 20, 21, 23, 24, 25]

  lemma SelectorSum(i: nat)
    requires i < 18
    ensures SELECTOR_SUMS[i + 1] == SELECTOR_SUMS[i] + Octets(Layout(SelectorState)[i])
  {
    SelectorWidths(i);
    hide Layout, Octets;
  }

  lemma SelectorStateOffsets()
    ensures TypeOf(Kind.SelectorState) == 14 && Offsets(Kind.SelectorState) == [11, 12, 13, 14, 15, 16, 17, 18, 20, 21, 23, 24, 25, 27, 31, 32, 34, 35, 36]
  {
    SelectorWidths(0);
    assert |SELECTOR_SUMS| == 19 && SELECTOR_SUMS[0] == 0;
    hide Size, Octets, Layout;
    forall i | 0 <= i < 18 ensures SELECTOR_SUMS[i + 1] == SELECTOR_SUMS[i] + Octets(Layout(SelectorState)[i]) { SelectorSum(i); }
    OffsetsAre(Kind.SelectorState, SELECTOR_SUMS);
  }

  lemma CalProbeOffsets()
    ensures TypeOf(Kind.CalProbe) == 15 && Offsets(Kind.CalProbe) == [11, 12, 16, 18, 20, 22]
  {
    hide Size, Octets;
    var sums: seq<nat> := [0, 1, 5, 7, 9, 11];
    assert Octets(Octet) == 1 && Octets(Half) == 2 && Octets(Word) == 4 by { Widths(); }
    OffsetsAre(Kind.CalProbe, sums);
  }

  lemma CalTallyOffsets()
    ensures TypeOf(Kind.CalTally) == 15 && Offsets(Kind.CalTally) == [11, 12, 16, 18, 20, 24, 25, 26]
  {
    hide Size, Octets;
    var sums: seq<nat> := [0, 1, 5, 7, 9, 13, 14, 15];
    assert Octets(Octet) == 1 && Octets(Half) == 2 && Octets(Word) == 4 by { Widths(); }
    OffsetsAre(Kind.CalTally, sums);
  }

  lemma LinkVerdictOffsets()
    ensures TypeOf(Kind.LinkVerdict) == 15 && Offsets(Kind.LinkVerdict) == [11, 12, 14, 18, 22, 23]
  {
    hide Size, Octets;
    var sums: seq<nat> := [0, 1, 3, 7, 11, 12];
    assert Octets(Octet) == 1 && Octets(Half) == 2 && Octets(Word) == 4 by { Widths(); }
    OffsetsAre(Kind.LinkVerdict, sums);
  }

  lemma Widths()
    ensures Octets(Octet) == 1 && Octets(Half) == 2 && Octets(Word) == 4
  {
  }

  /** The type codes and the offsets of every field and tail, as the format's tables give them. */
  lemma Tables()
    ensures TypeOf(Kind.Data) == 1 && Offsets(Kind.Data) == [11, 12, 13, 17, 21, 22, 23, 24, 26]
    ensures TypeOf(Kind.LinkReport) == 3 && Offsets(Kind.LinkReport) == [11, 13, 17, 18, 22, 23, 24, 25, 27, 31, 35, 36, 38, 39]
    ensures TypeOf(Kind.Heartbeat) == 4 && Offsets(Kind.Heartbeat) == [11]
    ensures TypeOf(Kind.Csa) == 5 && Offsets(Kind.Csa) == [11, 15, 16, 18, 19, 20, 22, 24, 26, 27, 28, 32]
    ensures TypeOf(Kind.RecoveryRequest) == 6 && Offsets(Kind.RecoveryRequest) == [11, 13, 17, 18]
    ensures TypeOf(Kind.JsccFeedback) == 7 && Offsets(Kind.JsccFeedback) == [11, 13, 17, 18, 22, 24, 28, 30, 32, 33, 37]
    ensures TypeOf(Kind.CacheStatus) == 8 && Offsets(Kind.CacheStatus) == [11, 13, 17, 18, 22, 26, 28, 29]
    ensures TypeOf(Kind.CacheRequest) == 9 && Offsets(Kind.CacheRequest) == [11, 13, 17, 18, 20, 24, 28, 30, 31, 32]
    ensures TypeOf(Kind.CacheReply) == 10 && Offsets(Kind.CacheReply) == [11, 15, 17]
    ensures TypeOf(Kind.Announce) == 11 && Offsets(Kind.Announce) == [11, 12, 14]
    ensures TypeOf(Kind.CacheAssign) == 12 && Offsets(Kind.CacheAssign) == [11, 13, 15, 19, 21, 22, 23]
    ensures TypeOf(Kind.VehicleCmd) == 13 && Offsets(Kind.VehicleCmd) == [11, 15, 16, 17, 18, 19, 23]
    ensures TypeOf(Kind.SelectorState) == 14 && Offsets(Kind.SelectorState) == [11, 12, 13, 14, 15, 16, 17, 18, 20, 21, 23, 24, 25, 27, 31, 32, 34, 35, 36]
    ensures TypeOf(Kind.CalProbe) == 15 && Offsets(Kind.CalProbe) == [11, 12, 16, 18, 20, 22]
    ensures TypeOf(Kind.CalTally) == 15 && Offsets(Kind.CalTally) == [11, 12, 16, 18, 20, 24, 25, 26]
    ensures TypeOf(Kind.LinkVerdict) == 15 && Offsets(Kind.LinkVerdict) == [11, 12, 14, 18, 22, 23]
  {
    hide *;
    DataOffsets();
    LinkReportOffsets();
    HeartbeatOffsets();
    CsaOffsets();
    RecoveryRequestOffsets();
    JsccFeedbackOffsets();
    CacheStatusOffsets();
    CacheRequestOffsets();
    CacheReplyOffsets();
    AnnounceOffsets();
    CacheAssignOffsets();
    VehicleCmdOffsets();
    SelectorStateOffsets();
    CalProbeOffsets();
    CalTallyOffsets();
    LinkVerdictOffsets();
  }
}
