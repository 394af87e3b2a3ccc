/** Emulation prevention: the RBSP to NAL payload mapping of section 7.3.1.1 of ITU-T H.265. */
module NalUnit {
  import opened Bytes

  /** The run of zeros after one more byte. */
  function Run(zeros: nat, c: Byte): nat {
    if c == 0 then zeros + 1 else 0
  }

  /** Insert a 3 before any byte up to 3 that follows two zeros. */
  function Escaped(zeros: nat, s: seq<Byte>): seq<Byte>
    decreases |s|
  {
    if s == [] then []
    else if zeros >= 2 && s[0] <= 3 then [3, s[0]] + Escaped(Run(0, s[0]), s[1..])
    else [s[0]] + Escaped(Run(zeros, s[0]), s[1..])
  }

  /** Drop every 3 that follows two zeros. */
  function Unescaped(zeros: nat, p: seq<Byte>): seq<Byte>
    decreases |p|
  {
    if p == [] then []
    else if zeros >= 2 && p[0] == 3 then Unescaped(0, p[1..])
    else [p[0]] + Unescaped(Run(zeros, p[0]), p[1..])
  }

  function Capped(s: seq<Byte>, cap: nat): seq<Byte> {
    if |s| <= cap then s else s[..cap]
  }

  /** Unescaping inverts escaping, whatever run of zeros both start from. */
  lemma {:induction false} UnescapeInverts(zeros: nat, s: seq<Byte>)
    ensures Unescaped(zeros, Escaped(zeros, s)) == s
    decreases |s|
  {
    if s != [] {
      if zeros >= 2 && s[0] <= 3 {
        var rest := Escaped(Run(0, s[0]), s[1..]);
        UnescapeInverts(Run(0, s[0]), s[1..]);
        assert Escaped(zeros, s)[1..] == [s[0]] + rest;
        assert ([s[0]] + rest)[1..] == rest;
      } else {
        var rest := Escaped(Run(zeros, s[0]), s[1..]);
        UnescapeInverts(Run(zeros, s[0]), s[1..]);
        assert Escaped(zeros, s)[1..] == rest;
      }
    }
  }

  /** No two zeros followed by a byte below 3: the string cannot imitate a start code. */
  ghost predicate NoStartCode(w: seq<Byte>) {
    forall i :: 0 <= i < |w| - 2 && w[i] == 0 && w[i + 1] == 0 ==> w[i + 2] > 2
  }

  /** w ends in at least min(zeros, 2) zeros exactly when its last two bytes say so. */
  ghost predicate EndsIn(w: seq<Byte>, zeros: nat) {
    && (zeros == 0 ==> w == [] || w[|w| - 1] != 0)
    && (zeros == 1 ==> |w| >= 1 && w[|w| - 1] == 0 && (|w| >= 2 ==> w[|w| - 2] != 0))
    && (zeros >= 2 ==> |w| >= 2 && w[|w| - 1] == 0 && w[|w| - 2] == 0)
  }

  lemma AppendSafe(w: seq<Byte>, zeros: nat, c: Byte)
    requires NoStartCode(w) && EndsIn(w, zeros) && (zeros >= 2 ==> c > 2)
    ensures NoStartCode(w + [c]) && EndsIn(w + [c], Run(zeros, c))
  {
  }

  lemma Regroup(w: seq<Byte>, a: Byte, b: Byte, r: seq<Byte>)
    ensures w + ([a] + r) == w + [a] + r
    ensures w + ([a, b] + r) == w + [a] + [b] + r
  {
  }

  lemma RunOfThree(zeros: nat)
    ensures Run(zeros, 3) == 0
  {
  }

  /** Escaping after a safe prefix keeps the whole string free of start codes. */
  lemma {:induction false} EscapeIsSafe(w: seq<Byte>, zeros: nat, s: seq<Byte>)
    requires NoStartCode(w) && EndsIn(w, zeros)
    ensures NoStartCode(w + Escaped(zeros, s))
    decreases |s|
  {
    hide NoStartCode, EndsIn, Run;
    if s == [] {
      assert w + Escaped(zeros, s) == w;
    } else if zeros >= 2 && s[0] <= 3 {
      var w' := w + [3];
      AppendSafe(w, zeros, 3);
      RunOfThree(zeros);
      AppendSafe(w', 0, s[0]);
      EscapeIsSafe(w' + [s[0]], Run(0, s[0]), s[1..]);
      Regroup(w, 3, s[0], Escaped(Run(0, s[0]), s[1..]));
    } else {
      AppendSafe(w, zeros, s[0]);
      EscapeIsSafe(w + [s[0]], Run(zeros, s[0]), s[1..]);
      Regroup(w, s[0], 0, Escaped(Run(zeros, s[0]), s[1..]));
    }
  }

  /** Escaping splits at a point where the first part ends in a nonzero byte. */
  lemma {:induction false} EscapeSplits(zeros: nat, a: seq<Byte>, b: seq<Byte>)
    requires a != [] && a[|a| - 1] != 0
    ensures Escaped(zeros, a + b) == Escaped(zeros, a) + Escaped(0, b)
    decreases |a|
  {
    assert (a + b)[1..] == a[1..] + b;
    var zeros' := Run(if zeros >= 2 && a[0] <= 3 then 0 else zeros, a[0]);
    if |a| == 1 {
      assert a[1..] + b == b;
    } else {
      EscapeSplits(zeros', a[1..], b);
    }
  }

  lemma CappedPrefix(a: seq<Byte>, b: seq<Byte>)
    ensures Capped(a + b, |a|) == a
    ensures b == [] ==> a + b == a
  {
  }

  method Unescape(p: seq<Byte>, cap: nat) returns (out: seq<Byte>)
    ensures out == Capped(Unescaped(0, p), cap)
  {
    out := [];
    var zeros := 0;
    var i := 0;
    while i < |p| && |out| < cap
      invariant 0 <= i <= |p| && |out| <= cap
      invariant Unescaped(0, p) == out + Unescaped(zeros, p[i..])
    {
      var c := p[i];
      assert p[i..][1..] == p[i + 1..];
      if zeros >= 2 && c == 3 {
        zeros := 0;
      } else {
        out := out + [c];
        zeros := Run(zeros, c);
      }
      i := i + 1;
    }
    CappedPrefix(out, Unescaped(zeros, p[i..]));
    if i == |p| {
      assert p[i..] == [];
      assert Unescaped(0, p) == out;
    } else {
      assert |out| == cap;
    }
  }

  /** Start code, NAL header and escaped RBSP, appended to out. */
  method EscapeAppend(rbsp: seq<Byte>, header0: Byte, header1: Byte, out: seq<Byte>) returns (r: seq<Byte>)
    ensures r == out + [0, 0, 0, 1, header0, header1]
      + Escaped(if header1 == 0 then if header0 == 0 then 2 else 1 else 0, rbsp)
  {
    r := out + [0, 0, 0, 1, header0, header1];
    ghost var start := r;
    var zeros := if header1 == 0 then if header0 == 0 then 2 else 1 else 0;
    ghost var zeros0 := zeros;
    var i := 0;
    while i < |rbsp|
      invariant 0 <= i <= |rbsp|
      invariant start + Escaped(zeros0, rbsp) == r + Escaped(zeros, rbsp[i..])
    {
      var c := rbsp[i];
      assert rbsp[i..][1..] == rbsp[i + 1..];
      if zeros >= 2 && c <= 3 {
        r := r + [3];
        zeros := 0;
      }
      r := r + [c];
      zeros := Run(zeros, c);
      i := i + 1;
    }
    assert rbsp[i..] == [] && r + Escaped(zeros, []) == r;
  }

  /**
   * With a NAL header whose second byte is nonzero, a parser that unescapes what follows the header
   * gets the RBSP back (up to its cap), and header and payload hold no start code.
   */
  lemma NalRoundTrip(rbsp: seq<Byte>, header0: Byte, header1: Byte, cap: nat)
    requires header1 != 0
    ensures Capped(Unescaped(0, Escaped(0, rbsp)), cap) == Capped(rbsp, cap)
    ensures NoStartCode([header0, header1] + Escaped(0, rbsp))
  {
    UnescapeInverts(0, rbsp);
    EscapeIsSafe([header0, header1], 0, rbsp);
  }
}
