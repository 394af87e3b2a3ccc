/** The rate probe's evidence window: which sequence numbers arrived, which probes are credited and which charged. */
module McsProbe {
  import opened Bytes

  const RING := 1024
  const UNKNOWN_MCS: Byte := 0xFF

  datatype Profile = Profile(id: Byte, mcs: Byte)

  datatype Params = Params(profiles: seq<Profile>, period: U16, slot: U16, version: Option<Byte>, minSamples: U32,
                           maxAgeMs: U32, horizon: U32)

  predicate SlotHit(params: Params, n: U32) {
    params.period != 0 && n % params.period == params.slot
  }

  // ---- candidate ------------------------------------------------------------------------------------

  function Find(profiles: seq<Profile>, id: Byte): Option<Profile> {
    if profiles == [] then None
    else
      var p := profiles[|profiles| - 1];
      if p.id == id then Some(p) else Find(profiles[..|profiles| - 1], id)
  }

  /** The first profile with the smallest id above a given one. */
  function NextAbove(profiles: seq<Profile>, id: Byte): (r: Option<Profile>)
    ensures r.Some? ==> r.value in profiles && r.value.id > id
    ensures forall p :: p in profiles && p.id > id ==> r.Some? && r.value.id <= p.id
  {
    if profiles == [] then None
    else
      var rest, p := NextAbove(profiles[..|profiles| - 1], id), profiles[|profiles| - 1];
      if p.id > id && (rest.None? || p.id < rest.value.id) then Some(p) else rest
  }

  function TopId(profiles: seq<Profile>): (t: Byte)
    ensures forall p :: p in profiles ==> p.id <= t
  {
    if profiles == [] then 0
    else
      var rest, p := TopId(profiles[..|profiles| - 1]), profiles[|profiles| - 1];
      if p.id > rest then p.id else rest
  }

  /** The mcs one rung up, unless there is none, it is the same rate, or the pin forbids it. */
  function UpCandidate(profiles: seq<Profile>, active: Byte, max: Byte): Option<Byte> {
    var cur, next := Find(profiles, active), NextAbove(profiles, active);
    if cur.None? || next.None? || next.value.mcs == cur.value.mcs then None
    else if next.value.id > (if Find(profiles, max).Some? then max else TopId(profiles)) then None
    else Some(next.value.mcs)
  }

  /** A max id the ladder does not have never clamps. */
  lemma UnknownPinFree(profiles: seq<Profile>, active: Byte, max: Byte)
    requires Find(profiles, max).None?
    ensures UpCandidate(profiles, active, max) ==
            (var cur, next := Find(profiles, active), NextAbove(profiles, active);
             if cur.None? || next.None? || next.value.mcs == cur.value.mcs then None else Some(next.value.mcs))
  {
  }

  method ProbeUpCandidate(profiles: seq<Profile>, active: Byte, max: Byte) returns (mcs: Option<Byte>)
    ensures mcs == UpCandidate(profiles, active, max)
  {
    var cur: Option<Profile> := None;
    var next: Option<Profile> := None;
    var top: Byte := 0;
    var known := false;
    var i := 0;
    while i < |profiles|
      invariant 0 <= i <= |profiles|
      invariant cur == Find(profiles[..i], active) && next == NextAbove(profiles[..i], active)
      invariant top == TopId(profiles[..i]) && known == Find(profiles[..i], max).Some?
    {
      assert profiles[..i + 1][..i] == profiles[..i];
      var p := profiles[i];
      if p.id == active {
        cur := Some(p);
      } else if p.id > active && (next.None? || p.id < next.value.id) {
        next := Some(p);
      }
      known := known || p.id == max;
      top := if p.id > top then p.id else top;
      i := i + 1;
    }
    assert profiles[..i] == profiles;
    if cur.None? || next.None? || next.value.mcs == cur.value.mcs {
      return None;
    }
    if next.value.id > (if known then max else top) {
      return None;
    }
    return Some(next.value.mcs);
  }

  // ---- the window, with the arrivals as a set ---------------------------------------------------------

  /** Operating context: the sender's profile, its rate and the candidate rate. */
  datatype Context = Context(profile: Byte, selected: Byte, candidate: Option<Byte>)

  /** Highest sequence number seen, how far the gap walk got, and what arrived, was credited and was charged in this context. */
  datatype Track = Track(head: U32, walked: U32, arrived: set<nat>, credited: set<nat>, charged: set<nat>)

  datatype Counts = Counts(successes: nat, failures: nat, observed: nat, startMs: nat)

  datatype Window = Window(context: Option<Context>, confirmed: bool, counts: Counts, track: Option<Track>)

  const CLOSED := Window(None, false, Counts(0, 0, 0, 0), None)

  function Cleared(w: Window): Window {
    w.(context := None, confirmed := false, counts := w.counts.(successes := 0, failures := 0, observed := 0), track := None)
  }

  function Entered(params: Params, w: Window, profile: Byte, now: nat): Window {
    var cur := Find(params.profiles, profile);
    if cur.None? then Cleared(w)
    else
      Cleared(w).(context := Some(Context(profile, cur.value.mcs, UpCandidate(params.profiles, profile, 255))),
                  counts := Counts(0, 0, 0, now))
  }

  function Aged(params: Params, c: Counts, now: nat): Counts {
    if Since(now, c.startMs) > params.maxAgeMs then Counts(0, 0, 0, now) else c
  }

  /** May missing probes be charged? */
  predicate Charging(w: Window) {
    w.context.Some? && w.context.value.candidate.Some? && w.confirmed
  }

  /** Missing probe slots the walk passes on its way to a new position. */
  function Missing(params: Params, t: Track, upTo: nat): set<nat> {
    set s | t.walked < s <= upTo && s < 0x1_0000_0000 && s !in t.arrived && SlotHit(params, s)
  }

  /** How far the walk goes: never behind the ring, never closer to the head than the horizon. */
  function WalkFrom(t: Track): nat {
    if t.head >= t.walked && t.head - t.walked > RING then t.head - RING else t.walked
  }

  function WalkTo(params: Params, t: Track): nat {
    if t.head > WalkFrom(t) + params.horizon then t.head - params.horizon else WalkFrom(t)
  }

  function Walked(params: Params, w: Window, t: Track): (r: Window)
    requires t.walked <= t.head
    ensures r.track.Some? && r.context == w.context && r.track.value.walked <= r.track.value.head
  {
    var from := t.(walked := WalkFrom(t));
    var lost := if Charging(w) then Missing(params, from, WalkTo(params, t)) else {};
    w.(track := Some(t.(walked := WalkTo(params, t), charged := t.charged + lost)),
       counts := w.counts.(failures := w.counts.failures + |lost|))
  }

  /** The walk never passes the head, and a track belongs to a context. */
  predicate Sane(w: Window) {
    w.track.Some? ==> w.context.Some? && w.track.value.walked <= w.track.value.head
  }

  /** A frame of the context: new head, classified late copy, or one no longer classifiable. */
  datatype Placed = Unplaced | Placed(w: Window, first: bool)

  function Placing(params: Params, w: Window, n: U32): (p: Placed)
    requires Sane(w) && w.context.Some?
    ensures p.Placed? ==> p.w.track.Some? && p.w.context == w.context && Sane(p.w)
  {
    if w.track.None? then Placed(w.(track := Some(Track(n, n, {n as nat}, {}, {}))), true)
    else
      var t := w.track.value;
      if n > t.head then
        Placed(Walked(params, w, t.(head := n, arrived := t.arrived + {n}, walked := if n - t.head >= RING then n else t.walked)), true)
      else if t.head - n >= RING || n <= t.walked then Unplaced
      else Placed(w.(track := Some(t.(arrived := t.arrived + {n}))), n !in t.arrived)
  }

  /** The walk looks at no track but the one it is given. */
  lemma WalkedAlike(params: Params, w: Window, w': Window, t: Track)
    requires t.walked <= t.head && w' == w.(track := w'.track)
    ensures Walked(params, w', t) == Walked(params, w, t)
  {
    hide Missing;
  }

  lemma HeadMoves(params: Params, w: Window, n: U32)
    requires Sane(w) && w.context.Some? && w.track.Some? && n > w.track.value.head
    ensures var t := w.track.value;
            Placing(params, w, n)
            == Placed(Walked(params, w, t.(head := n, arrived := t.arrived + {n}, walked := if n - t.head >= RING then n else t.walked)), true)
  {
    hide Walked;
  }

  /** A probe slot earns a success at the candidate rate, once; any other frame tells whether the commanded rate flies. */
  function Scored(params: Params, w: Window, n: U32, rxMcs: Byte, first: bool): (r: Window)
    requires w.context.Some? && w.track.Some?
    ensures Sane(w) ==> Sane(r)
  {
    var c, t := w.context.value, w.track.value;
    if SlotHit(params, n) then
      if first && c.candidate == Some(rxMcs) then
        w.(counts := w.counts.(successes := w.counts.successes + 1, observed := w.counts.observed + 1),
           track := Some(t.(credited := t.credited + {n})))
      else w
    else if rxMcs == c.selected then w.(confirmed := true)
    else if rxMcs != UNKNOWN_MCS then w.(confirmed := false)
    else w
  }

  /** The window the frame is judged in: its profile's context, with stale counts dropped. */
  function Prepared(params: Params, w: Window, profile: Byte, now: nat): (r: Window)
    requires Sane(w)
    ensures Sane(r)
  {
    var e := if w.context.None? || w.context.value.profile != profile then Entered(params, w, profile, now) else w;
    if e.context.None? then e else e.(counts := Aged(params, e.counts, now))
  }

  predicate Scheduled(params: Params, version: Byte) {
    params.period != 0 && (params.version.Some? ==> version == params.version.value)
  }

  function Framed(params: Params, w: Window, n: U32, profile: Byte, version: Byte, rxMcs: Byte, now: nat): (r: Window)
    requires Sane(w)
    ensures Sane(r)
  {
    if !Scheduled(params, version) then w
    else
      var ready := Prepared(params, w, profile, now);
      if ready.context.None? then ready
      else
        match Placing(params, ready, n)
        case Unplaced => ready
        case Placed(placed, first) => Scored(params, placed, n, rxMcs, first)
  }

  /** Corrupt frames at the candidate rate fail it without moving the walk. */
  function Corrupted(params: Params, w: Window, rxMcs: Byte, count: nat, now: nat): Window {
    if params.period == 0 || !Charging(w) || count == 0 then w
    else
      var c := Aged(params, w.counts, now);
      if w.context.value.candidate == Some(rxMcs)
      then w.(counts := c.(failures := c.failures + count, observed := c.observed + count))
      else w.(counts := c)
  }

  function PerMille(part: nat, whole: nat): (r: nat)
    requires part <= whole && whole > 0
    ensures r <= 1000
  {
    Quotient(part * 1000, whole, 1000);
    part * 1000 / whole
  }

  /** The reported failure rate, in permille, once it rests on enough direct evidence. */
  function Reported(params: Params, w: Window, now: nat): (per: Option<nat>)
    ensures per.Some? ==> per.value <= 1000
    ensures per.Some? ==> w.counts.observed > 0
  {
    var total := w.counts.successes + w.counts.failures;
    if w.context.None? || w.context.value.candidate.None? || Since(now, w.counts.startMs) > params.maxAgeMs then None
    else if total < params.minSamples || w.counts.observed == 0 then None
    else
      if total == 0 then None else Some(PerMille(w.counts.failures, total))
  }

  lemma Floors(a: nat, d: nat)
    requires d > 0
    ensures a / d * d <= a < (a / d + 1) * d
  {
    assert a / d * d + a % d == a;
  }

  lemma PerMilleMeans(part: nat, whole: nat)
    requires part <= whole && whole > 0
    ensures PerMille(part, whole) * whole <= 1000 * part < (PerMille(part, whole) + 1) * whole
    ensures part == 0 ==> PerMille(part, whole) == 0
    ensures part == whole ==> PerMille(part, whole) == 1000
  {
    Floors(part * 1000, whole);
    var r := PerMille(part, whole);
    hide PerMille;
    if part == 0 && r > 0 { Larger(0, r, whole); }
    if part == whole && r < 1000 { Larger(r, 1000, whole); }
  }

  /** It is the failures' share in permille, rounded down: nothing without failures, everything without successes. */
  lemma ReportedRate(params: Params, w: Window, now: nat)
    requires Reported(params, w, now).Some?
    ensures var r, total := Reported(params, w, now).value, w.counts.successes + w.counts.failures;
            && r * total <= 1000 * w.counts.failures < (r + 1) * total
            && (w.counts.failures == 0 ==> r == 0)
            && (w.counts.successes == 0 ==> r == 1000)
  {
    hide PerMille;
    PerMilleMeans(w.counts.failures, w.counts.successes + w.counts.failures);
  }

  /** More failures against the same successes never report less. */
  lemma RateRises(params: Params, w: Window, more: Window, now: nat)
    requires Reported(params, w, now).Some? && Reported(params, more, now).Some?
    requires more.counts.successes == w.counts.successes && more.counts.failures >= w.counts.failures
    ensures Reported(params, more, now).value >= Reported(params, w, now).value
  {
    hide *;
    ReportedRate(params, w, now);
    ReportedRate(params, more, now);
    ShareRises(w.counts.successes, w.counts.failures, more.counts.failures, Reported(params, w, now).value, Reported(params, more, now).value);
  }

  lemma ShareRises(s: nat, a: nat, b: nat, r: nat, q: nat)
    requires a <= b && r <= 1000 && r * (s + a) <= 1000 * a && 1000 * b < (q + 1) * (s + b)
    ensures q >= r
  {
    if q < r {
      if q + 1 < r { Larger(q + 1, r, s + b); }
      assert 1000 * b < r * (s + b);
      assert r * (s + b) == r * (s + a) + r * (b - a);
      if r < 1000 { Larger(r, 1000, b - a); }
    }
  }

  lemma Larger(x: nat, y: nat, d: nat)
    requires x < y
    ensures x * d + d <= y * d
  {
    assert (y - x - 1) * d >= 0;
    assert (y - x - 1) * d == y * d - x * d - d;
  }

  lemma Quotient(a: nat, d: nat, b: nat)
    requires d > 0 && a <= b * d
    ensures a / d <= b
  {
    if a / d > b { Larger(b, a / d, d); }
  }

  // ---- what holds of every window ----------------------------------------------------------------------

  /** Credits and charges never meet, and nothing ahead of the walk is charged. */
  ghost predicate Fair(w: Window) {
    w.track.Some? ==>
      var t := w.track.value;
      && w.context.Some? && t.walked <= t.head && t.head - t.walked <= RING && t.head as nat in t.arrived
      && (forall s :: s in t.arrived ==> s <= t.head)
      && (forall s :: s in t.credited ==> s in t.arrived && s !in t.charged)
      && (forall s :: s in t.charged ==> s <= t.walked)
  }

  lemma WalkedFair(params: Params, w: Window, t: Track)
    requires t.walked <= t.head && t.head as nat in t.arrived && w.context.Some?
    requires forall s :: s in t.arrived ==> s <= t.head
    requires forall s :: s in t.credited ==> s in t.arrived && s !in t.charged
    requires forall s :: s in t.charged ==> s <= t.walked
    ensures var r := Walked(params, w, t);
            && Fair(r) && r.track.value.credited == t.credited && t.charged <= r.track.value.charged
            && r.counts.failures - w.counts.failures == |r.track.value.charged| - |t.charged|
            && r.counts == w.counts.(failures := r.counts.failures)
  {
    var from := t.(walked := WalkFrom(t));
    var lost := if Charging(w) then Missing(params, from, WalkTo(params, t)) else {};
    assert t.charged !! lost;
    assert |t.charged + lost| == |t.charged| + |lost|;
    hide SlotHit;
  }

  /** A frame credits at most its own sequence number, once, and charges each missing probe once; the counts say so. */
  lemma FramedFair(params: Params, w: Window, n: U32, profile: Byte, version: Byte, rxMcs: Byte, now: nat)
    requires Fair(w)
    ensures Sane(w)
    ensures Fair(Framed(params, w, n, profile, version, rxMcs, now))
    ensures Scheduled(params, version) && w.track.Some? && w.context.value.profile == profile ==>
      var r, c := Framed(params, w, n, profile, version, rxMcs, now), Aged(params, w.counts, now);
      && r.track.Some? && w.track.value.charged <= r.track.value.charged && w.track.value.credited <= r.track.value.credited
      && r.counts.successes - c.successes == |r.track.value.credited| - |w.track.value.credited|
      && r.counts.failures - c.failures == |r.track.value.charged| - |w.track.value.charged|
  {
    if Scheduled(params, version) {
      var ready := Prepared(params, w, profile, now);
      assert Fair(ready);
      assert w.track.Some? && w.context.value.profile == profile ==> ready == w.(counts := Aged(params, w.counts, now));
      hide Prepared, Placing, Scored, Fair, Aged, SlotHit;
      if ready.context.Some? && Placing(params, ready, n).Placed? {
        var placed := Placing(params, ready, n);
        PlacingFair(params, ready, n);
        ScoredFair(params, placed.w, n, rxMcs, placed.first);
      }
    }
  }

  lemma ScoredFair(params: Params, w: Window, n: U32, rxMcs: Byte, first: bool)
    requires Fair(w) && w.context.Some? && w.track.Some? && n as nat in w.track.value.arrived
    requires first ==> n as nat !in w.track.value.credited && n as nat !in w.track.value.charged
    ensures var r := Scored(params, w, n, rxMcs, first);
            && Fair(r) && r.track.Some? && r.track.value.charged == w.track.value.charged
            && w.track.value.credited <= r.track.value.credited && r.counts.failures == w.counts.failures
            && r.counts.successes - w.counts.successes == |r.track.value.credited| - |w.track.value.credited|
  {
    hide SlotHit;
  }

  lemma PlacingFair(params: Params, w: Window, n: U32)
    requires Fair(w) && Sane(w) && w.context.Some?
    ensures var p := Placing(params, w, n);
            p.Placed? ==>
              && Fair(p.w) && n as nat in p.w.track.value.arrived
              && (p.first ==> n as nat !in p.w.track.value.credited && n as nat !in p.w.track.value.charged)
              && (w.track.Some? ==>
                    && p.w.track.value.credited == w.track.value.credited && w.track.value.charged <= p.w.track.value.charged
                    && p.w.counts.failures - w.counts.failures == |p.w.track.value.charged| - |w.track.value.charged|
                    && p.w.counts.successes == w.counts.successes)
  {
    if w.track.Some? {
      var t := w.track.value;
      if n > t.head {
        var t' := t.(head := n, arrived := t.arrived + {n}, walked := if n - t.head >= RING then n else t.walked);
        WalkedFair(params, w, t');
        assert n as nat !in Missing(params, t'.(walked := WalkFrom(t')), WalkTo(params, t'));
      }
    }
  }

  /** The frame is of the context's profile and still classifiable. */
  predicate Classifiable(params: Params, w: Window, n: U32, profile: Byte, version: Byte) {
    && params.period != 0 && (params.version.Some? ==> params.version.value == version)
    && w.track.Some? && w.context.Some? && w.context.value.profile == profile
    && var t := w.track.value; if n > t.head then n - t.head < RING else t.head - n < RING && n > t.walked
  }

  /**
   * The first copy of a classifiable frame is credited exactly when it is in a probe slot and flew at the candidate rate; a frame
   * outside the slots confirms the commanded rate or, at another known rate, denies it.
   */
  lemma FrameCredits(params: Params, w: Window, n: U32, profile: Byte, version: Byte, rxMcs: Byte, now: nat)
    requires Fair(w) && Classifiable(params, w, n, profile, version) && n as nat !in w.track.value.arrived
    ensures var c, slot := w.context.value, n % params.period == params.slot;
            var r, before := Framed(params, w, n, profile, version, rxMcs, now), Aged(params, w.counts, now);
            && r.context == w.context && r.track.Some? && n as nat in r.track.value.arrived
            && (n as nat in r.track.value.credited <==> slot && c.candidate == Some(rxMcs))
            && r.counts.successes == before.successes + (if slot && c.candidate == Some(rxMcs) then 1 else 0)
            && r.counts.observed == before.observed + (if slot && c.candidate == Some(rxMcs) then 1 else 0)
            && (r.confirmed <==> if slot || (rxMcs == UNKNOWN_MCS && c.selected != UNKNOWN_MCS) then w.confirmed else rxMcs == c.selected)
  {
    var ready := w.(counts := Aged(params, w.counts, now));
    assert Prepared(params, w, profile, now) == ready;
    hide Prepared, Aged;
    PlacingFair(params, ready, n);
    var placed := Placing(params, ready, n);
    PlacedFirst(params, ready, n);
    hide Placing, Fair, Sane;
  }

  lemma PlacedFirst(params: Params, w: Window, n: U32)
    requires Fair(w) && Sane(w) && w.track.Some? && n as nat !in w.track.value.arrived
    requires var t := w.track.value; if n > t.head then n - t.head < RING else t.head - n < RING && n > t.walked
    ensures var p := Placing(params, w, n);
            && p.Placed? && p.first && p.w.confirmed == w.confirmed && p.w.context == w.context
            && p.w.counts == w.counts.(failures := p.w.counts.failures) && p.w.track.value.credited == w.track.value.credited
  {
    hide Missing;
  }

  /**
   * A new head charges exactly the probe slots the walk passes, up to the horizon behind it, that never arrived, while the commanded
   * rate is confirmed and there is a candidate.
   */
  lemma HeadCharges(params: Params, w: Window, n: U32, profile: Byte, version: Byte, rxMcs: Byte, now: nat, s: nat)
    requires Fair(w) && Classifiable(params, w, n, profile, version) && n > w.track.value.head && n - w.track.value.walked <= RING
    ensures var t, r := w.track.value, Framed(params, w, n, profile, version, rxMcs, now);
            && r.track.Some? && r.track.value.walked == (if n > t.walked + params.horizon then n - params.horizon else t.walked)
            && (s in r.track.value.charged <==>
                  || s in t.charged
                  || (w.confirmed && w.context.value.candidate.Some? && t.walked < s && s + params.horizon <= n && s !in t.arrived && s != n
                      && s % params.period == params.slot))
  {
    var ready := w.(counts := Aged(params, w.counts, now));
    assert Prepared(params, w, profile, now) == ready;
    hide Prepared, Aged;
    HeadPlaced(params, ready, n);
    var p := Placing(params, ready, n);
    hide Placing, Fair, Missing, SlotHit;
    ScoredSame(params, p.w, n, rxMcs, p.first);
    MissingMeans(params, w.track.value.(arrived := w.track.value.arrived + {n as nat}), p.w.track.value.walked, s);
    hide Scored;
  }

  lemma ScoredSame(params: Params, w: Window, n: U32, rxMcs: Byte, first: bool)
    requires w.context.Some? && w.track.Some?
    ensures var r := Scored(params, w, n, rxMcs, first).track;
            r.Some? && r.value.charged == w.track.value.charged && r.value.walked == w.track.value.walked
  {
  }

  lemma MissingMeans(params: Params, t: Track, upTo: nat, s: nat)
    requires params.period != 0 && upTo < 0x1_0000_0000
    ensures s in Missing(params, t, upTo) <==> t.walked < s <= upTo && s !in t.arrived && s % params.period == params.slot
  {
  }

  lemma HeadPlaced(params: Params, w: Window, n: U32)
    requires Fair(w) && Sane(w) && w.track.Some? && n > w.track.value.head && n - w.track.value.head < RING && n - w.track.value.walked <= RING
    ensures var t, p := w.track.value, Placing(params, w, n);
            && p.Placed? && p.w.track.value.walked == (if n > t.walked + params.horizon then n - params.horizon else t.walked)
            && p.w.track.value.charged == t.charged
               + (if w.context.value.candidate.Some? && w.confirmed
                  then Missing(params, t.(arrived := t.arrived + {n as nat}), p.w.track.value.walked) else {})
  {
    var t := w.track.value.(head := n, arrived := w.track.value.arrived + {n as nat});
    assert WalkFrom(t) == t.walked;
    assert Missing(params, t, WalkTo(params, t)) == Missing(params, w.track.value.(arrived := t.arrived), WalkTo(params, t));
    hide Missing;
  }

  /** What reaches the window. */
  datatype Input = Frame(n: U32, profile: Byte, version: Byte, rxMcs: Byte, now: nat) | Crc(rxMcs: Byte, count: nat, now: nat)

  ghost function Run(params: Params, inputs: seq<Input>): (w: Window)
    ensures Sane(w)
  {
    if inputs == [] then CLOSED
    else
      var w := Run(params, inputs[..|inputs| - 1]);
      match inputs[|inputs| - 1]
      case Frame(n, profile, version, rxMcs, now) => Framed(params, w, n, profile, version, rxMcs, now)
      case Crc(rxMcs, count, now) => Corrupted(params, w, rxMcs, count, now)
  }

  /** Over every run, within a context no sequence number is both credited and charged, and only arrivals are credited. */
  lemma {:induction false} ScoredAtMostOnce(params: Params, inputs: seq<Input>)
    ensures Fair(Run(params, inputs))
  {
    if inputs != [] {
      ScoredAtMostOnce(params, inputs[..|inputs| - 1]);
      var w := Run(params, inputs[..|inputs| - 1]);
      match inputs[|inputs| - 1] {
        case Frame(n, profile, version, rxMcs, now) => FramedFair(params, w, n, profile, version, rxMcs, now);
        case Crc(rxMcs, count, now) =>
      }
    }
  }

  // ---- the window, with the arrivals in a ring ---------------------------------------------------------

  /** Sequence numbers less than a ring apart never share a bit. */
  lemma RingApart(s: nat, s': nat)
    requires s < s' < s + RING
    ensures s % RING != s' % RING
  {
  }

  lemma MissingStep(params: Params, t: Track, upTo: nat)
    requires t.walked <= upTo < 0xFFFF_FFFF
    ensures upTo + 1 !in Missing(params, t, upTo)
    ensures Missing(params, t, upTo + 1)
      == Missing(params, t, upTo) + (if upTo + 1 !in t.arrived && SlotHit(params, upTo + 1) then {upTo + 1} else {})
  {
    hide SlotHit;
  }

  class McsProbeWindow {
    const params: Params
    const ring: array<bool>          // one bit per sequence number, modulo the ring
    var context: Option<Context>
    var confirmed: bool
    var counts: Counts
    var haveHead: bool
    var head: U32
    var walked: U32
    ghost var arrived: set<nat>
    ghost var credited: set<nat>
    ghost var charged: set<nat>

    ghost function TrackView(): Track
      reads this
    {
      Track(head, walked, arrived, credited, charged)
    }

    ghost function View(): Window
      reads this
    {
      Window(context, confirmed, counts, if haveHead then Some(TrackView()) else None)
    }

    /** Above a position the ring says exactly which sequence numbers arrived. */
    ghost predicate Mirrors(above: int)
      requires ring.Length == RING
      reads this, ring
    {
      forall s: nat :: above < s <= head ==> (ring[s % RING] <==> s in arrived)
    }

    ghost predicate Valid()
      reads this, ring
    {
      ring.Length == RING && Fair(View()) && (haveHead ==> Mirrors(walked))
    }

    constructor (params: Params)
      ensures Valid() && View() == CLOSED && this.params == params && fresh(ring)
    {
      this.params := params;
      ring := new bool[RING];
      context, confirmed, counts, haveHead, head, walked := None, false, Counts(0, 0, 0, 0), false, 0, 0;
      arrived, credited, charged := {}, {}, {};
    }

    /** Whether a sequence number between walk and head arrived. */
    method Seen(n: U32) returns (seen: bool)
      requires Valid() && haveHead && walked < n <= head
      ensures seen <==> n as nat in arrived
    {
      seen := ring[n % RING];
    }

    method Reset()
      requires Valid()
      modifies this
      ensures Valid() && View() == Cleared(old(View()))
    {
      context, confirmed, haveHead := None, false, false;
      counts := counts.(successes := 0, failures := 0, observed := 0);
    }

    method ResetContext(profile: Byte, now: nat)
      requires Valid()
      modifies this
      ensures Valid() && View() == Entered(params, old(View()), profile, now)
    {
      Reset();
      var cur := FindProfile(params.profiles, profile);
      if cur.None? {
        return;
      }
      var candidate := ProbeUpCandidate(params.profiles, profile, 255);
      context := Some(Context(profile, cur.value.mcs, candidate));
      counts := Counts(0, 0, 0, now);
    }

    /** Free the bits of the sequence numbers entering the ring. */
    method Recycle(n: U32)
      requires ring.Length == RING && head < n < head + RING
      modifies ring
      ensures forall s: nat :: n - RING < s <= n ==> ring[s % RING] == (s <= head && old(ring[s % RING]))
    {
      var s: nat := head + 1;
      while s <= n
        invariant head < s <= n + 1
        invariant forall x: nat :: n - RING < x <= n ==> ring[x % RING] == ((x <= head || x >= s) && old(ring[x % RING]))
      {
        forall x: nat | n - RING < x <= n && x != s ensures x % RING != s % RING {
          if x < s { RingApart(x, s); } else { RingApart(s, x); }
        }
        ring[s % RING] := false;
        s := s + 1;
      }
    }

    method ClearRing()
      requires ring.Length == RING
      modifies ring
      ensures forall b :: 0 <= b < RING ==> !ring[b]
    {
      forall b | 0 <= b < RING {
        ring[b] := false;
      }
    }

    method MarkSeen(n: U32)
      requires ring.Length == RING && n <= head && head - n < RING
      modifies ring
      ensures ring[n % RING]
      ensures forall s: nat :: head - RING < s <= head && s != n ==> ring[s % RING] == old(ring[s % RING])
    {
      forall s: nat | head - RING < s <= head && s != n ensures s % RING != n % RING {
        if s < n { RingApart(s, n); } else { RingApart(n, s); }
      }
      ring[n % RING] := true;
    }

    /** The walk from a position up to the horizon behind the head, and the missing probes it passes. */
    method Walk(start: U32) returns (at: U32, failures: nat)
      requires ring.Length == RING && start <= head && Mirrors(start)
      ensures at == if head > start + params.horizon then head - params.horizon else start
      ensures failures == |Missing(params, TrackView().(walked := start), at)|
    {
      hide SlotHit, Missing;
      ghost var from := TrackView().(walked := start);
      at, failures := start, 0;
      MissingStart(params, from);
      while head - at > params.horizon
        invariant start <= at <= head && (at == start || head - at >= params.horizon)
        invariant failures == |Missing(params, from, at)|
      {
        MissingStep(params, from, at);
        at := at + 1;
        assert ring[at % RING] <==> at as nat in arrived;
        if !ring[at % RING] && SlotHit(params, at) {
          failures := failures + 1;
        }
      }
    }

    /** Settle everything further behind the head than the horizon; what never arrived is charged if anything may be. */
    method AdvanceGapWalk()
      requires ring.Length == RING && haveHead && walked <= head && context.Some? && Mirrors(if head - walked > RING then head - RING else walked)
      modifies this`walked, this`charged, this`counts
      ensures View() == Walked(params, old(View()), old(TrackView()))
      ensures walked >= old(walked) && walked >= head - RING
    {
      hide SlotHit, Missing, Fair;
      var start := if head - walked > RING then head - RING else walked;
      var at, failures := Walk(start);
      ghost var from := TrackView().(walked := start);
      walked := at;
      if context.value.candidate.Some? && confirmed {
        charged := charged + Missing(params, from, at);
        counts := counts.(failures := counts.failures + failures);
      }
    }

    /** Place a frame in the track; false when it can no longer be classified. */
    method Place(n: U32) returns (placed: bool, first: bool)
      requires Valid() && context.Some?
      modifies this`haveHead, this`head, this`walked, this`counts, this`arrived, this`credited, this`charged, ring
      ensures Valid()
      ensures placed <==> Placing(params, old(View()), n).Placed?
      ensures placed ==> Placing(params, old(View()), n) == Placed(View(), first)
      ensures !placed ==> View() == old(View())
    {
      hide SlotHit, Missing;
      ghost var was := View();
      PlacingFair(params, was, n);
      if !haveHead {
        haveHead, head, walked := true, n, n;
        arrived, credited, charged := {n}, {}, {};
        ClearRing();
        MarkSeen(n);
        return true, true;
      }
      if n > head {
        NewHead(n);
        return true, true;
      }
      if head - n >= RING || n <= walked {
        return false, false;
      }
      first := !ring[n % RING];
      assert first <==> n as nat !in arrived;
      MarkSeen(n);
      arrived := arrived + {n};
      return true, first;
    }

    /** The head moves on: recycle the bits it frees, or all of them after a blackout. */
    method MoveHead(n: U32)
      requires ring.Length == RING && walked <= head < n && head - walked <= RING && Mirrors(walked)
      requires forall s :: s in arrived ==> s <= head
      modifies this`head, this`walked, this`arrived, ring
      ensures head == n && arrived == old(arrived) + {n as nat} && walked == if n - old(head) >= RING then n else old(walked)
      ensures Mirrors(if head - walked > RING then head - RING else walked)
    {
      ghost var before := arrived;
      if n - head >= RING {
        ClearRing();
        walked := n;
      } else {
        Recycle(n);
      }
      head := n;
      arrived := arrived + {n};
      MarkSeen(n);
      assert forall s: nat :: s in before ==> s < n;
    }

    /** A frame past the head. */
    method NewHead(n: U32)
      requires Valid() && context.Some? && haveHead && n > head
      modifies this`head, this`walked, this`counts, this`arrived, this`charged, ring
      ensures Valid() && Placing(params, old(View()), n) == Placed(View(), true)
    {
      hide SlotHit, Missing, Find, UpCandidate, Placing, Walked;
      PlacingFair(params, View(), n);
      HeadMoves(params, View(), n);
      ghost var before := View();
      MoveHead(n);
      WalkedAlike(params, before, View(), TrackView());
      AdvanceGapWalk();
      hide Fair;
    }

    method Age(now: nat)
      modifies this`counts
      ensures counts == Aged(params, old(counts), now)
    {
      if Since(now, counts.startMs) > params.maxAgeMs {
        counts := Counts(0, 0, 0, now);
      }
    }

    /** Enter the frame's context and drop stale counts; false when its profile is unknown. */
    method Prepare(profile: Byte, now: nat) returns (known: bool)
      requires Valid()
      modifies this
      ensures Valid() && Sane(old(View())) && View() == Prepared(params, old(View()), profile, now)
      ensures known <==> context.Some?
    {
      if context.None? || profile != context.value.profile {
        ResetContext(profile, now);
        if context.None? {
          return false;
        }
      }
      Age(now);
      return true;
    }

    /** Guard 1 and guard 2: credit a probe at the candidate rate, or learn whether the commanded rate flies. */
    method Score(n: U32, rxMcs: Byte, first: bool)
      requires context.Some? && haveHead
      modifies this`counts, this`credited, this`confirmed
      ensures View() == Scored(params, old(View()), n, rxMcs, first)
    {
      if params.period != 0 && n % params.period == params.slot {
        if first && context.value.candidate == Some(rxMcs) {
          counts := counts.(successes := counts.successes + 1, observed := counts.observed + 1);
          credited := credited + {n};
        }
        return;
      }
      if rxMcs == context.value.selected {
        confirmed := true;
      } else if rxMcs != UNKNOWN_MCS {
        confirmed := false;
      }
    }

    /** One received video frame, from any adapter and before deduplication. */
    method OnData(n: U32, profile: Byte, version: Byte, rxMcs: Byte, now: nat)
      requires Valid()
      modifies this, ring
      ensures Valid() && Sane(old(View())) && View() == Framed(params, old(View()), n, profile, version, rxMcs, now)
    {
      hide Placing, Prepared, Scored, Missing;
      FramedFair(params, View(), n, profile, version, rxMcs, now);
      if params.period == 0 || (params.version.Some? && version != params.version.value) {
        return;
      }
      var known := Prepare(profile, now);
      if !known {
        return;
      }
      var placed, first := Place(n);
      if placed {
        Score(n, rxMcs, first);
      }
    }

    method OnCrcFrames(rxMcs: Byte, count: nat, now: nat)
      requires Valid()
      modifies this`counts
      ensures Valid() && View() == Corrupted(params, old(View()), rxMcs, count, now)
    {
      if params.period == 0 || context.None? || context.value.candidate.None? || !confirmed || count == 0 {
        return;
      }
      Age(now);
      if context.value.candidate == Some(rxMcs) {
        counts := counts.(failures := counts.failures + count, observed := counts.observed + count);
      }
    }

    method ProbePer(now: nat) returns (per: Option<nat>)
      requires Valid()
      ensures per == Reported(params, View(), now)
    {
      if context.None? || context.value.candidate.None? || Since(now, counts.startMs) > params.maxAgeMs {
        return None;
      }
      var total := counts.successes + counts.failures;
      if total < params.minSamples || counts.observed == 0 || total == 0 {
        return None;
      }
      return Some(counts.failures * 1000 / total);
    }
  }

  lemma MissingStart(params: Params, t: Track)
    ensures Missing(params, t, t.walked) == {}
  {
  }

  method FindProfile(profiles: seq<Profile>, id: Byte) returns (cur: Option<Profile>)
    ensures cur == Find(profiles, id)
  {
    cur := None;
    var i := 0;
    while i < |profiles|
      invariant 0 <= i <= |profiles| && cur == Find(profiles[..i], id)
    {
      assert profiles[..i + 1][..i] == profiles[..i];
      if profiles[i].id == id {
        cur := Some(profiles[i]);
      }
      i := i + 1;
    }
    assert profiles[..i] == profiles;
  }
}
