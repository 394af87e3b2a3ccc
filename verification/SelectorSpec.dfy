/** The rate selector's decisions as functions of its state. */
module SelectorSpec {
  import opened Bytes

  type Permille = n: int | 0 <= n <= 1000

  datatype Profile = Profile(id: Byte, mcs: Byte, shortGuard: bool, txPower: Byte, airtime: Permille, fecOverhead: Permille,
                             reserveControlBps: U32, reserveTelemetryBps: U32, bitrateMinKbps: U32)

  /** A ladder of profiles, slowest first. */
  datatype Table = Table(profiles: seq<Profile>, floorProfile: Byte)

  datatype Policy = Policy(demoteMilli: U16, emergencyMilli: U16, minUniq: U32, persistScore: Byte, lockoutMs: U32,
                           latchCount: Byte, downCooldownMs: U32, promoteDwellMs: U32, verdictTtlMs: U32,
                           vetoPermille: U16, vetoTtlMs: U32, leadMs: U32, graceMs: U32, reentryBackoffMs: U32,
                           reentryDwellMs: U32, flapCount: Byte, flapWindowMs: U32, flapFreezeMs: U32,
                           maxBitrateKbps: U32, reportTimeoutMs: U32, holdMs: U32, stepMs: U32, escapeMs: U32)

  const NO_PROBE: U16 := 0xFFFF
  const SATURATED: Byte := 2
  const TIME_MAX := 0xFFFF_FFFF_FFFF_FFFF

  // ---- bitrates ------------------------------------------------------------------------------------

  const HT20_KBPS: seq<nat> := [6500, 13000, 19500, 26000, 39000, 52000, 58500, 65000]

  /** The air rate less airtime share, FEC share and reserves, but at least the profile's minimum. */
  function Derived(p: Profile): (kbps: nat)
    ensures kbps >= p.bitrateMinKbps
  {
    if p.mcs >= 8 then p.bitrateMinKbps
    else
      var air := if p.shortGuard then HT20_KBPS[p.mcs] * 10 / 9 else HT20_KBPS[p.mcs];
      var share := air * p.airtime / 1000 * (1000 - p.fecOverhead) / 1000;
      var reserve := (p.reserveControlBps + p.reserveTelemetryBps) / 1000;
      var left := if share > reserve then share - reserve else 0;
      if left > p.bitrateMinKbps then left else p.bitrateMinKbps
  }

  function Clamped(kbps: nat, max: nat): nat {
    if max != 0 && kbps > max then max else kbps
  }

  /** What is commanded for a rung. */
  function Target(cfg: Policy, t: Table, rung: nat): nat
    requires rung < |t.profiles|
  {
    Clamped(Derived(t.profiles[rung]), cfg.maxBitrateKbps)
  }

  // ---- state ---------------------------------------------------------------------------------------

  datatype RungLoss = RungLoss(score: Byte, strikes: Byte, blockedUntil: nat, latched: bool)

  const CLEAN := RungLoss(0, 0, 0, false)

  datatype Phase = Boot | Steady | BitrateLead | McsGrace

  datatype Reason = NoReason | Booting | LossEmergency | LossPersistent | ReportTimeout | RssiFloor | RssiFade
                  | Backpressure | Promotion | Repin | EnvironmentReset

  datatype Sel = Sel(rung: nat, phase: Phase, pending: nat, deadline: nat, lastChange: nat, lastDemote: nat, bitrate: nat,
                     source: Option<(U16, U32)>, epoch: U32, haveReport: bool, lastReport: nat,
                     losses: seq<RungLoss>, observed: nat, emergency: bool,
                     demoteTimes: seq<nat>, freezeUntil: nat, demotedFrom: seq<nat>, promotedInto: seq<nat>,
                     verdict: Byte, verdictMs: nat, probe: U16, probeMs: nat,
                     csaUntil: nat, failsafeNext: nat, pressure: bool, pressureSince: nat,
                     environment: Option<(U16, Byte)>, minProfile: Byte, maxProfile: Byte, reason: Reason)

  /** What the smoothed radio measurements say at a tick. */
  datatype Rf = Rf(atFloor: bool, fading: bool, margin: bool, clean: bool)

  datatype Actions = Actions(commit: Option<Profile>, bitrate: Option<nat>)

  const NOTHING := Actions(None, None)

  // ---- envelope --------------------------------------------------------------------------------------

  function RungOf(profiles: seq<Profile>, from: nat, id: Byte, fallback: nat): nat
    requires from <= |profiles|
    decreases |profiles| - from
  {
    if from == |profiles| then fallback
    else if profiles[from].id == id then from
    else RungOf(profiles, from + 1, id, fallback)
  }

  lemma {:induction false} RungOfBound(profiles: seq<Profile>, from: nat, id: Byte, fallback: nat)
    requires from <= |profiles| && fallback < |profiles|
    ensures RungOf(profiles, from, id, fallback) < |profiles|
    decreases |profiles| - from
  {
    if from < |profiles| && profiles[from].id != id { RungOfBound(profiles, from + 1, id, fallback); }
  }

  function Hi(t: Table, st: Sel): (hi: nat)
    requires t.profiles != []
    ensures hi < |t.profiles|
  {
    RungOfBound(t.profiles, 0, st.maxProfile, |t.profiles| - 1);
    RungOf(t.profiles, 0, st.maxProfile, |t.profiles| - 1)
  }

  function Lo(t: Table, st: Sel): (lo: nat)
    requires t.profiles != []
    ensures lo <= Hi(t, st)
  {
    var lo := RungOf(t.profiles, 0, st.minProfile, 0);
    if lo > Hi(t, st) then Hi(t, st) else lo
  }

  function ClampRung(t: Table, st: Sel, r: nat): (c: nat)
    requires t.profiles != []
    ensures Lo(t, st) <= c <= Hi(t, st)
  {
    if r < Lo(t, st) then Lo(t, st) else if r > Hi(t, st) then Hi(t, st) else r
  }

  /** The lowest rung any demotion goes to. */
  function SafeFloor(t: Table, st: Sel): (f: nat)
    requires t.profiles != []
    ensures Lo(t, st) <= f <= Hi(t, st)
  {
    var table := ClampRung(t, st, RungOf(t.profiles, 0, t.floorProfile, 0));
    if table > ClampRung(t, st, 0) then table else ClampRung(t, st, 0)
  }

  // ---- lockouts --------------------------------------------------------------------------------------

  predicate Locked(losses: seq<RungLoss>, r: nat, now: nat) {
    r < |losses| && (losses[r].latched || now < losses[r].blockedUntil)
  }

  /** The lowest locked rung from a given one up to hi. */
  function FirstLocked(losses: seq<RungLoss>, from: nat, hi: nat, now: nat): Option<nat>
    decreases |losses| - from
  {
    if from > hi || from >= |losses| then None
    else if Locked(losses, from, now) then Some(from)
    else FirstLocked(losses, from + 1, hi, now)
  }

  /** The lowest locked rung lies at or below the envelope's bottom, as the lockout display reports it. */
  predicate Conflict(t: Table, st: Sel, now: nat)
    requires t.profiles != []
  {
    var first := FirstLocked(st.losses, 0, Hi(t, st), now);
    first.Some? && first.value <= Lo(t, st)
  }

  /** The highest rung a climb may reach; in conflict the lockouts yield to the operator. */
  function Ceiling(t: Table, st: Sel, now: nat): nat
    requires t.profiles != []
  {
    var first := FirstLocked(st.losses, 0, Hi(t, st), now);
    if first.None? || Conflict(t, st, now) then Hi(t, st) else first.value - 1
  }

  function Charged(cfg: Policy, t: Table, st: Sel, now: nat): (r: seq<RungLoss>)
    requires t.profiles != []
    ensures |r| == |st.losses|
  {
    var r := st.rung;
    if r >= |st.losses| || r <= SafeFloor(t, st) || Locked(st.losses, r, now) then st.losses
    else
      var s := st.losses[r];
      var strikes := if s.strikes < cfg.latchCount then s.strikes + 1 else s.strikes;
      if strikes >= cfg.latchCount then st.losses[r := RungLoss(0, strikes, 0, true)]
      else
        var until := if cfg.lockoutMs > TIME_MAX - now then TIME_MAX else now + cfg.lockoutMs;
        st.losses[r := RungLoss(0, strikes, until, s.latched)]
  }

  // ---- moves -----------------------------------------------------------------------------------------

  function Pruned(times: seq<nat>, now: nat, window: nat): seq<nat>
    decreases |times|
  {
    if times != [] && Since(now, times[0]) > window then Pruned(times[1..], now, window) else times
  }

  /** Flap accounting of a demotion: quick re-demotes freeze climbing for a while. */
  function FlapNoted(cfg: Policy, st: Sel, now: nat): (r: Sel)
    requires st.rung < |st.promotedInto|
    ensures r == st.(freezeUntil := r.freezeUntil, demoteTimes := r.demoteTimes)
  {
    var into := st.promotedInto[st.rung];
    var quick := into != 0 && now >= into && now - into < cfg.flapWindowMs;
    var times := Pruned(if quick then st.demoteTimes + [now] else st.demoteTimes, now, cfg.flapWindowMs);
    if |times| >= cfg.flapCount then st.(freezeUntil := now + cfg.flapFreezeMs, demoteTimes := [])
    else st.(demoteTimes := times)
  }

  /** Every rung vacated by a move down to target remembers when. */
  function Vacated(times: seq<nat>, target: nat, rung: nat, now: nat): seq<nat> {
    seq(|times|, r requires 0 <= r < |times| => if target < r <= rung then now else times[r])
  }

  /** Down: the bitrate moves now, the rung when the lead has passed. */
  function Demoted(cfg: Policy, t: Table, st: Sel, target: nat, now: nat, reason: Reason, charge: bool): (r: Sel)
    requires target < |t.profiles| && st.rung < |st.promotedInto|
    ensures r.rung == st.rung && r.phase == BitrateLead && r.pending == target
  {
    var bare := st.(probe := NO_PROBE, probeMs := 0);
    var charged := if charge then bare.(losses := Charged(cfg, t, bare, now)) else bare;
    var noted := FlapNoted(cfg, charged, now);
    noted.(demotedFrom := Vacated(noted.demotedFrom, target, noted.rung, now), lastDemote := now, pending := target,
           phase := BitrateLead, deadline := now + cfg.leadMs, reason := reason, bitrate := Target(cfg, t, target))
  }

  /** Up: the rung moves now, the bitrate when the grace has passed. */
  function Promoted(cfg: Policy, st: Sel, target: nat, now: nat, reason: Reason): Sel
    requires target < |st.promotedInto|
  {
    st.(probe := NO_PROBE, probeMs := 0, pending := target, phase := McsGrace, deadline := now + cfg.graceMs,
        reason := reason, promotedInto := st.promotedInto[target := now], rung := target, lastChange := now)
  }

  /** A pin moves rung and bitrate together. */
  function Snapped(cfg: Policy, t: Table, st: Sel, target: nat, now: nat): Sel
    requires target < |t.profiles|
  {
    st.(rung := target, lastChange := now, reason := Repin, bitrate := Target(cfg, t, target))
  }

  // ---- feedback --------------------------------------------------------------------------------------

  function ReportAge(st: Sel, now: nat): nat {
    if !st.haveReport || now <= st.lastReport then 0 else now - st.lastReport
  }

  predicate Fresh(cfg: Policy, st: Sel, now: nat) {
    st.haveReport && ReportAge(st, now) <= cfg.reportTimeoutMs
  }

  predicate SaturatedFresh(cfg: Policy, st: Sel, now: nat) {
    st.verdict == SATURATED && st.verdictMs != 0 && now >= st.verdictMs && now - st.verdictMs < cfg.verdictTtlMs
  }

  predicate VetoFresh(cfg: Policy, st: Sel, now: nat) {
    && st.probe != NO_PROBE && st.probe >= cfg.vetoPermille && st.probeMs != 0 && now >= st.probeMs
    && now - st.probeMs < cfg.vetoTtlMs
  }

  predicate Frozen(st: Sel, now: nat) {
    now < st.freezeUntil
  }

  // ---- the cascade -----------------------------------------------------------------------------------

  /** What a tick with fresh feedback inside the envelope decides. */
  datatype Decision = Hold | Down(target: nat, why: Reason, charge: bool) | Up(why: Reason)

  predicate LossPersists(cfg: Policy, st: Sel) {
    !st.pressure && st.observed == st.rung && st.rung < |st.losses| && st.losses[st.rung].score >= cfg.persistScore
  }

  /** A full rung's dwell, longer into a rung recently left. */
  predicate Dwelt(cfg: Policy, st: Sel, now: nat)
    requires st.rung + 1 < |st.demotedFrom|
  {
    var left := st.demotedFrom[st.rung + 1];
    var recent := left != 0 && now >= left && now - left < cfg.reentryBackoffMs;
    Since(now, st.lastChange) >= if recent then cfg.reentryDwellMs else cfg.promoteDwellMs
  }

  predicate Escapes(cfg: Policy, st: Sel, now: nat, rf: Rf, ceiling: nat) {
    && st.pressure && !rf.atFloor && !rf.fading && Since(now, st.pressureSince) >= cfg.escapeMs
    && Since(now, st.lastDemote) >= cfg.downCooldownMs && st.rung < ceiling && !Frozen(st, now)
  }

  predicate Climbs(cfg: Policy, st: Sel, now: nat, rf: Rf, ceiling: nat)
    requires ceiling < |st.demotedFrom|
  {
    && st.rung < ceiling && !rf.atFloor && !rf.fading && !Frozen(st, now) && rf.clean && rf.margin && Dwelt(cfg, st, now)
  }

  function CeilingBelow(t: Table, st: Sel, now: nat): (c: nat)
    requires t.profiles != []
    ensures c <= Hi(t, st)
  {
    if Ceiling(t, st, now) < Hi(t, st) then Ceiling(t, st, now) else Hi(t, st)
  }

  /** Rules 1 to 4: acute loss, persistent loss, weak signal, fading signal. */
  function DemoteRule(cfg: Policy, st: Sel, floor: nat, now: nat, rf: Rf): (d: Decision)
    ensures d.Down? ==> floor <= d.target < st.rung
    ensures !d.Up?
  {
    var cool := Since(now, st.lastDemote) >= cfg.downCooldownMs;
    if st.emergency && st.observed == st.rung && st.rung > floor then Down(floor, LossEmergency, true)
    else if cool && LossPersists(cfg, st) && st.rung > floor then Down(st.rung - 1, LossPersistent, true)
    else if cool && rf.atFloor && st.rung > floor then Down(st.rung - 1, RssiFloor, false)
    else if cool && rf.fading && st.rung > floor then Down(st.rung - 1, RssiFade, false)
    else Hold
  }

  /** Rules 5 and 6: escape from pressure, climb on margin; neither past a fresh verdict or probe. */
  function ClimbRule(cfg: Policy, st: Sel, ceiling: nat, now: nat, rf: Rf): (d: Decision)
    requires ceiling < |st.demotedFrom|
    ensures d.Up? ==> st.rung < ceiling
    ensures !d.Down?
  {
    var barred := SaturatedFresh(cfg, st, now) || VetoFresh(cfg, st, now);
    if Escapes(cfg, st, now, rf, ceiling) && !barred then Up(Backpressure)
    else if Climbs(cfg, st, now, rf, ceiling) && !barred then Up(Promotion)
    else Hold
  }

  function Decided(cfg: Policy, t: Table, st: Sel, now: nat, rf: Rf): (d: Decision)
    requires t.profiles != [] && |st.demotedFrom| == |t.profiles|
    ensures d.Down? ==> SafeFloor(t, st) <= d.target < st.rung
    ensures d.Up? ==> st.rung < CeilingBelow(t, st, now)
  {
    var d := DemoteRule(cfg, st, SafeFloor(t, st), now, rf);
    if d.Down? then d else ClimbRule(cfg, st, CeilingBelow(t, st, now), now, rf)
  }

  /** The raw emergency is consumed by the tick that looks at it. */
  function Cleared(st: Sel): Sel {
    st.(emergency := false, reason := if st.emergency && st.observed == st.rung then LossEmergency else st.reason)
  }

  function Carried(cfg: Policy, t: Table, st: Sel, d: Decision, now: nat): Sel
    requires |t.profiles| == |st.promotedInto| && st.rung < |t.profiles|
    requires d.Down? ==> d.target < st.rung
    requires d.Up? ==> st.rung + 1 < |t.profiles|
  {
    match d
    case Hold => st
    case Down(target, why, charge) => Demoted(cfg, t, st, target, now, why, charge)
    case Up(why) => Promoted(cfg, if why == Backpressure then st.(lastDemote := now) else st, st.rung + 1, now, why)
  }

  /** After a channel-switch freeze its length is excused from the report's age. */
  function Thawed(st: Sel, now: nat): Sel {
    if st.csaUntil == 0 || now < st.csaUntil then st
    else st.(lastReport := if st.haveReport && st.lastReport < st.csaUntil then st.csaUntil else st.lastReport, csaUntil := 0)
  }

  predicate Sized(t: Table, st: Sel) {
    && t.profiles != [] && |st.losses| == |st.demotedFrom| == |st.promotedInto| == |t.profiles|
    && st.rung < |t.profiles| && st.pending < |t.profiles|
  }

  predicate StepDue(cfg: Policy, t: Table, st: Sel, now: nat)
    requires Sized(t, st)
  {
    ReportAge(st, now) >= cfg.reportTimeoutMs + cfg.holdMs && st.rung > SafeFloor(t, st) && now >= st.failsafeNext
  }

  function SteppedDown(cfg: Policy, t: Table, st: Sel, now: nat): Sel
    requires Sized(t, st) && st.rung > 0
  {
    Demoted(cfg, t, st.(failsafeNext := now + cfg.stepMs), st.rung - 1, now, ReportTimeout, false)
  }

  /** Stale feedback: hold, then step down to the floor, one damped rung at a time. */
  function Descended(cfg: Policy, t: Table, st: Sel, now: nat): Sel
    requires Sized(t, st)
  {
    if StepDue(cfg, t, st, now) then SteppedDown(cfg, t, st, now) else st
  }

  /** Which part of the evaluation a tick takes. */
  datatype Branch = Blackout | Pinned | Range(target: nat) | Stale | Cascade(d: Decision)

  function BranchOf(cfg: Policy, t: Table, st: Sel, now: nat, rf: Rf): Branch
    requires Sized(t, st)
  {
    var lo, hi, thawed := Lo(t, st), Hi(t, st), Thawed(st, now);
    if st.csaUntil != 0 && now < st.csaUntil then Blackout
    else if lo == hi then Pinned
    else if st.rung > hi then Range(hi)
    else if st.rung < lo && Fresh(cfg, thawed, now) then Range(lo)
    else if !Fresh(cfg, thawed, now) then Stale
    else Cascade(Decided(cfg, t, thawed, now, rf))
  }

  function Evaluated(cfg: Policy, t: Table, st: Sel, now: nat, rf: Rf): Sel
    requires Sized(t, st)
  {
    var thawed := Thawed(st, now);
    match BranchOf(cfg, t, st, now, rf)
    case Blackout => st
    case Pinned => if st.rung == Lo(t, st) then thawed else Snapped(cfg, t, thawed, Lo(t, st), now)
    case Range(target) => Snapped(cfg, t, thawed, target, now)
    case Stale => Descended(cfg, t, thawed, now)
    case Cascade(d) => Carried(cfg, t, Cleared(thawed), d, now)
  }

  function Ticked(cfg: Policy, t: Table, st: Sel, now: nat, rf: Rf): Sel
    requires Sized(t, st)
  {
    match st.phase
    case Boot => st.(phase := Steady, lastChange := now, bitrate := Target(cfg, t, st.rung))
    case BitrateLead => if now < st.deadline then st else st.(phase := Steady, rung := st.pending, lastChange := now)
    case McsGrace => if now < st.deadline then st else st.(phase := Steady, bitrate := Target(cfg, t, st.rung))
    case Steady => Evaluated(cfg, t, st, now, rf)
  }

  // ---- the other inputs ------------------------------------------------------------------------------

  /** A new reporter or radio environment forgets everything learnt about the channel. */
  function Reset(st: Sel, now: nat): Sel {
    st.(losses := seq(|st.losses|, _ => CLEAN), observed := st.rung, emergency := false, demoteTimes := [], freezeUntil := 0,
        demotedFrom := seq(|st.demotedFrom|, _ => 0), promotedInto := seq(|st.promotedInto|, _ => 0), failsafeNext := 0,
        lastDemote := 0, lastChange := now, probe := NO_PROBE, probeMs := 0)
  }

  datatype Report = Report(originator: U16, session: U32, epoch: U32, probe: U16, loss: U16, uniq: U32)

  /** A report of another reporter starts a new domain. */
  function Identified(st: Sel, r: Report, now: nat): Sel {
    if st.source == Some((r.originator, r.session)) then st
    else
      var clean := Reset(st, now);
      clean.(source := Some((r.originator, r.session)), haveReport := false, epoch := 0,
             reason := if st.source.Some? then EnvironmentReset else clean.reason)
  }

  /** Rungs score loss up and down, but only while open. */
  function Scored(cfg: Policy, st: Sel, r: Report, now: nat): seq<RungLoss> {
    if st.rung >= |st.losses| || r.uniq < cfg.minUniq || Locked(st.losses, st.rung, now) then st.losses
    else
      var s := st.losses[st.rung];
      if r.loss >= cfg.demoteMilli then
        if s.score < cfg.persistScore then st.losses[st.rung := s.(score := s.score + 1)] else st.losses
      else if s.score > 0 then st.losses[st.rung := s.(score := s.score - 1)]
      else st.losses
  }

  predicate Replay(st: Sel, r: Report) {
    st.haveReport && r.epoch <= st.epoch
  }

  function Reported(cfg: Policy, st: Sel, r: Report, now: nat): Sel {
    var st1 := Identified(st, r, now);
    if Replay(st1, r) then st1
    else
      st1.(epoch := r.epoch, probe := if r.probe != NO_PROBE then r.probe else st1.probe,
           probeMs := if r.probe != NO_PROBE then now else st1.probeMs, observed := st1.rung,
           emergency := r.uniq >= cfg.minUniq && r.loss >= cfg.emergencyMilli, losses := Scored(cfg, st1, r, now),
           haveReport := true, lastReport := now, failsafeNext := 0)
  }

  function Environed(st: Sel, mhz: U16, width: Byte, now: nat): Sel {
    if st.environment.None? then st.(environment := Some((mhz, width)))
    else if st.environment == Some((mhz, width)) then st
    else Reset(st, now).(environment := Some((mhz, width)), reason := EnvironmentReset)
  }

  function Pressed(st: Sel, on: bool, now: nat): Sel {
    st.(pressure := on, pressureSince := if on && !st.pressure then now else st.pressureSince)
  }

  function Begun(t: Table, minProfile: Byte, maxProfile: Byte): Sel
    requires t.profiles != []
  {
    var n := |t.profiles|;
    var st := Sel(0, Boot, 0, 0, 0, 0, 0, None, 0, false, 0, seq(n, _ => CLEAN), 0, false, [], 0, seq(n, _ => 0), seq(n, _ => 0),
                  0, 0, NO_PROBE, 0, 0, 0, false, 0, None, minProfile, maxProfile, Booting);
    st.(rung := SafeFloor(t, st))
  }
}
