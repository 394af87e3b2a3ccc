/** The rate selector as the object the transmit path ticks. */
module Selector {
  import opened Bytes
  import opened SelectorSpec
  import opened SelectorRuns

  /** A commit whenever the rung moves, a bitrate whenever it changes, both at boot. */
  function ActionsOf(t: Table, before: Sel, after: Sel): Actions
    requires after.rung < |t.profiles|
  {
    Actions(if before.phase == Boot || after.rung != before.rung then Some(t.profiles[after.rung]) else None,
            if before.phase == Boot || after.bitrate != before.bitrate then Some(after.bitrate) else None)
  }

  /** The first profile with the id. */
  method FindRung(t: Table, id: Byte, fallback: nat) returns (rung: nat)
    ensures rung == RungOf(t.profiles, 0, id, fallback)
  {
    var i := 0;
    while i < |t.profiles|
      invariant 0 <= i <= |t.profiles|
      invariant RungOf(t.profiles, 0, id, fallback) == RungOf(t.profiles, i, id, fallback)
    {
      if t.profiles[i].id == id {
        return i;
      }
      i := i + 1;
    }
    return fallback;
  }

  /** The first locked rung up to hi. */
  method FindLocked(losses: seq<RungLoss>, hi: nat, now: nat) returns (first: Option<nat>)
    ensures first == FirstLocked(losses, 0, hi, now)
  {
    var r := 0;
    while r <= hi && r < |losses|
      invariant 0 <= r <= |losses|
      invariant FirstLocked(losses, 0, hi, now) == FirstLocked(losses, r, hi, now)
    {
      if losses[r].latched || now < losses[r].blockedUntil {
        return Some(r);
      }
      r := r + 1;
    }
    return None;
  }

  /** Demotions older than the window are forgotten. */
  method DropOld(times: seq<nat>, now: nat, window: nat) returns (kept: seq<nat>)
    ensures kept == Pruned(times, now, window)
  {
    kept := times;
    while kept != [] && Since(now, kept[0]) > window
      invariant Pruned(times, now, window) == Pruned(kept, now, window)
      decreases |kept|
    {
      kept := kept[1..];
    }
  }

  /** Mark every rung from target + 1 to rung. */
  method MarkVacated(times: seq<nat>, target: nat, rung: nat, now: nat) returns (marked: seq<nat>)
    ensures marked == Vacated(times, target, rung, now)
  {
    marked := times;
    var r := target + 1;
    while r <= rung && r < |marked|
      invariant target < r && |marked| == |times|
      invariant forall i :: 0 <= i < |times| ==> marked[i] == if target < i < r && i <= rung then now else times[i]
      decreases |marked| - r
    {
      marked := marked[r := now];
      r := r + 1;
    }
  }

  /** The object's fields are kept together in one record, st. */
  class Selector {
    const cfg: Policy
    const t: Table
    var st: Sel

    /** Phase, rung and bitrate agree; without a ladder there is nothing to agree on. */
    ghost predicate Valid()
      reads this
    {
      t.profiles != [] ==> Phased(cfg, t, st)
    }

    constructor (cfg: Policy, t: Table, minProfile: Byte, maxProfile: Byte)
      ensures Valid() && this.cfg == cfg && this.t == t
      ensures t.profiles != [] ==> st == Begun(t, minProfile, maxProfile)
    {
      this.cfg, this.t := cfg, t;
      var n := |t.profiles|;
      st := Sel(0, Boot, 0, 0, 0, 0, 0, None, 0, false, 0, seq(n, _ => CLEAN), 0, false, [], 0, seq(n, _ => 0), seq(n, _ => 0),
                0, 0, NO_PROBE, 0, 0, 0, false, 0, None, minProfile, maxProfile, Booting);
      new;
      if t.profiles != [] {
        var _, _, floor := Envelope();
        st := st.(rung := floor);
      }
    }

    /** The pinned range and the rung below which nothing demotes. */
    method Envelope() returns (lo: nat, hi: nat, floor: nat)
      requires t.profiles != []
      ensures lo == Lo(t, st) && hi == Hi(t, st) && floor == SafeFloor(t, st)
    {
      lo := FindRung(t, st.minProfile, 0);
      hi := FindRung(t, st.maxProfile, |t.profiles| - 1);
      if lo > hi {
        lo := hi;
      }
      var base := FindRung(t, t.floorProfile, 0);
      floor := if base < lo then lo else if base > hi then hi else base;
    }

    method ChargeLockout(now: nat)
      requires t.profiles != []
      modifies this
      ensures st == old(st).(losses := Charged(cfg, t, old(st), now))
    {
      var _, _, floor := Envelope();
      hide SafeFloor;
      if st.rung >= |st.losses| || st.rung <= floor {
        return;
      }
      var s := st.losses[st.rung];
      if s.latched || now < s.blockedUntil {
        return;
      }
      var strikes: Byte := s.strikes;
      if strikes < cfg.latchCount {
        strikes := strikes + 1;
      }
      if strikes >= cfg.latchCount {
        st := st.(losses := st.losses[st.rung := RungLoss(0, strikes, 0, true)]);
      } else {
        var until := if cfg.lockoutMs > TIME_MAX - now then TIME_MAX else now + cfg.lockoutMs;
        st := st.(losses := st.losses[st.rung := RungLoss(0, strikes, until, s.latched)]);
      }
    }

    method NoteDemoteForFlap(now: nat)
      requires st.rung < |st.promotedInto|
      modifies this
      ensures st == FlapNoted(cfg, old(st), now)
    {
      hide Pruned;
      var into := st.promotedInto[st.rung];
      if into != 0 && now >= into && now - into < cfg.flapWindowMs {
        st := st.(demoteTimes := st.demoteTimes + [now]);
      }
      var times := DropOld(st.demoteTimes, now, cfg.flapWindowMs);
      if |times| >= cfg.flapCount {
        st := st.(freezeUntil := now + cfg.flapFreezeMs, demoteTimes := []);
      } else {
        st := st.(demoteTimes := times);
      }
    }

    /** Down: the bitrate leads. */
    method StartDemote(target: nat, now: nat, why: Reason, charge: bool)
      requires target < |t.profiles| && st.rung < |st.promotedInto|
      modifies this
      ensures st == Demoted(cfg, t, old(st), target, now, why, charge)
    {
      st := st.(probe := NO_PROBE, probeMs := 0);
      if charge {
        ChargeLockout(now);
      }
      hide Charged, FlapNoted, Vacated, Derived, Clamped;
      NoteDemoteForFlap(now);
      var marked := MarkVacated(st.demotedFrom, target, st.rung, now);
      var leading := Clamped(Derived(t.profiles[target]), cfg.maxBitrateKbps);
      st := st.(demotedFrom := marked, lastDemote := now, pending := target, phase := BitrateLead, deadline := now + cfg.leadMs,
                reason := why, bitrate := leading);
    }

    /** Up: the rung leads. */
    method StartPromote(target: nat, now: nat, why: Reason)
      requires target < |st.promotedInto|
      modifies this
      ensures st == Promoted(cfg, old(st), target, now, why)
    {
      st := st.(probe := NO_PROBE, probeMs := 0);
      st := st.(pending := target, phase := McsGrace, deadline := now + cfg.graceMs, reason := why);
      st := st.(promotedInto := st.promotedInto[target := now]);
      st := st.(rung := target, lastChange := now);
    }

    method Snap(target: nat, now: nat)
      requires target < |t.profiles|
      modifies this
      ensures st == Snapped(cfg, t, old(st), target, now)
    {
      hide Derived, Clamped;
      st := st.(rung := target, lastChange := now, reason := Repin);
      st := st.(bitrate := Clamped(Derived(t.profiles[target]), cfg.maxBitrateKbps));
    }

    /** Rules 1 to 4; the raw emergency is consumed whether or not it demotes. */
    method DemoteRules(floor: nat, now: nat, rf: Rf) returns (done: bool)
      requires Sized(t, st)
      modifies this
      ensures var d := DemoteRule(cfg, old(st), floor, now, rf);
              done == d.Down? && st == Carried(cfg, t, Cleared(old(st)), d, now)
    {
      hide Demoted, Since;
      var cool := Since(now, st.lastDemote) >= cfg.downCooldownMs;
      var acute := st.emergency && st.observed == st.rung;
      st := st.(emergency := false);
      if acute {
        st := st.(reason := LossEmergency);
        if st.rung > floor {
          StartDemote(floor, now, LossEmergency, true);
          return true;
        }
      }
      if !st.pressure && cool && st.observed == st.rung && st.rung < |st.losses|
         && st.losses[st.rung].score >= cfg.persistScore && st.rung > floor {
        StartDemote(st.rung - 1, now, LossPersistent, true);
        return true;
      }
      if cool && rf.atFloor && st.rung > floor {
        StartDemote(st.rung - 1, now, RssiFloor, false);
        return true;
      }
      if cool && rf.fading && st.rung > floor {
        StartDemote(st.rung - 1, now, RssiFade, false);
        return true;
      }
      return false;
    }

    /** The rules for a tick on fresh feedback, first match wins. */
    method Cascade(lo: nat, hi: nat, floor: nat, now: nat, rf: Rf)
      requires Sized(t, st) && lo == Lo(t, st) && hi == Hi(t, st) && floor == SafeFloor(t, st)
      modifies this
      ensures st == Carried(cfg, t, Cleared(old(st)), Decided(cfg, t, old(st), now, rf), now)
    {
      hide SafeFloor, Lo, Hi, FirstLocked, DemoteRule, ClimbRule, Demoted, Promoted;
      ghost var was := st;
      var first := FindLocked(st.losses, hi, now);
      var ceiling := if first.None? || first.value <= lo then hi else first.value - 1;
      ceiling := if ceiling < hi then ceiling else hi;
      assert ceiling == CeilingBelow(t, was, now);
      hide CeilingBelow;
      var done := DemoteRules(floor, now, rf);
      if !done {
        ClimbSees(cfg, was, ceiling, now, rf);
        Climb(ceiling, now, rf);
      }
    }

    /** Rules 5 and 6: a climb of one rung unless a fresh verdict or probe bars it. */
    method Climb(ceiling: nat, now: nat, rf: Rf)
      requires Sized(t, st) && ceiling < |t.profiles|
      modifies this
      ensures st == Carried(cfg, t, old(st), ClimbRule(cfg, old(st), ceiling, now, rf), now)
    {
      hide Promoted, Since;
      var cool := Since(now, st.lastDemote) >= cfg.downCooldownMs;
      var saturated := st.verdict == SATURATED && st.verdictMs != 0 && now >= st.verdictMs && now - st.verdictMs < cfg.verdictTtlMs;
      var vetoed := st.probe != NO_PROBE && st.probe >= cfg.vetoPermille && st.probeMs != 0 && now >= st.probeMs
                    && now - st.probeMs < cfg.vetoTtlMs;
      assert (saturated || vetoed) == (SaturatedFresh(cfg, st, now) || VetoFresh(cfg, st, now));
      hide SaturatedFresh, VetoFresh;
      if st.pressure && !(rf.atFloor || rf.fading) && Since(now, st.pressureSince) >= cfg.escapeMs && cool && st.rung < ceiling
         && now >= st.freezeUntil {
        if !saturated && !vetoed {
          st := st.(lastDemote := now);
          StartPromote(st.rung + 1, now, Backpressure);
          return;
        }
      }
      if st.rung < ceiling && !(rf.atFloor || rf.fading) && now >= st.freezeUntil && rf.clean {
        var left := st.demotedFrom[st.rung + 1];
        var recent := left != 0 && now >= left && now - left < cfg.reentryBackoffMs;
        var dwell := if recent then cfg.reentryDwellMs else cfg.promoteDwellMs;
        if rf.margin && Since(now, st.lastChange) >= dwell {
          if !saturated && !vetoed {
            StartPromote(st.rung + 1, now, Promotion);
          }
        }
      }
    }

    /** Stale feedback: hold, then one damped step towards the floor. */
    method Descend(floor: nat, now: nat)
      requires Sized(t, st) && floor == SafeFloor(t, st)
      modifies this
      ensures st == Descended(cfg, t, old(st), now)
    {
      hide Demoted, SafeFloor;
      var age := if !st.haveReport || now <= st.lastReport then 0 else now - st.lastReport;
      if age < cfg.reportTimeoutMs + cfg.holdMs {
        return;
      }
      if st.rung > floor && now >= st.failsafeNext {
        st := st.(failsafeNext := now + cfg.stepMs);
        StartDemote(st.rung - 1, now, ReportTimeout, false);
      }
    }

    /** A channel-switch freeze that has run out is excused from the report's age. */
    method Thaw(now: nat)
      modifies this
      ensures st == Thawed(old(st), now)
    {
      if st.csaUntil == 0 || now < st.csaUntil {
        return;
      }
      if st.haveReport && st.lastReport < st.csaUntil {
        st := st.(lastReport := st.csaUntil);
      }
      st := st.(csaUntil := 0);
    }

    method Evaluate(now: nat, rf: Rf)
      requires Sized(t, st)
      modifies this
      ensures st == Evaluated(cfg, t, old(st), now, rf)
    {
      ghost var was := st;
      assert Alike(was, Thawed(was, now));
      if st.csaUntil != 0 && now < st.csaUntil {
        return;
      }
      Thaw(now);
      var lo, hi, floor := Envelope();
      assert lo == Lo(t, was) && hi == Hi(t, was);
      hide SafeFloor, Lo, Hi, Decided, Carried, Snapped, Thawed, Descended, ReportAge;
      if lo == hi {
        if st.rung != lo {
          Snap(lo, now);
        }
        return;
      }
      var current := st.haveReport && ReportAge(st, now) <= cfg.reportTimeoutMs;
      if st.rung > hi || (st.rung < lo && current) {
        Snap(if st.rung > hi then hi else lo, now);
      } else if !current {
        Descend(floor, now);
      } else {
        Cascade(lo, hi, floor, now, rf);
      }
    }

    /** One tick: at most one commit and one bitrate move. */
    method Tick(now: nat, rf: Rf) returns (a: Actions)
      requires Valid()
      modifies this
      ensures Valid()
      ensures t.profiles == [] ==> st == old(st) && a == NOTHING
      ensures t.profiles != [] ==> st == Ticked(cfg, t, old(st), now, rf) && a == ActionsOf(t, old(st), st)
    {
      if t.profiles == [] {
        return NOTHING;
      }
      TickedPhased(cfg, t, st, now, rf);
      hide Evaluated, Derived, Clamped;
      var was := st;
      match st.phase {
        case Boot =>
          st := st.(phase := Steady, lastChange := now);
          st := st.(bitrate := Clamped(Derived(t.profiles[st.rung]), cfg.maxBitrateKbps));
          return Actions(Some(t.profiles[st.rung]), Some(st.bitrate));
        case BitrateLead =>
          if now >= st.deadline {
            st := st.(phase := Steady, rung := st.pending, lastChange := now);
            return Actions(Some(t.profiles[st.rung]), None);
          }
          return NOTHING;
        case McsGrace =>
          if now >= st.deadline {
            st := st.(phase := Steady);
            st := st.(bitrate := Clamped(Derived(t.profiles[st.rung]), cfg.maxBitrateKbps));
          }
        case Steady =>
          Evaluate(now, rf);
      }
      return Actions(if st.rung != was.rung then Some(t.profiles[st.rung]) else None,
                     if st.bitrate != was.bitrate then Some(st.bitrate) else None);
    }

    method ResetEnvironment(now: nat)
      modifies this
      ensures st == Reset(old(st), now)
    {
      st := st.(losses := seq(|st.losses|, _ => CLEAN), observed := st.rung, emergency := false);
      st := st.(demoteTimes := [], freezeUntil := 0, failsafeNext := 0, lastDemote := 0, lastChange := now);
      st := st.(demotedFrom := seq(|st.demotedFrom|, _ => 0), promotedInto := seq(|st.promotedInto|, _ => 0));
      st := st.(probe := NO_PROBE, probeMs := 0);
    }

    /** A report of another reporter starts a new domain. */
    method Identify(r: Report, now: nat)
      modifies this
      ensures st == Identified(old(st), r, now)
    {
      hide Reset;
      if st.source == Some((r.originator, r.session)) {
        return;
      }
      var changed := st.source.Some?;
      ResetEnvironment(now);
      st := st.(source := Some((r.originator, r.session)), haveReport := false, epoch := 0);
      if changed {
        st := st.(reason := EnvironmentReset);
      }
    }

    /** The leaky score of the rung in force, unless it is locked or the window too thin. */
    method Score(r: Report, now: nat)
      modifies this
      ensures st == old(st).(losses := Scored(cfg, old(st), r, now))
    {
      if st.rung >= |st.losses| || r.uniq < cfg.minUniq {
        return;
      }
      var s := st.losses[st.rung];
      if s.latched || now < s.blockedUntil {
        return;
      }
      if r.loss >= cfg.demoteMilli {
        if s.score < cfg.persistScore {
          st := st.(losses := st.losses[st.rung := s.(score := s.score + 1)]);
        }
      } else if s.score > 0 {
        st := st.(losses := st.losses[st.rung := s.(score := s.score - 1)]);
      }
    }

    /** False for a replayed or reordered epoch. */
    method OnReport(r: Report, now: nat) returns (taken: bool)
      requires Valid()
      modifies this
      ensures Valid() && st == Reported(cfg, old(st), r, now)
      ensures taken <==> !Replay(Identified(old(st), r, now), r)
    {
      if t.profiles != [] { AppliedPhased(cfg, t, st, Feedback(r), now); }
      hide Phased, Identified, Scored;
      Identify(r, now);
      if st.haveReport && r.epoch <= st.epoch {
        return false;
      }
      Score(r, now);
      st := st.(epoch := r.epoch, observed := st.rung, emergency := r.uniq >= cfg.minUniq && r.loss >= cfg.emergencyMilli);
      if r.probe != NO_PROBE {
        st := st.(probe := r.probe, probeMs := now);
      }
      st := st.(haveReport := true, lastReport := now, failsafeNext := 0);
      return true;
    }

    method OnRfEnvironment(mhz: U16, width: Byte, now: nat) returns (reset: bool)
      requires Valid()
      modifies this
      ensures Valid() && st == Environed(old(st), mhz, width, now)
      ensures reset <==> old(st).environment.Some? && old(st).environment != Some((mhz, width))
    {
      if st.environment.None? {
        st := st.(environment := Some((mhz, width)));
        return false;
      }
      if st.environment == Some((mhz, width)) {
        return false;
      }
      ResetEnvironment(now);
      st := st.(environment := Some((mhz, width)), reason := EnvironmentReset);
      return true;
    }

    method SetPressure(on: bool, now: nat)
      requires Valid()
      modifies this
      ensures Valid() && st == Pressed(old(st), on, now)
    {
      if on && !st.pressure {
        st := st.(pressureSince := now);
      }
      st := st.(pressure := on);
    }

    method OnVerdict(v: Byte, now: nat)
      requires Valid()
      modifies this
      ensures Valid() && st == old(st).(verdict := v, verdictMs := now)
    {
      st := st.(verdict := v, verdictMs := now);
    }

    method CsaFreeze(until: nat)
      requires Valid()
      modifies this
      ensures Valid() && st == if until > old(st).csaUntil then old(st).(csaUntil := until) else old(st)
    {
      if until > st.csaUntil {
        st := st.(csaUntil := until);
      }
    }

    method SetProfilePin(min: Byte, max: Byte)
      requires Valid()
      modifies this
      ensures Valid() && st == old(st).(minProfile := min, maxProfile := max)
    {
      st := st.(minProfile := min, maxProfile := max);
    }
  }

  /** Consuming the emergency changes nothing a climb looks at. */
  lemma ClimbSees(cfg: Policy, st: Sel, ceiling: nat, now: nat, rf: Rf)
    requires ceiling < |st.demotedFrom|
    ensures ClimbRule(cfg, Cleared(st), ceiling, now, rf) == ClimbRule(cfg, st, ceiling, now, rf)
  {
  }
}
