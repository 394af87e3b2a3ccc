/** What holds of every run of the rate selector. */
module SelectorRuns {
  import opened Bytes
  import opened SelectorSpec

  datatype Op =
    | Feedback(r: Report)
    | Verdict(v: Byte)
    | Press(on: bool)
    | Blackout(until: nat)
    | Clock(rf: Rf)
    | Retuned(mhz: U16, width: Byte)
    | Pin(min: Byte, max: Byte)

  function Applied(cfg: Policy, t: Table, st: Sel, op: Op, now: nat): Sel
    requires Sized(t, st)
  {
    match op
    case Feedback(r) => Reported(cfg, st, r, now)
    case Verdict(v) => st.(verdict := v, verdictMs := now)
    case Press(on) => Pressed(st, on, now)
    case Blackout(until) => if until > st.csaUntil then st.(csaUntil := until) else st
    case Clock(rf) => Ticked(cfg, t, st, now, rf)
    case Retuned(mhz, width) => Environed(st, mhz, width, now)
    case Pin(min, max) => st.(minProfile := min, maxProfile := max)
  }

  /** An input and the time it comes at. */
  type Input = (Op, nat)

  // ---- the bitrate never outruns the rung ----------------------------------------------------------

  /** What is commanded in each phase. */
  predicate Phased(cfg: Policy, t: Table, st: Sel) {
    && Sized(t, st)
    && match st.phase
       case Boot => st.bitrate == 0
       case Steady => st.bitrate == Target(cfg, t, st.rung)
       case BitrateLead => st.pending < st.rung && st.bitrate == Target(cfg, t, st.pending)
       case McsGrace => st.rung > 0 && st.bitrate == Target(cfg, t, st.rung - 1)
  }

  lemma BegunPhased(cfg: Policy, t: Table, min: Byte, max: Byte)
    requires t.profiles != []
    ensures Phased(cfg, t, Begun(t, min, max))
  {
  }

  predicate SameEnvelope(st: Sel, st': Sel) {
    st'.minProfile == st.minProfile && st'.maxProfile == st.maxProfile
  }

  lemma DemotedPhased(cfg: Policy, t: Table, st: Sel, target: nat, now: nat, why: Reason, charge: bool)
    requires Sized(t, st) && target < st.rung
    ensures Phased(cfg, t, Demoted(cfg, t, st, target, now, why, charge))
    ensures SameEnvelope(st, Demoted(cfg, t, st, target, now, why, charge))
  {
    hide Target, Charged, FlapNoted;
  }

  lemma CarriedPhased(cfg: Policy, t: Table, st: Sel, d: Decision, now: nat)
    requires Phased(cfg, t, st) && st.phase == Steady && (d.Down? ==> d.target < st.rung)
    requires d.Up? ==> st.rung + 1 < |t.profiles|
    ensures Phased(cfg, t, Carried(cfg, t, st, d, now)) && SameEnvelope(st, Carried(cfg, t, st, d, now))
  {
    match d {
      case Hold =>
      case Down(target, why, charge) => DemotedPhased(cfg, t, st, target, now, why, charge);
      case Up(why) => hide Target;
    }
  }

  lemma SnappedPhased(cfg: Policy, t: Table, st: Sel, target: nat, now: nat)
    requires Phased(cfg, t, st) && st.phase == Steady && target < |t.profiles|
    ensures Phased(cfg, t, Snapped(cfg, t, st, target, now)) && SameEnvelope(st, Snapped(cfg, t, st, target, now))
  {
    hide Target;
  }

  lemma DescendedPhased(cfg: Policy, t: Table, st: Sel, now: nat)
    requires Phased(cfg, t, st) && st.phase == Steady
    ensures Phased(cfg, t, Descended(cfg, t, st, now)) && SameEnvelope(st, Descended(cfg, t, st, now))
  {
    assert Sized(t, st);
    assert Phased(cfg, t, st.(failsafeNext := now + cfg.stepMs));
    hide Demoted, SafeFloor, ReportAge, Phased;
    if StepDue(cfg, t, st, now) {
      DemotedPhased(cfg, t, st.(failsafeNext := now + cfg.stepMs), st.rung - 1, now, ReportTimeout, false);
    }
  }

  lemma EvaluatedPhased(cfg: Policy, t: Table, st: Sel, now: nat, rf: Rf)
    requires Phased(cfg, t, st) && st.phase == Steady
    ensures Phased(cfg, t, Evaluated(cfg, t, st, now, rf)) && SameEnvelope(st, Evaluated(cfg, t, st, now, rf))
  {
    var thawed := Thawed(st, now);
    assert Phased(cfg, t, thawed) && Phased(cfg, t, Cleared(thawed));
    assert Sized(t, thawed) && SameEnvelope(st, thawed) && SameEnvelope(st, Cleared(thawed));
    assert Lo(t, st) < |t.profiles|;
    hide Target, Thawed, Cleared, Phased, Snapped, Descended, Carried, Decided, Lo, Hi, Fresh;
    match BranchOf(cfg, t, st, now, rf) {
      case Blackout =>
      case Pinned => SnappedPhased(cfg, t, thawed, Lo(t, st), now);
      case Range(target) => SnappedPhased(cfg, t, thawed, target, now);
      case Stale => DescendedPhased(cfg, t, thawed, now);
      case Cascade(d) => CarriedPhased(cfg, t, Cleared(thawed), d, now);
    }
  }

  /** Nothing but a tick moves rung, phase or bitrate. */
  lemma OthersStay(cfg: Policy, t: Table, st: Sel, op: Op, now: nat)
    requires Sized(t, st) && !op.Clock?
    ensures var st' := Applied(cfg, t, st, op, now);
            && Sized(t, st') && st'.rung == st.rung && st'.pending == st.pending && st'.phase == st.phase
            && st'.bitrate == st.bitrate && (!op.Pin? ==> SameEnvelope(st, st'))
  {
    hide Locked;
  }

  lemma TickedPhased(cfg: Policy, t: Table, st: Sel, now: nat, rf: Rf)
    requires Phased(cfg, t, st)
    ensures Phased(cfg, t, Ticked(cfg, t, st, now, rf)) && SameEnvelope(st, Ticked(cfg, t, st, now, rf))
  {
    if st.phase == Steady { EvaluatedPhased(cfg, t, st, now, rf); }
    hide Target, Evaluated;
  }

  lemma AppliedPhased(cfg: Policy, t: Table, st: Sel, op: Op, now: nat)
    requires Phased(cfg, t, st)
    ensures Phased(cfg, t, Applied(cfg, t, st, op, now))
  {
    if op.Clock? {
      TickedPhased(cfg, t, st, now, op.rf);
    } else {
      OthersStay(cfg, t, st, op, now);
      hide Applied, Target;
    }
  }

  function Run(cfg: Policy, t: Table, st: Sel, inputs: seq<Input>): Sel
    requires Phased(cfg, t, st)
    decreases |inputs|
  {
    if inputs == [] then st
    else
      AppliedPhased(cfg, t, st, inputs[0].0, inputs[0].1);
      Run(cfg, t, Applied(cfg, t, st, inputs[0].0, inputs[0].1), inputs[1..])
  }

  lemma {:induction false} RunPhased(cfg: Policy, t: Table, st: Sel, inputs: seq<Input>)
    requires Phased(cfg, t, st)
    ensures Phased(cfg, t, Run(cfg, t, st, inputs))
    decreases |inputs|
  {
    assert Sized(t, st);
    hide Phased, Applied;
    if inputs != [] {
      AppliedPhased(cfg, t, st, inputs[0].0, inputs[0].1);
      RunPhased(cfg, t, Applied(cfg, t, st, inputs[0].0, inputs[0].1), inputs[1..]);
    }
  }

  /** The derived bitrates do not decrease along the ladder. */
  predicate Climbing(t: Table) {
    forall i, j :: 0 <= i < j < |t.profiles| ==> Derived(t.profiles[i]) <= Derived(t.profiles[j])
  }

  /** Boot, lead, grace, pins, fail-safe: on a climbing ladder the link is never asked for more than its rung carries. */
  lemma BitrateWithinRung(cfg: Policy, t: Table, min: Byte, max: Byte, inputs: seq<Input>)
    requires t.profiles != [] && Climbing(t)
    ensures Phased(cfg, t, Begun(t, min, max))
    ensures var st := Run(cfg, t, Begun(t, min, max), inputs);
            st.rung < |t.profiles| && st.bitrate <= Clamped(Derived(t.profiles[st.rung]), cfg.maxBitrateKbps)
  {
    BegunPhased(cfg, t, min, max);
    RunPhased(cfg, t, Begun(t, min, max), inputs);
    hide Derived, Run, Begun;
  }

  // ---- the rung rises only on evidence or a pin -------------------------------------------------------

  /** A report came at this time. */
  ghost predicate HeardAt(inputs: seq<Input>, time: nat) {
    exists i :: 0 <= i < |inputs| && inputs[i].0.Feedback? && inputs[i].1 == time
  }

  /** A channel switch was announced to end at this time. */
  ghost predicate SwitchEnds(inputs: seq<Input>, time: nat) {
    exists i :: 0 <= i < |inputs| && inputs[i].0 == Op.Blackout(time)
  }

  /** What the selector goes by is in its history: a report, aged from when it came or from the end of a switch after it. */
  ghost predicate Evidenced(inputs: seq<Input>, st: Sel) {
    && (st.haveReport ==> (exists time: nat :: HeardAt(inputs, time)) && (HeardAt(inputs, st.lastReport) || SwitchEnds(inputs, st.lastReport)))
    && (st.csaUntil != 0 ==> SwitchEnds(inputs, st.csaUntil))
  }

  lemma HistoryGrows(inputs: seq<Input>, x: Input)
    ensures forall time :: HeardAt(inputs, time) ==> HeardAt(inputs + [x], time)
    ensures forall time :: SwitchEnds(inputs, time) ==> SwitchEnds(inputs + [x], time)
    ensures x.0.Feedback? ==> HeardAt(inputs + [x], x.1)
    ensures x.0.Blackout? ==> SwitchEnds(inputs + [x], x.0.until)
  {
    var more := inputs + [x];
    forall time | HeardAt(inputs, time) ensures HeardAt(more, time) {
      var i :| 0 <= i < |inputs| && inputs[i].0.Feedback? && inputs[i].1 == time;
      assert more[i] == inputs[i];
    }
    forall time | SwitchEnds(inputs, time) ensures SwitchEnds(more, time) {
      var i :| 0 <= i < |inputs| && inputs[i].0 == Op.Blackout(time);
      assert more[i] == inputs[i];
    }
    assert more[|inputs|] == x;
  }

  predicate SameReport(st: Sel, st': Sel) {
    st'.haveReport == st.haveReport && st'.lastReport == st.lastReport && st'.csaUntil == st.csaUntil
  }

  lemma DemotedReport(cfg: Policy, t: Table, st: Sel, target: nat, now: nat, why: Reason, charge: bool)
    requires Sized(t, st) && target < |t.profiles|
    ensures SameReport(st, Demoted(cfg, t, st, target, now, why, charge))
  {
    hide Target, Charged, FlapNoted;
  }

  lemma CarriedReport(cfg: Policy, t: Table, st: Sel, d: Decision, now: nat)
    requires Sized(t, st) && (d.Down? ==> d.target < st.rung) && (d.Up? ==> st.rung + 1 < |t.profiles|)
    ensures SameReport(st, Carried(cfg, t, st, d, now))
  {
    hide Demoted;
    if d.Down? { DemotedReport(cfg, t, st, d.target, now, d.why, d.charge); }
  }

  lemma DescendedReport(cfg: Policy, t: Table, st: Sel, now: nat)
    requires Sized(t, st)
    ensures SameReport(st, Descended(cfg, t, st, now))
  {
    hide Demoted, SafeFloor, ReportAge;
    if StepDue(cfg, t, st, now) { DemotedReport(cfg, t, st.(failsafeNext := now + cfg.stepMs), st.rung - 1, now, ReportTimeout, false); }
  }

  /** A tick ages the report from the end of a switch and forgets the switch; nothing else of these. */
  lemma TickedReport(cfg: Policy, t: Table, st: Sel, now: nat, rf: Rf)
    requires Sized(t, st)
    ensures var st' := Ticked(cfg, t, st, now, rf); SameReport(st, st') || SameReport(Thawed(st, now), st')
  {
    var thawed := Thawed(st, now);
    assert Sized(t, thawed) && Sized(t, Cleared(thawed)) && SameReport(thawed, Cleared(thawed));
    assert thawed.rung == st.rung == Cleared(thawed).rung;
    hide Target, Carried, Descended, Decided, Lo, Hi, Thawed, Cleared, Fresh;
    if st.phase == Steady {
      match BranchOf(cfg, t, st, now, rf) {
        case Stale => DescendedReport(cfg, t, thawed, now);
        case Cascade(d) => CarriedReport(cfg, t, Cleared(thawed), d, now);
        case _ =>
      }
    }
  }

  lemma AppliedReport(cfg: Policy, t: Table, st: Sel, op: Op, now: nat)
    requires Sized(t, st) && !op.Clock?
    ensures var st' := Applied(cfg, t, st, op, now);
            && (st'.haveReport ==> (st.haveReport && st'.lastReport == st.lastReport) || (op.Feedback? && st'.lastReport == now))
            && (st'.csaUntil == st.csaUntil || (op.Blackout? && st'.csaUntil == op.until))
  {
    hide Scored;
  }

  lemma AppliedEvidenced(cfg: Policy, t: Table, st: Sel, past: seq<Input>, x: Input)
    requires Sized(t, st) && Evidenced(past, st)
    ensures Evidenced(past + [x], Applied(cfg, t, st, x.0, x.1))
  {
    hide HeardAt, SwitchEnds, Ticked, Sized;
    HistoryGrows(past, x);
    if x.0.Clock? {
      TickedReport(cfg, t, st, x.1, x.0.rf);
    } else {
      AppliedReport(cfg, t, st, x.0, x.1);
      hide Applied;
    }
  }

  lemma {:induction false} RunEvidenced(cfg: Policy, t: Table, st: Sel, past: seq<Input>, inputs: seq<Input>)
    requires Phased(cfg, t, st) && Evidenced(past, st)
    ensures Evidenced(past + inputs, Run(cfg, t, st, inputs))
    decreases |inputs|
  {
    assert Sized(t, st);
    hide Phased, Applied, Evidenced, Sized;
    if inputs == [] {
      assert past + inputs == past;
    } else {
      var x := inputs[0];
      AppliedPhased(cfg, t, st, x.0, x.1);
      AppliedEvidenced(cfg, t, st, past, x);
      RunEvidenced(cfg, t, Applied(cfg, t, st, x.0, x.1), past + [x], inputs[1..]);
      assert past + [x] + inputs[1..] == past + inputs;
    }
  }

  lemma PhasedSized(cfg: Policy, t: Table, st: Sel)
    requires Phased(cfg, t, st)
    ensures Sized(t, st)
  {
  }

  lemma {:induction false} RunMore(cfg: Policy, t: Table, st: Sel, inputs: seq<Input>, x: Input)
    requires Phased(cfg, t, st)
    ensures var st' := Run(cfg, t, st, inputs);
            Sized(t, st') && Run(cfg, t, st, inputs + [x]) == Applied(cfg, t, st', x.0, x.1)
    decreases |inputs|
  {
    PhasedSized(cfg, t, st);
    hide Phased, Applied, Sized;
    if inputs == [] {
      assert inputs + [x] == [x];
    } else {
      AppliedPhased(cfg, t, st, inputs[0].0, inputs[0].1);
      RunMore(cfg, t, Applied(cfg, t, st, inputs[0].0, inputs[0].1), inputs[1..], x);
      assert (inputs + [x])[1..] == inputs[1..] + [x];
    }
  }

  lemma RiseStep(cfg: Policy, t: Table, st: Sel, op: Op, now: nat)
    requires Phased(cfg, t, st) && Applied(cfg, t, st, op, now).rung > st.rung
    ensures op.Clock? && st.phase == Steady && !(st.csaUntil != 0 && now < st.csaUntil)
    ensures Lo(t, st) == Hi(t, st) || Fresh(cfg, Thawed(st, now), now)
    ensures Lo(t, st) == Hi(t, st) || Applied(cfg, t, st, op, now).rung == Lo(t, st) || Applied(cfg, t, st, op, now).rung == st.rung + 1
  {
    hide Target, Charged, Pruned, Decided, SafeFloor, ReportAge, Scored, FlapNoted;
  }

  /** No climb past a fresh saturation verdict or a fresh probe veto. */
  lemma VetoBarsClimb(cfg: Policy, t: Table, st: Sel, now: nat, rf: Rf)
    requires Sized(t, st) && (SaturatedFresh(cfg, st, now) || VetoFresh(cfg, st, now))
    ensures st.phase == Steady && Ticked(cfg, t, st, now, rf).rung > st.rung ==> Ticked(cfg, t, st, now, rf).rung == Lo(t, st)
  {
    var thawed := Thawed(st, now);
    assert SaturatedFresh(cfg, thawed, now) || VetoFresh(cfg, thawed, now);
    assert thawed.rung == st.rung;
    hide Target, SafeFloor, CeilingBelow, Fresh, Escapes, Climbs, LossPersists, Lo, Hi, SaturatedFresh, VetoFresh, Thawed, Demoted, ReportAge;
  }

  /** A report or the end of a switch lies within the report timeout of this time. */
  ghost predicate RecentlyHeard(cfg: Policy, inputs: seq<Input>, now: nat) {
    exists time: nat :: (HeardAt(inputs, time) || SwitchEnds(inputs, time)) && now <= time + cfg.reportTimeoutMs
  }

  lemma FreshHeard(cfg: Policy, inputs: seq<Input>, st: Sel, now: nat)
    requires Evidenced(inputs, st) && Fresh(cfg, Thawed(st, now), now)
    ensures (exists time: nat :: HeardAt(inputs, time)) && RecentlyHeard(cfg, inputs, now)
  {
    var time := Thawed(st, now).lastReport;
    assert HeardAt(inputs, time) || SwitchEnds(inputs, time);
    hide HeardAt, SwitchEnds;
  }

  /**
   * Whenever in a run the rung rises, it does so in the steady phase, on a tick outside an announced switch. Unless the
   * envelope is pinned to one rung, a report was heard, it or the end of a switch after it lies within the report
   * timeout, and the rise is to the envelope's bottom or by one rung past no fresh saturation verdict or probe veto.
   */
  lemma RiseNeedsFeedback(cfg: Policy, t: Table, min: Byte, max: Byte, inputs: seq<Input>, op: Op, now: nat)
    requires t.profiles != []
    ensures Phased(cfg, t, Begun(t, min, max))
    ensures var st, st' := Run(cfg, t, Begun(t, min, max), inputs), Run(cfg, t, Begun(t, min, max), inputs + [(op, now)]);
            st'.rung > st.rung ==>
              && op.Clock? && st.phase == Steady && !(st.csaUntil != 0 && now < st.csaUntil)
              && (Lo(t, st) != Hi(t, st) ==>
                    && (exists time: nat :: HeardAt(inputs, time)) && RecentlyHeard(cfg, inputs, now)
                    && (st'.rung == Lo(t, st) || (st'.rung == st.rung + 1 && !SaturatedFresh(cfg, st, now) && !VetoFresh(cfg, st, now))))
  {
    var start := Begun(t, min, max);
    BegunPhased(cfg, t, min, max);
    assert Evidenced([], start);
    hide Begun, Phased, Evidenced, HeardAt, RecentlyHeard, Thawed, Fresh, Lo, Hi, SaturatedFresh, VetoFresh;
    var st := Run(cfg, t, start, inputs);
    RunPhased(cfg, t, start, inputs);
    RunEvidenced(cfg, t, start, [], inputs);
    assert [] + inputs == inputs;
    RunMore(cfg, t, start, inputs, (op, now));
    PhasedSized(cfg, t, st);
    hide Run, Ticked;
    if Applied(cfg, t, st, op, now).rung > st.rung {
      RiseStep(cfg, t, st, op, now);
      if SaturatedFresh(cfg, st, now) || VetoFresh(cfg, st, now) { VetoBarsClimb(cfg, t, st, now, op.rf); }
      if Lo(t, st) != Hi(t, st) { FreshHeard(cfg, inputs, st, now); }
    }
  }

  // ---- lockouts ---------------------------------------------------------------------------------------

  /** Strikes a rung can take; a latch count of zero latches on the first. */
  function Cap(cfg: Policy): nat {
    if cfg.latchCount == 0 then 1 else cfg.latchCount
  }

  /** Strikes a rung has left. */
  function Room(cfg: Policy, s: RungLoss): nat {
    if s.latched || s.strikes >= Cap(cfg) then 0 else Cap(cfg) - s.strikes
  }

  /** Strikes left on the rungs above the floor, among the first n. */
  function Left(cfg: Policy, losses: seq<RungLoss>, floor: nat, n: nat): nat
    requires n <= |losses|
  {
    if n == 0 then 0 else Left(cfg, losses, floor, n - 1) + if n - 1 > floor then Room(cfg, losses[n - 1]) else 0
  }

  lemma {:induction false} LeftUpdate(cfg: Policy, losses: seq<RungLoss>, floor: nat, n: nat, r: nat, s: RungLoss)
    requires n <= |losses| && floor < r < |losses|
    ensures Left(cfg, losses[r := s], floor, n)
         == Left(cfg, losses, floor, n) + if r < n then Room(cfg, s) - Room(cfg, losses[r]) else 0
  {
    if n > 0 { LeftUpdate(cfg, losses, floor, n - 1, r, s); }
  }

  lemma {:induction false} LeftBound(cfg: Policy, losses: seq<RungLoss>, floor: nat, n: nat)
    requires n <= |losses|
    ensures Left(cfg, losses, floor, n) <= if n <= floor + 1 then 0 else (n - 1 - floor) * Cap(cfg)
  {
    if n > 0 {
      LeftBound(cfg, losses, floor, n - 1);
      if n > floor + 1 { assert (n - 1 - floor) * Cap(cfg) == (n - 2 - floor) * Cap(cfg) + Cap(cfg); }
    }
  }

  /** Rungs above the floor and up to a base that are locked. */
  function Held(losses: seq<RungLoss>, floor: nat, base: nat, now: nat): nat
    decreases base
  {
    if base <= floor then 0 else Held(losses, floor, base - 1, now) + if Locked(losses, base, now) then 1 else 0
  }

  lemma {:induction false} HeldLess(losses: seq<RungLoss>, losses': seq<RungLoss>, floor: nat, base: nat, base': nat,
                                    now: nat, now': nat)
    requires base' <= base && forall r: nat :: floor < r <= base' && Locked(losses', r, now') ==> Locked(losses, r, now)
    ensures Held(losses', floor, base', now') <= Held(losses, floor, base, now)
    decreases base
  {
    hide Locked;
    if base > floor {
      if base' == base {
        HeldLess(losses, losses', floor, base - 1, base - 1, now, now');
      } else {
        HeldLess(losses, losses', floor, base - 1, base', now, now');
      }
    }
  }

  lemma {:induction false} HeldNone(losses: seq<RungLoss>, floor: nat, base: nat, now: nat)
    requires forall r: nat :: floor < r <= base ==> !Locked(losses, r, now)
    ensures Held(losses, floor, base, now) == 0
    decreases base
  {
    hide Locked;
    if base > floor { HeldNone(losses, floor, base - 1, now); }
  }

  lemma {:induction false} HeldBound(losses: seq<RungLoss>, floor: nat, base: nat, now: nat)
    ensures Held(losses, floor, base, now) <= if base > floor then base - floor else 0
    decreases base
  {
    if base > floor { HeldBound(losses, floor, base - 1, now); }
  }

  /** The rung in force or, during a lead, the rung it is about to leave for. */
  function Base(st: Sel): nat {
    if st.phase == BitrateLead then st.pending else st.rung
  }

  /** A rung that is not latched has strikes left. */
  predicate Sane(cfg: Policy, s: RungLoss) {
    !s.latched ==> s.strikes < Cap(cfg)
  }

  ghost predicate Booked(cfg: Policy, losses: seq<RungLoss>) {
    forall r :: 0 <= r < |losses| ==> Sane(cfg, losses[r])
  }

  /** No rung at or below the envelope's bottom is locked, so the lockouts have their say: there is no conflict. */
  ghost predicate Clear(t: Table, st: Sel, now: nat)
    requires t.profiles != []
  {
    forall r: nat :: r <= Lo(t, st) ==> !Locked(st.losses, r, now)
  }

  ghost predicate Guarded(cfg: Policy, t: Table, st: Sel, now: nat)
    requires t.profiles != []
  {
    Booked(cfg, st.losses) && Clear(t, st, now)
  }

  lemma {:induction false} FirstLockedIsFirst(losses: seq<RungLoss>, from: nat, hi: nat, now: nat)
    ensures var f := FirstLocked(losses, from, hi, now);
            if f.Some? then from <= f.value <= hi && Locked(losses, f.value, now) && forall r: nat :: from <= r < f.value ==> !Locked(losses, r, now)
            else forall r: nat :: from <= r <= hi ==> !Locked(losses, r, now)
    decreases |losses| - from
  {
    hide Locked;
    if from <= hi && from < |losses| && !Locked(losses, from, now) {
      FirstLockedIsFirst(losses, from + 1, hi, now);
    }
    if from >= |losses| {
      forall r: nat | from <= r <= hi ensures !Locked(losses, r, now) { NoRung(losses, r, now); }
    }
  }

  lemma NoRung(losses: seq<RungLoss>, r: nat, now: nat)
    requires r >= |losses|
    ensures !Locked(losses, r, now)
  {
  }

  /** Without conflict a climb ends below every locked rung of the envelope; in conflict it may end anywhere in it. */
  lemma ClimbStaysBelow(t: Table, st: Sel, now: nat)
    requires t.profiles != []
    ensures Clear(t, st, now) && st.rung < CeilingBelow(t, st, now) ==>
              forall r: nat :: Locked(st.losses, r, now) ==> r > st.rung + 1 || r > Hi(t, st)
    ensures Conflict(t, st, now) <==> !Clear(t, st, now)
    ensures Conflict(t, st, now) ==> CeilingBelow(t, st, now) == Hi(t, st)
  {
    FirstLockedIsFirst(st.losses, 0, Hi(t, st), now);
    var f := FirstLocked(st.losses, 0, Hi(t, st), now);
    hide SafeFloor, Hi, Lo, FirstLocked, Locked;
  }

  /** Charging the rung in force costs exactly one strike, unless it is locked already: then nothing. */
  lemma ChargeCosts(cfg: Policy, t: Table, st: Sel, now: nat)
    requires Sized(t, st) && Booked(cfg, st.losses) && st.rung > SafeFloor(t, st)
    ensures var losses := Charged(cfg, t, st, now);
            && |losses| == |st.losses| && Booked(cfg, losses)
            && Left(cfg, losses, SafeFloor(t, st), |losses|) + (if Locked(st.losses, st.rung, now) then 0 else 1)
               == Left(cfg, st.losses, SafeFloor(t, st), |losses|)
            && (forall r :: 0 <= r < |losses| && r != st.rung ==> losses[r] == st.losses[r])
            && (Locked(st.losses, st.rung, now) ==> losses == st.losses)
  {
    var s := st.losses[st.rung];
    assert Sane(cfg, s);
    hide SafeFloor;
    LeftUpdate(cfg, st.losses, SafeFloor(t, st), |st.losses|, st.rung, Charged(cfg, t, st, now)[st.rung]);
    assert Charged(cfg, t, st, now) == st.losses[st.rung := Charged(cfg, t, st, now)[st.rung]];
  }

  // ---- steps of a stretch --------------------------------------------------------------------------------

  /** No new reporter, no new radio environment, no new pin. */
  predicate SameDomain(st: Sel, op: Op) {
    match op
    case Feedback(r) => st.source == Some((r.originator, r.session))
    case Retuned(mhz, width) => st.environment.None? || st.environment == Some((mhz, width))
    case Pin(min, max) => min == st.minProfile && max == st.maxProfile
    case Verdict(_) => true
    case Press(_) => true
    case Blackout(_) => true
    case Clock(_) => true
  }

  /** A demotion for loss, acute or persistent. */
  predicate LossDemote(cfg: Policy, t: Table, st: Sel, op: Op, now: nat)
    requires Sized(t, st)
  {
    op.Clock? && st.phase == Steady && var b := BranchOf(cfg, t, st, now, op.rf); b.Cascade? && b.d.Down? && b.d.charge
  }

  /** Rungs locked at or below the one in force were so before: none is added. */
  ghost predicate Shrinks(st: Sel, before: nat, st': Sel, now: nat) {
    forall r: nat :: r <= Base(st') && Locked(st'.losses, r, now) ==> r <= Base(st) && Locked(st.losses, r, before)
  }

  /** What is left to pay loss demotions from: strikes left, and locked rungs the rung in force has yet to leave. */
  function Purse(cfg: Policy, t: Table, st: Sel, now: nat): nat
    requires t.profiles != []
  {
    Left(cfg, st.losses, SafeFloor(t, st), |st.losses|) + Held(st.losses, SafeFloor(t, st), Base(st), now)
  }

  /** A step in the same envelope that keeps the guard and pays for its loss demotion, if it is one. */
  ghost predicate Pays(cfg: Policy, t: Table, st: Sel, before: nat, st': Sel, now: nat, demoted: bool)
    requires t.profiles != []
  {
    && SameEnvelope(st, st') && Guarded(cfg, t, st', now) && Shrinks(st, before, st', now)
    && Purse(cfg, t, st', now) + (if demoted then 1 else 0) <= Purse(cfg, t, st, before)
  }

  lemma PaysThen(cfg: Policy, t: Table, st: Sel, before: nat, mid: Sel, now: nat, st': Sel, later: nat, demoted: bool)
    requires t.profiles != [] && Pays(cfg, t, st, before, mid, now, false) && Pays(cfg, t, mid, now, st', later, demoted)
    ensures Pays(cfg, t, st, before, st', later, demoted)
  {
    hide Guarded, Purse, Base, Locked;
  }

  lemma SameLo(t: Table, st: Sel, st': Sel)
    requires t.profiles != [] && SameEnvelope(st, st')
    ensures Lo(t, st') == Lo(t, st) && Hi(t, st') == Hi(t, st) && SafeFloor(t, st') == SafeFloor(t, st)
  {
  }

  lemma LockedLater(losses: seq<RungLoss>, r: nat, before: nat, now: nat)
    requires before <= now && Locked(losses, r, now)
    ensures Locked(losses, r, before)
  {
  }

  /** Scoring loss charges nothing and locks nothing. */
  lemma ScoredSame(cfg: Policy, st: Sel, r: Report, now: nat)
    ensures var losses := Scored(cfg, st, r, now);
            && |losses| == |st.losses|
            && forall i :: 0 <= i < |losses| ==> losses[i].(score := 0) == st.losses[i].(score := 0)
  {
    hide Locked;
  }

  lemma {:induction false} LeftSame(cfg: Policy, a: seq<RungLoss>, b: seq<RungLoss>, floor: nat, n: nat)
    requires |a| == |b| && n <= |a| && forall i :: 0 <= i < |a| ==> a[i].(score := 0) == b[i].(score := 0)
    ensures Left(cfg, a, floor, n) == Left(cfg, b, floor, n)
  {
    if n > 0 {
      assert a[n - 1].(score := 0) == b[n - 1].(score := 0);
      LeftSame(cfg, a, b, floor, n - 1);
    }
  }

  lemma LockedSame(a: seq<RungLoss>, b: seq<RungLoss>, r: nat, now: nat)
    requires |a| == |b| && forall i :: 0 <= i < |a| ==> a[i].(score := 0) == b[i].(score := 0)
    ensures Locked(a, r, now) == Locked(b, r, now)
  {
    if r < |a| { assert a[r].(score := 0) == b[r].(score := 0); }
  }

  /** Same envelope, same strikes, time not running back, and a base no higher, or at the bottom. */
  lemma GuardedSame(cfg: Policy, t: Table, st: Sel, before: nat, st': Sel, now: nat)
    requires t.profiles != [] && Guarded(cfg, t, st, before) && before <= now && SameEnvelope(st, st')
    requires Base(st') <= Base(st) || Base(st') <= Lo(t, st)
    requires |st'.losses| == |st.losses|
    requires forall i :: 0 <= i < |st.losses| ==> st'.losses[i].(score := 0) == st.losses[i].(score := 0)
    ensures Pays(cfg, t, st, before, st', now, false)
  {
    SameLo(t, st, st');
    hide Lo, Hi, SafeFloor, Base, Locked;
    LeftSame(cfg, st'.losses, st.losses, SafeFloor(t, st), |st.losses|);
    forall r | 0 <= r < |st'.losses| ensures Sane(cfg, st'.losses[r]) {
      assert st'.losses[r].(score := 0) == st.losses[r].(score := 0) && Sane(cfg, st.losses[r]);
    }
    forall r: nat | Locked(st'.losses, r, now) ensures Locked(st.losses, r, before) {
      LockedSame(st'.losses, st.losses, r, now);
      LockedLater(st.losses, r, before, now);
    }
    if Base(st') <= Base(st) {
      HeldLess(st.losses, st'.losses, SafeFloor(t, st), Base(st), Base(st'), before, now);
    } else {
      HeldNone(st'.losses, SafeFloor(t, st), Base(st'), now);
    }
  }

  lemma OthersGuarded(cfg: Policy, t: Table, st: Sel, op: Op, before: nat, now: nat)
    requires Sized(t, st) && Guarded(cfg, t, st, before) && before <= now && SameDomain(st, op) && !op.Clock?
    ensures Pays(cfg, t, st, before, Applied(cfg, t, st, op, now), now, false)
  {
    var st' := Applied(cfg, t, st, op, now);
    if op.Feedback? { ScoredSame(cfg, st, op.r, now); }
    hide Guarded, Locked, SafeFloor, Scored;
    GuardedSame(cfg, t, st, before, st', now);
  }

  /** A demotion: for loss it is paid by a strike, or by leaving a locked rung; otherwise it is free. */
  lemma DemotedGuarded(cfg: Policy, t: Table, st: Sel, target: nat, now: nat, why: Reason, charge: bool)
    requires Sized(t, st) && Guarded(cfg, t, st, now) && st.phase == Steady && SafeFloor(t, st) <= target < st.rung
    ensures Pays(cfg, t, st, now, Demoted(cfg, t, st, target, now, why, charge), now, charge)
  {
    var st', floor := Demoted(cfg, t, st, target, now, why, charge), SafeFloor(t, st);
    var bare := st.(probe := NO_PROBE, probeMs := 0);
    SameLo(t, st, st');
    SameLo(t, st, bare);
    hide SafeFloor, Lo, Hi, Charged, Target, Sane, Left, Room, Locked;
    ChargeCosts(cfg, t, bare, now);
    forall r: nat | r <= target ensures Locked(st'.losses, r, now) == Locked(st.losses, r, now) { SameRung(st'.losses, st.losses, r, now); }
    HeldLess(st.losses, st'.losses, floor, st.rung - 1, target, now, now);
  }

  lemma SameRung(a: seq<RungLoss>, b: seq<RungLoss>, r: nat, now: nat)
    requires |a| == |b| && (r < |a| ==> a[r] == b[r])
    ensures Locked(a, r, now) == Locked(b, r, now)
  {
  }

  lemma SnappedGuarded(cfg: Policy, t: Table, st: Sel, target: nat, now: nat)
    requires Sized(t, st) && Guarded(cfg, t, st, now) && st.phase == Steady && target < |t.profiles|
    requires target <= Lo(t, st) || target <= st.rung
    ensures Pays(cfg, t, st, now, Snapped(cfg, t, st, target, now), now, false)
  {
    hide Guarded, Target, SafeFloor;
    GuardedSame(cfg, t, st, now, Snapped(cfg, t, st, target, now), now);
  }

  lemma PromotedGuarded(cfg: Policy, t: Table, st: Sel, now: nat, why: Reason)
    requires Sized(t, st) && Guarded(cfg, t, st, now) && st.phase == Steady && st.rung < CeilingBelow(t, st, now)
    ensures Pays(cfg, t, st, now, Promoted(cfg, st, st.rung + 1, now, why), now, false)
  {
    var st' := Promoted(cfg, st, st.rung + 1, now, why);
    ClimbStaysBelow(t, st, now);
    SameLo(t, st, st');
    hide SafeFloor, Sane, Lo, Hi, Left, Locked;
    HeldNone(st'.losses, SafeFloor(t, st), st.rung + 1, now);
  }

  // ---- how often loss can demote ---------------------------------------------------------------------------

  lemma TickGuarded(cfg: Policy, t: Table, st: Sel, before: nat, now: nat, rf: Rf)
    requires Phased(cfg, t, st) && Guarded(cfg, t, st, before) && before <= now
    ensures Sized(t, st)
    ensures Pays(cfg, t, st, before, Ticked(cfg, t, st, now, rf), now, LossDemote(cfg, t, st, Clock(rf), now))
  {
    PhasedSized(cfg, t, st);
    if st.phase == Steady {
      hide Phased, Pays, Guarded, Evaluated, BranchOf;
      GuardedSame(cfg, t, st, before, st, now);
      GuardStays(cfg, t, st, before, st, now, false);
      EvaluatedGuarded(cfg, t, st, now, rf);
      PaysThen(cfg, t, st, before, st, now, Evaluated(cfg, t, st, now, rf), now, LossDemote(cfg, t, st, Clock(rf), now));
    } else {
      hide Guarded, Target, Evaluated;
      GuardedSame(cfg, t, st, before, Ticked(cfg, t, st, now, rf), now);
    }
  }

  lemma GuardStays(cfg: Policy, t: Table, st: Sel, before: nat, st': Sel, now: nat, demoted: bool)
    requires t.profiles != [] && Pays(cfg, t, st, before, st', now, demoted)
    ensures Guarded(cfg, t, st', now) && SameEnvelope(st, st')
  {
  }

  /** Two states alike in all that lockouts and phases depend on. */
  predicate Alike(st: Sel, st': Sel) {
    && SameEnvelope(st, st') && st'.rung == st.rung && st'.phase == st.phase && st'.pending == st.pending
    && st'.losses == st.losses && st'.bitrate == st.bitrate && |st'.demotedFrom| == |st.demotedFrom|
    && |st'.promotedInto| == |st.promotedInto|
  }

  lemma AlikeGuarded(cfg: Policy, t: Table, st: Sel, st': Sel, now: nat)
    requires Phased(cfg, t, st) && Guarded(cfg, t, st, now) && Alike(st, st')
    ensures Phased(cfg, t, st') && Sized(t, st') && Guarded(cfg, t, st', now) && Pays(cfg, t, st, now, st', now, false)
    ensures SafeFloor(t, st') == SafeFloor(t, st) && Lo(t, st') == Lo(t, st) && Hi(t, st') == Hi(t, st)
    ensures CeilingBelow(t, st', now) == CeilingBelow(t, st, now)
  {
    SameLo(t, st, st');
    SameCeiling(t, st, st', now);
    hide SafeFloor, CeilingBelow, Target, Guarded, Lo, Hi;
    GuardedSame(cfg, t, st, now, st', now);
    GuardStays(cfg, t, st, now, st', now, false);
  }

  lemma DescendedGuarded(cfg: Policy, t: Table, st: Sel, now: nat)
    requires Phased(cfg, t, st) && Guarded(cfg, t, st, now) && st.phase == Steady
    ensures Sized(t, st) && Pays(cfg, t, st, now, Descended(cfg, t, st, now), now, false)
  {
    PhasedSized(cfg, t, st);
    assert StepDue(cfg, t, st, now) ==> st.rung > SafeFloor(t, st);
    hide Guarded, SteppedDown, StepDue, SafeFloor, Phased, Sized, Pays;
    if StepDue(cfg, t, st, now) {
      StepDownGuarded(cfg, t, st, now);
    } else {
      GuardedSame(cfg, t, st, now, st, now);
    }
  }

  lemma StepDownGuarded(cfg: Policy, t: Table, st: Sel, now: nat)
    requires Phased(cfg, t, st) && Guarded(cfg, t, st, now) && st.phase == Steady && Sized(t, st) && st.rung > SafeFloor(t, st)
    ensures Pays(cfg, t, st, now, SteppedDown(cfg, t, st, now), now, false)
  {
    var due := st.(failsafeNext := now + cfg.stepMs);
    AlikeGuarded(cfg, t, st, due, now);
    hide Guarded, SafeFloor, Phased, Lo, Hi, CeilingBelow, Demoted, Pays;
    DemotedGuarded(cfg, t, due, st.rung - 1, now, ReportTimeout, false);
    PaysThen(cfg, t, st, now, due, now, SteppedDown(cfg, t, st, now), now, false);
  }

  lemma EvaluatedGuarded(cfg: Policy, t: Table, st: Sel, now: nat, rf: Rf)
    requires Phased(cfg, t, st) && Guarded(cfg, t, st, now) && st.phase == Steady
    ensures Sized(t, st) && Pays(cfg, t, st, now, Evaluated(cfg, t, st, now, rf), now, LossDemote(cfg, t, st, Clock(rf), now))
  {
    var thawed := Thawed(st, now);
    assert Alike(st, thawed);
    PhasedSized(cfg, t, st);
    hide Guarded, Target, Thawed, Phased, Snapped, Descended, Carried, Decided, Lo, Hi, Fresh, SafeFloor, CeilingBelow, Pays;
    AlikeGuarded(cfg, t, st, thawed, now);
    var st', demoted := Evaluated(cfg, t, st, now, rf), LossDemote(cfg, t, st, Clock(rf), now);
    match BranchOf(cfg, t, st, now, rf) {
      case Blackout => GuardedSame(cfg, t, st, now, st, now);
      case Pinned =>
        SnappedGuarded(cfg, t, thawed, Lo(t, st), now);
        if st' != thawed { PaysThen(cfg, t, st, now, thawed, now, st', now, demoted); }
      case Range(target) =>
        SnappedGuarded(cfg, t, thawed, target, now);
        PaysThen(cfg, t, st, now, thawed, now, st', now, demoted);
      case Stale =>
        DescendedGuarded(cfg, t, thawed, now);
        PaysThen(cfg, t, st, now, thawed, now, st', now, demoted);
      case Cascade(d) =>
        CascadeGuarded(cfg, t, thawed, now, rf);
        PaysThen(cfg, t, st, now, thawed, now, st', now, demoted);
    }
  }

  lemma CascadeGuarded(cfg: Policy, t: Table, st: Sel, now: nat, rf: Rf)
    requires Phased(cfg, t, st) && Guarded(cfg, t, st, now) && st.phase == Steady
    ensures Sized(t, st)
    ensures var d := Decided(cfg, t, st, now, rf);
            Pays(cfg, t, st, now, Carried(cfg, t, Cleared(st), d, now), now, d.Down? && d.charge)
  {
    hide Decided, Cleared, Guarded, Demoted, SafeFloor, CeilingBelow, Lo, Hi, Phased, Sized, Promoted, Pays, Alike;
    PhasedSized(cfg, t, st);
    ClearedAlike(st, now);
    var d := Decided(cfg, t, st, now, rf);
    var c := Cleared(st);
    AlikeGuarded(cfg, t, st, c, now);
    AlikeGuarded(cfg, t, st, c.(lastDemote := now), now);
    match d {
      case Hold =>
      case Down(target, why, charge) =>
        DemotedGuarded(cfg, t, c, target, now, why, charge);
        PaysThen(cfg, t, st, now, c, now, Demoted(cfg, t, c, target, now, why, charge), now, charge);
      case Up(why) => ClimbPays(cfg, t, st, if why == Backpressure then c.(lastDemote := now) else c, now, why);
    }
  }

  lemma ClearedAlike(st: Sel, now: nat)
    ensures var c := Cleared(st);
            && Alike(st, c) && Alike(st, c.(lastDemote := now)) && c.rung == st.rung && c.phase == st.phase
            && c.(lastDemote := now).rung == st.rung && c.(lastDemote := now).phase == st.phase
  {
  }

  lemma ClimbPays(cfg: Policy, t: Table, st: Sel, from: Sel, now: nat, why: Reason)
    requires Sized(t, from) && Guarded(cfg, t, from, now) && from.phase == Steady && from.rung < CeilingBelow(t, from, now)
    requires t.profiles != [] && Pays(cfg, t, st, now, from, now, false)
    ensures Pays(cfg, t, st, now, Promoted(cfg, from, from.rung + 1, now, why), now, false)
  {
    hide Guarded, Promoted, Pays, CeilingBelow;
    PromotedGuarded(cfg, t, from, now, why);
    PaysThen(cfg, t, st, now, from, now, Promoted(cfg, from, from.rung + 1, now, why), now, false);
  }

  lemma SameCeiling(t: Table, c: Sel, c': Sel, now: nat)
    requires t.profiles != [] && c'.losses == c.losses && c'.minProfile == c.minProfile && c'.maxProfile == c.maxProfile
    ensures CeilingBelow(t, c', now) == CeilingBelow(t, c, now)
  {
  }

  lemma StepGuarded(cfg: Policy, t: Table, st: Sel, op: Op, before: nat, now: nat)
    requires Phased(cfg, t, st) && Guarded(cfg, t, st, before) && before <= now && SameDomain(st, op)
    ensures Sized(t, st) && Phased(cfg, t, Applied(cfg, t, st, op, now))
    ensures Pays(cfg, t, st, before, Applied(cfg, t, st, op, now), now, LossDemote(cfg, t, st, op, now))
  {
    PhasedSized(cfg, t, st);
    AppliedPhased(cfg, t, st, op, now);
    hide Phased, Guarded, SameDomain, Sized, Ticked, LossDemote, Pays;
    if op.Clock? {
      TickGuarded(cfg, t, st, before, now, op.rf);
    } else {
      OthersGuarded(cfg, t, st, op, before, now);
      NoDemote(cfg, t, st, op, now);
    }
  }

  lemma NoDemote(cfg: Policy, t: Table, st: Sel, op: Op, now: nat)
    requires Sized(t, st) && !op.Clock?
    ensures !LossDemote(cfg, t, st, op, now)
  {
  }

  /** Time does not run back and the domain does not change. */
  ghost predicate Orderly(cfg: Policy, t: Table, st: Sel, since: nat, inputs: seq<Input>)
    requires Phased(cfg, t, st)
    decreases |inputs|
  {
    inputs == []
    || (&& since <= inputs[0].1 && SameDomain(st, inputs[0].0)
        && (AppliedPhased(cfg, t, st, inputs[0].0, inputs[0].1);
            Orderly(cfg, t, Applied(cfg, t, st, inputs[0].0, inputs[0].1), inputs[0].1, inputs[1..])))
  }

  function LossDemotes(cfg: Policy, t: Table, st: Sel, inputs: seq<Input>): nat
    requires Phased(cfg, t, st)
    decreases |inputs|
  {
    if inputs == [] then 0
    else
      AppliedPhased(cfg, t, st, inputs[0].0, inputs[0].1);
      (if LossDemote(cfg, t, st, inputs[0].0, inputs[0].1) then 1 else 0)
      + LossDemotes(cfg, t, Applied(cfg, t, st, inputs[0].0, inputs[0].1), inputs[1..])
  }

  function LastTime(since: nat, inputs: seq<Input>): nat
    decreases |inputs|
  {
    if inputs == [] then since else LastTime(inputs[0].1, inputs[1..])
  }

  /** A stretch without conflict: it stays so, locks nothing under the rung in force, and pays for its loss demotions. */
  lemma {:induction false} StretchPays(cfg: Policy, t: Table, st: Sel, since: nat, inputs: seq<Input>)
    requires Phased(cfg, t, st) && Guarded(cfg, t, st, since) && Orderly(cfg, t, st, since, inputs)
    ensures var st', now := Run(cfg, t, st, inputs), LastTime(since, inputs);
            && t.profiles != [] && Guarded(cfg, t, st', now) && Shrinks(st, since, st', now)
            && LossDemotes(cfg, t, st, inputs) + Purse(cfg, t, st', now) <= Purse(cfg, t, st, since)
    decreases |inputs|
  {
    PhasedSized(cfg, t, st);
    if inputs == [] {
      hide Purse;
    } else {
      var op, now := inputs[0].0, inputs[0].1;
      var next := Applied(cfg, t, st, op, now);
      StepGuarded(cfg, t, st, op, since, now);
      hide Phased, Guarded, Applied, SameDomain, LossDemote, Sized, Purse, Base, Locked;
      StretchPays(cfg, t, next, now, inputs[1..]);
    }
  }

  // ---- from any state a run reaches -----------------------------------------------------------------------

  lemma CleanBooked(cfg: Policy, losses: seq<RungLoss>)
    requires forall r :: 0 <= r < |losses| ==> losses[r] == CLEAN
    ensures Booked(cfg, losses)
  {
  }

  lemma ScoredBooked(cfg: Policy, st: Sel, r: Report, now: nat)
    requires Booked(cfg, st.losses)
    ensures Booked(cfg, Scored(cfg, st, r, now))
  {
    ScoredSame(cfg, st, r, now);
    var losses := Scored(cfg, st, r, now);
    hide Scored;
    forall i | 0 <= i < |losses| ensures Sane(cfg, losses[i]) {
      assert losses[i].(score := 0) == st.losses[i].(score := 0) && Sane(cfg, st.losses[i]);
    }
  }

  lemma ChargedBooked(cfg: Policy, t: Table, st: Sel, now: nat)
    requires t.profiles != [] && Booked(cfg, st.losses)
    ensures Booked(cfg, Charged(cfg, t, st, now))
  {
    hide SafeFloor, Locked;
  }

  lemma CarriedLosses(cfg: Policy, t: Table, st: Sel, d: Decision, now: nat)
    requires Sized(t, st) && Booked(cfg, st.losses) && (d.Down? ==> d.target < st.rung) && (d.Up? ==> st.rung + 1 < |t.profiles|)
    ensures Booked(cfg, Carried(cfg, t, st, d, now).losses)
  {
    hide Booked, Demoted;
    if d.Down? { DemotedLosses(cfg, t, st, d.target, now, d.why, d.charge); }
  }

  lemma DescendedLosses(cfg: Policy, t: Table, st: Sel, now: nat)
    requires Sized(t, st) && Booked(cfg, st.losses)
    ensures Booked(cfg, Descended(cfg, t, st, now).losses)
  {
    hide Booked, Demoted, SafeFloor, ReportAge;
    if StepDue(cfg, t, st, now) {
      DemotedLosses(cfg, t, st.(failsafeNext := now + cfg.stepMs), st.rung - 1, now, ReportTimeout, false);
    }
  }

  /** A tick leaves the strikes as they are or charges them. */
  lemma TickedLosses(cfg: Policy, t: Table, st: Sel, now: nat, rf: Rf)
    requires Sized(t, st) && Booked(cfg, st.losses)
    ensures Booked(cfg, Ticked(cfg, t, st, now, rf).losses)
  {
    hide Booked, Target, Evaluated;
    if st.phase == Steady { EvaluatedLosses(cfg, t, st, now, rf); }
  }

  lemma EvaluatedLosses(cfg: Policy, t: Table, st: Sel, now: nat, rf: Rf)
    requires Sized(t, st) && Booked(cfg, st.losses)
    ensures Booked(cfg, Evaluated(cfg, t, st, now, rf).losses)
  {
    var thawed := Thawed(st, now);
    assert Sized(t, thawed) && Sized(t, Cleared(thawed)) && thawed.losses == Cleared(thawed).losses == st.losses;
    assert thawed.rung == Cleared(thawed).rung;
    hide Booked, Target, Thawed, Cleared, Decided, Lo, Hi, Fresh, Carried, Descended, Sized;
    match BranchOf(cfg, t, st, now, rf) {
      case Stale => DescendedLosses(cfg, t, thawed, now);
      case Cascade(d) => CarriedLosses(cfg, t, Cleared(thawed), d, now);
      case _ =>
    }
  }

  lemma DemotedLosses(cfg: Policy, t: Table, st: Sel, target: nat, now: nat, why: Reason, charge: bool)
    requires t.profiles != [] && target < |t.profiles| && st.rung < |st.promotedInto| && Booked(cfg, st.losses)
    ensures Booked(cfg, Demoted(cfg, t, st, target, now, why, charge).losses)
  {
    ChargedBooked(cfg, t, st.(probe := NO_PROBE, probeMs := 0), now);
    hide Booked, Charged, Target;
  }

  lemma AppliedBooked(cfg: Policy, t: Table, st: Sel, op: Op, now: nat)
    requires Sized(t, st) && Booked(cfg, st.losses)
    ensures Booked(cfg, Applied(cfg, t, st, op, now).losses)
  {
    CleanBooked(cfg, Reset(st, now).losses);
    match op {
      case Clock(rf) =>
        hide Booked, Ticked;
        TickedLosses(cfg, t, st, now, rf);
      case Feedback(r) =>
        hide Booked, Scored;
        ScoredBooked(cfg, Identified(st, r, now), r, now);
      case Retuned(_, _) => hide Booked;
      case _ => hide Booked;
    }
  }

  lemma {:induction false} RunBooked(cfg: Policy, t: Table, st: Sel, inputs: seq<Input>)
    requires Phased(cfg, t, st) && Booked(cfg, st.losses)
    ensures Booked(cfg, Run(cfg, t, st, inputs).losses)
    decreases |inputs|
  {
    PhasedSized(cfg, t, st);
    hide Booked, Applied, Phased;
    if inputs != [] {
      AppliedPhased(cfg, t, st, inputs[0].0, inputs[0].1);
      AppliedBooked(cfg, t, st, inputs[0].0, inputs[0].1);
      RunBooked(cfg, t, Applied(cfg, t, st, inputs[0].0, inputs[0].1), inputs[1..]);
    }
  }

  /** Any state a run reaches, with whatever pins, reporters and radio environments on the way. */
  ghost predicate Reached(cfg: Policy, t: Table, st: Sel) {
    t.profiles != [] && exists min, max, past :: Arrives(cfg, t, min, max, past, st)
  }

  ghost predicate Arrives(cfg: Policy, t: Table, min: Byte, max: Byte, past: seq<Input>, st: Sel)
    requires t.profiles != []
  {
    BegunPhased(cfg, t, min, max);
    Run(cfg, t, Begun(t, min, max), past) == st
  }

  lemma ReachedBooked(cfg: Policy, t: Table, st: Sel)
    requires Reached(cfg, t, st)
    ensures Phased(cfg, t, st) && Sized(t, st) && Booked(cfg, st.losses)
  {
    var min, max, past :| Arrives(cfg, t, min, max, past, st);
    BegunPhased(cfg, t, min, max);
    CleanBooked(cfg, Begun(t, min, max).losses);
    RunPhased(cfg, t, Begun(t, min, max), past);
    RunBooked(cfg, t, Begun(t, min, max), past);
    PhasedSized(cfg, t, st);
    hide Begun, Run, Booked, Phased, Sized;
  }

  /**
   * From any state a run reaches with no rung locked at or below the envelope's bottom, until the next reset or re-pin:
   * loss demotes at most as often as the rungs above the safe floor have strikes left, and once more for each rung above
   * it that is locked already at or below the rung in force.
   */
  lemma LossDemotesBounded(cfg: Policy, t: Table, st: Sel, since: nat, inputs: seq<Input>)
    requires Reached(cfg, t, st) && Clear(t, st, since)
    ensures Phased(cfg, t, st)
    ensures Orderly(cfg, t, st, since, inputs) ==>
              var floor, left := SafeFloor(t, st), Left(cfg, st.losses, SafeFloor(t, st), |st.losses|);
              && LossDemotes(cfg, t, st, inputs) <= left + Held(st.losses, floor, Base(st), since)
              && left <= (|t.profiles| - 1 - floor) * Cap(cfg)
              && Held(st.losses, floor, Base(st), since) <= (if Base(st) > floor then Base(st) - floor else 0)
              && ((forall r: nat :: r <= Base(st) ==> !Locked(st.losses, r, since)) ==> Held(st.losses, floor, Base(st), since) == 0)
  {
    hide *;
    ReachedBooked(cfg, t, st);
    PhasedSized(cfg, t, st);
    PurseIs(cfg, t, st, since);
    if Orderly(cfg, t, st, since, inputs) { StretchPays(cfg, t, st, since, inputs); }
  }

  lemma PurseIs(cfg: Policy, t: Table, st: Sel, now: nat)
    requires Sized(t, st)
    ensures var floor, left := SafeFloor(t, st), Left(cfg, st.losses, SafeFloor(t, st), |st.losses|);
            && Purse(cfg, t, st, now) == left + Held(st.losses, floor, Base(st), now)
            && left <= (|t.profiles| - 1 - floor) * Cap(cfg)
            && Held(st.losses, floor, Base(st), now) <= (if Base(st) > floor then Base(st) - floor else 0)
            && ((forall r: nat :: r <= Base(st) ==> !Locked(st.losses, r, now)) ==> Held(st.losses, floor, Base(st), now) == 0)
    ensures Clear(t, st, now) && Booked(cfg, st.losses) ==> Guarded(cfg, t, st, now)
  {
    var floor := SafeFloor(t, st);
    hide SafeFloor, Left, Held, Base, Locked, Booked, Clear, Cap;
    HeldBound(st.losses, floor, Base(st), now);
    LeftWithin(cfg, st.losses, floor);
    if forall r: nat :: r <= Base(st) ==> !Locked(st.losses, r, now) { HeldNone(st.losses, floor, Base(st), now); }
  }

  lemma LeftWithin(cfg: Policy, losses: seq<RungLoss>, floor: nat)
    requires floor < |losses|
    ensures Left(cfg, losses, floor, |losses|) <= (|losses| - 1 - floor) * Cap(cfg)
  {
    LeftBound(cfg, losses, floor, |losses|);
    hide Left, Cap;
    if |losses| == floor + 1 { assert |losses| - 1 - floor == 0; }
  }

  /**
   * Over such a stretch no rung comes to be locked at or below the rung in force: what is locked there, outside a lead, was
   * so when the stretch began. So none is when none was.
   */
  lemma NoLockedRungBelow(cfg: Policy, t: Table, st: Sel, since: nat, inputs: seq<Input>)
    requires Reached(cfg, t, st) && Clear(t, st, since)
    ensures Phased(cfg, t, st)
    ensures Orderly(cfg, t, st, since, inputs) ==>
              var st', now := Run(cfg, t, st, inputs), LastTime(since, inputs);
              st'.phase != BitrateLead ==>
                forall r: nat :: r <= st'.rung && Locked(st'.losses, r, now) ==> r <= Base(st) && Locked(st.losses, r, since)
  {
    ReachedBooked(cfg, t, st);
    hide Orderly, Phased, Locked, Booked, Clear, Reached, LastTime, Run;
    if Orderly(cfg, t, st, since, inputs) { StretchPays(cfg, t, st, since, inputs); }
  }
}
