/** A latched rung at or below the envelope's bottom: from there loss can demote without end. */
module SelectorConflict {
  import opened Bytes
  import opened SelectorSpec
  import opened SelectorRuns

  // ---- a latched rung was heard of --------------------------------------------------------------------

  /** Without a reporter there is no report and nothing was charged. */
  ghost predicate Sourced(st: Sel) {
    && (st.haveReport ==> st.source.Some?)
    && (st.source.None? ==> forall r :: 0 <= r < |st.losses| ==> st.losses[r] == CLEAN)
  }

  lemma CarriedSource(cfg: Policy, t: Table, st: Sel, d: Decision, now: nat)
    requires Sized(t, st) && (d.Down? ==> d.target < st.rung) && (d.Up? ==> st.rung + 1 < |t.profiles|)
    ensures Carried(cfg, t, st, d, now).source == st.source
  {
    hide Target, Charged, FlapNoted;
  }

  lemma DescendedSource(cfg: Policy, t: Table, st: Sel, now: nat)
    requires Sized(t, st)
    ensures Descended(cfg, t, st, now).source == st.source && Descended(cfg, t, st, now).losses == st.losses
  {
    hide Target, FlapNoted, SafeFloor, ReportAge;
  }

  /** Without a fresh report a tick charges nothing. */
  lemma EvaluatedSource(cfg: Policy, t: Table, st: Sel, now: nat, rf: Rf)
    requires Sized(t, st)
    ensures var st' := Evaluated(cfg, t, st, now, rf); st'.source == st.source && (!st.haveReport ==> st'.losses == st.losses)
  {
    var thawed := Thawed(st, now);
    assert Sized(t, thawed) && Sized(t, Cleared(thawed)) && thawed.losses == st.losses && thawed.rung == st.rung;
    assert thawed.source == Cleared(thawed).source == st.source && thawed.haveReport == st.haveReport;
    assert !thawed.haveReport ==> !Fresh(cfg, thawed, now);
    hide Target, Thawed, Cleared, Decided, Lo, Hi, Fresh, Carried, Descended, Sized;
    match BranchOf(cfg, t, st, now, rf) {
      case Stale => DescendedSource(cfg, t, thawed, now);
      case Cascade(d) => CarriedSource(cfg, t, Cleared(thawed), d, now);
      case _ =>
    }
  }

  lemma TickedSource(cfg: Policy, t: Table, st: Sel, now: nat, rf: Rf)
    requires Sized(t, st) && Sourced(st)
    ensures Sourced(Ticked(cfg, t, st, now, rf))
  {
    TickedReport(cfg, t, st, now, rf);
    hide Target, Evaluated, Thawed;
    if st.phase == Steady { EvaluatedSource(cfg, t, st, now, rf); }
    assert Thawed(st, now).haveReport == st.haveReport by { ThawedReport(st, now); }
  }

  lemma ThawedReport(st: Sel, now: nat)
    ensures Thawed(st, now).haveReport == st.haveReport
  {
  }

  lemma AppliedSource(cfg: Policy, t: Table, st: Sel, op: Op, now: nat)
    requires Sized(t, st) && Sourced(st)
    ensures Sourced(Applied(cfg, t, st, op, now))
  {
    if op.Clock? {
      hide Sourced, Ticked;
      TickedSource(cfg, t, st, now, op.rf);
    } else {
      hide Scored, Ticked;
    }
  }

  lemma {:induction false} RunSource(cfg: Policy, t: Table, st: Sel, inputs: seq<Input>)
    requires Phased(cfg, t, st) && Sourced(st)
    ensures Sourced(Run(cfg, t, st, inputs))
    decreases |inputs|
  {
    PhasedSized(cfg, t, st);
    hide Sourced, Applied, Phased;
    if inputs != [] {
      AppliedPhased(cfg, t, st, inputs[0].0, inputs[0].1);
      AppliedSource(cfg, t, st, inputs[0].0, inputs[0].1);
      RunSource(cfg, t, Applied(cfg, t, st, inputs[0].0, inputs[0].1), inputs[1..]);
    }
  }

  lemma ReachedSource(cfg: Policy, t: Table, st: Sel)
    requires Reached(cfg, t, st)
    ensures Sourced(st)
  {
    var min, max, past :| Arrives(cfg, t, min, max, past, st);
    BegunPhased(cfg, t, min, max);
    RunSource(cfg, t, Begun(t, min, max), past);
    hide Run, Phased;
  }

  // ---- one move ------------------------------------------------------------------------------------------

  /** A rung latched at or below the bottom of an envelope with room above the safe floor. */
  predicate Overruled(t: Table, st: Sel, r: nat)
    requires t.profiles != []
  {
    && r < |st.losses| && st.losses[r].latched && r <= Lo(t, st) && st.source.Some?
    && Lo(t, st) < Hi(t, st) && SafeFloor(t, st) < Hi(t, st)
  }

  predicate Standing(cfg: Policy, t: Table, st: Sel, r: nat) {
    Phased(cfg, t, st) && Overruled(t, st, r) && st.phase == Steady
  }

  /** At rest in the envelope. */
  predicate Resting(cfg: Policy, t: Table, st: Sel, r: nat) {
    Standing(cfg, t, st, r) && Lo(t, st) <= st.rung <= Hi(t, st)
  }

  /** Everything about the radio allows a climb. */
  const FAIR := Rf(false, false, true, true)

  /** The reporter's next report: nothing got through. */
  function Acute(st: Sel): Report {
    var key := if st.source.Some? then st.source.value else (0, 0);
    Report(key.0, key.1, if st.epoch < 0xFFFF_FFFF then st.epoch + 1 else 0, NO_PROBE, 0xFFFF, 0xFFFF_FFFF)
  }

  /** A time by which every wait is over and every veto stale. */
  function Quiet(cfg: Policy, st: Sel, since: nat): (q: nat)
    ensures q >= since && q >= st.deadline && q >= st.csaUntil && q >= st.freezeUntil
    ensures q >= st.verdictMs + cfg.verdictTtlMs && q >= st.probeMs + cfg.vetoTtlMs && Since(q, st.lastChange) >= 0x1_0000_0000
  {
    var m := since + st.deadline + st.csaUntil + st.freezeUntil + st.verdictMs + cfg.verdictTtlMs + st.probeMs + cfg.vetoTtlMs;
    if Since(m, st.lastChange) >= 0x1_0000_0000 then m else LaterStill(m, st.lastChange); m + 0x1_0000_0000
  }

  lemma LaterStill(m: nat, past: nat)
    requires Since(m, past) < 0x1_0000_0000
    ensures Since(m + 0x1_0000_0000, past) >= 0x1_0000_0000
  {
    var x := m - past;
    var q := x / 0x1_0000_0000_0000_0000;
    assert x == q * 0x1_0000_0000_0000_0000 + Since(m, past);
    RemainderIs(x + 0x1_0000_0000, q, Since(m, past) + 0x1_0000_0000);
  }

  lemma RemainderIs(n: int, q: int, r: nat)
    requires n == q * 0x1_0000_0000_0000_0000 + r && 0 <= r < 0x1_0000_0000_0000_0000
    ensures n % 0x1_0000_0000_0000_0000 == r
  {
  }

  /** The state once the report is in. */
  lemma MoveHeard(cfg: Policy, t: Table, st: Sel, r: nat, q: nat)
    requires Standing(cfg, t, st, r) && st.epoch < 0xFFFF_FFFF
    ensures Sized(t, st) && SameDomain(st, Feedback(Acute(st)))
    ensures var st1 := Applied(cfg, t, st, Feedback(Acute(st)), q);
            && Standing(cfg, t, st1, r) && Sized(t, st1) && SameEnvelope(st, st1) && st1.rung == st.rung && st1.epoch == st.epoch + 1
            && st1.observed == st.rung && st1.emergency && st1.haveReport && st1.lastReport == q
            && st1.csaUntil == st.csaUntil && st1.freezeUntil == st.freezeUntil && st1.verdict == st.verdict
            && st1.verdictMs == st.verdictMs && st1.probe == st.probe && st1.probeMs == st.probeMs && st1.lastChange == st.lastChange
  {
    hide Reported, Scored, Lo, Hi, SafeFloor, Target, Acute;
    PhasedSized(cfg, t, st);
    AcuteIs(st);
    AcuteHeard(cfg, st, q);
    AppliedPhased(cfg, t, st, Feedback(Acute(st)), q);
    OthersStay(cfg, t, st, Feedback(Acute(st)), q);
    var st1 := Applied(cfg, t, st, Feedback(Acute(st)), q);
    ScoredSame(cfg, st, Acute(st), q);
    assert st1.losses[r].(score := 0) == st.losses[r].(score := 0);
    SameLo(t, st, st1);
  }

  lemma AcuteIs(st: Sel)
    requires st.source.Some? && st.epoch < 0xFFFF_FFFF
    ensures st.source == Some((Acute(st).originator, Acute(st).session)) && Acute(st).epoch == st.epoch + 1
  {
    assert st.source == Some((st.source.value.0, st.source.value.1));
  }

  /** The report is news of the same reporter, and acute. */
  lemma AcuteHeard(cfg: Policy, st: Sel, q: nat)
    requires st.source.Some? && st.epoch < 0xFFFF_FFFF
    ensures Reported(cfg, st, Acute(st), q)
         == st.(epoch := st.epoch + 1, observed := st.rung, emergency := true, losses := Scored(cfg, st, Acute(st), q),
                haveReport := true, lastReport := q, failsafeNext := 0)
  {
    hide Scored;
    AcuteIs(st);
    assert Identified(st, Acute(st), q) == st && !Replay(st, Acute(st));
  }

  /** Conflict opens the whole envelope. */
  lemma OpenCeiling(t: Table, st: Sel, r: nat, now: nat)
    requires t.profiles != [] && Overruled(t, st, r)
    ensures CeilingBelow(t, st, now) == Hi(t, st)
  {
    assert Locked(st.losses, r, now);
    hide Lo, Hi, SafeFloor, Locked, CeilingBelow;
    ClimbStaysBelow(t, st, now);
  }

  /** What the tick at the report decides: down to the safe floor from above it, else up by one. */
  lemma MoveDecides(cfg: Policy, t: Table, st: Sel, r: nat, q: nat)
    requires Resting(cfg, t, st, r) && Sized(t, st) && st.observed == st.rung && st.emergency
    requires q >= st.freezeUntil && q >= st.verdictMs + cfg.verdictTtlMs && q >= st.probeMs + cfg.vetoTtlMs
    requires Since(q, st.lastChange) >= 0x1_0000_0000
    ensures var d := Decided(cfg, t, st, q, FAIR);
            if st.rung > SafeFloor(t, st) then d == Down(SafeFloor(t, st), LossEmergency, true) else d.Up?
  {
    OpenCeiling(t, st, r, q);
    hide Lo, Hi, SafeFloor, CeilingBelow, Since, Target;
  }

  lemma MoveBranch(cfg: Policy, t: Table, st: Sel, r: nat, q: nat)
    requires Resting(cfg, t, st, r) && Sized(t, st) && st.haveReport && st.lastReport == q && q >= st.csaUntil
    ensures Thawed(st, q) == st.(csaUntil := 0)
    ensures BranchOf(cfg, t, st, q, FAIR) == Cascade(Decided(cfg, t, st.(csaUntil := 0), q, FAIR))
  {
    hide Lo, Hi, SafeFloor, Decided, Target;
  }

  /** The climb or the demotion begins. */
  lemma MoveTicks(cfg: Policy, t: Table, st: Sel, r: nat, q: nat)
    requires Resting(cfg, t, st, r) && Sized(t, st) && st.observed == st.rung && st.emergency
    requires st.haveReport && st.lastReport == q && q >= st.csaUntil
    requires q >= st.freezeUntil && q >= st.verdictMs + cfg.verdictTtlMs && q >= st.probeMs + cfg.vetoTtlMs
    requires Since(q, st.lastChange) >= 0x1_0000_0000
    ensures var st2, floor := Ticked(cfg, t, st, q, FAIR), SafeFloor(t, st);
            && Overruled(t, st2, r) && SameEnvelope(st, st2) && st2.epoch == st.epoch && st2.deadline <= q + 0x1_0000_0000
            && (if st.rung > floor then st2.phase == BitrateLead && st2.pending == floor else st2.phase == McsGrace && st2.rung == st.rung + 1)
            && (LossDemote(cfg, t, st, Clock(FAIR), q) <==> st.rung > floor)
  {
    var thawed := st.(csaUntil := 0);
    var c := Cleared(thawed);
    MoveBranch(cfg, t, st, r, q);
    SameLo(t, st, thawed);
    assert Resting(cfg, t, thawed, r) && Sized(t, thawed);
    MoveDecides(cfg, t, thawed, r, q);
    assert c.rung == st.rung && c.losses == st.losses && c.promotedInto == st.promotedInto && SameEnvelope(st, c) && Sized(t, c);
    SameLo(t, st, c);
    hide Lo, Hi, SafeFloor, CeilingBelow, Since, Target, Decided, Cleared, Thawed, BranchOf;
    MoveCarries(cfg, t, c, r, q, Decided(cfg, t, thawed, q, FAIR));
  }

  lemma MoveCarries(cfg: Policy, t: Table, c: Sel, r: nat, q: nat, d: Decision)
    requires Sized(t, c) && Overruled(t, c, r) && c.phase == Steady && c.rung <= Hi(t, c)
    requires if c.rung > SafeFloor(t, c) then d == Down(SafeFloor(t, c), LossEmergency, true) else d.Up?
    ensures c.rung <= SafeFloor(t, c) ==> c.rung + 1 < |t.profiles|
    ensures var st2 := Carried(cfg, t, c, d, q);
            && Overruled(t, st2, r) && SameEnvelope(c, st2) && st2.epoch == c.epoch && st2.deadline <= q + 0x1_0000_0000
            && if c.rung > SafeFloor(t, c) then st2.phase == BitrateLead && st2.pending == SafeFloor(t, c)
               else st2.phase == McsGrace && st2.rung == c.rung + 1
  {
  }

  /** Lead or grace over, the link is at rest one rung up or at the safe floor. */
  lemma MoveSettles(cfg: Policy, t: Table, st: Sel, r: nat, now: nat)
    requires Phased(cfg, t, st) && Sized(t, st) && Overruled(t, st, r) && now >= st.deadline
    requires st.phase == BitrateLead || st.phase == McsGrace
    requires var rung := if st.phase == BitrateLead then st.pending else st.rung; Lo(t, st) <= rung <= Hi(t, st)
    ensures var st3 := Ticked(cfg, t, st, now, FAIR);
            && Resting(cfg, t, st3, r) && SameEnvelope(st, st3) && st3.epoch == st.epoch
            && st3.rung == if st.phase == BitrateLead then st.pending else st.rung
    ensures !LossDemote(cfg, t, st, Clock(FAIR), now)
  {
    TickedPhased(cfg, t, st, now, FAIR);
    SameLo(t, st, Ticked(cfg, t, st, now, FAIR));
    hide Lo, Hi, SafeFloor, Target;
  }

  /** Nothing got through, and the link moves: a report, a tick that acts on it, and one that ends the move. */
  function Move(cfg: Policy, st: Sel, since: nat): seq<Input> {
    var q := Quiet(cfg, st, since);
    [(Feedback(Acute(st)), q), (Clock(FAIR), q), (Clock(FAIR), q + 0x1_0000_0000)]
  }

  /** One input of an orderly stretch. */
  lemma OneInput(cfg: Policy, t: Table, st: Sel, since: nat, x: Input, rest: seq<Input>)
    requires Phased(cfg, t, st) && Sized(t, st) && since <= x.1 && SameDomain(st, x.0)
    ensures var st' := Applied(cfg, t, st, x.0, x.1);
            && Phased(cfg, t, st')
            && (Orderly(cfg, t, st', x.1, rest) ==> Orderly(cfg, t, st, since, [x] + rest))
            && Run(cfg, t, st, [x] + rest) == Run(cfg, t, st', rest)
            && LossDemotes(cfg, t, st, [x] + rest) == (if LossDemote(cfg, t, st, x.0, x.1) then 1 else 0) + LossDemotes(cfg, t, st', rest)
            && LastTime(since, [x] + rest) == LastTime(x.1, rest)
  {
    AppliedPhased(cfg, t, st, x.0, x.1);
    assert ([x] + rest)[1..] == rest;
    hide Phased, Applied, SameDomain, LossDemote, Sized;
  }

  lemma NoInputs(cfg: Policy, t: Table, st: Sel, since: nat)
    requires Phased(cfg, t, st)
    ensures Run(cfg, t, st, []) == st && LastTime(since, []) == since && Orderly(cfg, t, st, since, [])
    ensures LossDemotes(cfg, t, st, []) == 0
  {
    hide Phased;
  }

  lemma SameTwice(a: Sel, b: Sel, c: Sel)
    requires SameEnvelope(a, b) && SameEnvelope(b, c)
    ensures SameEnvelope(a, c)
  {
  }

  lemma MoveIs(cfg: Policy, st: Sel, since: nat)
    ensures var q := Quiet(cfg, st, since);
            Move(cfg, st, since) == [(Feedback(Acute(st)), q), (Clock(FAIR), q), (Clock(FAIR), q + 0x1_0000_0000)]
  {
    hide Quiet, Acute;
  }

  /** Two inputs at one time and a third later, and what follows. */
  lemma ThreeInputs(cfg: Policy, t: Table, st: Sel, since: nat, a: Op, b: Op, c: Op, q: nat, later: nat, rest: seq<Input>)
    requires Phased(cfg, t, st) && Sized(t, st) && since <= q <= later && SameDomain(st, a)
    requires var st1 := Applied(cfg, t, st, a, q);
             && Phased(cfg, t, st1) && Sized(t, st1) && SameDomain(st1, b)
             && var st2 := Applied(cfg, t, st1, b, q);
                Phased(cfg, t, st2) && Sized(t, st2) && SameDomain(st2, c)
    ensures var st1 := Applied(cfg, t, st, a, q);
            var st2 := Applied(cfg, t, st1, b, q);
            var st3, inputs := Applied(cfg, t, st2, c, later), [(a, q), (b, q), (c, later)] + rest;
            && Phased(cfg, t, st3)
            && (Orderly(cfg, t, st3, later, rest) ==> Orderly(cfg, t, st, since, inputs))
            && Run(cfg, t, st, inputs) == Run(cfg, t, st3, rest) && LastTime(since, inputs) == LastTime(later, rest)
            && LossDemotes(cfg, t, st, inputs)
               == (if LossDemote(cfg, t, st, a, q) then 1 else 0) + (if LossDemote(cfg, t, st1, b, q) then 1 else 0)
                  + (if LossDemote(cfg, t, st2, c, later) then 1 else 0) + LossDemotes(cfg, t, st3, rest)
  {
    hide *;
    var st1 := Applied(cfg, t, st, a, q);
    var st2 := Applied(cfg, t, st1, b, q);
    OneInput(cfg, t, st2, q, (c, later), rest);
    OneInput(cfg, t, st1, q, (b, q), [(c, later)] + rest);
    OneInput(cfg, t, st, since, (a, q), [(b, q)] + ([(c, later)] + rest));
    assert [(a, q), (b, q), (c, later)] + rest == [(a, q)] + ([(b, q)] + ([(c, later)] + rest));
  }

  /** A move, and whatever orderly inputs follow it. */
  lemma MoveThen(cfg: Policy, t: Table, st: Sel, since: nat, r: nat)
    requires Resting(cfg, t, st, r) && st.epoch < 0xFFFF_FFFF
    ensures Phased(cfg, t, st)
    ensures var st', now := Run(cfg, t, st, Move(cfg, st, since)), LastTime(since, Move(cfg, st, since));
            && Resting(cfg, t, st', r) && SameEnvelope(st, st') && st'.epoch == st.epoch + 1
            && st'.rung == (if st.rung > SafeFloor(t, st) then SafeFloor(t, st) else st.rung + 1)
            && forall rest :: Orderly(cfg, t, st', now, rest) ==>
                 && Orderly(cfg, t, st, since, Move(cfg, st, since) + rest)
                 && LossDemotes(cfg, t, st, Move(cfg, st, since) + rest)
                    == (if st.rung > SafeFloor(t, st) then 1 else 0) + LossDemotes(cfg, t, st', rest)
  {
    hide *;
    var q := Quiet(cfg, st, since);
    RestingParts(cfg, t, st, r);
    MoveHeard(cfg, t, st, r, q);
    var st1 := Applied(cfg, t, st, Feedback(Acute(st)), q);
    SameLo(t, st, st1);
    RestingIs(cfg, t, st1, r);
    RestingParts(cfg, t, st1, r);
    MoveTicks(cfg, t, st1, r, q);
    var st2 := Applied(cfg, t, st1, Clock(FAIR), q);
    TickIs(cfg, t, st1, q);
    SameLo(t, st1, st2);
    AppliedPhased(cfg, t, st1, Clock(FAIR), q);
    PhasedSized(cfg, t, st2);
    MoveSettles(cfg, t, st2, r, q + 0x1_0000_0000);
    var st3 := Applied(cfg, t, st2, Clock(FAIR), q + 0x1_0000_0000);
    TickIs(cfg, t, st2, q + 0x1_0000_0000);
    SameLo(t, st2, st3);
    RestingParts(cfg, t, st3, r);
    SameTwice(st, st1, st2);
    SameTwice(st, st2, st3);
    NoDemote(cfg, t, st, Feedback(Acute(st)), q);
    MoveIs(cfg, st, since);
    forall rest | Orderly(cfg, t, st3, q + 0x1_0000_0000, rest)
      ensures Orderly(cfg, t, st, since, Move(cfg, st, since) + rest)
      ensures LossDemotes(cfg, t, st, Move(cfg, st, since) + rest)
           == (if st.rung > SafeFloor(t, st) then 1 else 0) + LossDemotes(cfg, t, st3, rest)
    {
      ThreeInputs(cfg, t, st, since, Feedback(Acute(st)), Clock(FAIR), Clock(FAIR), q, q + 0x1_0000_0000, rest);
    }
    ThreeInputs(cfg, t, st, since, Feedback(Acute(st)), Clock(FAIR), Clock(FAIR), q, q + 0x1_0000_0000, []);
    assert Move(cfg, st, since) + [] == Move(cfg, st, since);
    NoInputs(cfg, t, st3, q + 0x1_0000_0000);
  }

  lemma TickIs(cfg: Policy, t: Table, st: Sel, now: nat)
    requires Sized(t, st)
    ensures Applied(cfg, t, st, Clock(FAIR), now) == Ticked(cfg, t, st, now, FAIR) && SameDomain(st, Clock(FAIR))
  {
    hide Ticked;
  }

  lemma RestingIs(cfg: Policy, t: Table, st: Sel, r: nat)
    requires Standing(cfg, t, st, r) && t.profiles != [] && Lo(t, st) <= st.rung <= Hi(t, st)
    ensures Resting(cfg, t, st, r)
  {
  }

  lemma RestingParts(cfg: Policy, t: Table, st: Sel, r: nat)
    requires Resting(cfg, t, st, r)
    ensures Standing(cfg, t, st, r) && Phased(cfg, t, st) && Sized(t, st) && Overruled(t, st, r) && st.phase == Steady
    ensures Lo(t, st) <= st.rung <= Hi(t, st) && SafeFloor(t, st) < Hi(t, st) && Lo(t, st) <= SafeFloor(t, st)
  {
    hide Lo, Hi, SafeFloor, Target;
  }

  // ---- no end ----------------------------------------------------------------------------------------------

  /** Moves to make before the first loss demotion. */
  function Gap(t: Table, st: Sel): nat
    requires t.profiles != []
  {
    if st.rung > SafeFloor(t, st) then 0 else SafeFloor(t, st) + 1 - st.rung
  }

  /** A number of moves in a row. */
  function Moves(cfg: Policy, t: Table, st: Sel, since: nat, m: nat): seq<Input>
    requires Phased(cfg, t, st)
    decreases m
  {
    if m == 0 then []
    else
      var move := Move(cfg, st, since);
      RunPhased(cfg, t, st, move);
      move + Moves(cfg, t, Run(cfg, t, st, move), LastTime(since, move), m - 1)
  }

  /** At rest under a conflict, every second move is a loss demotion. */
  lemma {:induction false} MovesDemote(cfg: Policy, t: Table, st: Sel, since: nat, r: nat, m: nat, n: nat)
    requires Resting(cfg, t, st, r) && st.epoch + m <= 0xFFFF_FFFF && (n > 0 ==> m >= Gap(t, st) + 2 * n)
    ensures Phased(cfg, t, st) && Orderly(cfg, t, st, since, Moves(cfg, t, st, since, m))
    ensures LossDemotes(cfg, t, st, Moves(cfg, t, st, since, m)) >= n
    decreases m
  {
    hide *;
    RestingParts(cfg, t, st, r);
    MovesIs(cfg, t, st, since, m);
    if m == 0 {
      NoInputs(cfg, t, st, since);
      NoGap(t, st, m, n);
    } else {
      MoveThen(cfg, t, st, since, r);
      var move := Move(cfg, st, since);
      var st', now := Run(cfg, t, st, move), LastTime(since, move);
      SameLo(t, st, st');
      GapStep(t, st, st');
      var left := if st.rung > SafeFloor(t, st) && n > 0 then n - 1 else n;
      MovesDemote(cfg, t, st', now, r, m - 1, left);
    }
  }

  lemma NoGap(t: Table, st: Sel, m: nat, n: nat)
    requires t.profiles != [] && m == 0 && (n > 0 ==> m >= Gap(t, st) + 2 * n)
    ensures n == 0
  {
  }

  lemma GapStep(t: Table, st: Sel, st': Sel)
    requires t.profiles != [] && SafeFloor(t, st') == SafeFloor(t, st)
    requires st'.rung == if st.rung > SafeFloor(t, st) then SafeFloor(t, st) else st.rung + 1
    ensures if st.rung > SafeFloor(t, st) then Gap(t, st) == 0 && Gap(t, st') == 1 else Gap(t, st') == Gap(t, st) - 1
  {
    hide SafeFloor;
  }

  lemma MovesIs(cfg: Policy, t: Table, st: Sel, since: nat, m: nat)
    requires Phased(cfg, t, st)
    ensures m == 0 ==> Moves(cfg, t, st, since, m) == []
    ensures m > 0 ==>
              var move := Move(cfg, st, since);
              && Phased(cfg, t, Run(cfg, t, st, move))
              && Moves(cfg, t, st, since, m) == move + Moves(cfg, t, Run(cfg, t, st, move), LastTime(since, move), m - 1)
  {
    hide Phased, Move, Run, LastTime;
    if m > 0 { RunPhased(cfg, t, st, Move(cfg, st, since)); }
  }

  /** A tick out of a phase. */
  function Settle(cfg: Policy, st: Sel, since: nat): seq<Input> {
    if st.phase == Steady then [] else [(Clock(FAIR), since + st.deadline)]
  }

  lemma Settles(cfg: Policy, t: Table, st: Sel, since: nat, r: nat)
    requires Phased(cfg, t, st) && Sized(t, st) && Overruled(t, st, r)
    ensures var st', now := Run(cfg, t, st, Settle(cfg, st, since)), LastTime(since, Settle(cfg, st, since));
            && Phased(cfg, t, st') && Sized(t, st') && Overruled(t, st', r) && SameEnvelope(st, st') && st'.phase == Steady
            && st'.epoch == st.epoch
            && forall rest :: Orderly(cfg, t, st', now, rest) ==>
                 && Orderly(cfg, t, st, since, Settle(cfg, st, since) + rest)
                 && LossDemotes(cfg, t, st, Settle(cfg, st, since) + rest) == LossDemotes(cfg, t, st', rest)
  {
    var q := since + st.deadline;
    if st.phase == Steady {
      assert forall rest: seq<Input> :: [] + rest == rest;
      hide Phased, Overruled, Orderly, LossDemotes;
      NoInputs(cfg, t, st, since);
    } else {
      var st' := Applied(cfg, t, st, Clock(FAIR), q);
      SettleTick(cfg, t, st, r, q);
      hide Phased, Overruled, Orderly, LossDemotes, Applied, LossDemote, Sized;
      forall rest | Orderly(cfg, t, st', q, rest)
        ensures Orderly(cfg, t, st, since, Settle(cfg, st, since) + rest)
        ensures LossDemotes(cfg, t, st, Settle(cfg, st, since) + rest) == LossDemotes(cfg, t, st', rest)
      {
        OneInput(cfg, t, st, since, (Clock(FAIR), q), rest);
      }
      OneInput(cfg, t, st, since, (Clock(FAIR), q), []);
      NoInputs(cfg, t, st', q);
      assert Settle(cfg, st, since) + [] == Settle(cfg, st, since);
    }
  }

  lemma SettleTick(cfg: Policy, t: Table, st: Sel, r: nat, q: nat)
    requires Phased(cfg, t, st) && Sized(t, st) && Overruled(t, st, r) && st.phase != Steady && q >= st.deadline
    ensures var st' := Applied(cfg, t, st, Clock(FAIR), q);
            && Phased(cfg, t, st') && Sized(t, st') && Overruled(t, st', r) && SameEnvelope(st, st') && st'.phase == Steady
            && st'.epoch == st.epoch
    ensures !LossDemote(cfg, t, st, Clock(FAIR), q) && SameDomain(st, Clock(FAIR))
  {
    AppliedPhased(cfg, t, st, Clock(FAIR), q);
    SameLo(t, st, Applied(cfg, t, st, Clock(FAIR), q));
    hide Lo, Hi, SafeFloor, Target;
  }

  /** A report and a tick into the envelope. */
  function Enter(cfg: Policy, t: Table, st: Sel, since: nat): seq<Input>
    requires t.profiles != []
  {
    var q := Quiet(cfg, st, since);
    if Lo(t, st) <= st.rung <= Hi(t, st) then [] else [(Feedback(Acute(st)), q), (Clock(FAIR), q)]
  }

  lemma EnterTick(cfg: Policy, t: Table, st: Sel, r: nat, q: nat)
    requires Standing(cfg, t, st, r) && Sized(t, st) && !(Lo(t, st) <= st.rung <= Hi(t, st))
    requires st.haveReport && st.lastReport == q && q >= st.csaUntil
    ensures var st' := Applied(cfg, t, st, Clock(FAIR), q);
            Resting(cfg, t, st', r) && SameEnvelope(st, st') && st'.epoch == st.epoch
    ensures !LossDemote(cfg, t, st, Clock(FAIR), q) && SameDomain(st, Clock(FAIR))
  {
    AppliedPhased(cfg, t, st, Clock(FAIR), q);
    SameLo(t, st, Applied(cfg, t, st, Clock(FAIR), q));
    hide Lo, Hi, SafeFloor, Target, Decided;
  }

  lemma Enters(cfg: Policy, t: Table, st: Sel, since: nat, r: nat)
    requires Standing(cfg, t, st, r) && Sized(t, st) && st.epoch < 0xFFFF_FFFF
    ensures Phased(cfg, t, st)
    ensures var st', now := Run(cfg, t, st, Enter(cfg, t, st, since)), LastTime(since, Enter(cfg, t, st, since));
            && Resting(cfg, t, st', r) && Phased(cfg, t, st') && SameEnvelope(st, st') && st'.epoch <= st.epoch + 1
            && forall rest :: Orderly(cfg, t, st', now, rest) ==>
                 && Orderly(cfg, t, st, since, Enter(cfg, t, st, since) + rest)
                 && LossDemotes(cfg, t, st, Enter(cfg, t, st, since) + rest) == LossDemotes(cfg, t, st', rest)
  {
    hide *;
    StandingPhased(cfg, t, st, r);
    PhasedSized(cfg, t, st);
    SizedSome(t, st);
    EnterIs(cfg, t, st, since);
    if Lo(t, st) <= st.rung <= Hi(t, st) {
      NoInputs(cfg, t, st, since);
      RestingIs(cfg, t, st, r);
      Same(st);
      assert forall rest: seq<Input> :: [] + rest == rest;
    } else {
      var q := Quiet(cfg, st, since);
      MoveHeard(cfg, t, st, r, q);
      var st1 := Applied(cfg, t, st, Feedback(Acute(st)), q);
      SameLo(t, st, st1);
      StandingPhased(cfg, t, st1, r);
      EnterTick(cfg, t, st1, r, q);
      var st' := Applied(cfg, t, st1, Clock(FAIR), q);
      SameTwice(st, st1, st');
      RestingParts(cfg, t, st', r);
      NoDemote(cfg, t, st, Feedback(Acute(st)), q);
      var a, b := (Feedback(Acute(st)), q), (Clock(FAIR), q);
      forall rest | Orderly(cfg, t, st', q, rest)
        ensures Orderly(cfg, t, st, since, [a, b] + rest)
        ensures LossDemotes(cfg, t, st, [a, b] + rest) == LossDemotes(cfg, t, st', rest)
      {
        OneInput(cfg, t, st1, q, b, rest);
        OneInput(cfg, t, st, since, a, [b] + rest);
        assert [a] + ([b] + rest) == [a, b] + rest;
      }
      NoInputs(cfg, t, st', q);
      OneInput(cfg, t, st1, q, b, []);
      OneInput(cfg, t, st, since, a, [b] + []);
      assert [a] + ([b] + []) == [a, b];
    }
  }

  lemma Same(st: Sel)
    ensures SameEnvelope(st, st)
  {
  }

  lemma StandingPhased(cfg: Policy, t: Table, st: Sel, r: nat)
    requires Standing(cfg, t, st, r)
    ensures Phased(cfg, t, st)
  {
  }

  lemma EnterIs(cfg: Policy, t: Table, st: Sel, since: nat)
    requires t.profiles != []
    ensures var q := Quiet(cfg, st, since);
            Enter(cfg, t, st, since)
            == if Lo(t, st) <= st.rung <= Hi(t, st) then [] else [(Feedback(Acute(st)), q), (Clock(FAIR), q)]
  {
    hide Quiet, Acute, Lo, Hi;
  }

  /** Inputs that settle the link, bring it into the envelope and make it move. */
  function Spree(cfg: Policy, t: Table, st: Sel, since: nat, m: nat): seq<Input>
    requires Phased(cfg, t, st)
  {
    var first := Settle(cfg, st, since);
    RunPhased(cfg, t, st, first);
    var st1, now1 := Run(cfg, t, st, first), LastTime(since, first);
    PhasedSized(cfg, t, st1);
    var second := Enter(cfg, t, st1, now1);
    RunPhased(cfg, t, st1, second);
    first + (second + Moves(cfg, t, Run(cfg, t, st1, second), LastTime(now1, second), m))
  }

  /**
   * From any state a run reaches with a rung latched at or below the envelope's bottom and room above the safe floor, loss
   * can demote any number of times without a reset or a re-pin, as long as the reporter has numbers left.
   */
  lemma NoBound(cfg: Policy, t: Table, st: Sel, since: nat, r: nat, n: nat)
    requires Reached(cfg, t, st) && Sized(t, st) && r <= Lo(t, st) && r < |st.losses| && st.losses[r].latched
    requires Lo(t, st) < Hi(t, st) && SafeFloor(t, st) < Hi(t, st) && st.epoch + |t.profiles| + 2 * n + 2 <= 0xFFFF_FFFF
    ensures Phased(cfg, t, st)
    ensures var inputs := Spree(cfg, t, st, since, |t.profiles| + 2 * n); Orderly(cfg, t, st, since, inputs) && LossDemotes(cfg, t, st, inputs) >= n
  {
    hide *;
    ReachedBooked(cfg, t, st);
    ReachedSource(cfg, t, st);
    OverruledIs(t, st, r);
    var m := |t.profiles| + 2 * n;
    SpreeIs(cfg, t, st, since, m);
    Settles(cfg, t, st, since, r);
    var first := Settle(cfg, st, since);
    var st1, now1 := Run(cfg, t, st, first), LastTime(since, first);
    StandingIs(cfg, t, st1, r);
    Enters(cfg, t, st1, now1, r);
    var second := Enter(cfg, t, st1, now1);
    var st2, now2 := Run(cfg, t, st1, second), LastTime(now1, second);
    GapBound(t, st2);
    MovesDemote(cfg, t, st2, now2, r, m, n);
  }

  lemma OverruledIs(t: Table, st: Sel, r: nat)
    requires t.profiles != [] && Sourced(st) && r <= Lo(t, st) && r < |st.losses| && st.losses[r].latched
    requires Lo(t, st) < Hi(t, st) && SafeFloor(t, st) < Hi(t, st)
    ensures Overruled(t, st, r)
  {
    hide Lo, Hi, SafeFloor;
  }

  lemma StandingIs(cfg: Policy, t: Table, st: Sel, r: nat)
    requires t.profiles != [] && Phased(cfg, t, st) && Overruled(t, st, r) && st.phase == Steady
    ensures Standing(cfg, t, st, r)
  {
  }

  lemma GapBound(t: Table, st: Sel)
    requires t.profiles != []
    ensures Gap(t, st) <= |t.profiles|
  {
    hide Lo;
  }

  lemma SpreeIs(cfg: Policy, t: Table, st: Sel, since: nat, m: nat)
    requires Phased(cfg, t, st)
    ensures var first := Settle(cfg, st, since);
            var st1, now1 := Run(cfg, t, st, first), LastTime(since, first);
            && Phased(cfg, t, st1) && t.profiles != []
            && var second := Enter(cfg, t, st1, now1);
               var st2, now2 := Run(cfg, t, st1, second), LastTime(now1, second);
               && Phased(cfg, t, st2)
               && Spree(cfg, t, st, since, m) == first + (second + Moves(cfg, t, st2, now2, m))
  {
    hide Phased, Settle, Enter, Run, Moves, LastTime, Sized;
    var first := Settle(cfg, st, since);
    RunPhased(cfg, t, st, first);
    PhasedSized(cfg, t, Run(cfg, t, st, first));
    SizedSome(t, Run(cfg, t, st, first));
    RunPhased(cfg, t, Run(cfg, t, st, first), Enter(cfg, t, Run(cfg, t, st, first), LastTime(since, first)));
  }

  lemma SizedSome(t: Table, st: Sel)
    requires Sized(t, st)
    ensures t.profiles != []
  {
  }

  // ---- exactly when loss demotes boundedly -----------------------------------------------------------------

  lemma StepEnvelope(cfg: Policy, t: Table, st: Sel, op: Op, now: nat)
    requires Phased(cfg, t, st) && SameDomain(st, op)
    ensures Sized(t, st) && Phased(cfg, t, Applied(cfg, t, st, op, now)) && SameEnvelope(st, Applied(cfg, t, st, op, now))
  {
    PhasedSized(cfg, t, st);
    AppliedPhased(cfg, t, st, op, now);
    hide Phased, Ticked;
    if op.Clock? { TickedPhased(cfg, t, st, now, op.rf); } else { OthersStay(cfg, t, st, op, now); }
  }

  /** In an envelope of one rung, or with nothing above the safe floor, loss never demotes. */
  lemma NothingAbove(cfg: Policy, t: Table, st: Sel, op: Op, now: nat)
    requires Sized(t, st) && (Lo(t, st) == Hi(t, st) || SafeFloor(t, st) == Hi(t, st))
    ensures !LossDemote(cfg, t, st, op, now)
  {
    SameLo(t, st, Thawed(st, now));
    assert Thawed(st, now).rung == st.rung;
    hide Lo, Hi, SafeFloor, Fresh, Thawed, ClimbRule, LossPersists;
  }

  lemma {:induction false} NeverDemotes(cfg: Policy, t: Table, st: Sel, since: nat, inputs: seq<Input>)
    requires Phased(cfg, t, st) && Sized(t, st) && Orderly(cfg, t, st, since, inputs)
    requires Lo(t, st) == Hi(t, st) || SafeFloor(t, st) == Hi(t, st)
    ensures LossDemotes(cfg, t, st, inputs) == 0
    decreases |inputs|
  {
    if inputs != [] {
      var op, now := inputs[0].0, inputs[0].1;
      var next := Applied(cfg, t, st, op, now);
      hide Phased, Applied, LossDemote, Lo, Hi, SafeFloor, Sized, SameDomain;
      NothingAbove(cfg, t, st, op, now);
      StepEnvelope(cfg, t, st, op, now);
      PhasedSized(cfg, t, next);
      SameLo(t, st, next);
      NeverDemotes(cfg, t, next, now, inputs[1..]);
    }
  }

  /** Every lock at or below the envelope's bottom is there to stay. */
  ghost predicate Lasting(t: Table, st: Sel, since: nat)
    requires t.profiles != []
  {
    forall r: nat :: r <= Lo(t, st) && Locked(st.losses, r, since) ==> st.losses[r].latched
  }

  ghost predicate WithinPurse(cfg: Policy, t: Table, st: Sel, since: nat)
    requires Phased(cfg, t, st) && t.profiles != []
  {
    forall inputs :: Orderly(cfg, t, st, since, inputs) ==> LossDemotes(cfg, t, st, inputs) <= Purse(cfg, t, st, since)
  }

  /**
   * From any state a run reaches, with no timed lock at or below the envelope's bottom: loss demotes within the purse until
   * the next reset or re-pin exactly when there is no conflict, or there is nothing to demote from.
   */
  lemma BoundedExactly(cfg: Policy, t: Table, st: Sel, since: nat)
    requires Reached(cfg, t, st) && Sized(t, st) && Lasting(t, st, since)
    requires st.epoch + |t.profiles| + 2 * Purse(cfg, t, st, since) + 4 <= 0xFFFF_FFFF
    ensures Phased(cfg, t, st)
    ensures WithinPurse(cfg, t, st, since)
            <==> !Conflict(t, st, since) || Lo(t, st) == Hi(t, st) || SafeFloor(t, st) == Hi(t, st)
  {
    ReachedBooked(cfg, t, st);
    ClimbStaysBelow(t, st, since);
    PurseIs(cfg, t, st, since);
    hide Phased, Reached, Orderly, LossDemotes, Conflict, Lo, Hi, SafeFloor, Locked, Purse, Sized, Booked, Spree;
    if Clear(t, st, since) {
      forall inputs | Orderly(cfg, t, st, since, inputs) ensures LossDemotes(cfg, t, st, inputs) <= Purse(cfg, t, st, since) {
        StretchPays(cfg, t, st, since, inputs);
      }
    } else if Lo(t, st) == Hi(t, st) || SafeFloor(t, st) == Hi(t, st) {
      forall inputs | Orderly(cfg, t, st, since, inputs) ensures LossDemotes(cfg, t, st, inputs) <= Purse(cfg, t, st, since) {
        NeverDemotes(cfg, t, st, since, inputs);
      }
    } else {
      var r: nat :| r <= Lo(t, st) && Locked(st.losses, r, since);
      LockedRung(st.losses, r, since);
      NoBound(cfg, t, st, since, r, Purse(cfg, t, st, since) + 1);
    }
  }

  lemma LockedRung(losses: seq<RungLoss>, r: nat, now: nat)
    requires Locked(losses, r, now)
    ensures r < |losses|
  {
  }

  // ---- a re-pin that leads there ------------------------------------------------------------------------------

  function Step(id: Byte): Profile {
    Profile(id, 8, false, 0, 0, 0, 0, 0, 1000)
  }

  /** Three rungs, the lowest of them the floor. */
  const LADDER := Table([Step(0), Step(1), Step(2)], 0)

  /** One acute loss latches a rung; nothing else is waited for. */
  const HASTY := Policy(50, 100, 0, 3, 0, 1, 0, 0, 0, 1000, 0, 0, 0, 0, 0, 10, 0, 0, 0, 1000, 0, 0, 0)

  const CLEAN_REPORT := Report(0, 0, 1, NO_PROBE, 0, 1)

  const LOST_REPORT := Report(0, 0, 2, NO_PROBE, 1000, 1)

  /** Boot, a clean report, a climb, an acute report, a demotion; then the operator raises the bottom to the latched rung. */
  const PAST: seq<Input> :=
    [(Clock(FAIR), 1), (Feedback(CLEAN_REPORT), 1), (Clock(FAIR), 1), (Clock(FAIR), 1), (Feedback(LOST_REPORT), 1), (Clock(FAIR), 1),
     (Pin(1, 2), 1)]

  const S1 := Sel(0, Steady, 0, 0, 1, 0, 1000, None, 0, false, 0, [CLEAN, CLEAN, CLEAN], 0, false, [], 0, [0, 0, 0], [0, 0, 0],
                  0, 0, NO_PROBE, 0, 0, 0, false, 0, None, 0, 255, Booting)

  const S2 := S1.(source := Some((0, 0)), epoch := 1, haveReport := true, lastReport := 1)

  const S3 := S2.(phase := McsGrace, pending := 1, deadline := 1, reason := Promotion, promotedInto := [0, 1, 0], rung := 1)

  const S4 := S3.(phase := Steady)

  const S5 := S4.(epoch := 2, observed := 1, emergency := true, losses := [CLEAN, RungLoss(1, 0, 0, false), CLEAN])

  const S6 := S5.(emergency := false, losses := [CLEAN, RungLoss(0, 1, 0, true), CLEAN], demotedFrom := [0, 1, 0], lastDemote := 1,
                  pending := 0, phase := BitrateLead, deadline := 1, reason := LossEmergency)

  const S7 := S6.(minProfile := 1, maxProfile := 2)

  lemma WholeLadder(st: Sel)
    requires st.minProfile == 0 && st.maxProfile == 255
    ensures Lo(LADDER, st) == 0 && Hi(LADDER, st) == 2 && SafeFloor(LADDER, st) == 0
  {
    var p := LADDER.profiles;
    assert RungOf(p, 0, 255, 2) == RungOf(p, 1, 255, 2) == RungOf(p, 2, 255, 2) == RungOf(p, 3, 255, 2) == 2;
    assert RungOf(p, 0, 0, 0) == 0;
  }

  lemma UpperLadder(st: Sel)
    requires st.minProfile == 1 && st.maxProfile == 2
    ensures Lo(LADDER, st) == 1 && Hi(LADDER, st) == 2 && SafeFloor(LADDER, st) == 1
  {
    var p := LADDER.profiles;
    assert RungOf(p, 0, 2, 2) == RungOf(p, 1, 2, 2) == RungOf(p, 2, 2, 2) == 2;
    assert RungOf(p, 0, 1, 0) == RungOf(p, 1, 1, 0) == 1 && RungOf(p, 0, 0, 0) == 0;
  }

  lemma FirstTick()
    ensures Applied(HASTY, LADDER, Begun(LADDER, 0, 255), Clock(FAIR), 1) == S1
  {
    var st := Begun(LADDER, 0, 255);
    WholeLadder(st.(rung := 0));
    assert st.losses == [CLEAN, CLEAN, CLEAN] && st.demotedFrom == [0, 0, 0] && st.promotedInto == [0, 0, 0];
    hide RungOf, Lo, Hi, SafeFloor;
  }

  lemma FirstReport()
    ensures Applied(HASTY, LADDER, S1, Feedback(CLEAN_REPORT), 1) == S2
  {
    var clean := Reset(S1, 1);
    assert clean.losses == [CLEAN, CLEAN, CLEAN] && clean.demotedFrom == [0, 0, 0] && clean.promotedInto == [0, 0, 0];
  }

  lemma NoneLocked()
    ensures CeilingBelow(LADDER, S2, 1) == 2
  {
    WholeLadder(S2);
    FirstLockedIsFirst(S2.losses, 0, 2, 1);
    hide Lo, Hi, SafeFloor, FirstLocked;
  }

  lemma FirstClimb()
    ensures Applied(HASTY, LADDER, S2, Clock(FAIR), 1) == S3
  {
    WholeLadder(S2);
    NoneLocked();
    assert Thawed(S2, 1) == S2 && Cleared(S2) == S2;
    hide Lo, Hi, SafeFloor, CeilingBelow, RungOf;
    assert Decided(HASTY, LADDER, S2, 1, FAIR) == Up(Promotion);
    hide Decided;
  }

  lemma FirstArrival()
    ensures Applied(HASTY, LADDER, S3, Clock(FAIR), 1) == S4
  {
  }

  lemma FirstLoss()
    ensures Applied(HASTY, LADDER, S4, Feedback(LOST_REPORT), 1) == S5
  {
  }

  lemma FirstDemotion()
    ensures Applied(HASTY, LADDER, S5, Clock(FAIR), 1) == S6
  {
    WholeLadder(S5);
    assert Thawed(S5, 1) == S5;
    hide Lo, Hi, SafeFloor, CeilingBelow, RungOf;
    assert Decided(HASTY, LADDER, S5, 1, FAIR) == Down(0, LossEmergency, true);
    hide Decided;
    Charges();
    assert Vacated([0, 0, 0], 0, 1, 1) == [0, 1, 0];
  }

  lemma Charges()
    ensures Charged(HASTY, LADDER, S5.(emergency := false, reason := LossEmergency), 1) == S6.losses
  {
    WholeLadder(S5.(emergency := false, reason := LossEmergency));
    hide Lo, Hi, SafeFloor;
  }

  /** The run from the beginning to the re-pin. */
  lemma RepinReached()
    ensures Phased(HASTY, LADDER, Begun(LADDER, 0, 255)) && Run(HASTY, LADDER, Begun(LADDER, 0, 255), PAST) == S7
    ensures Reached(HASTY, LADDER, S7) && Phased(HASTY, LADDER, S7)
  {
    hide Applied, Run, Phased, Sized, Reached, Begun;
    BegunPhased(HASTY, LADDER, 0, 255);
    var st := Begun(LADDER, 0, 255);
    FirstTick();
    FirstReport();
    FirstClimb();
    FirstArrival();
    FirstLoss();
    FirstDemotion();
    Repin();
    var p := PAST;
    var r6: seq<Input> := [p[6]] + [];
    var r5 := [p[5]] + r6;
    var r4 := [p[4]] + r5;
    var r3 := [p[3]] + r4;
    var r2 := [p[2]] + r3;
    var r1 := [p[1]] + r2;
    OneStep(st, p[0], r1);
    OneStep(S1, p[1], r2);
    OneStep(S2, p[2], r3);
    OneStep(S3, p[3], r4);
    OneStep(S4, p[4], r5);
    OneStep(S5, p[5], r6);
    OneStep(S6, p[6], []);
    NoInputs(HASTY, LADDER, S7, 1);
    assert PAST == [p[0]] + r1;
    ReachedBy(HASTY, LADDER, 0, 255, PAST, S7);
  }

  lemma Repin()
    ensures Applied(HASTY, LADDER, S6, Pin(1, 2), 1) == S7
  {
  }

  lemma OneStep(st: Sel, x: Input, rest: seq<Input>)
    requires Phased(HASTY, LADDER, st)
    ensures Sized(LADDER, st) && Phased(HASTY, LADDER, Applied(HASTY, LADDER, st, x.0, x.1))
    ensures Run(HASTY, LADDER, st, [x] + rest) == Run(HASTY, LADDER, Applied(HASTY, LADDER, st, x.0, x.1), rest)
  {
    PhasedSized(HASTY, LADDER, st);
    AppliedPhased(HASTY, LADDER, st, x.0, x.1);
    assert ([x] + rest)[1..] == rest;
    hide Phased, Applied;
  }

  lemma ReachedBy(cfg: Policy, t: Table, min: Byte, max: Byte, past: seq<Input>, st: Sel)
    requires t.profiles != [] && Phased(cfg, t, Begun(t, min, max)) && Run(cfg, t, Begun(t, min, max), past) == st
    ensures Reached(cfg, t, st)
  {
    hide Run, Phased, Begun;
    assert Arrives(cfg, t, min, max, past, st);
  }

  lemma RepinPurse()
    ensures Sized(LADDER, S7) && Lo(LADDER, S7) == 1 && Hi(LADDER, S7) == 2 && SafeFloor(LADDER, S7) == 1 && Base(S7) == 0
    ensures LADDER.profiles != [] && |S7.losses| == 3 && Purse(HASTY, LADDER, S7, 1) == 1 && S7.losses[1].latched && S7.epoch == 2 && |LADDER.profiles| == 3
  {
    UpperLadder(S7);
    hide Lo, Hi, SafeFloor;
    OneLeft(S7.losses);
  }

  lemma OneLeft(losses: seq<RungLoss>)
    requires losses == [CLEAN, RungLoss(0, 1, 0, true), CLEAN]
    ensures Left(HASTY, losses, 1, 3) == 1 && Held(losses, 1, 0, 1) == 0
  {
    assert Left(HASTY, losses, 1, 0) == 0 && Left(HASTY, losses, 1, 1) == 0 && Left(HASTY, losses, 1, 2) == 0;
    assert Room(HASTY, CLEAN) == 1;
  }

  /** After that re-pin loss demotes any number of times, where the strikes left would pay for one. */
  lemma RepinUnbounded(n: nat)
    requires 2 * n + 7 <= 0xFFFF_FFFF
    ensures Phased(HASTY, LADDER, S7) && Run(HASTY, LADDER, Begun(LADDER, 0, 255), PAST) == S7 && Purse(HASTY, LADDER, S7, 1) == 1
    ensures var inputs := Spree(HASTY, LADDER, S7, 1, 3 + 2 * n);
            Orderly(HASTY, LADDER, S7, 1, inputs) && LossDemotes(HASTY, LADDER, S7, inputs) >= n
  {
    hide *;
    RepinReached();
    RepinPurse();
    NoBound(HASTY, LADDER, S7, 1, 1, n);
  }

  /** And the link comes to rest on rung 1, latched since before, although none at or below the rung in force was locked. */
  lemma RepinUnderLocked()
    ensures Phased(HASTY, LADDER, S7) && Base(S7) == 0 && !Locked(S7.losses, 0, 1)
    ensures exists inputs :: Orderly(HASTY, LADDER, S7, 1, inputs)
              && var st := Run(HASTY, LADDER, S7, inputs); st.phase == Steady && 1 <= st.rung && 1 < |st.losses| && st.losses[1].latched
  {
    hide *;
    RepinReached();
    RepinPurse();
    RestsUnder(HASTY, LADDER, S7, 1, 1);
    BottomOpen();
  }

  lemma BottomOpen()
    ensures !Locked(S7.losses, 0, 1)
  {
  }

  lemma RestsUnder(cfg: Policy, t: Table, st: Sel, since: nat, r: nat)
    requires Reached(cfg, t, st) && Sized(t, st) && r <= Lo(t, st) && r < |st.losses| && st.losses[r].latched
    requires Lo(t, st) < Hi(t, st) && SafeFloor(t, st) < Hi(t, st) && st.epoch < 0xFFFF_FFFF
    ensures Phased(cfg, t, st)
    ensures exists inputs :: Orderly(cfg, t, st, since, inputs)
              && var st' := Run(cfg, t, st, inputs); st'.phase == Steady && r <= st'.rung && r < |st'.losses| && st'.losses[r].latched
  {
    hide *;
    ReachedBooked(cfg, t, st);
    ReachedSource(cfg, t, st);
    OverruledIs(t, st, r);
    Settles(cfg, t, st, since, r);
    var first := Settle(cfg, st, since);
    var st1, now1 := Run(cfg, t, st, first), LastTime(since, first);
    StandingIs(cfg, t, st1, r);
    Enters(cfg, t, st1, now1, r);
    var second := Enter(cfg, t, st1, now1);
    var st2, now2 := Run(cfg, t, st1, second), LastTime(now1, second);
    NoInputs(cfg, t, st2, now2);
    assert second + [] == second;
    RunTwice(cfg, t, st, first, second);
    RestingLatched(cfg, t, st2, r);
    assert Orderly(cfg, t, st, since, first + second);
  }

  lemma RestingLatched(cfg: Policy, t: Table, st: Sel, r: nat)
    requires Resting(cfg, t, st, r)
    ensures st.phase == Steady && r <= st.rung && r < |st.losses| && st.losses[r].latched
  {
    hide Lo, Hi, SafeFloor, Phased;
  }

  lemma {:induction false} RunTwice(cfg: Policy, t: Table, st: Sel, some: seq<Input>, more: seq<Input>)
    requires Phased(cfg, t, st)
    ensures Phased(cfg, t, Run(cfg, t, st, some)) && Run(cfg, t, st, some + more) == Run(cfg, t, Run(cfg, t, st, some), more)
    decreases |some|
  {
    PhasedSized(cfg, t, st);
    hide Phased, Applied, Sized;
    if some == [] {
      assert some + more == more;
    } else {
      AppliedPhased(cfg, t, st, some[0].0, some[0].1);
      assert (some + more)[1..] == some[1..] + more;
      RunTwice(cfg, t, Applied(cfg, t, st, some[0].0, some[0].1), some[1..], more);
    }
  }
}
