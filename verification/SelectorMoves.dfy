/** That the selector moves when it should: down on acute or lasting loss, up on a clean channel. */
module SelectorMoves {
  import opened Bytes
  import opened SelectorSpec

  /** Settled inside an envelope of more than one rung, with no channel switch under way. */
  predicate Ready(t: Table, st: Sel) {
    Sized(t, st) && st.phase == Steady && st.csaUntil == 0 && Lo(t, st) < Hi(t, st) && Lo(t, st) <= st.rung <= Hi(t, st)
  }

  /** A report of the reporter in force, not heard before and on enough packets. */
  predicate News(cfg: Policy, st: Sel, r: Report) {
    st.source == Some((r.originator, r.session)) && (st.haveReport ==> r.epoch > st.epoch) && r.uniq >= cfg.minUniq
  }

  lemma EnvelopeSame(t: Table, st: Sel, st': Sel)
    requires t.profiles != [] && st'.minProfile == st.minProfile && st'.maxProfile == st.maxProfile
    ensures Lo(t, st') == Lo(t, st) && Hi(t, st') == Hi(t, st) && SafeFloor(t, st') == SafeFloor(t, st)
  {
  }

  lemma ReportedShape(cfg: Policy, t: Table, st: Sel, r: Report, at: nat)
    requires Ready(t, st) && News(cfg, st, r)
    ensures var s := Reported(cfg, st, r, at);
            && Ready(t, s) && s.rung == st.rung && s.haveReport && s.lastReport == at && s.observed == st.rung && s.epoch == r.epoch
            && SafeFloor(t, s) == SafeFloor(t, st) && (s.emergency <==> r.loss >= cfg.emergencyMilli)
            && s.losses == Scored(cfg, st, r, at) && s.source == st.source && s.pressure == st.pressure && s.lastDemote == st.lastDemote
  {
    EnvelopeSame(t, st, Reported(cfg, st, r, at));
    hide Scored;
  }

  /** A tick that takes the cascade. */
  lemma Cascades(cfg: Policy, t: Table, st: Sel, now: nat, rf: Rf)
    requires Ready(t, st) && st.haveReport && (now <= st.lastReport || now - st.lastReport <= cfg.reportTimeoutMs)
    ensures Ticked(cfg, t, st, now, rf) == Carried(cfg, t, Cleared(st), Decided(cfg, t, st, now, rf), now)
  {
    hide Decided, Carried;
  }

  // ---- down -----------------------------------------------------------------------------------------

  /**
   * One report of acute loss, then a tick before it is stale: the bitrate drops to the floor's at once, and the rung at the first
   * tick a lead later.
   */
  lemma AcuteLossDrops(cfg: Policy, t: Table, st: Sel, r: Report, at: nat, now: nat, rf: Rf, later: nat, rf': Rf)
    requires Ready(t, st) && st.rung > SafeFloor(t, st) && News(cfg, st, r) && r.loss >= cfg.emergencyMilli
    requires at <= now <= at + cfg.reportTimeoutMs && later >= now + cfg.leadMs
    ensures var heard := Reported(cfg, st, r, at);
            Sized(t, heard)
            && var down := Ticked(cfg, t, heard, now, rf);
               && Sized(t, down) && down.rung == st.rung && down.bitrate == Target(cfg, t, SafeFloor(t, st))
               && var moved := Ticked(cfg, t, down, later, rf');
                  moved.rung == SafeFloor(t, st) && moved.phase == Steady && moved.bitrate == down.bitrate
  {
    var heard := Reported(cfg, st, r, at);
    ReportedShape(cfg, t, st, r, at);
    Cascades(cfg, t, heard, now, rf);
    assert Decided(cfg, t, heard, now, rf) == Down(SafeFloor(t, st), LossEmergency, true);
    hide Decided, Reported, Target, Charged, FlapNoted, Vacated, SafeFloor;
  }

  /** Reports of loss short of acute, one after the other. */
  function Heard(cfg: Policy, st: Sel, reports: seq<Report>, at: nat): Sel
    decreases |reports|
  {
    if reports == [] then st else Heard(cfg, Reported(cfg, st, reports[0], at), reports[1..], at)
  }

  predicate Lossy(cfg: Policy, st: Sel, reports: seq<Report>) {
    && (forall i :: 0 <= i < |reports| ==> cfg.demoteMilli <= reports[i].loss < cfg.emergencyMilli && reports[i].uniq >= cfg.minUniq
                                           && st.source == Some((reports[i].originator, reports[i].session)))
    && (reports != [] && st.haveReport ==> reports[0].epoch > st.epoch)
    && (forall i :: 0 < i < |reports| ==> reports[i].epoch > reports[i - 1].epoch)
  }

  lemma {:induction false} LossAddsUp(cfg: Policy, t: Table, st: Sel, reports: seq<Report>, at: nat)
    requires Ready(t, st) && Lossy(cfg, st, reports) && !Locked(st.losses, st.rung, at)
    ensures var s := Heard(cfg, st, reports, at);
            && Ready(t, s) && s.rung == st.rung && SafeFloor(t, s) == SafeFloor(t, st) && s.pressure == st.pressure && s.lastDemote == st.lastDemote
            && (s.losses[st.rung].score >= cfg.persistScore || s.losses[st.rung].score >= st.losses[st.rung].score + |reports|)
            && (reports != [] ==> s.haveReport && s.lastReport == at && s.observed == st.rung && !s.emergency)
    decreases |reports|
  {
    if reports != [] {
      var s := Reported(cfg, st, reports[0], at);
      ReportedShape(cfg, t, st, reports[0], at);
      ScoreUp(cfg, st, reports[0], at);
      assert Lossy(cfg, s, reports[1..]);
      hide Reported, Scored, Ready, SafeFloor, Locked;
      LossAddsUp(cfg, t, s, reports[1..], at);
    }
  }

  lemma ScoreUp(cfg: Policy, st: Sel, r: Report, at: nat)
    requires st.rung < |st.losses| && r.uniq >= cfg.minUniq && r.loss >= cfg.demoteMilli && !Locked(st.losses, st.rung, at)
    ensures var l := Scored(cfg, st, r, at);
            && |l| == |st.losses| && !Locked(l, st.rung, at)
            && (l[st.rung].score >= cfg.persistScore || l[st.rung].score == st.losses[st.rung].score + 1)
            && (st.losses[st.rung].score >= cfg.persistScore ==> l[st.rung].score >= cfg.persistScore)
  {
  }

  /** As many lossy reports in a row as the policy asks for take an open rung down one, once the last demotion has cooled. */
  lemma LastingLossDrops(cfg: Policy, t: Table, st: Sel, reports: seq<Report>, at: nat, now: nat, rf: Rf, later: nat, rf': Rf)
    requires Ready(t, st) && st.rung > SafeFloor(t, st) && !st.pressure && !Locked(st.losses, st.rung, at)
    requires Lossy(cfg, st, reports) && reports != [] && |reports| >= cfg.persistScore
    requires at <= now <= at + cfg.reportTimeoutMs && Since(now, st.lastDemote) >= cfg.downCooldownMs && later >= now + cfg.leadMs
    ensures var heard := Heard(cfg, st, reports, at);
            Sized(t, heard)
            && var down := Ticked(cfg, t, heard, now, rf);
               && Sized(t, down) && down.rung == st.rung && down.bitrate == Target(cfg, t, st.rung - 1)
               && var moved := Ticked(cfg, t, down, later, rf');
                  moved.rung == st.rung - 1 && moved.phase == Steady && moved.bitrate == down.bitrate
  {
    LossAddsUp(cfg, t, st, reports, at);
    var heard := Heard(cfg, st, reports, at);
    Cascades(cfg, t, heard, now, rf);
    assert Decided(cfg, t, heard, now, rf) == Down(st.rung - 1, LossPersistent, true);
    hide Decided, Heard, Target, Charged, FlapNoted, Vacated, SafeFloor;
  }

  // ---- up -------------------------------------------------------------------------------------------

  /** Nothing speaks against a climb: fresh feedback without loss, a clean signal with margin, no freeze, no verdict, no failed probe. */
  predicate Clear(cfg: Policy, st: Sel, now: nat, rf: Rf) {
    && st.haveReport && (now <= st.lastReport || now - st.lastReport <= cfg.reportTimeoutMs)
    && !(st.emergency && st.observed == st.rung)
    && (st.pressure || st.observed != st.rung || (st.rung < |st.losses| && st.losses[st.rung].score < cfg.persistScore))
    && rf.clean && rf.margin && !rf.atFloor && !rf.fading && now >= st.freezeUntil && st.verdict != SATURATED && st.probe == NO_PROBE
  }

  /** On a clear channel a dwell after the last change takes the rung up one at once, and its bitrate follows a grace later. */
  lemma ClearChannelClimbs(cfg: Policy, t: Table, st: Sel, now: nat, rf: Rf, later: nat, rf': Rf)
    requires Ready(t, st) && Clear(cfg, st, now, rf) && st.rung < Hi(t, st) && st.rung < Ceiling(t, st, now)
    requires Since(now, st.lastChange) >= cfg.promoteDwellMs && Since(now, st.lastChange) >= cfg.reentryDwellMs
    requires later >= now + cfg.graceMs
    ensures var up := Ticked(cfg, t, st, now, rf);
            && Sized(t, up) && up.rung == st.rung + 1 && up.bitrate == st.bitrate
            && var done := Ticked(cfg, t, up, later, rf');
               done.rung == st.rung + 1 && done.phase == Steady && done.bitrate == Target(cfg, t, st.rung + 1)
  {
    Cascades(cfg, t, st, now, rf);
    assert Decided(cfg, t, st, now, rf).Up?;
    hide Decided, Target, Ceiling;
  }
}
