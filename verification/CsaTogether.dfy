/** A channel switch that succeeds: the flag heard in time and ticks on both sides bring both ends to the new channel. */
module CsaTogether {
  import opened Bytes
  import opened Csa
  import opened CsaProtocol
  import opened CsaInstant

  predicate NoStart(steps: seq<Step>) {
    forall i :: 0 <= i < |steps| ==> !steps[i].Start?
  }

  /** Ticks of the issuer at or past a time. */
  function LateClocks(steps: seq<Step>, time: nat): nat {
    if steps == [] then 0
    else (if steps[0].IssuerClock? && steps[0].now >= time then 1 else 0) + LateClocks(steps[1..], time)
  }

  // ---- the craft stays with the issuer's campaign ---------------------------------------------------------

  /** The craft accepted the issuer's latest campaign. */
  predicate Chosen(w: World, n: U32) {
    w.campaigns != map[] && w.i.template.nonce == n && n in w.accepted
  }

  lemma ChosenFollowed(s: Session, w: World, n: U32)
    requires Inv(s, w) && Chosen(w, n)
    ensures w.f.campaign.nonce == n && n in w.campaigns && w.f.campaign.chan == w.campaigns[n] == w.i.template.chan
    ensures w.f.state != Idle && (w.f.state != Armed ==> w.craftChan == w.campaigns[n])
  {
    assert w.f.campaign.nonce in w.campaigns;
  }

  /** No sealed copy is news to it. */
  lemma NoNews(s: Session, w: World, n: U32, p: Packet, now: nat, tsf: Option<Tsf>, issuer: Option<U16>)
    requires Inv(s, w) && Chosen(w, n) && (p.sealed ==> p in w.air)
    ensures Judged(s.craft, w.f, p, now, issuer) != Accepted
  {
    ChosenFollowed(s, w, n);
    HasKey(s, w);
    HeardShape(s.craft, w.f, p, now, tsf, issuer);
    hide Judged, Heard;
    assert p in w.air ==> Speaks(s, w.campaigns, p) && p.nonce <= w.i.template.nonce;
  }

  /** What a step that is no start does to the craft once it has chosen. */
  lemma ChosenCraft(s: Session, w: World, e: Step, n: U32)
    requires Inv(s, w) && Chosen(w, n) && Enabled(s, w, e) && !e.Start?
    ensures var f, f' := w.f, Next(s, w, e).f;
            && f'.switchAt == f.switchAt && (f.state != Armed ==> f'.state != Armed)
            && (e.CraftClock? && e.now >= f.switchAt ==> f'.state != Armed)
    ensures Next(s, w, e).accepted == w.accepted && Next(s, w, e).campaigns == w.campaigns
  {
    hide Inv, Acted, Judged, Heard;
    match e {
      case ToCraft(p, now, tsf, issuer) =>
        NoNews(s, w, n, p, now, tsf, issuer);
        HasKey(s, w);
        HeardShape(s.craft, w.f, p, now, tsf, issuer);
        HeardInstant(s.craft, w.f, p, now, tsf, issuer);
      case IssuerClock(now) => IssuerApart(w, IssuerTicked(s.ground, w.i, now));
      case _ =>
    }
  }

  lemma IssuerApart(w: World, t: IssuerTick)
    ensures Acted(w, t).f == w.f && Acted(w, t).accepted == w.accepted && Acted(w, t).campaigns == w.campaigns
  {
  }

  // ---- the issuer commits ---------------------------------------------------------------------------------

  /** Before the switch a started campaign is announced, awaits its flag or is committed to. */
  predicate Underway(w: World) {
    w.committed.Some? || w.i.state == Announce || w.i.state == AwaitAck
  }

  /** Committed, or it will at its next ticks. */
  predicate Ready(w: World) {
    w.committed.Some? || ((w.i.state == Announce || w.i.state == AwaitAck) && w.i.armedSeen)
  }

  /** Late ticks still needed to commit. */
  function Rank(w: World): nat {
    if w.committed.Some? then 0 else if w.i.state == AwaitAck then 1 else 2
  }

  lemma TickShape(policy: Policy, i: Issuer, now: nat)
    ensures var t := IssuerTicked(policy, i, now);
            && t.i.template == i.template && t.i.switchAt == i.switchAt && t.i.armedSeen == i.armedSeen
            && (i.state == Announce ==> !t.a.Commit? && (t.i.state == AwaitAck || (t.i.state == Announce && now < i.switchAt)))
            && (i.state == AwaitAck ==> if i.armedSeen then t.a.Commit? else now < i.switchAt ==> t.i.state == AwaitAck)
            && (t.a.Commit? ==> i.state == AwaitAck)
  {
    hide Stamped;
  }

  /** A tick of the issuer moves its campaign on. */
  lemma TickMoves(policy: Policy, w: World, now: nat)
    ensures var w' := Acted(w, IssuerTicked(policy, w.i, now));
            && w'.i.template == w.i.template && w'.i.switchAt == w.i.switchAt && (w.committed.Some? ==> w'.committed.Some?)
            && (Underway(w) && now < w.i.switchAt ==> Underway(w'))
            && (Ready(w) ==> Ready(w') && Rank(w') <= Rank(w))
            && (Ready(w) && Rank(w) > 0 && now >= w.i.switchAt ==> Rank(w') < Rank(w))
  {
    hide IssuerTicked;
    TickShape(policy, w.i, now);
  }

  /** What a step that is no start does to the issuer. */
  lemma IssuerMoves(s: Session, w: World, e: Step)
    requires !e.Start?
    ensures var w' := Next(s, w, e);
            && w'.i.template == w.i.template && w'.i.switchAt == w.i.switchAt && (w.committed.Some? ==> w'.committed.Some?)
            && (Underway(w) && !(e.IssuerClock? && e.now >= w.i.switchAt) ==> Underway(w'))
            && (Ready(w) ==> Ready(w') && Rank(w') <= Rank(w))
            && (Ready(w) && Rank(w) > 0 && e.IssuerClock? && e.now >= w.i.switchAt ==> Rank(w') < Rank(w))
  {
    hide StampMs, Heard, FollowerTicked, Judged, Stamped, MayRestamp, IssuerTicked, Acted;
    if e.IssuerClock? { TickMoves(s.ground, w, e.now); }
  }

  lemma ChosenStays(s: Session, w: World, e: Step, n: U32)
    requires Inv(s, w) && Chosen(w, n) && Enabled(s, w, e) && !e.Start?
    ensures Chosen(Next(s, w, e), n)
  {
    hide Inv, Enabled, Next;
    ChosenCraft(s, w, e, n);
    IssuerMoves(s, w, e);
  }

  /** The flag reaches an issuer that is still waiting, or has committed already. */
  lemma {:induction false} StaysUnderway(s: Session, w: World, steps: seq<Step>, w': World)
    requires Inv(s, w) && Reaches(s, w, steps, w') && NoStart(steps) && Underway(w) && LateClocks(steps, w.i.switchAt) == 0
    ensures Inv(s, w') && Underway(w') && w'.i.template == w.i.template && w'.i.switchAt == w.i.switchAt
    decreases |steps|
  {
    hide Inv, Enabled, Next, Underway;
    if steps != [] {
      NextKeeps(s, w, steps[0]);
      IssuerMoves(s, w, steps[0]);
      StaysUnderway(s, Next(s, w, steps[0]), steps[1..], w');
    }
  }

  lemma {:induction false} ReadyRuns(s: Session, w: World, steps: seq<Step>, w': World, n: U32)
    requires Inv(s, w) && Reaches(s, w, steps, w') && NoStart(steps) && Ready(w) && Chosen(w, n)
    ensures Inv(s, w') && Chosen(w', n) && w'.campaigns == w.campaigns
    ensures Rank(w) <= LateClocks(steps, w.i.switchAt) ==> w'.committed.Some?
    ensures w.f.state != Armed || TicksBy(steps, w.f.switchAt) ==> w'.f.state != Armed
    decreases |steps|
  {
    if steps == [] {
      NoTicks(w.f.switchAt);
    } else {
      hide Inv, Enabled, Next, Ready, Chosen, TicksBy, Rank;
      var e := steps[0];
      var next := Next(s, w, e);
      NextKeeps(s, w, e);
      IssuerMoves(s, w, e);
      ChosenCraft(s, w, e, n);
      ChosenStays(s, w, e, n);
      RankZero(next);
      ReadyRuns(s, next, steps[1..], w', n);
      if TicksBy(steps, w.f.switchAt) && !(e.CraftClock? && e.now >= w.f.switchAt) { TicksLater(steps, w.f.switchAt); }
    }
  }

  lemma RankZero(w: World)
    ensures w.committed.Some? <==> Rank(w) == 0
  {
  }

  // ---- from the start to the new channel ------------------------------------------------------------------

  lemma JustStarted(s: Session, w: World, m: Move, start: nat)
    requires Inv(s, w) && Enabled(s, w, Start(m, start)) && MayStart(s.ground, w.i, m, start)
    ensures var w' := Next(s, w, Start(m, start));
            && Underway(w') && w'.i.template.nonce == w.i.nextNonce && w'.i.switchAt == start + DT_MS * 1000
            && w.i.nextNonce in w'.campaigns && w'.campaigns[w.i.nextNonce] == m.chan
  {
    hide MayStart, Inv;
  }

  lemma FlagMakesReady(s: Session, w: World, n: U32)
    requires Inv(s, w) && Underway(w) && Enabled(s, w, FlagHeard(n)) && w.i.template.nonce == n
    ensures var w' := Next(s, w, FlagHeard(n));
            && Ready(w') && Chosen(w', n) && Rank(w') <= 2 && w'.i == ArmedNoted(w.i) && w'.i.switchAt == w.i.switchAt
            && w'.campaigns == w.campaigns && w'.f == w.f
  {
    assert n in w.accepted;
    assert w.campaigns != map[];
  }

  lemma CommittedThere(s: Session, w: World, n: U32)
    requires Inv(s, w) && Chosen(w, n) && w.committed.Some?
    ensures w.committed == Some(n) && n in w.campaigns && w.issuerChan == w.campaigns[n]
  {
    ChosenFollowed(s, w, n);
  }

  lemma Campaigned(s: Session, w: World, steps: seq<Step>, w': World)
    requires Inv(s, w) && Reaches(s, w, steps, w') && NoStart(steps)
    ensures w'.campaigns == w.campaigns
    decreases |steps|
  {
    hide Inv, Enabled, Next;
    if steps != [] {
      NextKeeps(s, w, steps[0]);
      CampaignsSame(s, w, steps[0]);
      Campaigned(s, Next(s, w, steps[0]), steps[1..], w');
    }
  }

  lemma CampaignsSame(s: Session, w: World, e: Step)
    requires !e.Start?
    ensures Next(s, w, e).campaigns == w.campaigns
  {
    hide Acted, Heard, Judged, FollowerTicked;
    if e.IssuerClock? { IssuerApart(w, IssuerTicked(s.ground, w.i, e.now)); }
  }

  /**
   * A campaign succeeds. Started at a time, its flag heard before the issuer ticks at or past the switch, and then two
   * such ticks of the issuer and one of the craft at or past its instant, with no other start: whatever else comes in
   * between, the issuer is committed to it and both radios are on its channel.
   */
  lemma BothArrive(s: Session, w: World, m: Move, start: nat, before: seq<Step>, w2: World, after: seq<Step>, w4: World)
    requires Inv(s, w) && Enabled(s, w, Start(m, start)) && MayStart(s.ground, w.i, m, start)
    requires Reaches(s, Next(s, w, Start(m, start)), before, w2) && NoStart(before)
    requires LateClocks(before, start + DT_MS * 1000) == 0 && Enabled(s, w2, FlagHeard(w.i.nextNonce))
    requires Reaches(s, Next(s, w2, FlagHeard(w.i.nextNonce)), after, w4) && NoStart(after)
    requires LateClocks(after, start + DT_MS * 1000) >= 2 && (w2.f.state == Armed ==> TicksBy(after, w2.f.switchAt))
    ensures w4.committed == Some(w.i.nextNonce) && w4.f.campaign.nonce == w.i.nextNonce && w4.f.state != Armed
    ensures w4.issuerChan == w4.craftChan == m.chan
  {
    hide *;
    var n, w1, w3 := w.i.nextNonce, Next(s, w, Start(m, start)), Next(s, w2, FlagHeard(w.i.nextNonce));
    NextKeeps(s, w, Start(m, start));
    JustStarted(s, w, m, start);
    StaysUnderway(s, w1, before, w2);
    Campaigned(s, w1, before, w2);
    NextKeeps(s, w2, FlagHeard(n));
    FlagMakesReady(s, w2, n);
    ReadyRuns(s, w3, after, w4, n);
    CommittedThere(s, w4, n);
    ChosenFollowed(s, w4, n);
  }

  /** The same over runs with a record, where the craft's tick comes at or past the instant recorded for its copy. */
  lemma BothArriveOnTime(s: Session, craftChan: U16, issuerChan: U16, head: seq<Event>, r: Record, m: Move, start: nat,
                         before: seq<Event>, r2: Record, after: seq<Event>, r4: Record)
    requires s.craft.hasKey && Leads(s, Blank(s, craftChan, issuerChan), head, r)
    requires Allowed(s, r, Plain(Start(m, start))) && MayStart(s.ground, r.w.i, m, start)
    requires Leads(s, After(s, r, Plain(Start(m, start))), before, r2) && NoStart(Steps(before))
    requires LateClocks(Steps(before), start + DT_MS * 1000) == 0 && Allowed(s, r2, Plain(FlagHeard(r.w.i.nextNonce)))
    requires Leads(s, After(s, r2, Plain(FlagHeard(r.w.i.nextNonce))), after, r4) && NoStart(Steps(after))
    requires LateClocks(Steps(after), start + DT_MS * 1000) >= 2
    requires r.w.i.nextNonce in r2.anchors ==> TicksBy(Steps(after), r2.anchors[r.w.i.nextNonce].instant)
    ensures r4.w.committed == Some(r.w.i.nextNonce) && r4.w.issuerChan == r4.w.craftChan == m.chan && r4.w.f.state != Armed
  {
    hide *;
    var n := r.w.i.nextNonce;
    var v, flag := Plain(Start(m, start)), Plain(FlagHeard(n));
    var r1, r3 := After(s, r, v), After(s, r2, flag);
    BlankKept(s, craftChan, issuerChan);
    LeadsKept(s, Blank(s, craftChan, issuerChan), head, r);
    Parts(s, r);
    AfterKept(s, r, v);
    PlainStep(s, r, v);
    LeadsKept(s, r1, before, r2);
    Parts(s, r2);
    PlainStep(s, r2, flag);
    WorldReached(s, r1, before, r2);
    WorldReached(s, r3, after, r4);
    JustStarted(s, r.w, m, start);
    NextKeeps(s, r.w, Start(m, start));
    StaysUnderway(s, r1.w, Steps(before), r2.w);
    FlagMakesReady(s, r2.w, n);
    FlagChosen(s, r2, n);
    BothArrive(s, r.w, m, start, Steps(before), r2.w, Steps(after), r4.w);
  }

  lemma PlainStep(s: Session, r: Record, v: Event)
    requires Inv(s, r.w) && Allowed(s, r, v) && v.Plain?
    ensures Enabled(s, r.w, v.e) && After(s, r, v).w == Next(s, r.w, v.e)
  {
    hide Inv, Next, Noted;
  }

  /** The craft whose flag is heard has its instant on record. */
  lemma FlagChosen(s: Session, r: Record, n: U32)
    requires Kept(s, r) && Enabled(s, r.w, FlagHeard(n)) && r.w.i.template.nonce == n
    ensures n in r.anchors && (r.w.f.state == Armed ==> r.anchors[n].instant == r.w.f.switchAt)
  {
    Parts(s, r);
    FlagFollowed(s, r.w, n);
    hide Inv, Switches, Covered, Hops, Anchored;
  }

  lemma FlagFollowed(s: Session, w: World, n: U32)
    requires Inv(s, w) && Enabled(s, w, FlagHeard(n)) && w.i.template.nonce == n
    ensures n in w.accepted && w.f.campaign.nonce == n
  {
    assert w.campaigns != map[];
    ChosenFollowed(s, w, n);
  }
}
