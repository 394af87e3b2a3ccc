/** Follower and issuer of a channel switch over a lossy, repeating, reordering channel with an ideal MAC. */
module CsaProtocol {
  import opened Bytes
  import opened Csa

  // ---- the switch instant ---------------------------------------------------------------------------

  /** Whole milliseconds left when a copy is stamped. */
  lemma StampRounds(switchAt: nat, at: nat)
    requires at + CUTOFF_US < switchAt <= at + 65_000_000
    ensures StampMs(switchAt, at) * 1000 <= switchAt - at < StampMs(switchAt, at) * 1000 + 1000
    ensures StampMs(switchAt, at) >= 50
  {
  }

  // ---- the composed system ----------------------------------------------------------------------------

  /** Both engines, both radios, and what happened: campaigns and their channels, nonces accepted, flags raised, commitment. */
  datatype World = World(f: Follower, i: Issuer, air: set<Packet>, craftChan: U16, issuerChan: U16, campaigns: map<U32, U16>,
                         accepted: set<U32>, flags: set<U32>, committed: Option<U32>)

  datatype Session = Session(craft: Policy, ground: Policy, originator: U16, session: U32, seed: U32)

  function Begin(s: Session, craftChan: U16, issuerChan: U16): World {
    World(NEW_FOLLOWER, NEW_ISSUER.(nextNonce := s.seed), {}, craftChan, issuerChan, map[], {}, {}, None)
  }

  datatype Step =
    | Start(m: Move, now: nat)
    | IssuerClock(now: nat)
    | Release(p: Packet, now: nat)
    | CraftClock(now: nat)
    | ToCraft(p: Packet, now: nat, tsf: Option<Tsf>, issuer: Option<U16>)
    | CraftRx(now: nat, from: U16)
    | RaiseFlag
    | FlagHeard(nonce: U32)
    | VideoHeard(now: nat, armed: bool)

  /** Sealed packets were sent, nonces do not wrap, and an armed flag heard was raised for the campaign in flight. */
  predicate Enabled(s: Session, w: World, e: Step) {
    match e
    case Start(m, _) => m.originator == s.originator && m.session == s.session && w.i.nextNonce < 0xFFFF_FFFF
    case Release(p, _) => p in w.air
    case ToCraft(p, _, _, _) => p.sealed ==> p in w.air
    case RaiseFlag => w.f.state == Armed || w.f.state == Verify
    case FlagHeard(n) => n in w.flags && n == w.i.template.nonce
    case IssuerClock(_) => true
    case CraftClock(_) => true
    case CraftRx(_, _) => true
    case VideoHeard(_, _) => true
  }

  function Acted(w: World, t: IssuerTick): World {
    match t.a
    case SendCopy(p) => w.(i := t.i, air := w.air + {p})
    case SendBeacon(p) => w.(i := t.i, air := w.air + {p})
    case Commit(to) => w.(i := t.i, issuerChan := to.chan, committed := Some(w.i.template.nonce))
    case Success(to) => w.(i := t.i, issuerChan := if to.Some? then to.value.chan else w.issuerChan)
    case Nothing => w.(i := t.i)
    case Abort => w.(i := t.i)
  }

  function StartedWorld(s: Session, w: World, m: Move, now: nat): World {
    if MayStart(s.ground, w.i, m, now) then
      w.(i := Started(s.ground, w.i, m, now), campaigns := w.campaigns[w.i.nextNonce := m.chan], committed := None)
    else w
  }

  function CraftTicked(s: Session, w: World, now: nat): World {
    var t := FollowerTicked(s.craft, w.f, now);
    w.(f := t.f, craftChan := if t.retune.Some? then t.retune.value.chan else w.craftChan)
  }

  function CraftHeard(s: Session, w: World, p: Packet, now: nat, tsf: Option<Tsf>, issuer: Option<U16>): World {
    w.(f := Heard(s.craft, w.f, p, now, tsf, issuer),
       accepted := if Judged(s.craft, w.f, p, now, issuer) == Accepted then w.accepted + {p.nonce} else w.accepted)
  }

  function Next(s: Session, w: World, e: Step): World {
    match e
    case Start(m, now) => StartedWorld(s, w, m, now)
    case IssuerClock(now) => Acted(w, IssuerTicked(s.ground, w.i, now))
    case Release(p, now) => if MayRestamp(w.i, p, now) then w.(air := w.air + {Stamped(w.i, p, now)}) else w
    case CraftClock(now) => CraftTicked(s, w, now)
    case ToCraft(p, now, tsf, issuer) => CraftHeard(s, w, p, now, tsf, issuer)
    case CraftRx(now, from) => w.(f := RxNoted(w.f, now, from))
    case RaiseFlag => w.(flags := w.flags + {w.f.campaign.nonce})
    case FlagHeard(_) => w.(i := ArmedNoted(w.i))
    case VideoHeard(now, armed) => w.(i := VideoNoted(s.ground, w.i, now, armed))
  }

  // ---- what holds throughout ---------------------------------------------------------------------------

  /** A packet speaks of the campaign its nonce numbers. */
  predicate Speaks(s: Session, campaigns: map<U32, U16>, p: Packet) {
    p.originator == s.originator && p.session == s.session && p.nonce in campaigns && p.chan == campaigns[p.nonce]
  }

  ghost predicate Aired(s: Session, w: World) {
    forall p :: p in w.air ==> Speaks(s, w.campaigns, p)
  }

  /** The issuer's template is the latest campaign. */
  ghost predicate Latest(s: Session, campaigns: map<U32, U16>, i: Issuer) {
    && (forall n :: n in campaigns ==> n < i.nextNonce)
    && (campaigns == map[] ==> i.state == Quiet)
    && (campaigns != map[] ==> Speaks(s, campaigns, i.template) && forall n :: n in campaigns ==> n <= i.template.nonce)
  }

  /** The craft follows the newest campaign it accepted, and once retuned it is on that campaign's channel. */
  ghost predicate Follows(s: Session, w: World) {
    && (forall n :: n in w.flags ==> n in w.accepted)
    && (w.accepted == {} ==> w.f.state == Idle && w.f.applied == map[])
    && (w.accepted != {} ==>
          && w.f.state != Idle && Speaks(s, w.campaigns, w.f.campaign)
          && w.f.campaign.nonce in w.accepted && (forall n :: n in w.accepted ==> n <= w.f.campaign.nonce)
          && w.f.applied == map[(s.originator, s.session) := w.f.campaign.nonce]
          && (w.f.state != Armed ==> w.craftChan == w.f.campaign.chan))
  }

  /** The issuer commits only to a campaign the craft accepted. */
  ghost predicate Commits(w: World) {
    && ((w.i.state == Announce || w.i.state == AwaitAck) && w.i.armedSeen ==> w.i.template.nonce in w.accepted)
    && (w.i.state == Verifying ==> w.committed.Some?)
    && (w.committed.Some? ==>
          && w.committed.value == w.i.template.nonce && w.campaigns != map[] && w.i.template.nonce in w.accepted
          && w.issuerChan == w.i.template.chan)
  }

  ghost predicate Inv(s: Session, w: World) {
    s.craft.hasKey && Aired(s, w) && Latest(s, w.campaigns, w.i) && Follows(s, w) && Commits(w)
  }

  lemma BeginInv(s: Session, craftChan: U16, issuerChan: U16)
    requires s.craft.hasKey
    ensures Inv(s, Begin(s, craftChan, issuerChan))
  {
  }

  lemma StartKeeps(s: Session, w: World, m: Move, now: nat)
    requires Inv(s, w) && Enabled(s, w, Start(m, now))
    ensures Inv(s, StartedWorld(s, w, m, now))
  {
    hide Since;
    if MayStart(s.ground, w.i, m, now) {
      var w' := StartedWorld(s, w, m, now);
      assert w.i.nextNonce !in w.campaigns;
      forall p | Speaks(s, w.campaigns, p) ensures Speaks(s, w'.campaigns, p) {}
      assert Aired(s, w') && Follows(s, w');
    }
  }

  /** What an issuer's tick may do. */
  lemma IssuerActs(s: Session, w: World, now: nat)
    requires Inv(s, w)
    ensures var t := IssuerTicked(s.ground, w.i, now);
            && t.i.template == w.i.template && t.i.nextNonce == w.i.nextNonce && t.i.armedSeen == w.i.armedSeen
            && (t.a.SendCopy? ==> w.i.state != Quiet && Speaks(s, w.campaigns, t.a.p))
            && (t.a.SendBeacon? ==> w.i.state != Quiet && Speaks(s, w.campaigns, t.a.p))
            && (t.a.Commit? ==> w.i.state == AwaitAck && w.i.armedSeen && t.i.state == Verifying && t.a.to.chan == w.i.template.chan)
            && (t.i.state == Verifying ==> t.a.Commit? || w.i.state == Verifying)
            && (t.a.Success? ==> w.i.state == Verifying && (t.a.unconfirmed.Some? ==> t.a.unconfirmed.value.chan == w.i.template.chan))
            && (t.i.state == Announce || t.i.state == AwaitAck ==> w.i.state == Announce || w.i.state == AwaitAck)
            && (w.i.state == Quiet ==> t.i == w.i && t.a == Nothing)
  {
    hide StampMs, Follows, Aired;
  }

  lemma IssuerKeeps(s: Session, w: World, now: nat)
    requires Inv(s, w)
    ensures Inv(s, Acted(w, IssuerTicked(s.ground, w.i, now)))
  {
    IssuerActs(s, w, now);
    hide IssuerTicked;
    var w' := Acted(w, IssuerTicked(s.ground, w.i, now));
    assert w'.campaigns == w.campaigns && w'.f == w.f && w'.accepted == w.accepted && w'.flags == w.flags && w'.craftChan == w.craftChan;
    assert Follows(s, w') && Aired(s, w') && Latest(s, w'.campaigns, w'.i);
  }

  lemma VideoKeeps(s: Session, w: World, now: nat, armed: bool)
    requires Inv(s, w)
    ensures Inv(s, w.(i := VideoNoted(s.ground, w.i, now, armed)))
  {
    var w' := w.(i := VideoNoted(s.ground, w.i, now, armed));
    assert w'.i.template == w.i.template && w'.i.state == w.i.state && w'.i.nextNonce == w.i.nextNonce;
    assert Follows(s, w') && Aired(s, w');
  }

  lemma FlagKeeps(s: Session, w: World, n: U32)
    requires Inv(s, w) && Enabled(s, w, FlagHeard(n))
    ensures Inv(s, w.(i := ArmedNoted(w.i)))
  {
    var w' := w.(i := ArmedNoted(w.i));
    assert Follows(s, w') && Aired(s, w');
  }

  lemma ReleaseKeeps(s: Session, w: World, p: Packet, now: nat)
    requires Inv(s, w) && p in w.air
    ensures Inv(s, w.(air := w.air + {Stamped(w.i, p, now)}))
  {
    hide StampMs;
    var w' := w.(air := w.air + {Stamped(w.i, p, now)});
    assert Speaks(s, w.campaigns, p);
    assert Follows(s, w') && Commits(w');
  }

  lemma CraftKeeps(s: Session, w: World, e: Step)
    requires Inv(s, w) && (e.CraftClock? || e.CraftRx? || e.RaiseFlag?) && Enabled(s, w, e)
    ensures Inv(s, Next(s, w, e))
  {
    var w' := Next(s, w, e);
    assert w'.f.campaign == w.f.campaign && w'.f.applied == w.f.applied && w'.accepted == w.accepted;
    assert w'.f.state == Armed ==> w.f.state == Armed;
    assert Aired(s, w') && Latest(s, w'.campaigns, w'.i) && Commits(w');
    hide Aired, Latest, Commits;
  }

  lemma HeardShape(policy: Policy, f: Follower, p: Packet, now: nat, tsf: Option<Tsf>, issuer: Option<U16>)
    requires policy.hasKey
    ensures var f' := Heard(policy, f, p, now, tsf, issuer);
            if Judged(policy, f, p, now, issuer) == Accepted then
              && p.sealed && f'.state == Armed && f'.campaign == p && f'.applied == f.applied[(p.originator, p.session) := p.nonce]
              && ((p.originator, p.session) in f.applied ==> p.nonce > f.applied[(p.originator, p.session)])
            else f'.campaign == f.campaign && f'.applied == f.applied && (f'.state == f.state || (f.state == Verify && f'.state == Committed))
  {
    hide SwitchAt, Since, Counted;
  }

  lemma ToCraftKeeps(s: Session, w: World, p: Packet, now: nat, tsf: Option<Tsf>, issuer: Option<U16>)
    requires Inv(s, w) && (p.sealed ==> p in w.air)
    ensures Inv(s, CraftHeard(s, w, p, now, tsf, issuer))
  {
    HeardShape(s.craft, w.f, p, now, tsf, issuer);
    hide Heard, Judged;
    var w' := CraftHeard(s, w, p, now, tsf, issuer);
    forall n | n in w.accepted ensures n in w'.accepted {}
    if Judged(s.craft, w.f, p, now, issuer) == Accepted {
      assert Speaks(s, w.campaigns, p);
    }
    assert Aired(s, w') && Latest(s, w'.campaigns, w'.i) && Commits(w');
  }

  lemma NextKeeps(s: Session, w: World, e: Step)
    requires Inv(s, w) && Enabled(s, w, e)
    ensures Inv(s, Next(s, w, e))
  {
    hide Inv, StartedWorld, CraftHeard, CraftTicked, Acted, ArmedNoted, VideoNoted, Stamped, RxNoted;
    match e {
      case Start(m, now) => StartKeeps(s, w, m, now);
      case IssuerClock(now) => IssuerKeeps(s, w, now);
      case VideoHeard(now, armed) => VideoKeeps(s, w, now, armed);
      case Release(p, now) => ReleaseKeeps(s, w, p, now);
      case FlagHeard(n) => FlagKeeps(s, w, n);
      case CraftClock(_) => CraftKeeps(s, w, e);
      case CraftRx(_, _) => CraftKeeps(s, w, e);
      case RaiseFlag => CraftKeeps(s, w, e);
      case ToCraft(p, now, tsf, issuer) => ToCraftKeeps(s, w, p, now, tsf, issuer);
    }
  }

  ghost predicate Reaches(s: Session, w: World, steps: seq<Step>, w': World)
    decreases |steps|
  {
    if steps == [] then w == w' else Enabled(s, w, steps[0]) && Reaches(s, Next(s, w, steps[0]), steps[1..], w')
  }

  lemma {:induction false} ReachesInv(s: Session, w: World, steps: seq<Step>, w': World)
    requires Inv(s, w) && Reaches(s, w, steps, w')
    ensures Inv(s, w')
    decreases |steps|
  {
    hide Inv, Next, Enabled;
    if steps != [] {
      NextKeeps(s, w, steps[0]);
      ReachesInv(s, Next(s, w, steps[0]), steps[1..], w');
    }
  }

  /** The craft's campaign is the issuer's, and its radio is on the channel or about to go there. */
  ghost predicate Together(w: World) {
    && w.f.campaign.nonce == w.i.template.nonce && w.f.campaign.chan == w.i.template.chan == w.issuerChan
    && w.f.state != Idle && (w.f.state == Armed || w.craftChan == w.issuerChan)
  }

  lemma CommittedTogether(s: Session, w: World)
    requires Inv(s, w) && w.committed.Some?
    ensures Together(w)
  {
    assert w.i.template.nonce in w.accepted;
    assert w.f.campaign.nonce in w.campaigns;
  }

  /**
   * Once the issuer has committed to a campaign, both sides mean the same one: the issuer's radio is on its channel, the
   * craft's is too or will be at its next retune.
   */
  lemma CommitMeansSameChannel(s: Session, craftChan: U16, issuerChan: U16, steps: seq<Step>, w: World)
    requires s.craft.hasKey && Reaches(s, Begin(s, craftChan, issuerChan), steps, w) && w.committed.Some?
    ensures Together(w)
    ensures forall now: nat :: now >= w.f.switchAt ==> CraftTicked(s, w, now).craftChan == w.issuerChan
  {
    BeginInv(s, craftChan, issuerChan);
    ReachesInv(s, Begin(s, craftChan, issuerChan), steps, w);
    CommittedTogether(s, w);
    hide Reaches, Begin, Inv;
  }

  /** Each campaign is accepted at most once, and never after a newer one. */
  lemma AcceptedOnce(s: Session, craftChan: U16, issuerChan: U16, steps: seq<Step>, w: World, e: Step)
    requires s.craft.hasKey && Reaches(s, Begin(s, craftChan, issuerChan), steps, w)
    requires e.ToCraft? && Enabled(s, w, e) && Judged(s.craft, w.f, e.p, e.now, e.issuer) == Accepted
    ensures e.p.nonce in w.campaigns && w.campaigns[e.p.nonce] == e.p.chan
    ensures forall n :: n in w.accepted ==> n < e.p.nonce
  {
    BeginInv(s, craftChan, issuerChan);
    ReachesInv(s, Begin(s, craftChan, issuerChan), steps, w);
    HeardShape(s.craft, w.f, e.p, e.now, e.tsf, e.issuer);
    hide Reaches, Begin, Judged, Heard, Commits, Latest;
    assert Speaks(s, w.campaigns, e.p);
  }

  /** A copy of the campaign in flight is never news to a craft already on it. */
  lemma NothingNewer(s: Session, w: World, p: Packet, now: nat, tsf: Option<Tsf>, issuer: Option<U16>)
    requires Inv(s, w) && w.committed.Some? && Together(w) && (p.sealed ==> p in w.air)
    ensures Judged(s.craft, w.f, p, now, issuer) != Accepted
  {
    HeardShape(s.craft, w.f, p, now, tsf, issuer);
    hide Judged, Heard;
    assert p in w.air ==> Speaks(s, w.campaigns, p) && p.nonce <= w.i.template.nonce;
  }

  lemma IssuerStays(s: Session, w: World, now: nat)
    requires Inv(s, w) && w.committed.Some?
    ensures var w' := Acted(w, IssuerTicked(s.ground, w.i, now));
            w'.committed == w.committed && w'.issuerChan == w.issuerChan && w'.f == w.f && w'.craftChan == w.craftChan
  {
    IssuerActs(s, w, now);
    hide IssuerTicked, Aired, Latest, Follows;
  }

  lemma StepStays(s: Session, w: World, e: Step)
    requires Inv(s, w) && w.committed.Some? && Enabled(s, w, e) && !e.Start? && Together(w)
    ensures var w' := Next(s, w, e);
            && w'.committed == w.committed && w'.issuerChan == w.issuerChan
            && (w.f.state != Armed ==> w'.f.state != Armed && w'.craftChan == w.issuerChan)
  {
    hide Inv, Enabled, Acted, StampMs;
    match e {
      case IssuerClock(now) => IssuerStays(s, w, now);
      case ToCraft(p, now, tsf, issuer) =>
        assert p.sealed ==> p in w.air by { Delivered(s, w, p, now, tsf, issuer); }
        assert s.craft.hasKey by { HasKey(s, w); }
        NothingNewer(s, w, p, now, tsf, issuer);
        HeardShape(s.craft, w.f, p, now, tsf, issuer);
        hide Judged, Heard;
      case CraftClock(now) =>
      case CraftRx(now, from) =>
      case RaiseFlag =>
      case FlagHeard(n) =>
      case VideoHeard(now, armed) =>
      case Release(p, now) =>
    }
  }

  lemma Delivered(s: Session, w: World, p: Packet, now: nat, tsf: Option<Tsf>, issuer: Option<U16>)
    requires Enabled(s, w, ToCraft(p, now, tsf, issuer))
    ensures p.sealed ==> p in w.air
  {
  }

  lemma HasKey(s: Session, w: World)
    requires Inv(s, w)
    ensures s.craft.hasKey
  {
  }

  /** And until the next campaign starts neither side leaves that channel again. */
  lemma {:induction false} NeitherGoesBack(s: Session, w: World, steps: seq<Step>, w': World)
    requires Inv(s, w) && w.committed.Some? && Reaches(s, w, steps, w') && forall e :: e in steps ==> !e.Start?
    ensures w'.committed == w.committed && w'.issuerChan == w.issuerChan && Together(w')
    ensures w.f.state != Armed ==> w'.craftChan == w.issuerChan && w'.f.state != Armed
    decreases |steps|
  {
    CommittedTogether(s, w);
    if steps != [] {
      var e := steps[0];
      assert e in steps;
      forall d | d in steps[1..] ensures !d.Start? { assert d in steps; }
      hide Inv, Next, Enabled, Together;
      NextKeeps(s, w, e);
      StepStays(s, w, e);
      NeitherGoesBack(s, Next(s, w, e), steps[1..], w');
    } else {
      assert Together(w) && (w.f.state != Armed ==> w.craftChan == w.issuerChan);
    }
  }

  // ---- the craft's own books and window -----------------------------------------------------------------

  /** Copies delivered to the craft. */
  function Deliveries(steps: seq<Step>): nat {
    if steps == [] then 0 else (if steps[0].ToCraft? then 1 else 0) + Deliveries(steps[1..])
  }

  function Total(r: Refusals): nat {
    r.noKey + r.badMac + r.issuerLock + r.nonceReplay + r.notAllowed + r.rateLimited + r.beacon + r.accepted
  }

  lemma CountedOnce(policy: Policy, f: Follower, p: Packet, now: nat, tsf: Option<Tsf>, issuer: Option<U16>)
    ensures var r, r' := f.refusals, Heard(policy, f, p, now, tsf, issuer).refusals;
            Total(r') == Total(r) + 1 && r'.accepted == r.accepted + if Judged(policy, f, p, now, issuer) == Accepted then 1 else 0
  {
    hide Judged;
  }

  lemma StepCounted(s: Session, w: World, e: Step)
    requires Inv(s, w) && Enabled(s, w, e)
    ensures var r, r' := w.f.refusals, Next(s, w, e).f.refusals;
            Total(r') == Total(r) + (if e.ToCraft? then 1 else 0) && r'.accepted - r.accepted == |Next(s, w, e).accepted| - |w.accepted|
  {
    hide Inv, Acted, Stamped, Heard, Judged, FollowerTicked, Total;
    match e {
      case ToCraft(p, now, tsf, issuer) =>
        CountedOnce(s.craft, w.f, p, now, tsf, issuer);
        if Judged(s.craft, w.f, p, now, issuer) == Accepted {
          AcceptedFresh(s, w, p, now, tsf, issuer);
          assert w.accepted + {p.nonce} - {p.nonce} == w.accepted;
        }
      case CraftClock(now) => TickCounts(s.craft, w.f, now);
      case IssuerClock(now) => IssuerAlone(w, IssuerTicked(s.ground, w.i, now));
      case _ =>
    }
  }

  lemma IssuerAlone(w: World, t: IssuerTick)
    ensures Acted(w, t).f == w.f && Acted(w, t).accepted == w.accepted
  {
  }

  lemma TickCounts(policy: Policy, f: Follower, now: nat)
    ensures FollowerTicked(policy, f, now).f.refusals == f.refusals
  {
  }

  /** An accepted copy is sealed and of a campaign not accepted before. */
  lemma AcceptedFresh(s: Session, w: World, p: Packet, now: nat, tsf: Option<Tsf>, issuer: Option<U16>)
    requires Inv(s, w) && (p.sealed ==> p in w.air) && Judged(s.craft, w.f, p, now, issuer) == Accepted
    ensures p.sealed && p.dtMs != 0 && p.nonce !in w.accepted && p.nonce in w.campaigns
  {
    HasKey(s, w);
    HeardShape(s.craft, w.f, p, now, tsf, issuer);
    assert p.dtMs != 0 by { hide Since; }
    hide Judged, Heard, Commits, Latest;
    assert Speaks(s, w.campaigns, p);
  }

  lemma {:induction false} StepsCounted(s: Session, w: World, steps: seq<Step>, w': World)
    requires Inv(s, w) && Reaches(s, w, steps, w')
    ensures Total(w'.f.refusals) == Total(w.f.refusals) + Deliveries(steps)
    ensures w'.f.refusals.accepted - w.f.refusals.accepted == |w'.accepted| - |w.accepted|
    decreases |steps|
  {
    hide Inv, Next, Enabled, Total;
    if steps != [] {
      NextKeeps(s, w, steps[0]);
      StepCounted(s, w, steps[0]);
      StepsCounted(s, Next(s, w, steps[0]), steps[1..], w');
    }
  }

  /** Over every run the counters add up to the copies delivered, and as many are counted accepted as campaigns were. */
  lemma EveryCopyCounted(s: Session, craftChan: U16, issuerChan: U16, steps: seq<Step>, w: World)
    requires s.craft.hasKey && Reaches(s, Begin(s, craftChan, issuerChan), steps, w)
    ensures Total(w.f.refusals) == Deliveries(steps) && w.f.refusals.accepted == |w.accepted|
  {
    BeginInv(s, craftChan, issuerChan);
    hide Inv, Reaches, Deliveries;
    StepsCounted(s, Begin(s, craftChan, issuerChan), steps, w);
  }

  /** Some tick of the craft comes at or past a time. */
  predicate TicksBy(steps: seq<Step>, limit: nat) {
    exists k :: 0 <= k < |steps| && steps[k].CraftClock? && steps[k].now >= limit
  }

  lemma TicksLater(steps: seq<Step>, limit: nat)
    requires TicksBy(steps, limit) && !(steps[0].CraftClock? && steps[0].now >= limit)
    ensures TicksBy(steps[1..], limit)
  {
    var k :| 0 <= k < |steps| && steps[k].CraftClock? && steps[k].now >= limit;
    assert steps[1..][k - 1] == steps[k];
  }

  /** The counter of accepted copies never falls, and without an acceptance the window only runs out. */
  lemma WindowStep(s: Session, w: World, e: Step)
    requires s.craft.hasKey
    ensures var f, f' := w.f, Next(s, w, e).f;
            && f'.refusals.accepted >= f.refusals.accepted
            && (f'.refusals.accepted == f.refusals.accepted ==>
                  && (f.state == Committed ==> f'.state == Committed)
                  && (f.state == Verify && f.verifyDeadline > 0 ==>
                        f'.state == Committed
                        || (f'.state == Verify && f'.verifyDeadline == f.verifyDeadline && !(e.CraftClock? && e.now >= f.verifyDeadline))))
  {
    hide Acted, Judged, Heard, Total;
    match e {
      case ToCraft(p, now, tsf, issuer) =>
        CountedOnce(s.craft, w.f, p, now, tsf, issuer);
        HeardShape(s.craft, w.f, p, now, tsf, issuer);
        DeadlineKept(s.craft, w.f, p, now, tsf, issuer);
      case IssuerClock(now) => IssuerAlone(w, IssuerTicked(s.ground, w.i, now));
      case _ =>
    }
  }

  lemma DeadlineKept(policy: Policy, f: Follower, p: Packet, now: nat, tsf: Option<Tsf>, issuer: Option<U16>)
    ensures Heard(policy, f, p, now, tsf, issuer).verifyDeadline == f.verifyDeadline
  {
    hide Judged, Counted, SwitchAt;
  }

  lemma {:induction false} WindowRuns(s: Session, w: World, steps: seq<Step>, w': World, limit: nat)
    requires s.craft.hasKey && Reaches(s, w, steps, w')
    requires w.f.state == Committed || (w.f.state == Verify && 0 < w.f.verifyDeadline <= limit && TicksBy(steps, limit))
    ensures w'.f.refusals.accepted >= w.f.refusals.accepted
    ensures w'.f.refusals.accepted == w.f.refusals.accepted ==> w'.f.state == Committed
    decreases |steps|
  {
    hide Next, Enabled, TicksBy;
    if steps != [] {
      var next := Next(s, w, steps[0]);
      WindowStep(s, w, steps[0]);
      if next.f.refusals.accepted == w.f.refusals.accepted {
        if w.f.state == Verify && !(steps[0].CraftClock? && steps[0].now >= limit) { TicksLater(steps, limit); }
        WindowRuns(s, next, steps[1..], w', limit);
      } else {
        NeverFalls(s, next, steps[1..], w');
      }
    } else {
      assert !TicksBy([], limit) by { NoTicks(limit); }
    }
  }

  lemma NoTicks(limit: nat)
    ensures !TicksBy([], limit)
  {
  }

  lemma {:induction false} NeverFalls(s: Session, w: World, steps: seq<Step>, w': World)
    requires s.craft.hasKey && Reaches(s, w, steps, w')
    ensures w'.f.refusals.accepted >= w.f.refusals.accepted
    decreases |steps|
  {
    hide Next, Enabled;
    if steps != [] {
      WindowStep(s, w, steps[0]);
      NeverFalls(s, Next(s, w, steps[0]), steps[1..], w');
    }
  }

  /**
   * A craft that has hopped decides: over any steps from its first tick in the new channel on, with a tick its policy's
   * verify time later and no newer campaign accepted, it ends committed, whatever window the packet asked for.
   */
  lemma FollowerDecides(s: Session, w: World, first: nat, steps: seq<Step>, w': World)
    requires s.craft.hasKey && w.f.state == Verify && w.f.verifyDeadline == 0
    requires Reaches(s, CraftTicked(s, w, first), steps, w') && TicksBy(steps, first + s.craft.verifyMs * 1000)
    requires w'.f.refusals.accepted == w.f.refusals.accepted
    ensures w'.f.state == Committed
  {
    hide Reaches, TicksBy;
    WindowRuns(s, CraftTicked(s, w, first), steps, w', first + s.craft.verifyMs * 1000);
  }
}
