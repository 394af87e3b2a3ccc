/** Runs of the channel switch with a record of when copies are stamped, heard and acted on: the instant the craft retunes. */
module CsaInstant {
  import opened Bytes
  import opened Csa
  import opened CsaProtocol

  /** A copy of a campaign with the time it was last stamped. */
  datatype Copy = Copy(p: Packet, stamped: nat)

  /** How an accepted copy came, and the instant the craft derived from it. */
  datatype Anchor = Anchor(copy: Copy, aired: nat, heard: nat, timed: bool, instant: nat)

  /** A retune: when, where to, and the craft's tick before it since the acceptance. */
  datatype Hop = Hop(at: nat, chan: U16, before: Option<nat>)

  /** A world with its history: switch times, copies stamped, acceptances and retunes by campaign, the latest time seen. */
  datatype Record = Record(w: World, clock: nat, switches: map<U32, nat>, copies: set<Copy>, anchors: map<U32, Anchor>,
                           hops: map<U32, Hop>, lastTick: Option<nat>)

  function Blank(s: Session, craftChan: U16, issuerChan: U16): Record {
    Record(Begin(s, craftChan, issuerChan), 0, map[], {}, map[], map[], None)
  }

  /** A step of the world, or the arrival of a stamped copy that was on the air at a time. */
  datatype Event = Plain(e: Step) | Arrival(copy: Copy, aired: nat, now: nat, tsf: Option<Tsf>, issuer: Option<U16>)

  function StepOf(v: Event): Step {
    match v
    case Plain(e) => e
    case Arrival(copy, _, now, tsf, issuer) => ToCraft(copy.p, now, tsf, issuer)
  }

  function TimeOf(e: Step): Option<nat> {
    match e
    case Start(_, now) => Some(now)
    case IssuerClock(now) => Some(now)
    case Release(_, now) => Some(now)
    case CraftClock(now) => Some(now)
    case ToCraft(_, now, _, _) => Some(now)
    case CraftRx(now, _) => Some(now)
    case RaiseFlag => None
    case FlagHeard(_) => None
    case VideoHeard(now, _) => Some(now)
  }

  /** The TSF read tells how long ago the copy was on the air. */
  predicate Honest(tsf: Option<Tsf>, aired: nat, now: nat) {
    tsf.Some? ==> aired <= now && (tsf.value.now - tsf.value.received) % 0x1_0000_0000 == now - aired
  }

  /** Time does not go back; a copy arrives as stamped, after it was aired, with an honest TSF or none. */
  ghost predicate Allowed(s: Session, r: Record, v: Event) {
    && Enabled(s, r.w, StepOf(v)) && (TimeOf(StepOf(v)).Some? ==> TimeOf(StepOf(v)).value >= r.clock)
    && match v
       case Plain(e) => e.ToCraft? ==> !e.p.sealed || e.p.dtMs == 0
       case Arrival(copy, aired, now, tsf, _) => copy in r.copies && copy.stamped <= aired <= now && Honest(tsf, aired, now)
  }

  function Noted(s: Session, r: Record, v: Event): Record {
    match StepOf(v)
    case Start(m, now) =>
      if MayStart(s.ground, r.w.i, m, now) then r.(switches := r.switches[r.w.i.nextNonce := now + DT_MS * 1000]) else r
    case IssuerClock(now) =>
      var a := IssuerTicked(s.ground, r.w.i, now).a;
      if a.SendCopy? then r.(copies := r.copies + {Copy(a.p, now)}) else r
    case Release(p, now) =>
      if MayRestamp(r.w.i, p, now) then r.(copies := r.copies + {Copy(Stamped(r.w.i, p, now), now)}) else r
    case CraftClock(now) =>
      var retune := FollowerTicked(s.craft, r.w.f, now).retune;
      r.(hops := if retune.Some? then r.hops[r.w.f.campaign.nonce := Hop(now, retune.value.chan, r.lastTick)] else r.hops,
         lastTick := Some(now))
    case ToCraft(p, now, tsf, issuer) =>
      if v.Arrival? && Judged(s.craft, r.w.f, p, now, issuer) == Accepted
      then r.(anchors := r.anchors[p.nonce := Anchor(v.copy, v.aired, now, tsf.Some?, SwitchAt(p, now, tsf))], lastTick := None)
      else r
    case CraftRx(_, _) => r
    case RaiseFlag => r
    case FlagHeard(_) => r
    case VideoHeard(_, _) => r
  }

  function After(s: Session, r: Record, v: Event): Record {
    var time := TimeOf(StepOf(v));
    Noted(s, r, v).(w := Next(s, r.w, StepOf(v)), clock := if time.Some? then time.value else r.clock)
  }

  // ---- what the record always says ----------------------------------------------------------------------

  /** A copy carries the time left from its own stamp, and was stamped short of the switch. */
  predicate Punctual(switches: map<U32, nat>, c: Copy) {
    && c.p.nonce in switches && c.p.sealed
    && c.stamped + CUTOFF_US < switches[c.p.nonce] <= c.stamped + DT_MS * 1000
    && c.p.dtMs == StampMs(switches[c.p.nonce], c.stamped)
  }

  /** The craft's TSF read counts only within the copy's own window. */
  predicate InTime(a: Anchor) {
    a.timed && a.heard - a.aired <= a.copy.p.dtMs * 1000
  }

  /** What the instant is measured from: the airing when the TSF tells it in time, else the hearing. */
  function Reference(a: Anchor): nat {
    if InTime(a) then a.aired else a.heard
  }

  /** The instant, less the delay from stamp to reference, lies in the last millisecond up to the switch. */
  predicate Anchored(switchTime: nat, a: Anchor) {
    && a.copy.stamped <= a.aired <= a.heard
    && switchTime - 1000 < a.instant - (Reference(a) - a.copy.stamped) <= switchTime
    && (a.timed && !InTime(a) ==> a.instant - (a.aired - a.copy.stamped) > switchTime)
  }

  ghost predicate Switches(s: Session, r: Record) {
    && r.switches.Keys == r.w.campaigns.Keys
    && (r.w.campaigns != map[] ==> r.w.i.template.nonce in r.switches && r.w.i.switchAt == r.switches[r.w.i.template.nonce])
    && (forall n :: n in r.switches ==> r.switches[n] <= r.clock + DT_MS * 1000)
    && (forall c :: c in r.copies ==> Punctual(r.switches, c))
  }

  /** Every packet on the air that is not a beacon is one of the stamped copies. */
  ghost predicate Covered(r: Record) {
    forall p :: p in r.w.air && p.dtMs != 0 ==> exists c :: c in r.copies && c.p == p
  }

  ghost predicate Anchors(r: Record) {
    && r.anchors.Keys == r.w.accepted
    && (forall n :: n in r.anchors ==>
          && r.anchors[n].copy in r.copies && r.anchors[n].copy.p.nonce == n && n in r.switches
          && Anchored(r.switches[n], r.anchors[n]))
    && (r.w.f.state == Armed ==>
          && r.w.f.campaign.nonce in r.anchors && r.anchors[r.w.f.campaign.nonce].instant == r.w.f.switchAt
          && (r.lastTick.Some? ==> r.lastTick.value < r.w.f.switchAt))
  }

  /** A hop goes to the campaign's channel, at the first tick from the instant on. */
  predicate Prompt(instant: nat, h: Hop) {
    h.at >= instant && (h.before.Some? ==> h.before.value < instant)
  }

  ghost predicate Hops(r: Record) {
    && (r.w.f.state == Armed ==> r.w.f.campaign.nonce !in r.hops)
    && (forall n :: n in r.hops ==>
          && n in r.anchors && n in r.w.campaigns && r.hops[n].chan == r.w.campaigns[n]
          && Prompt(r.anchors[n].instant, r.hops[n]))
  }

  ghost predicate Kept(s: Session, r: Record) {
    Inv(s, r.w) && Switches(s, r) && Covered(r) && Anchors(r) && Hops(r)
  }

  lemma SwitchesFrame(s: Session, r: Record, r': Record)
    requires Switches(s, r) && r'.switches == r.switches && r'.w.campaigns == r.w.campaigns && r'.clock >= r.clock
    requires r'.w.i.template == r.w.i.template && r'.w.i.switchAt == r.w.i.switchAt
    requires forall c :: c in r'.copies && c !in r.copies ==> Punctual(r.switches, c)
    ensures Switches(s, r')
  {
    hide Punctual;
  }

  lemma CoveredFrame(r: Record, r': Record)
    requires Covered(r) && r.copies <= r'.copies
    requires forall p :: p in r'.w.air && p !in r.w.air && p.dtMs != 0 ==> exists c :: c in r'.copies && c.p == p
    ensures Covered(r')
  {
    forall p | p in r'.w.air && p.dtMs != 0 ensures exists c :: c in r'.copies && c.p == p {
      if p in r.w.air {
        var c :| c in r.copies && c.p == p;
        assert c in r'.copies;
      }
    }
  }

  /** Whatever the craft still has armed it had armed before, and it has not reached the instant. */
  predicate Calmer(r: Record, r': Record) {
    r'.w.f.state == Armed ==>
      && r.w.f.state == Armed && r'.w.f.campaign == r.w.f.campaign && r'.w.f.switchAt == r.w.f.switchAt
      && (r'.lastTick == r.lastTick || (r'.lastTick.Some? && r'.lastTick.value < r'.w.f.switchAt))
  }

  lemma AnchorsFrame(r: Record, r': Record)
    requires Anchors(r) && r'.anchors == r.anchors && r'.w.accepted == r.w.accepted && r.copies <= r'.copies && Calmer(r, r')
    requires forall n :: n in r.switches ==> n in r'.switches && r'.switches[n] == r.switches[n]
    ensures Anchors(r')
  {
    hide Anchored;
  }

  lemma HopsFrame(r: Record, r': Record)
    requires Hops(r) && r'.hops == r.hops && r'.anchors == r.anchors && Calmer(r, r')
    requires forall n :: n in r.w.campaigns ==> n in r'.w.campaigns && r'.w.campaigns[n] == r.w.campaigns[n]
    ensures Hops(r')
  {
  }

  // ---- step by step -------------------------------------------------------------------------------------

  lemma Parts(s: Session, r: Record)
    ensures Kept(s, r) <==> Inv(s, r.w) && Switches(s, r) && Covered(r) && Anchors(r) && Hops(r)
  {
    hide Inv, Switches, Covered, Anchors, Hops;
  }

  /** The world moves on, and time with it. */
  lemma AfterWorld(s: Session, r: Record, v: Event)
    requires Inv(s, r.w) && Allowed(s, r, v)
    ensures var r' := After(s, r, v); r'.w == Next(s, r.w, StepOf(v)) && Inv(s, r'.w) && r'.clock >= r.clock
    ensures var r' := After(s, r, v);
            r' == Noted(s, r, v).(w := r'.w, clock := r'.clock) && (TimeOf(StepOf(v)).Some? ==> r'.clock == TimeOf(StepOf(v)).value)
  {
    hide Inv, Next, Noted;
    NextKeeps(s, r.w, StepOf(v));
  }

  lemma AllowedTime(s: Session, r: Record, v: Event)
    requires Allowed(s, r, v) && TimeOf(StepOf(v)).Some?
    ensures TimeOf(StepOf(v)).value >= r.clock && Enabled(s, r.w, StepOf(v))
  {
  }

  /** Nothing the record keeps of campaigns, copies or the craft has changed. */
  predicate SameRecord(r: Record, r': Record) {
    && r'.switches == r.switches && r'.copies == r.copies && r'.anchors == r.anchors && r'.hops == r.hops
    && r'.lastTick == r.lastTick && r'.w.campaigns == r.w.campaigns && r'.w.accepted == r.w.accepted && r'.w.air == r.w.air
    && r'.w.i.template == r.w.i.template && r'.w.i.switchAt == r.w.i.switchAt
  }

  lemma Unchanged(s: Session, r: Record, r': Record)
    requires Kept(s, r) && Inv(s, r'.w) && r'.clock >= r.clock && SameRecord(r, r') && Calmer(r, r')
    ensures Kept(s, r')
  {
    hide Inv, Switches, Covered, Anchors, Hops, Calmer;
    SwitchesFrame(s, r, r');
    CoveredFrame(r, r');
    AnchorsFrame(r, r');
    HopsFrame(r, r');
  }

  /** A copy may have come onto the air; nothing else the record keeps has changed. */
  predicate OneCopy(r: Record, r': Record, p: Packet, stamped: nat) {
    && r'.switches == r.switches && r'.anchors == r.anchors && r'.hops == r.hops && r'.lastTick == r.lastTick
    && r'.copies == r.copies + {Copy(p, stamped)} && r'.w.air == r.w.air + {p}
    && r'.w.campaigns == r.w.campaigns && r'.w.accepted == r.w.accepted && r'.w.f == r.w.f
    && r'.w.i.template == r.w.i.template && r'.w.i.switchAt == r.w.i.switchAt
  }

  lemma CopyAdded(s: Session, r: Record, r': Record, p: Packet, stamped: nat)
    requires Kept(s, r) && Inv(s, r'.w) && r'.clock >= r.clock && OneCopy(r, r', p, stamped)
    requires Punctual(r.switches, Copy(p, stamped))
    ensures Kept(s, r')
  {
    hide Inv, Switches, Covered, Anchors, Hops, Punctual;
    SwitchesFrame(s, r, r');
    assert Copy(p, stamped) in r'.copies;
    CoveredFrame(r, r');
    AnchorsFrame(r, r');
    HopsFrame(r, r');
  }

  lemma LatestFree(s: Session, w: World)
    requires Inv(s, w)
    ensures w.i.nextNonce !in w.campaigns
  {
  }

  lemma StartNew(s: Session, r: Record, m: Move, now: nat)
    requires Kept(s, r) && now >= r.clock && MayStart(s.ground, r.w.i, m, now) && r.w.i.nextNonce !in r.w.campaigns
    ensures var r' := r.(w := StartedWorld(s, r.w, m, now), clock := now, switches := r.switches[r.w.i.nextNonce := now + DT_MS * 1000]);
            Switches(s, r') && Covered(r') && Anchors(r') && Hops(r')
  {
    var r' := r.(w := StartedWorld(s, r.w, m, now), clock := now, switches := r.switches[r.w.i.nextNonce := now + DT_MS * 1000]);
    hide Inv, MayStart, StampMs;
    assert Switches(s, r');
    hide Switches, Anchors, Hops, Covered;
    CoveredFrame(r, r');
    AnchorsFrame(r, r');
    HopsFrame(r, r');
  }

  lemma StartKept(s: Session, r: Record, m: Move, now: nat)
    requires Kept(s, r) && Allowed(s, r, Plain(Start(m, now)))
    ensures Kept(s, After(s, r, Plain(Start(m, now))))
  {
    var v := Plain(Start(m, now));
    hide Inv, Kept, Allowed, MayStart, After, StartedWorld, Started, Switches, Covered, Anchors, Hops;
    Parts(s, r);
    AllowedTime(s, r, v);
    AfterWorld(s, r, v);
    Parts(s, After(s, r, v));
    if MayStart(s.ground, r.w.i, m, now) {
      LatestFree(s, r.w);
      StartNew(s, r, m, now);
    } else {
      NotStarted(s, r.w, m, now);
      Unchanged(s, r, After(s, r, v));
    }
  }

  lemma NotStarted(s: Session, w: World, m: Move, now: nat)
    requires !MayStart(s.ground, w.i, m, now)
    ensures StartedWorld(s, w, m, now) == w
  {
  }

  /** An issuer's tick keeps its campaign, and a copy it sends is punctual. */
  lemma TickStamps(s: Session, r: Record, now: nat)
    requires Inv(s, r.w) && Switches(s, r) && now >= r.clock
    ensures var t := IssuerTicked(s.ground, r.w.i, now);
            && t.i.switchAt == r.w.i.switchAt && t.i.template == r.w.i.template
            && (t.a.SendCopy? ==> Punctual(r.switches, Copy(t.a.p, now)))
            && (t.a.SendBeacon? ==> t.a.p.dtMs == 0)
  {
    hide StampMs, Aired, Follows, Commits;
  }

  lemma IssuerKept(s: Session, r: Record, now: nat)
    requires Kept(s, r) && Allowed(s, r, Plain(IssuerClock(now)))
    ensures Kept(s, After(s, r, Plain(IssuerClock(now))))
  {
    var v := Plain(IssuerClock(now));
    hide Inv, Kept, Allowed, After, IssuerTicked, Punctual, Switches, Covered, Anchors, Hops;
    Parts(s, r);
    AllowedTime(s, r, v);
    AfterWorld(s, r, v);
    TickStamps(s, r, now);
    var t, r' := IssuerTicked(s.ground, r.w.i, now), After(s, r, v);
    if t.a.SendCopy? {
      CopyAdded(s, r, r', t.a.p, now);
    } else {
      if t.a.SendBeacon? { BeaconAdded(s, r, r', t.a.p); } else { Unchanged(s, r, r'); }
    }
  }

  lemma BeaconAdded(s: Session, r: Record, r': Record, p: Packet)
    requires Kept(s, r) && Inv(s, r'.w) && r'.clock >= r.clock && p.dtMs == 0 && r'.w.air == r.w.air + {p}
    requires SameRecord(r, r'.(w := r'.w.(air := r.w.air))) && r'.w.f == r.w.f
    ensures Kept(s, r')
  {
    hide Inv, Switches, Covered, Anchors, Hops;
    SwitchesFrame(s, r, r');
    CoveredFrame(r, r');
    AnchorsFrame(r, r');
    HopsFrame(r, r');
  }

  lemma ReleaseStamps(s: Session, r: Record, p: Packet, now: nat)
    requires Inv(s, r.w) && Switches(s, r) && now >= r.clock && p in r.w.air && MayRestamp(r.w.i, p, now)
    ensures Punctual(r.switches, Copy(Stamped(r.w.i, p, now), now))
  {
    hide StampMs, Follows, Commits, Latest;
    assert r.w.campaigns != map[] by { assert Speaks(s, r.w.campaigns, p); }
  }

  lemma ReleaseKept(s: Session, r: Record, p: Packet, now: nat)
    requires Kept(s, r) && Allowed(s, r, Plain(Release(p, now)))
    ensures Kept(s, After(s, r, Plain(Release(p, now))))
  {
    var v := Plain(Release(p, now));
    hide Inv, Kept, Allowed, After, MayRestamp, Stamped, Punctual, Switches, Covered, Anchors, Hops;
    Parts(s, r);
    AllowedTime(s, r, v);
    AfterWorld(s, r, v);
    var r' := After(s, r, v);
    if MayRestamp(r.w.i, p, now) {
      ReleaseStamps(s, r, p, now);
      CopyAdded(s, r, r', Stamped(r.w.i, p, now), now);
    } else {
      Unchanged(s, r, r');
    }
  }

  lemma CraftSpeaks(s: Session, w: World)
    requires Inv(s, w) && w.f.state == Armed
    ensures w.f.campaign.nonce in w.campaigns && w.f.campaign.chan == w.campaigns[w.f.campaign.nonce]
  {
  }

  /** The craft hops exactly when its instant has come. */
  lemma CraftActs(policy: Policy, f: Follower, now: nat)
    ensures var t := FollowerTicked(policy, f, now);
            && (t.retune.Some? <==> f.state == Armed && now >= f.switchAt)
            && (t.retune.Some? ==> t.retune.value.chan == f.campaign.chan && t.f.state == Verify)
            && (t.f.state == Armed ==> f.state == Armed && t.f == f && now < f.switchAt)
  {
  }

  lemma CraftHops(s: Session, r: Record, r': Record, now: nat)
    requires Anchors(r) && Hops(r) && r.w.f.state == Armed && now >= r.w.f.switchAt && r'.w.f.state != Armed
    requires r.w.f.campaign.nonce in r.w.campaigns && r.w.campaigns[r.w.f.campaign.nonce] == r.w.f.campaign.chan
    requires r'.hops == r.hops[r.w.f.campaign.nonce := Hop(now, r.w.f.campaign.chan, r.lastTick)]
    requires r'.anchors == r.anchors && r'.w.campaigns == r.w.campaigns
    ensures Hops(r')
  {
    hide Anchored;
  }

  lemma CraftKept(s: Session, r: Record, now: nat)
    requires Kept(s, r) && Allowed(s, r, Plain(CraftClock(now)))
    ensures Kept(s, After(s, r, Plain(CraftClock(now))))
  {
    var v := Plain(CraftClock(now));
    hide Inv, Kept, Allowed, After, FollowerTicked, Switches, Covered, Anchors, Hops;
    Parts(s, r);
    AllowedTime(s, r, v);
    AfterWorld(s, r, v);
    var r' := After(s, r, v);
    CraftActs(s.craft, r.w.f, now);
    SwitchesFrame(s, r, r');
    CoveredFrame(r, r');
    AnchorsFrame(r, r');
    if FollowerTicked(s.craft, r.w.f, now).retune.Some? {
      CraftSpeaks(s, r.w);
      CraftHops(s, r, r', now);
    } else {
      HopsFrame(r, r');
    }
    Parts(s, r');
  }

  /** A punctual copy accepted under an honest TSF, or none, anchors the instant. */
  lemma CopyAnchors(switches: map<U32, nat>, c: Copy, aired: nat, now: nat, tsf: Option<Tsf>)
    requires Punctual(switches, c) && c.stamped <= aired <= now && Honest(tsf, aired, now)
    ensures Anchored(switches[c.p.nonce], Anchor(c, aired, now, tsf.Some?, SwitchAt(c.p, now, tsf)))
  {
    StampRounds(switches[c.p.nonce], c.stamped);
    hide StampMs;
  }

  lemma CopyPunctual(s: Session, r: Record, c: Copy)
    requires Switches(s, r) && c in r.copies
    ensures Punctual(r.switches, c)
  {
  }

  /** A campaign accepted: a new anchor, and nothing hopped to yet. */
  lemma AnchorAdded(r: Record, r': Record, c: Copy, a: Anchor)
    requires Anchors(r) && Hops(r) && c in r.copies && c.p.nonce !in r.w.accepted && c.p.nonce in r.switches && a.copy == c
    requires Anchored(r.switches[c.p.nonce], a) && r'.w.f.state == Armed && r'.w.f.campaign == c.p && r'.w.f.switchAt == a.instant
    requires r'.anchors == r.anchors[c.p.nonce := a] && r'.w.accepted == r.w.accepted + {c.p.nonce} && r'.lastTick.None?
    requires r'.copies == r.copies && r'.switches == r.switches && r'.hops == r.hops && r'.w.campaigns == r.w.campaigns
    ensures Anchors(r') && Hops(r')
  {
    hide Anchored;
  }

  lemma HeardInstant(policy: Policy, f: Follower, p: Packet, now: nat, tsf: Option<Tsf>, issuer: Option<U16>)
    ensures var f' := Heard(policy, f, p, now, tsf, issuer);
            f'.switchAt == if Judged(policy, f, p, now, issuer) == Accepted then SwitchAt(p, now, tsf) else f.switchAt
  {
    hide Judged, Counted, SwitchAt;
  }

  lemma ArrivalKept(s: Session, r: Record, v: Event)
    requires Kept(s, r) && Allowed(s, r, v) && v.Arrival?
    ensures Kept(s, After(s, r, v))
  {
    hide Inv, Kept, After, Judged, Heard, Switches, Covered, Anchors, Hops, Punctual, Anchored, SwitchAt, Honest;
    var r', p := After(s, r, v), v.copy.p;
    Parts(s, r);
    AfterWorld(s, r, v);
    HasKey(s, r.w);
    HeardShape(s.craft, r.w.f, p, v.now, v.tsf, v.issuer);
    HeardInstant(s.craft, r.w.f, p, v.now, v.tsf, v.issuer);
    if Judged(s.craft, r.w.f, p, v.now, v.issuer) == Accepted {
      AcceptedFresh(s, r.w, p, v.now, v.tsf, v.issuer);
      CopyPunctual(s, r, v.copy);
      CopyAnchors(r.switches, v.copy, v.aired, v.now, v.tsf);
      PunctualKnown(r.switches, v.copy);
      AnchorAdded(r, r', v.copy, Anchor(v.copy, v.aired, v.now, v.tsf.Some?, SwitchAt(p, v.now, v.tsf)));
      SwitchesFrame(s, r, r');
      CoveredFrame(r, r');
      Parts(s, r');
    } else {
      Unchanged(s, r, r');
    }
  }

  lemma PunctualKnown(switches: map<U32, nat>, c: Copy)
    requires Punctual(switches, c)
    ensures c.p.nonce in switches
  {
  }

  /** Forged packets and beacons are not accepted. */
  lemma OthersRefused(s: Session, r: Record, v: Event)
    requires Inv(s, r.w) && Allowed(s, r, v) && v.Plain? && v.e.ToCraft?
    ensures Judged(s.craft, r.w.f, v.e.p, v.e.now, v.e.issuer) != Accepted
  {
    HasKey(s, r.w);
    hide Inv, Since;
  }

  lemma PlainCalm(s: Session, r: Record, v: Event)
    requires Inv(s, r.w) && Allowed(s, r, v) && v.Plain?
    requires v.e.ToCraft? || v.e.CraftRx? || v.e.RaiseFlag? || v.e.FlagHeard? || v.e.VideoHeard?
    ensures var r' := Noted(s, r, v).(w := Next(s, r.w, v.e)); SameRecord(r, r') && Calmer(r, r')
  {
    hide Inv, Judged, Heard;
    HasKey(s, r.w);
    if v.e.ToCraft? {
      OthersRefused(s, r, v);
      HeardShape(s.craft, r.w.f, v.e.p, v.e.now, v.e.tsf, v.e.issuer);
      HeardInstant(s.craft, r.w.f, v.e.p, v.e.now, v.e.tsf, v.e.issuer);
    }
  }

  lemma PlainKept(s: Session, r: Record, v: Event)
    requires Kept(s, r) && Allowed(s, r, v) && v.Plain?
    requires v.e.ToCraft? || v.e.CraftRx? || v.e.RaiseFlag? || v.e.FlagHeard? || v.e.VideoHeard?
    ensures Kept(s, After(s, r, v))
  {
    hide Inv, Kept, Allowed, After, Noted, Next, Switches, Covered, Anchors, Hops;
    Parts(s, r);
    AfterWorld(s, r, v);
    PlainCalm(s, r, v);
    Unchanged(s, r, After(s, r, v));
  }

  lemma AfterKept(s: Session, r: Record, v: Event)
    requires Kept(s, r) && Allowed(s, r, v)
    ensures Kept(s, After(s, r, v))
  {
    hide Kept, Allowed, After;
    match v {
      case Arrival(_, _, _, _, _) => ArrivalKept(s, r, v);
      case Plain(e) =>
        match e {
          case Start(m, now) => StartKept(s, r, m, now);
          case IssuerClock(now) => IssuerKept(s, r, now);
          case Release(p, now) => ReleaseKept(s, r, p, now);
          case CraftClock(now) => CraftKept(s, r, now);
          case _ => PlainKept(s, r, v);
        }
    }
  }

  // ---- over every run -----------------------------------------------------------------------------------

  ghost predicate Leads(s: Session, r: Record, events: seq<Event>, r': Record)
    decreases |events|
  {
    if events == [] then r == r' else Allowed(s, r, events[0]) && Leads(s, After(s, r, events[0]), events[1..], r')
  }

  lemma {:induction false} LeadsKept(s: Session, r: Record, events: seq<Event>, r': Record)
    requires Kept(s, r) && Leads(s, r, events, r')
    ensures Kept(s, r')
    decreases |events|
  {
    hide Kept, After, Allowed;
    if events != [] {
      AfterKept(s, r, events[0]);
      LeadsKept(s, After(s, r, events[0]), events[1..], r');
    }
  }

  lemma BlankKept(s: Session, craftChan: U16, issuerChan: U16)
    requires s.craft.hasKey
    ensures Kept(s, Blank(s, craftChan, issuerChan))
  {
    BeginInv(s, craftChan, issuerChan);
  }

  function Steps(events: seq<Event>): seq<Step> {
    if events == [] then [] else [StepOf(events[0])] + Steps(events[1..])
  }

  /** The record only watches: its world is a world of the protocol. */
  lemma {:induction false} WorldReached(s: Session, r: Record, events: seq<Event>, r': Record)
    requires Leads(s, r, events, r')
    ensures Reaches(s, r.w, Steps(events), r'.w)
    decreases |events|
  {
    hide Enabled, Next, Noted;
    if events != [] { WorldReached(s, After(s, r, events[0]), events[1..], r'); }
  }

  /** And it watches everything: whatever sealed packet can reach the craft is a beacon or a copy with a stamp on record. */
  lemma CopiesOnRecord(s: Session, craftChan: U16, issuerChan: U16, events: seq<Event>, r: Record, p: Packet)
    requires s.craft.hasKey && Leads(s, Blank(s, craftChan, issuerChan), events, r) && p in r.w.air && p.dtMs != 0
    ensures exists c :: c in r.copies && c.p == p
  {
    BlankKept(s, craftChan, issuerChan);
    LeadsKept(s, Blank(s, craftChan, issuerChan), events, r);
    hide Leads, Blank, Inv, Switches, Anchors, Hops;
  }

  /**
   * In every run with an honest TSF, or none: whichever original or re-stamped copy of a campaign the craft accepted, the
   * instant it derived, less the delay from stamp to reference, lies in the last millisecond up to the switch time. A copy
   * looked at past its own window is taken as just aired, so it puts the switch late by the time from airing to hearing.
   */
  lemma AcceptedInstants(s: Session, craftChan: U16, issuerChan: U16, events: seq<Event>, r: Record, n: U32)
    requires s.craft.hasKey && Leads(s, Blank(s, craftChan, issuerChan), events, r) && n in r.w.accepted
    ensures n in r.anchors && n in r.switches && r.anchors[n].copy in r.copies && r.anchors[n].copy.p.nonce == n
    ensures var a, switchTime := r.anchors[n], r.switches[n];
            && a.copy.stamped <= a.aired <= a.heard
            && (if a.timed && a.heard - a.aired <= a.copy.p.dtMs * 1000
                then switchTime - 1000 < a.instant - (a.aired - a.copy.stamped) <= switchTime
                else switchTime - 1000 < a.instant - (a.heard - a.copy.stamped) <= switchTime)
            && (a.timed && a.heard - a.aired > a.copy.p.dtMs * 1000 ==> a.instant - (a.aired - a.copy.stamped) > switchTime)
  {
    BlankKept(s, craftChan, issuerChan);
    LeadsKept(s, Blank(s, craftChan, issuerChan), events, r);
    hide Leads, Blank, Inv, Switches, Covered, Hops;
  }

  /** And it retunes at its first tick from that instant on, to the campaign's channel. */
  lemma HopsOnTime(s: Session, craftChan: U16, issuerChan: U16, events: seq<Event>, r: Record, n: U32)
    requires s.craft.hasKey && Leads(s, Blank(s, craftChan, issuerChan), events, r) && n in r.hops
    ensures n in r.w.accepted && n in r.anchors && n in r.w.campaigns && r.hops[n].chan == r.w.campaigns[n]
    ensures r.hops[n].at >= r.anchors[n].instant && (r.hops[n].before.Some? ==> r.hops[n].before.value < r.anchors[n].instant)
  {
    BlankKept(s, craftChan, issuerChan);
    LeadsKept(s, Blank(s, craftChan, issuerChan), events, r);
    hide Leads, Blank, Inv, Switches, Covered, Anchored;
  }

  /** No tick passes the instant by: an armed craft hops at a tick exactly when the instant has come. */
  lemma ArmedHops(s: Session, craftChan: U16, issuerChan: U16, events: seq<Event>, r: Record, now: nat)
    requires s.craft.hasKey && Leads(s, Blank(s, craftChan, issuerChan), events, r) && r.w.f.state == Armed
    ensures var n, r' := r.w.f.campaign.nonce, After(s, r, Plain(CraftClock(now)));
            n in r.anchors && (n in r'.hops <==> now >= r.anchors[n].instant) && (n in r'.hops ==> r'.hops[n].at == now)
  {
    BlankKept(s, craftChan, issuerChan);
    LeadsKept(s, Blank(s, craftChan, issuerChan), events, r);
    CraftActs(s.craft, r.w.f, now);
    hide Leads, Blank, Inv, Switches, Covered, Anchored, FollowerTicked;
  }

  // ---- a copy looked at too late -----------------------------------------------------------------------

  /** Key and one channel on both sides. */
  const OPEN_POLICY := Policy(true, false, 0, 100, 0, 0, {36})

  const ONE_SESSION := Session(OPEN_POLICY, OPEN_POLICY, 1, 7, 1)

  const ONE_MOVE := Move(1, 7, 36, 0, 0, 40, 0, 0)

  /** The first copy of the campaign to channel 36, stamped at time 0 with five seconds to go. */
  const FIRST_COPY := Packet(1, 7, 1, 5, 36, 0, 0, 5000, 100, 40, 0, 0, true)

  const STARTED := Plain(Start(ONE_MOVE, 0))

  const SENT := Plain(IssuerClock(0))

  /** It is aired at once, and the craft gets to it a microsecond past its window. */
  const LOOKED_AT := Arrival(Copy(FIRST_COPY, 0), 0, 5_000_001, Some(Tsf(5_000_001, 0)), None)

  function LateStarted(): Record {
    After(ONE_SESSION, Blank(ONE_SESSION, 40, 40), STARTED)
  }

  function LateSent(): Record {
    After(ONE_SESSION, LateStarted(), SENT)
  }

  function LateHeard(): Record {
    After(ONE_SESSION, LateSent(), LOOKED_AT)
  }

  lemma LateStart()
    ensures Allowed(ONE_SESSION, Blank(ONE_SESSION, 40, 40), STARTED)
    ensures var r := LateStarted();
            && r.switches == map[1 := 5_000_000] && r.copies == {} && r.w.f == NEW_FOLLOWER && r.w.air == {} && r.clock == 0
            && r.w.i.state == Announce && r.w.i.switchAt == 5_000_000 && r.w.i.nextCopyUs == 0 && r.w.i.copiesLeft == 5
            && r.w.i.template == FIRST_COPY.(seqNo := 0, dtMs := 0, sealed := false)
  {
    hide Since;
  }

  lemma FirstTick(i: Issuer)
    requires i.state == Announce && i.switchAt == 5_000_000 && i.nextCopyUs == 0 && i.copiesLeft == 5
    requires i.template == FIRST_COPY.(seqNo := 0, dtMs := 0, sealed := false)
    ensures IssuerTicked(OPEN_POLICY, i, 0).a == SendCopy(FIRST_COPY)
  {
    assert StampMs(5_000_000, 0) == 5000;
    hide StampMs;
  }

  /** A tick of the issuer that sends a copy. */
  lemma CopySent(s: Session, r: Record, now: nat, p: Packet)
    requires IssuerTicked(s.ground, r.w.i, now).a == SendCopy(p) && now >= r.clock
    ensures Allowed(s, r, Plain(IssuerClock(now)))
    ensures var r' := After(s, r, Plain(IssuerClock(now)));
            && r'.switches == r.switches && r'.copies == r.copies + {Copy(p, now)} && r'.w.f == r.w.f
            && r'.w.air == r.w.air + {p} && r'.clock == now
  {
    hide IssuerTicked;
  }

  lemma LateSend()
    ensures Allowed(ONE_SESSION, LateStarted(), SENT)
    ensures var r := LateSent();
            && r.switches == map[1 := 5_000_000] && r.copies == {Copy(FIRST_COPY, 0)} && r.w.f == NEW_FOLLOWER
            && r.w.air == {FIRST_COPY} && r.clock == 0
  {
    hide *;
    LateRecords();
    LateStart();
    FirstTick(LateStarted().w.i);
    CopySent(ONE_SESSION, LateStarted(), 0, FIRST_COPY);
  }

  lemma LateHear()
    ensures Allowed(ONE_SESSION, LateSent(), LOOKED_AT)
    ensures var r := LateHeard(); r.switches == map[1 := 5_000_000] && 1 in r.anchors && r.anchors[1].instant == 10_000_001
  {
    LateSend();
    hide LateSent;
  }

  lemma LeadsOne(s: Session, r: Record, v: Event, events: seq<Event>, r': Record)
    requires Allowed(s, r, v) && Leads(s, After(s, r, v), events, r')
    ensures Leads(s, r, [v] + events, r')
  {
    hide Allowed, After;
    assert ([v] + events)[1..] == events;
  }

  lemma LeadsNowhere(s: Session, r: Record)
    ensures Leads(s, r, [], r)
  {
  }

  /** A run in which the switch is announced for second 5 and the craft plans it for second 10. */
  lemma LateLookMissesSwitch()
    ensures Leads(ONE_SESSION, Blank(ONE_SESSION, 40, 40), [STARTED, SENT, LOOKED_AT], LateHeard())
    ensures var r := LateHeard(); 1 in r.switches && r.switches[1] == 5_000_000 && 1 in r.anchors && r.anchors[1].instant == 10_000_001
  {
    hide *;
    LateRecords();
    LateStart();
    LateSend();
    LateHear();
    LeadsNowhere(ONE_SESSION, LateHeard());
    LeadsOne(ONE_SESSION, LateSent(), LOOKED_AT, [], LateHeard());
    LeadsOne(ONE_SESSION, LateStarted(), SENT, [LOOKED_AT] + [], LateHeard());
    LeadsOne(ONE_SESSION, Blank(ONE_SESSION, 40, 40), STARTED, [SENT] + ([LOOKED_AT] + []), LateHeard());
    assert [STARTED, SENT, LOOKED_AT] == [STARTED] + ([SENT] + ([LOOKED_AT] + []));
  }

  lemma LateRecords()
    ensures LateStarted() == After(ONE_SESSION, Blank(ONE_SESSION, 40, 40), STARTED)
    ensures LateSent() == After(ONE_SESSION, LateStarted(), SENT) && LateHeard() == After(ONE_SESSION, LateSent(), LOOKED_AT)
    ensures SENT == Plain(IssuerClock(0)) && ONE_SESSION.ground == OPEN_POLICY
  {
  }
}
