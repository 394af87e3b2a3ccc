/** The follow-me channel switch: the follower that anchors the switch instant, the issuer that announces it. */
module Csa {
  import opened Bytes

  /** A CSA packet; sealed says its MAC field is the keyed MAC of everything else in it. */
  datatype Packet = Packet(originator: U16, session: U32, nonce: U32, seqNo: Byte, chan: U16, bw: Byte, kind: Byte, dtMs: U16,
                           revertMs: U16, prevChan: U16, prevBw: Byte, power: Byte, sealed: bool)

  datatype Policy = Policy(hasKey: bool, allowUnauthenticated: bool, settleMs: U32, verifyMs: U32, minIntervalMs: U32,
                           bindReleaseMs: U32, allowlist: set<U16>)

  const NO_PACKET := Packet(0, 0, 0, 0, 0, 0, 0, 0, 0, 0, 0, 0, false)

  // ---- follower ---------------------------------------------------------------------------------

  datatype FollowerState = Idle | Armed | Verify | Committed

  datatype Refusals = Refusals(noKey: nat, badMac: nat, issuerLock: nat, nonceReplay: nat, notAllowed: nat, rateLimited: nat,
                               beacon: nat, accepted: nat)

  type Key = (U16, U32)

  datatype Follower = Follower(state: FollowerState, latched: Option<U16>, applied: map<Key, U32>, lastAcceptUs: nat,
                               campaign: Packet, switchAt: nat, verifyDeadline: nat, freezeUntil: nat, lastBoundRx: nat,
                               refusals: Refusals)

  const NEW_FOLLOWER := Follower(Idle, None, map[], 0, NO_PACKET, 0, 0, 0, 0, Refusals(0, 0, 0, 0, 0, 0, 0, 0))

  /** A TSF read of the receiving adapter and the copy's receive stamp, in the hardware's clock. */
  datatype Tsf = Tsf(now: nat, received: U32)

  datatype Verdict = NoKey | BadMac | IssuerLock | Beacon | NonceReplay | NotAllowed | RateLimited | Accepted

  function Judged(policy: Policy, f: Follower, p: Packet, now: nat, issuer: Option<U16>): Verdict {
    var lock := if issuer.Some? then issuer else f.latched;
    if !policy.hasKey && !policy.allowUnauthenticated then NoKey
    else if policy.hasKey && !p.sealed then BadMac
    else if lock.Some? && lock.value != p.originator then IssuerLock
    else if p.dtMs == 0 then Beacon
    else if (p.originator, p.session) in f.applied && p.nonce <= f.applied[(p.originator, p.session)] then NonceReplay
    else if p.chan !in policy.allowlist then NotAllowed
    else if f.lastAcceptUs != 0 && Since(now, f.lastAcceptUs) < policy.minIntervalMs * 1000 then RateLimited
    else Accepted
  }

  function Counted(r: Refusals, v: Verdict): Refusals {
    match v
    case NoKey => r.(noKey := r.noKey + 1)
    case BadMac => r.(badMac := r.badMac + 1)
    case IssuerLock => r.(issuerLock := r.issuerLock + 1)
    case Beacon => r.(beacon := r.beacon + 1)
    case NonceReplay => r.(nonceReplay := r.nonceReplay + 1)
    case NotAllowed => r.(notAllowed := r.notAllowed + 1)
    case RateLimited => r.(rateLimited := r.rateLimited + 1)
    case Accepted => r.(accepted := r.accepted + 1)
  }

  /** Time since the copy left the air; a value beyond the copy's own window is garbage. */
  function Elapsed(tsf: Option<Tsf>, dtUs: nat): nat {
    if tsf.None? then 0
    else
      var e := (tsf.value.now - tsf.value.received) % 0x1_0000_0000;
      if e > dtUs then 0 else e
  }

  function SwitchAt(p: Packet, now: nat, tsf: Option<Tsf>): nat {
    now + p.dtMs * 1000 - Elapsed(tsf, p.dtMs * 1000)
  }

  function Heard(policy: Policy, f: Follower, p: Packet, now: nat, tsf: Option<Tsf>, issuer: Option<U16>): Follower {
    var v := Judged(policy, f, p, now, issuer);
    var c := f.(refusals := Counted(f.refusals, v));
    match v
    case Accepted =>
      c.(applied := f.applied[(p.originator, p.session) := p.nonce], lastAcceptUs := now, latched := Some(p.originator),
         lastBoundRx := now, campaign := p, switchAt := SwitchAt(p, now, tsf), freezeUntil := now + policy.settleMs * 1000,
         state := Armed)
    case Beacon =>
      if f.state == Verify && p.originator == f.campaign.originator && p.session == f.campaign.session
         && p.nonce == f.campaign.nonce
      then c.(state := Committed, lastBoundRx := now)
      else c
    case NoKey => c
    case BadMac => c
    case IssuerLock => c
    case NonceReplay => c
    case NotAllowed => c
    case RateLimited => c
  }

  function RxNoted(f: Follower, now: nat, from: U16): Follower {
    f.(state := if f.state == Verify then Committed else f.state,
       lastBoundRx := if f.latched == Some(from) then now else f.lastBoundRx)
  }

  /** A retune the caller must carry out. */
  datatype Retune = Retune(chan: U16, bw: Byte, fast: bool, power: Byte)

  datatype FollowerTick = FollowerTick(f: Follower, retune: Option<Retune>)

  function RetuneOf(p: Packet): Retune {
    Retune(p.chan, p.bw, p.kind == 0, p.power)
  }

  /** The issuer may shorten the verify window, never lengthen it. */
  function VerifyWindow(policy: Policy, p: Packet): nat {
    if p.revertMs != 0 && p.revertMs < policy.verifyMs then p.revertMs else policy.verifyMs
  }

  function FollowerTicked(policy: Policy, f: Follower, now: nat): FollowerTick {
    match f.state
    case Armed =>
      if now >= f.switchAt then FollowerTick(f.(verifyDeadline := 0, state := Verify), Some(RetuneOf(f.campaign)))
      else FollowerTick(f, None)
    case Verify =>
      var deadline := if f.verifyDeadline == 0 then now + VerifyWindow(policy, f.campaign) * 1000 else f.verifyDeadline;
      FollowerTick(f.(verifyDeadline := deadline, state := if now >= deadline then Committed else Verify), None)
    case Committed =>
      if f.latched.Some? && now >= f.lastBoundRx && now - f.lastBoundRx > policy.bindReleaseMs * 1000
      then FollowerTick(f.(latched := None), None)
      else FollowerTick(f, None)
    case Idle => FollowerTick(f, None)
  }

  /** The follower's fields are kept together in one record, f. */
  class CsaFollower {
    const policy: Policy
    var f: Follower

    constructor (policy: Policy)
      ensures this.policy == policy && f == NEW_FOLLOWER
    {
      this.policy, f := policy, NEW_FOLLOWER;
    }

    /** True exactly for the first copy of a campaign it follows. */
    method OnCsa(p: Packet, now: nat, tsf: Option<Tsf>, issuer: Option<U16>) returns (accepted: bool)
      modifies this
      ensures f == Heard(policy, old(f), p, now, tsf, issuer)
      ensures accepted <==> Judged(policy, old(f), p, now, issuer) == Accepted
    {
      hide Since;
      var r := f.refusals;
      if !policy.hasKey {
        if !policy.allowUnauthenticated {
          f := f.(refusals := r.(noKey := r.noKey + 1));
          return false;
        }
      } else if !p.sealed {
        f := f.(refusals := r.(badMac := r.badMac + 1));
        return false;
      }
      var lock := if issuer.Some? then issuer else f.latched;
      if lock.Some? && lock.value != p.originator {
        f := f.(refusals := r.(issuerLock := r.issuerLock + 1));
        return false;
      }
      if p.dtMs == 0 {
        f := f.(refusals := r.(beacon := r.beacon + 1));
        if f.state == Verify && p.originator == f.campaign.originator && p.session == f.campaign.session
           && p.nonce == f.campaign.nonce {
          f := f.(state := Committed, lastBoundRx := now);
        }
        return false;
      }
      var key := (p.originator, p.session);
      if key in f.applied && p.nonce <= f.applied[key] {
        f := f.(refusals := r.(nonceReplay := r.nonceReplay + 1));
        return false;
      }
      if p.chan !in policy.allowlist {
        f := f.(refusals := r.(notAllowed := r.notAllowed + 1));
        return false;
      }
      if f.lastAcceptUs != 0 && Since(now, f.lastAcceptUs) < policy.minIntervalMs * 1000 {
        f := f.(refusals := r.(rateLimited := r.rateLimited + 1));
        return false;
      }
      f := f.(refusals := r.(accepted := r.accepted + 1), applied := f.applied[key := p.nonce], lastAcceptUs := now,
              latched := Some(p.originator), lastBoundRx := now, campaign := p);
      var dtUs := p.dtMs * 1000;
      var elapsed := 0;
      if tsf.Some? {
        elapsed := (tsf.value.now - tsf.value.received) % 0x1_0000_0000;
        if elapsed > dtUs {
          elapsed := 0;
        }
      }
      f := f.(switchAt := now + (if dtUs > elapsed then dtUs - elapsed else 0), freezeUntil := now + policy.settleMs * 1000,
              state := Armed);
      return true;
    }

    method NoteValidRx(now: nat, from: U16)
      modifies this
      ensures f == RxNoted(old(f), now, from)
    {
      if f.state == Verify {
        f := f.(state := Committed);
      }
      if f.latched.Some? && from == f.latched.value {
        f := f.(lastBoundRx := now);
      }
    }

    method Tick(now: nat) returns (retune: Option<Retune>)
      modifies this
      ensures FollowerTick(f, retune) == FollowerTicked(policy, old(f), now)
    {
      retune := None;
      match f.state {
        case Armed =>
          if now >= f.switchAt {
            retune := Some(Retune(f.campaign.chan, f.campaign.bw, f.campaign.kind == 0, f.campaign.power));
            f := f.(verifyDeadline := 0, state := Verify);
          }
        case Verify =>
          if f.verifyDeadline == 0 {
            var window: nat := if f.campaign.revertMs != 0 then f.campaign.revertMs else policy.verifyMs;
            window := if window < policy.verifyMs then window else policy.verifyMs;
            f := f.(verifyDeadline := now + window * 1000);
          }
          if now >= f.verifyDeadline {
            f := f.(state := Committed);
          }
        case Committed =>
          if f.latched.Some? && now >= f.lastBoundRx && now - f.lastBoundRx > policy.bindReleaseMs * 1000 {
            f := f.(latched := None);
          }
        case Idle =>
      }
    }
  }

  // ---- issuer -----------------------------------------------------------------------------------

  const DT_MS := 5000
  const COPIES: Byte := 5
  const SPACING_US := 20000
  const CUTOFF_US := 50000

  datatype IssuerState = Quiet | Announce | AwaitAck | Verifying

  datatype Issuer = Issuer(state: IssuerState, nextNonce: U32, lastCampaignUs: nat, template: Packet, copiesLeft: Byte,
                           nextCopyUs: nat, switchAt: nat, verifyDeadline: nat, nextBeaconUs: nat,
                           armedSeen: bool, videoSeen: bool, landingSeen: bool)

  const NEW_ISSUER := Issuer(Quiet, 1, 0, NO_PACKET, 0, 0, 0, 0, 0, false, false, false)

  /** Where and how a campaign wants to go. */
  datatype Move = Move(originator: U16, session: U32, chan: U16, bw: Byte, kind: Byte, prevChan: U16, prevBw: Byte, power: Byte)

  predicate MayStart(policy: Policy, i: Issuer, m: Move, now: nat) {
    && i.state == Quiet && policy.hasKey && m.chan in policy.allowlist
    && !(i.lastCampaignUs != 0 && Since(now, i.lastCampaignUs) < policy.minIntervalMs * 1000)
  }

  function Started(policy: Policy, i: Issuer, m: Move, now: nat): Issuer {
    if !MayStart(policy, i, m, now) then i
    else
      var p := Packet(m.originator, m.session, i.nextNonce, 0, m.chan, m.bw, m.kind, 0, policy.verifyMs % 0x1_0000, m.prevChan,
                      m.prevBw, m.power, false);
      i.(state := Announce, nextNonce := (i.nextNonce + 1) % 0x1_0000_0000, lastCampaignUs := now, template := p,
         copiesLeft := COPIES, nextCopyUs := now, switchAt := now + DT_MS * 1000, armedSeen := false, videoSeen := false,
         landingSeen := false)
  }

  /** The copy's own time to the switch, never zero: zero marks a beacon. */
  function StampMs(switchAt: nat, now: nat): U16 {
    var left := if switchAt > now then switchAt - now else 1000;
    (if left / 1000 == 0 then 1 else left / 1000) % 0x1_0000
  }

  function Stamped(i: Issuer, p: Packet, now: nat): Packet {
    p.(dtMs := StampMs(i.switchAt, now), sealed := true)
  }

  predicate MayRestamp(i: Issuer, p: Packet, now: nat) {
    i.switchAt > now + CUTOFF_US && i.state != Quiet && p.nonce == i.template.nonce
  }

  function ArmedNoted(i: Issuer): Issuer {
    if i.state == Announce || i.state == AwaitAck then i.(armedSeen := true) else i
  }

  /** An armed frame is the craft's landing and moves the deadline once; a cleared one is its commit. */
  function VideoNoted(policy: Policy, i: Issuer, now: nat, armed: bool): Issuer {
    if i.state != Verifying || now < i.switchAt then i
    else if !armed then i.(videoSeen := true)
    else if i.landingSeen then i
    else i.(landingSeen := true, verifyDeadline := now + policy.verifyMs * 1000)
  }

  datatype Action = Nothing | SendCopy(p: Packet) | Commit(to: Retune) | SendBeacon(p: Packet) | Success(unconfirmed: Option<Retune>) | Abort

  datatype IssuerTick = IssuerTick(i: Issuer, a: Action)

  function AnnounceTicked(i: Issuer, now: nat): IssuerTick {
    if i.switchAt <= now + CUTOFF_US then IssuerTick(i.(state := AwaitAck), Nothing)
    else if now < i.nextCopyUs then IssuerTick(i, Nothing)
    else
      var left: Byte := (i.copiesLeft - 1) % 256;
      IssuerTick(i.(nextCopyUs := now + SPACING_US, copiesLeft := left, state := if left == 0 then AwaitAck else Announce),
                 SendCopy(Stamped(i, i.template.(seqNo := i.copiesLeft), now)))
  }

  function AwaitTicked(i: Issuer, now: nat): IssuerTick {
    if !i.armedSeen && i.switchAt > now + CUTOFF_US && now >= i.nextCopyUs then
      IssuerTick(i.(nextCopyUs := now + SPACING_US), SendCopy(Stamped(i, i.template.(seqNo := 0), now)))
    else if i.armedSeen then IssuerTick(i.(verifyDeadline := 0, state := Verifying), Commit(RetuneOf(i.template)))
    else if now >= i.switchAt then IssuerTick(i.(state := Quiet), Abort)
    else IssuerTick(i, Nothing)
  }

  function VerifyTicked(policy: Policy, i: Issuer, now: nat): IssuerTick {
    var running :=
      if i.verifyDeadline == 0
      then i.(verifyDeadline := (if now > i.switchAt then now else i.switchAt) + policy.verifyMs * 1000, nextBeaconUs := now)
      else i;
    if now >= running.verifyDeadline then
      IssuerTick(running.(state := Quiet), Success(if running.videoSeen then None else Some(RetuneOf(running.template))))
    else if now >= running.nextBeaconUs then
      IssuerTick(running.(nextBeaconUs := now + SPACING_US), SendBeacon(running.template.(seqNo := 0, dtMs := 0, sealed := true)))
    else IssuerTick(running, Nothing)
  }

  function IssuerTicked(policy: Policy, i: Issuer, now: nat): IssuerTick {
    match i.state
    case Announce => AnnounceTicked(i, now)
    case AwaitAck => AwaitTicked(i, now)
    case Verifying => VerifyTicked(policy, i, now)
    case Quiet => IssuerTick(i, Nothing)
  }

  /** The issuer's fields are kept together in one record, i. */
  class CsaIssuer {
    const policy: Policy
    var i: Issuer

    constructor (policy: Policy)
      ensures this.policy == policy && i == NEW_ISSUER
    {
      this.policy, i := policy, NEW_ISSUER;
    }

    method Start(m: Move, now: nat) returns (ok: bool)
      modifies this
      ensures i == Started(policy, old(i), m, now) && (ok <==> MayStart(policy, old(i), m, now))
    {
      if i.state != Quiet || !policy.hasKey || m.chan !in policy.allowlist {
        return false;
      }
      if i.lastCampaignUs != 0 && Since(now, i.lastCampaignUs) < policy.minIntervalMs * 1000 {
        return false;
      }
      i := i.(lastCampaignUs := now,
              template := Packet(m.originator, m.session, i.nextNonce, 0, m.chan, m.bw, m.kind, 0, policy.verifyMs % 0x1_0000,
                                 m.prevChan, m.prevBw, m.power, false));
      i := i.(nextNonce := (i.nextNonce + 1) % 0x1_0000_0000);
      i := i.(switchAt := now + DT_MS * 1000, copiesLeft := COPIES, nextCopyUs := now);
      i := i.(armedSeen := false, videoSeen := false, landingSeen := false, state := Announce);
      return true;
    }

    method NoteCraftArmed()
      modifies this
      ensures i == ArmedNoted(old(i))
    {
      if i.state == Announce || i.state == AwaitAck {
        i := i.(armedSeen := true);
      }
    }

    method NoteCraftVideo(now: nat, armed: bool)
      modifies this
      ensures i == VideoNoted(policy, old(i), now, armed)
    {
      if armed {
        if i.state == Verifying && now >= i.switchAt && !i.landingSeen {
          i := i.(landingSeen := true, verifyDeadline := now + policy.verifyMs * 1000);
        }
        return;
      }
      if i.state == Verifying && now >= i.switchAt {
        i := i.(videoSeen := true);
      }
    }

    /** A copy held back is stamped anew, or dropped when its time or its campaign is past. */
    method RestampCopy(p: Packet, now: nat) returns (copy: Option<Packet>)
      ensures copy == if MayRestamp(i, p, now) then Some(Stamped(i, p, now)) else None
    {
      if i.switchAt <= now + CUTOFF_US {
        return None;
      }
      if i.state == Quiet || p.nonce != i.template.nonce {
        return None;
      }
      return Some(Stamped(i, p, now));
    }

    method TickAnnounce(now: nat) returns (a: Action)
      requires i.state == Announce
      modifies this
      ensures IssuerTick(i, a) == AnnounceTicked(old(i), now)
    {
      hide Stamped;
      a := Nothing;
      if now >= i.nextCopyUs && i.switchAt > now + CUTOFF_US {
        a := SendCopy(Stamped(i, i.template.(seqNo := i.copiesLeft), now));
        i := i.(nextCopyUs := now + SPACING_US, copiesLeft := (i.copiesLeft - 1) % 256);
        if i.copiesLeft == 0 {
          i := i.(state := AwaitAck);
        }
      }
      if i.state == Announce && i.switchAt <= now + CUTOFF_US {
        i := i.(state := AwaitAck);
      }
    }

    method TickAwait(now: nat) returns (a: Action)
      modifies this
      ensures IssuerTick(i, a) == AwaitTicked(old(i), now)
    {
      hide Stamped;
      a := Nothing;
      if !i.armedSeen && i.switchAt > now + CUTOFF_US && now >= i.nextCopyUs {
        a := SendCopy(Stamped(i, i.template.(seqNo := 0), now));
        i := i.(nextCopyUs := now + SPACING_US);
      } else if i.armedSeen {
        a := Commit(RetuneOf(i.template));
        i := i.(verifyDeadline := 0, state := Verifying);
      } else if now >= i.switchAt {
        a := Abort;
        i := i.(state := Quiet);
      }
    }

    method TickVerify(now: nat) returns (a: Action)
      modifies this
      ensures IssuerTick(i, a) == VerifyTicked(policy, old(i), now)
    {
      a := Nothing;
      if i.verifyDeadline == 0 {
        i := i.(verifyDeadline := (if now > i.switchAt then now else i.switchAt) + policy.verifyMs * 1000, nextBeaconUs := now);
      }
      if now >= i.verifyDeadline {
        a := Success(if i.videoSeen then None else Some(RetuneOf(i.template)));
        i := i.(state := Quiet);
      } else if now >= i.nextBeaconUs {
        a := SendBeacon(i.template.(seqNo := 0, dtMs := 0, sealed := true));
        i := i.(nextBeaconUs := now + SPACING_US);
      }
    }

    method Tick(now: nat) returns (a: Action)
      modifies this
      ensures IssuerTick(i, a) == IssuerTicked(policy, old(i), now)
    {
      match i.state {
        case Announce => a := TickAnnounce(now);
        case AwaitAck => a := TickAwait(now);
        case Verifying => a := TickVerify(now);
        case Quiet => a := Nothing;
      }
    }
  }
}
