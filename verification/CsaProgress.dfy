/** That a channel switch gets going: copies go out, a fresh copy arms the craft, a beacon settles it. */
module CsaProgress {
  import opened Bytes
  import opened Csa
  import opened CsaProtocol
  import opened CsaTogether

  /** A due tick of an announcing issuer well before the switch sends a sealed copy of its campaign with the time left on it. */
  lemma CopySent(s: Session, w: World, now: nat)
    requires Inv(s, w) && w.i.state == Announce && now >= w.i.nextCopyUs && now + CUTOFF_US < w.i.switchAt <= now + 65_000_000
    ensures var t := IssuerTicked(s.ground, w.i, now);
            && t.a.SendCopy? && t.a.p in Next(s, w, IssuerClock(now)).air && t.a.p.sealed && t.a.p.nonce == w.i.template.nonce
            && t.a.p.chan == w.i.template.chan && t.a.p.originator == s.originator && t.a.p.session == s.session
            && t.a.p.dtMs * 1000 <= w.i.switchAt - now < t.a.p.dtMs * 1000 + 1000 && t.a.p.dtMs >= 50
  {
    assert w.campaigns != map[];
    StampRounds(w.i.switchAt, now);
  }

  /** A copy of the campaign in flight that the craft has not taken is taken, from the bound issuer, to an allowed channel, in time. */
  lemma CopyArms(s: Session, w: World, p: Packet, now: nat, tsf: Option<Tsf>)
    requires Inv(s, w) && p in w.air && p.sealed && p.nonce == w.i.template.nonce && p.nonce !in w.accepted && p.dtMs != 0
    requires w.campaigns[p.nonce] in s.craft.allowlist
    requires w.f.lastAcceptUs == 0 || Since(now, w.f.lastAcceptUs) >= s.craft.minIntervalMs * 1000
    ensures var w' := Next(s, w, ToCraft(p, now, tsf, Some(s.originator)));
            && Judged(s.craft, w.f, p, now, Some(s.originator)) == Accepted
            && w'.f.state == Armed && w'.f.campaign == p && p.nonce in w'.accepted && Enabled(s, w', RaiseFlag)
            && Enabled(s, Next(s, w', RaiseFlag), FlagHeard(p.nonce))
  {
    HasKey(s, w);
    NewerThanAll(s, w, p);
    HeardShape(s.craft, w.f, p, now, tsf, Some(s.originator));
    hide Heard;
  }

  lemma NewerThanAll(s: Session, w: World, p: Packet)
    requires Inv(s, w) && p in w.air && p.nonce == w.i.template.nonce && p.nonce !in w.accepted
    ensures (p.originator, p.session) == (s.originator, s.session) && p.nonce in w.campaigns && p.chan == w.campaigns[p.nonce]
    ensures (p.originator, p.session) in w.f.applied ==> p.nonce > w.f.applied[(p.originator, p.session)]
  {
    assert Speaks(s, w.campaigns, p);
  }

  /** While the issuer verifies, a due tick before the close sends a beacon; heard by the craft still verifying, it commits. */
  lemma BeaconCommits(s: Session, w: World, now: nat, at: nat, tsf: Option<Tsf>)
    requires Inv(s, w) && w.i.state == Verifying && s.ground.verifyMs > 0 && Chosen(w, w.i.template.nonce) && w.f.state == Verify
    requires w.i.verifyDeadline == 0 || (now < w.i.verifyDeadline && now >= w.i.nextBeaconUs)
    ensures var p := w.i.template.(seqNo := 0, dtMs := 0, sealed := true);
            var w1 := Next(s, w, IssuerClock(now));
            && p in w1.air && Enabled(s, w1, ToCraft(p, at, tsf, Some(s.originator)))
            && Next(s, w1, ToCraft(p, at, tsf, Some(s.originator))).f.state == Committed
  {
    HasKey(s, w);
    ChosenFollowed(s, w, w.i.template.nonce);
    assert Speaks(s, w.campaigns, w.f.campaign) && Speaks(s, w.campaigns, w.i.template);
    var p := w.i.template.(seqNo := 0, dtMs := 0, sealed := true);
    assert IssuerTicked(s.ground, w.i, now).a == SendBeacon(p);
    assert Judged(s.craft, w.f, p, at, Some(s.originator)) == Beacon;
    hide Judged, Inv;
  }
}
