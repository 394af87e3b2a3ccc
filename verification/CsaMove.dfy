/** Both ends of a channel switch go where and how its start said: channel, width, class and power. */
module CsaMove {
  import opened Bytes
  import opened Csa
  import opened CsaProtocol

  /** The moves started so far, by nonce. */
  function Noted(s: Session, w: World, moves: map<U32, Move>, e: Step): map<U32, Move> {
    if e.Start? && MayStart(s.ground, w.i, e.m, e.now) then moves[w.i.nextNonce := e.m] else moves
  }

  function MovesOf(s: Session, w: World, moves: map<U32, Move>, steps: seq<Step>): map<U32, Move>
    decreases |steps|
  {
    if steps == [] then moves else MovesOf(s, Next(s, w, steps[0]), Noted(s, w, moves, steps[0]), steps[1..])
  }

  /** The packet says what the move of its campaign says. */
  predicate Carries(moves: map<U32, Move>, p: Packet) {
    p.nonce in moves
    && var m := moves[p.nonce];
       p.chan == m.chan && p.bw == m.bw && p.kind == m.kind && p.power == m.power && p.prevChan == m.prevChan && p.prevBw == m.prevBw
  }

  ghost predicate Carried(w: World, moves: map<U32, Move>) {
    && moves.Keys == w.campaigns.Keys
    && (forall p :: p in w.air ==> Carries(moves, p))
    && (w.campaigns != map[] ==> Carries(moves, w.i.template))
    && (w.accepted != {} ==> Carries(moves, w.f.campaign))
  }

  lemma StillCarries(s: Session, w: World, moves: map<U32, Move>, e: Step, p: Packet)
    requires Inv(s, w) && Enabled(s, w, e) && Carries(moves, p) && moves.Keys == w.campaigns.Keys
    ensures Carries(Noted(s, w, moves, e), p)
  {
    assert p.nonce in w.campaigns;
  }

  lemma StartCarried(s: Session, w: World, moves: map<U32, Move>, e: Step)
    requires Inv(s, w) && Enabled(s, w, e) && Carried(w, moves) && e.Start?
    ensures Carried(Next(s, w, e), Noted(s, w, moves, e))
  {
    forall p | Carries(moves, p) ensures Carries(Noted(s, w, moves, e), p) { StillCarries(s, w, moves, e, p); }
    hide Inv;
  }

  lemma TickCarried(s: Session, w: World, moves: map<U32, Move>, now: nat)
    requires Inv(s, w) && Carried(w, moves)
    ensures Carried(Acted(w, IssuerTicked(s.ground, w.i, now)), moves)
    ensures IssuerTicked(s.ground, w.i, now).a.Commit? ==>
              w.campaigns != map[] && IssuerTicked(s.ground, w.i, now).a.to == RetuneOf(w.i.template)
  {
    hide StampMs;
    var t := IssuerTicked(s.ground, w.i, now);
    if t.a.SendCopy? { assert t.a.p.(seqNo := 0, dtMs := 0, sealed := true) == w.i.template.(seqNo := 0, dtMs := 0, sealed := true); }
  }

  lemma HeardCarried(s: Session, w: World, moves: map<U32, Move>, e: Step)
    requires Inv(s, w) && Enabled(s, w, e) && Carried(w, moves) && e.ToCraft?
    ensures Carried(Next(s, w, e), moves)
  {
    assert s.craft.hasKey;
    HeardShape(s.craft, w.f, e.p, e.now, e.tsf, e.issuer);
    assert w.accepted == {} ==> w.f.state == Idle;
    hide Judged, Heard, Carries;
  }

  lemma NextCarried(s: Session, w: World, moves: map<U32, Move>, e: Step)
    requires Inv(s, w) && Enabled(s, w, e) && Carried(w, moves)
    ensures Carried(Next(s, w, e), Noted(s, w, moves, e))
  {
    match e {
      case Start(_, _) => StartCarried(s, w, moves, e);
      case IssuerClock(now) =>
        hide Inv, Carried, Acted;
        TickCarried(s, w, moves, now);
      case ToCraft(_, _, _, _) =>
        hide Inv, Carried;
        HeardCarried(s, w, moves, e);
      case Release(p, now) => hide Inv, StampMs;
      case _ => hide Inv, Carries;
    }
  }

  lemma {:induction false} RunCarried(s: Session, w: World, moves: map<U32, Move>, steps: seq<Step>, w': World)
    requires Inv(s, w) && Carried(w, moves) && Reaches(s, w, steps, w')
    ensures Inv(s, w') && Carried(w', MovesOf(s, w, moves, steps))
    decreases |steps|
  {
    hide Inv, Carried, Next, Noted, Enabled;
    if steps != [] {
      NextKeeps(s, w, steps[0]);
      NextCarried(s, w, moves, steps[0]);
      RunCarried(s, Next(s, w, steps[0]), Noted(s, w, moves, steps[0]), steps[1..], w');
    }
  }

  /** What the radio is told for a move. */
  function RadioOf(m: Move): Retune {
    Retune(m.chan, m.bw, m.kind == 0, m.power)
  }

  /**
   * In every run: when the craft retunes it is for a campaign that was started, to the channel, width, class and power of that
   * start; and when the issuer commits, or closes a campaign whose video it did not see, so is its own radio.
   */
  lemma BothMove(s: Session, craftChan: U16, issuerChan: U16, steps: seq<Step>, w: World, now: nat)
    requires s.craft.hasKey && Reaches(s, Begin(s, craftChan, issuerChan), steps, w)
    ensures var moves := MovesOf(s, Begin(s, craftChan, issuerChan), map[], steps);
            var hop, act := FollowerTicked(s.craft, w.f, now).retune, IssuerTicked(s.ground, w.i, now).a;
            && (hop.Some? ==> w.f.campaign.nonce in moves && hop.value == RadioOf(moves[w.f.campaign.nonce]))
            && (act.Commit? ==> w.i.template.nonce in moves && act.to == RadioOf(moves[w.i.template.nonce]))
            && (act.Success? && act.unconfirmed.Some? ==>
                  w.i.template.nonce in moves && act.unconfirmed.value == RadioOf(moves[w.i.template.nonce]))
  {
    BeginInv(s, craftChan, issuerChan);
    RunCarried(s, Begin(s, craftChan, issuerChan), map[], steps, w);
    CarriedMoves(s, w, MovesOf(s, Begin(s, craftChan, issuerChan), map[], steps), now);
    hide Inv, Reaches, MovesOf;
  }

  lemma CarriedMoves(s: Session, w: World, moves: map<U32, Move>, now: nat)
    requires Inv(s, w) && Carried(w, moves)
    ensures var hop, act := FollowerTicked(s.craft, w.f, now).retune, IssuerTicked(s.ground, w.i, now).a;
            && (hop.Some? ==> w.f.campaign.nonce in moves && hop.value == RadioOf(moves[w.f.campaign.nonce]))
            && (act.Commit? ==> w.i.template.nonce in moves && act.to == RadioOf(moves[w.i.template.nonce]))
            && (act.Success? && act.unconfirmed.Some? ==>
                  w.i.template.nonce in moves && act.unconfirmed.value == RadioOf(moves[w.i.template.nonce]))
  {
    hide StampMs;
  }
}
