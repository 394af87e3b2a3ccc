/** That a command delivered and consumed is answered, and that its echo ends the campaign. */
module CommandAnswered {
  import opened Bytes
  import opened VehicleCmd
  import opened CommandProtocol

  // ---- one burst of echoes -----------------------------------------------------------------------

  /** The echo copy that counts n. */
  function Copy(self: Packet, o: Outcome, to: U16, n: Byte): Packet {
    Packet(self.originator, self.session, to, o.nonce, true, o.rejected, o.id, o.arg, n, true)
  }

  /** What a craft sends when ticked at these times and nothing else happens. */
  function Echoes(policy: Policy, c: Craft, times: seq<nat>): seq<Packet>
    decreases |times|
  {
    if times == [] then []
    else
      var t := CraftTicked(policy, c, times[0]);
      (if t.sent.Some? then [t.sent.value] else []) + Echoes(policy, t.craft, times[1..])
  }

  /** How many of the times are an interval after the one counted before, the first at or past due. */
  function Paced(intervalUs: nat, due: nat, times: seq<nat>): (n: nat)
    ensures n <= |times|
    decreases |times|
  {
    if times == [] then 0
    else if times[0] >= due then 1 + Paced(intervalUs, times[0] + intervalUs, times[1..])
    else Paced(intervalUs, due, times[1..])
  }

  /** Copies counting down from n, as many as n and paced allow. */
  function Countdown(self: Packet, o: Outcome, to: U16, n: Byte, paced: nat): (s: seq<Packet>)
    ensures |s| == if paced < n then paced else n
  {
    if n == 0 || paced == 0 then [] else [Copy(self, o, to, n)] + Countdown(self, o, to, n - 1, paced - 1)
  }

  /** Waiting to send the last n copies of an echo, from due on. */
  predicate Bursting(self: Packet, c: Craft, o: Outcome, to: U16, n: Byte, due: nat) {
    c.echo == EchoOf(self, o, to) && c.echoesLeft == n && c.nextEchoUs == due && ArgInRange(o.id, o.arg)
  }

  lemma {:induction false} BurstSends(policy: Policy, self: Packet, c: Craft, o: Outcome, to: U16, n: Byte, due: nat, times: seq<nat>)
    requires Bursting(self, c, o, to, n, due)
    ensures Echoes(policy, c, times) == Countdown(self, o, to, n, Paced(policy.copyIntervalMs * 1000, due, times))
    decreases |times|
  {
    if times != [] {
      var t := CraftTicked(policy, c, times[0]);
      if n == 0 || times[0] < due {
        BurstSends(policy, self, c, o, to, n, due, times[1..]);
      } else {
        BurstSends(policy, self, t.craft, o, to, n - 1, times[0] + policy.copyIntervalMs * 1000, times[1..]);
      }
    }
  }

  /**
   * A consumed command whose nonce was not the last one echoed: whatever the ticks after it, the craft sends sealed echoes of
   * its outcome to the issuer, counting down from echoCopies, one an interval, and none after the last.
   */
  lemma ConsumedEchoes(policy: Policy, self: Packet, c: Craft, p: Packet, now: nat, bound: Option<U16>,
                       apply: Option<(Byte, Byte) -> bool>, times: seq<nat>)
    requires Judged(policy, c, p, now, bound, apply).Consumed? && !(c.echoedOnce && c.lastEchoNonce == p.nonce)
    ensures var v := Judged(policy, c, p, now, bound, apply);
            var o := Outcome(p.nonce, p.id, p.arg, apply.None? || !apply.value(p.id, p.arg));
            Echoes(policy, CraftHeard(policy, self, c, p, now, v), times)
            == Countdown(self, o, p.originator, policy.echoCopies, Paced(policy.copyIntervalMs * 1000, now, times))
  {
    var v := Judged(policy, c, p, now, bound, apply);
    BurstSends(policy, self, CraftHeard(policy, self, c, p, now, v), v.o, p.originator, policy.echoCopies, now, times);
  }

  // ---- what is echoed was consumed -------------------------------------------------------------------

  /** The last nonce echoed belongs to an outcome. */
  ghost predicate EchoKnown(w: World) {
    w.craft.echoedOnce ==> exists o :: o in w.outcomes && o.nonce == w.craft.lastEchoNonce
  }

  lemma NextEchoKnown(s: Session, w: World, e: Step)
    requires Inv(s, w) && Enabled(w, e) && EchoKnown(w)
    ensures EchoKnown(Next(s, w, e))
  {
    var w' := Next(s, w, e);
    hide Inv;
    if w.craft.echoedOnce {
      var o :| o in w.outcomes && o.nonce == w.craft.lastEchoNonce;
      assert o in w'.outcomes;
    }
    if e.ToCraft? {
      var v := Judged(s.craftPolicy, w.craft, e.p, e.now, e.bound, e.apply);
      match v {
        case Ignored =>
        case Repeated(o) => Remembered(s, w, e.p, o);
        case Consumed(o) => assert o in w'.outcomes;
      }
    }
  }

  lemma {:induction false} ReachesEchoKnown(s: Session, w: World, steps: seq<Step>, w': World)
    requires Inv(s, w) && EchoKnown(w) && Reaches(s, w, steps, w')
    ensures Inv(s, w') && EchoKnown(w')
    decreases |steps|
  {
    hide Inv, EchoKnown, Next, Enabled;
    if steps != [] {
      NextInv(s, w, steps[0]);
      NextEchoKnown(s, w, steps[0]);
      ReachesEchoKnown(s, Next(s, w, steps[0]), steps[1..], w');
    }
  }

  lemma NextInv(s: Session, w: World, e: Step)
    requires Inv(s, w) && Enabled(w, e)
    ensures Inv(s, Next(s, w, e))
  {
    hide Inv, Next;
    match e {
      case Start(_, _, _, _) => StartKeeps(s, w, e);
      case IssuerClock(_) => IssuerClockKeeps(s, w, e);
      case CraftClock(_) => CraftClockKeeps(s, w, e);
      case ToCraft(_, _, _, _) => ToCraftKeeps(s, w, e);
      case ToIssuer(_) => ToIssuerKeeps(s, w, e);
    }
  }

  // ---- the answer on its way ---------------------------------------------------------------------------

  /** A sealed echo of outcome o for the issuer. */
  predicate EchoFor(s: Session, q: Packet, o: Outcome) {
    q == Copy(s.self, o, s.originator, q.seqNo)
  }

  ghost predicate OnAir(s: Session, w: World, o: Outcome) {
    exists q :: q in w.air && EchoFor(s, q, o)
  }

  /** The campaign's command was consumed as o, and its echo is pending or was sent. */
  ghost predicate Answering(s: Session, w: World, o: Outcome) {
    && w.outcomes != [] && w.outcomes[|w.outcomes| - 1] == o && ArgInRange(o.id, o.arg)
    && w.commands != [] && w.commands[|w.commands| - 1] == Command(o.nonce, o.id, o.arg)
    && (w.craft.echoesLeft > 0 ==> w.craft.echo == EchoOf(s.self, o, s.originator))
    && (w.craft.echoesLeft > 0 || OnAir(s, w, o))
  }

  lemma OnAirLater(s: Session, w: World, w': World, o: Outcome)
    requires OnAir(s, w, o) && w.air <= w'.air
    ensures OnAir(s, w', o)
  {
  }

  lemma TickAnswers(s: Session, w: World, o: Outcome, now: nat)
    requires Answering(s, w, o)
    ensures var w' := Next(s, w, CraftClock(now));
            Answering(s, w', o) && (now >= w.craft.nextEchoUs ==> OnAir(s, w', o))
  {
    var w' := Next(s, w, CraftClock(now));
    if w.craft.echoesLeft > 0 && now >= w.craft.nextEchoUs {
      var q := CraftTicked(s.craftPolicy, w.craft, now).sent.value;
      assert q in w'.air && EchoFor(s, q, o);
    } else if OnAir(s, w, o) {
      OnAirLater(s, w, w', o);
    }
  }

  /** Before the nonces run out the last command's nonce is the highest, and its alone. */
  lemma LatestCommand(s: Session, w: World, c: Command)
    requires Numbered(s, w) && NoncesLast(s, w) && c in w.commands
    ensures var last := w.commands[|w.commands| - 1]; c.nonce <= last.nonce && (c.nonce == last.nonce ==> c == last)
  {
    var i :| 0 <= i < |w.commands| && w.commands[i] == c;
    assert w.commands[i].nonce == s.seed + i && w.commands[|w.commands| - 1].nonce == s.seed + |w.commands| - 1;
  }

  /** No command newer than the campaign's is on the air before the nonces run out. */
  lemma NoneNewer(s: Session, w: World, p: Packet, o: Outcome)
    requires Inv(s, w) && NoncesLast(s, w) && Answering(s, w, o) && p in w.air && !p.ack
    ensures (p.originator, p.session) == (s.originator, s.session) && (p.originator, p.session) in w.craft.applied
    ensures p.nonce <= w.craft.applied[(p.originator, p.session)].nonce && w.craft.applied[(p.originator, p.session)] == o
  {
    assert Explained(s, w, p);
    LatestCommand(s, w, Command(p.nonce, p.id, p.arg));
    hide Numbered, Issues;
  }

  lemma HeardAnswers(s: Session, w: World, o: Outcome, e: Step)
    requires Inv(s, w) && NoncesLast(s, w) && Answering(s, w, o) && e.ToCraft? && Enabled(w, e) && s.craftPolicy.echoCopies > 0
    ensures Answering(s, Next(s, w, e), o)
  {
    var v := Judged(s.craftPolicy, w.craft, e.p, e.now, e.bound, e.apply);
    if !v.Ignored? { NoneNewer(s, w, e.p, o); }
    hide Inv, OnAir;
    var w' := Next(s, w, e);
    assert w'.air == w.air;
    if OnAir(s, w, o) { OnAirLater(s, w, w', o); }
  }

  lemma NextAnswers(s: Session, w: World, o: Outcome, e: Step)
    requires Inv(s, w) && NoncesLast(s, w) && Answering(s, w, o) && Enabled(w, e) && s.craftPolicy.echoCopies > 0
    requires Next(s, w, e).commands == w.commands
    ensures Answering(s, Next(s, w, e), o)
  {
    hide Inv, OnAir;
    match e {
      case CraftClock(now) => TickAnswers(s, w, o, now);
      case ToCraft(_, _, _, _) => HeardAnswers(s, w, o, e);
      case Start(_, _, _, _) => if OnAir(s, w, o) { OnAirLater(s, w, Next(s, w, e), o); }
      case IssuerClock(_) => if OnAir(s, w, o) { OnAirLater(s, w, Next(s, w, e), o); }
      case ToIssuer(_) => if OnAir(s, w, o) { OnAirLater(s, w, Next(s, w, e), o); }
    }
  }

  /** Campaigns are only added. */
  lemma NextGrows(s: Session, w: World, e: Step)
    ensures |Next(s, w, e).commands| >= |w.commands| && w.air <= Next(s, w, e).air
    ensures |Next(s, w, e).commands| == |w.commands| ==> Next(s, w, e).commands == w.commands && Next(s, w, e).issuer.target == w.issuer.target
  {
    hide CraftHeard, Judged, CraftTicked;
  }

  lemma {:induction false} ReachesGrows(s: Session, w: World, steps: seq<Step>, w': World)
    requires Reaches(s, w, steps, w')
    ensures |w'.commands| >= |w.commands|
    decreases |steps|
  {
    hide Next, Enabled;
    if steps != [] {
      NextGrows(s, w, steps[0]);
      ReachesGrows(s, Next(s, w, steps[0]), steps[1..], w');
    }
  }

  lemma {:induction false} ReachesAnswers(s: Session, w: World, o: Outcome, steps: seq<Step>, w': World)
    requires Inv(s, w) && NoncesLast(s, w) && Answering(s, w, o) && s.craftPolicy.echoCopies > 0
    requires Reaches(s, w, steps, w') && |w'.commands| == |w.commands|
    ensures Inv(s, w') && Answering(s, w', o) && w'.issuer.target == w.issuer.target && (OnAir(s, w, o) ==> OnAir(s, w', o))
    decreases |steps|
  {
    hide Inv, Answering, Next, Enabled, OnAir;
    if steps != [] {
      var n := Next(s, w, steps[0]);
      NextGrows(s, w, steps[0]);
      ReachesGrows(s, n, steps[1..], w');
      NextInv(s, w, steps[0]);
      NextAnswers(s, w, o, steps[0]);
      if OnAir(s, w, o) { OnAirLater(s, w, n, o); }
      ReachesAnswers(s, n, o, steps[1..], w');
    }
  }

  // ---- the campaign's end ----------------------------------------------------------------------------------

  /** A copy of the campaign in flight that the craft has not answered yet, from the bound issuer and in time, is consumed. */
  lemma CopyConsumed(s: Session, w: World, p: Packet, now: nat, bound: Option<U16>, apply: Option<(Byte, Byte) -> bool>)
    requires Inv(s, w) && NoncesLast(s, w) && Active(w.issuer) && p in w.air && !p.ack && p.nonce == w.issuer.template.nonce
    requires s.craftPolicy.hasKey && bound == Some(s.originator) && ArgInRange(p.id, p.arg)
    requires forall o :: o in w.outcomes ==> o.nonce != p.nonce
    requires w.craft.lastAcceptUs == 0 || Since(now, w.craft.lastAcceptUs) >= s.craftPolicy.minIntervalMs * 1000
    ensures Judged(s.craftPolicy, w.craft, p, now, bound, apply)
         == Consumed(Outcome(p.nonce, p.id, p.arg, apply.None? || !apply.value(p.id, p.arg)))
  {
    CopyNewer(s, w, p);
    hide Inv, NoncesLast;
  }

  lemma CopyNewer(s: Session, w: World, p: Packet)
    requires Inv(s, w) && NoncesLast(s, w) && Active(w.issuer) && p in w.air && !p.ack && p.nonce == w.issuer.template.nonce
    requires forall o :: o in w.outcomes ==> o.nonce != p.nonce
    ensures p.sealed && p.originator == s.originator
    ensures (p.originator, p.session) in w.craft.applied ==> p.nonce > w.craft.applied[(p.originator, p.session)].nonce
  {
    assert Explained(s, w, p);
    if w.outcomes != [] {
      var last := w.outcomes[|w.outcomes| - 1];
      assert last in w.outcomes && Campaigned(w, last.nonce, last.id, last.arg);
      LatestCommand(s, w, Command(last.nonce, last.id, last.arg));
    }
    hide Numbered;
  }

  /** Consuming a copy of the campaign in flight sets the answer going. */
  lemma ConsumedAnswers(s: Session, w: World, e: Step)
    requires Inv(s, w) && NoncesLast(s, w) && EchoKnown(w) && s.craftPolicy.echoCopies > 0
    requires e.ToCraft? && Enabled(w, e) && Judged(s.craftPolicy, w.craft, e.p, e.now, e.bound, e.apply).Consumed?
    requires Active(w.issuer) && e.p.nonce == w.issuer.template.nonce
    ensures Answering(s, Next(s, w, e), Outcome(e.p.nonce, e.p.id, e.p.arg, e.apply.None? || !e.apply.value(e.p.id, e.p.arg)))
  {
    var p := e.p;
    assert Explained(s, w, p);
    LatestCommand(s, w, Command(p.nonce, p.id, p.arg));
    NotEchoed(s, w, p);
    hide Numbered, Consumes, Explained;
  }

  /** A command about to be consumed has a nonce never echoed. */
  lemma NotEchoed(s: Session, w: World, p: Packet)
    requires Inv(s, w) && EchoKnown(w) && p in w.air && !p.ack
    requires (p.originator, p.session) in w.craft.applied ==> p.nonce > w.craft.applied[(p.originator, p.session)].nonce
    ensures !(w.craft.echoedOnce && w.craft.lastEchoNonce == p.nonce) && (p.originator, p.session) == (s.originator, s.session)
  {
    assert Explained(s, w, p);
    if w.craft.echoedOnce {
      var d :| d in w.outcomes && d.nonce == w.craft.lastEchoNonce;
      var j :| 0 <= j < |w.outcomes| && w.outcomes[j] == d;
      assert d.nonce < p.nonce;
    }
    hide Numbered, Issues;
  }

  lemma EchoEnds(s: Session, w: World, o: Outcome, q: Packet)
    requires Inv(s, w) && Answering(s, w, o) && q in w.air && EchoFor(s, q, o) && Active(w.issuer) && w.issuer.target == s.self.originator
    ensures Enabled(w, ToIssuer(q)) && Next(s, w, ToIssuer(q)).issuer.phase == if o.rejected then Phase.Rejected else Acked
  {
  }

  /**
   * A command of the campaign in flight is delivered and consumed; then anything; then a craft tick at or past its instant; then
   * anything, short of another campaign: if the campaign is still active, an echo of that outcome is on the air, and whichever
   * such echo is delivered ends the campaign ACKED, or REJECTED if the command was refused.
   */
  lemma AnsweredEnds(s: Session, past: seq<Step>, w: World, p: Packet, now: nat, bound: Option<U16>,
                     apply: Option<(Byte, Byte) -> bool>, first: seq<Step>, w2: World, tick: nat, second: seq<Step>, w4: World)
    requires Reaches(s, Begin(s), past, w) && NoncesLast(s, w) && s.craftPolicy.echoCopies > 0
    requires Active(w.issuer) && w.issuer.target == s.self.originator && p.nonce == w.issuer.template.nonce
    requires Enabled(w, ToCraft(p, now, bound, apply)) && Judged(s.craftPolicy, w.craft, p, now, bound, apply).Consumed?
    requires Reaches(s, Next(s, w, ToCraft(p, now, bound, apply)), first, w2) && tick >= w2.craft.nextEchoUs
    requires Reaches(s, Next(s, w2, CraftClock(tick)), second, w4) && |w4.commands| == |w.commands| && Active(w4.issuer)
    ensures var refused := apply.None? || !apply.value(p.id, p.arg);
            var o := Outcome(p.nonce, p.id, p.arg, refused);
            && (exists q :: q in w4.air && EchoFor(s, q, o))
            && forall q :: q in w4.air && EchoFor(s, q, o) ==>
                 Enabled(w4, ToIssuer(q)) && Next(s, w4, ToIssuer(q)).issuer.phase == if refused then Phase.Rejected else Acked
  {
    hide *;
    var e, o := ToCraft(p, now, bound, apply), Outcome(p.nonce, p.id, p.arg, apply.None? || !apply.value(p.id, p.arg));
    BeginKnown(s);
    ReachesEchoKnown(s, Begin(s), past, w);
    ConsumedAnswers(s, w, e);
    var w1, w3 := Next(s, w, e), Next(s, w2, CraftClock(tick));
    NextInv(s, w, e);
    HeardSame(s, w, e);
    NextGrows(s, w2, CraftClock(tick));
    ReachesGrows(s, w1, first, w2);
    ReachesGrows(s, w3, second, w4);
    SameNonces(s, w, w1);
    ReachesAnswers(s, w1, o, first, w2);
    SameNonces(s, w, w2);
    TickEnabled(w2, tick);
    NextInv(s, w2, CraftClock(tick));
    TickAnswers(s, w2, o, tick);
    SameNonces(s, w, w3);
    ReachesAnswers(s, w3, o, second, w4);
    OnAirMeans(s, w4, o);
    forall q | q in w4.air && EchoFor(s, q, o)
      ensures Enabled(w4, ToIssuer(q)) && Next(s, w4, ToIssuer(q)).issuer.phase == if o.rejected then Phase.Rejected else Acked
    {
      EchoEnds(s, w4, o, q);
    }
  }

  lemma BeginKnown(s: Session)
    ensures Inv(s, Begin(s)) && EchoKnown(Begin(s))
  {
    BeginInv(s);
  }

  lemma HeardSame(s: Session, w: World, e: Step)
    requires e.ToCraft?
    ensures Next(s, w, e).commands == w.commands && Next(s, w, e).issuer == w.issuer
  {
  }

  lemma SameNonces(s: Session, w: World, w': World)
    requires NoncesLast(s, w) && |w'.commands| == |w.commands|
    ensures NoncesLast(s, w')
  {
  }

  lemma TickEnabled(w: World, now: nat)
    ensures Enabled(w, CraftClock(now))
  {
  }

  lemma OnAirMeans(s: Session, w: World, o: Outcome)
    requires OnAir(s, w, o)
    ensures exists q :: q in w.air && EchoFor(s, q, o)
  {
  }
}
