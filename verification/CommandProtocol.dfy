/** Craft and issuer over a channel that loses, repeats, delays and reorders, with an ideal MAC. */
module CommandProtocol {
  import opened Bytes
  import opened VehicleCmd

  /** One command the issuer started a campaign for. */
  datatype Command = Command(nonce: U32, id: Byte, arg: Byte)

  /** Whoever is on the air, the two engines and what happened so far. */
  datatype World = World(craft: Craft, issuer: Issuer, air: set<Packet>, commands: seq<Command>, outcomes: seq<Outcome>)

  /** The identities of the session: the craft's address and the issuer's address, session and first nonce. */
  datatype Session = Session(craftPolicy: Policy, issuerPolicy: Policy, self: Packet, originator: U16, session: U32, seed: U32)

  function Begin(s: Session): World {
    World(NEW_CRAFT, NEW_ISSUER.(nextNonce := s.seed), {}, [], [])
  }

  datatype Step =
    | Start(target: U16, id: Byte, arg: Byte, now: nat)
    | IssuerClock(now: nat)
    | CraftClock(now: nat)
    | ToCraft(p: Packet, now: nat, bound: Option<U16>, apply: Option<(Byte, Byte) -> bool>)
    | ToIssuer(p: Packet)

  /** A sealed packet is one that was sent; anything else may be forged freely. */
  predicate Deliverable(w: World, p: Packet) {
    p.sealed ==> p in w.air
  }

  predicate Enabled(w: World, e: Step) {
    match e
    case ToCraft(p, _, _, _) => Deliverable(w, p)
    case ToIssuer(p) => Deliverable(w, p)
    case Start(_, _, _, _) => true
    case IssuerClock(_) => true
    case CraftClock(_) => true
  }

  function Sent(air: set<Packet>, p: Option<Packet>): set<Packet> {
    if p.Some? then air + {p.value} else air
  }

  function Next(s: Session, w: World, e: Step): World {
    match e
    case Start(target, id, arg, now) =>
      if MayStart(s.issuerPolicy, w.issuer, target, id, arg, now) then
        w.(issuer := Started(s.issuerPolicy, w.issuer, s.originator, s.session, target, id, arg, now),
           commands := w.commands + [Command(w.issuer.nextNonce, id, arg)])
      else w
    case IssuerClock(now) =>
      var t := IssuerTicked(s.issuerPolicy, w.issuer, now);
      w.(issuer := t.issuer, air := Sent(w.air, t.sent))
    case CraftClock(now) =>
      var t := CraftTicked(s.craftPolicy, w.craft, now);
      w.(craft := t.craft, air := Sent(w.air, t.sent))
    case ToCraft(p, now, bound, apply) =>
      var v := Judged(s.craftPolicy, w.craft, p, now, bound, apply);
      w.(craft := CraftHeard(s.craftPolicy, s.self, w.craft, p, now, v),
         outcomes := if v.Consumed? then w.outcomes + [v.o] else w.outcomes)
    case ToIssuer(p) =>
      w.(issuer := Echoed(w.issuer, p))
  }

  ghost predicate Reaches(s: Session, w: World, steps: seq<Step>, w': World)
    decreases |steps|
  {
    if steps == [] then w == w'
    else Enabled(w, steps[0]) && Reaches(s, Next(s, w, steps[0]), steps[1..], w')
  }

  // ---- what holds throughout ------------------------------------------------------------------------

  ghost predicate Campaigned(w: World, nonce: U32, id: Byte, arg: Byte) {
    Command(nonce, id, arg) in w.commands
  }

  /** What the issuer put on the air is a command it started; what the craft put there is an outcome it reached. */
  ghost predicate Explained(s: Session, w: World, p: Packet) {
    if p.ack then p.originator == s.self.originator && Outcome(p.nonce, p.id, p.arg, p.rejected) in w.outcomes
    else p.originator == s.originator && p.session == s.session && Campaigned(w, p.nonce, p.id, p.arg)
  }

  /** Nonces are handed out one after the other from the seed. */
  ghost predicate Numbered(s: Session, w: World) {
    && (forall i :: 0 <= i < |w.commands| ==> w.commands[i].nonce == (s.seed + i) % 0x1_0000_0000)
    && w.issuer.nextNonce == (s.seed + |w.commands|) % 0x1_0000_0000
  }

  /** The craft remembers its latest outcome and consumed nonces in increasing order. */
  ghost predicate Consumes(s: Session, w: World) {
    && (forall i, j :: 0 <= i < j < |w.outcomes| ==> w.outcomes[i].nonce < w.outcomes[j].nonce)
    && (w.outcomes == [] ==> w.craft.applied == map[])
    && (w.outcomes != [] ==> w.craft.applied == map[(s.originator, s.session) := w.outcomes[|w.outcomes| - 1]])
    && (forall o :: o in w.outcomes ==> Campaigned(w, o.nonce, o.id, o.arg))
    && (w.craft.echoesLeft > 0 ==>
          && w.craft.echo.ack && w.craft.echo.originator == s.self.originator
          && Outcome(w.craft.echo.nonce, w.craft.echo.id, w.craft.echo.arg, w.craft.echo.rejected) in w.outcomes)
  }

  ghost predicate Issues(s: Session, w: World) {
    var i := w.issuer;
    && (i.phase != Idle ==>
          && !i.template.ack && i.template.originator == s.originator && i.template.session == s.session
          && ArgInRange(i.template.id, i.template.arg)
          && w.commands != [] && w.commands[|w.commands| - 1] == Command(i.template.nonce, i.template.id, i.template.arg))
    && (i.phase == Acked ==> i.target == s.self.originator && Outcome(i.template.nonce, i.template.id, i.template.arg, false) in w.outcomes)
    && (i.phase == Rejected ==> i.target == s.self.originator && Outcome(i.template.nonce, i.template.id, i.template.arg, true) in w.outcomes)
  }

  ghost predicate Inv(s: Session, w: World) {
    && (forall p :: p in w.air ==> p.sealed && Explained(s, w, p))
    && Numbered(s, w) && Consumes(s, w) && Issues(s, w)
  }

  lemma BeginInv(s: Session)
    ensures Inv(s, Begin(s))
  {
  }

  /** Histories only grow. */
  lemma StillExplained(s: Session, w: World, w': World, p: Packet)
    requires Explained(s, w, p) && w'.outcomes == w.outcomes && w.commands <= w'.commands
    ensures Explained(s, w', p)
  {
  }

  lemma StillConsumes(s: Session, w: World, w': World)
    requires Consumes(s, w) && w'.outcomes == w.outcomes && w.commands <= w'.commands && w'.craft == w.craft
    ensures Consumes(s, w')
  {
  }

  lemma StartKeeps(s: Session, w: World, e: Step)
    requires Inv(s, w) && e.Start?
    ensures Inv(s, Next(s, w, e))
  {
    var w' := Next(s, w, e);
    StillConsumes(s, w, w');
    forall p | p in w.air ensures Explained(s, w', p) { StillExplained(s, w, w', p); }
    StartNumbers(s, w, e);
    hide Explained, Consumes, Numbered;
  }

  lemma StartNumbers(s: Session, w: World, e: Step)
    requires Numbered(s, w) && e.Start?
    ensures Numbered(s, Next(s, w, e))
  {
  }

  lemma IssuerClockKeeps(s: Session, w: World, e: Step)
    requires Inv(s, w) && e.IssuerClock?
    ensures Inv(s, Next(s, w, e))
  {
    var w' := Next(s, w, e);
    StillConsumes(s, w, w');
    forall p | p in w.air ensures Explained(s, w', p) { StillExplained(s, w, w', p); }
    var t := IssuerTicked(s.issuerPolicy, w.issuer, e.now);
    if t.sent.Some? {
      assert w.commands[|w.commands| - 1] in w.commands;
      assert Explained(s, w', t.sent.value);
    }
    hide Explained, Consumes;
  }

  lemma CraftClockKeeps(s: Session, w: World, e: Step)
    requires Inv(s, w) && e.CraftClock?
    ensures Inv(s, Next(s, w, e))
  {
    var w' := Next(s, w, e);
    forall nonce, id, arg | Campaigned(w, nonce, id, arg) ensures Campaigned(w', nonce, id, arg) {}
  }

  /** A pending echo is the one pending before or the one just queued. */
  lemma QueuedEcho(s: Session, c: Craft, o: Outcome, to: U16, now: nat)
    ensures var c' := Queued(s.craftPolicy, s.self, c, o, to, now);
            && c'.applied == c.applied
            && (c'.echoesLeft > 0 ==> c'.echo == EchoOf(s.self, o, to) || (c.echoesLeft > 0 && c'.echo == c.echo))
  {
  }

  lemma RepeatKeeps(s: Session, w: World, o: Outcome, to: U16, now: nat)
    requires Inv(s, w) && o in w.outcomes
    ensures Inv(s, w.(craft := Queued(s.craftPolicy, s.self, w.craft, o, to, now)))
  {
    QueuedEcho(s, w.craft, o, to, now);
    hide Queued, Campaigned, Numbered, Issues;
    var w' := w.(craft := Queued(s.craftPolicy, s.self, w.craft, o, to, now));
    assert Numbered(s, w') && Issues(s, w') by { SameIssuer(s, w, w'); }
    forall p | p in w.air ensures Explained(s, w', p) { SameHistory(s, w, w', p); }
    forall o | o in w.outcomes ensures Campaigned(w', o.nonce, o.id, o.arg) { SameCampaigns(w, w', o); }
  }

  lemma SameCampaigns(w: World, w': World, o: Outcome)
    requires w'.commands == w.commands
    ensures Campaigned(w, o.nonce, o.id, o.arg) == Campaigned(w', o.nonce, o.id, o.arg)
  {
  }

  lemma SameIssuer(s: Session, w: World, w': World)
    requires Numbered(s, w) && Issues(s, w) && w'.issuer == w.issuer && w'.commands == w.commands
    requires forall o :: o in w.outcomes ==> o in w'.outcomes
    ensures Numbered(s, w') && Issues(s, w')
  {
  }

  lemma SameHistory(s: Session, w: World, w': World, p: Packet)
    requires Explained(s, w, p) && w'.commands == w.commands && forall o :: o in w.outcomes ==> o in w'.outcomes
    ensures Explained(s, w', p)
  {
  }

  /** Accepting a command: its outcome follows every earlier one. */
  lemma ConsumeKeeps(s: Session, w: World, p: Packet, o: Outcome, now: nat)
    requires Inv(s, w) && p in w.air && !p.ack && o.nonce == p.nonce && o.id == p.id && o.arg == p.arg
    requires (p.originator, p.session) in w.craft.applied ==> p.nonce > w.craft.applied[(p.originator, p.session)].nonce
    ensures var c := w.craft.(applied := w.craft.applied[(p.originator, p.session) := o], last := o, lastAcceptUs := now);
            Inv(s, w.(craft := c, outcomes := w.outcomes + [o]))
  {
    assert Explained(s, w, p);
    var c := w.craft.(applied := w.craft.applied[(p.originator, p.session) := o], last := o, lastAcceptUs := now);
    var w' := w.(craft := c, outcomes := w.outcomes + [o]);
    hide Numbered, Issues;
    forall d | d in w.outcomes ensures d in w'.outcomes {}
    assert Numbered(s, w') && Issues(s, w') by { SameIssuer(s, w, w'); }
    forall q | q in w.air ensures Explained(s, w', q) { SameHistory(s, w, w', q); }
    assert c.applied == map[(s.originator, s.session) := o];
    Increase(w.outcomes, o);
  }

  lemma Increase(a: seq<Outcome>, o: Outcome)
    requires forall i, j :: 0 <= i < j < |a| ==> a[i].nonce < a[j].nonce
    requires a != [] ==> a[|a| - 1].nonce < o.nonce
    ensures forall i, j :: 0 <= i < j < |a + [o]| ==> (a + [o])[i].nonce < (a + [o])[j].nonce
  {
  }

  lemma ToCraftKeeps(s: Session, w: World, e: Step)
    requires Inv(s, w) && e.ToCraft? && Enabled(w, e)
    ensures Inv(s, Next(s, w, e))
  {
    var v := Judged(s.craftPolicy, w.craft, e.p, e.now, e.bound, e.apply);
    hide Inv, Queued;
    match v {
      case Ignored =>
        assert Next(s, w, e) == w;
      case Repeated(o) =>
        assert o in w.outcomes by { Remembered(s, w, e.p, o); }
        RepeatKeeps(s, w, o, e.p.originator, e.now);
      case Consumed(o) =>
        ConsumeKeeps(s, w, e.p, o, e.now);
        var c := w.craft.(applied := w.craft.applied[(e.p.originator, e.p.session) := o], last := o, lastAcceptUs := e.now);
        var w1 := w.(craft := c, outcomes := w.outcomes + [o]);
        assert o in w1.outcomes;
        RepeatKeeps(s, w1, o, e.p.originator, e.now);
    }
  }

  lemma Remembered(s: Session, w: World, p: Packet, o: Outcome)
    requires Inv(s, w) && (p.originator, p.session) in w.craft.applied && o == w.craft.applied[(p.originator, p.session)]
    ensures o in w.outcomes
  {
  }

  lemma ToIssuerKeeps(s: Session, w: World, e: Step)
    requires Inv(s, w) && e.ToIssuer? && Enabled(w, e)
    ensures Inv(s, Next(s, w, e))
  {
    var w' := Next(s, w, e);
    forall nonce, id, arg | Campaigned(w, nonce, id, arg) ensures Campaigned(w', nonce, id, arg) {}
    if Answers(w.issuer, e.p) { assert Explained(s, w, e.p); }
  }

  lemma {:induction false} ReachesInv(s: Session, w: World, steps: seq<Step>, w': World)
    requires Inv(s, w) && Reaches(s, w, steps, w')
    ensures Inv(s, w')
    decreases |steps|
  {
    if steps != [] {
      var e := steps[0];
      hide Inv, Next;
      match e {
        case Start(_, _, _, _) => StartKeeps(s, w, e);
        case IssuerClock(_) => IssuerClockKeeps(s, w, e);
        case CraftClock(_) => CraftClockKeeps(s, w, e);
        case ToCraft(_, _, _, _) => ToCraftKeeps(s, w, e);
        case ToIssuer(_) => ToIssuerKeeps(s, w, e);
      }
      ReachesInv(s, Next(s, w, e), steps[1..], w');
    }
  }

  // ---- the promises ---------------------------------------------------------------------------------

  /** Fewer campaigns than nonces left above the seed. */
  ghost predicate NoncesLast(s: Session, w: World) {
    s.seed + |w.commands| <= 0x1_0000_0000
  }

  /**
   * Whatever the channel does: the craft consumes each nonce at most once and in increasing order, and only commands
   * the issuer started.
   */
  lemma ConsumedOnce(s: Session, steps: seq<Step>, w: World)
    requires Reaches(s, Begin(s), steps, w)
    ensures forall i, j :: 0 <= i < j < |w.outcomes| ==> w.outcomes[i].nonce < w.outcomes[j].nonce
    ensures forall o :: o in w.outcomes ==> Command(o.nonce, o.id, o.arg) in w.commands
  {
    BeginInv(s);
    ReachesInv(s, Begin(s), steps, w);
  }

  /** Before the nonces run out no two campaigns share one. */
  lemma CommandsDistinct(s: Session, steps: seq<Step>, w: World)
    requires Reaches(s, Begin(s), steps, w) && NoncesLast(s, w)
    ensures forall i, j :: 0 <= i < j < |w.commands| ==> w.commands[i].nonce < w.commands[j].nonce
  {
    BeginInv(s);
    ReachesInv(s, Begin(s), steps, w);
  }

  lemma OneOutcome(a: seq<Outcome>, m: nat, n: nat)
    requires forall i, j :: 0 <= i < j < |a| ==> a[i].nonce < a[j].nonce
    requires m < |a| && n < |a| && a[m].nonce == a[n].nonce
    ensures m == n
  {
  }

  /**
   * ACKED means this very command was applied, REJECTED that it was refused; in either case it was the craft addressed,
   * it happened exactly once, and it did not also end the other way.
   */
  lemma TerminalTruth(s: Session, steps: seq<Step>, w: World)
    requires Reaches(s, Begin(s), steps, w) && (w.issuer.phase == Acked || w.issuer.phase == Rejected)
    ensures var t := w.issuer.template;
            && w.commands != [] && w.commands[|w.commands| - 1] == Command(t.nonce, t.id, t.arg)
            && w.issuer.target == s.self.originator
            && exists n :: 0 <= n < |w.outcomes| && w.outcomes[n] == Outcome(t.nonce, t.id, t.arg, w.issuer.phase == Rejected)
                           && forall m :: 0 <= m < |w.outcomes| && w.outcomes[m].nonce == t.nonce ==> m == n
  {
    BeginInv(s);
    ReachesInv(s, Begin(s), steps, w);
    var t := w.issuer.template;
    var o := Outcome(t.nonce, t.id, t.arg, w.issuer.phase == Rejected);
    assert o in w.outcomes;
    var n :| 0 <= n < |w.outcomes| && w.outcomes[n] == o;
    forall m | 0 <= m < |w.outcomes| && w.outcomes[m].nonce == t.nonce ensures m == n {
      OneOutcome(w.outcomes, m, n);
    }
  }
}
