/** How campaigns are paced, and when a fresh one clears the craft's own limit. */
module CommandPacing {
  import opened Bytes
  import opened VehicleCmd
  import opened CommandProtocol

  /** The least time between two starts, in the 32 bits it is added up in. */
  function Spacing(policy: Policy): nat {
    (policy.minIntervalMs + policy.copyIntervalMs) % 0x1_0000_0000 * 1000
  }

  predicate Starts(s: Session, w: World, e: Step) {
    e.Start? && Next(s, w, e).commands != w.commands
  }

  lemma StartEffect(s: Session, w: World, e: Step)
    ensures Starts(s, w, e) ==> Next(s, w, e).issuer.lastStartUs == e.now && (w.issuer.lastStartUs == 0 || Since(e.now, w.issuer.lastStartUs) >= Spacing(s.issuerPolicy))
    ensures !Starts(s, w, e) ==> Next(s, w, e).issuer.lastStartUs == w.issuer.lastStartUs
  {
    if e.Start? && MayStart(s.issuerPolicy, w.issuer, e.target, e.id, e.arg, e.now) {
      assert Next(s, w, e).commands[|w.commands|] == Command(w.issuer.nextNonce, e.id, e.arg);
    }
    hide CraftHeard, CraftTicked, Judged;
  }

  /** No campaign starts during these steps. */
  ghost predicate NoneStarts(s: Session, w: World, steps: seq<Step>)
    decreases |steps|
  {
    steps == [] || (!Starts(s, w, steps[0]) && NoneStarts(s, Next(s, w, steps[0]), steps[1..]))
  }

  lemma {:induction false} SameStart(s: Session, w: World, steps: seq<Step>, w': World)
    requires Reaches(s, w, steps, w') && NoneStarts(s, w, steps)
    ensures w'.issuer.lastStartUs == w.issuer.lastStartUs
    decreases |steps|
  {
    hide Next, Enabled, Starts;
    if steps != [] {
      StartEffect(s, w, steps[0]);
      SameStart(s, Next(s, w, steps[0]), steps[1..], w');
    }
  }

  /** Two starts in a row lie at least the spacing apart. */
  lemma StartsSpaced(s: Session, w: World, first: Step, between: seq<Step>, w2: World, second: Step)
    requires Starts(s, w, first) && Reaches(s, Next(s, w, first), between, w2) && NoneStarts(s, Next(s, w, first), between)
    requires Starts(s, w2, second) && 0 < first.now <= second.now < 0x1_0000_0000_0000_0000
    ensures second.now - first.now >= Spacing(s.issuerPolicy)
  {
    hide Next, Starts, NoneStarts, Reaches, Spacing;
    StartEffect(s, w, first);
    StartEffect(s, w2, second);
    SameStart(s, Next(s, w, first), between, w2);
  }

  /**
   * A sealed command of the bound issuer, newer than all it remembers, is consumed exactly when the craft's last acceptance is the
   * least interval old. With campaigns as close as the spacing allows, and no delay, the first copy of the later one is consumed
   * exactly when the craft took the earlier one within a copy interval of its start.
   */
  lemma FirstCopyClears(policy: Policy, c: Craft, p: Packet, bound: Option<U16>, apply: Option<(Byte, Byte) -> bool>, first: nat, now: nat)
    requires policy.hasKey && p.sealed && !p.ack && ArgInRange(p.id, p.arg) && bound == Some(p.originator)
    requires (p.originator, p.session) in c.applied ==> p.nonce > c.applied[(p.originator, p.session)].nonce
    requires 0 < first <= c.lastAcceptUs <= now < 0x1_0000_0000_0000_0000
    ensures Judged(policy, c, p, now, bound, apply).Consumed? <==> now - c.lastAcceptUs >= policy.minIntervalMs * 1000
    ensures policy.minIntervalMs + policy.copyIntervalMs < 0x1_0000_0000 && now == first + Spacing(policy) ==>
              (Judged(policy, c, p, now, bound, apply).Consumed? <==> c.lastAcceptUs - first <= policy.copyIntervalMs * 1000)
  {
  }

  // ---- a fresh campaign's first copy refused --------------------------------------------------------------

  const BRISK := Policy(true, 3, 20, 1, 100, 3, 100)

  const PAIR := Session(BRISK, BRISK, NO_PACKET.(originator := 17, session := 5), 9, 7, 1)

  function Copy(nonce: U32, n: Byte): Packet {
    NO_PACKET.(originator := 9, session := 7, destination := 17, nonce := nonce, id := 1, arg := 1, seqNo := n, sealed := true)
  }

  const ECHO := NO_PACKET.(originator := 17, session := 5, destination := 9, nonce := 1, ack := true, rejected := true, id := 1, arg := 1,
                           seqNo := 1, sealed := true)

  /** Two copies lost, the third consumed at once and its echo heard; a second campaign as early as it may start. */
  const BRISK_STEPS: seq<Step> :=
    [Start(17, 1, 1, 1000000), IssuerClock(1000000), IssuerClock(1020000), IssuerClock(1040000), ToCraft(Copy(1, 1), 1040000, Some(9), None),
     CraftClock(1040000), ToIssuer(ECHO), Start(17, 1, 1, 1120000), IssuerClock(1120000)]

  lemma {:induction false} ReachesOne(s: Session, w: World, e: Step, steps: seq<Step>, w': World)
    requires Enabled(w, e) && Reaches(s, Next(s, w, e), steps, w')
    ensures Reaches(s, w, [e] + steps, w')
  {
    hide Next, Enabled;
    assert ([e] + steps)[1..] == steps;
  }

  ghost predicate Awaiting(w: World, phase: Phase, nonce: U32, left: Byte, next: nat, start: nat) {
    && w.issuer.phase == phase && w.issuer.template == Copy(nonce, 0).(sealed := false) && w.issuer.target == 17 && w.issuer.nextNonce == nonce + 1
    && w.issuer.copiesLeft == left && w.issuer.nextCopyUs == next && w.issuer.lastStartUs == start
  }

  lemma FirstCampaign()
    ensures var w1 := Next(PAIR, Begin(PAIR), Start(17, 1, 1, 1000000));
            var w2 := Next(PAIR, w1, IssuerClock(1000000));
            var w3 := Next(PAIR, w2, IssuerClock(1020000));
            var w4 := Next(PAIR, w3, IssuerClock(1040000));
            && Starts(PAIR, Begin(PAIR), Start(17, 1, 1, 1000000)) && Awaiting(w4, AwaitEcho, 1, 0, 1060000, 1000000) && w4.craft == NEW_CRAFT && Copy(1, 1) in w4.air
  {
    var w1 := Next(PAIR, Begin(PAIR), Start(17, 1, 1, 1000000));
    assert Awaiting(w1, Sending, 1, 3, 1000000, 1000000) && w1.commands == [Command(1, 1, 1)];
    var w2 := Next(PAIR, w1, IssuerClock(1000000));
    assert Awaiting(w2, Sending, 1, 2, 1020000, 1000000);
    var w3 := Next(PAIR, w2, IssuerClock(1020000));
    assert Awaiting(w3, Sending, 1, 1, 1040000, 1000000);
    var t := IssuerTicked(BRISK, w3.issuer, 1040000);
    assert t.sent == Some(Copy(1, 1));
  }

  lemma SecondCampaign(w4: World)
    requires Awaiting(w4, AwaitEcho, 1, 0, 1060000, 1000000) && w4.craft == NEW_CRAFT && Copy(1, 1) in w4.air
    ensures var w5 := Next(PAIR, w4, ToCraft(Copy(1, 1), 1040000, Some(9), None));
            var w6 := Next(PAIR, w5, CraftClock(1040000));
            var w7 := Next(PAIR, w6, ToIssuer(ECHO));
            var w8 := Next(PAIR, w7, Start(17, 1, 1, 1120000));
            var w9 := Next(PAIR, w8, IssuerClock(1120000));
            && ECHO in w6.air && Starts(PAIR, w7, Start(17, 1, 1, 1120000)) && Copy(2, 3) in w9.air
            && Judged(BRISK, w9.craft, Copy(2, 3), 1120000, Some(9), None) == Ignored
  {
    var w5 := Next(PAIR, w4, ToCraft(Copy(1, 1), 1040000, Some(9), None));
    assert w5.craft.applied == map[(9, 7) := Outcome(1, 1, 1, true)] && w5.craft.lastAcceptUs == 1040000 && w5.craft.echoesLeft == 1;
    var w6 := Next(PAIR, w5, CraftClock(1040000));
    assert CraftTicked(BRISK, w5.craft, 1040000).sent == Some(ECHO);
    assert w6.craft.applied == w5.craft.applied && w6.craft.lastAcceptUs == 1040000;
    var w7 := Next(PAIR, w6, ToIssuer(ECHO));
    assert w7.issuer.phase == Phase.Rejected;
    var w8 := Next(PAIR, w7, Start(17, 1, 1, 1120000));
    assert w8.commands == w7.commands + [Command(2, 1, 1)] && w8.commands[|w7.commands|] == Command(2, 1, 1);
    assert Awaiting(w8, Sending, 2, 3, 1120000, 1120000);
    assert IssuerTicked(BRISK, w8.issuer, 1120000).sent == Some(Copy(2, 3));
  }

  /** In this run the first copy of a fresh campaign, delivered the moment it is sent, falls to the craft's limit. */
  lemma FreshCopyIgnored()
    ensures exists w :: Reaches(PAIR, Begin(PAIR), BRISK_STEPS, w) && Copy(2, 3) in w.air
                        && Judged(BRISK, w.craft, Copy(2, 3), 1120000, Some(9), None) == Ignored
  {
    hide *;
    FirstCampaign();
    var w0 := Begin(PAIR);
    var w1 := Next(PAIR, w0, Start(17, 1, 1, 1000000));
    var w2 := Next(PAIR, w1, IssuerClock(1000000));
    var w3 := Next(PAIR, w2, IssuerClock(1020000));
    var w4 := Next(PAIR, w3, IssuerClock(1040000));
    SecondCampaign(w4);
    var w5 := Next(PAIR, w4, ToCraft(Copy(1, 1), 1040000, Some(9), None));
    var w6 := Next(PAIR, w5, CraftClock(1040000));
    var w7 := Next(PAIR, w6, ToIssuer(ECHO));
    var w8 := Next(PAIR, w7, Start(17, 1, 1, 1120000));
    var w9 := Next(PAIR, w8, IssuerClock(1120000));
    Steps(w4, w6, w9);
    ReachesOne(PAIR, w8, IssuerClock(1120000), [], w9);
    ReachesOne(PAIR, w7, Start(17, 1, 1, 1120000), [IssuerClock(1120000)] + [], w9);
    var r7 := [Start(17, 1, 1, 1120000)] + ([IssuerClock(1120000)] + []);
    ReachesOne(PAIR, w6, ToIssuer(ECHO), r7, w9);
    ReachesOne(PAIR, w5, CraftClock(1040000), [ToIssuer(ECHO)] + r7, w9);
    var r5 := [CraftClock(1040000)] + ([ToIssuer(ECHO)] + r7);
    ReachesOne(PAIR, w4, ToCraft(Copy(1, 1), 1040000, Some(9), None), r5, w9);
    var r4 := [ToCraft(Copy(1, 1), 1040000, Some(9), None)] + r5;
    ReachesOne(PAIR, w3, IssuerClock(1040000), r4, w9);
    ReachesOne(PAIR, w2, IssuerClock(1020000), [IssuerClock(1040000)] + r4, w9);
    ReachesOne(PAIR, w1, IssuerClock(1000000), [IssuerClock(1020000)] + ([IssuerClock(1040000)] + r4), w9);
    ReachesOne(PAIR, w0, Start(17, 1, 1, 1000000), [IssuerClock(1000000)] + ([IssuerClock(1020000)] + ([IssuerClock(1040000)] + r4)), w9);
    AllSteps();
  }

  lemma AllSteps()
    ensures BRISK_STEPS == [Start(17, 1, 1, 1000000)] + ([IssuerClock(1000000)] + ([IssuerClock(1020000)] + ([IssuerClock(1040000)]
              + ([ToCraft(Copy(1, 1), 1040000, Some(9), None)] + ([CraftClock(1040000)] + ([ToIssuer(ECHO)]
              + ([Start(17, 1, 1, 1120000)] + ([IssuerClock(1120000)] + []))))))))
  {
    hide Copy, ECHO;
  }

  /** Only sealed packets on the air and engines' own steps are taken. */
  lemma Steps(w4: World, w6: World, w9: World)
    ensures Copy(1, 1) in w4.air ==> Enabled(w4, ToCraft(Copy(1, 1), 1040000, Some(9), None))
    ensures ECHO in w6.air ==> Enabled(w6, ToIssuer(ECHO))
    ensures forall w: World, now: nat :: Enabled(w, IssuerClock(now)) && Enabled(w, CraftClock(now)) && Enabled(w, Start(17, 1, 1, now))
    ensures Reaches(PAIR, w9, [], w9)
  {
  }
}
