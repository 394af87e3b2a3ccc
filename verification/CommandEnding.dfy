/** A command campaign is finite: how many copies it sends and when it is over. */
module CommandEnding {
  import opened Bytes
  import opened VehicleCmd

  /** An 8-bit countdown reaches zero after this many decrements; from zero it wraps. */
  function Countdown(n: Byte): (c: nat)
    ensures 1 <= c <= 256
  {
    if n == 0 then 256 else n
  }

  lemma CountdownLess(n: Byte)
    ensures Less(n) == 0 <==> Countdown(n) == 1
    ensures Less(n) != 0 ==> Countdown(Less(n)) == Countdown(n) - 1
  {
  }

  datatype Input = Clock(now: nat) | Echo(p: Packet)

  datatype Progress = Progress(issuer: Issuer, copies: nat)

  function Advanced(policy: Policy, g: Progress, x: Input): Progress {
    match x
    case Clock(now) =>
      var t := IssuerTicked(policy, g.issuer, now);
      Progress(t.issuer, g.copies + if t.sent.Some? then 1 else 0)
    case Echo(p) => Progress(Echoed(g.issuer, p), g.copies)
  }

  function Run(policy: Policy, g: Progress, inputs: seq<Input>): Progress
    decreases |inputs|
  {
    if inputs == [] then g else Run(policy, Advanced(policy, g, inputs[0]), inputs[1..])
  }

  // ---- copies ---------------------------------------------------------------------------------

  /** Copies the campaign may still send. */
  function Allowance(policy: Policy, i: Issuer): nat {
    match i.phase
    case Sending => (Countdown(i.campaignsLeft) - 1) * Countdown(policy.copies) + Countdown(i.copiesLeft)
    case AwaitEcho => (Countdown(i.campaignsLeft) - 1) * Countdown(policy.copies)
    case Idle => 0
    case Acked => 0
    case Rejected => 0
    case Timeout => 0
  }

  lemma OneRoundLess(c: nat, e: nat)
    requires c > 1
    ensures (c - 2) * e + e == (c - 1) * e
  {
  }

  lemma AdvanceSpends(policy: Policy, g: Progress, x: Input)
    ensures var g' := Advanced(policy, g, x); g'.copies + Allowance(policy, g'.issuer) <= g.copies + Allowance(policy, g.issuer)
  {
    CountdownLess(g.issuer.copiesLeft);
    CountdownLess(g.issuer.campaignsLeft);
    if Countdown(g.issuer.campaignsLeft) > 1 {
      OneRoundLess(Countdown(g.issuer.campaignsLeft), Countdown(policy.copies));
    }
  }

  lemma {:induction false} RunSpends(policy: Policy, g: Progress, inputs: seq<Input>)
    ensures var g' := Run(policy, g, inputs); g'.copies + Allowance(policy, g'.issuer) <= g.copies + Allowance(policy, g.issuer)
    decreases |inputs|
  {
    hide Advanced, Allowance;
    if inputs != [] {
      AdvanceSpends(policy, g, inputs[0]);
      RunSpends(policy, Advanced(policy, g, inputs[0]), inputs[1..]);
    }
  }

  /** A campaign sends at most copies times retry cap copies, whatever is heard and whenever it ticks; a zero counts as 256. */
  lemma CopiesBounded(policy: Policy, i: Issuer, originator: U16, session: U32, target: U16, id: Byte, arg: Byte,
                      now: nat, inputs: seq<Input>)
    requires MayStart(policy, i, target, id, arg, now)
    ensures Run(policy, Progress(Started(policy, i, originator, session, target, id, arg, now), 0), inputs).copies
            <= Countdown(policy.copies) * Countdown(policy.retryCap)
  {
    var g := Progress(Started(policy, i, originator, session, target, id, arg, now), 0);
    StartAllowance(policy, i, originator, session, target, id, arg, now);
    hide Started, MayStart, Run, Allowance, Countdown;
    RunSpends(policy, g, inputs);
  }

  lemma Rounds(c: nat, e: nat)
    requires c >= 1
    ensures (c - 1) * e + e == c * e == e * c
  {
  }

  lemma StartAllowance(policy: Policy, i: Issuer, originator: U16, session: U32, target: U16, id: Byte, arg: Byte,
                       now: nat)
    requires MayStart(policy, i, target, id, arg, now)
    ensures var i' := Started(policy, i, originator, session, target, id, arg, now);
            && Allowance(policy, i') == Countdown(policy.copies) * Countdown(policy.retryCap)
            && Remaining(policy, i') == Countdown(policy.retryCap) * (Countdown(policy.copies) + 1)
            && DueBy(i', now)
  {
    hide MayStart;
    var i' := Started(policy, i, originator, session, target, id, arg, now);
    assert i'.phase == Sending && i'.copiesLeft == policy.copies && i'.campaignsLeft == policy.retryCap && i'.nextCopyUs == now;
    hide Started, Countdown;
    Rounds(Countdown(policy.retryCap), Countdown(policy.copies));
    Rounds(Countdown(policy.retryCap), Countdown(policy.copies) + 1);
  }

  // ---- time -------------------------------------------------------------------------------------

  /** n campaigns of m ticks. */
  function Campaigns(n: nat, m: nat): nat {
    n * m
  }

  /** Ticks that are all due still needed to reach a terminal state. */
  function Remaining(policy: Policy, i: Issuer): nat {
    match i.phase
    case Sending => Campaigns(Countdown(i.campaignsLeft) - 1, Countdown(policy.copies) + 1) + Countdown(i.copiesLeft) + 1
    case AwaitEcho => Campaigns(Countdown(i.campaignsLeft) - 1, Countdown(policy.copies) + 1) + 1
    case Idle => 0
    case Acked => 0
    case Rejected => 0
    case Timeout => 0
  }

  /** The longer of the two waits, in microseconds. */
  function Pace(policy: Policy): nat {
    (if policy.copyIntervalMs > policy.ackTimeoutMs then policy.copyIntervalMs else policy.ackTimeoutMs) * 1000
  }

  predicate DueBy(i: Issuer, time: nat) {
    && (i.phase == Sending ==> i.nextCopyUs <= time)
    && (i.phase == AwaitEcho ==> i.echoDeadlineUs <= time)
  }

  /** How often a timer falls due that is rearmed for a pace after each tick that meets it. */
  function Beats(pace: nat, due: nat, inputs: seq<Input>): nat
    decreases |inputs|
  {
    if inputs == [] then 0
    else if inputs[0].Clock? && inputs[0].now >= due then 1 + Beats(pace, inputs[0].now + pace, inputs[1..])
    else Beats(pace, due, inputs[1..])
  }

  /** An earlier due time meets no fewer ticks. */
  lemma {:induction false} BeatsMore(pace: nat, early: nat, late: nat, inputs: seq<Input>)
    requires early <= late
    ensures Beats(pace, early, inputs) >= Beats(pace, late, inputs)
    decreases |inputs|
  {
    if inputs != [] {
      BeatsMore(pace, early, late, inputs[1..]);
      if inputs[0].Clock? && early <= inputs[0].now < late {
        var again := inputs[0].now + pace;
        if again <= late { BeatsMore(pace, again, late, inputs[1..]); } else { BeatsLater(pace, late, again, inputs[1..]); }
      }
    }
  }

  /** A delay within one pace costs one beat at most. */
  lemma {:induction false} BeatsLater(pace: nat, early: nat, late: nat, inputs: seq<Input>)
    requires early <= late <= early + pace
    ensures Beats(pace, late, inputs) + 1 >= Beats(pace, early, inputs)
    decreases |inputs|
  {
    if inputs != [] {
      BeatsLater(pace, early, late, inputs[1..]);
      if inputs[0].Clock? && early <= inputs[0].now < late { BeatsMore(pace, late, inputs[0].now + pace, inputs[1..]); }
    }
  }

  /** A tick either comes before the timer is due and changes nothing, or takes one step and rearms within a pace. */
  lemma OneTick(policy: Policy, g: Progress, due: nat, now: nat)
    requires DueBy(g.issuer, due) && Active(g.issuer)
    ensures var g' := Advanced(policy, g, Clock(now));
            || (now < due && g' == g)
            || (DueBy(g'.issuer, now + Pace(policy)) && Remaining(policy, g'.issuer) == Remaining(policy, g.issuer) - 1)
  {
    CountdownLess(g.issuer.copiesLeft);
    CountdownLess(g.issuer.campaignsLeft);
    if Countdown(g.issuer.campaignsLeft) > 1 {
      OneRoundLess(Countdown(g.issuer.campaignsLeft), Countdown(policy.copies) + 1);
    }
  }

  lemma {:induction false} StaysOver(policy: Policy, g: Progress, inputs: seq<Input>)
    requires !Active(g.issuer)
    ensures Run(policy, g, inputs) == g
    decreases |inputs|
  {
    if inputs != [] { StaysOver(policy, g, inputs[1..]); }
  }

  lemma {:induction false} RunEnds(policy: Policy, g: Progress, due: nat, inputs: seq<Input>)
    requires DueBy(g.issuer, due) && Beats(Pace(policy), due, inputs) >= Remaining(policy, g.issuer)
    ensures !Active(Run(policy, g, inputs).issuer)
    decreases |inputs|
  {
    hide Campaigns, Countdown;
    if !Active(g.issuer) {
      StaysOver(policy, g, inputs);
    } else if inputs != [] {
      var g', pace, rest := Advanced(policy, g, inputs[0]), Pace(policy), inputs[1..];
      match inputs[0] {
        case Clock(now) =>
          OneTick(policy, g, due, now);
          hide Advanced, Pace;
          if g' == g {
            RunEnds(policy, g', due, rest);
          } else {
            var again := now + pace;
            if again < due { BeatsMore(pace, again, due, rest); } else if now < due { BeatsLater(pace, due, again, rest); }
            RunEnds(policy, g', again, rest);
          }
        case Echo(_) =>
          hide Pace, Answers;
          RunEnds(policy, g', due, rest);
      }
    }
  }

  /** Time never goes back, and starts no earlier than the campaign. */
  predicate Flowing(start: nat, inputs: seq<Input>) {
    && (forall i :: 0 <= i < |inputs| && inputs[i].Clock? ==> inputs[i].now >= start)
    && (forall i, j :: 0 <= i < j < |inputs| && inputs[i].Clock? && inputs[j].Clock? ==> inputs[i].now <= inputs[j].now)
  }

  /** Positions, from n on, of ticks at least a pace apart; between them anything may come. */
  predicate Apart(pace: nat, n: nat, inputs: seq<Input>, marks: seq<nat>) {
    && (forall i :: 0 <= i < |marks| ==> n <= marks[i] < |inputs| && inputs[marks[i]].Clock?)
    && (forall i, j :: 0 <= i < j < |marks| ==> marks[i] < marks[j] && inputs[marks[i]].now + pace <= inputs[marks[j]].now)
  }

  /** Extra ticks cost nothing: a timer beats at least as often as there are ticks a pace apart. */
  lemma {:induction false} MarksBeat(pace: nat, start: nat, due: nat, inputs: seq<Input>, n: nat, marks: seq<nat>)
    requires Flowing(start, inputs) && n <= |inputs| && Apart(pace, n, inputs, marks)
    requires marks != [] ==> inputs[marks[0]].now >= due
    ensures Beats(pace, due, inputs[n..]) >= |marks|
    decreases |inputs| - n
  {
    if marks != [] {
      var x, rest := inputs[n], marks[1..];
      assert inputs[n..][1..] == inputs[n + 1..];
      assert rest != [] ==> rest[0] == marks[1];
      if x.Clock? && x.now >= due {
        MarksBeat(pace, start, x.now + pace, inputs, n + 1, rest);
      } else {
        MarksBeat(pace, start, due, inputs, n + 1, marks);
      }
    }
  }

  /** However often it is ticked, a campaign is over once retry cap times copies-plus-one ticks lay a pace apart, answered or not. */
  lemma CampaignEnds(policy: Policy, i: Issuer, originator: U16, session: U32, target: U16, id: Byte, arg: Byte,
                     now: nat, inputs: seq<Input>, marks: seq<nat>)
    requires MayStart(policy, i, target, id, arg, now) && Flowing(now, inputs) && Apart(Pace(policy), 0, inputs, marks)
    requires |marks| >= Countdown(policy.retryCap) * (Countdown(policy.copies) + 1)
    ensures !Active(Run(policy, Progress(Started(policy, i, originator, session, target, id, arg, now), 0), inputs).issuer)
  {
    StartAllowance(policy, i, originator, session, target, id, arg, now);
    MarksBeat(Pace(policy), now, now, inputs, 0, marks);
    assert inputs[0..] == inputs;
    hide Started, MayStart, Run, Remaining, Countdown, DueBy, Flowing, Apart, Beats;
    RunEnds(policy, Progress(Started(policy, i, originator, session, target, id, arg, now), 0), now, inputs);
  }

  // ---- nobody answers ---------------------------------------------------------------------------

  /** Without an echo nothing is lost: a copy allowed is a copy sent or a copy still to come. */
  lemma TickSpends(policy: Policy, g: Progress, now: nat)
    requires Active(g.issuer)
    ensures var g' := Advanced(policy, g, Clock(now));
            && g'.copies + Allowance(policy, g'.issuer) == g.copies + Allowance(policy, g.issuer)
            && (Active(g'.issuer) || g'.issuer.phase == Timeout)
  {
    CountdownLess(g.issuer.copiesLeft);
    CountdownLess(g.issuer.campaignsLeft);
    if Countdown(g.issuer.campaignsLeft) > 1 {
      OneRoundLess(Countdown(g.issuer.campaignsLeft), Countdown(policy.copies));
    }
  }

  lemma {:induction false} RunSpendsAll(policy: Policy, g: Progress, inputs: seq<Input>)
    requires (Active(g.issuer) || g.issuer.phase == Timeout) && forall i :: 0 <= i < |inputs| ==> inputs[i].Clock?
    ensures var g' := Run(policy, g, inputs);
            && g'.copies + Allowance(policy, g'.issuer) == g.copies + Allowance(policy, g.issuer)
            && (Active(g'.issuer) || g'.issuer.phase == Timeout)
    decreases |inputs|
  {
    if !Active(g.issuer) {
      StaysOver(policy, g, inputs);
    } else if inputs != [] {
      TickSpends(policy, g, inputs[0].now);
      hide Advanced, Allowance;
      RunSpendsAll(policy, Advanced(policy, g, inputs[0]), inputs[1..]);
    }
  }

  /** The bound on copies is met: a campaign nobody answers sends exactly copies times retry cap and times out. */
  lemma UnansweredSpendsAll(policy: Policy, i: Issuer, originator: U16, session: U32, target: U16, id: Byte, arg: Byte,
                            now: nat, inputs: seq<Input>, marks: seq<nat>)
    requires MayStart(policy, i, target, id, arg, now) && Flowing(now, inputs) && Apart(Pace(policy), 0, inputs, marks)
    requires |marks| >= Countdown(policy.retryCap) * (Countdown(policy.copies) + 1)
    requires forall n :: 0 <= n < |inputs| ==> inputs[n].Clock?
    ensures var g := Run(policy, Progress(Started(policy, i, originator, session, target, id, arg, now), 0), inputs);
            g.copies == Countdown(policy.copies) * Countdown(policy.retryCap) && g.issuer.phase == Timeout
  {
    CampaignEnds(policy, i, originator, session, target, id, arg, now, inputs, marks);
    StartAllowance(policy, i, originator, session, target, id, arg, now);
    var g := Progress(Started(policy, i, originator, session, target, id, arg, now), 0);
    assert Active(g.issuer);
    hide Started, MayStart, Run, Countdown, Flowing, Apart;
    RunSpendsAll(policy, g, inputs);
  }

  /** Ticks a pace apart. */
  function Pulse(pace: nat, now: nat, n: nat): (inputs: seq<Input>)
    ensures |inputs| == n && forall k :: 0 <= k < n ==> inputs[k] == Clock(now + k * pace)
  {
    seq(n, k requires k >= 0 => Clock(now + k * pace))
  }

  lemma PulseApart(pace: nat, now: nat, n: nat)
    ensures Flowing(now, Pulse(pace, now, n)) && Apart(pace, 0, Pulse(pace, now, n), seq(n, k => k))
  {
    var inputs, marks := Pulse(pace, now, n), seq(n, k => k);
    forall i | 0 <= i < n ensures marks[i] == i && inputs[i].Clock? && inputs[i].now >= now {
    }
    forall i, j | 0 <= i < j < n ensures inputs[i].now + pace <= inputs[j].now {
      Multiples(pace, i, j);
    }
  }

  lemma {:induction false} Multiples(pace: nat, i: nat, j: nat)
    requires i < j
    ensures i * pace + pace <= j * pace
    decreases j
  {
    assert (j - 1) * pace + pace == j * pace;
    if i < j - 1 { Multiples(pace, i, j - 1); }
  }

  /** A zero really counts as 256: with no copies configured and one try, 256 copies go out. */
  lemma ZeroCopiesSends256(policy: Policy, i: Issuer, originator: U16, session: U32, target: U16, id: Byte, arg: Byte,
                           now: nat)
    requires policy.copies == 0 && policy.retryCap == 1 && MayStart(policy, i, target, id, arg, now)
    ensures var g := Progress(Started(policy, i, originator, session, target, id, arg, now), 0);
            Run(policy, g, Pulse(Pace(policy), now, 257)).copies == 256
  {
    PulseApart(Pace(policy), now, 257);
    hide Started, MayStart, Run, Flowing, Apart;
    UnansweredSpendsAll(policy, i, originator, session, target, id, arg, now, Pulse(Pace(policy), now, 257), seq(257, k => k));
  }

  /** So does a retry cap of zero: with one copy a try, 256 copies go out. */
  lemma ZeroRetriesSends256(policy: Policy, i: Issuer, originator: U16, session: U32, target: U16, id: Byte, arg: Byte,
                            now: nat)
    requires policy.copies == 1 && policy.retryCap == 0 && MayStart(policy, i, target, id, arg, now)
    ensures var g := Progress(Started(policy, i, originator, session, target, id, arg, now), 0);
            Run(policy, g, Pulse(Pace(policy), now, 512)).copies == 256
  {
    PulseApart(Pace(policy), now, 512);
    hide Started, MayStart, Run, Flowing, Apart;
    UnansweredSpendsAll(policy, i, originator, session, target, id, arg, now, Pulse(Pace(policy), now, 512), seq(512, k => k));
  }
}
