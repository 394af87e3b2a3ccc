/** An issuer's campaign from its start to its end: when it is decided, and exactly when its verify window closes. */
module CsaEnding {
  import opened Bytes
  import opened Csa

  /** What an issuer sees of the world during a campaign. */
  datatype Input = Tick(now: nat) | Video(now: nat, armed: bool) | Flag

  /** The issuer; when its verify window opened, at its first tick there or T_switch; and when the craft's landing was noted. */
  datatype Trace = Trace(i: Issuer, open: Option<nat>, landing: Option<nat>)

  function Later(x: nat, y: nat): nat {
    if x > y then x else y
  }

  function Seen(policy: Policy, t: Trace, x: Input): Trace {
    match x
    case Tick(now) =>
      Trace(IssuerTicked(policy, t.i, now).i,
            if t.i.state == Verifying && t.open.None? then Some(Later(now, t.i.switchAt)) else t.open, t.landing)
    case Video(now, armed) =>
      Trace(VideoNoted(policy, t.i, now, armed), t.open,
            if t.i.state == Verifying && armed && now >= t.i.switchAt && t.landing.None? then Some(now) else t.landing)
    case Flag => t.(i := ArmedNoted(t.i))
  }

  function Run(policy: Policy, t: Trace, inputs: seq<Input>): Trace {
    if inputs == [] then t
    else Seen(policy, Run(policy, t, inputs[..|inputs| - 1]), inputs[|inputs| - 1])
  }

  /** A campaign from its start on. */
  function Campaign(policy: Policy, i: Issuer, m: Move, start: nat, inputs: seq<Input>): Trace {
    Run(policy, Trace(Started(policy, i, m, start), None, None), inputs)
  }

  function SwitchTime(start: nat): nat {
    start + DT_MS * 1000
  }

  /** The verify window in microseconds. */
  function Window(policy: Policy): nat {
    policy.verifyMs * 1000
  }

  // ---- what the trace says of the deadline ------------------------------------------------------------

  /** The landing moves the deadline, else the opening sets it; zero stands for none yet. */
  predicate Faithful(policy: Policy, start: nat, t: Trace) {
    && t.i.switchAt == SwitchTime(start)
    && (t.open.Some? ==> t.open.value >= SwitchTime(start)) && (t.landing.Some? ==> t.landing.value >= SwitchTime(start))
    && match t.i.state
       case Announce => t.open.None? && t.landing.None? && !t.i.landingSeen
       case AwaitAck => t.open.None? && t.landing.None? && !t.i.landingSeen
       case Verifying =>
         && t.i.landingSeen == t.landing.Some?
         && t.i.verifyDeadline == (if t.landing.Some? then t.landing.value + Window(policy)
                                   else if t.open.Some? then t.open.value + Window(policy) else 0)
       case Quiet => true
  }

  lemma SeenFaithful(policy: Policy, start: nat, t: Trace, x: Input)
    requires Faithful(policy, start, t)
    ensures Faithful(policy, start, Seen(policy, t, x))
  {
    hide StampMs;
  }

  lemma {:induction false} CampaignFaithful(policy: Policy, i: Issuer, m: Move, start: nat, inputs: seq<Input>)
    requires MayStart(policy, i, m, start)
    ensures Faithful(policy, start, Campaign(policy, i, m, start, inputs))
  {
    if inputs != [] {
      var before := inputs[..|inputs| - 1];
      CampaignFaithful(policy, i, m, start, before);
      hide Faithful, Seen, Started, MayStart;
      SeenFaithful(policy, start, Campaign(policy, i, m, start, before), inputs[|inputs| - 1]);
    }
  }

  // ---- the decision ---------------------------------------------------------------------------------

  /** Ticks at or past a time. */
  function LateTicks(inputs: seq<Input>, time: nat): nat {
    if inputs == [] then 0
    else
      var x := inputs[|inputs| - 1];
      LateTicks(inputs[..|inputs| - 1], time) + if x.Tick? && x.now >= time then 1 else 0
  }

  /** What is left to decide after so many ticks past the switch. */
  predicate Decided(t: Trace, late: nat) {
    match t.i.state
    case Announce => late == 0
    case AwaitAck => late <= 1
    case Verifying => t.open.Some? || late <= 2
    case Quiet => true
  }

  lemma {:induction false} CampaignDecided(policy: Policy, i: Issuer, m: Move, start: nat, inputs: seq<Input>)
    requires MayStart(policy, i, m, start)
    ensures Decided(Campaign(policy, i, m, start, inputs), LateTicks(inputs, SwitchTime(start)))
  {
    if inputs != [] {
      var before, x := inputs[..|inputs| - 1], inputs[|inputs| - 1];
      CampaignDecided(policy, i, m, start, before);
      CampaignFaithful(policy, i, m, start, before);
      hide Started, MayStart, Run;
      DecidedStep(policy, start, Campaign(policy, i, m, start, before), x, LateTicks(before, SwitchTime(start)));
      CampaignStep(policy, i, m, start, before, x);
    }
  }

  lemma CampaignStep(policy: Policy, i: Issuer, m: Move, start: nat, before: seq<Input>, x: Input)
    ensures Campaign(policy, i, m, start, before + [x]) == Seen(policy, Campaign(policy, i, m, start, before), x)
  {
    assert (before + [x])[..|before|] == before;
  }

  lemma DecidedStep(policy: Policy, start: nat, t: Trace, x: Input, late: nat)
    requires Decided(t, late) && Faithful(policy, start, t)
    ensures Decided(Seen(policy, t, x), late + if x.Tick? && x.now >= SwitchTime(start) then 1 else 0)
  {
    hide StampMs;
  }

  /** Whatever was missed before, three ticks past the switch leave the campaign given up or in its opened verify window. */
  lemma ThreeTicksDecide(policy: Policy, i: Issuer, m: Move, start: nat, inputs: seq<Input>)
    requires MayStart(policy, i, m, start) && LateTicks(inputs, SwitchTime(start)) >= 3
    ensures var t := Campaign(policy, i, m, start, inputs); t.i.state == Quiet || (t.i.state == Verifying && t.open.Some?)
  {
    CampaignDecided(policy, i, m, start, inputs);
    hide Campaign, LateTicks;
  }

  // ---- the end of the window --------------------------------------------------------------------------

  /** When the window closes: a verify time after the landing, or after its opening if no landing was noted. */
  function Closing(policy: Policy, t: Trace): nat
    requires t.open.Some?
  {
    (if t.landing.Some? then t.landing.value else t.open.value) + Window(policy)
  }

  /** In every campaign, a tick in the verify window ends it exactly when it comes at or past the closing. */
  lemma ClosesExactly(policy: Policy, i: Issuer, m: Move, start: nat, inputs: seq<Input>, now: nat)
    requires MayStart(policy, i, m, start) && Campaign(policy, i, m, start, inputs).i.state == Verifying
    ensures var t := Campaign(policy, i, m, start, inputs + [Tick(now)]);
            t.open.Some? && (t.i.state == Quiet <==> now >= Closing(policy, t)) && (t.i.state == Quiet || t.i.state == Verifying)
  {
    CampaignStep(policy, i, m, start, inputs, Tick(now));
    CampaignFaithful(policy, i, m, start, inputs);
    hide Campaign, Started, MayStart, StampMs;
  }

  /**
   * So a tick at or past twice the verify time from the opening ends the campaign exactly when no landing was noted or a
   * verify time has passed since; which is always so when the landing was noted within one verify time of the opening,
   * and at the very end of the two exactly then.
   */
  lemma TwiceExactly(policy: Policy, i: Issuer, m: Move, start: nat, inputs: seq<Input>, now: nat)
    requires MayStart(policy, i, m, start) && Campaign(policy, i, m, start, inputs).i.state == Verifying
    requires var t := Campaign(policy, i, m, start, inputs + [Tick(now)]); t.open.Some? && now >= t.open.value + 2 * Window(policy)
    ensures var t := Campaign(policy, i, m, start, inputs + [Tick(now)]);
            && (t.i.state == Quiet <==> t.landing.None? || t.landing.value + Window(policy) <= now)
            && (t.landing.None? || t.landing.value <= t.open.value + Window(policy) ==> t.i.state == Quiet)
            && (now == t.open.value + 2 * Window(policy) && t.i.state == Quiet ==>
                  t.landing.None? || t.landing.value <= t.open.value + Window(policy))
  {
    ClosesExactly(policy, i, m, start, inputs, now);
    hide Campaign, Window;
  }

  // ---- from the start to the end ------------------------------------------------------------------------

  /** Time does not go back between ticks. */
  predicate Onward(inputs: seq<Input>) {
    forall j, k :: 0 <= j < k < |inputs| && inputs[j].Tick? && inputs[k].Tick? ==> inputs[j].now <= inputs[k].now
  }

  /** What is known once the window is open or the campaign over stays so. */
  lemma {:induction false} TraceStays(policy: Policy, t: Trace, more: seq<Input>)
    ensures var u := Run(policy, t, more);
            && (t.open.Some? ==> u.open == t.open) && (t.landing.Some? ==> u.landing == t.landing)
            && (t.i.state == Quiet ==> u.i.state == Quiet)
  {
    if more != [] {
      TraceStays(policy, t, more[..|more| - 1]);
      hide StampMs, Run;
    }
  }

  lemma {:induction false} RunSplits(policy: Policy, t: Trace, some: seq<Input>, more: seq<Input>)
    ensures Run(policy, t, some + more) == Run(policy, Run(policy, t, some), more)
    decreases |more|
  {
    if more == [] {
      assert some + more == some;
    } else {
      var init, x := more[..|more| - 1], more[|more| - 1];
      assert (some + more)[..|some + more| - 1] == some + init;
      RunSplits(policy, t, some, init);
    }
  }

  /** Where a campaign stands after its first inputs, against where it ends. */
  lemma PrefixStays(policy: Policy, i: Issuer, m: Move, start: nat, inputs: seq<Input>, n: nat)
    requires n <= |inputs|
    ensures var t, u := Campaign(policy, i, m, start, inputs[..n]), Campaign(policy, i, m, start, inputs);
            && (t.open.Some? ==> u.open == t.open) && (t.landing.Some? ==> u.landing == t.landing)
            && (t.i.state == Quiet ==> u.i.state == Quiet)
  {
    var t := Trace(Started(policy, i, m, start), None, None);
    hide Started, Run;
    RunSplits(policy, t, inputs[..n], inputs[n..]);
    assert inputs[..n] + inputs[n..] == inputs;
    TraceStays(policy, Run(policy, t, inputs[..n]), inputs[n..]);
  }

  /** The window opens no later than the last tick, once that lies past the switch. */
  lemma {:induction false} OpensBy(policy: Policy, i: Issuer, m: Move, start: nat, inputs: seq<Input>, time: nat)
    requires MayStart(policy, i, m, start) && time >= SwitchTime(start)
    requires forall k :: 0 <= k < |inputs| && inputs[k].Tick? ==> inputs[k].now <= time
    ensures var t := Campaign(policy, i, m, start, inputs); t.open.Some? ==> t.open.value <= time
  {
    if inputs != [] {
      var before, x := inputs[..|inputs| - 1], inputs[|inputs| - 1];
      forall k | 0 <= k < |before| && before[k].Tick? ensures before[k].now <= time { assert inputs[k] == before[k]; }
      OpensBy(policy, i, m, start, before, time);
      CampaignFaithful(policy, i, m, start, before);
      CampaignStep(policy, i, m, start, before, x);
      assert before + [x] == inputs;
      hide Campaign, Started, MayStart, StampMs, IssuerTicked;
    }
  }

  lemma {:induction false} LateTickSeen(inputs: seq<Input>, time: nat)
    requires LateTicks(inputs, time) > 0
    ensures exists k :: 0 <= k < |inputs| && inputs[k].Tick? && inputs[k].now >= time
  {
    var before, x := inputs[..|inputs| - 1], inputs[|inputs| - 1];
    if !(x.Tick? && x.now >= time) {
      LateTickSeen(before, time);
      var k :| 0 <= k < |before| && before[k].Tick? && before[k].now >= time;
      assert inputs[k] == before[k];
    }
  }

  /** Once the window is open, a campaign is quiet after any tick at or past a verify time from its opening and from its landing. */
  lemma QuietAfter(policy: Policy, i: Issuer, m: Move, start: nat, inputs: seq<Input>, k: nat)
    requires MayStart(policy, i, m, start) && k < |inputs| && inputs[k].Tick?
    requires Campaign(policy, i, m, start, inputs[..k + 1]).open.Some?
    requires var u := Campaign(policy, i, m, start, inputs);
             && (u.open.Some? ==> inputs[k].now >= u.open.value + Window(policy))
             && (u.landing.Some? ==> inputs[k].now >= u.landing.value + Window(policy))
    ensures Campaign(policy, i, m, start, inputs).i.state == Quiet
  {
    var before, now := inputs[..k], inputs[k].now;
    assert inputs[..k + 1] == before + [Tick(now)] && (before + [Tick(now)])[..k] == before;
    PrefixStays(policy, i, m, start, inputs, k);
    PrefixStays(policy, i, m, start, inputs, k + 1);
    PrefixStays(policy, i, m, start, before + [Tick(now)], k);
    CampaignFaithful(policy, i, m, start, before);
    CampaignStep(policy, i, m, start, before, Tick(now));
    hide Campaign, MayStart, Started, StampMs, IssuerTicked;
    if Campaign(policy, i, m, start, before).i.state == Verifying { ClosesExactly(policy, i, m, start, before, now); }
  }

  /**
   * A campaign ends. Once the third tick past the switch has come, the first tick a verify time later ends it, or the
   * first a verify time after the landing if that is later; whatever frames and flags come in between.
   */
  lemma CampaignOver(policy: Policy, i: Issuer, m: Move, start: nat, inputs: seq<Input>, third: nat, last: nat)
    requires MayStart(policy, i, m, start) && Onward(inputs) && third < last < |inputs| && inputs[third].Tick? && inputs[last].Tick?
    requires LateTicks(inputs[..third + 1], SwitchTime(start)) >= 3
    requires inputs[last].now >= inputs[third].now + Window(policy)
    requires var landing := Campaign(policy, i, m, start, inputs).landing;
             landing.Some? ==> inputs[last].now >= landing.value + Window(policy)
    ensures Campaign(policy, i, m, start, inputs).i.state == Quiet
  {
    hide Campaign, Decided, MayStart, Started;
    var early, upto := inputs[..third + 1], inputs[..last + 1];
    LateTickSeen(early, SwitchTime(start));
    ThreeTicksDecide(policy, i, m, start, early);
    OpensBy(policy, i, m, start, early, inputs[third].now);
    assert upto[..third + 1] == early;
    PrefixStays(policy, i, m, start, upto, third + 1);
    PrefixStays(policy, i, m, start, inputs, last + 1);
    if Campaign(policy, i, m, start, upto).i.state != Quiet { QuietAfter(policy, i, m, start, inputs, last); }
  }

  // ---- commit or give up ----------------------------------------------------------------------------

  /** The craft's flag and the decision: given up means quiet without a window. */
  predicate Flagged(t: Trace) {
    match t.i.state
    case Announce => t.i.armedSeen
    case AwaitAck => t.i.armedSeen
    case Verifying => true
    case Quiet => t.open.Some?
  }

  lemma {:induction false} NotGivenUpEarly(policy: Policy, i: Issuer, m: Move, start: nat, inputs: seq<Input>)
    requires MayStart(policy, i, m, start) && LateTicks(inputs, SwitchTime(start)) == 0
    ensures Campaign(policy, i, m, start, inputs).i.state != Quiet
  {
    if inputs != [] {
      var before, x := inputs[..|inputs| - 1], inputs[|inputs| - 1];
      NotGivenUpEarly(policy, i, m, start, before);
      CampaignFaithful(policy, i, m, start, before);
      CampaignStep(policy, i, m, start, before, x);
      assert before + [x] == inputs;
      hide Campaign, MayStart, Started, StampMs;
    }
  }

  lemma {:induction false} StaysFlagged(policy: Policy, t: Trace, more: seq<Input>)
    requires Flagged(t)
    ensures Flagged(Run(policy, t, more))
  {
    if more != [] {
      StaysFlagged(policy, t, more[..|more| - 1]);
      hide StampMs, Run;
    }
  }

  /** A campaign whose flag is heard before any tick past the switch is never given up; one without a flag never commits. */
  lemma FlagDecides(policy: Policy, i: Issuer, m: Move, start: nat, before: seq<Input>, after: seq<Input>)
    requires MayStart(policy, i, m, start) && LateTicks(before, SwitchTime(start)) == 0
    ensures var t := Campaign(policy, i, m, start, before + [Flag] + after); t.i.state == Quiet ==> t.open.Some?
  {
    NotGivenUpEarly(policy, i, m, start, before);
    CampaignStep(policy, i, m, start, before, Flag);
    hide Started, Run;
    var t := Trace(Started(policy, i, m, start), None, None);
    RunSplits(policy, t, before + [Flag], after);
    StaysFlagged(policy, Run(policy, t, before + [Flag]), after);
  }

  lemma {:induction false} NoFlagNoCommit(policy: Policy, i: Issuer, m: Move, start: nat, inputs: seq<Input>)
    requires MayStart(policy, i, m, start) && Flag !in inputs
    ensures var t := Campaign(policy, i, m, start, inputs); t.i.state != Verifying && t.open.None? && !t.i.armedSeen
  {
    if inputs != [] {
      var before, x := inputs[..|inputs| - 1], inputs[|inputs| - 1];
      assert x in inputs;
      NoFlagNoCommit(policy, i, m, start, before);
      CampaignStep(policy, i, m, start, before, x);
      assert before + [x] == inputs;
      hide Campaign, MayStart, Started, StampMs;
    }
  }

  // ---- a campaign that outlasts twice the verify time -------------------------------------------------

  /** The craft armed in time; its first armed frame is noted with no tick since the window should have closed. */
  const LATE_LANDING: seq<Input> :=
    [Flag, Tick(4_960_000), Tick(5_000_000), Tick(5_000_000), Video(5_190_000, true), Tick(5_200_000)]

  /** With 100 ms to verify, the window opens at 5 s, and at 5.2 s the issuer still verifies. */
  lemma LateLandingOutlasts(policy: Policy, i: Issuer, m: Move)
    requires MayStart(policy, i, m, 0) && policy.verifyMs == 100
    ensures var t := Campaign(policy, i, m, 0, LATE_LANDING);
            && t.open == Some(5_000_000) && t.landing == Some(5_190_000)
            && t.i.state == Verifying && 5_200_000 == t.open.value + 2 * Window(policy) && t.i.verifyDeadline == 5_290_000
  {
    hide MayStart, StampMs, Campaign;
    var x := LATE_LANDING;
    assert x == [x[0]] + [x[1]] + [x[2]] + [x[3]] + [x[4]] + [x[5]];
    assert [] + [x[0]] == [x[0]];
    CampaignNone(policy, i, m, 0);
    CampaignStep(policy, i, m, 0, [], x[0]);
    CampaignStep(policy, i, m, 0, [x[0]], x[1]);
    CampaignStep(policy, i, m, 0, [x[0]] + [x[1]], x[2]);
    CampaignStep(policy, i, m, 0, [x[0]] + [x[1]] + [x[2]], x[3]);
    CampaignStep(policy, i, m, 0, [x[0]] + [x[1]] + [x[2]] + [x[3]], x[4]);
    CampaignStep(policy, i, m, 0, [x[0]] + [x[1]] + [x[2]] + [x[3]] + [x[4]], x[5]);
  }

  lemma CampaignNone(policy: Policy, i: Issuer, m: Move, start: nat)
    ensures Campaign(policy, i, m, start, []) == Trace(Started(policy, i, m, start), None, None)
  {
  }
}
