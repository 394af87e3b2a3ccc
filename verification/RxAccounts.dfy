/** Where a receive stream's packets go, when it starts over, and when a best-effort stream gives a gap up. */
module RxAccounts {
  import opened Bytes
  import opened FrameBlock
  import opened RxSpec
  import opened RxRuns
  import opened RxDeadlines

  // ---- every packet is counted once ------------------------------------------------------------------

  function PacketCount(inputs: seq<Input>): nat {
    if inputs == [] then 0 else (if inputs[0].Packets? then 1 else 0) + PacketCount(inputs[1..])
  }

  function Counted(s: Stream): nat {
    s.tally.uniq + s.tally.diversity + s.tally.clampRejected
  }

  lemma {:induction false} AdvancedCounted(s: Stream, now: nat)
    ensures Counted(Advanced(s, now)) == Counted(s)
    decreases s.maxSeq - s.cursor + 1
  {
    hide SkipReason, Pruned;
    if s.cursor <= s.maxSeq && s.cursor + 1 < SEQ_END {
      if s.cursor in s.held {
        AdvancedCounted(AfterConsumed(s), now);
      } else if s.cursor in s.gaps && SkipReason(s, s.gaps[s.cursor], now).Some? {
        AdvancedCounted(Stepped(GivenUp(s, SkipReason(s, s.gaps[s.cursor], now).value)), now);
      }
    }
  }

  lemma EvaluatedCounted(policy: Policy, s: Stream, live: Option<U32>, now: nat)
    ensures Counted(Evaluated(policy, s, live, now)) == Counted(s)
  {
  }

  lemma EntryCounted(policy: Policy, s: Stream, p: Packet, now: nat)
    ensures var e := Entering(policy, s, p, now);
            e.s.tally.resyncs == s.tally.resyncs ==> Counted(e.s) == Counted(s) + if e.Refused? then 1 else 0
  {
  }

  lemma TakenCounted(policy: Policy, s: Stream, p: Packet, budget: nat, early: Option<Early>, now: nat)
    requires p.sequence in GapsNoted(policy, Filed(s, p, budget, now), now).held
    ensures Counted(Offered(policy, GapsNoted(policy, Filed(s, p, budget, now), now), p, early)) == Counted(s) + 1
  {
    hide GapBlock, Trimmed, NewGap;
  }

  lemma HeardCounted(policy: Policy, s: Stream, x: Input)
    requires x.Packets? && Judging(policy, s, x).tally.resyncs == s.tally.resyncs
    ensures Counted(Judging(policy, s, x)) == Counted(s) + 1
  {
    hide Entering, Filed, GapsNoted, Offered, Evaluated, Duplicate;
    var s1 := s.(bestEffort := s.bestEffort || x.mismatch);
    var e := Entering(policy, s1, x.p, x.now);
    EntryCounted(policy, s1, x.p, x.now);
    EntryResyncs(policy, s1, x);
    if e.Entered? && !Duplicate(e.s, x.p) {
      NotedRecord(policy, Filed(e.s, x.p, x.budget, x.now), x.now);
      FiledHas(e.s, x.p, x.budget, x.now);
      TakenCounted(policy, e.s, x.p, x.budget, x.early, x.now);
      EvaluatedCounted(policy, Offered(policy, GapsNoted(policy, Filed(e.s, x.p, x.budget, x.now), x.now), x.p, x.early), x.live, x.now);
    }
  }

  lemma FiledHas(s: Stream, p: Packet, budget: nat, now: nat)
    ensures p.sequence in Filed(s, p, budget, now).held
  {
  }

  lemma NextCounted(policy: Policy, s: Stream, x: Input)
    requires Inv(policy, s) && Next(policy, s, x).tally.resyncs == s.tally.resyncs
    ensures Counted(Next(policy, s, x)) == Counted(s) + if x.Packets? then 1 else 0
  {
    hide *;
    JudgingResyncs(policy, s, x);
    JudgingNext(policy, s, x);
    AdvancedCounted(Judging(policy, s, x), x.now);
    if x.Packets? { HeardCounted(policy, s, x); } else { OthersCounted(policy, s, x); }
  }

  lemma OthersCounted(policy: Policy, s: Stream, x: Input)
    requires !x.Packets?
    ensures Counted(Judging(policy, s, x)) == Counted(s)
  {
    hide Evaluated;
    EvaluatedCounted(policy, if x.FrameDone? then Completed(policy, s, x.block) else s, x.live, x.now);
  }

  /** Between floors every packet of the stream is new, a duplicate or refused, and counted as one of them. */
  lemma {:induction false} PacketsCounted(policy: Policy, s: Stream, inputs: seq<Input>)
    requires Inv(policy, s) && Run(policy, s, inputs).tally.resyncs == s.tally.resyncs
    ensures var t, u := s.tally, Run(policy, s, inputs).tally;
            u.uniq + u.diversity + u.clampRejected == t.uniq + t.diversity + t.clampRejected + PacketCount(inputs)
    decreases |inputs|
  {
    hide Inv, Next;
    if inputs != [] {
      var r := Next(policy, s, inputs[0]);
      NextKeeps(policy, s, inputs[0]);
      JudgingResyncs(policy, s, inputs[0]);
      RunResyncs(policy, r, inputs[1..]);
      NextCounted(policy, s, inputs[0]);
      PacketsCounted(policy, r, inputs[1..]);
    }
  }

  // ---- starting over -----------------------------------------------------------------------------------

  /** The packet was turned away at the clamps. */
  predicate TurnedAway(s: Stream, r: Stream) {
    r.tally.clampRejected > s.tally.clampRejected && r.tally.resyncs == s.tally.resyncs
  }

  /** When the first of the packets turned away since the last one let in came; a time of 0 counts as none. */
  function StormOf(s: Stream, r: Stream, since: nat, x: Input): nat {
    if r.tally.resyncs > s.tally.resyncs then 0
    else if !x.Packets? then since
    else if TurnedAway(s, r) then if since == 0 then x.now else since
    else 0
  }

  function Storm(policy: Policy, s: Stream, since: nat, inputs: seq<Input>): nat
    decreases |inputs|
  {
    if inputs == [] then since
    else var r := Next(policy, s, inputs[0]); Storm(policy, r, StormOf(s, r, since, inputs[0]), inputs[1..])
  }

  lemma {:induction false} AdvancedClamp(s: Stream, now: nat)
    ensures var r := Advanced(s, now);
            && r.tally.clampRejected == s.tally.clampRejected
            && (r.tally.resyncs == s.tally.resyncs ==> r.firstClamp == s.firstClamp)
            && (r.tally.resyncs != s.tally.resyncs ==> r.tally.resyncs > s.tally.resyncs && r.firstClamp == 0)
    decreases s.maxSeq - s.cursor + 1
  {
    hide SkipReason, Pruned;
    if s.cursor <= s.maxSeq && s.cursor + 1 < SEQ_END {
      if s.cursor in s.held {
        AdvancedClamp(AfterConsumed(s), now);
      } else if s.cursor in s.gaps && SkipReason(s, s.gaps[s.cursor], now).Some? {
        AdvancedClamp(Stepped(GivenUp(s, SkipReason(s, s.gaps[s.cursor], now).value)), now);
      }
    }
  }

  predicate SameClamp(s: Stream, r: Stream) {
    r.firstClamp == s.firstClamp && r.tally.clampRejected == s.tally.clampRejected && r.tally.resyncs == s.tally.resyncs
  }

  lemma EvaluatedClamp(policy: Policy, s: Stream, live: Option<U32>, now: nat)
    ensures SameClamp(s, Evaluated(policy, s, live, now))
  {
  }

  lemma OfferedClamp(policy: Policy, s: Stream, p: Packet, early: Option<Early>)
    requires p.sequence in s.held
    ensures SameClamp(s, Offered(policy, s, p, early))
  {
    hide GapBlock, Trimmed;
  }

  lemma FiledClamp(policy: Policy, s: Stream, p: Packet, budget: nat, now: nat)
    ensures var g := GapsNoted(policy, Filed(s, p, budget, now), now); SameClamp(s, g) && p.sequence in g.held
  {
    hide NewGap;
  }

  lemma JudgingClamp(policy: Policy, s: Stream, x: Input)
    ensures SameClamp(if x.Packets? then Entering(policy, s.(bestEffort := s.bestEffort || x.mismatch), x.p, x.now).s else s, Judging(policy, s, x))
  {
    hide Entering, Evaluated, Offered, GapsNoted, Filed, Duplicate;
    match x {
      case Tick(live, now) => EvaluatedClamp(policy, s, live, now);
      case FrameDone(block, live, now) => EvaluatedClamp(policy, Completed(policy, s, block), live, now);
      case Packets(p, mismatch, budget, live, early, now) =>
        var e := Entering(policy, s.(bestEffort := s.bestEffort || mismatch), p, now);
        if e.Entered? && !Duplicate(e.s, p) {
          FiledClamp(policy, e.s, p, budget, now);
          var g := GapsNoted(policy, Filed(e.s, p, budget, now), now);
          OfferedClamp(policy, g, p, early);
          EvaluatedClamp(policy, Offered(policy, g, p, early), live, now);
        }
    }
  }

  /** Within the clamps: at most so many packets and blocks past the cursor and the newest block. */
  predicate Plausible(policy: Policy, s: Stream, p: Packet) {
    p.sequence <= s.cursor + policy.clampPackets && p.blockId <= s.maxBlock + policy.clampBlocks
  }

  lemma EntryClamp(policy: Policy, s: Stream, p: Packet, now: nat)
    ensures var e := Entering(policy, s, p, now).s;
            var over := !Plausible(policy, s, p) && s.firstClamp != 0 && now > s.firstClamp && now - s.firstClamp >= policy.resyncMs;
            && e.tally.clampRejected == s.tally.clampRejected + (if Plausible(policy, s, p) then 0 else 1)
            && e.tally.resyncs == s.tally.resyncs + (if over then 1 else 0)
            && e.firstClamp == if Plausible(policy, s, p) || over then 0 else if s.firstClamp == 0 then now else s.firstClamp
  {
  }

  /** The clamp's clock is the storm's beginning. */
  lemma NextStorm(policy: Policy, s: Stream, x: Input)
    ensures var r := Next(policy, s, x); r.firstClamp == StormOf(s, r, s.firstClamp, x)
  {
    hide Judging, Advanced, Entering;
    JudgingNext(policy, s, x);
    JudgingClamp(policy, s, x);
    AdvancedClamp(Judging(policy, s, x), x.now);
    if x.Packets? {
      EntryClamp(policy, s.(bestEffort := s.bestEffort || x.mismatch), x.p, x.now);
      RefusedStays(policy, s, x);
    }
  }

  lemma RefusedStays(policy: Policy, s: Stream, x: Input)
    requires x.Packets?
    ensures var e := Entering(policy, s.(bestEffort := s.bestEffort || x.mismatch), x.p, x.now);
            && (e.Refused? ==> Next(policy, s, x) == e.s)
            && (e.Entered? <==> Plausible(policy, s, x.p) || e.s.tally.resyncs > s.tally.resyncs)
  {
    hide Settled, Offered, GapsNoted, Filed;
  }

  lemma {:induction false} RunStorm(policy: Policy, s: Stream, inputs: seq<Input>)
    ensures Run(policy, s, inputs).firstClamp == Storm(policy, s, s.firstClamp, inputs)
    decreases |inputs|
  {
    hide Next, StormOf;
    if inputs != [] {
      NextStorm(policy, s, inputs[0]);
      RunStorm(policy, Next(policy, s, inputs[0]), inputs[1..]);
    }
  }

  /**
   * In any run: a packet outside the clamps starts the stream over exactly when packets have been turned away, and none let in, for
   * the resync time.
   */
  lemma StartsOver(policy: Policy, at: U32, block: U32, inputs: seq<Input>, p: Packet, mismatch: bool, now: nat)
    requires !Plausible(policy, Run(policy, Latched(at, block), inputs), p)
    ensures var s, since := Run(policy, Latched(at, block), inputs), Storm(policy, Latched(at, block), 0, inputs);
            var e := Entering(policy, s.(bestEffort := s.bestEffort || mismatch), p, now);
            && (e.s.tally.resyncs > s.tally.resyncs <==> since != 0 && now > since && now - since >= policy.resyncMs)
            && (e.s.tally.resyncs > s.tally.resyncs ==> e.s.cursor == e.s.maxSeq == e.s.floor == p.sequence && e.s.held == map[])
            && (e.s.tally.resyncs == s.tally.resyncs ==> e.Refused?)
  {
    RunStorm(policy, Latched(at, block), inputs);
    hide Run, Storm;
  }

  // ---- a best-effort stream's gaps ------------------------------------------------------------------------

  /** Since an input at that time the gap at m has been declared lost: its dwell ran out, or every live adapter got past it. */
  ghost predicate Declared(policy: Policy, past: seq<Input>, m: nat, since: nat) {
    && (exists j :: 0 <= j < |past| && past[j].now == since)
    && exists i :: 0 <= i < |past| && (Since(past[i].now, since) >= policy.dwellMs || (past[i].live.Some? && past[i].live.value > m))
  }

  ghost predicate NotedIn(past: seq<Input>, since: nat) {
    exists j :: 0 <= j < |past| && past[j].now == since
  }

  ghost predicate Reasoned(policy: Policy, s: Stream, past: seq<Input>) {
    forall m :: m in s.gaps ==>
      NotedIn(past, s.gaps[m].since) && (s.gaps[m].lost ==> Declared(policy, past, m, s.gaps[m].since))
  }

  /** Gaps gone or with the same loss mark, and none added but fresh ones. */
  ghost predicate GapsFrom(s: Stream, r: Stream, now: nat) {
    forall m :: m in r.gaps ==>
      if m in s.gaps then r.gaps[m].since == s.gaps[m].since && r.gaps[m].lost == s.gaps[m].lost
      else r.gaps[m].since == now && !r.gaps[m].lost
  }

  lemma GapsChain(s: Stream, m: Stream, r: Stream, now: nat)
    requires GapsFrom(s, m, now) && forall g :: g in r.gaps ==> g in m.gaps && r.gaps[g].since == m.gaps[g].since && r.gaps[g].lost == m.gaps[g].lost
    ensures GapsFrom(s, r, now)
  {
  }

  lemma {:induction false} AdvancedGaps(s: Stream, now: nat)
    ensures var r := Advanced(s, now); forall g :: g in r.gaps ==> g in s.gaps && r.gaps[g] == s.gaps[g]
    decreases s.maxSeq - s.cursor + 1
  {
    hide SkipReason, Pruned;
    if s.cursor <= s.maxSeq && s.cursor + 1 < SEQ_END {
      if s.cursor in s.held {
        AdvancedGaps(AfterConsumed(s), now);
      } else if s.cursor in s.gaps && SkipReason(s, s.gaps[s.cursor], now).Some? {
        AdvancedGaps(Stepped(GivenUp(s, SkipReason(s, s.gaps[s.cursor], now).value)), now);
      }
    }
  }

  /** The stream an input finds its gaps judged in: past the clamps, with the gaps noted and satisfied. */
  function Unjudged(policy: Policy, s: Stream, x: Input): Stream {
    match x
    case Packets(p, mismatch, budget, live, early, now) =>
      (match Entering(policy, s.(bestEffort := s.bestEffort || mismatch), p, now)
       case Refused(r) => r
       case Entered(e) =>
         if Duplicate(e, p) then e.(tally := e.tally.(diversity := e.tally.diversity + 1))
         else Offered(policy, GapsNoted(policy, Filed(e, p, budget, now), now), p, early))
    case FrameDone(block, live, now) => Completed(policy, s, block)
    case Tick(live, now) => s
  }

  lemma UnjudgedIs(policy: Policy, s: Stream, x: Input)
    ensures Judging(policy, s, x) == if Moves(policy, s, x) then Evaluated(policy, Unjudged(policy, s, x), x.live, x.now) else Unjudged(policy, s, x)
  {
    hide Evaluated, Offered, GapsNoted, Filed, Entering, Duplicate, Completed;
  }

  lemma EntryGaps(policy: Policy, s: Stream, p: Packet, now: nat)
    ensures var r := Entering(policy, s, p, now).s; forall g :: g in r.gaps ==> g in s.gaps && r.gaps[g] == s.gaps[g]
  {
  }

  lemma NotedGaps(policy: Policy, s: Stream, p: Packet, budget: nat, now: nat)
    ensures GapsFrom(s, GapsNoted(policy, Filed(s, p, budget, now), now), now)
  {
    hide GapBlock;
  }

  lemma OfferedGaps(policy: Policy, s: Stream, p: Packet, early: Option<Early>)
    requires p.sequence in s.held
    ensures var r := Offered(policy, s, p, early);
            forall g :: g in r.gaps ==> g in s.gaps && r.gaps[g].since == s.gaps[g].since && r.gaps[g].lost == s.gaps[g].lost
  {
    hide GapBlock, Trimmed;
  }

  lemma UnjudgedGaps(policy: Policy, s: Stream, x: Input)
    ensures GapsFrom(s, Unjudged(policy, s, x), x.now)
  {
    match x {
      case Tick(_, _) =>
      case FrameDone(block, _, _) => hide GapBlock, Trimmed;
      case Packets(p, mismatch, budget, live, early, now) =>
        hide Entering, Filed, GapsNoted, Offered, Duplicate;
        var s1 := s.(bestEffort := s.bestEffort || mismatch);
        EntryGaps(policy, s1, p, now);
        var e := Entering(policy, s1, p, now);
        if e.Entered? && !Duplicate(e.s, p) {
          NotedGaps(policy, e.s, p, budget, now);
          FiledClamp(policy, e.s, p, budget, now);
          var g := GapsNoted(policy, Filed(e.s, p, budget, now), now);
          OfferedGaps(policy, g, p, early);
          EntryThen(s, e.s, g, now);
          GapsChain(s, g, Offered(policy, g, p, early), now);
        }
    }
  }

  lemma EntryThen(s: Stream, e: Stream, g: Stream, now: nat)
    requires (forall n :: n in e.gaps ==> n in s.gaps && e.gaps[n] == s.gaps[n]) && GapsFrom(e, g, now)
    requires forall n :: n in g.gaps && n in s.gaps ==> n in e.gaps
    ensures GapsFrom(s, g, now)
  {
  }

  lemma LongerPast(policy: Policy, past: seq<Input>, x: Input, m: nat, since: nat)
    ensures NotedIn(past, since) ==> NotedIn(past + [x], since)
    ensures Declared(policy, past, m, since) ==> Declared(policy, past + [x], m, since)
    ensures since == x.now ==> NotedIn(past + [x], since)
    ensures NotedIn(past + [x], since) && (Since(x.now, since) >= policy.dwellMs || (x.live.Some? && x.live.value > m)) ==>
              Declared(policy, past + [x], m, since)
  {
    var all := past + [x];
    assert all[|past|] == x;
    if j :| 0 <= j < |past| && past[j].now == since { assert all[j].now == since; }
    if Declared(policy, past, m, since) {
      var i :| 0 <= i < |past| && (Since(past[i].now, since) >= policy.dwellMs || (past[i].live.Some? && past[i].live.value > m));
      assert all[i] == past[i];
    }
  }

  lemma ReasonedFrom(policy: Policy, s: Stream, r: Stream, past: seq<Input>, x: Input)
    requires Reasoned(policy, s, past) && GapsFrom(s, r, x.now)
    ensures Reasoned(policy, r, past + [x])
  {
    hide Declared, NotedIn;
    forall m | m in r.gaps
      ensures NotedIn(past + [x], r.gaps[m].since) && (r.gaps[m].lost ==> Declared(policy, past + [x], m, r.gaps[m].since))
    {
      LongerPast(policy, past, x, m, r.gaps[m].since);
    }
  }

  lemma ReasonedJudged(policy: Policy, s: Stream, past: seq<Input>, x: Input)
    requires Reasoned(policy, s, past + [x])
    ensures Reasoned(policy, Evaluated(policy, s, x.live, x.now), past + [x])
  {
    hide Declared, NotedIn, NewlyLost, BlockAbove;
    var r := Evaluated(policy, s, x.live, x.now);
    forall m | m in r.gaps
      ensures NotedIn(past + [x], r.gaps[m].since) && (r.gaps[m].lost ==> Declared(policy, past + [x], m, r.gaps[m].since))
    {
      assert r.gaps[m] == Judged(policy, s, m, s.gaps[m], x.live, x.now);
      LongerPast(policy, past, x, m, s.gaps[m].since);
    }
  }

  lemma ReasonedLess(policy: Policy, s: Stream, r: Stream, past: seq<Input>)
    requires Reasoned(policy, s, past) && forall g :: g in r.gaps ==> g in s.gaps && r.gaps[g] == s.gaps[g]
    ensures Reasoned(policy, r, past)
  {
    hide Declared, NotedIn;
  }

  lemma NextReasoned(policy: Policy, s: Stream, past: seq<Input>, x: Input)
    requires Reasoned(policy, s, past)
    ensures Reasoned(policy, Judging(policy, s, x), past + [x]) && Reasoned(policy, Next(policy, s, x), past + [x])
  {
    hide *;
    UnjudgedGaps(policy, s, x);
    ReasonedFrom(policy, s, Unjudged(policy, s, x), past, x);
    ReasonedJudged(policy, Unjudged(policy, s, x), past, x);
    UnjudgedIs(policy, s, x);
    JudgingNext(policy, s, x);
    AdvancedGaps(Judging(policy, s, x), x.now);
    ReasonedLess(policy, Judging(policy, s, x), Advanced(Judging(policy, s, x), x.now), past + [x]);
  }

  lemma {:induction false} RunReasoned(policy: Policy, s: Stream, past: seq<Input>, inputs: seq<Input>)
    requires Reasoned(policy, s, past)
    ensures Reasoned(policy, Run(policy, s, inputs), past + inputs)
    decreases |inputs|
  {
    hide Reasoned, Next;
    if inputs == [] {
      assert past + inputs == past;
    } else {
      NextReasoned(policy, s, past, inputs[0]);
      RunReasoned(policy, Next(policy, s, inputs[0]), past + [inputs[0]], inputs[1..]);
      assert past + [inputs[0]] + inputs[1..] == past + inputs;
    }
  }

  /**
   * In any run of a best-effort stream a gap the cursor passes belonged to a completed frame, or lay below a packet of a block
   * older than the newest, or had been declared lost.
   */
  lemma BestEffortWaits(policy: Policy, at: U32, block: U32, inputs: seq<Input>, x: Input, m: nat)
    requires var s := Run(policy, Latched(at, block), inputs);
             var v, r := Judging(policy, s, x), Next(policy, s, x);
             v.bestEffort && r.tally.resyncs == v.tally.resyncs && m in v.gaps && m < r.cursor
    ensures var s := Run(policy, Latched(at, block), inputs);
            var g := Judging(policy, s, x).gaps[m];
            g.satisfied || Overtaken(Judging(policy, s, x), m) || Declared(policy, inputs + [x], m, g.since)
  {
    hide *;
    var s := Run(policy, Latched(at, block), inputs);
    var v := Judging(policy, s, x);
    LatchedInv(policy, at, block);
    LatchedMarked(at, block);
    RunMarked(policy, Latched(at, block), inputs);
    JudgingMarked(policy, s, x);
    JudgingNext(policy, s, x);
    LatchedReasoned(policy, at, block);
    RunReasoned(policy, Latched(at, block), [], inputs);
    assert [] + inputs == inputs;
    NextReasoned(policy, s, inputs, x);
    GapsAhead(policy, v, m);
    if Moves(policy, s, x) {
      SameWhen(policy, v, x.now);
      PassedExcused(policy, v, x.now, m);
      ExcusedMeans(policy, v, m, x.now, inputs + [x]);
    }
  }

  lemma LatchedReasoned(policy: Policy, at: U32, block: U32)
    ensures Reasoned(policy, Latched(at, block), [])
  {
  }

  lemma ExcusedMeans(policy: Policy, v: Stream, m: nat, now: nat, past: seq<Input>)
    requires m in v.gaps && Excused(v, m, now) && v.bestEffort && Marked(v) && Reasoned(policy, v, past)
    ensures v.gaps[m].satisfied || Overtaken(v, m) || Declared(policy, past, m, v.gaps[m].since)
  {
    hide Overtaken, Declared;
  }
}
