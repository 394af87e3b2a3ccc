/** How long a receive stream waits for what is missing, told from the packets it took. */
module RxDeadlines {
  import opened Bytes
  import opened FrameBlock
  import opened RxSpec
  import opened RxRuns

  // ---- the packets of a block ---------------------------------------------------------------------

  /** When the first packet of a block was taken, and the budget at the latest. */
  datatype Started = Started(first: nat, budget: nat)

  /** The input was a packet the stream had not seen. */
  predicate Took(s: Stream, s': Stream) {
    s'.tally.uniq > s.tally.uniq
  }

  predicate Refloored(s: Stream, s': Stream) {
    s'.tally.resyncs > s.tally.resyncs
  }

  /** The cursor ran past the last sequence number: nothing taken so far counts. */
  predicate Wrapped(s: Stream, s': Stream) {
    Refloored(s, s') && s'.cursor == 0
  }

  /** What an input adds to what is known of block b; a first packet at time 0 counts as none. */
  function AfterInput(s: Stream, s': Stream, known: Option<Started>, x: Input, b: U32): Option<Started> {
    var kept := if Refloored(s, s') then None else known;
    if Wrapped(s, s') then None
    else if x.Packets? && Took(s, s') && x.p.blockId == b then
      Some(Started(if kept.Some? && kept.value.first != 0 then kept.value.first else x.now, x.budget))
    else kept
  }

  /** The first packet of block b since the last floor, and the budget at the latest. */
  function StartOf(policy: Policy, s: Stream, known: Option<Started>, inputs: seq<Input>, b: U32): Option<Started>
    decreases |inputs|
  {
    if inputs == [] then known
    else
      var s' := Next(policy, s, inputs[0]);
      StartOf(policy, s', AfterInput(s, s', known, inputs[0], b), inputs[1..], b)
  }

  // ---- the record of the newest block -----------------------------------------------------------------

  /** Unless best-effort, the newest block is on file exactly when packets of it were taken, under first plus budget. */
  ghost predicate OnFile(s: Stream, known: Option<Started>, b: U32) {
    !s.bestEffort ==>
      && (b == s.maxBlock ==> (b in s.blocks <==> known.Some?))
      && (b == s.maxBlock && known.Some? ==> s.blocks[b] == Info(known.value.first, known.value.first + known.value.budget))
      && (b > s.maxBlock ==> known.None? && b !in s.blocks)
  }

  /** Only the cursor, held packets, gaps and counters other than these move; records of blocks before the newest may go. */
  ghost predicate SameRecord(s: Stream, r: Stream) {
    && r.maxBlock == s.maxBlock && r.bestEffort == s.bestEffort && r.tally.uniq == s.tally.uniq && r.tally.resyncs == s.tally.resyncs
    && r.cursor >= s.cursor
    && forall b :: b >= s.maxBlock ==> (b in r.blocks <==> b in s.blocks) && (b in s.blocks ==> r.blocks[b] == s.blocks[b])
  }

  /** A new floor past the last sequence number. */
  ghost predicate WrapRecord(s: Stream, r: Stream) {
    && r.blocks == map[] && r.bestEffort == s.bestEffort && r.tally.uniq == s.tally.uniq && r.tally.resyncs == s.tally.resyncs + 1
    && r.cursor == 0
  }

  lemma ConsumedRecord(s: Stream)
    requires BlocksKnown(s) && s.cursor in s.held && s.cursor + 1 < SEQ_END
    ensures SameRecord(s, AfterConsumed(s)) && AfterConsumed(s).cursor > s.cursor
  {
  }

  lemma GivenUpRecord(s: Stream, why: Skip)
    requires s.cursor + 1 < SEQ_END
    ensures SameRecord(s, Stepped(GivenUp(s, why))) && Stepped(GivenUp(s, why)).cursor > s.cursor
  {
  }

  lemma WrapRecords(s: Stream, why: Skip)
    requires s.cursor + 1 == SEQ_END
    ensures WrapRecord(s, Stepped(GivenUp(s, why))) && (s.cursor in s.held ==> WrapRecord(s, Stepped(Consumed(s))))
  {
  }

  lemma RecordChain(s: Stream, m: Stream, r: Stream)
    requires SameRecord(s, m) && m.cursor > s.cursor && (SameRecord(m, r) || WrapRecord(m, r))
    ensures SameRecord(s, r) || WrapRecord(s, r)
    ensures SameRecord(s, r) ==> r.cursor > s.cursor
  {
    if SameRecord(s, r) && WrapRecord(m, r) { assert false; }
  }

  lemma RecordSelf(s: Stream)
    ensures SameRecord(s, s)
  {
  }

  lemma {:induction false} AdvancedRecord(policy: Policy, s: Stream, now: nat)
    requires Inv(policy, s)
    ensures var r := Advanced(s, now); SameRecord(s, r) || WrapRecord(s, r)
    ensures var r := Advanced(s, now); s.cursor in s.held && s.cursor <= s.maxSeq && SameRecord(s, r) ==> r.cursor > s.cursor
    decreases s.maxSeq - s.cursor + 1
  {
    RecordSelf(s);
    if s.cursor <= s.maxSeq && s.cursor in s.held {
      if s.cursor + 1 < SEQ_END {
        ConsumedKeeps(policy, s);
        ConsumedRecord(s);
        hide Inv, Pruned, SameRecord, WrapRecord;
        AdvancedRecord(policy, AfterConsumed(s), now);
        RecordChain(s, AfterConsumed(s), Advanced(s, now));
      } else {
        WrapRecords(s, Skip.Satisfied);
        hide Inv, Pruned, Consumed, Stepped;
        assert Advanced(s, now) == Stepped(Consumed(s));
        Apart(s, Stepped(Consumed(s)));
      }
    } else if s.cursor <= s.maxSeq && s.cursor in s.gaps {
      var why := SkipReason(s, s.gaps[s.cursor], now);
      if why.Some? {
        var g := GivenUp(s, why.value);
        assert s.cursor + 1 < SEQ_END;
        GivenUpKeeps(policy, s, why.value);
        GivenUpRecord(s, why.value);
        hide Inv, SkipReason, SameRecord, WrapRecord;
        AdvancedRecord(policy, Stepped(g), now);
        RecordChain(s, Stepped(g), Advanced(s, now));
      }
    }
  }

  lemma Apart(s: Stream, r: Stream)
    requires WrapRecord(s, r)
    ensures !SameRecord(s, r)
  {
  }

  lemma SettledRecord(policy: Policy, s: Stream, live: Option<U32>, now: nat)
    requires Inv(policy, s)
    ensures var r := Settled(policy, s, live, now); SameRecord(s, r) || WrapRecord(s, r)
    ensures var r := Settled(policy, s, live, now); s.cursor in s.held && s.cursor <= s.maxSeq && SameRecord(s, r) ==> r.cursor > s.cursor
  {
    hide Inv, Advanced, Judged;
    EvaluatedKeeps(policy, s, live, now);
    AdvancedRecord(policy, Evaluated(policy, s, live, now), now);
  }

  lemma KeptOnFile(s: Stream, r: Stream, known: Option<Started>, b: U32)
    requires OnFile(s, known, b) && SameRecord(s, r)
    ensures OnFile(r, known, b)
  {
  }

  lemma EmptyOnFile(s: Stream, b: U32)
    requires s.blocks == map[]
    ensures OnFile(s, None, b)
  {
  }

  lemma FiledOnFile(s: Stream, p: Packet, budget: nat, now: nat, known: Option<Started>, b: U32)
    requires OnFile(s, known, b)
    ensures var next := AfterTaken(known, p, budget, now, b);
            OnFile(Filed(s, p, budget, now), next, b)
  {
  }

  // ---- one input ---------------------------------------------------------------------------------------

  /** A new packet, past the clamps. */
  lemma TakenOnFile(policy: Policy, s: Stream, p: Packet, budget: nat, live: Option<U32>, early: Option<Early>, now: nat,
                    known: Option<Started>, b: U32)
    requires Inv(policy, s) && !Duplicate(s, p) && PlausibleForward(s.cursor, p.sequence, policy.clampPackets) && OnFile(s, known, b)
    ensures var o := Offered(policy, GapsNoted(policy, Filed(s, p, budget, now), now), p, early);
            var next := AfterTaken(known, p, budget, now, b);
            && Inv(policy, o) && OnFile(o, next, b) && o.tally.uniq == s.tally.uniq + 1 && o.tally.resyncs == s.tally.resyncs
            && o.cursor == s.cursor && p.sequence in o.held && p.sequence <= o.maxSeq
  {
    hide Inv, Unnoted, Duplicate, PlausibleForward, OnFile;
    var f := Filed(s, p, budget, now);
    FiledReady(policy, s, p, budget, now);
    NotedKeeps(policy, f, now);
    var g := GapsNoted(policy, f, now);
    OfferedKeeps(policy, g, p, early);
    FiledOnFile(s, p, budget, now, known, b);
    NotedRecord(policy, f, now);
    OfferedRecord(policy, g, p, early);
    var next := AfterTaken(known, p, budget, now, b);
    KeptOnFile(f, g, next, b);
    KeptOnFile(g, Offered(policy, g, p, early), next, b);
    hide Offered, GapsNoted;
  }

  lemma NotedRecord(policy: Policy, s: Stream, now: nat)
    ensures var r := GapsNoted(policy, s, now); SameRecord(s, r) && r.cursor == s.cursor && r.held == s.held && r.maxSeq == s.maxSeq
  {
  }

  lemma OfferedRecord(policy: Policy, s: Stream, p: Packet, early: Option<Early>)
    requires p.sequence in s.held
    ensures var r := Offered(policy, s, p, early);
            SameRecord(s, r) && r.cursor == s.cursor && r.held.Keys == s.held.Keys && r.maxSeq == s.maxSeq
  {
    hide Trimmed, GapBlock;
  }

  /** What a taken packet adds. */
  function AfterTaken(kept: Option<Started>, p: Packet, budget: nat, now: nat, b: U32): Option<Started> {
    if p.blockId == b then Some(Started(if kept.Some? && kept.value.first != 0 then kept.value.first else now, budget)) else kept
  }

  lemma AfterIs(s: Stream, e: Stream, o: Stream, r: Stream, known: Option<Started>, x: Input, b: U32)
    requires x.Packets? && e.tally.uniq == s.tally.uniq && o.tally.uniq == s.tally.uniq + 1 && o.tally.resyncs == e.tally.resyncs
    requires e.tally.resyncs == s.tally.resyncs || (e.tally.resyncs == s.tally.resyncs + 1 && (r.cursor > 0 || WrapRecord(o, r)))
    requires SameRecord(o, r) || WrapRecord(o, r)
    ensures var kept := if e.tally.resyncs > s.tally.resyncs then None else known;
            AfterInput(s, r, known, x, b) == if WrapRecord(o, r) then None else AfterTaken(kept, x.p, x.budget, x.now, b)
  {
    if WrapRecord(o, r) { Apart(o, r); }
  }

  lemma HeardOnFile(policy: Policy, s: Stream, x: Input, known: Option<Started>, b: U32)
    requires Inv(policy, s) && OnFile(s, known, b) && x.Packets?
    ensures var r := Next(policy, s, x); OnFile(r, AfterInput(s, r, known, x, b), b)
  {
    var Packets(p, mismatch, budget, live, early, now) := x;
    hide Inv, Offered, GapsNoted, Filed, Duplicate, PlausibleForward, OnFile, Settled, Entering, SameRecord, WrapRecord;
    var s1 := s.(bestEffort := s.bestEffort || mismatch);
    MarksKeep(policy, s, s1);
    EnteringKeeps(policy, s1, p, now);
    EntryOnFile(policy, s, mismatch, p, now, known, b);
    var e := Entering(policy, s1, p, now);
    if e.Entered? && !Duplicate(e.s, p) {
      hide AfterInput, AfterTaken;
      var kept := if e.s.tally.resyncs > s.tally.resyncs then None else known;
      TakenOnFile(policy, e.s, p, budget, live, early, now, kept, b);
      var o := Offered(policy, GapsNoted(policy, Filed(e.s, p, budget, now), now), p, early);
      SettledOnFile(policy, o, live, now, AfterTaken(kept, p, budget, now, b), b);
      AfterIs(s, e.s, o, Settled(policy, o, live, now), known, x, b);
    } else {
      UntakenOnFile(policy, s, x, known, b);
    }
  }

  /** A refused packet or a duplicate. */
  lemma UntakenOnFile(policy: Policy, s: Stream, x: Input, known: Option<Started>, b: U32)
    requires OnFile(s, known, b) && x.Packets?
    requires var e := Entering(policy, s.(bestEffort := s.bestEffort || x.mismatch), x.p, x.now); e.Refused? || Duplicate(e.s, x.p)
    ensures var r := Next(policy, s, x); OnFile(r, AfterInput(s, r, known, x, b), b)
  {
    hide Settled, Offered, GapsNoted, Filed;
    EntryOnFile(policy, s, x.mismatch, x.p, x.now, known, b);
  }

  lemma SettledOnFile(policy: Policy, s: Stream, live: Option<U32>, now: nat, known: Option<Started>, b: U32)
    requires Inv(policy, s) && OnFile(s, known, b)
    ensures var r := Settled(policy, s, live, now);
            && (SameRecord(s, r) || WrapRecord(s, r))
            && OnFile(r, if WrapRecord(s, r) then None else known, b)
            && (s.cursor in s.held && s.cursor <= s.maxSeq && SameRecord(s, r) ==> r.cursor > s.cursor)
  {
    hide Inv, Settled, OnFile;
    SettledRecord(policy, s, live, now);
    var r := Settled(policy, s, live, now);
    if WrapRecord(s, r) { EmptyOnFile(r, b); } else { KeptOnFile(s, r, known, b); }
  }

  /** The clamps: refused, as before, or floored at the packet. */
  lemma EntryOnFile(policy: Policy, s: Stream, mismatch: bool, p: Packet, now: nat, known: Option<Started>, b: U32)
    requires OnFile(s, known, b)
    ensures var e := Entering(policy, s.(bestEffort := s.bestEffort || mismatch), p, now).s;
            && e.tally.uniq == s.tally.uniq
            && ((e.tally.resyncs == s.tally.resyncs && e.cursor == s.cursor && OnFile(e, known, b))
                || (e.tally.resyncs == s.tally.resyncs + 1 && OnFile(e, None, b) && e.cursor == e.maxSeq == p.sequence && !Duplicate(e, p)
                    && Entering(policy, s.(bestEffort := s.bestEffort || mismatch), p, now).Entered?))
  {
  }

  lemma NextOnFile(policy: Policy, s: Stream, x: Input, known: Option<Started>, b: U32)
    requires Inv(policy, s) && OnFile(s, known, b)
    ensures var r := Next(policy, s, x); OnFile(r, AfterInput(s, r, known, x, b), b)
  {
    if x.Packets? {
      HeardOnFile(policy, s, x, known, b);
    } else {
      var c := if x.FrameDone? then Completed(policy, s, x.block) else s;
      if x.FrameDone? { CompletedKeeps(policy, s, x.block); }
      assert OnFile(c, known, b);
      hide Inv, OnFile, Settled, Completed;
      SettledOnFile(policy, c, x.live, x.now, known, b);
    }
  }

  lemma {:induction false} RunOnFile(policy: Policy, s: Stream, known: Option<Started>, inputs: seq<Input>, b: U32)
    requires Inv(policy, s) && OnFile(s, known, b)
    ensures OnFile(Run(policy, s, inputs), StartOf(policy, s, known, inputs, b), b)
    decreases |inputs|
  {
    hide Inv, OnFile, Next, AfterInput;
    if inputs != [] {
      var r := Next(policy, s, inputs[0]);
      NextKeeps(policy, s, inputs[0]);
      NextOnFile(policy, s, inputs[0], known, b);
      RunOnFile(policy, r, AfterInput(s, r, known, inputs[0], b), inputs[1..], b);
    }
  }

  /**
   * In every reachable state of a stream that is not best-effort, the newest block is on file exactly when a packet of it was
   * taken since the last floor, and its deadline is the time of the first of them plus the budget at the latest.
   */
  lemma DeadlineOnFile(policy: Policy, at: U32, block: U32, inputs: seq<Input>)
    ensures var s := Run(policy, Latched(at, block), inputs);
            var start := StartOf(policy, Latched(at, block), None, inputs, s.maxBlock);
            !s.bestEffort ==>
              && (s.maxBlock in s.blocks <==> start.Some?)
              && (start.Some? ==> s.blocks[s.maxBlock].deadline == start.value.first + start.value.budget)
  {
    LatchedInv(policy, at, block);
    EmptyOnFile(Latched(at, block), Run(policy, Latched(at, block), inputs).maxBlock);
    RunOnFile(policy, Latched(at, block), None, inputs, Run(policy, Latched(at, block), inputs).maxBlock);
    hide Run, StartOf, Latched;
  }

  /** After any tick of such a stream packets are held only while the newest block's time is not up. */
  lemma HeldInTime(policy: Policy, at: U32, block: U32, inputs: seq<Input>, live: Option<U32>, now: nat)
    requires !Run(policy, Latched(at, block), inputs).bestEffort
    ensures var all := inputs + [Tick(live, now)];
            var s := Run(policy, Latched(at, block), all);
            var start := StartOf(policy, Latched(at, block), None, all, s.maxBlock);
            s.held != map[] ==> start.Some? && now < start.value.first + start.value.budget
  {
    hide *;
    var all := inputs + [Tick(live, now)];
    RunSnoc(policy, Latched(at, block), inputs, Tick(live, now));
    HeldDeadline(policy, at, block, inputs, live, now);
    DeadlineOnFile(policy, at, block, all);
    SettledBest(policy, Run(policy, Latched(at, block), inputs), live, now);
  }

  lemma HeldDeadline(policy: Policy, at: U32, block: U32, inputs: seq<Input>, live: Option<U32>, now: nat)
    requires !Run(policy, Latched(at, block), inputs).bestEffort
    ensures var s := Next(policy, Run(policy, Latched(at, block), inputs), Tick(live, now));
            s.held != map[] ==> s.maxBlock in s.blocks && now < s.blocks[s.maxBlock].deadline
  {
    hide *;
    HeldWithinDeadline(policy, at, block, inputs, live, now);
    FirstHeld(Next(policy, Run(policy, Latched(at, block), inputs), Tick(live, now)), now);
  }

  lemma SettledBest(policy: Policy, s: Stream, live: Option<U32>, now: nat)
    requires !s.bestEffort
    ensures !Next(policy, s, Tick(live, now)).bestEffort
  {
    hide Judged;
    AdvancedBest(Evaluated(policy, s, live, now), now);
  }

  lemma {:induction false} AdvancedBest(s: Stream, now: nat)
    ensures Advanced(s, now).bestEffort == s.bestEffort
    decreases s.maxSeq - s.cursor + 1
  {
    hide SkipReason, Pruned;
    if s.cursor <= s.maxSeq && s.cursor + 1 < SEQ_END {
      if s.cursor in s.held {
        AdvancedBest(AfterConsumed(s), now);
      } else if s.cursor in s.gaps && SkipReason(s, s.gaps[s.cursor], now).Some? {
        AdvancedBest(Stepped(GivenUp(s, SkipReason(s, s.gaps[s.cursor], now).value)), now);
      }
    }
  }

  lemma FirstHeld(s: Stream, now: nat)
    requires forall m :: m in s.held ==>
               exists e :: e in s.held && e <= m && s.held[e].block == s.maxBlock && s.maxBlock in s.blocks
                           && now < s.blocks[s.maxBlock].deadline
    ensures s.held != map[] ==> s.maxBlock in s.blocks && now < s.blocks[s.maxBlock].deadline
  {
    if s.held != map[] {
      var m :| m in s.held;
    }
  }

  lemma {:induction false} RunSnoc(policy: Policy, s: Stream, inputs: seq<Input>, x: Input)
    ensures Run(policy, s, inputs + [x]) == Next(policy, Run(policy, s, inputs), x)
    decreases |inputs|
  {
    hide Next;
    if inputs == [] {
      assert [x][1..] == [];
    } else {
      assert (inputs + [x])[1..] == inputs[1..] + [x];
      RunSnoc(policy, Next(policy, s, inputs[0]), inputs[1..], x);
    }
  }

  // ---- why a gap is given up ---------------------------------------------------------------------------

  /** A packet above m is of a block older than the newest. */
  ghost predicate Overtaken(s: Stream, m: nat) {
    exists e :: e in s.held && m < e && s.held[e].block < s.maxBlock
  }

  ghost predicate Marked(s: Stream) {
    forall m :: m in s.gaps && s.gaps[m].superseded ==> Overtaken(s, m)
  }

  /** The stream as an input leaves it before the cursor moves. */
  function Judging(policy: Policy, s: Stream, x: Input): Stream {
    match x
    case Packets(p, mismatch, budget, live, early, now) =>
      (match Entering(policy, s.(bestEffort := s.bestEffort || mismatch), p, now)
       case Refused(r) => r
       case Entered(e) =>
         if Duplicate(e, p) then e.(tally := e.tally.(diversity := e.tally.diversity + 1))
         else Evaluated(policy, Offered(policy, GapsNoted(policy, Filed(e, p, budget, now), now), p, early), live, now))
    case FrameDone(block, live, now) => Evaluated(policy, Completed(policy, s, block), live, now)
    case Tick(live, now) => Evaluated(policy, s, live, now)
  }

  ghost predicate Excused(s: Stream, m: nat, now: nat)
    requires m in s.gaps
  {
    || s.gaps[m].satisfied || s.gaps[m].superseded
    || if s.bestEffort then s.gaps[m].lost
       else BlockAbove(s, m).Some? && BlockAbove(s, m).value in s.blocks && now >= s.blocks[BlockAbove(s, m).value].deadline
  }

  /** The gaps ahead of the cursor and what is known of them stay as they are while it moves. */
  lemma AheadSame(s: Stream, m: nat, now: nat)
    requires s.cursor in s.held && s.cursor < m && s.cursor + 1 < SEQ_END
    ensures var r := AfterConsumed(s);
            && (m in r.gaps <==> m in s.gaps) && (m in r.gaps ==> r.gaps[m] == s.gaps[m] && (Excused(r, m, now) ==> Excused(s, m, now)))
            && (m in r.held <==> m in s.held)
  {
    HeldFromAbove(s.held, s.cursor, m + 1, s.maxSeq);
    assert BlockAbove(AfterConsumed(s), m) == BlockAbove(s, m);
  }

  lemma AheadSameGap(s: Stream, why: Skip, m: nat, now: nat)
    requires s.cursor < m && s.cursor + 1 < SEQ_END
    ensures var r := Stepped(GivenUp(s, why));
            && (m in r.gaps <==> m in s.gaps) && (m in r.gaps ==> r.gaps[m] == s.gaps[m] && (Excused(r, m, now) ==> Excused(s, m, now)))
            && (m in r.held <==> m in s.held)
  {
    assert BlockAbove(Stepped(GivenUp(s, why)), m) == BlockAbove(s, m);
  }

  lemma SkipExcused(s: Stream, now: nat)
    requires s.cursor in s.gaps && SkipReason(s, s.gaps[s.cursor], now).Some?
    ensures Excused(s, s.cursor, now)
  {
    hide BlockAbove;
  }

  lemma AfterCursor(s: Stream, why: Skip)
    requires s.cursor + 1 < SEQ_END
    ensures Stepped(GivenUp(s, why)).cursor == s.cursor + 1
    ensures s.cursor in s.held ==> AfterConsumed(s).cursor == s.cursor + 1
  {
  }

  /** Whatever the cursor passes was held or had its excuse. */
  lemma {:induction false} PassedExcused(policy: Policy, s: Stream, now: nat, m: nat)
    requires Inv(policy, s) && s.cursor <= m < Advanced(s, now).cursor && SameRecord(s, Advanced(s, now))
    ensures m in s.held || (m in s.gaps && Excused(s, m, now))
    decreases s.maxSeq - s.cursor + 1
  {
    hide *;
    if s.cursor == m {
      PassedFirst(s, now);
    } else if s.cursor <= s.maxSeq && s.cursor in s.held {
      PassedHeld(policy, s, now);
      AheadSame(s, m, now);
      PassedExcused(policy, AfterConsumed(s), now, m);
    } else {
      PassedFirst(s, now);
      PassedGap(policy, s, now);
      var why := SkipReason(s, s.gaps[s.cursor], now).value;
      AheadSameGap(s, why, m, now);
      PassedExcused(policy, Stepped(GivenUp(s, why)), now, m);
    }
  }

  /** The cursor leaves a place only if it is held or excused. */
  lemma PassedFirst(s: Stream, now: nat)
    requires s.cursor < Advanced(s, now).cursor
    ensures s.cursor <= s.maxSeq
    ensures s.cursor in s.held || (s.cursor in s.gaps && SkipReason(s, s.gaps[s.cursor], now).Some? && Excused(s, s.cursor, now))
  {
    if s.cursor !in s.held && s.cursor in s.gaps && SkipReason(s, s.gaps[s.cursor], now).Some? { SkipExcused(s, now); }
    hide SkipReason, Excused;
  }

  lemma PassedHeld(policy: Policy, s: Stream, now: nat)
    requires Inv(policy, s) && SameRecord(s, Advanced(s, now)) && s.cursor <= s.maxSeq && s.cursor in s.held
    ensures s.cursor + 1 < SEQ_END
    ensures var n := AfterConsumed(s);
            && Inv(policy, n) && n.cursor == s.cursor + 1 && n.maxSeq == s.maxSeq
            && Advanced(s, now) == Advanced(n, now) && SameRecord(n, Advanced(n, now))
  {
    if s.cursor + 1 < SEQ_END {
      ConsumedKeeps(policy, s);
      ConsumedRecord(s);
      AfterCursor(s, Skip.Satisfied);
      hide Inv, Pruned, WrapRecord, SkipReason, SameRecord;
      SameLater(policy, s, AfterConsumed(s), now);
    } else {
      LastWraps(s, now);
      assert false;
    }
  }

  lemma LastWraps(s: Stream, now: nat)
    requires s.cursor <= s.maxSeq && s.cursor in s.held && s.cursor + 1 == SEQ_END
    ensures !SameRecord(s, Advanced(s, now))
  {
    WrapRecords(s, Skip.Satisfied);
    Apart(s, Stepped(Consumed(s)));
  }

  lemma PassedGap(policy: Policy, s: Stream, now: nat)
    requires Inv(policy, s) && SameRecord(s, Advanced(s, now)) && s.cursor <= s.maxSeq && s.cursor !in s.held && s.cursor in s.gaps
    requires SkipReason(s, s.gaps[s.cursor], now).Some?
    ensures s.cursor + 1 < SEQ_END
    ensures var n := Stepped(GivenUp(s, SkipReason(s, s.gaps[s.cursor], now).value));
            && Inv(policy, n) && n.cursor == s.cursor + 1 && n.maxSeq == s.maxSeq
            && Advanced(s, now) == Advanced(n, now) && SameRecord(n, Advanced(n, now))
  {
    var why := SkipReason(s, s.gaps[s.cursor], now);
    assert s.cursor + 1 < SEQ_END;
    GivenUpKeeps(policy, s, why.value);
    GivenUpRecord(s, why.value);
    AfterCursor(s, why.value);
    hide Inv, WrapRecord, SkipReason, SameRecord;
    SameLater(policy, s, Stepped(GivenUp(s, why.value)), now);
  }

  /** If the whole way is without a new floor, so is the rest of it. */
  lemma SameLater(policy: Policy, s: Stream, next: Stream, now: nat)
    requires Inv(policy, next) && SameRecord(s, next) && SameRecord(s, Advanced(next, now))
    ensures SameRecord(next, Advanced(next, now))
  {
    hide Inv, Advanced;
    AdvancedRecord(policy, next, now);
    if WrapRecord(next, Advanced(next, now)) { assert false; }
  }

  // ---- what the marks mean --------------------------------------------------------------------------------

  lemma FiledMarked(s: Stream, p: Packet, budget: nat, now: nat)
    requires Marked(s) && !Duplicate(s, p)
    ensures Marked(Filed(s, p, budget, now))
  {
    var f := Filed(s, p, budget, now);
    forall m | m in f.gaps && f.gaps[m].superseded ensures Overtaken(f, m) {
      assert Overtaken(s, m);
      var e :| e in s.held && m < e && s.held[e].block < s.maxBlock;
      assert e in f.held && f.held[e] == s.held[e];
    }
  }

  lemma OvertakenSame(s: Stream, r: Stream, m: nat)
    requires Overtaken(s, m) && r.maxBlock == s.maxBlock
    requires forall e :: e in s.held && m < e ==> e in r.held && r.held[e].block == s.held[e].block
    ensures Overtaken(r, m)
  {
    var e :| e in s.held && m < e && s.held[e].block < s.maxBlock;
    assert e in r.held && r.held[e].block < r.maxBlock;
  }

  lemma OfferedMarked(policy: Policy, s: Stream, p: Packet, early: Option<Early>, now: nat)
    requires Marked(s) && p.sequence in s.held && s.held[p.sequence].block == p.blockId
    ensures Marked(GapsNoted(policy, s, now)) && Marked(Completed(policy, s, p.blockId)) && Marked(Offered(policy, s, p, early))
  {
    hide NewGap, GapBlock, Trimmed, Overtaken;
    forall m, r | r == GapsNoted(policy, s, now) || r == Completed(policy, s, p.blockId) || r == Offered(policy, s, p, early)
      ensures m in r.gaps && r.gaps[m].superseded ==> Overtaken(r, m)
    {
      if m in r.gaps && r.gaps[m].superseded {
        NewUnmarked(s, m, now);
        assert m in s.gaps && s.gaps[m].superseded;
        OvertakenSame(s, r, m);
      }
    }
  }

  lemma NewUnmarked(s: Stream, m: nat, now: nat)
    ensures !NewGap(s, m, now).superseded
  {
  }

  lemma CompletedMarked(policy: Policy, s: Stream, block: U32)
    requires Marked(s)
    ensures Marked(Completed(policy, s, block))
  {
    hide GapBlock, Trimmed, Overtaken;
    var r := Completed(policy, s, block);
    forall m | m in r.gaps && r.gaps[m].superseded ensures Overtaken(r, m) {
      assert Overtaken(s, m);
      OvertakenSame(s, r, m);
    }
  }

  lemma EvaluatedMarked(policy: Policy, s: Stream, live: Option<U32>, now: nat)
    requires Marked(s)
    ensures Marked(Evaluated(policy, s, live, now))
  {
    hide Overtaken, NewlyLost;
    var r := Evaluated(policy, s, live, now);
    forall m | m in r.gaps && r.gaps[m].superseded ensures Overtaken(r, m) {
      assert r.gaps[m] == Judged(policy, s, m, s.gaps[m], live, now);
      if !s.gaps[m].superseded { AboveOvertakes(s, m); }
      OvertakenSame(s, r, m);
    }
  }

  lemma AboveOvertakes(s: Stream, m: nat)
    requires BlockAbove(s, m).Some? && BlockAbove(s, m).value < s.maxBlock
    ensures Overtaken(s, m)
  {
  }

  lemma {:induction false} AdvancedMarked(policy: Policy, s: Stream, now: nat)
    requires Inv(policy, s) && Marked(s)
    ensures Marked(Advanced(s, now))
    decreases s.maxSeq - s.cursor + 1
  {
    if s.cursor <= s.maxSeq && s.cursor in s.held {
      if s.cursor + 1 < SEQ_END {
        ConsumedKeeps(policy, s);
        ConsumedMarked(policy, s);
        hide Inv, Marked, Pruned;
        AdvancedMarked(policy, AfterConsumed(s), now);
      }
    } else if s.cursor <= s.maxSeq && s.cursor in s.gaps {
      var why := SkipReason(s, s.gaps[s.cursor], now);
      if why.Some? {
        assert s.cursor + 1 < SEQ_END;
        GivenUpKeeps(policy, s, why.value);
        GivenUpMarked(s, why.value);
        hide Inv, Marked, SkipReason;
        AdvancedMarked(policy, Stepped(GivenUp(s, why.value)), now);
      }
    }
  }

  lemma ConsumedMarked(policy: Policy, s: Stream)
    requires Inv(policy, s) && Marked(s) && s.cursor in s.held && s.cursor + 1 < SEQ_END
    ensures Marked(AfterConsumed(s))
  {
    assert forall m :: m in s.gaps ==> s.cursor <= m;
    hide Inv, Overtaken, Pruned;
    var r := AfterConsumed(s);
    forall m | m in r.gaps && r.gaps[m].superseded ensures Overtaken(r, m) {
      assert m in s.gaps && Overtaken(s, m);
      OvertakenSame(s, r, m);
    }
  }

  lemma GivenUpMarked(s: Stream, why: Skip)
    requires Marked(s) && s.cursor + 1 < SEQ_END
    ensures Marked(Stepped(GivenUp(s, why)))
  {
    hide Overtaken;
    var r := Stepped(GivenUp(s, why));
    forall m | m in r.gaps && r.gaps[m].superseded ensures Overtaken(r, m) {
      assert m in s.gaps && Overtaken(s, m);
      OvertakenSame(s, r, m);
    }
  }

  /** The cursor moves, and does not otherwise. */
  predicate Moves(policy: Policy, s: Stream, x: Input) {
    x.Packets? ==>
      var e := Entering(policy, s.(bestEffort := s.bestEffort || x.mismatch), x.p, x.now); e.Entered? && !Duplicate(e.s, x.p)
  }

  lemma JudgingNext(policy: Policy, s: Stream, x: Input)
    ensures Next(policy, s, x) == if Moves(policy, s, x) then Advanced(Judging(policy, s, x), x.now) else Judging(policy, s, x)
  {
    hide Evaluated, Advanced, Completed, Offered, Filed, GapsNoted, Entering, Duplicate;
  }

  lemma EntryMarked(policy: Policy, s: Stream, p: Packet, now: nat)
    requires Marked(s)
    ensures Marked(Entering(policy, s, p, now).s)
  {
    var r := Entering(policy, s, p, now).s;
    hide Overtaken;
    forall m | m in r.gaps && r.gaps[m].superseded ensures Overtaken(r, m) {
      assert Overtaken(s, m);
      OvertakenSame(s, r, m);
    }
  }

  lemma MarkedSame(s: Stream, r: Stream)
    requires Marked(s) && r.gaps == s.gaps && r.held == s.held && r.maxBlock == s.maxBlock
    ensures Marked(r)
  {
    hide Overtaken;
    forall m | m in r.gaps && r.gaps[m].superseded ensures Overtaken(r, m) {
      assert Overtaken(s, m);
      OvertakenSame(s, r, m);
    }
  }

  lemma JudgingMarked(policy: Policy, s: Stream, x: Input)
    requires Inv(policy, s) && Marked(s)
    ensures Inv(policy, Judging(policy, s, x)) && Marked(Judging(policy, s, x))
  {
    hide Inv, Marked, Evaluated, Completed, Offered, Filed, GapsNoted, Entering, Duplicate, PlausibleForward, Unnoted;
    match x {
      case Tick(live, now) =>
        EvaluatedMarked(policy, s, live, now);
        EvaluatedKeeps(policy, s, live, now);
      case FrameDone(block, live, now) =>
        CompletedMarked(policy, s, block);
        CompletedKeeps(policy, s, block);
        EvaluatedMarked(policy, Completed(policy, s, block), live, now);
        EvaluatedKeeps(policy, Completed(policy, s, block), live, now);
      case Packets(p, mismatch, budget, live, early, now) =>
        var s1 := s.(bestEffort := s.bestEffort || mismatch);
        MarksKeep(policy, s, s1);
        MarkedSame(s, s1);
        EntryMarked(policy, s1, p, now);
        EnteringKeeps(policy, s1, p, now);
        var e := Entering(policy, s1, p, now);
        if e.Entered? {
          if Duplicate(e.s, p) {
            var d := e.s.(tally := e.s.tally.(diversity := e.s.tally.diversity + 1));
            MarksKeep(policy, e.s, d);
            MarkedSame(e.s, d);
          } else {
            FiledMarked(e.s, p, budget, now);
            FiledReady(policy, e.s, p, budget, now);
            var f := Filed(e.s, p, budget, now);
            var g := GapsNoted(policy, f, now);
            OfferedMarked(policy, f, p, early, now);
            NotedKeeps(policy, f, now);
            OfferedMarked(policy, g, p, early, now);
            OfferedKeeps(policy, g, p, early);
            EvaluatedMarked(policy, Offered(policy, g, p, early), live, now);
            EvaluatedKeeps(policy, Offered(policy, g, p, early), live, now);
          }
        }
    }
  }

  lemma {:induction false} RunMarked(policy: Policy, s: Stream, inputs: seq<Input>)
    requires Inv(policy, s) && Marked(s)
    ensures Inv(policy, Run(policy, s, inputs)) && Marked(Run(policy, s, inputs))
    decreases |inputs|
  {
    hide Inv, Marked, Next, Judging, Moves;
    if inputs != [] {
      var x := inputs[0];
      JudgingMarked(policy, s, x);
      JudgingNext(policy, s, x);
      AdvancedMarked(policy, Judging(policy, s, x), x.now);
      NextKeeps(policy, s, x);
      RunMarked(policy, Next(policy, s, x), inputs[1..]);
    }
  }

  // ---- a gap waits --------------------------------------------------------------------------------------------

  lemma GapPassed(policy: Policy, v: Stream, now: nat, m: nat)
    requires Inv(policy, v) && Marked(v) && m in v.gaps && m < Advanced(v, now).cursor && Advanced(v, now).tally.resyncs == v.tally.resyncs
    requires !v.bestEffort
    ensures SameRecord(v, Advanced(v, now))
    ensures v.gaps[m].satisfied || Overtaken(v, m) || (v.maxBlock in v.blocks && now >= v.blocks[v.maxBlock].deadline)
  {
    assert v.cursor <= m && m !in v.held;
    assert forall e :: e in v.held ==> v.held[e].block <= v.maxBlock;
    hide Inv, Advanced, WrapRecord;
    AdvancedRecord(policy, v, now);
    assert SameRecord(v, Advanced(v, now)) by { if WrapRecord(v, Advanced(v, now)) { WrapCounts(v, Advanced(v, now)); } }
    hide SameRecord;
    PassedExcused(policy, v, now, m);
  }

  lemma WrapCounts(s: Stream, r: Stream)
    requires WrapRecord(s, r)
    ensures r.tally.resyncs == s.tally.resyncs + 1
  {
  }

  /**
   * In any run of a stream that is not best-effort a gap the cursor passes belonged to a completed frame, or lay below a packet
   * of a block older than the newest, or the newest block's first packet was heard its budget ago.
   */
  lemma GapWaits(policy: Policy, at: U32, block: U32, inputs: seq<Input>, x: Input, m: nat)
    requires var s := Run(policy, Latched(at, block), inputs);
             var v, r := Judging(policy, s, x), Next(policy, s, x);
             !r.bestEffort && r.tally.resyncs == v.tally.resyncs && m in v.gaps && m < r.cursor
    ensures var s := Run(policy, Latched(at, block), inputs);
            var v, r := Judging(policy, s, x), Next(policy, s, x);
            var start := StartOf(policy, Latched(at, block), None, inputs + [x], r.maxBlock);
            v.gaps[m].satisfied || Overtaken(v, m) || (start.Some? && x.now >= start.value.first + start.value.budget)
  {
    hide *;
    var s := Run(policy, Latched(at, block), inputs);
    var v, r := Judging(policy, s, x), Next(policy, s, x);
    LatchedInv(policy, at, block);
    LatchedMarked(at, block);
    RunMarked(policy, Latched(at, block), inputs);
    JudgingMarked(policy, s, x);
    JudgingNext(policy, s, x);
    RunSnoc(policy, Latched(at, block), inputs, x);
    DeadlineOnFile(policy, at, block, inputs + [x]);
    if Moves(policy, s, x) {
      AdvancedBest(v, x.now);
      GapPassed(policy, v, x.now, m);
      RecordNewest(v, r);
    } else {
      GapsAhead(policy, v, m);
    }
  }

  lemma LatchedMarked(at: U32, block: U32)
    ensures Marked(Latched(at, block))
  {
  }

  lemma GapsAhead(policy: Policy, s: Stream, m: nat)
    requires Inv(policy, s) && m in s.gaps
    ensures s.cursor <= m < s.maxSeq && m !in s.held
  {
  }

  lemma RecordNewest(s: Stream, r: Stream)
    requires SameRecord(s, r)
    ensures r.maxBlock == s.maxBlock && (s.maxBlock in s.blocks ==> s.maxBlock in r.blocks && r.blocks[s.maxBlock] == s.blocks[s.maxBlock])
  {
  }

  // ---- what satisfies a gap ---------------------------------------------------------------------------------

  /** The input reports a frame complete. */
  predicate Reports(x: Input) {
    x.FrameDone? || (x.Packets? && x.early.Some? && x.early.value.complete)
  }

  ghost predicate Unsatisfied(s: Stream) {
    s.completed == {} && forall m :: m in s.gaps ==> !s.gaps[m].satisfied
  }

  lemma {:induction false} AdvancedUnsatisfied(s: Stream, now: nat)
    requires Unsatisfied(s)
    ensures Unsatisfied(Advanced(s, now))
    decreases s.maxSeq - s.cursor + 1
  {
    if s.cursor <= s.maxSeq && s.cursor + 1 < SEQ_END {
      if s.cursor in s.held {
        AdvancedUnsatisfied(AfterConsumed(s), now);
      } else if s.cursor in s.gaps && SkipReason(s, s.gaps[s.cursor], now).Some? {
        AdvancedUnsatisfied(Stepped(GivenUp(s, SkipReason(s, s.gaps[s.cursor], now).value)), now);
      }
    }
  }

  lemma EvaluatedUnsatisfied(policy: Policy, s: Stream, live: Option<U32>, now: nat)
    requires Unsatisfied(s)
    ensures Unsatisfied(Evaluated(policy, s, live, now))
  {
    hide NewlyLost, BlockAbove;
  }

  lemma NotedUnsatisfied(policy: Policy, s: Stream, now: nat)
    requires Unsatisfied(s)
    ensures Unsatisfied(GapsNoted(policy, s, now))
  {
    hide GapBlock;
  }

  lemma JudgingUnsatisfied(policy: Policy, s: Stream, x: Input)
    requires Unsatisfied(s) && !Reports(x)
    ensures Unsatisfied(Judging(policy, s, x))
  {
    hide GapsNoted, Evaluated, Duplicate, PlausibleForward;
    match x {
      case Tick(live, now) => EvaluatedUnsatisfied(policy, s, live, now);
      case Packets(p, mismatch, budget, live, early, now) =>
        var e := Entering(policy, s.(bestEffort := s.bestEffort || mismatch), p, now);
        if e.Entered? && !Duplicate(e.s, p) {
          var f := Filed(e.s, p, budget, now);
          NotedUnsatisfied(policy, f, now);
          NotedRecord(policy, f, now);
          EvaluatedUnsatisfied(policy, Offered(policy, GapsNoted(policy, f, now), p, early), live, now);
        }
    }
  }

  lemma {:induction false} RunUnsatisfied(policy: Policy, s: Stream, inputs: seq<Input>)
    requires Unsatisfied(s) && forall i :: 0 <= i < |inputs| ==> !Reports(inputs[i])
    ensures Unsatisfied(Run(policy, s, inputs))
    decreases |inputs|
  {
    hide Unsatisfied, Next, Judging, Moves;
    if inputs != [] {
      JudgingUnsatisfied(policy, s, inputs[0]);
      JudgingNext(policy, s, inputs[0]);
      AdvancedUnsatisfied(Judging(policy, s, inputs[0]), inputs[0].now);
      RunUnsatisfied(policy, Next(policy, s, inputs[0]), inputs[1..]);
    }
  }

  /** As long as no frame is reported complete: a gap waits until it is overtaken or the newest block's time is up. */
  lemma GapWaitsUnreported(policy: Policy, at: U32, block: U32, inputs: seq<Input>, x: Input, m: nat)
    requires forall i :: 0 <= i < |inputs| ==> !Reports(inputs[i])
    requires var s := Run(policy, Latched(at, block), inputs);
             var v, r := Judging(policy, s, x), Next(policy, s, x);
             !Reports(x) && !r.bestEffort && r.tally.resyncs == v.tally.resyncs && m in v.gaps && m < r.cursor
    ensures var s := Run(policy, Latched(at, block), inputs);
            var v, r := Judging(policy, s, x), Next(policy, s, x);
            var start := StartOf(policy, Latched(at, block), None, inputs + [x], r.maxBlock);
            Overtaken(v, m) || (start.Some? && x.now >= start.value.first + start.value.budget)
  {
    hide *;
    GapWaits(policy, at, block, inputs, x, m);
    LatchedUnsatisfied(at, block);
    RunUnsatisfied(policy, Latched(at, block), inputs);
    JudgingUnsatisfied(policy, Run(policy, Latched(at, block), inputs), x);
    UnsatisfiedMeans(Judging(policy, Run(policy, Latched(at, block), inputs), x), m);
  }

  lemma LatchedUnsatisfied(at: U32, block: U32)
    ensures Unsatisfied(Latched(at, block))
  {
  }

  lemma UnsatisfiedMeans(s: Stream, m: nat)
    requires Unsatisfied(s) && m in s.gaps
    ensures !s.gaps[m].satisfied
  {
  }

  // ---- what fills a gap is handed out ---------------------------------------------------------------------------

  /** The packet is held for its turn, or was handed out. */
  ghost predicate InHand(s: Stream, p: Packet) {
    || (p.sequence in s.held && s.held[p.sequence].block == p.blockId && s.held[p.sequence].payload == p.payload && !s.held[p.sequence].early)
    || exists early: bool :: Delivery(p.sequence, p.blockId, p.payload, early) in s.log
  }

  lemma KeptSame(s: Stream, r: Stream, p: Packet)
    requires InHand(s, p) && r.held == s.held && r.log == s.log
    ensures InHand(r, p)
  {
  }

  lemma ConsumedKept(s: Stream, p: Packet)
    requires InHand(s, p) && s.cursor in s.held && s.cursor + 1 < SEQ_END
    ensures InHand(AfterConsumed(s), p)
  {
    var r := AfterConsumed(s);
    if p.sequence == s.cursor && !exists early: bool :: Delivery(p.sequence, p.blockId, p.payload, early) in s.log {
      assert r.log[|s.log|] == Delivery(p.sequence, p.blockId, p.payload, false);
    } else if early: bool :| Delivery(p.sequence, p.blockId, p.payload, early) in s.log {
      assert Delivery(p.sequence, p.blockId, p.payload, early) in r.log;
    }
  }

  lemma SameWhen(policy: Policy, s: Stream, now: nat)
    requires Inv(policy, s) && Advanced(s, now).tally.resyncs == s.tally.resyncs
    ensures SameRecord(s, Advanced(s, now))
  {
    hide Inv, Advanced;
    AdvancedRecord(policy, s, now);
  }

  lemma SameMeans(s: Stream, r: Stream)
    requires SameRecord(s, r)
    ensures r.tally.resyncs == s.tally.resyncs && r.cursor >= s.cursor
  {
  }

  lemma {:induction false} AdvancedKept(policy: Policy, s: Stream, now: nat, p: Packet)
    requires Inv(policy, s) && InHand(s, p) && Advanced(s, now).tally.resyncs == s.tally.resyncs
    ensures InHand(Advanced(s, now), p)
    decreases s.maxSeq - s.cursor + 1
  {
    hide *;
    SameWhen(policy, s, now);
    Stays(s, now);
    if s.cursor <= s.maxSeq && s.cursor in s.held {
      PassedHeld(policy, s, now);
      SameMeans(AfterConsumed(s), Advanced(s, now));
      ConsumedKept(s, p);
      AdvancedKept(policy, AfterConsumed(s), now, p);
    } else if s.cursor <= s.maxSeq && s.cursor in s.gaps && SkipReason(s, s.gaps[s.cursor], now).Some? {
      var n := Stepped(GivenUp(s, SkipReason(s, s.gaps[s.cursor], now).value));
      PassedGap(policy, s, now);
      SameMeans(n, Advanced(s, now));
      GivenUpHand(s, SkipReason(s, s.gaps[s.cursor], now).value);
      KeptSame(s, n, p);
      AdvancedKept(policy, n, now, p);
    }
  }

  lemma Stays(s: Stream, now: nat)
    ensures s.cursor > s.maxSeq || (s.cursor !in s.held && (s.cursor in s.gaps ==> SkipReason(s, s.gaps[s.cursor], now).None?))
            ==> Advanced(s, now) == s
  {
    hide SkipReason;
  }

  lemma GivenUpHand(s: Stream, why: Skip)
    requires s.cursor + 1 < SEQ_END
    ensures Stepped(GivenUp(s, why)).held == s.held && Stepped(GivenUp(s, why)).log == s.log
  {
  }

  lemma FiledKept(s: Stream, q: Packet, budget: nat, now: nat, p: Packet)
    requires !Duplicate(s, q) && (InHand(s, p) || p == q)
    ensures var f := Filed(s, q, budget, now);
            InHand(f, p) && q.sequence in f.held && f.held[q.sequence].block == q.blockId && f.held[q.sequence].payload == q.payload
  {
  }

  lemma OfferedKept(policy: Policy, s: Stream, q: Packet, early: Option<Early>, p: Packet)
    requires InHand(s, p) && q.sequence in s.held && s.held[q.sequence].block == q.blockId && s.held[q.sequence].payload == q.payload
    ensures InHand(Offered(policy, s, q, early), p)
  {
    hide Trimmed, GapBlock;
    var o := Offered(policy, s, q, early);
    if b: bool :| Delivery(p.sequence, p.blockId, p.payload, b) in s.log {
      assert Delivery(p.sequence, p.blockId, p.payload, b) in o.log;
    } else if p.sequence == q.sequence && early.Some? && early.value.handled {
      assert o.log[|s.log|] == Delivery(p.sequence, p.blockId, p.payload, true);
    }
  }

  lemma NotedHand(policy: Policy, s: Stream, now: nat, live: Option<U32>)
    ensures GapsNoted(policy, s, now).held == s.held && GapsNoted(policy, s, now).log == s.log
    ensures Evaluated(policy, s, live, now).held == s.held && Evaluated(policy, s, live, now).log == s.log
  {
    hide NewlyLost, Judged, NewGap;
  }

  lemma TakenKept(policy: Policy, s: Stream, x: Input, p: Packet)
    requires x.Packets? && !Duplicate(s, x.p) && (InHand(s, p) || p == x.p)
    ensures var f := Filed(s, x.p, x.budget, x.now);
            InHand(Evaluated(policy, Offered(policy, GapsNoted(policy, f, x.now), x.p, x.early), x.live, x.now), p)
  {
    var f := Filed(s, x.p, x.budget, x.now);
    FiledKept(s, x.p, x.budget, x.now, p);
    hide Filed, InHand, Offered, GapsNoted, Evaluated, Duplicate;
    var g := GapsNoted(policy, f, x.now);
    NotedHand(policy, f, x.now, x.live);
    KeptSame(f, g, p);
    OfferedKept(policy, g, x.p, x.early, p);
    var o := Offered(policy, g, x.p, x.early);
    NotedHand(policy, o, x.now, x.live);
    KeptSame(o, Evaluated(policy, o, x.live, x.now), p);
  }

  lemma EntryKept(policy: Policy, s: Stream, q: Packet, now: nat)
    requires Entering(policy, s, q, now).s.tally.resyncs == s.tally.resyncs
    ensures Entering(policy, s, q, now).s.held == s.held && Entering(policy, s, q, now).s.log == s.log
  {
  }

  lemma JudgingKept(policy: Policy, s: Stream, x: Input, p: Packet)
    requires InHand(s, p) || (x.Packets? && x.p == p && Moves(policy, s, x))
    requires Judging(policy, s, x).tally.resyncs == s.tally.resyncs
    ensures InHand(Judging(policy, s, x), p)
  {
    hide InHand, Duplicate, Entering, Filed, Offered, GapsNoted;
    match x {
      case Tick(live, now) =>
        NotedHand(policy, s, now, live);
        KeptSame(s, Judging(policy, s, x), p);
      case FrameDone(block, live, now) =>
        NotedHand(policy, Completed(policy, s, block), now, live);
        KeptSame(s, Judging(policy, s, x), p);
      case Packets(q, mismatch, budget, live, early, now) =>
        var s1 := s.(bestEffort := s.bestEffort || mismatch);
        var e := Entering(policy, s1, q, now);
        EntryResyncs(policy, s1, x);
        EntryKept(policy, s1, q, now);
        if e.Entered? && !Duplicate(e.s, q) {
          if InHand(s, p) { KeptSame(s, e.s, p); }
          hide Evaluated;
          TakenKept(policy, e.s, x, p);
        } else {
          KeptSame(s, Judging(policy, s, x), p);
        }
    }
  }

  lemma EntryResyncs(policy: Policy, s: Stream, x: Input)
    requires x.Packets?
    ensures var e := Entering(policy, s, x.p, x.now);
            && e.s.tally.resyncs >= s.tally.resyncs
            && (e.Entered? && !Duplicate(e.s, x.p) ==>
                  Evaluated(policy, Offered(policy, GapsNoted(policy, Filed(e.s, x.p, x.budget, x.now), x.now), x.p, x.early), x.live, x.now).tally.resyncs
                  == e.s.tally.resyncs)
  {
    hide NewlyLost, Judged, NewGap, GapBlock, Trimmed, PlausibleForward;
  }

  lemma JudgingResyncs(policy: Policy, s: Stream, x: Input)
    requires Inv(policy, s)
    ensures s.tally.resyncs <= Judging(policy, s, x).tally.resyncs <= Next(policy, s, x).tally.resyncs
  {
    hide Filed, Offered, GapsNoted, Evaluated, Duplicate, Entering, Inv, Advanced, NewlyLost;
    JudgingNext(policy, s, x);
    JudgingInv(policy, s, x);
    AdvancedRecord(policy, Judging(policy, s, x), x.now);
    match x {
      case Tick(live, now) => EvaluatedResyncs(policy, s, live, now);
      case FrameDone(block, live, now) => EvaluatedResyncs(policy, Completed(policy, s, block), live, now);
      case Packets(p, mismatch, budget, live, early, now) => EntryResyncs(policy, s.(bestEffort := s.bestEffort || mismatch), x);
    }
  }

  lemma EvaluatedResyncs(policy: Policy, s: Stream, live: Option<U32>, now: nat)
    ensures Evaluated(policy, s, live, now).tally.resyncs == s.tally.resyncs
  {
  }

  lemma JudgingInv(policy: Policy, s: Stream, x: Input)
    requires Inv(policy, s)
    ensures Inv(policy, Judging(policy, s, x))
  {
    hide Inv, Unnoted, Filed, GapsNoted, Offered, Evaluated, Entering, Duplicate, PlausibleForward;
    match x {
      case Tick(live, now) => EvaluatedKeeps(policy, s, live, now);
      case FrameDone(block, live, now) =>
        CompletedKeeps(policy, s, block);
        EvaluatedKeeps(policy, Completed(policy, s, block), live, now);
      case Packets(p, mismatch, budget, live, early, now) =>
        var s1 := s.(bestEffort := s.bestEffort || mismatch);
        MarksKeep(policy, s, s1);
        EnteringKeeps(policy, s1, p, now);
        var e := Entering(policy, s1, p, now);
        if e.Entered? {
          if Duplicate(e.s, p) {
            MarksKeep(policy, e.s, e.s.(tally := e.s.tally.(diversity := e.s.tally.diversity + 1)));
          } else {
            FiledReady(policy, e.s, p, budget, now);
            var f := Filed(e.s, p, budget, now);
            NotedKeeps(policy, f, now);
            OfferedKeeps(policy, GapsNoted(policy, f, now), p, early);
            EvaluatedKeeps(policy, Offered(policy, GapsNoted(policy, f, now), p, early), live, now);
          }
        }
    }
  }

  lemma NextKept(policy: Policy, s: Stream, x: Input, p: Packet)
    requires Inv(policy, s) && (InHand(s, p) || (x.Packets? && x.p == p && Moves(policy, s, x)))
    requires Next(policy, s, x).tally.resyncs == s.tally.resyncs
    ensures InHand(Next(policy, s, x), p)
  {
    hide *;
    JudgingResyncs(policy, s, x);
    JudgingKept(policy, s, x, p);
    JudgingNext(policy, s, x);
    JudgingInv(policy, s, x);
    if Moves(policy, s, x) { AdvancedKept(policy, Judging(policy, s, x), x.now, p); }
  }

  lemma {:induction false} RunResyncs(policy: Policy, s: Stream, inputs: seq<Input>)
    requires Inv(policy, s)
    ensures Run(policy, s, inputs).tally.resyncs >= s.tally.resyncs
    decreases |inputs|
  {
    hide Inv, Next;
    if inputs != [] {
      NextKeeps(policy, s, inputs[0]);
      JudgingResyncs(policy, s, inputs[0]);
      RunResyncs(policy, Next(policy, s, inputs[0]), inputs[1..]);
    }
  }

  lemma {:induction false} RunKept(policy: Policy, s: Stream, inputs: seq<Input>, p: Packet)
    requires Inv(policy, s) && InHand(s, p) && Run(policy, s, inputs).tally.resyncs == s.tally.resyncs
    ensures InHand(Run(policy, s, inputs), p)
    decreases |inputs|
  {
    hide Inv, Next, InHand;
    if inputs != [] {
      var r := Next(policy, s, inputs[0]);
      NextKeeps(policy, s, inputs[0]);
      JudgingResyncs(policy, s, inputs[0]);
      RunResyncs(policy, r, inputs[1..]);
      NextKept(policy, s, inputs[0], p);
      RunKept(policy, r, inputs[1..], p);
    }
  }

  /** Handed out, at its turn or early. */
  ghost predicate HandedOut(s: Stream, p: Packet) {
    exists early: bool :: Delivery(p.sequence, p.blockId, p.payload, early) in s.log
  }

  /** In any run a packet within the clamps that fills a gap is taken, and handed out by the time the cursor is past it. */
  lemma FilledHandedOut(policy: Policy, at: U32, block: U32, inputs: seq<Input>, x: Input, more: seq<Input>)
    requires var s := Run(policy, Latched(at, block), inputs);
             && x.Packets? && x.p.sequence in s.gaps
             && x.p.sequence - s.cursor <= policy.clampPackets && x.p.blockId - s.maxBlock <= policy.clampBlocks
             && Run(policy, Next(policy, s, x), more).tally.resyncs == s.tally.resyncs
    ensures var z := Run(policy, Next(policy, Run(policy, Latched(at, block), inputs), x), more);
            if z.cursor > x.p.sequence then HandedOut(z, x.p) else x.p.sequence in z.held || HandedOut(z, x.p)
  {
    hide *;
    var s := Run(policy, Latched(at, block), inputs);
    var r := Next(policy, s, x);
    LatchedInv(policy, at, block);
    RunKeeps(policy, Latched(at, block), inputs);
    FillMoves(policy, s, x);
    NextKeeps(policy, s, x);
    JudgingResyncs(policy, s, x);
    RunResyncs(policy, r, more);
    NextKept(policy, s, x, x.p);
    RunKept(policy, r, more, x.p);
    RunKeeps(policy, r, more);
    HandOr(policy, Run(policy, r, more), x.p);
  }

  lemma HandOr(policy: Policy, s: Stream, p: Packet)
    requires Inv(policy, s) && InHand(s, p)
    ensures if s.cursor > p.sequence then HandedOut(s, p) else p.sequence in s.held || HandedOut(s, p)
  {
  }

  lemma FillMoves(policy: Policy, s: Stream, x: Input)
    requires Inv(policy, s) && x.Packets? && x.p.sequence in s.gaps
    requires x.p.sequence - s.cursor <= policy.clampPackets && x.p.blockId - s.maxBlock <= policy.clampBlocks
    ensures Moves(policy, s, x)
  {
    GapsAhead(policy, s, x.p.sequence);
    hide Inv;
  }

  // ---- three packets --------------------------------------------------------------------------------------------

  const PLAIN := DataFlags(false, false, false)

  /** Packet n of block 7, budget 50. */
  function Sent(n: U32, payload: seq<Byte>, now: nat): Input {
    Packets(Packet(n, 7, PLAIN, payload), false, 50, None, None, now)
  }

  /** Packet 0 handed out at 10, packet 2 waiting for packet 1. */
  ghost predicate AwaitsOne(s: Stream, a: seq<Byte>, c: seq<Byte>) {
    && s.cursor == 1 && s.maxSeq == 2 && s.maxBlock == 7 && s.lastDelivered == 7 && !s.bestEffort && s.firstClamp == 0
    && s.held == map[2 := RxSpec.Kept(7, PLAIN, c, false)] && s.gaps.Keys == {1} && !s.gaps[1].satisfied && !s.gaps[1].superseded
    && s.blocks == map[7 := Info(10, 60)] && s.completed == {} && s.log == [Delivery(0, 7, a, false)]
  }

  ghost predicate OneTaken(s: Stream, a: seq<Byte>) {
    && s.cursor == 1 && s.maxSeq == 0 && s.maxBlock == 7 && s.lastDelivered == 7 && !s.bestEffort && s.firstClamp == 0
    && s.held == map[] && s.gaps == map[] && s.blocks == map[7 := Info(10, 60)] && s.completed == {} && s.log == [Delivery(0, 7, a, false)]
  }

  lemma FirstTaken(policy: Policy, a: seq<Byte>)
    ensures OneTaken(Next(policy, Latched(0, 7), Sent(0, a, 10)), a)
  {
    var x := Sent(0, a, 10);
    var f := Filed(Latched(0, 7), x.p, 50, 10);
    assert f.held == map[0 := RxSpec.Kept(7, PLAIN, a, false)] && f.gaps == map[] && f.blocks == map[7 := Info(10, 60)];
    assert GapsNoted(policy, f, 10) == f;
    assert Next(policy, Latched(0, 7), x) == Settled(policy, f, None, 10);
    hide Settled;
    FirstOut(policy, f, a);
  }

  lemma FirstOut(policy: Policy, f: Stream, a: seq<Byte>)
    requires f.cursor == f.maxSeq == 0 && f.maxBlock == f.lastDelivered == 7 && !f.bestEffort && f.firstClamp == 0 && f.completed == {}
    requires f.held == map[0 := RxSpec.Kept(7, PLAIN, a, false)] && f.gaps == map[] && f.blocks == map[7 := Info(10, 60)] && f.log == []
    ensures OneTaken(Settled(policy, f, None, 10), a)
  {
    hide Judged, NewlyLost;
    var v := Evaluated(policy, f, None, 10);
    assert v.gaps == map[] && v.held == f.held;
    var r := AfterConsumed(v);
    assert r.held == map[] && r.gaps == map[] && r.blocks == map[7 := Info(10, 60)] && r.cursor == 1;
    assert Advanced(r, 10) == r;
    assert Advanced(v, 10) == Advanced(r, 10);
  }

  lemma ThirdWaits(policy: Policy, s: Stream, a: seq<Byte>, c: seq<Byte>)
    requires OneTaken(s, a) && policy.clampPackets >= 2
    ensures AwaitsOne(Next(policy, s, Sent(2, c, 10)), a, c)
  {
    var x := Sent(2, c, 10);
    var f := Filed(s, x.p, 50, 10);
    assert f.held == map[2 := RxSpec.Kept(7, PLAIN, c, false)] && f.gaps == map[];
    assert f.blocks == map[7 := Info(10, 60)];
    var g := GapsNoted(policy, f, 10);
    assert g.gaps.Keys == {1} && !g.gaps[1].satisfied && !g.gaps[1].superseded;
    WaitsStill(policy, g, None, 10, c);
  }

  /** Before 60 nothing moves. */
  lemma WaitsStill(policy: Policy, g: Stream, live: Option<U32>, now: nat, c: seq<Byte>)
    requires g.cursor == 1 && g.maxSeq == 2 && g.maxBlock == 7 && !g.bestEffort && g.held == map[2 := RxSpec.Kept(7, PLAIN, c, false)]
    requires g.gaps.Keys == {1} && !g.gaps[1].satisfied && !g.gaps[1].superseded && g.blocks == map[7 := Info(10, 60)]
    ensures var v := Evaluated(policy, g, live, now);
            && v.gaps.Keys == {1} && !v.gaps[1].satisfied && !v.gaps[1].superseded && v == g.(gaps := v.gaps, tally := v.tally)
            && (now < 60 ==> Settled(policy, g, live, now) == v)
            && (now >= 60 ==> SkipReason(v, v.gaps[1], now) == Some(Skip.Deadline))
  {
    hide NewlyLost;
    var v := Evaluated(policy, g, live, now);
    assert HeldFrom(g.held, 2, 2) == Some(2);
    assert BlockAbove(g, 1) == Some(7);
    assert v.gaps.Keys == g.gaps.Keys && v.gaps[1] == Judged(policy, g, 1, g.gaps[1], live, now);
    assert v == g.(gaps := v.gaps, tally := v.tally);
    assert v.held == g.held && BlockAbove(v, 1) == Some(7);
  }

  /** The missing packet comes at 10: all three go out in order. */
  lemma SecondFills(policy: Policy, s: Stream, a: seq<Byte>, b: seq<Byte>, c: seq<Byte>)
    requires AwaitsOne(s, a, c)
    ensures Next(policy, s, Sent(1, b, 10)).log == [Delivery(0, 7, a, false), Delivery(1, 7, b, false), Delivery(2, 7, c, false)]
  {
    var x := Sent(1, b, 10);
    var f := Filed(s, x.p, 50, 10);
    assert f.gaps.Keys == {};
    assert f.held == map[2 := RxSpec.Kept(7, PLAIN, c, false), 1 := RxSpec.Kept(7, PLAIN, b, false)];
    assert GapsNoted(policy, f, 10).gaps.Keys == {};
    var v := Evaluated(policy, GapsNoted(policy, f, 10), None, 10);
    assert v.held == f.held && v.cursor == 1 && v.maxSeq == 2 && v.log == s.log;
    TwoOut(v, 10, a, b, c);
  }

  lemma TwoOut(v: Stream, now: nat, a: seq<Byte>, b: seq<Byte>, c: seq<Byte>)
    requires v.cursor == 1 && v.maxSeq == 2 && v.log == [Delivery(0, 7, a, false)]
    requires v.held == map[2 := RxSpec.Kept(7, PLAIN, c, false), 1 := RxSpec.Kept(7, PLAIN, b, false)]
    ensures Advanced(v, now).log == [Delivery(0, 7, a, false), Delivery(1, 7, b, false), Delivery(2, 7, c, false)]
  {
    var w := AfterConsumed(v);
    assert w.cursor == 2 && w.held == map[2 := RxSpec.Kept(7, PLAIN, c, false)] && w.maxSeq == 2;
    var y := AfterConsumed(w);
    assert y.cursor == 3 && y.maxSeq == 2;
    assert Advanced(y, now) == y;
    assert Advanced(w, now) == y;
    assert Advanced(v, now) == Advanced(w, now);
  }

  /** The same missing at 60: given up at its deadline, and the third packet goes out. */
  lemma SecondMissing(policy: Policy, s: Stream, a: seq<Byte>, c: seq<Byte>, live: Option<U32>, now: nat)
    requires AwaitsOne(s, a, c)
    ensures var r := Next(policy, s, Tick(live, now));
            if now < 60 then r.log == s.log && r.tally.deadline == s.tally.deadline
            else r.log == s.log + [Delivery(2, 7, c, false)] && r.tally.deadline == s.tally.deadline + 1
  {
    WaitsStill(policy, s, live, now, c);
    var v := Evaluated(policy, s, live, now);
    assert v.tally.deadline == s.tally.deadline && v.log == s.log;
    if now >= 60 {
      hide SkipReason, Evaluated;
      var g := Stepped(GivenUp(v, Skip.Deadline));
      assert g.cursor == 2 && g.held == map[2 := RxSpec.Kept(7, PLAIN, c, false)] && g.maxSeq == 2;
      var r := AfterConsumed(g);
      assert r.cursor == 3 && Advanced(r, now) == r;
      assert Advanced(g, now) == Advanced(r, now);
      assert Advanced(v, now) == Advanced(g, now);
    }
  }

  /**
   * Packets 0 and 2 of one block at time 10 with a budget of 50: if packet 1 comes at 10 too, all three go out in order; if it
   * does not, a tick before 60 moves nothing, and a tick from 60 on gives it up and hands out the other.
   */
  lemma ThreePackets(policy: Policy, a: seq<Byte>, b: seq<Byte>, c: seq<Byte>, live: Option<U32>, now: nat)
    requires policy.clampPackets >= 2
    ensures var two := [Sent(0, a, 10), Sent(2, c, 10)];
            && Run(policy, Latched(0, 7), two + [Sent(1, b, 10)]).log
               == [Delivery(0, 7, a, false), Delivery(1, 7, b, false), Delivery(2, 7, c, false)]
            && Run(policy, Latched(0, 7), two + [Tick(live, now)]).log
               == if now < 60 then [Delivery(0, 7, a, false)] else [Delivery(0, 7, a, false), Delivery(2, 7, c, false)]
  {
    hide *;
    var one := Next(policy, Latched(0, 7), Sent(0, a, 10));
    FirstTaken(policy, a);
    ThirdWaits(policy, one, a, c);
    var s := Next(policy, one, Sent(2, c, 10));
    SecondFills(policy, s, a, b, c);
    SecondMissing(policy, s, a, c, live, now);
    AwaitsLog(s, a, c);
    TwoInputs(policy, Latched(0, 7), Sent(0, a, 10), Sent(2, c, 10));
    RunSnoc(policy, Latched(0, 7), [Sent(0, a, 10), Sent(2, c, 10)], Sent(1, b, 10));
    RunSnoc(policy, Latched(0, 7), [Sent(0, a, 10), Sent(2, c, 10)], Tick(live, now));
    assert [Delivery(0, 7, a, false)] + [Delivery(2, 7, c, false)] == [Delivery(0, 7, a, false), Delivery(2, 7, c, false)];
  }

  lemma AwaitsLog(s: Stream, a: seq<Byte>, c: seq<Byte>)
    requires AwaitsOne(s, a, c)
    ensures s.log == [Delivery(0, 7, a, false)]
  {
  }

  lemma TwoInputs(policy: Policy, s: Stream, x: Input, y: Input)
    ensures Run(policy, s, [x, y]) == Next(policy, Next(policy, s, x), y)
  {
    hide Next;
    var two := [x, y];
    assert two[1..] == [y] && [y][1..] == [];
    assert Run(policy, s, two) == Run(policy, Next(policy, s, x), [y]);
    assert Run(policy, Next(policy, s, x), [y]) == Run(policy, Next(policy, Next(policy, s, x), y), []);
  }
}
