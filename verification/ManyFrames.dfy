/** Many frames at once: exactly which of them a receiver hands on, each once and as it was sent. */
module ManyFrames {
  import opened Bytes
  import opened Keys
  import opened Rlc
  import opened FrameBlock
  import opened ReassemblerSpec
  import opened ReassemblerRuns
  import opened FrameDelivery

  /** What was handed to the egress for a block, salvage apart. */
  function HandedOut(log: seq<Emission>, id: U32): seq<Emission> {
    if log == [] then []
    else
      var e := log[|log| - 1];
      HandedOut(log[..|log| - 1], id) + if e.id == id && e.path != Salvage then [e] else []
  }

  /** The block, or one after it, has been handed on or given up; its packets are refused. */
  predicate Closed(st: State, id: U32) {
    st.finalizedUpto.Some? && SerialDiff(id, st.finalizedUpto.value) <= 0
  }

  lemma HandedOne(log: seq<Emission>, e: Emission, id: U32)
    ensures HandedOut(log + [e], id) == HandedOut(log, id) + if e.id == id && e.path != Salvage then [e] else []
  {
    assert (log + [e])[..|log|] == log;
  }

  /** Salvages and other blocks' frames do not count. */
  lemma {:induction false} HandedSame(log: seq<Emission>, more: seq<Emission>, id: U32)
    requires |log| <= |more| && more[..|log|] == log
    requires forall i :: |log| <= i < |more| ==> more[i].path == Salvage || more[i].id != id
    ensures HandedOut(more, id) == HandedOut(log, id)
    decreases |more|
  {
    if |more| > |log| {
      var n := |more| - 1;
      assert more[..n][..|log|] == log;
      HandedSame(log, more[..n], id);
    } else {
      assert more == log;
    }
  }

  /** An open block holds exactly what arrived of it, too little to complete; handed on, its frame went out once. */
  ghost predicate Tracked(m: Sent, id: U32, st: State, arrived: set<int>, done: bool)
    requires Geometry(m.frame, m.k, m.s) && (m.r == 0 || m.k + m.r <= MAX_SYMBOLS)
  {
    if done then Closed(st, id) && exists e: Emission :: HandedOut(st.log, id) == [e] && e.frame == m.frame
    else
      && HandedOut(st.log, id) == []
      && (!Closed(st, id) ==>
            && |arrived| < m.k
            && (arrived == {} ==> id !in st.blocks)
            && (arrived != {} ==>
                  && id in st.blocks && Held(st.blocks[id], m) && BlockValid(st.blocks[id])
                  && Exactly(st.blocks[id], m.k, arrived)))
  }

  /** A step that closes no more than it closes, and leaves an open block of this id alone, keeps track of it. */
  lemma TrackedFrame(m: Sent, id: U32, st: State, st': State, arrived: set<int>, done: bool)
    requires Geometry(m.frame, m.k, m.s) && (m.r == 0 || m.k + m.r <= MAX_SYMBOLS) && Tracked(m, id, st, arrived, done)
    requires HandedOut(st'.log, id) == HandedOut(st.log, id) && (Closed(st, id) ==> Closed(st', id))
    requires !Closed(st', id) ==> (id in st'.blocks <==> id in st.blocks) && (id in st.blocks ==> st'.blocks[id] == st.blocks[id])
    ensures Tracked(m, id, st', arrived, done)
  {
    hide Held, BlockValid, Exactly, Geometry, Closed;
  }

  /** The watermark never goes back, so what is closed stays so. */
  lemma ClosedLater(base: U32, st: State, st': State, id: U32, other: U32)
    requires Within(base, st.finalizedUpto) && InWindow(base, id) && InWindow(base, other)
    requires st'.finalizedUpto == Later(st.finalizedUpto, other)
    ensures Closed(st, id) ==> Closed(st', id)
    ensures other == id ==> Closed(st', id)
  {
    hide Off, SerialDiff, Later;
    LaterKeeps(base, st.finalizedUpto, other);
    SerialIsOrder(base, id, st'.finalizedUpto.value);
    if st.finalizedUpto.Some? { SerialIsOrder(base, id, st.finalizedUpto.value); }
  }

  lemma RetireTracks(base: U32, env: Environment, m: Sent, id: U32, st: State, other: U32, cause: Cause,
                     arrived: set<int>, done: bool)
    requires Geometry(m.frame, m.k, m.s) && (m.r == 0 || m.k + m.r <= MAX_SYMBOLS) && Tracked(m, id, st, arrived, done)
    requires Inv(base, st) && InWindow(base, id) && other in st.blocks
    ensures Tracked(m, id, Retired(env, st, other, cause), arrived, done)
  {
    var r := Retired(env, st, other, cause);
    assert InWindow(base, other) && Within(base, st.finalizedUpto);
    hide Inv, Tracked, Retired, Later, Closed, InWindow, Within, Geometry;
    RetiredShape(env, st, other, cause);
    HandedSame(st.log, r.log, id);
    ClosedLater(base, st, r, id, other);
    TrackedFrame(m, id, st, r, arrived, done);
  }

  lemma {:induction false} SupersedeTracks(base: U32, cfg: Config, env: Environment, m: Sent, id: U32, st: State,
                                           ids: seq<nat>, newest: U32, arrived: set<int>, done: bool)
    requires Geometry(m.frame, m.k, m.s) && (m.r == 0 || m.k + m.r <= MAX_SYMBOLS) && Tracked(m, id, st, arrived, done)
    requires Inv(base, st) && InWindow(base, id) && InWindow(base, newest)
    ensures Tracked(m, id, SupersededBy(cfg, env, st, ids, newest), arrived, done)
    ensures Inv(base, SupersededBy(cfg, env, st, ids, newest))
    decreases |ids|
  {
    hide Tracked, Inv, Retired, SerialDiff, Geometry, InWindow;
    if ids != [] {
      var other := ids[0];
      if other in st.blocks && SerialDiff(newest, other) > cfg.maxBlocksAhead {
        RetireTracks(base, env, m, id, st, other, Superseded, arrived, done);
        RetireInv(base, env, st, other, Superseded);
        SupersedeTracks(base, cfg, env, m, id, Retired(env, st, other, Superseded), ids[1..], newest, arrived, done);
      } else {
        SupersedeTracks(base, cfg, env, m, id, st, ids[1..], newest, arrived, done);
      }
    }
  }

  lemma RetireInv(base: U32, env: Environment, st: State, id: U32, cause: Cause)
    requires Inv(base, st) && id in st.blocks
    ensures Inv(base, Retired(env, st, id, cause))
  {
    assert UpTo(base, st, 0x8000_0000) && Off(base, id) < 0x8000_0000 by { assert InWindow(base, id); }
    hide Inv, Retired, UpTo, Off;
    RetireKeeps(base, env, st, id, cause, 0x8000_0000);
  }

  lemma {:induction false} TickedTracks(base: U32, cfg: Config, env: Environment, m: Sent, id: U32, st: State,
                                        ids: seq<nat>, now: nat, arrived: set<int>, done: bool)
    requires Geometry(m.frame, m.k, m.s) && (m.r == 0 || m.k + m.r <= MAX_SYMBOLS) && Tracked(m, id, st, arrived, done)
    requires Inv(base, st) && InWindow(base, id)
    ensures Tracked(m, id, Ticked(cfg, env, st, ids, now), arrived, done)
    decreases |ids|
  {
    hide Tracked, Inv, Retired, Geometry, InWindow;
    if ids != [] {
      var other := ids[0];
      if other in st.blocks && now >= st.blocks[other].firstMs + cfg.deadlineMs {
        RetireTracks(base, env, m, id, st, other, Deadline, arrived, done);
        RetireInv(base, env, st, other, Deadline);
        TickedTracks(base, cfg, env, m, id, Retired(env, st, other, Deadline), ids[1..], now, arrived, done);
      } else {
        TickedTracks(base, cfg, env, m, id, st, ids[1..], now, arrived, done);
      }
    }
  }

  // ---- a packet of another block ------------------------------------------------------------------------

  lemma OtherCompletes(base: U32, cfg: Config, env: Environment, m: Sent, id: U32, st: State, other: U32,
                       arrived: set<int>, done: bool)
    requires Geometry(m.frame, m.k, m.s) && (m.r == 0 || m.k + m.r <= MAX_SYMBOLS) && Tracked(m, id, st, arrived, done)
    requires Inv(base, st) && InWindow(base, id) && other in st.blocks && other != id
    ensures Tracked(m, id, Completed(cfg, env, st, other), arrived, done)
  {
    var r := Completed(cfg, env, st, other);
    assert InWindow(base, other) && Within(base, st.finalizedUpto);
    hide Inv, Tracked, Completed, Later, Closed, InWindow, Within, Geometry;
    CompletedShape(cfg, env, st, other);
    if r != st {
      HandedSame(st.log, r.log, id);
      ClosedLater(base, st, r, id, other);
      TrackedFrame(m, id, st, r, arrived, done);
    }
  }

  lemma OtherTaken(base: U32, cfg: Config, env: Environment, m: Sent, id: U32, st: State, other: U32, taken: Ingested,
                   arrived: set<int>, done: bool)
    requires Geometry(m.frame, m.k, m.s) && (m.r == 0 || m.k + m.r <= MAX_SYMBOLS) && Tracked(m, id, st, arrived, done)
    requires Inv(base, st) && InWindow(base, id) && InWindow(base, other) && other != id && BlockValid(taken.block)
    ensures Tracked(m, id, TakenIn(cfg, env, st, other, taken), arrived, done)
  {
    hide Inv, Tracked, Completed, SupersededBy, InWindow, Geometry, SerialDiff, Ascending, BlockValid, Closed;
    var st1 := st.(blocks := st.blocks[other := taken.block]);
    var newest := st1.(highest := Some(other));
    FiledKeeps(base, st, other, taken.block);
    SameClosed(st, st1, id);
    SameClosed(st, newest, id);
    TrackedFrame(m, id, st, st1, arrived, done);
    TrackedFrame(m, id, st, newest, arrived, done);
    if !taken.ok {
      var counted := st1.(stats := st1.stats.(malformed := st1.stats.malformed + 1));
      SameClosed(st, counted, id);
      TrackedFrame(m, id, st, counted, arrived, done);
    } else {
      SupersedeTracks(base, cfg, env, m, id, newest, Ascending(st1.blocks.Keys), other, arrived, done);
      var st2 := AfterSupersession(cfg, env, st1, other);
      if other in st2.blocks { OtherCompletes(base, cfg, env, m, id, st2, other, arrived, done); }
    }
  }

  lemma SameClosed(st: State, st': State, id: U32)
    requires st'.finalizedUpto == st.finalizedUpto
    ensures Closed(st', id) == Closed(st, id)
  {
  }

  lemma OtherPushed(base: U32, cfg: Config, env: Environment, m: Sent, id: U32, st: State, other: U32,
                    flags: DataFlags, p: seq<Byte>, now: nat, arrived: set<int>, done: bool)
    requires Geometry(m.frame, m.k, m.s) && (m.r == 0 || m.k + m.r <= MAX_SYMBOLS) && Tracked(m, id, st, arrived, done)
    requires Inv(base, st) && InWindow(base, id) && InWindow(base, other) && other != id
    ensures Tracked(m, id, Pushed(cfg, env, st, other, flags, p, now), arrived, done)
  {
    var b := if other in st.blocks then st.blocks[other] else NewBlock(now);
    assert BlockValid(b);
    hide Inv, Tracked, TakenIn, Ingest, InWindow, Geometry, SerialDiff, BlockValid;
    IngestKeepsValid(cfg, b, flags, p, now);
    OtherTaken(base, cfg, env, m, id, st, other, Ingest(cfg, b, flags, p, now), arrived, done);
  }

  // ---- a packet of the block itself ---------------------------------------------------------------------

  /** Nothing of the newest block, or of a block no newer one came after, is superseded. */
  lemma {:induction false} OwnBlockStays(base: U32, cfg: Config, env: Environment, st: State, ids: seq<nat>, id: U32)
    requires Inv(base, st) && InWindow(base, id) && id in st.blocks && UpTo(base, st, Off(base, id))
    ensures var r := SupersededBy(cfg, env, st, ids, id);
            && Inv(base, r) && id in r.blocks && r.blocks[id] == st.blocks[id] && UpTo(base, r, Off(base, id))
            && HandedOut(r.log, id) == HandedOut(st.log, id)
    decreases |ids|
  {
    hide Inv, Retired, SerialDiff, InWindow, UpTo, Off;
    if ids != [] {
      var other := ids[0];
      if other in st.blocks && SerialDiff(id, other) > cfg.maxBlocksAhead {
        var r := Retired(env, st, other, Superseded);
        OlderFirst(base, st, id, other, cfg.maxBlocksAhead);
        RetireKeeps(base, env, st, other, Superseded, Off(base, id));
        RetiredShape(env, st, other, Superseded);
        HandedSame(st.log, r.log, id);
        OwnBlockStays(base, cfg, env, r, ids[1..], id);
      } else {
        OwnBlockStays(base, cfg, env, st, ids[1..], id);
      }
    }
  }

  lemma OlderFirst(base: U32, st: State, id: U32, other: U32, ahead: Ahead)
    requires Inv(base, st) && InWindow(base, id) && other in st.blocks && SerialDiff(id, other) > ahead
    ensures Off(base, other) < Off(base, id) && other != id
  {
    assert InWindow(base, other);
    SerialIsOrder(base, id, other);
  }

  lemma NotClosed(base: U32, st: State, id: U32)
    requires Within(base, st.finalizedUpto) && InWindow(base, id)
    ensures Closed(st, id) <==> !UpTo(base, st, Off(base, id))
  {
    hide SerialDiff, Off;
    if st.finalizedUpto.Some? { SerialIsOrder(base, id, st.finalizedUpto.value); }
  }

  lemma InvWithin(base: U32, st: State)
    requires Inv(base, st)
    ensures Within(base, st.finalizedUpto)
  {
  }

  /** The block of an open id before its next packet. */
  lemma OpenBlock(m: Sent, id: U32, st: State, arrived: set<int>, now: nat)
    requires Geometry(m.frame, m.k, m.s) && (m.r == 0 || m.k + m.r <= MAX_SYMBOLS)
    requires Tracked(m, id, st, arrived, false) && !Closed(st, id)
    ensures var b := BlockOf(st, id, now); Held(b, m) && BlockValid(b) && Exactly(b, m.k, arrived)
    ensures |arrived| < m.k && HandedOut(st.log, id) == []
  {
    hide Held, BlockValid, Geometry, Closed;
    NewBlockHeld(m, now);
    if arrived == {} { assert Exactly(NewBlock(now), m.k, {}); }
  }

  /** Open, and completed by what is in it or not yet. */
  lemma OwnCompletes(base: U32, cfg: Config, env: Environment, m: Sent, id: U32, st: State, arrived: set<int>)
    requires Deliverable(cfg, m) && Inv(base, st) && InWindow(base, id) && UpTo(base, st, Off(base, id)) && id in st.blocks
    requires Held(st.blocks[id], m) && BlockValid(st.blocks[id]) && st.blocks[id].k == m.k && Exactly(st.blocks[id], m.k, arrived)
    requires HandedOut(st.log, id) == [] && arrived != {}
    ensures Tracked(m, id, Completed(cfg, env, st, id), arrived, |arrived| >= m.k)
  {
    assert Geometry(m.frame, m.k, m.s);
    var b := st.blocks[id];
    assert |b.sources| + |b.repairs| == |arrived|;
    InvWithin(base, st);
    hide Inv, Complete, Held, BlockValid, Exactly, Deliverable, Geometry, SerialDiff, Off, InWindow, Within, Closed, UpTo, Later;
    HeldCompletes(cfg, b, m);
    NotClosed(base, st, id);
    if |arrived| >= m.k {
      var path := Complete(cfg, b).path;
      var e := Emission(id, m.frame, env.egress(|st.log|, m.frame), env.egress(|st.log|, m.frame), path);
      HandedOne(st.log, e, id);
      CompletedShape(cfg, env, st, id);
      ClosedLater(base, st, Completed(cfg, env, st, id), id, id);
      assert Completed(cfg, env, st, id).log == st.log + [e];
    }
  }

  lemma OwnTaken(base: U32, cfg: Config, env: Environment, m: Sent, id: U32, st: State, b: Block, arrived: set<int>)
    requires Deliverable(cfg, m) && Inv(base, st) && InWindow(base, id) && UpTo(base, st, Off(base, id))
    requires Held(b, m) && BlockValid(b) && b.k == m.k && Exactly(b, m.k, arrived) && arrived != {} && HandedOut(st.log, id) == []
    ensures Tracked(m, id, TakenIn(cfg, env, st, id, Ingested(b, true)), arrived, |arrived| >= m.k)
  {
    assert Geometry(m.frame, m.k, m.s);
    hide Inv, Completed, SupersededBy, InWindow, UpTo, Off, SerialDiff, Ascending, BlockValid, Held, Exactly, Tracked, Deliverable, Geometry;
    var st1 := st.(blocks := st.blocks[id := b]);
    FiledKeeps(base, st, id, b);
    UpToSame(base, st, st1, Off(base, id));
    UpToSame(base, st, st1.(highest := Some(id)), Off(base, id));
    OwnBlockStays(base, cfg, env, st1.(highest := Some(id)), Ascending(st1.blocks.Keys), id);
    OwnCompletes(base, cfg, env, m, id, AfterSupersession(cfg, env, st1, id), arrived);
  }

  lemma OwnPushed(base: U32, cfg: Config, env: Environment, m: Sent, id: U32, st: State, n: nat, now: nat,
                  arrived: set<int>, done: bool)
    requires Deliverable(cfg, m) && n < m.k + m.r && Tracked(m, id, st, arrived, done) && Inv(base, st) && InWindow(base, id)
    ensures var p := Packets(m, id)[n];
            var finished := done || (!Closed(st, id) && |arrived + {n}| >= m.k);
            Tracked(m, id, Pushed(cfg, env, st, id, p.flags, p.payload, now), arrived + {n}, finished)
  {
    assert Geometry(m.frame, m.k, m.s);
    InvWithin(base, st);
    NotClosed(base, st, id);
    var p := Packets(m, id)[n];
    if Closed(st, id) {
      hide SerialDiff, Held, BlockValid, Exactly, Packets, Deliverable, Geometry, TakenIn;
    } else {
      hide Inv, InWindow, Within, UpTo, Off, SerialDiff, Held, BlockValid, Exactly, Packets, Deliverable, Geometry, TakenIn, Ingest, HandedOut;
      OpenBlock(m, id, st, arrived, now);
      var b := BlockOf(st, id, now);
      PacketCollected(cfg, m, id, b, n, now, arrived);
      assert n in arrived + {n};
      OwnTaken(base, cfg, env, m, id, st, Ingest(cfg, b, p.flags, p.payload, now).block, arrived + {n});
    }
  }

  // ---- runs ---------------------------------------------------------------------------------------------

  /** The first n arrivals end with the k-th distinct packet of a block that is still open. */
  ghost predicate CompletesAt(cfg: Config, env: Environment, plan: Plan, arrivals: seq<Arrival>, id: U32, n: nat) {
    && 0 < n <= |arrivals| && arrivals[n - 1].Arrive? && arrivals[n - 1].id == id
    && |Distinct(arrivals[..n - 1], id)| < plan(id).k <= |Distinct(arrivals[..n], id)|
    && AllHonest(cfg, plan, arrivals[..n - 1]) && !Closed(Received(cfg, env, plan, arrivals[..n - 1]), id)
  }

  ghost predicate CompletedIn(cfg: Config, env: Environment, plan: Plan, arrivals: seq<Arrival>, id: U32) {
    exists n: nat :: CompletesAt(cfg, env, plan, arrivals, id, n)
  }

  /** Every block lies in the half circle after base. */
  predicate ArrivingIn(base: U32, arrivals: seq<Arrival>) {
    forall i :: 0 <= i < |arrivals| && arrivals[i].Arrive? ==> InWindow(base, arrivals[i].id)
  }

  lemma {:induction false} EventsIn(base: U32, cfg: Config, plan: Plan, arrivals: seq<Arrival>)
    requires AllHonest(cfg, plan, arrivals) && ArrivingIn(base, arrivals)
    ensures PushedIn(base, EventsOf(cfg, plan, arrivals))
  {
    hide Honest, InWindow;
    if arrivals != [] {
      var before, a := arrivals[..|arrivals| - 1], arrivals[|arrivals| - 1];
      assert Honest(cfg, plan, a);
      assert forall i :: 0 <= i < |before| ==> before[i] == arrivals[i];
      EventsIn(base, cfg, plan, before);
      EventKind(cfg, plan, a);
    }
  }

  lemma EventKind(cfg: Config, plan: Plan, a: Arrival)
    requires Honest(cfg, plan, a)
    ensures var e := EventOf(cfg, plan, a); e.Push? == a.Arrive? && (a.Arrive? ==> e.id == a.id)
  {
    hide Packets, Deliverable;
  }

  /** An arrival completes the block, or leaves what was so before. */
  lemma CompletedStep(cfg: Config, env: Environment, plan: Plan, arrivals: seq<Arrival>, id: U32)
    requires arrivals != []
    ensures var before := arrivals[..|arrivals| - 1];
            CompletedIn(cfg, env, plan, arrivals, id)
            <==> CompletedIn(cfg, env, plan, before, id) || CompletesAt(cfg, env, plan, arrivals, id, |arrivals|)
  {
    hide Received, Distinct, AllHonest, Closed;
    var before := arrivals[..|arrivals| - 1];
    forall n: nat | n < |arrivals|
      ensures CompletesAt(cfg, env, plan, arrivals, id, n) <==> CompletesAt(cfg, env, plan, before, id, n)
    {
      if n > 0 { assert before[..n] == arrivals[..n] && before[..n - 1] == arrivals[..n - 1]; }
    }
    hide CompletesAt;
    if CompletedIn(cfg, env, plan, before, id) {
      var n: nat :| CompletesAt(cfg, env, plan, before, id, n);
      CompletesBound(cfg, env, plan, before, id, n);
      assert CompletesAt(cfg, env, plan, arrivals, id, n);
    }
    if CompletedIn(cfg, env, plan, arrivals, id) {
      var n: nat :| CompletesAt(cfg, env, plan, arrivals, id, n);
      CompletesBound(cfg, env, plan, arrivals, id, n);
      if n < |arrivals| { assert CompletesAt(cfg, env, plan, before, id, n); }
    }
  }

  lemma CompletesBound(cfg: Config, env: Environment, plan: Plan, arrivals: seq<Arrival>, id: U32, n: nat)
    requires CompletesAt(cfg, env, plan, arrivals, id, n)
    ensures n <= |arrivals|
  {
  }

  lemma {:induction false} ReceivedTracks(base: U32, cfg: Config, env: Environment, plan: Plan, arrivals: seq<Arrival>, id: U32)
    requires AllHonest(cfg, plan, arrivals) && ArrivingIn(base, arrivals) && InWindow(base, id) && Deliverable(cfg, plan(id))
    ensures Inv(base, Received(cfg, env, plan, arrivals))
    ensures Tracked(plan(id), id, Received(cfg, env, plan, arrivals), Distinct(arrivals, id), CompletedIn(cfg, env, plan, arrivals, id))
  {
    EventsIn(base, cfg, plan, arrivals);
    RunKeeps(base, cfg, env, EventsOf(cfg, plan, arrivals));
    var m := plan(id);
    assert Geometry(m.frame, m.k, m.s);
    if arrivals == [] {
      assert Distinct(arrivals, id) == {} && !CompletedIn(cfg, env, plan, [], id);
    } else {
      var before, a := arrivals[..|arrivals| - 1], arrivals[|arrivals| - 1];
      assert forall i :: 0 <= i < |before| ==> before[i] == arrivals[i];
      ReceivedStep(cfg, env, plan, arrivals);
      ReceivedTracks(base, cfg, env, plan, before, id);
      DistinctStep(arrivals, id);
      CompletedStep(cfg, env, plan, arrivals, id);
      hide *;
      StepTracks(base, cfg, env, plan, arrivals, id, a);
    }
  }

  lemma StepTracks(base: U32, cfg: Config, env: Environment, plan: Plan, arrivals: seq<Arrival>, id: U32, a: Arrival)
    requires arrivals != [] && a == arrivals[|arrivals| - 1] && Honest(cfg, plan, a) && AllHonest(cfg, plan, arrivals[..|arrivals| - 1])
    requires ArrivingIn(base, arrivals) && InWindow(base, id) && Deliverable(cfg, plan(id))
    requires var before := arrivals[..|arrivals| - 1];
             && Inv(base, Received(cfg, env, plan, before))
             && Tracked(plan(id), id, Received(cfg, env, plan, before), Distinct(before, id), CompletedIn(cfg, env, plan, before, id))
    ensures var before := arrivals[..|arrivals| - 1];
            Tracked(plan(id), id, Stepped(cfg, env, Received(cfg, env, plan, before), EventOf(cfg, plan, a)), Distinct(arrivals, id),
                    CompletedIn(cfg, env, plan, arrivals, id))
  {
    var m, before := plan(id), arrivals[..|arrivals| - 1];
    var st, arrived := Received(cfg, env, plan, before), Distinct(before, id);
    assert Geometry(m.frame, m.k, m.s);
    DistinctStep(arrivals, id);
    CompletedStep(cfg, env, plan, arrivals, id);
    assert arrivals[..|arrivals|] == arrivals;
    assert a.Arrive? ==> InWindow(base, a.id);
    hide Received, Distinct, CompletedIn, Inv, InWindow, Packets, Deliverable, Geometry, Pushed, Ticked, Ascending, AllHonest, ArrivingIn;
    match a {
      case Wait(now) =>
        hide Tracked;
        TickedTracks(base, cfg, env, m, id, st, Ascending(st.blocks.Keys), now, arrived, CompletedIn(cfg, env, plan, before, id));
        assert arrived + {} == arrived;
      case Arrive(other, n, now) =>
        if other != id {
          hide Tracked;
          var p := Packets(plan(other), other)[n];
          OtherPushed(base, cfg, env, m, id, st, other, p.flags, p.payload, now, arrived, CompletedIn(cfg, env, plan, before, id));
          assert arrived + {} == arrived;
        } else {
          OpenLacks(m, id, st, arrived, CompletedIn(cfg, env, plan, before, id));
          hide Tracked, Closed;
          OwnPushed(base, cfg, env, m, id, st, n, now, arrived, CompletedIn(cfg, env, plan, before, id));
        }
    }
  }

  lemma OpenLacks(m: Sent, id: U32, st: State, arrived: set<int>, done: bool)
    requires Geometry(m.frame, m.k, m.s) && (m.r == 0 || m.k + m.r <= MAX_SYMBOLS) && Tracked(m, id, st, arrived, done)
    ensures !Closed(st, id) ==> |arrived| < m.k
  {
    hide Held, BlockValid, Exactly, Closed;
  }

  /**
   * Whatever frames are sent, and however their packets are lost, repeated, reordered and mixed: a block is handed to the
   * egress, salvage apart, exactly when its k-th distinct packet arrives while neither it nor a block after it has been
   * handed on or given up; and then once, as the frame that was sent.
   */
  lemma EachFrameOnce(base: U32, cfg: Config, env: Environment, plan: Plan, arrivals: seq<Arrival>, id: U32)
    requires AllHonest(cfg, plan, arrivals) && ArrivingIn(base, arrivals) && InWindow(base, id) && Deliverable(cfg, plan(id))
    ensures var out := HandedOut(Received(cfg, env, plan, arrivals).log, id);
            if exists n: nat :: CompletesAt(cfg, env, plan, arrivals, id, n) then |out| == 1 && out[0].frame == plan(id).frame else out == []
  {
    ReceivedTracks(base, cfg, env, plan, arrivals, id);
    hide Received, Distinct, CompletesAt, Inv, Held, Deliverable, AllHonest, ArrivingIn, HandedOut;
  }
}
