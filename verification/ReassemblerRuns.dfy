/** What holds of every run of the reassembler. */
module ReassemblerRuns {
  import opened Bytes
  import opened Keys
  import opened FrameBlock
  import opened ReassemblerSpec

  /** Position of an id after the start of a half-circle window. */
  function Off(base: U32, id: U32): nat {
    (id - base) % 0x1_0000_0000
  }

  predicate InWindow(base: U32, id: U32) {
    Off(base, id) < 0x8000_0000
  }

  /** Within half the circle the serial distance is a difference of positions. */
  lemma SerialIsOrder(base: U32, a: U32, b: U32)
    requires InWindow(base, a) && InWindow(base, b)
    ensures SerialDiff(a, b) == Off(base, a) - Off(base, b)
  {
  }

  ghost predicate Within(base: U32, mark: Option<U32>) {
    mark.Some? ==> InWindow(base, mark.value)
  }

  function Accepted(log: seq<Emission>, path: Path): nat {
    if log == [] then 0
    else
      var e := log[|log| - 1];
      Accepted(log[..|log| - 1], path) + if e.credited && e.path == path then 1 else 0
  }

  /** Frames credited as delivered come in increasing order of block. */
  ghost predicate Increasing(base: U32, log: seq<Emission>) {
    forall i, j :: 0 <= i < j < |log| && log[i].credited && log[j].credited ==> Off(base, log[i].id) < Off(base, log[j].id)
  }

  ghost predicate Counted(st: State) {
    && st.stats.fast == Accepted(st.log, Fast)
    && st.stats.fec == Accepted(st.log, Fec)
    && st.stats.salvaged == Accepted(st.log, Salvage)
    && st.stats.delivered == st.stats.fast + st.stats.fec + st.stats.salvaged
  }

  ghost predicate Inv(base: U32, st: State) {
    && (forall id :: id in st.blocks ==> InWindow(base, id) && BlockValid(st.blocks[id]))
    && Within(base, st.highest) && Within(base, st.lastEmitted) && Within(base, st.finalizedUpto)
    && (st.lastEmitted.Some? ==> st.finalizedUpto.Some? && Off(base, st.lastEmitted.value) <= Off(base, st.finalizedUpto.value))
    && (forall e :: e in st.log ==> InWindow(base, e.id))
    && (forall e :: e in st.log && e.credited ==> st.lastEmitted.Some? && Off(base, e.id) <= Off(base, st.lastEmitted.value))
    && Increasing(base, st.log)
    && Counted(st)
  }

  lemma AcceptedAppend(log: seq<Emission>, e: Emission, path: Path)
    ensures Accepted(log + [e], path) == Accepted(log, path) + if e.credited && e.path == path then 1 else 0
  {
    assert (log + [e])[..|log|] == log;
  }

  /** The watermark stays before position n. */
  ghost predicate UpTo(base: U32, st: State, n: nat) {
    st.finalizedUpto.Some? ==> Off(base, st.finalizedUpto.value) < n
  }

  /** Moving the watermark: it ends at id or past it, and no further than it was. */
  lemma LaterKeeps(base: U32, mark: Option<U32>, id: U32)
    requires Within(base, mark) && InWindow(base, id)
    ensures Later(mark, id).Some? && InWindow(base, Later(mark, id).value)
    ensures Off(base, Later(mark, id).value) >= Off(base, id)
    ensures mark.Some? ==> Off(base, Later(mark, id).value) >= Off(base, mark.value)
    ensures Later(mark, id).value == id || Later(mark, id) == mark
    ensures mark.Some? && Off(base, mark.value) < Off(base, id) ==> Later(mark, id).value == id
  {
    hide Off, SerialDiff;
    if mark.Some? { SerialIsOrder(base, id, mark.value); }
  }

  lemma FinalizedCounted(st: State, id: U32)
    requires Counted(st)
    ensures Counted(Finalized(st, id))
  {
  }

  /** Finalizing without an emission. */
  lemma FinalizeKeeps(base: U32, st: State, id: U32, n: nat)
    requires Inv(base, st) && InWindow(base, id) && UpTo(base, st, n) && Off(base, id) < n
    ensures Inv(base, Finalized(st, id)) && UpTo(base, Finalized(st, id), n)
  {
    hide Off, SerialDiff, BlockValid, Increasing, Counted, Later;
    LaterKeeps(base, st.finalizedUpto, id);
    FinalizedCounted(st, id);
  }

  lemma IncreasingAppend(base: U32, log: seq<Emission>, e: Emission)
    requires Increasing(base, log)
    requires e.credited ==> forall d :: d in log && d.credited ==> Off(base, d.id) < Off(base, e.id)
    ensures Increasing(base, log + [e])
  {
    hide Off;
    var l := log + [e];
    forall i, j | 0 <= i < j < |l| && l[i].credited && l[j].credited ensures Off(base, l[i].id) < Off(base, l[j].id) {
      if j == |log| { assert l[i] in log; }
    }
  }

  lemma CountedAppend(env: Environment, st: State, id: U32, frame: seq<Byte>, path: Path)
    requires Counted(st)
    ensures Counted(Emitted(env, st, id, frame, path))
  {
    var e := Emission(id, frame, env.egress(|st.log|, frame), env.egress(|st.log|, frame), path);
    AcceptedAppend(st.log, e, Fast);
    AcceptedAppend(st.log, e, Fec);
    AcceptedAppend(st.log, e, Salvage);
  }

  /** An emission of a block later than every accepted one, with its finalization. */
  lemma EmitKeeps(base: U32, env: Environment, st: State, id: U32, frame: seq<Byte>, path: Path, n: nat)
    requires Inv(base, st) && InWindow(base, id) && UpTo(base, st, n) && Off(base, id) < n
    requires st.lastEmitted.Some? ==> Off(base, id) > Off(base, st.lastEmitted.value)
    ensures var st' := Finalized(Emitted(env, st, id, frame, path), id); Inv(base, st') && UpTo(base, st', n)
  {
    hide Off, SerialDiff, BlockValid, Increasing, Counted, Later;
    LaterKeeps(base, st.finalizedUpto, id);
    LaterKeeps(base, st.lastEmitted, id);
    IncreasingAppend(base, st.log, Emission(id, frame, env.egress(|st.log|, frame), env.egress(|st.log|, frame), path));
    CountedAppend(env, st, id, frame, path);
    FinalizedCounted(Emitted(env, st, id, frame, path), id);
  }

  lemma LostKeeps(base: U32, st: State, cause: Cause, unrecoverable: bool)
    requires Inv(base, st)
    ensures Inv(base, st.(stats := Lost(st.stats, cause, unrecoverable)))
  {
  }

  /** A frame that does not count: nothing but the log knows of it. */
  lemma UncreditedKeeps(base: U32, st: State, e: Emission)
    requires Inv(base, st) && InWindow(base, e.id) && !e.credited
    ensures Inv(base, st.(log := st.log + [e]))
  {
    hide Off, Increasing, BlockValid, Accepted, InWindow, Within;
    AcceptedAppend(st.log, e, Fast);
    AcceptedAppend(st.log, e, Fec);
    AcceptedAppend(st.log, e, Salvage);
    IncreasingAppend(base, st.log, e);
  }

  lemma {:induction false} OfferedKeeps(base: U32, env: Environment, st: State, id: U32, frames: seq<seq<Byte>>)
    requires Inv(base, st) && InWindow(base, id)
    ensures Inv(base, st.(log := Offered(env, st.log, id, frames)))
  {
    hide Inv, InWindow;
    if frames == [] {
      assert st.(log := Offered(env, st.log, id, frames)) == st;
    } else {
      var n := |frames| - 1;
      OfferedKeeps(base, env, st, id, frames[..n]);
      var before := Offered(env, st.log, id, frames[..n]);
      UncreditedKeeps(base, st.(log := before), Emission(id, frames[n], env.egress(|before|, frames[n]), false, Salvage));
    }
  }

  lemma SalvageKeeps(base: U32, env: Environment, st: State, id: U32, r: SalvageResult, cause: Cause, n: nat)
    requires Inv(base, st) && InWindow(base, id) && UpTo(base, st, n) && Off(base, id) < n && r.frames != []
    requires st.lastEmitted.Some? ==> Off(base, id) > Off(base, st.lastEmitted.value)
    ensures var t := Salvaged(env, st, id, r);
            var st' := Finalized(if t.outcome == Unavailable then t.st.(stats := Lost(t.st.stats, cause, true)) else t.st, id);
            Inv(base, st') && UpTo(base, st', n)
  {
    hide *;
    SalvageAfter(env, st, id, r);
    var m := |r.frames| - 1;
    var all := st.(log := Offered(env, st.log, id, r.frames));
    var most := st.(log := Offered(env, st.log, id, r.frames[..m]));
    if env.egress(|st.log| + m, r.frames[m]) && !r.repaired {
      OfferedKeeps(base, env, st, id, r.frames);
      LostKeeps(base, all, cause, true);
      UpToSame(base, st, all.(stats := Lost(all.stats, cause, true)), n);
      FinalizeKeeps(base, all.(stats := Lost(all.stats, cause, true)), id, n);
    } else {
      OfferedKeeps(base, env, st, id, r.frames[..m]);
      UpToSame(base, st, most, n);
      EmitKeeps(base, env, most, id, r.frames[m], Salvage, n);
    }
  }

  lemma SalvageAfter(env: Environment, st: State, id: U32, r: SalvageResult)
    requires r.frames != []
    ensures var t, m := Salvaged(env, st, id, r), |r.frames| - 1;
            if env.egress(|st.log| + m, r.frames[m]) && !r.repaired
            then t == Salvaging(st.(log := Offered(env, st.log, id, r.frames)), Unavailable)
            else
              && t.outcome != Unavailable
              && t.st == Emitted(env, st.(log := Offered(env, st.log, id, r.frames[..m])), id, r.frames[m], Salvage)
  {
    hide Offered, Emitted;
  }

  lemma UpToSame(base: U32, st: State, st': State, n: nat)
    requires UpTo(base, st, n) && st'.finalizedUpto == st.finalizedUpto
    ensures UpTo(base, st', n)
  {
  }

  lemma RetireKeeps(base: U32, env: Environment, st: State, id: U32, cause: Cause, n: nat)
    requires Inv(base, st) && id in st.blocks && UpTo(base, st, n) && Off(base, id) < n
    ensures Inv(base, Retired(env, st, id, cause)) && UpTo(base, Retired(env, st, id, cause), n)
  {
    var b := st.blocks[id];
    assert InWindow(base, id);
    var whole := b.k != 0 && |b.sources| + |b.repairs| >= b.k;
    if whole || !SalvageAllowed(env, st, id, b) || env.hook.value(|st.log|, ViewOf(id, b)).frames == [] {
      hide Off, SerialDiff, Inv, UpTo, Finalized;
      LostKeeps(base, st, cause, !whole);
      UpToSame(base, st, st.(stats := Lost(st.stats, cause, !whole)), n);
      FinalizeKeeps(base, st.(stats := Lost(st.stats, cause, !whole)), id, n);
    } else {
      if st.lastEmitted.Some? { SerialIsOrder(base, id, st.lastEmitted.value); }
      hide Inv, Off, UpTo, InWindow, SerialDiff, Salvaged, Finalized;
      SalvageKeeps(base, env, st, id, env.hook.value(|st.log|, ViewOf(id, b)), cause, n);
    }
  }

  lemma SupersedeKeeps(base: U32, cfg: Config, env: Environment, st: State, ids: seq<nat>, newest: U32)
    requires Inv(base, st) && InWindow(base, newest) && UpTo(base, st, Off(base, newest))
    ensures var st' := SupersededBy(cfg, env, st, ids, newest); Inv(base, st') && UpTo(base, st', Off(base, newest))
    ensures st.highest == SupersededBy(cfg, env, st, ids, newest).highest
    decreases |ids|
  {
    if ids != [] {
      var id := ids[0];
      if id in st.blocks && SerialDiff(newest, id) > cfg.maxBlocksAhead {
        assert InWindow(base, id);
        SerialIsOrder(base, newest, id);
        hide Inv, Off, UpTo, SerialDiff, Retired;
        RetireKeeps(base, env, st, id, Superseded, Off(base, newest));
        RetiredShape(env, st, id, Superseded);
        SupersedeKeeps(base, cfg, env, Retired(env, st, id, Superseded), ids[1..], newest);
      } else {
        hide Inv, Off, UpTo, SerialDiff, Retired;
        SupersedeKeeps(base, cfg, env, st, ids[1..], newest);
      }
    }
  }

  /** Retiring a block drops it, moves the watermark, and hands over at most what the hook salvages of it. */
  lemma RetiredShape(env: Environment, st: State, id: U32, cause: Cause)
    requires id in st.blocks
    ensures var r := Retired(env, st, id, cause);
            && r.blocks == st.blocks - {id} && r.highest == st.highest && r.finalizedUpto == Later(st.finalizedUpto, id)
            && |r.log| >= |st.log| && r.log[..|st.log|] == st.log
            && (forall i :: |st.log| <= i < |r.log| ==> r.log[i].id == id && r.log[i].path == Salvage)
            && (env.hook.None? ==> r.log == st.log)
  {
    hide Later, Lost, Salvaged, SerialDiff;
    var b := st.blocks[id];
    if !(b.k != 0 && |b.sources| + |b.repairs| >= b.k) && SalvageAllowed(env, st, id, b) {
      var r := env.hook.value(|st.log|, ViewOf(id, b));
      if r.frames != [] { SalvagedShape(env, st, id, r); }
    }
  }

  lemma SalvagedShape(env: Environment, st: State, id: U32, r: SalvageResult)
    requires r.frames != []
    ensures var t := Salvaged(env, st, id, r).st;
            && t.blocks == st.blocks && t.highest == st.highest && t.finalizedUpto == st.finalizedUpto
            && |t.log| == |st.log| + |r.frames| && t.log[..|st.log|] == st.log
            && (forall i :: |st.log| <= i < |t.log| ==> t.log[i].id == id && t.log[i].path == Salvage)
  {
    hide Later, Offered;
  }

  lemma TickedKeeps(base: U32, cfg: Config, env: Environment, st: State, ids: seq<nat>, now: nat)
    requires Inv(base, st)
    ensures Inv(base, Ticked(cfg, env, st, ids, now))
    decreases |ids|
  {
    if ids != [] {
      var id := ids[0];
      if id in st.blocks && now >= st.blocks[id].firstMs + cfg.deadlineMs {
        assert InWindow(base, id);
        assert UpTo(base, st, 0x8000_0000);
        assert Off(base, id) < 0x8000_0000;
        hide Inv, Off, UpTo, Retired;
        RetireKeeps(base, env, st, id, Deadline, 0x8000_0000);
        TickedKeeps(base, cfg, env, Retired(env, st, id, Deadline), ids[1..], now);
      } else {
        hide Inv, Retired;
        TickedKeeps(base, cfg, env, st, ids[1..], now);
      }
    }
  }

  /** Completing a block either does nothing or closes it and hands over at most its frame. */
  lemma CompletedShape(cfg: Config, env: Environment, st: State, id: U32)
    requires id in st.blocks
    ensures var r := Completed(cfg, env, st, id);
            || r == st
            || (&& r.finalizedUpto == Later(st.finalizedUpto, id) && r.blocks == st.blocks - {id}
                && |r.log| >= |st.log| && r.log[..|st.log|] == st.log
                && (forall i :: |st.log| <= i < |r.log| ==> r.log[i].id == id))
  {
    hide Complete, Later;
  }

  lemma CompletedKeeps(base: U32, cfg: Config, env: Environment, st: State, id: U32)
    requires Inv(base, st) && id in st.blocks && UpTo(base, st, Off(base, id))
    ensures Inv(base, Completed(cfg, env, st, id))
  {
    assert InWindow(base, id);
    assert UpTo(base, st, Off(base, id) + 1);
    assert st.lastEmitted.Some? ==> Off(base, id) > Off(base, st.lastEmitted.value);
    hide Off, UpTo, Finalized, Emitted, Complete, BlockValid, Increasing, Counted;
    match Complete(cfg, st.blocks[id]) {
      case Pending =>
      case Broken =>
        MalformedKeeps(base, st);
        FinalizeKeeps(base, st.(stats := st.stats.(malformed := st.stats.malformed + 1)), id, Off(base, id) + 1);
      case Whole(frame, path) => EmitKeeps(base, env, st, id, frame, path, Off(base, id) + 1);
    }
  }

  lemma MalformedKeeps(base: U32, st: State)
    requires Inv(base, st)
    ensures Inv(base, st.(stats := st.stats.(malformed := st.stats.malformed + 1)))
  {
  }

  /** Filing a symbol under its block changes nothing the invariant says. */
  lemma FiledKeeps(base: U32, st: State, id: U32, b: Block)
    requires Inv(base, st) && InWindow(base, id) && BlockValid(b)
    ensures Inv(base, st.(blocks := st.blocks[id := b]))
    ensures Inv(base, st.(blocks := st.blocks[id := b], highest := Some(id)))
  {
    hide BlockValid, Increasing, Off;
  }

  lemma SymbolKeeps(base: U32, cfg: Config, env: Environment, st: State, id: U32)
    requires Inv(base, st) && InWindow(base, id) && UpTo(base, st, Off(base, id)) && id in st.blocks
    ensures var st' := AfterSupersession(cfg, env, st, id);
            Inv(base, st') && (id in st'.blocks ==> Inv(base, Completed(cfg, env, st', id)))
  {
    FiledKeeps(base, st, id, st.blocks[id]);
    assert st.blocks[id := st.blocks[id]] == st.blocks;
    assert UpTo(base, st.(highest := Some(id)), Off(base, id));
    hide Inv, Off, UpTo, SerialDiff, Completed, SupersededBy, Complete;
    if st.highest.None? || SerialDiff(id, st.highest.value) > 0 {
      SupersedeKeeps(base, cfg, env, st.(highest := Some(id)), Ascending(st.blocks.Keys), id);
    }
    var st' := AfterSupersession(cfg, env, st, id);
    if id in st'.blocks { CompletedKeeps(base, cfg, env, st', id); }
  }

  lemma TakenKeeps(base: U32, cfg: Config, env: Environment, st: State, id: U32, taken: Ingested)
    requires Inv(base, st) && InWindow(base, id) && UpTo(base, st, Off(base, id)) && BlockValid(taken.block)
    ensures Inv(base, TakenIn(cfg, env, st, id, taken))
  {
    var st1 := st.(blocks := st.blocks[id := taken.block]);
    assert UpTo(base, st1, Off(base, id));
    hide Inv, Off, UpTo, SerialDiff, Completed, AfterSupersession, BlockValid;
    FiledKeeps(base, st, id, taken.block);
    MalformedKeeps(base, st1);
    SymbolKeeps(base, cfg, env, st1, id);
  }

  lemma PushKeeps(base: U32, cfg: Config, env: Environment, st: State, id: U32, flags: DataFlags, p: seq<Byte>,
                  now: nat)
    requires Inv(base, st) && InWindow(base, id)
    ensures Inv(base, Pushed(cfg, env, st, id, flags, p, now))
  {
    if st.finalizedUpto.Some? { SerialIsOrder(base, id, st.finalizedUpto.value); }
    if st.finalizedUpto.None? || SerialDiff(id, st.finalizedUpto.value) > 0 {
      var b := if id in st.blocks then st.blocks[id] else NewBlock(now);
      assert BlockValid(b) && UpTo(base, st, Off(base, id));
      hide Ingest, TakenIn, Inv, Off, UpTo, SerialDiff, BlockValid;
      IngestKeepsValid(cfg, b, flags, p, now);
      TakenKeeps(base, cfg, env, st, id, Ingest(cfg, b, flags, p, now));
    }
  }

  // ---- runs -------------------------------------------------------------------------------------

  datatype Event = Push(id: U32, flags: DataFlags, payload: seq<Byte>, now: nat) | Clock(now: nat)

  ghost function Stepped(cfg: Config, env: Environment, st: State, e: Event): State {
    match e
    case Push(id, flags, p, now) => Pushed(cfg, env, st, id, flags, p, now)
    case Clock(now) => Tick(cfg, env, st, now)
  }

  ghost function Run(cfg: Config, env: Environment, events: seq<Event>): State {
    if events == [] then START
    else Stepped(cfg, env, Run(cfg, env, events[..|events| - 1]), events[|events| - 1])
  }

  /** Every block id pushed lies in the half circle after base. */
  ghost predicate PushedIn(base: U32, events: seq<Event>) {
    forall e :: e in events && e.Push? ==> InWindow(base, e.id)
  }

  lemma {:induction false} RunKeeps(base: U32, cfg: Config, env: Environment, events: seq<Event>)
    requires PushedIn(base, events)
    ensures Inv(base, Run(cfg, env, events))
  {
    hide Inv, Stepped, InWindow;
    if events == [] {
      StartKeeps(base);
    } else {
      RunKeeps(base, cfg, env, events[..|events| - 1]);
      StepKeeps(base, cfg, env, Run(cfg, env, events[..|events| - 1]), events[|events| - 1]);
    }
  }

  lemma StartKeeps(base: U32)
    ensures Inv(base, START)
  {
  }

  lemma StepKeeps(base: U32, cfg: Config, env: Environment, st: State, e: Event)
    requires Inv(base, st) && (e.Push? ==> InWindow(base, e.id))
    ensures Inv(base, Stepped(cfg, env, st, e))
  {
    hide Inv, Pushed, Ticked, Off, InWindow;
    match e {
      case Push(id, flags, p, now) => PushKeeps(base, cfg, env, st, id, flags, p, now);
      case Clock(now) => TickedKeeps(base, cfg, env, st, Ascending(st.blocks.Keys), now);
    }
  }

  /** Number of frames credited as delivered. */
  function AcceptedAll(log: seq<Emission>): nat {
    if log == [] then 0 else AcceptedAll(log[..|log| - 1]) + if log[|log| - 1].credited then 1 else 0
  }

  lemma {:induction false} AcceptedSplits(log: seq<Emission>)
    ensures AcceptedAll(log) == Accepted(log, Fast) + Accepted(log, Fec) + Accepted(log, Salvage)
  {
    if log != [] { AcceptedSplits(log[..|log| - 1]); }
  }

  /**
   * Over every run, with any egress and any salvage hook: frames credited as delivered come in strictly
   * increasing serial order, none twice, and the counters say how many of each kind.
   */
  lemma AcceptedInOrder(base: U32, cfg: Config, env: Environment, events: seq<Event>)
    requires PushedIn(base, events)
    ensures var log := Run(cfg, env, events).log;
      forall i, j :: 0 <= i < j < |log| && log[i].credited && log[j].credited ==>
                       SerialDiff(log[j].id, log[i].id) > 0 && log[i].id != log[j].id
    ensures var st := Run(cfg, env, events);
      && st.stats.delivered == AcceptedAll(st.log) == st.stats.fast + st.stats.fec + st.stats.salvaged
      && st.stats.fast == Accepted(st.log, Fast) && st.stats.fec == Accepted(st.log, Fec)
      && st.stats.salvaged == Accepted(st.log, Salvage)
  {
    RunKeeps(base, cfg, env, events);
    var st := Run(cfg, env, events);
    AcceptedSplits(st.log);
    hide Run, Off, SerialDiff;
    forall i, j | 0 <= i < j < |st.log| && st.log[i].credited && st.log[j].credited
      ensures SerialDiff(st.log[j].id, st.log[i].id) > 0 && st.log[i].id != st.log[j].id
    {
      assert InWindow(base, st.log[i].id) && InWindow(base, st.log[j].id);
      SerialIsOrder(base, st.log[j].id, st.log[i].id);
    }
  }
}
