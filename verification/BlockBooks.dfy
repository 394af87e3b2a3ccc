/** What becomes of every block the reassembler opens. */
module BlockBooks {
  import opened Bytes
  import opened Keys
  import opened FrameBlock
  import opened ReassemblerSpec
  import opened ReassemblerRuns

  /** Blocks open, and blocks accounted for: handed out, turned down by the egress, superseded or past their deadline. */
  function Settled(st: State): nat {
    |st.blocks| + st.stats.delivered + st.stats.rejected + st.stats.superseded + st.stats.deadline
  }

  lemma RemoveOne(m: map<U32, Block>, k: U32)
    requires k in m
    ensures |m - {k}| == |m| - 1
  {
    assert (m - {k}).Keys == m.Keys - {k};
    assert |(m - {k}).Keys| == |m - {k}|;
  }

  lemma AddOne(m: map<U32, Block>, k: U32, b: Block)
    ensures |m[k := b]| == |m| + if k in m then 0 else 1
  {
    assert m[k := b].Keys == m.Keys + {k};
    assert |m[k := b].Keys| == |m[k := b]|;
    if k in m { assert m[k := b].Keys == m.Keys; }
  }

  lemma EmitBooks(env: Environment, st: State, id: U32, frame: seq<Byte>, path: Path)
    ensures var r := Emitted(env, st, id, frame, path);
            && Settled(r) == Settled(st) + 1 && r.blocks == st.blocks && SameLosses(st, r)
  {
    hide Later;
  }

  predicate SameLosses(st: State, r: State) {
    r.stats.malformed == st.stats.malformed && r.stats.superseded == st.stats.superseded && r.stats.deadline == st.stats.deadline
  }

  lemma SalvageBooks(env: Environment, st: State, id: U32, b: Block)
    ensures var t := TriedSalvage(env, st, id, b);
            && t.st.blocks == st.blocks && SameLosses(st, t.st)
            && Settled(t.st) == Settled(st) + if t.outcome == Unavailable then 0 else 1
  {
    hide Offered, Emitted;
    if SalvageAllowed(env, st, id, b) {
      var r := env.hook.value(|st.log|, ViewOf(id, b));
      if r.frames != [] {
        var n := |r.frames| - 1;
        EmitBooks(env, st.(log := Offered(env, st.log, id, r.frames[..n])), id, r.frames[n], Salvage);
      }
    }
    hide SalvageAllowed;
  }

  lemma FinalizedBooks(st: State, id: U32)
    requires id in st.blocks
    ensures Settled(Finalized(st, id)) == Settled(st) - 1 && Finalized(st, id).stats == st.stats
  {
    RemoveOne(st.blocks, id);
  }

  /** A retired block is lost for its one cause, or salvaged, or its salvage turned down; nothing else is counted. */
  lemma RetireSettles(env: Environment, st: State, id: U32, cause: Cause)
    requires id in st.blocks
    ensures var r := Retired(env, st, id, cause);
            && Settled(r) == Settled(st) && r.stats.malformed == st.stats.malformed
            && (cause == Superseded ==> r.stats.deadline == st.stats.deadline)
            && (cause == Deadline ==> r.stats.superseded == st.stats.superseded)
  {
    var b := st.blocks[id];
    SalvageBooks(env, st, id, b);
    hide TriedSalvage, Finalized;
    var whole := b.k != 0 && |b.sources| + |b.repairs| >= b.k;
    var t := TriedSalvage(env, st, id, b);
    var retired := if whole then st.(stats := Lost(st.stats, cause, false))
                   else if t.outcome == Unavailable then t.st.(stats := Lost(t.st.stats, cause, true)) else t.st;
    FinalizedBooks(retired, id);
  }

  lemma {:induction false} SupersedeSettles(cfg: Config, env: Environment, st: State, ids: seq<nat>, newest: U32)
    ensures var r := SupersededBy(cfg, env, st, ids, newest);
            Settled(r) == Settled(st) && r.stats.malformed == st.stats.malformed && r.stats.deadline == st.stats.deadline
    decreases |ids|
  {
    hide Retired, Settled, SerialDiff;
    if ids != [] {
      var id := ids[0];
      if id in st.blocks && SerialDiff(newest, id) > cfg.maxBlocksAhead {
        RetireSettles(env, st, id, Superseded);
        SupersedeSettles(cfg, env, Retired(env, st, id, Superseded), ids[1..], newest);
      } else {
        SupersedeSettles(cfg, env, st, ids[1..], newest);
      }
    }
  }

  lemma {:induction false} TickSettles(cfg: Config, env: Environment, st: State, ids: seq<nat>, now: nat)
    ensures var r := Ticked(cfg, env, st, ids, now);
            Settled(r) == Settled(st) && r.stats.malformed == st.stats.malformed && r.stats.superseded == st.stats.superseded
    decreases |ids|
  {
    hide Retired, Settled;
    if ids != [] {
      var id := ids[0];
      if id in st.blocks && now >= st.blocks[id].firstMs + cfg.deadlineMs {
        RetireSettles(env, st, id, Deadline);
        TickSettles(cfg, env, Retired(env, st, id, Deadline), ids[1..], now);
      } else {
        TickSettles(cfg, env, st, ids[1..], now);
      }
    }
  }

  lemma CompleteSettles(cfg: Config, env: Environment, st: State, id: U32)
    requires id in st.blocks
    ensures var r := Completed(cfg, env, st, id);
            && Settled(r) + r.stats.malformed == Settled(st) + st.stats.malformed && r.stats.malformed >= st.stats.malformed
            && r.stats.superseded == st.stats.superseded && r.stats.deadline == st.stats.deadline
  {
    RemoveOne(st.blocks, id);
    hide Complete, Later;
  }

  predicate Opens(st: State, id: U32) {
    id !in st.blocks && !(st.finalizedUpto.Some? && SerialDiff(id, st.finalizedUpto.value) <= 0)
  }

  lemma TakenSettles(cfg: Config, env: Environment, st: State, id: U32, taken: Ingested)
    ensures var r, begun := TakenIn(cfg, env, st, id, taken), if id in st.blocks then 0 else 1;
            && Settled(st) + begun <= Settled(r) + (r.stats.malformed - st.stats.malformed)
            && Settled(r) <= Settled(st) + begun && r.stats.malformed >= st.stats.malformed && r.stats.deadline == st.stats.deadline
  {
    AddOne(st.blocks, id, taken.block);
    var st1 := st.(blocks := st.blocks[id := taken.block]);
    assert Settled(st1) == Settled(st) + if id in st.blocks then 0 else 1;
    if taken.ok {
      var top := st1.(highest := Some(id));
      assert Settled(top) == Settled(st1);
      SupersedeSettles(cfg, env, top, Ascending(st1.blocks.Keys), id);
      var st2 := AfterSupersession(cfg, env, st1, id);
      hide Settled, SupersededBy, Completed, Ascending, SerialDiff;
      if id in st2.blocks { CompleteSettles(cfg, env, st2, id); }
    }
  }

  /** How many events open a block. */
  ghost function Opened(cfg: Config, env: Environment, events: seq<Event>): nat {
    if events == [] then 0
    else
      var n := |events| - 1;
      Opened(cfg, env, events[..n]) + if events[n].Push? && Opens(Run(cfg, env, events[..n]), events[n].id) then 1 else 0
  }

  lemma StepSettles(cfg: Config, env: Environment, st: State, e: Event)
    ensures var r, begun := Stepped(cfg, env, st, e), if e.Push? && Opens(st, e.id) then 1 else 0;
            && Settled(st) + begun <= Settled(r) + (r.stats.malformed - st.stats.malformed)
            && Settled(r) <= Settled(st) + begun && r.stats.malformed >= st.stats.malformed
            && (e.Push? ==> r.stats.deadline == st.stats.deadline) && (e.Clock? ==> r.stats.superseded == st.stats.superseded)
  {
    hide TakenIn, Ticked, Ingest, SerialDiff;
    match e {
      case Clock(now) => TickSettles(cfg, env, st, Ascending(st.blocks.Keys), now);
      case Push(id, flags, p, now) =>
        if !(st.finalizedUpto.Some? && SerialDiff(id, st.finalizedUpto.value) <= 0) {
          TakenSettles(cfg, env, st, id, Ingest(cfg, if id in st.blocks then st.blocks[id] else NewBlock(now), flags, p, now));
        }
    }
  }

  /**
   * Over every run: each block opened is open still or accounted for exactly once, as handed out, turned down, superseded or past
   * its deadline, short by at most the symbols and frames counted as malformed.
   */
  lemma {:induction false} BlocksAccounted(cfg: Config, env: Environment, events: seq<Event>)
    ensures var st, begun := Run(cfg, env, events), Opened(cfg, env, events);
            var accounted := |st.blocks| + st.stats.delivered + st.stats.rejected + st.stats.superseded + st.stats.deadline;
            accounted <= begun <= accounted + st.stats.malformed
  {
    hide Stepped, Settled, Opens;
    if events == [] {
      NothingOpened();
    } else {
      var n := |events| - 1;
      BlocksAccounted(cfg, env, events[..n]);
      StepSettles(cfg, env, Run(cfg, env, events[..n]), events[n]);
      SettledIs(Run(cfg, env, events[..n]));
      SettledIs(Run(cfg, env, events));
    }
  }

  lemma SettledIs(st: State)
    ensures Settled(st) == |st.blocks| + st.stats.delivered + st.stats.rejected + st.stats.superseded + st.stats.deadline
  {
  }

  lemma NothingOpened()
    ensures Settled(START) == 0 && START.stats.malformed == 0
  {
  }

  /** Deadlines are counted by ticks alone, and supersessions by packets alone. */
  lemma CausesApart(cfg: Config, env: Environment, events: seq<Event>)
    ensures (forall e :: e in events ==> e.Push?) ==> Run(cfg, env, events).stats.deadline == 0
    ensures (forall e :: e in events ==> e.Clock?) ==> Run(cfg, env, events).stats.superseded == 0
    decreases |events|
  {
    hide Stepped, Settled, Opens;
    if events != [] {
      var n := |events| - 1;
      CausesApart(cfg, env, events[..n]);
      StepSettles(cfg, env, Run(cfg, env, events[..n]), events[n]);
      assert events[n] in events;
    }
  }
}
