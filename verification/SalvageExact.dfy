/** Runs in which a hook's disowned frames go uncredited or out of order, and the exact conditions for it. */
module SalvageExact {
  import opened Bytes
  import opened Keys
  import opened FrameBlock
  import opened ReassemblerSpec
  import opened ReassemblerRuns
  import opened SalvageOrder

  // ---- feeding a block without completing it --------------------------------------------------------

  function Pushes(id: U32, pieces: seq<Piece>, now: nat): seq<Event> {
    seq(|pieces|, i requires 0 <= i < |pieces| => Push(id, pieces[i].flags, pieces[i].payload, now))
  }

  /** On the way to k symbols. */
  predicate Open(b: Block, k: nat) {
    (b.k == 0 || b.k == k) && |b.sources| + |b.repairs| < k
  }

  lemma IngestOpened(cfg: Config, b: Block, flags: DataFlags, p: seq<Byte>, now: nat, k: nat)
    requires Open(Ingest(cfg, b, flags, p, now).block, k)
    ensures Open(b, k)
  {
  }

  lemma OpenPending(cfg: Config, b: Block, k: nat)
    requires Open(b, k)
    ensures Complete(cfg, b) == Pending
  {
  }

  /** Nothing emitted, nothing given up. */
  predicate Untouched(st: State) {
    st.log == [] && st.lastEmitted.None? && st.finalizedUpto.None?
  }

  /** An id no newer than any open block. */
  predicate Oldest(blocks: map<U32, Block>, id: U32) {
    forall x :: x in blocks ==> SerialDiff(id, x) <= 0
  }

  lemma OldestStays(blocks: map<U32, Block>, id: U32, b: Block)
    requires Oldest(blocks, id)
    ensures Oldest(blocks[id := b], id)
  {
  }

  /** An id that is no newer than any open block supersedes none. */
  lemma {:induction false} NoneSuperseded(cfg: Config, env: Environment, st: State, ids: seq<nat>, newest: U32)
    requires Oldest(st.blocks, newest)
    ensures SupersededBy(cfg, env, st, ids, newest) == st
    decreases |ids|
  {
    hide SerialDiff, Retired;
    if ids != [] { NoneSuperseded(cfg, env, st, ids[1..], newest); }
  }

  lemma PushOpen(cfg: Config, env: Environment, st: State, id: U32, b: Block, flags: DataFlags, p: seq<Byte>, now: nat,
                 k: nat)
    requires Untouched(st) && b == (if id in st.blocks then st.blocks[id] else NewBlock(now))
    requires Oldest(st.blocks, id) && Open(Ingest(cfg, b, flags, p, now).block, k)
    ensures var st' := Pushed(cfg, env, st, id, flags, p, now);
            Untouched(st') && st'.blocks == st.blocks[id := Ingest(cfg, b, flags, p, now).block]
  {
    var taken := Ingest(cfg, b, flags, p, now);
    var st1 := st.(blocks := st.blocks[id := taken.block]);
    OldestStays(st.blocks, id, taken.block);
    hide Ingest, SupersededBy, Complete, Ascending, SerialDiff, Open, Oldest;
    NoneSuperseded(cfg, env, st1.(highest := Some(id)), Ascending(st1.blocks.Keys), id);
    OpenPending(cfg, taken.block, k);
  }

  lemma {:induction false} GrownTimeless(cfg: Config, pieces: seq<Piece>, now: nat)
    ensures SameShape(Grown(cfg, pieces, 0), Grown(cfg, pieces, now)) && Grown(cfg, pieces, now).firstMs == now
  {
    if pieces != [] {
      var n := |pieces| - 1;
      var p := pieces[n];
      GrownTimeless(cfg, pieces[..n], now);
      hide Ingest, SameShape;
      IngestTimeless(cfg, Grown(cfg, pieces[..n], 0), Grown(cfg, pieces[..n], now), p.flags, p.payload, 0, now);
    }
  }

  /** The blocks once some symbols of a new one are in. */
  function OpenBlocks(cfg: Config, blocks: map<U32, Block>, id: U32, pieces: seq<Piece>, now: nat): map<U32, Block> {
    if pieces == [] then blocks else blocks[id := Grown(cfg, pieces, now)]
  }

  /** Pushing the symbols of a block that stays open leaves just that block. */
  lemma {:induction false} Feeding(cfg: Config, env: Environment, head: seq<Event>, id: U32, pieces: seq<Piece>, now: nat,
                                   k: nat)
    requires Untouched(Run(cfg, env, head)) && id !in Run(cfg, env, head).blocks && Oldest(Run(cfg, env, head).blocks, id)
    requires Open(Grown(cfg, pieces, now), k)
    ensures var st' := Run(cfg, env, head + Pushes(id, pieces, now));
            Untouched(st') && st'.blocks == OpenBlocks(cfg, Run(cfg, env, head).blocks, id, pieces, now)
    decreases |pieces|
  {
    hide Untouched, Open, Pushed, Oldest, Ingest, Run;
    if pieces == [] {
      assert head + Pushes(id, pieces, now) == head;
    } else {
      var n := |pieces| - 1;
      var p, some, blocks := pieces[n], pieces[..n], Run(cfg, env, head).blocks;
      var b := Grown(cfg, some, now);
      IngestOpened(cfg, b, p.flags, p.payload, now, k);
      Feeding(cfg, env, head, id, some, now, k);
      var events, e := head + Pushes(id, some, now), Push(id, p.flags, p.payload, now);
      assert head + Pushes(id, pieces, now) == events + [e];
      RunMore(cfg, env, events, e);
      OldestStays(blocks, id, b);
      PushOpen(cfg, env, Run(cfg, env, events), id, b, p.flags, p.payload, now, k);
    }
  }

  lemma RunMore(cfg: Config, env: Environment, events: seq<Event>, e: Event)
    ensures Run(cfg, env, events + [e]) == Stepped(cfg, env, Run(cfg, env, events), e)
  {
    assert (events + [e])[..|events|] == events;
  }

  // ---- hooks without memory -------------------------------------------------------------------------

  /** A hook that does not look at how many attempts were made before. */
  type Memoryless = SalvageView -> SalvageResult

  function Steady(f: Memoryless): Hook {
    (n: nat, v: SalvageView) => f(v)
  }

  lemma SteadyHook(f: Memoryless, v: SalvageView)
    ensures Emits(Steady(f), v) <==> f(v).frames != []
    ensures Disowns(Steady(f), v) <==> Disowned(f(v))
  {
    assert Steady(f)(0, v) == f(v);
  }

  // ---- giving a block up ----------------------------------------------------------------------------

  predicate Due(cfg: Config, st: State, id: U32, now: nat)
    requires id in st.blocks
  {
    now >= st.blocks[id].firstMs + cfg.deadlineMs
  }

  lemma {:induction false} OnlyDue(cfg: Config, env: Environment, st: State, ids: seq<nat>, now: nat, due: U32)
    requires due in st.blocks ==> Due(cfg, st, due, now)
    requires forall x :: x in st.blocks && x != due ==> !Due(cfg, st, x, now)
    ensures Ticked(cfg, env, st, ids, now) == if due in ids && due in st.blocks then Retired(env, st, due, Deadline) else st
    decreases |ids|
  {
    hide Retired, Later;
    if ids != [] {
      if ids[0] == due && due in st.blocks {
        RetiredShape(env, st, due, Deadline);
        OnlyDue(cfg, env, Retired(env, st, due, Deadline), ids[1..], now, due);
      } else {
        assert ids[0] in st.blocks && ids[0] != due ==> !Due(cfg, st, ids[0], now);
        OnlyDue(cfg, env, st, ids[1..], now, due);
      }
    }
  }

  lemma ClockRetires(cfg: Config, env: Environment, st: State, now: nat, due: U32)
    requires due in st.blocks && Due(cfg, st, due, now) && forall x :: x in st.blocks && x != due ==> !Due(cfg, st, x, now)
    ensures Tick(cfg, env, st, now) == Retired(env, st, due, Deadline)
  {
    hide Retired, Due, Ascending, Ticked;
    AscendingProperties(st.blocks.Keys);
    OnlyDue(cfg, env, st, Ascending(st.blocks.Keys), now, due);
  }

  /** A partial block given up before anything was credited: the hook's frames go out in a row. */
  lemma PartialRetires(egress: Egress, f: Memoryless, st: State, id: U32)
    requires id in st.blocks && Partial(st.blocks[id]) && st.lastEmitted.None? && f(ViewOf(id, st.blocks[id])).frames != []
    ensures var r, out := Retired(With(egress, Steady(f)), st, id, Deadline), f(ViewOf(id, st.blocks[id]));
            && r.blocks == st.blocks - {id} && r.log[..|st.log|] == st.log && Answered(egress, |st.log|, id, out, r.log)
            && (!egress(|r.log| - 1, out.frames[|out.frames| - 1]) || !out.repaired ==> r.lastEmitted.None?)
  {
    hide Offered, Lost, Answered, Later;
    SalvagedAnswers(egress, f, st, id, f(ViewOf(id, st.blocks[id])));
  }

  /** From position m on, the log has the hook's frames with the egress's answers, credited at most for the last. */
  predicate Answered(egress: Egress, m: nat, id: U32, out: SalvageResult, log: seq<Emission>) {
    && |log| == m + |out.frames|
    && (forall i :: m <= i < |log| ==> log[i].id == id && log[i].accepted == egress(i, out.frames[i - m]))
    && (forall i :: m <= i < |log| && (i < |log| - 1 || !out.repaired) ==> !log[i].credited)
  }

  lemma SalvagedAnswers(egress: Egress, f: Memoryless, st: State, id: U32, out: SalvageResult)
    requires out.frames != []
    ensures var r := Salvaged(With(egress, Steady(f)), st, id, out).st;
            && r.blocks == st.blocks && r.log[..|st.log|] == st.log && Answered(egress, |st.log|, id, out, r.log)
            && (!egress(|r.log| - 1, out.frames[|out.frames| - 1]) || !out.repaired ==> r.lastEmitted == st.lastEmitted)
  {
    hide Offered, Later;
    var m := |out.frames| - 1;
    var log, some := Salvaged(With(egress, Steady(f)), st, id, out).st.log, Offered(With(egress, Steady(f)), st.log, id, out.frames[..m]);
    forall i | |st.log| <= i < |log| ensures log[i].id == id && log[i].accepted == egress(i, out.frames[i - |st.log|]) {
      var env, j := With(egress, Steady(f)), i - |st.log|;
      OfferedAnswers(env, st.log, id, out.frames, j);
      if j < m { OfferedAnswers(env, st.log, id, out.frames[..m], j); }
    }
  }

  lemma {:induction false} OfferedAnswers(env: Environment, log: seq<Emission>, id: U32, frames: seq<seq<Byte>>, j: nat)
    requires j < |frames|
    ensures Offered(env, log, id, frames)[|log| + j].accepted == env.egress(|log| + j, frames[j])
    decreases |frames|
  {
    var n := |frames| - 1;
    if j < n { OfferedAnswers(env, log, id, frames[..n], j); }
  }

  // ---- runs -----------------------------------------------------------------------------------------

  function TimeOf(e: Event): nat {
    e.now
  }

  /** Time does not go back. */
  predicate Timely(events: seq<Event>) {
    forall i, j :: 0 <= i < j < |events| ==> TimeOf(events[i]) <= TimeOf(events[j])
  }

  /** One block fed and given up. */
  function Abandoned(cfg: Config, id: U32, pieces: seq<Piece>): seq<Event> {
    Pushes(id, pieces, 0) + [Clock(cfg.deadlineMs)]
  }

  /** A newer block fed first, an older one a millisecond later, and each given up at its deadline. */
  function Overtaken(cfg: Config, older: U32, pa: seq<Piece>, newer: U32, pb: seq<Piece>): seq<Event> {
    Pushes(newer, pb, 0) + Pushes(older, pa, 1) + [Clock(cfg.deadlineMs)] + [Clock(cfg.deadlineMs + 1)]
  }

  lemma StartUntouched(cfg: Config, env: Environment)
    ensures Run(cfg, env, []) == START && Untouched(START)
  {
  }

  /** What a hook is shown once its block is given up. */
  lemma AbandonedEmits(cfg: Config, egress: Egress, f: Memoryless, id: U32, pieces: seq<Piece>)
    requires Partial(Grown(cfg, pieces, 0)) && f(ViewOf(id, Grown(cfg, pieces, 0))).frames != []
    ensures var log, out := Run(cfg, With(egress, Steady(f)), Abandoned(cfg, id, pieces)).log, f(ViewOf(id, Grown(cfg, pieces, 0)));
            Answered(egress, 0, id, out, log)
  {
    var env, b := With(egress, Steady(f)), Grown(cfg, pieces, 0);
    hide Run, Grown, Tick, Retired;
    StartUntouched(cfg, env);
    GrownTimeless(cfg, pieces, 0);
    PartialOpen(b);
    Feeding(cfg, env, [], id, pieces, 0, b.k);
    assert [] + Pushes(id, pieces, 0) == Pushes(id, pieces, 0);
    SomePieces(cfg, pieces);
    var st := Run(cfg, env, Pushes(id, pieces, 0));
    assert st.blocks == map[id := b];
    RunMore(cfg, env, Pushes(id, pieces, 0), Clock(cfg.deadlineMs));
    ClockRetires(cfg, env, st, cfg.deadlineMs, id);
    PartialRetires(egress, f, st, id);
  }

  lemma PartialOpen(b: Block)
    requires Partial(b)
    ensures Open(b, b.k)
  {
  }

  lemma SomePieces(cfg: Config, pieces: seq<Piece>)
    requires Partial(Grown(cfg, pieces, 0))
    ensures pieces != []
  {
  }

  /** The two blocks, open side by side. */
  lemma BothOpen(cfg: Config, env: Environment, older: U32, pa: seq<Piece>, newer: U32, pb: seq<Piece>)
    requires SerialDiff(newer, older) > 0 && Partial(Grown(cfg, pa, 0)) && Partial(Grown(cfg, pb, 0))
    ensures var st := Run(cfg, env, Pushes(newer, pb, 0) + Pushes(older, pa, 1));
            Untouched(st) && st.blocks == map[newer := Grown(cfg, pb, 0), older := Grown(cfg, pa, 1)]
  {
    Distinct(newer, older);
    hide Run, Grown, SerialDiff;
    var a, b := Grown(cfg, pa, 0), Grown(cfg, pb, 0);
    StartUntouched(cfg, env);
    GrownTimeless(cfg, pa, 1);
    PartialOpen(a);
    PartialOpen(b);
    SomePieces(cfg, pa);
    SomePieces(cfg, pb);
    Feeding(cfg, env, [], newer, pb, 0, b.k);
    assert [] + Pushes(newer, pb, 0) == Pushes(newer, pb, 0);
    Feeding(cfg, env, Pushes(newer, pb, 0), older, pa, 1, a.k);
  }

  /** The egress that leaves a frame of the newer block taken and uncredited: it rejects the last of several. */
  function Sly(m: nat): Egress {
    (n: nat, f: seq<Byte>) => m == 1 || n != m - 1
  }

  /** A disowned newer block and an older one worth emitting: the egress takes the older one after the newer one. */
  lemma OvertakenReorders(cfg: Config, f: Memoryless, older: U32, pa: seq<Piece>, newer: U32, pb: seq<Piece>)
    requires cfg.deadlineMs > 0 && SerialDiff(newer, older) > 0 && Partial(Grown(cfg, pa, 0)) && Partial(Grown(cfg, pb, 0))
    requires f(ViewOf(older, Grown(cfg, pa, 0))).frames != [] && Disowned(f(ViewOf(newer, Grown(cfg, pb, 0))))
    ensures var m := |f(ViewOf(newer, Grown(cfg, pb, 0))).frames|;
            var log := Run(cfg, With(Sly(m), Steady(f)), Overtaken(cfg, older, pa, newer, pb)).log;
            && 0 < m < |log| == m + |f(ViewOf(older, Grown(cfg, pa, 0))).frames|
            && log[0].accepted && log[0].id == newer && log[m].accepted && log[m].id == older
  {
    hide *;
    var a, b := Grown(cfg, pa, 1), Grown(cfg, pb, 0);
    var m := |f(ViewOf(newer, b)).frames|;
    var env := With(Sly(m), Steady(f));
    GrownTimeless(cfg, pa, 1);
    GrownTimeless(cfg, pb, 0);
    SameView(older, Grown(cfg, pa, 0), a);
    BothOpen(cfg, env, older, pa, newer, pb);
    var events := Pushes(newer, pb, 0) + Pushes(older, pa, 1);
    var d := cfg.deadlineMs;
    RunMore(cfg, env, events, Clock(d));
    RunMore(cfg, env, events + [Clock(d)], Clock(d + 1));
    Distinct(newer, older);
    OvertakenTwice(cfg, f, Run(cfg, env, events), older, newer, m);
    OvertakenRun(cfg, env, older, pa, newer, pb);
  }

  lemma Distinct(newer: U32, older: U32)
    requires SerialDiff(newer, older) > 0
    ensures older != newer && SerialDiff(older, newer) < 0 && InWindow(older, newer) && InWindow(older, older)
  {
  }

  lemma SameView(id: U32, a: Block, b: Block)
    requires SameShape(a, b)
    ensures ViewOf(id, a) == ViewOf(id, b) && Partial(a) == Partial(b)
  {
  }

  lemma OvertakenRun(cfg: Config, env: Environment, older: U32, pa: seq<Piece>, newer: U32, pb: seq<Piece>)
    ensures var st := Run(cfg, env, Pushes(newer, pb, 0) + Pushes(older, pa, 1));
            Run(cfg, env, Overtaken(cfg, older, pa, newer, pb)) == Tick(cfg, env, Tick(cfg, env, st, cfg.deadlineMs), cfg.deadlineMs + 1)
  {
    hide Run, Tick;
    var events := Pushes(newer, pb, 0) + Pushes(older, pa, 1);
    RunMore(cfg, env, events, Clock(cfg.deadlineMs));
    RunMore(cfg, env, events + [Clock(cfg.deadlineMs)], Clock(cfg.deadlineMs + 1));
  }

  /** Two ticks over two open blocks. */
  lemma OvertakenTwice(cfg: Config, f: Memoryless, st: State, older: U32, newer: U32, m: nat)
    requires cfg.deadlineMs > 0 && older != newer && st.blocks.Keys == {older, newer} && Untouched(st)
    requires st.blocks[newer].firstMs == 0 && st.blocks[older].firstMs == 1
    requires Partial(st.blocks[older]) && Partial(st.blocks[newer])
    requires f(ViewOf(older, st.blocks[older])).frames != [] && Disowned(f(ViewOf(newer, st.blocks[newer])))
    requires m == |f(ViewOf(newer, st.blocks[newer])).frames|
    ensures var log := Tick(cfg, With(Sly(m), Steady(f)), Tick(cfg, With(Sly(m), Steady(f)), st, cfg.deadlineMs), cfg.deadlineMs + 1).log;
            && 0 < m < |log| == m + |f(ViewOf(older, st.blocks[older])).frames|
            && log[0].accepted && log[0].id == newer && log[m].accepted && log[m].id == older
  {
    hide Tick, Retired, Partial, ViewOf;
    var env, d := With(Sly(m), Steady(f)), cfg.deadlineMs;
    ClockRetires(cfg, env, st, d, newer);
    PartialRetires(Sly(m), f, st, newer);
    var st1 := Tick(cfg, env, st, d);
    assert st1.blocks.Keys == {older};
    ClockRetires(cfg, env, st1, d + 1, older);
    PartialRetires(Sly(m), f, st1, older);
    var log := Tick(cfg, env, st1, d + 1).log;
    assert log[0] == log[..m][0];
  }

  // ---- exactly which hooks ---------------------------------------------------------------------------

  /** A run whose blocks lie in half the circle and whose clock does not go back. */
  ghost predicate Plausible(base: U32, events: seq<Event>) {
    PushedIn(base, events) && Timely(events)
  }

  lemma OvertakenPlausible(cfg: Config, older: U32, pa: seq<Piece>, newer: U32, pb: seq<Piece>)
    requires cfg.deadlineMs > 0 && SerialDiff(newer, older) > 0
    ensures Plausible(older, Overtaken(cfg, older, pa, newer, pb))
  {
    Distinct(newer, older);
    hide SerialDiff, InWindow;
    var events := Overtaken(cfg, older, pa, newer, pb);
    var m, n := |pb|, |pb| + |pa|;
    forall i | 0 <= i < |events|
      ensures events[i].Push? ==> events[i].id == newer || events[i].id == older
      ensures TimeOf(events[i]) == if i < m then 0 else if i < n then 1 else if i == n then cfg.deadlineMs else cfg.deadlineMs + 1
    {
    }
  }

  lemma AbandonedPlausible(cfg: Config, id: U32, pieces: seq<Piece>)
    ensures Plausible(id, Abandoned(cfg, id, pieces))
  {
    var events := Abandoned(cfg, id, pieces);
    forall i | 0 <= i < |events|
      ensures (events[i].Push? ==> events[i].id == id) && TimeOf(events[i]) == if i < |pieces| then 0 else cfg.deadlineMs
    {
    }
  }

  /** The egress never takes a frame of an older block after one of a newer block. */
  ghost predicate NeverBack(log: seq<Emission>) {
    forall i, j :: 0 <= i < j < |log| && log[i].accepted && log[j].accepted ==> SerialDiff(log[j].id, log[i].id) >= 0
  }

  /** In every plausible run, whatever the egress takes. */
  ghost predicate AlwaysOrdered(cfg: Config, h: Hook) {
    forall egress: Egress, base: U32, events: seq<Event> :: Plausible(base, events) ==> NeverBack(Run(cfg, With(egress, h), events).log)
  }

  /** An orderly hook, memoryless or not, keeps frames in block order in every plausible run. */
  lemma OrderlyRuns(cfg: Config, h: Hook, egress: Egress, base: U32, events: seq<Event>)
    requires Orderly(cfg, h) && Plausible(base, events)
    ensures NeverBack(Run(cfg, With(egress, h), events).log)
  {
    RunOrders(base, cfg, egress, h, events);
    var log := Run(cfg, With(egress, h), events).log;
    hide Run, Off, SerialDiff, Orderly, Backing, Plausible;
    forall i, j | 0 <= i < j < |log| && log[i].accepted && log[j].accepted ensures SerialDiff(log[j].id, log[i].id) >= 0 {
      assert InWindow(base, log[i].id) && InWindow(base, log[j].id);
      SerialIsOrder(base, log[j].id, log[i].id);
    }
  }

  lemma WentBack(cfg: Config, h: Hook, egress: Egress, base: U32, events: seq<Event>, i: nat, j: nat)
    requires Plausible(base, events)
    requires var log := Run(cfg, With(egress, h), events).log;
             i < j < |log| && log[i].accepted && log[j].accepted && SerialDiff(log[j].id, log[i].id) < 0
    ensures !AlwaysOrdered(cfg, h)
  {
    hide Run, Plausible, SerialDiff;
  }

  lemma UnorderlyReorders(cfg: Config, f: Memoryless, va: SalvageView, vb: SalvageView)
    requires cfg.deadlineMs > 0 && Showable(cfg, va) && Showable(cfg, vb) && f(va).frames != [] && Disowned(f(vb))
    requires SerialDiff(vb.id, va.id) > 0
    ensures !AlwaysOrdered(cfg, Steady(f))
  {
    hide Run, Grown, Plausible, Partial, Disowned, ViewOf, Overtaken, AlwaysOrdered, SerialDiff, Steady;
    var pa :| Partial(Grown(cfg, pa, 0)) && ViewOf(va.id, Grown(cfg, pa, 0)) == va;
    var pb :| Partial(Grown(cfg, pb, 0)) && ViewOf(vb.id, Grown(cfg, pb, 0)) == vb;
    hide Showable;
    OvertakenPlausible(cfg, va.id, pa, vb.id, pb);
    OvertakenReorders(cfg, f, va.id, pa, vb.id, pb);
    Distinct(vb.id, va.id);
    var m := |f(vb).frames|;
    WentBack(cfg, Steady(f), Sly(m), va.id, Overtaken(cfg, va.id, pa, vb.id, pb), 0, m);
  }

  /**
   * Frames reach the egress in block order in every run exactly when no older block is worth emitting to the hook while
   * a newer one may be emitted and disowned; disowned means emitted more than once, or once with no repair reported.
   */
  lemma OrderedExactly(cfg: Config, f: Memoryless)
    requires cfg.deadlineMs > 0
    ensures AlwaysOrdered(cfg, Steady(f)) <==> Orderly(cfg, Steady(f))
  {
    var h := Steady(f);
    hide Run, Plausible, NeverBack, SerialDiff, Showable, Emits, Disowns, Disowned, Steady;
    if Orderly(cfg, h) {
      forall egress: Egress, base: U32, events: seq<Event> | Plausible(base, events) ensures NeverBack(Run(cfg, With(egress, h), events).log) {
        OrderlyRuns(cfg, h, egress, base, events);
      }
    } else {
      var va, vb :| Showable(cfg, va) && Showable(cfg, vb) && Emits(h, va) && Disowns(h, vb) && SerialDiff(vb.id, va.id) > 0;
      SteadyHook(f, va);
      SteadyHook(f, vb);
      UnorderlyReorders(cfg, f, va, vb);
    }
  }

  /** Everything the egress took counts as delivered. */
  ghost predicate AllCredited(log: seq<Emission>) {
    forall i :: 0 <= i < |log| && log[i].accepted ==> log[i].credited
  }

  ghost predicate AlwaysCredited(cfg: Config, h: Hook) {
    forall egress: Egress, base: U32, events: seq<Event> :: Plausible(base, events) ==> AllCredited(Run(cfg, With(egress, h), events).log)
  }

  /** A hook that emits at most once whatever it is shown and at whichever attempt, and then reports a repair. */
  ghost predicate Truthful(cfg: Config, h: Hook) {
    forall v :: Showable(cfg, v) ==> !Disowns(h, v)
  }

  /** With a truthful hook, memoryless or not, every frame the egress takes is credited, and none goes back. */
  lemma TruthfulRuns(cfg: Config, h: Hook, egress: Egress, events: seq<Event>)
    requires Truthful(cfg, h)
    ensures AllCredited(Run(cfg, With(egress, h), events).log)
    ensures forall base :: Plausible(base, events) ==> NeverBack(Run(cfg, With(egress, h), events).log)
  {
    hide Run, Showable, Disowns, Plausible, NeverBack;
    RunBacks(cfg, egress, h, events);
    forall base | Plausible(base, events) ensures NeverBack(Run(cfg, With(egress, h), events).log) {
      OrderlyRuns(cfg, h, egress, base, events);
    }
  }

  lemma DisownedUncredited(cfg: Config, f: Memoryless, v: SalvageView)
    requires Showable(cfg, v) && Disowned(f(v))
    ensures !AlwaysCredited(cfg, Steady(f))
  {
    var pieces :| Partial(Grown(cfg, pieces, 0)) && ViewOf(v.id, Grown(cfg, pieces, 0)) == v;
    hide Run, Grown, Partial, ViewOf, Abandoned, Plausible, Steady;
    var egress: Egress := (n: nat, frame: seq<Byte>) => true;
    AbandonedEmits(cfg, egress, f, v.id, pieces);
    AbandonedPlausible(cfg, v.id, pieces);
    var log := Run(cfg, With(egress, Steady(f)), Abandoned(cfg, v.id, pieces)).log;
    assert log[0].accepted && !log[0].credited;
  }

  /**
   * Every frame the egress takes is credited in every plausible run exactly when the hook is truthful about what it can
   * be shown.
   */
  lemma CreditedExactly(cfg: Config, f: Memoryless)
    ensures AlwaysCredited(cfg, Steady(f)) <==> Truthful(cfg, Steady(f))
  {
    var h := Steady(f);
    hide Run, Showable, Disowns, Disowned, Plausible, NeverBack, Steady;
    if Truthful(cfg, h) {
      forall egress: Egress, events: seq<Event> ensures AllCredited(Run(cfg, With(egress, h), events).log) {
        TruthfulRuns(cfg, h, egress, events);
      }
    } else {
      var v :| Showable(cfg, v) && Disowns(h, v);
      SteadyHook(f, v);
      DisownedUncredited(cfg, f, v);
    }
  }

  // ---- one such run ---------------------------------------------------------------------------------

  const NO_FLAGS := DataFlags(false, false, false)

  /** The second of two sources, one byte long. */
  const HALF: seq<Byte> := [0, 2, 0, 1, 7]

  /** Two packets and two ticks: block 5 is heard first, block 3 a millisecond later. */
  function TwoHalves(cfg: Config): seq<Event> {
    [Push(5, NO_FLAGS, HALF, 0), Push(3, NO_FLAGS, HALF, 1), Clock(cfg.deadlineMs), Clock(cfg.deadlineMs + 1)]
  }

  lemma HalfPartial(cfg: Config)
    requires cfg.maxFrameBytes > MIN_SYMBOL
    ensures Partial(Grown(cfg, [Piece(NO_FLAGS, HALF)], 0))
  {
    assert Grown(cfg, [Piece(NO_FLAGS, HALF)], 0) == Ingest(cfg, Grown(cfg, [], 0), NO_FLAGS, HALF, 0).block;
    assert ReadBe16(HALF, 0) == 2 && ReadBe16(HALF, 2) == 1;
  }

  /** With a hook that emits and then denies it, and an egress that takes everything, block 5 is taken before block 3. */
  lemma DisownedFramesReorder(cfg: Config, f: Memoryless)
    requires cfg.deadlineMs > 0 && cfg.maxFrameBytes > MIN_SYMBOL && forall v :: |f(v).frames| == 1 && !f(v).repaired
    ensures var log := Run(cfg, With(Sly(1), Steady(f)), TwoHalves(cfg)).log;
            |log| == 2 && log[0].accepted && log[0].id == 5 && log[1].accepted && log[1].id == 3
    ensures forall n, frame :: Sly(1)(n, frame)
  {
    HalfPartial(cfg);
    var half := [Piece(NO_FLAGS, HALF)];
    hide Run, Grown;
    OvertakenReorders(cfg, f, 3, half, 5, half);
    assert Overtaken(cfg, 3, half, 5, half) == TwoHalves(cfg);
  }
}
