/** The nearby cache: it retains the symbols it hears and answers bounded requests with them. */
module CacheStore {
  import opened Bytes
  import opened Keys
  import opened FrameBlock

  // ---- bitmaps --------------------------------------------------------------------------------------

  function Weight(i: nat): (w: nat)
    requires i < 8
    ensures w > 0
  {
    if i == 0 then 1 else 2 * Weight(i - 1)
  }

  /** Bit i of a bitmap, eight to a byte from the low end; past the end every bit is clear. */
  predicate BitSet(map0: seq<Byte>, i: nat) {
    i / 8 < |map0| && map0[i / 8] / Weight(i % 8) % 2 == 1
  }

  /** Length without trailing zero bytes. */
  function TrimmedLength(map0: seq<Byte>): (n: nat)
    ensures n <= |map0|
  {
    if map0 == [] then 0 else if map0[|map0| - 1] != 0 then |map0| else TrimmedLength(map0[..|map0| - 1])
  }

  /** Trimming trailing zeros clears no bit. */
  lemma {:induction false} TrimKeepsBits(map0: seq<Byte>, i: nat)
    ensures BitSet(map0[..TrimmedLength(map0)], i) == BitSet(map0, i)
  {
    if map0 != [] && map0[|map0| - 1] == 0 {
      var shorter := map0[..|map0| - 1];
      TrimKeepsBits(shorter, i);
      assert map0[..TrimmedLength(map0)] == shorter[..TrimmedLength(shorter)];
      assert i / 8 == |map0| - 1 ==> !BitSet(map0, i);
    } else {
      assert map0[..|map0|] == map0;
    }
  }

  // ---- symbols --------------------------------------------------------------------------------------

  /** A DATA packet as the cache sees it. */
  datatype Symbol = Symbol(originator: U16, session: U32, streamId: Byte, blockId: U32, repair: bool, payload: seq<Byte>)

  datatype Place = Place(k: U16, index: nat)

  /** Block size and unified index a symbol's subheader names: source i, or k plus the repair index. */
  function Placed(y: Symbol): (r: Option<Place>)
    ensures r.Some? ==> 0 < r.value.k <= MAX_SYMBOLS && r.value.index < MAX_SYMBOLS
  {
    if y.repair then
      if |y.payload| <= REPAIR_SUBHEADER then None
      else
        var k, j := ReadBe16(y.payload, 1), y.payload[0];
        if k == 0 || k > MAX_SYMBOLS || k + j >= MAX_SYMBOLS then None else Some(Place(k, k as int + j))
    else if |y.payload| < SOURCE_SUBHEADER then None
    else
      var k, i := ReadBe16(y.payload, 0), ReadBe16(y.payload, 2);
      if k == 0 || k > MAX_SYMBOLS || i >= k then None else Some(Place(k, i))
  }

  datatype StreamKey = StreamKey(originator: U16, session: U32, streamId: Byte)

  datatype Entry = Entry(k: U16, symbols: map<nat, Symbol>)

  /** One tracked stream: its sender's session, the blocks retained and the order they came in. */
  datatype Stream = Stream(key: StreamKey, blocks: map<U32, Entry>, order: seq<U32>)

  datatype Requester = Requester(session: U32, windowStart: nat, windowCount: nat, recent: seq<U32>)

  datatype Config = Config(self: U16, target: U16, streamIds: seq<Byte>, blocks: U16, replyLimit: Byte, maxPerSecond: U16)

  datatype Store = Store(streams: map<Byte, Stream>, requesters: map<U16, Requester>)

  const NO_STREAM := Stream(StreamKey(0, 0, 0), map[], [])

  /** The oldest blocks go until the window fits. */
  function Evicted(s: Stream, limit: nat): Stream
    decreases |s.order|
  {
    if |s.order| > limit then Evicted(s.(blocks := s.blocks - {s.order[0]}, order := s.order[1..]), limit) else s
  }

  function KeyOf(y: Symbol): StreamKey {
    StreamKey(y.originator, y.session, y.streamId)
  }

  /** The stream with the symbol's session current and its block, if the window allows, open. */
  function Opened(cfg: Config, s: Stream, y: Symbol): Stream {
    var own := if s.key == KeyOf(y) then s else Stream(KeyOf(y), map[], []);
    if y.blockId in own.blocks then own
    else Evicted(own.(blocks := own.blocks[y.blockId := Entry(0, map[])], order := own.order + [y.blockId]), cfg.blocks)
  }

  /** The first symbol of an index stays; a block of another size is left alone. */
  function Added(s: Stream, y: Symbol, at: Place): Stream {
    if y.blockId !in s.blocks then s
    else
      var e := s.blocks[y.blockId];
      if e.k != 0 && e.k != at.k then s
      else
        var symbols := if at.index in e.symbols then e.symbols else e.symbols[at.index := y];
        s.(blocks := s.blocks[y.blockId := Entry(at.k, symbols)])
  }

  /** The stream after a symbol of its owner. */
  function Retained(cfg: Config, s: Stream, y: Symbol, at: Place): Stream {
    Added(Opened(cfg, s, y), y, at)
  }

  function Noted(cfg: Config, st: Store, y: Symbol): Store {
    var at := Placed(y);
    if y.streamId !in cfg.streamIds || at.None? then st
    else
      var s := if y.streamId in st.streams then st.streams[y.streamId] else NO_STREAM;
      if (cfg.target != 0 && y.originator != cfg.target) || (s.key.originator != 0 && s.key.originator != y.originator)
      then st.(streams := st.streams[y.streamId := s])
      else st.(streams := st.streams[y.streamId := Retained(cfg, s, y, at.value)])
  }

  // ---- requests -------------------------------------------------------------------------------------

  datatype Request = Request(originator: U16, session: U32, targetOriginator: U16, targetSession: U32, targetStream: Byte,
                             targetCache: U16, requestId: U32, blockId: U32, window: U16, maxSymbols: Byte,
                             missing: seq<Byte>, have: seq<Byte>)

  datatype Verdict = Answered | NotOurs | UnknownStream | NoWindow | RateLimited | Duplicate

  const RECENT := 32

  /** Does the request ask for the symbol at an index? */
  predicate Wanted(req: Request, k: U16, index: nat) {
    if index < k then BitSet(req.missing, index) else !BitSet(req.have, index - k)
  }

  /** The first so many wanted symbols in index order. */
  function Chosen(e: Entry, req: Request, ids: seq<nat>, allowance: nat): (out: seq<Symbol>)
    requires forall i :: 0 <= i < |ids| ==> ids[i] in e.symbols
    ensures |out| <= allowance
    decreases |ids|
  {
    if ids == [] then []
    else
      var before := Chosen(e, req, ids[..|ids| - 1], allowance);
      var last := ids[|ids| - 1];
      if |before| < allowance && Wanted(req, e.k, last) then before + [e.symbols[last]] else before
  }

  /** The requester's record, fresh for a new session. */
  function RecordOf(st: Store, req: Request): Requester {
    if req.originator in st.requesters && st.requesters[req.originator].session == req.session
    then st.requesters[req.originator] else Requester(req.session, 0, 0, [])
  }

  function Windowed(r: Requester, now: nat): Requester {
    if Since(now, r.windowStart) >= 1000 then r.(windowStart := now, windowCount := 0) else r
  }

  function Recorded(r: Requester, id: U32): Requester {
    var recent := r.recent + [id];
    r.(windowCount := r.windowCount + 1, recent := if |recent| > RECENT then recent[|recent| - RECENT..] else recent)
  }

  datatype Answer = CacheAnswer(verdict: Verdict, out: seq<Symbol>, st: Store)

  lemma SymbolKeys(e: Entry)
    ensures forall i :: 0 <= i < |Ascending(e.symbols.Keys)| ==> Ascending(e.symbols.Keys)[i] in e.symbols
  {
    AscendingProperties(e.symbols.Keys);
    forall i | 0 <= i < |Ascending(e.symbols.Keys)| ensures Ascending(e.symbols.Keys)[i] in e.symbols {
      assert Ascending(e.symbols.Keys)[i] in Ascending(e.symbols.Keys);
    }
  }

  function Replied(cfg: Config, st: Store, req: Request, now: nat): Answer {
    if req.targetCache != cfg.self then CacheAnswer(NotOurs, [], st)
    else
      var known := RecordOf(st, req);
      if req.requestId in known.recent then CacheAnswer(Duplicate, [], st.(requesters := st.requesters[req.originator := known]))
      else
        var current := Windowed(known, now);
        if cfg.maxPerSecond != 0 && current.windowCount >= cfg.maxPerSecond
        then CacheAnswer(RateLimited, [], st.(requesters := st.requesters[req.originator := current]))
        else
          var st' := st.(requesters := st.requesters[req.originator := Recorded(current, req.requestId)]);
          if req.targetStream !in st.streams
             || st.streams[req.targetStream].key != StreamKey(req.targetOriginator, req.targetSession, req.targetStream)
          then CacheAnswer(UnknownStream, [], st')
          else
            var blocks := st.streams[req.targetStream].blocks;
            if req.blockId !in blocks || blocks[req.blockId].k == 0 || blocks[req.blockId].k != req.window
            then CacheAnswer(NoWindow, [], st')
            else
              var e := blocks[req.blockId];
              SymbolKeys(e);
              var allowance := if req.maxSymbols < cfg.replyLimit then req.maxSymbols else cfg.replyLimit;
              CacheAnswer(Answered, Chosen(e, req, Ascending(e.symbols.Keys), allowance), st')
  }

  // ---- what a store always is -------------------------------------------------------------------------

  /** Every symbol retained is filed under its own stream, block and index. */
  ghost predicate Filed(s: Stream) {
    forall b :: b in s.blocks ==> forall i :: i in s.blocks[b].symbols ==> FiledAt(s, b, i)
  }

  predicate FiledAt(s: Stream, b: U32, i: nat)
    requires b in s.blocks && i in s.blocks[b].symbols
  {
    var y := s.blocks[b].symbols[i];
    y.blockId == b && KeyOf(y) == s.key && Placed(y) == Some(Place(s.blocks[b].k, i))
  }

  /** Blocks and their order agree, without repeats and within the window. */
  ghost predicate Windowing(cfg: Config, s: Stream) {
    && |s.order| <= cfg.blocks
    && (forall i, j :: 0 <= i < j < |s.order| ==> s.order[i] != s.order[j])
    && (forall b :: b in s.blocks <==> b in s.order)
  }

  ghost predicate Sound(cfg: Config, st: Store) {
    forall id :: id in st.streams ==> Filed(st.streams[id]) && Windowing(cfg, st.streams[id])
  }

  lemma {:induction false} EvictedSound(s: Stream, limit: nat)
    requires Filed(s) && (forall i, j :: 0 <= i < j < |s.order| ==> s.order[i] != s.order[j])
    requires forall b :: b in s.blocks <==> b in s.order
    ensures var r := Evicted(s, limit);
            && Filed(r) && |r.order| <= limit && r.key == s.key
            && (forall i, j :: 0 <= i < j < |r.order| ==> r.order[i] != r.order[j])
            && (forall b :: b in r.blocks <==> b in r.order)
            && (forall b :: b in r.blocks ==> b in s.blocks && r.blocks[b] == s.blocks[b])
    decreases |s.order|
  {
    if |s.order| > limit {
      var next := s.(blocks := s.blocks - {s.order[0]}, order := s.order[1..]);
      hide Placed;
      forall b ensures b in next.blocks <==> b in next.order {
        if b in next.order {
          var j :| 0 <= j < |next.order| && next.order[j] == b;
          assert s.order[j + 1] == b;
        }
        if b in next.blocks {
          var j :| 0 <= j < |s.order| && s.order[j] == b;
          assert next.order[j - 1] == b;
        }
      }
      forall b, i | b in next.blocks && i in next.blocks[b].symbols ensures FiledAt(next, b, i) { assert FiledAt(s, b, i); }
      EvictedSound(next, limit);
    }
  }

  lemma OpenedSound(cfg: Config, s: Stream, y: Symbol)
    requires Filed(s) && Windowing(cfg, s)
    ensures var r := Opened(cfg, s, y); Filed(r) && Windowing(cfg, r) && r.key == KeyOf(y)
  {
    hide Placed, Evicted;
    var own := if s.key == KeyOf(y) then s else Stream(KeyOf(y), map[], []);
    assert Filed(own) && Windowing(cfg, own);
    if y.blockId !in own.blocks {
      var opening := own.(blocks := own.blocks[y.blockId := Entry(0, map[])], order := own.order + [y.blockId]);
      forall b, i | b in opening.blocks && i in opening.blocks[b].symbols ensures FiledAt(opening, b, i) { assert FiledAt(own, b, i); }
      EvictedSound(opening, cfg.blocks);
    }
  }

  lemma AddedSound(cfg: Config, s: Stream, y: Symbol, at: Place)
    requires Filed(s) && Windowing(cfg, s) && s.key == KeyOf(y) && Placed(y) == Some(at)
    ensures var r := Added(s, y, at); Filed(r) && Windowing(cfg, r)
  {
    hide Placed;
    var r := Added(s, y, at);
    assert forall b :: b in r.blocks <==> b in s.blocks;
    forall b, i | b in r.blocks && i in r.blocks[b].symbols ensures FiledAt(r, b, i) {
      if i in s.blocks[b].symbols { assert FiledAt(s, b, i); }
    }
  }

  lemma RetainedSound(cfg: Config, s: Stream, y: Symbol, at: Place)
    requires Filed(s) && Windowing(cfg, s) && Placed(y) == Some(at)
    ensures var r := Retained(cfg, s, y, at); Filed(r) && Windowing(cfg, r)
  {
    hide Placed, Filed, Windowing, Opened, Added;
    OpenedSound(cfg, s, y);
    AddedSound(cfg, Opened(cfg, s, y), y, at);
  }

  /** Hearing a symbol keeps every stream filed and its window bounded. */
  lemma NotedSound(cfg: Config, st: Store, y: Symbol)
    requires Sound(cfg, st)
    ensures Sound(cfg, Noted(cfg, st, y))
  {
    if y.streamId in cfg.streamIds && Placed(y).Some? {
      var s := if y.streamId in st.streams then st.streams[y.streamId] else NO_STREAM;
      hide Placed;
      RetainedSound(cfg, s, y, Placed(y).value);
      hide Retained, Filed, Windowing;
    }
  }

  /** Every symbol chosen is one the entry holds at an index the request wants. */
  lemma {:induction false} ChosenWanted(e: Entry, req: Request, ids: seq<nat>, allowance: nat)
    requires forall i :: 0 <= i < |ids| ==> ids[i] in e.symbols
    ensures forall y :: y in Chosen(e, req, ids, allowance) ==> exists i :: i in ids && i in e.symbols && e.symbols[i] == y && Wanted(req, e.k, i)
    decreases |ids|
  {
    hide Wanted;
    if ids != [] {
      var n := |ids| - 1;
      ChosenWanted(e, req, ids[..n], allowance);
      forall y | y in Chosen(e, req, ids, allowance)
        ensures exists i :: i in ids && i in e.symbols && e.symbols[i] == y && Wanted(req, e.k, i)
      {
        if y in Chosen(e, req, ids[..n], allowance) {
          var i :| i in ids[..n] && i in e.symbols && e.symbols[i] == y && Wanted(req, e.k, i);
          assert i in ids;
        } else {
          assert ids[n] in ids;
        }
      }
    }
  }

  /**
   * The symbols chosen are those of the lowest wanted indices held: all of them, or as many as the allowance with none wanted
   * below the last left out.
   */
  lemma {:induction false} ChosenLowest(e: Entry, req: Request, ids: seq<nat>, allowance: nat) returns (at: seq<nat>)
    requires forall i :: 0 <= i < |ids| ==> ids[i] in e.symbols
    requires forall i, j :: 0 <= i < j < |ids| ==> ids[i] < ids[j]
    ensures |at| == |Chosen(e, req, ids, allowance)| && forall j :: 0 <= j < |at| ==> at[j] in ids && Wanted(req, e.k, at[j])
    ensures forall j :: 0 <= j < |at| ==> at[j] in e.symbols && Chosen(e, req, ids, allowance)[j] == e.symbols[at[j]]
    ensures forall i, j :: 0 <= i < j < |at| ==> at[i] < at[j]
    ensures forall i :: i in ids && Wanted(req, e.k, i) ==> i in at || (|at| == allowance && forall j :: 0 <= j < |at| ==> at[j] < i)
    decreases |ids|
  {
    hide Wanted;
    at := [];
    if ids != [] {
      var n := |ids| - 1;
      var before := ChosenLowest(e, req, ids[..n], allowance);
      forall j | 0 <= j < |before| ensures before[j] in ids && before[j] < ids[n] {
        var i :| 0 <= i < n && ids[..n][i] == before[j];
        assert ids[i] == before[j];
      }
      forall i | i in ids ensures i in ids[..n] || i == ids[n] {}
      at := if |before| < allowance && Wanted(req, e.k, ids[n]) then before + [ids[n]] else before;
      assert ids[n] in ids;
    }
  }

  // ---- what is heard is answered ------------------------------------------------------------------------

  /** The blocks kept are the last to come, as they were. */
  lemma {:induction false} NewestStay(s: Stream, limit: nat, n: nat)
    requires n < |s.order| && n + limit >= |s.order| && s.order[n] in s.blocks
    requires forall i, j :: 0 <= i < j < |s.order| ==> s.order[i] != s.order[j]
    ensures var r := Evicted(s, limit); s.order[n] in r.blocks && r.blocks[s.order[n]] == s.blocks[s.order[n]]
    ensures Evicted(s, limit).order == if |s.order| > limit then s.order[|s.order| - limit..] else s.order
    decreases |s.order|
  {
    if |s.order| > limit {
      var next := s.(blocks := s.blocks - {s.order[0]}, order := s.order[1..]);
      assert next.order[n - 1] == s.order[n];
      NewestStay(next, limit, n - 1);
    }
  }

  /** A stream this symbol's sender may speak for, with the symbol's block absent or of its size. */
  predicate Welcome(cfg: Config, st: Store, y: Symbol) {
    && cfg.blocks > 0 && y.streamId in cfg.streamIds && Placed(y).Some? && (cfg.target == 0 || cfg.target == y.originator)
    && (y.streamId in st.streams ==>
          var s := st.streams[y.streamId];
          && (s.key.originator == 0 || s.key.originator == y.originator)
          && (s.key == KeyOf(y) && y.blockId in s.blocks ==> s.blocks[y.blockId].k == 0 || s.blocks[y.blockId].k == Placed(y).value.k))
  }

  /** A welcome symbol is held: it, or the first of its index. */
  lemma HeardHeld(cfg: Config, st: Store, y: Symbol)
    requires Sound(cfg, st) && Welcome(cfg, st, y)
    ensures var r, at := Noted(cfg, st, y), Placed(y).value;
            && y.streamId in r.streams && r.streams[y.streamId].key == KeyOf(y) && y.blockId in r.streams[y.streamId].blocks
            && var e := r.streams[y.streamId].blocks[y.blockId]; e.k == at.k && at.index in e.symbols
  {
    var s := if y.streamId in st.streams then st.streams[y.streamId] else NO_STREAM;
    var own := if s.key == KeyOf(y) then s else Stream(KeyOf(y), map[], []);
    assert Windowing(cfg, s) && Windowing(cfg, own);
    hide Placed, Sound, Filed, Evicted;
    if y.blockId !in own.blocks {
      var opening := own.(blocks := own.blocks[y.blockId := Entry(0, map[])], order := own.order + [y.blockId]);
      NewestStay(opening, cfg.blocks, |own.order|);
      EvictedKey(opening, cfg.blocks);
    }
  }

  lemma {:induction false} EvictedKey(s: Stream, limit: nat)
    ensures Evicted(s, limit).key == s.key
    decreases |s.order|
  {
    if |s.order| > limit { EvictedKey(s.(blocks := s.blocks - {s.order[0]}, order := s.order[1..]), limit); }
  }

  /**
   * A symbol just heard is answered with: a request to this cache for its block, new and within the rate, gets the symbol held at
   * its index whenever it wants it and the wanted ones fit its allowance.
   */
  lemma HeardAnswered(cfg: Config, st: Store, y: Symbol, req: Request, now: nat)
    requires Sound(cfg, st) && Welcome(cfg, st, y) && req.targetCache == cfg.self
    requires StreamKey(req.targetOriginator, req.targetSession, req.targetStream) == KeyOf(y) && req.blockId == y.blockId
    requires req.window == Placed(y).value.k
    requires req.originator in st.requesters && st.requesters[req.originator].session == req.session ==>
               req.requestId !in st.requesters[req.originator].recent
    requires cfg.maxPerSecond != 0 && req.originator in st.requesters && st.requesters[req.originator].session == req.session
             && Since(now, st.requesters[req.originator].windowStart) < 1000 ==>
               st.requesters[req.originator].windowCount < cfg.maxPerSecond
    ensures var a := Replied(cfg, Noted(cfg, st, y), req, now);
            && a.verdict == Answered
            && (Wanted(req, req.window, Placed(y).value.index) && |a.out| < req.maxSymbols && |a.out| < cfg.replyLimit ==>
                  Noted(cfg, st, y).streams[y.streamId].blocks[y.blockId].symbols[Placed(y).value.index] in a.out)
  {
    HeardHeld(cfg, st, y);
    var held := Noted(cfg, st, y);
    assert held.requesters == st.requesters;
    var e := held.streams[y.streamId].blocks[y.blockId];
    SymbolKeys(e);
    AscendingProperties(e.symbols.Keys);
    var allowance := if req.maxSymbols < cfg.replyLimit then req.maxSymbols else cfg.replyLimit;
    hide Noted, Sound, Welcome, Placed, Chosen, Wanted, Ascending;
    var at := ChosenLowest(e, req, Ascending(e.symbols.Keys), allowance);
    var a := Replied(cfg, held, req, now);
    assert a.out == Chosen(e, req, Ascending(e.symbols.Keys), allowance);
    var i := Placed(y).value.index;
    assert i in Ascending(e.symbols.Keys);
    if Wanted(req, e.k, i) && |a.out| < allowance {
      assert i in at;
      var j :| 0 <= j < |at| && at[j] == i;
      assert a.out[j] == e.symbols[i];
    }
  }

  // ---- the store as an object ---------------------------------------------------------------------------

  /** Oldest blocks first, until the window fits. */
  method Evict(s: Stream, limit: nat) returns (r: Stream)
    ensures r == Evicted(s, limit)
  {
    r := s;
    while |r.order| > limit
      invariant Evicted(s, limit) == Evicted(r, limit)
      decreases |r.order|
    {
      r := r.(blocks := r.blocks - {r.order[0]}, order := r.order[1..]);
    }
  }

  /** File a symbol of the stream's owner, opening its block and evicting old ones first. */
  method Retain(cfg: Config, was: Stream, y: Symbol, at: Place) returns (s: Stream)
    ensures s == Retained(cfg, was, y, at)
  {
    hide Evicted;
    s := was;
    if s.key != KeyOf(y) {
      s := Stream(KeyOf(y), map[], []);
    }
    if y.blockId !in s.blocks {
      s := s.(blocks := s.blocks[y.blockId := Entry(0, map[])], order := s.order + [y.blockId]);
      s := Evict(s, cfg.blocks);
    }
    assert s == Opened(cfg, was, y);
    hide Opened;
    if y.blockId in s.blocks {
      var e := s.blocks[y.blockId];
      if e.k == 0 || e.k == at.k {
        var symbols := e.symbols;
        if at.index !in symbols {
          symbols := symbols[at.index := y];
        }
        s := s.(blocks := s.blocks[y.blockId := Entry(at.k, symbols)]);
      }
    }
  }

  /** Requested missing sources, then repairs not yet held, in ascending index. */
  method Choose(e: Entry, req: Request, allowance: nat) returns (out: seq<Symbol>)
    requires forall i :: 0 <= i < |Ascending(e.symbols.Keys)| ==> Ascending(e.symbols.Keys)[i] in e.symbols
    ensures out == Chosen(e, req, Ascending(e.symbols.Keys), allowance)
  {
    var ids: seq<nat> := Ascending(e.symbols.Keys);
    out := [];
    var i := 0;
    while i < |ids|
      invariant 0 <= i <= |ids| && out == Chosen(e, req, ids[..i], allowance)
    {
      assert ids[..i + 1][..i] == ids[..i];
      if |out| < allowance {
        if ids[i] < e.k {
          if BitSet(req.missing, ids[i]) {
            out := out + [e.symbols[ids[i]]];
          }
        } else if !BitSet(req.have, ids[i] - e.k) {
          out := out + [e.symbols[ids[i]]];
        }
      }
      i := i + 1;
    }
    assert ids[..i] == ids;
  }

  class CacheStore {
    const cfg: Config
    var streams: map<Byte, Stream>
    var requesters: map<U16, Requester>

    ghost function View(): Store
      reads this
    {
      Store(streams, requesters)
    }

    ghost predicate Valid()
      reads this
    {
      Sound(cfg, View())
    }

    constructor (cfg: Config)
      ensures Valid() && View() == Store(map[], map[]) && this.cfg == cfg
    {
      this.cfg, streams, requesters := cfg, map[], map[];
    }

    /** Retain a heard symbol if its stream is tracked and its sender owns it. */
    method NoteData(y: Symbol)
      requires Valid()
      modifies this`streams
      ensures Valid() && View() == Noted(cfg, old(View()), y)
    {
      NotedSound(cfg, View(), y);
      hide Sound, Placed, Retained;
      var at := Placed(y);
      if y.streamId !in cfg.streamIds || at.None? {
        return;
      }
      var s := if y.streamId in streams then streams[y.streamId] else NO_STREAM;
      if (cfg.target != 0 && y.originator != cfg.target) || (s.key.originator != 0 && s.key.originator != y.originator) {
        streams := streams[y.streamId := s];
        return;
      }
      s := Retain(cfg, s, y, at.value);
      streams := streams[y.streamId := s];
    }

    /** Answer one request; a repeated request id is dropped, a requester beyond its rate refused. */
    method Answer(req: Request, now: nat) returns (verdict: Verdict, out: seq<Symbol>)
      requires Valid()
      modifies this`requesters
      ensures Valid()
      ensures var a := Replied(cfg, old(View()), req, now); verdict == a.verdict && out == a.out && View() == a.st
    {
      hide Filed, Windowing, Chosen, Ascending;
      out := [];
      ghost var was := View();
      if req.targetCache != cfg.self {
        return NotOurs, [];
      }
      var r := if req.originator in requesters then requesters[req.originator] else Requester(req.session, 0, 0, []);
      if r.session != req.session {
        r := Requester(req.session, 0, 0, []);
      }
      assert r == RecordOf(was, req);
      if req.requestId in r.recent {
        requesters := requesters[req.originator := r];
        return Duplicate, [];
      }
      if Since(now, r.windowStart) >= 1000 {
        r := r.(windowStart := now, windowCount := 0);
      }
      assert r == Windowed(RecordOf(was, req), now);
      hide RecordOf, Windowed, Recorded;
      if cfg.maxPerSecond != 0 && r.windowCount >= cfg.maxPerSecond {
        requesters := requesters[req.originator := r];
        return RateLimited, [];
      }
      requesters := requesters[req.originator := Recorded(r, req.requestId)];
      if req.targetStream !in streams {
        return UnknownStream, [];
      }
      var s := streams[req.targetStream];
      if s.key != StreamKey(req.targetOriginator, req.targetSession, req.targetStream) {
        return UnknownStream, [];
      }
      if req.blockId !in s.blocks {
        return NoWindow, [];
      }
      var e := s.blocks[req.blockId];
      if e.k == 0 || e.k != req.window {
        return NoWindow, [];
      }
      SymbolKeys(e);
      out := Choose(e, req, if req.maxSymbols < cfg.replyLimit then req.maxSymbols else cfg.replyLimit);
      return Answered, out;
    }
  }
}
