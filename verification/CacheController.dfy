/** The cache controller: it closes incomplete blocks, asks caches for what is missing and checks what they send. */
module CacheController {
  import opened Bytes
  import opened FrameBlock
  import opened CacheStore

  datatype Config = Config(self: U16, session: U32, caches: seq<U16>, tailGraceMs: U32, localQuietMs: U32, minCollectMs: U32,
                           hardCloseMs: U32, requestTimeoutMs: U32, fraction: U16, limit: Byte, maxAttempts: Byte,
                           replyLimit: Byte, healthFloor: U16, statusTimeoutMs: U32)

  datatype Status = Status(target: StreamKey, oldest: U32, newest: U32, health: U16)

  datatype Seen = Seen(status: Status, at: nat)

  /** An incomplete block as the reassembler reports it. */
  datatype Candidate = Candidate(blockId: U32, k: U16, unique: U16, firstMs: nat, lastNewMs: nat, eobMs: Option<nat>,
                                 missing: seq<Byte>, have: seq<Byte>)

  datatype BlockState = BlockState(closed: bool, futile: bool, suppressed: bool, attempts: nat, used: nat, lastMs: nat,
                                   tried: seq<U16>, issued: seq<nat>)

  const NEW_BLOCK := BlockState(false, false, false, 0, 0, 0, [], [])

  /** The serial counts requests without end; the id it goes out under is its last 32 bits. */
  datatype Outstanding = Outstanding(cache: U16, blockId: U32, issuedMs: nat, allowance: nat, accepted: nat, k: U16,
                                     missing: seq<Byte>, have: seq<Byte>, serial: nat)

  /** What was granted by a request and how much of it was taken; kept after the request itself is forgotten. */
  datatype Grant = Grant(blockId: U32, allowance: nat, accepted: nat)

  datatype Controller = Controller(registry: map<U16, seq<Seen>>, blocks: map<U32, BlockState>,
                                   outstanding: map<nat, Outstanding>, ledger: map<nat, Grant>, nextId: nat)

  const NEW_CONTROLLER := Controller(map[], map[], map[], map[], 1)

  const PRUNE_MS := 1000

  /** Local collection is over: the tail grace, the quiet time after a minimum, or the hard limit has passed. */
  predicate CloseDue(cfg: Config, c: Candidate, now: nat) {
    var least, quiet := c.firstMs + cfg.minCollectMs, c.lastNewMs + cfg.localQuietMs;
    || (c.eobMs.Some? && now >= c.eobMs.value + cfg.tailGraceMs)
    || now >= (if least > quiet then least else quiet)
    || now >= c.firstMs + cfg.hardCloseMs
  }

  predicate Eligible(cfg: Config, s: Seen, target: StreamKey, block: U32, now: nat) {
    && Since(now, s.at) <= cfg.statusTimeoutMs && s.status.target == target && s.status.health >= cfg.healthFloor
    && SerialDiff(block, s.status.oldest) >= 0
  }

  /** The first eligible status of a cache. */
  function FirstEligible(cfg: Config, entries: seq<Seen>, target: StreamKey, block: U32, now: nat): (r: Option<Seen>)
    ensures r.Some? ==> r.value in entries && Eligible(cfg, r.value, target, block, now)
  {
    if entries == [] then None
    else if Eligible(cfg, entries[0], target, block, now) then Some(entries[0])
    else FirstEligible(cfg, entries[1..], target, block, now)
  }

  datatype Choice = Choice(cache: U16, seen: Seen)

  predicate Better(a: Seen, b: Seen) {
    a.status.health > b.status.health || (a.status.health == b.status.health && a.at > b.at)
  }

  /** The best untried cache among the first n: healthiest, then freshest, then first configured. */
  function Best(cfg: Config, ctl: Controller, tried: seq<U16>, target: StreamKey, block: U32, now: nat,
                n: nat): (r: Option<Choice>)
    requires n <= |cfg.caches|
    ensures r.Some? ==> r.value.cache in cfg.caches && r.value.cache !in tried
    ensures forall i :: 0 <= i < n && cfg.caches[i] !in tried && cfg.caches[i] in ctl.registry ==>
              var e := FirstEligible(cfg, ctl.registry[cfg.caches[i]], target, block, now);
              e.Some? ==> r.Some? && !Better(e.value, r.value.seen)
  {
    if n == 0 then None
    else
      var before, cache := Best(cfg, ctl, tried, target, block, now, n - 1), cfg.caches[n - 1];
      if cache in tried || cache !in ctl.registry then before
      else
        var e := FirstEligible(cfg, ctl.registry[cache], target, block, now);
        if e.None? then before
        else if before.None? || Better(e.value, before.value.seen) then Some(Choice(cache, e.value))
        else before
  }

  /** Most symbols a block may ask caches for: its share of k rounded up, within the absolute limit. */
  function Cap(cfg: Config, k: U16): (cap: nat)
    ensures cap <= cfg.limit
  {
    var share := (k * cfg.fraction + 999) / 1000 % 0x1_0000;
    if share < cfg.limit then share else cfg.limit
  }

  lemma RoundedUp(share: nat)
    requires share <= 65_535_000
    ensures var c := (share + 999) / 1000 % 0x1_0000; 1000 * c >= share && (c == 0 || 1000 * (c - 1) < share)
  {
  }

  /** For every size a block can be asked for with, the budget is the least number that covers the share, or the limit. */
  lemma CapCovers(cfg: Config, k: U16, share: nat)
    requires share == k * cfg.fraction && (k <= MAX_SYMBOLS || share <= 65_535_000)
    ensures Cap(cfg, k) == cfg.limit || 1000 * Cap(cfg, k) >= share
    ensures Cap(cfg, k) == 0 || 1000 * (Cap(cfg, k) - 1) < share
  {
    ShareFits(k, cfg.fraction);
    RoundedUp(share);
  }

  lemma ShareFits(k: U16, fraction: U16)
    ensures k <= MAX_SYMBOLS ==> k * fraction <= 65_535_000
  {
    if k <= MAX_SYMBOLS { assert k * fraction <= MAX_SYMBOLS * fraction; }
  }

  function Min(a: nat, b: nat): nat {
    if a < b then a else b
  }

  datatype Considered = Considered(ctl: Controller, request: Option<Request>)

  /** The 32-bit id of a request. */
  function IdOf(serial: nat): U32 {
    serial % 0x1_0000_0000
  }

  function RequestFor(cfg: Config, target: StreamKey, c: Candidate, cache: U16, id: U32, allowance: Byte): Request {
    Request(cfg.self, cfg.session, target.originator, target.session, target.streamId, cache, id, c.blockId, c.k, allowance,
            c.missing[..Min((c.k as int + 7) / 8, |c.missing|)], c.have[..TrimmedLength(c.have)])
  }

  /** A request goes out: it is charged to the block's budget, and remembered unless its id is taken. */
  function Issued(cfg: Config, ctl: Controller, st: BlockState, c: Candidate, cache: U16, allowance: nat,
                  now: nat): Controller {
    var serial, id := ctl.nextId, IdOf(ctl.nextId) as nat;
    ctl.(nextId := serial + 1,
         outstanding := if id in ctl.outstanding then ctl.outstanding
                        else ctl.outstanding[id := Outstanding(cache, c.blockId, now, allowance, 0, c.k, c.missing, c.have, serial)],
         ledger := ctl.ledger[serial := Grant(c.blockId, allowance, 0)],
         blocks := ctl.blocks[c.blockId :=
           st.(attempts := st.attempts + 1, used := st.used + allowance, lastMs := now, tried := st.tried + [cache],
               issued := st.issued + [serial])])
  }

  /** What the block's own state says about asking now. */
  datatype Ask = Wait(st: BlockState) | Go(st: BlockState, remaining: nat, deficit: nat)

  function Asking(cfg: Config, st: BlockState, c: Candidate, now: nat): (a: Ask)
    requires c.unique < c.k
    ensures a.st.tried == st.tried && a.st.issued == st.issued && a.st.used == st.used && a.st.attempts == st.attempts
    ensures a.Go? ==> 0 < a.remaining <= Cap(cfg, c.k) - st.used && a.deficit > 0
  {
    if st.futile then Wait(st)
    else if !st.closed && !CloseDue(cfg, c, now) then Wait(st)
    else
      var open, deficit, cap := st.(closed := true), c.k - c.unique, Cap(cfg, c.k);
      if st.attempts == 0 && deficit > cap then Wait(open.(futile := true))
      else if st.attempts >= cfg.maxAttempts || (st.attempts > 0 && Since(now, st.lastMs) < cfg.requestTimeoutMs) || cap <= st.used
      then Wait(open)
      else Go(open, cap - st.used, deficit)
  }

  /** Ask the best untried cache for what the budget allows. */
  function GoingAhead(cfg: Config, ctl: Controller, target: StreamKey, c: Candidate, st: BlockState, remaining: nat,
                      deficit: nat, now: nat): Considered {
    var best := Best(cfg, ctl, st.tried, target, c.blockId, now, |cfg.caches|);
    if best.None? then Considered(ctl.(blocks := ctl.blocks[c.blockId := st.(suppressed := true)]), None)
    else
      var willing := st.(suppressed := false);
      var allowance := Min(cfg.replyLimit, Min(deficit, remaining));
      if allowance == 0 || c.k > MAX_SYMBOLS
      then Considered(ctl.(blocks := ctl.blocks[c.blockId := willing], nextId := ctl.nextId + 1), None)
      else
        Considered(Issued(cfg, ctl, willing, c, best.value.cache, allowance, now),
                   Some(RequestFor(cfg, target, c, best.value.cache, IdOf(ctl.nextId), allowance)))
  }

  function Considering(cfg: Config, ctl: Controller, target: StreamKey, c: Candidate, now: nat): Considered {
    if c.k == 0 || c.unique >= c.k then Considered(ctl, None)
    else
      var st := if c.blockId in ctl.blocks then ctl.blocks[c.blockId] else NEW_BLOCK;
      match Asking(cfg, st, c, now)
      case Wait(st') => Considered(ctl.(blocks := ctl.blocks[c.blockId := st']), None)
      case Go(st', remaining, deficit) => GoingAhead(cfg, ctl, target, c, st', remaining, deficit, now)
  }

  /** Some configured cache has told lately, in good health, that it holds the target stream's blocks back to this one. */
  ghost predicate Offering(cfg: Config, ctl: Controller, target: StreamKey, block: U32, now: nat) {
    exists i: nat, s: Seen :: i < |cfg.caches| && cfg.caches[i] in ctl.registry && s in ctl.registry[cfg.caches[i]]
                              && Since(now, s.at) <= cfg.statusTimeoutMs && s.status.target == target && s.status.health >= cfg.healthFloor
                              && SerialDiff(block, s.status.oldest) >= 0
  }

  lemma {:induction false} FirstFound(cfg: Config, entries: seq<Seen>, target: StreamKey, block: U32, now: nat)
    ensures FirstEligible(cfg, entries, target, block, now).Some? <==> exists s :: s in entries && Eligible(cfg, s, target, block, now)
  {
    hide Eligible;
    if entries != [] {
      FirstFound(cfg, entries[1..], target, block, now);
      assert forall s :: s in entries <==> s == entries[0] || s in entries[1..];
    }
  }

  lemma BestFound(cfg: Config, ctl: Controller, target: StreamKey, block: U32, now: nat)
    ensures Best(cfg, ctl, [], target, block, now, |cfg.caches|).Some? <==> Offering(cfg, ctl, target, block, now)
  {
    BestNone(cfg, ctl, target, block, now, |cfg.caches|);
    if Offering(cfg, ctl, target, block, now) {
      var i: nat, s: Seen :| i < |cfg.caches| && cfg.caches[i] in ctl.registry && s in ctl.registry[cfg.caches[i]]
                              && Since(now, s.at) <= cfg.statusTimeoutMs && s.status.target == target && s.status.health >= cfg.healthFloor
                              && SerialDiff(block, s.status.oldest) >= 0;
      assert Eligible(cfg, s, target, block, now);
      FirstFound(cfg, ctl.registry[cfg.caches[i]], target, block, now);
    }
  }

  lemma {:induction false} BestNone(cfg: Config, ctl: Controller, target: StreamKey, block: U32, now: nat, n: nat)
    requires n <= |cfg.caches|
    ensures Best(cfg, ctl, [], target, block, now, n).Some? ==> Offering(cfg, ctl, target, block, now)
  {
    if n != 0 {
      BestNone(cfg, ctl, target, block, now, n - 1);
      var cache := cfg.caches[n - 1];
      if cache in ctl.registry {
        var e := FirstEligible(cfg, ctl.registry[cache], target, block, now);
        hide Best, FirstEligible;
        if e.Some? {
          assert e.value in ctl.registry[cache] && Eligible(cfg, e.value, target, block, now);
        }
      }
    }
  }

  /**
   * A block considered for the first time is asked for exactly when local collection is over for it, what it lacks is within its
   * budget, the settings allow asking at all, and some cache offers it; and then for what it lacks, or what one reply may bring.
   */
  lemma FirstRequest(cfg: Config, ctl: Controller, target: StreamKey, c: Candidate, now: nat)
    requires c.blockId !in ctl.blocks && c.unique < c.k <= MAX_SYMBOLS
    ensures var r, lacking := Considering(cfg, ctl, target, c, now).request, c.k - c.unique;
            var ended := (c.eobMs.Some? && now >= c.eobMs.value + cfg.tailGraceMs)
                         || (now >= c.firstMs + cfg.minCollectMs && now >= c.lastNewMs + cfg.localQuietMs)
                         || now >= c.firstMs + cfg.hardCloseMs;
            && (r.Some? <==> ended && lacking <= Cap(cfg, c.k) && cfg.maxAttempts > 0 && cfg.replyLimit > 0
                             && Offering(cfg, ctl, target, c.blockId, now))
            && (r.Some? ==> r.value.blockId == c.blockId && r.value.window == c.k && r.value.targetCache in cfg.caches
                            && r.value.maxSymbols == if lacking < cfg.replyLimit then lacking else cfg.replyLimit)
  {
    BestFound(cfg, ctl, target, c.blockId, now);
    hide Best, Offering, Cap, Issued;
  }

  /** Blocks no longer open and requests too old to be answered are forgotten. */
  function PrunedFor(ctl: Controller, cands: seq<Candidate>, now: nat): Controller {
    ctl.(blocks := map b | b in ctl.blocks && (exists i :: 0 <= i < |cands| && cands[i].blockId == b) :: ctl.blocks[b],
         outstanding := map id | id in ctl.outstanding && Since(now, ctl.outstanding[id].issuedMs) <= PRUNE_MS :: ctl.outstanding[id])
  }

  datatype Round = Round(ctl: Controller, requests: seq<Request>)

  function Rounds(cfg: Config, ctl: Controller, target: StreamKey, cands: seq<Candidate>, now: nat): Round {
    if cands == [] then Round(ctl, [])
    else
      var before := Rounds(cfg, ctl, target, cands[..|cands| - 1], now);
      var one := Considering(cfg, before.ctl, target, cands[|cands| - 1], now);
      Round(one.ctl, if one.request.Some? then before.requests + [one.request.value] else before.requests)
  }

  function Ticked(cfg: Config, ctl: Controller, target: StreamKey, cands: seq<Candidate>, now: nat): Round {
    Rounds(cfg, PrunedFor(ctl, cands, now), target, cands, now)
  }

  // ---- replies ------------------------------------------------------------------------------------------

  datatype Verdict = Accept | UnknownRequest | WrongCache | WrongBlock | NotRequested | OverAllowance | Malformed

  /** A wrapped symbol against the request it claims to answer. */
  function Matched(o: Outstanding, y: Symbol): Verdict {
    if y.blockId != o.blockId then WrongBlock
    else if y.repair then
      if |y.payload| <= REPAIR_SUBHEADER || ReadBe16(y.payload, 1) != o.k then Malformed
      else if BitSet(o.have, y.payload[0]) then NotRequested
      else Accept
    else if |y.payload| < SOURCE_SUBHEADER || ReadBe16(y.payload, 0) != o.k then Malformed
    else
      var i := ReadBe16(y.payload, 2);
      if i >= o.k || i >= MAX_SYMBOLS || !BitSet(o.missing, i) then NotRequested else Accept
  }

  function ReplyVerdict(ctl: Controller, from: U16, id: nat, y: Symbol): Verdict {
    if id !in ctl.outstanding then UnknownRequest
    else
      var o := ctl.outstanding[id];
      if from != o.cache then WrongCache
      else if Matched(o, y) != Accept then Matched(o, y)
      else if o.accepted >= o.allowance then OverAllowance
      else Accept
  }

  function ReplyTaken(ctl: Controller, from: U16, id: nat, y: Symbol): Controller {
    if ReplyVerdict(ctl, from, id, y) != Accept then ctl
    else
      var o := ctl.outstanding[id];
      ctl.(outstanding := ctl.outstanding[id := o.(accepted := o.accepted + 1)],
           ledger := if o.serial in ctl.ledger
                     then ctl.ledger[o.serial := ctl.ledger[o.serial].(accepted := ctl.ledger[o.serial].accepted + 1)] else ctl.ledger)
  }

  function CompletedBlock(ctl: Controller, block: U32): Controller {
    ctl.(blocks := ctl.blocks - {block},
         outstanding := map id | id in ctl.outstanding && ctl.outstanding[id].blockId != block :: ctl.outstanding[id])
  }

  /** A status of a configured cache replaces the one it gave for the same target stream. */
  function StatusNoted(cfg: Config, ctl: Controller, cache: U16, status: Status, now: nat): Controller {
    if cache !in cfg.caches then ctl
    else
      var entries := if cache in ctl.registry then ctl.registry[cache] else [];
      ctl.(registry := ctl.registry[cache := Updated(entries, status, now)])
  }

  function Updated(entries: seq<Seen>, status: Status, now: nat): seq<Seen> {
    if entries == [] then [Seen(status, now)]
    else if entries[0].status.target.originator == status.target.originator
            && entries[0].status.target.streamId == status.target.streamId then [Seen(status, now)] + entries[1..]
    else [entries[0]] + Updated(entries[1..], status, now)
  }

  // ---- budgets ------------------------------------------------------------------------------------------

  /** Allowances granted by a row of requests, and symbols accepted on them. */
  function Granted(ledger: map<nat, Grant>, ids: seq<nat>): nat {
    if ids == [] then 0
    else
      var id := ids[|ids| - 1];
      Granted(ledger, ids[..|ids| - 1]) + if id in ledger then ledger[id].allowance else 0
  }

  function Taken(ledger: map<nat, Grant>, ids: seq<nat>): nat {
    if ids == [] then 0
    else
      var id := ids[|ids| - 1];
      Taken(ledger, ids[..|ids| - 1]) + if id in ledger then ledger[id].accepted else 0
  }

  /** A block's budget: what it used is what its requests were granted, one request per cache, within attempts and cap. */
  ghost predicate Frugal(cfg: Config, ctl: Controller, b: U32, cap: nat)
    requires b in ctl.blocks
  {
    var st := ctl.blocks[b];
    && st.used == Granted(ctl.ledger, st.issued) && st.used <= cap
    && |st.tried| == |st.issued| == st.attempts <= cfg.maxAttempts
    && (forall i, j :: 0 <= i < j < |st.tried| ==> st.tried[i] != st.tried[j])
    && (forall i :: 0 <= i < |st.issued| ==> st.issued[i] in ctl.ledger && ctl.ledger[st.issued[i]].blockId == b)
  }

  /** Requests are numbered upwards; what is accepted on one never exceeds its allowance. */
  ghost predicate Booked(ctl: Controller) {
    && (forall n :: n in ctl.ledger ==> n < ctl.nextId && ctl.ledger[n].accepted <= ctl.ledger[n].allowance)
    && (forall id :: id in ctl.outstanding ==> OnBooks(ctl, id))
  }

  /** An outstanding request has its grant. */
  ghost predicate OnBooks(ctl: Controller, id: nat)
    requires id in ctl.outstanding
  {
    var o := ctl.outstanding[id];
    && o.serial in ctl.ledger && o.serial < ctl.nextId && IdOf(o.serial) == id && o.blockId == ctl.ledger[o.serial].blockId
    && o.allowance == ctl.ledger[o.serial].allowance && o.accepted == ctl.ledger[o.serial].accepted
  }

  /** The size each block is a candidate with. */
  type Sizes = U32 -> U16

  ghost predicate Inv(cfg: Config, sizes: Sizes, ctl: Controller) {
    Booked(ctl) && forall b :: b in ctl.blocks ==> Frugal(cfg, ctl, b, Cap(cfg, sizes(b)))
  }

  lemma {:induction false} GrantedSame(l: map<nat, Grant>, l': map<nat, Grant>, ids: seq<nat>)
    requires forall i :: 0 <= i < |ids| ==> ids[i] in l && ids[i] in l' && l'[ids[i]].allowance == l[ids[i]].allowance
    ensures Granted(l', ids) == Granted(l, ids)
  {
    if ids != [] { GrantedSame(l, l', ids[..|ids| - 1]); }
  }

  lemma {:induction false} TakenWithinGranted(l: map<nat, Grant>, ids: seq<nat>)
    requires forall id :: id in l ==> l[id].accepted <= l[id].allowance
    ensures Taken(l, ids) <= Granted(l, ids)
  {
    if ids != [] { TakenWithinGranted(l, ids[..|ids| - 1]); }
  }

  /** A block whose own state and grants are untouched stays within its budget. */
  lemma FrugalSame(cfg: Config, ctl: Controller, ctl': Controller, b: U32, cap: nat)
    requires b in ctl.blocks && b in ctl'.blocks && Frugal(cfg, ctl, b, cap)
    requires ctl'.blocks[b].used == ctl.blocks[b].used && ctl'.blocks[b].tried == ctl.blocks[b].tried
    requires ctl'.blocks[b].issued == ctl.blocks[b].issued && ctl'.blocks[b].attempts == ctl.blocks[b].attempts
    requires forall id :: id in ctl.ledger ==>
               id in ctl'.ledger && ctl'.ledger[id].allowance == ctl.ledger[id].allowance && ctl'.ledger[id].blockId == ctl.ledger[id].blockId
    ensures Frugal(cfg, ctl', b, cap)
  {
    GrantedSame(ctl.ledger, ctl'.ledger, ctl.blocks[b].issued);
  }

  lemma IssuedFrugal(cfg: Config, ctl: Controller, st: BlockState, c: Candidate, cache: U16, allowance: nat,
                     now: nat, cap: nat)
    requires Booked(ctl) && cache !in st.tried && st.attempts < cfg.maxAttempts && st.used + allowance <= cap
    requires Frugal(cfg, ctl.(blocks := ctl.blocks[c.blockId := st]), c.blockId, cap)
    ensures Frugal(cfg, Issued(cfg, ctl, st, c, cache, allowance, now), c.blockId, cap)
  {
    var r := Issued(cfg, ctl, st, c, cache, allowance, now);
    var ids := st.issued + [ctl.nextId];
    GrantedSame(ctl.ledger, r.ledger, st.issued);
    GrantedMore(r.ledger, st.issued, ctl.nextId);
    hide Granted;
    assert r.blocks[c.blockId].issued == ids;
  }

  lemma GrantedMore(l: map<nat, Grant>, ids: seq<nat>, id: nat)
    requires id in l
    ensures Granted(l, ids + [id]) == Granted(l, ids) + l[id].allowance
  {
    assert (ids + [id])[..|ids|] == ids;
  }

  lemma IssuedBooked(cfg: Config, ctl: Controller, st: BlockState, c: Candidate, cache: U16, allowance: nat, now: nat)
    requires Booked(ctl)
    ensures Booked(Issued(cfg, ctl, st, c, cache, allowance, now))
  {
  }

  lemma GoingKeeps(cfg: Config, ctl: Controller, target: StreamKey, c: Candidate, st: BlockState, remaining: nat,
                   deficit: nat, now: nat, cap: nat)
    requires Booked(ctl) && st.used + remaining <= cap && st.attempts < cfg.maxAttempts
    requires Frugal(cfg, ctl.(blocks := ctl.blocks[c.blockId := st]), c.blockId, cap)
    ensures var r := GoingAhead(cfg, ctl, target, c, st, remaining, deficit, now).ctl;
            c.blockId in r.blocks && Frugal(cfg, r, c.blockId, cap) && Booked(r)
  {
    hide Frugal, Best, Booked, Issued, RequestFor;
    var best := Best(cfg, ctl, st.tried, target, c.blockId, now, |cfg.caches|);
    SuppressedFrugal(cfg, ctl, st, c.blockId, cap);
    BookedBlocks(ctl, ctl.blocks[c.blockId := st.(suppressed := true)]);
    BookedBlocks(ctl, ctl.blocks[c.blockId := st.(suppressed := false)]);
    if best.Some? {
      var allowance := Min(cfg.replyLimit, Min(deficit, remaining));
      var willing := st.(suppressed := false);
      IssuedFrugal(cfg, ctl, willing, c, best.value.cache, allowance, now, cap);
      IssuedBooked(cfg, ctl, willing, c, best.value.cache, allowance, now);
      IssuedHas(cfg, ctl, willing, c, best.value.cache, allowance, now);
    }
  }

  /** The candidate's own block keeps within its budget, and the books stay right. */
  lemma OwnBlock(cfg: Config, ctl: Controller, target: StreamKey, c: Candidate, now: nat)
    requires Booked(ctl) && 0 < c.k && c.unique < c.k
    requires c.blockId in ctl.blocks ==> Frugal(cfg, ctl, c.blockId, Cap(cfg, c.k))
    ensures var r := Considering(cfg, ctl, target, c, now).ctl;
            c.blockId in r.blocks && Frugal(cfg, r, c.blockId, Cap(cfg, c.k)) && Booked(r)
  {
    var cap := Cap(cfg, c.k);
    var st := if c.blockId in ctl.blocks then ctl.blocks[c.blockId] else NEW_BLOCK;
    assert ctl.blocks[c.blockId := st][c.blockId] == st;
    assert Frugal(cfg, ctl.(blocks := ctl.blocks[c.blockId := st]), c.blockId, cap);
    AskingFrugal(cfg, ctl, st, c, now, cap);
    hide Cap, Frugal, Asking, Booked, GoingAhead;
    var a := Asking(cfg, st, c, now);
    BookedBlocks(ctl, ctl.blocks[c.blockId := a.st]);
    if a.Go? {
      GoMeansLeft(cfg, st, c, now);
      GoingKeeps(cfg, ctl, target, c, a.st, a.remaining, a.deficit, now, cap);
    }
  }

  lemma IssuedHas(cfg: Config, ctl: Controller, st: BlockState, c: Candidate, cache: U16, allowance: nat, now: nat)
    ensures c.blockId in Issued(cfg, ctl, st, c, cache, allowance, now).blocks
  {
  }

  lemma BookedBlocks(ctl: Controller, blocks: map<U32, BlockState>)
    requires Booked(ctl)
    ensures Booked(ctl.(blocks := blocks)) && Booked(ctl.(blocks := blocks, nextId := ctl.nextId + 1))
  {
  }

  lemma ConsideringKeeps(cfg: Config, sizes: Sizes, ctl: Controller, target: StreamKey, c: Candidate, now: nat)
    requires Inv(cfg, sizes, ctl) && c.k == sizes(c.blockId)
    ensures Inv(cfg, sizes, Considering(cfg, ctl, target, c, now).ctl)
  {
    hide Cap, Frugal, Considering, Booked;
    var r := Considering(cfg, ctl, target, c, now).ctl;
    if c.k == 0 || c.unique >= c.k {
      Unconsidered(cfg, ctl, target, c, now);
    } else {
      OwnBlock(cfg, ctl, target, c, now);
      forall b | b in r.blocks ensures Frugal(cfg, r, b, Cap(cfg, sizes(b))) {
        if b != c.blockId {
          OnlyKnown(cfg, ctl, target, c, now, b);
          OtherBlock(cfg, ctl, target, c, now, b);
          FrugalSame(cfg, ctl, r, b, Cap(cfg, sizes(b)));
        }
      }
    }
  }

  lemma Unconsidered(cfg: Config, ctl: Controller, target: StreamKey, c: Candidate, now: nat)
    requires c.k == 0 || c.unique >= c.k
    ensures Considering(cfg, ctl, target, c, now).ctl == ctl
  {
  }

  lemma OnlyKnown(cfg: Config, ctl: Controller, target: StreamKey, c: Candidate, now: nat, b: U32)
    requires b in Considering(cfg, ctl, target, c, now).ctl.blocks && b != c.blockId
    ensures b in ctl.blocks
  {
    hide Best, Asking;
  }

  lemma GoMeansLeft(cfg: Config, st: BlockState, c: Candidate, now: nat)
    requires c.unique < c.k && Asking(cfg, st, c, now).Go?
    ensures st.attempts < cfg.maxAttempts
  {
  }

  lemma AskingFrugal(cfg: Config, ctl: Controller, st: BlockState, c: Candidate, now: nat, cap: nat)
    requires c.unique < c.k && Frugal(cfg, ctl.(blocks := ctl.blocks[c.blockId := st]), c.blockId, cap)
    ensures Frugal(cfg, ctl.(blocks := ctl.blocks[c.blockId := Asking(cfg, st, c, now).st]), c.blockId, cap)
  {
    hide Asking;
  }

  lemma SuppressedFrugal(cfg: Config, ctl: Controller, st: BlockState, b: U32, cap: nat)
    requires Frugal(cfg, ctl.(blocks := ctl.blocks[b := st]), b, cap)
    ensures Frugal(cfg, ctl.(blocks := ctl.blocks[b := st.(suppressed := true)]), b, cap)
    ensures Frugal(cfg, ctl.(blocks := ctl.blocks[b := st.(suppressed := false)]), b, cap)
    ensures Frugal(cfg, ctl.(blocks := ctl.blocks[b := st.(suppressed := false)], nextId := ctl.nextId + 1), b, cap)
  {
  }

  /** Considering one candidate leaves every other block's state alone. */
  lemma OtherBlock(cfg: Config, ctl: Controller, target: StreamKey, c: Candidate, now: nat, b: U32)
    requires b in ctl.blocks && b != c.blockId && Booked(ctl)
    ensures var r := Considering(cfg, ctl, target, c, now).ctl;
            && b in r.blocks && r.blocks[b] == ctl.blocks[b]
            && (forall id :: id in ctl.ledger ==> id in r.ledger && r.ledger[id] == ctl.ledger[id])
  {
    hide Best, Asking;
  }

  lemma {:induction false} RoundsKeep(cfg: Config, sizes: Sizes, ctl: Controller, target: StreamKey,
                                      cands: seq<Candidate>, now: nat)
    requires Inv(cfg, sizes, ctl) && forall i :: 0 <= i < |cands| ==> cands[i].k == sizes(cands[i].blockId)
    ensures Inv(cfg, sizes, Rounds(cfg, ctl, target, cands, now).ctl)
  {
    hide Inv, Considering;
    if cands != [] {
      RoundsKeep(cfg, sizes, ctl, target, cands[..|cands| - 1], now);
      ConsideringKeeps(cfg, sizes, Rounds(cfg, ctl, target, cands[..|cands| - 1], now).ctl, target, cands[|cands| - 1], now);
    }
  }

  lemma PrunedKeeps(cfg: Config, sizes: Sizes, ctl: Controller, cands: seq<Candidate>, now: nat)
    requires Inv(cfg, sizes, ctl)
    ensures Inv(cfg, sizes, PrunedFor(ctl, cands, now))
  {
    var r := PrunedFor(ctl, cands, now);
    forall b | b in r.blocks ensures Frugal(cfg, r, b, Cap(cfg, sizes(b))) { FrugalSame(cfg, ctl, r, b, Cap(cfg, sizes(b))); }
    hide Frugal, Cap, Since;
  }

  lemma RepliedKeeps(cfg: Config, sizes: Sizes, ctl: Controller, from: U16, id: nat, y: Symbol)
    requires Inv(cfg, sizes, ctl)
    ensures Inv(cfg, sizes, ReplyTaken(ctl, from, id, y))
  {
    var r := ReplyTaken(ctl, from, id, y);
    forall b | b in r.blocks ensures Frugal(cfg, r, b, Cap(cfg, sizes(b))) { FrugalSame(cfg, ctl, r, b, Cap(cfg, sizes(b))); }
    hide Frugal, Cap, Matched;
  }

  lemma CompletedKeeps(cfg: Config, sizes: Sizes, ctl: Controller, block: U32)
    requires Inv(cfg, sizes, ctl)
    ensures Inv(cfg, sizes, CompletedBlock(ctl, block))
  {
    var r := CompletedBlock(ctl, block);
    forall b | b in r.blocks ensures Frugal(cfg, r, b, Cap(cfg, sizes(b))) { FrugalSame(cfg, ctl, r, b, Cap(cfg, sizes(b))); }
    hide Frugal, Cap;
  }

  // ---- runs -----------------------------------------------------------------------------------------------

  datatype Input =
    | StatusHeard(cache: U16, status: Status, now: nat)
    | Clock(target: StreamKey, cands: seq<Candidate>, now: nat)
    | ReplyHeard(from: U16, id: nat, y: Symbol)
    | BlockDone(block: U32)

  function Next(cfg: Config, ctl: Controller, x: Input): Controller {
    match x
    case StatusHeard(cache, status, now) => StatusNoted(cfg, ctl, cache, status, now)
    case Clock(target, cands, now) => Ticked(cfg, ctl, target, cands, now).ctl
    case ReplyHeard(from, id, y) => ReplyTaken(ctl, from, id, y)
    case BlockDone(block) => CompletedBlock(ctl, block)
  }

  function Run(cfg: Config, inputs: seq<Input>): Controller {
    if inputs == [] then NEW_CONTROLLER else Next(cfg, Run(cfg, inputs[..|inputs| - 1]), inputs[|inputs| - 1])
  }

  /** The size a block has in a list of candidates. */
  function SizeIn(cands: seq<Candidate>, b: U32): U16 {
    if cands == [] then 0 else if cands[0].blockId == b then cands[0].k else SizeIn(cands[1..], b)
  }

  /** The size a block had when candidates were last listed. */
  function LastSize(inputs: seq<Input>, b: U32): U16 {
    if inputs == [] then 0
    else
      var x := inputs[|inputs| - 1];
      if x.Clock? then SizeIn(x.cands, b) else LastSize(inputs[..|inputs| - 1], b)
  }

  /** Candidates are listed with one size each, and with the size they were tracked with if they were. */
  predicate Consistent(ctl: Controller, tracked: Sizes, x: Input) {
    x.Clock? ==> forall i :: 0 <= i < |x.cands| ==>
      var c := x.cands[i]; c.k == SizeIn(x.cands, c.blockId) && (c.blockId in ctl.blocks ==> c.k == tracked(c.blockId))
  }

  /** A block keeps its size while the controller tracks it; one that is forgotten may come back with another. */
  ghost predicate Steady(cfg: Config, inputs: seq<Input>) {
    forall n :: 0 <= n < |inputs| ==> SteadyAt(cfg, inputs, n)
  }

  predicate SteadyAt(cfg: Config, inputs: seq<Input>, n: nat)
    requires n < |inputs|
  {
    Consistent(Run(cfg, inputs[..n]), b => LastSize(inputs[..n], b), inputs[n])
  }

  lemma SteadyBefore(cfg: Config, inputs: seq<Input>)
    requires Steady(cfg, inputs) && inputs != []
    ensures Steady(cfg, inputs[..|inputs| - 1]) && SteadyAt(cfg, inputs, |inputs| - 1)
  {
    var before := inputs[..|inputs| - 1];
    forall n | 0 <= n < |before| ensures SteadyAt(cfg, before, n) {
      assert SteadyAt(cfg, inputs, n) && before[..n] == inputs[..n];
    }
  }

  /** The controller only cares about the sizes of the blocks it tracks. */
  lemma InvSame(cfg: Config, sizes: Sizes, sizes': Sizes, ctl: Controller)
    requires Inv(cfg, sizes, ctl) && forall b :: b in ctl.blocks ==> sizes(b) == sizes'(b)
    ensures Inv(cfg, sizes', ctl)
  {
    hide Frugal, Cap, Booked;
  }

  lemma PrunedTracks(ctl: Controller, cands: seq<Candidate>, now: nat, b: U32)
    requires b in PrunedFor(ctl, cands, now).blocks
    ensures b in ctl.blocks && exists i :: 0 <= i < |cands| && cands[i].blockId == b
  {
    hide Since;
  }

  lemma ClockKeeps(cfg: Config, sizes: Sizes, sizes': Sizes, ctl: Controller, x: Input)
    requires Inv(cfg, sizes, ctl) && x.Clock? && Consistent(ctl, sizes, x)
    requires forall b: U32 :: sizes'(b) == SizeIn(x.cands, b)
    ensures Inv(cfg, sizes', Next(cfg, ctl, x))
  {
    var pruned := PrunedFor(ctl, x.cands, x.now);
    hide Inv, Rounds, SizeIn;
    PrunedKeeps(cfg, sizes, ctl, x.cands, x.now);
    forall b | b in pruned.blocks ensures sizes(b) == sizes'(b) { PrunedTracks(ctl, x.cands, x.now, b); }
    hide PrunedFor;
    InvSame(cfg, sizes, sizes', pruned);
    RoundsKeep(cfg, sizes', pruned, x.target, x.cands, x.now);
  }

  lemma {:induction false} RunKeeps(cfg: Config, inputs: seq<Input>)
    requires Steady(cfg, inputs)
    ensures Inv(cfg, b => LastSize(inputs, b), Run(cfg, inputs))
  {
    var sizes' := b => LastSize(inputs, b);
    if inputs != [] {
      var before, x := inputs[..|inputs| - 1], inputs[|inputs| - 1];
      var sizes, ctl := (b: U32) => LastSize(before, b), Run(cfg, before);
      SteadyBefore(cfg, inputs);
      RunKeeps(cfg, before);
      hide Steady;
      assert Consistent(ctl, sizes, x);
      hide SteadyAt, Consistent, Inv;
      match x {
        case StatusHeard(cache, status, now) => StatusKeeps(cfg, sizes, ctl, cache, status, now);
        case Clock(target, cands, now) =>
          hide SizeIn, Next;
          ClockKeeps(cfg, sizes, sizes', ctl, x);
        case ReplyHeard(from, id, y) => RepliedKeeps(cfg, sizes, ctl, from, id, y);
        case BlockDone(block) => CompletedKeeps(cfg, sizes, ctl, block);
      }
      if !x.Clock? { InvSame(cfg, sizes, sizes', Run(cfg, inputs)); }
    }
  }

  lemma StatusKeeps(cfg: Config, sizes: Sizes, ctl: Controller, cache: U16, status: Status, now: nat)
    requires Inv(cfg, sizes, ctl)
    ensures Inv(cfg, sizes, StatusNoted(cfg, ctl, cache, status, now))
  {
    var r := StatusNoted(cfg, ctl, cache, status, now);
    forall b | b in r.blocks ensures Frugal(cfg, r, b, Cap(cfg, sizes(b))) { FrugalSame(cfg, ctl, r, b, Cap(cfg, sizes(b))); }
    assert Booked(r);
    hide Frugal, Cap;
  }

  /**
   * Over every run, for a block as long as it stays a candidate: the symbols accepted on its requests never exceed its
   * share of k rounded up nor the absolute limit, no cache is asked twice, and attempts stay within their limit.
   */
  lemma RepairBounded(cfg: Config, inputs: seq<Input>, b: U32)
    requires Steady(cfg, inputs) && b in Run(cfg, inputs).blocks
    ensures var ctl := Run(cfg, inputs);
            var st := ctl.blocks[b];
            && Taken(ctl.ledger, st.issued) <= st.used <= Cap(cfg, LastSize(inputs, b)) <= cfg.limit
            && (forall i, j :: 0 <= i < j < |st.tried| ==> st.tried[i] != st.tried[j])
            && |st.tried| == st.attempts <= cfg.maxAttempts
  {
    RunKeeps(cfg, inputs);
    var ctl := Run(cfg, inputs);
    TakenWithinGranted(ctl.ledger, ctl.blocks[b].issued);
    hide Run, Granted, Taken, LastSize, Steady;
  }

  // ---- one request over a run ---------------------------------------------------------------------------

  lemma ConsideringBooked(cfg: Config, ctl: Controller, target: StreamKey, c: Candidate, now: nat)
    requires Booked(ctl)
    ensures Booked(Considering(cfg, ctl, target, c, now).ctl) && ctl.nextId <= Considering(cfg, ctl, target, c, now).ctl.nextId
  {
    hide Asking, Best;
  }

  lemma {:induction false} RoundsBooked(cfg: Config, ctl: Controller, target: StreamKey, cands: seq<Candidate>, now: nat)
    requires Booked(ctl)
    ensures var r := Rounds(cfg, ctl, target, cands, now).ctl; Booked(r) && ctl.nextId <= r.nextId
  {
    hide Considering, Booked;
    if cands != [] {
      var before := cands[..|cands| - 1];
      RoundsBooked(cfg, ctl, target, before, now);
      ConsideringBooked(cfg, Rounds(cfg, ctl, target, before, now).ctl, target, cands[|cands| - 1], now);
    }
  }

  lemma NextBooked(cfg: Config, ctl: Controller, x: Input)
    requires Booked(ctl)
    ensures Booked(Next(cfg, ctl, x)) && ctl.nextId <= Next(cfg, ctl, x).nextId
  {
    hide Rounds, Matched, Since;
    if x.Clock? { RoundsBooked(cfg, PrunedFor(ctl, x.cands, x.now), x.target, x.cands, x.now); }
  }

  lemma {:induction false} RunBooked(cfg: Config, inputs: seq<Input>)
    ensures Booked(Run(cfg, inputs))
  {
    if inputs != [] {
      RunBooked(cfg, inputs[..|inputs| - 1]);
      hide Booked, Next;
      NextBooked(cfg, Run(cfg, inputs[..|inputs| - 1]), inputs[|inputs| - 1]);
    }
  }

  /** A certain request is out, under its id. */
  predicate Out(ctl: Controller, serial: nat) {
    IdOf(serial) as nat in ctl.outstanding && ctl.outstanding[IdOf(serial)].serial == serial
  }

  /** Considering a candidate leaves the requests already out as they are. */
  lemma ConsideringLeaves(cfg: Config, ctl: Controller, target: StreamKey, c: Candidate, now: nat, serial: nat)
    requires serial < ctl.nextId
    ensures var r := Considering(cfg, ctl, target, c, now).ctl;
            && (Out(r, serial) <==> Out(ctl, serial))
            && (Out(ctl, serial) ==> r.outstanding[IdOf(serial)] == ctl.outstanding[IdOf(serial)]) && serial < r.nextId
  {
    hide Asking, Best, IdOf;
  }

  lemma {:induction false} RoundsLeave(cfg: Config, ctl: Controller, target: StreamKey, cands: seq<Candidate>, now: nat,
                                       serial: nat)
    requires serial < ctl.nextId
    ensures var r := Rounds(cfg, ctl, target, cands, now).ctl;
            && (Out(r, serial) <==> Out(ctl, serial))
            && (Out(ctl, serial) ==> r.outstanding[IdOf(serial)] == ctl.outstanding[IdOf(serial)]) && serial < r.nextId
  {
    hide Considering, IdOf;
    if cands != [] {
      var before := cands[..|cands| - 1];
      RoundsLeave(cfg, ctl, target, before, now, serial);
      ConsideringLeaves(cfg, Rounds(cfg, ctl, target, before, now).ctl, target, cands[|cands| - 1], now, serial);
    }
  }

  /** What ends a request: its block done, or a tick more than the prune time after it went out. */
  predicate Ends(o: Outstanding, x: Input) {
    || (x.BlockDone? && x.block == o.blockId)
    || (x.Clock? && Since(x.now, o.issuedMs) > PRUNE_MS)
  }

  /** A request stays exactly until something ends it, and only a reply accepted on it changes it. */
  lemma NextStanding(cfg: Config, ctl: Controller, x: Input, serial: nat)
    requires serial < ctl.nextId
    ensures var next, id := Next(cfg, ctl, x), IdOf(serial);
            && (Out(next, serial) <==> Out(ctl, serial) && !Ends(ctl.outstanding[id], x))
            && (Out(next, serial) ==>
                  var more := x.ReplyHeard? && x.id == id && ReplyVerdict(ctl, x.from, id, x.y) == Accept;
                  next.outstanding[id] == ctl.outstanding[id].(accepted := ctl.outstanding[id].accepted + if more then 1 else 0))
  {
    hide Rounds, Matched, Since, IdOf;
    if x.Clock? { RoundsLeave(cfg, PrunedFor(ctl, x.cands, x.now), x.target, x.cands, x.now, serial); }
  }

  /** Replies to a request that claim to come from a cache. */
  function Heard(inputs: seq<Input>, from: U16, id: nat): nat {
    if inputs == [] then 0
    else
      var x := inputs[|inputs| - 1];
      Heard(inputs[..|inputs| - 1], from, id) + if x.ReplyHeard? && x.from == from && x.id == id then 1 else 0
  }

  /** Whatever comes in between, a request is out exactly until something ends it, and no more is taken on it than was heard. */
  lemma {:induction false} RunStanding(cfg: Config, head: seq<Input>, after: seq<Input>, serial: nat)
    requires Out(Run(cfg, head), serial)
    ensures var id := IdOf(serial);
            var o, ctl := Run(cfg, head).outstanding[id], Run(cfg, head + after);
            && serial < ctl.nextId
            && (Out(ctl, serial) <==> forall i :: 0 <= i < |after| ==> !Ends(o, after[i]))
            && (Out(ctl, serial) ==>
                  && ctl.outstanding[id] == o.(accepted := ctl.outstanding[id].accepted)
                  && o.accepted <= ctl.outstanding[id].accepted <= o.accepted + Heard(after, o.cache, id))
    decreases |after|
  {
    var id := IdOf(serial);
    var o := Run(cfg, head).outstanding[id];
    if after == [] {
      RunBooked(cfg, head);
      assert head + after == head;
      assert OnBooks(Run(cfg, head), id);
    } else {
      var before, x := after[..|after| - 1], after[|after| - 1];
      assert (head + after)[..|head + after| - 1] == head + before && (head + after)[|head + after| - 1] == x;
      var ctl := Run(cfg, head + before);
      hide Next, Booked, ReplyVerdict, Ends, IdOf, Run;
      RunStanding(cfg, head, before, serial);
      RunLast(cfg, head, before, x);
      assert head + after == head + before + [x];
      RunBooked(cfg, head + before);
      NextBooked(cfg, ctl, x);
      NextStanding(cfg, ctl, x, serial);
      if Out(ctl, serial) {
        if x.ReplyHeard? && x.id == id { OnlyOwnCache(ctl, x.from, id, x.y); }
        SameEnd(o, ctl.outstanding[id], x);
      }
      assert forall i :: 0 <= i < |before| ==> before[i] == after[i];
      if forall i :: 0 <= i < |after| ==> !Ends(o, after[i]) {
        forall i | 0 <= i < |before| ensures !Ends(o, before[i]) { assert !Ends(o, after[i]); }
      }
    }
  }

  lemma RunLast(cfg: Config, head: seq<Input>, before: seq<Input>, x: Input)
    ensures Run(cfg, head + before + [x]) == Next(cfg, Run(cfg, head + before), x)
  {
    assert (head + before + [x])[..|head + before|] == head + before;
  }

  lemma OnlyOwnCache(ctl: Controller, from: U16, id: nat, y: Symbol)
    requires id in ctl.outstanding
    ensures ReplyVerdict(ctl, from, id, y) == Accept ==> from == ctl.outstanding[id].cache
  {
  }

  lemma SameEnd(o: Outstanding, o': Outstanding, x: Input)
    requires o' == o.(accepted := o'.accepted)
    ensures Ends(o', x) == Ends(o, x)
  {
  }

  // ---- the controller as an object ----------------------------------------------------------------------

  method FindEligible(cfg: Config, entries: seq<Seen>, target: StreamKey, block: U32,
                      now: nat) returns (r: Option<Seen>)
    ensures r == FirstEligible(cfg, entries, target, block, now)
  {
    hide Eligible;
    var i := 0;
    while i < |entries|
      invariant 0 <= i <= |entries|
      invariant FirstEligible(cfg, entries, target, block, now) == FirstEligible(cfg, entries[i..], target, block, now)
    {
      if Eligible(cfg, entries[i], target, block, now) {
        return Some(entries[i]);
      }
      assert entries[i..][1..] == entries[i + 1..];
      i := i + 1;
    }
    return None;
  }

  method Replace(entries: seq<Seen>, status: Status, now: nat) returns (r: seq<Seen>)
    ensures r == Updated(entries, status, now)
  {
    r := [];
    var i := 0;
    while i < |entries|
      invariant 0 <= i <= |entries| && r == entries[..i]
      invariant Updated(entries, status, now) == r + Updated(entries[i..], status, now)
    {
      assert entries[i..][1..] == entries[i + 1..];
      if entries[i].status.target.originator == status.target.originator
         && entries[i].status.target.streamId == status.target.streamId {
        return r + ([Seen(status, now)] + entries[i + 1..]);
      }
      r := r + [entries[i]];
      i := i + 1;
    }
    return r + [Seen(status, now)];
  }

  class CacheController {
    const cfg: Config
    var ctl: Controller

    constructor (cfg: Config)
      ensures ctl == NEW_CONTROLLER && this.cfg == cfg
    {
      this.cfg, ctl := cfg, NEW_CONTROLLER;
    }

    method OnStatus(cache: U16, status: Status, now: nat)
      modifies this
      ensures ctl == StatusNoted(cfg, old(ctl), cache, status, now)
    {
      if cache !in cfg.caches {
        return;
      }
      var entries := Replace(if cache in ctl.registry then ctl.registry[cache] else [], status, now);
      ctl := ctl.(registry := ctl.registry[cache := entries]);
    }

    /** Rank the untried caches with an eligible status. */
    method FindBest(tried: seq<U16>, target: StreamKey, block: U32, now: nat) returns (best: Option<Choice>)
      ensures best == Best(cfg, ctl, tried, target, block, now, |cfg.caches|)
    {
      hide FirstEligible, Better;
      best := None;
      var i := 0;
      while i < |cfg.caches|
        invariant 0 <= i <= |cfg.caches| && best == Best(cfg, ctl, tried, target, block, now, i)
      {
        var cache := cfg.caches[i];
        if cache !in tried && cache in ctl.registry {
          var e := FindEligible(cfg, ctl.registry[cache], target, block, now);
          if e.Some? && (best.None? || Better(e.value, best.value.seen)) {
            best := Some(Choice(cache, e.value));
          }
        }
        i := i + 1;
      }
    }

    /** One candidate: close it, judge it hopeless, wait, or ask the best cache for what its budget allows. */
    method Consider(target: StreamKey, c: Candidate, now: nat) returns (request: Option<Request>)
      modifies this
      ensures Considered(ctl, request) == Considering(cfg, old(ctl), target, c, now)
    {
      hide Best, Issued, RequestFor, CloseDue, Cap, Since;
      if c.k == 0 || c.unique >= c.k {
        return None;
      }
      var st := if c.blockId in ctl.blocks then ctl.blocks[c.blockId] else NEW_BLOCK;
      var a := Asking(cfg, st, c, now);
      hide Asking;
      if a.Wait? {
        ctl := ctl.(blocks := ctl.blocks[c.blockId := a.st]);
        return None;
      }
      var best := FindBest(a.st.tried, target, c.blockId, now);
      if best.None? {
        ctl := ctl.(blocks := ctl.blocks[c.blockId := a.st.(suppressed := true)]);
        return None;
      }
      var allowance := Min(cfg.replyLimit, Min(a.deficit, a.remaining));
      if allowance == 0 || c.k > MAX_SYMBOLS {
        ctl := ctl.(blocks := ctl.blocks[c.blockId := a.st.(suppressed := false)], nextId := ctl.nextId + 1);
        return None;
      }
      request := Some(RequestFor(cfg, target, c, best.value.cache, IdOf(ctl.nextId), allowance));
      ctl := Issued(cfg, ctl, a.st.(suppressed := false), c, best.value.cache, allowance, now);
    }

    /** Forget what is over, then consider every candidate in turn. */
    method Tick(target: StreamKey, cands: seq<Candidate>, now: nat) returns (requests: seq<Request>)
      modifies this
      ensures Round(ctl, requests) == Ticked(cfg, old(ctl), target, cands, now)
    {
      hide Considering;
      ghost var was := ctl;
      ctl := PrunedFor(ctl, cands, now);
      requests := [];
      var i := 0;
      while i < |cands|
        invariant 0 <= i <= |cands|
        invariant Round(ctl, requests) == Rounds(cfg, PrunedFor(was, cands, now), target, cands[..i], now)
      {
        assert cands[..i + 1][..i] == cands[..i];
        var request := Consider(target, cands[i], now);
        if request.Some? {
          requests := requests + [request.value];
        }
        i := i + 1;
      }
      assert cands[..i] == cands;
    }

    /** One wrapped symbol against the request it answers. */
    method OnReply(from: U16, id: nat, y: Symbol) returns (verdict: Verdict)
      modifies this
      ensures verdict == ReplyVerdict(old(ctl), from, id, y) && ctl == ReplyTaken(old(ctl), from, id, y)
    {
      if id !in ctl.outstanding {
        return UnknownRequest;
      }
      var o := ctl.outstanding[id];
      if from != o.cache {
        return WrongCache;
      }
      if y.blockId != o.blockId {
        return WrongBlock;
      }
      if y.repair {
        if |y.payload| <= REPAIR_SUBHEADER || ReadBe16(y.payload, 1) != o.k {
          return Malformed;
        }
        if BitSet(o.have, y.payload[0]) {
          return NotRequested;
        }
      } else {
        if |y.payload| < SOURCE_SUBHEADER || ReadBe16(y.payload, 0) != o.k {
          return Malformed;
        }
        var i := ReadBe16(y.payload, 2);
        if i >= o.k || i >= MAX_SYMBOLS || !BitSet(o.missing, i) {
          return NotRequested;
        }
      }
      if o.accepted >= o.allowance {
        return OverAllowance;
      }
      ctl := ctl.(outstanding := ctl.outstanding[id := o.(accepted := o.accepted + 1)],
                  ledger := if o.serial in ctl.ledger
                            then ctl.ledger[o.serial := ctl.ledger[o.serial].(accepted := ctl.ledger[o.serial].accepted + 1)]
                            else ctl.ledger);
      return Accept;
    }

    /** The block and its requests are gone; every other block and request, and the books, are kept. */
    method NoteCompleted(block: U32)
      modifies this
      ensures block !in ctl.blocks && forall id :: id in ctl.outstanding ==> ctl.outstanding[id].blockId != block
      ensures forall b :: b != block ==> (b in ctl.blocks <==> b in old(ctl).blocks)
      ensures forall b :: b in ctl.blocks ==> ctl.blocks[b] == old(ctl).blocks[b]
      ensures forall id :: id in old(ctl).outstanding && old(ctl).outstanding[id].blockId != block ==> id in ctl.outstanding
      ensures forall id :: id in ctl.outstanding ==> id in old(ctl).outstanding && ctl.outstanding[id] == old(ctl).outstanding[id]
      ensures (ctl.registry, ctl.ledger, ctl.nextId) == (old(ctl).registry, old(ctl).ledger, old(ctl).nextId)
      ensures ctl == CompletedBlock(old(ctl), block)
    {
      ghost var was := ctl;
      ctl := ctl.(blocks := ctl.blocks - {block});
      var left := ctl.outstanding.Keys;
      while left != {}
        invariant left <= was.outstanding.Keys && ctl == was.(blocks := was.blocks - {block}, outstanding := ctl.outstanding)
        invariant ctl.outstanding == map id | id in was.outstanding && (id in left || was.outstanding[id].blockId != block)
                                       :: was.outstanding[id]
      {
        var id :| id in left;
        if ctl.outstanding[id].blockId == block {
          ctl := ctl.(outstanding := ctl.outstanding - {id});
        }
        left := left - {id};
      }
    }
  }
}
