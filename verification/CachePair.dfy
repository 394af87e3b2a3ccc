/** Controller and cache together: what is asked over the wire is what is understood, and what is answered is accepted. */
module CachePair {
  import opened Bytes
  import opened Keys
  import opened FrameBlock
  import opened Cache = CacheStore
  import Controller = CacheController
  import Wire

  /** A request as the wire carries it. */
  function OnWire(req: Request): Wire.Packet {
    Wire.Packet(Wire.CacheRequest, Wire.Prefix(req.originator, req.targetCache, req.session),
      [req.targetOriginator as nat, req.targetSession as nat, req.targetStream as nat, req.targetCache as nat,
       req.requestId as nat, req.blockId as nat, req.window as nat, req.maxSymbols as nat, |req.have|],
      req.missing + req.have)
  }

  /** A request as the cache reads it. */
  function OffWire(p: Wire.Packet): Request
    requires p.kind == Wire.CacheRequest && Wire.Encodable(p)
  {
    var f, n := p.fields, (p.fields[6] + 7) / 8;
    assert forall i :: 0 <= i < 9 ==> Wire.Fits(Wire.Layout(Wire.CacheRequest)[i], f[i]);
    assert Wire.Fits(Wire.Half, f[0]) && Wire.Fits(Wire.Word, f[1]) && Wire.Fits(Wire.Octet, f[2]) && Wire.Fits(Wire.Half, f[3]);
    assert Wire.Fits(Wire.Word, f[4]) && Wire.Fits(Wire.Word, f[5]) && Wire.Fits(Wire.Half, f[6]) && Wire.Fits(Wire.Octet, f[7]);
    Request(p.prefix.originator, p.prefix.session, f[0], f[1], f[2], f[3], f[4], f[5], f[6], f[7], p.tail[..n], p.tail[n..])
  }

  /** Bitmaps of the sizes a request has: whole bytes for k sources, at most 32 for repairs. */
  predicate Proper(req: Request) {
    && 0 < req.window <= MAX_SYMBOLS && req.maxSymbols > 0
    && |req.missing| == (req.window as int + 7) / 8 && |req.have| <= 32
  }

  /** A proper request arrives as it was sent, bitmaps and all. */
  lemma RequestTravels(req: Request)
    requires Proper(req)
    ensures Wire.Encodable(OnWire(req)) && Wire.Decode(Wire.Encode(OnWire(req))) == Wire.Ok(OnWire(req))
    ensures OffWire(OnWire(req)) == req
  {
    RequestEncodable(req);
    hide Wire.Decode, Wire.Encode, Wire.Encodable;
    var p := OnWire(req);
    Wire.DecodeEncode(p);
    assert p.tail[..|req.missing|] == req.missing && p.tail[|req.missing|..] == req.have;
  }

  lemma RequestEncodable(req: Request)
    requires Proper(req)
    ensures Wire.Encodable(OnWire(req)) && Wire.Survives(OnWire(req))
  {
    var p := OnWire(req);
    var ws := Wire.Layout(Wire.CacheRequest);
    assert |ws| == 9 == |p.fields|;
    forall i | 0 <= i < 9 ensures Wire.Fits(ws[i], p.fields[i]) {}
    hide Wire.Bit;
  }

  /** An outstanding request that asks for what a candidate lacks. */
  ghost predicate AsksFor(o: Controller.Outstanding, req: Request, c: Controller.Candidate) {
    && o.k == c.k == req.window && o.blockId == c.blockId == req.blockId && o.cache == req.targetCache
    && o.missing == c.missing && o.have == c.have && o.accepted == 0 && req.maxSymbols <= o.allowance
    && (forall i :: BitSet(req.missing, i) ==> BitSet(c.missing, i)) && (forall j :: BitSet(c.have, j) ==> BitSet(req.have, j))
  }

  /** What the controller sends is proper, and it remembers exactly that, unless an older request still has its id. */
  lemma RequestRemembered(cfg: Controller.Config, ctl: Controller.Controller, target: StreamKey,
                          c: Controller.Candidate, now: nat)
    requires |c.missing| == |c.have| == 32 && Controller.Considering(cfg, ctl, target, c, now).request.Some?
    ensures var r := Controller.Considering(cfg, ctl, target, c, now);
            var req := r.request.value;
            && Proper(req) && req.requestId == Controller.IdOf(ctl.nextId) && r.ctl.nextId == ctl.nextId + 1
            && (req.requestId as nat !in ctl.outstanding ==>
                  && Controller.Out(r.ctl, ctl.nextId) && req.requestId as nat in r.ctl.outstanding
                  && AsksFor(r.ctl.outstanding[req.requestId], req, c))
            && req.targetOriginator == target.originator && req.targetSession == target.session && req.targetStream == target.streamId
  {
    hide Controller.Best, Controller.CloseDue, Controller.Cap;
    var r := Controller.Considering(cfg, ctl, target, c, now);
    var req := r.request.value;
    assert req.have == c.have[..TrimmedLength(c.have)];
    forall j ensures BitSet(c.have, j) == BitSet(req.have, j) { TrimKeepsBits(c.have, j); }
    hide TrimmedLength;
    forall i | BitSet(req.missing, i) ensures BitSet(c.missing, i) { assert req.missing[i / 8] == c.missing[i / 8]; }
  }

  /** A symbol the cache has on file and the request wants passes every check but the allowance. */
  lemma AnswerMatches(s: Stream, o: Controller.Outstanding, req: Request, c: Controller.Candidate, i: nat)
    requires Filed(s) && req.blockId in s.blocks && s.blocks[req.blockId].k == req.window && i in s.blocks[req.blockId].symbols
    requires AsksFor(o, req, c) && Wanted(req, s.blocks[req.blockId].k, i)
    ensures Controller.Matched(o, s.blocks[req.blockId].symbols[i]) == Controller.Accept
  {
    assert FiledAt(s, req.blockId, i);
    hide BitSet;
  }

  /** Everything a cache answers to a request matches it, and there is no more of it than was asked for. */
  lemma AnswersMatch(cfg: Cache.Config, st: Store, o: Controller.Outstanding, req: Request, c: Controller.Candidate,
                     now: nat)
    requires Sound(cfg, st) && AsksFor(o, req, c)
    ensures var out := Replied(cfg, st, req, now).out;
            |out| <= o.allowance && forall y :: y in out ==> Controller.Matched(o, y) == Controller.Accept
    ensures Replied(cfg, st, req, now).out != [] ==> o.cache == cfg.self
  {
    var a := Replied(cfg, st, req, now);
    if a.verdict == Answered {
      var s := st.streams[req.targetStream];
      var e := s.blocks[req.blockId];
      SymbolKeys(e);
      assert Filed(s);
      ChosenWanted(e, req, Ascending(e.symbols.Keys), if req.maxSymbols < cfg.replyLimit then req.maxSymbols else cfg.replyLimit);
      hide Filed, Chosen, Wanted, Ascending;
      forall y | y in a.out ensures Controller.Matched(o, y) == Controller.Accept {
        var i :| i in Ascending(e.symbols.Keys) && i in e.symbols && e.symbols[i] == y && Wanted(req, e.k, i);
        AnswerMatches(s, o, req, c, i);
      }
    }
  }

  lemma SameMatch(o: Controller.Outstanding, o': Controller.Outstanding, y: Symbol)
    requires o' == o.(accepted := o'.accepted)
    ensures Controller.Matched(o', y) == Controller.Matched(o, y)
  {
  }

  /** Bitmaps cover all 256 symbol indices. */
  predicate FullBitmaps(cands: seq<Controller.Candidate>) {
    forall i :: 0 <= i < |cands| ==> |cands[i].missing| == |cands[i].have| == 32
  }

  /** A request that was just sent is outstanding, as a certain one, for the candidate it was sent for. */
  ghost predicate Asked(ctl: Controller.Controller, cands: seq<Controller.Candidate>, target: StreamKey, req: Request,
                        serial: nat) {
    && Proper(req) && req.requestId == Controller.IdOf(serial) && Controller.Out(ctl, serial) && serial < ctl.nextId
    && req.targetOriginator == target.originator && req.targetSession == target.session && req.targetStream == target.streamId
    && exists i :: 0 <= i < |cands| && AsksFor(ctl.outstanding[req.requestId], req, cands[i])
  }

  lemma AskedStays(ctl: Controller.Controller, ctl': Controller.Controller, cands: seq<Controller.Candidate>,
                   more: seq<Controller.Candidate>, target: StreamKey, req: Request, serial: nat)
    requires Asked(ctl, cands, target, req, serial) && Controller.Out(ctl', serial) && serial < ctl'.nextId
    requires ctl'.outstanding[req.requestId] == ctl.outstanding[req.requestId] && cands <= more
    ensures Asked(ctl', more, target, req, serial)
  {
    hide AsksFor, Proper, Controller.IdOf;
    var i :| 0 <= i < |cands| && AsksFor(ctl.outstanding[req.requestId], req, cands[i]);
    assert AsksFor(ctl'.outstanding[req.requestId], req, more[i]);
  }

  /** What is outstanding in the middle of a tick was so before it, or is one of its few requests. */
  ghost predicate Recent(ctl: Controller.Controller, ctl': Controller.Controller, n: nat) {
    && ctl.nextId <= ctl'.nextId <= ctl.nextId + n
    && forall id :: id in ctl'.outstanding ==>
         id in ctl.outstanding
         || (ctl.nextId <= ctl'.outstanding[id].serial < ctl'.nextId && Controller.IdOf(ctl'.outstanding[id].serial) as nat == id)
  }

  lemma ConsideringRecent(cfg: Controller.Config, ctl: Controller.Controller, mid: Controller.Controller,
                          target: StreamKey, c: Controller.Candidate, now: nat, n: nat)
    requires Recent(ctl, mid, n)
    ensures Recent(ctl, Controller.Considering(cfg, mid, target, c, now).ctl, n + 1)
  {
    hide Controller.Asking, Controller.Best, Controller.IdOf;
  }

  lemma {:induction false} RoundsRecent(cfg: Controller.Config, ctl: Controller.Controller, target: StreamKey,
                                        cands: seq<Controller.Candidate>, now: nat)
    ensures Recent(ctl, Controller.Rounds(cfg, ctl, target, cands, now).ctl, |cands|)
    decreases |cands|
  {
    hide Controller.Considering;
    if cands != [] {
      var some := cands[..|cands| - 1];
      RoundsRecent(cfg, ctl, target, some, now);
      ConsideringRecent(cfg, ctl, Controller.Rounds(cfg, ctl, target, some, now).ctl, target, cands[|cands| - 1], now, |some|);
    }
  }

  /** Ids of one tick do not meet: it draws fewer than there are. */
  lemma IdFree(ctl: Controller.Controller, mid: Controller.Controller, n: nat)
    requires Recent(ctl, mid, n) && n < 0x1_0000_0000 && Controller.IdOf(mid.nextId) as nat !in ctl.outstanding
    ensures Controller.IdOf(mid.nextId) as nat !in mid.outstanding
  {
    var id: nat := Controller.IdOf(mid.nextId);
    if id in mid.outstanding { Apart(mid.outstanding[id].serial, mid.nextId); }
  }

  lemma Apart(m: nat, n: nat)
    requires m < n < m + 0x1_0000_0000
    ensures Controller.IdOf(m) != Controller.IdOf(n)
  {
  }

  /** Every request of a tick is outstanding at its end, the candidates considered after it notwithstanding. */
  lemma {:induction false} RoundsAsk(cfg: Controller.Config, ctl: Controller.Controller, target: StreamKey,
                                     cands: seq<Controller.Candidate>, now: nat, req: Request) returns (serial: nat)
    requires FullBitmaps(cands) && |cands| < 0x1_0000_0000 && req.requestId as nat !in ctl.outstanding
    requires req in Controller.Rounds(cfg, ctl, target, cands, now).requests
    ensures Asked(Controller.Rounds(cfg, ctl, target, cands, now).ctl, cands, target, req, serial)
    decreases |cands|
  {
    hide Controller.Considering, AsksFor, Asked, Proper, Recent, Controller.IdOf, Controller.Out;
    var some, c := cands[..|cands| - 1], cands[|cands| - 1];
    var before := Controller.Rounds(cfg, ctl, target, some, now);
    var one := Controller.Considering(cfg, before.ctl, target, c, now);
    if req in before.requests {
      serial := RoundsAsk(cfg, ctl, target, some, now, req);
      AskedOut(before.ctl, some, target, req, serial);
      Controller.ConsideringLeaves(cfg, before.ctl, target, c, now, serial);
      AskedStays(before.ctl, one.ctl, some, cands, target, req, serial);
    } else {
      assert FullBitmaps([c]);
      serial := before.ctl.nextId;
      RequestRemembered(cfg, before.ctl, target, c, now);
      RoundsRecent(cfg, ctl, target, some, now);
      IdFree(ctl, before.ctl, |some|);
      JustAsked(one.ctl, cands, target, req, serial);
    }
  }

  lemma AskedOut(ctl: Controller.Controller, cands: seq<Controller.Candidate>, target: StreamKey, req: Request, serial: nat)
    requires Asked(ctl, cands, target, req, serial)
    ensures Controller.Out(ctl, serial) && serial < ctl.nextId && req.requestId == Controller.IdOf(serial)
  {
  }

  lemma JustAsked(ctl: Controller.Controller, cands: seq<Controller.Candidate>, target: StreamKey, req: Request, serial: nat)
    requires cands != [] && Proper(req) && Controller.Out(ctl, serial) && serial < ctl.nextId
    requires req.requestId == Controller.IdOf(serial) && req.requestId as nat in ctl.outstanding
    requires AsksFor(ctl.outstanding[req.requestId], req, cands[|cands| - 1])
    requires req.targetOriginator == target.originator && req.targetSession == target.session && req.targetStream == target.streamId
    ensures Asked(ctl, cands, target, req, serial)
  {
    hide AsksFor, Proper, Controller.IdOf;
  }

  lemma TickAsks(cfg: Controller.Config, before: seq<Controller.Input>, target: StreamKey,
                 cands: seq<Controller.Candidate>, now: nat, req: Request) returns (serial: nat)
    requires FullBitmaps(cands) && |cands| < 0x1_0000_0000
    requires req in Controller.Ticked(cfg, Controller.Run(cfg, before), target, cands, now).requests
    requires req.requestId as nat !in Controller.PrunedFor(Controller.Run(cfg, before), cands, now).outstanding
    ensures Asked(Controller.Run(cfg, before + [Controller.Clock(target, cands, now)]), cands, target, req, serial)
  {
    var x := Controller.Clock(target, cands, now);
    var ctl := Controller.Run(cfg, before);
    assert (before + [x])[..|before|] == before;
    hide Asked, Controller.Rounds, Controller.PrunedFor;
    serial := RoundsAsk(cfg, Controller.PrunedFor(ctl, cands, now), target, cands, now, req);
  }

  /** A symbol of a cache's answer is taken while the request stands and less was taken on it than answered. */
  lemma OneTaken(store: Cache.Config, st: Store, ctl: Controller.Controller, cands: seq<Controller.Candidate>,
                 target: StreamKey, req: Request, serial: nat, ctl': Controller.Controller, later: nat, y: Symbol)
    requires Asked(ctl, cands, target, req, serial) && Sound(store, st) && req.requestId as nat in ctl'.outstanding
    requires ctl'.outstanding[req.requestId] == ctl.outstanding[req.requestId].(accepted := ctl'.outstanding[req.requestId].accepted)
    requires y in Replied(store, st, req, later).out && ctl'.outstanding[req.requestId].accepted < |Replied(store, st, req, later).out|
    ensures Controller.ReplyVerdict(ctl', req.targetCache, req.requestId, y) == Controller.Accept
  {
    hide Replied, AsksFor, Sound, Proper, Controller.Matched, Controller.IdOf;
    var o, o' := ctl.outstanding[req.requestId], ctl'.outstanding[req.requestId];
    var i :| 0 <= i < |cands| && AsksFor(o, req, cands[i]);
    AnswersMatch(store, st, o, req, cands[i], later);
    Remembered(o, req, cands[i]);
    SameMatch(o, o', y);
  }

  lemma Remembered(o: Controller.Outstanding, req: Request, c: Controller.Candidate)
    requires AsksFor(o, req, c)
    ensures o.cache == req.targetCache && o.accepted == 0
  {
  }

  lemma AskedFresh(ctl: Controller.Controller, cands: seq<Controller.Candidate>, target: StreamKey, req: Request,
                   serial: nat)
    requires Asked(ctl, cands, target, req, serial)
    ensures Proper(req) && ctl.outstanding[req.requestId].accepted == 0 && ctl.outstanding[req.requestId].cache == req.targetCache
  {
    hide Proper, Controller.IdOf;
  }

  /**
   * A request the controller issues reaches the cache through the wire unchanged; and unless an older request still had
   * its id, it is on file after the tick. Then after any run that follows, with ticks, statuses, other requests and their
   * replies in any order, every symbol the cache answers is accepted as long as that very request is still out and fewer
   * replies to it were heard from that cache than it answered.
   */
  lemma AnswersAccepted(cfg: Controller.Config, before: seq<Controller.Input>, target: StreamKey,
                        cands: seq<Controller.Candidate>, now: nat, req: Request, after: seq<Controller.Input>,
                        store: Cache.Config, st: Store, later: nat, y: Symbol)
    requires FullBitmaps(cands) && |cands| < 0x1_0000_0000
    requires req in Controller.Ticked(cfg, Controller.Run(cfg, before), target, cands, now).requests
    requires req.requestId as nat !in Controller.PrunedFor(Controller.Run(cfg, before), cands, now).outstanding
    requires Sound(store, st) && y in Replied(store, st, req, later).out
    requires Controller.Heard(after, req.targetCache, req.requestId) < |Replied(store, st, req, later).out|
    ensures Proper(req) && Wire.Encodable(OnWire(req)) && Wire.Decode(Wire.Encode(OnWire(req))) == Wire.Ok(OnWire(req))
    ensures OffWire(OnWire(req)) == req
    ensures req.requestId as nat in Controller.Run(cfg, before + [Controller.Clock(target, cands, now)]).outstanding
    ensures var serial := Controller.Run(cfg, before + [Controller.Clock(target, cands, now)]).outstanding[req.requestId].serial;
            var ctl := Controller.Run(cfg, before + [Controller.Clock(target, cands, now)] + after);
            Controller.IdOf(serial) == req.requestId
            && (Controller.Out(ctl, serial) ==> Controller.ReplyVerdict(ctl, req.targetCache, req.requestId, y) == Controller.Accept)
  {
    hide Controller.Ticked, Controller.Run, Controller.Heard, Replied, Sound, Controller.ReplyVerdict, OnWire, Wire.Encodable;
    hide Proper, Asked, FullBitmaps, Wire.Decode, Wire.Encode, Controller.Ends, Controller.IdOf, Controller.PrunedFor;
    var head := before + [Controller.Clock(target, cands, now)];
    var serial := TickAsks(cfg, before, target, cands, now, req);
    var ctl := Controller.Run(cfg, head);
    AskedOut(ctl, cands, target, req, serial);
    AskedFresh(ctl, cands, target, req, serial);
    RequestTravels(req);
    Controller.RunStanding(cfg, head, after, serial);
    if Controller.Out(Controller.Run(cfg, head + after), serial) {
      OneTaken(store, st, ctl, cands, target, req, serial, Controller.Run(cfg, head + after), later, y);
    }
  }
}
