/** The two engines of the remote vehicle command: the craft that applies and echoes, the issuer that sends and retries. */
module VehicleCmd {
  import opened Bytes

  /** A VEHICLE_CMD packet; sealed says its MAC field is the keyed MAC of everything else in it. */
  datatype Packet = Packet(originator: U16, session: U32, destination: U16, nonce: U32, ack: bool, rejected: bool,
                           id: Byte, arg: Byte, seqNo: Byte, sealed: bool)

  datatype Policy = Policy(hasKey: bool, copies: Byte, copyIntervalMs: U32, echoCopies: Byte, ackTimeoutMs: U32,
                           retryCap: Byte, minIntervalMs: U32)

  const MODE: Byte := 0x07
  const MAX_ARG := 4

  /** Every argument but that of MODE is a small choice; nothing else can be encoded. */
  predicate ArgInRange(id: Byte, arg: Byte) {
    id == MODE || arg <= MAX_ARG
  }

  /** Unsigned 8-bit decrement. */
  function Less(n: Byte): Byte {
    (n - 1) % 256
  }

  // ---- craft ----------------------------------------------------------------------------------

  datatype Outcome = Outcome(nonce: U32, id: Byte, arg: Byte, rejected: bool)

  type Key = (U16, U32)

  datatype Craft = Craft(applied: map<Key, Outcome>, last: Outcome, lastAcceptUs: nat, echo: Packet, echoesLeft: Byte,
                         nextEchoUs: nat, lastEchoNonce: U32, lastEchoStartUs: nat, echoedOnce: bool)

  const NO_PACKET := Packet(0, 0, 0, 0, false, false, 0, 0, 0, false)
  const NEW_CRAFT := Craft(map[], Outcome(0, 0, 0, false), 0, NO_PACKET, 0, 0, 0, 0, false)

  function EchoOf(self: Packet, o: Outcome, to: U16): Packet {
    NO_PACKET.(originator := self.originator, session := self.session, destination := to, nonce := o.nonce, ack := true,
               rejected := o.rejected, id := o.id, arg := o.arg)
  }

  /** One burst of echoes per nonce and minimum interval. */
  function Queued(policy: Policy, self: Packet, c: Craft, o: Outcome, to: U16, now: nat): Craft {
    if c.echoedOnce && c.lastEchoNonce == o.nonce
       && (c.echoesLeft > 0 || Since(now, c.lastEchoStartUs) < policy.minIntervalMs * 1000) then c
    else
      c.(echo := EchoOf(self, o, to), echoesLeft := policy.echoCopies, nextEchoUs := now, lastEchoNonce := o.nonce,
         lastEchoStartUs := now, echoedOnce := true)
  }

  /** What the craft makes of a packet. */
  datatype Verdict = Ignored | Repeated(o: Outcome) | Consumed(o: Outcome)

  function Judged(policy: Policy, c: Craft, p: Packet, now: nat, bound: Option<U16>, apply: Option<(Byte, Byte) -> bool>): Verdict {
    if p.ack || !policy.hasKey || !ArgInRange(p.id, p.arg) || !p.sealed || bound != Some(p.originator) then Ignored
    else
      var key := (p.originator, p.session);
      if key in c.applied && p.nonce <= c.applied[key].nonce then
        var o := c.applied[key];
        if p.nonce == o.nonce && p.id == o.id && p.arg == o.arg then Repeated(o) else Ignored
      else if c.lastAcceptUs != 0 && Since(now, c.lastAcceptUs) < policy.minIntervalMs * 1000 then Ignored
      else Consumed(Outcome(p.nonce, p.id, p.arg, apply.None? || !apply.value(p.id, p.arg)))
  }

  function CraftHeard(policy: Policy, self: Packet, c: Craft, p: Packet, now: nat, v: Verdict): Craft {
    match v
    case Ignored => c
    case Repeated(o) => Queued(policy, self, c, o, p.originator, now)
    case Consumed(o) =>
      var c' := c.(applied := c.applied[(p.originator, p.session) := o], last := o, lastAcceptUs := now);
      Queued(policy, self, c', o, p.originator, now)
  }

  datatype CraftTick = CraftTick(craft: Craft, sent: Option<Packet>)

  function CraftTicked(policy: Policy, c: Craft, now: nat): CraftTick {
    if c.echoesLeft == 0 || now < c.nextEchoUs then CraftTick(c, None)
    else if !ArgInRange(c.echo.id, c.echo.arg) then CraftTick(c.(echoesLeft := 0), None)
    else
      CraftTick(c.(echoesLeft := c.echoesLeft - 1, nextEchoUs := now + policy.copyIntervalMs * 1000),
                Some(c.echo.(seqNo := c.echoesLeft, sealed := true)))
  }

  class VcmdCraft {
    const policy: Policy
    const self: Packet
    var applied: map<Key, Outcome>
    var last: Outcome
    var lastAcceptUs: nat
    var echo: Packet
    var echoesLeft: Byte
    var nextEchoUs: nat
    var lastEchoNonce: U32
    var lastEchoStartUs: nat
    var echoedOnce: bool

    ghost function View(): Craft
      reads this
    {
      Craft(applied, last, lastAcceptUs, echo, echoesLeft, nextEchoUs, lastEchoNonce, lastEchoStartUs, echoedOnce)
    }

    constructor (policy: Policy, self: Packet)
      ensures View() == NEW_CRAFT && this.policy == policy && this.self == self
    {
      this.policy, this.self := policy, self;
      applied, last, lastAcceptUs := map[], Outcome(0, 0, 0, false), 0;
      echo, echoesLeft, nextEchoUs, lastEchoNonce, lastEchoStartUs, echoedOnce := NO_PACKET, 0, 0, 0, 0, false;
    }

    method QueueEcho(o: Outcome, to: U16, now: nat)
      modifies this
      ensures View() == Queued(policy, self, old(View()), o, to, now)
    {
      if echoedOnce && lastEchoNonce == o.nonce {
        if echoesLeft > 0 || Since(now, lastEchoStartUs) < policy.minIntervalMs * 1000 {
          return;
        }
      }
      echo := EchoOf(self, o, to);
      echoesLeft := policy.echoCopies;
      nextEchoUs, lastEchoNonce, lastEchoStartUs, echoedOnce := now, o.nonce, now, true;
    }

    /** True exactly when a new command was applied. */
    method OnCmd(p: Packet, now: nat, bound: Option<U16>, apply: Option<(Byte, Byte) -> bool>) returns (done: bool)
      modifies this
      ensures var v := Judged(policy, old(View()), p, now, bound, apply);
              && View() == CraftHeard(policy, self, old(View()), p, now, v)
              && (done <==> v.Consumed? && !v.o.rejected)
    {
      if p.ack || !policy.hasKey || !(ArgInRange(p.id, p.arg) && p.sealed) {
        return false;
      }
      if bound.None? || bound.value != p.originator {
        return false;
      }
      var key := (p.originator, p.session);
      if key in applied {
        var held := applied[key];
        if p.nonce <= held.nonce {
          if p.nonce == held.nonce && p.id == held.id && p.arg == held.arg {
            QueueEcho(held, p.originator, now);
          }
          return false;
        }
      }
      if lastAcceptUs != 0 && Since(now, lastAcceptUs) < policy.minIntervalMs * 1000 {
        return false;
      }
      var ok := false;
      if apply.Some? {
        ok := apply.value(p.id, p.arg);
      }
      var o := Outcome(p.nonce, p.id, p.arg, !ok);
      applied := applied[key := o];
      last, lastAcceptUs := o, now;
      QueueEcho(o, p.originator, now);
      return ok;
    }

    method Tick(now: nat) returns (sent: Option<Packet>)
      modifies this
      ensures CraftTick(View(), sent) == CraftTicked(policy, old(View()), now)
    {
      if echoesLeft == 0 || now < nextEchoUs {
        return None;
      }
      if !ArgInRange(echo.id, echo.arg) {
        echoesLeft := 0;
        return None;
      }
      sent := Some(echo.(seqNo := echoesLeft, sealed := true));
      echoesLeft := echoesLeft - 1;
      nextEchoUs := now + policy.copyIntervalMs * 1000;
    }
  }

  // ---- issuer -----------------------------------------------------------------------------------

  datatype Phase = Idle | Sending | AwaitEcho | Acked | Rejected | Timeout

  datatype Issuer = Issuer(phase: Phase, nextNonce: U32, lastStartUs: nat, template: Packet, target: U16, copiesLeft: Byte,
                           campaignsLeft: Byte, nextCopyUs: nat, echoDeadlineUs: nat)

  const NEW_ISSUER := Issuer(Idle, 1, 0, NO_PACKET, 0, 0, 0, 0, 0)

  predicate Active(i: Issuer) {
    i.phase == Sending || i.phase == AwaitEcho
  }

  predicate MayStart(policy: Policy, i: Issuer, target: U16, id: Byte, arg: Byte, now: nat) {
    && !Active(i) && policy.hasKey && target != 0 && ArgInRange(id, arg)
    && !(i.lastStartUs != 0
         && Since(now, i.lastStartUs) < ((policy.minIntervalMs + policy.copyIntervalMs) % 0x1_0000_0000) * 1000)
  }

  function Started(policy: Policy, i: Issuer, originator: U16, session: U32, target: U16, id: Byte, arg: Byte,
                   now: nat): Issuer {
    if !MayStart(policy, i, target, id, arg, now) then i
    else
      var p := NO_PACKET.(originator := originator, session := session, destination := target, nonce := i.nextNonce,
                          id := id, arg := arg);
      Issuer(Sending, (i.nextNonce + 1) % 0x1_0000_0000, now, p, target, policy.copies, policy.retryCap, now, i.echoDeadlineUs)
  }

  /** The authenticated echo of the campaign in flight. */
  predicate Answers(i: Issuer, p: Packet) {
    && Active(i) && p.ack && p.originator == i.target && p.nonce == i.template.nonce && p.id == i.template.id
    && p.arg == i.template.arg && ArgInRange(p.id, p.arg) && p.sealed
  }

  function Echoed(i: Issuer, p: Packet): Issuer {
    if !Answers(i, p) then i else i.(phase := if p.rejected then Rejected else Acked)
  }

  datatype IssuerTick = IssuerTick(issuer: Issuer, sent: Option<Packet>)

  function IssuerTicked(policy: Policy, i: Issuer, now: nat): IssuerTick {
    match i.phase
    case Sending =>
      if now < i.nextCopyUs then IssuerTick(i, None)
      else
        var copy := i.template.(seqNo := i.copiesLeft, sealed := ArgInRange(i.template.id, i.template.arg));
        var i' := i.(nextCopyUs := now + policy.copyIntervalMs * 1000, copiesLeft := Less(i.copiesLeft));
        IssuerTick(if i'.copiesLeft == 0 then i'.(echoDeadlineUs := now + policy.ackTimeoutMs * 1000, phase := AwaitEcho) else i',
                   Some(copy))
    case AwaitEcho =>
      if now < i.echoDeadlineUs then IssuerTick(i, None)
      else
        var i' := i.(campaignsLeft := Less(i.campaignsLeft));
        IssuerTick(if i'.campaignsLeft == 0 then i'.(phase := Timeout)
                   else i'.(copiesLeft := policy.copies, nextCopyUs := now, phase := Sending), None)
    case Idle => IssuerTick(i, None)
    case Acked => IssuerTick(i, None)
    case Rejected => IssuerTick(i, None)
    case Timeout => IssuerTick(i, None)
  }

  class VcmdIssuer {
    const policy: Policy
    var phase: Phase
    var nextNonce: U32
    var lastStartUs: nat
    var template: Packet
    var target: U16
    var copiesLeft: Byte
    var campaignsLeft: Byte
    var nextCopyUs: nat
    var echoDeadlineUs: nat

    ghost function View(): Issuer
      reads this
    {
      Issuer(phase, nextNonce, lastStartUs, template, target, copiesLeft, campaignsLeft, nextCopyUs, echoDeadlineUs)
    }

    constructor (policy: Policy)
      ensures View() == NEW_ISSUER && this.policy == policy
    {
      this.policy := policy;
      phase, nextNonce, lastStartUs, template, target := Idle, 1, 0, NO_PACKET, 0;
      copiesLeft, campaignsLeft, nextCopyUs, echoDeadlineUs := 0, 0, 0, 0;
    }

    method SeedNonce(n: U32)
      modifies this
      ensures View() == old(View()).(nextNonce := n)
    {
      nextNonce := n;
    }

    method Start(originator: U16, session: U32, to: U16, id: Byte, arg: Byte, now: nat) returns (ok: bool)
      modifies this
      ensures View() == Started(policy, old(View()), originator, session, to, id, arg, now)
      ensures ok <==> MayStart(policy, old(View()), to, id, arg, now)
    {
      if phase == Sending || phase == AwaitEcho || !policy.hasKey || to == 0 || !ArgInRange(id, arg) {
        return false;
      }
      var spacing := (policy.minIntervalMs + policy.copyIntervalMs) % 0x1_0000_0000;
      if lastStartUs != 0 && Since(now, lastStartUs) < spacing * 1000 {
        return false;
      }
      lastStartUs := now;
      template := NO_PACKET.(originator := originator, session := session, destination := to, nonce := nextNonce, id := id,
                             arg := arg);
      nextNonce := (nextNonce + 1) % 0x1_0000_0000;
      target, copiesLeft, campaignsLeft := to, policy.copies, policy.retryCap;
      nextCopyUs, phase := now, Sending;
      return true;
    }

    method OnEcho(p: Packet) returns (done: bool)
      modifies this
      ensures View() == Echoed(old(View()), p) && (done <==> Answers(old(View()), p))
    {
      if phase != Sending && phase != AwaitEcho {
        return false;
      }
      if !p.ack || p.originator != target || p.nonce != template.nonce || p.id != template.id || p.arg != template.arg {
        return false;
      }
      if !ArgInRange(p.id, p.arg) || !p.sealed {
        return false;
      }
      phase := if p.rejected then Rejected else Acked;
      return true;
    }

    method Tick(now: nat) returns (sent: Option<Packet>)
      modifies this
      ensures IssuerTick(View(), sent) == IssuerTicked(policy, old(View()), now)
    {
      sent := None;
      match phase {
        case Sending =>
          if now >= nextCopyUs {
            sent := Some(template.(seqNo := copiesLeft, sealed := ArgInRange(template.id, template.arg)));
            nextCopyUs := now + policy.copyIntervalMs * 1000;
            copiesLeft := Less(copiesLeft);
            if copiesLeft == 0 {
              echoDeadlineUs := now + policy.ackTimeoutMs * 1000;
              phase := AwaitEcho;
            }
          }
        case AwaitEcho =>
          if now >= echoDeadlineUs {
            campaignsLeft := Less(campaignsLeft);
            if campaignsLeft == 0 {
              phase := Timeout;
            } else {
              copiesLeft := policy.copies;
              nextCopyUs := now;
              phase := Sending;
            }
          }
        case Idle =>
        case Acked =>
        case Rejected =>
        case Timeout =>
      }
    }
  }
}
