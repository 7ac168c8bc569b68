/**
 * Reading a transfer of n bytes out of the two-slot receiver: what each
 * register access of the drivers does to the pipeline.
 */
module I2cPipeline {
  import opened I2cPort
  import opened I2cLog

  /** The port as the address phase of a read leaves it. */
  ghost predicate Addressed(p: Port) {
    p.receiving && p.config.acken && !p.config.ackNext && p.rx == Fresh(p.left)
  }

  /** How a polled read releases the clock: the ack bit is cleared first. */
  function ArmPolling(p: Port, n: nat): Port {
    if n == 1 then p.AckEnable(false).FlagClear(ADDR7F).StopGenerate()
    else if n == 2 then p.ReceiveAckSet(true).AckEnable(false).FlagClear(ADDR7F)
    else p.AckEnable(true).FlagClear(ADDR7F)
  }

  /** How a memory read or an interrupt-driven read does: for two bytes the clock is released first. */
  function ArmReleased(p: Port, n: nat): Port {
    if n == 1 then p.AckEnable(false).FlagClear(ADDR7F).StopGenerate()
    else if n == 2 then p.ReceiveAckSet(true).FlagClear(ADDR7F).AckEnable(false)
    else p.AckEnable(true).FlagClear(ADDR7F)
  }

  /** A byte finishes between the release of the clock and the clearing of the ack bit. */
  predicate Overtaken(p: Port, n: nat) {
    n == 2 && p.env.deliver(p.tick + 2) != []
  }

  /** In a polled read of two bytes a byte left over makes the first byte of the wire the last one to be read. */
  predicate PolledAck(p: Port, n: nat) { n == 2 && p.left.Some? }

  predicate ReleasedAck(p: Port, n: nat) { PolledAck(p, n) || Overtaken(p, n) }

  /** A one-byte read; a byte left over is the one it will read. */
  ghost predicate OneLeft(p: Port) {
    if p.left.None? then p.Single() else p.Chained() && p.rx.taken == [] && p.rx.dr.Some?
  }

  /** The pipeline before the last `todo` of n bytes, of which the last will be acknowledged iff lastAck. */
  ghost predicate Ready(p: Port, todo: nat, n: nat, lastAck: bool) {
    todo <= n &&
    if todo == 1 then n == 1 && !lastAck && OneLeft(p)
    else if todo == 2 then p.Ending(n, lastAck)
    else p.Streaming(n - todo) && !lastAck
  }

  /** A read that waits for bytes is never quiet, and has read what it should. */
  lemma ReadyFacts(p: Port, todo: nat, n: nat, lastAck: bool)
    requires Ready(p, todo, n, lastAck)
    ensures p.Chained() && !p.rx.Quiet() && |p.rx.taken| == n - todo
  {
    ChainCount(p);
  }

  lemma ArmPollingReady(p: Port, n: nat)
    requires Addressed(p)
    ensures Ready(ArmPolling(p, n), n, n, PolledAck(p, n))
  {
    if n == 1 {
      ArmSingle(p);
    }
  }

  lemma ArmSingle(p: Port)
    requires Addressed(p)
    ensures Ready(ArmPolling(p, 1), 1, 1, false)
  {
    var q := p.AckEnable(false).FlagClear(ADDR7F);
    LaterAccess(q);
    if p.left.None? {
      assert q.Single();
      LaterSingle(q, q.Access());
    } else {
      assert q.Chained();
      ChainLater(q, q.Access());
      LaterKeeps(q, q.Access());
    }
  }

  lemma ArmReleasedReady(p: Port, n: nat)
    requires Addressed(p)
    ensures Ready(ArmReleased(p, n), n, n, ReleasedAck(p, n))
  {
    if n == 2 {
      ArmPair(p);
    } else {
      ArmPollingReady(p, n);
    }
  }

  lemma ArmPair(p: Port)
    requires Addressed(p)
    ensures ArmReleased(p, 2).Ending(2, ReleasedAck(p, 2))
  {
    var q := p.ReceiveAckSet(true).FlagClear(ADDR7F);
    var r := q.AckEnable(false);
    assert q.rx == Fresh(p.left).(inflight := true) && q.tick == p.tick + 2;
    hide Receiver.Run, Port.Ending;
    PairRun(q, q.env.deliver(q.tick));
    assert r == q.(rx := r.rx, tick := r.tick, config := r.config);
    SameEnding(q.(rx := r.rx, config := r.config), r, 2, ReleasedAck(p, 2));
  }

  lemma SameEnding(p: Port, q: Port, n: nat, lastAck: bool)
    requires p.Ending(n, lastAck) && q == p.(tick := q.tick)
    ensures q.Ending(n, lastAck)
  {
  }

  /** Bytes that finish while the ack bit is still set. */
  lemma PairRun(q: Port, bs: seq<Byte>)
    requires q.receiving && q.config.ackNext && q.rx == Fresh(q.left).(inflight := true, latch := true)
    ensures q.(rx := q.rx.Run(bs, true, true), config := q.config.(acken := false)).Ending(2, q.left.Some? || bs != [])
  {
    if bs != [] {
      var s := q.rx.Shift(bs[0], true, true);
      if |bs| >= 2 && s.inflight {
        var t := s.Shift(bs[1], true, true);
        assert q.rx.Run(bs, true, true) == s.Run(bs[1..], true, true) == t.Run(bs[1..][1..], true, true) == t;
        assert Bytes(t.wire) == [bs[0], bs[1]];
      } else {
        assert q.rx.Run(bs, true, true) == s.Run(bs[1..], true, true) == s;
        assert Bytes(s.wire) == [bs[0]];
      }
    }
  }

  /** Enabling or disabling interrupts takes time but touches nothing in the pipeline. */
  lemma IntsAside(p: Port, source: Sources, on: bool)
    ensures var q := p.InterruptEnable(source, on);
            && q.rx.taken == p.rx.taken && q.trace == p.trace && q.env == p.env
            && (p.Single() ==> q.Single())
            && (forall k: nat :: p.Streaming(k) ==> q.Streaming(k))
            && (forall n: nat, lastAck :: p.Ending(n, lastAck) ==> q.Ending(n, lastAck))
  {
    var a := p.Access();
    LaterAccess(p);
    RunTaken(p, a);
    var q := p.InterruptEnable(source, on);
    assert q == a.(config := q.config);
    if p.Single() {
      LaterSingle(p, a);
    }
    forall k: nat | p.Streaming(k)
      ensures q.Streaming(k)
    {
      LaterStreaming(p, a, k);
    }
    forall n: nat, lastAck | p.Ending(n, lastAck)
      ensures q.Ending(n, lastAck)
    {
      LaterEnding(p, a, n, lastAck);
    }
  }

  lemma IntsQuiet(p: Port, source: Sources, on: bool)
    requires !p.rx.inflight
    ensures p.InterruptEnable(source, on).rx == p.rx && p.InterruptEnable(source, on).trace == p.trace
  {
  }

  lemma LaterAccess(p: Port)
    ensures p.Later(p.Access())
  {
  }

  lemma {:induction false} RunKeepsDr(r: Receiver, bs: seq<Byte>, acken: bool, ackNext: bool)
    requires r.dr.Some?
    ensures r.Run(bs, acken, ackNext).dr == r.dr
    ensures r.sr.Some? && !r.inflight ==> r.Run(bs, acken, ackNext) == r
    decreases |bs|
  {
  }

  /** However many bytes arrive, a full data register keeps its byte and a quiet receiver stays quiet. */
  lemma LaterKeeps(p: Port, q: Port)
    requires p.Later(q)
    ensures p.rx.Keeps(q.rx)
  {
    var bs :| q.rx == p.rx.Run(bs, p.config.acken, p.config.ackNext);
    if p.rx.dr.Some? {
      RunKeepsDr(p.rx, bs, p.config.acken, p.config.ackNext);
    }
  }

  lemma AccessKeeps(p: Port)
    ensures p.rx.Keeps(p.Access().rx)
    ensures !p.rx.inflight ==> p.Access().rx == p.rx
  {
    LaterAccess(p);
    LaterKeeps(p, p.Access());
  }

  /** START forgets everything but the data register. */
  lemma StartKeeps(p: Port)
    ensures var q := p.StartGenerate(); p.rx.Keeps(q.rx) && q.rx == Fresh(q.left)
  {
    AccessKeeps(p);
  }

  lemma ChainLater(p: Port, q: Port)
    requires p.Chained() && p.Later(q)
    ensures q.Chained() && q.rx.taken == p.rx.taken
  {
    var bs :| q.rx == p.rx.Run(bs, p.config.acken, p.config.ackNext);
    ChainRun(p, bs);
    RunKeepsTaken(p.rx, bs, p.config.acken, p.config.ackNext);
  }

  /** Changing the ack bit or stopping takes time but loses nothing. */
  lemma ChainAside(p: Port)
    requires p.Chained()
    ensures var a, s := p.AckEnable(false), p.StopGenerate();
      a.Chained() && a.rx.taken == p.rx.taken && s.Chained() && s.rx.taken == p.rx.taken
    ensures p.rx.dr.Some? ==> p.AckEnable(false).rx.dr.Some? && p.StopGenerate().rx.dr.Some?
    ensures p.rx.sr.Some? ==> p.AckEnable(false).rx.sr.Some? && p.StopGenerate().rx.sr.Some?
  {
    LaterAccess(p);
    ChainLater(p, p.Access());
    AccessKeeps(p);
  }

  /** A read given up: what it has read, the slots, and the bytes that came in still agree, and the receiver is busy. */
  ghost predicate Abandoned(p: Port, read: seq<Byte>) {
    p.Chained() && p.rx.taken == read && !p.rx.Quiet()
  }

  lemma AbandonedLater(p: Port, q: Port, read: seq<Byte>)
    requires Abandoned(p, read) && p.Later(q)
    ensures Abandoned(q, read)
  {
    ChainLater(p, q);
    var bs :| q.rx == p.rx.Run(bs, p.config.acken, p.config.ackNext);
    if p.rx.dr.Some? {
      RunKeepsDr(p.rx, bs, p.config.acken, p.config.ackNext);
    } else if bs != [] {
      var s := p.rx.Shift(bs[0], p.config.acken, p.config.ackNext);
      RunKeepsDr(s, bs[1..], p.config.acken, p.config.ackNext);
    }
  }

  lemma AbandonedStop(p: Port, read: seq<Byte>)
    requires Abandoned(p, read)
    ensures Abandoned(p.StopGenerate(), read)
  {
    LaterAccess(p);
    AbandonedLater(p, p.Access(), read);
  }

  /** A full data register yields the next byte of the chain. */
  lemma ChainTake(p: Port)
    requires p.Chained() && p.rx.dr.Some?
    ensures var (b, q) := p.DataReceive();
      q.Chained() && q.rx.taken == p.rx.taken + [b] && (p.rx.sr.Some? ==> q.rx.dr.Some?)
  {
    var a := p.Access();
    LaterAccess(p);
    ChainLater(p, a);
    AccessKeeps(p);
    var s := a.rx.Take();
    assert s.taken + Held(s.dr) + Held(s.sr) == a.rx.taken + Held(a.rx.dr) + Held(a.rx.sr);
  }

  /** What has been read so far is the beginning of the chain. */
  lemma ChainPrefix(p: Port)
    requires p.Chained()
    ensures p.rx.taken <= Held(p.left) + Bytes(p.rx.wire)
  {
  }

  /** Reading one byte in the middle of a transfer. */
  lemma TakeStreaming(p: Port, read: nat)
    requires p.Streaming(read) && p.rx.dr.Some?
    ensures var (b, q) := p.DataReceive();
            q.Streaming(read + 1) && q.rx.taken == p.rx.taken + [b] && q.trace == p.trace + [Read(b)]
  {
    LaterAccess(p);
    LaterStreaming(p, p.Access(), read);
    AccessKeeps(p);
    ChainTake(p);
  }

  lemma {:induction false} RunKeepsTaken(r: Receiver, bs: seq<Byte>, acken: bool, ackNext: bool)
    ensures r.Run(bs, acken, ackNext).taken == r.taken
    ensures r.Run(bs, acken, ackNext).stopping == r.stopping
    decreases |bs|
  {
    if bs != [] && r.inflight {
      RunKeepsTaken(r.Shift(bs[0], acken, ackNext), bs[1..], acken, ackNext);
    }
  }

  lemma RunTaken(p: Port, q: Port)
    requires p.Later(q)
    ensures q.rx.taken == p.rx.taken && q.rx.stopping == p.rx.stopping
  {
    var bs :| q.rx == p.rx.Run(bs, p.config.acken, p.config.ackNext);
    RunKeepsTaken(p.rx, bs, p.config.acken, p.config.ackNext);
  }

  /** Three bytes left and both slots full: refuse acknowledgement, then make room for the last byte. */
  lemma TakeTurn(p: Port, n: nat)
    requires n >= 3 && p.Streaming(n - 3) && p.rx.sr.Some?
    ensures var (b, q) := p.AckEnable(false).DataReceive();
            q.Ending(n, false) && q.rx.taken == p.rx.taken + [b]
  {
    ChainAside(p);
    ChainTake(p.AckEnable(false));
    ChainCount(p);
  }

  /** A read is complete: these bytes and no others came in, the last one acknowledged iff lastAck, and none is left. */
  ghost predicate Complete(p: Port, bs: seq<Byte>, lastAck: bool) {
    Held(p.left) + Bytes(p.rx.wire) == bs && p.rx.wire == Acknowledged(Bytes(p.rx.wire), lastAck) && p.rx.Quiet()
  }

  /** Two bytes left and both slots full: STOP, then both bytes. */
  lemma TakeLast(p: Port, n: nat, lastAck: bool)
    requires p.Ending(n, lastAck) && p.rx.sr.Some?
    ensures var (b, q) := p.StopGenerate().DataReceive();
            var (c, r) := q.DataReceive();
            && r.rx.taken == p.rx.taken + [b, c] && |r.rx.taken| == n && Complete(r, r.rx.taken, lastAck)
            && r.trace == p.trace + [Stop, Read(b), Read(c)]
            && r.config == p.config && r.env == p.env && r.left == p.left
  {
    ChainCount(p);
    ChainLast(p);
    var s := p.StopGenerate();
    assert s.rx == p.rx.(stopping := true);
  }

  lemma ChainLast(p: Port)
    requires p.Chained() && p.rx.sr.Some?
    ensures var (b, q) := p.StopGenerate().DataReceive();
            var (c, r) := q.DataReceive();
            r.Chained() && r.rx.taken == p.rx.taken + [b, c]
  {
    ChainAside(p);
    var s := p.StopGenerate();
    ChainTake(s);
    ChainTake(s.DataReceive().1);
    hide Port.Chained, Port.DataReceive, Port.StopGenerate;
  }

  lemma TakeOnly(p: Port)
    requires p.Single() && p.rx.dr.Some?
    ensures var (b, q) := p.DataReceive();
            q.rx.taken == [b] && Complete(q, [b], false)
  {
    ChainCount(p);
    ChainTake(p);
  }

  /** A prompt target fills the slots by the first poll, so no wait of a read can fail. */
  lemma PromptFills(p: Port, n: nat, lastAck: bool)
    requires Prompt(p.env) && (p.Streaming(n) || p.Ending(n, lastAck))
    ensures p.Access().rx.sr.Some? && p.Access().rx.dr.Some?
  {
    ChainCount(p);
    RunFills(p.rx, p.env.deliver(p.tick), p.config.acken, p.config.ackNext);
    ChainRun(p, p.env.deliver(p.tick));
  }

  lemma PromptSingle(p: Port)
    requires Prompt(p.env) && p.Single()
    ensures p.Access().rx.dr.Some?
  {
    ChainCount(p);
    if p.rx.inflight {
      var bs := p.env.deliver(p.tick);
      RunKeepsDr(p.rx.Shift(bs[0], false, false), bs[1..], false, false);
    } else {
      RunKeepsDr(p.rx, p.env.deliver(p.tick), false, false);
    }
  }
}
