/**
 * One polled step of a read: what a wait that succeeds and the register
 * accesses behind it make of the pipeline, and what a wait that times out
 * leaves there.
 */
module I2cRead {
  import opened I2cPort
  import opened I2cWait
  import opened I2cLog
  import opened I2cPipeline

  /** A read is complete: exactly these bytes were on the wire, all acknowledged but the last, and none is left. */
  ghost predicate Finished(p: Port, bs: seq<Byte>, lastAck: bool) {
    p.rx.wire == Acknowledged(bs, lastAck) && p.rx.Quiet()
  }

  /** A read that came to its end, complete unless it read nothing, or only the byte left over. */
  ghost predicate Done(p: Port, read: seq<Byte>, lastAck: bool) {
    && p.Chained() && p.rx.taken == read
    && (|read| >= 2 || (|read| == 1 && p.left.None?) ==> Complete(p, read, lastAck))
  }

  /** Nothing is lost: the byte left over and then the wire's bytes are those read and then those that wait. */
  ghost predicate Accounted(p: Port, read: seq<Byte>) {
    Held(p.left) + Bytes(p.rx.wire) == read + Held(p.rx.dr) + Held(p.rx.sr)
  }

  /** How a data phase leaves the port. */
  ghost predicate Settled(p: Port, st: Status, read: seq<Byte>, lastAck: bool) {
    if st == OK then Done(p, read, lastAck) else Abandoned(p, read)
  }

  /** The exact condition for a read to be complete with the bytes of the wire alone. */
  lemma DoneMeans(p: Port, read: seq<Byte>, lastAck: bool, wireAck: bool)
    requires Done(p, read, lastAck) && (p.left.None? ==> lastAck == wireAck)
    ensures Accounted(p, read)
    ensures read != [] ==> (Finished(p, read, wireAck) <==> p.left.None?)
  {
    ChainCount(p);
    if p.left.None? {
      assert Held(p.left) + Bytes(p.rx.wire) == Bytes(p.rx.wire);
    } else {
      assert |Acknowledged(read, wireAck)| == |read|;
    }
  }

  lemma NothingRead(p: Port, lastAck: bool)
    requires Ready(p, 0, 0, lastAck)
    ensures Settled(p, OK, [], lastAck)
  {
    ReadyFacts(p, 0, 0, lastAck);
  }

  lemma NotRead(p: Port, st: Status, read: seq<Byte>, lastAck: bool)
    requires Abandoned(p, read) && st != OK
    ensures Settled(p, st, read, lastAck)
  {
  }

  // ---- what each step needs to know of the pipeline before it waits

  lemma StreamingFacts(p: Port, read: nat)
    requires p.Streaming(read)
    ensures p.Chained() && !p.rx.Quiet()
  {
    ChainCount(p);
  }

  lemma EndingFacts(p: Port, n: nat, lastAck: bool)
    requires p.Ending(n, lastAck)
    ensures p.Chained() && !p.rx.Quiet()
  {
    ChainCount(p);
  }

  lemma OneLeftFacts(p: Port)
    requires OneLeft(p)
    ensures p.Chained() && !p.rx.Quiet() && p.rx.taken == []
    ensures p.env.faithful && p.left.Some? ==> p.Sees(RDBF)
  {
    ChainCount(p);
    AccessKeeps(p);
    hide Receiver.Run;
  }

  lemma ReadyStreaming(p: Port, todo: nat, n: nat, lastAck: bool)
    requires 3 <= todo <= n
    ensures Ready(p, todo, n, lastAck) <==> p.Streaming(n - todo) && !lastAck
  {
  }

  lemma ReadyTail(p: Port, todo: nat, n: nat, lastAck: bool)
    requires Ready(p, todo, n, lastAck) && 1 <= todo <= 3
    ensures todo == 1 ==> OneLeft(p) && !lastAck && p.rx.taken == []
    ensures todo == 2 ==> p.Ending(n, lastAck)
    ensures todo == 3 ==> p.Streaming(n - 3) && !lastAck
  {
    ReadyFacts(p, todo, n, lastAck);
    hide Port.Streaming, Port.Ending, OneLeft;
  }

  // ---- a prompt target is never waited for

  lemma StreamingSeen(p: Port, read: nat, flag: Flag)
    requires Prompt(p.env) && (p.env.faithful ==> p.Streaming(read)) && (flag == RDBF || flag == TDC)
    ensures p.Sees(flag)
  {
    if p.env.faithful {
      PromptFills(p, read, false);
    }
  }

  lemma EndingSeen(p: Port, n: nat, lastAck: bool)
    requires Prompt(p.env) && (p.env.faithful ==> p.Ending(n, lastAck))
    ensures p.Sees(TDC)
  {
    if p.env.faithful {
      PromptFills(p, n, lastAck);
    }
  }

  lemma OneLeftSeen(p: Port)
    requires Prompt(p.env) && (p.env.faithful ==> OneLeft(p))
    ensures p.Sees(RDBF)
  {
    if p.env.faithful {
      OneLeftFacts(p);
      if p.left.None? {
        PromptSingle(p);
      }
    }
  }

  // ---- the accesses behind a wait that succeeded

  lemma NextTaken(p: Port, q: Port, read: nat)
    requires p.Streaming(read) && p.env.faithful && Waited(p, q, RDBF, OK)
    ensures var (b, r) := q.DataReceive();
      r.Streaming(read + 1) && r.rx.taken == p.rx.taken + [b]
  {
    LaterStreaming(p, q, read);
    RunTaken(p, q);
    hide Port.Streaming, Port.DataReceive, Receiver.Run;
    TakeStreaming(q, read);
  }

  lemma TurnTaken(p: Port, q: Port, n: nat)
    requires n >= 3 && p.Streaming(n - 3) && p.env.faithful && Waited(p, q, TDC, OK)
    ensures var (b, r) := q.AckEnable(false).DataReceive();
      r.Ending(n, false) && r.rx.taken == p.rx.taken + [b]
  {
    LaterStreaming(p, q, n - 3);
    RunTaken(p, q);
    StreamingReceives(p, n - 3);
    hide Port.Streaming, Port.Ending, Port.DataReceive, Receiver.Run;
    TakeTurn(q, n);
  }

  lemma StreamingReceives(p: Port, read: nat)
    requires p.Streaming(read)
    ensures p.receiving
  {
  }

  lemma LastTaken(p: Port, q: Port, n: nat, lastAck: bool)
    requires p.Ending(n, lastAck) && p.env.faithful && Waited(p, q, TDC, OK)
    ensures var (b, r) := q.StopGenerate().DataReceive();
            var (c, s) := r.DataReceive();
            Done(s, p.rx.taken + [b, c], lastAck)
  {
    LaterEnding(p, q, n, lastAck);
    RunTaken(p, q);
    EndingReceives(p, n, lastAck);
    EndingFacts(q, n, lastAck);
    hide Port.Ending, Port.Chained, Port.DataReceive, Port.StopGenerate, Complete, Receiver.Run;
    TakeLast(q, n, lastAck);
    ChainLast(q);
  }

  lemma EndingReceives(p: Port, n: nat, lastAck: bool)
    requires p.Ending(n, lastAck)
    ensures p.receiving
  {
  }

  lemma OnlyTaken(p: Port, q: Port)
    requires OneLeft(p) && p.env.faithful && Waited(p, q, RDBF, OK)
    ensures var (b, r) := q.DataReceive();
      Done(r, [b], false)
  {
    OneLeftFacts(p);
    ChainLater(p, q);
    ChainTake(q);
    if p.left.None? {
      LaterSingle(p, q);
      hide Port.DataReceive, Port.Chained, Receiver.Run, Complete;
      TakeOnly(q);
    }
  }

  // ---- a wait that timed out

  lemma GivenUp(p: Port, q: Port)
    requires p.Later(q)
    ensures p.Chained() && !p.rx.Quiet() ==> Abandoned(q.StopGenerate(), p.rx.taken)
  {
    if p.Chained() && !p.rx.Quiet() {
      AbandonedLater(p, q, p.rx.taken);
      hide Abandoned;
      AbandonedStop(q, p.rx.taken);
    }
  }

  /** A byte is on its way to empty slots, one comes between any two accesses, and each flag is polled once. */
  ghost predicate Slow(p: Port, timeout: nat) {
    Trickling(p.env) && timeout == 0 && p.receiving && p.rx.inflight && p.rx.dr.None? && p.rx.sr.None?
  }

  /** A read of three bytes that will not see TDC in time. */
  ghost predicate TooSlow(p: Port, size: nat, timeout: nat) {
    Trickling(p.env) && timeout == 0 && size == 3 && p.rx.Quiet()
  }

  lemma SlowMisses(p: Port, timeout: nat)
    requires Slow(p, timeout)
    ensures timeout == 0 && !p.Sees(TDC) && p.FlagGet(TDC).StopGenerate().rx.dr.Some?
  {
    var bs, q := p.env.deliver(p.tick), p.FlagGet(TDC);
    var s := p.rx.Shift(bs[0], p.config.acken, p.config.ackNext);
    assert q.rx == s.Run(bs[1..], p.config.acken, p.config.ackNext) == s;
    AccessKeeps(q);
  }

  lemma ArmSlow(p: Port, n: nat)
    requires Addressed(p) && p.left.None? && Trickling(p.env) && n >= 3
    ensures Slow(ArmPolling(p, n), 0)
  {
    AccessKeeps(p);
    AccessKeeps(p.AckEnable(true));
    hide Receiver.Run;
  }
}
