/**
 * The register block of one I2C peripheral, as the transfer library sees it.
 *
 * Everything the driver cannot decide is in an environment of plain functions:
 * what each flag reads, how many bytes the target has finished sending between
 * two register accesses, and what a read of an empty data register returns.
 * A statement proved for every `Env` holds for every behaviour of the bus.
 *
 * The receiver is a two-slot pipeline: a data register and a shift register.
 * RDBF means the data register is full; TDC means both are full and the clock
 * is stretched. A byte is acknowledged or not as it finishes shifting in.
 */
module I2cPort {
  type Byte = bv8

  datatype Option<+T> = None | Some(value: T)

  /** The byte of a 7-bit address, direction in its low bit. */
  function SevenBit(address: Byte, read: bool): Byte { if read then address | 1 else address & 0xFE }

  datatype Flag = BUSYF | STARTF | ADDRHF | ADDR7F | TDBE | TDC | RDBF | ACKFAIL | STOPF

  /**
   * What the driver does, in order: what it asks of the bus, the polls that
   * showed it an awaited flag, and the flags it clears.
   */
  datatype Event = Start | Stop | Write(b: Byte) | Read(b: Byte) | Seen(f: Flag) | Clear(f: Flag)
  {
    predicate OnBus() { !Seen? && !Clear? }
  }

  /** What a trace puts on the bus. */
  function BusEvents(trace: seq<Event>): seq<Event>
    decreases |trace|
  {
    if trace == [] then []
    else
      var last := trace[|trace| - 1];
      BusEvents(trace[..|trace| - 1]) + if last.OnBus() then [last] else []
  }

  lemma BusSnoc(trace: seq<Event>, e: Event)
    ensures BusEvents(trace + [e]) == if e.OnBus() then BusEvents(trace) + [e] else BusEvents(trace)
  {
    assert (trace + [e])[..|trace|] == trace;
  }

  lemma {:induction false} BusConcat(a: seq<Event>, b: seq<Event>)
    ensures BusEvents(a + b) == BusEvents(a) + BusEvents(b)
    decreases |b|
  {
    if b == [] {
      assert a + b == a;
    } else {
      var init, e := b[..|b| - 1], b[|b| - 1];
      assert a + b == (a + init) + [e] && b == init + [e];
      BusSnoc(a + init, e);
      BusSnoc(init, e);
      BusConcat(a, init);
    }
  }

  /** One byte the target put on the wire, with the master's ninth bit. */
  datatype Frame = Frame(b: Byte, ack: bool)

  function Bytes(wire: seq<Frame>): (bs: seq<Byte>)
    ensures |bs| == |wire|
    ensures forall i :: 0 <= i < |wire| ==> bs[i] == wire[i].b
  {
    seq(|wire|, i requires 0 <= i < |wire| => wire[i].b)
  }

  function Held(slot: Option<Byte>): seq<Byte> {
    if slot.Some? then [slot.value] else []
  }

  datatype Receiver = Receiver(
    dr: Option<Byte>,     // data register
    sr: Option<Byte>,     // shift register holding a finished byte
    wire: seq<Frame>,     // every byte shifted in since the address
    taken: seq<Byte>,     // every byte the driver has read out
    inflight: bool,       // the target is sending a byte
    latch: bool,          // decision for the byte in flight when the ack bit acts on the next byte
    stopping: bool)       // a STOP is pending
  {
    /** The byte in flight finishes and is acknowledged or not. */
    function Shift(b: Byte, acken: bool, ackNext: bool): Receiver {
      var ack := if ackNext then latch else acken;
      var r := this.(wire := wire + [Frame(b, ack)], latch := acken);
      if dr.None? then r.(dr := Some(b), inflight := ack && !stopping)
      else r.(sr := Some(b), inflight := false)
    }

    /** The target sends bytes for as long as it is clocked and acknowledged. */
    function Run(bs: seq<Byte>, acken: bool, ackNext: bool): Receiver
      decreases |bs|
    {
      if bs == [] || !inflight then this
      else Shift(bs[0], acken, ackNext).Run(bs[1..], acken, ackNext)
    }

    /** A read of the data register makes room, and releases a stretched clock. */
    function Take(): Receiver
      requires dr.Some?
    {
      var r := this.(taken := taken + [dr.value], dr := sr, sr := None);
      if sr.Some? && wire != [] then r.(inflight := wire[|wire| - 1].ack && !stopping) else r
    }

    /** Nothing is waiting to be read and nothing is on its way. */
    predicate Quiet() { dr.None? && sr.None? && !inflight }

    /** A quiet receiver stays quiet, and a full data register keeps its byte. */
    ghost predicate Keeps(r: Receiver) {
      (Quiet() ==> r.Quiet()) && (dr.Some? ==> r.dr == dr)
    }
  }

  const IDLE := Receiver(None, None, [], [], false, true, false)

  /** A receiver at START: only the data register keeps what it held. */
  function Fresh(left: Option<Byte>): Receiver { IDLE.(dr := left) }

  lemma {:induction false} RunConcat(r: Receiver, a: seq<Byte>, b: seq<Byte>, acken: bool, ackNext: bool)
    ensures r.Run(a + b, acken, ackNext) == r.Run(a, acken, ackNext).Run(b, acken, ackNext)
    decreases |a|
  {
    if a == [] {
      assert a + b == b;
    } else if r.inflight {
      assert (a + b)[1..] == a[1..] + b;
      RunConcat(r.Shift(a[0], acken, ackNext), a[1..], b, acken, ackNext);
    }
  }

  datatype Env = Env(
    faithful: bool,                // RDBF and TDC report the two slots; otherwise they are arbitrary too
    flags: (nat, Flag) -> bool,    // what a flag reads at an access
    deliver: nat -> seq<Byte>,     // bytes the target is able to finish before an access
    stale: nat -> Byte)            // what an empty data register reads

  datatype Sources = Sources(evt: bool, data: bool, err: bool)

  const ALL_INTS := Sources(true, true, true)

  /** The control registers, written by the driver only. */
  datatype Config = Config(
    tenBit: bool,       // oaddr1.addr1mode
    acken: bool,        // ctrl1.acken
    ackNext: bool,      // ctrl1.mackctrl
    ints: Sources)      // ctrl2.evtien, dataien, errien

  datatype Port = Port(
    env: Env,
    tick: nat,          // register accesses so far
    polls: nat,         // flag reads so far, not counting ACKFAIL and STOPF
    config: Config,
    addressing: bool,   // START sent, address not yet written
    receiving: bool,    // the last address byte carried the read bit
    rx: Receiver,
    left: Option<Byte>, // what the data register held at the last START
    trace: seq<Event>)
  {
    /** Time passes up to the next register access. */
    function Access(): Port {
      this.(tick := tick + 1, rx := rx.Run(env.deliver(tick), config.acken, config.ackNext))
    }

    function StartGenerate(): Port {
      var p := Access();
      p.(addressing := true, receiving := false, rx := Fresh(p.rx.dr), left := p.rx.dr, trace := trace + [Start])
    }

    function StopGenerate(): Port {
      var p := Access();
      p.(rx := p.rx.(stopping := true), trace := trace + [Stop])
    }

    function AckEnable(on: bool): Port { Access().(config := config.(acken := on)) }

    function ReceiveAckSet(next: bool): Port { Access().(config := config.(ackNext := next)) }

    function InterruptEnable(source: Sources, on: bool): Port {
      var ints := config.ints;
      var merged := if on
                    then Sources(ints.evt || source.evt, ints.data || source.data, ints.err || source.err)
                    else Sources(ints.evt && !source.evt, ints.data && !source.data, ints.err && !source.err);
      Access().(config := config.(ints := merged))
    }

    function DataSend(b: Byte): Port {
      Access().(receiving := if addressing then b & 1 == 1 else receiving, addressing := false,
                trace := trace + [Write(b)])
    }

    function DataReceive(): (Byte, Port) {
      var p := Access();
      if p.rx.dr.Some? then (p.rx.dr.value, p.(rx := p.rx.Take(), trace := trace + [Read(p.rx.dr.value)]))
      else (env.stale(tick), p.(trace := trace + [Read(env.stale(tick))]))
    }

    /** Clearing ADDR7F after a read address releases the clock for the first byte. */
    function FlagClear(f: Flag): Port {
      var p := Access().(trace := trace + [Clear(f)]);
      if f.ADDR7F? && receiving then p.(rx := p.rx.(inflight := true, latch := true)) else p
    }

    function Value(f: Flag): bool {
      var p := Access();
      if env.faithful && f.RDBF? then p.rx.dr.Some?
      else if env.faithful && f.TDC? && receiving then p.rx.sr.Some?
      else env.flags(tick, f)
    }

    /** A poll made now reads the value that is awaited: low for BUSYF, high for the rest. */
    predicate Sees(f: Flag) { Value(f) == !f.BUSYF? }

    function FlagGet(f: Flag): Port {
      Access().(polls := polls + (if f.ACKFAIL? || f.STOPF? then 0 else 1),
                trace := if Sees(f) then trace + [Seen(f)] else trace)
    }

    /** What has been asked of the bus. */
    function Log(): seq<Event> { BusEvents(trace) }

    /** q is this port some accesses later, the driver having changed nothing and asked nothing of the bus. */
    ghost predicate Later(q: Port) {
      && q == this.(tick := q.tick, polls := q.polls, rx := q.rx, trace := q.trace) && q.Log() == Log()
      && exists bs :: q.rx == rx.Run(bs, config.acken, config.ackNext)
    }

    /** How many bytes have come in: the one left over, if any, and those of the wire. */
    function Arrived(): nat { |Held(left)| + |rx.wire| }

    /**
     * Nothing is lost, duplicated or reordered: what has been read and what
     * waits to be read are the byte left over and then the bytes of the wire.
     */
    ghost predicate Chained() {
      && receiving && Held(left) + Bytes(rx.wire) == rx.taken + Held(rx.dr) + Held(rx.sr)
      && (rx.sr.Some? ==> rx.dr.Some?) && (rx.inflight ==> rx.sr.None?)
    }

    /** The pipeline condition for a transfer in which every byte so far is acknowledged. */
    ghost predicate Streaming(read: nat) {
      && config.acken && !config.ackNext && !rx.stopping
      && Chained() && |rx.taken| == read
      && (forall i :: 0 <= i < |rx.wire| ==> rx.wire[i].ack)
      && rx.inflight == rx.sr.None?
    }

    /** Bytes n-1 and n are all that is left; byte n will be acknowledged iff `lastAck`. */
    ghost predicate Ending(n: nat, lastAck: bool) {
      && !config.acken && !rx.stopping
      && Chained() && |rx.taken| + 2 == n
      && n <= Arrived() + 2 <= n + 2
      && (forall i :: 0 <= i < |rx.wire| && |Held(left)| + i < n - 1 ==> rx.wire[i].ack)
      && rx.inflight == (Arrived() < n)
      && (Arrived() == n ==> rx.wire != [] && rx.wire[|rx.wire| - 1].ack == lastAck)
      && (Arrived() == n - 1 ==> lastAck == (config.ackNext && rx.latch))
      && (Arrived() == n - 2 ==> config.ackNext && rx.latch && !lastAck)
    }

    /** A one-byte transfer: the byte is in flight or refused. */
    ghost predicate Single() {
      && !config.acken && !config.ackNext && left.None?
      && Chained() && rx.taken == [] && |rx.wire| <= 1
      && rx.inflight == (rx.wire == [])
      && (rx.wire != [] ==> !rx.wire[0].ack)
    }
  }

  /** Every awaited flag is up at once, and nothing fails. */
  ghost predicate Answering(env: Env) {
    forall t, f :: env.flags(t, f) == !(f.BUSYF? || f.ACKFAIL? || f.STOPF?)
  }

  /** The bus is free, START is answered, and ACKFAIL is up whenever it is looked at; every other flag is arbitrary. */
  ghost predicate Refusing(env: Env) {
    forall t :: !env.flags(t, BUSYF) && env.flags(t, STARTF) && env.flags(t, ACKFAIL)
  }

  /** How often a wait that minds ACKFAIL polls at most: a refusal is not waited out. */
  ghost function Patience(env: Env, timeout: nat): (n: nat)
    ensures 1 <= n <= timeout + 1
  {
    if Refusing(env) then 1 else timeout + 1
  }

  /** And two bytes are always ready. */
  ghost predicate Prompt(env: Env) {
    Answering(env) && forall t :: |env.deliver(t)| >= 2
  }

  /** Or the target finishes one byte between any two register accesses. */
  ghost predicate Trickling(env: Env) {
    Answering(env) && env.faithful && forall t :: |env.deliver(t)| == 1
  }

  lemma ChainShift(p: Port, b: Byte)
    requires p.Chained() && p.rx.inflight
    ensures p.(rx := p.rx.Shift(b, p.config.acken, p.config.ackNext)).Chained()
  {
    var s := p.rx.Shift(b, p.config.acken, p.config.ackNext);
    assert Bytes(s.wire) == Bytes(p.rx.wire) + [b];
    assert Held(p.left) + Bytes(s.wire) == Held(p.left) + Bytes(p.rx.wire) + [b];
    assert s.taken + Held(s.dr) + Held(s.sr) == p.rx.taken + Held(p.rx.dr) + Held(p.rx.sr) + [b];
  }

  lemma {:induction false} ChainRun(p: Port, bs: seq<Byte>)
    requires p.Chained()
    ensures p.(rx := p.rx.Run(bs, p.config.acken, p.config.ackNext)).Chained()
    decreases |bs|
  {
    if bs != [] && p.rx.inflight {
      ChainShift(p, bs[0]);
      hide Port.Chained;
      ChainRun(p.(rx := p.rx.Shift(bs[0], p.config.acken, p.config.ackNext)), bs[1..]);
    }
  }

  lemma ChainCount(p: Port)
    requires p.Chained()
    ensures p.Arrived() == |p.rx.taken| + |Held(p.rx.dr)| + |Held(p.rx.sr)|
  {
    assert |Held(p.left) + Bytes(p.rx.wire)| == |p.rx.taken + Held(p.rx.dr) + Held(p.rx.sr)|;
  }

  lemma LaterSelf(p: Port)
    ensures p.Later(p)
  {
    assert p.rx == p.rx.Run([], p.config.acken, p.config.ackNext);
  }

  lemma LaterTrans(p: Port, q: Port, r: Port)
    requires p.Later(q) && q.Later(r)
    ensures p.Later(r)
  {
    var a :| q.rx == p.rx.Run(a, p.config.acken, p.config.ackNext);
    var b :| r.rx == q.rx.Run(b, p.config.acken, p.config.ackNext);
    RunConcat(p.rx, a, b, p.config.acken, p.config.ackNext);
  }

  lemma LaterStreaming(p: Port, q: Port, read: nat)
    requires p.Streaming(read) && p.Later(q)
    ensures q.Streaming(read)
  {
    var bs :| q.rx == p.rx.Run(bs, p.config.acken, p.config.ackNext);
    RunStreaming(p, bs, read);
  }

  lemma {:induction false} RunStreaming(p: Port, bs: seq<Byte>, read: nat)
    requires p.Streaming(read)
    ensures p.(rx := p.rx.Run(bs, p.config.acken, p.config.ackNext)).Streaming(read)
    decreases |bs|
  {
    if bs != [] && p.rx.inflight {
      ChainShift(p, bs[0]);
      RunStreaming(p.(rx := p.rx.Shift(bs[0], p.config.acken, p.config.ackNext)), bs[1..], read);
    }
  }

  lemma LaterEnding(p: Port, q: Port, n: nat, lastAck: bool)
    requires p.Ending(n, lastAck) && p.Later(q)
    ensures q.Ending(n, lastAck)
  {
    var bs :| q.rx == p.rx.Run(bs, p.config.acken, p.config.ackNext);
    RunEnding(p, bs, n, lastAck);
  }

  lemma {:induction false} RunEnding(p: Port, bs: seq<Byte>, n: nat, lastAck: bool)
    requires p.Ending(n, lastAck)
    ensures p.(rx := p.rx.Run(bs, p.config.acken, p.config.ackNext)).Ending(n, lastAck)
    decreases |bs|
  {
    if bs != [] && p.rx.inflight {
      ChainShift(p, bs[0]);
      ChainCount(p);
      RunEnding(p.(rx := p.rx.Shift(bs[0], p.config.acken, p.config.ackNext)), bs[1..], n, lastAck);
    }
  }

  lemma LaterSingle(p: Port, q: Port)
    requires p.Single() && p.Later(q)
    ensures q.Single()
  {
    var bs :| q.rx == p.rx.Run(bs, p.config.acken, p.config.ackNext);
    if bs != [] && p.rx.inflight {
      ChainShift(p, bs[0]);
      ChainCount(p);
      var s := p.rx.Shift(bs[0], p.config.acken, p.config.ackNext);
      assert !s.inflight && s.Run(bs[1..], p.config.acken, p.config.ackNext) == s;
    }
  }

  /** Two more bytes always fill both slots of a receiver that is clocked or stretched. */
  lemma RunFills(r: Receiver, bs: seq<Byte>, acken: bool, ackNext: bool)
    requires (r.inflight ==> r.sr.None?) && !r.stopping && (r.inflight || r.sr.Some?) && |bs| >= 2
    requires if ackNext then (if r.dr.None? then r.latch else true) else r.dr.None? ==> acken
    ensures r.Run(bs, acken, ackNext).sr.Some?
  {
    if r.inflight {
      var s := r.Shift(bs[0], acken, ackNext);
      if s.sr.None? {
        assert s.Run(bs[1..], acken, ackNext) == s.Shift(bs[1], acken, ackNext).Run(bs[1..][1..], acken, ackNext);
      }
    }
  }
}
