/**
 * Interrupt-driven master transfers: the two handlers as functions of the
 * transfer state, and every interleaving of bus activity and interrupts.
 */
module I2cIsr {
  import opened I2cPort
  import opened I2cLog
  import opened I2cPipeline

  datatype Progress = START | END

  /** The handle fields a handler works on; `pcount` is a 16-bit counter. */
  datatype Transfer = Transfer(port: Port, buf: seq<Byte>, pos: nat, pcount: nat, status: Progress)
  {
    /** Stores one received byte and counts it. */
    function ReadIn(): Transfer {
      var (b, p) := port.DataReceive();
      var stored := if pos < |buf| then buf[pos := b] else buf;
      Transfer(p, stored, pos + 1, if pcount == 0 then 0xFFFF else pcount - 1, status)
    }

    function Finish(): Transfer {
      this.(status := END, port := port.InterruptEnable(ALL_INTS, false))
    }

    function RxIsr(): Transfer {
      var p := port.FlagGet(TDC);
      var q := p.FlagGet(RDBF);
      if port.Value(TDC) then
        if pcount == 3 then this.(port := p.AckEnable(false)).ReadIn()
        else if pcount == 2 then this.(port := p.StopGenerate()).ReadIn().ReadIn().Finish()
        else this.(port := p).ReadIn()
      else if p.Value(RDBF) then
        if pcount > 3 then this.(port := q).ReadIn()
        else if pcount == 3 || pcount == 2 then this.(port := q.InterruptEnable(Sources(false, true, false), false))
        else this.(port := q).ReadIn().Finish()
      else this.(port := q)
    }

    function TxIsr(): Transfer {
      var p := port.FlagGet(TDBE);
      if !port.Value(TDBE) then this.(port := p)
      else if pcount == 0 then
        this.(status := END, port := p.InterruptEnable(ALL_INTS, false).StopGenerate())
      else
        this.(port := p.DataSend(if pos < |buf| then buf[pos] else 0), pos := pos + 1, pcount := pcount - 1)
    }

    /** TDC interrupts when event interrupts are on, RDBF when data interrupts are on as well. */
    predicate RxPending() {
      port.config.ints.evt && (port.rx.sr.Some? || (port.config.ints.data && port.rx.dr.Some?))
    }
  }

  /** Between interrupts the target may finish bytes; an interrupt runs the handler if one is pending. */
  datatype Step = Bus(bs: seq<Byte>) | Irq

  function RxStep(s: Transfer, step: Step): Transfer {
    match step
    case Bus(bs) => s.(port := s.port.(rx := s.port.rx.Run(bs, s.port.config.acken, s.port.config.ackNext)))
    case Irq => if s.RxPending() then s.RxIsr() else s
  }

  function RxPlay(s: Transfer, steps: seq<Step>): Transfer
    decreases |steps|
  {
    if steps == [] then s else RxPlay(RxStep(s, steps[0]), steps[1..])
  }

  /** An interrupt-driven read as its starter leaves it, from the port as the address phase leaves it. */
  function RxStart(q: Port, buf: seq<Byte>, n: nat): Transfer {
    Transfer(ArmReleased(q, n).InterruptEnable(ALL_INTS, true), buf, 0, n, START)
  }

  /** What a read is to achieve: n bytes, after the events `base`, leaving `rest` of the buffer alone. */
  datatype Plan = Plan(n: nat, base: seq<Event>, lastAck: bool, rest: seq<Byte>, left: Option<Byte>)

  /** What every state of an interrupt-driven read of n bytes satisfies. */
  ghost predicate Receiving(s: Transfer, plan: Plan) {
    && s.port.env.faithful && s.port.left == plan.left && 1 <= plan.n <= |s.buf|
    && s.pos + s.pcount == plan.n
    && s.port.rx.taken == s.buf[..s.pos] && s.buf[plan.n..] == plan.rest
    && (s.status == START ==> Underway(s, plan))
    && (s.status == END ==> Over(s, plan))
  }

  ghost predicate Underway(s: Transfer, plan: Plan) {
    && s.port.config.ints.evt && s.pcount > 0
    && s.port.Log() == plan.base + (if plan.n == 1 then [Stop] else []) + Reads(s.port.rx.taken)
    && (s.pcount == 1 ==> plan.n == 1 && s.port.config.ints.data && s.port.Single() && !plan.lastAck)
    && (s.pcount == 2 ==> s.port.Ending(plan.n, plan.lastAck))
    && (s.pcount >= 3 ==> s.port.Streaming(s.pos) && !plan.lastAck)
    && (s.pcount > 3 ==> s.port.config.ints.data)
  }

  ghost predicate Over(s: Transfer, plan: Plan) {
    && plan.n <= |s.buf| && s.pcount == 0 && s.port.config.ints == Sources(false, false, false)
    && s.port.Log() == plan.base + ReadLog(s.buf[..plan.n])
    && Complete(s.port, s.buf[..plan.n], plan.lastAck)
  }

  /** Before END an interrupt is pending or a byte is on its way: no interleaving gets stuck. */
  lemma NeverStuck(s: Transfer, plan: Plan)
    requires Receiving(s, plan) && s.status == START
    ensures s.port.rx.inflight || s.RxPending()
  {
  }

  /** An addressed read of n bytes; one of a single byte must not begin with a byte left over. */
  ghost predicate Startable(q: Port, n: nat) {
    Addressed(q) && q.env.faithful && 1 <= n && (n == 1 ==> q.left.None?)
  }

  lemma StartReceiving(q: Port, buf: seq<Byte>, n: nat)
    requires Startable(q, n) && n <= |buf|
    ensures Receiving(RxStart(q, buf, n), Plan(n, q.Log(), ReleasedAck(q, n), buf[n..], q.left))
  {
    StartFacts(q, n);
    hide ArmReleased, Port.InterruptEnable, Port.Log, Startable, ReleasedAck;
    hide Port.Streaming, Port.Ending, Port.Single, Over;
    assert Reads([]) == [];
  }

  /** The port of a read that has just been started. */
  lemma StartFacts(q: Port, n: nat)
    requires Startable(q, n)
    ensures var p := ArmReleased(q, n).InterruptEnable(ALL_INTS, true);
            && p.env == q.env && p.left == q.left && p.config.ints == ALL_INTS && p.rx.taken == [] && q.env.faithful
            && p.Log() == q.Log() + (if n == 1 then [Stop] else [])
            && Ready(p, n, n, ReleasedAck(q, n)) && (n == 1 ==> p.Single() && !ReleasedAck(q, n))
  {
    var p := ArmReleased(q, n);
    ArmReleasedReady(q, n);
    ReadyFacts(p, n, n, ReleasedAck(q, n));
    ArmedLog(q, n);
    AccessLog(p);
    ArmedSetup(q, n);
    IntsAside(p, ALL_INTS, true);
    hide ArmReleased, Port.Log, Port.Streaming, Port.Ending, Port.Single, Receiver.Run, ReleasedAck;
  }

  lemma ArmedSetup(q: Port, n: nat)
    ensures var p := ArmReleased(q, n); p.env == q.env && p.left == q.left
  {
    hide Receiver.Run;
  }

  /** What each access asks of the bus. */
  lemma AccessLog(p: Port)
    ensures var (b, q) := p.DataReceive(); q.Log() == p.Log() + [Read(b)]
    ensures p.StopGenerate().Log() == p.Log() + [Stop]
    ensures p.AckEnable(false).Log() == p.Log() && p.FlagClear(ADDR7F).Log() == p.Log()
    ensures forall source, on :: p.InterruptEnable(source, on).Log() == p.Log()
  {
    hide Receiver.Run;
    BusSnoc(p.trace, Read(p.DataReceive().0));
    BusSnoc(p.trace, Stop);
    BusSnoc(p.trace, Clear(ADDR7F));
  }

  /** Releasing the clock puts nothing on the bus but the early STOP of a one-byte read. */
  ghost predicate ArmLog(q: Port, n: nat) {
    ArmReleased(q, n).Log() == q.Log() + (if n == 1 then [Stop] else [])
  }

  lemma ArmedLog(q: Port, n: nat)
    ensures ArmLog(q, n)
  {
    hide BusEvents, Receiver.Run;
    BusSnoc(q.trace, Clear(ADDR7F));
    BusSnoc(q.trace + [Clear(ADDR7F)], Stop);
  }

  lemma BusKeeps(s: Transfer, bs: seq<Byte>, plan: Plan)
    requires Receiving(s, plan)
    ensures Receiving(RxStep(s, Bus(bs)), plan)
  {
    var p := RxStep(s, Bus(bs)).port;
    assert s.port.Later(p);
    RunTaken(s.port, p);
    if s.status == START {
      UnderwayLater(s, p, plan);
    }
  }

  lemma UnderwayLater(s: Transfer, p: Port, plan: Plan)
    requires Underway(s, plan) && s.port.Later(p)
    ensures Underway(s.(port := p), plan)
  {
    RunTaken(s.port, p);
    if s.pcount == 1 {
      LaterSingle(s.port, p);
    } else if s.pcount == 2 {
      LaterEnding(s.port, p, plan.n, plan.lastAck);
    } else {
      LaterStreaming(s.port, p, s.pos);
    }
  }

  /** One byte in the middle of a transfer, from either flag. */
  lemma ReadInStreaming(s: Transfer, plan: Plan)
    requires Receiving(s, plan) && s.status == START && s.pcount > 3 && s.port.rx.dr.Some?
    ensures Receiving(s.ReadIn(), plan)
  {
    TakeStreaming(s.port, s.pos);
    AccessLog(s.port);
    hide BusEvents;
    var t := s.ReadIn();
    assert t.buf[..t.pos] == s.buf[..s.pos] + [s.port.DataReceive().0];
    assert Reads(t.port.rx.taken) == Reads(s.port.rx.taken) + [Read(s.port.DataReceive().0)];
  }

  /** Third byte from the end: acknowledgement is refused for the last one. */
  lemma ReadInTurn(s: Transfer, plan: Plan)
    requires Receiving(s, plan) && s.status == START && s.pcount == 3 && s.port.rx.sr.Some?
    ensures Receiving(s.(port := s.port.AckEnable(false)).ReadIn(), plan)
  {
    TakeTurn(s.port, plan.n);
    TurnAccess(s.port);
    var (b, q) := s.port.AckEnable(false).DataReceive();
    hide Port.Streaming, Port.Ending, Port.Single, Port.Log, Port.DataReceive, Port.AckEnable, Over;
    var t := s.(port := s.port.AckEnable(false)).ReadIn();
    assert t.buf[..t.pos] == s.buf[..s.pos] + [b];
    assert Reads(q.rx.taken) == Reads(s.port.rx.taken) + [Read(b)];
  }

  lemma TurnAccess(p: Port)
    ensures var (b, q) := p.AckEnable(false).DataReceive();
            && q.Log() == p.Log() + [Read(b)] && q.env == p.env && q.left == p.left && q.config.ints == p.config.ints
  {
    AccessLog(p);
    AccessLog(p.AckEnable(false));
    hide Port.Log, Receiver.Run;
  }

  /** The last two bytes: one STOP, then both. */
  lemma ReadInLast(s: Transfer, plan: Plan)
    requires Receiving(s, plan) && s.status == START && s.pcount == 2 && s.port.rx.sr.Some?
    ensures Receiving(s.(port := s.port.StopGenerate()).ReadIn().ReadIn().Finish(), plan)
  {
    hide Port.Ending, Port.Streaming, Port.Single, Port.DataReceive, Port.StopGenerate, Receiver.Run;
    hide Complete, Transfer.ReadIn, Transfer.Finish, ReadLog, Over;
    hide BusEvents, Port.Log;
    TakeLast(s.port, plan.n, plan.lastAck);
    LastAccess(s.port);
    var (b, q) := s.port.StopGenerate().DataReceive();
    var (c, r) := q.DataReceive();
    var t := s.(port := s.port.StopGenerate()).ReadIn().ReadIn();
    ReadInTwice(s.(port := s.port.StopGenerate()));
    assert t.port == r && t.buf[..plan.n] == s.buf[..s.pos] + [b, c];
    ReadLogOf(plan.base, s.buf[..s.pos], b, c);
    FinishIsOver(t, plan);
  }

  lemma LastAccess(p: Port)
    ensures var (b, q) := p.StopGenerate().DataReceive();
            var (c, r) := q.DataReceive();
            r.Log() == p.Log() + [Stop] + [Read(b)] + [Read(c)]
  {
    hide BusEvents, Port.Log, Port.DataReceive, Port.StopGenerate;
    AccessLog(p);
    AccessLog(p.StopGenerate());
    AccessLog(p.StopGenerate().DataReceive().1);
  }

  /** A transfer that has read its n bytes and logged a whole read ends in order. */
  lemma FinishIsOver(t: Transfer, plan: Plan)
    requires t.port.env.faithful && t.port.left == plan.left && 1 <= plan.n == t.pos <= |t.buf| && t.pcount == 0
    requires t.port.rx.taken == t.buf[..plan.n] && t.buf[plan.n..] == plan.rest
    requires t.port.Log() == plan.base + ReadLog(t.buf[..plan.n])
    requires Complete(t.port, t.buf[..plan.n], plan.lastAck)
    ensures Receiving(t.Finish(), plan)
  {
    hide Underway, ReadLog;
    IntsQuiet(t.port, ALL_INTS, false);
  }

  lemma ReadInTwice(s: Transfer)
    requires s.pcount == 2 && s.pos + 2 <= |s.buf|
    ensures var (b, q) := s.port.DataReceive();
            var (c, r) := q.DataReceive();
            s.ReadIn().ReadIn() == Transfer(r, s.buf[s.pos := b][s.pos + 1 := c], s.pos + 2, 0, s.status)
  {
  }

  lemma ReadLogOf(base: seq<Event>, bs: seq<Byte>, b: Byte, c: Byte)
    ensures base + ReadLog(bs + [b, c]) == base + Reads(bs) + [Stop, Read(b), Read(c)]
    ensures base + [] + Reads(bs) == base + Reads(bs)
  {
  }

  /** A one-byte read. */
  lemma ReadInOnly(s: Transfer, plan: Plan)
    requires Receiving(s, plan) && s.status == START && s.pcount == 1 && s.port.rx.dr.Some?
    ensures Receiving(s.ReadIn().Finish(), plan)
  {
    TakeOnly(s.port);
    AccessLog(s.port);
    hide BusEvents, Port.Log;
    ReadLogOnly(plan.base, s.port.DataReceive().0);
    hide Port.Single, Port.Chained, Complete, Transfer.Finish, ReadLog, Over, Receiver.Run;
    var (b, q) := s.port.DataReceive();
    assert s.ReadIn().port == q && s.ReadIn().buf[..1] == [b];
    FinishIsOver(s.ReadIn(), plan);
  }

  lemma ReadLogOnly(base: seq<Event>, b: Byte)
    ensures base + [Stop] + Reads([]) + [Read(b)] == base + ReadLog([b])
  {
    assert [b][..0] == [] && [b][0..] == [b];
  }

  lemma ReceivingLater(s: Transfer, p: Port, plan: Plan)
    requires Receiving(s, plan) && s.status == START && s.port.Later(p)
    ensures Receiving(s.(port := p), plan)
  {
    RunTaken(s.port, p);
    UnderwayLater(s, p, plan);
  }

  lemma FlagLater(p: Port, f: Flag)
    ensures p.Later(p.FlagGet(f))
  {
  }

  /** The phase of a transfer under way says what the flags can show. */
  lemma Shown(s: Transfer, plan: Plan)
    requires Receiving(s, plan) && s.status == START
    ensures s.port.receiving && (s.port.rx.sr.Some? ==> s.port.rx.dr.Some? && s.pcount >= 2)
  {
  }

  lemma RxIsrKeeps(s: Transfer, plan: Plan)
    requires Receiving(s, plan) && s.status == START
    ensures Receiving(s.RxIsr(), plan)
  {
    hide Underway, Over, Receiver.Run;
    var p := s.port.FlagGet(TDC);
    var t := s.(port := p);
    FlagLater(s.port, TDC);
    ReceivingLater(s, p, plan);
    Shown(s, plan);
    Shown(t, plan);
    PcountPositive(t, plan);
    if s.port.Value(TDC) {
      if s.pcount == 3 {
        ReadInTurn(t, plan);
      } else if s.pcount == 2 {
        ReadInLast(t, plan);
      } else {
        ReadInStreaming(t, plan);
      }
    } else {
      var q := p.FlagGet(RDBF);
      var u := s.(port := q);
      FlagLater(p, RDBF);
      ReceivingLater(t, q, plan);
      if p.Value(RDBF) {
        if s.pcount > 3 {
          ReadInStreaming(u, plan);
        } else if s.pcount == 3 || s.pcount == 2 {
          DataIntOff(u, plan);
        } else {
          ReadInOnly(u, plan);
        }
      }
    }
  }

  lemma PcountPositive(s: Transfer, plan: Plan)
    requires Receiving(s, plan) && s.status == START
    ensures s.pcount >= 1 && (s.pcount == 1 ==> plan.n == 1)
  {
  }

  lemma DataIntOff(s: Transfer, plan: Plan)
    requires Receiving(s, plan) && s.status == START && 2 <= s.pcount <= 3
    ensures Receiving(s.(port := s.port.InterruptEnable(Sources(false, true, false), false)), plan)
  {
    IntsAside(s.port, Sources(false, true, false), false);
  }

  lemma RxStepKeeps(s: Transfer, step: Step, plan: Plan)
    requires Receiving(s, plan)
    ensures Receiving(RxStep(s, step), plan)
    ensures s.status == END ==> RxStep(s, step) == s
  {
    match step
    case Bus(bs) => BusKeeps(s, bs, plan);
    case Irq =>
      if s.RxPending() {
        RxIsrKeeps(s, plan);
      }
  }

  /** Every interleaving of byte arrivals and interrupts keeps the transfer on course. */
  lemma {:induction false} RxPlayKeeps(s: Transfer, steps: seq<Step>, plan: Plan)
    requires Receiving(s, plan)
    ensures Receiving(RxPlay(s, steps), plan)
    ensures s.status == END ==> RxPlay(s, steps) == s
    decreases |steps|
  {
    if steps != [] {
      RxStepKeeps(s, steps[0], plan);
      RxPlayKeeps(RxStep(s, steps[0]), steps[1..], plan);
    }
  }

  /** At every point the buffer holds the byte left over, if any, and then the bytes of the wire. */
  lemma ReceivedInOrder(s: Transfer, plan: Plan)
    requires Receiving(s, plan)
    ensures s.buf[..s.pos] <= Held(s.port.left) + Bytes(s.port.rx.wire)
  {
    if s.status == START {
      assert s.port.Chained();
      hide Port.Chained, Port.Streaming, Port.Ending, Port.Single;
      ChainPrefix(s.port);
    }
  }

  /**
   * The interrupt-driven read: whatever the interleaving, count and buffer agree, END means all n
   * bytes and nothing more, the log is that of a polled read with its one STOP, and the last byte is
   * refused unless a two-byte read began with a byte left over or was overtaken before its ack bit was
   * cleared.
   */
  lemma ReceiveInterrupts(q: Port, buf: seq<Byte>, n: nat, steps: seq<Step>)
    requires Startable(q, n) && n <= |buf|
    ensures var s := RxPlay(RxStart(q, buf, n), steps);
            && s.pos + s.pcount == n <= |s.buf|
            && s.buf == s.port.rx.taken + s.buf[s.pos..] && s.buf[n..] == buf[n..] && |s.port.rx.taken| == s.pos
            && (s.status == END <==> s.pos == n)
            && (s.status == START && s.pcount == 1 ==> n == 1)
            && (s.status == START ==> s.port.rx.inflight || s.RxPending())
            && (s.status == START ==> s.RxIsr().pos <= n)
            && (s.status == END ==> s.port.Log() == q.Log() + ReadLog(s.buf[..n]))
            && (s.status == END ==> Complete(s.port, s.buf[..n], ReleasedAck(q, n)))
            && s.port.left == q.left && s.buf[..s.pos] <= Held(q.left) + Bytes(s.port.rx.wire)
  {
    hide Receiver.Run, Port.Streaming, Port.Ending, Port.Single, Transfer.RxIsr;
    hide RxStart, Startable, Complete, ReleasedAck;
    var plan := Plan(n, q.Log(), ReleasedAck(q, n), buf[n..], q.left);
    StartReceiving(q, buf, n);
    RxPlayKeeps(RxStart(q, buf, n), steps, plan);
    var s := RxPlay(RxStart(q, buf, n), steps);
    ReceivedInOrder(s, plan);
    if s.status == START {
      NeverStuck(s, plan);
      PcountPositive(s, plan);
      RxIsrKeeps(s, plan);
    }
    assert s.buf == s.buf[..s.pos] + s.buf[s.pos..];
  }

  /** A target fast enough to overtake the driver: both bytes of a two-byte read are acknowledged. */
  lemma OvertakenExample()
    ensures exists q: Port :: Addressed(q) && q.env.faithful && q.left.None?
              && var s := RxPlay(RxStart(q, [0, 0], 2), [Irq]);
                 s.status == END && |s.port.rx.wire| == 2 && s.port.rx.wire[1].ack
  {
    var env := Env(true, (t, f) => f == TDBE, t => [0x11, 0x22], t => 0);
    var q := Port(env, 0, 0, Config(false, true, false, Sources(false, false, false)), false, true, IDLE, None, []);
    OvertakenTarget(q, [0, 0]);
  }

  lemma OvertakenTarget(q: Port, buf: seq<Byte>)
    requires Addressed(q) && q.env.faithful && q.left.None? && |buf| == 2 && forall t: nat :: |q.env.deliver(t)| >= 2
    ensures var s := RxPlay(RxStart(q, buf, 2), [Irq]);
            s.status == END && |s.port.rx.wire| == 2 && s.port.rx.wire[1].ack
  {
    var s := RxStart(q, buf, 2);
    var plan := Plan(2, q.Log(), ReleasedAck(q, 2), buf[2..], q.left);
    StartReceiving(q, buf, 2);
    StartFills(q, buf);
    PlayOne(s);
    StartCount(q, buf);
    Shown(s, plan);
    RxIsrKeeps(s, plan);
    LastTwoEnd(s);
    hide RxPlay, RxStart, Transfer.RxIsr, Underway, Port.Log;
    EndAcknowledged(s.RxIsr(), plan);
  }

  lemma PlayOne(s: Transfer)
    requires s.RxPending()
    ensures RxPlay(s, [Irq]) == s.RxIsr()
  {
    hide Transfer.RxIsr;
    assert RxPlay(s, [Irq]) == RxPlay(s.RxIsr(), [Irq][1..]);
  }

  lemma StartCount(q: Port, buf: seq<Byte>)
    ensures var s := RxStart(q, buf, 2); s.status == START && s.pcount == 2
  {
  }

  /** A two-byte read without a byte left over, ended with its last byte acknowledged. */
  lemma EndAcknowledged(t: Transfer, plan: Plan)
    requires Receiving(t, plan) && t.status == END && plan.n == 2 && plan.lastAck && plan.left.None?
    ensures |t.port.rx.wire| == 2 && t.port.rx.wire[1].ack
  {
    hide Underway, Port.Log, ReadLog;
    assert Held(t.port.left) + Bytes(t.port.rx.wire) == Bytes(t.port.rx.wire);
  }

  lemma StartFills(q: Port, buf: seq<Byte>)
    requires Addressed(q) && q.env.faithful && q.left.None? && |buf| == 2 && forall t: nat :: |q.env.deliver(t)| >= 2
    ensures RxStart(q, buf, 2).port.rx.sr.Some? && RxStart(q, buf, 2).RxPending()
    ensures RxStart(q, buf, 2).port.receiving && RxStart(q, buf, 2).port.env.faithful
  {
    var p := ArmReleased(q, 2);
    ArmReleasedReady(q, 2);
    EndingFills(p, true);
  }

  lemma EndingFills(p: Port, lastAck: bool)
    requires p.Ending(2, lastAck) && |p.env.deliver(p.tick)| >= 2
    ensures p.Access().rx.sr.Some?
  {
    assert |Bytes(p.rx.wire)| == |p.rx.wire|;
    RunFills(p.rx, p.env.deliver(p.tick), p.config.acken, p.config.ackNext);
  }

  lemma LastTwoEnd(s: Transfer)
    requires s.pcount == 2 && s.port.env.faithful && s.port.receiving
    requires s.port.rx.sr.Some? && s.port.rx.dr.Some? && !s.port.rx.inflight
    ensures s.RxIsr().status == END
  {
  }

  /** Every pending interrupt reads a byte or gives up the data interrupt. */
  lemma IrqWorks(s: Transfer, plan: Plan)
    requires Receiving(s, plan) && s.status == START && s.RxPending()
    ensures var t := s.RxIsr();
            t.pcount < s.pcount || (t.pcount == s.pcount && s.port.config.ints.data && !t.port.config.ints.data)
  {
    Shown(s, plan);
    PcountPositive(s, plan);
    hide Underway, Over, Receiver.Take, Port.Streaming;
    var p := s.port.FlagGet(TDC);
    KeepsDr(s.port, p);
    KeepsDr(p, p.FlagGet(RDBF));
  }

  lemma KeepsDr(p: Port, q: Port)
    requires q == p.FlagGet(TDC) || q == p.FlagGet(RDBF)
    requires p.rx.dr.Some?
    ensures q.rx.dr.Some? && q.config == p.config && q.env == p.env
    ensures p.rx.sr.Some? && !p.rx.inflight ==> q.rx.sr.Some?
  {
    RunKeepsDr(p.rx, p.env.deliver(p.tick), p.config.acken, p.config.ackNext);
  }

  lemma BusGrows(r: Receiver, b: Byte, acken: bool, ackNext: bool)
    requires r.inflight
    ensures |r.Run([b], acken, ackNext).wire| > |r.wire|
  {
  }

  lemma WireBounded(s: Transfer, plan: Plan)
    requires Receiving(s, plan) && s.status == START
    ensures s.port.Arrived() <= plan.n
  {
  }

  /** From every reachable state some continuation completes the read. */
  lemma {:induction false} CanFinish(s: Transfer, plan: Plan)
    requires Receiving(s, plan)
    ensures exists steps :: RxPlay(s, steps).status == END
    decreases s.pcount, s.port.config.ints.data, plan.n - s.port.Arrived()
  {
    hide Underway, Over, Transfer.RxIsr;
    if s.status == END {
      assert RxPlay(s, []).status == END;
    } else {
      NeverStuck(s, plan);
      var step := if s.RxPending() then Irq else Bus([0]);
      var t := RxStep(s, step);
      RxStepKeeps(s, step, plan);
      if s.RxPending() {
        IrqWorks(s, plan);
      } else {
        BusGrows(s.port.rx, 0, s.port.config.acken, s.port.config.ackNext);
      }
      WireBounded(s, plan);
      if t.status == START {
        WireBounded(t, plan);
      }
      CanFinish(t, plan);
      var rest :| RxPlay(t, rest).status == END;
      assert ([step] + rest)[1..] == rest;
      assert RxPlay(s, [step] + rest).status == END;
    }
  }

  // ---- how soon a read ends

  /** A step that does something: a byte arrives while one is awaited, or a pending interrupt is served. */
  predicate Productive(s: Transfer, step: Step) {
    match step
    case Bus(bs) => bs != [] && s.port.rx.inflight
    case Irq => s.RxPending()
  }

  function ProductiveSteps(s: Transfer, steps: seq<Step>): nat
    decreases |steps|
  {
    if steps == [] then 0
    else (if Productive(s, steps[0]) then 1 else 0) + ProductiveSteps(RxStep(s, steps[0]), steps[1..])
  }

  /** Bytes to store, bytes to arrive, and whether the data interrupt can still be given up. */
  function Work(s: Transfer, n: nat): int {
    s.pcount + (n - s.port.Arrived()) + if s.port.config.ints.data then 1 else 0
  }

  /** The wire has not lost a byte, nor the data interrupt come back. */
  ghost predicate Onward(p: Port, q: Port) {
    q.left == p.left && |q.rx.wire| >= |p.rx.wire| && (q.config.ints.data ==> p.config.ints.data)
  }

  lemma {:induction false} RunGrows(r: Receiver, bs: seq<Byte>, acken: bool, ackNext: bool)
    ensures |r.Run(bs, acken, ackNext).wire| >= |r.wire| + if bs != [] && r.inflight then 1 else 0
    decreases |bs|
  {
    if bs != [] && r.inflight {
      RunGrows(r.Shift(bs[0], acken, ackNext), bs[1..], acken, ackNext);
    }
  }

  lemma AccessOnward(p: Port)
    ensures Onward(p, p.FlagGet(TDC)) && Onward(p, p.FlagGet(RDBF))
    ensures Onward(p, p.AckEnable(false)) && Onward(p, p.StopGenerate())
    ensures forall source :: Onward(p, p.InterruptEnable(source, false))
    ensures Onward(p, p.DataReceive().1)
  {
    RunGrows(p.rx, p.env.deliver(p.tick), p.config.acken, p.config.ackNext);
    hide Receiver.Run;
  }

  lemma ReadInOnward(s: Transfer)
    ensures Onward(s.port, s.ReadIn().port)
  {
    AccessOnward(s.port);
    hide Port.DataReceive;
  }

  lemma FinishOnward(s: Transfer)
    ensures Onward(s.port, s.Finish().port)
  {
    AccessOnward(s.port);
    hide Port.InterruptEnable;
  }

  lemma RxIsrOnward(s: Transfer)
    ensures Onward(s.port, s.RxIsr().port)
  {
    hide Port.FlagGet, Port.AckEnable, Port.StopGenerate, Port.InterruptEnable;
    hide Port.Value, Transfer.ReadIn, Transfer.Finish;
    var p := s.port.FlagGet(TDC);
    var q := p.FlagGet(RDBF);
    AccessOnward(s.port);
    AccessOnward(p);
    AccessOnward(q);
    if s.port.Value(TDC) {
      var t := s.(port := if s.pcount == 3 then p.AckEnable(false) else if s.pcount == 2 then p.StopGenerate() else p);
      ReadInOnward(t);
      ReadInOnward(t.ReadIn());
      FinishOnward(t.ReadIn().ReadIn());
    } else if p.Value(RDBF) {
      var t := s.(port := q);
      ReadInOnward(t);
      FinishOnward(t.ReadIn());
    }
  }

  /** A productive step does at least one unit of the work left, and no step adds any. */
  lemma StepWork(s: Transfer, step: Step, plan: Plan)
    requires Receiving(s, plan) && s.status == START
    ensures Work(RxStep(s, step), plan.n) + (if Productive(s, step) then 1 else 0) <= Work(s, plan.n)
  {
    match step
    case Bus(bs) => RunGrows(s.port.rx, bs, s.port.config.acken, s.port.config.ackNext);
    case Irq =>
      if s.RxPending() {
        IrqWorks(s, plan);
        RxIsrOnward(s);
        hide Transfer.RxIsr;
      }
  }

  /** Work left: at least one unit before END, none after it, when nothing can happen any more. */
  lemma WorkLeft(s: Transfer, plan: Plan)
    requires Receiving(s, plan)
    ensures if s.status == START then Work(s, plan.n) >= 1 else Work(s, plan.n) == 0
    ensures Work(s, plan.n) <= s.pcount + plan.n + 1
    ensures s.status == END ==> forall step :: !Productive(s, step)
  {
    if s.status == START {
      WireBounded(s, plan);
    }
  }

  lemma {:induction false} PlayWork(s: Transfer, steps: seq<Step>, plan: Plan)
    requires Receiving(s, plan)
    ensures ProductiveSteps(s, steps) + Work(RxPlay(s, steps), plan.n) <= Work(s, plan.n)
    decreases |steps|
  {
    hide Receiving, Work, Productive, RxStep;
    if steps != [] {
      var t := RxStep(s, steps[0]);
      RxStepKeeps(s, steps[0], plan);
      if s.status == START {
        StepWork(s, steps[0], plan);
      } else {
        WorkLeft(s, plan);
      }
      PlayWork(t, steps[1..], plan);
    }
  }

  /**
   * However bytes and interrupts interleave, a read of n bytes has ended once
   * more than 2n steps were productive; and never are more than 2n + 1.
   */
  lemma ReceiveFinishes(q: Port, buf: seq<Byte>, n: nat, steps: seq<Step>)
    requires Startable(q, n) && n <= |buf|
    ensures var s := RxStart(q, buf, n);
      ProductiveSteps(s, steps) <= 2 * n + 1 && (ProductiveSteps(s, steps) > 2 * n ==> RxPlay(s, steps).status == END)
  {
    var plan, s := Plan(n, q.Log(), ReleasedAck(q, n), buf[n..], q.left), RxStart(q, buf, n);
    StartReceiving(q, buf, n);
    assert s.pcount == n;
    hide Receiving, Work, RxStart, Addressed;
    WorkLeft(s, plan);
    PlayWork(s, steps, plan);
    RxPlayKeeps(s, steps, plan);
    WorkLeft(RxPlay(s, steps), plan);
  }

  // ---- a byte left over from an earlier transfer

  /** A one-byte read with a full data register: the byte is refused, and waits in the shift register if it has come. */
  ghost predicate StaleSingle(p: Port) {
    && p.receiving && !p.config.acken && !p.config.ackNext && p.rx.dr.Some? && p.rx.inflight == p.rx.sr.None?
    && (p.rx.sr.Some? ==> p.rx.wire != [] && !p.rx.wire[|p.rx.wire| - 1].ack)
  }

  lemma StaleRun(p: Port, bs: seq<Byte>)
    requires StaleSingle(p)
    ensures var q := p.(rx := p.rx.Run(bs, p.config.acken, p.config.ackNext));
      StaleSingle(q) && (bs != [] || p.rx.sr.Some? ==> q.rx.sr.Some?)
  {
    if bs != [] && p.rx.inflight {
      var s := p.rx.Shift(bs[0], false, false);
      assert !s.inflight && s.Run(bs[1..], false, false) == s;
    }
  }

  /**
   * The exception at n = 1: with a byte left over, the byte of the wire can
   * fill the shift register too. The handler then reads one byte by TDC
   * without ending, and at its next interrupt another beyond the count.
   */
  lemma StaleOverruns(q: Port, buf: seq<Byte>, c: Byte)
    requires Addressed(q) && q.env.faithful && q.left.Some?
    ensures var s := RxPlay(RxStart(q, buf, 1), [Bus([c]), Irq, Irq]); s.pos == 2 && s.pcount == 0xFFFF
  {
    var s := RxStart(q, buf, 1);
    StaleStart(q, buf);
    StaleRun(s.port, [c]);
    var t := RxStep(s, Bus([c]));
    var u, v := RxStep(t, Irq), RxStep(RxStep(t, Irq), Irq);
    assert RxPlay(s, [Bus([c]), Irq, Irq]) == RxPlay(t, [Irq, Irq]) == RxPlay(u, [Irq]) == RxPlay(v, []);
    hide RxStart, RxPlay;
    StaleFirst(t);
    StaleSecond(u);
  }

  lemma StaleStart(q: Port, buf: seq<Byte>)
    requires Addressed(q) && q.left.Some?
    ensures var s := RxStart(q, buf, 1);
      StaleSingle(s.port) && s.port.config.ints == ALL_INTS && s.pcount == 1 && s.pos == 0 && s.port.env == q.env
  {
    var a := q.AckEnable(false).FlagClear(ADDR7F);
    AccessKeeps(q);
    AccessKeeps(q.AckEnable(false));
    assert StaleSingle(a);
    StaleRun(a, a.env.deliver(a.tick));
    var b := a.StopGenerate();
    assert StaleSingle(b);
    StaleRun(b, b.env.deliver(b.tick));
    hide Receiver.Run;
  }

  /** What follows once both slots are full: nothing more can arrive. */
  lemma StaleFirst(t: Transfer)
    requires StaleSingle(t.port) && t.port.rx.sr.Some? && t.port.config.ints == ALL_INTS
    requires t.pcount == 1 && t.port.env.faithful
    ensures var u := RxStep(t, Irq);
      u.pcount == 0 && u.pos == t.pos + 1 && u.port.rx.dr.Some? && u.port.rx.sr.None? && !u.port.rx.inflight
      && u.port.config == t.port.config && u.port.env == t.port.env && u.port.receiving
  {
  }

  lemma StaleSecond(u: Transfer)
    requires u.pcount == 0 && u.port.rx.dr.Some? && u.port.rx.sr.None? && !u.port.rx.inflight
    requires u.port.config.ints == ALL_INTS && u.port.env.faithful && u.port.receiving
    ensures var v := RxStep(u, Irq); v.pcount == 0xFFFF && v.pos == u.pos + 1
  {
  }

  lemma ZeroStreams(q: Port)
    requires Addressed(q)
    ensures ArmReleased(q, 0).Streaming(0) && ArmReleased(q, 0).env == q.env
  {
  }

  lemma BusFills(r: Receiver, b: Byte, acken: bool, ackNext: bool)
    requires r.inflight == r.sr.None? && (r.sr.Some? ==> r.dr.Some?)
    ensures r.Run([b], acken, ackNext).dr.Some?
  {
  }

  /** The count of a zero-byte read underflows at its first interrupt, so the law needs n >= 1. */
  lemma ZeroUnderflows(q: Port, buf: seq<Byte>, b: Byte)
    requires Addressed(q) && q.env.faithful
    ensures RxPlay(RxStart(q, buf, 0), [Bus([b]), Irq]).pcount == 0xFFFF
  {
    hide Receiver.Shift, BusEvents;
    var s := RxStart(q, buf, 0);
    var a := ArmReleased(q, 0);
    ZeroStreams(q);
    IntsAside(a, ALL_INTS, true);
    var t := RxStep(s, Bus([b]));
    assert s.port.Later(t.port);
    LaterStreaming(s.port, t.port, 0);
    BusFills(s.port.rx, b, true, false);
    RunKeepsDr(t.port.rx, t.port.env.deliver(t.port.tick), true, false);
    var p := t.port.FlagGet(TDC);
    RunKeepsDr(p.rx, p.env.deliver(p.tick), true, false);
    assert RxPlay(s, [Bus([b]), Irq]) == RxPlay(t, [Irq]) == RxStep(t, Irq);
  }

  // ---- transmitting

  function TxStep(s: Transfer, step: Step): Transfer {
    match step
    case Bus(bs) => s
    case Irq => if s.port.config.ints.evt && s.port.config.ints.data then s.TxIsr() else s
  }

  function TxPlay(s: Transfer, steps: seq<Step>): Transfer
    decreases |steps|
  {
    if steps == [] then s else TxPlay(TxStep(s, steps[0]), steps[1..])
  }

  /** What every state of an interrupt-driven write of the first n bytes of buf satisfies. */
  ghost predicate Transmitting(s: Transfer, buf: seq<Byte>, n: nat, base: seq<Event>) {
    && s.buf == buf && n <= |buf| && s.pos + s.pcount == n
    && (s.status == START ==> s.port.config.ints == ALL_INTS && s.port.trace == base + Sends(buf[..s.pos]))
    && (s.status == END ==>
          s.pcount == 0 && s.port.config.ints == Sources(false, false, false)
          && s.port.trace == base + Sends(buf[..n]) + [Seen(TDBE), Stop])
  }

  lemma TxStepKeeps(s: Transfer, step: Step, buf: seq<Byte>, n: nat, base: seq<Event>)
    requires Transmitting(s, buf, n, base)
    ensures Transmitting(TxStep(s, step), buf, n, base)
    ensures s.status == END ==> TxStep(s, step) == s
  {
    hide Receiver.Run, Sends;
    if s.status == START && step.Irq? && s.port.Value(TDBE) && s.pcount > 0 {
      assert buf[..s.pos + 1] == buf[..s.pos] + [buf[s.pos]];
      SendsSnoc(buf[..s.pos], buf[s.pos]);
    }
  }

  lemma Unsent(buf: seq<Byte>, pos: nat, n: nat, base: seq<Event>)
    requires pos <= n <= |buf|
    ensures base + Sends(buf[..pos]) + Sends(buf[pos..n]) == base + Sends(buf[..n])
  {
    assert buf[..n] == buf[..pos] + buf[pos..n];
    SendsConcat(buf[..pos], buf[pos..n]);
  }

  /** Every schedule of transmit interrupts writes the buffer in order, each byte once TDBE is up, and stops once. */
  lemma {:induction false} TransmitInterrupts(s: Transfer, steps: seq<Step>, buf: seq<Byte>, n: nat, base: seq<Event>)
    requires Transmitting(s, buf, n, base)
    ensures var t := TxPlay(s, steps);
            && Transmitting(t, buf, n, base)
            && (t.status == START ==> t.port.trace + Sends(buf[t.pos..n]) == base + Sends(buf[..n]))
            && (s.status == END ==> t == s)
    decreases |steps|
  {
    hide Transfer.TxIsr;
    if steps == [] {
      Unsent(buf, s.pos, n, base);
    } else {
      TxStepKeeps(s, steps[0], buf, n, base);
      TransmitInterrupts(TxStep(s, steps[0]), steps[1..], buf, n, base);
    }
  }

  lemma TxStepQuiet(s: Transfer, step: Step)
    requires !s.port.rx.inflight
    ensures var r := TxStep(s, step).port.rx; r == s.port.rx.(stopping := r.stopping)
  {
  }

  /** Writing moves nothing in the receiver: from a quiet one no schedule of interrupts leaves anything else. */
  lemma {:induction false} TransmitQuiet(s: Transfer, steps: seq<Step>)
    requires !s.port.rx.inflight
    ensures var r := TxPlay(s, steps).port.rx; r == s.port.rx.(stopping := r.stopping)
    decreases |steps|
  {
    hide Transfer.TxIsr;
    if steps != [] {
      TxStepQuiet(s, steps[0]);
      TransmitQuiet(TxStep(s, steps[0]), steps[1..]);
    }
  }

  /** If the data register is always empty in time, n + 1 interrupts complete the write, and no fewer. */
  lemma {:induction false} TransmitCompletes(s: Transfer, steps: seq<Step>, buf: seq<Byte>, n: nat, base: seq<Event>)
    requires Transmitting(s, buf, n, base) && s.status == START
    requires forall t: nat :: s.port.env.flags(t, TDBE)
    requires forall i :: 0 <= i < |steps| ==> steps[i] == Irq
    ensures TxPlay(s, steps).status == END <==> |steps| > s.pcount
    decreases |steps|
  {
    if steps != [] {
      var t := TxStep(s, steps[0]);
      TxStepKeeps(s, steps[0], buf, n, base);
      if t.status == START {
        TransmitCompletes(t, steps[1..], buf, n, base);
      } else {
        TransmitInterrupts(t, steps[1..], buf, n, base);
      }
    }
  }
}
