/**
 * The transfer library's handle and its blocking master operations.
 */
module I2cMaster {
  import opened I2cPort
  import opened I2cWait
  import opened I2cLog
  import opened I2cPhase
  import opened I2cPipeline
  import opened I2cRead
  import opened I2cIsr

  datatype Mode = INT_MA_TX | INT_MA_RX

  class Handle {
    var port: Port                // i2cx
    var pbuff: array<Byte>
    var pos: nat                  // how far pbuff has been advanced
    var pcount: nat
    var mode: Mode
    var timeout: nat
    var status: Progress
    var errorCode: Status

    constructor (port: Port, pbuff: array<Byte>)
      ensures this.port == port && this.pbuff == pbuff
      ensures pos == 0 && pcount == 0 && mode == INT_MA_TX && timeout == 0 && status == END && errorCode == OK
    {
      this.port, this.pbuff := port, pbuff;
      pos, pcount, mode, timeout, status, errorCode := 0, 0, INT_MA_TX, 0, END, OK;
    }

    method WaitFlag(flag: Flag, check: Check, timeout: nat) returns (st: Status)
      modifies this`port, this`errorCode
      ensures (st, port) == Wait(old(port), flag, check, timeout)
      ensures errorCode == if st == OK then old(errorCode) else st
    {
      hide Receiver.Run, Port.Value;
      var left: nat := timeout;
      if flag == BUSYF {
        while port.Value(flag)
          invariant left <= timeout && errorCode == old(errorCode)
          invariant Wait(port, flag, check, left) == Wait(old(port), flag, check, timeout)
          decreases left
        {
          port := port.FlagGet(flag);
          if left == 0 {
            errorCode := ERR_TIMEOUT;
            return ERR_TIMEOUT;
          }
          left := left - 1;
        }
      } else {
        while !port.Value(flag)
          invariant left <= timeout && errorCode == old(errorCode)
          invariant Wait(port, flag, check, left) == Wait(old(port), flag, check, timeout)
          decreases left
        {
          ghost var before := port;
          port := port.FlagGet(flag);
          if check.ackfail {
            var failed := port.Value(ACKFAIL);
            port := port.FlagGet(ACKFAIL);
            if failed {
              port := port.StopGenerate();
              port := port.FlagClear(ACKFAIL);
              errorCode := ERR_ACKFAIL;
              return ERR_ACKFAIL;
            }
          }
          if check.stop {
            var stopped := port.Value(STOPF);
            port := port.FlagGet(STOPF);
            if stopped {
              port := port.FlagClear(STOPF);
              errorCode := ERR_STOP;
              return ERR_STOP;
            }
          }
          assert port == Round(before, flag, check);
          if left == 0 {
            errorCode := ERR_TIMEOUT;
            return ERR_TIMEOUT;
          }
          left := left - 1;
        }
      }
      port := port.FlagGet(flag);
      return OK;
    }

    /** The same wait, by what it promises the transfer that called it. */
    method Await(flag: Flag, check: Check, timeout: nat) returns (st: Status)
      requires !(flag.ACKFAIL? || flag.STOPF?)
      modifies this`port, this`errorCode
      ensures Waited(old(port), port, flag, st)
      ensures st == OK <==> SeenIn(old(port), flag, check, timeout)
      ensures st == OK || st == ERR_TIMEOUT || (check.ackfail && st == ERR_ACKFAIL) || (check.stop && st == ERR_STOP)
      ensures old(port).polls < port.polls <= old(port).polls + timeout + 1
      ensures st == ERR_TIMEOUT ==> port.polls == old(port).polls + timeout + 1
      ensures flag == BUSYF || flag == STARTF || check.ackfail ==>
                port.polls <= old(port).polls + Patience(old(port).env, timeout)
      ensures old(port).Sees(flag) ==> st == OK
      ensures timeout == 0 && check == CHECK_NONE ==>
                port == old(port).FlagGet(flag) && (st == OK <==> old(port).Sees(flag))
      ensures errorCode == if st == OK then old(errorCode) else st
    {
      WaitEffect(port, flag, check, timeout);
      WaitStatus(port, flag, check, timeout);
      WaitPolls(port, flag, check, timeout);
      WaitOkIff(port, flag, check, timeout);
      if flag == BUSYF || flag == STARTF || check.ackfail {
        WaitBrief(port, flag, check, timeout);
      }
      hide SeenIn, Waited, Patience;
      st := WaitFlag(flag, check, timeout);
    }

    /** A wait inside an address phase: on failure the phase is lost with its own code. */
    method AwaitOr(flag: Flag, check: Check, timeout: nat, code: Status, ghost ph: Phase, ghost sent: nat)
      returns (st: Status)
      requires !(flag.ACKFAIL? || flag.STOPF?) && code != OK
      requires check == if flag == STARTF then CHECK_NONE else CHECK_ACKFAIL
      requires ph.At(port, sent) && sent < |ph.full| && ph.full[sent] == Seen(flag)
      modifies this`port, this`errorCode
      ensures st == OK || st == code
      ensures SameSetup(old(port), port)
      ensures st == OK ==> ph.At(port, sent + 1) && SamePhase(old(port), port) && errorCode == old(errorCode)
      ensures st == OK && !old(port).rx.inflight ==> port.rx == old(port).rx
      ensures st != OK ==> ph.Lost(port, flag, 0, timeout) && errorCode == code
      ensures old(port).polls < port.polls <= old(port).polls + Patience(old(port).env, timeout)
      ensures old(port).Sees(flag) ==> st == OK
    {
      var wait := Await(flag, check, timeout);
      hide Patience, Phase.At, Phase.Lost, Port.Sees, SeenIn;
      if wait != OK {
        errorCode := code;
        PhaseLost(ph, old(port), port, sent, flag, wait == ERR_ACKFAIL, timeout);
        return code;
      }
      PhaseNext(ph, old(port), port, sent);
      return OK;
    }

    /** One byte of an address, and the flag that answers it. */
    method SendAddress(b: Byte, flag: Flag, timeout: nat, code: Status, ghost ph: Phase, ghost sent: nat)
      returns (st: Status)
      requires (flag == ADDRHF || flag == ADDR7F) && code != OK
      requires ph.At(port, sent) && sent + 1 < |ph.full| && ph.full[sent] == Write(b) && ph.full[sent + 1] == Seen(flag)
      modifies this`port, this`errorCode
      ensures st == OK || st == code
      ensures SameSetup(old(port), port)
      ensures st == OK ==> ph.At(port, sent + 2) && !port.addressing && errorCode == old(errorCode)
      ensures st == OK ==> port.receiving == if old(port).addressing then b & 1 == 1 else old(port).receiving
      ensures st == OK && !old(port).rx.inflight ==> port.rx == old(port).rx
      ensures st != OK ==> ph.Lost(port, flag, 0, timeout) && errorCode == code
      ensures old(port).polls < port.polls <= old(port).polls + Patience(old(port).env, timeout)
      ensures Answering(old(port).env) ==> st == OK
    {
      hide Patience, Receiver.Shift, Phase.At, Phase.Lost;
      port := port.DataSend(b);
      PhaseNext(ph, old(port), port, sent);
      st := AwaitOr(flag, CHECK_ACKFAIL, timeout, code, ph, sent + 1);
    }

    /** START, and the flag that answers it. */
    method SendStart(timeout: nat, ghost ph: Phase, ghost sent: nat) returns (st: Status)
      requires ph.At(port, sent) && sent + 1 < |ph.full| && ph.full[sent] == Start && ph.full[sent + 1] == Seen(STARTF)
      modifies this`port, this`errorCode
      ensures st == OK || st == ERR_START
      ensures SameRegisters(old(port), port)
      ensures st == OK ==> ph.At(port, sent + 2) && errorCode == old(errorCode)
      ensures st == OK ==> port.addressing && !port.receiving
      ensures st == OK ==> port.rx == Fresh(port.left) && old(port).rx.Keeps(port.rx)
      ensures st != OK ==> ph.Lost(port, STARTF, 0, timeout) && errorCode == st
      ensures old(port).polls < port.polls <= old(port).polls + Patience(old(port).env, timeout)
      ensures Answering(old(port).env) ==> st == OK
    {
      hide Patience, Receiver.Run, Receiver.Keeps, Phase.At, Phase.Lost;
      StartKeeps(port);
      port := port.StartGenerate();
      PhaseNext(ph, old(port), port, sent);
      st := AwaitOr(STARTF, CHECK_NONE, timeout, ERR_START, ph, sent + 1);
    }

    method WriteAddr(address: bv16, timeout: nat) returns (st: Status)
      modifies this`port, this`errorCode
      ensures SameRegisters(old(port), port)
      ensures st == OK ==> port.rx == Fresh(port.left) && old(port).rx.Keeps(port.rx)
      ensures st == OK ==> port.trace == old(port).trace + WriteHeader(port.config.tenBit, address) && Sending(port)
      // each code tells the flag that was missed, and so how much of the address was sent
      ensures st != OK ==>
                Phase(old(port).trace, WriteHeader(port.config.tenBit, address), old(port).polls)
                .Lost(port, FlagOf(st), 0, timeout)
      ensures st == OK || st == ERR_START || st == ERR_ADDR || (port.config.tenBit && st == ERR_ADDR10)
      ensures errorCode == if st == OK then old(errorCode) else st
      ensures old(port).polls < port.polls <= old(port).polls + 3 * Patience(old(port).env, timeout)
      ensures Answering(old(port).env) ==> st == OK
    {
      ghost var ph := Phase(port.trace, WriteHeader(port.config.tenBit, address), port.polls);
      PhaseBegins(ph, port);
      WriteHeaderIs(port.config.tenBit, address);
      hide Patience, Receiver.Keeps, Phase.At, Phase.Lost, Low, Header, Answering, WriteHeader, SevenBit;
      st := SendStart(timeout, ph, 0);
      if st != OK {
        return;
      }
      if !port.config.tenBit {
        st := SendAddress(SevenBit(Low(address), false), ADDR7F, timeout, ERR_ADDR, ph, 2);
      } else {
        HeaderWrites(address);
        st := SendAddress(Header(address, false), ADDRHF, timeout, ERR_ADDR10, ph, 2);
        if st != OK {
          return;
        }
        st := SendAddress(Low(address), ADDR7F, timeout, ERR_ADDR, ph, 4);
      }
      if st == OK {
        PhaseEnds(ph, port);
      }
    }

    /** The 10-bit branch of ReadAddr: a write address, a repeated START, and the first address byte again. */
    method SendTenBitRead(address: bv16, timeout: nat, ghost ph: Phase) returns (st: Status)
      requires port.addressing && port.rx == Fresh(port.left)
      requires ph.full == ReadHeader(true, address) && ph.At(port, 2)
      modifies this`port, this`errorCode
      ensures SameRegisters(old(port), port)
      ensures st == OK || st == ERR_START || st == ERR_ADDR || st == ERR_ADDR10
      ensures st == OK ==> ph.At(port, |ph.full|) && port.receiving && errorCode == old(errorCode)
      ensures st == OK ==> port.rx == Fresh(port.left) && old(port).rx.Keeps(port.rx)
      ensures st != OK ==> ph.Lost(port, FlagOf(st), 0, timeout) && errorCode == st
      ensures old(port).polls <= port.polls <= old(port).polls + 4 * Patience(old(port).env, timeout)
      ensures Answering(old(port).env) ==> st == OK
    {
      hide Patience, Phase.At, Phase.Lost, Low, Header, Answering, Receiver.Run, Receiver.Keeps, ReadHeader;
      HeaderWrites(address);
      TenBitReadHeader(address);
      st := SendAddress(Header(address, false), ADDRHF, timeout, ERR_ADDR10, ph, 2);
      if st != OK {
        return;
      }
      st := SendAddress(Low(address), ADDR7F, timeout, ERR_ADDR, ph, 4);
      if st != OK {
        return;
      }
      AccessKeeps(port);
      ghost var sent := port;
      port := port.FlagClear(ADDR7F);
      PhaseNext(ph, sent, port, 6);
      st := SendStart(timeout, ph, 7);
      if st != OK {
        return;
      }
      st := SendAddress(Header(address, true), ADDR7F, timeout, ERR_ADDR, ph, 9);
    }

    method ReadAddr(address: bv16, timeout: nat) returns (st: Status)
      modifies this`port, this`errorCode
      ensures port.env == old(port).env && port.config == old(port).config.(acken := true)
      ensures st == OK ==> port.trace == old(port).trace + ReadHeader(port.config.tenBit, address)
      ensures st == OK ==> port.receiving && port.rx == Fresh(port.left) && old(port).rx.Keeps(port.rx)
      ensures st != OK ==>
                Phase(old(port).trace, ReadHeader(port.config.tenBit, address), old(port).polls)
                .Lost(port, FlagOf(st), 0, timeout)
      ensures st == OK || st == ERR_START || st == ERR_ADDR || (port.config.tenBit && st == ERR_ADDR10)
      ensures errorCode == if st == OK then old(errorCode) else st
      ensures old(port).polls < port.polls <= old(port).polls + 5 * Patience(old(port).env, timeout)
      ensures Answering(old(port).env) ==> st == OK
    {
      ghost var ph := Phase(port.trace, ReadHeader(port.config.tenBit, address), port.polls);
      AccessKeeps(port);
      port := port.AckEnable(true);
      PhaseBegins(ph, port);
      hide Patience, Phase.At, Phase.Lost, Low, Header, Answering, Receiver.Run;
      HeaderWrites(address);
      st := SendStart(timeout, ph, 0);
      if st != OK {
        return;
      }
      if !port.config.tenBit {
        st := SendAddress(SevenBit(Low(address), true), ADDR7F, timeout, ERR_ADDR, ph, 2);
      } else {
        st := SendTenBitRead(address, timeout, ph);
      }
      if st == OK {
        PhaseEnds(ph, port);
      }
    }

    /** A wait in the data phase: on failure the transfer is stopped. */
    method AwaitOrStop(flag: Flag, timeout: nat, step: nat, ghost ph: Phase, ghost sent: nat) returns (st: Status)
      requires flag != ACKFAIL && flag != STOPF && flag != STARTF
      requires ph.At(port, sent) && sent < |ph.full| && ph.full[sent] == Seen(flag)
      modifies this`port, this`errorCode
      ensures st == OK || st == ERR_STEP(step)
      ensures SameSetup(old(port), port)
      ensures st == OK ==> ph.At(port, sent + 1) && SamePhase(old(port), port) && errorCode == old(errorCode)
      ensures st == OK && !old(port).rx.inflight ==> port.rx == old(port).rx
      ensures st != OK ==> ph.Lost(port, flag, 1, timeout) && !BusHeld(port.trace)
      ensures st != OK ==> errorCode == ERR_TIMEOUT || errorCode == ERR_ACKFAIL
      ensures old(port).polls < port.polls <= old(port).polls + Patience(old(port).env, timeout)
      ensures old(port).Sees(flag) ==> st == OK
    {
      var wait := Await(flag, CHECK_ACKFAIL, timeout);
      hide Patience, Phase.At, Phase.Lost, Port.Sees, SeenIn, BusHeld, Receiver.Run;
      if wait != OK {
        PhaseLost(ph, old(port), port, sent, flag, wait == ERR_ACKFAIL, timeout);
        ghost var lost := port;
        port := port.StopGenerate();
        PhaseStop(ph, lost, port, flag, 0, timeout);
        return ERR_STEP(step);
      }
      PhaseNext(ph, old(port), port, sent);
      return OK;
    }

    /** One wait in the data phase, as a phase of its own. */
    method AwaitAlone(flag: Flag, timeout: nat, step: nat) returns (st: Status)
      requires flag != ACKFAIL && flag != STOPF && flag != STARTF
      modifies this`port, this`errorCode
      ensures st == OK || st == ERR_STEP(step)
      ensures SameSetup(old(port), port)
      ensures st == OK ==> port.trace == old(port).trace + [Seen(flag)]
      ensures st == OK ==> SamePhase(old(port), port) && errorCode == old(errorCode)
      ensures st == OK && !old(port).rx.inflight ==> port.rx == old(port).rx
      ensures st != OK ==> Stopped(old(port), port, [], [Seen(flag)], flag, timeout)
      ensures st != OK ==> errorCode == ERR_TIMEOUT || errorCode == ERR_ACKFAIL
      ensures old(port).polls < port.polls <= old(port).polls + Patience(old(port).env, timeout)
      ensures old(port).Sees(flag) ==> st == OK
    {
      ghost var ph := Phase(port.trace, [Seen(flag)], port.polls);
      PhaseBegins(ph, port);
      hide Patience, Phase.At, Phase.Lost, Stopped, BusHeld, Port.Sees;
      st := AwaitOrStop(flag, timeout, step, ph, 0);
      if st == OK {
        PhaseEnds(ph, port);
      } else {
        PhaseStopped(ph, old(port), port, flag, timeout);
      }
    }

    /** One turn of the data loop: wait for the data register, write one byte. */
    method SendByte(b: Byte, timeout: nat, step: nat, ghost ph: Phase, ghost sent: nat) returns (st: Status)
      requires ph.At(port, sent) && sent + 1 < |ph.full| && ph.full[sent] == Seen(TDBE) && ph.full[sent + 1] == Write(b)
      requires Sending(port)
      modifies this`port, this`errorCode
      ensures st == OK || st == ERR_STEP(step)
      ensures SameSetup(old(port), port)
      ensures st == OK ==> ph.At(port, sent + 2) && Sending(port) && errorCode == old(errorCode)
      ensures st == OK && !old(port).rx.inflight ==> port.rx == old(port).rx
      ensures st != OK ==> ph.Lost(port, TDBE, 1, timeout) && !BusHeld(port.trace) && errorCode != OK
      ensures old(port).polls <= port.polls <= old(port).polls + Patience(old(port).env, timeout)
      ensures Answering(old(port).env) ==> st == OK
    {
      hide Patience, Receiver.Run, Receiver.Shift, Phase.At, Phase.Lost, BusHeld;
      st := AwaitOrStop(TDBE, timeout, step, ph, sent);
      if st == OK {
        AccessKeeps(port);
        ghost var empty := port;
        port := port.DataSend(b);
        PhaseNext(ph, empty, port, sent + 1);
      }
    }

    /** The data loop of a transmit and of a memory write. */
    method SendAll(pdata: array<Byte>, size: nat, timeout: nat, step: nat) returns (st: Status)
      requires size <= pdata.Length && Sending(port)
      modifies this`port, this`errorCode
      ensures st == OK || st == ERR_STEP(step)
      ensures SameSetup(old(port), port)
      ensures st == OK ==> port.trace == old(port).trace + Sends(pdata[..size]) && Sending(port)
      ensures st == OK ==> errorCode == old(errorCode)
      ensures st == OK && !old(port).rx.inflight ==> port.rx == old(port).rx
      ensures st != OK ==> Stopped(old(port), port, [], Sends(pdata[..size]), TDBE, timeout) && errorCode != OK
      ensures old(port).polls <= port.polls <= old(port).polls + Polls(size, Patience(old(port).env, timeout))
      ensures Answering(old(port).env) ==> st == OK
    {
      ghost var ph := Phase(port.trace, Sends(pdata[..size]), port.polls);
      PhaseBegins(ph, port);
      hide Patience, Receiver.Run, Receiver.Shift, Phase.At, Phase.Lost, Stopped, BusHeld, Answering, Polls, Sends;
      ghost var each := Patience(port.env, timeout);
      var left, i := size, 0;
      PollsMean(0, size, each);
      while left > 0
        invariant i + left == size && errorCode == old(errorCode)
        invariant ph.At(port, 2 * i)
        invariant SameSetup(old(port), port) && Sending(port)
        invariant !old(port).rx.inflight ==> port.rx == old(port).rx
        invariant old(port).polls <= port.polls <= old(port).polls + Polls(i, each)
      {
        SendsAt(pdata[..size], i);
        PollsMean(i, size, each);
        st := SendByte(pdata[i], timeout, step, ph, 2 * i);
        if st != OK {
          PhaseStopped(ph, old(port), port, TDBE, timeout);
          return;
        }
        i := i + 1;
        left := left - 1;
      }
      PhaseEnds(ph, port);
      return OK;
    }

    /** How every blocking transfer begins: note the buffer, wait for a free bus, choose ACK_CURRENT. */
    method Begin(pdata: array<Byte>, size: nat, timeout: nat) returns (st: Status)
      modifies this`port, this`errorCode, this`pbuff, this`pos, this`pcount
      ensures pbuff == pdata && pos == 0 && pcount == size
      ensures st == if BusFree(old(port), timeout) then OK else ERR_STEP(1)
      ensures Opened(old(port), port, st)
      ensures st == OK ==> port.trace == old(port).trace + [Seen(BUSYF)]
      ensures st == OK ==> old(port).rx.Keeps(port.rx)
      ensures errorCode == if st == OK then OK else ERR_TIMEOUT
      ensures old(port).polls < port.polls <= old(port).polls + Patience(old(port).env, timeout)
      ensures st != OK ==> port.polls == old(port).polls + timeout + 1
      ensures Answering(old(port).env) ==> st == OK
    {
      hide Patience, SeenIn;
      pbuff, pos, pcount := pdata, 0, size;
      errorCode := OK;
      st := Await(BUSYF, CHECK_NONE, timeout);
      if st != OK {
        return ERR_STEP(1);
      }
      LaterKeeps(old(port), port);
      AccessKeeps(port);
      port := port.ReceiveAckSet(false);
    }

    /** How a transfer that writes first begins; one that will read sets the ack bit as well. */
    method OpenWrite(address: bv16, pdata: array<Byte>, size: nat, timeout: nat, reading: bool) returns (st: Status)
      modifies this`port, this`errorCode, this`pbuff, this`pos, this`pcount
      ensures pbuff == pdata && pos == 0 && pcount == size
      ensures st == OK || st == ERR_STEP(1) || st == ERR_STEP(2)
      ensures st == ERR_STEP(1) <==> !BusFree(old(port), timeout)
      ensures st == OK <==> errorCode == OK
      ensures OpenedWrite(old(port), port, st, reading)
      ensures st == OK ==> port.trace == old(port).trace + Opening(port.config.tenBit, address) && Sending(port)
      ensures st == OK ==> port.rx == Fresh(port.left) && old(port).rx.Keeps(port.rx)
      ensures st == ERR_STEP(2) ==>
                Stopped(old(port), port, [Seen(BUSYF)], WriteHeader(port.config.tenBit, address), FlagOf(errorCode),
                        timeout)
      ensures old(port).polls < port.polls <= old(port).polls + 4 * Patience(old(port).env, timeout)
      ensures Answering(old(port).env) ==> st == OK
    {
      hide Patience, Receiver.Run, Phase.Lost, BusHeld, WriteHeader, BusFree;
      st := Begin(pdata, size, timeout);
      if st != OK {
        return;
      }
      if reading {
        AccessKeeps(port);
        port := port.AckEnable(true);
      }
      ghost var free := port;
      st := WriteAddr(address, timeout);
      if st != OK {
        StopAddress(WriteHeader(port.config.tenBit, address), st, timeout, old(port), free);
        return ERR_STEP(2);
      }
      AccessKeeps(port);
      port := port.FlagClear(ADDR7F);
      OpeningIs(old(port).trace, port.config.tenBit, address);
    }

    /** An address that failed after the bus was found free: STOP. */
    method StopAddress(ghost header: seq<Event>, ghost code: Status, ghost timeout: nat, ghost start: Port,
                       ghost free: Port)
      requires Phase(free.trace, header, free.polls).Lost(port, FlagOf(code), 0, timeout)
      requires free.trace == start.trace + [Seen(BUSYF)] && free.polls >= start.polls
      modifies this`port
      ensures port == old(port).StopGenerate()
      ensures Stopped(start, port, [Seen(BUSYF)], header, FlagOf(code), timeout)
    {
      hide Patience, Receiver.Run, Phase.Lost, BusHeld, Stopped, FlagOf;
      ghost var ph, lost := Phase(free.trace, header, free.polls), port;
      port := port.StopGenerate();
      PhaseStop(ph, lost, port, FlagOf(code), 0, timeout);
      PhaseStopped(ph, free, port, FlagOf(code), timeout);
      StoppedLater(start, free, port, [Seen(BUSYF)], [], header, FlagOf(code), timeout);
      assert [Seen(BUSYF)] + [] == [Seen(BUSYF)];
    }

    method MasterTransmit(address: bv16, pdata: array<Byte>, size: nat, timeout: nat) returns (st: Status)
      requires size <= pdata.Length && size < 0x1_0000
      modifies this`port, this`errorCode, this`pbuff, this`pos, this`pcount
      ensures pbuff == pdata && pos == 0 && pcount == size
      ensures st == OK || (st.ERR_STEP? && 1 <= st.step <= 4)
      ensures st == ERR_STEP(1) <==> !BusFree(old(port), timeout)
      ensures st == OK <==> errorCode == OK
      ensures OpenedWrite(old(port), port, st, false)
      // success: every wait answered, in its place
      ensures st == OK ==>
                port.trace == old(port).trace + Opening(port.config.tenBit, address) + Written(pdata[..size])
      // failure: the step tells which wait, and the bus is stopped
      ensures st == ERR_STEP(2) ==>
                Stopped(old(port), port, [Seen(BUSYF)], WriteHeader(port.config.tenBit, address), FlagOf(errorCode),
                        timeout)
      ensures st == ERR_STEP(3) || st == ERR_STEP(4) ==>
                Stopped(old(port), port, Opening(port.config.tenBit, address), Written(pdata[..size]),
                        if st == ERR_STEP(3) then TDBE else TDC, timeout)
      ensures st == OK ==> old(port).rx.Keeps(port.rx)
      ensures st != ERR_STEP(1) ==> !BusHeld(port.trace)
      ensures port.polls <= old(port).polls + (size + 5) * Patience(old(port).env, timeout)
      ensures Answering(old(port).env) ==> st == OK
    {
      hide Patience, Receiver.Run, Aborted, BusHeld, WriteHeader, BusFree, Opening, Written, Polls;
      Budget(size, 5, Patience(port.env, timeout));
      st := OpenWrite(address, pdata, size, timeout, false);
      if st == OK {
        ghost var begun := port;
        st := SendAndStop(pdata, size, timeout, 3);
        if st != OK {
          StoppedAfter(old(port), begun, port, Opening(port.config.tenBit, address), Written(pdata[..size]),
                       if st == ERR_STEP(3) then TDBE else TDC, timeout);
        }
      }
    }

    /** The data phase of a transmit and of a memory write. */
    method SendAndStop(pdata: array<Byte>, size: nat, timeout: nat, step: nat) returns (st: Status)
      requires size <= pdata.Length && Sending(port)
      modifies this`port, this`errorCode
      ensures st == OK || st == ERR_STEP(step) || st == ERR_STEP(step + 1)
      ensures SameSetup(old(port), port)
      ensures st == OK ==> port.trace == old(port).trace + Written(pdata[..size]) && errorCode == old(errorCode)
      ensures st == OK && !old(port).rx.inflight ==> old(port).rx.Keeps(port.rx)
      ensures st != OK ==>
                Stopped(old(port), port, [], Written(pdata[..size]), if st == ERR_STEP(step) then TDBE else TDC,
                        timeout)
      ensures st != OK ==> errorCode != OK
      ensures !BusHeld(port.trace)
      ensures old(port).polls <= port.polls
      ensures port.polls <= old(port).polls + Polls(size, Patience(old(port).env, timeout))
                            + Patience(old(port).env, timeout)
      ensures Answering(old(port).env) ==> st == OK
    {
      hide Patience, Receiver.Run, Stopped, BusHeld, Sends, Polls;
      ghost var data := Sends(pdata[..size]);
      WrittenIs(port.trace, pdata[..size]);
      st := SendAll(pdata, size, timeout, step);
      if st != OK {
        StoppedLonger(old(port), port, [], data, [Seen(TDC), Stop], TDBE, timeout);
        StoppedReleased(old(port), port, [], Written(pdata[..size]), TDBE, timeout);
        return;
      }
      ghost var sent := port;
      st := AwaitAlone(TDC, timeout, step + 1);
      if st != OK {
        StoppedAfter(old(port), sent, port, data, [Seen(TDC)], TDC, timeout);
        StoppedInside(old(port), port, data, [Seen(TDC)], [Stop], TDC, timeout);
        StoppedReleased(old(port), port, [], Written(pdata[..size]), TDC, timeout);
        return;
      }
      AccessKeeps(port);
      ghost var last := port.trace;
      port := port.StopGenerate();
      HeldAppend(last, Stop);
    }

    /** The wait of a read step: on failure the transfer is stopped, and what has come in stays in the slots. */
    method AwaitSlot(flag: Flag, timeout: nat, step: nat) returns (st: Status)
      requires flag == RDBF || flag == TDC
      modifies this`port, this`errorCode
      ensures Stepped(old(port), port, st, step, timeout)
      ensures st == OK ==> Waited(old(port), port, flag, OK) && errorCode == old(errorCode)
      ensures st != OK ==> port.trace == old(port).trace + [Stop] && SameSetup(old(port), port)
      ensures st != OK ==> errorCode == ERR_TIMEOUT
      ensures st != OK && old(port).Chained() && !old(port).rx.Quiet() ==> Abandoned(port, old(port).rx.taken)
      ensures old(port).Sees(flag) ==> st == OK
      ensures timeout == 0 && !old(port).Sees(flag) ==>
                st != OK && port == old(port).FlagGet(flag).StopGenerate()
    {
      hide Port.Chained, Receiver.Run, Receiver.Quiet, Abandoned, Port.Sees, SeenIn;
      st := Await(flag, CHECK_NONE, timeout);
      if st != OK {
        GivenUp(old(port), port);
        port := port.StopGenerate();
        return ERR_STEP(step);
      }
    }

    /** Wait, then read one byte of a stream. */
    method ReadNext(ghost i: nat, timeout: nat, step: nat) returns (st: Status, b: Byte)
      requires port.env.faithful ==> port.Streaming(i)
      modifies this`port, this`errorCode
      ensures Stepped(old(port), port, st, step, timeout) && SameSetup(old(port), port)
      ensures Prompt(old(port).env) ==> st == OK
      ensures st == OK ==> port.trace == old(port).trace + [Seen(RDBF), Read(b)] && errorCode == old(errorCode)
      ensures port.env.faithful ==>
                if st == OK then port.Streaming(i + 1) && port.rx.taken == old(port).rx.taken + [b]
                else Abandoned(port, old(port).rx.taken)
      ensures st != OK ==> port.trace == old(port).trace + [Stop] && errorCode == ERR_TIMEOUT
    {
      hide Port.Streaming, Port.DataReceive, Receiver.Run, Abandoned, Prompt, Port.Sees, Waited;
      if port.env.faithful {
        StreamingFacts(port, i);
      }
      if Prompt(port.env) {
        StreamingSeen(port, i, RDBF);
      }
      st := AwaitSlot(RDBF, timeout, step);
      b := 0;
      if st != OK {
        return;
      }
      WaitedSetup(old(port), port, RDBF);
      if port.env.faithful {
        NextTaken(old(port), port, i);
      }
      b := TakeByte();
    }

    /** Three bytes left: with both slots full, refuse acknowledgement and read one. */
    method ReadTurn(ghost n: nat, timeout: nat, step: nat) returns (st: Status, b: Byte)
      requires n >= 3 && (port.env.faithful ==> port.Streaming(n - 3))
      modifies this`port, this`errorCode
      ensures Stepped(old(port), port, st, step, timeout) && port.env == old(port).env && port.left == old(port).left
      ensures port.config == if st == OK then old(port).config.(acken := false) else old(port).config
      ensures Prompt(old(port).env) ==> st == OK
      ensures Slow(old(port), timeout) ==> st != OK && port.rx.dr.Some?
      ensures st == OK ==> port.trace == old(port).trace + [Seen(TDC), Read(b)] && errorCode == old(errorCode)
      ensures port.env.faithful ==>
                if st == OK then port.Ending(n, false) && port.rx.taken == old(port).rx.taken + [b]
                else Abandoned(port, old(port).rx.taken)
      ensures st != OK ==> port.trace == old(port).trace + [Stop] && errorCode == ERR_TIMEOUT
    {
      hide Port.Streaming, Port.Ending, Port.DataReceive, Receiver.Run, Abandoned, Prompt, Port.Sees, Slow, Waited;
      if port.env.faithful {
        StreamingFacts(port, n - 3);
      }
      if Prompt(port.env) {
        StreamingSeen(port, n - 3, TDC);
      }
      if Slow(port, timeout) {
        SlowMisses(port, timeout);
      }
      st := AwaitSlot(TDC, timeout, step);
      b := 0;
      if st != OK {
        return;
      }
      WaitedSetup(old(port), port, TDC);
      if port.env.faithful {
        TurnTaken(old(port), port, n);
      }
      port := port.AckEnable(false);
      b := TakeByte();
    }

    /** Two bytes left: with both slots full, STOP and read both. */
    method ReadLast(ghost n: nat, ghost lastAck: bool, timeout: nat, step: nat) returns (st: Status, b: Byte, c: Byte)
      requires n >= 2 && (port.env.faithful ==> port.Ending(n, lastAck))
      modifies this`port, this`errorCode
      ensures Stepped(old(port), port, st, step, timeout) && SameSetup(old(port), port)
      ensures Prompt(old(port).env) ==> st == OK
      ensures st == OK ==> port.trace == old(port).trace + [Seen(TDC), Stop, Read(b), Read(c)]
      ensures st == OK ==> errorCode == old(errorCode)
      ensures port.env.faithful ==>
                if st == OK then Done(port, old(port).rx.taken + [b, c], lastAck)
                else Abandoned(port, old(port).rx.taken)
      ensures st != OK ==> port.trace == old(port).trace + [Stop] && errorCode == ERR_TIMEOUT
    {
      hide Port.Ending, Port.DataReceive, Receiver.Run, Abandoned, Done, Prompt, Port.Sees, Waited;
      if port.env.faithful {
        EndingFacts(port, n, lastAck);
      }
      if Prompt(port.env) {
        EndingSeen(port, n, lastAck);
      }
      st := AwaitSlot(TDC, timeout, step);
      b, c := 0, 0;
      if st != OK {
        return;
      }
      WaitedSetup(old(port), port, TDC);
      if port.env.faithful {
        LastTaken(old(port), port, n, lastAck);
      }
      b, c := StopAndTakeTwo();
    }

    /** One read of the data register. */
    method TakeByte() returns (b: Byte)
      modifies this`port
      ensures (b, port) == old(port).DataReceive()
      ensures SameSetup(old(port), port) && port.polls == old(port).polls && port.trace == old(port).trace + [Read(b)]
    {
      var (c, p) := port.DataReceive();
      b, port := c, p;
    }

    method StopAndTakeTwo() returns (b: Byte, c: Byte)
      modifies this`port
      ensures var (b', p) := old(port).StopGenerate().DataReceive(); b == b' && (c, port) == p.DataReceive()
      ensures SameSetup(old(port), port) && port.polls == old(port).polls
      ensures port.trace == old(port).trace + [Stop, Read(b), Read(c)]
    {
      hide Port.DataReceive, Receiver.Run;
      port := port.StopGenerate();
      b := TakeByte();
      c := TakeByte();
    }

    /** One byte, already stopped; it is the one left over, if there is one, and else a refused one. */
    method ReadOnly(timeout: nat, step: nat) returns (st: Status, b: Byte)
      requires port.env.faithful ==> OneLeft(port)
      modifies this`port, this`errorCode
      ensures Stepped(old(port), port, st, step, timeout) && SameSetup(old(port), port)
      ensures Prompt(old(port).env) ==> st == OK
      ensures old(port).env.faithful && old(port).left.Some? ==> st == OK
      ensures st == OK ==> port.trace == old(port).trace + [Seen(RDBF), Read(b)] && errorCode == old(errorCode)
      ensures port.env.faithful ==> if st == OK then Done(port, [b], false) else Abandoned(port, [])
      ensures st != OK ==> port.trace == old(port).trace + [Stop] && errorCode == ERR_TIMEOUT
    {
      hide Port.DataReceive, Receiver.Run, OneLeft, Abandoned, Done, Prompt, Port.Sees, Waited;
      if port.env.faithful {
        OneLeftFacts(port);
      }
      if Prompt(port.env) {
        OneLeftSeen(port);
      }
      st := AwaitSlot(RDBF, timeout, step);
      b := 0;
      if st != OK {
        return;
      }
      WaitedSetup(old(port), port, RDBF);
      if port.env.faithful {
        OnlyTaken(old(port), port);
      }
      b := TakeByte();
    }

    /** The last one, two or three bytes, after those of `head`. */
    method ReadTail(left: nat, ghost size: nat, timeout: nat, step: nat, ghost lastAck: bool,
                    ghost before: seq<Event>, ghost head: seq<Byte>)
      returns (st: Status, bs: seq<Byte>)
      requires 1 <= left <= 3 && |head| + left == size && (left < 3 ==> head == [])
      requires port.trace == before + Fetches(size, head)
      requires port.env.faithful ==> Ready(port, left, size, lastAck)
      modifies this`port, this`errorCode
      ensures st == OK || (st.ERR_STEP? && step <= st.step <= step + 3)
      ensures SameButAck(old(port), port)
      ensures |bs| <= left && (st == OK ==> |bs| == left)
      ensures port.trace == before + Fetches(size, head + bs) + if st == OK then [] else [Stop]
      ensures errorCode == if st == OK then old(errorCode) else ERR_TIMEOUT
      ensures port.env.faithful ==> Settled(port, st, old(port).rx.taken + bs, lastAck)
      ensures st != OK ==> FailedAt(st.step - step, left, |bs|) && port.polls > old(port).polls + timeout
      ensures old(port).polls <= port.polls <= old(port).polls + (if left == 3 then 2 else 1) * (timeout + 1)
      ensures Prompt(old(port).env) ==> st == OK
      ensures left == 1 && old(port).env.faithful && old(port).left.Some? ==> st == OK
      ensures left == 3 && Slow(old(port), timeout) ==> st == ERR_STEP(step + 2) && port.rx.dr.Some?
    {
      hide Port.Streaming, Port.Ending, Receiver.Run, OneLeft, Ready, Abandoned, Done, Prompt, Slow, Fetches;
      bs := [];
      assert head + bs == head;
      if port.env.faithful {
        ReadyTail(port, left, size, lastAck);
      }
      if left == 1 {
        var b;
        st, b := ReadOnly(timeout, step);
        if st == OK {
          bs := [b];
          FetchOnly(before, b);
        }
        assert port.env.faithful ==> old(port).rx.taken + bs == bs;
      } else if left == 2 {
        var b, c;
        st, b, c := ReadLast(size, lastAck, timeout, step + 1);
        if st == OK {
          bs := [b, c];
          FetchTwo(before, size, head, b, c);
        }
        assert st != OK ==> old(port).rx.taken + bs == old(port).rx.taken;
      } else {
        st, bs := ReadThree(size, timeout, step + 2, before, head);
      }
    }

    /** The last three bytes of a longer read. */
    method ReadThree(ghost size: nat, timeout: nat, step: nat, ghost before: seq<Event>, ghost head: seq<Byte>)
      returns (st: Status, bs: seq<Byte>)
      requires |head| + 3 == size && port.trace == before + Fetches(size, head)
      requires port.env.faithful ==> port.Streaming(size - 3)
      modifies this`port, this`errorCode
      ensures st == OK || (st.ERR_STEP? && step <= st.step <= step + 1)
      ensures SameButAck(old(port), port)
      ensures |bs| == if st == OK then 3 else st.step - step
      ensures port.trace == before + Fetches(size, head + bs) + if st == OK then [] else [Stop]
      ensures errorCode == if st == OK then old(errorCode) else ERR_TIMEOUT
      ensures port.env.faithful ==> Settled(port, st, old(port).rx.taken + bs, false)
      ensures st != OK ==> port.polls > old(port).polls + timeout
      ensures old(port).polls <= port.polls <= old(port).polls + 2 * (timeout + 1)
      ensures Prompt(old(port).env) ==> st == OK
      ensures Slow(old(port), timeout) ==> st == ERR_STEP(step) && port.rx.dr.Some?
    {
      hide Port.Streaming, Port.Ending, Receiver.Run, Abandoned, Done, Prompt, Slow, Fetches;
      var b, c, d;
      bs := [];
      st, b := ReadTurn(size, timeout, step);
      if st == OK {
        bs := [b];
        FetchTurn(before, size, head, b);
        ghost var turned := port.trace;
        st, c, d := ReadLast(size, false, timeout, step + 1);
        if st == OK {
          bs := [b, c, d];
          assert old(port).rx.taken + [b] + [c, d] == old(port).rx.taken + bs && head + [b] + [c, d] == head + bs;
          FetchTwo(before, size, head + [b], c, d);
        }
      } else {
        assert old(port).rx.taken + bs == old(port).rx.taken && head + bs == head;
      }
    }

    /** The turns of the data loop with more than three bytes left. */
    method ReadHead(pdata: array<Byte>, size: nat, timeout: nat, step: nat, ghost lastAck: bool)
      returns (st: Status, i: nat, ghost read: seq<Byte>)
      requires size <= pdata.Length
      requires port.env.faithful ==> Ready(port, size, size, lastAck)
      modifies this`port, this`errorCode, pdata
      ensures st == OK || st == ERR_STEP(step)
      ensures SameSetup(old(port), port)
      ensures i == |read| <= size && pdata[..] == read + old(pdata[..])[i..]
      ensures port.trace == old(port).trace + Fetches(size, read) + if st == OK then [] else [Stop]
      ensures errorCode == if st == OK then old(errorCode) else ERR_TIMEOUT
      ensures st == OK ==> i == if size > 3 then size - 3 else 0
      ensures size <= 3 ==> st == OK && port == old(port)
      ensures port.env.faithful ==>
                if st == OK then Ready(port, size - i, size, lastAck) && port.rx.taken == read
                else Abandoned(port, read)
      ensures st != OK ==> i + 3 < size && port.polls > old(port).polls + timeout
      ensures old(port).polls <= port.polls
              <= old(port).polls + Polls(i, timeout + 1) + (if st == OK then 0 else timeout + 1)
      ensures Prompt(old(port).env) ==> st == OK
    {
      hide Port.Streaming, Receiver.Run, Abandoned, Prompt, Ready, Polls, Fetches;
      st, i, read := OK, 0, [];
      ghost var each := timeout + 1;
      PollsMean(0, size, each);
      FetchNone(port.trace, size);
      if port.env.faithful {
        ReadyFacts(port, size, size, lastAck);
      }
      while size - i > 3
        invariant i == |read| && (i == 0 || 3 <= size - i) && errorCode == old(errorCode)
        invariant forall j :: 0 <= j < pdata.Length ==> pdata[j] == if j < i then read[j] else old(pdata[j])
        invariant SameSetup(old(port), port) && (i == 0 ==> port == old(port))
        invariant port.env.faithful ==> Ready(port, size - i, size, lastAck) && port.rx.taken == read
        invariant port.trace == old(port).trace + Fetches(size, read)
        invariant old(port).polls <= port.polls <= old(port).polls + Polls(i, each)
      {
        var b;
        PollsMean(i, size, each);
        if port.env.faithful {
          ReadyStreaming(port, size - i, size, lastAck);
        }
        st, b := ReadNext(i, timeout, step);
        if st != OK {
          return;
        }
        if port.env.faithful {
          ReadyStreaming(port, size - i - 1, size, lastAck);
        }
        FetchEarly(old(port).trace, size, read, b);
        pdata[i] := b;
        read := read + [b];
        i := i + 1;
      }
      return OK, i, read;
    }

    /** The last bytes, read and stored behind the first i. */
    method ReadRest(pdata: array<Byte>, i: nat, size: nat, timeout: nat, step: nat, ghost lastAck: bool,
                    ghost before: seq<Event>, ghost head: seq<Byte>)
      returns (st: Status, bs: seq<Byte>)
      requires i == |head| < size <= pdata.Length && size - i <= 3 && (size - i < 3 ==> i == 0)
      requires port.trace == before + Fetches(size, head)
      requires port.env.faithful ==> Ready(port, size - i, size, lastAck)
      modifies this`port, this`errorCode, pdata
      ensures st == OK || (st.ERR_STEP? && step <= st.step <= step + 3)
      ensures SameButAck(old(port), port)
      ensures i + |bs| <= size && pdata[..] == old(pdata[..])[..i] + bs + old(pdata[..])[i + |bs|..]
      ensures st == OK ==> i + |bs| == size
      ensures port.trace == before + Fetches(size, head + bs) + if st == OK then [] else [Stop]
      ensures errorCode == if st == OK then old(errorCode) else ERR_TIMEOUT
      ensures port.env.faithful ==> Settled(port, st, old(port).rx.taken + bs, lastAck)
      ensures st != OK ==> FailedAt(st.step - step, size - i, |bs|) && port.polls > old(port).polls + timeout
      ensures old(port).polls <= port.polls <= old(port).polls + (if size - i == 3 then 2 else 1) * (timeout + 1)
      ensures Prompt(old(port).env) ==> st == OK
      ensures size - i == 1 && old(port).env.faithful && old(port).left.Some? ==> st == OK
      ensures size - i == 3 && Slow(old(port), timeout) ==> st == ERR_STEP(step + 2) && port.rx.dr.Some?
    {
      hide Receiver.Run, Settled, Abandoned, Prompt, Slow, Ready, FailedAt, SameButAck, Fetches;
      st, bs := ReadTail(size - i, size, timeout, step, lastAck, before, head);
      Store(pdata, i, bs);
    }

    /** The data loop of a receive and of a memory read. */
    method ReceiveBytes(pdata: array<Byte>, size: nat, timeout: nat, step: nat, ghost lastAck: bool)
      returns (st: Status, ghost read: seq<Byte>)
      requires size <= pdata.Length
      requires port.env.faithful ==> Ready(port, size, size, lastAck)
      modifies this`port, this`errorCode, pdata
      ensures st == OK || (st.ERR_STEP? && step <= st.step <= step + 4)
      ensures SameButAck(old(port), port)
      ensures |read| <= size && pdata[..] == read + old(pdata[..])[|read|..]
      ensures st == OK ==> |read| == size
      ensures port.trace == old(port).trace + Fetches(size, read) + if st == OK then [] else [Stop]
      ensures errorCode == if st == OK then old(errorCode) else ERR_TIMEOUT
      ensures port.env.faithful ==> Settled(port, st, read, lastAck)
      ensures st != OK ==> FailedAt(st.step - step, size, |read|) && port.polls > old(port).polls + timeout
      ensures old(port).polls <= port.polls <= old(port).polls + Polls(size, timeout + 1)
      ensures Prompt(old(port).env) ==> st == OK
      ensures size == 1 && old(port).env.faithful && old(port).left.Some? ==> st == OK
      ensures size == 3 && Slow(old(port), timeout) ==> st == ERR_STEP(step + 2) && port.rx.dr.Some?
    {
      hide Receiver.Run, Settled, Abandoned, Prompt, Slow, Ready, FailedAt, Polls, Fetches;
      var i, bs;
      st, i, read := ReadHead(pdata, size, timeout, step + 4, lastAck);
      ghost var head := read;
      if st != OK {
        PollsMean(i, size, timeout + 1);
        FailedHead(size, i);
        if port.env.faithful {
          NotRead(port, st, read, lastAck);
        }
        return;
      }
      if i == size {
        if port.env.faithful {
          NothingRead(port, lastAck);
        }
        return;
      }
      TailPolls(i, size, timeout + 1);
      st, bs := ReadRest(pdata, i, size, timeout, step, lastAck, old(port).trace, head);
      Spliced(head, old(pdata[..]), bs);
      read := head + bs;
      if st != OK {
        FailedLater(st.step - step, size, i, |bs|);
      }
    }

    /** The bytes of a tail, in the order they were read. */
    method Store(pdata: array<Byte>, i: nat, bs: seq<Byte>)
      requires i + |bs| <= pdata.Length
      modifies pdata
      ensures pdata[..] == old(pdata[..])[..i] + bs + old(pdata[..])[i + |bs|..]
    {
      for k := 0 to |bs|
        invariant forall j :: 0 <= j < pdata.Length ==>
                    pdata[j] == if i <= j < i + k then bs[j - i] else old(pdata[j])
      {
        pdata[i + k] := bs[k];
      }
    }

    /** Releases the clock of a polled read, the ack bit set for its size first. */
    method ArmReceive(size: nat)
      requires Addressed(port)
      modifies this`port
      ensures port == ArmPolling(old(port), size)
      ensures Armed(old(port), port, size) && Ready(port, size, size, PolledAck(old(port), size))
    {
      ArmPollingReady(port, size);
      hide Ready, PolledAck, Receiver.Run;
      if size == 1 {
        port := port.AckEnable(false);
        port := port.FlagClear(ADDR7F);
        port := port.StopGenerate();
      } else if size == 2 {
        port := port.ReceiveAckSet(true);
        port := port.AckEnable(false);
        port := port.FlagClear(ADDR7F);
      } else {
        port := port.AckEnable(true);
        port := port.FlagClear(ADDR7F);
      }
    }

    /** How a transfer that reads at once begins. */
    method OpenRead(address: bv16, pdata: array<Byte>, size: nat, timeout: nat) returns (st: Status)
      modifies this`port, this`errorCode, this`pbuff, this`pos, this`pcount
      ensures pbuff == pdata && pos == 0 && pcount == size
      ensures st == OK || st == ERR_STEP(1) || st == ERR_STEP(2)
      ensures st == OK <==> errorCode == OK
      ensures st == ERR_STEP(1) <==> !BusFree(old(port), timeout)
      ensures OpenedWrite(old(port), port, st, true)
      ensures st == OK ==> Addressed(port)
      ensures st == OK ==> port.trace == old(port).trace + [Seen(BUSYF)] + ReadHeader(port.config.tenBit, address)
      ensures st == OK ==> old(port).rx.Keeps(port.rx)
      ensures st == ERR_STEP(2) ==>
                Stopped(old(port), port, [Seen(BUSYF)], ReadHeader(port.config.tenBit, address), FlagOf(errorCode),
                        timeout)
      ensures old(port).polls < port.polls <= old(port).polls + 6 * Patience(old(port).env, timeout)
      ensures Answering(old(port).env) ==> st == OK
    {
      hide Patience, Receiver.Run, Phase.Lost, BusHeld, ReadHeader, Answering, BusFree;
      st := Begin(pdata, size, timeout);
      if st != OK {
        return;
      }
      AccessKeeps(port);
      port := port.AckEnable(true);
      ghost var free := port;
      st := ReadAddr(address, timeout);
      if st != OK {
        StopAddress(ReadHeader(port.config.tenBit, address), st, timeout, old(port), free);
        return ERR_STEP(2);
      }
    }

    method MasterReceive(address: bv16, pdata: array<Byte>, size: nat, timeout: nat)
      returns (st: Status, ghost read: seq<Byte>)
      requires size <= pdata.Length && size < 0x1_0000
      modifies this`port, this`errorCode, this`pbuff, this`pos, this`pcount, pdata
      ensures pbuff == pdata && pos == 0 && pcount == size
      ensures st == OK || (st.ERR_STEP? && 1 <= st.step <= 7)
      ensures st == OK <==> errorCode == OK
      ensures st == ERR_STEP(1) <==> !BusFree(old(port), timeout)
      ensures st == ERR_STEP(1) ==> port.trace == old(port).trace && SameSetup(old(port), port)
      ensures |read| <= size && pdata[..] == read + old(pdata[..])[|read|..]
      // success: the whole transfer, every wait answered in its place, stopped once
      ensures st == OK ==>
                |read| == size
                && port.trace == old(port).trace + [Seen(BUSYF)] + ReadTransfer(port.config.tenBit, address, size, read)
      // what is stored is the wire's bytes, refused exactly at the last one, if and only if no byte was left over
      ensures st == OK && port.env.faithful && size > 0 ==> (Finished(port, read, false) <==> port.left.None?)
      // and a byte left over comes first
      ensures st == OK && port.env.faithful ==> Accounted(port, read)
      ensures st == OK && port.env.faithful && size >= 2 ==> Complete(port, read, size == 2 && port.left.Some?)
      ensures st == OK || (st.ERR_STEP? && st.step >= 3) ==> Inherited(old(port), port.left)
      // a failure while reading tells how many bytes were read, and leaves the
      // receiver busy: what came in has been read or waits
      ensures st.ERR_STEP? && st.step >= 3 ==> FailedAt(st.step - 3, size, |read|)
      ensures st.ERR_STEP? && st.step >= 3 && port.env.faithful ==> Accounted(port, read) && !port.rx.Quiet()
      ensures TooSlow(old(port), size, timeout) ==> st == ERR_STEP(5) && port.rx.dr.Some?
      // failure: what went out is the beginning of such a transfer, then STOP
      ensures st == ERR_STEP(2) ==>
                read == []
                && Stopped(old(port), port, [Seen(BUSYF)], ReadHeader(port.config.tenBit, address), FlagOf(errorCode),
                           timeout)
      ensures st.ERR_STEP? && st.step >= 3 ==>
                port.trace == old(port).trace + [Seen(BUSYF)] + ReadTransfer(port.config.tenBit, address, size, read)
                              + [Stop]
                && port.polls > old(port).polls + timeout
      ensures st != ERR_STEP(1) ==> (BusHeld(port.trace) <==> st == OK && size == 0)
      ensures port.env == old(port).env && port.polls <= old(port).polls + (size + 6) * (timeout + 1)
      ensures st == ERR_STEP(2) ==> port.polls <= old(port).polls + 6 * Patience(port.env, timeout)
      ensures Prompt(old(port).env) ==> st == OK
      ensures Answering(old(port).env) && port.env.faithful && size == 1 && old(port).rx.dr.Some? ==> st == OK
    {
      hide Receiver.Run, Receiver.Quiet, Accounted, Settled, Finished, Complete, Ready, Armed, Slow, Fetches;
      hide BusHeld, ReadTransfer, Answering, Prompt, Aborted, BusFree, Polls;
      hide ReadHeader, Addressed, TooSlow, PolledAck, ArmPolling, Inherited, FailedAt;
      read := [];
      Budget(size, 6, timeout + 1);
      Answers(port, size, timeout);
      st := OpenRead(address, pdata, size, timeout);
      if st != OK {
        return;
      }
      ghost var addressed := port;
      AddressedLeft(old(port), port);
      ArmReceive(size);
      ArmedFacts(addressed, port, size);
      if TooSlow(old(port), size, timeout) {
        TooSlowArmed(old(port), addressed, size, timeout);
      }
      st, read := ReceiveBytes(pdata, size, timeout, 3, PolledAck(addressed, size));
      if port.env.faithful {
        PolledOutcome(port, addressed, st, read, size);
      }
      TransferDone(old(port).trace + [Seen(BUSYF)], port.config.tenBit, address, size, read);
    }

    method MemoryAddressSend(width: Width, memAddress: bv16, timeout: nat) returns (st: Status)
      requires Sending(port)
      modifies this`port, this`errorCode
      ensures st == OK || st == ERR_ACKFAIL || st == ERR_TIMEOUT
      ensures SameSetup(old(port), port) && errorCode == if st == OK then old(errorCode) else st
      ensures st == OK ==> port.trace == old(port).trace + MemoryHeader(width, memAddress) && Sending(port)
      ensures st == OK && !old(port).rx.inflight ==> port.rx == old(port).rx
      ensures st != OK ==> Stopped(old(port), port, [], MemoryHeader(width, memAddress), TDBE, timeout)
      ensures old(port).polls <= port.polls <= old(port).polls + Patience(old(port).env, timeout)
      ensures Answering(old(port).env) ==> st == OK
    {
      ghost var ph := Phase(port.trace, MemoryHeader(width, memAddress), port.polls);
      PhaseBegins(ph, port);
      hide Patience, Receiver.Run, Phase.At, Phase.Lost, Stopped, BusHeld, Low, High;
      if width == WIDTH_8 {
        AccessKeeps(port);
        port := port.DataSend(Low(memAddress));
        PhaseNext(ph, old(port), port, 0);
      } else {
        AccessKeeps(port);
        port := port.DataSend(High(memAddress));
        PhaseNext(ph, old(port), port, 0);
        var wait := AwaitOrStop(TDBE, timeout, 0, ph, 1);
        if wait != OK {
          PhaseStopped(ph, old(port), port, TDBE, timeout);
          return errorCode;
        }
        AccessKeeps(port);
        ghost var empty := port;
        port := port.DataSend(Low(memAddress));
        PhaseNext(ph, empty, port, 2);
      }
      PhaseEnds(ph, port);
      return OK;
    }

    /** Room for the memory address, and the memory address. */
    method SelectMemory(width: Width, memAddress: bv16, timeout: nat) returns (st: Status)
      requires Sending(port)
      modifies this`port, this`errorCode
      ensures st == OK || st == ERR_STEP(3) || st == ERR_STEP(4)
      ensures SameSetup(old(port), port)
      ensures st == OK ==> Sending(port)
      ensures st == OK ==> port.trace == old(port).trace + ([Seen(TDBE)] + MemoryHeader(width, memAddress))
      ensures st == OK && !old(port).rx.inflight ==> port.rx == old(port).rx
      ensures if st == OK then errorCode == old(errorCode) else errorCode != OK
      ensures st == ERR_STEP(3) ==> Stopped(old(port), port, [], [Seen(TDBE)], TDBE, timeout)
      ensures st == ERR_STEP(4) ==> Stopped(old(port), port, [Seen(TDBE)], MemoryHeader(width, memAddress), TDBE,
                                            timeout)
      ensures old(port).polls <= port.polls <= old(port).polls + 2 * Patience(old(port).env, timeout)
      ensures Answering(old(port).env) ==> st == OK
    {
      hide Patience, Receiver.Run, Stopped, MemoryHeader, BusHeld;
      st := AwaitAlone(TDBE, timeout, 3);
      if st != OK {
        return;
      }
      ghost var empty := port;
      st := MemoryAddressSend(width, memAddress, timeout);
      if st != OK {
        StoppedAfter(old(port), empty, port, [Seen(TDBE)], MemoryHeader(width, memAddress), TDBE, timeout);
        return ERR_STEP(4);
      }
    }

    /** What a memory write and a memory read have in common: device and memory address. */
    method OpenMemory(width: Width, address: bv16, memAddress: bv16, pdata: array<Byte>, size: nat,
                      timeout: nat, reading: bool)
      returns (st: Status)
      modifies this`port, this`errorCode, this`pbuff, this`pos, this`pcount
      ensures pbuff == pdata && pos == 0 && pcount == size
      ensures st == OK || (st.ERR_STEP? && 1 <= st.step <= 4)
      ensures st == ERR_STEP(1) <==> !BusFree(old(port), timeout)
      ensures st == OK <==> errorCode == OK
      ensures OpenedWrite(old(port), port, st, reading)
      ensures st == OK ==> Sending(port)
      ensures st == OK ==>
                port.trace == old(port).trace + MemoryOpening(port.config.tenBit, address, width, memAddress)
      ensures st == OK ==> port.rx == Fresh(port.left) && old(port).rx.Keeps(port.rx)
      ensures MemoryLost(old(port), port, st, errorCode, address, width, memAddress, timeout)
      ensures old(port).polls < port.polls <= old(port).polls + 6 * Patience(old(port).env, timeout)
      ensures Answering(old(port).env) ==> st == OK
    {
      hide Patience, Receiver.Run, Stopped, WriteHeader, MemoryHeader, BusHeld, BusFree, Opening, MemoryOpening, FlagOf;
      hide Receiver.Keeps;
      ghost var opening := Opening(port.config.tenBit, address);
      st := OpenWrite(address, pdata, size, timeout, reading);
      if st != OK {
        return;
      }
      ghost var begun := port;
      st := SelectMemory(width, memAddress, timeout);
      if st == ERR_STEP(3) {
        StoppedAfter(old(port), begun, port, opening, [Seen(TDBE)], TDBE, timeout);
      } else if st == ERR_STEP(4) {
        StoppedLater(old(port), begun, port, opening, [Seen(TDBE)], MemoryHeader(width, memAddress), TDBE, timeout);
      } else {
        MemoryOpeningIs(old(port).trace, port.config.tenBit, address, width, memAddress);
      }
    }

    method MemoryWrite(width: Width, address: bv16, memAddress: bv16, pdata: array<Byte>, size: nat, timeout: nat)
      returns (st: Status)
      requires size <= pdata.Length && size < 0x1_0000
      modifies this`port, this`errorCode, this`pbuff, this`pos, this`pcount
      ensures pbuff == pdata && pos == 0 && pcount == size
      ensures st == OK || (st.ERR_STEP? && 1 <= st.step <= 6)
      ensures st == ERR_STEP(1) <==> !BusFree(old(port), timeout)
      ensures st == OK <==> errorCode == OK
      ensures OpenedWrite(old(port), port, st, false)
      // success: every wait answered, in its place
      ensures st == OK ==>
                port.trace == old(port).trace + MemoryOpening(port.config.tenBit, address, width, memAddress)
                              + Written(pdata[..size])
      // failure: the step tells which wait, and the bus is stopped
      ensures MemoryLost(old(port), port, st, errorCode, address, width, memAddress, timeout)
      ensures st == ERR_STEP(5) || st == ERR_STEP(6) ==>
                Stopped(old(port), port, MemoryOpening(port.config.tenBit, address, width, memAddress),
                        Written(pdata[..size]), if st == ERR_STEP(5) then TDBE else TDC, timeout)
      ensures st == OK ==> old(port).rx.Keeps(port.rx)
      ensures st != ERR_STEP(1) ==> !BusHeld(port.trace)
      ensures port.polls <= old(port).polls + (size + 7) * Patience(old(port).env, timeout)
      ensures Answering(old(port).env) ==> st == OK
    {
      hide Patience, Receiver.Run, Stopped, BusHeld, MemoryOpening, Written, BusFree, MemoryLost, Polls;
      Budget(size, 7, Patience(port.env, timeout));
      st := OpenMemory(width, address, memAddress, pdata, size, timeout, false);
      LostReleased(old(port), port, st, errorCode, address, width, memAddress, timeout);
      if st == OK {
        ghost var begun, opening := port, MemoryOpening(port.config.tenBit, address, width, memAddress);
        st := SendAndStop(pdata, size, timeout, 5);
        NotLost(old(port), port, st, errorCode, address, width, memAddress, timeout);
        if st != OK {
          StoppedAfter(old(port), begun, port, opening, Written(pdata[..size]),
                       if st == ERR_STEP(5) then TDBE else TDC, timeout);
        }
      }
    }

    /** Releases the clock of a memory read: for two bytes before the ack bit is cleared. */
    method ArmMemoryRead(size: nat)
      requires Addressed(port)
      modifies this`port
      ensures port == ArmReleased(old(port), size)
      ensures Armed(old(port), port, size) && Ready(port, size, size, ReleasedAck(old(port), size))
    {
      ArmReleasedReady(port, size);
      hide Ready, ReleasedAck, Receiver.Run;
      if size == 1 {
        port := port.AckEnable(false);
        port := port.FlagClear(ADDR7F);
        port := port.StopGenerate();
      } else if size == 2 {
        port := port.ReceiveAckSet(true);
        port := port.FlagClear(ADDR7F);
        port := port.AckEnable(false);
      } else {
        port := port.AckEnable(true);
        port := port.FlagClear(ADDR7F);
      }
    }

    /** The memory address sent, and room for the next byte. */
    method OpenMemoryData(width: Width, address: bv16, memAddress: bv16, pdata: array<Byte>, size: nat,
                          timeout: nat, reading: bool)
      returns (st: Status)
      modifies this`port, this`errorCode, this`pbuff, this`pos, this`pcount
      ensures pbuff == pdata && pos == 0 && pcount == size
      ensures st == OK || (st.ERR_STEP? && 1 <= st.step <= 5)
      ensures st == ERR_STEP(1) <==> !BusFree(old(port), timeout)
      ensures st == OK <==> errorCode == OK
      ensures OpenedWrite(old(port), port, st, reading)
      ensures st == OK ==> port.rx == Fresh(port.left) && old(port).rx.Keeps(port.rx)
      ensures st == OK ==> Sending(port)
      ensures st == OK ==>
                port.trace == old(port).trace + MemoryOpening(port.config.tenBit, address, width, memAddress)
                              + [Seen(TDBE)]
      ensures MemoryLost(old(port), port, st, errorCode, address, width, memAddress, timeout)
      ensures st == ERR_STEP(5) ==>
                Stopped(old(port), port, MemoryOpening(port.config.tenBit, address, width, memAddress),
                        [Seen(TDBE)], TDBE, timeout)
      ensures st != OK && st != ERR_STEP(1) ==> !BusHeld(port.trace)
      ensures old(port).polls < port.polls <= old(port).polls + 7 * Patience(old(port).env, timeout)
      ensures Answering(old(port).env) ==> st == OK
    {
      hide Patience, Receiver.Run, Receiver.Keeps, Stopped, BusHeld, MemoryOpening, BusFree, MemoryLost;
      ghost var opening := MemoryOpening(port.config.tenBit, address, width, memAddress);
      st := OpenMemory(width, address, memAddress, pdata, size, timeout, reading);
      LostReleased(old(port), port, st, errorCode, address, width, memAddress, timeout);
      if st == OK {
        ghost var begun := port;
        st := AwaitAlone(TDBE, timeout, 5);
        NotLost(old(port), port, st, errorCode, address, width, memAddress, timeout);
        if st != OK {
          StoppedAfter(old(port), begun, port, opening, [Seen(TDBE)], TDBE, timeout);
          StoppedReleased(old(port), port, opening, [Seen(TDBE)], TDBE, timeout);
        }
      }
    }

    /** A memory read up to its read address; the polled one sets the ack bit at the start. */
    method OpenMemoryRead(width: Width, address: bv16, memAddress: bv16, pdata: array<Byte>, size: nat,
                          timeout: nat, reading: bool)
      returns (st: Status)
      modifies this`port, this`errorCode, this`pbuff, this`pos, this`pcount
      ensures pbuff == pdata && pos == 0 && pcount == size
      ensures st == OK || (st.ERR_STEP? && 1 <= st.step <= 6)
      ensures st == ERR_STEP(1) <==> !BusFree(old(port), timeout)
      ensures st == OK <==> errorCode == OK
      ensures OpenedWrite(old(port), port, st, reading || st == OK || st == ERR_STEP(6))
      ensures st == OK ==>
                Addressed(port)
                && port.trace == old(port).trace + MemoryReadOpening(port.config.tenBit, address, width, memAddress)
                                 + ReadHeader(port.config.tenBit, address)
      ensures MemoryReadLost(old(port), port, st, errorCode, address, width, memAddress, timeout)
      ensures st == OK ==> old(port).rx.Keeps(port.rx)
      ensures st != OK && st != ERR_STEP(1) ==> !BusHeld(port.trace)
      ensures old(port).polls < port.polls <= old(port).polls + 12 * Patience(old(port).env, timeout)
      ensures Answering(old(port).env) ==> st == OK
    {
      hide Patience, Receiver.Run, BusHeld, Stopped, MemoryOpening, ReadHeader, BusFree, MemoryLost, Phase.Lost, FlagOf;
      ghost var header := ReadHeader(port.config.tenBit, address);
      ghost var opening := MemoryReadOpening(port.config.tenBit, address, width, memAddress);
      st := OpenMemoryData(width, address, memAddress, pdata, size, timeout, reading);
      if st != OK {
        return;
      }
      ghost var begun := port;
      st := ReadAddr(address, timeout);
      if st != OK {
        ghost var lost, ph := port, Phase(begun.trace, header, begun.polls);
        port := port.StopGenerate();
        PhaseStop(ph, lost, port, FlagOf(st), 0, timeout);
        PhaseStopped(ph, begun, port, FlagOf(st), timeout);
        StoppedAfter(old(port), begun, port, opening, header, FlagOf(st), timeout);
        NotLost(old(port), port, ERR_STEP(6), errorCode, address, width, memAddress, timeout);
        return ERR_STEP(6);
      }
      NotReadLost(old(port), port, OK, errorCode, address, width, memAddress, timeout);
    }

    /** `armed` is the port as the read address phase leaves it, when it is reached. */
    method MemoryRead(width: Width, address: bv16, memAddress: bv16, pdata: array<Byte>, size: nat, timeout: nat)
      returns (st: Status, ghost read: seq<Byte>, ghost armed: Port)
      requires size <= pdata.Length && size < 0x1_0000
      modifies this`port, this`errorCode, this`pbuff, this`pos, this`pcount, pdata
      ensures pbuff == pdata && pos == 0 && pcount == size
      ensures st == OK || (st.ERR_STEP? && 1 <= st.step <= 11)
      ensures st == OK <==> errorCode == OK
      ensures st == ERR_STEP(1) <==> !BusFree(old(port), timeout)
      ensures port.env == old(port).env && (st == ERR_STEP(1) ==> port.trace == old(port).trace)
      ensures |read| <= size && pdata[..] == read + old(pdata[..])[|read|..]
      ensures var opening := MemoryReadOpening(port.config.tenBit, address, width, memAddress);
              var transfer := ReadTransfer(port.config.tenBit, address, size, read);
              // success: the memory address, then a whole read, every wait answered in its place, stopped once
              && (st == OK ==> |read| == size && port.trace == old(port).trace + opening + transfer)
              && (st == OK ==> Addressed(armed) && armed.env == port.env)
              && (st == OK ==> armed.trace == old(port).trace + opening + ReadHeader(port.config.tenBit, address))
              // failure: the step tells which wait, and the bus is stopped
              && (st.ERR_STEP? && st.step <= 6 ==> read == [])
              && (st.ERR_STEP? && st.step >= 7 ==> port.trace == old(port).trace + opening + transfer + [Stop])
              && (st.ERR_STEP? && st.step >= 7 ==> port.polls > old(port).polls + timeout)
      ensures MemoryReadLost(old(port), port, st, errorCode, address, width, memAddress, timeout)
      // what is stored is the wire's bytes alone if and only if no byte was left over
      ensures st == OK && port.env.faithful && size > 0 ==>
                (Finished(port, read, Overtaken(armed, size)) <==> port.left.None?)
      // and a byte left over comes first
      ensures st == OK && port.env.faithful ==> Accounted(port, read)
      ensures st == OK && port.env.faithful && size >= 2 ==>
                Complete(port, read, size == 2 && (port.left.Some? || Overtaken(armed, size)))
      ensures st == OK || (st.ERR_STEP? && st.step >= 7) ==> Inherited(old(port), port.left)
      // a failure while reading tells how many bytes were read, and leaves the
      // receiver busy: what came in has been read or waits
      ensures st.ERR_STEP? && st.step >= 7 ==> FailedAt(st.step - 7, size, |read|)
      ensures st.ERR_STEP? && st.step >= 7 && port.env.faithful ==> Accounted(port, read) && !port.rx.Quiet()
      ensures st != ERR_STEP(1) ==> (BusHeld(port.trace) <==> st == OK && size == 0)
      ensures port.polls <= old(port).polls + (size + 12) * (timeout + 1)
      ensures st.ERR_STEP? && st.step <= 6 ==> port.polls <= old(port).polls + 12 * Patience(port.env, timeout)
      ensures Prompt(old(port).env) ==> st == OK
      ensures Answering(old(port).env) && port.env.faithful && size == 1 && old(port).rx.dr.Some? ==> st == OK
    {
      hide Receiver.Run, Receiver.Quiet, Accounted, Settled, Finished, Complete, Ready, Armed, Slow, BusHeld, Fetches;
      hide ReadTransfer, Answering, Prompt, Aborted, ReadHeader, Addressed, ReleasedAck, Overtaken, BusFree, Polls;
      hide ArmReleased, MemoryReadOpening, MemoryReadLost, Inherited, FailedAt;
      read, armed := [], port;
      Budget(size, 12, timeout + 1);
      Answers(port, size, timeout);
      st := OpenMemoryRead(width, address, memAddress, pdata, size, timeout, true);
      if st != OK {
        return;
      }
      armed := port;
      AddressedLeft(old(port), port);
      ArmMemoryRead(size);
      ArmedFacts(armed, port, size);
      st, read := ReceiveBytes(pdata, size, timeout, 7, ReleasedAck(armed, size));
      if port.env.faithful {
        ReleasedOutcome(port, armed, st, read, size);
      }
      NotReadLost(old(port), port, st, errorCode, address, width, memAddress, timeout);
      TransferDone(old(port).trace + MemoryReadOpening(port.config.tenBit, address, width, memAddress),
                   port.config.tenBit, address, size, read);
    }

    // ---- interrupt-driven transfers

    ghost function State(): Transfer
      reads this, pbuff
    {
      Transfer(port, pbuff[..], pos, pcount, status)
    }

    /** On success the transfer is in a state every schedule of interrupts completes (I2cIsr.TransmitInterrupts). */
    method MasterTransmitInt(address: bv16, pdata: array<Byte>, size: nat, timeout: nat) returns (st: Status)
      requires size <= pdata.Length && size < 0x1_0000
      modifies this
      ensures pbuff == pdata && pos == 0 && pcount == size
      ensures mode == INT_MA_TX && status == START && this.timeout == timeout
      ensures st == OK || st == ERR_STEP(1) || st == ERR_STEP(2)
      ensures st == ERR_STEP(1) <==> !BusFree(old(port), timeout)
      ensures st == OK <==> errorCode == OK
      ensures st == OK ==>
                Transmitting(State(), pdata[..], size, old(port).trace + Opening(port.config.tenBit, address))
      ensures st == OK ==> old(port).rx.Keeps(port.rx)
      ensures st == ERR_STEP(1) ==> port.trace == old(port).trace
      ensures st == ERR_STEP(2) ==>
                Stopped(old(port), port, [Seen(BUSYF)], WriteHeader(port.config.tenBit, address), FlagOf(errorCode),
                        timeout)
      ensures port.polls <= old(port).polls + 4 * Patience(old(port).env, timeout)
      ensures Answering(old(port).env) ==> st == OK
    {
      hide Patience, Receiver.Run, Stopped, BusHeld, WriteHeader, Opening, Answering, BusFree;
      mode, status := INT_MA_TX, START;
      this.timeout := timeout;
      st := OpenWrite(address, pdata, size, timeout, false);
      if st != OK {
        return;
      }
      IntsQuiet(port, ALL_INTS, true);
      port := port.InterruptEnable(ALL_INTS, true);
      assert Sends(pdata[..][..0]) == [];
    }

    /** On success the transfer starts as I2cIsr.ReceiveInterrupts assumes, from the addressed port `armed`. */
    method MasterReceiveInt(address: bv16, pdata: array<Byte>, size: nat, timeout: nat)
      returns (st: Status, ghost armed: Port)
      requires size <= pdata.Length && size < 0x1_0000
      modifies this
      ensures pbuff == pdata && mode == INT_MA_RX && this.timeout == timeout
      ensures st == OK || st == ERR_STEP(1) || st == ERR_STEP(2)
      ensures st == ERR_STEP(1) <==> !BusFree(old(port), timeout)
      ensures st == OK <==> errorCode == OK
      ensures st == OK ==>
                Addressed(armed) && armed.env == old(port).env
                && armed.trace == old(port).trace + [Seen(BUSYF)] + ReadHeader(armed.config.tenBit, address)
                && State() == RxStart(armed, pdata[..], size)
      ensures st == OK ==> Inherited(old(port), armed.left)
      ensures st == ERR_STEP(1) ==> port.trace == old(port).trace
      ensures st == ERR_STEP(2) ==>
                Stopped(old(port), port, [Seen(BUSYF)], ReadHeader(port.config.tenBit, address), FlagOf(errorCode),
                        timeout)
      ensures port.polls <= old(port).polls + 6 * Patience(old(port).env, timeout)
      ensures Answering(old(port).env) ==> st == OK
    {
      hide Patience, Receiver.Run, Stopped, BusHeld, ReadHeader, Answering, Addressed;
      hide Armed, Ready, ReleasedAck, ArmReleased, BusFree;
      mode, status := INT_MA_RX, START;
      this.timeout := timeout;
      armed := port;
      st := OpenRead(address, pdata, size, timeout);
      if st != OK {
        return;
      }
      armed := port;
      AddressedLeft(old(port), port);
      ArmMemoryRead(pcount);
      ArmedFacts(armed, port, size);
      port := port.InterruptEnable(ALL_INTS, true);
    }

    /** On success the transfer starts as I2cIsr.TransmitInterrupts assumes, after the memory address. */
    method MemoryWriteInt(width: Width, address: bv16, memAddress: bv16, pdata: array<Byte>, size: nat, timeout: nat)
      returns (st: Status)
      requires size <= pdata.Length && size < 0x1_0000
      modifies this
      ensures pbuff == pdata && mode == INT_MA_TX && status == START && this.timeout == timeout
      ensures st == OK || (st.ERR_STEP? && 1 <= st.step <= 5)
      ensures st == ERR_STEP(1) <==> !BusFree(old(port), timeout)
      ensures st == OK <==> errorCode == OK
      ensures st == OK ==>
                Transmitting(State(), pdata[..], size,
                             old(port).trace + MemoryOpening(port.config.tenBit, address, width, memAddress)
                             + [Seen(TDBE)])
      ensures MemoryLost(old(port), port, st, errorCode, address, width, memAddress, timeout)
      ensures st == ERR_STEP(5) ==>
                Stopped(old(port), port, MemoryOpening(port.config.tenBit, address, width, memAddress),
                        [Seen(TDBE)], TDBE, timeout)
      ensures st == OK ==> old(port).rx.Keeps(port.rx)
      ensures st == ERR_STEP(1) ==> port.trace == old(port).trace
      ensures st != OK && st != ERR_STEP(1) ==> !BusHeld(port.trace)
      ensures port.polls <= old(port).polls + 7 * Patience(old(port).env, timeout)
      ensures Answering(old(port).env) ==> st == OK
    {
      hide Patience, Receiver.Run, Stopped, BusHeld, MemoryOpening, Answering, BusFree, MemoryLost;
      mode, status := INT_MA_TX, START;
      this.timeout := timeout;
      st := OpenMemoryData(width, address, memAddress, pdata, size, timeout, false);
      if st != OK {
        return;
      }
      IntsQuiet(port, ALL_INTS, true);
      ghost var begun := port;
      port := port.InterruptEnable(ALL_INTS, true);
      NotLost(old(port), port, OK, errorCode, address, width, memAddress, timeout);
      assert Sends(pdata[..][..0]) == [];
    }

    /** On success the transfer starts as I2cIsr.ReceiveInterrupts assumes, after the memory address. */
    method MemoryReadInt(width: Width, address: bv16, memAddress: bv16, pdata: array<Byte>, size: nat, timeout: nat)
      returns (st: Status, ghost armed: Port)
      requires size <= pdata.Length && size < 0x1_0000
      modifies this
      ensures pbuff == pdata && mode == INT_MA_RX && this.timeout == timeout
      ensures st == OK || (st.ERR_STEP? && 1 <= st.step <= 6)
      ensures st == ERR_STEP(1) <==> !BusFree(old(port), timeout)
      ensures st == OK <==> errorCode == OK
      ensures st == OK ==>
                Addressed(armed) && armed.env == old(port).env
                && armed.trace == old(port).trace + MemoryReadOpening(port.config.tenBit, address, width, memAddress)
                                  + ReadHeader(port.config.tenBit, address)
                && State() == RxStart(armed, pdata[..], size)
      ensures MemoryReadLost(old(port), port, st, errorCode, address, width, memAddress, timeout)
      ensures st == OK ==> Inherited(old(port), armed.left)
      ensures st == ERR_STEP(1) ==> port.trace == old(port).trace
      ensures st != OK && st != ERR_STEP(1) ==> !BusHeld(port.trace)
      ensures port.polls <= old(port).polls + 12 * Patience(old(port).env, timeout)
      ensures Answering(old(port).env) ==> st == OK
    {
      hide Patience, Receiver.Run, Stopped, BusHeld, ReadHeader, Answering, Addressed, BusFree;
      hide Armed, Ready, ReleasedAck, ArmReleased, MemoryReadOpening, MemoryReadLost;
      mode, status := INT_MA_RX, START;
      this.timeout := timeout;
      armed := port;
      st := OpenMemoryRead(width, address, memAddress, pdata, size, timeout, false);
      if st != OK {
        return;
      }
      armed := port;
      AddressedLeft(old(port), port);
      ArmMemoryRead(pcount);
      ArmedFacts(armed, port, size);
      port := port.InterruptEnable(ALL_INTS, true);
      NotReadLost(old(port), port, OK, errorCode, address, width, memAddress, timeout);
    }

    method MasterTxIsr()
      requires pcount == 0 || pos < pbuff.Length
      modifies this`port, this`pos, this`pcount, this`status
      ensures State() == old(State()).TxIsr()
    {
      hide Receiver.Run;
      var empty := port.Value(TDBE);
      port := port.FlagGet(TDBE);
      if empty {
        if pcount == 0 {
          status := END;
          port := port.InterruptEnable(ALL_INTS, false);
          port := port.StopGenerate();
        } else {
          port := port.DataSend(pbuff[pos]);
          pos := pos + 1;
          pcount := pcount - 1;
        }
      }
    }

    /** Stores one received byte and counts it. */
    method ReadIn()
      requires pos < pbuff.Length
      modifies this`port, this`pos, this`pcount, pbuff
      ensures State() == old(State()).ReadIn() && pbuff == old(pbuff)
    {
      hide Port.DataReceive;
      var b := TakeByte();
      pbuff[pos] := b;
      pos := pos + 1;
      pcount := if pcount == 0 then 0xFFFF else pcount - 1;
    }

    /** The handler stays inside the buffer in every reachable state: ReceiveInterrupts gives pos + pcount == n. */
    method MasterRxIsr()
      requires State().RxIsr().pos <= pbuff.Length
      modifies this`port, this`pos, this`pcount, this`status, pbuff
      ensures State() == old(State()).RxIsr() && pbuff == old(pbuff)
    {
      hide Receiver.Run, Port.DataReceive;
      var full := port.Value(TDC);
      port := port.FlagGet(TDC);
      if full {
        if pcount == 3 {
          port := port.AckEnable(false);
          ReadIn();
        } else if pcount == 2 {
          port := port.StopGenerate();
          ReadIn();
          ReadIn();
          status := END;
          port := port.InterruptEnable(ALL_INTS, false);
        } else {
          ReadIn();
        }
      } else {
        var ready := port.Value(RDBF);
        port := port.FlagGet(RDBF);
        if ready {
          if pcount > 3 {
            ReadIn();
          } else if pcount == 3 || pcount == 2 {
            port := port.InterruptEnable(Sources(false, true, false), false);
          } else {
            ReadIn();
            status := END;
            port := port.InterruptEnable(ALL_INTS, false);
          }
        }
      }
    }
  }

  /**
   * With no time to wait, a read of three bytes gives up and leaves the one
   * byte that came; the next read succeeds and stores that byte, not its own.
   */
  method StaleRead(h: Handle, address: bv16, buf: array<Byte>)
    returns (first: Status, second: Status, ghost abandoned: Port)
    requires Trickling(h.port.env) && h.port.rx.Quiet() && buf.Length >= 3
    modifies h, buf
    ensures first == ERR_STEP(5) && abandoned.rx.wire != [] && abandoned.rx.dr == Some(abandoned.rx.wire[0].b)
    ensures second == OK && buf[0] == abandoned.rx.wire[0].b && !Finished(h.port, [buf[0]], false)
  {
    hide Trickling, Finished, Accounted, Receiver.Quiet, TooSlow;
    ghost var read;
    TrickleAnswers(h.port);
    first, read := h.MasterReceive(address, buf, 3, 0);
    abandoned := h.port;
    FirstIsWire(abandoned);
    second, read := h.MasterReceive(address, buf, 1, 0);
    assert read == [buf[0]];
    LeftFirst(h.port, buf[0]);
  }

  lemma TrickleAnswers(p: Port)
    requires Trickling(p.env) && p.rx.Quiet()
    ensures TooSlow(p, 3, 0) && Answering(p.env) && p.env.faithful
  {
  }

  /** A read given up before its first byte, with no byte left over, holds the first byte of its wire. */
  lemma FirstIsWire(p: Port)
    requires Accounted(p, []) && p.left.None? && p.rx.dr.Some?
    ensures p.rx.wire != [] && p.rx.dr == Some(p.rx.wire[0].b)
  {
    assert [] + Held(p.rx.dr) + Held(p.rx.sr) == Held(p.left) + Bytes(p.rx.wire) == Bytes(p.rx.wire);
    assert Bytes(p.rx.wire)[0] == p.rx.dr.value;
  }

  /** The first byte read is the byte left over. */
  lemma LeftFirst(p: Port, b: Byte)
    requires Accounted(p, [b]) && p.left.Some?
    ensures b == p.left.value
  {
    assert ([b] + Held(p.rx.dr) + Held(p.rx.sr))[0] == (Held(p.left) + Bytes(p.rx.wire))[0];
  }

  /** What an address phase carries from the port it began with. */
  ghost predicate Inherited(p: Port, left: Option<Byte>) {
    (p.rx.Quiet() ==> left.None?) && (p.rx.dr.Some? ==> left == p.rx.dr)
  }

  lemma AddressedLeft(p: Port, q: Port)
    requires Addressed(q) && p.rx.Keeps(q.rx)
    ensures Inherited(p, q.left) && (p.rx.dr.Some? ==> q.left.Some?)
  {
  }

  /** When the address phases cannot fail. */
  lemma Answers(p: Port, size: nat, timeout: nat)
    ensures Prompt(p.env) || TooSlow(p, size, timeout) ==> Answering(p.env)
    ensures TooSlow(p, size, timeout) ==> size == 3
  {
  }

  lemma TooSlowArmed(p: Port, q: Port, size: nat, timeout: nat)
    requires TooSlow(p, size, timeout) && Addressed(q) && q.env == p.env && Inherited(p, q.left)
    ensures Slow(ArmPolling(q, size), timeout)
  {
    ArmSlow(q, size);
  }

  lemma PolledOutcome(p: Port, armed: Port, st: Status, read: seq<Byte>, n: nat)
    requires Settled(p, st, read, PolledAck(armed, n)) && p.left == armed.left && (st == OK ==> |read| == n)
    ensures Accounted(p, read)
    ensures st == OK && n > 0 ==> (Finished(p, read, false) <==> p.left.None?)
    ensures st == OK && n >= 2 ==> Complete(p, read, n == 2 && p.left.Some?)
    ensures st != OK ==> !p.rx.Quiet()
  {
    if st == OK {
      DoneMeans(p, read, PolledAck(armed, n), false);
    }
  }

  lemma ReleasedOutcome(p: Port, armed: Port, st: Status, read: seq<Byte>, n: nat)
    requires Settled(p, st, read, ReleasedAck(armed, n)) && p.left == armed.left && (st == OK ==> |read| == n)
    ensures Accounted(p, read)
    ensures st == OK && n > 0 ==> (Finished(p, read, Overtaken(armed, n)) <==> p.left.None?)
    ensures st == OK && n >= 2 ==> Complete(p, read, n == 2 && (p.left.Some? || Overtaken(armed, n)))
    ensures st != OK ==> !p.rx.Quiet()
  {
    if st == OK {
      DoneMeans(p, read, ReleasedAck(armed, n), Overtaken(armed, n));
    }
  }

  /** The driver's configuration of the port, which no transfer step changes behind its back. */
  ghost predicate SameRegisters(p: Port, q: Port) {
    q.env == p.env && q.config == p.config
  }

  /** The same within one transfer: no START in between. */
  ghost predicate SameSetup(p: Port, q: Port) {
    SameRegisters(p, q) && q.left == p.left
  }

  lemma WaitedSetup(p: Port, q: Port, flag: Flag)
    requires Waited(p, q, flag, OK)
    ensures SameSetup(p, q) && q.trace == p.trace + [Seen(flag)]
  {
  }

  /** One polled step of a read: it succeeds or reports its own step, within one wait's polls. */
  ghost predicate Stepped(p: Port, q: Port, st: Status, step: nat, timeout: nat) {
    && (st == OK || st == ERR_STEP(step))
    && p.polls <= q.polls <= p.polls + timeout + 1 && (st != OK ==> q.polls > p.polls + timeout)
  }

  /** The wait of the data phase that failed, counted from its first one, tells how many bytes had been read. */
  predicate FailedAt(wait: int, size: nat, read: nat) {
    || (wait == 0 && size == 1 && read == 0)
    || (wait == 1 && size == 2 && read == 0)
    || (wait == 2 && size == read + 3)
    || (wait == 3 && size == read + 2 && size >= 3)
    || (wait == 4 && size > read + 3)
  }

  lemma FailedLater(wait: int, size: nat, i: nat, read: nat)
    requires i <= size && (i == 0 || size == i + 3)
    ensures FailedAt(wait, size - i, read) ==> FailedAt(wait, size, i + read)
  {
  }

  lemma FailedHead(size: nat, read: nat)
    requires size > read + 3
    ensures FailedAt(4, size, read)
  {
  }

  /** Storing the tail of a read behind its head. */
  lemma Spliced(head: seq<Byte>, buf: seq<Byte>, bs: seq<Byte>)
    requires |head| + |bs| <= |buf|
    ensures var mid := head + buf[|head|..];
      mid[..|head|] + bs + mid[|head| + |bs|..] == (head + bs) + buf[|head + bs|..]
  {
  }

  // ---- the reads of a transfer, one step at a time

  lemma FetchNone(before: seq<Event>, n: nat)
    ensures before + Fetches(n, []) == before
  {
  }

  lemma FetchEarly(before: seq<Event>, n: nat, head: seq<Byte>, b: Byte)
    requires |head| + 3 < n
    ensures before + Fetches(n, head) + [Seen(RDBF), Read(b)] == before + Fetches(n, head + [b])
  {
    FetchSnoc(n, head, b);
    hide Fetches;
  }

  lemma FetchTurn(before: seq<Event>, n: nat, head: seq<Byte>, b: Byte)
    requires |head| + 3 == n
    ensures before + Fetches(n, head) + [Seen(TDC), Read(b)] == before + Fetches(n, head + [b])
  {
    FetchSnoc(n, head, b);
    hide Fetches;
  }

  lemma FetchTwo(before: seq<Event>, n: nat, head: seq<Byte>, b: Byte, c: Byte)
    requires |head| + 2 == n
    ensures before + Fetches(n, head) + [Seen(TDC), Stop, Read(b), Read(c)] == before + Fetches(n, head + [b, c])
  {
    FetchLast(n, head, b, c);
    hide Fetches;
  }

  lemma FetchOnly(before: seq<Event>, b: Byte)
    ensures before + Fetches(1, []) + [Seen(RDBF), Read(b)] == before + Fetches(1, [] + [b])
  {
    FetchSnoc(1, [], b);
    hide Fetches;
  }

  /** Only the ack bit of the configuration may have changed. */
  ghost predicate SameButAck(p: Port, q: Port) {
    q.env == p.env && q.left == p.left && q.config.(acken := p.config.acken) == p.config
  }

  /** The clock has been released for a read of n bytes, and a one-byte read already stopped. */
  ghost predicate Armed(p: Port, q: Port, n: nat) {
    && q.env == p.env && q.polls == p.polls && q.left == p.left
    && q.config == p.config.(acken := n != 1 && n != 2, ackNext := n == 2)
    && q.trace == p.trace + Release(n)
  }

  /** How the clock of a read of n bytes is released; one of a single byte is stopped at once. */
  function Release(n: nat): seq<Event> { [Clear(ADDR7F)] + if n == 1 then [Stop] else [] }

  /** A read of n bytes, as far as the bytes `bs`. */
  function ReadTransfer(tenBit: bool, address: bv16, n: nat, bs: seq<Byte>): seq<Event>
    requires |bs| <= n
  {
    ReadHeader(tenBit, address) + Release(n) + Fetches(n, bs)
  }

  lemma ArmedFacts(p: Port, q: Port, n: nat)
    requires Armed(p, q, n)
    ensures q.env == p.env && q.polls == p.polls && q.left == p.left && q.config.tenBit == p.config.tenBit
    ensures q.trace == p.trace + Release(n)
  {
  }

  /** A read ends with the bus released, unless it read nothing and was not stopped. */
  lemma TransferDone(before: seq<Event>, tenBit: bool, address: bv16, n: nat, bs: seq<Byte>)
    requires |bs| <= n
    ensures var transfer := ReadTransfer(tenBit, address, n, bs);
            && before + ReadHeader(tenBit, address) + Release(n) + Fetches(n, bs) == before + transfer
            && !BusHeld(before + transfer + [Stop])
            && (|bs| == n ==> (BusHeld(before + transfer) <==> n == 0))
  {
    hide ReadHeader, Fetches, BusHeld, Stops;
    HeldAppend(before + ReadTransfer(tenBit, address, n, bs), Stop);
    if |bs| == n {
      var cleared := before + ReadHeader(tenBit, address) + [Clear(ADDR7F)];
      if n == 0 {
        HeldHeader(before, tenBit, address);
        HeldAppend(before + ReadHeader(tenBit, address), Clear(ADDR7F));
        FetchNone(cleared, 0);
        assert before + ReadTransfer(tenBit, address, n, bs) == cleared + Fetches(0, []);
      } else {
        HeldFetches(cleared, bs);
        assert before + ReadTransfer(tenBit, address, n, bs)
               == cleared + (if n == 1 then [Stop] else []) + Fetches(n, bs);
      }
    }
  }

  /** What a transfer that writes does first: a free bus, its address, and the address flag cleared. */
  function Opening(tenBit: bool, address: bv16): seq<Event> {
    [Seen(BUSYF)] + WriteHeader(tenBit, address) + [Clear(ADDR7F)]
  }

  lemma OpeningIs(before: seq<Event>, tenBit: bool, address: bv16)
    ensures before + [Seen(BUSYF)] + WriteHeader(tenBit, address) + [Clear(ADDR7F)] == before + Opening(tenBit, address)
  {
  }

  /** The data of a write, the end of its last byte, and STOP. */
  function Written(bs: seq<Byte>): seq<Event> { Sends(bs) + [Seen(TDC), Stop] }

  lemma WrittenIs(before: seq<Event>, bs: seq<Byte>)
    ensures before + Sends(bs) + [Seen(TDC)] + [Stop] == before + Written(bs)
    ensures [] + Sends(bs) + [Seen(TDC), Stop] == Written(bs) == Sends(bs) + [Seen(TDC)] + [Stop]
  {
  }

  /** The events that select a memory address. */
  function MemoryOpening(tenBit: bool, address: bv16, width: Width, memAddress: bv16): seq<Event> {
    Opening(tenBit, address) + [Seen(TDBE)] + MemoryHeader(width, memAddress)
  }

  lemma MemoryOpeningIs(before: seq<Event>, tenBit: bool, address: bv16, width: Width, memAddress: bv16)
    ensures before + Opening(tenBit, address) + ([Seen(TDBE)] + MemoryHeader(width, memAddress))
            == before + MemoryOpening(tenBit, address, width, memAddress)
  {
  }

  /** The same for a read, which waits for the memory address to go out. */
  function MemoryReadOpening(tenBit: bool, address: bv16, width: Width, memAddress: bv16): seq<Event> {
    MemoryOpening(tenBit, address, width, memAddress) + [Seen(TDBE)]
  }

  /** How a memory transfer fails before its data: in the device address, before the memory address, or within it. */
  ghost predicate MemoryLost(p: Port, q: Port, st: Status, code: Status, address: bv16, width: Width, memAddress: bv16,
                             timeout: nat) {
    var tenBit := p.config.tenBit;
    && (st == ERR_STEP(2) ==> Stopped(p, q, [Seen(BUSYF)], WriteHeader(tenBit, address), FlagOf(code), timeout))
    && (st == ERR_STEP(3) ==> Stopped(p, q, Opening(tenBit, address), [Seen(TDBE)], TDBE, timeout))
    && (st == ERR_STEP(4) ==>
          Stopped(p, q, Opening(tenBit, address) + [Seen(TDBE)], MemoryHeader(width, memAddress), TDBE, timeout))
  }

  /** And a memory read: also waiting for the memory address to go out, or in its read address. */
  ghost predicate MemoryReadLost(p: Port, q: Port, st: Status, code: Status, address: bv16, width: Width,
                                 memAddress: bv16,
                                 timeout: nat) {
    var opening := MemoryOpening(p.config.tenBit, address, width, memAddress);
    && MemoryLost(p, q, st, code, address, width, memAddress, timeout)
    && (st == ERR_STEP(5) ==> Stopped(p, q, opening, [Seen(TDBE)], TDBE, timeout))
    && (st == ERR_STEP(6) ==>
          Stopped(p, q, opening + [Seen(TDBE)], ReadHeader(p.config.tenBit, address), FlagOf(code), timeout))
  }

  lemma LostReleased(p: Port, q: Port, st: Status, code: Status, address: bv16, width: Width, memAddress: bv16,
                     timeout: nat)
    requires MemoryLost(p, q, st, code, address, width, memAddress, timeout)
    ensures st.ERR_STEP? && 2 <= st.step <= 4 ==> !BusHeld(q.trace)
  {
  }

  lemma NotLost(p: Port, q: Port, st: Status, code: Status, address: bv16, width: Width, memAddress: bv16, timeout: nat)
    requires st != ERR_STEP(2) && st != ERR_STEP(3) && st != ERR_STEP(4)
    ensures MemoryLost(p, q, st, code, address, width, memAddress, timeout)
  {
  }

  lemma NotReadLost(p: Port, q: Port, st: Status, code: Status, address: bv16, width: Width, memAddress: bv16,
                    timeout: nat)
    requires st.ERR_STEP? ==> st.step >= 7
    ensures MemoryReadLost(p, q, st, code, address, width, memAddress, timeout)
  {
  }

  ghost predicate SamePhase(p: Port, q: Port) {
    q.addressing == p.addressing && q.receiving == p.receiving
  }

  /** An address with the write bit has been sent. */
  ghost predicate Sending(p: Port) {
    !p.addressing && !p.receiving
  }

  /** A transfer that found the bus busy did nothing; any other has chosen ACK_CURRENT. */
  ghost predicate Opened(p: Port, q: Port, st: Status) {
    && q.env == p.env
    && q.config == (if st == ERR_STEP(1) then p.config else p.config.(ackNext := false))
    && (st == ERR_STEP(1) ==> q.trace == p.trace && q.left == p.left)
  }

  /** The same, when the transfer may also have set the ack bit. */
  ghost predicate OpenedWrite(p: Port, q: Port, st: Status, reading: bool) {
    && q.env == p.env
    && q.config == (if st == ERR_STEP(1) then p.config
                    else p.config.(ackNext := false, acken := reading || p.config.acken))
    && (st == ERR_STEP(1) ==> q.trace == p.trace && q.left == p.left)
  }

  /** The events of a write address, one by one. */
  lemma WriteHeaderIs(tenBit: bool, address: bv16)
    ensures var h := WriteHeader(tenBit, address);
            && |h| == (if tenBit then 6 else 4) && h[0] == Start && h[1] == Seen(STARTF)
            && (if tenBit then
                  && h[2] == Write(Header(address, false)) && h[3] == Seen(ADDRHF)
                  && h[4] == Write(Low(address)) && h[5] == Seen(ADDR7F)
                else
                  h[2] == Write(SevenBit(Low(address), false)) && h[3] == Seen(ADDR7F))
    ensures SevenBit(Low(address), false) & 1 == 0
  {
    hide Low, Header;
  }

  /** The events of a 10-bit read address, one by one. */
  lemma TenBitReadHeader(address: bv16)
    ensures var h := ReadHeader(true, address);
            && |h| == 11 && h[0] == Start && h[1] == Seen(STARTF)
            && h[2] == Write(Header(address, false)) && h[3] == Seen(ADDRHF)
            && h[4] == Write(Low(address)) && h[5] == Seen(ADDR7F) && h[6] == Clear(ADDR7F)
            && h[7] == Start && h[8] == Seen(STARTF) && h[9] == Write(Header(address, true)) && h[10] == Seen(ADDR7F)
  {
    hide Low, Header;
  }

  lemma HeaderWrites(address: bv16)
    ensures Header(address, false) & 1 == 0 && Header(address, true) & 1 == 1
  {
  }

  /** The bus is seen free in time. */
  ghost predicate BusFree(p: Port, timeout: nat) {
    SeenIn(p, BUSYF, CHECK_NONE, timeout)
  }

  /** The polls of n waits. */
  function Polls(n: nat, each: nat): nat { n * each }

  lemma PollsMean(i: nat, n: nat, each: nat)
    requires i <= n
    ensures Polls(0, each) == 0 && Polls(i + 1, each) == Polls(i, each) + each
    ensures i < n ==> Polls(i, each) + each <= Polls(n, each)
  {
    if i < n {
      MorePolls(i, n, each);
    }
  }

  lemma MorePolls(i: nat, n: nat, each: nat)
    requires i < n
    ensures i * each + each <= n * each
  {
    assert (i + 1) * each <= n * each by {
      assert n * each == (i + 1) * each + (n - i - 1) * each;
    }
  }

  lemma Budget(n: nat, k: nat, each: nat)
    ensures (n + k) * each == Polls(n, each) + k * each
  {
  }

  lemma TailPolls(i: nat, n: nat, each: nat)
    requires 1 <= n - i <= 3
    ensures Polls(i, each) + (if n - i == 3 then 2 else 1) * each <= Polls(n, each)
  {
  }
}
