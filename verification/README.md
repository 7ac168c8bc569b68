# Dual-motor FOC firmware: a verified model

This project models the parts of a dual-motor field-oriented-control firmware for the AT32F403A whose
correctness is not visible from reading one function, and proves what they are for.

- **I2C transfers** (`I2cPort`, `I2cWait`, `I2cLog`, `I2cPhase`, `I2cPipeline`, `I2cRead`, `I2cIsr`, `I2cMaster`).
  `Handle` is the library's handle, with the blocking and interrupt-driven master operations as methods. The peripheral
  is a value, `Port`: configuration bits, the receiver, and a trace of what was done in order: START, STOP,
  data-register writes and reads, the polls that showed an awaited flag (`Seen`) and the flags cleared (`Clear`). What
  the driver cannot decide is in `Env`, a record of plain functions: what each flag reads at each access, how many
  bytes the target finishes between two accesses, what an empty data register reads. The contracts of the blocking
  operations give the whole trace: on success every event and every wait in its place, on failure everything up to the
  wait that the status code names, a wait that was refused or polled timeout + 1 times, and STOP; a refusal is not
  waited out (`Patience`). These and the poll counts are for all `Env`, misbehaving hardware included. Theorems about
  what was on the wire assume `Env.faithful`: RDBF and TDC report the two slots of the receiver (data register and
  shift register, the clock stretched when both are full). `TransmitCompletes` assumes that TDBE is always up. The
  ninth bit of each byte is decided as the byte finishes shifting in; with `ackNext` the ack bit governs the byte
  after. Every operation also promises to succeed when nothing goes wrong, so that no body that merely fails would meet
  its contract: writes and addresses when every awaited flag is up (`Answering`), reads when two bytes are always ready
  as well (`Prompt`).
- **Space-vector PWM** (`Svpwm`, `SvpwmLaws`). `SVpwm` with its six sectors is shown to compute one sector-free
  function, `Modulate`, of the three axes; the laws are proved about that function.
- **Control pass** (`Foc`, `PiControl`, `FocControl`): angle reduction, Clarke and Park with their inverses, the
  incremental PI controllers, timer outputs, and one whole pass from encoder and ADC to compare values.
- **fast_sin / fast_cos** (`FastTrig`, `TrigSeries`), **first-order filters** (`Filter`), **ADC sequencer packing**
  (`AdcSequencer`).
- **Delays on a wrapping counter** (`SysTick`). `wk_delay_ms` never returns early at any clock a 32-bit frequency can
  describe, and it returns only if its longest chunk fits the counter. A full chunk does below 336 ticks per
  microsecond, and so at the configured 240 MHz (project/src/at32f403a_407_wk_config.c:70-72).

`float` is modelled by `real`, every constant by its decimal value. Registers of the ADC are `bv32`, bytes `bv8`.
Code that several C functions repeat word for word (opening a transfer, the tail of a read, the rescaling of a sector)
is one method here; every C function keeps a method of its own.

The current controllers are project/bsp/current_control.c, lines 13-33 and 42-68. That file is not UTF-8, so the table
cites the calls of its two functions in FOC.c instead.

Where the code does not do what one would expect, the model follows the code and the exact condition is proved:

- A blocking receive or memory read of size 0 succeeds without a STOP: the bus is left held if and only if it
  succeeded with size 0 (`MasterReceive`, `MemoryRead`).
- `i2c_memory_read` and the interrupt starters clear ADDR7F before the ack bit when two bytes are to be read. The second
  byte is then acknowledged if and only if a byte finishes in between (`Overtaken`) or was left over from before;
  `OvertakenExample` is a run of the first kind.
- Nothing in the library empties the data register before a read, so what it holds at START (`Port.left`) is read as
  the first byte. A blocking read of at least one byte that succeeds stores exactly the bytes of the wire and leaves the
  receiver empty if and only if no byte was left over; otherwise it stores that byte and then the wire's
  (`MasterReceive`, `MemoryRead`). So does an interrupt-driven read of two bytes or more (`ReceiveInterrupts`); in one
  of a single byte the handler can then count below zero (`StaleOverruns`).
- A blocking read that gives up while reading always leaves the receiver busy: every byte that came in has been read or
  waits in a slot, and the step tells how many were read (`Accounted`, `FailedAt`). `StaleRead` is a run in which the
  next read succeeds and stores a byte of the one before. A receiver with empty slots and nothing on its way (`Quiet`)
  hands no byte on, and each operation that succeeds, other than a read of size 0, leaves a quiet receiver quiet:
  `MasterTransmit`, `MemoryWrite`, `MasterReceive`, `MemoryRead`, and with interrupts `MasterTransmitInt`,
  `MemoryWriteInt`, `TransmitQuiet` and `ReceiveInterrupts`.
- An interrupt-driven receive of size 0 underflows `pcount` at its first interrupt (`ZeroUnderflows`).
- `SVpwm` at the zero vector leaves the duties as they were. It agrees with the sector-free formula if and only if
  the input is nonzero or the old duties are already centred (`ZeroVector`); the initial state is not
  (`ZeroVectorFails`).
- FOC.c subtracts phase A's offset from phase B as well: phase B reads zero at zero current if and only if the offsets
  agree (`PhaseBOffset`).
- The q-axis current target that `SetCurrentPIDTar` sets is never followed: the q axis follows the speed controller
  (`CurrentPiControlIq`).
- The limit of 6 that main.c sets on both current controllers lets the two axes together leave the linear range
  (`FirmwareLimitOverruns`); `LimitedLinearly` is a limit that does not.
- `fast_sin` and `fast_cos` take off one half turn too few for arguments in a sliver beyond each odd multiple of M_PI,
  which grows with the argument. While it is narrower than a turn, two arguments whole turns apart reduce to the same
  angle exactly when neither lies in it, or both do on one side of zero (`Periodic`); `PeriodicFails` is a pair that
  does not.

## Model

| member | source | states |
|---|---|---|
| I2cWait.WaitOkIff | middlewares/i2c_application_library/i2c_application.c:184-245 | a wait returns OK exactly if some poll within the budget sees the flag and no earlier poll was followed by a checked event |
| I2cWait.WaitPolls | middlewares/i2c_application_library/i2c_application.c:184-245 | a wait polls its flag at least once and at most timeout + 1 times; TIMEOUT means all of them |
| I2cWait.WaitBrief | middlewares/i2c_application_library/i2c_application.c:184-245 | a wait that minds ACKFAIL polls once if that flag is up, whatever its own flag reads |
| I2cWait.WaitEffect | middlewares/i2c_application_library/i2c_application.c:184-245 | a wait leaves everything but time alone and records only the flag it saw; a failed acknowledge is answered by STOP and its flag cleared; OK on RDBF or TDC means the slots are full |
| I2cWait.WaitStatus | middlewares/i2c_application_library/i2c_application.c:184-245 | only OK, TIMEOUT and the events asked for come back |
| I2cMaster.Handle.WaitFlag | middlewares/i2c_application_library/i2c_application.c:184-245 | the two polling loops compute `Wait`, and a failure is left in error_code |
| I2cLog.HeldMeans | middlewares/i2c_application_library/i2c_application.c:441-475 | the bus is held exactly if the last START has no STOP after it |
| I2cLog.TenBitAddress | middlewares/i2c_application_library/i2c_application.c:305-315 | the two address bytes have the form of section 3.1.11 of UM10204 and the ten address bits come back out of them |
| I2cLog.SevenBitAddress | middlewares/i2c_application_library/i2c_application.c:295-299 | the byte of a 7-bit address is the address with the direction in its low bit |
| I2cLog.MemoryAddress | middlewares/i2c_application_library/i2c_application.c:1256-1279 | the two bytes of a 16-bit memory address, high one first with a wait for TDBE between, give the address back; of an 8-bit one the low byte goes out |
| I2cLog.WriteOnBus | middlewares/i2c_application_library/i2c_application.c:284-328 | what a write address puts on the bus, its waits left out |
| I2cLog.ReadOnBus | middlewares/i2c_application_library/i2c_application.c:337-409 | the same for a read address; a 10-bit one repeats START |
| I2cLog.WrittenOnBus | middlewares/i2c_application_library/i2c_application.c:449-477 | data and STOP on the bus are the same whether TDC was awaited before STOP, as when polling, or TDBE, as by interrupt |
| I2cLog.FetchesOnBus | middlewares/i2c_application_library/i2c_application.c:623-721 | a whole read with its waits left out is n bytes and one STOP, before the last two bytes or the only one |
| I2cMaster.Handle.WriteAddr | middlewares/i2c_application_library/i2c_application.c:284-328 | success does exactly START, the wait for it, the 7- or 10-bit write address and its waits; failure everything up to the flag that the error code names, refused or polled timeout + 1 times |
| I2cMaster.Handle.ReadAddr | middlewares/i2c_application_library/i2c_application.c:337-409 | the same for a read address, including the repeated START of 10-bit addressing |
| I2cMaster.Handle.SendTenBitRead | middlewares/i2c_application_library/i2c_application.c:359-408 | the 10-bit branch of a read address, with its four waits |
| I2cMaster.Handle.OpenWrite | middlewares/i2c_application_library/i2c_application.c:422-447 | step 1 iff the bus is not seen free in time; else a write transfer is addressed, or stopped after the part of the address that the error code tells |
| I2cMaster.Handle.SendAll | middlewares/i2c_application_library/i2c_application.c:449-463 | the data loop writes each byte of the buffer in order once TDBE is seen, or stops at the wait that failed |
| I2cMaster.Handle.SendAndStop | middlewares/i2c_application_library/i2c_application.c:449-477 | data, TDC seen, then exactly one STOP; the bus is released on every path |
| I2cMaster.Handle.MasterTransmit | middlewares/i2c_application_library/i2c_application.c:420-478 | step 1 iff the bus is not seen free in time; success: address, the size bytes, TDC and STOP, each after its wait, a quiet receiver left quiet; failure: everything up to the wait that step and error code name, then STOP; at most size + 5 waits of timeout + 1 polls, or of one each where ACKFAIL is up |
| I2cPipeline.ArmPollingReady | middlewares/i2c_application_library/i2c_application.c:592-621 | clearing the ack bit before ADDR7F makes the last of one or two bytes refused whatever the timing; after a byte left over, the one byte a two-byte read takes from the wire is acknowledged |
| I2cPipeline.ArmReleasedReady | middlewares/i2c_application_library/i2c_application.c:940-969 | in the other order the last byte of two is acknowledged exactly if a byte overtakes the driver or was left over |
| I2cPipeline.TakeStreaming | middlewares/i2c_application_library/i2c_application.c:717-719 | a read in mid-transfer takes the next wire byte and keeps all bytes acknowledged |
| I2cPipeline.TakeTurn | middlewares/i2c_application_library/i2c_application.c:678-683 | with three bytes left and both slots full, clearing the ack bit refuses the last byte and no other |
| I2cPipeline.TakeLast | middlewares/i2c_application_library/i2c_application.c:694-703 | the last two bytes come out in order after one STOP; n bytes came in, all acknowledged but the last, and none is left |
| I2cPipeline.TakeOnly | middlewares/i2c_application_library/i2c_application.c:639-641 | a one-byte read takes one refused byte and leaves the receiver empty |
| I2cMaster.Handle.ArmReceive | middlewares/i2c_application_library/i2c_application.c:592-621 | the clock is released with the pipeline ready for 1, 2 or more bytes |
| I2cMaster.Handle.AwaitSlot | middlewares/i2c_application_library/i2c_application.c:631-637 | a wait in the data phase that fails issues STOP, loses no byte and leaves the receiver busy |
| I2cRead.GivenUp | middlewares/i2c_application_library/i2c_application.c:631-637 | a wait that times out and the STOP behind it keep every byte that came in, and something still waits or is on its way |
| I2cRead.DoneMeans | middlewares/i2c_application_library/i2c_application.c:623-721 | of a read that came to its end, the wire carried exactly the bytes read, with nothing left in the receiver, if and only if no byte was left over |
| I2cMaster.Handle.ReadHead | middlewares/i2c_application_library/i2c_application.c:706-720 | the loop stores wire bytes in order up to the last three |
| I2cMaster.Handle.ReceiveBytes | middlewares/i2c_application_library/i2c_application.c:623-721 | the whole data loop: on success the buffer is what came in, acknowledged up to the last byte; on failure the bytes read so far, as many as the failed wait tells, then STOP with the rest still in the slots |
| I2cMaster.Handle.OpenRead | middlewares/i2c_application_library/i2c_application.c:565-590 | the same beginning for a read transfer |
| I2cMaster.Handle.MasterReceive | middlewares/i2c_application_library/i2c_application.c:563-724 | step 1 iff the bus is not seen free in time; success: size bytes stored in order, each after its wait, exactly one STOP; they are the wire's bytes, all acknowledged but the last, with nothing left in the receiver, iff no byte was left over, and else that byte and then the wire's; failure while reading: STOP, the step tells how many bytes were read, the others that came in are in the slots, the receiver busy; any failure after START is stopped; bus held iff OK with size 0; at most (size + 6)(timeout + 1) polls |
| I2cMaster.StaleRead | middlewares/i2c_application_library/i2c_application.c:563-724 | a read of three bytes that times out leaves a byte of its wire, and the next read succeeds and stores it |
| I2cMaster.Handle.MemoryAddressSend | middlewares/i2c_application_library/i2c_application.c:1252-1282 | an 8- or 16-bit memory address, or stopped at the wait between its bytes |
| I2cMaster.Handle.SelectMemory | middlewares/i2c_application_library/i2c_application.c:1321-1340 | TDBE seen and the memory address sent, or stopped at the wait its step names |
| I2cMaster.Handle.OpenMemory | middlewares/i2c_application_library/i2c_application.c:1300-1340 | device and memory address sent, each after its waits, or stopped at the wait that the step names |
| I2cMaster.Handle.OpenMemoryData | middlewares/i2c_application_library/i2c_application.c:1389-1441 | and the data register empty again |
| I2cMaster.Handle.MemoryWrite | middlewares/i2c_application_library/i2c_application.c:1298-1371 | success: device address, memory address, data, TDC and STOP, each after its wait, a quiet receiver left quiet; failure: everything up to the wait that step and error code name, then STOP; at most size + 7 waits of timeout + 1 polls, or of one each where ACKFAIL is up |
| I2cMaster.Handle.ArmMemoryRead | middlewares/i2c_application_library/i2c_application.c:1452-1481 | the clock released before the ack bit is cleared |
| I2cMaster.Handle.OpenMemoryRead | middlewares/i2c_application_library/i2c_application.c:1389-1450 | memory address and read address sent, or stopped at the wait that the step names |
| I2cMaster.Handle.MemoryRead | middlewares/i2c_application_library/i2c_application.c:1387-1584 | success: memory address, repeated START, size bytes in order, each after its wait, one STOP; they are the wire's bytes, the last one refused iff not overtaken, with nothing left in the receiver, iff no byte was left over; failures as for MasterReceive, before the reads at the wait that the step names; at most (size + 12)(timeout + 1) polls |
| I2cMaster.Handle.MasterTransmitInt | middlewares/i2c_application_library/i2c_application.c:821-858 | step 1 iff the bus is not seen free in time; success leaves a transfer in a state of `Transmitting` after exactly the address, all three interrupts on, and a quiet receiver quiet; failure is stopped |
| I2cMaster.Handle.MasterReceiveInt | middlewares/i2c_application_library/i2c_application.c:907-975 | step 1 iff the bus is not seen free in time; success leaves exactly the state `RxStart` from which the interrupt theorem runs; failure is stopped |
| I2cMaster.Handle.MemoryWriteInt | middlewares/i2c_application_library/i2c_application.c:1600-1661 | the same as MasterTransmitInt behind a memory address |
| I2cMaster.Handle.MemoryReadInt | middlewares/i2c_application_library/i2c_application.c:1677-1778 | the same as MasterReceiveInt behind a memory address |
| I2cMaster.Handle.MasterTxIsr | middlewares/i2c_application_library/i2c_application.c:1986-2009 | the transmit handler in place computes `TxIsr` |
| I2cMaster.Handle.MasterRxIsr | middlewares/i2c_application_library/i2c_application.c:2016-2082 | the receive handler in place computes `RxIsr` and stays inside the buffer |
| I2cIsr.StartReceiving | middlewares/i2c_application_library/i2c_application.c:940-972 | the started transfer satisfies the invariant of an interrupt-driven read |
| I2cIsr.RxIsrKeeps | middlewares/i2c_application_library/i2c_application.c:2016-2082 | every run of the handler keeps that invariant, in each of its branches |
| I2cIsr.RxPlayKeeps | middlewares/i2c_application_library/i2c_application.c:2016-2082 | so does every interleaving of byte arrivals and interrupts, and nothing happens after END |
| I2cIsr.ReceiveInterrupts | middlewares/i2c_application_library/i2c_application.c:2016-2082 | for every interleaving, and for n of at least 2 from any byte left over: stored + pcount = n, what is stored is that byte and then the wire's bytes, pcount is 1 before END only if n = 1, END iff all n bytes are stored; then the log is that of a polled read, the receiver is empty, and the last byte was refused unless a two-byte read was overtaken or began with a byte left over |
| I2cIsr.NeverStuck | middlewares/i2c_application_library/i2c_application.c:2056-2068 | before END a byte is on its way or an interrupt is pending, even with the data interrupt off |
| I2cIsr.IrqWorks | middlewares/i2c_application_library/i2c_application.c:2016-2082 | a pending interrupt reads a byte or gives up the data interrupt |
| I2cIsr.CanFinish | middlewares/i2c_application_library/i2c_application.c:2016-2082 | every reachable state has a continuation to END |
| I2cIsr.ReceiveFinishes | middlewares/i2c_application_library/i2c_application.c:2016-2082 | every interleaving with more than 2n productive steps has reached END, and none has more than 2n + 1 |
| I2cIsr.ReceivedInOrder | middlewares/i2c_application_library/i2c_application.c:2016-2082 | in every state of a read the buffer holds the byte left over, if any, and then the wire's bytes in order |
| I2cIsr.StaleOverruns | middlewares/i2c_application_library/i2c_application.c:2048-2053 | for n = 1 and a byte left over, an interleaving that reads two bytes and wraps pcount |
| I2cIsr.OvertakenExample | middlewares/i2c_application_library/i2c_application.c:951-961 | a two-byte read whose second byte is acknowledged |
| I2cIsr.ZeroUnderflows | middlewares/i2c_application_library/i2c_application.c:2058-2063 | a zero-byte read leaves pcount at 0xFFFF |
| I2cIsr.TransmitInterrupts | middlewares/i2c_application_library/i2c_application.c:1986-2009 | for every interleaving: sent followed by unsent is the buffer, each byte written once TDBE is seen, all three interrupts on until END, END after exactly the buffer and one STOP |
| I2cIsr.TransmitQuiet | middlewares/i2c_application_library/i2c_application.c:1986-2009 | no interleaving of transmit interrupts moves anything in a receiver with no byte on its way, so a quiet one stays quiet |
| I2cIsr.TransmitCompletes | middlewares/i2c_application_library/i2c_application.c:1986-2009 | with the data register empty in time the write ends after exactly pcount + 1 interrupts |
| Svpwm.SvpwmState.constructor | project/bsp/SVPWM.c:4-24 | the initial state, every field |
| Svpwm.SvpwmState.Fit | project/bsp/SVPWM.c:64-73 | two active times scaled by the sector-free gain, and the null time left |
| Svpwm.ProjectBalanced | project/bsp/SVPWM.c:54-59 | the axes sum to zero, and none is positive exactly at the zero vector, the default case |
| Svpwm.ProjectAxes | project/bsp/SVPWM.c:54-59 | the three axes of 12 V along alpha and along beta, in numbers |
| Svpwm.PeakBySector | project/bsp/SVPWM.c:61-155 | in each of the six sectors the two axes used add up to the longest axis |
| Svpwm.Ladder | project/bsp/SVPWM.c:61-152 | in each sector the two stored times are the only nonzero times of the six active vectors, and t7 the time all phases are high |
| Svpwm.SvpwmState.Switch | project/bsp/SVPWM.c:61-155 | all six cases give the centred duties of the scaled axes, and store for their two vectors the times those duties apply them; the other four times are stale; the default case changes nothing |
| Svpwm.SvpwmState.SVpwm | project/bsp/SVPWM.c:52-156 | the duties after a call are `Next`: the sector-free modulator, or the old duties at the zero vector, whatever the other fields held; every other field is specified too |
| Svpwm.SolvesUnique | project/bsp/SVPWM.c:73-76 | line-to-line duties equal to the axes and max + min = Ts determine the duties |
| SvpwmLaws.ModulateSolves | project/bsp/SVPWM.c:52-156 | with k = min(1, Ts / longest axis): Ta-Tb = k u2, Tb-Tc = k u1, Tc-Ta = k u3, max + min = Ts, and no other duties satisfy this |
| SvpwmLaws.FitsPeriod | project/bsp/SVPWM.c:67-76 | every duty lies in [0, Ts], over-modulated or not |
| SvpwmLaws.NoJump | project/bsp/SVPWM.c:61-152 | for inputs in the linear range, in any two sectors, no duty moves further than the axes do |
| SvpwmLaws.NoJumpAnywhere | project/bsp/SVPWM.c:61-152 | for all inputs, also into and through over-modulation, no duty moves more than twice as far |
| SvpwmLaws.Mirror | project/bsp/SVPWM.c:54-152 | negating the axes maps every duty T to Ts - T |
| SvpwmLaws.Rotate | project/bsp/SVPWM.c:54-152 | shifting the axes cyclically shifts the duties cyclically |
| SvpwmLaws.Saturates | project/bsp/SVPWM.c:67-72 | once the longest axis reaches Ts, scaling the input by any factor of at least 1 changes no duty |
| SvpwmLaws.MirrorInput | project/bsp/SVPWM.c:52-156 | negating a nonzero input maps every duty T to Ts - T |
| SvpwmLaws.SaturatesInput | project/bsp/SVPWM.c:52-156 | once over-modulated, lengthening the input leaves every duty unchanged |
| SvpwmLaws.DwellsFillPeriod | project/bsp/SVPWM.c:73-76 | the times of the active vectors and twice the null time make up Ts |
| SvpwmLaws.LinearRange | project/bsp/SVPWM.c:54-73 | inputs within the inscribed circle UDC / SQRT3 are never rescaled |
| SvpwmLaws.NextInPeriod | project/bsp/SVPWM.c:52-156 | a call keeps the duties in the period, zero input included |
| SvpwmLaws.RunInPeriod | project/bsp/SVPWM.c:52-156 | so does every run of calls |
| SvpwmLaws.RunHolds | project/bsp/SVPWM.c:153-156 | after any run the duties are those of the last nonzero input |
| SvpwmLaws.ZeroVector | project/bsp/SVPWM.c:153-154 | the code meets the sector-free formula iff the input is nonzero or the old duties are all Ts / 2 |
| SvpwmLaws.ZeroVectorFails | project/bsp/SVPWM.c:4-24 | at the initial state and zero input it does not |
| Foc.AngleLimitIsResidue | project/bsp/FOC.c:140-143 | Angle_limit gives a representative in [0, 2PI) differing by whole turns |
| Foc.ResidueUnique | project/bsp/FOC.c:140-143 | there is only one |
| Foc.CorrectedIsResidue | project/bsp/FOC.c:151-170 | the two nested reductions are one reduction of 11 m - zero, up to the snap to zero |
| Foc.CorrectedInNumbers | project/bsp/FOC.c:151-170 | the corrected angle lies in [0, 6.28318) and is 11 m - zero less whole turns of 6.28318, exactly, or else is zero within 0.000001 of that |
| Foc.ElectricalTurns | project/bsp/FOC.c:151-170 | eleventh parts of a mechanical turn do not change the corrected angle |
| Foc.ParkRoundTrip | project/bsp/FOC.c:379-394 | inverse Park then Park multiplies by sine^2 + cosine^2 |
| Foc.InvParkRoundTrip | project/bsp/FOC.c:379-394 | and so does Park then inverse Park |
| Foc.InvParkLength | project/bsp/FOC.c:390-394 | inverse Park scales the squared length by sine^2 + cosine^2 |
| Foc.InvParkAxes | project/bsp/FOC.c:390-394 | the d axis lies on alpha at angle zero and on beta a quarter turn later |
| Foc.ClarkeRoundTrip | project/bsp/FOC.c:364-407 | Clarke then inverse Clarke is UDC/2 minus each phase current, exactly |
| Foc.InvClarkeInjective | project/bsp/FOC.c:402-407 | phase voltages average to UDC/2 and determine the vector |
| Foc.InvClarkeAxes | project/bsp/FOC.c:402-407 | the three phases of no voltage, of 1 V along alpha and of 1 V along beta, in numbers |
| Foc.LineToLine | project/bsp/FOC.c:402-407 | in the linear range Tb-Tc is exactly (Ub-Uc) Ts / UDC, and the other two differ by exactly 0.000088 U_alpha Ts / UDC |
| Foc.CountsRange | project/bsp/FOC.c:305-325 | a duty in [0, 1] gives a compare value in 0..4500, below the period |
| Foc.CountsLinear | project/bsp/FOC.c:305-325 | a duty in [0, 1] gives 4500 times the duty, truncated |
| Foc.CountsMonotone | project/bsp/FOC.c:305-325 | and a larger duty no smaller value |
| Foc.SetPwmChannel | project/bsp/FOC.c:305-325 | phases a, b, c on channels 3, 2, 1 of motor 1's timer and 4, 2, 1 of motor 2's, the remaining channel untouched |
| PiControl.Advance | project/bsp/FOC.c:443-447 | the updates in place of a PI_Struct compute `Next` |
| PiControl.OutputConserved | project/bsp/FOC.c:443-447 | over every run, the output plus what the limit took off is the positional form: gain times the change of bias, plus integral gain times the sum of all biases; so the two forms agree exactly when the limit took off nothing in all |
| PiControl.OutputBounded | project/bsp/FOC.c:443-447 | from the first call on the output's magnitude is at most that of outMax, whatever gains, limits and inputs |
| PiControl.Ramp | project/bsp/FOC.c:443-447 | under a standing bias the output after n calls is its first value plus n times ki times the bias, cut off at plus and minus |outMax|, and so reaches the limit |
| PiControl.RestsIff | project/bsp/FOC.c:443-447 | the output rests under a standing bias iff nothing is integrated or it is at the limit on that side |
| PiControl.NoWindup | project/bsp/FOC.c:443-447 | after any run that ends at the limit, the first call with a reversed and not rising bias leaves it |
| FocControl.FocState.GetCorrectedElectricalAngle | project/bsp/FOC.c:165-170 | the corrected angle of an encoder reading |
| FocControl.FocState.SetPwm | project/bsp/FOC.c:332-343 | compare values of the limited phase voltages |
| FocControl.FocState.Measure | project/bsp/FOC.c:420-440 | one filter step of the measured currents in the rotor's frame |
| FocControl.FocState.FocControl | project/bsp/FOC.c:417-458 | a whole pass: angle, filters, both current controllers, `Next` duties within the period, compare values of those duties, trigger untouched; voltages within the controllers' limits |
| FocControl.FocState.CurrentPiControlIq | project/bsp/FOC.c:443-447 | the q-axis controller follows the speed controller's output and ignores its own target |
| FocControl.FocState.StrongDrag | project/bsp/FOC.c:178-208 | the forced-alignment output |
| FocControl.PhaseBOffset | project/bsp/FOC.c:432-433 | phase B reads zero at zero current iff the two offsets agree |
| FocControl.CurrentInNumbers | project/bsp/FOC.c:432-433 | one ADC count is 0.040283203125 A, from the offset |
| FocControl.MeasuredReturns | project/bsp/FOC.c:432-437 | the measured currents, transformed back, give 6 V less each phase current, phase A first, scaled by c^2 + s^2 |
| FocControl.AppliedAxes | project/bsp/FOC.c:390-394 | where sine and cosine are 0 and 1, as at angle zero, the voltage applied along alpha is Ud and along beta Uq; where they are 1 and 0 it is -Uq and Ud |
| FastTrig.AtZero | project/bsp/fast_sin.h:36-57 | fast_sin and fast_cos of zero are 0 and 1 |
| FocControl.AppliedReturns | project/bsp/FOC.c:379-394 | the frame the currents are measured in sees (Ud, Uq) back, scaled by c^2 + s^2, at every angle |
| FocControl.AppliedLinearly | project/bsp/FOC.c:390-394 | (Ud^2 + Uq^2)(c^2 + s^2) <= (UDC / SQRT3)^2 is enough for no rescaling |
| FocControl.LimitedLinearly | project/bsp/SVPWM.c:67-72 | controllers limited to m on each axis never over-modulate if 2 m^2 (c^2 + s^2) <= (UDC / SQRT3)^2 |
| FocControl.FirmwareLimitOverruns | project/src/main.c:252-255 | the limit of 6 is not that tight: at angle zero both axes at their limit are rescaled |
| FocControl.CompareInRange | project/bsp/FOC.c:305-325 | over every run of passes from the initial state, compare values stay in 0..4500, at most the ADC trigger's and below 4999 |
| FocControl.DirectInRange | project/bsp/FOC.c:332-343 | the direct output path stays in the same range, and its duty is u / 12 cut off at 0 and 1 |
| FastTrig.FoldedRange | project/bsp/fast_sin.h:39-40 | how far removing half turns with truncated constants leaves the argument |
| FastTrig.OddNeverZero | project/bsp/fast_sin.h:41-44 | an odd count never leaves exactly zero, so the choice of side never matters |
| FastTrig.ReducesWholeTurns | project/bsp/fast_sin.h:39-44 | what is taken off is an even multiple of M_PI |
| FastTrig.ReductionRange | project/bsp/fast_sin.h:39-44 | the reduced angle is below M_PI + (count + 1)(1 / 0.31830988 - M_PI) in magnitude |
| FastTrig.ReduceOdd | project/bsp/fast_sin.h:39-44 | the reduction is odd |
| FastTrig.SinOddCosEven | project/bsp/fast_sin.h:36-57 | fast_sin is odd and fast_cos even on every argument |
| FastTrig.SmallAngles | project/bsp/fast_sin.h:39-44 | within half a turn nothing is reduced |
| FastTrig.OverrunIff | project/bsp/fast_sin.h:39-44 | the reduced angle leaves the half turn exactly for arguments whose counted half turns miss one |
| FastTrig.OverrunNearSeam | project/bsp/fast_sin.h:39-44 | which happens only within (count + 1)(1 / 0.31830988 - M_PI) of an odd multiple of M_PI |
| FastTrig.Periodic | project/bsp/fast_sin.h:36-57 | arguments whole turns apart reduce alike if neither overruns, differently if one does, and if both do, with a drift below one turn, alike exactly on one side of zero |
| FastTrig.PeriodicClear | project/bsp/fast_sin.h:36-57 | equal sines and cosines for arguments whole turns apart and clear of every odd multiple of M_PI by that distance |
| FastTrig.PeriodicFails | project/bsp/fast_sin.h:39-44 | 3.14159265 and the same angle a turn earlier reduce differently |
| TrigSeries.FastNearSeries | project/bsp/fast_sin.h:36-57 | where the reduced angle is within 3.2, fast_sin and fast_cos are within 0.0004 and 0.0015 of the seven-term series of sine and cosine at that angle |
| Filter.LpfCurrent.constructor | project/bsp/filter.c:18-29 | both axes start at zero with alpha in (0, 1) |
| Filter.LpfSpeed.constructor | project/bsp/filter.c:66-73 | the speed filter's initial state |
| Filter.AlphaRange | project/bsp/filter.c:19-20 | for positive frequencies alpha lies in (0, 1) and is 2 PI fc / (fs + 2 PI fc) |
| Filter.ClosedForm | project/bsp/filter.c:40-48 | after n updates the filter is the sum of alpha (1 - alpha)^(n-1-i) x_i plus (1 - alpha)^n of its first value |
| Filter.StaysInHull | project/bsp/filter.c:40-48 | the output stays between the least and greatest of the first value and the inputs |
| Filter.Forgets | project/bsp/filter.c:40-48 | two filters on the same inputs differ by (1 - alpha)^n of their first difference |
| Filter.ConstantInput | project/bsp/filter.c:40-48 | for constant input the error is exactly (1 - alpha)^n of the first error |
| Filter.ErrorShrinks | project/bsp/filter.c:40-48 | for constant input the error shrinks strictly at every update and keeps its sign |
| Filter.Superposition | project/bsp/filter.c:40-48 | filtering a sum is summing filtered signals |
| Filter.AxesIndependent | project/bsp/filter.c:40-48 | over any run each axis is the filter of its own inputs alone |
| SysTick.Timebase.DeltaIsElapsed | project/src/wk_system.c:46-51 | the computed delta is the elapsed time modulo 2^24 |
| SysTick.Timebase.constructor | project/src/wk_system.c:82-99 | ticks_count_us is the whole megahertz of a 32-bit frequency |
| SysTick.Timebase.DelayUs | project/src/wk_system.c:41-53 | never returns early whatever the poll times; never returns if the target exceeds the counter; returns within two poll gaps of the target if no poll can miss the window |
| SysTick.Timebase.DelayMs | project/src/wk_system.c:60-75 | for every ms and every clock, returns only after ms * 1000 * ticks_count_us ticks, and only if its longest chunk fits the counter; with prompt polls it does return, at most two gaps late for each chunk |
| SysTick.TotalIsWhole | project/src/wk_system.c:60-75 | the chunks sum to ms * 1000 * ticks_count_us iff the longest one's tick count fits 32 bits, as it does at every rate |
| SysTick.ChunkFits | project/src/wk_system.c:64-67 | a full chunk fits the counter iff 50000 * ticks_count_us <= 0xFFFFFF, that is below 336 ticks per microsecond, as at the configured 240 |
| AdcSequencer.PutOther5 | libraries/drivers/src/at32f403a_407_adc.c:364-384 | a rank field written is not seen at any other rank |
| AdcSequencer.PutAbove5 | libraries/drivers/src/at32f403a_407_adc.c:364-384 | nor in a length field or reserved bit |
| AdcSequencer.PutOther3 | libraries/drivers/src/at32f403a_407_adc.c:349-362 | a sample-time field written is not seen at any other channel |
| AdcSequencer.Layout | libraries/drivers/src/at32f403a_407_adc.c:346-466 | which bits of which register each rank, sample time, slot and the group length are, written out |
| AdcSequencer.CodeIs | libraries/drivers/src/at32f403a_407_adc.c:346-385 | a channel is stored as its own number |
| AdcSequencer.OrdinaryDecodes | libraries/drivers/src/at32f403a_407_adc.c:346-385 | the registers then decode to the same arrays with one rank and one sample time replaced |
| AdcSequencer.PreemptDecodes | libraries/drivers/src/at32f403a_407_adc.c:429-466 | the same for a preempt rank, counted from the end of the four slots |
| AdcSequencer.LengthDecodes | libraries/drivers/src/at32f403a_407_adc.c:397-400 | only the group's length changes |
| AdcSequencer.GroupPointwise | libraries/drivers/src/at32f403a_407_adc.c:448-465 | the last L slots behave as an array of L; a rank beyond L changes nothing |
| AdcSequencer.RunRefines | libraries/drivers/src/at32f403a_407_adc.c:346-466 | any run of channel-set calls leaves the packed registers decoding to the plain arrays after the same run |
| AdcSequencer.LastCallWins | libraries/drivers/src/at32f403a_407_adc.c:346-466 | after any run the channel number at a rank, at a preempt rank within the group's length, and a channel's sample time are those of the last call for them |
| AdcSequencer.Adc.OrdinaryChannelSet | libraries/drivers/src/at32f403a_407_adc.c:346-385 | the register updates in place refine the array update |
| AdcSequencer.Adc.PreemptChannelLengthSet | libraries/drivers/src/at32f403a_407_adc.c:397-400 | the same for the length |
| AdcSequencer.Adc.PreemptChannelSet | libraries/drivers/src/at32f403a_407_adc.c:429-466 | the same for a preempt rank |

## Left out

- SysTick.Timebase.DelayUs: the polling loop is cut off after a given number of polls, for any number, since without
  an assumption on poll times it need not end.
- SysTick.Timebase.DelayMs: the same cut-off for each of its chunks.
- I2cIsr.ReceiveInterrupts: with RDBF and TDC reporting the two slots; for n of at least 1, because the law fails at 0
  (`ZeroUnderflows`); and at n = 1 with no byte left over, because it fails with one (`StaleOverruns`).
- What START does to the receiver, which only the hardware decides: the model keeps the data register, since the
  library never reads it out, and empties the shift register.
- DMA transfers, slave transfers, the error interrupt handler and i2c_wait_end: they rest on hardware that the
  repository does not show.
- The registers behind the low-level i2c functions: those functions are the environment, one access each. ACKFAIL,
  STOPF and the address flags are arbitrary at every access.
- Bit-level behaviour of the bus: arbitration, clock rates, general call, SMBus.
- Speed measurement, the MT6701 encoder and the USART parser: their outputs are parameters here.
- angle_init and first_get: sampling loops over delays and prints.
- Floating-point rounding, NaN and the overflow of float-to-integer conversions; the error of the seven-term series
  against true sine and cosine.
- Clock, GPIO, timer, SPI, CAN, USART and ADC initialisation other than the constants cited; delay.c, which repeats
  the chunking of wk_system.c.
- Values outside the documented ranges of the ADC driver's arguments, whose shifts C leaves undefined.
