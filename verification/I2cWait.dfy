/**
 * Waiting for a flag: the polling loop every transfer is built from, as a
 * function of the port, and what it promises.
 */
module I2cWait {
  import opened I2cPort
  import opened I2cLog

  datatype Status =
    | OK
    | ERR_STEP(step: nat)
    | ERR_START
    | ERR_ADDR10
    | ERR_ADDR
    | ERR_STOP
    | ERR_ACKFAIL
    | ERR_TIMEOUT

  /** The flag that an address phase missed, from its code. */
  function FlagOf(code: Status): Flag {
    match code
    case ERR_START => STARTF
    case ERR_ADDR10 => ADDRHF
    case _ => ADDR7F
  }

  /** The event_check bits. */
  datatype Check = Check(ackfail: bool, stop: bool)

  const CHECK_NONE := Check(false, false)
  const CHECK_ACKFAIL := Check(true, false)

  /** The checked event found after an unsuccessful poll; waiting for BUSYF checks none. */
  function EventAt(p: Port, flag: Flag, check: Check): Option<Status> {
    var q := p.FlagGet(flag);
    var r := if check.ackfail then q.FlagGet(ACKFAIL) else q;
    if flag.BUSYF? then None
    else if check.ackfail && q.Value(ACKFAIL) then Some(ERR_ACKFAIL)
    else if check.stop && r.Value(STOPF) then Some(ERR_STOP)
    else None
  }

  /** The port after an unsuccessful poll and its event checks. */
  function Round(p: Port, flag: Flag, check: Check): Port {
    var q := p.FlagGet(flag);
    var r := if check.ackfail then q.FlagGet(ACKFAIL) else q;
    if flag.BUSYF? then q
    else if check.ackfail && q.Value(ACKFAIL) then r.StopGenerate().FlagClear(ACKFAIL)
    else if check.stop then (if r.Value(STOPF) then r.FlagGet(STOPF).FlagClear(STOPF) else r.FlagGet(STOPF))
    else r
  }

  function Wait(p: Port, flag: Flag, check: Check, timeout: nat): (Status, Port)
    decreases timeout
  {
    if p.Sees(flag) then (OK, p.FlagGet(flag))
    else if EventAt(p, flag, check).Some? then (EventAt(p, flag, check).value, Round(p, flag, check))
    else if timeout == 0 then (ERR_TIMEOUT, Round(p, flag, check))
    else Wait(Round(p, flag, check), flag, check, timeout - 1)
  }

  /** The port before poll number k, had none of the earlier ones ended the wait. */
  ghost function Poll(p: Port, flag: Flag, check: Check, k: nat): Port
    decreases k
  {
    if k == 0 then p else Poll(Round(p, flag, check), flag, check, k - 1)
  }

  /** Poll k sees the flag, and no poll before it was followed by a checked event. */
  ghost predicate SeenBy(p: Port, flag: Flag, check: Check, k: nat) {
    && Poll(p, flag, check, k).Sees(flag)
    && forall j: nat :: j < k ==> EventAt(Poll(p, flag, check, j), flag, check).None?
  }

  /** Some poll within the budget sees the flag, before any checked event. */
  ghost predicate SeenIn(p: Port, flag: Flag, check: Check, timeout: nat) {
    exists k: nat :: k <= timeout && SeenBy(p, flag, check, k)
  }

  /** OK exactly when the flag is seen within the budget and before any checked event. */
  lemma {:induction false} WaitOkIff(p: Port, flag: Flag, check: Check, timeout: nat)
    ensures Wait(p, flag, check, timeout).0 == OK <==> SeenIn(p, flag, check, timeout)
    decreases timeout
  {
    if p.Sees(flag) {
      assert SeenBy(p, flag, check, 0);
    } else {
      var q := Round(p, flag, check);
      assert Poll(p, flag, check, 0) == p;
      if EventAt(p, flag, check).None? && timeout > 0 {
        WaitOkIff(q, flag, check, timeout - 1);
        forall k: nat | k <= timeout - 1
          ensures SeenBy(q, flag, check, k) <==> SeenBy(p, flag, check, k + 1)
        {
          SeenShift(p, flag, check, k);
        }
        assert forall k: nat | k <= timeout && SeenBy(p, flag, check, k) :: k > 0 && SeenBy(q, flag, check, k - 1);
      }
    }
  }

  lemma SeenShift(p: Port, flag: Flag, check: Check, k: nat)
    requires EventAt(p, flag, check).None?
    ensures SeenBy(Round(p, flag, check), flag, check, k) <==> SeenBy(p, flag, check, k + 1)
  {
    var q := Round(p, flag, check);
    assert forall j: nat :: Poll(q, flag, check, j) == Poll(p, flag, check, j + 1);
    assert forall j: nat :: j < k + 1 ==> j == 0 || Poll(p, flag, check, j) == Poll(q, flag, check, j - 1);
  }

  lemma RoundPolls(p: Port, flag: Flag, check: Check)
    requires !(flag.ACKFAIL? || flag.STOPF?)
    ensures p.FlagGet(flag).polls == Round(p, flag, check).polls == p.polls + 1
  {
  }

  /** A wait polls its flag at least once and at most timeout + 1 times, and TIMEOUT means all of them. */
  lemma {:induction false} WaitPolls(p: Port, flag: Flag, check: Check, timeout: nat)
    requires !(flag.ACKFAIL? || flag.STOPF?)
    ensures var (st, q) := Wait(p, flag, check, timeout);
            && p.polls < q.polls <= p.polls + timeout + 1
            && (st == ERR_TIMEOUT ==> q.polls == p.polls + timeout + 1)
    decreases timeout
  {
    RoundPolls(p, flag, check);
    if !p.Sees(flag) && EventAt(p, flag, check).None? && timeout > 0 {
      WaitPolls(Round(p, flag, check), flag, check, timeout - 1);
    }
  }

  /** A flag that is up, or an acknowledge that failed, ends a wait that minds it at its first poll. */
  lemma WaitBrief(p: Port, flag: Flag, check: Check, timeout: nat)
    requires flag == BUSYF || flag == STARTF || (check.ackfail && !flag.ACKFAIL? && !flag.STOPF?)
    ensures Wait(p, flag, check, timeout).1.polls <= p.polls + Patience(p.env, timeout)
  {
    WaitPolls(p, flag, check, timeout);
    hide Receiver.Run;
    if Refusing(p.env) && !p.Sees(flag) {
      assert EventAt(p, flag, check) == Some(ERR_ACKFAIL);
      RoundPolls(p, flag, check);
    }
  }

  /**
   * A wait changes nothing but time, and leaves in the trace only the flag it
   * saw, or the event that ended it; a failed acknowledge stops the bus.
   */
  ghost predicate Waited(p: Port, q: Port, flag: Flag, st: Status) {
    && (st == OK && p.env.faithful ==> (flag.RDBF? ==> q.rx.dr.Some?) && (flag.TDC? && p.receiving ==> q.rx.sr.Some?))
    && (st != ERR_ACKFAIL ==> p.Later(q))
    && q == p.(tick := q.tick, polls := q.polls, rx := q.rx, trace := q.trace)
    && q.trace == p.trace + match st
         case OK => [Seen(flag)]
         case ERR_ACKFAIL => REFUSED
         case ERR_STOP => [Seen(STOPF), Clear(STOPF)]
         case _ => []
  }

  lemma {:induction false} WaitEffect(p: Port, flag: Flag, check: Check, timeout: nat)
    ensures var (st, q) := Wait(p, flag, check, timeout);
            Waited(p, q, flag, st)
    decreases timeout
  {
    if p.Sees(flag) {
      SeenEffect(p, flag);
    } else if EventAt(p, flag, check) == Some(ERR_ACKFAIL) {
      AckFailEffect(p, flag, check);
    } else {
      LaterRound(p, flag, check);
      if EventAt(p, flag, check).None? && timeout > 0 {
        WaitEffect(Round(p, flag, check), flag, check, timeout - 1);
        WaitStep(p, flag, check, timeout);
      }
    }
  }

  lemma WaitStep(p: Port, flag: Flag, check: Check, timeout: nat)
    requires timeout > 0 && !p.Sees(flag) && EventAt(p, flag, check).None?
    requires p.Later(Round(p, flag, check)) && Round(p, flag, check).trace == p.trace
    requires var (st, r) := Wait(Round(p, flag, check), flag, check, timeout - 1);
             Waited(Round(p, flag, check), r, flag, st)
    ensures var (st, q) := Wait(p, flag, check, timeout);
            Waited(p, q, flag, st)
  {
    var q := Round(p, flag, check);
    var (st, r) := Wait(q, flag, check, timeout - 1);
    WaitedAfter(p, q, r, flag, st);
    assert Wait(p, flag, check, timeout) == (st, r);
  }

  /** A wait ends with OK, TIMEOUT or one of the events it was asked to check. */
  lemma {:induction false} WaitStatus(p: Port, flag: Flag, check: Check, timeout: nat)
    ensures var st := Wait(p, flag, check, timeout).0;
            st == OK || st == ERR_TIMEOUT || (check.ackfail && st == ERR_ACKFAIL) || (check.stop && st == ERR_STOP)
    decreases timeout
  {
    if !p.Sees(flag) && EventAt(p, flag, check).None? && timeout > 0 {
      WaitStatus(Round(p, flag, check), flag, check, timeout - 1);
    }
  }

  lemma WaitedAfter(p: Port, q: Port, r: Port, flag: Flag, st: Status)
    requires p.Later(q) && q.trace == p.trace && Waited(q, r, flag, st)
    ensures Waited(p, r, flag, st)
  {
    if st != ERR_ACKFAIL {
      LaterTrans(p, q, r);
    }
  }

  lemma SeenEffect(p: Port, flag: Flag)
    requires p.Sees(flag)
    ensures Waited(p, p.FlagGet(flag), flag, OK)
  {
    BusSnoc(p.trace, Seen(flag));
  }

  lemma AckFailEffect(p: Port, flag: Flag, check: Check)
    requires EventAt(p, flag, check) == Some(ERR_ACKFAIL) && !p.Sees(flag)
    ensures Waited(p, Round(p, flag, check), flag, ERR_ACKFAIL)
  {
    var q := p.FlagGet(flag);
    var r := q.FlagGet(ACKFAIL);
    assert q.trace == p.trace && r.trace == p.trace + [Seen(ACKFAIL)];
    var s := r.StopGenerate().FlagClear(ACKFAIL);
    assert s.trace == r.trace + [Stop] + [Clear(ACKFAIL)];
  }

  lemma LaterFlagGet(p: Port, flag: Flag)
    ensures p.Later(p.FlagGet(flag))
  {
    BusSnoc(p.trace, Seen(flag));
  }

  lemma LaterClear(p: Port, flag: Flag)
    requires flag != ADDR7F
    ensures p.Later(p.FlagClear(flag))
  {
    BusSnoc(p.trace, Clear(flag));
  }

  /** A round that did not end in a failed acknowledge; it shows only in the trace if it found a STOP. */
  lemma LaterRound(p: Port, flag: Flag, check: Check)
    requires EventAt(p, flag, check) != Some(ERR_ACKFAIL) && !p.Sees(flag)
    ensures var q := Round(p, flag, check);
            p.Later(q)
            && q.trace == if EventAt(p, flag, check).None? then p.trace else p.trace + [Seen(STOPF), Clear(STOPF)]
  {
    var q := p.FlagGet(flag);
    LaterFlagGet(p, flag);
    var r := if check.ackfail then q.FlagGet(ACKFAIL) else q;
    LaterFlagGet(q, ACKFAIL);
    LaterSelf(q);
    LaterTrans(p, q, r);
    var s := r.FlagGet(STOPF);
    LaterFlagGet(r, STOPF);
    LaterTrans(p, r, s);
    LaterClear(s, STOPF);
    LaterTrans(p, s, s.FlagClear(STOPF));
  }
}
