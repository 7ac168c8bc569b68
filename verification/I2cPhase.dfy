/**
 * How far a transfer got: the place in its sequence of events, and what it
 * leaves behind when it gives up there.
 */
module I2cPhase {
  import opened I2cPort
  import opened I2cLog

  /** A sequence of events to be done, what the trace was before it, and the polls made until then. */
  datatype Phase = Phase(before: seq<Event>, full: seq<Event>, since: nat) {
    /** The first `sent` events of the phase have been done. */
    ghost predicate At(p: Port, sent: nat) {
      sent <= |full| && p.trace == before + full[..sent] && since <= p.polls
    }

    /** The phase was given up waiting for `flag`; a wait that was not refused polled timeout + 1 times. */
    ghost predicate Lost(p: Port, flag: Flag, stops: nat, timeout: nat) {
      Aborted(before, full, flag, p.trace, stops, p.polls > since + timeout)
    }
  }

  /** From p to q all of `done` was done, `part` was given up waiting for `flag`, and the bus was stopped. */
  ghost predicate Stopped(p: Port, q: Port, done: seq<Event>, part: seq<Event>, flag: Flag, timeout: nat) {
    Aborted(p.trace + done, part, flag, q.trace, 1, q.polls > p.polls + timeout) && !BusHeld(q.trace)
  }

  lemma PhaseBegins(ph: Phase, p: Port)
    requires ph.before == p.trace && ph.since <= p.polls
    ensures ph.At(p, 0)
  {
  }

  lemma PhaseEnds(ph: Phase, p: Port)
    requires ph.At(p, |ph.full|)
    ensures p.trace == ph.before + ph.full
  {
  }

  lemma PhaseNext(ph: Phase, p: Port, q: Port, sent: nat)
    requires ph.At(p, sent) && sent < |ph.full|
    requires q.trace == p.trace + [ph.full[sent]] && q.polls >= p.polls
    ensures ph.At(q, sent + 1)
  {
    assert ph.full[..sent + 1] == ph.full[..sent] + [ph.full[sent]];
  }

  lemma PhaseLost(ph: Phase, p: Port, q: Port, sent: nat, flag: Flag, refused: bool, timeout: nat)
    requires ph.At(p, sent) && sent < |ph.full| && ph.full[sent] == Seen(flag)
    requires q.trace == p.trace + if refused then REFUSED else []
    requires if refused then flag != STARTF else q.polls > p.polls + timeout
    ensures ph.Lost(q, flag, 0, timeout)
  {
    CutNow(ph.before, ph.full, flag, q.trace, sent, refused, q.polls > ph.since + timeout);
  }

  lemma PhaseStop(ph: Phase, q: Port, r: Port, flag: Flag, stops: nat, timeout: nat)
    requires ph.Lost(q, flag, stops, timeout) && r.trace == q.trace + [Stop] && r.polls == q.polls
    ensures ph.Lost(r, flag, stops + 1, timeout) && !BusHeld(r.trace)
  {
    var patient := q.polls > ph.since + timeout;
    AbortedStop(ph.before, ph.full, flag, q.trace, stops, patient, patient);
  }

  /** A phase that began at p and went wrong. */
  lemma PhaseStopped(ph: Phase, p: Port, q: Port, flag: Flag, timeout: nat)
    requires ph.before == p.trace && ph.since == p.polls && ph.Lost(q, flag, 1, timeout) && !BusHeld(q.trace)
    ensures Stopped(p, q, [], ph.full, flag, timeout)
  {
    assert p.trace + [] == p.trace;
  }

  /** The same failure, seen from a port that had more still to do. */
  lemma StoppedLater(p: Port, q: Port, r: Port, pre: seq<Event>, done: seq<Event>, part: seq<Event>, flag: Flag,
                     timeout: nat)
    requires Stopped(q, r, done, part, flag, timeout) && q.trace == p.trace + pre && p.polls <= q.polls
    ensures Stopped(p, r, pre + done, part, flag, timeout)
  {
    assert p.trace + pre + done == p.trace + (pre + done);
    AbortedStill(q.trace + done, part, flag, r.trace, 1, r.polls > q.polls + timeout, r.polls > p.polls + timeout);
  }

  /** And with more to come after the part that failed. */
  lemma StoppedLonger(p: Port, r: Port, done: seq<Event>, part: seq<Event>, rest: seq<Event>, flag: Flag, timeout: nat)
    requires Stopped(p, r, done, part, flag, timeout)
    ensures Stopped(p, r, done, part + rest, flag, timeout)
  {
    var patient := r.polls > p.polls + timeout;
    assert p.trace + done + [] == p.trace + done && [] + part + rest == part + rest;
    AbortedWithin(p.trace + done, [], part, rest, flag, r.trace, 1, patient, patient);
  }

  lemma StoppedAfter(p: Port, q: Port, r: Port, pre: seq<Event>, part: seq<Event>, flag: Flag, timeout: nat)
    requires Stopped(q, r, [], part, flag, timeout) && q.trace == p.trace + pre && p.polls <= q.polls
    ensures Stopped(p, r, pre, part, flag, timeout)
  {
    assert pre + [] == pre;
    StoppedLater(p, q, r, pre, [], part, flag, timeout);
  }

  /** What was done before may be counted as part of what failed. */
  lemma StoppedInside(p: Port, r: Port, done: seq<Event>, part: seq<Event>, rest: seq<Event>, flag: Flag, timeout: nat)
    requires Stopped(p, r, done, part, flag, timeout)
    ensures Stopped(p, r, [], done + part + rest, flag, timeout)
  {
    var patient := r.polls > p.polls + timeout;
    assert p.trace + [] == p.trace;
    AbortedWithin(p.trace, done, part, rest, flag, r.trace, 1, patient, patient);
  }

  lemma StoppedReleased(p: Port, r: Port, done: seq<Event>, part: seq<Event>, flag: Flag, timeout: nat)
    requires Stopped(p, r, done, part, flag, timeout)
    ensures !BusHeld(r.trace)
  {
  }
}
