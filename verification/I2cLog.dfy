/**
 * What a transfer does, as sequences of events, and when the bus is left held:
 * sections 3.1.4, 3.1.6 and 3.1.11 of UM10204.
 */
module I2cLog {
  import opened I2cPort

  datatype Width = WIDTH_8 | WIDTH_16

  function Low(address: bv16): Byte { (address & 0x00FF) as bv8 }

  function High(address: bv16): Byte { ((address >> 8) & 0x00FF) as bv8 }

  /** First byte of a 10-bit address: 11110, two address bits, read bit. */
  function Header(address: bv16, read: bool): Byte {
    ((address & 0x0300) >> 7) as bv8 | (if read then 0xF1 else 0xF0)
  }

  function WriteHeader(tenBit: bool, address: bv16): seq<Event> {
    if tenBit then
      [Start, Seen(STARTF), Write(Header(address, false)), Seen(ADDRHF), Write(Low(address)), Seen(ADDR7F)]
    else
      [Start, Seen(STARTF), Write(Low(address) & 0xFE), Seen(ADDR7F)]
  }

  function ReadHeader(tenBit: bool, address: bv16): seq<Event> {
    if tenBit then
      WriteHeader(true, address)
      + [Clear(ADDR7F), Start, Seen(STARTF), Write(Header(address, true)), Seen(ADDR7F)]
    else
      [Start, Seen(STARTF), Write(Low(address) | 1), Seen(ADDR7F)]
  }

  function MemoryHeader(width: Width, address: bv16): seq<Event> {
    if width.WIDTH_8? then [Write(Low(address))] else [Write(High(address)), Seen(TDBE), Write(Low(address))]
  }

  /** Each byte is written once the data register has been seen empty. */
  function Sends(bs: seq<Byte>): (es: seq<Event>)
    ensures |es| == 2 * |bs|
  {
    if bs == [] then [] else Sends(bs[..|bs| - 1]) + [Seen(TDBE), Write(bs[|bs| - 1])]
  }

  /** What comes before byte k of a read of n bytes: the flag that is awaited, and STOP before the last two. */
  function Awaits(n: nat, k: nat): seq<Event>
    requires k < n
  {
    if n - k > 3 then [Seen(RDBF)]
    else if n - k == 3 then [Seen(TDC)]
    else if n - k == 2 then [Seen(TDC), Stop]
    else if n == 1 then [Seen(RDBF)]
    else []
  }

  /** The first bytes of a read of n. */
  function Fetches(n: nat, bs: seq<Byte>): seq<Event>
    requires |bs| <= n
    decreases |bs|
  {
    if bs == [] then []
    else
      var k := |bs| - 1;
      Fetches(n, bs[..k]) + Awaits(n, k) + [Read(bs[k])]
  }

  function Writes(bs: seq<Byte>): (es: seq<Event>)
    ensures |es| == |bs|
    ensures forall i :: 0 <= i < |bs| ==> es[i] == Write(bs[i])
  {
    seq(|bs|, i requires 0 <= i < |bs| => Write(bs[i]))
  }

  function Reads(bs: seq<Byte>): (es: seq<Event>)
    ensures |es| == |bs|
    ensures forall i :: 0 <= i < |bs| ==> es[i] == Read(bs[i])
  {
    seq(|bs|, i requires 0 <= i < |bs| => Read(bs[i]))
  }

  function Stops(n: nat): (es: seq<Event>)
    ensures |es| == n && forall i :: 0 <= i < n ==> es[i] == Stop
  {
    seq(n, i => Stop)
  }

  /** A read of n bytes stops the bus once, before the last two bytes are taken out, or before the only one. */
  function ReadLog(bs: seq<Byte>): seq<Event> {
    var k := if |bs| >= 2 then |bs| - 2 else 0;
    Reads(bs[..k]) + [Stop] + Reads(bs[k..])
  }

  /** Every byte acknowledged but the last. */
  function Acknowledged(bs: seq<Byte>, lastAck: bool): seq<Frame> {
    seq(|bs|, i requires 0 <= i < |bs| => Frame(bs[i], i < |bs| - 1 || lastAck))
  }

  // ---- what of it is on the bus

  function Kept(e: Event): seq<Event> { if e.OnBus() then [e] else [] }

  lemma BusOne(a: Event)
    ensures BusEvents([a]) == Kept(a)
  {
  }

  lemma BusShort(a: Event, b: Event, c: Event)
    ensures BusEvents([a]) == Kept(a) && BusEvents([a, b]) == Kept(a) + Kept(b)
    ensures BusEvents([a, b, c]) == Kept(a) + Kept(b) + Kept(c)
  {
    hide BusEvents, Kept;
    BusOne(a);
    BusOne(b);
    BusOne(c);
    BusConcat([a], [b]);
    BusConcat([a, b], [c]);
    assert [a] + [b] == [a, b] && [a, b] + [c] == [a, b, c];
  }

  lemma BusSix(a: Event, b: Event, c: Event, d: Event, e: Event, f: Event)
    ensures BusEvents([a, b, c, d]) == Kept(a) + Kept(b) + Kept(c) + Kept(d)
    ensures BusEvents([a, b, c, d, e]) == Kept(a) + Kept(b) + Kept(c) + Kept(d) + Kept(e)
    ensures BusEvents([a, b, c, d, e, f]) == Kept(a) + Kept(b) + Kept(c) + Kept(d) + Kept(e) + Kept(f)
  {
    BusShort(a, b, c);
    BusShort(d, e, f);
    hide BusEvents, Kept;
    BusConcat([a, b, c], [d]);
    BusConcat([a, b, c], [d, e]);
    BusConcat([a, b, c], [d, e, f]);
    assert [a, b, c] + [d] == [a, b, c, d] && [a, b, c] + [d, e] == [a, b, c, d, e];
    assert [a, b, c] + [d, e, f] == [a, b, c, d, e, f];
  }

  /** A write address, without what the driver saw in between. */
  lemma WriteOnBus(tenBit: bool, address: bv16)
    ensures BusEvents(WriteHeader(tenBit, address))
            == if tenBit then [Start, Write(Header(address, false)), Write(Low(address))]
               else [Start, Write(Low(address) & 0xFE)]
  {
    var b, c := Header(address, false), Low(address);
    hide Low, Header, BusEvents;
    BusSix(Start, Seen(STARTF), Write(b), Seen(ADDRHF), Write(c), Seen(ADDR7F));
    BusSix(Start, Seen(STARTF), Write(c & 0xFE), Seen(ADDR7F), Stop, Stop);
  }

  /** A read address; a 10-bit one repeats START. */
  lemma ReadOnBus(tenBit: bool, address: bv16)
    ensures BusEvents(ReadHeader(tenBit, address))
            == if tenBit then BusEvents(WriteHeader(true, address)) + [Start, Write(Header(address, true))]
               else [Start, Write(Low(address) | 1)]
  {
    var c, d := Low(address), Header(address, true);
    hide Low, Header, BusEvents, WriteHeader;
    if tenBit {
      BusSix(Clear(ADDR7F), Start, Seen(STARTF), Write(d), Seen(ADDR7F), Stop);
      BusConcat(WriteHeader(true, address), [Clear(ADDR7F), Start, Seen(STARTF), Write(d), Seen(ADDR7F)]);
    } else {
      BusSix(Start, Seen(STARTF), Write(c | 1), Seen(ADDR7F), Stop, Stop);
    }
  }

  /** The data of a write, without the waits. */
  lemma {:induction false} SendsOnBus(bs: seq<Byte>)
    ensures BusEvents(Sends(bs)) == Writes(bs)
    decreases |bs|
  {
    if bs != [] {
      var init, b := bs[..|bs| - 1], bs[|bs| - 1];
      SendsOnBus(init);
      SendsSnoc(init, b);
      WritesSnoc(init, b);
      assert init + [b] == bs;
      hide BusEvents, Sends, Writes;
      BusSnoc(Sends(init), Seen(TDBE));
      BusSnoc(Sends(init) + [Seen(TDBE)], Write(b));
      assert Sends(bs) == Sends(init) + [Seen(TDBE)] + [Write(b)];
    }
  }

  lemma WritesSnoc(bs: seq<Byte>, b: Byte)
    ensures Writes(bs + [b]) == Writes(bs) + [Write(b)]
  {
  }

  lemma SendsSnoc(bs: seq<Byte>, b: Byte)
    ensures Sends(bs + [b]) == Sends(bs) + [Seen(TDBE), Write(b)]
  {
    assert (bs + [b])[..|bs|] == bs;
  }

  lemma {:induction false} SendsConcat(a: seq<Byte>, b: seq<Byte>)
    ensures Sends(a + b) == Sends(a) + Sends(b)
    decreases |b|
  {
    if b == [] {
      assert a + b == a;
    } else {
      var init, x := b[..|b| - 1], b[|b| - 1];
      assert a + b == a + init + [x];
      SendsConcat(a, init);
      SendsSnoc(a + init, x);
    }
  }

  /** A write on the bus: whatever flag is awaited before STOP, polling and interrupts put the same there. */
  lemma WrittenOnBus(base: seq<Event>, bs: seq<Byte>, f: Flag)
    ensures BusEvents(base + Sends(bs) + [Seen(f), Stop]) == BusEvents(base) + Writes(bs) + [Stop]
  {
    hide BusEvents, Sends;
    BusConcat(base, Sends(bs));
    SendsOnBus(bs);
    BusShort(Seen(f), Stop, Stop);
    BusConcat(base + Sends(bs), [Seen(f), Stop]);
  }

  /** Byte i of a write waits for the data register. */
  lemma {:induction false} SendsAt(bs: seq<Byte>, i: nat)
    requires i < |bs|
    ensures Sends(bs)[2 * i] == Seen(TDBE) && Sends(bs)[2 * i + 1] == Write(bs[i])
    decreases |bs|
  {
    var init := bs[..|bs| - 1];
    if i < |bs| - 1 {
      SendsAt(init, i);
    }
  }

  lemma FetchSnoc(n: nat, bs: seq<Byte>, b: Byte)
    requires |bs| < n
    ensures Fetches(n, bs + [b]) == Fetches(n, bs) + Awaits(n, |bs|) + [Read(b)]
  {
    assert (bs + [b])[..|bs|] == bs;
  }

  lemma FetchLast(n: nat, bs: seq<Byte>, b: Byte, c: Byte)
    requires |bs| + 2 == n
    ensures Fetches(n, bs + [b, c]) == Fetches(n, bs) + [Seen(TDC), Stop, Read(b), Read(c)]
  {
    FetchSnoc(n, bs, b);
    FetchSnoc(n, bs + [b], c);
    assert bs + [b] + [c] == bs + [b, c];
  }

  /** A whole read, without the waits, is the log of a read; the STOP of a one-byte read comes before. */
  lemma FetchesOnBus(bs: seq<Byte>)
    requires bs != []
    ensures BusEvents((if |bs| == 1 then [Stop] else []) + Fetches(|bs|, bs)) == ReadLog(bs)
  {
    hide Fetches, BusEvents, ReadLog;
    if |bs| == 1 {
      OnlyOnBus(bs);
    } else {
      MoreOnBus(bs);
      assert [] + Fetches(|bs|, bs) == Fetches(|bs|, bs);
    }
  }

  lemma OnlyOnBus(bs: seq<Byte>)
    requires |bs| == 1
    ensures BusEvents([Stop] + Fetches(1, bs)) == ReadLog(bs)
  {
    var b := bs[0];
    assert bs == [b];
    FetchOne(b);
    ReadLogOne(b);
    hide BusEvents, ReadLog, Fetches;
    assert [Stop] + [Seen(RDBF), Read(b)] == [Stop, Seen(RDBF), Read(b)];
    BusShort(Stop, Seen(RDBF), Read(b));
    assert Kept(Stop) + Kept(Seen(RDBF)) + Kept(Read(b)) == [Stop, Read(b)];
  }

  lemma FetchOne(b: Byte)
    ensures Fetches(1, [b]) == [Seen(RDBF), Read(b)]
  {
    assert [] + [b] == [b];
    FetchSnoc(1, [], b);
  }

  lemma ReadLogOne(b: Byte)
    ensures ReadLog([b]) == [Stop, Read(b)]
  {
    assert [b][..0] == [] && [b][0..] == [b];
  }

  lemma ReadLogMore(bs: seq<Byte>, b: Byte, c: Byte)
    ensures ReadLog(bs + [b, c]) == Reads(bs) + [Stop, Read(b), Read(c)]
  {
    var cs := bs + [b, c];
    assert cs[..|bs|] == bs && cs[|bs|..] == [b, c];
    assert Reads([b, c]) == [Read(b), Read(c)];
  }

  lemma MoreOnBus(bs: seq<Byte>)
    requires |bs| >= 2
    ensures BusEvents(Fetches(|bs|, bs)) == ReadLog(bs)
  {
    hide Fetches, BusEvents, ReadLog, Reads;
    var n, k := |bs|, |bs| - 2;
    var b, c := bs[k], bs[k + 1];
    assert bs == bs[..k] + [b, c];
    ReadLogMore(bs[..k], b, c);
    FetchLast(n, bs[..k], b, c);
    EarlyOnBus(n, bs[..k]);
    BusSix(Seen(TDC), Stop, Read(b), Read(c), Stop, Stop);
    BusConcat(Fetches(n, bs[..k]), [Seen(TDC), Stop, Read(b), Read(c)]);
    assert BusEvents([Seen(TDC), Stop, Read(b), Read(c)]) == [Stop, Read(b), Read(c)];
  }

  lemma {:induction false} EarlyOnBus(n: nat, bs: seq<Byte>)
    requires |bs| + 2 <= n
    ensures BusEvents(Fetches(n, bs)) == Reads(bs)
    decreases |bs|
  {
    if bs != [] {
      var init, b := bs[..|bs| - 1], bs[|bs| - 1];
      EarlyOnBus(n, init);
      assert bs == init + [b];
      FetchSnoc(n, init, b);
      EarlyAwait(n, |init|);
      ReadsSnoc(init, b);
      hide BusEvents, Fetches, Awaits, Reads;
      var e := Awaits(n, |init|)[0];
      assert Fetches(n, bs) == Fetches(n, init) + [e] + [Read(b)];
      BusSnoc(Fetches(n, init), e);
      BusSnoc(Fetches(n, init) + [e], Read(b));
    }
  }

  lemma ReadsSnoc(bs: seq<Byte>, b: Byte)
    ensures Reads(bs + [b]) == Reads(bs) + [Read(b)]
  {
  }

  lemma EarlyAwait(n: nat, k: nat)
    requires k + 2 < n
    ensures var es := Awaits(n, k); |es| == 1 && !es[0].OnBus() && es == [es[0]]
  {
  }

  /** The bus has been started and not stopped since. */
  predicate BusHeld(log: seq<Event>)
    decreases |log|
  {
    if log == [] then false
    else match log[|log| - 1]
      case Start => true
      case Stop => false
      case _ => BusHeld(log[..|log| - 1])
  }

  lemma {:induction false} HeldMeans(log: seq<Event>)
    ensures BusHeld(log)
            <==> exists i :: 0 <= i < |log| && log[i] == Start && forall j :: i < j < |log| ==> log[j] != Stop
    decreases |log|
  {
    if log != [] {
      var n := |log| - 1;
      HeldMeans(log[..n]);
      if log[n] != Stop && log[n] != Start && BusHeld(log) {
        var i :| 0 <= i < n && log[..n][i] == Start && forall j :: i < j < n ==> log[..n][j] != Stop;
        assert log[i] == Start && forall j :: i < j < |log| ==> j == n || log[..n][j] != Stop;
      }
      if i :| 0 <= i < |log| && log[i] == Start && forall j :: i < j < |log| ==> log[j] != Stop {
        if i < n {
          assert log[..n][i] == Start && forall j :: i < j < n ==> log[..n][j] == log[j];
        }
      }
    }
  }

  lemma HeldAppend(log: seq<Event>, e: Event)
    ensures BusHeld(log + [e]) == (if e.Start? then true else if e.Stop? then false else BusHeld(log))
  {
  }

  /** Nothing but START and STOP starts or stops the bus. */
  lemma {:induction false} HeldThrough(log: seq<Event>, es: seq<Event>)
    requires forall e :: e in es ==> !e.Start? && !e.Stop?
    ensures BusHeld(log + es) == BusHeld(log)
    decreases |es|
  {
    if es == [] {
      assert log + es == log;
    } else {
      assert es[|es| - 1] in es && forall e :: e in es[..|es| - 1] ==> e in es;
      assert (log + es) == (log + es[..|es| - 1]) + [es[|es| - 1]];
      HeldThrough(log, es[..|es| - 1]);
      HeldAppend(log + es[..|es| - 1], es[|es| - 1]);
    }
  }

  /** A completed read or write address leaves the bus held. */
  lemma HeldHeader(log: seq<Event>, tenBit: bool, address: bv16)
    ensures BusHeld(log + WriteHeader(tenBit, address)) && BusHeld(log + ReadHeader(tenBit, address))
  {
    hide Low, Header, BusHeld;
    if tenBit {
      var rest := [Seen(STARTF), Write(Header(address, true)), Seen(ADDR7F)];
      var write := WriteHeader(true, address);
      assert log + ReadHeader(true, address) == log + write + [Clear(ADDR7F)] + [Start] + rest;
      HeldAppend(log + write + [Clear(ADDR7F)], Start);
      HeldThrough(log + write + [Clear(ADDR7F)] + [Start], rest);
      assert log + write == log + [Start] + write[1..];
      HeldAppend(log, Start);
      HeldThrough(log + [Start], write[1..]);
    } else {
      HeldAppend(log, Start);
      HeldThrough(log + [Start], WriteHeader(false, address)[1..]);
      HeldThrough(log + [Start], ReadHeader(false, address)[1..]);
      assert log + WriteHeader(false, address) == log + [Start] + WriteHeader(false, address)[1..];
      assert log + ReadHeader(false, address) == log + [Start] + ReadHeader(false, address)[1..];
    }
  }

  /** A read that ran to the end has released the bus. */
  lemma HeldFetches(log: seq<Event>, bs: seq<Byte>)
    requires bs != []
    ensures !BusHeld(log + (if |bs| == 1 then [Stop] else []) + Fetches(|bs|, bs))
  {
    var n := |bs|;
    if n == 1 {
      HeldAppend(log, Stop);
      HeldThrough(log + [Stop], Fetches(1, bs));
    } else {
      var k, b, c := n - 2, bs[n - 2], bs[n - 1];
      assert bs == bs[..k] + [b, c];
      FetchLast(n, bs[..k], b, c);
      hide Fetches, BusHeld;
      var part := log + Fetches(n, bs[..k]) + [Seen(TDC)];
      HeldAppend(part, Stop);
      HeldThrough(part + [Stop], [Read(b), Read(c)]);
      assert log + [] + Fetches(n, bs) == part + [Stop] + [Read(b), Read(c)];
    }
  }

  /** The 10-bit form of section 3.1.11: two distinguishable bytes from which the target's address comes back. */
  lemma TenBitAddress(address: bv16, read: bool)
    ensures Header(address, read) & 0xF8 == 0xF0
    ensures Header(address, read) & 1 == (if read then 1 else 0)
    ensures ((Header(address, read) as bv16 & 0x06) << 7) | Low(address) as bv16 == address & 0x03FF
  {
  }

  /** A 7-bit address: the upper seven bits of its byte are the address, the lowest is the direction. */
  lemma SevenBitAddress(address: bv16)
    ensures (Low(address) & 0xFE) as bv16 == address & 0x00FE
    ensures (Low(address) | 1) as bv16 == (address & 0x00FE) | 1
  {
  }

  /** Both bytes of a 16-bit memory address go out, the high one first; of an 8-bit one, the low byte. */
  lemma MemoryAddress(address: bv16)
    ensures var es := MemoryHeader(WIDTH_16, address);
            && |es| == 3 && es[0].Write? && es[1] == Seen(TDBE) && es[2].Write?
            && ((es[0].b as bv16) << 8) | es[2].b as bv16 == address
    ensures var es := MemoryHeader(WIDTH_8, address);
            |es| == 1 && es[0].Write? && es[0].b as bv16 == address & 0x00FF
  {
  }

  /** What a failed acknowledge leaves in the trace: it is answered by a STOP at once. */
  const REFUSED := [Seen(ACKFAIL), Stop, Clear(ACKFAIL)]

  /** Only a prefix of `full` was done, then a failed acknowledge answered if it was one, then `stops` STOPs. */
  ghost predicate CutShort(before: seq<Event>, full: seq<Event>, after: seq<Event>, sent: nat, refused: bool,
                           stops: nat) {
    sent <= |full| && after == before + full[..sent] + (if refused then REFUSED else []) + Stops(stops)
  }

  /**
   * Given up waiting for `flag`: everything before one of its places in `full`
   * was done, and the wait was refused or else ran to its end, as `patient` tells;
   * a wait for STARTF does not mind a refusal.
   */
  ghost predicate Aborted(before: seq<Event>, full: seq<Event>, flag: Flag, after: seq<Event>, stops: nat,
                          patient: bool) {
    exists sent: nat, refused: bool ::
      && sent < |full| && full[sent] == Seen(flag) && (if refused then flag != STARTF else patient)
      && CutShort(before, full, after, sent, refused, stops)
  }

  lemma CutNow(before: seq<Event>, full: seq<Event>, flag: Flag, after: seq<Event>, sent: nat, refused: bool,
               patient: bool)
    requires sent < |full| && full[sent] == Seen(flag) && (if refused then flag != STARTF else patient)
    requires after == before + full[..sent] + if refused then REFUSED else []
    ensures Aborted(before, full, flag, after, 0, patient)
  {
    assert CutShort(before, full, after, sent, refused, 0);
  }

  /** Giving up after `full` was cut short: the caller adds its own STOP, and the bus is released. */
  lemma AbortedStop(before: seq<Event>, full: seq<Event>, flag: Flag, after: seq<Event>, stops: nat, patient: bool,
                    still: bool)
    requires Aborted(before, full, flag, after, stops, patient) && (patient ==> still)
    ensures Aborted(before, full, flag, after + [Stop], stops + 1, still)
    ensures !BusHeld(after + [Stop])
  {
    var sent: nat, refused: bool :|
      && sent < |full| && full[sent] == Seen(flag) && (if refused then flag != STARTF else patient)
      && CutShort(before, full, after, sent, refused, stops);
    assert Stops(stops) + [Stop] == Stops(stops + 1);
    assert CutShort(before, full, after + [Stop], sent, refused, stops + 1);
    HeldAppend(after, Stop);
  }

  lemma AbortedStill(before: seq<Event>, full: seq<Event>, flag: Flag, after: seq<Event>, stops: nat, patient: bool,
                     still: bool)
    requires Aborted(before, full, flag, after, stops, patient) && (patient ==> still)
    ensures Aborted(before, full, flag, after, stops, still)
  {
    var sent: nat, refused: bool :|
      && sent < |full| && full[sent] == Seen(flag) && (if refused then flag != STARTF else patient)
      && CutShort(before, full, after, sent, refused, stops);
    assert CutShort(before, full, after, sent, refused, stops);
  }

  /** The same, seen from a transfer that began earlier and goes on longer. */
  lemma AbortedWithin(before: seq<Event>, done: seq<Event>, part: seq<Event>, rest: seq<Event>,
                      flag: Flag, after: seq<Event>, stops: nat, patient: bool, still: bool)
    requires Aborted(before + done, part, flag, after, stops, patient) && (patient ==> still)
    ensures Aborted(before, done + part + rest, flag, after, stops, still)
  {
    var sent: nat, refused: bool :|
      && sent < |part| && part[sent] == Seen(flag) && (if refused then flag != STARTF else patient)
      && CutShort(before + done, part, after, sent, refused, stops);
    var full := done + part + rest;
    assert full[..|done| + sent] == done + part[..sent] && full[|done| + sent] == Seen(flag);
    assert before + done + part[..sent] == before + full[..|done| + sent];
    assert CutShort(before, full, after, |done| + sent, refused, stops);
  }
}
