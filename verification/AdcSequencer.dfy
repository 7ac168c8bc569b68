/**
 * The channel-set functions of at32f403a_407_adc.c: bit fields packed in six
 * registers that together behave like three plain arrays.
 */
module AdcSequencer {
  const RANK: bv32 := 0x1F
  const TIME: bv32 := 0x07
  const LENGTH: bv32 := 0x03

  /** A bit position in a register. */
  type Place = s: bv32 | s <= 31

  /** The field of mask `m` at bit `s`. */
  function Get(reg: bv32, m: bv32, s: Place): bv32 { (reg >> s) & m }

  /** The bits from `s` on. */
  function Above(reg: bv32, s: Place): bv32 { reg >> s }

  /** Replaces the field of mask `m` at bit `s` by `v`. */
  function Put(reg: bv32, m: bv32, s: Place, v: bv32): bv32 { (reg & !(m << s)) | (v << s) }

  /** Where the k-th five-bit field of a register begins. */
  function By5(k: nat): Place
    requires k < 6
  {
    5 * (k as bv32)
  }

  /** Where the k-th three-bit field of a register begins. */
  function By3(k: nat): Place
    requires k < 10
  {
    3 * (k as bv32)
  }

  lemma By5Places(k: nat)
    requires k < 6
    ensures At5(By5(k)) && (k < 4 ==> By5(k) <= 15)
  {
  }

  lemma By3Places(k: nat)
    requires k < 10
    ensures At3(By3(k)) && (k < 8 ==> By3(k) <= 21)
  {
  }

  /** A channel number as it is stored. */
  function Code(ch: nat): (v: bv32)
    requires ch < 18
    ensures v <= RANK
  {
    ch as bv32
  }

  /** A group length as it is stored. */
  function Fewer(length: nat): bv32
    requires 1 <= length <= 4
  {
    (length - 1) as bv32
  }

  predicate At5(s: bv32) { s == 0 || s == 5 || s == 10 || s == 15 || s == 20 || s == 25 }

  predicate At3(s: bv32) {
    s == 0 || s == 3 || s == 6 || s == 9 || s == 12 || s == 15 || s == 18 || s == 21 || s == 24 || s == 27
  }

  /** The plain arrays; `preempt` is the length of the preempt group, whose conversions are its last slots. */
  datatype Sequencer = Sequencer(ranks: seq<bv32>, times: seq<bv32>, slots: seq<bv32>, preempt: nat, rest: seq<bv32>)
  {
    ghost predicate Valid() {
      |ranks| == 16 && |times| == 18 && |slots| == 4 && 1 <= preempt <= 4
    }

    function Ordinary(ch: nat, rank: nat, time: bv32): Sequencer
      requires |ranks| == 16 && |times| == 18 && ch < 18 && 1 <= rank <= 16
    {
      this.(ranks := ranks[rank - 1 := Code(ch)], times := times[ch := time])
    }

    /** The conversions of the preempt group, in order. */
    function Group(): seq<bv32>
      requires |slots| == 4 && preempt <= 4
    {
      slots[4 - preempt..]
    }

    /** Rank `rank` of the group; a rank beyond its length changes no slot. */
    function Preempt(ch: nat, rank: nat, time: bv32): Sequencer
      requires |slots| == 4 && |times| == 18 && ch < 18 && 1 <= rank <= 4 && 1 <= preempt <= 4
    {
      this.(slots := if rank <= preempt then slots[rank + 3 - preempt := Code(ch)] else slots,
            times := times[ch := time])
    }
  }

  datatype Registers = Registers(spt1: bv32, spt2: bv32, osq1: bv32, osq2: bv32, osq3: bv32, psq: bv32)
  {
    function Rank(i: nat): bv32
      requires i < 16
    {
      if i >= 12 then Get(osq1, RANK, By5(i - 12))
      else if i >= 6 then Get(osq2, RANK, By5(i - 6))
      else Get(osq3, RANK, By5(i))
    }

    function Time(c: nat): bv32
      requires c < 18
    {
      if c < 10 then Get(spt2, TIME, By3(c)) else Get(spt1, TIME, By3(c - 10))
    }

    function Slot(i: nat): bv32
      requires i < 4
    {
      Get(psq, RANK, By5(i))
    }

    /** The sample time of one channel, in the register that holds it. */
    function SetTime(ch: nat, time: bv32): Registers
      requires ch < 18
    {
      if ch < 10 then this.(spt2 := Put(spt2, TIME, By3(ch), time))
      else this.(spt1 := Put(spt1, TIME, By3(ch - 10), time))
    }

    /** The channel converted at one rank, in the register that holds the rank. */
    function SetRank(ch: nat, rank: nat): Registers
      requires ch < 18 && 1 <= rank <= 16
    {
      if rank >= 13 then this.(osq1 := Put(osq1, RANK, By5(rank - 13), Code(ch)))
      else if rank >= 7 then this.(osq2 := Put(osq2, RANK, By5(rank - 7), Code(ch)))
      else this.(osq3 := Put(osq3, RANK, By5(rank - 1), Code(ch)))
    }

    /** The channel at one rank of the preempt group: its conversions are in the last slots. */
    function SetSlot(ch: nat, rank: nat): Registers
      requires ch < 18 && 1 <= rank <= 4
    {
      var index := rank + 3 - Pclen();
      if index <= 4 then this.(psq := Put(psq, RANK, By5(index - 1), Code(ch))) else this
    }

    function Pclen(): (n: nat)
      ensures n <= 3
    {
      Length(Above(psq, 20))
    }

    /** Length of the ordinary group and reserved bits. */
    function Rest(): seq<bv32> {
      [Above(spt1, 24), Above(spt2, 30), Above(osq1, 20), Above(osq2, 30), Above(osq3, 30), Above(Above(psq, 20), 2)]
    }

    function Decode(): Sequencer {
      Sequencer(seq(16, i requires 0 <= i < 16 => Rank(i)), seq(18, c requires 0 <= c < 18 => Time(c)),
                seq(4, i requires 0 <= i < 4 => Slot(i)), Pclen() + 1, Rest())
    }
  }

  function Length(field: bv32): (n: nat)
    ensures n <= 3
  {
    (field & 3) as nat
  }

  class Adc {
    var spt1: bv32
    var spt2: bv32
    var osq1: bv32
    var osq2: bv32
    var osq3: bv32
    var psq: bv32

    ghost function Packed(): Registers
      reads this
    {
      Registers(spt1, spt2, osq1, osq2, osq3, psq)
    }

    method SampleTimeSet(ch: nat, time: bv32)
      requires ch < 18
      modifies this`spt1, this`spt2
      ensures Packed() == old(Packed()).SetTime(ch, time)
    {
      hide Put;
      if ch < 10 {
        spt2 := Put(spt2, TIME, By3(ch), time);
      } else {
        spt1 := Put(spt1, TIME, By3(ch - 10), time);
      }
    }

    method OrdinaryChannelSet(ch: nat, rank: nat, time: bv32)
      requires ch < 18 && 1 <= rank <= 16 && time <= TIME
      modifies this
      ensures Packed() == old(Packed()).SetTime(ch, time).SetRank(ch, rank)
      ensures Packed().Decode() == old(Packed().Decode()).Ordinary(ch, rank, time)
    {
      hide Put, By3, By5, Code, Registers.SetTime, Registers.Decode, Sequencer.Ordinary;
      OrdinaryDecodes(Packed(), ch, rank, time);
      SampleTimeSet(ch, time);
      if rank >= 13 {
        osq1 := Put(osq1, RANK, By5(rank - 13), Code(ch));
      } else if rank >= 7 {
        osq2 := Put(osq2, RANK, By5(rank - 7), Code(ch));
      } else {
        osq3 := Put(osq3, RANK, By5(rank - 1), Code(ch));
      }
    }

    method PreemptChannelLengthSet(length: nat)
      requires 1 <= length <= 4
      modifies this`psq
      ensures Packed().Decode() == old(Packed().Decode()).(preempt := length)
    {
      hide Registers.Decode;
      LengthDecodes(Packed(), length);
      psq := Put(psq, LENGTH, 20, Fewer(length));
    }

    method PreemptChannelSet(ch: nat, rank: nat, time: bv32)
      requires ch < 18 && 1 <= rank <= 4 && time <= TIME
      modifies this
      ensures Packed() == old(Packed()).SetTime(ch, time).SetSlot(ch, rank)
      ensures Packed().Decode() == old(Packed().Decode()).Preempt(ch, rank, time)
    {
      hide Put, By3, By5, Code, Above, Registers.SetTime, Registers.Decode, Sequencer.Preempt, Length;
      PreemptDecodes(Packed(), ch, rank, time);
      SampleTimeSet(ch, time);
      var index := rank + 3 - Length(Above(psq, 20));
      if index <= 4 {
        psq := Put(psq, RANK, By5(index - 1), Code(ch));
      }
    }
  }

  // Refinement

  lemma TimeDecodes(r: Registers, ch: nat, time: bv32)
    requires ch < 18 && time <= TIME
    ensures r.SetTime(ch, time).Decode() == r.Decode().(times := r.Decode().times[ch := time])
  {
    hide Get, Put, By3, By5, Above, Length;
    var q := r.SetTime(ch, time);
    assert q.osq1 == r.osq1 && q.osq2 == r.osq2 && q.osq3 == r.osq3 && q.psq == r.psq;
    hide Registers.SetTime;
    SamePreempt(r, q);
    SameRanks(r, q);
    TimeRest(r, ch, time);
    forall c: nat | c < 18 ensures q.Time(c) == if c == ch then time else r.Time(c) {
      TimeAt(r, ch, time, c);
    }
    hide Registers.Rank, Registers.Time, Registers.Slot, Registers.Rest, Registers.Pclen;
    DecodeIs(q, r.Decode().(times := r.Decode().times[ch := time]));
  }

  lemma SameRanks(r: Registers, q: Registers)
    requires q.osq1 == r.osq1 && q.osq2 == r.osq2 && q.osq3 == r.osq3
    ensures forall i: nat :: i < 16 ==> q.Rank(i) == r.Rank(i)
  {
  }

  lemma SameTimes(r: Registers, q: Registers)
    requires q.spt1 == r.spt1 && q.spt2 == r.spt2
    ensures forall c: nat :: c < 18 ==> q.Time(c) == r.Time(c)
  {
  }

  lemma SamePreempt(r: Registers, q: Registers)
    requires q.psq == r.psq
    ensures q.Pclen() == r.Pclen() && forall i: nat :: i < 4 ==> q.Slot(i) == r.Slot(i)
  {
  }

  /** Registers that read as the arrays of `d` decode to `d`. */
  lemma DecodeIs(q: Registers, d: Sequencer)
    requires d.Valid() && d.rest == q.Rest() && d.preempt == q.Pclen() + 1
    requires forall i: nat :: i < 16 ==> q.Rank(i) == d.ranks[i]
    requires forall c: nat :: c < 18 ==> q.Time(c) == d.times[c]
    requires forall i: nat :: i < 4 ==> q.Slot(i) == d.slots[i]
    ensures q.Decode() == d
  {
  }

  lemma TimeAt(r: Registers, ch: nat, time: bv32, c: nat)
    requires ch < 18 && time <= TIME && c < 18
    ensures r.SetTime(ch, time).Time(c) == if c == ch then time else r.Time(c)
  {
    hide Get, Put, By3;
    if ch < 10 <==> c < 10 {
      FieldAt3(if ch < 10 then r.spt2 else r.spt1, if ch < 10 then ch else ch - 10, if c < 10 then c else c - 10, time);
    }
  }

  lemma TimeRest(r: Registers, ch: nat, time: bv32)
    requires ch < 18 && time <= TIME
    ensures r.SetTime(ch, time).Rest() == r.Rest()
  {
    hide Get, Put, Above, At3, By3, Code;
    if ch < 10 {
      By3Places(ch);
      PutSame3(r.spt2, By3(ch), time);
    } else {
      By3Places(ch - 10);
      PutSame3(r.spt1, By3(ch - 10), time);
    }
  }

  lemma FieldAt3(reg: bv32, i: nat, j: nat, v: bv32)
    requires i < 10 && j < 10 && v <= TIME
    ensures Get(Put(reg, TIME, By3(i), v), TIME, By3(j)) == if i == j then v else Get(reg, TIME, By3(j))
  {
    hide Get, Put, At3, By3;
    By3Places(i);
    By3Places(j);
    if i == j {
      PutSame3(reg, By3(i), v);
    } else {
      Distinct3(i, j);
      PutOther3(reg, By3(i), By3(j), v);
    }
  }

  lemma FieldAt5(reg: bv32, i: nat, j: nat, v: bv32)
    requires i < 6 && j < 6 && v <= RANK
    ensures Get(Put(reg, RANK, By5(i), v), RANK, By5(j)) == if i == j then v else Get(reg, RANK, By5(j))
  {
    hide Get, Put, At5, By5;
    By5Places(i);
    By5Places(j);
    if i == j {
      PutSame5(reg, By5(i), v);
    } else {
      Distinct5(i, j);
      PutOther5(reg, By5(i), By5(j), v);
    }
  }

  lemma Distinct3(i: nat, j: nat)
    requires i < 10 && j < 10 && i != j
    ensures By3(i) != By3(j)
  {
  }

  lemma Distinct5(i: nat, j: nat)
    requires i < 6 && j < 6 && i != j
    ensures By5(i) != By5(j)
  {
  }

  lemma RankDecodes(r: Registers, ch: nat, rank: nat)
    requires ch < 18 && 1 <= rank <= 16
    ensures r.SetRank(ch, rank).Decode() == r.Decode().(ranks := r.Decode().ranks[rank - 1 := Code(ch)])
  {
    hide Get, Put, By3, By5, Above, Length;
    var q := r.SetRank(ch, rank);
    RankKeeps(r, ch, rank);
    hide Registers.SetRank;
    SamePreempt(r, q);
    SameTimes(r, q);
    RankRest(r, ch, rank);
    forall i: nat | i < 16 ensures q.Rank(i) == if i == rank - 1 then Code(ch) else r.Rank(i) {
      RankAt(r, ch, rank, i);
    }
    hide Registers.Rank, Registers.Time, Registers.Slot, Registers.Rest, Registers.Pclen, Code;
    DecodeIs(q, r.Decode().(ranks := r.Decode().ranks[rank - 1 := Code(ch)]));
  }

  lemma RankAt(r: Registers, ch: nat, rank: nat, i: nat)
    requires ch < 18 && 1 <= rank <= 16 && i < 16
    ensures r.SetRank(ch, rank).Rank(i) == if i == rank - 1 then Code(ch) else r.Rank(i)
  {
    hide Get, Put, By5, Code;
    var v := Code(ch);
    if rank >= 13 && i >= 12 {
      FieldAt5(r.osq1, rank - 13, i - 12, v);
    } else if 7 <= rank < 13 && 6 <= i < 12 {
      FieldAt5(r.osq2, rank - 7, i - 6, v);
    } else if rank < 7 && i < 6 {
      FieldAt5(r.osq3, rank - 1, i, v);
    }
  }

  lemma RankKeeps(r: Registers, ch: nat, rank: nat)
    requires ch < 18 && 1 <= rank <= 16
    ensures var q := r.SetRank(ch, rank); q.spt1 == r.spt1 && q.spt2 == r.spt2 && q.psq == r.psq
  {
    hide Put, By5, Code;
  }

  lemma RankRest(r: Registers, ch: nat, rank: nat)
    requires ch < 18 && 1 <= rank <= 16
    ensures r.SetRank(ch, rank).Rest() == r.Rest()
  {
    hide Get, Put, Above, At5, By5, Code;
    var v := Code(ch);
    if rank >= 13 {
      By5Places(rank - 13);
      PutAbove5(r.osq1, By5(rank - 13), v);
    } else if rank >= 7 {
      By5Places(rank - 7);
      PutAbove5(r.osq2, By5(rank - 7), v);
    } else {
      By5Places(rank - 1);
      PutAbove5(r.osq3, By5(rank - 1), v);
    }
  }

  lemma SlotDecodes(r: Registers, ch: nat, rank: nat)
    requires ch < 18 && 1 <= rank <= 4
    ensures var d := r.Decode();
      r.SetSlot(ch, rank).Decode() ==
      d.(slots := if rank <= d.preempt then d.slots[rank + 3 - d.preempt := Code(ch)] else d.slots)
  {
    hide Get, Put, By3, By5, Above, Length, Code;
    if rank <= r.Pclen() + 1 {
      var at := rank + 2 - r.Pclen();
      SlotPut(r, ch, at);
    }
  }

  lemma SlotPut(r: Registers, ch: nat, at: nat)
    requires ch < 18 && at < 4
    ensures r.(psq := Put(r.psq, RANK, By5(at), Code(ch))).Decode()
            == r.Decode().(slots := r.Decode().slots[at := Code(ch)])
  {
    hide Get, Put, By3, By5, Above, Length, Code;
    var q := r.(psq := Put(r.psq, RANK, By5(at), Code(ch)));
    SameRanks(r, q);
    SameTimes(r, q);
    SlotRest(r, ch, at);
    forall i: nat | i < 4 ensures q.Slot(i) == if i == at then Code(ch) else r.Slot(i) {
      SlotAt(r, ch, at, i);
    }
    assert q.Rest() == r.Rest() && q.Pclen() == r.Pclen();
    hide Registers.Rank, Registers.Time, Registers.Slot, Registers.Rest, Registers.Pclen;
    DecodeIs(q, r.Decode().(slots := r.Decode().slots[at := Code(ch)]));
  }

  lemma SlotAt(r: Registers, ch: nat, at: nat, i: nat)
    requires ch < 18 && at < 4 && i < 4
    ensures Get(Put(r.psq, RANK, By5(at), Code(ch)), RANK, By5(i)) == if i == at then Code(ch) else r.Slot(i)
  {
    hide Get, Put, By5, Code;
    FieldAt5(r.psq, at, i, Code(ch));
  }

  lemma SlotRest(r: Registers, ch: nat, at: nat)
    requires ch < 18 && at < 4
    ensures Above(Put(r.psq, RANK, By5(at), Code(ch)), 20) == Above(r.psq, 20)
  {
  }

  /** A call of adc_ordinary_channel_set updates one rank and one sample time, and nothing else. */
  lemma OrdinaryDecodes(r: Registers, ch: nat, rank: nat, time: bv32)
    requires ch < 18 && 1 <= rank <= 16 && time <= TIME
    ensures r.SetTime(ch, time).SetRank(ch, rank).Decode() == r.Decode().Ordinary(ch, rank, time)
  {
    hide Registers.Decode, Registers.SetTime, Registers.SetRank;
    TimeDecodes(r, ch, time);
    RankDecodes(r.SetTime(ch, time), ch, rank);
    Sized(r);
  }

  lemma Sized(r: Registers)
    ensures r.Decode().Valid()
  {
  }

  /** A call of adc_preempt_channel_set updates one conversion of the preempt group and one sample time. */
  lemma PreemptDecodes(r: Registers, ch: nat, rank: nat, time: bv32)
    requires ch < 18 && 1 <= rank <= 4 && time <= TIME
    ensures r.SetTime(ch, time).SetSlot(ch, rank).Decode() == r.Decode().Preempt(ch, rank, time)
  {
    hide Registers.Decode, Registers.SetTime, Registers.SetSlot;
    TimeDecodes(r, ch, time);
    SlotDecodes(r.SetTime(ch, time), ch, rank);
    Sized(r);
  }

  lemma PutLength(x: bv32, length: nat)
    requires 1 <= length <= 4
    ensures var y := Put(x, LENGTH, 20, Fewer(length));
            Length(Above(y, 20)) == length - 1 && Above(Above(y, 20), 2) == Above(Above(x, 20), 2)
    ensures Fewer(length) <= 3
  {
    PutLengthBits(x, Fewer(length));
    hide Put, Above;
  }

  lemma PutLengthBits(x: bv32, v: bv32)
    requires v <= 3
    ensures var y := Put(x, LENGTH, 20, v); Above(y, 20) & 3 == v && Above(Above(y, 20), 2) == Above(Above(x, 20), 2)
  {
  }

  lemma SlotBelow(x: bv32, s: bv32, v: bv32)
    requires At5(s) && s <= 15 && v <= 3
    ensures Get(Put(x, LENGTH, 20, v), RANK, s) == Get(x, RANK, s)
  {
    View5(x, s);
    View5(Put(x, LENGTH, 20, v), s);
    BelowLength(s, v);
    Bits(x, LENGTH << 20, RANK << s, v << 20);
    hide Get, At5;
  }

  lemma BelowLength(s: bv32, v: bv32)
    requires At5(s) && s <= 15 && v <= 3
    ensures (RANK << s) & (LENGTH << 20) == 0 && (v << 20) & !(LENGTH << 20) == 0
  {
  }

  /** Changing the group's length moves its window over the slots and keeps them. */
  lemma LengthDecodes(r: Registers, length: nat)
    requires 1 <= length <= 4
    ensures r.(psq := Put(r.psq, LENGTH, 20, Fewer(length))).Decode() == r.Decode().(preempt := length)
  {
    hide Put, Get, By3, By5, Above, Length, Fewer;
    var v := Fewer(length);
    var q := r.(psq := Put(r.psq, LENGTH, 20, v));
    PutLength(r.psq, length);
    assert q.Rest() == r.Rest() && q.Pclen() == length - 1;
    SameRanks(r, q);
    SameTimes(r, q);
    forall i: nat | i < 4 ensures q.Slot(i) == r.Slot(i) {
      By5Places(i);
      SlotBelow(r.psq, By5(i), v);
    }
    hide Registers.Rank, Registers.Time, Registers.Slot, Registers.Rest, Registers.Pclen;
    DecodeIs(q, r.Decode().(preempt := length));
  }

  // One field

  lemma Bits(a: bv32, ms: bv32, mt: bv32, w: bv32)
    requires mt & ms == 0 && w & !ms == 0
    ensures ((a & !ms) | w) & mt == a & mt
  {
  }

  lemma View5(x: bv32, t: bv32)
    requires At5(t)
    ensures Get(x, RANK, t) == (x & (RANK << t)) >> t
  {
  }

  lemma View3(x: bv32, t: bv32)
    requires At3(t)
    ensures Get(x, TIME, t) == (x & (TIME << t)) >> t
  {
  }

  lemma Apart5(s: bv32, t: bv32)
    requires At5(s) && At5(t) && s != t
    ensures (RANK << t) & (RANK << s) == 0
  {
  }

  lemma Apart3(s: bv32, t: bv32)
    requires At3(s) && At3(t) && s != t
    ensures (TIME << t) & (TIME << s) == 0
  {
  }

  lemma Fits5(s: bv32, v: bv32)
    requires At5(s) && v <= RANK
    ensures (v << s) & !(RANK << s) == 0
  {
  }

  lemma Fits3(s: bv32, v: bv32)
    requires At3(s) && v <= TIME
    ensures (v << s) & !(TIME << s) == 0
  {
  }

  lemma PutSame5(x: bv32, s: bv32, v: bv32)
    requires At5(s) && v <= RANK
    ensures Get(Put(x, RANK, s, v), RANK, s) == v
  {
  }

  /** Writing a rank disturbs no length field and no reserved bit. */
  lemma PutAbove5(x: bv32, s: bv32, v: bv32)
    requires At5(s) && v <= RANK
    ensures s <= 15 ==> Above(Put(x, RANK, s, v), 20) == Above(x, 20)
    ensures Above(Put(x, RANK, s, v), 30) == Above(x, 30)
  {
  }

  lemma PutSame3(x: bv32, s: bv32, v: bv32)
    requires At3(s) && v <= TIME
    ensures Get(Put(x, TIME, s, v), TIME, s) == v
    ensures s <= 21 ==> Above(Put(x, TIME, s, v), 24) == Above(x, 24)
    ensures Above(Put(x, TIME, s, v), 30) == Above(x, 30)
  {
  }

  /** A rank written at one place is not seen at any other. */
  lemma PutOther5(x: bv32, s: bv32, t: bv32, v: bv32)
    requires At5(s) && At5(t) && s != t && v <= RANK
    ensures Get(Put(x, RANK, s, v), RANK, t) == Get(x, RANK, t)
  {
    View5(x, t);
    View5(Put(x, RANK, s, v), t);
    Apart5(s, t);
    Fits5(s, v);
    Bits(x, RANK << s, RANK << t, v << s);
    hide Get, At5;
  }

  lemma PutOther3(x: bv32, s: bv32, t: bv32, v: bv32)
    requires At3(s) && At3(t) && s != t && v <= TIME
    ensures Get(Put(x, TIME, s, v), TIME, t) == Get(x, TIME, t)
  {
    View3(x, t);
    View3(Put(x, TIME, s, v), t);
    Apart3(s, t);
    Fits3(s, v);
    Bits(x, TIME << s, TIME << t, v << s);
    hide Get, At3;
  }

  /** A register as six fields of five bits, from bit 0 up. */
  function Fives(x: bv32): (fs: seq<bv32>)
    ensures |fs| == 6
  {
    [x & 31, (x >> 5) & 31, (x >> 10) & 31, (x >> 15) & 31, (x >> 20) & 31, (x >> 25) & 31]
  }

  /** A register as ten fields of three bits, from bit 0 up. */
  function Threes(x: bv32): (fs: seq<bv32>)
    ensures |fs| == 10
  {
    [x & 7, (x >> 3) & 7, (x >> 6) & 7, (x >> 9) & 7, (x >> 12) & 7,
     (x >> 15) & 7, (x >> 18) & 7, (x >> 21) & 7, (x >> 24) & 7, (x >> 27) & 7]
  }

  /** Where each rank, sample time and slot lies, and the length. */
  lemma Layout(r: Registers)
    ensures r.Decode().ranks == Fives(r.osq3) + Fives(r.osq2) + Fives(r.osq1)[..4]
    ensures r.Decode().times == Threes(r.spt2) + Threes(r.spt1)[..8]
    ensures r.Decode().slots == Fives(r.psq)[..4]
    ensures r.Decode().preempt == ((r.psq >> 20) & 3) as nat + 1
  {
    RankLayout(r);
    TimeLayout(r);
    SlotLayout(r);
    hide Registers.Rank, Registers.Time, Registers.Slot, Registers.Rest, Fives, Threes;
  }

  lemma RankLayout(r: Registers)
    ensures forall i: nat :: i < 16 ==> r.Rank(i) == (Fives(r.osq3) + Fives(r.osq2) + Fives(r.osq1)[..4])[i]
  {
    Fields5(r.osq1);
    Fields5(r.osq2);
    Fields5(r.osq3);
    hide Get, By5, Fives;
  }

  lemma TimeLayout(r: Registers)
    ensures forall c: nat :: c < 18 ==> r.Time(c) == (Threes(r.spt2) + Threes(r.spt1)[..8])[c]
  {
    Fields3(r.spt1);
    Fields3(r.spt2);
    hide Get, By3, Threes;
  }

  lemma SlotLayout(r: Registers)
    ensures forall i: nat :: i < 4 ==> r.Slot(i) == Fives(r.psq)[..4][i]
  {
    Fields5(r.psq);
    hide Get, By5, Fives;
  }

  lemma Fields5(x: bv32)
    ensures forall k: nat :: k < 6 ==> Get(x, RANK, By5(k)) == Fives(x)[k]
  {
    Places();
    hide By5;
    assert x >> 0 == x;
    var fs := Fives(x);
    assert Get(x, RANK, 0) == fs[0] && Get(x, RANK, 5) == fs[1] && Get(x, RANK, 10) == fs[2];
    assert Get(x, RANK, 15) == fs[3] && Get(x, RANK, 20) == fs[4] && Get(x, RANK, 25) == fs[5];
    hide Get, Fives;
  }

  lemma Fields3(x: bv32)
    ensures forall k: nat :: k < 10 ==> Get(x, TIME, By3(k)) == Threes(x)[k]
  {
    Places();
    hide By3;
    assert x >> 0 == x;
    var fs := Threes(x);
    assert Get(x, TIME, 0) == fs[0] && Get(x, TIME, 3) == fs[1] && Get(x, TIME, 6) == fs[2];
    assert Get(x, TIME, 9) == fs[3] && Get(x, TIME, 12) == fs[4] && Get(x, TIME, 15) == fs[5];
    assert Get(x, TIME, 18) == fs[6] && Get(x, TIME, 21) == fs[7] && Get(x, TIME, 24) == fs[8];
    assert Get(x, TIME, 27) == fs[9];
    hide Get, Threes;
  }

  lemma Places()
    ensures By5(0) == 0 && By5(1) == 5 && By5(2) == 10 && By5(3) == 15 && By5(4) == 20 && By5(5) == 25
    ensures By3(0) == 0 && By3(1) == 3 && By3(2) == 6 && By3(3) == 9 && By3(4) == 12
    ensures By3(5) == 15 && By3(6) == 18 && By3(7) == 21 && By3(8) == 24 && By3(9) == 27
  {
  }

  // Runs of calls

  datatype Call = Ordinary(ch: nat, rank: nat, time: bv32) | Preempt(ch: nat, rank: nat, time: bv32)
  {
    /** The arguments the driver documents. */
    ghost predicate InRange() {
      ch < 18 && time <= TIME && 1 <= rank <= if Ordinary? then 16 else 4
    }
  }

  ghost predicate AllInRange(calls: seq<Call>) { forall i :: 0 <= i < |calls| ==> calls[i].InRange() }

  function PackedStep(r: Registers, call: Call): Registers
    requires call.InRange()
  {
    match call
    case Ordinary(ch, rank, time) => r.SetTime(ch, time).SetRank(ch, rank)
    case Preempt(ch, rank, time) => r.SetTime(ch, time).SetSlot(ch, rank)
  }

  function PlainStep(d: Sequencer, call: Call): (e: Sequencer)
    requires d.Valid() && call.InRange()
    ensures e.Valid() && e.rest == d.rest && e.preempt == d.preempt
  {
    match call
    case Ordinary(ch, rank, time) => d.Ordinary(ch, rank, time)
    case Preempt(ch, rank, time) => d.Preempt(ch, rank, time)
  }

  function PackedRun(r: Registers, calls: seq<Call>): Registers
    requires AllInRange(calls)
  {
    if calls == [] then r else PackedStep(PackedRun(r, calls[..|calls| - 1]), calls[|calls| - 1])
  }

  function PlainRun(d: Sequencer, calls: seq<Call>): (e: Sequencer)
    requires d.Valid() && AllInRange(calls)
    ensures e.Valid() && e.rest == d.rest && e.preempt == d.preempt
  {
    if calls == [] then d else PlainStep(PlainRun(d, calls[..|calls| - 1]), calls[|calls| - 1])
  }

  lemma StepRefines(r: Registers, call: Call)
    requires call.InRange()
    ensures r.Decode().Valid() && PackedStep(r, call).Decode() == PlainStep(r.Decode(), call)
  {
    hide Registers.Decode, Registers.SetTime, Registers.SetRank;
    hide Registers.SetSlot, Sequencer.Ordinary, Sequencer.Preempt;
    Sized(r);
    match call
    case Ordinary(ch, rank, time) => OrdinaryDecodes(r, ch, rank, time);
    case Preempt(ch, rank, time) => PreemptDecodes(r, ch, rank, time);
  }

  /** Any run of calls leaves the packed registers decoding to the plain arrays after the same run. */
  lemma {:induction false} RunRefines(r: Registers, calls: seq<Call>)
    requires AllInRange(calls)
    ensures r.Decode().Valid() && PackedRun(r, calls).Decode() == PlainRun(r.Decode(), calls)
  {
    hide Registers.Decode, PackedStep, PlainStep;
    Sized(r);
    if calls != [] {
      RunRefines(r, calls[..|calls| - 1]);
      StepRefines(PackedRun(r, calls[..|calls| - 1]), calls[|calls| - 1]);
    }
  }

  /** Within the group's length a preempt call updates the group at its rank; beyond it, no slot changes. */
  lemma GroupPointwise(d: Sequencer, ch: nat, rank: nat, time: bv32)
    requires d.Valid() && ch < 18 && 1 <= rank <= 4
    ensures var e := d.Preempt(ch, rank, time);
      e.slots[..4 - d.preempt] == d.slots[..4 - d.preempt]
      && e.Group() == if rank <= d.preempt then d.Group()[rank - 1 := Code(ch)] else d.Group()
  {
  }

  /** The arrays show what a call wrote: its sample time, its rank, or both. */
  ghost predicate Shows(e: Sequencer, c: Call, time: bool, rank: bool)
    requires e.Valid() && c.InRange()
  {
    && (time ==> e.times[c.ch] == c.time)
    && (rank && c.Ordinary? ==> e.ranks[c.rank - 1] as nat == c.ch)
    && (rank && c.Preempt? && c.rank <= e.preempt ==> e.Group()[c.rank - 1] as nat == c.ch)
  }

  /** A channel is stored as its own number. */
  lemma CodeIs(ch: nat)
    requires ch < 18
    ensures Code(ch) as nat == ch
  {
    if ch < 6 {
      SmallCode(ch);
    } else if ch < 12 {
      MiddleCode(ch);
    } else {
      LargeCode(ch);
    }
  }

  lemma SmallCode(ch: nat)
    requires ch < 6
    ensures ch as bv32 as nat == ch
  {
  }

  lemma MiddleCode(ch: nat)
    requires 6 <= ch < 12
    ensures ch as bv32 as nat == ch
  {
  }

  lemma LargeCode(ch: nat)
    requires 12 <= ch < 18
    ensures ch as bv32 as nat == ch
  {
  }

  lemma StepShows(d: Sequencer, call: Call, time: bool, rank: bool)
    requires d.Valid() && call.InRange()
    ensures Shows(PlainStep(d, call), call, time, rank)
  {
    CodeIs(call.ch);
    hide Code;
    if call.Preempt? {
      GroupPointwise(d, call.ch, call.rank, call.time);
    }
  }

  lemma StepStillShows(d: Sequencer, call: Call, c: Call, time: bool, rank: bool)
    requires d.Valid() && call.InRange() && c.InRange() && Shows(d, c, time, rank)
    requires (time ==> call.ch != c.ch) && (rank && call.Ordinary? == c.Ordinary? ==> call.rank != c.rank)
    ensures Shows(PlainStep(d, call), c, time, rank)
  {
    if call.Preempt? {
      GroupPointwise(d, call.ch, call.rank, call.time);
    }
  }

  /** No later call writes the same channel's sample time. */
  ghost predicate LastForChannel(calls: seq<Call>, k: nat)
    requires k < |calls|
  {
    forall i :: k < i < |calls| ==> calls[i].ch != calls[k].ch
  }

  /** No later call of the same kind writes the same rank. */
  ghost predicate LastForRank(calls: seq<Call>, k: nat)
    requires k < |calls|
  {
    forall i :: k < i < |calls| && calls[i].Ordinary? == calls[k].Ordinary? ==> calls[i].rank != calls[k].rank
  }

  lemma LastOfMore(calls: seq<Call>, k: nat)
    requires k < |calls| - 1
    ensures var last, rest := calls[|calls| - 1], calls[..|calls| - 1];
            && (LastForChannel(calls, k) ==> LastForChannel(rest, k) && last.ch != calls[k].ch)
            && (LastForRank(calls, k) && last.Ordinary? == calls[k].Ordinary? ==> last.rank != calls[k].rank)
            && (LastForRank(calls, k) ==> LastForRank(rest, k))
  {
  }

  lemma ShowsLess(e: Sequencer, c: Call, time: bool, rank: bool, time': bool, rank': bool)
    requires e.Valid() && c.InRange() && Shows(e, c, time, rank) && (time' ==> time) && (rank' ==> rank)
    ensures Shows(e, c, time', rank')
  {
  }

  /**
   * After any run a channel's sample time, an ordinary rank and a preempt rank
   * within the group's length are those of the last call for them.
   */
  lemma {:induction false} LastCallWins(d: Sequencer, calls: seq<Call>, k: nat)
    requires d.Valid() && k < |calls| && AllInRange(calls)
    ensures Shows(PlainRun(d, calls), calls[k], LastForChannel(calls, k), LastForRank(calls, k))
  {
    hide Code, PlainStep, Shows, LastForChannel, LastForRank;
    var last, rest := calls[|calls| - 1], calls[..|calls| - 1];
    var e := PlainRun(d, rest);
    if k == |rest| {
      StepShows(e, last, LastForChannel(calls, k), LastForRank(calls, k));
    } else {
      LastCallWins(d, rest, k);
      LastOfMore(calls, k);
      var time, rank := LastForChannel(calls, k), LastForRank(calls, k);
      ShowsLess(e, calls[k], LastForChannel(rest, k), LastForRank(rest, k), time, rank);
      StepStillShows(e, last, calls[k], time, rank);
    }
  }
}
