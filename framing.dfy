/** What the card sees of the traces of the `sle_bbg.c` routines: the clock
    edges, START and STOP conditions they contain, the line state they leave,
    the card levels they sample, and the commands a receiver following the
    SLE4442 signalling convention assembles from them. */
module Framing {
  import opened Bits
  import opened Lines
  import opened SleBbg

  /** The rising CK edge the card sees in line state `s` (CK low before it). */
  function Edge(s: LineState): Signal
  {
    if s.rst then ResetClock else Clock(s.io)
  }

  /** One clock edge per bit, carrying the bit on IO. */
  function Clocks(bits: seq<bool>): seq<Signal>
  {
    if bits == [] then [] else Clocks(bits[..|bits| - 1]) + [Clock(bits[|bits| - 1])]
  }

  /** `n` clock edges with IO at `v`. */
  function Ticks(v: bool, n: nat): seq<Signal>
  {
    if n == 0 then [] else Ticks(v, n - 1) + [Clock(v)]
  }

  /** The levels the card presents at the `n` samples from sample `c` on. */
  function Window(card: nat -> bool, c: nat, n: nat): (w: seq<bool>)
    ensures |w| == n
  {
    if n == 0 then [] else Window(card, c, n - 1) + [card(c + n - 1)]
  }

  /** `n` zero levels. */
  function Zeros(n: nat): seq<bool>
  {
    if n == 0 then [] else Zeros(n - 1) + [false]
  }

  /** Starting with the receiver outside a frame in line state `s`, the events
      `t` leave the lines in state `s'` and the receiver outside a frame again,
      and the card has received exactly the commands `cmds`. */
  ghost predicate Delivers(s: LineState, t: seq<Event>, cmds: seq<Command>, s': LineState)
  {
    After(s, t) == s' && RxAfter(Idle, Signals(s, t)) == Idle && Delivered(Idle, Signals(s, t)) == cmds
  }

  /** The line state after STOP: CK low, IO an input pulled up. */
  function Released(s: LineState): LineState
  {
    s.(ck := false, io := true, ioOut := false)
  }

  // ---------------------------------------------------------------- fixed traces

  /** `ck_pulse` raises CK and lowers it: one rising edge when CK was low, and
      CK low at the end with every other line as it was. */
  lemma PulseLines(s: LineState)
    ensures After(s, PulseTrace()) == s.(ck := false)
    ensures Signals(s, PulseTrace()) == if s.ck then [] else [Edge(s)]
    ensures SamplesOf(PulseTrace()) == []
  {
    var t0: seq<Event> := [];
    var t1 := t0 + [Level(CK, true)]; LogStep(s, t0, Level(CK, true));
    var t2 := t1 + [Wait(HalfPeriodUs)]; LogStep(s, t1, Wait(HalfPeriodUs));
    var t3 := t2 + [Level(CK, false)]; LogStep(s, t2, Level(CK, false));
    var t4 := t3 + [Wait(HalfPeriodUs)]; LogStep(s, t3, Wait(HalfPeriodUs));
  }

  /** `send_start`: the card sees a clock edge with IO high and then START
      (IO falling while CK is high); IO is left an output driven low, CK low. */
  lemma StartLines(s: LineState)
    requires !s.rst
    ensures After(s, StartTrace()) == s.(ck := false, io := false, ioOut := true)
    ensures Signals(s, StartTrace()) == [Clock(true), Start]
    ensures SamplesOf(StartTrace()) == []
  {
    var t0: seq<Event> := [];
    var t1 := t0 + [Level(CK, false)]; LogStep(s, t0, Level(CK, false));
    var t2 := t1 + [Dir(IO, true)]; LogStep(s, t1, Dir(IO, true));
    var t3 := t2 + [Level(IO, true)]; LogStep(s, t2, Level(IO, true));
    var t4 := t3 + [Level(CK, true)]; LogStep(s, t3, Level(CK, true));
    var t5 := t4 + [Wait(HalfPeriodUs)]; LogStep(s, t4, Wait(HalfPeriodUs));
    var t6 := t5 + [Level(IO, false)]; LogStep(s, t5, Level(IO, false));
    var t7 := t6 + [Wait(FrontUs)]; LogStep(s, t6, Wait(FrontUs));
    var t8 := t7 + [Level(CK, false)]; LogStep(s, t7, Level(CK, false));
    var t9 := t8 + [Wait(HalfPeriodUs)]; LogStep(s, t8, Wait(HalfPeriodUs));
  }

  /** `send_stop` with CK low: a clock edge with IO low and then STOP (IO rising
      while CK is high); IO is left an input pulled up, CK low. */
  lemma StopLines(s: LineState)
    requires !s.rst && !s.ck
    ensures After(s, StopTrace()) == Released(s)
    ensures Signals(s, StopTrace()) == [Clock(false), Stop]
    ensures SamplesOf(StopTrace()) == []
  {
    var t0: seq<Event> := [];
    var t1 := t0 + [Level(IO, false)]; LogStep(s, t0, Level(IO, false));
    var t2 := t1 + [Wait(FrontUs)]; LogStep(s, t1, Wait(FrontUs));
    var t3 := t2 + [Level(CK, true)]; LogStep(s, t2, Level(CK, true));
    var t4 := t3 + [Wait(FrontUs)]; LogStep(s, t3, Wait(FrontUs));
    var t5 := t4 + [Level(IO, true)]; LogStep(s, t4, Level(IO, true));
    var t6 := t5 + [Dir(IO, false)]; LogStep(s, t5, Dir(IO, false));
    var t7 := t6 + [Wait(HalfPeriodUs)]; LogStep(s, t6, Wait(HalfPeriodUs));
    var t8 := t7 + [Level(CK, false)]; LogStep(s, t7, Level(CK, false));
    var t9 := t8 + [Wait(HalfPeriodUs)]; LogStep(s, t8, Wait(HalfPeriodUs));
  }

  /** One round of `send_byte` with CK low: the card sees one clock edge with
      the bit on IO. */
  lemma BitOutLines(s: LineState, v: bool)
    requires !s.rst && !s.ck
    ensures After(s, BitOutTrace(v)) == s.(io := v)
    ensures Signals(s, BitOutTrace(v)) == [Clock(v)]
  {
    var t0: seq<Event> := [];
    var t1 := t0 + [Level(IO, v)]; LogStep(s, t0, Level(IO, v));
    var t2 := t1 + [Wait(FrontUs)]; LogStep(s, t1, Wait(FrontUs));
    PulseLines(s.(io := v));
    AfterAppend(s, t2, PulseTrace());
    SignalsAppend(s, t2, PulseTrace());
  }

  /** One round of `read_byte` with CK low: one clock edge, and one sample
      taken while CK is high. */
  lemma BitInLines(s: LineState, v: bool)
    requires !s.rst && !s.ck
    ensures After(s, BitInTrace(v)) == s
    ensures Signals(s, BitInTrace(v)) == [Clock(s.io)]
    ensures SamplesOf(BitInTrace(v)) == [v]
  {
    var t0: seq<Event> := [];
    var t1 := t0 + [Level(CK, true)]; LogStep(s, t0, Level(CK, true));
    var t2 := t1 + [Sample(v)]; LogStep(s, t1, Sample(v));
    var t3 := t2 + [Wait(HalfPeriodUs)]; LogStep(s, t2, Wait(HalfPeriodUs));
    var t4 := t3 + [Level(CK, false)]; LogStep(s, t3, Level(CK, false));
    var t5 := t4 + [Wait(HalfPeriodUs)]; LogStep(s, t4, Wait(HalfPeriodUs));
  }

  /** The start of `send_rst` with CK low: IO released, and the card sees one
      clock edge while RST is high; RST is low again at the end. */
  lemma ResetPulseLines(s: LineState)
    requires !s.ck
    ensures After(s, ResetPulseTrace()) == s.(io := true, ioOut := false, rst := false)
    ensures Signals(s, ResetPulseTrace()) == [ResetClock]
    ensures SamplesOf(ResetPulseTrace()) == []
  {
    var rise := SetIoTrace(ModeIn) + [Level(RST, true), Wait(FrontUs), Level(CK, true)];
    var fall := [Wait(ResetUs), Level(CK, false), Wait(FrontUs), Level(RST, false), Wait(HalfPeriodUs)];
    assert ResetPulseTrace() == rise + fall;
    var s1 := s.(io := true, ioOut := false, rst := true, ck := true);
    ResetRiseLines(s);
    ResetFallLines(s1);
    AfterJoin(s, rise, fall, s1, s.(io := true, ioOut := false, rst := false));
    SignalsJoin(s, rise, fall, s1, [ResetClock], []);
    SamplesAppend(rise, fall);
  }

  /** The first half of the reset pulse: IO released, RST raised, then CK. */
  lemma ResetRiseLines(s: LineState)
    requires !s.ck
    ensures After(s, SetIoTrace(ModeIn) + [Level(RST, true), Wait(FrontUs), Level(CK, true)])
         == s.(io := true, ioOut := false, rst := true, ck := true)
    ensures Signals(s, SetIoTrace(ModeIn) + [Level(RST, true), Wait(FrontUs), Level(CK, true)]) == [ResetClock]
    ensures SamplesOf(SetIoTrace(ModeIn) + [Level(RST, true), Wait(FrontUs), Level(CK, true)]) == []
  {
    var t0: seq<Event> := [];
    var t1 := t0 + [Level(IO, true)]; LogStep(s, t0, Level(IO, true));
    var t2 := t1 + [Dir(IO, false)]; LogStep(s, t1, Dir(IO, false));
    assert t2 == SetIoTrace(ModeIn);
    var t3 := t2 + [Level(RST, true)]; LogStep(s, t2, Level(RST, true));
    var t4 := t3 + [Wait(FrontUs)]; LogStep(s, t3, Wait(FrontUs));
    var t5 := t4 + [Level(CK, true)]; LogStep(s, t4, Level(CK, true));
    assert t5 == SetIoTrace(ModeIn) + [Level(RST, true), Wait(FrontUs), Level(CK, true)];
  }

  /** The second half of the reset pulse: CK lowered, then RST. */
  lemma ResetFallLines(s: LineState)
    ensures After(s, [Wait(ResetUs), Level(CK, false), Wait(FrontUs), Level(RST, false), Wait(HalfPeriodUs)])
         == s.(ck := false, rst := false)
    ensures Signals(s, [Wait(ResetUs), Level(CK, false), Wait(FrontUs), Level(RST, false), Wait(HalfPeriodUs)]) == []
    ensures SamplesOf([Wait(ResetUs), Level(CK, false), Wait(FrontUs), Level(RST, false), Wait(HalfPeriodUs)]) == []
  {
    var t0: seq<Event> := [];
    var t1 := t0 + [Wait(ResetUs)]; LogStep(s, t0, Wait(ResetUs));
    var t2 := t1 + [Level(CK, false)]; LogStep(s, t1, Level(CK, false));
    var t3 := t2 + [Wait(FrontUs)]; LogStep(s, t2, Wait(FrontUs));
    var t4 := t3 + [Level(RST, false)]; LogStep(s, t3, Level(RST, false));
    var t5 := t4 + [Wait(HalfPeriodUs)]; LogStep(s, t4, Wait(HalfPeriodUs));
    assert t5 == [Wait(ResetUs), Level(CK, false), Wait(FrontUs), Level(RST, false), Wait(HalfPeriodUs)];
  }

  // ------------------------------------------------------------- sequence helpers

  lemma {:induction false} ClocksAppend(a: seq<bool>, b: seq<bool>)
    ensures Clocks(a + b) == Clocks(a) + Clocks(b)
    decreases |b|
  {
    if b == [] {
      assert a + b == a;
    } else {
      var b' := b[..|b| - 1];
      assert (a + b)[..|a + b| - 1] == a + b';
      ClocksAppend(a, b');
    }
  }

  lemma {:induction false} TicksAppend(v: bool, m: nat, n: nat)
    ensures Ticks(v, m) + Ticks(v, n) == Ticks(v, m + n)
    decreases n
  {
    if n > 0 {
      TicksAppend(v, m, n - 1);
    }
  }

  lemma {:induction false} WindowAppend(card: nat -> bool, c: nat, m: nat, n: nat)
    ensures Window(card, c, m) + Window(card, c + m, n) == Window(card, c, m + n)
    decreases n
  {
    if n > 0 {
      WindowAppend(card, c, m, n - 1);
    }
  }

  /** The i-th level of a window is the level at sample `c + i`. */
  lemma {:induction false} WindowIndex(card: nat -> bool, c: nat, n: nat)
    ensures forall i :: 0 <= i < n ==> Window(card, c, n)[i] == card(c + i)
    decreases n
  {
    if n > 0 {
      WindowIndex(card, c, n - 1);
    }
  }

  /** The signals of two traces one after the other. */
  lemma SignalsJoin(s: LineState, a: seq<Event>, b: seq<Event>, s1: LineState, x: seq<Signal>, y: seq<Signal>)
    requires After(s, a) == s1 && Signals(s, a) == x && Signals(s1, b) == y
    ensures Signals(s, a + b) == x + y
  {
    SignalsAppend(s, a, b);
  }

  // ---------------------------------------------------------- bytes on the wire

  /** The first `n` rounds of `send_byte(b)` with CK low change only IO, and
      leave the last bit sent on it. */
  lemma {:induction false} SendBitsAfter(s: LineState, b: bv8, n: nat)
    requires !s.rst && !s.ck && n <= 8
    ensures After(s, SendBitsTrace(b, n)).(io := s.io) == s
    ensures n > 0 ==> After(s, SendBitsTrace(b, n)).io == Bit(b, n - 1)
  {
    if n > 0 {
      SendBitsAfter(s, b, n - 1);
      BitOutLines(After(s, SendBitsTrace(b, n - 1)), Bit(b, n - 1));
      AfterAppend(s, SendBitsTrace(b, n - 1), BitOutTrace(Bit(b, n - 1)));
    }
  }

  /** The clock edges carrying bits 0..n-1 of `b`, in that order. */
  function ClockBits(b: bv8, n: nat): seq<Signal>
    requires n <= 8
  {
    if n == 0 then [] else ClockBits(b, n - 1) + [Clock(Bit(b, n - 1))]
  }

  lemma {:induction false} ClockBitsOf(b: bv8, n: nat)
    requires n <= 8
    ensures ClockBits(b, n) == Clocks(BitsOf(b)[..n])
  {
    if n == 0 {
      assert BitsOf(b)[..0] == [];
    } else {
      ClockBitsOf(b, n - 1);
      assert BitsOf(b)[..n][..n - 1] == BitsOf(b)[..n - 1];
    }
  }

  /** One more round of `send_byte` after a trace that changed only IO adds
      one clock edge carrying the bit. */
  lemma BitOutJoin(s: LineState, t: seq<Event>, v: bool, x: seq<Signal>)
    requires !s.rst && !s.ck && After(s, t).(io := s.io) == s && Signals(s, t) == x
    ensures Signals(s, t + BitOutTrace(v)) == x + [Clock(v)]
  {
    BitOutLines(After(s, t), v);
    SignalsAppend(s, t, BitOutTrace(v));
  }

  /** The first `n` rounds of `send_byte(b)` with CK low: one clock edge per
      bit, bits 0..n-1 in that order. */
  lemma {:induction false} SendBitsSignals(s: LineState, b: bv8, n: nat)
    requires !s.rst && !s.ck && n <= 8
    ensures Signals(s, SendBitsTrace(b, n)) == ClockBits(b, n)
  {
    if n > 0 {
      SendBitsSignals(s, b, n - 1);
      SendBitsAfter(s, b, n - 1);
      BitOutJoin(s, SendBitsTrace(b, n - 1), Bit(b, n - 1), ClockBits(b, n - 1));
    }
  }

  /** `send_byte(b)` with CK low: the card sees eight clock edges carrying the
      bits of `b`, least significant first, and bit 7 is left on IO. */
  lemma SendByteLines(s: LineState, b: bv8)
    requires !s.rst && !s.ck
    ensures After(s, SendByteTrace(b)) == s.(io := Bit(b, 7))
    ensures Signals(s, SendByteTrace(b)) == Clocks(BitsOf(b))
  {
    SendBitsAfter(s, b, 8);
    SendBitsSignals(s, b, 8);
    ClockBitsOf(b, 8);
    assert BitsOf(b)[..8] == BitsOf(b);
  }

  /** Clocking in `n` levels with CK low leaves the lines as they were. */
  lemma {:induction false} ReadAfter(s: LineState, card: nat -> bool, c: nat, n: nat)
    requires !s.rst && !s.ck
    ensures After(s, ReadTrace(card, c, n)) == s
  {
    if n > 0 {
      ReadAfter(s, card, c, n - 1);
      BitInLines(s, card(c + n - 1));
      AfterAppend(s, ReadTrace(card, c, n - 1), BitInTrace(card(c + n - 1)));
    }
  }

  /** Clocking in `n` levels with CK low: the card sees `n` clock edges. */
  lemma {:induction false} ReadSignals(s: LineState, card: nat -> bool, c: nat, n: nat)
    requires !s.rst && !s.ck
    ensures Signals(s, ReadTrace(card, c, n)) == Ticks(s.io, n)
  {
    if n > 0 {
      ReadSignals(s, card, c, n - 1);
      ReadAfter(s, card, c, n - 1);
      BitInLines(s, card(c + n - 1));
      SignalsJoin(s, ReadTrace(card, c, n - 1), BitInTrace(card(c + n - 1)), s, Ticks(s.io, n - 1), [Clock(s.io)]);
    }
  }

  /** Clocking in `n` levels samples the card's levels in order. */
  lemma {:induction false} ReadSamples(card: nat -> bool, c: nat, n: nat)
    ensures SamplesOf(ReadTrace(card, c, n)) == Window(card, c, n)
  {
    if n > 0 {
      ReadSamples(card, c, n - 1);
      BitInLines(LineState(false, false, false, false, false, false), card(c + n - 1));
      SamplesAppend(ReadTrace(card, c, n - 1), BitInTrace(card(c + n - 1)));
    }
  }

  lemma {:induction false} ReadTraceAppend(card: nat -> bool, c: nat, m: nat, k: nat)
    ensures ReadTrace(card, c, m) + ReadTrace(card, c + m, k) == ReadTrace(card, c, m + k)
    decreases k
  {
    if k > 0 {
      ReadTraceAppend(card, c, m, k - 1);
      AppendAssoc(ReadTrace(card, c, m), ReadTrace(card, c + m, k - 1), BitInTrace(card(c + m + k - 1)));
    }
  }

  /** Reading `n` bytes is clocking in 8n levels. */
  lemma {:induction false} BytesAreBits(card: nat -> bool, c: nat, n: nat)
    ensures BytesTrace(card, c, n) == ReadTrace(card, c, 8 * n)
  {
    if n > 0 {
      BytesAreBits(card, c, n - 1);
      ReadTraceAppend(card, c, 8 * (n - 1), 8);
    }
  }

  /** Reading `n` bytes with CK low: the lines as before, 8n clock edges, and
      the samples are the card's next 8n levels in order. */
  lemma BytesLines(s: LineState, card: nat -> bool, c: nat, n: nat)
    requires !s.rst && !s.ck
    ensures After(s, BytesTrace(card, c, n)) == s
    ensures Signals(s, BytesTrace(card, c, n)) == Ticks(s.io, 8 * n)
    ensures SamplesOf(BytesTrace(card, c, n)) == Window(card, c, 8 * n)
  {
    BytesAreBits(card, c, n);
    ReadAfter(s, card, c, 8 * n);
    ReadSignals(s, card, c, 8 * n);
    ReadSamples(card, c, 8 * n);
  }

  /** Bit j of the byte `read_byte` holds after `n` rounds is the j-th level
      read for j below `n`, and clear above. */
  lemma {:induction false} ByteFromBits(card: nat -> bool, c: nat, n: nat)
    requires n <= 8
    ensures forall j :: 0 <= j < 8 ==> Bit(ByteFrom(card, c, n), j) == (j < n && card(c + j))
  {
    if n > 0 {
      ByteFromBits(card, c, n - 1);
      if card(c + n - 1) {
        SetBitOnly(ByteFrom(card, c, n - 1), n - 1);
      }
    }
  }

  /** `read_byte` assembles the eight levels it samples, the first into bit 0. */
  lemma ReadByteDecodes(card: nat -> bool, c: nat)
    ensures ByteAt(card, c) == FromBits(Window(card, c, 8))
    ensures forall i :: 0 <= i < 8 ==> Bit(ByteAt(card, c), i) == Window(card, c, 8)[i]
  {
    var w := Window(card, c, 8);
    ByteFromBits(card, c, 8);
    WindowIndex(card, c, 8);
    FromBitsBits(w);
    BitsDetermine(ByteAt(card, c), FromBits(w));
  }

  /** Round trip: when the card presents the bits of `b` least significant
      first, which is the order `send_byte` puts them on IO, `read_byte`
      returns `b`. */
  lemma SendReadRoundTrip(card: nat -> bool, c: nat, b: bv8)
    requires forall i :: 0 <= i < 8 ==> card(c + i) == Bit(b, i)
    ensures ByteAt(card, c) == b
  {
    ByteFromBits(card, c, 8);
    BitsDetermine(ByteAt(card, c), b);
  }

  /** Byte i of a run of reads is the byte read from sample `c + 8i` on. */
  lemma {:induction false} BytesIndex(card: nat -> bool, c: nat, n: nat)
    ensures forall i :: 0 <= i < n ==> Bytes(card, c, n)[i] == ByteAt(card, c + 8 * i)
  {
    if n > 0 {
      BytesIndex(card, c, n - 1);
    }
  }

  // -------------------------------------------------------------- command frames

  /** The line state after two traces one after the other. */
  lemma AfterJoin(s: LineState, a: seq<Event>, b: seq<Event>, s1: LineState, s2: LineState)
    requires After(s, a) == s1 && After(s1, b) == s2
    ensures After(s, a + b) == s2
  {
    AfterAppend(s, a, b);
  }

  /** `send_cmd` leaves CK low and IO an input pulled up, every other line as it was. */
  lemma CommandAfter(s: LineState, cmd: Command)
    requires !s.rst
    ensures After(s, CommandTrace(cmd)) == Released(s)
  {
    CommandTraceBytes(cmd);
    var st, a, b, d := StartTrace(), SendByteTrace(cmd.control), SendByteTrace(cmd.address), SendByteTrace(cmd.data);
    var s1 := s.(ck := false, io := false, ioOut := true);
    StartLines(s);
    SendByteLines(s1, cmd.control);
    AfterJoin(s, st, a, s1, s1.(io := Bit(cmd.control, 7)));
    SendByteLines(s1.(io := Bit(cmd.control, 7)), cmd.address);
    AfterJoin(s, st + a, b, s1.(io := Bit(cmd.control, 7)), s1.(io := Bit(cmd.address, 7)));
    SendByteLines(s1.(io := Bit(cmd.address, 7)), cmd.data);
    AfterJoin(s, st + a + b, d, s1.(io := Bit(cmd.address, 7)), s1.(io := Bit(cmd.data, 7)));
    StopLines(s1.(io := Bit(cmd.data, 7)));
    AfterJoin(s, st + a + b + d, StopTrace(), s1.(io := Bit(cmd.data, 7)), Released(s));
  }

  /** The signals of `send_cmd`, in terms of its parts. */
  lemma CommandSignalsParts(s: LineState, cmd: Command)
    requires !s.rst
    ensures Signals(s, CommandTrace(cmd))
         == [Clock(true), Start] + Clocks(BitsOf(cmd.control)) + Clocks(BitsOf(cmd.address))
            + Clocks(BitsOf(cmd.data)) + [Clock(false), Stop]
  {
    CommandTraceBytes(cmd);
    var st, a, b, d := StartTrace(), SendByteTrace(cmd.control), SendByteTrace(cmd.address), SendByteTrace(cmd.data);
    var s1 := s.(ck := false, io := false, ioOut := true);
    var s2, s3, s4 := s1.(io := Bit(cmd.control, 7)), s1.(io := Bit(cmd.address, 7)), s1.(io := Bit(cmd.data, 7));
    StartLines(s);
    SendByteLines(s1, cmd.control);
    SendByteLines(s2, cmd.address);
    SendByteLines(s3, cmd.data);
    StopLines(s4);
    AfterJoin(s, st, a, s1, s2);
    AfterJoin(s, st + a, b, s2, s3);
    AfterJoin(s, st + a + b, d, s3, s4);
    var x1 := [Clock(true), Start];
    var x2 := x1 + Clocks(BitsOf(cmd.control));
    var x3 := x2 + Clocks(BitsOf(cmd.address));
    var x4 := x3 + Clocks(BitsOf(cmd.data));
    SignalsJoin(s, st, a, s1, x1, Clocks(BitsOf(cmd.control)));
    SignalsJoin(s, st + a, b, s2, x2, Clocks(BitsOf(cmd.address)));
    SignalsJoin(s, st + a + b, d, s3, x3, Clocks(BitsOf(cmd.data)));
    SignalsJoin(s, st + a + b + d, StopTrace(), s4, x4, [Clock(false), Stop]);
  }

  /** Inside a frame, each clock edge adds its bit and nothing is completed. */
  lemma {:induction false} RxClocks(bs: seq<bool>, bits: seq<bool>)
    ensures RxAfter(Receiving(bs), Clocks(bits)) == Receiving(bs + bits)
    ensures Delivered(Receiving(bs), Clocks(bits)) == []
    decreases |bits|
  {
    if bits == [] {
      assert bs + bits == bs;
    } else {
      var bits' := bits[..|bits| - 1];
      RxClocks(bs, bits');
      RxStep(Receiving(bs), Clocks(bits'), Clock(bits[|bits| - 1]));
      assert bs + bits' + [bits[|bits| - 1]] == bs + bits;
    }
  }

  /** Outside a frame, clock edges change nothing and complete nothing. */
  lemma {:induction false} TicksIdle(v: bool, n: nat)
    ensures RxAfter(Idle, Ticks(v, n)) == Idle
    ensures Delivered(Idle, Ticks(v, n)) == []
  {
    if n > 0 {
      TicksIdle(v, n - 1);
      RxStep(Idle, Ticks(v, n - 1), Clock(v));
    }
  }

  /** The receiver state and the commands after two runs of signals. */
  lemma RxJoin(r: Receiver, a: seq<Signal>, b: seq<Signal>, r1: Receiver, r2: Receiver,
               c1: seq<Command>, c2: seq<Command>)
    requires RxAfter(r, a) == r1 && Delivered(r, a) == c1
    requires RxAfter(r1, b) == r2 && Delivered(r1, b) == c2
    ensures RxAfter(r, a + b) == r2 && Delivered(r, a + b) == c1 + c2
  {
    RxAfterAppend(r, a, b);
    DeliveredAppend(r, a, b);
  }

  /** The 25 bits a command frame clocks in: the three bytes LSB first, and
      the low IO level of the clock edge that carries STOP. */
  function FrameBits(cmd: Command): seq<bool>
  {
    BitsOf(cmd.control) + BitsOf(cmd.address) + BitsOf(cmd.data) + [false]
  }

  /** The three bytes of a frame decode back to the command. */
  lemma FrameDecodes(cmd: Command)
    ensures |FrameBits(cmd)| == 25
    ensures Emitted(Receiving(FrameBits(cmd)), Stop) == [cmd]
  {
    var f := FrameBits(cmd);
    assert f[..8] == BitsOf(cmd.control);
    assert f[8..16] == BitsOf(cmd.address);
    assert f[16..24] == BitsOf(cmd.data);
    FromBitsOfBits(cmd.control);
    FromBitsOfBits(cmd.address);
    FromBitsOfBits(cmd.data);
  }

  lemma SignalsAssoc(a: seq<Signal>, b: seq<Signal>, c: seq<Signal>)
    ensures a + b + c == a + (b + c)
  {
  }

  /** The clock edges of the three bytes of a frame and of the STOP edge. */
  lemma FrameClocks(cmd: Command)
    ensures Clocks(FrameBits(cmd))
         == Clocks(BitsOf(cmd.control)) + Clocks(BitsOf(cmd.address)) + Clocks(BitsOf(cmd.data)) + [Clock(false)]
  {
    var c, a, d := BitsOf(cmd.control), BitsOf(cmd.address), BitsOf(cmd.data);
    ClocksAppend(c, a);
    ClocksAppend(c + a, d);
    ClocksAppend(c + a + d, [false]);
    assert Clocks([false]) == [Clock(false)];
  }

  /** The signals of `send_cmd` as the card groups them: a clock edge and START,
      the 25 clock edges of the frame, then STOP. */
  lemma CommandSignals(s: LineState, cmd: Command)
    requires !s.rst
    ensures Signals(s, CommandTrace(cmd)) == [Clock(true), Start] + Clocks(FrameBits(cmd)) + [Stop]
  {
    var x := [Clock(true), Start];
    var c, a, d := Clocks(BitsOf(cmd.control)), Clocks(BitsOf(cmd.address)), Clocks(BitsOf(cmd.data));
    CommandSignalsParts(s, cmd);
    FrameClocks(cmd);
    SignalsAssoc(x, c, a);
    SignalsAssoc(x, c + a, d);
    assert [Clock(false), Stop] == [Clock(false)] + [Stop];
    SignalsAssoc(x + (c + a + d), [Clock(false)], [Stop]);
    SignalsAssoc(x, c + a + d, [Clock(false)]);
  }

  /** A clock edge and START open a frame, whatever the receiver was doing. */
  lemma FrameOpens(r: Receiver)
    ensures RxAfter(r, [Clock(true), Start]) == Receiving([])
    ensures Delivered(r, [Clock(true), Start]) == []
  {
    var e: seq<Signal> := [];
    RxStep(r, e, Clock(true));
    RxStep(r, e + [Clock(true)], Start);
    assert e + [Clock(true)] + [Start] == [Clock(true), Start];
  }

  /** A whole frame: opened, 25 clock edges, STOP; the receiver ends outside a
      frame and has completed the command. */
  lemma FrameDelivered(cmd: Command)
    ensures RxAfter(Idle, [Clock(true), Start] + Clocks(FrameBits(cmd)) + [Stop]) == Idle
    ensures Delivered(Idle, [Clock(true), Start] + Clocks(FrameBits(cmd)) + [Stop]) == [cmd]
  {
    var x, y := [Clock(true), Start], Clocks(FrameBits(cmd));
    FrameOpens(Idle);
    RxClocks([], FrameBits(cmd));
    RxJoin(Idle, x, y, Receiving([]), Receiving([] + FrameBits(cmd)), [], []);
    assert [] + FrameBits(cmd) == FrameBits(cmd);
    FrameDecodes(cmd);
    RxStep(Idle, x + y, Stop);
  }

  /** The card receives exactly the command `send_cmd` sends. */
  lemma CommandDelivered(s: LineState, cmd: Command)
    requires !s.rst
    ensures Delivers(s, CommandTrace(cmd), [cmd], Released(s))
  {
    CommandAfter(s, cmd);
    CommandSignals(s, cmd);
    FrameDelivered(cmd);
  }

  // ------------------------------------------------------------- busy-waiting

  /** A sample followed by a clock pulse, with CK low: the lines as before. */
  lemma SamplePulseLines(s: LineState, t: seq<Event>, v: bool)
    requires !s.rst && !s.ck && After(s, t) == s
    ensures After(s, t + [Sample(v)] + PulseTrace()) == s
    ensures Signals(s, t + [Sample(v)] + PulseTrace()) == Signals(s, t) + [Clock(s.io)]
    ensures SamplesOf(t + [Sample(v)] + PulseTrace()) == SamplesOf(t) + [v]
  {
    LogStep(s, t, Sample(v));
    PulseLines(s);
    AfterJoin(s, t + [Sample(v)], PulseTrace(), s, s);
    SignalsJoin(s, t + [Sample(v)], PulseTrace(), s, Signals(s, t), [Clock(s.io)]);
    SamplesAppend(t + [Sample(v)], PulseTrace());
  }

  /** `n` busy rounds of `processing` with CK low: the lines as before, `n`
      clock edges, and `n` samples that read 0. */
  lemma {:induction false} BusyLines(s: LineState, n: nat)
    requires !s.rst && !s.ck
    ensures After(s, BusyTrace(n)) == s
    ensures Signals(s, BusyTrace(n)) == Ticks(s.io, n)
    ensures SamplesOf(BusyTrace(n)) == Zeros(n)
  {
    if n > 0 {
      BusyLines(s, n - 1);
      SamplePulseLines(s, BusyTrace(n - 1), false);
    }
  }

  /** `processing` with CK low when the card answers after `n` busy rounds:
      the lines as before, `n + 1` clock edges, and the samples are `n` zeros
      and then the one that ends the loop. */
  lemma ProcessingLines(s: LineState, n: nat)
    requires !s.rst && !s.ck
    ensures After(s, ProcessingTrace(n)) == s
    ensures Signals(s, ProcessingTrace(n)) == Ticks(s.io, n + 1)
    ensures SamplesOf(ProcessingTrace(n)) == Zeros(n) + [true]
  {
    BusyLines(s, n);
    SamplePulseLines(s, BusyTrace(n), true);
  }

  // ------------------------------------------------------------------ reset

  /** `send_rst` with CK low: the card sees one clock edge with RST high and
      then 32 clock edges with IO released; the 32 samples are the card's next
      levels, and the lines end with RST low and IO an input pulled up. */
  lemma ResetLines(s: LineState, card: nat -> bool, c: nat)
    requires !s.ck
    ensures After(s, ResetTrace(card, c)) == s.(io := true, ioOut := false, rst := false)
    ensures Signals(s, ResetTrace(card, c)) == [ResetClock] + Ticks(true, 32)
    ensures SamplesOf(ResetTrace(card, c)) == Window(card, c, 32)
  {
    var s1 := s.(io := true, ioOut := false, rst := false);
    ResetPulseLines(s);
    BytesLines(s1, card, c, 4);
    AfterJoin(s, ResetPulseTrace(), BytesTrace(card, c, 4), s1, s1);
    SignalsJoin(s, ResetPulseTrace(), BytesTrace(card, c, 4), s1, [ResetClock], Ticks(true, 32));
    SamplesAppend(ResetPulseTrace(), BytesTrace(card, c, 4));
  }

  // ------------------------------------------------------------ what the card receives

  /** Concatenating two traces concatenates the commands they deliver. */
  lemma DeliversJoin(s: LineState, a: seq<Event>, b: seq<Event>, c1: seq<Command>, c2: seq<Command>,
                     s1: LineState, s2: LineState)
    requires Delivers(s, a, c1, s1) && Delivers(s1, b, c2, s2)
    ensures Delivers(s, a + b, c1 + c2, s2)
  {
    AfterAppend(s, a, b);
    SignalsAppend(s, a, b);
    RxJoin(Idle, Signals(s, a), Signals(s1, b), Idle, Idle, c1, c2);
  }

  /** Clock edges outside a frame deliver nothing. */
  lemma TicksDeliver(s: LineState, t: seq<Event>, v: bool, n: nat, s1: LineState)
    requires After(s, t) == s1 && Signals(s, t) == Ticks(v, n)
    ensures Delivers(s, t, [], s1)
  {
    TicksIdle(v, n);
  }

  /** A clock pulse with CK low delivers nothing. */
  lemma PulseDelivers(s: LineState)
    requires !s.rst && !s.ck
    ensures Delivers(s, PulseTrace(), [], s)
  {
    PulseLines(s);
    assert Ticks(s.io, 1) == [Clock(s.io)];
    TicksDeliver(s, PulseTrace(), s.io, 1, s);
  }

  /** Reading bytes delivers nothing. */
  lemma BytesDelivers(s: LineState, card: nat -> bool, c: nat, n: nat)
    requires !s.rst && !s.ck
    ensures Delivers(s, BytesTrace(card, c, n), [], s)
  {
    BytesLines(s, card, c, n);
    TicksDeliver(s, BytesTrace(card, c, n), s.io, 8 * n, s);
  }

  /** Waiting for the card in `processing` delivers nothing. */
  lemma ProcessingDelivers(s: LineState, n: nat)
    requires !s.rst && !s.ck
    ensures Delivers(s, ProcessingTrace(n), [], s)
  {
    ProcessingLines(s, n);
    TicksDeliver(s, ProcessingTrace(n), s.io, n + 1, s);
  }

  /** `send_rst` delivers no command: its first clock is a reset clock and
      the others fall outside a frame. */
  lemma ResetDelivers(s: LineState, card: nat -> bool, c: nat)
    requires !s.ck
    ensures Delivers(s, ResetTrace(card, c), [], s.(io := true, ioOut := false, rst := false))
  {
    ResetLines(s, card, c);
    var e: seq<Signal> := [];
    RxStep(Idle, e, ResetClock);
    assert e + [ResetClock] == [ResetClock];
    TicksIdle(true, 32);
    RxJoin(Idle, [ResetClock], Ticks(true, 32), Idle, Idle, [], []);
  }

  // -------------------------------------------------------------- registers

  /** The line state `send_cmd` leaves is the one its PORT and DDR values encode. */
  lemma ReleasedLines(p: bv8, d: bv8)
    ensures Released(LinesOf(p, d)) == LinesOf(ClearBit(SetBit(p, IoPin), CkPin), ClearBit(d, IoPin))
  {
    SetBitOnly(p, IoPin);
    ClearBitOnly(SetBit(p, IoPin), CkPin);
    ClearBitOnly(d, IoPin);
  }

  /** The line state `send_rst` leaves is the one its PORT and DDR values encode. */
  lemma ResetRegisters(p: bv8, d: bv8)
    ensures LinesOf(p, d).(io := true, ioOut := false, rst := false, ck := false)
         == LinesOf(ClearBit(ClearBit(SetBit(p, IoPin), CkPin), RstPin), ClearBit(d, IoPin))
  {
    SetBitOnly(p, IoPin);
    ClearBitOnly(SetBit(p, IoPin), CkPin);
    ClearBitOnly(ClearBit(SetBit(p, IoPin), CkPin), RstPin);
    ClearBitOnly(d, IoPin);
  }

  /** Replaying the `send_cmd` trace on the lines that PORT and DDR encode
      ends in the lines that the PORT and DDR values `SendCmd` leaves encode. */
  lemma CommandMatchesRegisters(p: bv8, d: bv8, cmd: Command)
    requires !Bit(p, RstPin)
    ensures After(LinesOf(p, d), CommandTrace(cmd)) == LinesOf(ClearBit(SetBit(p, IoPin), CkPin), ClearBit(d, IoPin))
  {
    CommandAfter(LinesOf(p, d), cmd);
    ReleasedLines(p, d);
  }

  /** Replaying the `send_rst` trace on the lines that PORT and DDR encode,
      CK low, ends in the lines that the PORT and DDR values `SendRst` leaves
      encode. */
  lemma ResetMatchesRegisters(p: bv8, d: bv8, card: nat -> bool, c: nat)
    requires !Bit(p, CkPin)
    ensures After(LinesOf(p, d), ResetTrace(card, c))
         == LinesOf(ClearBit(ClearBit(SetBit(p, IoPin), CkPin), RstPin), ClearBit(d, IoPin))
  {
    ResetLines(LinesOf(p, d), card, c);
    ResetRegisters(p, d);
  }
}
