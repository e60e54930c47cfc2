/** The bit-banging driver of the SLE4442 card: the pin and mode constants and
    register macros of `src/sle_bbg.h` and the routines of `src/sle_bbg.c`.

    The AVR port the card is wired to is a `Bus` object: its PORT and DDR
    registers, the level of the card-present switch on PIN, and the card's
    answers on the IO line, given as the stream `card` of the levels the card
    presents at successive samples taken while IO is an input. Every write of a
    CK, RST or IO bit, every sample of PIN.IO and every busy-wait is appended to
    the ghost `trace`; the functions named `...Trace` say what each routine
    appends. */
module SleBbg {
  import opened Bits
  import opened Lines

  // Pins of the port (src/sle_bbg.h:56-59).
  const PresentPin: nat := 3
  const RstPin: nat := 0
  const CkPin: nat := 1
  const IoPin: nat := 2

  // Modes of `set_io` beside the levels 0 and 1 (src/sle_bbg.h:70-71).
  const ModeOut: bv8 := 2
  const ModeIn: bv8 := 3

  // Busy-wait lengths in microseconds (src/sle_bbg.h:107-109).
  const HalfPeriodUs: nat := 25
  const FrontUs: nat := 4
  const ResetUs: nat := 50

  /** The four pins are distinct bits of the port, the two modes differ from
      both levels, and the delays are ordered front < half period < reset. */
  lemma ConstantsCoherent()
    ensures PresentPin < 8 && RstPin < 8 && CkPin < 8 && IoPin < 8
    ensures |{PresentPin, RstPin, CkPin, IoPin}| == 4
    ensures ModeOut !in {0, 1} && ModeIn !in {0, 1} && ModeOut != ModeIn
    ensures FrontUs < HalfPeriodUs < ResetUs
  {
  }

  /** The CK, RST and IO bits of PORT and DDR. */
  function LinesOf(port: bv8, ddr: bv8): LineState
  {
    LineState(Bit(port, CkPin), Bit(port, RstPin), Bit(port, IoPin),
              Bit(ddr, CkPin), Bit(ddr, RstPin), Bit(ddr, IoPin))
  }

  /** The PORT register after `set_io(io)`: 0 clears the IO bit; 1, and any
      value other than OUT, sets it (for IN: the pull-up); OUT leaves PORT alone. */
  function SetIoPort(port: bv8, io: bv8): (p: bv8)
    ensures forall j :: 0 <= j < 8 && j != IoPin ==> Bit(p, j) == Bit(port, j)
    ensures Bit(p, IoPin) == (if io == 0 then false else if io == ModeOut then Bit(port, IoPin) else true)
  {
    if io == 0 then ClearBit(port, IoPin)
    else if io == 1 then SetBit(port, IoPin)
    else if io == ModeOut then port
    else SetBit(port, IoPin)
  }

  /** The DDR register after `set_io(io)`: OUT makes IO an output, any value
      other than 0, 1 and OUT makes it an input, the levels leave DDR alone. */
  function SetIoDdr(ddr: bv8, io: bv8): (d: bv8)
    ensures forall j :: 0 <= j < 8 && j != IoPin ==> Bit(d, j) == Bit(ddr, j)
    ensures Bit(d, IoPin) == (if io == ModeOut then true else if io == 0 || io == 1 then Bit(ddr, IoPin) else false)
  {
    if io == 0 || io == 1 then ddr
    else if io == ModeOut then SetBit(ddr, IoPin)
    else ClearBit(ddr, IoPin)
  }

  function SetIoTrace(io: bv8): seq<Event>
  {
    if io == 0 then [Level(IO, false)]
    else if io == 1 then [Level(IO, true)]
    else if io == ModeOut then [Dir(IO, true)]
    else [Level(IO, true), Dir(IO, false)]
  }


  /** `ck_pulse`: CK high for a half period, then low for a half period. */
  function PulseTrace(): seq<Event>
  {
    [Level(CK, true)] + [Wait(HalfPeriodUs)] + [Level(CK, false)] + [Wait(HalfPeriodUs)]
  }

  /** `send_start`: IO driven high, CK raised, IO dropped while CK is high. */
  function StartTrace(): seq<Event>
  {
    [Level(CK, false)] + [Dir(IO, true)] + [Level(IO, true)] + [Level(CK, true)] + [Wait(HalfPeriodUs)]
    + [Level(IO, false)] + [Wait(FrontUs)] + [Level(CK, false)] + [Wait(HalfPeriodUs)]
  }

  /** `send_stop`: IO driven low, CK raised, IO released to the pull-up while CK is high. */
  function StopTrace(): seq<Event>
  {
    [Level(IO, false)] + [Wait(FrontUs)] + [Level(CK, true)] + [Wait(FrontUs)]
    + [Level(IO, true)] + [Dir(IO, false)] + [Wait(HalfPeriodUs)] + [Level(CK, false)] + [Wait(HalfPeriodUs)]
  }

  /** One round of `send_byte`: the bit goes on IO a front delay before CK rises. */
  function BitOutTrace(v: bool): seq<Event>
  {
    [Level(IO, v)] + [Wait(FrontUs)] + PulseTrace()
  }

  /** The first `n` rounds of `send_byte(b)`: bits 0..n-1 of `b`, in that order. */
  function SendBitsTrace(b: bv8, n: nat): seq<Event>
    requires n <= 8
  {
    if n == 0 then [] else SendBitsTrace(b, n - 1) + BitOutTrace(Bit(b, n - 1))
  }

  function SendByteTrace(b: bv8): seq<Event>
  {
    SendBitsTrace(b, 8)
  }

  /** One round of `read_byte`: CK raised, IO sampled while CK is high, CK lowered. */
  function BitInTrace(v: bool): seq<Event>
  {
    [Level(CK, true)] + [Sample(v)] + [Wait(HalfPeriodUs)] + [Level(CK, false)] + [Wait(HalfPeriodUs)]
  }

  /** Clocking in the `n` card levels from sample number `c` on, one pulse each. */
  function ReadTrace(card: nat -> bool, c: nat, n: nat): seq<Event>
  {
    if n == 0 then [] else ReadTrace(card, c, n - 1) + BitInTrace(card(c + n - 1))
  }

  /** The byte `read_byte` holds after its first `n` rounds, reading the card
      levels from sample `c` on: bit i is set when the i-th level is 1. */
  function ByteFrom(card: nat -> bool, c: nat, n: nat): bv8
    requires n <= 8
  {
    if n == 0 then 0
    else if card(c + n - 1) then SetBit(ByteFrom(card, c, n - 1), n - 1)
    else ByteFrom(card, c, n - 1)
  }

  /** The byte `read_byte` returns when the card presents levels from sample `c` on. */
  function ByteAt(card: nat -> bool, c: nat): bv8
  {
    ByteFrom(card, c, 8)
  }

  /** The `n` bytes read one after another from sample `c` on. */
  function Bytes(card: nat -> bool, c: nat, n: nat): (bs: seq<bv8>)
    ensures |bs| == n
  {
    if n == 0 then [] else Bytes(card, c, n - 1) + [ByteAt(card, c + 8 * (n - 1))]
  }

  /** The trace of reading those `n` bytes. */
  function BytesTrace(card: nat -> bool, c: nat, n: nat): seq<Event>
  {
    if n == 0 then [] else BytesTrace(card, c, n - 1) + ReadTrace(card, c + 8 * (n - 1), 8)
  }

  /** One `send_byte` round for each of `bits`, in order. */
  function BitsOutTrace(bits: seq<bool>): seq<Event>
  {
    if bits == [] then [] else BitsOutTrace(bits[..|bits| - 1]) + BitOutTrace(bits[|bits| - 1])
  }

  /** The 24 bits `send_cmd` sends: control, address and data, each LSB first. */
  function CommandBits(c: Command): seq<bool>
  {
    BitsOf(c.control) + BitsOf(c.address) + BitsOf(c.data)
  }

  /** `send_cmd`: START, the three bytes of the command, STOP. */
  function CommandTrace(c: Command): seq<Event>
  {
    StartTrace() + BitsOutTrace(CommandBits(c)) + StopTrace()
  }

  lemma BitsOutSnoc(s: seq<bool>, x: bool)
    ensures BitsOutTrace(s + [x]) == BitsOutTrace(s) + BitOutTrace(x)
  {
    assert (s + [x])[..|s|] == s;
  }

  lemma {:induction false} BitsOutAppend(a: seq<bool>, b: seq<bool>)
    ensures BitsOutTrace(a + b) == BitsOutTrace(a) + BitsOutTrace(b)
    decreases |b|
  {
    if b == [] {
      assert a + b == a;
    } else {
      var b', x := b[..|b| - 1], b[|b| - 1];
      assert b == b' + [x];
      assert a + b == (a + b') + [x];
      BitsOutAppend(a, b');
      BitsOutSnoc(a + b', x);
      BitsOutSnoc(b', x);
      AppendAssoc(BitsOutTrace(a), BitsOutTrace(b'), BitOutTrace(x));
    }
  }

  /** Sending the first `n` bits of `BitsOf(b)` is the first `n` rounds of `send_byte(b)`. */
  lemma {:induction false} BitsOutPrefix(b: bv8, n: nat)
    requires n <= 8
    ensures BitsOutTrace(BitsOf(b)[..n]) == SendBitsTrace(b, n)
  {
    if n > 0 {
      assert BitsOf(b)[..n][..n - 1] == BitsOf(b)[..n - 1];
      BitsOutPrefix(b, n - 1);
    }
  }

  /** Sending the bits of a byte is `send_byte` of that byte. */
  lemma BitsOutByte(b: bv8)
    ensures BitsOutTrace(BitsOf(b)) == SendByteTrace(b)
  {
    BitsOutPrefix(b, 8);
    assert BitsOf(b)[..8] == BitsOf(b);
  }

  lemma BitsOutThree(x: seq<bool>, y: seq<bool>, z: seq<bool>)
    ensures BitsOutTrace(x + y + z) == BitsOutTrace(x) + BitsOutTrace(y) + BitsOutTrace(z)
  {
    BitsOutAppend(x, y);
    BitsOutAppend(x + y, z);
  }

  /** The trace of `send_cmd` is START, `send_byte` of each of the three bytes, STOP. */
  lemma CommandTraceBytes(c: Command)
    ensures CommandTrace(c)
         == StartTrace() + SendByteTrace(c.control) + SendByteTrace(c.address) + SendByteTrace(c.data) + StopTrace()
  {
    BitsOutByte(c.control);
    BitsOutByte(c.address);
    BitsOutByte(c.data);
    BitsOutThree(BitsOf(c.control), BitsOf(c.address), BitsOf(c.data));
  }

  /** The start of `send_rst`: IO released, one long clock pulse with RST high. */
  function ResetPulseTrace(): seq<Event>
  {
    SetIoTrace(ModeIn) + [Level(RST, true)] + [Wait(FrontUs)] + [Level(CK, true)] + [Wait(ResetUs)]
    + [Level(CK, false)] + [Wait(FrontUs)] + [Level(RST, false)] + [Wait(HalfPeriodUs)]
  }

  /** `send_rst`: the reset pulse, then the four ATR bytes from sample `c` on. */
  function ResetTrace(card: nat -> bool, c: nat): seq<Event>
  {
    ResetPulseTrace() + BytesTrace(card, c, 4)
  }

  /** `n` busy rounds of `processing`: IO read 0, one clock pulse. */
  function BusyTrace(n: nat): seq<Event>
  {
    if n == 0 then [] else BusyTrace(n - 1) + [Sample(false)] + PulseTrace()
  }

  /** `processing` on an input IO line that reads 0 `n` times and then 1. */
  function ProcessingTrace(n: nat): seq<Event>
  {
    BusyTrace(n) + [Sample(true)] + PulseTrace()
  }

  /** Whether the card eventually presents a 1 on IO, at sample `c` or later. */
  ghost predicate HasOneFrom(card: nat -> bool, c: nat)
  {
    exists k :: c <= k && card(k)
  }

  /** The trace of `send_cmd` is built up from its five parts. */
  lemma CommandTraceParts(c: Command, t0: seq<Event>, t1: seq<Event>, t2: seq<Event>, t3: seq<Event>,
                          t4: seq<Event>, t5: seq<Event>)
    requires t1 == t0 + StartTrace()
    requires t2 == t1 + SendByteTrace(c.control)
    requires t3 == t2 + SendByteTrace(c.address)
    requires t4 == t3 + SendByteTrace(c.data)
    requires t5 == t4 + StopTrace()
    ensures t5 == t0 + CommandTrace(c)
  {
    CommandTraceBytes(c);
    var s, a, b, d := StartTrace(), SendByteTrace(c.control), SendByteTrace(c.address), SendByteTrace(c.data);
    AppendAssoc(t0, s, a);
    AppendAssoc(t0, s + a, b);
    AppendAssoc(t0, s + a + b, d);
    AppendAssoc(t0, s + a + b + d, StopTrace());
  }

  /** Storing the next byte of a prefix being filled in extends the prefix. */
  lemma FillStep(done: seq<bv8>, rest: seq<bv8>, b: bv8)
    requires |done| < |rest|
    ensures (done + rest[|done|..])[|done| := b] == (done + [b]) + rest[|done| + 1..]
  {
  }

  /** The PORT value after one round of `send_byte` with bit `v`: IO at `v`, CK low. */
  function OutBitPort(p: bv8, v: bool): bv8
  {
    ClearBit(if v then SetBit(p, IoPin) else ClearBit(p, IoPin), CkPin)
  }

  /** Only the last round of `send_byte` shows in PORT. */
  lemma OutBitPortLast(p: bv8, w: bool, v: bool)
    ensures OutBitPort(OutBitPort(p, w), v) == OutBitPort(p, v)
  {
  }

  /** The PORT value `send_cmd` leaves: CK low, IO pulled up, every other bit as before. */
  lemma CommandPort(p0: bv8, p1: bv8, p2: bv8, p3: bv8, p4: bv8, c: bool, a: bool, d: bool)
    requires p1 == ClearBit(ClearBit(p0, CkPin), IoPin)
    requires p2 == OutBitPort(p1, c) && p3 == OutBitPort(p2, a) && p4 == OutBitPort(p3, d)
    ensures ClearBit(SetBit(p4, IoPin), CkPin) == ClearBit(SetBit(p0, IoPin), CkPin)
  {
    OutBitPortLast(p1, c, a);
    OutBitPortLast(p1, a, d);
  }

  /** The PORT value `send_rst` leaves before reading the ATR: IO pulled up,
      CK and RST low, every other bit as before. */
  lemma ResetPort(p0: bv8, p1: bv8, p2: bv8, p3: bv8, p4: bv8, p5: bv8)
    requires p1 == SetIoPort(p0, ModeIn)
    requires p2 == SetBit(p1, RstPin)
    requires p3 == SetBit(p2, CkPin)
    requires p4 == ClearBit(p3, CkPin)
    requires p5 == ClearBit(p4, RstPin)
    ensures p5 == ClearBit(ClearBit(SetBit(p0, IoPin), CkPin), RstPin)
    ensures ClearBit(p5, CkPin) == p5
  {
  }

  /** One more busy round extends the trace of `processing` by a 0 sample and a pulse. */
  lemma BusyTraceStep(n: nat, v: bool, t0: seq<Event>, t1: seq<Event>, t2: seq<Event>)
    requires t1 == t0 + BusyTrace(n) + [Sample(false)]
    requires t2 == t1 + PulseTrace() + [Sample(v)]
    ensures t2 == t0 + BusyTrace(n + 1) + [Sample(v)]
  {
    calc {
      t2;
      t0 + BusyTrace(n) + [Sample(false)] + PulseTrace() + [Sample(v)];
      t0 + (BusyTrace(n) + [Sample(false)] + PulseTrace()) + [Sample(v)];
    }
  }

  /** The last pulse of `processing` completes its trace. */
  lemma ProcessingTraceEnd(n: nat, t0: seq<Event>, t1: seq<Event>, t2: seq<Event>)
    requires t1 == t0 + BusyTrace(n) + [Sample(true)]
    requires t2 == t1 + PulseTrace()
    ensures t2 == t0 + ProcessingTrace(n)
  {
    AppendAssoc(t0, BusyTrace(n) + [Sample(true)], PulseTrace());
  }

  /** Below 255, incrementing a `uint8_t` adds one to its value. */
  lemma ByteSucc(r: bv8)
    requires r < 255
    ensures (r + 1) as int == r as int + 1
  {
  }

  /** Incrementing a `uint8_t` that holds `n` modulo 256 gives `n + 1` modulo 256. */
  lemma CountWraps(r: bv8, n: nat)
    requires r as int == n % 256
    ensures (r + 1) as int == (n + 1) % 256
  {
    var q := n % 256;
    if q == 255 {
      assert r == 255;
      assert r + 1 == 0;
      assert (n + 1) % 256 == 0;
    } else {
      assert (n + 1) % 256 == q + 1;
      ByteSucc(r);
    }
  }

  /** The `uint8_t` counter of `processing` after `n` increments from 0. */
  function Wrap8(n: nat): bv8
  {
    if n == 0 then 0 else Wrap8(n - 1) + 1
  }

  /** The counter holds the count modulo 256. */
  lemma {:induction false} Wrap8Value(n: nat)
    ensures Wrap8(n) as int == n % 256
  {
    if n > 0 {
      Wrap8Value(n - 1);
      CountWraps(Wrap8(n - 1), n - 1);
    }
  }

  class Bus {
    var port: bv8
    var ddr: bv8
    /** The level of PIN.PRESENT, set by the card-present switch. */
    var present: bool
    /** The level the card presents on IO at each successive input sample. */
    const card: nat -> bool
    /** How many input samples have been taken. */
    var cursor: nat
    ghost var trace: seq<Event>

    ghost predicate IoIsOutput()
      reads this`ddr
    {
      Bit(ddr, IoPin)
    }

    constructor (port0: bv8, ddr0: bv8, present0: bool, card: nat -> bool)
      ensures port == port0 && ddr == ddr0 && present == present0 && this.card == card
      ensures cursor == 0 && trace == []
    {
      port, ddr, present := port0, ddr0, present0;
      this.card := card;
      cursor := 0;
      trace := [];
    }

    /** `set_ck_1`: sets only the CK bit of PORT. */
    method SetCkHigh()
      modifies this`port, this`trace
      ensures port == SetBit(old(port), CkPin)
      ensures trace == old(trace) + [Level(CK, true)]
    {
      port := SetBit(port, CkPin);
      trace := trace + [Level(CK, true)];
    }

    /** `set_ck_0`: clears only the CK bit of PORT. */
    method SetCkLow()
      modifies this`port, this`trace
      ensures port == ClearBit(old(port), CkPin)
      ensures trace == old(trace) + [Level(CK, false)]
    {
      port := ClearBit(port, CkPin);
      trace := trace + [Level(CK, false)];
    }

    /** `set_rst_1`: sets only the RST bit of PORT. */
    method SetRstHigh()
      modifies this`port, this`trace
      ensures port == SetBit(old(port), RstPin)
      ensures trace == old(trace) + [Level(RST, true)]
    {
      port := SetBit(port, RstPin);
      trace := trace + [Level(RST, true)];
    }

    /** `set_rst_0`: clears only the RST bit of PORT. */
    method SetRstLow()
      modifies this`port, this`trace
      ensures port == ClearBit(old(port), RstPin)
      ensures trace == old(trace) + [Level(RST, false)]
    {
      port := ClearBit(port, RstPin);
      trace := trace + [Level(RST, false)];
    }

    /** `_delay_us(us)`: no register changes, a marker in the trace. */
    method Delay(us: nat)
      modifies this`trace
      ensures trace == old(trace) + [Wait(us)]
    {
      trace := trace + [Wait(us)];
    }

    /** Reading PIN.IO: the card's next level when IO is an input, the driven
        PORT.IO level when it is an output. */
    method SampleIo() returns (v: bool)
      modifies this`cursor, this`trace
      ensures IoIsOutput() ==> v == Bit(port, IoPin) && cursor == old(cursor) && trace == old(trace) + [Readback(v)]
      ensures !IoIsOutput() ==> v == card(old(cursor)) && cursor == old(cursor) + 1 && trace == old(trace) + [Sample(v)]
    {
      if Bit(ddr, IoPin) {
        v := Bit(port, IoPin);
        trace := trace + [Readback(v)];
      } else {
        v := card(cursor);
        trace := trace + [Sample(v)];
        cursor := cursor + 1;
      }
    }

    /** `ck_pulse`: ends with CK low and every other bit as it was. */
    method CkPulse()
      modifies this`port, this`trace
      ensures port == ClearBit(old(port), CkPin)
      ensures trace == old(trace) + PulseTrace()
    {
      SetCkHigh();
      Delay(HalfPeriodUs);
      SetCkLow();
      Delay(HalfPeriodUs);
    }

    /** `set_io`: changes only the IO bits of PORT and DDR. */
    method SetIo(io: bv8)
      modifies this`port, this`ddr, this`trace
      ensures port == SetIoPort(old(port), io) && ddr == SetIoDdr(old(ddr), io)
      ensures trace == old(trace) + SetIoTrace(io)
    {
      if io == 0 {
        port := ClearBit(port, IoPin);
        trace := trace + [Level(IO, false)];
      } else if io == 1 {
        port := SetBit(port, IoPin);
        trace := trace + [Level(IO, true)];
      } else if io == ModeOut {
        ddr := SetBit(ddr, IoPin);
        trace := trace + [Dir(IO, true)];
      } else {
        port := SetBit(port, IoPin);
        ddr := ClearBit(ddr, IoPin);
        trace := trace + [Level(IO, true), Dir(IO, false)];
      }
    }

    /** `send_start`: leaves IO an output driven low and CK low. */
    method SendStart()
      modifies this`port, this`ddr, this`trace
      ensures port == ClearBit(ClearBit(old(port), CkPin), IoPin)
      ensures ddr == SetBit(old(ddr), IoPin)
      ensures trace == old(trace) + StartTrace()
    {
      SetCkLow();
      SetIo(ModeOut);
      SetIo(1);
      SetCkHigh();
      Delay(HalfPeriodUs);
      SetIo(0);
      Delay(FrontUs);
      SetCkLow();
      Delay(HalfPeriodUs);
    }

    /** `send_stop`: leaves IO an input with the pull-up on and CK low. */
    method SendStop()
      modifies this`port, this`ddr, this`trace
      ensures port == ClearBit(SetBit(old(port), IoPin), CkPin)
      ensures ddr == ClearBit(old(ddr), IoPin)
      ensures trace == old(trace) + StopTrace()
    {
      SetIo(0);
      Delay(FrontUs);
      SetCkHigh();
      Delay(FrontUs);
      SetIo(ModeIn);
      Delay(HalfPeriodUs);
      SetCkLow();
      Delay(HalfPeriodUs);
    }

    /** One round of `read_byte`: CK raised, IO sampled, CK lowered. */
    method ClockInBit() returns (v: bool)
      requires !IoIsOutput()
      modifies this`port, this`cursor, this`trace
      ensures v == card(old(cursor)) && cursor == old(cursor) + 1
      ensures port == ClearBit(old(port), CkPin)
      ensures trace == old(trace) + BitInTrace(v)
    {
      SetCkHigh();
      v := SampleIo();
      Delay(HalfPeriodUs);
      SetCkLow();
      Delay(HalfPeriodUs);
    }

    /** `read_byte`: eight clock pulses; bit i of the result is the card level
        sampled in the high phase of the i-th, so bits arrive LSB first. */
    method ReadByte() returns (r: bv8)
      requires !IoIsOutput()
      modifies this`port, this`cursor, this`trace
      ensures r == ByteAt(card, old(cursor))
      ensures cursor == old(cursor) + 8
      ensures port == ClearBit(old(port), CkPin)
      ensures trace == old(trace) + ReadTrace(card, old(cursor), 8)
    {
      r := 0;
      var i := 0;
      while i < 8
        invariant 0 <= i <= 8
        invariant cursor == old(cursor) + i
        invariant port == if i == 0 then old(port) else ClearBit(old(port), CkPin)
        invariant r == ByteFrom(card, old(cursor), i)
        invariant trace == old(trace) + ReadTrace(card, old(cursor), i)
      {
        ClearBitTwice(old(port), CkPin);
        AppendAssoc(old(trace), ReadTrace(card, old(cursor), i), BitInTrace(card(cursor)));
        var v := ClockInBit();
        if v {
          r := SetBit(r, i);
        }
        i := i + 1;
      }
    }

    /** One round of `send_byte`: the bit on IO, a front delay, one clock pulse. */
    method ClockOutBit(v: bool)
      modifies this`port, this`ddr, this`trace
      ensures ddr == old(ddr)
      ensures port == OutBitPort(old(port), v)
      ensures trace == old(trace) + BitOutTrace(v)
    {
      SetIo(if v then 1 else 0);
      Delay(FrontUs);
      SetCkHigh();
      Delay(HalfPeriodUs);
      SetCkLow();
      Delay(HalfPeriodUs);
    }

    /** `send_byte`: for each bit, LSB first, puts it on IO and then pulses CK. */
    method SendByte(b: bv8)
      modifies this`port, this`ddr, this`trace
      ensures ddr == old(ddr)
      ensures port == OutBitPort(old(port), Bit(b, 7))
      ensures trace == old(trace) + SendByteTrace(b)
    {
      var i := 0;
      while i < 8
        invariant 0 <= i <= 8
        invariant ddr == old(ddr)
        invariant port == if i == 0 then old(port) else OutBitPort(old(port), Bit(b, i - 1))
        invariant trace == old(trace) + SendBitsTrace(b, i)
      {
        if i > 0 {
          OutBitPortLast(old(port), Bit(b, i - 1), Bit(b, i));
        }
        AppendAssoc(old(trace), SendBitsTrace(b, i), BitOutTrace(Bit(b, i)));
        ClockOutBit(Bit(b, i));
        i := i + 1;
      }
    }

    /** The first part of `send_rst`: IO made an input, one long clock pulse
        while RST is high, RST back low. */
    method ResetPulse()
      modifies this`port, this`ddr, this`trace
      ensures !IoIsOutput()
      ensures port == ClearBit(ClearBit(SetBit(old(port), IoPin), CkPin), RstPin)
      ensures ClearBit(port, CkPin) == port
      ensures ddr == ClearBit(old(ddr), IoPin)
      ensures trace == old(trace) + ResetPulseTrace()
    {
      ghost var p := port;
      SetIo(ModeIn);
      ghost var p1 := port;
      SetRstHigh();
      Delay(FrontUs);
      ghost var p2 := port;
      SetCkHigh();
      Delay(ResetUs);
      ghost var p3 := port;
      SetCkLow();
      Delay(FrontUs);
      ghost var p4 := port;
      SetRstLow();
      Delay(HalfPeriodUs);
      ResetPort(p, p1, p2, p3, p4, port);
    }

    /** One round of the loop of `send_rst` and of the dumps: `buf[i] = read_byte()`
        after `i` bytes read from sample `c` on into a buffer that held `rest`. */
    method ReadInto(buf: array<bv8>, i: nat, ghost c: nat, ghost t: seq<Event>, ghost rest: seq<bv8>)
      requires i < buf.Length == |rest| && !IoIsOutput() && ClearBit(port, CkPin) == port
      requires buf[..] == Bytes(card, c, i) + rest[i..]
      requires cursor == c + 8 * i && trace == t + BytesTrace(card, c, i)
      modifies this`port, this`cursor, this`trace, buf
      ensures buf[..] == Bytes(card, c, i + 1) + rest[i + 1..]
      ensures cursor == c + 8 * (i + 1)
      ensures port == old(port)
      ensures trace == t + BytesTrace(card, c, i + 1)
    {
      FillStep(Bytes(card, c, i), rest, ByteAt(card, cursor));
      AppendAssoc(t, BytesTrace(card, c, i), ReadTrace(card, cursor, 8));
      var b := ReadByte();
      buf[i] := b;
    }

    /** The loop of `send_rst` (and of the dumps of `sle.c`): `buf[i] = read_byte()`
        for each i below `n`, in index order. */
    method ReadBytes(buf: array<bv8>, n: nat)
      requires n <= buf.Length && !IoIsOutput() && ClearBit(port, CkPin) == port
      modifies this`port, this`cursor, this`trace, buf
      ensures buf[..] == Bytes(card, old(cursor), n) + old(buf[..])[n..]
      ensures cursor == old(cursor) + 8 * n
      ensures port == old(port)
      ensures trace == old(trace) + BytesTrace(card, old(cursor), n)
    {
      var i := 0;
      while i < n
        invariant 0 <= i <= n
        invariant port == old(port)
        invariant cursor == old(cursor) + 8 * i
        invariant buf[..] == Bytes(card, old(cursor), i) + old(buf[..])[i..]
        invariant trace == old(trace) + BytesTrace(card, old(cursor), i)
      {
        ReadInto(buf, i, old(cursor), old(trace), old(buf[..]));
        i := i + 1;
      }
    }

    /** `send_rst`: a clock pulse while RST is high, RST back low, then
        `atr[i]` is the i-th of four bytes read. */
    method SendRst(atr: array<bv8>)
      requires atr.Length >= 4
      modifies this`port, this`ddr, this`cursor, this`trace, atr
      ensures atr[..] == Bytes(card, old(cursor), 4) + old(atr[..])[4..]
      ensures cursor == old(cursor) + 32
      ensures port == ClearBit(ClearBit(SetBit(old(port), IoPin), CkPin), RstPin)
      ensures ddr == ClearBit(old(ddr), IoPin)
      ensures trace == old(trace) + ResetTrace(card, old(cursor))
    {
      ResetPulse();
      AppendAssoc(old(trace), ResetPulseTrace(), BytesTrace(card, cursor, 4));
      ReadBytes(atr, 4);
    }

    /** `send_cmd`: START, the three bytes, STOP; IO is left an input. */
    method SendCmd(control: bv8, address: bv8, data: bv8)
      modifies this`port, this`ddr, this`trace
      ensures !IoIsOutput()
      ensures port == ClearBit(SetBit(old(port), IoPin), CkPin)
      ensures ddr == ClearBit(old(ddr), IoPin)
      ensures trace == old(trace) + CommandTrace(Command(control, address, data))
    {
      ghost var p0, t0 := port, trace;
      SendStart();
      ghost var p1, t1 := port, trace;
      SendByte(control);
      ghost var p2, t2 := port, trace;
      SendByte(address);
      ghost var p3, t3 := port, trace;
      SendByte(data);
      ghost var t4 := trace;
      CommandPort(p0, p1, p2, p3, port, Bit(control, 7), Bit(address, 7), Bit(data, 7));
      SendStop();
      CommandTraceParts(Command(control, address, data), t0, t1, t2, t3, t4, trace);
    }

    /** A busy round of `processing` after `n` rounds begun from sample `c` with
        trace `t`: one clock pulse, then IO sampled again. */
    method BusyRound(ghost n: nat, ghost c: nat, ghost t: seq<Event>) returns (v: bool)
      requires !IoIsOutput() && cursor == c + n + 1
      requires trace == t + BusyTrace(n) + [Sample(false)]
      modifies this`port, this`cursor, this`trace
      ensures v == card(c + n + 1) && cursor == c + n + 2
      ensures port == ClearBit(old(port), CkPin) && ClearBit(port, CkPin) == port
      ensures trace == t + BusyTrace(n + 1) + [Sample(v)]
    {
      ClearBitTwice(port, CkPin);
      ghost var t1 := trace;
      CkPulse();
      v := SampleIo();
      BusyTraceStep(n, v, t, t1, trace);
    }

    /** `processing`: pulses CK while IO reads 0, counting the pulses in a byte
        that wraps at 256, then gives one more pulse. The loop has no bound, so
        the card must eventually present a 1. */
    method Processing() returns (r: bv8, ghost zeros: nat)
      requires !IoIsOutput() && HasOneFrom(card, cursor)
      modifies this`port, this`cursor, this`trace
      ensures r == Wrap8(zeros)
      ensures port == ClearBit(old(port), CkPin)
      ensures cursor == old(cursor) + zeros + 1
      ensures forall j :: old(cursor) <= j < old(cursor) + zeros ==> !card(j)
      ensures card(old(cursor) + zeros)
      ensures trace == old(trace) + ProcessingTrace(zeros)
    {
      ghost var k :| old(cursor) <= k && card(k);
      r, zeros := 0, 0;
      var v := SampleIo();
      while !v
        invariant r == Wrap8(zeros)
        invariant ClearBit(port, CkPin) == ClearBit(old(port), CkPin)
        invariant cursor == old(cursor) + zeros + 1 && old(cursor) + zeros <= k
        invariant forall j :: old(cursor) <= j < old(cursor) + zeros ==> !card(j)
        invariant card(old(cursor) + zeros) == v
        invariant trace == old(trace) + BusyTrace(zeros) + [Sample(v)]
        decreases k - zeros
      {
        v := BusyRound(zeros, old(cursor), old(trace));
        r := r + 1;
        zeros := zeros + 1;
      }
      ghost var t1 := trace;
      CkPulse();
      ProcessingTraceEnd(zeros, old(trace), t1, trace);
    }
  }
}
