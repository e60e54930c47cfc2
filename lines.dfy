/** The three card lines as the host drives them, the trace of line events the
    bit-banging driver produces, and the card-side view of such a trace: the
    clock edges, START and STOP conditions it contains, and the commands a
    receiver following the SLE4442 signalling convention assembles from them. */
module Lines {
  import opened Bits

  /** The card lines the driver controls. */
  datatype Line = CK | RST | IO

  /** One thing the driver does to the lines, in order. */
  datatype Event =
    | Level(line: Line, high: bool)   // a write of the line's PORT bit
    | Dir(line: Line, output: bool)   // a write of the line's DDR bit
    | Sample(level: bool)             // PIN.IO read while IO is an input: one bit from the card
    | Readback(level: bool)           // PIN.IO read while IO is an output: the driven level
    | Wait(us: nat)                   // a busy-wait of `us` microseconds, kept as a marker

  /** Concatenation of traces is associative. */
  lemma AppendAssoc(a: seq<Event>, b: seq<Event>, c: seq<Event>)
    ensures a + b + c == a + (b + c)
  {
  }

  /** A trace extended three times holds the three extensions in order. */
  lemma Chain3(t0: seq<Event>, a: seq<Event>, b: seq<Event>, c: seq<Event>, t1: seq<Event>, t2: seq<Event>, t3: seq<Event>)
    requires t1 == t0 + a && t2 == t1 + b && t3 == t2 + c
    ensures t3 == t0 + (a + b + c)
  {
    AppendAssoc(t0, a, b);
    AppendAssoc(t0, a + b, c);
  }

  /** The PORT and DDR bits of the three lines. */
  datatype LineState = LineState(ck: bool, rst: bool, io: bool, ckOut: bool, rstOut: bool, ioOut: bool)

  function Apply(s: LineState, e: Event): LineState
  {
    match e
    case Level(CK, v) => s.(ck := v)
    case Level(RST, v) => s.(rst := v)
    case Level(IO, v) => s.(io := v)
    case Dir(CK, v) => s.(ckOut := v)
    case Dir(RST, v) => s.(rstOut := v)
    case Dir(IO, v) => s.(ioOut := v)
    case _ => s
  }

  /** The line state after the events of `t`, starting from `s`. */
  function After(s: LineState, t: seq<Event>): LineState
  {
    if t == [] then s else Apply(After(s, t[..|t| - 1]), t[|t| - 1])
  }

  /** The card bits sampled in `t`, in order. */
  function SamplesOf(t: seq<Event>): seq<bool>
  {
    if t == [] then []
    else SamplesOf(t[..|t| - 1]) + (if t[|t| - 1].Sample? then [t[|t| - 1].level] else [])
  }

  /** What the card can tell apart on its side of the lines. */
  datatype Signal =
    | Clock(io: bool)   // a rising CK edge while RST is low: the card samples IO
    | ResetClock        // a rising CK edge while RST is high
    | Start             // IO falls while CK is high
    | Stop              // IO rises while CK is high

  /** The signal, if any, that event `e` produces in line state `s`. The level of
      IO seen by the card is the PORT.IO bit: driven when IO is an output and,
      with the pull-up, the idle level when it is an input. */
  function Observed(s: LineState, e: Event): seq<Signal>
  {
    match e
    case Level(CK, v) => if v && !s.ck then (if s.rst then [ResetClock] else [Clock(s.io)]) else []
    case Level(IO, v) =>
      if s.ck && s.io && !v then [Start]
      else if s.ck && !s.io && v then [Stop]
      else []
    case _ => []
  }

  /** The signals the card sees during `t`, starting from `s`. */
  function Signals(s: LineState, t: seq<Event>): seq<Signal>
  {
    if t == [] then []
    else Signals(s, t[..|t| - 1]) + Observed(After(s, t[..|t| - 1]), t[|t| - 1])
  }

  /** Appending one event to a trace applies it to the line state, adds what
      the card observes of it to the signals and, for a sample, adds its level
      to the samples. */
  lemma LogStep(s: LineState, t: seq<Event>, e: Event)
    ensures After(s, t + [e]) == Apply(After(s, t), e)
    ensures Signals(s, t + [e]) == Signals(s, t) + Observed(After(s, t), e)
    ensures SamplesOf(t + [e]) == SamplesOf(t) + (if e.Sample? then [e.level] else [])
  {
    assert (t + [e])[..|t|] == t;
  }

  lemma {:induction false} AfterAppend(s: LineState, a: seq<Event>, b: seq<Event>)
    ensures After(s, a + b) == After(After(s, a), b)
    decreases |b|
  {
    if b == [] {
      assert a + b == a;
    } else {
      var b' := b[..|b| - 1];
      assert (a + b)[..|a + b| - 1] == a + b';
      AfterAppend(s, a, b');
    }
  }

  lemma {:induction false} SignalsAppend(s: LineState, a: seq<Event>, b: seq<Event>)
    ensures Signals(s, a + b) == Signals(s, a) + Signals(After(s, a), b)
    decreases |b|
  {
    if b == [] {
      assert a + b == a;
    } else {
      var b' := b[..|b| - 1];
      assert (a + b)[..|a + b| - 1] == a + b';
      SignalsAppend(s, a, b');
      AfterAppend(s, a, b');
    }
  }

  lemma {:induction false} SamplesAppend(a: seq<Event>, b: seq<Event>)
    ensures SamplesOf(a + b) == SamplesOf(a) + SamplesOf(b)
    decreases |b|
  {
    if b == [] {
      assert a + b == a;
    } else {
      var b' := b[..|b| - 1];
      assert (a + b)[..|a + b| - 1] == a + b';
      SamplesAppend(a, b');
    }
  }

  /** A command frame: control, address and data byte. */
  datatype Command = Command(control: bv8, address: bv8, data: bv8)

  /** The card's frame receiver: outside a frame, or collecting the bits
      clocked in since START. */
  datatype Receiver = Idle | Receiving(bits: seq<bool>)

  /** START opens a frame; each clock edge inside a frame adds the sampled bit;
      STOP, a reset clock and a clock outside a frame leave the receiver idle. */
  function Next(r: Receiver, g: Signal): Receiver
  {
    match g
    case Start => Receiving([])
    case Clock(v) => if r.Receiving? then Receiving(r.bits + [v]) else Idle
    case _ => Idle
  }

  /** A frame is a command when STOP ends the 25th clock of the frame: 24
      command bits, then the clock whose high phase carries STOP. */
  function Emitted(r: Receiver, g: Signal): seq<Command>
  {
    if g.Stop? && r.Receiving? && |r.bits| == 25 then
      [Command(FromBits(r.bits[..8]), FromBits(r.bits[8..16]), FromBits(r.bits[16..24]))]
    else []
  }

  /** The receiver state after `sigs`. */
  function RxAfter(r: Receiver, sigs: seq<Signal>): Receiver
  {
    if sigs == [] then r else Next(RxAfter(r, sigs[..|sigs| - 1]), sigs[|sigs| - 1])
  }

  /** The commands completed during `sigs`. */
  function Delivered(r: Receiver, sigs: seq<Signal>): seq<Command>
  {
    if sigs == [] then []
    else Delivered(r, sigs[..|sigs| - 1]) + Emitted(RxAfter(r, sigs[..|sigs| - 1]), sigs[|sigs| - 1])
  }

  /** One more signal steps the receiver and adds what it completes. */
  lemma RxStep(r: Receiver, sigs: seq<Signal>, g: Signal)
    ensures RxAfter(r, sigs + [g]) == Next(RxAfter(r, sigs), g)
    ensures Delivered(r, sigs + [g]) == Delivered(r, sigs) + Emitted(RxAfter(r, sigs), g)
  {
    assert (sigs + [g])[..|sigs|] == sigs;
  }

  lemma {:induction false} RxAfterAppend(r: Receiver, a: seq<Signal>, b: seq<Signal>)
    ensures RxAfter(r, a + b) == RxAfter(RxAfter(r, a), b)
    decreases |b|
  {
    if b == [] {
      assert a + b == a;
    } else {
      assert (a + b)[..|a + b| - 1] == a + b[..|b| - 1];
      RxAfterAppend(r, a, b[..|b| - 1]);
    }
  }

  lemma {:induction false} DeliveredAppend(r: Receiver, a: seq<Signal>, b: seq<Signal>)
    ensures Delivered(r, a + b) == Delivered(r, a) + Delivered(RxAfter(r, a), b)
    decreases |b|
  {
    if b == [] {
      assert a + b == a;
    } else {
      assert (a + b)[..|a + b| - 1] == a + b[..|b| - 1];
      DeliveredAppend(r, a, b[..|b| - 1]);
      RxAfterAppend(r, a, b[..|b| - 1]);
    }
  }
}
