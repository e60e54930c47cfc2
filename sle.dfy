/** The card session of `src/sle.c`: the command codes and the `sle_t` record
    of `src/sle.h`, the port set-up, presence check and reset, the memory
    dumps, the PIN authentication sequence and the write loops, all driving
    the lines through the `Bus` of the bit-banging driver. */
module Sle {
  import opened Bits
  import opened Lines
  import opened SleBbg
  import opened Framing

  // Command codes (src/sle.h:47-52).
  const DumpMemoryCode: bv8 := 0x30
  const DumpSecmemCode: bv8 := 0x31
  const DumpPrtMemoryCode: bv8 := 0x34
  const CompareCode: bv8 := 0x33
  const UpdateSecmemCode: bv8 := 0x39
  const UpdateMemoryCode: bv8 := 0x38

  /** The six command codes are distinct. */
  lemma CodesDistinct()
    ensures |{DumpMemoryCode, DumpSecmemCode, DumpPrtMemoryCode, CompareCode, UpdateSecmemCode, UpdateMemoryCode}| == 6
  {
  }

  /** The value of the error counter that lets `sle_auth` grant writing. */
  const ErrorCounterFull: bv8 := 7

  /** `struct sle_t`: the buffers a session fills and the two flags. */
  class Session {
    const atr: array<bv8>
    const mainMemory: array<bv8>
    const protectedMemory: array<bv8>
    const securityMemory: array<bv8>
    /** The `processing` counts of the last commands sent. */
    const ckProc: array<bv8>
    var cardPresent: bv8
    var auth: bv8

    /** The buffer sizes `sle_init` allocates, and distinct buffers. */
    ghost predicate Valid()
      reads this
    {
      atr.Length == 4 && mainMemory.Length == 256 && protectedMemory.Length == 4
      && securityMemory.Length == 4 && ckProc.Length == 5
      && atr != protectedMemory && atr != securityMemory && protectedMemory != securityMemory
    }

    /** The allocations of `sle_init`: fresh buffers whose contents, like
        `card_present` and `auth`, are whatever the memory held. */
    constructor ()
      ensures Valid()
      ensures fresh(atr) && fresh(mainMemory) && fresh(protectedMemory) && fresh(securityMemory) && fresh(ckProc)
    {
      atr := new bv8[4];
      mainMemory := new bv8[256];
      protectedMemory := new bv8[4];
      securityMemory := new bv8[4];
      ckProc := new bv8[5];
    }
  }

  // ------------------------------------------------------------- port and presence

  /** `sle_enable_port` with the internal pull-up: PORT bits PRESENT and IO
      set, DDR bits RST and CK set (both lines outputs), every other bit kept. */
  method EnablePort(bus: Bus)
    modifies bus`port, bus`ddr, bus`trace
    ensures Bit(bus.port, PresentPin) && Bit(bus.port, IoPin)
    ensures forall j :: 0 <= j < 8 && j != PresentPin && j != IoPin ==> Bit(bus.port, j) == Bit(old(bus.port), j)
    ensures Bit(bus.ddr, RstPin) && Bit(bus.ddr, CkPin)
    ensures forall j :: 0 <= j < 8 && j != RstPin && j != CkPin ==> Bit(bus.ddr, j) == Bit(old(bus.ddr), j)
    ensures bus.trace == old(bus.trace) + [Level(IO, true), Dir(RST, true), Dir(CK, true)]
  {
    var p, d := bus.port, bus.ddr;
    bus.port := bus.port | (BV(PresentPin) | BV(IoPin));
    bus.ddr := bus.ddr | (BV(RstPin) | BV(CkPin));
    bus.trace := bus.trace + [Level(IO, true), Dir(RST, true), Dir(CK, true)];
    assert bus.port == SetBit(SetBit(p, PresentPin), IoPin);
    assert bus.ddr == SetBit(SetBit(d, RstPin), CkPin);
    SetBitOnly(p, PresentPin);
    SetBitOnly(SetBit(p, PresentPin), IoPin);
    SetBitOnly(d, RstPin);
    SetBitOnly(SetBit(d, RstPin), CkPin);
  }

  /** `sle_disable_port`: DDR bits RST and CK cleared (both lines inputs),
      PORT bits PRESENT and IO cleared, every other bit kept. */
  method DisablePort(bus: Bus)
    modifies bus`port, bus`ddr, bus`trace
    ensures !Bit(bus.ddr, RstPin) && !Bit(bus.ddr, CkPin)
    ensures forall j :: 0 <= j < 8 && j != RstPin && j != CkPin ==> Bit(bus.ddr, j) == Bit(old(bus.ddr), j)
    ensures !Bit(bus.port, PresentPin) && !Bit(bus.port, IoPin)
    ensures forall j :: 0 <= j < 8 && j != PresentPin && j != IoPin ==> Bit(bus.port, j) == Bit(old(bus.port), j)
    ensures bus.trace == old(bus.trace) + [Dir(RST, false), Dir(CK, false), Level(IO, false)]
  {
    var p, d := bus.port, bus.ddr;
    bus.ddr := bus.ddr & !(BV(RstPin) | BV(CkPin));
    bus.port := bus.port & !(BV(PresentPin) | BV(IoPin));
    bus.trace := bus.trace + [Dir(RST, false), Dir(CK, false), Level(IO, false)];
    assert bus.port == ClearBit(ClearBit(p, PresentPin), IoPin);
    assert bus.ddr == ClearBit(ClearBit(d, RstPin), CkPin);
    ClearBitOnly(p, PresentPin);
    ClearBitOnly(ClearBit(p, PresentPin), IoPin);
    ClearBitOnly(d, RstPin);
    ClearBitOnly(ClearBit(d, RstPin), CkPin);
  }

  /** `sle_init`: the buffers allocated, then the port enabled. */
  method Init(bus: Bus) returns (sle: Session)
    modifies bus`port, bus`ddr, bus`trace
    ensures sle.Valid() && fresh(sle)
    ensures fresh(sle.atr) && fresh(sle.mainMemory) && fresh(sle.protectedMemory)
    ensures fresh(sle.securityMemory) && fresh(sle.ckProc)
    ensures Bit(bus.port, PresentPin) && Bit(bus.port, IoPin) && Bit(bus.ddr, RstPin) && Bit(bus.ddr, CkPin)
    ensures forall j :: 0 <= j < 8 && j != PresentPin && j != IoPin ==> Bit(bus.port, j) == Bit(old(bus.port), j)
    ensures forall j :: 0 <= j < 8 && j != RstPin && j != CkPin ==> Bit(bus.ddr, j) == Bit(old(bus.ddr), j)
    ensures bus.trace == old(bus.trace) + [Level(IO, true), Dir(RST, true), Dir(CK, true)]
  {
    sle := new Session();
    EnablePort(bus);
  }

  /** `sle_free`: the port disabled; the buffers are released. */
  method Free(bus: Bus, sle: Session)
    modifies bus`port, bus`ddr, bus`trace
    ensures !Bit(bus.ddr, RstPin) && !Bit(bus.ddr, CkPin) && !Bit(bus.port, PresentPin) && !Bit(bus.port, IoPin)
    ensures forall j :: 0 <= j < 8 && j != RstPin && j != CkPin ==> Bit(bus.ddr, j) == Bit(old(bus.ddr), j)
    ensures forall j :: 0 <= j < 8 && j != PresentPin && j != IoPin ==> Bit(bus.port, j) == Bit(old(bus.port), j)
    ensures bus.trace == old(bus.trace) + [Dir(RST, false), Dir(CK, false), Level(IO, false)]
  {
    DisablePort(bus);
  }

  /** `sle_present`: `card_present` becomes 1 when PIN.PRESENT is set and 0
      when it is clear, and is returned. */
  method Present(bus: Bus, sle: Session) returns (r: bv8)
    modifies sle`cardPresent
    ensures r == sle.cardPresent
    ensures bus.present ==> r == 1
    ensures !bus.present ==> r == 0
  {
    if bus.present {
      sle.cardPresent := 1;
    } else {
      sle.cardPresent := 0;
    }
    r := sle.cardPresent;
  }

  /** `sle_reset`: the reset sequence, with the four ATR bytes stored in `atr`. */
  method Reset(bus: Bus, atr: array<bv8>)
    requires atr.Length >= 4
    modifies bus`port, bus`ddr, bus`cursor, bus`trace, atr
    ensures atr[..] == Bytes(bus.card, old(bus.cursor), 4) + old(atr[..])[4..]
    ensures bus.cursor == old(bus.cursor) + 32
    ensures bus.port == ClearBit(ClearBit(SetBit(old(bus.port), IoPin), CkPin), RstPin)
    ensures bus.ddr == ClearBit(old(bus.ddr), IoPin)
    ensures bus.trace == old(bus.trace) + ResetTrace(bus.card, old(bus.cursor))
  {
    bus.SendRst(atr);
  }

  // ------------------------------------------------------------------ dumps

  /** The PORT value after `send_cmd`: IO pulled up and CK low. */
  function ReleasedPort(p: bv8): bv8
  {
    ClearBit(SetBit(p, IoPin), CkPin)
  }

  /** Releasing the lines twice is releasing them once. */
  lemma ReleasedPortTwice(p: bv8)
    ensures ReleasedPort(ReleasedPort(p)) == ReleasedPort(p)
    ensures ClearBit(ReleasedPort(p), CkPin) == ReleasedPort(p)
  {
  }

  /** A dump: the command `code` with address and data 0, `n` bytes read,
      one clock pulse that leaves the card's IO line in high impedance. */
  function DumpTrace(code: bv8, card: nat -> bool, c: nat, n: nat): seq<Event>
  {
    CommandTrace(Command(code, 0, 0)) + BytesTrace(card, c, n) + PulseTrace()
  }

  lemma DumpTraceParts(code: bv8, card: nat -> bool, c: nat, n: nat, t0: seq<Event>, t1: seq<Event>,
                       t2: seq<Event>, t3: seq<Event>)
    requires t1 == t0 + CommandTrace(Command(code, 0, 0))
    requires t2 == t1 + BytesTrace(card, c, n)
    requires t3 == t2 + PulseTrace()
    ensures t3 == t0 + DumpTrace(code, card, c, n)
  {
    Chain3(t0, CommandTrace(Command(code, 0, 0)), BytesTrace(card, c, n), PulseTrace(), t1, t2, t3);
  }

  /** The body shared by the three dumps: `mm[i]` is the i-th of `n` bytes read. */
  method Dump(bus: Bus, code: bv8, mm: array<bv8>, n: nat)
    requires n <= mm.Length
    modifies bus`port, bus`ddr, bus`cursor, bus`trace, mm
    ensures mm[..] == Bytes(bus.card, old(bus.cursor), n) + old(mm[..])[n..]
    ensures bus.cursor == old(bus.cursor) + 8 * n
    ensures bus.port == ReleasedPort(old(bus.port)) && bus.ddr == ClearBit(old(bus.ddr), IoPin)
    ensures bus.trace == old(bus.trace) + DumpTrace(code, bus.card, old(bus.cursor), n)
  {
    ghost var t0 := bus.trace;
    bus.SendCmd(code, 0, 0);
    ghost var t1 := bus.trace;
    ReleasedPortTwice(old(bus.port));
    bus.ReadBytes(mm, n);
    ghost var t2 := bus.trace;
    bus.CkPulse();
    DumpTraceParts(code, bus.card, old(bus.cursor), n, t0, t1, t2, bus.trace);
  }

  /** `sle_dump_memory`: the 256 bytes of main memory into `mm[0..256)`. */
  method DumpMemory(bus: Bus, mm: array<bv8>)
    requires mm.Length >= 256
    modifies bus`port, bus`ddr, bus`cursor, bus`trace, mm
    ensures mm[..] == Bytes(bus.card, old(bus.cursor), 256) + old(mm[..])[256..]
    ensures bus.cursor == old(bus.cursor) + 2048
    ensures bus.port == ReleasedPort(old(bus.port)) && bus.ddr == ClearBit(old(bus.ddr), IoPin)
    ensures bus.trace == old(bus.trace) + DumpTrace(DumpMemoryCode, bus.card, old(bus.cursor), 256)
  {
    Dump(bus, DumpMemoryCode, mm, 256);
  }

  /** `sle_dump_prt_memory`: four bytes of protection memory into `mm[0..4)`. */
  method DumpPrtMemory(bus: Bus, mm: array<bv8>)
    requires mm.Length >= 4
    modifies bus`port, bus`ddr, bus`cursor, bus`trace, mm
    ensures mm[..] == Bytes(bus.card, old(bus.cursor), 4) + old(mm[..])[4..]
    ensures bus.cursor == old(bus.cursor) + 32
    ensures bus.port == ReleasedPort(old(bus.port)) && bus.ddr == ClearBit(old(bus.ddr), IoPin)
    ensures bus.trace == old(bus.trace) + DumpTrace(DumpPrtMemoryCode, bus.card, old(bus.cursor), 4)
  {
    Dump(bus, DumpPrtMemoryCode, mm, 4);
  }

  /** `sle_dump_secmem`: the four bytes of security memory into `mm[0..4)`. */
  method DumpSecmem(bus: Bus, mm: array<bv8>)
    requires mm.Length >= 4
    modifies bus`port, bus`ddr, bus`cursor, bus`trace, mm
    ensures mm[..] == Bytes(bus.card, old(bus.cursor), 4) + old(mm[..])[4..]
    ensures bus.cursor == old(bus.cursor) + 32
    ensures bus.port == ReleasedPort(old(bus.port)) && bus.ddr == ClearBit(old(bus.ddr), IoPin)
    ensures bus.trace == old(bus.trace) + DumpTrace(DumpSecmemCode, bus.card, old(bus.cursor), 4)
  {
    Dump(bus, DumpSecmemCode, mm, 4);
  }

  /** A buffer filled up to its length holds exactly the bytes read. */
  lemma FilledWhole(mm: seq<bv8>, bs: seq<bv8>, prev: seq<bv8>)
    requires |bs| == |prev| && mm == bs + prev[|bs|..]
    ensures mm == bs
  {
  }

  /** `sle_dump_memory` into the session's buffer, which then holds exactly
      the 256 bytes read. */
  method ReadMain(bus: Bus, sle: Session)
    requires sle.Valid()
    modifies bus`port, bus`ddr, bus`cursor, bus`trace, sle.mainMemory
    ensures sle.mainMemory[..] == Bytes(bus.card, old(bus.cursor), 256)
    ensures bus.cursor == old(bus.cursor) + 2048
    ensures bus.port == ReleasedPort(old(bus.port)) && bus.ddr == ClearBit(old(bus.ddr), IoPin)
    ensures bus.trace == old(bus.trace) + DumpTrace(DumpMemoryCode, bus.card, old(bus.cursor), 256)
  {
    DumpMemory(bus, sle.mainMemory);
    FilledWhole(sle.mainMemory[..], Bytes(bus.card, old(bus.cursor), 256), old(sle.mainMemory[..]));
  }

  /** `sle_dump_prt_memory` into the session's buffer, which then holds
      exactly the four bytes read. */
  method ReadPrt(bus: Bus, sle: Session)
    requires sle.Valid()
    modifies bus`port, bus`ddr, bus`cursor, bus`trace, sle.protectedMemory
    ensures sle.protectedMemory[..] == Bytes(bus.card, old(bus.cursor), 4)
    ensures bus.cursor == old(bus.cursor) + 32
    ensures bus.port == ReleasedPort(old(bus.port)) && bus.ddr == ClearBit(old(bus.ddr), IoPin)
    ensures bus.trace == old(bus.trace) + DumpTrace(DumpPrtMemoryCode, bus.card, old(bus.cursor), 4)
  {
    DumpPrtMemory(bus, sle.protectedMemory);
    FilledWhole(sle.protectedMemory[..], Bytes(bus.card, old(bus.cursor), 4), old(sle.protectedMemory[..]));
  }

  /** `sle_dump_secmem` into the session's buffer, which then holds exactly
      the four bytes read, the error counter first. */
  method ReadSecmem(bus: Bus, sle: Session)
    requires sle.Valid()
    modifies bus`port, bus`ddr, bus`cursor, bus`trace, sle.securityMemory
    ensures sle.securityMemory[..] == Bytes(bus.card, old(bus.cursor), 4)
    ensures sle.securityMemory[0] == ByteAt(bus.card, old(bus.cursor))
    ensures bus.cursor == old(bus.cursor) + 32
    ensures bus.port == ReleasedPort(old(bus.port)) && bus.ddr == ClearBit(old(bus.ddr), IoPin)
    ensures bus.trace == old(bus.trace) + DumpTrace(DumpSecmemCode, bus.card, old(bus.cursor), 4)
  {
    DumpSecmem(bus, sle.securityMemory);
    FilledWhole(sle.securityMemory[..], Bytes(bus.card, old(bus.cursor), 4), old(sle.securityMemory[..]));
    BytesIndex(bus.card, old(bus.cursor), 4);
  }

  /** `sle_dump_prt_memory` then `sle_dump_secmem`, the last two dumps of
      `sle_dump_allmem`. */
  method DumpSmall(bus: Bus, sle: Session)
    requires sle.Valid()
    modifies bus`port, bus`ddr, bus`cursor, bus`trace, sle.protectedMemory, sle.securityMemory
    ensures sle.protectedMemory[..] == Bytes(bus.card, old(bus.cursor), 4)
    ensures sle.securityMemory[..] == Bytes(bus.card, old(bus.cursor) + 32, 4)
    ensures bus.cursor == old(bus.cursor) + 64
    ensures bus.port == ReleasedPort(old(bus.port)) && bus.ddr == ClearBit(old(bus.ddr), IoPin)
    ensures bus.trace == old(bus.trace) + DumpTrace(DumpPrtMemoryCode, bus.card, old(bus.cursor), 4)
                         + DumpTrace(DumpSecmemCode, bus.card, old(bus.cursor) + 32, 4)
  {
    ReadPrt(bus, sle);
    ReadSecmem(bus, sle);
    ReleasedPortTwice(old(bus.port));
    ClearBitTwice(old(bus.ddr), IoPin);
  }

  /** `sle_dump_allmem`: main, protection and security memory, in that order. */
  method DumpAll(bus: Bus, sle: Session)
    requires sle.Valid()
    modifies bus`port, bus`ddr, bus`cursor, bus`trace, sle.mainMemory, sle.protectedMemory, sle.securityMemory
    ensures sle.mainMemory[..] == Bytes(bus.card, old(bus.cursor), 256)
    ensures sle.protectedMemory[..] == Bytes(bus.card, old(bus.cursor) + 2048, 4)
    ensures sle.securityMemory[..] == Bytes(bus.card, old(bus.cursor) + 2080, 4)
    ensures bus.cursor == old(bus.cursor) + 2112
    ensures bus.port == ReleasedPort(old(bus.port)) && bus.ddr == ClearBit(old(bus.ddr), IoPin)
    ensures bus.trace == old(bus.trace) + (DumpTrace(DumpMemoryCode, bus.card, old(bus.cursor), 256)
                                           + DumpTrace(DumpPrtMemoryCode, bus.card, old(bus.cursor) + 2048, 4)
                                           + DumpTrace(DumpSecmemCode, bus.card, old(bus.cursor) + 2080, 4))
  {
    ReadMain(bus, sle);
    ghost var t1 := bus.trace;
    DumpSmall(bus, sle);
    ReleasedPortTwice(old(bus.port));
    ClearBitTwice(old(bus.ddr), IoPin);
    DumpAllTrace(old(bus.trace), DumpTrace(DumpMemoryCode, bus.card, old(bus.cursor), 256),
                 DumpTrace(DumpPrtMemoryCode, bus.card, old(bus.cursor) + 2048, 4),
                 DumpTrace(DumpSecmemCode, bus.card, old(bus.cursor) + 2080, 4), t1, bus.trace);
  }

  lemma DumpAllTrace(t0: seq<Event>, a: seq<Event>, b: seq<Event>, c: seq<Event>, t1: seq<Event>, t2: seq<Event>)
    requires t1 == t0 + a && t2 == t1 + b + c
    ensures t2 == t0 + (a + b + c)
  {
    Chain3(t0, a, b, c, t1, t1 + b, t2);
  }

  // ------------------------------------------------------- commands with processing

  /** The card answers after `z` busy rounds from sample `c`: `z` zeros, then a one. */
  ghost predicate Busy(card: nat -> bool, c: nat, z: nat)
  {
    (forall j :: c <= j < c + z ==> !card(j)) && card(c + z)
  }

  /** The card presents at least `n` ones from sample `c` on: what `n`
      successive `processing` loops from that sample need in order to end. */
  ghost predicate AnswersFrom(card: nat -> bool, c: nat, n: nat)
    decreases n
  {
    n == 0 || exists k :: c <= k && card(k) && AnswersFrom(card, k + 1, n - 1)
  }

  /** Ones from a later sample on are ones from an earlier sample on. */
  lemma AnswersEarlier(card: nat -> bool, a: nat, b: nat, n: nat)
    requires a <= b && AnswersFrom(card, b, n)
    ensures AnswersFrom(card, a, n)
  {
    if n != 0 {
      var k :| b <= k && card(k) && AnswersFrom(card, k + 1, n - 1);
      assert a <= k;
    }
  }

  /** At least `n` ones are at least `m` ones, for `m <= n`. */
  lemma {:induction false} AnswersFewer(card: nat -> bool, c: nat, n: nat, m: nat)
    requires m <= n && AnswersFrom(card, c, n)
    ensures AnswersFrom(card, c, m)
    decreases n
  {
    if m != 0 {
      var k :| c <= k && card(k) && AnswersFrom(card, k + 1, n - 1);
      AnswersFewer(card, k + 1, n - 1, m - 1);
    }
  }

  /** One command sent and the number of busy rounds `processing` counted
      before the card's one. */
  datatype Step = Step(cmd: Command, busy: nat)

  /** `send_cmd` of the step's command, then `processing`. */
  function StepTrace(s: Step): seq<Event>
  {
    CommandTrace(s.cmd) + ProcessingTrace(s.busy)
  }

  /** The steps one after the other. */
  function StepsTrace(steps: seq<Step>): seq<Event>
  {
    if steps == [] then [] else StepsTrace(steps[..|steps| - 1]) + StepTrace(steps[|steps| - 1])
  }

  /** The commands of the steps, in order. */
  function CommandsOf(steps: seq<Step>): (cmds: seq<Command>)
    ensures |cmds| == |steps|
  {
    if steps == [] then [] else CommandsOf(steps[..|steps| - 1]) + [steps[|steps| - 1].cmd]
  }

  /** The `uint8_t` counts `processing` returns for the steps. */
  function Counts(steps: seq<Step>): (rs: seq<bv8>)
    ensures |rs| == |steps|
  {
    if steps == [] then [] else Counts(steps[..|steps| - 1]) + [Wrap8(steps[|steps| - 1].busy)]
  }

  /** The sample number after the steps, starting from sample `c`. */
  function StepsEnd(c: nat, steps: seq<Step>): nat
  {
    if steps == [] then c else StepsEnd(c, steps[..|steps| - 1]) + steps[|steps| - 1].busy + 1
  }

  /** The card answered each step after the step's busy rounds. */
  ghost predicate Answers(card: nat -> bool, c: nat, steps: seq<Step>)
  {
    steps == [] || (Answers(card, c, steps[..|steps| - 1])
                    && Busy(card, StepsEnd(c, steps[..|steps| - 1]), steps[|steps| - 1].busy))
  }

  /** One `processing` loop from sample `p` ends at the card's first one, so
      one of the `n` ones is used up and the other `n - 1` are still ahead. */
  lemma AnswersStep(card: nat -> bool, p: nat, n: nat, z: nat)
    requires 0 < n && AnswersFrom(card, p, n) && Busy(card, p, z)
    ensures AnswersFrom(card, p + z + 1, n - 1)
  {
    var k :| p <= k && card(k) && AnswersFrom(card, k + 1, n - 1);
    assert p + z <= k;
    AnswersEarlier(card, p + z + 1, k + 1, n - 1);
  }

  /** After the steps `steps` from sample `c`, a card with `n` ones from `c`
      on still has `n - |steps|` of them ahead. */
  lemma {:induction false} AnswersAfter(card: nat -> bool, c: nat, n: nat, steps: seq<Step>)
    requires |steps| <= n && AnswersFrom(card, c, n) && Answers(card, c, steps)
    ensures AnswersFrom(card, StepsEnd(c, steps), n - |steps|)
    decreases |steps|
  {
    if steps != [] {
      var init := steps[..|steps| - 1];
      AnswersAfter(card, c, n, init);
      AnswersStep(card, StepsEnd(c, init), n - |init|, steps[|steps| - 1].busy);
    }
  }

  /** A card with `|steps| + 1` ones from `c` on answers the next
      `processing` after the steps. */
  lemma AnswersNext(card: nat -> bool, c: nat, steps: seq<Step>)
    requires AnswersFrom(card, c, |steps| + 1) && Answers(card, c, steps)
    ensures HasOneFrom(card, StepsEnd(c, steps))
  {
    AnswersAfter(card, c, |steps| + 1, steps);
    var k :| StepsEnd(c, steps) <= k && card(k) && AnswersFrom(card, k + 1, 0);
  }

  /** Answered steps seen from the front: the first step's busy rounds start
      at `c`, and the rest are answered from the sample after its one. */
  lemma {:induction false} AnswersCons(card: nat -> bool, c: nat, s: Step, r: seq<Step>)
    requires Answers(card, c, [s] + r)
    ensures Busy(card, c, s.busy) && Answers(card, c + s.busy + 1, r)
    ensures StepsEnd(c, [s] + r) == StepsEnd(c + s.busy + 1, r)
    decreases |r|
  {
    if r == [] {
      assert ([s] + r)[..0] == [];
    } else {
      var r' := r[..|r| - 1];
      assert ([s] + r)[..|[s] + r| - 1] == [s] + r';
      AnswersCons(card, c, s, r');
    }
  }

  /** Every run of answered steps needs as many ones as it has steps: a card
      on which the source's loops end satisfies AnswersFrom for their number. */
  lemma {:induction false} AnswersNeeded(card: nat -> bool, c: nat, steps: seq<Step>)
    requires Answers(card, c, steps)
    ensures AnswersFrom(card, c, |steps|)
    decreases |steps|
  {
    if steps != [] {
      var s, r := steps[0], steps[1..];
      assert steps == [s] + r;
      AnswersCons(card, c, s, r);
      AnswersNeeded(card, c + s.busy + 1, r);
      assert c <= c + s.busy && card(c + s.busy) && AnswersFrom(card, c + s.busy + 1, |steps| - 1);
    }
  }

  lemma StepsEndAtLeast(c: nat, steps: seq<Step>)
    ensures c <= StepsEnd(c, steps)
  {
  }

  /** One more step extends every description of the steps by that step. */
  lemma StepsSnoc(card: nat -> bool, c: nat, steps: seq<Step>, s: Step, t0: seq<Event>, t1: seq<Event>,
                  t2: seq<Event>)
    requires t1 == t0 + StepsTrace(steps) && t2 == t1 + StepTrace(s)
    ensures t2 == t0 + StepsTrace(steps + [s])
    ensures CommandsOf(steps + [s]) == CommandsOf(steps) + [s.cmd]
    ensures Counts(steps + [s]) == Counts(steps) + [Wrap8(s.busy)]
    ensures StepsEnd(c, steps + [s]) == StepsEnd(c, steps) + s.busy + 1
    ensures Answers(card, c, steps + [s]) == (Answers(card, c, steps) && Busy(card, StepsEnd(c, steps), s.busy))
  {
    assert (steps + [s])[..|steps|] == steps;
    AppendAssoc(t0, StepsTrace(steps), StepTrace(s));
  }

  /** `send_cmd(cmd)` then `processing()`: the count returned is that of the
      card's busy rounds, which end at its first one. */
  method Exchange(bus: Bus, cmd: Command) returns (r: bv8, ghost z: nat)
    requires HasOneFrom(bus.card, bus.cursor)
    modifies bus`port, bus`ddr, bus`cursor, bus`trace
    ensures r == Wrap8(z) && Busy(bus.card, old(bus.cursor), z) && bus.cursor == old(bus.cursor) + z + 1
    ensures bus.port == ReleasedPort(old(bus.port)) && bus.ddr == ClearBit(old(bus.ddr), IoPin)
    ensures bus.trace == old(bus.trace) + StepTrace(Step(cmd, z))
  {
    bus.SendCmd(cmd.control, cmd.address, cmd.data);
    ghost var t1 := bus.trace;
    ReleasedPortTwice(old(bus.port));
    r, z := bus.Processing();
    AppendAssoc(old(bus.trace), CommandTrace(cmd), ProcessingTrace(z));
  }

  /** An `Exchange` after the steps `steps`, run from sample `c` with trace `t`. */
  method Advance(bus: Bus, cmd: Command, ghost c: nat, ghost t: seq<Event>, ghost steps: seq<Step>)
    returns (r: bv8, ghost s: Step)
    requires AnswersFrom(bus.card, c, |steps| + 1) && Answers(bus.card, c, steps) && bus.cursor == StepsEnd(c, steps)
    requires bus.trace == t + StepsTrace(steps)
    modifies bus`port, bus`ddr, bus`cursor, bus`trace
    ensures s.cmd == cmd && r == Wrap8(s.busy)
    ensures CommandsOf(steps + [s]) == CommandsOf(steps) + [cmd] && Counts(steps + [s]) == Counts(steps) + [r]
    ensures Answers(bus.card, c, steps + [s]) && bus.cursor == StepsEnd(c, steps + [s])
    ensures bus.port == ReleasedPort(old(bus.port)) && bus.ddr == ClearBit(old(bus.ddr), IoPin)
    ensures bus.trace == t + StepsTrace(steps + [s])
  {
    StepsEndAtLeast(c, steps);
    AnswersNext(bus.card, c, steps);
    ghost var z;
    r, z := Exchange(bus, cmd);
    s := Step(cmd, z);
    StepsSnoc(bus.card, c, steps, s, t, old(bus.trace), bus.trace);
  }

  /** An `Advance` whose count is stored in `proc[i]`, the i-th step, into a
      buffer that held `rest`. */
  method Round(bus: Bus, proc: array<bv8>, i: nat, cmd: Command, ghost c: nat, ghost t: seq<Event>,
               ghost steps: seq<Step>, ghost rest: seq<bv8>) returns (ghost s: Step)
    requires i == |steps| < proc.Length == |rest| && proc[..] == Counts(steps) + rest[i..]
    requires AnswersFrom(bus.card, c, |steps| + 1) && Answers(bus.card, c, steps) && bus.cursor == StepsEnd(c, steps)
    requires bus.trace == t + StepsTrace(steps)
    modifies bus`port, bus`ddr, bus`cursor, bus`trace, proc
    ensures CommandsOf(steps + [s]) == CommandsOf(steps) + [cmd]
    ensures proc[..] == Counts(steps + [s]) + rest[i + 1..]
    ensures Answers(bus.card, c, steps + [s]) && bus.cursor == StepsEnd(c, steps + [s])
    ensures bus.port == ReleasedPort(old(bus.port)) && bus.ddr == ClearBit(old(bus.ddr), IoPin)
    ensures bus.trace == t + StepsTrace(steps + [s])
  {
    var r;
    r, s := Advance(bus, cmd, c, t, steps);
    FillStep(Counts(steps), rest, r);
    proc[i] := r;
  }

  /** Nothing is left after the last index; a lemma so that the caller's
      proof stays small. */
  lemma DropAll(s: seq<bv8>)
    ensures s[|s|..] == []
  {
  }

  /** The state after the steps `steps`, run from sample `c` with trace `t`,
      lines at `port`/`ddr` and `proc` holding `rest`: the card answered each
      step, the i-th count is in `proc[i]`, and the lines are released once a
      command has been sent. */
  ghost predicate Running(bus: Bus, proc: array<bv8>, c: nat, t: seq<Event>, rest: seq<bv8>, port: bv8, ddr: bv8,
                          steps: seq<Step>)
    reads bus, proc
  {
    && |steps| <= proc.Length == |rest|
    && proc[..] == Counts(steps) + rest[|steps|..]
    && Answers(bus.card, c, steps) && bus.cursor == StepsEnd(c, steps)
    && bus.trace == t + StepsTrace(steps)
    && bus.port == (if steps == [] then port else ReleasedPort(port))
    && bus.ddr == (if steps == [] then ddr else ClearBit(ddr, IoPin))
  }

  /** One more command sent and its count stored after those of `steps`. */
  method RunStep(bus: Bus, proc: array<bv8>, i: nat, cmd: Command, ghost c: nat, ghost t: seq<Event>, ghost rest: seq<bv8>,
                 ghost port: bv8, ghost ddr: bv8, ghost steps: seq<Step>) returns (ghost next: seq<Step>)
    requires i == |steps| < proc.Length && AnswersFrom(bus.card, c, i + 1) && Running(bus, proc, c, t, rest, port, ddr, steps)
    modifies bus`port, bus`ddr, bus`cursor, bus`trace, proc
    ensures CommandsOf(next) == CommandsOf(steps) + [cmd]
    ensures Running(bus, proc, c, t, rest, port, ddr, next)
  {
    ReleasedPortTwice(port);
    ClearBitTwice(ddr, IoPin);
    ghost var s := Round(bus, proc, i, cmd, c, t, steps, rest);
    next := steps + [s];
  }

  /** Two appends are one append of a pair; a lemma so that the caller's
      proof stays small. */
  lemma SnocTwo(cmds: seq<Command>, cmd1: Command, cmd2: Command)
    ensures cmds + [cmd1] + [cmd2] == cmds + [cmd1, cmd2]
  {
  }

  /** Two commands sent, their counts stored after those of `steps`. */
  method RunPair(bus: Bus, proc: array<bv8>, i: nat, cmd1: Command, cmd2: Command, ghost c: nat, ghost t: seq<Event>,
                 ghost rest: seq<bv8>, ghost port: bv8, ghost ddr: bv8, ghost steps: seq<Step>)
    returns (ghost next: seq<Step>)
    requires i == |steps| && i + 2 <= proc.Length && AnswersFrom(bus.card, c, i + 2)
    requires Running(bus, proc, c, t, rest, port, ddr, steps)
    modifies bus`port, bus`ddr, bus`cursor, bus`trace, proc
    ensures CommandsOf(next) == CommandsOf(steps) + [cmd1, cmd2]
    ensures Running(bus, proc, c, t, rest, port, ddr, next)
  {
    AnswersFewer(bus.card, c, i + 2, i + 1);
    ghost var mid := RunStep(bus, proc, i, cmd1, c, t, rest, port, ddr, steps);
    next := RunStep(bus, proc, i + 1, cmd2, c, t, rest, port, ddr, mid);
    SnocTwo(CommandsOf(steps), cmd1, cmd2);
  }

  // ---------------------------------------------------------------- authentication

  /** The five commands of `sle_auth`: clear bit 3 of the error counter,
      compare the three PIN bytes, write the error counter back to 0xff. */
  function AuthCommands(pin1: bv8, pin2: bv8, pin3: bv8): seq<Command>
  {
    [Command(UpdateSecmemCode, 0, 3), Command(CompareCode, 1, pin1), Command(CompareCode, 2, pin2),
     Command(CompareCode, 3, pin3), Command(UpdateSecmemCode, 0, 0xff)]
  }

  /** The commands of `sle_auth` as they are sent: two pairs, then one. An
      unfolding step of AuthCommands for the solver; it states nothing new. */
  lemma AuthCommandsSplit(pin1: bv8, pin2: bv8, pin3: bv8)
    ensures AuthCommands(pin1, pin2, pin3)
         == CommandsOf([]) + [Command(UpdateSecmemCode, 0, 3), Command(CompareCode, 1, pin1)]
            + [Command(CompareCode, 2, pin2), Command(CompareCode, 3, pin3)] + [Command(UpdateSecmemCode, 0, 0xff)]
  {
  }

  /** The five commands of `sle_auth`, each followed by `processing`, the
      counts stored in `ck_proc[0..5)`. */
  method AuthSequence(bus: Bus, sle: Session, pin1: bv8, pin2: bv8, pin3: bv8) returns (ghost steps: seq<Step>)
    requires sle.Valid() && AnswersFrom(bus.card, bus.cursor, 5)
    modifies bus`port, bus`ddr, bus`cursor, bus`trace, sle.ckProc
    ensures CommandsOf(steps) == AuthCommands(pin1, pin2, pin3) && sle.ckProc[..] == Counts(steps)
    ensures Answers(bus.card, old(bus.cursor), steps) && bus.cursor == StepsEnd(old(bus.cursor), steps)
    ensures bus.port == ReleasedPort(old(bus.port)) && bus.ddr == ClearBit(old(bus.ddr), IoPin)
    ensures bus.trace == old(bus.trace) + StepsTrace(steps)
  {
    ghost var c, t, rest, port, ddr := bus.cursor, bus.trace, sle.ckProc[..], bus.port, bus.ddr;
    AnswersFewer(bus.card, c, 5, 2);
    AnswersFewer(bus.card, c, 5, 4);
    steps := RunPair(bus, sle.ckProc, 0, Command(UpdateSecmemCode, 0, 3), Command(CompareCode, 1, pin1), c, t, rest,
                     port, ddr, []);
    steps := RunPair(bus, sle.ckProc, 2, Command(CompareCode, 2, pin2), Command(CompareCode, 3, pin3), c, t, rest,
                     port, ddr, steps);
    steps := RunStep(bus, sle.ckProc, 4, Command(UpdateSecmemCode, 0, 0xff), c, t, rest, port, ddr, steps);
    AuthCommandsSplit(pin1, pin2, pin3);
    DropAll(rest);
  }

  /** The commands of `sle_auth` and the second dump of security memory. */
  method AuthRetry(bus: Bus, sle: Session, pin1: bv8, pin2: bv8, pin3: bv8) returns (ghost steps: seq<Step>)
    requires sle.Valid() && AnswersFrom(bus.card, bus.cursor, 5)
    modifies bus`port, bus`ddr, bus`cursor, bus`trace, sle.ckProc, sle.securityMemory
    ensures CommandsOf(steps) == AuthCommands(pin1, pin2, pin3) && sle.ckProc[..] == Counts(steps)
    ensures Answers(bus.card, old(bus.cursor), steps)
    ensures sle.securityMemory[..] == Bytes(bus.card, StepsEnd(old(bus.cursor), steps), 4)
    ensures sle.securityMemory[0] == ByteAt(bus.card, StepsEnd(old(bus.cursor), steps))
    ensures bus.cursor == StepsEnd(old(bus.cursor), steps) + 32
    ensures bus.port == ReleasedPort(old(bus.port)) && bus.ddr == ClearBit(old(bus.ddr), IoPin)
    ensures bus.trace == old(bus.trace) + StepsTrace(steps)
                         + DumpTrace(DumpSecmemCode, bus.card, StepsEnd(old(bus.cursor), steps), 4)
  {
    steps := AuthSequence(bus, sle, pin1, pin2, pin3);
    ReadSecmem(bus, sle);
    ReleasedPortTwice(old(bus.port));
  }

  /** `sle_auth` when the first dump shows the error counter at 7: dump, the
      steps, dump again. */
  function AuthTrace(card: nat -> bool, c: nat, steps: seq<Step>): seq<Event>
  {
    DumpTrace(DumpSecmemCode, card, c, 4) + StepsTrace(steps) + DumpTrace(DumpSecmemCode, card, StepsEnd(c + 32, steps), 4)
  }

  lemma AuthTraceParts(card: nat -> bool, c: nat, steps: seq<Step>, t0: seq<Event>, t1: seq<Event>, t2: seq<Event>)
    requires t1 == t0 + DumpTrace(DumpSecmemCode, card, c, 4)
    requires t2 == t1 + StepsTrace(steps) + DumpTrace(DumpSecmemCode, card, StepsEnd(c + 32, steps), 4)
    ensures t2 == t0 + AuthTrace(card, c, steps)
  {
    Chain3(t0, DumpTrace(DumpSecmemCode, card, c, 4), StepsTrace(steps),
           DumpTrace(DumpSecmemCode, card, StepsEnd(c + 32, steps), 4), t1, t1 + StepsTrace(steps), t2);
  }

  /** The five commands and the second dump of `sle_auth`, after a first
      dump from sample `c` onto the trace `t0`. */
  method AuthAfterDump(bus: Bus, sle: Session, pin1: bv8, pin2: bv8, pin3: bv8, ghost c: nat, ghost t0: seq<Event>)
    returns (ghost steps: seq<Step>)
    requires sle.Valid() && AnswersFrom(bus.card, c + 32, 5) && bus.cursor == c + 32
    requires bus.trace == t0 + DumpTrace(DumpSecmemCode, bus.card, c, 4)
    modifies bus`port, bus`ddr, bus`cursor, bus`trace, sle.securityMemory, sle.ckProc
    ensures CommandsOf(steps) == AuthCommands(pin1, pin2, pin3) && Answers(bus.card, c + 32, steps)
    ensures sle.ckProc[..] == Counts(steps)
    ensures sle.securityMemory[..] == Bytes(bus.card, StepsEnd(c + 32, steps), 4)
    ensures sle.securityMemory[0] == ByteAt(bus.card, StepsEnd(c + 32, steps))
    ensures bus.cursor == StepsEnd(c + 32, steps) + 32
    ensures bus.trace == t0 + AuthTrace(bus.card, c, steps)
    ensures bus.port == ReleasedPort(old(bus.port)) && bus.ddr == ClearBit(old(bus.ddr), IoPin)
  {
    steps := AuthRetry(bus, sle, pin1, pin2, pin3);
    AuthTraceParts(bus.card, c, steps, t0, old(bus.trace), bus.trace);
  }

  /** The last test of `sle_auth`: `auth` becomes 1 when the error counter in
      the security memory buffer is 7, and is otherwise left as it was. */
  method Grant(sle: Session)
    requires sle.Valid()
    modifies sle`auth
    ensures sle.auth == if sle.securityMemory[0] == ErrorCounterFull then 1 else old(sle.auth)
  {
    if sle.securityMemory[0] == ErrorCounterFull {
      sle.auth := 1;
    }
  }

  /** `sle_auth`: the security memory dumped; when its error counter is 7, the
      five commands and a second dump; then `auth` is set to 1 when the error
      counter last dumped is 7, and otherwise left as it was. */
  method Auth(bus: Bus, sle: Session, pin1: bv8, pin2: bv8, pin3: bv8) returns (ghost steps: seq<Step>)
    requires sle.Valid() && (ByteAt(bus.card, bus.cursor) == ErrorCounterFull ==> AnswersFrom(bus.card, bus.cursor + 32, 5))
    modifies bus`port, bus`ddr, bus`cursor, bus`trace, sle.securityMemory, sle.ckProc, sle`auth
    ensures ByteAt(bus.card, old(bus.cursor)) != ErrorCounterFull ==>
              steps == [] && sle.securityMemory[..] == Bytes(bus.card, old(bus.cursor), 4)
              && sle.ckProc[..] == old(sle.ckProc[..]) && sle.auth == old(sle.auth)
              && bus.trace == old(bus.trace) + DumpTrace(DumpSecmemCode, bus.card, old(bus.cursor), 4)
    ensures ByteAt(bus.card, old(bus.cursor)) == ErrorCounterFull ==>
              CommandsOf(steps) == AuthCommands(pin1, pin2, pin3) && Answers(bus.card, old(bus.cursor) + 32, steps)
              && sle.ckProc[..] == Counts(steps)
              && sle.securityMemory[..] == Bytes(bus.card, StepsEnd(old(bus.cursor) + 32, steps), 4)
              && sle.auth == (if ByteAt(bus.card, StepsEnd(old(bus.cursor) + 32, steps)) == ErrorCounterFull
                              then 1 else old(sle.auth))
              && bus.trace == old(bus.trace) + AuthTrace(bus.card, old(bus.cursor), steps)
    ensures bus.cursor == if ByteAt(bus.card, old(bus.cursor)) != ErrorCounterFull then old(bus.cursor) + 32
                          else StepsEnd(old(bus.cursor) + 32, steps) + 32
    ensures bus.port == ReleasedPort(old(bus.port)) && bus.ddr == ClearBit(old(bus.ddr), IoPin)
  {
    ReadSecmem(bus, sle);
    steps := [];
    if sle.securityMemory[0] == ErrorCounterFull {
      steps := AuthAfterDump(bus, sle, pin1, pin2, pin3, old(bus.cursor), old(bus.trace));
      ReleasedPortTwice(old(bus.port));
    }
    Grant(sle);
  }

  // ------------------------------------------------------------------ writes

  /** The address of the i-th byte `sle_write_memory` writes from `base`:
      the `uint8_t` sum, which wraps past 255. */
  function Address(base: bv8, i: bv8): bv8
  {
    base + i
  }

  /** The first `n` UPDATE_MEMORY commands of `sle_write_memory`: the i-th
      writes the byte the copy `mm` holds at the address `base + i`. */
  function WriteCommands(mm: seq<bv8>, base: bv8, n: bv8): seq<Command>
    requires |mm| == 256
    decreases n
  {
    if n == 0 then [] else WriteCommands(mm, base, n - 1) + [Command(UpdateMemoryCode, Address(base, n - 1), mm[Address(base, n - 1)])]
  }

  /** One unfolding step of WriteCommands for the solver; it states nothing new. */
  lemma WriteCommandsSnoc(mm: seq<bv8>, base: bv8, n: bv8, cmds: seq<Command>)
    requires |mm| == 256 && n < 255 && cmds == WriteCommands(mm, base, n)
    ensures WriteCommands(mm, base, n + 1) == cmds + [Command(UpdateMemoryCode, Address(base, n), mm[Address(base, n)])]
  {
  }

  /** One UPDATE_MEMORY write of the copy `mm` of main memory, with its count
      stored in `proc[0]`. */
  method WriteRound(bus: Bus, mm: array<bv8>, proc: array<bv8>, base: bv8, i: bv8, ghost c: nat,
                    ghost t: seq<Event>, ghost steps: seq<Step>) returns (ghost s: Step)
    requires mm.Length == 256 && 0 < proc.Length && mm != proc && i < 255
    requires CommandsOf(steps) == WriteCommands(mm[..], base, i)
    requires AnswersFrom(bus.card, c, |steps| + 1) && Answers(bus.card, c, steps) && bus.cursor == StepsEnd(c, steps)
    requires bus.trace == t + StepsTrace(steps)
    modifies bus`port, bus`ddr, bus`cursor, bus`trace, proc
    ensures CommandsOf(steps + [s]) == WriteCommands(mm[..], base, i + 1)
    ensures Counts(steps + [s]) == Counts(steps) + [Wrap8(s.busy)]
    ensures proc[..] == old(proc[..])[0 := Wrap8(s.busy)]
    ensures Answers(bus.card, c, steps + [s]) && bus.cursor == StepsEnd(c, steps + [s])
    ensures bus.port == ReleasedPort(old(bus.port)) && bus.ddr == ClearBit(old(bus.ddr), IoPin)
    ensures bus.trace == t + StepsTrace(steps + [s])
  {
    ghost var m := mm[..];
    WriteCommandsSnoc(m, base, i, CommandsOf(steps));
    var addr := base + i;
    var r;
    r, s := Advance(bus, Command(UpdateMemoryCode, addr, mm[addr]), c, t, steps);
    proc[0] := r;
    assert mm[..] == m;
  }

  /** Storing twice at index 0 keeps the second value. */
  lemma FirstUpdatedTwice(a: seq<bv8>, x: bv8, y: bv8)
    requires 0 < |a|
    ensures a[0 := x][0 := y] == a[0 := y]
  {
  }

  /** How many rounds a loop counting from `i` up to `len` has left. */
  function Pending(i: bv8, len: bv8): nat
  {
    (len - i) as int
  }

  /** A round done leaves one round fewer. */
  lemma PendingStep(i: bv8, len: bv8)
    requires i < len
    ensures Pending(i + 1, len) + 1 == Pending(i, len)
  {
    assert len - (i + 1) == (len - i) - 1;
    PredInt(len - i);
  }

  /** From 0, all `len` rounds are left. */
  lemma PendingAll(len: bv8)
    ensures Pending(0, len) == len as int
  {
    assert len - 0 == len;
  }

  /** The state of the loop of `sle_write_memory` after the rounds `steps`,
      which wrote the first `i` bytes of `mm` from `base`: the card has
      answered each, the bus has the lines released at `port`/`ddr`, and
      `proc` is `p0` with the latest count at index 0. */
  ghost predicate Writing(bus: Bus, mm: array<bv8>, proc: array<bv8>, base: bv8, i: bv8, c: nat, t: seq<Event>,
                          p0: seq<bv8>, steps: seq<Step>, port: bv8, ddr: bv8)
    reads bus, mm, proc
  {
    && mm.Length == 256 && 0 < |p0| && steps != []
    && CommandsOf(steps) == WriteCommands(mm[..], base, i)
    && Answers(bus.card, c, steps) && bus.cursor == StepsEnd(c, steps)
    && bus.trace == t + StepsTrace(steps)
    && proc[..] == p0[0 := Counts(steps)[|steps| - 1]]
    && bus.port == port && bus.ddr == ddr
  }

  /** One round of the loop of `sle_write_memory` once the lines are released. */
  method WriteStep(bus: Bus, mm: array<bv8>, proc: array<bv8>, base: bv8, i: bv8, ghost c: nat, ghost t: seq<Event>,
                   ghost p0: seq<bv8>, ghost steps: seq<Step>, ghost port: bv8, ghost ddr: bv8) returns (ghost next: seq<Step>)
    requires mm != proc && i < 255 && AnswersFrom(bus.card, c, |steps| + 1)
    requires port == ReleasedPort(port) && ddr == ClearBit(ddr, IoPin)
    requires Writing(bus, mm, proc, base, i, c, t, p0, steps, port, ddr)
    modifies bus`port, bus`ddr, bus`cursor, bus`trace, proc
    ensures Writing(bus, mm, proc, base, i + 1, c, t, p0, next, port, ddr) && |next| == |steps| + 1
  {
    ghost var last := Counts(steps)[|steps| - 1];
    ghost var s := WriteRound(bus, mm, proc, base, i, c, t, steps);
    FirstUpdatedTwice(p0, last, Wrap8(s.busy));
    next := steps + [s];
  }

  /** The rounds `i0..len` of the loop of `sle_write_memory` once the first
      round has released the lines. */
  method WriteRest(bus: Bus, mm: array<bv8>, proc: array<bv8>, base: bv8, len: bv8, i0: bv8, ghost c: nat, ghost t: seq<Event>,
                   ghost p0: seq<bv8>, ghost done: seq<Step>, ghost port: bv8, ghost ddr: bv8, ghost n: nat)
    returns (ghost steps: seq<Step>)
    requires mm != proc && i0 <= len && n == |done| + Pending(i0, len) && AnswersFrom(bus.card, c, n)
    requires port == ReleasedPort(port) && ddr == ClearBit(ddr, IoPin)
    requires Writing(bus, mm, proc, base, i0, c, t, p0, done, port, ddr)
    modifies bus`port, bus`ddr, bus`cursor, bus`trace, proc
    ensures Writing(bus, mm, proc, base, len, c, t, p0, steps, port, ddr)
    decreases Pending(i0, len)
  {
    if i0 < len {
      PendingStep(i0, len);
      AnswersFewer(bus.card, c, n, |done| + 1);
      ghost var next := WriteStep(bus, mm, proc, base, i0, c, t, p0, done, port, ddr);
      steps := WriteRest(bus, mm, proc, base, len, i0 + 1, c, t, p0, next, port, ddr, n);
    } else {
      steps := done;
    }
  }

  /** The first round of the loop of `sle_write_memory`, which releases the
      lines. */
  method WriteFirst(bus: Bus, mm: array<bv8>, proc: array<bv8>, base: bv8) returns (ghost s: Step)
    requires mm.Length == 256 && 0 < proc.Length && mm != proc && AnswersFrom(bus.card, bus.cursor, 1)
    modifies bus`port, bus`ddr, bus`cursor, bus`trace, proc
    ensures Writing(bus, mm, proc, base, 1, old(bus.cursor), old(bus.trace), old(proc[..]), [s],
                    ReleasedPort(old(bus.port)), ClearBit(old(bus.ddr), IoPin))
  {
    s := WriteRound(bus, mm, proc, base, 0, bus.cursor, bus.trace, []);
    assert [] + [s] == [s];
  }

  /** The loop of `sle_write_memory`: nothing when `len` is 0, otherwise the
      first round, which releases the lines, and the rounds after it. */
  method WriteLoop(bus: Bus, mm: array<bv8>, proc: array<bv8>, base: bv8, len: bv8) returns (ghost steps: seq<Step>)
    requires mm.Length == 256 && 0 < proc.Length && mm != proc && AnswersFrom(bus.card, bus.cursor, len as int)
    modifies bus`port, bus`ddr, bus`cursor, bus`trace, proc
    ensures CommandsOf(steps) == WriteCommands(mm[..], base, len)
    ensures Answers(bus.card, old(bus.cursor), steps) && bus.cursor == StepsEnd(old(bus.cursor), steps)
    ensures bus.trace == old(bus.trace) + StepsTrace(steps)
    ensures steps == [] ==> proc[..] == old(proc[..]) && bus.port == old(bus.port) && bus.ddr == old(bus.ddr)
    ensures steps != [] ==> proc[..] == old(proc[..])[0 := Counts(steps)[|steps| - 1]]
    ensures steps != [] ==> bus.port == ReleasedPort(old(bus.port)) && bus.ddr == ClearBit(old(bus.ddr), IoPin)
  {
    steps := [];
    if len != 0 {
      ReleasedPortTwice(bus.port);
      ClearBitTwice(bus.ddr, IoPin);
      PendingAll(len);
      PendingStep(0, len);
      AnswersFewer(bus.card, bus.cursor, len as int, 1);
      ghost var s := WriteFirst(bus, mm, proc, base);
      steps := WriteRest(bus, mm, proc, base, len, 1, old(bus.cursor), old(bus.trace), old(proc[..]), [s],
                         ReleasedPort(old(bus.port)), ClearBit(old(bus.ddr), IoPin), len as int);
    }
  }

  /** `sle_write_memory`: when `auth` is set, for i below `len`, UPDATE_MEMORY
      of the byte of `main_memory` at `base + i` (wrapped), each followed by
      `processing`, whose count goes to `ck_proc[0]`; when `auth` is 0, nothing. */
  method WriteMemory(bus: Bus, sle: Session, base: bv8, len: bv8) returns (ghost steps: seq<Step>)
    requires sle.Valid() && (sle.auth != 0 ==> AnswersFrom(bus.card, bus.cursor, len as int))
    modifies bus`port, bus`ddr, bus`cursor, bus`trace, sle.ckProc
    ensures sle.auth == 0 ==>
              steps == [] && bus.trace == old(bus.trace) && bus.cursor == old(bus.cursor)
              && bus.port == old(bus.port) && bus.ddr == old(bus.ddr) && sle.ckProc[..] == old(sle.ckProc[..])
    ensures sle.auth != 0 ==>
              CommandsOf(steps) == WriteCommands(sle.mainMemory[..], base, len)
              && Answers(bus.card, old(bus.cursor), steps) && bus.cursor == StepsEnd(old(bus.cursor), steps)
              && bus.trace == old(bus.trace) + StepsTrace(steps)
    ensures steps == [] ==> sle.ckProc[..] == old(sle.ckProc[..]) && bus.port == old(bus.port) && bus.ddr == old(bus.ddr)
    ensures steps != [] ==> sle.ckProc[..] == old(sle.ckProc[..])[0 := Counts(steps)[|steps| - 1]]
    ensures steps != [] ==> bus.port == ReleasedPort(old(bus.port)) && bus.ddr == ClearBit(old(bus.ddr), IoPin)
  {
    steps := [];
    if sle.auth != 0 {
      steps := WriteLoop(bus, sle.mainMemory, sle.ckProc, base, len);
    }
  }

  /** The first `n` UPDATE_SECMEM commands of `sle_write_secmem`: byte i of
      the copy `m` to security memory address i. */
  function SecmemCommands(m: seq<bv8>, n: bv8): (cmds: seq<Command>)
    requires n <= 4 && |m| == 4
    ensures |cmds| == n as int
    decreases n as int
  {
    if n == 0 then [] else SecmemCommands(m, n - 1) + [Command(UpdateSecmemCode, n - 1, m[n - 1])]
  }

  /** One unfolding step of SecmemCommands for the solver; it states nothing new. */
  lemma SecmemCommandsSnoc(m: seq<bv8>, i: bv8, cmds: seq<Command>)
    requires |m| == 4 && i < 4 && cmds == SecmemCommands(m, i)
    ensures SecmemCommands(m, i + 1) == cmds + [Command(UpdateSecmemCode, i, m[i])]
  {
  }

  /** Round i of the loop of `sle_write_secmem`. */
  method SecmemStep(bus: Bus, sle: Session, i: bv8, ghost c: nat, ghost t: seq<Event>, ghost rest: seq<bv8>,
                    ghost port: bv8, ghost ddr: bv8, ghost steps: seq<Step>) returns (ghost next: seq<Step>)
    requires sle.Valid() && AnswersFrom(bus.card, c, i as int + 1) && i < 4 && i as int == |steps|
    requires CommandsOf(steps) == SecmemCommands(sle.securityMemory[..], i)
    requires Running(bus, sle.ckProc, c, t, rest, port, ddr, steps)
    modifies bus`port, bus`ddr, bus`cursor, bus`trace, sle.ckProc
    ensures |next| == i as int + 1 && CommandsOf(next) == SecmemCommands(sle.securityMemory[..], i + 1)
    ensures Running(bus, sle.ckProc, c, t, rest, port, ddr, next)
  {
    SecmemCommandsSnoc(sle.securityMemory[..], i, CommandsOf(steps));
    next := RunStep(bus, sle.ckProc, i as int, Command(UpdateSecmemCode, i, sle.securityMemory[i]), c, t, rest,
                    port, ddr, steps);
  }

  /** The loop of `sle_write_secmem`: for i = 0..3, UPDATE_SECMEM of byte i
      of `security_memory` to address i, its count stored in `ck_proc[i]`. */
  method SecmemLoop(bus: Bus, sle: Session) returns (ghost steps: seq<Step>)
    requires sle.Valid() && AnswersFrom(bus.card, bus.cursor, 4)
    modifies bus`port, bus`ddr, bus`cursor, bus`trace, sle.ckProc
    ensures |steps| == 4 && CommandsOf(steps) == SecmemCommands(sle.securityMemory[..], 4)
    ensures Running(bus, sle.ckProc, old(bus.cursor), old(bus.trace), old(sle.ckProc[..]), old(bus.port), old(bus.ddr),
                    steps)
  {
    ghost var c, t, rest, port, ddr := bus.cursor, bus.trace, sle.ckProc[..], bus.port, bus.ddr;
    steps := [];
    var i: bv8 := 0;
    while i < 4
      invariant i as int == |steps| <= 4 && CommandsOf(steps) == SecmemCommands(sle.securityMemory[..], i)
      invariant Running(bus, sle.ckProc, c, t, rest, port, ddr, steps)
    {
      AnswersFewer(bus.card, c, 4, i as int + 1);
      steps := SecmemStep(bus, sle, i, c, t, rest, port, ddr, steps);
      i := i + 1;
    }
  }

  /** `sle_write_secmem`: when `auth` is set, UPDATE_SECMEM of byte i of
      `security_memory` to address i for i = 0..3, each followed by
      `processing`, whose count goes to `ck_proc[i]`; when `auth` is 0, nothing. */
  method WriteSecmem(bus: Bus, sle: Session) returns (ghost steps: seq<Step>)
    requires sle.Valid() && (sle.auth != 0 ==> AnswersFrom(bus.card, bus.cursor, 4))
    modifies bus`port, bus`ddr, bus`cursor, bus`trace, sle.ckProc
    ensures sle.auth == 0 ==>
              steps == [] && bus.trace == old(bus.trace) && bus.cursor == old(bus.cursor)
              && bus.port == old(bus.port) && bus.ddr == old(bus.ddr) && sle.ckProc[..] == old(sle.ckProc[..])
    ensures sle.auth != 0 ==>
              CommandsOf(steps) == SecmemCommands(sle.securityMemory[..], 4)
              && Answers(bus.card, old(bus.cursor), steps) && bus.cursor == StepsEnd(old(bus.cursor), steps)
              && bus.trace == old(bus.trace) + StepsTrace(steps)
              && sle.ckProc[..] == Counts(steps) + old(sle.ckProc[..])[4..]
              && bus.port == ReleasedPort(old(bus.port)) && bus.ddr == ClearBit(old(bus.ddr), IoPin)
  {
    steps := [];
    if sle.auth != 0 {
      steps := SecmemLoop(bus, sle);
    }
  }

  // ---------------------------------------------------------- command contents

  /** `sle_write_memory` sends exactly `len` commands, the i-th writing the
      byte of `mm` at address `base + i` (wrapped) to that address. */
  lemma WriteCommandsAt(mm: seq<bv8>, base: bv8, n: bv8)
    requires |mm| == 256
    ensures |WriteCommands(mm, base, n)| == n as int
    ensures forall i: bv8 :: i < n ==> WriteCommands(mm, base, n)[i] == Command(UpdateMemoryCode, Address(base, i), mm[Address(base, i)])
  {
    WriteCommandsLength(mm, base, n);
    forall i: bv8 | i < n
      ensures WriteCommands(mm, base, n)[i] == Command(UpdateMemoryCode, Address(base, i), mm[Address(base, i)])
    {
      WriteCommandsIndex(mm, base, n, i);
    }
  }

  lemma {:induction false} WriteCommandsLength(mm: seq<bv8>, base: bv8, n: bv8)
    requires |mm| == 256
    ensures |WriteCommands(mm, base, n)| == n as int
    decreases n
  {
    if n != 0 {
      WriteCommandsLength(mm, base, n - 1);
      PredInt(n);
    }
  }

  lemma WriteCommandsLast(mm: seq<bv8>, base: bv8, n: bv8)
    requires |mm| == 256 && n != 0
    ensures (n - 1) as int < |WriteCommands(mm, base, n)|
    ensures WriteCommands(mm, base, n)[n - 1] == Command(UpdateMemoryCode, Address(base, n - 1), mm[Address(base, n - 1)])
  {
    WriteCommandsLength(mm, base, n - 1);
  }

  lemma WriteCommandsPrefix(mm: seq<bv8>, base: bv8, n: bv8, k: int)
    requires |mm| == 256 && n != 0 && 0 <= k < (n - 1) as int
    ensures k < |WriteCommands(mm, base, n - 1)| < |WriteCommands(mm, base, n)|
    ensures WriteCommands(mm, base, n)[k] == WriteCommands(mm, base, n - 1)[k]
  {
    WriteCommandsLength(mm, base, n - 1);
  }

  lemma {:induction false} WriteCommandsIndex(mm: seq<bv8>, base: bv8, n: bv8, i: bv8)
    requires |mm| == 256 && i < n
    ensures i as int < |WriteCommands(mm, base, n)|
    ensures WriteCommands(mm, base, n)[i] == Command(UpdateMemoryCode, Address(base, i), mm[Address(base, i)])
    decreases n
  {
    if i == n - 1 {
      WriteCommandsLast(mm, base, n);
    } else {
      BelowPred(i, n);
      LessInt(i, n - 1);
      WriteCommandsIndex(mm, base, n - 1, i);
      WriteCommandsPrefix(mm, base, n, i as int);
    }
  }

  /** The `uint8_t` address is the integer sum modulo 256, so it is always a
      valid index of the 256-byte main memory. */
  lemma {:induction false} AddressIsMod(base: bv8, i: bv8)
    ensures Address(base, i) as int == (base as int + i as int) % 256
    decreases i
  {
    if i == 0 {
      AddressZero(base);
      ByteMod(base);
    } else {
      AddressIsMod(base, i - 1);
      AddressModStep(base, i);
    }
  }

  lemma AddressModStep(base: bv8, i: bv8)
    requires i != 0 && Address(base, i - 1) as int == (base as int + (i - 1) as int) % 256
    ensures Address(base, i) as int == (base as int + i as int) % 256
  {
    AddressStep(base, i);
    PredInt(i);
    ModSucc(Address(base, i - 1), Address(base, i), base as int + (i - 1) as int, base as int + i as int);
  }

  lemma ModSucc(r: bv8, r1: bv8, x: nat, x1: nat)
    requires r as int == x % 256 && r1 == r + 1 && x1 == x + 1
    ensures r1 as int == x1 % 256
  {
    CountWraps(r, x);
  }

  lemma AddressZero(base: bv8)
    ensures Address(base, 0) == base
  {
  }

  lemma AddressStep(base: bv8, i: bv8)
    requires i != 0
    ensures Address(base, i) == Address(base, i - 1) + 1
  {
  }

  lemma PredInt(i: bv8)
    requires i != 0
    ensures (i - 1) as int == i as int - 1
  {
  }

  lemma LessInt(i: bv8, j: bv8)
    requires i < j
    ensures i as int < j as int
  {
  }

  lemma BelowPred(i: bv8, n: bv8)
    requires i < n && i != n - 1
    ensures i < n - 1
  {
  }

  lemma ByteMod(b: bv8)
    ensures b as int % 256 == b as int
  {
  }

  /** `sle_write_secmem` writes the four bytes of security memory to
      addresses 0, 1, 2 and 3, in that order. */
  lemma SecmemCommandsAll(m: seq<bv8>)
    requires |m| == 4
    ensures SecmemCommands(m, 4) == [Command(UpdateSecmemCode, 0, m[0]), Command(UpdateSecmemCode, 1, m[1]),
                                     Command(UpdateSecmemCode, 2, m[2]), Command(UpdateSecmemCode, 3, m[3])]
  {
  }

  // ------------------------------------------------------ what the card receives

  /** An empty trace delivers nothing and changes no line. */
  /** A command with its `processing`: the card receives that one command. */
  lemma StepDelivers(s: LineState, st: Step)
    requires !s.rst
    ensures Delivers(s, StepTrace(st), [st.cmd], Released(s))
  {
    CommandDelivered(s, st.cmd);
    ProcessingDelivers(Released(s), st.busy);
    DeliversJoin(s, CommandTrace(st.cmd), ProcessingTrace(st.busy), [st.cmd], [], Released(s), Released(s));
    assert [st.cmd] + [] == [st.cmd];
  }

  /** The card receives exactly the commands of the steps, in order; the lines
      are released once one has been sent. */
  lemma {:induction false} StepsDeliver(s: LineState, steps: seq<Step>)
    requires !s.rst
    ensures Delivers(s, StepsTrace(steps), CommandsOf(steps), if steps == [] then s else Released(s))
  {
    if steps == [] {
      assert Delivers(s, [], [], s);
    } else {
      var init, last := steps[..|steps| - 1], steps[|steps| - 1];
      StepsDeliver(s, init);
      var s1 := if init == [] then s else Released(s);
      StepDelivers(s1, last);
      DeliversJoin(s, StepsTrace(init), StepTrace(last), CommandsOf(init), [last.cmd], s1, Released(s));
    }
  }

  /** The bytes a dump reads and its trailing pulse deliver nothing. */
  lemma DumpTailDelivers(r: LineState, card: nat -> bool, c: nat, n: nat)
    requires !r.rst && !r.ck
    ensures Delivers(r, BytesTrace(card, c, n) + PulseTrace(), [], r)
  {
    BytesDelivers(r, card, c, n);
    PulseDelivers(r);
    DeliversJoin(r, BytesTrace(card, c, n), PulseTrace(), [], [], r, r);
    var none: seq<Command> := [];
    assert none + none == none;
  }

  /** A dump delivers its one command: the byte reads and the trailing pulse
      fall outside a frame. */
  lemma DumpDelivers(s: LineState, code: bv8, card: nat -> bool, c: nat, n: nat)
    requires !s.rst
    ensures Delivers(s, DumpTrace(code, card, c, n), [Command(code, 0, 0)], Released(s))
  {
    var r, cmd := Released(s), Command(code, 0, 0);
    CommandDelivered(s, cmd);
    DumpTailDelivers(r, card, c, n);
    DeliversJoin(s, CommandTrace(cmd), BytesTrace(card, c, n) + PulseTrace(), [cmd], [], r, r);
    AppendAssoc(CommandTrace(cmd), BytesTrace(card, c, n), PulseTrace());
    assert [cmd] + [] == [cmd];
  }

  /** Two dumps of 4 bytes, one after the other, deliver their two commands. */
  lemma DumpPairDelivers(r: LineState, y: bv8, z: bv8, card: nat -> bool, c: nat)
    requires !r.rst && r == Released(r)
    ensures Delivers(r, DumpTrace(y, card, c, 4) + DumpTrace(z, card, c + 32, 4),
                     [Command(y, 0, 0), Command(z, 0, 0)], r)
  {
    DumpDelivers(r, y, card, c, 4);
    DumpDelivers(r, z, card, c + 32, 4);
    DeliversJoin(r, DumpTrace(y, card, c, 4), DumpTrace(z, card, c + 32, 4), [Command(y, 0, 0)], [Command(z, 0, 0)], r, r);
  }

  /** One trace delivering a command, then one delivering two more, deliver
      all three in order. */
  lemma DeliversOneThenTwo(s: LineState, a: seq<Event>, b: seq<Event>, d: seq<Event>, x: Command, y: Command,
                           z: Command, r: LineState)
    requires Delivers(s, a, [x], r) && Delivers(r, b + d, [y, z], r)
    ensures Delivers(s, a + b + d, [x, y, z], r)
  {
    DeliversJoin(s, a, b + d, [x], [y, z], r, r);
    AppendAssoc(a, b, d);
  }

  /** Dumps of 256, 4 and 4 bytes one after the other deliver their three
      commands. */
  lemma DumpsDeliver(s: LineState, x: bv8, y: bv8, z: bv8, card: nat -> bool, c: nat)
    requires !s.rst
    ensures Delivers(s, DumpTrace(x, card, c, 256) + DumpTrace(y, card, c + 2048, 4) + DumpTrace(z, card, c + 2080, 4),
                     [Command(x, 0, 0), Command(y, 0, 0), Command(z, 0, 0)], Released(s))
  {
    DumpDelivers(s, x, card, c, 256);
    DumpPairDelivers(Released(s), y, z, card, c + 2048);
    DeliversOneThenTwo(s, DumpTrace(x, card, c, 256), DumpTrace(y, card, c + 2048, 4), DumpTrace(z, card, c + 2080, 4),
                       Command(x, 0, 0), Command(y, 0, 0), Command(z, 0, 0), Released(s));
  }

  /** `sle_dump_allmem` delivers the three dump commands: main, protection,
      security memory. */
  lemma DumpAllDelivers(s: LineState, card: nat -> bool, c: nat)
    requires !s.rst
    ensures Delivers(s, DumpTrace(DumpMemoryCode, card, c, 256) + DumpTrace(DumpPrtMemoryCode, card, c + 2048, 4)
                        + DumpTrace(DumpSecmemCode, card, c + 2080, 4),
                     [Command(DumpMemoryCode, 0, 0), Command(DumpPrtMemoryCode, 0, 0), Command(DumpSecmemCode, 0, 0)],
                     Released(s))
  {
    DumpsDeliver(s, DumpMemoryCode, DumpPrtMemoryCode, DumpSecmemCode, card, c);
  }

  /** When the counter is 7, `sle_auth` delivers the security dump, the
      commands of the steps, and the security dump again. */
  lemma AuthDelivers(s: LineState, card: nat -> bool, c: nat, steps: seq<Step>)
    requires !s.rst
    ensures Delivers(s, AuthTrace(card, c, steps),
                     [Command(DumpSecmemCode, 0, 0)] + CommandsOf(steps) + [Command(DumpSecmemCode, 0, 0)], Released(s))
  {
    var r, d := Released(s), Command(DumpSecmemCode, 0, 0);
    DumpDelivers(s, DumpSecmemCode, card, c, 4);
    StepsDeliver(r, steps);
    DumpDelivers(r, DumpSecmemCode, card, StepsEnd(c + 32, steps), 4);
    DeliversJoin(s, DumpTrace(DumpSecmemCode, card, c, 4), StepsTrace(steps), [d], CommandsOf(steps), r, r);
    DeliversJoin(s, DumpTrace(DumpSecmemCode, card, c, 4) + StepsTrace(steps),
                 DumpTrace(DumpSecmemCode, card, StepsEnd(c + 32, steps), 4), [d] + CommandsOf(steps), [d], r, r);
  }
}
