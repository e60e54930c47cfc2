# libsle4442 in Dafny

A model of libsle4442, an AVR library that talks to SLE4442 smart-memory cards by
bit-banging three port lines. CK is the clock, RST is reset and IO is the
bidirectional data line. A card-present switch sits on a fourth pin.

The project has two layers.

- **`sle_bbg.c`** is the bit transport. It is modelled as the class
  `SleBbg.Bus`, which holds these fields:
  - the `PORT` and `DDR` registers, as `bv8`;
  - the level of the card-present switch;
  - the card's answers on IO, given as an abstract stream `card: nat -> bool`
    and read at the sample number `cursor`;
  - a ghost `trace` of events: every CK, RST or IO level or direction write,
    every IO sample and every delay.

  Each routine is a method. Its contract states the new registers, the new
  `cursor` and the events appended to the trace, as functions of the old state.
- **`sle.c`** is the card session. `struct sle_t` is the class `Sle.Session`,
  with its five buffers as arrays and `card_present` and `auth` as fields. The
  session functions are methods over a `Bus` and a `Session`.

Two modules sit between the layers:

- `Lines` replays a trace on the line state `(ck, rst, io, ckOut, rstOut, ioOut)`.
  It derives the signals the card can distinguish: clock edges, reset clocks, and
  START and STOP conditions, which are IO falling or rising while CK is high. It
  also models the card's frame receiver, which assembles control, address and data
  bytes, LSB first, between START and STOP.
- `Framing` proves what the card sees of each routine's trace:
  - the line state it leaves;
  - the signals it contains;
  - the card levels it samples;
  - the commands it delivers.

  For example, one `send_cmd` trace delivers exactly its command. A dump delivers
  one command and reads its bytes outside any frame. The trace of `sle_auth`
  delivers the dumps and the five PIN commands in order.

`Bits` holds the bit-level helpers: set, clear and test one bit of a `bv8`,
the LSB-first bit list of a byte and its inverse.

The protocol constants come from `sle_bbg.h`: the pins PRESENT=3, RST=0, CK=1
and IO=2, the modes OUT=2 and IN=3, and delays of 25, 4 and 50 µs. The command
codes come from `sle.h`.

This model only captures the SLE_MICRO_PULLUP configuration that `sle.h` selects.

## Model

| member | source | states |
|---|---|---|
| SleBbg.ConstantsCoherent | src/sle_bbg.h:56-109 | the four pins are distinct bits below 8; the modes OUT and IN differ from each other and from the levels 0 and 1; the delays are ordered front < half period < reset |
| SleBbg.SetIoPort | src/sle_bbg.c:60-76 | after `set_io(v)`: PORT.IO is cleared by 0, kept by OUT, and set by 1 and by every other value (IN: the pull-up); no other PORT bit changes |
| SleBbg.SetIoDdr | src/sle_bbg.c:60-76 | after `set_io(v)`: DDR.IO is set by OUT, kept by 0 and 1, and cleared by any other value; no other DDR bit changes |
| SleBbg.Bus.constructor | src/sle_bbg.h:53-59 | a port with the given PORT, DDR, present switch and card stream, with no samples taken and an empty trace |
| SleBbg.Bus.SetCkHigh | src/sle_bbg.h:110 | `set_ck_1` sets only PORT.CK, and logs CK high |
| SleBbg.Bus.SetCkLow | src/sle_bbg.h:111 | `set_ck_0` clears only PORT.CK, and logs CK low |
| SleBbg.Bus.SetRstHigh | src/sle_bbg.h:112 | `set_rst_1` sets only PORT.RST, and logs RST high |
| SleBbg.Bus.SetRstLow | src/sle_bbg.h:113 | `set_rst_0` clears only PORT.RST, and logs RST low |
| SleBbg.Bus.Delay | src/sle_bbg.h:107-109 | a delay changes no register; it appends a wait marker of its length |
| SleBbg.Bus.SampleIo | src/sle_bbg.c:133 | reading PIN.IO as an input returns the card's next level and advances the sample number; as an output it returns the driven level and takes no sample |
| SleBbg.Bus.CkPulse | src/sle_bbg.c:39-45 | `ck_pulse` leaves CK low and every other PORT bit unchanged; trace CK high, half period, CK low, half period |
| SleBbg.Bus.SetIo | src/sle_bbg.c:60-76 | `set_io` changes PORT and DDR exactly as SetIoPort and SetIoDdr say; its trace is the matching level or direction write(s) |
| SleBbg.Bus.SendStart | src/sle_bbg.c:83-94 | `send_start` leaves IO an output driven low and CK low; its trace is StartTrace |
| SleBbg.Bus.SendStop | src/sle_bbg.c:101-111 | `send_stop` leaves IO an input with the pull-up on and CK low; its trace is StopTrace |
| SleBbg.Bus.ClockInBit | src/sle_bbg.c:127-139 | one round of `read_byte`: CK raised, the card's next level sampled, CK lowered after a half period |
| SleBbg.Bus.ReadByte | src/sle_bbg.c:122-142 | `read_byte` on an input IO takes exactly 8 samples, leaves only CK changed (low), and returns ByteAt(card, c): bit i is the i-th sampled level |
| SleBbg.Bus.ClockOutBit | src/sle_bbg.c:158-167 | one round of `send_byte`: the bit put on PORT.IO, a front delay, one CK pulse; DDR unchanged |
| SleBbg.Bus.SendByte | src/sle_bbg.c:153-169 | `send_byte` leaves DDR unchanged, PORT.IO at bit 7 and CK low; its trace is the 8 rounds, bit 0 first |
| SleBbg.Bus.ResetPulse | src/sle_bbg.c:185-193 | the first part of `send_rst`: IO an input pulled up, one CK pulse while RST is high, RST and CK low at the end |
| SleBbg.Bus.ReadInto | src/sle_bbg.c:195-198 | one round of the ATR loop: `buf[i]` becomes the next byte read and the rest of the buffer is kept |
| SleBbg.Bus.ReadBytes | src/sle_bbg.c:195-198 | reading n bytes into a buffer fills `buf[0..n)` with the n bytes read, in order, keeps the rest of the buffer, and takes 8n samples |
| SleBbg.Bus.SendRst | src/sle_bbg.c:181-199 | `send_rst` fills exactly `atr[0..4)`, with `atr[i]` the i-th byte read; it takes 32 samples and leaves RST and CK low and IO an input |
| SleBbg.Bus.SendCmd | src/sle_bbg.c:209-216 | `send_cmd` leaves IO an input with the pull-up and CK low; its trace is START, the control, address and data bits LSB first, then STOP |
| SleBbg.Bus.BusyRound | src/sle_bbg.c:229-232 | one busy round of `processing`: one CK pulse, then the next IO sample |
| SleBbg.Bus.Processing | src/sle_bbg.c:225-236 | `processing` returns the number of zero samples before the card's first one, wrapped to a `uint8_t`; every sample before it was 0; it issues that many pulses plus one more |
| SleBbg.Wrap8Value | src/sle_bbg.c:227-231 | the `uint8_t` counter after n increments from 0 is n mod 256 |
| SleBbg.CommandTraceBytes | src/sle_bbg.c:209-216 | the trace of `send_cmd` is START, the three `send_byte` traces in order, then STOP |
| Bits.FromBitsOfBits | src/sle_bbg.c:127-134 | packing the LSB-first bit list of a byte gives the byte back |
| Bits.BitsOfFromBits | src/sle_bbg.c:127-134 | the LSB-first bit list of the byte packed from 8 bits is those 8 bits |
| Bits.SetBitOnly | src/sle_bbg.h:110-113 | `r \|= _BV(n)` sets bit n and keeps the others |
| Bits.ClearBitOnly | src/sle_bbg.h:110-113 | `r &= ~_BV(n)` clears bit n and keeps the others |
| Lines.AfterAppend | src/sle_bbg.c:39-236 | replaying two traces one after the other gives the line state of replaying their concatenation |
| Lines.SignalsAppend | src/sle_bbg.c:39-236 | the signals of a concatenated trace are those of the first part, then those of the second from the state the first leaves |
| Lines.DeliveredAppend | src/sle_bbg.c:209-216 | the commands received over concatenated signals are those of the first part, then those of the second from the receiver state the first leaves |
| Framing.PulseLines | src/sle_bbg.c:39-45 | `ck_pulse` ends with CK low and the other lines as they were; the card sees one rising edge when CK was low, none otherwise |
| Framing.StartLines | src/sle_bbg.c:83-94 | `send_start` leaves IO a low output and CK low; the card sees one clock, then START, i.e. IO falling while CK is high |
| Framing.StopLines | src/sle_bbg.c:101-111 | `send_stop` releases IO to a pulled-up input with CK low; the card sees one clock, then STOP, i.e. IO rising while CK is high |
| Framing.BitOutLines | src/sle_bbg.c:158-167 | one `send_byte` round puts the bit on IO and the card sees a clock edge carrying that bit |
| Framing.BitInLines | src/sle_bbg.c:127-139 | one `read_byte` round leaves the lines as they were, shows the card one clock, and samples one level |
| Framing.ResetPulseLines | src/sle_bbg.c:185-193 | the reset pulse leaves RST low and IO a pulled-up input; the card sees exactly one reset clock |
| Framing.SendByteLines | src/sle_bbg.c:153-169 | `send_byte` shows the card 8 clock edges carrying the bits of the byte LSB first |
| Framing.BytesLines | src/sle_bbg.c:195-198 | reading n bytes leaves the lines unchanged, shows the card 8n plain clocks, and samples exactly the next 8n card levels |
| Framing.ReadByteDecodes | src/sle_bbg.c:122-142 | the byte read is the LSB-first packing of the 8 levels sampled; bit i equals the i-th sample |
| Framing.SendReadRoundTrip | src/sle_bbg.c:122-169 | when the card presents the bits of byte b LSB first, `read_byte` returns b: the send/receive round trip |
| Framing.BytesIndex | src/sle_bbg.c:195-198 | the i-th of n bytes read is the byte read from sample c + 8i |
| Framing.FrameDecodes | src/sle_bbg.c:209-216 | the 24 command bits plus the STOP clock make a 25-bit frame that the receiver decodes back into the same command |
| Framing.CommandSignals | src/sle_bbg.c:209-216 | the card sees a clock, START, the clocks of the frame bits, then STOP |
| Framing.CommandDelivered | src/sle_bbg.c:209-216 | one `send_cmd` trace delivers exactly its command, from and back to an idle receiver, and leaves CK low and IO a pulled-up input |
| Framing.ProcessingLines | src/sle_bbg.c:225-236 | `processing` leaves the lines unchanged; the card sees n + 1 clocks; the samples are n zeros and then a one |
| Framing.ResetLines | src/sle_bbg.c:181-199 | `send_rst` leaves RST low and IO a pulled-up input; the card sees one reset clock and 32 plain clocks; exactly 32 levels are sampled |
| Framing.DeliversJoin | src/sle_bbg.c:209-216 | traces that deliver commands one after the other deliver the concatenation of those commands |
| Framing.ProcessingDelivers | src/sle_bbg.c:225-236 | `processing` delivers no command |
| Framing.ResetDelivers | src/sle_bbg.c:181-199 | `send_rst` delivers no command |
| Framing.CommandMatchesRegisters | src/sle_bbg.c:209-216 | replaying the `send_cmd` trace on the lines that PORT and DDR encode with RST low, ends in the lines encoded by the PORT and DDR values that SendCmd promises: IO a pulled-up input, CK low |
| Framing.ResetMatchesRegisters | src/sle_bbg.c:181-199 | replaying the `send_rst` trace, starting with CK low, ends in the lines encoded by the PORT and DDR values that SendRst promises: IO a pulled-up input, CK and RST low |
| Sle.CodesDistinct | src/sle.h:47-52 | the six command codes are pairwise distinct |
| Sle.Session.constructor | src/sle.c:57-66 | fresh buffers of 4, 256, 4, 4 and 5 bytes, with `atr`, the protected memory and the security memory distinct |
| Sle.EnablePort | src/sle.c:24-48 | PORT bits PRESENT and IO set and DDR bits RST and CK set; every other bit of both registers kept |
| Sle.DisablePort | src/sle.c:50-53 | DDR bits RST and CK cleared and PORT bits PRESENT and IO cleared; every other bit kept |
| Sle.Init | src/sle.c:55-69 | fresh session buffers of the `sle_init` sizes; PORT.PRESENT, PORT.IO, DDR.RST and DDR.CK set; every other PORT and DDR bit kept |
| Sle.Free | src/sle.c:71-80 | DDR.RST, DDR.CK, PORT.PRESENT and PORT.IO cleared; every other PORT and DDR bit kept |
| Sle.Present | src/sle.c:88-97 | `card_present` becomes 1 exactly when PIN.PRESENT is set and 0 otherwise, and is returned |
| Sle.Reset | src/sle.c:82-85 | `sle_reset` is `send_rst`: the four ATR bytes in order into `atr[0..4)` |
| Sle.Dump | src/sle.c:99-133 | one command with address 0 and data 0, then n bytes read into `mm[0..n)` in index order, then exactly one pulse; IO is left an input |
| Sle.DumpMemory | src/sle.c:99-109 | command 0x30; exactly 256 bytes into `mm[0..256)`; one trailing pulse |
| Sle.DumpPrtMemory | src/sle.c:111-121 | command 0x34; exactly 4 bytes into `mm[0..4)`; one trailing pulse |
| Sle.DumpSecmem | src/sle.c:123-133 | command 0x31; exactly 4 bytes into `mm[0..4)`; one trailing pulse |
| Sle.ReadSecmem | src/sle.c:123-133 | `sle_dump_secmem` into the session's security memory: the whole buffer is the 4 bytes read, and `security_memory[0]` is the first of them |
| Sle.ReadMain | src/sle.c:137 | `sle_dump_memory(sle->main_memory)`: the session's main memory becomes exactly the 256 bytes read from the current sample on; 2048 samples; the trace is that dump's trace |
| Sle.ReadPrt | src/sle.c:138 | `sle_dump_prt_memory(sle->protected_memory)`: the session's protected memory becomes exactly the 4 bytes read; 32 samples; the trace is that dump's trace |
| Sle.DumpAll | src/sle.c:135-140 | main, protected and security memory are each entirely the bytes read, in that order; the trace is the three dumps in that order |
| Sle.DumpAllDelivers | src/sle.c:135-140 | the `sle_dump_allmem` trace delivers exactly the commands 0x30, 0x34 and 0x31, in that order |
| Sle.DumpDelivers | src/sle.c:99-133 | a dump delivers exactly its one command; the bytes read and the trailing pulse fall outside any frame |
| Sle.Exchange | src/sle.c:151-152 | `send_cmd` then `processing`: the count returned is the card's busy rounds mod 256 |
| Sle.AuthSequence | src/sle.c:151-164 | sends exactly those five commands in order, each followed by `processing`, and stores the five counts in `ck_proc[0..5)` in order |
| Sle.AuthRetry | src/sle.c:151-167 | the five commands, then the security memory dumped again: its contents are the bytes read after the last `processing` |
| Sle.AuthAfterDump | src/sle.c:148-167 | the counter-7 branch of `sle_auth`, after the first dump: exactly the five PIN commands, their counts in `ck_proc`, then the security memory re-dumped, holding the 4 bytes read after the last `processing`; the sample number ends 32 past the steps |
| Sle.Grant | src/sle.c:170-172 | `auth` becomes 1 when `security_memory[0]` is 7 and is kept otherwise |
| Sle.Auth | src/sle.c:142-173 | if the first dump's counter is not 7: no further command, `ck_proc` unchanged, `auth` unchanged. If it is 7: the five commands in order with their counts in `ck_proc`, the re-dump, then `auth` = 1 when the re-dumped counter is 7 and the old `auth` otherwise. `auth` is never cleared. When the counter is 7, the card must present five ones after the first dump, one for each `processing`. The final sample number is 32 past the start, or 32 past the end of the five steps |
| Sle.AuthDelivers | src/sle.c:142-173 | when the counter is 7, the `sle_auth` trace delivers the security dump, the commands of the steps, and the security dump again, in that order |
| Sle.AnswersAfter | src/sle_bbg.c:225-236 | each `processing` loop ends at the card's first one, so a card with n ones from sample c on still has n - k ahead after k answered steps; the next loop therefore ends while k < n (AnswersNext) |
| Sle.AnswersNeeded | src/sle_bbg.c:225-236 | conversely, every run of k answered `send_cmd` + `processing` steps from sample c shows k ones from c on: the count the session functions require is exactly what their loops need to end |
| Sle.StepsDeliver | src/sle.c:151-167 | a run of `send_cmd` + `processing` steps delivers exactly the steps' commands, in order |
| Sle.WriteCommandsAt | src/sle.c:180-184 | `len` rounds issue exactly `len` commands; for every i < len, the i-th is UPDATE_MEMORY with the `uint8_t` address base + i and the byte `main_memory[base + i]` |
| Sle.AddressIsMod | src/sle.c:181 | the `uint8_t` address base + i is the integer sum mod 256, hence a valid index of the 256-byte main memory |
| Sle.WriteRound | src/sle.c:181-183 | round i of the `sle_write_memory` loop extends the commands sent so far from WriteCommands(mm, base, i) to WriteCommands(mm, base, i + 1), stores its count in `ck_proc[0]` and keeps the rest of `ck_proc` |
| Sle.WriteLoop | src/sle.c:180-184 | the loop sends exactly WriteCommands(main memory, base, len), each followed by `processing`; `ck_proc[0]` holds the last count and nothing else in `ck_proc` changes; nothing at all when len = 0. The card must present `len` ones, one for each `processing`: nothing when len = 0 |
| Sle.WriteMemory | src/sle.c:175-186 | with `auth` = 0: no event, no register or buffer change. Otherwise the `len` UPDATE_MEMORY commands of WriteLoop; `main_memory` is not in its frame, so it is unchanged. When `auth` != 0, the card must present `len` ones |
| Sle.SecmemCommandsAll | src/sle.c:193-196 | the four commands are UPDATE_SECMEM(i, `security_memory[i]`) for i = 0, 1, 2, 3 in that order |
| Sle.SecmemStep | src/sle.c:194-195 | round i of the `sle_write_secmem` loop extends the commands sent from the first i to the first i + 1 UPDATE_SECMEM commands, with count i stored in `ck_proc[i]` and the later `ck_proc` entries kept |
| Sle.SecmemLoop | src/sle.c:193-196 | four rounds: exactly those four commands, each followed by `processing`, with count i stored in `ck_proc[i]` |
| Sle.WriteSecmem | src/sle.c:188-198 | with `auth` = 0: no event and no change. Otherwise the four UPDATE_SECMEM commands in order, with `ck_proc[0..4)` their counts and `ck_proc[4]` kept. When `auth` != 0, the card must present four ones |

## Left out

- Real time: `_delay_us` becomes a `Wait(us)` marker event carrying the microseconds. The model has no notion of elapsed time.
- The `#else` branch of `sle_enable_port` (src/sle.c:35-36) is left out. `sle.h` defines SLE_MICRO_PULLUP, so only the pull-up branch is modelled.
- `malloc` and `free` in `sle_init` and `sle_free` are not modelled.
  - `Sle.Session.constructor` allocates fresh arrays of the same sizes.
  - `Sle.Free` only disables the port; the buffers are not released.
  - As in the source, the buffer contents, `card_present` and `auth` start with no known value.
  - Allocation failure is not modelled.
- The physical card is not modelled, and neither is the AVR hardware beyond bit updates.
  - What the card presents on IO while it is an input is an abstract level stream.
  - The IO level the card sees is the PORT.IO bit: driven when IO is an output, the pulled-up level when it is an input. Contention on the line is not modelled.
  - The card's frame receiver (`Lines.Emitted`) takes a frame as a command when STOP ends its 25th clock: 24 data bits, then the clock of the STOP sequence. This is the convention the delivery lemmas are stated against.
- The card's PIN comparison and error-counter logic are card behaviour, not library code. The counter values are whatever the dumps read.
- SleBbg.Bus.Processing: requires that the card eventually presents a 1 (HasOneFrom). The source has no timeout and hangs otherwise, so the model does not cover the non-terminating run.
- Sle.Exchange: requires HasOneFrom, for the same reason.
- Sle.AuthSequence, Sle.Auth, Sle.WriteLoop, Sle.WriteMemory, Sle.SecmemLoop, Sle.WriteSecmem: these require AnswersFrom(card, c, n). It says the card presents at least n ones from sample c on, where n is the number of `processing` calls on the path taken:
  - 5 for AuthSequence, and for Auth from the sample after the first dump when the counter is 7;
  - `len` for WriteLoop, and for WriteMemory when `auth` != 0;
  - 4 for SecmemLoop, and for WriteSecmem when `auth` != 0.

  By Sle.AnswersNeeded, every run in which those loops end meets this condition, so no terminating run is excluded.
- Sle.EnablePort, Sle.DisablePort: the source writes the bits of one register in a single statement. The model logs those writes as separate trace events in a fixed order.
  - The PRESENT bit is not a card line, so its PORT write is not traced.
- SleBbg.Bus.SampleIo: PIN reads of the card-present switch (`sle_present`) are not traced. Only IO samples are traced.
- Sle.DumpPrtMemory: `sle.h` documents the protected memory as 32 bytes (src/sle.h:73-74), but `sle_init` allocates 4 and `sle_dump_prt_memory` reads 4. The model follows the code.
- Sle.WriteLoop: models the `for` loop of `sle_write_memory` as the first round (`WriteFirst`) followed by a recursion over the remaining rounds (`WriteRest`). The `uint8_t` counter is a `bv8`, so `i < len` with `i++` behaves as in the source.
- Sle.AuthSequence: issues the five commands of `sle_auth` through RunPair, RunPair and RunStep. This does not change which commands are sent, or in what order.
- Sle.DumpAll: runs the protected and security dumps through DumpSmall. The order of the three dumps is unchanged.
- Sle.Auth: performs the final `auth` test through `Grant`.
- Sle.Advance, Sle.Round, Sle.WriteStep: bookkeeping steps of one `send_cmd` + `processing` exchange. Advance records the step and its count. Round also stores the count in `ck_proc[i]`. WriteStep carries one `sle_write_memory` round through the loop's invariant. Their effects are stated by the rows of the methods that use them.
