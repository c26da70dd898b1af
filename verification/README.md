# Netplay, verified

Two Intellivision consoles play one game in lockstep.  Each runs the whole simulation; each tick a
console captures its input for d ticks ahead, sends it, waits until the other side's input for the
current tick has come, and runs the tick.  Every 64 ticks both report a checksum of their state.  When
the reports differ, the host waits for a quiet moment, pushes a 767-byte image of its state in chunks,
and both sides re-baseline to a tick 16 ahead.  Between the consoles stands a relay that finds the
players a room and passes their frames on; it exists twice, as a Python reference and as a C port over
fixed arrays.

This project models the three parts and proves what they promise, in Dafny.

- **Protocol** (Protocol, ProtocolInv, ProtocolFlow, ProtocolCapture, ProtocolTick, ProtocolPush,
  ProtocolDeliverUp, ProtocolDeliverDown, ProtocolRuns, ProtocolCaptured, ProtocolTheorems,
  ProtocolAgreement, ProtocolRecovery, ProtocolPushes, ProtocolReports, ProtocolConvergence,
  ProtocolImage, GuestAhead, Sharpness, Overrun).
  A step system of two consoles and two queues of frames, in which a pump takes any number of bytes up
  to 64 and every interleaving of passes, gate rounds, pumps between passes, partial frames, pushes,
  drifting simulations and frame interrupts is a run.  The game tick and the checksum are parameters.
  The theorems are about every run.
- **Console** (Cells, Stream, ImageMemory, Checksum, ConsoleCells, ConsoleLaws, Refinement, ByteSystem,
  ByteTheorems, MatchStart, ConsoleArrays, ConsoleRoutines, Buttons).
  The same consoles with 16-bit counters, ring pages, byte records, a memory of 65536 cells and a byte
  stream with its parser; a proof that two of them joined by byte streams follow the protocol step by
  step; what each frame and each pass does, in plain addresses and numbers; and the routines themselves,
  loop by loop over the cells, each proved against the value-level function of the same name.
- **Relay** (Names, Relay, RelayInv, RelayRuns, RelayFrames, RelayLaws, RelayServer, RelayArrays,
  RelayC, Reassembler, KeyedSlots, CrcTable, CrcRooms).
  Names, rooms, seats, matches, frames and the checksum comparator as functions on values, their
  invariants, what each event does in plain numbers, whole-run theorems, and both servers as classes
  that change dictionaries and arrays in place, each proved to compute those functions.

Assumed: each TCP byte stream is reliable and ordered (section 2.2 of RFC 9293; that the relay then
joins two players by FIFO channels is `RelayRuns.RelayIsTwoChannels`), NET_READ returns no more
bytes than it was asked for, both consoles boot with the same image but for the random number
(`MatchStart.PairStarts`: START then makes the images equal; the interrupt may move its bytes from the
first moment on), and the game's code is a deterministic function of the image and the ring cells that
keeps 8-bit cells in range and neither uses nor settles the volatile bytes: the latch at $016B and the eight animation counters $0322, $032A, ..., $035A, which two consoles
of one tick may legitimately hold different values of (`Refinement.Faithful`).  What those bytes hold is
changed arbitrarily, at any moment, by an action of its own.

Where code and comments differ the model follows the code:

- The Python server does wait for a whole frame (server/intv_relay_server.py:346-347), although the
  comment at server/c/src/intv-relay.c:704-711 says that it does not.
- OWN_CRC has eight records but a byte shifted right by six reaches only four of them
  (src/netcode/resync.asm:67-73).
- A delay of zero is not usable: the initial watermark d - 1 is stored as a byte
  (src/netcode/session.asm:703-712), see `Refinement.StartRefines`.
- The C port looks a JOIN's name up with strcmp, which stops at the first NUL; the Python server looks
  the whole stripped field up, see `RelayC.ServersAgree`.

Two bounds on the delay are exact.  Re-baselining ignores everything the guest still has in flight
exactly for d <= 15 (`Sharpness.SafeDelays`): from 16 on there is a run in which it does not.  Without a
push, what is read at the gate is what was captured exactly for d <= 127 (`Overrun.UsableDelays`): from
128 on a console that listens before its first tick overwrites a slot it has still to read.  A gate loop
pumps only while an input is missing, so it never reaches that far, and 127 still works.  The other
claims about runs are proved for 1 <= d <= 15, or for 1 <= d <= 127 while nothing has been pushed.

## Model
| member | source | states |
|---|---|---|
| ProtocolAgreement.LockstepAgreement | src/netcode/lockstep.asm:171-208 | In every run (1 <= d <= 15, or d <= 127 with no push so far): if a console stands at the open gate of tick T of an epoch, and then or however much later a console (the other one or the same) stands at the open gate of that tick of that epoch, both read the same four cells, for both seats and for slots T and T-1 |
| ProtocolAgreement.SimsAgree | src/netcode/lockstep.asm:251-345 | Once two consoles that have not drifted since their last re-baseline have come to tick T of an epoch, at whatever moments of the run, their images are equal at every byte but the volatile ones (the latch $016B and the objects' animation counters, which the frame interrupt moves) |
| ProtocolTheorems.ReadsCaptured | src/netcode/lockstep.asm:74-208 | And what a console reads at an open gate is what each seat captured d ticks earlier in the same epoch, or idle; what was captured is read off the actions of the run, not off the consoles |
| Overrun.UsableDelays | src/netcode/lockstep.asm:120-145 | That claim holds of every run without a push, of every match with delay d, exactly for d <= 127, among the delays 1 to 255 a START can carry |
| Overrun.SlotOverrun | src/netcode/session.asm:1045-1056 | For every d from 128 to 255, in any match: a guest that plays 256 - d ticks while the host is still in SES_HOLD makes the host's first tick read the input for tick 256 |
| ProtocolCaptured.RunsCapture | src/netcode/lockstep.asm:62-167 | The history of inputs the invariant speaks about is exactly the captures of the run, with one idle entry for an input a console never sent because END reached it inside its gate loop |
| ProtocolTheorems.SimsFollowCaptures | src/netcode/lockstep.asm:251-345 | Each simulation that has not drifted since its last re-baseline equals, volatile bytes apart, a reference simulation over the captured inputs of its epoch, across any number of pushes |
| ProtocolTheorems.NoFalseAlarm | src/netcode/resync.asm:91-150 | While no simulation drifts, for every 1 <= d <= 127: no console is ever pending or held, nothing is ever pushed, reports for the same tick are equal and so are the images at equal ticks, volatile bytes apart |
| ProtocolTheorems.SkewBound | src/netcode/session.asm:587-634 | Consoles of one epoch are at most d + 1 ticks apart, and an input in flight is for at most 2d + 1 ticks past its receiver |
| ProtocolConvergence.Converges | src/netcode/resync.asm:475-511 | Recovery converges: if no simulation drifts after some moment of a run, then however much later at most two more pushes have come, a waiting one included, and in any later epoch no simulation has drifted, the guest has flagged nothing, no report anywhere in a pump changes anything at the host, all reports for one tick agree and so do the images at equal ticks |
| ProtocolRecovery.StaleFramesIgnored | src/netcode/resync.asm:393-442 | After the host has re-baselined, an input or report the guest sent before its own re-baseline changes nothing at the host and makes it send nothing, whichever frame of a pump it is |
| ProtocolRecovery.StaleHead | src/netcode/resync.asm:91-150 | The same of the next frame in any state that satisfies the invariant, inside a pump as well |
| Sharpness.SafeDelays | src/netcode/resync.asm:179-189 | That claim holds of every run of every match with delay d exactly for d <= 15 |
| Sharpness.SixteenIsTooMuch | src/netcode/resync.asm:179-189 | For every d from 16 on there is a run (a drifting guest that runs ahead, a host that pushes at a dead ball) in which the re-baselined host stores the input the guest sent for tick d + 18 of the epoch before |
| GuestAhead.RunsAhead | src/netcode/lockstep.asm:168-208 | In that run the guest, given one input of the host, really does complete up to 16 ticks and has exactly those inputs and one report in flight |
| ProtocolRecovery.TicksForward | src/netcode/resync.asm:393-442 | No step of any run moves a console's tick backwards, re-baselines included |
| ProtocolRecovery.TwoPushesAhead | src/netcode/resync.asm:475-511 | Whatever is in flight, the host is never more than two pushes ahead of the guest, a pending one counted |
| ProtocolRecovery.NoTornImage | src/netcode/resync.asm:209-271 | The guest never stands at an open gate between the first data chunk and END, and when END is its next frame it is held and its image is the pushed one, at every byte the frame interrupt leaves alone |
| ProtocolImage.PushedExactly | src/netcode/resync.asm:209-271 | If the interrupt leaves the guest's volatile bytes alone from a moment outside the hold until END is next, the guest's image is the pushed one at all 767 positions |
| ProtocolRecovery.DesyncIsFlagged | src/netcode/resync.asm:91-150 | When both consoles have reported a tick of their common epoch differently and neither is pending, one of the two reports is still in flight to a console that taking it would make pending |
| ProtocolRecovery.GuestIsHeard | src/netcode/resync.asm:140-174 | A pending guest has a push on its way, a pending host, or its request in flight |
| ProtocolRecovery.HostPushesInTime | src/netcode/resync.asm:475-511 | From any reachable state with a pending host, until it pushes it stays pending and its wait counter counts exactly the ticks it completes, which are fewer than 60 |
| ProtocolPushes.PushesExactly | src/netcode/resync.asm:475-511 | A host that has been waiting since some step of a run pushes in the next pass it completes exactly when, after the tick, both top bits of image byte 6 (cell $0163) are set or 59 ticks have been completed before it in the wait, so that this is the 60th; otherwise it sends no BEGIN, chunk or END |
| ProtocolPushes.PassDecides | src/netcode/resync.asm:475-511 | The same of one pass in any state of the invariant, by the counter; when it pushes, the next epoch begins 16 ticks on from the image it then has |
| ProtocolPushes.OthersDoNotPush | src/netcode/resync.asm:179-271 | No other step begins an epoch or sends any part of a push |
| ProtocolReports.ReportsMade | src/netcode/lockstep.asm:305-341 | Of the ticks it has completed in its epoch each console has reported exactly the multiples of 64 |
| ProtocolRecovery.NoDeadlock | src/netcode/lockstep.asm:168-208 | With nothing in flight no console is held, both are in one epoch, the strictly slower console is not blocked at its gate and the two are never blocked together |
| ProtocolRuns.RunsKeepInv | src/netcode/lockstep.asm:8-345 | The invariant behind all of these holds in every reachable state, for d <= 127 while no push has happened and for d <= 15 in any run |
| ProtocolRuns.StepInv | src/netcode/lockstep.asm:8-345 | Every enabled step of either console keeps it |
| ProtocolRuns.PumpFresh | src/netcode/session.asm:464-487 | A pump of at most 64 bytes that begins outside a hold applies no data chunk |
| ProtocolRuns.PumpHeld | src/netcode/lockstep.asm:17-61 | A pump inside a hold keeps the invariant, whether or not END comes in it |
| ProtocolRuns.PumpHostInv | src/netcode/session.asm:1045-1056 | Any pump of the host, between passes (SES_HOLD makes 150 before the first) or at a shut gate, keeps it |
| ProtocolRuns.PumpGuestInv | src/netcode/session.asm:1045-1056 | Any pump of the guest likewise, in a hold or not |
| ProtocolPush.PushHostInv | src/netcode/resync.asm:179-271 | A push, with everything the guest still has in flight, keeps the invariant for d <= 15 |
| ProtocolDeliverUp.DeliverHostInv | src/netcode/resync.asm:91-174 | So does any frame the host takes |
| ProtocolDeliverDown.DeliverDataInv | src/netcode/resync.asm:283-350 | So does any frame but END that the guest takes |
| ProtocolDeliverDown.DeliverEndInv | src/netcode/resync.asm:366-372 | END ends the guest's hold and keeps the invariant, at the gate or not |
| ProtocolTick.TickHostInv | src/netcode/lockstep.asm:251-345 | The host's tick with its report keeps it |
| ProtocolTick.TickGuestInv | src/netcode/lockstep.asm:251-345 | The guest's tick with its report keeps it |
| ProtocolCapture.CaptureHostInv | src/netcode/lockstep.asm:74-167 | The host's capture keeps it |
| ProtocolCapture.CaptureGuestInv | src/netcode/lockstep.asm:74-167 | The guest's capture keeps it |
| ByteSystem.RunsRefine | src/netcode/session.asm:452-543 | Every run of two 16-bit consoles joined by byte streams represents the protocol run of the same actions: cells, rings, records, memory and every byte in flight |
| ByteSystem.StepRefines | src/netcode/lockstep.asm:8-345 | Each step of the byte-level system is the protocol's step |
| ByteTheorems.RingCellsAgree | src/vdispatch.asm:321-353 | On the consoles' own cells: at an open gate the four ring cells at the low byte of the tick counter are what the two seats captured |
| ByteTheorems.RingCellsMeet | src/vdispatch.asm:321-353 | The lockstep promise on cells: standing at the open gate of one tick of one epoch, at whatever moments of the run, two consoles read the same four ring cells |
| ByteTheorems.MemoriesMeet | src/netcode/lockstep.asm:251-345 | The state promise on memory: two consoles that have not drifted and have come to one tick of one epoch, at whatever moments, hold the same image but for the volatile bytes |
| ByteTheorems.MemoriesAgree | src/netcode/lockstep.asm:487-531 | With games that are deterministic but for the volatile bytes and no drift, equal 16-bit tick counters mean equal images, volatile bytes apart, and equal checksums in the two memories |
| ByteTheorems.NeverSlips | src/netcode/session.asm:488-552 | Between the consoles no read of any length makes a parser slip and no accumulator holds more than 99 bytes before a read |
| ByteTheorems.PushedImageWhole | src/netcode/resync.asm:209-271 | When END is next the guest's memory holds the pushed image, but for volatile bytes the interrupt has moved since |
| ByteTheorems.FramesStayInside | src/netcode/resync.asm:283-350 | Whatever legal frames arrive, in any state, no memory cell outside the image is written |
| Refinement.DeltaSign | src/netcode/session.asm:601-613 | The 16-bit subtract-and-sign test agrees with comparing unbounded ticks less than 2^15 apart, across wrap of the counter |
| Refinement.InputRefines | src/netcode/session.asm:587-634 | The INPUT case on cells follows the protocol's, for any tick within 2^15 of the watermark |
| Refinement.RecordMatches | src/netcode/resync.asm:65-82 | A record matches byte by byte exactly when tick and checksum are the same, and the fill value never matches |
| Refinement.CrcRefines | src/netcode/resync.asm:91-150 | So does RS_ON_CRC, its four reachable records and its request included |
| Refinement.ControlRefines | src/netcode/resync.asm:352-378 | So do requests, BEGIN and END |
| Refinement.ChunkRefines | src/netcode/resync.asm:283-350 | So do data chunks |
| Refinement.CaptureRefines | src/netcode/lockstep.asm:74-167 | So does the capture |
| Refinement.GateRefines | src/netcode/lockstep.asm:171-208 | So does the gate |
| Refinement.TickRefines | src/netcode/lockstep.asm:264-352 | So does the tick with its report |
| Refinement.PushRefines | src/netcode/resync.asm:179-271 | So does the push, byte for byte |
| Refinement.WaitRefines | src/netcode/resync.asm:475-511 | So do the wait counter and the dead-ball test |
| Refinement.StartRefines | src/netcode/session.asm:681-725 | START leaves a console in the protocol's initial state exactly when its delay is not zero, because the watermark d - 1 is stored as a byte |
| Refinement.ZeroDelayOpens | src/netcode/session.asm:703-712 | With delay zero the gate is shut only for ticks 256 to 0x80FF: it opens for 256 ticks with nothing received |
| ConsoleLaws.StartLaw | src/netcode/session.asm:681-725 | In plain numbers, for seats below 4 and counts to 4: START puts the seed in $8106 and $8107 and changes no other memory cell; seat, count, delay and tick are as told, the rings idle, the records empty, every watermark d - 1 as a byte |
| ConsoleLaws.InputLaw | src/netcode/session.asm:587-636 | INPUT is taken only from another seat of the match and for a tick 1 to $7FFF ahead of its watermark; then that one ring slot and that watermark change, and nothing else |
| ConsoleLaws.ReportLaw | src/netcode/resync.asm:91-150 | CRC is flagged exactly by a console that neither waits nor is held and has recorded another checksum for the same tick, and a guest that flags it answers RESYNC for that tick |
| ConsoleLaws.RequestLaw | src/netcode/resync.asm:158-174 | RESYNC makes an idle host wait from zero and nobody else |
| ConsoleLaws.ChunkLaw | src/netcode/resync.asm:283-350 | A data chunk replaces exactly its own image bytes, in a hold and when all of it fits in 767 bytes, and otherwise changes nothing |
| ConsoleLaws.MarkLaw | src/netcode/resync.asm:352-378 | BEGIN holds, keeps the resume tick and forgets the records; END ends a hold at that tick with idle rings and watermarks d - 1 past it; other marks do nothing |
| ConsoleLaws.OtherFrames | src/netcode/session.asm:558-586 | Frames of every other type change no protocol cell and are not answered |
| ConsoleLaws.GateLaw | src/netcode/lockstep.asm:171-208 | The gate is open exactly when no other seat of the match has a watermark behind the tick by up to 2^15 |
| ConsoleLaws.CaptureLaw | src/netcode/lockstep.asm:74-167 | The captured cell goes to the console's own slot for tick T + d, to no other slot, and with seat and tick into the INPUT frame |
| ConsoleLaws.FinishLaw | src/netcode/lockstep.asm:251-362 | A pass past its gate sends the report frame exactly at multiples of 64 and then, exactly when a host waits, is not held, and finds both top bits of $0163 set or its counter at 60, the ten frames of a push from tick + 17; otherwise nothing |
| ConsoleLaws.PendingLaw | src/netcode/resync.asm:475-511 | RS_PENDING alone in the same numbers, the counter one byte wide |
| Refinement.EncodeLegal | src/netcode/resync.asm:190-270 | Every INPUT, CRC, STATE and RESYNC frame a console builds passes the receiver's length table, at exactly its size |
| Stream.ParseMore | src/netcode/session.asm:488-552 | Parsing the bytes there are, then the remainder with what arrives later, is parsing everything at once |
| Stream.ChunkIndependence | src/netcode/session.asm:452-552 | Frames dispatched, bytes slipped and bytes left over depend on the bytes alone, however they are split into reads |
| Stream.BufferBound | src/netcode/session.asm:464-487 | With reads of at most 64 bytes a pump leaves at most 99 bytes and never holds more than 163, so the 256-byte ring does not overflow |
| Stream.ParsedLegal | src/netcode/session.asm:505-529 | Every frame dispatched, out of any bytes whatever, passes the length table |
| Stream.PrintedParses | src/netcode/session.asm:495-543 | Legal frames followed by the beginning of another parse back exactly, with no slip |
| Stream.RoundTrip | src/netcode/session.asm:1064-1081 | Any splitting of a stream of legal frames gives exactly those frames back |
| Stream.LengthTable | src/netcode/session.asm:1064-1081 | The packed table in plain numbers: which body length goes through for which type |
| ImageMemory.GetPut | src/netcode/resync.asm:600-689 | IMG_GET after IMG_PUT: the byte written at its own position, every other position as it was |
| ImageMemory.AddrApart | src/netcode/resync.asm:594-689 | Two image positions share a cell only as the two bytes of one word |
| ImageMemory.PutRunSplices | src/netcode/resync.asm:283-350 | A data chunk replaces exactly its own positions of the image and touches no cell outside the image |
| ImageMemory.ImageRoundTrip | src/netcode/resync.asm:209-254 | All chunks of one memory written into any other make the images equal at all 767 positions and change no other cell |
| Checksum.LsCksum | src/netcode/lockstep.asm:491-531 | The three loops compute the fold over the summed cells |
| Checksum.OneCellDetected | src/netcode/lockstep.asm:491-531 | Memories that differ in exactly one of $015D-$01EF without $016B, $8106, $8107, $8102, $810F and $8196-$819D have different checksums, wherever that cell lies and whatever the cells outside these ranges |
| Checksum.OthersExcluded | src/netcode/lockstep.asm:477-531 | No other cell changes the checksum: not the frame-timing cell $016B, not the screen, the objects or the handler table |
| Checksum.RolTurns | src/netcode/lockstep.asm:491-531 | The rotation before each addition moves every bit up by one place and the top one to the bottom |
| Checksum.SwapDetected | src/netcode/lockstep.asm:491-531 | Exchanging two cells that are summed one right after the other, bytes that differ by at least two, always changes the checksum, which a plain sum would miss |
| Checksum.VolatileIsExcluded | src/netcode/lockstep.asm:484-501 | Images that differ in volatile bytes only, the latch and the animation counters, have the same checksum |
| Checksum.SameImageSameCells | src/netcode/resync.asm:594-689 | Equal images mean equal cells: all of $015D-$01EF, $0200-$02EF and $031D-$035C, the random number, the countdown mirrors and the handler table |
| Checksum.ImageLayout | src/netcode/resync.asm:600-637 | At which positions of the image each of those cells lies, the low byte of a word first |
| ImageMemory.VolatileCells | src/netcode/lockstep.asm:484-501 | The volatile bytes are those of the cells $016B and $0322, $032A, ..., $035A |
| Checksum.SumOfImage | src/netcode/lockstep.asm:491-531 | For byte-valued cells and zero spare cells the checksum depends on the image alone |
| ConsoleRoutines.Console.constructor | src/ram.asm:149-219 | The cells start with nothing read and nothing sent |
| ConsoleRoutines.Console.SesPump | src/netcode/session.asm:452-552 | From at most 99 bytes held and a read of at most 64, the console ends as if the frames of the parse had been dispatched in order, having sent exactly their answers, with the parse's remainder in the circular buffer |
| ConsoleRoutines.Console.SesHold | src/netcode/session.asm:1045-1056 | SES_HOLD's 150 pumps together dispatch exactly the frames of one parse of all the bytes they read, and leave its remainder |
| ConsoleRoutines.Console.TakeFront | src/netcode/session.asm:530-543 | Extracting the front frame and dispatching it is OnFrame16 of it on the console and the rest of the ring |
| ConsoleRoutines.Console.StepOver | src/netcode/session.asm:544-552 | Slipping a byte that is no length byte drops it from the ring and changes nothing else |
| ConsoleRoutines.Console.Accumulate | src/netcode/session.asm:477-487 | The copy loop appends the read to the ring's contents |
| ConsoleRoutines.Console.Extract | src/netcode/session.asm:530-541 | The extraction loop takes the first n bytes off the ring |
| ConsoleRoutines.Console.Look | src/netcode/session.asm:488-529 | The checks on the ring decide exactly as the parse does |
| ConsoleRoutines.Console.SesOnFrame | src/netcode/session.asm:558-586 | Dispatch takes the console to OnFrame16 of it and sends exactly its answers, for any legal frame |
| ConsoleRoutines.Console.OnInput | src/netcode/session.asm:587-636 | INPUT takes the console to OnInput16 of it: own and absent seats and old ticks dropped, else both pages and the watermark written |
| ConsoleRoutines.Console.OnStart | src/netcode/session.asm:681-725 | START: the seed goes to $8106 and $8107 and to no other memory cell; seat, count, delay, idle rings, cleared records, truncated watermarks, tick zero |
| ConsoleRoutines.Console.RsOnCrc | src/netcode/resync.asm:91-150 | RS_ON_CRC on the record page: pending and the request exactly as OnCrc16 says, nothing else changed |
| ConsoleRoutines.Console.RsOnReq | src/netcode/resync.asm:158-174 | RS_ON_REQ makes an idle host pending and changes nothing else, as OnReq16 says |
| ConsoleRoutines.Console.RsOnState | src/netcode/resync.asm:283-378 | RS_ON_STATE takes any console, on any legal frame, to OnState16 of it: bounds, hold, BEGIN, END |
| ConsoleRoutines.Console.PutChunk | src/netcode/resync.asm:327-350 | The data loop leaves the memory that PutRun describes |
| ConsoleRoutines.Console.ImgPutAt | src/netcode/resync.asm:639-689 | IMG_PUT, region by region, in place, is the one-position write ImgPut |
| ConsoleRoutines.Console.ImgGetAt | src/netcode/resync.asm:600-637 | IMG_GET, region by region, is the byte ImgGet |
| ConsoleRoutines.Console.RsPush | src/netcode/resync.asm:179-271 | RS_PUSH sends exactly the frames of Push16, in order, and leaves the console re-baselined to tick + 16 |
| ConsoleRoutines.Console.SendPush | src/netcode/resync.asm:190-270 | BEGIN with the resume tick, the image, END |
| ConsoleRoutines.Console.SendImage | src/netcode/resync.asm:209-254 | The chunk loop sends the image 96 bytes at a time |
| ConsoleRoutines.Console.SendChunk | src/netcode/resync.asm:223-253 | One chunk frame is its length, type, position and image bytes |
| ConsoleRoutines.Console.RsEnterHold | src/netcode/resync.asm:383-391 | RS_ENTER_HOLD sets the hold and clears every record, nothing else |
| ConsoleRoutines.Console.RsRebase | src/netcode/resync.asm:393-442 | RS_REBASE: tick, idle rings, four watermarks at R + d - 1, cleared records, hold and pending off |
| ConsoleRoutines.Console.SetWatermarks | src/netcode/resync.asm:419-433 | The loop gives all four seats the same 16-bit watermark |
| ConsoleRoutines.Console.RsClrCrc | src/netcode/resync.asm:573-581 | RS_CLR_CRC leaves every record with the fill value no report matches |
| ConsoleRoutines.Console.LsRingInit | src/vdispatch.asm:470-483 | LS_RING_INIT: every decoded cell $40, every keypad cell 0 |
| ConsoleRoutines.Console.Capture | src/netcode/lockstep.asm:74-167 | Capture: own ring pages at T + d, INPUT frame, on to the gate |
| ConsoleRoutines.Console.GateOpen | src/netcode/lockstep.asm:171-208 | The seat loop finds the gate open exactly when no remote watermark is behind the tick |
| ConsoleRoutines.Console.RsRecordCrc | src/netcode/resync.asm:65-82 | RS_RECORD_CRC replaces the record of the tick's slot and no other |
| ConsoleRoutines.Console.Report | src/netcode/lockstep.asm:310-341 | The checksum of the memory is recorded for this tick and sent, seat and tick with it |
| ConsoleRoutines.Console.CountTick | src/netcode/lockstep.asm:342-351 | TICK_LO and TICK_HI count as one 16-bit number |
| ConsoleRoutines.Console.LsRun | src/netcode/lockstep.asm:251-351 | LS_PASS past its gate is Tick16: memory, record, report frame, counter |
| ConsoleRoutines.Console.RsPending | src/netcode/resync.asm:475-511 | RS_PENDING counts a waiting host's tick, then pushes exactly when both top bits of $0163 are set or 60 ticks are reached, sending BEGIN with tick + 16, eight chunks and END, and otherwise sends and changes nothing |
| ConsoleRoutines.Console.LsFinish | src/netcode/lockstep.asm:251-362 | Tick, report and pending push together are Finish16, which ConsoleLaws.PassLaw says in numbers: a report at multiples of 64 and, exactly when a waiting host finds both top bits of $0163 set or waits its 60th tick, BEGIN, eight chunks and END |
| ConsoleRoutines.Console.LsEnter | src/netcode/lockstep.asm:17-167 | LS_PASS up to its gate: in a hold it only dispatches the frames of the parse, otherwise it then captures; both on any buffer of at most 99 bytes |
| ConsoleRoutines.Console.LsGate | src/netcode/lockstep.asm:168-251 | One round of the gate loop: the frames of the parse dispatched when it is shut, Finish16 when it is open |
| ConsoleRoutines.Console.SeatCells | src/vdispatch.asm:321-366 | Current and previous ring cells of a seat, the previous one wrapping at tick_lo 0 |
| ConsoleRoutines.Console.LsVDispatch | src/vdispatch.asm:321-424 | The handler calls made for one seat, in order, by ranges of its two ring cells: a button's release, its press or repeat, then slot 0 with the disc direction or -1, or slot 2 with the keypad key |
| ConsoleArrays.PutByte | src/netcode/session.asm:477-487 | Writing at RX_WR and stepping it appends one byte, as long as fewer than 255 are held |
| ConsoleArrays.DropByte | src/netcode/session.asm:530-552 | Stepping RX_RD drops the first byte |
| ConsoleArrays.PutCell | src/netcode/lockstep.asm:129-145 | Writing one cell in each of a seat's two pages is one write to that seat's ring |
| Buttons.ButtonsBracket | src/vdispatch.asm:354-387 | Over any run of cells from an idle start, the action-button calls of a seat are presses, each held any number of times and released before the next; at most one class is down, and the one left down is what the last keypad cell shows |
| Buttons.DiscsFollow | src/vdispatch.asm:388-424 | Over any run of cells from an idle start the calls to slots 0 and 2 are, change by change: slot 0 with a value below $40, slot 2 with a value of $80-$BF less $80, slot 0 with -1 for $40-$7F, nothing for $C0 and above or for no change |
| Buttons.ButtonsFollow | src/vdispatch.asm:354-387 | And the calls to slots 4, 6 and 8: the old button's release and the new one's press when the keypad cell changes, a repeat while it does not |
| Buttons.ReleaseBetween | src/vdispatch.asm:354-366 | Between any two presses the first button's release is called |
| Buttons.TickBrackets | src/vdispatch.asm:354-387 | One tick keeps the bracketing, with the old class released before the new one is pressed |
| Names.TextOrBytes | server/intv_relay_server.py:386-396 | Stripping and testing bytes, as the C port does, accepts exactly the names that decoding to text and stripping accepts, and finds exactly the same stored names |
| Names.SetMeans | server/intv_relay_server.py:394-406 | Setting a key changes what that key finds and nothing else, keeps the place of an old key and appends a new one |
| Names.DistinctRemoved | server/c/src/intv-relay.c:354-359 | Removing an entry keeps the others, in their order |
| RelayInv.RunsInv | server/intv_relay_server.py:264-325 | Between any two events of any run: every room has 2 to maxSeats distinct connected named members that know they are in it, every client in a room is one of its members, the name dictionary is a bijection with the named clients, and the connection caps hold |
| RelayInv.StepInv | server/intv_relay_server.py:359-384 | Every event keeps that |
| RelayInv.DropInv | server/intv_relay_server.py:277-325 | So does dropping a client, whatever room it was in |
| RelayInv.HelloInv | server/intv_relay_server.py:386-406 | So does HELLO: eviction of the old holder, renames, rejected names |
| RelayInv.JoinInv | server/intv_relay_server.py:426-453 | So does JOIN under any name |
| RelayRuns.RelayConserves | server/intv_relay_server.py:359-370 | Each member of a started room was queued START for its own seat, with the size, seed and delay and with the names the members had when the match started, in seat order, and after it exactly the match frames of the other members: verbatim, once each, in the order handled, none of its own |
| RelayRuns.RelayIsTwoChannels | server/intv_relay_server.py:359-370 | In a started room of two, each player was queued its START and after it exactly the match frames the other one sent, in order: the relay is the two FIFO channels that the consoles' protocol assumes |
| RelayRuns.StartMatch | server/intv_relay_server.py:463-470 | Starting a room queues every seat its own number and the same rest: size, seed, delay, and the members' names in seat order |
| MatchStart.MatchSeeds | src/netcode/session.asm:690-693 | In every run of the relay the START frames queued to the members of a started room leave that room's seed in $8106 and $8107, and its size and delay, in every console that takes its own, whatever it held before |
| MatchStart.PairStarts | src/netcode/session.asm:681-725 | Two booted consoles whose images are equal but for the random number, and that take the START frames of one room with d at least 1, stand where every run of the two consoles begins |
| RelayRuns.MatchEndsWhole | server/intv_relay_server.py:303-313 | A started room never gains a member; when it loses one it is gone, every other member is back in the lobby, and the first frame it is queued names the seat and the name that left |
| RelayRuns.RoomsHalf | server/c/src/intv-relay.c:78-79 | There are at most half as many rooms as clients in rooms |
| RelayRuns.RoomsSuffice | server/c/src/intv-relay.c:363-375 | When a solo client joins another, one of the 32 room slots is free |
| RelayRuns.NamesSuffice | server/c/src/intv-relay.c:340-352 | There are never more names than clients, and one fewer whenever HELLO adds a key |
| RelayFrames.FrameLayouts | server/intv_relay_server.py:88-115 | What ROOM, PEER_LEFT and START carry, byte by byte |
| RelayFrames.RosterSlots | server/intv_relay_server.py:109-111 | A roster is the members' names in seat order, then NULs |
| RelayFrames.LobbyShows | server/intv_relay_server.py:417-424 | LOBBY is the number of entries and then the other clients in dictionary order, the first eight, each with name and status |
| RelayFrames.StatusTells | server/intv_relay_server.py:408-415 | Bit 7 of a client's status is clear exactly when a JOIN by its name would be accepted, and the low bits are its room's size |
| RelayFrames.FramesLegal | server/intv_relay_server.py:88-111 | Every frame the server originates passes the console's length table |
| RelayFrames.RunsLegal | server/intv_relay_server.py:359-370 | In every run whose consoles send legal match frames, everything queued to anyone is legal |
| RelayFrames.QueuedIsParsed | src/netcode/session.asm:495-543 | So each console's parser recovers exactly what was queued to it, however it is split into reads, with no byte slipped |
| RelayLaws.HelloAccepted | server/intv_relay_server.py:386-406 | After HELLO with version 2 and a good name the sender bears the name and is found under it, the only client gone is the name's previous holder if that was somebody else, everybody else keeps its name, and the last frame queued to the sender is the lobby |
| RelayLaws.HelloRejected | server/intv_relay_server.py:386-393 | Any other HELLO drops its sender and nobody else |
| RelayLaws.HelloOrder | server/intv_relay_server.py:394-406 | The order of names: unchanged when the sender had this name, else its old name and the previous holder's entry go and the new one comes last |
| RelayLaws.SmallLaw | server/intv_relay_server.py:371-384 | LIST is answered with the lobby and PING with PONG, and nothing else happens; BYE and every type no console sends drop the sender |
| RelayLaws.MatchFrameLaw | server/intv_relay_server.py:359-370 | Match frames go, as they are, once to each other member of the sender's started room and to nobody else; without one, nowhere |
| RelayLaws.GoLaw | server/intv_relay_server.py:455-474 | GO of seat 0 of a room that has not started starts it, with one rest of START for all its seats; anybody else's does nothing |
| RelayLaws.JoinRefused | server/intv_relay_server.py:426-445 | JOIN before HELLO drops the sender, from inside a room it does nothing, and without a joinable client of that name it is answered with the lobby |
| RelayLaws.JoinAccepted | server/intv_relay_server.py:446-453 | Otherwise the sender becomes the last member of that client's room, or of a new room of the two, every member is told ROOM with the new count, and the match begins if the room is large enough for auto-start |
| RelayLaws.AcceptLaw | server/intv_relay_server.py:192-211 | A connection is accepted exactly below 64 clients and below 8 of its address, nameless, solo and with nothing queued |
| RelayLaws.GoneLaw | server/intv_relay_server.py:277-302 | Leaving takes one client away, renames nobody, and is noticed by nobody outside its room |
| RelayLaws.StartedEnds | server/intv_relay_server.py:303-313 | It ends a started room for all: each other member is solo and is queued PEER_LEFT with the leaver's seat and name, and nothing else |
| RelayLaws.FormingEnds | server/intv_relay_server.py:269-320 | A forming room its host leaves, or with one member left, dissolves: each other member is solo and is queued ROOM with count zero |
| RelayLaws.FormingGoesOn | server/intv_relay_server.py:317-324 | Any other forming room goes on with its seats closed up, each member queued ROOM with the new count |
| RelayServer.Server.Send | server/intv_relay_server.py:213-221 | send to a live client queues the frame; to a dropped one nothing |
| RelayServer.Server.SendEach | server/intv_relay_server.py:264-267 | The broadcast loop queues one frame to each member, once |
| RelayServer.Server.RoomBroadcast | server/intv_relay_server.py:264-267 | room_broadcast queues the ROOM frame to each member, once: Relay.Broadcast |
| RelayServer.Server.DissolveRoom | server/intv_relay_server.py:269-275 | dissolve: everybody solo, notices, room gone |
| RelayServer.Server.ForgetNames | server/intv_relay_server.py:290-295 | Every alias of the dropped client goes, the rest keep their order |
| RelayServer.Server.DropClient | server/intv_relay_server.py:277-325 | drop takes the server to Relay.Drop of it: names, seat, end of match, dissolution or reseating |
| RelayServer.Server.OnListOf | server/intv_relay_server.py:417-424 | on_list queues the asker the LOBBY of Relay.OnList, built by two loops |
| RelayServer.Server.OnHelloFrom | server/intv_relay_server.py:386-406 | on_hello is Relay.OnHello; a protocol error changes nothing and is one exactly where Relay.OnHello drops |
| RelayServer.Server.StartRoomOf | server/intv_relay_server.py:463-474 | start_room queues START seat by seat: Relay.StartRoom |
| RelayServer.Server.OnJoinFrom | server/intv_relay_server.py:426-453 | on_join is Relay.OnJoin: redirect to the room, a fresh room when solo, refresh when unjoinable, auto-start |
| RelayServer.Server.OnGoFrom | server/intv_relay_server.py:455-461 | on_go starts only an unstarted full-enough room, and only for its seat 0: Relay.OnGo |
| RelayServer.Server.FanOut | server/intv_relay_server.py:359-370 | The fan-out loop queues the frame to every other member, once: Relay.OnRelay |
| RelayServer.Server.HandleFrame | server/intv_relay_server.py:359-384 | handle is Relay.Handle for every type byte, a protocol error dropping the client, and keeps the invariant |
| RelayServer.Server.AcceptFrom | server/intv_relay_server.py:192-211 | accept with its two caps is Relay.Accept |
| RelayC.CServer.constructor | server/c/src/intv-relay.c:159-163 | The zeroed arrays are the empty server |
| RelayC.CServer.NameFind | server/c/src/intv-relay.c:332-338 | strcmp down the array finds the key the dictionary finds |
| RelayC.CServer.NameSet | server/c/src/intv-relay.c:340-352 | In place for an old key, at the end for a new one, never out of room |
| RelayC.CServer.NameDelAt | server/c/src/intv-relay.c:354-359 | memmove over the hole keeps the others in order |
| RelayC.CServer.ForgetNames | server/c/src/intv-relay.c:625-634 | drop's downward loop removes every alias and keeps the others in order |
| RelayC.CServer.RoomAlloc | server/c/src/intv-relay.c:363-375 | A free slot is found and becomes a room of one; the give-up return is dead code |
| RelayC.CServer.RoomSeat | server/c/src/intv-relay.c:377-383 | The seat is the index among the members, or -1 |
| RelayC.CServer.RoomRoster | server/c/src/intv-relay.c:386-391 | The roster bytes are the dictionary server's |
| RelayC.CServer.Unseat | server/c/src/intv-relay.c:642-647 | memmove of the members behind a seat |
| RelayC.CServer.RoomBroadcast | server/c/src/intv-relay.c:578-588 | room_broadcast over a snapshot is Relay.Broadcast on the arrays |
| RelayC.CServer.DissolveRoom | server/c/src/intv-relay.c:591-601 | dissolve: every member solo, the notices queued once each, the slot free |
| RelayC.CServer.LeaveRoom | server/c/src/intv-relay.c:637-698 | drop's room business leaves clients and rooms as Relay.Drop does, but for the slot the client still holds |
| RelayC.CServer.DropClient | server/c/src/intv-relay.c:603-698 | drop does to the arrays what the Python drop does to the dictionaries, and keeps the invariant |
| RelayC.CServer.StatusByte | server/c/src/intv-relay.c:872-883 | status_byte is the Python _status |
| RelayC.CServer.LobbyList | server/c/src/intv-relay.c:885-904 | on_list's loop, stopping at eight, lists what the Python slice lists |
| RelayC.CServer.OnListOf | server/c/src/intv-relay.c:885-904 | on_list queues the same LOBBY as the Python server |
| RelayC.CServer.Greets | server/c/src/intv-relay.c:799-843 | A HELLO is accepted exactly on version 2 and a valid name |
| RelayC.CServer.Rename | server/c/src/intv-relay.c:854-863 | The rename keeps the dictionary's order rules |
| RelayC.CServer.OnHelloFrom | server/c/src/intv-relay.c:799-867 | on_hello is Relay.OnHello on the arrays |
| RelayC.CServer.StartRoomOf | server/c/src/intv-relay.c:989-1016 | start_room is Relay.StartRoom on the arrays |
| RelayC.CServer.SendStarts | server/c/src/intv-relay.c:1006-1010 | START is queued to every seat of a snapshot, once, with its own number |
| RelayC.CServer.OnGoFrom | server/c/src/intv-relay.c:978-987 | on_go is Relay.OnGo on the arrays |
| RelayC.CServer.FanOut | server/c/src/intv-relay.c:1249-1273 | The relay branch of handle is Relay.OnRelay on the arrays |
| RelayC.CServer.FindTarget | server/c/src/intv-relay.c:921-956 | The JOIN target is the joinable client under the name up to its first NUL |
| RelayC.CServer.EnterRoom | server/c/src/intv-relay.c:958-968 | The joiner becomes the last member, in a room made for the target if need be |
| RelayC.CServer.OnJoinFrom | server/c/src/intv-relay.c:909-976 | on_join is Relay.JoinAs on the arrays, under the name up to its first NUL |
| RelayC.CServer.HandleFrame | server/c/src/intv-relay.c:1249-1291 | handle is the Python handle on the arrays, but for that name, and keeps the invariant |
| RelayC.CServer.AcceptFrom | server/c/src/intv-relay.c:496-543 | accept_client: both caps, first free slot; the no-slot return is dead code |
| RelayC.ServersAgree | server/c/src/intv-relay.c:925-956 | The two servers take the same state to the same state on every frame, except exactly on a JOIN by a named solo client whose name field, stripped, is at most 8 bytes, has a NUL in it and starts with the name of somebody it could join |
| RelayC.RunsAgree | server/c/src/intv-relay.c:925-956 | Over a whole run, with live clients and rooms numbered alike, the two servers have the same clients, names, rooms and queued frames after every event, every lobby list included, exactly when no JOIN of the run is such a one |
| RelayC.CutShortHappens | server/c/src/intv-relay.c:925-931 | Such a JOIN comes in a run: from the empty server AB and CD connect and say HELLO, and CD asks for AB, NUL, X |
| Reassembler.ChunksDontMatter | server/intv_relay_server.py:338-357 | The frames handled and what becomes of the connection depend on the bytes alone, however they are split into reads |
| Reassembler.FramedIsHandled | server/intv_relay_server.py:88-91 | Bodies framed by a console are handled exactly, as long as none of them kills the client |
| Reassembler.FrontDecides | server/intv_relay_server.py:338-357 | A length byte of 0 or above 200 ends the connection, a whole frame is handled, part of one waits |
| Reassembler.PyClient.Service | server/intv_relay_server.py:338-357 | service's loop over its growing buffer computes that function |
| Reassembler.CClient.Feed | server/c/src/intv-relay.c:717-759 | feed over its 256 bytes makes the same handle calls, ends the same way and keeps the same remainder; its overflow drop is dead code |
| Reassembler.CClient.Drain | server/c/src/intv-relay.c:735-757 | The inner loop handles every complete frame |
| CrcTable.TakeOpen | server/intv_relay_server.py:476-497 | A round is judged on at most as many reports as there are players, and between reports there are at most 64 open rounds, each with fewer reports than players |
| CrcTable.RoundsApart | server/intv_relay_server.py:481-487 | As long as no report finds 64 other rounds open, each tick is judged on exactly its own reports since its last complete round |
| CrcTable.VerdictMeans | server/intv_relay_server.py:486-497 | Then a report closes its round exactly when it makes it as large as the match, and is a mismatch exactly when two seats of it differ |
| CrcTable.OkCounts | server/intv_relay_server.py:491-497 | The agreed count is the number of complete rounds of the run in which all seats reported the same checksum |
| CrcTable.FullTable | server/intv_relay_server.py:481-485 | A report for a new tick that finds 64 rounds open completes nothing in a match of several, and the round of the smallest of the 65 ticks is forgotten |
| CrcRooms.PyRoom.LogCrc | server/intv_relay_server.py:476-497 | log_crc on the dictionary computes Take |
| CrcRooms.CRoom.LogCrc | server/c/src/intv-relay.c:1136-1247 | log_crc on 65 rows of 8 slots gives the same table, the same agreed count and the same verdict, for any seat bytes and 1 to 8 players |
| CrcRooms.CRoom.FindFree | server/c/src/intv-relay.c:1151-1163 | A free row exists; the no-row return is dead code |
| CrcRooms.PutSeat | server/c/src/intv-relay.c:1171-1191 | A free seat slot exists when the seat is new; the no-slot return is dead code |
| CrcRooms.CRoom.LowestRow | server/c/src/intv-relay.c:1197-1201 | The row evicted is the one of the smallest tick |
| CrcRooms.Agreement | server/c/src/intv-relay.c:1211-1219 | The agreement flag is true exactly when all reports are equal |
| KeyedSlots.TableSet | server/c/src/intv-relay.c:1146-1163 | Using a free slot, or a key's own slot, is a map update |
| KeyedSlots.TableFree | server/c/src/intv-relay.c:1202-1205 | Freeing a slot is a map removal |

## Left out
- Sockets, selectors and epoll, signals, argument parsing, log text and timestamps, statistics.
- The lobby publisher (`LobbyPublisher`, server/c/src/lobby.c): HTTP around an external service.
- The FujiNet mailbox: reads and writes are parameters and results of the routines.
- The cartridge, the EXEC, the interrupt handler and $0102, native timer slots 2 to 5, sound: the game tick is a parameter; claims are about the image, the rings, the watermarks and LS_PASS ticks.
- Fuzz and HUD builds, the handler-table swap around the tick, and the handlers that LS_VCALL enters.
- Lobby, room and PEER_LEFT screens; on the console those frames are recognised by the parser and change no protocol cell.
- Gate and hold time-outs and the parked state after PEER_LEFT: runs have no drop between the consoles; LS_IDLE_RMT is not modelled.
- Protocol version 1 of the C relay (`start_pair`, `log_crc_v1`): its reference server is not part of this model.
- A send that fails inside a broadcast: a failed send, an overfull transmit queue and the hello time-out are later drop events of their own; queues are whole frames and never shrink.
- The choice of match seeds: a parameter of the event that starts a match.
- Liveness: no fairness of passes or of the network is assumed, so nothing says that a frame does arrive; `ProtocolRecovery.NoDeadlock`, `ProtocolRecovery.HostPushesInTime` and `ProtocolConvergence.Converges` bound what can go wrong before it does.
- Tests, tools, spikes and build files.
- ConsoleCells.OnStart16: ignores a START whose seat is above 3 or whose count is above 4, where the console stores any byte; the relay never sends one (`RelayFrames.FrameLayouts`, `RelayInv.RunsInv`).
- ConsoleRoutines.Console: each group of cells is an array or field of its own, so writes that stray from one group into another are not modelled; LS_PASS is its two halves, up to the gate and one round of the gate loop, since other console and network steps come between rounds.
- Protocol.Step: a simulation drifts only between passes and outside a hold; the effect of a drift on any later tick is covered.
- Relay.Handle: the checksum log of a room is kept apart, in CrcTable and CrcRooms, since no handler but log_crc reads it.
- RelayServer.Server: an object is known by a number that is unique among the live ones; the identity of a new Room is a parameter.
- RelayC.CServer: a client's transmit bytes are the list of frames queued; the epoll tag and generation counter are not modelled.
