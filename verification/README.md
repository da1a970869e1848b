# Verified model of grbl-proxy

grbl-proxy sits between LightBurn (over TCP) and a GRBL laser controller (over serial). It passes
traffic through, captures a job between a start marker and a program end, stores it, and then
streams it to the controller by character counting while it watches the machine for faults. This
project models that whole path in Dafny and proves what it promises for every input, every run and
every order of events. `dafny verify dfyconfig.toml` checks it.

## How it is laid out

| files | what they hold |
|---|---|
| `StreamerModel` | one streaming run as an event machine: serial messages, clock readings, await outcomes and operator commands on a tape; a history of what was heard, sent and decided |
| `GrblStreamer` | `GrblStreamer` as a class with the program's fields and loops, each method proved against the event machine |
| `StreamerLaws`, `StreamerTracking`, `StreamerWindow`, `StreamerRuns`, `StreamerInputs` | laws that say, from the history alone, when each decision is justified and when it is due; the invariant that the streamer's counters mean what the history shows; the theorems over all runs; the history as a true record of the inputs |
| `StreamerGrowth`, `StreamerPrompt`, `StreamerSilence`, `StreamerDwell`, `StreamerDevice` | how one event adds to a history; promptness of pause and cancel, the watchdog against a silent device, G4 dwells, and the streamer against a device whose acknowledgements may be lost |
| `ProxyModel`, `ProxyCore`, `ProxyLaws`, `ProxyRuns` | the six-state proxy as a step function, as the classes `ProxyCore` and `ProxyControl`, its state diagram and laws by the bytes and texts of the events, and all event orders |
| `JobBuffer`, `JobFiles` | captured lines on their way to disk and back |
| `EndToEnd` | from the client's lines to the bytes on the wire, and how the end of a job shows |
| `Handover`, `HandoverCommands` | relay, finalizer and streamer interleaving at their awaits, and the operator's commands among them |
| `Gcode`, `GcodeLaws` | program ends, markers, laser-off and unlocking lines, the normal form markers are compared in, and what each recogniser takes, said by the text of the line |
| `GrblProtocol`, `GrblMessages`, `Decimals`, `Text` | classifying, splitting, parsing and printing protocol lines |
| `MessageLaws`, `ProtocolLaws`, `ReportLaws` | what a message is taken for, what a line splits into and how a report reads, said by the text; round trips |
| `SerialFraming`, `ChunkRouting`, `TcpRouting`, `Bytes`, `Utf8` | lines out of serial reads; serial writes out of TCP chunks, and when a chunk's write carries a line into a capture or a job |
| `Reconnect` | the port monitor |

The laws in `StreamerLaws` never mention the streamer's counters. They are stated over functions of
the history (`Proven`, `IdleRun`, `DrainedRun`, `LastProgress`, `GraceUntil`, `InFlight`, ...), and say
both when an entry may be written and when it must be: a machine hold begins and ends exactly when
what was heard says so, each turn of a drain loop passes its checks before it takes a message or
begins a read, a query is written exactly when due. `StreamerInputs` shows that what a history records
as heard, commanded and broken is what the tape delivered, so a run cannot satisfy the laws by
leaving its inputs out.

The recognisers and readers that program, model and laws would otherwise share are each pinned by a
statement that does not use them: the laws read a report by its fields, and `MessageLaws`,
`ReportLaws` and `GcodeLaws` say by the characters of a line what it is taken for. `ProxyLaws` gives
the state diagram, the commands, bytes, answers and memory of the proxy in terms of those texts and of
byte values, and every handler of the classes is proved to obey it.

## What the proofs brought out

Places where the code does less than one may expect; each has a lemma with a concrete input or an
exact condition.

- A cancelled run need not end: a pause holds it like any other (`StreamerPrompt.PauseAfterCancelBlocks`).
  A paused run comes to wait exactly when it comes to a line, that is when the file was loaded or a
  write ended with a line to follow (`PauseHoldsExactly`); a cancelled run has reported, or waits so,
  within five completed awaits (`CancelledRunEndsOrWaits`), and has reported if it is not paused again
  (`CancelledRunEnds`).
- Client lines can reach the controller during a capture or a job. A line passed through is written when
  its whole TCP chunk was routed, and by then a later line of the chunk may have started a capture, or a
  job and its streamer. That happens exactly when, by the chunk's bytes and the unfinished line before it,
  a line stands where neither is on and one is on at the end (`ChunkRouting.ChunkWriteExactly`); in a
  chunk without hold, resume and reset, when a line stands before the first start marker
  (`WithoutDiscards`). `G`, then `;` as start marker and `M2` in one chunk is such a case
  (`ChunkReachesTheJob`). A chunk that finds a job running writes no line (`JobChunkWritesNoLine`).
- The device can come to hold more lines than the streamer counts in flight: exactly when others have
  written, and resyncs have written off, more lines than oks were lost, are under way, or came with
  nothing in flight (`StreamerDevice.DeviceIsAccountedFor`); and its RX buffer overflows exactly when
  that makes more lines than the newest that fit (`RxOverflowsExactly`). A device that reports Idle three
  times while it still holds a line is sent the next one on top (`ResyncMayOverflow`); one that still
  holds a client's line is sent the job's first on top (`ForeignLineMayOverflow`).
- A carriage return inside a captured line ends a line when the job is read back, so a captured line
  can turn into a program end in the middle of the job (`EndToEnd.CarriageReturnSplits`). The streamed
  lines are the captured ones exactly when no non-blank line holds one.
- A client line is neither answered nor forwarded in exactly three cases: the start marker when the job
  file cannot be opened, a passed-through line whose write fails, and `$X` or `$H` in ERROR whose write
  fails (`ProxyRuns.Unanswered`; M5 in ERROR is answered for). A line forwarded shortly before a job
  counts as forwarded, though its ok may be lost at the handover or be taken for the streamer's own.
- The serial port becomes nobody's exactly when a finalizer is cancelled while it waits for the relay
  (`Handover.PortIsStrandedExactly`), as when its client is dropped (`StrandingHappens`): the relay
  finishes the read it is in and none begins another, and the proxy shows a running job for good
  (`HandoverCommands.StrandedJobShows`).
- A handover completes by itself if and only if `serial_read_idle` is set or a relay is there that runs on
  (`Handover.HandoverCompletes`). A relay that is cancelled, or stopped inside its read, leaves the event
  cleared (`WhoLeavesIdleCleared`); so after an ordinary disconnect the next job started from the web
  waits out the two-second handshake (`DisconnectHangsTheNextJob`).
- A cancel or pause answered between a job's start and its streamer's is lost on the streamer, and the
  cancel on the proxy too (`HandoverCommands.CommandsAreLostExactly`).
- A read left behind by a relay that ended can still hold the port when the streamer starts
  (`Handover.OrphanMayOverlap`); it is the read lock that lets only one of them touch it
  (`OneReaderAtATime`).
- The port monitor can mark the link connected without a descriptor: exactly when an open's await
  returns after an I/O failure or a shutdown has closed what it opened, and until a late open or a
  shutdown (`Reconnect.HollowExactly`, `ClosedBehindExactly`). Such a link is not tried again
  (`HollowStep`), and does not see its node go, so that a later attempt need not have settled
  (`HollowUnsettles`).
- A dwell is recognised exactly when a G, zeros and a 4 stand with no word character next to them and
  later a P with, after blanks if any, a digit or a point (`StreamerDwell.DwellIsRecognised`). So `G4P2`,
  `P2 G4` and `N10G4 P2` are missed and get no longer watchdog (`MissedDwells`).

Where `StateDiagram.md` and the code differ the model follows the code: lines during EXECUTING and
PAUSED are answered `ok`, not `error:9`; a soft reset by the operator ends in PASSTHROUGH or
DISCONNECTED, not ERROR; a client that drops while a job is captured leaves DISCONNECTED; `?` during
EXECUTING shows the machine's last reported state; and a disconnect, too, leaves ERROR.

## Model

| member | source | states |
|---|---|---|
| StreamerRuns.EveryRunIsLawful | src/grbl_proxy/streamer.py:278-661 | every entry of every run's history is justified by what was heard and commanded before it, and none that is due is left out: hold beginnings and ends, turn checks, polls, fail-safes, reports |
| StreamerRuns.HoldsBeginAndEnd | src/grbl_proxy/streamer.py:754-819 | a machine hold begins exactly when none is on and the newest message is a vendor fault, or a Hold or Door report that is no alarm, outside operator pause and resume grace; it ends exactly when the newest report leaves it and it was proven or begun by a report; both at that moment |
| StreamerRuns.NothingOwed | src/grbl_proxy/streamer.py:278-661 | whenever a run is suspended no hold is left to begin or end, no query to write, and no message or exception that calls for the fail-safe or the end is the newest thing |
| StreamerRuns.QueriesKeepPace | src/grbl_proxy/streamer.py:663-678 | after a turn's checks, before a line and when the poll timer fires a query is written if and only if the interval has passed, the short one in an unproven hold |
| StreamerRuns.EveryTurnIsChecked | src/grbl_proxy/streamer.py:324-344 | no message is taken and no read begun without the checks of cancel, watchdog and hold before it in the same turn |
| StreamerRuns.ReadsAreNoted | src/grbl_proxy/streamer.py:680-721 | a run suspended in a read has noted that read, so it came after its checks |
| StreamerInputs.EveryInputIsRecorded | src/grbl_proxy/streamer.py:680-721 | in every run the messages heard and queued, the commands, exceptions and timer firings are exactly those of the tape, in order |
| StreamerRuns.BreaksEndTheRun | src/grbl_proxy/streamer.py:183-218 | an exception out of an await ends the run at once; internal error means exactly that; cancelled means cancel(), a lost link, a cancelled task or an interrupted fail-safe, and after cancel() the result counts the lines sent |
| StreamerRuns.HoldsAreProven | src/grbl_proxy/streamer.py:793-887 | whenever a message is taken or a read begun in a machine hold older than the confirmation time, some report since it began was held, stationary and laser-off by its FS figure or accessories, none since has moved, none showed the laser on twice in a row, and reports are fresh |
| StreamerRuns.WaitsAreBounded | src/grbl_proxy/streamer.py:888-899 | whenever a message is taken or a read begun outside machine hold, the same turn found no cancel and, unless paused, the last sign of progress younger than stall timeout plus longest dwell |
| StreamerRuns.ResyncsNeedEvidence | src/grbl_proxy/streamer.py:405-451 | Idle resync and Idle completion need three Idle reports with no ok and no other state between, and no hold ended since the last ok; a phantom resync needs three drained reports since the last ok |
| StreamerRuns.EvidenceIsActedOn | src/grbl_proxy/streamer.py:405-451 | no message is taken and no read begun after three Idle reports, nor after three drained reports with lines in flight |
| StreamerRuns.UnsafeHoldsStopAtOnce | src/grbl_proxy/streamer.py:821-861 | motion in a proven hold, or two held reports in a row with the laser on by their FS figure or accessories, is followed at once by the fail-safe |
| StreamerRuns.FaultsStopAtOnce | src/grbl_proxy/streamer.py:364-488 | after error, alarm, alarmed status or an unasked reset nothing happens before the fail-safe; an error is blamed on the right line, and codes are passed on |
| StreamerRuns.EveryWindowCounts | src/grbl_proxy/streamer.py:315-507 | the byte count is the sum of the lines in flight, which are the newest lines sent; it fits the RX buffer or one oversize line is alone; and the run waits for the device only while the next line does not fit, or some are in flight after the last |
| StreamerRuns.EveryRunWritesAPrefix | src/grbl_proxy/streamer.py:299-507 | lines are written in file order, each once; a completed run wrote all |
| StreamerRuns.EveryRunReportsOnce | src/grbl_proxy/streamer.py:183-218 | one result, exactly at the end; one fail-safe before a fault, none before completion, or before cancellation unless the run task was cancelled during a fail-safe |
| StreamerTracking.StepKeeps | src/grbl_proxy/streamer.py:278-721 | one event keeps the window invariant, the lawful history and the meaning of every supervision field |
| StreamerTracking.StatusStep | src/grbl_proxy/streamer.py:732-844 | what one status report does to the hold fields is what it does to the history's view of the hold |
| StreamerTracking.ReportsReadAlike | src/grbl_proxy/streamer.py:793-861 | for every report: the laser counts as on if and only if FS has a positive second figure, or without FS there are overrides and the accessories hold S or C, as off if and only if the figure is not positive or there are overrides without those letters, and as unknown otherwise; which states stand held, say hold and say resumed; machine position before work position |
| StreamerWindow.HandleKeepsWindow | src/grbl_proxy/streamer.py:345-500 | no message, resync or extra ok takes the byte count away from the lines in flight |
| StreamerWindow.WrittenKeepsWindow | src/grbl_proxy/streamer.py:502-507 | a finished write adds exactly its line to the window |
| Utf8.LineBytesAreWritten | src/grbl_proxy/streamer.py:315-315 | a line is counted as exactly the UTF-8 bytes its write puts on the wire, which decode to the line |
| StreamerPrompt.CancelIsPrompt | src/grbl_proxy/streamer.py:233-237 | in every run at most one line write starts after cancel() |
| StreamerPrompt.PauseIsPrompt | src/grbl_proxy/streamer.py:220-231 | at most one line write starts between pause() and the next resume() or cancel() |
| StreamerPrompt.PauseHoldsExactly | src/grbl_proxy/streamer.py:299-301 | after an event a run waits at a pause if and only if it did and was not woken, or it is paused and the event brought it to its next line |
| StreamerPrompt.CancelledRunEndsOrWaits | src/grbl_proxy/streamer.py:299-342 | a cancelled run, whatever commands and timers come, has reported or come to wait at a pause after at most five completed awaits |
| StreamerPrompt.CancelledRunEnds | src/grbl_proxy/streamer.py:299-342 | a cancelled run that is not paused again has reported after at most five completed awaits |
| StreamerPrompt.PauseAfterCancelBlocks | src/grbl_proxy/streamer.py:299-313 | a run cancelled and paused while its file loads waits, whatever serial does |
| StreamerSilence.EveryQuietRunFails | src/grbl_proxy/streamer.py:863-899 | while the run waits for a silent device, the first read that ends empty at or past the deadline ends it with a fault, however often the poll timer fired |
| StreamerSilence.SilenceEndsInFault | src/grbl_proxy/streamer.py:863-899 | with a clock that advances by a fixed minimum per await, silence ends the run with a fault in a bounded number of awaits |
| StreamerDevice.DeviceIsAccountedFor | src/grbl_proxy/streamer.py:323-507 | in every run, whoever else writes lines: what the device holds, and oks lost, under way, queued or extra, add up to the lines in flight, others' lines and the lines written off by resyncs; so the device holds more than is in flight if and only if more came beside than is excused |
| StreamerDevice.RxOverflowsExactly | src/grbl_proxy/streamer.py:323-507 | at every moment of every run the device's RX buffer overflows if and only if, by those counts, it holds more lines than the newest that fit |
| StreamerDevice.RxHoldsWhileExcused | src/grbl_proxy/streamer.py:323-507 | at every moment at which no more came beside than is excused, and no one else's line is held, the RX buffer holds what was sent |
| StreamerDevice.RxHoldsAcrossResyncs | src/grbl_proxy/streamer.py:405-451 | with the device to itself, that is so for good if at each resync the device has acknowledged everything and no ok is under way |
| StreamerDevice.RxNeverOverflows | src/grbl_proxy/streamer.py:323-507 | and, with the device to itself, without any condition before the first resync |
| StreamerDevice.ResyncMayOverflow | src/grbl_proxy/streamer.py:422-449 | a concrete run in which an Idle resync overfills the device |
| StreamerDevice.ForeignLineMayOverflow | src/grbl_proxy/streamer.py:323-353 | a concrete run in which a client's unacknowledged line overfills it |
| StreamerDwell.FindLongestDwell | src/grbl_proxy/streamer.py:291-296 | the loop finds the longest G4 dwell, or that one of them is no number |
| StreamerDwell.LongestIsLongest | src/grbl_proxy/streamer.py:291-296 | no dwell of the job is longer, and it is one of the job's or zero |
| StreamerDwell.DwellsAreWaitedOut | src/grbl_proxy/streamer.py:888-899 | a job is declared stalled only after stall timeout plus each of its dwells without progress |
| StreamerDwell.DwellIsRecognised | src/grbl_proxy/streamer.py:75-75 | a line's dwell is recognised if and only if a G4 with no word character next to it is followed by a P with a number |
| StreamerDwell.DwellTextIsFirst | src/grbl_proxy/streamer.py:75-75 | the text taken is the number of the first such P after the first G4 that has one |
| StreamerDwell.FloatsByText | src/grbl_proxy/streamer.py:291-296 | the dwell text counts as the value of its digits, a point among, before or behind them or none, and as no number otherwise |
| StreamerDwell.MissedDwells | src/grbl_proxy/streamer.py:75-75 | G4P2, P2 G4 and N10G4 P2 count as no dwell, G4 P2 as two seconds |
| GrblStreamers.StreamJob | src/grbl_proxy/streamer.py:164-218 | running the class over a tape gives the result and history the theorems speak of |
| GrblStreamers.GrblStreamer.constructor | src/grbl_proxy/streamer.py:107-158 | a new streamer is the machine's initial state |
| GrblStreamers.GrblStreamer.RunJob | src/grbl_proxy/streamer.py:164-218 | result, history, control and supervision fields after run() are the event machine's |
| GrblStreamers.GrblStreamer.Conclude | src/grbl_proxy/streamer.py:183-218 | exceptions become results, a fault tries one soft reset, on_done gets one result |
| GrblStreamers.GrblStreamer.StreamLines | src/grbl_proxy/streamer.py:278-661 | the send loop and the trailing drain together end where the machine ends |
| GrblStreamers.GrblStreamer.ClearToSend | src/grbl_proxy/streamer.py:299-313 | pause, poll and cancel before each line |
| GrblStreamers.GrblStreamer.DrainForRoom | src/grbl_proxy/streamer.py:323-500 | the drain ends with room for the line, a resync, a fault or a cancel, as the machine does |
| GrblStreamers.GrblStreamer.WriteLine | src/grbl_proxy/streamer.py:502-507 | a written line is counted in flight once its write returned |
| GrblStreamers.GrblStreamer.DrainTrailing | src/grbl_proxy/streamer.py:528-661 | the trailing drain ends completed, faulted or cancelled, as the machine does |
| GrblStreamers.GrblStreamer.AwaitMessage | src/grbl_proxy/streamer.py:325-344 | one turn: cancel first, then the watchdog, then a poll, then the next message |
| GrblStreamers.GrblStreamer.HandleInSendLoop | src/grbl_proxy/streamer.py:345-500 | what each kind of message does while lines remain |
| GrblStreamers.GrblStreamer.Acknowledge | src/grbl_proxy/streamer.py:345-363 | an ok, expected or extra, in the send loop |
| GrblStreamers.GrblStreamer.HandleInTrailLoop | src/grbl_proxy/streamer.py:555-651 | what each kind of message does after the last line |
| GrblStreamers.GrblStreamer.ReconcileWindow | src/grbl_proxy/streamer.py:405-451 | the two resyncs and the refusal to resync after a hold |
| GrblStreamers.GrblStreamer.StatusInSendLoop | src/grbl_proxy/streamer.py:396-451 | supervision comes before any resync |
| GrblStreamers.GrblStreamer.StatusInTrailLoop | src/grbl_proxy/streamer.py:588-614 | supervision first, then sustained Idle completes the job or shows dropped lines |
| GrblStreamers.GrblStreamer.StatusFault | src/grbl_proxy/streamer.py:732-770 | alarm state, entering a hold, and holding, from one report |
| GrblStreamers.GrblStreamer.TrackReport | src/grbl_proxy/streamer.py:745-750 | position and progress from one report |
| GrblStreamers.GrblStreamer.EnterMachineHold | src/grbl_proxy/streamer.py:772-791 | a hold begins once, unconfirmed |
| GrblStreamers.GrblStreamer.MachineHoldCheck | src/grbl_proxy/streamer.py:793-861 | resumed, moving, laser on, or proven safe, by what ReportsReadAlike says of the report |
| GrblStreamers.GrblStreamer.StallFault | src/grbl_proxy/streamer.py:863-899 | the three watchdog deadlines |
| GrblStreamers.GrblStreamer.BufferLooksPhantom | src/grbl_proxy/streamer.py:978-1012 | capacity tracking and the drained streak |
| GrblStreamers.GrblStreamer.NextResponse | src/grbl_proxy/streamer.py:680-721 | queued messages first; a read that waits goes on being polled around |
| GrblStreamers.GrblStreamer.MaybePoll | src/grbl_proxy/streamer.py:663-678 | a query when due, a lost link ignored |
| GrblStreamers.GrblStreamer.Pause | src/grbl_proxy/streamer.py:220-223 | the whole state after pause() |
| GrblStreamers.GrblStreamer.Resume | src/grbl_proxy/streamer.py:225-231 | the whole state after resume(), the watchdog and the grace period restarted |
| GrblStreamers.GrblStreamer.Cancel | src/grbl_proxy/streamer.py:233-237 | the whole state after cancel() |
| ProxyRuns.EveryProxyRunIsConsistent | src/grbl_proxy/proxy_core.py:168-595 | after every event sequence: buffer and idle timer exactly while BUFFERING, streamer and withheld reads exactly while EXECUTING or PAUSED, client flag and cancel flag agree with the state, and the streamer was told exactly what the state says |
| ProxyRuns.StepKeepsConsistent | src/grbl_proxy/proxy_core.py:168-595 | each handler keeps that consistency |
| ProxyRuns.ReportEndsTheJob | src/grbl_proxy/proxy_core.py:539-595 | a streamer's report always leaves EXECUTING and PAUSED; ERROR exactly when the job neither completed nor was told to cancel |
| ProxyRuns.OneAnswerEach | src/grbl_proxy/proxy_core.py:340-454 | a client line is acknowledged by the proxy or forwarded, exactly once, unless it is one of the unanswered cases; no other event acknowledges or forwards |
| ProxyRuns.RepliesAreConserved | src/grbl_proxy/proxy_core.py:340-454 | over every run, lines received equal lines acknowledged, forwarded and unanswered, and none is unanswered while files open and writes succeed |
| ProxyRuns.EventIsLawful | src/grbl_proxy/proxy_core.py:168-595 | whatever handler an event calls, a consistent proxy stays consistent and obeys the diagram and the laws below, a client line is answered or forwarded once, and a handler called during a capture or a job gives the controller no line; the handlers of the classes promise it |
| ProxyLaws.EventObeys | src/grbl_proxy/proxy_core.py:168-595 | for every event, by its bytes and text: the state it leads to; that a job keeps its text, gets one command for each heeded hold, resume and cancel, and a new one starts with the stored file or with the captured lines and one program end; what a capture takes; which bytes, lines and answers go out; and what is remembered |
| ProxyLaws.ByteAnswers | src/grbl_proxy/proxy_core.py:249-338 | a client byte reaches serial exactly when it is ! ~ Ctrl-X or 0x80 to 0xA1 in any state, or ? where no capture, job or error is on: at once if it steers a job, else with its chunk; and only a ? in the other states is answered |
| ProxyLaws.LineAnswers | src/grbl_proxy/proxy_core.py:375-454 | which answer a client line gets in each state, ok, error:9, none or the controller's own, and that in ERROR exactly laser-off and unlocking texts go out |
| ProxyLaws.WebAnswers | src/grbl_proxy/web/status.py:156-209 | an accepted web pause, resume or cancel writes ! ~ or Ctrl-X once when serial is there and takes it, a refused one nothing |
| ProxyRuns.BytesAreConserved | src/grbl_proxy/proxy_core.py:223-338 | over every run the bytes on serial are, in order and each once, exactly those that clients and web asked for in the state they found |
| ProxyRuns.QueryShowsTheProxy | src/grbl_proxy/proxy_core.py:815-846 | the one reply to `?`, parsed back: Alarm in ERROR, Hold while paused, Run while capturing, the machine's last reported state during a job, with the last report's position to the thousandth, feed and spindle, or zeros |
| ProxyCores.ProxyCore.constructor | src/grbl_proxy/proxy_core.py:119-162 | a new proxy is disconnected, with serial readable |
| ProxyCores.ProxyCore.OnClientConnected | src/grbl_proxy/proxy_core.py:168-187 | a connect drops a capture, keeps a running job |
| ProxyCores.ProxyCore.OnClientDisconnected | src/grbl_proxy/proxy_core.py:189-217 | a disconnect drops a capture, keeps a running job, leaves ERROR |
| ProxyCores.ProxyCore.WriteSyntheticStatus | src/grbl_proxy/proxy_core.py:815-846 | the status text for the state |
| ProxyCores.ProxyCore.ProcessRawByte | src/grbl_proxy/proxy_core.py:223-338 | what each real-time byte does in each state, as the step function and as ProxyLaws say |
| ProxyCores.ProxyCore.ProcessClientLine | src/grbl_proxy/proxy_core.py:340-454 | what a line does in each state, with its reply, as the step function and as ProxyLaws say |
| ProxyCores.ProxyCore.ProcessLineInError | src/grbl_proxy/proxy_core.py:381-427 | laser-off passes, $X and $H unlock, the rest is refused |
| ProxyCores.ProxyCore.EnterBuffering | src/grbl_proxy/proxy_core.py:763-785 | the buffer opens or the proxy stays in PASSTHROUGH, without a reply |
| ProxyCores.ProxyCore.FinalizeJob | src/grbl_proxy/proxy_core.py:787-813 | the archived file is the captured lines and one program end, and the streamer starts on it |
| ProxyCores.ProxyCore.StartStreamer | src/grbl_proxy/proxy_core.py:508-537 | without a serial connection back to PASSTHROUGH |
| ProxyCores.ProxyCore.OnStreamerDone | src/grbl_proxy/proxy_core.py:539-595 | the whole state after a job |
| ProxyCores.ProxyCore.OnIdleTimeout | src/grbl_proxy/proxy_core.py:871-876 | silence ends a capture |
| ProxyCores.ProxyCore.UpdateLastStatus | src/grbl_proxy/proxy_core.py:460-462 | the report synthetic replies are made from |
| ProxyCores.ProxyControl.Pause | src/grbl_proxy/web/status.py:156-172 | web pause, refused outside EXECUTING |
| ProxyCores.ProxyControl.Resume | src/grbl_proxy/web/status.py:174-190 | web resume, refused outside PAUSED |
| ProxyCores.ProxyControl.Cancel | src/grbl_proxy/web/status.py:192-209 | web cancel, refused without a job |
| ProxyCores.ProxyControl.StartUploadedJob | src/grbl_proxy/web/status.py:211-296 | an upload starts only from PASSTHROUGH or DISCONNECTED with serial up and a file that is there, readable and can be archived; otherwise nothing changes |
| ProxyCores.ProxyControl.StartExistingJob | src/grbl_proxy/web/status.py:298-358 | a stored job starts only from PASSTHROUGH or DISCONNECTED with serial up and a file that is there and readable; otherwise nothing changes |
| ProxyCores.ProxyControl.BeginExecution | src/grbl_proxy/web/status.py:360-383 | EXECUTING, serial withheld, streamer started |
| ProxyCores.ProxyControl.SendConsole | src/grbl_proxy/web/status.py:385-417 | console commands only while no client owns the link; unlocking from ERROR |
| EndToEnd.CaptureStoresTheJob | src/grbl_proxy/proxy_core.py:429-454 | start marker, lines and an ending, with any harmless events between: every non-empty line that is neither the end marker nor, by its text, a program end is captured, and the stored job is exactly those lines and one program end |
| EndToEnd.StoredJobStreams | src/grbl_proxy/streamer.py:267-276 | the last stored line is a program end by its text and no other is; what is read back is the captured non-blank lines and that one exactly when no line holds a line end |
| EndToEnd.JobReachesTheController | src/grbl_proxy/streamer.py:267-507 | the bytes written for a captured job are a whole-line prefix of it, all of it when it completes, with one program end, at the end |
| EndToEnd.StartedJobReachesTheController | src/grbl_proxy/web/status.py:211-383 | for a stored job started from the web they are a whole-line prefix of the stored file's lines, and all of them when it completes |
| EndToEnd.CarriageReturnSplits | src/grbl_proxy/streamer.py:267-276 | a captured line with a carriage return comes back as two |
| EndToEnd.RunObeys | src/grbl_proxy/streamer.py:220-237 | until it ends a run is paused exactly while its newest command is a pause, cancelled once one was a cancel |
| EndToEnd.StateMatchesStreamer | src/grbl_proxy/proxy_core.py:292-326 | PAUSED and EXECUTING say whether the streamer is paused, the cancel flag whether it is cancelled |
| EndToEnd.JobEndShows | src/grbl_proxy/proxy_core.py:539-595 | how a run ends decides the state the proxy ends in, and a fault's fail-safe came first |
| JobBuffers.JobBuffer.constructor | src/grbl_proxy/job_buffer.py:51-69 | an empty buffer |
| JobBuffers.JobBuffer.OpenFile | src/grbl_proxy/job_buffer.py:134-138 | current.gcode open and empty whatever was in it, or nothing changed |
| JobBuffers.JobBuffer.WriteLine | src/grbl_proxy/job_buffer.py:79-84 | the line joins the job; the disk is touched at every fiftieth line and then holds all |
| JobBuffers.JobBuffer.Flush | src/grbl_proxy/job_buffer.py:181-186 | the open file holds every line written |
| JobBuffers.JobBuffer.Finalize | src/grbl_proxy/job_buffer.py:92-176 | the archived file is exactly the lines written, with their count, and current.gcode is gone; a buffer never opened archives what was left there |
| JobBuffers.JobBuffer.Discard | src/grbl_proxy/job_buffer.py:86-157 | nothing stays open, and current.gcode and current.meta.json are gone |
| JobFiles.StoredLines | src/grbl_proxy/streamer.py:267-276 | the lines of a stored job, for any captured lines |
| JobFiles.StoredLinesStay | src/grbl_proxy/streamer.py:267-276 | they are the captured non-blank lines exactly when none of these holds CR or LF |
| Handover.RelayNeverReadsBesideTheStreamer | src/grbl_proxy/tcp_server.py:363-437 | in every interleaving without handshake timeouts the relay is never in a serial read while the streamer runs |
| Handover.StepKeepsOrderly | src/grbl_proxy/tcp_server.py:363-452 | every step of relay, finalizer, streamer or read keeps the three events and the read lock in order with where each of them is |
| Handover.DeliversFinishedReads | src/grbl_proxy/tcp_server.py:450-455 | when the relay takes its read's result the read has finished |
| Handover.HandoverCompletes | src/grbl_proxy/proxy_core.py:799-813 | a waiting finalizer is woken by the relay's turn, and the streamer starts, if and only if serial_read_idle is set or a relay is there that runs on |
| Handover.HandoverHangs | src/grbl_proxy/web/status.py:374-383 | otherwise it waits on, whatever happens, until a new relay comes or it is cancelled |
| Handover.WhoLeavesIdleCleared | src/grbl_proxy/tcp_server.py:392-448 | a relay that ends leaves serial_read_idle cleared exactly when it was, and the relay was cancelled, stopped in its read, or stopped before its first |
| Handover.DisconnectHangsTheNextJob | src/grbl_proxy/tcp_server.py:439-448 | a disconnect during a read, then a web job, is such a wait |
| Handover.RelayLooksAgain | src/grbl_proxy/tcp_server.py:366-372 | a woken relay reads only if the port is still free |
| Handover.OneReaderAtATime | src/grbl_proxy/serial_conn.py:158-180 | in every interleaving at most one read of relay, left-over reads and streamer holds the port |
| Handover.OrphanMayOverlap | src/grbl_proxy/tcp_server.py:439-448 | an interleaving in which the streamer starts while a left-over read holds the port, and waits for it |
| Handover.PortIsStrandedExactly | src/grbl_proxy/proxy_core.py:799-813 | in every interleaving the port is neither readable, streamed on, nor being handed over if and only if a finalizer was cancelled while it waited |
| Handover.CancelledFinalizerStrandsThePort | src/grbl_proxy/proxy_core.py:805-813 | after a finalizer cancelled while it waits, in whatever state, the port is never readable or streamed on again; a relay in a read finishes it in one turn and none begins another |
| Handover.StrandingHappens | src/grbl_proxy/tcp_server.py:233-258 | a dropped client's tasks cancel the finalizer in that state |
| HandoverCommands.CommandsAreLostExactly | src/grbl_proxy/proxy_core.py:508-537 | in every interleaving with commands: an answered cancel is forgotten by proxy and streamer exactly when every cancel of the job came before its streamer, and PAUSED shows beside a running streamer exactly when the newest pause did and no cancel came after |
| HandoverCommands.LosingACommand | src/grbl_proxy/web/status.py:156-209 | one cancel, or one pause, between a job's start and its streamer's is enough |
| HandoverCommands.StrandedJobShows | src/grbl_proxy/proxy_core.py:799-813 | a job whose port is stranded shows as EXECUTING or PAUSED for good, whatever is commanded |
| GrblProtocol.ReadStatusReport | src/grbl_proxy/grbl_protocol.py:128-191 | the parser's loop builds the report that ReportLaws.ReportReads describes |
| GrblProtocol.SplitLine | src/grbl_proxy/grbl_protocol.py:76-125 | the splitter builds the specified messages |
| GrblProtocol.LiftBlocks | src/grbl_proxy/grbl_protocol.py:105-113 | complete status blocks are lifted out and blanked |
| GrblProtocol.FindFaults | src/grbl_proxy/grbl_protocol.py:115-120 | fault tokens, each match skipped over |
| GcodeLaws.ProgramEndByText | src/grbl_proxy/proxy_core.py:60-63 | a line ends the program if and only if, after any white space, it is M or m and 2 or 30, with nothing, white space to the end, or a blank after that |
| GcodeLaws.NotEveryMEnds | src/grbl_proxy/proxy_core.py:60-63 | M5, M20 and M300 do not; a tab, m30 and a comment after a blank does |
| GcodeLaws.LaserOffByText | src/grbl_proxy/proxy_core.py:389-406 | a line passes as laser-off if and only if its first word is M or m, any zeros and a 5 |
| GcodeLaws.UnlockByText | src/grbl_proxy/proxy_core.py:408-424 | a line unlocks if and only if it is $X or $H in either case between white space |
| GcodeLaws.MarkersByWords | src/grbl_proxy/proxy_core.py:743-761 | a line matches a marker if and only if it has the marker's words, whatever the letter case, the white space around and between them, and leading zeros of numbers |
| GcodeLaws.FirstWord | src/grbl_proxy/proxy_core.py:52-57 | which words a text has, read off from the left |
| GcodeLaws.DropsExactly | src/grbl_proxy/proxy_core.py:52-57 | exactly the zeros between a letter and a digit with only zeros before them are dropped |
| Gcode.NormalizedIsNormal | src/grbl_proxy/proxy_core.py:52-57 | a normalized line is upper case, single-spaced, trimmed and without leading zeros in its numbers |
| Gcode.NormalizingEnds | src/grbl_proxy/proxy_core.py:52-57 | exactly such lines are left unchanged, and normalizing twice is normalizing once |
| Gcode.MarkerSpellings | src/grbl_proxy/proxy_core.py:743-761 | a marker is recognised in every spelling with its normal form and in no other, and is its own normal form's marker |
| ProtocolLaws.CleanStays | src/grbl_proxy/grbl_protocol.py:99-103 | a line that by its text is one message, an ok, an error, a numbered alarm or angle brackets, is handed on alone |
| ProtocolLaws.TangledGivesItsParts | src/grbl_proxy/grbl_protocol.py:95-125 | any other line gives exactly its parts, in order: the complete blocks, the fault tokens outside them unless it begins with a bracket, an ok if one ends it; or itself when it has none |
| ProtocolLaws.SplitTwice | src/grbl_proxy/grbl_protocol.py:95-125 | splitting any part of any line again gives just that part |
| ProtocolLaws.OneOkAtMost | src/grbl_proxy/grbl_protocol.py:95-125 | an ok is the last part of a line, so there is at most one |
| ProtocolLaws.LineAcknowledgesOnce | src/grbl_proxy/streamer.py:690-697 | one serial line hands the streamer at most one acknowledgement |
| ProtocolLaws.UnclosedStatusThenOk | src/grbl_proxy/grbl_protocol.py:81-94 | an unclosed fragment without a fault token, then ok, is exactly that ok |
| ProtocolLaws.NoFaultIsMissed | src/grbl_proxy/grbl_protocol.py:66-72 | scanning with skips finds the tokens at every position |
| ProtocolLaws.BlankedExactly | src/grbl_proxy/grbl_protocol.py:105-113 | exactly the characters inside complete status blocks are blanked |
| ProtocolLaws.EveryFaultIsRecovered | src/grbl_proxy/grbl_protocol.py:115-120 | on tangled lines that do not begin with a bracket every fault token outside complete blocks becomes a message, taken for the alarm, vendor fault or error its text says |
| ProtocolLaws.FaultTokenClassifies | src/grbl_proxy/grbl_protocol.py:209-333 | a fault token is an alarm with its number, a vendor fault exactly when the word is in capitals, and an error with its number in every other case of the letters |
| MessageLaws.ClassifiedByText | src/grbl_proxy/streamer.py:345-500 | for every line and every kind of message: it is taken for an ok, a vendor fault, an error with its number, an alarm, a status, a report that does not parse, feedback or a greeting if and only if its text says so, and for unknown if and only if it says none of them |
| MessageLaws.ErrorsByText | src/grbl_proxy/grbl_protocol.py:209-231 | an error text is the word error in any case, a colon, white space, digits and after white space perhaps a period, and nothing else |
| MessageLaws.FaultsByText | src/grbl_proxy/grbl_protocol.py:67-72 | the token a text begins with is an error or alarm with all its digits, and an error's period |
| MessageLaws.OkByText | src/grbl_proxy/grbl_protocol.py:63-66 | a text ends in an ok exactly when only white space follows it |
| ReportLaws.ReportReads | src/grbl_proxy/grbl_protocol.py:128-191 | for any state and any fields: each kind of field shows the last occurrence that is readable, names in either case; other names and unreadable values show nothing |
| ReportLaws.OnlyReportsRead | src/grbl_proxy/grbl_protocol.py:35-35 | nothing but a state and fields between bars in angle brackets reads as a report |
| ReportLaws.PrintedFieldShows | src/grbl_proxy/grbl_protocol.py:128-191 | among any other fields Bf:a,b reads (a, b), FS:a,b and Ov:a,b,c likewise, MPos, WPos and WCO to the thousandth, Pn and A keep their text, unless a later one of the kind follows |
| ReportLaws.FieldsByText | src/grbl_proxy/grbl_protocol.py:36-36 | a field is a name of letters, a colon and a value |
| ReportLaws.PairsByText | src/grbl_proxy/grbl_protocol.py:161-187 | a pair is two numbers with one comma |
| ReportLaws.TriplesByText | src/grbl_proxy/grbl_protocol.py:168-174 | a triple is three numbers with two commas |
| ReportLaws.PositionsByText | src/grbl_proxy/grbl_protocol.py:194-201 | a position is three decimals with two commas, in the order x, y, z |
| ReportLaws.StatusReadsBack | src/grbl_proxy/grbl_protocol.py:336-344 | printing then parsing gives the same state, feed and spindle, and the position to the thousandth |
| ReportLaws.PositionReadsBackExactly | src/grbl_proxy/grbl_protocol.py:336-344 | everything comes back unchanged exactly when the position is in whole thousandths |
| ReportLaws.PrintedStatusIsOneMessage | src/grbl_proxy/grbl_protocol.py:336-344 | the splitter leaves a printed status whole |
| Decimals.IntTextParses | src/grbl_proxy/grbl_protocol.py:161-187 | an integer printed in decimal reads back |
| Decimals.Fixed3Parses | src/grbl_proxy/grbl_protocol.py:194-201 | three-decimal text reads back as the rounded value |
| Decimals.DecimalsByText | src/grbl_proxy/grbl_protocol.py:37-37 | a decimal is a minus sign perhaps, digits, and a point with or without digits perhaps, with that value |
| Decimals.IntReads | src/grbl_proxy/grbl_protocol.py:161-187 | int() lets white space and a sign around digits pass |
| Decimals.IntsAreDigits | src/grbl_proxy/grbl_protocol.py:161-187 | what int() takes ends in a digit and, white space aside, holds only digits, underscores and a sign in front |
| SerialFraming.SerialConnection.ReadLine | src/grbl_proxy/serial_conn.py:158-212 | only complete lines leave the buffer, the tail stays, a failure drops it |
| SerialFraming.SerialConnection.CloseImmediately | src/grbl_proxy/serial_conn.py:139-156 | a partial line does not outlive its session |
| SerialFraming.ReadSession | src/grbl_proxy/serial_conn.py:180-212 | however the bytes were cut into reads, and wherever reads timed out, the non-empty lines and the tail are those of the byte stream |
| SerialFraming.ReadLink | src/grbl_proxy/serial_conn.py:139-212 | over any number of sessions of one connection: a failed session takes its unfinished line along, a session replaced by a further open leaves it to the next |
| SerialFraming.ReopenIsSeamless | src/grbl_proxy/serial_conn.py:363-394 | an open that replaces a session cuts no line: the lines are those of both sessions' reads in one |
| SerialFraming.FramesGrow | src/grbl_proxy/serial_conn.py:180-212 | new bytes never change lines already complete |
| TcpRouting.TcpServer.RouteBytes | src/grbl_proxy/tcp_server.py:318-352 | one chunk: bytes in order through the core, lines assembled, at most one write; the bytes tell whether that write holds a client line while a capture or a job is on |
| ChunkRouting.ChunkWriteExactly | src/grbl_proxy/tcp_server.py:318-352 | from every state the proxy can be in: the chunk's write holds a client line while the proxy captures (or streams a job) if and only if, among the chunk's lines and real-time bytes, a line that is no start marker comes while neither is on, and a start marker not followed by hold, resume or reset (or by them only after a program end) leaves one on at the end |
| ChunkRouting.WithoutDiscards | src/grbl_proxy/tcp_server.py:318-352 | without those bytes: if and only if a line stands before the first start marker |
| ChunkRouting.JobChunkWritesNoLine | src/grbl_proxy/tcp_server.py:318-352 | a chunk that finds a job running writes no line |
| ChunkRouting.ChunkReachesTheJob | src/grbl_proxy/tcp_server.py:348-352 | one chunk whose line is written into its own job, and one whose line is written into its own capture |
| TcpRouting.RoutingIsChunkFree | src/grbl_proxy/tcp_server.py:318-352 | in PASSTHROUGH the writes of a session, joined, are one function of the whole stream: real-time bytes first, then the line with its end replaced by LF |
| TcpRouting.SegmentedGrows | src/grbl_proxy/tcp_server.py:329-346 | what one more byte adds to that function |
| Reconnect.SerialPort.Tick | src/grbl_proxy/serial_conn.py:257-344 | one pass of the monitor, to its sleep or to the await of an open; when it looks for the port and ports are detected, the newest is taken |
| Reconnect.SerialPort.RunReconnectLoop | src/grbl_proxy/serial_conn.py:241-322 | the loop, its opens' ends and returns, and the failures and late opens in between |
| Reconnect.SerialPort.NoteIoFailure | src/grbl_proxy/serial_conn.py:119-137 | when the next attempt is due after a failure |
| Reconnect.SerialPort.RescanPort | src/grbl_proxy/serial_conn.py:324-344 | a moved port settles anew |
| Reconnect.SerialPort.CloseImmediately | src/grbl_proxy/serial_conn.py:139-156 | descriptor released, link down |
| Reconnect.TriesAreSettled | src/grbl_proxy/serial_conn.py:281-304 | an open is tried only after that port was there, for two seconds, at every tick that looked (all but those of a link marked connected without a descriptor) |
| Reconnect.HollowUnsettles | src/grbl_proxy/serial_conn.py:281-304 | a run with such a link tries a port that was gone less than two seconds before |
| Reconnect.TriesAreApart | src/grbl_proxy/serial_conn.py:119-137 | tries are at least the shorter of boot retry and reconnect interval apart |
| Reconnect.TriesExactly | src/grbl_proxy/serial_conn.py:119-304 | a tick that finds the link down tries if and only if its node is there, a tick at least two seconds ago saw it and no looking one has missed it since, and the last attempt's or failure's put-off, one second within three of an open and the reconnect interval otherwise, is over |
| Reconnect.NoStaleDescriptor | src/grbl_proxy/serial_conn.py:257-280 | after the release step, and at a tick's end, a descriptor means a link that is up and a node that is there |
| Reconnect.HollowExactly | src/grbl_proxy/serial_conn.py:308-316 | in every run the link is marked connected without a descriptor if and only if an open's await returned after its port had been closed, and neither a late open nor a shutdown came since |
| Reconnect.ClosedBehindExactly | src/grbl_proxy/serial_conn.py:308-316 | and an open's port is closed before its await returns exactly by a failure or a shutdown in between |
| Reconnect.HollowHappens | src/grbl_proxy/serial_conn.py:223-239 | one failing write in between is enough |

## Left out

- Reading of the clock within one stretch of running: every reading between two awaits is the same.
- Byte-level input of the streamer: it takes messages as `GrblProtocol.MessagesOf` gives them for a line, and message texts and log lines are not modelled.
- Logging, the serial trace, `on_status`, `machine_hold` texts and the vendor fault table.
- The real-number model of floating point: clock values, positions and dwells are exact reals.
- Text outside ASCII: white space, digits and case are ASCII; lines with bytes from 0xA2 up, and UTF-8 decoding with replacement, are not covered.
- Handlers of `ProxyCore` that interleave at their awaits: they are atomic steps except in `Handover`, so a second finalizer that starts during the first one's file writes is not modelled.
- Handshake timeouts (two seconds) of finalizer and relay, the idle poll, `reset_on_connect`, `shutdown` and `emergency_stop`.
- Uploading a web job, the names jobs are archived under, and metadata files.
- Failing file writes and deletions while capturing and finalizing; history rotation; metadata JSON.
- JobBuffers.JobBuffer.Discard: deletions are taken to succeed; the code ignores one that fails.
- The heuristic burst detector, configuration, HTTP routes and the dashboard.
- `run()` cancelled before its first step reports nothing; it is outside the run model.
- SerialFraming.ReadSession: a read cancelled on its way loses its bytes, and the statement is about the bytes that were taken in.
- TcpRouting.TcpServer.RouteBytes: what is said of client lines in its write is said for a write that succeeds; a failing one writes nothing.
- TcpRouting.RoutingIsChunkFree: for streams of ASCII and real-time bytes (below 0xA2) without a start marker, with writes that succeed.
- Handover.RelayNeverReadsBesideTheStreamer: about one relay task at a time; the idle poll's reads are not part of it.
