# Verified model of emeet-pixyd

emeet-pixyd is a Linux daemon for the EMEET PIXY webcam. It talks to the camera
over hidraw in a two-report dialect (a config, a pause, a commit) and in
single-report V2 commands, follows plugging and unplugging, keeps the user's
chosen mode across power cycles and restarts, turns tracking and privacy on and
off around calls, mirrors presets into the camera's own slots, streams MJPEG,
and pushes state changes to web clients. Its repository also holds tools that
unpack the vendor's Inno Setup installer.

This project models the parts whose correctness spans several functions, calls or
threads, and proves what they are for. `dafny verify dfyconfig.toml` checks all
of it.

| module | models |
|---|---|
| `Base` | bytes, optional values, little-endian words |
| `CallTransform` | the in-place call-instruction transform and its blockwise driver |
| `SetupChunks` | the checksum de-chunker and the cutter of one solid stream into files |
| `JpegStream` | the JPEG frame extractor over a reader with unread, with its shared buffer |
| `SseLines`, `SseMessages` | the chunk-fed line splitter and the message assembler of the bundled Datastar client |
| `AutoManage` | the debounced call detector |
| `Broadcast` | the fan-out hub and its clients, in every interleaving |
| `Float32`, `PixyWire`, `PixyDevice` | binary32 numbers, the wire formats and parsers, the camera's own state machine |
| `Presets`, `PresetPull`, `PullCounts` | named presets, their slots, push, and the pull sweep with what its counters mean |
| `DaemonSystem`, `DaemonSafety`, `DaemonTheorems` | the daemon's threads and the camera as one state machine, its invariant, and the results about every run |
| `DaemonSchedules`, `DaemonReassert`, `DaemonIntent`, `DaemonSync` | concrete schedules of that machine; privacy-trap re-asserts; reconcile, the user's intent and what is persisted; queries that find no handle, and syncs in flight |
| `DaemonCalls`, `DaemonReconcile` | the device calls statement by statement over the daemon's fields, each shown to be a run of the state machine; what a reconcile comes to |
| `LockOrder`, `LockPaths` | nested locks with ranks, and every locking path of the daemon |

Code that changes things step by step is imperative here too: methods over
arrays and objects, proved equal to a specification function, with the laws
proved about that function. The concurrent parts are state machines: `Enabled`
says when a step may happen, `Apply` what it does, `Runs` and `After` quantify
over every finite sequence of steps.

## Where code and comments differ

The model follows the code; each of these has a lemma with the exact condition.

- A re-assert is said to be skipped once the user's intent has changed, but the
  check comes before hidMu. `DaemonReassert.ReassertOutcome` says what every run
  leaves in belief of a command committed in between: that command's mode if the
  re-assert's first write never completes, idle if only its bounce does, else the
  re-assert's mode. The command is safe in every run if and only if both asked for
  idle (`DaemonReassert.GapCommandKept`); `DaemonReassert.OverrideIsReachable` is a
  lossless run of a started daemon that ends tracking after privacy was commanded.
- The same bounce can destroy the very intent it protects: a tracking re-assert
  whose last write is lost leaves idle in belief, camera and file
  (`DaemonReassert.BounceOnlyRuns`, `DaemonCalls.ReassertEffect`).
- Nothing in reconcile is said to be fatal, but every query reads the hidraw handle
  anew and panics without one. A run ends with the daemon down exactly if one of its
  queries found no handle, a sync served over HTTP excepted, whose panic is recovered
  (`DaemonSync.PanicsExactly`, `DaemonSync.RunPanicsExactly`). No earlier check helps:
  unplugging the camera before any of the queries does it (`DaemonSync.UnplugPanics`,
  reached in `DaemonSync.PanicIsReachable` and `DaemonSync.UnplugIsReachable`).
- The persisted mode is said to win from the moment it lands on disk, but a fresh
  install's sync past its look at intent still replaces it, at every stage. A sync in
  flight keeps the believed mode in every run if and only if it has had the camera's
  answer and that cannot be used or is the believed mode; with the power left on, also
  if it has not asked yet and the camera is in that mode (`DaemonSync.SyncKeepsBelief`,
  run by run in `DaemonSync.SyncOutcome`, reached at each stage in
  `DaemonSync.SyncOverrideIsReachable`).
- A pull is said to be reported as unreadable when every attempted slot failed. It is
  so reported exactly if the first three answers are failures, or if after one or two
  of them a slot is read whose position is new and finds the collection full
  (`PresetPull.ReportedDead`, with `PresetPull.DeadReportThoughRead` as an instance).
- The fan-out is said to be thread-safe, but unsubscribing a channel that a
  broadcast has already snapshotted makes the later send panic
  (`Broadcast.CloseDooms`, `Broadcast.PanicIsReachable`).
- The assembler joins data lines by line feeds, but loses leading empty ones
  (`SseMessages.DataIsJoined`, `SseMessages.ReceivedIsStandard`).
- A speed that is zero or negative is said to carry no preference and to be skipped;
  one that is not a number is sent (`Presets.PreferenceMeans`).

## Model

| member | source | states |
|---|---|---|
| CallTransform.RewriteOperand | tools/inno661/calltransform.py:24-35 | the 32-bit arithmetic on the four operand bytes, in place, is the 24-bit move with conditional complement, and no other byte changes |
| CallTransform.TransformBlock | tools/inno661/calltransform.py:14-38 | the in-place loop, in both directions, turns the array into the specification's image of it |
| CallTransform.DecodeStored | tools/inno661/calltransform.py:41-52 | the blockwise driver with its wrapping offset is the concatenation of independent block transforms at unwrapped addresses, or the identity |
| CallTransform.MachineArithmetic | tools/inno661/calltransform.py:25-35 | masking to 24 and 32 bits around the addition, the sign test and the byte stores computes the move modulo 2^24 |
| CallTransform.OperandInverse | tools/inno661/calltransform.py:24-35 | for every operand and address, decode undoes encode and encode undoes decode |
| CallTransform.DecodedTarget | tools/inno661/calltransform.py:24-35 | a site with high byte 0 decodes to the one displacement in [-2^23, 2^23) that reaches the stored 24 bits from the next instruction |
| CallTransform.EncodedHighByte | tools/inno661/calltransform.py:24-35 | encode reaches high byte 0 on exactly the sign-extended 24-bit operands, 0xFF on exactly the others |
| CallTransform.BlockInverse | tools/inno661/calltransform.py:14-38 | for every buffer and offset the two directions restore the buffer exactly |
| CallTransform.SameSites | tools/inno661/calltransform.py:20-38 | the scan of the result visits the same opcode positions as the scan of the input |
| CallTransform.AtSite | tools/inno661/calltransform.py:20-38 | the operand of a visited opcode becomes its rewriting for the next instruction's address |
| CallTransform.OffSite | tools/inno661/calltransform.py:20-38 | every byte outside a visited operand is kept |
| CallTransform.AddressWraps | tools/inno661/calltransform.py:25-51 | offsets equal modulo 2^24 give the same result, so the wrap of the running offset is invisible |
| CallTransform.StoredInverse | tools/inno661/calltransform.py:41-52 | for files of every length the blockwise loop with the other direction is the inverse |
| CallTransform.FileAtSite | tools/inno661/calltransform.py:41-52 | in a whole file the operand of the opcode at index p is rewritten for address p + 5, whichever block it is in |
| CallTransform.FileOffSite | tools/inno661/calltransform.py:41-52 | in a whole file every byte outside a visited operand is kept |
| CallTransform.FileSameSites | tools/inno661/calltransform.py:41-52 | in a whole file both passes visit the same opcodes |
| CallTransform.VisitedExactly | tools/inno661/calltransform.py:20-52 | a pass over a file visits a position if and only if it holds E8 or E9, no visited operand covers it, and four more bytes follow in its block of 65536 |
| SetupChunks.DechunkArea | tools/inno661/extract_setup0.py:75-85 | the inner loop reads the area as specified and, on success, ends exactly the stored size further on |
| SetupChunks.DechunkSetup0 | tools/inno661/extract_setup0.py:58-98 | the block loop returns the payloads of all blocks up to a recognised end, or the first error |
| SetupChunks.DechunkEncode | tools/inno661/extract_setup0.py:75-85 | splitting data of any length into checksum-prefixed pieces and de-chunking returns the data, wherever the area stands |
| SetupChunks.AcceptsExactly | tools/inno661/extract_setup0.py:75-85 | for every place and size, areas with an empty last piece or running past the end included: accepted if and only if the whole pieces are chunked data and the last piece has the checksum of what is there |
| SetupChunks.AcceptsEncoded | tools/inno661/extract_setup0.py:75-85 | inside the data and without an empty last piece, an area is accepted with a result if and only if it is that result's chunked form |
| SetupChunks.BlocksDecode | tools/inno661/extract_setup0.py:62-98 | a stream of encoded blocks decodes to the concatenated payloads |
| SetupChunks.StreamDecodes | tools/inno661/extract_setup0.py:58-98 | after 64 bytes of setup id, a checksum of four and 49 bytes of encryption header a stream of encoded blocks decodes to their payloads |
| SetupChunks.PayloadMeans | tools/inno661/extract_setup0.py:86-92 | a block flagged zero is taken as it is; any other is decompressed from its sixth byte with the dictionary size in its second to fifth, and is too short below five bytes |
| SetupChunks.ExtractFiles | tools/inno661/extract_files.py:57-70 | every file is the slice at the sum of the earlier sizes, for any chunking by the decompressor; truncation is reported exactly when the stream is too short, and then the last file written holds what there was of it; put back into their stored form the files are the stream, all of it when truncated |
| SetupChunks.InstalledMeans | tools/inno661/extract_files.py:63-64 | exactly the files with the third lowest flag bit are decoded |
| SetupChunks.FilesAreStream | tools/inno661/extract_files.py:57-70 | nothing is lost or doubled: the files cut so far, re-encoded where they were decoded, are the stream up to where the cutter stands |
| SetupChunks.ExtractTiled | tools/inno661/extract_files.py:57-70 | when the locations tile the stream every file is the stream's bytes at its own location, as installed |
| JpegStream.FrameReader.ScanForSOI | stream.go:320-356 | one start-marker step of the reader, with the unread of a lone marker byte |
| JpegStream.FrameReader.TakeToken | stream.go:389-416 | one in-frame step: a byte, or a marker with its successor, ending the call at the end marker |
| JpegStream.FrameReader.ExtractFrame | stream.go:358-425 | the bounded loop with overflow restart computes the specified outcome, position and buffer |
| JpegStream.FrameReader.WriteFrames | stream.go:265-315 | the serving loop writes the frames of the repeated calls that share one buffer, up to exactly the first cancelled round or failed write, and keeps the last frame extracted |
| JpegStream.FrameIsSlice | stream.go:358-425 | for every input and initial buffer a returned frame is a contiguous slice of what was read, starts FF D8, ends FF D9 and has at most the buffer limit plus 2 bytes |
| JpegStream.StepConsumes | stream.go:366-416 | every iteration that goes on has consumed at least one byte |
| JpegStream.EndsAtEnd | stream.go:358-425 | a call that finds the input ended has read all of it |
| JpegStream.FrameStart | stream.go:366-416 | a frame starts at the leftmost unread start marker, or, after an overflow from there, more than the buffer limit later |
| JpegStream.FrameRecovered | stream.go:358-425 | a gap without a start marker and a frame yield that frame if and only if it fits the size and iteration limits |
| JpegStream.StreamRecovered | stream.go:265-315 | the loop returns exactly the frames of a well-formed stream, in order |
| SseLines.ScanLine | static/datastar.js:870-880 | the inner scan finds the next line end and first colon and notes a closing CR |
| SseLines.Consume | static/datastar.js:866-882 | from the state of the previous chunk the outer loop emits the completed lines and leaves the unterminated rest |
| SseLines.LineSplitter.Feed | static/datastar.js:857-885 | after every chunk the emitted lines are the one-shot lines of everything fed so far |
| SseLines.LineSplitter.FeedAll | static/datastar.js:857-885 | for every stream and every chunking the emitted lines and colon indices are those of section 9.2.5 of the WHATWG HTML standard |
| SseLines.SplitConcat | static/datastar.js:857-885 | splitting may stop anywhere, even between CR and LF, and resume with the rest and the CR flag |
| SseLines.SplitIsLines | static/datastar.js:857-885 | the resumable reading emits the lines of the one-shot reading |
| SseMessages.Client.Take | static/datastar.js:889-915 | one line updates the record, calls back, or dispatches the message |
| SseMessages.LineMeans | static/datastar.js:889-915 | which bytes are the four field names, which one is dropped after the colon, what joins data lines, and that comments and other fields do nothing |
| SseMessages.Client.Receive | static/datastar.js:857-921 | what a client calls back with depends on the bytes received, never on the chunking |
| SseMessages.DataIsJoined | static/datastar.js:895-901 | the assembled data is the lines joined by LF if and only if there is at most one line or the first is not empty |
| SseMessages.LeadingEmptyDataLineIsLost | static/datastar.js:895-901 | an empty line and `x` assemble to `x`, where the standard has a line feed in front |
| SseMessages.ReceivedIsStandard | static/datastar.js:895-916 | what the assembler makes of events equals what section 9.2 of the WHATWG HTML standard makes of them if and only if no event starts with an empty data line followed by more |
| SseMessages.EventsArrive | static/datastar.js:886-916 | rendered events assemble in order with names and ids; the outputs are those of the standard, data included, under exactly that condition |
| SseMessages.ReceiveEvents | static/datastar.js:857-921 | end to end, any chunking of rendered events yields the same outputs, those of the standard under exactly that condition |
| AutoManage.AutoManager.HandleCallStart | auto.go:13-65 | the calls made, the mode reached and the errors recorded at a call start, per auto mode |
| AutoManage.AutoManager.HandleCallEnd | auto.go:67-95 | the calls made, the mode reached and the errors recorded at a call end, per auto mode |
| AutoManage.CallStartByMode | auto.go:13-65 | the calls of a start in each of the four auto modes: tracking in full and tracking-only unless tracking already, audio and source in full alone |
| AutoManage.CallStartOutcome | auto.go:13-65 | after a start the camera is tracking exactly where one of those modes asked for it and the write succeeded, and the errors count exactly the failed calls |
| AutoManage.CallEndByMode | auto.go:67-95 | an end asks for privacy in every mode but off and notifies in all; it ends in privacy if that write succeeds, and the errors count exactly the failed calls |
| AutoManage.AutoManager.Count | auto.go:130-147 | the clamped counters are the minimum of the debounce count and the trailing run of each polarity |
| AutoManage.AutoManager.Decide | auto.go:148-172 | a call starts or ends exactly when the history's settled polarity changes |
| AutoManage.AutoManager.Tick | auto.go:97-187 | for every sequence of observed polls counters, call flag and call history refine the specification over the whole history; calls made, camera and errors are those of the poll from the mode that the reconcile after a re-probe leaves |
| AutoManage.PollStep | auto.go:130-172 | what one more poll does to trailing run and settled polarity |
| AutoManage.FlipMeans | auto.go:157-171 | a call starts or ends with the last of debounce-count equal polls of that polarity |
| AutoManage.FlipsSpaced | auto.go:157-171 | any two starts or ends are at least the debounce count of polls apart |
| AutoManage.FlipsAlternate | auto.go:157-171 | starts and ends strictly alternate, beginning with a start, and the call flag is their parity |
| AutoManage.CameraFollowsCalls | auto.go:97-187 | over every run of ticks with the camera there, in modes that manage privacy and with writes that succeed, the lens is off between calls, and it tracks during calls where every tick is in a mode that manages tracking |
| AutoManage.OneNotificationPerFlip | auto.go:97-187 | over every watched history each call start and call end, and nothing else, is notified, once |
| Broadcast.Broadcaster.Subscribe | sse.go:27-36 | a fresh channel with an empty buffer, nothing else changed |
| Broadcast.Broadcaster.Unsubscribe | sse.go:38-52 | the channel is removed and closed if it was subscribed |
| Broadcast.Broadcaster.Broadcast | sse.go:54-70 | every subscriber gets one event unless its buffer is full |
| Broadcast.InvStep | sse.go:27-70 | every step of hub and clients keeps: who was offered a broadcast has an event, is rendering, or has rendered it |
| Broadcast.NoStaleIdleClient | handlers.go:268-285 | in every reachable state a waiting client with an empty buffer has rendered at least every broadcast begun after its subscription that has sent to it |
| Broadcast.EventsAccounted | sse.go:54-70 | over every run what was waiting and what was sent to a subscribed client is waiting, taken, or dropped at a send that found eight waiting; it renders once per event taken |
| Broadcast.SentOnce | sse.go:54-70 | no broadcast sends twice to the same channel |
| Broadcast.CatchesUp | handlers.go:268-285 | left alone a client can always take what waits and has then rendered the newest state |
| Broadcast.UpdateArrives | sse.go:54-70 | a run in which one change reaches a waiting client |
| Broadcast.CloseDooms | sse.go:38-70 | a send to a closed channel becomes possible exactly by unsubscribing a channel that a broadcast still has to send to |
| Broadcast.DoomedPanics | sse.go:38-70 | from every state so reached there is a send that is possible and panics |
| Broadcast.SafeRunsNeverPanic | sse.go:38-70 | runs without such an unsubscribe never panic |
| Broadcast.PanicIsReachable | sse.go:38-70 | the shortest run that does |
| Float32.OfIntExact | internal/pixy/v2head.go:374-375 | every integer below 2^24 in magnitude survives encoding as binary32 and decoding |
| PixyWire.FramedPayload | internal/pixy/v2head.go:193-223 | a framed answer parses to its body exactly when the head echo matches, in either motor routing, and the body suffices; otherwise to the right error |
| PixyWire.AnswerLengths | internal/pixy/v2head.go:193-223 | an answer of any length is accepted exactly with eight bytes, the body wanted and the echo, and mismatched exactly when the echo that is there differs |
| PixyWire.ModeBytesSent | hid.go:297-315 | the config, commit and query reports byte by byte, for each interface and mode |
| PixyWire.MotorBytesSent | motor.go:30-146 | the motor, preset and target reports byte by byte, motors 0, 1 and 2 being pan, tilt and zoom, numbers lowest byte first |
| PixyWire.AnswerMeans | hid.go:245-295 | which byte sequences are answers to a state query, and what mode, audio mode or gesture they report |
| PixyWire.PtzValues | internal/pixy/v2head.go:317-323 | whatever bit patterns were read, the preset values are within the axis limits |
| PixyWire.ClampIsNearest | internal/pixy/pixy.go:491-493 | clamping gives the nearest value in range and keeps exactly the values in range |
| PixyWire.RoundedInteger | internal/pixy/v2head.go:317-323 | a small integer survives encoding, rounding and conversion |
| PixyWire.RoundedMeans | internal/pixy/v2head.go:317-323 | a number that rounds to one of 64 bits is that integer, every other is the platform's |
| PixyDevice.Simulator.Configure | pixy_simulator_test.go:140-170 | a config is validated and becomes pending, or nothing changes |
| PixyDevice.Simulator.CommitPending | pixy_simulator_test.go:174-208 | a commit applies and uses up its interface's pending config, or nothing changes |
| PixyDevice.Simulator.ApplyConfig | pixy_simulator_test.go:210-219 | exactly the interface's mode is set |
| PixyDevice.Simulator.SetV2 | pixy_simulator_test.go:479-527 | a V2 SET is validated and stored, or nothing changes |
| PixyDevice.Simulator.Send | pixy_simulator_test.go:668-701 | routing of a report: V2 SET, then commit, then config |
| PixyDevice.V2GetBytes | pixy_simulator_test.go:390-470 | which device, category and id bytes make a query a V2 GET, with and without the motor routing |
| PixyDevice.SetHeads | pixy_simulator_test.go:336-461 | which bytes make a report a V2 SET |
| PixyDevice.MotorSetMeans | pixy_simulator_test.go:336-531 | speed and position SETs of any length, byte by byte: rejected, or one motor's number is replaced |
| PixyDevice.PresetSetMeans | pixy_simulator_test.go:336-531 | the two preset SETs of any length: rejected, or one slot saved or given a mode |
| PixyDevice.TargetSetMeans | pixy_simulator_test.go:336-531 | the target SET of any length: rejected, or the variant and its three numbers stored |
| PixyDevice.LegacyAccepts | pixy_simulator_test.go:138-208 | exactly which other reports are accepted, and how each of the rest is rejected |
| PixyDevice.MotorAnswers | pixy_simulator_test.go:533-666 | what motor speed and position queries are answered, under either routing |
| PixyDevice.OtherAnswers | pixy_simulator_test.go:533-666 | what preset, target and device mode queries are answered |
| PixyDevice.ReportEffect | pixy_simulator_test.go:668-701 | for every byte sequence: rejected reports change nothing, V2 SETs leave modes and pending configs alone, configs only become pending, commits move one interface to exactly its pending byte |
| PixyDevice.LegacyRouted | pixy_simulator_test.go:322-327 | config and commit reports, bare or zero-padded, are never taken for anything else |
| PixyDevice.V2Routed | pixy_simulator_test.go:449-461 | every V2 SET the daemon emits, bare or zero-padded, is taken as that SET |
| PixyDevice.ConfigThenCommit | pixy_simulator_test.go:138-219 | config then commit moves that interface to that mode and leaves every other mode and pending config as it was |
| PixyDevice.QueriesReadCommitted | hid.go:245-295 | the three state queries parse to the committed modes, whatever is pending |
| PixyDevice.PosStored | motor.go:131-138 | a position report stores that number for that motor and nothing else |
| PixyDevice.PresetStored | motor.go:142-146 | a save report stores the current position in that slot and nothing else |
| PixyDevice.SpeedStored | motor.go:30-37 | a speed report stores that speed for that motor and nothing else |
| PixyDevice.TargetStored | motor.go:44-48 | a target report stores the variant with zero arguments, and variants above 3 change nothing |
| PixyDevice.PresetModeStored | pixy_simulator_test.go:514-527 | a mode change keeps a slot's position, except that an occupied slot without one takes the current position |
| PixyDevice.SlotReadBack | internal/pixy/v2head.go:334-372 | a slot query parses to the slot's mode and, with full answers, to its stored position |
| Presets.StoredIsAdditive | internal/pixy/pixy.go:597-609 | storing a preset adds or replaces exactly that one; it is refused exactly for its name, or when a new name finds sixteen |
| Presets.TrimmedMeans | internal/pixy/pixy.go:533-560 | what is checked of a name is all but the white space at its ends |
| Presets.SpacesAre | internal/pixy/pixy.go:533-560 | the white space that is trimmed, character by character |
| Presets.NameRules | internal/pixy/pixy.go:533-560 | a name is valid exactly with one to 32 characters between its white space, none a separator or control character |
| Presets.Store.Set | internal/pixy/pixy.go:597-609 | the name check, the limit for new names, and the update, or nothing changes |
| Presets.Store.SortedNames | internal/pixy/pixy.go:571-580 | exactly the stored names, strictly ascending |
| Presets.BeforeMeans | internal/pixy/pixy.go:571-580 | the order of the names: the first difference decides, a beginning comes before its continuations |
| Presets.Store.SlotOf | commands.go:610-621 | the slot found is one more than the number of stored names before it |
| Presets.SlotInjective | commands.go:610-621 | two stored names never share a slot |
| Presets.SlotRange | commands.go:610-621 | the slots of stored names are between one and the number of presets, hence with the row above exactly those |
| Presets.Push | commands.go:600-659 | the errors in order, and otherwise the device after speeds, three moves and the save, each write ending as the environment says |
| Presets.PreferenceMeans | motor.go:100-116 | a speed is sent exactly if it is greater than zero or not a number |
| Presets.SpeedsArrive | motor.go:100-126 | after the speed reports each axis has its own preference if it has one, those before it were confirmed and its own write arrived, and its old speed otherwise; nothing else changes |
| Presets.PushSetsSpeeds | commands.go:632-656 | the same of a whole push, however its writes end; with all delivered every axis with a preference has it and the others keep their speed |
| Presets.SendEach | motor.go:170-202 | reports are written until the first that fails |
| Presets.PushKeepsModes | commands.go:632-656 | however the writes end a push changes no camera, audio or gesture mode and no pending config |
| Presets.SavedAt | commands.go:640-656 | move and save succeed exactly when all four writes are delivered, and then the slot holds the position |
| Presets.PushSaves | commands.go:632-656 | a successful push changes only speeds, position and its own slot |
| Presets.PushedComesBack | internal/pixy/v2head.go:317-372 | a pushed preset reads back clamped, hence unchanged exactly when it was in range |
| PresetPull.PullSweep.RecordFailure | commands.go:703-712 | one failure is booked and the abort threshold reported |
| PresetPull.PullSweep.AdmitReading | commands.go:720-755 | known, no room, reported or stored; the store cannot fail |
| PresetPull.PullSweep.Visit | commands.go:827-862 | one slot's answer is counted in exactly one way, which `PullCounts.VisitCounts` reads off the answer |
| PresetPull.Pull | commands.go:803-876 | collection, result and saving of the whole sweep, dry or real, whatever other commands make of the collection between two slots; `PullCounts` says what its counters are |
| PresetPull.HwNameValid | commands.go:741-749 | the names a sweep makes are always valid |
| PresetPull.PullAccounts | commands.go:827-862 | under any such edits pulled, empty, skipped, occupied, failed and limit-hit slots add up to the slots attempted; aborted if and only if the last three attempts failed; gone if and only if it ended early for no other reason |
| PresetPull.DeadCounters | commands.go:761-784 | the report in the sweep's counters, under any edits between slots: some slot failed and all attempted ones did, not counting one without room |
| PresetPull.ReportedDead | commands.go:761-784 | under any such edits the sweep is reported unreadable if and only if its first three answers are failures, or the slot after one or two failures is read, new and finds the collection full; and what the report then says |
| PresetPull.DeadReportThoughRead | commands.go:761-784 | a sweep reported unreadable although a slot was read |
| PresetPull.PullIsAdditive | commands.go:720-755 | no entry is changed or removed, the limit is never passed, only clamped positions under hw names are added, a dry run changes nothing |
| PresetPull.SweepStores | commands.go:827-862 | room runs out exactly when the free positioned slots attempted do not fit; otherwise all are stored |
| PresetPull.PullStores | commands.go:827-862 | a free positioned slot is stored, clamped, if and only if no answer up to it lost the device, no three before it in a row failed, and it fits together with the free positioned slots before it |
| PresetPull.PushThenPull | commands.go:600-876 | after a push with full answers a pull stores an entry under the slot's hw name if and only if it fits together with the free positioned slots before it, and that entry is the clamped preset, the same exactly when it was in range |
| PresetPull.LimitExactly | commands.go:827-862 | starting from the answers and the collection: a real sweep runs out of room if and only if some free positioned slot with unbroken answers up to it does not fit together with those before it |
| PresetPull.DryRunPredicts | commands.go:733-752 | the real run pulls a prefix of what the dry run reports; the same list, and then the same report, if and only if the collection is full or no slot overflows it, hence whenever all free positioned slots fit |
| PullCounts.VisitCounts | commands.go:827-862 | one slot more changes the counters read off the answers as the sweep does |
| PullCounts.PullEnds | commands.go:827-862 | where a sweep ends, under any edits between slots: the first slot without room for a new name or third failure in a row, before the first that finds the device gone, or after eight |
| PullCounts.PullCounters | commands.go:803-876 | dry or real, under any edits between slots: empty counts the slots not set, occupied those set without a position, skipped those whose name was there, failures the failed answers; the pulled names are the new ones in order; and the collection that is left |
| DaemonCalls.Daemon.constructor | main.go:132-166 | a started daemon has the loaded or default state and the probe's view |
| DaemonCalls.Daemon.ApplyProbeResult | probe.go:323-351 | presence is overwritten, strikes are cleared exactly when both nodes are there, belief is untouched |
| DaemonCalls.Daemon.RecordSendFailure | circuitbreaker.go:29-44 | one strike, and a re-probe while the breaker stays closed |
| DaemonCalls.Daemon.SaveState | state.go:126-160 | a completed save replaces the file and establishes intent, an incomplete one leaves the file |
| DaemonCalls.Daemon.SetDeviceState | device.go:16-71 | guard, config, cancellation, commit and belief, with their accounting |
| DaemonCalls.Daemon.SetTracking | device.go:73-88 | a successful non-privacy write while armed asks for one re-assert of its mode, nothing else does |
| DaemonCalls.Daemon.Reassert | privacy_trap.go:60-121 | belief check, idle bounce, mode write |
| DaemonCalls.Daemon.SendV2Set | motor.go:170-202 | guard, one report, accounting |
| DaemonCalls.Daemon.ReassertSpeeds | motor.go:100-126 | speeds are sent until the first failure |
| DaemonCalls.AdoptValues | device.go:331-400 | each value read replaces the believed one where it differs, and the change is reported exactly |
| DaemonCalls.Daemon.SyncState | device.go:311-363 | all three modes are adopted from the hardware, or nothing when refused |
| DaemonCalls.Daemon.ReconcileOnDeviceAppear | device.go:416-475 | fresh install adopts, otherwise the persisted mode is re-asserted, perhaps asking for a trap re-assert, speeds follow, audio and gesture are adopted; `DaemonReconcile` says what that leaves |
| DaemonCalls.SetStateEffect | device.go:16-71 | belief changes if and only if the write succeeds, and then camera and belief both have its mode; other modes never change; it succeeds exactly when guarded, delivered and not cancelled |
| DaemonCalls.SetStateLands | device.go:16-71 | the camera takes the mode exactly when the guard holds and both reports reach it, whatever the call is told |
| DaemonCalls.ReassertEffect | privacy_trap.go:60-121 | belief, camera and file in every case: belief differs, bounce fails, bounce succeeds and the mode's write fails, both succeed |
| DaemonCalls.ReconcileServesIntent | device.go:416-475 | with persisted intent reconcile never changes the believed mode, and the camera ends in it when its write succeeds or none is needed |
| DaemonCalls.CallIsRun | device.go:16-71 | an undisturbed mode write ends exactly where its steps in the state machine end |
| DaemonCalls.MotorCallIsRun | motor.go:170-202 | an undisturbed motor report ends exactly where its steps in the state machine end |
| DaemonCalls.SendsAreTransfers | motor.go:100-202 | several sends are the transfers of their reports up to the first that fails and strike at most once; with the guard down nothing is sent |
| DaemonCalls.PushThroughGuard | commands.go:632-656 | a push through the guard leaves the camera as the plain transfers do while the guard holds before and after the speeds; otherwise nothing of the move or the save is sent |
| DaemonCalls.SyncEffect | device.go:311-363 | a sync that is not refused leaves belief equal to the hardware in all it could read and as it was in the rest, and changes nothing else when nothing differs |
| DaemonReconcile.SyncIsRun | device.go:311-363 | an undisturbed sync ends exactly where its steps in the state machine end |
| DaemonReconcile.ReconcileIsRun | device.go:416-475 | an undisturbed reconcile is a run of the state machine: it ends in that run's fields and camera, the daemon goes down exactly when the call does, and the other threads are as before but for the re-assert it asks for |
| DaemonReconcile.ReconcileEffect | device.go:416-475 | with intent and an answer: the camera has the believed mode if it had it or the write reached it, each motor its preferred speed once that was sent, nothing else of it changes; belief has audio and gesture as read and the rest as before, on file after a completed save |
| DaemonReconcile.ReconcileRefused | device.go:416-445 | with intent but no camera, handle or answer nothing changes, and only the missing handle is fatal |
| DaemonReconcile.ReconcileAgain | device.go:446-453 | a reconcile asks for a re-assert, of the believed mode, exactly when its mode write was needed, succeeded, found the trap armed and is not of privacy |
| DaemonReconcile.FreshReconcile | device.go:425-429 | without intent belief becomes what could be read, the camera is left alone, and a change is on file after a completed save |
| DaemonSystem.ProperStep | commands.go:79-81 | every step keeps: only the holder of hidMu is inside an operation, and its stage fits the operation |
| DaemonSafety.CoreStep | device.go:16-71 | every step keeps: own commits, a pending config belongs to the call in progress, a committed mode is the one asked for, and operations in progress have seen a closed breaker |
| DaemonSafety.InvRuns | device.go:16-475 | the whole invariant holds after every run of threads, probes, power cycles and restarts |
| DaemonTheorems.EveryCommitIsOwn | device.go:16-71 | in every interleaving each applied mode was configured by the call whose commit applied it and is what it asked for, despite stale pending configs |
| DaemonTheorems.CommitsAreRecorded | device.go:16-71 | every commit that changes the camera is recorded with the mode pending, the call that configured it, the call that commits and what that asked for, and nothing else is |
| DaemonTheorems.CallNumbers | device.go:16-71 | in every run each call that sends a config has its own number, so "own" above means one call and no other |
| DaemonTheorems.ReconcileStarts | main.go:363-390 | a probe leads to a reconcile exactly when it finds a video node where there was none |
| DaemonTheorems.RefusesExactly | circuitbreaker.go:18-24 | a write, a motor report or a sync is refused exactly without a handle or after three strikes, a sync also without video |
| DaemonTheorems.DownStaysDown | device.go:250-286 | a daemon that went down changes nothing until it is restarted |
| DaemonTheorems.BeliefMoves | device.go:63-70 | belief moves only by a committed write, a take-over or a restart; a write moves its own mode only, to what was asked and committed |
| DaemonTheorems.CoherentRuns | device.go:16-363 | over every run without power cycle, crash or falsely reported commit, every mode of the camera is the believed one except one between commit and belief |
| DaemonTheorems.BreakerCounts | circuitbreaker.go:18-52 | in every run the count is what the run's events leave, strikes since the last success, restart or probe of both nodes, and at most 3 |
| DaemonTheorems.StrikesMean | circuitbreaker.go:18-52 | that number starts over with a clearing event and otherwise counts the strikes |
| DaemonTheorems.OpenBreakerIsSilent | circuitbreaker.go:18-24 | while the breaker is open nothing changes in the camera but by a power cycle, and nothing is applied, until a probe of both nodes or a restart |
| DaemonTheorems.BreakerNeverOpens | circuitbreaker.go:29-44 | without failed commits, and when every probe that finds hidraw finds video, a present device always has its full budget |
| DaemonReassert.ReassertsComeFromWrites | device.go:73-88 | a re-assert is scheduled exactly by a non-privacy tracking write found armed, never by a re-assert |
| DaemonReassert.ReassertEntriesWereChecked | privacy_trap.go:77-119 | in every run an applied mode committed by a re-assert belongs to one whose earlier check found its mode believed |
| DaemonReassert.ReassertBounces | privacy_trap.go:88-119 | when a tracking re-assert gets through, the last two applied modes are idle then tracking with nothing between, and belief and camera are tracking |
| DaemonReassert.ReassertOutcome | privacy_trap.go:77-119 | every run of a re-assert that gets the lock leaves belief as it was, idle after its bounce alone, or its mode, by which of its writes completed |
| DaemonReassert.ReassertOverrides | privacy_trap.go:77-119 | with nothing lost it ends with camera and belief in its mode whatever belief had become |
| DaemonReassert.BounceOnlyRuns | privacy_trap.go:96-119 | with the write after the bounce lost, camera, belief and file end idle |
| DaemonReassert.GapCommandKept | privacy_trap.go:77-119 | a command committed between check and lock keeps its effect in every run if and only if re-assert and command are both for idle |
| DaemonReassert.OverrideIsReachable | privacy_trap.go:77-119 | a lossless run from the start in which privacy is committed last and camera and belief end tracking |
| DaemonSchedules.WriteCompletes | device.go:16-71 | with nothing lost a mode write is possible from every state and camera and belief end in its mode |
| DaemonSchedules.CommandRuns | device.go:73-88 | a whole command with nothing lost, from its arrival to the release of hidMu, leaves camera and belief in its mode and one re-assert exactly if armed for it |
| DaemonIntent.ReconcileMovesTheCamera | device.go:431-453 | with persisted intent and a handle reconcile moves the camera to belief and writes no mode where they agree |
| DaemonIntent.IntentOnlyFromWrites | device.go:311-475 | across every run of writes, syncs, probes, power cycles, failed saves, crashes and restarts, the believed mode is the initial one, the one on file, one a committed write put there, or one a sync took over, and intent stays persisted |
| DaemonIntent.TakenAreSyncs | device.go:311-475 | from a start with persisted intent every mode taken over is taken over by a thread started with a sync in its plan, never by a reconcile |
| DaemonIntent.IntentOnlyFromCommands | device.go:311-475 | in every run from a start with persisted intent the believed mode is that intent, a mode some command asked for, idle from a re-assert's bounce, or one a sync took over |
| DaemonIntent.FileStaysWhole | state.go:126-160 | in every run the file is the one found or a whole saved state, and the believed mode is idle, tracking or privacy |
| DaemonIntent.SaveLoad | state.go:23-109 | what is saved is what is loaded, and whatever is loaded has a mode a user can choose |
| DaemonIntent.StartMeans | main.go:132-166 | a daemon starts with the usable file's belief as intent, its mode made privacy where no user can choose it; without one with privacy, the default audio and no gesture, and no intent |
| DaemonIntent.CrashKeepsLastSave | state.go:141-160 | after a crash belief is what the last completed save wrote; a temporary file alone changes nothing |
| DaemonSync.PanicsExactly | device.go:250-286 | a step brings the daemon down exactly when a query other than of a served sync finds no device handle; a served sync loses its thread and releases the lock |
| DaemonSync.RunPanicsExactly | device.go:250-286 | in every run without a restart the daemon is down at the end exactly if one of those queries found no handle |
| DaemonSync.UnplugPanics | device.go:311-475 | before each query of a reconcile, sync or adoption, unplugging the camera and then the query bring the daemon down, whatever was checked earlier |
| DaemonSync.PanicIsReachable | device.go:416-437 | the startup reconcile with intent and video gets there without a handle, or with one that goes away after its checks |
| DaemonSync.UnplugIsReachable | device.go:311-363 | so does a fresh install's sync before each of its three queries |
| DaemonSync.SyncOutcome | device.go:311-363 | in every run that stays within a sync the believed mode ends as the mode the camera answered if that is taken over and usable, and otherwise stays; exactly when it stays |
| DaemonSync.SyncKeepsBelief | device.go:311-429 | at every stage, exactly which syncs in flight keep the believed mode in every run, and which in every run without a power cycle |
| DaemonSync.SyncOverrideIsReachable | device.go:425-429 | a started daemon without a file loses the intent it has just saved at every stage of its first sync |
| LockOrder.RankedStep | main.go:363-390 | every step of ranked threads keeps them ranked |
| LockOrder.ExclusionStep | main.go:31-34 | an exclusively held lock is held by nobody else |
| LockOrder.SomeoneCanStep | main.go:363-390 | from any thread that is not done one gets to a thread that can step, with pending writers blocking readers and joins included |
| LockOrder.NoDeadlock | main.go:363-390 | any number of ranked threads, started and scheduled in any way, never all get stuck |
| LockPaths.Uevent | main.go:363-390 | the one site that nests all three locks goes up |
| LockPaths.HidCommand | commands.go:77-81 | hidMu commands take only mu and leaves below |
| LockPaths.MoveCommand | ptz.go:148-220 | move commands hold v4l2Mu, reach for hidMu, then read mu, always upwards |
| LockPaths.PresetPush | commands.go:600-659 | push takes hidMu with nothing held |
| LockPaths.PresetPull | commands.go:803-876 | pull takes hidMu, then mu per slot |
| LockPaths.PresetDelete | commands.go:574-588 | the broadcast under mu takes only a leaf |
| LockPaths.AutoPoll | auto.go:97-187 | a poll takes hidMu, then mu and leaves |
| LockPaths.Reassert | privacy_trap.go:71-121 | a re-assert takes mu and hidMu one after the other, then mu under hidMu |
| LockPaths.StatusCommand | power.go:57-126 | status reads take hidMu only with nothing held |
| LockPaths.EventLoopRanked | main.go:306-398 | the event loop, whose shutdown waits for re-asserts with no lock held, is ranked |
| LockPaths.DaemonThreadsArrive | commands.go:59-129 | a thread of the daemon may start in any state, so the runs below are all interleavings of any number of them |
| LockPaths.DaemonNeverDeadlocks | commands.go:59-129 | no run of any number of the daemon's own threads deadlocks, web requests that run commands and then render included |

## Left out

- Real I/O (hidraw, v4l2-ctl, wpctl, ffmpeg, netlink, sysfs, sockets, HTTP): environment steps and parameters that may fail.
- LZMA, CRC-32 and JSON: parameters, or exact saves and loads; a decompressor is any function, a checksum any function to 32-bit words.
- Wall-clock time: pauses, timers, cache lifetimes and the armed window are steps that may happen at any time; pauses last as long as the schedule likes.
- The firmware's privacy-trap behaviour itself (writes acknowledged and dropped) is known only from comments; a write is delivered, lost, or delivered with an error reported.
- PixyWire.Rounded: Go leaves the conversion of numbers that are not finite or do not fit to the platform; the result is a parameter there, clamped like any other.
- PresetPull.PushThenPull: preset values of magnitude 2^24 and more are not covered, because binary32 rounds them; in-range presets are far below.
- PresetPull.PullStores: takes the collection to be the sweep's own, as do PresetPull.PullIsAdditive and PresetPull.DryRunPredicts; under edits by other commands between two slots the contract of PresetPull.Pull, the counters, the accounting and the unreadable report hold.
- Presets.SendEach: a guard that refuses a send is a lost link here; `DaemonCalls.PushThroughGuard` has the guard and the strikes.
- PresetPull.Pull: when the device is gone mid-sweep the source returns without saving what it has already stored; the contract says exactly that and no more is claimed.
- DaemonSystem.ProperStep: the guard and the write that follows it are one step; a device that goes away in between is a lost write.
- DaemonCalls.Daemon.ReconcileOnDeviceAppear: the method runs undisturbed; what other threads do meanwhile is in the state machine, of which DaemonReconcile.ReconcileIsRun shows it to be a run.
- DaemonTheorems.CoherentRuns: power cycles, crashes and commits that arrive although an error is reported do separate camera and belief until the next write, sync or reconcile; those runs are excluded.
- LockPaths.DaemonNeverDeadlocks: semaphores of the stream and the waits on external processes take no lock and are not part of the lock code.
- Broadcast.NoStaleIdleClient: says nothing of changes between a client's first rendering and its subscription, where the source has a gap.
- SseMessages.Client.Receive: text decoding is the identity on bytes, and which retry texts are numbers is a parameter.
- AutoManage.AutoManager.Tick: a failed privacy write at a call end is not retried by the source; the history claims are about the call flag, and AutoManage.CameraFollowsCalls takes the writes to succeed.
- CallTransform.EncodedHighByte: needs the operand's high byte to be 00 or FF, as the source's guard does.
- Motor speeds and the tracking variant are write-only intent in the source; their persistence adds only easy members.
- Caches, the update checker, waybar and panel rendering, metrics, logging, identity and configuration parsing: presentation or straight-line code.
