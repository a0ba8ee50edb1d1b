# Verified core of the scrcpy client

scrcpy mirrors and controls an Android device. Between the calls into SDL, FFmpeg,
libusb and adb, its C client holds small concurrent protocols, codecs and integer
geometry. This project models these parts in Dafny and proves what they are for.

Each component has a module of its own. Where the C code updates an object in place,
the module has a class with the same fields, and every method is proved equal to a
function on values; the properties are then proved about these functions, for all
inputs and, for the concurrent parts, for all runs. A run is a list of steps taken by
any thread in any order. A step is a critical section, or, for the audio buffer which
two threads use without a lock, a single access to shared memory.

| module | component |
|---|---|
| `Common` | optional values, fixed-width integers and C division |
| `RingMath`, `AudioBuf` | wrapping 32-bit cursors and the audio ring buffer, in an array |
| `AudioRegulator` | push and pull, one call at a time |
| `AudioInterleaving` | push and pull concurrently: cursor loads, sample copies, cursor stores, mutex and flag accesses interleave |
| `AudioAlone` | what each of the two does when its steps run alone to the end |
| `Controller` | the control message queue, the display size slot and the consumer thread |
| `PasteProtocol`, `PasteProgress`, `UsbQueue`, `InputManager`, `Aoa` | Ctrl+v over two channels: input manager, control thread, socket, device with its bounded outbox, receiver, acknowledgements, USB thread and its queue of keys |
| `Gamepad` | gamepad slots and UHID messages on top of the control queue |
| `Timestamps`, `Recorder`, `RecorderLive`, `RecorderStop`, `RecorderOrigin` | the packet sinks, the recording thread, what it does while it is not stopped and what happens when it is |
| `Binary`, `Receiver` | big-endian integers, device messages over TCP |
| `CommandLine` | Windows command-line quoting |
| `Demuxer` | stream framing, codec ids and config packet merging |
| `FrameMailbox` | the one-slot frame buffer and its event |
| `Screen` | orientations, coordinates and the optimal window size |
| `AdbParser` | the in-place parser of `adb devices -l` |
| `VideoRegulator` | the clock estimate and the delay queue |

Properties that turned out to hold only under a condition are stated with the exact
condition:

- recorded timestamps increase strictly unless the first two rescaled timestamps of a
  stream are both the "no timestamp" value or the repair runs out of 64-bit values
  (`Timestamps.TimestampsIncrease`);
- a complete recording has a negative audio timestamp exactly when it was stopped before
  the origin was chosen and its first audio packet is earlier than its first video packet
  (`Recorder.AudioNegativeExactly`, `RecorderOrigin.NegativeExactly`;
  `RecorderStop.StoppedAudioMayBeNegative` is such a run);
- a stopped recording fails although the muxer works exactly when the packets left at the
  stop cannot give the origin (`RecorderStop.ErrorExactly`);
- with regular replies of the device, the USB thread's list of open devices is exact if and
  only if no failed rollback left a device registered (`Aoa.ListExactly`);
- the acknowledgement a key waits for arrives exactly when it or a later one is on its way
  or a request is not handled yet: the device's outbox holds sixteen messages and drops the
  others (`PasteProgress.AckExactly`; `PasteProgress.AckMayBeLost` is a failing run);
- a key is injected only after its clipboard request was handled, which is not the same as
  applied: the device acknowledges a clipboard that did not take the text
  (`PasteProtocol.PasteSafety`, `PasteProgress.KeyWithoutClipboard`);
- the audio ring counts right exactly up to 2^31 cells (`RingMath.ExactUpToMax`);
- merging loses bytes exactly when a config packet is followed by another config packet
  or by the end (`Demuxer.MergingKeepsBytes`);
- the receive buffer fills up exactly when a clipboard message is longer than the declared
  maximum (`Receiver.FullBuffer`);
- an input event with gamepad id 0 speaks for a closed device exactly when a slot is free
  (`Gamepad.InvalidIdSpeaksForClosed`);
- the string returned for an empty argument list is never terminated
  (`CommandLine.SerializeWindows`), and the program name survives the C runtime's own
  rule for it exactly when it has no quote and no final backslash
  (`CommandLine.ProgramNameRecovered`).

## Model

| member | source | states |
|---|---|---|
| `RingMath.CountsExact` | app/src/util/audiobuf.c:48-91 | the readable and writable counts computed in wrapping 32-bit arithmetic are the true distances between the cursors, for every ring of at most 2^31 cells |
| `RingMath.AdvanceExact` | app/src/util/audiobuf.c:73-73 | advancing a cursor modulo the allocation size moves it that many cells |
| `RingMath.ExactUpToMax` | app/src/util/audiobuf.h:62-67 | for every 32-bit ring size, the counts are right for all cursors exactly up to 2^31 cells |
| `AudioBuf.Buffer.constructor` | app/src/util/audiobuf.c:8-28 | an empty buffer for any 32-bit capacity; it is in order exactly when the cursor arithmetic is exact for it |
| `AudioBuf.Buffer.Available` | app/src/util/audiobuf.h:62-67 | the number of unread samples |
| `AudioBuf.Buffer.Write` | app/src/util/audiobuf.c:79-118 | appends the longest beginning of the samples that fits, and nothing else changes in the FIFO |
| `AudioBuf.Buffer.WriteSilence` | app/src/util/audiobuf.c:120-153 | appends as much silence as fits |
| `AudioBuf.Buffer.Read` | app/src/util/audiobuf.c:35-77 | takes the oldest samples off the FIFO and copies exactly these, or discards them |
| `AudioBuf.Buffer.Store` | app/src/util/audiobuf.c:99-112 | the two wrapping copies place the samples behind the unread ones without touching them |
| `AudioBuf.Buffer.CopyOut` | app/src/util/audiobuf.c:56-71 | the two wrapping copies fetch the oldest samples in order |
| `AudioRegulator.OneHourNeverWraps` | app/src/cli.c:1655-1670 | up to the one hour the command line accepts, at 48 kHz, the ring size, the bounds and the size in bytes do not wrap around 32 bits, and the bounds are the intended numbers |
| `AudioRegulator.BoundsExact` | app/src/audio_regulator.c:248-255 | wherever nothing wraps, the bound is ten percent plus 60 ms above the target during playback and 10 ms above it before |
| `AudioRegulator.Regulator.constructor` | app/src/audio_regulator.c:402-436 | an empty buffer of the target plus one second; it is in order exactly when no 32-bit computation wraps |
| `AudioRegulator.Regulator.Pull` | app/src/audio_regulator.c:63-119 | silence until the target is reached for the first time; then the oldest samples, completed with silence that is accounted as underflow |
| `AudioRegulator.Regulator.FillGap` | app/src/audio_regulator.c:148-168 | when the timestamp is more than 100000 us after the expected one and the buffered samples with those of the frame are below the target, silence is added until they are exactly the target; in all other cases the buffer is unchanged |
| `AudioRegulator.Regulator.DropAndWrite` | app/src/audio_regulator.c:221-237 | on a full buffer the oldest samples make room for exactly the remaining ones; both assertions hold |
| `AudioRegulator.Regulator.WriteFrame` | app/src/audio_regulator.c:207-238 | the buffer ends with the last samples of its content followed by the frame, as many as it can hold |
| `AudioRegulator.Regulator.Trim` | app/src/audio_regulator.c:258-271 | only the oldest samples beyond the bound are dropped; the assertion holds |
| `AudioRegulator.Regulator.PushSamples` | app/src/audio_regulator.c:198-290 | after a frame the buffer holds the newest samples, limited by the ring and by the bound that `played` selects, whatever the length of the frame |
| `AudioRegulator.Regulator.Push` | app/src/audio_regulator.c:141-290 | the whole effect of a frame: after a gap of more than 100000 us the silence that reaches the target exactly, then the expected timestamp and the newest samples within the bound; a failed conversion leaves only the silence |
| `AudioInterleaving.CopyKeepsMem` | app/src/util/audiobuf.c:99-112 | copying one sample never touches an unread cell |
| `AudioInterleaving.PublishKeepsMem` | app/src/util/audiobuf.c:114-115 | storing the new head makes exactly the copied samples readable |
| `AudioInterleaving.TakeKeepsMem` | app/src/util/audiobuf.c:73-74 | storing the new tail takes exactly the oldest samples out |
| `AudioInterleaving.PushUnderTake` | app/src/audio_regulator.c:209-238 | what push knows about its stale cursors survives a concurrent pull, because the tail only moves under the mutex |
| `AudioInterleaving.PullUnderWrite` | app/src/audio_regulator.c:71-94 | what pull knows about its stale cursors survives concurrent writes |
| `AudioInterleaving.PushKeepsInv` | app/src/audio_regulator.c:141-290 | every step of push keeps the invariant of the shared memory |
| `AudioInterleaving.PullKeepsInv` | app/src/audio_regulator.c:63-119 | every step of pull keeps the invariant of the shared memory |
| `AudioInterleaving.RunKeepsInv` | app/src/audio_regulator.c:63-290 | so does every interleaving |
| `AudioInterleaving.Safety` | app/src/audio_regulator.c:63-290 | in every interleaving: no unread cell is overwritten, only published cells are read, the three assertions on dropped and written counts hold, what was played and dropped is the beginning of what was written, every sample given to push is published or still pending, in order, and a successful push leaves at most the bound selected by the flag it read |
| `AudioInterleaving.HeardInOrder` | app/src/audio_regulator.c:92-118 | what is played, silence removed, is an in-order subsequence of what push put in the buffer |
| `AudioAlone.PullAlone` | app/src/audio_regulator.c:63-119 | the steps of pull, run to their end: silence only and nothing taken until the target is reached for the first time, then the oldest samples, all that are asked for and there, completed with silence |
| `AudioAlone.PushAlone` | app/src/audio_regulator.c:207-290 | the steps of push, run to their end: everything is published and the buffer keeps the newest samples, as many as ring and bound allow and no fewer |
| `AudioAlone.FrameEnters` | app/src/audio_regulator.c:185-205 | a resampled frame enters with its newest samples up to the capacity; a failed resampling ends the push |
| `AudioAlone.ClipKeepsNewest` | app/src/audio_regulator.c:198-205 | a frame longer than the ring loses its beginning |
| `AudioAlone.GapReachesTarget` | app/src/audio_regulator.c:153-158 | the silence for a gap, with what is buffered when the cursors are read and the frame to come, is exactly the target |
| `AudioAlone.FlagIsRead` | app/src/audio_regulator.c:240-256 | whatever pull does meanwhile, the bound follows the flag that was read, and only a failed resampling fails a push |
| `Controller.ControllerObject.PushMsg` | app/src/controller.c:95-126 | the queue rule: accepted below the limit or when not droppable, with a signal when the queue was empty |
| `Controller.ControllerObject.RequestResize` | app/src/controller.c:128-140 | replaces the display size, with a signal when none was set |
| `Controller.ControllerObject.RequestStop` | app/src/controller.c:239-245 | sets the flag and signals |
| `Controller.ControllerObject.Next` | app/src/controller.c:168-196 | the consumer's critical section: end, take the size, take the oldest message, or block |
| `Controller.QueueGrows` | app/src/control_msg.c:358-366 | accepting by the rule keeps at most 60 droppable messages queued |
| `Controller.RunKeepsInv` | app/src/controller.c:95-245 | every run of producers and consumer keeps the invariant |
| `Controller.QueueSafety` | app/src/controller.c:95-245 | in every run: no wakeup is lost, what was sent is a prefix of what was accepted, at most 60 droppable messages are queued, and a message is accepted exactly when fewer than 60 are queued or it creates or destroys a UHID device |
| `Controller.ResizeSafety` | app/src/controller.c:128-193 | display sizes taken are requests, in order, none twice; the newest request is in the slot or was taken |
| `Controller.TakesFirst` | app/src/controller.c:168-196 | in every reachable state the next turn of the consumer takes nothing when stopped, else the newest requested size, else the oldest message, else it waits |
| `Controller.NothingLeftBehind` | app/src/controller.c:162-217 | unless it stops, the consumer alone brings every accepted message to the socket in a bounded number of turns, and the last size sent is the newest requested |
| `PasteProtocol.AckSync.Acknowledge` | app/src/util/acksync.c:30-41 | records a monotonic acknowledgement |
| `PasteProtocol.AckSync.Poll` | app/src/util/acksync.c:47-60 | one turn of the wait: success only when the acknowledgement is reached and not stopped |
| `PasteProtocol.AckSync.Interrupt` | app/src/util/acksync.c:69-75 | wakes up every waiter for good |
| `InputManager.Manager.SyncClipboard` | app/src/input_manager.c:680-707 | a sequence number is used up only when the request was accepted, and the key waits for exactly that number |
| `InputManager.Manager.CtrlVUsb` | app/src/input_manager.c:680-728 | on a USB keyboard this is the step of the system the theorems are about |
| `Aoa.AoaObject.PushInput` | app/src/usb/aoa_hid.c:224-256 | a key is queued only below the limit, with a signal when the queue was empty; this is the step of the system |
| `Aoa.AoaObject.PushOpenOrClose` | app/src/usb/aoa_hid.c:258-320 | open and close events are always queued, with a signal when the queue was empty |
| `Aoa.AoaObject.RequestStop` | app/src/usb/aoa_hid.c:462-467 | sets the flag and signals |
| `Aoa.AoaObject.Turn` | app/src/usb/aoa_hid.c:414-432 | one turn of the thread is the step of the system: it ends, blocks or handles the oldest event, a key being sent at once or waiting for its acknowledgement, and changes the list of open devices as the outcomes of the USB requests say |
| `Aoa.AoaObject.SetupHid` | app/src/usb/aoa_hid.c:204-222 | succeeds when both requests do; a rollback that fails leaves the device registered and unlisted |
| `Aoa.AoaObject.CloseHid` | app/src/usb/aoa_hid.c:384-399 | a successful close removes the first occurrence of the id from the list, if there is one |
| `Aoa.AoaObject.Exit` | app/src/usb/aoa_hid.c:435-444 | on exit exactly the listed devices are asked to unregister, and those that succeed are gone |
| `Aoa.StepsExactly` | app/src/usb/aoa_hid.c:322-404 | which devices are registered, and which a failed rollback left behind, told from the events and replies alone |
| `Aoa.ListExactly` | app/src/usb/aoa_hid.c:322-404 | for all events and replies, a registered device is listed or a failed rollback left it behind and nothing resolved that since; with regular replies the list names exactly the registered devices, once each, if and only if none was left behind |
| `Aoa.ExitLeavesLeaked` | app/src/usb/aoa_hid.c:435-444 | when every request of the exit succeeds, only devices left behind by a failed rollback stay registered, and with regular replies exactly these |
| `Aoa.RollbackLeaks` | app/src/usb/aoa_hid.c:212-219 | the outcome that leaves a device behind |
| `PasteProtocol.RequestKeepsOrder` | app/src/input_manager.c:689-706 | an accepted request takes the next number and no number is skipped |
| `PasteProtocol.SentKeepsOrder` | app/src/controller.c:194-212 | the socket keeps the order of the requests, and a failed send ends them |
| `PasteProtocol.DeviceKeepsOrder` | server/src/main/java/com/genymobile/scrcpy/control/Controller.java:707-727 | the device handles requests in order; each acknowledgement follows the earlier ones, unless the full outbox drops it |
| `PasteProtocol.SendKeepsComing` | server/src/main/java/com/genymobile/scrcpy/control/DeviceMessageSender.java:20-31 | the sender thread keeps the acknowledgements on their way, in order |
| `PasteProtocol.ReceiverKeepsInv` | app/src/receiver.c:97-113 | every acknowledgement received is larger than the previous one, and only handled requests are acknowledged |
| `PasteProtocol.RunKeepsInv` | app/src/usb/aoa_hid.c:326-356 | every run of all threads, dropped acknowledgements included, keeps the order of requests and of acknowledgements |
| `PasteProtocol.PasteSafety` | app/src/usb/aoa_hid.c:326-356 | in every run: a key that carries a sequence number is injected only after the device handled that very clipboard request, and the request was applied exactly when the clipboard took its text; requests are handled in order without gaps; no acknowledgement is smaller than a previous one |
| `PasteProtocol.PasteAfterClipboard` | app/src/usb/aoa_hid.c:326-356 | so on a device whose clipboard takes every text, no key is injected before its clipboard request was applied |
| `PasteProgress.KeyWithoutClipboard` | server/src/main/java/com/genymobile/scrcpy/control/Controller.java:709-724 | a run in which a key is injected although the clipboard did not take the text, because the device acknowledges all the same |
| `PasteProtocol.AcksMonotonic` | app/src/util/acksync.c:34-37 | acknowledgements are monotonic between any two states of a run |
| `PasteProtocol.WaitIsServed` | app/src/input_manager.c:701-706 | while the control channel works, the USB thread never waits for a request that got lost |
| `PasteProtocol.UsbNeverStuck` | app/src/usb/aoa_hid.c:414-426 | no wakeup of the USB thread is lost: blocked and not signalled, it has no event and is not stopped |
| `UsbQueue.KeysInOrder` | app/src/usb/aoa_hid.c:224-356 | in every run the accepted keys are, in order, those sent or discarded, the one in hand and those queued; a key is sent only when its acknowledgement was received, and a key that needs none is never discarded |
| `UsbQueue.NoKeyLeftBehind` | app/src/usb/aoa_hid.c:322-433 | from every reachable state, unless stopped, the USB thread alone is done with every accepted key in a bounded number of turns, and sends exactly those that need no acknowledgement or whose acknowledgement was received |
| `UsbQueue.AcceptedExactly` | app/src/usb/aoa_hid.c:224-320 | a key is accepted exactly while fewer than 60 events are queued, opening and closing always |
| `UsbQueue.KeepsWaiting` | app/src/util/acksync.c:47-63 | a key waits as long as its acknowledgement does not arrive and the wait neither times out nor is interrupted; a timeout discards it |
| `UsbQueue.StopIsImmediate` | app/src/usb/aoa_hid.c:341-422 | a stopped thread handles no further event, and an interrupted wait discards its key and ends the thread |
| `UsbQueue.RunKeepsUsb` | app/src/usb/aoa_hid.c:224-432 | every run of all threads keeps the order and the fate of the keys |
| `PasteProgress.AckArrives` | app/src/util/acksync.c:43-64 | from every reachable state in which the USB thread waits, the control thread goes on and an acknowledgement is on its way, a bounded number of steps of controller, device, its sender and receiver alone brings it |
| `PasteProgress.AckExactly` | server/src/main/java/com/genymobile/scrcpy/control/DeviceMessageSender.java:14-24 | steps of the channel bring the awaited acknowledgement if and only if it or a later one was received or is on its way, or some request is not handled yet; otherwise nothing but a new request can bring one |
| `PasteProgress.AckMayBeLost` | server/src/main/java/com/genymobile/scrcpy/control/DeviceMessageSender.java:20-24 | a run in which the full outbox drops the acknowledgement and the wait is in vain |
| `Gamepad.Processor.SlotFind` | app/src/hid/hid_gamepad.c:213-223 | the first slot holding the id, or -1 exactly when none does |
| `Gamepad.Processor.Handle` | app/src/uhid/gamepad_uhid.c:66-128 | every event changes the slots and pushes at most one message through the queue rule |
| `Gamepad.EventKeepsSlot` | app/src/hid/hid_gamepad.c:238-276 | dropped or not, the message of an event keeps slot and device in step |
| `Gamepad.PadRunKeepsInv` | app/src/uhid/gamepad_uhid.c:20-128 | every run of gamepad events among all other uses of the queue keeps the invariant |
| `Gamepad.UhidDiscipline` | app/src/uhid/gamepad_uhid.c:20-128 | in every run, whatever is dropped: create only when closed, input and destroy only when open, and a device is open exactly when its slot is in use |
| `Gamepad.ProducedIds` | app/src/hid/hid_gamepad.c:232-236 | messages create, feed or destroy the devices 3 to 10 only |
| `Gamepad.DeviceSticks` | app/src/hid/hid_gamepad.c:238-276 | from the event that adds a gamepad on, every event of its 6 axes and 15 buttons and its removal is answered for the device created for it, and other axes and buttons are not answered, whatever other gamepads do |
| `Gamepad.LowestFreeDevice` | app/src/hid/hid_gamepad.c:238-276 | a new gamepad gets the lowest free device, none exactly when all eight are in use; nothing is said for an unknown gamepad |
| `Gamepad.InvalidIdSpeaksForClosed` | app/src/hid/hid_gamepad.c:370-454 | id 0 addresses a closed device exactly for a known axis or button while a slot is free |
| `Timestamps.Stream.Write` | app/src/recorder.c:106-121 | the timestamp written is the given one when that increases, else one more than the last, which increases unless 64 bits run out |
| `Timestamps.TimestampsIncrease` | app/src/recorder.c:106-121 | for any 64-bit timestamps and any rescaling, the written timestamps increase strictly if and only if the first two are not both "no timestamp" and every timestamp leaves room for one increment per later packet |
| `Timestamps.NotAlwaysIncreasing` | app/src/recorder.c:111-119 | an input for each of the two exceptions |
| `Recorder.RecorderObject.constructor` | app/src/recorder.c:751-755 | the initial state of the sinks and the thread |
| `Recorder.RecorderObject.OpenVideo` | app/src/recorder.c:544-593 | a stopped recorder refuses; otherwise the stream is initialised |
| `Recorder.RecorderObject.OpenAudio` | app/src/recorder.c:645-681 | the stream is initialised |
| `Recorder.RecorderObject.DisableAudio` | app/src/recorder.c:735-749 | the recording goes on without audio |
| `Recorder.RecorderObject.PushVideo` | app/src/recorder.c:608-643 | queues at the end, or refuses once stopped |
| `Recorder.RecorderObject.PushAudio` | app/src/recorder.c:697-733 | queues at the end, or refuses once stopped |
| `Recorder.RecorderObject.RequestStop` | app/src/recorder.c:848-854 | sets the flag; so does closing a sink |
| `Recorder.RecorderObject.TakeConfigs` | app/src/recorder.c:200-234 | leaves the header wait with the first packet of each stream that expects one |
| `Recorder.RecorderObject.PutConfigs` | app/src/recorder.c:236-285 | fails when such a packet is not a config packet |
| `Recorder.RecorderObject.FillHands` | app/src/recorder.c:306-352 | fills the empty hands from the queues, or finishes |
| `Recorder.RecorderObject.PickOrigin` | app/src/recorder.c:354-389 | drops config packets and chooses the origin by the four rules |
| `Recorder.RecorderObject.Turn` | app/src/recorder.c:354-428 | one turn: origin, or one more turn while it cannot be chosen and the recorder is not stopped; previous video packet with its duration, audio packet |
| `Recorder.RecorderObject.WriteLast` | app/src/recorder.c:431-450 | the last video packet gets 100 ms, then the trailer |
| `Recorder.RunKeepsInv` | app/src/recorder.c:200-461 | every run of the sinks and the thread keeps the invariant |
| `Recorder.RecordsEverything` | app/src/recorder.c:287-461 | in every run no assertion fails; a run that ends without error submitted every media packet ever accepted exactly once, in arrival order per stream, left the queues empty and gave each video packet the distance to the next as duration, the last one 100000 us |
| `Recorder.WrittenIncrease` | app/src/recorder.c:106-121 | in every run the timestamps written to each stream increase strictly exactly when the rescaled ones meet that condition |
| `Recorder.OriginOnce` | app/src/recorder.c:367-391 | the origin is chosen at most once |
| `Recorder.OriginExactly` | app/src/recorder.c:367-428 | in every run all timestamps submitted are relative to the first timestamp of the only stream, to the earlier of the two first ones, or to that of the video when stopped before any audio |
| `Recorder.RelativeNotNegative` | app/src/recorder.c:367-428 | in every run, also one that ended with an error: with nondecreasing inputs no video timestamp, and unless stopped before any audio no audio timestamp, becomes negative before rescaling |
| `Recorder.AudioNegativeExactly` | app/src/recorder.c:375-389 | exactly when a complete recording has a negative audio timestamp, from the rule that chose the origin |
| `RecorderLive.EndsOnlyWhenStopped` | app/src/recorder.c:200-429 | with a muxer that works, a recording that was not stopped has not ended, unless the first packet of a stream that expects a config packet is a media packet; it goes past the header only with all streams open and all expected config packets |
| `RecorderLive.RecordingGoesOn` | app/src/recorder.c:200-429 | from every reachable state of a recording that is not stopped, the thread alone, in a bounded number of steps, waits for a stream or a config packet, fails on a wrong first packet, waits for the first media packet of an enabled stream, or has chosen the origin and submitted everything that is due |
| `RecorderLive.RunKeepsGoing` | app/src/recorder.c:200-429 | every run that is not stopped keeps the invariant behind these |
| `RecorderLive.FailureEnds` | app/src/recorder.c:236-461 | a failing muxer ends the recording with an error, except for the last packet |
| `RecorderLive.StoppedOrDisabled` | app/src/recorder.c:544-749 | once stopped no video stream is opened and no packet accepted; disabled audio takes no part |
| `RecorderOrigin.NegativeExactly` | app/src/recorder.c:354-389 | the same, told at the stop: only the first video packet left can give the origin, and the first audio packet is earlier than the first video packet |
| `RecorderStop.StoppedVideoWhen` | app/src/recorder.c:368-380 | the origin comes from the video alone exactly when stopped with both streams enabled and only a video packet in hand |
| `RecorderStop.StoppedAudioMayBeNegative` | app/src/recorder.c:362-380 | a complete recording in which an audio timestamp is negative |
| `RecorderStop.ReadsAreAtomic` | app/src/recorder.c:367-389 | reading the flags one after the other without the lock has the result of reading them at the first or at the last moment, whatever the producers do in between |
| `RecorderStop.ErrorExactly` | app/src/recorder.c:200-389 | with a working muxer, a stopped recording ends with an error exactly when, at the stop, no video packet is queued before the header, an expected config packet is not one, or packets are left of which the first cannot give the origin |
| `RecorderStop.ErrorWithVideoLeft` | app/src/recorder.c:375-384 | so it may fail although video and audio packets are left |
| `RecorderStop.StoppedProgress` | app/src/recorder.c:305-429 | once stopped, every step of the thread decreases queued plus held packets |
| `RecorderStop.NeverBlocked` | app/src/recorder.c:204-320 | once stopped, the thread can always take a step |
| `RecorderStop.StopTerminates` | app/src/recorder.c:305-429 | so after the stop the number of its steps is bounded, whatever the producers do |
| `Binary.RoundTrip16` | app/src/util/binary.h:9-52 | reading and writing 16-bit values are inverse, both ways |
| `Binary.RoundTrip32` | app/src/util/binary.h:21-57 | the same for 32 bits |
| `Binary.RoundTrip64` | app/src/util/binary.h:37-64 | the same for 64 bits |
| `Binary.Put16` | app/src/util/binary.h:9-13 | writes two bytes that read back as the value, and no others |
| `Binary.Put32` | app/src/util/binary.h:21-27 | the same for four bytes |
| `Binary.Put64` | app/src/util/binary.h:37-41 | the same for eight bytes |
| `Receiver.Deserialize` | app/src/device_msg.c:10-78 | a message has at least five bytes and lies within the buffer |
| `Receiver.ErrorExactly` | app/src/device_msg.c:74-76 | an error is reported exactly for an unknown message type |
| `Receiver.DeserializeStable` | app/src/device_msg.c:10-78 | a complete message or an error does not depend on the bytes that follow |
| `Receiver.ReceiverObject.ProcessMsgs` | app/src/receiver.c:160-182 | handles exactly the messages of a one-shot parse and reports where the rest starts |
| `Receiver.ReceiverObject.ShiftLeft` | app/src/receiver.c:211-215 | moves the rest to the front although the areas overlap |
| `Receiver.ReceiverObject.Receive` | app/src/receiver.c:193-216 | one turn keeps exactly the unparsed rest in the buffer |
| `Receiver.ReceiverObject.ReceiveAll` | app/src/receiver.c:184-221 | the loop handles what the chunks say and stops on an error |
| `Receiver.ParseSplit` | app/src/receiver.c:160-216 | parsing in two goes, keeping the rest, is parsing at once |
| `Receiver.ChunkIndependence` | app/src/receiver.c:184-221 | for every byte stream and every way to cut it, the messages, the error and the rest are those of one parse of the whole |
| `Receiver.FullBuffer` | app/src/receiver.c:194-196 | a full buffer is stuck exactly when it starts with an oversized clipboard message |
| `Receiver.OversizedStays` | app/src/receiver.c:203-215 | such a message is never handled and fills the buffer |
| `Receiver.DecodeEncode` | server/src/main/java/com/genymobile/scrcpy/control/DeviceMessageWriter.java:22-46 | every message the device encodes is read back exactly, whatever follows |
| `Receiver.PrefixParses` | app/src/device_msg.c:10-78 | any beginning of an encoded stream parses without error to the messages it contains, and leaves less than a buffer |
| `Receiver.DeliversAll` | app/src/receiver.c:184-221 | however the network cuts the encoding of messages within the declared maximum, exactly these messages are handled, nothing is left, and at every moment there is room to receive |
| `CommandLine.StrBuf.AppendQuoted` | app/src/util/command.c:26-83 | appends the quoted form of one argument |
| `CommandLine.SerializeWindows` | app/src/util/command.c:7-98 | the result splits into the same arguments again; it is terminated exactly when there is an argument |
| `CommandLine.ParseEscaped` | app/src/util/command.c:47-83 | between quotes, an escaped argument is read back exactly, pending backslashes included |
| `CommandLine.RoundTrip` | app/src/util/command.c:7-98 | for every list of arguments, splitting by Microsoft's rules for C command-line arguments returns the list |
| `CommandLine.ProgramNameRecovered` | app/src/util/command.c:25-91 | under the runtime's separate rule for the program name, the first argument is recovered exactly when it has no quote and no final backslash |
| `Demuxer.ReadNext` | app/src/demuxer.c:140-174 | a record lies within the stream, and the end is reported exactly when no header is left; a length of zero or beyond a signed integer is an error |
| `Demuxer.FlagsRoundTrip` | app/src/demuxer.c:162-170 | timestamp and flags below 2^61 are read back |
| `Demuxer.ReadEncoded` | app/src/demuxer.c:72-174 | every session or media record is read back exactly, whatever follows |
| `Demuxer.DemuxInverts` | server/src/main/java/com/genymobile/scrcpy/device/Streamer.java:91-124 | demuxing inverts the framing, for every list of records |
| `Demuxer.CutStream` | app/src/demuxer.c:300-338 | a stream cut anywhere yields a prefix of its records |
| `Demuxer.StreamEnds` | app/src/demuxer.c:140-174 | after any records, less than a header is the end; a packet without data, beyond a signed integer or cut off is an error, and the records before it are delivered |
| `Demuxer.PacketMerger.Merge` | app/src/packet_merger.c:19-52 | remembers a config packet, or prepends the remembered one to the data of a media packet, of which nothing else changes, and forgets it |
| `Demuxer.Loop` | app/src/demuxer.c:300-338 | the loop delivers the records of the stream in order, merged if required, up to the first one a sink refuses, and the right status |
| `Demuxer.RunDemuxer` | app/src/demuxer.c:176-355 | the whole thread as a function of the bytes, of the decoder and of the sinks: disabled, error, or codec, first session, records and status |
| `Demuxer.DeliversPrefix` | app/src/demuxer.c:300-338 | whatever fails, the sinks get a beginning of what they get when nothing fails, up to and including the first item they refuse, which is an error; an end of stream means that nothing was held back |
| `Demuxer.MergingKeepsBytes` | app/src/packet_merger.c:19-52 | the packets the decoder does not skip concatenate to all raw bytes exactly when every config packet is followed by a media packet |
| `Demuxer.MergingDeliversEach` | app/src/packet_merger.c:19-52 | item by item: sessions and config packets are delivered unchanged, a media packet keeps its timestamp and key flag and its data is preceded by the last config packet before it when no media packet lies between |
| `Demuxer.CodecNames` | app/src/demuxer.c:19-58 | a codec id is the ASCII name of the codec, and config packets are merged exactly for the codecs named h26x |
| `Demuxer.WholeVideoStream` | app/src/demuxer.c:176-338 | an encoded video stream opens the sinks with its codec and session and delivers its records |
| `Demuxer.BadStart` | app/src/demuxer.c:233-251 | a video stream that does not start with the session of a non-empty video opens no sink |
| `Demuxer.NotOpened` | app/src/demuxer.c:183-281 | when the sinks are disabled and when they are just not opened, from the first four bytes, the decoder and the sinks |
| `FrameMailbox.FrameBuffer.HasFrame` | app/src/frame_buffer.c:41-44 | whether a frame waits |
| `FrameMailbox.FrameBuffer.Push` | app/src/frame_buffer.c:46-63 | the new frame replaces the waiting one, which stays when the new one cannot be referenced |
| `FrameMailbox.FrameBuffer.Consume` | app/src/frame_buffer.c:65-73 | takes the waiting frame and empties the slot |
| `FrameMailbox.ScreenSink.SinkPush` | app/src/screen.c:446-473 | pushing is the producer's step, and an event is posted exactly when the slot was empty |
| `FrameMailbox.ScreenSink.UpdateFrame` | app/src/screen.c:957-984 | consuming is the user interface's step, paused or not |
| `FrameMailbox.ScreenSink.SetPaused` | app/src/screen.c:986-1016 | resuming shows the frame kept aside |
| `FrameMailbox.RunKeepsInv` | app/src/screen.c:446-473 | every interleaving keeps the invariant |
| `FrameMailbox.MailboxSafety` | app/src/screen.c:446-473 | in every interleaving: a frame waits exactly when one event is queued, about to be posted or being handled; consuming never finds an empty slot and takes the newest frame; pushed = consumed + overwritten + waiting; the frame consumed last is displayed or kept aside |
| `FrameMailbox.PausedKeepsFrame` | app/src/screen.c:957-984 | in every run without a change of the pause, a paused screen displays the same frame and keeps aside what it consumes |
| `FrameMailbox.PauseAndResume` | app/src/screen.c:986-1016 | pausing keeps the frame; resuming, or pausing again, displays the frame kept aside, if any |
| `FrameMailbox.UnpostedStaysSilent` | app/src/screen.c:466-469 | after a failed post a frame waits, and stays, and no event announces it |
| `Screen.ComposeToFrame` | app/src/options.c:128-162 | converting under a composed orientation is converting under the second, then under the first with the swapped size, for all coordinates and sizes |
| `Screen.ComposeSizes` | app/src/screen.c:30-41 | oriented sizes compose the same way |
| `Screen.ComposeWindow` | app/src/screen.c:1275-1329 | and so do window coordinates |
| `Screen.ToFrameUndoes` | app/src/screen.c:1291-1326 | for all points, sizes and orientations, the conversion undoes a horizontal flip followed by the clockwise quarter turns, and these undo it |
| `Screen.CornersMatch` | app/src/screen.c:1275-1329 | the corners of the rectangle that shows the content are the corners of the content |
| `Screen.ScalesExactly` | app/src/screen.c:1275-1289 | within the rectangle a coordinate is scaled to the largest one not above the ratio; left of and above its corner to the mirror image |
| `Screen.OrientationGroup` | app/src/options.c:128-162 | orientations form a group |
| `Screen.FrameBounds` | app/src/screen.c:1291-1326 | a point is in the content exactly when its image is in the frame |
| `Screen.Faithful` | app/src/screen.c:1291-1326 | different orientations move some point differently |
| `Screen.Mul32Exact` | app/src/screen.c:71-79 | the 32-bit products never overflow |
| `Screen.OptimalSizeCorrect` | app/src/screen.c:86-124 | the optimal size never exceeds the bounded one, keeps one dimension, is optimal and a fixed point; the bounded size is the current one where that is within the display bounds, else the bound |
| `Screen.OptimalIsLargest` | app/src/screen.c:111-121 | the adjusted dimension is the largest that does not exceed the aspect ratio |
| `AdbParser.RStripLen` | app/src/adb/adb_parser.c:11-21 | the length without trailing blanks |
| `AdbParser.LocateLastToken` | app/src/adb/adb_parser.c:23-34 | where the last token starts and ends |
| `AdbParser.RemoveTrailingCr` | app/src/util/str.c:332-341 | cuts exactly the trailing carriage returns |
| `AdbParser.ScanInPlace` | app/src/adb/adb_parser.c:87-108 | the backward scan leaves the state and the leftmost model as terminated strings in the buffer, and the text before the state untouched |
| `AdbParser.StateWords` | app/src/adb/adb_parser.c:36-52 | a token is a state exactly when it is one of the eleven words |
| `AdbParser.ParseDevice` | app/src/adb/adb_parser.c:54-144 | the in-place parse of a line is the parse of its text, and nothing outside the line changes |
| `AdbParser.ParseDevices` | app/src/adb/adb_parser.c:146-196 | so is the in-place parse of the whole output |
| `AdbParser.LineRoundTrip` | app/src/adb/adb_parser.c:54-144 | whatever the serial contains, a printed line gives back serial, state and first model |
| `AdbParser.LineExactly` | app/src/adb/adb_parser.c:54-144 | both ways: a line gives a device exactly when it is a printed row of that device |
| `AdbParser.TextRoundTrip` | app/src/adb/adb_parser.c:146-196 | every printed list, after any other output and with any line ends, gives back the same devices in order |
| `VideoRegulator.Clock.Update` | app/src/clock.c:17-32 | one weighted, truncating update |
| `VideoRegulator.OffsetWithin` | app/src/clock.c:17-38 | after any updates the offset lies between the extreme differences observed |
| `VideoRegulator.ObserveWeights` | app/src/clock.c:17-32 | the first difference is taken as it is, the n-th counts 33 - n parts of 32 and from the 32nd on one part; the result is exact up to truncation towards zero |
| `VideoRegulator.Regulator.constructor` | app/src/video_regulator.c:153-155 | the initial state |
| `VideoRegulator.Regulator.SinkPush` | app/src/video_regulator.c:200-245 | updates the clock and queues the frame, except the first one when asked to |
| `VideoRegulator.Regulator.SinkPushSession` | app/src/video_regulator.c:247-278 | queues the session |
| `VideoRegulator.Regulator.SinkClose` | app/src/video_regulator.c:181-189 | stops the thread |
| `VideoRegulator.Regulator.TakeNext` | app/src/video_regulator.c:53-68 | takes the oldest item and fixes the latest time to hand it on |
| `VideoRegulator.Regulator.ComputeDeadline` | app/src/video_regulator.c:73-78 | the deadline from the current clock, capped |
| `VideoRegulator.Regulator.WaitEnded` | app/src/video_regulator.c:80-90 | a timeout hands the frame on, a signal recomputes the deadline |
| `VideoRegulator.Regulator.HandedOn` | app/src/video_regulator.c:97-113 | a failing sink stops the regulator |
| `VideoRegulator.RunKeepsInv` | app/src/video_regulator.c:46-128 | every run keeps the invariant |
| `VideoRegulator.RegulatorSafety` | app/src/video_regulator.c:46-128 | in every run: queued frames and sessions leave in push order, exactly one frame skips the queue if asked to and none otherwise, every accepted frame updated the clock once, the clock is read only after an update, no deadline exceeds the dequeue time plus the delay, and deadlines follow the observed differences |
| `VideoRegulator.HandsOnEverything` | app/src/video_regulator.c:46-114 | from every reachable state, unless stopped, the thread alone hands on everything queued in a bounded number of steps when its sinks work |
| `VideoRegulator.TakeSetsLimit` | app/src/video_regulator.c:64-103 | a frame waits at most the delay from the moment it is taken; a session does not wait |
| `VideoRegulator.SignalRecomputes` | app/src/video_regulator.c:73-82 | a signal does not end the wait of a frame |
| `VideoRegulator.Accepts` | app/src/video_regulator.c:200-278 | unless stopped, sessions and frames are queued, except the very first frame when it has to be handed on at once; each frame updates the clock |
| `VideoRegulator.StopDiscards` | app/src/video_regulator.c:84-123 | a stop discards what is queued and hands on nothing more; a sink that refuses stops the regulator |

## Left out

- SDL windows, rendering and OpenGL; FFmpeg decoding, muxing and resampling; libusb, sockets, processes and thread creation: their results are arbitrary inputs of the model.
- Out-of-memory branches, except where a failed reference is part of the protocol (frame buffer).
- The average buffering, the compensation and the resynchronisation counter of the audio regulator: the third write is not counted in `written`, so the claims are about the buffer contents.
- `underflow` and the discontinuity test are modelled in `AudioRegulator`; in `AudioInterleaving` a gap is an arbitrary choice and underflow is only the silence handed out.
- Relaxed memory order: a step of `AudioInterleaving` sees the latest value of every variable; the acquire and release pairs of the cursors are what makes this adequate.
- Aoa.ListExactly: the equality is stated for regular replies, where a device is registered only when it was not and unregistered only when it was; that a registered device is listed or was left behind holds for all replies.
- PasteProtocol.AckSync.Poll: one turn of the wait loop; the 500 ms deadline is the arbitrary `timedOut` result.
- Recorder.RecorderObject.Turn: the flags are read at one moment of the unlocked part; `RecorderStop.ReadsAreAtomic` shows that nothing is lost by that.
- Timestamps.Stream.Write: signed overflow is undefined in C; the model wraps around, as two's complement does. Timestamps before rescaling are unbounded; those of the demuxer are below 2^61, so that their differences fit.
- Condition variables of the recorder and the video regulator, which signal on every change: a thread may step when its condition holds. Lost wakeups are studied where a signal depends on the queue, in the controller and the USB thread.
- The wrap-around of 64-bit sequence numbers and clock ticks.
- Contents of HID reports (axes, buttons, report descriptors) and of control messages other than what the protocols need.
- Freeing of packets and frames; the padding that FFmpeg subtracts from the largest packet size.
- Threads that end early on the device or in the receiver: they are threads that take no further steps.
- The order of the video regulator's directly delivered first frame relative to a session queued before it.
- Resize prevention (`prevent_auto_resize`) and the actual drawing of a frame.
- Builds against an FFmpeg without AV1, where that codec id is unknown.
- The little-endian and fixed-point helpers of `util/binary.h`.
- CommandLine.SerializeWindows: for an empty argument list the C buffer is uninitialised; the model only says that it is not terminated.
- Most of the command-line parser (only the buffering limit is used), `sc_adb_parse_device_ip`, UTF-8 truncation, key and mouse injection, the Android enum tables.
