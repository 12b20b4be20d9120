# cpal: a Dafny model of its stateful protocols

cpal gives Rust programs one interface to many audio systems. Most of it passes calls on to the
platform; around those calls it has a number of small protocols of its own, and this project models
those: how two threads share an ALSA handle, how a pair of handles is started together, how lost audio
is reported, how an ASIO driver's life is tracked, how several streams are mixed into one buffer, and so
on. Foreign calls are reduced to the results and state changes the protocol depends on, and otherwise
answer arbitrarily. `dafny verify dfyconfig.toml` checks everything.

## Modules

- `AlsaPark`: the worker thread and the control thread of an ALSA stream, one shared access per step. A
  run is any interleaving. Safety, callback suppression, the exact condition for a deadlock, and bounds on
  every wait.
- `AlsaPcm`, `Xrun`, `AlsaDrain`, `AlsaDuplex`, `AlsaWorker`: a PCM handle that follows the kernel's rules
  about states and link groups and may fail any call; on it, the drain, recovery, duplex start and
  transfer loops, and the bookkeeping of xruns. The device behind a handle has a `fault` that may change at
  any time: anything may fail, or nothing, or every call of some kinds. So the conditions under which a call
  must succeed can be stated, and histories be given in which a chosen call fails. In a drain the answers
  are given beforehand, and its outcome is a function of them.
- `AsioDriver`, `AsioSample`, `AsioMix`, `AsioClock`: the driver's tracked state against that of an SDK, which
  has a `fault` as well, sample packing, mixing into the double buffer, and the extension of the 32-bit clock.
- `PipewireSync`: device enumeration over two FIFO wires.
- `Runs`, `Latch`, `RtPromoter`: runs of a transition function, and two protocols over park tokens.
- `Jack`: the process handler's buffers and the rollback of port connections.
- `StreamConfig`, `DuplexConfig`: the order on supported configurations, and the choice of a duplex
  configuration.
- `StreamTime`: instants, durations, frame counts, and timestamps that never go back.

## What the code turned out not to do

Each of these is proved, together with the exact condition under which the expected behaviour holds.

- Two `stop()` calls in a row can deadlock an ALSA stream. The acknowledgement is raised once, on entry to
  `acknowledge_park`, while `parked` is tested again after every wakeup; a second request stored before
  the worker has run is never acknowledged. A run deadlocks exactly if some request comes that early
  (`AlsaPark.DeadlockedIffAskedEarly`, `AlsaPark.DoubleStopCanDeadlock`).
- A hardware `pause()` of an ALSA stream does not park the worker, so it can return while the callback runs
  (`AlsaPark.PauseCanLeaveACallback`). The stream is silent from then on exactly if the worker was outside
  the callback at the return (`AlsaPark.PauseSilencesIff`).
- A hardware `pause()` of an ALSA stream that is neither running nor paused fails, where the fallback
  without hardware support succeeds (`AlsaWorker.Stream.SuspendPcm`).
- `drain_pcm` expects to leave an XRun, Running or Disconnected handle to the worker. Under the rules for
  handles in `AlsaPcm` the states it can leave besides Prepared, when it reports success, are XRun, Suspended
  and Disconnected; never Running. It leaves one exactly if the device went away after the drain was over, or
  the time limit was up, at a look at the clock or at the end of a poll, with the handle out of reach: it was
  in, or by the final look at its state turned into, one of those states, and `drop()` had failed or the
  handle was gone (`AlsaDrain.OkOutsidePreparedIff`, `AlsaDrain.EachIsLeftBehind`).
- A drain can report success and have thrown audio away long before its deadline, because one poll lasts at
  most 2^31 - 1 milliseconds and its expiry counts as the end of the time limit. This can happen exactly if
  the time limit is at least 2^31 milliseconds, about 24.8 days (`AlsaDrain.EarlyDiscardIff`).
- A `start_duplex` that failed after its prefill cannot simply be repeated: the silence is still queued,
  and the second prefill needs room for it (`AlsaDuplex.FailedStartBlocksTheNext`). If `unlink` fails in
  `stop_duplex`, the group stays linked while `linked` is false; the next start then starts playback twice
  and fails whatever the device does, and later stops no longer try to unlink
  (`AlsaDuplex.FailedUnlinkBlocksTheNext`). On a device that works a start succeeds exactly under
  `AlsaDuplex.DuplexStream.CanStart`.
- A `start_duplex` in which the handles cannot be linked and `playback.start()` fails leaves capture running.
  The next `start_duplex` finds it running, does nothing and reports success, while playback was never started
  (`AlsaDuplex.HalfStartIsTakenForRunning`).
- A linked pair does not resume from a hardware pause. `pause(false)` on capture releases both handles, so that
  on playback fails and the pair is started anew: what was queued is lost. A pause and a start lose nothing
  exactly if the pair is paused in hardware and not linked, or has nothing queued
  (`AlsaDuplex.DuplexStream.PauseAndStart`).
- After a failed reload inside `set_sample_rate` the driver handle claims `Initialized` while the SDK has no
  initialised driver. This is the only way for the two to differ (`AsioDriver.Driver.SetSampleRate`), and it
  happens to every driver that has to be reloaded for a rate and then cannot be loaded
  (`AsioDriver.FailedReloadLosesTheDriver`).
- A failed destroy of an ASIO driver leaves the driver in a state from the one it was in down to `Initialized`,
  the one in which the refused call found it (`AsioDriver.Driver.DestroyState`), and has removed every buffer
  callback (`AsioDriver.Driver.DestroyInner`, `AsioDriver.FailedDestroyLosesTheCallback`).
- `create_buffers` compares a requested size only with the driver's maximum. A size below the minimum, or a
  negative one, is left to the driver to refuse, after the running streams have been torn down
  (`AsioDriver.Driver.CreateBuffers`).
- The id of an ASIO buffer callback is shared with no registered callback, but is a fresh one only if the latest
  of all ids is still registered (`AsioDriver.Sdk.AddCallback`). After a removal an id can come back
  (`AsioDriver.RemovedIdComesBack`).
- A buffer switch in which no stream writes, because there is none or because the driver calls again for
  the half just written, flips the SDK's flag but not the device's. After the last switch in which a stream
  wrote, the next one is recognised as new exactly if the number of switches in between is even; otherwise
  its streams mix on top of whatever the half held (`AsioMix.Device.Switches`, `AsioMix.Device.SwitchAfter`),
  so that old audio is played again (`AsioMix.Device.PlaysTwiceAfterGap`,
  `AsioMix.Device.PlaysTwiceAfterRepeat`).
- The 64-bit ASIO clock is exact exactly if consecutive readings are less than one turn of the counter
  apart (`AsioClock.ExactIffReadOften`).
- Dropping an unreleased latch wakes every registered waiter exactly if there is at most one
  (`Latch.DropIsSafeIff`). With two, one waiter may hold the flag alive while the other spends its only
  token and parks again. The PulseAudio host registers two (src/host/pulseaudio/stream.rs:385-386).
- A promotion request made shortly before the promoter is dropped may never be taken; it is taken exactly
  if the thread has already passed its check (`RtPromoter.LastRequestTakenIff`).

## Model

| member | source | states |
|---|---|---|
| AlsaPark.RunInv | src/host/alsa/stream.rs:600-655 | The inductive invariant of worker and control thread: the mutex is exclusive, the flags say where both threads are, nobody sleeps through its event, the pipe covers unseen requests, suppression holds; kept by every run. |
| AlsaPark.ParkedMeansExclusive | src/host/alsa/stream.rs:63-78 | From the return of `park_worker` to `unpark_worker` the worker waits inside `acknowledge_park` or has exited, and none of its possible steps touches the PCM. |
| AlsaPark.ParkingCallsPark | src/host/alsa/stream.rs:209-226 | A `stop()`, and a `pause()` that falls back from the hardware, does not return before it has had the PCM for itself. |
| AlsaPark.AcknowledgementIsFresh | src/host/alsa/stream.rs:615-655 | A true acknowledgement belongs to the request in force, and between control calls neither a request nor an acknowledgement is left over, whatever the call's outcome. |
| AlsaPark.StopSilencesTheCallback | src/host/alsa/stream.rs:455-475 | After `stop()` has returned, or while a parking call owns the PCM, the callback does not run until a `start()` clears `draining`. |
| AlsaPark.SilenceUntilRestart | src/host/alsa/worker.rs:362-405 | Suppression, once in force outside the callback, lasts until the next `start()` in every interleaving, because the flag is read after the park. |
| AlsaPark.StartEndsSilence | src/host/alsa/stream.rs:406-441 | Once `start()` has returned nothing suppresses the callback, and a worker with a period in its hands calls it next. |
| AlsaPark.StartedStreamPlays | src/host/alsa/worker.rs:38-68 | As long as the device reports its periods and nothing fails, the worker of a started stream is never blocked and reaches the callback within a number of steps known in advance. |
| AlsaPark.StopThenStartPlays | src/host/alsa/stream.rs:406-475 | There is a run in which `stop()` returns, `start()` returns, and the callback is called. |
| AlsaPark.PauseLeavesOneCallback | src/host/alsa/stream.rs:209-217 | After the return of a hardware pause the callback runs only if it was running then and has not ended since. |
| AlsaPark.PauseSilencesIff | src/host/alsa/stream.rs:442-453 | A stream that `pause()` has returned for is silent until the next `start()` if and only if the worker was outside the callback at the return. |
| AlsaPark.PauseCanLeaveACallback | src/host/alsa/stream.rs:209-217 | A hardware pause can return while the callback runs. |
| AlsaPark.DeadlockedIffAskedEarly | src/host/alsa/stream.rs:626-637 | A state of a run is deadlocked if and only if some park request was stored while the worker was still inside the previous acknowledgement. |
| AlsaPark.DeadlockIsForever | src/host/alsa/stream.rs:615-624 | From a deadlocked state the control thread never gets the PCM. |
| AlsaPark.DoubleStopCanDeadlock | src/host/alsa/stream.rs:455-475 | A run that consists of two `stop()` calls and nothing else, the first of which has returned, ends in a deadlock. |
| AlsaPark.ParkProgress | src/host/alsa/worker.rs:36-69 | While `park_worker` waits in a state that is not deadlocked, the worker can step without help, and each step wakes the control thread or comes closer to doing so. |
| AlsaPark.ParkWaitIsBounded | src/host/alsa/stream.rs:615-624 | Between a request that did not come early and its answer the worker takes at most ten steps, however often the control thread wakes up in between. |
| AlsaPark.WorkerCanAnswer | src/host/alsa/stream.rs:615-637 | And it can take each of them unless the control thread is just holding the mutex. |
| AlsaPark.OnlyEarlyRequestsBlock | src/host/alsa/stream.rs:395-475 | While a control call is in progress, some thread can step without a spurious wakeup or a device event, unless a request came early. |
| AlsaPark.ShutdownProgress | src/host/alsa/stream.rs:304-316 | After `shutdown_worker` the worker is not blocked in the latch, the condition variable or a poll with an empty pipe, and every step of it brings its end closer. |
| AlsaPark.JoinIsBounded | src/host/alsa/stream.rs:395-404 | Dropping a stream joins the worker after at most twelve further steps of it. |
| AlsaPark.DropJoins | src/host/alsa/stream.rs:395-404 | A drop that has returned has seen the end of the worker. |
| AlsaPark.WorkerEndsIff | src/host/alsa/worker.rs:38-68 | The worker begins to end if and only if the device is lost or the stream is dropped; no other error ends it. |
| AlsaPark.EndingProgress | src/host/alsa/stream.rs:600-655 | It then waits for nothing but the mutex, and every step brings the end closer. |
| Xrun.ExactAfter | src/host/alsa/worker.rs:320-325 | A log in which every callback reports an xrun exactly if one was marked since the callback before stays that way when a mark, or a callback that tells the truth, is added. |
| Xrun.OwedAfter | src/host/alsa/worker.rs:374-388 | An xrun is owed after an event exactly if the event marked one. |
| AlsaDrain.DiscardBuffer | src/host/alsa/stream.rs:319-325 | Success leaves the whole group Prepared; failure leaves it untouched or in Setup. |
| AlsaDrain.DrainPcm | src/host/alsa/stream.rs:327-393 | What happens to the handle, the clock and the polls, and to the state of the other member of a link group, is the function `Drained` of the device's answers; success leaves the handle armed or in one of three states left to the worker. |
| AlsaDrain.DrainRound | src/host/alsa/stream.rs:339-374 | One round of the loop is the function `AfterRound` of the answers. |
| AlsaDrain.Rearm | src/host/alsa/stream.rs:379-393 | A handle found in Setup is prepared, one found Draining is halted and prepared, whatever the result so far, and the first error is kept. |
| AlsaDrain.DrainEnds | src/host/alsa/stream.rs:339-393 | How a drain with time ends, for all answers: a failed drain or poll is the result, and the handle is armed all the same if and only if it was found halted and can be prepared, or draining and can also be halted, or was armed all along; otherwise success, or EBUSY if arming fails; every frame is played, lost or still queued, and a handle that was armed has none queued. |
| AlsaDrain.FailedPollStillArms | src/host/alsa/stream.rs:359-390 | A poll that fails in the middle of a drain leaves the handle armed, with the error reported and what was queued lost. |
| AlsaDrain.OkOutsidePreparedIff | src/host/alsa/stream.rs:345-390 | A drain reports success without arming the handle if and only if the device went away after the drain was over, or the time was up with the handle in XRun, Suspended or Disconnected, by then or by the final look at its state, and not halted by `drop()`; never in Running or Paused. |
| AlsaDrain.EachIsLeftBehind | src/host/alsa/stream.rs:345-390 | Each of the three states is left by some answers, through an expired poll as well as through a deadline that has passed before the poll. |
| AlsaDrain.UnlimitedDrainPlaysEverything | src/host/alsa/stream.rs:336-374 | A drain without a time limit that reports success has played everything, whatever the device answered, and leaves the handle armed unless it is gone by then. |
| AlsaDrain.EarlyDiscardIff | src/host/alsa/stream.rs:345-363 | For some answers a successful drain throws frames away more than a millisecond before its deadline, if and only if its time limit is at least 2^31 milliseconds. |
| AlsaDrain.DiscardsLate | src/host/alsa/stream.rs:345-363 | Below that, no answers whatever make it do so. |
| AlsaDrain.PollsRespectTheDeadline | src/host/alsa/stream.rs:345-358 | Every poll is made after the start and asked to last until the deadline at most, and without a limit only if there is none. |
| AlsaDrain.LimitedDrainEnds | src/host/alsa/stream.rs:339-374 | If the clock moves on whenever it is read, a drain with a deadline the clock can represent ends. |
| AlsaDrain.DrainKeepsLimit | src/host/alsa/stream.rs:336-374 | The three claims about time limits for one drain: no poll past the deadline, an end, and nothing thrown away early. |
| AlsaDrain.ObligingDrain | src/host/alsa/stream.rs:327-393 | On a device that works a drain that ends succeeds if and only if the handle can be drained, or halted where there is no time at all, provided the other member of a link group, if there is one, is not in the way; it leaves the handle armed and empty. |
| AlsaDrain.ZeroTimeDiscards | src/host/alsa/stream.rs:328-332 | A zero time limit throws away everything queued. |
| AlsaDuplex.DuplexStream.BeginDuplexPlayback | src/host/alsa/duplex.rs:119-148 | Success means both handles run and exactly two periods of silence were queued first; a device that works succeeds if and only if both are Prepared, the silence fits, and a linked group is known to be linked; a group that is not known never starts; a pair that can neither be linked nor have playback started ends with capture running alone. |
| AlsaDuplex.DuplexStream.StartDuplex | src/host/alsa/duplex.rs:19-50 | Entered with capture in Prepared, Setup or Paused, success means both handles run, behind two periods of silence unless the pair was resumed; on a device that works it succeeds if and only if `CanStart`, a resumed pair keeps its queue and one that must be armed again loses it; entered in any other state it reports success and changes nothing; on any device it fails for a group with a false flag. |
| AlsaDuplex.FailedStartBlocksTheNext | src/host/alsa/duplex.rs:119-148 | A history in which START fails once and the next start fails on a device that works, because the silence is still queued. |
| AlsaDuplex.FailedUnlinkBlocksTheNext | src/host/alsa/stream.rs:282-299 | A history in which `unlink` fails once, and the next start fails on a device that works and another stop does not help. |
| AlsaDuplex.HalfStartIsTakenForRunning | src/host/alsa/duplex.rs:37-49 | A history in which linking and `playback.start()` fail once, and the next start reports success on a device that works with playback never started. |
| AlsaDuplex.DuplexStream.RestartBoth | src/host/alsa/duplex.rs:28-35 | Halting and arming both handles from any states and starting them succeeds on a working device if and only if neither is disconnected, the group is what the stream believes, and two periods fit. |
| AlsaDuplex.DuplexStream.RecoverDuplex | src/host/alsa/duplex.rs:150-162 | Recovery marks an xrun even when it fails; success leaves both handles running behind two periods of silence, with what was queued lost; a device that works succeeds if and only if neither handle is gone, the group is known and the silence fits. |
| AlsaDuplex.DuplexStream.PauseDuplex | src/host/alsa/stream.rs:240-276 | Success leaves neither handle running, whether both were paused, one of them failed, or the buffers were discarded; on a working pair it succeeds, pausing both if the parameters allow it and otherwise halting and arming them. |
| AlsaDuplex.DuplexStream.PauseAndStart | src/host/alsa/duplex.rs:19-36 | Pausing a running pair on a device that works and starting it again resumes it with its queue if the pause was in hardware and the pair is not linked; otherwise what was queued is lost and the pair runs behind two periods of silence, if they fit and the group is known. |
| AlsaDuplex.DuplexStream.StopDuplex | src/host/alsa/stream.rs:278-299 | Afterwards the stream no longer claims a link; if the link flag was right and the device unlinks, the group is dissolved, and then a stop without a time limit that succeeds has played everything and left playback Prepared, and one with a limit keeps it: its polls end by the deadline, it ends, and it throws nothing away early; a device that works stops whenever playback can be drained. |
| AlsaDuplex.DuplexStream.ReadPeriod | src/host/alsa/duplex.rs:350-368 | However the transfer was split, the buffer holds the next whole period; nothing is kept of a partial one. EAGAIN before any frame moves nothing; an xrun, a suspend, or EAGAIN in the middle restarts the pair, and any other error is reported. A working capture that runs delivers the period. |
| AlsaDuplex.DuplexStream.WritePeriod | src/host/alsa/duplex.rs:432-451 | The frames that went out are a prefix of the buffer, in order and once. EAGAIN before any frame moves nothing; an xrun, a suspend, or EAGAIN in the middle restarts the pair, and any other error is reported. A working playback with room takes the period. |
| AlsaDuplex.DuplexStream.ProcessDuplex | src/host/alsa/duplex.rs:340-452 | A cycle that returns Ok read one period and wrote the whole buffer, or restarted the pair and owes the xrun, or moved nothing in the direction being transferred; on every path the callback gets exactly the period read in this cycle or does not run. On a device that works and is ready the cycle completes. |
| AlsaDuplex.DuplexStream.PollForDuplexPeriod | src/host/alsa/duplex.rs:248-338 | A cycle begins if and only if the device reports a whole period in both directions and nothing fails; recovery is asked for exactly if one xrun was marked; every other outcome is determined by the answers and the states of capture, then playback; a steady device keeps its states. |
| AlsaDuplex.DuplexStream.WorkerTurn | src/host/alsa/duplex.rs:52-116 | With a period ready both ways a device that works moves one each way, with exactly one callback unless suppressed; on any device the cycle completes, or restarts the pair, or moves nothing in the direction that is not ready, or fails; a poll that fails or finds nothing has no further effect, and a working pair recovers if and only if it can. |
| AlsaDuplex.DuplexStream.AnyHistory | src/host/alsa/duplex.rs:52-116 | Over any order of worker turns and control calls and any device behaviour: `linked` implies a real link, every callback gets a whole period, and reports an xrun exactly if one is owed. |
| AlsaDuplex.DuplexStream.AnyAccesses | src/host/alsa/duplex.rs:19-162 | The same over any order of single accesses to handles, flags and callback, as when a start or a hardware pause runs beside the worker: `linked` implies a real link because only the thread whose `link` worked stores it, and a stop, which parks the worker, clears it before it unlinks. |
| AlsaWorker.Stream.TryResume | src/host/alsa/worker.rs:179-215 | A restart is asked for, and an xrun marked, if and only if the hardware has no resume or answers ENOSYS; EAGAIN waits and any other error is reported; a working capture that came back only armed is set going. |
| AlsaWorker.Stream.PollForPeriod | src/host/alsa/worker.rs:228-318 | A cycle begins if and only if the device reports a whole period and nothing fails; a restart is asked for exactly if one xrun was marked; a timeout in XRun, Suspended or Disconnected is not overlooked. |
| AlsaWorker.Stream.RecoverStream | src/host/alsa/worker.rs:320-389 | The xrun is marked even if preparing fails; success leaves an input Running and an output Prepared. |
| AlsaWorker.Stream.HandleFailure | src/host/alsa/worker.rs:336-361 | EAGAIN before any frame is a spurious wakeup and changes nothing; an xrun, or EAGAIN in the middle, restarts the stream, as does a suspend from which there is no resume; any other error is reported; a working device restarts if and only if the handle is idle. |
| AlsaWorker.Stream.ProcessInput | src/host/alsa/worker.rs:328-383 | The callback gets exactly the whole period read in this cycle, or does not run; a partial read is never delivered. On a working device that runs the cycle completes. |
| AlsaWorker.Stream.ProcessOutput | src/host/alsa/worker.rs:391-448 | The callback runs once unless suppressed, and on completion its whole buffer, or silence, went out once and in order. On a working device with room the cycle completes, and sets a prepared stream going exactly when the threshold is reached. |
| AlsaWorker.Stream.Turn | src/host/alsa/worker.rs:38-68 | With a period ready a device that works moves exactly one period, with exactly one callback unless suppressed; a poll that finds nothing has no further effect. |
| AlsaWorker.Stream.Run | src/host/alsa/worker.rs:19-126 | Over any run of an input or output worker each callback reports an xrun exactly if one was marked since the one before. |
| AlsaWorker.Stream.StartPcm | src/host/alsa/stream.rs:408-433 | On a device that works `start()` always succeeds: an input runs, a paused stream runs again, an output is armed. |
| AlsaWorker.Stream.SuspendPcm | src/host/alsa/stream.rs:209-226 | On a device that works `pause()` succeeds if and only if the parameters can be read and, where hardware pause is supported, the stream is running or paused. |
| AlsaWorker.Stream.StopPcm | src/host/alsa/stream.rs:455-470 | An input discards what it captured; an output is the drain with just this time limit, which it keeps; without one a success has played everything whatever the device did, and with a zero limit thrown everything away; on a device that works success is characterised by the entry state. |
| AlsaWorker.Stream.PauseAndStart | src/host/alsa/stream.rs:408-453 | Starting after a pause undoes it: with a hardware pause nothing queued is lost. |
| AlsaWorker.FeedAndPause | src/host/alsa/hw_params.rs:109-134 | On a device that works the second period sets an output going by itself, and pausing and starting it loses nothing where the hardware can pause. |
| AsioDriver.Driver.StopState | asio-sys/src/bindings/mod.rs:986-995 | The tracked state stays the SDK's, a failed stop leaves both running, an SDK that stops is stopped, and one that refuses fails exactly if it was running. |
| AsioDriver.Driver.DisposeState | asio-sys/src/bindings/mod.rs:997-1009 | Buffers are disposed of only after a stop; a failure keeps the states equal, at Running if the stop was refused and at Prepared if the disposal was. |
| AsioDriver.Driver.DestroyState | asio-sys/src/bindings/mod.rs:1011-1023 | The SDK calls are issued in their legal states in order and success unloads the driver; a failure keeps the states equal, no higher than before, and if one kind of call is refused it fails exactly if the teardown needs that call, in the state in which that call is due. |
| AsioDriver.Driver.CreateBuffers | asio-sys/src/bindings/mod.rs:685-734 | Success means Prepared on both sides with the size asked for; a size above the maximum is refused before anything changes; any other size the driver does not offer fails only once the driver is torn down to Initialized; on an SDK that works the result is determined by the sizes. |
| AsioDriver.Driver.Start | asio-sys/src/bindings/mod.rs:866-876 | Success means running on both sides and failure changes nothing; an SDK that works starts if and only if there are buffers. |
| AsioDriver.Driver.SetSampleRate | asio-sys/src/bindings/mod.rs:593-660 | The states agree afterwards if and only if no load or initialisation failed during the call; success means the driver reports the wanted rate to within one, and on an SDK that works it succeeds if and only if the driver runs at that rate, takes it at once, or takes it on a reload after its buffers have run and has a usable preferred size; a load refused during a reload always loses the driver. |
| AsioDriver.FailedReloadLosesTheDriver | asio-sys/src/bindings/mod.rs:593-660 | Any driver that has to be reloaded for a rate and cannot be loaded again ends with a handle that says Initialized and no driver in the SDK. |
| AsioDriver.Driver.DestroyInner | asio-sys/src/bindings/mod.rs:1041-1068 | A failed destroy keeps the states equal, somewhere between the old state and Initialized, ready for another attempt; the buffer callbacks are removed either way. |
| AsioDriver.FailedDestroyLosesTheCallback | asio-sys/src/bindings/mod.rs:1041-1068 | A running driver with a callback whose buffers cannot be disposed of is left Prepared, not destroyed and without the callback. |
| AsioDriver.Driver.Destroy | asio-sys/src/bindings/mod.rs:931-940 | Only the last handle destroys the driver; it tries twice unless the first attempt works; what is not destroyed is still tracked and no higher than before, and if one kind of call is refused the driver goes exactly if the teardown does not need it. |
| AsioDriver.AnyCalls | asio-sys/src/bindings/mod.rs:590-892 | Over any sequence of calls and any failures the tracked state is the SDK's, if and only if no reload failed. |
| AsioDriver.Sdk.AddCallback | asio-sys/src/bindings/mod.rs:893-905 | The new id differs from every registered one, because ids grow in order of registration; no earlier callback ever had it if and only if the latest of all ids is still registered or there was none. |
| AsioDriver.Sdk.RemoveCallback | asio-sys/src/bindings/mod.rs:908-921 | Removing an id removes it and no other, and keeps the order that makes new ids unique. |
| AsioDriver.RemovedIdComesBack | asio-sys/src/bindings/mod.rs:893-921 | Registering, removing and registering again hands out an id that an earlier callback had. |
| AsioSample.DecodeEncode | src/host/asio/stream.rs:1406-1420 | Packing a sample and unpacking it gives it back, for every width and both byte orders. |
| AsioSample.EncodeDecode | src/host/asio/stream.rs:1334-1345 | Every word is the packing of the value it unpacks to, and that value fits. |
| AsioSample.ByteOrder | src/host/asio/stream.rs:1406-1420 | The least significant byte comes first in memory in the one order and last in the other. |
| AsioSample.I24UnpackIsDecode | src/host/asio/stream.rs:1334-1345 | The hand-written 24-bit unpacking with its sign extension is two's complement at width three. |
| AsioSample.I24PackIsEncode | src/host/asio/stream.rs:1411-1420 | Taking three bytes of the 32-bit value packs every 24-bit value correctly. |
| AsioSample.SatAddIsNearest | src/host/asio/stream.rs:686-724 | A sum that fits is exact, and one that does not becomes the end of the range on its own side, which is the nearest value there is. |
| AsioSample.MixOfOneSign | src/host/asio/stream.rs:686-724 | Any number of samples of one sign mix to the value nearest to their true sum, in whatever order they come. |
| AsioSample.MixInRange | src/host/asio/stream.rs:686-724 | Samples none of whose partial sums leaves the range mix to their true sum. |
| AsioMix.MixWordsIsTheMix | src/host/asio/stream.rs:686-690 | Mixing samples into a word one after the other leaves the saturating left-to-right sum, from silence or from what the word held. |
| AsioMix.SwitchMixesTheStreams | src/host/asio/stream.rs:595-692 | After a switch every word of the half holds the sum of what the streams rendered for it, from silence if the switch was recognised as new and on top of the old content otherwise. |
| AsioMix.SumsOfOneSign | src/host/asio/stream.rs:595-692 | Where streams do not cancel, a word of a half that holds their sums is the value nearest to the true sum: two loud streams stop at the end they are at. |
| AsioMix.SumsAreMonotone | src/host/asio/stream.rs:595-692 | Louder samples never lower a word. |
| AsioMix.SampleAtIsInterleaved | src/host/asio/stream.rs:644-692 | Channels of a frame lie next to one another, the first first, and frames follow one another. |
| AsioMix.Device.RunStream | src/host/asio/stream.rs:595-642 | A stream ignores a half it has just written, and silences it exactly if the flag says no stream has run in this switch. |
| AsioMix.Device.BufferSwitch | asio-sys/src/bindings/mod.rs:1260-1277 | For any half, again or alternating: the streams that have not just written it add their renderings in order of registration, from silence if the switch is recognised as new. |
| AsioMix.Device.constructor | src/host/asio/device.rs:225 | A device starts ready for either half, whatever the SDK's flag is by then. |
| AsioMix.Device.Switch | src/host/asio/stream.rs:595-692 | The half then holds the sums of what the writers rendered, or those sums on top of what it held; if nobody writes it is left alone. |
| AsioMix.Device.Cycle | src/host/asio/stream.rs:595-692 | With a driver that alternates its halves and at least one stream, the half holds exactly the sums of this cycle, whatever it held before. |
| AsioMix.Device.Cycles | src/host/asio/stream.rs:595-692 | The same after any number of cycles with streams registered and dropped in between, as long as some stream is left. |
| AsioMix.Device.Switches | src/host/asio/stream.rs:595-642 | After any sequence of switches, repeated and empty ones included, the next is recognised as new if and only if no stream has written yet, or the number of switches since the last in which one did is even. |
| AsioMix.Device.SwitchAfter | src/host/asio/stream.rs:595-692 | After any such sequence a switch leaves exactly the sums of its writers in that case, and the sums on top of the old content otherwise. |
| AsioMix.Device.PlaysTwiceAfterGap | src/host/asio/stream.rs:634-642 | One empty switch makes the streams that come back play an old cycle again. |
| AsioMix.Device.PlaysTwiceAfterRepeat | src/host/asio/stream.rs:595-602 | So does one repeated call of the driver. |
| AsioClock.Replay | src/host/asio/stream.rs:26-50 | For any readings each result is the reading plus one turn for every descent so far, in 64-bit arithmetic that does not wrap around as long as the last of them fits. |
| AsioClock.PrefixInstant | src/host/asio/stream.rs:26-50 | The results never decrease, whatever the counter shows. |
| AsioClock.DescentsAgainstWraps | src/host/asio/stream.rs:33-49 | The descents seen never exceed the true wraps, and equal them if and only if every gap is shorter than a turn. |
| AsioClock.ExactIffReadOften | src/host/asio/stream.rs:26-50 | The result is the true time less the whole turns before the first reading if and only if every gap is shorter than a turn. |
| PipewireSync.Session.OnDone | src/host/pipewire/device.rs:849-866 | Strikes the first matching sync off the list, and quits exactly if that empties it. |
| PipewireSync.Session.OnGlobal | src/host/pipewire/device.rs:873-1103 | A kept node is bound and then followed by a sync, which is pending from then on. |
| PipewireSync.Listen | src/host/pipewire/device.rs:961-1103 | Sending a sync after each bind keeps every undiscovered node's info before the answer to some pending sync. |
| PipewireSync.Announce | src/host/pipewire/device.rs:831-845 | Since the registry is requested before the first sync, every node existing then is announced before that sync is answered. |
| PipewireSync.Session.Receive | src/host/pipewire/device.rs:849-1119 | Reading any event keeps the pending list equal to the unanswered syncs and every claim about nodes covered; an announcement is reacted to as its outcome says, the info of a bound node is taken in, and an answer strikes its sync and quits if it was the last. |
| PipewireSync.Session.Serve | src/host/pipewire/device.rs:831-845 | So does every answer of the server. |
| PipewireSync.Session.QuitMeansComplete | src/host/pipewire/device.rs:849-866 | If the loop quits with an empty list, everything that existed when the registry was asked has been handled and every bound node discovered. |
| PipewireSync.AnySchedule | src/host/pipewire/device.rs:827-1119 | From the start and over any schedule of both sides, the timeout included, a quit with an empty list has missed nothing. |
| PipewireSync.Session.Settle | src/host/pipewire/device.rs:1106-1119 | A server that keeps answering ends the enumeration without the timeout, for any scheduling, within a number of steps known in advance. |
| Latch.ReleaseLosesNobody | src/host/latch.rs:59-66 | However many threads wait, none is parked without a wakeup coming once the latch is released. |
| Latch.AnswersAreTrue | src/host/latch.rs:93-103 | `wait` returns true only if the latch was released and false only if it was dropped. |
| Latch.DropLosesNoSoleWaiter | src/host/latch.rs:69-78 | A single waiter does not sleep through the drop of an unreleased latch. |
| Latch.DropLosesAWaiter | src/host/latch.rs:69-78 | For every count from two up there is a run in which the drop leaves a waiter parked for good. |
| Latch.DropIsSafeIff | src/host/latch.rs:69-103 | Dropping an unreleased latch is safe in all runs if and only if at most one waiter is registered. |
| Latch.LostForever | src/host/latch.rs:93-103 | Nothing but a spurious wakeup ends such a wait. |
| Latch.WaitIsBounded | src/host/latch.rs:93-103 | Once the latch is over, `wait` takes at most four more steps. |
| Latch.WaiterCanMove | src/host/latch.rs:59-103 | And each of them is possible as soon as the owner is past this thread. |
| RtPromoter.NeverSleepsOnWork | src/host/pipewire/rt_promote.rs:43-74 | With a request in the slot or after the drop, the thread is not parked without a token once `unpark` is done. |
| RtPromoter.AsleepMeansServed | src/host/pipewire/rt_promote.rs:60-74 | Parked with no wakeup coming, it has taken the latest non-zero request. |
| RtPromoter.EveryTakenIsTried | src/host/pipewire/rt_promote.rs:57-69 | Every request that is taken leads to one attempt with its number of frames, and the thread counts as promoted if and only if one of them worked. |
| RtPromoter.RequestIsServed | src/host/pipewire/rt_promote.rs:43-74 | A request followed by neither another nor the drop is taken within three accesses of the thread and tried with the next. |
| RtPromoter.ExitDemotes | src/host/pipewire/rt_promote.rs:46-56 | It ends only after the drop, and has tried to demote a thread it promoted. |
| RtPromoter.ShutdownRun | src/host/pipewire/rt_promote.rs:43-109 | After the drop it makes at most four more accesses, and whether the last request is taken is decided at the drop. |
| RtPromoter.LastRequestTakenIff | src/host/pipewire/rt_promote.rs:94-109 | The last request is taken before the end if and only if at the drop the slot is empty or the thread is about to look into it. |
| RtPromoter.RequestThenDropIsLost | src/host/pipewire/rt_promote.rs:94-109 | A request followed by a drop before the thread runs is never taken. |
| Jack.InterleavesIsUnique | src/host/jack/stream.rs:351-366 | The ports determine the interleaved data completely. |
| Jack.FramesInOrder | src/host/jack/stream.rs:354-366 | The data is frame after frame, and in each frame channel after channel, the first first. |
| Jack.FramesToPorts | src/host/jack/stream.rs:385-400 | The same on the way back to the ports. |
| Jack.WriteUndoesRead | src/host/jack/stream.rs:354-400 | For equal channel counts writing back what was read restores every port, with silence after a truncated period. |
| Jack.ReadInput | src/host/jack/stream.rs:354-366 | The data holds the first frames of every port, interleaved, and nothing else. |
| Jack.WriteOutput | src/host/jack/stream.rs:385-400 | Every port holds its samples of the data and silence after them. |
| Jack.ProcessHandler.BufferSize | src/host/jack/stream.rs:622-634 | Both buffers have room for the new period, and are replaced exactly if it differs. |
| Jack.ProcessHandler.Process | src/host/jack/stream.rs:402-620 | A playing cycle hands over min(n, buffer size) frames and fills the ports with the answer and silence after; a truncated cycle reports an xrun; a cycle that is not playing only silences the ports. |
| Jack.ProcessHandler.AnyOrder | src/host/jack/stream.rs:402-634 | Over any order of cycles, period changes, xruns and pauses every access is in range and every callback reports an xrun exactly if one is owed. |
| Jack.PortGraph.ConnectPairs | src/host/jack/stream.rs:231-246 | A willing server ends with all pairs connected if and only if they differ and none was connected before; on failure the graph is what it was if and only if every disconnection of the rollback succeeded, and connections made by others are never touched. |
| StreamConfig.CompareFlips | src/lib.rs:837-896 | Any two ranges are comparable, and comparing the other way round gives the opposite answer. |
| StreamConfig.AtMostTransitive | src/lib.rs:837-896 | The order is transitive. |
| StreamConfig.RankIsBetter | src/lib.rs:854-872 | The ranks order the formats as the documentation does: floating point, the shorter first, then integers of 16 to 32 bits, then other integers, then DSD, and within each the wider first and signed before unsigned. |
| StreamConfig.TiesAgree | src/lib.rs:785-792 | Ranges that tie make the same default. |
| StreamConfig.MaxBy | src/host/audioworklet/mod.rs:189-199 | The result is a range no other exceeds, and there is one unless the list is empty. |
| StreamConfig.DefaultsAgree | src/host/alsa/device.rs:490-504 | Sorting upwards and taking the last, downwards and taking the first, and taking the maximum give the same default for every list. |
| StreamConfig.FirstIsGreatest | src/host/aaudio/mod.rs:635-647 | The first of a descending list is a range no other exceeds. |
| StreamConfig.GreatestChannels | src/lib.rs:815-822 | The default is stereo if anything is, else mono, else has the most channels. |
| StreamConfig.GreatestFormat | src/lib.rs:854-877 | With its channel count the default has F32 if that is offered, else F64, else the widest integer of 16 to 32 bits, else one of 64 bits, else one of 8, signed before unsigned, and DSD only if nothing else is offered. |
| StreamConfig.GreatestFormatAndRate | src/lib.rs:823-836 | Among ranges with its channel count it has the best format, and with that 48000, else 44100, else the highest rate. |
| DuplexConfig.CandidateRates | src/traits.rs:281-294 | The candidates are the directions' own rates, the higher first, then 48000 and 44100, without repetition. |
| DuplexConfig.FirstCommonIsFirst | src/traits.rs:296-304 | The candidate chosen is the first that both directions support. |
| DuplexConfig.HighestCommonIsHighest | src/traits.rs:305-315 | The fallback is the greatest rate in an input and an output range, and missing only if there is none. |
| DuplexConfig.BestChannels | src/traits.rs:324-347 | A channel count is found exactly if some range contains the rate; it is the preferred one if available and otherwise that of a greatest range. |
| DuplexConfig.DefaultDuplexConfig | src/traits.rs:268-360 | Succeeds if and only if duplex is supported, both lists are available and a common rate exists; the errors about a missing input or output configuration cannot occur. |
| DuplexConfig.PreferredRate | src/traits.rs:281-315 | The rate is a default of one direction whenever one of them is common, the higher if both are; else 48000 if common, else 44100, else the highest common rate. |
| DuplexConfig.FitRateIsUnique | src/traits.rs:296-321 | The stated properties leave only one rate. |
| DuplexConfig.FitChannelsIsUnique | src/traits.rs:324-347 | And only one channel count per direction. |
| StreamTime.OrderAgrees | src/timestamp.rs:37-41 | The derived order is the order of the nanosecond counts. |
| StreamTime.AddIsExact | src/timestamp.rs:102-107 | Addition is exact and fails if and only if the sum is not an instant. |
| StreamTime.SubIsExact | src/timestamp.rs:109-116 | Subtraction is exact and fails if and only if the difference is negative. |
| StreamTime.DurationIsExact | src/timestamp.rs:74-84 | The duration between instants is exact and missing if and only if they are out of order. |
| StreamTime.InstantArithmetic | src/timestamp.rs:74-116 | Adding, subtracting and measuring undo one another. |
| StreamTime.ConstructorsAreExact | src/timestamp.rs:123-184 | The constructors from nanoseconds, microseconds, milliseconds and seconds are exact, and `new` fails if and only if the carry overflows. |
| StreamTime.ScaledFits | src/host/mod.rs:257-275 | No intermediate value overflows its integer type. |
| StreamTime.FramesToDurationIsQuotient | src/host/mod.rs:257-275 | Splitting off whole seconds gives the exact quotient rounded to the nearest nanosecond, also where rounding carries into a second. |
| StreamTime.FramesToDurationIsNearest | src/host/mod.rs:257-275 | The result is within half a nanosecond of frames over rate, and zero for a rate of zero. |
| StreamTime.FramesToDurationIsMonotone | src/host/mod.rs:257-275 | More frames never take less time. |
| StreamTime.Wrap | src/host/mod.rs:326-349 | The timestamps a wrapped callback sees are the highest reported so far. |
| StreamTime.SeenNeverGoesBack | src/host/mod.rs:326-349 | They never go back. |
| StreamTime.HighestOfAscending | src/host/mod.rs:326-333 | A clock that does not go back is passed on unchanged, up to 2^64 nanoseconds. |
| StreamTime.HighestIsReached | src/host/mod.rs:326-349 | Every timestamp seen is one that was reported. |

## Left out

- AlsaPark.RunInv: weak memory ordering is not modelled; the atomics are sequentially consistent.
- AlsaPark.DeadlockedIffAskedEarly: control calls on one stream are serialised, because the code orders no two of them.
- AlsaPark.ShutdownProgress: the self-pipe is a counter of tokens; the retries of `wakeup` and `clear_pipe` on EINTR, EAGAIN and errors, and the pipe's capacity, are not modelled.
- AlsaDuplex.DuplexStream.AnyHistory: a control call runs between two turns of the worker; what a turn achieves while a hardware pause or a `start_duplex` races with it is not stated, only what `AnyAccesses` keeps.
- AlsaDuplex.DuplexStream.PollForDuplexPeriod: how revents are mapped is reduced to its outcomes, and the period is counted in frames.
- AlsaWorker.Stream.Run: timestamps, latency and the real-time promotion of the worker are not part of this model.
- AlsaDrain.DrainPcm: the other member of a link group keeps still while the handle drains. A handle changes state by itself between a `drain()` and its poll, during the poll, and before its state is looked at last, but not between that look and the `drop()` or `prepare()` it leads to, where a change could only decide whether arming fails.
- AsioDriver.Driver.CreateBuffers: the granularity of buffer sizes; a size is one the driver offers if it lies in its range.
- AsioDriver.AnyCalls: each call runs under the state lock as in the code, except that nothing is said about calls of other handles between the steps of `set_sample_rate`; loading a driver while the last handle is dropped is not ordered by the code and not modelled.
- AsioMix.Device.BufferSwitch: floating-point sample formats; streams of clones with different channel counts.
- The ASIO event registry, which repeats the callback registry, the event debounce loop, channel and latency queries: each is one branch or a list operation.
- AsioClock.Replay: the race of `now()` with a callback at the moment the counter wraps.
- PipewireSync.Session.QuitMeansComplete: a node announced twice under one id, and the settings metadata, which follows the same bind and sync; parsing of fractions and rate lists, and the contents of node properties.
- Latch.DropIsSafeIff: a thread that is not registered on the latch is not woken by it at all and is not modelled.
- RtPromoter.ShutdownRun: requests come from one thread and precede the drop, which Rust's ownership ensures.
- Jack.ProcessHandler.Process: timestamps and the published playback delay, the real-time check, error texts.
- Jack.PortGraph.ConnectPairs: other clients do not change the graph during the call.
- StreamConfig.DefaultsAgree: the sorts of the standard library appear as their result, a sorted permutation.
- StreamTime.ConstructorsAreExact: `from_secs_f64` and other floating-point conversions.
- The platform hosts, dispatch macro, device descriptions and error mapping tables: bindings and one-branch facts.
- AudioWorklet buffers: they repeat the interleaving of JACK with less state.
