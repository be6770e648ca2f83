# One-to-many broadcast: a verified model

The module fans the audio of one speaker out to thousands of listeners inside FreeSWITCH. A producer
thread publishes a frame every interval into a ring of slots; each listener's session thread and each
recording thread reads the ring through a cursor of its own and takes no lock to do so. Members come,
go, are promoted and replaced on their own session threads while API calls signal them, a destroyer
takes rooms down, and an emitter and a housekeeping run walk the table of rooms. This project models
that in Dafny and proves what it has to keep.

Each file opens with a sentence on its subject; they group as follows.

- **The ring.** `Ring.dfy` compares ring, listener cursor and join cursor with the unbounded log of
  everything ever published; `Recorder.dfy` does so for recordings; `RoomRing.dfy` has the circular array,
  the output tick and the recording loop themselves, updated in place; `TornRead.dfy` has the same ring
  load by load and store by store with a listener, `TornTicks.dfy` takes its ticks as a whole, and
  `TornRecording.dfy` adds a recorder;
  `SpeakerAudio.dfy` follows every byte a speaker sends, with files played in between.
- **Lists, queues, automata.** `ListenerList.dfy` (on `DoubleChain.dfy`) is the intrusive doubly linked
  listener list with its counters, `Recorders.dfy` (on `Splice.dfy`) the splice in place that stops
  recordings, `EventRing.dfy` the event queue, `Dtmf.dfy` the digit accumulator, `TalkDetector.dfy` the
  talk and silence detector.
- **Threads.** `Lifecycle.dfy` is one step relation for members, API calls, destroyer, producer and table
  walkers; `LifecycleSafety.dfy`, `Promotion.dfy` and `Handover.dfy` prove what all its runs keep,
  `Outcomes.dfy` what each thread's step decides, and `Scenarios.dfy` builds particular runs. `LockOrder.dfy` has the lock regions and joins of every thread.

## Assumptions

Atomic operations are sequentially consistent steps in program order. 64-bit indices and 32-bit
statistics do not wrap (the 32-bit sum of the talk detector and the frame geometry do). Interval times
ring size does not overflow 32 bits. A room's geometry fits together, which `RoomRing.ConfigureGood`
shows for every profile with up to 255 channels: the code keeps eight bits of that number. A listener's
tick in `Ring.dfy` and a recorder's wake-up in `Recorder.dfy` and `RoomRing.dfy` run with the producer
idle; `TornRead.dfy` and `TornRecording.dfy` drop that and say within which margin it makes no
difference, and with the producer idle their loads come to the same (`TornTicks.IdleTick`,
`TornRecording.IdlePass`). The audio buffer is a byte FIFO bounded at 25 frames; volume scaling is any function that
keeps the length; a silence policy yields any frame of the right length; a file yields whole frames or
ends.

For the threads: looking a room up and taking its reference is one step, and so is entering a new room
in the table together with the seed of its reference count; timers open; one thread destroys the
room, and its ten-second waits end by their condition. That a timed-out promotion is rolled back in one
step is not assumed but a parameter: `Promotion.SafeIffNeverLate` and `Promotion.SafeIffAtomic` say what
hinges on it.

## Where code and documentation differ

The design document, in its chapter "Validation of Read Consistency", lets the consumer compare the slot
number after reading and calls that a torn-read detector. The code compares before it copies and never
after (`broadcast_listener.c:362-367`). The model follows the code: the number check does not detect a
tear, a margin prevents it, and `TornRead.TornReadBound` gives that margin exactly. A recorder makes the
same check (`broadcast_record.c:70`) and has no bound on its lag; `TornRecording.RecordingBound` gives
its margin. The header promises
one lock order but leaves the rank of four mutexes open (`mod_broadcast.h:60-67`); here they are leaves.

Two things the code does not promise, and the project says so by a run and an exact condition: a
speaker that leaves can clear its successor (`Scenarios.SuccessorCleared`, `Handover.ClearsItselfIff`),
and a promotion rolled back in several steps can leave a speaker on the listener list
(`Scenarios.SplitRollback`; of one run `Promotion.SafeIffNeverLate`, of a room `Promotion.SafeIffAtomic`).
And a recording that cannot start its thread drops every recorder that was started since
(`Recorders.Recordings.OverlappingStarts`).

## The steps of the thread model

| step of `Lifecycle.dfy` | source |
|---|---|
| Enter, Create | mod_broadcast.c:211-228, broadcast_core.c:98-116, broadcast_core.c:217-243 |
| Prepare, Claim, TakeId | mod_broadcast.c:244-267 |
| Take | broadcast_speaker.c:220-261 |
| Leave, Test, Clear | broadcast_speaker.c:322-348 |
| AddCheck, AddLocked, AddBack | broadcast_member.c:150-189 |
| Cross, Exit | broadcast_listener.c:257, broadcast_listener.c:396-398 |
| Branch, Unlist | mod_broadcast.c:289-311, broadcast_member.c:252-277 |
| FinalClear, LetGo | broadcast_speaker.c:300-305, broadcast_core.c:118-124, mod_broadcast.c:317-319 |
| Call, Hangup, ClearSpeaker | broadcast_api.c:746-756, broadcast_api.c:789-790, broadcast_api.c:890-892 |
| Look to AgainSpeaker | broadcast_api.c:117-191 |
| DropOrAsk, UnlinkHeld, Flag, Done, Rollback | broadcast_speaker.c:174-209 |
| Expire, Unflag, ReAdd | broadcast_speaker.c:199-206 |
| Destruct, TearDown | broadcast_core.c:398-400, broadcast_core.c:435-437, broadcast_core.c:460-581 |
| Walk, WalkOn | broadcast_events.c:267-288, broadcast_core.c:614-709, broadcast_api.c:202-231 |
| ReadLock, ReadUnlock, ProducerExit | broadcast_producer.c:199-220, broadcast_core.c:637-641, broadcast_api.c:423-433 |

## Model

| member | source | states |
|---|---|---|
| Ring.PublishHolds | broadcast_producer.c:227-234 | after a publish the ring again holds exactly the end of the log, one frame longer |
| Ring.SlotStillHolds | broadcast_listener.c:361-374 | the stale-slot test is exact: a slot carries number c if and only if at most ring-size frames were published from c on, and then its frame is the log's |
| Ring.PreBufferFits | broadcast_member.c:171-175 | under the guard of the code the rewind divides by no zero and stays below the ring size |
| Ring.JoinCursorExactly | broadcast_member.c:169-178 | a listener starts at the producer's number, unless the pre-buffer is at least an interval, fits the ring and does not reach back to the first frame; then as many whole intervals before it as the pre-buffer holds |
| Ring.JoinCursorLive | broadcast_member.c:169-178 | for every profile the start cursor is within ring size minus one of the producer, and the frame it names is live |
| Ring.TickByLag | broadcast_listener.c:338-382 | the four outcomes of a tick in terms of the log and the lag alone |
| Ring.StepAccounted | broadcast_listener.c:338-382 | each publish and tick keeps the accounting; the cursor never falls and a tick leaves the lag below the bound |
| Ring.AnySchedule | broadcast_listener.c:338-382 | on any schedule, ring size and lag bound: played numbers strictly rise with the log's payloads, the cursor distance is played plus skipped, every resync cost more than the lag bound |
| Ring.SkippedIffLate | broadcast_listener.c:342-375 | a frame is skipped if and only if some tick saw more lag than lag bound or ring size allow |
| Ring.PlaysLogIffPrompt | broadcast_listener.c:338-382 | what a listener played is the log from join cursor to cursor, without gap, duplicate or reorder, if and only if no tick was late |
| Ring.QuietExactly | broadcast_listener.c:364-380 | silence is written exactly when the cursor has caught up, or when the profile allows more lag than the ring has slots and the slot is gone |
| Ring.FirstFrameHeard | broadcast_listener.c:342-374 | a listener joining back frames behind that first ticks after k more publishes hears frame P minus back first |
| Ring.FirstFreshHeard | broadcast_listener.c:342-374 | a listener that is not rewound hears nothing before the first publish, and then that frame |
| Ring.LogIsPublished | broadcast_producer.c:227-234 | on any schedule the log is the frames published, in order |
| Recorder.DrainIsLogTail | broadcast_record.c:65-79 | a wake-up writes exactly the frames from max(cursor, P minus ring size) on, in order, also when cut short |
| Recorder.RecStepInv | broadcast_record.c:62-80 | one publish or wake-up keeps the file a part of the log and loses exactly the frames that fell out of the ring |
| Recorder.FileIsLogIffInTime | broadcast_record.c:62-80 | the file is a strictly rising part of the log, and all of it from the start cursor if and only if every wake-up came within ring-size publishes |
| RoomRing.ConfigureGood | broadcast_core.c:168-187 | the geometry of a room that is not refused fits together (bytes = samples, channels and two, within a slot, ring not empty) whatever wraps in 32 bits, up to 255 channels; with more, if and only if the channels cut off come to nothing in 32 bits |
| RoomRing.ConfigureExact | broadcast_core.c:168-187 | when nothing wraps, a room is refused exactly when one interval's frame is larger than a slot, and else has frames of just that size |
| RoomRing.Room.Publish | broadcast_producer.c:227-234 | the array goes on holding the end of the log, extended by one frame of the room's shape |
| RoomRing.ListenerBridge.Join | broadcast_member.c:169-178 | the cursor is the producer's number, or that minus pre-buffer over interval exactly when there is a rewind that fits; within the ring; lag bound 10 unless the profile has one |
| RoomRing.ListenerBridge.Tick | broadcast_listener.c:338-382 | the tick on the array is the specified tick under the profile's lag bound; full frame written, lag below the bound after it, resync events only on a snap and at most one a second |
| RoomRing.RecordWriter.WakeUp | broadcast_record.c:65-80 | the draining loop appends exactly the payloads of that stretch of the log; it stops short if and only if somebody stops it or a write fails |
| TornRead.StepInv | broadcast_listener.c:340-367 | every single load, store and byte of either thread keeps the invariant that ties cells, program counters and log together |
| TornTicks.LogIsGiven | broadcast_producer.c:225-234 | in every interleaving the log is the frames the producer was given, in order, but for the one it has not finished |
| TornTicks.TicksRise | broadcast_listener.c:338-382 | in every interleaving the numbers of successive ticks strictly rise, and the cursor stands one past the last number played, or at the producer_seq of a stale tick |
| TornTicks.TicksFromJoin | broadcast_member.c:169-178 | a listener that joins asks for numbers from where it joined on |
| TornTicks.IdleTick | broadcast_listener.c:340-376 | with the producer idle the loads of a tick have the four outcomes of Ring.TickByLag, told by log and lag |
| TornRead.NoTear | broadcast_listener.c:340-367 | a tick during which fewer than ring size minus its own lag frames are published hands over exactly the frame of its number, in every interleaving |
| TornRead.Tear | broadcast_producer.c:227-234 | an execution with just as many publishes hands over a torn frame |
| TornRead.TornReadBound | broadcast_listener.c:340-367 | ticks are safe within a budget of publishes if and only if budget plus lag bound is below the ring size |
| TornRecording.RecStepInv | broadcast_record.c:62-80 | every single load, store and byte of producer, listener and recorder keeps the recorder's invariant |
| TornRecording.CopiesInMargin | broadcast_record.c:68-77 | in every interleaving the numbers in the file rise, and a frame copied before ring-size frames from it on are published is the very frame of its number |
| TornRecording.TornFile | broadcast_record.c:70-72 | an execution that never puts more than ring-size frames between cursor and producer records a torn frame |
| TornRecording.StartsAtProducer | broadcast_record.c:133-134 | a recording starts with the frame that is published next, whatever follows |
| TornTicks.TickGoesOn | broadcast_listener.c:340-376 | a tick is never stuck, and every load leaves less to do of it |
| TornRecording.PassGoesOn | broadcast_record.c:65-80 | nor is a pass of the recorder |
| TornRecording.IdlePass | broadcast_record.c:65-80 | with the producer idle the loads of a pass write what Recorder.DrainIsLogTail says |
| TornRecording.RecordingBound | broadcast_record.c:62-80 | every execution with the producer at most k frames ahead of the cursor records the log from its start on, whole and untorn, if and only if k is below the ring size |
| SpeakerAudio.LiveIsPublished | broadcast_producer.c:172-225 | a whole frame read from the speaker is published, only scaled by volume, and never replaced by silence; a frame read from a file is published unless paused and leaves the speaker's bytes alone; every frame has full length; pause leaves the buffer alone |
| SpeakerAudio.TakenExactly | broadcast_producer.c:199-225 | a tick that reads the speaker (no frame from a file, current, not paused) drains it if and only if it is muted; otherwise it publishes the first frame up to volume and keeps exactly the rest if and only if a whole frame is buffered, and loses what there is if not; a tick that does not read it leaves it alone |
| SpeakerAudio.Producer.Tick | broadcast_producer.c:172-239 | the tick in place appends the specified frame to the log and counts it, and ends a playback that cannot be read |
| SpeakerAudio.Conserved | broadcast_producer.c:172-225 | over any writes, ticks with pause, mute and volume, and starts and stops of files: the accepted stream is partitioned in order into what ticks took out and what is buffered, within 25 frames; the speaker's published frames are its live parts; a file's are the frames read from it while not paused |
| SpeakerAudio.AllHeardIff | broadcast_producer.c:199-225 | over any run, what was accepted is what was published live, before volume, and what is buffered, if and only if no tick that read the speaker found it muted with bytes or with a partial frame |
| SpeakerAudio.PlaysUntilEnded | broadcast_api.c:860-885 | once a start has worked the file plays until a read fails, it is stopped, or an announcement does not open |
| SpeakerAudio.SilentUntilStarted | broadcast_producer.c:188-192 | once it has ended no file plays until the next start |
| SpeakerAudio.FileDefersSpeaker | broadcast_producer.c:172-201 | a run in which the file comes first and the speaker's frame waits for its end |
| SpeakerAudio.NoneLostIff | broadcast_producer.c:172-213 | no byte is lost if and only if no tick that reads the speaker, no file playing, finds a partial frame |
| SpeakerAudio.WholeWritesLoseNothing | broadcast_producer.c:208-213 | when every accepted write is of whole frames nothing is lost, whatever was rejected or played; and if no tick is muted, all of it is heard or still buffered |
| SpeakerAudio.OddByteIsLost | broadcast_producer.c:208-213 | one odd byte is read by a tick that publishes silence |
| ListenerList.Listeners.Add | broadcast_member.c:150-198 | head insertion unless destroyed, locked or full; ids given once; counters, peak and list stay in step |
| ListenerList.Listeners.UnlinkForPromotion | broadcast_member.c:204-237 | the member is taken out, the rest keeps its order, no leave is counted |
| ListenerList.Listeners.Del | broadcast_member.c:243-280 | the same with a leave counted for members that are not ghosts |
| ListenerList.Listeners.TimedOutPromotion | broadcast_speaker.c:186-206 | unlink and re-add: same members, the member now in front and counted as joining twice, unless the room is locked or destroyed |
| ListenerList.Listeners.FindById | broadcast_api.c:124-131 | finds a listed member with the id if there is one |
| ListenerList.Listeners.Relink | broadcast_member.c:218-230 | bypassing a member in the heap leaves a well-formed list of the others and the member unlinked |
| ListenerList.Detach | broadcast_member.c:218-228 | relinking the neighbours leaves a well-formed acyclic doubly linked list of the others |
| DoubleChain.TakeOut | broadcast_member.c:218-227 | next and previous links around a node, and the chain once its neighbours point at each other |
| DoubleChain.AddFront | broadcast_member.c:180-185 | the chain with a node linked in front |
| Recorders.Recordings.Start | broadcast_record.c:136-154 | with nobody in between a started recorder is in front, and gone again if its thread cannot be created; the flag agrees with the list |
| Recorders.Recordings.Unstart | broadcast_record.c:143-146 | a failed start leaves only the recorders that were linked before it |
| Recorders.Recordings.OverlappingStarts | broadcast_record.c:136-154 | a recorder started while another start fails runs on no list, and the flag is then right only if there was a recording before |
| Recorders.Recordings.Stop | broadcast_record.c:162-204 | the list keeps the others in order, the matching ones are marked not running and joined once each, newest match last; an empty target stops all, another one exactly the recorders with it |
| Recorders.Recordings.TakeMatching | broadcast_record.c:169-187 | the splice loop in place: two well-formed chains, kept in order and taken reversed |
| Recorders.CloseAll | broadcast_record.c:193-203 | each stopped recorder is joined and unlinked exactly once, in list order |
| Splice.PassStep | broadcast_record.c:171-187 | one turn of the splice keeps three disjoint chains that make up the list |
| Splice.Partition | broadcast_record.c:169-187 | kept and taken are disjoint and together a permutation of the list |
| Splice.PartsOrder | broadcast_record.c:169-187 | kept has the order of the list, taken the reverse order |
| EventRing.AnyInterleaving | broadcast_events.c:205-240 | with two or more slots, in any interleaving: fill within bounds, unread slots intact, delivery an in-order part of what was accepted, calls = emitted + queued + twice dropped |
| EventRing.EnqueueExactly | broadcast_events.c:222-237 | a call that finds fewer than size minus one events unread stores exactly its event and gives up nothing; one that finds that many gives up the oldest and its own |
| EventRing.AcceptedExactly | broadcast_events.c:205-240 | in every interleaving the accepted events are exactly those of the calls that found room, told by the operations alone, and the others are counted as dropped |
| EventRing.NothingDroppedIff | broadcast_events.c:205-240 | every event is accepted if and only if no call ever finds the queue full; then they are delivered in order without a gap |
| EventRing.OneSlotDropsAll | broadcast_events.c:222-226 | a queue of one slot delivers nothing |
| EventRing.DeliversIffTwoSlots | broadcast_events.c:222-226 | a queue can deliver if and only if it has two or more slots |
| EventRing.EventQueue.EnqueueEvent | broadcast_events.c:205-240 | the critical region on the array is the specified step, and nothing once destroyed |
| EventRing.EventQueue.TakeEvent | broadcast_events.c:277-281 | the emitter's region copies out the oldest event |
| EventRing.EventQueue.FireEvent | broadcast_events.c:281-283 | firing it, with the mutex let go, is the specified step |
| EventRing.EventQueue.Drain | broadcast_events.c:276-286 | the emitter's loop fires everything queued, in order, and leaves the queue empty |
| Dtmf.DecodeWords | broadcast_listener.c:178-236 | typing any bindings of a prefix-free set at a steady pace dispatches exactly them, in order |
| Dtmf.InvertsIffPrefixFree | broadcast_listener.c:178-236 | decoding inverts typing if and only if the binding set is prefix-free |
| Dtmf.PilesUp | broadcast_listener.c:214-236 | digits that complete no binding pile up, dispatching nothing, until the buffer is full |
| Dtmf.StrayDigitBlocks | broadcast_listener.c:214-236 | a digit that starts no binding keeps the next fourteen from dispatching anything unless a gap comes |
| Dtmf.FullForgets | broadcast_listener.c:229-232 | after fifteen digits the next one starts afresh |
| Dtmf.LongGapForgets | broadcast_listener.c:224-227 | after more than 1.5 s the outcome is independent of history |
| Dtmf.Keypad.HandleDigit | broadcast_listener.c:214-236 | the 16-byte buffer edited in place stays terminated and does what the parser does |
| Dtmf.Keypad.MatchControls | broadcast_listener.c:178-209 | the first binding equal to the text is dispatched and the buffer emptied |
| TalkDetector.ScoreIsMean | broadcast_speaker.c:78-80 | the score is the mean absolute sample value rounded down, zero for no samples, and the 32-bit sum does not wrap for any frame of up to 131071 samples |
| TalkDetector.SpeakerMeter.OnFrame | broadcast_speaker.c:67-106 | the fields follow the specified detector |
| TalkDetector.SilentSinceIsRunStart | broadcast_speaker.c:83-97 | silent-since is the time of the first frame of the current unbroken quiet run |
| TalkDetector.NotesAlternate | broadcast_speaker.c:83-106 | notifications strictly alternate, talking first |
| TalkDetector.NoteExactly | broadcast_speaker.c:83-106 | talking is sent exactly at a loud frame while not talking, silent exactly when an unbroken quiet run outlasts the window |
| TalkDetector.SpeakerMeter.EnergyKey | broadcast_listener.c:57-70 | keys move the threshold in steps of 50 and keep it a multiple of 50 within 100 and 5000 |
| TalkDetector.ThresholdCounts | broadcast_listener.c:57-70 | as long as it stays within its bounds, the threshold is the initial 500 plus 50 for each press of energy-down more than of energy-up |
| TalkDetector.ThresholdStaysGood | broadcast_listener.c:57-70 | so it stays from the initial 500 over any presses |
| LifecycleSafety.StepKeeps | mod_broadcast.c:211-319 | every step of every thread keeps the invariant of the thread model |
| LifecycleSafety.TakeKeeps | broadcast_speaker.c:220-261 | publishing a speaker on its own thread keeps it |
| LifecycleSafety.ClearKeeps | broadcast_speaker.c:340-346 | so does the clear that does not compare |
| LifecycleSafety.RollbackKeeps | broadcast_speaker.c:199-206 | so does a timed-out promotion |
| LifecycleSafety.CloseKeeps | broadcast_core.c:550-581 | so do the destroyer's last stages: alone, producer stopped and joined, out of the table, freed |
| LifecycleSafety.SpeakerIsAlive | broadcast_producer.c:199-220 | in every run the current speaker is between its own publication and its own clear, and every pointer held under the lock is still current, in the application, its session not freed |
| LifecycleSafety.FinalClearIdle | mod_broadcast.c:314-319 | the compare-and-clear on the way out finds nothing to clear |
| LifecycleSafety.RefsCounted | broadcast_core.c:98-124 | the reference count is the number of sessions and calls that hold the room |
| LifecycleSafety.NoneAfterDestruct | broadcast_core.c:107-112 | once the room is marked nobody new gets a reference |
| LifecycleSafety.NothingAtFree | broadcast_core.c:550-581 | when the pool is freed no session, call or destroyer holds the room, no table walker walks or reads it, the producer has ended and the table does not lead to it |
| LifecycleSafety.PinnedIsHeld | broadcast_api.c:148-191 | the member a call ends up with is the one it found first, carries the id asked for, and its own session is the pinned one |
| LifecycleSafety.IdsStay | broadcast_member.c:38-45 | ids are not zero, unique, and stay with their member |
| Outcomes.SecondSpeakerRefused | mod_broadcast.c:256-267 | in every run a member that asks for the stage is refused if and only if somebody else is on it and the override is off, and else goes on |
| Outcomes.StageChanges | broadcast_speaker.c:220-261 | in every run only a member's own publication puts it on the stage, and only a speaker on its way out, a call that clears the stage or the destroyer empties it |
| Outcomes.ListBounded | broadcast_member.c:158-162 | in every run the list holds at most as many members as the profile allows |
| Outcomes.ActOutcome | mod_broadcast.c:211-319 | where each step of a session thread goes, and all it changes of the shared state, told by where it comes from and goes to |
| Outcomes.MemberCanGo | mod_broadcast.c:211-319 | a member is never stuck once nobody reads under the lock, and goes either way where two are possible |
| Outcomes.CmdOutcome | broadcast_api.c:117-191 | the same for API calls: a lookup finds the listed member with the id, else the speaker with it, else nobody; a promotion goes on exactly while its member is in the bridge |
| Outcomes.LookupCanGo | broadcast_api.c:117-191 | a lookup is never stuck |
| Outcomes.CallCanGo | broadcast_speaker.c:174-209 | nor is any other call: a promotion goes on, ends or gives up |
| Outcomes.BackOnTheList | broadcast_speaker.c:199-206 | a rollback puts the member back whenever the room is open for listeners and has room |
| Outcomes.TearDownOutcome | broadcast_core.c:460-581 | what each stage of the destroyer waits for, exactly, and what it changes |
| Promotion.SafeIffNeverLate | broadcast_speaker.c:199-206 | of each run: all the states it passes through keep list, stage and promotions apart if and only if no rollback puts back a member that has left the list for good |
| Promotion.SafeIffAtomic | broadcast_speaker.c:199-206 | of the room: in every run each listed member is alive, not past the list and not on the stage, and a listing is in the hands of one promotion, if and only if the rollback is one step or nobody can be listed |
| Handover.ClearsItselfIff | broadcast_speaker.c:340-346 | a leaving speaker's clear hits only itself if and only if nobody wrote the stage since its test |
| Scenarios.SuccessorCleared | broadcast_speaker.c:340-346 | a run in which it hits its successor |
| Scenarios.SplitRollback | broadcast_speaker.c:199-206 | a run in which a listed member is the current speaker, the rollback in three steps |
| Scenarios.Lifetime | broadcast_core.c:381-583 | a run that makes, destroys and frees a room |
| LockOrder.BodiesOrdered | mod_broadcast.h:60-67 | every function's regions nest in strictly rising rank and joins happen empty-handed |
| LockOrder.Sound | mod_broadcast.h:60-67 | every trace of such a program takes locks in rising rank, drops what it holds and ends with what it began with |
| LockOrder.NextOk | broadcast_record.c:193-199 | wherever a thread stands, its next acquisition outranks all it holds, and a joiner holds nothing and joins only threads that never join |
| LockOrder.NoWaitCycle | mod_broadcast.h:60-67 | no set of threads waits for one another, wherever each stands in its program |
| LockOrder.BlockedIffWaits | mod_broadcast.h:60-67 | a thread with work left that cannot take its next step, the lock being in other hands or the joined thread not ended, is one that waits for another, and conversely |
| LockOrder.SomeoneMoves | mod_broadcast.h:60-67 | as long as a thread has work left, one that has can take its next step |

## Left out

- Members cleaned up after a lock is released: set_speaker, its clear and the destroyer go on to stop the input thread of the speaker they replaced without holding speaker_lock (`broadcast_speaker.c:269-279`, `broadcast_core.c:466-468`, `broadcast_core.c:541`); nothing is claimed about that pointer.
- Members that the emitter looks up for an event and goes on to use without the lock (`broadcast_events.c:75-93`, `broadcast_events.c:110-124`); nothing is claimed about that pointer either.
- Threads of recordings and of speaker input in the thread model: they appear in the lock programs only. A recording started after the destroyer stopped all recordings is not followed.
- LifecycleSafety.NothingAtFree: does not speak of recording writers and speaker input threads, because the thread model does not have them.
- Recorders.Recordings.Stop: is a whole step; that a stop comes between the two lock regions of a start, or before it writes the flag outside the lock, is not modelled. Two overlapping starts are.
- TornRecording: a write that fails or a recording told to stop, which end a pass early; `RoomRing.RecordWriter.WakeUp` has both.
- ListenerList.Listeners.Add: each operation and its counters are one step, and the pre-checks of destroyed and locked are taken together with the insertion; `Lifecycle.dfy` separates them.
- Lifecycle: the reference that unloading the module takes before it destroys a room; with one destroyer it is like that of a call.
- Lifecycle: later rooms of the same name, and a destroyer that gives up waiting after ten seconds.
- Lifecycle: the three reads of the destroyer's wait loop are passed one after the other and not re-read together; this allows more runs than the code.
- Lifecycle: a role, mute or kick flag, RUNNING and hang-ups; leaving the bridge or the wait loop is possible at any time instead.
- LockOrder: applications, Lua, JavaScript and transfers started from a digit binding, and locks inside FreeSWITCH.
- Output gain of a listener and the write gain flag: the model's listener writes the frame before scaling.
- NAT window, timers, wedge detection, heartbeats, statistics of tick drift.
- Configuration loading and cloning, profile reload, text and JSON formatting of API replies, event headers: copying and formatting without a hard invariant.
- Memory ordering weaker than sequential consistency.
