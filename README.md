# Zynthian audio player, Launchkey controller, mod-host engine and chain routing in Dafny

This project models four parts of the Zynthian synthesiser platform and proves
properties of them.

- **zynaudioplayer** (`player.c`) is a C library. It keeps a table of up to 17 audio
  players. Each player has a reader thread that fills two JACK ring buffers (tracks A
  and B) from a sound file, converting the sample rate on the way. A JACK process
  callback drains those buffers into the output ports each period, applying gain,
  looping, end of file and fade-out. A MIDI input drives playback and pitch: note-on,
  note-off and pitch bend on the player's channel. Every change of transport,
  position, gain, loop, track or quality is reported through a callback.
- **zynmidicontroller** (`zynmidicontroller.cpp`) is the Novation Launchkey driver.
  It colours the drum pads, translates pad notes and knob controllers from the
  device into router MIDI, and queues device MIDI that the JACK period flushes.
- **the mod-host engine** (`zynthian_engine_modhost.py`) parses a pedalboard's
  command lines into plugin information, connections and MIDI learn mappings. It
  then lays the plugin controllers out in screens of four.
- **the chain** (`zynthian_chain.py`) holds a processing chain's routing lists
  (audio out, audio in, MIDI out), its 128 ZS3 slots and its bank and preset paths.

How each kind of code is modelled:

- State that the source updates in place is a class with `modifies` clauses:
  `AudioPlayer.Player`, `Registry.Players`, `MidiController.Controller`,
  `ModHost.Engine` and `Chain.Chain`.
- Each stateful method is proved against specification functions:
  - the reader thread's steps: `PlayerRules.RequestSize`, `AfterRead`, `PushFrames`;
  - the JACK period: `PlayerRules.Period`;
  - MIDI handling: `PlayerRules.Interpret`, `MidiController.MapEvent`;
  - pedalboard parsing: `ModHost.Steps`;
  - controller screens: `ModHost.CtrlList`.
- The properties the source promises are lemmas about those functions.
- JACK ring buffers are value FIFOs of samples (`Ring`).
- The notification callback is a record of the events sent (`AudioTypes.Dispatch`).

Where the source computes in C integer types, the model writes the conversion out:

- truncation of a float toward zero (`Trunc`);
- `uint32_t` wrap-around (`ToU32`);
- `size_t` wrap-around (`ToU64`);
- C integer division (`CDiv`).

The JACK sample rate, what libsndfile and libsamplerate report, and the room left in
JACK's buffers are parameters of the operations that use them.

## Model

| member | source | states |
|---|---|---|
| Midi.Channel | zynlibs/zynaudioplayer/player.c:732 | the channel of a status byte (its low nibble) is below 16, and the status is its command plus its channel |
| Midi.Command | zynlibs/zynmidicontroller/zynmidicontroller.cpp:174 | the command of a status byte (its high nibble) is a multiple of 16 at most the status and within 16 of it |
| AudioTypes.StateCode | zynlibs/zynaudioplayer/player.c:29-34 | the four play states have codes below 4 |
| AudioTypes.StateCodeInjective | zynlibs/zynaudioplayer/player.c:29-34 | two play states with the same code are the same state |
| AudioTypes.Trunc | zynlibs/zynaudioplayer/player.c:279 | the C float-to-integer conversion: truncation toward zero, within 1 of the value and never past it |
| AudioTypes.ToU32 | zynlibs/zynaudioplayer/player.c:694 | a `uint32_t` assignment: the value modulo 2^32, unchanged when already in range, 2^32 plus the value when negative |
| AudioTypes.ToU64 | zynlibs/zynaudioplayer/player.c:305-306 | a `size_t` assignment: the value modulo 2^64, unchanged when in range, 2^64 plus the value when negative |
| AudioTypes.CDiv | zynlibs/zynaudioplayer/player.c:530-532 | C integer division, truncating toward zero: for a non-negative dividend the quotient times the divisor is at most the dividend and within one divisor of it, and symmetrically for a negative one |
| AudioTypes.Scale | zynlibs/zynaudioplayer/player.c:245 | a frame count scaled by the conversion ratio and truncated: non-negative, never above n times the ratio |
| AudioTypes.ScaleMonotonic | zynlibs/zynaudioplayer/player.c:245 | scaling keeps the order of frame counts |
| AudioTypes.Pow | zynlibs/zynaudioplayer/player.c:743 | a power of a positive base is positive, and above 1 for a base above 1 and a positive exponent |
| AudioTypes.PitchRatio | zynlibs/zynaudioplayer/player.c:743 | the pitch_shift of a note, the number of output samples drawn per input sample (the inverse of the playback speed): positive; 1 at note 60; above 1 below it, so a lower note plays slower; below 1 above it |
| AudioTypes.PitchRatioStep | zynlibs/zynaudioplayer/player.c:743 | one semitone lower multiplies the output samples per input sample by exactly one semitone factor, so it plays that factor slower |
| AudioTypes.RateRatio | zynlibs/zynaudioplayer/player.c:241-243 | the output-to-file rate ratio times the file rate gives the output rate; equal rates give 1; a ratio below 0.1 means the output rate is below a tenth of the file rate |
| AudioTypes.FieldsDistinct | zynlibs/zynaudioplayer/player.c:148-202 | the notified fields are pairwise different |
| AudioTypes.RecordSettles | zynlibs/zynaudioplayer/player.c:148-202 | once a field's new value is recorded, that field no longer counts as changed |
| AudioTypes.RecordOther | zynlibs/zynaudioplayer/player.c:148-202 | recording one field leaves every other field's change status alone |
| AudioTypes.DispatchEvents | zynlibs/zynaudioplayer/player.c:148-202 | send_notifications sends one event for exactly each selected field that changed beyond its threshold, carrying the current value, in field order |
| AudioTypes.DispatchSettles | zynlibs/zynaudioplayer/player.c:148-202 | after a dispatch no selected field counts as changed |
| AudioTypes.DispatchQuiet | zynlibs/zynaudioplayer/player.c:148-202 | when no selected field has changed, a dispatch sends nothing and leaves the snapshot as it was |
| AudioTypes.DispatchIdempotent | zynlibs/zynaudioplayer/player.c:148-202 | a second dispatch with nothing changed sends nothing |
| AudioTypes.Changed | zynlibs/zynaudioplayer/player.c:150-196 | the per-field test of send_notifications: the transport when it differs from the last state sent, the position when it moved by at least the notification delta, the gain by at least GAIN_DELTA, and the loop, loop bounds, tracks and quality when they differ; never NOTIFY_ALL; its properties are RecordSettles and RecordOther |
| AudioTypes.Record | zynlibs/zynaudioplayer/player.c:150-196 | the snapshot after one field is notified: that field takes its current value and the others stay; RecordSettles and RecordOther state this |
| AudioTypes.Value | zynlibs/zynaudioplayer/player.c:150-196 | the value each notification carries: the play-state code, the position, the gain, the loop flag as 0 or 1, the loop times, the track numbers and the quality; DispatchEvents states that each event carries it |
| AudioTypes.DispatchFrom | zynlibs/zynaudioplayer/player.c:150-196 | the field tests of send_notifications from a given field on, in order: each selected changed field is recorded and yields one event; DispatchEvents, DispatchSettles and DispatchQuiet state its result |
| AudioTypes.Dispatch | zynlibs/zynaudioplayer/player.c:148-202 | send_notifications as a fold over the nine fields in source order; its contract is stated by DispatchEvents, DispatchSettles, DispatchQuiet and DispatchIdempotent |
| Ring.Space | zynlibs/zynaudioplayer/player.c:356-357 | write space plus readable samples is the capacity |
| Ring.Reset | zynlibs/zynaudioplayer/player.c:276-277 | a reset buffer is empty and keeps its capacity |
| Ring.Write | zynlibs/zynaudioplayer/player.c:392-393 | a write stores the longest prefix that fits, appended after the queued samples; it is short only when the buffer became full |
| Ring.Read | zynlibs/zynaudioplayer/player.c:677-678 | a read takes at most n samples from the front, short only when the buffer ran empty: what was taken followed by what remains is the old content |
| Ring.Peek | zynlibs/zynaudioplayer/player.c:660-661 | a peek answers exactly when the buffer holds a sample, and gives what a one-sample read would take |
| Ring.WriteThenRead | zynlibs/zynaudioplayer/player.c:392-393 | what was queued and what was written come out in the order they went in, leaving the buffer empty |
| Ring.WriteFull | zynlibs/zynaudioplayer/player.c:393-396 | a write into a full buffer stores nothing |
| PlayerRules.SeekTarget | zynlibs/zynaudioplayer/player.c:497-506 | the frame set_position lands on: with looping, capped at the loop end and then raised to the loop start; without, an unsigned request at or past the end goes to the last frame; its properties are SeekTargetInLoop, SeekTargetStartWins and SeekTargetInFile |
| PlayerRules.SeekTargetInLoop | zynlibs/zynaudioplayer/player.c:497-506 | with looping on and an ordered loop, a seek target is clamped into the loop and a target inside it is kept |
| PlayerRules.SeekTargetStartWins | zynlibs/zynaudioplayer/player.c:497-506 | with looping on and the loop end before the loop start, every target goes to the loop start |
| PlayerRules.SeekTargetInFile | zynlibs/zynaudioplayer/player.c:497-506 | without looping a seek target lands inside the file: a target in the file is kept and a negative one goes to the last frame |
| PlayerRules.PositionRoundTrip | zynlibs/zynaudioplayer/player.c:493-520 | a play head frame converted to seconds and back gives the same frame |
| PlayerRules.LoopFrame | zynlibs/zynaudioplayer/player.c:545 | a loop time becomes the native frame samplerate × time, truncated and stored as jack_nframes_t |
| PlayerRules.LoopStartAccepted | zynlibs/zynaudioplayer/player.c:545-547 | set_loop_start_time refuses a frame at or after the loop end |
| PlayerRules.LoopEndAcceptedAsWritten | zynlibs/zynaudioplayer/player.c:566 | as written, set_loop_end_time compares the native frame with the file length at the output rate |
| PlayerRules.LoopEndAccepted | zynlibs/zynaudioplayer/player.c:561-572 | as intended, the native frame must lie after the loop start and before the native file length; LoopEndInsideFile and the two as-written lemmas relate it to the code |
| PlayerRules.LoopEndInsideFile | zynlibs/zynaudioplayer/player.c:561-572 | a loop end the intended rule accepts lies after the loop start and inside the file, both in native frames |
| PlayerRules.LoopEndAsWrittenPassesFileEnd | zynlibs/zynaudioplayer/player.c:566 | as written: a 1000-frame file played at twice its rate has 2000 output frames, so a loop end at native frame 1500, past the file end, is accepted; the intended rule refuses it |
| PlayerRules.LoopEndAsWrittenRefusesInside | zynlibs/zynaudioplayer/player.c:566 | as written: a 1000-frame file played at half its rate has 500 output frames, so a loop end at native frame 700, inside the file, is refused; the intended rule accepts it |
| PlayerRules.EntryTimeAsWritten | zynlibs/zynaudioplayer/player.c:530-532 | as written, the frame divided by the samplerate in C integer division, so whole seconds |
| PlayerRules.EntryTime | zynlibs/zynaudioplayer/player.c:528-533 | the intended time handed to set_position, multiplied by the rate, gives back the loop frame |
| PlayerRules.EntryTimeExact | zynlibs/zynaudioplayer/player.c:528-533 | the intended time converts back to exactly the loop frame |
| PlayerRules.EntryTimeAsWrittenTruncates | zynlibs/zynaudioplayer/player.c:532 | as written: a play head past a loop end at frame 66150 at 44100 Hz re-enters at frame 44100, the truncated whole second, inside the loop rather than at its end; the intended time enters at 66150 |
| PlayerRules.RequestSizeAsWritten | zynlibs/zynaudioplayer/player.c:300-313 | as written: with looping and no conversion, the block cut at the loop end as a size_t difference; with conversion, the block less the unused input |
| PlayerRules.RequestSize | zynlibs/zynaudioplayer/player.c:301-306 | the reader asks for at most one block; without conversion and with looping on it never reads past the loop end and asks for the whole block when that fits; with conversion it asks for the block less the unused input |
| PlayerRules.RequestSizeAsWrittenOverflows | zynlibs/zynaudioplayer/player.c:304-313 | as written: read position 200000 with loop end 44100 and block 48000 wraps the size_t request to 2^64 − 155900, more than a block (libsndfile is handed −155900 as its signed count); the intended size is 0 |
| PlayerRules.RequestSizeAgrees | zynlibs/zynaudioplayer/player.c:301-306 | the intended size equals the as-written size whenever the read position is not past the loop end |
| PlayerRules.AfterRead | zynlibs/zynaudioplayer/player.c:318-335 | after a read the reader keeps loading exactly when frames came back, loops exactly when none came back with looping on and the loop not yet loaded, and otherwise goes idle |
| PlayerRules.EveryOtherConstant | zynlibs/zynaudioplayer/player.c:370-386 | summing every other sample of a frame whose channels are all equal gives that value times the number of terms, over the divisor |
| PlayerRules.EveryOther | zynlibs/zynaudioplayer/player.c:372-373 | the downmix loops' sum of tracks t, t+2, … below the channel count, each divided by channels/2; EveryOtherConstant and DownmixPreservesLevel state its value |
| PlayerRules.LegA | zynlibs/zynaudioplayer/player.c:370-391 | the sample for leg A: the chosen track, the even-track downmix for a negative track, half the only channel of a mono file; DownmixPreservesLevel states its level |
| PlayerRules.LegB | zynlibs/zynaudioplayer/player.c:378-391 | the sample for leg B: the chosen track, the odd-track downmix for a negative track, half the only channel of a mono file; DownmixPreservesLevel states its level |
| PlayerRules.DownmixPreservesLevel | zynlibs/zynaudioplayer/player.c:370-391 | a frame whose channels are equal comes out at that level on both legs; a mono frame comes out at half level on each |
| PlayerRules.PushFrame | zynlibs/zynaudioplayer/player.c:392-397 | writing one demultiplexed frame keeps both buffers valid and their capacities |
| PlayerRules.PushFrames | zynlibs/zynaudioplayer/player.c:367-398 | writing a whole block keeps both buffers valid and their capacities |
| PlayerRules.WaitConditionsAgree | zynlibs/zynaudioplayer/player.c:356-357 | with aligned legs, waiting while both legs lack room and waiting while either lacks room are the same condition |
| PlayerRules.ColumnA | zynlibs/zynaudioplayer/player.c:370-391 | the A column of a block has one sample per frame |
| PlayerRules.ColumnB | zynlibs/zynaudioplayer/player.c:370-391 | the B column of a block has one sample per frame |
| PlayerRules.PushFrameAligned | zynlibs/zynaudioplayer/player.c:392-397 | writing one frame keeps the legs aligned: both gain the frame when there is room, and neither changes when full |
| PlayerRules.PushFramesContents | zynlibs/zynaudioplayer/player.c:367-398 | a block appends its first min(frames, space) A samples to A and B samples to B, in order |
| PlayerRules.DemuxWholeBlock | zynlibs/zynaudioplayer/player.c:356-398 | when the reader has waited for room, every frame of the block reaches both buffers |
| PlayerRules.Catchup | zynlibs/zynaudioplayer/player.c:665-673 | the number of samples the pitched drain skips to catch up is the least r with r·pitch at least the output index |
| PlayerRules.CeilNat | zynlibs/zynaudioplayer/player.c:665-673 | the least natural at or above a non-negative real |
| PlayerRules.TruncQuotient | zynlibs/zynaudioplayer/player.c:665-673 | truncating y / r gives the n with n·r ≤ y < (n+1)·r |
| PlayerRules.CatchupMonotonic | zynlibs/zynaudioplayer/player.c:665-673 | later output samples never need fewer input samples |
| PlayerRules.LeastReaching | zynlibs/zynaudioplayer/player.c:665-673 | a count short of one index is no larger than a count reaching a later index |
| PlayerRules.PitchIndex | zynlibs/zynaudioplayer/player.c:657-675 | the buffered sample output sample k repeats: the oldest for k = 0, otherwise Catchup(k − 1) |
| PlayerRules.PitchIndexMonotonic | zynlibs/zynaudioplayer/player.c:657-675 | the input sample shown for each output sample never goes backward |
| PlayerRules.PitchIndexOctaves | zynlibs/zynaudioplayer/player.c:657-675 | at pitch 2 output sample k shows input sample k / 2, and at pitch 0.5 input sample 2(k − 1) |
| PlayerRules.WrapAsWritten | zynlibs/zynaudioplayer/player.c:694-695 | as written, the position modulo the converted loop end plus the loop start, as jack_nframes_t; undefined for a loop end of 0 |
| PlayerRules.Wrap | zynlibs/zynaudioplayer/player.c:692-698 | the intended loop wrap is a uint32_t value, agrees with the as-written wrap whenever the loop end is positive, and lands between the loop start and the loop start plus the loop end |
| PlayerRules.Begin | zynlibs/zynaudioplayer/player.c:653-654 | a starting player begins playing once the reader is not seeking |
| PlayerRules.Advance | zynlibs/zynaudioplayer/player.c:690-708 | the position moves on by the samples drained; with looping, reaching the loop end or running dry wraps and asks for the loop; without, reaching the file end or running dry stops and rewinds to 0 with a seek |
| PlayerRules.Finish | zynlibs/zynaudioplayer/player.c:709-718 | a stopping player is stopped within the period |
| PlayerRules.Period | zynlibs/zynaudioplayer/player.c:653-718 | the transport after one period: Begin, then Advance while rolling, then Finish; its properties are the Period lemmas below |
| PlayerRules.PeriodNeverStopping | zynlibs/zynaudioplayer/player.c:653-718 | no period leaves a player in the stopping state, and a stopping player always ends the period stopped |
| PlayerRules.PeriodStoppedStays | zynlibs/zynaudioplayer/player.c:653-722 | a stopped player stays stopped and keeps its position |
| PlayerRules.PeriodStartWaitsForSeek | zynlibs/zynaudioplayer/player.c:653-654 | a starting player is left alone while the reader seeks, and otherwise plays the period |
| PlayerRules.PeriodAdvances | zynlibs/zynaudioplayer/player.c:690 | a playing period short of the loop or file end and of end of input advances the position by the samples drained and changes nothing else |
| PlayerRules.PeriodWrapsLoop | zynlibs/zynaudioplayer/player.c:692-698 | with looping on, reaching the loop end or running dry wraps the position into the loop, keeps playing and asks the reader for the loop |
| PlayerRules.PeriodStopsAtEnd | zynlibs/zynaudioplayer/player.c:699-718 | without looping, reaching the file end or running dry ends the period stopped at frame 0 with a seek requested |
| PlayerRules.EmptyFileWrapDividesByZero | zynlibs/zynaudioplayer/player.c:694 | as written: an empty file has a converted loop end of 0, any position reaches it, and the wrap divides by zero; the intended wrap goes to frame 0 |
| PlayerRules.InterpretAsWritten | zynlibs/zynaudioplayer/player.c:733-754 | as written: a note-off or velocity-0 note-on of the last note stops; any other note-on starts; a bend carries d1 + 128·d2 |
| PlayerRules.Interpret | zynlibs/zynaudioplayer/player.c:732-754 | exact conditions for each action: a note-off (or velocity-0 note-on) of the last note stops; a note-on with velocity on an open file starts that note; a pitch bend carries its 14-bit value |
| PlayerRules.InterpretAgrees | zynlibs/zynaudioplayer/player.c:733-749 | the intended interpretation equals the code except for a velocity-0 note-on of another note and a note-on with no file open |
| PlayerRules.VelocityZeroStartsAsWritten | zynlibs/zynaudioplayer/player.c:736-741 | as written: status 0x90, note 64, velocity 0 with last note 60 starts note 64; intended, it is ignored |
| PlayerRules.NoteOnWithoutFileAsWritten | zynlibs/zynaudioplayer/player.c:733 | as written: a note-on with no file open starts note 64; intended, it is ignored |
| PlayerRules.BendRange | zynlibs/zynaudioplayer/player.c:750-754 | a bend with two data bytes sets the bend d1 + 128·d2, which is below 16384, and data 0/64 is the centre 0x2000 |
| PortBuffers.DrainPlain | zynlibs/zynaudioplayer/player.c:677-681 | the unpitched drain copies min(period, readable) samples from the front of both buffers, in order, short only when the buffer ran empty, and leaves the rest of the port alone |
| PortBuffers.CatchUp | zynlibs/zynaudioplayer/player.c:665-673 | the inner catch-up loop leaves the legs at sample Min(Catchup(k, pitch), available), with the fractional count r·pitch |
| PortBuffers.DrainPitched | zynlibs/zynaudioplayer/player.c:657-675 | the pitched drain writes output sample k from input sample PitchIndex(k), consumes as many samples as Catchup of the last index requires, stops short only when a leg runs dry, and leaves the rest of the port alone |
| PortBuffers.ApplyGain | zynlibs/zynaudioplayer/player.c:685-689 | each drained sample is multiplied by the gain and the rest of the port is unchanged |
| PortBuffers.TookScaled | zynlibs/zynaudioplayer/player.c:685-689 | multiplying the drained samples by the gain gives ports that hold the drained samples scaled by the gain |
| PortBuffers.TookFaded | zynlibs/zynaudioplayer/player.c:709-718 | multiplying the drained samples by their fade levels gives ports that hold the faded samples |
| PortBuffers.TookPrefix | zynlibs/zynaudioplayer/player.c:721-722 | changing only the samples after the drained count keeps the drained samples |
| PortBuffers.GainTook | zynlibs/zynaudioplayer/player.c:685-689 | after the gain a port holds the drained samples times the gain |
| PortBuffers.FadeTook | zynlibs/zynaudioplayer/player.c:709-718 | after the fade a port holds the drained samples faded linearly to zero |
| PortBuffers.SilenceTook | zynlibs/zynaudioplayer/player.c:721-722 | after the silence a port still holds the drained samples, followed by zeros |
| PortBuffers.GainBoth | zynlibs/zynaudioplayer/player.c:685-689 | the gain is applied alike to both ports |
| PortBuffers.FadeBoth | zynlibs/zynaudioplayer/player.c:709-718 | the fade is applied alike to both ports |
| PortBuffers.SilenceBoth | zynlibs/zynaudioplayer/player.c:721-722 | both ports are padded with zeros after the drained samples |
| PortBuffers.FadeOut | zynlibs/zynaudioplayer/player.c:709-718 | sample k of the fade is the sample times 1 − k/count |
| PortBuffers.FadeLevel | zynlibs/zynaudioplayer/player.c:711-714 | the factor of the soft mute at sample k of a stopping period, 1 − k/a_count, and 1 when not fading; TookFaded and PortBuffers.FadeOut state that the output carries it |
| PortBuffers.Silence | zynlibs/zynaudioplayer/player.c:721-722 | every sample from the drained count to the end of the period is zero |
| Registry.Target | zynlibs/zynaudioplayer/player.c:732-733 | the slot a MIDI event goes to is a valid handle, the channel of its status byte |
| Registry.Occupied | zynlibs/zynaudioplayer/player.c:1057-1063 | the number of used slots is at most the number of slots |
| Registry.OccupiedUpdate | zynlibs/zynaudioplayer/player.c:887 | filling an empty slot adds one used slot; emptying a used one removes one |
| Registry.OccupiedCountsHandles | zynlibs/zynaudioplayer/player.c:1057-1063 | the count of used slots is the number of handles with a player |
| Registry.GetPlayerAsWritten | zynlibs/zynaudioplayer/player.c:112-116 | as written: every handle is answered except 17, which passes the guard and reads one past the table; a player returned is the one in a slot below 17 |
| Registry.GetPlayerAsWrittenOverruns | zynlibs/zynaudioplayer/player.c:113 | as written: handle 17 passes the guard although the table has slots 0 to 16 only |
| Registry.Players.constructor | zynlibs/zynaudioplayer/player.c:100 | the table starts with all 17 slots empty |
| Registry.Players.GetPlayer | zynlibs/zynaudioplayer/player.c:112-116 | a handle gives only the valid player that carries that handle, in range, and the player in its slot when there is one |
| Registry.Players.GetPlayerAgrees | zynlibs/zynaudioplayer/player.c:112-116 | the intended lookup agrees with the code for every handle but 17 |
| Registry.Players.AddPlayer | zynlibs/zynaudioplayer/player.c:836-890 | a player is added exactly when the handle is in range, its slot is empty and its ports registered; it starts in the initial state, the other slots are unchanged and the count grows by one |
| Registry.Players.RemovePlayer | zynlibs/zynaudioplayer/player.c:892-905 | removing a player leaves it closed and its slot empty, leaves the other players untouched and decreases the count by one |
| Registry.Players.GetPlayerCount | zynlibs/zynaudioplayer/player.c:1057-1063 | the count is the number of handles with a player |
| Registry.Players.ProcessAudio | zynlibs/zynaudioplayer/player.c:640-722 | one JACK period: every player renders its period as PeriodStep prescribes from its old state, and the ports of empty slots are untouched |
| Registry.Players.Visit | zynlibs/zynaudioplayer/player.c:641-722 | one player's turn in the period adds its step to those already done |
| Registry.Players.RouteMidi | zynlibs/zynaudioplayer/player.c:726-754 | an event changes only the player whose handle is its channel, which applies it as Interpret prescribes |
| Registry.Players.ProcessMidi | zynlibs/zynaudioplayer/player.c:726-785 | a player no event addresses is unchanged |
| AudioPlayer.RegionOrdered | zynlibs/zynaudioplayer/player.c:261-263 | the converted loop start is at most the loop end, which is at most the converted file length |
| AudioPlayer.ResetLegs | zynlibs/zynaudioplayer/player.c:276-277 | resetting both legs empties them and keeps their capacities |
| AudioPlayer.SrcRatio | zynlibs/zynaudioplayer/player.c:241-243 | the conversion ratio is at least 0.1, turns the file rate into the output rate whenever that needs no more than 0.1, and is 1 for equal rates |
| AudioPlayer.NoticeOf | zynlibs/zynaudioplayer/player.c:148-202 | a notification keeps the callback and threshold and only appends events, and sends nothing unless a file is open and a callback is installed |
| AudioPlayer.StartBlock | zynlibs/zynaudioplayer/player.c:274-299 | the top of a reader iteration: a seek or loop request seeks the decoder to the landing frame and starts loading afresh, marking a loop request loaded; otherwise nothing changes |
| AudioPlayer.StartBlockAnswers | zynlibs/zynaudioplayer/player.c:274-299 | a seek or loop request is answered before the read: the reader loads from the decoder's landing frame, the play head is untouched, and a loop request marks the loop loaded |
| AudioPlayer.ReadStep | zynlibs/zynaudioplayer/player.c:301-352 | a read while loading: RequestSize frames asked for, at most the frames available delivered, AfterRead as the next status, the unused input counted with conversion; not loading, nothing is read |
| AudioPlayer.ReadStepBounds | zynlibs/zynaudioplayer/player.c:301-335 | a read keeps the unused input within the block, never reads past the loop end without conversion, asks for the loop only when it is not yet loaded, and advances the read position by at most the frames available |
| AudioPlayer.PeriodStep | zynlibs/zynaudioplayer/player.c:641-722 | one period of a player: without an open file nothing changes; otherwise the transport follows Period, the legs lose the samples drained, the ports hold them scaled by the gain (faded when the period stops the player) and then silence, and nothing else changes |
| AudioPlayer.TrackChoice | zynlibs/zynaudioplayer/player.c:947-973 | a track below the channel count is taken (0 for a mono file) and any other leaves the current track |
| AudioPlayer.SeekFrame | zynlibs/zynaudioplayer/player.c:279 | the file frame sought is the one whose span at the conversion ratio contains the output position |
| AudioPlayer.Position | zynlibs/zynaudioplayer/player.c:515-520 | the position in seconds is never negative, and converts back to the play head frame when a file is open |
| AudioPlayer.LoopStartTime | zynlibs/zynaudioplayer/player.c:554-559 | the loop start time converts back to the native loop start frame |
| AudioPlayer.LoopEndTime | zynlibs/zynaudioplayer/player.c:574-579 | the loop end time converts back to the native loop end frame |
| AudioPlayer.Filename | zynlibs/zynaudioplayer/player.c:479-484 | get_filename: the file name of an open file, empty otherwise |
| AudioPlayer.Duration | zynlibs/zynaudioplayer/player.c:486-491 | get_duration: frames over samplerate for an open file with a rate, 0 otherwise |
| AudioPlayer.IsLoop | zynlibs/zynaudioplayer/player.c:581-586 | is_loop: the loop flag of an open file, false otherwise |
| AudioPlayer.PlaybackState | zynlibs/zynaudioplayer/player.c:602-607 | get_playback_state: the play state of an open file, STOPPED otherwise |
| AudioPlayer.Samplerate | zynlibs/zynaudioplayer/player.c:609-614 | get_samplerate: the file's rate when open, the JACK rate otherwise |
| AudioPlayer.Channels | zynlibs/zynaudioplayer/player.c:616-621 | get_channels: the file's channel count when open, 0 otherwise |
| AudioPlayer.Frames | zynlibs/zynaudioplayer/player.c:623-628 | get_frames: the file's native frame count when open, 0 otherwise |
| AudioPlayer.Format | zynlibs/zynaudioplayer/player.c:630-635 | get_format: the file's format when open, 0 otherwise |
| AudioPlayer.SrcQuality | zynlibs/zynaudioplayer/player.c:923-928 | get_src_quality: the quality of an open file, SRC_SINC_FASTEST otherwise |
| AudioPlayer.Gain | zynlibs/zynaudioplayer/player.c:940-945 | get_gain: the gain of an open file, 0 otherwise |
| AudioPlayer.TrackA | zynlibs/zynaudioplayer/player.c:975-980 | get_track_a: track A of an open file, 0 otherwise |
| AudioPlayer.TrackB | zynlibs/zynaudioplayer/player.c:982-987 | get_track_b: track B of an open file, 0 otherwise |
| AudioPlayer.BufferSize | zynlibs/zynaudioplayer/player.c:995-1000 | get_buffer_size: the input block size of any player, 0 without one |
| AudioPlayer.BufferCount | zynlibs/zynaudioplayer/player.c:1008-1013 | get_buffer_count: the buffer count of any player, 0 without one |
| AudioPlayer.Player.constructor | zynlibs/zynaudioplayer/player.c:848-871 | a new player has the handle, is closed and stopped at frame 0 with gain 1, tracks 0, the fastest converter, the default block size and buffer count, a loop over the first block and no notifications sent |
| AudioPlayer.Player.Notify | zynlibs/zynaudioplayer/player.c:148-202 | the notification state becomes what NoticeOf gives for the current values |
| AudioPlayer.Player.MoveToFrame | zynlibs/zynaudioplayer/player.c:497-510 | with a file open the play head goes to the clamped target (inside the loop when looping), the legs are emptied and a seek requested; otherwise nothing changes |
| AudioPlayer.Player.SeekTo | zynlibs/zynaudioplayer/player.c:497-512 | as MoveToFrame, followed by a position notification |
| AudioPlayer.Player.SetPosition | zynlibs/zynaudioplayer/player.c:493-513 | set_position moves the play head to the clamped frame of the time, empties the legs and reports the position; a player without an open file is unchanged |
| AudioPlayer.Player.ReSeek | zynlibs/zynaudioplayer/player.c:493-513 | set_position(get_position()): re-seeks to the current play head (frame 0 with no sample rate), clamped |
| AudioPlayer.Player.EnterLoop | zynlibs/zynaudioplayer/player.c:528-533 | a play head before the loop start moves to exactly the loop start, one after the loop end to the loop end; one inside the loop stays |
| AudioPlayer.Player.SeekBound | zynlibs/zynaudioplayer/player.c:529-532 | the play head moves to a bound of the loop, the legs are emptied and the position reported |
| AudioPlayer.Player.EnableLoop | zynlibs/zynaudioplayer/player.c:522-539 | enable_loop stores the flag; switching it on moves the play head into the loop and turns an idle reader to looping; the loop state is reported |
| AudioPlayer.Player.LoopOn | zynlibs/zynaudioplayer/player.c:527-536 | switching the loop on moves the play head into the loop and turns an idle reader to looping |
| AudioPlayer.Player.AskForLoop | zynlibs/zynaudioplayer/player.c:534-535 | an idle reader is turned to looping; any other reader state is kept |
| AudioPlayer.Player.SetLoopStartTime | zynlibs/zynaudioplayer/player.c:541-552 | the loop start is set to the time's native frame exactly when it is before the loop end; a play head before the new converted start is re-seeked to it |
| AudioPlayer.Player.SetLoopEndTime | zynlibs/zynaudioplayer/player.c:561-572 | the loop end is set exactly when it is after the loop start and inside the file in native frames; a play head past the new converted end is re-seeked to it |
| AudioPlayer.Player.StartPlayback | zynlibs/zynaudioplayer/player.c:588-593 | a running client with an open file and a player not playing goes to starting; otherwise the transport is kept; the transport is reported |
| AudioPlayer.Player.StopPlayback | zynlibs/zynaudioplayer/player.c:595-600 | any state but stopped becomes stopping, and the transport is reported |
| AudioPlayer.Player.SetGain | zynlibs/zynaudioplayer/player.c:930-945 | a gain in 0 to 2 on an open file is stored, reported and read back by get_gain; anything else changes nothing |
| AudioPlayer.Player.SetTrackA | zynlibs/zynaudioplayer/player.c:947-959 | with a file open, track A becomes TrackChoice of the request, the reader re-seeks to the play head, and position and track are reported; otherwise nothing changes |
| AudioPlayer.Player.SetTrackB | zynlibs/zynaudioplayer/player.c:961-973 | with a file open, track B becomes TrackChoice of the request, the reader re-seeks to the play head, and position and track are reported; otherwise nothing changes |
| AudioPlayer.Player.SetBufferSize | zynlibs/zynaudioplayer/player.c:989-993 | the input block size changes exactly when no file is open or opening |
| AudioPlayer.Player.SetBufferCount | zynlibs/zynaudioplayer/player.c:1002-1006 | the buffer count changes exactly when no file is open or opening and the count is above 1 |
| AudioPlayer.Player.SetSrcQuality | zynlibs/zynaudioplayer/player.c:912-921 | the converter quality is accepted exactly when a file is open and the value is at most SRC_LINEAR; it is then stored and reported |
| AudioPlayer.Player.SetPosNotifyDelta | zynlibs/zynaudioplayer/player.c:1015-1019 | the position notification threshold is stored |
| AudioPlayer.Player.ThreadExit | zynlibs/zynaudioplayer/player.c:404-423 | the reader's exit stops and rewinds the player, clears the callback, forgets the file name when a handle was closed and releases both buffers |
| AudioPlayer.Player.Unload | zynlibs/zynaudioplayer/player.c:459-469 | unload leaves a closed player alone; an opening one is halted with its callback cleared; an open one ends stopped at frame 0 without file name or buffers; all end closed |
| AudioPlayer.Player.Close | zynlibs/zynaudioplayer/player.c:462-466 | playback halts, the transport is reported while the file is still open, the player is closed and the callback cleared |
| AudioPlayer.Player.Probe | zynlibs/zynaudioplayer/player.c:206-225 | the file description is what the library reports (format 0 without a handle), there are no buffers yet, and the player closes again without a handle or a track |
| AudioPlayer.Player.ResetSession | zynlibs/zynaudioplayer/player.c:227-240 | a new session has no callback, a 0.1 s position threshold, unknown last notified values, the play head at 0 with a seek requested and the reader at the start |
| AudioPlayer.Player.SizeBuffers | zynlibs/zynaudioplayer/player.c:241-249 | the ratio is SrcRatio, the output block is the input block scaled by it, and both buffers are created empty with room for buffer_count output blocks |
| AudioPlayer.Player.Arm | zynlibs/zynaudioplayer/player.c:251-263 | the player is marked open, the loop spans the whole file and the pitch is reset to no shift and a centred bend |
| AudioPlayer.Player.OpenFile | zynlibs/zynaudioplayer/player.c:204-269 | the file opens exactly when it has a handle, at least one channel and a converter; then the session is fresh and the ratio is SrcRatio; otherwise the player ends stopped at frame 0, closed, without callback or buffers |
| AudioPlayer.Player.Load | zynlibs/zynaudioplayer/player.c:428-457 | load succeeds exactly when the thread starts and the file opens; the file name, the description and the callback are then installed; on failure the player is closed without a callback |
| AudioPlayer.Player.BeginBlock | zynlibs/zynaudioplayer/player.c:274-299 | the top of a reader iteration follows StartBlock, and a seek empties both legs |
| AudioPlayer.Player.ReadBlock | zynlibs/zynaudioplayer/player.c:301-352 | a read follows ReadStep: RequestSize frames asked for, AfterRead as the next reader state |
| AudioPlayer.Player.Demux | zynlibs/zynaudioplayer/player.c:367-398 | the block is written to the legs as PushFrames prescribes, with the channel choice of each track |
| AudioPlayer.Player.Downmix | zynlibs/zynaudioplayer/player.c:370-386 | the mix of a track is the sum of every other sample of the frame from that track on, each divided by the integer half of the channel count |
| AudioPlayer.Player.DemuxFrames | zynlibs/zynaudioplayer/player.c:367-398 | the demultiplexing loop leaves the legs aligned and equal to PushFrames of the block |
| AudioPlayer.Player.WorkerIteration | zynlibs/zynaudioplayer/player.c:273-401 | one reader iteration is StartBlock, then ReadStep, then PushFrames of the frames delivered |
| AudioPlayer.Player.ReadAhead | zynlibs/zynaudioplayer/player.c:274-352 | the first two stages of an iteration: StartBlock then ReadStep, with the legs emptied on a seek |
| AudioPlayer.Player.StartIfReady | zynlibs/zynaudioplayer/player.c:653-654 | the transport becomes Begin of the old one |
| AudioPlayer.Player.Fill | zynlibs/zynaudioplayer/player.c:657-689 | the ports hold the drained samples scaled by the gain, the legs lose what was consumed, the drain is short only when a leg ran dry, and at pitch 1 consumption equals output |
| AudioPlayer.Player.Move | zynlibs/zynaudioplayer/player.c:690-705 | the transport becomes Advance of the old one |
| AudioPlayer.Player.Mute | zynlibs/zynaudioplayer/player.c:709-718 | the transport becomes Finish of the old one, and the drained samples are faded |
| AudioPlayer.Player.Run | zynlibs/zynaudioplayer/player.c:653-722 | the transport becomes Period of the old one, a player not rolling drains nothing, the ports hold the drained samples and then zeros |
| AudioPlayer.Player.Process | zynlibs/zynaudioplayer/player.c:641-722 | the player's state and ports after the period are PeriodStep of those before: nothing for a player without an open file |
| AudioPlayer.Player.Midi | zynlibs/zynaudioplayer/player.c:726-754 | a note-off halts and restores speed; a note-on restarts from the loop start at the note's pitch; a bend is stored; everything else about the player is unchanged |
| MidiController.Byte | zynlibs/zynmidicontroller/zynmidicontroller.cpp:139-141 | a value stored in a MIDI byte is below 256, congruent to it modulo 256, and unchanged when already a byte |
| MidiController.AcceptedAsWritten | zynlibs/zynmidicontroller/zynmidicontroller.cpp:82 | as written, sendDeviceMidi refuses a status below 128, or two data bytes both above 127 |
| MidiController.Accepted | zynlibs/zynmidicontroller/zynmidicontroller.cpp:80-93 | as intended, a status byte and two 7-bit data bytes |
| MidiController.AcceptedAsWrittenAdmitsBadData | zynlibs/zynmidicontroller/zynmidicontroller.cpp:82 | as written: status 0xBF with data 3 and 200 passes the guard; the intended guard refuses it |
| MidiController.AcceptedRefinesAsWritten | zynlibs/zynmidicontroller/zynmidicontroller.cpp:82 | every message the intended guard accepts passes the code's guard, and with data bytes below 128 the two agree |
| MidiController.Queued | zynlibs/zynmidicontroller/zynmidicontroller.cpp:80-93 | a message is queued exactly when the intended guard accepts it |
| MidiController.PadMessages | zynlibs/zynmidicontroller/zynmidicontroller.cpp:95-115 | the messages stopped, starting, playing and stopping queue for a session pad, in order |
| MidiController.PadMessagesShape | zynlibs/zynmidicontroller/zynmidicontroller.cpp:95-115 | a stopped or playing pad gets one message and a starting or stopping one two, all accepted and for that pad's note; playing uses status 0x92 |
| MidiController.DrumInit | zynlibs/zynmidicontroller/zynmidicontroller.cpp:125-126 | one message per drum pad with the resting drum colour |
| MidiController.StoppedAll | zynlibs/zynmidicontroller/zynmidicontroller.cpp:127-128 | pad k of the 16 receives the stopped messages of pad k |
| MidiController.TablesAreData | zynlibs/zynmidicontroller/zynmidicontroller.cpp:44-53 | every note and colour in the device tables is a data byte |
| MidiController.InitMessages | zynlibs/zynmidicontroller/zynmidicontroller.cpp:122-132 | everything initLaunchkey queues: session mode on, the drum pad colours, all session pads stopped and knob bank 1 |
| MidiController.InitMessagesAccepted | zynlibs/zynmidicontroller/zynmidicontroller.cpp:122-132 | the 34 initialisation messages all pass the guard |
| MidiController.MapEvent | zynlibs/zynmidicontroller/zynmidicontroller.cpp:174-248 | an event gives at most one device and one router message; device feedback exactly for a drum-pad note-on or note-off, router output exactly for a routed event; only controllers change bank and shift; device messages are accepted |
| MidiController.DrumPadMapping | zynlibs/zynmidicontroller/zynmidicontroller.cpp:177-192 | a drum pad note-on is echoed on 0x99 and lit in the pressed colour, a note-off on 0x89 in the resting colour, with its note and velocity |
| MidiController.KnobBankAndShift | zynlibs/zynmidicontroller/zynmidicontroller.cpp:195-202 | controller 9 selects the knob bank and controller 108 sets the shift |
| MidiController.KnobMapping | zynlibs/zynmidicontroller/zynmidicontroller.cpp:219-221 | a knob is sent as a controller on the chosen channel, moved by the bank offset and by 40 while shift is held |
| MidiController.MapEvents | zynlibs/zynmidicontroller/zynmidicontroller.cpp:171-248 | the events of a period mapped in order, each from the bank and shift the ones before it left |
| MidiController.MapEventsSnoc | zynlibs/zynmidicontroller/zynmidicontroller.cpp:171-248 | mapping one more event appends its output to the outputs so far |
| MidiController.MapEventsBounds | zynlibs/zynmidicontroller/zynmidicontroller.cpp:171-248 | n events give at most n router and n device messages |
| MidiController.MapEventsSplit | zynlibs/zynmidicontroller/zynmidicontroller.cpp:171-248 | mapping two runs of events one after the other is mapping their concatenation |
| MidiController.Prefix | zynlibs/zynmidicontroller/zynmidicontroller.cpp:260-271 | the messages that fit are the front of the queue, as many as there is room for |
| MidiController.PrefixSnoc | zynlibs/zynmidicontroller/zynmidicontroller.cpp:260-271 | appending at most one message to a queue extends what fits only while room is left |
| MidiController.Controller.constructor | zynlibs/zynmidicontroller/zynmidicontroller.cpp:40-53 | the driver starts disconnected, unshifted, on bank 0 and channel 0 with all pads stopped and an empty queue |
| MidiController.Controller.SendDeviceMidi | zynlibs/zynmidicontroller/zynmidicontroller.cpp:80-93 | a message is appended to the device queue exactly when the intended guard accepts it |
| MidiController.Controller.Stopped | zynlibs/zynmidicontroller/zynmidicontroller.cpp:95-98 | the pad is marked stopped and its colour messages queued |
| MidiController.Controller.Starting | zynlibs/zynmidicontroller/zynmidicontroller.cpp:100-104 | the pad is marked starting and its colour messages queued |
| MidiController.Controller.Playing | zynlibs/zynmidicontroller/zynmidicontroller.cpp:106-109 | the pad is marked playing and its colour messages queued |
| MidiController.Controller.Stopping | zynlibs/zynmidicontroller/zynmidicontroller.cpp:111-115 | the pad is marked stopping and its colour messages queued |
| MidiController.Controller.SetMidiChannel | zynlibs/zynmidicontroller/zynmidicontroller.cpp:388-391 | a channel below 16 is stored; any other leaves the channel |
| MidiController.Controller.SelectKnobs | zynlibs/zynmidicontroller/zynmidicontroller.cpp:393-399 | a connected device with a bank below 7 gets the bank stored and its message queued; otherwise nothing changes |
| MidiController.Controller.SelectPads | zynlibs/zynmidicontroller/zynmidicontroller.cpp:401-406 | the pad mode message is queued when the device is connected |
| MidiController.Controller.EnableSession | zynlibs/zynmidicontroller/zynmidicontroller.cpp:408-413 | the session mode message is queued when the device is connected |
| MidiController.Controller.ColourDrumPads | zynlibs/zynmidicontroller/zynmidicontroller.cpp:125-126 | the drum pad colour messages are queued in pad order |
| MidiController.Controller.StopAllPads | zynlibs/zynmidicontroller/zynmidicontroller.cpp:127-128 | every session pad is marked stopped and its messages queued in order |
| MidiController.Controller.InitLaunchkey | zynlibs/zynmidicontroller/zynmidicontroller.cpp:122-132 | a connected device is sent the 34 initialisation messages, with bank 1 and all pads stopped; an unconnected one nothing |
| MidiController.Controller.DeviceConnection | zynlibs/zynmidicontroller/zynmidicontroller.cpp:275-316 | the flag of the connected side is set as reported and the other kept; the device is initialised when both sides are connected |
| MidiController.Controller.HandleEvent | zynlibs/zynmidicontroller/zynmidicontroller.cpp:174-248 | one input event updates the bank, the shift and the device queue and returns the router messages, as MapEvent says |
| MidiController.Controller.Flush | zynlibs/zynmidicontroller/zynmidicontroller.cpp:255-271 | the queued messages are sent in order until the device buffer is full, and then the whole queue is cleared |
| MidiController.Controller.Process | zynlibs/zynmidicontroller/zynmidicontroller.cpp:158-273 | a period sends the mapped router messages that fit and the device messages that fit, each in order, and ends with an empty queue |
| MidiController.ProcessSendsInOrder | zynlibs/zynmidicontroller/zynmidicontroller.cpp:260-271 | what reaches the device is the front of the queue, all of it when it fits and exactly the room when not |
| ModHost.LastPiece | zyngine/zynthian_engine_modhost.py:119 | the piece after the last separator holds no separator |
| ModHost.HashPart | zyngine/zynthian_engine_modhost.py:120-122 | the part after '#' holds no '#' and no character absent from the name |
| ModHost.PluginName | zyngine/zynthian_engine_modhost.py:119-125 | the plugin name of an add line: the last / segment of the URI, the part after its #, with _ read as a space, stripped |
| ModHost.PluginNameClean | zyngine/zynthian_engine_modhost.py:119-125 | a plugin name holds no '/', '#' or '_' and has no surrounding whitespace |
| ModHost.PartOfJoin | zyngine/zynthian_engine_modhost.py:119 | a character absent from a joined string is absent from each piece |
| ModHost.PluginNamePlain | zyngine/zynthian_engine_modhost.py:119-125 | a URI ending in a plain name, without '#', '_' or surrounding whitespace, gives that name |
| ModHost.SplitSuffix | zyngine/zynthian_engine_modhost.py:119 | splitting a string whose end holds no separator gives that end as the last piece |
| ModHost.MidiMap | zyngine/zynthian_engine_modhost.py:160 | the midi_map command of a mapped parameter on the engine's channel |
| ModHost.ParamName | zyngine/zynthian_engine_modhost.py:137-145 | the parameter a param_set line names, or ":bypass" for a bypass line; Step and StepEffects state where it goes |
| ModHost.CaptureCmd | zyngine/zynthian_engine_modhost.py:131 | the connect command a MIDI-input line adds |
| ModHost.Step | zyngine/zynthian_engine_modhost.py:112-165 | one pedalboard line: add registers a plugin, a ttymidi connect adds its capture command, a param_set or bypass of a known plugin with a value maps a parameter to the next CC; its effects are StepEffects and its invariant StepWf |
| ModHost.Steps | zyngine/zynthian_engine_modhost.py:105-165 | the lines of a pedalboard applied in order; StepsWf and StepsCounts state what the parse keeps |
| ModHost.StepEffects | zyngine/zynthian_engine_modhost.py:112-165 | an add line records the plugin with no parameters; a ttymidi connect line appends the capture command; a mapping line for a known plugin appends a parameter with the next CC, appends a midi_map command and advances the CC; any other line changes nothing |
| ModHost.ApartBelow | zyngine/zynthian_engine_modhost.py:158-162 | a plugin whose CCs are below a bound shares none with one whose CCs are at or above it |
| ModHost.StepWf | zyngine/zynthian_engine_modhost.py:112-165 | one line keeps the parse state well formed |
| ModHost.AddWf | zyngine/zynthian_engine_modhost.py:115-127 | an add line keeps the state well formed, replacing a plugin of the same id |
| ModHost.ResetWf | zyngine/zynthian_engine_modhost.py:124-126 | resetting a plugin's entry to no parameters keeps the state well formed |
| ModHost.AppendNumbered | zyngine/zynthian_engine_modhost.py:151-162 | appending a parameter with the next CC keeps the numbering increasing and apart from other plugins |
| ModHost.NumberedMore | zyngine/zynthian_engine_modhost.py:162 | raising the bound keeps a plugin numbered |
| ModHost.MapWf | zyngine/zynthian_engine_modhost.py:146-165 | a mapping line for a known plugin keeps the state well formed |
| ModHost.ExtendWf | zyngine/zynthian_engine_modhost.py:158-162 | appending a parameter with the current CC and advancing the CC keeps the state well formed |
| ModHost.ExtendNumbered | zyngine/zynthian_engine_modhost.py:158-162 | after the append every plugin is numbered below the new CC |
| ModHost.ExtendApart | zyngine/zynthian_engine_modhost.py:158-162 | after the append no two plugins share a CC |
| ModHost.StepsWf | zyngine/zynthian_engine_modhost.py:105-165 | parsing a whole pedalboard keeps the state well formed: ids and dictionary agree, every parameter has range 0 to 127 and a CC below the next, increasing within a plugin and never shared between plugins; the CC never decreases |
| ModHost.StepsCounts | zyngine/zynthian_engine_modhost.py:105-165 | the next CC is the first one plus the number of lines that mapped a parameter |
| ModHost.Entry | zyngine/zynthian_engine_modhost.py:185-193 | a controller entry keeps the CC; a switch loses its colon and is off|on, anything else ranges to 127 with a numeric value |
| ModHost.MidiValue | zyngine/zynthian_engine_modhost.py:190-192 | a parameter's value scaled from its range to 0..127 with int() truncation toward zero (0 for an empty range), the value a non-switch entry shows: a value inside a non-empty range lands in 0..127, and the range's maximum gives exactly 127 |
| ModHost.ScaledBounds | zyngine/zynthian_engine_modhost.py:191 | an offset inside a non-empty range scales by 127/width into 0..127, and the full width to exactly 127 |
| ModHost.Entries | zyngine/zynthian_engine_modhost.py:183-193 | a plugin has at most one entry per parameter |
| ModHost.EntriesSnoc | zyngine/zynthian_engine_modhost.py:183-193 | one more parameter adds its entry exactly when it has a CC |
| ModHost.EntriesAll | zyngine/zynthian_engine_modhost.py:183-193 | when every parameter has a CC, entry k is the entry of parameter k |
| ModHost.Chunks | zyngine/zynthian_engine_modhost.py:194-204 | a plugin's controllers cut into screens of four titled name#c, name#c+1, …; ChunksFlatten, ChunksSizes, ChunksTitles and ChunksEntries state the layout |
| ModHost.Title | zyngine/zynthian_engine_modhost.py:196-204 | a screen's title, the plugin name, '#' and the screen number written by str(); ChunksTitles states the numbering |
| ModHost.ChunksCount | zyngine/zynthian_engine_modhost.py:194-204 | n entries make ⌈n/4⌉ screens |
| ModHost.ChunksSizes | zyngine/zynthian_engine_modhost.py:194-204 | every screen holds four entries except the last, which holds one to four |
| ModHost.ChunksTitles | zyngine/zynthian_engine_modhost.py:194-204 | screen k is titled with the plugin name, '#' and number c + k, on page 0 |
| ModHost.ChunksFlatten | zyngine/zynthian_engine_modhost.py:194-204 | the screens hold every entry once, in order |
| ModHost.ChunksAppend | zyngine/zynthian_engine_modhost.py:194-204 | the screens of a multiple of four entries followed by more are their screens followed by the screens of the rest, numbered on |
| ModHost.Regroup | zyngine/zynthian_engine_modhost.py:181-204 | a list split as head, x and y is the head and x followed by y |
| ModHost.ChunksHead | zyngine/zynthian_engine_modhost.py:194-199 | the first screen holds the first four entries and the rest are numbered on |
| ModHost.ChunksConcatHead | zyngine/zynthian_engine_modhost.py:194-199 | with four entries ahead and more after them, the first screen is those four |
| ModHost.PluginScreens | zyngine/zynthian_engine_modhost.py:181-204 | the screens of one plugin: its parameters' entries chunked from number 1 |
| ModHost.AllScreens | zyngine/zynthian_engine_modhost.py:178-204 | the screens of all plugins concatenated in dictionary order; AllScreensFilled states that none is empty |
| ModHost.CtrlList | zyngine/zynthian_engine_modhost.py:176-207 | the controller list: all plugins' screens in dictionary order, or the defaults when there are none |
| ModHost.EntriesHaveCc | zyngine/zynthian_engine_modhost.py:184 | every entry carries a positive CC |
| ModHost.PluginScreensFilled | zyngine/zynthian_engine_modhost.py:183-204 | every screen of a plugin holds one to four entries with CCs |
| ModHost.AllScreensFilled | zyngine/zynthian_engine_modhost.py:179-204 | every screen of all the plugins holds one to four entries with CCs |
| ModHost.ChunkAt | zyngine/zynthian_engine_modhost.py:194-204 | controller j of screen k is controller 4k + j of those chunked |
| ModHost.ChunksEntries | zyngine/zynthian_engine_modhost.py:194-204 | every controller on a screen is one of those chunked |
| ModHost.PendingDone | zyngine/zynthian_engine_modhost.py:202-204 | when every parameter is taken, the list plus the partial last screen is the base followed by the plugin's screens |
| ModHost.Engine.constructor | zyngine/zynthian_engine_modhost.py:51-64 | a new engine has no plugins, the engine's default controller list, the given defaults and channel, and no snapshot |
| ModHost.Engine.MhCommands | zyngine/zynthian_engine_modhost.py:105-174 | mh_commands leaves the plugins, commands and CC of Steps over the lines from CC 1, and regenerates the controller list as CtrlList unless a snapshot is loaded |
| ModHost.Engine.ReadLine | zyngine/zynthian_engine_modhost.py:113-165 | one line changes the plugins, the commands and the CC as Step says |
| ModHost.Engine.GenerateCtrlList | zyngine/zynthian_engine_modhost.py:176-207 | the controller list is the plugins' screens in dictionary order, or the defaults when there are none |
| ModHost.Engine.AddPluginScreens | zyngine/zynthian_engine_modhost.py:179-204 | the plugin's screens are appended to the list |
| ModHost.Engine.TakeParam | zyngine/zynthian_engine_modhost.py:183-201 | taking one more parameter keeps the list equal to the base followed by the screens of the entries so far |
| ModHost.Engine.AddCtrl | zyngine/zynthian_engine_modhost.py:190-201 | adding an entry appends it to the partial screen, which is flushed to the list when it reaches four |
| Chain.Added | zyngine/zynthian_chain.py:177-186 | the port is in the list after adding, which extends the old list by at most that port and holds nothing else new |
| Chain.AddedNoDup | zyngine/zynthian_chain.py:177-186 | adding keeps a list without duplicates, and adding again changes nothing |
| Chain.Removed | zyngine/zynthian_chain.py:189-200 | an absent port leaves the list unchanged; a present one shortens it by one, and nothing new appears |
| Chain.FirstIndex | zyngine/zynthian_chain.py:189-200 | the first index holding the port |
| Chain.RemovedFirst | zyngine/zynthian_chain.py:189-200 | list.remove drops exactly the first occurrence of the port |
| Chain.RemovedMultiset | zyngine/zynthian_chain.py:189-200 | removing a present port removes one copy and nothing else |
| Chain.ConsSlices | zyngine/zynthian_chain.py:189-200 | slices of a list after its head are the slices of its tail |
| Chain.RemovedNoDup | zyngine/zynthian_chain.py:189-200 | in a list without duplicates removing a port leaves no copy of it and no duplicates |
| Chain.Toggled | zyngine/zynthian_chain.py:203-213 | toggle: a port absent from the list is appended, a present one has its first occurrence removed |
| Chain.ToggleTwice | zyngine/zynthian_chain.py:203-213 | toggling twice gives back a list without the port, a single copy of it up to order, and every other port |
| Chain.RemovedLast | zyngine/zynthian_chain.py:189-200 | adding a new port and removing it gives back the list |
| Chain.LegacyFixed | zyngine/zynthian_chain.py:167-171 | the legacy fix of set_audio_out: a "system" entry is replaced by the two system playback ports at the end |
| Chain.LegacyFixedContents | zyngine/zynthian_chain.py:168-171 | a list without "system" is kept; otherwise one "system" is replaced by both system playback ports at the end and no "system" remains when there was one |
| Chain.MixerPort | zyngine/zynthian_chain.py:218-219 | "zynmixer:input_", the strip number in at least two digits, and the side |
| Chain.MixerPortNamed | zyngine/zynthian_chain.py:218-219 | a mixer input port names its strip number and ends with its side |
| Chain.ResetAudioPorts | zyngine/zynthian_chain.py:216-221 | the ports reset_audio_out routes to: the mixer strip of the MIDI channel + 1, or the system playback pair |
| Chain.ResetAudioPortsNamed | zyngine/zynthian_chain.py:216-219 | the reset outputs are two different ports; with a channel, the two sides of the mixer strip numbered channel + 1 |
| Chain.GetPath | zyngine/zynthian_chain.py:370-374 | without a bank a preset name fails with a TypeError and no preset gives None; with a bank, the bank alone or bank/preset |
| Chain.GetBasepath | zyngine/zynthian_chain.py:377-381 | the engine path, preceded by the MIDI channel + 1 and '#' when the chain has one |
| Chain.BasepathChannel | zyngine/zynthian_chain.py:377-381 | with a channel the base path is the channel + 1 in decimal, '#', and the engine path, and reading back the first piece gives the channel + 1 |
| Chain.SplitPrefix | zyngine/zynthian_chain.py:380 | splitting a + c + b at c gives a first when a holds no c |
| Chain.GetBankpath | zyngine/zynthian_chain.py:384-389 | the base path, followed by " > bank" when a bank other than "None" is set |
| Chain.GetPresetpath | zyngine/zynthian_chain.py:391-405 | the base path, followed by " > bank/preset", " > bank" or " > preset" as those are set |
| Chain.PresetpathForms | zyngine/zynthian_chain.py:384-405 | the preset path is the bank path with /preset, the bank path, the base path with > preset, or the base path, and always starts with the base path |
| Chain.Chain.constructor | zyngine/zynthian_chain.py:50-82 | a new chain has an empty node grid, no MIDI devices, all 16 input channels ignored, the full note range, no audio ports and no title |
| Chain.Chain.SetMidiInputDevs | zyngine/zynthian_chain.py:93-94 | the MIDI input devices are replaced |
| Chain.Chain.SetMidiInputChans | zyngine/zynthian_chain.py:97-98 | the MIDI input channels are replaced |
| Chain.Chain.Slot | zyngine/zynthian_chain.py:120-125 | a Python index into the ZS3 list, negative ones counted from the end |
| Chain.Chain.ResetZs3 | zyngine/zynthian_chain.py:116-117 | all 128 ZS3 slots become empty |
| Chain.Chain.DeleteZs3 | zyngine/zynthian_chain.py:120-121 | only the slot the Python index names becomes empty; an index out of range raises IndexError and changes nothing |
| Chain.Chain.GetZs3 | zyngine/zynthian_chain.py:124-125 | get_zs3 gives the content of the slot the Python index names, and IndexError exactly for an index out of range |
| Chain.Chain.SaveZs3 | zyngine/zynthian_chain.py:128-136 | an index in range stores an empty state; any other is caught and leaves the slots unchanged |
| Chain.Chain.RestoreZs3 | zyngine/zynthian_chain.py:139-145 | restore_zs3 returns True exactly when the slot holds a non-empty state, and raises IndexError for an index out of range |
| Chain.Chain.SetAudioOut | zyngine/zynthian_chain.py:165-171 | the audio output list is a copy of the given one with the legacy name fixed |
| Chain.Chain.AddAudioOut | zyngine/zynthian_chain.py:177-186 | the audio output list becomes Added of the old one |
| Chain.Chain.DelAudioOut | zyngine/zynthian_chain.py:189-200 | the audio output list becomes Removed of the old one |
| Chain.Chain.ToggleAudioOut | zyngine/zynthian_chain.py:203-213 | the port is removed when present and appended otherwise |
| Chain.Chain.ResetAudioOut | zyngine/zynthian_chain.py:216-221 | the audio output list becomes the mixer strip of the channel, or the system playback pair |
| Chain.Chain.MuteAudioOut | zyngine/zynthian_chain.py:224-227 | the audio output list becomes empty |
| Chain.Chain.SetAudioIn | zyngine/zynthian_chain.py:247-249 | the audio input list is replaced |
| Chain.Chain.AddAudioIn | zyngine/zynthian_chain.py:252-257 | the audio input list becomes Added of the old one |
| Chain.Chain.DelAudioIn | zyngine/zynthian_chain.py:260-267 | the audio input list becomes Removed of the old one |
| Chain.Chain.ToggleAudioIn | zyngine/zynthian_chain.py:270-278 | the audio input port is removed when present and added otherwise |
| Chain.Chain.ResetAudioIn | zyngine/zynthian_chain.py:281-283 | the audio input list is reset to both system captures |
| Chain.Chain.MuteAudioIn | zyngine/zynthian_chain.py:286-288 | the audio input list becomes empty |
| Chain.Chain.SetMidiOut | zyngine/zynthian_chain.py:309-314 | the MIDI output list is replaced |
| Chain.Chain.AddMidiOut | zyngine/zynthian_chain.py:317-325 | the MIDI output list becomes Added of the old one |
| Chain.Chain.DelMidiOut | zyngine/zynthian_chain.py:328-338 | the MIDI output list becomes Removed of the old one |
| Chain.Chain.ToggleMidiOut | zyngine/zynthian_chain.py:341-350 | the MIDI output port is removed when present and added otherwise |
| Chain.Chain.MuteMidiOut | zyngine/zynthian_chain.py:353-355 | the MIDI output list becomes empty |
| Chain.SavedZs3IsFalse | zyngine/zynthian_chain.py:128-145 | a slot just saved does not restore: the saved state is an empty dictionary, which Python treats as false |
| Text.Decimal | zyngine/zynthian_chain.py:380 | str(n) is a non-empty run of digits, a single digit exactly below 10 |
| Text.DigitValue | zyngine/zynthian_chain.py:380 | a digit's value is below 10 |
| Text.DecimalRoundTrip | zyngine/zynthian_chain.py:380 | int(str(n)) == n |
| Text.DecimalInjective | zyngine/zynthian_chain.py:380 | different numbers are written differently |
| Text.TwoDigits | zyngine/zynthian_chain.py:218 | "%02d" gives at least two digits naming the number |
| Text.Replace | zyngine/zynthian_engine_modhost.py:125 | replace changes exactly the occurrences of one character, keeping the length |
| Text.Leading | zyngine/zynthian_engine_modhost.py:125 | the leading run of Python whitespace (the characters str.isspace accepts), up to the first other character |
| Text.Whitespace | zyngine/zynthian_engine_modhost.py:125 | exactly the characters Python's str.isspace accepts, which strip() removes; Leading, StripRight and Strip are built on it |
| Text.StripRight | zyngine/zynthian_engine_modhost.py:125 | rstrip removes exactly the trailing whitespace |
| Text.Strip | zyngine/zynthian_engine_modhost.py:125 | strip removes exactly the leading and the trailing whitespace and keeps the middle |
| Text.Split | zyngine/zynthian_engine_modhost.py:119-121 | split gives at least one piece, none holding the separator, and one piece exactly when the separator is absent |
| Text.JoinSplit | zyngine/zynthian_engine_modhost.py:119-121 | joining the pieces of a split with the separator gives back the string |
| Text.JoinEmptyHead | zyngine/zynthian_engine_modhost.py:119-121 | joining after an empty first piece starts with the separator |
| Text.JoinCons | zyngine/zynthian_engine_modhost.py:119-121 | joining after a character put on the first piece puts it in front |
| Text.ReplaceChars | zyngine/zynthian_engine_modhost.py:125 | after replace every character other than the new one came from the string and is not the old one |
| Text.StripChars | zyngine/zynthian_engine_modhost.py:125 | strip only removes characters |
| Text.SplitAbsent | zyngine/zynthian_engine_modhost.py:119-121 | a string without the separator splits into itself |

## Left out

- Threads, mutexes and sleeps are not modelled. This covers the reader's wait for room (`player.c:356-364`), load's wait for the file to open (`player.c:448-450`) and the controller's mutex. The reader and the JACK period are separate methods, each called atomically. PlayerRules.WaitConditionsAgree and PlayerRules.DemuxWholeBlock state what the wait guarantees.
- libsndfile, libsamplerate and JACK are outside the model. Their results are parameters: the file description, the frames read, the converter's output, the room in the JACK buffers and the port buffers.
- The copy of unused frames inside the converter's input buffer (`player.c:349`) is left out. Only the count of unused frames is kept, because the converter is an oracle.
- Ring buffers hold samples rather than bytes. Byte counts are divided by the sample size throughout.
- Floating-point rounding is not modelled; samples, gains, ratios and times are reals. The C library's `pow` becomes `AudioTypes.Pow`, and the semitone ratio is the constant 1.059463094359.
- `NOTIFY_DEBUG` (`player.c:197-201`), the debug globals and `enable_debug` are left out. They only enable logging.
- The `ENABLE_MIDI` block (`player.c:755-783`) is left out, because the macro is not defined in the source.
- Other `player.c` operations are left out because they are file I/O or library set-up outside the player state: `get_file_duration`, `get_file_info`, `lib_init`, library exit, `on_jack_samplerate`, JACK client and port registration, and the codec and format tables. Port registration is the `registered` parameter of Registry.Players.AddPlayer.
- AudioPlayer.ReadStep: when the reader is not loading, the model reads 0 frames. In `player.c:302` the count `nFramesRead` is then left uninitialised and read by the demux loop at line 367, which is undefined behaviour; the model takes 0, as the demux of nothing.
- AudioPlayer.IsLoop and AudioPlayer.Player.EnableLoop: the loop flag is a `uint8_t` in `player.c:54`. `enable_loop` stores the caller's value, `is_loop` returns it and send_notifications compares it. The model keeps a bool, so a flag of 2 to 255 reads back as 1, and a change from 1 to 2 sends no notification.
- PlayerRules.LoopFrame: `player.c:545` and `:563` convert `samplerate * time` to the unsigned `jack_nframes_t`. For a negative or oversized value this is undefined behaviour in C, and ARM saturates to 0 or 2^32 − 1. The model truncates and wraps modulo 2^32 instead. So `set_loop_start_time(-1.0)` is refused in the model, while the target can set the loop start to 0.
- Fields that `player.c` leaves uninitialised after `malloc` are left unconstrained in AudioPlayer.Player.constructor.
- In `zynmidicontroller.cpp`, the channel expression at line 173 is only printed to the debug log, so it is left out.
- Also left out of `zynmidicontroller.cpp`: library init and end, and the port-name matching of `onJackConnect`. MidiController.Controller.DeviceConnection takes the two connection flags as found.
- In the mod-host engine, the regular expressions are not modelled: each pedalboard line arrives already tokenised as a `Line` value.
- Also left out of the mod-host engine, as process control, file access or logging: running mod-host, `check_output`, `proc_cmd`, `proc_get_lines`, `_set_instr`, `load_ctrl_config` and logging.
- In the chain, the `zynautoconnect` and GUI calls are left out as foreign calls.
- `pair_audio_out` (`zynthian_chain.py:230-234`) is left out: it gives every other chain of the engine this chain's `audio_out` list object, and the model holds one chain at a time.
- The chain's lists are values, so sharing is not captured. `set_midi_out`, `set_midi_input_devs` and `set_midi_input_chans` store the caller's list itself, so in Python a later add, delete or toggle also changes the caller's list, and chains paired by `pair_audio_out` change together. Chain.Chain.SetMidiOut, Chain.Chain.SetMidiInputDevs and Chain.Chain.SetMidiInputChans state only the new contents.
- The chain's `Counter`-based checks `is_parallel_audio_routed` and `is_parallel_midi_routed` are left out, and so are the `isinstance` tests in `get_path` beyond GetPath's error case.
- Chain.Chain.AddAudioOut: as written each call raises NameError at `zynthian_chain.py:178`, before any list changes, because `zynthian_layer` is neither imported nor defined in the module. The model takes `jackname` as a string and applies the intended list update.
- Chain.Chain.DelAudioOut: as written each call raises NameError at `zynthian_chain.py:190`, before any list changes, because `zynthian_layer` is neither imported nor defined in the module. The model takes `jackname` as a string and applies the intended list update.
- Chain.Chain.ToggleAudioOut: as written each call raises NameError at `zynthian_chain.py:204`, before any list changes, because `zynthian_layer` is neither imported nor defined in the module. The model takes `jackname` as a string and applies the intended list update.
- Chain.Chain.AddMidiOut: as written each call raises NameError at `zynthian_chain.py:318`, before any list changes, because `zynthian_layer` is neither imported nor defined in the module. The model takes `jackname` as a string and applies the intended list update.
- Chain.Chain.DelMidiOut: as written each call raises NameError at `zynthian_chain.py:329`, before any list changes, because `zynthian_layer` is neither imported nor defined in the module. The model takes `jackname` as a string and applies the intended list update.
- Chain.Chain.ToggleMidiOut: as written each call raises NameError at `zynthian_chain.py:342`, before any list changes, because `zynthian_layer` is neither imported nor defined in the module. The model takes `jackname` as a string and applies the intended list update.
- Also left out of the chain: `get_jackname`, the plain getters, `reset()` and the snapshot stubs.
- In the chain, routing lists and `zs3_list` always have values. The AttributeError Python raises while they are unset is not modelled.
- Chain.SavedZs3IsFalse: the model follows the code. A slot saved by `save_zs3` holds an empty dictionary, so `restore_zs3` returns False for it rather than True.
- Registry.Players.ProcessMidi: states only that players no event addresses are unchanged. The effect on the addressed player is stated event by event by Registry.Players.RouteMidi.
- AudioPlayer.Player.ReadAhead: states validity and the read step, but not the converter's output samples, which come from the converter oracle.
- AudioPlayer.Player.Fill: states the drained counts and contents through PortBuffers.Drained, but not the catch-up count of the pitched drain in closed form. PortBuffers.DrainPitched states that.

## Findings

| source | as written | input that shows it | evidently intended | confidence | as-written member | corrected member |
|---|---|---|---|---|---|---|
| zynlibs/zynaudioplayer/player.c:113 | `get_player` refuses handles above `MAX_PLAYERS` only | handle 17 reads `g_players[17]`, one past the 17-slot table | refuse handles at or above `MAX_PLAYERS` | not executed | Registry.GetPlayerAsWrittenOverruns | Registry.Players.GetPlayerAgrees |
| zynlibs/zynaudioplayer/player.c:532 | `enable_loop` divides the loop end frame by the sample rate in integer arithmetic before converting to seconds | a play head past a loop end at frame 66150 at 44100 Hz is moved to frame 44100, not to the loop end | the exact time of the loop end frame | not executed | PlayerRules.EntryTimeAsWrittenTruncates | PlayerRules.EntryTimeExact |
| zynlibs/zynaudioplayer/player.c:566 | `set_loop_end_time` compares the native loop end frame with `frames`, the file length at the output rate | 1000-frame file at ratio 0.5: loop end 700 is refused though inside the file | compare the native frame with the native file length | not executed | PlayerRules.LoopEndAsWrittenRefusesInside | PlayerRules.LoopEndInsideFile |
| zynlibs/zynaudioplayer/player.c:305-306 | the frames left before the loop end are computed in `size_t` with no check | read position 200000, loop end 44100, block 48000: the `size_t` request wraps to 2^64 − 155900, and libsndfile, whose count is signed, is handed −155900 | ask for no more than the block and never past the loop end | not executed | PlayerRules.RequestSizeAsWrittenOverflows | PlayerRules.RequestSizeAgrees |
| zynlibs/zynaudioplayer/player.c:694 | the loop wrap takes the position modulo the converted loop end | an empty file has a converted loop end of 0, so the wrap divides by zero | an empty loop end sends the play head to the loop start | not executed | PlayerRules.EmptyFileWrapDividesByZero | PlayerRules.Wrap |
| zynlibs/zynaudioplayer/player.c:736-741 | a note-on with velocity 0 for a note other than the last one starts that note | status 0x90, note 64, velocity 0 with last note 60 starts note 64 | a velocity-0 note-on never starts a note | not executed | PlayerRules.VelocityZeroStartsAsWritten | PlayerRules.InterpretAgrees |
| zynlibs/zynaudioplayer/player.c:733 | MIDI is handled whether or not a file is open | a note-on with no file open starts playback | ignore notes while no file is open | not executed | PlayerRules.NoteOnWithoutFileAsWritten | PlayerRules.Interpret |
| zynlibs/zynmidicontroller/zynmidicontroller.cpp:82 | the guard's `\|\|` and `&&` group so that a message is refused for its data only when both data bytes exceed 127 | status 0xBF, data 3 and 200 passes | every byte in range | not executed | MidiController.AcceptedAsWrittenAdmitsBadData | MidiController.AcceptedRefinesAsWritten |
