# Laser harp firmware, modelled in Dafny

The firmware drives eight laser beams, each shining on a light-dependent
resistor (LDR). When a beam is broken, the harp sends a USB-MIDI note-on for
that string's note. When the beam is restored, it sends a note-off. Every
sensor compares its reading against a baseline of its own. The baseline is the
mean of a burst of 64 ADC readings. It is set at start-up, refreshed when
ambient light drifts far upwards, and re-anchored after every release. A push
button raises an interrupt that switches between a major and a minor scale.
On the next poll, the firmware sends a note-off for every string and re-derives
the notes.

The project has six modules:

- `Bits` (`bits.dfy`): `2^n`, and the C++ `|` on non-negative integers
  (`BitOr`), with the two facts about it that the packet builders need.
- `Midi` (`midi.dfy`): the four-byte USB-MIDI event packets that the
  `SonarMIDIUSB` wrapper builds. Each packet builder is a function. A reference
  decoder proves the round trip between a MIDI message and its packet, both
  ways. The class `SonarMidiUsb` records the packets handed to the transport in
  its `sent` log.
- `NoteEvents` (`note_events.dfy`): the note events the firmware emits, the
  packets they become, and the per-sensor discipline of the event log. A
  sensor is sounding if its last event was a note-on. Its log alternates if no
  note-on is sent for it while it is sounding.
- `LowPassFilter` (`low_pass_filter.dfy`): the baseline estimator of
  `lpfCalc`. It is the sum of a 64-sample burst shifted right by 6. The module
  proves that this is the floor of the mean, that it lies between the smallest
  and the largest sample, and that the accumulator cannot overflow.
- `HarpSpec` (`harp_spec.dfy`): the firmware's globals as a value
  (`HarpState`), and what `setup`, `changeScale`, `lpfCalc` and one pass of
  `loop` do to it, as functions. The lemmas state the invariant that every pass
  keeps (`Inv`) and the behaviour of each check: trigger, release, drift,
  hysteresis band and remap.
- `LaserHarpFirmware` (`laser_harp.dfy`): the firmware itself. The class
  `LaserHarp` holds the globals as fields and arrays. `setup` is its
  constructor. `loop`, `changeScale`, `lpfInit` and `lpfCalc` are methods with
  the source's loops, updating the arrays in place. Every method is proved to
  change `State()` exactly as the matching `HarpSpec` function says. The
  methods that start from `Valid()` also keep it. `Valid()` ties the object to
  `HarpSpec.Inv`, and the packets sent to the ghost event log. Two client
  methods, `PressAndPoll` and `PlayAfterScaleChange`, run `setup`, a button
  press and two passes of `loop` on one object. They show that the calls
  compose.

### Integer semantics

The model assumes an 8-bit AVR target, where `int` is 16 bits wide. The source
does not name the board; native USB and analog pins A6 to A9 fit an AVR such
as the ATmega32U4, but they also fit 32-bit boards, where the results below
that depend on 16-bit wrap-around would not hold.

- `ldrAvr[i] + topThreshold` and `ldrAvr[i] - botThreshold` are computed in
  16-bit `unsigned int` (`HarpSpec.U16`). The subtraction wraps when the
  baseline is below 50. `HarpSpec.DarkSensorChatters` states what follows.
- `_scale` is a `uint8_t` and counts modulo 256.
- `lpf` is a `uint32_t` and is modelled modulo 2^32.
- `ldrAvr` is a `uint16_t` and is stored modulo 2^16.
- `& 0x7F` on the pitch-bend `int` is the Euclidean remainder by 128.
- `>> 7` is floor division by 128, followed by the `uint8_t` truncation.
- A reading (`Sample`) is a 10-bit ADC value, 0..1023.

### Inputs

Hardware reads are parameters:

- `readings`: one reading per sensor per pass of `loop`.
- `driftBursts`: the 64 samples `lpfCalc` reads for a sensor if its drift
  check fires.
- `releaseBursts`: the 64 samples `lpfCalc` reads for a sensor if its release
  check fires.
- `bursts`: the constructor's 64 samples per sensor, for `lpfInit`.

The interrupt handler `changeScale` is a method that a caller interleaves
between passes of `loop`.

## Model

| member | source | states |
|---|---|---|
| Bits.BitOrBound | lib/SonarMIDIUSB/SonarMIDIUSB.h:19 | OR of two numbers below 2^n stays below 2^n, so `0x90` OR `channel` fits the `uint8_t` |
| Bits.BitOrDisjoint | lib/SonarMIDIUSB/SonarMIDIUSB.h:19 | OR of a multiple of 2^n with a number below 2^n is their sum, so `0x90` OR `channel` is `0x90 + channel` for a 4-bit channel |
| Midi.Status | lib/SonarMIDIUSB/SonarMIDIUSB.h:19 | the status byte `0xK0` OR `channel`: its low nibble is the channel exactly when the channel is below 16, and then its high nibble is the kind |
| Midi.NoteOnPacket | lib/SonarMIDIUSB/SonarMIDIUSB.h:18-21 | header 0x09 on cable 0; a channel below 16 comes back as the status byte's low nibble, and then the status nibble equals the CIN; note and velocity are bytes 2 and 3 |
| Midi.NoteOffPacket | lib/SonarMIDIUSB/SonarMIDIUSB.h:23-26 | header 0x08 on cable 0, the same channel and status-nibble facts, note and velocity as data |
| Midi.AfterTouchPacket | lib/SonarMIDIUSB/SonarMIDIUSB.h:28-31 | header 0x0A on cable 0, the same channel and status-nibble facts, note and pressure as data |
| Midi.ControlChangePacket | lib/SonarMIDIUSB/SonarMIDIUSB.h:33-36 | header 0x0B on cable 0, the same channel and status-nibble facts, control and value as data |
| Midi.PitchBendPacket | lib/SonarMIDIUSB/SonarMIDIUSB.h:38-41 | header 0x0E on cable 0; for every 16-bit value the two data bytes carry its low 15 bits (`lsb + 128*msb == value mod 2^15`, two's complement); for 0 <= value < 16384 both data bytes are below 128 and `lsb + 128*msb == value`; from 16384 up the MSB is no longer a data byte |
| Midi.BendLsb | lib/SonarMIDIUSB/SonarMIDIUSB.h:39 | `value & 0x7F` is below 128 and congruent to the value modulo 128, negative values included |
| Midi.BendMsb | lib/SonarMIDIUSB/SonarMIDIUSB.h:39 | `value >> 7` truncated to a byte, together with the LSB, gives back the value modulo 2^15 |
| Midi.EncodeDecode | lib/SonarMIDIUSB/SonarMIDIUSB.h:18-41 | every valid message (4-bit channel, 7-bit data, 14-bit bend), once built into its packet, is decoded back to itself |
| Midi.DecodeEncode | lib/SonarMIDIUSB/SonarMIDIUSB.h:18-41 | every packet a receiver accepts is exactly the packet the wrapper builds for the decoded message |
| Midi.UnmaskedChannelCorruptsStatus | lib/SonarMIDIUSB/SonarMIDIUSB.h:19 | the channel is not masked: `sendNoteOn` with channel 0x20 emits status 0xB0, which a receiver rejects as a note-on |
| Midi.SonarMidiUsb.constructor | lib/SonarMIDIUSB/SonarMIDIUSB.h:7-16 | the wrapper starts with nothing sent |
| Midi.SonarMidiUsb.SendNoteOn | lib/SonarMIDIUSB/SonarMIDIUSB.h:18-21 | `midiEvent` becomes the note-on packet and is handed to the transport once (defaults velocity 100, channel 0) |
| Midi.SonarMidiUsb.SendNoteOff | lib/SonarMIDIUSB/SonarMIDIUSB.h:23-26 | `midiEvent` becomes the note-off packet and is handed to the transport once (defaults velocity 0, channel 0) |
| Midi.SonarMidiUsb.SendAfterTouch | lib/SonarMIDIUSB/SonarMIDIUSB.h:28-31 | `midiEvent` becomes the poly-pressure packet and is handed to the transport once |
| Midi.SonarMidiUsb.SendControlChange | lib/SonarMIDIUSB/SonarMIDIUSB.h:33-36 | `midiEvent` becomes the control-change packet and is handed to the transport once |
| Midi.SonarMidiUsb.SendPitchBend | lib/SonarMIDIUSB/SonarMIDIUSB.h:38-41 | `midiEvent` becomes the pitch-bend packet and is handed to the transport once |
| NoteEvents.Uint8 | src/main.cpp:70 | the conversion to a `byte` argument leaves every value in 0..255 unchanged |
| NoteEvents.EventPacket | src/main.cpp:70 | the calls `midi.sendNoteOn(notes[i], velocity[i])` and `midi.sendNoteOff(notes[i])` (also lines 53 and 79) send a framed packet on channel 0 carrying the note as a byte, with the velocity for a note-on and the default 0 for a note-off |
| NoteEvents.EventPacketDecodes | src/main.cpp:70 | the packet of a firmware note-on or note-off decodes to that note and velocity on channel 0, with velocity 0 for a note-off |
| NoteEvents.Packets | src/main.cpp:53 | the packets sent are, index by index, the packets of the event log |
| NoteEvents.Snoc | src/main.cpp:69-80 | appending one event sets, clears or keeps a sensor's sounding state, and keeps the log alternating exactly when a note-on is not sent while sounding |
| NoteEvents.AppendOthers | src/main.cpp:58-88 | events of other sensors change neither a sensor's sounding state nor its alternation |
| NoteEvents.OnWithoutOffSounds | src/main.cpp:69-80 | a note-on for a sensor with no later note-off for it leaves the sensor sounding |
| NoteEvents.AlternatingOffBetween | src/main.cpp:69-80 | in an alternating log, between any two note-ons of a sensor lies a note-off of that sensor |
| LowPassFilter.Sum | src/main.cpp:114-116 | the accumulated sum of non-negative readings is non-negative |
| LowPassFilter.Baseline | src/main.cpp:117 | the shifted burst sum lies in the ADC range 0..1023 |
| LowPassFilter.SumBounded | src/main.cpp:114-116 | n samples in [lo, hi] sum to a value in [n*lo, n*hi] |
| LowPassFilter.BaselineIsMean | src/main.cpp:117 | shifting right by 6 divides by the 64 samples: the baseline is the floor of the mean |
| LowPassFilter.BaselineBetweenSamples | src/main.cpp:112-118 | some sample of the burst is at most the baseline and some sample is at least it |
| LowPassFilter.AccumulatorFits | src/main.cpp:114-116 | every partial sum of a burst is below 2^16, so the 32-bit `lpf` never wraps |
| HarpSpec.U16 | src/main.cpp:60 | 16-bit unsigned arithmetic: values in range are unchanged, negative ones wrap by 2^16 |
| HarpSpec.NoteFor | src/main.cpp:55 | `baseNote + scale[idx][i]` lies in 60..72, inside the MIDI range, and rises with the string index |
| HarpSpec.ScaleNotes | src/main.cpp:40 | the note set of a scale: one note per sensor, each from NoteFor |
| HarpSpec.WrapAsWritten | src/main.cpp:50 | the wrap as written: only an index equal to `scaleCount` becomes 0 |
| HarpSpec.WrapIndex | src/main.cpp:50 | the corrected wrap: the result is always a valid scale index, indices in range are kept, and it agrees with the original for every index up to `scaleCount` |
| HarpSpec.Recalibrate | src/main.cpp:112-118 | `lpfCalc(i)` sets `lpf` and `ldrAvr[i]` to the burst's baseline and changes nothing else |
| HarpSpec.InitialBaselines | src/main.cpp:96-110 | after k iterations of `lpfInit`, the first k baselines are their bursts' means and the rest are unchanged |
| HarpSpec.Silence | src/main.cpp:52-54 | the remap emits, in sensor order, one note-off per sensor for the note it had before |
| HarpSpec.ScaleBlock | src/main.cpp:48-57 | the scale-change block always leaves the flag cleared, and the index is wrapped when the flag was set and untouched otherwise |
| HarpSpec.Drift | src/main.cpp:60-62 | the drift check changes only sensor i's baseline and `lpf`, and emits nothing |
| HarpSpec.Trigger | src/main.cpp:69-77 | the trigger check touches only sensor i |
| HarpSpec.Release | src/main.cpp:78-87 | the release check touches only sensor i |
| HarpSpec.SensorStep | src/main.cpp:59-87 | one sensor iteration stores the reading, touches only sensor i, and emits at most two events, all for sensor i |
| HarpSpec.Sweep | src/main.cpp:58-88 | the sensor loop never changes the scale, the flag, the notes or the velocities |
| HarpSpec.Poll | src/main.cpp:47-89 | one pass of `loop` clears the flag; after a scale change the index is wrapped, the notes are the new scale's, and the first eight events are the note-offs of the old notes; without one the index and notes are unchanged |
| HarpSpec.Setup | src/main.cpp:34-45 | after `setup`: scale 0, flag clear, notes of scale 0, every flag 0, velocity 100, every baseline its burst's mean |
| HarpSpec.ScaleEdge | src/main.cpp:91-94 | the handler raises the flag, advances `_scale` by one with `uint8_t` wrap-around (255 -> 0) and changes nothing else |
| HarpSpec.SetupEstablishesInv | src/main.cpp:34-45 | after `setup` the invariant holds for scale 0; every baseline is its burst's mean and nothing is sounding |
| HarpSpec.ScaleEdges | src/main.cpp:91-94 | button edges change only the scale counter and the flag |
| HarpSpec.ScaleEdgeKeepsInv | src/main.cpp:91-94 | the interrupt handler keeps the invariant |
| HarpSpec.ScaleEdgesCount | src/main.cpp:92-93 | k edges advance `_scale` by k modulo 256 and raise the flag |
| HarpSpec.BouncedButtonRemapsOnce | src/main.cpp:48-56 | however many edges arrive between polls, the next poll remaps once: one note-off per sensor, then the notes of the wrapped index |
| HarpSpec.WrapAsWrittenOverruns | src/main.cpp:50 | two edges from scale 1 leave the written wrap at index 3, past the end of the scale table, while WrapIndex gives 0 |
| HarpSpec.SilenceEffect | src/main.cpp:52-54 | the remap's note-offs silence every sensor they cover and keep every log alternating |
| HarpSpec.ScaleBlockKeepsInv | src/main.cpp:48-57 | flag clear: nothing changes and nothing is sent; flag set: it is cleared, the index wrapped, one note-off per old note sent, every flag cleared, nothing left sounding, and the invariant holds for the new scale |
| HarpSpec.TriggerStartsNote | src/main.cpp:69-71 | below baseline - 50 with no note sounding, the first event is the sensor's note-on; with a baseline of at least 50 it is the only event and the flag becomes 1 |
| HarpSpec.ReleaseStopsNote | src/main.cpp:78-81 | above the baseline with a note sounding, exactly one note-off is sent, the flag becomes 0 and the baseline is recalibrated from the release burst |
| HarpSpec.BandHoldsState | src/main.cpp:69-81 | inside [baseline - 50, baseline] nothing is emitted and neither the flag nor the baseline moves |
| HarpSpec.DriftRecalibrates | src/main.cpp:60-62 | a reading more than 200 above the baseline recalibrates before the other checks, and alone emits nothing |
| HarpSpec.DarkSensorChatters | src/main.cpp:69-80 | with a baseline below 50, the unsigned subtraction makes a reading above the baseline send a note-on and a note-off in the same pass |
| HarpSpec.DriftKeepsSensor | src/main.cpp:60-62 | the drift check keeps the sensor's invariant and the accumulator's range |
| HarpSpec.TriggerKeepsSensor | src/main.cpp:69-77 | the trigger check keeps the sensor's invariant: no note-on while sounding |
| HarpSpec.ReleaseKeepsSensor | src/main.cpp:78-87 | the release check keeps the sensor's invariant |
| HarpSpec.SensorStepKeepsSensor | src/main.cpp:59-87 | one sensor iteration keeps that sensor's invariant: flag in {0, 1}, flag set exactly when its last event is a note-on, log alternating |
| HarpSpec.SensorStepKeepsInv | src/main.cpp:58-88 | one sensor iteration keeps the whole invariant |
| HarpSpec.SweepKeepsInv | src/main.cpp:58-88 | the sensor loop keeps the invariant |
| HarpSpec.PollKeepsInv | src/main.cpp:47-89 | a pass of `loop` keeps the invariant and clears the flag; after a scale change its first eight events are the note-offs of the old notes |
| HarpSpec.BeamBreakAndRestore | src/main.cpp:60-87 | baseline 500: a reading of 440 starts the note, then a reading of 510 stops it and recalibrates |
| LaserHarpFirmware.PollSplits | src/main.cpp:47-89 | proof helper: a pass of `loop` is the scale-change block followed by the sensor loop |
| LaserHarpFirmware.SetupState | src/main.cpp:34-45 | proof helper: the state the constructor reaches is `Setup` and satisfies the invariant |
| LaserHarpFirmware.PressAndPoll | src/main.cpp:34-94 | `setup`, one button press and one pass of `loop` compose: the object stays valid, the active scale is 1, and state and events are those of `Poll` after `ScaleEdge` after `Setup` |
| LaserHarpFirmware.PlayAfterScaleChange | src/main.cpp:34-94 | `setup`, a button press and two passes of `loop` compose: the object stays valid, the flag is clear, the minor scale is loaded, and the first eight packets sent are the note-offs of the major scale |
| LaserHarpFirmware.LaserHarp.constructor | src/main.cpp:34-45 | `setup` yields the state `Setup(bursts)`, an empty log and a valid object whose arrays and MIDI wrapper are newly allocated, so callers may go on to `loop` |
| LaserHarpFirmware.LaserHarp.LoadFirstScale | src/main.cpp:38-43 | the setup loop gives every sensor its scale-0 note, flag 0 and velocity 100 |
| LaserHarpFirmware.LaserHarp.LpfCalc | src/main.cpp:112-125 | the 64-sample accumulation loop, shift and store do exactly `Recalibrate` |
| LaserHarpFirmware.LaserHarp.LpfInit | src/main.cpp:96-110 | the calibration loop does exactly `InitialBaselines` over all sensors |
| LaserHarpFirmware.LaserHarp.ChangeScale | src/main.cpp:91-94 | the handler does exactly `ScaleEdge`, sends nothing and keeps the object valid |
| LaserHarpFirmware.LaserHarp.ApplyScaleChange | src/main.cpp:48-57 | the scale-change block, with the corrected wrap of the Findings, does exactly `ScaleBlock`, logs its note-offs, and keeps the object valid for the new scale |
| LaserHarpFirmware.LaserHarp.RemapNotes | src/main.cpp:52-56 | the remap loop sends the note-offs `Silence` of the old notes, clears every flag and loads the new scale's notes |
| LaserHarpFirmware.LaserHarp.RemapSensor | src/main.cpp:53-55 | one remap iteration: a note-off for the old note, flag cleared, new note, other sensors untouched |
| LaserHarpFirmware.LaserHarp.DriftCheck | src/main.cpp:60-62 | the drift check does exactly `Drift` |
| LaserHarpFirmware.LaserHarp.TriggerCheck | src/main.cpp:69-77 | the trigger check does exactly `Trigger`, and the packet sent is that of the logged note-on |
| LaserHarpFirmware.LaserHarp.ReleaseCheck | src/main.cpp:78-87 | the release check does exactly `Release`, and the packet sent is that of the logged note-off |
| LaserHarpFirmware.LaserHarp.Evaluate | src/main.cpp:59-87 | one iteration of the sensor loop does exactly `SensorStep` |
| LaserHarpFirmware.LaserHarp.SenseAll | src/main.cpp:58-88 | the sensor loop does exactly `Sweep` over all eight sensors |
| LaserHarpFirmware.LaserHarp.Sense | src/main.cpp:58-88 | the sensor loop keeps the object valid |
| LaserHarpFirmware.LaserHarp.Loop | src/main.cpp:47-89 | a pass of `loop` does exactly `Poll`, logs its events in order, and keeps the object valid for the scale now active |

## Left out

- `Serial` debug output under `DEBUG_ALL` and `DEBUG_INFO`: it only observes the state.
- `pinMode`, `attachInterrupt` and `Serial.begin` in `setup`: hardware configuration with no effect on the modelled state.
- `analogRead` is not modelled as a device. Readings and 64-sample bursts are parameters, each in 0..1023. A burst is consumed only if its branch runs.
- Interrupt concurrency and the `volatile` atomicity of `_scale` and `scaleChanged` are not modelled. `changeScale` is a method called between passes of `loop`, so an edge that arrives during a pass is not modelled.
- `MidiUSB.sendMIDI` delivery is not modelled. The transport is the `sent` log of the wrapper object.
- The 16-bit `int` of the AVR target is assumed. With a 32-bit `int`, `ldrAvr[i] - botThreshold` would go negative instead of wrapping, and `DarkSensorChatters` would not hold.
- Midi.Status: for a channel of 16 or more, the contract states only that the low nibble no longer equals the channel, not the corrupted byte. The one concrete case is shown by `UnmaskedChannelCorruptsStatus`.
- NoteEvents.Uint8: states the value only for arguments in 0..255. The firmware passes only notes 60..72 and velocity 100.
- HarpSpec.ScaleBlock: its own contract states only the flag and the index. The events and the new notes are stated by `ScaleBlockKeepsInv` and `BouncedButtonRemapsOnce`.
- The aftertouch, control-change and pitch-bend senders are modelled, but the firmware never calls them.

## Findings

| source | as written | input that shows it | evidently intended | confidence | as-written member | corrected member |
|---|---|---|---|---|---|---|
| src/main.cpp:50 | `if(_scale == scaleCount) _scale = 0;` wraps only an index exactly equal to the scale count | the scale button bounces twice between two polls while scale 1 is active, so `_scale` goes 1 -> 3; line 55 then reads `scale[3][i]`, past the end of the two-row table | every index that has reached `scaleCount` wraps to 0 (`>=`), so one remap per poll always lands on a valid scale | not executed | HarpSpec.WrapAsWrittenOverruns | HarpSpec.WrapIndex |
