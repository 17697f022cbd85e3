/** The firmware itself: its globals as the fields of one object, `setup` as the
    constructor, and `loop`, `changeScale`, `lpfInit` and `lpfCalc` as methods
    that update the arrays in place. Every method is proved to do to State()
    what the corresponding HarpSpec function says, and to keep Valid(), which
    ties the object to HarpSpec.Inv and the packets sent to the event log.
 */
module LaserHarpFirmware {
  import opened Bits
  import opened Midi
  import opened LowPassFilter
  import opened NoteEvents
  import opened HarpSpec

  /** A pass of `loop` is the scale-change block followed by the sensor loop. */
  lemma PollSplits(s: HarpState, log: seq<Event>, readings: seq<Sample>, d: seq<seq<Sample>>,
                   r: seq<seq<Sample>>)
    requires Sized(s) && 0 <= s.scaleIndex && PollInputs(readings, d, r)
    ensures var b := ScaleBlock(s);
            var w := Sweep(b.state, LaserCount, readings, d, r);
            Poll(s, readings, d, r).state == w.state &&
            log + Poll(s, readings, d, r).events == log + b.events + w.events
  {
    var b := ScaleBlock(s);
    Regroup(log, b.events, Sweep(b.state, LaserCount, readings, d, r).events);
  }

  lemma SilenceSnoc(notes: seq<int>, i: nat)
    requires i < |notes|
    ensures Silence(notes[..i + 1]) == Silence(notes[..i]) + [NoteOffEvent(i, notes[i])]
  {
    assert notes[..i + 1][..i] == notes[..i];
  }

  lemma SetupState(bursts: seq<seq<Sample>>, s0: HarpState, s: HarpState)
    requires SetupInputs(bursts)
    requires s0 == HarpState(0, false, ScaleNotes(0), Constant(DefaultVelocity), Constant(0),
                                Constant(0), Constant(0), 0)
    requires s == InitialBaselines(s0, bursts, LaserCount)
    ensures s == Setup(bursts) && Inv(s, 0, [])
  {
    SetupEstablishesInv(bursts);
  }
  class LaserHarp {
    /** `_scale`: the scale counter the interrupt advances. */
    var scaleIndex: int
    /** `scaleChanged`: raised by the interrupt, cleared by the next poll. */
    var scaleChanged: bool
    const notes: array<int>
    const velocity: array<int>
    const noteOn: array<int>
    const ldrNow: array<int>
    const ldrAvr: array<int>
    /** `lpf`: the 32-bit accumulator of `lpfCalc`. */
    var lpf: int
    const midi: SonarMidiUsb

    /** The note events emitted so far, one per packet sent. */
    ghost var events: seq<Event>
    /** The scale the current notes were derived from. */
    ghost var activeScale: nat

    /** The per-sensor arrays have the sensor count and are distinct objects. */
    ghost predicate Shaped()
    {
      SensorArrays(notes, velocity, noteOn, ldrNow, ldrAvr)
    }

    ghost function State(): HarpState
      reads this, notes, velocity, noteOn, ldrNow, ldrAvr
    {
      HarpState(scaleIndex, scaleChanged, notes[..], velocity[..], noteOn[..], ldrNow[..], ldrAvr[..], lpf)
    }

    /** The packets handed to the transport are those of the event log. */
    ghost predicate Linked()
      reads this, midi
    {
      Shaped() && midi.sent == Packets(events)
    }

    ghost predicate Valid()
      reads this, notes, velocity, noteOn, ldrNow, ldrAvr, midi
    {
      Linked() && Inv(State(), activeScale, events)
    }

    /** `setup`: globals zero-initialised, notes from scale 0, flags cleared, velocity 100,
        then `lpfInit` with one burst per sensor. */
    constructor (bursts: seq<seq<Sample>>)
      requires SetupInputs(bursts)
      ensures Valid() && fresh(midi)
      ensures fresh(notes) && fresh(velocity) && fresh(noteOn) && fresh(ldrNow) && fresh(ldrAvr)
      ensures State() == Setup(bursts) && events == [] && activeScale == 0
    {
      scaleIndex := 0;
      scaleChanged := false;
      notes := new int[LaserCount](_ => 0);
      velocity := new int[LaserCount](_ => 0);
      noteOn := new int[LaserCount](_ => 0);
      ldrNow := new int[LaserCount](_ => 0);
      ldrAvr := new int[LaserCount](_ => 0);
      lpf := 0;
      midi := new SonarMidiUsb();
      events := [];
      activeScale := 0;
      new;
      LoadFirstScale();
      ghost var s0 := HarpState(0, false, ScaleNotes(0), Constant(DefaultVelocity), Constant(0),
                                Constant(0), Constant(0), 0);
      assert ldrNow[..] == Constant(0) && ldrAvr[..] == Constant(0);
      assert State() == s0;
      LpfInit(bursts);
      ghost var s := State();
      SetupState(bursts, s0, s);
      assert Linked();
      assert Inv(s, activeScale, events);
    }

    /** The loop of `setup`: every sensor gets its note from the current scale, is marked
        silent and gets the default velocity. */
    method LoadFirstScale()
      requires Shaped() && scaleIndex == 0
      modifies notes, noteOn, velocity
      ensures notes[..] == ScaleNotes(0)
      ensures noteOn[..] == Constant(0) && velocity[..] == Constant(DefaultVelocity)
    {
      for i := 0 to LaserCount
        invariant forall j :: 0 <= j < i ==>
                    notes[j] == NoteFor(0, j) && noteOn[j] == 0 && velocity[j] == DefaultVelocity
      {
        notes[i] := BaseNote + ScaleTable[scaleIndex][i];
        noteOn[i] := 0;
        velocity[i] := DefaultVelocity;
      }
      assert notes[..] == ScaleNotes(0);
      assert noteOn[..] == Constant(0) && velocity[..] == Constant(DefaultVelocity);
    }

    /** `lpfCalc(LDR)`: sum a burst into the 32-bit accumulator, shift it right by
        `lpfDiv` and store it as the sensor's 16-bit baseline. */
    method LpfCalc(sensor: nat, burst: seq<Sample>)
      requires Shaped() && sensor < LaserCount && |burst| == LpfCount
      modifies this`lpf, ldrAvr
      ensures State() == Recalibrate(old(State()), sensor, burst)
    {
      lpf := 0;
      for k := 0 to LpfCount
        invariant lpf == Sum(burst[..k])
        modifies this`lpf
      {
        AccumulatorFits(burst, k + 1);
        assert burst[..k + 1][..k] == burst[..k];
        lpf := (lpf + burst[k]) % U32Limit;
      }
      assert burst[..LpfCount] == burst;
      lpf := lpf / Pow2(LpfDiv);
      assert lpf == Baseline(burst);
      ldrAvr[sensor] := lpf % U16Limit;
      assert ldrAvr[..] == old(ldrAvr[..])[sensor := lpf];
    }

    /** `lpfInit`: one `lpfCalc` per sensor, in order. */
    method LpfInit(bursts: seq<seq<Sample>>)
      requires Shaped() && SetupInputs(bursts)
      modifies this`lpf, ldrAvr
      ensures State() == InitialBaselines(old(State()), bursts, LaserCount)
    {
      for i := 0 to LaserCount
        invariant State() == InitialBaselines(old(State()), bursts, i)
      {
        LpfCalc(i, bursts[i]);
      }
    }

    /** `changeScale`, the interrupt handler: `_scale++` on a `uint8_t`, raise the flag. */
    method ChangeScale()
      requires Valid()
      modifies this
      ensures Valid() && State() == ScaleEdge(old(State()))
      ensures events == old(events) && activeScale == old(activeScale)
    {
      scaleIndex := (scaleIndex + 1) % ByteLimit;
      scaleChanged := true;
      ScaleEdgeKeepsInv(old(State()), activeScale, events);
    }

    /** The scale-change block at the top of `loop` (lines 48-57): with the flag raised,
        clear it, wrap the index and remap the notes. */
    method ApplyScaleChange()
      requires Valid()
      modifies this, notes, noteOn, midi
      ensures Valid()
      ensures var o := ScaleBlock(old(State())); State() == o.state && events == old(events) + o.events
      ensures activeScale == if old(scaleChanged) then WrapIndex(old(scaleIndex)) else old(activeScale)
    {
      ghost var s0, log0 := State(), events;
      ScaleBlockKeepsInv(s0, activeScale, log0);
      if scaleChanged {
        scaleChanged := false;
        if scaleIndex >= ScaleCount {
          scaleIndex := 0;
        }
        RemapNotes();
        activeScale := scaleIndex;
        assert State() == ScaleBlock(s0).state;
      } else {
        assert events == log0 + [];
      }
    }

    /** Lines 51-56: for every sensor in turn, RemapSensor. */
    method RemapNotes()
      requires Linked() && 0 <= scaleIndex < ScaleCount
      modifies this`events, notes, noteOn, midi
      ensures Linked()
      ensures notes[..] == ScaleNotes(scaleIndex) && noteOn[..] == Constant(0)
      ensures events == old(events) + Silence(old(notes[..]))
    {
      ghost var notes0, log0 := notes[..], events;
      for i := 0 to LaserCount
        invariant forall j :: 0 <= j < i ==> noteOn[j] == 0 && notes[j] == NoteFor(scaleIndex, j)
        invariant forall j :: i <= j < LaserCount ==> notes[j] == notes0[j]
        invariant events == log0 + Silence(notes0[..i]) && Linked()
      {
        SilenceSnoc(notes0, i);
        Regroup(log0, Silence(notes0[..i]), [NoteOffEvent(i, notes0[i])]);
        RemapSensor(i);
      }
      assert notes0[..LaserCount] == notes0;
      assert notes[..] == ScaleNotes(scaleIndex);
      assert noteOn[..] == Constant(0);
    }

    /** Lines 52-54, the body of the remap loop: a note-off for sensor `i`'s current
        note, its flag cleared and its note taken from the scale `scaleIndex`. */
    method RemapSensor(i: nat)
      requires Linked() && i < LaserCount && 0 <= scaleIndex < ScaleCount
      modifies this`events, notes, noteOn, midi
      ensures Linked() && events == old(events) + [NoteOffEvent(i, old(notes[i]))]
      ensures notes[i] == NoteFor(scaleIndex, i) && noteOn[i] == 0
      ensures forall j :: 0 <= j < LaserCount && j != i ==> notes[j] == old(notes[j]) && noteOn[j] == old(noteOn[j])
    {
      midi.SendNoteOff(Uint8(notes[i]));
      PacketsAppend(events, NoteOffEvent(i, notes[i]));
      events := events + [NoteOffEvent(i, notes[i])];
      noteOn[i] := 0;
      notes[i] := ScaleTable[scaleIndex][i] + BaseNote;
    }

    /** Lines 60-62: a reading far above the baseline re-runs `lpfCalc`. */
    method DriftCheck(i: nat, reading: Sample, burst: seq<Sample>)
      requires Shaped() && i < LaserCount && |burst| == LpfCount
      modifies this`lpf, ldrAvr
      ensures State() == Drift(old(State()), i, reading, burst)
    {
      if reading > U16(ldrAvr[i] + TopThreshold) {
        LpfCalc(i, burst);
      }
    }

    /** Lines 69-77: a reading below the baseline minus the margin, with no note sounding,
        sends the note-on and sets the flag. */
    method TriggerCheck(i: nat, reading: Sample)
      requires Linked() && i < LaserCount
      modifies this`events, noteOn, midi
      ensures Linked()
      ensures var o := Trigger(old(State()), i, reading); State() == o.state && events == old(events) + o.events
    {
      if reading < U16(ldrAvr[i] - BotThreshold) && noteOn[i] == 0 {
        midi.SendNoteOn(Uint8(notes[i]), Uint8(velocity[i]));
        PacketsAppend(events, NoteOnEvent(i, notes[i], velocity[i]));
        events := events + [NoteOnEvent(i, notes[i], velocity[i])];
        noteOn[i] := 1;
      } else {
        assert events == events + [];
      }
    }

    /** Lines 78-87: a reading back above the baseline, with the note sounding, sends the
        note-off, clears the flag and re-runs `lpfCalc`. */
    method ReleaseCheck(i: nat, reading: Sample, burst: seq<Sample>)
      requires Linked() && i < LaserCount && |burst| == LpfCount
      modifies this`events, this`lpf, noteOn, ldrAvr, midi
      ensures Linked()
      ensures var o := Release(old(State()), i, reading, burst); State() == o.state && events == old(events) + o.events
    {
      if reading > ldrAvr[i] && noteOn[i] == 1 {
        midi.SendNoteOff(Uint8(notes[i]));
        PacketsAppend(events, NoteOffEvent(i, notes[i]));
        events := events + [NoteOffEvent(i, notes[i])];
        noteOn[i] := 0;
        LpfCalc(i, burst);
      } else {
        assert events == events + [];
      }
    }

    /** One iteration of `loop`'s sensor loop for sensor `i`: store the reading, then the
        drift, trigger and release checks in order. */
    method Evaluate(i: nat, reading: Sample, driftBurst: seq<Sample>, releaseBurst: seq<Sample>)
      requires Linked() && i < LaserCount && |driftBurst| == |releaseBurst| == LpfCount
      modifies this`events, this`lpf, ldrNow, ldrAvr, noteOn, midi
      ensures Linked()
      ensures var o := SensorStep(old(State()), i, reading, driftBurst, releaseBurst);
              State() == o.state && events == old(events) + o.events
    {
      ghost var s0, log0 := State(), events;
      ldrNow[i] := reading;
      assert State() == s0.(ldrNow := s0.ldrNow[i := reading]);
      DriftCheck(i, reading, driftBurst);
      ghost var s1 := State();
      TriggerCheck(i, reading);
      ghost var t := Trigger(s1, i, reading);
      ReleaseCheck(i, reading, releaseBurst);
      ghost var rl := Release(t.state, i, reading, releaseBurst);
      assert events == log0 + t.events + rl.events;
      assert log0 + t.events + rl.events == log0 + (t.events + rl.events);
    }

    /** `loop`: the scale-change block, then every sensor with its reading and the
        bursts `lpfCalc` would read for it. */
    method Loop(readings: seq<Sample>, driftBursts: seq<seq<Sample>>, releaseBursts: seq<seq<Sample>>)
      requires Valid() && PollInputs(readings, driftBursts, releaseBursts)
      modifies this, notes, noteOn, ldrNow, ldrAvr, midi
      ensures Valid()
      ensures var o := Poll(old(State()), readings, driftBursts, releaseBursts);
              State() == o.state && events == old(events) + o.events
      ensures activeScale == if old(scaleChanged) then WrapIndex(old(scaleIndex)) else old(activeScale)
    {
      PollSplits(State(), events, readings, driftBursts, releaseBursts);
      ApplyScaleChange();
      Sense(readings, driftBursts, releaseBursts);
    }

    /** Lines 58-88, the sensor loop of `loop`, keeping the invariant. */
    method Sense(readings: seq<Sample>, driftBursts: seq<seq<Sample>>, releaseBursts: seq<seq<Sample>>)
      requires Valid() && PollInputs(readings, driftBursts, releaseBursts)
      modifies this`events, this`lpf, ldrNow, ldrAvr, noteOn, midi
      ensures Valid()
      ensures var w := Sweep(old(State()), LaserCount, readings, driftBursts, releaseBursts);
              State() == w.state && events == old(events) + w.events
    {
      SweepKeepsInv(State(), activeScale, events, LaserCount, readings, driftBursts, releaseBursts);
      SenseAll(readings, driftBursts, releaseBursts);
    }

    /** Lines 58-88, the sensor loop of `loop`: Evaluate for every sensor in order. */
    method SenseAll(readings: seq<Sample>, driftBursts: seq<seq<Sample>>, releaseBursts: seq<seq<Sample>>)
      requires Linked() && PollInputs(readings, driftBursts, releaseBursts)
      modifies this`events, this`lpf, ldrNow, ldrAvr, noteOn, midi
      ensures Linked()
      ensures var w := Sweep(old(State()), LaserCount, readings, driftBursts, releaseBursts);
              State() == w.state && events == old(events) + w.events
    {
      ghost var s1, log1 := State(), events;
      for i := 0 to LaserCount
        invariant Linked()
        invariant var w := Sweep(s1, i, readings, driftBursts, releaseBursts);
                  State() == w.state && events == log1 + w.events
      {
        ghost var w := Sweep(s1, i, readings, driftBursts, releaseBursts);
        Evaluate(i, readings[i], driftBursts[i], releaseBursts[i]);
        ghost var t := SensorStep(w.state, i, readings[i], driftBursts[i], releaseBursts[i]);
        Regroup(log1, w.events, t.events);
      }
    }
  }

  /** Start-up, one press of the scale button, then one pass of `loop`. */
  method PressAndPoll(bursts: seq<seq<Sample>>, readings: seq<Sample>, d: seq<seq<Sample>>,
                      r: seq<seq<Sample>>) returns (h: LaserHarp)
    requires SetupInputs(bursts) && PollInputs(readings, d, r)
    ensures fresh(h) && fresh(h.midi) && fresh(h.notes) && fresh(h.velocity) && fresh(h.noteOn)
    ensures fresh(h.ldrNow) && fresh(h.ldrAvr)
    ensures h.Valid() && h.activeScale == 1
    ensures var o := Poll(ScaleEdge(Setup(bursts)), readings, d, r); h.State() == o.state && h.events == o.events
  {
    h := new LaserHarp(bursts);
    h.ChangeScale();
    h.Loop(readings, d, r);
  }

  /** Start-up, one press of the scale button, then two passes of `loop`: the calls
      compose, the first pass silences every note of the major scale before anything
      else is sent, and from then on the harp plays the minor scale. */
  method PlayAfterScaleChange(bursts: seq<seq<Sample>>,
                              readings1: seq<Sample>, d1: seq<seq<Sample>>, r1: seq<seq<Sample>>,
                              readings2: seq<Sample>, d2: seq<seq<Sample>>, r2: seq<seq<Sample>>)
    returns (h: LaserHarp)
    requires SetupInputs(bursts) && PollInputs(readings1, d1, r1) && PollInputs(readings2, d2, r2)
    ensures h.Valid() && !h.scaleChanged && h.scaleIndex == 1 && h.notes[..] == ScaleNotes(1)
    ensures |h.events| >= LaserCount && h.events[..LaserCount] == Silence(ScaleNotes(0))
  {
    h := PressAndPoll(bursts, readings1, d1, r1);
    ghost var log1 := h.events;
    h.Loop(readings2, d2, r2);
    assert h.events[..LaserCount] == log1[..LaserCount];
  }
}
