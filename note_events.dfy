/** The note events the firmware emits, the packets they become, and the
    per-sensor on/off discipline of the event log.
 */
module NoteEvents {
  import opened Midi

  /** One call of `sendNoteOn`/`sendNoteOff` made for sensor `sensor`.
      The sensor index is bookkeeping for the proofs: the packet does not carry it. */
  datatype Event =
    | NoteOnEvent(sensor: nat, note: int, velocity: int)
    | NoteOffEvent(sensor: nat, note: int)

  /** The `byte` parameter conversion of a C++ integer argument. */
  function Uint8(x: int): (b: Byte)
    ensures 0 <= x < 0x100 ==> b == x
  {
    x % 0x100
  }

  /** The packet `midi.sendNoteOn(note, velocity)` or `midi.sendNoteOff(note)` hands
      to the transport: channel 0, and velocity 0 for a note-off. */
  function EventPacket(e: Event): (p: Packet)
    ensures Framed(p) && Channel(p) == 0 && p.byte2 == Uint8(e.note)
    ensures e.NoteOnEvent? ==> p.header == CinNoteOn && p.byte3 == Uint8(e.velocity)
    ensures e.NoteOffEvent? ==> p.header == CinNoteOff && p.byte3 == 0
  {
    match e
    case NoteOnEvent(_, n, v) => NoteOnPacket(Uint8(n), Uint8(v), 0)
    case NoteOffEvent(_, n) => NoteOffPacket(Uint8(n), 0, 0)
  }

  /** A receiver reads back the note and velocity of every event whose values are MIDI data. */
  lemma EventPacketDecodes(e: Event)
    requires 0 <= e.note < 0x80
    requires e.NoteOnEvent? ==> 0 <= e.velocity < 0x80
    ensures e.NoteOnEvent? ==>
              Decode(EventPacket(e)) == Some(NoteOn(0, e.note, e.velocity))
    ensures e.NoteOffEvent? ==> Decode(EventPacket(e)) == Some(NoteOff(0, e.note, 0))
  {
    match e
    case NoteOnEvent(_, n, v) =>
      EncodeDecode(NoteOn(0, n, v));
    case NoteOffEvent(_, n) =>
      EncodeDecode(NoteOff(0, n, 0));
  }

  /** The packets sent for a log of events, in order. */
  function Packets(log: seq<Event>): (ps: seq<Packet>)
    ensures |ps| == |log|
    ensures forall k :: 0 <= k < |log| ==> ps[k] == EventPacket(log[k])
  {
    if log == [] then [] else Packets(log[..|log| - 1]) + [EventPacket(log[|log| - 1])]
  }

  lemma PacketsAppend(log: seq<Event>, e: Event)
    ensures Packets(log + [e]) == Packets(log) + [EventPacket(e)]
  {
    assert (log + [e])[..|log|] == log;
  }

  /** Regrouping a log built in three pieces. */
  lemma Regroup(a: seq<Event>, b: seq<Event>, c: seq<Event>)
    ensures a + b + c == a + (b + c)
  {
  }

  predicate IsOnFor(e: Event, i: nat)
  {
    e.NoteOnEvent? && e.sensor == i
  }

  predicate IsOffFor(e: Event, i: nat)
  {
    e.NoteOffEvent? && e.sensor == i
  }

  /** Sensor `i` is sounding after `log`: its last event, if any, is a note-on. */
  function Sounding(log: seq<Event>, i: nat): bool
  {
    if log == [] then false
    else if IsOnFor(log[|log| - 1], i) then true
    else if IsOffFor(log[|log| - 1], i) then false
    else Sounding(log[..|log| - 1], i)
  }

  /** No note-on for sensor `i` is emitted while `i` is already sounding. */
  predicate Alternating(log: seq<Event>, i: nat)
  {
    log == [] ||
    (Alternating(log[..|log| - 1], i) &&
     (IsOnFor(log[|log| - 1], i) ==> !Sounding(log[..|log| - 1], i)))
  }

  /** Appending one event: how it moves sensor `i`'s state and discipline. */
  lemma Snoc(log: seq<Event>, e: Event, i: nat)
    ensures Sounding(log + [e], i) ==
              if IsOnFor(e, i) then true else if IsOffFor(e, i) then false else Sounding(log, i)
    ensures Alternating(log + [e], i) == (Alternating(log, i) && (IsOnFor(e, i) ==> !Sounding(log, i)))
  {
    assert (log + [e])[..|log|] == log;
  }

  /** Events of other sensors change neither the state nor the discipline of sensor `i`. */
  lemma {:induction false} AppendOthers(log: seq<Event>, es: seq<Event>, i: nat)
    requires forall k :: 0 <= k < |es| ==> es[k].sensor != i
    ensures Sounding(log + es, i) == Sounding(log, i)
    ensures Alternating(log + es, i) == Alternating(log, i)
  {
    if es != [] {
      var init := es[..|es| - 1];
      AppendOthers(log, init, i);
      assert log + es == (log + init) + [es[|es| - 1]];
      Snoc(log + init, es[|es| - 1], i);
    } else {
      assert log + es == log;
    }
  }

  /** A note-on for `i` with no later note-off for `i` leaves `i` sounding. */
  lemma {:induction false} OnWithoutOffSounds(log: seq<Event>, i: nat, j: nat)
    requires j < |log| && IsOnFor(log[j], i)
    requires forall m :: j < m < |log| ==> !IsOffFor(log[m], i)
    ensures Sounding(log, i)
  {
    if j < |log| - 1 && !IsOnFor(log[|log| - 1], i) {
      OnWithoutOffSounds(log[..|log| - 1], i, j);
    }
  }

  /** Between any two note-ons of sensor `i` in an alternating log lies a note-off of `i`. */
  lemma {:induction false} AlternatingOffBetween(log: seq<Event>, i: nat, j: nat, k: nat)
    requires Alternating(log, i)
    requires j < k < |log| && IsOnFor(log[j], i) && IsOnFor(log[k], i)
    ensures exists m :: j < m < k && IsOffFor(log[m], i)
  {
    var init := log[..|log| - 1];
    if k < |log| - 1 {
      AlternatingOffBetween(init, i, j, k);
      var m :| j < m < k && IsOffFor(init[m], i);
      assert log[m] == init[m];
    } else if forall m :: j < m < k ==> !IsOffFor(log[m], i) {
      OnWithoutOffSounds(init, i, j);
      assert false;
    }
  }
}
