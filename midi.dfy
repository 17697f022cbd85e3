/** USB-MIDI event packets as built by the SonarMIDIUSB wrapper.

    A packet is the four-byte record of section 4 of the USB Device Class
    Definition for MIDI Devices 1.0: byte 0 holds the cable number (high
    nibble) and the Code Index Number (low nibble); bytes 1..3 are the MIDI 1.0
    message, here always a channel-voice message whose status byte is
    kind nibble | channel.
 */
module Midi {
  import opened Bits

  datatype Option<T> = None | Some(value: T)

  /** The C++ `byte`/`uint8_t`. */
  type Byte = x: int | 0 <= x < 0x100

  /** `midiEventPacket_t`: header (cable/CIN), then the three MIDI bytes. */
  datatype Packet = Packet(header: Byte, byte1: Byte, byte2: Byte, byte3: Byte)

  /** The C++ `int` of the 8-bit AVR target that takes the pitch-bend value. */
  newtype Int16 = x: int | -0x8000 <= x < 0x8000

  // Code Index Numbers used by the wrapper (USB MIDI 1.0, section 4, table 4-1)
  const CinNoteOff: Byte := 0x08
  const CinNoteOn: Byte := 0x09
  const CinPolyKeyPress: Byte := 0x0A
  const CinControlChange: Byte := 0x0B
  const CinPitchBend: Byte := 0x0E

  function Cable(p: Packet): Byte { p.header / 16 }
  function Cin(p: Packet): Byte { p.header % 16 }
  function StatusKind(p: Packet): Byte { p.byte1 / 16 }
  function Channel(p: Packet): Byte { p.byte1 % 16 }

  /** Cable 0, and the status byte's kind nibble repeats the Code Index Number. */
  predicate Framed(p: Packet)
  {
    Cable(p) == 0 && StatusKind(p) == Cin(p)
  }

  /** Both data bytes are MIDI data bytes (top bit clear). */
  predicate DataBytes(p: Packet)
  {
    p.byte2 < 0x80 && p.byte3 < 0x80
  }

  /** Status byte `0xK0 | channel` without masking the channel, as the wrapper writes it. */
  function Status(kind: Byte, channel: Byte): (b: Byte)
    requires kind < 16
    ensures b % 16 == channel <==> channel < 16
    ensures channel < 16 ==> b == 16 * kind + channel && b / 16 == kind
  {
    StatusBits(kind, channel);
    BitOr(16 * kind, channel)
  }

  /** A kind nibble ORed with a byte stays a byte, and with a 4-bit channel it is a sum. */
  lemma StatusBits(kind: Byte, channel: Byte)
    requires kind < 16
    ensures var b := BitOr(16 * kind, channel);
            b < 0x100 && (b % 16 == channel <==> channel < 16) &&
            (channel < 16 ==> b == 16 * kind + channel && b / 16 == kind)
  {
    assert Pow2(8) == 0x100 && Pow2(4) == 16 by {
      assert Pow2(4) == 16;
    }
    BitOrBound(16 * kind, channel, 8);
    if channel < 16 {
      BitOrDisjoint(kind, channel, 4);
      var b := 16 * kind + channel;
      assert b / 16 == kind && b % 16 == channel;
    }
  }

  function NoteOnPacket(note: Byte, velocity: Byte, channel: Byte): (p: Packet)
    ensures p.header == CinNoteOn && Cable(p) == 0
    ensures Channel(p) == channel <==> channel < 16
    ensures channel < 16 ==> Framed(p)
    ensures p.byte2 == note && p.byte3 == velocity
  {
    Packet(CinNoteOn, Status(0x9, channel), note, velocity)
  }

  function NoteOffPacket(note: Byte, velocity: Byte, channel: Byte): (p: Packet)
    ensures p.header == CinNoteOff && Cable(p) == 0
    ensures Channel(p) == channel <==> channel < 16
    ensures channel < 16 ==> Framed(p)
    ensures p.byte2 == note && p.byte3 == velocity
  {
    Packet(CinNoteOff, Status(0x8, channel), note, velocity)
  }

  function AfterTouchPacket(note: Byte, pressure: Byte, channel: Byte): (p: Packet)
    ensures p.header == CinPolyKeyPress && Cable(p) == 0
    ensures Channel(p) == channel <==> channel < 16
    ensures channel < 16 ==> Framed(p)
    ensures p.byte2 == note && p.byte3 == pressure
  {
    Packet(CinPolyKeyPress, Status(0xA, channel), note, pressure)
  }

  function ControlChangePacket(control: Byte, value: Byte, channel: Byte): (p: Packet)
    ensures p.header == CinControlChange && Cable(p) == 0
    ensures Channel(p) == channel <==> channel < 16
    ensures channel < 16 ==> Framed(p)
    ensures p.byte2 == control && p.byte3 == value
  {
    Packet(CinControlChange, Status(0xB, channel), control, value)
  }

  /** `uint8_t(value & 0x7F)`: on a two's-complement int this is value mod 128. */
  function BendLsb(value: Int16): (b: Byte)
    ensures b < 0x80 && (value as int - b) % 0x80 == 0
  {
    (value as int) % 0x80
  }

  /** `uint8_t(value >> 7)`: arithmetic shift (floor division), then truncation to 8 bits. */
  function BendMsb(value: Int16): (b: Byte)
    ensures BendLsb(value) + 0x80 * b == (value as int) % 0x8000
  {
    ((value as int) / 0x80) % 0x100
  }

  function PitchBendPacket(value: Int16, channel: Byte): (p: Packet)
    ensures p.header == CinPitchBend && Cable(p) == 0
    ensures Channel(p) == channel <==> channel < 16
    ensures channel < 16 ==> Framed(p)
    ensures p.byte2 + 0x80 * p.byte3 == (value as int) % 0x8000
    ensures 0 <= value < 0x4000 ==> DataBytes(p) && p.byte2 + 0x80 * p.byte3 == value as int
    ensures 0x4000 <= value ==> !DataBytes(p)
  {
    Packet(CinPitchBend, Status(0xE, channel), BendLsb(value), BendMsb(value))
  }

  /** The channel-voice messages the wrapper can send, at the MIDI level. */
  datatype Message =
    | NoteOff(channel: Byte, key: Byte, velocity: Byte)
    | NoteOn(channel: Byte, key: Byte, velocity: Byte)
    | AfterTouch(channel: Byte, key: Byte, pressure: Byte)
    | ControlChange(channel: Byte, control: Byte, value: Byte)
    | PitchBend(channel: Byte, bend: int)

  /** A message MIDI 1.0 can carry: 4-bit channel, 7-bit data, 14-bit bend. */
  predicate ValidMessage(m: Message)
  {
    m.channel < 16 &&
    match m
    case NoteOff(_, k, v) => k < 0x80 && v < 0x80
    case NoteOn(_, k, v) => k < 0x80 && v < 0x80
    case AfterTouch(_, k, v) => k < 0x80 && v < 0x80
    case ControlChange(_, c, v) => c < 0x80 && v < 0x80
    case PitchBend(_, b) => 0 <= b < 0x4000
  }

  /** The packet the corresponding send method builds. */
  function Encode(m: Message): Packet
    requires ValidMessage(m)
  {
    match m
    case NoteOff(c, k, v) => NoteOffPacket(k, v, c)
    case NoteOn(c, k, v) => NoteOnPacket(k, v, c)
    case AfterTouch(c, k, v) => AfterTouchPacket(k, v, c)
    case ControlChange(c, k, v) => ControlChangePacket(k, v, c)
    case PitchBend(c, b) => PitchBendPacket(b as Int16, c)
  }

  /** What a USB-MIDI receiver reads out of a packet (reference decoder). */
  function Decode(p: Packet): Option<Message>
  {
    if !Framed(p) || !DataBytes(p) then None
    else if Cin(p) == CinNoteOff then Some(NoteOff(Channel(p), p.byte2, p.byte3))
    else if Cin(p) == CinNoteOn then Some(NoteOn(Channel(p), p.byte2, p.byte3))
    else if Cin(p) == CinPolyKeyPress then Some(AfterTouch(Channel(p), p.byte2, p.byte3))
    else if Cin(p) == CinControlChange then Some(ControlChange(Channel(p), p.byte2, p.byte3))
    else if Cin(p) == CinPitchBend then Some(PitchBend(Channel(p), p.byte2 + 0x80 * p.byte3))
    else None
  }

  /** Every valid message survives encoding and decoding. */
  lemma EncodeDecode(m: Message)
    requires ValidMessage(m)
    ensures Decode(Encode(m)) == Some(m)
  {
  }

  /** Every packet the receiver accepts is exactly the one built for its message. */
  lemma DecodeEncode(p: Packet, m: Message)
    requires Decode(p) == Some(m)
    ensures ValidMessage(m) && Encode(m) == p
  {
    assert p.header == Cin(p) && p.byte1 == 16 * Cin(p) + Channel(p);
  }

  /** An unmasked channel of 0x20 turns a note-on into a control change. */
  lemma UnmaskedChannelCorruptsStatus(note: Byte, velocity: Byte)
    requires note < 0x80 && velocity < 0x80
    ensures Decode(NoteOnPacket(note, velocity, 0x20)) == None
    ensures NoteOnPacket(note, velocity, 0x20).byte1 == 0xB0
  {
    assert BitOr(0x04, 0x01) == 0x05;
    assert BitOr(0x09, 0x02) == 0x0B;
    assert BitOr(0x12, 0x04) == 0x16;
    assert BitOr(0x24, 0x08) == 0x2C;
    assert BitOr(0x48, 0x10) == 0x58;
    assert BitOr(0x90, 0x20) == 0xB0;
  }

  /** The `SonarMIDIUSB` object; `sent` is what the USB transport has been handed. */
  class SonarMidiUsb {
    var midiEvent: Packet
    var sent: seq<Packet>

    constructor ()
      ensures midiEvent == Packet(0, 0, 0, 0) && sent == []
    {
      midiEvent := Packet(0, 0, 0, 0);
      sent := [];
    }

    method SendNoteOn(note: Byte, velocity: Byte := 100, channel: Byte := 0)
      modifies this
      ensures midiEvent == NoteOnPacket(note, velocity, channel)
      ensures sent == old(sent) + [midiEvent]
    {
      midiEvent := NoteOnPacket(note, velocity, channel);
      sent := sent + [midiEvent];
    }

    method SendNoteOff(note: Byte, velocity: Byte := 0, channel: Byte := 0)
      modifies this
      ensures midiEvent == NoteOffPacket(note, velocity, channel)
      ensures sent == old(sent) + [midiEvent]
    {
      midiEvent := NoteOffPacket(note, velocity, channel);
      sent := sent + [midiEvent];
    }

    method SendAfterTouch(note: Byte, pressure: Byte := 100, channel: Byte := 0)
      modifies this
      ensures midiEvent == AfterTouchPacket(note, pressure, channel)
      ensures sent == old(sent) + [midiEvent]
    {
      midiEvent := AfterTouchPacket(note, pressure, channel);
      sent := sent + [midiEvent];
    }

    method SendControlChange(control: Byte, value: Byte, channel: Byte := 0)
      modifies this
      ensures midiEvent == ControlChangePacket(control, value, channel)
      ensures sent == old(sent) + [midiEvent]
    {
      midiEvent := ControlChangePacket(control, value, channel);
      sent := sent + [midiEvent];
    }

    method SendPitchBend(value: Int16, channel: Byte := 0)
      modifies this
      ensures midiEvent == PitchBendPacket(value, channel)
      ensures sent == old(sent) + [midiEvent]
    {
      midiEvent := PitchBendPacket(value, channel);
      sent := sent + [midiEvent];
    }
  }
}
