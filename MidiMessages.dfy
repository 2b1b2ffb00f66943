/**
 * The message-tag layout of the MIDI decoder: the dense `enum midi_message`,
 * the channel enumeration, `midi_message_has_channel` and `lookup_midi_message`.
 *
 * The enumeration is generated from one ordered list of names, so a tag is the
 * position of its name in that list. `MessageNames` is that list, kept in the
 * bands the header groups it in; the same names are the strings that
 * `lookup_midi_message` hands out.
 */
module MidiMessages {

  /** Controllers 0x00 .. 0x1F: coarse (MSB) values. */
  const ControllerMsbNames: seq<string> := [
    "MIDI_MESSAGE_BANK_SELECT_MSB", "MIDI_MESSAGE_MODULATION_WHEEL_MSB", "MIDI_MESSAGE_BREATH_CONTROL_MSB", "UNDEFINED_4",
    "MIDI_MESSAGE_FOOT_CONTROLLER_MSB", "MIDI_MESSAGE_PORTAMENTO_TIME_MSB", "MIDI_MESSAGE_DATA_ENTRY_MSB", "MIDI_MESSAGE_CHANNEL_VOLUME_MSB",
    "MIDI_MESSAGE_BALANCE_MSB", "UNDEFINED_10", "MIDI_MESSAGE_PAN_MSB", "MIDI_MESSAGE_EXPRESSION_CONTROLLER_MSB",
    "MIDI_MESSAGE_EFFECT_CONTROL_MSB_1", "MIDI_MESSAGE_EFFECT_CONTROL_MSB_2", "UNDEFINED_15", "UNDEFINED_16",
    "MIDI_MESSAGE_GENERAL_PURPOSE_CONTROLLER_MSB_1", "MIDI_MESSAGE_GENERAL_PURPOSE_CONTROLLER_MSB_2", "MIDI_MESSAGE_GENERAL_PURPOSE_CONTROLLER_MSB_3", "MIDI_MESSAGE_GENERAL_PURPOSE_CONTROLLER_MSB_4",
    "UNDEFINED_21", "UNDEFINED_22", "UNDEFINED_23", "UNDEFINED_24",
    "UNDEFINED_25", "UNDEFINED_26", "UNDEFINED_27", "UNDEFINED_28",
    "UNDEFINED_29", "UNDEFINED_30", "UNDEFINED_31", "UNDEFINED_32"
  ]

  /** Controllers 0x20 .. 0x3F: fine (LSB) values. */
  const ControllerLsbNames: seq<string> := [
    "MIDI_MESSAGE_BANK_SELECT_LSB", "MIDI_MESSAGE_MODULATION_WHEEL_LSB", "MIDI_MESSAGE_BREATH_CONTROL_LSB", "UNDEFINED_36",
    "MIDI_MESSAGE_FOOT_CONTROLLER_LSB", "MIDI_MESSAGE_PORTAMENTO_TIME_LSB", "MIDI_MESSAGE_DATA_ENTRY_LSB", "MIDI_MESSAGE_CHANNEL_VOLUME_LSB",
    "MIDI_MESSAGE_BALANCE_LSB", "UNDEFINED_42", "MIDI_MESSAGE_PAN_LSB", "MIDI_MESSAGE_EXPRESSION_CONTROLLER_LSB",
    "MIDI_MESSAGE_EFFECT_CONTROL_LSB_1", "MIDI_MESSAGE_EFFECT_CONTROL_LSB_2", "UNDEFINED_47", "UNDEFINED_48",
    "MIDI_MESSAGE_GENERAL_PURPOSE_CONTROLLER_LSB_1", "MIDI_MESSAGE_GENERAL_PURPOSE_CONTROLLER_LSB_2", "MIDI_MESSAGE_GENERAL_PURPOSE_CONTROLLER_LSB_3", "MIDI_MESSAGE_GENERAL_PURPOSE_CONTROLLER_LSB_4",
    "UNDEFINED_53", "UNDEFINED_54", "UNDEFINED_55", "UNDEFINED_56",
    "UNDEFINED_57", "UNDEFINED_58", "UNDEFINED_59", "UNDEFINED_60",
    "UNDEFINED_61", "UNDEFINED_62", "UNDEFINED_63", "UNDEFINED_64"
  ]

  /** Controllers 0x40 .. 0x5F: pedals, sound controllers, effect depths. */
  const ControllerSwitchNames: seq<string> := [
    "MIDI_MESSAGE_DAMPER_PEDAL", "MIDI_MESSAGE_PORTAMENTO", "MIDI_MESSAGE_SUSTENUTO", "MIDI_MESSAGE_SOFT_PEDAL",
    "MIDI_MESSAGE_LEGATO_FOOTSWITCH", "MIDI_MESSAGE_HOLD_2", "MIDI_MESSAGE_SOUND_CONTROLLER_1", "MIDI_MESSAGE_SOUND_CONTROLLER_2",
    "MIDI_MESSAGE_SOUND_CONTROLLER_3", "MIDI_MESSAGE_SOUND_CONTROLLER_4", "MIDI_MESSAGE_SOUND_CONTROLLER_5", "MIDI_MESSAGE_SOUND_CONTROLLER_6",
    "MIDI_MESSAGE_SOUND_CONTROLLER_7", "MIDI_MESSAGE_SOUND_CONTROLLER_8", "MIDI_MESSAGE_SOUND_CONTROLLER_9", "MIDI_MESSAGE_SOUND_CONTROLLER_10",
    "MIDI_MESSAGE_GENERAL_PURPOSE_CONTROLLER_5", "MIDI_MESSAGE_GENERAL_PURPOSE_CONTROLLER_6", "MIDI_MESSAGE_GENERAL_PURPOSE_CONTROLLER_7", "MIDI_MESSAGE_GENERAL_PURPOSE_CONTROLLER_8",
    "MIDI_MESSAGE_PORTAMENTO_CONTROL", "UNDEFINED_86", "UNDEFINED_87", "UNDEFINED_88",
    "UNDEFINED_89", "UNDEFINED_90", "UNDEFINED_91", "MIDI_MESSAGE_EFFECTS_1_DEPTH",
    "MIDI_MESSAGE_EFFECTS_2_DEPTH", "MIDI_MESSAGE_EFFECTS_3_DEPTH", "MIDI_MESSAGE_EFFECTS_4_DEPTH", "MIDI_MESSAGE_EFFECTS_5_DEPTH"
  ]

  /** Controllers 0x60 .. 0x77: data increment/decrement and parameter numbers. */
  const ControllerParameterNames: seq<string> := [
    "MIDI_MESSAGE_DATA_ENTRY_p1", "MIDI_MESSAGE_DATA_ENTRY_m1", "MIDI_MESSAGE_NON_REGISTERED_PARAMETER_NUMBER_LSB", "MIDI_MESSAGE_NON_REGISTERED_PARAMETER_NUMBER_MSB",
    "MIDI_MESSAGE_REGISTERED_PARAMETER_NUMBER_LSB", "MIDI_MESSAGE_REGISTERED_PARAMETER_NUMBER_MSB", "UNDEFINED_103", "UNDEFINED_104",
    "UNDEFINED_105", "UNDEFINED_106", "UNDEFINED_107", "UNDEFINED_108",
    "UNDEFINED_109", "UNDEFINED_110", "UNDEFINED_111", "UNDEFINED_112",
    "UNDEFINED_113", "UNDEFINED_114", "UNDEFINED_115", "UNDEFINED_116",
    "UNDEFINED_117", "UNDEFINED_118", "UNDEFINED_119", "UNDEFINED_120"
  ]

  /** Controllers 0x78 .. 0x7F: channel mode messages. */
  const ChannelModeNames: seq<string> := [
    "MIDI_MESSAGE_ALL_SOUND_OFF", "MIDI_MESSAGE_RESET_ALL_CONTROLLERS", "MIDI_MESSAGE_LOCAL_CONTROL", "MIDI_MESSAGE_ALL_NOTES_OFF",
    "MIDI_MESSAGE_OMNI_MODE_OFF", "MIDI_MESSAGE_OMNI_MODE_ON", "MIDI_MESSAGE_POLY_MODE_ON_OFF", "MIDI_MESSAGE_POLY_MODE_ON"
  ]

  /** 0x80 .. 0x87: channel voice messages, in status-nibble order 0x8 .. 0xF. */
  const ChannelVoiceNames: seq<string> := [
    "MIDI_MESSAGE_NOTE_OFF_EVENT", "MIDI_MESSAGE_NOTE_ON_EVENT", "MIDI_MESSAGE_POLYPHONIC_KEY_PRESSURE", "MIDI_MESSAGE_CONTROL_CHANGE",
    "MIDI_MESSAGE_PROGRAM_CHANGE", "MIDI_MESSAGE_CHANNEL_PRESSURE", "MIDI_MESSAGE_PITCH_WHEEL_CHANGE", "UNDEFINED"
  ]

  /** 0x88 .. 0x8F: eight unused values. */
  const UnusedNames: seq<string> := [
    "UNDEFINED_137", "UNDEFINED_138", "UNDEFINED_139", "UNDEFINED_140",
    "UNDEFINED_141", "UNDEFINED_142", "UNDEFINED_143", "UNDEFINED_144"
  ]

  /** 0x90 .. 0x97: system common messages, by the status byte's low nibble. */
  const SystemCommonNames: seq<string> := [
    "MIDI_MESSAGE_SYSTEM_EXCLUSIVE", "UNDEFINED_146", "MIDI_MESSAGE_SONG_POSITION_POINTER", "MIDI_MESSAGE_SONG_SELECT",
    "UNDEFINED_149", "UNDEFINED_150", "MIDI_MESSAGE_TUNE_REQUEST", "MIDI_MESSAGE_END_OF_EXCLUSIVE"
  ]

  /** 0x98 .. 0x9F: system real-time messages, by the status byte's low nibble. */
  const SystemRealTimeNames: seq<string> := [
    "MIDI_MESSAGE_TIMING_CLOCK", "UNDEFINED_154", "MIDI_MESSAGE_START", "MIDI_MESSAGE_CONTINUE",
    "MIDI_MESSAGE_STOP", "UNDEFINED_158", "MIDI_MESSAGE_ACTIVE_SENSING", "MIDI_MESSAGE_RESET"
  ]

  /** 0xA0 .. 0xA7: the meta events that are listed by name. */
  const MetaNames: seq<string> := [
    "MIDI_MESSAGE_META_SEQUENCE_NUMBER", "MIDI_MESSAGE_META_TEXT_EVENT", "MIDI_MESSAGE_META_COPYRIGHT_NOTICE", "MIDI_MESSAGE_META_SEQUENCE_TRACK_NAME",
    "MIDI_MESSAGE_META_INSTRUMENT_NAME", "MIDI_MESSAGE_META_LYRIC", "MIDI_MESSAGE_META_MARKER", "MIDI_MESSAGE_META_CUE_POINT"
  ]

  /** The controller band: a control-change controller number is its own tag. */
  const ControllerNames: seq<string> := ControllerMsbNames + ControllerLsbNames + ControllerSwitchNames + ControllerParameterNames + ChannelModeNames

  /** The enumerators of `enum midi_message` before `MIDI_MESSAGE_COUNT`, in declaration order. */
  const MessageNames: seq<string> := ControllerNames + ChannelVoiceNames + UnusedNames + SystemCommonNames + SystemRealTimeNames + MetaNames

  /** `MIDI_MESSAGE_COUNT`: one past the last listed enumerator. */
  const MessageCount: int := 0xA8

  const ControllerCount: int := 0x80
  const ChannelVolumeMsb: int := 0x07
  const PolyModeOn: int := 0x7F

  // Channel-voice band, in the order of the status byte's high nibble 0x8 .. 0xE.
  const NoteOffEvent: int := 0x80
  const NoteOnEvent: int := 0x81
  const PolyphonicKeyPressure: int := 0x82
  const ControlChange: int := 0x83
  const ProgramChange: int := 0x84
  const ChannelPressure: int := 0x85
  const PitchWheelChange: int := 0x86

  // System band: system common 0x90 .. 0x97, real time 0x98 .. 0x9F.
  const SystemExclusive: int := 0x90
  const EndOfExclusive: int := 0x97
  const TimingClock: int := 0x98
  const Reset: int := 0x9F

  // Meta band: 0xA0 plus the meta-event type byte of a Standard MIDI File.
  const MetaBase: int := 0xA0
  const MetaSequenceNumber: int := MetaBase
  const MetaTextEvent: int := MetaBase + 0x01
  const MetaCuePoint: int := MetaBase + 0x07
  const MetaMidiChannelPrefix: int := MetaBase + 0x20
  const MetaEndOfTrack: int := MetaBase + 0x2F
  const MetaSetTempo: int := MetaBase + 0x51
  const MetaSmpteOffset: int := MetaBase + 0x54
  const MetaTimeSignature: int := MetaBase + 0x58
  /** Declared without an initialiser right after the time signature, so one more than it. */
  const MetaKeySignature: int := MetaTimeSignature + 1
  const MetaSequencerSpecific: int := MetaBase + 0x7F

  /** `enum midi_channel`: 0 is `MIDI_CHANNEL_NONE`, 1 .. 16 are `MIDI_CHANNEL_1` .. `MIDI_CHANNEL_16`. */
  type Channel = c: int | 0 <= c <= 16
  const ChannelNone: Channel := 0

  /** `midi_message_has_channel`: the tags below the system band belong to a channel. */
  predicate HasChannel(m: int) {
    m < SystemExclusive
  }

  /** `MIDI_CHANNEL_1 + n` for the low nibble `n` of a channel status byte. */
  function ChannelOf(nibble: int): (c: Channel)
    requires 0 <= nibble < 16
    ensures c != ChannelNone && c - 1 == nibble
  {
    1 + nibble
  }

  /** The tag a meta event of type byte `b` gets. */
  function MetaTag(b: int): (m: int)
    requires 0 <= b < 0x80
    ensures MetaBase <= m < MetaBase + 0x80 && !HasChannel(m)
    ensures m - MetaBase == b
  {
    MetaBase + b
  }

  /** `lookup_midi_message`: the enumerator's name, or "INVALID" outside the listed range. */
  function LookupMidiMessage(m: int): (s: string)
    ensures s == "INVALID" <==> !(0 <= m < MessageCount)
    ensures 0 <= m < MessageCount ==> s == MessageNames[m]
  {
    NamesAreNotInvalid();
    if m >= MessageCount || m < 0 then "INVALID" else MessageNames[m]
  }

  ghost predicate NoneInvalid(names: seq<string>) {
    forall i :: 0 <= i < |names| ==> names[i] != "INVALID"
  }

  lemma NamedAppend(a: seq<string>, b: seq<string>)
    requires NoneInvalid(a) && NoneInvalid(b)
    ensures NoneInvalid(a + b)
  {
  }

  /** The listed range is exactly `[0, MIDI_MESSAGE_COUNT)` and no listed enumerator is spelled "INVALID". */
  lemma NamesAreNotInvalid()
    ensures |MessageNames| == MessageCount
    ensures NoneInvalid(MessageNames)
  {
    NamedAppend(ControllerMsbNames, ControllerLsbNames);
    NamedAppend(ControllerMsbNames + ControllerLsbNames, ControllerSwitchNames);
    NamedAppend(ControllerMsbNames + ControllerLsbNames + ControllerSwitchNames, ControllerParameterNames);
    NamedAppend(ControllerMsbNames + ControllerLsbNames + ControllerSwitchNames + ControllerParameterNames, ChannelModeNames);
    NamedAppend(ControllerMsbNames + ControllerLsbNames + ControllerSwitchNames + ControllerParameterNames + ChannelModeNames, ChannelVoiceNames);
    NamedAppend(ControllerMsbNames + ControllerLsbNames + ControllerSwitchNames + ControllerParameterNames + ChannelModeNames + ChannelVoiceNames, UnusedNames);
    NamedAppend(ControllerMsbNames + ControllerLsbNames + ControllerSwitchNames + ControllerParameterNames + ChannelModeNames + ChannelVoiceNames + UnusedNames, SystemCommonNames);
    NamedAppend(ControllerMsbNames + ControllerLsbNames + ControllerSwitchNames + ControllerParameterNames + ChannelModeNames + ChannelVoiceNames + UnusedNames + SystemCommonNames, SystemRealTimeNames);
    NamedAppend(ControllerMsbNames + ControllerLsbNames + ControllerSwitchNames + ControllerParameterNames + ChannelModeNames + ChannelVoiceNames + UnusedNames + SystemCommonNames + SystemRealTimeNames, MetaNames);
  }

  /** The controller band is the first 128 tags, and the channel-voice band starts right after it. */
  lemma ControllerLayout()
    ensures |ControllerNames| == ControllerCount && ControllerCount == NoteOffEvent
    ensures MessageNames[ChannelVolumeMsb] == "MIDI_MESSAGE_CHANNEL_VOLUME_MSB"
    ensures MessageNames[PolyModeOn] == "MIDI_MESSAGE_POLY_MODE_ON"
  {
  }

  /** The channel-voice tags, in the order of the status byte's high nibble 0x8 .. 0xE. */
  lemma ChannelVoiceLayout()
    ensures MessageNames[NoteOffEvent] == "MIDI_MESSAGE_NOTE_OFF_EVENT"
    ensures MessageNames[NoteOnEvent] == "MIDI_MESSAGE_NOTE_ON_EVENT"
    ensures MessageNames[PolyphonicKeyPressure] == "MIDI_MESSAGE_POLYPHONIC_KEY_PRESSURE"
    ensures MessageNames[ControlChange] == "MIDI_MESSAGE_CONTROL_CHANGE"
    ensures MessageNames[ProgramChange] == "MIDI_MESSAGE_PROGRAM_CHANGE"
    ensures MessageNames[ChannelPressure] == "MIDI_MESSAGE_CHANNEL_PRESSURE"
    ensures MessageNames[PitchWheelChange] == "MIDI_MESSAGE_PITCH_WHEEL_CHANGE"
  {
    assert |ControllerNames| == 0x80;
    assert MessageNames[0x80..0x88] == ChannelVoiceNames;
  }

  /** The system tags: common messages at 0x90 plus the status byte's low nibble, real-time messages from 0x98. */
  lemma SystemLayout()
    ensures MessageNames[SystemExclusive] == "MIDI_MESSAGE_SYSTEM_EXCLUSIVE"
    ensures MessageNames[EndOfExclusive] == "MIDI_MESSAGE_END_OF_EXCLUSIVE"
    ensures MessageNames[TimingClock] == "MIDI_MESSAGE_TIMING_CLOCK"
    ensures MessageNames[Reset] == "MIDI_MESSAGE_RESET"
  {
    assert |ControllerNames| == 0x80;
    assert MessageNames[0x90..0x98] == SystemCommonNames;
    assert MessageNames[0x98..0xA0] == SystemRealTimeNames;
  }

  /** The meta tags are 0xA0 plus the meta-event type byte; the listed ones end at the cue point. */
  lemma MetaLayout()
    ensures MessageNames[MetaSequenceNumber] == "MIDI_MESSAGE_META_SEQUENCE_NUMBER"
    ensures MessageNames[MetaTextEvent] == "MIDI_MESSAGE_META_TEXT_EVENT"
    ensures MessageNames[MetaCuePoint] == "MIDI_MESSAGE_META_CUE_POINT"
    ensures MessageCount == MetaCuePoint + 1
    ensures MetaEndOfTrack == MetaTag(0x2F) && MetaKeySignature == MetaTag(0x59)
    ensures MetaSetTempo == MetaTag(0x51) && MetaSequencerSpecific == MetaTag(0x7F)
  {
    assert |ControllerNames| == 0x80;
    assert MessageNames[0xA0..] == MetaNames;
  }
}
