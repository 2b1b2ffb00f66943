# dpa-audio-tracker core, modelled in Dafny

This project models the integer, byte and index logic of the dpa-audio-tracker
repository and proves properties about it.

- **`src/midi.c`**: the resumable MIDI event decoder.
  - It reads a variable-length quantity.
  - It runs a five-state parser over a byte window and decodes at most one event per call.
- **`include/midi.h`**: the numeric layout of the message tags, the channel numbering, `midi_message_has_channel` and `lookup_midi_message`.
- **`src/ringbuffer.c`**: the bookkeeping of the "magic" ring buffer. It has a read view, a write view, `discard` and `commit`.
- **`src/midi2trk.c`**: the 256-slot queue of pending notes.
  - `start_note` and `stop_note` keep it in place.
  - `stop_note` drains finished notes and prints tracker lines.
- **`src/main.c`**, the integer parts only:
  - the 44-byte WAVE header;
  - the phase counter of a tone;
  - the list of generators and the pass over it that produces one sample;
  - the int32 clamp;
  - the tokeniser and dispatcher of the script language.

## Layout

| file | models |
|---|---|
| `Ints.dfy` | Fixed-width integer types, 64-bit wrap-around add and subtract, and little-endian byte serialisation. |
| `MidiMessages.dfy` | The message tag table as a sequence of 168 names indexed by tag, the band constants, channels and the lookup. |
| `MidiVlq.dfy` | The variable-length quantity. `DecodeVlq` specifies it, and the loop method `ParseVariableLengthQuantity` is proved equal to it. The file also gives an encoder as a partner. |
| `MidiParser.dfy` | The parser state, and one pass of its `switch` as the function `Step`. `Run` iterates passes until an event, a failure or the end of the window. The class `MidiEventParser` holds the loop method `Parse`, one method per state, and proves each equal to `Step`/`Run`. |
| `MidiParserFacts.dfy` | The decoder's promises, stated as lemmas about `Step` and `Run`, including that a stream split across two calls decodes as the whole. |
| `RingBuffer.dfy` | A class with `offset`, `size` and the physical page as an `array<byte>`. Each of the four mapped copies reads virtual index `v` from physical byte `v % capacity`. The unread bytes form a ghost sequence `Contents`. |
| `PendingNotes.dfy` | A class holding `note_list` as an `array<Note>` of 256 slots, the counters, the statics of `stop_note`, and standard output as a sequence of tokens. `Drain` specifies the printing loop. A reader of the printed score is its partner. |
| `WavHeader.dfy` | `mk_wav` as a byte sequence, and a reader that recovers every field from it. |
| `Generators.dfy` | The phase counter, the generator list as a `seq` field of a class `Tracker`, and the clamp. |
| `CommandLine.dfy` | The line tokeniser, the grouping of tokens into commands, the dispatch of a command and the per-line loop. |

## Model

| member | source | states |
|---|---|---|
| Ints.LittleEndian | src/main.c:133-137 | The header writes a value as n bytes, low byte first, keeping only the low n bytes. |
| Ints.FromLittleEndian | src/main.c:133-137 | Reading n little-endian bytes gives a value below 256^n. |
| Ints.LittleEndianRoundTrip | src/main.c:133-137 | Reading back the n little-endian bytes of x gives x mod 256^n, i.e. the truncation that the `unsigned char` initialisers perform. |
| Ints.Sub64 | src/midi2trk.c:43 | `uint64_t` subtraction wraps: adding the subtrahend back gives the minuend, and the difference is 0 exactly when the operands are equal. |
| Ints.Add64Carry | src/midi.c:63 | `Add64`, the `uint64_t` addition of `midi->time += timing`, wraps at most once, and exactly when the result is smaller than the first operand. |
| Ints.Add64IsModular | src/midi.c:63 | The `uint64_t` time accumulator adds modulo 2^64. |
| Ints.Sub64IsModular | src/midi2trk.c:43-51 | `uint64_t` differences are taken modulo 2^64. |
| MidiMessages.ChannelOf | include/midi.h:219-237 | A status nibble n maps to `MIDI_CHANNEL_1 + n`. That is never `MIDI_CHANNEL_NONE` and is numbered n + 1. |
| MidiMessages.MetaTag | include/midi.h:187-208 | A meta type b maps to tag 0xA0 + b. That tag lies in the meta band, which has no channel (`midi_message_has_channel` is false at or above 0x90). |
| MidiMessages.LookupMidiMessage | include/midi.h:213-217 | The result is "INVALID" exactly when the tag is outside [0, `MIDI_MESSAGE_COUNT`). Otherwise it is the tag's name in the table. |
| MidiMessages.NamesAreNotInvalid | include/midi.h:197-201 | The table has exactly `MIDI_MESSAGE_COUNT` = 0xA8 entries and none of them is "INVALID". Together with LookupMidiMessage this means "INVALID" signals exactly an out-of-range tag. |
| MidiMessages.ControllerLayout | include/midi.h:11-143 | The controller band has exactly 128 entries, so controller n is tag n. Controller 7 is `MIDI_MESSAGE_CHANNEL_VOLUME_MSB` and 0x7F is `MIDI_MESSAGE_POLY_MODE_ON`. |
| MidiMessages.ChannelVoiceLayout | include/midi.h:145-152 | The channel-voice tags 0x80-0x86 run in status-nibble order, from note off to pitch wheel. |
| MidiMessages.SystemLayout | include/midi.h:165-184 | System exclusive is 0x90, end of exclusive is 0x97, timing clock is 0x98 and reset is 0x9F. |
| MidiMessages.MetaLayout | include/midi.h:187-208 | Sequence number is 0xA0 and cue point is 0xA7. `MIDI_MESSAGE_COUNT` follows the cue point. End of track, set tempo, key signature and sequencer specific are 0xA0 plus their SMF meta type. |
| MidiVlq.DecodeVlq | src/midi.c:10-26 | The decoder reads at most 4 bytes and has three outcomes. (1) At the first byte with its high bit clear, it reports that count and the big-endian concatenation of the 7-bit groups, below 2^28. (2) When 4 bytes all have the continuation bit, the stream is overlong. (3) When fewer than 4 bytes are present and all continue, it needs more input. |
| MidiVlq.DecodeFrom | src/midi.c:14-25 | The loop from position i on, with the same three outcomes. |
| MidiVlq.SeptetsBound | src/midi.c:16-17 | n 7-bit groups give a value below 128^n. |
| MidiVlq.ParseVariableLengthQuantity | src/midi.c:10-26 | The loop returns the count and the value on success, -1 when overlong, and 0 when more input is needed. It writes no result in the last two cases (the result is modelled as 0). |
| MidiVlq.DecodeVlqStable | src/midi.c:10-26 | A decision that needs no more bytes is unaffected by bytes appended after the window. |
| MidiVlq.DecodeVlqAt | src/midi.c:18-21 | When the first clear byte is at position c-1 within the first four bytes (1 ≤ c ≤ 4), the quantity has count c and value `Septets(data[..c])`. |
| MidiVlq.ContinuationBytes | src/midi.c:16-18 | Every byte of the encoder's leading part carries the continuation bit. |
| MidiVlq.ContinuationBytesFacts | src/midi.c:16-17 | The leading part of the encoding of q has at most k bytes when q < 128^k, and reads back as q. |
| MidiVlq.EncodeVlqShape | src/midi.c:10-26 | An encoding of a value below 2^28 has 1 to 4 bytes. All but the last continue, and the groups read back as the value. |
| MidiVlq.VlqRoundTrip | src/midi.c:10-26 | Decoding the encoding of any v < 2^28, followed by any bytes, gives back v with its length. |
| MidiParser.ScanEnd | src/midi.c:109-112 | The system-message scan stops at the first high-bit byte after the status byte, or at the limit. Every byte before that point has its high bit clear. |
| MidiParser.ChannelMessage | src/midi.c:90-106 | A channel message is never a `Continue`. An emitted event is stamped with the parser time, moves the cursor forward, and has a payload inside the consumed bytes. The parser returns to TIMING. A failure leaves the registers alone. |
| MidiParser.SystemMessage | src/midi.c:107-121 | The same guarantees for system common and real-time messages. |
| MidiParser.Step | src/midi.c:54-163 | One pass of the `switch`. A `Continue` moves strictly closer to the end of decoding, so the loop terminates. An emitted event lies inside the consumed bytes, carries the current time and leaves the parser in TIMING. `has_timing` never changes. Only a non-SKIP state can stop early. |
| MidiParser.Payload | src/midi.c:124-149 | A sysex or meta length prefix either emits an event inside the consumed bytes, returning to TIMING, or continues closer to the end. |
| MidiParser.Run | src/midi.c:52-168 | The loop keeps `has_timing`. On success the count is between 0 and the window length. An event's payload lies after the window start and within the consumed bytes. |
| MidiParser.After | src/midi.c:52-165 | The continuation of the loop after one pass has the same guarantees as Run. |
| MidiParser.ParseOutcome | src/midi.c:47-169 | One call of `midi_event_parser_parse` on a whole window: `has_timing` is kept, and a successful call returns a count between 0 and the window's length. |
| MidiParser.MidiEventParser.constructor | include/midi.h:252-259 | A zeroed parser is in TIMING with time 0 and no event. |
| MidiParser.MidiEventParser.Dispatch | src/midi.c:28-37 | Stores the event stamped with the parser time and sets `got_event`, leaving the other registers unchanged. |
| MidiParser.MidiEventParser.Parse | src/midi.c:47-169 | The call returns -1 on a failure, with `got_event` false and the old event in place. Otherwise it returns the bytes consumed, and `got_event` holds exactly when an event was decoded. The registers end as `Run` says. |
| MidiParser.MidiEventParser.ParseStep | src/midi.c:54-163 | One pass over the mutable parser performs exactly the transition `Step` describes. |
| MidiParser.MidiEventParser.ParseTiming | src/midi.c:55-68 | The TIMING case performs the transition `Step` describes. |
| MidiParser.MidiEventParser.ParseEventType | src/midi.c:70-122 | The EVENT_TYPE case performs the transition `Step` describes. |
| MidiParser.MidiEventParser.ParseChannelMessage | src/midi.c:90-106 | The channel-message branch performs the transition `ChannelMessage` describes. |
| MidiParser.MidiEventParser.ParseSystemMessage | src/midi.c:107-121 | The system-message branch, including its scan loop, performs the transition `SystemMessage` describes. |
| MidiParser.MidiEventParser.ParsePayload | src/midi.c:124-149 | The sysex and meta case performs the transition `Payload` describes. |
| MidiParser.MidiEventParser.ParseSkip | src/midi.c:151-161 | The SKIP case performs the transition `Step` describes. |
| MidiParserFacts.RunStep | src/midi.c:52-168 | A call equals its first pass followed by the rest of the loop. The loop stops on an event, an early exit (`goto out`) or a failure. |
| MidiParserFacts.RunContinues | src/midi.c:52-165 | A pass that continues hands a positioned state to the rest of the loop. |
| MidiParserFacts.StatusWithoutHighBitFails | src/midi.c:73-75 | A status byte with its high bit clear makes the call return -1. |
| MidiParserFacts.MetaTypeWithHighBitFails | src/midi.c:81-86 | `0xFF` followed by a type byte with its high bit set makes the call fail, with the state already set to EVENT_META. |
| MidiParserFacts.ControllerWithHighBitFails | src/midi.c:96-99 | A control change whose controller byte has its high bit set makes the call fail. |
| MidiParserFacts.StepFailsExactly | src/midi.c:54-163 | A pass fails if and only if one of these holds: a delta-time VLQ is overlong; a length VLQ is overlong; or an event-type byte is bad (no high bit, a meta type or controller with the high bit, or no high-bit byte within 32 positions). |
| MidiParserFacts.ChannelMessageEmitted | src/midi.c:90-106 | With enough bytes, a channel message is consumed and the call returns. It takes 2 bytes for program change and channel pressure and 3 otherwise. The tag is `0x80 + ((status >> 4) & 7)` and the channel is `(status & 0xF) + 1`. The payload is the next needed-1 bytes. For control change, the tag is the controller number and the payload is the single byte after it. |
| MidiParserFacts.ChannelMessageStep | src/midi.c:90-106 | The same decoding, as one pass. |
| MidiParserFacts.ShortChannelMessageWaits | src/midi.c:93-95 | A channel message that is cut short consumes nothing and leaves the state unchanged. |
| MidiParserFacts.LoneStatusByteWaits | src/midi.c:71-72 | EVENT_TYPE always needs two bytes, even for a one-byte real-time message. A lone status byte is left for the next call. |
| MidiParserFacts.SysexStatusSetsTag | src/midi.c:76-80 | `0xF0` sets pending tag 0x90, `0xF7` sets 0x97, and decoding resumes in EVENT_SYSEX after the byte. |
| MidiParserFacts.SysexStatusStep | src/midi.c:76-80 | The same, as one pass. |
| MidiParserFacts.MetaStatusSetsTag | src/midi.c:81-89 | With timing, `0xFF b` with b < 0x80 sets pending tag 0xA0 + b, and decoding resumes in EVENT_META two bytes on. |
| MidiParserFacts.MetaStatusStep | src/midi.c:81-89 | The same, as one pass. |
| MidiParserFacts.ShortPayloadEmitted | src/midi.c:139-147 | A declared length of at most 254 with the whole payload present emits one event. It carries the pending tag and that length, starts right after the prefix and has channel NONE. The parser returns to TIMING after the payload. |
| MidiParserFacts.ShortMetaEventEmitted | src/midi.c:81-147 | A complete short meta event `FF t len data` decodes to one event with tag 0xA0 + t, spanning the data bytes. |
| MidiParserFacts.OneByteVlq | src/midi.c:18-20 | A byte below 0x80 is a one-byte quantity holding itself. |
| MidiParserFacts.IncompletePayloadWaits | src/midi.c:132-141 | An incomplete length prefix, or a short payload not yet fully present, consumes nothing and keeps the state, so the same bytes are examined again next call. |
| MidiParserFacts.LongPayloadSkipped | src/midi.c:134-138 | A declared length above 254 emits nothing and enters SKIP with the length as remainder. The cursor moves back by the prefix length, as written. |
| MidiParserFacts.LongPayloadStep | src/midi.c:134-138 | The same, as one pass. |
| MidiParserFacts.LongPayloadResumesEarly | src/midi.c:134-160 | When the whole payload is present, decoding resumes in TIMING 2·(prefix length) bytes before the real end of the payload. |
| MidiParserFacts.SkipEndsInWindow | src/midi.c:156-160 | A remainder that fits the window is consumed and the parser returns to TIMING. |
| MidiParserFacts.SkipOutlastsWindow | src/midi.c:152-155 | A remainder longer than the window consumes the whole window, lowers the remainder by the window length and stays in SKIP. |
| MidiParserFacts.SkipEndsStep | src/midi.c:156-160 | The same as SkipEndsInWindow, as one pass. |
| MidiParserFacts.SystemMessageOutcome | src/midi.c:107-121 | A system message has three outcomes. (1) It fails exactly when none of the 31 bytes after the status byte has its high bit set. (2) It waits exactly when the window ends first and `eof` is false. (3) Otherwise it emits tag `0x90 + (status & 0xF)` with channel NONE, and a payload made of the bytes up to the next high-bit byte or the end of the window; on an emit the parser returns to TIMING. |
| MidiParserFacts.SystemMessageShape | src/midi.c:107-121 | The same three outcomes of the branch itself. |
| MidiParserFacts.ScanVerdicts | src/midi.c:110-116 | The scan reaches 32 exactly when 31 continuation bytes follow the status byte. Below 32, it reaches the window's end exactly when no high-bit byte remains. |
| MidiParserFacts.SystemMessageStep | src/midi.c:107-108 | Every status byte not handled earlier is a system message (0xF1-0xFE, and 0xFF without timing). |
| MidiParserFacts.DeltaTimeAccumulates | src/midi.c:55-67 | With timing, a complete delta-time is added to `time` modulo 2^64, and decoding resumes in EVENT_TYPE after it. |
| MidiParserFacts.DeltaTimeStep | src/midi.c:55-67 | The same, as one pass. |
| MidiParserFacts.IncompleteDeltaWaits | src/midi.c:61-62 | An incomplete delta-time consumes nothing and keeps the state. |
| MidiParserFacts.RunKeepsTags | src/midi.c:76-144 | The pending tag is always a sysex or meta tag while the state needs one. Every event carries a tag from a band that matches its channel: channel messages carry a real channel, and the others carry NONE. |
| MidiParserFacts.StepKeepsTags | src/midi.c:54-163 | One pass keeps the same tag invariant. |
| MidiParserFacts.FreshParserEmitsWellFormed | src/midi.c:47-169 | A call on a freshly zeroed parser keeps that invariant. |
| MidiParserFacts.StallIsLocal | src/midi.c:71-141 | An early exit depends only on the bytes from the cursor on. |
| MidiParserFacts.EarlyStopIsStall | src/midi.c:52-168 | A call that ends before the window's end without an event stopped at a pass that exits early. |
| MidiParserFacts.LeftoverBytesAreReexamined | src/midi.c:61-168 | When a call returns fewer bytes than it was given and no event, it stopped without consuming the incomplete field. Calling again on the remaining bytes, with nothing appended, stops at once in the same state. |
| MidiParserFacts.StepEquivalent | src/midi.c:54-163 | A pass from registers that differ only in an unread `tmp` continues, emits, waits or fails alike, and passes on registers that still differ only there. |
| MidiParserFacts.RunEquivalent | src/midi.c:52-168 | A call from such registers cannot be told apart: same failure, or same count, same event and equivalent registers. |
| MidiParserFacts.StepStable | src/midi.c:54-163 | A pass that decided something without waiting, and is not a SKIP outlasting the window, decides the same once bytes are appended, whether or not the stream has ended. |
| MidiParserFacts.ChannelMessageStable | src/midi.c:90-106 | A channel message decided on the window is decided the same on a longer window. |
| MidiParserFacts.SystemMessageStable | src/midi.c:107-121 | A system message decided before the end of the stream is decided the same on a longer window, also at its end. |
| MidiParserFacts.PayloadStable | src/midi.c:123-147 | A length prefix and payload decided on the window are decided the same on a longer window. |
| MidiParserFacts.RunOnLonger | src/midi.c:47-169 | A call on `a` followed by bytes `b`: where the call on `a` alone failed or emitted, the longer call returns the same; where it consumed k bytes without an event, the longer call agrees with the longer call resumed at k from the registers left behind. |
| MidiParserFacts.StepShift | src/midi.c:54-163 | A pass depends only on the bytes from the cursor on: moved k bytes further into a window with the same tail, it gives the same result, its cursor and event offset moved by k. |
| MidiParserFacts.RunShift | src/midi.c:52-168 | The same for a whole call: on the window from k on it returns the call on the whole window, count and event offset moved by k. |
| MidiParserFacts.DecisionsAreStable | src/midi.c:47-169 | A call that fails or dispatches an event on a window returns exactly the same once more bytes follow, whether or not the stream then ends. |
| MidiParserFacts.SplitStreamResumes | src/midi.c:47-169 | A stream split in two decodes as the whole. When a call on `a` consumes k bytes and dispatches nothing, a call on `a + b` agrees with the next call, from the registers left behind, on the bytes from k on, its count and event offset moved by k. |
| MidiParserFacts.SplitSkipLeavesOtherScratch | src/midi.c:150-160 | The agreement above is not equality: a SKIP spanning the split leaves a different, unread remainder in `tmp` than the same SKIP in one call. |
| MidiParserFacts.NoteOnScenario | src/midi.c:55-106 | `00 90 40 64` decodes to a note-on on channel 1 at time 0, with a two-byte payload at offset 2. |
| MidiParserFacts.ControlChangeScenario | src/midi.c:96-100 | `00 B0 07 50` decodes to `MIDI_MESSAGE_CHANNEL_VOLUME_MSB` on channel 1, with the value byte as payload. |
| MidiParserFacts.MetaTextScenario | src/midi.c:81-147 | `00 FF 01 02 41 42` decodes to a text meta event whose two-byte payload is at offset 4. |
| RingBuffer.GetRingbufferSize | src/ringbuffer.c:15-19 | The capacity is a multiple of the page size, at least 4096 and below 4096 plus the page size. When the rounding overflows 32 bits it is 0. |
| RingBuffer.RoundDown | src/ringbuffer.c:18 | Integer division then multiplication rounds down to a multiple. |
| RingBuffer.RingBuffer.Alias | src/ringbuffer.c:41-70 | Every virtual index of the four-fold mapping lands on a physical byte of the page. |
| RingBuffer.AliasIsModulo | src/ringbuffer.c:41-70 | Virtual index v reads physical byte v mod capacity. |
| RingBuffer.RingBuffer.constructor | src/ringbuffer.c:21-76 | A new buffer has the rounded capacity and no unread bytes. |
| RingBuffer.RingBuffer.ReadView | src/ringbuffer.c:88-94 | The read view has length `size` and lies within [capacity, 3·capacity). Its k-th byte is the k-th unread byte. |
| RingBuffer.RingBuffer.WriteView | src/ringbuffer.c:110-119 | The write view starts in the first copy, directly after the unread data modulo capacity, and lies within the two writable copies. Read length plus write length equals capacity. |
| RingBuffer.RingBuffer.Pending | src/ringbuffer.c:110-119 | The first n bytes of the write view as they are now in memory. |
| RingBuffer.RingBuffer.Store | src/ringbuffer.c:110-119 | A caller's write into the write view changes that byte only. The unread data and the counters are untouched. |
| RingBuffer.RingBuffer.Discard | src/ringbuffer.c:96-108 | The count is clamped to [0, size] and subtracted from `size`. `offset` advances by it modulo capacity. Exactly the clamped prefix of the unread bytes is removed. |
| RingBuffer.RingBuffer.Commit | src/ringbuffer.c:121-131 | A negative count changes nothing. Otherwise `size` becomes min(size + count, capacity), `offset` is untouched, and the committed bytes of the write view are appended, in order, to the unread bytes. |
| RingBuffer.RingBuffer.Extend | src/ringbuffer.c:127-130 | Committing n bytes that fit appends the first n bytes of the write view to the unread bytes. |
| RingBuffer.CommittedBytesFollowUnread | src/ringbuffer.c:88-119 | The write view's bytes are the bytes that follow the unread data in the read copy, so after a commit they appear at the end of the read view. |
| PendingNotes.NoteToken | src/midi2trk.c:66 | A note line names `note_name[tone % 12]` (the table at line 8) and octave tone/12 - 2, within [-2, 19]. |
| PendingNotes.NoteLines | src/midi2trk.c:66 | Filtering printed tokens to note lines keeps only note lines. |
| PendingNotes.Lines | src/midi2trk.c:66 | One note line per note. |
| PendingNotes.Starts | src/midi2trk.c:51-62 | One start time per note. |
| PendingNotes.Drain | src/midi2trk.c:46-69 | The drain never lengthens the queue. |
| PendingNotes.DrainTakesFinishedPrefix | src/midi2trk.c:46-69 | The drain removes exactly the longest prefix of finished notes, in FIFO order, and stops at the first unfinished note. |
| PendingNotes.EmitNoteLines | src/midi2trk.c:51-66 | Printing one note yields exactly one note line, its own. |
| PendingNotes.DrainPrintsLines | src/midi2trk.c:46-69 | The note lines printed by a drain are those of the removed notes, in queue order. |
| PendingNotes.DrainStep | src/midi2trk.c:46-69 | A drain starting with a finished note prints that note, then drains the rest. |
| PendingNotes.DrainStops | src/midi2trk.c:46 | A drain on an empty queue, or one whose oldest note is unfinished, does nothing. |
| PendingNotes.FindOpen | src/midi2trk.c:37-41 | The search finds the oldest pending, unfinished note with a matching channel and tone, or reports that none exists. |
| PendingNotes.Finish | src/midi2trk.c:42-44 | The matched note becomes done, with `duration = time - note.time` (mod 2^64), the end velocity set and its channel, tone, start and start velocity kept. Every other note is unchanged. |
| PendingNotes.Heading | src/midi2trk.c:51-60 | Nothing is printed before a note that starts when the previous one did; otherwise a separator and a `>>`, bare or with the gap. |
| PendingNotes.Advanced | src/midi2trk.c:51-63 | The statics after the heading: the clock is at the note's start, the time still to sound never grows, and a new start time resets the same-time count. |
| PendingNotes.EmitNote | src/midi2trk.c:51-66 | One pass of the drain loop: the clock is at the note's start, the time still to sound covers the note's duration, and the pass ends with the note's line. |
| PendingNotes.HeadingReplays | src/midi2trk.c:51-63 | A reader of the printed score, reading `>> d` as a step of d, advances its clock to the note's start, in step with the printer. It uses `>>` without a number to mean "the natural duration". |
| PendingNotes.EmitNoteReplays | src/midi2trk.c:51-66 | Reading back one printed note recovers its start time and the printer's state. This is the separator rule: nothing when the gap is 0; otherwise ">>" when the natural duration equals the gap, else ">> gap"; then natural duration becomes max(saturating natural duration - gap, note duration). |
| PendingNotes.DrainReplays | src/midi2trk.c:46-69 | Reading back everything a drain prints, in the intended reading where `>> d` advances the clock by d, recovers the start times of the removed notes, in order. |
| PendingNotes.NoteQueue.Slot | src/midi2trk.c:21-27 | A position maps to one of the 256 slots. |
| PendingNotes.SlotsDistinct | src/midi2trk.c:21-39 | Fewer than 256 consecutive positions occupy distinct slots, so the live notes never overlap. |
| PendingNotes.NoteQueue.constructor | src/midi2trk.c:20-22 | The queue is empty, the statics of `stop_note` (lines 48-50) are zero and nothing is printed. |
| PendingNotes.NoteQueue.StartNote | src/midi2trk.c:24-34 | A full queue (256 notes) returns false and changes nothing. Otherwise an unfinished note is appended at slot (offset + count) & 0xFF and true is returned. |
| PendingNotes.NoteQueue.StopNote | src/midi2trk.c:36-73 | The result is true exactly when a matching open note exists. Without one, nothing changes. With one, the note is finished and the queue drains. `note_count` falls and `note_offset` rises by the number of notes removed, and the printed tokens are appended to the output. |
| PendingNotes.NoteQueue.FinishSlot | src/midi2trk.c:42-44 | Finishing a note in place equals `Finish` on the pending sequence. |
| PendingNotes.NoteQueue.DrainFront | src/midi2trk.c:46-69 | The in-place drain loop equals `Drain` on the pending sequence and the statics. |
| PendingNotes.NoteQueue.PrintFront | src/midi2trk.c:47-68 | One iteration of the drain removes the oldest note and keeps the rest of `Drain` in step. |
| PendingNotes.NoteQueue.PrintNote | src/midi2trk.c:47-68 | Printing the oldest note pops it from the front and appends its tokens. |
| PendingNotes.SeparatorCountsSameTimeNotes | src/midi2trk.c:50-54 | Before a new start time the separator is a line break exactly when 1 ≤ `notes_same_time` < 2^32 - 1 before the increment, i.e. more than one note began at the previous time, counted in a wrapping `unsigned`. |
| PendingNotes.NoteQueue.PrintHeading | src/midi2trk.c:51-63 | The separator rule updates the statics and appends the heading tokens. |
| WavHeader.ByteRate | src/main.c:123 | The byte rate is ceil(rate · bits · channels / 8). |
| WavHeader.BlockAlign | src/main.c:124 | The block alignment is ceil(bits · channels / 8). |
| WavHeader.MkWav | src/main.c:121-142 | The header is 44 bytes. |
| WavHeader.MkWavLayout | src/main.c:121-142 | The header lays out these fields: "RIFF" at 0, the all-0xFF size placeholder, "WAVE" at 8, "fmt " at 12, chunk size 16, the format code (3 for the float formats, 1 for int32), channels, the sample rate, the byte rate, the block alignment and bits per sample (64 for float64, else 32). Every number is little-endian. Then "data" at 36 and a second placeholder. |
| WavHeader.Field | src/main.c:133-137 | A little-endian field of n bytes is below 256^n. |
| WavHeader.ReadWav | src/main.c:126-140 | A header that is accepted is 44 bytes with "RIFF" and "data" in place. |
| WavHeader.FieldReadsBack | src/main.c:133-137 | A field written little-endian reads back as its value mod 256^n. |
| WavHeader.WavRoundTrip | src/main.c:121-142 | Reading the header back recovers each field: the format code, channels mod 2^16, the sample rate, the byte rate mod 2^32, the block alignment mod 2^16, and bits per sample. |
| WavHeader.ReadsFields | src/main.c:126-140 | Any header with the fixed tags is read field by field. |
| WavHeader.MonoInt32Header | src/main.c:121-142 | The mono int32 header that `main` writes at start-up (line 398) has format 1, one channel, byte rate 4·rate, alignment 4 and 32 bits. |
| Generators.NextPhase | src/main.c:191-195 | The phase counter increments (wrapping at 2^32) and resets to 0 at the duration. For a phase below the duration it advances modulo the duration, and for a positive duration it stays below it. |
| Generators.AdvanceIsModular | src/main.c:191-195 | n samples advance the phase by n modulo the duration. |
| Generators.WholePeriod | src/main.c:191-195 | After exactly one duration of samples the tone is back where it started. `tracker_add_note` rounds a generator's duration up to whole periods (line 353). |
| Generators.Tick | src/main.c:251-258 | A generator that is not expired gains one in `time` and its tone advances one phase step. |
| Generators.Pass | src/main.c:247-259 | The list walk as written never lengthens the list. |
| Generators.PassAll | src/main.c:247-261 | The corrected walk, visiting every generator: the list never grows. `PassAllKeepsLive` gives its content. |
| Generators.PassKeepsOrigins | src/main.c:247-259 | Every generator left after the walk is one that was there before, either ticked or untouched. |
| Generators.PassWithoutExpiry | src/main.c:247-259 | When nothing expires, the walk ticks every generator. |
| Generators.SuccessorOfExpiredIsSkipped | src/main.c:249-255 | Removing a generator skips its successor for that sample, which is left unticked. The corrected walk ticks it. |
| Generators.Live | src/main.c:252 | The generators that survive a pass are the unexpired ones. |
| Generators.PassAllKeepsLive | src/main.c:247-259 | The walk with its step corrected drops every expired generator and ticks every live one, in order. |
| Generators.Tracker.constructor | src/main.c:385-397 | The tracker starts with no generators. |
| Generators.Tracker.AddGenerator | src/main.c:327-332 | A copy is pushed at the head of the list. |
| Generators.Tracker.RemoveGenerator | src/main.c:241-245 | The node is unlinked and the rest of the list keeps its order. |
| Generators.Tracker.GenerateSample | src/main.c:247-261 | The walk leaves exactly the list that `PassAll` describes: every expired generator unlinked and every live one ticked, in order. The step after an unlinking is corrected; see Findings. |
| Generators.ClampInt32 | src/main.c:276-279 | The int32 output is clamped to [-0x7FFFFFFF, 0x7FFFFFFF]. Values inside the range pass unchanged and values outside saturate. |
| Generators.ClampMonotone | src/main.c:276-279 | Clamping preserves order. |
| CommandLine.TokenLength | src/main.c:400-405 | A token runs up to the first space, tab, CR or LF. |
| CommandLine.Tokens | src/main.c:400-405 | Splitting a line yields only non-empty tokens free of delimiters. |
| CommandLine.TokenThenRest | src/main.c:400-405 | A token followed by a delimiter or the end of the line is read back whole. |
| CommandLine.TokensOfJoin | src/main.c:400-405 | Splitting tokens joined by single spaces gives back those tokens. |
| CommandLine.Gather | src/main.c:405-415 | A command holds at most 32 tokens. When the loop stops before the end of the line, the command is non-empty and the next command begins at a later token. The step past a 32nd token is corrected; see Findings. |
| CommandLine.GatherShape | src/main.c:405-415 | The command extends what was gathered and contains no comment token. Only its first token may be ">>" or begin with ':'. |
| CommandLine.GatherEnds | src/main.c:401-409 | When the loop reaches the end of the line or a comment, the command holds every remaining token before the first comment. |
| CommandLine.GatherStops | src/main.c:410-414 | When the loop stops before a command token or after a 32nd token, the command holds exactly the tokens it passed, none of them a comment. |
| CommandLine.Commands | src/main.c:402-434 | Every command the do-while produces is non-empty. |
| CommandLine.LineCommands | src/main.c:400-434 | Blank lines and lines starting with a comment produce no command, and every command produced is non-empty. |
| CommandLine.CommandsWellFormed | src/main.c:402-434 | Every command is well formed. It is non-empty and has at most 32 tokens. It contains no comment, and ">>" or a ':' token appears only at its head. |
| CommandLine.CommandsCoverTokens | src/main.c:402-434 | From any token on, the commands hold every token before the first comment exactly once and in order. |
| CommandLine.LineCommandsCoverTokens | src/main.c:400-434 | The commands of a line are a partition, in order, of its tokens before the first comment. |
| CommandLine.ReadLine | src/main.c:400-434 | The `strtok` loops produce exactly the commands of `LineCommands`. The loop moves past a 32nd token, see Findings. |
| CommandLine.Dispatch | src/main.c:417-433 | A ':' prefix selects a setting with the prefix removed. ">>" generates and "n" adds a note, each with the remaining tokens. Anything else is an unknown command. `cmd_list` (lines 369-372) holds only ">>" and "n". |
| CommandLine.Unparse | src/main.c:417-433 | Every action has a command line. |
| CommandLine.DispatchRoundTrip | src/main.c:417-433 | A known command is recovered from its action. |
| CommandLine.LineActions | src/main.c:417-433 | Each command of a line yields one step. |
| CommandLine.LineActionsInOrder | src/main.c:417-435 | The steps of a line dispatch its commands in order and carry the line number. |
| CommandLine.DispatchLine | src/main.c:402-434 | The dispatch loop over a line's commands produces `LineActions`. |
| CommandLine.ReadLineActions | src/main.c:400-434 | Tokenising and dispatching one line produces the steps `LineSteps` describes. |
| CommandLine.ReadScript | src/main.c:392-436 | The line loop produces, in order, the steps of every line. Lines are numbered from 1. |
| CommandLine.StepsCarryTheirLine | src/main.c:392-435 | Every step carries the number of an existing line. |
| CommandLine.Uncommented | src/main.c:401-409 | The tokens kept before a comment are at most the line. |
| CommandLine.UncommentedIsCommentFreePrefix | src/main.c:401-409 | The kept tokens are the longest prefix without a comment token. |
| CommandLine.GatherAsWritten | src/main.c:405-415 | The inner loop as written. A command holds at most 32 tokens, and when the loop stops before the end of the line, `pch` is still on a token of the line. |
| CommandLine.CommandsAsWritten | src/main.c:402-434 | The do-while as written produces only non-empty commands. |
| CommandLine.LineCommandsAsWritten | src/main.c:400-434 | The loops as written produce only non-empty commands. |
| CommandLine.GatherPlain | src/main.c:405-415 | Over plain tokens, the loop as written takes the next tokens up to the 32-token limit and stops on the 32nd without moving past it. |
| CommandLine.FullCommandRepeatsLastToken | src/main.c:412-434 | As written, a line of exactly 32 plain tokens gives two commands, and the 32nd token is used twice (33 tokens in all). |

## Left out

- OS plumbing is not modelled. This covers `memfd_create`, `ftruncate`, `mmap`, `munmap`, `close` and `sysconf` in `ringbuffer_create`/`ringbuffer_destroy`, and the allocation failure paths.
  - The page size is a parameter.
  - The four-fold mapping is modelled as virtual index v reading physical byte v mod capacity.
  - The constructor requires a page size for which the rounding does not overflow, i.e. a positive capacity.
- RingBuffer.RingBuffer.constructor: `size*4` can overflow `unsigned` in `mmap`'s length. The model keeps the four copies unbounded.
- RingBuffer.RingBuffer.Discard: `offset += count` (src/ringbuffer.c:104) is computed in `unsigned`. It wraps when the capacity exceeds 2^31; the model computes it unbounded.
- RingBuffer.RingBuffer.ReadView: `size+rb->offset` (src/ringbuffer.c:90) is computed in `unsigned`. It wraps when the capacity exceeds 2^31; the model computes it unbounded.
- RingBuffer.RingBuffer.WriteView: `rb->size + rb->offset` (src/ringbuffer.c:112) is computed in `unsigned`. It wraps when the capacity exceeds 2^31; the model computes it unbounded.
- RingBuffer.RingBuffer.Commit: `ringbuffer_commit` compares against `const int size`. The model treats it as the same non-negative capacity and does not model an `int` overflow of `count + rb->size`.
- `include/ringbuffer.h` declares only the view types, which the `View` datatype mirrors.
- The `midi_message_s` string table is modelled as the sequence `MessageNames` built from the enum order. Its entries for the named meta tags above 0xA7 do not exist, because they are beyond `MIDI_MESSAGE_COUNT`.
- The unreachable guards in midi.c are not modelled as separate branches. These are `len < 2` in the meta branch (line 82) and `len < 1` in the payload case (line 126). The surrounding checks already exclude them.
- MidiParser.MidiEventParser.Parse: the C `data` pointer is modelled as an offset into the window. While in SKIP after the quirk, the cursor (the local `data`) can stand up to 4 bytes before the window (`Positioned`). An emitted event's offset is always positive (`Run`).
- MidiParserFacts.RunKeepsTags: the tag invariant is stated for successful calls only. After a failure in the meta branch, the state is EVENT_META with a stale `tmp`.
- MidiParserFacts.SplitStreamResumes: the split stream agrees with the whole one up to `tmp` where the state no longer reads it, not in every register. A SKIP that ends after the split leaves the remainder it had in the second call, and one call leaves the whole count (`SplitSkipLeavesOtherScratch`). Failures are compared with `tmp` aside as well.
- The skip quirk at src/midi.c:134-138 is modelled as written. A payload longer than 254 bytes moves the cursor back by the prefix length, so SKIP ends 2·(prefix length) bytes before the real end of the payload. One might expect such a message to consume exactly the prefix plus the declared length; the code does not, and the model does not prove it (`LongPayloadResumesEarly` states what the code does).
- The `main` driver of src/midi2trk.c is not modelled. It contains the `read` loop, the `EINTR` handling, the `fprintf` diagnostics and the mapping of note-on/note-off events onto `start_note`/`stop_note`.
- PendingNotes.NoteQueue.StopNote: `note_offset` is an unbounded `nat`. After 2^32 notes, the search bound `note_offset + note_count` in `unsigned` would wrap, and the model does not capture that.
- PendingNotes.NoteToken: `printf` formatting (`%-2s`, `%4u`, the newlines and the `notes_same_time` spacing choice between " " and "\n") is modelled as tokens, not characters. The duration is kept as its `unsigned` cast (mod 2^32).
- PendingNotes.DrainReplays: the read-back is proved for notes whose duration is below 2^32, where the printed `(unsigned)` duration is exact.
- PendingNotes.DrainReplays: the reader is the intended reading of the score, not the tracker of src/main.c. There `>>` runs `tracker_generate`, whose loop (src/main.c:289) ends once the generator list is empty, so `>> d` after every note has ended advances by less than d, or not at all. The tracker thus shortens rests; the lemma does not model that.
- All floating point in src/main.c is not modelled:
  - the waveforms `sg_sin`, `sg_triangle` and `sg_square`, and the waveform value returned by `tone_get_sample`;
  - intonation factors, `parse_time`, `state_set` and `tracker_generate`'s sample count;
  - the frequency and duration computation of `tracker_add_note`;
  - the amplitude envelope and sum in `tracker_generate_sample`;
  - the float branches of `write_sample`.

  A `Configure`, `Generate` or `AddNote` action records its arguments but does not interpret them.
- The statistics and `setattri`/`fsetxattr`, and every `write`, `fgets` and `fprintf` call, are not modelled. Standard input is a sequence of lines.
- CommandLine.ReadScript: `fgets` with a 256-byte buffer splits a line longer than 255 characters into several lines, each counted separately. The model takes lines as given.
- Generators.Tracker.GenerateSample: the list is a `seq` field that the method reassigns, not nodes relinked in place. `free` and pointer aliasing are not modelled.
- Generators.ClampInt32: only the clamp is modelled. The four `int32_t` values written by `write` (line 280) are not modelled.
- WavHeader.MonoInt32Header: `main` passes 48000 to the `uint16_t` parameter `sample_rate`. That fits, and the model takes the sample rate as `uint16`. Because `sample_rate` is `uint16_t`, the bytes `sample_rate>>16` and `sample_rate>>24` are always 0.

## Findings

| source | as written | input that shows it | evidently intended | confidence | as-written member | corrected member |
|---|---|---|---|---|---|---|
| src/main.c:412-414 | After the 32nd token, the inner `for` breaks without calling `strtok` again, so `pch` still points at that token. The `do … while(pch)` then starts the next command with the same token. | A line of 32 plain tokens, e.g. `n a b … ` with 32 words and no `>>` or `:`, produces the 32-token command and then a second command made of the 32nd token alone. | Each token belongs to exactly one command: the loop should advance past the 32nd token before breaking. | not executed | CommandLine.FullCommandRepeatsLastToken | CommandLine.LineCommandsCoverTokens |
| src/main.c:249-255 | `tracker_remove_generator(pit)` makes `*pit` the successor. The `for` step then moves `pit` to the successor's `next`, so the successor is neither visited nor ticked for that sample. | A list of an expired generator followed by a live one: after one sample, the live generator's `time` and phase are unchanged. | Every live generator is ticked once per sample, and every expired one is removed. | not executed | Generators.SuccessorOfExpiredIsSkipped | Generators.PassAllKeepsLive |
