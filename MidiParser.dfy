/**
 * The resumable MIDI event decoder of src/midi.c: a five-state machine that
 * decodes at most one event per call from a window of bytes and reports how
 * many bytes of the window it consumed.
 *
 * The window is a `seq<byte>`; the C pointer `data` and count `len` become a
 * cursor, the position of `data` in the window, with `len == |window| - cursor`.
 * An event's `data` pointer becomes the position `offset` in the same window.
 *
 * `ParseOutcome` is the decoder as a function of the persistent registers and
 * the window; `MidiEventParser.Parse` is the in-place decoder and is proved to
 * compute it.
 */
module MidiParser {
  import opened Ints
  import opened MidiMessages
  import opened MidiVlq

  /** `enum parser_state`. */
  datatype ParserState = Timing | EventType | EventSysex | Skip | EventMeta

  /** `struct midi_event`; `offset` is where its `data` points in the window of the call that produced it. */
  datatype MidiEvent = MidiEvent(kind: int, len: nat, offset: int, channel: Channel, time: uint64)

  /**
   * The fields of `struct midi_event_parser` that carry over from one call to the next.
   * `tmp` holds the pending tag in EventSysex and EventMeta and the bytes left to skip in Skip.
   */
  datatype Registers = Registers(time: uint64, tmp: uint32, state: ParserState, hasTiming: bool)

  /** What one pass of the decoding loop does. */
  datatype StepResult =
    | Continue(regs: Registers, cursor: int)                 // the loop goes on
    | Emit(regs: Registers, cursor: int, event: MidiEvent)    // an event was dispatched; the loop ends
    | Stop                                                    // `goto out`: the field is incomplete
    | Fail(regs: Registers)                                   // `return -1`

  /** What one call does: -1, or the number of bytes consumed and the event, if any. */
  datatype Outcome =
    | Failed(regs: Registers)
    | Consumed(regs: Registers, count: int, event: Option<MidiEvent>)

  /** Longest payload emitted as an event; longer sysex and meta payloads are skipped. */
  const InlineLimit: int := 254
  /** Bound on the scan for the end of a system common or real-time message. */
  const ScanLimit: int := 32

  /**
   * Where the cursor may be. Outside Skip it lies in the window. In Skip it may
   * stand up to four bytes before the window (the length prefix is stepped back
   * over), but never so far that the bytes left to skip would end before the window.
   */
  ghost predicate Positioned(regs: Registers, w: seq<byte>, cursor: int) {
    && cursor <= |w|
    && if regs.state == Skip then -4 <= cursor && 0 <= cursor + regs.tmp else 0 <= cursor
  }

  function Min(a: int, b: int): int {
    if a < b then a else b
  }

  /** How far decoding has got: in Skip, the position where skipping will end (capped at the window's end). */
  function Progress(regs: Registers, w: seq<byte>, cursor: int): int {
    if regs.state == Skip then Min(cursor + regs.tmp, |w|) else cursor
  }

  /** Order of the states that can follow each other without consuming a byte. */
  function Rank(s: ParserState): nat {
    match s
    case EventType => 0
    case Timing => 1
    case Skip => 2
    case EventSysex => 3
    case EventMeta => 3
  }

  /** `(r, c)` is strictly closer to the end of decoding than `(regs, cursor)`. */
  ghost predicate Closer(r: Registers, c: int, regs: Registers, cursor: int, w: seq<byte>) {
    var p, p0 := |w| - Progress(r, w, c), |w| - Progress(regs, w, cursor);
    p < p0 || (p == p0 && (Rank(r.state) < Rank(regs.state) || (Rank(r.state) == Rank(regs.state) && |w| - c < |w| - cursor)))
  }

  /**
   * The position, relative to `cursor`, of the first byte in `[i, l)` with its
   * high bit set, or `l` if there is none: the scan for the end of a system message.
   */
  function ScanEnd(w: seq<byte>, cursor: int, i: int, l: int): (e: int)
    requires 0 <= cursor && 1 <= i <= l && cursor + l <= |w|
    ensures i <= e <= l
    ensures e < l ==> w[cursor + e] >= 0x80
    ensures forall j :: cursor + i <= j < cursor + e ==> w[j] < 0x80
    decreases l - i
  {
    if i == l || w[cursor + i] >= 0x80 then i else ScanEnd(w, cursor, i + 1, l)
  }

  /** A channel message: status `0x8n` .. `0xEn`. */
  function ChannelMessage(regs: Registers, w: seq<byte>, cursor: int): (r: StepResult)
    requires 0 <= cursor && cursor + 2 <= |w| && 0x80 <= w[cursor] < 0xF0
    ensures !r.Continue?
    ensures r.Emit? ==>
      && cursor < r.cursor <= |w| && r.regs == regs.(state := Timing) && r.event.time == regs.time
      && cursor < r.event.offset && r.event.offset + r.event.len <= r.cursor
    ensures r.Fail? ==> r.regs == regs
  {
    var status := w[cursor];
    var message := status / 0x10 % 8 + NoteOffEvent;
    var needed := if message == ProgramChange || message == ChannelPressure then 2 else 3;
    if needed > |w| - cursor then Stop
    else if message == ControlChange then
      var controller := w[cursor + 1];
      if controller >= 0x80 then Fail(regs)
      else Emit(regs.(state := Timing), cursor + needed, MidiEvent(controller, 1, cursor + 2, ChannelOf(status % 0x10), regs.time))
    else
      Emit(regs.(state := Timing), cursor + needed, MidiEvent(message, needed - 1, cursor + 1, ChannelOf(status % 0x10), regs.time))
  }

  /** A system common or real-time message: no length field, the payload runs to the next status byte. */
  function SystemMessage(regs: Registers, w: seq<byte>, cursor: int, eof: bool): (r: StepResult)
    requires 0 <= cursor && cursor + 2 <= |w| && 0xF0 <= w[cursor]
    ensures !r.Continue?
    ensures r.Emit? ==>
      && cursor < r.cursor <= |w| && r.regs == regs.(state := Timing) && r.event.time == regs.time
      && cursor < r.event.offset && r.event.offset + r.event.len <= r.cursor
    ensures r.Fail? ==> r.regs == regs
  {
    var len := |w| - cursor;
    var e := ScanEnd(w, cursor, 1, Min(len, ScanLimit));
    if e == ScanLimit then Fail(regs)
    else if e == len && !eof then Stop
    else Emit(regs.(state := Timing), cursor + e, MidiEvent(w[cursor] % 0x10 + SystemExclusive, e - 1, cursor + 1, ChannelNone, regs.time))
  }

  /** One pass of the loop of `midi_event_parser_parse`, at `cursor` with `len == |w| - cursor > 0`. */
  function Step(regs: Registers, w: seq<byte>, cursor: int, eof: bool): (r: StepResult)
    requires Positioned(regs, w, cursor) && cursor < |w|
    ensures r.Continue? ==>
      && Positioned(r.regs, w, r.cursor) && r.regs.hasTiming == regs.hasTiming
      && Closer(r.regs, r.cursor, regs, cursor, w)
    ensures r.Emit? ==>
      && cursor < r.cursor <= |w| && 0 <= cursor && r.regs.hasTiming == regs.hasTiming
      && r.regs.state == Timing && r.event.time == regs.time
      && cursor < r.event.offset && r.event.offset + r.event.len <= r.cursor
    ensures r.Fail? ==> r.regs.hasTiming == regs.hasTiming
    ensures r.Stop? ==> regs.state != Skip
  {
    var len := |w| - cursor;
    match regs.state
    case Timing =>
      if regs.hasTiming then
        match DecodeVlq(w[cursor..])
        case Overlong => Fail(regs)
        case NeedMore => Stop
        case Decoded(n, v) => Continue(regs.(time := Add64(regs.time, v), state := EventType), cursor + n)
      else
        Continue(regs.(state := EventType), cursor)
    case EventType =>
      if len <= 1 then Stop
      else
        var status := w[cursor];
        if status < 0x80 then Fail(regs)
        else if status == 0xF7 || status == 0xF0 then
          Continue(regs.(state := EventSysex, tmp := if status == 0xF0 then SystemExclusive else EndOfExclusive), cursor + 1)
        else if status == 0xFF && regs.hasTiming then
          // the state is switched before the type byte is checked
          if w[cursor + 1] >= 0x80 then Fail(regs.(state := EventMeta))
          else Continue(regs.(state := EventMeta, tmp := w[cursor + 1] + MetaBase), cursor + 2)
        else if status < 0xF0 then ChannelMessage(regs, w, cursor)
        else SystemMessage(regs, w, cursor, eof)
    case EventSysex => Payload(regs, w, cursor)
    case EventMeta => Payload(regs, w, cursor)
    case Skip =>
      if len < regs.tmp then Continue(regs.(tmp := regs.tmp - len), |w|)
      else Continue(regs.(state := Timing), cursor + regs.tmp)
  }

  /**
   * The length prefix and payload of a sysex or meta event. A payload longer than
   * `InlineLimit` is skipped, and the cursor is moved back over the prefix before
   * skipping starts (`len += vlen; data -= vlen`).
   */
  function Payload(regs: Registers, w: seq<byte>, cursor: int): (r: StepResult)
    requires 0 <= cursor < |w| && (regs.state == EventSysex || regs.state == EventMeta)
    ensures r.Continue? ==>
      && Positioned(r.regs, w, r.cursor) && r.regs.hasTiming == regs.hasTiming
      && Closer(r.regs, r.cursor, regs, cursor, w)
    ensures r.Emit? ==>
      && cursor < r.cursor <= |w| && r.regs == regs.(state := Timing) && r.event.time == regs.time
      && cursor < r.event.offset && r.event.offset + r.event.len <= r.cursor
    ensures r.Fail? ==> r.regs == regs
  {
    match DecodeVlq(w[cursor..])
    case Overlong => Fail(regs)
    case NeedMore => Stop
    case Decoded(n, dlen) =>
      if dlen > InlineLimit then Continue(regs.(state := Skip, tmp := dlen), cursor - n)
      else if |w| - cursor - n < dlen then Stop
      else Emit(regs.(state := Timing), cursor + n + dlen, MidiEvent(regs.tmp, dlen, cursor + n, ChannelNone, regs.time))
  }

  /** The loop of `midi_event_parser_parse` from `cursor` on, until the window is used up, an event is emitted, input runs short or decoding fails. */
  function Run(regs: Registers, w: seq<byte>, cursor: int, eof: bool): (o: Outcome)
    requires Positioned(regs, w, cursor)
    ensures o.regs.hasTiming == regs.hasTiming
    ensures o.Consumed? ==> 0 <= o.count <= |w|
    ensures o.Consumed? && o.event.Some? ==>
      && o.regs.state == Timing
      && 0 < o.event.value.offset && o.event.value.offset + o.event.value.len <= o.count
    decreases |w| - Progress(regs, w, cursor), Rank(regs.state), |w| - cursor, 1
  {
    if cursor == |w| then Consumed(regs, cursor, None)
    else After(Step(regs, w, cursor, eof), regs, w, cursor, eof)
  }

  /** What the loop does after the pass `s` made at `cursor`. */
  function After(s: StepResult, regs: Registers, w: seq<byte>, cursor: int, eof: bool): (o: Outcome)
    requires Positioned(regs, w, cursor) && cursor < |w| && s == Step(regs, w, cursor, eof)
    ensures o.regs.hasTiming == regs.hasTiming
    ensures o.Consumed? ==> 0 <= o.count <= |w|
    ensures o.Consumed? && o.event.Some? ==>
      && o.regs.state == Timing
      && 0 < o.event.value.offset && o.event.value.offset + o.event.value.len <= o.count
    decreases |w| - Progress(regs, w, cursor), Rank(regs.state), |w| - cursor, 0
  {
    match s
    case Continue(r, c) => Run(r, w, c, eof)
    case Emit(r, c, ev) => Consumed(r, c, Some(ev))
    case Stop => Consumed(regs, cursor, None)
    case Fail(r) => Failed(r)
  }

  /** `midi_event_parser_parse` on a whole window. */
  function ParseOutcome(regs: Registers, w: seq<byte>, eof: bool): (o: Outcome)
    ensures o.regs.hasTiming == regs.hasTiming
    ensures o.Consumed? ==> 0 <= o.count <= |w|
  {
    Run(regs, w, 0, eof)
  }

  /** `struct midi_event_parser`. */
  class MidiEventParser {
    var time: uint64
    var tmp: uint32
    var state: ParserState
    var hasTiming: bool
    var event: MidiEvent
    var gotEvent: bool

    function Regs(): Registers
      reads this
    {
      Registers(time, tmp, state, hasTiming)
    }

    /** A zero-initialised parser, as `struct midi_event_parser p = { .has_timing = ... }`. */
    constructor (hasTiming: bool)
      ensures Regs() == Registers(0, 0, Timing, hasTiming) && !gotEvent
    {
      this.time := 0;
      this.tmp := 0;
      this.state := Timing;
      this.hasTiming := hasTiming;
      this.event := MidiEvent(0, 0, 0, ChannelNone, 0);
      this.gotEvent := false;
    }

    /** `dispatch_midi_event`: records the event, stamped with the accumulated time, and raises `got_event`. */
    method Dispatch(kind: int, len: nat, offset: int, channel: Channel)
      modifies this
      ensures Regs() == old(Regs())
      ensures event == MidiEvent(kind, len, offset, channel, time) && gotEvent
    {
      event := MidiEvent(kind, len, offset, channel, time);
      gotEvent := true;
    }

    /**
     * The parser after one pass of the loop agrees with step `s` of the
     * specification, taken from registers `before` at `cursor`: `status` is -1
     * for `return -1`, 0 for `goto out` and 1 when the loop goes on; `next` is
     * the new cursor and `gotNext` says whether an event was dispatched.
     */
    ghost predicate Took(s: StepResult, before: Registers, oldEvent: MidiEvent, cursor: int, next: int, gotNext: bool, status: int)
      reads this
    {
      match s
      case Fail(r) => status == -1 && Regs() == r && !gotEvent && event == oldEvent
      case Stop => status == 0 && next == cursor && Regs() == before && !gotEvent && event == oldEvent
      case Continue(r, c) => status == 1 && !gotNext && Regs() == r && next == c && !gotEvent && event == oldEvent
      case Emit(r, c, ev) => status == 1 && gotNext && Regs() == r && next == c && gotEvent && event == ev
    }

    /**
     * `midi_event_parser_parse`: returns -1 or the number of bytes consumed,
     * leaves the registers as `ParseOutcome` says, and raises `gotEvent` exactly
     * when an event was dispatched.
     */
    method Parse(data: seq<byte>, eof: bool) returns (r: int)
      modifies this
      ensures var o := ParseOutcome(old(Regs()), data, eof);
        && Regs() == o.regs
        && (o.Failed? ==> r == -1 && !gotEvent && event == old(event))
        && (o.Consumed? ==> r == o.count && gotEvent == o.event.Some?
                            && event == if o.event.Some? then o.event.value else old(event))
    {
      gotEvent := false;
      var cursor: int := 0;
      var gotNext := false;
      while cursor != |data| && !gotNext
        invariant Positioned(Regs(), data, cursor)
        invariant gotNext ==> ParseOutcome(old(Regs()), data, eof) == Consumed(Regs(), cursor, Some(event)) && gotEvent
        invariant !gotNext ==> Run(Regs(), data, cursor, eof) == ParseOutcome(old(Regs()), data, eof) && !gotEvent && event == old(event)
        decreases if gotNext then 0 else 1, |data| - Progress(Regs(), data, cursor), Rank(state), |data| - cursor
      {
        var status;
        cursor, gotNext, status := ParseStep(data, cursor, eof);
        if status == -1 {
          return -1;
        }
        if status == 0 {
          break;
        }
      }
      r := cursor;
    }

    /** One pass of the loop: the `switch` on the parser state. */
    method ParseStep(data: seq<byte>, cursor: int, eof: bool) returns (next: int, gotNext: bool, status: int)
      requires Positioned(Regs(), data, cursor) && cursor < |data| && !gotEvent
      modifies this
      ensures Took(Step(old(Regs()), data, cursor, eof), old(Regs()), old(event), cursor, next, gotNext, status)
    {
      match state
      case Timing =>
        next, gotNext, status := ParseTiming(data, cursor);
      case EventType =>
        next, gotNext, status := ParseEventType(data, cursor, eof);
      case EventSysex =>
        next, gotNext, status := ParsePayload(data, cursor);
      case EventMeta =>
        next, gotNext, status := ParsePayload(data, cursor);
      case Skip =>
        next, gotNext, status := ParseSkip(data, cursor);
    }

    /** The `PS_TIMING` case: the delta time, if the stream carries one, is added to the clock. */
    method ParseTiming(data: seq<byte>, cursor: int) returns (next: int, gotNext: bool, status: int)
      requires 0 <= cursor < |data| && state == Timing && !gotEvent
      modifies this
      ensures Took(Step(old(Regs()), data, cursor, false), old(Regs()), old(event), cursor, next, gotNext, status)
    {
      next, gotNext, status := cursor, false, 1;
      if hasTiming {
        var vlen, timing := ParseVariableLengthQuantity(data[cursor..]);
        if vlen == -1 {
          return next, gotNext, -1;
        }
        if vlen == 0 {
          return next, gotNext, 0;
        }
        time := Add64(time, timing);
        next := cursor + vlen;
      }
      state := EventType;
    }

    /** The `PS_EVENT_TYPE` case: the status byte selects the kind of event. */
    method ParseEventType(data: seq<byte>, cursor: int, eof: bool) returns (next: int, gotNext: bool, status: int)
      requires 0 <= cursor < |data| && state == EventType && !gotEvent
      modifies this
      ensures Took(Step(old(Regs()), data, cursor, eof), old(Regs()), old(event), cursor, next, gotNext, status)
    {
      next, gotNext, status := cursor, false, 1;
      if |data| - cursor <= 1 {
        return next, gotNext, 0;
      }
      var t := data[cursor];
      if t < 0x80 {
        return next, gotNext, -1;
      }
      if t == 0xF7 || t == 0xF0 {
        state := EventSysex;
        tmp := if t == 0xF0 then SystemExclusive else EndOfExclusive;
        next := cursor + 1;
      } else if t == 0xFF && hasTiming {
        state := EventMeta;
        if data[cursor + 1] >= 0x80 {
          return next, gotNext, -1;
        }
        tmp := data[cursor + 1] + MetaBase;
        next := cursor + 2;
      } else if t < 0xF0 {
        next, gotNext, status := ParseChannelMessage(data, cursor);
      } else {
        next, gotNext, status := ParseSystemMessage(data, cursor, eof);
      }
    }

    /** A channel message: two or three bytes, the channel in the low nibble of the status byte. */
    method ParseChannelMessage(data: seq<byte>, cursor: int) returns (next: int, gotNext: bool, status: int)
      requires 0 <= cursor && cursor + 2 <= |data| && 0x80 <= data[cursor] < 0xF0 && !gotEvent
      modifies this
      ensures Took(ChannelMessage(old(Regs()), data, cursor), old(Regs()), old(event), cursor, next, gotNext, status)
    {
      next, gotNext, status := cursor, false, 1;
      var t := data[cursor];
      var channel := t % 0x10;
      var message := t / 0x10 % 8 + NoteOffEvent;
      var needed := if message == ProgramChange || message == ChannelPressure then 2 else 3;
      if needed > |data| - cursor {
        return next, gotNext, 0;
      }
      if message == ControlChange {
        message := data[cursor + 1];
        if message >= 0x80 {
          return next, gotNext, -1;
        }
        Dispatch(message, 1, cursor + 2, ChannelOf(channel));
      } else {
        Dispatch(message, needed - 1, cursor + 1, ChannelOf(channel));
      }
      gotNext := true;
      next := cursor + needed;
      state := Timing;
    }

    /** A system common or real-time message: the payload runs up to the next byte with its high bit set. */
    method ParseSystemMessage(data: seq<byte>, cursor: int, eof: bool) returns (next: int, gotNext: bool, status: int)
      requires 0 <= cursor && cursor + 2 <= |data| && 0xF0 <= data[cursor] && !gotEvent
      modifies this
      ensures Took(SystemMessage(old(Regs()), data, cursor, eof), old(Regs()), old(event), cursor, next, gotNext, status)
    {
      next, gotNext, status := cursor, false, 1;
      var len := |data| - cursor;
      var message := data[cursor] % 0x10 + SystemExclusive;
      var l := if len < ScanLimit then len else ScanLimit;
      var i := 1;
      while i < l && data[cursor + i] < 0x80
        invariant 1 <= i <= l
        invariant ScanEnd(data, cursor, i, l) == ScanEnd(data, cursor, 1, l)
      {
        i := i + 1;
      }
      if i == ScanLimit {
        return next, gotNext, -1;
      }
      if i == len && !eof {
        return next, gotNext, 0;
      }
      Dispatch(message, i - 1, cursor + 1, ChannelNone);
      gotNext := true;
      next := cursor + i;
      state := Timing;
    }

    /** The shared `PS_EVENT_META` / `PS_EVENT_SYSEX` case: a length prefix, then the payload or the start of a skip. */
    method ParsePayload(data: seq<byte>, cursor: int) returns (next: int, gotNext: bool, status: int)
      requires 0 <= cursor < |data| && (state == EventSysex || state == EventMeta) && !gotEvent
      modifies this
      ensures Took(Payload(old(Regs()), data, cursor), old(Regs()), old(event), cursor, next, gotNext, status)
    {
      next, gotNext, status := cursor, false, 1;
      var vlen, dlen := ParseVariableLengthQuantity(data[cursor..]);
      if vlen == -1 {
        return next, gotNext, -1;
      }
      if vlen == 0 {
        return next, gotNext, 0;
      }
      if dlen > InlineLimit {
        state := Skip;
        next := cursor - vlen;
        tmp := dlen;
      } else {
        if |data| - cursor - vlen < dlen {
          return next, gotNext, 0;
        }
        next := cursor + vlen;
        Dispatch(tmp, dlen, next, ChannelNone);
        gotNext := true;
        next := next + dlen;
        state := Timing;
      }
    }

    /** The `PS_SKIP` case: drops bytes until the count left in `tmp` is used up. */
    method ParseSkip(data: seq<byte>, cursor: int) returns (next: int, gotNext: bool, status: int)
      requires Positioned(Regs(), data, cursor) && cursor < |data| && state == Skip && !gotEvent
      modifies this
      ensures Took(Step(old(Regs()), data, cursor, false), old(Regs()), old(event), cursor, next, gotNext, status)
    {
      next, gotNext, status := cursor, false, 1;
      var len := |data| - cursor;
      if len < tmp {
        tmp := tmp - len;
        next := |data|;
      } else {
        next := cursor + tmp;
        state := Timing;
      }
    }
  }
}
