/**
 * What `midi_event_parser_parse` promises, stated about the decoder function
 * `Run` (and through `MidiEventParser.Parse`, about the in-place decoder).
 */
module MidiParserFacts {
  import opened Ints
  import opened MidiMessages
  import opened MidiVlq
  import opened MidiParser

  /** A parser as the program declares it: every register zero, waiting for a delta time. */
  function Fresh(hasTiming: bool): Registers {
    Registers(0, 0, Timing, hasTiming)
  }

  /** A call before the end of the window is its first pass followed by the rest of the call. */
  lemma RunStep(regs: Registers, w: seq<byte>, c: int, eof: bool)
    requires Positioned(regs, w, c) && c < |w|
    ensures var s := Step(regs, w, c, eof);
      && (s.Continue? ==> Run(regs, w, c, eof) == Run(s.regs, w, s.cursor, eof))
      && (s.Emit? ==> Run(regs, w, c, eof) == Consumed(s.regs, s.cursor, Some(s.event)))
      && (s.Stop? ==> Run(regs, w, c, eof) == Consumed(regs, c, None))
      && (s.Fail? ==> Run(regs, w, c, eof) == Failed(s.regs))
  {
  }

  /** A pass that continues with `next` at `d` hands the rest of the call to it. */
  lemma RunContinues(regs: Registers, w: seq<byte>, c: int, eof: bool, next: Registers, d: int)
    requires Positioned(regs, w, c) && c < |w| && Step(regs, w, c, eof) == Continue(next, d)
    ensures Positioned(next, w, d) && Run(regs, w, c, eof) == Run(next, w, d, eof)
  {
  }

  // ---------------------------------------------------------------- failures

  /** A byte where a status byte is expected that lacks its high bit makes the call fail. */
  lemma StatusWithoutHighBitFails(regs: Registers, w: seq<byte>, c: int, eof: bool)
    requires regs.state == EventType && 0 <= c && c + 2 <= |w| && w[c] < 0x80
    ensures Run(regs, w, c, eof) == Failed(regs)
  {
    assert Step(regs, w, c, eof) == Fail(regs);
    RunStep(regs, w, c, eof);
  }

  /** `0xFF` followed by a meta type byte with its high bit set fails, after the state was switched to EventMeta. */
  lemma MetaTypeWithHighBitFails(regs: Registers, w: seq<byte>, c: int, eof: bool)
    requires regs.state == EventType && regs.hasTiming && 0 <= c && c + 2 <= |w|
    requires w[c] == 0xFF && w[c + 1] >= 0x80
    ensures Run(regs, w, c, eof) == Failed(regs.(state := EventMeta))
  {
    assert Step(regs, w, c, eof) == Fail(regs.(state := EventMeta));
    RunStep(regs, w, c, eof);
  }

  /** A control change whose controller byte has its high bit set fails. */
  lemma ControllerWithHighBitFails(regs: Registers, w: seq<byte>, c: int, eof: bool)
    requires regs.state == EventType && 0 <= c && c + 3 <= |w|
    requires 0xB0 <= w[c] < 0xC0 && w[c + 1] >= 0x80
    ensures Run(regs, w, c, eof) == Failed(regs)
  {
    assert Step(regs, w, c, eof) == ChannelMessage(regs, w, c) == Fail(regs);
    RunStep(regs, w, c, eof);
  }

  /** The status-byte causes of failure, at `c` with at least two bytes left. */
  ghost predicate BadStatus(regs: Registers, w: seq<byte>, c: int)
    requires 0 <= c && c + 2 <= |w|
  {
    || w[c] < 0x80
    || (w[c] == 0xFF && regs.hasTiming && w[c + 1] >= 0x80)
    || (0xB0 <= w[c] < 0xC0 && c + 3 <= |w| && w[c + 1] >= 0x80)
    || (0xF0 < w[c] && w[c] != 0xF7 && !(w[c] == 0xFF && regs.hasTiming)
        && c + ScanLimit <= |w| && forall j :: c + 1 <= j < c + ScanLimit ==> w[j] < 0x80)
  }

  /**
   * A single pass fails exactly for: an overlong delta time or length prefix, a
   * status byte without its high bit, a meta type or controller byte with its high
   * bit set, or a system message with no status byte among its next 31 bytes.
   */
  lemma StepFailsExactly(regs: Registers, w: seq<byte>, c: int, eof: bool)
    requires Positioned(regs, w, c) && c < |w|
    ensures Step(regs, w, c, eof).Fail? <==>
      || (regs.state == Timing && regs.hasTiming && DecodeVlq(w[c..]).Overlong?)
      || ((regs.state == EventSysex || regs.state == EventMeta) && DecodeVlq(w[c..]).Overlong?)
      || (regs.state == EventType && c + 2 <= |w| && BadStatus(regs, w, c))
  {
    if regs.state == EventType && c + 2 <= |w| && 0xF0 < w[c] && w[c] != 0xF7 && !(w[c] == 0xFF && regs.hasTiming) {
      var l := Min(|w| - c, ScanLimit);
      var e := ScanEnd(w, c, 1, l);
      if c + ScanLimit <= |w| && forall j :: c + 1 <= j < c + ScanLimit ==> w[j] < 0x80 {
        assert e == ScanLimit;
      }
    }
  }

  // ---------------------------------------------------------------- channel messages

  /**
   * A complete channel message is emitted at once: the tag is the voice message
   * named by the status nibble (the controller number for a control change),
   * the channel is the low nibble plus one, and the payload is the data bytes.
   */
  lemma ChannelMessageEmitted(regs: Registers, w: seq<byte>, c: int, eof: bool)
    requires regs.state == EventType && 0 <= c && c + 2 <= |w| && 0x80 <= w[c] < 0xF0
    requires var needed := if 0xC0 <= w[c] < 0xE0 then 2 else 3; c + needed <= |w|
    requires 0xB0 <= w[c] < 0xC0 ==> w[c + 1] < 0x80
    ensures var needed := if 0xC0 <= w[c] < 0xE0 then 2 else 3;
      var ev := if 0xB0 <= w[c] < 0xC0
        then MidiEvent(w[c + 1], 1, c + 2, w[c] % 0x10 + 1, regs.time)
        else MidiEvent(NoteOffEvent + (w[c] / 0x10 - 8), needed - 1, c + 1, w[c] % 0x10 + 1, regs.time);
      Run(regs, w, c, eof) == Consumed(regs.(state := Timing), c + needed, Some(ev))
  {
    ChannelMessageStep(regs, w, c, eof);
    RunStep(regs, w, c, eof);
  }

  lemma ChannelMessageStep(regs: Registers, w: seq<byte>, c: int, eof: bool)
    requires regs.state == EventType && 0 <= c && c + 2 <= |w| && 0x80 <= w[c] < 0xF0
    requires var needed := if 0xC0 <= w[c] < 0xE0 then 2 else 3; c + needed <= |w|
    requires 0xB0 <= w[c] < 0xC0 ==> w[c + 1] < 0x80
    ensures var needed := if 0xC0 <= w[c] < 0xE0 then 2 else 3;
      var ev := if 0xB0 <= w[c] < 0xC0
        then MidiEvent(w[c + 1], 1, c + 2, w[c] % 0x10 + 1, regs.time)
        else MidiEvent(NoteOffEvent + (w[c] / 0x10 - 8), needed - 1, c + 1, w[c] % 0x10 + 1, regs.time);
      Step(regs, w, c, eof) == Emit(regs.(state := Timing), c + needed, ev)
  {
    assert Step(regs, w, c, eof) == ChannelMessage(regs, w, c);
  }

  /** A channel message that does not fit in what is left of the window is left for the next call, state and all. */
  lemma ShortChannelMessageWaits(regs: Registers, w: seq<byte>, c: int, eof: bool)
    requires regs.state == EventType && 0 <= c && c + 2 <= |w| && 0x80 <= w[c] < 0xF0
    requires c + (if 0xC0 <= w[c] < 0xE0 then 2 else 3) > |w|
    ensures Run(regs, w, c, eof) == Consumed(regs, c, None)
  {
    assert Step(regs, w, c, eof) == ChannelMessage(regs, w, c) == Stop;
    RunStep(regs, w, c, eof);
  }

  /** A status byte with nothing after it is left for the next call, even a one-byte real-time message. */
  lemma LoneStatusByteWaits(regs: Registers, w: seq<byte>, eof: bool)
    requires regs.state == EventType && |w| == 1
    ensures Run(regs, w, 0, eof) == Consumed(regs, 0, None)
  {
    assert Step(regs, w, 0, eof) == Stop;
    RunStep(regs, w, 0, eof);
  }

  // ---------------------------------------------------------------- sysex and meta

  /** `0xF0` and `0xF7` start a sysex event with pending tag SystemExclusive or EndOfExclusive. */
  lemma SysexStatusSetsTag(regs: Registers, w: seq<byte>, c: int, eof: bool)
    requires regs.state == EventType && 0 <= c && c + 2 <= |w| && (w[c] == 0xF0 || w[c] == 0xF7)
    ensures var tag := if w[c] == 0xF0 then SystemExclusive else EndOfExclusive;
      Run(regs, w, c, eof) == Run(regs.(state := EventSysex, tmp := tag), w, c + 1, eof)
  {
    SysexStatusStep(regs, w, c, eof);
    RunStep(regs, w, c, eof);
  }

  lemma SysexStatusStep(regs: Registers, w: seq<byte>, c: int, eof: bool)
    requires regs.state == EventType && 0 <= c && c + 2 <= |w| && (w[c] == 0xF0 || w[c] == 0xF7)
    ensures var tag := if w[c] == 0xF0 then SystemExclusive else EndOfExclusive;
      Step(regs, w, c, eof) == Continue(regs.(state := EventSysex, tmp := tag), c + 1)
  {
  }

  /** `0xFF b` in a timed stream starts a meta event whose pending tag is MetaBase + b. */
  lemma MetaStatusSetsTag(regs: Registers, w: seq<byte>, c: int, eof: bool)
    requires regs.state == EventType && regs.hasTiming && 0 <= c && c + 2 <= |w| && w[c] == 0xFF && w[c + 1] < 0x80
    ensures Run(regs, w, c, eof) == Run(regs.(state := EventMeta, tmp := MetaTag(w[c + 1])), w, c + 2, eof)
  {
    MetaStatusStep(regs, w, c, eof);
    RunStep(regs, w, c, eof);
  }

  lemma MetaStatusStep(regs: Registers, w: seq<byte>, c: int, eof: bool)
    requires regs.state == EventType && regs.hasTiming && 0 <= c && c + 2 <= |w| && w[c] == 0xFF && w[c + 1] < 0x80
    ensures Step(regs, w, c, eof) == Continue(regs.(state := EventMeta, tmp := MetaTag(w[c + 1])), c + 2)
  {
  }

  /** A payload of at most `InlineLimit` bytes that is all present is emitted as one event right after its length prefix. */
  lemma ShortPayloadEmitted(regs: Registers, w: seq<byte>, c: int, eof: bool)
    requires (regs.state == EventSysex || regs.state == EventMeta) && 0 <= c < |w|
    requires var v := DecodeVlq(w[c..]); v.Decoded? && v.value <= InlineLimit && c + v.count + v.value <= |w|
    ensures var v := DecodeVlq(w[c..]);
      Run(regs, w, c, eof) == Consumed(regs.(state := Timing), c + v.count + v.value,
                                        Some(MidiEvent(regs.tmp, v.value, c + v.count, ChannelNone, regs.time)))
  {
    assert Step(regs, w, c, eof) == Payload(regs, w, c);
    RunStep(regs, w, c, eof);
  }

  /**
   * A whole meta event with a one-byte length in a timed stream: `0xFF`, the
   * type, the length and the payload give one event tagged MetaBase + type.
   */
  lemma ShortMetaEventEmitted(regs: Registers, w: seq<byte>, c: int, eof: bool)
    requires regs.state == EventType && regs.hasTiming && 0 <= c && c + 3 <= |w|
    requires w[c] == 0xFF && w[c + 1] < 0x80 && w[c + 2] < 0x80 && c + 3 + w[c + 2] <= |w|
    ensures Run(regs, w, c, eof)
         == Consumed(regs.(state := Timing, tmp := MetaTag(w[c + 1])), c + 3 + w[c + 2],
                     Some(MidiEvent(MetaTag(w[c + 1]), w[c + 2], c + 3, ChannelNone, regs.time)))
  {
    var meta := regs.(state := EventMeta, tmp := MetaTag(w[c + 1]));
    MetaStatusSetsTag(regs, w, c, eof);
    OneByteVlq(w, c + 2);
    ShortPayloadEmitted(meta, w, c + 2, eof);
  }

  /** A length below `0x80` is one byte long and stands for itself. */
  lemma OneByteVlq(w: seq<byte>, c: int)
    requires 0 <= c < |w| && w[c] < 0x80
    ensures DecodeVlq(w[c..]) == Decoded(1, w[c])
  {
    var rest := w[c..];
    assert rest[..1] == [w[c]];
    assert Septets([w[c]]) == Septets([]) * 0x80 + w[c] % 0x80;
    DecodeVlqAt(rest, 1);
  }

  /** A payload of at most `InlineLimit` bytes that is not all present yet is left for the next call, prefix included. */
  lemma IncompletePayloadWaits(regs: Registers, w: seq<byte>, c: int, eof: bool)
    requires (regs.state == EventSysex || regs.state == EventMeta) && 0 <= c < |w|
    requires var v := DecodeVlq(w[c..]); v.NeedMore? || (v.Decoded? && v.value <= InlineLimit && c + v.count + v.value > |w|)
    ensures Run(regs, w, c, eof) == Consumed(regs, c, None)
  {
    assert Step(regs, w, c, eof) == Payload(regs, w, c) == Stop;
    RunStep(regs, w, c, eof);
  }

  /** A payload longer than `InlineLimit` emits nothing: the decoder starts skipping `dlen` bytes from the start of the prefix. */
  lemma LongPayloadSkipped(regs: Registers, w: seq<byte>, c: int, eof: bool)
    requires (regs.state == EventSysex || regs.state == EventMeta) && 0 <= c < |w|
    requires var v := DecodeVlq(w[c..]); v.Decoded? && v.value > InlineLimit
    ensures var v := DecodeVlq(w[c..]);
      Run(regs, w, c, eof) == Run(regs.(state := Skip, tmp := v.value), w, c - v.count, eof)
  {
    var v := DecodeVlq(w[c..]);
    LongPayloadStep(regs, w, c, eof);
    RunContinues(regs, w, c, eof, regs.(state := Skip, tmp := v.value), c - v.count);
  }

  lemma LongPayloadStep(regs: Registers, w: seq<byte>, c: int, eof: bool)
    requires (regs.state == EventSysex || regs.state == EventMeta) && 0 <= c < |w|
    requires var v := DecodeVlq(w[c..]); v.Decoded? && v.value > InlineLimit
    ensures var v := DecodeVlq(w[c..]);
      Step(regs, w, c, eof) == Continue(regs.(state := Skip, tmp := v.value), c - v.count)
  {
    assert Step(regs, w, c, eof) == Payload(regs, w, c);
  }

  /**
   * Because skipping starts at the length prefix instead of after it, decoding
   * of a long payload that is all in the window resumes `2 * count` bytes before
   * the payload's end, in the Timing state.
   */
  lemma LongPayloadResumesEarly(regs: Registers, w: seq<byte>, c: int, eof: bool, n: nat, len: nat)
    requires (regs.state == EventSysex || regs.state == EventMeta) && 0 <= c < |w|
    requires DecodeVlq(w[c..]) == Decoded(n, len) && len > InlineLimit && c + n + len <= |w|
    ensures c + len - n < c + n + len
    ensures Run(regs, w, c, eof) == Run(regs.(state := Timing, tmp := len), w, c + len - n, eof)
  {
    var skip := regs.(state := Skip, tmp := len);
    assert skip.(state := Timing) == regs.(state := Timing, tmp := len);
    LongPayloadStep(regs, w, c, eof);
    RunContinues(regs, w, c, eof, skip, c - n);
    SkipEndsInWindow(skip, w, c - n, eof);
  }



  /** A skip that ends inside the window hands over to a delta time where it ends. */
  lemma SkipEndsInWindow(regs: Registers, w: seq<byte>, c: int, eof: bool)
    requires regs.state == Skip && Positioned(regs, w, c) && c < |w| && regs.tmp <= |w| - c
    ensures Run(regs, w, c, eof) == Run(regs.(state := Timing), w, c + regs.tmp, eof)
  {
    SkipEndsStep(regs, w, c, eof);
    RunContinues(regs, w, c, eof, regs.(state := Timing), c + regs.tmp);
  }


  /** A skip that outlasts the window consumes all of it and carries the rest of the count to the next call. */
  lemma SkipOutlastsWindow(regs: Registers, w: seq<byte>, c: int, eof: bool)
    requires regs.state == Skip && Positioned(regs, w, c) && c < |w| && |w| - c < regs.tmp
    ensures Run(regs, w, c, eof) == Consumed(regs.(tmp := regs.tmp - (|w| - c)), |w|, None)
  {
    assert Step(regs, w, c, eof) == Continue(regs.(tmp := regs.tmp - (|w| - c)), |w|);
    RunStep(regs, w, c, eof);
  }

  lemma SkipEndsStep(regs: Registers, w: seq<byte>, c: int, eof: bool)
    requires regs.state == Skip && Positioned(regs, w, c) && c < |w| && regs.tmp <= |w| - c
    ensures Step(regs, w, c, eof) == Continue(regs.(state := Timing), c + regs.tmp)
  {
  }

  // ---------------------------------------------------------------- system messages

  /**
   * A system common or real-time message: the tag is SystemExclusive plus the
   * low nibble, there is no channel, and the payload is every byte before the
   * next status byte. It fails if no status byte lies among the next 31 bytes,
   * and waits for more input if the window ends first, unless `eof`.
   */
  lemma SystemMessageOutcome(regs: Registers, w: seq<byte>, c: int, eof: bool)
    requires regs.state == EventType && 0 <= c && c + 2 <= |w|
    requires 0xF0 < w[c] && w[c] != 0xF7 && !(w[c] == 0xFF && regs.hasTiming)
    ensures var o := Run(regs, w, c, eof);
      && (o.Failed? <==> c + ScanLimit <= |w| && forall j :: c + 1 <= j < c + ScanLimit ==> w[j] < 0x80)
      && (o.Consumed? && o.event.None? <==> !o.Failed? && !eof && forall j :: c + 1 <= j < |w| ==> w[j] < 0x80)
      && (o.Consumed? && o.event.Some? ==>
            var e := o.count - c;
            && o.regs == regs.(state := Timing)
            && e >= 1 && o.event.value == MidiEvent(SystemExclusive + w[c] % 0x10, e - 1, c + 1, ChannelNone, regs.time)
            && (forall j :: c + 1 <= j < c + e ==> w[j] < 0x80)
            && (c + e == |w| || w[c + e] >= 0x80))
      && (o.Consumed? && o.event.None? ==> o == Consumed(regs, c, None))
  {
    SystemMessageStep(regs, w, c, eof);
    RunStep(regs, w, c, eof);
    SystemMessageShape(regs, w, c, eof);
  }

  lemma SystemMessageShape(regs: Registers, w: seq<byte>, c: int, eof: bool)
    requires 0 <= c && c + 2 <= |w| && 0xF0 <= w[c]
    ensures var r := SystemMessage(regs, w, c, eof);
      && (r.Fail? <==> c + ScanLimit <= |w| && forall j :: c + 1 <= j < c + ScanLimit ==> w[j] < 0x80)
      && (r.Stop? <==> !r.Fail? && !eof && forall j :: c + 1 <= j < |w| ==> w[j] < 0x80)
      && (r.Emit? ==>
            var e := r.cursor - c;
            && r.regs == regs.(state := Timing)
            && e >= 1 && r.event == MidiEvent(SystemExclusive + w[c] % 0x10, e - 1, c + 1, ChannelNone, regs.time)
            && (forall j :: c + 1 <= j < c + e ==> w[j] < 0x80)
            && (c + e == |w| || w[c + e] >= 0x80))
  {
    var l := Min(|w| - c, ScanLimit);
    ScanVerdicts(w, c, l, ScanEnd(w, c, 1, l));
  }

  /** The scan reaches the limit exactly when no status byte is among the bytes it may scan; short of the limit, it reaches the window's end exactly when the rest of the window holds no status byte. */
  lemma ScanVerdicts(w: seq<byte>, c: int, l: int, e: int)
    requires 0 <= c && 1 <= l && c + l <= |w| && l == Min(|w| - c, ScanLimit) && e == ScanEnd(w, c, 1, l)
    ensures e == ScanLimit <==> c + ScanLimit <= |w| && forall j :: c + 1 <= j < c + ScanLimit ==> w[j] < 0x80
    ensures e < ScanLimit ==> (e == |w| - c <==> forall j :: c + 1 <= j < |w| ==> w[j] < 0x80)
  {
    if e < l {
      assert w[c + e] >= 0x80;
    }
  }



  lemma SystemMessageStep(regs: Registers, w: seq<byte>, c: int, eof: bool)
    requires regs.state == EventType && 0 <= c && c + 2 <= |w|
    requires 0xF0 < w[c] && w[c] != 0xF7 && !(w[c] == 0xFF && regs.hasTiming)
    ensures Step(regs, w, c, eof) == SystemMessage(regs, w, c, eof)
  {
  }

  // ---------------------------------------------------------------- delta times

  /** In a timed stream a complete delta time is added to the clock, modulo 2^64, before the status byte is read. */
  lemma DeltaTimeAccumulates(regs: Registers, w: seq<byte>, c: int, eof: bool)
    requires regs.state == Timing && regs.hasTiming && 0 <= c < |w| && DecodeVlq(w[c..]).Decoded?
    ensures var v := DecodeVlq(w[c..]);
      Run(regs, w, c, eof) == Run(regs.(time := Add64(regs.time, v.value), state := EventType), w, c + v.count, eof)
  {
    DeltaTimeStep(regs, w, c, eof);
    RunStep(regs, w, c, eof);
  }

  lemma DeltaTimeStep(regs: Registers, w: seq<byte>, c: int, eof: bool)
    requires regs.state == Timing && regs.hasTiming && 0 <= c < |w| && DecodeVlq(w[c..]).Decoded?
    ensures var v := DecodeVlq(w[c..]);
      Step(regs, w, c, eof) == Continue(regs.(time := Add64(regs.time, v.value), state := EventType), c + v.count)
  {
  }

  /** A delta time cut off by the window's end is left for the next call. */
  lemma IncompleteDeltaWaits(regs: Registers, w: seq<byte>, c: int, eof: bool)
    requires regs.state == Timing && regs.hasTiming && 0 <= c < |w| && DecodeVlq(w[c..]).NeedMore?
    ensures Run(regs, w, c, eof) == Consumed(regs, c, None)
  {
    RunStep(regs, w, c, eof);
  }

  // ---------------------------------------------------------------- emitted tags

  /** The pending tag is one the decoder can have set: a sysex tag in EventSysex, a meta tag in EventMeta. */
  ghost predicate PendingTagValid(regs: Registers) {
    && (regs.state == EventSysex ==> regs.tmp == SystemExclusive || regs.tmp == EndOfExclusive)
    && (regs.state == EventMeta ==> MetaBase <= regs.tmp < MetaBase + 0x80)
  }

  /** An event's tag lies in the enum, and it carries a channel exactly when its tag is a channel message. */
  ghost predicate EventWellFormed(ev: MidiEvent) {
    && 0 <= ev.kind < MetaBase + 0x80
    && (ev.channel != ChannelNone <==> HasChannel(ev.kind))
  }

  /**
   * A call that does not fail keeps the pending tag valid, and every event it
   * emits is well formed. (A failed call can leave EventMeta with a stale tag:
   * see `MetaTypeWithHighBitFails`.)
   */
  lemma {:induction false} RunKeepsTags(regs: Registers, w: seq<byte>, c: int, eof: bool)
    requires Positioned(regs, w, c) && PendingTagValid(regs)
    ensures Run(regs, w, c, eof).Consumed? ==> PendingTagValid(Run(regs, w, c, eof).regs)
    ensures var o := Run(regs, w, c, eof); o.Consumed? && o.event.Some? ==> EventWellFormed(o.event.value)
    decreases |w| - Progress(regs, w, c), Rank(regs.state), |w| - c
  {
    if c < |w| {
      StepKeepsTags(regs, w, c, eof);
      match Step(regs, w, c, eof)
      case Continue(r, c') =>
        RunKeepsTags(r, w, c', eof);
      case Emit(r, c', ev) =>
      case Stop =>
      case Fail(r) =>
    }
  }

  /** One pass keeps the pending tag valid and emits only well-formed events. */
  lemma StepKeepsTags(regs: Registers, w: seq<byte>, c: int, eof: bool)
    requires Positioned(regs, w, c) && c < |w| && PendingTagValid(regs)
    ensures var s := Step(regs, w, c, eof);
      && (s.Continue? ==> PendingTagValid(s.regs))
      && (s.Emit? ==> EventWellFormed(s.event))
  {
    if regs.state == EventType && |w| - c > 1 && 0x80 <= w[c] < 0xF0 {
      var r := ChannelMessage(regs, w, c);
      assert Step(regs, w, c, eof) == r;
      assert r.Emit? ==> r.event.channel == ChannelOf(w[c] % 0x10);
    } else if regs.state == EventType && |w| - c > 1 && w[c] >= 0xF0 && w[c] != 0xF0 && w[c] != 0xF7 && !(w[c] == 0xFF && regs.hasTiming) {
      assert Step(regs, w, c, eof) == SystemMessage(regs, w, c, eof);
    }
  }

  /** A freshly declared parser emits only well-formed events and, unless it fails, leaves a valid pending tag for the next call. */
  lemma FreshParserEmitsWellFormed(hasTiming: bool, w: seq<byte>, eof: bool)
    ensures var o := ParseOutcome(Fresh(hasTiming), w, eof);
      && (o.Consumed? ==> PendingTagValid(o.regs))
      && (o.Consumed? && o.event.Some? ==> EventWellFormed(o.event.value))
  {
    RunKeepsTags(Fresh(hasTiming), w, 0, eof);
  }

  // ---------------------------------------------------------------- stalls

  /** The bytes `[from + i, from + n)` of `w` are the bytes `[at + i, at + n)` of `u`. */
  ghost predicate SameBytes(w: seq<byte>, from: int, u: seq<byte>, at: int, i: int, n: int)
    requires 0 <= from && 0 <= at && 0 <= i && from + n <= |w| && at + n <= |u|
  {
    forall j :: from + i <= j < from + n ==> w[j] == u[at - from + j]
  }

  /**
   * The scan for a status byte sees only the bytes it scans: on other bytes that
   * agree with them it finds the same end, even with a larger limit, provided the
   * first scan found a status byte or already ran to the larger limit.
   */
  lemma {:induction false} ScanEndShift(w: seq<byte>, c: int, u: seq<byte>, d: int, i: int, l: int, m: int)
    requires 0 <= c && 0 <= d && 1 <= i <= l <= m && c + l <= |w| && d + m <= |u|
    requires SameBytes(w, c, u, d, i, l)
    requires ScanEnd(w, c, i, l) < l || l == m
    ensures ScanEnd(u, d, i, m) == ScanEnd(w, c, i, l)
    decreases l - i
  {
    if i < l {
      assert w[c + i] == u[d + i];
      if w[c + i] < 0x80 {
        ScanEndShift(w, c, u, d, i + 1, l, m);
      }
    }
  }

  /**
   * When a pass stalls on an incomplete field, it stalls the same way on the
   * unconsumed bytes alone: the decision looked only at bytes from the cursor on.
   */
  lemma StallIsLocal(regs: Registers, w: seq<byte>, k: int, eof: bool)
    requires 0 <= k < |w| && regs.state != Skip && Step(regs, w, k, eof) == Stop
    ensures Step(regs, w[k..], 0, eof) == Stop
  {
    var u := w[k..];
    assert u[0..] == u;
    if regs.state == EventType && |u| >= 2 && w[k] >= 0xF0 {
      var l := Min(|u|, ScanLimit);
      assert SameBytes(w, k, u, 0, 1, l);
      ScanEndShift(w, k, u, 0, 1, l, l);
    }
  }

  /** A call that stops before the window's end stopped on an incomplete field, in a state other than Skip. */
  lemma {:induction false} EarlyStopIsStall(regs: Registers, w: seq<byte>, c: int, eof: bool)
    requires Positioned(regs, w, c)
    ensures var o := Run(regs, w, c, eof);
      o.Consumed? && o.event.None? && o.count < |w| ==> o.regs.state != Skip && Step(o.regs, w, o.count, eof) == Stop
    decreases |w| - Progress(regs, w, c), Rank(regs.state), |w| - c
  {
    if c < |w| {
      match Step(regs, w, c, eof)
      case Continue(r, c') =>
        EarlyStopIsStall(r, w, c', eof);
      case Emit(r, c', ev) =>
      case Stop =>
      case Fail(r) =>
    }
  }

  /**
   * Insufficient input is not consumed and the state is kept: handing the
   * decoder the bytes it left over, with nothing appended, consumes none of them
   * and changes nothing, so those bytes are examined afresh once more arrive.
   */
  lemma LeftoverBytesAreReexamined(regs: Registers, w: seq<byte>, eof: bool)
    ensures var o := ParseOutcome(regs, w, eof);
      o.Consumed? && o.event.None? && o.count < |w| ==>
        ParseOutcome(o.regs, w[o.count..], eof) == Consumed(o.regs, 0, None)
  {
    var o := ParseOutcome(regs, w, eof);
    EarlyStopIsStall(regs, w, 0, eof);
    if o.Consumed? && o.event.None? && o.count < |w| {
      StallIsLocal(o.regs, w, o.count, eof);
      RunStep(o.regs, w[o.count..], 0, eof);
    }
  }

  // ---------------------------------------------------------------- resumption

  /** The states in which `tmp` is read: the pending tag, or the bytes left to skip. */
  predicate ScratchLive(s: ParserState) {
    s == EventSysex || s == EventMeta || s == Skip
  }

  /** Registers that agree everywhere except in a `tmp` that no later pass reads. */
  ghost predicate Equivalent(x: Registers, y: Registers) {
    x.(tmp := 0) == y.(tmp := 0) && (ScratchLive(x.state) ==> x.tmp == y.tmp)
  }

  /**
   * Two results of a call that the caller cannot tell apart: both fail, or both
   * consume the same bytes, dispatch the same event and leave equivalent registers.
   * (A failure in EventMeta can leave a stale `tmp` behind: see `MetaTypeWithHighBitFails`.)
   */
  ghost predicate Agree(o: Outcome, p: Outcome) {
    match o
    case Failed(x) => p.Failed? && x.(tmp := 0) == p.regs.(tmp := 0)
    case Consumed(x, n, e) => p.Consumed? && Equivalent(x, p.regs) && n == p.count && e == p.event
  }

  /** What a call returns when the pass `s` made at `cursor` ends it. */
  function Settled(s: StepResult, regs: Registers, cursor: int): Outcome {
    match s
    case Continue(_, _) => Consumed(regs, cursor, None)
    case Emit(r, c, ev) => Consumed(r, c, Some(ev))
    case Stop => Consumed(regs, cursor, None)
    case Fail(r) => Failed(r)
  }

  /** A pass made `k` bytes further into the window. */
  function ShiftedStep(s: StepResult, k: int): StepResult {
    match s
    case Continue(r, d) => Continue(r, d + k)
    case Emit(r, d, ev) => Emit(r, d + k, ev.(offset := ev.offset + k))
    case Stop => Stop
    case Fail(r) => Fail(r)
  }

  /** A call made `k` bytes further into the window: its count and its event's offset move by `k`. */
  function Shifted(o: Outcome, k: int): Outcome {
    match o
    case Failed(r) => Failed(r)
    case Consumed(r, n, e) => Consumed(r, n + k, if e.Some? then Some(e.value.(offset := e.value.offset + k)) else None)
  }

  /** One pass from equivalent registers: the `tmp` that differs is never read, and is passed on only where it stays unread. */
  lemma StepEquivalent(x: Registers, y: Registers, w: seq<byte>, c: int, eof: bool)
    requires Positioned(x, w, c) && c < |w| && Equivalent(x, y)
    ensures Positioned(y, w, c)
    ensures var s, t := Step(x, w, c, eof), Step(y, w, c, eof);
      && (s.Continue? ==> t.Continue? && Equivalent(s.regs, t.regs) && s.cursor == t.cursor)
      && (s.Emit? ==> t.Emit? && Equivalent(s.regs, t.regs) && s.cursor == t.cursor && s.event == t.event)
      && (s.Stop? ==> t.Stop?)
      && (s.Fail? ==> t.Fail? && s.regs.(tmp := 0) == t.regs.(tmp := 0))
  {
    if ScratchLive(x.state) {
      assert x == y;
    } else if x.state == EventType && |w| - c > 1 && 0x80 <= w[c] < 0xF0 {
      assert Step(x, w, c, eof) == ChannelMessage(x, w, c);
      assert Step(y, w, c, eof) == ChannelMessage(y, w, c);
    } else if x.state == EventType && |w| - c > 1 && w[c] >= 0xF0 && w[c] != 0xF0 && w[c] != 0xF7 && !(w[c] == 0xFF && x.hasTiming) {
      assert Step(x, w, c, eof) == SystemMessage(x, w, c, eof);
      assert Step(y, w, c, eof) == SystemMessage(y, w, c, eof);
    }
  }

  /** A call from equivalent registers cannot be told apart. */
  lemma {:induction false} RunEquivalent(x: Registers, y: Registers, w: seq<byte>, c: int, eof: bool)
    requires Positioned(x, w, c) && Equivalent(x, y)
    ensures Positioned(y, w, c) && Agree(Run(x, w, c, eof), Run(y, w, c, eof))
    decreases |w| - Progress(x, w, c), Rank(x.state), |w| - c
  {
    if c < |w| {
      StepEquivalent(x, y, w, c, eof);
      RunStep(x, w, c, eof);
      RunStep(y, w, c, eof);
      match Step(x, w, c, eof)
      case Continue(r, d) =>
        RunEquivalent(r, Step(y, w, c, eof).regs, w, d, eof);
      case Emit(r, d, ev) =>
      case Stop =>
      case Fail(r) =>
    }
  }

  /** A SKIP pass whose remaining count outlasts the window: the only pass that ends a call without a stall or a decision. */
  ghost predicate SkipOutlasts(regs: Registers, w: seq<byte>, c: int) {
    regs.state == Skip && |w| - c < regs.tmp
  }

  /**
   * A pass that decided something without looking past the window decides the
   * same once bytes are appended, whether or not the stream has then ended.
   */
  lemma StepStable(regs: Registers, a: seq<byte>, b: seq<byte>, c: int, eof: bool)
    requires Positioned(regs, a, c) && c < |a|
    requires Step(regs, a, c, false) != Stop && !SkipOutlasts(regs, a, c)
    ensures Positioned(regs, a + b, c) && Step(regs, a + b, c, eof) == Step(regs, a, c, false)
  {
    var w := a + b;
    match regs.state
    case Timing =>
      if regs.hasTiming {
        assert w[c..] == a[c..] + b;
        DecodeVlqStable(a[c..], b);
      }
    case EventType =>
      assert |a| - c > 1 && w[c] == a[c] && w[c + 1] == a[c + 1];
      if 0x80 <= a[c] < 0xF0 {
        ChannelMessageStable(regs, a, b, c);
      } else if a[c] >= 0xF0 && a[c] != 0xF0 && a[c] != 0xF7 && !(a[c] == 0xFF && regs.hasTiming) {
        SystemMessageStable(regs, a, b, c, eof);
      }
    case EventSysex =>
      PayloadStable(regs, a, b, c);
    case EventMeta =>
      PayloadStable(regs, a, b, c);
    case Skip =>
  }

  /** `StepStable` for a channel message. */
  lemma ChannelMessageStable(regs: Registers, a: seq<byte>, b: seq<byte>, c: int)
    requires 0 <= c && c + 2 <= |a| && 0x80 <= a[c] < 0xF0 && ChannelMessage(regs, a, c) != Stop
    ensures ChannelMessage(regs, a + b, c) == ChannelMessage(regs, a, c)
  {
    var w := a + b;
    assert w[c] == a[c] && w[c + 1] == a[c + 1];
  }

  /** `StepStable` for a system common or real-time message: a decision made before the stream's end is the same once it ends. */
  lemma SystemMessageStable(regs: Registers, a: seq<byte>, b: seq<byte>, c: int, eof: bool)
    requires 0 <= c && c + 2 <= |a| && 0xF0 <= a[c] && SystemMessage(regs, a, c, false) != Stop
    ensures SystemMessage(regs, a + b, c, eof) == SystemMessage(regs, a, c, false)
  {
    var w := a + b;
    var l, m := Min(|a| - c, ScanLimit), Min(|w| - c, ScanLimit);
    assert SameBytes(a, c, w, c, 1, l);
    ScanEndShift(a, c, w, c, 1, l, m);
  }

  /** `StepStable` for a length prefix and payload. */
  lemma PayloadStable(regs: Registers, a: seq<byte>, b: seq<byte>, c: int)
    requires 0 <= c < |a| && (regs.state == EventSysex || regs.state == EventMeta) && Payload(regs, a, c) != Stop
    ensures Payload(regs, a + b, c) == Payload(regs, a, c)
  {
    var w := a + b;
    assert w[c..] == a[c..] + b;
    DecodeVlqStable(a[c..], b);
  }

  /**
   * What a call on `a` followed by more bytes `b` does, given what the call on `a`
   * alone did. Where that call failed or dispatched an event, the longer call does
   * exactly the same. Where it consumed `k` bytes without an event, the longer call
   * is, up to a `tmp` that is never read again, the longer call resumed at `k` with
   * the registers it left.
   */
  ghost predicate Extends(o: Outcome, longer: Outcome, resumed: Outcome) {
    && (o.Failed? || o.event.Some? ==> longer == o)
    && (o.Consumed? && o.event.None? ==> Agree(longer, resumed))
  }

  /** A call on `a` followed by more bytes `b` extends the call on `a` alone. */
  lemma {:induction false} RunOnLonger(regs: Registers, a: seq<byte>, b: seq<byte>, c: int, eof: bool)
    requires Positioned(regs, a, c)
    ensures var o := Run(regs, a, c, false);
      && (o.Consumed? && o.event.None? ==> Positioned(o.regs, a + b, o.count))
      && Extends(o, Run(regs, a + b, c, eof), if o.Consumed? && o.event.None? then Run(o.regs, a + b, o.count, eof) else o)
    decreases |a| - Progress(regs, a, c), Rank(regs.state), |a| - c
  {
    if c < |a| && !SkipOutlasts(regs, a, c) && Step(regs, a, c, false).Continue? {
      var r, d := LongerContinues(regs, a, b, c, eof);
      RunOnLonger(r, a, b, d, eof);
    } else if c < |a| && SkipOutlasts(regs, a, c) {
      LongerSkips(regs, a, b, c, eof);
    } else {
      LongerSettles(regs, a, b, c, eof);
    }
  }

  /** A first pass that continues on `a` alone makes the same move on the longer window. */
  lemma LongerContinues(regs: Registers, a: seq<byte>, b: seq<byte>, c: int, eof: bool) returns (r: Registers, d: int)
    requires Positioned(regs, a, c) && c < |a| && !SkipOutlasts(regs, a, c) && Step(regs, a, c, false).Continue?
    ensures Positioned(r, a, d) && Closer(r, d, regs, c, a)
    ensures Run(regs, a, c, false) == Run(r, a, d, false)
    ensures Run(regs, a + b, c, eof) == Run(r, a + b, d, eof)
  {
    StepStable(regs, a, b, c, eof);
    r, d := Step(regs, a, c, false).regs, Step(regs, a, c, false).cursor;
    RunGoesOn(regs, a, c, false);
    RunGoesOn(regs, a + b, c, eof);
  }

  /** A first pass that ends the call on `a` alone, or a call that starts at its end. */
  lemma LongerSettles(regs: Registers, a: seq<byte>, b: seq<byte>, c: int, eof: bool)
    requires Positioned(regs, a, c)
    requires c < |a| ==> !SkipOutlasts(regs, a, c) && !Step(regs, a, c, false).Continue?
    ensures var o := Run(regs, a, c, false);
      && (o.Consumed? && o.event.None? ==> Positioned(o.regs, a + b, o.count))
      && Extends(o, Run(regs, a + b, c, eof), if o.Consumed? && o.event.None? then Run(o.regs, a + b, o.count, eof) else o)
  {
    var w := a + b;
    if c == |a| {
      RunEquivalent(regs, regs, w, c, eof);
    } else if Step(regs, a, c, false) == Stop {
      RunSettles(regs, a, c, false);
      RunEquivalent(regs, regs, w, c, eof);
    } else {
      StepStable(regs, a, b, c, eof);
      RunSettles(regs, a, c, false);
      RunSettles(regs, w, c, eof);
    }
  }

  /**
   * A SKIP whose remaining count outlasts `a`: the call on `a` alone consumes all
   * of it, and the longer call skips on from the same place.
   */
  lemma LongerSkips(regs: Registers, a: seq<byte>, b: seq<byte>, c: int, eof: bool)
    requires Positioned(regs, a, c) && c < |a| && SkipOutlasts(regs, a, c)
    ensures var o := Run(regs, a, c, false);
      && (o.Consumed? && o.event.None? ==> Positioned(o.regs, a + b, o.count))
      && Extends(o, Run(regs, a + b, c, eof), if o.Consumed? && o.event.None? then Run(o.regs, a + b, o.count, eof) else o)
  {
    var r := regs.(tmp := regs.tmp - (|a| - c));
    RunContinues(regs, a, c, false, r, |a|);
    SkipAcrossSplit(regs, a + b, c, |a|, eof);
  }

  /** Skipping from `c` with a count that outlasts `n`, or resuming at `n` with what is left, cannot be told apart. */
  lemma SkipAcrossSplit(regs: Registers, w: seq<byte>, c: int, n: int, eof: bool)
    requires regs.state == Skip && Positioned(regs, w, c) && c < n <= |w| && n - c < regs.tmp
    ensures Positioned(regs.(tmp := regs.tmp - (n - c)), w, n)
    ensures Agree(Run(regs, w, c, eof), Run(regs.(tmp := regs.tmp - (n - c)), w, n, eof))
  {
    var r := regs.(tmp := regs.tmp - (n - c));
    if n == |w| {
      RunContinues(regs, w, c, eof, r, |w|);
    } else if |w| - c < regs.tmp {
      var r' := regs.(tmp := regs.tmp - (|w| - c));
      RunContinues(regs, w, c, eof, r', |w|);
      RunContinues(r, w, n, eof, r', |w|);
    } else {
      RunContinues(regs, w, c, eof, regs.(state := Timing), c + regs.tmp);
      RunContinues(r, w, n, eof, r.(state := Timing), c + regs.tmp);
      RunEquivalent(regs.(state := Timing), r.(state := Timing), w, c + regs.tmp, eof);
    }
  }

  /**
   * `u` is the window `w` without its first `k` bytes. It is stated byte by
   * byte, from the front, so that a proof sees only the bytes it asks about.
   */
  ghost predicate Moved(u: seq<byte>, w: seq<byte>, k: int)
    decreases |u|
  {
    0 <= k && |w| == |u| + k && (|u| == 0 || (u[0] == w[k] && Moved(u[1..], w[1..], k)))
  }

  /** Byte `i` of `u` is byte `i + k` of `w`. */
  lemma {:induction false} MovedAt(u: seq<byte>, w: seq<byte>, k: int, i: int)
    requires Moved(u, w, k) && 0 <= i < |u|
    ensures u[i] == w[i + k]
    decreases i
  {
    if i > 0 {
      MovedAt(u[1..], w[1..], k, i - 1);
    }
  }

  /** The bytes of `u` from `d` on are the bytes of `w` from `d + k` on. */
  lemma MovedTail(u: seq<byte>, w: seq<byte>, k: int, d: int)
    requires Moved(u, w, k) && 0 <= d <= |u|
    ensures u[d..] == w[d + k..]
  {
    forall i | 0 <= i < |u| - d
      ensures u[d..][i] == w[d + k..][i]
    {
      MovedAt(u, w, k, d + i);
    }
  }

  /** The window from `k` on is moved by `k`. */
  lemma {:induction false} DropIsMoved(w: seq<byte>, k: int)
    requires 0 <= k <= |w|
    ensures Moved(w[k..], w, k)
    decreases |w|
  {
    if k < |w| {
      DropIsMoved(w[1..], k);
      assert w[k..][1..] == w[1..][k..];
    }
  }

  /** One pass on the window from `k` on is the same pass on the whole window, `k` bytes further in. */
  lemma StepShift(regs: Registers, u: seq<byte>, w: seq<byte>, k: int, d: int, eof: bool)
    requires Moved(u, w, k) && Positioned(regs, u, d) && d < |u|
    ensures Positioned(regs, w, d + k) && Step(regs, w, d + k, eof) == ShiftedStep(Step(regs, u, d, eof), k)
  {
    match regs.state
    case Timing =>
      MovedTail(u, w, k, d);
    case EventType =>
      if |u| - d > 1 {
        MovedAt(u, w, k, d);
        MovedAt(u, w, k, d + 1);
        if 0x80 <= u[d] < 0xF0 {
          ChannelMessageShift(regs, u, w, k, d);
        } else if u[d] >= 0xF0 && u[d] != 0xF0 && u[d] != 0xF7 && !(u[d] == 0xFF && regs.hasTiming) {
          SystemMessageShift(regs, u, w, k, d, eof);
        }
      }
    case EventSysex =>
      PayloadShift(regs, u, w, k, d);
    case EventMeta =>
      PayloadShift(regs, u, w, k, d);
    case Skip =>
  }

  /** `StepShift` for a channel message. */
  lemma ChannelMessageShift(regs: Registers, u: seq<byte>, w: seq<byte>, k: int, d: int)
    requires Moved(u, w, k) && 0 <= d && d + 2 <= |u| && 0x80 <= u[d] < 0xF0 && w[d + k] == u[d]
    ensures ChannelMessage(regs, w, d + k) == ShiftedStep(ChannelMessage(regs, u, d), k)
  {
    MovedAt(u, w, k, d + 1);
  }

  /** The scan over the window from `k` on is the scan over the whole window, `k` bytes further in. */
  lemma {:induction false} ScanEndMoved(u: seq<byte>, w: seq<byte>, k: int, d: int, i: int, l: int)
    requires Moved(u, w, k) && 0 <= d && 1 <= i <= l && d + l <= |u|
    ensures ScanEnd(u, d, i, l) == ScanEnd(w, d + k, i, l)
    decreases l - i
  {
    if i < l {
      MovedAt(u, w, k, d + i);
      ScanEndMoved(u, w, k, d, i + 1, l);
    }
  }

  /** `StepShift` for a system common or real-time message. */
  lemma SystemMessageShift(regs: Registers, u: seq<byte>, w: seq<byte>, k: int, d: int, eof: bool)
    requires Moved(u, w, k) && 0 <= d && d + 2 <= |u| && 0xF0 <= u[d] && w[d + k] == u[d]
    ensures SystemMessage(regs, w, d + k, eof) == ShiftedStep(SystemMessage(regs, u, d, eof), k)
  {
    var l := Min(|u| - d, ScanLimit);
    ScanEndMoved(u, w, k, d, 1, l);
    SystemMessageMoved(regs, u, d, w, d + k, eof);
  }

  /** A system message is decided by its status byte, the bytes left in the window and where the scan ends. */
  lemma SystemMessageMoved(regs: Registers, u: seq<byte>, d: int, w: seq<byte>, c: int, eof: bool)
    requires 0 <= d && d + 2 <= |u| && 0xF0 <= u[d] && 0 <= c && |w| - c == |u| - d && w[c] == u[d]
    requires ScanEnd(w, c, 1, Min(|u| - d, ScanLimit)) == ScanEnd(u, d, 1, Min(|u| - d, ScanLimit))
    ensures SystemMessage(regs, w, c, eof) == ShiftedStep(SystemMessage(regs, u, d, eof), c - d)
  {
  }

  /** `StepShift` for a length prefix and payload. */
  lemma PayloadShift(regs: Registers, u: seq<byte>, w: seq<byte>, k: int, d: int)
    requires Moved(u, w, k) && 0 <= d < |u| && (regs.state == EventSysex || regs.state == EventMeta)
    ensures Payload(regs, w, d + k) == ShiftedStep(Payload(regs, u, d), k)
  {
    MovedTail(u, w, k, d);
  }

  /** A call on the window from `k` on is the same call on the whole window, `k` bytes further in. */
  lemma {:induction false} RunShift(regs: Registers, u: seq<byte>, w: seq<byte>, k: int, d: int, eof: bool)
    requires Moved(u, w, k) && Positioned(regs, u, d)
    ensures Positioned(regs, w, d + k)
    ensures Run(regs, w, d + k, eof) == Shifted(Run(regs, u, d, eof), k)
    decreases |u| - Progress(regs, u, d), Rank(regs.state), |u| - d
  {
    var more, r, e := PassShift(regs, u, w, k, d, eof);
    if more {
      RunShift(r, u, w, k, e, eof);
    }
  }

  /**
   * The first pass of `RunShift`: either it settles the call, or both calls
   * continue from the same registers, `k` bytes apart.
   */
  lemma PassShift(regs: Registers, u: seq<byte>, w: seq<byte>, k: int, d: int, eof: bool) returns (more: bool, r: Registers, e: int)
    requires Moved(u, w, k) && Positioned(regs, u, d)
    ensures Positioned(regs, w, d + k)
    ensures more ==> && Positioned(r, u, e) && Closer(r, e, regs, d, u)
                     && Run(regs, u, d, eof) == Run(r, u, e, eof)
                     && Run(regs, w, d + k, eof) == Run(r, w, e + k, eof)
    ensures !more ==> Run(regs, w, d + k, eof) == Shifted(Run(regs, u, d, eof), k)
  {
    more, r, e := false, regs, d;
    if d < |u| {
      more, r, e := PassInsideMoved(regs, u, w, k, d, eof);
    }
  }

  /** `PassShift` before the end of `u`: the pass either continues on both windows or settles both calls. */
  lemma PassInsideMoved(regs: Registers, u: seq<byte>, w: seq<byte>, k: int, d: int, eof: bool) returns (more: bool, r: Registers, e: int)
    requires Moved(u, w, k) && Positioned(regs, u, d) && d < |u|
    ensures Positioned(regs, w, d + k)
    ensures more ==> && Positioned(r, u, e) && Closer(r, e, regs, d, u)
                     && Run(regs, u, d, eof) == Run(r, u, e, eof)
                     && Run(regs, w, d + k, eof) == Run(r, w, e + k, eof)
    ensures !more ==> Run(regs, w, d + k, eof) == Shifted(Run(regs, u, d, eof), k)
  {
    more, r, e := PassContinues(regs, u, d, eof), regs, d;
    if more {
      r, e := ContinuesMoved(regs, u, w, k, d, eof);
    } else {
      SettlesMoved(regs, u, w, k, d, eof);
    }
  }

  /** Whether the first pass at `d` continues the call. */
  predicate PassContinues(regs: Registers, u: seq<byte>, d: int, eof: bool)
    requires Positioned(regs, u, d) && d < |u|
  {
    Step(regs, u, d, eof).Continue?
  }

  /** A first pass that continues on `u` continues on `w`, `k` bytes further in, from the same registers. */
  lemma ContinuesMoved(regs: Registers, u: seq<byte>, w: seq<byte>, k: int, d: int, eof: bool) returns (r: Registers, e: int)
    requires Moved(u, w, k) && Positioned(regs, u, d) && d < |u| && PassContinues(regs, u, d, eof)
    ensures Positioned(regs, w, d + k) && Positioned(r, u, e) && Closer(r, e, regs, d, u)
    ensures Run(regs, u, d, eof) == Run(r, u, e, eof)
    ensures Run(regs, w, d + k, eof) == Run(r, w, e + k, eof)
  {
    r, e := RunGoesOnMoved(regs, u, w, k, d, eof);
    RunGoesOn(regs, u, d, eof);
  }

  /** The continuation on `w` of a pass that continues on `u`. */
  lemma RunGoesOnMoved(regs: Registers, u: seq<byte>, w: seq<byte>, k: int, d: int, eof: bool) returns (r: Registers, e: int)
    requires Moved(u, w, k) && Positioned(regs, u, d) && d < |u| && PassContinues(regs, u, d, eof)
    ensures r == Step(regs, u, d, eof).regs && e == Step(regs, u, d, eof).cursor
    ensures Positioned(regs, w, d + k) && Positioned(r, w, e + k)
    ensures Run(regs, w, d + k, eof) == Run(r, w, e + k, eof)
  {
    r, e := StepContinuesMoved(regs, u, w, k, d, eof);
    RunContinues(regs, w, d + k, eof, r, e + k);
  }

  /** A first pass that continues on `u` is, on `w`, the same pass `k` bytes further in. */
  lemma StepContinuesMoved(regs: Registers, u: seq<byte>, w: seq<byte>, k: int, d: int, eof: bool) returns (r: Registers, e: int)
    requires Moved(u, w, k) && Positioned(regs, u, d) && d < |u| && Step(regs, u, d, eof).Continue?
    ensures r == Step(regs, u, d, eof).regs && e == Step(regs, u, d, eof).cursor
    ensures Positioned(regs, w, d + k) && d + k < |w| && Step(regs, w, d + k, eof) == Continue(r, e + k)
  {
    StepShift(regs, u, w, k, d, eof);
    r, e := Step(regs, u, d, eof).regs, Step(regs, u, d, eof).cursor;
  }

  /** A first pass that ends the call on `u` ends the call on `w` the same way, `k` bytes further in. */
  lemma SettlesMoved(regs: Registers, u: seq<byte>, w: seq<byte>, k: int, d: int, eof: bool)
    requires Moved(u, w, k) && Positioned(regs, u, d) && d < |u| && !PassContinues(regs, u, d, eof)
    ensures Positioned(regs, w, d + k) && Run(regs, w, d + k, eof) == Shifted(Run(regs, u, d, eof), k)
  {
    var o := RunEndsWithPass(regs, u, d, eof);
    StepMoved(regs, u, w, k, d, eof);
    var p := RunEndsWithPass(regs, w, d + k, eof);
  }

  /** `RunSettles` with the settled outcome named, so that callers need not unfold the pass. */
  lemma RunEndsWithPass(regs: Registers, w: seq<byte>, c: int, eof: bool) returns (o: Outcome)
    requires Positioned(regs, w, c) && c < |w| && !Step(regs, w, c, eof).Continue?
    ensures o == Settled(Step(regs, w, c, eof), regs, c) && Run(regs, w, c, eof) == o
  {
    RunSettles(regs, w, c, eof);
    o := Settled(Step(regs, w, c, eof), regs, c);
  }

  /** `StepShift` in the form the calls need: the two passes continue together, or end their calls alike. */
  lemma StepMoved(regs: Registers, u: seq<byte>, w: seq<byte>, k: int, d: int, eof: bool)
    requires Moved(u, w, k) && Positioned(regs, u, d) && d < |u|
    ensures Positioned(regs, w, d + k) && d + k < |w|
    ensures var s, t := Step(regs, u, d, eof), Step(regs, w, d + k, eof);
      && (s.Continue? <==> t.Continue?)
      && (s.Continue? ==> t.regs == s.regs && t.cursor == s.cursor + k)
      && (!s.Continue? ==> Settled(t, regs, d + k) == Shifted(Settled(s, regs, d), k))
  {
    StepShift(regs, u, w, k, d, eof);
    ShiftedStepFacts(Step(regs, u, d, eof), Step(regs, w, d + k, eof), regs, d, k);
  }

  /** A pass moved by `k` continues exactly when the original does, from the same registers, and otherwise ends its call the same way. */
  lemma ShiftedStepFacts(s: StepResult, t: StepResult, regs: Registers, d: int, k: int)
    requires t == ShiftedStep(s, k)
    ensures s.Continue? <==> t.Continue?
    ensures s.Continue? ==> t.regs == s.regs && t.cursor == s.cursor + k
    ensures !s.Continue? ==> Settled(t, regs, d + k) == Shifted(Settled(s, regs, d), k)
  {
  }

  /** A call whose first pass continues is the call from where that pass left off. */
  lemma RunGoesOn(regs: Registers, w: seq<byte>, c: int, eof: bool)
    requires Positioned(regs, w, c) && c < |w| && Step(regs, w, c, eof).Continue?
    ensures Run(regs, w, c, eof) == Run(Step(regs, w, c, eof).regs, w, Step(regs, w, c, eof).cursor, eof)
  {
  }

  /** A call whose first pass does not continue ends with that pass. */
  lemma RunSettles(regs: Registers, w: seq<byte>, c: int, eof: bool)
    requires Positioned(regs, w, c) && c < |w| && !Step(regs, w, c, eof).Continue?
    ensures Run(regs, w, c, eof) == Settled(Step(regs, w, c, eof), regs, c)
  {
  }

  /**
   * Bytes appended after a window do not change a call that failed or dispatched
   * an event on the window alone, even when the stream then ends.
   */
  lemma DecisionsAreStable(regs: Registers, a: seq<byte>, b: seq<byte>, eof: bool)
    ensures var o := ParseOutcome(regs, a, false);
      o.Failed? || o.event.Some? ==> ParseOutcome(regs, a + b, eof) == o
  {
    RunOnLonger(regs, a, b, 0, eof);
  }

  /**
   * A stream split in two decodes as the whole: when a call on `a` consumes `k`
   * bytes and dispatches nothing, a call on `a + b` cannot be told apart from a
   * call, with the registers left behind, on the bytes from `k` on, its count and
   * event offset moved by `k`.
   */
  lemma SplitStreamResumes(regs: Registers, a: seq<byte>, b: seq<byte>, eof: bool)
    ensures var o := ParseOutcome(regs, a, false);
      o.Consumed? && o.event.None? ==>
        Agree(ParseOutcome(regs, a + b, eof), Shifted(ParseOutcome(o.regs, (a + b)[o.count..], eof), o.count))
  {
    var o := ParseOutcome(regs, a, false);
    RunOnLonger(regs, a, b, 0, eof);
    if o.Consumed? && o.event.None? {
      DropIsMoved(a + b, o.count);
      RunShift(o.regs, (a + b)[o.count..], a + b, o.count, 0, eof);
    }
  }

  /**
   * The agreement above is not equality: a SKIP that spans the split ends with
   * the count it had left in the second call, and with the whole count in one call,
   * and the ended SKIP leaves that count behind in `tmp`.
   */
  lemma SplitSkipLeavesOtherScratch()
    ensures var regs, a, b := Registers(0, 2, Skip, false), [0x00], [0x00];
      var o := ParseOutcome(regs, a, false);
      && o == Consumed(Registers(0, 1, Skip, false), 1, None)
      && ParseOutcome(regs, a + b, true) == Consumed(Registers(0, 2, Timing, false), 2, None)
      && Shifted(ParseOutcome(o.regs, (a + b)[1..], true), 1) == Consumed(Registers(0, 1, Timing, false), 2, None)
  {
    var regs, a, b := Registers(0, 2, Skip, false), [0x00], [0x00];
    assert a + b == [0x00, 0x00];
    assert (a + b)[1..] == [0x00];
    RunContinues(regs, a, 0, false, regs.(tmp := 1), 1);
    RunContinues(regs, a + b, 0, true, regs.(state := Timing), 2);
    RunContinues(regs.(tmp := 1), [0x00], 0, true, Registers(0, 1, Timing, false), 1);
  }

  // ---------------------------------------------------------------- scenarios

  /** Delta 0, note on, channel 1, key 0x40, velocity 0x64: one note-on event whose payload is the last two bytes. */
  lemma NoteOnScenario(eof: bool)
    ensures ParseOutcome(Fresh(true), [0x00, 0x90, 0x40, 0x64], eof)
         == Consumed(Registers(0, 0, Timing, true), 4, Some(MidiEvent(NoteOnEvent, 2, 2, 1, 0)))
  {
    var w: seq<byte> := [0x00, 0x90, 0x40, 0x64];
    DecodeVlqAt(w, 1);
    DeltaTimeAccumulates(Fresh(true), w, 0, eof);
    ChannelMessageEmitted(Registers(0, 0, EventType, true), w, 1, eof);
  }

  /** Delta 0, control change 7 (channel volume, coarse) on channel 1: the event's tag is the controller and its payload the value byte. */
  lemma ControlChangeScenario(eof: bool)
    ensures ParseOutcome(Fresh(true), [0x00, 0xB0, 0x07, 0x50], eof)
         == Consumed(Registers(0, 0, Timing, true), 4, Some(MidiEvent(ChannelVolumeMsb, 1, 3, 1, 0)))
  {
    var w: seq<byte> := [0x00, 0xB0, 0x07, 0x50];
    DecodeVlqAt(w, 1);
    DeltaTimeAccumulates(Fresh(true), w, 0, eof);
    ChannelMessageEmitted(Registers(0, 0, EventType, true), w, 1, eof);
  }

  /** Delta 0, meta text event of length 2 holding "AB": one text event whose payload is the last two bytes. */
  lemma MetaTextScenario(eof: bool)
    ensures ParseOutcome(Fresh(true), [0x00, 0xFF, 0x01, 0x02, 0x41, 0x42], eof)
         == Consumed(Registers(0, MetaTextEvent, Timing, true), 6, Some(MidiEvent(MetaTextEvent, 2, 4, ChannelNone, 0)))
  {
    var w: seq<byte> := [0x00, 0xFF, 0x01, 0x02, 0x41, 0x42];
    OneByteVlq(w, 0);
    DeltaTimeAccumulates(Fresh(true), w, 0, eof);
    ShortMetaEventEmitted(Registers(0, 0, EventType, true), w, 1, eof);
  }


}
