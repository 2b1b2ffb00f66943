/**
 * The pending-note queue of src/midi2trk.c, which turns note-on/note-off pairs
 * into lines of a tracker score. Started notes wait in a 256-slot circular
 * array; when a note is stopped, the finished notes at the front are printed
 * in the order they started, each preceded, when its start time differs from
 * the previous one, by a `>>` command that advances the score's clock.
 *
 * `printf` output is a sequence of tokens, one per call.
 */
module PendingNotes {
  import opened Ints
  import opened MidiMessages

  /** `note_name`: the twelve pitch classes, German style (`h` for B). */
  const NoteNames: seq<string> := ["c", "c#", "d", "d#", "e", "f", "f#", "g", "g#", "a", "a#", "h"]

  /** `NOTE_INDEX_MASK + 1`: the number of slots in `note_list`. */
  const QueueSize: nat := 0x100

  /** `struct note`. */
  datatype Note = Note(done: bool, channel: Channel, time: uint64, duration: uint64,
                       tone: byte, velocityStart: byte, velocityEnd: byte)

  /** One `printf` of `stop_note`. */
  datatype Token =
    | Separator(newline: bool)                                // " " or "\n"
    | Advance                                                 // ">>": play until every sounding note has ended
    | AdvanceBy(ticks: uint64)                                // ">> %llu"
    | NoteLine(name: string, octave: int, duration: uint32)   // "\nn  %-2s %d  %4u"

  /** The static variables of `stop_note`. */
  datatype Printer = Printer(lastTime: uint64, naturalDuration: uint64, notesSameTime: uint32)

  /** `notes_same_time += 1` on an `unsigned`: wraps to 0 after 2^32 - 1. */
  function Inc32(x: uint32): uint32 {
    (x + 1) % TwoTo32
  }

  function Max(a: uint64, b: uint64): uint64 {
    if a < b then b else a
  }

  /** The note line of `n`: its pitch class, its octave (`tone / 12 - 2`) and its duration cast to `unsigned`. */
  function NoteToken(n: Note): (t: Token)
    ensures t.NoteLine? && t.name in NoteNames && -2 <= t.octave <= 19
  {
    NoteLine(NoteNames[n.tone % 12], n.tone / 12 - 2, n.duration % TwoTo32)
  }

  /**
   * What is printed before a note line: nothing if the note starts when the
   * previous one did; otherwise a separator (a line break if more than one note
   * started at the previous time) and a `>>`, bare if the longest sounding note
   * ends exactly at this note's start.
   */
  function Heading(p: Printer, n: Note): (h: seq<Token>)
    ensures h == [] <==> n.time == p.lastTime
    ensures h != [] ==> |h| == 2 && h[0].Separator? && (h[1].Advance? || h[1].AdvanceBy?)
  {
    var diff := Sub64(n.time, p.lastTime);
    if diff == 0 then []
    else [Separator(Inc32(p.notesSameTime) > 1), if p.naturalDuration == diff then Advance else AdvanceBy(diff)]
  }

  /** The statics after the heading: the clock moves to the note's start and the time still to sound shrinks by the gap. */
  function Advanced(p: Printer, n: Note): (q: Printer)
    ensures q.lastTime == n.time && q.naturalDuration <= p.naturalDuration
    ensures n.time != p.lastTime ==> q.notesSameTime == 0
  {
    var diff := Sub64(n.time, p.lastTime);
    if diff == 0 then p.(notesSameTime := Inc32(p.notesSameTime))
    else Printer(n.time, if p.naturalDuration > diff then p.naturalDuration - diff else 0, 0)
  }

  /**
   * The separator before a new start time is a line break exactly when more than
   * one note began at the previous time, counted in an `unsigned` that wraps:
   * after 2^32 notes at one time the count reads as none.
   */
  lemma SeparatorCountsSameTimeNotes(p: Printer, n: Note)
    requires Sub64(n.time, p.lastTime) != 0
    ensures |Heading(p, n)| == 2 && Heading(p, n)[0] == Separator(1 <= p.notesSameTime < TwoTo32 - 1)
  {
  }

  datatype Emitted = Emitted(printer: Printer, tokens: seq<Token>)

  /** One pass of the drain loop: the heading, then the note line; the note may extend the time still to sound. */
  function EmitNote(p: Printer, n: Note): (e: Emitted)
    ensures e.printer.lastTime == n.time && n.duration <= e.printer.naturalDuration
    ensures |e.tokens| >= 1 && e.tokens[|e.tokens| - 1] == NoteToken(n)
  {
    var q := Advanced(p, n);
    Emitted(q.(naturalDuration := Max(q.naturalDuration, n.duration)), Heading(p, n) + [NoteToken(n)])
  }

  datatype Drained = Drained(printer: Printer, rest: seq<Note>, tokens: seq<Token>)

  /** The note lines among `toks`, in order. */
  function NoteLines(toks: seq<Token>): (r: seq<Token>)
    ensures |r| <= |toks|
    ensures forall k :: 0 <= k < |r| ==> r[k].NoteLine?
  {
    if toks == [] then []
    else (if toks[0].NoteLine? then [toks[0]] else []) + NoteLines(toks[1..])
  }

  lemma {:induction false} NoteLinesAppend(a: seq<Token>, b: seq<Token>)
    ensures NoteLines(a + b) == NoteLines(a) + NoteLines(b)
    decreases |a|
  {
    if a != [] {
      assert (a + b)[0] == a[0];
      assert (a + b)[1..] == a[1..] + b;
      NoteLinesAppend(a[1..], b);
      var h := if a[0].NoteLine? then [a[0]] else [];
      assert NoteLines(a + b) == h + NoteLines(a[1..] + b);
      assert NoteLines(a) == h + NoteLines(a[1..]);
    } else {
      assert a + b == b;
    }
  }

  /** The note lines of `ps`, in order. */
  function Lines(ps: seq<Note>): (r: seq<Token>)
    ensures |r| == |ps|
  {
    if ps == [] then [] else [NoteToken(ps[0])] + Lines(ps[1..])
  }

  /** The start times of `ps`, in order. */
  function Starts(ps: seq<Note>): (r: seq<uint64>)
    ensures |r| == |ps|
  {
    if ps == [] then [] else [ps[0].time] + Starts(ps[1..])
  }

  /**
   * The drain loop of `stop_note`: finished notes leave the front of the
   * queue, oldest first, up to the first unfinished one, and each is printed
   * as exactly one note line, in queue order.
   */
  function Drain(p: Printer, ps: seq<Note>): (d: Drained)
    ensures |d.rest| <= |ps|
    decreases |ps|
  {
    if ps == [] || !ps[0].done then
      Drained(p, ps, [])
    else
      var e := EmitNote(p, ps[0]);
      var d := Drain(e.printer, ps[1..]);
      Drained(d.printer, d.rest, e.tokens + d.tokens)
  }

  /** What a drain leaves behind is the queue without its longest finished prefix. */
  lemma {:induction false} DrainTakesFinishedPrefix(p: Printer, ps: seq<Note>)
    ensures var d := Drain(p, ps);
      && |d.rest| <= |ps| && d.rest == ps[|ps| - |d.rest|..]
      && (forall k :: 0 <= k < |ps| - |d.rest| ==> ps[k].done)
      && (d.rest == [] || !d.rest[0].done)
    decreases |ps|
  {
    if ps != [] && ps[0].done {
      var q := EmitNote(p, ps[0]).printer;
      DrainTakesFinishedPrefix(q, ps[1..]);
      var rest := Drain(q, ps[1..]).rest;
      assert Drain(p, ps).rest == rest;
      assert ps[1..][|ps| - 1 - |rest|..] == ps[|ps| - |rest|..];
    }
  }

  /** The tokens of one note hold exactly one note line: its own. */
  lemma EmitNoteLines(p: Printer, n: Note)
    ensures NoteLines(EmitNote(p, n).tokens) == [NoteToken(n)]
  {
    var h := Heading(p, n);
    NoteLinesAppend(h, [NoteToken(n)]);
    if h != [] {
      assert h[1..][1..] == [];
    }
  }

  /** A drain prints exactly one note line per drained note, in queue order. */
  lemma {:induction false} DrainPrintsLines(p: Printer, ps: seq<Note>)
    ensures var d := Drain(p, ps);
      NoteLines(d.tokens) == Lines(ps[..|ps| - |d.rest|])
    decreases |ps|
  {
    if ps == [] || !ps[0].done {
      assert ps[..0] == [];
    } else {
      var e := EmitNote(p, ps[0]);
      var d := Drain(e.printer, ps[1..]);
      var taken := |ps| - |d.rest|;
      EmitNoteLines(p, ps[0]);
      DrainPrintsLines(e.printer, ps[1..]);
      NoteLinesAppend(e.tokens, d.tokens);
      assert ps[..taken][1..] == ps[1..][..taken - 1];
    }
  }

  /** A drain that starts at a finished note emits it first and goes on from the next. */
  lemma DrainStep(p: Printer, ps: seq<Note>)
    requires ps != [] && ps[0].done
    ensures var e := EmitNote(p, ps[0]);
      var d := Drain(e.printer, ps[1..]);
      Drain(p, ps) == Drained(d.printer, d.rest, e.tokens + d.tokens)
  {
  }

  /**
   * After the first note of a drain has been printed, taking the printer to
   * `q` and the output from `out` to `out'`, what is left to print is the drain
   * of the remaining notes.
   */
  lemma DrainTail(p: Printer, ps: seq<Note>, d: Drained, todo: seq<Token>, q: Printer, out: seq<Token>, out': seq<Token>)
    returns (rest: seq<Token>)
    requires ps != [] && ps[0].done && Drain(p, ps) == Drained(d.printer, d.rest, todo)
    requires q == EmitNote(p, ps[0]).printer && out' == out + EmitNote(p, ps[0]).tokens
    ensures Drain(q, ps[1..]) == Drained(d.printer, d.rest, rest) && out' + rest == out + todo
  {
    var e := EmitNote(p, ps[0]);
    rest := Drain(q, ps[1..]).tokens;
    assert todo == e.tokens + rest;
    assert out' + rest == out + (e.tokens + rest);
  }

  /** A drain that starts at an unfinished note, or at none, prints nothing. */
  lemma DrainStops(p: Printer, ps: seq<Note>)
    requires ps == [] || !ps[0].done
    ensures Drain(p, ps) == Drained(p, ps, [])
  {
  }

  /** The note a note-off on `channel` for `tone` can end. */
  predicate Matches(n: Note, channel: Channel, tone: byte) {
    !n.done && n.channel == channel && n.tone == tone
  }

  /** Position of the oldest matching note: the one a note-off ends. */
  function FindOpen(ps: seq<Note>, channel: Channel, tone: byte): (r: Option<nat>)
    ensures r.Some? ==> r.value < |ps| && Matches(ps[r.value], channel, tone)
    ensures forall j :: 0 <= j < |ps| && (r.None? || j < r.value) ==> !Matches(ps[j], channel, tone)
  {
    if ps == [] then None
    else if Matches(ps[0], channel, tone) then Some(0)
    else match FindOpen(ps[1..], channel, tone)
      case None => None
      case Some(i) => Some(i + 1)
  }

  /** The note at `i` finished at `time`: done, with the unsigned difference from its start as duration. */
  function Finish(ps: seq<Note>, i: nat, time: uint64, velocityEnd: byte): (r: seq<Note>)
    requires i < |ps|
    ensures |r| == |ps| && r[i].done && Add64(r[i].time, r[i].duration) == time
    ensures r[i].channel == ps[i].channel && r[i].tone == ps[i].tone && r[i].time == ps[i].time
    ensures r[i].velocityStart == ps[i].velocityStart && r[i].velocityEnd == velocityEnd
    ensures forall j :: 0 <= j < |ps| && j != i ==> r[j] == ps[j]
  {
    var n := ps[i];
    ps[i := n.(done := true, duration := Sub64(time, n.time), velocityEnd := velocityEnd)]
  }

  // ---------------------------------------------------------------- reading the score back

  /**
   * The intended reading of the printed score, in which `>> d` advances the clock
   * by `d`. What a reader keeps: the clock and how long the longest sounding note still lasts.
   */
  datatype Reader = Reader(now: uint64, remaining: uint64)
  datatype Replayed = Replayed(starts: seq<uint64>, reader: Reader)

  /** The reader after one token: `>>` waits until every sounding note has ended, `>> d` advances the clock by `d`, a note may sound longer than the others. */
  function Read(r: Reader, t: Token): Reader
  {
    match t
    case Separator(_) => r
    case Advance => Reader(Add64(r.now, r.remaining), 0)
    case AdvanceBy(d) => Reader(Add64(r.now, d), if r.remaining > d then r.remaining - d else 0)
    case NoteLine(_, _, dur) => r.(remaining := Max(r.remaining, dur))
  }

  /** The intended reading of a score: each note line starts a note at the reader's clock. */
  function Replay(r: Reader, toks: seq<Token>): Replayed
    decreases |toks|
  {
    if toks == [] then Replayed([], r)
    else
      var o := Replay(Read(r, toks[0]), toks[1..]);
      Replayed((if toks[0].NoteLine? then [r.now] else []) + o.starts, o.reader)
  }

  lemma {:induction false} ReplayAppend(r: Reader, a: seq<Token>, b: seq<Token>)
    ensures Replay(r, a + b) == Replayed(Replay(r, a).starts + Replay(Replay(r, a).reader, b).starts,
                                        Replay(Replay(r, a).reader, b).reader)
    decreases |a|
  {
    if a != [] {
      var r1 := Read(r, a[0]);
      var h: seq<uint64> := if a[0].NoteLine? then [r.now] else [];
      var x := Replay(r1, a[1..]);
      var y := Replay(x.reader, b);
      assert (a + b)[0] == a[0] && (a + b)[1..] == a[1..] + b;
      ReplayAppend(r1, a[1..], b);
      assert Replay(r, a) == Replayed(h + x.starts, x.reader);
      assert (h + x.starts) + y.starts == h + (x.starts + y.starts);
    } else {
      assert a + b == b;
    }
  }

  /** Every duration in `ps` fits the 32-bit field it is printed in. */
  ghost predicate ShortNotes(ps: seq<Note>) {
    forall k :: 0 <= k < |ps| ==> ps[k].duration < TwoTo32
  }

  function ReaderOf(p: Printer): Reader {
    Reader(p.lastTime, p.naturalDuration)
  }

  /** Reading back the heading of a note moves the reader's clock to the note's start, in step with the printer. */
  lemma HeadingReplays(p: Printer, n: Note)
    ensures Replay(ReaderOf(p), Heading(p, n)) == Replayed([], ReaderOf(Advanced(p, n)))
  {
    var h := Heading(p, n);
    var r := ReaderOf(p);
    if h != [] {
      var r1 := Read(r, h[0]);
      assert h[1..][1..] == [];
      assert Replay(r1, h[1..]) == Replayed([], Read(r1, h[1]));
    }
  }

  /** Reading back the tokens of one note puts it at its own start time and leaves the reader in step with the printer. */
  lemma EmitNoteReplays(p: Printer, n: Note)
    requires n.duration < TwoTo32
    ensures var e := EmitNote(p, n);
      Replay(ReaderOf(p), e.tokens) == Replayed([n.time], ReaderOf(e.printer))
  {
    var h := Heading(p, n);
    HeadingReplays(p, n);
    ReplayAppend(ReaderOf(p), h, [NoteToken(n)]);
    var r' := ReaderOf(Advanced(p, n));
    assert r'.now == n.time;
    assert Replay(r', [NoteToken(n)]) == Replayed([r'.now], Read(r', NoteToken(n)));
  }

  /**
   * Reading back the tokens a drain prints, starting from the printer's
   * clock, gives the start time of every drained note in order, provided
   * their durations fit the 32-bit field they are printed in.
   */
  lemma {:induction false} DrainReplays(p: Printer, ps: seq<Note>)
    requires ShortNotes(ps)
    ensures var d := Drain(p, ps);
      Replay(ReaderOf(p), d.tokens) == Replayed(Starts(ps[..|ps| - |d.rest|]), ReaderOf(d.printer))
    decreases |ps|
  {
    if ps == [] || !ps[0].done {
      assert ps[..0] == [];
    } else {
      var e := EmitNote(p, ps[0]);
      var d := Drain(e.printer, ps[1..]);
      var taken := |ps| - |d.rest|;
      EmitNoteReplays(p, ps[0]);
      DrainReplays(e.printer, ps[1..]);
      ReplayAppend(ReaderOf(p), e.tokens, d.tokens);
      assert ps[..taken][1..] == ps[1..][..taken - 1];
    }
  }

  // ---------------------------------------------------------------- the queue in place

  /** `note_list`, `note_count`, `note_offset`, the statics of `stop_note`, and standard output. */
  class NoteQueue {
    const notes: array<Note>
    var count: nat
    var offset: nat
    var lastTime: uint64
    var naturalDuration: uint64
    var notesSameTime: uint32
    var output: seq<Token>
    /** The live notes, oldest first. */
    ghost var Pending: seq<Note>

    /** `i & NOTE_INDEX_MASK`. */
    static function Slot(i: nat): (s: nat)
      ensures s < QueueSize
    {
      i % QueueSize
    }

    ghost predicate Valid()
      reads this, notes
    {
      && notes.Length == QueueSize && count <= QueueSize && |Pending| == count
      && forall k :: 0 <= k < count ==> notes[Slot(offset + k)] == Pending[k]
    }

    /** The statics of `stop_note` as a printer state. */
    function Statics(): Printer
      reads this
    {
      Printer(lastTime, naturalDuration, notesSameTime)
    }

    /** The program's initial state: an empty queue, zeroed statics, nothing printed. */
    constructor ()
      ensures Valid() && Pending == [] && offset == 0 && Statics() == Printer(0, 0, 0) && output == []
    {
      notes := new Note[QueueSize](_ => Note(false, ChannelNone, 0, 0, 0, 0, 0));
      count, offset := 0, 0;
      lastTime, naturalDuration, notesSameTime := 0, 0, 0;
      output := [];
      Pending := [];
    }

    /** `start_note`: queues an unfinished note behind the others, unless all 256 slots are taken. */
    method StartNote(channel: Channel, time: uint64, tone: byte, velocityStart: byte) returns (ok: bool)
      requires Valid()
      modifies this, notes
      ensures Valid() && ok == (old(count) < QueueSize)
      ensures Pending == if ok then old(Pending) + [Note(false, channel, time, 0, tone, velocityStart, 0)] else old(Pending)
      ensures offset == old(offset) && Statics() == old(Statics()) && output == old(output)
    {
      if count >= QueueSize {
        return false;
      }
      var n := Note(false, channel, time, 0, tone, velocityStart, 0);
      notes[Slot(offset + count)] := n;
      forall k | 0 <= k < count
        ensures notes[Slot(offset + k)] == Pending[k]
      {
        SlotsDistinct(offset + k, count - k);
      }
      count := count + 1;
      Pending := Pending + [n];
      ok := true;
    }

    /**
     * `stop_note`: finishes the oldest matching unfinished note, then drains
     * and prints the finished notes at the front of the queue. Without a
     * matching note nothing changes.
     */
    method StopNote(channel: Channel, time: uint64, tone: byte, velocityEnd: byte) returns (ok: bool)
      requires Valid()
      modifies this, notes
      ensures Valid()
      ensures ok == FindOpen(old(Pending), channel, tone).Some?
      ensures !ok ==> Pending == old(Pending) && offset == old(offset) && Statics() == old(Statics()) && output == old(output)
      ensures ok ==>
        var d := Drain(old(Statics()), Finish(old(Pending), FindOpen(old(Pending), channel, tone).value, time, velocityEnd));
        && Pending == d.rest && Statics() == d.printer && output == old(output) + d.tokens
        && offset == old(offset) + (old(count) - count)
    {
      var i := offset;
      var n := offset + count;
      while i < n
        invariant offset <= i <= n == offset + count
        invariant forall j :: 0 <= j < i - offset ==> !Matches(Pending[j], channel, tone)
      {
        var note := notes[Slot(i)];
        assert note == Pending[i - offset];
        if note.done || note.channel != channel || note.tone != tone {
          i := i + 1;
          continue;
        }
        assert FindOpen(Pending, channel, tone) == Some(i - offset);
        FinishSlot(i - offset, time, velocityEnd);
        DrainFront();
        return true;
      }
      return false;
    }

    /** The first half of the found branch of `stop_note`: the note in queue position `j` is marked finished at `time`. */
    method FinishSlot(j: nat, time: uint64, velocityEnd: byte)
      requires Valid() && j < count
      modifies this, notes
      ensures Valid() && Pending == Finish(old(Pending), j, time, velocityEnd)
      ensures count == old(count) && offset == old(offset) && Statics() == old(Statics()) && output == old(output)
    {
      var s := Slot(offset + j);
      var note := notes[s];
      notes[s] := note.(done := true, duration := Sub64(time, note.time), velocityEnd := velocityEnd);
      Pending := Finish(Pending, j, time, velocityEnd);
      forall k | 0 <= k < count
        ensures notes[Slot(offset + k)] == Pending[k]
      {
        if k < j {
          SlotsDistinct(offset + k, j - k);
        } else if k > j {
          SlotsDistinct(offset + j, k - j);
        }
      }
    }

    /** The `while` of `stop_note`: prints and removes finished notes from the front. */
    method DrainFront()
      requires Valid()
      modifies this
      ensures Valid()
      ensures var d := Drain(old(Statics()), old(Pending));
        && Pending == d.rest && Statics() == d.printer && output == old(output) + d.tokens
        && offset == old(offset) + (old(count) - count)
    {
      ghost var d := Drain(Statics(), Pending);
      ghost var todo := d.tokens;
      while count > 0 && notes[Slot(offset)].done
        invariant Valid() && offset - old(offset) == old(count) - count
        invariant Drain(Statics(), Pending) == Drained(d.printer, d.rest, todo)
        invariant output + todo == old(output) + d.tokens
        decreases count
      {
        assert notes[Slot(offset + 0)] == Pending[0];
        todo := PrintFront(d, todo);
      }
      assert count > 0 ==> notes[Slot(offset + 0)] == Pending[0];
      DrainStops(Statics(), Pending);
    }

    /** One pass of the drain loop, as a step of `Drain`: `todo` is what the drain still has to print. */
    method PrintFront(ghost d: Drained, ghost todo: seq<Token>) returns (ghost rest: seq<Token>)
      requires Valid() && count > 0 && Pending[0].done
      requires Drain(Statics(), Pending) == Drained(d.printer, d.rest, todo)
      modifies this
      ensures Valid() && count == old(count) - 1 && offset == old(offset) + 1 && Pending == old(Pending)[1..]
      ensures Drain(Statics(), Pending) == Drained(d.printer, d.rest, rest)
      ensures output + rest == old(output) + todo
    {
      ghost var p, ps, out := Statics(), Pending, output;
      PrintNote();
      rest := DrainTail(p, ps, d, todo, Statics(), out, output);
    }

    /** One pass of the drain loop: the oldest note, finished, is printed and leaves the queue. */
    method PrintNote()
      requires Valid() && count > 0
      modifies this
      ensures Valid() && count == old(count) - 1 && offset == old(offset) + 1 && Pending == old(Pending)[1..]
      ensures var e := EmitNote(old(Statics()), old(Pending)[0]);
        Statics() == e.printer && output == old(output) + e.tokens
    {
      var note := notes[Slot(offset)];
      assert note == Pending[0] by {
        assert notes[Slot(offset + 0)] == Pending[0];
      }
      PrintHeading(note);
      if naturalDuration < note.duration {
        naturalDuration := note.duration;
      }
      output := output + [NoteToken(note)];
      count := count - 1;
      offset := offset + 1;
      Pending := Pending[1..];
      forall k | 0 <= k < count
        ensures notes[Slot(offset + k)] == Pending[k]
      {
        assert offset + k == old(offset) + (k + 1);
      }
    }

    /** The part of the drain loop before the note line: the separator and `>>` when the start time moves on. */
    method PrintHeading(note: Note)
      modifies this
      ensures Statics() == Advanced(old(Statics()), note) && output == old(output) + Heading(old(Statics()), note)
      ensures count == old(count) && offset == old(offset) && Pending == old(Pending)
    {
      var diff := Sub64(note.time, lastTime);
      notesSameTime := Inc32(notesSameTime);
      if diff != 0 {
        output := output + [Separator(notesSameTime > 1)];
        notesSameTime := 0;
        if naturalDuration == diff {
          output := output + [Advance];
        } else {
          output := output + [AdvanceBy(diff)];
        }
        naturalDuration := if naturalDuration > diff then naturalDuration - diff else 0;
        lastTime := note.time;
      }
    }
  }

  /** Two queue positions less than 256 apart never share a slot. */
  lemma SlotsDistinct(a: nat, d: nat)
    requires 0 < d < QueueSize
    ensures NoteQueue.Slot(a) != NoteQueue.Slot(a + d)
  {
    var q, r := a / QueueSize, a % QueueSize;
    assert a == QueueSize * q + r;
    if r + d < QueueSize {
      ModUnique(a + d, QueueSize, q, r + d);
    } else {
      ModUnique(a + d, QueueSize, q + 1, r + d - QueueSize);
    }
  }
}
