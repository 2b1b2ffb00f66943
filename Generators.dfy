/**
 * The integer side of the tracker's synthesiser (src/main.c): the phase
 * counter of a tone, the list of active generators, the pass over that list
 * that produces one output sample, and the clamp of a sample to 32 bits.
 *
 * The amplitude itself (the waveform, the envelope and their sum) is
 * floating-point arithmetic and is not part of this model; a pass is
 * described by what it does to the list.
 */
module Generators {
  import opened Ints

  /** `struct tone`, without the tracker and waveform pointers: both in samples. */
  datatype Tone = Tone(duration: uint32, phase: uint32)

  /**
   * The phase update of `tone_get_sample`: one step forward, in unsigned
   * 32-bit arithmetic, back to 0 when it reaches the period.
   */
  function NextPhase(t: Tone): (r: Tone)
    ensures r.duration == t.duration
    ensures t.phase < t.duration ==> r.phase == (t.phase + 1) % t.duration
    ensures t.phase >= t.duration ==> r.phase == 0
    ensures t.duration > 0 ==> r.phase < t.duration
  {
    var phase := if t.phase + 1 == TwoTo32 then 0 else t.phase + 1;
    var r := t.(phase := if phase >= t.duration then 0 else phase);
    if t.phase < t.duration then (WrapsAtPeriod(t.phase, t.duration); r) else r
  }

  /** One step round a period of `d`. */
  lemma WrapsAtPeriod(p: nat, d: nat)
    requires p < d
    ensures (p + 1) % d == if p + 1 == d then 0 else p + 1
  {
    if p + 1 == d {
      ModUnique(p + 1, d, 1, 0);
    } else {
      ModUnique(p + 1, d, 0, p + 1);
    }
  }

  /** `n` samples of the same tone. */
  function Advance(t: Tone, n: nat): (r: Tone)
    decreases n
  {
    if n == 0 then t else Advance(NextPhase(t), n - 1)
  }

  /** After `n` samples the phase of a tone is `n` steps further round its period. */
  lemma {:induction false} AdvanceIsModular(t: Tone, n: nat)
    requires t.phase < t.duration
    ensures Advance(t, n) == t.(phase := (t.phase + n) % t.duration)
    decreases n
  {
    if n > 0 {
      var u := NextPhase(t);
      AdvanceIsModular(u, n - 1);
      StepThenAdvance(t.phase, t.duration, n - 1);
    }
  }

  /** Taking one step round the period and then `m` more is taking `m + 1`. */
  lemma StepThenAdvance(p: nat, d: nat, m: nat)
    requires p < d
    ensures ((p + 1) % d + m) % d == (p + 1 + m) % d
  {
    WrapsAtPeriod(p, d);
    if p + 1 == d {
      ModUnique(d + m, d, m / d + 1, m % d);
    }
  }

  /** The phase is periodic: a whole period of samples brings it back to where it was. */
  lemma WholePeriod(t: Tone)
    requires t.phase < t.duration
    ensures Advance(t, t.duration) == t
  {
    AdvanceIsModular(t, t.duration);
    ModUnique(t.phase + t.duration, t.duration, 1, t.phase);
  }

  /** `struct generator`, without the link: `time` counts the samples produced so far. */
  datatype Generator = Generator(duration: uint64, time: uint64, tone: Tone)

  /** A generator expires on the first pass that finds `time >= duration`. */
  predicate Expired(g: Generator) {
    g.time >= g.duration
  }

  /** A visited, live generator: its clock and its tone move on by one sample. */
  function Tick(g: Generator): (r: Generator)
    requires !Expired(g)
    ensures r.duration == g.duration && r.time == g.time + 1 && r.tone == NextPhase(g.tone)
  {
    g.(time := g.time + 1, tone := NextPhase(g.tone))
  }

  /**
   * The list after one pass of `tracker_generate_sample`, as written: an
   * expired generator is unlinked, and the step `pit = (*pit) ? &(*pit)->next : pit`
   * then moves past its successor, which is neither advanced nor checked on
   * this pass.
   */
  function Pass(gs: seq<Generator>): (r: seq<Generator>)
    ensures |r| <= |gs|
    decreases |gs|
  {
    if gs == [] then []
    else if Expired(gs[0]) then
      if |gs| == 1 then [] else [gs[1]] + Pass(gs[2..])
    else [Tick(gs[0])] + Pass(gs[1..])
  }

  /** The list after a pass that visits every generator: every expired one is dropped, every other one advanced. */
  function PassAll(gs: seq<Generator>): (r: seq<Generator>)
    ensures |r| <= |gs|
    decreases |gs|
  {
    if gs == [] then []
    else if Expired(gs[0]) then PassAll(gs[1..])
    else [Tick(gs[0])] + PassAll(gs[1..])
  }

  /**
   * With every generator visited, the survivors are the generators that were
   * live, in order, each one sample further on; none of the expired ones is left.
   */
  lemma {:induction false} PassAllKeepsLive(gs: seq<Generator>)
    ensures |PassAll(gs)| == |Live(gs)|
    ensures forall k :: 0 <= k < |PassAll(gs)| ==> PassAll(gs)[k] == Tick(Live(gs)[k])
    decreases |gs|
  {
    if gs != [] {
      var rest := gs[1..];
      PassAllKeepsLive(rest);
      if Expired(gs[0]) {
        assert PassAll(gs) == PassAll(rest);
        assert Live(gs) == [] + Live(rest) == Live(rest);
      } else {
        assert PassAll(gs) == [Tick(gs[0])] + PassAll(rest);
        assert Live(gs) == [gs[0]] + Live(rest);
        forall k | 0 <= k < |PassAll(gs)|
          ensures PassAll(gs)[k] == Tick(Live(gs)[k])
        {
          if k > 0 {
            assert PassAll(gs)[k] == PassAll(rest)[k - 1];
            assert Live(gs)[k] == Live(rest)[k - 1];
          }
        }
      }
    }
  }

  /** The generators of `gs` that have not expired, in order. */
  function Live(gs: seq<Generator>): (r: seq<Generator>)
    ensures |r| <= |gs|
    ensures forall k :: 0 <= k < |r| ==> !Expired(r[k])
    decreases |gs|
  {
    if gs == [] then [] else (if Expired(gs[0]) then [] else [gs[0]]) + Live(gs[1..])
  }

  /** An expired generator followed by a live one: the pass as written leaves the live one unadvanced. */
  lemma SuccessorOfExpiredIsSkipped(g: Generator, h: Generator)
    requires Expired(g) && !Expired(h)
    ensures Pass([g, h]) == [h]
    ensures PassAll([g, h]) == [Tick(h)] && Tick(h) != h
  {
    assert [g, h][2..] == [];
    assert [g, h][1..] == [h];
    assert [h][1..] == [];
    assert PassAll([h]) == [Tick(h)] + PassAll([]);
    assert Tick(h).time != h.time;
  }

  /** `x` is one of the generators of `gs`, as it was or advanced by one sample. */
  predicate ComesFrom(x: Generator, gs: seq<Generator>) {
    exists j :: 0 <= j < |gs| && (x == gs[j] || (!Expired(gs[j]) && x == Tick(gs[j])))
  }

  /**
   * The pass as written never invents generators: each survivor is either a
   * live generator advanced by one sample or a generator left as it was.
   */
  lemma {:induction false} PassKeepsOrigins(gs: seq<Generator>)
    ensures forall k :: 0 <= k < |Pass(gs)| ==> ComesFrom(Pass(gs)[k], gs)
    decreases |gs|
  {
    if gs == [] {
    } else if Expired(gs[0]) && |gs| == 1 {
      assert Pass(gs) == [];
    } else {
      var skip := if Expired(gs[0]) then 2 else 1;
      var rest := gs[skip..];
      PassKeepsOrigins(rest);
      var head := if Expired(gs[0]) then gs[1] else Tick(gs[0]);
      assert Pass(gs) == [head] + Pass(rest);
      forall k | 0 <= k < |Pass(gs)|
        ensures ComesFrom(Pass(gs)[k], gs)
      {
        if k == 0 {
          assert Pass(gs)[k] == head;
          assert head == gs[skip - 1] || head == Tick(gs[0]);
        } else {
          assert Pass(gs)[k] == Pass(rest)[k - 1];
          var j :| 0 <= j < |rest| && (Pass(rest)[k - 1] == rest[j] || (!Expired(rest[j]) && Pass(rest)[k - 1] == Tick(rest[j])));
          assert rest[j] == gs[j + skip];
        }
      }
    }
  }

  /** With no expired generator on the list, the pass as written advances every generator, as the corrected one does. */
  lemma {:induction false} PassWithoutExpiry(gs: seq<Generator>)
    requires forall k :: 0 <= k < |gs| ==> !Expired(gs[k])
    ensures Pass(gs) == PassAll(gs)
    decreases |gs|
  {
    if gs != [] {
      PassWithoutExpiry(gs[1..]);
    }
  }

  /** `struct tracker`, as far as the list of generators goes. */
  class Tracker {
    /** `generator_list`, head first. */
    var generators: seq<Generator>

    constructor ()
      ensures generators == []
    {
      generators := [];
    }

    /** `tracker_add_generator`: a copy of the entry becomes the new head of the list. */
    method AddGenerator(entry: Generator)
      modifies this
      ensures generators == [entry] + old(generators)
    {
      generators := [entry] + generators;
    }

    /** `tracker_remove_generator`: the generator at position `k` is unlinked; the others keep their order. */
    method RemoveGenerator(k: nat)
      requires k < |generators|
      modifies this
      ensures generators == old(generators)[..k] + old(generators)[k + 1..]
    {
      generators := generators[..k] + generators[k + 1..];
    }

    /**
     * The list walk of `tracker_generate_sample`, with the step corrected: `k`
     * is the position `*pit` points at, and after an unlinking it stays put,
     * so the successor is the next generator visited.
     */
    method GenerateSample()
      modifies this
      ensures generators == PassAll(old(generators))
    {
      var k := 0;
      ghost var done, todo := [], generators;
      while k < |generators|
        invariant generators == done + todo && k == |done|
        invariant PassAll(old(generators)) == done + PassAll(todo)
        decreases |todo|
      {
        var g := generators[k];
        assert todo[0] == g;
        if Expired(g) {
          RemoveGenerator(k);
          PassAfterExpired(done, todo);
          todo := todo[1..];
        } else {
          generators := generators[k := Tick(g)];
          PassAfterLive(done, todo);
          done, todo := done + [Tick(g)], todo[1..];
          k := k + 1;
        }
      }
    }
  }

  /** The loop of `GenerateSample` after unlinking the expired generator at the head of `todo`. */
  lemma PassAfterExpired(done: seq<Generator>, todo: seq<Generator>)
    requires todo != [] && Expired(todo[0])
    ensures (done + todo)[..|done|] + (done + todo)[|done| + 1..] == done + todo[1..]
    ensures PassAll(todo) == PassAll(todo[1..])
  {
    assert (done + todo)[..|done|] == done;
    assert (done + todo)[|done| + 1..] == todo[1..];
  }

  /** The loop of `GenerateSample` after advancing the live generator at the head of `todo`. */
  lemma PassAfterLive(done: seq<Generator>, todo: seq<Generator>)
    requires todo != [] && !Expired(todo[0])
    ensures (done + todo)[|done| := Tick(todo[0])] == (done + [Tick(todo[0])]) + todo[1..]
    ensures done + PassAll(todo) == (done + [Tick(todo[0])]) + PassAll(todo[1..])
  {
    assert todo == [todo[0]] + todo[1..];
    assert PassAll(todo) == [Tick(todo[0])] + PassAll(todo[1..]);
  }

  /**
   * The `F_INT_32` clamp of `write_sample`: the sample saturates at
   * +-0x7FFFFFFF, so the most negative 32-bit value is never written.
   */
  function ClampInt32(sample: int): (r: int)
    ensures -0x7FFF_FFFF <= r <= 0x7FFF_FFFF
    ensures -0x7FFF_FFFF <= sample <= 0x7FFF_FFFF ==> r == sample
    ensures sample > 0x7FFF_FFFF ==> r == 0x7FFF_FFFF
    ensures sample < -0x7FFF_FFFF ==> r == -0x7FFF_FFFF
  {
    if sample > 0x7FFF_FFFF then 0x7FFF_FFFF
    else if sample < -0x7FFF_FFFF then -0x7FFF_FFFF
    else sample
  }

  /** Clamping is monotone: a louder sample is never written as a quieter one. */
  lemma ClampMonotone(a: int, b: int)
    requires a <= b
    ensures ClampInt32(a) <= ClampInt32(b)
  {
  }
}
