/**
 * swarm_receives_and_sends_OSC.py: a five-dimensional flock whose centroid is
 * sent as a note event. Dimension 0 is the frequency (a MIDI note number),
 * 1 the amplitude, 2 the duration and 3 the interval to the next note; each is
 * the boids' mean coordinate mapped linearly from [0, DIMLIMIT] onto its own
 * range. An incoming `/attr` message carries a frequency, an amplitude and a
 * duration, which attractor_handler maps back onto the first three
 * coordinates of an attractor.
 */
module SwarmReceivesAndSendsOsc {
  import opened Wrappers
  import opened MultiD
  import opened FlockN

  const NDIMS: nat := 5
  const MAXFREQ: real := 90.0
  const MINFREQ: real := 20.0
  const MAXAMP: real := 0.9
  const MAXDUR: real := 100.0
  const MINDUR: real := 10.0
  const MAXIOI: real := 100.0
  const MINIOI: real := 10.0
  const FREQSCALER: real := (MAXFREQ - MINFREQ) / DIMLIMIT
  const AMPSCALER: real := MAXAMP / DIMLIMIT
  const DURSCALER: real := (MAXDUR - MINDUR) / DIMLIMIT
  const IOISCALER: real := (MAXIOI - MINIOI) / DIMLIMIT
  /** The largest coordinate attractor_handler can write (into the frequency dimension). */
  const HANDLER_CEILING: real := 900.0

  /** The note event makesound derives from the boids' mean coordinates, unclamped. */
  datatype NoteEvent = NoteEvent(freq: real, amp: real, dur: real, ioi: real)

  function NoteOf(ps: seq<Vec>): (r: NoteEvent)
    requires |ps| > 0 && Uniform(ps, NDIMS)
  {
    NoteEvent(
      Mean(ps, 0) * FREQSCALER + MINFREQ,
      Mean(ps, 1) * AMPSCALER,
      Mean(ps, 2) * DURSCALER + MINDUR,
      Mean(ps, 3) * IOISCALER + MINIOI)
  }

  /**
   * Every parameter grows with its mean coordinate, and while the boids are
   * inside [0, DIMLIMIT] in dimensions 0 to 3 each lies in its own range:
   * the note is in [MINFREQ, MAXFREQ], the amplitude in [0, MAXAMP], the
   * duration in [MINDUR, MAXDUR] and the interval in [MINIOI, MAXIOI].
   */
  lemma NoteInRange(ps: seq<Vec>)
    requires |ps| > 0 && Uniform(ps, NDIMS)
    requires forall j, d :: 0 <= j < |ps| && 0 <= d < 4 ==> 0.0 <= ps[j][d] <= DIMLIMIT
    ensures var e := NoteOf(ps);
      && MINFREQ <= e.freq <= MAXFREQ && 0.0 <= e.amp <= MAXAMP
      && MINDUR <= e.dur <= MAXDUR && MINIOI <= e.ioi <= MAXIOI
  {
    MeanBounded(ps, 0, 0.0, DIMLIMIT);
    MeanBounded(ps, 1, 0.0, DIMLIMIT);
    MeanBounded(ps, 2, 0.0, DIMLIMIT);
    MeanBounded(ps, 3, 0.0, DIMLIMIT);
  }

  /**
   * makesound as a function of the clock, the first-note draw and the boids'
   * positions: a due note sends `[freq, amp, dur]` and schedules the next note
   * `ioi` ticks later. The interval is not clamped, so a flock outside the
   * space can schedule the next note in the past.
   */
  function Schedule(noteTime: real, simTime: int, firstDraw: int, ps: seq<Vec>): (r: Sound)
    requires FIRST_NOTE_MIN <= firstDraw <= FIRST_NOTE_MAX && |ps| > 0 && Uniform(ps, NDIMS)
    ensures var due := Due(noteTime, firstDraw);
      && (r.note.Some? <==> due < simTime as real)
      && (r.note.None? ==> r.noteTime == due)
      && (r.note.Some? ==> |r.note.value| == 3)
  {
    var due := Due(noteTime, firstDraw);
    if due < simTime as real then
      var e := NoteOf(ps);
      Sound(simTime as real + e.ioi, Some([e.freq, e.amp, e.dur]))
    else
      Sound(due, None)
  }

  /** With the boids inside the space, a sent note has parameters in range and the next one is MINIOI to MAXIOI ticks away. */
  lemma ScheduleInRange(noteTime: real, simTime: int, firstDraw: int, ps: seq<Vec>)
    requires FIRST_NOTE_MIN <= firstDraw <= FIRST_NOTE_MAX && |ps| > 0 && Uniform(ps, NDIMS)
    requires forall j, d :: 0 <= j < |ps| && 0 <= d < 4 ==> 0.0 <= ps[j][d] <= DIMLIMIT
    requires Schedule(noteTime, simTime, firstDraw, ps).note.Some?
    ensures var r := Schedule(noteTime, simTime, firstDraw, ps);
      && simTime as real + MINIOI <= r.noteTime <= simTime as real + MAXIOI
      && MINFREQ <= r.note.value[0] <= MAXFREQ
      && 0.0 <= r.note.value[1] <= MAXAMP
      && MINDUR <= r.note.value[2] <= MAXDUR
  {
    NoteInRange(ps);
  }

  /** The frequency coordinate attractor_handler writes: `int(min(max(f - MINFREQ, 0), MAXFREQ) / FREQSCALER)`. */
  function FreqDim(f: real): (r: int)
    ensures 0 <= r <= HANDLER_CEILING as int
  {
    (Min(Max(f - MINFREQ, 0.0), MAXFREQ) / FREQSCALER).Floor
  }

  /** The amplitude coordinate: `int(min(max(a, 0), MAXAMP) / AMPSCALER)`. */
  function AmpDim(a: real): (r: int)
    ensures 0 <= r <= DIMLIMIT as int
  {
    (Min(Max(a, 0.0), MAXAMP) / AMPSCALER).Floor
  }

  /** The duration coordinate: `int(min(max(d - MINDUR, 0), MAXDUR) / DURSCALER)`. */
  function DurDim(d: real): (r: int)
    ensures 0 <= r <= 777
  {
    (Min(Max(d - MINDUR, 0.0), MAXDUR) / DURSCALER).Floor
  }

  /**
   * Sending a note and receiving it back as an attractor position recovers
   * the integer part of the mean coordinate in each of the three dimensions,
   * as long as that mean lies in [0, DIMLIMIT].
   */
  lemma HandlerInvertsNote(m: real)
    requires 0.0 <= m <= DIMLIMIT
    ensures FreqDim(m * FREQSCALER + MINFREQ) == m.Floor
    ensures AmpDim(m * AMPSCALER) == m.Floor
    ensures DurDim(m * DURSCALER + MINDUR) == m.Floor
  {
    assert Min(Max(m * FREQSCALER + MINFREQ - MINFREQ, 0.0), MAXFREQ) == m * FREQSCALER;
    assert (m * FREQSCALER) / FREQSCALER == m;
    assert Min(Max(m * AMPSCALER, 0.0), MAXAMP) == m * AMPSCALER;
    assert (m * AMPSCALER) / AMPSCALER == m;
    assert Min(Max(m * DURSCALER + MINDUR - MINDUR, 0.0), MAXDUR) == m * DURSCALER;
    assert (m * DURSCALER) / DURSCALER == m;
  }

  /**
   * The clamps of the frequency and the duration stop at MAXFREQ and MAXDUR
   * after MINFREQ and MINDUR were subtracted, so values above the note range
   * still move the attractor beyond DIMLIMIT: a frequency of 110 or more
   * lands at 900 and a duration of 110 or more at 777.
   */
  lemma HandlerBeyondSpace(f: real, d: real)
    requires f >= MINFREQ + MAXFREQ && d >= MINDUR + MAXDUR
    ensures FreqDim(f) == 900 && DurDim(d) == 777
  {
    assert Min(Max(f - MINFREQ, 0.0), MAXFREQ) == MAXFREQ;
    assert Min(Max(d - MINDUR, 0.0), MAXDUR) == MAXDUR;
  }

  /** One coordinate of the attractor after attractor_handler received `stuff`. */
  function HandledDim(p: Vec, stuff: seq<real>, d: nat): real
    requires |p| == NDIMS && d < NDIMS
  {
    if d == 0 && 0 < |stuff| then FreqDim(stuff[0]) as real
    else if d == 1 && 1 < |stuff| then AmpDim(stuff[1]) as real
    else if d == 2 && 2 < |stuff| then DurDim(stuff[2]) as real
    else p[d]
  }

  /**
   * The attractor position after attractor_handler: the first three
   * coordinates are written from the message as far as it reaches; the last
   * two are never touched.
   */
  function Handled(p: Vec, stuff: seq<real>): (r: Vec)
    requires |p| == NDIMS
    ensures |r| == NDIMS && r[3] == p[3] && r[4] == p[4]
  {
    seq(NDIMS, d requires 0 <= d < NDIMS => HandledDim(p, stuff, d))
  }

  /** An attractor inside [0, HANDLER_CEILING] stays inside after any message. */
  lemma HandledWithin(p: Vec, stuff: seq<real>)
    requires |p| == NDIMS && forall d :: 0 <= d < NDIMS ==> 0.0 <= p[d] <= HANDLER_CEILING
    ensures forall d :: 0 <= d < NDIMS ==> 0.0 <= Handled(p, stuff)[d] <= HANDLER_CEILING
  {
  }

  /** Every vector has NDIMS coordinates, each in [lo, hi]. */
  ghost predicate DrawsWithin(draws: seq<seq<int>>, lo: real, hi: real)
  {
    forall k :: 0 <= k < |draws| ==>
      |draws[k]| == NDIMS && forall d :: 0 <= d < NDIMS ==> lo <= draws[k][d] as real <= hi
  }

  ghost predicate AttractorsWithin(attractors: seq<Attractor>, hi: real)
    reads attractors
  {
    forall a, d :: 0 <= a < |attractors| && 0 <= d < |attractors[a].position| ==>
      0.0 <= attractors[a].position[d] <= hi
  }

  class Simulation {
    const boids: seq<Boid>
    const attractors: seq<Attractor>
    /** `sim_time`: the number of updates so far. */
    var simTime: int
    /** `note_time`: when the next note is due; 0 until one is drawn. */
    var noteTime: real

    /**
     * BOIDS distinct boids and ATTRACTORS attractors of strength ATTRACTION in
     * NDIMS dimensions, every attractor inside [0, HANDLER_CEILING], and a
     * clock that has not run backwards.
     */
    ghost predicate Valid()
      reads this, boids, attractors
    {
      && |boids| == BOIDS && |attractors| == ATTRACTORS
      && FlockShaped(boids, attractors, NDIMS)
      && AttractorsDistinct(attractors)
      && (forall a :: 0 <= a < |attractors| ==> attractors[a].attraction == ATTRACTION)
      && AttractorsWithin(attractors, HANDLER_CEILING)
      && 0 <= simTime
    }

    /** initialise(): build_boids and build_attractors from the given draws, with both clocks at 0. */
    constructor (boidDraws: seq<seq<int>>, attractorDraws: seq<seq<int>>)
      requires |boidDraws| == BOIDS && DrawsWithin(boidDraws, 0.0, DIMLIMIT)
      requires |attractorDraws| == ATTRACTORS && DrawsWithin(attractorDraws, 1.0, DIMLIMIT)
      ensures Valid() && simTime == 0 && noteTime == 0.0
      ensures forall k :: 0 <= k < BOIDS ==>
        boids[k].position == AsReals(boidDraws[k]) && boids[k].velocity == Zero(NDIMS)
      ensures forall a :: 0 <= a < ATTRACTORS ==> attractors[a].position == AsReals(attractorDraws[a])
    {
      var bs: seq<Boid> := [];
      for k := 0 to BOIDS
        invariant |bs| == k && Distinct(bs)
        invariant forall j :: 0 <= j < k ==>
          && bs[j].position == AsReals(boidDraws[j]) && bs[j].velocity == Zero(NDIMS)
          && |bs[j].velocity| == NDIMS && bs[j].moveDivider == MOVE_DIVIDER
      {
        var b := new Boid(boidDraws[k], FRAMES_PER_SEC);
        bs := bs + [b];
      }
      var ats: seq<Attractor> := [];
      for k := 0 to ATTRACTORS
        invariant |ats| == k && AttractorsDistinct(ats)
        invariant forall a :: 0 <= a < k ==>
          ats[a].position == AsReals(attractorDraws[a]) && ats[a].attraction == ATTRACTION
        invariant forall j :: 0 <= j < BOIDS ==>
          bs[j].position == AsReals(boidDraws[j]) && bs[j].velocity == Zero(NDIMS)
      {
        var a := new Attractor(attractorDraws[k], ATTRACTION);
        ats := ats + [a];
      }
      boids := bs;
      attractors := ats;
      simTime := 0;
      noteTime := 0.0;
    }

    /** makesound(), with the source's single loop over the boids summing four dimensions. */
    method MakeSound(firstDraw: int) returns (note: Option<seq<real>>)
      requires Valid() && FIRST_NOTE_MIN <= firstDraw <= FIRST_NOTE_MAX
      modifies this`noteTime
      ensures Valid()
      ensures Sound(noteTime, note) == Schedule(old(noteTime), simTime, firstDraw, Positions(boids))
    {
      ghost var ps := Positions(boids);
      if noteTime == 0.0 {
        noteTime := firstDraw as real;
      }
      note := None;
      if noteTime < simTime as real {
        var freq, amp, dur, ioi := 0.0, 0.0, 0.0, 0.0;
        for j := 0 to |boids|
          invariant freq == DimSum(ps, 0, j) && amp == DimSum(ps, 1, j)
          invariant dur == DimSum(ps, 2, j) && ioi == DimSum(ps, 3, j)
        {
          freq := freq + boids[j].position[0];
          amp := amp + boids[j].position[1];
          dur := dur + boids[j].position[2];
          ioi := ioi + boids[j].position[3];
        }
        var n := |boids| as real;
        freq := (freq / n) * FREQSCALER + MINFREQ;
        amp := (amp / n) * AMPSCALER;
        dur := (dur / n) * DURSCALER + MINDUR;
        ioi := (ioi / n) * IOISCALER + MINIOI;
        ghost var e := NoteOf(ps);
        assert |ps| == |boids|;
        assert freq == e.freq && amp == e.amp && dur == e.dur && ioi == e.ioi;
        note := Some([freq, amp, dur]);
        noteTime := simTime as real + ioi;
      }
    }

    /**
     * attractor_handler(): the attractor `random.choice` picked (`choice`)
     * takes the received frequency, amplitude and duration. A message with
     * fewer than three values raises IndexError after the coordinates it has
     * were written; `ok` is false exactly then.
     */
    method AttractorHandler(choice: nat, stuff: seq<real>) returns (ok: bool)
      requires Valid() && choice < |attractors|
      modifies attractors[choice]
      ensures Valid()
      ensures forall a :: 0 <= a < |attractors| && a != choice ==> attractors[a].position == old(attractors[a].position)
      ensures ok <==> |stuff| >= 3
      ensures attractors[choice].position == Handled(old(attractors[choice].position), stuff)
    {
      var attractor := attractors[choice];
      ghost var p := attractor.position;
      if |stuff| < 1 {
        assert attractor.position == Handled(p, stuff);
        return false;
      }
      attractor.position := attractor.position[0 := FreqDim(stuff[0]) as real];
      if |stuff| < 2 {
        assert attractor.position == Handled(p, stuff);
        return false;
      }
      attractor.position := attractor.position[1 := AmpDim(stuff[1]) as real];
      if |stuff| < 3 {
        assert attractor.position == Handled(p, stuff);
        return false;
      }
      attractor.position := attractor.position[2 := DurDim(stuff[2]) as real];
      assert attractor.position == Handled(p, stuff);
      ok := true;
    }

    /** update()'s call of move(): one tick of the flock; every boid ends it within SPEED_LIMIT in every dimension. */
    method MoveFlock()
      requires Valid()
      modifies boids
      ensures Valid()
      ensures AttractorStates(attractors) == old(AttractorStates(attractors))
      ensures States(boids) == MoveFirst(old(States(boids)), AttractorStates(attractors), NDIMS, BOIDS)
      ensures SpeedsWithin(States(boids))
    {
      ghost var attrs := AttractorStates(attractors);
      ghost var start := States(boids);
      Move(boids, attractors, NDIMS);
      MoveKeepsSpeedLimit(start, attrs, NDIMS);
      assert AttractorStates(attractors) == attrs;
      assert AttractorsWithin(attractors, HANDLER_CEILING);
    }

    /** update()'s `sim_time += 1`: the clock advances by one tick and nothing else changes. */
    method Tick()
      requires Valid()
      modifies this`simTime
      ensures Valid() && simTime == old(simTime) + 1
    {
      simTime := simTime + 1;
    }

    /** update(): move the flock, maybe send a note, then advance the clock by one tick. */
    method Update(firstDraw: int) returns (note: Option<seq<real>>)
      requires Valid() && FIRST_NOTE_MIN <= firstDraw <= FIRST_NOTE_MAX
      modifies this, boids
      ensures Valid()
      ensures States(boids) == MoveFirst(old(States(boids)), AttractorStates(attractors), NDIMS, BOIDS)
      ensures Sound(noteTime, note) == Schedule(old(noteTime), old(simTime), firstDraw, Positions(boids))
      ensures simTime == old(simTime) + 1
      ensures SpeedsWithin(States(boids))
    {
      MoveFlock();
      note := MakeSound(firstDraw);
      Tick();
    }
  }
}
