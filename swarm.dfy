/**
 * swarm.py: a six-dimensional flock that, once per note interval, sends the
 * normalised centroid of the boids as a note (`/swarmNote`) and lets an
 * incoming `/attr` message move an attractor to a new normalised position.
 *
 * The global clock `sim_time`, the next note time `note_time` and the two
 * tuples of objects are the fields of `Simulation`. The random draws of the
 * script (`random.randint`, `random.choice`) are parameters, with the ranges
 * the script draws from as preconditions; the message sent to SuperCollider is
 * the value `MakeSound` returns.
 */
module Swarm {
  import opened Wrappers
  import opened MultiD
  import opened FlockN

  const NDIMS: nat := 6
  const MAXIOI: real := 200.0
  const MINIOI: real := 1.0

  /** `max(min(x, 1.0), 0.0)` */
  function Clamp01(x: real): (r: real)
    ensures 0.0 <= r <= 1.0
    ensures 0.0 <= x <= 1.0 ==> r == x
    ensures x < 0.0 ==> r == 0.0
    ensures x > 1.0 ==> r == 1.0
  {
    Max(Min(x, 1.0), 0.0)
  }

  /** makesound's `dimvals`: per dimension, the boids' mean coordinate divided by DIMLIMIT, clamped to [0, 1]. */
  function Centroids(ps: seq<Vec>): (r: seq<real>)
    requires |ps| > 0 && Uniform(ps, NDIMS)
    ensures |r| == NDIMS
    ensures forall d :: 0 <= d < NDIMS ==> 0.0 <= r[d] <= 1.0
  {
    seq(NDIMS, d requires 0 <= d < NDIMS => Clamp01(DimSum(ps, d, |ps|) / (|ps| as real * DIMLIMIT)))
  }

  /** The inter-onset interval: the last normalised dimension mapped onto [MINIOI, MAXIOI]. */
  function Ioi(dimvals: seq<real>): (r: real)
    requires |dimvals| == NDIMS && 0.0 <= dimvals[NDIMS - 1] <= 1.0
    ensures MINIOI <= r <= MAXIOI
  {
    dimvals[NDIMS - 1] * (MAXIOI - MINIOI) + MINIOI
  }

  /**
   * makesound as a function of the clock, the first-note draw and the boids'
   * positions. A note time of 0 means "not drawn yet"; a note is due once the
   * note time is strictly before the clock, and sending one schedules the next
   * between MINIOI and MAXIOI ticks later.
   */
  function Schedule(noteTime: real, simTime: int, firstDraw: int, ps: seq<Vec>): (r: Sound)
    requires FIRST_NOTE_MIN <= firstDraw <= FIRST_NOTE_MAX && |ps| > 0 && Uniform(ps, NDIMS)
    ensures var due := Due(noteTime, firstDraw);
      && (r.note.Some? <==> due < simTime as real)
      && (r.note.None? ==> r.noteTime == due)
      && (r.note.Some? ==> |r.note.value| == NDIMS && forall d :: 0 <= d < NDIMS ==> 0.0 <= r.note.value[d] <= 1.0)
      && (r.note.Some? ==> simTime as real + MINIOI <= r.noteTime <= simTime as real + MAXIOI)
  {
    var due := Due(noteTime, firstDraw);
    if due < simTime as real then
      var dimvals := Centroids(ps);
      Sound(simTime as real + Ioi(dimvals), Some(dimvals))
    else
      Sound(due, None)
  }

  /**
   * A note time is either 0 (not drawn yet) or at least MINIOI, and makesound
   * keeps it so while leaving it non-zero: the first note time is drawn once.
   */
  lemma ScheduleDrawsOnce(noteTime: real, simTime: int, firstDraw: int, ps: seq<Vec>)
    requires FIRST_NOTE_MIN <= firstDraw <= FIRST_NOTE_MAX && |ps| > 0 && Uniform(ps, NDIMS)
    requires (noteTime == 0.0 || noteTime >= MINIOI) && 0 <= simTime
    ensures Schedule(noteTime, simTime, firstDraw, ps).noteTime >= MINIOI
  {
  }

  /** No two notes are sent on consecutive ticks: the interval after a note is at least MINIOI. */
  lemma NoNoteOnNextTick(noteTime: real, simTime: int, firstDraw: int, ps: seq<Vec>, later: seq<Vec>)
    requires FIRST_NOTE_MIN <= firstDraw <= FIRST_NOTE_MAX
    requires |ps| > 0 && Uniform(ps, NDIMS) && |later| > 0 && Uniform(later, NDIMS)
    requires Schedule(noteTime, simTime, firstDraw, ps).note.Some?
    ensures Schedule(Schedule(noteTime, simTime, firstDraw, ps).noteTime, simTime + 1, firstDraw, later).note.None?
  {
    var r := Schedule(noteTime, simTime, firstDraw, ps);
    assert r.noteTime >= simTime as real + 1.0;
  }

  /** Dividing by n * DIMLIMIT is dividing by n, then by DIMLIMIT. */
  lemma DivideTwice(s: real, n: real)
    requires n > 0.0
    ensures s / (n * DIMLIMIT) == (s / n) / DIMLIMIT
  {
    var m := s / n;
    var r := m / DIMLIMIT;
    assert m * n == s;
    assert r * DIMLIMIT == m;
    assert r * (n * DIMLIMIT) == (r * DIMLIMIT) * n;
  }

  /** Normalising by DIMLIMIT, clamping to [0, 1] and scaling back is clamping to [0, DIMLIMIT]. */
  lemma ClampScaled(m: real)
    ensures Clamp01(m / DIMLIMIT) * DIMLIMIT == Max(Min(m, DIMLIMIT), 0.0)
  {
    var q := m / DIMLIMIT;
    assert q * DIMLIMIT == m;
    if m < 0.0 {
      assert q < 0.0;
    } else if m > DIMLIMIT {
      assert q > 1.0;
    } else {
      assert 0.0 <= q <= 1.0;
    }
  }

  /** While every boid is inside [0, DIMLIMIT] in dimension d the clamp changes nothing: the value sent is the mean over DIMLIMIT. */
  lemma CentroidIsMean(ps: seq<Vec>, d: nat)
    requires |ps| > 0 && Uniform(ps, NDIMS) && d < NDIMS
    requires forall j :: 0 <= j < |ps| ==> 0.0 <= ps[j][d] <= DIMLIMIT
    ensures Centroids(ps)[d] * DIMLIMIT == DimSum(ps, d, |ps|) / |ps| as real
  {
    var n := |ps| as real;
    var s := DimSum(ps, d, |ps|);
    MeanBounded(ps, d, 0.0, DIMLIMIT);
    DivideTwice(s, n);
    ClampScaled(s / n);
  }

  /** One coordinate written by attractor_handler: the value clamped to [0, 1], times DIMLIMIT, truncated to an integer. */
  function Received(s: real): (r: int)
    ensures 0 <= r <= DIMLIMIT as int
    ensures 0.0 <= s <= 1.0 ==> r as real <= s * DIMLIMIT < r as real + 1.0
  {
    (Clamp01(s) * DIMLIMIT).Floor
  }

  /**
   * A centroid sent as a note and received back as an attractor position puts
   * the attractor at the boids' mean coordinate, clamped to [0, DIMLIMIT] and
   * truncated.
   */
  lemma ReceivedCentroid(ps: seq<Vec>, d: nat)
    requires |ps| > 0 && Uniform(ps, NDIMS) && d < NDIMS
    ensures Received(Centroids(ps)[d]) == Max(Min(DimSum(ps, d, |ps|) / |ps| as real, DIMLIMIT), 0.0).Floor
  {
    var n := |ps| as real;
    var s := DimSum(ps, d, |ps|);
    DivideTwice(s, n);
    ClampScaled(s / n);
  }

  /** The attractor position after attractor_handler wrote the first min(|stuff|, NDIMS) dimensions. */
  function Handled(p: Vec, stuff: seq<real>): (r: Vec)
    requires |p| == NDIMS
    ensures |r| == NDIMS
  {
    seq(NDIMS, d requires 0 <= d < NDIMS => if d < |stuff| then Received(stuff[d]) as real else p[d])
  }

  /** An attractor inside [0, DIMLIMIT] stays inside after any message, whatever the message holds. */
  lemma HandledWithin(p: Vec, stuff: seq<real>)
    requires |p| == NDIMS && forall d :: 0 <= d < NDIMS ==> 0.0 <= p[d] <= DIMLIMIT
    ensures forall d :: 0 <= d < NDIMS ==> 0.0 <= Handled(p, stuff)[d] <= DIMLIMIT
  {
  }

  /** A full message places the attractor wholly by the message: the old position does not matter. */
  lemma HandledFullIgnoresOld(p: Vec, q: Vec, stuff: seq<real>)
    requires |p| == NDIMS && |q| == NDIMS && |stuff| >= NDIMS
    ensures Handled(p, stuff) == Handled(q, stuff)
  {
  }

  /** Every vector has NDIMS coordinates, each in [lo, hi]. */
  ghost predicate DrawsWithin(draws: seq<seq<int>>, lo: real, hi: real)
  {
    forall k :: 0 <= k < |draws| ==>
      |draws[k]| == NDIMS && forall d :: 0 <= d < NDIMS ==> lo <= draws[k][d] as real <= hi
  }

  ghost predicate AttractorsWithin(attractors: seq<Attractor>, hi: real)
    reads attractors
  {
    forall a, d :: 0 <= a < |attractors| && 0 <= d < |attractors[a].position| ==>
      0.0 <= attractors[a].position[d] <= hi
  }

  class Simulation {
    const boids: seq<Boid>
    const attractors: seq<Attractor>
    /** `sim_time`: the number of updates so far. */
    var simTime: int
    /** `note_time`: when the next note is due; 0 until the first one is drawn. */
    var noteTime: real

    /**
     * BOIDS distinct boids and ATTRACTORS attractors of strength ATTRACTION in
     * NDIMS dimensions, every attractor inside [0, DIMLIMIT], a clock that
     * has not run backwards and a note time that is 0 or at least MINIOI.
     */
    ghost predicate Valid()
      reads this, boids, attractors
    {
      && |boids| == BOIDS && |attractors| == ATTRACTORS
      && FlockShaped(boids, attractors, NDIMS)
      && AttractorsDistinct(attractors)
      && (forall a :: 0 <= a < |attractors| ==> attractors[a].attraction == ATTRACTION)
      && AttractorsWithin(attractors, DIMLIMIT)
      && 0 <= simTime && (noteTime == 0.0 || noteTime >= MINIOI)
    }

    /** initialise(): build_boids and build_attractors from the given draws, with both clocks at 0. */
    constructor (boidDraws: seq<seq<int>>, attractorDraws: seq<seq<int>>)
      requires |boidDraws| == BOIDS && DrawsWithin(boidDraws, 0.0, DIMLIMIT)
      requires |attractorDraws| == ATTRACTORS && DrawsWithin(attractorDraws, 1.0, DIMLIMIT)
      ensures Valid() && simTime == 0 && noteTime == 0.0
      ensures forall k :: 0 <= k < BOIDS ==>
        boids[k].position == AsReals(boidDraws[k]) && boids[k].velocity == Zero(NDIMS)
      ensures forall a :: 0 <= a < ATTRACTORS ==> attractors[a].position == AsReals(attractorDraws[a])
    {
      var bs: seq<Boid> := [];
      for k := 0 to BOIDS
        invariant |bs| == k && Distinct(bs)
        invariant forall j :: 0 <= j < k ==>
          && bs[j].position == AsReals(boidDraws[j]) && bs[j].velocity == Zero(NDIMS)
          && |bs[j].velocity| == NDIMS && bs[j].moveDivider == MOVE_DIVIDER
      {
        var b := new Boid(boidDraws[k], FRAMES_PER_SEC);
        bs := bs + [b];
      }
      var ats: seq<Attractor> := [];
      for k := 0 to ATTRACTORS
        invariant |ats| == k && AttractorsDistinct(ats)
        invariant forall a :: 0 <= a < k ==>
          ats[a].position == AsReals(attractorDraws[a]) && ats[a].attraction == ATTRACTION
        invariant forall j :: 0 <= j < BOIDS ==>
          bs[j].position == AsReals(boidDraws[j]) && bs[j].velocity == Zero(NDIMS)
      {
        var a := new Attractor(attractorDraws[k], ATTRACTION);
        ats := ats + [a];
      }
      boids := bs;
      attractors := ats;
      simTime := 0;
      noteTime := 0.0;
    }

    /** makesound(), with the source's loops over the dimensions and the boids. */
    method MakeSound(firstDraw: int) returns (note: Option<seq<real>>)
      requires Valid() && FIRST_NOTE_MIN <= firstDraw <= FIRST_NOTE_MAX
      modifies this`noteTime
      ensures Valid()
      ensures Sound(noteTime, note) == Schedule(old(noteTime), simTime, firstDraw, Positions(boids))
    {
      ghost var ps := Positions(boids);
      if noteTime == 0.0 {
        noteTime := firstDraw as real;
      }
      note := None;
      if noteTime < simTime as real {
        var dimvals := Zero(NDIMS);
        for i := 0 to NDIMS
          invariant |dimvals| == NDIMS
          invariant forall d :: 0 <= d < i ==> dimvals[d] == Centroids(ps)[d]
        {
          dimvals := dimvals[i := 0.0];
          for j := 0 to |boids|
            invariant |dimvals| == NDIMS
            invariant dimvals[i] == DimSum(ps, i, j)
            invariant forall d :: 0 <= d < i ==> dimvals[d] == Centroids(ps)[d]
          {
            dimvals := dimvals[i := dimvals[i] + boids[j].position[i]];
          }
          dimvals := dimvals[i := dimvals[i] / (|boids| as real * DIMLIMIT)];
          dimvals := dimvals[i := Max(Min(dimvals[i], 1.0), 0.0)];
        }
        assert dimvals == Centroids(ps);
        note := Some(dimvals);
        var ioi := dimvals[NDIMS - 1] * (MAXIOI - MINIOI) + MINIOI;
        noteTime := simTime as real + ioi;
      }
    }

    /**
     * attractor_handler(): the attractor `random.choice` picked (`choice`) takes
     * the received values, dimension by dimension. A message with fewer than
     * NDIMS values raises IndexError after the dimensions it has were written;
     * `ok` is false exactly then.
     */
    method AttractorHandler(choice: nat, stuff: seq<real>) returns (ok: bool)
      requires Valid() && choice < |attractors|
      modifies attractors[choice]
      ensures Valid()
      ensures forall a :: 0 <= a < |attractors| && a != choice ==> attractors[a].position == old(attractors[a].position)
      ensures ok <==> |stuff| >= NDIMS
      ensures attractors[choice].position == Handled(old(attractors[choice].position), stuff)
    {
      var attractor := attractors[choice];
      ghost var p := attractor.position;
      for i := 0 to NDIMS
        invariant |attractor.position| == NDIMS
        invariant forall d :: 0 <= d < i ==> attractor.position[d] == Handled(p, stuff)[d]
        invariant forall d :: i <= d < NDIMS ==> attractor.position[d] == p[d]
        invariant i <= |stuff|
      {
        if i >= |stuff| {
          assert attractor.position == Handled(p, stuff);
          return false;
        }
        attractor.position := attractor.position[i := Received(stuff[i]) as real];
      }
      assert attractor.position == Handled(p, stuff);
      ok := true;
    }

    /** update()'s call of move(): one tick of the flock; every boid ends it within SPEED_LIMIT in every dimension. */
    method MoveFlock()
      requires Valid()
      modifies boids
      ensures Valid()
      ensures AttractorStates(attractors) == old(AttractorStates(attractors))
      ensures States(boids) == MoveFirst(old(States(boids)), AttractorStates(attractors), NDIMS, BOIDS)
      ensures SpeedsWithin(States(boids))
    {
      ghost var attrs := AttractorStates(attractors);
      ghost var start := States(boids);
      Move(boids, attractors, NDIMS);
      MoveKeepsSpeedLimit(start, attrs, NDIMS);
      assert AttractorStates(attractors) == attrs;
      assert AttractorsWithin(attractors, DIMLIMIT);
    }

    /** update()'s `sim_time += 1`: the clock advances by one tick and nothing else changes. */
    method Tick()
      requires Valid()
      modifies this`simTime
      ensures Valid() && simTime == old(simTime) + 1
    {
      simTime := simTime + 1;
    }

    /** update(): move the flock, maybe send a note, then advance the clock by one tick. */
    method Update(firstDraw: int) returns (note: Option<seq<real>>)
      requires Valid() && FIRST_NOTE_MIN <= firstDraw <= FIRST_NOTE_MAX
      modifies this, boids
      ensures Valid()
      ensures States(boids) == MoveFirst(old(States(boids)), AttractorStates(attractors), NDIMS, BOIDS)
      ensures Sound(noteTime, note) == Schedule(old(noteTime), old(simTime), firstDraw, Positions(boids))
      ensures simTime == old(simTime) + 1
      ensures SpeedsWithin(States(boids))
    {
      MoveFlock();
      note := MakeSound(firstDraw);
      Tick();
    }
  }
}
