/**
 * The boid simulation shared by the two N-dimensional scripts, swarm.py
 * (NDIMS = 6) and swarm_receives_and_sends_OSC.py (NDIMS = 5). Everything here
 * is identical in both files, constants included; the dimension count is the
 * length of the vectors, fixed by each script's simulation.
 *
 * Each force rule is a method with the source's loops, proved against a
 * specification function over a snapshot of positions; the properties of the
 * rules are lemmas about those functions.
 */
module FlockN {
  import opened Wrappers
  import opened MultiD
  import opened Sequential

  const DIMLIMIT: real := 700.0
  const WIDTH: real := DIMLIMIT
  const BOIDS: nat := 19
  const BOIDMASS: real := 2.0
  const BLIMIT: real := 30.0
  /** The literal 30 of rule4: how close an attractor must be, per dimension, to pull. */
  const ATTRACTOR_RANGE: real := 30.0
  const ATTRACTORS: nat := 9
  const ATTRACTION: real := 3.0
  const WALL: real := 100.0
  const WALL_FORCE: real := 30.0
  const SPEED_LIMIT: real := 1000.0
  const FRAMES_PER_SEC: nat := 40
  /** A boid's `move_divider`: the frame rate times 5. */
  const MOVE_DIVIDER: real := 200.0

  /** Every vector of `ps` has exactly `n` dimensions. */
  ghost predicate Uniform(ps: seq<Vec>, n: nat)
  {
    forall j :: 0 <= j < |ps| ==> |ps[j]| == n
  }

  /** Every vector of `ps` has dimension `d`. */
  ghost predicate HasDim(ps: seq<Vec>, d: nat)
  {
    forall j :: 0 <= j < |ps| ==> d < |ps[j]|
  }

  // ---------------------------------------------------------------------------
  // simulate_wall and limit_speed, one dimension at a time

  /** `simulate_wall` in one dimension: the velocity after the wall's nudge. */
  function Nudge(p: real, v: real): (r: real)
    ensures r == v + WALL_FORCE || r == v - WALL_FORCE || r == v
    ensures r > v <==> p < WALL
    ensures r < v <==> p > WIDTH - WALL
  {
    if p < WALL then v + WALL_FORCE
    else if p > WIDTH - WALL then v - WALL_FORCE
    else v
  }

  function Walled(p: Vec, v: Vec): (r: Vec)
    requires |p| == |v|
    ensures |r| == |v|
  {
    seq(|v|, d requires 0 <= d < |v| => Nudge(p[d], v[d]))
  }

  /** The wall's nudge never points away from the middle of the space. */
  lemma WallPushesInward(p: Vec, v: Vec, d: nat)
    requires |p| == |v| && d < |v|
    ensures (Walled(p, v)[d] - v[d]) * (p[d] - DIMLIMIT / 2.0) <= 0.0
    ensures p[d] < WALL ==> Walled(p, v)[d] == v[d] + WALL_FORCE
    ensures p[d] > WIDTH - WALL ==> Walled(p, v)[d] == v[d] - WALL_FORCE
    ensures WALL <= p[d] <= WIDTH - WALL ==> Walled(p, v)[d] == v[d]
  {
  }

  /** `limit_speed` in one dimension: `v /= abs(v) / SPEED_LIMIT` when `abs(v)` exceeds the limit. */
  function Limited(v: real): (r: real)
    ensures Abs(r) <= SPEED_LIMIT
    ensures Abs(v) <= SPEED_LIMIT ==> r == v
    ensures Abs(v) > SPEED_LIMIT ==> Abs(r) == SPEED_LIMIT
    ensures (r > 0.0 <==> v > 0.0) && (r < 0.0 <==> v < 0.0)
  {
    if Abs(v) > SPEED_LIMIT then
      var q := Abs(v) / SPEED_LIMIT;
      assert q > 1.0 && q * SPEED_LIMIT == Abs(v);
      assert (q * SPEED_LIMIT) / q == SPEED_LIMIT;
      assert v / q == if v > 0.0 then SPEED_LIMIT else -SPEED_LIMIT;
      v / q
    else v
  }

  function SpeedLimited(v: Vec): (r: Vec)
    ensures |r| == |v|
  {
    seq(|v|, d requires 0 <= d < |v| => Limited(v[d]))
  }

  /** Limiting an already limited velocity changes nothing. */
  lemma SpeedLimitedIdempotent(v: Vec)
    ensures SpeedLimited(SpeedLimited(v)) == SpeedLimited(v)
  {
    assert forall d :: 0 <= d < |v| ==> SpeedLimited(SpeedLimited(v))[d] == SpeedLimited(v)[d];
  }

  // ---------------------------------------------------------------------------
  // The force rules, as functions of a snapshot of the flock

  /** Sum of dimension `d` over the first `k` vectors. */
  function DimSum(ps: seq<Vec>, d: nat, k: nat): real
    requires k <= |ps| && HasDim(ps, d)
  {
    if k == 0 then 0.0 else DimSum(ps, d, k - 1) + ps[k - 1][d]
  }

  /** If coordinate `d` of every vector lies in [lo, hi], the sum of the first `k` lies in [k * lo, k * hi]. */
  lemma {:induction false} DimSumBounded(ps: seq<Vec>, d: nat, k: nat, lo: real, hi: real)
    requires k <= |ps| && HasDim(ps, d)
    requires forall j :: 0 <= j < |ps| ==> lo <= ps[j][d] <= hi
    ensures k as real * lo <= DimSum(ps, d, k) <= k as real * hi
  {
    if k > 0 {
      DimSumBounded(ps, d, k - 1, lo, hi);
      assert (k - 1) as real * lo + lo == k as real * lo;
      assert (k - 1) as real * hi + hi == k as real * hi;
    }
  }

  /** The mean of dimension `d` over all the vectors. */
  function Mean(ps: seq<Vec>, d: nat): real
    requires |ps| > 0 && HasDim(ps, d)
  {
    DimSum(ps, d, |ps|) / |ps| as real
  }

  /** The mean of values in [lo, hi] lies in [lo, hi]. */
  lemma MeanBounded(ps: seq<Vec>, d: nat, lo: real, hi: real)
    requires |ps| > 0 && HasDim(ps, d)
    requires forall j :: 0 <= j < |ps| ==> lo <= ps[j][d] <= hi
    ensures lo <= Mean(ps, d) <= hi
  {
    DimSumBounded(ps, d, |ps|, lo, hi);
    DivWithin(DimSum(ps, d, |ps|), |ps| as real, lo, hi);
  }

  /** A sum between n * lo and n * hi, divided by n > 0, lies between lo and hi. */
  lemma DivWithin(s: real, n: real, lo: real, hi: real)
    requires n > 0.0 && n * lo <= s <= n * hi
    ensures lo <= s / n <= hi
  {
    var m := s / n;
    assert m * n == s;
    assert (m - lo) * n >= 0.0 && (hi - m) * n >= 0.0;
  }

  /** Sum of dimension `d` over the first `k` vectors except the `i`th (rule1's accumulator). */
  function OthersDimSum(ps: seq<Vec>, i: nat, d: nat, k: nat): real
    requires k <= |ps| && HasDim(ps, d)
  {
    if k == 0 then 0.0
    else OthersDimSum(ps, i, d, k - 1) + (if k - 1 == i then 0.0 else ps[k - 1][d])
  }

  /** rule1, clumping: (mean of the other boids' positions - own position) / BOIDMASS. */
  function Cohesion(ps: seq<Vec>, i: nat): (r: Vec)
    requires 2 <= |ps| && i < |ps| && Uniform(ps, |ps[i]|)
    ensures |r| == |ps[i]|
  {
    seq(|ps[i]|, d requires 0 <= d < |ps[i]| =>
      (OthersDimSum(ps, i, d, |ps|) / (|ps| - 1) as real - ps[i][d]) / BOIDMASS)
  }

  /** The term boid `j` adds to boid `i`'s separation in dimension `d`. */
  function Repulsion(ps: seq<Vec>, i: nat, j: nat, d: nat): real
    requires i < |ps| && j < |ps| && HasDim(ps, d)
  {
    if j != i && Abs(ps[i][d] - ps[j][d]) < BLIMIT then ps[i][d] - ps[j][d] else 0.0
  }

  function SepDimSum(ps: seq<Vec>, i: nat, d: nat, k: nat): real
    requires i < |ps| && k <= |ps| && HasDim(ps, d)
  {
    if k == 0 then 0.0 else SepDimSum(ps, i, d, k - 1) + Repulsion(ps, i, k - 1, d)
  }

  /** rule2, avoidance: 1.5 times the summed displacement from every other boid closer than BLIMIT in that dimension. */
  function Separation(ps: seq<Vec>, i: nat): (r: Vec)
    requires i < |ps| && Uniform(ps, |ps[i]|)
    ensures |r| == |ps[i]|
  {
    seq(|ps[i]|, d requires 0 <= d < |ps[i]| => SepDimSum(ps, i, d, |ps|) * 1.5)
  }

  /** What rule4 reads of an attractor. */
  datatype AttractorState = AttractorState(position: Vec, attraction: real)

  ghost predicate AttractorsHave(attrs: seq<AttractorState>, n: nat)
  {
    forall a :: 0 <= a < |attrs| ==> |attrs[a].position| == n
  }

  /** The term attractor `a` adds to the pull on a boid at `p` in dimension `d`. */
  function Pull(p: Vec, attr: AttractorState, d: nat): real
    requires d < |p| && d < |attr.position|
  {
    if Abs(p[d] - attr.position[d]) < ATTRACTOR_RANGE
    then (attr.position[d] - p[d]) * attr.attraction
    else 0.0
  }

  function PullDimSum(p: Vec, attrs: seq<AttractorState>, d: nat, k: nat): real
    requires k <= |attrs| && AttractorsHave(attrs, |p|) && d < |p|
  {
    if k == 0 then 0.0 else PullDimSum(p, attrs, d, k - 1) + Pull(p, attrs[k - 1], d)
  }

  /** rule4, attractors: per dimension, the pull of every attractor within ATTRACTOR_RANGE in that dimension. */
  function Attraction(p: Vec, attrs: seq<AttractorState>): (r: Vec)
    requires AttractorsHave(attrs, |p|)
    ensures |r| == |p|
  {
    seq(|p|, d requires 0 <= d < |p| => PullDimSum(p, attrs, d, |attrs|))
  }

  /** update_velocity: `v1 + v2 + v4`. */
  function Pending(ps: seq<Vec>, i: nat, attrs: seq<AttractorState>): (r: Vec)
    requires 2 <= |ps| && i < |ps| && Uniform(ps, |ps[i]|) && AttractorsHave(attrs, |ps[i]|)
    ensures |r| == |ps[i]|
  {
    Add(Add(Cohesion(ps, i), Separation(ps, i)), Attraction(ps[i], attrs))
  }

  // ---------------------------------------------------------------------------
  // Properties of the rules

  lemma {:induction false} OthersDimSumSplit(ps: seq<Vec>, i: nat, d: nat, k: nat)
    requires k <= |ps| && HasDim(ps, d)
    ensures OthersDimSum(ps, i, d, k) == DimSum(ps, d, k) - (if i < k then ps[i][d] else 0.0)
  {
    if k > 0 {
      OthersDimSumSplit(ps, i, d, k - 1);
    }
  }

  /**
   * rule1 pulls each boid toward the centroid of the whole flock, by
   * n / (BOIDMASS * (n - 1)) of its distance to it.
   */
  lemma CohesionTowardCentroid(ps: seq<Vec>, i: nat, d: nat)
    requires 2 <= |ps| && i < |ps| && Uniform(ps, |ps[i]|) && d < |ps[i]|
    ensures Cohesion(ps, i)[d] * (BOIDMASS * (|ps| - 1) as real)
         == DimSum(ps, d, |ps|) - |ps| as real * ps[i][d]
  {
    var n := |ps| as real;
    OthersDimSumSplit(ps, i, d, |ps|);
    var o := OthersDimSum(ps, i, d, |ps|);
    assert Cohesion(ps, i)[d] == (o / (n - 1.0) - ps[i][d]) / BOIDMASS;
    calc {
      Cohesion(ps, i)[d] * (BOIDMASS * (n - 1.0));
      (o / (n - 1.0) - ps[i][d]) * (n - 1.0);
      o - ps[i][d] * (n - 1.0);
    }
  }

  /** Sum over the first `k` boids of their cohesion in dimension `d`. */
  function CohesionDimTotal(ps: seq<Vec>, d: nat, k: nat): real
    requires 2 <= |ps| && k <= |ps| && |ps[0]| > d && Uniform(ps, |ps[0]|)
  {
    if k == 0 then 0.0 else CohesionDimTotal(ps, d, k - 1) + Cohesion(ps, k - 1)[d]
  }

  lemma {:induction false} CohesionDimTotalIs(ps: seq<Vec>, d: nat, k: nat)
    requires 2 <= |ps| && k <= |ps| && |ps[0]| > d && Uniform(ps, |ps[0]|)
    ensures CohesionDimTotal(ps, d, k) * (BOIDMASS * (|ps| - 1) as real)
         == k as real * DimSum(ps, d, |ps|) - |ps| as real * DimSum(ps, d, k)
  {
    if k > 0 {
      CohesionDimTotalIs(ps, d, k - 1);
      CohesionTowardCentroid(ps, k - 1, d);
      var m := BOIDMASS * (|ps| - 1) as real;
      calc {
        CohesionDimTotal(ps, d, k) * m;
        CohesionDimTotal(ps, d, k - 1) * m + Cohesion(ps, k - 1)[d] * m;
      }
    }
  }

  /** Cohesion forces of the whole flock cancel out: rule1 alone never moves the centroid. */
  lemma CohesionBalanced(ps: seq<Vec>, d: nat)
    requires 2 <= |ps| && |ps[0]| > d && Uniform(ps, |ps[0]|)
    ensures CohesionDimTotal(ps, d, |ps|) == 0.0
  {
    CohesionDimTotalIs(ps, d, |ps|);
    var m := BOIDMASS * (|ps| - 1) as real;
    assert CohesionDimTotal(ps, d, |ps|) * m == 0.0;
  }

  lemma {:induction false} SepDimSumBounded(ps: seq<Vec>, i: nat, d: nat, k: nat)
    requires i < |ps| && k <= |ps| && HasDim(ps, d)
    ensures Abs(SepDimSum(ps, i, d, k)) <= BLIMIT * (if i < k then k - 1 else k) as real
  {
    if k > 0 {
      SepDimSumBounded(ps, i, d, k - 1);
    }
  }

  /** Separation in one dimension is less than 1.5 * BLIMIT per other boid. */
  lemma SeparationBounded(ps: seq<Vec>, i: nat, d: nat)
    requires i < |ps| && Uniform(ps, |ps[i]|) && d < |ps[i]|
    ensures Abs(Separation(ps, i)[d]) <= 1.5 * BLIMIT * (|ps| - 1) as real
  {
    SepDimSumBounded(ps, i, d, |ps|);
  }

  lemma {:induction false} SepDimSumZero(ps: seq<Vec>, i: nat, d: nat, k: nat)
    requires i < |ps| && k <= |ps| && HasDim(ps, d)
    requires forall j :: 0 <= j < k && j != i ==> Abs(ps[i][d] - ps[j][d]) >= BLIMIT
    ensures SepDimSum(ps, i, d, k) == 0.0
  {
    if k > 0 {
      SepDimSumZero(ps, i, d, k - 1);
    }
  }

  /** With no other boid within BLIMIT in dimension d, rule2 is 0 in that dimension. */
  lemma SeparationZeroWhenAlone(ps: seq<Vec>, i: nat, d: nat)
    requires i < |ps| && Uniform(ps, |ps[i]|) && d < |ps[i]|
    requires forall j :: 0 <= j < |ps| && j != i ==> Abs(ps[i][d] - ps[j][d]) >= BLIMIT
    ensures Separation(ps, i)[d] == 0.0
  {
    SepDimSumZero(ps, i, d, |ps|);
  }

  lemma {:induction false} PullDimSumBounded(p: Vec, attrs: seq<AttractorState>, d: nat, k: nat)
    requires k <= |attrs| && AttractorsHave(attrs, |p|) && d < |p|
    requires forall a :: 0 <= a < |attrs| ==> attrs[a].attraction == ATTRACTION
    ensures Abs(PullDimSum(p, attrs, d, k)) <= ATTRACTOR_RANGE * ATTRACTION * k as real
  {
    if k > 0 {
      PullDimSumBounded(p, attrs, d, k - 1);
      var a := attrs[k - 1];
      assert a.attraction == ATTRACTION;
      assert Abs(Pull(p, a, d)) <= ATTRACTOR_RANGE * ATTRACTION;
    }
  }

  /** Each attractor pulls by less than ATTRACTOR_RANGE * ATTRACTION per dimension. */
  lemma AttractionBounded(p: Vec, attrs: seq<AttractorState>, d: nat)
    requires AttractorsHave(attrs, |p|) && d < |p|
    requires forall a :: 0 <= a < |attrs| ==> attrs[a].attraction == ATTRACTION
    ensures Abs(Attraction(p, attrs)[d]) <= ATTRACTOR_RANGE * ATTRACTION * |attrs| as real
  {
    PullDimSumBounded(p, attrs, d, |attrs|);
  }

  lemma {:induction false} PullDimSumZero(p: Vec, attrs: seq<AttractorState>, d: nat, k: nat)
    requires k <= |attrs| && AttractorsHave(attrs, |p|) && d < |p|
    requires forall a :: 0 <= a < k ==> Abs(p[d] - attrs[a].position[d]) >= ATTRACTOR_RANGE
    ensures PullDimSum(p, attrs, d, k) == 0.0
  {
    if k > 0 {
      PullDimSumZero(p, attrs, d, k - 1);
    }
  }

  /** With no attractor within ATTRACTOR_RANGE in dimension d, rule4 is 0 in that dimension. */
  lemma AttractionZeroWhenFar(p: Vec, attrs: seq<AttractorState>, d: nat)
    requires AttractorsHave(attrs, |p|) && d < |p|
    requires forall a :: 0 <= a < |attrs| ==> Abs(p[d] - attrs[a].position[d]) >= ATTRACTOR_RANGE
    ensures Attraction(p, attrs)[d] == 0.0
  {
    PullDimSumZero(p, attrs, d, |attrs|);
  }

  // ---------------------------------------------------------------------------
  // One tick of `move()`, as a function of the flock's state

  datatype Kinematics = Kinematics(position: Vec, velocity: Vec)

  function PositionsOf(s: seq<Kinematics>): (r: seq<Vec>)
    ensures |r| == |s| && forall j :: 0 <= j < |s| ==> r[j] == s[j].position
  {
    seq(|s|, j requires 0 <= j < |s| => s[j].position)
  }

  ghost predicate Shaped(s: seq<Kinematics>, n: nat)
  {
    forall j :: 0 <= j < |s| ==> |s[j].position| == n && |s[j].velocity| == n
  }

  /**
   * What `move()` does to boid `i` when the flock is in state `s`:
   * simulate_wall, then update_velocity, then Boid.move.
   */
  function StepBoid(s: seq<Kinematics>, i: nat, attrs: seq<AttractorState>, n: nat): (r: Kinematics)
    requires 2 <= |s| && i < |s| && Shaped(s, n) && AttractorsHave(attrs, n)
    ensures |r.position| == n && |r.velocity| == n
  {
    var walled := Walled(s[i].position, s[i].velocity);
    var v := SpeedLimited(Add(walled, Pending(PositionsOf(s), i, attrs)));
    Kinematics(Add(s[i].position, Div(v, MOVE_DIVIDER)), v)
  }

  /** `move()`'s step for boid j, as the function its pass over the flock applies. */
  ghost function Stepper(attrs: seq<AttractorState>, n: nat): (seq<Kinematics>, nat) --> Kinematics
    requires AttractorsHave(attrs, n)
  {
    (t: seq<Kinematics>, j: nat) requires 2 <= |t| && j < |t| && Shaped(t, n) => StepBoid(t, j, attrs, n)
  }

  /** The states `move()` steps: at least two boids, every vector with `n` coordinates. */
  ghost function Flock(n: nat): seq<Kinematics> -> bool
  {
    t => 2 <= |t| && Shaped(t, n)
  }

  /** Every step keeps the flock's shape, so the pass can take each one. */
  lemma StepperPreserves(attrs: seq<AttractorState>, n: nat, m: nat)
    requires AttractorsHave(attrs, n)
    ensures Preserves(Stepper(attrs, n), Flock(n), m)
  {
    forall t: seq<Kinematics>, j: nat | Flock(n)(t) && |t| == m && j < m
      ensures Stepper(attrs, n).requires(t, j) && Flock(n)(t[j := Stepper(attrs, n)(t, j)])
    {
      var r := StepBoid(t, j, attrs, n);
      assert Shaped(t[j := r], n);
    }
  }

  /** The flock after `move()` has handled its first `k` boids, one after the other. */
  ghost function MoveFirst(s: seq<Kinematics>, attrs: seq<AttractorState>, n: nat, k: nat): (r: seq<Kinematics>)
    requires 2 <= |s| && k <= |s| && Shaped(s, n) && AttractorsHave(attrs, n)
    ensures |r| == |s|
  {
    StepperPreserves(attrs, n, |s|);
    Pass(s, Stepper(attrs, n), Flock(n), k)
  }

  /** Every boid keeps `n` coordinates however many of them have moved. */
  lemma MoveFirstShaped(s: seq<Kinematics>, attrs: seq<AttractorState>, n: nat, k: nat)
    requires 2 <= |s| && k <= |s| && Shaped(s, n) && AttractorsHave(attrs, n)
    ensures Shaped(MoveFirst(s, attrs, n, k), n)
  {
    StepperPreserves(attrs, n, |s|);
    assert Flock(n)(Pass(s, Stepper(attrs, n), Flock(n), k));
  }

  /** One more boid handled: boid k takes the step computed from the flock as the first k steps left it. */
  lemma MoveFirstStep(s: seq<Kinematics>, attrs: seq<AttractorState>, n: nat, k: nat)
    requires 2 <= |s| && k < |s| && Shaped(s, n) && AttractorsHave(attrs, n)
    ensures Shaped(MoveFirst(s, attrs, n, k), n)
    ensures MoveFirst(s, attrs, n, k + 1) == MoveFirst(s, attrs, n, k)[k := StepBoid(MoveFirst(s, attrs, n, k), k, attrs, n)]
  {
    MoveFirstShaped(s, attrs, n, k);
    var t := MoveFirst(s, attrs, n, k);
    assert MoveFirst(s, attrs, n, k + 1) == t[k := Stepper(attrs, n)(t, k)];
  }

  /** Boid i ends the tick as its own step left it, taken after boids 0..i-1 had moved. */
  lemma MoveFirstOrder(s: seq<Kinematics>, attrs: seq<AttractorState>, n: nat, i: nat)
    requires 2 <= |s| && i < |s| && Shaped(s, n) && AttractorsHave(attrs, n)
    ensures Shaped(MoveFirst(s, attrs, n, i), n)
    ensures MoveFirst(s, attrs, n, |s|)[i] == StepBoid(MoveFirst(s, attrs, n, i), i, attrs, n)
  {
    MoveFirstShaped(s, attrs, n, i);
    StepperPreserves(attrs, n, |s|);
    PassOrder(s, Stepper(attrs, n), Flock(n), |s|, i);
  }

  /** After one step a boid's speed is within SPEED_LIMIT and it has moved at most SPEED_LIMIT / MOVE_DIVIDER per dimension. */
  lemma StepBoidBounded(s: seq<Kinematics>, i: nat, attrs: seq<AttractorState>, n: nat, d: nat)
    requires 2 <= |s| && i < |s| && Shaped(s, n) && AttractorsHave(attrs, n) && d < n
    ensures Abs(StepBoid(s, i, attrs, n).velocity[d]) <= SPEED_LIMIT
    ensures Abs(StepBoid(s, i, attrs, n).position[d] - s[i].position[d]) <= SPEED_LIMIT / MOVE_DIVIDER
  {
    var r := StepBoid(s, i, attrs, n);
    assert r.position[d] - s[i].position[d] == r.velocity[d] / MOVE_DIVIDER;
  }

  /** Every velocity component of every boid is within SPEED_LIMIT. */
  ghost predicate SpeedsWithin(s: seq<Kinematics>)
  {
    forall j, d :: 0 <= j < |s| && 0 <= d < |s[j].velocity| ==> Abs(s[j].velocity[d]) <= SPEED_LIMIT
  }

  /** After a whole tick every velocity component of every boid is within SPEED_LIMIT. */
  lemma MoveKeepsSpeedLimit(s: seq<Kinematics>, attrs: seq<AttractorState>, n: nat)
    requires 2 <= |s| && Shaped(s, n) && AttractorsHave(attrs, n)
    ensures SpeedsWithin(MoveFirst(s, attrs, n, |s|))
  {
    var r := MoveFirst(s, attrs, n, |s|);
    forall i, d | 0 <= i < |s| && 0 <= d < |r[i].velocity|
      ensures Abs(r[i].velocity[d]) <= SPEED_LIMIT
    {
      MoveFirstOrder(s, attrs, n, i);
      StepBoidBounded(MoveFirst(s, attrs, n, i), i, attrs, n, d);
    }
  }

  // ---------------------------------------------------------------------------
  // The note clock of makesound, common to both scripts

  /** The range `random.randint(10, 100)` draws the first note time from. */
  const FIRST_NOTE_MIN: int := 10
  const FIRST_NOTE_MAX: int := 100

  /** What one call of makesound leaves behind: the next note time, and the `/swarmNote` payload if a note was sent. */
  datatype Sound = Sound(noteTime: real, note: Option<seq<real>>)

  /** `if not note_time: note_time = random.randint(10, 100)`: a note time of 0 means "not drawn yet". */
  function Due(noteTime: real, firstDraw: int): (r: real)
    requires FIRST_NOTE_MIN <= firstDraw <= FIRST_NOTE_MAX
    ensures noteTime != 0.0 ==> r == noteTime
    ensures noteTime == 0.0 ==> FIRST_NOTE_MIN as real <= r <= FIRST_NOTE_MAX as real
  {
    if noteTime == 0.0 then firstDraw as real else noteTime
  }

  // ---------------------------------------------------------------------------
  // The objects: boids and attractors, updated in place

  class Attractor {
    var position: Vec
    const attraction: real

    /** `Attractor(attract)`: every coordinate drawn by `random.randint(1, DIMLIMIT)`, passed in as `draws`. */
    constructor (draws: seq<int>, attract: real)
      requires forall d :: 0 <= d < |draws| ==> 1.0 <= draws[d] as real <= DIMLIMIT
      ensures position == AsReals(draws) && attraction == attract
      ensures forall d :: 0 <= d < |draws| ==> 1.0 <= position[d] <= DIMLIMIT
    {
      position := AsReals(draws);
      attraction := attract;
    }
  }

  /** The positions and strengths rule4 reads from the attractors. */
  ghost function AttractorStates(attractors: seq<Attractor>): (r: seq<AttractorState>)
    reads attractors
    ensures |r| == |attractors|
  {
    seq(|attractors|, a requires 0 <= a < |attractors| reads attractors =>
      AttractorState(attractors[a].position, attractors[a].attraction))
  }

  ghost function Positions(boids: seq<Boid>): (r: seq<Vec>)
    reads boids
    ensures |r| == |boids| && forall j :: 0 <= j < |boids| ==> r[j] == boids[j].position
  {
    seq(|boids|, j requires 0 <= j < |boids| reads boids => boids[j].position)
  }

  ghost function States(boids: seq<Boid>): (r: seq<Kinematics>)
    reads boids
    ensures |r| == |boids|
    ensures forall j :: 0 <= j < |boids| ==> r[j] == Kinematics(boids[j].position, boids[j].velocity)
  {
    seq(|boids|, j requires 0 <= j < |boids| reads boids => Kinematics(boids[j].position, boids[j].velocity))
  }

  ghost predicate Distinct(boids: seq<Boid>)
  {
    forall j, k :: 0 <= j < k < |boids| ==> boids[j] != boids[k]
  }

  ghost predicate AttractorsDistinct(attractors: seq<Attractor>)
  {
    forall a, b :: 0 <= a < b < |attractors| ==> attractors[a] != attractors[b]
  }

  /**
   * The state `move()` relies on: at least two distinct boids (rule1 divides by
   * their number minus one), every vector with `n` dimensions, and every boid's
   * move_divider equal to MOVE_DIVIDER.
   */
  ghost predicate FlockShaped(boids: seq<Boid>, attractors: seq<Attractor>, n: nat)
    reads boids, attractors
  {
    && 2 <= |boids|
    && Distinct(boids)
    && (forall j :: 0 <= j < |boids| ==>
          |boids[j].position| == n && |boids[j].velocity| == n && boids[j].moveDivider == MOVE_DIVIDER)
    && (forall a :: 0 <= a < |attractors| ==> |attractors[a].position| == n)
  }

  class Boid {
    var position: Vec
    var velocity: Vec
    /** `__temp`: the force update_velocity computed and move adds to the velocity. */
    var pending: Vec
    const moveDivider: real

    /**
     * `Boid(lims, offset, move_divider)` of the N-dimensional scripts: zero
     * velocity, every coordinate drawn by `random.randint(0, DIMLIMIT)`
     * (passed in as `draws`); `lims` and `offset` are unused there.
     */
    constructor (draws: seq<int>, moveDivider: nat)
      requires forall d :: 0 <= d < |draws| ==> 0.0 <= draws[d] as real <= DIMLIMIT
      ensures position == AsReals(draws) && velocity == Zero(|draws|) && pending == Zero(|draws|)
      ensures forall d :: 0 <= d < |draws| ==> 0.0 <= position[d] <= DIMLIMIT
      ensures this.moveDivider == (moveDivider * 5) as real
    {
      velocity := Zero(|draws|);
      pending := Zero(|draws|);
      position := AsReals(draws);
      this.moveDivider := (moveDivider * 5) as real;
    }

    /** rule1 (clumping), with the source's loop over the flock. */
    method Rule1(boids: seq<Boid>, ghost i: nat) returns (r: Vec)
      requires 2 <= |boids| && i < |boids| && boids[i] == this && Distinct(boids)
      requires Uniform(Positions(boids), |position|)
      ensures r == Cohesion(Positions(boids), i)
    {
      ghost var ps := Positions(boids);
      var n := |position|;
      var vector := Zero(n);
      for j := 0 to |boids|
        invariant |vector| == n
        invariant forall d :: 0 <= d < n ==> vector[d] == OthersDimSum(ps, i, d, j)
      {
        if boids[j] != this {
          vector := Add(vector, boids[j].position);
        }
      }
      vector := Div(vector, (|boids| - 1) as real);
      r := Div(Sub(vector, position), BOIDMASS);
      assert forall d :: 0 <= d < n ==> r[d] == Cohesion(ps, i)[d];
    }

    /** rule2 (avoidance), with the source's loops over the flock and the dimensions. */
    method Rule2(boids: seq<Boid>, ghost i: nat) returns (r: Vec)
      requires i < |boids| && boids[i] == this && Distinct(boids)
      requires Uniform(Positions(boids), |position|)
      ensures r == Separation(Positions(boids), i)
    {
      ghost var ps := Positions(boids);
      var n := |position|;
      var vector := Zero(n);
      for j := 0 to |boids|
        invariant |vector| == n
        invariant forall d :: 0 <= d < n ==> vector[d] == SepDimSum(ps, i, d, j)
      {
        if boids[j] != this {
          var other := boids[j].position;
          for dim := 0 to n
            invariant |vector| == n
            invariant forall d :: 0 <= d < dim ==> vector[d] == SepDimSum(ps, i, d, j + 1)
            invariant forall d :: dim <= d < n ==> vector[d] == SepDimSum(ps, i, d, j)
          {
            if Abs(position[dim] - other[dim]) < BLIMIT {
              vector := vector[dim := vector[dim] - (other[dim] - position[dim])];
            }
          }
        }
      }
      r := Scale(vector, 1.5);
      assert forall d :: 0 <= d < n ==> r[d] == Separation(ps, i)[d];
    }

    /** rule4 (attractors), with the source's loops over the attractors and the dimensions. */
    method Rule4(attractors: seq<Attractor>) returns (r: Vec)
      requires forall a :: 0 <= a < |attractors| ==> |attractors[a].position| == |position|
      ensures r == Attraction(position, AttractorStates(attractors))
    {
      ghost var attrs := AttractorStates(attractors);
      var n := |position|;
      var vector := Zero(n);
      for a := 0 to |attractors|
        invariant |vector| == n
        invariant forall d :: 0 <= d < n ==> vector[d] == PullDimSum(position, attrs, d, a)
      {
        var there := attractors[a].position;
        assert attrs[a] == AttractorState(there, attractors[a].attraction);
        for dim := 0 to n
          invariant |vector| == n
          invariant forall d :: 0 <= d < dim ==> vector[d] == PullDimSum(position, attrs, d, a + 1)
          invariant forall d :: dim <= d < n ==> vector[d] == PullDimSum(position, attrs, d, a)
        {
          ghost var before := vector;
          if Abs(position[dim] - there[dim]) < ATTRACTOR_RANGE {
            vector := vector[dim := vector[dim] + (there[dim] - position[dim]) * attractors[a].attraction];
          }
          assert vector[dim] == before[dim] + Pull(position, attrs[a], dim);
        }
      }
      r := vector;
    }

    /** update_velocity: stores `rule1 + rule2 + rule4` for the next move. */
    method UpdateVelocity(boids: seq<Boid>, attractors: seq<Attractor>, ghost i: nat)
      requires 2 <= |boids| && i < |boids| && boids[i] == this && Distinct(boids)
      requires Uniform(Positions(boids), |position|)
      requires forall a :: 0 <= a < |attractors| ==> |attractors[a].position| == |position|
      modifies this`pending
      ensures pending == Pending(old(Positions(boids)), i, AttractorStates(attractors))
    {
      var v1 := Rule1(boids, i);
      var v2 := Rule2(boids, i);
      var v4 := Rule4(attractors);
      pending := Add(Add(v1, v2), v4);
    }

    /** Boid.move: add the pending force, limit the speed, advance by velocity / move_divider. */
    method Move()
      requires |velocity| == |pending| == |position| && moveDivider != 0.0
      modifies this
      ensures velocity == SpeedLimited(Add(old(velocity), old(pending)))
      ensures position == Add(old(position), Div(velocity, moveDivider))
      ensures pending == old(pending)
    {
      velocity := Add(velocity, pending);
      LimitSpeed(this);
      position := Add(position, Div(velocity, moveDivider));
    }
  }

  /** simulate_wall: nudges the velocity in every dimension where the boid is within WALL of a side. */
  method SimulateWall(boid: Boid)
    requires |boid.position| == |boid.velocity|
    modifies boid
    ensures boid.position == old(boid.position) && boid.pending == old(boid.pending)
    ensures boid.velocity == Walled(boid.position, old(boid.velocity))
  {
    for dim := 0 to |boid.velocity|
      invariant boid.position == old(boid.position) && boid.pending == old(boid.pending)
      invariant |boid.velocity| == |boid.position|
      invariant forall d :: 0 <= d < dim ==> boid.velocity[d] == Nudge(boid.position[d], old(boid.velocity[d]))
      invariant forall d :: dim <= d < |boid.velocity| ==> boid.velocity[d] == old(boid.velocity[d])
    {
      if boid.position[dim] < WALL {
        boid.velocity := boid.velocity[dim := boid.velocity[dim] + WALL_FORCE];
      } else if boid.position[dim] > WIDTH - WALL {
        boid.velocity := boid.velocity[dim := boid.velocity[dim] - WALL_FORCE];
      }
    }
  }

  /** limit_speed: clamps every velocity component to SPEED_LIMIT in magnitude. */
  method LimitSpeed(boid: Boid)
    modifies boid
    ensures boid.velocity == SpeedLimited(old(boid.velocity))
    ensures boid.position == old(boid.position) && boid.pending == old(boid.pending)
  {
    for dim := 0 to |boid.velocity|
      invariant boid.position == old(boid.position) && boid.pending == old(boid.pending)
      invariant |boid.velocity| == |old(boid.velocity)|
      invariant forall d :: 0 <= d < dim ==> boid.velocity[d] == Limited(old(boid.velocity[d]))
      invariant forall d :: dim <= d < |boid.velocity| ==> boid.velocity[d] == old(boid.velocity[d])
    {
      if Abs(boid.velocity[dim]) > SPEED_LIMIT {
        boid.velocity := boid.velocity[dim := boid.velocity[dim] / (Abs(boid.velocity[dim]) / SPEED_LIMIT)];
      }
    }
  }

  /** A flock of the right shape gives states of that shape. */
  lemma FlockShapedStates(boids: seq<Boid>, attractors: seq<Attractor>, n: nat)
    requires FlockShaped(boids, attractors, n)
    ensures 2 <= |States(boids)| && Shaped(States(boids), n) && AttractorsHave(AttractorStates(attractors), n)
  {
  }

  /** The body of move()'s loop for boid i: simulate_wall, update_velocity, Boid.move. */
  method MoveBoid(boids: seq<Boid>, attractors: seq<Attractor>, i: nat, ghost n: nat)
    requires FlockShaped(boids, attractors, n) && i < |boids|
    modifies boids[i]
    ensures FlockShaped(boids, attractors, n)
    ensures AttractorStates(attractors) == old(AttractorStates(attractors))
    ensures States(boids) == old(States(boids))[i := StepBoid(old(States(boids)), i, AttractorStates(attractors), n)]
  {
    ghost var before := States(boids);
    ghost var attrs := AttractorStates(attractors);
    ghost var walled := Walled(before[i].position, before[i].velocity);
    ghost var force := Pending(PositionsOf(before), i, attrs);
    ghost var v := SpeedLimited(Add(walled, force));
    assert StepBoid(before, i, attrs, n) == Kinematics(Add(before[i].position, Div(v, MOVE_DIVIDER)), v);
    var boid := boids[i];
    SimulateWall(boid);
    assert Positions(boids) == PositionsOf(before);
    boid.UpdateVelocity(boids, attractors, i);
    assert AttractorStates(attractors) == attrs;
    assert boid.velocity == walled && boid.pending == force;
    boid.Move();
    assert AttractorStates(attractors) == attrs;
    assert boid.velocity == v;
    assert forall j :: 0 <= j < |boids| && j != i ==> boids[j] != boid;
  }

  /** One turn of move()'s loop, stated against the pass it advances by one boid. */
  method MoveNext(boids: seq<Boid>, attractors: seq<Attractor>, i: nat, ghost n: nat, ghost start: seq<Kinematics>, ghost attrs: seq<AttractorState>)
    requires FlockShaped(boids, attractors, n) && i < |boids|
    requires |start| == |boids| && Shaped(start, n) && AttractorsHave(attrs, n)
    requires AttractorStates(attractors) == attrs && States(boids) == MoveFirst(start, attrs, n, i)
    modifies boids
    ensures FlockShaped(boids, attractors, n) && AttractorStates(attractors) == attrs
    ensures States(boids) == MoveFirst(start, attrs, n, i + 1)
  {
    MoveBoid(boids, attractors, i, n);
    MoveFirstStep(start, attrs, n, i);
  }

  /**
   * move(): for each boid in turn, simulate_wall, update_velocity, Boid.move.
   * A boid's rules see the positions the earlier boids already moved to.
   */
  method Move(boids: seq<Boid>, attractors: seq<Attractor>, ghost n: nat)
    requires FlockShaped(boids, attractors, n)
    modifies boids
    ensures FlockShaped(boids, attractors, n)
    ensures AttractorStates(attractors) == old(AttractorStates(attractors))
    ensures States(boids) == MoveFirst(old(States(boids)), AttractorStates(attractors), n, |boids|)
  {
    ghost var start := States(boids);
    ghost var attrs := AttractorStates(attractors);
    FlockShapedStates(boids, attractors, n);
    for i := 0 to |boids|
      invariant FlockShaped(boids, attractors, n)
      invariant AttractorStates(attractors) == attrs
      invariant States(boids) == MoveFirst(start, attrs, n, i)
    {
      MoveNext(boids, attractors, i, n, start, attrs);
    }
  }
}
