/**
 * The boid simulation shared by the two two-dimensional scripts,
 * swarm_receivesOSC.py and swarm_randomAttractors.py. They differ only in the
 * speed limit (1000 and 800) and the number of attractors (4 and 3), so the
 * speed limit is a parameter here and each script's module fixes it.
 *
 * Unlike the N-dimensional scripts, proximity is Euclidean (`mag() < 30`),
 * the speed limit bounds the magnitude of the whole velocity, the walls use
 * WIDTH for x and HEIGHT for y, and boids start just outside one edge.
 */
module Flock2D {
  import opened TwoD
  import opened Sequential

  const WIDTH: real := 1000.0
  const HEIGHT: real := 500.0
  const BOIDS: nat := 19
  const ATTRACTION: real := 5.0
  const WALL: real := 100.0
  const WALL_FORCE: real := 30.0
  const OFFSET_START: int := 20
  const FRAMES_PER_SEC: nat := 40
  /** A boid's `move_divider`: the frame rate times 5. */
  const MOVE_DIVIDER: real := 200.0
  /** rule1's divisor. */
  const COHESION_DIVISOR: real := 7.5
  /** The literal 30 of rule2 and rule4: the radius within which boids and attractors count. */
  const NEIGHBOURHOOD: real := 30.0

  // ---------------------------------------------------------------------------
  // simulate_wall and limit_speed

  /** One axis of `simulate_wall`: the velocity after the nudge of a wall `extent` wide. */
  function Nudge(p: real, v: real, extent: real): (r: real)
    requires extent >= 2.0 * WALL
    ensures r == v + WALL_FORCE || r == v - WALL_FORCE || r == v
    ensures r > v <==> p < WALL
    ensures r < v <==> p > extent - WALL
  {
    if p < WALL then v + WALL_FORCE
    else if p > extent - WALL then v - WALL_FORCE
    else v
  }

  /** `simulate_wall`: x is checked against WIDTH and y against HEIGHT, each on its own. */
  function Walled(p: Vec2, v: Vec2): Vec2
  {
    Vec2(Nudge(p.x, v.x, WIDTH), Nudge(p.y, v.y, HEIGHT))
  }

  /** The wall's nudge never points away from the middle of the screen, on either axis. */
  lemma WallPushesInward(p: Vec2, v: Vec2)
    ensures (Walled(p, v).x - v.x) * (p.x - WIDTH / 2.0) <= 0.0
    ensures (Walled(p, v).y - v.y) * (p.y - HEIGHT / 2.0) <= 0.0
    ensures WALL <= p.x <= WIDTH - WALL ==> Walled(p, v).x == v.x
    ensures WALL <= p.y <= HEIGHT - WALL ==> Walled(p, v).y == v.y
  {
  }

  /** `limit_speed`: a velocity faster than `limit` is divided by `mag / limit`. */
  function Limited(v: Vec2, limit: real, root: real -> real): Vec2
    requires limit > 0.0
  {
    if Mag(v, root) > limit then Div(v, Mag(v, root) / limit) else v
  }

  /** Dividing by q > 0 divides the squared magnitude by q * q and keeps the direction. */
  lemma DivScalesMagSq(v: Vec2, q: real)
    requires q > 0.0
    ensures MagSq(Div(v, q)) * (q * q) == MagSq(v)
    ensures var r := Div(v, q); r.x * v.y == r.y * v.x && r.x * v.x + r.y * v.y >= 0.0
  {
    var r := Div(v, q);
    assert r.x * q == v.x && r.y * q == v.y;
    assert (r.x * r.x) * (q * q) == v.x * v.x by {
      assert (r.x * r.x) * (q * q) == (r.x * q) * (r.x * q);
    }
    assert (r.y * r.y) * (q * q) == v.y * v.y by {
      assert (r.y * r.y) * (q * q) == (r.y * q) * (r.y * q);
    }
    assert (r.x * v.y) * q == v.x * v.y && (r.y * v.x) * q == v.x * v.y;
    assert (r.x * v.x + r.y * v.y) * q == MagSq(v);
  }

  /** Dividing a vector of magnitude m > limit by m / limit brings its magnitude to exactly `limit`. */
  lemma ScaledToLimit(v: Vec2, limit: real, m: real)
    requires 0.0 < limit < m && m * m == MagSq(v)
    ensures MagSq(Div(v, m / limit)) == limit * limit
  {
    var q := m / limit;
    assert q * limit == m && q > 0.0;
    DivScalesMagSq(v, q);
    assert MagSq(v) == (limit * limit) * (q * q) by {
      assert m * m == (q * limit) * (q * limit);
    }
    PositiveProduct(q, q);
    Cancel(MagSq(Div(v, q)), limit * limit, q * q);
  }

  /**
   * After limit_speed the speed is at most `limit`: a faster velocity is
   * scaled down to exactly `limit` in the same direction, any other is kept.
   */
  lemma LimitedSpec(v: Vec2, limit: real, root: real -> real)
    requires IsSquareRoot(root) && limit > 0.0
    ensures MagSq(Limited(v, limit, root)) <= limit * limit
    ensures MagSq(v) <= limit * limit ==> Limited(v, limit, root) == v
    ensures MagSq(v) > limit * limit ==> MagSq(Limited(v, limit, root)) == limit * limit
    ensures var r := Limited(v, limit, root); r.x * v.y == r.y * v.x && r.x * v.x + r.y * v.y >= 0.0
  {
    MagLess(v, limit, root);
    var m := Mag(v, root);
    if m > limit {
      MagSquared(v, root);
      ScaledToLimit(v, limit, m);
      DivScalesMagSq(v, m / limit);
    } else {
      assert v.x * v.y == v.y * v.x;
      assert v.x * v.x >= 0.0 && v.y * v.y >= 0.0;
    }
  }

  /** Limiting an already limited velocity changes nothing. */
  lemma LimitedIdempotent(v: Vec2, limit: real, root: real -> real)
    requires IsSquareRoot(root) && limit > 0.0
    ensures Limited(Limited(v, limit, root), limit, root) == Limited(v, limit, root)
  {
    LimitedSpec(v, limit, root);
    LimitedSpec(Limited(v, limit, root), limit, root);
  }

  // ---------------------------------------------------------------------------
  // The force rules, as functions of a snapshot of the flock

  /** Sum of the first `k` positions. */
  function Total(ps: seq<Vec2>, k: nat): Vec2
    requires k <= |ps|
  {
    if k == 0 then ZERO else Add(Total(ps, k - 1), ps[k - 1])
  }

  /** Sum of the first `k` positions except the `i`th (rule1's accumulator). */
  function OthersTotal(ps: seq<Vec2>, i: nat, k: nat): Vec2
    requires k <= |ps|
  {
    if k == 0 then ZERO
    else if k - 1 == i then OthersTotal(ps, i, k - 1)
    else Add(OthersTotal(ps, i, k - 1), ps[k - 1])
  }

  /** rule1, clumping: (mean of the other boids' positions - own position) / 7.5. */
  function Cohesion(ps: seq<Vec2>, i: nat): Vec2
    requires 2 <= |ps| && i < |ps|
  {
    Div(Sub(Div(OthersTotal(ps, i, |ps|), (|ps| - 1) as real), ps[i]), COHESION_DIVISOR)
  }

  /** The repulsion sum of rule2 over the first `k` boids: `self - other` for each other boid closer than NEIGHBOURHOOD. */
  function SepTotal(ps: seq<Vec2>, i: nat, k: nat, root: real -> real): Vec2
    requires i < |ps| && k <= |ps|
  {
    if k == 0 then ZERO
    else
      var s := SepTotal(ps, i, k - 1, root);
      if k - 1 != i && Mag(Sub(ps[i], ps[k - 1]), root) < NEIGHBOURHOOD
      then Sub(s, Sub(ps[k - 1], ps[i]))
      else s
  }

  /** rule2, avoidance: 1.5 times the repulsion sum. */
  function Separation(ps: seq<Vec2>, i: nat, root: real -> real): Vec2
    requires i < |ps|
  {
    Scale(SepTotal(ps, i, |ps|, root), 1.5)
  }

  /** What rule4 reads of an attractor. */
  datatype AttractorState = AttractorState(position: Vec2, attraction: real)

  /** The pull sum of rule4 over the first `k` attractors: `(attractor - self) * attraction` for each one closer than NEIGHBOURHOOD. */
  function PullTotal(p: Vec2, attrs: seq<AttractorState>, k: nat, root: real -> real): Vec2
    requires k <= |attrs|
  {
    if k == 0 then ZERO
    else
      var s := PullTotal(p, attrs, k - 1, root);
      var a := attrs[k - 1];
      if Mag(Sub(p, a.position), root) < NEIGHBOURHOOD
      then Add(s, Scale(Sub(a.position, p), a.attraction))
      else s
  }

  /** rule4, attractors. */
  function Attraction(p: Vec2, attrs: seq<AttractorState>, root: real -> real): Vec2
  {
    PullTotal(p, attrs, |attrs|, root)
  }

  /** update_velocity: `v1 + v2 + v4`. */
  function Pending(ps: seq<Vec2>, i: nat, attrs: seq<AttractorState>, root: real -> real): Vec2
    requires 2 <= |ps| && i < |ps|
  {
    Add(Add(Cohesion(ps, i), Separation(ps, i, root)), Attraction(ps[i], attrs, root))
  }

  // ---------------------------------------------------------------------------
  // Properties of the rules

  lemma {:induction false} OthersTotalSplit(ps: seq<Vec2>, i: nat, k: nat)
    requires k <= |ps|
    ensures OthersTotal(ps, i, k) == if i < k then Sub(Total(ps, k), ps[i]) else Total(ps, k)
  {
    if k > 0 {
      OthersTotalSplit(ps, i, k - 1);
    }
  }

  /** One coordinate of rule1 scaled back: `((o / (n - 1) - p) / 7.5) * 7.5 * (n - 1)` is `(o + p) - n * p`. */
  lemma CohesionScaledBack(o: real, p: real, n: real)
    requires n > 1.0
    ensures ((o / (n - 1.0) - p) / COHESION_DIVISOR) * (COHESION_DIVISOR * (n - 1.0)) == (o + p) - n * p
  {
    var q := o / (n - 1.0);
    assert q * (n - 1.0) == o;
    var c := (q - p) / COHESION_DIVISOR;
    assert c * COHESION_DIVISOR == q - p;
    assert c * (COHESION_DIVISOR * (n - 1.0)) == (q - p) * (n - 1.0);
  }

  /** rule1 pulls each boid toward the centroid of the whole flock, by n / (7.5 * (n - 1)) of its distance to it. */
  lemma CohesionTowardCentroid(ps: seq<Vec2>, i: nat)
    requires 2 <= |ps| && i < |ps|
    ensures var c := Cohesion(ps, i); var t := Total(ps, |ps|); var n := |ps| as real;
      && c.x * (COHESION_DIVISOR * (n - 1.0)) == t.x - n * ps[i].x
      && c.y * (COHESION_DIVISOR * (n - 1.0)) == t.y - n * ps[i].y
  {
    var n := |ps| as real;
    OthersTotalSplit(ps, i, |ps|);
    var o := OthersTotal(ps, i, |ps|);
    CohesionScaledBack(o.x, ps[i].x, n);
    CohesionScaledBack(o.y, ps[i].y, n);
  }

  lemma {:induction false} SepTotalZero(ps: seq<Vec2>, i: nat, k: nat, root: real -> real)
    requires i < |ps| && k <= |ps|
    requires forall j :: 0 <= j < k && j != i ==> Mag(Sub(ps[i], ps[j]), root) >= NEIGHBOURHOOD
    ensures SepTotal(ps, i, k, root) == ZERO
  {
    if k > 0 {
      SepTotalZero(ps, i, k - 1, root);
    }
  }

  /** With no other boid within distance NEIGHBOURHOOD (`mag() < 30`), rule2 is the zero vector. */
  lemma SeparationZeroWhenAlone(ps: seq<Vec2>, i: nat, root: real -> real)
    requires i < |ps|
    requires forall j :: 0 <= j < |ps| && j != i ==> Mag(Sub(ps[i], ps[j]), root) >= NEIGHBOURHOOD
    ensures Separation(ps, i, root) == ZERO
  {
    SepTotalZero(ps, i, |ps|, root);
  }

  lemma {:induction false} SepTotalBounded(ps: seq<Vec2>, i: nat, k: nat, root: real -> real)
    requires IsSquareRoot(root) && i < |ps| && k <= |ps|
    ensures var s := SepTotal(ps, i, k, root); var b := NEIGHBOURHOOD * (if i < k then k - 1 else k) as real;
      -b <= s.x <= b && -b <= s.y <= b
  {
    if k > 0 {
      SepTotalBounded(ps, i, k - 1, root);
      var d := Sub(ps[i], ps[k - 1]);
      if k - 1 != i && Mag(d, root) < NEIGHBOURHOOD {
        MagLess(d, NEIGHBOURHOOD, root);
        CoordinatesWithinMag(d, NEIGHBOURHOOD);
      }
    }
  }

  /** Each coordinate of rule2 is less than 1.5 * NEIGHBOURHOOD per other boid in magnitude. */
  lemma SeparationBounded(ps: seq<Vec2>, i: nat, root: real -> real)
    requires IsSquareRoot(root) && i < |ps|
    ensures var s := Separation(ps, i, root); var b := 1.5 * NEIGHBOURHOOD * (|ps| - 1) as real;
      -b <= s.x <= b && -b <= s.y <= b
  {
    SepTotalBounded(ps, i, |ps|, root);
  }

  lemma {:induction false} PullTotalZero(p: Vec2, attrs: seq<AttractorState>, k: nat, root: real -> real)
    requires k <= |attrs|
    requires forall a :: 0 <= a < k ==> Mag(Sub(p, attrs[a].position), root) >= NEIGHBOURHOOD
    ensures PullTotal(p, attrs, k, root) == ZERO
  {
    if k > 0 {
      PullTotalZero(p, attrs, k - 1, root);
    }
  }

  /** With no attractor within distance NEIGHBOURHOOD (`mag() < 30`), rule4 is the zero vector. */
  lemma AttractionZeroWhenFar(p: Vec2, attrs: seq<AttractorState>, root: real -> real)
    requires forall a :: 0 <= a < |attrs| ==> Mag(Sub(p, attrs[a].position), root) >= NEIGHBOURHOOD
    ensures Attraction(p, attrs, root) == ZERO
  {
    PullTotalZero(p, attrs, |attrs|, root);
  }

  lemma {:induction false} PullTotalBounded(p: Vec2, attrs: seq<AttractorState>, k: nat, root: real -> real)
    requires IsSquareRoot(root) && k <= |attrs|
    requires forall a :: 0 <= a < |attrs| ==> attrs[a].attraction == ATTRACTION
    ensures var s := PullTotal(p, attrs, k, root); var b := NEIGHBOURHOOD * ATTRACTION * k as real;
      -b <= s.x <= b && -b <= s.y <= b
  {
    if k > 0 {
      PullTotalBounded(p, attrs, k - 1, root);
      var a := attrs[k - 1];
      assert a.attraction == ATTRACTION;
      var d := Sub(p, a.position);
      if Mag(d, root) < NEIGHBOURHOOD {
        MagLess(d, NEIGHBOURHOOD, root);
        CoordinatesWithinMag(d, NEIGHBOURHOOD);
      }
    }
  }

  /** Each attractor in range adds less than NEIGHBOURHOOD * ATTRACTION to each coordinate of rule4. */
  lemma AttractionBounded(p: Vec2, attrs: seq<AttractorState>, root: real -> real)
    requires IsSquareRoot(root)
    requires forall a :: 0 <= a < |attrs| ==> attrs[a].attraction == ATTRACTION
    ensures var s := Attraction(p, attrs, root); var b := NEIGHBOURHOOD * ATTRACTION * |attrs| as real;
      -b <= s.x <= b && -b <= s.y <= b
  {
    PullTotalBounded(p, attrs, |attrs|, root);
  }

  // ---------------------------------------------------------------------------
  // random_start

  /** The three random draws Boid.random_start makes. */
  datatype StartDraw = StartDraw(axis: int, coord: int, side: int)

  ghost predicate ValidDraw(d: StartDraw, width: int, height: int)
  {
    && 0 <= d.axis <= 1 && 0 <= d.side <= 1
    && (if d.axis == 1 then 1 <= d.coord <= height else 1 <= d.coord <= width)
  }

  /**
   * Boid.random_start with its three draws passed in, in the order the source
   * makes them: `axis` (randint(0, 1): 1 for the left and right edges),
   * `coord` (randint(1, height) or randint(1, width)) and `side`
   * (randint(0, 1): 1 for the left or top edge).
   */
  function RandomStart(width: int, height: int, offset: int, d: StartDraw): (r: Vec2)
    requires ValidDraw(d, width, height)
    ensures d.axis == 1 ==> r.x == (if d.side == 1 then -offset else width + offset) as real && r.y == d.coord as real
    ensures d.axis == 0 ==> r.y == (if d.side == 1 then -offset else height + offset) as real && r.x == d.coord as real
  {
    if d.axis == 1 then
      Vec2((if d.side == 1 then -offset else width + offset) as real, d.coord as real)
    else
      Vec2(d.coord as real, (if d.side == 1 then -offset else height + offset) as real)
  }

  /** The pair of integer coordinates `(x, y)` is inside the screen, in [1, width] by [1, height]. */
  predicate OnScreen(p: Vec2, width: int, height: int)
  {
    1.0 <= p.x <= width as real && 1.0 <= p.y <= height as real
  }

  /**
   * A boid starts exactly `offset` beyond one edge: on exactly one axis it is
   * at -offset or extent + offset, and on the other it is an integer within
   * the screen.
   */
  lemma RandomStartOffscreen(width: int, height: int, offset: int, d: StartDraw)
    requires ValidDraw(d, width, height) && offset > 0
    ensures var r := RandomStart(width, height, offset, d);
      && r.x.Floor as real == r.x && r.y.Floor as real == r.y
      && ((r.x == -offset as real || r.x == (width + offset) as real) <==> d.axis == 1)
      && ((r.y == -offset as real || r.y == (height + offset) as real) <==> d.axis == 0)
      && (d.axis == 1 ==> 1.0 <= r.y <= height as real)
      && (d.axis == 0 ==> 1.0 <= r.x <= width as real)
      && !OnScreen(r, width, height)
  {
  }

  // ---------------------------------------------------------------------------
  // One tick of `move()`, as a function of the flock's state

  datatype Kinematics = Kinematics(position: Vec2, velocity: Vec2)

  function PositionsOf(s: seq<Kinematics>): (r: seq<Vec2>)
    ensures |r| == |s| && forall j :: 0 <= j < |s| ==> r[j] == s[j].position
  {
    seq(|s|, j requires 0 <= j < |s| => s[j].position)
  }

  /**
   * What `move()` does to boid `i` when the flock is in state `s`:
   * simulate_wall, then update_velocity, then Boid.move.
   */
  function StepBoid(s: seq<Kinematics>, i: nat, attrs: seq<AttractorState>, limit: real, root: real -> real): Kinematics
    requires 2 <= |s| && i < |s| && limit > 0.0
  {
    var walled := Walled(s[i].position, s[i].velocity);
    var v := Limited(Add(walled, Pending(PositionsOf(s), i, attrs, root)), limit, root);
    Kinematics(Add(s[i].position, Div(v, MOVE_DIVIDER)), v)
  }

  /** `move()`'s step for boid j, as the function its pass over the flock applies. */
  function Stepper(attrs: seq<AttractorState>, limit: real, root: real -> real): (seq<Kinematics>, nat) --> Kinematics
    requires limit > 0.0
  {
    (t: seq<Kinematics>, j: nat) requires 2 <= |t| && j < |t| => StepBoid(t, j, attrs, limit, root)
  }

  /** The states `move()` steps: at least two boids, as rule1 divides by the number of the others. */
  function Flock(): seq<Kinematics> -> bool
  {
    t => 2 <= |t|
  }

  /** The flock after `move()` has handled its first `k` boids, one after the other. */
  ghost function MoveFirst(s: seq<Kinematics>, attrs: seq<AttractorState>, limit: real, root: real -> real, k: nat): (r: seq<Kinematics>)
    requires 2 <= |s| && k <= |s| && limit > 0.0
    ensures |r| == |s|
  {
    Pass(s, Stepper(attrs, limit, root), Flock(), k)
  }

  /** One more boid handled: boid k takes the step computed from the flock as the first k steps left it. */
  lemma MoveFirstStep(s: seq<Kinematics>, attrs: seq<AttractorState>, limit: real, root: real -> real, k: nat)
    requires 2 <= |s| && k < |s| && limit > 0.0
    ensures MoveFirst(s, attrs, limit, root, k + 1)
         == MoveFirst(s, attrs, limit, root, k)[k := StepBoid(MoveFirst(s, attrs, limit, root, k), k, attrs, limit, root)]
  {
    var t := Pass(s, Stepper(attrs, limit, root), Flock(), k);
    assert Pass(s, Stepper(attrs, limit, root), Flock(), k + 1) == t[k := Stepper(attrs, limit, root)(t, k)];
  }

  /** Boid i ends the tick as its own step left it, taken after boids 0..i-1 had moved. */
  lemma MoveFirstOrder(s: seq<Kinematics>, attrs: seq<AttractorState>, limit: real, root: real -> real, i: nat)
    requires 2 <= |s| && i < |s| && limit > 0.0
    ensures MoveFirst(s, attrs, limit, root, |s|)[i] == StepBoid(MoveFirst(s, attrs, limit, root, i), i, attrs, limit, root)
  {
    PassOrder(s, Stepper(attrs, limit, root), Flock(), |s|, i);
  }

  /** Every boid's speed is at most `limit` (compared squared, as `mag` is a square root). */
  predicate SpeedsWithin(s: seq<Kinematics>, limit: real)
  {
    forall j :: 0 <= j < |s| ==> MagSq(s[j].velocity) <= limit * limit
  }

  /** After a whole tick every boid's speed is at most `limit`. */
  lemma MoveKeepsSpeedLimit(s: seq<Kinematics>, attrs: seq<AttractorState>, limit: real, root: real -> real)
    requires IsSquareRoot(root) && 2 <= |s| && limit > 0.0
    ensures SpeedsWithin(MoveFirst(s, attrs, limit, root, |s|), limit)
  {
    var r := MoveFirst(s, attrs, limit, root, |s|);
    forall i | 0 <= i < |s|
      ensures MagSq(r[i].velocity) <= limit * limit
    {
      MoveFirstOrder(s, attrs, limit, root, i);
      var t := MoveFirst(s, attrs, limit, root, i);
      var walled := Walled(t[i].position, t[i].velocity);
      LimitedSpec(Add(walled, Pending(PositionsOf(t), i, attrs, root)), limit, root);
    }
  }

  // ---------------------------------------------------------------------------
  // The objects: boids and attractors, updated in place

  class Attractor {
    var position: Vec2
    const attraction: real

    /** `Attractor(attract)`: random_start draws x by randint(1, WIDTH) and y by randint(1, HEIGHT), passed in. */
    constructor (x: int, y: int, attract: real)
      requires 1.0 <= x as real <= WIDTH && 1.0 <= y as real <= HEIGHT
      ensures position == Vec2(x as real, y as real) && attraction == attract
      ensures OnScreen(position, WIDTH as int, HEIGHT as int)
    {
      position := Vec2(x as real, y as real);
      attraction := attract;
    }
  }

  /** The positions and strengths rule4 reads from the attractors. */
  ghost function AttractorStates(attractors: seq<Attractor>): (r: seq<AttractorState>)
    reads attractors
    ensures |r| == |attractors|
  {
    seq(|attractors|, a requires 0 <= a < |attractors| reads attractors =>
      AttractorState(attractors[a].position, attractors[a].attraction))
  }

  ghost function Positions(boids: seq<Boid>): (r: seq<Vec2>)
    reads boids
    ensures |r| == |boids| && forall j :: 0 <= j < |boids| ==> r[j] == boids[j].position
  {
    seq(|boids|, j requires 0 <= j < |boids| reads boids => boids[j].position)
  }

  ghost function States(boids: seq<Boid>): (r: seq<Kinematics>)
    reads boids
    ensures |r| == |boids|
    ensures forall j :: 0 <= j < |boids| ==> r[j] == Kinematics(boids[j].position, boids[j].velocity)
  {
    seq(|boids|, j requires 0 <= j < |boids| reads boids => Kinematics(boids[j].position, boids[j].velocity))
  }

  ghost predicate Distinct(boids: seq<Boid>)
  {
    forall j, k :: 0 <= j < k < |boids| ==> boids[j] != boids[k]
  }

  ghost predicate AttractorsDistinct(attractors: seq<Attractor>)
  {
    forall a, b :: 0 <= a < b < |attractors| ==> attractors[a] != attractors[b]
  }

  /** The state `move()` relies on: at least two distinct boids, each with move_divider MOVE_DIVIDER. */
  ghost predicate FlockShaped(boids: seq<Boid>)
    reads boids
  {
    && 2 <= |boids|
    && Distinct(boids)
    && (forall j :: 0 <= j < |boids| ==> boids[j].moveDivider == MOVE_DIVIDER)
  }

  class Boid {
    var position: Vec2
    var velocity: Vec2
    /** `__temp`: the force update_velocity computed and move adds to the velocity. */
    var pending: Vec2
    const moveDivider: real

    /** `Boid(width, height, offset, move_divider)`: zero velocity and a random_start position. */
    constructor (width: int, height: int, offset: int, moveDivider: nat, draw: StartDraw)
      requires ValidDraw(draw, width, height)
      ensures position == RandomStart(width, height, offset, draw)
      ensures velocity == ZERO && pending == ZERO
      ensures this.moveDivider == (moveDivider * 5) as real
    {
      velocity := ZERO;
      pending := ZERO;
      position := RandomStart(width, height, offset, draw);
      this.moveDivider := (moveDivider * 5) as real;
    }

    /** rule1 (clumping), with the source's loop over the flock. */
    method Rule1(boids: seq<Boid>, ghost i: nat) returns (r: Vec2)
      requires 2 <= |boids| && i < |boids| && boids[i] == this && Distinct(boids)
      ensures r == Cohesion(Positions(boids), i)
    {
      ghost var ps := Positions(boids);
      var vector := ZERO;
      for j := 0 to |boids|
        invariant vector == OthersTotal(ps, i, j)
      {
        if boids[j] != this {
          vector := Add(vector, boids[j].position);
        }
      }
      vector := Div(vector, (|boids| - 1) as real);
      r := Div(Sub(vector, position), COHESION_DIVISOR);
    }

    /** rule2 (avoidance), with the source's loop over the flock. */
    method Rule2(boids: seq<Boid>, ghost i: nat, root: real -> real) returns (r: Vec2)
      requires i < |boids| && boids[i] == this && Distinct(boids)
      ensures r == Separation(Positions(boids), i, root)
    {
      ghost var ps := Positions(boids);
      var vector := ZERO;
      for j := 0 to |boids|
        invariant vector == SepTotal(ps, i, j, root)
      {
        if boids[j] != this {
          if Mag(Sub(position, boids[j].position), root) < NEIGHBOURHOOD {
            vector := Sub(vector, Sub(boids[j].position, position));
          }
        }
      }
      r := Scale(vector, 1.5);
    }

    /** rule4 (attractors), with the source's loop over the attractors. */
    method Rule4(attractors: seq<Attractor>, root: real -> real) returns (r: Vec2)
      ensures r == Attraction(position, AttractorStates(attractors), root)
    {
      ghost var attrs := AttractorStates(attractors);
      var vector := ZERO;
      for a := 0 to |attractors|
        invariant vector == PullTotal(position, attrs, a, root)
      {
        if Mag(Sub(position, attractors[a].position), root) < NEIGHBOURHOOD {
          vector := Add(vector, Scale(Sub(attractors[a].position, position), attractors[a].attraction));
        }
      }
      r := vector;
    }

    /** update_velocity: stores `rule1 + rule2 + rule4` for the next move. */
    method UpdateVelocity(boids: seq<Boid>, attractors: seq<Attractor>, ghost i: nat, root: real -> real)
      requires 2 <= |boids| && i < |boids| && boids[i] == this && Distinct(boids)
      modifies this`pending
      ensures pending == Pending(old(Positions(boids)), i, AttractorStates(attractors), root)
    {
      var v1 := Rule1(boids, i);
      var v2 := Rule2(boids, i, root);
      var v4 := Rule4(attractors, root);
      pending := Add(Add(v1, v2), v4);
    }

    /** Boid.move: add the pending force, limit the speed, advance by velocity / move_divider. */
    method Move(limit: real, root: real -> real)
      requires moveDivider != 0.0 && limit > 0.0
      modifies this
      ensures velocity == Limited(Add(old(velocity), old(pending)), limit, root)
      ensures position == Add(old(position), Div(velocity, moveDivider))
      ensures pending == old(pending)
    {
      velocity := Add(velocity, pending);
      LimitSpeed(this, limit, root);
      position := Add(position, Div(velocity, moveDivider));
    }
  }

  /** simulate_wall: nudges the velocity on each axis where the boid is within WALL of a side. */
  method SimulateWall(boid: Boid)
    modifies boid
    ensures boid.position == old(boid.position) && boid.pending == old(boid.pending)
    ensures boid.velocity == Walled(boid.position, old(boid.velocity))
  {
    if boid.position.x < WALL {
      boid.velocity := boid.velocity.(x := boid.velocity.x + WALL_FORCE);
    } else if boid.position.x > WIDTH - WALL {
      boid.velocity := boid.velocity.(x := boid.velocity.x - WALL_FORCE);
    }
    if boid.position.y < WALL {
      boid.velocity := boid.velocity.(y := boid.velocity.y + WALL_FORCE);
    } else if boid.position.y > HEIGHT - WALL {
      boid.velocity := boid.velocity.(y := boid.velocity.y - WALL_FORCE);
    }
  }

  /** limit_speed: a velocity whose magnitude exceeds `limit` is divided by `mag / limit`. */
  method LimitSpeed(boid: Boid, limit: real, root: real -> real)
    requires limit > 0.0
    modifies boid
    ensures boid.velocity == Limited(old(boid.velocity), limit, root)
    ensures boid.position == old(boid.position) && boid.pending == old(boid.pending)
  {
    if Mag(boid.velocity, root) > limit {
      boid.velocity := Div(boid.velocity, Mag(boid.velocity, root) / limit);
    }
  }

  /** The first half of move()'s loop body for boid i: simulate_wall, then update_velocity. */
  method PrepareBoid(boids: seq<Boid>, attractors: seq<Attractor>, i: nat, root: real -> real)
    requires FlockShaped(boids) && i < |boids|
    modifies boids[i]
    ensures boids[i].position == old(boids[i].position)
    ensures boids[i].velocity == Walled(old(boids[i].position), old(boids[i].velocity))
    ensures boids[i].pending == Pending(old(Positions(boids)), i, AttractorStates(attractors), root)
  {
    var boid := boids[i];
    SimulateWall(boid);
    assert Positions(boids) == old(Positions(boids));
    boid.UpdateVelocity(boids, attractors, i, root);
  }

  /** The body of move()'s loop for boid i: simulate_wall, update_velocity, Boid.move. */
  method MoveBoid(boids: seq<Boid>, attractors: seq<Attractor>, i: nat, limit: real, root: real -> real)
    requires FlockShaped(boids) && i < |boids| && limit > 0.0
    modifies boids[i]
    ensures FlockShaped(boids)
    ensures AttractorStates(attractors) == old(AttractorStates(attractors))
    ensures States(boids) == old(States(boids))[i := StepBoid(old(States(boids)), i, AttractorStates(attractors), limit, root)]
  {
    ghost var before := States(boids);
    ghost var attrs := AttractorStates(attractors);
    ghost var walled := Walled(before[i].position, before[i].velocity);
    ghost var force := Pending(PositionsOf(before), i, attrs, root);
    ghost var v := Limited(Add(walled, force), limit, root);
    assert StepBoid(before, i, attrs, limit, root) == Kinematics(Add(before[i].position, Div(v, MOVE_DIVIDER)), v);
    assert Positions(boids) == PositionsOf(before);
    PrepareBoid(boids, attractors, i, root);
    assert AttractorStates(attractors) == attrs;
    assert boids[i].velocity == walled && boids[i].pending == force;
    boids[i].Move(limit, root);
    assert AttractorStates(attractors) == attrs;
    assert boids[i].velocity == v;
    assert forall j :: 0 <= j < |boids| && j != i ==> boids[j] != boids[i];
  }

  /**
   * move(): for each boid in turn, simulate_wall, update_velocity, Boid.move.
   * A boid's rules see the positions the earlier boids already moved to.
   */
  method Move(boids: seq<Boid>, attractors: seq<Attractor>, limit: real, root: real -> real)
    requires FlockShaped(boids) && limit > 0.0
    modifies boids
    ensures FlockShaped(boids)
    ensures AttractorStates(attractors) == old(AttractorStates(attractors))
    ensures States(boids) == MoveFirst(old(States(boids)), AttractorStates(attractors), limit, root, |boids|)
  {
    ghost var start := States(boids);
    ghost var attrs := AttractorStates(attractors);
    for i := 0 to |boids|
      invariant FlockShaped(boids)
      invariant AttractorStates(attractors) == attrs
      invariant States(boids) == MoveFirst(start, attrs, limit, root, i)
    {
      MoveBoid(boids, attractors, i, limit, root);
      MoveFirstStep(start, attrs, limit, root, i);
    }
  }
}
