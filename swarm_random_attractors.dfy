/**
 * swarm_randomAttractors.py: the two-dimensional flock with three attractors,
 * placed at random when the simulation starts and never moved, and a speed
 * limit of 800.
 *
 * `mag` is computed with the square-root function `root`, required to be
 * exact; the random draws of the script are parameters.
 */
module SwarmRandomAttractors {
  import opened TwoD
  import opened Flock2D

  const ATTRACTORS: nat := 3
  const SPEED_LIMIT: real := 800.0

  class Simulation {
    const boids: seq<Boid>
    const attractors: seq<Attractor>

    /** BOIDS distinct boids and ATTRACTORS distinct attractors of strength ATTRACTION. */
    ghost predicate Valid()
      reads this, boids, attractors
    {
      && |boids| == BOIDS && |attractors| == ATTRACTORS
      && FlockShaped(boids)
      && AttractorsDistinct(attractors)
      && (forall a :: 0 <= a < |attractors| ==> attractors[a].attraction == ATTRACTION)
    }

    /** initialise(): build_boids and build_attractors from the given draws. */
    constructor (boidDraws: seq<StartDraw>, attractorDraws: seq<(int, int)>)
      requires |boidDraws| == BOIDS
      requires forall k :: 0 <= k < |boidDraws| ==> ValidDraw(boidDraws[k], WIDTH as int, HEIGHT as int)
      requires |attractorDraws| == ATTRACTORS
      requires forall a :: 0 <= a < |attractorDraws| ==>
        1.0 <= attractorDraws[a].0 as real <= WIDTH && 1.0 <= attractorDraws[a].1 as real <= HEIGHT
      ensures Valid()
      ensures forall k :: 0 <= k < |boidDraws| ==>
        && boids[k].position == RandomStart(WIDTH as int, HEIGHT as int, OFFSET_START, boidDraws[k])
        && boids[k].velocity == ZERO
      ensures forall a :: 0 <= a < ATTRACTORS ==>
        attractors[a].position == Vec2(attractorDraws[a].0 as real, attractorDraws[a].1 as real)
    {
      var bs: seq<Boid> := [];
      for k := 0 to BOIDS
        invariant |bs| == k && Distinct(bs)
        invariant forall j :: 0 <= j < k ==>
          && bs[j].position == RandomStart(WIDTH as int, HEIGHT as int, OFFSET_START, boidDraws[j])
          && bs[j].velocity == ZERO && bs[j].moveDivider == MOVE_DIVIDER
      {
        var b := new Boid(WIDTH as int, HEIGHT as int, OFFSET_START, FRAMES_PER_SEC, boidDraws[k]);
        bs := bs + [b];
      }
      var ats: seq<Attractor> := [];
      for k := 0 to ATTRACTORS
        invariant |ats| == k && AttractorsDistinct(ats)
        invariant forall a :: 0 <= a < k ==>
          ats[a].position == Vec2(attractorDraws[a].0 as real, attractorDraws[a].1 as real) && ats[a].attraction == ATTRACTION
        invariant forall j :: 0 <= j < BOIDS ==>
          && bs[j].position == RandomStart(WIDTH as int, HEIGHT as int, OFFSET_START, boidDraws[j])
          && bs[j].velocity == ZERO
      {
        var a := new Attractor(attractorDraws[k].0, attractorDraws[k].1, ATTRACTION);
        ats := ats + [a];
      }
      boids := bs;
      attractors := ats;
    }

    /** update(): one tick of move(); every boid ends it no faster than SPEED_LIMIT. */
    method Update(root: real -> real)
      requires Valid() && IsSquareRoot(root)
      modifies boids
      ensures Valid()
      ensures States(boids) == MoveFirst(old(States(boids)), AttractorStates(attractors), SPEED_LIMIT, root, BOIDS)
      ensures SpeedsWithin(States(boids), SPEED_LIMIT)
    {
      ghost var attrs := AttractorStates(attractors);
      ghost var start := States(boids);
      Move(boids, attractors, SPEED_LIMIT, root);
      MoveKeepsSpeedLimit(start, attrs, SPEED_LIMIT, root);
    }
  }
}
