/**
 * swarm_receivesOSC.py: the two-dimensional flock with four attractors and a
 * speed limit of 1000, where an incoming `/attr` message sets the position of
 * one attractor to the two values it carries.
 *
 * `mag` is computed with the square-root function `root`, required to be
 * exact; the random draws of the script are parameters.
 */
module SwarmReceivesOsc {
  import opened TwoD
  import opened Flock2D

  const ATTRACTORS: nat := 4
  const SPEED_LIMIT: real := 1000.0

  /** What attractor_handler leaves in the chosen attractor: a two-value message replaces it, any other is refused. */
  function Handled(p: Vec2, stuff: seq<real>): (r: Vec2)
    ensures |stuff| == 2 ==> r == Vec2(stuff[0], stuff[1])
    ensures |stuff| != 2 ==> r == p
  {
    if |stuff| == 2 then Vec2(stuff[0], stuff[1]) else p
  }

  /** A two-value message places the attractor wholly by the message: where it was does not matter. */
  lemma HandledIgnoresOld(p: Vec2, q: Vec2, stuff: seq<real>)
    requires |stuff| == 2
    ensures Handled(p, stuff) == Handled(q, stuff)
  {
  }

  /** Receiving the same message twice leaves the attractor where the first one put it. */
  lemma HandledIdempotent(p: Vec2, stuff: seq<real>)
    ensures Handled(Handled(p, stuff), stuff) == Handled(p, stuff)
  {
  }

  /** The values are not clamped: a message can put an attractor off screen, past the left edge (x < 0) or the bottom edge (y > HEIGHT). */
  lemma HandledOffScreen(p: Vec2, x: real, y: real)
    requires x < 0.0 || y > HEIGHT
    ensures var r := Handled(p, [x, y]); r.x < 0.0 || r.y > HEIGHT
  {
  }

  class Simulation {
    const boids: seq<Boid>
    const attractors: seq<Attractor>

    /** BOIDS distinct boids and ATTRACTORS distinct attractors of strength ATTRACTION. */
    ghost predicate Valid()
      reads this, boids, attractors
    {
      && |boids| == BOIDS && |attractors| == ATTRACTORS
      && FlockShaped(boids)
      && AttractorsDistinct(attractors)
      && (forall a :: 0 <= a < |attractors| ==> attractors[a].attraction == ATTRACTION)
    }

    /** initialise(): build_boids and build_attractors from the given draws. */
    constructor (boidDraws: seq<StartDraw>, attractorDraws: seq<(int, int)>)
      requires |boidDraws| == BOIDS
      requires forall k :: 0 <= k < |boidDraws| ==> ValidDraw(boidDraws[k], WIDTH as int, HEIGHT as int)
      requires |attractorDraws| == ATTRACTORS
      requires forall a :: 0 <= a < |attractorDraws| ==>
        1.0 <= attractorDraws[a].0 as real <= WIDTH && 1.0 <= attractorDraws[a].1 as real <= HEIGHT
      ensures Valid()
      ensures forall k :: 0 <= k < |boidDraws| ==>
        && boids[k].position == RandomStart(WIDTH as int, HEIGHT as int, OFFSET_START, boidDraws[k])
        && boids[k].velocity == ZERO
      ensures forall a :: 0 <= a < ATTRACTORS ==>
        attractors[a].position == Vec2(attractorDraws[a].0 as real, attractorDraws[a].1 as real)
    {
      var bs: seq<Boid> := [];
      for k := 0 to BOIDS
        invariant |bs| == k && Distinct(bs)
        invariant forall j :: 0 <= j < k ==>
          && bs[j].position == RandomStart(WIDTH as int, HEIGHT as int, OFFSET_START, boidDraws[j])
          && bs[j].velocity == ZERO && bs[j].moveDivider == MOVE_DIVIDER
      {
        var b := new Boid(WIDTH as int, HEIGHT as int, OFFSET_START, FRAMES_PER_SEC, boidDraws[k]);
        bs := bs + [b];
      }
      var ats: seq<Attractor> := [];
      for k := 0 to ATTRACTORS
        invariant |ats| == k && AttractorsDistinct(ats)
        invariant forall a :: 0 <= a < k ==>
          ats[a].position == Vec2(attractorDraws[a].0 as real, attractorDraws[a].1 as real) && ats[a].attraction == ATTRACTION
        invariant forall j :: 0 <= j < BOIDS ==>
          && bs[j].position == RandomStart(WIDTH as int, HEIGHT as int, OFFSET_START, boidDraws[j])
          && bs[j].velocity == ZERO
      {
        var a := new Attractor(attractorDraws[k].0, attractorDraws[k].1, ATTRACTION);
        ats := ats + [a];
      }
      boids := bs;
      attractors := ats;
    }

    /**
     * attractor_handler(): `(x, y) = stuff` on the attractor `random.choice`
     * picked (`choice`). The values are taken as they come, unclamped; a
     * message that does not hold exactly two values fails the unpacking and
     * changes nothing, and `ok` is false exactly then.
     */
    method AttractorHandler(choice: nat, stuff: seq<real>) returns (ok: bool)
      requires Valid() && choice < |attractors|
      modifies attractors[choice]
      ensures Valid()
      ensures ok <==> |stuff| == 2
      ensures attractors[choice].position == Handled(old(attractors[choice].position), stuff)
      ensures forall a :: 0 <= a < |attractors| && a != choice ==> attractors[a].position == old(attractors[a].position)
    {
      var attractor := attractors[choice];
      if |stuff| != 2 {
        return false;
      }
      attractor.position := Vec2(stuff[0], stuff[1]);
      ok := true;
    }

    /** update(): one tick of move(); every boid ends it no faster than SPEED_LIMIT. */
    method Update(root: real -> real)
      requires Valid() && IsSquareRoot(root)
      modifies boids
      ensures Valid()
      ensures States(boids) == MoveFirst(old(States(boids)), AttractorStates(attractors), SPEED_LIMIT, root, BOIDS)
      ensures SpeedsWithin(States(boids), SPEED_LIMIT)
    {
      ghost var attrs := AttractorStates(attractors);
      ghost var start := States(boids);
      Move(boids, attractors, SPEED_LIMIT, root);
      MoveKeepsSpeedLimit(start, attrs, SPEED_LIMIT, root);
    }
  }
}
