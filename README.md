# Boids swarm sonifier: a verified model of the simulation core

The system is a flock of nineteen "boids" moving among fixed attractors. Each
tick, every boid is pushed back from the walls, feels three forces and moves:
cohesion toward the other boids (`rule1`), separation from boids that are too
close (`rule2`) and the pull of nearby attractors (`rule4`). The speed is then
limited and the boid advances by its velocity divided by `move_divider` (200).
The N-dimensional scripts also sonify the swarm. Every so many ticks, the
scheduler `makesound` turns the boids' centroid into a note. The next note is
due after an interval that itself depends on the swarm. An incoming `/attr`
message moves one attractor.

The repository contains four near-duplicate scripts, and the model follows
their structure.

| script | what it adds | Dafny modules |
|---|---|---|
| `swarm.py` | 6 dimensions; the note is the normalised centroid; the handler writes all six coordinates | `Sequential`, `MultiD`, `FlockN`, `Swarm` |
| `swarm_receives_and_sends_OSC.py` | 5 dimensions; the note is `[freq, amp, dur]` with an interval `ioi`; the handler writes coordinates 0 to 2 | `Sequential`, `MultiD`, `FlockN`, `SwarmReceivesAndSendsOsc` |
| `swarm_receivesOSC.py` | 2-D, Euclidean distances and speed, 4 attractors, speed limit 1000, handler sets `(x, y)` | `Sequential`, `TwoD`, `Flock2D`, `SwarmReceivesOsc` |
| `swarm_randomAttractors.py` | 2-D, 3 attractors, speed limit 800, no handler | `Sequential`, `TwoD`, `Flock2D`, `SwarmRandomAttractors` |

The code is shared as follows:

- `move()` has the same shape in all four scripts: one pass over the flock in index order. `Sequential` states that pass once, with the step as a parameter, and proves the order in which the pass takes its steps. `FlockN` and `Flock2D` instantiate it with their own boid step.
- The boid, the attractor and the rules are identical in the two N-dimensional scripts, so `FlockN` models them once. The rows below cite `swarm.py`. The same code appears in `swarm_receives_and_sends_OSC.py`:
  - `simulate_wall` and `limit_speed` at 160-172;
  - the `Boid` at 245-311;
  - the `Attractor` at 316-322.
- The two 2-D scripts differ only in the attractor count and the speed limit. `Flock2D` takes the limit as a parameter, and its rows cite `swarm_receivesOSC.py`. The same code appears in `swarm_randomAttractors.py`:
  - the second, overriding `TwoD` class at 161-198;
  - `simulate_wall` and `limit_speed` at 87-101;
  - the `Boid` at 206-282;
  - the `Attractor` at 288-297.

How the source becomes Dafny:

- **Objects become classes.** Boids and attractors are classes whose fields are updated in place. The script globals `boids` and `attractors` are fields of every script's `Simulation` class. `sim_time` and `note_time` exist only in the two N-dimensional scripts, so only their `Simulation` classes have those fields.
- **Loops become methods proved against functions.** Every loop of the source (the rules, `simulate_wall`, `limit_speed`, `move()`, `makesound`, the handler) is a method with that loop. Each method is proved equal to a specification function over a snapshot of the flock. The properties are lemmas about those functions.
- **Vectors are values.** `MultiD` and `TwoD` values are never shared between two owners, so the in-place operators `+=`, `-=` and `/=` reassign the owner's field.
- **Numbers are exact.** Numbers are `real`. Python's `int()` on the handler's non-negative values is `Floor`.
- **2-D magnitude.** The 2-D `mag()` is `root(x*x + y*y)` for a function `root`. Every property that needs it requires `IsSquareRoot(root)`, so it holds for the true Euclidean magnitude.
- **Randomness is input.** Every `random.randint` and `random.choice` is a parameter, with the script's range as a precondition.

Behaviour of the code that the model keeps as written:

- **Update order.** The loop of `move()` (`swarm.py:117-122`) handles the boids one at a time: `simulate_wall`, `update_velocity`, then `boid.move()`, before it turns to the next boid. A later boid's rules therefore see the positions that earlier boids already moved to in the same tick, not the positions at the start of the tick. `MoveFirst`, `MoveFirstOrder` and `Move` state this sequential order.
- **When a note fires.** It fires only when `note_time < sim_time`. The comparison is strict, so no note is sent on the tick where `sim_time` equals `note_time`.
- **Unset note time.** A note time of 0 means "not drawn yet". A computed note time of exactly 0 is therefore redrawn.
- **No clamping in the 5-D scheduler.** The 5-D `makesound` does not clamp its means. A flock outside the space gives parameters outside their ranges and can schedule the next note in the past.
- **5-D handler range.** The 5-D handler clamps frequency and duration at `MAXFREQ` and `MAXDUR` after subtracting their minimums. An out-of-range message therefore puts an attractor at 900 or 777. That is beyond `DIMLIMIT` (700), which `swarm_receives_and_sends_OSC.py:19` describes as the limit of dimension values. `SwarmReceivesAndSendsOsc.HandlerBeyondSpace` proves this as written. `Valid` carries the resulting bound, 900.

## Model

| member | source | states |
|---|---|---|
| Sequential.Pass | swarm.py:117-122 | a pass that keeps the flock well formed keeps its length |
| Sequential.PassLeavesRest | swarm.py:117-122 | elements the pass has not reached yet are untouched |
| Sequential.PassOrder | swarm.py:117-122 | element i ends the pass as step i made it, on the sequence where 0..i-1 were already stepped |
| MultiD.Add | swarm.py:183-184 | `__add__`, coordinate by coordinate, keeps the dimension count; AddSubInverse is its partner |
| MultiD.Sub | swarm.py:186-187 | `__sub__`, coordinate by coordinate, keeps the dimension count; AddSubInverse shows it undoes Add |
| MultiD.Scale | swarm.py:189-190 | `__mul__` by a scalar keeps the dimension count; ScaleDivInverse is its partner |
| MultiD.Div | swarm.py:192-193 | `__div__` by a non-zero scalar keeps the dimension count; ScaleDivInverse shows it undoes Scale |
| MultiD.AddSubInverse | swarm.py:183-187 | subtracting a vector that was added gives back the original, component by component |
| MultiD.ScaleDivInverse | swarm.py:189-193 | dividing by a non-zero factor undoes scaling by it |
| FlockN.Nudge | swarm.py:143-149 | the wall changes a velocity component by exactly +WALL_FORCE, -WALL_FORCE or 0; it increases iff the position is below WALL, and decreases iff the position is above WIDTH - WALL |
| FlockN.WallPushesInward | swarm.py:143-149 | the nudge never points away from the middle of the space; each of the three cases gives its value |
| FlockN.Walled | swarm.py:143-149 | the walled velocity has one component per dimension, each the Nudge of the old one; Nudge and WallPushesInward state its cases |
| FlockN.SimulateWall | swarm.py:143-149 | the loop over the dimensions leaves the velocity equal to the per-dimension nudge of the old one; position and pending force are untouched |
| FlockN.Limited | swarm.py:151-155 | a limited component has magnitude at most SPEED_LIMIT; it is unchanged within the limit, exactly at the limit otherwise, and its sign is kept |
| FlockN.SpeedLimited | swarm.py:151-155 | limit_speed applies Limited to every component and keeps the dimension count; SpeedLimitedIdempotent is its partner |
| FlockN.SpeedLimitedIdempotent | swarm.py:151-155 | limiting an already limited velocity changes nothing |
| FlockN.LimitSpeed | swarm.py:151-155 | the loop leaves every velocity component limited and position and pending force untouched |
| FlockN.MeanBounded | swarm_receives_and_sends_OSC.py:147-150 | the mean of coordinates in [lo, hi] is in [lo, hi] |
| FlockN.Boid.Rule1 | swarm.py:233-240 | the loop over the flock returns (mean of the other boids' positions - own position) / BOIDMASS; it needs at least two boids |
| FlockN.Cohesion | swarm.py:233-240 | rule1 as a value on a snapshot of the positions, with one component per dimension; CohesionTowardCentroid and CohesionBalanced state what it means |
| FlockN.CohesionTowardCentroid | swarm.py:233-240 | rule1 points at the centroid of the whole flock: times BOIDMASS*(n-1) it equals the coordinate sum minus n times the own coordinate |
| FlockN.CohesionBalanced | swarm.py:233-240 | the cohesion forces of all boids sum to zero in every dimension |
| FlockN.Boid.Rule2 | swarm.py:242-250 | the nested loops return, in each dimension, 1.5 times the sum of (own - other) over the other boids closer than BLIMIT in that dimension |
| FlockN.Separation | swarm.py:242-250 | rule2 as a value on a snapshot of the positions, with one component per dimension; SeparationBounded and SeparationZeroWhenAlone state its bounds |
| FlockN.SeparationBounded | swarm.py:242-250 | each component of rule2 is at most 1.5 * BLIMIT * (n - 1) in magnitude |
| FlockN.SeparationZeroWhenAlone | swarm.py:242-250 | with no other boid within BLIMIT in a dimension, rule2 is 0 there |
| FlockN.Boid.Rule4 | swarm.py:254-261 | the nested loops return, in each dimension, the sum of (attractor - own) * attraction over the attractors closer than 30 in that dimension |
| FlockN.Attraction | swarm.py:254-261 | rule4 as a value on a position and the attractors, with one component per dimension; AttractionBounded and AttractionZeroWhenFar state its bounds |
| FlockN.AttractionBounded | swarm.py:254-261 | each component of rule4 is at most 30 * ATTRACTION per attractor in magnitude |
| FlockN.AttractionZeroWhenFar | swarm.py:254-261 | with no attractor within 30 in a dimension, rule4 is 0 there |
| FlockN.Pending | swarm.py:222-226 | the pending force rule1 + rule2 + rule4 of boid i, with one component per dimension; Boid.UpdateVelocity is proved to store exactly it |
| FlockN.Boid.UpdateVelocity | swarm.py:222-226 | the pending force becomes rule1 + rule2 + rule4, all computed on the flock's current positions |
| FlockN.Boid.Move | swarm.py:228-231 | the velocity becomes the limited old velocity plus the pending force; the position then advances by velocity / move_divider |
| FlockN.Boid.constructor | swarm.py:215-220 | zero velocity, each coordinate the integer drawn from [0, DIMLIMIT], and move_divider is 5 times the frame rate |
| FlockN.Attractor.constructor | swarm.py:268-272 | each coordinate is the integer drawn from [1, DIMLIMIT]; the strength is the one given |
| FlockN.StepBoid | swarm.py:117-122 | one boid's turn of move() (wall, rules, `boid.move()` at 228-231) as a value; position and velocity keep their NDIMS coordinates; StepBoidBounded and MoveBoid are its partners |
| FlockN.StepBoidBounded | swarm.py:228-231 | after a boid's step each velocity component is within SPEED_LIMIT and the boid moved at most SPEED_LIMIT / 200 per dimension |
| FlockN.MoveFirstShaped | swarm.py:117-122 | however many boids move() has handled, every position and velocity keeps its NDIMS coordinates |
| FlockN.MoveFirstStep | swarm.py:117-122 | handling one more boid replaces boid k, and only boid k, by its step computed on the flock as the earlier boids left it |
| FlockN.MoveFirstOrder | swarm.py:117-122 | at the end of the tick, boid i is its step taken in the flock where boids 0..i-1 have already moved and i.. have not; no later step changes it |
| FlockN.MoveKeepsSpeedLimit | swarm.py:117-122 | after a whole tick every velocity component of every boid is within SPEED_LIMIT |
| FlockN.MoveBoid | swarm.py:117-122 | one iteration of move(): boid i alone becomes its step (wall, rules, move) and every other boid is unchanged |
| FlockN.MoveNext | swarm.py:119-122 | one turn of the loop takes the flock from the first i boids handled to the first i + 1, and leaves the attractors alone |
| FlockN.Move | swarm.py:117-122 | the loop over the boids leaves the flock in the state that stepping boids 0, 1, ... in turn defines |
| FlockN.Due | swarm.py:127-128 | a note time of 0 is replaced by the draw from [10, 100]; any other note time is kept |
| Swarm.Clamp01 | swarm.py:138 | max(min(x, 1), 0) lies in [0, 1], equals x inside it, and is 0 below and 1 above |
| Swarm.Centroids | swarm.py:132-138 | there are NDIMS centroid values, each in [0, 1] |
| Swarm.ClampScaled | swarm.py:137-138 | dividing by DIMLIMIT, clamping to [0, 1] and scaling back is clamping to [0, DIMLIMIT] |
| Swarm.CentroidIsMean | swarm.py:132-138 | while the boids are inside [0, DIMLIMIT] the clamp does nothing: the value sent is the mean coordinate / DIMLIMIT |
| Swarm.Ioi | swarm.py:140 | the interval lies in [MINIOI, MAXIOI] = [1, 200] |
| Swarm.Schedule | swarm.py:124-141 | a note is sent iff the (possibly just drawn) note time is strictly before sim_time; otherwise the note time is kept; a note is NDIMS values in [0, 1], and the next note time is 1 to 200 ticks after sim_time |
| Swarm.ScheduleDrawsOnce | swarm.py:127-141 | a note time that is 0 or at least MINIOI becomes at least MINIOI, so the first note time is drawn only once |
| Swarm.NoNoteOnNextTick | swarm.py:131-141 | after a note is sent, no note is sent on the next tick |
| Swarm.Received | swarm.py:296 | the written coordinate is an integer in [0, DIMLIMIT] that equals the integer part of s * DIMLIMIT whenever s is in [0, 1] |
| Swarm.ReceivedCentroid | swarm.py:285-298 | sending a centroid and receiving it back puts the attractor at the boids' mean coordinate, clamped to [0, DIMLIMIT] and truncated |
| Swarm.Handled | swarm.py:295-296 | the handler's writes as a value: the attractor keeps NDIMS coordinates; HandledWithin and HandledFullIgnoresOld state its properties |
| Swarm.HandledWithin | swarm.py:295-296 | an attractor inside [0, DIMLIMIT] stays inside after any message |
| Swarm.HandledFullIgnoresOld | swarm.py:295-296 | a message of NDIMS values or more fixes the attractor's position independently of where it was |
| Swarm.Simulation.constructor | swarm.py:157-165 | BOIDS boids and ATTRACTORS attractors at the drawn positions, zero velocities, both clocks at 0, and the simulation invariant established |
| Swarm.Simulation.MakeSound | swarm.py:124-141 | the nested loops over dimensions and boids send exactly the note Schedule defines and set note_time to its next note time |
| Swarm.Simulation.AttractorHandler | swarm.py:285-298 | only the chosen attractor changes; its first min(len(stuff), NDIMS) coordinates become int(clamp(stuff[d], 0, 1) * DIMLIMIT); the call succeeds iff the message has at least NDIMS values |
| Swarm.Simulation.MoveFlock | swarm.py:90 | move() advances the flock by the whole pass, keeps the invariant and the attractors, and leaves every velocity component within SPEED_LIMIT |
| Swarm.Simulation.Tick | swarm.py:92-93 | sim_time goes up by exactly one and the invariant is kept |
| Swarm.Simulation.Update | swarm.py:86-93 | one tick is move(), then makesound() on the moved flock with the old clock, then sim_time + 1; every velocity component ends within SPEED_LIMIT and the invariant is kept |
| SwarmReceivesAndSendsOsc.NoteOf | swarm_receives_and_sends_OSC.py:141-150 | freq, amp, dur and ioi as the means of dimensions 0 to 3, scaled and offset, unclamped; NoteInRange states their ranges |
| SwarmReceivesAndSendsOsc.NoteInRange | swarm_receives_and_sends_OSC.py:141-150 | with the boids inside [0, DIMLIMIT], freq is in [20, 90], amp in [0, 0.9], dur in [10, 100] and ioi in [10, 100] |
| SwarmReceivesAndSendsOsc.Schedule | swarm_receives_and_sends_OSC.py:129-157 | a note is sent iff the note time is strictly before sim_time; otherwise the note time is kept; a sent note is the three values [freq, amp, dur] |
| SwarmReceivesAndSendsOsc.ScheduleInRange | swarm_receives_and_sends_OSC.py:129-157 | with the boids inside the space, a sent note has its three parameters in range and the next note is 10 to 100 ticks away |
| SwarmReceivesAndSendsOsc.FreqDim | swarm_receives_and_sends_OSC.py:354 | the written frequency coordinate is an integer in [0, 900] |
| SwarmReceivesAndSendsOsc.AmpDim | swarm_receives_and_sends_OSC.py:357 | the written amplitude coordinate is an integer in [0, DIMLIMIT] |
| SwarmReceivesAndSendsOsc.DurDim | swarm_receives_and_sends_OSC.py:360 | the written duration coordinate is an integer in [0, 777] |
| SwarmReceivesAndSendsOsc.HandlerInvertsNote | swarm_receives_and_sends_OSC.py:354-360 | receiving the freq, amp or dur that a mean coordinate m in [0, DIMLIMIT] produces gives back the integer part of m |
| SwarmReceivesAndSendsOsc.HandlerBeyondSpace | swarm_receives_and_sends_OSC.py:354-360 | a frequency of 110 or more lands at 900 and a duration of 110 or more at 777, beyond DIMLIMIT |
| SwarmReceivesAndSendsOsc.HandledDim | swarm_receives_and_sends_OSC.py:354-360 | one coordinate after the handler: 0 to 2 take FreqDim, AmpDim, DurDim of the message value when it exists, any other is kept; HandledWithin and HandlerInvertsNote state its properties |
| SwarmReceivesAndSendsOsc.Handled | swarm_receives_and_sends_OSC.py:350-361 | coordinates 3 and 4 are never written |
| SwarmReceivesAndSendsOsc.HandledWithin | swarm_receives_and_sends_OSC.py:354-360 | an attractor inside [0, 900] stays inside after any message |
| SwarmReceivesAndSendsOsc.Simulation.constructor | swarm_receives_and_sends_OSC.py:174-182 | the drawn boids and attractors, zero velocities, both clocks at 0, and the simulation invariant established |
| SwarmReceivesAndSendsOsc.Simulation.MakeSound | swarm_receives_and_sends_OSC.py:129-157 | the single loop over the boids sends exactly the note Schedule defines and sets note_time = sim_time + ioi |
| SwarmReceivesAndSendsOsc.Simulation.AttractorHandler | swarm_receives_and_sends_OSC.py:344-361 | only the chosen attractor changes; its coordinates 0..2 take the rescaled values as far as the message reaches; success iff the message has at least three values |
| SwarmReceivesAndSendsOsc.Simulation.MoveFlock | swarm_receives_and_sends_OSC.py:94 | move() advances the flock by the whole pass, keeps the invariant and the attractors, and leaves every velocity component within SPEED_LIMIT |
| SwarmReceivesAndSendsOsc.Simulation.Tick | swarm_receives_and_sends_OSC.py:96-97 | sim_time goes up by exactly one and the invariant is kept |
| SwarmReceivesAndSendsOsc.Simulation.Update | swarm_receives_and_sends_OSC.py:90-97 | move(), then makesound() with the old clock, then sim_time + 1; every velocity component ends within SPEED_LIMIT |
| TwoD.Add | swarm_receivesOSC.py:181-182 | `__add__` and `+=` (193-196) as a value; AddSubInverse is its partner |
| TwoD.Sub | swarm_receivesOSC.py:184-185 | `__sub__` and `-=` (198-201) as a value; AddSubInverse shows it undoes Add |
| TwoD.Scale | swarm_receivesOSC.py:187-188 | `__mul__` by a scalar; ScaleDivInverse is its partner |
| TwoD.Div | swarm_receivesOSC.py:190-191 | `__div__` and `/=` (203-206) by a non-zero scalar; ScaleDivInverse shows it undoes Scale |
| TwoD.Mag | swarm_receivesOSC.py:208-209 | `mag()` is `root(x*x + y*y)`; MagSquared, MagLess and CoordinatesWithinMag state what it means for an exact root |
| TwoD.AddSubInverse | swarm_receivesOSC.py:181-185 | subtracting a vector that was added gives back the original |
| TwoD.ScaleDivInverse | swarm_receivesOSC.py:187-191 | dividing by a non-zero factor undoes scaling by it |
| TwoD.MagSquared | swarm_receivesOSC.py:208-209 | mag() is non-negative and its square is x*x + y*y |
| TwoD.MagLess | swarm_receivesOSC.py:208-209 | comparing mag() with a bound is comparing x*x + y*y with the bound squared, both ways |
| TwoD.CoordinatesWithinMag | swarm_receivesOSC.py:208-209 | a vector shorter than a bound has both coordinates within the bound |
| Flock2D.Nudge | swarm_receivesOSC.py:142-151 | one axis changes by exactly +WALL_FORCE, -WALL_FORCE or 0; it increases iff below WALL and decreases iff above extent - WALL |
| Flock2D.WallPushesInward | swarm_receivesOSC.py:142-151 | x is judged against WIDTH and y against HEIGHT, independently; neither nudge points away from the middle of the screen |
| Flock2D.Walled | swarm_receivesOSC.py:142-151 | simulate_wall as a value: x nudged against WIDTH and y against HEIGHT; Nudge and WallPushesInward state its cases |
| Flock2D.SimulateWall | swarm_receivesOSC.py:142-151 | the velocity becomes the walled one; position and pending force are untouched |
| Flock2D.Limited | swarm_receivesOSC.py:153-156 | limit_speed as a value: a velocity faster than the limit divided by mag() / limit, any other kept; LimitedSpec and LimitedIdempotent are its partners |
| Flock2D.LimitedSpec | swarm_receivesOSC.py:153-156 | after limit_speed the speed is at most the limit: a faster velocity gets exactly the limit in the same direction, and any other is unchanged |
| Flock2D.LimitedIdempotent | swarm_receivesOSC.py:153-156 | limiting an already limited velocity changes nothing |
| Flock2D.LimitSpeed | swarm_receivesOSC.py:153-156 | the boid's velocity becomes the limited one; position and pending force are untouched |
| Flock2D.Boid.Rule1 | swarm_receivesOSC.py:262-269 | the loop returns (mean of the other boids' positions - own position) / 7.5 |
| Flock2D.Cohesion | swarm_receivesOSC.py:262-269 | rule1 as a value on a snapshot of the positions; CohesionTowardCentroid states what it means |
| Flock2D.CohesionTowardCentroid | swarm_receivesOSC.py:262-269 | rule1 points at the centroid of the whole flock: times 7.5*(n-1) it equals the position sum minus n times the own position |
| Flock2D.Boid.Rule2 | swarm_receivesOSC.py:271-278 | the loop returns 1.5 times the sum of (own - other) over the other boids at Euclidean distance below 30 |
| Flock2D.Separation | swarm_receivesOSC.py:271-278 | rule2 as a value on a snapshot of the positions; SeparationZeroWhenAlone and SeparationBounded state its bounds |
| Flock2D.SeparationZeroWhenAlone | swarm_receivesOSC.py:271-278 | with no other boid within distance 30, rule2 is the zero vector |
| Flock2D.SeparationBounded | swarm_receivesOSC.py:271-278 | each coordinate of rule2 is at most 1.5 * 30 * (n - 1) in magnitude: 1.5 * 30 per other boid |
| Flock2D.Boid.Rule4 | swarm_receivesOSC.py:282-288 | the loop returns the sum of (attractor - own) * attraction over the attractors at Euclidean distance below 30 |
| Flock2D.Attraction | swarm_receivesOSC.py:282-288 | rule4 as a value on a position and the attractors; AttractionZeroWhenFar and AttractionBounded state its bounds |
| Flock2D.AttractionZeroWhenFar | swarm_receivesOSC.py:282-288 | with no attractor within distance 30, rule4 is the zero vector |
| Flock2D.AttractionBounded | swarm_receivesOSC.py:282-288 | each coordinate of rule4 is at most 30 * ATTRACTION per attractor in magnitude |
| Flock2D.Pending | swarm_receivesOSC.py:251-255 | the pending force rule1 + rule2 + rule4 of boid i; Boid.UpdateVelocity is proved to store exactly it |
| Flock2D.Boid.UpdateVelocity | swarm_receivesOSC.py:251-255 | the pending force becomes rule1 + rule2 + rule4 on the flock's current positions |
| Flock2D.Boid.Move | swarm_receivesOSC.py:257-260 | the velocity becomes the limited old velocity plus the pending force; the position then advances by velocity / move_divider |
| Flock2D.Boid.constructor | swarm_receivesOSC.py:224-227 | zero velocity, the random_start position, and move_divider is 5 times the frame rate |
| Flock2D.RandomStartOffscreen | swarm_receivesOSC.py:229-248 | the start is integral, exactly offset beyond one edge on exactly one axis (the one the first draw picks), inside [1, extent] on the other, and never on screen |
| Flock2D.Attractor.constructor | swarm_receivesOSC.py:296-303 | the attractor is at the drawn integers, on screen in [1, WIDTH] by [1, HEIGHT] |
| Flock2D.StepBoid | swarm_receivesOSC.py:135-140 | one boid's turn of move() (wall, rules, `boid.move()` at 257-260) as a value; MoveBoid and MoveKeepsSpeedLimit are its partners |
| Flock2D.MoveFirstStep | swarm_receivesOSC.py:135-140 | handling one more boid replaces boid k, and only boid k, by its step computed on the flock as the earlier boids left it |
| Flock2D.MoveFirstOrder | swarm_receivesOSC.py:135-140 | at the end of the tick, boid i is its step taken in the flock where boids 0..i-1 have already moved and i.. have not; no later step changes it |
| Flock2D.MoveKeepsSpeedLimit | swarm_receivesOSC.py:135-140 | after a whole tick every boid's speed is at most the limit |
| Flock2D.PrepareBoid | swarm_receivesOSC.py:137-138 | simulate_wall then update_velocity: the position is kept, the velocity is walled and the pending force is computed on the positions before the wall |
| Flock2D.MoveBoid | swarm_receivesOSC.py:135-140 | one iteration of move(): boid i alone becomes its step and the rest of the flock is unchanged |
| Flock2D.Move | swarm_receivesOSC.py:135-140 | the loop over the boids leaves the flock in the state that stepping boids 0, 1, ... in turn defines |
| SwarmReceivesOsc.HandledIgnoresOld | swarm_receivesOSC.py:55-58 | after a two-value message the attractor's position does not depend on where it was |
| SwarmReceivesOsc.HandledIdempotent | swarm_receivesOSC.py:50-59 | handling the same message a second time changes nothing |
| SwarmReceivesOsc.HandledOffScreen | swarm_receivesOSC.py:55-58 | the values are not clamped: a message with x < 0 or y > HEIGHT puts the attractor off screen |
| SwarmReceivesOsc.Simulation.constructor | swarm_receivesOSC.py:158-166 | 19 boids at their random_start positions with zero velocity, 4 attractors at the drawn points, and the invariant established |
| SwarmReceivesOsc.Simulation.AttractorHandler | swarm_receivesOSC.py:50-59 | only the chosen attractor changes, to exactly the two received values; success iff the message has exactly two values |
| SwarmReceivesOsc.Simulation.Update | swarm_receivesOSC.py:111-116 | one tick is move() with speed limit 1000; every boid ends it no faster than 1000 |
| SwarmRandomAttractors.Simulation.constructor | swarm_randomAttractors.py:103-111 | 19 boids at their random_start positions with zero velocity, 3 attractors at the drawn points, and the invariant established |
| SwarmRandomAttractors.Simulation.Update | swarm_randomAttractors.py:57-61 | one tick is move() with speed limit 800; every boid ends it no faster than 800 |

## Left out

- The Tkinter GUI is not modelled: `build_graph`, `draw`, `main`, the main loop and the `graph.after` rescheduling. The constructors stand for `initialise`, and `Update` is one call of `update()`.
- The OSC transport is not modelled: the servers and the client, `addDefaultHandlers`, `startOSC` and `quit_handler`. `sendMsg` is the note that `MakeSound` and `Update` return. The debug `note_handler` of `swarm_receives_and_sends_OSC.py` is also not modelled.
- Threading is not modelled. In the source, the handler runs on the server thread while `update()` runs. Here it is a separate sequential method, run between ticks.
- `print` logging is not modelled, including the handlers' `"data %f" % item` loop, which would raise on a non-numeric item. Message values are reals.
- The `__repr__` methods are not modelled. The `MultiD` one returns after its first line.
- Commented-out code is not modelled: `rule3` and `random_start` of the N-dimensional boid. Neither is `Attractor.rand_update`, which is only called from commented-out code.
- Drawing-only constants are not modelled: the radii, `UPDATE_TIME`, `WINDOWED`, `DIMENSIONS` and the addresses.
- Randomness is not modelled. `random.randint` and `random.choice` results are parameters, with the source's ranges as preconditions.
- IEEE floating point is not modelled. Arithmetic is exact, and `** 0.5` is the exact square root `root`.
- SwarmReceivesAndSendsOsc.HandlerInvertsNote: holds for exact arithmetic only. With IEEE rounding, `int()` after the division by a scaler can land one below the integer part.
- SwarmReceivesAndSendsOsc.HandlerBeyondSpace: holds for exact arithmetic only. With IEEE rounding, the values 900 and 777 can come out one lower.
