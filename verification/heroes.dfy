/** The hero sprite's game rules: movement commands, the jump-and-boost rule,
    and the animation chosen every frame. The physics body is reduced to its
    velocity, its touching-down flag and its enable switch; velocities are
    whole numbers because the rules only compare their signs or overwrite
    them. */
module Heroes {

  const RunSpeed := 200
  const JumpSpeed := 400
  const BounceSpeed := 200

  /** The five animations the hero sprite registers: 'stop', 'run', 'jump',
      'fall' and 'die'. */
  datatype Anim = Stopped | Running | Jumping | Falling | Dying

  datatype Hero = Hero(
    vx: int,
    vy: int,
    facing: int,          // the sprite's horizontal scale: 1 faces right, -1 faces left
    touchingDown: bool,   // reported by the physics collaborator
    alive: bool,
    frozen: bool,
    boosting: bool,
    bodyEnabled: bool,
    anim: Anim            // the animation currently playing
  )

  /** Shape every hero keeps: it faces left or right, and its body takes part
      in physics exactly while it is alive and not frozen. */
  predicate Valid(h: Hero) {
    (h.facing == 1 || h.facing == -1) && h.bodyEnabled == (h.alive && !h.frozen)
  }

  /** A freshly spawned hero: at rest, facing right, playing 'stop'. The
      `isFrozen`/`isBoosting` properties start out undefined, which reads as false. */
  function NewHero(): (h: Hero)
    ensures Valid(h) && h.alive && !h.frozen && !h.boosting && h.bodyEnabled
    ensures h.facing == 1 && !h.touchingDown
    ensures h.vx == 0 && h.vy == 0 && h.anim == Stopped
  {
    Hero(0, 0, 1, false, true, false, false, true, Stopped)
  }

  /** `move(direction)`: ignored while frozen; otherwise sets the horizontal
      speed and turns the sprite toward the motion, keeping the old facing
      when standing still. */
  function Move(h: Hero, direction: int): (r: Hero)
    ensures h.frozen ==> r == h
    ensures !h.frozen ==> r.vx == direction * RunSpeed
    ensures !h.frozen && direction != 0 ==> r.facing * r.vx > 0
    ensures h.frozen || direction == 0 ==> r.facing == h.facing
    ensures r == h.(vx := r.vx, facing := r.facing)
    ensures Valid(h) ==> Valid(r)
  {
    if h.frozen then h
    else
      var vx := direction * RunSpeed;
      h.(vx := vx, facing := if vx < 0 then -1 else if vx > 0 then 1 else h.facing)
  }

  /** The take-off condition of `jump()`. */
  predicate CanJump(h: Hero) {
    h.touchingDown && h.alive && !h.frozen
  }

  /** `jump()`: launches (or keeps launching, while boosting) at `JumpSpeed`
      upward and reports whether this call was a take-off from the ground. */
  function Jump(h: Hero): (r: (Hero, bool))
    ensures r.1 <==> h.touchingDown && h.alive && !h.frozen
    ensures r.1 || h.boosting ==> r.0.vy == -JumpSpeed && r.0.boosting
    ensures !r.1 && !h.boosting ==> r.0 == h
    ensures r.0 == h.(vy := r.0.vy, boosting := r.0.boosting)
    ensures Valid(h) ==> Valid(r.0)
  {
    var canJump := CanJump(h);
    if canJump || h.boosting then (h.(vy := -JumpSpeed, boosting := true), canJump)
    else (h, canJump)
  }

  /** `stopJumpBoost()`: the jump key no longer extends the jump. */
  function StopJumpBoost(h: Hero): (r: Hero)
    ensures !r.boosting
    ensures r == h.(boosting := false)
    ensures Valid(h) ==> Valid(r)
  {
    h.(boosting := false)
  }

  /** `bounce()`: the upward kick after stomping an enemy. */
  function Bounce(h: Hero): (r: Hero)
    ensures r.vy == -BounceSpeed
    ensures r == h.(vy := r.vy)
    ensures Valid(h) ==> Valid(r)
  {
    h.(vy := -BounceSpeed)
  }

  /** `freeze()`: the hero stops taking part in physics while it walks into the door. */
  function Freeze(h: Hero): (r: Hero)
    ensures r.frozen && !r.bodyEnabled
    ensures r == h.(frozen := true, bodyEnabled := false)
    ensures Valid(h) ==> Valid(r)
  {
    h.(frozen := true, bodyEnabled := false)
  }

  /** `die()`: the hero is dead, its body leaves physics and the death
      animation starts playing. */
  function Die(h: Hero): (r: Hero)
    ensures !r.alive && !r.bodyEnabled && r.anim == Dying
    ensures r == h.(alive := false, bodyEnabled := false, anim := Dying)
    ensures Valid(h) ==> Valid(r)
  {
    h.(alive := false, bodyEnabled := false, anim := Dying)
  }

  /** The animation table written row by row, without relying on an order:
      each row spells out the conditions that exclude the rows above it. */
  predicate Shows(h: Hero, a: Anim) {
    match a
    case Dying => !h.alive
    case Stopped => h.alive && (h.frozen || (h.vy >= 0 && h.touchingDown && h.vx == 0))
    case Jumping => h.alive && !h.frozen && h.vy < 0
    case Falling => h.alive && !h.frozen && h.vy >= 0 && !h.touchingDown
    case Running => h.alive && !h.frozen && h.vy >= 0 && h.touchingDown && h.vx != 0
  }

  /** `_getAnimationName()`: the first matching rule wins — dying, frozen,
      rising, airborne, moving on the ground, and standing as the default. */
  function AnimationName(h: Hero): (a: Anim)
    ensures Shows(h, a)
  {
    if !h.alive then Dying
    else if h.frozen then Stopped
    else if h.vy < 0 then Jumping
    else if h.vy >= 0 && !h.touchingDown then Falling
    else if h.vx != 0 && h.touchingDown then Running
    else Stopped
  }

  /** No hero satisfies two rows of the table, so the table is a function. */
  lemma ShowsIsFunctional(h: Hero, a: Anim, b: Anim)
    requires Shows(h, a) && Shows(h, b)
    ensures a == b
  {
  }

  /** The priority chain and the row-by-row table agree on every hero, in both directions. */
  lemma AnimationNameMatchesTable(h: Hero, a: Anim)
    ensures AnimationName(h) == a <==> Shows(h, a)
  {
    if Shows(h, a) {
      ShowsIsFunctional(h, a, AnimationName(h));
    }
  }

  /** `update()`: switches to the animation the table asks for and reports
      whether it had to restart one (it never restarts the one already playing). */
  function Update(h: Hero): (r: (Hero, bool))
    ensures Shows(r.0, r.0.anim)
    ensures r.1 <==> r.0.anim != h.anim
    ensures r.0 == h.(anim := r.0.anim)
  {
    var name := AnimationName(h);
    if h.anim != name then (h.(anim := name), true) else (h, false)
  }

  /** Evaluating the animation twice in a row changes nothing the second time. */
  lemma UpdateIdempotent(h: Hero)
    ensures Update(Update(h).0) == (Update(h).0, false)
  {
    var u := Update(h).0;
    AnimationNameMatchesTable(u, u.anim);
  }

  /** A dying hero's animation is never restarted by `update()`, so the death
      animation plays to its end and its completion signal fires. */
  lemma DeathAnimationRunsToEnd(h: Hero)
    ensures Update(Die(h)) == (Die(h), false)
  {
  }

  /** A held jump in mid-air keeps the upward speed but is not a take-off,
      so it does not replay the jump sound. */
  lemma BoostedJumpIsNoTakeOff(h: Hero)
    requires h.boosting && !h.touchingDown
    ensures !Jump(h).1 && Jump(h).0.vy == -JumpSpeed
  {
  }

  /** Once the jump key is released in mid-air, pressing it again does nothing until landing. */
  lemma ReleasedJumpCannotResume(h: Hero)
    requires !h.touchingDown
    ensures Jump(StopJumpBoost(h)) == (StopJumpBoost(h), false)
  {
  }

  /** After a stomp the living, unfrozen hero shows the jump animation. */
  lemma BounceShowsJump(h: Hero)
    requires h.alive && !h.frozen
    ensures AnimationName(Bounce(h)) == Jumping
  {
  }

  /** A frozen living hero shows 'stop' whatever its velocity. */
  lemma FrozenShowsStop(h: Hero)
    requires h.alive
    ensures AnimationName(Freeze(h)) == Stopped
  {
  }

  /** `move(d)` twice with the same direction is the same as once. */
  lemma MoveIdempotent(h: Hero, direction: int)
    ensures Move(Move(h, direction), direction) == Move(h, direction)
  {
  }
}
