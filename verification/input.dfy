/** The play state's per-frame input handling: the level-skip key, walking
    (left wins over right), and hold-to-jump. Whether the jump key has been
    held for the boost threshold is decided by the input collaborator and
    arrives here as one boolean. */
module Input {
  import opened Common
  import opened Heroes
  import opened Sessions

  /** Key states sampled for one frame. */
  datatype Keys = Keys(
    skip: bool,     // the P key
    left: bool,
    right: bool,
    upHeld: bool    // the up key's `downDuration(200)` answer
  )

  datatype InputResult = InputResult(hero: Hero, jumpSound: bool, request: Option<Request>)

  /** The walking direction the arrow keys ask for. */
  function Direction(k: Keys): (d: int)
    ensures k.left ==> d == -1
    ensures !k.left && k.right ==> d == 1
    ensures !k.left && !k.right ==> d == 0
  {
    if k.left then -1 else if k.right then 1 else 0
  }

  /** `_handleInput()`: the skip key asks for the next level; the hero walks
      as the arrow keys say; holding up jumps (the sound plays only on a
      take-off), anything else ends the boost. */
  function HandleInput(h: Hero, level: int, k: Keys): (r: InputResult)
    ensures r.request == (if k.skip then Some(Restart(level + 1)) else None)
    ensures r.jumpSound <==> k.upHeld && CanJump(h)
    ensures !h.frozen ==> r.hero.vx == Direction(k) * RunSpeed
    ensures h.frozen ==> r.hero.vx == h.vx && r.hero.facing == h.facing
    ensures !h.frozen && Direction(k) != 0 ==> r.hero.facing == Direction(k)
    ensures h.frozen || Direction(k) == 0 ==> r.hero.facing == h.facing
    ensures k.upHeld ==> r.hero.boosting == (h.boosting || r.jumpSound)
    ensures k.upHeld && r.hero.boosting ==> r.hero.vy == -JumpSpeed
    ensures k.upHeld && !r.hero.boosting ==> r.hero.vy == h.vy
    ensures !k.upHeld ==> !r.hero.boosting && r.hero.vy == h.vy
    ensures r.hero.alive == h.alive && r.hero.frozen == h.frozen && r.hero.bodyEnabled == h.bodyEnabled
    ensures r.hero.touchingDown == h.touchingDown && r.hero.anim == h.anim
    ensures Heroes.Valid(h) ==> Heroes.Valid(r.hero)
  {
    var request := if k.skip then Some(Restart(level + 1)) else None;
    var moved := Move(h, Direction(k));
    if k.upHeld then
      var jumped := Jump(moved);
      InputResult(jumped.0, jumped.1, request)
    else
      InputResult(StopJumpBoost(moved), false, request)
  }

  /** Pressing both arrows walks left. */
  lemma LeftBeatsRight(h: Hero, level: int, k: Keys)
    requires k.left && k.right && !h.frozen
    ensures HandleInput(h, level, k).hero.vx == -RunSpeed
    ensures HandleInput(h, level, k).hero.facing == -1
  {
  }

  const HoldUp := Keys(false, false, false, true)

  /** Frames of holding only the jump key while the physics collaborator
      reports the hero airborne; the result counts the jump sounds played. */
  function HoldInAir(h: Hero, frames: nat): (r: (Hero, nat))
    decreases frames
  {
    if frames == 0 then (h, 0)
    else
      var step := HandleInput(h.(touchingDown := false), 0, HoldUp);
      var rest := HoldInAir(step.hero, frames - 1);
      (rest.0, rest.1 + (if step.jumpSound then 1 else 0))
  }

  /** Holding the jump key in mid-air never replays the jump sound, and the
      boost keeps the hero rising at full jump speed for as long as it lasts. */
  lemma {:induction false} HeldBoostIsSilent(h: Hero, frames: nat)
    requires h.boosting
    ensures HoldInAir(h, frames).1 == 0
    ensures HoldInAir(h, frames).0.boosting
    ensures frames > 0 ==> HoldInAir(h, frames).0.vy == -JumpSpeed
    decreases frames
  {
    if frames > 0 {
      var step := HandleInput(h.(touchingDown := false), 0, HoldUp);
      assert !step.jumpSound && step.hero.boosting;
      HeldBoostIsSilent(step.hero, frames - 1);
    }
  }

  /** A whole held jump from the ground: one take-off frame, then any number
      of airborne frames, plays the jump sound exactly once. */
  lemma HeldJumpSoundsOnce(h: Hero, frames: nat)
    requires CanJump(h)
    ensures var first := HandleInput(h, 0, HoldUp);
            first.jumpSound && HoldInAir(first.hero, frames).1 == 0
  {
    var first := HandleInput(h, 0, HoldUp);
    HeldBoostIsSilent(first.hero, frames);
  }
}
