/** The collision resolver: the game-logic callbacks the play state attaches
    to the physics collaborator's collide and overlap queries, and the frame
    that runs them in the play state's order. The physics collaborator
    decides which bodies touch; it reports nothing for a disabled body or a
    sprite that has been removed, which `Apply` encodes by ignoring such
    events. Deferred continuations (the end of the death animation, the end
    of the walk into the door) are kept as a `Pending` value and run by
    explicit completion functions that return the restart they ask for. */
module Collisions {
  import opened Common
  import Heroes
  import Spiders
  import opened Sessions

  /** The one continuation a level can be waiting for. `AfterWaterDeath`
      remembers the level index captured when the hero fell in; `Settled`
      means the continuation has run and the level is being left. */
  datatype Pending = Idle | AfterWaterDeath(level: int) | AfterEnemyDeath | EnteringDoor | Settled

  datatype World = World(
    hero: Heroes.Hero,
    spiders: seq<Spiders.Spider>,
    coins: seq<bool>,      // one flag per coin of the level: not yet picked up
    keyPresent: bool,
    doorOpen: bool,
    lockedHint: bool,      // the "door's locked" message has been put up
    session: Session,
    pending: Pending
  )

  predicate Present(b: bool) {
    b
  }

  predicate Active(s: Spiders.Spider) {
    s.bodyEnabled
  }

  /** Coins held, plus coins still lying in the level, plus the reward for
      every spider that can still be stomped. */
  function Potential(w: World): int {
    w.session.coins + Count(w.coins, Present) + StompReward * Count(w.spiders, Active)
  }

  /** A level in play waits for no continuation exactly while the hero's body
      takes part in physics. */
  predicate Consistent(w: World) {
    Heroes.Valid(w.hero) && (w.pending.Idle? <==> w.hero.bodyEnabled)
  }

  /** The door guard of the entering callback. */
  predicate CanEnterDoor(hasKey: bool, touchingDown: bool) {
    hasKey && touchingDown
  }

  /** The door guard of the locked-door callback. */
  predicate LockedDoorGuard(hasKey: bool, touchingDown: bool) {
    !hasKey && touchingDown
  }

  /** At most one of the two door guards passes, and one passes exactly when
      the hero stands on the ground. */
  lemma DoorGuardsExclusive(hasKey: bool, touchingDown: bool)
    ensures !(CanEnterDoor(hasKey, touchingDown) && LockedDoorGuard(hasKey, touchingDown))
    ensures CanEnterDoor(hasKey, touchingDown) || LockedDoorGuard(hasKey, touchingDown) <==> touchingDown
  {
  }

  /** The hero falls into the water: it dies at once and the life is taken
      now; the restart waits for the death animation. */
  function OnWater(w: World): (r: World)
    ensures !r.hero.alive && !r.hero.bodyEnabled && r.hero.anim == Heroes.Dying
    ensures r.session == w.session.(lives := w.session.lives - 1)
    ensures r.pending == AfterWaterDeath(w.session.level)
    ensures Potential(r) == Potential(w)
    ensures r == w.(hero := r.hero, session := r.session, pending := r.pending)
    ensures r.hero == Heroes.Die(w.hero)
  {
    w.(hero := Heroes.Die(w.hero),
       session := w.session.(lives := w.session.lives - 1),
       pending := AfterWaterDeath(w.session.level))
  }

  /** `_onHeroVsCoin`: the coin disappears and the purse grows by one. */
  function OnCoin(w: World, i: nat): (r: World)
    requires i < |w.coins| && w.coins[i]
    ensures r == w.(coins := w.coins[i := false], session := r.session)
    ensures r.session == w.session.(coins := w.session.coins + 1)
    ensures Count(r.coins, Present) == Count(w.coins, Present) - 1
  {
    CountUpdate(w.coins, i, false, Present);
    w.(coins := w.coins[i := false], session := w.session.(coins := w.session.coins + 1))
  }

  /** `_onHeroVsKey`: the key disappears and the hero holds it; no counter moves. */
  function OnKey(w: World): (r: World)
    ensures r.session == w.session.(hasKey := true)
    ensures r == w.(keyPresent := false, session := r.session)
  {
    w.(keyPresent := false, session := w.session.(hasKey := true))
  }

  /** `_onHeroVsDoor`: the door opens and the frozen hero walks into it;
      the level change waits for that walk to finish. */
  function OnDoor(w: World): (r: World)
    ensures r.doorOpen && r.hero.frozen && !r.hero.bodyEnabled
    ensures r.pending == EnteringDoor && r.session == w.session
    ensures Potential(r) == Potential(w)
    ensures r == w.(hero := Heroes.Freeze(w.hero), doorOpen := true, pending := EnteringDoor)
  {
    w.(hero := Heroes.Freeze(w.hero), doorOpen := true, pending := EnteringDoor)
  }

  /** `_onHeroVsDoorNoKey`: on the first level only, a "door's locked" message
      is put up (and taken down by a timer of zero seconds). */
  function OnDoorNoKey(w: World): (r: World)
    ensures r.lockedHint <==> w.lockedHint || w.session.level == 0
    ensures r == w.(lockedHint := r.lockedHint)
  {
    if w.session.level == 0 then w.(lockedHint := true) else w
  }

  /** `_onHeroVsEnemy`: a hero moving down stomps the spider, bounces and
      earns the reward; any other touch kills the hero, whose lost life is
      counted only when the death animation ends, and the spider's contact
      flags are put back to those of the previous frame. */
  function OnEnemy(w: World, j: nat): (r: World)
    requires j < |w.spiders|
    ensures w.hero.vy > 0 ==>
              && r.session == w.session.(coins := w.session.coins + StompReward)
              && r.hero == Heroes.Bounce(w.hero)
              && r.spiders == w.spiders[j := Spiders.Die(w.spiders[j])]
              && r.pending == w.pending
    ensures w.hero.vy <= 0 ==>
              && r.session == w.session
              && r.hero == Heroes.Die(w.hero)
              && r.spiders == w.spiders[j := Spiders.RestoreTouching(w.spiders[j])]
              && r.pending == AfterEnemyDeath
    ensures r == w.(hero := r.hero, spiders := r.spiders, session := r.session, pending := r.pending)
  {
    if w.hero.vy > 0 then
      w.(spiders := w.spiders[j := Spiders.Die(w.spiders[j])],
         hero := Heroes.Bounce(w.hero),
         session := w.session.(coins := w.session.coins + StompReward))
    else
      w.(hero := Heroes.Die(w.hero),
         pending := AfterEnemyDeath,
         spiders := w.spiders[j := Spiders.RestoreTouching(w.spiders[j])])
  }

  /** One contact reported by the physics collaborator. */
  datatype Event =
    | WaterContact
    | CoinOverlap(coin: nat)
    | KeyOverlap
    | DoorOverlap
    | EnemyOverlap(enemy: nat)

  /** Runs the callback of one contact. A hero whose body is disabled, a coin
      or key already taken and a spider already stomped take part in no
      contact. A door overlap runs both door queries in turn, each behind its guard. */
  function Apply(w: World, e: Event): World {
    if !w.hero.bodyEnabled then w
    else
      match e
      case WaterContact => OnWater(w)
      case CoinOverlap(i) => if i < |w.coins| && w.coins[i] then OnCoin(w, i) else w
      case KeyOverlap => if w.keyPresent then OnKey(w) else w
      case DoorOverlap =>
        var w1 := if CanEnterDoor(w.session.hasKey, w.hero.touchingDown) then OnDoor(w) else w;
        if w1.hero.bodyEnabled && LockedDoorGuard(w1.session.hasKey, w1.hero.touchingDown)
        then OnDoorNoKey(w1) else w1
      case EnemyOverlap(j) =>
        if j < |w.spiders| && w.spiders[j].bodyEnabled then OnEnemy(w, j) else w
  }

  /** The contacts of one frame, handled one after the other. */
  function Frame(w: World, es: seq<Event>): World
    decreases |es|
  {
    if |es| == 0 then w else Frame(Apply(w, es[0]), es[1..])
  }

  /** One contact conserves the coin potential. */
  lemma ApplyKeepsPotential(w: World, e: Event)
    ensures Potential(Apply(w, e)) == Potential(w)
  {
    if w.hero.bodyEnabled {
      match e
      case WaterContact =>
      case CoinOverlap(i) =>
      case KeyOverlap =>
      case DoorOverlap =>
      case EnemyOverlap(j) =>
        if j < |w.spiders| && w.spiders[j].bodyEnabled {
          if w.hero.vy > 0 {
            CountUpdate(w.spiders, j, Spiders.Die(w.spiders[j]), Active);
          } else {
            CountUpdate(w.spiders, j, Spiders.RestoreTouching(w.spiders[j]), Active);
          }
        }
    }
  }

  /** What one contact can do to the session: coins only grow, a life is
      lost only together with the hero's body leaving physics, and level and
      game-started flag stay. */
  lemma ApplySessionBounds(w: World, e: Event)
    ensures var r := Apply(w, e);
            && r.session.level == w.session.level
            && r.session.gameStarted == w.session.gameStarted
            && r.session.coins >= w.session.coins
            && (r.session.lives == w.session.lives
                || (r.session.lives == w.session.lives - 1 && !r.hero.bodyEnabled))
  {
  }

  /** One contact keeps the level consistent. */
  lemma ApplyKeepsConsistent(w: World, e: Event)
    requires Consistent(w)
    ensures Consistent(Apply(w, e))
  {
  }

  /** Once the hero's body is out of physics, the rest of the frame changes nothing. */
  lemma {:induction false} FrameIgnoresDisabledHero(w: World, es: seq<Event>)
    requires !w.hero.bodyEnabled
    ensures Frame(w, es) == w
    decreases |es|
  {
    if |es| > 0 {
      FrameIgnoresDisabledHero(Apply(w, es[0]), es[1..]);
    }
  }

  /** Over a whole frame: the coin potential is conserved, coins never go
      down, at most one life is lost, and level and game-started flag stay. */
  lemma {:induction false} FrameFacts(w: World, es: seq<Event>)
    ensures var r := Frame(w, es);
            && Potential(r) == Potential(w)
            && r.session.level == w.session.level
            && r.session.gameStarted == w.session.gameStarted
            && r.session.coins >= w.session.coins
            && w.session.lives - 1 <= r.session.lives <= w.session.lives
            && (Consistent(w) ==> Consistent(r))
    decreases |es|
  {
    if |es| > 0 {
      var w1 := Apply(w, es[0]);
      ApplyKeepsPotential(w, es[0]);
      ApplySessionBounds(w, es[0]);
      if Consistent(w) {
        ApplyKeepsConsistent(w, es[0]);
      }
      if w1.hero.bodyEnabled {
        FrameFacts(w1, es[1..]);
      } else {
        FrameIgnoresDisabledHero(w1, es[1..]);
      }
    }
  }

  /** The contacts the physics queries report in one frame: a flag per coin
      and per spider, and one for each of water, key and door. */
  datatype Contacts = Contacts(water: bool, coins: seq<bool>, key: bool, door: bool, enemies: seq<bool>)

  /** Indices (counted from `from`) of the set flags, in increasing order:
      every index is of a set flag, and there are as many as set flags, so
      none is missing. */
  function SetIndices(flags: seq<bool>, from: nat): (r: seq<nat>)
    ensures forall k :: 0 <= k < |r| ==> from <= r[k] < from + |flags| && flags[r[k] - from]
    ensures |r| == Count(flags, Present)
    ensures forall j, k :: 0 <= j < k < |r| ==> r[j] < r[k]
    decreases |flags|
  {
    if |flags| == 0 then []
    else
      var rest := SetIndices(flags[1..], from + 1);
      if flags[0] then
        var r := [from] + rest;
        assert forall k :: 1 <= k < |r| ==> r[k] == rest[k - 1];
        r
      else rest
  }

  /** Every set flag's index is listed. */
  lemma {:induction false} SetIndicesComplete(flags: seq<bool>, from: nat, i: nat)
    requires i < |flags| && flags[i]
    ensures from + i in SetIndices(flags, from)
    decreases |flags|
  {
    var head := if flags[0] then [from] else [];
    var rest := SetIndices(flags[1..], from + 1);
    assert SetIndices(flags, from) == head + rest;
    if i > 0 {
      assert flags[1..][i - 1];
      SetIndicesComplete(flags[1..], from + 1, i - 1);
    }
  }

  /** The events of a frame in the order `_handleCollisions` runs its
      queries: water, coins, key, the two door queries, spiders. */
  function EventsOf(c: Contacts): seq<Event> {
    var coins := SetIndices(c.coins, 0);
    var enemies := SetIndices(c.enemies, 0);
    (if c.water then [WaterContact] else [])
    + seq(|coins|, k requires 0 <= k < |coins| => CoinOverlap(coins[k]))
    + (if c.key then [KeyOverlap] else [])
    + (if c.door then [DoorOverlap] else [])
    + seq(|enemies|, k requires 0 <= k < |enemies| => EnemyOverlap(enemies[k]))
  }

  /** `_handleCollisions()` for one frame of reported contacts. */
  function HandleCollisions(w: World, c: Contacts): (r: World)
    ensures Potential(r) == Potential(w)
    ensures r.session.coins >= w.session.coins
    ensures w.session.lives - 1 <= r.session.lives <= w.session.lives
    ensures r.session.level == w.session.level && r.session.gameStarted == w.session.gameStarted
    ensures Consistent(w) ==> Consistent(r)
    ensures !w.hero.bodyEnabled ==> r == w
  {
    var es := EventsOf(c);
    FrameFacts(w, es);
    if !w.hero.bodyEnabled then FrameIgnoresDisabledHero(w, es); Frame(w, es)
    else Frame(w, es)
  }

  /** The hero's `onKilled` signal at the end of the death animation. The
      water continuation restarts the level index it captured, with the life
      already taken; the spider continuation takes the life now and restarts
      the current level. Either way, no lives left means a full reset. */
  function OnKilled(w: World): (r: (World, Option<Request>))
    ensures r.1.Some? <==> w.pending.AfterWaterDeath? || w.pending.AfterEnemyDeath?
    ensures w.pending.AfterWaterDeath? ==> r.0.session == w.session
    ensures w.pending.AfterEnemyDeath? ==> r.0.session == w.session.(lives := w.session.lives - 1)
    ensures r.1.Some? ==> (r.1.value.FullReset? <==> r.0.session.lives < 1)
    ensures r.1.Some? && r.1.value.Restart? ==>
              r.1.value.level == (if w.pending.AfterWaterDeath? then w.pending.level else w.session.level)
    ensures r.1.Some? ==> r.0.pending == Settled
    ensures r.1.Some? ==> r.0 == w.(session := r.0.session, pending := Settled)
    ensures r.1.None? ==> r.0 == w
  {
    match w.pending
    case AfterWaterDeath(level) =>
      (w.(pending := Settled), Some(DeathPolicy(w.session.lives, level)))
    case AfterEnemyDeath =>
      var s := w.session.(lives := w.session.lives - 1);
      (w.(session := s, pending := Settled), Some(DeathPolicy(s.lives, s.level)))
    case _ => (w, None)
  }

  /** The end of the walk into the door: the camera fades out and the next
      level index is requested. */
  function OnDoorEntered(w: World): (r: (World, Option<Request>))
    ensures r.1.Some? <==> w.pending.EnteringDoor?
    ensures r.1.Some? ==> r.1.value == Restart(w.session.level + 1) && r.0.pending == Settled
    ensures r.1.None? ==> r.0 == w
    ensures r.0.session == w.session
    ensures r.0 == w.(pending := r.0.pending)
  {
    if w.pending.EnteringDoor? then (w.(pending := Settled), Some(Restart(w.session.level + 1)))
    else (w, None)
  }

  /** Each continuation runs once: a second completion signal asks for nothing. */
  lemma ContinuationsRunOnce(w: World)
    ensures OnKilled(OnKilled(w).0).1.None? || OnKilled(w).1.None?
    ensures OnKilled(w).1.Some? ==> OnKilled(OnKilled(w).0).0 == OnKilled(w).0
    ensures OnDoorEntered(OnDoorEntered(w).0).1.None?
  {
  }

  /** Drowning and being caught by a spider end the same way once the death
      animation has finished, although the water takes the life at once and
      the spider only at the end. */
  lemma DeathPathsAgree(w: World, j: nat)
    requires w.hero.bodyEnabled && w.hero.vy <= 0
    requires j < |w.spiders| && w.spiders[j].bodyEnabled
    ensures Apply(w, WaterContact).session.lives == w.session.lives - 1
    ensures Apply(w, EnemyOverlap(j)).session.lives == w.session.lives
    ensures OnKilled(Apply(w, WaterContact)).0.session == OnKilled(Apply(w, EnemyOverlap(j))).0.session
    ensures OnKilled(Apply(w, WaterContact)).1 == OnKilled(Apply(w, EnemyOverlap(j))).1
  {
  }

  /** From a valid session, a drowning followed by the requested restart
      either starts the game over (last life) or replays the same level with
      one life less, the same coins and no key. */
  lemma DrowningOutcome(w: World)
    requires Valid(w.session) && w.hero.bodyEnabled
    ensures var k := OnKilled(Apply(w, WaterContact));
            && k.1.Some?
            && var r := ApplyRequest(k.0.session, k.1.value);
            && Valid(r)
            && (w.session.lives == 1 ==> r == Session(StartingLives, 0, false, false, 0))
            && (w.session.lives > 1 ==> r == w.session.(lives := w.session.lives - 1, hasKey := false))
  {
    LoseLifeOutcome(w.session);
  }

  /** Landing on two spiders in the same frame: the first stomp's bounce
      turns the hero upward, so the second spider kills the hero. */
  lemma DoubleStompKillsHero(w: World)
    requires w.hero.bodyEnabled && w.hero.vy > 0
    requires |w.spiders| >= 2 && w.spiders[0].bodyEnabled && w.spiders[1].bodyEnabled
    ensures var r := Frame(w, [EnemyOverlap(0), EnemyOverlap(1)]);
            && !r.spiders[0].bodyEnabled
            && !r.hero.alive
            && r.session.coins == w.session.coins + StompReward
            && r.pending == AfterEnemyDeath
  {
    var w1 := Apply(w, EnemyOverlap(0));
    assert w1.hero.vy < 0 && w1.spiders[1].bodyEnabled;
    assert [EnemyOverlap(0), EnemyOverlap(1)][1..] == [EnemyOverlap(1)];
  }

  /** Picking up the key and reaching the door in the same frame is enough
      to enter: the key query runs before the door queries. */
  lemma KeyThenDoorEnters(w: World)
    requires w.hero.bodyEnabled && w.hero.touchingDown && w.keyPresent
    ensures var r := Frame(w, [KeyOverlap, DoorOverlap]);
            r.pending == EnteringDoor && r.doorOpen && r.hero.frozen && r.lockedHint == w.lockedHint
  {
    assert [KeyOverlap, DoorOverlap][1..] == [DoorOverlap];
  }

  /** Without the key the door never opens; standing at it on the first
      level only puts up the locked message. */
  lemma DoorNeedsKey(w: World)
    requires !w.session.hasKey
    ensures Apply(w, DoorOverlap) == w.(lockedHint := Apply(w, DoorOverlap).lockedHint)
    ensures Apply(w, DoorOverlap).lockedHint ==
              (w.lockedHint || (w.hero.bodyEnabled && w.hero.touchingDown && w.session.level == 0))
  {
  }

  /** In mid-air the door does nothing, key or no key: both door guards
      need the hero on the ground. */
  lemma DoorNeedsGround(w: World)
    requires !w.hero.touchingDown
    ensures Apply(w, DoorOverlap) == w
  {
  }
}
