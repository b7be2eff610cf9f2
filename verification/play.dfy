/** The play state as a whole: starting a level from a request, and one
    frame of play — collisions, then input, then the sprites' own updates. */
module Play {
  import opened Common
  import Heroes
  import Spiders
  import opened Sessions
  import Levels
  import Input
  import opened Collisions

  /** The level a request leads to, with a fresh hero, a fresh spider per
      spawn point, every coin and the key in place, and the door shut. The
      three level files are given as descriptors; the request's level index
      is the one `PlayState.init` computes. A descriptor the loader rejects
      (a pull door without its switch) gives its error. */
  function StartLevel(s: Session, req: Request, levels: seq<Levels.Descriptor>): (r: Result<World, Levels.LoadError>)
    requires |levels| == LevelCount
    requires req.Restart? ==> req.level >= 0
    ensures var next := ApplyRequest(s, req);
            && 0 <= next.level < LevelCount
            && (r.Err? <==> !Levels.Loadable(levels[next.level]))
            && (r.Err? ==> r.error == Levels.MissingDoorSwitch)
            && (r.Ok? ==>
                  && r.value.session == next
                  && r.value.pending == Idle
                  && r.value.hero == Heroes.NewHero()
                  && (forall i :: 0 <= i < |r.value.spiders| ==> r.value.spiders[i] == Spiders.NewSpider())
                  && (forall i :: 0 <= i < |r.value.coins| ==> r.value.coins[i])
                  && r.value.keyPresent && !r.value.doorOpen && !r.value.lockedHint
                  && Consistent(r.value)
                  && r.value.hero.alive
                  && |r.value.coins| == |levels[next.level].coins|
                  && |r.value.spiders| == |levels[next.level].spiders|
                  && Potential(r.value) == next.coins + |levels[next.level].coins|
                                           + StompReward * |levels[next.level].spiders|)
  {
    var next := ApplyRequest(s, req);
    var d := levels[next.level];
    match Levels.LoadLevel(d) {
      case Err(e) => Err(e)
      case Ok(_) => Ok(FreshWorld(next, |d.coins|, |d.spiders|))
    }
  }

  /** The play state at the start of a level: a fresh hero, the given
      numbers of coins and live spiders, the door shut and nothing pending. */
  function FreshWorld(session: Session, coins: nat, spiders: nat): (w: World)
    ensures w.session == session && w.pending == Idle
    ensures w.hero == Heroes.NewHero()
    ensures forall i :: 0 <= i < |w.spiders| ==> w.spiders[i] == Spiders.NewSpider()
    ensures forall i :: 0 <= i < |w.coins| ==> w.coins[i]
    ensures w.keyPresent && !w.doorOpen && !w.lockedHint
    ensures Consistent(w) && w.hero.alive
    ensures |w.coins| == coins && |w.spiders| == spiders
    ensures Potential(w) == session.coins + coins + StompReward * spiders
  {
    var present := seq(coins, _ => true);
    var live := seq(spiders, _ => Spiders.NewSpider());
    CountAll(present, Present);
    CountAll(live, Active);
    World(Heroes.NewHero(), live, present, true, false, false, session, Idle)
  }

  /** Every spider runs its own `update()`. */
  function UpdateSpiders(ss: seq<Spiders.Spider>): (r: seq<Spiders.Spider>)
    ensures |r| == |ss|
    ensures forall k :: 0 <= k < |ss| ==> r[k] == Spiders.Update(ss[k])
    ensures Count(r, Active) == Count(ss, Active)
    decreases |ss|
  {
    if |ss| == 0 then []
    else
      var rest := UpdateSpiders(ss[1..]);
      var r := [Spiders.Update(ss[0])] + rest;
      assert r[1..] == rest;
      r
  }

  datatype TickResult = TickResult(world: World, jumpSound: bool, request: Option<Request>)

  /** One frame: `_handleCollisions`, then `_handleInput`, then the hero's
      and the spiders' `update()`. Coins, lives and the level's invariants
      evolve as the resolver allows; the hero shows the animation its state
      calls for; only the skip key asks for a level from input. */
  function Tick(w: World, c: Contacts, k: Input.Keys): (r: TickResult)
    ensures Potential(r.world) == Potential(w)
    ensures Consistent(w) ==> Consistent(r.world)
    ensures Heroes.Shows(r.world.hero, r.world.hero.anim)
    ensures r.world.session.coins >= w.session.coins
    ensures w.session.lives - 1 <= r.world.session.lives <= w.session.lives
    ensures r.world.session.level == w.session.level
    ensures r.request == (if k.skip then Some(Restart(w.session.level + 1)) else None)
    ensures r.jumpSound ==> k.upHeld && r.world.hero.alive && !r.world.hero.frozen
    ensures Consistent(w) && r.jumpSound ==> w.hero.bodyEnabled
  {
    var w1 := HandleCollisions(w, c);
    var input := Input.HandleInput(w1.hero, w1.session.level, k);
    var hero := Heroes.Update(input.hero).0;
    TickResult(w1.(hero := hero, spiders := UpdateSpiders(w1.spiders)), input.jumpSound, input.request)
  }

  /** Walking through the door asks for the next level, which wraps after
      the last one; the key is gone and every counter is kept. */
  lemma DoorAdvancesLevel(w: World)
    requires w.pending == EnteringDoor && Valid(w.session)
    ensures var done := OnDoorEntered(w);
            && done.1.Some?
            && var next := ApplyRequest(done.0.session, done.1.value);
            && Valid(next)
            && next.level == (w.session.level + 1) % LevelCount
            && !next.hasKey
            && next.lives == w.session.lives && next.coins == w.session.coins
            && next.gameStarted == w.session.gameStarted
  {
  }
}
