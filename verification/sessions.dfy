/** Progress that outlives a level: lives, coins and the game-started flag
    (page-wide globals), with the play state's key flag and level index, and
    the policy that decides how a level restarts after the hero dies.
    Restarts are returned as values instead of being scheduled. */
module Sessions {
  import opened Common

  const LevelCount := 3
  const StartingLives := 3
  const StompReward := 5

  datatype Session = Session(
    lives: int,
    coins: int,
    gameStarted: bool,
    hasKey: bool,
    level: int
  )

  /** What the play state is asked to do next: play a level again (its index
      is reduced modulo `LevelCount` on entry), or start over from scratch. */
  datatype Request = Restart(level: int) | FullReset

  /** Shape of the session between frames. */
  predicate Valid(s: Session) {
    s.lives >= 1 && s.coins >= 0 && 0 <= s.level < LevelCount
  }

  /** `PlayState.init(data)`: the key is gone and the requested level index
      (0 when none is given) wraps around the level count. */
  function Init(s: Session, requested: Option<int>): (r: Session)
    ensures !r.hasKey
    ensures r == s.(hasKey := false, level := r.level)
    ensures requested.None? ==> r.level == 0
    ensures requested.Some? && requested.value >= 0 ==>
              0 <= r.level < LevelCount && r.level == requested.value % LevelCount
  {
    s.(hasKey := false, level := JsRem(requested.GetOr(0), LevelCount))
  }

  /** The page's start-up values followed by the loading state's request to play level 0. */
  function Boot(): (s: Session)
    ensures Valid(s) && !s.hasKey && !s.gameStarted
    ensures s.lives == StartingLives && s.coins == 0 && s.level == 0
  {
    Init(Session(StartingLives, 0, false, false, 0), Some(0))
  }

  /** The first key press on the start overlay. */
  function StartGame(s: Session): (r: Session)
    ensures r.gameStarted
    ensures r == s.(gameStarted := true)
  {
    s.(gameStarted := true)
  }

  /** The decision taken once the death animation has finished, given the
      lives left after the loss and the level being played. */
  function DeathPolicy(livesLeft: int, level: int): (req: Request)
    ensures req.FullReset? <==> livesLeft < 1
    ensures req.Restart? ==> req.level == level
  {
    if livesLeft < 1 then FullReset else Restart(level)
  }

  /** Carries out a request: a full reset restores the starting lives, drops
      the coins and shows the start overlay again, then plays level 0; a
      restart keeps every counter and plays the requested level. */
  function ApplyRequest(s: Session, req: Request): (r: Session)
    ensures !r.hasKey
    ensures req.FullReset? ==>
              r.lives == StartingLives && r.coins == 0 && !r.gameStarted && r.level == 0
    ensures req.Restart? ==>
              r.lives == s.lives && r.coins == s.coins && r.gameStarted == s.gameStarted
    ensures req.Restart? && req.level >= 0 ==> 0 <= r.level < LevelCount && r.level == req.level % LevelCount
  {
    match req
    case FullReset => Init(s.(lives := StartingLives, coins := 0, gameStarted := false), Some(0))
    case Restart(level) => Init(s, Some(level))
  }

  /** The whole death transaction on a valid session: losing the last life
      gives a brand-new session on level 0; any other loss keeps coins,
      game-started flag and level and only costs the life and the key. */
  lemma LoseLifeOutcome(s: Session)
    requires Valid(s)
    ensures var r := ApplyRequest(s.(lives := s.lives - 1), DeathPolicy(s.lives - 1, s.level));
            && Valid(r)
            && (s.lives == 1 ==> r == Session(StartingLives, 0, false, false, 0))
            && (s.lives > 1 ==> r == s.(lives := s.lives - 1, hasKey := false))
  {
    var d := s.(lives := s.lives - 1);
    var r := ApplyRequest(d, DeathPolicy(d.lives, s.level));
    if s.lives > 1 {
      assert r.level == s.level % LevelCount;
      assert r.level == s.level;
    }
  }

  /** Walking through the door of the last level leads back to level 0. */
  lemma NextLevelWraps(s: Session)
    requires s.level == LevelCount - 1
    ensures Init(s, Some(s.level + 1)).level == 0
  {
  }

  /** Re-entering the level being played does not move the level index. */
  lemma ReloadKeepsLevel(s: Session)
    requires 0 <= s.level < LevelCount
    ensures Init(s, Some(s.level)).level == s.level
  {
  }

  /** Every request issued from a valid session — a death outcome, the next
      level through the door or the skip key — lands on a valid session. */
  lemma RequestsKeepSessionValid(s: Session, req: Request)
    requires Valid(s)
    requires req == FullReset || req == Restart(s.level) || req == Restart(s.level + 1)
    ensures Valid(ApplyRequest(s, req))
  {
  }
}
