/** The level loader: a level descriptor becomes the list of sprites the play
    state creates, in creation order, with the physics flags each body is
    given. Pixel geometry (anchors, sprite widths, the key's bobbing) is not
    kept; an enemy-only wall records the platform it flanks and its side. */
module Levels {
  import opened Common

  const Gravity := 1200

  datatype Side = Left | Right

  datatype PlatformSpec = PlatformSpec(at: Point, image: string)
  datatype DecorationSpec = DecorationSpec(at: Point, frame: int)

  /** One level's data file. The pull door (`doorBoxes` with its `doorSwitch`)
      and the water are optional. */
  datatype Descriptor = Descriptor(
    hero: Point,
    spiders: seq<Point>,
    platforms: seq<PlatformSpec>,
    decoration: seq<DecorationSpec>,
    coins: seq<Point>,
    key: Point,
    door: Point,
    doorBoxes: Option<Point>,
    doorSwitch: Option<Point>,
    water: Option<Point>
  )

  /** The two physics flags the loader sets on bodies. */
  datatype Body = Body(immovable: bool, allowGravity: bool)

  /** What enabling physics gives a sprite when nothing is changed afterwards. */
  const Loose := Body(false, true)
  /** Immovable and out of gravity: platforms, walls, the pull door. */
  const Anchored := Body(true, false)
  /** Out of gravity but movable: pickups, the door and the switch. */
  const Floating := Body(false, false)

  datatype Entity =
    | HeroSprite(at: Point, body: Body)
    | SpiderSprite(at: Point, body: Body)
    | DecorationImage(at: Point, frame: int)
    | PlatformSprite(at: Point, image: string, body: Body)
    | EnemyWall(platform: nat, side: Side, body: Body)
    | PullDoorSprite(at: Point, body: Body)
    | SwitchSprite(at: Point, body: Body)
    | WaterSprite(at: Point, body: Body)
    | CoinSprite(at: Point, body: Body)
    | KeySprite(at: Point, body: Body)
    | DoorSprite(at: Point, body: Body)

  datatype Level = Level(entities: seq<Entity>, gravity: int)

  /** Ways a descriptor makes the loader throw: a pull door without its
      switch, or water when no pull door exists to receive its body flags. */
  datatype LoadError = MissingDoorSwitch | MissingPullDoor

  predicate IsEnemyWall(e: Entity) {
    e.EnemyWall?
  }

  /** The kinds of sprite a level is made of. */
  datatype Kind = HeroKind | SpiderKind | DecorationKind | PlatformKind | WallKind
                | PullDoorKind | SwitchKind | WaterKind | CoinKind | KeyKind | DoorKind

  function KindOf(e: Entity): Kind {
    match e
    case HeroSprite(_, _) => HeroKind
    case SpiderSprite(_, _) => SpiderKind
    case DecorationImage(_, _) => DecorationKind
    case PlatformSprite(_, _, _) => PlatformKind
    case EnemyWall(_, _, _) => WallKind
    case PullDoorSprite(_, _) => PullDoorKind
    case SwitchSprite(_, _) => SwitchKind
    case WaterSprite(_, _) => WaterKind
    case CoinSprite(_, _) => CoinKind
    case KeySprite(_, _) => KeyKind
    case DoorSprite(_, _) => DoorKind
  }

  /** The sprites of kind `k`. */
  function IsKind(k: Kind): Entity -> bool {
    e => KindOf(e) == k
  }

  /** How many sprites of kind `k` a list holds. */
  function Tally(es: seq<Entity>, k: Kind): nat {
    Count(es, IsKind(k))
  }

  lemma TallyAppend(a: seq<Entity>, b: seq<Entity>, k: Kind)
    ensures Tally(a + b, k) == Tally(a, k) + Tally(b, k)
  {
    CountAppend(a, b, IsKind(k));
  }

  lemma TallyCons(x: Entity, rest: seq<Entity>, k: Kind)
    ensures Tally([x] + rest, k) == (if KindOf(x) == k then 1 else 0) + Tally(rest, k)
  {
    assert ([x] + rest)[1..] == rest;
  }

  lemma FilterCons(x: Entity, rest: seq<Entity>)
    ensures Filter([x] + rest, IsEnemyWall) == (if IsEnemyWall(x) then [x] else []) + Filter(rest, IsEnemyWall)
  {
    assert ([x] + rest)[1..] == rest;
  }

  /** The physics flags each kind of sprite is spawned with. */
  predicate SpawnedBody(e: Entity) {
    match e
    case HeroSprite(_, b) => b == Loose
    case SpiderSprite(_, b) => b == Loose
    case DecorationImage(_, _) => true
    case PlatformSprite(_, _, b) => b == Anchored
    case EnemyWall(_, _, b) => b == Anchored
    case PullDoorSprite(_, b) => b == Anchored
    case SwitchSprite(_, b) => b == Floating
    case WaterSprite(_, b) => b == Anchored
    case CoinSprite(_, b) => b == Floating
    case KeySprite(_, b) => b == Floating
    case DoorSprite(_, b) => b == Floating
  }

  predicate AllSpawnedBodies(es: seq<Entity>) {
    forall k :: 0 <= k < |es| ==> SpawnedBody(es[k])
  }

  lemma {:induction false} BodiesAppend(a: seq<Entity>, b: seq<Entity>)
    requires AllSpawnedBodies(a) && AllSpawnedBodies(b)
    ensures AllSpawnedBodies(a + b)
  {
    forall k | 0 <= k < |a + b|
      ensures SpawnedBody((a + b)[k])
    {
      if k < |a| {
        assert (a + b)[k] == a[k];
      } else {
        assert (a + b)[k] == b[k - |a|];
      }
    }
  }

  /** `_spawnCharacters`, spider part: one spider per spawn point. */
  function SpawnSpiders(ps: seq<Point>): (r: seq<Entity>)
    ensures |r| == |ps| && forall i :: 0 <= i < |ps| ==> r[i] == SpiderSprite(ps[i], Loose)
    ensures forall k :: Tally(r, k) == (if k == SpiderKind then |ps| else 0)
    ensures AllSpawnedBodies(r)
    ensures Filter(r, IsEnemyWall) == []
    decreases |ps|
  {
    if |ps| == 0 then []
    else
      var rest := SpawnSpiders(ps[1..]);
      forall k | true
        ensures Tally([SpiderSprite(ps[0], Loose)] + rest, k) == (if k == SpiderKind then |ps| else 0)
      {
        TallyCons(SpiderSprite(ps[0], Loose), rest, k);
      }
      FilterCons(SpiderSprite(ps[0], Loose), rest);
      BodiesAppend([SpiderSprite(ps[0], Loose)], rest);
      [SpiderSprite(ps[0], Loose)] + rest
  }

  /** Decoration images: drawn only, no physics body. */
  function SpawnDecoration(ds: seq<DecorationSpec>): (r: seq<Entity>)
    ensures |r| == |ds| && forall i :: 0 <= i < |ds| ==> r[i] == DecorationImage(ds[i].at, ds[i].frame)
    ensures forall k :: Tally(r, k) == (if k == DecorationKind then |ds| else 0)
    ensures AllSpawnedBodies(r)
    ensures Filter(r, IsEnemyWall) == []
    decreases |ds|
  {
    if |ds| == 0 then []
    else
      var rest := SpawnDecoration(ds[1..]);
      forall k | true
        ensures Tally([DecorationImage(ds[0].at, ds[0].frame)] + rest, k) == (if k == DecorationKind then |ds| else 0)
      {
        TallyCons(DecorationImage(ds[0].at, ds[0].frame), rest, k);
      }
      FilterCons(DecorationImage(ds[0].at, ds[0].frame), rest);
      BodiesAppend([DecorationImage(ds[0].at, ds[0].frame)], rest);
      [DecorationImage(ds[0].at, ds[0].frame)] + rest
  }

  /** `_spawnCoin` for every coin. */
  function SpawnCoins(cs: seq<Point>): (r: seq<Entity>)
    ensures |r| == |cs| && forall i :: 0 <= i < |cs| ==> r[i] == CoinSprite(cs[i], Floating)
    ensures forall k :: Tally(r, k) == (if k == CoinKind then |cs| else 0)
    ensures AllSpawnedBodies(r)
    ensures Filter(r, IsEnemyWall) == []
    decreases |cs|
  {
    if |cs| == 0 then []
    else
      var rest := SpawnCoins(cs[1..]);
      forall k | true
        ensures Tally([CoinSprite(cs[0], Floating)] + rest, k) == (if k == CoinKind then |cs| else 0)
      {
        TallyCons(CoinSprite(cs[0], Floating), rest, k);
      }
      FilterCons(CoinSprite(cs[0], Floating), rest);
      BodiesAppend([CoinSprite(cs[0], Floating)], rest);
      [CoinSprite(cs[0], Floating)] + rest
  }

  /** `_spawnPlatform`: the platform and, flanking it, a left and a right wall
      that only spiders collide with. */
  function SpawnPlatform(p: PlatformSpec, index: nat): seq<Entity> {
    [PlatformSprite(p.at, p.image, Anchored), EnemyWall(index, Left, Anchored), EnemyWall(index, Right, Anchored)]
  }

  /** The enemy-only walls of platforms `from`, `from + 1`, ... : a left and
      then a right wall for each. */
  function Walls(n: nat, from: nat): seq<Entity>
    decreases n
  {
    if n == 0 then []
    else [EnemyWall(from, Left, Anchored), EnemyWall(from, Right, Anchored)] + Walls(n - 1, from + 1)
  }

  /** Position 2k of `Walls` is platform k's left wall and position 2k+1 its right wall. */
  lemma {:induction false} WallsShape(n: nat, from: nat)
    ensures |Walls(n, from)| == 2 * n
    ensures forall k :: 0 <= k < n ==>
              Walls(n, from)[2 * k] == EnemyWall(from + k, Left, Anchored)
              && Walls(n, from)[2 * k + 1] == EnemyWall(from + k, Right, Anchored)
    decreases n
  {
    if n > 0 {
      WallsShape(n - 1, from + 1);
      var w := Walls(n, from);
      var rest := Walls(n - 1, from + 1);
      assert w == [EnemyWall(from, Left, Anchored), EnemyWall(from, Right, Anchored)] + rest;
      forall k | 0 <= k < n
        ensures w[2 * k] == EnemyWall(from + k, Left, Anchored)
        ensures w[2 * k + 1] == EnemyWall(from + k, Right, Anchored)
      {
        if k > 0 {
          assert w[2 * k] == rest[2 * (k - 1)];
          assert w[2 * k + 1] == rest[2 * (k - 1) + 1];
        }
      }
    }
  }

  /** One platform's sprites: the platform and its two walls, left then right. */
  lemma PlatformFacts(p: PlatformSpec, index: nat)
    ensures forall k :: Tally(SpawnPlatform(p, index), k) ==
              (if k == PlatformKind then 1 else if k == WallKind then 2 else 0)
    ensures Filter(SpawnPlatform(p, index), IsEnemyWall) == Walls(1, index)
    ensures AllSpawnedBodies(SpawnPlatform(p, index))
  {
    var head := SpawnPlatform(p, index);
    var ps := PlatformSprite(p.at, p.image, Anchored);
    var lw := EnemyWall(index, Left, Anchored);
    var rw := EnemyWall(index, Right, Anchored);
    assert head == [ps] + ([lw] + ([rw] + []));
    forall k | true
      ensures Tally(head, k) == (if k == PlatformKind then 1 else if k == WallKind then 2 else 0)
    {
      TallyCons(rw, [], k);
      TallyCons(lw, [rw], k);
      TallyCons(ps, [lw, rw], k);
    }
    FilterCons(rw, []);
    FilterCons(lw, [rw]);
    FilterCons(ps, [lw, rw]);
    assert Walls(1, index) == [lw, rw] + Walls(0, index + 1);
  }

  /** `_spawnPlatform` for every platform, numbering them from `from`. */
  function SpawnPlatforms(ps: seq<PlatformSpec>, from: nat): (r: seq<Entity>)
    ensures forall k :: Tally(r, k) ==
              (if k == PlatformKind then |ps| else if k == WallKind then 2 * |ps| else 0)
    ensures Filter(r, IsEnemyWall) == Walls(|ps|, from)
    ensures AllSpawnedBodies(r)
    decreases |ps|
  {
    if |ps| == 0 then []
    else
      var head := SpawnPlatform(ps[0], from);
      var rest := SpawnPlatforms(ps[1..], from + 1);
      PlatformFacts(ps[0], from);
      forall k | true
        ensures Tally(head + rest, k) == (if k == PlatformKind then |ps| else if k == WallKind then 2 * |ps| else 0)
      {
        TallyAppend(head, rest, k);
      }
      FilterAppend(head, rest, IsEnemyWall);
      assert Walls(1, from) + Walls(|ps| - 1, from + 1) == Walls(|ps|, from);
      BodiesAppend(head, rest);
      head + rest
  }

  /** `_spawnPullDoor`: the immovable boxes at the door position, then the
      switch, which floats but can be pushed. */
  function SpawnPullDoor(boxes: Point, doorSwitch: Point): (r: seq<Entity>)
    ensures forall k :: Tally(r, k) == (if k == PullDoorKind || k == SwitchKind then 1 else 0)
    ensures AllSpawnedBodies(r) && Filter(r, IsEnemyWall) == []
    ensures |r| == 2 && r[0].PullDoorSprite? && r[0].at == boxes && r[1].SwitchSprite? && r[1].at == doorSwitch
  {
    var r := [PullDoorSprite(boxes, Anchored), SwitchSprite(doorSwitch, Floating)];
    assert r == [r[0]] + ([r[1]] + []);
    forall k | true
      ensures Tally(r, k) == (if k == PullDoorKind || k == SwitchKind then 1 else 0)
    {
      TallyCons(r[1], [], k);
      TallyCons(r[0], [r[1]], k);
    }
    FilterCons(r[1], []);
    FilterCons(r[0], [r[1]]);
    r
  }

  /** The sprites of a descriptor in the order `_loadLevel` creates them,
      given the optional pull-door and water parts. */
  function Assemble(d: Descriptor, pullDoor: seq<Entity>, water: seq<Entity>): seq<Entity> {
    SpawnSpiders(d.spiders) + [HeroSprite(d.hero, Loose)]
    + SpawnDecoration(d.decoration)
    + SpawnPlatforms(d.platforms, 0)
    + pullDoor
    + water
    + SpawnCoins(d.coins)
    + [KeySprite(d.key, Floating), DoorSprite(d.door, Floating)]
  }

  /** How many sprites of each kind a descriptor calls for: one hero, key and
      door, one sprite per listed spider, decoration, platform and coin, two
      walls per platform, and the optional parts when present. */
  function Expected(d: Descriptor, k: Kind): nat {
    match k
    case HeroKind => 1
    case SpiderKind => |d.spiders|
    case DecorationKind => |d.decoration|
    case PlatformKind => |d.platforms|
    case WallKind => 2 * |d.platforms|
    case PullDoorKind => if d.doorBoxes.Some? then 1 else 0
    case SwitchKind => if d.doorBoxes.Some? then 1 else 0
    case WaterKind => if d.water.Some? then 1 else 0
    case CoinKind => |d.coins|
    case KeyKind => 1
    case DoorKind => 1
  }

  /** A descriptor the loader accepts: a pull door comes with its switch. */
  predicate Loadable(d: Descriptor) {
    d.doorBoxes.Some? ==> d.doorSwitch.Some?
  }

  /** The pull-door part of a descriptor whose pull door, if any, has its switch. */
  function PullDoorPart(d: Descriptor): (r: seq<Entity>)
    requires Loadable(d)
    ensures forall k :: Tally(r, k) ==
              (if k == PullDoorKind || k == SwitchKind then Expected(d, k) else 0)
    ensures AllSpawnedBodies(r) && Filter(r, IsEnemyWall) == []
  {
    if d.doorBoxes.Some? then SpawnPullDoor(d.doorBoxes.value, d.doorSwitch.value)
    else []
  }

  /** The water part of a descriptor, with the given body for the water. */
  function WaterPart(d: Descriptor, body: Body): (r: seq<Entity>)
    ensures forall k :: Tally(r, k) == (if k == WaterKind then Expected(d, k) else 0)
    ensures Filter(r, IsEnemyWall) == []
    ensures d.water.Some? ==> r == [WaterSprite(d.water.value, body)]
    ensures body == Anchored ==> AllSpawnedBodies(r)
  {
    if d.water.Some? then
      var r := [WaterSprite(d.water.value, body)];
      assert r == [r[0]] + [];
      forall k | true
        ensures Tally(r, k) == (if k == WaterKind then Expected(d, k) else 0)
      {
        TallyCons(r[0], [], k);
      }
      FilterCons(r[0], []);
      r
    else []
  }

  /** The tally of an assembled level is the sum of its parts' tallies. */
  lemma {:induction false} TallyParts(a: seq<Entity>, b: seq<Entity>, c: seq<Entity>, p: seq<Entity>,
                                      pd: seq<Entity>, w: seq<Entity>, co: seq<Entity>, kd: seq<Entity>, k: Kind)
    ensures Tally(a + b + c + p + pd + w + co + kd, k)
            == Tally(a, k) + Tally(b, k) + Tally(c, k) + Tally(p, k) + Tally(pd, k) + Tally(w, k)
               + Tally(co, k) + Tally(kd, k)
  {
    TallyAppend(a, b, k);
    TallyAppend(a + b, c, k);
    TallyAppend(a + b + c, p, k);
    TallyAppend(a + b + c + p, pd, k);
    TallyAppend(a + b + c + p + pd, w, k);
    TallyAppend(a + b + c + p + pd + w, co, k);
    TallyAppend(a + b + c + p + pd + w + co, kd, k);
  }

  /** Tally of the hero alone and of the key followed by the door. */
  lemma SinglesTally(d: Descriptor, k: Kind)
    ensures Tally([HeroSprite(d.hero, Loose)], k) + Tally([KeySprite(d.key, Floating), DoorSprite(d.door, Floating)], k)
            == (if k == HeroKind || k == KeyKind || k == DoorKind then 1 else 0)
  {
    var hero := HeroSprite(d.hero, Loose);
    var key := KeySprite(d.key, Floating);
    var door := DoorSprite(d.door, Floating);
    assert [key, door] == [key] + ([door] + []) && [hero] == [hero] + [];
    TallyCons(door, [], k);
    TallyCons(key, [door], k);
    TallyCons(hero, [], k);
  }

  /** The per-kind counts of a level's parts add up to what the descriptor calls for. */
  lemma PartsAddUp(d: Descriptor, k: Kind, spiders: nat, decoration: nat, platforms: nat, coins: nat,
                   pullDoor: nat, water: nat, singles: nat)
    requires spiders == (if k == SpiderKind then |d.spiders| else 0)
    requires decoration == (if k == DecorationKind then |d.decoration| else 0)
    requires platforms == (if k == PlatformKind then |d.platforms| else if k == WallKind then 2 * |d.platforms| else 0)
    requires coins == (if k == CoinKind then |d.coins| else 0)
    requires pullDoor == (if k == PullDoorKind || k == SwitchKind then Expected(d, k) else 0)
    requires water == (if k == WaterKind then Expected(d, k) else 0)
    requires singles == (if k == HeroKind || k == KeyKind || k == DoorKind then 1 else 0)
    ensures spiders + decoration + platforms + coins + pullDoor + water + singles == Expected(d, k)
  {
  }

  /** The census of a level assembled from parts whose own census is known. */
  lemma CensusParts(d: Descriptor, spiders: seq<Entity>, decoration: seq<Entity>, platforms: seq<Entity>,
                    pullDoor: seq<Entity>, water: seq<Entity>, coins: seq<Entity>, k: Kind)
    requires Tally(spiders, k) == (if k == SpiderKind then |d.spiders| else 0)
    requires Tally(decoration, k) == (if k == DecorationKind then |d.decoration| else 0)
    requires Tally(platforms, k) == (if k == PlatformKind then |d.platforms| else if k == WallKind then 2 * |d.platforms| else 0)
    requires Tally(coins, k) == (if k == CoinKind then |d.coins| else 0)
    requires Tally(pullDoor, k) == (if k == PullDoorKind || k == SwitchKind then Expected(d, k) else 0)
    requires Tally(water, k) == (if k == WaterKind then Expected(d, k) else 0)
    ensures Tally(spiders + [HeroSprite(d.hero, Loose)] + decoration + platforms + pullDoor + water + coins
                  + [KeySprite(d.key, Floating), DoorSprite(d.door, Floating)], k) == Expected(d, k)
  {
    var hero := [HeroSprite(d.hero, Loose)];
    var keyDoor := [KeySprite(d.key, Floating), DoorSprite(d.door, Floating)];
    SinglesTally(d, k);
    TallyParts(spiders, hero, decoration, platforms, pullDoor, water, coins, keyDoor, k);
    PartsAddUp(d, k, Tally(spiders, k), Tally(decoration, k), Tally(platforms, k), Tally(coins, k),
               Tally(pullDoor, k), Tally(water, k), Tally(hero, k) + Tally(keyDoor, k));
  }

  /** The census of an assembled level, from those of its parts. */
  lemma AssembleTally(d: Descriptor, pullDoor: seq<Entity>, water: seq<Entity>, k: Kind)
    requires Tally(pullDoor, k) == (if k == PullDoorKind || k == SwitchKind then Expected(d, k) else 0)
    requires Tally(water, k) == (if k == WaterKind then Expected(d, k) else 0)
    ensures Tally(Assemble(d, pullDoor, water), k) == Expected(d, k)
  {
    CensusParts(d, SpawnSpiders(d.spiders), SpawnDecoration(d.decoration), SpawnPlatforms(d.platforms, 0),
                pullDoor, water, SpawnCoins(d.coins), k);
  }

  /** The enemy-only walls of an assembled level are exactly the platforms' walls. */
  lemma AssembleWalls(d: Descriptor, pullDoor: seq<Entity>, water: seq<Entity>)
    requires Filter(pullDoor, IsEnemyWall) == [] && Filter(water, IsEnemyWall) == []
    ensures Filter(Assemble(d, pullDoor, water), IsEnemyWall) == Walls(|d.platforms|, 0)
  {
    var b := [HeroSprite(d.hero, Loose)];
    var kd := [KeySprite(d.key, Floating), DoorSprite(d.door, Floating)];
    assert b == [b[0]] + [];
    FilterCons(b[0], []);
    assert kd == [kd[0]] + ([kd[1]] + []);
    FilterCons(kd[1], []);
    FilterCons(kd[0], [kd[1]]);
    var s1 := SpawnSpiders(d.spiders) + b;
    FilterAppend(SpawnSpiders(d.spiders), b, IsEnemyWall);
    assert Filter(s1, IsEnemyWall) == [];
    var s2 := s1 + SpawnDecoration(d.decoration);
    FilterAppend(s1, SpawnDecoration(d.decoration), IsEnemyWall);
    assert Filter(s2, IsEnemyWall) == [];
    var s3 := s2 + SpawnPlatforms(d.platforms, 0);
    FilterAppend(s2, SpawnPlatforms(d.platforms, 0), IsEnemyWall);
    assert Filter(s3, IsEnemyWall) == Walls(|d.platforms|, 0);
    var s4 := s3 + pullDoor;
    FilterAppend(s3, pullDoor, IsEnemyWall);
    assert Filter(s4, IsEnemyWall) == Walls(|d.platforms|, 0);
    var s5 := s4 + water;
    FilterAppend(s4, water, IsEnemyWall);
    assert Filter(s5, IsEnemyWall) == Walls(|d.platforms|, 0);
    var s6 := s5 + SpawnCoins(d.coins);
    FilterAppend(s5, SpawnCoins(d.coins), IsEnemyWall);
    assert Filter(s6, IsEnemyWall) == Walls(|d.platforms|, 0);
    FilterAppend(s6, kd, IsEnemyWall);
    assert Assemble(d, pullDoor, water) == s6 + kd;
  }

  /** Every body of an assembled level has its kind's flags when the optional parts do. */
  lemma {:induction false} BodiesParts(a: seq<Entity>, b: seq<Entity>, c: seq<Entity>, p: seq<Entity>,
                                       pd: seq<Entity>, w: seq<Entity>, co: seq<Entity>, kd: seq<Entity>)
    requires AllSpawnedBodies(a) && AllSpawnedBodies(b) && AllSpawnedBodies(c) && AllSpawnedBodies(p)
    requires AllSpawnedBodies(pd) && AllSpawnedBodies(w) && AllSpawnedBodies(co) && AllSpawnedBodies(kd)
    ensures AllSpawnedBodies(a + b + c + p + pd + w + co + kd)
  {
    BodiesAppend(a, b);
    BodiesAppend(a + b, c);
    BodiesAppend(a + b + c, p);
    BodiesAppend(a + b + c + p, pd);
    BodiesAppend(a + b + c + p + pd, w);
    BodiesAppend(a + b + c + p + pd + w, co);
    BodiesAppend(a + b + c + p + pd + w + co, kd);
  }

  lemma AssembleBodies(d: Descriptor, pullDoor: seq<Entity>, water: seq<Entity>)
    requires AllSpawnedBodies(pullDoor) && AllSpawnedBodies(water)
    ensures AllSpawnedBodies(Assemble(d, pullDoor, water))
  {
    var b := [HeroSprite(d.hero, Loose)];
    var kd := [KeySprite(d.key, Floating), DoorSprite(d.door, Floating)];
    assert AllSpawnedBodies(b) && AllSpawnedBodies(kd);
    BodiesParts(SpawnSpiders(d.spiders), b, SpawnDecoration(d.decoration), SpawnPlatforms(d.platforms, 0),
                pullDoor, water, SpawnCoins(d.coins), kd);
  }

  /** Where the sprites the descriptor places one by one end up: spiders
      first, then the hero, and the coins just before the key and the door. */
  predicate Placed(d: Descriptor, es: seq<Entity>) {
    && |es| >= |d.spiders| + 1 + |d.coins| + 2
    && (forall i :: 0 <= i < |d.spiders| ==> es[i] == SpiderSprite(d.spiders[i], Loose))
    && es[|d.spiders|] == HeroSprite(d.hero, Loose)
    && (forall i :: 0 <= i < |d.coins| ==> es[|es| - 2 - |d.coins| + i] == CoinSprite(d.coins[i], Floating))
    && es[|es| - 2] == KeySprite(d.key, Floating)
    && es[|es| - 1] == DoorSprite(d.door, Floating)
  }

  /** Placement depends only on the spider and coin parts and on where they sit. */
  lemma PlacedParts(d: Descriptor, spiders: seq<Entity>, decoration: seq<Entity>, platforms: seq<Entity>,
                    pullDoor: seq<Entity>, water: seq<Entity>, coins: seq<Entity>)
    requires |spiders| == |d.spiders|
    requires forall i :: 0 <= i < |d.spiders| ==> spiders[i] == SpiderSprite(d.spiders[i], Loose)
    requires |coins| == |d.coins|
    requires forall i :: 0 <= i < |d.coins| ==> coins[i] == CoinSprite(d.coins[i], Floating)
    ensures Placed(d, spiders + [HeroSprite(d.hero, Loose)] + decoration + platforms + pullDoor + water + coins
                      + [KeySprite(d.key, Floating), DoorSprite(d.door, Floating)])
  {
    var head := spiders + [HeroSprite(d.hero, Loose)];
    var mid := decoration + platforms + pullDoor + water;
    var tail := coins + [KeySprite(d.key, Floating), DoorSprite(d.door, Floating)];
    var es := spiders + [HeroSprite(d.hero, Loose)] + decoration + platforms + pullDoor + water + coins
              + [KeySprite(d.key, Floating), DoorSprite(d.door, Floating)];
    assert es == head + mid + tail;
    assert forall i :: 0 <= i < |head| ==> es[i] == head[i];
    assert forall i :: 0 <= i < |tail| ==> es[|es| - |tail| + i] == tail[i];
  }

  lemma AssemblePlaces(d: Descriptor, pullDoor: seq<Entity>, water: seq<Entity>)
    ensures Placed(d, Assemble(d, pullDoor, water))
  {
    PlacedParts(d, SpawnSpiders(d.spiders), SpawnDecoration(d.decoration), SpawnPlatforms(d.platforms, 0),
                pullDoor, water, SpawnCoins(d.coins));
  }

  /** `_loadLevel`, with the water's body flags set on the water. A pull door
      without its switch throws; every other descriptor loads, with exactly
      the sprites it lists, a left and a right enemy-only wall for every
      platform in platform order, each body spawned with its kind's flags,
      and gravity switched on. */
  function LoadLevel(d: Descriptor): (r: Result<Level, LoadError>)
    ensures r.Err? <==> !Loadable(d)
    ensures r.Err? ==> r.error == MissingDoorSwitch
    ensures r.Ok? ==> r.value.gravity == Gravity
    ensures r.Ok? ==> forall k :: Tally(r.value.entities, k) == Expected(d, k)
    ensures r.Ok? ==> Filter(r.value.entities, IsEnemyWall) == Walls(|d.platforms|, 0)
    ensures r.Ok? ==> AllSpawnedBodies(r.value.entities)
    ensures r.Ok? ==> Placed(d, r.value.entities)
  {
    if d.doorBoxes.Some? && d.doorSwitch.None? then Err(MissingDoorSwitch)
    else
      var pullDoor := PullDoorPart(d);
      var water := WaterPart(d, Anchored);
      var es := Assemble(d, pullDoor, water);
      forall k | true
        ensures Tally(es, k) == Expected(d, k)
      {
        AssembleTally(d, pullDoor, water, k);
      }
      AssembleWalls(d, pullDoor, water);
      AssembleBodies(d, pullDoor, water);
      AssemblePlaces(d, pullDoor, water);
      Ok(Level(es, Gravity))
  }

  /** `_loadLevel` exactly as written: `_spawnWater` sets the immovable and
      no-gravity flags on the pull door instead of the water, so water without
      a pull door throws, and water that does load keeps a loose body. */
  function LoadLevelAsWritten(d: Descriptor): (r: Result<Level, LoadError>)
    ensures r.Err? <==> !Loadable(d) || (d.water.Some? && d.doorBoxes.None?)
    ensures r.Ok? ==> r.value.gravity == Gravity
    ensures r.Ok? ==> forall k :: Tally(r.value.entities, k) == Expected(d, k)
    ensures r.Ok? ==> Filter(r.value.entities, IsEnemyWall) == Walls(|d.platforms|, 0)
    ensures r.Ok? ==> Placed(d, r.value.entities)
  {
    if d.doorBoxes.Some? && d.doorSwitch.None? then Err(MissingDoorSwitch)
    else if d.water.Some? && d.doorBoxes.None? then Err(MissingPullDoor)
    else
      var pullDoor := PullDoorPart(d);
      var water := WaterPart(d, Loose);
      var es := Assemble(d, pullDoor, water);
      forall k | true
        ensures Tally(es, k) == Expected(d, k)
      {
        AssembleTally(d, pullDoor, water, k);
      }
      AssembleWalls(d, pullDoor, water);
      AssemblePlaces(d, pullDoor, water);
      Ok(Level(es, Gravity))
  }

  /** The discrepancy: a descriptor with water and no pull door fails to load
      as written, while the corrected loader loads it. */
  lemma WaterWithoutPullDoorFailsAsWritten(d: Descriptor)
    requires d.water.Some? && d.doorBoxes.None?
    ensures LoadLevelAsWritten(d) == Err(MissingPullDoor)
    ensures LoadLevel(d).Ok?
  {
  }

  /** Where the written loader does load a level with water, the water body
      is left loose (movable, under gravity), unlike the corrected loader's. */
  lemma WrittenWaterIsLoose(d: Descriptor)
    requires d.water.Some? && d.doorBoxes.Some? && d.doorSwitch.Some?
    ensures LoadLevelAsWritten(d).Ok?
    ensures WaterSprite(d.water.value, Loose) in LoadLevelAsWritten(d).value.entities
    ensures !AllSpawnedBodies(LoadLevelAsWritten(d).value.entities)
  {
    var water := WaterPart(d, Loose);
    assert LoadLevelAsWritten(d).value.entities == Assemble(d, PullDoorPart(d), water);
    WaterAt(SpawnSpiders(d.spiders), [HeroSprite(d.hero, Loose)], SpawnDecoration(d.decoration),
            SpawnPlatforms(d.platforms, 0), PullDoorPart(d), water, SpawnCoins(d.coins),
            [KeySprite(d.key, Floating), DoorSprite(d.door, Floating)], water[0]);
  }

  /** The sixth part of an assembled level, when it is a single sprite, is in the level. */
  lemma WaterAt(a: seq<Entity>, b: seq<Entity>, c: seq<Entity>, p: seq<Entity>,
                pd: seq<Entity>, w: seq<Entity>, co: seq<Entity>, kd: seq<Entity>, x: Entity)
    requires w == [x]
    ensures x in a + b + c + p + pd + w + co + kd
    ensures !SpawnedBody(x) ==> !AllSpawnedBodies(a + b + c + p + pd + w + co + kd)
  {
    var es := a + b + c + p + pd + w + co + kd;
    var prefix := a + b + c + p + pd;
    assert es == prefix + [x] + (co + kd);
    assert es[|prefix|] == x;
  }
}
