/**
 * The game object: the level, the player, the enemy and coin lists, score,
 * lives and the game-over state, and the per-frame update that drives them.
 * Every method is proved to follow the value-level rules of module Rules.
 */
module Simulation {
  import opened Geometry
  import opened Platforms
  import opened Coins
  import opened Players
  import opened Enemies
  import opened Rules

  const GroundColor: int := 0x000000
  const PlatformColor: int := 0x228b22

  /** The ground and the five floating platforms, in creation order. */
  function LevelPlatforms(): seq<Platform>
  {
    [ Platform(0.0, 550.0, 800.0, 50.0, GroundColor, None),
      Platform(200.0, 450.0, 150.0, 20.0, PlatformColor, None),
      Platform(400.0, 350.0, 150.0, 20.0, PlatformColor, None),
      Platform(600.0, 250.0, 150.0, 20.0, PlatformColor, None),
      Platform(150.0, 300.0, 100.0, 20.0, PlatformColor, None),
      Platform(500.0, 180.0, 120.0, 20.0, PlatformColor, None) ]
  }

  /** Where the six coins are placed, in creation order. */
  function CoinSpots(): seq<(real, real)>
  {
    [(275.0, 410.0), (475.0, 310.0), (675.0, 210.0), (200.0, 260.0), (550.0, 140.0), (600.0, 140.0)]
  }

  /** Where the two enemies start, in creation order. */
  function EnemySpots(): seq<(real, real)>
  {
    [(300.0, 420.0), (650.0, 220.0)]
  }

  /** At spawn the player's feet are exactly on the ground's top edge: touching, not colliding. */
  lemma SpawnRestsOnGround()
    ensures var spawn := BodyBounds(Body(SpawnX, SpawnY, 0.0, 0.0, false));
            var ground := LevelPlatforms()[0].Bounds();
            spawn.Bottom() == ground.y && !Intersects(spawn, ground)
  {
  }

  /** The value each enemy object holds, in list order. */
  function EnemyStates(es: seq<Enemy>): (r: seq<EnemyBody>)
    reads es`x, es`y, es`velocityY, es`direction
    ensures |r| == |es|
    decreases |es|
  {
    if es == [] then [] else EnemyStates(es[..|es| - 1]) + [es[|es| - 1].State()]
  }

  /** Entry `j` of the list of states is the state of enemy `j`. */
  lemma {:induction false} EnemyStatesAt(es: seq<Enemy>)
    ensures forall j :: 0 <= j < |es| ==> EnemyStates(es)[j] == es[j].State()
    decreases |es|
  {
    if es != [] {
      EnemyStatesAt(es[..|es| - 1]);
    }
  }

  /** The value each coin object holds, in list order. */
  function CoinStates(cs: seq<Coin>): (r: seq<CoinState>)
    reads cs`active
    ensures |r| == |cs|
    decreases |cs|
  {
    if cs == [] then [] else CoinStates(cs[..|cs| - 1]) + [cs[|cs| - 1].State()]
  }

  /** Entry `j` of the list of states is the state of coin `j`. */
  lemma {:induction false} CoinStatesAt(cs: seq<Coin>)
    ensures forall j :: 0 <= j < |cs| ==> CoinStates(cs)[j] == cs[j].State()
    decreases |cs|
  {
    if cs != [] {
      CoinStatesAt(cs[..|cs| - 1]);
    }
  }

  /** Reading the states of the surviving enemies is dropping the stomped states. */
  lemma {:induction false} StatesOfSurvivors(xs: seq<Enemy>, cs: seq<Contact>)
    requires |xs| == |cs|
    ensures EnemyStates(Survivors(xs, cs)) == Survivors(EnemyStates(xs), cs)
    decreases |xs|
  {
    if xs != [] {
      var n := |xs| - 1;
      StatesOfSurvivors(xs[..n], cs[..n]);
      assert EnemyStates(xs)[..n] == EnemyStates(xs[..n]);
      var k := Survivors(xs[..n], cs[..n]);
      if cs[n] == Stomp {
        assert k + [] == k;
      } else {
        assert (k + [xs[n]])[..|k|] == k;
      }
    }
  }

  /** The states of freshly created coins: active, one per spot, in order. */
  function FreshCoins(spots: seq<(real, real)>): (r: seq<CoinState>)
    ensures |r| == |spots|
    ensures forall j :: 0 <= j < |spots| ==> r[j] == CoinState(spots[j].0, spots[j].1, true)
  {
    seq(|spots|, j requires 0 <= j < |spots| => CoinState(spots[j].0, spots[j].1, true))
  }

  /** The states of freshly created enemies: at rest and walking right, one per spot, in order. */
  function FreshEnemies(places: seq<(real, real)>): (r: seq<EnemyBody>)
    ensures |r| == |places|
    ensures forall j :: 0 <= j < |places| ==> r[j] == EnemyBody(places[j].0, places[j].1, 0.0, 1)
  {
    seq(|places|, j requires 0 <= j < |places| => EnemyBody(places[j].0, places[j].1, 0.0, 1))
  }

  /** One new, active coin per spot, in order. */
  method NewCoins(spots: seq<(real, real)>) returns (cs: seq<Coin>)
    ensures Distinct(cs)
    ensures CoinStates(cs) == FreshCoins(spots)
  {
    cs := [];
    var i := 0;
    while i < |spots|
      invariant 0 <= i <= |spots| && |cs| == i
      invariant Distinct(cs)
      invariant forall j :: 0 <= j < i ==> cs[j].State() == CoinState(spots[j].0, spots[j].1, true)
    {
      var coin := new Coin(spots[i].0, spots[i].1);
      cs := cs + [coin];
      i := i + 1;
    }
    CoinStatesAt(cs);
  }

  /** One new enemy per spot, in order, at rest and walking right. */
  method NewEnemies(places: seq<(real, real)>) returns (es: seq<Enemy>)
    ensures Distinct(es)
    ensures EnemyStates(es) == FreshEnemies(places)
  {
    es := [];
    var i := 0;
    while i < |places|
      invariant 0 <= i <= |places| && |es| == i
      invariant Distinct(es)
      invariant forall j :: 0 <= j < i ==> es[j].State() == EnemyBody(places[j].0, places[j].1, 0.0, 1)
    {
      var enemy := new Enemy(places[i].0, places[i].1);
      es := es + [enemy];
      i := i + 1;
    }
    EnemyStatesAt(es);
  }

  class Game {
    const player: Player
    const platforms: seq<Platform>
    /** Never reassigned: collected coins stay in the list, inactive. */
    const coins: seq<Coin>
    var enemies: seq<Enemy>
    var score: int
    var lives: int
    /** Whether the game-over screen (and its restart listener) has been entered. */
    var over: bool

    ghost predicate Valid()
      reads this
    {
      Distinct(enemies) && Distinct(coins)
    }

    function World(): Rules.World
      reads this, player
    {
      Rules.World(player.State(), score, lives, over)
    }

    function Snap(): Snapshot
      reads this, player, enemies, coins
    {
      Snapshot(World(), EnemyStates(enemies), CoinStates(coins))
    }

    /** The level as created: platforms, player at spawn, coins, enemies, score 0, three lives. */
    constructor ()
      ensures Valid()
      ensures platforms == LevelPlatforms()
      ensures World() == Rules.World(Body(SpawnX, SpawnY, 0.0, 0.0, false), 0, StartLives, false)
      ensures player.held == {}
      ensures CoinStates(coins) == FreshCoins(CoinSpots())
      ensures EnemyStates(enemies) == FreshEnemies(EnemySpots())
    {
      platforms := LevelPlatforms();
      var p := new Player(SpawnX, SpawnY);
      var cs := NewCoins(CoinSpots());
      var es := NewEnemies(EnemySpots());
      player := p;
      coins := cs;
      enemies := es;
      score := 0;
      lives := StartLives;
      over := false;
    }

    method AddScore(points: int)
      modifies this`score
      ensures score == old(score) + points
    {
      score := score + points;
    }

    /** The state part of the game-over screen. */
    method GameOver()
      modifies this`over
      ensures over
    {
      over := true;
    }

    method LoseLife()
      modifies this`lives, this`over, player`x, player`y, player`velocityX, player`velocityY
      ensures World() == Rules.LoseLife(old(World()))
      ensures score == old(score)
    {
      lives := lives - 1;
      if lives <= 0 {
        GameOver();
      } else {
        player.Reset(SpawnX, SpawnY);
      }
    }

    /** The enemy's own part of its turn: patrol, then land on the platforms. */
    method MoveEnemy(enemy: Enemy, snapshot: seq<Enemy>, i: nat, delta: real)
      requires i < |snapshot| && snapshot[i] == enemy && Distinct(snapshot)
      modifies enemy`x, enemy`y, enemy`velocityY, enemy`direction
      ensures var e := EnemyStep(old(EnemyStates(snapshot))[i], platforms, delta);
              enemy.State() == e && EnemyStates(snapshot) == old(EnemyStates(snapshot))[i := e]
    {
      EnemyStatesAt(snapshot);
      ghost var before := EnemyStates(snapshot);
      enemy.Update(delta);
      enemy.CheckPlatformCollisions(platforms);
      EnemyStatesAt(snapshot);
      ghost var after := EnemyStates(snapshot);
      assert forall j :: 0 <= j < |snapshot| && j != i ==> after[j] == before[j];
    }

    /**
     * The player meets a moved enemy: a stomp filters the enemy out of the
     * list, bounces the player and pays 100; any other contact costs a life.
     */
    method MeetPlayer(enemy: Enemy, ghost snapshot: seq<Enemy>)
      modifies this`enemies, this`score, this`lives, this`over
      modifies player`x, player`y, player`velocityX, player`velocityY
      ensures EnemyStates(snapshot) == old(EnemyStates(snapshot))
      ensures var m := Meet(old(World()), enemy.State());
              World() == m.world &&
              enemies == if m.contact == Stomp then Without(old(enemies), enemy) else old(enemies)
    {
      if Intersects(player.GetBounds(), enemy.GetBounds()) {
        if player.velocityY > 0.0 && player.y < enemy.y {
          enemies := Without(enemies, enemy);
          player.velocityY := BounceSpeed;
          AddScore(StompReward);
        } else {
          LoseLife();
        }
      }
    }

    /**
     * Where the enemy loop stands after visiting the first `i` enemies of
     * `snapshot` (whose states were `es0`): the world is that of the round
     * `r`, the visited enemies hold the states `r` moved them to, and the live
     * list is `kept` followed by the enemies not yet visited.
     */
    ghost predicate Stands(snapshot: seq<Enemy>, es0: seq<EnemyBody>, i: nat, r: EnemyRound, kept: seq<Enemy>)
      requires i <= |snapshot| == |es0|
      reads this, player, snapshot
    {
      World() == r.world && EnemyStates(snapshot) == r.moved + es0[i..] &&
      enemies == kept + snapshot[i..]
    }

    /**
     * One turn of the enemy loop, on enemy `i` of the list `snapshot` the loop
     * walks, stated as one Rules.Visit step: the moved enemies, the world and
     * the list of live enemies all advance by that step.
     */
    method VisitEnemy(enemy: Enemy, snapshot: seq<Enemy>, i: nat, ghost es0: seq<EnemyBody>,
                      ghost r: EnemyRound, ghost kept: seq<Enemy>, delta: real)
      requires i < |snapshot| == |es0| && snapshot[i] == enemy && Distinct(snapshot)
      requires |r.moved| == i && enemy !in kept
      requires Stands(snapshot, es0, i, r, kept)
      modifies enemy`x, enemy`y, enemy`velocityY, enemy`direction
      modifies this`enemies, this`score, this`lives, this`over
      modifies player`x, player`y, player`velocityX, player`velocityY
      ensures var m := Meet(r.world, EnemyStep(es0[i], platforms, delta));
              Stands(snapshot, es0, i + 1, Visit(r, es0[i], platforms, delta), KeepAfter(kept, enemy, m.contact))
    {
      ghost var e := EnemyStep(es0[i], platforms, delta);
      ghost var m := Meet(r.world, e);
      MovedTurn(r.moved, es0, i, e);
      assert enemy !in snapshot[i + 1..] by {
        forall k | i + 1 <= k < |snapshot| ensures snapshot[k] != enemy { }
      }
      ListTurn(kept, snapshot, i, m.contact);
      ghost var w := World();
      ghost var list := enemies;
      MoveEnemy(enemy, snapshot, i, delta);
      assert World() == w && enemies == list;
      MeetPlayer(enemy, snapshot);
    }

    /**
     * The enemy loop. It walks the list as it was when the loop started, so
     * every enemy is visited once even when a stomp replaces `enemies` by a
     * filtered copy.
     */
    method UpdateEnemies(delta: real)
      requires Valid()
      modifies this`enemies, this`score, this`lives, this`over
      modifies player`x, player`y, player`velocityX, player`velocityY,
        enemies`x, enemies`y, enemies`velocityY, enemies`direction
      ensures Valid()
      ensures var r := EnemiesPass(old(World()), old(EnemyStates(enemies)), platforms, delta);
              World() == r.world &&
              EnemyStates(old(enemies)) == r.moved &&
              enemies == Survivors(old(enemies), r.contacts)
    {
      var snapshot := enemies;
      ghost var w0 := World();
      ghost var es0 := EnemyStates(snapshot);
      assert es0[0..] == es0 && snapshot[0..] == snapshot;
      EnemyLoop(snapshot, w0, es0, delta);
      SurvivorsDistinct(snapshot, EnemiesPass(w0, es0, platforms, delta).contacts);
    }

    /** The enemy loop seen on the whole snapshot: the enemy phase of a frame. */
    method EnemyStage(delta: real)
      requires Valid()
      modifies this`enemies, this`score, this`lives, this`over
      modifies player`x, player`y, player`velocityX, player`velocityY,
        enemies`x, enemies`y, enemies`velocityY, enemies`direction
      ensures Valid()
      ensures enemies == Survivors(old(enemies), EnemiesPass(old(World()), old(EnemyStates(enemies)), platforms, delta).contacts)
      ensures Snap() == EnemyPhase(old(Snap()), platforms, delta)
    {
      ghost var list := enemies;
      ghost var r := EnemiesPass(World(), EnemyStates(enemies), platforms, delta);
      UpdateEnemies(delta);
      StatesOfSurvivors(list, r.contacts);
    }

    /**
     * One iteration of the enemy loop. When the round `r` and the live list
     * `kept` are those of Rules.EnemiesPass and Rules.Survivors over the first
     * `i` enemies, the next round and list are those over the first `i + 1`.
     */
    method EnemyTurn(snapshot: seq<Enemy>, i: nat, ghost w0: World, ghost es0: seq<EnemyBody>,
                     ghost r: EnemyRound, ghost kept: seq<Enemy>, delta: real)
      returns (ghost next: EnemyRound, ghost kept': seq<Enemy>)
      requires i < |snapshot| == |es0| && Distinct(snapshot)
      requires PassAt(w0, es0, snapshot, platforms, delta, i, r, kept)
      requires Stands(snapshot, es0, i, r, kept)
      modifies snapshot`x, snapshot`y, snapshot`velocityY, snapshot`direction
      modifies this`enemies, this`score, this`lives, this`over
      modifies player`x, player`y, player`velocityX, player`velocityY
      ensures PassAt(w0, es0, snapshot, platforms, delta, i + 1, next, kept')
      ensures Stands(snapshot, es0, i + 1, next, kept')
    {
      PassTurn(w0, es0, snapshot, platforms, delta, i);
      VisitEnemy(snapshot[i], snapshot, i, es0, r, kept, delta);
      next := Visit(r, es0[i], platforms, delta);
      kept' := KeepAfter(kept, snapshot[i], next.contacts[i]);
    }

    /** The loop of UpdateEnemies, over the list as it was when the loop started. */
    method EnemyLoop(snapshot: seq<Enemy>, ghost w0: World, ghost es0: seq<EnemyBody>, delta: real)
      requires |snapshot| == |es0| && Distinct(snapshot)
      requires Stands(snapshot, es0, 0, EnemyRound(w0, [], []), [])
      modifies this`enemies, this`score, this`lives, this`over
      modifies player`x, player`y, player`velocityX, player`velocityY,
        snapshot`x, snapshot`y, snapshot`velocityY, snapshot`direction
      ensures var r := EnemiesPass(w0, es0, platforms, delta);
              World() == r.world && EnemyStates(snapshot) == r.moved &&
              enemies == Survivors(snapshot, r.contacts)
    {
      var i := 0;
      ghost var r := EnemyRound(w0, [], []);
      ghost var kept: seq<Enemy> := [];
      PassStart(w0, es0, snapshot, platforms, delta);
      while i < |snapshot|
        invariant 0 <= i <= |snapshot|
        invariant PassAt(w0, es0, snapshot, platforms, delta, i, r, kept)
        invariant Stands(snapshot, es0, i, r, kept)
      {
        r, kept := EnemyTurn(snapshot, i, w0, es0, r, kept, delta);
        i := i + 1;
      }
      PassEnd(w0, es0, snapshot, platforms, delta, r, kept);
    }

    /** The coin pass stands after the first `i` coins, from world `w0` and coin states `cs0`. */
    ghost predicate PassedCoins(w0: World, cs0: seq<CoinState>, i: nat)
      requires i <= |cs0| == |coins|
      reads this, player, coins
    {
      var r := CoinsPass(w0, cs0[..i]);
      World() == r.world && CoinStates(coins) == r.coins + cs0[i..]
    }

    /** Coin `i` is collected, paying 10, when it is still active and under the player. */
    method TakeCoin(coin: Coin, i: nat)
      requires i < |coins| && coins[i] == coin && Distinct(coins)
      modifies coin`active, this`score
      ensures var c := old(CoinStates(coins))[i];
              var picked := PicksUp(old(World()).player, c);
              && CoinStates(coins) == old(CoinStates(coins))[i := if picked then c.(active := false) else c]
              && World() == if picked then Rules.AddScore(old(World()), CoinReward) else old(World())
    {
      CoinStatesAt(coins);
      ghost var before := CoinStates(coins);
      if coin.active && Intersects(player.GetBounds(), coin.Bounds()) {
        coin.Collect();
        AddScore(CoinReward);
      }
      CoinStatesAt(coins);
      ghost var after := CoinStates(coins);
      assert forall j :: 0 <= j < |coins| && j != i ==> after[j] == before[j];
    }

    /** One turn of the coin loop, stated as one more step of Rules.CoinsPass. */
    method VisitCoin(coin: Coin, i: nat, ghost w0: World, ghost cs0: seq<CoinState>)
      requires i < |cs0| == |coins| && coins[i] == coin && Distinct(coins) && PassedCoins(w0, cs0, i)
      modifies coin`active, this`score
      ensures PassedCoins(w0, cs0, i + 1)
    {
      CoinTurn(w0, cs0, i);
      TakeCoin(coin, i);
    }

    /** The coin pass: the coins are visited in order, each one as Rules.CoinsPass says. */
    method CollectCoins()
      requires Distinct(coins)
      modifies this`score, coins`active
      ensures var r := CoinsPass(old(World()), old(CoinStates(coins)));
              World() == r.world && CoinStates(coins) == r.coins
      ensures Snap() == CoinPhase(old(Snap()))
    {
      ghost var w0 := World();
      ghost var cs0 := CoinStates(coins);
      assert cs0[..0] == [] && cs0[0..] == cs0;
      CoinLoop(w0, cs0);
    }

    /** The coin loop: an active coin under the player is collected and pays 10. */
    method CoinLoop(ghost w0: World, ghost cs0: seq<CoinState>)
      requires |cs0| == |coins| && Distinct(coins) && PassedCoins(w0, cs0, 0)
      modifies this`score, coins`active
      ensures var r := CoinsPass(w0, cs0);
              World() == r.world && CoinStates(coins) == r.coins
    {
      var i := 0;
      while i < |coins|
        invariant 0 <= i <= |coins| && PassedCoins(w0, cs0, i)
      {
        VisitCoin(coins[i], i, w0, cs0);
        i := i + 1;
      }
      assert cs0[..i] == cs0 && cs0[i..] == [];
    }

    /** The player's part of the frame: input, gravity and motion, then the platforms. */
    method MovePlayer(delta: real)
      modifies player`x, player`y, player`velocityX, player`velocityY, player`isOnGround
      ensures Snap() == MovePhase(old(Snap()), player.held, platforms, delta)
    {
      player.Update(delta);
      player.CheckPlatformCollisions(platforms);
    }

    /** Falling below the level costs a life, as a hit does. */
    method CheckFall()
      modifies this`lives, this`over, player`x, player`y, player`velocityX, player`velocityY
      ensures Snap() == FallPhase(old(Snap()))
    {
      if player.y > FallLimit {
        LoseLife();
      }
    }

    /** The first half of a frame: the player moves, then the enemy pass. */
    method MoveAndMeet(delta: real)
      requires Valid()
      modifies this`enemies, this`score, this`lives, this`over
      modifies player`x, player`y, player`velocityX, player`velocityY, player`isOnGround,
        enemies`x, enemies`y, enemies`velocityY, enemies`direction
      ensures Valid()
      ensures var s1 := MovePhase(old(Snap()), player.held, platforms, delta);
              && Snap() == EnemyPhase(s1, platforms, delta)
              && enemies == Survivors(old(enemies), EnemiesPass(s1.world, s1.enemies, platforms, delta).contacts)
    {
      ghost var s1 := MovePhase(Snap(), player.held, platforms, delta);
      MovePlayer(delta);
      assert Snap() == s1;
      EnemyStage(delta);
    }

    /** The second half of a frame: the coin pass, then the fall check. */
    method CollectAndFall()
      requires Valid()
      modifies this`score, this`lives, this`over, coins`active
      modifies player`x, player`y, player`velocityX, player`velocityY
      ensures Valid() && enemies == old(enemies)
      ensures Snap() == FallPhase(CoinPhase(old(Snap())))
    {
      CollectCoins();
      CheckFall();
    }

    /**
     * One frame. The new state is exactly Rules.Step of the old one; the
     * enemy list is the old list minus the stomped enemies, in order.
     */
    method Update(delta: real)
      requires Valid()
      modifies this`enemies, this`score, this`lives, this`over
      modifies player`x, player`y, player`velocityX, player`velocityY, player`isOnGround,
        enemies`x, enemies`y, enemies`velocityY, enemies`direction, coins`active
      ensures Valid()
      ensures Snap() == Step(old(Snap()), player.held, platforms, delta)
      ensures enemies == Survivors(old(enemies), Run(old(Snap()), player.held, platforms, delta).enemies.contacts)
    {
      StepInPhases(Snap(), player.held, platforms, delta);
      MoveAndMeet(delta);
      CollectAndFall();
    }
  }
}
