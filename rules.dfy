/**
 * The per-frame game rules as functions on values: score and lives
 * bookkeeping, stomp versus hit, the enemy pass (move, land, meet the player,
 * one enemy at a time), the coin pass, and the fall-off check. The Game class
 * in module Simulation is proved to follow these functions.
 */
module Rules {
  import opened Geometry
  import opened Platforms
  import opened Coins
  import opened Players
  import opened Enemies

  const SpawnX: real := 100.0
  const SpawnY: real := 523.0
  const FallLimit: real := 700.0
  const StompReward: int := 100
  const CoinReward: int := 10
  const BounceSpeed: real := -10.0
  const StartLives: int := 3

  /** What the game tracks besides the entity lists. `over`: the game-over screen has been entered. */
  datatype World = World(player: Body, score: int, lives: int, over: bool)

  function AddScore(w: World, points: int): World
  {
    w.(score := w.score + points)
  }

  /**
   * One life lost: lives drop by exactly one; if some remain the player is
   * put back at the spawn point at rest, otherwise the game-over state is
   * entered and the player is left where it is. Nothing prevents lives from
   * going below zero on later calls.
   */
  function LoseLife(w: World): (r: World)
    ensures r.lives == w.lives - 1 && r.score == w.score
    ensures r.lives > 0 ==> r.player == Respawn(w.player, SpawnX, SpawnY) && r.over == w.over
    ensures r.lives <= 0 ==> r.player == w.player && r.over
  {
    var lives := w.lives - 1;
    if lives <= 0 then w.(lives := lives, over := true)
    else w.(lives := lives, player := Respawn(w.player, SpawnX, SpawnY))
  }

  /** How a player/enemy meeting ended. */
  datatype Contact = Miss | Stomp | Hit

  datatype Encounter = Encounter(world: World, contact: Contact)

  /**
   * The player meets one (already moved) enemy. An overlap while the player
   * falls and is above the enemy is a stomp: the player bounces, the score
   * goes up by exactly 100 and no life is lost. Any other overlap is a hit
   * and costs exactly one life. No overlap changes nothing.
   */
  function Meet(w: World, e: EnemyBody): (r: Encounter)
    ensures r.contact != Miss <==> Intersects(BodyBounds(w.player), EnemyBounds(e))
    ensures r.contact == Stomp <==>
              Intersects(BodyBounds(w.player), EnemyBounds(e)) && w.player.vy > 0.0 && w.player.y < e.y
    ensures r.contact == Stomp ==>
              r.world == w.(player := w.player.(vy := BounceSpeed), score := w.score + StompReward)
    ensures r.contact == Hit ==> r.world == LoseLife(w)
    ensures r.contact == Miss ==> r.world == w
  {
    if Intersects(BodyBounds(w.player), EnemyBounds(e)) then
      if w.player.vy > 0.0 && w.player.y < e.y then
        Encounter(AddScore(w.(player := w.player.(vy := BounceSpeed)), StompReward), Stomp)
      else
        Encounter(LoseLife(w), Hit)
    else
      Encounter(w, Miss)
  }

  /** Right after a stomp the player rises, so the next enemy met in the same frame cannot be stomped. */
  lemma NoStompRightAfterStomp(w: World, e1: EnemyBody, e2: EnemyBody)
    requires Meet(w, e1).contact == Stomp
    ensures Meet(Meet(w, e1).world, e2).contact != Stomp
  {
  }

  /** An enemy's own part of a frame: patrol, then land on platforms. */
  function EnemyStep(e: EnemyBody, ps: seq<Platform>, delta: real): EnemyBody
  {
    LandAll(Patrol(e, delta), ps)
  }

  function Count(cs: seq<Contact>, c: Contact): (n: nat)
    ensures n <= |cs|
    decreases |cs|
  {
    if cs == [] then 0
    else Count(cs[..|cs| - 1], c) + if cs[|cs| - 1] == c then 1 else 0
  }

  datatype EnemyRound = EnemyRound(world: World, moved: seq<EnemyBody>, contacts: seq<Contact>)

  /** One enemy's turn of the pass: it moves and lands, then meets the player in the world so far. */
  function Visit(r: EnemyRound, e0: EnemyBody, ps: seq<Platform>, delta: real): EnemyRound
  {
    var e := EnemyStep(e0, ps, delta);
    var m := Meet(r.world, e);
    EnemyRound(m.world, r.moved + [e], r.contacts + [m.contact])
  }

  /**
   * The enemy pass: enemies are taken in list order, and each is moved,
   * landed and met by the player before the next one moves.
   */
  function EnemiesPass(w: World, es: seq<EnemyBody>, ps: seq<Platform>, delta: real): (r: EnemyRound)
    ensures |r.moved| == |es| && |r.contacts| == |es|
    decreases |es|
  {
    if es == [] then EnemyRound(w, [], [])
    else
      var n := |es| - 1;
      Visit(EnemiesPass(w, es[..n], ps, delta), es[n], ps, delta)
  }

  /**
   * Every enemy is moved exactly once by the enemy pass; the score rises by
   * exactly 100 per stomp and lives drop by exactly one per hit.
   */
  lemma {:induction false} EnemiesPassAccounting(w: World, es: seq<EnemyBody>, ps: seq<Platform>, delta: real)
    ensures var r := EnemiesPass(w, es, ps, delta);
            && (forall j :: 0 <= j < |es| ==> r.moved[j] == EnemyStep(es[j], ps, delta))
            && r.world.score == w.score + StompReward * Count(r.contacts, Stomp)
            && r.world.lives == w.lives - Count(r.contacts, Hit)
    decreases |es|
  {
    if es != [] {
      var n := |es| - 1;
      var init := es[..n];
      EnemiesPassAccounting(w, init, ps, delta);
      var prev := EnemiesPass(w, init, ps, delta);
      var r := EnemiesPass(w, es, ps, delta);
      assert r.contacts[..n] == prev.contacts;
      forall j | 0 <= j < n
        ensures r.moved[j] == prev.moved[j] && es[j] == init[j]
      {
      }
    }
  }

  /** EnemiesPass over one more enemy: it is moved, then met with the world so far. */
  lemma EnemiesPassExtend(w: World, es: seq<EnemyBody>, ps: seq<Platform>, delta: real, i: nat)
    requires i < |es|
    ensures EnemiesPass(w, es[..i + 1], ps, delta) == Visit(EnemiesPass(w, es[..i], ps, delta), es[i], ps, delta)
  {
    assert es[..i + 1][..i] == es[..i];
  }

  /** The elements whose contact was not a stomp, in their original order. */
  function Survivors<T>(xs: seq<T>, cs: seq<Contact>): (r: seq<T>)
    requires |xs| == |cs|
    ensures |r| == |xs| - Count(cs, Stomp)
    decreases |xs|
  {
    if xs == [] then []
    else
      var n := |xs| - 1;
      Survivors(xs[..n], cs[..n]) + if cs[n] == Stomp then [] else [xs[n]]
  }

  /** The survivors so far after one more element with contact `c`: a stomp drops it. */
  function KeepAfter<T>(kept: seq<T>, x: T, c: Contact): (r: seq<T>)
    ensures c == Stomp ==> r == kept
    ensures c != Stomp ==> |r| == |kept| + 1 && r[..|kept|] == kept && r[|kept|] == x
  {
    if c == Stomp then kept else kept + [x]
  }

  /** Survivors over one more element. */
  lemma SurvivorsExtend<T>(xs: seq<T>, cs: seq<Contact>, i: nat, c: Contact)
    requires i < |xs| && |cs| == i
    ensures Survivors(xs[..i + 1], cs + [c]) == KeepAfter(Survivors(xs[..i], cs), xs[i], c)
  {
    assert xs[..i + 1][..i] == xs[..i];
    assert (cs + [c])[..i] == cs;
  }

  /** The indices of the contacts that were not stomps, in increasing order. */
  function Kept(cs: seq<Contact>): (ix: seq<nat>)
    ensures forall k :: 0 <= k < |ix| ==> ix[k] < |cs| && cs[ix[k]] != Stomp
    decreases |cs|
  {
    if cs == [] then []
    else
      var n := |cs| - 1;
      Kept(cs[..n]) + if cs[n] == Stomp then [] else [n]
  }

  /** The kept indices are increasing, and every contact that was not a stomp is among them. */
  lemma {:induction false} KeptIndices(cs: seq<Contact>)
    ensures forall k, l :: 0 <= k < l < |Kept(cs)| ==> Kept(cs)[k] < Kept(cs)[l]
    ensures forall j :: 0 <= j < |cs| && cs[j] != Stomp ==> j in Kept(cs)
    decreases |cs|
  {
    if cs != [] {
      var n := |cs| - 1;
      KeptIndices(cs[..n]);
      var ix := Kept(cs[..n]);
      assert Kept(cs) == ix + if cs[n] == Stomp then [] else [n];
      forall j | 0 <= j < |cs| && cs[j] != Stomp
        ensures j in Kept(cs)
      {
        if j < n {
          assert cs[..n][j] == cs[j];
        }
      }
    }
  }

  /**
   * Survivors keeps exactly the non-stomped elements, in the original order:
   * its k-th element is the element at the k-th kept index.
   */
  lemma {:induction false} SurvivorsAreKept<T>(xs: seq<T>, cs: seq<Contact>)
    requires |xs| == |cs|
    ensures |Survivors(xs, cs)| == |Kept(cs)|
    ensures forall k :: 0 <= k < |Kept(cs)| ==> Survivors(xs, cs)[k] == xs[Kept(cs)[k]]
    decreases |xs|
  {
    if xs != [] {
      var n := |xs| - 1;
      SurvivorsAreKept(xs[..n], cs[..n]);
      var prev, ix := Survivors(xs[..n], cs[..n]), Kept(cs[..n]);
      assert Survivors(xs, cs) == prev + if cs[n] == Stomp then [] else [xs[n]];
      assert Kept(cs) == ix + if cs[n] == Stomp then [] else [n];
      forall k | 0 <= k < |Kept(cs)|
        ensures Survivors(xs, cs)[k] == xs[Kept(cs)[k]]
      {
        if k < |ix| {
          assert Survivors(xs, cs)[k] == prev[k] == xs[..n][ix[k]];
        }
      }
    }
  }

  /** An element that does not occur in the list does not occur among its survivors. */
  lemma {:induction false} NotInSurvivors<T>(xs: seq<T>, cs: seq<Contact>, x: T)
    requires |xs| == |cs|
    requires forall j :: 0 <= j < |xs| ==> xs[j] != x
    ensures x !in Survivors(xs, cs)
    decreases |xs|
  {
    if xs != [] {
      var n := |xs| - 1;
      NotInSurvivors(xs[..n], cs[..n], x);
    }
  }

  /** An element of a list without repeats is not among the survivors of the elements before it. */
  lemma KeptSoFar<T>(xs: seq<T>, cs: seq<Contact>, i: nat)
    requires i < |xs| && |cs| == i && Distinct(xs)
    ensures xs[i] !in Survivors(xs[..i], cs)
  {
    assert forall k :: 0 <= k < i ==> xs[..i][k] == xs[k] != xs[i];
    NotInSurvivors(xs[..i], cs, xs[i]);
  }

  /**
   * The round `r` and the list `kept` are those of the enemy pass over the
   * first `i` entries: `kept` holds the entries of `xs` not stomped so far.
   */
  ghost predicate PassAt<T>(w: World, es: seq<EnemyBody>, xs: seq<T>, ps: seq<Platform>, delta: real,
                            i: nat, r: EnemyRound, kept: seq<T>)
    requires i <= |xs| == |es|
  {
    r == EnemiesPass(w, es[..i], ps, delta) && kept == Survivors(xs[..i], r.contacts)
  }

  /** Before any turn, the pass has moved nothing and kept nothing. */
  lemma PassStart<T>(w: World, es: seq<EnemyBody>, xs: seq<T>, ps: seq<Platform>, delta: real)
    requires |xs| == |es|
    ensures PassAt(w, es, xs, ps, delta, 0, EnemyRound(w, [], []), [])
  {
    assert es[..0] == [] && xs[..0] == [];
  }

  /**
   * One more turn of the enemy pass over a list without repeats: the round
   * and the survivors over the first `i + 1` entries follow from those over
   * the first `i` by one Visit, and the entry visited is not yet a survivor.
   */
  lemma PassTurn<T>(w: World, es: seq<EnemyBody>, xs: seq<T>, ps: seq<Platform>, delta: real, i: nat)
    requires i < |xs| == |es| && Distinct(xs)
    ensures var r := EnemiesPass(w, es[..i], ps, delta);
            var next := Visit(r, es[i], ps, delta);
            && |r.moved| == i && |next.contacts| == i + 1
            && xs[i] !in Survivors(xs[..i], r.contacts)
            && PassAt(w, es, xs, ps, delta, i + 1, next, KeepAfter(Survivors(xs[..i], r.contacts), xs[i], next.contacts[i]))
  {
    var r := EnemiesPass(w, es[..i], ps, delta);
    EnemiesPassExtend(w, es, ps, delta, i);
    KeptSoFar(xs, r.contacts, i);
    SurvivorsExtend(xs, r.contacts, i, Visit(r, es[i], ps, delta).contacts[i]);
  }

  /** After the last turn, the round and the list are those of the pass over the whole list. */
  lemma PassEnd<T>(w: World, es: seq<EnemyBody>, xs: seq<T>, ps: seq<Platform>, delta: real, r: EnemyRound, kept: seq<T>)
    requires |xs| == |es|
    requires PassAt(w, es, xs, ps, delta, |xs|, r, kept)
    ensures r == EnemiesPass(w, es, ps, delta) && kept == Survivors(xs, r.contacts)
    ensures es[|es|..] == [] && xs[|xs|..] == []
  {
    assert es[..|es|] == es && xs[..|xs|] == xs;
  }

  /**
   * The list the enemy loop keeps, one visit later: before visiting element
   * `i` it holds the survivors so far followed by the unvisited rest; a stomp
   * filters the visited element out, and the result again has that shape.
   */
  lemma ListTurn<T>(kept: seq<T>, xs: seq<T>, i: nat, c: Contact)
    requires i < |xs| && xs[i] !in kept && xs[i] !in xs[i + 1..]
    ensures var before := kept + xs[i..];
            var after := if c == Stomp then Without(before, xs[i]) else before;
            after == KeepAfter(kept, xs[i], c) + xs[i + 1..]
  {
    var rest := xs[i + 1..];
    assert xs[i..] == [xs[i]] + rest;
    assert kept + xs[i..] == kept + [xs[i]] + rest;
    if c == Stomp {
      WithoutSingle(kept, xs[i], rest);
    }
  }

  /** The moved states one visit later: the visited entry is replaced by its new state. */
  lemma MovedTurn<T>(moved: seq<T>, xs: seq<T>, i: nat, e: T)
    requires |moved| == i < |xs|
    ensures (moved + xs[i..])[i] == xs[i]
    ensures (moved + xs[i..])[i := e] == (moved + [e]) + xs[i + 1..]
  {
    var s := moved + xs[i..];
    assert s[i] == xs[i];
    assert s[i := e] == (moved + [e]) + xs[i + 1..];
  }

  /** No element occurs twice. */
  ghost predicate Distinct<T>(s: seq<T>)
  {
    forall i, j :: 0 <= i < j < |s| ==> s[i] != s[j]
  }

  /** Survivors come from the list, and distinct elements stay distinct after dropping the stomped ones. */
  lemma SurvivorsDistinct<T>(xs: seq<T>, cs: seq<Contact>)
    requires |xs| == |cs| && Distinct(xs)
    ensures var r := Survivors(xs, cs); forall k :: 0 <= k < |r| ==> r[k] in xs
    ensures Distinct(Survivors(xs, cs))
  {
    SurvivorsAreKept(xs, cs);
  }

  /** `filter(e => e !== x)`: every occurrence of `x` removed, the rest kept in order. */
  function Without<T(==)>(s: seq<T>, x: T): (r: seq<T>)
    ensures x !in r && |r| <= |s|
    decreases |s|
  {
    if s == [] then []
    else (if s[0] == x then [] else [s[0]]) + Without(s[1..], x)
  }

  /** What the filter keeps: exactly the elements of the list other than `x`. */
  lemma {:induction false} WithoutMember<T>(s: seq<T>, x: T, y: T)
    ensures y in Without(s, x) <==> y in s && y != x
    decreases |s|
  {
    if s != [] {
      WithoutMember(s[1..], x, y);
      assert s == [s[0]] + s[1..];
    }
  }

  /** Removing an element that occurs once leaves the rest of the list as it was. */
  lemma {:induction false} WithoutSingle<T>(s: seq<T>, x: T, t: seq<T>)
    requires x !in s && x !in t
    ensures Without(s + [x] + t, x) == s + t
    decreases |s|
  {
    if s == [] {
      assert ([x] + t)[1..] == t;
      WithoutAbsent(t, x);
    } else {
      assert (s + [x] + t)[1..] == s[1..] + [x] + t;
      WithoutSingle(s[1..], x, t);
    }
  }

  lemma {:induction false} WithoutAbsent<T>(s: seq<T>, x: T)
    requires x !in s
    ensures Without(s, x) == s
    decreases |s|
  {
    if s != [] {
      WithoutAbsent(s[1..], x);
    }
  }

  // ---------------------------------------------------------------------
  // Coins
  // ---------------------------------------------------------------------

  function ActiveCount(cs: seq<CoinState>): (n: nat)
    ensures n <= |cs|
    decreases |cs|
  {
    if cs == [] then 0
    else ActiveCount(cs[..|cs| - 1]) + if cs[|cs| - 1].active then 1 else 0
  }

  datatype CoinRound = CoinRound(world: World, coins: seq<CoinState>)

  /** Whether the player picks up coin `c`: it is still active and the boxes overlap. */
  predicate PicksUp(b: Body, c: CoinState)
  {
    c.active && Intersects(BodyBounds(b), c.Bounds())
  }

  /**
   * The coin pass, in list order: each coin still active and under the
   * player is collected and pays 10. The list is never shortened.
   */
  function CoinsPass(w: World, cs: seq<CoinState>): (r: CoinRound)
    ensures |r.coins| == |cs|
    decreases |cs|
  {
    if cs == [] then CoinRound(w, [])
    else
      var n := |cs| - 1;
      var prev := CoinsPass(w, cs[..n]);
      var c := cs[n];
      if PicksUp(prev.world.player, c) then
        CoinRound(AddScore(prev.world, CoinReward), prev.coins + [c.(active := false)])
      else
        CoinRound(prev.world, prev.coins + [c])
  }

  /**
   * The coin pass in closed form. Each coin is collected exactly when it is
   * active and overlaps the player; collecting makes it inactive and adds
   * exactly 10. Positions never change.
   */
  lemma {:induction false} CoinsPassCollects(w: World, cs: seq<CoinState>)
    ensures var r := CoinsPass(w, cs);
            && r.world == w.(score := r.world.score)
            && (forall j :: 0 <= j < |cs| ==>
                  r.coins[j].x == cs[j].x && r.coins[j].y == cs[j].y &&
                  r.coins[j].active == (cs[j].active && !PicksUp(w.player, cs[j])))
            && ActiveCount(r.coins) <= ActiveCount(cs)
            && r.world.score == w.score + CoinReward * (ActiveCount(cs) - ActiveCount(r.coins))
    decreases |cs|
  {
    if cs != [] {
      var n := |cs| - 1;
      var init := cs[..n];
      CoinsPassCollects(w, init);
      var prev := CoinsPass(w, init);
      var r := CoinsPass(w, cs);
      assert r.world == w.(score := r.world.score);
      assert r.coins == prev.coins + [r.coins[n]];
      CoinsPassCoins(w, cs, prev.coins, r.coins);
      assert r.coins[..n] == prev.coins;
      assert ActiveCount(r.coins) == ActiveCount(prev.coins) + if r.coins[n].active then 1 else 0;
    }
  }

  lemma CoinsPassCoins(w: World, cs: seq<CoinState>, prev: seq<CoinState>, r: seq<CoinState>)
    requires |cs| > 0 && |prev| == |cs| - 1 && |r| == |cs| && r[..|cs| - 1] == prev
    requires forall j :: 0 <= j < |cs| - 1 ==>
               prev[j].x == cs[j].x && prev[j].y == cs[j].y &&
               prev[j].active == (cs[j].active && !PicksUp(w.player, cs[j]))
    requires var n := |cs| - 1;
             r[n].x == cs[n].x && r[n].y == cs[n].y && r[n].active == (cs[n].active && !PicksUp(w.player, cs[n]))
    ensures forall j :: 0 <= j < |cs| ==>
              r[j].x == cs[j].x && r[j].y == cs[j].y &&
              r[j].active == (cs[j].active && !PicksUp(w.player, cs[j]))
  {
  }

  /** CoinsPass over one more coin: the next coin is handled against the world so far. */
  lemma CoinsPassExtend(w: World, cs: seq<CoinState>, i: nat)
    requires i < |cs|
    ensures var prev := CoinsPass(w, cs[..i]);
            CoinsPass(w, cs[..i + 1]) ==
              if PicksUp(prev.world.player, cs[i])
              then CoinRound(AddScore(prev.world, CoinReward), prev.coins + [cs[i].(active := false)])
              else CoinRound(prev.world, prev.coins + [cs[i]])
  {
    assert cs[..i + 1][..i] == cs[..i];
  }

  /** One turn of the coin pass, in the shape the coin loop keeps. */
  lemma CoinTurn(w: World, cs: seq<CoinState>, i: nat)
    requires i < |cs|
    ensures var prev := CoinsPass(w, cs[..i]);
            var next := CoinsPass(w, cs[..i + 1]);
            var picked := PicksUp(prev.world.player, cs[i]);
            && (prev.coins + cs[i..])[i] == cs[i]
            && next.world == (if picked then AddScore(prev.world, CoinReward) else prev.world)
            && (prev.coins + cs[i..])[i := if picked then cs[i].(active := false) else cs[i]]
               == next.coins + cs[i + 1..]
  {
    var prev := CoinsPass(w, cs[..i]);
    CoinsPassExtend(w, cs, i);
    var c := if PicksUp(prev.world.player, cs[i]) then cs[i].(active := false) else cs[i];
    assert (prev.coins + cs[i..])[i := c] == prev.coins + [c] + cs[i + 1..];
  }

  // ---------------------------------------------------------------------
  // The whole frame
  // ---------------------------------------------------------------------

  /** The fall-off check: below y = 700 costs one life. */
  function FallCheck(w: World): World
  {
    if w.player.y > FallLimit then LoseLife(w) else w
  }

  /** The state the frame reads and writes, as values. */
  datatype Snapshot = Snapshot(world: World, enemies: seq<EnemyBody>, coins: seq<CoinState>)

  /** The intermediate results of one frame. */
  datatype Trace = Trace(afterPlatforms: World, enemies: EnemyRound, coins: CoinRound, final: World)

  /**
   * One frame in the source's order: move the player, resolve it against the
   * platforms, run the enemy pass, run the coin pass, then check for a fall.
   */
  function Run(s: Snapshot, held: set<string>, ps: seq<Platform>, delta: real): Trace
  {
    var p := CheckPlatforms(Advance(s.world.player, held, delta), ps);
    var w1 := s.world.(player := p);
    var er := EnemiesPass(w1, s.enemies, ps, delta);
    var cr := CoinsPass(er.world, s.coins);
    Trace(w1, er, cr, FallCheck(cr.world))
  }

  /** The snapshot after one frame; stomped enemies are dropped from the list. */
  function Step(s: Snapshot, held: set<string>, ps: seq<Platform>, delta: real): Snapshot
  {
    var t := Run(s, held, ps, delta);
    Snapshot(t.final, Survivors(t.enemies.moved, t.enemies.contacts), t.coins.coins)
  }

  /** The four phases of a frame, each on a snapshot. */
  function MovePhase(s: Snapshot, held: set<string>, ps: seq<Platform>, delta: real): Snapshot
  {
    s.(world := s.world.(player := CheckPlatforms(Advance(s.world.player, held, delta), ps)))
  }

  function EnemyPhase(s: Snapshot, ps: seq<Platform>, delta: real): Snapshot
  {
    var r := EnemiesPass(s.world, s.enemies, ps, delta);
    Snapshot(r.world, Survivors(r.moved, r.contacts), s.coins)
  }

  function CoinPhase(s: Snapshot): Snapshot
  {
    var r := CoinsPass(s.world, s.coins);
    Snapshot(r.world, s.enemies, r.coins)
  }

  function FallPhase(s: Snapshot): Snapshot
  {
    s.(world := FallCheck(s.world))
  }

  /** A frame is its four phases in order; the enemy phase's contacts are the trace's. */
  lemma StepInPhases(s: Snapshot, held: set<string>, ps: seq<Platform>, delta: real)
    ensures var s1 := MovePhase(s, held, ps, delta);
            && Step(s, held, ps, delta) == FallPhase(CoinPhase(EnemyPhase(s1, ps, delta)))
            && Run(s, held, ps, delta).enemies == EnemiesPass(s1.world, s1.enemies, ps, delta)
  {
  }

  function Fell(t: Trace): nat
  {
    if t.coins.world.player.y > FallLimit then 1 else 0
  }

  /**
   * Score and lives over a frame: the score rises by exactly 100 per stomp
   * plus 10 per collected coin, so it never decreases; lives drop by exactly
   * one per hit plus one for a fall.
   */
  lemma FrameAccounting(s: Snapshot, held: set<string>, ps: seq<Platform>, delta: real)
    ensures var t := Run(s, held, ps, delta);
            var s' := Step(s, held, ps, delta);
            && s'.world.score == s.world.score + StompReward * Count(t.enemies.contacts, Stomp)
                                  + CoinReward * (ActiveCount(s.coins) - ActiveCount(s'.coins))
            && s'.world.score >= s.world.score
            && s'.world.lives == s.world.lives - Count(t.enemies.contacts, Hit) - Fell(t)
  {
    var t := Run(s, held, ps, delta);
    CoinsPassCollects(t.enemies.world, s.coins);
    EnemiesPassAccounting(t.afterPlatforms, s.enemies, ps, delta);
  }

  /**
   * Coins over a frame: the list keeps its length and positions, and a coin
   * can only go from active to inactive, never back.
   */
  lemma CoinsOnlyDeactivate(s: Snapshot, held: set<string>, ps: seq<Platform>, delta: real)
    ensures var s' := Step(s, held, ps, delta);
            |s'.coins| == |s.coins| && ActiveCount(s'.coins) <= ActiveCount(s.coins) &&
            forall j :: 0 <= j < |s.coins| ==>
              s'.coins[j].x == s.coins[j].x && s'.coins[j].y == s.coins[j].y &&
              (s'.coins[j].active ==> s.coins[j].active)
  {
    var t := Run(s, held, ps, delta);
    CoinsPassCollects(t.enemies.world, s.coins);
  }

  /**
   * Enemies over a frame: every listed enemy is moved exactly once, and the
   * new list is the moved enemies minus the stomped ones, in the original order.
   */
  lemma EnemiesAfterFrame(s: Snapshot, held: set<string>, ps: seq<Platform>, delta: real)
    ensures var t := Run(s, held, ps, delta);
            var s' := Step(s, held, ps, delta);
            |s'.enemies| == |s.enemies| - Count(t.enemies.contacts, Stomp) &&
            |Kept(t.enemies.contacts)| == |s'.enemies| &&
            forall k :: 0 <= k < |s'.enemies| ==>
              s'.enemies[k] == EnemyStep(s.enemies[Kept(t.enemies.contacts)[k]], ps, delta)
  {
    var t := Run(s, held, ps, delta);
    SurvivorsAreKept(t.enemies.moved, t.enemies.contacts);
    EnemiesPassAccounting(t.afterPlatforms, s.enemies, ps, delta);
  }

  /** What happens between two frames and the frame's own input: key presses, then the held keys and delta. */
  datatype Input = Input(pressed: seq<string>, held: set<string>, delta: real)

  /** Key presses between frames, in order. */
  function PressKeys(b: Body, keys: seq<string>): Body
    decreases |keys|
  {
    if keys == [] then b else PressKeys(KeyDown(b, keys[0]), keys[1..])
  }

  function BeforeFrame(s: Snapshot, i: Input): Snapshot
  {
    s.(world := s.world.(player := PressKeys(s.world.player, i.pressed)))
  }

  /** A session: frame after frame, each preceded by its key presses. */
  function Session(s: Snapshot, inputs: seq<Input>, ps: seq<Platform>): Snapshot
    decreases |inputs|
  {
    if inputs == [] then s
    else
      var n := |inputs| - 1;
      var i := inputs[n];
      Step(BeforeFrame(Session(s, inputs[..n], ps), i), i.held, ps, i.delta)
  }

  /** The number of stomps over a session. */
  function SessionStomps(s: Snapshot, inputs: seq<Input>, ps: seq<Platform>): nat
    decreases |inputs|
  {
    if inputs == [] then 0
    else
      var n := |inputs| - 1;
      var i := inputs[n];
      var t := Run(BeforeFrame(Session(s, inputs[..n], ps), i), i.held, ps, i.delta);
      SessionStomps(s, inputs[..n], ps) + Count(t.enemies.contacts, Stomp)
  }

  /**
   * Over a whole session the score never decreases and grows by exactly 100
   * per stomp plus 10 per coin that went inactive, so coins pay at most 10
   * each: a coin cannot be collected twice.
   */
  lemma {:induction false} SessionScore(s: Snapshot, inputs: seq<Input>, ps: seq<Platform>)
    ensures var s' := Session(s, inputs, ps);
            && |s'.coins| == |s.coins|
            && ActiveCount(s'.coins) <= ActiveCount(s.coins)
            && s'.world.score == s.world.score + StompReward * SessionStomps(s, inputs, ps)
                                   + CoinReward * (ActiveCount(s.coins) - ActiveCount(s'.coins))
            && s.world.score <= s'.world.score
            && s'.world.score - s.world.score - StompReward * SessionStomps(s, inputs, ps) <= CoinReward * |s.coins|
    decreases |inputs|
  {
    if inputs != [] {
      var n := |inputs| - 1;
      var i := inputs[n];
      var mid := Session(s, inputs[..n], ps);
      var s1 := BeforeFrame(mid, i);
      SessionScore(s, inputs[..n], ps);
      FrameAccounting(s1, i.held, ps, i.delta);
      CoinsOnlyDeactivate(s1, i.held, ps, i.delta);
      assert s1.coins == mid.coins && s1.world.score == mid.world.score;
      assert Session(s, inputs, ps) == Step(s1, i.held, ps, i.delta);
      assert SessionStomps(s, inputs, ps) ==
        SessionStomps(s, inputs[..n], ps) + Count(Run(s1, i.held, ps, i.delta).enemies.contacts, Stomp);
    }
  }

  /** Two worlds that differ at most in the game-over flag. */
  predicate SameButOver(w1: World, w2: World)
  {
    w1.(over := false) == w2.(over := false)
  }

  /** The enemy pass never reads the game-over flag. */
  lemma {:induction false} EnemiesPassIgnoresOver(w1: World, w2: World, es: seq<EnemyBody>, ps: seq<Platform>, delta: real)
    requires SameButOver(w1, w2)
    ensures var r1 := EnemiesPass(w1, es, ps, delta);
            var r2 := EnemiesPass(w2, es, ps, delta);
            SameButOver(r1.world, r2.world) && r1.moved == r2.moved && r1.contacts == r2.contacts
    decreases |es|
  {
    if es != [] {
      EnemiesPassIgnoresOver(w1, w2, es[..|es| - 1], ps, delta);
    }
  }

  /** The coin pass never reads the game-over flag. */
  lemma {:induction false} CoinsPassIgnoresOver(w1: World, w2: World, cs: seq<CoinState>)
    requires SameButOver(w1, w2)
    ensures var r1 := CoinsPass(w1, cs);
            var r2 := CoinsPass(w2, cs);
            SameButOver(r1.world, r2.world) && r1.coins == r2.coins
    decreases |cs|
  {
    if cs != [] {
      CoinsPassIgnoresOver(w1, w2, cs[..|cs| - 1]);
    }
  }

  /**
   * There is no guard after game over: the player, score, lives, enemies and
   * coins after a frame are the same whether or not the frame starts in the
   * game-over state.
   */
  lemma GameOverIsNotRead(s: Snapshot, over: bool, held: set<string>, ps: seq<Platform>, delta: real)
    ensures var s1 := Step(s, held, ps, delta);
            var s2 := Step(s.(world := s.world.(over := over)), held, ps, delta);
            SameButOver(s1.world, s2.world) && s1.enemies == s2.enemies && s1.coins == s2.coins
  {
    var t1 := Run(s, held, ps, delta);
    var t2 := Run(s.(world := s.world.(over := over)), held, ps, delta);
    EnemiesPassIgnoresOver(t1.afterPlatforms, t2.afterPlatforms, s.enemies, ps, delta);
    CoinsPassIgnoresOver(t1.enemies.world, t2.enemies.world, s.coins);
  }

  /**
   * One example of the above: a frame that starts in the game-over state
   * still runs, and a fall takes lives below zero.
   */
  lemma GameOverDoesNotStop()
    ensures var s := Snapshot(World(Body(100.0, 800.0, 0.0, 0.0, false), 0, 0, true), [], []);
            var s' := Step(s, {}, [], 1.0);
            s'.world.lives == -1 && s'.world.player.y > s.world.player.y
  {
  }
}
