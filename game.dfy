/** The state of one game and the steps of a frame (navex.py, game_loop).

    The local variables of `game_loop` become the fields of `Game`.  The
    list holds values; the source's `player`, `red`, `blue`, `green` and
    `yellow` refer to the first five entries, which stay in place because
    the player is first, towers never die and pruning keeps the order. */
module Game {
  import opened Objects
  import opened Input
  import opened Spawner
  import opened Collision
  import opened Pruning
  import Scoring

  /** The player first, then the red, blue, green and yellow towers. */
  predicate LayoutOf(s: seq<Gobj>)
  {
    && |s| > YellowIx
    && s[PlayerIx].gtype == Player
    && s[RedIx].gtype == Tower && s[BlueIx].gtype == Tower
    && s[GreenIx].gtype == Tower && s[YellowIx].gtype == Tower
  }

  /** If the player survives the pass, pruning leaves the player and the
      towers at the front of the list, and only live objects behind them. */
  lemma NextFrameLayout(s: seq<Gobj>, score: int)
    requires LayoutOf(s)
    requires forall k :: RedIx <= k <= YellowIx ==> s[k].alive
    requires Pass(s, score).objs[PlayerIx].alive
    ensures LayoutOf(Prune(Pass(s, score).objs))
    ensures Prune(Pass(s, score).objs)[PlayerIx] == Pass(s, score).objs[PlayerIx]
  {
    var passed := Pass(s, score).objs;
    RowsEvolves(PassState(s, score), |s|);
    forall k | RedIx <= k <= YellowIx
      ensures passed[k].alive
    {
      TowerSurvives(s, score, k);
    }
    LivePrefixKept(passed, YellowIx + 1);
    var r := Prune(passed);
    assert r[..YellowIx + 1] == passed[..YellowIx + 1];
    forall k | 0 <= k <= YellowIx
      ensures r[k] == passed[k] && r[k].gtype == s[k].gtype
    {
      assert r[k] == r[..YellowIx + 1][k];
    }
  }

  /** The obstacles of radius 20 at the positions drawn for them, in order. */
  function ObstacleList(ps: seq<(int, int)>): (r: seq<Gobj>)
    ensures |r| == |ps|
    ensures forall k :: 0 <= k < |r| ==>
      && r[k].gtype == Obstacle && r[k].alive && r[k].radius == 20.0
      && r[k].x == ps[k].0 as real && r[k].y == ps[k].1 as real
  {
    if ps == [] then []
    else
      var p := ps[|ps| - 1];
      ObstacleList(ps[..|ps| - 1]) + [NewGobj(p.0 as real, p.1 as real, 20.0, "gray90", Obstacle)]
  }

  /** The list before the first frame: the player of radius 10 in the
      middle of a winW x winH window, a tower of radius 10 in each corner
      and the obstacles behind them. */
  function InitialObjects(winW: int, winH: int, obstacles: seq<(int, int)>): (r: seq<Gobj>)
    ensures LayoutOf(r) && |r| == 5 + |obstacles|
    ensures forall k :: 0 <= k < |r| ==> r[k].alive
    ensures r[PlayerIx].x == (winW / 2) as real && r[PlayerIx].y == (winH / 2) as real
    ensures forall k :: 0 <= k <= YellowIx ==> r[k].radius == 10.0
    ensures r[RedIx].x == 10.0 && r[RedIx].y == 10.0
    ensures r[BlueIx].x == (winW - 10) as real && r[BlueIx].y == (winH - 10) as real
    ensures r[GreenIx].x == 10.0 && r[GreenIx].y == (winH - 10) as real
    ensures r[YellowIx].x == (winW - 10) as real && r[YellowIx].y == 10.0
    ensures r[5..] == ObstacleList(obstacles)
  {
    var player := NewGobj((winW / 2) as real, (winH / 2) as real, 10.0, "deeppink", Player);
    var red := NewGobj(10.0, 10.0, 10.0, "red", Tower);
    var blue := NewGobj((winW - 10) as real, (winH - 10) as real, 10.0, "cyan", Tower);
    var green := NewGobj(10.0, (winH - 10) as real, 10.0, "green", Tower);
    var yellow := NewGobj((winW - 10) as real, 10.0, 10.0, "yellow", Tower);
    [player, red, blue, green, yellow] + ObstacleList(obstacles)
  }

  /** With an obstacle drawn on the player's starting point and the
      spawner disabled, the first frame in which the player does not move
      ends the game with a score of 0. */
  lemma StartOnObstacleEndsFirstFrame(winW: int, winH: int, obstacles: seq<(int, int)>,
                                      last: int, th: Throttle, input: FrameInput)
    requires |obstacles| > 0 && obstacles[0] == (winW / 2, winH / 2)
    requires th.missilesInFlight >= th.maxMissiles
    requires input.keys == Keys(false, false, false, false)
    ensures var r := Frame(World(InitialObjects(winW, winH, obstacles), 0, true, last), th, input);
      !r.run && r.score == 0
  {
    var s := InitialObjects(winW, winH, obstacles);
    assert s[5] == ObstacleList(obstacles)[0];
    var w := World(s, 0, true, last);
    assert w.objs[PlayerIx := Moved(w.objs[PlayerIx], input.keys, input.dt)] == s;
    assert Spawn(s, last, th, input.tick).objs == s;
    assert Dist2(s[PlayerIx], s[5]) == 0.0;
    assert Collides(s[PlayerIx], s[5]);
    MobileDiesOnAnyContact(s, 0, PlayerIx);
    Scoring.NoMissileNoScore(s, 0);
  }

  /** The state the frame loop carries from one frame to the next. */
  datatype World = World(objs: seq<Gobj>, score: int, run: bool, last: int)

  /** What one frame reads from outside: a polled quit event, the keys,
      the frame time in seconds and the spawner's clock and colour. */
  datatype FrameInput = FrameInput(quit: bool, keys: Keys, dt: real, tick: SpawnTick)

  /** One frame of the loop, without drawing and without the `update`
      step (missiles keep their positions, towers their zero velocity):
      quit check, player input, spawner, collision pass, player check and
      pruning, in the source's order.  A frame never raises a stopped game
      and never lowers the score. */
  function Frame(w: World, th: Throttle, input: FrameInput): (r: World)
    requires LayoutOf(w.objs)
    ensures r.run ==> w.run && !input.quit
    ensures r.score >= w.score
  {
    var moved := w.objs[PlayerIx := Moved(w.objs[PlayerIx], input.keys, input.dt)];
    var spawned := Spawn(moved, w.last, th, input.tick);
    var passed := Pass(spawned.objs, w.score);
    var run := w.run && !input.quit && passed.objs[PlayerIx].alive;
    World(Prune(passed.objs), passed.score, run, spawned.last)
  }

  /** A running game stays well formed: after a frame that did not end it,
      the player and the towers are still at the front and every object in
      the list is alive. */
  lemma FrameKeepsLayout(w: World, th: Throttle, input: FrameInput)
    requires LayoutOf(w.objs) && forall k :: 0 <= k < |w.objs| ==> w.objs[k].alive
    ensures var r := Frame(w, th, input);
      r.run ==> LayoutOf(r.objs) && forall k :: 0 <= k < |r.objs| ==> r.objs[k].alive
  {
    var moved := w.objs[PlayerIx := Moved(w.objs[PlayerIx], input.keys, input.dt)];
    var spawned := Spawn(moved, w.last, th, input.tick);
    assert spawned.objs[..|moved|] == moved;
    forall k | 0 <= k <= YellowIx
      ensures spawned.objs[k] == moved[k]
    {
      assert spawned.objs[k] == spawned.objs[..|moved|][k];
    }
    if Frame(w, th, input).run {
      NextFrameLayout(spawned.objs, w.score);
    }
  }

  /** The score of a frame grows by one point per missile for each other
      non-tower object it overlaps after the spawner ran; it never falls. */
  lemma FrameScore(w: World, th: Throttle, input: FrameInput)
    requires LayoutOf(w.objs)
    ensures var moved := w.objs[PlayerIx := Moved(w.objs[PlayerIx], input.keys, input.dt)];
      Frame(w, th, input).score == w.score + Scoring.MissileCredit(Spawn(moved, w.last, th, input.tick).objs)
    ensures Frame(w, th, input).score >= w.score
  {
    var moved := w.objs[PlayerIx := Moved(w.objs[PlayerIx], input.keys, input.dt)];
    Scoring.PassScore(Spawn(moved, w.last, th, input.tick).objs, w.score);
  }

  /** With the in-flight counter not below the maximum (a maximum of 0 or
      less, since the counter stays 0), a frame over a list without
      missiles leaves a list without missiles and the score unchanged. */
  lemma SaturatedFrameAddsNoMissile(w: World, th: Throttle, input: FrameInput)
    requires LayoutOf(w.objs)
    requires forall k :: 0 <= k < |w.objs| ==> w.objs[k].gtype != Missile
    requires th.missilesInFlight >= th.maxMissiles
    ensures var r := Frame(w, th, input);
      r.score == w.score && forall k :: 0 <= k < |r.objs| ==> r.objs[k].gtype != Missile
  {
    var moved := w.objs[PlayerIx := Moved(w.objs[PlayerIx], input.keys, input.dt)];
    var spawned := Spawn(moved, w.last, th, input.tick).objs;
    assert spawned == spawned[..|moved|] == moved;
    var passed := Pass(spawned, w.score).objs;
    RowsEvolves(PassState(spawned, w.score), |spawned|);
    Scoring.NoMissileNoScore(spawned, w.score);
    forall k | 0 <= k < |Prune(passed)|
      ensures Prune(passed)[k].gtype != Missile
    {
      PruneMembers(passed, Prune(passed)[k]);
    }
  }

  /** The game ends in a frame exactly when a quit event arrives or the
      player overlaps another object that is not a tower. */
  lemma FrameEndsOnQuitOrContact(w: World, th: Throttle, input: FrameInput)
    requires LayoutOf(w.objs) && w.run
    requires forall k :: 0 <= k < |w.objs| ==> w.objs[k].alive
    ensures var moved := w.objs[PlayerIx := Moved(w.objs[PlayerIx], input.keys, input.dt)];
      var s := Spawn(moved, w.last, th, input.tick).objs;
      !Frame(w, th, input).run <==>
        input.quit ||
        exists q :: 0 <= q < |s| && q != PlayerIx && s[q].gtype != Tower && Collides(s[PlayerIx], s[q])
  {
    var moved := w.objs[PlayerIx := Moved(w.objs[PlayerIx], input.keys, input.dt)];
    var s := Spawn(moved, w.last, th, input.tick).objs;
    assert s[PlayerIx] == s[..|moved|][PlayerIx];
    MobileDiesOnAnyContact(s, w.score, PlayerIx);
  }

  class Game {
    var objs: seq<Gobj>
    var score: int
    var run: bool
    var timeLastMissile: int
    /** Compared against `maxMissiles`, but never changed after the start. */
    var missilesInFlight: int
    const maxMissiles: int
    const missileTimer: int

    /** The player and the four towers at their fixed positions. */
    ghost predicate Layout()
      reads this
    {
      LayoutOf(objs)
    }

    /** Between frames of a running game: the layout holds and every
        object in the list is alive. */
    ghost predicate Valid()
      reads this
    {
      Layout() && forall k :: 0 <= k < |objs| ==> objs[k].alive
    }

    function Limits(): Throttle
      reads this
    {
      Throttle(missilesInFlight, maxMissiles, missileTimer)
    }

    /** The set-up before the frame loop: the player in the middle of a
        winW x winH window, a tower in each corner and four obstacles of
        radius 20 at the randomly drawn positions `obstacles`. */
    constructor (winW: int, winH: int, maxMissiles: int, missileTimer: int,
                 startTicks: int, obstacles: seq<(int, int)>)
      requires |obstacles| == 4
      ensures Valid() && run
      ensures objs == InitialObjects(winW, winH, obstacles) && score == 0
      ensures timeLastMissile == startTicks && missilesInFlight == 0
      ensures this.maxMissiles == maxMissiles && this.missileTimer == missileTimer
    {
      this.maxMissiles := maxMissiles;
      this.missileTimer := missileTimer;
      var player := NewGobj((winW / 2) as real, (winH / 2) as real, 10.0, "deeppink", Player);
      var red := NewGobj(10.0, 10.0, 10.0, "red", Tower);
      var blue := NewGobj((winW - 10) as real, (winH - 10) as real, 10.0, "cyan", Tower);
      var yellow := NewGobj((winW - 10) as real, 10.0, 10.0, "yellow", Tower);
      var green := NewGobj(10.0, (winH - 10) as real, 10.0, "green", Tower);
      timeLastMissile := startTicks;
      missilesInFlight := 0;
      var list := [player, red, blue, green, yellow];
      score := 0;
      for i := 0 to 4
        invariant list == [player, red, blue, green, yellow] + ObstacleList(obstacles[..i])
      {
        var obstacle := NewGobj(obstacles[i].0 as real, obstacles[i].1 as real, 20.0, "gray90", Obstacle);
        assert obstacles[..i + 1][..i] == obstacles[..i];
        list := list + [obstacle];
      }
      assert obstacles[..4] == obstacles;
      objs := list;
      run := true;
    }

    /** `player.handle_input(keys, dt)`: pick the direction, then move the
        player along it when it is not zero. */
    method HandleInput(keys: Keys, dt: real)
      requires Layout()
      modifies this`objs
      ensures objs == old(objs)[PlayerIx := Moved(old(objs)[PlayerIx], keys, dt)]
      ensures Layout()
    {
      var mx := 0;
      var my := 0;
      if keys.a {
        mx := -1;
      } else if keys.d {
        mx := 1;
      }
      if keys.w {
        my := -1;
      } else if keys.s {
        my := 1;
      }
      assert Intention(keys) == Intent(mx, my);
      var p := objs[PlayerIx];
      if mx != 0 || my != 0 {
        objs := objs[PlayerIx := p.(x := p.x + Unit(mx, my) * PlayerVel * dt,
                                    y := p.y + Unit(my, mx) * PlayerVel * dt)];
      }
      assert objs[PlayerIx] == Moved(p, keys, dt);
    }

    /** The spawner block: with the counter below the maximum and more
        than `missileTimer` ms since the last spawn, append one missile on
        the tower the colour letter picks and restart the timer. */
    method SpawnMissile(now: int, resetAt: int, choice: char)
      requires Layout()
      modifies this`objs, this`timeLastMissile
      ensures Spawned(objs, timeLastMissile) ==
        Spawn(old(objs), old(timeLastMissile), Limits(), SpawnTick(now, resetAt, choice))
      ensures Layout()
    {
      if missilesInFlight < maxMissiles {
        if now - timeLastMissile > missileTimer {
          if choice == 'r' {
            objs := objs + [NewGobj(objs[RedIx].x, objs[RedIx].y, MissileRadius, "red", Missile)];
          } else if choice == 'b' {
            objs := objs + [NewGobj(objs[BlueIx].x, objs[BlueIx].y, MissileRadius, "cyan", Missile)];
          } else if choice == 'g' {
            objs := objs + [NewGobj(objs[GreenIx].x, objs[GreenIx].y, MissileRadius, "green", Missile)];
          } else {
            objs := objs + [NewGobj(objs[YellowIx].x, objs[YellowIx].y, MissileRadius, "yellow", Missile)];
          }
          timeLastMissile := resetAt;
        }
      }
    }

    /** The nested loops over all pairs i < j: towers are skipped, an
        overlapping pair is resolved by the kinds of its members, and each
        missile in it adds a point. */
    method ResolveCollisions()
      modifies this`objs, this`score
      ensures PassState(objs, score) == Pass(old(objs), old(score))
      ensures Evolves(old(PassState(objs, score)), PassState(objs, score))
    {
      ghost var start := PassState(objs, score);
      var n := |objs|;
      for i := 0 to n
        invariant PassState(objs, score) == Rows(start, i)
        invariant |objs| == n
      {
        if objs[i].gtype == Tower {
          continue;
        }
        ResolveRow(i);
      }
      RowsEvolves(start, n);
    }

    /** The inner loop of the collision pass for one non-tower `i`. */
    method ResolveRow(i: nat)
      requires i < |objs| && objs[i].gtype != Tower
      modifies this`objs, this`score
      ensures PassState(objs, score) == Row(old(PassState(objs, score)), i, |old(objs)|)
    {
      ghost var start := PassState(objs, score);
      var n := |objs|;
      for j := i + 1 to n
        invariant PassState(objs, score) == Row(start, i, j)
        invariant |objs| == n
      {
        ghost var before := PassState(objs, score);
        if Collides(objs[i], objs[j]) {
          if objs[j].gtype == Tower {
            continue;
          } else if objs[i].gtype == Obstacle {
            objs := objs[j := objs[j].(alive := false)];
          } else if objs[j].gtype == Obstacle {
            objs := objs[i := objs[i].(alive := false)];
          } else {
            objs := objs[i := objs[i].(alive := false)];
            objs := objs[j := objs[j].(alive := false)];
          }
          if objs[i].gtype == Missile {
            score := score + 1;
          }
          if objs[j].gtype == Missile {
            score := score + 1;
          }
        }
        assert PassState(objs, score) == Pair(before, i, j);
      }
    }

    /** Stop the game if the player is dead, then keep only live objects. */
    method CheckPlayerAndPrune()
      requires Layout()
      modifies this`run, this`objs
      ensures run == (old(run) && old(objs)[PlayerIx].alive)
      ensures objs == Prune(old(objs))
    {
      if !objs[PlayerIx].alive {
        run := false;
      }
      objs := Prune(objs);
    }

    /** One frame of the loop, without drawing.  `quit` is whether a quit
        event was polled, `keys` the key state, `dt` the frame time in
        seconds, `now` and `resetAt` the two clock readings of the spawner
        and `choice` the colour letter drawn at random.  The `update`
        step is not part of this model: missiles are not moved and the
        towers' velocities are not set. */
    method Tick(quit: bool, keys: Keys, dt: real, now: int, resetAt: int, choice: char)
      requires Valid() && run
      modifies this`objs, this`score, this`run, this`timeLastMissile
      ensures World(objs, score, run, timeLastMissile) ==
        Frame(old(World(objs, score, run, timeLastMissile)), Limits(),
              FrameInput(quit, keys, dt, SpawnTick(now, resetAt, choice)))
      ensures run ==> Valid()
    {
      ghost var w := World(objs, score, run, timeLastMissile);
      ghost var input := FrameInput(quit, keys, dt, SpawnTick(now, resetAt, choice));
      if quit {
        run := false;
      }
      HandleInput(keys, dt);
      ghost var moved := objs;
      SpawnMissile(now, resetAt, choice);
      ghost var spawned := Spawned(objs, timeLastMissile);
      assert spawned == Spawn(moved, w.last, Limits(), input.tick);
      ResolveCollisions();
      ghost var passed := PassState(objs, score);
      assert passed == Pass(spawned.objs, w.score);
      assert run == (w.run && !quit);
      ghost var playerAlive := objs[PlayerIx].alive;
      assert playerAlive == passed.objs[PlayerIx].alive;
      CheckPlayerAndPrune();
      assert run == (w.run && !quit && passed.objs[PlayerIx].alive);
      assert World(objs, score, run, timeLastMissile) == Frame(w, Limits(), input);
      FrameKeepsLayout(w, Limits(), input);
    }
  }
}
