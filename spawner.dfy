/** The missile spawner of the frame loop (navex.py, game_loop: the
    towers, `missiles_in_flight` and the block that appends a coloured
    missile).

    The clock and the random colour choice are inputs: each tick supplies
    the reading of `pygame.time.get_ticks()` used in the timer test, the
    second reading stored as the new spawn time, and the result of
    `random.choice(missile_colors)`. */
module Spawner {
  import opened Objects

  /** Positions in the object list: `objs = [player, red, blue, green, yellow]`
      followed by the obstacles and, later, the missiles. */
  const PlayerIx: nat := 0
  const RedIx: nat := 1
  const BlueIx: nat := 2
  const GreenIx: nat := 3
  const YellowIx: nat := 4

  const MissileRadius: real := 5.0

  /** The spawner's limits: the in-flight counter and the two command-line
      settings. */
  datatype Throttle = Throttle(missilesInFlight: int, maxMissiles: int, missileTimer: int)

  /** The two clock readings and the colour drawn in one tick. */
  datatype SpawnTick = SpawnTick(now: int, resetAt: int, choice: char)

  /** The object list and the time of the last spawn after the spawner ran. */
  datatype Spawned = Spawned(objs: seq<Gobj>, last: int)

  /** The two nested tests of the spawner. */
  predicate Fires(th: Throttle, last: int, now: int)
  {
    th.missilesInFlight < th.maxMissiles && now - last > th.missileTimer
  }

  /** The tower a colour letter selects; any letter other than 'r', 'b'
      and 'g' falls to the final `else`, the yellow tower. */
  function TowerIndex(choice: char): (ix: nat)
    ensures RedIx <= ix <= YellowIx
    ensures choice == 'r' <==> ix == RedIx
    ensures choice == 'b' <==> ix == BlueIx
    ensures choice == 'g' <==> ix == GreenIx
  {
    if choice == 'r' then RedIx
    else if choice == 'b' then BlueIx
    else if choice == 'g' then GreenIx
    else YellowIx
  }

  /** The colour given to the missile of each branch. */
  function MissileColor(choice: char): string
  {
    if choice == 'r' then "red"
    else if choice == 'b' then "cyan"
    else if choice == 'g' then "green"
    else "yellow"
  }

  /** One run of the spawner block.  At most one missile is appended, and
      only when both tests pass; it starts on the chosen tower's centre,
      at rest, with radius 5, and the spawn time is reset. */
  function Spawn(objs: seq<Gobj>, last: int, th: Throttle, tick: SpawnTick): (r: Spawned)
    requires |objs| > YellowIx
    ensures |r.objs| == |objs| + (if Fires(th, last, tick.now) then 1 else 0)
    ensures r.objs[..|objs|] == objs
    ensures !Fires(th, last, tick.now) ==> r.last == last
    ensures Fires(th, last, tick.now) ==>
      var m := r.objs[|objs|];
      var tower := objs[TowerIndex(tick.choice)];
      && r.last == tick.resetAt
      && m.gtype == Missile && m.alive
      && m.x == tower.x && m.y == tower.y
      && m.vx == 0.0 && m.vy == 0.0
      && m.radius == MissileRadius
  {
    if th.missilesInFlight < th.maxMissiles && tick.now - last > th.missileTimer then
      var tower := objs[TowerIndex(tick.choice)];
      var missile := NewGobj(tower.x, tower.y, MissileRadius, MissileColor(tick.choice), Missile);
      Spawned(objs + [missile], tick.resetAt)
    else
      Spawned(objs, last)
  }

  /** The spawner run on consecutive ticks (nothing else touching the list). */
  function SpawnRun(objs: seq<Gobj>, last: int, th: Throttle, ticks: seq<SpawnTick>): (r: Spawned)
    requires |objs| > YellowIx
    ensures |objs| <= |r.objs| <= |objs| + |ticks|
    ensures r.objs[..|objs|] == objs
    decreases |ticks|
  {
    if ticks == [] then Spawned(objs, last)
    else
      var next := Spawn(objs, last, th, ticks[0]);
      SpawnRun(next.objs, next.last, th, ticks[1..])
  }

  /** While the in-flight counter is not below the maximum, nothing is
      ever spawned.  The source never changes the counter from 0, so a
      maximum of 0 or less disables missiles for the whole game. */
  lemma {:induction false} SaturatedNeverSpawns(objs: seq<Gobj>, last: int, th: Throttle, ticks: seq<SpawnTick>)
    requires |objs| > YellowIx
    requires th.missilesInFlight >= th.maxMissiles
    ensures SpawnRun(objs, last, th, ticks) == Spawned(objs, last)
    decreases |ticks|
  {
    if ticks != [] {
      SaturatedNeverSpawns(objs, last, th, ticks[1..]);
    }
  }

  /** Every tick reads the clock more than the timer after the previous
      reset. */
  predicate Spaced(last: int, ticks: seq<SpawnTick>, timer: int)
    decreases |ticks|
  {
    ticks == [] || (ticks[0].now - last > timer && Spaced(ticks[0].resetAt, ticks[1..], timer))
  }

  /** The maximum is not a cap: since the counter is never incremented,
      once it is below the maximum every tick that clears the timer adds a
      missile, however many are already in the list. */
  lemma {:induction false} TimerIsTheOnlyLimit(objs: seq<Gobj>, last: int, th: Throttle, ticks: seq<SpawnTick>)
    requires |objs| > YellowIx
    requires th.missilesInFlight < th.maxMissiles
    requires Spaced(last, ticks, th.missileTimer)
    ensures |SpawnRun(objs, last, th, ticks).objs| == |objs| + |ticks|
    decreases |ticks|
  {
    if ticks != [] {
      var next := Spawn(objs, last, th, ticks[0]);
      TimerIsTheOnlyLimit(next.objs, next.last, th, ticks[1..]);
    }
  }
}
