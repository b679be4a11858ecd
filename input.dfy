/** Keyboard movement of the player (navex.py, Player.handle_input).

    The keys select a direction (mx, my) in {-1, 0, 1}^2; 'a' is tested
    before 'd' and 'w' before 's'.  A non-zero direction is divided by
    its length and moved along at PLAYER_VEL pixels per second. */
module Input {
  import opened Objects

  /** PLAYER_VEL: the player's speed in pixels per second. */
  const PlayerVel: real := 100.0

  /** `1 / l` for the diagonal length l = math.sqrt(2): the shortest
      decimal form of the double that 1.0 / math.sqrt(2) evaluates to. */
  const InvSqrt2: real := 0.7071067811865475

  /** State of the four movement keys. */
  datatype Keys = Keys(a: bool, d: bool, w: bool, s: bool)

  /** The chosen direction; -1 is left or up, 1 right or down. */
  datatype Intent = Intent(mx: int, my: int)

  /** The direction the keys select.  Holding both keys of an axis
      behaves like holding only the one tested first. */
  function Intention(keys: Keys): (r: Intent)
    ensures -1 <= r.mx <= 1 && -1 <= r.my <= 1
    ensures keys.a ==> r.mx == -1
    ensures r.mx == 1 <==> keys.d && !keys.a
    ensures r.mx == 0 <==> !keys.a && !keys.d
    ensures keys.w ==> r.my == -1
    ensures r.my == 1 <==> keys.s && !keys.w
    ensures r.my == 0 <==> !keys.w && !keys.s
  {
    var mx := if keys.a then -1 else if keys.d then 1 else 0;
    var my := if keys.w then -1 else if keys.s then 1 else 0;
    Intent(mx, my)
  }

  /** `length(mx, my) > 0`: the direction is not zero. */
  predicate Moves(i: Intent)
  {
    i.mx != 0 || i.my != 0
  }

  /** `m / length(m, other)` for components in {-1, 0, 1}: the length is
      1 along an axis and sqrt(2) on a diagonal. */
  function Unit(m: int, other: int): real
  {
    if other == 0 then m as real else m as real * InvSqrt2
  }

  /** The player after `handle_input(keys, dt)`: position moved by the
      unit direction times PLAYER_VEL * dt, or unchanged with no key. */
  function Moved(p: Gobj, keys: Keys, dt: real): (r: Gobj)
    ensures r.(x := p.x, y := p.y) == p
  {
    var i := Intention(keys);
    if Moves(i) then
      p.(x := p.x + Unit(i.mx, i.my) * PlayerVel * dt,
         y := p.y + Unit(i.my, i.mx) * PlayerVel * dt)
    else p
  }

  /** For a positive time step the player stays in place exactly when no
      movement key is held; opposite keys do not cancel out. */
  lemma StillIffNoKey(p: Gobj, keys: Keys, dt: real)
    requires dt > 0.0
    ensures Moved(p, keys, dt) == p <==> !keys.a && !keys.d && !keys.w && !keys.s
  {
    var i := Intention(keys);
    if Moves(i) {
      var q := Moved(p, keys, dt);
      assert PlayerVel * dt > 0.0;
      if i.mx != 0 {
        assert Unit(i.mx, i.my) != 0.0;
        assert Unit(i.mx, i.my) * PlayerVel * dt != 0.0;
        assert q.x != p.x;
      } else {
        assert Unit(i.my, i.mx) != 0.0;
        assert Unit(i.my, i.mx) * PlayerVel * dt != 0.0;
        assert q.y != p.y;
      }
    }
  }

  /** With the keys of one axis released, the player moves exactly
      PLAYER_VEL * dt along the other axis, in the direction of the key
      that wins, and not at all across it. */
  lemma AxisStepIsExact(p: Gobj, keys: Keys, dt: real)
    ensures !keys.w && !keys.s ==>
      && Moved(p, keys, dt).y == p.y
      && (keys.a ==> Moved(p, keys, dt).x == p.x - PlayerVel * dt)
      && (!keys.a && keys.d ==> Moved(p, keys, dt).x == p.x + PlayerVel * dt)
    ensures !keys.a && !keys.d ==>
      && Moved(p, keys, dt).x == p.x
      && (keys.w ==> Moved(p, keys, dt).y == p.y - PlayerVel * dt)
      && (!keys.w && keys.s ==> Moved(p, keys, dt).y == p.y + PlayerVel * dt)
  {
  }

  /** On a diagonal both coordinates move by the same amount, the axis
      step scaled by 1 / sqrt(2), each in the direction of its key. */
  lemma DiagonalStepIsBalanced(p: Gobj, keys: Keys, dt: real)
    requires (keys.a || keys.d) && (keys.w || keys.s)
    ensures var q := Moved(p, keys, dt);
      && q.x - p.x == Intention(keys).mx as real * InvSqrt2 * PlayerVel * dt
      && q.y - p.y == Intention(keys).my as real * InvSqrt2 * PlayerVel * dt
    ensures var q := Moved(p, keys, dt);
      var dx, dy, step := q.x - p.x, q.y - p.y, PlayerVel * dt;
      (1.0 - 0.000000000000001) * (step * step) <= dx * dx + dy * dy <= step * step
  {
    var q := Moved(p, keys, dt);
    var step := PlayerVel * dt;
    var i := Intention(keys);
    InvSqrt2Squared();
    var c := InvSqrt2 * step;
    assert q.x - p.x == i.mx as real * c && q.y - p.y == i.my as real * c;
    assert (i.mx as real * c) * (i.mx as real * c) == c * c;
    assert (i.my as real * c) * (i.my as real * c) == c * c;
    assert c * c == (InvSqrt2 * InvSqrt2) * (step * step);
    assert step * step >= 0.0;
  }

  /** Twice the square of InvSqrt2 is just below 1: the diagonal step is
      a unit step up to the rounding of the constant. */
  lemma InvSqrt2Squared()
    ensures 1.0 - 0.000000000000001 < 2.0 * InvSqrt2 * InvSqrt2 < 1.0
  {
  }
}
