/** Game objects of the arena (navex.py, class Gobj and its subclasses).

    Every object is a circle with a kind tag (`gtype` in the source), a
    position, a velocity, a radius, a colour and a liveness flag.  The
    four coloured missile subclasses behave identically, so they are one
    kind here and the colour is only a tag. */
module Objects {

  /** The `gtype` strings of the source: "player", "ai" (a tower),
      "missile" and "obstacle". */
  datatype Kind = Player | Tower | Missile | Obstacle

  datatype Gobj = Gobj(
    gtype: Kind,
    x: real, y: real,
    vx: real, vy: real,
    radius: real,
    color: string,
    alive: bool)

  /** A fresh object as `Gobj.__init__` builds it: zero velocity, alive. */
  function NewGobj(x: real, y: real, radius: real, color: string, gtype: Kind): (g: Gobj)
    ensures g.alive && g.vx == 0.0 && g.vy == 0.0
    ensures g.x == x && g.y == y && g.radius == radius && g.color == color && g.gtype == gtype
  {
    Gobj(gtype, x, y, 0.0, 0.0, radius, color, true)
  }

  /** Squared distance between the centres, measured from `a` to `b`. */
  function Dist2(a: Gobj, b: Gobj): real
  {
    (b.x - a.x) * (b.x - a.x) + (b.y - a.y) * (b.y - a.y)
  }

  /** `a.collides(b)`: the centre distance is strictly below the sum of
      the radii.  The source compares `sqrt(Dist2) < ra + rb`; since a
      square root is never negative, that holds exactly when the sum is
      positive and `Dist2` is below its square (see CollidesByDistance). */
  predicate Collides(a: Gobj, b: Gobj)
    ensures Collides(a, b) ==> a.radius + b.radius > 0.0
  {
    var r := a.radius + b.radius;
    r > 0.0 && Dist2(a, b) < r * r
  }

  /** The squared-distance test agrees with the source's test on the
      distance itself, for every non-negative `d` with `d * d == Dist2`. */
  lemma CollidesByDistance(a: Gobj, b: Gobj, d: real)
    requires d >= 0.0 && d * d == Dist2(a, b)
    ensures Collides(a, b) <==> d < a.radius + b.radius
  {
    var r := a.radius + b.radius;
    if d < r {
      assert 0.0 <= d;
      calc {
        d * d;
      <= d * r;
      < r * r;
      }
    } else if r > 0.0 {
      assert r * r <= d * r <= d * d;
    }
  }

  /** Collision does not depend on the order of the two objects. */
  lemma CollidesSymmetric(a: Gobj, b: Gobj)
    ensures Collides(a, b) == Collides(b, a)
  {
    assert Dist2(a, b) == Dist2(b, a) by {
      assert (b.x - a.x) * (b.x - a.x) == (a.x - b.x) * (a.x - b.x);
      assert (b.y - a.y) * (b.y - a.y) == (a.y - b.y) * (a.y - b.y);
    }
  }

  /** Touching circles (distance exactly the sum of the radii) do not
      collide: the comparison is strict. */
  lemma TouchingDoesNotCollide(a: Gobj, b: Gobj)
    requires a.radius + b.radius > 0.0
    requires Dist2(a, b) == (a.radius + b.radius) * (a.radius + b.radius)
    ensures !Collides(a, b)
  {
  }

  /** Only the liveness flag of an object changes during collision
      resolution: `t` is `s` with some flags changed. */
  predicate SameBodies(s: seq<Gobj>, t: seq<Gobj>)
  {
    |s| == |t| && forall k :: 0 <= k < |s| ==> t[k] == s[k].(alive := t[k].alive)
  }
}
