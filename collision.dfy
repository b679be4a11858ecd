/** Collision resolution and scoring of one tick (navex.py, game_loop,
    the nested loops over `objs`).

    The pass is specified here as a fold over the pairs in the order the
    source visits them: `Pair` is one inner-loop iteration, `Row` the
    inner loop of one `i`, `Rows` the outer loop and `Pass` the whole
    pass.  The lemmas then give the pass its meaning without that order:
    which objects die (`KilledAt`) and what the score becomes. */
module Collision {
  import opened Objects

  /** The data the pass changes: the object list and the running score. */
  datatype PassState = PassState(objs: seq<Gobj>, score: int)

  function Kill(g: Gobj): Gobj
  {
    g.(alive := false)
  }

  /** Points a member of a scoring pair contributes: one per missile. */
  function MissilePoint(g: Gobj): nat
  {
    if g.gtype == Missile then 1 else 0
  }

  /** `after` differs from `before` only in liveness flags that went from
      true to false, and in a score that did not decrease. */
  predicate Evolves(before: PassState, after: PassState)
  {
    SameBodies(before.objs, after.objs) &&
    (forall k :: 0 <= k < |after.objs| && after.objs[k].alive ==> before.objs[k].alive) &&
    after.score >= before.score
  }

  /** One iteration of the inner loop, for the pair (i, j).  The outer
      loop has already skipped towers as `i`. */
  function Pair(st: PassState, i: nat, j: nat): (r: PassState)
    requires i < j < |st.objs|
    requires st.objs[i].gtype != Tower
    ensures |r.objs| == |st.objs| && r.objs[i].gtype == st.objs[i].gtype
  {
    var s := st.objs;
    if !Collides(s[i], s[j]) || s[j].gtype == Tower then st
    else
      var s' :=
        if s[i].gtype == Obstacle then s[j := Kill(s[j])]
        else if s[j].gtype == Obstacle then s[i := Kill(s[i])]
        else s[i := Kill(s[i])][j := Kill(s[j])];
      PassState(s', st.score + MissilePoint(s[i]) + MissilePoint(s[j]))
  }

  /** The inner loop for `i`, stopped before `j`: the pairs (i, i+1) ..
      (i, j-1) in that order. */
  function Row(st: PassState, i: nat, j: nat): (r: PassState)
    requires i < j <= |st.objs|
    requires st.objs[i].gtype != Tower
    ensures |r.objs| == |st.objs| && r.objs[i].gtype == st.objs[i].gtype
    decreases j
  {
    if j == i + 1 then st else Pair(Row(st, i, j - 1), i, j - 1)
  }

  /** The outer loop stopped before `i`: rows 0 .. i-1, skipping towers. */
  function Rows(st: PassState, i: nat): (r: PassState)
    requires i <= |st.objs|
    ensures |r.objs| == |st.objs|
  {
    if i == 0 then st
    else
      var t := Rows(st, i - 1);
      if t.objs[i - 1].gtype == Tower then t else Row(t, i - 1, |t.objs|)
  }

  /** The whole collision pass over `objs`, starting from `score`. */
  function Pass(objs: seq<Gobj>, score: int): (r: PassState)
    ensures |r.objs| == |objs| && r.score >= score
  {
    RowsEvolves(PassState(objs, score), |objs|);
    Rows(PassState(objs, score), |objs|)
  }

  lemma PairEvolves(st: PassState, i: nat, j: nat)
    requires i < j < |st.objs| && st.objs[i].gtype != Tower
    ensures Evolves(st, Pair(st, i, j))
  {
  }

  lemma {:induction false} RowEvolves(st: PassState, i: nat, j: nat)
    requires i < j <= |st.objs| && st.objs[i].gtype != Tower
    ensures Evolves(st, Row(st, i, j))
    decreases j
  {
    if j > i + 1 {
      RowEvolves(st, i, j - 1);
      PairEvolves(Row(st, i, j - 1), i, j - 1);
    }
  }

  /** The pass changes only liveness flags, only from true to false, and
      never lowers the score. */
  lemma {:induction false} RowsEvolves(st: PassState, i: nat)
    requires i <= |st.objs|
    ensures Evolves(st, Rows(st, i))
  {
    if i > 0 {
      RowsEvolves(st, i - 1);
      var t := Rows(st, i - 1);
      if t.objs[i - 1].gtype != Tower {
        RowEvolves(t, i - 1, |t.objs|);
      }
    }
  }

  // ---------------------------------------------------------------------
  // The resolution table, independent of visiting order

  /** Neither object is a tower and they overlap: the pair is resolved. */
  predicate Interacts(a: Gobj, b: Gobj)
  {
    a.gtype != Tower && b.gtype != Tower && Collides(a, b)
  }

  /** In a resolved pair the earlier object dies unless it is an obstacle. */
  predicate KillsFirst(a: Gobj, b: Gobj)
  {
    Interacts(a, b) && a.gtype != Obstacle
  }

  /** In a resolved pair the later object dies when the earlier one is an
      obstacle, or when it is not an obstacle itself. */
  predicate KillsSecond(a: Gobj, b: Gobj)
  {
    Interacts(a, b) && (a.gtype == Obstacle || b.gtype != Obstacle)
  }

  /** Object `k` is on the losing side of some resolved pair. */
  ghost predicate KilledAt(s: seq<Gobj>, k: nat)
    requires k < |s|
  {
    (exists q :: k < q < |s| && KillsFirst(s[k], s[q])) ||
    (exists p :: 0 <= p < k && KillsSecond(s[p], s[k]))
  }

  /** Some pair (k, q) with k < q < hi kills `k`. */
  predicate LosesAsFirst(s: seq<Gobj>, k: nat, hi: nat)
    requires k < |s| && hi <= |s|
    decreases hi
  {
    hi > k + 1 && (LosesAsFirst(s, k, hi - 1) || KillsFirst(s[k], s[hi - 1]))
  }

  /** Some pair (p, k) with p < lo and p < k kills `k`. */
  predicate LosesAsSecond(s: seq<Gobj>, k: nat, lo: nat)
    requires k < |s| && lo <= |s|
  {
    lo > 0 && (LosesAsSecond(s, k, lo - 1) || (lo - 1 < k && KillsSecond(s[lo - 1], s[k])))
  }

  lemma {:induction false} LosesAsFirstExists(s: seq<Gobj>, k: nat, hi: nat)
    requires k < |s| && hi <= |s|
    ensures LosesAsFirst(s, k, hi) <==> exists q :: k < q < hi && KillsFirst(s[k], s[q])
    decreases hi
  {
    if hi > k + 1 {
      LosesAsFirstExists(s, k, hi - 1);
      if KillsFirst(s[k], s[hi - 1]) {
        assert k < hi - 1 < hi;
      }
    }
  }

  lemma {:induction false} LosesAsSecondExists(s: seq<Gobj>, k: nat, lo: nat)
    requires k < |s| && lo <= |s|
    ensures LosesAsSecond(s, k, lo) <==> exists p :: 0 <= p < lo && p < k && KillsSecond(s[p], s[k])
  {
    if lo > 0 {
      LosesAsSecondExists(s, k, lo - 1);
      if lo - 1 < k && KillsSecond(s[lo - 1], s[k]) {
        assert 0 <= lo - 1 < lo;
      }
    }
  }

  lemma KillsOnBodies(s: seq<Gobj>, t: seq<Gobj>, p: nat, q: nat)
    requires SameBodies(s, t) && p < |s| && q < |s|
    ensures KillsFirst(s[p], s[q]) == KillsFirst(t[p], t[q])
    ensures KillsSecond(s[p], s[q]) == KillsSecond(t[p], t[q])
    ensures Interacts(s[p], s[q]) == Interacts(t[p], t[q])
  {
  }

  lemma PairAlive(st: PassState, i: nat, j: nat, k: nat)
    requires i < j < |st.objs| && k < |st.objs|
    requires st.objs[i].gtype != Tower
    ensures Pair(st, i, j).objs[k].alive ==
      (st.objs[k].alive
       && !(k == i && KillsFirst(st.objs[i], st.objs[j]))
       && !(k == j && KillsSecond(st.objs[i], st.objs[j])))
    ensures Pair(st, i, j).score == st.score +
      (if Interacts(st.objs[i], st.objs[j]) then MissilePoint(st.objs[i]) + MissilePoint(st.objs[j]) else 0)
  {
  }

  /** After the inner loop of a non-tower `i` has reached `j`, object `k`
      is alive exactly when it was and no visited pair killed it; `s0`
      holds the bodies the pass started from. */
  lemma {:induction false} RowAlive(s0: seq<Gobj>, st: PassState, i: nat, j: nat, k: nat)
    requires SameBodies(s0, st.objs)
    requires i < j <= |s0| && k < |s0|
    requires s0[i].gtype != Tower
    ensures Row(st, i, j).objs[k].alive ==
      (st.objs[k].alive
       && !(k == i && LosesAsFirst(s0, i, j))
       && !(i < k < j && KillsSecond(s0[i], s0[k])))
    decreases j
  {
    if j > i + 1 {
      var m := Row(st, i, j - 1);
      assert Row(st, i, j) == Pair(m, i, j - 1);
      RowAlive(s0, st, i, j - 1, k);
      RowEvolves(st, i, j - 1);
      PairAlive(m, i, j - 1, k);
      KillsOnBodies(s0, m.objs, i, j - 1);
      assert LosesAsFirst(s0, i, j) == (LosesAsFirst(s0, i, j - 1) || KillsFirst(s0[i], s0[j - 1]));
    }
  }

  /** After the outer loop has reached `i`, object `k` is alive exactly
      when it was and no pair of an earlier row killed it; which pairs
      kill depends only on the bodies `s0`, never on liveness flags. */
  lemma {:induction false} RowsAlive(s0: seq<Gobj>, st: PassState, i: nat, k: nat)
    requires SameBodies(s0, st.objs)
    requires i <= |s0| && k < |s0|
    ensures Rows(st, i).objs[k].alive ==
      (st.objs[k].alive
       && !(k < i && LosesAsFirst(s0, k, |s0|))
       && !LosesAsSecond(s0, k, i))
  {
    if i > 0 {
      var t := Rows(st, i - 1);
      RowsAlive(s0, st, i - 1, k);
      RowsEvolves(st, i - 1);
      if t.objs[i - 1].gtype == Tower {
        assert s0[i - 1].gtype == Tower;
        if k == i - 1 {
          TowerNeverLosesAsFirst(s0, k, |s0|);
        }
      } else {
        RowAlive(s0, t, i - 1, |s0|, k);
      }
    }
  }

  lemma {:induction false} TowerNeverLosesAsFirst(s: seq<Gobj>, k: nat, hi: nat)
    requires k < |s| && hi <= |s| && s[k].gtype == Tower
    ensures !LosesAsFirst(s, k, hi)
    decreases hi
  {
    if hi > k + 1 {
      TowerNeverLosesAsFirst(s, k, hi - 1);
    }
  }

  /** The resolution table: after the pass an object is alive exactly
      when it was alive before and lost no resolved pair.  Liveness flags
      are never read by the pass, so an object already killed still takes
      part in later pairs. */
  lemma PassAlive(s: seq<Gobj>, score: int, k: nat)
    requires k < |s|
    ensures |Pass(s, score).objs| == |s|
    ensures Pass(s, score).objs[k].alive <==> s[k].alive && !KilledAt(s, k)
  {
    RowsAlive(s, PassState(s, score), |s|, k);
    LosesAsFirstExists(s, k, |s|);
    LosesAsSecondExists(s, k, |s|);
  }

  /** The pass never reads liveness flags: on a list `t` with the same
      bodies as `s`, the same pairs are resolved, so exactly the objects
      of `s` that lose a pair die (if still alive).  An object marked dead
      earlier in the tick therefore still kills and still scores. */
  lemma PassIgnoresAlive(s: seq<Gobj>, t: seq<Gobj>, score: int, k: nat)
    requires SameBodies(s, t) && k < |s|
    ensures |Pass(t, score).objs| == |t|
    ensures Pass(t, score).objs[k].alive <==> t[k].alive && !KilledAt(s, k)
  {
    RowsAlive(s, PassState(t, score), |s|, k);
    LosesAsFirstExists(s, k, |s|);
    LosesAsSecondExists(s, k, |s|);
  }

  /** Towers never die in the pass. */
  lemma TowerSurvives(s: seq<Gobj>, score: int, k: nat)
    requires k < |s| && s[k].gtype == Tower
    ensures Pass(s, score).objs[k].alive == s[k].alive
  {
    PassAlive(s, score, k);
  }

  /** An obstacle dies exactly when an EARLIER obstacle overlaps it; a
      later obstacle, a player or a missile never kills an obstacle. */
  lemma ObstacleDiesOnlyUnderEarlierObstacle(s: seq<Gobj>, score: int, k: nat)
    requires k < |s| && s[k].gtype == Obstacle
    ensures Pass(s, score).objs[k].alive <==>
      s[k].alive && !exists p :: 0 <= p < k && s[p].gtype == Obstacle && Collides(s[p], s[k])
  {
    PassAlive(s, score, k);
  }

  /** A player or a missile dies exactly when it overlaps any other
      object that is not a tower, whichever of the two comes first. */
  lemma MobileDiesOnAnyContact(s: seq<Gobj>, score: int, k: nat)
    requires k < |s| && (s[k].gtype == Player || s[k].gtype == Missile)
    ensures Pass(s, score).objs[k].alive <==>
      s[k].alive && !exists q :: 0 <= q < |s| && q != k && s[q].gtype != Tower && Collides(s[k], s[q])
  {
    PassAlive(s, score, k);
    forall q | 0 <= q < k
      ensures Collides(s[q], s[k]) == Collides(s[k], s[q])
    {
      CollidesSymmetric(s[q], s[k]);
    }
    if exists q :: 0 <= q < |s| && q != k && s[q].gtype != Tower && Collides(s[k], s[q]) {
      var q :| 0 <= q < |s| && q != k && s[q].gtype != Tower && Collides(s[k], s[q]);
      if q < k {
        assert KillsSecond(s[q], s[k]);
      } else {
        assert KillsFirst(s[k], s[q]);
      }
    }
  }
}
