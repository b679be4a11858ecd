/** The score earned by one collision pass (navex.py, game_loop: the two
    `score += 1` statements of the nested loops).

    The pass adds, for every resolved pair, one point per missile in the
    pair.  `PassScore` shows the same total counted per object: every
    missile earns one point for each other non-tower object it overlaps. */
module Scoring {
  import opened Objects
  import opened Collision

  /** What a resolved pair adds to the score. */
  function PairScore(a: Gobj, b: Gobj): nat
  {
    if Interacts(a, b) then MissilePoint(a) + MissilePoint(b) else 0
  }

  /** Score of the pairs (p, q) with p < q < j. */
  function RowScore(s: seq<Gobj>, p: nat, j: nat): nat
    requires p < |s| && j <= |s|
    decreases j
  {
    if j <= p + 1 then 0 else RowScore(s, p, j - 1) + PairScore(s[p], s[j - 1])
  }

  /** Score of the pairs (p, q) with p < n and p < q < m. */
  function AllPairs(s: seq<Gobj>, n: nat, m: nat): nat
    requires n <= |s| && m <= |s|
  {
    if n == 0 then 0 else AllPairs(s, n - 1, m) + RowScore(s, n - 1, m)
  }

  /** Number of objects q < hi, other than `k`, that `k` is resolved against. */
  function Partners(s: seq<Gobj>, k: nat, hi: nat): nat
    requires k < |s| && hi <= |s|
  {
    if hi == 0 then 0
    else Partners(s, k, hi - 1) + (if hi - 1 != k && Interacts(s[k], s[hi - 1]) then 1 else 0)
  }

  /** Points of the missiles k < n, each counting its partners below m. */
  function Credit(s: seq<Gobj>, n: nat, m: nat): nat
    requires n <= |s| && m <= |s|
  {
    if n == 0 then 0
    else Credit(s, n - 1, m) + (if s[n - 1].gtype == Missile then Partners(s, n - 1, m) else 0)
  }

  /** Every missile earns one point per other non-tower object it overlaps. */
  function MissileCredit(s: seq<Gobj>): nat
  {
    Credit(s, |s|, |s|)
  }

  /** Score of the pairs (p, m) with p < n and p < m. */
  function ColumnScore(s: seq<Gobj>, n: nat, m: nat): nat
    requires n <= |s| && m < |s|
  {
    if n == 0 then 0
    else ColumnScore(s, n - 1, m) + (if n - 1 < m then PairScore(s[n - 1], s[m]) else 0)
  }

  /** Number of missiles k < n, other than m, resolved against `m`. */
  function MissilesAgainst(s: seq<Gobj>, n: nat, m: nat): nat
    requires n <= |s| && m < |s|
  {
    if n == 0 then 0
    else
      var hit := s[n - 1].gtype == Missile && n - 1 != m && Interacts(s[n - 1], s[m]);
      MissilesAgainst(s, n - 1, m) + (if hit then 1 else 0)
  }

  // ---------------------------------------------------------------------
  // The pass computes AllPairs

  lemma {:induction false} RowScoreOnPass(s0: seq<Gobj>, st: PassState, i: nat, j: nat)
    requires SameBodies(s0, st.objs)
    requires i < j <= |s0| && s0[i].gtype != Tower
    ensures Row(st, i, j).score == st.score + RowScore(s0, i, j)
    decreases j
  {
    if j > i + 1 {
      RowScoreOnPass(s0, st, i, j - 1);
      RowEvolves(st, i, j - 1);
      KillsOnBodies(s0, Row(st, i, j - 1).objs, i, j - 1);
    }
  }

  lemma {:induction false} TowerRowScoresNothing(s: seq<Gobj>, p: nat, j: nat)
    requires p < |s| && j <= |s| && s[p].gtype == Tower
    ensures RowScore(s, p, j) == 0
    decreases j
  {
    if j > p + 1 {
      TowerRowScoresNothing(s, p, j - 1);
    }
  }

  lemma {:induction false} RowsScoreOnPass(s0: seq<Gobj>, st: PassState, i: nat)
    requires SameBodies(s0, st.objs) && i <= |s0|
    ensures Rows(st, i).score == st.score + AllPairs(s0, i, |s0|)
  {
    if i > 0 {
      RowsScoreOnPass(s0, st, i - 1);
      RowsEvolves(st, i - 1);
      var t := Rows(st, i - 1);
      if t.objs[i - 1].gtype == Tower {
        TowerRowScoresNothing(s0, i - 1, |s0|);
      } else {
        RowScoreOnPass(s0, t, i - 1, |s0|);
      }
    }
  }

  // ---------------------------------------------------------------------
  // AllPairs counted per missile

  lemma {:induction false} AllPairsStep(s: seq<Gobj>, n: nat, m: nat)
    requires n <= |s| && m < |s|
    ensures AllPairs(s, n, m + 1) == AllPairs(s, n, m) + ColumnScore(s, n, m)
  {
    if n > 0 {
      AllPairsStep(s, n - 1, m);
    }
  }

  lemma {:induction false} CreditStep(s: seq<Gobj>, n: nat, m: nat)
    requires n <= |s| && m < |s|
    ensures Credit(s, n, m + 1) == Credit(s, n, m) + MissilesAgainst(s, n, m)
  {
    if n > 0 {
      CreditStep(s, n - 1, m);
    }
  }

  lemma {:induction false} ColumnSplit(s: seq<Gobj>, n: nat, m: nat)
    requires n <= m < |s|
    ensures ColumnScore(s, n, m) ==
      MissilesAgainst(s, n, m) + (if s[m].gtype == Missile then Partners(s, m, n) else 0)
  {
    if n > 0 {
      ColumnSplit(s, n - 1, m);
      CollidesSymmetric(s[n - 1], s[m]);
    }
  }

  lemma {:induction false} AllPairsIsCredit(s: seq<Gobj>, m: nat)
    requires m <= |s|
    ensures AllPairs(s, m, m) == Credit(s, m, m)
  {
    if m > 0 {
      var k := m - 1;
      AllPairsIsCredit(s, k);
      AllPairsStep(s, k, k);
      CreditStep(s, k, k);
      ColumnSplit(s, k, k);
    }
  }

  /** The score after the pass: the starting score plus one point per
      missile for every other non-tower object that missile overlaps.  A
      missile-missile contact therefore scores 2, a missile meeting a
      player or an obstacle 1, a player meeting an obstacle 0. */
  lemma PassScore(s: seq<Gobj>, score: int)
    ensures Pass(s, score).score == score + MissileCredit(s)
  {
    RowsScoreOnPass(s, PassState(s, score), |s|);
    AllPairsIsCredit(s, |s|);
  }

  /** The score is blind to liveness flags as well: two lists with the
      same bodies earn the same points. */
  lemma PassScoreIgnoresAlive(s: seq<Gobj>, t: seq<Gobj>, score: int)
    requires SameBodies(s, t)
    ensures Pass(t, score).score == score + MissileCredit(s)
  {
    RowsScoreOnPass(s, PassState(t, score), |s|);
    AllPairsIsCredit(s, |s|);
  }

  lemma {:induction false} NoMissileNoCredit(s: seq<Gobj>, n: nat)
    requires n <= |s|
    requires forall k :: 0 <= k < |s| ==> s[k].gtype != Missile
    ensures Credit(s, n, |s|) == 0
  {
    if n > 0 {
      NoMissileNoCredit(s, n - 1);
    }
  }

  /** Without missiles a pass scores nothing, whatever collides. */
  lemma NoMissileNoScore(s: seq<Gobj>, score: int)
    requires forall k :: 0 <= k < |s| ==> s[k].gtype != Missile
    ensures Pass(s, score).score == score
  {
    PassScore(s, score);
    NoMissileNoCredit(s, |s|);
  }

  /** The resolution table on a list of two objects `a` before `b`: an
      obstacle first kills the second object even if it is an obstacle
      too, an obstacle second kills only the first object, any other
      resolved pair kills both; towers and non-overlapping pairs change
      nothing.  Each missile of a resolved pair adds one point. */
  lemma TwoObjectPass(a: Gobj, b: Gobj, score: int)
    ensures var r := Pass([a, b], score);
      && |r.objs| == 2
      && (!Interacts(a, b) ==> r == PassState([a, b], score))
      && (Interacts(a, b) && a.gtype == Obstacle ==> r.objs == [a, Kill(b)])
      && (Interacts(a, b) && a.gtype != Obstacle && b.gtype == Obstacle ==> r.objs == [Kill(a), b])
      && (Interacts(a, b) && a.gtype != Obstacle && b.gtype != Obstacle ==> r.objs == [Kill(a), Kill(b)])
      && (Interacts(a, b) && a.gtype == Missile && b.gtype == Missile ==> r.score == score + 2)
      && (Interacts(a, b) && a.gtype == Player && b.gtype == Obstacle ==> r.score == score)
      && r.score == score + PairScore(a, b)
  {
    var st := PassState([a, b], score);
    assert Rows(st, 1) == (if a.gtype == Tower then st else Row(st, 0, 2));
    var t := Rows(st, 1);
    RowsEvolves(st, 1);
    assert Rows(st, 2) == (if t.objs[1].gtype == Tower then t else Row(t, 1, 2));
  }

  /** A missile already killed earlier in the pass still scores in later
      pairs: three mutually overlapping missiles score all three pairs. */
  lemma ThreeMissilesScoreSix(a: Gobj, b: Gobj, c: Gobj, score: int)
    requires a.gtype == Missile && b.gtype == Missile && c.gtype == Missile
    requires Collides(a, b) && Collides(a, c) && Collides(b, c)
    ensures Pass([a, b, c], score).score == score + 6
  {
    var s := [a, b, c];
    PassScore(s, score);
    CollidesSymmetric(a, b);
    CollidesSymmetric(a, c);
    CollidesSymmetric(b, c);
    assert Partners(s, 0, 1) == 0 && Partners(s, 1, 1) == 1 && Partners(s, 2, 1) == 1;
    assert Partners(s, 0, 3) == 2;
    assert Partners(s, 1, 3) == 2;
    assert Partners(s, 2, 3) == 2;
    assert Credit(s, 1, 3) == 2;
    assert Credit(s, 2, 3) == 4;
    assert MissileCredit(s) == 6;
  }
}
