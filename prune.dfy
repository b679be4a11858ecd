/** Removal of dead objects at the end of a tick (navex.py, game_loop:
    `objs = [o for o in objs if o.alive]`). */
module Pruning {
  import opened Objects

  /** The live objects of `s`, in their original order. */
  function Prune(s: seq<Gobj>): (r: seq<Gobj>)
    ensures |r| <= |s|
    ensures forall k :: 0 <= k < |r| ==> r[k].alive
  {
    if s == [] then []
    else (if s[0].alive then [s[0]] else []) + Prune(s[1..])
  }

  /** An object is kept exactly when it is in the list and alive. */
  lemma {:induction false} PruneMembers(s: seq<Gobj>, g: Gobj)
    ensures g in Prune(s) <==> g in s && g.alive
  {
    if s != [] {
      PruneMembers(s[1..], g);
      assert s == [s[0]] + s[1..];
    }
  }

  /** Filtering a concatenation filters each part in place: the order of
      the survivors is the order of the input. */
  lemma {:induction false} PruneAppend(a: seq<Gobj>, b: seq<Gobj>)
    ensures Prune(a + b) == Prune(a) + Prune(b)
  {
    if a == [] {
      assert a + b == b;
    } else {
      assert (a + b)[1..] == a[1..] + b;
      PruneAppend(a[1..], b);
    }
  }

  /** A list whose objects are all alive is left as it is. */
  lemma {:induction false} PruneAllAlive(s: seq<Gobj>)
    requires forall k :: 0 <= k < |s| ==> s[k].alive
    ensures Prune(s) == s
  {
    if s != [] {
      PruneAllAlive(s[1..]);
    }
  }

  /** Live objects at the front of the list keep their positions. */
  lemma LivePrefixKept(s: seq<Gobj>, m: nat)
    requires m <= |s|
    requires forall k :: 0 <= k < m ==> s[k].alive
    ensures |Prune(s)| >= m && Prune(s)[..m] == s[..m]
  {
    assert s == s[..m] + s[m..];
    PruneAppend(s[..m], s[m..]);
    PruneAllAlive(s[..m]);
  }

  /** Number of live objects in `s`. */
  function LiveCount(s: seq<Gobj>): nat
  {
    if s == [] then 0 else (if s[0].alive then 1 else 0) + LiveCount(s[1..])
  }

  /** Exactly the live objects are kept, each once per occurrence. */
  lemma {:induction false} PruneKeepsEveryLiveObject(s: seq<Gobj>)
    ensures |Prune(s)| == LiveCount(s)
    ensures forall g :: multiset(Prune(s))[g] == (if g.alive then multiset(s)[g] else 0)
  {
    if s != [] {
      PruneKeepsEveryLiveObject(s[1..]);
      assert s == [s[0]] + s[1..];
    }
  }
}
