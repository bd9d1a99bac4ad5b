/** Writing dirty nodes out: a flush, finished or refused midway, places some of them and changes nothing else. */
module Placing {
  import opened Blocks
  import opened Trie
  import opened Media
  import opened Tracts

  /** `u` is `t` with some dirty nodes given a place. */
  ghost predicate Placed(t: Tree, u: Tree)
    decreases t
  {
    if IsDirty(t) then
      && u.Node? && u.depth == t.depth && u.route == t.route && |u.kids| == |t.kids|
      && forall c :: 0 <= c < |t.kids| ==> Placed(t.kids[c], u.kids[c])
    else u == t
  }

  /** Dirty nodes still to be written. */
  ghost function Dirties(t: Tree): nat
    decreases t, 1
  {
    if IsDirty(t) then 1 + DirtiesIn(t.kids) else 0
  }

  ghost function DirtiesIn(kids: seq<Tree>): nat
    decreases kids, 0
  {
    if kids == [] then 0 else DirtiesIn(kids[..|kids| - 1]) + Dirties(kids[|kids| - 1])
  }

  lemma {:induction false} DirtiesUpdate(kids: seq<Tree>, c: nat, x: Tree)
    requires c < |kids|
    ensures DirtiesIn(kids[c := x]) + Dirties(kids[c]) == DirtiesIn(kids) + Dirties(x)
  {
    var front, after := kids[..|kids| - 1], kids[c := x];
    if c == |kids| - 1 {
      assert after[..|kids| - 1] == front;
    } else {
      DirtiesUpdate(front, c, x);
      assert after[..|kids| - 1] == front[c := x];
    }
  }

  lemma {:induction false} NoDirties(kids: seq<Tree>)
    requires forall c :: 0 <= c < |kids| ==> !IsDirty(kids[c])
    ensures DirtiesIn(kids) == 0
  {
    if kids != [] {
      NoDirties(kids[..|kids| - 1]);
    }
  }

  lemma {:induction false} PlacedSelf(t: Tree)
    ensures Placed(t, t)
    decreases t
  {
    if t.Node? {
      forall c | 0 <= c < |t.kids|
        ensures Placed(t.kids[c], t.kids[c])
      {
        PlacedSelf(t.kids[c]);
      }
    }
  }

  lemma {:induction false} PlacedThen(t: Tree, u: Tree, w: Tree)
    requires Placed(t, u) && Placed(u, w)
    ensures Placed(t, w)
    decreases t
  {
    if IsDirty(t) {
      if IsDirty(u) {
        forall c | 0 <= c < |t.kids|
          ensures Placed(t.kids[c], w.kids[c])
        {
          PlacedThen(t.kids[c], u.kids[c], w.kids[c]);
        }
      }
    }
  }

  /** Placing nodes changes no lookup. */
  lemma {:induction false} PlacedFinds(t: Tree, u: Tree, d: nat, key: Key)
    requires Placed(t, u)
    ensures Find(u, d, key) == Find(t, d, key)
    decreases t
  {
    if IsDirty(t) && d < LEVELS && |t.kids| == WIDTH {
      PlacedFinds(t.kids[key[d]], u.kids[key[d]], d + 1, key);
    }
  }

  /** Between the cursors `from` and `to` exactly the dirty nodes that `u` no longer has were appended, one
      block each, and `u` is still a sound index of the same keys. */
  ghost predicate Flushed(t: Tree, u: Tree, pre: seq<nat>, from: nat, to: nat, len: Positive) {
    && from <= to
    && Placed(t, u)
    && Dirties(t) == Dirties(u) + (to - from)
    && Pos(u) == Pos(t) + Lap(from, to, len)
    && Once(u) && Sound(u, pre)
  }

  lemma {:induction false} FlushedNone(t: Tree, pre: seq<nat>, at: nat, len: Positive)
    requires Once(t) && Sound(t, pre)
    ensures Flushed(t, t, pre, at, at, len)
  {
    PlacedSelf(t);
    assert Lap(at, at, len) == {};
  }

  lemma {:induction false} FlushedThen(t: Tree, u: Tree, w: Tree, pre: seq<nat>, from: nat, mid: nat, to: nat, len: Positive)
    requires Flushed(t, u, pre, from, mid, len) && Flushed(u, w, pre, mid, to, len)
    ensures Flushed(t, w, pre, from, to, len)
  {
    PlacedThen(t, u, w);
    LapSplit(from, mid, to, len);
  }

  /** A dirty node whose child has been flushed. */
  lemma {:induction false} FlushedKid(u: Tree, pre: seq<nat>, c: nat, x: Tree, from: nat, to: nat, len: Positive)
    requires IsDirty(u) && c < |u.kids| && Once(u) && Sound(u, pre)
    requires Flushed(u.kids[c], x, pre + [c], from, to, len)
    requires Lap(from, to, len) !! Pos(u)
    ensures Flushed(u, u.(kids := u.kids[c := x]), pre, from, to, len)
  {
    var w := u.(kids := u.kids[c := x]);
    forall e | 0 <= e < |u.kids|
      ensures Placed(u.kids[e], w.kids[e])
    {
      PlacedSelf(u.kids[e]);
    }
    DirtiesUpdate(u.kids, c, x);
    FlushedKidPos(u, c, x, Lap(from, to, len));
    assert forall e :: 0 <= e < |u.kids| ==> Sound(w.kids[e], pre + [e]);
  }

  lemma {:induction false} FlushedKidPos(u: Tree, c: nat, x: Tree, lap: set<nat>)
    requires IsDirty(u) && c < |u.kids| && Once(u) && Once(x)
    requires Pos(x) == Pos(u.kids[c]) + lap && lap !! Pos(u)
    ensures var w := u.(kids := u.kids[c := x]); Pos(w) == Pos(u) + lap && Once(w)
  {
    hide Under, Rest, Apart;
    KidSwap(u.kids, c, x);
    var w := u.(kids := u.kids[c := x]);
    assert forall e :: 0 <= e < |w.kids| ==> Once(w.kids[e]);
  }

  /** A node all of whose children are committed, put at the plow. */
  lemma {:induction false} FlushedNode(u: Tree, pre: seq<nat>, at: nat, len: Positive)
    requires IsDirty(u) && Once(u) && Sound(u, pre)
    requires forall c :: 0 <= c < |u.kids| ==> !IsDirty(u.kids[c])
    requires at % len !in Pos(u)
    ensures Flushed(u, u.(place := At(at % len)), pre, at, at + 1, len)
  {
    var w := u.(place := At(at % len));
    NoDirties(u.kids);
    forall e | 0 <= e < |u.kids|
      ensures Placed(u.kids[e], w.kids[e])
    {
      PlacedSelf(u.kids[e]);
    }
    assert Lap(at, at + 1, len) == {at % len};
  }
}
