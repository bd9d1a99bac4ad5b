/** Self-addressing at work: any block a sound trie still references names its own repair path, and moving it
    changes one pointer and no lookup. */
module Moves {
  import opened Blocks
  import opened Runs
  import opened Trie
  import opened Media

  /** The committed pointer `p` occurs in the trie. */
  ghost predicate Points(t: Tree, p: Tree)
    decreases t
  {
    || (Committed(t) && t == p)
    || (t.Node? && exists c :: 0 <= c < |t.kids| && Points(t.kids[c], p))
  }

  /** The leaf `leaf` keeps its furrow number `index` at `pos`. */
  ghost predicate FurrowOf(leaf: Tree, index: nat, pos: nat) {
    leaf.Leaf? && index < |Furrows(leaf.body)| && Furrows(leaf.body)[index] == pos
  }

  /** What is sealed at a referenced position says which pointer references it. */
  ghost predicate RoleFits(t: Tree, pos: nat, doc: Doc) {
    match doc
    case NodeDoc(_, _, _) => Points(t, PointerTo(doc, pos))
    case LeafDoc(key, body) => Leaf(pos, key, body) in Leaves(t)
    case FurrowDoc(key, index, _) => exists leaf :: leaf in Leaves(t) && FurrowOf(leaf, index, pos) && leaf.key == key
  }

  lemma {:induction false} RoleUp(t: Tree, c: nat, pos: nat, doc: Doc)
    requires t.Node? && c < |t.kids| && RoleFits(t.kids[c], pos, doc)
    ensures RoleFits(t, pos, doc)
  {
    if doc.FurrowDoc? {
      var leaf :| leaf in Leaves(t.kids[c]) && FurrowOf(leaf, doc.index, pos) && leaf.key == doc.key;
      assert leaf in Leaves(t);
    }
  }

  lemma {:induction false} RoleOf(v: Medium, t: Tree, pos: nat)
    requires Held(v, t) && pos in Pos(t)
    ensures Has(v, pos) && v.disk[v.base + pos].Sealed?
    ensures RoleFits(t, pos, v.disk[v.base + pos].doc)
    decreases t
  {
    if t.Leaf? && pos != t.lba {
      var ps := Furrows(t.body);
      var i :| 0 <= i < |ps| && ps[i] == pos;
      assert FurrowAt(v, ps[i], t.key, i);
      assert FurrowOf(t, i, pos);
    } else if t.Node? && pos !in Own(t) {
      var c :| 0 <= c < |t.kids| && pos in Pos(t.kids[c]);
      RoleOf(v, t.kids[c], pos);
      RoleUp(t, c, pos, v.disk[v.base + pos].doc);
    }
  }

  // ---------------------------------------------------------------- leaves

  /** A leaf's pointer swapped for another of the same key and value. */
  lemma {:induction false} ReplaceLeaf(v: Medium, t: Tree, was: Tree, leaf: Tree)
    requires Sound(t, []) && Once(t) && Held(v, t)
    requires was.Leaf? && Find(t, 0, was.key) == was
    requires leaf.Leaf? && leaf.key == was.key && Once(leaf) && Held(v, leaf)
    requires ValueOf(v, leaf) == ValueOf(v, was) && Own(leaf) !! Pos(t) - Own(was)
    ensures var h := Hunt(was.key, was, LEVELS);
      var u := Graft(t, 0, h, leaf);
      && End(t, 0, h).0 == was
      && Sound(u, []) && Once(u) && Held(v, u) && Content(v, u) == Content(v, t)
      && (forall k: Key :: Find(u, 0, k) == if k == was.key then leaf else Find(t, 0, k))
      && Own(was) + Trail(t, 0, h) <= Pos(t) && Trail(t, 0, h) !! Own(was)
      && Pos(u) == Pos(t) - Own(was) - Trail(t, 0, h) + Own(leaf)
  {
    hide Held, Content, Sound, Once, Find, Leaves, ValueOf;
    var h := Hunt(was.key, was, LEVELS);
    LeafStop(t, [], h, leaf);
    assert Graft(t, 0, h, leaf) == Insert(t, leaf);
    EndPos(t, 0, h);
    GraftPos(t, 0, h, leaf);
    GraftHeld(v, t, 0, h, leaf);
    InsertMaps(t, leaf);
    ContentInsert(v, t, leaf);
    KeyIsFound(t, was.key);
    SameValue(v, t, was, leaf);
  }

  lemma {:induction false} SameValue(v: Medium, t: Tree, was: Tree, leaf: Tree)
    requires Sound(t, []) && was.Leaf? && Find(t, 0, was.key) == was && leaf.Leaf? && was.key == leaf.key
    requires ValueOf(v, leaf) == ValueOf(v, was)
    ensures Content(v, t)[leaf.key := ValueOf(v, leaf)] == Content(v, t)
  {
    KeyIsFound(t, was.key);
  }

  // ---------------------------------------------------------------- nodes

  /** The descent by a node's own route and depth ends at that node. */
  lemma {:induction false} NodeStop(t: Tree, pre: seq<nat>, n: Tree)
    requires Sound(t, pre) && n.Node? && Points(t, n)
    ensures n.place.At? && pre <= n.route && |pre| <= n.depth < LEVELS
    ensures End(t, |pre|, Hunt(n.route, n, n.depth + 1)) == (n, n.depth)
    ensures Sound(n, n.route[..n.depth])
    decreases t
  {
    var h := Hunt(n.route, n, n.depth + 1);
    if Committed(t) && t == n {
      assert pre == n.route[..n.depth];
    } else {
      var c :| 0 <= c < |t.kids| && Points(t.kids[c], n);
      NodeStop(t.kids[c], pre + [c], n);
      assert pre <= pre + [c] <= n.route;
      PrefixStep(pre, n.route);
    }
  }

  lemma {:induction false} MovedNode(v: Medium, n: Tree, pre: seq<nat>, to: nat)
    requires n.Node? && n.place.At? && Sound(n, pre) && Once(n) && Held(v, n)
    requires to !in Pos(n) && SealedAt(v, to, DocOf(n))
    ensures var x := n.(place := At(to));
      && Sound(x, pre) && Once(x) && Held(v, x)
      && Pos(x) == Pos(n) - {n.place.lba} + {to}
      && forall d, k: Key :: Find(x, d, k) == Find(n, d, k)
  {
  }

  /** A node's copy takes its place in the trie: one pointer changes, every lookup stays. */
  lemma {:induction false} MoveNode(v: Medium, t: Tree, n: Tree, to: nat)
    requires Sound(t, []) && Once(t) && Held(v, t) && n.Node? && Points(t, n)
    requires to !in Pos(t) && n.place.At? && SealedAt(v, to, DocOf(n)) && Held(v, n)
    ensures var h := Hunt(n.route, n, n.depth + 1);
      var u := Graft(t, 0, h, n.(place := At(to)));
      && n.depth < LEVELS && End(t, 0, h).0 == n
      && Sound(u, []) && Once(u) && Held(v, u) && Content(v, u) == Content(v, t)
      && (forall k: Key :: Find(u, 0, k) == Find(t, 0, k))
      && Trail(t, 0, h) <= Pos(t) && n.place.lba in Pos(t) && n.place.lba !in Trail(t, 0, h)
      && Pos(u) == Pos(t) - {n.place.lba} - Trail(t, 0, h) + {to}
  {
    hide Held, Content, Sound, Once, Leaves;
    NodeStop(t, [], n);
    var h := Hunt(n.route, n, n.depth + 1);
    var x := n.(place := At(to));
    EndPos(t, 0, h);
    MovedNode(v, n, n.route[..n.depth], to);
    GraftSound(t, [], h, x);
    GraftPos(t, 0, h, x);
    GraftHeld(v, t, 0, h, x);
    var u := Graft(t, 0, h, x);
    assert n.place.lba in Own(n) && Own(n) <= Pos(n);
    assert Pos(u) == Pos(t) - {n.place.lba} - Trail(t, 0, h) + {to};
    forall k: Key
      ensures Find(u, 0, k) == Find(t, 0, k)
    {
      if n.route[..n.depth] <= k {
        GraftFind(t, [], h, x, k);
      } else {
        GraftKeeps(t, [], h, x, k);
      }
    }
    ContentByFind(v, t, u);
  }

  lemma {:induction false} PointsHeld(v: Medium, t: Tree, p: Tree)
    requires Held(v, t) && Points(t, p)
    ensures Held(v, p) && Committed(p) && LbaOf(p) in Pos(t)
    decreases t
  {
    if !(Committed(t) && t == p) {
      var c :| 0 <= c < |t.kids| && Points(t.kids[c], p);
      PointsHeld(v, t.kids[c], p);
      assert Pos(t.kids[c]) <= Under(t.kids);
    }
  }

  /** How a relocated block is looked for: a leaf by its key, a node by its route and depth. */
  function HuntOf(doc: Doc, pos: nat): Hunt
    requires !doc.FurrowDoc?
  {
    match doc
    case NodeDoc(depth, route, _) => Hunt(route, PointerTo(doc, pos), depth + 1)
    case LeafDoc(key, _) => Hunt(key, PointerTo(doc, pos), LEVELS)
  }

  /** A move as the reap makes it: `u` is `t` with only the moved block's pointer swapped. */
  ghost predicate Moved(v: Medium, t: Tree, u: Tree, h: Hunt, was: Tree, pos: nat, to: nat) {
    && Committed(was) && End(t, 0, h).0 == was
    && Sound(u, []) && Once(u) && Held(v, u) && Content(v, u) == Content(v, t)
    && Trail(t, 0, h) <= Pos(t) && pos !in Trail(t, 0, h)
    && Pos(u) == Pos(t) - {pos} - Trail(t, 0, h) + {to}
  }

  lemma {:induction false} MoveNodeDoc(v: Medium, t: Tree, n: Tree, to: nat)
    requires Sound(t, []) && Once(t) && Held(v, t) && n.Node? && Points(t, n) && n.place.At?
    requires to !in Pos(t) && SealedAt(v, to, DocOf(n))
    ensures var h := Hunt(n.route, n, n.depth + 1);
      Moved(v, t, Graft(t, 0, h, n.(place := At(to))), h, n, n.place.lba, to)
  {
    PointsHeld(v, t, n);
    MoveNode(v, t, n, to);
  }

  /** Moving a referenced block and repointing it by its own address: exactly its pointer changes, the map
      does not, and the only positions freed are its own and its superseded path. */
  lemma {:induction false} MoveBlock(v: Medium, t: Tree, doc: Doc, pos: nat, to: nat)
    requires Sound(t, []) && Once(t) && Held(v, t) && !doc.FurrowDoc?
    requires pos in Pos(t) && SealedAt(v, pos, doc) && to !in Pos(t) && SealedAt(v, to, doc)
    ensures Moved(v, t, Graft(t, 0, HuntOf(doc, pos), PointerTo(doc, to)), HuntOf(doc, pos), PointerTo(doc, pos), pos, to)
  {
    RoleOf(v, t, pos);
    hide Sound, Once, Held, Pos, Points, Moved, Graft;
    if doc.NodeDoc? {
      MoveNodeDoc(v, t, PointerTo(doc, pos), to);
    } else {
      MoveLeaf(v, t, Leaf(pos, doc.key, doc.body), to);
    }
  }

  lemma {:induction false} MoveLeaf(v: Medium, t: Tree, was: Tree, to: nat)
    requires Sound(t, []) && Once(t) && Held(v, t) && was in Leaves(t) && was.Leaf?
    requires to !in Pos(t) && SealedAt(v, to, DocOf(was))
    ensures var h := Hunt(was.key, was, LEVELS);
      Moved(v, t, Graft(t, 0, h, was.(lba := to)), h, was, was.lba, to)
  {
    hide Content;
    var x := was.(lba := to);
    FindIsMembership(t, [], was);
    HeldLeaf(v, t, was);
    LeafOwn(t, was);
    OnceLeaf(t, was);
    assert Own(was) == {was.lba} + Elems(Furrows(was.body)) && Own(x) == {to} + Elems(Furrows(was.body));
    ReplaceLeaf(v, t, was, x);
  }

  lemma {:induction false} OnceLeaf(t: Tree, leaf: Tree)
    requires Once(t) && leaf in Leaves(t)
    ensures Once(leaf)
    decreases t
  {
    if t.Node? {
      var c :| 0 <= c < |t.kids| && leaf in Leaves(t.kids[c]);
      OnceLeaf(t.kids[c], leaf);
    }
  }
}
