/** Repair of a damaged index: the walk that reports every pointer whose target is lost instead of refusing, the prunes
    that unlink them, and what is left. */
module Repairs {
  import opened Blocks
  import opened Runs
  import opened Trie
  import opened Media
  import opened Arenas
  import opened Devices
  import opened Mirrors
  import opened Tracts
  import opened Hamts
  import opened Walks

  // ---------------------------------------------------------------- what is lost

  /** The target of a pointer is lost: zeroed, unsealed or another block, or a leaf some furrow of which is. */
  ghost predicate Bad(v: Medium, t: Tree) {
    Blocks.Committed(t) && (!Hamts.Readable(v, t) || (t.Leaf? && !BodyHeld(v, t.key, t.body)))
  }

  /** The topmost lost pointers. */
  ghost function Lost(v: Medium, t: Tree): set<Tree>
    decreases t
  {
    if Bad(v, t) then {t}
    else if t.Node? then set c, p | 0 <= c < |t.kids| && p in Lost(v, t.kids[c]) :: p
    else {}
  }

  /** The leaves no lost pointer hides. */
  ghost function Spared(v: Medium, t: Tree): set<Tree>
    decreases t
  {
    if Bad(v, t) then {}
    else match t
      case Nil => {}
      case Leaf(_, _, _) => {t}
      case Node(_, _, _, kids) => set c, l | 0 <= c < |kids| && l in Spared(v, kids[c]) :: l
  }

  /** The positions they and the nodes above them occupy. */
  ghost function Firm(v: Medium, t: Tree): set<nat>
    decreases t, 1
  {
    if Bad(v, t) then {} else Own(t) + (if t.Node? then FirmUnder(v, t.kids) else {})
  }

  ghost function FirmUnder(v: Medium, kids: seq<Tree>): set<nat>
    decreases kids, 0
  {
    set c, p | 0 <= c < |kids| && p in Firm(v, kids[c]) :: p
  }

  /** Following `key` from `t` leads over sound nodes to the lost pointer `p`. */
  ghost predicate Aimed(v: Medium, t: Tree, d: nat, key: Key, p: Tree)
    decreases t
  {
    if t == p then Bad(v, t)
    else t.Node? && !Bad(v, t) && d < LEVELS && |t.kids| == WIDTH && Aimed(v, t.kids[key[d]], d + 1, key, p)
  }

  /** Every block on the path of `key` reads, its leaf is there, and so is each of its furrows. */
  ghost predicate Safe(v: Medium, t: Tree, d: nat, key: Key)
    decreases t
  {
    && !Bad(v, t)
    && match t
       case Nil => false
       case Leaf(_, k, _) => k == key
       case Node(_, _, _, kids) => d < LEVELS && |kids| == WIDTH && Safe(v, kids[key[d]], d + 1, key)
  }

  // ---------------------------------------------------------------- laws

  lemma {:induction false} FirmPos(v: Medium, t: Tree)
    ensures Firm(v, t) <= Pos(t)
    decreases t
  {
    if t.Node? {
      forall c | 0 <= c < |t.kids|
        ensures Firm(v, t.kids[c]) <= Pos(t.kids[c])
      {
        FirmPos(v, t.kids[c]);
      }
    }
  }

  lemma {:induction false} LostPos(v: Medium, t: Tree, p: Tree)
    requires p in Lost(v, t)
    ensures Bad(v, p) && LbaOf(p) in Pos(t)
    decreases t
  {
    if !Bad(v, t) {
      var c :| 0 <= c < |t.kids| && p in Lost(v, t.kids[c]);
      LostPos(v, t.kids[c], p);
      assert Pos(t.kids[c]) <= Under(t.kids);
    }
  }

  /** An aimed pointer is a topmost lost one, the prune's descent reaches it, and it is where that ends. */
  lemma {:induction false} AimedMeets(v: Medium, t: Tree, d: nat, h: Hunt)
    requires Aimed(v, t, d, h.key, h.stop) && h.limit >= LEVELS
    ensures h.stop in Lost(v, t) && Walkable(v, t, d, h) && Met(t, d, h) && End(t, d, h).0 == h.stop
    decreases t
  {
    if t != h.stop {
      var c := h.key[d];
      AimedMeets(v, t.kids[c], d + 1, h);
      assert h.stop in Lost(v, t.kids[c]);
    }
  }

  /** One prune: that pointer is gone, the others stay lost, and what was spared stays, less the superseded path. */
  lemma {:induction false} PruneLaw(v: Medium, t: Tree, pre: seq<nat>, h: Hunt)
    requires Sound(t, pre) && pre <= h.key && Once(t) && h.limit >= LEVELS
    requires Aimed(v, t, |pre|, h.key, h.stop)
    ensures var u := Graft(t, |pre|, h, Nil);
      && Lost(v, u) == Lost(v, t) - {h.stop}
      && Spared(v, u) == Spared(v, t)
      && Firm(v, u) == Firm(v, t) - Trail(t, |pre|, h)
    decreases t
  {
    if t != h.stop {
      var c := h.key[|pre|];
      var kid := t.kids[c];
      PrefixStep(pre, h.key);
      PruneLaw(v, kid, pre + [c], h);
      AimedMeets(v, t, |pre|, h);
      AimedMeets(v, kid, |pre| + 1, h);
      EndPos(kid, |pre| + 1, h);
      PruneStep(v, t, pre, h, Graft(kid, |pre| + 1, h, Nil));
    }
  }

  /** The child pruned, so is the node. */
  lemma {:induction false} PruneStep(v: Medium, t: Tree, pre: seq<nat>, h: Hunt, x: Tree)
    requires t.Node? && !Bad(v, t) && !Halts(t, |pre|, h) && Apart(t.kids) && Own(t) !! Under(t.kids)
    requires var c := h.key[|pre|]; var kid := t.kids[c];
      && x == Graft(kid, |pre| + 1, h, Nil) && h.stop in Lost(v, kid) && Trail(kid, |pre| + 1, h) <= Pos(kid)
      && Trail(t, |pre|, h) == Own(t) + Trail(kid, |pre| + 1, h)
      && Lost(v, x) == Lost(v, kid) - {h.stop} && Spared(v, x) == Spared(v, kid) && Firm(v, x) == Firm(v, kid) - Trail(kid, |pre| + 1, h)
    ensures var u := Graft(t, |pre|, h, Nil);
      && Lost(v, u) == Lost(v, t) - {h.stop}
      && Spared(v, u) == Spared(v, t)
      && Firm(v, u) == Firm(v, t) - Trail(t, |pre|, h)
  {
    hide Graft, Bad, Lost, Spared, Firm, Pos, Own, Trail, Apart, Under;
    var c := h.key[|pre|];
    LostSwap(v, t.kids, c, x, h.stop);
    FirmSwap(v, t.kids, c, x, Trail(t.kids[c], |pre| + 1, h), Own(t));
    PrunedNode(v, t, pre, h, x);
  }

  /** The copy of a sound node answers for its children alone. */
  lemma {:induction false} PrunedNode(v: Medium, t: Tree, pre: seq<nat>, h: Hunt, x: Tree)
    requires t.Node? && !Bad(v, t) && !Halts(t, |pre|, h) && x == Graft(t.kids[h.key[|pre|]], |pre| + 1, h, Nil)
    ensures var after := t.kids[h.key[|pre|] := x]; var u := Graft(t, |pre|, h, Nil);
      && Lost(v, u) == LostUnder(v, after) && Spared(v, u) == SparedUnder(v, after) && Firm(v, u) == FirmUnder(v, after)
      && Lost(v, t) == LostUnder(v, t.kids) && Spared(v, t) == SparedUnder(v, t.kids) && Firm(v, t) == Own(t) + FirmUnder(v, t.kids)
  {
  }

  ghost function LostUnder(v: Medium, kids: seq<Tree>): set<Tree> {
    set c, p | 0 <= c < |kids| && p in Lost(v, kids[c]) :: p
  }

  ghost function SparedUnder(v: Medium, kids: seq<Tree>): set<Tree> {
    set c, l | 0 <= c < |kids| && l in Spared(v, kids[c]) :: l
  }

  lemma {:induction false} LostSwap(v: Medium, kids: seq<Tree>, c: nat, x: Tree, gone: Tree)
    requires c < |kids| && Apart(kids) && gone in Lost(v, kids[c])
    requires Lost(v, x) == Lost(v, kids[c]) - {gone} && Spared(v, x) == Spared(v, kids[c])
    ensures LostUnder(v, kids[c := x]) == LostUnder(v, kids) - {gone}
    ensures SparedUnder(v, kids[c := x]) == SparedUnder(v, kids)
  {
    hide Lost, Spared, Pos, Bad;
    var after := kids[c := x];
    LostPos(v, kids[c], gone);
    forall e | 0 <= e < |kids| && e != c
      ensures after[e] == kids[e] && gone !in Lost(v, kids[e])
    {
      if gone in Lost(v, kids[e]) {
        LostPos(v, kids[e], gone);
      }
    }
    assert after[c] == x;
    forall p | p in LostUnder(v, kids) && p != gone
      ensures p in LostUnder(v, after)
    {
      var e :| 0 <= e < |kids| && p in Lost(v, kids[e]);
      assert p in Lost(v, after[e]);
    }
    forall p | p in LostUnder(v, after)
      ensures p in LostUnder(v, kids) && p != gone
    {
      var e :| 0 <= e < |after| && p in Lost(v, after[e]);
      assert p in Lost(v, kids[e]);
    }
    forall l | l in SparedUnder(v, kids)
      ensures l in SparedUnder(v, after)
    {
      var e :| 0 <= e < |kids| && l in Spared(v, kids[e]);
      assert l in Spared(v, after[e]);
    }
  }

  lemma {:induction false} FirmSwap(v: Medium, kids: seq<Tree>, c: nat, x: Tree, trail: set<nat>, own: set<nat>)
    requires c < |kids| && Apart(kids) && trail <= Pos(kids[c]) && own !! Under(kids)
    requires Firm(v, x) == Firm(v, kids[c]) - trail
    ensures FirmUnder(v, kids[c := x]) == own + FirmUnder(v, kids) - (own + trail)
  {
    hide Firm, Pos;
    var after := kids[c := x];
    forall e | 0 <= e < |kids|
      ensures Firm(v, kids[e]) <= Pos(kids[e]) <= Under(kids)
    {
      FirmPos(v, kids[e]);
    }
    forall p, e | 0 <= e < |kids| && e != c && p in Firm(v, kids[e])
      ensures p !in trail && p in FirmUnder(v, after)
    {
      assert p in Rest(kids, c) && after[e] == kids[e];
    }
    forall p | p in FirmUnder(v, after)
      ensures p in FirmUnder(v, kids) && p !in trail
    {
      var e :| 0 <= e < |after| && p in Firm(v, after[e]);
      assert e != c ==> after[e] == kids[e];
      assert e == c ==> p in Firm(v, kids[c]);
    }
    assert after[c] == x;
    forall p | p in FirmUnder(v, kids) && p !in trail
      ensures p in FirmUnder(v, after) && p !in own
    {
      var e :| 0 <= e < |kids| && p in Firm(v, kids[e]);
      assert e == c ==> p in Firm(v, after[c]);
    }
  }

  lemma {:induction false} AimedBad(v: Medium, t: Tree, d: nat, key: Key, p: Tree)
    requires Aimed(v, t, d, key, p)
    ensures Bad(v, p) && p in Lost(v, t)
    decreases t
  {
    if t != p {
      AimedBad(v, t.kids[key[d]], d + 1, key, p);
      assert p in Lost(v, t.kids[key[d]]);
    }
  }

  lemma {:induction false} KidSound(t: Tree, pre: seq<nat>, key: Key)
    requires Sound(t, pre) && Once(t) && t.Node? && pre <= key
    ensures |pre| < LEVELS && |t.kids| == WIDTH && Sound(t.kids[key[|pre|]], pre + [key[|pre|]]) && Once(t.kids[key[|pre|]])
    ensures pre + [key[|pre|]] <= key
  {
    PrefixStep(pre, key);
  }

  /** The descent goes through a node that is neither lost nor hunted; its copy is neither. */
  lemma {:induction false} AimedStep(v: Medium, t: Tree, d: nat, h: Hunt)
    requires Aimed(v, t, d, h.key, h.stop) && t != h.stop && h.limit >= LEVELS
    ensures t.Node? && d < LEVELS && |t.kids| == WIDTH && !Bad(v, t) && Aimed(v, t.kids[h.key[d]], d + 1, h.key, h.stop)
    ensures var u := Node(Dirty, t.depth, t.route, t.kids[h.key[d] := Graft(t.kids[h.key[d]], d + 1, h, Nil)]);
      Graft(t, d, h, Nil) == u && !Bad(v, u) && !Blocks.Committed(u)
  {
  }

  /** The other lost pointers stay aimed at. */
  lemma {:induction false} PruneAims(v: Medium, t: Tree, pre: seq<nat>, h: Hunt, key: Key, p: Tree)
    requires Sound(t, pre) && pre <= h.key && Once(t) && h.limit >= LEVELS
    requires Aimed(v, t, |pre|, h.key, h.stop) && Aimed(v, t, |pre|, key, p) && p != h.stop
    ensures Aimed(v, Graft(t, |pre|, h, Nil), |pre|, key, p)
    decreases t
  {
    hide Sound, Once, Bad, Graft, Lost;
    AimedBad(v, t, |pre|, key, p);
    AimedBad(v, t, |pre|, h.key, h.stop);
    BadCommitted(v, p);
    if t != h.stop {
      AimedStep(v, t, |pre|, h);
      var c := h.key[|pre|];
      KidSound(t, pre, h.key);
      var x := Graft(t.kids[c], |pre| + 1, h, Nil);
      var u := Node(Dirty, t.depth, t.route, t.kids[c := x]);
      assert Graft(t, |pre|, h, Nil) == u && t != p && u != p;
      if key[|pre|] == c {
        PruneAims(v, t.kids[c], pre + [c], h, key, p);
      }
    }
  }

  lemma {:induction false} BadCommitted(v: Medium, p: Tree)
    requires Bad(v, p)
    ensures Blocks.Committed(p)
  {
  }

  /** Every pointer reads, and every leaf's furrows are its own. */
  ghost predicate Mended(v: Medium, t: Tree)
    decreases t
  {
    && !Bad(v, t)
    && (t.Node? ==> forall c :: 0 <= c < |t.kids| ==> Mended(v, t.kids[c]))
  }

  /** With nothing lost, everything is spared. */
  lemma {:induction false} NothingLost(v: Medium, t: Tree)
    requires Lost(v, t) == {}
    ensures Mended(v, t) && Leaves(t) == Spared(v, t) && Pos(t) == Firm(v, t)
    decreases t
  {
    assert Bad(v, t) ==> t in Lost(v, t);
    if t.Node? {
      forall c | 0 <= c < |t.kids|
        ensures Mended(v, t.kids[c]) && Leaves(t.kids[c]) == Spared(v, t.kids[c]) && Pos(t.kids[c]) == Firm(v, t.kids[c])
      {
        assert forall p :: p in Lost(v, t.kids[c]) ==> p in Lost(v, t);
        NothingLost(v, t.kids[c]);
      }
      assert Under(t.kids) == FirmUnder(v, t.kids);
    }
  }

  /** A mended index is held by the device. */
  lemma {:induction false} MendedHeld(v: Medium, t: Tree)
    requires Mended(v, t)
    ensures Held(v, t)
    decreases t
  {
    if t.Node? {
      forall c | 0 <= c < |t.kids|
        ensures Held(v, t.kids[c])
      {
        MendedHeld(v, t.kids[c]);
      }
    }
  }

  /** Held is not yet readable: furrows sealed under their owner and in order may still carry too few bytes between them.
      No walk looks at that, so such a leaf is kept, and a read of its key is refused. */
  lemma {:induction false} MendedShort(key: Key)
    ensures var body := Extent(1, [Run(0, 1)]);
      var v := Medium([Sealed(FurrowDoc(key, 0, [])), Sealed(LeafDoc(key, body))], 0, 2);
      Mended(v, Leaf(1, key, body)) && Held(v, Leaf(1, key, body)) && ValueOf(v, Leaf(1, key, body)) == Short
  {
    var runs := [Run(0, 1)];
    var body := Extent(1, runs);
    var v := Medium([Sealed(FurrowDoc(key, 0, [])), Sealed(LeafDoc(key, body))], 0, 2);
    OneRun();
    assert FurrowAt(v, 0, key, 0) && PayloadAt(v, 0) == [];
    assert SealedAt(v, 1, LeafDoc(key, body));
    assert BodyHeld(v, key, body);
    EmptyFurrow(v, Expand(runs));
  }

  lemma {:induction false} EmptyFurrow(v: Medium, ps: seq<nat>)
    requires |ps| == 1 && PayloadAt(v, ps[0]) == []
    ensures Assemble(v, ps) == []
  {
    var parts: seq<Value> := seq(|ps|, i requires 0 <= i < |ps| => PayloadAt(v, ps[i]));
    assert parts[1..] == [] && Join(parts) == parts[0] + Join([]);
  }

  lemma {:induction false} OneRun()
    ensures var runs := [Run(0, 1)]; Expand(runs) == [0] && Total(runs) == 1 == CeilDiv(1, FURROW_CAP) && Inside(runs, 2)
  {
    var runs := [Run(0, 1)];
    assert runs[1..] == [];
    assert Expand([]) == [] && Total([]) == 0;
  }

  lemma {:induction false} SparedLeaf(v: Medium, t: Tree, leaf: Tree)
    requires leaf in Spared(v, t)
    ensures leaf in Leaves(t) && leaf.Leaf?
    decreases t
  {
    if t.Node? {
      var c :| 0 <= c < |t.kids| && leaf in Spared(v, t.kids[c]);
      SparedLeaf(v, t.kids[c], leaf);
    }
  }

  /** A key's leaf is spared exactly when every block its reading needs is sound. */
  lemma {:induction false} SparedIsSafe(v: Medium, t: Tree, pre: seq<nat>, key: Key)
    requires Sound(t, pre) && pre <= key
    ensures Safe(v, t, |pre|, key) <==> Find(t, |pre|, key).Leaf? && Find(t, |pre|, key) in Spared(v, t)
    decreases t
  {
    if t.Node? && !Bad(v, t) {
      var c := key[|pre|];
      PrefixStep(pre, key);
      SparedIsSafe(v, t.kids[c], pre + [c], key);
      var leaf := Find(t, |pre|, key);
      if leaf.Leaf? && leaf in Spared(v, t) {
        var e :| 0 <= e < |t.kids| && leaf in Spared(v, t.kids[e]);
        SparedLeaf(v, t.kids[e], leaf);
        FindIsMembership(t.kids[e], pre + [e], leaf);
      }
    }
  }

  /** The map a repair leaves: every key all of whose blocks are sound, with the value it had. */
  ghost function SafeMap(v: Medium, root: Tree): map<Key, Stored> {
    map k | k in Keys(root) && Safe(v, root, 0, k) :: ValueOf(v, Find(root, 0, k))
  }

  lemma {:induction false} MendedMap(v: Medium, root: Tree, u: Tree)
    requires Sound(root, []) && Sound(u, []) && Leaves(u) == Spared(v, root)
    ensures Content(v, u) == SafeMap(v, root)
  {
    hide Sound, Find, Leaves, Spared, Safe, ValueOf;
    forall k: Key
      ensures k in Keys(u) <==> k in Keys(root) && Safe(v, root, 0, k)
      ensures k in Keys(u) ==> Find(u, 0, k) == Find(root, 0, k)
    {
      SparedIsSafe(v, root, [], k);
      KeyIsFound(u, k);
      KeyIsFound(root, k);
      var l := Find(root, 0, k);
      if k in Keys(u) {
        var m := Find(u, 0, k);
        SparedLeaf(v, root, m);
        FindIsMembership(root, [], m);
      }
      if k in Keys(root) && Safe(v, root, 0, k) {
        FindIsMembership(u, [], l);
        assert l in Leaves(u);
      }
    }
  }

  /** Over an index the device holds whole, nothing is lost and the map is the index's own. */
  lemma {:induction false} HeldSpared(v: Medium, t: Tree, pre: seq<nat>)
    requires Held(v, t) && Sound(t, pre)
    ensures Lost(v, t) == {}
    decreases t
  {
    if Blocks.Committed(t) {
      HeldDoc(v, t, pre);
    }
    if t.Node? {
      forall c | 0 <= c < WIDTH
        ensures Lost(v, t.kids[c]) == {}
      {
        HeldSpared(v, t.kids[c], pre + [c]);
      }
    }
  }

  lemma {:induction false} HealthyMap(v: Medium, root: Tree)
    requires Held(v, root) && Sound(root, [])
    ensures SafeMap(v, root) == Content(v, root)
  {
    hide Sound, Held, Leaves, Spared, Safe, Lost;
    HeldSpared(v, root, []);
    NothingLost(v, root);
    MendedMap(v, root, root);
  }

  // ---------------------------------------------------------------- the repair walk

  ghost function Aims(told: multiset<Item>): set<Tree> {
    set x | x in told :: x.ptr
  }

  lemma {:induction false} AimsPlus(a: multiset<Item>, b: multiset<Item>)
    ensures Aims(a + b) == Aims(a) + Aims(b)
  {
    forall p | p in Aims(a) + Aims(b)
      ensures p in Aims(a + b)
    {
      var x :| (x in a || x in b) && x.ptr == p;
      assert x in a + b;
    }
  }

  /** Each item once, no pointer by two items, each with a route that leads to it. */
  ghost predicate Telling(v: Medium, t: Tree, d: nat, route: Key, told: multiset<Item>) {
    && (forall x :: x in told ==> ToldItem(v, t, d, route, x) && told[x] == 1)
    && (forall x, y :: x in told && y in told && x.ptr == y.ptr ==> x == y)
  }

  ghost predicate ToldItem(v: Medium, t: Tree, d: nat, route: Key, x: Item) {
    Aimed(v, t, d, x.route, x.ptr) && d <= LEVELS && x.route[..d] == route[..d]
  }

  /** A report that names exactly the topmost lost pointers. */
  ghost predicate Told(v: Medium, t: Tree, d: nat, route: Key, told: multiset<Item>) {
    Telling(v, t, d, route, told) && Aims(told) == Lost(v, t)
  }

  /** The same of a node's first children. */
  ghost predicate ToldKids(v: Medium, t: Tree, d: nat, route: Key, n: nat, told: multiset<Item>)
    requires t.Node? && n <= |t.kids|
  {
    Telling(v, t, d, route, told) && Aims(told) == LostUnder(v, t.kids[..n])
  }

  lemma {:induction false} ToldNone(v: Medium, t: Tree, d: nat, route: Key)
    requires t.Node?
    ensures ToldKids(v, t, d, route, 0, multiset{})
  {
  }

  lemma {:induction false} ToldBad(v: Medium, item: Item)
    requires Bad(v, item.ptr) && item.depth <= LEVELS
    ensures Told(v, item.ptr, item.depth, item.route, multiset{item}) && Firm(v, item.ptr) == {}
  {
    var told := multiset{item};
    assert item in told;
  }

  lemma {:induction false} ToldNothing(v: Medium, item: Item)
    requires item.ptr.Leaf? && !Bad(v, item.ptr)
    ensures Told(v, item.ptr, item.depth, item.route, multiset{}) && Firm(v, item.ptr) == Own(item.ptr)
  {
  }

  lemma {:induction false} LostSplit(v: Medium, kids: seq<Tree>, c: nat)
    requires c < |kids|
    ensures LostUnder(v, kids[..c + 1]) == LostUnder(v, kids[..c]) + Lost(v, kids[c])
    ensures FirmUnder(v, kids[..c + 1]) == FirmUnder(v, kids[..c]) + Firm(v, kids[c])
  {
    hide Lost, Firm;
    var a, b := kids[..c], kids[..c + 1];
    assert b[c] == kids[c] && forall e :: 0 <= e < c ==> b[e] == a[e];
    forall p | p in LostUnder(v, a)
      ensures p in LostUnder(v, b)
    {
      var e :| 0 <= e < |a| && p in Lost(v, a[e]);
      assert p in Lost(v, b[e]);
    }
    forall p | p in FirmUnder(v, a)
      ensures p in FirmUnder(v, b)
    {
      var e :| 0 <= e < |a| && p in Firm(v, a[e]);
      assert p in Firm(v, b[e]);
    }
  }

  /** One more child's report. */
  lemma {:induction false} ToldMore(v: Medium, item: Item, c: nat, told: multiset<Item>, more: multiset<Item>)
    requires item.ptr.Node? && !Bad(v, item.ptr) && |item.ptr.kids| == WIDTH && c < WIDTH && item.depth < LEVELS && Apart(item.ptr.kids)
    requires ToldKids(v, item.ptr, item.depth, item.route, c, told)
    requires Told(v, item.ptr.kids[c], item.depth + 1, RouteWith(item.route, item.depth, c), more)
    ensures ToldKids(v, item.ptr, item.depth, item.route, c + 1, told + more)
  {
    hide Lost, LostUnder, Pos, Bad, ToldItem, Apart;
    var t, d := item.ptr, item.depth;
    LostSplit(v, t.kids, c);
    AimsPlus(told, more);
    forall x | x in more
      ensures ToldItem(v, t, d, item.route, x)
    {
      ToldUp(v, item, c, x);
    }
    forall x, y | x in told && y in more
      ensures x.ptr != y.ptr
    {
      assert x.ptr in Aims(told) && y.ptr in Aims(more);
      if x.ptr == y.ptr {
        ToldApart(v, t.kids, c, x.ptr);
      }
    }
  }

  lemma {:induction false} ToldUp(v: Medium, item: Item, c: nat, x: Item)
    requires item.ptr.Node? && !Bad(v, item.ptr) && |item.ptr.kids| == WIDTH && c < WIDTH && item.depth < LEVELS
    requires ToldItem(v, item.ptr.kids[c], item.depth + 1, RouteWith(item.route, item.depth, c), x)
    ensures ToldItem(v, item.ptr, item.depth, item.route, x)
  {
    var d := item.depth;
    AimedBad(v, item.ptr.kids[c], d + 1, x.route, x.ptr);
    var r := RouteWith(item.route, d, c);
    assert x.route[d] == x.route[..d + 1][d] == r[..d + 1][d] == c;
    assert x.route[..d] == x.route[..d + 1][..d] == r[..d + 1][..d] == r[..d];
  }

  /** No pointer is lost under two children. */
  lemma {:induction false} ToldApart(v: Medium, kids: seq<Tree>, c: nat, p: Tree)
    requires c < |kids| && Apart(kids)
    requires p in LostUnder(v, kids[..c]) && p in Lost(v, kids[c])
    ensures false
  {
    hide Lost, Bad, Pos;
    var e :| 0 <= e < c && p in Lost(v, kids[..c][e]);
    LostPos(v, kids[e], p);
    LostPos(v, kids[c], p);
    assert Pos(kids[c]) !! Rest(kids, c);
  }

  lemma {:induction false} ToldNode(v: Medium, item: Item, told: multiset<Item>)
    requires item.ptr.Node? && !Bad(v, item.ptr) && item.depth <= LEVELS && ToldKids(v, item.ptr, item.depth, item.route, |item.ptr.kids|, told)
    ensures Told(v, item.ptr, item.depth, item.route, told)
    ensures Firm(v, item.ptr) == Own(item.ptr) + FirmUnder(v, item.ptr.kids)
  {
    assert item.ptr.kids[..|item.ptr.kids|] == item.ptr.kids;
  }

  /** The committed subtree an item heads is one the engine wrote: sound, every position in one role. */
  ghost predicate Sane(item: Item) {
    Blocks.Committed(item.ptr) && item.depth <= LEVELS && Sound(item.ptr, item.route[..item.depth]) && Once(item.ptr)
  }

  lemma {:induction false} SaneKid(item: Item, c: nat)
    requires Sane(item) && item.ptr.Node? && c < WIDTH
    ensures |item.ptr.kids| == WIDTH && item.depth == item.ptr.depth < LEVELS && Apart(item.ptr.kids) && Own(item.ptr) !! Under(item.ptr.kids)
    ensures !item.ptr.kids[c].Nil? ==> Sane(Item(item.ptr.kids[c], RouteWith(item.route, item.depth, c), item.depth + 1))
  {
    var r := RouteWith(item.route, item.depth, c);
    assert r[..item.depth + 1] == item.route[..item.depth] + [c];
    assert !IsDirty(item.ptr.kids[c]);
  }

  class RepairWalk {
    const visited: Visited
    var out: seq<Ref>
    var stale: seq<Item>
    var dangling: seq<Item>

    constructor (len: nat)
      ensures fresh(visited) && fresh(visited.bits) && visited.bits.Length == len && visited.Marked() == {}
      ensures out == [] && stale == [] && dangling == []
    {
      visited := new Visited(len);
      out, stale, dangling := [], [], [];
    }

    ghost predicate Valid(v: Medium)
      reads this, visited
    {
      visited.bits.Length == v.len && RefsTrue(v, out)
    }

    /** Everything reported so far. */
    ghost function Reported(): multiset<Item>
      reads this
    {
      multiset(stale) + multiset(dangling)
    }

    method Lose(item: Item)
      modifies this`dangling
      ensures Reported() == old(Reported()) + multiset{item}
    {
      dangling := dangling + [item];
    }

    /** One pointer and everything under it. A target that is zeroed, unsealed, another's, met twice, at a depth it does
        not claim, or short of a furrow is reported with the route to it; what is sound is collected. */
    method Visit(m: Mirror, t: Tract, item: Item) returns (r: Result<()>, ghost told: multiset<Item>)
      requires m.Valid() && t.base + t.len <= |m.disk| && Valid(t.View(m)) && Blocks.Committed(item.ptr)
      modifies this`out, this`stale, this`dangling, visited.bits, m`cache, m`uses
      decreases |visited.Free()|, 1
      ensures m.Valid() && m.disk == old(m.disk) && Valid(t.View(m)) && visited.Free() <= old(visited.Free())
      ensures r == if LbaOf(item.ptr) < t.len then Ok(()) else Err(Bounds(LbaOf(item.ptr)))
      ensures Reported() == old(Reported()) + told
      ensures Sane(item) && Pos(item.ptr) !! old(visited.Marked()) && r.Ok? ==>
        && Told(t.View(m), item.ptr, item.depth, item.route, told)
        && Lbas(out) == old(Lbas(out)) + Firm(t.View(m), item.ptr)
        && visited.Marked() <= old(visited.Marked()) + Pos(item.ptr)
    {
      hide Told, Lost, Firm, Sane, Pos, Bad, RefsTrue, Lbas, Visited.Free, Visited.Marked, Inside, Mirrors.Mirror.Valid;
      ghost var v := t.View(m);
      told := multiset{};
      var lba := LbaOf(item.ptr);
      var read := ReadDoc(m, t, lba, DocOf(item.ptr));
      ReadSays(v, item);
      r := Ok(());
      if read.Err? && read.error.Bounds? {
        r := Err(read.error);
      } else if read.Err? {
        Lose(item);
        told := multiset{item};
      } else if read.value.None? {
        stale := stale + [item];
        told := multiset{item};
      } else {
        told := Arrive(m, t, item, read.value.value);
      }
    }

    /** A pointer that reads, reached for the first time or once too often. */
    method Arrive(m: Mirror, t: Tract, item: Item, doc: Doc) returns (ghost told: multiset<Item>)
      requires m.Valid() && t.base + t.len <= |m.disk| && Valid(t.View(m)) && Blocks.Committed(item.ptr) && LbaOf(item.ptr) in Pos(item.ptr)
      requires doc == DocOf(item.ptr) && DocFits(doc, t.len) && Hamts.Readable(t.View(m), item.ptr) && SealedAt(t.View(m), LbaOf(item.ptr), doc)
      modifies this`out, this`stale, this`dangling, visited.bits, m`cache, m`uses
      decreases |visited.Free()|, 0
      ensures m.Valid() && m.disk == old(m.disk) && Valid(t.View(m)) && visited.Free() <= old(visited.Free())
      ensures Reported() == old(Reported()) + told
      ensures Sane(item) && Pos(item.ptr) !! old(visited.Marked()) ==>
        && Told(t.View(m), item.ptr, item.depth, item.route, told)
        && Lbas(out) == old(Lbas(out)) + Firm(t.View(m), item.ptr)
        && visited.Marked() <= old(visited.Marked()) + Pos(item.ptr)
    {
      hide Told, Lost, Firm, Sane, Pos, Bad, RefsTrue, Lbas, Visited.Free, Visited.Marked, Inside, DocFits, Hamts.Readable, Mirrors.Mirror.Valid;
      ghost var free := visited.Free();
      var reached := visited.Reach(LbaOf(item.ptr));
      if reached.Err? {
        Lose(item);
        told := multiset{item};
      } else {
        FewerFree(visited.Free(), free);
        told := Target(m, t, item, doc);
      }
    }

    /** What a pointer that reads contributes, and what hangs under it. */
    method Target(m: Mirror, t: Tract, item: Item, doc: Doc) returns (ghost told: multiset<Item>)
      requires m.Valid() && t.base + t.len <= |m.disk| && Valid(t.View(m)) && Blocks.Committed(item.ptr)
      requires doc == DocOf(item.ptr) && DocFits(doc, t.len) && Hamts.Readable(t.View(m), item.ptr) && SealedAt(t.View(m), LbaOf(item.ptr), doc)
      modifies this`out, this`stale, this`dangling, visited.bits, m`cache, m`uses
      decreases |visited.Free()|, 3
      ensures m.Valid() && m.disk == old(m.disk) && Valid(t.View(m)) && visited.Free() <= old(visited.Free())
      ensures Reported() == old(Reported()) + told
      ensures Sane(item) && Pos(item.ptr) - {LbaOf(item.ptr)} !! old(visited.Marked()) ==>
        && Told(t.View(m), item.ptr, item.depth, item.route, told)
        && Lbas(out) == old(Lbas(out)) + Firm(t.View(m), item.ptr)
        && visited.Marked() <= old(visited.Marked()) + Pos(item.ptr)
    {
      hide Told, Lost, Firm, Sane, Pos, Bad, RefsTrue, Lbas, Mirrors.Mirror.Valid;
      ghost var v := t.View(m);
      told := multiset{};
      var lba := LbaOf(item.ptr);
      if doc.NodeDoc? {
        if doc.depth != item.depth {
          Lose(item);
          told := multiset{item};
          NodeDepth(item);
        } else {
          FoundOne(v, out, Ref(lba, doc));
          out := out + [Ref(lba, doc)];
          told := VisitKids(m, t, item, doc.kids);
          NodeParts(v, item, told);
        }
      } else if doc.body.Lone? {
        FoundOne(v, out, Ref(lba, doc));
        out := out + [Ref(lba, doc)];
        LeafParts(v, item);
      } else {
        var ps := ExpandRuns(doc.body.runs, doc.body.size, t.len);
        if ps.Err? {
          Lose(item);
          told := multiset{item};
          RunsLost(v, item);
        } else {
          told := CheckFurrows(m, t, item, ps.value);
        }
      }
    }

    /** The children of a sound node in turn, each with its own route. */
    method VisitKids(m: Mirror, t: Tract, item: Item, kids: seq<Tree>) returns (ghost told: multiset<Item>)
      requires m.Valid() && t.base + t.len <= |m.disk| && Valid(t.View(m)) && item.ptr.Node? && kids == item.ptr.kids && |kids| == WIDTH
      requires item.depth < LEVELS && Hamts.Readable(t.View(m), item.ptr)
      requires forall c :: 0 <= c < WIDTH ==> KidFits(kids[c], t.len)
      modifies this`out, this`stale, this`dangling, visited.bits, m`cache, m`uses
      decreases |visited.Free()|, 2
      ensures m.Valid() && m.disk == old(m.disk) && Valid(t.View(m)) && visited.Free() <= old(visited.Free())
      ensures Reported() == old(Reported()) + told
      ensures Sane(item) && Under(kids) !! old(visited.Marked()) ==>
        && ToldKids(t.View(m), item.ptr, item.depth, item.route, WIDTH, told)
        && Lbas(out) == old(Lbas(out)) + FirmUnder(t.View(m), kids)
        && visited.Marked() <= old(visited.Marked()) + Under(kids)
    {
      hide Told, ToldKids, Lost, Firm, FirmUnder, Sane, Pos, Bad, RefsTrue, Lbas, Under, Apart, Mirrors.Mirror.Valid;
      ghost var v, ok, free := t.View(m), Sane(item) && Under(kids) !! visited.Marked(), visited.Free();
      assert !Bad(v, item.ptr) by {
        NodeSound(v, item.ptr);
      }
      told := multiset{};
      ToldNone(v, item.ptr, item.depth, item.route);
      NoneUnder(v, kids);
      for c := 0 to WIDTH
        invariant m.Valid() && m.disk == old(m.disk) && Valid(v) && Reported() == old(Reported()) + told && visited.Free() <= free
        invariant ok ==> ToldKids(v, item.ptr, item.depth, item.route, c, told)
        invariant ok ==> Lbas(out) == old(Lbas(out)) + FirmUnder(v, kids[..c]) && visited.Marked() <= old(visited.Marked()) + Under(kids[..c])
      {
        ghost var more: multiset<Item> := multiset{};
        var kid := Item(kids[c], RouteWith(item.route, item.depth, c), item.depth + 1);
        if ok {
          SaneKid(item, c);
          KidApart(kids, c);
        }
        if kids[c].Nil? {
          ToldNil(v, kid);
        } else {
          var visit;
          FewerOrSame(visited.Free(), free);
          visit, more := Visit(m, t, kid);
        }
        if ok {
          ToldMore(v, item, c, told, more);
          LostSplit(v, kids, c);
        }
        told := told + more;
      }
      assert kids[..WIDTH] == kids;
    }

    /** A sharded value's furrows, each sealed under its owner and index: all of them, or the leaf is lost. */
    method CheckFurrows(m: Mirror, t: Tract, item: Item, ps: seq<nat>) returns (ghost told: multiset<Item>)
      requires m.Valid() && t.base + t.len <= |m.disk| && Valid(t.View(m)) && item.ptr.Leaf? && item.ptr.body.Extent?
      requires ps == Expand(item.ptr.body.runs) && Inside(item.ptr.body.runs, t.len) && Total(item.ptr.body.runs) <= t.len
      requires Total(item.ptr.body.runs) == CeilDiv(item.ptr.body.size, FURROW_CAP)
      requires Hamts.Readable(t.View(m), item.ptr) && SealedAt(t.View(m), item.ptr.lba, DocOf(item.ptr))
      modifies this`out, this`dangling, visited.bits
      ensures m.Valid() && m.disk == old(m.disk) && Valid(t.View(m)) && visited.Free() <= old(visited.Free())
      ensures Reported() == old(Reported()) + told
      ensures Sane(item) && Pos(item.ptr) - {item.ptr.lba} !! old(visited.Marked()) ==>
        && Told(t.View(m), item.ptr, item.depth, item.route, told)
        && Lbas(out) == old(Lbas(out)) + Firm(t.View(m), item.ptr)
        && visited.Marked() <= old(visited.Marked()) + Pos(item.ptr)
    {
      hide Told, Lost, Firm, Sane, Pos, Bad, RefsTrue, Lbas, Elems, Inside, Distinct, AllThere, Mirrors.Mirror.Valid;
      ghost var v := t.View(m);
      told := multiset{};
      ExpandInside(item.ptr.body.runs, t.len);
      if Sane(item) {
        ExtentParts(item);
      }
      var furrows := Gather(m, t, item.ptr.key, ps);
      if furrows.Err? {
        Lose(item);
        told := multiset{item};
        FurrowLost(v, item);
      } else {
        FoundAll(v, out, Ref(item.ptr.lba, DocOf(item.ptr)), furrows.value);
        out := out + [Ref(item.ptr.lba, DocOf(item.ptr))] + furrows.value;
        FurrowsThere(v, item);
      }
    }

    /** A value's furrows in order, until one is missing or already another's. */
    method Gather(m: Mirror, t: Tract, key: Key, ps: seq<nat>) returns (r: Result<seq<Ref>>)
      requires m.Valid() && t.base + t.len <= |m.disk| && visited.bits.Length == t.len && forall i :: 0 <= i < |ps| ==> ps[i] < t.len
      modifies visited.bits
      ensures m.Valid() && m.disk == old(m.disk) && visited.Free() <= old(visited.Free())
      ensures visited.Marked() <= old(visited.Marked()) + Elems(ps)
      ensures r.Ok? ==> AllThere(t.View(m), key, ps) && RefsTrue(t.View(m), r.value) && Lbas(r.value) == Elems(ps)
      ensures r.Err? && Distinct(ps) && Elems(ps) !! old(visited.Marked()) ==> !AllThere(t.View(m), key, ps)
    {
      hide RefsTrue, Lbas, Elems, Distinct, FurrowAt, Mirrors.Mirror.Valid;
      ghost var v := t.View(m);
      var furrows: seq<Ref> := [];
      NoRefs(v);
      assert ps[..0] == [];
      for i := 0 to |ps|
        invariant RefsTrue(v, furrows) && Lbas(furrows) == Elems(ps[..i]) && visited.Free() <= old(visited.Free())
        invariant visited.Marked() == old(visited.Marked()) + Elems(ps[..i])
        invariant forall j :: 0 <= j < i ==> FurrowAt(v, ps[j], key, j)
      {
        ElemsNext(ps, i);
        ElemsFront(ps, i + 1);
        if Distinct(ps) && Elems(ps) !! old(visited.Marked()) {
          Unreached(ps, i, old(visited.Marked()));
        }
        var _ :- visited.Reach(ps[i]);
        var found := FurrowThere(m, t, key, ps[i], i);
        if found.None? {
          return Err(Error.Corrupt);
        }
        FoundOne(v, furrows, found.value);
        furrows := furrows + [found.value];
      }
      assert ps[..|ps|] == ps;
      return Ok(furrows);
    }
  }

  ghost predicate AllThere(v: Medium, key: Key, ps: seq<nat>) {
    forall i :: 0 <= i < |ps| ==> FurrowAt(v, ps[i], key, i)
  }

  lemma {:induction false} ElemsFront(ps: seq<nat>, n: nat)
    requires n <= |ps|
    ensures Elems(ps[..n]) <= Elems(ps)
  {
  }

  /** The block at `pos`, if it is furrow `index` of `key`. */
  method FurrowThere(m: Mirror, t: Tract, key: Key, pos: nat, index: nat) returns (found: Option<Ref>)
    requires m.Valid() && pos < t.len && t.base + t.len <= |m.disk|
    ensures found.Some? <==> FurrowAt(t.View(m), pos, key, index)
    ensures found.Some? ==> found.value.lba == pos && SealedAt(t.View(m), pos, found.value.doc)
  {
    var read := m.Read(t.base + pos);
    var block := read.value;
    if block.Sealed? && block.doc.FurrowDoc? && block.doc.key == key && block.doc.index == index {
      return Some(Ref(pos, block.doc));
    }
    return None;
  }

  lemma {:induction false} NoRefs(v: Medium)
    ensures RefsTrue(v, []) && Lbas([]) == {} && Elems([]) == {}
  {
  }

  lemma {:induction false} ElemsNext(ps: seq<nat>, i: nat)
    requires i < |ps|
    ensures Elems(ps[..i + 1]) == Elems(ps[..i]) + {ps[i]}
  {
    assert ps[..i + 1] == ps[..i] + [ps[i]];
    ElemsAppend(ps[..i], ps[i]);
  }

  lemma {:induction false} Unreached(ps: seq<nat>, i: nat, marked: set<nat>)
    requires Distinct(ps) && i < |ps| && Elems(ps) !! marked
    ensures ps[i] !in marked + Elems(ps[..i])
  {
    assert ps[i] in Elems(ps);
    forall j | 0 <= j < i
      ensures ps[..i][j] != ps[i]
    {
      assert ps[j] != ps[i];
    }
  }

  lemma {:induction false} FurrowLost(v: Medium, item: Item)
    requires item.ptr.Leaf? && item.ptr.body.Extent?
    ensures Sane(item) && !AllThere(v, item.ptr.key, Expand(item.ptr.body.runs)) ==>
      Told(v, item.ptr, item.depth, item.route, multiset{item}) && Firm(v, item.ptr) == {}
  {
    if Sane(item) && !AllThere(v, item.ptr.key, Expand(item.ptr.body.runs)) {
      ToldBad(v, item);
    }
  }

  lemma {:induction false} FurrowsThere(v: Medium, item: Item)
    requires item.ptr.Leaf? && item.ptr.body.Extent? && Hamts.Readable(v, item.ptr)
    requires var body := item.ptr.body;
      Inside(body.runs, v.len) && Total(body.runs) <= v.len && Total(body.runs) == CeilDiv(body.size, FURROW_CAP)
    requires AllThere(v, item.ptr.key, Expand(item.ptr.body.runs))
    ensures Told(v, item.ptr, item.depth, item.route, multiset{}) && Firm(v, item.ptr) == {item.ptr.lba} + Elems(Expand(item.ptr.body.runs))
  {
    assert !Bad(v, item.ptr);
    ToldNothing(v, item);
  }

  /** What the read of a pointer's target says about it. */
  lemma {:induction false} ReadSays(v: Medium, item: Item)
    requires Blocks.Committed(item.ptr)
    ensures var read := DocAt(v, LbaOf(item.ptr), DocOf(item.ptr));
      && ((read.Ok? && read.value.Some?) <==> Hamts.Readable(v, item.ptr))
      && (Hamts.Readable(v, item.ptr) ==> SealedAt(v, LbaOf(item.ptr), DocOf(item.ptr)))
      && (!Hamts.Readable(v, item.ptr) && Sane(item) ==>
            Told(v, item.ptr, item.depth, item.route, multiset{item}) && Firm(v, item.ptr) == {})
    ensures LbaOf(item.ptr) in Pos(item.ptr)
  {
    if !Hamts.Readable(v, item.ptr) && Sane(item) {
      ToldBad(v, item);
    }
  }

  lemma {:induction false} NodeSound(v: Medium, t: Tree)
    requires t.Node? && Hamts.Readable(v, t)
    ensures !Bad(v, t)
  {
  }

  lemma {:induction false} NodeDepth(item: Item)
    requires item.ptr.Node? && item.ptr.depth != item.depth
    ensures !Sane(item)
  {
  }

  lemma {:induction false} NodeParts(v: Medium, item: Item, told: multiset<Item>)
    requires item.ptr.Node? && item.ptr.place.At? && Hamts.Readable(v, item.ptr) && |item.ptr.kids| == WIDTH && item.depth <= LEVELS
    ensures !Bad(v, item.ptr)
    ensures ToldKids(v, item.ptr, item.depth, item.route, WIDTH, told) ==>
      Told(v, item.ptr, item.depth, item.route, told)
    ensures Firm(v, item.ptr) == {item.ptr.place.lba} + FirmUnder(v, item.ptr.kids)
    ensures Pos(item.ptr) == {item.ptr.place.lba} + Under(item.ptr.kids)
    ensures Sane(item) ==> item.ptr.place.lba !in Under(item.ptr.kids)
  {
    if ToldKids(v, item.ptr, item.depth, item.route, WIDTH, told) {
      ToldNode(v, item, told);
    }
  }

  lemma {:induction false} LeafParts(v: Medium, item: Item)
    requires item.ptr.Leaf? && item.ptr.body.Lone? && Hamts.Readable(v, item.ptr)
    ensures Told(v, item.ptr, item.depth, item.route, multiset{}) && Firm(v, item.ptr) == {item.ptr.lba} && item.ptr.lba in Pos(item.ptr)
  {
    NoElems();
    ToldNothing(v, item);
  }

  lemma {:induction false} RunsLost(v: Medium, item: Item)
    requires item.ptr.Leaf? && item.ptr.body.Extent?
    requires var body := item.ptr.body;
      !(Inside(body.runs, v.len) && Total(body.runs) <= v.len && Total(body.runs) == CeilDiv(body.size, FURROW_CAP))
    ensures Bad(v, item.ptr)
    ensures Sane(item) ==> Told(v, item.ptr, item.depth, item.route, multiset{item}) && Firm(v, item.ptr) == {}
  {
    if Sane(item) {
      ToldBad(v, item);
    }
  }

  lemma {:induction false} ExtentParts(item: Item)
    requires Sane(item) && item.ptr.Leaf? && item.ptr.body.Extent?
    ensures var ps := Expand(item.ptr.body.runs);
      Distinct(ps) && item.ptr.lba !in Elems(ps) && Pos(item.ptr) == {item.ptr.lba} + Elems(ps) && Own(item.ptr) == Pos(item.ptr)
  {
  }

  lemma {:induction false} NoneUnder(v: Medium, kids: seq<Tree>)
    ensures FirmUnder(v, kids[..0]) == {} && Under(kids[..0]) == {}
  {
  }

  lemma {:induction false} KidApart(kids: seq<Tree>, c: nat)
    requires Apart(kids) && c < |kids|
    ensures Pos(kids[c]) !! Under(kids[..c]) && Under(kids[..c + 1]) == Under(kids[..c]) + Pos(kids[c])
    ensures Pos(kids[c]) <= Under(kids) && Under(kids[..c]) <= Under(kids)
  {
    assert kids[..c + 1] == kids[..c] + [kids[c]] && kids == kids[..c] + kids[c..];
    UnderAppend(kids[..c], [kids[c]]);
    UnderAppend(kids[..c], kids[c..]);
    ApartAppend(kids[..c], kids[c..]);
    assert kids[c..][0] == kids[c];
    OneUnder(kids[c]);
    assert Pos(kids[c]) <= Under(kids[c..]);
  }

  lemma {:induction false} OneUnder(t: Tree)
    ensures Under([t]) == Pos(t)
  {
    assert [t][0] == t;
  }

  lemma {:induction false} ToldNil(v: Medium, kid: Item)
    requires kid.ptr.Nil?
    ensures Told(v, kid.ptr, kid.depth, kid.route, multiset{}) && Firm(v, kid.ptr) == {} && Pos(kid.ptr) == {}
  {
  }

  lemma {:induction false} FoundAll(v: Medium, out: seq<Ref>, r: Ref, refs: seq<Ref>)
    requires RefsTrue(v, out) && SealedAt(v, r.lba, r.doc) && RefsTrue(v, refs)
    ensures RefsTrue(v, out + [r] + refs) && Lbas(out + [r] + refs) == Lbas(out) + {r.lba} + Lbas(refs)
  {
    FoundOne(v, out, r);
    LbasAppend(out + [r], refs);
  }
}
