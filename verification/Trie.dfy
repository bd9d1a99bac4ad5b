/** The trie as a value: what it maps, which tract positions it references, and how each edit changes both.
    Module Hamt refines these functions with an arena of dirty nodes that is edited in place. */
module Trie {
  import opened Blocks
  import opened Runs

  // ---------------------------------------------------------------- shape

  /** A subtree reached by the chunks `pre` that addresses itself: every node knows its own depth, its
      route begins with the path, every leaf lies on its key's path, and no committed node points at a
      dirty one. */
  ghost predicate Sound(t: Tree, pre: seq<nat>)
    decreases t
  {
    match t
    case Nil => true
    case Leaf(_, key, _) => pre <= key
    case Node(place, depth, route, kids) =>
      && depth == |pre| < LEVELS
      && pre <= route
      && |kids| == WIDTH
      && forall c :: 0 <= c < WIDTH ==> (place.At? ==> !IsDirty(kids[c])) && Sound(kids[c], pre + [c])
  }

  predicate IsDirty(t: Tree) {
    t.Node? && t.place.Dirty?
  }

  /** The leaf holding `key`, or Nil. */
  function Find(t: Tree, d: nat, key: Key): (leaf: Tree)
    ensures leaf.Nil? || (leaf.Leaf? && leaf.key == key)
    decreases t
  {
    match t
    case Nil => Nil
    case Leaf(_, k, _) => if k == key then t else Nil
    case Node(_, _, _, kids) => if d < LEVELS && |kids| == WIDTH then Find(kids[key[d]], d + 1, key) else Nil
  }

  /** Every leaf of the trie, wherever it hangs. */
  ghost function Leaves(t: Tree): set<Tree>
    decreases t
  {
    match t
    case Nil => {}
    case Leaf(_, _, _) => {t}
    case Node(_, _, _, kids) => set c, l | 0 <= c < |kids| && l in Leaves(kids[c]) :: l
  }

  lemma {:induction false} PrefixStep(pre: seq<nat>, key: Key)
    requires pre <= key && |pre| < LEVELS
    ensures forall c :: pre + [c] <= key <==> c == key[|pre|]
  {
    assert key == pre + key[|pre|..];
    forall c
      ensures pre + [c] <= key <==> c == key[|pre|]
    {
      assert key[..|pre| + 1] == pre + [key[|pre|]];
      assert (pre + [c])[|pre|] == c;
    }
  }

  /** In a sound trie the routed search finds exactly the leaves there are. */
  lemma {:induction false} FindIsMembership(t: Tree, pre: seq<nat>, leaf: Tree)
    requires Sound(t, pre) && leaf.Leaf?
    ensures leaf in Leaves(t) ==> pre <= leaf.key && Find(t, |pre|, leaf.key) == leaf
    ensures pre <= leaf.key && Find(t, |pre|, leaf.key) == leaf ==> leaf in Leaves(t)
    decreases t
  {
    if t.Node? {
      if pre <= leaf.key {
        PrefixStep(pre, leaf.key);
        FindIsMembership(t.kids[leaf.key[|pre|]], pre + [leaf.key[|pre|]], leaf);
      }
      if leaf in Leaves(t) {
        var c :| 0 <= c < WIDTH && leaf in Leaves(t.kids[c]);
        FindIsMembership(t.kids[c], pre + [c], leaf);
        assert pre <= pre + [c] <= leaf.key;
        assert pre == leaf.key[..|pre|];
        PrefixStep(pre, leaf.key);
      }
    }
  }

  // ---------------------------------------------------------------- positions

  function Furrows(body: Body): seq<nat> {
    if body.Lone? then [] else Expand(body.runs)
  }

  /** Positions a block of the trie occupies itself: a committed node, or a leaf and its furrows. */
  ghost function Own(t: Tree): set<nat> {
    match t
    case Nil => {}
    case Leaf(lba, _, body) => {lba} + Elems(Furrows(body))
    case Node(place, _, _, _) => if place.At? then {place.lba} else {}
  }

  /** Positions everything reachable occupies. */
  ghost function Pos(t: Tree): set<nat>
    decreases t, 1
  {
    Own(t) + (if t.Node? then Under(t.kids) else {})
  }

  ghost function Under(kids: seq<Tree>): set<nat>
    decreases kids, 0
  {
    set c, p | 0 <= c < |kids| && p in Pos(kids[c]) :: p
  }

  /** Positions under all kids but one. */
  ghost function Rest(kids: seq<Tree>, but: nat): set<nat> {
    set c, p | 0 <= c < |kids| && c != but && p in Pos(kids[c]) :: p
  }

  /** No block has two parents and no position two roles. */
  ghost predicate Once(t: Tree)
    decreases t
  {
    match t
    case Nil => true
    case Leaf(lba, _, body) =>
      lba !in Furrows(body) && Distinct(Furrows(body))
    case Node(_, _, _, kids) =>
      && Own(t) !! Under(kids)
      && (forall c :: 0 <= c < |kids| ==> Once(kids[c]))
      && Apart(kids)
  }

  ghost predicate Distinct(ps: seq<nat>) {
    forall i, j :: 0 <= i < j < |ps| ==> ps[i] != ps[j]
  }

  ghost predicate Apart(kids: seq<Tree>) {
    forall c :: 0 <= c < |kids| ==> Pos(kids[c]) !! Rest(kids, c)
  }

  lemma {:induction false} UnderSplit(kids: seq<Tree>, c: nat)
    requires c < |kids|
    ensures Under(kids) == Pos(kids[c]) + Rest(kids, c)
  {
  }

  lemma {:induction false} RestUpdate(kids: seq<Tree>, c: nat, x: Tree)
    requires c < |kids|
    ensures Rest(kids[c := x], c) == Rest(kids, c)
    ensures Under(kids[c := x]) == Pos(x) + Rest(kids, c)
  {
    var after := kids[c := x];
    forall p | p in Rest(kids, c)
      ensures p in Rest(after, c)
    {
      var e :| 0 <= e < |kids| && e != c && p in Pos(kids[e]);
      assert after[e] == kids[e];
    }
    UnderSplit(after, c);
  }

  lemma {:induction false} RestDisjoint(kids: seq<Tree>, c: nat, x: Tree)
    requires c < |kids|
    requires Apart(kids) && Pos(x) !! Rest(kids, c)
    ensures Apart(kids[c := x])
  {
    var after := kids[c := x];
    forall e | 0 <= e < |kids|
      ensures Pos(after[e]) !! Rest(after, e)
    {
      RestUpdate(kids, c, x);
      if e != c {
        forall p | p in Rest(after, e)
          ensures p !in Pos(kids[e])
        {
          var f :| 0 <= f < |after| && f != e && p in Pos(after[f]);
          assert p in Pos(kids[e]) ==> p in Rest(kids, c);
          assert f != c ==> p in Rest(kids, e);
        }
      }
    }
  }

  lemma {:induction false} KidSwap(kids: seq<Tree>, c: nat, x: Tree)
    requires c < |kids| && Apart(kids)
    ensures Under(kids) == Pos(kids[c]) + Rest(kids, c) && Pos(kids[c]) !! Rest(kids, c)
    ensures Under(kids[c := x]) == Pos(x) + Rest(kids, c)
    ensures Pos(x) !! Rest(kids, c) ==> Apart(kids[c := x])
  {
    UnderSplit(kids, c);
    RestUpdate(kids, c, x);
    if Pos(x) !! Rest(kids, c) {
      RestDisjoint(kids, c, x);
    }
  }

  // ---------------------------------------------------------------- edits

  function Blank(): (kids: seq<Tree>)
    ensures |kids| == WIDTH && forall c :: 0 <= c < WIDTH ==> kids[c] == Nil
  {
    seq(WIDTH, _ => Nil)
  }

  /** The chain of nodes that separates two leaves sharing `d` chunks. */
  function Split(d: nat, a: Tree, b: Tree): Tree
    requires a.Leaf? && b.Leaf?
    decreases LEVELS - d
  {
    if d >= LEVELS then Nil
    else
      var (ca, cb) := (a.key[d], b.key[d]);
      Node(Dirty, d, a.key, if ca == cb then Blank()[ca := Split(d + 1, a, b)] else Blank()[ca := a][cb := b])
  }

  /** What a path descent looks for: it follows `key`, stops at the pointer `stop`, and gives up on a
      committed pointer deeper than `limit`. */
  datatype Hunt = Hunt(key: Key, stop: Tree, limit: nat)

  /** A descent that runs to the end of the key's path. */
  function ToLeaf(key: Key): Hunt {
    Hunt(key, Nil, LEVELS)
  }

  predicate Halts(t: Tree, d: nat, h: Hunt) {
    || !t.Node?
    || (t.place.At? && (t == h.stop || d > h.limit))
    || d >= LEVELS || |t.kids| != WIDTH
  }

  /** Where the descent ends: the subtree there and its depth. */
  function End(t: Tree, d: nat, h: Hunt): (e: (Tree, nat))
    ensures d <= e.1 && Halts(e.0, e.1, h)
    decreases t
  {
    if Halts(t, d, h) then (t, d) else End(t.kids[h.key[d]], d + 1, h)
  }

  /** Copy-on-write along the descent, with `x` put where it ends. */
  function Graft(t: Tree, d: nat, h: Hunt, x: Tree): Tree
    decreases t
  {
    if Halts(t, d, h) then x
    else
      var c := h.key[d];
      Node(Dirty, t.depth, t.route, t.kids[c := Graft(t.kids[c], d + 1, h, x)])
  }

  /** Positions of the committed nodes the descent supersedes. */
  ghost function Trail(t: Tree, d: nat, h: Hunt): set<nat>
    decreases t
  {
    if Halts(t, d, h) then {} else Own(t) + Trail(t.kids[h.key[d]], d + 1, h)
  }

  /** The subtree a put leaves where its descent ended. */
  function Landing(e: (Tree, nat), leaf: Tree): Tree
    requires leaf.Leaf?
  {
    if e.0.Leaf? && e.0.key != leaf.key then Split(e.1, e.0, leaf) else leaf
  }

  function Insert(t: Tree, leaf: Tree): Tree
    requires leaf.Leaf?
  {
    var h := ToLeaf(leaf.key);
    Graft(t, 0, h, Landing(End(t, 0, h), leaf))
  }

  /** The trie without the pointer `gone`, looked for along `route`. */
  function Remove(t: Tree, route: Key, gone: Tree): Tree {
    var h := Hunt(route, gone, LEVELS);
    var e := End(t, 0, h).0;
    Graft(t, 0, h, if e == gone then Nil else e)
  }

  // ---------------------------------------------------------------- laws of grafting

  lemma {:induction false} EndSound(t: Tree, pre: seq<nat>, h: Hunt)
    requires Sound(t, pre) && pre <= h.key
    ensures var e := End(t, |pre|, h); e.1 <= LEVELS && Sound(e.0, h.key[..e.1])
    decreases t
  {
    if Halts(t, |pre|, h) {
      assert pre == h.key[..|pre|];
    } else {
      PrefixStep(pre, h.key);
      EndSound(t.kids[h.key[|pre|]], pre + [h.key[|pre|]], h);
    }
  }

  lemma {:induction false} GraftSound(t: Tree, pre: seq<nat>, h: Hunt, x: Tree)
    requires Sound(t, pre) && pre <= h.key
    requires End(t, |pre|, h).1 <= LEVELS && Sound(x, h.key[..End(t, |pre|, h).1])
    ensures Sound(Graft(t, |pre|, h, x), pre)
    decreases t
  {
    if Halts(t, |pre|, h) {
      assert pre == h.key[..|pre|];
    } else {
      var c := h.key[|pre|];
      PrefixStep(pre, h.key);
      GraftSound(t.kids[c], pre + [c], h, x);
      var after := t.kids[c := Graft(t.kids[c], |pre| + 1, h, x)];
      assert forall e :: 0 <= e < WIDTH ==> Sound(after[e], pre + [e]);
    }
  }

  /** Below the path's end the graft answers as `x` does, and the trie as the subtree there does. */
  lemma {:induction false} GraftFind(t: Tree, pre: seq<nat>, h: Hunt, x: Tree, key: Key)
    requires Sound(t, pre) && pre <= h.key && pre <= key
    requires End(t, |pre|, h).1 <= LEVELS && h.key[..End(t, |pre|, h).1] <= key
    ensures var e := End(t, |pre|, h);
      && Find(t, |pre|, key) == Find(e.0, e.1, key)
      && Find(Graft(t, |pre|, h, x), |pre|, key) == Find(x, e.1, key)
    decreases t
  {
    if !Halts(t, |pre|, h) {
      var c := h.key[|pre|];
      PrefixStep(pre, h.key);
      PrefixStep(pre, key);
      EndDeeper(t.kids[c], |pre| + 1, h);
      var e := End(t.kids[c], |pre| + 1, h);
      assert key[|pre|] == h.key[..e.1][|pre|] == c;
      GraftFind(t.kids[c], pre + [c], h, x, key);
    }
  }

  /** Keys that leave the path before its end are answered as before. */
  lemma {:induction false} GraftKeeps(t: Tree, pre: seq<nat>, h: Hunt, x: Tree, key: Key)
    requires Sound(t, pre) && pre <= h.key && pre <= key
    requires End(t, |pre|, h).1 <= LEVELS && !(h.key[..End(t, |pre|, h).1] <= key)
    ensures Find(Graft(t, |pre|, h, x), |pre|, key) == Find(t, |pre|, key)
    decreases t
  {
    assert pre == h.key[..|pre|];
    if !Halts(t, |pre|, h) {
      var c := h.key[|pre|];
      PrefixStep(pre, h.key);
      PrefixStep(pre, key);
      if key[|pre|] == c {
        GraftKeeps(t.kids[c], pre + [c], h, x, key);
      }
    }
  }

  lemma {:induction false} EndDeeper(t: Tree, d: nat, h: Hunt)
    ensures End(t, d, h).1 >= d
  {
  }

  lemma {:induction false} EndPos(t: Tree, d: nat, h: Hunt)
    requires Once(t)
    ensures var e := End(t, d, h).0;
      && Pos(e) <= Pos(t) && Trail(t, d, h) <= Pos(t) - Pos(e)
      && Once(e)
    decreases t
  {
    hide Under, Rest, Apart;
    if !Halts(t, d, h) {
      EndPos(t.kids[h.key[d]], d + 1, h);
      KidSwap(t.kids, h.key[d], Nil);
    }
  }

  lemma {:induction false} SwapSets(own: set<nat>, kid: set<nat>, rest: set<nat>, end: set<nat>, spine: set<nat>, x: set<nat>)
    requires own !! kid && own !! rest && kid !! rest && end <= kid && spine <= kid - end
    requires x !! (own + kid + rest) - end
    ensures (kid - end - spine + x) + rest == (own + kid + rest) - end - (own + spine) + x
    ensures (kid - end - spine + x) !! rest
  {
  }

  /** Positions after a graft: the superseded path and what hung at its end are gone, `x` is there. */
  lemma {:induction false} GraftPos(t: Tree, d: nat, h: Hunt, x: Tree)
    requires Once(t) && Pos(x) !! Pos(t) - Pos(End(t, d, h).0)
    ensures Pos(Graft(t, d, h, x)) == Pos(t) - Pos(End(t, d, h).0) - Trail(t, d, h) + Pos(x)
    ensures Once(x) ==> Once(Graft(t, d, h, x))
    decreases t
  {
    hide Under, Rest, Apart;
    if !Halts(t, d, h) {
      var c := h.key[d];
      var kid := t.kids[c];
      EndPos(kid, d + 1, h);
      KidSwap(t.kids, c, Graft(kid, d + 1, h, x));
      GraftPos(kid, d + 1, h, x);
      SwapSets(Own(t), Pos(kid), Rest(t.kids, c), Pos(End(kid, d + 1, h).0), Trail(kid, d + 1, h), Pos(x));
      var after := t.kids[c := Graft(kid, d + 1, h, x)];
      assert Pos(Graft(t, d, h, x)) == Under(after);
      assert Once(x) ==> forall e :: 0 <= e < |after| ==> Once(after[e]);
    }
  }

  // ---------------------------------------------------------------- laws of the edits

  lemma {:induction false} BlankUnder(c: nat, x: Tree)
    requires c < WIDTH
    ensures Rest(Blank(), c) == {} && Under(Blank()[c := x]) == Pos(x) && Apart(Blank()[c := x])
  {
    RestUpdate(Blank(), c, x);
    RestDisjoint(Blank(), c, x);
  }

  lemma {:induction false} BlankTwo(ca: nat, a: Tree, cb: nat, b: Tree)
    requires ca < WIDTH && cb < WIDTH && ca != cb && Pos(a) !! Pos(b)
    ensures var kids := Blank()[ca := a][cb := b]; Under(kids) == Pos(a) + Pos(b) && Apart(kids)
  {
    BlankUnder(ca, a);
    var one := Blank()[ca := a];
    assert Rest(one, cb) == Pos(a) by {
      assert one[cb] == Nil && Pos(Nil) == {};
      UnderSplit(one, cb);
    }
    RestUpdate(one, cb, b);
    RestDisjoint(one, cb, b);
  }

  lemma {:induction false} KeysPart(pre: seq<nat>, a: Key, b: Key)
    requires pre <= a && pre <= b && a != b
    ensures |pre| < LEVELS
  {
    assert |pre| == LEVELS ==> a == pre && b == pre;
  }

  lemma {:induction false} SplitSound(pre: seq<nat>, a: Tree, b: Tree)
    requires a.Leaf? && b.Leaf? && a.key != b.key && pre <= a.key && pre <= b.key
    ensures Sound(Split(|pre|, a, b), pre)
    decreases LEVELS - |pre|
  {
    KeysPart(pre, a.key, b.key);
    PrefixStep(pre, a.key);
    PrefixStep(pre, b.key);
    var ca, cb := a.key[|pre|], b.key[|pre|];
    assert Sound(a, pre + [ca]) && Sound(b, pre + [cb]);
    if ca == cb {
      SplitSound(pre + [ca], a, b);
    }
  }

  /** Two distinct keys part within the key, so a split ends there with both leaves reachable and nothing else. */
  lemma {:induction false} SplitSeparates(pre: seq<nat>, a: Tree, b: Tree, k: Key)
    requires a.Leaf? && b.Leaf? && a.key != b.key && pre <= a.key && pre <= b.key && pre <= k
    ensures Find(Split(|pre|, a, b), |pre|, k) == if k == a.key then a else if k == b.key then b else Nil
    decreases LEVELS - |pre|
  {
    KeysPart(pre, a.key, b.key);
    PrefixStep(pre, k);
    PrefixStep(pre, a.key);
    PrefixStep(pre, b.key);
    var ca := a.key[|pre|];
    if ca == b.key[|pre|] == k[|pre|] {
      SplitSeparates(pre + [ca], a, b, k);
    }
  }

  lemma {:induction false} SplitPos(d: nat, a: Tree, b: Tree)
    requires a.Leaf? && b.Leaf? && d <= LEVELS
    requires a.key != b.key && a.key[..d] == b.key[..d]
    requires Own(a) !! Own(b) && Once(a) && Once(b)
    ensures Pos(Split(d, a, b)) == Own(a) + Own(b) && Once(Split(d, a, b))
    decreases LEVELS - d
  {
    hide Under, Rest, Apart;
    KeysPart(a.key[..d], a.key, b.key);
    var ca, cb := a.key[d], b.key[d];
    if ca == cb {
      assert a.key[..d + 1] == a.key[..d] + [ca] == b.key[..d + 1];
      SplitPos(d + 1, a, b);
      BlankUnder(ca, Split(d + 1, a, b));
    } else {
      BlankTwo(ca, a, cb, b);
    }
  }

  /** A put changes what the trie holds at its key and nowhere else. */
  lemma {:induction false} InsertMaps(t: Tree, leaf: Tree)
    requires Sound(t, []) && leaf.Leaf?
    ensures Sound(Insert(t, leaf), [])
    ensures forall k: Key :: Find(Insert(t, leaf), 0, k) == if k == leaf.key then leaf else Find(t, 0, k)
  {
    var h := ToLeaf(leaf.key);
    var e := End(t, 0, h);
    var x := Landing(e, leaf);
    EndSound(t, [], h);
    EndOfKey(t, [], h);
    if e.0.Leaf? && e.0.key != leaf.key {
      SplitSound(leaf.key[..e.1], e.0, leaf);
    }
    GraftSound(t, [], h, x);
    forall k: Key
      ensures Find(Insert(t, leaf), 0, k) == if k == leaf.key then leaf else Find(t, 0, k)
    {
      if e.0.Leaf? && e.0.key != leaf.key && leaf.key[..e.1] <= k {
        SplitSeparates(leaf.key[..e.1], e.0, leaf, k);
      }
      if leaf.key[..e.1] <= k {
        GraftFind(t, [], h, x, k);
      } else {
        GraftKeeps(t, [], h, x, k);
      }
    }
  }

  /** A descent that hunts no pointer ends at a leaf or an empty slot. */
  lemma {:induction false} EndOfKey(t: Tree, pre: seq<nat>, h: Hunt)
    requires Sound(t, pre) && pre <= h.key && h.stop.Nil? && h.limit >= LEVELS
    ensures !End(t, |pre|, h).0.Node?
    ensures Find(t, |pre|, h.key) == (var e := End(t, |pre|, h).0; if e.Leaf? && e.key == h.key then e else Nil)
    decreases t
  {
    if t.Node? {
      PrefixStep(pre, h.key);
      EndOfKey(t.kids[h.key[|pre|]], pre + [h.key[|pre|]], h);
    }
  }

  lemma {:induction false} LandingPos(t: Tree, leaf: Tree)
    requires Sound(t, []) && Once(t) && leaf.Leaf? && Once(leaf) && Own(leaf) !! Pos(t)
    ensures var e := End(t, 0, ToLeaf(leaf.key));
      && Once(Landing(e, leaf))
      && Pos(Landing(e, leaf)) == Own(leaf) + (if e.0.Leaf? && e.0.key != leaf.key then Own(e.0) else {})
  {
    hide Under, Rest, Apart, Graft, Split;
    var h := ToLeaf(leaf.key);
    var e := End(t, 0, h);
    EndSound(t, [], h);
    EndPos(t, 0, h);
    if e.0.Leaf? && e.0.key != leaf.key {
      assert e.0.key[..e.1] == leaf.key[..e.1];
      SplitPos(e.1, e.0, leaf);
    }
  }

  /** What a put frees: the nodes its path supersedes and the old leaf of its key with its furrows. */
  lemma {:induction false} InsertPos(t: Tree, leaf: Tree)
    requires Sound(t, []) && Once(t) && leaf.Leaf? && Once(leaf) && Own(leaf) !! Pos(t)
    ensures var spine := Trail(t, 0, ToLeaf(leaf.key));
      && Once(Insert(t, leaf))
      && spine <= Pos(t) && Own(Find(t, 0, leaf.key)) <= Pos(t)
      && spine !! Own(Find(t, 0, leaf.key))
      && Pos(Insert(t, leaf)) == Pos(t) - spine - Own(Find(t, 0, leaf.key)) + Own(leaf)
  {
    hide Under, Rest, Apart, Sound, Graft, Split;
    var h := ToLeaf(leaf.key);
    var e := End(t, 0, h);
    var x := Landing(e, leaf);
    EndOfKey(t, [], h);
    EndPos(t, 0, h);
    LandingPos(t, leaf);
    GraftPos(t, 0, h, x);
  }

  /** Unlinking a leaf's pointer removes its key and no other. */
  lemma {:induction false} RemoveMaps(t: Tree, leaf: Tree)
    requires Sound(t, []) && leaf.Leaf? && Find(t, 0, leaf.key) == leaf
    ensures Sound(Remove(t, leaf.key, leaf), [])
    ensures forall k: Key :: Find(Remove(t, leaf.key, leaf), 0, k) == if k == leaf.key then Nil else Find(t, 0, k)
  {
    var h := Hunt(leaf.key, leaf, LEVELS);
    LeafStop(t, [], h, Nil);
    EndSound(t, [], h);
    GraftSound(t, [], h, Nil);
    forall k: Key
      ensures Find(Remove(t, leaf.key, leaf), 0, k) == if k == leaf.key then Nil else Find(t, 0, k)
    {
      if leaf.key[..End(t, 0, h).1] <= k {
        GraftFind(t, [], h, Nil, k);
      } else {
        GraftKeeps(t, [], h, Nil, k);
      }
    }
  }

  /** Hunting a leaf by its own key ends at that leaf, by the same path an unguided descent takes. */
  lemma {:induction false} LeafStop(t: Tree, pre: seq<nat>, h: Hunt, x: Tree)
    requires Sound(t, pre) && pre <= h.key && h.stop.Leaf? && h.limit >= LEVELS
    ensures End(t, |pre|, h) == End(t, |pre|, ToLeaf(h.key))
    ensures Trail(t, |pre|, h) == Trail(t, |pre|, ToLeaf(h.key))
    ensures Graft(t, |pre|, h, x) == Graft(t, |pre|, ToLeaf(h.key), x)
    ensures Find(t, |pre|, h.key) == h.stop ==> End(t, |pre|, h).0 == h.stop
    decreases t
  {
    if t.Node? {
      PrefixStep(pre, h.key);
      LeafStop(t.kids[h.key[|pre|]], pre + [h.key[|pre|]], h, x);
    }
  }

  lemma {:induction false} RemovePos(t: Tree, leaf: Tree)
    requires Sound(t, []) && Once(t) && leaf.Leaf? && Find(t, 0, leaf.key) == leaf
    ensures var spine := Trail(t, 0, Hunt(leaf.key, leaf, LEVELS));
      && Once(Remove(t, leaf.key, leaf))
      && Own(leaf) <= Pos(t) && spine <= Pos(t) - Own(leaf)
      && Pos(Remove(t, leaf.key, leaf)) == Pos(t) - spine - Own(leaf)
  {
    var h := Hunt(leaf.key, leaf, LEVELS);
    LeafStop(t, [], h, Nil);
    EndPos(t, 0, h);
    GraftPos(t, 0, h, Nil);
  }
}
