/** The arena of dirty nodes as an abstract trie: what a slot denotes, which arena entries it owns, and
    what replacing one child of one entry does to both. */
module Arenas {
  import opened Blocks
  import opened Trie

  datatype Slot = Vacant | Pointer(tree: Tree) | InArena(idx: nat)

  datatype ANode = ANode(depth: nat, route: Key, kids: seq<Slot>)

  function SlotOf(t: Tree): Slot {
    if t.Nil? then Vacant else Pointer(t)
  }

  /** A committed node taken into the arena. */
  function Unfolded(doc: Doc): (n: ANode)
    requires doc.NodeDoc?
    ensures |n.kids| == |doc.kids|
  {
    ANode(doc.depth, doc.route, seq(|doc.kids|, c requires 0 <= c < |doc.kids| => SlotOf(doc.kids[c])))
  }

  /** The trie a slot at depth `d` denotes. */
  ghost function Tr(a: seq<ANode>, s: Slot, d: nat): Tree
    decreases LEVELS - d, 0
  {
    match s
    case Vacant => Nil
    case Pointer(t) => t
    case InArena(i) =>
      if i < |a| && d < LEVELS then Node(Dirty, a[i].depth, a[i].route, Trs(a, a[i].kids, d + 1)) else Nil
  }

  ghost function Trs(a: seq<ANode>, kids: seq<Slot>, d: nat): (ts: seq<Tree>)
    requires 0 < d <= LEVELS
    ensures |ts| == |kids|
    decreases LEVELS - d, 1
  {
    seq(|kids|, c requires 0 <= c < |kids| => Tr(a, kids[c], d))
  }

  /** Arena entries below a slot, its own included. */
  ghost function Ix(a: seq<ANode>, s: Slot, d: nat): set<nat>
    decreases LEVELS - d, 0
  {
    if s.InArena? && s.idx < |a| && d < LEVELS then {s.idx} + IxUnder(a, a[s.idx].kids, d + 1) else {}
  }

  ghost function IxUnder(a: seq<ANode>, kids: seq<Slot>, d: nat): set<nat>
    requires 0 < d <= LEVELS
    decreases LEVELS - d, 1
  {
    set c, i | 0 <= c < |kids| && i in Ix(a, kids[c], d) :: i
  }

  ghost function IxRest(a: seq<ANode>, kids: seq<Slot>, but: nat, d: nat): set<nat>
    requires 0 < d <= LEVELS
  {
    set c, i | 0 <= c < |kids| && c != but && i in Ix(a, kids[c], d) :: i
  }

  /** Entries form a tree: each sits at its own depth and is reached through one slot only. */
  ghost predicate Wf(a: seq<ANode>, s: Slot, d: nat)
    decreases LEVELS - d
  {
    match s
    case Vacant => true
    case Pointer(t) => Committed(t)
    case InArena(i) =>
      && i < |a| && d < LEVELS && a[i].depth == d && |a[i].kids| == WIDTH
      && i !in IxUnder(a, a[i].kids, d + 1)
      && (forall c :: 0 <= c < WIDTH ==> Wf(a, a[i].kids[c], d + 1))
      && (forall c :: 0 <= c < WIDTH ==> Ix(a, a[i].kids[c], d + 1) !! IxRest(a, a[i].kids, c, d + 1))
  }

  ghost predicate SameOn(a: seq<ANode>, b: seq<ANode>, ix: set<nat>) {
    |a| <= |b| && forall i :: i in ix && i < |a| ==> b[i] == a[i]
  }

  /** Every entry of `x` is one of `y` or was added after the first `n`. */
  ghost predicate OnlyNew(x: set<nat>, y: set<nat>, n: nat) {
    forall j :: j in x ==> j in y || j >= n
  }

  ghost predicate Below(x: set<nat>, n: nat) {
    forall j :: j in x ==> j < n
  }

  lemma {:induction false} IxInRange(a: seq<ANode>, s: Slot, d: nat)
    ensures Below(Ix(a, s, d), |a|)
    decreases LEVELS - d
  {
    if s.InArena? && s.idx < |a| && d < LEVELS {
      var kids, k := a[s.idx].kids, d + 1;
      forall c | 0 <= c < |kids|
        ensures Below(Ix(a, kids[c], k), |a|)
      {
        IxInRange(a, kids[c], k);
      }
    }
  }

  /** A slot sees only its own entries. */
  lemma {:induction false} Framed(a: seq<ANode>, b: seq<ANode>, s: Slot, d: nat)
    requires Wf(a, s, d) && SameOn(a, b, Ix(a, s, d))
    ensures Wf(b, s, d) && Tr(b, s, d) == Tr(a, s, d) && Ix(b, s, d) == Ix(a, s, d)
    decreases LEVELS - d
  {
    if s.InArena? {
      var kids := a[s.idx].kids;
      assert b[s.idx] == a[s.idx];
      forall c | 0 <= c < WIDTH
        ensures Wf(b, kids[c], d + 1) && Tr(b, kids[c], d + 1) == Tr(a, kids[c], d + 1)
        ensures Ix(b, kids[c], d + 1) == Ix(a, kids[c], d + 1)
      {
        assert Ix(a, kids[c], d + 1) <= IxUnder(a, kids, d + 1);
        Framed(a, b, kids[c], d + 1);
      }
      assert IxUnder(b, kids, d + 1) == IxUnder(a, kids, d + 1);
      var k := d + 1;
      assert forall c {:trigger IxRest(b, kids, c, k)} :: 0 <= c < WIDTH ==> IxRest(b, kids, c, k) == IxRest(a, kids, c, k);
      assert Trs(b, kids, d + 1) == Trs(a, kids, d + 1);
    }
  }

  /** Entry `i` of `a` got a new child `s` in slot `c`; everything else it owns is as before. */
  ghost predicate Relinked(a: seq<ANode>, b: seq<ANode>, i: nat, c: nat, s: Slot, d: nat) {
    && d < LEVELS && c < WIDTH && Wf(a, InArena(i), d) && |a| <= |b|
    && b[i] == a[i].(kids := a[i].kids[c := s])
    && (forall j :: 0 <= j < |a| && j != i && j !in Ix(a, a[i].kids[c], d + 1) ==> b[j] == a[j])
    && Wf(b, s, d + 1)
    && OnlyNew(Ix(b, s, d + 1), Ix(a, a[i].kids[c], d + 1), |a|)
  }

  lemma {:induction false} SiblingKept(a: seq<ANode>, b: seq<ANode>, i: nat, c: nat, s: Slot, d: nat, e: nat)
    requires Relinked(a, b, i, c, s, d) && e < WIDTH && e != c
    ensures Wf(b, a[i].kids[e], d + 1)
    ensures Tr(b, a[i].kids[e], d + 1) == Tr(a, a[i].kids[e], d + 1)
    ensures Ix(b, a[i].kids[e], d + 1) == Ix(a, a[i].kids[e], d + 1)
    ensures Ix(a, a[i].kids[e], d + 1) !! Ix(b, s, d + 1)
    ensures i !in Ix(a, a[i].kids[e], d + 1)
  {
    hide Tr, Ix;
    var kids := a[i].kids;
    assert Ix(a, kids[e], d + 1) <= IxRest(a, kids, c, d + 1);
    assert Ix(a, kids[e], d + 1) <= IxUnder(a, kids, d + 1);
    IxInRange(a, kids[e], d + 1);
    Framed(a, b, kids[e], d + 1);
  }

  lemma {:induction false} Relink(a: seq<ANode>, b: seq<ANode>, i: nat, c: nat, s: Slot, d: nat)
    requires Relinked(a, b, i, c, s, d)
    ensures Wf(b, InArena(i), d)
    ensures var t := Tr(a, InArena(i), d);
      t.Node? && |t.kids| == WIDTH && Tr(b, InArena(i), d) == t.(kids := t.kids[c := Tr(b, s, d + 1)])
    ensures OnlyNew(Ix(b, InArena(i), d), Ix(a, InArena(i), d), |a|)
  {
    var kids, after := a[i].kids, b[i].kids;
    forall e | 0 <= e < WIDTH && e != c
      ensures after[e] == kids[e] && Wf(b, after[e], d + 1)
      ensures Tr(b, after[e], d + 1) == Tr(a, kids[e], d + 1)
      ensures Ix(b, after[e], d + 1) == Ix(a, kids[e], d + 1)
      ensures Ix(b, after[e], d + 1) !! Ix(b, s, d + 1) && i !in Ix(b, after[e], d + 1)
    {
      SiblingKept(a, b, i, c, s, d, e);
    }
    RelinkIx(a, b, i, c, s, d);
    assert Trs(b, after, d + 1) == Trs(a, kids, d + 1)[c := Tr(b, s, d + 1)];
  }

  lemma {:induction false} RelinkIx(a: seq<ANode>, b: seq<ANode>, i: nat, c: nat, s: Slot, d: nat)
    requires Relinked(a, b, i, c, s, d)
    requires forall e :: 0 <= e < WIDTH && e != c ==>
      && b[i].kids[e] == a[i].kids[e]
      && Ix(b, a[i].kids[e], d + 1) == Ix(a, a[i].kids[e], d + 1)
      && Ix(b, a[i].kids[e], d + 1) !! Ix(b, s, d + 1)
    ensures i !in IxUnder(b, b[i].kids, d + 1)
    ensures forall e :: 0 <= e < WIDTH ==> Ix(b, b[i].kids[e], d + 1) !! IxRest(b, b[i].kids, e, d + 1)
    ensures OnlyNew(IxUnder(b, b[i].kids, d + 1), IxUnder(a, a[i].kids, d + 1), |a|)
  {
    EntryApart(a, i, d);
    hide Tr, Wf, Ix;
    var kids, after, k := a[i].kids, b[i].kids, d + 1;
    forall e | 0 <= e < WIDTH
      ensures Ix(b, after[e], k) !! IxRest(b, after, e, k)
    {
      forall j | j in IxRest(b, after, e, k)
        ensures j !in Ix(b, after[e], k)
      {
        var f :| 0 <= f < WIDTH && f != e && j in Ix(b, after[f], k);
        assert e != c && f != c ==> j in IxRest(a, kids, e, k);
      }
    }
  }

  lemma {:induction false} EntryApart(a: seq<ANode>, i: nat, d: nat)
    requires Wf(a, InArena(i), d)
    ensures d < LEVELS && i < |a| && |a[i].kids| == WIDTH && i !in IxUnder(a, a[i].kids, d + 1)
    ensures forall c :: 0 <= c < WIDTH ==> Ix(a, a[i].kids[c], d + 1) !! IxRest(a, a[i].kids, c, d + 1)
  {
  }

  /** Arena entries outside `ix` keep their content. */
  ghost predicate Kept(a: seq<ANode>, b: seq<ANode>, ix: set<nat>) {
    |a| <= |b| && forall i :: 0 <= i < |a| && i !in ix ==> b[i] == a[i]
  }

  /** `mid` grew from `a` under slot `c` of entry `i` only, leaving `s` to be linked there. */
  ghost predicate Pending(a: seq<ANode>, mid: seq<ANode>, i: nat, c: nat, s: Slot, d: nat) {
    && Wf(a, InArena(i), d) && d < LEVELS && c < WIDTH && i < |a| && |a[i].kids| == WIDTH
    && Kept(a, mid, Ix(a, a[i].kids[c], d + 1))
    && Wf(mid, s, d + 1)
    && OnlyNew(Ix(mid, s, d + 1), Ix(a, a[i].kids[c], d + 1), |a|)
  }

  function Linked(a: seq<ANode>, i: nat, c: nat, s: Slot): (b: seq<ANode>)
    requires i < |a| && c < |a[i].kids|
    ensures |b| == |a|
  {
    a[i := a[i].(kids := a[i].kids[c := s])]
  }

  /** Linking what a recursive edit returned edits exactly that child of the entry. */
  lemma {:induction false} Link(a: seq<ANode>, mid: seq<ANode>, i: nat, c: nat, s: Slot, d: nat)
    requires Pending(a, mid, i, c, s, d)
    ensures mid[i] == a[i]
    ensures var b, t := Linked(mid, i, c, s), Tr(a, InArena(i), d);
      && Wf(b, InArena(i), d)
      && t.Node? && |t.kids| == WIDTH
      && Tr(b, InArena(i), d) == t.(kids := t.kids[c := Tr(mid, s, d + 1)])
      && OnlyNew(Ix(b, InArena(i), d), Ix(a, InArena(i), d), |a|)
      && Kept(a, b, Ix(a, InArena(i), d))
  {
    EntryApart(a, i, d);
    assert Ix(a, a[i].kids[c], d + 1) <= IxUnder(a, a[i].kids, d + 1);
    var b := Linked(mid, i, c, s);
    Framed(mid, b, s, d + 1);
    Relink(a, b, i, c, s, d);
  }

  /** A committed node copied into a fresh entry denotes the same children under a dirty node. */
  lemma {:induction false} Unfold(a: seq<ANode>, t: Tree, d: nat)
    requires t.Node? && d < LEVELS && t.depth == d && |t.kids| == WIDTH
    requires forall c :: 0 <= c < WIDTH ==> t.kids[c].Nil? || Committed(t.kids[c])
    ensures var b := a + [Unfolded(DocOf(t))];
      && Wf(b, InArena(|a|), d)
      && Tr(b, InArena(|a|), d) == t.(place := Dirty)
      && Ix(b, InArena(|a|), d) == {|a|}
  {
    var node := Unfolded(DocOf(t));
    NewEntry(a, node, d, WIDTH);
    assert Trs(a, node.kids, d + 1) == t.kids;
  }

  /** A new entry whose kids are pointers, but for at most one chain already in the arena. */
  lemma {:induction false} NewEntry(a: seq<ANode>, node: ANode, d: nat, chain: nat)
    requires d < LEVELS && node.depth == d && |node.kids| == WIDTH
    requires forall c :: 0 <= c < WIDTH ==> Wf(a, node.kids[c], d + 1) && (node.kids[c].InArena? ==> c == chain)
    ensures var b := a + [node];
      && Wf(b, InArena(|a|), d)
      && Tr(b, InArena(|a|), d) == Node(Dirty, d, node.route, Trs(a, node.kids, d + 1))
      && Trs(b, node.kids, d + 1) == Trs(a, node.kids, d + 1)
      && Ix(b, InArena(|a|), d) == {|a|} + (if chain < WIDTH then Ix(a, node.kids[chain], d + 1) else {})
  {
    var b, kids, k := a + [node], node.kids, d + 1;
    forall c | 0 <= c < WIDTH
      ensures Wf(b, kids[c], k) && Tr(b, kids[c], k) == Tr(a, kids[c], k) && Ix(b, kids[c], k) == Ix(a, kids[c], k)
      ensures Below(Ix(a, kids[c], k), |a|) && (c != chain ==> Ix(a, kids[c], k) == {})
    {
      IxInRange(a, kids[c], k);
      Framed(a, b, kids[c], k);
    }
    assert Trs(b, kids, k) == Trs(a, kids, k);
  }

  function NoKids(): (kids: seq<Slot>)
    ensures |kids| == WIDTH && forall c :: 0 <= c < WIDTH ==> kids[c] == Vacant
  {
    seq(WIDTH, _ => Vacant)
  }

  /** A new entry holding one chain. */
  lemma {:induction false} NewChain(a: seq<ANode>, d: nat, route: Key, c: nat, s: Slot)
    requires d < LEVELS && c < WIDTH && s.InArena? && Wf(a, s, d + 1)
    ensures var b := a + [ANode(d, route, NoKids()[c := s])];
      && Wf(b, InArena(|a|), d)
      && Tr(b, InArena(|a|), d) == Node(Dirty, d, route, Blank()[c := Tr(a, s, d + 1)])
      && Ix(b, InArena(|a|), d) == {|a|} + Ix(a, s, d + 1)
  {
    var kids := NoKids()[c := s];
    NewEntry(a, ANode(d, route, kids), d, c);
    assert Trs(a, kids, d + 1) == Blank()[c := Tr(a, s, d + 1)];
  }

  /** A new entry holding two pointers. */
  lemma {:induction false} NewFork(a: seq<ANode>, d: nat, route: Key, ca: nat, x: Tree, cb: nat, y: Tree)
    requires d < LEVELS && ca < WIDTH && cb < WIDTH && ca != cb && Committed(x) && Committed(y)
    ensures var b := a + [ANode(d, route, NoKids()[ca := Pointer(x)][cb := Pointer(y)])];
      && Wf(b, InArena(|a|), d)
      && Tr(b, InArena(|a|), d) == Node(Dirty, d, route, Blank()[ca := x][cb := y])
      && Ix(b, InArena(|a|), d) == {|a|}
  {
    var kids := NoKids()[ca := Pointer(x)][cb := Pointer(y)];
    NewEntry(a, ANode(d, route, kids), d, WIDTH);
    assert Trs(a, kids, d + 1) == Blank()[ca := x][cb := y];
  }
}
