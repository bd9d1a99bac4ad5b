/** A trie on a device: when its blocks are really there, and the map from keys to values it then denotes. */
module Media {
  import opened Blocks
  import opened Runs
  import opened Trie

  /** Device blocks, and the tract within them. */
  datatype Medium = Medium(disk: seq<Block>, base: nat, len: Positive)

  ghost predicate Has(m: Medium, lba: nat) {
    lba < m.len && m.base + lba < |m.disk|
  }

  ghost predicate SealedAt(m: Medium, lba: nat, doc: Doc) {
    Has(m, lba) && m.disk[m.base + lba] == Sealed(doc)
  }

  ghost predicate FurrowAt(m: Medium, lba: nat, key: Key, index: nat) {
    Has(m, lba) && m.disk[m.base + lba] == Sealed(FurrowDoc(key, index, PayloadAt(m, lba)))
  }

  ghost function PayloadAt(m: Medium, lba: nat): Value {
    if Has(m, lba) && m.disk[m.base + lba].Sealed? && m.disk[m.base + lba].doc.FurrowDoc?
    then m.disk[m.base + lba].doc.payload else []
  }

  ghost function Assemble(m: Medium, ps: seq<nat>): Value {
    Join(seq(|ps|, i requires 0 <= i < |ps| => PayloadAt(m, ps[i])))
  }

  /** An extent's runs name its furrows, and each is sealed under the leaf's key and its own index. */
  ghost predicate BodyHeld(m: Medium, key: Key, body: Body) {
    body.Extent? ==>
      && Inside(body.runs, m.len) && Total(body.runs) <= m.len
      && Total(body.runs) == CeilDiv(body.size, FURROW_CAP)
      && forall i :: 0 <= i < |Expand(body.runs)| ==> FurrowAt(m, Expand(body.runs)[i], key, i)
  }

  /** Every committed pointer of the trie finds on the device exactly the document it names. */
  ghost predicate Held(m: Medium, t: Tree)
    decreases t
  {
    match t
    case Nil => true
    case Leaf(lba, key, body) => SealedAt(m, lba, LeafDoc(key, body)) && BodyHeld(m, key, body)
    case Node(place, depth, route, kids) =>
      && (place.At? ==> SealedAt(m, place.lba, NodeDoc(depth, route, kids)))
      && forall c :: 0 <= c < |kids| ==> Held(m, kids[c])
  }

  /** What a read of the leaf gives: furrows that do not carry the leaf's size between them are no value. */
  ghost function ValueOf(m: Medium, leaf: Tree): Stored {
    if !leaf.Leaf? then Short
    else if leaf.body.Lone? then Full(leaf.body.value)
    else
      var value := Assemble(m, Expand(leaf.body.runs));
      if |value| == leaf.body.size then Full(value) else Short
  }

  ghost function Keys(t: Tree): set<Key> {
    set l | l in Leaves(t) && l.Leaf? :: l.key
  }

  /** The finite map a trie denotes. */
  ghost function Content(m: Medium, t: Tree): map<Key, Stored> {
    map k | k in Keys(t) :: ValueOf(m, Find(t, 0, k))
  }

  /** `after` keeps every block of `before` at the positions `s`. */
  ghost predicate Keeps(before: Medium, after: Medium, s: set<nat>) {
    && before.len <= after.len && before.base == after.base
    && forall p :: p in s && Has(before, p) ==>
         Has(after, p) && after.disk[after.base + p] == before.disk[before.base + p]
  }

  // ---------------------------------------------------------------- laws

  lemma {:induction false} KeyIsFound(t: Tree, k: Key)
    requires Sound(t, [])
    ensures k in Keys(t) <==> Find(t, 0, k).Leaf?
    ensures k in Keys(t) ==> Find(t, 0, k) in Leaves(t)
  {
    if k in Keys(t) {
      var l :| l in Leaves(t) && l.Leaf? && l.key == k;
      FindIsMembership(t, [], l);
    }
    if Find(t, 0, k).Leaf? {
      FindIsMembership(t, [], Find(t, 0, k));
    }
  }

  lemma {:induction false} LeafOwn(t: Tree, leaf: Tree)
    requires leaf in Leaves(t)
    ensures leaf.Leaf? && Own(leaf) <= Pos(t)
    decreases t
  {
    if t.Node? {
      var c :| 0 <= c < |t.kids| && leaf in Leaves(t.kids[c]);
      LeafOwn(t.kids[c], leaf);
      assert Pos(t.kids[c]) <= Under(t.kids);
    }
  }

  lemma {:induction false} BodyKept(m: Medium, n: Medium, key: Key, body: Body)
    requires BodyHeld(m, key, body) && Keeps(m, n, Elems(Furrows(body)))
    ensures BodyHeld(n, key, body)
    ensures body.Extent? ==> Assemble(n, Expand(body.runs)) == Assemble(m, Expand(body.runs))
  {
    if body.Extent? {
      var ps := Expand(body.runs);
      forall i | 0 <= i < |ps|
        ensures FurrowAt(n, ps[i], key, i) && PayloadAt(n, ps[i]) == PayloadAt(m, ps[i])
      {
        assert FurrowAt(m, ps[i], key, i) && ps[i] in Furrows(body);
      }
      assert seq(|ps|, i requires 0 <= i < |ps| => PayloadAt(m, ps[i]))
          == seq(|ps|, i requires 0 <= i < |ps| => PayloadAt(n, ps[i]));
    }
  }

  lemma {:induction false} HeldKept(m: Medium, n: Medium, t: Tree)
    requires Held(m, t) && Keeps(m, n, Pos(t))
    ensures Held(n, t)
    decreases t
  {
    match t
    case Nil =>
    case Leaf(lba, key, body) => BodyKept(m, n, key, body);
    case Node(place, _, _, kids) =>
      forall c | 0 <= c < |kids|
        ensures Held(n, kids[c])
      {
        assert Pos(kids[c]) <= Under(kids);
        HeldKept(m, n, kids[c]);
      }
  }

  lemma {:induction false} HeldLeaf(m: Medium, t: Tree, leaf: Tree)
    requires Held(m, t) && leaf in Leaves(t)
    ensures Held(m, leaf)
    decreases t
  {
    if t.Node? {
      var c :| 0 <= c < |t.kids| && leaf in Leaves(t.kids[c]);
      HeldLeaf(m, t.kids[c], leaf);
    }
  }

  lemma {:induction false} ValueKept(m: Medium, n: Medium, t: Tree, leaf: Tree)
    requires Held(m, t) && Keeps(m, n, Pos(t)) && leaf in Leaves(t)
    ensures ValueOf(n, leaf) == ValueOf(m, leaf)
  {
    LeafOwn(t, leaf);
    HeldLeaf(m, t, leaf);
    assert Keeps(m, n, Elems(Furrows(leaf.body)));
    BodyKept(m, n, leaf.key, leaf.body);
  }

  /** Writes elsewhere change nothing the trie denotes. */
  lemma {:induction false} ContentKept(m: Medium, n: Medium, t: Tree)
    requires Sound(t, []) && Held(m, t) && Keeps(m, n, Pos(t))
    ensures Content(n, t) == Content(m, t)
  {
    forall k | k in Keys(t)
      ensures ValueOf(n, Find(t, 0, k)) == ValueOf(m, Find(t, 0, k))
    {
      KeyIsFound(t, k);
      ValueKept(m, n, t, Find(t, 0, k));
    }
  }

  /** Equal searches make equal maps. */
  lemma {:induction false} ContentByFind(m: Medium, t: Tree, u: Tree)
    requires Sound(t, []) && Sound(u, [])
    requires forall k: Key :: Find(u, 0, k) == Find(t, 0, k)
    ensures Content(m, u) == Content(m, t)
  {
    hide Sound, Find, Leaves, ValueOf;
    forall k: Key
      ensures k in Keys(u) <==> k in Keys(t)
    {
      KeyIsFound(t, k);
      KeyIsFound(u, k);
    }
  }

  lemma {:induction false} ContentInsert(m: Medium, t: Tree, leaf: Tree)
    requires Sound(t, []) && leaf.Leaf?
    ensures Sound(Insert(t, leaf), [])
    ensures Content(m, Insert(t, leaf)) == Content(m, t)[leaf.key := ValueOf(m, leaf)]
  {
    hide Sound, Find, Leaves, ValueOf, Insert;
    var u := Insert(t, leaf);
    InsertMaps(t, leaf);
    forall k: Key
      ensures k in Keys(u) <==> k in Keys(t) || k == leaf.key
    {
      KeyIsFound(t, k);
      KeyIsFound(u, k);
    }
  }

  lemma {:induction false} ContentRemove(m: Medium, t: Tree, leaf: Tree)
    requires Sound(t, []) && leaf.Leaf? && Find(t, 0, leaf.key) == leaf
    ensures Sound(Remove(t, leaf.key, leaf), [])
    ensures Content(m, Remove(t, leaf.key, leaf)) == Content(m, t) - {leaf.key}
  {
    hide Sound, Find, Leaves, ValueOf, Remove;
    var u := Remove(t, leaf.key, leaf);
    RemoveMaps(t, leaf);
    forall k: Key
      ensures k in Keys(u) <==> k in Keys(t) && k != leaf.key
    {
      KeyIsFound(t, k);
      KeyIsFound(u, k);
    }
  }

  lemma {:induction false} GraftHeld(m: Medium, t: Tree, d: nat, h: Hunt, x: Tree)
    requires Held(m, t)
    ensures Held(m, End(t, d, h).0)
    ensures Held(m, x) ==> Held(m, Graft(t, d, h, x))
    decreases t
  {
    if !Halts(t, d, h) {
      GraftHeld(m, t.kids[h.key[d]], d + 1, h, x);
    }
  }

  lemma {:induction false} SplitHeld(m: Medium, d: nat, a: Tree, b: Tree)
    requires a.Leaf? && b.Leaf? && Held(m, a) && Held(m, b)
    ensures Held(m, Split(d, a, b))
    decreases LEVELS - d
  {
    if d < LEVELS && a.key[d] == b.key[d] {
      SplitHeld(m, d + 1, a, b);
    }
  }

  lemma {:induction false} InsertHeld(m: Medium, t: Tree, leaf: Tree)
    requires Held(m, t) && leaf.Leaf? && Held(m, leaf)
    ensures Held(m, Insert(t, leaf))
  {
    var h := ToLeaf(leaf.key);
    var e := End(t, 0, h);
    GraftHeld(m, t, 0, h, leaf);
    if e.0.Leaf? {
      SplitHeld(m, e.1, e.0, leaf);
    }
    GraftHeld(m, t, 0, h, Landing(e, leaf));
  }

  lemma {:induction false} RemoveHeld(m: Medium, t: Tree, route: Key, gone: Tree)
    requires Held(m, t)
    ensures Held(m, Remove(t, route, gone))
  {
    var h := Hunt(route, gone, LEVELS);
    GraftHeld(m, t, 0, h, Nil);
    GraftHeld(m, t, 0, h, End(t, 0, h).0);
  }
}
