/** The copy-on-write index as the engine edits it: a root slot, an arena of dirty nodes changed in place,
    the liveness delta of the pending edits. Every edit is proved against the laws of module Trie. */
module Hamts {
  import opened Blocks
  import opened Runs
  import opened Trie
  import opened Media
  import opened Arenas
  import opened Devices
  import opened Mirrors
  import opened Tracts
  import opened Placing
  import opened Moves
  import opened Patching
  import opened Windows

  /** How many furrows one device read may span. */
  const RUN_STEP: Positive

  // ---------------------------------------------------------------- reading a pointer's target

  /** Positions and depth inside a document are checked before a caller sees it. */
  predicate DocFits(doc: Doc, len: nat) {
    doc.NodeDoc? ==>
      && doc.depth < LEVELS && |doc.kids| == WIDTH
      && forall c :: 0 <= c < WIDTH ==> KidFits(doc.kids[c], len)
  }

  predicate KidFits(kid: Tree, len: nat) {
    kid.Nil? || (Committed(kid) && LbaOf(kid) < len)
  }

  /** What a block found at a pointer's position gives: nothing if all zero, an error if unsealed or sealed over another document. */
  function DocOfBlock(b: Block, expected: Doc, len: nat): Result<Option<Doc>> {
    if b.Zero? then Ok(None)
    else if !b.Sealed? then Err(Corrupt)
    else if b.doc != expected then Err(Error.Seal)
    else if !DocFits(b.doc, len) then Err(Corrupt)
    else Ok(Some(b.doc))
  }

  ghost function DocAt(m: Medium, lba: nat, expected: Doc): Result<Option<Doc>> {
    if lba >= m.len then Err(Bounds(lba))
    else if m.base + lba >= |m.disk| then Err(Bounds(m.base + lba))
    else DocOfBlock(m.disk[m.base + lba], expected, m.len)
  }

  lemma {:induction false} HeldDoc(m: Medium, t: Tree, pre: seq<nat>)
    requires Held(m, t) && Sound(t, pre) && Committed(t)
    ensures DocAt(m, LbaOf(t), DocOf(t)) == Ok(Some(DocOf(t)))
  {
    if t.Node? {
      forall c | 0 <= c < WIDTH
        ensures KidFits(t.kids[c], m.len)
      {
        assert Held(m, t.kids[c]) && !IsDirty(t.kids[c]);
      }
    }
  }

  method ReadDoc(m: Mirror, t: Tract, lba: nat, expected: Doc) returns (r: Result<Option<Doc>>)
    requires m.Valid()
    modifies m`cache, m`uses
    ensures m.Valid() && m.disk == old(m.disk)
    ensures r == DocAt(t.View(m), lba, expected)
    ensures r.Ok? && r.value.Some? ==> r.value.value == expected && DocFits(expected, t.len)
  {
    if lba >= t.len {
      return Err(Bounds(lba));
    }
    var got := m.ReadCached(t.base + lba);
    if got.Err? {
      return Err(got.error);
    }
    return DocOfBlock(got.value, expected, t.len);
  }

  // ---------------------------------------------------------------- the delta

  /** `after` is `before` and then true references to exactly the positions `s`. */
  ghost predicate Grew(m: Medium, before: seq<Ref>, after: seq<Ref>, s: set<nat>) {
    before <= after && RefsTrue(m, after[|before|..]) && Lbas(after[|before|..]) == s
  }

  lemma {:induction false} GrewNone(m: Medium, refs: seq<Ref>)
    ensures Grew(m, refs, refs, {})
  {
  }

  lemma {:induction false} GrewOne(m: Medium, refs: seq<Ref>, r: Ref)
    requires SealedAt(m, r.lba, r.doc)
    ensures Grew(m, refs, refs + [r], {r.lba})
  {
    assert (refs + [r])[|refs|..] == [r];
    assert [r][0] == r;
  }

  lemma {:induction false} GrewThen(m: Medium, a: seq<Ref>, b: seq<Ref>, c: seq<Ref>, s: set<nat>, u: set<nat>)
    requires Grew(m, a, b, s) && Grew(m, b, c, u)
    ensures Grew(m, a, c, s + u)
  {
    var x, y := b[|a|..], c[|b|..];
    assert c[|a|..] == x + y;
    LbasAppend(x, y);
    forall i | 0 <= i < |x + y|
      ensures SealedAt(m, (x + y)[i].lba, (x + y)[i].doc)
    {
      assert i >= |x| ==> (x + y)[i] == y[i - |x|];
    }
  }

  // ---------------------------------------------------------------- the index

  /** A put's descent: what it replaces, and what it frees besides its path. */
  ghost function Displaced(t: Tree, d: nat, leaf: Tree): set<nat>
    requires leaf.Leaf?
  {
    var e := End(t, d, ToLeaf(leaf.key)).0;
    if e.Leaf? && e.key == leaf.key then Own(e) else {}
  }

  ghost function Inserted(t: Tree, d: nat, leaf: Tree): Tree
    requires leaf.Leaf?
  {
    var h := ToLeaf(leaf.key);
    Graft(t, d, h, Landing(End(t, d, h), leaf))
  }

  ghost function Superseded(t: Tree, d: nat, leaf: Tree): set<nat>
    requires leaf.Leaf?
  {
    Trail(t, d, ToLeaf(leaf.key)) + Displaced(t, d, leaf)
  }

  /** One level of a put's descent. */
  lemma {:induction false} InsertedStep(t: Tree, d: nat, leaf: Tree)
    requires t.Node? && d < LEVELS && |t.kids| == WIDTH && leaf.Leaf?
    ensures var c := leaf.key[d];
      && Inserted(t, d, leaf) == Node(Dirty, t.depth, t.route, t.kids[c := Inserted(t.kids[c], d + 1, leaf)])
      && Superseded(t, d, leaf) == Own(t) + Superseded(t.kids[c], d + 1, leaf)
  {
  }

  /** The child a descent along `key` takes. */
  lemma {:induction false} KidOf(a: seq<ANode>, idx: nat, d: nat, key: Key)
    requires Wf(a, InArena(idx), d) && Sound(Tr(a, InArena(idx), d), key[..d])
    ensures d < LEVELS && idx < |a| && |a[idx].kids| == WIDTH
    ensures var t, kid := Tr(a, InArena(idx), d), Tr(a, a[idx].kids[key[d]], d + 1);
      && t.Node? && t.place.Dirty? && |t.kids| == WIDTH && t.kids[key[d]] == kid
      && Sound(kid, key[..d + 1])
    ensures Wf(a, a[idx].kids[key[d]], d + 1) && !(idx in Ix(a, a[idx].kids[key[d]], d + 1))
  {
    EntryApart(a, idx, d);
    assert key[..d] + [key[d]] == key[..d + 1];
    assert Ix(a, a[idx].kids[key[d]], d + 1) <= IxUnder(a, a[idx].kids, d + 1);
  }

  lemma {:induction false} GrewKept(v: Medium, w: Medium, before: seq<Ref>, after: seq<Ref>, s: set<nat>)
    requires Grew(v, before, after, s) && Keeps(v, w, s)
    ensures Grew(w, before, after, s)
  {
    var refs := after[|before|..];
    forall i | 0 <= i < |refs|
      ensures SealedAt(w, refs[i].lba, refs[i].doc)
    {
      assert SealedAt(v, refs[i].lba, refs[i].doc) && refs[i].lba in Lbas(refs);
    }
  }

  /** Everything `t` references is committed and live, or was appended since the cursor `since`. */
  ghost predicate Home(t: Tree, live: set<nat>, since: nat, plow: nat, len: Positive) {
    Pos(t) <= live + Lap(since, plow, len)
  }

  function TreeOf(s: Slot): Tree
    requires !s.InArena?
  {
    if s.Vacant? then Nil else s.tree
  }

  /** The block a node with no dirty child is written as. */
  function DocOfEntry(n: ANode): Doc
    requires forall c :: 0 <= c < |n.kids| ==> !n.kids[c].InArena?
  {
    NodeDoc(n.depth, n.route, seq(|n.kids|, c requires 0 <= c < |n.kids| => TreeOf(n.kids[c])))
  }

  lemma {:induction false} EntryDoc(a: seq<ANode>, idx: nat, d: nat)
    requires Wf(a, InArena(idx), d) && forall c :: 0 <= c < |a[idx].kids| ==> !a[idx].kids[c].InArena?
    ensures var u := Tr(a, InArena(idx), d); u.Node? && u.place.Dirty? && DocOf(u) == DocOfEntry(a[idx])
    ensures forall c :: 0 <= c < WIDTH ==> !IsDirty(Tr(a, InArena(idx), d).kids[c])
  {
    assert Trs(a, a[idx].kids, d + 1) == DocOfEntry(a[idx]).kids;
  }

  lemma {:induction false} LinkSame(a: seq<ANode>, idx: nat, c: nat, s: Slot)
    requires idx < |a| && c < |a[idx].kids| && a[idx].kids[c] == s
    ensures Linked(a, idx, c, s) == a
  {
    assert a[idx].kids[c := s] == a[idx].kids;
  }

  ghost predicate Readable(v: Medium, t: Tree) {
    Committed(t) ==> DocAt(v, LbaOf(t), DocOf(t)) == Ok(Some(DocOf(t)))
  }

  /** Every pointer the descent has to follow finds its document. */
  ghost predicate Walkable(v: Medium, t: Tree, d: nat, h: Hunt)
    decreases t
  {
    || (Committed(t) && t == h.stop)
    || (Readable(v, t) && (!Halts(t, d, h) ==> Walkable(v, t.kids[h.key[d]], d + 1, h)))
  }

  lemma {:induction false} HeldWalkable(v: Medium, t: Tree, pre: seq<nat>, h: Hunt)
    requires Held(v, t) && Sound(t, pre) && pre <= h.key
    ensures Walkable(v, t, |pre|, h)
    decreases t
  {
    if Committed(t) {
      HeldDoc(v, t, pre);
    }
    if !Halts(t, |pre|, h) {
      PrefixStep(pre, h.key);
      HeldWalkable(v, t.kids[h.key[|pre|]], pre + [h.key[|pre|]], h);
    }
  }

  /** The trie with the hunted pointer swapped for `x`; only its path copied when it is not there. */
  ghost function Swapped(t: Tree, d: nat, h: Hunt, x: Tree): Tree {
    Graft(t, d, h, if Met(t, d, h) then x else End(t, d, h).0)
  }

  ghost predicate Met(t: Tree, d: nat, h: Hunt) {
    Committed(End(t, d, h).0) && End(t, d, h).0 == h.stop
  }

  lemma {:induction false} SwappedStep(t: Tree, d: nat, h: Hunt, x: Tree)
    requires !Halts(t, d, h)
    ensures var c := h.key[d];
      && Swapped(t, d, h, x) == Node(Dirty, t.depth, t.route, t.kids[c := Swapped(t.kids[c], d + 1, h, x)])
      && Trail(t, d, h) == Own(t) + Trail(t.kids[c], d + 1, h)
      && (Met(t, d, h) <==> Met(t.kids[c], d + 1, h))
  {
  }

  // ---------------------------------------------------------------- steps of a flush

  datatype Shot = Shot(arena: seq<ANode>, added: seq<Ref>, v: Medium, staged: map<nat, Block>, plow: nat)

  function AfterFlush(idx: nat, r: Result<Tree>): Slot {
    if r.Ok? then Pointer(r.value) else InArena(idx)
  }

  /** The slot denotes a sound trie whose blocks are live or newly appended, so what is appended next is made. */
  ghost predicate Ready(p: Shot, s: Slot, d: nat, pre: seq<nat>, live: set<nat>, since: nat) {
    && d < LEVELS && Wf(p.arena, s, d)
    && |pre| == d && Sound(Tr(p.arena, s, d), pre) && Once(Tr(p.arena, s, d))
    && since <= p.plow && Home(Tr(p.arena, s, d), live, since, p.plow, p.v.len)
  }

  /** From `p` to `q` some dirty nodes under `s` were appended, each recorded in the delta, and `now` took its place. */
  ghost predicate FlushStep(p: Shot, q: Shot, s: Slot, now: Slot, d: nat, pre: seq<nat>, live: set<nat>) {
    && Appended(p.v, q.v, p.staged, q.staged, p.plow, q.plow)
    && |q.arena| == |p.arena| && Kept(p.arena, q.arena, Ix(p.arena, s, d))
    && Wf(q.arena, now, d) && OnlyNew(Ix(q.arena, now, d), Ix(p.arena, s, d), |p.arena|)
    && Flushed(Tr(p.arena, s, d), Tr(q.arena, now, d), pre, p.plow, q.plow, p.v.len)
    && Lap(p.plow, q.plow, p.v.len) !! live
    && (Held(p.v, Tr(p.arena, s, d)) ==> Held(q.v, Tr(q.arena, now, d)))
    && Grew(q.v, p.added, q.added, Lap(p.plow, q.plow, p.v.len))
  }

  lemma {:induction false} StepNone(p: Shot, s: Slot, d: nat, pre: seq<nat>, live: set<nat>, since: nat)
    requires Ready(p, s, d, pre, live, since)
    ensures FlushStep(p, p, s, s, d, pre, live)
  {
    FlushedNone(Tr(p.arena, s, d), pre, p.plow, p.v.len);
    GrewNone(p.v, p.added);
    assert Lap(p.plow, p.plow, p.v.len) == {};
  }

  lemma {:induction false} StepReady(p: Shot, q: Shot, s: Slot, now: Slot, d: nat, pre: seq<nat>, live: set<nat>, since: nat)
    requires Ready(p, s, d, pre, live, since) && FlushStep(p, q, s, now, d, pre, live)
    ensures Ready(q, now, d, pre, live, since)
  {
    LapSplit(since, p.plow, q.plow, p.v.len);
  }

  lemma {:induction false} StepThen(p: Shot, q: Shot, r: Shot, s: Slot, now: Slot, d: nat, pre: seq<nat>, live: set<nat>, since: nat)
    requires Ready(p, s, d, pre, live, since) && FlushStep(p, q, s, s, d, pre, live)
    requires FlushStep(q, r, s, now, d, pre, live) && r.plow <= since + p.v.len
    ensures FlushStep(p, r, s, now, d, pre, live)
    ensures Ready(q, s, d, pre, live, since) && Ready(r, now, d, pre, live, since)
  {
    hide Wf, Tr, Ix, Sound, Once;
    StepReady(p, q, s, s, d, pre, live, since);
    StepReady(q, r, s, now, d, pre, live, since);
    FlushedThen(Tr(p.arena, s, d), Tr(q.arena, s, d), Tr(r.arena, now, d), pre, p.plow, q.plow, r.plow, p.v.len);
    AppendedThen(p.v, q.v, r.v, p.staged, q.staged, r.staged, p.plow, q.plow, r.plow);
    LapSplit(p.plow, q.plow, r.plow, p.v.len);
    LapsApart(p.plow, q.plow, r.plow, p.v.len);
    AppendedKeeps(q.v, r.v, q.staged, r.staged, q.plow, r.plow, Lap(p.plow, q.plow, p.v.len));
    GrewKept(q.v, r.v, p.added, q.added, Lap(p.plow, q.plow, p.v.len));
    GrewThen(r.v, p.added, q.added, r.added, Lap(p.plow, q.plow, p.v.len), Lap(q.plow, r.plow, p.v.len));
  }

  /** The furrows of `key` from index `first` on, each in its place. */
  ghost predicate Furrowed(v: Medium, key: Key, first: nat, ps: seq<nat>) {
    forall j :: 0 <= j < |ps| ==> FurrowAt(v, ps[j], key, j + first)
  }

  lemma {:induction false} FurrowedSlice(v: Medium, key: Key, ps: seq<nat>, a: nat, b: nat)
    requires a <= b <= |ps|
    ensures Furrowed(v, key, 0, ps) ==> Furrowed(v, key, a, ps[a..b])
    ensures Furrowed(v, key, 0, ps[..a]) && Furrowed(v, key, a, ps[a..b]) ==> Furrowed(v, key, 0, ps[..b])
  {
    hide FurrowAt;
    var part := ps[a..b];
    if Furrowed(v, key, 0, ps) {
      forall j | 0 <= j < |part|
        ensures FurrowAt(v, part[j], key, j + a)
      {
        assert FurrowAt(v, ps[a + j], key, (a + j) + 0);
      }
    }
    if Furrowed(v, key, 0, ps[..a]) && Furrowed(v, key, a, part) {
      forall j | 0 <= j < b
        ensures FurrowAt(v, ps[..b][j], key, j + 0)
      {
        if j < a {
          assert FurrowAt(v, ps[..a][j], key, j + 0);
        } else {
          assert FurrowAt(v, part[j - a], key, (j - a) + a);
        }
      }
    }
  }

  ghost predicate IsFurrow(b: Block, key: Key, index: nat) {
    b.Sealed? && b.doc.FurrowDoc? && b.doc.key == key && b.doc.index == index
  }

  ghost function Payload(b: Block): Value {
    if b.Sealed? && b.doc.FurrowDoc? then b.doc.payload else []
  }

  ghost function Payloads(blocks: seq<Block>): seq<Value> {
    seq(|blocks|, i requires 0 <= i < |blocks| => Payload(blocks[i]))
  }

  method CheckFurrows(blocks: seq<Block>, key: Key, first: nat) returns (r: Result<Value>)
    ensures r.Ok? <==> forall j :: 0 <= j < |blocks| ==> IsFurrow(blocks[j], key, j + first)
    ensures r.Ok? ==> r.value == Join(Payloads(blocks))
  {
    var out: Value := [];
    for j := 0 to |blocks|
      invariant out == Join(Payloads(blocks[..j]))
      invariant forall k :: 0 <= k < j ==> IsFurrow(blocks[k], key, k + first)
    {
      match blocks[j] {
        case Sealed(FurrowDoc(k, index, payload)) =>
          if k != key || index != j + first {
            assert !IsFurrow(blocks[j], key, j + first);
            return Err(Corrupt);
          }
          assert Payloads(blocks[..j + 1]) == Payloads(blocks[..j]) + [payload];
          JoinAppend(Payloads(blocks[..j]), payload);
          out := out + payload;
        case _ =>
          assert !IsFurrow(blocks[j], key, j + first);
          return Err(Corrupt);
      }
    }
    assert blocks[..|blocks|] == blocks;
    return Ok(out);
  }

  lemma {:induction false} RunBlocks(v: Medium, key: Key, first: nat, ps: seq<nat>, blocks: seq<Block>)
    requires |blocks| == |ps|
    requires forall j :: 0 <= j < |ps| ==> Has(v, ps[j]) && blocks[j] == v.disk[v.base + ps[j]]
    ensures (forall j :: 0 <= j < |blocks| ==> IsFurrow(blocks[j], key, j + first)) <==> Furrowed(v, key, first, ps)
    ensures Join(Payloads(blocks)) == Assemble(v, ps)
  {
    assert Payloads(blocks) == seq(|ps|, i requires 0 <= i < |ps| => PayloadAt(v, ps[i]));
    forall j | 0 <= j < |blocks|
      ensures IsFurrow(blocks[j], key, j + first) <==> FurrowAt(v, ps[j], key, j + first)
    {
    }
  }

  lemma {:induction false} LoneLaw(v: Medium, leaf: Tree)
    requires leaf.Leaf? && leaf.body.Lone? && SealedAt(v, leaf.lba, DocOf(leaf))
    ensures Once(leaf) && Held(v, leaf) && Own(leaf) == {leaf.lba} && ValueOf(v, leaf) == Full(leaf.body.value)
  {
  }

  /** Appends guarded by the live set leave a sane trie as it is. */
  lemma {:induction false} AppendedSane(v: Medium, w: Medium, sv: map<nat, Block>, sw: map<nat, Block>, from: nat, to: nat,
                     t: Tree, live: set<nat>, since: nat)
    requires Appended(v, w, sv, sw, from, to) && Lap(from, to, v.len) !! live
    requires since <= from && to <= since + v.len && Home(t, live, since, from, v.len)
    requires Sound(t, []) && Held(v, t)
    ensures Held(w, t) && Content(w, t) == Content(v, t)
    ensures Lap(from, to, v.len) !! Pos(t) && Home(t, live, since, to, v.len)
    ensures Lap(since, to, v.len) == Lap(since, from, v.len) + Lap(from, to, v.len)
  {
    LapSplit(since, from, to, v.len);
    FreshPlaces(Pos(t), live, since, from, to, v.len);
    AppendedKeeps(v, w, sv, sw, from, to, Pos(t));
    HeldKept(v, w, t);
    ContentKept(v, w, t);
  }

  /** The delta accounts for what an edit changed: true references, everything added, what it removed gone. */
  ghost predicate Accounted(v: Medium, t: Tree, u: Tree, d: Delta, e: Delta, added: set<nat>) {
    && d.added <= e.added && d.removed <= e.removed
    && RefsTrue(v, e.added[|d.added|..]) && RefsTrue(v, e.removed[|d.removed|..])
    && Lbas(e.added[|d.added|..]) == added
    && Lbas(e.removed[|d.removed|..]) <= Pos(t) + added
    && Pos(u) == Pos(t) + added - Lbas(e.removed[|d.removed|..])
  }

  /** Everything the index references is what was live, plus what the delta added, less what it removed; the
      additions were appended since the cursor `since`. */
  ghost predicate Balanced(t: Tree, d: Delta, live: set<nat>, since: nat, plow: nat, len: Positive) {
    && since <= plow <= since + len
    && Lbas(d.added) <= Lap(since, plow, len)
    && Lbas(d.removed) <= live + Lbas(d.added)
    && Pos(t) == live + Lbas(d.added) - Lbas(d.removed)
  }

  /** The state every operation between two commits keeps. */
  ghost predicate Poised(v: Medium, t: Tree, d: Delta, live: set<nat>, since: nat, plow: nat) {
    && Sound(t, []) && Once(t) && Held(v, t)
    && Balanced(t, d, live, since, plow, v.len)
    && RefsTrue(v, d.added) && RefsTrue(v, d.removed)
  }

  lemma {:induction false} PoisedHome(v: Medium, t: Tree, d: Delta, live: set<nat>, since: nat, plow: nat)
    requires Poised(v, t, d, live, since, plow)
    ensures Home(t, live, since, plow, v.len)
  {
  }

  lemma {:induction false} RefsKept(v: Medium, w: Medium, refs: seq<Ref>)
    requires RefsTrue(v, refs) && Keeps(v, w, Lbas(refs))
    ensures RefsTrue(w, refs)
  {
    forall i | 0 <= i < |refs|
      ensures SealedAt(w, refs[i].lba, refs[i].doc)
    {
      assert SealedAt(v, refs[i].lba, refs[i].doc) && refs[i].lba in Lbas(refs);
    }
  }

  lemma {:induction false} RefsJoin(v: Medium, d: seq<Ref>, e: seq<Ref>)
    requires d <= e && RefsTrue(v, d) && RefsTrue(v, e[|d|..])
    ensures RefsTrue(v, e) && Lbas(e) == Lbas(d) + Lbas(e[|d|..])
  {
    assert e == d + e[|d|..];
    LbasAppend(d, e[|d|..]);
    forall i | 0 <= i < |e|
      ensures SealedAt(v, e[i].lba, e[i].doc)
    {
      assert i >= |d| ==> e[i] == e[|d|..][i - |d|];
      assert i < |d| ==> e[i] == d[i];
    }
  }

  /** A guarded append, recorded or not, and an accounted edit keep the state. */
  lemma {:induction false} PoisedStep(v: Medium, w: Medium, sv: map<nat, Block>, sw: map<nat, Block>, t: Tree, u: Tree, d: Delta, e: Delta,
                   added: set<nat>, live: set<nat>, since: nat, from: nat, to: nat)
    requires Poised(v, t, d, live, since, from)
    requires Appended(v, w, sv, sw, from, to) && Lap(from, to, v.len) !! live && to <= since + v.len
    requires Sound(u, []) && Once(u) && Held(w, u)
    requires Accounted(w, t, u, d, e, added) && added <= Lap(from, to, v.len)
    ensures Poised(w, u, e, live, since, to)
  {
    hide Sound, Once, Held, Lap, Lbas, RefsTrue, Appended;
    assert from <= to && w.len == v.len by {
      AppendedOrder(v, w, sv, sw, from, to);
    }
    LapSplit(since, from, to, v.len);
    LapsApart(since, from, to, v.len);
    AppendedKeeps(v, w, sv, sw, from, to, live + Lbas(d.added));
    assert Keeps(v, w, Lbas(d.added)) && Keeps(v, w, Lbas(d.removed));
    RefsKept(v, w, d.added);
    RefsKept(v, w, d.removed);
    RefsJoin(w, d.added, e.added);
    RefsJoin(w, d.removed, e.removed);
  }

  lemma {:induction false} AppendedOrder(v: Medium, w: Medium, sv: map<nat, Block>, sw: map<nat, Block>, from: nat, to: nat)
    requires Appended(v, w, sv, sw, from, to)
    ensures from <= to && w.len == v.len && w.base == v.base && |w.disk| == |v.disk|
  {
  }

  /** Appends nobody recorded are orphans: nothing changes. */
  lemma {:induction false} PoisedOrphans(v: Medium, w: Medium, sv: map<nat, Block>, sw: map<nat, Block>, t: Tree, d: Delta,
                      live: set<nat>, since: nat, from: nat, to: nat)
    requires Poised(v, t, d, live, since, from)
    requires Appended(v, w, sv, sw, from, to) && Lap(from, to, v.len) !! live && to <= since + v.len
    ensures Poised(w, t, d, live, since, to) && Content(w, t) == Content(v, t)
  {
    AppendedSane(v, w, sv, sw, from, to, t, live, since);
    Unaccounted(w, t, d);
    PoisedStep(v, w, sv, sw, t, t, d, d, {}, live, since, from, to);
  }

  lemma {:induction false} Unaccounted(v: Medium, t: Tree, d: Delta)
    ensures Accounted(v, t, t, d, d, {})
  {
    assert Lbas([]) == {};
  }

  lemma {:induction false} PoisedParts(v: Medium, t: Tree, d: Delta, live: set<nat>, since: nat, plow: nat)
    requires Poised(v, t, d, live, since, plow)
    ensures Sound(t, []) && Once(t) && Held(v, t) && since <= plow <= since + v.len
    ensures Balanced(t, d, live, since, plow, v.len)
  {
  }

  /** A survivor's copy lies off everything referenced, and its original is untouched. */
  lemma {:induction false} SurvivorPlaced(v: Medium, w: Medium, sv: map<nat, Block>, sw: map<nat, Block>, t: Tree, d: Delta,
                       live: set<nat>, since: nat, from: nat, pos: nat, doc: Doc)
    requires Poised(v, t, d, live, since, from) && from + 1 <= since + v.len
    requires Appended(v, w, sv, sw, from, from + 1) && Lap(from, from + 1, v.len) !! live
    requires Plowed(v.disk, w.disk, v.base, v.len, from, [doc])
    requires pos in Pos(t) && SealedAt(v, pos, doc)
    ensures from % v.len !in Pos(t) && SealedAt(w, from % v.len, doc) && SealedAt(w, pos, doc)
    ensures Lap(from, from + 1, v.len) == {from % v.len}
  {
    hide *;
    PoisedHome(v, t, d, live, since, from);
    PoisedParts(v, t, d, live, since, from);
    AppendedOrder(v, w, sv, sw, from, from + 1);
    FreshHome(v, t, live, since, from, from + 1);
    AppendedKeeps(v, w, sv, sw, from, from + 1, Pos(t));
    SealedKept(v, w, Pos(t), pos, doc);
    PlowedOne(v, w, from, doc);
  }

  lemma {:induction false} SealedKept(v: Medium, w: Medium, s: set<nat>, pos: nat, doc: Doc)
    requires Keeps(v, w, s) && pos in s && SealedAt(v, pos, doc)
    ensures SealedAt(w, pos, doc)
  {
  }

  lemma {:induction false} SurvivorLaw(v: Medium, w: Medium, sv: map<nat, Block>, sw: map<nat, Block>, t: Tree, u: Tree, d: Delta,
                    mid: seq<Ref>, e: Delta, live: set<nat>, since: nat, from: nat, pos: nat, doc: Doc)
    requires Poised(v, t, d, live, since, from) && from + 1 <= since + v.len
    requires Appended(v, w, sv, sw, from, from + 1) && Lap(from, from + 1, v.len) !! live
    requires Lap(from, from + 1, v.len) == {from % v.len}
    requires Sound(u, []) && Once(u) && Held(w, u)
    requires !doc.FurrowDoc? && pos in Pos(t) && SealedAt(w, pos, doc) && SealedAt(w, from % v.len, doc)
    requires var trail := Trail(t, 0, HuntOf(doc, pos));
      && trail <= Pos(t) && Pos(u) == Pos(t) - {pos} - trail + {from % v.len} && from % v.len !in Pos(t)
      && Grew(w, d.removed, mid, trail)
    requires e == Delta(d.added + [Ref(from % v.len, doc)], mid + [Ref(pos, doc)])
    ensures Poised(w, u, e, live, since, from + 1) && pos in Lbas(e.removed)
    ensures d.added <= e.added && d.removed <= e.removed
  {
    hide Sound, Once, Held, Poised, Appended, Lap, Trail, HuntOf, Pos, SealedAt, RefsTrue;
    var trail := Trail(t, 0, HuntOf(doc, pos));
    GrewOne(w, d.added, Ref(from % v.len, doc));
    GrewOne(w, mid, Ref(pos, doc));
    GrewThen(w, d.removed, mid, e.removed, trail, {pos});
    PoisedStep(v, w, sv, sw, t, u, d, e, {from % v.len}, live, since, from, from + 1);
    assert e.removed[|mid|].lba == pos;
  }

  /** Furrows of `key` that the trie still references, where the device holds them. */
  ghost predicate GroupLive(v: Medium, t: Tree, key: Key, group: seq<Shift>) {
    forall j :: 0 <= j < |group| ==> FurrowAt(v, group[j].pos, key, group[j].index) && group[j].pos in Pos(t)
  }

  /** The group lies in the extent of the leaf its key has. */
  ghost predicate GroupHeld(v: Medium, t: Tree, leaf: Tree, group: seq<Shift>) {
    && leaf.Leaf? && leaf.body.Extent? && Find(t, 0, leaf.key) == leaf
    && NoRepeat(group) && GroupOf(group, Furrows(leaf.body))
    && forall j :: 0 <= j < |group| ==> FurrowAt(v, group[j].pos, leaf.key, group[j].index) && group[j].pos in Pos(t)
  }

  /** Live furrows found by position belong to their key's current extent, each at its index. */
  lemma {:induction false} GroupLeaf(v: Medium, t: Tree, key: Key, group: seq<Shift>)
    requires Sound(t, []) && Held(v, t) && group != [] && GroupLive(v, t, key, group) && NoRepeat(group)
    ensures var leaf := Find(t, 0, key); leaf.Leaf? && leaf.key == key && GroupHeld(v, t, leaf, group)
  {
    hide Sound, Held, Pos, Leaves, Find, NoRepeat;
    var leaf := Find(t, 0, key);
    forall j | 0 <= j < |group|
      ensures FurrowOf(leaf, group[j].index, group[j].pos)
    {
      assert FurrowAt(v, group[j].pos, key, group[j].index);
      RoleOf(v, t, group[j].pos);
      var owner :| owner in Leaves(t) && FurrowOf(owner, group[j].index, group[j].pos) && owner.key == key;
      FindIsMembership(t, [], owner);
    }
    assert FurrowOf(leaf, group[0].index, group[0].pos);
  }

  lemma {:induction false} GroupSorted(v: Medium, t: Tree, key: Key, group: seq<Shift>, sorted: seq<Shift>)
    requires var leaf := Find(t, 0, key); leaf.Leaf? && leaf.key == key && GroupHeld(v, t, leaf, group)
    requires NoRepeat(sorted) && forall g :: g in sorted <==> g in group
    ensures GroupHeld(v, t, Find(t, 0, key), sorted) && Spots(sorted) == Spots(group)
  {
    var leaf := Find(t, 0, key);
    forall j | 0 <= j < |sorted|
      ensures FurrowAt(v, sorted[j].pos, key, sorted[j].index) && sorted[j].pos in Pos(t)
      ensures sorted[j].index < |Furrows(leaf.body)| && Furrows(leaf.body)[sorted[j].index] == sorted[j].pos
    {
      assert sorted[j] in group;
      var i :| 0 <= i < |group| && group[i] == sorted[j];
    }
  }

  /** The group's blocks stand copied, in order, at made positions. */
  ghost predicate CopiedGroup(v: Medium, t: Tree, leaf: Tree, group: seq<Shift>, docs: seq<Doc>, placed: seq<nat>, from: nat, to: nat) {
    && GroupHeld(v, t, leaf, group) && DocsHeld(v, group, docs) && DocsAt(v, placed, docs) && to == from + |group|
    && placed == Places(from, |group|, v.len) && Distinct(placed)
    && Elems(placed) == Lap(from, to, v.len) && Elems(placed) !! Pos(t)
  }

  lemma {:induction false} GroupCopied(v: Medium, w: Medium, sv: map<nat, Block>, sw: map<nat, Block>, t: Tree, d: Delta, live: set<nat>,
                                       since: nat, from: nat, leaf: Tree, group: seq<Shift>, docs: seq<Doc>)
    requires Poised(v, t, d, live, since, from) && |docs| == |group| && from + |docs| <= since + v.len
    requires Appended(v, w, sv, sw, from, from + |docs|) && Lap(from, from + |docs|, v.len) !! live
    requires Plowed(v.disk, w.disk, v.base, v.len, from, docs) && |docs| <= v.len
    requires GroupHeld(v, t, leaf, group) && DocsHeld(v, group, docs)
    ensures CopiedGroup(w, t, leaf, group, docs, Places(from, |docs|, v.len), from, from + |docs|)
  {
    hide *;
    PoisedHome(v, t, d, live, since, from);
    PoisedParts(v, t, d, live, since, from);
    AppendedOrder(v, w, sv, sw, from, from + |docs|);
    FreshHome(v, t, live, since, from, from + |docs|);
    AppendedKeeps(v, w, sv, sw, from, from + |docs|, Pos(t));
    PlacesLap(from, |docs|, v.len);
    GroupKept(v, w, t, leaf, group, docs);
    PlowedDocs(v, w, from, docs);
    CopiedParts(w, t, leaf, group, docs, Places(from, |docs|, v.len), from, from + |docs|);
  }

  /** The group's blocks stand where it says. */
  ghost predicate DocsHeld(v: Medium, group: seq<Shift>, docs: seq<Doc>) {
    |docs| == |group| && forall j :: 0 <= j < |group| ==> SealedAt(v, group[j].pos, docs[j])
  }

  ghost predicate DocsAt(v: Medium, places: seq<nat>, docs: seq<Doc>) {
    |docs| == |places| && forall j :: 0 <= j < |places| ==> SealedAt(v, places[j], docs[j])
  }

  lemma {:induction false} GroupKept(v: Medium, w: Medium, t: Tree, leaf: Tree, group: seq<Shift>, docs: seq<Doc>)
    requires GroupHeld(v, t, leaf, group) && DocsHeld(v, group, docs) && Keeps(v, w, Pos(t))
    ensures GroupHeld(w, t, leaf, group) && DocsHeld(w, group, docs)
  {
    hide Pos, Find, Furrows, NoRepeat;
    forall j | 0 <= j < |group|
      ensures SealedAt(w, group[j].pos, docs[j]) && FurrowAt(w, group[j].pos, leaf.key, group[j].index)
    {
      assert SealedAt(v, group[j].pos, docs[j]) && FurrowAt(v, group[j].pos, leaf.key, group[j].index);
    }
  }

  lemma {:induction false} PlowedDocs(v: Medium, w: Medium, from: nat, docs: seq<Doc>)
    requires Plowed(v.disk, w.disk, v.base, v.len, from, docs) && |docs| <= v.len && w.base == v.base && w.len == v.len
    ensures DocsAt(w, Places(from, |docs|, v.len), docs)
  {
    forall j | 0 <= j < |docs|
      ensures SealedAt(w, Places(from, |docs|, v.len)[j], docs[j])
    {
      assert Holds(w.disk, Spot(v.base, v.len, from + j), docs[(from + j) - from]);
      SealedSpot(w, from + j, docs[j]);
    }
  }

  lemma {:induction false} CopiedParts(v: Medium, t: Tree, leaf: Tree, group: seq<Shift>, docs: seq<Doc>, placed: seq<nat>, from: nat, to: nat)
    requires GroupHeld(v, t, leaf, group) && DocsHeld(v, group, docs) && DocsAt(v, placed, docs) && to == from + |docs|
    requires placed == Places(from, |docs|, v.len) && Distinct(placed)
    requires Elems(placed) == Lap(from, to, v.len) && Lap(from, to, v.len) !! Pos(t)
    ensures CopiedGroup(v, t, leaf, group, docs, placed, from, to)
  {
  }

  lemma {:induction false} EmptyLap(at: nat, len: Positive)
    ensures Lap(at, at, len) == {}
  {
  }

  lemma {:induction false} NothingAppended(v: Medium, staged: map<nat, Block>, at: nat)
    ensures Appended(v, v, staged, staged, at, at) && Lap(at, at, v.len) == {}
  {
  }

  lemma {:induction false} NoLbas()
    ensures Lbas([]) == {}
  {
  }

  lemma {:induction false} LbaOne(r: Ref)
    ensures Lbas([r]) == {r.lba}
  {
    assert [r][0] == r;
  }

  lemma {:induction false} RemovedGrows(before: seq<Ref>, after: seq<Ref>)
    requires before <= after
    ensures Lbas(before) <= Lbas(after)
  {
    assert forall i :: 0 <= i < |before| ==> after[i] == before[i];
  }

  lemma {:induction false} NoOwners(owners: map<Key, seq<Shift>>)
    requires owners == map[]
    ensures OwnerSpots(owners) == {}
  {
  }

  function NoKey(): Key {
    seq(LEVELS, _ => 0)
  }

  /** A live block this epoch has not retired is one the trie references, so the device holds it sealed. */
  lemma {:induction false} SurvivorSealed(v: Medium, t: Tree, d: Delta, live: set<nat>, since: nat, plow: nat, pos: nat)
    requires Poised(v, t, d, live, since, plow) && pos in live - Lbas(d.removed)
    ensures pos in Pos(t) && Has(v, pos) && v.disk[v.base + pos].Sealed?
  {
    RoleOf(v, t, pos);
  }

  /** Every owner's group lies in the current index. */
  ghost predicate OwnersLive(v: Medium, t: Tree, owners: map<Key, seq<Shift>>) {
    forall k :: k in owners ==> owners[k] != [] && NoRepeat(owners[k]) && GroupLive(v, t, k, owners[k])
  }

  lemma {:induction false} OwnersStart(v: Medium, t: Tree, d: Delta, live: set<nat>, since: nat, plow: nat, owners: map<Key, seq<Shift>>)
    requires Poised(v, t, d, live, since, plow) && OwnersIn(v, live - Lbas(d.removed), owners)
    ensures OwnersLive(v, t, owners)
  {
    hide Sound, Once, Held, RefsTrue, Lbas, Pos, NoRepeat;
    forall k | k in owners
      ensures owners[k] != [] && NoRepeat(owners[k]) && GroupLive(v, t, k, owners[k])
    {
      assert GroupIn(v, live - Lbas(d.removed), k, owners[k]);
    }
  }

  lemma {:induction false} OwnerNext(v: Medium, t: Tree, owners: map<Key, seq<Shift>>, key: Key)
    requires OwnersLive(v, t, owners) && key in owners
    ensures owners[key] != [] && NoRepeat(owners[key]) && GroupLive(v, t, key, owners[key])
    ensures OwnerSpots(owners) == OwnerSpots(owners - {key}) + Spots(owners[key])
  {
    var rest := owners - {key};
    forall p | p in OwnerSpots(owners)
      ensures p in OwnerSpots(rest) + Spots(owners[key])
    {
      var k, g :| k in owners && g in owners[k] && g.pos == p;
      if k != key {
        assert k in rest && g in rest[k];
      }
    }
  }

  /** Moving one owner's furrows leaves every other owner's group where it was. */
  lemma {:induction false} OwnersStay(v: Medium, w: Medium, sv: map<nat, Block>, sw: map<nat, Block>, t: Tree, u: Tree, d: Delta, e: Delta,
                                      live: set<nat>,
                                      since: nat, from: nat, to: nat, owners: map<Key, seq<Shift>>, key: Key)
    requires OwnersLive(v, t, owners) && Poised(v, t, d, live, since, from)
    requires Appended(v, w, sv, sw, from, to) && Poised(w, u, e, live, since, to) && Lap(from, to, v.len) !! live
    requires forall k: Key :: k != key ==> Find(u, 0, k) == Find(t, 0, k)
    ensures OwnersLive(w, u, owners - {key})
  {
    hide *;
    AppendedOrder(v, w, sv, sw, from, to);
    PoisedHome(v, t, d, live, since, from);
    PoisedParts(v, t, d, live, since, from);
    PoisedParts(w, u, e, live, since, to);
    FreshHome(v, t, live, since, from, to);
    AppendedKeeps(v, w, sv, sw, from, to, Pos(t));
    forall k | k in owners && k != key
      ensures OwnerLive(w, u, k, owners[k])
    {
      OwnersGive(v, t, owners, k);
      GroupLeaf(v, t, k, owners[k]);
      GroupStays(v, w, t, u, k, owners[k]);
    }
    OwnersTake(w, u, owners - {key});
  }

  ghost predicate OwnerLive(v: Medium, t: Tree, key: Key, group: seq<Shift>) {
    group != [] && NoRepeat(group) && GroupLive(v, t, key, group)
  }

  lemma {:induction false} OwnersGive(v: Medium, t: Tree, owners: map<Key, seq<Shift>>, key: Key)
    requires OwnersLive(v, t, owners) && key in owners
    ensures owners[key] != [] && NoRepeat(owners[key]) && GroupLive(v, t, key, owners[key])
  {
  }

  lemma {:induction false} OwnersTake(v: Medium, t: Tree, owners: map<Key, seq<Shift>>)
    requires forall k :: k in owners ==> OwnerLive(v, t, k, owners[k])
    ensures OwnersLive(v, t, owners)
  {
  }

  lemma {:induction false} GroupStays(v: Medium, w: Medium, t: Tree, u: Tree, key: Key, group: seq<Shift>)
    requires group != [] && NoRepeat(group) && GroupLive(v, t, key, group) && Keeps(v, w, Pos(t))
    requires Sound(u, []) && Find(u, 0, key) == Find(t, 0, key)
    requires var leaf := Find(t, 0, key); leaf.Leaf? && leaf.key == key && GroupHeld(v, t, leaf, group)
    ensures OwnerLive(w, u, key, group)
  {
    var leaf := Find(t, 0, key);
    FindIsMembership(u, [], leaf);
    LeafOwn(u, leaf);
    hide Sound, Pos, Find;
    forall j | 0 <= j < |group|
      ensures FurrowAt(w, group[j].pos, key, group[j].index) && group[j].pos in Pos(u)
    {
      assert FurrowAt(v, group[j].pos, key, group[j].index) && group[j].pos in Pos(t);
      assert group[j].pos in Elems(Furrows(leaf.body));
    }
  }

  /** Live positions keep their blocks through guarded appends. */
  lemma {:induction false} ItemStays(v: Medium, w: Medium, sv: map<nat, Block>, sw: map<nat, Block>, from: nat, to: nat, live: set<nat>,
                                     items: seq<Ref>, i: nat)
    requires Listed(v, live, items) && i < |items|
    requires Appended(v, w, sv, sw, from, to) && Lap(from, to, v.len) !! live
    ensures SealedAt(w, items[i].lba, items[i].doc) && items[i].lba in live && !items[i].doc.FurrowDoc? && w.len == v.len && w.base == v.base
  {
    hide Lap, Appended;
    AppendedOrder(v, w, sv, sw, from, to);
    AppendedKeeps(v, w, sv, sw, from, to, live);
    assert SealedAt(v, items[i].lba, items[i].doc);
  }

  lemma {:induction false} ItemStands(v: Medium, t: Tree, d: Delta, live: set<nat>, since: nat, plow: nat, item: Ref)
    requires Poised(v, t, d, live, since, plow) && item.lba in live && SealedAt(v, item.lba, item.doc)
    ensures item in d.removed <==> item.lba in Lbas(d.removed)
    ensures item !in d.removed ==> item.lba in Pos(t)
  {
    RetiredBySeal(v, d.removed, item.lba, item.doc);
  }

  lemma {:induction false} ListsStay(v: Medium, w: Medium, sv: map<nat, Block>, sw: map<nat, Block>, from: nat, to: nat, live: set<nat>,
                                     gone: seq<Ref>, win: Window)
    requires WindowIn(v, live - Lbas(gone), win)
    requires Appended(v, w, sv, sw, from, to) && Lap(from, to, v.len) !! live
    ensures Listed(w, live, win.lones + win.leaves + win.nodes)
    ensures Lbas(win.lones + win.leaves + win.nodes) + OwnerSpots(win.owners) == Gathered(win)
  {
    hide Lap, Appended, Lbas, OwnerSpots, OwnersIn;
    AppendedOrder(v, w, sv, sw, from, to);
    AppendedKeeps(v, w, sv, sw, from, to, live);
    LbasAppend(win.lones + win.leaves, win.nodes);
    LbasAppend(win.lones, win.leaves);
    var items := win.lones + win.leaves + win.nodes;
    forall i | 0 <= i < |items|
      ensures items[i].lba in live && !items[i].doc.FurrowDoc? && SealedAt(w, items[i].lba, items[i].doc)
    {
      var n, k := |win.lones|, |win.lones| + |win.leaves|;
      var r := if i < n then win.lones[i] else if i < k then win.leaves[i - n] else win.nodes[i - k];
      assert items[i] == r && SealedAt(v, r.lba, r.doc);
    }
  }

  /** Every live block of the window is retired, and what was appended since lies beyond it. */
  lemma {:induction false} WindowRetired(v: Medium, t: Tree, d: Delta, live: set<nat>, since: nat, plow: nat, from: nat, to: nat,
                                         gone: seq<Ref>, win: Window)
    requires Poised(v, t, d, live, since, plow) && from <= to && gone <= d.removed
    requires Gathered(win) == Lap(from, to, v.len) * (live - Lbas(gone)) && Gathered(win) <= Lbas(d.removed)
    ensures Lap(from, to, v.len) * live <= Lbas(d.removed)
    ensures to <= since && plow <= from + v.len ==> Lap(from, to, v.len) !! Pos(t)
  {
    hide Lap, Lbas, Sound, Once, Held, RefsTrue, Gathered, Pos;
    RemovedGrows(gone, d.removed);
    if to <= since && plow <= from + v.len {
      LapsApart(from, to, plow, v.len);
      LapSplit(to, since, plow, v.len);
    }
  }

  function PosOf(group: seq<Shift>): (ps: seq<nat>)
    ensures |ps| == |group|
  {
    seq(|group|, j requires 0 <= j < |group| => group[j].pos)
  }

  lemma {:induction false} PosOfSpots(group: seq<Shift>)
    ensures Elems(PosOf(group)) == Spots(group)
  {
    forall g | g in group
      ensures g.pos in PosOf(group)
    {
      var j :| 0 <= j < |group| && group[j] == g;
      assert PosOf(group)[j] == g.pos;
    }
  }

  /** References to blocks that stand where they say. */
  lemma {:induction false} RefsGrow(v: Medium, refs: seq<Ref>, places: seq<nat>, docs: seq<Doc>)
    requires |places| == |docs| && forall j :: 0 <= j < |docs| ==> SealedAt(v, places[j], docs[j])
    ensures Grew(v, refs, refs + RefsAt(places, docs), Elems(places))
  {
    var more := RefsAt(places, docs);
    assert (refs + more)[|refs|..] == more;
    forall p | p in Elems(places)
      ensures p in Lbas(more)
    {
      var j :| 0 <= j < |places| && places[j] == p;
      assert more[j].lba == p;
    }
  }

  /** The owner's leaf rebuilt over the copies and swapped in. */
  lemma {:induction false} LeafRebuilt(v: Medium, w: Medium, sv: map<nat, Block>, sw: map<nat, Block>, t: Tree, d: Delta, live: set<nat>,
                                       since: nat, from: nat, mid: nat, leaf: Tree, group: seq<Shift>, docs: seq<Doc>, placed: seq<nat>, made: Tree)
    requires Poised(v, t, d, live, since, mid) && since <= from && mid + 1 <= since + v.len
    requires leaf.Leaf? && made.Leaf? && Rebuilt(leaf, group, placed, made) && CopiedGroup(v, t, leaf, group, docs, placed, from, mid)
    requires Appended(v, w, sv, sw, mid, mid + 1) && Lap(mid, mid + 1, v.len) !! live
    requires made.lba == mid % v.len && Plowed(v.disk, w.disk, v.base, v.len, mid, [DocOf(made)])
    ensures SealedAt(w, made.lba, DocOf(made)) && SealedAt(w, leaf.lba, DocOf(leaf)) && Lap(mid, mid + 1, v.len) == {made.lba}
    ensures DocsHeld(w, group, docs) && DocsAt(w, placed, docs) && Elems(placed) == Lap(from, mid, v.len)
    ensures Swap(w, t, Swapped(t, 0, Hunt(leaf.key, leaf, LEVELS), made), leaf, made) && Met(t, 0, Hunt(leaf.key, leaf, LEVELS))
    ensures Own(made) == Own(leaf) - {leaf.lba} - Spots(group) + Elems(placed) + {made.lba}
    ensures Spots(group) <= Own(leaf) - {leaf.lba} && leaf.lba in Own(leaf)
  {
    hide *;
    PoisedHome(v, t, d, live, since, mid);
    PoisedParts(v, t, d, live, since, mid);
    CopiedGives(v, t, leaf, group, docs, placed, from, mid);
    AppendedOrder(v, w, sv, sw, mid, mid + 1);
    AppendedSane(v, w, sv, sw, mid, mid + 1, t, live, since);
    LapSplit(from, mid, mid + 1, v.len);
    LapsApart(from, mid, mid + 1, v.len);
    AppendedKeeps(v, w, sv, sw, mid, mid + 1, Pos(t));
    AppendedKeeps(v, w, sv, sw, mid, mid + 1, Elems(placed));
    GroupKept(v, w, t, leaf, group, docs);
    DocsKept(v, w, placed, docs);
    PlowedOne(v, w, mid, DocOf(made));
    RebuiltSwap(w, t, leaf, group, docs, placed, made);
  }

  /** `made` is `leaf` with the group's furrows at `placed`. */
  ghost predicate Rebuilt(leaf: Tree, group: seq<Shift>, placed: seq<nat>, made: Tree) {
    && leaf.Leaf? && leaf.body.Extent? && made.Leaf? && made.key == leaf.key && made.body.Extent? && made.body.size == leaf.body.size
    && Patched(Furrows(leaf.body), group, placed, Expand(made.body.runs))
    && forall i :: 0 <= i < |made.body.runs| ==> made.body.runs[i].count > 0
  }

  lemma {:induction false} CopiedGives(v: Medium, t: Tree, leaf: Tree, group: seq<Shift>, docs: seq<Doc>, placed: seq<nat>, from: nat, to: nat)
    requires CopiedGroup(v, t, leaf, group, docs, placed, from, to)
    ensures GroupHeld(v, t, leaf, group) && DocsHeld(v, group, docs) && DocsAt(v, placed, docs) && from <= to
    ensures Distinct(placed) && Elems(placed) == Lap(from, to, v.len) && Elems(placed) !! Pos(t)
  {
  }

  lemma {:induction false} DocsKept(v: Medium, w: Medium, places: seq<nat>, docs: seq<Doc>)
    requires DocsAt(v, places, docs) && Keeps(v, w, Elems(places))
    ensures DocsAt(w, places, docs)
  {
    forall j | 0 <= j < |places|
      ensures SealedAt(w, places[j], docs[j])
    {
      assert SealedAt(v, places[j], docs[j]) && places[j] in Elems(places);
    }
  }

  lemma {:induction false} PlowedOne(v: Medium, w: Medium, at: nat, doc: Doc)
    requires Plowed(v.disk, w.disk, v.base, v.len, at, [doc]) && w.base == v.base && w.len == v.len
    ensures SealedAt(w, at % v.len, doc) && Lap(at, at + 1, v.len) == {at % v.len}
  {
    assert Holds(w.disk, Spot(v.base, v.len, at), doc);
    SealedSpot(w, at, doc);
  }

  lemma {:induction false} RebuiltSwap(w: Medium, t: Tree, leaf: Tree, group: seq<Shift>, docs: seq<Doc>, placed: seq<nat>, made: Tree)
    requires Sound(t, []) && Once(t) && Held(w, t)
    requires Rebuilt(leaf, group, placed, made) && GroupHeld(w, t, leaf, group) && DocsHeld(w, group, docs) && DocsAt(w, placed, docs)
    requires Distinct(placed) && Elems(placed) !! Pos(t) && made.lba !in Elems(placed) && made.lba !in Pos(t)
    requires SealedAt(w, made.lba, DocOf(made))
    ensures Swap(w, t, Swapped(t, 0, Hunt(leaf.key, leaf, LEVELS), made), leaf, made) && Met(t, 0, Hunt(leaf.key, leaf, LEVELS))
    ensures Own(made) == Own(leaf) - {leaf.lba} - Spots(group) + Elems(placed) + {made.lba}
    ensures Spots(group) <= Own(leaf) - {leaf.lba} && leaf.lba in Own(leaf) && SealedAt(w, leaf.lba, DocOf(leaf))
  {
    FindIsMembership(t, [], leaf);
    HeldLeaf(w, t, leaf);
    LeafOwn(t, leaf);
    OnceLeaf(t, leaf);
    hide Sound, Once, Content, Distinct, Patched, Expand, Pos, Leaves, Find, BodyHeld, Graft;
    forall j | 0 <= j < |group|
      ensures Copied(w, group[j].pos, placed[j])
    {
      assert SealedAt(w, group[j].pos, docs[j]) && SealedAt(w, placed[j], docs[j]);
    }
    RebuiltLeaf(w, leaf, group, placed, made.body.runs, made.lba);
    ReplaceLeaf(w, t, leaf, made);
  }

  /** `u` is `t` with the leaf `was` swapped for `leaf`. */
  ghost predicate Swap(v: Medium, t: Tree, u: Tree, was: Tree, leaf: Tree)
    requires was.Leaf? && leaf.Leaf?
  {
    var trail := Trail(t, 0, Hunt(was.key, was, LEVELS));
    && Sound(u, []) && Once(u) && Held(v, u) && Content(v, u) == Content(v, t)
    && (forall k: Key :: k != was.key ==> Find(u, 0, k) == Find(t, 0, k))
    && Own(was) + trail <= Pos(t) && trail !! Own(was)
    && Pos(u) == Pos(t) - Own(was) - trail + Own(leaf)
  }

  lemma {:induction false} RebuiltRefs(w: Medium, t: Tree, d: Delta, was: seq<Ref>, e: Delta, leaf: Tree, group: seq<Shift>, docs: seq<Doc>,
                    placed: seq<nat>, made: Tree)
    requires leaf.Leaf? && made.Leaf? && |docs| == |group| && |placed| == |docs|
    requires SealedAt(w, made.lba, DocOf(made)) && SealedAt(w, leaf.lba, DocOf(leaf)) && DocsHeld(w, group, docs) && DocsAt(w, placed, docs)
    requires Grew(w, d.removed, was, Trail(t, 0, Hunt(leaf.key, leaf, LEVELS)))
    requires e == Delta(d.added + RefsAt(placed, docs) + [Ref(made.lba, DocOf(made))],
                        was + RefsAt(PosOf(group), docs) + [Ref(leaf.lba, DocOf(leaf))])
    ensures Grew(w, d.added, e.added, Elems(placed) + {made.lba})
    ensures Grew(w, d.removed, e.removed, Trail(t, 0, Hunt(leaf.key, leaf, LEVELS)) + Spots(group) + {leaf.lba})
    ensures Spots(group) <= Lbas(e.removed)
  {
    var trail := Trail(t, 0, Hunt(leaf.key, leaf, LEVELS));
    PosOfSpots(group);
    RefsGrow(w, d.added, placed, docs);
    RefsGrow(w, was, PosOf(group), docs);
    var added, removed := d.added + RefsAt(placed, docs), was + RefsAt(PosOf(group), docs);
    GrewOne(w, added, Ref(made.lba, DocOf(made)));
    GrewOne(w, removed, Ref(leaf.lba, DocOf(leaf)));
    hide Grew, SealedAt, Trail, RefsAt, PosOf, Elems, Spots;
    GrewThen(w, d.added, added, e.added, Elems(placed), {made.lba});
    GrewThen(w, d.removed, was, removed, trail, Spots(group));
    GrewThen(w, d.removed, removed, e.removed, trail + Spots(group), {leaf.lba});
    GrewLbas(w, d.removed, e.removed, trail + Spots(group) + {leaf.lba});
  }

  lemma {:induction false} GrewLbas(v: Medium, before: seq<Ref>, after: seq<Ref>, s: set<nat>)
    requires Grew(v, before, after, s)
    ensures s <= Lbas(after) && before <= after
  {
    assert after == before + after[|before|..];
    LbasAppend(before, after[|before|..]);
  }

  lemma {:induction false} SwapBalance(pos: set<nat>, own: set<nat>, trail: set<nat>, spots: set<nat>, lba: nat, added: set<nat>)
    requires own + trail <= pos && trail !! own && spots <= own - {lba} && lba in own && added !! pos
    ensures pos - own - trail + (own - {lba} - spots + added) == pos + added - (trail + spots + {lba})
    ensures trail + spots + {lba} <= pos
  {
  }

  lemma {:induction false} RebuildLaw(v: Medium, w: Medium, sv: map<nat, Block>, sw: map<nat, Block>, t: Tree, u: Tree, d: Delta, e: Delta,
                                      live: set<nat>, since: nat, from: nat, to: nat, leaf: Tree, group: seq<Shift>, placed: seq<nat>, made: Tree)
    requires Poised(v, t, d, live, since, from) && Appended(v, w, sv, sw, from, to)
    requires Lap(from, to, v.len) !! live && to <= since + v.len
    requires leaf.Leaf? && made.Leaf? && Swap(w, t, u, leaf, made)
    requires Own(made) == Own(leaf) - {leaf.lba} - Spots(group) + Elems(placed) + {made.lba}
    requires Spots(group) <= Own(leaf) - {leaf.lba} && leaf.lba in Own(leaf)
    requires Elems(placed) + {made.lba} <= Lap(from, to, v.len)
    requires Grew(w, d.added, e.added, Elems(placed) + {made.lba})
    requires Grew(w, d.removed, e.removed, Trail(t, 0, Hunt(leaf.key, leaf, LEVELS)) + Spots(group) + {leaf.lba})
    ensures Poised(w, u, e, live, since, to) && d.added <= e.added && d.removed <= e.removed
  {
    hide *;
    var trail, added := Trail(t, 0, Hunt(leaf.key, leaf, LEVELS)), Elems(placed) + {made.lba};
    PoisedHome(v, t, d, live, since, from);
    PoisedParts(v, t, d, live, since, from);
    AppendedOrder(v, w, sv, sw, from, to);
    FreshHome(v, t, live, since, from, to);
    SwapParts(w, t, u, leaf, made);
    SwapBalance(Pos(t), Own(leaf), trail, Spots(group), leaf.lba, added);
    SwapAccounted(w, t, u, d, e, added, trail + Spots(group) + {leaf.lba});
    PoisedStep(v, w, sv, sw, t, u, d, e, added, live, since, from, to);
  }

  lemma {:induction false} SwapParts(v: Medium, t: Tree, u: Tree, was: Tree, leaf: Tree)
    requires was.Leaf? && leaf.Leaf? && Swap(v, t, u, was, leaf)
    ensures var trail := Trail(t, 0, Hunt(was.key, was, LEVELS));
      && Sound(u, []) && Once(u) && Held(v, u)
      && Own(was) + trail <= Pos(t) && trail !! Own(was)
      && Pos(u) == Pos(t) - Own(was) - trail + Own(leaf)
  {
  }

  lemma {:induction false} SwapFinds(v: Medium, t: Tree, u: Tree, was: Tree, leaf: Tree)
    requires was.Leaf? && leaf.Leaf? && Swap(v, t, u, was, leaf)
    ensures Content(v, u) == Content(v, t) && forall k: Key :: k != was.key ==> Find(u, 0, k) == Find(t, 0, k)
  {
  }

  lemma {:induction false} FreshHome(v: Medium, t: Tree, live: set<nat>, since: nat, from: nat, to: nat)
    requires Home(t, live, since, from, v.len) && Lap(from, to, v.len) !! live && since <= from <= to <= since + v.len
    ensures Lap(from, to, v.len) !! Pos(t)
  {
    FreshPlaces(Pos(t), live, since, from, to, v.len);
  }

  lemma {:induction false} SwapAccounted(w: Medium, t: Tree, u: Tree, d: Delta, e: Delta, added: set<nat>, removed: set<nat>)
    requires Grew(w, d.added, e.added, added) && Grew(w, d.removed, e.removed, removed)
    requires removed <= Pos(t) && Pos(u) == Pos(t) + added - removed
    ensures Accounted(w, t, u, d, e, added) && d.added <= e.added && d.removed <= e.removed
  {
  }

  lemma {:induction false} RootPath(t: Tree, key: Key)
    ensures key[..0] == []
  {
  }

  lemma {:induction false} PutAccounted(v: Medium, t: Tree, leaf: Tree, d: Delta, e: Delta)
    requires Sound(t, []) && Once(t) && Held(v, t)
    requires leaf.Leaf? && Once(leaf) && Held(v, leaf) && Own(leaf) !! Pos(t)
    requires Grew(v, d.added, e.added, Own(leaf)) && Grew(v, d.removed, e.removed, Superseded(t, 0, leaf))
    ensures Accounted(v, t, Inserted(t, 0, leaf), d, e, Own(leaf))
  {
    PutLaw(v, t, leaf);
  }

  /** What threading a new leaf into a sound trie gives. */
  lemma {:induction false} PutLaw(v: Medium, t: Tree, leaf: Tree)
    requires Sound(t, []) && Once(t) && Held(v, t)
    requires leaf.Leaf? && Once(leaf) && Held(v, leaf) && Own(leaf) !! Pos(t)
    ensures var u := Inserted(t, 0, leaf);
      && Sound(u, []) && Once(u) && Held(v, u)
      && Content(v, u) == Content(v, t)[leaf.key := ValueOf(v, leaf)]
      && Superseded(t, 0, leaf) <= Pos(t)
      && Pos(u) == Pos(t) + Own(leaf) - Superseded(t, 0, leaf)
  {
    hide Held, Content, Graft, Landing;
    assert Inserted(t, 0, leaf) == Insert(t, leaf);
    EndOfKey(t, [], ToLeaf(leaf.key));
    InsertPos(t, leaf);
    InsertHeld(v, t, leaf);
    ContentInsert(v, t, leaf);
  }

  lemma {:induction false} GrewSome(v: Medium, before: seq<Ref>, after: seq<Ref>, leaf: Tree)
    requires leaf.Leaf? && Grew(v, before, after, Own(leaf))
    ensures after != []
  {
    assert leaf.lba in Own(leaf);
    NoLbas();
  }

  lemma {:induction false} NoEdit(v: Medium, t: Tree, d: Delta, key: Key)
    requires Sound(t, []) && key !in Keys(t)
    ensures Content(v, t) == Content(v, t) - {key}
    ensures Accounted(v, t, t, d, d, {})
  {
    assert Lbas([]) == {};
  }

  lemma {:induction false} DeleteLaw(v: Medium, t: Tree, leaf: Tree)
    requires Sound(t, []) && Once(t) && Held(v, t) && leaf.Leaf? && Find(t, 0, leaf.key) == leaf
    ensures var h := Hunt(leaf.key, leaf, LEVELS);
      var u := Swapped(t, 0, h, Nil);
      && Sound(u, []) && Once(u) && Held(v, u)
      && Content(v, u) == Content(v, t) - {leaf.key}
      && Own(leaf) + Trail(t, 0, h) <= Pos(t)
      && Pos(u) == Pos(t) - (Own(leaf) + Trail(t, 0, h))
  {
    hide Held, Content, Graft, Find;
    var h := Hunt(leaf.key, leaf, LEVELS);
    LeafStop(t, [], h, Nil);
    assert Swapped(t, 0, h, Nil) == Remove(t, leaf.key, leaf);
    RemovePos(t, leaf);
    RemoveHeld(v, t, leaf.key, leaf);
    ContentRemove(v, t, leaf);
  }

  lemma {:induction false} DeleteAccounted(v: Medium, t: Tree, leaf: Tree, d: Delta, e: Delta)
    requires Sound(t, []) && Once(t) && Held(v, t) && leaf.Leaf? && Find(t, 0, leaf.key) == leaf
    requires e.added == d.added
    requires Grew(v, d.removed, e.removed, Own(leaf) + Trail(t, 0, Hunt(leaf.key, leaf, LEVELS)))
    ensures Accounted(v, t, Swapped(t, 0, Hunt(leaf.key, leaf, LEVELS), Nil), d, e, {})
  {
    DeleteLaw(v, t, leaf);
    assert e.added[|d.added|..] == [] && Lbas([]) == {};
  }

  lemma {:induction false} FlushNothing(v: Medium, t: Tree, d: Delta, at: nat, staged: map<nat, Block>)
    requires Sound(t, []) && Once(t)
    ensures Flushed(t, t, [], at, at, v.len) && Accounted(v, t, t, d, d, Lap(at, at, v.len))
    ensures Appended(v, v, staged, staged, at, at)
    ensures Lap(at, at, v.len) == {}
  {
    FlushedNone(t, [], at, v.len);
    assert Lbas([]) == {} && Lap(at, at, v.len) == {};
  }

  lemma {:induction false} PointerTr(a: seq<ANode>, t: Tree)
    ensures Tr(a, Pointer(t), 0) == t
  {
  }

  lemma {:induction false} RootReady(p: Shot, root: Slot, live: set<nat>, since: nat)
    requires root.InArena? && Wf(p.arena, root, 0) && since <= p.plow
    requires var t := Tr(p.arena, root, 0); Sound(t, []) && Once(t) && Home(t, live, since, p.plow, p.v.len)
    ensures Ready(p, root, 0, [], live, since)
  {
  }

  lemma {:induction false} FlushLaw(p: Shot, q: Shot, root: Slot, now: Slot, live: set<nat>, since: nat, d: Delta, e: Delta)
    requires Ready(p, root, 0, [], live, since) && FlushStep(p, q, root, now, 0, [], live)
    requires q.plow <= since + p.v.len && Held(p.v, Tr(p.arena, root, 0))
    requires p.added == d.added && q.added == e.added && d.removed == e.removed
    ensures var t, u := Tr(p.arena, root, 0), Tr(q.arena, now, 0);
      && Sound(u, []) && Once(u) && Held(q.v, u) && Home(u, live, since, q.plow, q.v.len)
      && Flushed(t, u, [], p.plow, q.plow, p.v.len)
      && Content(q.v, u) == Content(p.v, t)
      && Accounted(q.v, t, u, d, e, Lap(p.plow, q.plow, p.v.len))
      && Wf(q.arena, now, 0)
      && p.plow <= q.plow && Lap(p.plow, q.plow, p.v.len) !! live
      && Appended(p.v, q.v, p.staged, q.staged, p.plow, q.plow)
  {
    hide Wf, Tr, Ix, Kept, OnlyNew;
    var t, u := Tr(p.arena, root, 0), Tr(q.arena, now, 0);
    StepReady(p, q, root, now, 0, [], live, since);
    AppendedSane(p.v, q.v, p.staged, q.staged, p.plow, q.plow, t, live, since);
    forall k: Key
      ensures Find(u, 0, k) == Find(t, 0, k)
    {
      PlacedFinds(t, u, 0, k);
    }
    ContentByFind(q.v, t, u);
    assert e.removed[|d.removed|..] == [] && Lbas([]) == {};
  }

  lemma {:induction false} AssembleNone(v: Medium)
    ensures Assemble(v, []) == []
  {
  }

  datatype Hop = Stop(leaf: Option<Tree>) | Go(next: Slot)

  class Hamt {
    var root: Slot
    var arena: seq<ANode>
    var delta: Delta
    /** Swaps performed by `Repoint`: a relocation that swaps nothing has lost its parent. */
    var hits: nat

    ghost function Index(): Tree
      reads this
    {
      Tr(arena, root, 0)
    }

    ghost predicate Valid()
      reads this
    {
      Wf(arena, root, 0)
    }

    /** Resume from a committed root; Nil is the empty index. */
    constructor (root: Tree)
      requires root.Nil? || Committed(root)
      ensures Valid() && Index() == root && delta == Delta([], []) && !HasUncommitted()
    {
      this.root := SlotOf(root);
      arena := [];
      delta := Delta([], []);
      hits := 0;
    }

    predicate HasUncommitted()
      reads this
    {
      root.InArena? || delta.added != [] || delta.removed != []
    }

    // -------------------------------------------------------------- lookup

    /** The leaf of `key`: what is found is verified by seal on every step, whatever the device holds. */
    method FindLeaf(m: Mirror, t: Tract, key: Key) returns (r: Result<Option<Tree>>)
      requires Valid() && Sound(Index(), []) && m.Valid()
      modifies m`cache, m`uses
      ensures m.Valid() && m.disk == old(m.disk)
      ensures r.Ok? && r.value.Some? ==> r.value.value.Leaf? && Find(Index(), 0, key) == r.value.value
      ensures Walkable(t.View(m), Index(), 0, ToLeaf(key)) ==>
        r == Ok(var leaf := Find(Index(), 0, key); if leaf.Nil? then None else Some(leaf))
    {
      hide Wf, Tr, Sound, Find, Walkable;
      if root.Vacant? {
        EmptyIndex(t.View(m), key);
        return Ok(None);
      }
      var current, d := root, 0;
      assert key[..0] == [];
      while true
        invariant m.Valid() && m.disk == old(m.disk)
        invariant d <= LEVELS && Wf(arena, current, d) && !current.Vacant?
        invariant Sound(Tr(arena, current, d), key[..d])
        invariant Find(Tr(arena, current, d), d, key) == Find(Index(), 0, key)
        invariant Walkable(t.View(m), Index(), 0, ToLeaf(key)) ==> Walkable(t.View(m), Tr(arena, current, d), d, ToLeaf(key))
        decreases LEVELS - d
      {
        var hop :- Follow(m, t, current, d, key);
        if hop.Stop? {
          return Ok(hop.leaf);
        }
        current, d := hop.next, d + 1;
      }
    }

    lemma {:induction false} EmptyIndex(v: Medium, key: Key)
      requires root.Vacant?
      ensures Find(Index(), 0, key) == Nil
    {
    }

    /** One level of a search. */
    method Follow(m: Mirror, t: Tract, current: Slot, d: nat, key: Key) returns (r: Result<Hop>)
      requires m.Valid() && d <= LEVELS && Wf(arena, current, d) && !current.Vacant?
      requires Sound(Tr(arena, current, d), key[..d])
      modifies m`cache, m`uses
      ensures m.Valid() && m.disk == old(m.disk)
      ensures r.Err? ==> !Walkable(t.View(m), Tr(arena, current, d), d, ToLeaf(key))
      ensures r.Ok? && r.value.Stop? ==> var x := r.value.leaf;
        && (x.Some? ==> x.value.Leaf? && Find(Tr(arena, current, d), d, key) == x.value)
        && (x.None? && Walkable(t.View(m), Tr(arena, current, d), d, ToLeaf(key)) ==> Find(Tr(arena, current, d), d, key) == Nil)
      ensures r.Ok? && r.value.Go? ==> var next := r.value.next;
        && d < LEVELS && Wf(arena, next, d + 1) && !next.Vacant? && Sound(Tr(arena, next, d + 1), key[..d + 1])
        && Find(Tr(arena, next, d + 1), d + 1, key) == Find(Tr(arena, current, d), d, key)
        && (Walkable(t.View(m), Tr(arena, current, d), d, ToLeaf(key)) ==> Walkable(t.View(m), Tr(arena, next, d + 1), d + 1, ToLeaf(key)))
    {
      if current.InArena? {
        KidOf(arena, current.idx, d, key);
        var next := arena[current.idx].kids[key[d]];
        return Ok(if next.Vacant? then Stop(None) else Go(next));
      }
      r := FollowDoc(m, t, current.tree, d, key);
    }

    /** One level of a search, at a committed pointer. */
    method FollowDoc(m: Mirror, t: Tract, p: Tree, d: nat, key: Key) returns (r: Result<Hop>)
      requires m.Valid() && d <= LEVELS && Committed(p) && Sound(p, key[..d])
      modifies m`cache, m`uses
      ensures m.Valid() && m.disk == old(m.disk)
      ensures r.Err? ==> !Walkable(t.View(m), p, d, ToLeaf(key))
      ensures r.Ok? && r.value.Stop? ==> var x := r.value.leaf;
        && (x.Some? ==> x.value.Leaf? && Find(p, d, key) == x.value)
        && (x.None? && Walkable(t.View(m), p, d, ToLeaf(key)) ==> Find(p, d, key) == Nil)
      ensures r.Ok? && r.value.Go? ==> var next := r.value.next;
        && d < LEVELS && next.Pointer? && Committed(next.tree) && Sound(next.tree, key[..d + 1])
        && Find(next.tree, d + 1, key) == Find(p, d, key)
        && (Walkable(t.View(m), p, d, ToLeaf(key)) ==> Walkable(t.View(m), next.tree, d + 1, ToLeaf(key)))
    {
      hide Last, Flat, Overlay, CacheSorted, CacheTrue;
      var doc :- ReadDoc(m, t, LbaOf(p), DocOf(p));
      if doc.None? {
        return Ok(Stop(None));
      }
      if doc.value.LeafDoc? {
        return Ok(Stop(if doc.value.key == key then Some(p) else None));
      }
      if doc.value.depth != d {
        return Err(Corrupt);
      }
      PrefixStep(key[..d], key);
      assert key[..d] + [key[d]] == key[..d + 1];
      var kid := doc.value.kids[key[d]];
      return Ok(if kid.Nil? then Stop(None) else Go(Pointer(kid)));
    }

    /** The value of `key`; a value returned is the value, a damaged block an error. */
    method Lookup(m: Mirror, t: Tract, key: Key) returns (r: Result<Option<Value>>)
      requires Valid() && Sound(Index(), []) && m.Valid()
      modifies m`cache, m`uses
      ensures m.Valid() && m.disk == old(m.disk)
      ensures r.Ok? && r.value.Some? ==>
        Find(Index(), 0, key).Leaf? && ValueOf(t.View(m), Find(Index(), 0, key)) == Full(r.value.value)
      ensures Held(t.View(m), Index()) ==>
        r == if key in Keys(Index()) then Answer(Content(t.View(m), Index())[key]) else Ok(None)
    {
      hide Sound, Leaves, Find, Walkable, Assemble, Inside;
      ghost var v := t.View(m);
      if Held(v, Index()) {
        HeldWalkable(v, Index(), [], ToLeaf(key));
        KeyIsFound(Index(), key);
        if key in Keys(Index()) {
          HeldLeaf(v, Index(), Find(Index(), 0, key));
        }
      }
      var leaf :- FindLeaf(m, t, key);
      if leaf.None? {
        return Ok(None);
      }
      match leaf.value.body {
        case Lone(value) =>
          return Ok(Some(value));
        case Extent(size, runs) =>
          var ps :- ExpandRuns(runs, size, t.len);
          CeilDivCovers(size, FURROW_CAP);
          ExpandLength(runs);
          var value :- ReadFurrows(m, t, key, size, ps);
          return Ok(Some(value));
      }
    }

    /** The value its furrows carry, refused unless each is sealed under the key and its place, and all total the size. */
    method ReadFurrows(m: Mirror, t: Tract, key: Key, size: nat, ps: seq<nat>) returns (r: Result<Value>)
      requires m.Valid()
      ensures r.Ok? <==> size <= |ps| * FURROW_CAP && Furrowed(t.View(m), key, 0, ps) && |Assemble(t.View(m), ps)| == size
      ensures r.Ok? ==> r.value == Assemble(t.View(m), ps)
      ensures r.Err? && Furrowed(t.View(m), key, 0, ps) ==> r.error == Corrupt
    {
      hide FurrowAt, Assemble;
      ghost var v := t.View(m);
      if size > |ps| * FURROW_CAP {
        return Err(Corrupt);
      }
      var out: Value := [];
      var start := 0;
      AssembleNone(v);
      for i := 1 to |ps| + 1
        invariant 0 <= start < i && i - start <= RUN_STEP && (i == |ps| + 1 ==> start == |ps|)
        invariant forall j :: start < j < i && j < |ps| ==> ps[j] == ps[j - 1] + 1
        invariant out == Assemble(v, ps[..start]) && Furrowed(v, key, 0, ps[..start])
      {
        if i == |ps| || ps[i] != ps[i - 1] + 1 || i - start == RUN_STEP {
          FurrowedSlice(v, key, ps, start, i);
          var more :- ReadFurrowRun(m, t, key, start, ps[start..i]);
          AssembleSplit(v, ps[..start], ps[start..i]);
          assert ps[..start] + ps[start..i] == ps[..i];
          out := out + more;
          start := i;
        }
      }
      assert ps[..|ps|] == ps;
      if |out| != size {
        return Err(Corrupt);
      }
      return Ok(out);
    }

    /** One run of furrows, each checked for its seal, owner and index. */
    method ReadFurrowRun(m: Mirror, t: Tract, key: Key, first: nat, ps: seq<nat>) returns (r: Result<Value>)
      requires m.Valid() && 0 < |ps| <= RUN_STEP
      requires forall j :: 0 < j < |ps| ==> ps[j] == ps[j - 1] + 1
      ensures r.Ok? ==> r.value == Assemble(t.View(m), ps)
      ensures r.Ok? <==> Furrowed(t.View(m), key, first, ps)
    {
      ghost var v := t.View(m);
      Consecutive(ps);
      if ps[0] >= t.len || |ps| > t.len - ps[0] {
        assert !FurrowAt(v, ps[|ps| - 1], key, |ps| - 1 + first);
        return Err(Bounds(ps[0]));
      }
      var got := m.ReadRun(t.base + ps[0], |ps|);
      if got.Err? {
        assert !FurrowAt(v, ps[|ps| - 1], key, |ps| - 1 + first);
        return Err(got.error);
      }
      RunBlocks(v, key, first, ps, got.value);
      r := CheckFurrows(got.value, key, first);
    }

    // -------------------------------------------------------------- put

    /** The internal chain separating two leaves from `d` down, pushed bottom-up. */
    method Split(d: nat, a: Tree, b: Tree) returns (s: Slot)
      requires a.Leaf? && b.Leaf? && a.key != b.key && d <= LEVELS && a.key[..d] == b.key[..d]
      modifies this`arena
      decreases LEVELS - d
      ensures Kept(old(arena), arena, {})
      ensures s.InArena? && Wf(arena, s, d) && Tr(arena, s, d) == Trie.Split(d, a, b)
      ensures OnlyNew(Ix(arena, s, d), {}, |old(arena)|)
    {
      hide Wf, Tr, Ix;
      KeysPart(a.key[..d], a.key, b.key);
      var ca, cb := a.key[d], b.key[d];
      var kids: seq<Slot>;
      if ca == cb {
        assert a.key[..d + 1] == a.key[..d] + [ca] && b.key[..d + 1] == b.key[..d] + [cb];
        var sub := Split(d + 1, a, b);
        NewChain(arena, d, a.key, ca, sub);
        kids := NoKids()[ca := sub];
      } else {
        NewFork(arena, d, a.key, ca, a, cb, b);
        kids := NoKids()[ca := Pointer(a)][cb := Pointer(b)];
      }
      s := InArena(|arena|);
      arena := arena + [ANode(d, a.key, kids)];
    }

    /** A committed node enters the arena; its place on the tract is superseded. */
    method CopyNode(doc: Doc, lba: nat, ghost t: Tree, d: nat) returns (idx: nat)
      requires t.Node? && t.place == At(lba) && DocOf(t) == doc
      requires d < LEVELS && t.depth == d && |t.kids| == WIDTH
      requires forall c :: 0 <= c < WIDTH ==> t.kids[c].Nil? || Committed(t.kids[c])
      modifies this`arena, this`delta
      ensures arena == old(arena) + [Unfolded(doc)] && idx == |old(arena)|
      ensures Wf(arena, InArena(idx), d) && Tr(arena, InArena(idx), d) == t.(place := Dirty)
      ensures Ix(arena, InArena(idx), d) == {idx}
      ensures delta == old(delta).(removed := old(delta.removed) + [Ref(lba, doc)])
    {
      Unfold(arena, t, d);
      idx := |arena|;
      arena := arena + [Unfolded(doc)];
      delta := delta.(removed := delta.removed + [Ref(lba, doc)]);
    }

    /** Copy-on-write insert: the replacement for `slot`. */
    method InsertChild(m: Mirror, t: Tract, slot: Slot, d: nat, leaf: Tree) returns (r: Result<Slot>)
      requires Wf(arena, slot, d) && d <= LEVELS && leaf.Leaf? && m.Valid()
      requires Sound(Tr(arena, slot, d), leaf.key[..d])
      modifies this`arena, this`delta, m`cache, m`uses
      decreases LEVELS - d, 3
      ensures m.Valid() && m.disk == old(m.disk)
      ensures delta.added == old(delta.added) && old(delta.removed) <= delta.removed
      ensures r.Err? ==> Kept(old(arena), arena, {})
      ensures r.Ok? ==> Kept(old(arena), arena, old(Ix(arena, slot, d))) && Wf(arena, r.value, d) && !r.value.Vacant?
      ensures r.Ok? ==> OnlyNew(Ix(arena, r.value, d), old(Ix(arena, slot, d)), |old(arena)|)
      ensures var T := old(Tr(arena, slot, d)); Held(t.View(m), T) ==>
          && r.Ok? && Tr(arena, r.value, d) == Inserted(T, d, leaf)
          && Grew(t.View(m), old(delta.removed), delta.removed, Superseded(T, d, leaf))
    {
      match slot
      case Vacant =>
        GrewNone(t.View(m), delta.removed);
        return Ok(Pointer(leaf));
      case InArena(idx) =>
        r := InsertInto(m, t, idx, d, leaf);
      case Pointer(p) =>
        r := InsertAt(m, t, p, d, leaf);
    }

    /** The insert at a committed pointer: a node is copied and descended, a leaf replaced or split from. */
    method InsertAt(m: Mirror, t: Tract, p: Tree, d: nat, leaf: Tree) returns (r: Result<Slot>)
      requires Committed(p) && d <= LEVELS && leaf.Leaf? && m.Valid()
      requires Sound(p, leaf.key[..d])
      modifies this`arena, this`delta, m`cache, m`uses
      decreases LEVELS - d, 2
      ensures m.Valid() && m.disk == old(m.disk)
      ensures delta.added == old(delta.added) && old(delta.removed) <= delta.removed
      ensures Kept(old(arena), arena, {})
      ensures r.Ok? ==> Wf(arena, r.value, d) && !r.value.Vacant? && OnlyNew(Ix(arena, r.value, d), {}, |old(arena)|)
      ensures Held(t.View(m), p) ==>
          && r.Ok? && Tr(arena, r.value, d) == Inserted(p, d, leaf)
          && Grew(t.View(m), old(delta.removed), delta.removed, Superseded(p, d, leaf))
    {
      hide Mirrors.Mirror.Valid;
      ghost var v := t.View(m);
      if Held(v, p) {
        HeldDoc(v, p, leaf.key[..d]);
      }
      var doc :- ReadDoc(m, t, LbaOf(p), DocOf(p));
      if doc.None? {
        return Ok(Pointer(leaf));
      }
      if doc.value.NodeDoc? {
        if doc.value.depth != d {
          return Err(Corrupt);
        }
        r := InsertNode(m, t, p, doc.value, d, leaf);
        return r;
      }
      if p.key == leaf.key {
        var _ :- RemoveLeafBlocks(m, t, p);
        return Ok(Pointer(leaf));
      }
      GrewNone(v, delta.removed);
      var s := Split(d, p, leaf);
      return Ok(s);
    }

    method InsertNode(m: Mirror, t: Tract, p: Tree, doc: Doc, d: nat, leaf: Tree) returns (r: Result<Slot>)
      requires Committed(p) && p.Node? && doc == DocOf(p) && DocFits(doc, t.len) && leaf.Leaf? && m.Valid()
      requires d < LEVELS && Sound(p, leaf.key[..d])
      modifies this`arena, this`delta, m`cache, m`uses
      decreases LEVELS - d, 1
      ensures m.Valid() && m.disk == old(m.disk)
      ensures delta.added == old(delta.added) && old(delta.removed) <= delta.removed
      ensures Kept(old(arena), arena, {})
      ensures r.Ok? ==> Wf(arena, r.value, d) && !r.value.Vacant? && OnlyNew(Ix(arena, r.value, d), {}, |old(arena)|)
      ensures Held(t.View(m), p) ==>
          && r.Ok? && Tr(arena, r.value, d) == Inserted(p, d, leaf)
          && Grew(t.View(m), old(delta.removed), delta.removed, Superseded(p, d, leaf))
    {
      hide Wf, Tr, Ix, Grew, Inserted, Superseded;
      ghost var v, q := t.View(m), p.(place := Dirty);
      ghost var was := delta.removed;
      var idx := CopyNode(doc, LbaOf(p), p, d);
      InsertedStep(p, d, leaf);
      InsertedStep(q, d, leaf);
      ghost var mid := delta.removed;
      assert Superseded(p, d, leaf) == Own(p) + Superseded(q, d, leaf);
      r := InsertInto(m, t, idx, d, leaf);
      if Held(v, p) {
        GrewOne(v, was, Ref(LbaOf(p), doc));
        GrewThen(v, was, mid, delta.removed, Own(p), Superseded(q, d, leaf));
      }
    }

    /** The insert below an arena entry: descend by the key's chunk and link what comes back. */
    method InsertInto(m: Mirror, t: Tract, idx: nat, d: nat, leaf: Tree) returns (r: Result<Slot>)
      requires Wf(arena, InArena(idx), d) && leaf.Leaf? && m.Valid()
      requires Sound(Tr(arena, InArena(idx), d), leaf.key[..d])
      modifies this`arena, this`delta, m`cache, m`uses
      decreases LEVELS - d, 0
      ensures m.Valid() && m.disk == old(m.disk)
      ensures delta.added == old(delta.added) && old(delta.removed) <= delta.removed
      ensures r.Err? ==> Kept(old(arena), arena, {})
      ensures r.Ok? ==> Kept(old(arena), arena, old(Ix(arena, InArena(idx), d))) && r.value == InArena(idx) && Wf(arena, r.value, d)
      ensures r.Ok? ==> OnlyNew(Ix(arena, r.value, d), old(Ix(arena, InArena(idx), d)), |old(arena)|)
      ensures var T := old(Tr(arena, InArena(idx), d)); Held(t.View(m), T) ==>
          && r.Ok? && Tr(arena, r.value, d) == Inserted(T, d, leaf)
          && Grew(t.View(m), old(delta.removed), delta.removed, Superseded(T, d, leaf))
    {
      hide Sound, Wf, Tr, Ix, Grew, Inserted, Superseded;
      ghost var a := arena;
      KidOf(a, idx, d, leaf.key);
      ghost var T, kid := Tr(a, InArena(idx), d), Tr(a, a[idx].kids[leaf.key[d]], d + 1);
      InsertedStep(T, d, leaf);
      assert Superseded(T, d, leaf) == Superseded(kid, d + 1, leaf);
      assert Held(t.View(m), T) ==> Held(t.View(m), kid);
      var c := leaf.key[d];
      var s :- InsertChild(m, t, arena[idx].kids[c], d + 1, leaf);
      Link(a, arena, idx, c, s, d);
      arena := Linked(arena, idx, c, s);
      return Ok(InArena(idx));
    }

    /** Retire a leaf: its own block and every furrow, each with what is sealed there. */
    method RemoveLeafBlocks(m: Mirror, t: Tract, leaf: Tree) returns (r: Result<()>)
      requires leaf.Leaf? && m.Valid()
      modifies this`delta, m`cache, m`uses
      ensures m.Valid() && m.disk == old(m.disk)
      ensures delta.added == old(delta.added) && old(delta.removed) <= delta.removed
      ensures Held(t.View(m), leaf) ==> r.Ok? && Grew(t.View(m), old(delta.removed), delta.removed, Own(leaf))
    {
      hide Mirrors.Mirror.Valid;
      ghost var v := t.View(m);
      ghost var was := delta.removed;
      delta := delta.(removed := delta.removed + [Ref(leaf.lba, DocOf(leaf))]);
      if Held(v, leaf) {
        GrewOne(v, was, Ref(leaf.lba, DocOf(leaf)));
        HeldDoc(v, leaf, []);
      }
      var doc :- ReadDoc(m, t, leaf.lba, DocOf(leaf));
      if doc.Some? && leaf.body.Extent? {
        var ps :- ExpandRuns(leaf.body.runs, leaf.body.size, t.len);
        ghost var mid := delta.removed;
        var _ :- RemoveFurrows(m, t, leaf.key, ps);
        if Held(v, leaf) {
          GrewThen(v, was, mid, delta.removed, {leaf.lba}, Elems(ps));
        }
      }
      return Ok(());
    }

    method RemoveFurrows(m: Mirror, t: Tract, ghost key: Key, ps: seq<nat>) returns (r: Result<()>)
      requires m.Valid()
      modifies this`delta
      ensures delta.added == old(delta.added) && old(delta.removed) <= delta.removed
      ensures (forall i :: 0 <= i < |ps| ==> FurrowAt(t.View(m), ps[i], key, i)) ==>
        r.Ok? && Grew(t.View(m), old(delta.removed), delta.removed, Elems(ps))
    {
      hide Grew;
      ghost var v := t.View(m);
      ghost var was := delta.removed;
      GrewNone(v, was);
      assert ps[..0] == [] && Elems([]) == {};
      ghost var sound := forall i :: 0 <= i < |ps| ==> FurrowAt(v, ps[i], key, i);
      for i := 0 to |ps|
        invariant delta.added == old(delta.added) && was <= delta.removed
        invariant sound ==> Grew(v, was, delta.removed, Elems(ps[..i]))
      {
        assert sound ==> FurrowAt(v, ps[i], key, i);
        var got :- m.Read(t.base + ps[i]);
        if got.Sealed? {
          var ref := Ref(ps[i], got.doc);
          if sound {
            GrewOne(v, delta.removed, ref);
            GrewThen(v, was, delta.removed, delta.removed + [ref], Elems(ps[..i]), {ps[i]});
            ElemsAppend(ps[..i], ps[i]);
            assert ps[..i + 1] == ps[..i] + [ps[i]];
          }
          delta := delta.(removed := delta.removed + [ref]);
        }
      }
      assert ps[..|ps|] == ps;
      return Ok(());
    }

    /** The value's blocks, furrows before the leaf that names them, appended at once. */
    method PlaceValue(m: Mirror, t: Tract, live: LiveSet, key: Key, value: Value) returns (r: Result<Tree>)
      requires t.Valid() && m.Valid() && t.base + t.len <= |m.disk|
      modifies this`delta, t`plow, m`pending, m`cache, m`disk
      ensures t.Valid() && m.Valid() && delta.removed == old(delta.removed) && old(delta.added) <= delta.added
      ensures Appended(old(t.View(m)), t.View(m), old(m.Staged()), m.Staged(), old(t.plow), t.plow)
      ensures old(t.plow) <= t.plow
      ensures Lap(old(t.plow), t.plow, t.len) !! live.Positions() && t.Within(old(t.plow))
      ensures r.Err? ==> r.error in {TractFull, Fenced(t.plow), Corrupt}
      ensures r.Ok? ==> r.value.Leaf? && r.value.key == key && Own(r.value) == Lap(old(t.plow), t.plow, t.len)
      ensures r.Ok? ==> Once(r.value) && Held(t.View(m), r.value) && ValueOf(t.View(m), r.value) == Full(value)
      ensures r.Ok? ==> Grew(t.View(m), old(delta.added), delta.added, Own(r.value))
    {
      hide Appended, Grew, BodyHeld, Assemble, Distinct, Expand, Lap;
      if |value| <= LONE_MAX {
        r := PlaceLeaf(m, t, live, key, Lone(value));
        if r.Ok? {
          LoneLaw(t.View(m), r.value);
        }
        return r;
      }
      var runs :- PlaceFurrows(m, t, live, key, value);
      if |runs| > MAX_RUNS {
        return Err(Corrupt);
      }
      ghost var v, sv, at, was := t.View(m), m.Staged(), t.plow, delta.added;
      r := PlaceLeaf(m, t, live, key, Extent(|value|, runs));
      AppendedThen(old(t.View(m)), v, t.View(m), old(m.Staged()), sv, m.Staged(), old(t.plow), at, t.plow);
      LapSplit(old(t.plow), at, t.plow, t.len);
      if r.Ok? {
        LapsApart(old(t.plow), at, t.plow, t.len);
        AppendedKeeps(v, t.View(m), sv, m.Staged(), at, t.plow, Lap(old(t.plow), at, t.len));
        BodyKept(v, t.View(m), key, Extent(|value|, runs));
        GrewKept(v, t.View(m), old(delta.added), was, Lap(old(t.plow), at, t.len));
        GrewThen(t.View(m), old(delta.added), was, delta.added, Lap(old(t.plow), at, t.len), Lap(at, t.plow, t.len));
        assert r.value.lba !in Elems(Furrows(r.value.body));
      }
    }

    method PlaceLeaf(m: Mirror, t: Tract, live: LiveSet, key: Key, body: Body) returns (r: Result<Tree>)
      requires t.Valid() && m.Valid() && t.base + t.len <= |m.disk|
      modifies this`delta, t`plow, m`pending, m`cache, m`disk
      ensures t.Valid() && m.Valid() && delta.removed == old(delta.removed) && old(delta.added) <= delta.added
      ensures Appended(old(t.View(m)), t.View(m), old(m.Staged()), m.Staged(), old(t.plow), t.plow)
      ensures old(t.plow) <= t.plow
      ensures Lap(old(t.plow), t.plow, t.len) !! live.Positions() && t.Within(old(t.plow))
      ensures r.Err? ==> t.plow == old(t.plow) && (r.error == TractFull || (r.error == Fenced(t.plow) && t.FenceBinds()))
      ensures r.Ok? ==> r.value == Leaf(old(t.plow) % t.len, key, body) && t.plow == old(t.plow) + 1
      ensures r.Ok? ==> SealedAt(t.View(m), r.value.lba, LeafDoc(key, body))
      ensures r.Ok? ==> Lap(old(t.plow), t.plow, t.len) == {r.value.lba}
      ensures r.Ok? ==> Grew(t.View(m), old(delta.added), delta.added, {r.value.lba})
    {
      ghost var from := t.plow;
      var placed := AppendRefs(m, t, live, [LeafDoc(key, body)]);
      if placed.Err? {
        return Err(placed.error);
      }
      assert Holds(m.disk, Spot(t.base, t.len, from), LeafDoc(key, body));
      SealedSpot(t.View(m), from, LeafDoc(key, body));
      return Ok(Leaf(placed.value[0], key, body));
    }

    /** Append documents and record them as added. */
    method AppendRefs(m: Mirror, t: Tract, live: LiveSet, docs: seq<Doc>) returns (r: Result<seq<nat>>)
      requires t.Valid() && m.Valid() && t.base + t.len <= |m.disk|
      modifies this`delta, t`plow, m`pending, m`cache, m`disk
      ensures t.Valid() && m.Valid() && delta.removed == old(delta.removed) && old(delta.added) <= delta.added
      ensures Appended(old(t.View(m)), t.View(m), old(m.Staged()), m.Staged(), old(t.plow), t.plow)
      ensures old(t.plow) <= t.plow
      ensures Lap(old(t.plow), t.plow, t.len) !! live.Positions() && t.Within(old(t.plow))
      ensures r.Err? ==> t.plow == old(t.plow) && (r.error == TractFull || (r.error == Fenced(t.plow) && t.FenceBinds()))
      ensures r.Ok? ==> r.value == Places(old(t.plow), |docs|, t.len) && t.plow == old(t.plow) + |docs|
      ensures r.Ok? ==> Sown(t.View(m), old(t.plow), docs)
      ensures r.Ok? ==> Grew(t.View(m), old(delta.added), delta.added, Lap(old(t.plow), t.plow, t.len))
    {
      ghost var from := t.plow;
      r := t.Append(m, live, docs);
      if r.Err? {
        assert Lap(from, from, t.len) == {};
        return r;
      }
      DocRefs(t.View(m), delta.added, from, docs);
      delta := delta.(added := delta.added + RefsAt(r.value, docs));
    }

    /** All furrows of a value laid from the plow on: one run, or two when the tract wraps under them. */
    method PlaceFurrows(m: Mirror, t: Tract, live: LiveSet, key: Key, value: Value) returns (r: Result<seq<Run>>)
      requires t.Valid() && m.Valid() && t.base + t.len <= |m.disk|
      modifies this`delta, t`plow, m`pending, m`cache, m`disk
      ensures t.Valid() && m.Valid() && delta.removed == old(delta.removed) && old(delta.added) <= delta.added
      ensures Appended(old(t.View(m)), t.View(m), old(m.Staged()), m.Staged(), old(t.plow), t.plow)
      ensures old(t.plow) <= t.plow
      ensures Lap(old(t.plow), t.plow, t.len) !! live.Positions() && t.Within(old(t.plow))
      ensures r.Err? ==> t.plow == old(t.plow) && (r.error == TractFull || (r.error == Fenced(t.plow) && t.FenceBinds()))
      ensures r.Ok? ==> |r.value| <= 2 && Elems(Expand(r.value)) == Lap(old(t.plow), t.plow, t.len)
      ensures r.Ok? ==> Distinct(Expand(r.value)) && BodyHeld(t.View(m), key, Extent(|value|, r.value))
      ensures r.Ok? ==> Assemble(t.View(m), Expand(r.value)) == value
      ensures r.Ok? ==> Grew(t.View(m), old(delta.added), delta.added, Lap(old(t.plow), t.plow, t.len))
    {
      hide Appended, Grew, BodyHeld, Assemble, Distinct, Elems, Shard, Expand, Lap;
      ghost var from := t.plow;
      var docs := FurrowDocs(key, Shard(value));
      var placed := AppendRefs(m, t, live, docs);
      if placed.Err? {
        return Err(placed.error);
      }
      var runs := CompressRuns(placed.value);
      FreshAppendBreaks(from, |docs|, t.len);
      FurrowsPlaced(t.View(m), key, value, from, runs);
      return Ok(runs);
    }

    /** The index denotes a sound trie, every block of it on the device, none with two parents. */
    ghost predicate Sane(v: Medium)
      reads this
    {
      Valid() && Sound(Index(), []) && Once(Index()) && Held(v, Index())
    }

    /** Set one key: the map denoted changes there and nowhere else. A put that is refused leaves index, delta and map
        untouched, whatever it had appended. */
    method Put(m: Mirror, t: Tract, live: LiveSet, key: Key, value: Value, ghost since: nat) returns (r: Result<()>)
      requires t.Valid() && m.Valid() && t.base + t.len <= |m.disk| && Sane(t.View(m))
      requires t.reap <= since <= t.plow && Home(Index(), live.Positions(), since, t.plow, t.len)
      modifies this`root, this`arena, this`delta, t`plow, m`pending, m`cache, m`uses, m`disk
      ensures t.Valid() && m.Valid() && old(t.plow) <= t.plow
      ensures Appended(old(t.View(m)), t.View(m), old(m.Staged()), m.Staged(), old(t.plow), t.plow)
      ensures Lap(old(t.plow), t.plow, t.len) !! live.Positions() && t.Within(old(t.plow))
      ensures Sane(t.View(m)) && Home(Index(), live.Positions(), since, t.plow, t.len)
      ensures r.Err? ==> r.error in {TractFull, Fenced(t.plow), Corrupt} && Index() == old(Index()) && delta == old(delta)
      ensures r.Err? ==> Content(t.View(m), Index()) == old(Content(t.View(m), Index()))
      ensures r.Ok? ==> Content(t.View(m), Index()) == old(Content(t.View(m), Index()))[key := Full(value)]
      ensures r.Ok? ==> Accounted(t.View(m), old(Index()), Index(), old(delta), delta, Lap(old(t.plow), t.plow, t.len))
      ensures r.Ok? ==> delta.added != []
    {
      hide Wf, Tr, Sound, Once, Held, Content, Appended, Home, Accounted;
      var mark := delta;
      r := PutInner(m, t, live, key, value, since);
      if r.Err? {
        delta := Delta(delta.added[..|mark.added|], delta.removed[..|mark.removed|]);
      }
    }

    method PutInner(m: Mirror, t: Tract, live: LiveSet, key: Key, value: Value, ghost since: nat) returns (r: Result<()>)
      requires t.Valid() && m.Valid() && t.base + t.len <= |m.disk| && Sane(t.View(m))
      requires t.reap <= since <= t.plow && Home(Index(), live.Positions(), since, t.plow, t.len)
      modifies this`root, this`arena, this`delta, t`plow, m`pending, m`cache, m`uses, m`disk
      ensures t.Valid() && m.Valid() && old(t.plow) <= t.plow
      ensures Appended(old(t.View(m)), t.View(m), old(m.Staged()), m.Staged(), old(t.plow), t.plow)
      ensures Lap(old(t.plow), t.plow, t.len) !! live.Positions() && t.Within(old(t.plow))
      ensures Sane(t.View(m)) && Home(Index(), live.Positions(), since, t.plow, t.len)
      ensures old(delta.added) <= delta.added && old(delta.removed) <= delta.removed
      ensures r.Err? ==> r.error in {TractFull, Fenced(t.plow), Corrupt} && Index() == old(Index())
      ensures r.Err? ==> Content(t.View(m), Index()) == old(Content(t.View(m), Index()))
      ensures r.Ok? ==> Content(t.View(m), Index()) == old(Content(t.View(m), Index()))[key := Full(value)]
      ensures r.Ok? ==> Accounted(t.View(m), old(Index()), Index(), old(delta), delta, Lap(old(t.plow), t.plow, t.len))
      ensures r.Ok? ==> delta.added != []
    {
      hide Wf, Tr, Sound, Once, Held, Content, Grew, Appended, Own, Inserted, Superseded, Mirrors.Mirror.Valid, Lap, Pos, Lbas, Last, Flat, Overlay, CacheSorted, CacheTrue;
      ghost var T, v0, L, mark := Index(), t.View(m), live.Positions(), delta;
      var placed := PlaceValue(m, t, live, key, value);
      ghost var v := t.View(m);
      AppendedSane(v0, v, old(m.Staged()), m.Staged(), old(t.plow), t.plow, T, L, since);
      if placed.Err? {
        return Err(placed.error);
      }
      var leaf := placed.value;
      RootPath(T, leaf.key);
      var slot := InsertChild(m, t, root, 0, leaf);
      assert slot.Ok?;
      root := slot.value;
      PutLaw(v, T, leaf);
      PutAccounted(v, T, leaf, mark, delta);
      GrewSome(v, mark.added, delta.added, leaf);
      return Ok(());
    }

    // -------------------------------------------------------------- unlinking

    /** Delete under the unlink-only policy: nothing on the device changes, the key's pointer goes. */
    method Delete(m: Mirror, t: Tract, key: Key) returns (r: Result<bool>)
      requires m.Valid() && Sane(t.View(m))
      modifies this`root, this`arena, this`delta, m`cache, m`uses
      ensures m.Valid() && m.disk == old(m.disk) && Sane(t.View(m))
      ensures r == Ok(key in old(Keys(Index())))
      ensures Content(t.View(m), Index()) == old(Content(t.View(m), Index())) - {key}
      ensures Accounted(t.View(m), old(Index()), Index(), old(delta), delta, {})
      ensures r == Ok(false) ==> Index() == old(Index()) && delta == old(delta)
      ensures r == Ok(true) ==> delta.removed != []
    {
      hide Wf, Tr, Sound, Once, Held, Content, Grew, Own, Swapped, Find;
      ghost var T, v, mark := Index(), t.View(m), delta;
      HeldWalkable(v, T, [], ToLeaf(key));
      KeyIsFound(T, key);
      var found := FindLeaf(m, t, key);
      var leaf := found.value;
      if leaf.None? {
        NoEdit(v, T, delta, key);
        return Ok(false);
      }
      HeldLeaf(v, T, leaf.value);
      var cleared := RemoveLeafBlocks(m, t, leaf.value);
      ghost var mid := delta;
      HeldWalkable(v, T, [], Hunt(key, leaf.value, LEVELS));
      var pruned := Prune(m, t, Hunt(key, leaf.value, LEVELS));
      DeleteLaw(v, T, leaf.value);
      GrewThen(v, mark.removed, mid.removed, delta.removed, Own(leaf.value), Trail(T, 0, Hunt(key, leaf.value, LEVELS)));
      DeleteAccounted(v, T, leaf.value, mark, delta);
      GrewSome(v, mark.removed, mid.removed, leaf.value);
      return Ok(true);
    }

    /** COW-unlink the pointer `h.stop`, descending along `h.key`; a no-op when it is not on that path. */
    method Prune(m: Mirror, t: Tract, h: Hunt) returns (r: Result<()>)
      requires Valid() && Sound(Index(), []) && m.Valid() && h.limit >= LEVELS
      modifies this`root, this`arena, this`delta, m`cache, m`uses
      ensures m.Valid() && m.disk == old(m.disk) && Valid()
      ensures delta.added == old(delta.added) && old(delta.removed) <= delta.removed
      ensures r.Err? ==> Index() == old(Index())
      ensures Walkable(t.View(m), old(Index()), 0, h) ==>
          && r.Ok? && Index() == Swapped(old(Index()), 0, h, Nil)
          && Grew(t.View(m), old(delta.removed), delta.removed, Trail(old(Index()), 0, h))
    {
      hide Sound, Swapped, Walkable, Grew;
      ghost var a := arena;
      RootPath(Index(), h.key);
      var slot := PruneChild(m, t, root, 0, h);
      if slot.Err? {
        Framed(a, arena, root, 0);
        return Err(slot.error);
      }
      root := slot.value;
      return Ok(());
    }

    /** COW-unlink the pointer `h.stop`, descending along `h.key`. */
    method PruneChild(m: Mirror, t: Tract, slot: Slot, d: nat, h: Hunt) returns (r: Result<Slot>)
      requires Wf(arena, slot, d) && d <= LEVELS && m.Valid() && h.limit >= LEVELS
      requires Sound(Tr(arena, slot, d), h.key[..d])
      modifies this`arena, this`delta, m`cache, m`uses
      decreases LEVELS - d, 3
      ensures m.Valid() && m.disk == old(m.disk)
      ensures delta.added == old(delta.added) && old(delta.removed) <= delta.removed
      ensures r.Err? ==> Kept(old(arena), arena, {})
      ensures r.Ok? ==> Kept(old(arena), arena, old(Ix(arena, slot, d))) && Wf(arena, r.value, d)
      ensures r.Ok? ==> OnlyNew(Ix(arena, r.value, d), old(Ix(arena, slot, d)), |old(arena)|)
      ensures var T := old(Tr(arena, slot, d)); Walkable(t.View(m), T, d, h) ==>
          && r.Ok? && Tr(arena, r.value, d) == Swapped(T, d, h, Nil)
          && Grew(t.View(m), old(delta.removed), delta.removed, Trail(T, d, h))
    {
      match slot
      case Vacant =>
        GrewNone(t.View(m), delta.removed);
        return Ok(Vacant);
      case InArena(idx) =>
        r := PruneInto(m, t, idx, d, h);
      case Pointer(p) =>
        r := PruneAt(m, t, p, d, h);
    }

    method PruneAt(m: Mirror, t: Tract, p: Tree, d: nat, h: Hunt) returns (r: Result<Slot>)
      requires Committed(p) && d <= LEVELS && m.Valid() && h.limit >= LEVELS
      requires Sound(p, h.key[..d])
      modifies this`arena, this`delta, m`cache, m`uses
      decreases LEVELS - d, 2
      ensures m.Valid() && m.disk == old(m.disk)
      ensures delta.added == old(delta.added) && old(delta.removed) <= delta.removed
      ensures Kept(old(arena), arena, {})
      ensures r.Ok? ==> Wf(arena, r.value, d) && OnlyNew(Ix(arena, r.value, d), {}, |old(arena)|)
      ensures Walkable(t.View(m), p, d, h) ==>
          && r.Ok? && Tr(arena, r.value, d) == Swapped(p, d, h, Nil)
          && Grew(t.View(m), old(delta.removed), delta.removed, Trail(p, d, h))
    {
      ghost var v := t.View(m);
      GrewNone(v, delta.removed);
      if p == h.stop {
        return Ok(Vacant);
      }
      var doc :- ReadDoc(m, t, LbaOf(p), DocOf(p));
      if doc.None? || !doc.value.NodeDoc? {
        return Ok(Pointer(p));
      }
      if doc.value.depth != d {
        return Err(Corrupt);
      }
      r := PruneNode(m, t, p, doc.value, d, h);
    }

    method PruneNode(m: Mirror, t: Tract, p: Tree, doc: Doc, d: nat, h: Hunt) returns (r: Result<Slot>)
      requires Committed(p) && p.Node? && doc == DocOf(p) && DocFits(doc, t.len) && m.Valid() && h.limit >= LEVELS
      requires d < LEVELS && Sound(p, h.key[..d]) && p != h.stop
      modifies this`arena, this`delta, m`cache, m`uses
      decreases LEVELS - d, 1
      ensures m.Valid() && m.disk == old(m.disk)
      ensures delta.added == old(delta.added) && old(delta.removed) <= delta.removed
      ensures Kept(old(arena), arena, {})
      ensures r.Ok? ==> Wf(arena, r.value, d) && OnlyNew(Ix(arena, r.value, d), {}, |old(arena)|)
      ensures Walkable(t.View(m), p, d, h) ==>
          && r.Ok? && Tr(arena, r.value, d) == Swapped(p, d, h, Nil)
          && Grew(t.View(m), old(delta.removed), delta.removed, Trail(p, d, h))
    {
      hide Wf, Tr, Ix, Grew, Swapped, Met, Mirrors.Mirror.Valid;
      ghost var v := t.View(m);
      ghost var was, q := delta.removed, p.(place := Dirty);
      var idx := CopyNode(doc, LbaOf(p), p, d);
      SwappedStep(p, d, h, Nil);
      SwappedStep(q, d, h, Nil);
      ghost var mid := delta.removed;
      assert Trail(p, d, h) == Own(p) + Trail(q, d, h);
      r := PruneInto(m, t, idx, d, h);
      if Walkable(v, p, d, h) {
        GrewOne(v, was, Ref(LbaOf(p), doc));
        GrewThen(v, was, mid, delta.removed, Own(p), Trail(q, d, h));
      }
    }

    method PruneInto(m: Mirror, t: Tract, idx: nat, d: nat, h: Hunt) returns (r: Result<Slot>)
      requires Wf(arena, InArena(idx), d) && m.Valid() && h.limit >= LEVELS
      requires Sound(Tr(arena, InArena(idx), d), h.key[..d])
      modifies this`arena, this`delta, m`cache, m`uses
      decreases LEVELS - d, 0
      ensures m.Valid() && m.disk == old(m.disk)
      ensures delta.added == old(delta.added) && old(delta.removed) <= delta.removed
      ensures r.Err? ==> Kept(old(arena), arena, {})
      ensures r.Ok? ==> Kept(old(arena), arena, old(Ix(arena, InArena(idx), d))) && r.value == InArena(idx) && Wf(arena, r.value, d)
      ensures r.Ok? ==> OnlyNew(Ix(arena, r.value, d), old(Ix(arena, InArena(idx), d)), |old(arena)|)
      ensures var T := old(Tr(arena, InArena(idx), d)); Walkable(t.View(m), T, d, h) ==>
          && r.Ok? && Tr(arena, r.value, d) == Swapped(T, d, h, Nil)
          && Grew(t.View(m), old(delta.removed), delta.removed, Trail(T, d, h))
    {
      hide Sound, Wf, Tr, Ix, Grew, Swapped, Met;
      ghost var a := arena;
      KidOf(a, idx, d, h.key);
      ghost var T, kid := Tr(a, InArena(idx), d), Tr(a, a[idx].kids[h.key[d]], d + 1);
      SwappedStep(T, d, h, Nil);
      assert Trail(T, d, h) == Trail(kid, d + 1, h);
      assert Walkable(t.View(m), T, d, h) ==> Walkable(t.View(m), kid, d + 1, h);
      var c := h.key[d];
      var s :- PruneChild(m, t, arena[idx].kids[c], d + 1, h);
      Link(a, arena, idx, c, s, d);
      arena := Linked(arena, idx, c, s);
      return Ok(InArena(idx));
    }

    // -------------------------------------------------------------- repointing

    /** Descend along `h.key` to the pointer `h.stop` and swap in `x`, copying the path. */
    method RepointChild(m: Mirror, t: Tract, slot: Slot, d: nat, h: Hunt, x: Tree) returns (r: Result<Slot>)
      requires Wf(arena, slot, d) && d <= LEVELS && m.Valid() && (x.Nil? || Committed(x))
      requires Sound(Tr(arena, slot, d), h.key[..d])
      modifies this`arena, this`delta, this`hits, m`cache, m`uses
      decreases LEVELS - d, 3
      ensures m.Valid() && m.disk == old(m.disk)
      ensures delta.added == old(delta.added) && old(delta.removed) <= delta.removed
      ensures r.Err? ==> Kept(old(arena), arena, {})
      ensures r.Ok? ==> Kept(old(arena), arena, old(Ix(arena, slot, d))) && Wf(arena, r.value, d)
      ensures r.Ok? ==> OnlyNew(Ix(arena, r.value, d), old(Ix(arena, slot, d)), |old(arena)|)
      ensures var T := old(Tr(arena, slot, d)); Walkable(t.View(m), T, d, h) ==>
          && r.Ok? && Tr(arena, r.value, d) == Swapped(T, d, h, x)
          && hits == old(hits) + (if Met(T, d, h) then 1 else 0)
          && Grew(t.View(m), old(delta.removed), delta.removed, Trail(T, d, h))
    {
      match slot
      case Vacant =>
        GrewNone(t.View(m), delta.removed);
        return Ok(Vacant);
      case InArena(idx) =>
        r := RepointInto(m, t, idx, d, h, x);
      case Pointer(p) =>
        r := RepointAt(m, t, p, d, h, x);
    }

    method RepointAt(m: Mirror, t: Tract, p: Tree, d: nat, h: Hunt, x: Tree) returns (r: Result<Slot>)
      requires Committed(p) && d <= LEVELS && m.Valid() && (x.Nil? || Committed(x))
      requires Sound(p, h.key[..d])
      modifies this`arena, this`delta, this`hits, m`cache, m`uses
      decreases LEVELS - d, 2
      ensures m.Valid() && m.disk == old(m.disk)
      ensures delta.added == old(delta.added) && old(delta.removed) <= delta.removed
      ensures Kept(old(arena), arena, {})
      ensures r.Ok? ==> Wf(arena, r.value, d) && OnlyNew(Ix(arena, r.value, d), {}, |old(arena)|)
      ensures Walkable(t.View(m), p, d, h) ==>
          && r.Ok? && Tr(arena, r.value, d) == Swapped(p, d, h, x)
          && hits == old(hits) + (if Met(p, d, h) then 1 else 0)
          && Grew(t.View(m), old(delta.removed), delta.removed, Trail(p, d, h))
    {
      ghost var v := t.View(m);
      GrewNone(v, delta.removed);
      if p == h.stop {
        hits := hits + 1;
        return Ok(SlotOf(x));
      }
      if d > h.limit {
        return Ok(Pointer(p));
      }
      var doc :- ReadDoc(m, t, LbaOf(p), DocOf(p));
      if doc.None? || !doc.value.NodeDoc? {
        return Ok(Pointer(p));
      }
      if doc.value.depth != d {
        return Err(Corrupt);
      }
      r := RepointNode(m, t, p, doc.value, d, h, x);
    }

    method RepointNode(m: Mirror, t: Tract, p: Tree, doc: Doc, d: nat, h: Hunt, x: Tree) returns (r: Result<Slot>)
      requires Committed(p) && p.Node? && doc == DocOf(p) && DocFits(doc, t.len) && m.Valid() && (x.Nil? || Committed(x))
      requires d < LEVELS && d <= h.limit && Sound(p, h.key[..d]) && p != h.stop
      modifies this`arena, this`delta, this`hits, m`cache, m`uses
      decreases LEVELS - d, 1
      ensures m.Valid() && m.disk == old(m.disk)
      ensures delta.added == old(delta.added) && old(delta.removed) <= delta.removed
      ensures Kept(old(arena), arena, {})
      ensures r.Ok? ==> Wf(arena, r.value, d) && OnlyNew(Ix(arena, r.value, d), {}, |old(arena)|)
      ensures Walkable(t.View(m), p, d, h) ==>
          && r.Ok? && Tr(arena, r.value, d) == Swapped(p, d, h, x)
          && hits == old(hits) + (if Met(p, d, h) then 1 else 0)
          && Grew(t.View(m), old(delta.removed), delta.removed, Trail(p, d, h))
    {
      hide Wf, Tr, Ix, Grew, Swapped, Met, Mirrors.Mirror.Valid;
      ghost var v := t.View(m);
      ghost var was, q := delta.removed, p.(place := Dirty);
      var idx := CopyNode(doc, LbaOf(p), p, d);
      SwappedStep(p, d, h, x);
      SwappedStep(q, d, h, x);
      ghost var mid := delta.removed;
      assert Trail(p, d, h) == Own(p) + Trail(q, d, h);
      r := RepointInto(m, t, idx, d, h, x);
      if Walkable(v, p, d, h) {
        GrewOne(v, was, Ref(LbaOf(p), doc));
        GrewThen(v, was, mid, delta.removed, Own(p), Trail(q, d, h));
      }
    }

    method RepointInto(m: Mirror, t: Tract, idx: nat, d: nat, h: Hunt, x: Tree) returns (r: Result<Slot>)
      requires Wf(arena, InArena(idx), d) && m.Valid() && (x.Nil? || Committed(x))
      requires Sound(Tr(arena, InArena(idx), d), h.key[..d])
      modifies this`arena, this`delta, this`hits, m`cache, m`uses
      decreases LEVELS - d, 0
      ensures m.Valid() && m.disk == old(m.disk)
      ensures delta.added == old(delta.added) && old(delta.removed) <= delta.removed
      ensures r.Err? ==> Kept(old(arena), arena, {})
      ensures r.Ok? ==> Kept(old(arena), arena, old(Ix(arena, InArena(idx), d))) && r.value == InArena(idx) && Wf(arena, r.value, d)
      ensures r.Ok? ==> OnlyNew(Ix(arena, r.value, d), old(Ix(arena, InArena(idx), d)), |old(arena)|)
      ensures var T := old(Tr(arena, InArena(idx), d)); Walkable(t.View(m), T, d, h) ==>
          && r.Ok? && Tr(arena, r.value, d) == Swapped(T, d, h, x)
          && hits == old(hits) + (if Met(T, d, h) then 1 else 0)
          && Grew(t.View(m), old(delta.removed), delta.removed, Trail(T, d, h))
    {
      hide Sound, Wf, Tr, Ix, Grew, Swapped, Met;
      ghost var a := arena;
      KidOf(a, idx, d, h.key);
      ghost var T, kid := Tr(a, InArena(idx), d), Tr(a, a[idx].kids[h.key[d]], d + 1);
      SwappedStep(T, d, h, x);
      assert Trail(T, d, h) == Trail(kid, d + 1, h);
      assert Walkable(t.View(m), T, d, h) ==> Walkable(t.View(m), kid, d + 1, h);
      var c := h.key[d];
      var s :- RepointChild(m, t, arena[idx].kids[c], d + 1, h, x);
      Link(a, arena, idx, c, s, d);
      arena := Linked(arena, idx, c, s);
      return Ok(InArena(idx));
    }

    // -------------------------------------------------------------- flush

    /** What a flush reads and changes. */
    ghost function Now(m: Mirror, t: Tract): Shot
      reads this, m, t
    {
      Shot(arena, delta.added, t.View(m), m.Staged(), t.plow)
    }

    /** Children first, then the node itself; refused midway, the children already written stay pointers. */
    method FlushNode(m: Mirror, t: Tract, live: LiveSet, idx: nat, d: nat, ghost pre: seq<nat>, ghost since: nat)
      returns (r: Result<Tree>)
      requires t.Valid() && m.Valid() && t.base + t.len <= |m.disk| && t.reap <= since
      requires Ready(Now(m, t), InArena(idx), d, pre, live.Positions(), since)
      modifies this`arena, this`delta, t`plow, m`pending, m`cache, m`disk
      decreases LEVELS - d, 2
      ensures t.Valid() && m.Valid() && delta.removed == old(delta.removed)
      ensures r.Ok? ==> Committed(r.value)
      ensures r.Err? ==> r.error == TractFull || (r.error == Fenced(t.plow) && t.FenceBinds())
      ensures FlushStep(old(Now(m, t)), Now(m, t), InArena(idx), AfterFlush(idx, r), d, pre, live.Positions())
      ensures t.Within(old(t.plow))
    {
      hide Flushed, Wf, Tr, Ix, Grew, Appended, FlushStep;
      ghost var p, s, L := Now(m, t), InArena(idx), live.Positions();
      StepNone(p, s, d, pre, L, since);
      EntryApart(arena, idx, d);
      for c := 0 to WIDTH
        invariant t.Valid() && m.Valid() && delta.removed == old(delta.removed)
        invariant t.base + t.len <= |m.disk|
        invariant FlushStep(p, Now(m, t), s, s, d, pre, L) && Ready(Now(m, t), s, d, pre, L, since) && t.Within(old(t.plow))
        invariant idx < |arena| && |arena[idx].kids| == WIDTH
        invariant forall e :: 0 <= e < c ==> !arena[idx].kids[e].InArena?
      {
        if arena[idx].kids[c].InArena? {
          ghost var q := Now(m, t);
          r := FlushKid(m, t, live, idx, c, d, pre, since);
          StepThen(p, q, Now(m, t), s, s, d, pre, L, since);
          if r.Err? {
            return r;
          }
        }
      }
      ghost var q := Now(m, t);
      r := PlaceNode(m, t, live, idx, d, pre, since);
      StepThen(p, q, Now(m, t), s, AfterFlush(idx, r), d, pre, L, since);
    }

    /** Flush one dirty child and point at what it became. */
    method FlushKid(m: Mirror, t: Tract, live: LiveSet, idx: nat, c: nat, d: nat, ghost pre: seq<nat>, ghost since: nat)
      returns (r: Result<Tree>)
      requires t.Valid() && m.Valid() && t.base + t.len <= |m.disk| && t.reap <= since
      requires Ready(Now(m, t), InArena(idx), d, pre, live.Positions(), since)
      requires c < WIDTH && arena[idx].kids[c].InArena?
      modifies this`arena, this`delta, t`plow, m`pending, m`cache, m`disk
      decreases LEVELS - d, 1
      ensures t.Valid() && m.Valid() && delta.removed == old(delta.removed)
      ensures r.Err? ==> r.error == TractFull || (r.error == Fenced(t.plow) && t.FenceBinds())
      ensures FlushStep(old(Now(m, t)), Now(m, t), InArena(idx), InArena(idx), d, pre, live.Positions())
      ensures r.Ok? ==> idx < |arena| && |arena[idx].kids| == WIDTH && !arena[idx].kids[c].InArena?
      ensures r.Ok? ==> idx < |old(arena)| && |old(arena)[idx].kids| == WIDTH
      ensures r.Ok? ==> forall e :: 0 <= e < WIDTH && e != c ==> arena[idx].kids[e] == old(arena)[idx].kids[e]
      ensures t.Within(old(t.plow))
    {
      ghost var p, L := Now(m, t), live.Positions();
      KidReady(p, idx, c, d, pre, L, since);
      var sub := arena[idx].kids[c].idx;
      r := FlushNode(m, t, live, sub, d + 1, pre + [c], since);
      var now := AfterFlush(sub, r);
      ghost var q := Now(m, t);
      StepKid(p, q, idx, c, d, pre, now, L, since);
      if r.Ok? {
        arena := Linked(arena, idx, c, now);
      } else {
        LinkSame(arena, idx, c, now);
      }
      assert Now(m, t) == q.(arena := Linked(q.arena, idx, c, now));
    }

    /** Every dirty node laid once, children before parents: the root returned is committed and denotes the same map.
        Refused midway, the map still stands, and what was laid is not laid again. */
    method Flush(m: Mirror, t: Tract, live: LiveSet, ghost since: nat) returns (r: Result<Tree>)
      requires t.Valid() && m.Valid() && t.base + t.len <= |m.disk| && Sane(t.View(m))
      requires t.reap <= since <= t.plow && Home(Index(), live.Positions(), since, t.plow, t.len)
      modifies this`root, this`arena, this`delta, t`plow, m`pending, m`cache, m`disk
      ensures t.Valid() && m.Valid() && old(t.plow) <= t.plow
      ensures Appended(old(t.View(m)), t.View(m), old(m.Staged()), m.Staged(), old(t.plow), t.plow)
      ensures Lap(old(t.plow), t.plow, t.len) !! live.Positions() && t.Within(old(t.plow))
      ensures Sane(t.View(m)) && Home(Index(), live.Positions(), since, t.plow, t.len)
      ensures Content(t.View(m), Index()) == old(Content(t.View(m), Index()))
      ensures Flushed(old(Index()), Index(), [], old(t.plow), t.plow, t.len)
      ensures Accounted(t.View(m), old(Index()), Index(), old(delta), delta, Lap(old(t.plow), t.plow, t.len))
      ensures r.Ok? ==> Index() == r.value && !root.InArena? && (r.value.Nil? || Committed(r.value))
      ensures r.Err? ==> r.error == TractFull || (r.error == Fenced(t.plow) && t.FenceBinds())
      ensures !old(root.InArena?) ==> r.Ok? && Index() == old(Index()) && delta == old(delta)
    {
      hide Wf, Tr, Ix, Sound, Once, Held, Content, Appended, Home, Flushed, Grew, FlushStep, Ready, Lap, Accounted;
      ghost var p, T, L := Now(m, t), Index(), live.Positions();
      if !root.InArena? {
        assert Index() == TreeOf(root) && (root.Vacant? || Committed(root.tree)) by {
          PlainRoot();
        }
        FlushNothing(t.View(m), T, delta, t.plow, m.Staged());
        arena := [];
        PlainRoot();
        return Ok(TreeOf(root));
      }
      RootReady(p, root, L, since);
      r := FlushNode(m, t, live, root.idx, 0, [], since);
      FlushLaw(p, Now(m, t), root, AfterFlush(root.idx, r), L, since, old(delta), delta);
      if r.Ok? {
        PointerTr(arena, r.value);
        root := Pointer(r.value);
        arena := [];
        PlainRoot();
      }
    }

    /** Only an arena root denotes a dirty index. */
    lemma {:induction false} DirtyRoot()
      requires Valid()
      ensures IsDirty(Index()) <==> root.InArena?
    {
    }

    lemma {:induction false} PlainRoot()
      requires !root.InArena?
      ensures Index() == TreeOf(root)
      ensures Valid() ==> root.Vacant? || Committed(root.tree)
      ensures root.Vacant? || Committed(root.tree) ==> Valid()
    {
    }

    method TakeDelta() returns (d: Delta)
      modifies this`delta
      ensures d == old(delta) && delta == Delta([], [])
    {
      d := delta;
      delta := Delta([], []);
    }

    // -------------------------------------------------------------- index repair

    /** Swap in `x` for the pointer `h.stop` from the root down; says whether it was met. */
    method Repoint(m: Mirror, t: Tract, h: Hunt, x: Tree) returns (r: Result<bool>)
      requires Valid() && Sound(Index(), []) && m.Valid() && Committed(x)
      modifies this`root, this`arena, this`delta, this`hits, m`cache, m`uses
      ensures m.Valid() && m.disk == old(m.disk) && Valid()
      ensures delta.added == old(delta.added) && old(delta.removed) <= delta.removed
      ensures r.Err? ==> Index() == old(Index())
      ensures Walkable(t.View(m), old(Index()), 0, h) ==>
          && r == Ok(Met(old(Index()), 0, h)) && Index() == Swapped(old(Index()), 0, h, x)
          && hits == old(hits) + (if Met(old(Index()), 0, h) then 1 else 0)
          && Grew(t.View(m), old(delta.removed), delta.removed, Trail(old(Index()), 0, h))
    {
      hide Sound, Swapped, Walkable, Grew;
      ghost var a := arena;
      var before := hits;
      RootPath(Index(), h.key);
      var slot := RepointChild(m, t, root, 0, h, x);
      if slot.Err? {
        Framed(a, arena, root, 0);
        return Err(slot.error);
      }
      root := slot.value;
      return Ok(hits != before);
    }

    /** Apply one block move: the block read back at its new place names its own repair path. A move that
        repoints nothing is refused rather than left to orphan a live block. */
    method RepairReloc(m: Mirror, t: Tract, from: nat, to: nat, ghost doc: Doc) returns (r: Result<()>)
      requires m.Valid() && Sane(t.View(m)) && !doc.FurrowDoc?
      requires from in Pos(Index()) && to !in Pos(Index()) && SealedAt(t.View(m), from, doc) && SealedAt(t.View(m), to, doc)
      modifies this`root, this`arena, this`delta, this`hits, m`cache, m`uses
      ensures m.Valid() && m.disk == old(m.disk) && r.Ok? && hits == old(hits) + 1
      ensures delta.added == old(delta.added)
      ensures Valid() && Index() == Graft(old(Index()), 0, HuntOf(doc, from), PointerTo(doc, to))
      ensures Grew(t.View(m), old(delta.removed), delta.removed, Trail(old(Index()), 0, HuntOf(doc, from)))
    {
      hide Wf, Tr, Sound, Once, Held, Content, Grew, Walkable, Graft, Trail;
      ghost var T, v := Index(), t.View(m);
      MoveBlock(v, T, doc, from, to);
      var got := m.Read(t.base + to);
      if got.Err? || !got.value.Sealed? || got.value.doc.FurrowDoc? {
        return Err(Corrupt);
      }
      var h := HuntOf(got.value.doc, from);
      RootPath(T, h.key);
      HeldWalkable(v, T, [], h);
      var hit := Repoint(m, t, h, PointerTo(got.value.doc, to));
      if hit != Ok(true) {
        return Err(Corrupt);
      }
      return Ok(());
    }

    // -------------------------------------------------------------- the reap

    /** Re-append one surviving leaf or node and repoint it. */
    method MoveSurvivor(m: Mirror, t: Tract, live: LiveSet, pos: nat, doc: Doc, ghost since: nat) returns (r: Result<()>)
      requires t.Valid() && m.Valid() && t.base + t.len <= |m.disk| && t.reap <= since && Valid()
      requires Poised(t.View(m), Index(), delta, live.Positions(), since, t.plow)
      requires pos in Pos(Index()) && SealedAt(t.View(m), pos, doc) && !doc.FurrowDoc?
      modifies this`root, this`arena, this`delta, this`hits, t`plow, m`pending, m`cache, m`uses, m`disk
      ensures t.Valid() && m.Valid() && old(t.plow) <= t.plow && Valid()
      ensures Appended(old(t.View(m)), t.View(m), old(m.Staged()), m.Staged(), old(t.plow), t.plow)
      ensures Lap(old(t.plow), t.plow, t.len) !! live.Positions() && t.Within(old(t.plow))
      ensures Poised(t.View(m), Index(), delta, live.Positions(), since, t.plow)
      ensures Content(t.View(m), Index()) == old(Content(t.View(m), Index()))
      ensures old(delta.added) <= delta.added && old(delta.removed) <= delta.removed
      ensures r.Ok? ==> pos in Lbas(delta.removed)
      ensures r.Err? ==> r.error == TractFull || (r.error == Fenced(t.plow) && t.FenceBinds())
      ensures |delta.added| == old(|delta.added|) ==> Index() == old(Index())
    {
      hide Wf, Tr, Sound, Once, Held, Content, Grew, Graft, Trail, Lap, Lbas, Appended, Balanced, RefsTrue, Poised, Plowed,
           Last, Flat, Overlay, CacheSorted, CacheTrue, Pos, HuntOf, PointerTo;
      ghost var T, v0, L, from, d := Index(), t.View(m), live.Positions(), t.plow, delta;
      var placed := t.Append(m, live, [doc]);
      ghost var v := t.View(m);
      AppendedOrder(v0, v, old(m.Staged()), m.Staged(), from, t.plow);
      PoisedOrphans(v0, v, old(m.Staged()), m.Staged(), T, d, L, since, from, t.plow);
      if placed.Err? {
        return Err(placed.error);
      }
      var to := placed.value[0];
      SurvivorPlaced(v0, v, old(m.Staged()), m.Staged(), T, d, L, since, from, pos, doc);
      MoveBlock(v, T, doc, pos, to);
      var moved := RepairReloc(m, t, pos, to, doc);
      ghost var mid := delta;
      delta := Delta(delta.added + [Ref(to, doc)], delta.removed + [Ref(pos, doc)]);
      SurvivorLaw(v0, v, old(m.Staged()), m.Staged(), T, Index(), d, mid.removed, delta, L, since, from, pos, doc);
      return Ok(());
    }

    /** Move one value's furrows: copies first, then the owner's leaf rebuilt and repointed, the delta last. */
    method MoveFurrows(m: Mirror, t: Tract, live: LiveSet, key: Key, group: seq<Shift>, ghost since: nat) returns (r: Result<()>)
      requires t.Valid() && m.Valid() && t.base + t.len <= |m.disk| && t.reap <= since && Valid()
      requires Poised(t.View(m), Index(), delta, live.Positions(), since, t.plow)
      requires group != [] && NoRepeat(group) && GroupLive(t.View(m), Index(), key, group)
      modifies this`root, this`arena, this`delta, this`hits, t`plow, m`pending, m`cache, m`uses, m`disk
      ensures t.Valid() && m.Valid() && old(t.plow) <= t.plow && Valid()
      ensures Appended(old(t.View(m)), t.View(m), old(m.Staged()), m.Staged(), old(t.plow), t.plow)
      ensures Lap(old(t.plow), t.plow, t.len) !! live.Positions() && t.Within(old(t.plow))
      ensures Poised(t.View(m), Index(), delta, live.Positions(), since, t.plow)
      ensures Content(t.View(m), Index()) == old(Content(t.View(m), Index()))
      ensures old(delta.added) <= delta.added && old(delta.removed) <= delta.removed
      ensures r.Ok? ==> Spots(group) <= Lbas(delta.removed)
      ensures r.Ok? ==> forall k: Key :: k != key ==> Find(Index(), 0, k) == old(Find(Index(), 0, k))
      ensures r.Err? ==> r.error in {TractFull, Fenced(t.plow), Corrupt}
      ensures |delta.added| == old(|delta.added|) ==> Index() == old(Index())
    {
      hide Wf, Tr, Sound, Once, Held, Content, Grew, Graft, Lap, Lbas, Appended, Poised, Find, GroupLive;
      ghost var T, v0, sv0, L, from := Index(), t.View(m), m.Staged(), live.Positions(), t.plow;
      PoisedParts(v0, T, delta, L, since, from);
      HeldWalkable(v0, T, [], ToLeaf(key));
      GroupLeaf(v0, T, key, group);
      var found := FindLeaf(m, t, key);
      var leaf := found.value.value;
      var sorted := SortByIndex(group);
      GroupSorted(v0, T, key, group, sorted);
      var copied := CopyFurrows(m, t, live, key, leaf, sorted, since);
      if copied.Err? {
        return Err(copied.error);
      }
      ghost var v1, sv1, mid := t.View(m), m.Staged(), t.plow;
      r := RebuildLeaf(m, t, live, leaf, sorted, copied.value.0, copied.value.1, since, v0, sv0, from);
    }

    /** Rebuild the owner's leaf with the copies patched into its run list and swap it in; the delta last. */
    method RebuildLeaf(m: Mirror, t: Tract, live: LiveSet, leaf: Tree, group: seq<Shift>, docs: seq<Doc>, placed: seq<nat>,
                       ghost since: nat, ghost v0: Medium, ghost sv0: map<nat, Block>, ghost from: nat) returns (r: Result<()>)
      requires t.Valid() && m.Valid() && t.base + t.len <= |m.disk| && t.reap <= since <= from && Valid()
      requires Poised(v0, Index(), delta, live.Positions(), since, from)
      requires Poised(t.View(m), Index(), delta, live.Positions(), since, t.plow)
      requires Appended(v0, t.View(m), sv0, m.Staged(), from, t.plow) && Lap(from, t.plow, t.len) !! live.Positions()
      requires leaf.Leaf? && |docs| == |group| && |placed| == |docs| && CopiedGroup(t.View(m), Index(), leaf, group, docs, placed, from, t.plow)
      modifies this`root, this`arena, this`delta, this`hits, t`plow, m`pending, m`cache, m`uses, m`disk
      ensures t.Valid() && m.Valid() && from <= t.plow && Valid()
      ensures Appended(v0, t.View(m), sv0, m.Staged(), from, t.plow)
      ensures Lap(from, t.plow, t.len) !! live.Positions() && t.Within(old(t.plow))
      ensures Poised(t.View(m), Index(), delta, live.Positions(), since, t.plow)
      ensures Content(t.View(m), Index()) == old(Content(t.View(m), Index()))
      ensures old(delta.added) <= delta.added && old(delta.removed) <= delta.removed
      ensures r.Ok? ==> Spots(group) <= Lbas(delta.removed) && hits == old(hits) + 1
      ensures r.Ok? ==> forall k: Key :: k != leaf.key ==> Find(Index(), 0, k) == old(Find(Index(), 0, k))
      ensures r.Err? ==> r.error in {TractFull, Fenced(t.plow), Corrupt}
      ensures |delta.added| == old(|delta.added|) ==> Index() == old(Index())
    {
      hide Wf, Tr, Sound, Once, Held, Content, Grew, Graft, Trail, Lap, Lbas, Appended, Poised, Find, GroupHeld, Patched, CopiedGroup,
           Expand, Elems, Distinct, Walkable, Swapped, Met, Spots, Own, Pos, RefsAt, PosOf, Rebuilt, DocsHeld, DocsAt, Plowed,
           Swap, Last, Flat, Overlay, CacheSorted, CacheTrue, SealedAt;
      ghost var T, L, d, v1, sv1, mid := Index(), live.Positions(), delta, t.View(m), m.Staged(), t.plow;
      PoisedParts(v1, T, d, L, since, mid);
      CopiedGives(v1, T, leaf, group, docs, placed, from, mid);
      var runs :- PatchedRuns(m, t, leaf, group, placed);
      var body := Extent(leaf.body.size, runs);
      var at := t.Append(m, live, [LeafDoc(leaf.key, body)]);
      ghost var w := t.View(m);
      AppendedOrder(v1, w, sv1, m.Staged(), mid, t.plow);
      AppendedThen(v0, v1, w, sv0, sv1, m.Staged(), from, mid, t.plow);
      LapSplit(from, mid, t.plow, t.len);
      PoisedOrphans(v1, w, sv1, m.Staged(), T, d, L, since, mid, t.plow);
      if at.Err? {
        return Err(at.error);
      }
      var made := Leaf(at.value[0], leaf.key, body);
      LeafRebuilt(v1, w, sv1, m.Staged(), T, d, L, since, from, mid, leaf, group, docs, placed, made);
      AppendedOrder(v0, w, sv0, m.Staged(), from, t.plow);
      PoisedParts(w, T, d, L, since, t.plow);
      r := SwapLeaf(m, t, leaf, made, group, docs, placed);
      assert r.Ok?;
      RebuildLaw(v0, w, sv0, m.Staged(), T, Index(), d, delta, L, since, from, t.plow, leaf, group, placed, made);
      SwapFinds(w, T, Index(), leaf, made);
    }

    /** Swap the rebuilt leaf in and account for the moved furrows and the old leaf. */
    method SwapLeaf(m: Mirror, t: Tract, leaf: Tree, made: Tree, group: seq<Shift>, docs: seq<Doc>, placed: seq<nat>) returns (r: Result<()>)
      requires m.Valid() && Valid() && Sound(Index(), []) && Held(t.View(m), Index())
      requires leaf.Leaf? && made.Leaf? && made.key == leaf.key && |docs| == |group| && |placed| == |docs|
      requires Met(Index(), 0, Hunt(leaf.key, leaf, LEVELS))
      requires SealedAt(t.View(m), made.lba, DocOf(made)) && SealedAt(t.View(m), leaf.lba, DocOf(leaf))
      requires DocsHeld(t.View(m), group, docs) && DocsAt(t.View(m), placed, docs)
      modifies this`root, this`arena, this`delta, this`hits, m`cache, m`uses
      ensures m.Valid() && m.disk == old(m.disk) && Valid()
      ensures r.Ok? && hits == old(hits) + 1 && Index() == Swapped(old(Index()), 0, Hunt(leaf.key, leaf, LEVELS), made)
      ensures Grew(t.View(m), old(delta.added), delta.added, Elems(placed) + {made.lba})
      ensures Grew(t.View(m), old(delta.removed), delta.removed,
                   Trail(old(Index()), 0, Hunt(leaf.key, leaf, LEVELS)) + Spots(group) + {leaf.lba})
      ensures Spots(group) <= Lbas(delta.removed)
      ensures |delta.added| > old(|delta.added|)
    {
      hide Wf, Tr, Sound, Once, Held, Grew, Trail, Lbas, Elems, Walkable, Swapped, Met, Spots, RefsAt, PosOf, DocsHeld, DocsAt,
           Last, Flat, Overlay, CacheSorted, CacheTrue, SealedAt;
      ghost var T, d, w := Index(), delta, t.View(m);
      HeldWalkable(w, T, [], Hunt(leaf.key, leaf, LEVELS));
      var hit := Repoint(m, t, Hunt(leaf.key, leaf, LEVELS), made);
      if hit != Ok(true) {
        return Err(Corrupt);
      }
      ghost var was := delta.removed;
      delta := Delta(delta.added + RefsAt(placed, docs) + [Ref(made.lba, DocOf(made))],
                     delta.removed + RefsAt(PosOf(group), docs) + [Ref(leaf.lba, DocOf(leaf))]);
      RebuiltRefs(w, T, d, was, delta, leaf, group, docs, placed, made);
      return Ok(());
    }

    /** The owner's run list with the copies patched in. */
    method PatchedRuns(m: Mirror, t: Tract, leaf: Tree, group: seq<Shift>, placed: seq<nat>) returns (r: Result<seq<Run>>)
      requires leaf.Leaf? && GroupHeld(t.View(m), Index(), leaf, group) && Held(t.View(m), Index()) && Sound(Index(), [])
      requires |placed| == |group|
      ensures leaf.body.Extent?
      ensures r.Ok? ==> |r.value| <= MAX_RUNS
      ensures r.Ok? ==> forall lba :: Rebuilt(leaf, group, placed, Leaf(lba, leaf.key, Extent(leaf.body.size, r.value)))
      ensures r.Err? ==> r.error == Corrupt
    {
      var v := t.View(m);
      FindIsMembership(Index(), [], leaf);
      HeldLeaf(v, Index(), leaf);
      var ps := ExpandRuns(leaf.body.runs, leaf.body.size, t.len);
      var patched := Patch(ps.value, group, placed);
      if patched.Err? {
        return Err(Corrupt);
      }
      var runs := CompressRuns(patched.value);
      if |runs| > MAX_RUNS {
        return Err(Corrupt);
      }
      return Ok(runs);
    }

    /** The survivors of the cursors from `from` to `to`: exactly the positions the live set holds and the delta has not
        retired, sorted by what is sealed there. */
    method Survey(m: Mirror, t: Tract, live: LiveSet, from: nat, to: nat, ghost since: nat) returns (win: Window)
      requires m.Valid() && t.base + t.len <= |m.disk| && from <= to <= from + t.len
      requires Poised(t.View(m), Index(), delta, live.Positions(), since, t.plow) && LiveTrue(t.View(m), live.map_)
      ensures WindowIn(t.View(m), live.Positions() - Lbas(delta.removed), win)
      ensures Gathered(win) == Lap(from, to, t.len) * (live.Positions() - Lbas(delta.removed))
    {
      hide Lap, Lbas, Gathered, WindowIn, Sorted, Pos, RefsTrue, Sound, Once, Held, RoleFits;
      ghost var v, s := t.View(m), live.Positions() - Lbas(delta.removed);
      win := Window([], [], [], map[]);
      EmptyWindow(v, s);
      assert Lap(from, from, t.len) == {} by {
        EmptyLap(from, t.len);
      }
      for x := from to to
        invariant WindowIn(v, s, win) && Gathered(win) == Lap(from, x, t.len) * s
      {
        var pos := x % t.len;
        var got := m.Read(t.base + pos);
        ghost var before := win;
        if pos in s {
          SurvivorSealed(v, Index(), delta, live.Positions(), since, t.plow, pos);
        }
        if got.value.Sealed? {
          var doc := got.value.doc;
          RetiredBySeal(v, delta.removed, pos, doc);
          if live.IsLive(pos, doc) && Ref(pos, doc) !in delta.removed {
            win := Sorted(win, pos, doc);
          }
          SurveyStep(v, s, before, win, from, x, doc);
        } else {
          SurveyStep(v, s, before, win, from, x, FurrowDoc(NoKey(), 0, []));
        }
      }
    }

    /** Move every owner's furrows of the window, in no particular order of owners. */
    method MoveOwners(m: Mirror, t: Tract, live: LiveSet, owners: map<Key, seq<Shift>>, ghost since: nat) returns (r: Result<()>)
      requires t.Valid() && m.Valid() && t.base + t.len <= |m.disk| && t.reap <= since && Valid()
      requires Poised(t.View(m), Index(), delta, live.Positions(), since, t.plow)
      requires OwnersIn(t.View(m), live.Positions() - Lbas(delta.removed), owners)
      modifies this`root, this`arena, this`delta, this`hits, t`plow, m`pending, m`cache, m`uses, m`disk
      ensures t.Valid() && m.Valid() && old(t.plow) <= t.plow && Valid()
      ensures Appended(old(t.View(m)), t.View(m), old(m.Staged()), m.Staged(), old(t.plow), t.plow)
      ensures Lap(old(t.plow), t.plow, t.len) !! live.Positions() && t.Within(old(t.plow))
      ensures Poised(t.View(m), Index(), delta, live.Positions(), since, t.plow)
      ensures Content(t.View(m), Index()) == old(Content(t.View(m), Index()))
      ensures old(delta.added) <= delta.added && old(delta.removed) <= delta.removed
      ensures r.Ok? ==> OwnerSpots(owners) <= Lbas(delta.removed)
      ensures r.Err? ==> r.error in {TractFull, Fenced(t.plow), Corrupt}
      ensures |delta.added| == old(|delta.added|) ==> Index() == old(Index())
    {
      hide Wf, Tr, Sound, Once, Held, Content, Lap, Lbas, Appended, Poised, Find, GroupLive, OwnerSpots, OwnersIn, NoRepeat, Spots,
           Last, Flat, Overlay, CacheSorted, CacheTrue, OwnersLive;
      var todo := owners;
      ghost var v0, sv0, from, L := t.View(m), m.Staged(), t.plow, live.Positions();
      NothingAppended(v0, sv0, from);
      OwnersStart(v0, Index(), delta, L, since, from, owners);
      while todo != map[]
        invariant t.Valid() && m.Valid() && t.base + t.len <= |m.disk| && from <= t.plow && Valid()
        invariant Appended(v0, t.View(m), sv0, m.Staged(), from, t.plow) && Lap(from, t.plow, t.len) !! L && t.Within(from)
        invariant Poised(t.View(m), Index(), delta, L, since, t.plow)
        invariant Content(t.View(m), Index()) == old(Content(t.View(m), Index()))
        invariant old(delta.added) <= delta.added && old(delta.removed) <= delta.removed
        invariant |delta.added| == old(|delta.added|) ==> Index() == old(Index())
        invariant OwnersLive(t.View(m), Index(), todo)
        invariant OwnerSpots(owners) <= OwnerSpots(todo) + Lbas(delta.removed)
        decreases |todo.Keys|
      {
        var key :| key in todo;
        var group := todo[key];
        OwnerNext(t.View(m), Index(), todo, key);
        ghost var v, sv, mid, T, was := t.View(m), m.Staged(), t.plow, Index(), delta;
        r := MoveFurrows(m, t, live, key, group, since);
        AppendedOrder(v, t.View(m), sv, m.Staged(), mid, t.plow);
        AppendedThen(v0, v, t.View(m), sv0, sv, m.Staged(), from, mid, t.plow);
        LapSplit(from, mid, t.plow, t.len);
        RemovedGrows(was.removed, delta.removed);
        if r.Err? {
          return r;
        }
        OwnersStay(v, t.View(m), sv, m.Staged(), T, Index(), was, delta, L, since, mid, t.plow, todo, key);
        todo := todo - {key};
      }
      assert OwnerSpots(todo) == {} by {
        NoOwners(todo);
      }
      return Ok(());
    }

    /** Re-append the window's remaining survivors, each repointed by its own address. A block retired by an
        earlier step of this window is garbage by now and is skipped. */
    method MoveBlocks(m: Mirror, t: Tract, live: LiveSet, items: seq<Ref>, ghost since: nat) returns (r: Result<()>)
      requires t.Valid() && m.Valid() && t.base + t.len <= |m.disk| && t.reap <= since && Valid()
      requires Poised(t.View(m), Index(), delta, live.Positions(), since, t.plow)
      requires Listed(t.View(m), live.Positions(), items)
      modifies this`root, this`arena, this`delta, this`hits, t`plow, m`pending, m`cache, m`uses, m`disk
      ensures t.Valid() && m.Valid() && old(t.plow) <= t.plow && Valid()
      ensures Appended(old(t.View(m)), t.View(m), old(m.Staged()), m.Staged(), old(t.plow), t.plow)
      ensures Lap(old(t.plow), t.plow, t.len) !! live.Positions() && t.Within(old(t.plow))
      ensures Poised(t.View(m), Index(), delta, live.Positions(), since, t.plow)
      ensures Content(t.View(m), Index()) == old(Content(t.View(m), Index()))
      ensures old(delta.added) <= delta.added && old(delta.removed) <= delta.removed
      ensures r.Ok? ==> Lbas(items) <= Lbas(delta.removed)
      ensures r.Err? ==> r.error == TractFull || (r.error == Fenced(t.plow) && t.FenceBinds())
      ensures |delta.added| == old(|delta.added|) ==> Index() == old(Index())
    {
      hide Wf, Tr, Sound, Once, Held, Content, Lap, Lbas, Appended, Poised, Pos, Last, Flat, Overlay, CacheSorted, CacheTrue, RefsTrue, Mirrors.Mirror.Valid;
      ghost var v0, sv0, from, L := t.View(m), m.Staged(), t.plow, live.Positions();
      NothingAppended(v0, sv0, from);
      NoLbas();
      for i := 0 to |items|
        invariant t.Valid() && m.Valid() && t.base + t.len <= |m.disk| && from <= t.plow && Valid()
        invariant Appended(v0, t.View(m), sv0, m.Staged(), from, t.plow) && Lap(from, t.plow, t.len) !! L && t.Within(from)
        invariant Poised(t.View(m), Index(), delta, L, since, t.plow)
        invariant Content(t.View(m), Index()) == old(Content(t.View(m), Index()))
        invariant old(delta.added) <= delta.added && old(delta.removed) <= delta.removed
        invariant |delta.added| == old(|delta.added|) ==> Index() == old(Index())
        invariant Lbas(items[..i]) <= Lbas(delta.removed)
      {
        ghost var v, sv, mid, gone := t.View(m), m.Staged(), t.plow, delta.removed;
        var item := items[i];
        ItemStays(v0, v, sv0, sv, from, mid, L, items, i);
        ItemStands(v, Index(), delta, L, since, mid, item);
        LbasAppend(items[..i], [item]);
        LbaOne(item);
        assert items[..i + 1] == items[..i] + [item];
        if item !in delta.removed {
          var got := m.Read(t.base + item.lba);
          if got == Ok(Sealed(item.doc)) {
            r := MoveSurvivor(m, t, live, item.lba, item.doc, since);
            AppendedOrder(v, t.View(m), sv, m.Staged(), mid, t.plow);
            AppendedThen(v0, v, t.View(m), sv0, sv, m.Staged(), from, mid, t.plow);
            LapSplit(from, mid, t.plow, t.len);
            RemovedGrows(gone, delta.removed);
            if r.Err? {
              return r;
            }
          }
        }
      }
      assert items[..|items|] == items;
      return Ok(());
    }

    /** One window: its survivors are moved to the plow, furrows leaf by leaf, then leaves, then nodes, and the reap passes
        over it with nothing unretired left behind. No lookup changes, also when it is refused midway. */
    method ReapWindow(m: Mirror, t: Tract, live: LiveSet, window: nat, ghost since: nat) returns (r: Result<()>)
      requires t.Valid() && m.Valid() && t.base + t.len <= |m.disk| && t.reap <= since && Valid()
      requires Poised(t.View(m), Index(), delta, live.Positions(), since, t.plow) && LiveTrue(t.View(m), live.map_)
      modifies this`root, this`arena, this`delta, this`hits, t`plow, t`reap, m`pending, m`cache, m`uses, m`disk
      ensures t.Valid() && m.Valid() && old(t.plow) <= t.plow && Valid()
      ensures Appended(old(t.View(m)), t.View(m), old(m.Staged()), m.Staged(), old(t.plow), t.plow)
      ensures Lap(old(t.plow), t.plow, t.len) !! live.Positions() && t.Within(old(t.plow))
      ensures Poised(t.View(m), Index(), delta, live.Positions(), since, t.plow)
      ensures Content(t.View(m), Index()) == old(Content(t.View(m), Index()))
      ensures old(delta.added) <= delta.added && old(delta.removed) <= delta.removed
      ensures r.Err? ==> t.reap == old(t.reap) && r.error in {TractFull, Fenced(t.plow), Corrupt}
      ensures r.Ok? ==> t.reap == old(t.reap) + (if window < old(t.plow - t.reap) then window else old(t.plow - t.reap))
      ensures r.Ok? ==> Lap(old(t.reap), t.reap, t.len) * live.Positions() <= Lbas(delta.removed)
      ensures r.Ok? && t.reap <= since ==> Lap(old(t.reap), t.reap, t.len) !! Pos(Index())
      ensures |delta.added| == old(|delta.added|) ==> Index() == old(Index())
      ensures t.plow <= old(t.reap) + t.len
    {
      hide Wf, Tr, Sound, Once, Held, Content, Lap, Lbas, Appended, Poised, Pos, OwnersIn, Listed, Gathered, OwnerSpots, RefsTrue,
           Last, Flat, Overlay, CacheSorted, CacheTrue, Mirrors.Mirror.Valid;
      ghost var v0, sv0, from, L := t.View(m), m.Staged(), t.plow, live.Positions();
      var start := t.reap;
      var w := if window < t.plow - start then window else t.plow - start;
      if w == 0 {
        NothingAppended(v0, sv0, from);
        EmptyLap(start, t.len);
        return Ok(());
      }
      var win := Survey(m, t, live, start, start + w, since);
      ghost var gone := delta.removed;
      var owned := MoveOwners(m, t, live, win.owners, since);
      if owned.Err? {
        return Err(owned.error);
      }
      ghost var v, sv, mid, moved := t.View(m), m.Staged(), t.plow, delta.removed;
      AppendedOrder(v0, v, sv0, sv, from, mid);
      ListsStay(v0, v, sv0, sv, from, mid, L, gone, win);
      r := MoveBlocks(m, t, live, win.lones + win.leaves + win.nodes, since);
      AppendedThen(v0, v, t.View(m), sv0, sv, m.Staged(), from, mid, t.plow);
      LapSplit(from, mid, t.plow, t.len);
      if r.Err? {
        return r;
      }
      RemovedGrows(moved, delta.removed);
      WindowRetired(t.View(m), Index(), delta, L, since, t.plow, start, start + w, gone, win);
      t.reap := start + w;
    }

    /** Read the group's blocks and append them where the plow stands. */
    method CopyFurrows(m: Mirror, t: Tract, live: LiveSet, key: Key, ghost leaf: Tree, group: seq<Shift>, ghost since: nat)
      returns (r: Result<(seq<Doc>, seq<nat>)>)
      requires t.Valid() && m.Valid() && t.base + t.len <= |m.disk| && t.reap <= since
      requires Poised(t.View(m), Index(), delta, live.Positions(), since, t.plow)
      requires leaf.Leaf? && leaf.key == key && GroupHeld(t.View(m), Index(), leaf, group)
      modifies t`plow, m`pending, m`cache, m`disk
      ensures t.Valid() && m.Valid() && old(t.plow) <= t.plow
      ensures Appended(old(t.View(m)), t.View(m), old(m.Staged()), m.Staged(), old(t.plow), t.plow)
      ensures Lap(old(t.plow), t.plow, t.len) !! live.Positions() && t.Within(old(t.plow))
      ensures Poised(t.View(m), Index(), delta, live.Positions(), since, t.plow)
      ensures Content(t.View(m), Index()) == old(Content(t.View(m), Index()))
      ensures r.Err? ==> r.error in {TractFull, Fenced(t.plow), Corrupt}
      ensures r.Ok? ==> |r.value.0| == |group| && |r.value.1| == |r.value.0|
      ensures r.Ok? ==> CopiedGroup(t.View(m), Index(), leaf, group, r.value.0, r.value.1, old(t.plow), t.plow)
    {
      hide Held, Content, Lap, Appended, Poised, CopiedGroup, DocsHeld;
      ghost var T, v0, L, from := Index(), t.View(m), live.Positions(), t.plow;
      var docs := ReadGroup(m, t, key, group);
      var placed := t.Append(m, live, docs);
      AppendedOrder(v0, t.View(m), old(m.Staged()), m.Staged(), from, t.plow);
      PoisedOrphans(v0, t.View(m), old(m.Staged()), m.Staged(), T, delta, L, since, from, t.plow);
      if placed.Err? {
        return Err(placed.error);
      }
      GroupCopied(v0, t.View(m), old(m.Staged()), m.Staged(), T, delta, L, since, from, leaf, group, docs);
      return Ok((docs, placed.value));
    }

    method ReadGroup(m: Mirror, t: Tract, ghost key: Key, group: seq<Shift>) returns (docs: seq<Doc>)
      requires m.Valid() && forall j :: 0 <= j < |group| ==> FurrowAt(t.View(m), group[j].pos, key, group[j].index)
      ensures DocsHeld(t.View(m), group, docs)
    {
      docs := [];
      for j := 0 to |group|
        invariant |docs| == j
        invariant forall k :: 0 <= k < j ==> SealedAt(t.View(m), group[k].pos, docs[k])
      {
        assert FurrowAt(t.View(m), group[j].pos, key, group[j].index);
        var got := m.Read(t.base + group[j].pos);
        docs := docs + [got.value.doc];
      }
    }

    /** A node with no dirty child goes to the plow. */
    method PlaceNode(m: Mirror, t: Tract, live: LiveSet, idx: nat, d: nat, ghost pre: seq<nat>, ghost since: nat)
      returns (r: Result<Tree>)
      requires t.Valid() && m.Valid() && t.base + t.len <= |m.disk| && t.reap <= since
      requires Ready(Now(m, t), InArena(idx), d, pre, live.Positions(), since)
      requires idx < |arena| && forall c :: 0 <= c < |arena[idx].kids| ==> !arena[idx].kids[c].InArena?
      modifies this`delta, t`plow, m`pending, m`cache, m`disk
      ensures t.Valid() && m.Valid() && delta.removed == old(delta.removed)
      ensures r.Ok? ==> Committed(r.value)
      ensures r.Err? ==> r.error == TractFull || (r.error == Fenced(t.plow) && t.FenceBinds())
      ensures FlushStep(old(Now(m, t)), Now(m, t), InArena(idx), AfterFlush(idx, r), d, pre, live.Positions())
      ensures t.Within(old(t.plow))
    {
      ghost var p, L := Now(m, t), live.Positions();
      EntryDoc(arena, idx, d);
      var doc := DocOfEntry(arena[idx]);
      var placed := t.Append(m, live, [doc]);
      if placed.Err? {
        StepNone(p, InArena(idx), d, pre, L, since);
        assert Now(m, t) == p;
        return Err(placed.error);
      }
      var lba := placed.value[0];
      delta := delta.(added := delta.added + [Ref(lba, doc)]);
      r := Ok(PointerTo(doc, lba));
      StepPlace(p, Now(m, t), idx, d, pre, doc, L, since);
    }
  }

  function FurrowDocs(key: Key, parts: seq<Value>): (docs: seq<Doc>)
    ensures |docs| == |parts|
  {
    seq(|parts|, i requires 0 <= i < |parts| => FurrowDoc(key, i, parts[i]))
  }

  function RefsAt(places: seq<nat>, docs: seq<Doc>): seq<Ref>
    requires |places| == |docs|
  {
    seq(|docs|, i requires 0 <= i < |docs| => Ref(places[i], docs[i]))
  }

  lemma {:induction false} PlacesLap(from: nat, n: nat, len: Positive)
    requires n <= len
    ensures Elems(Places(from, n, len)) == Lap(from, from + n, len) && Distinct(Places(from, n, len))
    ensures forall i :: 0 <= i < n ==> Places(from, n, len)[i] < len
  {
    var ps := Places(from, n, len);
    forall x | from <= x < from + n
      ensures x % len in ps
    {
      assert ps[x - from] == x % len;
    }
    forall i, j | 0 <= i < j < n
      ensures ps[i] != ps[j]
    {
      OneLap(from + i, from + j, len);
    }
  }

  /** Documents sealed at the cursors from `from` on. */
  ghost predicate Sown(v: Medium, from: nat, docs: seq<Doc>) {
    |docs| <= v.len && forall x :: from <= x < from + |docs| ==> Holds(v.disk, Spot(v.base, v.len, x), docs[x - from])
  }

  lemma {:induction false} FurrowSown(v: Medium, key: Key, parts: seq<Value>, from: nat, i: nat)
    requires Sown(v, from, FurrowDocs(key, parts)) && i < |parts|
    ensures var p := Places(from, |parts|, v.len)[i]; FurrowAt(v, p, key, i) && PayloadAt(v, p) == parts[i]
  {
    var x := from + i;
    assert Holds(v.disk, Spot(v.base, v.len, x), FurrowDocs(key, parts)[x - from]);
  }

  lemma {:induction false} FurrowsSown(v: Medium, key: Key, parts: seq<Value>, from: nat)
    requires Sown(v, from, FurrowDocs(key, parts))
    ensures var ps := Places(from, |parts|, v.len);
      && (forall i :: 0 <= i < |ps| ==> FurrowAt(v, ps[i], key, i))
      && Assemble(v, ps) == Join(parts)
  {
    hide FurrowAt, PayloadAt, Sown;
    var ps := Places(from, |parts|, v.len);
    forall i | 0 <= i < |ps|
      ensures FurrowAt(v, ps[i], key, i) && PayloadAt(v, ps[i]) == parts[i]
    {
      FurrowSown(v, key, parts, from, i);
    }
    assert seq(|ps|, i requires 0 <= i < |ps| => PayloadAt(v, ps[i])) == parts;
  }

  /** Furrows just appended carry the value they were cut from. */
  lemma {:induction false} FurrowsPlaced(v: Medium, key: Key, value: Value, from: nat, runs: seq<Run>)
    requires Sown(v, from, FurrowDocs(key, Shard(value)))
    requires Expand(runs) == Places(from, |Shard(value)|, v.len) && forall i :: 0 <= i < |runs| ==> runs[i].count > 0
    ensures Elems(Expand(runs)) == Lap(from, from + |Shard(value)|, v.len) && Distinct(Expand(runs))
    ensures BodyHeld(v, key, Extent(|value|, runs)) && Assemble(v, Expand(runs)) == value
  {
    assert |Shard(value)| <= v.len;
    hide FurrowAt, Assemble, Sown, Shard, Expand, Elems, Distinct, Inside;
    PlacesLap(from, |Shard(value)|, v.len);
    ExpandedInside(runs, v.len);
    ExpandLength(runs);
    ShardJoins(value);
    FurrowsSown(v, key, Shard(value), from);
  }

  lemma {:induction false} DocRefs(v: Medium, added: seq<Ref>, from: nat, docs: seq<Doc>)
    requires |docs| <= v.len && forall x :: from <= x < from + |docs| ==> Holds(v.disk, Spot(v.base, v.len, x), docs[x - from])
    ensures Grew(v, added, added + RefsAt(Places(from, |docs|, v.len), docs), Lap(from, from + |docs|, v.len))
  {
    var refs := RefsAt(Places(from, |docs|, v.len), docs);
    assert (added + refs)[|added|..] == refs;
    forall i | 0 <= i < |refs|
      ensures SealedAt(v, refs[i].lba, refs[i].doc)
    {
      assert Holds(v.disk, Spot(v.base, v.len, from + i), docs[i]);
    }
    assert Lbas(refs) == Lap(from, from + |docs|, v.len) by {
      forall x | from <= x < from + |docs|
        ensures x % v.len in Lbas(refs)
      {
        assert refs[x - from].lba == x % v.len;
      }
      forall i | 0 <= i < |refs|
        ensures refs[i].lba in Lap(from, from + |docs|, v.len)
      {
        assert refs[i].lba == (from + i) % v.len;
      }
    }
  }

  lemma {:induction false} Consecutive(ps: seq<nat>)
    requires ps != [] && forall j :: 0 < j < |ps| ==> ps[j] == ps[j - 1] + 1
    ensures forall j :: 0 <= j < |ps| ==> ps[j] == ps[0] + j
  {
    for i := 1 to |ps|
      invariant forall j :: 0 <= j < i ==> ps[j] == ps[0] + j
    {
      assert ps[i] == ps[i - 1] + 1;
    }
  }

  lemma {:induction false} AssembleSplit(v: Medium, a: seq<nat>, b: seq<nat>)
    ensures Assemble(v, a + b) == Assemble(v, a) + Assemble(v, b)
    decreases |b|
  {
    if b == [] {
      assert a + b == a;
    } else {
      var front := b[..|b| - 1];
      AssembleSplit(v, a, front);
      AssembleLast(v, a + front, b[|b| - 1]);
      AssembleLast(v, front, b[|b| - 1]);
      assert a + b == (a + front) + [b[|b| - 1]] && b == front + [b[|b| - 1]];
    }
  }

  lemma {:induction false} AssembleLast(v: Medium, ps: seq<nat>, p: nat)
    ensures Assemble(v, ps + [p]) == Assemble(v, ps) + PayloadAt(v, p)
  {
    var parts := seq(|ps|, i requires 0 <= i < |ps| => PayloadAt(v, ps[i]));
    assert seq(|ps + [p]|, i requires 0 <= i < |ps + [p]| => PayloadAt(v, (ps + [p])[i])) == parts + [PayloadAt(v, p)];
    JoinAppend(parts, PayloadAt(v, p));
  }

  lemma {:induction false} KidReady(p: Shot, idx: nat, c: nat, d: nat, pre: seq<nat>, live: set<nat>, since: nat)
    requires Ready(p, InArena(idx), d, pre, live, since) && c < WIDTH
    requires idx < |p.arena| && |p.arena[idx].kids| == WIDTH && p.arena[idx].kids[c].InArena?
    ensures Ready(p, p.arena[idx].kids[c], d + 1, pre + [c], live, since)
    ensures var u := Tr(p.arena, InArena(idx), d);
      IsDirty(u) && |u.kids| == WIDTH && u.kids[c] == Tr(p.arena, p.arena[idx].kids[c], d + 1)
  {
    var u, kid := Tr(p.arena, InArena(idx), d), p.arena[idx].kids[c];
    KidTr(p.arena, idx, d, c);
    hide Tr, Wf;
    assert Sound(u.kids[c], pre + [c]) && Once(u.kids[c]) && Pos(u.kids[c]) <= Under(u.kids);
  }

  lemma {:induction false} KidTr(a: seq<ANode>, idx: nat, d: nat, c: nat)
    requires Wf(a, InArena(idx), d) && c < WIDTH
    ensures d < LEVELS && idx < |a| && |a[idx].kids| == WIDTH
    ensures var u := Tr(a, InArena(idx), d); IsDirty(u) && |u.kids| == WIDTH && u.kids[c] == Tr(a, a[idx].kids[c], d + 1)
    ensures Wf(a, a[idx].kids[c], d + 1) && (a[idx].kids[c].InArena? ==> d + 1 < LEVELS)
  {
  }

  lemma {:induction false} StepKid(p: Shot, q: Shot, idx: nat, c: nat, d: nat, pre: seq<nat>, now: Slot, live: set<nat>, since: nat)
    requires Ready(p, InArena(idx), d, pre, live, since) && c < WIDTH
    requires idx < |p.arena| && |p.arena[idx].kids| == WIDTH && p.arena[idx].kids[c].InArena?
    requires FlushStep(p, q, p.arena[idx].kids[c], now, d + 1, pre + [c], live) && q.plow <= since + p.v.len
    ensures idx < |q.arena| && q.arena[idx] == p.arena[idx]
    ensures FlushStep(p, q.(arena := Linked(q.arena, idx, c, now)), InArena(idx), InArena(idx), d, pre, live)
  {
    KidReady(p, idx, c, d, pre, live, since);
    EntryApart(p.arena, idx, d);
    Link(p.arena, q.arena, idx, c, now, d);
    hide Wf, Ix;
    var u, x := Tr(p.arena, InArena(idx), d), Tr(q.arena, now, d + 1);
    FreshPlaces(Pos(u), live, since, p.plow, q.plow, p.v.len);
    FlushedKid(u, pre, c, x, p.plow, q.plow, p.v.len);
    if Held(p.v, u) {
      AppendedKeeps(p.v, q.v, p.staged, q.staged, p.plow, q.plow, Pos(u));
      HeldKept(p.v, q.v, u);
      assert Held(q.v, u.(kids := u.kids[c := x]));
    }
  }

  lemma {:induction false} StepPlace(p: Shot, q: Shot, idx: nat, d: nat, pre: seq<nat>, doc: Doc, live: set<nat>, since: nat)
    requires Ready(p, InArena(idx), d, pre, live, since)
    requires idx < |p.arena| && forall c :: 0 <= c < |p.arena[idx].kids| ==> !p.arena[idx].kids[c].InArena?
    requires doc == DocOfEntry(p.arena[idx]) && q.arena == p.arena && q.plow == p.plow + 1 <= since + p.v.len
    requires Appended(p.v, q.v, p.staged, q.staged, p.plow, q.plow) && Plowed(p.v.disk, q.v.disk, p.v.base, p.v.len, p.plow, [doc])
    requires Lap(p.plow, q.plow, p.v.len) !! live
    requires q.added == p.added + [Ref(p.plow % p.v.len, doc)]
    ensures FlushStep(p, q, InArena(idx), Pointer(PointerTo(doc, p.plow % p.v.len)), d, pre, live)
  {
    EntryDoc(p.arena, idx, d);
    var u, at := Tr(p.arena, InArena(idx), d), p.plow % p.v.len;
    hide Wf, Ix;
    FreshPlaces(Pos(u), live, since, p.plow, q.plow, p.v.len);
    assert at in Lap(p.plow, q.plow, p.v.len);
    assert Lap(p.plow, q.plow, p.v.len) == {at};
    FlushedNode(u, pre, p.plow, p.v.len);
    assert Holds(q.v.disk, Spot(p.v.base, p.v.len, p.plow), doc);
    SealedSpot(q.v, p.plow, doc);
    GrewOne(q.v, p.added, Ref(at, doc));
    if Held(p.v, u) {
      AppendedKeeps(p.v, q.v, p.staged, q.staged, p.plow, q.plow, Pos(u));
      HeldKept(p.v, q.v, u);
    }
  }
}
