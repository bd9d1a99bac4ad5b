/** A repairing open: prune every pointer the repair walk reported, take what is left as live, and commit it. */
module Salvages {
  import opened Blocks
  import opened Runs
  import opened Trie
  import opened Media
  import opened Arenas
  import opened Devices
  import opened Mirrors
  import opened Tracts
  import opened Placing
  import opened Hamts
  import opened Rings
  import opened Walks
  import opened Generations
  import opened Sessions
  import opened Barriers
  import opened Repairs
  import opened Interrupts
  import opened Vaults
  import Moves

  // ---------------------------------------------------------------- pruning the report

  /** Midway through the prunes: the index still holds every spared leaf, `told` is what is lost of it, and `gone` the
      superseded nodes. */
  ghost predicate Pruning(v: Medium, root: Tree, u: Tree, gone: set<nat>, told: multiset<Item>) {
    && Sound(u, []) && Once(u) && Spared(v, u) == Spared(v, root)
    && gone <= Firm(v, root) && Firm(v, u) == Firm(v, root) - gone
    && Told(v, u, 0, NoKey(), told)
  }

  lemma {:induction false} TrailFirm(v: Medium, t: Tree, d: nat, h: Hunt)
    requires Aimed(v, t, d, h.key, h.stop) && h.limit >= LEVELS
    ensures Trail(t, d, h) <= Firm(v, t)
    decreases t
  {
    if t != h.stop {
      var c := h.key[d];
      TrailFirm(v, t.kids[c], d + 1, h);
      assert Firm(v, t.kids[c]) <= FirmUnder(v, t.kids);
    }
  }

  lemma {:induction false} PruneShape(v: Medium, u: Tree, h: Hunt)
    requires Sound(u, []) && Once(u) && h.limit >= LEVELS && Aimed(v, u, 0, h.key, h.stop)
    ensures Graft(u, 0, h, Nil) == Swapped(u, 0, h, Nil) && Walkable(v, u, 0, h)
    ensures Sound(Graft(u, 0, h, Nil), []) && Once(Graft(u, 0, h, Nil))
  {
    hide Graft, Sound, Once, Pos;
    AimedMeets(v, u, 0, h);
    EndSound(u, [], h);
    assert Sound(Nil, h.key[..End(u, 0, h).1]) && Once(Nil) && Pos(Nil) == {} by {
      NilSound(h.key[..End(u, 0, h).1]);
    }
    GraftSound(u, [], h, Nil);
    GraftPos(u, 0, h, Nil);
  }

  lemma {:induction false} NilSound(pre: seq<nat>)
    ensures Sound(Nil, pre) && Once(Nil) && Pos(Nil) == {}
  {
  }

  /** The rest of the report stays true of the pruned index. */
  lemma {:induction false} RestTold(v: Medium, u: Tree, told: multiset<Item>, x: Item)
    requires Sound(u, []) && Once(u) && Told(v, u, 0, NoKey(), told) && x in told
    requires var h := Hunt(x.route, x.ptr, LEVELS);
      Aimed(v, u, 0, h.key, h.stop) && Lost(v, Graft(u, 0, h, Nil)) == Lost(v, u) - {x.ptr}
    ensures Told(v, Graft(u, 0, Hunt(x.route, x.ptr, LEVELS), Nil), 0, NoKey(), told - multiset{x})
  {
    hide Sound, Once, Lost, Graft, Aimed;
    var h := Hunt(x.route, x.ptr, LEVELS);
    var w, rest := Graft(u, 0, h, Nil), told - multiset{x};
    forall y | y in rest
      ensures ToldItem(v, w, 0, NoKey(), y) && rest[y] == 1 && y.ptr != x.ptr
    {
      assert y in told && ToldItem(v, u, 0, NoKey(), y);
      PruneAims(v, u, [], h, y.route, y.ptr);
    }
    forall p | p in Lost(v, u) && p != x.ptr
      ensures p in Aims(rest)
    {
      assert p in Aims(told);
      var y :| y in told && y.ptr == p;
      assert y in rest;
    }
  }

  /** One prune of the report. */
  lemma {:induction false} PruneNext(v: Medium, root: Tree, u: Tree, gone: set<nat>, told: multiset<Item>, x: Item)
    requires Pruning(v, root, u, gone, told) && x in told
    ensures var h := Hunt(x.route, x.ptr, LEVELS);
      && Walkable(v, u, 0, h)
      && Pruning(v, root, Swapped(u, 0, h, Nil), gone + Trail(u, 0, h), told - multiset{x})
  {
    hide Sound, Once, Firm, Lost, Spared, Graft, Swapped, Aimed, Walkable, Trail;
    var h := Hunt(x.route, x.ptr, LEVELS);
    assert ToldItem(v, u, 0, NoKey(), x);
    hide Told;
    PruneShape(v, u, h);
    PruneLaw(v, u, [], h);
    TrailFirm(v, u, 0, h);
    RestTold(v, u, told, x);
  }

  /** Nothing left to prune: the index holds exactly the safe part of what the root held. */
  lemma {:induction false} Pruned(v: Medium, root: Tree, u: Tree, gone: set<nat>)
    requires Sound(root, []) && Pruning(v, root, u, gone, multiset{})
    ensures Sound(u, []) && Once(u) && Mended(v, u) && Content(v, u) == SafeMap(v, root)
    ensures Leaves(u) == Spared(v, root) && Pos(u) == Firm(v, root) - gone
  {
    hide Sound, Once, Firm, Lost, Spared, Leaves, Pos;
    assert Aims(multiset{}) == {};
    NothingLost(v, u);
    MendedMap(v, root, u);
  }

  lemma {:induction false} PruningStarts(v: Medium, root: Tree, told: multiset<Item>)
    requires Sound(root, []) && Once(root) && (root.Nil? ==> told == multiset{})
    requires !root.Nil? ==> Told(v, root, 0, NoKey(), told)
    ensures Pruning(v, root, root, {}, told)
  {
    if root.Nil? {
      assert Lost(v, root) == {} && Aims(told) == {};
    }
  }

  /** The position each pruned pointer held is no longer referenced, and no other is lost. */
  datatype Report = Report(stale: seq<Item>, dangling: seq<Item>)

  /** Unlink what was reported, each pointer along its own route. */
  method PruneAll(m: Mirror, t: Tract, hamt: Hamt, items: seq<Item>, ghost root: Tree, ghost told: multiset<Item>)
    requires m.Valid() && hamt.Valid() && hamt.delta.added == [] && multiset(items) <= told
    requires RefsTrue(t.View(m), hamt.delta.removed)
    requires Pruning(t.View(m), root, hamt.Index(), Lbas(hamt.delta.removed), told)
    modifies hamt`root, hamt`arena, hamt`delta, m`cache, m`uses
    ensures m.Valid() && m.disk == old(m.disk) && hamt.Valid() && hamt.delta.added == []
    ensures RefsTrue(t.View(m), hamt.delta.removed)
    ensures Pruning(t.View(m), root, hamt.Index(), Lbas(hamt.delta.removed), told - multiset(items))
    ensures items == [] ==> hamt.Index() == old(hamt.Index()) && hamt.delta == old(hamt.delta)
  {
    hide Pruning, Told, Lbas, RefsTrue, Swapped, Walkable, Grew, Wf, Tr, Sound, Mirrors.Mirror.Valid;
    ghost var v := t.View(m);
    assert told - multiset(items[..0]) == told;
    for i := 0 to |items|
      invariant m.Valid() && m.disk == old(m.disk) && hamt.Valid() && hamt.delta.added == []
      invariant RefsTrue(v, hamt.delta.removed)
      invariant Pruning(v, root, hamt.Index(), Lbas(hamt.delta.removed), told - multiset(items[..i]))
      invariant i == 0 ==> hamt.Index() == old(hamt.Index()) && hamt.delta == old(hamt.delta)
    {
      ghost var left, was, u := told - multiset(items[..i]), hamt.delta.removed, hamt.Index();
      StillTold(items, i, told);
      PruneNext(v, root, u, Lbas(was), left, items[i]);
      assert Sound(u, []) by {
        PruningSound(v, root, u, Lbas(was), left);
      }
      var _ := hamt.Prune(m, t, Hunt(items[i].route, items[i].ptr, LEVELS));
      GrewAll(v, was, hamt.delta.removed, Trail(u, 0, Hunt(items[i].route, items[i].ptr, LEVELS)));
    }
    assert items[..|items|] == items;
  }

  lemma {:induction false} PruningSound(v: Medium, root: Tree, u: Tree, gone: set<nat>, told: multiset<Item>)
    requires Pruning(v, root, u, gone, told)
    ensures Sound(u, []) && Once(u)
  {
  }

  lemma {:induction false} StillTold(items: seq<Item>, i: nat, told: multiset<Item>)
    requires i < |items| && multiset(items) <= told
    ensures items[i] in told - multiset(items[..i])
    ensures told - multiset(items[..i]) - multiset{items[i]} == told - multiset(items[..i + 1])
  {
    assert items == items[..i] + [items[i]] + items[i + 1..];
    assert items[..i + 1] == items[..i] + [items[i]];
  }

  lemma {:induction false} GrewAll(v: Medium, before: seq<Ref>, after: seq<Ref>, s: set<nat>)
    requires RefsTrue(v, before) && Grew(v, before, after, s)
    ensures RefsTrue(v, after) && Lbas(after) == Lbas(before) + s
  {
    RefsJoin(v, before, after);
  }

  // ---------------------------------------------------------------- the repairing open

  /** What a commit of the engine wrote, whatever has become of its blocks since. */
  ghost predicate Wrote(e: Entry) {
    && e.tract > 0 && (e.root.Nil? || Blocks.Committed(e.root)) && Sound(e.root, []) && Once(e.root)
    && Pos(e.root) <= Lap(0, e.plow, e.tract)
  }

  /** The index after the prunes: sound, mended, and denoting exactly the keys all of whose blocks were sound. */
  ghost predicate Repaired(v: Medium, root: Tree, u: Tree, d: Delta, live: set<nat>) {
    && Sound(u, []) && Once(u) && Mended(v, u) && Leaves(u) == Spared(v, root) && Content(v, u) == SafeMap(v, root)
    && live == Firm(v, root) && d.added == [] && RefsTrue(v, d.removed) && Lbas(d.removed) <= live && Pos(u) == live - Lbas(d.removed)
  }

  /** The walk of the damaged index, the prune of every pointer it reported, the live set of what it found sound, and
      the reap derived from that. */
  method RepairIndex(m: Mirror, t: Tract, root: Tree) returns (hamt: Hamt, live: LiveSet, report: Report)
    requires m.Valid() && t.base + t.len <= |m.disk| && (root.Nil? || Blocks.Committed(root)) && Sound(root, []) && Once(root)
    requires Pos(root) <= Lap(0, t.plow, t.len)
    modifies m`cache, m`uses, t`reap
    ensures fresh(hamt) && fresh(live) && m.Valid() && m.disk == old(m.disk) && hamt.Valid() && t.Valid()
    ensures Repaired(t.View(m), root, hamt.Index(), hamt.delta, live.Positions()) && LiveTrue(t.View(m), live.map_)
    ensures CleanFrom(t.plow, t.reap, t.len, live.Positions())
    ensures Aims(multiset(report.stale) + multiset(report.dangling)) == Lost(t.View(m), root)
    ensures Lost(t.View(m), root) == {} ==> hamt.Index() == root && hamt.delta == Delta([], [])
  {
    hide Told, Pruning, Repaired, Lbas, RefsTrue, Wf, Tr, Sound, Once, Firm, Lost, Pos, Lap, LiveTrue, CleanFrom, Hamts.Hamt.Valid,
         Mirrors.Mirror.Valid;
    ghost var v := t.View(m);
    var walk := new RepairWalk(t.len);
    NoRefs(v);
    ghost var told := WalkRoot(m, t, walk, root);
    report := Report(walk.stale, walk.dangling);
    hamt := PruneReport(m, t, root, report);
    live := new LiveSet();
    live.Load(walk.out, [], v);
    assert live.Positions() == Firm(v, root) && t.View(m) == v;
    FirmBelow(v, root, t.plow, t.len);
    t.reap := DeriveReap(t.plow, t.len, live.Positions());
  }

  /** The index from the root, and every reported pointer unlinked from it. */
  method PruneReport(m: Mirror, t: Tract, root: Tree, report: Report) returns (hamt: Hamt)
    requires m.Valid() && (root.Nil? || Blocks.Committed(root)) && Sound(root, []) && Once(root)
    requires var told := multiset(report.stale) + multiset(report.dangling);
      && Aims(told) == Lost(t.View(m), root) && (if root.Nil? then told == multiset{} else Told(t.View(m), root, 0, NoKey(), told))
    modifies m`cache, m`uses
    ensures fresh(hamt) && m.Valid() && m.disk == old(m.disk) && hamt.Valid()
    ensures Repaired(t.View(m), root, hamt.Index(), hamt.delta, Firm(t.View(m), root))
    ensures Lost(t.View(m), root) == {} ==> hamt.Index() == root && hamt.delta == Delta([], [])
  {
    hide Told, Pruning, Lbas, RefsTrue, Wf, Tr, Sound, Once, Firm, Lost, Pos, Hamts.Hamt.Valid, Mirrors.Mirror.Valid;
    ghost var v := t.View(m);
    ghost var told := multiset(report.stale) + multiset(report.dangling);
    hamt := new Hamt(root);
    NoRefs(v);
    PruningStarts(v, root, told);
    PruneAll(m, t, hamt, report.stale, root, told);
    PruneAll(m, t, hamt, report.dangling, root, told - multiset(report.stale));
    assert told - multiset(report.stale) - multiset(report.dangling) == multiset{};
    Pruned(v, root, hamt.Index(), Lbas(hamt.delta.removed));
    PruningFirm(v, root, hamt.Index(), Lbas(hamt.delta.removed));
    if Lost(v, root) == {} {
      NothingTold(v, root, told, report);
    }
  }

  lemma {:induction false} FirmBelow(v: Medium, root: Tree, plow: nat, len: Positive)
    requires Pos(root) <= Lap(0, plow, len)
    ensures forall p :: p in Firm(v, root) ==> p < len && p in Lap(0, plow, len)
  {
    hide Pos, Firm, Lap;
    FirmPos(v, root);
    LapBelow(Firm(v, root), plow, len);
  }

  /** The repair walk from the root. */
  method WalkRoot(m: Mirror, t: Tract, walk: RepairWalk, root: Tree) returns (ghost told: multiset<Item>)
    requires m.Valid() && t.base + t.len <= |m.disk| && (root.Nil? || Blocks.Committed(root)) && Sound(root, []) && Once(root)
    requires Pos(root) <= Lap(0, t.plow, t.len) && walk.Valid(t.View(m)) && walk.out == [] && walk.stale == [] && walk.dangling == []
    requires walk.visited.Marked() == {}
    modifies walk, walk.visited.bits, m`cache, m`uses
    ensures m.Valid() && m.disk == old(m.disk) && RefsTrue(t.View(m), walk.out)
    ensures multiset(walk.stale) + multiset(walk.dangling) == told && Aims(told) == Lost(t.View(m), root)
    ensures if root.Nil? then told == multiset{} else Told(t.View(m), root, 0, NoKey(), told)
    ensures Lbas(walk.out) == Firm(t.View(m), root)
  {
    hide Lbas, RefsTrue, Sound, Once, Firm, Pos, Lap, Mirrors.Mirror.Valid;
    ghost var v := t.View(m);
    NoRefs(v);
    told := multiset{};
    if root.Nil? {
      NilFirm(v);
    } else {
      var item := Item(root, NoKey(), 0);
      assert item.route[..0] == [];
      RootInside(root, t.plow, t.len);
      var visited;
      visited, told := walk.Visit(m, t, item);
      assert multiset(walk.stale) + multiset(walk.dangling) == told;
    }
  }

  lemma {:induction false} NilFirm(v: Medium)
    ensures Firm(v, Nil) == {} && Lost(v, Nil) == {} && Aims(multiset{}) == {}
  {
  }

  lemma {:induction false} RootInside(root: Tree, plow: nat, len: Positive)
    requires Blocks.Committed(root) && Pos(root) <= Lap(0, plow, len)
    ensures LbaOf(root) < len
  {
    assert LbaOf(root) in Pos(root);
  }

  lemma {:induction false} LapBelow(s: set<nat>, plow: nat, len: Positive)
    requires s <= Lap(0, plow, len)
    ensures forall p :: p in s ==> p < len && p in Lap(0, plow, len)
  {
  }

  lemma {:induction false} PruningFirm(v: Medium, root: Tree, u: Tree, gone: set<nat>)
    requires Pruning(v, root, u, gone, multiset{})
    ensures gone <= Firm(v, root)
  {
  }

  lemma {:induction false} NothingTold(v: Medium, root: Tree, told: multiset<Item>, report: Report)
    requires Aims(told) == {} && told == multiset(report.stale) + multiset(report.dangling)
    ensures report.stale == [] && report.dangling == []
  {
    assert forall x :: x in told ==> x.ptr in Aims(told);
    assert |told| == |report.stale| + |report.dangling|;
  }

  /** A damaged head on settled devices, its ring lasting. */
  ghost predicate Damaged(m: Mirror, ring: Ring, t: Tract, root: Tree)
    reads m, m.a, m.b, ring, t
  {
    && m.Prim() != null && m.Settled() && ring.head.Some? && Spined(m.disk, ring.log2, ring.head.value)
    && ring.head.value.root == root && ring.head.value.tract == t.len && Sound(root, [])
  }

  /** The commit of a repaired index, with the fence waived: the generations a fence would keep are the broken ones.
      Flushed into clean space, applied to the live set, and named by the next entry of the ring. Cut anywhere, it leaves
      the damaged head to be repaired once more, with the same keys safe, or the repaired generation. */
  method RepairCommit(m: Mirror, ring: Ring, t: Tract, hamt: Hamt, live: LiveSet, now: int, ghost root: Tree)
    returns (r: Result<Entry>, ghost e: Entry)
    requires m.Valid() && ring.Valid(m) && ring.head.Some? && t.Valid() && hamt.Valid()
    requires t.base == Pow2(ring.log2) && t.base + t.len <= |m.disk| && t.fence == None
    requires Repaired(t.View(m), root, hamt.Index(), hamt.delta, live.Positions()) && LiveTrue(t.View(m), live.map_)
    requires live.Positions() <= Lap(0, t.plow, t.len)
    modifies hamt, live, ring`head, t`plow, t`fence, m, m.a, m.b
    ensures m.Prim() == old(m.Prim()) && (m.b == old(m.b) || m.b == null)
    ensures r.Err? ==> Down(r.error) || r.error.TractFull?
    ensures r.Ok? ==> m.Valid() && m.Settled() && ring.Valid(m) && ring.head == Some(r.value) && r.value.gen == old(ring.head.value.gen) + 1
    ensures r.Ok? ==> Stands(m.disk, Pow2(ring.log2), Gen(r.value, old(SafeMap(t.View(m), root))))
    ensures r.Ok? && old(Spined(m.disk, ring.log2, ring.head.value)) ==>
      Restores(m.disk, ring.log2, Gen(r.value, old(SafeMap(t.View(m), root))))
    ensures r.Ok? && old(Findable(m.disk, ring.log2)) ==> Findable(m.disk, ring.log2)
    ensures m.Prim() != null && old(m.History()) <= m.History() && (r.Ok? ==> r.value == e)
    ensures old(Damaged(m, ring, t, root)) ==>
      forall i :: |old(m.History())| <= i < |m.History()| ==>
        CutShort(m.History()[i], ring.log2, old(ring.head.value), e, old(SafeMap(t.View(m), root)))
  {
    hide Repaired, RefsTrue, Wf, Tr, Sound, Once, Held, Content, Pos, Lap, LiveTrue, SafeMap, Spined, Stands, Restores, Spared,
         Pow2, SameRing, Findable, Damaged, Mending, Succeeds, CutShort, Devices.Moves,
         Rings.Ring.Valid, Hamts.Hamt.Valid, Mirrors.Mirror.Valid;
    MirrorAlive(m);
    ghost var disk, head, content, damaged := m.disk, ring.head.value, SafeMap(t.View(m), root), Damaged(m, ring, t, root);
    ghost var from := |m.History()|;
    DamagedView(m, ring, t, root);
    assert damaged ==> content == SafeMap(MediumOf(disk, Pow2(ring.log2), head), head.root);
    e := head;
    var flushed := FlushRepaired(m, ring, t, hamt, live, root);
    if flushed.Err? {
      return Err(TractFull), e;
    }
    ghost var durable, staged, drained, u := m.Durable(), m.Staged(), m.disk, hamt.Index();
    if Spined(disk, ring.log2, head) {
      SpinedKept(disk, m.disk, ring.log2, head);
    }
    if Findable(disk, ring.log2) {
      FindableKept(disk, m.disk, ring.log2);
    }
    r, e := WriteRepaired(m, ring, t, live, flushed.value, now, content);
    if damaged {
      MendHistory(m.History(), from, durable, staged, drained, ring.log2, head, u, e);
    }
    if r.Ok? && Spined(m.disk, ring.log2, r.value) {
      RestoresIs(m.disk, ring.log2, Gen(r.value, content));
    }
  }

  lemma {:induction false} DamagedView(m: Mirror, ring: Ring, t: Tract, root: Tree)
    requires t.base == Pow2(ring.log2)
    ensures Damaged(m, ring, t, root) ==>
      && ring.head.value.tract > 0 && MediumOf(m.disk, Pow2(ring.log2), ring.head.value) == t.View(m) && ring.head.value.root == root
  {
    hide Spined, Sound, Pow2;
  }

  lemma {:induction false} RestoresIs(disk: seq<Block>, log2: nat, g: Gen)
    requires Spined(disk, log2, g.entry) && Stands(disk, Pow2(log2), g)
    ensures Restores(disk, log2, g)
  {
  }

  /** The dirty path written and the delta applied: what the live set holds is what the new root references. */
  method FlushRepaired(m: Mirror, ring: Ring, t: Tract, hamt: Hamt, live: LiveSet, ghost root: Tree) returns (r: Result<Tree>)
    requires m.Valid() && ring.Valid(m) && t.Valid() && hamt.Valid()
    requires t.base == Pow2(ring.log2) && t.base + t.len <= |m.disk| && t.fence == None
    requires Repaired(t.View(m), root, hamt.Index(), hamt.delta, live.Positions()) && LiveTrue(t.View(m), live.map_)
    requires live.Positions() <= Lap(0, t.plow, t.len)
    modifies hamt, live, t`plow, m`pending, m`cache, m`disk
    ensures r.Err? ==> r.error.TractFull?
    ensures m.Valid() && t.Valid() && |m.disk| == old(|m.disk|) && ring.Valid(m) && SameRing(old(m.disk), m.disk, Pow2(ring.log2))
    ensures r.Ok? ==> forall e: Entry :: e.root == r.value && e.tract == t.len && e.plow == t.plow ==>
      Stands(m.disk, Pow2(ring.log2), Gen(e, old(SafeMap(t.View(m), root))))
    ensures r.Ok? ==> live.Positions() == Pos(r.value)
    ensures m.Prim() == old(m.Prim()) && m.Prim() != null && m.History() == old(m.History())
    ensures old(Damaged(m, ring, t, root)) ==>
      m.Durable() == old(m.disk) && Mending(m.Durable(), m.Staged(), m.disk, ring.log2, ring.head.value, hamt.Index())
  {
    hide Repaired, RefsTrue, Wf, Tr, Sound, Once, Held, Content, Pos, Lap, Lbas, LiveTrue, Appended, Flushed, Accounted, SafeMap, Stands,
         Damaged, Mending,
         Spared, Home, Poised, Pow2, Overlay, Last, Flat, CacheSorted, CacheTrue, RingOn, Rings.Ring.Valid;
    MirrorAlive(m);
    ghost var v, sv, u, d, L, was := t.View(m), m.Staged(), hamt.Index(), hamt.delta, live.Positions(), t.plow;
    ghost var damaged := Damaged(m, ring, t, root);
    StartsSettled(m, ring, t, root);
    RingShown(ring, m);
    RepairedPoised(v, root, u, d, L, was);
    PoisedHome(v, u, d, L, was, was);
    PoisedParts(v, u, d, L, was, was);
    r := hamt.Flush(m, t, live, was);
    ghost var w := t.View(m);
    AppendedRing(v, w, sv, m.Staged(), was, t.plow);
    RingSame(ring.log2, ring.head, v.disk, m.disk);
    RingShown(ring, m);
    FlushPoised(v, w, sv, m.Staged(), u, hamt.Index(), d, hamt.delta, L, was, was, t.plow);
    if damaged {
      MirrorShows(m);
      PoisedParts(w, hamt.Index(), hamt.delta, L, was, t.plow);
      MendingNow(v, w, m.Staged(), root, u, d, L, hamt.Index(), was, t.plow, ring.log2, ring.head.value);
    }
    if r.Ok? {
      LiveKept(v, w, sv, m.Staged(), was, t.plow, live.map_, L);
      RepairedStands(w, hamt.Index(), hamt.delta, L, was, t.plow, old(SafeMap(t.View(m), root)));
      PoisedRefs(w, hamt.Index(), hamt.delta, L, was, t.plow);
      var delta := hamt.TakeDelta();
      live.Apply(delta, w);
    }
  }

  lemma {:induction false} StartsSettled(m: Mirror, ring: Ring, t: Tract, root: Tree)
    requires m.Valid() && t.base == Pow2(ring.log2)
    ensures Damaged(m, ring, t, root) ==>
      && m.Durable() == m.disk && m.Staged() == map[] && ring.head.Some? && Spined(m.disk, ring.log2, ring.head.value)
      && ring.head.value.root == root && ring.head.value.tract == t.len && Sound(root, [])
  {
    hide Spined, Sound, Pow2;
    if Damaged(m, ring, t, root) {
      Vaults.Settles(m);
    }
  }

  lemma {:induction false} MirrorShows(m: Mirror)
    requires m.Valid()
    ensures m.disk == Overlay(m.Durable(), m.Staged())
  {
  }

  /** What a flush of the mended index leaves staged is that index's own, off everything firm. */
  lemma {:induction false} MendingNow(v: Medium, w: Medium, sw: map<nat, Block>, root: Tree, u: Tree, d: Delta, live: set<nat>, flushed: Tree,
                                      from: nat, to: nat, log2: nat, head: Entry)
    requires Repaired(v, root, u, d, live) && Appended(v, w, map[], sw, from, to) && Lap(from, to, v.len) !! live
    requires Flushed(u, flushed, [], from, to, v.len) && Held(w, flushed) && w.disk == Overlay(v.disk, sw)
    requires v.base == Pow2(log2) && v.base + v.len <= |v.disk| && Spined(v.disk, log2, head) && head.root == root && head.tract == v.len
    requires Sound(root, [])
    ensures Mending(v.disk, sw, w.disk, log2, head, flushed)
  {
    assert MediumOf(v.disk, Pow2(log2), head) == v;
    FlushedLeaves(u, flushed, from, to, v.len);
    RepairedSpares(v, root, u, d, live);
    hide Repaired, Flushed, Appended, Held, Lap, Firm, Spared, Leaves, Spined, Sound, Overlay, Roles, Pow2, Pos;
    AppendedOff(v, w, map[], sw, from, to, live);
    StagedRoles(v, w, sw, from, to, flushed);
  }

  lemma {:induction false} RepairedSpares(v: Medium, root: Tree, u: Tree, d: Delta, live: set<nat>)
    requires Repaired(v, root, u, d, live)
    ensures Leaves(u) == Spared(v, root) && live == Firm(v, root)
  {
  }

  lemma {:induction false} FlushedLeaves(t: Tree, u: Tree, from: nat, to: nat, len: Positive)
    requires Flushed(t, u, [], from, to, len)
    ensures Leaves(u) == Leaves(t) && Lap(from, to, len) <= Pos(u)
  {
    hide Leaves, Pos, Lap, Sound, Once;
    PlacedLeaves(t, u);
  }

  lemma {:induction false} PlacedLeaves(t: Tree, u: Tree)
    requires Placed(t, u)
    ensures Leaves(u) == Leaves(t)
    decreases t
  {
    if IsDirty(t) {
      forall c | 0 <= c < |t.kids|
        ensures Leaves(u.kids[c]) == Leaves(t.kids[c])
      {
        PlacedLeaves(t.kids[c], u.kids[c]);
      }
    }
  }

  lemma {:induction false} StagedRoles(v: Medium, w: Medium, sw: map<nat, Block>, from: nat, to: nat, u: Tree)
    requires Appended(v, w, map[], sw, from, to) && w.disk == Overlay(v.disk, sw) && v.base + v.len <= |v.disk|
    requires Held(w, u) && Lap(from, to, v.len) <= Pos(u)
    ensures Roles(sw, v.base, u)
  {
    hide Held, Lap, Pos, Moves.RoleFits;
    forall p | p in sw
      ensures p >= v.base && sw[p].Sealed? && Moves.RoleFits(u, p - v.base, sw[p].doc)
    {
      var x :| from <= x < to && p == Spot(v.base, v.len, x);
      WrittenLap(v.base, v.len, from, to, p - v.base);
      Moves.RoleOf(w, u, p - v.base);
    }
  }

  lemma {:induction false} RepairedPoised(v: Medium, root: Tree, u: Tree, d: Delta, live: set<nat>, plow: nat)
    requires Repaired(v, root, u, d, live)
    ensures Poised(v, u, d, live, plow, plow) && Content(v, u) == SafeMap(v, root)
  {
    hide Sound, Once, Held, Leaves, Spared, Firm, Pos, Content, SafeMap;
    MendedHeld(v, u);
    NoRefs(v);
  }

  lemma {:induction false} PoisedRefs(v: Medium, t: Tree, d: Delta, live: set<nat>, since: nat, plow: nat)
    requires Poised(v, t, d, live, since, plow)
    ensures RefsTrue(v, d.added) && RefsTrue(v, d.removed) && Pos(t) == live + Lbas(d.added) - Lbas(d.removed)
  {
  }

  ghost predicate RingOn(log2: nat, head: Option<Entry>, disk: seq<Block>) {
    && 0 < log2 <= 32 && Pow2(log2) <= |disk|
    && (head.Some? ==> var h := head.value;
        Chained(h) && h.ringLog2 == log2 && RingHolds(disk, log2, h) && SlotAt(disk, log2, h.gen % Pow2(log2)) == Classified.Valid(h))
    && (head.None? ==> forall s :: 0 <= s < Pow2(log2) ==> disk[s].Zero?)
  }

  lemma {:induction false} RingShown(ring: Ring, m: Mirror)
    ensures ring.Valid(m) <==> RingOn(ring.log2, ring.head, m.disk)
  {
    hide Chained, Classify, Pow2, RingHolds;
  }

  /** A ring's validity lies in its slots. */
  lemma {:induction false} RingSame(log2: nat, head: Option<Entry>, disk: seq<Block>, after: seq<Block>)
    requires RingOn(log2, head, disk) && SameRing(disk, after, Pow2(log2))
    ensures RingOn(log2, head, after)
  {
    hide Chained, Classify, Pow2;
    if head.Some? {
      forall s | 0 <= s < Pow2(log2)
        ensures SlotHolds(after, log2, head.value, s)
      {
        assert SlotHolds(disk, log2, head.value, s) && after[s] == disk[s];
      }
    }
  }

  /** What a flushed, repaired index makes of an entry that names it. */
  lemma {:induction false} RepairedStands(w: Medium, u: Tree, d: Delta, live: set<nat>, since: nat, plow: nat, content: map<Key, Stored>)
    requires Poised(w, u, d, live, since, plow) && live <= Lap(0, since, w.len) && since <= plow
    requires (u.Nil? || Blocks.Committed(u)) && Content(w, u) == content && w.base + w.len <= |w.disk|
    ensures forall e: Entry :: e.root == u && e.tract == w.len && e.plow == plow ==> Stands(w.disk, w.base, Gen(e, content))
  {
    LapSplit(0, since, plow, w.len);
    hide Sound, Once, Held, Content, Lap, Lbas, RefsTrue;
    forall e: Entry | e.root == u && e.tract == w.len && e.plow == plow
      ensures Stands(w.disk, w.base, Gen(e, content))
    {
      assert MediumOf(w.disk, w.base, e) == w;
    }
  }

  lemma {:induction false} EntryKeeps(disk: seq<Block>, after: seq<Block>, log2: nat, head: Entry, e: Entry, content: map<Key, Stored>)
    requires Succeeds(e, log2, head) && Stands(disk, Pow2(log2), Gen(e, content)) && e.gen % Pow2(log2) < Pow2(log2) <= |disk|
    requires after == disk[e.gen % Pow2(log2) := Spine(e)]
    ensures Stands(after, Pow2(log2), Gen(e, content))
    ensures Spined(disk, log2, head) ==> Spined(after, log2, e)
    ensures Findable(disk, log2) ==> Findable(after, log2)
  {
    hide Spined, Stands, Pow2, Findable, Geometry;
    SlotStands(disk, Pow2(log2), e.gen % Pow2(log2), Spine(e), Gen(e, content));
    if Spined(disk, log2, head) {
      SpinedNext(disk, after, log2, head, e);
    }
    if Findable(disk, log2) {
      FindableNext(disk, after, log2, e);
    }
  }

  /** The next entry, and the fence its ring gives. */
  method WriteRepaired(m: Mirror, ring: Ring, t: Tract, live: LiveSet, root: Tree, now: int, ghost content: map<Key, Stored>)
    returns (r: Result<Entry>, ghost next: Entry)
    requires m.Valid() && ring.Valid(m) && ring.head.Some? && t.Valid()
    requires forall e: Entry :: e.root == root && e.tract == t.len && e.plow == t.plow ==> Stands(m.disk, Pow2(ring.log2), Gen(e, content))
    modifies ring`head, t`fence, m, m.a, m.b
    ensures m.Prim() == old(m.Prim()) && (m.b == old(m.b) || m.b == null)
    ensures r.Err? ==> Down(r.error)
    ensures r.Ok? ==> m.Valid() && m.Settled() && ring.Valid(m) && ring.head == Some(r.value)
    ensures r.Ok? ==> r.value.gen == old(ring.head.value.gen) + 1 && Stands(m.disk, Pow2(ring.log2), Gen(r.value, content))
    ensures r.Ok? && old(Spined(m.disk, ring.log2, ring.head.value)) ==> Spined(m.disk, ring.log2, r.value)
    ensures r.Ok? && old(Findable(m.disk, ring.log2)) ==> Findable(m.disk, ring.log2)
    ensures m.Prim() != null && old(m.History()) <= m.History() && (r.Ok? ==> r.value == next)
    ensures Succeeds(next, ring.log2, old(ring.head.value)) && next.gen % Pow2(ring.log2) < Pow2(ring.log2) <= |old(m.disk)|
    ensures Stands(old(m.disk), Pow2(ring.log2), Gen(next, content))
    ensures forall i :: |old(m.History())| <= i < |m.History()| ==>
      Devices.Moves(m.History()[i], old(m.Durable()), old(m.Staged()))
      || Devices.Moves(m.History()[i], old(m.disk), map[next.gen % Pow2(ring.log2) := Spine(next)])
  {
    hide RingHolds, Chained, Classify, Spined, Stands, Pow2, Budgets, Devices.Moves, Findable, Mirrors.Mirror.Valid;
    MirrorAlive(m);
    ghost var disk := m.disk;
    var head := ring.head.value;
    var e := Entry(head.gen + 1, Prev(head), ring.log2, t.len, root, t.plow, Some(t.reap), live.Count(), now);
    next := e;
    var wrote := ring.Append(m, e);
    if wrote.Err? {
      return Err(wrote.error), next;
    }
    EntryKeeps(disk, m.disk, ring.log2, head, e, content);
    var budgets := ring.RecentFences(m);
    t.fence := FenceFrom(budgets);
    return Ok(e), next;
  }

  /** The salvage open: the ring found, its head's index walked and pruned, and the repaired index committed over a waived
      fence. Afterwards the ring ends at a generation holding exactly the keys all of whose blocks were sound; a strict open
      loads it. Over a lasting ring, every cut meanwhile leaves the damaged head to be repaired once more, with the same
      keys safe, or the repaired generation. */
  method OpenRepairing(m: Mirror, now: int, ghost log2: nat, ghost head: Entry) returns (r: Result<Entry>, report: Report, ghost e: Entry)
    requires m.Valid() && Headed(m.disk, log2, head) && Wrote(head) && Pow2(log2) + head.tract <= |m.disk|
    modifies m, m.a, m.b
    ensures var v := old(MediumOf(m.disk, Pow2(log2), head));
      && Aims(multiset(report.stale) + multiset(report.dangling)) == Lost(v, head.root)
      && (r.Ok? ==> m.Valid() && m.Settled() && r.value.gen == head.gen + 1 && Headed(m.disk, log2, r.value))
      && (r.Ok? ==> Stands(m.disk, Pow2(log2), Gen(r.value, SafeMap(v, head.root))))
      && (r.Ok? && old(Spined(m.disk, log2, head)) ==> Restores(m.disk, log2, Gen(r.value, SafeMap(v, head.root))))
      && m.Prim() != null && old(m.History()) <= m.History() && (r.Ok? ==> r.value == e)
      && (old(m.Settled() && Spined(m.disk, log2, head)) ==>
          forall i :: |old(m.History())| <= i < |m.History()| ==> CutShort(m.History()[i], log2, head, e, SafeMap(v, head.root)))
    ensures m.Prim() == old(m.Prim()) && (m.b == old(m.b) || m.b == null)
    ensures r.Err? ==> Down(r.error) || r.error.TractFull?
  {
    hide RingHolds, Chained, Classify, Sound, Once, Pos, Lap, LiveTrue, Repaired, CleanFrom, SafeMap, Restores, Lost, Spared, Spined, Says,
         SaysRing, Pow2, Firm, RingOn, Findable, Stands, CutShort, Mirrors.Mirror.Valid, Rings.Ring.Valid, Hamts.Hamt.Valid;
    MirrorAlive(m);
    FindableSays(m.disk, log2);
    var found := Bootstrap(m);
    var ring := OpenRing(m, found.value, head);
    var n := ring.Slots();
    var t := new Tract(n, ring.head.value.tract, ring.head.value.plow, 0, None);
    ghost var v := t.View(m);
    assert v == MediumOf(m.disk, Pow2(log2), head);
    RingShown(ring, m);
    var hamt, live;
    hamt, live, report := RepairIndex(m, t, ring.head.value.root);
    RingShown(ring, m);
    RepairedLive(v, head.root, hamt.Index(), hamt.delta, live.Positions());
    r, e := RepairCommit(m, ring, t, hamt, live, now, head.root);
    if r.Ok? {
      StillHeaded(m, ring, r.value);
    }
  }

  lemma {:induction false} StillHeaded(m: Mirror, ring: Ring, e: Entry)
    requires ring.Valid(m) && ring.head == Some(e) && Findable(m.disk, ring.log2)
    ensures Headed(m.disk, ring.log2, e)
  {
    hide RingHolds, Chained, Classify, Findable, Pow2;
  }

  lemma {:induction false} RepairedLive(v: Medium, root: Tree, u: Tree, d: Delta, live: set<nat>)
    requires Repaired(v, root, u, d, live)
    ensures live <= Pos(root)
  {
    FirmPos(v, root);
  }

  /** The strict open accepts what the repair committed, and every key whose blocks were sound has its value. */
  method RepairThenOpen(m: Mirror, now: int, ghost log2: nat, ghost head: Entry) returns (r: Result<Vault>)
    requires m.Valid() && Spined(m.disk, log2, head) && Wrote(head) && Pow2(log2) + head.tract <= |m.disk|
    modifies m, m.a, m.b
    ensures r.Err? ==> Down(r.error) || r.error.TractFull?
    ensures r.Ok? ==> fresh(r.value) && r.value.Valid() && r.value.Current() == old(SafeMap(MediumOf(m.disk, Pow2(log2), head), head.root))
  {
    hide SafeMap, Restores, Lost, Spared, Spined, Pow2, Moved, Deepens, OpenWatch, Vault.Valid, Vault.Current, Vault.Traced, Mirrors.Mirror.Valid;
    SpinedHeaded(m.disk, log2, head);
    ghost var content := SafeMap(MediumOf(m.disk, Pow2(log2), head), head.root);
    var repaired, _, _ := OpenRepairing(m, now, log2, head);
    if repaired.Err? {
      return Err(repaired.error);
    }
    LoneLog(m.disk, log2, Gen(repaired.value, content));
    ghost var t;
    r, t := Open(m, log2, [Gen(repaired.value, content)], 0);
  }

  /** A repair cut anywhere and begun again, as often as it takes: what opens in the end reads as every key whose blocks
      were sound when the first repair began. */
  method CutAndRepair(img: seq<Block>, now: int, ghost mo: Moment, ghost log2: nat, ghost head: Entry, ghost e: Entry,
                      ghost content: map<Key, Stored>)
    returns (r: Result<Vault>)
    requires CutShort(mo, log2, head, e, content) && Image(mo, img) && Wrote(head)
    ensures r.Err? ==> Down(r.error) || r.error.TractFull?
    ensures r.Ok? ==> fresh(r.value) && r.value.Valid() && r.value.Current() == content
  {
    hide Image, Restores, SafeMap, Spined, Wrote, Pow2, Vault.Valid, Vault.Current, Mirrors.Mirror.Valid;
    var dev := new Device.Powered(img);
    var m := new Mirror(dev, null);
    assert m.Prim() == dev && m.disk == img;
    assert Recoverable(img, log2, head, e, content);
    if !Again(img, log2, head, content) {
      StandsWrote(img, log2, e, content);
    }
    r := RepairThenOpen(m, now, log2, if Again(img, log2, head, content) then head else e);
  }

  /** A generation that stands is one a commit wrote, and all of its keys are safe. */
  lemma {:induction false} StandsWrote(img: seq<Block>, log2: nat, e: Entry, content: map<Key, Stored>)
    requires Restores(img, log2, Gen(e, content))
    ensures Spined(img, log2, e) && Wrote(e) && Pow2(log2) + e.tract <= |img| && e.tract > 0
    ensures SafeMap(MediumOf(img, Pow2(log2), e), e.root) == content
  {
    RestoresFits(img, log2, Gen(e, content));
    hide Restores, Spined, Sound, Once, Held, Content, SafeMap, Pos, Lap, Pow2;
    HealthyMap(MediumOf(img, Pow2(log2), e), e.root);
  }
}
