/** Mirror resync: the device whose ring holds the higher generation wins, and the other is brought to its ring and to
    every block its committed head reaches, block by block, writing only what differs. */
module Replicas {
  import opened Blocks
  import opened Runs
  import opened Trie
  import opened Media
  import opened Devices
  import opened Mirrors
  import opened Tracts
  import opened Hamts
  import opened Rings
  import opened Walks
  import opened Generations
  import opened Sessions
  import opened Barriers
  import opened Vaults

  /** Blocks compared by one read a side, and copied by one batch. */
  const COPY_STEP: Positive

  datatype Replicated = Replicated(spine: nat, tract: nat)

  // ---------------------------------------------------------------- one device's best generation

  ghost function Top(store: seq<Block>, log2: nat): Option<Entry> {
    Newest(store, log2, 0, Min(|store|, Pow2(log2)))
  }

  /** No generation is below every generation. */
  function Rank(e: Option<Entry>): int {
    if e.None? then -1 else e.value.gen
  }

  /** The newest entry of a ring by looking at every slot, and the slot it was found in. */
  method BestGen(dev: Device, n: nat, log2: nat) returns (best: Option<nat>, slot: nat)
    requires n == Pow2(log2)
    ensures var top := Top(dev.store, log2);
      && best == (if top.Some? then Some(top.value.gen) else None)
      && (top.Some? ==> slot < n && slot < |dev.store| && SlotAt(dev.store, log2, slot) == Classified.Valid(top.value))
  {
    hide Classify, Pow2;
    var count := Min(|dev.store|, n);
    ghost var top: Option<Entry> := None;
    best, slot := None, 0;
    for s := 0 to count
      invariant top == Newest(dev.store, log2, 0, s)
      invariant best == (if top.Some? then Some(top.value.gen) else None)
      invariant top.Some? ==> slot < s && SlotAt(dev.store, log2, slot) == Classified.Valid(top.value)
    {
      var got := dev.Read(s);
      var class_ := Classify(got.value, s, Some(log2));
      if class_.Valid? && (best.None? || class_.entry.gen > best.value) {
        best, slot := Some(class_.entry.gen), s;
        top := Some(class_.entry);
      }
    }
  }

  // ---------------------------------------------------------------- writing one side

  /** What is true of a device between verified writes. */
  ghost predicate Ready(dev: Device)
    reads dev
  {
    dev.Valid() && dev.Flushed()
  }

  lemma {:induction false} ReadyNow(dev: Device, dest: map<nat, Block>)
    requires Ready(dev)
    ensures dev.Now(dev.store, dest)
  {
  }

  /** One block, verified. */
  method CopyOne(dev: Device, lba: nat, b: Block) returns (r: Result<()>)
    requires Ready(dev) && lba < |dev.store|
    modifies dev
    ensures r.Err? ==> Down(r.error)
    ensures r.Ok? ==> Ready(dev) && dev.store == old(dev.store)[lba := b]
  {
    ReadyNow(dev, map[lba := b]);
    r := WriteOne(dev, lba, b, dev.store, map[lba := b]);
  }

  /** A batch made to hold on one device: all written, then compared after a single flush, the unequal tried again one by one. */
  method CopyBatch(dev: Device, blocks: seq<Write>) returns (r: Result<nat>)
    requires Ready(dev) && Strict(blocks)
    modifies dev
    ensures r.Err? ==> Down(r.error)
    ensures r.Ok? ==> Ready(dev) && dev.store == Overlay(old(dev.store), Last(blocks)) && r.value == |blocks|
  {
    if blocks == [] {
      assert Overlay(dev.store, Last([])) == dev.store;
      return Ok(0);
    }
    ghost var base, dest := dev.store, Last(blocks);
    ReadyNow(dev, dest);
    forall k | 0 <= k < |blocks|
      ensures blocks[k].lba in dest && dest[blocks[k].lba] == blocks[k].block
    {
      StrictLast(blocks, k);
    }
    for k := 0 to |blocks|
      invariant dev.Now(base, dest) && |dev.store| == |base|
    {
      var _ :- dev.Put(blocks[k].lba, blocks[k].block, base, dest);
    }
    var _ :- dev.Flush(base, dest);
    for k := 0 to |blocks|
      invariant dev.Now(base, dest) && |dev.store| == |base| && dev.Flushed()
      invariant forall j :: 0 <= j < k ==> blocks[j].lba < |dev.store| && dev.store[blocks[j].lba] == blocks[j].block
    {
      var got := dev.Read(blocks[k].lba);
      if got != Ok(blocks[k].block) {
        var _ :- WriteOne(dev, blocks[k].lba, blocks[k].block, base, dest);
      }
    }
    forall i | 0 <= i < |base|
      ensures dev.store[i] == Overlay(base, dest)[i]
    {
      LastIn(blocks, i);
      assert Between(base, dest, i, dev.store[i]);
    }
    return Ok(|blocks|);
  }

  // ---------------------------------------------------------------- what a pass leaves

  /** The same blocks in the ring. */
  ghost predicate SameSlots(x: seq<Block>, y: seq<Block>, n: nat) {
    n <= |x| && n <= |y| && forall s :: 0 <= s < n ==> y[s] == x[s]
  }

  /** The same blocks at the tract positions `live`. */
  ghost predicate SameLive(x: seq<Block>, y: seq<Block>, base: nat, live: set<nat>) {
    forall p :: p in live ==> base + p < |x| && base + p < |y| && y[base + p] == x[base + p]
  }

  /** A device brought to another's ring and live blocks loads what that one loads. */
  lemma {:induction false} SyncedLoads(src: seq<Block>, dst: seq<Block>, log2: nat, g: Gen)
    requires Loads(src, log2, g) && |src| <= |dst|
    requires SameSlots(src, dst, Pow2(log2)) && SameLive(src, dst, Pow2(log2), Pos(g.entry.root))
    ensures Loads(dst, log2, g)
  {
    hide Headed, Stands, Pow2, Pos;
    HeadedKept(src, dst, log2, g.entry);
    StandsKept(src, dst, Pow2(log2), g);
  }

  /** And restores what that one restores. */
  lemma {:induction false} SyncedRestores(src: seq<Block>, dst: seq<Block>, log2: nat, g: Gen)
    requires Restores(src, log2, g) && |src| <= |dst|
    requires SameSlots(src, dst, Pow2(log2)) && SameLive(src, dst, Pow2(log2), Pos(g.entry.root))
    ensures Restores(dst, log2, g)
  {
    hide Spined, Stands, Pow2, Pos;
    SpinedKept(src, dst, log2, g.entry);
    StandsKept(src, dst, Pow2(log2), g);
  }

  // ---------------------------------------------------------------- the spine

  /** The ring of `dst` made equal to that of `src`; says how many slots were not. */
  method CopySpine(src: Device, dst: Device, n: nat) returns (r: Result<nat>)
    requires src != dst && Ready(dst) && n <= |src.store| && n <= |dst.store|
    modifies dst
    ensures r.Err? ==> Down(r.error)
    ensures r.Ok? ==> Ready(dst) && SameSlots(src.store, dst.store, n) && |dst.store| == old(|dst.store|)
    ensures r.Ok? ==> forall q :: n <= q < |dst.store| ==> dst.store[q] == old(dst.store[q])
    ensures r.Ok? ==> r.value == |set s | 0 <= s < n && old(dst.store)[s] != src.store[s]|
  {
    var copied := 0;
    ghost var was := dst.store;
    ghost var differ: set<nat> := {};
    for s := 0 to n
      invariant Ready(dst) && |dst.store| == |was| && SameSlots(src.store, dst.store, s)
      invariant forall q :: s <= q < |was| ==> dst.store[q] == was[q]
      invariant differ == (set x | 0 <= x < s && was[x] != src.store[x]) && copied == |differ|
    {
      var from := src.Read(s);
      var to := dst.Read(s);
      if from.value != to.value {
        var _ :- CopyOne(dst, s, from.value);
        copied := copied + 1;
        differ := differ + {s};
      }
    }
    return Ok(copied);
  }

  // ---------------------------------------------------------------- the tract

  ghost predicate Ascends(ps: seq<nat>) {
    forall i, j :: 0 <= i < j < |ps| ==> ps[i] < ps[j]
  }

  /** Sorted, each position once. */
  method SortUnique(ps: seq<nat>) returns (sorted: seq<nat>)
    ensures Ascends(sorted) && Elems(sorted) == Elems(ps)
  {
    sorted := [];
    for i := 0 to |ps|
      invariant Ascends(sorted) && Elems(sorted) == Elems(ps[..i])
    {
      assert ps[..i + 1] == ps[..i] + [ps[i]];
      ElemsAppend(ps[..i], ps[i]);
      sorted := Insert(sorted, ps[i]);
    }
    assert ps[..|ps|] == ps;
  }

  method Insert(sorted: seq<nat>, p: nat) returns (after: seq<nat>)
    requires Ascends(sorted)
    ensures Ascends(after) && Elems(after) == Elems(sorted) + {p}
  {
    var k := 0;
    while k < |sorted| && sorted[k] < p
      invariant k <= |sorted| && forall j :: 0 <= j < k ==> sorted[j] < p
    {
      k := k + 1;
    }
    if k < |sorted| && sorted[k] == p {
      return sorted;
    }
    after := sorted[..k] + [p] + sorted[k..];
    forall x | x in Elems(sorted) + {p}
      ensures x in Elems(after)
    {
      assert after[k] == p;
      if x in Elems(sorted) {
        var j :| 0 <= j < |sorted| && sorted[j] == x;
        assert after[if j < k then j else j + 1] == x;
      }
    }
  }

  /** `was` with the blocks of `live` that are sealed at the source copied over. */
  ghost function Patched(was: seq<Block>, src: seq<Block>, base: nat, live: set<nat>): (s: seq<Block>)
    ensures |s| == |was|
  {
    seq(|was|, q requires 0 <= q < |was| =>
      if base <= q && q - base in live && q < |src| && IsSealed(src[q]) then src[q] else was[q])
  }

  /** Live positions whose blocks differ and are sealed at the source. */
  ghost function Differ(was: seq<Block>, src: seq<Block>, base: nat, live: set<nat>): set<nat> {
    set p | p in live && base + p < |was| && base + p < |src| && IsSealed(src[base + p]) && was[base + p] != src[base + p]
  }

  /** Midway through the compare: what was batched so far, over what the device holds, is the patch of the positions
      gone by, and every batched position lies behind. */
  ghost predicate Midway(was: seq<Block>, src: seq<Block>, now: seq<Block>, base: nat, live: seq<nat>, n: nat, fix: seq<Write>) {
    && n <= |live| && Ascends(live) && |now| == |was| && (forall j :: 0 <= j < |live| ==> base + live[j] < |was| && base + live[j] < |src|)
    && Overlay(now, Last(fix)) == Patched(was, src, base, Elems(live[..n]))
    && Strict(fix) && forall k, j :: 0 <= k < |fix| && n <= j < |live| ==> fix[k].lba < base + live[j]
  }

  lemma {:induction false} NextElems(live: seq<nat>, n: nat)
    requires Ascends(live) && n < |live|
    ensures Elems(live[..n + 1]) == Elems(live[..n]) + {live[n]} && live[n] !in Elems(live[..n])
  {
    assert live[..n + 1] == live[..n] + [live[n]];
    ElemsAppend(live[..n], live[n]);
  }

  /** One more position in the patch. */
  lemma {:induction false} PatchNext(was: seq<Block>, src: seq<Block>, base: nat, done: set<nat>, p: nat)
    requires base + p < |was| && base + p < |src| && p !in done
    ensures var at := base + p; var before, after := Patched(was, src, base, done), Patched(was, src, base, done + {p});
      && before[at] == was[at]
      && after == (if src[at] != was[at] && IsSealed(src[at]) then before[at := src[at]] else before)
      && Differ(was, src, base, done + {p}) == Differ(was, src, base, done) + (if src[at] != was[at] && IsSealed(src[at]) then {p} else {})
      && p !in Differ(was, src, base, done)
  {
  }

  /** A block at a position no write of the batch touches, appended to it. */
  lemma {:induction false} BatchNext(now: seq<Block>, fix: seq<Write>, w: Write)
    requires Strict(fix) && w.lba < |now| && forall k :: 0 <= k < |fix| ==> fix[k].lba < w.lba
    ensures Overlay(now, Last(fix))[w.lba] == now[w.lba]
    ensures Overlay(now, Last(fix + [w])) == Overlay(now, Last(fix))[w.lba := w.block] && Strict(fix + [w])
  {
    LastIn(fix, w.lba);
    LastAppend(fix, w);
  }

  lemma {:induction false} MidwayNext(was: seq<Block>, src: seq<Block>, now: seq<Block>, base: nat, live: seq<nat>, n: nat, fix: seq<Write>)
    requires Midway(was, src, now, base, live, n, fix) && n < |live|
    ensures var at := base + live[n];
      && now[at] == was[at]
      && (if src[at] != was[at] && IsSealed(src[at])
          then Midway(was, src, now, base, live, n + 1, fix + [Write(at, src[at])])
               && Differ(was, src, base, Elems(live[..n + 1])) == Differ(was, src, base, Elems(live[..n])) + {live[n]}
               && live[n] !in Differ(was, src, base, Elems(live[..n]))
          else Midway(was, src, now, base, live, n + 1, fix)
               && Differ(was, src, base, Elems(live[..n + 1])) == Differ(was, src, base, Elems(live[..n])))
  {
    hide Overlay, Patched, Differ, Elems, Last;
    var at := base + live[n];
    NextElems(live, n);
    PatchNext(was, src, base, Elems(live[..n]), live[n]);
    BatchNext(now, fix, Write(at, src[at]));
  }

  lemma {:induction false} MidwayDrained(was: seq<Block>, src: seq<Block>, now: seq<Block>, base: nat, live: seq<nat>, n: nat, fix: seq<Write>)
    requires Midway(was, src, now, base, live, n, fix)
    ensures Midway(was, src, Overlay(now, Last(fix)), base, live, n, [])
  {
    assert Overlay(Overlay(now, Last(fix)), Last([])) == Overlay(now, Last(fix));
  }

  /** A run of consecutive positions read on both sides; the blocks to copy are batched. */
  method CompareRun(src: Device, dst: Device, base: nat, live: seq<nat>, start: nat, n: nat, fix: seq<Write>, ghost was: seq<Block>)
    returns (more: seq<Write>)
    requires start + n <= |live| && n > 0 && Midway(was, src.store, dst.store, base, live, start, fix)
    requires forall j :: start <= j < start + n ==> live[j] == live[start] + (j - start)
    ensures Midway(was, src.store, dst.store, base, live, start + n, more)
    ensures |more| - |fix| + |Differ(was, src.store, base, Elems(live[..start]))| == |Differ(was, src.store, base, Elems(live[..start + n]))|
  {
    hide Midway, Differ;
    var at := base + live[start];
    more := fix;
    for k := 0 to n
      invariant Midway(was, src.store, dst.store, base, live, start + k, more)
      invariant |more| - |fix| + |Differ(was, src.store, base, Elems(live[..start]))| == |Differ(was, src.store, base, Elems(live[..start + k]))|
    {
      assert live[start + k] == live[start] + k;
      MidwayNext(was, src.store, dst.store, base, live, start + k, more);
      MidwayFits(was, src.store, dst.store, base, live, start + k, more);
      var from := src.Read(at + k);
      var to := dst.Read(at + k);
      if from.value != to.value && IsSealed(from.value) {
        more := more + [Write(at + k, from.value)];
      }
    }
  }

  lemma {:induction false} MidwayFits(was: seq<Block>, src: seq<Block>, now: seq<Block>, base: nat, live: seq<nat>, n: nat, fix: seq<Write>)
    requires Midway(was, src, now, base, live, n, fix)
    ensures |now| == |was| && Strict(fix) && n <= |live|
    ensures n < |live| ==> base + live[n] < |was| && base + live[n] < |src|
  {
  }

  /** The live blocks of `dst` made equal to those of `src` where these are sealed; says how many were copied. */
  method CopyTract(src: Device, dst: Device, base: nat, live: seq<nat>) returns (r: Result<nat>)
    requires src != dst && Ready(dst) && Ascends(live)
    requires forall j :: 0 <= j < |live| ==> base + live[j] < |src.store| && base + live[j] < |dst.store|
    modifies dst
    ensures r.Err? ==> Down(r.error)
    ensures r.Ok? ==> Ready(dst) && dst.store == Patched(old(dst.store), src.store, base, Elems(live))
    ensures r.Ok? ==> r.value == |Differ(old(dst.store), src.store, base, Elems(live))|
  {
    hide Midway, Differ, Strict;
    ghost var was := dst.store;
    var fix: seq<Write> := [];
    var copied, start := 0, 0;
    MidwayStarts(was, src.store, base, live);
    for i := 1 to |live| + 1
      invariant Ready(dst) && start < i && (start <= |live|) && (i == |live| + 1 ==> start == |live|)
      invariant forall k :: start <= k < i && k < |live| ==> live[k] == live[start] + (k - start)
      invariant Midway(was, src.store, dst.store, base, live, start, fix)
      invariant copied + |fix| == |Differ(was, src.store, base, Elems(live[..start]))|
    {
      if live == [] || (i < |live| && live[i] == live[i - 1] + 1 && i - start < COPY_STEP) {
        continue;
      }
      fix := CompareRun(src, dst, base, live, start, i - start, fix, was);
      MidwayFits(was, src.store, dst.store, base, live, i, fix);
      if |fix| >= COPY_STEP {
        MidwayDrained(was, src.store, dst.store, base, live, i, fix);
        var n :- CopyBatch(dst, fix);
        copied := copied + n;
        fix := [];
      }
      start := i;
    }
    assert live[..|live|] == live;
    MidwayFits(was, src.store, dst.store, base, live, |live|, fix);
    MidwayEnds(was, src.store, dst.store, base, live, fix);
    var n :- CopyBatch(dst, fix);
    return Ok(copied + n);
  }

  lemma {:induction false} MidwayStarts(was: seq<Block>, src: seq<Block>, base: nat, live: seq<nat>)
    requires Ascends(live) && forall j :: 0 <= j < |live| ==> base + live[j] < |was| && base + live[j] < |src|
    ensures Midway(was, src, was, base, live, 0, []) && Differ(was, src, base, Elems(live[..0])) == {}
  {
    assert Elems(live[..0]) == {};
    assert Overlay(was, Last([])) == was == Patched(was, src, base, {});
  }

  lemma {:induction false} MidwayEnds(was: seq<Block>, src: seq<Block>, now: seq<Block>, base: nat, live: seq<nat>, fix: seq<Write>)
    requires Midway(was, src, now, base, live, |live|, fix)
    ensures Overlay(now, Last(fix)) == Patched(was, src, base, Elems(live))
  {
    assert live[..|live|] == live;
  }

  // ---------------------------------------------------------------- the pass

  /** The positions of the winner's committed live set, ascending: the index walked from the device, unread furrows by
      position. */
  method LivePositions(src: Device, log2: nat, ghost g: Gen) returns (live: seq<nat>)
    requires Ready(src) && Loads(src.store, log2, g)
    ensures Ascends(live) && Elems(live) == Pos(g.entry.root)
    ensures forall j :: 0 <= j < |live| ==> Pow2(log2) + live[j] < |src.store|
  {
    hide Sound, Once, Held, Content, Pos, Lap, RingHolds, Chained, Classify, Healthy, RefsTrue, Reached, Under, Apart, Lbas, Elems, Ascends,
         Headed, Stands, Mirrors.Mirror.Valid;
    var m := new Mirror(src, null);
    assert m.Prim() == src && m.disk == src.store;
    LoadsFits(m.disk, log2, g);
    StandsWalk(m.disk, Pow2(log2), g);
    var ring := OpenRing(m, log2, g.entry);
    var head := ring.head.value;
    var n := ring.Slots();
    var t := new Tract(n, head.tract, head.plow, if head.reap.Some? then head.reap.value else head.plow, None);
    var walk := new Walk(head.root, t.len);
    StartSane(t.View(m), head.root, walk);
    var done := walk.Run(m, t);
    live := SortUnique(RefLbas(walk.found) + walk.referenced);
    RefLbasAre(walk.found, walk.referenced);
    LiveInside(m.disk, Pow2(log2), g, live);
  }

  function RefLbas(refs: seq<Ref>): (ps: seq<nat>)
    ensures |ps| == |refs| && forall i :: 0 <= i < |ps| ==> ps[i] == refs[i].lba
  {
    seq(|refs|, i requires 0 <= i < |refs| => refs[i].lba)
  }

  lemma {:induction false} RefLbasAre(found: seq<Ref>, referenced: seq<nat>)
    ensures Elems(RefLbas(found) + referenced) == Lbas(found) + Elems(referenced)
  {
    var ps := RefLbas(found);
    forall p | p in Lbas(found)
      ensures p in ps + referenced
    {
      var i :| 0 <= i < |found| && found[i].lba == p;
      assert (ps + referenced)[i] == p;
    }
    forall p | p in Elems(referenced)
      ensures p in ps + referenced
    {
      var i :| 0 <= i < |referenced| && referenced[i] == p;
      assert (ps + referenced)[|ps| + i] == p;
    }
  }

  lemma {:induction false} StandsWalk(disk: seq<Block>, base: nat, g: Gen)
    requires Stands(disk, base, g)
    ensures g.entry.tract > 0 && base + g.entry.tract <= |disk| && (g.entry.root.Nil? || Blocks.Committed(g.entry.root))
    ensures Sound(g.entry.root, []) && Once(g.entry.root) && Held(Medium(disk, base, g.entry.tract), g.entry.root)
  {
  }

  lemma {:induction false} LiveInside(disk: seq<Block>, base: nat, g: Gen, live: seq<nat>)
    requires Stands(disk, base, g) && Elems(live) == Pos(g.entry.root)
    ensures forall j :: 0 <= j < |live| ==> base + live[j] < |disk|
  {
    forall j | 0 <= j < |live|
      ensures live[j] < g.entry.tract
    {
      assert live[j] in Elems(live);
      assert live[j] in Lap(0, g.entry.plow, g.entry.tract);
    }
  }

  lemma {:induction false} AllSealed(disk: seq<Block>, base: nat, g: Gen)
    requires Stands(disk, base, g)
    ensures forall p :: p in Pos(g.entry.root) ==> base + p < |disk| && disk[base + p].Sealed?
  {
    StandsWalk(disk, base, g);
    hide Stands, Pos, Held, Sound, Once;
    forall p | p in Pos(g.entry.root)
      ensures base + p < |disk| && disk[base + p].Sealed?
    {
      HeldSealed(MediumOf(disk, base, g.entry), g.entry.root, p);
    }
  }

  lemma {:induction false} PatchedAgrees(was: seq<Block>, disk: seq<Block>, base: nat, live: set<nat>)
    requires |disk| <= |was| && forall p :: p in live ==> base + p < |disk| && disk[base + p].Sealed?
    ensures SameLive(disk, Patched(was, disk, base, live), base, live)
  {
    var after := Patched(was, disk, base, live);
    forall p | p in live
      ensures base + p < |disk| && after[base + p] == disk[base + p]
    {
      var q := base + p;
      assert q - base == p && IsSealed(disk[q]);
    }
  }

  lemma {:induction false} PatchedSame(was: seq<Block>, disk: seq<Block>, base: nat, g: Gen)
    requires Stands(disk, base, g) && |disk| <= |was|
    ensures SameLive(disk, Patched(was, disk, base, Pos(g.entry.root)), base, Pos(g.entry.root))
  {
    hide *;
    AllSealed(disk, base, g);
    PatchedAgrees(was, disk, base, Pos(g.entry.root));
  }

  /** Bring `dst` to what `src` loads: its extent, its ring, and its committed live set. Nothing else changes. */
  method ReplicateInto(src: Device, dst: Device, log2: nat, ghost g: Gen) returns (r: Result<Replicated>)
    requires src != dst && Ready(src) && Ready(dst) && Loads(src.store, log2, g)
    modifies dst
    ensures r.Err? ==> Down(r.error)
    ensures r.Ok? ==> Ready(dst) && Loads(dst.store, log2, g) && |dst.store| >= |src.store|
    ensures r.Ok? && Restores(src.store, log2, g) ==> Restores(dst.store, log2, g)
    ensures r.Ok? ==> SameSlots(src.store, dst.store, Pow2(log2)) && SameLive(src.store, dst.store, Pow2(log2), Pos(g.entry.root))
    ensures r.Ok? ==> Untouched(old(dst.store), dst.store, Pow2(log2), Pos(g.entry.root))
    ensures r.Ok? && old(SameSlots(src.store, dst.store, Pow2(log2)) && SameLive(src.store, dst.store, Pow2(log2), Pos(g.entry.root))) ==>
      r.value == Replicated(0, 0)
  {
    hide Restores, Loads, Stands, Pos, Pow2, Elems, Ascends, Untouched, SameSlots, SameLive, Differ;
    ghost var start := dst.store;
    if |dst.store| < |src.store| {
      var _ :- dst.Grow(|src.store|);
    }
    ghost var grown := dst.store;
    var n := SlotsOf(log2);
    LoadsFits(src.store, log2, g);
    var spine :- CopySpine(src, dst, n);
    ghost var was := dst.store;
    var live := LivePositions(src, log2, g);
    var tract :- CopyTract(src, dst, n, live);
    PassLaw(start, grown, was, src.store, dst.store, n, log2, g);
    SyncedLoads(src.store, dst.store, log2, g);
    if Restores(src.store, log2, g) {
      SyncedRestores(src.store, dst.store, log2, g);
    }
    return Ok(Replicated(spine, tract));
  }

  /** Beyond the ring and the live positions the device is as it was, extended at most by zeros. */
  ghost predicate Untouched(was: seq<Block>, now: seq<Block>, base: nat, live: set<nat>) {
    && |was| <= |now|
    && forall q :: base <= q < |now| && q - base !in live ==> now[q] == (if q < |was| then was[q] else Zero)
  }

  method SlotsOf(log2: nat) returns (n: nat)
    ensures n == Pow2(log2)
  {
    n := Pow2(log2);
  }

  /** What the three parts of a pass add up to. */
  lemma {:induction false} PassLaw(start: seq<Block>, grown: seq<Block>, was: seq<Block>, src: seq<Block>, now: seq<Block>, n: nat, log2: nat, g: Gen)
    requires Stands(src, n, g) && n <= |src| <= |grown| == |was| && |start| <= |grown|
    requires grown == Extended(start, |src|)
    requires SameSlots(src, was, n) && forall q :: n <= q < |was| ==> was[q] == grown[q]
    requires now == Patched(was, src, n, Pos(g.entry.root))
    ensures SameSlots(src, now, n) && SameLive(src, now, n, Pos(g.entry.root)) && Untouched(start, now, n, Pos(g.entry.root))
    ensures SameSlots(src, start, n) ==> (set s | 0 <= s < n && grown[s] != src[s]) == {}
    ensures SameLive(src, start, n, Pos(g.entry.root)) ==> Differ(was, src, n, Pos(g.entry.root)) == {}
  {
    hide Stands, Pos;
    PatchedSame(was, src, n, g);
  }

  /** The two devices show the same head block in the same slot and are of one size: the pass ends there. */
  ghost predicate Converged(x: seq<Block>, y: seq<Block>, log2: nat) {
    && Top(x, log2).Some? && Top(x, log2) == Top(y, log2) && |x| == |y|
  }

  /** The side with the higher generation, the first when level. */
  ghost predicate FirstWins(x: seq<Block>, y: seq<Block>, log2: nat) {
    Rank(Top(x, log2)) >= Rank(Top(y, log2))
  }

  /** Ring and live blocks of a generation agree. */
  ghost predicate Synced(x: seq<Block>, y: seq<Block>, log2: nat, g: Gen) {
    SameSlots(x, y, Pow2(log2)) && SameLive(x, y, Pow2(log2), Pos(g.entry.root))
  }

  lemma {:induction false} SyncedBack(x: seq<Block>, y: seq<Block>, log2: nat, g: Gen)
    requires Synced(x, y, log2, g)
    ensures Synced(y, x, log2, g)
  {
  }

  /** A device that loads a generation has it on top of its ring. */
  lemma {:induction false} TopIs(store: seq<Block>, log2: nat, g: Gen)
    requires Loads(store, log2, g)
    ensures Top(store, log2) == Some(g.entry)
  {
    hide Newest, Pow2;
    NewestStands(store, log2, g);
  }

  /** An entry is its own slot's: equal entries lie in equal slots, and different ones in one slot differ as blocks. */
  lemma {:induction false} SameHead(x: seq<Block>, y: seq<Block>, log2: nat, i: nat, j: nat, e: Entry, f: Entry)
    requires i < |x| && j < |y| && SlotAt(x, log2, i) == Classified.Valid(e) && SlotAt(y, log2, j) == Classified.Valid(f)
    ensures e == f <==> i == j && x[i] == y[j]
  {
  }

  /** Mirror resync. The winner must load its head; when the two do not already agree on it, both do afterwards: the
      same ring, the same bytes wherever the head reaches, the higher generation kept. A pass over devices in sync copies
      nothing. */
  method VerifiedReplicate(a: Device, b: Device, log2: nat, ghost g: Gen) returns (r: Result<Replicated>)
    requires a != b && Ready(a) && Ready(b)
    requires if FirstWins(a.store, b.store, log2) then Loads(a.store, log2, g) else Loads(b.store, log2, g)
    modifies a, b
    ensures r.Err? ==> Down(r.error)
    ensures old(Converged(a.store, b.store, log2)) ==> r == Ok(Replicated(0, 0)) && a.store == old(a.store) && b.store == old(b.store)
    ensures r.Ok? ==> Ready(a) && Ready(b)
    ensures r.Ok? && !old(Converged(a.store, b.store, log2)) ==>
      Loads(a.store, log2, g) && Loads(b.store, log2, g) && Synced(a.store, b.store, log2, g)
    ensures r.Ok? && !old(Converged(a.store, b.store, log2)) ==>
      if old(FirstWins(a.store, b.store, log2)) then Restores(a.store, log2, g) ==> Restores(b.store, log2, g)
      else Restores(b.store, log2, g) ==> Restores(a.store, log2, g)
    ensures r.Ok? ==> Top(a.store, log2) == Top(b.store, log2) == Some(g.entry)
    ensures r.Ok? ==> g.entry.gen >= old(Rank(Top(a.store, log2))) && g.entry.gen >= old(Rank(Top(b.store, log2)))
    ensures old(FirstWins(a.store, b.store, log2)) ==> a.store == old(a.store)
    ensures !old(FirstWins(a.store, b.store, log2)) ==> b.store == old(b.store)
    ensures r.Ok? && old(Synced(a.store, b.store, log2, g)) ==> r.value == Replicated(0, 0)
    ensures r.Ok? ==> (Synced(a.store, b.store, log2, g) <==> old(!Converged(a.store, b.store, log2) || Synced(a.store, b.store, log2, g)))
  {
    hide Restores, Loads, Pow2, Newest, Classify, SameSlots, SameLive, Pos, Top, Untouched;
    var n := SlotsOf(log2);
    var genA, slotA := BestGen(a, n, log2);
    var genB, slotB := BestGen(b, n, log2);
    if FirstWins(a.store, b.store, log2) {
      TopIs(a.store, log2, g);
    } else {
      TopIs(b.store, log2, g);
    }
    if genA.Some? && genB.Some? {
      SameHead(a.store, b.store, log2, slotA, slotB, Top(a.store, log2).value, Top(b.store, log2).value);
    }
    if genA.Some? && genA == genB && slotA == slotB && |a.store| == |b.store| {
      var headA := a.Read(slotA);
      var headB := b.Read(slotB);
      if headA.value == headB.value {
        return Ok(Replicated(0, 0));
      }
    }
    if genB.None? || (genA.Some? && genA.value >= genB.value) {
      r := ReplicateInto(a, b, log2, g);
    } else {
      if Synced(a.store, b.store, log2, g) {
        SyncedBack(a.store, b.store, log2, g);
      }
      r := ReplicateInto(b, a, log2, g);
      if r.Ok? {
        SyncedBack(b.store, a.store, log2, g);
      }
    }
    if r.Ok? {
      TopIs(a.store, log2, g);
      TopIs(b.store, log2, g);
    }
  }

  /** Heads that agree are not looked behind: one put committed on both devices, its leaf block since gone bad on the
      second. A resync takes them for converged, and leaves the second without the generation its ring shows. */
  lemma {:induction false} MissedRot()
    ensures exists x: seq<Block>, y: seq<Block>, g: Gen :: Restores(x, 1, g) && Converged(x, y, 1) && !Synced(x, y, 1, g) && !Loads(y, 1, g)
  {
    var s, _ := OnePut();
    var e := Entry(1, Prev(FirstEntry()), 1, 64, FirstLeaf(), 1, Some(0), 1, 0);
    LeafClean(FirstLeaf());
    CommitKeeps(s, e);
    GoodHas(AfterCommit(s, e));
    var x, g := AfterCommit(s, e).disk, Gen(e, Map(s));
    assert Past(AfterCommit(s, e).log, 0) == g && |x| == 66;
    hide Good, Poised, Restores, Content;
    Rotten(x, g);
  }

  lemma {:induction false} Rotten(x: seq<Block>, g: Gen)
    requires Restores(x, 1, g) && g.entry.root == FirstLeaf() && g.entry.tract == 64 && |x| == 66
    ensures var y := x[2 := Torn(0)]; Converged(x, y, 1) && !Synced(x, y, 1, g) && !Loads(y, 1, g)
  {
    var y := x[2 := Torn(0)];
    assert Pow2(1) == 2;
    RestoresFits(x, 1, g);
    assert SealedAt(MediumOf(x, 2, g.entry), 0, DocOf(FirstLeaf()));
    assert Pos(FirstLeaf()) == {0} && 0 in Pos(FirstLeaf());
    assert !Held(MediumOf(y, 2, g.entry), FirstLeaf());
    hide Newest, RingHolds, Chained, Classify, Quiet, Lasting;
    RestoresLoads(x, 1, g);
    TopIs(x, 1, g);
    SpinedKept(x, y, 1, g.entry);
    HeadIsNewest(y, 1, g.entry);
  }

  /** A second pass, whatever the first one did, copies nothing. */
  method Twice(a: Device, b: Device, log2: nat, ghost g: Gen) returns (r: Result<Replicated>)
    requires a != b && Ready(a) && Ready(b)
    requires if FirstWins(a.store, b.store, log2) then Loads(a.store, log2, g) else Loads(b.store, log2, g)
    modifies a, b
    ensures r.Ok? ==> r.value == Replicated(0, 0)
  {
    hide Loads, Synced, Top;
    var _ :- VerifiedReplicate(a, b, log2, g);
    r := VerifiedReplicate(a, b, log2, g);
  }
}
