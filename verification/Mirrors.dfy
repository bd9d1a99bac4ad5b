/** Write-verify-then-mirror: two devices behind a staging area and a read cache, behaving as one block array. */
module Mirrors {
  import opened Blocks
  import opened Devices

  /** Blocks the read cache holds. */
  const CACHE_BLOCKS: Positive

  /** Staged appends that were given room together. */
  datatype Batch = Batch(room: nat, items: seq<Write>)

  datatype Line = Line(lba: nat, use: nat, block: Block)

  function Flat(pending: seq<Batch>): seq<Write> {
    if pending == [] then [] else Flat(pending[..|pending| - 1]) + pending[|pending| - 1].items
  }

  lemma {:induction false} FlatLast(pending: seq<Batch>, batch: Batch)
    ensures Flat(pending + [batch]) == Flat(pending) + batch.items
  {
    assert (pending + [batch])[..|pending|] == pending;
  }

  /** Staging by batches: joined while capacity lasts, begun anew when it does not. */
  function Batched(pending: seq<Batch>, w: Write): (r: seq<Batch>)
    ensures Flat(r) == Flat(pending) + [w]
  {
    if pending != [] && |pending[|pending| - 1].items| < pending[|pending| - 1].room then
      var last := pending[|pending| - 1];
      FlatLast(pending[..|pending| - 1], last.(items := last.items + [w]));
      assert Flat(pending) + [w] == Flat(pending[..|pending| - 1]) + (last.items + [w]);
      pending[..|pending| - 1] + [last.(items := last.items + [w])]
    else
      FlatLast(pending, Batch(1, [w]));
      pending + [Batch(1, [w])]
  }

  lemma {:induction false} OverlaySet(store: seq<Block>, dest: map<nat, Block>, lba: nat, block: Block)
    requires lba < |store|
    ensures Overlay(store, dest[lba := block]) == Overlay(store, dest)[lba := block]
  {
  }

  // ---------------------------------------------------------------- the drain's order

  /** Later writes of a position stay behind earlier ones. */
  function InsertStable(s: seq<Write>, w: Write): (r: seq<Write>)
    ensures |r| == |s| + 1
  {
    if s == [] || s[|s| - 1].lba <= w.lba then s + [w] else InsertStable(s[..|s| - 1], w) + [s[|s| - 1]]
  }

  ghost predicate Ascending(s: seq<Write>) {
    forall i, j :: 0 <= i < j < |s| ==> s[i].lba <= s[j].lba
  }

  ghost predicate Strict(s: seq<Write>) {
    forall i, j :: 0 <= i < j < |s| ==> s[i].lba < s[j].lba
  }

  lemma {:induction false} InsertStableOrder(s: seq<Write>, w: Write)
    requires Ascending(s)
    ensures Ascending(InsertStable(s, w))
    ensures s != [] ==> InsertStable(s, w)[|s|].lba == if s[|s| - 1].lba <= w.lba then w.lba else s[|s| - 1].lba
  {
    if s != [] && s[|s| - 1].lba > w.lba {
      var front, last := s[..|s| - 1], s[|s| - 1];
      InsertStableOrder(front, w);
      var r := InsertStable(front, w);
      AscendingAppend(r, last);
    }
  }

  lemma {:induction false} AscendingAppend(s: seq<Write>, w: Write)
    requires Ascending(s) && (s != [] ==> s[|s| - 1].lba <= w.lba)
    ensures Ascending(s + [w])
  {
  }

  lemma {:induction false} InsertStableLast(s: seq<Write>, w: Write)
    ensures Last(InsertStable(s, w)) == Last(s)[w.lba := w.block]
  {
    if s == [] || s[|s| - 1].lba <= w.lba {
      LastAppend(s, w);
    } else {
      var front, last := s[..|s| - 1], s[|s| - 1];
      assert s == front + [last];
      InsertStableLast(front, w);
      LastAppend(InsertStable(front, w), last);
      LastAppend(front, last);
    }
  }

  /** Position order, a position's stagings kept in the order they were made. */
  method StableSort(ws: seq<Write>) returns (sorted: seq<Write>)
    ensures Ascending(sorted) && Last(sorted) == Last(ws)
  {
    sorted := [];
    for i := 0 to |ws|
      invariant Ascending(sorted) && Last(sorted) == Last(ws[..i])
    {
      InsertStableOrder(sorted, ws[i]);
      InsertStableLast(sorted, ws[i]);
      LastAppend(ws[..i], ws[i]);
      assert ws[..i + 1] == ws[..i] + [ws[i]];
      sorted := InsertStable(sorted, ws[i]);
    }
    assert ws[..|ws|] == ws;
  }

  lemma {:induction false} ReplaceLast(out: seq<Write>, w: Write)
    requires out != [] && out[|out| - 1].lba == w.lba
    ensures Last(out[|out| - 1 := w]) == Last(out)[w.lba := w.block]
  {
    var front := out[..|out| - 1];
    assert out == front + [out[|out| - 1]] && out[|out| - 1 := w] == front + [w];
    LastAppend(front, out[|out| - 1]);
    LastAppend(front, w);
  }

  /** Of neighbours at one position the later takes the earlier one's place. */
  method Dedup(sorted: seq<Write>) returns (out: seq<Write>)
    requires Ascending(sorted)
    ensures Strict(out) && Last(out) == Last(sorted)
  {
    hide Last;
    out := [];
    assert sorted[..0] == [];
    for i := 0 to |sorted|
      invariant Strict(out) && Last(out) == Last(sorted[..i])
      invariant out == [] <==> i == 0
      invariant i > 0 ==> out[|out| - 1].lba == sorted[i - 1].lba
    {
      var later := sorted[i];
      LastAppend(sorted[..i], later);
      assert sorted[..i + 1] == sorted[..i] + [later];
      if out != [] && out[|out| - 1].lba == later.lba {
        ReplaceLast(out, later);
        out := out[|out| - 1 := later];
      } else {
        LastAppend(out, later);
        out := out + [later];
      }
    }
    assert sorted[..|sorted|] == sorted;
  }

  // ---------------------------------------------------------------- one device's batch

  /** Write a batch, flush once, read it all back; a block that does not match is retried alone. */
  method WriteEach(dev: Device, blocks: seq<Write>) returns (r: Result<()>)
    requires dev.Valid() && dev.Flushed() && Strict(blocks)
    modifies dev
    ensures old(dev.history) <= dev.history && dev.Since(old(|dev.history|), old(dev.store), Last(blocks))
    ensures |dev.store| == old(|dev.store|)
    ensures r.Ok? ==> dev.Valid() && dev.Flushed() && dev.store == Overlay(old(dev.store), Last(blocks))
    ensures r.Ok? ==> forall k :: 0 <= k < |blocks| ==> blocks[k].lba < |dev.store|
    ensures r.Err? ==> Down(r.error)
  {
    ghost var base, dest := dev.store, Last(blocks);
    forall k | 0 <= k < |blocks|
      ensures blocks[k].lba in dest && dest[blocks[k].lba] == blocks[k].block
    {
      StrictLast(blocks, k);
    }
    var cuts := RunsOf(blocks);
    for c := 0 to |cuts| - 1
      invariant dev.Now(base, dest) && |dev.store| == |base|
      invariant old(dev.history) <= dev.history && dev.Since(old(|dev.history|), base, dest)
    {
      for k := cuts[c] to cuts[c + 1]
        invariant dev.Now(base, dest) && |dev.store| == |base|
        invariant old(dev.history) <= dev.history && dev.Since(old(|dev.history|), base, dest)
      {
        var _ :- dev.Put(blocks[k].lba, blocks[k].block, base, dest);
      }
    }
    var _ :- dev.Flush(base, dest);
    for k := 0 to |blocks|
      invariant dev.Now(base, dest) && |dev.store| == |base| && dev.Flushed()
      invariant old(dev.history) <= dev.history && dev.Since(old(|dev.history|), base, dest)
      invariant forall j :: 0 <= j < k ==> blocks[j].lba < |dev.store| && dev.store[blocks[j].lba] == blocks[j].block
    {
      var got := dev.Read(blocks[k].lba);
      if got != Ok(blocks[k].block) {
        var _ :- WriteOne(dev, blocks[k].lba, blocks[k].block, base, dest);
      }
    }
    forall i | 0 <= i < |base|
      ensures dev.store[i] == Overlay(base, dest)[i]
    {
      LastIn(blocks, i);
      assert Between(base, dest, i, dev.store[i]);
    }
    return Ok(());
  }

  lemma {:induction false} StrictLast(ws: seq<Write>, k: nat)
    requires Strict(ws) && k < |ws|
    ensures ws[k].lba in Last(ws) && Last(ws)[ws[k].lba] == ws[k].block
  {
    LastIn(ws, ws[k].lba);
    var j :| 0 <= j < |ws| && ws[j] == Write(ws[k].lba, Last(ws)[ws[k].lba]);
    assert j == k;
  }

  // ---------------------------------------------------------------- the cache

  ghost predicate CacheSorted(cache: seq<Line>) {
    forall i, j :: 0 <= i < j < |cache| ==> cache[i].lba < cache[j].lba
  }

  /** Every line holds what the device holds. */
  ghost predicate CacheTrue(cache: seq<Line>, store: seq<Block>) {
    forall line :: line in cache ==> line.lba < |store| && line.block == store[line.lba]
  }

  function Without(cache: seq<Line>, at: nat): (r: seq<Line>)
    requires at < |cache| && CacheSorted(cache)
    ensures CacheSorted(r) && |r| == |cache| - 1
    ensures forall line :: line in r ==> line in cache && line.lba != cache[at].lba
  {
    cache[..at] + cache[at + 1..]
  }

  function With(cache: seq<Line>, at: nat, line: Line): (r: seq<Line>)
    requires at <= |cache| && CacheSorted(cache)
    requires (forall i :: 0 <= i < at ==> cache[i].lba < line.lba) && forall i :: at <= i < |cache| ==> line.lba < cache[i].lba
    ensures CacheSorted(r) && |r| == |cache| + 1
    ensures r[at] == line && forall l :: l in r ==> l in cache || l == line
  {
    cache[..at] + [line] + cache[at..]
  }

  /** Nothing staged over a device shows the device. */
  lemma {:induction false} NothingStaged(store: seq<Block>)
    ensures Flat([]) == [] && Last([]) == map[] && Overlay(store, map[]) == store
  {
  }

  /** Binary search by position: the line's index, or where it would be inserted. */
  method Search(cache: seq<Line>, lba: nat) returns (found: bool, at: nat)
    requires CacheSorted(cache)
    ensures at <= |cache|
    ensures found ==> at < |cache| && cache[at].lba == lba
    ensures !found ==> (forall i :: 0 <= i < at ==> cache[i].lba < lba) && forall i :: at <= i < |cache| ==> lba < cache[i].lba
  {
    var lo, hi := 0, |cache|;
    while lo < hi
      invariant lo <= hi <= |cache|
      invariant forall i :: 0 <= i < lo ==> cache[i].lba < lba
      invariant forall i :: hi <= i < |cache| ==> lba < cache[i].lba
    {
      var mid := (lo + hi) / 2;
      if cache[mid].lba == lba {
        return true, mid;
      } else if cache[mid].lba < lba {
        lo := mid + 1;
      } else {
        hi := mid;
      }
    }
    return false, lo;
  }

  /** The least recently used line. */
  method Oldest(cache: seq<Line>) returns (at: nat)
    requires cache != []
    ensures at < |cache| && forall i :: 0 <= i < |cache| ==> cache[at].use <= cache[i].use
  {
    at := 0;
    for i := 1 to |cache|
      invariant at < |cache| && forall k :: 0 <= k < i ==> cache[at].use <= cache[k].use
    {
      if cache[i].use < cache[at].use {
        at := i;
      }
    }
  }

  // ---------------------------------------------------------------- the mirror

  class Mirror {
    const a: Device?
    var b: Device?
    var degraded: bool
    var pending: seq<Batch>
    var cache: seq<Line>
    var uses: nat
    /** The block array every read shows: the devices under the staged appends. */
    ghost var disk: seq<Block>

    /** The device reads come from. */
    ghost function Prim(): Device?
      reads this
    {
      if a != null then a else b
    }

    ghost function Staged(): map<nat, Block>
      reads this
    {
      Last(Flat(pending))
    }

    ghost predicate Valid()
      reads this, a, b
    {
      && Prim() != null && (a != null ==> a != b)
      && (a != null ==> a.Valid() && a.Flushed())
      && (b != null ==> b.Valid() && b.Flushed())
      && disk == Overlay(Prim().store, Staged())
      && (forall lba :: lba in Staged() ==> lba < |disk|)
      && CacheSorted(cache) && CacheTrue(cache, Prim().store) && |cache| <= CACHE_BLOCKS
      && (a == null || b == null ==> degraded)
    }

    /** Both devices hold the same blocks. */
    ghost predicate Synced()
      reads this, a, b
    {
      a != null && b != null ==> a.store == b.store
    }

    /** Nothing staged, and the media of the device read from holds exactly the block array. */
    ghost predicate Settled()
      reads this, a, b
    {
      Prim() != null && pending == [] && Prim().media == disk && Prim().store == disk
    }

    /** What the media of the device read from holds. */
    ghost function Durable(): seq<Block>
      requires Prim() != null
      reads this, a, b
    {
      Prim().media
    }

    ghost function History(): seq<Moment>
      requires Prim() != null
      reads this, a, b
    {
      Prim().history
    }

    constructor (a: Device?, b: Device?)
      requires a != null || b != null
      requires a != null ==> a != b && a.Valid() && a.Flushed()
      requires b != null ==> b.Valid() && b.Flushed()
      ensures Valid() && Settled() && this.a == a && this.b == b
    {
      this.a := a;
      this.b := b;
      degraded := a == null || b == null;
      pending := [];
      cache := [];
      uses := 0;
      var prim := if a != null then a else b;
      disk := prim.store;
    }

    /** Drop a position from the cache; every other entry stays. */
    method Forget(lba: nat)
      requires CacheSorted(cache)
      modifies this`cache
      ensures CacheSorted(cache) && |cache| <= old(|cache|)
      ensures forall i :: 0 <= i < |cache| ==> cache[i] in old(cache) && cache[i].lba != lba
    {
      var found, at := Search(cache, lba);
      if found {
        cache := Without(cache, at);
      }
    }

    /** An empty batch of capacity `n`: neither reads nor what is pending change. */
    method ReserveStaged(n: nat)
      requires Valid()
      modifies this`pending
      ensures Valid() && disk == old(disk) && Staged() == old(Staged())
    {
      if n > 0 {
        FlatLast(pending, Batch(n, []));
        assert Flat(pending) + [] == Flat(pending);
        pending := pending + [Batch(n, [])];
      }
    }

    /** The array read becomes the one with this position set; nothing reaches a device yet. */
    method StageOne(lba: nat, block: Block)
      requires Valid() && lba < |disk|
      modifies this`pending, this`cache, this`disk
      ensures Valid() && disk == old(disk)[lba := block]
      ensures Staged() == old(Staged())[lba := block]
    {
      hide Last, Flat, Overlay;
      Forget(lba);
      LastAppend(Flat(pending), Write(lba, block));
      OverlaySet(Prim().store, Staged(), lba, block);
      pending := Batched(pending, Write(lba, block));
      disk := disk[lba := block];
    }

    /** What is staged at a position: the newest of its blocks. */
    method FindStaged(lba: nat) returns (r: Option<Block>)
      ensures r == if lba in Staged() then Some(Staged()[lba]) else None
    {
      var ws := Flat(pending);
      var i := |ws|;
      while i > 0
        invariant 0 <= i <= |ws| && ws[..|ws|] == ws
        invariant lba in Last(ws) <==> lba in Last(ws[..i])
        invariant lba in Last(ws) ==> Last(ws)[lba] == Last(ws[..i])[lba]
      {
        assert ws[..i] == ws[..i - 1] + [ws[i - 1]];
        LastAppend(ws[..i - 1], ws[i - 1]);
        i := i - 1;
        if ws[i].lba == lba {
          return Some(ws[i].block);
        }
      }
      return None;
    }

    /** The blocks there are. */
    method Blocks() returns (n: nat)
      requires Valid()
      ensures n == |disk|
    {
      var dev: Device := if a != null then a else b;
      n := |dev.store|;
    }

    /** The array's block at a position, whether it is staged or on the device; out of bounds is an error. */
    method Read(lba: nat) returns (r: Result<Block>)
      requires Valid()
      ensures r == if lba < |disk| then Ok(disk[lba]) else Err(Bounds(lba))
    {
      var staged := FindStaged(lba);
      if staged.Some? {
        return Ok(staged.value);
      }
      if a != null {
        r := a.Read(lba);
      } else {
        r := b.Read(lba);
      }
    }

    /** The same answer as `Read`, through a cache that stays true and bounded. */
    method ReadCached(lba: nat) returns (r: Result<Block>)
      requires Valid()
      modifies this`cache, this`uses
      ensures Valid() && disk == old(disk)
      ensures r == if lba < |disk| then Ok(disk[lba]) else Err(Bounds(lba))
      ensures lba < |disk| && lba !in Staged() ==> Line(lba, uses, disk[lba]) in cache
    {
      var staged := FindStaged(lba);
      if staged.Some? {
        return Ok(staged.value);
      }
      uses := uses + 1;
      var hit := Cached(lba, Prim().store);
      if hit.Some? {
        return Ok(hit.value);
      }
      r := Read(lba);
      if r.Ok? {
        Remember(lba, r.value, Prim().store);
      }
    }

    /** A line's block, marked used. */
    method Cached(lba: nat, ghost store: seq<Block>) returns (hit: Option<Block>)
      requires CacheSorted(cache) && CacheTrue(cache, store)
      modifies this`cache
      ensures CacheSorted(cache) && CacheTrue(cache, store) && |cache| == old(|cache|)
      ensures hit.Some? ==> lba < |store| && hit.value == store[lba] && Line(lba, uses, store[lba]) in cache
      ensures hit.None? ==> forall line :: line in cache ==> line.lba != lba
    {
      var found, at := Search(cache, lba);
      if found {
        assert cache[at] in cache;
        cache := cache[at := cache[at].(use := uses)];
        assert cache[at] in cache;
        return Some(cache[at].block);
      }
      return None;
    }

    /** Keep a block just read; the least recently used line goes when the cache is full. */
    method Remember(lba: nat, block: Block, ghost store: seq<Block>)
      requires CacheSorted(cache) && CacheTrue(cache, store) && |cache| <= CACHE_BLOCKS
      requires forall line :: line in cache ==> line.lba != lba
      requires lba < |store| && store[lba] == block
      modifies this`cache
      ensures CacheSorted(cache) && CacheTrue(cache, store) && |cache| <= CACHE_BLOCKS
      ensures Line(lba, uses, block) in cache
    {
      if |cache| >= CACHE_BLOCKS {
        var oldest := Oldest(cache);
        cache := Without(cache, oldest);
      }
      var found, at := Search(cache, lba);
      var line := Line(lba, uses, block);
      assert !found;
      cache := With(cache, at, line);
    }

    /** Consecutive blocks: as one read, or block by block when a staged append lies among them. */
    method ReadRun(lba: nat, n: nat) returns (r: Result<seq<Block>>)
      requires Valid()
      ensures r.Ok? <==> n == 0 || lba + n <= |disk|
      ensures r.Ok? && n > 0 ==> r.value == disk[lba..lba + n]
      ensures r.Ok? && n == 0 ==> r.value == []
    {
      var ws := Flat(pending);
      var out: seq<Block> := [];
      if exists k :: 0 <= k < |ws| && lba <= ws[k].lba < lba + n {
        for i := 0 to n
          invariant |out| == i && (i == 0 || lba + i <= |disk|)
          invariant forall j :: 0 <= j < i ==> out[j] == disk[lba + j]
        {
          var block :- Read(lba + i);
          out := out + [block];
        }
        return Ok(out);
      }
      var dev: Device := if a != null then a else b;
      for i := 0 to n
        invariant |out| == i && (i == 0 || lba + i <= |disk|)
        invariant forall j :: 0 <= j < i ==> out[j] == disk[lba + j]
      {
        var block :- dev.Read(lba + i);
        LastIn(ws, lba + i);
        out := out + [block];
      }
      return Ok(out);
    }

    /** The array's blocks at any positions, in the order asked for. */
    method ReadMany(lbas: seq<nat>) returns (r: Result<seq<Block>>)
      requires Valid()
      ensures r.Ok? <==> forall i :: 0 <= i < |lbas| ==> lbas[i] < |disk|
      ensures r.Ok? ==> |r.value| == |lbas| && forall i :: 0 <= i < |lbas| ==> r.value[i] == disk[lbas[i]]
    {
      var out: seq<Block> := [];
      var dev: Device := if a != null then a else b;
      for i := 0 to |lbas|
        invariant |out| == i
        invariant forall j :: 0 <= j < i ==> lbas[j] < |disk| && out[j] == disk[lbas[j]]
      {
        var got;
        if pending != [] {
          got := Read(lbas[i]);
        } else {
          got := dev.Read(lbas[i]);
        }
        var block :- got;
        out := out + [block];
      }
      return Ok(out);
    }

    // -------------------------------------------------------------- writing out

    /** Every moment since `from` belongs to the drain of `staged` over `base`, or to the write of `lba` after it. */
    ghost predicate Ordered(from: nat, base: seq<Block>, staged: map<nat, Block>, drained: seq<Block>, last: map<nat, Block>)
      requires Prim() != null
      reads this, a, b
    {
      && from <= |History()|
      && forall i :: from <= i < |History()| ==> Moves(History()[i], base, staged) || Moves(History()[i], drained, last)
    }

    method ForgetAll(blocks: seq<Write>)
      requires CacheSorted(cache)
      modifies this`cache
      ensures CacheSorted(cache) && |cache| <= old(|cache|)
      ensures forall line :: line in cache ==> line in old(cache) && line.lba !in Last(blocks)
    {
      for k := 0 to |blocks|
        invariant CacheSorted(cache) && |cache| <= old(|cache|)
        invariant forall line :: line in cache ==> line in old(cache)
        invariant forall line, j :: line in cache && 0 <= j < k ==> line.lba != blocks[j].lba
      {
        Forget(blocks[k].lba);
      }
      forall line | line in cache
        ensures line.lba !in Last(blocks)
      {
        LastIn(blocks, line.lba);
      }
    }

    /** The primary must land or the write fails; a secondary that does not is dropped for the session. */
    method WriteBatchNow(blocks: seq<Write>) returns (r: Result<()>)
      requires Valid() && pending == [] && Strict(blocks)
      modifies this, a, b
      ensures Prim() == old(Prim()) && (b == old(b) || (a != null && b == null && degraded))
      ensures old(History()) <= History() && Prim().Since(old(|History()|), old(disk), Last(blocks))
      ensures r.Ok? ==> Valid() && Settled() && disk == Overlay(old(disk), Last(blocks))
      ensures r.Ok? && b != null ==> b.store == Overlay(old(b.store), Last(blocks))
      ensures pending == []
      ensures r.Err? ==> Down(r.error)
    {
      hide Last, Flat;
      ForgetAll(blocks);
      NothingStaged(Prim().store);
      if a != null {
        var _ :- WriteEach(a, blocks);
        if b != null {
          var second := WriteEach(b, blocks);
          if second.Err? {
            b := null;
            degraded := true;
          }
        }
      } else {
        var _ :- WriteEach(b, blocks);
      }
      disk := Prim().store;
      NothingStaged(disk);
      return Ok(());
    }

    /** Nothing staged afterwards: the devices that remain hold the newest staging of every position. */
    method Drain() returns (r: Result<()>)
      requires Valid()
      modifies this, a, b
      ensures Prim() == old(Prim()) && (b == old(b) || (a != null && b == null && degraded))
      ensures old(History()) <= History() && Prim().Since(old(|History()|), old(Durable()), old(Staged()))
      ensures r.Ok? ==> Valid() && Settled() && disk == old(disk)
      ensures r.Ok? && b != null ==> b.store == Overlay(old(b.store), old(Staged()))
      ensures r.Ok? && old(Synced()) ==> Synced()
      ensures r.Err? ==> Down(r.error)
    {
      if pending == [] {
        assert Flat([]) == [];
        assert disk == Prim().store;
        assert b != null ==> b.store == Overlay(b.store, Staged());
        return Ok(());
      }
      var ws := Flat(pending);
      var sorted := StableSort(ws);
      var refs := Dedup(sorted);
      pending := [];
      disk := Prim().store;
      assert Flat([]) == [] && Prim().store == Overlay(Prim().store, Last([]));
      r := WriteBatchNow(refs);
    }

    /** A batch of its own, after everything staged. */
    method WriteVerifiedBatch(blocks: seq<Write>) returns (r: Result<()>)
      requires Valid() && Strict(blocks)
      modifies this, a, b
      ensures Prim() == old(Prim()) && (b == old(b) || b == null)
      ensures old(History()) <= History()
      ensures Ordered(old(|History()|), old(Durable()), old(Staged()), old(disk), Last(blocks))
      ensures r.Ok? ==> Valid() && Settled() && disk == Overlay(old(disk), Last(blocks))
      ensures r.Ok? && old(Synced()) ==> Synced()
      ensures r.Err? ==> Down(r.error)
    {
      var _ :- Drain();
      r := WriteBatchNow(blocks);
    }

    /** Write one block on every device, verified, after everything staged has been written and verified. */
    method WriteVerified(lba: nat, buf: Block) returns (r: Result<()>)
      requires Valid() && lba < |disk|
      modifies this, a, b
      ensures Prim() == old(Prim()) && (b == old(b) || b == null)
      ensures old(History()) <= History()
      ensures Ordered(old(|History()|), old(Durable()), old(Staged()), old(disk), map[lba := buf])
      ensures r.Ok? ==> Valid() && Settled() && disk == old(disk)[lba := buf]
      ensures r.Ok? && old(Synced()) ==> Synced()
      ensures r.Err? ==> Down(r.error)
    {
      var _ :- Drain();
      r := WriteOneNow(lba, buf);
    }

    /** The primary must land or the write fails; a secondary that does not is dropped for the session. */
    method WriteOneNow(lba: nat, buf: Block) returns (r: Result<()>)
      requires Valid() && Settled() && lba < |disk|
      modifies this, a, b
      ensures Prim() == old(Prim()) && (b == old(b) || b == null)
      ensures old(History()) <= History() && Prim().Since(old(|History()|), old(disk), map[lba := buf])
      ensures r.Ok? ==> Valid() && Settled() && disk == old(disk)[lba := buf]
      ensures r.Ok? && old(Synced()) ==> Synced()
      ensures r.Err? ==> Down(r.error)
    {
      hide Last, Flat, Overlay;
      Forget(lba);
      ghost var dest := map[lba := buf];
      if a != null {
        var _ :- WriteOne(a, lba, buf, a.store, dest);
        if b != null {
          var second := WriteOne(b, lba, buf, b.store, dest);
          if second.Err? {
            b := null;
            degraded := true;
          }
        }
      } else {
        var _ :- WriteOne(b, lba, buf, b.store, dest);
      }
      disk := disk[lba := buf];
      assert Prim().store == disk;
      NothingStaged(disk);
      return Ok(());
    }

    method Flush() returns (r: Result<()>)
      requires Valid()
      modifies this, a, b
      ensures r.Ok? ==> Valid() && Settled() && disk == old(disk)
      ensures r.Err? ==> Down(r.error)
    {
      var _ :- Drain();
      ghost var none: map<nat, Block> := map[];
      if a != null {
        var _ :- a.Flush(a.store, none);
      }
      if b != null {
        var _ :- b.Flush(b.store, none);
      }
      return Ok(());
    }

    /** Every remaining device is longer: what was staged or there before is kept, and each new block is zero. */
    method Grow(blocks: nat) returns (r: Result<()>)
      requires Valid()
      modifies this, a, b
      ensures Prim() == old(Prim()) && (b == old(b) || b == null)
      ensures old(History()) <= History()
      ensures forall i :: old(|History()|) <= i < |History()| ==>
        Moves(History()[i], old(Durable()), old(Staged())) || (old(disk) <= History()[i].media && History()[i].loose == [])
      ensures r.Ok? ==> Valid() && Settled() && disk == Extended(old(disk), blocks) && old(disk) <= disk
      ensures r.Ok? ==> |disk| >= blocks && forall p :: old(|disk|) <= p < |disk| ==> disk[p].Zero?
      ensures r.Ok? && old(Synced()) ==> Synced()
      ensures r.Err? ==> Down(r.error)
    {
      hide Last, Flat, Overlay, CacheSorted, CacheTrue, Moves;
      var drained := Drain();
      if drained.Err? {
        return drained;
      }
      r := Lengthen(blocks);
    }

    /** Every device extended, with nothing staged. */
    method Lengthen(blocks: nat) returns (r: Result<()>)
      requires Valid() && Settled()
      modifies this, a, b
      ensures Prim() == old(Prim()) && (b == old(b) || b == null)
      ensures old(History()) <= History()
      ensures forall i :: old(|History()|) <= i < |History()| ==> old(disk) <= History()[i].media && History()[i].loose == []
      ensures r.Ok? ==> Valid() && Settled() && disk == Extended(old(disk), blocks) && old(disk) <= disk
      ensures r.Ok? ==> |disk| >= blocks && forall p :: old(|disk|) <= p < |disk| ==> disk[p].Zero?
      ensures r.Ok? && old(Synced()) ==> Synced()
      ensures r.Err? ==> Down(r.error)
    {
      if a != null {
        var _ :- a.Grow(blocks);
        if b != null {
          var second := b.Grow(blocks);
          if second.Err? {
            b := null;
            degraded := true;
          }
        }
      } else {
        var _ :- b.Grow(blocks);
      }
      disk := Prim().store;
      return Ok(());
    }
  }
}
