/** A block device with a write cache, and the crash images it can leave behind. */
module Devices {
  import opened Blocks

  datatype Write = Write(lba: nat, block: Block)

  /** What a power cut finds: the blocks already flushed, and the writes that may or may not land. */
  datatype Moment = Moment(media: seq<Block>, loose: seq<Write>)

  /** `img` is a possible content of the device after power is cut at `mo`: every position holds its flushed
      block, or one of the writes in flight there, whole or torn. */
  ghost predicate Image(mo: Moment, img: seq<Block>) {
    && |img| == |mo.media|
    && forall i :: 0 <= i < |img| ==> img[i] == mo.media[i] || InFlight(mo.loose, i, img[i])
  }

  ghost predicate InFlight(loose: seq<Write>, i: nat, b: Block) {
    exists k :: 0 <= k < |loose| && loose[k].lba == i && (b == loose[k].block || b.Torn?)
  }

  /** Blocks with the positions of `dest` overwritten. */
  function Overlay(store: seq<Block>, dest: map<nat, Block>): (s: seq<Block>)
    ensures |s| == |store|
  {
    seq(|store|, i requires 0 <= i < |store| => if i in dest then dest[i] else store[i])
  }

  /** Blocks extended with zeros to at least `n`. */
  function Extended(store: seq<Block>, n: nat): (s: seq<Block>)
    ensures store <= s && |s| >= n
  {
    if n > |store| then store + seq(n - |store|, _ => Zero) else store
  }

  /** The last write of every position. */
  function Last(ws: seq<Write>): map<nat, Block> {
    if ws == [] then map[] else Last(ws[..|ws| - 1])[ws[|ws| - 1].lba := ws[|ws| - 1].block]
  }

  /** Nothing but the writes of `dest` has touched the device since it held `base`. */
  ghost predicate Moves(mo: Moment, base: seq<Block>, dest: map<nat, Block>) {
    && |mo.media| == |base|
    && (forall i :: 0 <= i < |base| ==> Between(base, dest, i, mo.media[i]))
    && forall k :: 0 <= k < |mo.loose| ==>
         mo.loose[k].lba in dest && (mo.loose[k].block == dest[mo.loose[k].lba] || mo.loose[k].block.Torn?)
  }

  ghost predicate Between(base: seq<Block>, dest: map<nat, Block>, i: nat, b: Block) {
    (i < |base| && b == base[i]) || (i in dest && (b == dest[i] || b.Torn?))
  }

  lemma {:induction false} LastIn(ws: seq<Write>, lba: nat)
    ensures lba in Last(ws) <==> exists k :: 0 <= k < |ws| && ws[k].lba == lba
    ensures lba in Last(ws) ==> exists k :: 0 <= k < |ws| && ws[k] == Write(lba, Last(ws)[lba])
  {
    if ws != [] {
      var front := ws[..|ws| - 1];
      LastIn(front, lba);
      if lba in Last(front) {
        var k :| 0 <= k < |front| && front[k] == Write(lba, Last(front)[lba]);
        assert ws[k] == front[k];
      }
      if exists k :: 0 <= k < |ws| && ws[k].lba == lba {
        var k :| 0 <= k < |ws| && ws[k].lba == lba;
        assert k < |front| ==> front[k] == ws[k];
      }
    }
  }

  lemma {:induction false} LastAppend(ws: seq<Write>, w: Write)
    ensures Last(ws + [w]) == Last(ws)[w.lba := w.block]
  {
    assert (ws + [w])[..|ws|] == ws;
  }

  /** Every crash image of such a moment holds, position by position, the base, the new block, or a torn one. */
  lemma {:induction false} ImageBetween(mo: Moment, base: seq<Block>, dest: map<nat, Block>, img: seq<Block>)
    requires Moves(mo, base, dest) && Image(mo, img)
    ensures |img| == |base|
    ensures forall i :: 0 <= i < |img| ==> Between(base, dest, i, img[i])
  {
    forall i | 0 <= i < |img|
      ensures Between(base, dest, i, img[i])
    {
      assert img[i] == mo.media[i] || InFlight(mo.loose, i, img[i]);
    }
  }

  /** One drive. Writes can fail, tear, or land torn while reporting success; reads return what is there. */
  class Device {
    var store: seq<Block>
    var media: seq<Block>
    var loose: seq<Write>
    ghost var history: seq<Moment>

    ghost predicate Valid()
      reads this
    {
      |store| == |media| && forall i :: 0 <= i < |store| ==> store[i] == media[i] || InFlight(loose, i, store[i])
    }

    /** Everything written has reached the media. */
    ghost predicate Flushed()
      reads this
    {
      loose == [] && store == media
    }

    /** Each moment since `from` shows only writes of `dest` over `base`. */
    ghost predicate Since(from: nat, base: seq<Block>, dest: map<nat, Block>)
      reads this
    {
      from <= |history| && forall i :: from <= i < |history| ==> Moves(history[i], base, dest)
    }

    /** The state as it stands shows only writes of `dest` over `base`. */
    ghost predicate Now(base: seq<Block>, dest: map<nat, Block>)
      reads this
    {
      && Valid() && Moves(Moment(media, loose), base, dest)
      && forall i :: 0 <= i < |store| ==> Between(base, dest, i, store[i])
    }

    constructor (blocks: nat)
      ensures Valid() && Flushed() && |store| == blocks && history == []
      ensures forall i :: 0 <= i < blocks ==> store[i] == Zero
    {
      store := seq(blocks, _ => Zero);
      media := seq(blocks, _ => Zero);
      loose := [];
      history := [];
    }

    /** The drive as a power cut left it. */
    constructor Powered(image: seq<Block>)
      ensures Valid() && Flushed() && store == image && history == []
    {
      store, media, loose, history := image, image, [], [];
    }

    method Read(lba: nat) returns (r: Result<Block>)
      ensures r == if lba < |store| then Ok(store[lba]) else Err(Bounds(lba))
    {
      if lba >= |store| {
        return Err(Bounds(lba));
      }
      return Ok(store[lba]);
    }

    method Put(lba: nat, b: Block, ghost base: seq<Block>, ghost dest: map<nat, Block>) returns (r: Result<()>)
      requires Now(base, dest) && lba in dest && dest[lba] == b
      modifies this
      ensures Now(base, dest) && |store| == old(|store|)
      ensures old(history) <= history && Since(old(|history|), base, dest)
      ensures forall i :: 0 <= i < |store| && i != lba ==> store[i] == old(store[i])
      ensures lba >= |store| ==> r == Err(Bounds(lba)) && store == old(store)
      ensures r.Err? ==> Down(r.error)
    {
      if lba >= |store| {
        return Err(Bounds(lba));
      }
      var junk: nat, whole: bool, failed: bool := *, *, *;
      var landed := if whole then b else Torn(junk);
      ghost var before := loose;
      loose := loose + [Write(lba, landed)];
      store := store[lba := landed];
      history := history + [Moment(media, loose)];
      forall i | 0 <= i < |store|
        ensures store[i] == media[i] || InFlight(loose, i, store[i])
      {
        if i == lba {
          assert loose[|before|] == Write(i, store[i]);
        } else if InFlight(before, i, store[i]) {
          var k :| 0 <= k < |before| && before[k].lba == i && (store[i] == before[k].block || store[i].Torn?);
          assert loose[k] == before[k];
        }
      }
      return if failed then Err(Verify(lba)) else Ok(());
    }

    method Flush(ghost base: seq<Block>, ghost dest: map<nat, Block>) returns (r: Result<()>)
      requires Now(base, dest)
      modifies this
      ensures Now(base, dest) && store == old(store)
      ensures old(history) <= history && Since(old(|history|), base, dest)
      ensures r.Ok? ==> Flushed()
      ensures r.Err? ==> Down(r.error)
    {
      var failed: bool := *;
      if failed {
        return Err(Verify(0));
      }
      media := store;
      loose := [];
      history := history + [Moment(media, loose)];
      return Ok(());
    }

    /** Space first: the device is extended with zeroed blocks before any entry claims them. */
    method Grow(blocks: nat) returns (r: Result<()>)
      requires Valid() && Flushed()
      modifies this
      ensures Valid() && Flushed()
      ensures r.Err? ==> store == old(store) && history == old(history) && Down(r.error)
      ensures r.Ok? ==> history == old(history) + [Moment(store, [])]
      ensures r.Ok? ==> store == Extended(old(store), blocks)
    {
      var failed: bool := *;
      if failed {
        return Err(Verify(blocks));
      }
      store := Extended(store, blocks);
      media := store;
      history := history + [Moment(media, loose)];
      return Ok(());
    }
  }

  /** One verified block: success means that it is on the media and compares equal, after at most two tries. */
  method WriteOne(dev: Device, lba: nat, buf: Block, ghost base: seq<Block>, ghost dest: map<nat, Block>)
    returns (r: Result<()>)
    requires dev.Now(base, dest) && lba in dest && dest[lba] == buf
    modifies dev
    ensures dev.Now(base, dest) && |dev.store| == old(|dev.store|)
    ensures old(dev.history) <= dev.history && dev.Since(old(|dev.history|), base, dest)
    ensures forall i :: 0 <= i < |dev.store| && i != lba ==> dev.store[i] == old(dev.store[i])
    ensures r.Ok? ==> dev.Flushed() && lba < |dev.store| && dev.store[lba] == buf
    ensures r.Err? ==> Down(r.error)
  {
    for attempt := 0 to 2
      invariant dev.Now(base, dest) && |dev.store| == old(|dev.store|)
      invariant old(dev.history) <= dev.history && dev.Since(old(|dev.history|), base, dest)
      invariant forall i :: 0 <= i < |dev.store| && i != lba ==> dev.store[i] == old(dev.store[i])
    {
      var _ :- dev.Put(lba, buf, base, dest);
      var _ :- dev.Flush(base, dest);
      var got := dev.Read(lba);
      if got == Ok(buf) {
        return Ok(());
      }
    }
    return Err(Verify(lba));
  }

  /** Where a sorted batch has gaps: the first index of every run of neighbours, and the end. */
  method RunsOf(blocks: seq<Write>) returns (cuts: seq<nat>)
    ensures |cuts| >= 1 && cuts[0] == 0 && cuts[|cuts| - 1] == |blocks|
    ensures forall i :: 0 <= i < |cuts| - 1 ==> cuts[i] < cuts[i + 1]
    ensures forall i :: 0 <= i < |cuts| ==> cuts[i] <= |blocks|
    ensures forall j :: 0 < j < |blocks| ==> (j in cuts <==> blocks[j].lba != blocks[j - 1].lba + 1)
  {
    cuts := [0];
    for i := 1 to |blocks| + 1
      invariant |cuts| >= 1 && cuts[0] == 0
      invariant forall k :: 0 <= k < |cuts| - 1 ==> cuts[k] < cuts[k + 1]
      invariant forall k :: 0 <= k < |cuts| ==> cuts[k] < i && cuts[k] <= |blocks|
      invariant forall j :: 0 < j < i && j < |blocks| ==> (j in cuts <==> blocks[j].lba != blocks[j - 1].lba + 1)
      invariant i == |blocks| + 1 && |blocks| > 0 ==> cuts[|cuts| - 1] == |blocks|
    {
      if blocks != [] && (i == |blocks| || blocks[i].lba != blocks[i - 1].lba + 1) {
        cuts := cuts + [i];
      }
    }
  }
}
