/** The tract: a two-cursor log ring of monotone cursors, and the live set that guards it. */
module Tracts {
  import opened Blocks
  import opened Runs
  import opened Devices
  import opened Mirrors
  import opened Media

  /** A block some committed or pending index references: position and seal. */
  datatype Ref = Ref(lba: nat, doc: Doc)

  /** Liveness changes not yet committed. */
  datatype Delta = Delta(added: seq<Ref>, removed: seq<Ref>)

  ghost function Lbas(refs: seq<Ref>): set<nat> {
    set i | 0 <= i < |refs| :: refs[i].lba
  }

  lemma {:induction false} LbasAppend(xs: seq<Ref>, ys: seq<Ref>)
    ensures Lbas(xs + ys) == Lbas(xs) + Lbas(ys)
  {
    assert forall i :: 0 <= i < |xs| ==> (xs + ys)[i] == xs[i];
    assert forall i :: 0 <= i < |ys| ==> (xs + ys)[|xs| + i] == ys[i];
  }

  /** Every reference names the block the device holds. */
  ghost predicate RefsTrue(m: Medium, refs: seq<Ref>) {
    forall i :: 0 <= i < |refs| ==> SealedAt(m, refs[i].lba, refs[i].doc)
  }

  // ---------------------------------------------------------------- the live set

  function AddAll(live: map<nat, Doc>, added: seq<Ref>): map<nat, Doc>
    decreases added
  {
    if added == [] then live else AddAll(live[added[0].lba := added[0].doc], added[1..])
  }

  function RemoveAll(live: map<nat, Doc>, removed: seq<Ref>): map<nat, Doc>
    decreases removed
  {
    if removed == [] then live
    else
      var r := removed[0];
      RemoveAll(if r.lba in live && live[r.lba] == r.doc then live - {r.lba} else live, removed[1..])
  }

  ghost predicate LiveTrue(m: Medium, live: map<nat, Doc>) {
    forall lba :: lba in live ==> SealedAt(m, lba, live[lba])
  }

  lemma {:induction false} AddAllKeys(m: Medium, live: map<nat, Doc>, added: seq<Ref>)
    requires LiveTrue(m, live) && RefsTrue(m, added)
    ensures LiveTrue(m, AddAll(live, added))
    ensures AddAll(live, added).Keys == live.Keys + Lbas(added)
    decreases added
  {
    if added != [] {
      assert RefsTrue(m, added[1..]);
      AddAllKeys(m, live[added[0].lba := added[0].doc], added[1..]);
      assert added == added[..1] + added[1..];
      LbasAppend(added[..1], added[1..]);
    }
  }

  /** Hashes agree with the device, so every removal meets its entry. */
  lemma {:induction false} RemoveAllKeys(m: Medium, live: map<nat, Doc>, removed: seq<Ref>)
    requires LiveTrue(m, live) && RefsTrue(m, removed)
    ensures LiveTrue(m, RemoveAll(live, removed))
    ensures RemoveAll(live, removed).Keys == live.Keys - Lbas(removed)
    decreases removed
  {
    if removed != [] {
      var r := removed[0];
      assert RefsTrue(m, removed[1..]);
      RemoveAllKeys(m, if r.lba in live && live[r.lba] == r.doc then live - {r.lba} else live, removed[1..]);
      assert removed == removed[..1] + removed[1..];
      LbasAppend(removed[..1], removed[1..]);
    }
  }

  class LiveSet {
    /** Position to seal, and positions marked live without one by a tree-only open. */
    var map_: map<nat, Doc>
    var referenced: set<nat>

    constructor ()
      ensures Positions() == {} && map_ == map[]
    {
      map_ := map[];
      referenced := {};
    }

    function Positions(): set<nat>
      reads this
    {
      map_.Keys + referenced
    }

    predicate IsLive(lba: nat, doc: Doc)
      reads this
    {
      (lba in map_ && map_[lba] == doc) || lba in referenced
    }

    predicate IsReferenced(lba: nat)
      reads this
      ensures IsReferenced(lba) <==> lba in Positions()
    {
      lba in map_ || lba in referenced
    }

    function Count(): nat
      reads this
    {
      |map_| + |referenced|
    }

    /** Additions first, then removals: a block added and retired by one delta must end removed. */
    method Apply(delta: Delta, ghost m: Medium)
      requires LiveTrue(m, map_) && RefsTrue(m, delta.added) && RefsTrue(m, delta.removed)
      modifies this
      ensures LiveTrue(m, map_)
      ensures Positions() == old(Positions()) + Lbas(delta.added) - Lbas(delta.removed)
    {
      AddAllKeys(m, map_, delta.added);
      ApplyAdded(delta.added);
      RemoveAllKeys(m, map_, delta.removed);
      ApplyRemoved(delta.removed);
    }

    /** Fill an empty set from a walk: blocks with their seals, and positions marked live without one. */
    method Load(found: seq<Ref>, positions: seq<nat>, ghost m: Medium)
      requires map_ == map[] && referenced == {} && RefsTrue(m, found)
      modifies this
      ensures LiveTrue(m, map_)
      ensures Positions() == Lbas(found) + Elems(positions)
    {
      AddAllKeys(m, map_, found);
      ApplyAdded(found);
      for i := 0 to |positions|
        invariant map_ == AddAll(map[], found)
        invariant Positions() == Lbas(found) + Elems(positions[..i])
      {
        assert positions[..i + 1] == positions[..i] + [positions[i]];
        ElemsAppend(positions[..i], positions[i]);
        if positions[i] !in map_ {
          referenced := referenced + {positions[i]};
        }
      }
      assert positions[..|positions|] == positions;
    }

    method ApplyAdded(added: seq<Ref>)
      modifies this
      ensures map_ == AddAll(old(map_), added) && referenced == old(referenced) - Lbas(added)
    {
      for i := 0 to |added|
        invariant AddAll(map_, added[i..]) == AddAll(old(map_), added)
        invariant referenced == old(referenced) - Lbas(added[..i])
      {
        assert added[i..][1..] == added[i + 1..];
        assert added[..i + 1] == added[..i] + [added[i]];
        LbasAppend(added[..i], [added[i]]);
        referenced := referenced - {added[i].lba};
        map_ := map_[added[i].lba := added[i].doc];
      }
      assert added[..|added|] == added;
    }

    method ApplyRemoved(removed: seq<Ref>)
      modifies this
      ensures map_ == RemoveAll(old(map_), removed) && referenced == old(referenced) - Lbas(removed)
    {
      for i := 0 to |removed|
        invariant RemoveAll(map_, removed[i..]) == RemoveAll(old(map_), removed)
        invariant referenced == old(referenced) - Lbas(removed[..i])
      {
        var r := removed[i];
        assert removed[i..][1..] == removed[i + 1..];
        assert removed[..i + 1] == removed[..i] + [r];
        LbasAppend(removed[..i], [r]);
        if r.lba in map_ && map_[r.lba] == r.doc {
          map_ := map_ - {r.lba};
        }
        referenced := referenced - {r.lba};
      }
      assert removed[..|removed|] == removed;
    }
  }

  // ---------------------------------------------------------------- cursors

  /** Positions of the monotone cursors [from, to). */
  ghost function Lap(from: nat, to: nat, len: Positive): set<nat> {
    set x | from <= x < to :: x % len
  }

  /** Within one lap distinct cursors have distinct positions. */
  lemma {:induction false} OneLap(x: nat, y: nat, len: Positive)
    requires x < y < x + len
    ensures x % len != y % len
  {
    PlaceAt(x, y - x, len);
  }

  lemma {:induction false} LapsApart(a: nat, b: nat, c: nat, len: Positive)
    requires a <= b <= c <= a + len
    ensures Lap(a, b, len) !! Lap(b, c, len)
  {
    forall x, y | a <= x < b <= y < c
      ensures x % len != y % len
    {
      OneLap(x, y, len);
    }
  }

  lemma {:induction false} LapSplit(a: nat, b: nat, c: nat, len: Positive)
    requires a <= b <= c
    ensures Lap(a, c, len) == Lap(a, b, len) + Lap(b, c, len)
  {
    assert Lap(a, c, len) <= Lap(a, b, len) + Lap(b, c, len);
  }

  /** A full lap visits every position. */
  lemma {:induction false} FullLap(a: nat, p: nat, len: Positive)
    requires p < len
    ensures p in Lap(a, a + len, len)
  {
    var r := a % len;
    var i := if r <= p then p - r else p + len - r;
    PlaceAt(a, i, len);
    assert a <= a + i < a + len && (a + i) % len == p;
  }

  /** Device position of cursor `x` in a tract at `base`. */
  function Spot(base: nat, len: Positive, x: nat): nat {
    base + x % len
  }

  lemma {:induction false} SpotsApart(base: nat, len: Positive, x: nat, y: nat)
    requires x < y < x + len
    ensures Spot(base, len, x) != Spot(base, len, y)
  {
    OneLap(x, y, len);
  }

  /** `p` is the device position of one of the cursors [from, to). */
  ghost predicate Written(base: nat, len: Positive, from: nat, to: nat, p: nat) {
    exists x :: from <= x < to && p == Spot(base, len, x)
  }

  /** `after` is `before` with `docs` sealed at the cursors from `from` on, and nothing else changed. */
  ghost predicate Plowed(before: seq<Block>, after: seq<Block>, base: nat, len: Positive, from: nat, docs: seq<Doc>) {
    && |after| == |before|
    && (forall x :: from <= x < from + |docs| ==> Holds(after, Spot(base, len, x), docs[x - from]))
    && forall p :: 0 <= p < |before| ==> after[p] == before[p] || Written(base, len, from, from + |docs|, p)
  }

  ghost predicate Holds(disk: seq<Block>, p: nat, doc: Doc) {
    p < |disk| && disk[p] == Sealed(doc)
  }

  ghost predicate StagedOnly(before: map<nat, Block>, after: map<nat, Block>, base: nat, len: Positive, from: nat, to: nat) {
    forall p :: p in after ==> p in before || Written(base, len, from, to, p)
  }

  lemma {:induction false} WrittenMore(base: nat, len: Positive, from: nat, to: nat, more: nat, p: nat)
    requires to <= more && Written(base, len, from, to, p)
    ensures Written(base, len, from, more, p)
  {
    var x :| from <= x < to && p == Spot(base, len, x);
  }

  lemma {:induction false} PlowedStep(before: seq<Block>, mid: seq<Block>, base: nat, len: Positive, from: nat, docs: seq<Doc>, doc: Doc)
    requires Plowed(before, mid, base, len, from, docs) && |docs| < len
    requires Spot(base, len, from + |docs|) < |mid|
    ensures Plowed(before, mid[Spot(base, len, from + |docs|) := Sealed(doc)], base, len, from, docs + [doc])
  {
    hide Spot;
    var to := from + |docs|;
    var at := Spot(base, len, to);
    var after := mid[at := Sealed(doc)];
    forall x | from <= x < to + 1
      ensures Holds(after, Spot(base, len, x), (docs + [doc])[x - from])
    {
      if x < to {
        SpotsApart(base, len, x, to);
        assert Holds(mid, Spot(base, len, x), docs[x - from]);
      }
    }
    forall p | 0 <= p < |before|
      ensures after[p] == before[p] || Written(base, len, from, to + 1, p)
    {
      if Written(base, len, from, to, p) {
        WrittenMore(base, len, from, to, to + 1, p);
      }
    }
  }

  lemma {:induction false} StagedStep(before: map<nat, Block>, mid: map<nat, Block>, base: nat, len: Positive, from: nat, to: nat, b: Block)
    requires StagedOnly(before, mid, base, len, from, to) && from <= to
    ensures StagedOnly(before, mid[Spot(base, len, to) := b], base, len, from, to + 1)
  {
    hide Spot;
    forall p | p in mid && p !in before
      ensures Written(base, len, from, to + 1, p)
    {
      WrittenMore(base, len, from, to, to + 1, p);
    }
  }

  /** What appends between two cursors do to a medium and its staging area: nothing outside those positions. */
  ghost predicate Appended(v: Medium, w: Medium, sv: map<nat, Block>, sw: map<nat, Block>, from: nat, to: nat) {
    && from <= to && w.base == v.base && w.len == v.len && |w.disk| == |v.disk|
    && (forall p :: 0 <= p < |v.disk| ==> w.disk[p] == v.disk[p] || Written(v.base, v.len, from, to, p))
    && StagedOnly(sv, sw, v.base, v.len, from, to)
  }

  lemma {:induction false} WrittenWiden(base: nat, len: Positive, from: nat, to: nat, a: nat, b: nat, p: nat)
    requires a <= from && to <= b && Written(base, len, from, to, p)
    ensures Written(base, len, a, b, p)
  {
    var x :| from <= x < to && p == Spot(base, len, x);
  }

  lemma {:induction false} AppendedThen(v: Medium, w: Medium, u: Medium, sv: map<nat, Block>, sw: map<nat, Block>, su: map<nat, Block>,
                     from: nat, mid: nat, to: nat)
    requires Appended(v, w, sv, sw, from, mid) && Appended(w, u, sw, su, mid, to)
    ensures Appended(v, u, sv, su, from, to)
  {
    hide Written;
    forall p | 0 <= p < |v.disk|
      ensures u.disk[p] == v.disk[p] || Written(v.base, v.len, from, to, p)
    {
      if Written(v.base, v.len, from, mid, p) {
        WrittenWiden(v.base, v.len, from, mid, from, to, p);
      } else if Written(v.base, v.len, mid, to, p) {
        WrittenWiden(v.base, v.len, mid, to, from, to, p);
      }
    }
    forall p | p in su && p !in sv
      ensures Written(v.base, v.len, from, to, p)
    {
      if p in sw {
        WrittenWiden(v.base, v.len, from, mid, from, to, p);
      } else {
        WrittenWiden(v.base, v.len, mid, to, from, to, p);
      }
    }
  }

  lemma {:induction false} WrittenLap(base: nat, len: Positive, from: nat, to: nat, q: nat)
    ensures Written(base, len, from, to, base + q) <==> q in Lap(from, to, len)
  {
    if Written(base, len, from, to, base + q) {
      var x :| from <= x < to && base + q == Spot(base, len, x);
    }
    if q in Lap(from, to, len) {
      var x :| from <= x < to && q == x % len;
      assert base + q == Spot(base, len, x);
    }
  }

  /** Appends keep everything that lies off their positions. */
  lemma {:induction false} AppendedKeeps(v: Medium, w: Medium, sv: map<nat, Block>, sw: map<nat, Block>, from: nat, to: nat, s: set<nat>)
    requires Appended(v, w, sv, sw, from, to) && s !! Lap(from, to, v.len)
    ensures Keeps(v, w, s)
  {
    forall p | p in s && Has(v, p)
      ensures Has(w, p) && w.disk[w.base + p] == v.disk[v.base + p]
    {
      WrittenLap(v.base, v.len, from, to, p);
    }
  }

  /** Positions just appended lie off everything live or appended since `since`. */
  lemma {:induction false} FreshPlaces(s: set<nat>, live: set<nat>, since: nat, from: nat, to: nat, len: Positive)
    requires s <= live + Lap(since, from, len) && Lap(from, to, len) !! live
    requires since <= from <= to <= since + len
    ensures Lap(from, to, len) !! s
  {
    LapsApart(since, from, to, len);
  }

  lemma {:induction false} SealedSpot(v: Medium, x: nat, doc: Doc)
    requires Holds(v.disk, Spot(v.base, v.len, x), doc)
    ensures SealedAt(v, x % v.len, doc) && x % v.len in Lap(x, x + 1, v.len)
  {
  }

  class Tract {
    const base: nat
    var len: Positive
    var plow: nat
    var reap: nat
    var fence: Option<nat>

    constructor (base: nat, len: Positive, plow: nat, reap: nat, fence: Option<nat>)
      ensures this.base == base && this.len == len && this.plow == plow && this.reap == reap && this.fence == fence
    {
      this.base, this.len, this.plow, this.reap, this.fence := base, len, plow, reap, fence;
    }

    ghost function View(m: Mirror): Medium
      reads this, m
    {
      Medium(m.disk, base, len)
    }

    /** reap <= plow <= reap + len: every operation keeps it. */
    ghost predicate Valid()
      reads this
    {
      reap <= plow <= reap + len
    }

    function CleanBlocks(): nat
      requires plow - reap <= len && reap <= plow
      reads this
    {
      len - (plow - reap)
    }

    /** The fence lies within the clean space, so it can refuse what space would allow. */
    ghost predicate FenceBinds()
      reads this
    {
      fence.Some? && fence.value < reap + len
    }

    /** Appends made since the plow stood at `from` ended within the fence. */
    ghost predicate Within(from: nat)
      reads this
    {
      plow == from || fence.None? || plow <= fence.value
    }

    /** The append that is refused for want of space, by the fence, or by the lap guard. */
    ghost predicate Refused(live: LiveSet, n: nat)
      reads this, live
    {
      n > len - (plow - reap) || (fence.Some? && plow + n > fence.value) || !(Lap(plow, plow + n, len) !! live.Positions())
    }

    /** Lay documents from the plow on. It is refused exactly for want of space, at the fence or over a live block, and then
        nothing has changed; else each is staged at its cursor and nothing else is touched. */
    method Append(m: Mirror, live: LiveSet, docs: seq<Doc>) returns (r: Result<seq<nat>>)
      requires Valid() && m.Valid() && base + len <= |m.disk|
      modifies this`plow, m`pending, m`cache, m`disk
      ensures Valid() && m.Valid()
      ensures r.Err? <==> old(Refused(live, |docs|))
      ensures r.Err? ==> plow == old(plow) && m.disk == old(m.disk) && m.Staged() == old(m.Staged())
      ensures r.Err? ==> r.error == TractFull || (r.error == Fenced(plow) && FenceBinds())
      ensures r.Ok? ==> r.value == Places(old(plow), |docs|, len) && plow == old(plow) + |docs| <= reap + len
      ensures Within(old(plow))
      ensures Lap(old(plow), plow, len) !! live.Positions()
      ensures r.Ok? ==> Plowed(old(m.disk), m.disk, base, len, old(plow), docs)
      ensures Appended(old(View(m)), View(m), old(m.Staged()), m.Staged(), old(plow), plow)
    {
      var checked := Guard(live, |docs|);
      if checked.Err? {
        return Err(checked.error);
      }
      var placed := Places(plow, |docs|, len);
      Stage(m, docs);
      plow := plow + |docs|;
      return Ok(placed);
    }

    method Guard(live: LiveSet, n: nat) returns (r: Result<()>)
      requires Valid()
      ensures r.Err? <==> Refused(live, n)
      ensures r.Err? ==> r.error == TractFull || (r.error == Fenced(plow) && FenceBinds())
    {
      if n > CleanBlocks() {
        return Err(TractFull);
      }
      if fence.Some? && plow + n > fence.value {
        return Err(Fenced(plow));
      }
      for i := 0 to n
        invariant forall x :: plow <= x < plow + i ==> x % len !in live.Positions()
      {
        if live.IsReferenced((plow + i) % len) {
          assert (plow + i) % len in Lap(plow, plow + n, len);
          return Err(TractFull);
        }
      }
      return Ok(());
    }

    method Stage(m: Mirror, docs: seq<Doc>)
      requires Valid() && m.Valid() && base + len <= |m.disk| && |docs| <= len - (plow - reap)
      modifies m`pending, m`cache, m`disk
      ensures m.Valid()
      ensures Plowed(old(m.disk), m.disk, base, len, plow, docs)
      ensures StagedOnly(old(m.Staged()), m.Staged(), base, len, plow, plow + |docs|)
    {
      hide Last, Flat, Overlay, CacheSorted, CacheTrue;
      m.ReserveStaged(|docs|);
      for i := 0 to |docs|
        invariant m.Valid() && |m.disk| == old(|m.disk|)
        invariant Plowed(old(m.disk), m.disk, base, len, plow, docs[..i])
        invariant StagedOnly(old(m.Staged()), m.Staged(), base, len, plow, plow + i)
      {
        PlowedStep(old(m.disk), m.disk, base, len, plow, docs[..i], docs[i]);
        assert docs[..i + 1] == docs[..i] + [docs[i]];
        ghost var before := m.Staged();
        m.StageOne(Spot(base, len, plow + i), Sealed(docs[i]));
        StagedStep(old(m.Staged()), before, base, len, plow, plow + i, Sealed(docs[i]));
      }
      assert docs[..|docs|] == docs;
    }
  }
}
