/** Steps that go back to the committed head: rollback, the grow realignment, reopening; and the heartbeat ladder. */
module Barriers {
  import opened Blocks
  import opened Runs
  import opened Trie
  import opened Media
  import opened Devices
  import opened Mirrors
  import opened Tracts
  import opened Hamts
  import opened Rings
  import opened Generations
  import opened Sessions

  // ---------------------------------------------------------------- rolling back

  /** The pending edits dropped: the index is the committed head again. */
  ghost function RolledBack(s: State): State
    requires s.log != []
  {
    s.(index := Head(s).root, delta := Delta([], []), pending := None)
  }

  lemma {:induction false} PoisedRoot(s: State, since: nat, plow: nat)
    requires Rooted(s) && since <= plow <= since + s.len && Head(s).tract == s.len
    ensures Poised(ViewOf(s), Head(s).root, Delta([], []), s.live, since, plow)
    ensures Content(ViewOf(s), Head(s).root) == Past(s.log, 0).content
  {
    DiskRestores(s);
    RestoresFits(s.disk, s.log2, Past(s.log, 0));
    hide Sound, Once, Held, Content, Pos, Lap, Spined;
    NoLbas();
    assert ViewOf(s) == MediumOf(s.disk, Pow2(s.log2), Head(s));
  }

  lemma {:induction false} RollbackKeeps(s: State)
    requires Good(s)
    ensures Good(RolledBack(s)) && Pristine(RolledBack(s)) && Map(RolledBack(s)) == Past(s.log, 0).content
  {
    GoodHas(s);
    var w := RolledBack(s);
    assert s.since <= s.plow <= s.since + s.len && Head(s).tract == s.len && !IsDirty(Head(s).root);
    assert w.index == Head(s).root && w.delta == Delta([], []) && w.live == s.live && w.since == s.since && w.plow == s.plow;
    assert ViewOf(w) == ViewOf(s) && OnDisk(s, w) && w.fence == s.fence && w.reap == s.reap && w.since == s.since && w.pending.None?;
    assert Map(w) == Content(ViewOf(s), Head(s).root) && Pristine(w) && Settles(w) && Retired(w);
    hide *;
    PoisedRoot(s, s.since, s.plow);
    SameParts(s, w);
    GoodIs(w);
  }

  /** The same devices, cursors and log. */
  ghost predicate OnDisk(s: State, w: State) {
    && w.disk == s.disk && w.durable == s.durable && w.staged == s.staged && w.log2 == s.log2 && w.len == s.len
    && w.plow == s.plow && w.reap == s.reap && w.live == s.live && w.floor == s.floor && w.taken == s.taken && w.log == s.log
  }

  lemma {:induction false} SameParts(s: State, w: State)
    requires Cursors(s) && Rooted(s) && Tidy(s) && Deep(s) && Fenceable(s) && OnDisk(s, w)
    requires s.since <= w.since <= s.plow && (w.pending.Some? ==> w.reap <= w.pending.value <= w.plow)
    requires w.fence.None? || w.fence == s.fence || w.fence == Fence(s.disk, s.log2, Head(s))
    ensures Cursors(w) && Rooted(w) && Tidy(w) && Deep(w) && Fenceable(w)
  {
    hide Linked, Restores, StagedOff, Pos, Overlay, Guarded, Overrun, Lap, MinBudget, Intact, Fence, Pow2;
  }

  /** A pristine index has nothing appended since anywhere: the edits may be said to begin at the plow. */
  lemma {:induction false} LiftKeeps(s: State)
    requires Good(s) && s.delta.added == []
    ensures Good(s.(since := s.plow)) && Map(s.(since := s.plow)) == Map(s)
  {
    GoodHas(s);
    var w := s.(since := s.plow);
    assert w.index == s.index && w.delta == s.delta && w.live == s.live && w.since == w.plow == s.plow && ViewOf(w) == ViewOf(s);
    assert OnDisk(s, w) && w.fence == s.fence && w.pending == s.pending && s.since <= s.plow && Settles(w) && Retired(w);
    assert w.pending.Some? ==> w.reap <= w.pending.value <= w.plow;
    hide *;
    PoisedLift(ViewOf(s), s.index, s.delta, s.live, s.since, s.plow);
    SameParts(s, w);
    GoodIs(w);
    MapSame(s, w);
  }

  lemma {:induction false} PoisedLift(v: Medium, t: Tree, d: Delta, live: set<nat>, since: nat, plow: nat)
    requires Poised(v, t, d, live, since, plow) && d.added == []
    ensures Poised(v, t, d, live, plow, plow)
  {
    NoLbas();
  }

  /** The fence may be waived, and is what the ring says when recomputed. */
  lemma {:induction false} WaiveKeeps(s: State)
    requires Good(s)
    ensures Good(s.(fence := None)) && Map(s.(fence := None)) == Map(s)
    ensures Pow2(s.log2) <= |s.disk|
    ensures Good(s.(fence := Fence(s.disk, s.log2, Head(s)))) && Map(s.(fence := Fence(s.disk, s.log2, Head(s)))) == Map(s)
  {
    GoodHas(s);
    var f := Fence(s.disk, s.log2, Head(s));
    hide *;
    FenceOnly(s, None);
    FenceOnly(s, f);
  }

  lemma {:induction false} FenceOnly(s: State, fence: Option<nat>)
    requires Good(s) && Pow2(s.log2) <= |s.disk| && (fence.None? || fence == Fence(s.disk, s.log2, Head(s)))
    ensures Good(s.(fence := fence)) && Map(s.(fence := fence)) == Map(s)
  {
    GoodHas(s);
    var w := s.(fence := fence);
    assert w.index == s.index && w.delta == s.delta && w.live == s.live && w.since == s.since && w.plow == s.plow && ViewOf(w) == ViewOf(s);
    assert OnDisk(s, w) && w.fence == fence && w.pending == s.pending && w.since == s.since && s.since <= s.plow && Settles(w) && Retired(w);
    assert w.pending.Some? ==> w.reap <= w.pending.value <= w.plow;
    hide *;
    SameParts(s, w);
    GoodIs(w);
    MapSame(s, w);
  }

  /** A reaped window staged for its commit. */
  ghost function StagedReap(s: State, to: nat): State {
    s.(pending := Some(to))
  }

  lemma {:induction false} StageReapKeeps(s: State, to: nat)
    requires Good(s) && s.reap <= to <= s.plow && Lap(s.reap, to, s.len) * s.live <= Lbas(s.delta.removed)
    ensures Good(StagedReap(s, to)) && Map(StagedReap(s, to)) == Map(s)
  {
    GoodHas(s);
    var w := StagedReap(s, to);
    assert w.index == s.index && w.delta == s.delta && w.live == s.live && w.since == s.since && w.plow == s.plow && ViewOf(w) == ViewOf(s);
    assert OnDisk(s, w) && w.fence == s.fence && w.pending == Some(to) && w.reap == s.reap && s.since <= s.plow && Settles(w) && Retired(w);
    hide *;
    SameParts(s, w);
    GoodIs(w);
    MapSame(s, w);
  }

  // ---------------------------------------------------------------- growing

  /** The devices drained and extended with zeros. */
  ghost function Widened(s: State, disk: seq<Block>): State {
    s.(disk := disk, durable := disk, staged := map[])
  }

  lemma {:induction false} ExtendKeeps(s: State, disk: seq<Block>)
    requires Good(s) && s.disk <= disk
    ensures Good(Widened(s, disk)) && Map(Widened(s, disk)) == Map(s)
  {
    GoodHas(s);
    var w := Widened(s, disk);
    RestoresPrefix(s.disk, disk, s.log2, Past(s.log, 0));
    assert SameRing(s.disk, disk, Pow2(s.log2)) && SameTract(ViewOf(s), ViewOf(w));
    assert Intact(s.durable, s.staged, Pow2(s.log2), s.log, s.floor);
    assert w.index == s.index && w.delta == s.delta && w.live == s.live && w.since == s.since && w.plow == s.plow && w.log == s.log;
    hide *;
    NothingStaged(disk);
    FenceKept(s.disk, disk, s.log2, Head(s));
    IntactDrained(s);
    IntactPrefix(s.disk, disk, Pow2(s.log2), s.log, s.floor);
    PoisedSame(ViewOf(s), ViewOf(w), s.index, s.delta, s.live, s.since, s.plow);
    ExtendedParts(s, disk);
    GoodIs(w);
    MapSame(s, w);
  }

  lemma {:induction false} ExtendedParts(s: State, disk: seq<Block>)
    requires Cursors(s) && Rooted(s) && Settles(s) && Retired(s) && Tidy(s) && Deep(s) && Fenceable(s)
    requires Restores(disk, s.log2, Past(s.log, 0)) && disk == Overlay(disk, map[]) && Pow2(s.log2) <= |disk|
    requires Intact(disk, map[], Pow2(s.log2), s.log, s.floor) && Fence(disk, s.log2, Head(s)) == Fence(s.disk, s.log2, Head(s))
    ensures var w := Widened(s, disk); Cursors(w) && Rooted(w) && Settles(w) && Retired(w) && Tidy(w) && Deep(w) && Fenceable(w)
  {
    hide Linked, Lap, Intact, Guarded, Overrun, MinBudget, Fence, Pos, Restores, Lbas, Pow2, Overlay;
  }

  lemma {:induction false} IntactPrefix(disk: seq<Block>, after: seq<Block>, base: nat, log: seq<Gen>, floor: nat)
    requires Intact(disk, map[], base, log, floor) && disk <= after
    ensures Intact(after, map[], base, log, floor)
  {
    hide Stands, Pos, InWindow;
    forall k | 0 <= k < |log| && InWindow(log, |log| - 1, floor, k)
      ensures IntactAt(after, map[], base, log[k])
    {
      StandsKept(disk, after, base, log[k]);
    }
  }

  /** The smallest cursor from `plow` on that wraps to the old length under the new one. */
  function Realign(plow: nat, from: nat, to: nat): nat
    requires 0 < from < to
  {
    plow + (from + to - plow % to) % to
  }

  lemma {:induction false} RealignLaw(plow: nat, from: nat, to: nat)
    requires 0 < from < to
    ensures var p := Realign(plow, from, to); plow <= p < plow + to && p % to == from
  {
    var len: Positive := to;
    var m := plow % len;
    if from >= m {
      Turned(from - m, len);
      SmallMod(0, from - m, len);
      Shifted(plow, from - m, len);
    } else {
      SmallMod(0, from + len - m, len);
      Shifted(plow, from - m, len);
      Turned(plow + from - m, len);
    }
  }

  /** Going on by less than what is left of a lap, or back by less than what is done of it. */
  lemma {:induction false} Shifted(x: nat, d: int, len: Positive)
    requires 0 <= x % len + d < len
    ensures x + d >= 0 && (x + d) % len == x % len + d
  {
    var q, m := x / len, x % len;
    assert x == q * len + m;
    SmallMod(q, m + d, len);
  }

  /** No earlier cursor wraps to the old length: the realignment skips as little as it can. */
  lemma {:induction false} RealignLeast(plow: nat, from: nat, to: nat, x: nat)
    requires 0 < from < to && plow <= x < Realign(plow, from, to)
    ensures x % to != from
  {
    RealignLaw(plow, from, to);
    hide Realign;
    OneLap(x, Realign(plow, from, to), to);
  }

  /** From the realigned plow on, the new space comes first. */
  lemma {:induction false} NewSpace(plow: nat, from: nat, to: Positive, s: set<nat>)
    requires 0 < from < to && plow % to == from && forall p :: p in s ==> p < from
    ensures plow >= from && Lap(plow, plow - from + to, to) !! s
    ensures s <= Lap(0, plow, to)
  {
    var q := plow / to;
    assert plow == q * to + from;
    assert q * to >= 0;
    forall x | plow <= x < plow - from + to
      ensures x % to >= from
    {
      assert x == q * to + (from + (x - plow));
      SmallMod(q, from + (x - plow), to);
    }
    forall p | p in s
      ensures p in Lap(0, plow, to)
    {
      SmallMod(0, p, to);
      assert p % to == p < plow;
    }
  }

  /** From the realigned plow on nothing of the old tract is in reach of any budget since. */
  lemma {:induction false} GuardedGrown(log: seq<Gen>, was: nat, next: Gen, plow: nat, from: nat, to: Positive)
    requires 0 < from < to && plow % to == from && plow >= from
    requires next.entry.plow == plow && next.entry.reap == Some(plow - from) && next.entry.tract == to
    requires Guarded(log, was, from) && forall p :: p in Pos(next.entry.root) ==> p < from
    ensures Guarded(log + [next], plow, to) && !Overrun(next.entry)
  {
    hide Pos, Lap, MinBudget;
    NewSpace(plow, from, to, Pos(next.entry.root));
    forall i | 0 <= i < |log| + 1
      ensures Barred(log + [next], i, plow, to)
    {
      MinBudgetNext(log, next, i);
      if i > 0 {
        assert Barred(log, i - 1, was, from) && Past(log + [next], i) == Past(log, i - 1);
        LapWithin(plow, MinBudget(log + [next], i), plow - from + to, to);
        NewSpace(plow, from, to, Pos(Past(log, i - 1).entry.root));
      }
    }
  }

  /** The same generation under a longer tract. */
  lemma {:induction false} GrownStands(disk: seq<Block>, base: nat, g: Gen, e: Entry)
    requires Stands(disk, base, g) && e.root == g.entry.root && e.tract >= g.entry.tract && base + e.tract <= |disk|
    requires Pos(e.root) <= Lap(0, e.plow, e.tract)
    ensures Stands(disk, base, Gen(e, g.content))
  {
    hide Held, Sound, Once, Content, Pos, Lap;
    var v, w := MediumOf(disk, base, g.entry), MediumOf(disk, base, e);
    assert Keeps(v, w, Pos(e.root));
    HeldKept(v, w, e.root);
    ContentKept(v, w, e.root);
  }

  /** The entry of a grow: the head's root under the new length and the realigned cursors. */
  predicate Grows(s: State, e: Entry, to: nat) {
    && s.log != [] && 0 < s.len < to && e.gen == Head(s).gen + 1 && e.prev == Prev(Head(s)) && e.ringLog2 == s.log2
    && e.tract == to && e.root == Head(s).root && e.plow == Realign(Head(s).plow, s.len, to)
    && e.plow >= s.len && e.reap == Some(e.plow - s.len)
  }

  ghost function Grown(s: State, e: Entry): State
    requires e.gen % Pow2(s.log2) < |s.disk| && Pow2(s.log2) <= |s.disk| && s.log != [] && e.tract > 0 && e.reap.Some?
  {
    AfterWrite(s, e, Past(s.log, 0).content).(len := e.tract, plow := e.plow, reap := e.reap.value, since := e.plow, taken := s.floor)
  }

  lemma {:induction false} GrowFits(s: State, e: Entry, to: nat)
    requires Good(s) && Grows(s, e, to) && Pow2(s.log2) + to <= |s.disk|
    ensures Follows(s, e) && Stands(s.disk, Pow2(s.log2), Gen(e, Past(s.log, 0).content))
    ensures e.gen % Pow2(s.log2) < Pow2(s.log2) <= |s.disk| && e.plow % to == s.len
    ensures forall p :: p in Pos(e.root) ==> p < s.len
    ensures Lap(e.plow, e.plow - s.len + to, to) !! Pos(e.root)
  {
    GoodHas(s);
    RealignLaw(Head(s).plow, s.len, to);
    StandsBelow(s.disk, Pow2(s.log2), Past(s.log, 0));
    NewSpace(e.plow, s.len, to, Pos(e.root));
    hide Restores, Stands, Lap, Pos, Fence, Pow2, Poised, Spined, Linked, Intact, Rooted, Guarded, Retired, Realign;
    GrownStands(s.disk, Pow2(s.log2), Past(s.log, 0), e);
  }

  lemma {:induction false} GrowWindow(s: State, e: Entry, to: nat)
    requires Good(s) && Grows(s, e, to) && Pow2(s.log2) + to <= |s.disk| && e.gen % Pow2(s.log2) < Pow2(s.log2) <= |s.disk|
    ensures Deep(Grown(s, e)) && NextDeep(s.log, Gen(e, Past(s.log, 0).content)) && !Overrun(e)
  {
    var next := Gen(e, Past(s.log, 0).content);
    hide *;
    GrowStarts(s, e, to);
    GrowFits(s, e, to);
    GuardedGrown(s.log, Head(s).plow, next, e.plow, s.len, to);
    IntactDrained(s);
    IntactNext(s.disk, Pow2(s.log2), s.log, s.floor, next, e.gen % Pow2(s.log2), Spine(e));
    GrownDeep(s, e);
  }

  lemma {:induction false} GrowStarts(s: State, e: Entry, to: nat)
    requires Good(s) && Grows(s, e, to)
    ensures s.log != [] && Guarded(s.log, Head(s).plow, s.len) && Intact(s.durable, s.staged, Pow2(s.log2), s.log, s.floor) && Rooted(s)
    ensures s.floor <= |s.log| && e.plow >= s.len && e.reap == Some(e.plow - s.len) && e.tract == to > s.len > 0
  {
    hide Rooted, Cursors, Settles, Retired, Fenceable, Poised, Guarded, Intact, MinBudget, Overrun, Clean, Realign;
  }

  lemma {:induction false} GrownDeep(s: State, e: Entry)
    requires s.log != [] && e.gen % Pow2(s.log2) < Pow2(s.log2) <= |s.disk| && e.tract > 0 && e.reap.Some? && s.floor <= |s.log|
    requires var next := Gen(e, Past(s.log, 0).content);
      && Intact(s.disk[e.gen % Pow2(s.log2) := Spine(e)], map[], Pow2(s.log2), s.log + [next], s.floor)
      && Guarded(s.log + [next], e.plow, e.tract)
    ensures Deep(Grown(s, e)) && NextDeep(s.log, Gen(e, Past(s.log, 0).content))
  {
    hide Intact, Guarded, Fence, Pow2, MinBudget;
  }

  /** A grow commits the head's own map under the new length; clean space is exactly the new blocks, and the
      generations of the window stay readable and guarded. */
  lemma {:induction false} GrowKeeps(s: State, e: Entry, to: nat)
    requires Good(s) && Pristine(s) && s.pending.None? && Grows(s, e, to) && Pow2(s.log2) + to <= |s.disk|
    ensures e.gen % Pow2(s.log2) < Pow2(s.log2) <= |s.disk|
    ensures var w := Grown(s, e); Good(w) && Map(w) == Past(s.log, 0).content && Writes(s, e, Past(s.log, 0).content) && !Overrun(e)
  {
    GoodHas(s);
    GrowFits(s, e, to);
    var content, slot := Past(s.log, 0).content, e.gen % Pow2(s.log2);
    var next, w := Gen(e, content), Grown(s, e);
    assert w.disk == s.disk[slot := Spine(e)] && w.log == s.log + [next] && w.durable == w.disk && w.staged == map[];
    assert w.index == s.index == e.root && w.delta == Delta([], []) && w.live == s.live == Pos(e.root);
    GrowWindow(s, e, to);
    WritesNext(s, e, content);
    WrittenRestores(s, e, content);
    LinkedNext(s.log, next);
    hide Poised, Linked, Lap, Intact, Guarded, Fence, Content, Pos, Restores, Spined, Stands, Lbas, Pow2, Overlay, Realign, Writes, Overrun, MinBudget;
    NewestIsHead(s.log, next);
    assert Rooted(w) && Cursors(w);
    PoisedRoot(w, w.since, w.plow);
    assert Settles(w) && Retired(w);
    assert Tidy(w) && Fenceable(w);
    GoodIs(w);
  }

  lemma {:induction false} NewestIsHead(log: seq<Gen>, next: Gen)
    ensures Past(log + [next], 0) == next
  {
  }

  // ---------------------------------------------------------------- reopening

  /** What an open has in memory: the head's index, the live set walked from it, the reap derived. */
  ghost function Opened(disk: seq<Block>, log2: nat, log: seq<Gen>, floor: nat, reap: nat): State
    requires log != [] && Past(log, 0).entry.tract > 0 && Pow2(log2) <= |disk|
  {
    var e := Past(log, 0).entry;
    State(disk, disk, map[], log2, e.tract, e.plow, reap, Fence(disk, log2, e), e.root, Delta([], []),
          Pos(e.root), None, e.plow, floor, floor, log)
  }

  lemma {:induction false} OpenIntact(disk: seq<Block>, log2: nat, log: seq<Gen>, floor: nat)
    requires log != [] && Deepens(disk, log2, log, |log| - 1, floor)
    ensures Intact(disk, map[], Pow2(log2), log, floor)
    ensures Past(log, 0).entry.tract > 0 && Guarded(log, Past(log, 0).entry.plow, Past(log, 0).entry.tract)
  {
    hide Stands, Guarded, Overrun, Pow2;
    var j := |log| - 1;
    assert log[..j] + [log[j]] == log;
  }

  lemma {:induction false} OpenKeeps(disk: seq<Block>, log2: nat, log: seq<Gen>, floor: nat, reap: nat)
    requires Linked(log) && floor <= |log| && RestoresAt(disk, log2, log, |log| - 1, floor)
    requires var e := Past(log, 0).entry; e.tract > 0 && reap <= e.plow <= reap + e.tract && Lap(e.plow, reap + e.tract, e.tract) !! Pos(e.root)
    ensures Pow2(log2) <= |disk|
    ensures var s := Opened(disk, log2, log, floor, reap); Good(s) && Map(s) == Past(log, 0).content
  {
    RestoresFits(disk, log2, Past(log, 0));
    var s := Opened(disk, log2, log, floor, reap);
    NothingStaged(disk);
    hide Poised, Lap, Fence, Content, Pos, Restores, Spined, Stands, Lbas, Pow2, Overlay, Linked, Deepens, Intact, Guarded, Overrun, MinBudget;
    assert Rooted(s) && Cursors(s);
    PoisedRoot(s, s.since, s.plow);
    OpenIntact(disk, log2, log, floor);
    assert Settles(s) && Retired(s) && Tidy(s) && Deep(s) && Fenceable(s);
    GoodIs(s);
  }

  /** A zeroed ring with generation 0 in its first slot restores the empty map. */
  lemma {:induction false} GenesisRestores(disk: seq<Block>, log2: nat, e: Entry)
    requires 0 < log2 <= 32 && Pow2(log2) + e.tract <= |disk| && Geometry(e)
    requires e.gen == 0 && e.prev.Genesis? && e.ringLog2 == log2 && e.root == Nil
    requires disk[0] == Spine(e) && forall s :: 0 < s < Pow2(log2) ==> disk[s].Zero?
    ensures Restores(disk, log2, Gen(e, map[]))
  {
    hide Pow2;
    ModSmall(0, Pow2(log2));
    RingGenesis(disk, log2, e);
    TwoSlots(log2);
    assert Content(MediumOf(disk, Pow2(log2), e), Nil) == map[];
  }

  /** A log of one generation: all a first open knows. */
  lemma {:induction false} LoneLog(disk: seq<Block>, log2: nat, g: Gen)
    requires Restores(disk, log2, g)
    ensures Linked([g]) && RestoresAt(disk, log2, [g], 0, 0)
  {
    RestoresFits(disk, log2, g);
    StandsBelow(disk, Pow2(log2), g);
    hide Restores, Stands, Spined, Pow2, Guarded, Overrun, Pos;
    GuardedLone(g);
    assert [g][..0] + [g] == [g];
  }

  // ---------------------------------------------------------------- the heartbeat ladder

  /** The newest `n` generations have readable slots and one and the same budget. */
  ghost predicate Level(disk: seq<Block>, log2: nat, log: seq<Gen>, n: nat, budget: nat) {
    && Pow2(log2) <= |disk| && n <= |log|
    && forall i :: 0 <= i < n ==> Rings.Readable(disk, log2, Past(log, 0).entry, i) && Budget(Past(log, i).entry) == budget
  }

  lemma {:induction false} LevelStart(disk: seq<Block>, log2: nat, log: seq<Gen>)
    requires log != [] && Spined(disk, log2, Past(log, 0).entry)
    ensures Level(disk, log2, log, 1, Budget(Past(log, 0).entry))
  {
    hide RingHolds, Chained, Classify, Pow2, Quiet, Lasting, Budget;
    assert Rings.Readable(disk, log2, Past(log, 0).entry, 0);
  }

  /** One more heartbeat: one more slot of the window at the head's own budget. */
  lemma {:induction false} LevelNext(disk: seq<Block>, log2: nat, log: seq<Gen>, n: nat, budget: nat, next: Gen)
    requires Level(disk, log2, log, n, budget) && 0 < n < Pow2(log2) && Linked(log) && Spined(disk, log2, Past(log, 0).entry)
    requires Beats(Past(log, 0).entry, next.entry) && next.entry.gen % Pow2(log2) < |disk|
    ensures Level(disk[next.entry.gen % Pow2(log2) := Spine(next.entry)], log2, log + [next], n + 1, budget)
  {
    var head, slot := Past(log, 0).entry, next.entry.gen % Pow2(log2);
    var after, more := disk[slot := Spine(next.entry)], log + [next];
    SpinedNext(disk, after, log2, head, next.entry);
    assert Past(more, 0) == next;
    assert Budget(head) == budget by {
      assert Rings.Readable(disk, log2, head, 0);
    }
    hide Classify, Pow2, RingHolds, Chained, Linked, Quiet, Lasting;
    forall i | 0 <= i < n + 1
      ensures Rings.Readable(after, log2, next.entry, i) && Budget(Past(more, i).entry) == budget
    {
      if i > 0 {
        assert Past(more, i) == Past(log, i - 1);
        assert Rings.Readable(disk, log2, head, i - 1);
        OneLap(next.entry.gen - i, next.entry.gen, Pow2(log2));
        assert next.entry.gen - i == head.gen - (i - 1);
        assert after[(next.entry.gen - i) % Pow2(log2)] == disk[(next.entry.gen - i) % Pow2(log2)];
      }
    }
  }

  lemma {:induction false} LevelKept(disk: seq<Block>, after: seq<Block>, log2: nat, log: seq<Gen>, n: nat, budget: nat)
    requires Level(disk, log2, log, n, budget) && SameRing(disk, after, Pow2(log2))
    ensures Level(after, log2, log, n, budget)
  {
    hide Classify, Pow2, Budget;
    forall i | 0 <= i < n
      ensures Rings.Readable(after, log2, Past(log, 0).entry, i)
    {
      assert Rings.Readable(disk, log2, Past(log, 0).entry, i);
      var s := (Past(log, 0).entry.gen - i) % Pow2(log2);
      assert after[s] == disk[s];
    }
  }

  lemma {:induction false} LevelLess(disk: seq<Block>, log2: nat, log: seq<Gen>, n: nat, k: nat, budget: nat)
    requires Level(disk, log2, log, n, budget) && k <= n
    ensures Level(disk, log2, log, k, budget)
  {
  }

  /** After K heartbeats the fence is the committed head's own budget. */
  lemma {:induction false} LevelFence(disk: seq<Block>, log2: nat, log: seq<Gen>, n: nat, budget: nat)
    requires Level(disk, log2, log, n, budget) && n >= FENCE_K && Linked(log) && Chained(Past(log, 0).entry)
    ensures Fence(disk, log2, Past(log, 0).entry) == Some(budget)
  {
    hide Classify, Pow2, Chained, Fence, Budget;
    var head := Past(log, 0).entry;
    forall i | 0 <= i < FENCE_K
      ensures Rings.Readable(disk, log2, head, i) && Budget(Ancestor(head, i).value) == budget
    {
      assert Rings.Readable(disk, log2, head, i);
      LinkedAncestor(log, i);
    }
    assert Rings.Readable(disk, log2, head, FENCE_K - 1);
    FenceOfEqual(disk, log2, head, budget);
  }

  // ---------------------------------------------------------------- a window that crosses uncommitted work

  /** Blocks a reap window spans at least. */
  const REAP_WINDOW_MIN: nat := 16

  /** Clean blocks kept for the retiring commit's own index. */
  const RESERVE: nat := 4

  function WindowOf(len: nat): (w: nat)
    ensures w >= REAP_WINDOW_MIN
  {
    if len / 64 > REAP_WINDOW_MIN then len / 64 else REAP_WINDOW_MIN
  }

  /** A window the vault would reap: within its bounds, everything live in it retired by the pending edits. */
  ghost predicate Reapable(s: State, w: nat) {
    && 0 < w <= WindowOf(s.len) && s.reap + w <= s.plow && w + RESERVE <= s.reap + s.len - s.plow
    && Lap(s.reap, s.reap + w, s.len) * s.live <= Lbas(s.delta.removed)
  }

  /** From a good state: a window staged, the commit after it, and clean space that holds the committed root's blocks. */
  ghost predicate Overruns(s: State, w: nat, e: Entry) {
    && Good(s) && !Overrun(Head(s)) && s.pending.None? && Reapable(s, w)
    && Crosses(StagedReap(s, s.reap + w)) && Commits(StagedReap(s, s.reap + w), e) && !IsDirty(s.index)
    && e.gen % Pow2(s.log2) < Pow2(s.log2) <= |s.disk|
    && Good(AfterCommit(StagedReap(s, s.reap + w), e)) && !Clean(AfterCommit(StagedReap(s, s.reap + w), e))
  }

  /** CommitSpace's condition can fail: a window may reach past where the pending edits began and swallow a block they
      appended, which no walk of the committed index retires. Here one put into an empty vault of 64 blocks, a window of
      one block over it, and the commit: the one live block is then counted clean. */
  lemma {:induction false} CrossingBreaks()
    ensures exists s: State, w: nat, e: Entry :: Overruns(s, w, e)
  {
    var s, e := OnePut();
    hide *;
    OneWindow(s, e);
    assert Overruns(s, 1, e);
  }

  function FirstEntry(): Entry {
    Entry(0, Prev.Genesis, 1, 64, Nil, 0, Some(0), 0, 0)
  }

  function FirstDisk(): seq<Block> {
    [Spine(FirstEntry())] + seq(65, _ => Zero)
  }

  function FirstLeaf(): Tree {
    Leaf(0, NoKey(), Lone([]))
  }

  /** A fresh vault of 64 blocks. */
  lemma {:induction false} FreshGood() returns (s: State)
    ensures Good(s) && s.log == [Gen(FirstEntry(), map[])] && s.disk == FirstDisk() == s.durable && s.staged == map[] && s.log2 == 1
    ensures s.len == 64 && s.plow == s.reap == s.since == 0 && s.live == {} && s.delta == Delta([], []) && s.index == Nil
    ensures s.pending == None && !Overrun(Head(s)) && s.fence == None && s.floor == s.taken == 0
  {
    var e, disk := FirstEntry(), FirstDisk();
    var log := [Gen(e, map[])];
    assert Pow2(1) == 2;
    GenesisRestores(disk, 1, e);
    LoneLog(disk, 1, log[0]);
    assert Past(log, 0) == log[0] && Pos(Nil) == {};
    OpenKeeps(disk, 1, log, 0, 0);
    s := Opened(disk, 1, log, 0, 0);
  }

  /** The first put of a fresh vault: one leaf at position 0. */
  lemma {:induction false} OnePut() returns (s: State, e: Entry)
    ensures Good(s) && !Overrun(Head(s)) && s.pending.None? && s.index == FirstLeaf() && s.log == [Gen(FirstEntry(), map[])] && s.log2 == 1 && |s.disk| == 66
    ensures s.reap == s.since == 0 && s.plow == 1 && s.len == 64 && s.live == {}
    ensures s.delta == Delta([Ref(0, DocOf(FirstLeaf()))], []) && s.fence == None && s.floor == s.taken == 0
    ensures e == Entry(1, Prev(FirstEntry()), 1, 64, FirstLeaf(), 1, Some(1), 1, 0)
  {
    var fresh_ := FreshGood();
    var t, sw := FirstLeaf(), map[2 := Sealed(DocOf(FirstLeaf()))];
    var w := Medium(FirstDisk()[2 := Sealed(DocOf(FirstLeaf()))], 2, 64);
    var d := Delta([Ref(0, DocOf(t))], []);
    e := Entry(1, Prev(FirstEntry()), 1, 64, t, 1, Some(1), 1, 0);
    assert Pow2(1) == 2 && ViewOf(fresh_) == Medium(FirstDisk(), 2, 64);
    assert Lap(0, 1, 64) !! fresh_.live && AfterAppend(fresh_, 1) == 0;
    FirstPoised(w, t, d);
    hide *;
    FirstAppend(w, sw);
    LeafClean(t);
    EditKeeps(fresh_, w, sw, 1, t, d);
    s := Edited(fresh_, w, sw, 1, t, d);
    EditedIs(fresh_, w, sw, t, d);
  }

  lemma {:induction false} EditedIs(s: State, w: Medium, sw: map<nat, Block>, t: Tree, d: Delta)
    requires s.floor <= |s.log|
    ensures var u := Edited(s, w, sw, 1, t, d);
      && u == s.(disk := w.disk, staged := sw, plow := 1, index := t, delta := d, floor := AfterAppend(s, 1))
  {
  }

  lemma {:induction false} LeafClean(t: Tree)
    ensures t.Leaf? ==> !IsDirty(t)
  {
  }

  lemma {:induction false} FirstAppend(w: Medium, sw: map<nat, Block>)
    requires var b := Sealed(DocOf(FirstLeaf())); w == Medium(FirstDisk()[2 := b], 2, 64) && sw == map[2 := b]
    ensures Appended(Medium(FirstDisk(), 2, 64), w, map[], sw, 0, 1) && w.disk == Overlay(FirstDisk(), sw) && |w.disk| == 66
  {
    FirstSpot();
    assert Written(2, 64, 0, 1, 2);
  }

  lemma {:induction false} FirstSpot()
    ensures Spot(2, 64, 0) == 2 && Lap(0, 1, 64) == {0}
  {
    assert 0 % 64 == 0;
  }

  lemma {:induction false} FirstPoised(w: Medium, t: Tree, d: Delta)
    requires t == FirstLeaf() && d == Delta([Ref(0, DocOf(t))], []) && w.base == 2 && w.len == 64 && |w.disk| == 66 && w.disk[2] == Sealed(DocOf(t))
    ensures Poised(w, t, d, {}, 0, 1) && Lbas(d.added) == {0} && Lbas(d.removed) == {}
  {
    FirstSpot();
    LbaOne(Ref(0, DocOf(t)));
    NoLbas();
    assert NoKey()[..0] == [];
    assert SealedAt(w, 0, DocOf(t));
    assert Pos(t) == {0};
  }

  lemma {:induction false} OneWindow(s: State, e: Entry)
    requires Good(s) && !Overrun(Head(s)) && s.pending.None? && s.index == FirstLeaf() && s.log == [Gen(FirstEntry(), map[])] && s.log2 == 1
    requires |s.disk| == 66
    requires s.reap == s.since == 0 && s.plow == 1 && s.len == 64 && s.live == {}
    requires s.delta == Delta([Ref(0, DocOf(FirstLeaf()))], [])
    requires e == Entry(1, Prev(FirstEntry()), 1, 64, FirstLeaf(), 1, Some(1), 1, 0)
    ensures Overruns(s, 1, e)
  {
    hide Good, Lbas;
    FirstSpot();
    LbaOne(Ref(0, DocOf(FirstLeaf())));
    NoLbas();
    assert Pow2(1) == 2;
    var u := StagedReap(s, 1);
    StageReapKeeps(s, 1);
    assert Crosses(u);
    CommitKeeps(u, e);
    assert 64 % 64 == 0 && 0 in Lap(1, 1 + 64, 64) by {
      assert 1 <= 64 < 65;
    }
    assert Pos(FirstLeaf()) == {0};
  }

  // ---------------------------------------------------------------- an append past a budget

  /** From a good state with too few generations for a fence: appends within clean space and off everything live, after
      which a generation of the window no longer reads back. */
  ghost predicate Loses(s: State, w: Medium, sw: map<nat, Block>, docs: seq<Doc>, k: nat) {
    var to := s.plow + |docs|;
    && Good(s) && s.fence == None && k < |s.log| && InWindow(s.log, |s.log| - 1, s.floor, k) && s.floor <= |s.log|
    && Plowed(s.disk, w.disk, Pow2(s.log2), s.len, s.plow, docs) && to <= s.reap + s.len && Lap(s.plow, to, s.len) !! s.live
    && to > MinBudget(s.log, |s.log| - 1 - k) && Good(Edited(s, w, sw, to, s.index, s.delta))
    && Stands(s.disk, Pow2(s.log2), s.log[k]) && !Stands(w.disk, Pow2(s.log2), s.log[k])
  }

  /** Without a fence an append past a budget can overwrite what an older generation references. Here one key put and
      deleted in a vault of 64 blocks, its block reaped by the delete's commit, and a lap of appends: the generation that
      held the key is gone, two generations back. */
  lemma {:induction false} UnfencedLoses()
    ensures exists s: State, w: Medium, sw: map<nat, Block>, docs: seq<Doc>, k: nat :: Loses(s, w, sw, docs, k)
  {
    var s, g := PutAndDeleted();
    hide *;
    var w, sw, docs := LapOver(s, g);
    assert Loses(s, w, sw, docs, 1);
  }

  /** The state after the put and the delete have been committed, and the generation of the put. */
  ghost predicate Deleted(s: State, g: Gen) {
    && |s.log| == 3 && s.log[1] == g && g.entry.root == FirstLeaf() && g.entry.tract == 64 && g.entry.plow == 1 && g.entry.reap == Some(0)
    && s.log2 == 1 && |s.disk| == 66 && s.durable == s.disk && s.staged == map[] && s.len == 64 && s.plow == s.since == 1 && s.reap == 1
    && s.live == {} && s.index == Nil && s.delta == Delta([], []) && s.fence == None && s.floor == 0
    && Budget(s.log[2].entry) == 65
  }

  lemma {:induction false} PutAndDeleted() returns (s: State, g: Gen)
    ensures Good(s) && Deleted(s, g)
  {
    hide Good, Poised;
    var put, _ := OnePut();
    var e := Entry(1, Prev(FirstEntry()), 1, 64, FirstLeaf(), 1, Some(0), 1, 0);
    LeafClean(FirstLeaf());
    CommitKeeps(put, e);
    var one := AfterCommit(put, e);
    g := Gen(e, Map(put));
    assert one.log == put.log + [g] && Past(one.log, 0) == g && Pos(FirstLeaf()) == {0};
    var gone := Edited(one, ViewOf(one), one.staged, 1, Nil, Delta([], [Ref(0, DocOf(FirstLeaf()))]));
    LeafGone(one, g);
    var staged := StagedReap(gone, 1);
    FirstSpot();
    LbaOne(Ref(0, DocOf(FirstLeaf())));
    StageReapKeeps(gone, 1);
    var f := Entry(2, Prev(e), 1, 64, Nil, 1, Some(1), 0, 0);
    CommitKeeps(staged, f);
    s := AfterCommit(staged, f);
    assert s.log == one.log + [Gen(f, Map(staged))];
  }

  lemma {:induction false} LeafGone(one: State, g: Gen)
    requires Good(one) && |one.log| == 2 && one.log[1] == g && g.entry.root == FirstLeaf() && g.entry.tract == 64
    requires one.log2 == 1 && |one.disk| == 66 && one.len == 64 && one.plow == one.since == 1 && one.reap == 0 && one.floor == 0
    requires one.live == {0} && one.index == FirstLeaf() && one.delta == Delta([], [])
    ensures Good(Edited(one, ViewOf(one), one.staged, 1, Nil, Delta([], [Ref(0, DocOf(FirstLeaf()))])))
  {
    GoodHas(one);
    var v, d := ViewOf(one), Delta([], [Ref(0, DocOf(FirstLeaf()))]);
    RestoresFits(one.disk, 1, g);
    assert SealedAt(v, 0, DocOf(FirstLeaf()));
    LbaOne(Ref(0, DocOf(FirstLeaf())));
    NoLbas();
    assert Poised(v, Nil, d, one.live, 1, 1);
    NothingAppended(v, one.staged, 1);
    assert v.disk == Overlay(one.durable, one.staged);
    hide *;
    EditKeeps(one, v, one.staged, 1, Nil, d);
  }

  /** A block of some other leaf, and the device once a lap of them has been appended. */
  function OtherDoc(): Doc {
    LeafDoc(NoKey(), Lone([1]))
  }

  function Overwritten(disk: seq<Block>): seq<Block>
    requires |disk| == 66
  {
    disk[..2] + seq(64, _ => Sealed(OtherDoc()))
  }

  /** A lap of appends over the whole tract. */
  lemma {:induction false} LapOver(s: State, g: Gen) returns (w: Medium, sw: map<nat, Block>, docs: seq<Doc>)
    requires Good(s) && Deleted(s, g)
    ensures Loses(s, w, sw, docs, 1)
  {
    docs := seq(64, _ => OtherDoc());
    sw := map p | p in Lap(2, 66, 66) :: Sealed(OtherDoc());
    w := Medium(Overwritten(s.disk), 2, 64);
    assert |s.disk| == 66 && |docs| == 64;
    hide *;
    LapWritten(s.disk, docs);
    LapStaged(s.disk, w, sw);
    LapGood(s, g, w, sw);
    LapBudget(s, g);
    LapGone(s, g);
    LapLoses(s, g, w, sw, docs);
  }

  lemma {:induction false} LapLoses(s: State, g: Gen, w: Medium, sw: map<nat, Block>, docs: seq<Doc>)
    requires Good(s) && Deleted(s, g) && |docs| == 64 && Plowed(s.disk, w.disk, 2, 64, 1, docs)
    requires s.floor <= |s.log| && Good(Edited(s, w, sw, 65, Nil, s.delta)) && Lap(1, 65, 64) !! s.live
    requires |s.log| > 1 && MinBudget(s.log, 1) == 64 && !Overrun(g.entry) && Stands(s.disk, 2, g) && !Stands(w.disk, 2, g)
    ensures Loses(s, w, sw, docs, 1)
  {
    hide Good, Plowed, Lap, MinBudget, Stands, Overrun, Edited, Budget;
    assert Pow2(1) == 2;
  }

  lemma {:induction false} LapGood(s: State, g: Gen, w: Medium, sw: map<nat, Block>)
    requires Good(s) && Deleted(s, g) && w.base == 2 && w.len == 64
    requires Appended(Medium(s.disk, 2, 64), w, map[], sw, 1, 65) && w.disk == Overlay(s.disk, sw)
    ensures s.floor <= |s.log| && Good(Edited(s, w, sw, 65, Nil, s.delta))
    ensures Stands(s.disk, 2, g) && Lap(1, 65, 64) !! s.live
  {
    assert Pow2(1) == 2 && ViewOf(s) == Medium(s.disk, 2, 64);
    assert s.log[1] == g && s.live == {} && s.staged == map[] && s.index == Nil && s.delta == Delta([], []);
    GoodHas(s);
    PoisedOrphans(ViewOf(s), w, s.staged, sw, Nil, s.delta, {}, 1, 1, 65);
    NilHead(s);
    LapBudget(s, g);
    WindowShown(s, 1);
    hide Good, Poised, Appended, Lap, Stands, Overrun, Overlay;
    EditKeeps(s, w, sw, 65, Nil, s.delta);
  }

  lemma {:induction false} NilHead(s: State)
    requires Good(s) && Pristine(s)
    ensures s.log != [] && s.index == Head(s).root
  {
  }

  lemma {:induction false} LapSpots()
    ensures forall x :: 1 <= x < 65 ==> Spot(2, 64, x) == if x == 64 then 2 else x + 2
    ensures forall p :: 2 <= p < 66 ==> Written(2, 64, 1, 65, p)
  {
    forall x | 1 <= x < 65
      ensures Spot(2, 64, x) == if x == 64 then 2 else x + 2
    {
      assert x < 64 ==> x % 64 == x;
    }
    forall p | 2 <= p < 66
      ensures Written(2, 64, 1, 65, p)
    {
      assert p == Spot(2, 64, if p == 2 then 64 else p - 2);
    }
  }

  lemma {:induction false} LapWritten(disk: seq<Block>, docs: seq<Doc>)
    requires |disk| == 66 && docs == seq(64, _ => OtherDoc())
    ensures Plowed(disk, Overwritten(disk), 2, 64, 1, docs)
  {
    hide Spot, Written;
    LapSpots();
  }

  lemma {:induction false} LapStaged(disk: seq<Block>, w: Medium, sw: map<nat, Block>)
    requires |disk| == 66 && w == Medium(Overwritten(disk), 2, 64) && sw == map p | p in Lap(2, 66, 66) :: Sealed(OtherDoc())
    ensures Appended(Medium(disk, 2, 64), w, map[], sw, 1, 65) && w.disk == Overlay(disk, sw)
  {
    hide Written;
    LapSpots();
    forall p | 2 <= p < 66
      ensures p in Lap(2, 66, 66)
    {
      assert p % 66 == p;
    }
  }

  lemma {:induction false} LapBudget(s: State, g: Gen)
    requires Deleted(s, g)
    ensures MinBudget(s.log, 1) == 64 && !Overrun(g.entry)
  {
    assert Past(s.log, 1) == g && Past(s.log, 0) == s.log[2];
    assert Pos(FirstLeaf()) == {0};
    assert 0 !in Lap(1, 64, 64) by {
      forall x | 1 <= x < 64
        ensures x % 64 != 0
      {
      }
    }
  }

  lemma {:induction false} LapGone(s: State, g: Gen)
    requires Deleted(s, g)
    ensures !Stands(Overwritten(s.disk), 2, g)
  {
    var v := Medium(Overwritten(s.disk), 2, 64);
    assert v.disk[2] == Sealed(OtherDoc()) && DocOf(FirstLeaf()) != OtherDoc();
    assert !SealedAt(v, 0, DocOf(FirstLeaf()));
    assert !Held(v, FirstLeaf());
  }

  // ---------------------------------------------------------------- deriving the reap

  /** Distance from cursor `plow` to position `lba`, going up. */
  function Ahead(plow: nat, lba: nat, len: Positive): (d: nat)
    requires lba < len
    ensures d < len && (plow + d) % len == lba
  {
    var pos := plow % len;
    AheadLaw(plow, lba, len);
    (lba + len - pos) % len
  }

  lemma {:induction false} AheadLaw(plow: nat, lba: nat, len: Positive)
    requires lba < len
    ensures var d := (lba + len - plow % len) % len; d < len && (plow + d) % len == lba
  {
    var q, pos := plow / len, plow % len;
    assert plow == q * len + pos;
    if lba >= pos {
      Turned(lba - pos, len);
      SmallMod(0, lba - pos, len);
      SmallMod(q, lba, len);
    } else {
      SmallMod(0, lba + len - pos, len);
      assert plow + (lba + len - pos) == (q + 1) * len + lba;
      SmallMod(q + 1, lba, len);
    }
  }

  /** No cursor before the distance reaches the position. */
  lemma {:induction false} AheadFirst(plow: nat, lba: nat, len: Positive, x: nat)
    requires lba < len && plow <= x < plow + Ahead(plow, lba, len)
    ensures x % len != lba
  {
    OneLap(x, plow + Ahead(plow, lba, len), len);
  }

  /** With the reap there, clean space holds no live position. */
  ghost predicate CleanFrom(plow: nat, reap: nat, len: Positive, live: set<nat>) {
    Lap(plow, reap + len, len) !! live
  }

  /** The furthest the reap can stand with clean space free of everything live. */
  method DeriveReap(plow: nat, len: Positive, live: set<nat>) returns (reap: nat)
    requires forall p :: p in live ==> p < len && p in Lap(0, plow, len)
    ensures reap <= plow <= reap + len
    ensures CleanFrom(plow, reap, len, live)
    ensures forall r: nat :: reap < r <= plow ==> !CleanFrom(plow, r, len, live)
  {
    hide Ahead, Lap;
    var clean: nat := len;
    var todo := live;
    ghost var nearest: Option<nat> := None;
    while todo != {}
      invariant todo <= live && clean <= len
      invariant forall p :: p in live && p !in todo ==> clean <= Ahead(plow, p, len)
      invariant nearest.None? ==> clean == len
      invariant nearest.Some? ==> nearest.value in live && clean == Ahead(plow, nearest.value, len)
      decreases |todo|
    {
      var lba :| lba in todo;
      var d := Ahead(plow, lba, len);
      if d < clean {
        clean := d;
        nearest := Some(lba);
      }
      todo := todo - {lba};
    }
    reap := if plow + clean > len then plow + clean - len else 0;
    if nearest.Some? {
      FirstLap(plow, nearest.value, len);
      forall r: nat | reap < r <= plow
        ensures !CleanFrom(plow, r, len, live)
      {
        NotClean(plow, r, len, live, nearest.value);
      }
    }
    CleanUpTo(plow, reap, len, live);
  }

  lemma {:induction false} NotClean(plow: nat, r: nat, len: Positive, live: set<nat>, p: nat)
    requires p in live && p < len && plow + Ahead(plow, p, len) < r + len
    ensures !CleanFrom(plow, r, len, live)
  {
    assert p in Lap(plow, r + len, len);
  }

  lemma {:induction false} CleanUpTo(plow: nat, reap: nat, len: Positive, live: set<nat>)
    requires forall p :: p in live ==> p < len && reap + len <= plow + Ahead(plow, p, len)
    ensures CleanFrom(plow, reap, len, live)
  {
    forall p | p in live
      ensures p !in Lap(plow, reap + len, len)
    {
      forall x | plow <= x < reap + len
        ensures x % len != p
      {
        AheadFirst(plow, p, len, x);
      }
    }
  }

  /** Positions laid so far are never ahead within the first lap. */
  lemma {:induction false} FirstLap(plow: nat, p: nat, len: Positive)
    requires p < len && p in Lap(0, plow, len)
    ensures plow + Ahead(plow, p, len) >= len
  {
    if plow + Ahead(plow, p, len) < len {
      var x :| 0 <= x < plow && p == x % len;
      SmallMod(0, plow + Ahead(plow, p, len), len);
      SmallMod(0, x, len);
    }
  }
}
