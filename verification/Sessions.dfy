/** A vault between calls, as a value: what ties its cursors, index, live set, fence and devices to the committed
    generations, and how each kind of step keeps it. */
module Sessions {
  import opened Blocks
  import opened Runs
  import opened Trie
  import opened Media
  import opened Devices
  import opened Mirrors
  import opened Tracts
  import opened Hamts
  import opened Rings
  import opened Generations

  /** `since` is where the plow stood when the pending edits began; `floor` is the oldest generation of the log not given
      up, and `taken` what it was when the plow was last put back, by an open or a grow. */
  datatype State = State(
    disk: seq<Block>, durable: seq<Block>, staged: map<nat, Block>,
    log2: nat, len: Positive, plow: nat, reap: nat, fence: Option<nat>,
    index: Tree, delta: Delta, live: set<nat>, pending: Option<nat>,
    since: nat, floor: nat, taken: nat, log: seq<Gen>)

  ghost function ViewOf(s: State): Medium {
    Medium(s.disk, Pow2(s.log2), s.len)
  }

  function Head(s: State): Entry
    requires s.log != []
  {
    Past(s.log, 0).entry
  }

  /** reap <= plow <= reap + len, and the pending edits began in between. */
  ghost predicate Cursors(s: State) {
    && s.reap <= s.since <= s.plow <= s.reap + s.len
    && Linked(s.log) && Head(s).plow <= s.since && Head(s).tract == s.len
    && (s.pending.Some? ==> s.reap <= s.pending.value <= s.plow)
  }

  /** Devices hold the newest generation, staged blocks lie off it, and the live set is what its root references. */
  ghost predicate Rooted(s: State) {
    && s.log != [] && Restores(s.durable, s.log2, Past(s.log, 0))
    && StagedOff(s.staged, Pow2(s.log2), s.live)
    && s.live == Pos(Head(s).root)
    && s.disk == Overlay(s.durable, s.staged)
  }

  /** Nothing pending: the index is the committed root. */
  predicate Pristine(s: State) {
    s.delta == Delta([], []) && !IsDirty(s.index)
  }

  ghost predicate Settles(s: State) {
    s.log != [] && (Pristine(s) ==> s.index == Head(s).root)
  }

  /** The two-cursor invariant: clean space [plow, reap + len) holds no block of the committed head. */
  ghost predicate Clean(s: State) {
    Lap(s.plow, s.reap + s.len, s.len) !! s.live
  }

  /** A reaped window awaiting its commit: every live block of it is retired by the pending delta. */
  ghost predicate Retired(s: State) {
    s.pending.Some? ==> Lap(s.reap, s.pending.value, s.len) * s.live <= Lbas(s.delta.removed)
  }

  /** What the budgets leave open from the head's plow on misses every generation of the log that did not overrun itself,
      and clean space is clean unless the head did. */
  ghost predicate Tidy(s: State) {
    s.log != [] && Guarded(s.log, Head(s).plow, s.len) && (!Overrun(Head(s)) ==> Clean(s))
  }

  /** The generations of the window are on the devices whole, and nothing staged lies on them. One is given up only when
      the plow has passed a budget of its window. */
  ghost predicate Deep(s: State) {
    && s.taken <= s.floor <= |s.log| && (s.floor > s.taken ==> s.plow > MinBudget(s.log, |s.log| - s.floor))
    && Intact(s.durable, s.staged, Pow2(s.log2), s.log, s.floor)
  }

  ghost predicate Fenceable(s: State) {
    s.log != [] && Pow2(s.log2) <= |s.disk| && (s.fence.None? || s.fence == Fence(s.disk, s.log2, Head(s)))
  }

  ghost predicate Good(s: State) {
    && Cursors(s) && Rooted(s) && Settles(s) && Retired(s) && Tidy(s) && Deep(s) && Fenceable(s)
    && Poised(ViewOf(s), s.index, s.delta, s.live, s.since, s.plow)
  }

  ghost function Map(s: State): map<Key, Stored> {
    Content(ViewOf(s), s.index)
  }

  // ---------------------------------------------------------------- what a good state gives

  lemma {:induction false} OverlayOff(durable: seq<Block>, staged: map<nat, Block>, base: nat, s: set<nat>)
    requires StagedOff(staged, base, s) && base <= |durable|
    ensures SameRing(durable, Overlay(durable, staged), base) && SameAt(durable, Overlay(durable, staged), base, s)
  {
  }

  /** What is read shows the newest generation too. */
  lemma {:induction false} DiskRestores(s: State)
    requires Rooted(s)
    ensures Restores(s.disk, s.log2, Past(s.log, 0)) && |s.disk| == |s.durable|
  {
    RestoresFits(s.durable, s.log2, Past(s.log, 0));
    OverlayOff(s.durable, s.staged, Pow2(s.log2), s.live);
    hide Restores, SameRing, SameAt, StagedOff;
    RestoresKept(s.durable, s.disk, s.log2, Past(s.log, 0));
  }

  /** A generation kept shows in what is read. */
  lemma {:induction false} IntactShown(s: State, g: Gen)
    requires Rooted(s) && IntactAt(s.durable, s.staged, Pow2(s.log2), g)
    ensures Stands(s.disk, Pow2(s.log2), g) && SameAt(s.durable, s.disk, Pow2(s.log2), Pos(g.entry.root))
  {
    RestoresFits(s.durable, s.log2, Past(s.log, 0));
    hide Restores, Stands, Pos, Spined, Overlay, StagedOff, SameAt;
    OverlayOff(s.durable, s.staged, Pow2(s.log2), Pos(g.entry.root));
    StandsKept(s.durable, s.disk, Pow2(s.log2), g);
  }

  /** What the fence is for: while the plow has not passed a fence in force, each of the last K generations since the plow
      was last put back reads back exactly as it was committed, unless its own commit overran it; and every cursor the
      fence still allows misses every block it references, across changes of the tract's length too. */
  lemma {:induction false} FenceProtects(s: State, k: nat, x: nat)
    requires Good(s) && s.taken <= k < |s.log| && |s.log| - k <= FENCE_K && !Overrun(s.log[k].entry)
    requires s.fence.Some? && s.plow <= s.fence.value
    ensures Stands(s.disk, Pow2(s.log2), s.log[k])
    ensures s.plow <= x < s.fence.value ==> x % s.len !in Pos(s.log[k].entry.root)
  {
    hide *;
    FenceKeeps(s, k);
    WindowShown(s, k);
    PastIs(s.log, k);
    if s.plow <= x < s.fence.value {
      FenceBars(s, |s.log| - 1 - k, x);
    }
  }

  lemma {:induction false} PastIs(log: seq<Gen>, k: nat)
    requires k < |log|
    ensures Past(log, |log| - 1 - k) == log[k]
  {
  }

  /** The session's fence is within the budgets of its window. */
  lemma {:induction false} FenceShort(s: State, i: nat)
    requires Cursors(s) && Rooted(s) && Fenceable(s) && s.fence.Some? && i < |s.log| && i < FENCE_K
    ensures s.fence.value <= MinBudget(s.log, i)
  {
    DiskRestores(s);
    RestoresFits(s.disk, s.log2, Past(s.log, 0));
    hide Restores, Stands, Pos, Spined, Linked, MinBudget, Fence, Rooted;
    FenceWithin(s.disk, s.log2, s.log, i);
  }

  /** A plow within the fence has made no generation of the window given up. */
  lemma {:induction false} FenceKeeps(s: State, k: nat)
    requires Good(s) && s.fence.Some? && s.plow <= s.fence.value && s.taken <= k < |s.log| && |s.log| - k <= FENCE_K
    ensures s.floor <= k
  {
    hide Cursors, Rooted, Settles, Retired, Tidy, Intact, MinBudget, Fenceable, Poised;
    if s.floor > k {
      FenceShort(s, |s.log| - s.floor);
    }
  }

  /** A generation of the window reads back, fence or no fence. */
  lemma {:induction false} WindowShown(s: State, k: nat)
    requires Good(s) && k < |s.log|
    ensures s.floor <= k && |s.log| - k <= FENCE_K && !Overrun(s.log[k].entry) ==> Stands(s.disk, Pow2(s.log2), s.log[k])
  {
    hide Restores, Stands, Pos, Spined, Linked, MinBudget, Fence, Poised, Guarded, Overrun, Rooted;
    if s.floor <= k && |s.log| - k <= FENCE_K && !Overrun(s.log[k].entry) {
      assert InWindow(s.log, |s.log| - 1, s.floor, k);
      IntactShown(s, s.log[k]);
    }
  }

  lemma {:induction false} FenceBars(s: State, i: nat, x: nat)
    requires Good(s) && i < |s.log| && i < FENCE_K && !Overrun(Past(s.log, i).entry) && s.fence.Some? && s.plow <= x < s.fence.value
    ensures x % s.len !in Pos(Past(s.log, i).entry.root)
  {
    DiskRestores(s);
    RestoresFits(s.disk, s.log2, Past(s.log, 0));
    hide Restores, Stands, Pos, Spined, Linked, Fence, Poised, Intact, Guarded, Overrun, Rooted;
    FenceMisses(s.disk, s.log2, s.log, i, s.len, x);
  }

  /** The same on the devices: what a drain may find, and what a cut leaves of the window. */
  lemma {:induction false} GoodDrains(s: State)
    requires Good(s)
    ensures Draining(s.durable, s.staged, s.log2, s.log, s.floor)
    ensures s.log != [] && Deepens(s.disk, s.log2, s.log, |s.log| - 1, s.floor)
  {
    hide Restores, Stands, Pos, Spined, Linked, Guarded, InWindow, Poised, Fence, Overlay, StagedOff, SameAt, Pow2, Lap, Overrun, MinBudget;
    var j := |s.log| - 1;
    assert s.log[..j] + [s.log[j]] == s.log;
    forall k | 0 <= k < |s.log| && InWindow(s.log, j, s.floor, k)
      ensures Stands(s.durable, Pow2(s.log2), s.log[k]) && StagedOff(s.staged, Pow2(s.log2), Pos(s.log[k].entry.root))
      ensures SameAt(s.durable, s.disk, Pow2(s.log2), Pos(s.log[k].entry.root))
    {
      IntactShown(s, s.log[k]);
    }
    HeadTract(s);
    assert Deepens(s.durable, s.log2, s.log, j, s.floor);
    DeepensKept(s.durable, s.disk, s.log2, s.log, j, s.floor);
  }

  lemma {:induction false} HeadTract(s: State)
    requires Rooted(s)
    ensures Past(s.log, 0).entry.tract > 0
  {
    RestoresFits(s.durable, s.log2, Past(s.log, 0));
  }

  /** The two-cursor invariant of every good state, and what every entry of the chain passes. */
  lemma {:induction false} TwoCursors(s: State, i: nat)
    requires Good(s)
    ensures s.reap <= s.plow <= s.reap + s.len
    ensures !Overrun(Head(s)) ==> Lap(s.plow, s.reap + s.len, s.len) !! Pos(Head(s).root)
    ensures i <= Head(s).gen ==> Ancestor(Head(s), i).Some? && Geometry(Ancestor(Head(s), i).value)
  {
    DiskRestores(s);
    RestoresFits(s.disk, s.log2, Past(s.log, 0));
    AncestorGen(Head(s), i);
  }

  // ---------------------------------------------------------------- appends and edits

  lemma {:induction false} AppendedOff(v: Medium, w: Medium, sv: map<nat, Block>, sw: map<nat, Block>, from: nat, to: nat, live: set<nat>)
    requires Appended(v, w, sv, sw, from, to) && Lap(from, to, v.len) !! live && StagedOff(sv, v.base, live)
    ensures StagedOff(sw, v.base, live)
  {
    hide Lap;
    forall p | p in sw
      ensures p >= v.base && p - v.base !in live
    {
      if p !in sv {
        var x :| from <= x < to && p == Spot(v.base, v.len, x);
        WrittenLap(v.base, v.len, from, to, p - v.base);
      }
    }
  }

  lemma {:induction false} AppendedRing(v: Medium, w: Medium, sv: map<nat, Block>, sw: map<nat, Block>, from: nat, to: nat)
    requires Appended(v, w, sv, sw, from, to) && v.base <= |v.disk|
    ensures SameRing(v.disk, w.disk, v.base)
  {
  }

  /** The fence reads only the ring. */
  lemma {:induction false} FenceKept(disk: seq<Block>, after: seq<Block>, log2: nat, head: Entry)
    requires SameRing(disk, after, Pow2(log2))
    ensures Fence(after, log2, head) == Fence(disk, log2, head)
  {
    hide Classify, Pow2, Budget;
    forall i: nat | i <= head.gen
      ensures BudgetAt(after, log2, head, i) == BudgetAt(disk, log2, head, i)
    {
      var s := (head.gen - i) % Pow2(log2);
      assert after[s] == disk[s];
    }
    assert Budgets(after, log2, head) == Budgets(disk, log2, head);
  }

  /** The oldest generation from `k` on such that neither it nor a newer one of the last K has a budget of its window
      passed by a plow at `to`. */
  function OldestKept(log: seq<Gen>, k: nat, to: nat): (r: nat)
    requires k <= |log|
    ensures k <= r <= |log|
    ensures r > k ==> |log| - r < FENCE_K && to > MinBudget(log, |log| - r)
    decreases |log| - k
  {
    if k == |log| then k
    else
      var later := OldestKept(log, k + 1, to);
      if later == k + 1 && (|log| - k > FENCE_K || to <= MinBudget(log, |log| - 1 - k)) then k else later
  }

  lemma {:induction false} KeptWithin(log: seq<Gen>, k: nat, to: nat, i: nat)
    requires k <= |log| && i < |log| && i < FENCE_K && OldestKept(log, k, to) <= |log| - 1 - i
    ensures to <= MinBudget(log, i)
    decreases |log| - k
  {
    if k < |log| - 1 - i {
      KeptWithin(log, k + 1, to, i);
    }
  }

  /** What appends up to `to` give up: nothing that they cannot reach. */
  function AfterAppend(s: State, to: nat): (r: nat)
    requires s.floor <= |s.log|
    ensures s.floor <= r <= |s.log|
  {
    if to > s.plow then OldestKept(s.log, s.floor, to) else s.floor
  }

  /** What guarded appends leave of the window: the generations not given up, whole. */
  lemma {:induction false} IntactAppended(s: State, w: Medium, sw: map<nat, Block>, to: nat)
    requires Cursors(s) && Rooted(s) && Tidy(s) && Deep(s)
    requires Appended(ViewOf(s), w, s.staged, sw, s.plow, to)
    ensures Intact(s.durable, sw, Pow2(s.log2), s.log, AfterAppend(s, to))
  {
    hide Restores, Stands, Appended, Lap, Pos, Spined, Linked, StagedOff, MinBudget, Overrun, OldestKept;
    forall k | 0 <= k < |s.log| && InWindow(s.log, |s.log| - 1, AfterAppend(s, to), k)
      ensures IntactAt(s.durable, sw, Pow2(s.log2), s.log[k])
    {
      assert InWindow(s.log, |s.log| - 1, s.floor, k);
      MissesWindow(s, k, to);
      AppendedOff(ViewOf(s), w, s.staged, sw, s.plow, to, Pos(s.log[k].entry.root));
    }
  }

  lemma {:induction false} MissesWindow(s: State, k: nat, to: nat)
    requires Cursors(s) && Tidy(s) && s.floor <= |s.log| && k < |s.log| && InWindow(s.log, |s.log| - 1, AfterAppend(s, to), k)
    ensures Lap(s.plow, to, s.len) !! Pos(s.log[k].entry.root)
  {
    hide Lap, Pos, Linked, MinBudget, Overrun, OldestKept;
    if to <= s.plow {
      EmptyLap(s.plow, s.len);
      LapWithin(s.plow, to, s.plow, s.len);
    } else {
      var i := |s.log| - 1 - k;
      KeptWithin(s.log, s.floor, to, i);
      assert Barred(s.log, i, Head(s).plow, s.len) && Past(s.log, i) == s.log[k];
      LapWithin(s.plow, to, MinBudget(s.log, i), s.len);
      LapLater(Head(s).plow, s.plow, MinBudget(s.log, i), s.len);
    }
  }

  /** Under a fence in force guarded appends give up nothing. */
  lemma {:induction false} FenceSpares(s: State, to: nat)
    requires Cursors(s) && Rooted(s) && Deep(s) && Fenceable(s)
    requires to <= s.plow || (s.fence.Some? && to <= s.fence.value)
    ensures AfterAppend(s, to) == s.floor
  {
    hide Cursors, Rooted, Intact, MinBudget, Fenceable;
    var r := AfterAppend(s, to);
    if r > s.floor {
      FenceShort(s, |s.log| - r);
    }
  }

  lemma {:induction false} LapWithin(from: nat, to: nat, more: nat, len: Positive)
    requires to <= more
    ensures Lap(from, to, len) <= Lap(from, more, len)
  {
  }

  lemma {:induction false} LapLater(from: nat, later: nat, to: nat, len: Positive)
    requires from <= later
    ensures Lap(later, to, len) <= Lap(from, to, len)
  {
  }

  /** The state after appends up to `to` and an edit of the index. */
  ghost function Edited(s: State, w: Medium, sw: map<nat, Block>, to: nat, index: Tree, delta: Delta): State
    requires s.floor <= |s.log|
  {
    s.(disk := w.disk, staged := sw, plow := to, index := index, delta := delta, floor := AfterAppend(s, to))
  }

  lemma {:induction false} EditRooted(s: State, w: Medium, sw: map<nat, Block>, to: nat)
    requires Rooted(s) && Fenceable(s) && Pow2(s.log2) <= |s.disk|
    requires Appended(ViewOf(s), w, s.staged, sw, s.plow, to) && Lap(s.plow, to, s.len) !! s.live
    requires w.disk == Overlay(s.durable, sw)
    ensures Rooted(s.(disk := w.disk, staged := sw)) && Fenceable(s.(disk := w.disk, staged := sw))
  {
    hide Restores, Appended, Lap, Pos, StagedOff, Fence;
    AppendedOff(ViewOf(s), w, s.staged, sw, s.plow, to, s.live);
    AppendedRing(ViewOf(s), w, s.staged, sw, s.plow, to);
    FenceKept(s.disk, w.disk, s.log2, Head(s));
  }

  /** Guarded appends with an accounted edit keep everything but what they reach. */
  lemma {:induction false} EditKeeps(s: State, w: Medium, sw: map<nat, Block>, to: nat, index: Tree, delta: Delta)
    requires Good(s) && s.log != [] && s.floor <= |s.log|
    requires Appended(ViewOf(s), w, s.staged, sw, s.plow, to) && Lap(s.plow, to, s.len) !! s.live
    requires w.disk == Overlay(s.durable, sw) && to <= s.reap + s.len
    requires Poised(w, index, delta, s.live, s.since, to) && s.delta.removed <= delta.removed
    requires delta == Delta([], []) && !IsDirty(index) ==> index == Head(s).root
    ensures Good(Edited(s, w, sw, to, index, delta))
  {
    DiskRestores(s);
    RestoresFits(s.disk, s.log2, Past(s.log, 0));
    AppendedOrder(ViewOf(s), w, s.staged, sw, s.plow, to);
    var u := Edited(s, w, sw, to, index, delta);
    assert ViewOf(u) == w;
    EditRooted(s, w, sw, to);
    IntactAppended(s, w, sw, to);
    RemovedGrows(s.delta.removed, delta.removed);
    assert u.index == index && u.delta == delta && u.live == s.live && u.since == s.since && u.plow == to;
    hide *;
    EditedParts(s, w, sw, to, index, delta);
    GoodIs(u);
  }

  lemma {:induction false} EditedParts(s: State, w: Medium, sw: map<nat, Block>, to: nat, index: Tree, delta: Delta)
    requires Cursors(s) && Settles(s) && Retired(s) && Tidy(s) && Deep(s) && s.plow <= to <= s.reap + s.len
    requires Rooted(s.(disk := w.disk, staged := sw)) && Fenceable(s.(disk := w.disk, staged := sw))
    requires Intact(s.durable, sw, Pow2(s.log2), s.log, AfterAppend(s, to)) && Lbas(s.delta.removed) <= Lbas(delta.removed)
    requires delta == Delta([], []) && !IsDirty(index) ==> index == Head(s).root
    ensures var u := Edited(s, w, sw, to, index, delta);
      Cursors(u) && Rooted(u) && Settles(u) && Retired(u) && Tidy(u) && Deep(u) && Fenceable(u)
  {
    hide Restores, Lap, Pos, StagedOff, Fence, Intact, Linked, Lbas, Guarded, Overrun, MinBudget, OldestKept, AfterAppend;
    LapLater(s.plow, to, s.reap + s.len, s.len);
    GivenUp(s, to);
  }

  lemma {:induction false} GivenUp(s: State, to: nat)
    requires Deep(s) && s.plow <= to
    ensures var r := AfterAppend(s, to); s.taken <= r && (r > s.taken ==> to > MinBudget(s.log, |s.log| - r))
  {
    hide Intact, MinBudget;
  }

  // ---------------------------------------------------------------- committing

  /** A block written in the ring changes nothing of the tract. */
  lemma {:induction false} SlotStands(disk: seq<Block>, base: nat, slot: nat, b: Block, g: Gen)
    requires Stands(disk, base, g) && slot < base <= |disk|
    ensures Stands(disk[slot := b], base, g)
  {
    StandsKept(disk, disk[slot := b], base, g);
  }

  /** The same blocks everywhere in the tract. */
  ghost predicate SameTract(v: Medium, w: Medium) {
    && v.base == w.base && v.len == w.len
    && forall p :: Has(v, p) ==> Has(w, p) && w.disk[w.base + p] == v.disk[v.base + p]
  }

  lemma {:induction false} PoisedSame(v: Medium, w: Medium, t: Tree, d: Delta, live: set<nat>, since: nat, plow: nat)
    requires Poised(v, t, d, live, since, plow) && SameTract(v, w)
    ensures Poised(w, t, d, live, since, plow) && Content(w, t) == Content(v, t)
  {
    hide Sound, Once, Pos, Lap;
    HeldKept(v, w, t);
    ContentKept(v, w, t);
    RefsKept(v, w, d.added);
    RefsKept(v, w, d.removed);
  }

  /** After an entry has been written: everything drained, one more generation. */
  ghost function AfterWrite(s: State, e: Entry, content: map<Key, Stored>): State
    requires e.gen % Pow2(s.log2) < |s.disk| && Pow2(s.log2) <= |s.disk|
  {
    var disk := s.disk[e.gen % Pow2(s.log2) := Spine(e)];
    s.(disk := disk, durable := disk, staged := map[], log := s.log + [Gen(e, content)],
       fence := Fence(disk, s.log2, e))
  }

  ghost predicate Follows(s: State, e: Entry) {
    s.log != [] && Succeeds(e, s.log2, Head(s))
  }

  lemma {:induction false} WrittenRestores(s: State, e: Entry, content: map<Key, Stored>)
    requires Rooted(s) && Follows(s, e) && Stands(s.disk, Pow2(s.log2), Gen(e, content))
    ensures e.gen % Pow2(s.log2) < Pow2(s.log2) <= |s.disk|
    ensures var w := AfterWrite(s, e, content); Restores(w.disk, s.log2, Gen(e, content)) && w.disk == Overlay(w.durable, w.staged)
  {
    DiskRestores(s);
    RestoresFits(s.disk, s.log2, Past(s.log, 0));
    var disk := s.disk[e.gen % Pow2(s.log2) := Spine(e)];
    SpinedNext(s.disk, disk, s.log2, Head(s), e);
    hide Restores, Stands, Spined, Pow2;
    AfterSlot(s.disk, disk, s.log2, e.gen % Pow2(s.log2), Gen(e, content));
    NothingStaged(disk);
  }

  /** Once drained, the generations kept are what is read. */
  lemma {:induction false} IntactDrained(s: State)
    requires Rooted(s) && Intact(s.durable, s.staged, Pow2(s.log2), s.log, s.floor)
    ensures Intact(s.disk, map[], Pow2(s.log2), s.log, s.floor)
  {
    hide Restores, Stands, Pos, Overlay, InWindow;
    forall k | 0 <= k < |s.log| && InWindow(s.log, |s.log| - 1, s.floor, k)
      ensures IntactAt(s.disk, map[], Pow2(s.log2), s.log[k])
    {
      IntactShown(s, s.log[k]);
    }
  }

  lemma {:induction false} IntactNext(disk: seq<Block>, base: nat, log: seq<Gen>, floor: nat, next: Gen, slot: nat, b: Block)
    requires Intact(disk, map[], base, log, floor) && slot < base <= |disk| && Stands(disk, base, next)
    ensures Intact(disk[slot := b], map[], base, log + [next], floor)
  {
    hide Stands, Overrun;
    var after, more := disk[slot := b], log + [next];
    forall k | 0 <= k < |more| && InWindow(more, |log|, floor, k)
      ensures IntactAt(after, map[], base, more[k])
    {
      assert k < |log| ==> InWindow(log, |log| - 1, floor, k);
      SlotStands(disk, base, slot, b, more[k]);
    }
  }

  lemma {:induction false} GuardedNext(log: seq<Gen>, plow: nat, len: Positive, next: Gen)
    requires Guarded(log, plow, len) && plow <= next.entry.plow && next.entry.tract == len
    requires forall p :: p in Pos(next.entry.root) ==> p < len
    ensures Guarded(log + [next], next.entry.plow, len)
  {
    hide Lap, Pos, MinBudget, Budget;
    var more, at := log + [next], next.entry.plow;
    forall i | 0 <= i < |more|
      ensures Barred(more, i, at, len)
    {
      MinBudgetNext(log, next, i);
      if i > 0 {
        assert Barred(log, i - 1, plow, len) && Past(more, i) == Past(log, i - 1);
        LapLater(plow, at, MinBudget(log, i - 1), len);
        LapWithin(at, MinBudget(more, i), MinBudget(log, i - 1), len);
      }
    }
  }

  /** The window of a state one generation on: one deeper, whatever the new one's commit did. */
  lemma {:induction false} WindowNext(s: State, e: Entry, content: map<Key, Stored>)
    requires Rooted(s) && Deep(s) && Tidy(s) && Cursors(s) && Stands(s.disk, Pow2(s.log2), Gen(e, content))
    requires e.gen % Pow2(s.log2) < Pow2(s.log2) <= |s.disk| && e.tract == s.len && Head(s).plow <= e.plow
    ensures Deep(AfterWrite(s, e, content)) && NextDeep(s.log, Gen(e, content))
  {
    var next := Gen(e, content);
    hide Stands, Restores, Lap, Pos, Pow2, Overlay, Budget, StagedOff, Linked, Overrun, Guarded, Intact, MinBudget, Fence;
    StandsBelow(s.disk, Pow2(s.log2), next);
    IntactDrained(s);
    IntactNext(s.disk, Pow2(s.log2), s.log, s.floor, next, e.gen % Pow2(s.log2), Spine(e));
    GuardedNext(s.log, Head(s).plow, s.len, next);
    FloorNext(s, next);
  }

  /** One more generation lowers the budgets of those before it. */
  lemma {:induction false} FloorNext(s: State, next: Gen)
    requires s.taken <= s.floor <= |s.log| && (s.floor > s.taken ==> s.plow > MinBudget(s.log, |s.log| - s.floor))
    ensures s.floor > s.taken ==> s.plow > MinBudget(s.log + [next], |s.log| + 1 - s.floor)
  {
    hide Budget;
    if s.floor > s.taken {
      MinBudgetNext(s.log, next, |s.log| + 1 - s.floor);
    }
  }

  /** Blocks of a standing generation lie inside its tract. */
  lemma {:induction false} StandsBelow(disk: seq<Block>, base: nat, g: Gen)
    requires Stands(disk, base, g)
    ensures g.entry.tract > 0 && forall p :: p in Pos(g.entry.root) ==> p < g.entry.tract
  {
    hide Held, Sound, Once, Content, Pos;
  }

  lemma {:induction false} SameTractSlot(s: State, slot: nat, b: Block)
    requires slot < Pow2(s.log2) <= |s.disk|
    ensures SameTract(ViewOf(s), ViewOf(s.(disk := s.disk[slot := b])))
  {
  }

  /** What holds when an entry is about to be written: of its drain, and of every cut of it. */
  ghost predicate Writes(s: State, e: Entry, content: map<Key, Stored>) {
    && Draining(s.durable, s.staged, s.log2, s.log, s.floor)
    && Writing(s.disk, s.log2, s.log, Gen(e, content), s.floor)
  }

  lemma {:induction false} WritesNext(s: State, e: Entry, content: map<Key, Stored>)
    requires Good(s) && Follows(s, e) && Stands(s.disk, Pow2(s.log2), Gen(e, content)) && NextDeep(s.log, Gen(e, content))
    ensures Writes(s, e, content)
  {
    GoodHas(s);
    GoodDrains(s);
    FollowsIs(s, e);
    hide *;
    WritesIs(s, e, content);
  }

  lemma {:induction false} FollowsIs(s: State, e: Entry)
    requires Follows(s, e)
    ensures s.log != [] && Succeeds(e, s.log2, Past(s.log, 0).entry)
  {
  }

  lemma {:induction false} WritesIs(s: State, e: Entry, content: map<Key, Stored>)
    requires Draining(s.durable, s.staged, s.log2, s.log, s.floor)
    requires s.log != [] && Restores(s.disk, s.log2, Past(s.log, 0)) && Deepens(s.disk, s.log2, s.log, |s.log| - 1, s.floor)
    requires Stands(s.disk, Pow2(s.log2), Gen(e, content)) && NextDeep(s.log, Gen(e, content)) && Succeeds(e, s.log2, Past(s.log, 0).entry)
    ensures Writes(s, e, content)
  {
    hide Draining, Restores, Deepens, Stands, NextDeep, Succeeds, Pow2;
  }

  /** A heartbeat: the head's own root, geometry and cursors under the next number. */
  predicate Beats(head: Entry, e: Entry) {
    && e.gen == head.gen + 1 && e.prev == Prev(head) && e.ringLog2 == head.ringLog2
    && e.tract == head.tract && e.root == head.root && e.plow == head.plow && e.reap == head.reap
  }

  lemma {:induction false} BeatStands(disk: seq<Block>, base: nat, g: Gen, e: Entry)
    requires Stands(disk, base, g) && Beats(g.entry, e)
    ensures Stands(disk, base, Gen(e, g.content))
  {
  }

  lemma {:induction false} GoodIs(s: State)
    requires Cursors(s) && Rooted(s) && Settles(s) && Retired(s) && Tidy(s) && Deep(s) && Fenceable(s)
    requires Poised(ViewOf(s), s.index, s.delta, s.live, s.since, s.plow)
    ensures Good(s)
  {
  }

  lemma {:induction false} GoodHas(s: State)
    requires Good(s)
    ensures Cursors(s) && Rooted(s) && Settles(s) && Retired(s) && Tidy(s) && Deep(s) && Fenceable(s) && Linked(s.log)
    ensures Poised(ViewOf(s), s.index, s.delta, s.live, s.since, s.plow)
    ensures Restores(s.disk, s.log2, Past(s.log, 0)) && Spined(s.disk, s.log2, Head(s)) && Stands(s.disk, Pow2(s.log2), Past(s.log, 0))
    ensures Pow2(s.log2) <= |s.disk| && Chained(Head(s)) && Head(s).ringLog2 == s.log2
  {
    DiskRestores(s);
  }

  lemma {:induction false} BeatFits(s: State, e: Entry)
    requires Good(s) && Beats(Head(s), e)
    ensures Follows(s, e) && Stands(s.disk, Pow2(s.log2), Gen(e, Past(s.log, 0).content)) && e.tract == s.len && e.plow == Head(s).plow
    ensures e.gen % Pow2(s.log2) < Pow2(s.log2) <= |s.disk| && Overrun(e) == Overrun(Head(s))
  {
    GoodHas(s);
    hide Restores, Stands, Lap, Pos, Fence, Pow2, Poised, Spined, Linked, Intact, Rooted;
    BeatStands(s.disk, Pow2(s.log2), Past(s.log, 0), e);
  }

  lemma {:induction false} BeatCursors(s: State, e: Entry, content: map<Key, Stored>)
    requires Cursors(s) && Rooted(s) && Settles(s) && Retired(s) && Beats(Head(s), e) && Linked(s.log)
    requires e.gen % Pow2(s.log2) < Pow2(s.log2) <= |s.disk| && Linked(s.log + [Gen(e, content)])
    requires var w := AfterWrite(s, e, content); Restores(w.disk, s.log2, Gen(e, content)) && w.disk == Overlay(w.durable, w.staged)
    ensures var w := AfterWrite(s, e, content); Cursors(w) && Settles(w) && Retired(w) && Rooted(w)
  {
    hide Restores, Lap, Pos, Fence, Pow2, Linked, Lbas, Overlay;
    var w := AfterWrite(s, e, content);
    assert Past(w.log, 0) == Gen(e, content);
  }

  lemma {:induction false} TidyWritten(s: State, e: Entry, content: map<Key, Stored>)
    requires Tidy(s) && e.gen % Pow2(s.log2) < Pow2(s.log2) <= |s.disk| && NextDeep(s.log, Gen(e, content)) && e.tract == s.len
    requires Overrun(e) == Overrun(Head(s))
    ensures Tidy(AfterWrite(s, e, content)) && Fenceable(AfterWrite(s, e, content))
  {
    hide Guarded, Fence, Lap, Pow2, Overrun;
    assert Past(AfterWrite(s, e, content).log, 0) == Gen(e, content);
  }

  lemma {:induction false} ViewWritten(s: State, e: Entry, content: map<Key, Stored>)
    requires e.gen % Pow2(s.log2) < Pow2(s.log2) <= |s.disk|
    ensures SameTract(ViewOf(s), ViewOf(AfterWrite(s, e, content)))
  {
    SameTractSlot(s, e.gen % Pow2(s.log2), Spine(e));
  }

  /** A heartbeat changes neither root nor map nor cursors: only the fence window slides. */
  lemma {:induction false} BeatKeeps(s: State, e: Entry)
    requires Good(s) && Beats(Head(s), e)
    ensures e.gen % Pow2(s.log2) < Pow2(s.log2) <= |s.disk|
    ensures var w := AfterWrite(s, e, Past(s.log, 0).content);
      Good(w) && Map(w) == Map(s) && Writes(s, e, Past(s.log, 0).content)
  {
    var content := Past(s.log, 0).content;
    GoodHas(s);
    BeatFits(s, e);
    var w := AfterWrite(s, e, content);
    assert w.index == s.index && w.delta == s.delta && w.live == s.live && w.since == s.since && w.plow == s.plow;
    assert w.log == s.log + [Gen(e, content)];
    assert e.prev == Prev(Past(s.log, 0).entry);
    hide *;
    WindowNext(s, e, content);
    WritesNext(s, e, content);
    LinkedNext(s.log, Gen(e, content));
    WrittenRestores(s, e, content);
    ViewWritten(s, e, content);
    PoisedSame(ViewOf(s), ViewOf(w), s.index, s.delta, s.live, s.since, s.plow);
    BeatCursors(s, e, content);
    TidyWritten(s, e, content);
    GoodIs(w);
    MapSame(s, w);
  }

  lemma {:induction false} MapSame(s: State, w: State)
    requires w.index == s.index && Content(ViewOf(w), s.index) == Content(ViewOf(s), s.index)
    ensures Map(w) == Map(s)
  {
  }

  // ---------------------------------------------------------------- the retiring commit

  function ReapAfter(s: State): nat {
    if s.pending.Some? then s.pending.value else s.reap
  }

  /** The entry a commit writes. */
  predicate Commits(s: State, e: Entry) {
    && s.log != [] && e.gen == Head(s).gen + 1 && e.prev == Prev(Head(s)) && e.ringLog2 == s.log2
    && e.tract == s.len && e.root == s.index && e.plow == s.plow && e.reap == Some(ReapAfter(s))
  }

  /** The pending window crosses the pending edits: it would turn clean some block they appended and still reference. */
  ghost predicate Crosses(s: State) {
    s.pending.Some? && !(Lap(s.since, s.pending.value, s.len) !! Lbas(s.delta.added) - Lbas(s.delta.removed))
  }

  ghost function AfterCommit(s: State, e: Entry): State
    requires e.gen % Pow2(s.log2) < |s.disk| && Pow2(s.log2) <= |s.disk|
  {
    AfterWrite(s, e, Map(s)).(delta := Delta([], []), live := Pos(s.index), pending := None, reap := ReapAfter(s), since := s.plow)
  }

  /** What the committed index references was laid by the plow. */
  lemma {:induction false} CommitLaid(s: State)
    requires Cursors(s) && Rooted(s) && Poised(ViewOf(s), s.index, s.delta, s.live, s.since, s.plow)
    ensures Pos(s.index) <= Lap(0, s.plow, s.len)
  {
    PoisedParts(ViewOf(s), s.index, s.delta, s.live, s.since, s.plow);
    RestoresFits(s.durable, s.log2, Past(s.log, 0));
    assert s.live <= Lap(0, Head(s).plow, s.len);
    LapWithin(0, Head(s).plow, s.plow, s.len);
    LapLater(0, s.since, s.plow, s.len);
  }

  /** Exactly when the clean space a commit leaves is clean of the root it commits: when its window has not crossed. */
  lemma {:induction false} CommitSpace(s: State)
    requires Cursors(s) && Retired(s) && Clean(s) && Poised(ViewOf(s), s.index, s.delta, s.live, s.since, s.plow)
    ensures Lap(s.plow, ReapAfter(s) + s.len, s.len) !! Pos(s.index) <==> !Crosses(s)
  {
    PoisedParts(ViewOf(s), s.index, s.delta, s.live, s.since, s.plow);
    var r := ReapAfter(s);
    LapSplit(s.plow, s.reap + s.len, r + s.len, s.len);
    LapTurn(s.reap, r, s.len);
    LapsApart(s.since, s.plow, s.reap + s.len, s.len);
    WindowSplit(s.reap, s.since, r, s.plow, s.len);
    assert Pos(s.index) == s.live + Lbas(s.delta.added) - Lbas(s.delta.removed) && Lbas(s.delta.added) <= Lap(s.since, s.plow, s.len);
    var clean, window, root := Lap(s.plow, s.reap + s.len, s.len), Lap(s.reap, r, s.len), Pos(s.index);
    assert clean !! s.live && window * s.live <= Lbas(s.delta.removed);
    hide *;
    JoinedSpace(clean, window, Lap(s.since, s.plow, s.len), s.live, Lbas(s.delta.added), Lbas(s.delta.removed), root);
    CrossesIs(s, r);
  }

  /** What of a root meets its clean space, once a window has joined it, is what the window holds of the edits. */
  lemma {:induction false} JoinedSpace(clean: set<nat>, window: set<nat>, laid: set<nat>, live: set<nat>, added: set<nat>, gone: set<nat>,
                                       root: set<nat>)
    requires root == live + added - gone && added <= laid
    requires clean !! live && clean !! laid && window * live <= gone
    ensures clean + window !! root <==> window * laid !! added - gone
  {
    if x :| x in clean + window && x in root {
      assert x in window * laid && x in added - gone;
    }
    if x :| x in window * laid && x in added - gone {
      assert x in clean + window && x in root;
    }
  }

  lemma {:induction false} CrossesIs(s: State, r: nat)
    requires r == ReapAfter(s) && s.reap <= s.since
    ensures Crosses(s) <==> !(Lap(s.since, r, s.len) !! Lbas(s.delta.added) - Lbas(s.delta.removed))
  {
    hide Lbas;
  }

  /** Of a window, only what lies past `since` can hold what was laid from there on. */
  lemma {:induction false} WindowSplit(reap: nat, since: nat, r: nat, plow: nat, len: Positive)
    requires reap <= since <= plow <= reap + len && reap <= r <= plow
    ensures Lap(reap, r, len) * Lap(since, plow, len) == Lap(since, r, len)
    ensures r == reap ==> Lap(reap, r, len) == {}
  {
    if r <= since {
      LapsApart(reap, r, plow, len);
      LapLater(r, since, plow, len);
      assert Lap(since, r, len) == {};
    } else {
      LapSplit(reap, since, r, len);
      LapsApart(reap, since, plow, len);
      LapWithin(since, r, plow, len);
    }
  }

  /** A lap later the positions are the same. */
  lemma {:induction false} LapTurn(from: nat, to: nat, len: Positive)
    ensures Lap(from + len, to + len, len) == Lap(from, to, len)
  {
    forall x | from <= x < to
      ensures (x + len) % len == x % len
    {
      Turned(x, len);
    }
    forall p | p in Lap(from + len, to + len, len)
      ensures p in Lap(from, to, len)
    {
      var y :| from + len <= y < to + len && p == y % len;
      Turned(y - len, len);
    }
    forall p | p in Lap(from, to, len)
      ensures p in Lap(from + len, to + len, len)
    {
      var x :| from <= x < to && p == x % len;
      Turned(x, len);
      assert from + len <= x + len < to + len;
    }
  }

  lemma {:induction false} Turned(x: nat, len: Positive)
    ensures (x + len) % len == x % len
  {
    var q := x / len;
    assert x == q * len + x % len;
    assert x + len == (q + 1) * len + x % len;
    SmallMod(q + 1, x % len, len);
  }

  lemma {:induction false} CommitStands(s: State, e: Entry)
    requires Cursors(s) && Rooted(s) && Retired(s) && Poised(ViewOf(s), s.index, s.delta, s.live, s.since, s.plow)
    requires Commits(s, e) && !IsDirty(s.index)
    ensures Stands(s.disk, Pow2(s.log2), Gen(e, Map(s)))
  {
    CommitLaid(s);
    DiskRestores(s);
    RestoresFits(s.disk, s.log2, Past(s.log, 0));
    PoisedParts(ViewOf(s), s.index, s.delta, s.live, s.since, s.plow);
    assert MediumOf(s.disk, Pow2(s.log2), e) == ViewOf(s);
  }

  lemma {:induction false} PoisedFresh(v: Medium, t: Tree, d: Delta, live: set<nat>, since: nat, plow: nat)
    requires Poised(v, t, d, live, since, plow)
    ensures Poised(v, t, Delta([], []), Pos(t), plow, plow)
    ensures Pos(t) == live + Lbas(d.added) - Lbas(d.removed)
  {
    NoLbas();
  }

  lemma {:induction false} CommitFits(s: State, e: Entry)
    requires Good(s) && Commits(s, e) && !IsDirty(s.index)
    ensures Follows(s, e) && Stands(s.disk, Pow2(s.log2), Gen(e, Map(s))) && e.tract == s.len && e.plow == s.plow >= Head(s).plow
    ensures e.gen % Pow2(s.log2) < Pow2(s.log2) <= |s.disk|
  {
    GoodHas(s);
    hide Restores, Stands, Lap, Pos, Fence, Pow2, Poised, Spined, Linked, Intact, Rooted, Guarded, Retired, Map, Clean, Overrun;
    CommitStands(s, e);
  }

  /** Over a head that did not overrun itself, a commit does exactly when its window crosses. */
  lemma {:induction false} CommitOverruns(s: State, e: Entry)
    requires Good(s) && Commits(s, e) && !Overrun(Head(s))
    ensures Overrun(e) <==> Crosses(s)
  {
    GoodHas(s);
    hide Restores, Stands, Lap, Pos, Fence, Pow2, Poised, Spined, Linked, Intact, Rooted, Guarded, Retired, Map, Clean, Crosses;
    CommitSpace(s);
  }

  lemma {:induction false} CommitCursors(s: State, e: Entry)
    requires Cursors(s) && Commits(s, e) && e.gen % Pow2(s.log2) < Pow2(s.log2) <= |s.disk| && Linked(s.log + [Gen(e, Map(s))])
    requires var w := AfterWrite(s, e, Map(s)); Restores(w.disk, s.log2, Gen(e, Map(s))) && w.disk == Overlay(w.durable, w.staged)
    ensures var w := AfterCommit(s, e); Cursors(w) && Settles(w) && Retired(w) && Rooted(w)
  {
    hide Restores, Lap, Pos, Fence, Pow2, Linked, Lbas, Overlay, Map;
    var w := AfterCommit(s, e);
    assert Past(w.log, 0) == Gen(e, Map(s));
  }

  lemma {:induction false} TidyCommitted(s: State, e: Entry)
    requires Commits(s, e) && e.gen % Pow2(s.log2) < Pow2(s.log2) <= |s.disk| && NextDeep(s.log, Gen(e, Map(s))) && e.tract == s.len
    ensures var w := AfterCommit(s, e); Tidy(w) && Fenceable(w)
  {
    hide Fence, Lap, Pow2, Map, Guarded;
    assert Past(AfterCommit(s, e).log, 0) == Gen(e, Map(s));
  }

  lemma {:induction false} DeepCommitted(s: State, e: Entry)
    requires e.gen % Pow2(s.log2) < Pow2(s.log2) <= |s.disk| && Deep(AfterWrite(s, e, Map(s)))
    ensures Deep(AfterCommit(s, e))
  {
    hide Intact, MinBudget, Fence, Map, Pow2;
  }

  /** A commit: the index becomes the head, the pending window retires, and everything holds for the new generation. */
  lemma {:induction false} CommitKeeps(s: State, e: Entry)
    requires Good(s) && Commits(s, e) && !IsDirty(s.index)
    ensures e.gen % Pow2(s.log2) < Pow2(s.log2) <= |s.disk|
    ensures var w := AfterCommit(s, e); Good(w) && Map(w) == Map(s) && Writes(s, e, Map(s))
  {
    GoodHas(s);
    CommitFits(s, e);
    var w, u := AfterCommit(s, e), AfterWrite(s, e, Map(s));
    assert w.index == s.index && w.delta == Delta([], []) && w.live == Pos(s.index) && w.since == s.plow && w.plow == s.plow;
    assert u.log == s.log + [Gen(e, Map(s))] && ViewOf(w) == ViewOf(u) && e.prev == Prev(Past(s.log, 0).entry);
    hide *;
    WindowNext(s, e, Map(s));
    DeepCommitted(s, e);
    WritesNext(s, e, Map(s));
    LinkedNext(s.log, Gen(e, Map(s)));
    WrittenRestores(s, e, Map(s));
    ViewWritten(s, e, Map(s));
    PoisedSame(ViewOf(s), ViewOf(w), s.index, s.delta, s.live, s.since, s.plow);
    PoisedFresh(ViewOf(w), s.index, s.delta, s.live, s.since, s.plow);
    CommitCursors(s, e);
    TidyCommitted(s, e);
    GoodIs(w);
    MapSame(s, w);
  }
}
