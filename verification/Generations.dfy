/** Committed generations: when a device restores one, what a power cut during each kind of write can leave, and
    how far back the fence keeps them readable. */
module Generations {
  import opened Blocks
  import opened Runs
  import opened Trie
  import opened Media
  import opened Devices
  import opened Mirrors
  import opened Tracts
  import opened Rings

  /** A spine entry and the map its root denotes. */
  datatype Gen = Gen(entry: Entry, content: map<Key, Stored>)

  ghost function MediumOf(disk: seq<Block>, base: nat, e: Entry): Medium
    requires e.tract > 0
  {
    Medium(disk, base, e.tract)
  }

  /** Every block the generation references is in place, so it reads back as its map. */
  ghost predicate Stands(disk: seq<Block>, base: nat, g: Gen) {
    var root := g.entry.root;
    && g.entry.tract > 0 && base + g.entry.tract <= |disk|
    && (root.Nil? || Committed(root)) && Sound(root, []) && Once(root)
    && Held(MediumOf(disk, base, g.entry), root)
    && Content(MediumOf(disk, base, g.entry), root) == g.content
    && Pos(root) <= Lap(0, g.entry.plow, g.entry.tract)
  }

  // ---------------------------------------------------------------- rings that can be found

  /** Slots looked at for an entry that says how large the ring is. */
  const PROBES: nat := 16

  /** A block that classifies as an entry while the ring's size is unknown. */
  predicate Says(disk: seq<Block>, s: nat)
    requires s < |disk|
  {
    Classify(disk[s], s, None).Valid?
  }

  ghost predicate FirstSaid(disk: seq<Block>, s: nat) {
    s < PROBES && s < |disk| && disk[s].Spine? && Says(disk, s) && forall x :: 0 <= x < s ==> !Says(disk, x)
  }

  /** The first entry met among the first slots is one of this ring's. */
  ghost predicate Findable(disk: seq<Block>, log2: nat) {
    exists s: nat :: FoundAt(disk, log2, s)
  }

  ghost predicate FoundAt(disk: seq<Block>, log2: nat, s: nat) {
    s < Pow2(log2) && FirstSaid(disk, s) && disk[s].entry.ringLog2 == log2
  }

  /** A ring whose newest entry is in its slot, whatever other slots are unreadable. */
  ghost predicate Ringed(disk: seq<Block>, log2: nat, head: Entry) {
    && 0 < log2 <= 32 && RingHolds(disk, log2, head) && Chained(head) && head.ringLog2 == log2
    && Pow2(log2) <= |disk| && SlotAt(disk, log2, head.gen % Pow2(log2)) == Valid(head)
  }

  /** A ring that can be found and whose newest entry is `head`. */
  ghost predicate Headed(disk: seq<Block>, log2: nat, head: Entry) {
    Ringed(disk, log2, head) && Findable(disk, log2)
  }

  /** An entry of this ring in its slot. */
  ghost predicate Ours(disk: seq<Block>, log2: nat, s: nat)
    requires s < |disk|
  {
    SlotAt(disk, log2, s).Valid?
  }

  /** None of the slots looked at first holds the entry of another ring. */
  ghost predicate Quiet(disk: seq<Block>, log2: nat) {
    forall s :: 0 <= s < PROBES && s < Pow2(log2) && s < |disk| && Says(disk, s) ==> Ours(disk, log2, s)
  }

  /** One of the slots looked at first stays readable whatever becomes of the slot written next, now and ever after. */
  ghost predicate Lasting(disk: seq<Block>, log2: nat, head: Entry) {
    || Pow2(log2) <= PROBES || head.gen % Pow2(log2) == 0
    || exists s :: 0 < s < PROBES && s < Pow2(log2) && s < |disk| && Ours(disk, log2, s)
  }

  /** A ring whose newest entry is `head`, and that a cut of no later append can hide. */
  ghost predicate Spined(disk: seq<Block>, log2: nat, head: Entry) {
    Ringed(disk, log2, head) && Quiet(disk, log2) && Lasting(disk, log2, head)
  }

  /** Opening the device finds exactly this generation. */
  ghost predicate Loads(disk: seq<Block>, log2: nat, g: Gen) {
    Headed(disk, log2, g.entry) && Stands(disk, Pow2(log2), g)
  }

  /** And appends to it can be cut short. */
  ghost predicate Restores(disk: seq<Block>, log2: nat, g: Gen) {
    Spined(disk, log2, g.entry) && Stands(disk, Pow2(log2), g)
  }

  // ---------------------------------------------------------------- blocks elsewhere

  /** The tract positions `s` hold the same blocks. */
  ghost predicate SameAt(disk: seq<Block>, after: seq<Block>, base: nat, s: set<nat>) {
    |disk| <= |after| && forall p :: p in s && base + p < |disk| ==> after[base + p] == disk[base + p]
  }

  ghost predicate SameRing(disk: seq<Block>, after: seq<Block>, n: nat) {
    n <= |disk| <= |after| && forall s :: 0 <= s < n ==> after[s] == disk[s]
  }

  lemma {:induction false} StandsKept(disk: seq<Block>, after: seq<Block>, base: nat, g: Gen)
    requires Stands(disk, base, g) && SameAt(disk, after, base, Pos(g.entry.root))
    ensures Stands(after, base, g)
  {
    hide Held, Content, Sound, Once, Pos, Lap;
    var v, w := MediumOf(disk, base, g.entry), MediumOf(after, base, g.entry);
    assert Keeps(v, w, Pos(g.entry.root));
    HeldKept(v, w, g.entry.root);
    ContentKept(v, w, g.entry.root);
  }

  lemma {:induction false} SlotsKept(disk: seq<Block>, after: seq<Block>, log2: nat, head: Entry)
    requires Ringed(disk, log2, head) && SameRing(disk, after, Pow2(log2))
    ensures Ringed(after, log2, head)
    ensures forall s :: 0 <= s < Pow2(log2) ==> Ours(after, log2, s) == Ours(disk, log2, s) && Says(after, s) == Says(disk, s)
  {
    hide Chained, Classify, Pow2;
    forall s | 0 <= s < Pow2(log2)
      ensures SlotHolds(after, log2, head, s) && SlotAt(after, log2, s) == SlotAt(disk, log2, s) && after[s] == disk[s]
    {
      assert SlotHolds(disk, log2, head, s);
    }
    assert head.gen % Pow2(log2) < Pow2(log2);
  }

  lemma {:induction false} SpinedKept(disk: seq<Block>, after: seq<Block>, log2: nat, head: Entry)
    requires Spined(disk, log2, head) && SameRing(disk, after, Pow2(log2))
    ensures Spined(after, log2, head)
  {
    hide Ringed, Ours, Says, Pow2;
    SlotsKept(disk, after, log2, head);
  }

  lemma {:induction false} HeadedKept(disk: seq<Block>, after: seq<Block>, log2: nat, head: Entry)
    requires Headed(disk, log2, head) && SameRing(disk, after, Pow2(log2))
    ensures Headed(after, log2, head)
  {
    hide Ringed, Findable, Pow2;
    SlotsKept(disk, after, log2, head);
    FindableKept(disk, after, log2);
  }

  lemma {:induction false} RestoresKept(disk: seq<Block>, after: seq<Block>, log2: nat, g: Gen)
    requires Restores(disk, log2, g)
    requires SameRing(disk, after, Pow2(log2)) && SameAt(disk, after, Pow2(log2), Pos(g.entry.root))
    ensures Restores(after, log2, g)
  {
    hide Spined, Stands, SameRing, SameAt;
    SpinedKept(disk, after, log2, g.entry);
    StandsKept(disk, after, Pow2(log2), g);
  }

  lemma {:induction false} HeadOurs(disk: seq<Block>, log2: nat, head: Entry)
    requires Ringed(disk, log2, head)
    ensures Pow2(log2) <= |disk| && Ours(disk, log2, head.gen % Pow2(log2)) && head.gen % Pow2(log2) < Pow2(log2)
  {
    hide Chained, Classify, RingHolds, Pow2;
  }

  lemma {:induction false} TornSlot(disk: seq<Block>, after: seq<Block>, log2: nat, head: Entry)
    requires Ringed(disk, log2, head) && |after| == |disk|
    requires forall s :: 0 <= s < |disk| && s != (head.gen + 1) % Pow2(log2) ==> after[s] == disk[s]
    requires var s := (head.gen + 1) % Pow2(log2); after[s] == disk[s] || after[s].Torn?
    ensures Ringed(after, log2, head)
    ensures forall s :: 0 <= s < Pow2(log2) && s != (head.gen + 1) % Pow2(log2) ==>
      Ours(after, log2, s) == Ours(disk, log2, s) && Says(after, s) == Says(disk, s)
    ensures var s := (head.gen + 1) % Pow2(log2); after[s].Torn? ==> !Says(after, s)
  {
    hide Chained, RingHolds, Pow2;
    RingTorn(disk, after, log2, head);
    NextApart(head.gen, log2);
    assert after[head.gen % Pow2(log2)] == disk[head.gen % Pow2(log2)];
  }

  /** The next slot, unreadable or as it was: the ring still ends at `head`. */
  lemma {:induction false} SpinedTorn(disk: seq<Block>, after: seq<Block>, log2: nat, head: Entry)
    requires Spined(disk, log2, head) && |after| == |disk|
    requires forall s :: 0 <= s < |disk| && s != (head.gen + 1) % Pow2(log2) ==> after[s] == disk[s]
    requires var s := (head.gen + 1) % Pow2(log2); after[s] == disk[s] || after[s].Torn?
    ensures Spined(after, log2, head)
  {
    hide Ringed, Ours, Says, Pow2;
    HeadOurs(disk, log2, head);
    TornSlot(disk, after, log2, head);
    var next := (head.gen + 1) % Pow2(log2);
    if !after[next].Torn? {
      assert after == disk;
    } else if Pow2(log2) > PROBES && head.gen % Pow2(log2) != 0 {
      var s :| 0 < s < PROBES && s < Pow2(log2) && s < |disk| && Ours(disk, log2, s);
      if s == next {
        HeadOurs(after, log2, head);
        NextSlot(head.gen, Pow2(log2));
        assert Ours(after, log2, s - 1);
      } else {
        assert Ours(after, log2, s);
      }
    }
  }

  lemma {:induction false} SpinedNext(disk: seq<Block>, after: seq<Block>, log2: nat, head: Entry, next: Entry)
    requires Spined(disk, log2, head) && |after| == |disk|
    requires Geometry(next) && next.prev == Prev(head) && next.gen == head.gen + 1 && next.ringLog2 == log2
    requires after == disk[next.gen % Pow2(log2) := Spine(next)]
    ensures Spined(after, log2, next)
  {
    hide Ringed, Ours, Says, Pow2, Geometry;
    WrittenSlot(disk, after, log2, head, next);
    var slot := next.gen % Pow2(log2);
    NextSlot(head.gen, Pow2(log2));
    if slot >= PROBES {
      var s :| 0 < s < PROBES && s < Pow2(log2) && s < |disk| && Ours(disk, log2, s);
      assert Ours(after, log2, s);
    }
  }

  lemma {:induction false} WrittenSlot(disk: seq<Block>, after: seq<Block>, log2: nat, head: Entry, next: Entry)
    requires Ringed(disk, log2, head) && |after| == |disk|
    requires Geometry(next) && next.prev == Prev(head) && next.gen == head.gen + 1 && next.ringLog2 == log2
    requires after == disk[next.gen % Pow2(log2) := Spine(next)]
    ensures Ringed(after, log2, next) && Ours(after, log2, next.gen % Pow2(log2)) && Says(after, next.gen % Pow2(log2)) && log2 > 0
    ensures Pow2(log2) <= |disk|
    ensures forall s :: 0 <= s < Pow2(log2) && s != next.gen % Pow2(log2) ==>
      Ours(after, log2, s) == Ours(disk, log2, s) && Says(after, s) == Says(disk, s)
  {
    ChainNext(head, next);
    hide Chained, RingHolds, Pow2, Geometry;
    RingNext(disk, after, log2, head, next);
  }

  /** Why a ring must be lasting: with its newest entry in the last slot, and none readable among the first but slot 0,
      a cut of the next append leaves no entry where an open looks for one. */
  lemma {:induction false} LastFoundTorn(disk: seq<Block>, after: seq<Block>, log2: nat, head: Entry)
    requires Ringed(disk, log2, head) && Quiet(disk, log2) && !Lasting(disk, log2, head) && head.gen % Pow2(log2) == Pow2(log2) - 1
    requires |after| == |disk| && forall s :: 0 < s < |disk| ==> after[s] == disk[s]
    requires after[0].Torn?
    ensures forall s :: 0 <= s < PROBES ==> s < |after| && !Says(after, s)
  {
    hide Ours, Says, Pow2, Ringed;
    HeadOurs(disk, log2, head);
    NextSlot(head.gen, Pow2(log2));
    TornSlot(disk, after, log2, head);
  }

  lemma {:induction false} ChainNext(head: Entry, next: Entry)
    requires Chained(head) && Geometry(next) && next.prev == Prev(head) && next.gen == head.gen + 1 && next.ringLog2 == head.ringLog2
    ensures Chained(next)
  {
  }

  /** A ring has at least two slots, so the newest entry is not in the next slot. */
  lemma {:induction false} NextApart(g: nat, log2: nat)
    requires log2 > 0
    ensures (g + 1) % Pow2(log2) != g % Pow2(log2)
  {
    NextSlot(g, Pow2(log2));
  }

  // ---------------------------------------------------------------- the last generations

  /** The generation `i` before the newest of the log. */
  function Past(log: seq<Gen>, i: nat): Gen
    requires i < |log|
  {
    log[|log| - 1 - i]
  }

  /** Each generation of the log extends the one before. */
  ghost predicate Linked(log: seq<Gen>) {
    log != [] && forall j :: 0 < j < |log| ==> Extends(log, j)
  }

  ghost predicate Extends(log: seq<Gen>, j: nat)
    requires 0 < j < |log|
  {
    log[j].entry.prev == Prev(log[j - 1].entry)
  }

  lemma {:induction false} LinkedFront(log: seq<Gen>)
    requires Linked(log) && |log| > 1
    ensures Linked(log[..|log| - 1]) && Past(log, 0).entry.prev == Prev(Past(log[..|log| - 1], 0).entry)
  {
    var front := log[..|log| - 1];
    forall j | 0 < j < |front|
      ensures Extends(front, j)
    {
      assert Extends(log, j);
    }
    assert Extends(log, |log| - 1);
  }

  lemma {:induction false} LinkedNext(log: seq<Gen>, next: Gen)
    requires Linked(log) && next.entry.prev == Prev(Past(log, 0).entry)
    ensures Linked(log + [next])
  {
    forall j | 0 < j < |log| + 1
      ensures Extends(log + [next], j)
    {
      assert j < |log| ==> Extends(log, j);
    }
  }

  lemma {:induction false} LinkedAncestor(log: seq<Gen>, i: nat)
    requires Linked(log) && i < |log|
    ensures Ancestor(Past(log, 0).entry, i) == Some(Past(log, i).entry)
    decreases i
  {
    if i > 0 {
      var front := log[..|log| - 1];
      LinkedFront(log);
      LinkedAncestor(front, i - 1);
      assert Past(front, i - 1) == Past(log, i);
    }
  }

  function Min(a: nat, b: nat): nat {
    if a <= b then a else b
  }

  /** The least budget from the newest generation to the one `i` back. */
  function MinBudget(log: seq<Gen>, i: nat): nat
    requires i < |log|
  {
    var b := Budget(Past(log, i).entry);
    if i == 0 then b else Min(b, MinBudget(log, i - 1))
  }

  lemma {:induction false} MinBudgetNext(log: seq<Gen>, next: Gen, i: nat)
    requires i <= |log|
    ensures MinBudget(log + [next], i) == if i == 0 then Budget(next.entry) else Min(Budget(next.entry), MinBudget(log, i - 1))
    decreases i
  {
    if i > 0 {
      MinBudgetNext(log, next, i - 1);
      assert Past(log + [next], i) == Past(log, i - 1);
    }
  }

  /** In force, the fence is within every budget of the window. */
  lemma {:induction false} FenceWithin(disk: seq<Block>, log2: nat, log: seq<Gen>, i: nat)
    requires Linked(log) && i < |log| && i < FENCE_K && Spined(disk, log2, Past(log, 0).entry)
    requires Fence(disk, log2, Past(log, 0).entry).Some?
    ensures Fence(disk, log2, Past(log, 0).entry).value <= MinBudget(log, i)
    decreases i
  {
    hide Fence, Budget, Linked, Past, RingHolds, Chained, SlotAt, Quiet, Lasting;
    LinkedAncestor(log, i);
    FenceGuards(disk, log2, Past(log, 0).entry, i);
    if i > 0 {
      FenceWithin(disk, log2, log, i - 1);
    }
  }

  /** Whether the clean space an entry grants holds a block of its own root: a commit's window had crossed. */
  ghost predicate Overrun(e: Entry) {
    e.tract > 0 && !(Lap(e.plow, Budget(e), e.tract) !! Pos(e.root))
  }

  /** The space the budgets from the generation `i` back on leave open holds nothing it references. */
  ghost predicate OffBudget(log: seq<Gen>, i: nat, plow: nat, len: Positive)
    requires i < |log|
  {
    Lap(plow, MinBudget(log, i), len) !! Pos(Past(log, i).entry.root)
  }

  /** The generation `i` back lies within the tract, and unless it overran itself the budgets keep the plow off it. */
  ghost predicate Barred(log: seq<Gen>, i: nat, plow: nat, len: Positive)
    requires i < |log|
  {
    var e := Past(log, i).entry;
    && 0 < e.tract <= len && (forall p :: p in Pos(e.root) ==> p < e.tract)
    && (Overrun(e) || OffBudget(log, i, plow, len))
  }

  /** So it is for every generation of the log. */
  ghost predicate Guarded(log: seq<Gen>, plow: nat, len: Positive) {
    forall i :: 0 <= i < |log| ==> Barred(log, i, plow, len)
  }

  /** A log of one generation guards itself. */
  lemma {:induction false} GuardedLone(g: Gen)
    requires g.entry.tract > 0 && forall p :: p in Pos(g.entry.root) ==> p < g.entry.tract
    ensures Guarded([g], g.entry.plow, g.entry.tract)
  {
    hide Lap, Pos, Budget;
    assert Past([g], 0) == g;
  }

  /** Staged blocks lie in the tract, off everything live. */
  ghost predicate StagedOff(staged: map<nat, Block>, base: nat, live: set<nat>) {
    forall p :: p in staged ==> p >= base && p - base !in live
  }

  /** The generation is on the device as it was committed, and nothing staged lies on it. */
  ghost predicate IntactAt(durable: seq<Block>, staged: map<nat, Block>, base: nat, g: Gen) {
    Stands(durable, base, g) && StagedOff(staged, base, Pos(g.entry.root))
  }

  // ---------------------------------------------------------------- how deep a device restores

  /** With `log[j]` the newest: one of the last K generations, not given up, whose commit did not overrun itself. */
  ghost predicate InWindow(log: seq<Gen>, j: nat, floor: nat, k: nat)
    requires k < |log|
  {
    floor <= k <= j && j - k < FENCE_K && !Overrun(log[k].entry)
  }

  /** The whole window is intact. */
  ghost predicate Intact(durable: seq<Block>, staged: map<nat, Block>, base: nat, log: seq<Gen>, floor: nat) {
    forall k :: 0 <= k < |log| && InWindow(log, |log| - 1, floor, k) ==> IntactAt(durable, staged, base, log[k])
  }

  /** With `log[j]` the newest, the generations of its window read back, and its plow is kept off all of them. */
  ghost predicate Deepens(disk: seq<Block>, log2: nat, log: seq<Gen>, j: nat, floor: nat)
    requires j < |log|
  {
    && NextDeep(log[..j], log[j])
    && forall k :: 0 <= k < |log| && InWindow(log, j, floor, k) ==> Stands(disk, Pow2(log2), log[k])
  }

  /** One more generation leaves them guarded. */
  ghost predicate NextDeep(log: seq<Gen>, next: Gen) {
    next.entry.tract > 0 && Guarded(log + [next], next.entry.plow, next.entry.tract)
  }

  lemma {:induction false} DeepensMore(disk: seq<Block>, log2: nat, log: seq<Gen>, j: nat, floor: nat, more: seq<Gen>, higher: nat)
    requires j < |log| && Deepens(disk, log2, log, j, floor) && log <= more && floor <= higher
    ensures Deepens(disk, log2, more, j, higher)
  {
    hide Stands, NextDeep, Overrun;
    assert more[..j] == log[..j];
    forall k | 0 <= k < |more| && InWindow(more, j, higher, k)
      ensures Stands(disk, Pow2(log2), more[k])
    {
      assert InWindow(log, j, floor, k);
    }
  }

  /** The blocks of every generation in the window are as they were. */
  ghost predicate SameWindow(disk: seq<Block>, after: seq<Block>, base: nat, log: seq<Gen>, j: nat, floor: nat) {
    forall k :: 0 <= k < |log| && InWindow(log, j, floor, k) ==> SameAt(disk, after, base, Pos(log[k].entry.root))
  }

  lemma {:induction false} DeepensKept(disk: seq<Block>, after: seq<Block>, log2: nat, log: seq<Gen>, j: nat, floor: nat)
    requires j < |log| && Deepens(disk, log2, log, j, floor) && SameWindow(disk, after, Pow2(log2), log, j, floor)
    ensures Deepens(after, log2, log, j, floor)
  {
    hide Stands, NextDeep, SameAt, Pos, Pow2, InWindow;
    forall k | 0 <= k < |log| && InWindow(log, j, floor, k)
      ensures Stands(after, Pow2(log2), log[k])
    {
      StandsKept(disk, after, Pow2(log2), log[k]);
    }
  }

  /** One more generation over a device that keeps the window and holds the new one. */
  lemma {:induction false} DeepensNext(disk: seq<Block>, log2: nat, log: seq<Gen>, next: Gen, floor: nat)
    requires log != [] && Deepens(disk, log2, log, |log| - 1, floor) && NextDeep(log, next) && Stands(disk, Pow2(log2), next)
    ensures Deepens(disk, log2, log + [next], |log|, floor)
  {
    hide Stands, NextDeep, Overrun, Pow2;
    var more := log + [next];
    assert more[..|log|] == log;
    forall k | 0 <= k < |more| && InWindow(more, |log|, floor, k)
      ensures Stands(disk, Pow2(log2), more[k])
    {
      if k < |log| {
        assert InWindow(log, |log| - 1, floor, k);
      }
    }
  }

  /** What the fence is for, on the device itself: with `log[j]` the newest, a generation of its window reads back as it
      was committed, and every cursor a fence in force still allows misses all of its blocks. */
  lemma {:induction false} WindowProtects(disk: seq<Block>, log2: nat, log: seq<Gen>, j: nat, floor: nat, k: nat, x: nat)
    requires Linked(log) && j < |log| && Restores(disk, log2, log[j]) && Deepens(disk, log2, log, j, floor)
    requires k < |log| && InWindow(log, j, floor, k)
    ensures Stands(disk, Pow2(log2), log[k])
    ensures Pow2(log2) <= |disk| && log[j].entry.tract > 0
    ensures var f := Fence(disk, log2, log[j].entry);
      f.Some? && log[j].entry.plow <= x < f.value ==> x % log[j].entry.tract !in Pos(log[k].entry.root)
  {
    hide *;
    RestoresFits(disk, log2, log[j]);
    DeepensAt(disk, log2, log, j, floor, k);
    var f := Fence(disk, log2, log[j].entry);
    if f.Some? && log[j].entry.plow <= x < f.value {
      LinkedTo(log, j);
      PastTo(log, j, k);
      FenceMisses(disk, log2, log[..j + 1], j - k, log[j].entry.tract, x);
    }
  }

  lemma {:induction false} DeepensAt(disk: seq<Block>, log2: nat, log: seq<Gen>, j: nat, floor: nat, k: nat)
    requires j < |log| && Deepens(disk, log2, log, j, floor) && k < |log| && InWindow(log, j, floor, k)
    ensures Stands(disk, Pow2(log2), log[k]) && k <= j && j - k < FENCE_K && !Overrun(log[k].entry)
    ensures log[j].entry.tract > 0 && Guarded(log[..j + 1], log[j].entry.plow, log[j].entry.tract)
  {
    hide Stands, Guarded, Overrun, Pow2;
    assert log[..j] + [log[j]] == log[..j + 1];
  }

  lemma {:induction false} PastTo(log: seq<Gen>, j: nat, k: nat)
    requires k <= j < |log|
    ensures Past(log[..j + 1], 0) == log[j] && Past(log[..j + 1], j - k) == log[k] && |log[..j + 1]| == j + 1
  {
  }

  /** A cursor the fence allows is short of every budget of the window. */
  lemma {:induction false} FenceMisses(disk: seq<Block>, log2: nat, log: seq<Gen>, i: nat, len: Positive, x: nat)
    requires Linked(log) && i < |log| && i < FENCE_K && Spined(disk, log2, Past(log, 0).entry)
    requires Fence(disk, log2, Past(log, 0).entry).Some? && Past(log, 0).entry.plow <= x < Fence(disk, log2, Past(log, 0).entry).value
    requires Guarded(log, Past(log, 0).entry.plow, len) && !Overrun(Past(log, i).entry)
    ensures x % len !in Pos(Past(log, i).entry.root)
  {
    hide Spined, Linked, Pos, MinBudget, Fence, Overrun;
    FenceWithin(disk, log2, log, i);
    assert Barred(log, i, Past(log, 0).entry.plow, len);
    assert x % len in Lap(Past(log, 0).entry.plow, MinBudget(log, i), len);
  }

  lemma {:induction false} LinkedTo(log: seq<Gen>, j: nat)
    requires Linked(log) && j < |log|
    ensures Linked(log[..j + 1])
  {
    var front := log[..j + 1];
    forall i | 0 < i < |front|
      ensures Extends(front, i)
    {
      assert Extends(log, i);
    }
  }

  // ---------------------------------------------------------------- power cuts

  /** The device restores `log[j]`, and behind it every generation of the window from `floor` on. */
  ghost predicate RestoresAt(img: seq<Block>, log2: nat, log: seq<Gen>, j: nat, floor: nat)
    requires j < |log|
  {
    Restores(img, log2, log[j]) && Deepens(img, log2, log, j, floor)
  }

  ghost predicate RestoresOne(img: seq<Block>, log2: nat, log: seq<Gen>, lo: nat, floor: nat) {
    exists j :: lo <= j < |log| && RestoresAt(img, log2, log, j, floor)
  }

  /** Every content a cut at `mo` can leave restores one of the generations from `lo` on, with its window. */
  ghost predicate MomentOk(mo: Moment, log2: nat, log: seq<Gen>, lo: nat, floor: nat) {
    forall img: seq<Block> :: Image(mo, img) ==> RestoresOne(img, log2, log, lo, floor)
  }

  ghost predicate HistoryOk(history: seq<Moment>, from: nat, log2: nat, log: seq<Gen>, lo: nat, floor: nat) {
    forall i :: from <= i < |history| ==> MomentOk(history[i], log2, log, lo, floor)
  }

  lemma {:induction false} RestoresOneMore(img: seq<Block>, log2: nat, log: seq<Gen>, lo: nat, floor: nat,
                                           more: seq<Gen>, lower: nat, higher: nat)
    requires RestoresOne(img, log2, log, lo, floor) && log <= more && lower <= lo && floor <= higher
    ensures RestoresOne(img, log2, more, lower, higher)
  {
    hide Restores, Deepens;
    var j :| lo <= j < |log| && RestoresAt(img, log2, log, j, floor);
    DeepensMore(img, log2, log, j, floor, more, higher);
    assert more[j] == log[j];
    assert RestoresAt(img, log2, more, j, higher);
  }

  lemma {:induction false} MomentMore(mo: Moment, log2: nat, log: seq<Gen>, lo: nat, floor: nat, more: seq<Gen>, lower: nat, higher: nat)
    requires MomentOk(mo, log2, log, lo, floor) && log <= more && lower <= lo && floor <= higher
    ensures MomentOk(mo, log2, more, lower, higher)
  {
    hide Image, RestoresOne;
    forall img: seq<Block> | Image(mo, img)
      ensures RestoresOne(img, log2, more, lower, higher)
    {
      RestoresOneMore(img, log2, log, lo, floor, more, lower, higher);
    }
  }

  /** More generations to come, and fewer promised, keep what history promised. */
  lemma {:induction false} HistoryMore(history: seq<Moment>, after: seq<Moment>, from: nat, log2: nat,
                                       log: seq<Gen>, lo: nat, floor: nat, more: seq<Gen>, lower: nat, higher: nat)
    requires HistoryOk(history, from, log2, log, lo, floor) && log <= more && lower <= lo && floor <= higher && history <= after
    requires HistoryOk(after, |history|, log2, more, lower, higher)
    ensures HistoryOk(after, from, log2, more, lower, higher)
  {
    hide MomentOk;
    forall i | from <= i < |after|
      ensures MomentOk(after[i], log2, more, lower, higher)
    {
      if i < |history| {
        assert after[i] == history[i];
        MomentMore(history[i], log2, log, lo, floor, more, lower, higher);
      }
    }
  }

  /** Before a drain: the devices restore the head with its window, and nothing staged lies on any of it. */
  ghost predicate Draining(durable: seq<Block>, staged: map<nat, Block>, log2: nat, log: seq<Gen>, floor: nat) {
    && log != [] && Restores(durable, log2, Past(log, 0)) && Deepens(durable, log2, log, |log| - 1, floor)
    && StagedOff(staged, Pow2(log2), Pos(Past(log, 0).entry.root))
    && forall k :: 0 <= k < |log| && InWindow(log, |log| - 1, floor, k) ==> StagedOff(staged, Pow2(log2), Pos(log[k].entry.root))
  }

  /** A drain, cut anywhere, torn or not, changes nothing of the ring and nothing that staging kept off. */
  lemma {:induction false} DrainSame(mo: Moment, durable: seq<Block>, staged: map<nat, Block>, img: seq<Block>, base: nat, live: set<nat>)
    requires StagedOff(staged, base, live) && base <= |durable| && Moves(mo, durable, staged) && Image(mo, img)
    ensures SameRing(durable, img, base) && SameAt(durable, img, base, live)
  {
    hide Moves, Image;
    ImageBetween(mo, durable, staged, img);
    assert forall p :: 0 <= p < |durable| ==> Between(durable, staged, p, img[p]);
  }

  /** While staged appends drain the newest generation stays, and its window. */
  lemma {:induction false} DrainImage(mo: Moment, durable: seq<Block>, staged: map<nat, Block>, img: seq<Block>,
                                      log2: nat, log: seq<Gen>, floor: nat)
    requires Draining(durable, staged, log2, log, floor) && Moves(mo, durable, staged) && Image(mo, img)
    ensures log != [] && RestoresAt(img, log2, log, |log| - 1, floor)
  {
    RestoresFits(durable, log2, Past(log, 0));
    hide Restores, Moves, Image, Pos, Pow2, Spined, Stands, StagedOff, SameAt, SameRing, Deepens, InWindow;
    var g := Past(log, 0);
    DrainSame(mo, durable, staged, img, Pow2(log2), Pos(g.entry.root));
    RestoresKept(durable, img, log2, g);
    forall k | 0 <= k < |log| && InWindow(log, |log| - 1, floor, k)
      ensures SameAt(durable, img, Pow2(log2), Pos(log[k].entry.root))
    {
      DrainSame(mo, durable, staged, img, Pow2(log2), Pos(log[k].entry.root));
    }
    DeepensKept(durable, img, log2, log, |log| - 1, floor);
  }

  lemma {:induction false} RestoresFits(disk: seq<Block>, log2: nat, g: Gen)
    requires Restores(disk, log2, g)
    ensures Pow2(log2) <= |disk| && g.entry.tract > 0 && Pow2(log2) + g.entry.tract <= |disk|
    ensures Spined(disk, log2, g.entry) && Stands(disk, Pow2(log2), g)
  {
  }

  /** The ring's next entry. */
  predicate Succeeds(e: Entry, log2: nat, head: Entry) {
    Geometry(e) && e.prev == Prev(head) && e.gen == head.gen + 1 && e.ringLog2 == log2
  }

  /** Before an entry is written: the device restores the head with its window, already holds everything the next
      generation references, and leaves the window guarded. */
  ghost predicate Writing(disk: seq<Block>, log2: nat, log: seq<Gen>, next: Gen, floor: nat) {
    && log != [] && Restores(disk, log2, Past(log, 0)) && Deepens(disk, log2, log, |log| - 1, floor)
    && Stands(disk, Pow2(log2), next) && Succeeds(next.entry, log2, Past(log, 0).entry)
    && NextDeep(log, next)
  }

  lemma {:induction false} WritingFits(disk: seq<Block>, log2: nat, log: seq<Gen>, next: Gen, floor: nat)
    requires Writing(disk, log2, log, next, floor)
    ensures log != [] && next.entry.gen % Pow2(log2) < Pow2(log2) <= |disk|
  {
    hide Restores, Stands, Geometry, Deepens, NextDeep;
    RestoresFits(disk, log2, Past(log, 0));
  }

  /** While an entry is written the device restores the old generation, or the new one whole, and the window of either:
      never a part. */
  lemma {:induction false} SpineImage(mo: Moment, disk: seq<Block>, img: seq<Block>, log2: nat, log: seq<Gen>, next: Gen, floor: nat)
    requires Writing(disk, log2, log, next, floor) && Image(mo, img)
    requires Moves(mo, disk, map[next.entry.gen % Pow2(log2) := Spine(next.entry)])
    ensures log != [] && (RestoresAt(img, log2, log + [next], |log| - 1, floor) || RestoresAt(img, log2, log + [next], |log|, floor))
  {
    hide *;
    WritingFits(disk, log2, log, next, floor);
    var slot := next.entry.gen % Pow2(log2);
    SlotImage(mo, disk, img, slot, Spine(next.entry));
    if img[slot] == disk[slot] || img[slot].Torn? {
      TornKeeps(disk, img, log2, log, next, floor);
    } else {
      NewLands(disk, img, log2, log, next, floor);
    }
  }

  /** The slot unreadable or as it was. */
  lemma {:induction false} TornKeeps(disk: seq<Block>, img: seq<Block>, log2: nat, log: seq<Gen>, next: Gen, floor: nat)
    requires Writing(disk, log2, log, next, floor) && |img| == |disk|
    requires next.entry.gen % Pow2(log2) < |disk|
    requires forall p :: 0 <= p < |disk| && p != next.entry.gen % Pow2(log2) ==> img[p] == disk[p]
    requires var s := next.entry.gen % Pow2(log2); img[s] == disk[s] || img[s].Torn?
    ensures log != [] && RestoresAt(img, log2, log + [next], |log| - 1, floor)
  {
    hide Restores, Stands, Pow2, Spined, Geometry, Deepens, NextDeep;
    var g, slot := Past(log, 0), next.entry.gen % Pow2(log2);
    WritingFits(disk, log2, log, next, floor);
    RestoresFits(disk, log2, g);
    SpinedTorn(disk, img, log2, g.entry);
    AfterSlot(disk, img, log2, slot, g);
    SlotDeepens(disk, img, log2, slot, log, |log| - 1, floor);
    DeepensMore(img, log2, log, |log| - 1, floor, log + [next], floor);
  }

  /** The slot written. */
  lemma {:induction false} NewLands(disk: seq<Block>, img: seq<Block>, log2: nat, log: seq<Gen>, next: Gen, floor: nat)
    requires Writing(disk, log2, log, next, floor)
    requires next.entry.gen % Pow2(log2) < |disk| && img == disk[next.entry.gen % Pow2(log2) := Spine(next.entry)]
    ensures RestoresAt(img, log2, log + [next], |log|, floor)
  {
    hide Restores, Stands, Pow2, Spined, Geometry, Deepens, NextDeep;
    var g, slot := Past(log, 0), next.entry.gen % Pow2(log2);
    WritingFits(disk, log2, log, next, floor);
    RestoresFits(disk, log2, g);
    SpinedNext(disk, img, log2, g.entry, next.entry);
    AfterSlot(disk, img, log2, slot, next);
    RestoresFits(img, log2, next);
    SlotDeepens(disk, img, log2, slot, log, |log| - 1, floor);
    DeepensNext(img, log2, log, next, floor);
  }

  /** One block written: a cut leaves it old, torn or new, and everything else as it was. */
  lemma {:induction false} SlotImage(mo: Moment, disk: seq<Block>, img: seq<Block>, slot: nat, b: Block)
    requires slot < |disk| && Moves(mo, disk, map[slot := b]) && Image(mo, img)
    ensures |img| == |disk| && forall p :: 0 <= p < |disk| && p != slot ==> img[p] == disk[p]
    ensures img[slot] == disk[slot] || img[slot].Torn? || img == disk[slot := b]
  {
    hide Moves, Image;
    ImageBetween(mo, disk, map[slot := b], img);
    forall p | 0 <= p < |disk| && p != slot
      ensures img[p] == disk[p]
    {
      assert Between(disk, map[slot := b], p, img[p]);
    }
    assert Between(disk, map[slot := b], slot, img[slot]);
  }

  lemma {:induction false} AfterSlot(disk: seq<Block>, after: seq<Block>, log2: nat, slot: nat, g: Gen)
    requires Stands(disk, Pow2(log2), g) && Spined(after, log2, g.entry) && slot < Pow2(log2)
    requires |after| == |disk| && forall p :: 0 <= p < |disk| && p != slot ==> after[p] == disk[p]
    ensures Restores(after, log2, g)
  {
    hide Stands, Spined, Pow2;
    StandsKept(disk, after, Pow2(log2), g);
  }

  lemma {:induction false} SlotDeepens(disk: seq<Block>, after: seq<Block>, log2: nat, slot: nat, log: seq<Gen>, j: nat, floor: nat)
    requires j < |log| && Deepens(disk, log2, log, j, floor) && slot < Pow2(log2)
    requires |after| == |disk| && forall p :: 0 <= p < |disk| && p != slot ==> after[p] == disk[p]
    ensures Deepens(after, log2, log, j, floor)
  {
    hide Deepens, Pow2, Pos;
    DeepensKept(disk, after, log2, log, j, floor);
  }

  lemma {:induction false} DrainMoment(mo: Moment, durable: seq<Block>, staged: map<nat, Block>, log2: nat, log: seq<Gen>, floor: nat)
    requires Draining(durable, staged, log2, log, floor) && Moves(mo, durable, staged)
    ensures log != [] && MomentOk(mo, log2, log, |log| - 1, floor)
  {
    assert log != [];
    hide Draining, Moves, Image, RestoresAt;
    forall img: seq<Block> | Image(mo, img)
      ensures RestoresOne(img, log2, log, |log| - 1, floor)
    {
      DrainImage(mo, durable, staged, img, log2, log, floor);
    }
  }

  lemma {:induction false} SpineMoment(mo: Moment, disk: seq<Block>, log2: nat, log: seq<Gen>, next: Gen, floor: nat)
    requires Writing(disk, log2, log, next, floor)
    requires Moves(mo, disk, map[next.entry.gen % Pow2(log2) := Spine(next.entry)])
    ensures log != [] && MomentOk(mo, log2, log + [next], |log| - 1, floor)
  {
    WritingFits(disk, log2, log, next, floor);
    hide Writing, Moves, Image, RestoresAt;
    forall img: seq<Block> | Image(mo, img)
      ensures RestoresOne(img, log2, log + [next], |log| - 1, floor)
    {
      SpineImage(mo, disk, img, log2, log, next, floor);
    }
  }

  /** Appending an entry: the drain first, then the slot. */
  lemma {:induction false} AppendHistory(history: seq<Moment>, from: nat, durable: seq<Block>, staged: map<nat, Block>, disk: seq<Block>,
                                         log2: nat, log: seq<Gen>, next: Gen, floor: nat)
    requires Draining(durable, staged, log2, log, floor)
    requires Writing(disk, log2, log, next, floor)
    requires forall i :: from <= i < |history| ==>
      Moves(history[i], durable, staged) || Moves(history[i], disk, map[next.entry.gen % Pow2(log2) := Spine(next.entry)])
    ensures log != [] && HistoryOk(history, from, log2, log + [next], |log| - 1, floor)
  {
    WritingFits(disk, log2, log, next, floor);
    hide Moves, Writing, MomentOk, Draining;
    forall i | from <= i < |history|
      ensures MomentOk(history[i], log2, log + [next], |log| - 1, floor)
    {
      if Moves(history[i], durable, staged) {
        DrainMoment(history[i], durable, staged, log2, log, floor);
        MomentMore(history[i], log2, log, |log| - 1, floor, log + [next], |log| - 1, floor);
      } else {
        SpineMoment(history[i], disk, log2, log, next, floor);
      }
    }
  }

  /** Growing: the drain, then zeros past the end. */
  lemma {:induction false} GrowHistory(history: seq<Moment>, from: nat, durable: seq<Block>, staged: map<nat, Block>, disk: seq<Block>,
                                       log2: nat, log: seq<Gen>, floor: nat)
    requires Draining(durable, staged, log2, log, floor)
    requires log != [] && Restores(disk, log2, Past(log, 0)) && Deepens(disk, log2, log, |log| - 1, floor)
    requires forall i :: from <= i < |history| ==>
      Moves(history[i], durable, staged) || (disk <= history[i].media && history[i].loose == [])
    ensures HistoryOk(history, from, log2, log, |log| - 1, floor)
  {
    hide Restores, Moves, MomentOk, Draining, Deepens;
    forall i | from <= i < |history|
      ensures MomentOk(history[i], log2, log, |log| - 1, floor)
    {
      if Moves(history[i], durable, staged) {
        DrainMoment(history[i], durable, staged, log2, log, floor);
      } else {
        GrownMoment(history[i], disk, log2, log, floor);
      }
    }
  }

  lemma {:induction false} GrownMoment(mo: Moment, disk: seq<Block>, log2: nat, log: seq<Gen>, floor: nat)
    requires log != [] && Restores(disk, log2, Past(log, 0)) && Deepens(disk, log2, log, |log| - 1, floor)
    requires disk <= mo.media && mo.loose == []
    ensures MomentOk(mo, log2, log, |log| - 1, floor)
  {
    hide Restores, Deepens, Pos;
    forall img: seq<Block> | Image(mo, img)
      ensures RestoresOne(img, log2, log, |log| - 1, floor)
    {
      assert img == mo.media;
      RestoresPrefix(disk, img, log2, Past(log, 0));
      DeepensKept(disk, img, log2, log, |log| - 1, floor);
      assert RestoresAt(img, log2, log, |log| - 1, floor);
    }
  }

  lemma {:induction false} RestoresPrefix(disk: seq<Block>, after: seq<Block>, log2: nat, g: Gen)
    requires Restores(disk, log2, g) && disk <= after
    ensures Restores(after, log2, g)
  {
    RestoresFits(disk, log2, g);
    hide Restores, Spined, Stands, Pos;
    RestoresKept(disk, after, log2, g);
  }

  // ---------------------------------------------------------------- finding the ring

  /** The ring's size from the file itself: the first of its first slots that holds an entry says it. */
  method Bootstrap(m: Mirror) returns (r: Option<nat>)
    requires m.Valid()
    ensures r.Some? ==> SaysRing(m.disk, r.value)
    ensures r.None? ==> forall s :: 0 <= s < PROBES && s < |m.disk| ==> !Says(m.disk, s)
  {
    hide Classify, Last, Flat, Overlay, CacheSorted, CacheTrue;
    var blocks := m.Blocks();
    var probe := Min(PROBES, blocks);
    for slot := 0 to probe
      invariant forall x :: 0 <= x < slot ==> !Says(m.disk, x)
    {
      var got := m.Read(slot);
      var class_ := Classify(got.value, slot, None);
      if class_.Valid? {
        Said(m.disk, slot);
        assert FirstSaid(m.disk, slot);
        return Some(class_.entry.ringLog2);
      }
    }
    return None;
  }

  /** The first entry among the first slots is of a ring of size 2^r. */
  ghost predicate SaysRing(disk: seq<Block>, r: nat) {
    exists s: nat :: FirstSaid(disk, s) && disk[s].entry.ringLog2 == r
  }

  lemma {:induction false} Said(disk: seq<Block>, s: nat)
    requires s < |disk| && Says(disk, s)
    ensures disk[s].Spine? && Classify(disk[s], s, None) == Valid(disk[s].entry)
  {
  }

  lemma {:induction false} FindableSays(disk: seq<Block>, log2: nat)
    requires Findable(disk, log2)
    ensures exists s :: 0 <= s < PROBES && s < |disk| && Says(disk, s)
    ensures forall r: nat :: SaysRing(disk, r) ==> r == log2
  {
    hide Says, Pow2;
    var s: nat :| FoundAt(disk, log2, s);
    forall r: nat | SaysRing(disk, r)
      ensures r == log2
    {
      var x: nat :| FirstSaid(disk, x) && disk[x].entry.ringLog2 == r;
      assert x == s;
    }
  }

  /** Of the slots that say a size, one is the first. */
  lemma {:induction false} SomeFirst(disk: seq<Block>, s: nat)
    requires s < PROBES && s < |disk| && Says(disk, s)
    ensures exists x: nat :: x <= s && FirstSaid(disk, x)
    decreases s
  {
    hide Says;
    Said(disk, s);
    if x: nat :| x < s && Says(disk, x) {
      SomeFirst(disk, x);
    } else {
      assert FirstSaid(disk, s);
    }
  }

  lemma {:induction false} OursSays(disk: seq<Block>, log2: nat, s: nat)
    requires s < |disk| && Ours(disk, log2, s)
    ensures disk[s].Spine? && Says(disk, s) && disk[s].entry.ringLog2 == log2
  {
  }

  lemma {:induction false} SpinedHeaded(disk: seq<Block>, log2: nat, head: Entry)
    requires Spined(disk, log2, head)
    ensures Headed(disk, log2, head)
  {
    hide Ringed, Ours, Says, Pow2, FirstSaid;
    HeadOurs(disk, log2, head);
    var slot := head.gen % Pow2(log2);
    assert slot >= PROBES ==> exists s :: 0 < s < PROBES && s < Pow2(log2) && s < |disk| && Ours(disk, log2, s);
    var s: nat :| s < PROBES && s < Pow2(log2) && s < |disk| && Ours(disk, log2, s);
    OursSays(disk, log2, s);
    SomeFirst(disk, s);
    var x: nat :| x <= s && FirstSaid(disk, x);
    FirstIs(disk, x);
    OursSays(disk, log2, x);
    assert FoundAt(disk, log2, x);
  }

  lemma {:induction false} FirstIs(disk: seq<Block>, s: nat)
    requires FirstSaid(disk, s)
    ensures s < PROBES && s < |disk| && Says(disk, s)
  {
  }

  lemma {:induction false} FindableKept(disk: seq<Block>, after: seq<Block>, log2: nat)
    requires Findable(disk, log2) && SameRing(disk, after, Pow2(log2))
    ensures Findable(after, log2)
  {
    hide Classify, Pow2;
    var s: nat :| FoundAt(disk, log2, s);
    assert forall x :: 0 <= x <= s ==> after[x] == disk[x] && Says(after, x) == Says(disk, x);
    assert FoundAt(after, log2, s);
  }

  lemma {:induction false} FindableNext(disk: seq<Block>, after: seq<Block>, log2: nat, e: Entry)
    requires Findable(disk, log2) && Geometry(e) && e.ringLog2 == log2 && e.gen % Pow2(log2) < Pow2(log2) <= |disk|
    requires after == disk[e.gen % Pow2(log2) := Spine(e)]
    ensures Findable(after, log2)
  {
    hide Geometry, Pow2;
    var slot := e.gen % Pow2(log2);
    var s: nat :| FoundAt(disk, log2, s);
    assert forall x :: 0 <= x < |disk| && x != slot ==> after[x] == disk[x] && Says(after, x) == Says(disk, x);
    assert Says(after, slot);
    assert FoundAt(after, log2, if slot < s then slot else s);
  }

  lemma {:induction false} LoadsFits(disk: seq<Block>, log2: nat, g: Gen)
    requires Loads(disk, log2, g)
    ensures Pow2(log2) <= |disk| && g.entry.tract > 0 && Pow2(log2) + g.entry.tract <= |disk|
    ensures Headed(disk, log2, g.entry) && Stands(disk, Pow2(log2), g)
  {
    hide RingHolds, Chained, Classify, Findable, Sound, Once, Held, Content, Pos;
  }

  lemma {:induction false} RestoresLoads(disk: seq<Block>, log2: nat, g: Gen)
    requires Restores(disk, log2, g)
    ensures Loads(disk, log2, g)
  {
    hide Spined, Headed, Stands;
    SpinedHeaded(disk, log2, g.entry);
  }

  /** A lasting ring bootstraps to its own size. */
  lemma {:induction false} BootstrapFinds(disk: seq<Block>, log2: nat, head: Entry)
    requires Spined(disk, log2, head)
    ensures exists s :: 0 <= s < PROBES && s < |disk| && Says(disk, s)
    ensures forall r: nat :: SaysRing(disk, r) ==> r == log2
  {
    hide *;
    SpinedHeaded(disk, log2, head);
    HeadedFound(disk, log2, head);
    FindableSays(disk, log2);
  }

  lemma {:induction false} HeadedFound(disk: seq<Block>, log2: nat, head: Entry)
    requires Headed(disk, log2, head)
    ensures Findable(disk, log2) && Ringed(disk, log2, head) && Pow2(log2) <= |disk|
  {
    hide Findable;
  }

  lemma {:induction false} TwoSlots(log2: nat)
    requires log2 > 0
    ensures Pow2(log2) >= 2
  {
  }
}
