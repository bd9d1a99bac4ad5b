/** The spine ring: generation-numbered entries in 2^r slots, the branching bisect that finds the newest one
    around unreadable slots, and the fence the last generations put before the plow. */
module Rings {
  import opened Blocks
  import opened Runs
  import opened Devices
  import opened Mirrors

  /** Generations that stay restorable. */
  const FENCE_K: nat := 4

  function Pow2(r: nat): Positive {
    if r == 0 then 1 else 2 * Pow2(r - 1)
  }

  // ---------------------------------------------------------------- entries

  /** What decoding checks of an entry's fields before it may be believed. */
  predicate Geometry(e: Entry) {
    && 0 < e.ringLog2 <= 32
    && e.tract > 0
    && (e.reap.Some? ==> e.reap.value <= e.plow && e.plow - e.reap.value <= e.tract)
  }

  /** Appends stay in space that was clean at this generation; an entry without a reap grants none. */
  function Budget(e: Entry): nat {
    if e.reap.Some? then e.reap.value + e.tract else e.plow
  }

  datatype Classified = Valid(entry: Entry) | Empty | Corrupt

  /** A block read from `slot`; `log2` is None while the ring's size is still unknown. */
  function Classify(b: Block, slot: nat, log2: Option<nat>): Classified {
    if b.Zero? then Empty
    else if !b.Spine? || !Geometry(b.entry) then Classified.Corrupt
    else
      var r := if log2.Some? then log2.value else b.entry.ringLog2;
      if b.entry.ringLog2 != r || b.entry.gen % Pow2(r) != slot then Classified.Corrupt else Valid(b.entry)
  }

  /** The generation `i` before `e`. */
  function Ancestor(e: Entry, i: nat): Option<Entry>
    decreases i
  {
    if i == 0 then Some(e) else if e.prev.Genesis? then None else Ancestor(e.prev.entry, i - 1)
  }

  /** The chain every append extends: consecutive generations down to 0, all of one ring size. */
  predicate Chained(e: Entry)
    decreases e
  {
    && Geometry(e)
    && match e.prev
       case Genesis => e.gen == 0
       case Prev(p) => e.gen == p.gen + 1 && p.ringLog2 == e.ringLog2 && Chained(p)
  }

  lemma {:induction false} AncestorGen(e: Entry, i: nat)
    requires Chained(e)
    ensures Ancestor(e, i).Some? <==> i <= e.gen
    ensures i <= e.gen ==> var a := Ancestor(e, i).value; a.gen == e.gen - i && Chained(a) && a.ringLog2 == e.ringLog2
  {
    if i > 0 && e.prev.Prev? {
      AncestorGen(e.prev.entry, i - 1);
    }
  }

  // ---------------------------------------------------------------- what a fixed ring can hold

  /** Generations back from `g` to the one whose slot is `s`. */
  function Back(g: nat, s: nat, n: Positive): nat
    requires s < n
  {
    (g % n + n - s) % n
  }

  ghost function SlotAt(disk: seq<Block>, log2: nat, s: nat): Classified
    requires s < |disk|
  {
    Classify(disk[s], s, Some(log2))
  }

  /** After the generations up to `head`, every slot holds the newest generation congruent to it, is empty
      when there was none yet, or is unreadable: any subset of slots may be. */
  ghost predicate RingHolds(disk: seq<Block>, log2: nat, head: Entry) {
    && Pow2(log2) <= |disk|
    && forall s :: 0 <= s < Pow2(log2) ==> SlotHolds(disk, log2, head, s)
  }

  ghost predicate SlotHolds(disk: seq<Block>, log2: nat, head: Entry, s: nat)
    requires s < Pow2(log2) <= |disk|
  {
    var i := Back(head.gen, s, Pow2(log2));
    match SlotAt(disk, log2, s)
    case Corrupt => true
    case Empty => i > head.gen
    case Valid(e) => Ancestor(head, i) == Some(e)
  }

  /** The newest entry among the slots [lo, hi), by looking at every one. */
  ghost function Newest(disk: seq<Block>, log2: nat, lo: nat, hi: nat): Option<Entry>
    requires lo <= hi <= |disk|
    decreases hi - lo
  {
    if lo == hi then None else MaxByGen(Newest(disk, log2, lo, hi - 1), EntryAt(disk, log2, hi - 1))
  }

  ghost function EntryAt(disk: seq<Block>, log2: nat, s: nat): Option<Entry>
    requires s < |disk|
  {
    if SlotAt(disk, log2, s).Valid? then Some(SlotAt(disk, log2, s).entry) else None
  }

  function MaxByGen(a: Option<Entry>, b: Option<Entry>): Option<Entry> {
    if a.None? then b else if b.None? then a else if a.value.gen >= b.value.gen then a else b
  }

  /** Generations at the slots of a ring that has come round: rising to the newest, then a lap behind. */
  lemma {:induction false} Lapped(disk: seq<Block>, log2: nat, head: Entry, s: nat)
    requires RingHolds(disk, log2, head) && Chained(head) && s < Pow2(log2)
    ensures var n := Pow2(log2); var cut := head.gen % n; var base := head.gen - cut;
      && (SlotAt(disk, log2, s).Valid? ==> SlotAt(disk, log2, s).entry.gen == if s <= cut then base + s else base + s - n)
      && (SlotAt(disk, log2, s).Empty? ==> s > cut && base == 0)
      && (SlotAt(disk, log2, s).Valid? && s > cut ==> base >= n)
  {
    var n := Pow2(log2);
    assert SlotHolds(disk, log2, head, s);
    BackBy(head.gen, s, n);
    AncestorGen(head, Back(head.gen, s, n));
    LapMultiple(head.gen, n);
  }

  lemma {:induction false} BackBy(g: nat, s: nat, n: Positive)
    requires s < n
    ensures Back(g, s, n) == if s <= g % n then g % n - s else g % n + n - s
  {
    var x := g % n + n - s;
    if s <= g % n {
      ModShift(x - n, n);
    } else {
      ModSmall(x, n);
    }
  }

  lemma {:induction false} ModSmall(x: nat, n: Positive)
    requires x < n
    ensures x % n == x
  {
  }

  lemma {:induction false} ModShift(x: nat, n: Positive)
    requires x < n
    ensures (x + n) % n == x
  {
    SmallMod(1, x, n);
  }

  /** The start of a lap is zero or a whole lap at least. */
  lemma {:induction false} LapMultiple(g: nat, n: Positive)
    ensures g - g % n == 0 || g - g % n >= n
  {
    var q := g / n;
    assert g == q * n + g % n;
    if q >= 1 {
      assert q * n >= n by {
        assert (q - 1) * n >= 0;
      }
    }
  }

  // ---------------------------------------------------------------- the scan's laws

  lemma {:induction false} NewestIn(disk: seq<Block>, log2: nat, lo: nat, hi: nat)
    requires lo <= hi <= |disk|
    ensures var e := Newest(disk, log2, lo, hi);
      && (e.Some? ==> exists s :: lo <= s < hi && EntryAt(disk, log2, s) == e)
      && forall s :: lo <= s < hi && EntryAt(disk, log2, s).Some? ==> e.Some? && EntryAt(disk, log2, s).value.gen <= e.value.gen
    decreases hi - lo
  {
    if lo < hi {
      NewestIn(disk, log2, lo, hi - 1);
      var e := Newest(disk, log2, lo, hi);
      if e.Some? && e != EntryAt(disk, log2, hi - 1) {
        var s :| lo <= s < hi - 1 && EntryAt(disk, log2, s) == e;
      }
    }
  }

  /** One slot whose generation no other in the range exceeds is what the scan returns. */
  lemma {:induction false} NewestIs(disk: seq<Block>, log2: nat, lo: nat, hi: nat, s: nat)
    requires lo <= s < hi <= |disk| && EntryAt(disk, log2, s).Some?
    requires forall x :: lo <= x < hi && x != s && EntryAt(disk, log2, x).Some? ==>
      EntryAt(disk, log2, x).value.gen < EntryAt(disk, log2, s).value.gen
    ensures Newest(disk, log2, lo, hi) == EntryAt(disk, log2, s)
  {
    NewestIn(disk, log2, lo, hi);
    var x :| lo <= x < hi && EntryAt(disk, log2, x) == Newest(disk, log2, lo, hi);
  }

  lemma {:induction false} NewestSplit(disk: seq<Block>, log2: nat, lo: nat, mid: nat, hi: nat)
    requires lo <= mid <= hi <= |disk|
    ensures Newest(disk, log2, lo, hi) == MaxByGen(Newest(disk, log2, lo, mid), Newest(disk, log2, mid, hi))
    decreases hi - mid
  {
    if mid < hi {
      NewestSplit(disk, log2, lo, mid, hi - 1);
    }
  }

  lemma {:induction false} NewestNone(disk: seq<Block>, log2: nat, lo: nat, hi: nat)
    requires lo <= hi <= |disk| && forall s :: lo <= s < hi ==> EntryAt(disk, log2, s).None?
    ensures Newest(disk, log2, lo, hi) == None
  {
    NewestIn(disk, log2, lo, hi);
  }

  /** The slots a bisect step gives up hold nothing newer than what it keeps. */
  lemma {:induction false} DropLeft(disk: seq<Block>, log2: nat, head: Entry, lo: nat, mid: nat, hi: nat)
    requires RingHolds(disk, log2, head) && Chained(head) && lo < mid < hi <= Pow2(log2)
    requires EntryAt(disk, log2, mid).Some?
    requires SlotAt(disk, log2, lo).Empty? || (EntryAt(disk, log2, lo).Some? && EntryAt(disk, log2, mid).value.gen > EntryAt(disk, log2, lo).value.gen)
    ensures Newest(disk, log2, lo, hi) == Newest(disk, log2, mid, hi)
  {
    Lapped(disk, log2, head, lo);
    Lapped(disk, log2, head, mid);
    forall s | lo <= s < mid && EntryAt(disk, log2, s).Some?
      ensures EntryAt(disk, log2, s).value.gen < EntryAt(disk, log2, mid).value.gen
    {
      Lapped(disk, log2, head, s);
    }
    NewestSplit(disk, log2, lo, mid, hi);
    NewestIn(disk, log2, lo, mid);
    NewestIn(disk, log2, mid, hi);
  }

  lemma {:induction false} DropRight(disk: seq<Block>, log2: nat, head: Entry, lo: nat, mid: nat, hi: nat)
    requires RingHolds(disk, log2, head) && Chained(head) && lo < mid < hi <= Pow2(log2)
    requires !SlotAt(disk, log2, lo).Corrupt? && !SlotAt(disk, log2, mid).Corrupt?
    requires EntryAt(disk, log2, mid).Some? ==>
      EntryAt(disk, log2, lo).Some? && EntryAt(disk, log2, mid).value.gen <= EntryAt(disk, log2, lo).value.gen
    ensures Newest(disk, log2, lo, hi) == Newest(disk, log2, lo, mid)
  {
    Lapped(disk, log2, head, lo);
    Lapped(disk, log2, head, mid);
    forall s | mid <= s < hi && EntryAt(disk, log2, s).Some?
      ensures EntryAt(disk, log2, lo).Some? && EntryAt(disk, log2, s).value.gen < EntryAt(disk, log2, lo).value.gen
    {
      Lapped(disk, log2, head, s);
    }
    NewestSplit(disk, log2, lo, mid, hi);
    NewestIn(disk, log2, lo, mid);
    NewestIn(disk, log2, mid, hi);
  }

  lemma {:induction false} OlderSlot(disk: seq<Block>, log2: nat, head: Entry, s: nat)
    requires RingHolds(disk, log2, head) && Chained(head) && s < Pow2(log2) <= |disk| && s != head.gen % Pow2(log2)
    ensures EntryAt(disk, log2, s).Some? ==> EntryAt(disk, log2, s).value.gen < head.gen
  {
    Lapped(disk, log2, head, s);
  }

  lemma {:induction false} HeadEntry(disk: seq<Block>, log2: nat, head: Entry)
    requires Pow2(log2) <= |disk| && SlotAt(disk, log2, head.gen % Pow2(log2)) == Valid(head)
    ensures EntryAt(disk, log2, head.gen % Pow2(log2)) == Some(head)
  {
  }

  /** A readable newest slot is the ring's maximum. */
  lemma {:induction false} HeadIsNewest(disk: seq<Block>, log2: nat, head: Entry)
    requires RingHolds(disk, log2, head) && Chained(head) && Pow2(log2) <= |disk|
    requires SlotAt(disk, log2, head.gen % Pow2(log2)) == Valid(head)
    ensures Newest(disk, log2, 0, Pow2(log2)) == Some(head)
  {
    hide *;
    HeadEntry(disk, log2, head);
    forall x | 0 <= x < Pow2(log2) && x != head.gen % Pow2(log2) && EntryAt(disk, log2, x).Some?
      ensures EntryAt(disk, log2, x).value.gen < head.gen
    {
      OlderSlot(disk, log2, head, x);
    }
    NewestIs(disk, log2, 0, Pow2(log2), head.gen % Pow2(log2));
  }

  // ---------------------------------------------------------------- the next generation

  /** The next slot written, whole or torn, is all that changes; torn, the ring still ends at `head`. */
  lemma {:induction false} RingTorn(disk: seq<Block>, after: seq<Block>, log2: nat, head: Entry)
    requires RingHolds(disk, log2, head) && Chained(head) && head.ringLog2 == log2
    requires |after| >= Pow2(log2) && forall s :: 0 <= s < Pow2(log2) && s != (head.gen + 1) % Pow2(log2) ==> after[s] == disk[s]
    requires var s := (head.gen + 1) % Pow2(log2); after[s] == disk[s] || after[s].Torn?
    ensures RingHolds(after, log2, head)
  {
    forall s | 0 <= s < Pow2(log2)
      ensures SlotHolds(after, log2, head, s)
    {
      assert SlotHolds(disk, log2, head, s);
    }
  }

  lemma {:induction false} RingNext(disk: seq<Block>, after: seq<Block>, log2: nat, head: Entry, next: Entry)
    requires RingHolds(disk, log2, head) && Chained(next) && next.prev == Prev(head) && next.ringLog2 == log2
    requires |after| >= Pow2(log2) && forall s :: 0 <= s < Pow2(log2) && s != next.gen % Pow2(log2) ==> after[s] == disk[s]
    requires after[next.gen % Pow2(log2)] == Spine(next)
    ensures RingHolds(after, log2, next) && SlotAt(after, log2, next.gen % Pow2(log2)) == Valid(next)
  {
    var n := Pow2(log2);
    forall s | 0 <= s < Pow2(log2)
      ensures SlotHolds(after, log2, next, s)
    {
      NextSlot(head.gen, n);
      BackBy(next.gen, s, n);
      BackBy(head.gen, s, n);
      if s != next.gen % n {
        assert SlotHolds(disk, log2, head, s) && SlotAt(after, log2, s) == SlotAt(disk, log2, s);
        assert Back(next.gen, s, n) == Back(head.gen, s, n) + 1;
        assert Ancestor(next, Back(next.gen, s, n)) == Ancestor(head, Back(head.gen, s, n));
      } else {
        assert Back(next.gen, s, n) == 0;
        assert Ancestor(next, 0) == Some(next);
        assert SlotAt(after, log2, s) == Classified.Valid(next);
      }
    }
  }

  lemma {:induction false} NextSlot(g: nat, n: Positive)
    ensures (g + 1) % n == if g % n == n - 1 then 0 else g % n + 1
  {
    var q := g / n;
    assert g == q * n + g % n;
    if g % n == n - 1 {
      assert g + 1 == (q + 1) * n + 0;
      SmallMod(q + 1, 0, n);
    } else {
      SmallMod(q, g % n + 1, n);
    }
  }

  /** Genesis in a zeroed ring. */
  lemma {:induction false} RingGenesis(disk: seq<Block>, log2: nat, first: Entry)
    requires Chained(first) && first.gen == 0 && first.ringLog2 == log2 && Pow2(log2) <= |disk|
    requires disk[0] == Spine(first) && forall s :: 0 < s < Pow2(log2) ==> disk[s].Zero?
    ensures RingHolds(disk, log2, first) && SlotAt(disk, log2, 0) == Valid(first)
  {
    ModSmall(0, Pow2(log2));
    forall s | 0 <= s < Pow2(log2)
      ensures SlotHolds(disk, log2, first, s)
    {
      BackBy(0, s, Pow2(log2));
    }
  }

  // ---------------------------------------------------------------- the fence

  /** The budget `i` generations back as the ring shows it; zero when the slot is unreadable or lapped. */
  ghost function BudgetAt(disk: seq<Block>, log2: nat, head: Entry, i: nat): nat
    requires Pow2(log2) <= |disk| && i <= head.gen
  {
    var e := EntryAt(disk, log2, (head.gen - i) % Pow2(log2));
    if e.Some? && e.value.gen == head.gen - i then Budget(e.value) else 0
  }

  /** The smallest budget of the window, once the window is full: appends stay at or below it. */
  function FenceFrom(budgets: seq<nat>): (f: Option<nat>)
    ensures f.Some? <==> |budgets| >= FENCE_K
    ensures f.Some? ==> f.value in budgets && forall i :: 0 <= i < |budgets| ==> f.value <= budgets[i]
  {
    if |budgets| < FENCE_K then None else Some(Least(budgets))
  }

  function Least(budgets: seq<nat>): (m: nat)
    requires budgets != []
    ensures m in budgets && forall i :: 0 <= i < |budgets| ==> m <= budgets[i]
  {
    if |budgets| == 1 then budgets[0]
    else
      var rest := Least(budgets[..|budgets| - 1]);
      if rest <= budgets[|budgets| - 1] then rest else budgets[|budgets| - 1]
  }

  ghost function Budgets(disk: seq<Block>, log2: nat, head: Entry): seq<nat>
    requires Pow2(log2) <= |disk|
  {
    seq(if FENCE_K <= head.gen + 1 then FENCE_K else head.gen + 1,
        i requires 0 <= i < (if FENCE_K <= head.gen + 1 then FENCE_K else head.gen + 1) => BudgetAt(disk, log2, head, i))
  }

  ghost function Fence(disk: seq<Block>, log2: nat, head: Entry): Option<nat>
    requires Pow2(log2) <= |disk|
  {
    FenceFrom(Budgets(disk, log2, head))
  }

  lemma {:induction false} BudgetShown(disk: seq<Block>, log2: nat, head: Entry, i: nat)
    requires RingHolds(disk, log2, head) && Chained(head) && Pow2(log2) <= |disk| && i <= head.gen
    ensures Ancestor(head, i).Some? && BudgetAt(disk, log2, head, i) <= Budget(Ancestor(head, i).value)
  {
    hide Pow2, Chained, Classify;
    var s := (head.gen - i) % Pow2(log2);
    AncestorGen(head, i);
    assert SlotHolds(disk, log2, head, s);
    AncestorGen(head, Back(head.gen, s, Pow2(log2)));
  }

  lemma {:induction false} FenceOf(disk: seq<Block>, log2: nat, head: Entry, i: nat)
    requires Pow2(log2) <= |disk| && i < FENCE_K && Fence(disk, log2, head).Some?
    ensures i <= head.gen && Fence(disk, log2, head).value <= BudgetAt(disk, log2, head, i)
  {
    hide BudgetAt, Pow2;
    assert Budgets(disk, log2, head)[i] == BudgetAt(disk, log2, head, i);
  }

  /** In force, the fence lies at or below the budget of each of the last K generations. */
  lemma {:induction false} FenceGuards(disk: seq<Block>, log2: nat, head: Entry, i: nat)
    requires RingHolds(disk, log2, head) && Chained(head) && Pow2(log2) <= |disk| && i < FENCE_K
    requires Fence(disk, log2, head).Some?
    ensures Ancestor(head, i).Some? && Fence(disk, log2, head).value <= Budget(Ancestor(head, i).value)
  {
    hide *;
    FenceOf(disk, log2, head, i);
    BudgetShown(disk, log2, head, i);
  }

  /** Once in force the fence stays: generations only become more. */
  lemma {:induction false} FenceStays(disk: seq<Block>, after: seq<Block>, log2: nat, head: Entry, next: Entry)
    requires Pow2(log2) <= |disk| && Pow2(log2) <= |after| && next.gen >= head.gen
    ensures Fence(disk, log2, head).Some? ==> Fence(after, log2, next).Some?
  {
    hide BudgetAt, Pow2;
  }

  /** The slot of the generation `i` back is readable. */
  ghost predicate Readable(disk: seq<Block>, log2: nat, head: Entry, i: nat)
    requires Pow2(log2) <= |disk|
  {
    i <= head.gen && Ancestor(head, i).Some? && EntryAt(disk, log2, (head.gen - i) % Pow2(log2)) == Ancestor(head, i)
  }

  /** Equal budgets in every readable slot of the window: the fence is that budget. */
  lemma {:induction false} FenceOfEqual(disk: seq<Block>, log2: nat, head: Entry, budget: nat)
    requires Pow2(log2) <= |disk| && Chained(head) && head.gen + 1 >= FENCE_K
    requires forall i :: 0 <= i < FENCE_K ==> Readable(disk, log2, head, i) && Budget(Ancestor(head, i).value) == budget
    ensures Fence(disk, log2, head) == Some(budget)
  {
    hide Pow2, Chained, Classify, Budget, EntryAt;
    forall i | 0 <= i < FENCE_K
      ensures Budgets(disk, log2, head)[i] == budget
    {
      assert Readable(disk, log2, head, i);
      AncestorGen(head, i);
    }
  }

  // ---------------------------------------------------------------- the ring

  class Ring {
    const log2: nat
    var head: Option<Entry>

    ghost predicate Valid(m: Mirror)
      reads this, m
    {
      && 0 < log2 <= 32 && Pow2(log2) <= |m.disk|
      && (head.Some? ==> var h := head.value;
          && Chained(h) && h.ringLog2 == log2 && RingHolds(m.disk, log2, h)
          && SlotAt(m.disk, log2, h.gen % Pow2(log2)) == Classified.Valid(h))
      && (head.None? ==> forall s :: 0 <= s < Pow2(log2) ==> m.disk[s].Zero?)
    }

    constructor (log2: nat)
      ensures this.log2 == log2 && head == None
    {
      this.log2 := log2;
      head := None;
    }

    method Slots() returns (n: Positive)
      ensures n == Pow2(log2)
    {
      n := 1;
      for i := 0 to log2
        invariant n == Pow2(i)
      {
        n := 2 * n;
      }
    }

    method ReadSlot(m: Mirror, s: nat) returns (r: Classified)
      requires m.Valid() && s < |m.disk|
      ensures r == SlotAt(m.disk, log2, s)
    {
      var got := m.Read(s);
      return Classify(got.value, s, Some(log2));
    }

    /** Find the newest entry of [lo, hi]: bisect on the turned-over maximum, and where the middle is
        unreadable search both halves. Agrees with looking at every slot, whatever slots are unreadable. */
    method Search(m: Mirror, lo: nat, hi: nat, ghost last: Entry) returns (r: Option<Entry>)
      requires m.Valid() && RingHolds(m.disk, log2, last) && Chained(last) && lo <= hi + 1 && hi < Pow2(log2)
      ensures r == Newest(m.disk, log2, lo, hi + 1)
      decreases hi + 1 - lo
    {
      hide RingHolds, Chained, Newest, SlotAt, Classify, Last, Flat, Overlay, CacheSorted, CacheTrue;
      ghost var n := |m.disk|;
      assert Pow2(log2) <= n by {
        RingFits(m.disk, log2, last);
      }
      var lo', hi' := lo, hi;
      var anchor := Classified.Corrupt;
      while anchor.Corrupt?
        invariant lo <= lo' <= hi + 1
        invariant anchor.Corrupt? ==> Newest(m.disk, log2, lo', hi + 1) == Newest(m.disk, log2, lo, hi + 1)
        invariant !anchor.Corrupt? ==> lo' <= hi && anchor == SlotAt(m.disk, log2, lo') && Newest(m.disk, log2, lo', hi + 1) == Newest(m.disk, log2, lo, hi + 1)
        decreases hi + 1 - lo', anchor.Corrupt?
      {
        if lo' > hi {
          NewestNone(m.disk, log2, lo', hi + 1);
          return None;
        }
        anchor := ReadSlot(m, lo');
        if anchor.Corrupt? {
          SkipCorrupt(m.disk, log2, lo', hi + 1);
          lo' := lo' + 1;
        }
      }
      while lo' < hi'
        invariant lo <= lo' <= hi' <= hi && anchor == SlotAt(m.disk, log2, lo') && !anchor.Corrupt?
        invariant Newest(m.disk, log2, lo', hi' + 1) == Newest(m.disk, log2, lo, hi + 1)
      {
        var mid := (lo' + hi' + 1) / 2;
        var middle := ReadSlot(m, mid);
        if middle.Corrupt? {
          var left := Search(m, lo', mid - 1, last);
          var right := Search(m, mid, hi', last);
          NewestSplit(m.disk, log2, lo', mid, hi' + 1);
          return MaxByGen(left, right);
        }
        if middle.Valid? && (anchor.Empty? || middle.entry.gen > anchor.entry.gen) {
          DropLeft(m.disk, log2, last, lo', mid, hi' + 1);
          lo', anchor := mid, middle;
        } else {
          DropRight(m.disk, log2, last, lo', mid, hi' + 1);
          hi' := mid - 1;
        }
      }
      NewestOne(m.disk, log2, lo');
      return if anchor.Valid? then Some(anchor.entry) else None;
    }

    /** Open finds the head: with its slot readable, the newest generation; in every case the maximum. */
    method HeadSearch(m: Mirror, ghost last: Entry)
      requires m.Valid() && RingHolds(m.disk, log2, last) && Chained(last)
      modifies this`head
      ensures head == Newest(m.disk, log2, 0, Pow2(log2))
      ensures SlotAt(m.disk, log2, last.gen % Pow2(log2)) == Classified.Valid(last) ==> head == Some(last)
    {
      hide RingHolds, Chained, Newest, SlotAt, Classify;
      RingFits(m.disk, log2, last);
      var n: nat := Slots();
      head := Search(m, 0, n - 1, last);
      if SlotAt(m.disk, log2, last.gen % Pow2(log2)) == Classified.Valid(last) {
        HeadIsNewest(m.disk, log2, last);
      }
    }

    /** Append the next generation. The chain is enforced: the number follows the head's, the parent is the head. */
    method Append(m: Mirror, e: Entry) returns (r: Result<()>)
      requires m.Valid() && Valid(m) && Geometry(e)
      modifies this`head, m, m.a, m.b
      ensures m.Prim() == old(m.Prim()) && old(m.History()) <= m.History() && (m.b == old(m.b) || m.b == null)
      ensures old(Follows(e)) ==>
        m.Ordered(|old(m.History())|, old(m.Durable()), old(m.Staged()), old(m.disk), map[e.gen % Pow2(log2) := Spine(e)])
      ensures !old(Follows(e)) ==> r == Err(Error.Corrupt) && m.History() == old(m.History())
      ensures r.Ok? ==> m.Valid() && m.Settled() && Valid(m) && head == Some(e)
      ensures r.Ok? ==> e.gen % Pow2(log2) < |m.disk| && m.disk == old(m.disk)[e.gen % Pow2(log2) := Spine(e)]
      ensures r.Ok? && old(m.Synced()) ==> m.Synced()
      ensures r.Err? ==> head == old(head)
      ensures r.Err? && old(Follows(e)) ==> Down(r.error)
    {
      hide RingHolds, Classify, Last, Flat, Overlay, CacheSorted, CacheTrue, Moves;
      if head.Some? {
        if e.gen != head.value.gen + 1 || e.prev != Prev(head.value) {
          return Err(Error.Corrupt);
        }
      } else if e.gen != 0 || !e.prev.Genesis? {
        return Err(Error.Corrupt);
      }
      if e.ringLog2 != log2 {
        return Err(Error.Corrupt);
      }
      var n := Slots();
      var slot := e.gen % n;
      ghost var before := m.disk;
      var wrote := m.WriteVerified(slot, Spine(e));
      if wrote.Err? {
        return Err(wrote.error);
      }
      Links(old(head), e);
      if head.Some? {
        RingNext(before, m.disk, log2, head.value, e);
      } else {
        ModSmall(0, n);
        RingGenesis(m.disk, log2, e);
      }
      head := Some(e);
      return Ok(());
    }

    /** The window the fence is taken from: one budget a generation, K back from the head, zero where the slot is not theirs. */
    method RecentFences(m: Mirror) returns (budgets: seq<nat>)
      requires m.Valid() && Valid(m) && head.Some?
      ensures budgets == Budgets(m.disk, log2, head.value)
    {
      hide RingHolds, Classify, Chained, Last, Flat, Overlay, CacheSorted, CacheTrue, Mirrors.Mirror.Valid;
      var n := Slots();
      var g := head.value.gen;
      var count := if FENCE_K <= g + 1 then FENCE_K else g + 1;
      budgets := [];
      for i := 0 to count
        invariant budgets == Budgets(m.disk, log2, head.value)[..i]
      {
        var got := ReadSlot(m, (g - i) % n);
        budgets := budgets + [if got.Valid? && got.entry.gen == g - i then Budget(got.entry) else 0];
      }
    }

    ghost predicate Follows(e: Entry)
      reads this
    {
      && e.ringLog2 == log2
      && if head.Some? then e.gen == head.value.gen + 1 && e.prev == Prev(head.value) else e.gen == 0 && e.prev.Genesis?
    }
  }

  lemma {:induction false} Links(head: Option<Entry>, e: Entry)
    requires head.Some? ==> Chained(head.value) && e.gen == head.value.gen + 1 && e.prev == Prev(head.value) && head.value.ringLog2 == e.ringLog2
    requires head.None? ==> e.gen == 0 && e.prev.Genesis?
    requires Geometry(e)
    ensures Chained(e)
  {
  }

  lemma {:induction false} RingFits(disk: seq<Block>, log2: nat, head: Entry)
    requires RingHolds(disk, log2, head)
    ensures Pow2(log2) <= |disk|
  {
  }

  lemma {:induction false} NewestOne(disk: seq<Block>, log2: nat, s: nat)
    requires s < |disk|
    ensures Newest(disk, log2, s, s + 1) == EntryAt(disk, log2, s)
  {
    assert Newest(disk, log2, s, s) == None;
  }

  lemma {:induction false} SkipCorrupt(disk: seq<Block>, log2: nat, s: nat, hi: nat)
    requires s < hi <= |disk| && SlotAt(disk, log2, s).Corrupt?
    ensures Newest(disk, log2, s, hi) == Newest(disk, log2, s + 1, hi)
  {
    NewestSplit(disk, log2, s, s + 1, hi);
    NewestOne(disk, log2, s);
  }
}
