/** A repair cut short by a power cut: until its entry has landed, the damaged index still tells the same keys from the
    lost ones, so the repair can be begun again. */
module Interrupts {
  import opened Blocks
  import opened Runs
  import opened Trie
  import opened Media
  import opened Devices
  import opened Mirrors
  import opened Tracts
  import opened Placing
  import opened Hamts
  import opened Rings
  import opened Generations
  import opened Repairs
  import Moves

  // ---------------------------------------------------------------- what the writes of a repair may do

  /** A block as it was, torn, or sealed as one the index `u` references there. */
  ghost predicate Written(v: Medium, w: Medium, u: Tree, p: nat)
    requires Has(v, p) && Has(w, p)
  {
    var b := w.disk[w.base + p];
    b == v.disk[v.base + p] || (b.Sealed? ==> Moves.RoleFits(u, p, b.doc))
  }

  /** `w` is `v` with such blocks, off everything firm. */
  ghost predicate Touched(v: Medium, w: Medium, root: Tree, u: Tree) {
    && w.base == v.base && w.len == v.len && |w.disk| == |v.disk| && Keeps(v, w, Firm(v, root))
    && forall p :: Has(v, p) ==> Has(w, p) && Written(v, w, u, p)
  }

  // ---------------------------------------------------------------- what was safe stays safe

  lemma {:induction false} StillGood(v: Medium, w: Medium, t: Tree)
    requires !Bad(v, t) && w.len == v.len && Keeps(v, w, Own(t))
    ensures !Bad(w, t)
    ensures t.Leaf? ==> ValueOf(w, t) == ValueOf(v, t)
  {
    if t.Leaf? {
      assert LbaOf(t) in Own(t) && Has(v, LbaOf(t));
      BodyKept(v, w, t.key, t.body);
    } else if Blocks.Committed(t) {
      assert LbaOf(t) in Own(t) && Has(v, LbaOf(t));
    }
  }

  lemma {:induction false} SafeStays(v: Medium, w: Medium, t: Tree, d: nat, key: Key)
    requires Safe(v, t, d, key) && w.len == v.len && Keeps(v, w, Firm(v, t))
    ensures Safe(w, t, d, key) && ValueOf(w, Find(t, d, key)) == ValueOf(v, Find(t, d, key))
    decreases t
  {
    hide ValueOf;
    assert Own(t) <= Firm(v, t);
    StillGood(v, w, t);
    if t.Node? {
      var kid := t.kids[key[d]];
      assert Firm(v, kid) <= FirmUnder(v, t.kids);
      SafeStays(v, w, kid, d + 1, key);
    }
  }

  // ---------------------------------------------------------------- what was lost stays lost

  lemma {:induction false} PointsLeaves(t: Tree, n: Tree)
    requires Moves.Points(t, n)
    ensures Leaves(n) <= Leaves(t)
    decreases t
  {
    if !(Blocks.Committed(t) && t == n) {
      var c :| 0 <= c < |t.kids| && Moves.Points(t.kids[c], n);
      PointsLeaves(t.kids[c], n);
      forall l | l in Leaves(t.kids[c])
        ensures l in Leaves(t)
      {
      }
    }
  }

  /** A lost pointer's target that reads again is one the new index references itself. */
  lemma {:induction false} TargetBack(v: Medium, w: Medium, root: Tree, u: Tree, t: Tree)
    requires Touched(v, w, root, u) && Blocks.Committed(t) && !Hamts.Readable(v, t) && Hamts.Readable(w, t)
    ensures Leaves(t) <= Leaves(u)
  {
    var p := LbaOf(t);
    assert Has(w, p) && Has(v, p) && w.disk[w.base + p] == Sealed(DocOf(t)) && Written(v, w, u, p);
    assert PointerTo(DocOf(t), p) == t && Moves.RoleFits(u, p, DocOf(t));
    if t.Node? {
      PointsLeaves(u, t);
    }
  }

  /** A leaf whose furrows read again belongs to a key of the new index. */
  lemma {:induction false} BodyBack(v: Medium, w: Medium, root: Tree, u: Tree, t: Tree)
    requires Touched(v, w, root, u) && t.Leaf? && !BodyHeld(v, t.key, t.body) && BodyHeld(w, t.key, t.body)
    ensures exists l :: l in Leaves(u) && l.Leaf? && l.key == t.key
  {
    hide Expand, Total, Inside, Leaves, Touched, FurrowAt;
    TouchedKeeps(v, w, root, u);
    var ps := Expand(t.body.runs);
    var i :| 0 <= i < |ps| && !FurrowAt(v, ps[i], t.key, i);
    FurrowBack(v, w, root, u, ps[i], t.key, i);
  }

  lemma {:induction false} FurrowBack(v: Medium, w: Medium, root: Tree, u: Tree, p: nat, key: Key, i: nat)
    requires Touched(v, w, root, u) && !FurrowAt(v, p, key, i) && FurrowAt(w, p, key, i)
    ensures exists l :: l in Leaves(u) && l.Leaf? && l.key == key
  {
    hide Leaves, Firm, Keeps;
    assert Has(v, p) && Written(v, w, u, p);
    assert Moves.RoleFits(u, p, w.disk[w.base + p].doc);
    var l :| l in Leaves(u) && Moves.FurrowOf(l, i, p) && l.key == key;
  }

  /** A key read through a pointer that was lost before is spared all the same. */
  lemma {:induction false} Flipped(v: Medium, w: Medium, root: Tree, u: Tree, t: Tree, pre: seq<nat>, key: Key)
    requires Touched(v, w, root, u) && Sound(root, []) && Leaves(u) == Spared(v, root)
    requires Sound(t, pre) && pre <= key && Safe(w, t, |pre|, key) && Find(t, |pre|, key) == Find(root, 0, key) && Bad(v, t)
    ensures Safe(v, root, 0, key)
  {
    hide Touched, Sound, Find, Spared, BodyHeld, Hamts.Readable;
    var l := Find(root, 0, key);
    SparedIsSafe(w, t, pre, key);
    SparedLeaf(w, t, l);
    if !Hamts.Readable(v, t) {
      TargetBack(v, w, root, u, t);
    } else {
      BodyBack(v, w, root, u, t);
      var k :| k in Leaves(u) && k.Leaf? && k.key == t.key;
      SparedLeaf(v, root, k);
      FindIsMembership(root, [], k);
      assert t.key == key && k == l;
    }
    SparedIsSafe(v, root, [], key);
  }

  lemma {:induction false} SafeWas(v: Medium, w: Medium, root: Tree, u: Tree, t: Tree, pre: seq<nat>, key: Key)
    requires Touched(v, w, root, u) && Sound(root, []) && Leaves(u) == Spared(v, root)
    requires Sound(t, pre) && pre <= key && Safe(w, t, |pre|, key) && Find(t, |pre|, key) == Find(root, 0, key)
    ensures Safe(v, t, |pre|, key) || Safe(v, root, 0, key)
    decreases t
  {
    hide Touched, Bad, Spared, Leaves;
    if Bad(v, t) {
      Flipped(v, w, root, u, t, pre, key);
    } else if t.Node? {
      PrefixStep(pre, key);
      SafeWas(v, w, root, u, t.kids[key[|pre|]], pre + [key[|pre|]], key);
    }
  }

  /** Whatever a cut leaves of the new index's blocks, the damaged one still denotes the same safe keys. */
  lemma {:induction false} SafeMapKept(v: Medium, w: Medium, root: Tree, u: Tree)
    requires Touched(v, w, root, u) && Sound(root, []) && Leaves(u) == Spared(v, root)
    ensures SafeMap(w, root) == SafeMap(v, root)
  {
    hide Touched, Sound, Safe, Find, ValueOf, Leaves, Spared, Firm;
    TouchedKeeps(v, w, root, u);
    forall k: Key
      ensures Safe(w, root, 0, k) == Safe(v, root, 0, k)
      ensures Safe(v, root, 0, k) ==> ValueOf(w, Find(root, 0, k)) == ValueOf(v, Find(root, 0, k))
    {
      if Safe(v, root, 0, k) {
        SafeStays(v, w, root, 0, k);
      } else if Safe(w, root, 0, k) {
        SafeWas(v, w, root, u, root, [], k);
      }
    }
  }

  lemma {:induction false} TouchedKeeps(v: Medium, w: Medium, root: Tree, u: Tree)
    requires Touched(v, w, root, u)
    ensures w.len == v.len && Keeps(v, w, Firm(v, root))
  {
  }

  // ---------------------------------------------------------------- cuts

  /** What a flush staged: blocks of the tract, each sealed as one the new index references there. */
  ghost predicate Roles(staged: map<nat, Block>, base: nat, u: Tree) {
    forall p :: p in staged ==> p >= base && staged[p].Sealed? && Moves.RoleFits(u, p - base, staged[p].doc)
  }

  /** The damaged head once more: its ring ends there, and its index tells the same keys safe. */
  ghost predicate Again(img: seq<Block>, log2: nat, head: Entry, content: map<Key, Stored>) {
    && Spined(img, log2, head) && head.tract > 0 && Pow2(log2) + head.tract <= |img|
    && SafeMap(MediumOf(img, Pow2(log2), head), head.root) == content
  }

  /** A cut of a repair leaves the damaged head to be repaired once more, or the repaired generation whole. */
  ghost predicate Recoverable(img: seq<Block>, log2: nat, head: Entry, e: Entry, content: map<Key, Stored>) {
    Again(img, log2, head, content) || Restores(img, log2, Gen(e, content))
  }

  ghost predicate CutShort(mo: Moment, log2: nat, head: Entry, e: Entry, content: map<Key, Stored>) {
    forall img: seq<Block> :: Image(mo, img) ==> Recoverable(img, log2, head, e, content)
  }

  /** Between blocks as they were and blocks staged in their roles, nothing safe is lost or gained. */
  lemma {:induction false} Cut(disk: seq<Block>, staged: map<nat, Block>, img: seq<Block>, log2: nat, head: Entry, u: Tree)
    requires Spined(disk, log2, head) && head.tract > 0 && Pow2(log2) + head.tract <= |disk| == |img| && Sound(head.root, [])
    requires Roles(staged, Pow2(log2), u) && Leaves(u) == Spared(MediumOf(disk, Pow2(log2), head), head.root)
    requires StagedOff(staged, Pow2(log2), Firm(MediumOf(disk, Pow2(log2), head), head.root))
    requires forall p :: 0 <= p < |img| ==> Between(disk, staged, p, img[p])
    ensures Again(img, log2, head, SafeMap(MediumOf(disk, Pow2(log2), head), head.root))
  {
    var v, w := MediumOf(disk, Pow2(log2), head), MediumOf(img, Pow2(log2), head);
    CutRing(disk, staged, img, log2, head, u);
    CutTract(disk, staged, img, Pow2(log2), head.tract, head.root, u);
    hide *;
    SafeMapKept(v, w, head.root, u);
    AgainIs(img, log2, head, SafeMap(v, head.root));
  }

  lemma {:induction false} AgainIs(img: seq<Block>, log2: nat, head: Entry, content: map<Key, Stored>)
    requires Spined(img, log2, head) && head.tract > 0 && Pow2(log2) + head.tract <= |img|
    requires SafeMap(MediumOf(img, Pow2(log2), head), head.root) == content
    ensures Again(img, log2, head, content)
  {
  }

  lemma {:induction false} CutRing(disk: seq<Block>, staged: map<nat, Block>, img: seq<Block>, log2: nat, head: Entry, u: Tree)
    requires Spined(disk, log2, head) && Pow2(log2) <= |disk| == |img| && Roles(staged, Pow2(log2), u)
    requires forall p :: 0 <= p < |img| ==> Between(disk, staged, p, img[p])
    ensures Spined(img, log2, head)
  {
    hide Spined, Moves.RoleFits, Pow2;
    SpinedKept(disk, img, log2, head);
  }

  lemma {:induction false} CutTract(disk: seq<Block>, staged: map<nat, Block>, img: seq<Block>, base: nat, len: Positive, root: Tree, u: Tree)
    requires base + len <= |disk| == |img| && Roles(staged, base, u) && StagedOff(staged, base, Firm(Medium(disk, base, len), root))
    requires forall p :: 0 <= p < |img| ==> Between(disk, staged, p, img[p])
    ensures Touched(Medium(disk, base, len), Medium(img, base, len), root, u)
  {
    hide Moves.RoleFits, Firm;
    var v, w := Medium(disk, base, len), Medium(img, base, len);
    forall p | Has(v, p)
      ensures Has(w, p) && Written(v, w, u, p) && (p in Firm(v, root) ==> img[base + p] == disk[base + p])
    {
      assert Between(disk, staged, base + p, img[base + p]);
      assert base + p in staged ==> base + p - base == p;
    }
  }

  /** What is known when a repair's entry is about to be written: the devices hold the damaged head, what is staged is the
      new index's, and once it has all landed the new generation stands. */
  ghost predicate Mending(durable: seq<Block>, staged: map<nat, Block>, disk: seq<Block>, log2: nat, head: Entry, u: Tree) {
    && Spined(durable, log2, head) && head.tract > 0 && Pow2(log2) + head.tract <= |durable| && Sound(head.root, [])
    && Roles(staged, Pow2(log2), u) && Leaves(u) == Spared(MediumOf(durable, Pow2(log2), head), head.root)
    && StagedOff(staged, Pow2(log2), Firm(MediumOf(durable, Pow2(log2), head), head.root))
    && disk == Overlay(durable, staged)
  }

  /** While the new index drains. */
  lemma {:induction false} MendDrain(mo: Moment, durable: seq<Block>, staged: map<nat, Block>, disk: seq<Block>, img: seq<Block>,
                                     log2: nat, head: Entry, u: Tree, e: Entry)
    requires Mending(durable, staged, disk, log2, head, u) && Devices.Moves(mo, durable, staged) && Image(mo, img)
    ensures head.tract > 0 && Recoverable(img, log2, head, e, SafeMap(MediumOf(durable, Pow2(log2), head), head.root))
  {
    hide Spined, Sound, Roles, Leaves, Spared, Firm, SafeMap, StagedOff, Devices.Moves, Image, Between, Restores, Overlay, Again, Pow2;
    ImageBetween(mo, durable, staged, img);
    Cut(durable, staged, img, log2, head, u);
  }

  /** While the entry is written: the slot as it was or torn, or the repaired generation whole. */
  lemma {:induction false} MendEntry(mo: Moment, durable: seq<Block>, staged: map<nat, Block>, disk: seq<Block>, img: seq<Block>,
                                     log2: nat, head: Entry, u: Tree, e: Entry)
    requires Mending(durable, staged, disk, log2, head, u) && Succeeds(e, log2, head) && e.gen % Pow2(log2) < Pow2(log2) <= |disk|
    requires head.tract > 0 && Stands(disk, Pow2(log2), Gen(e, SafeMap(MediumOf(durable, Pow2(log2), head), head.root)))
    requires Devices.Moves(mo, disk, map[e.gen % Pow2(log2) := Spine(e)]) && Image(mo, img)
    ensures Recoverable(img, log2, head, e, SafeMap(MediumOf(durable, Pow2(log2), head), head.root))
  {
    hide *;
    var content, slot := SafeMap(MediumOf(durable, Pow2(log2), head), head.root), e.gen % Pow2(log2);
    Landed(durable, staged, disk, log2, head, u);
    NextGen(e, log2, head);
    SlotImage(mo, disk, img, slot, Spine(e));
    if img[slot] == disk[slot] || img[slot].Torn? {
      SpinedTorn(disk, img, log2, head);
      TornAgain(disk, img, log2, head, slot, content);
      EitherWay(img, log2, head, e, content);
    } else {
      EntryLands(disk, img, log2, head, e, content);
      EitherWay(img, log2, head, e, content);
    }
  }

  lemma {:induction false} NextGen(e: Entry, log2: nat, head: Entry)
    requires Succeeds(e, log2, head)
    ensures e.gen == head.gen + 1
  {
    hide Geometry;
  }

  lemma {:induction false} EitherWay(img: seq<Block>, log2: nat, head: Entry, e: Entry, content: map<Key, Stored>)
    requires Again(img, log2, head, content) || Restores(img, log2, Gen(e, content))
    ensures Recoverable(img, log2, head, e, content)
  {
  }

  /** With everything staged landed the damaged head is as repairable as before. */
  lemma {:induction false} Landed(durable: seq<Block>, staged: map<nat, Block>, disk: seq<Block>, log2: nat, head: Entry, u: Tree)
    requires Mending(durable, staged, disk, log2, head, u)
    ensures head.tract > 0 && Again(disk, log2, head, SafeMap(MediumOf(durable, Pow2(log2), head), head.root)) && Spined(disk, log2, head)
  {
    hide Spined, Sound, Roles, Leaves, Spared, Firm, SafeMap, StagedOff, Pow2;
    assert forall p :: 0 <= p < |disk| ==> Between(durable, staged, p, disk[p]);
    hide Overlay, Between;
    Cut(durable, staged, disk, log2, head, u);
  }

  lemma {:induction false} TornAgain(disk: seq<Block>, img: seq<Block>, log2: nat, head: Entry, slot: nat, content: map<Key, Stored>)
    requires Again(disk, log2, head, content) && Spined(img, log2, head) && slot < Pow2(log2)
    requires |img| == |disk| && forall p :: 0 <= p < |disk| && p != slot ==> img[p] == disk[p]
    ensures Again(img, log2, head, content)
  {
    hide Spined, Pow2;
    var base := Pow2(log2);
    SameSafe(MediumOf(disk, base, head), MediumOf(img, base, head), head.root);
  }

  /** Safety is told from the tract alone. */
  lemma {:induction false} SameSafe(v: Medium, w: Medium, root: Tree)
    requires v.base == w.base && v.len == w.len && v.base + v.len <= |v.disk| == |w.disk|
    requires forall p :: v.base <= p < |v.disk| ==> w.disk[p] == v.disk[p]
    ensures SafeMap(w, root) == SafeMap(v, root)
  {
    hide Safe, Find, ValueOf, Leaves, Firm;
    forall k: Key
      ensures Safe(w, root, 0, k) == Safe(v, root, 0, k)
      ensures Safe(v, root, 0, k) ==> ValueOf(w, Find(root, 0, k)) == ValueOf(v, Find(root, 0, k))
    {
      if Safe(v, root, 0, k) {
        SafeStays(v, w, root, 0, k);
      } else if Safe(w, root, 0, k) {
        SafeStays(w, v, root, 0, k);
      }
    }
  }

  lemma {:induction false} EntryLands(disk: seq<Block>, img: seq<Block>, log2: nat, head: Entry, e: Entry, content: map<Key, Stored>)
    requires Spined(disk, log2, head) && Succeeds(e, log2, head) && Stands(disk, Pow2(log2), Gen(e, content))
    requires e.gen % Pow2(log2) < Pow2(log2) <= |disk| && img == disk[e.gen % Pow2(log2) := Spine(e)]
    ensures Restores(img, log2, Gen(e, content))
  {
    hide Spined, Stands, Pow2, Geometry;
    SpinedNext(disk, img, log2, head, e);
    AfterSlot(disk, img, log2, e.gen % Pow2(log2), Gen(e, content));
  }

  /** Every moment of a repair's write. */
  lemma {:induction false} MendHistory(history: seq<Moment>, from: nat, durable: seq<Block>, staged: map<nat, Block>, disk: seq<Block>,
                                       log2: nat, head: Entry, u: Tree, e: Entry)
    requires Mending(durable, staged, disk, log2, head, u) && Succeeds(e, log2, head) && e.gen % Pow2(log2) < Pow2(log2) <= |disk|
    requires head.tract > 0 && Stands(disk, Pow2(log2), Gen(e, SafeMap(MediumOf(durable, Pow2(log2), head), head.root)))
    requires forall i :: from <= i < |history| ==>
      Devices.Moves(history[i], durable, staged) || Devices.Moves(history[i], disk, map[e.gen % Pow2(log2) := Spine(e)])
    ensures forall i :: from <= i < |history| ==>
      CutShort(history[i], log2, head, e, SafeMap(MediumOf(durable, Pow2(log2), head), head.root))
  {
    hide Mending, Succeeds, Stands, SafeMap, Devices.Moves, Image, Recoverable, Pow2;
    forall i | from <= i < |history|
      ensures CutShort(history[i], log2, head, e, SafeMap(MediumOf(durable, Pow2(log2), head), head.root))
    {
      forall img: seq<Block> | Image(history[i], img)
        ensures Recoverable(img, log2, head, e, SafeMap(MediumOf(durable, Pow2(log2), head), head.root))
      {
        if Devices.Moves(history[i], durable, staged) {
          MendDrain(history[i], durable, staged, disk, img, log2, head, u, e);
        } else {
          MendEntry(history[i], durable, staged, disk, img, log2, head, u, e);
        }
      }
    }
  }
}
