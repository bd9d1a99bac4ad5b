/** Furrows of one value moved together: the owner's run list is patched and its leaf rebuilt once. */
module Patching {
  import opened Blocks
  import opened Runs
  import opened Trie
  import opened Media
  import opened Moves

  /** A furrow found at a position, and the index it says it has. */
  datatype Shift = Shift(pos: nat, index: nat)

  ghost function Spots(group: seq<Shift>): set<nat> {
    set g | g in group :: g.pos
  }

  ghost predicate NoRepeat(group: seq<Shift>) {
    forall i, j :: 0 <= i < j < |group| ==> group[i].pos != group[j].pos
  }

  /** Each furrow of the group is where the position list says its index is. */
  ghost predicate GroupOf(group: seq<Shift>, ps: seq<nat>) {
    forall j :: 0 <= j < |group| ==> group[j].index < |ps| && ps[group[j].index] == group[j].pos
  }

  // ---------------------------------------------------------------- order

  function InsertShift(s: seq<Shift>, x: Shift): (r: seq<Shift>)
    ensures forall g :: g in r <==> g in s || g == x
  {
    if s == [] || s[|s| - 1].index <= x.index then s + [x] else
      var r := InsertShift(s[..|s| - 1], x) + [s[|s| - 1]];
      assert s == s[..|s| - 1] + [s[|s| - 1]];
      r
  }

  lemma {:induction false} InsertShiftDistinct(s: seq<Shift>, x: Shift)
    requires NoRepeat(s) && forall g :: g in s ==> g.pos != x.pos
    ensures NoRepeat(InsertShift(s, x))
  {
    if s != [] && s[|s| - 1].index > x.index {
      var front, last := s[..|s| - 1], s[|s| - 1];
      InsertShiftDistinct(front, x);
      forall g | g in InsertShift(front, x)
        ensures g.pos != last.pos
      {
        assert g in front || g == x;
      }
    }
  }

  ghost predicate InOrder(s: seq<Shift>) {
    forall i, j :: 0 <= i < j < |s| ==> s[i].index <= s[j].index
  }

  lemma {:induction false} InsertShiftOrder(s: seq<Shift>, x: Shift)
    requires InOrder(s)
    ensures InOrder(InsertShift(s, x))
  {
    if s != [] && s[|s| - 1].index > x.index {
      var front, last := s[..|s| - 1], s[|s| - 1];
      InsertShiftOrder(front, x);
      var r := InsertShift(front, x);
      forall i | 0 <= i < |r|
        ensures r[i].index <= last.index
      {
        assert r[i] in r;
        assert r[i] in front || r[i] == x;
      }
    }
  }

  method SortByIndex(group: seq<Shift>) returns (sorted: seq<Shift>)
    requires NoRepeat(group)
    ensures NoRepeat(sorted) && forall g :: g in sorted <==> g in group
    ensures InOrder(sorted)
  {
    sorted := [];
    for i := 0 to |group|
      invariant NoRepeat(sorted) && forall g :: g in sorted <==> g in group[..i]
      invariant InOrder(sorted)
    {
      InsertShiftOrder(sorted, group[i]);
      InsertShiftDistinct(sorted, group[i]);
      sorted := InsertShift(sorted, group[i]);
      assert group[..i + 1] == group[..i] + [group[i]];
    }
    assert group[..|group|] == group;
  }

  // ---------------------------------------------------------------- patching

  /** `after` is `ps` with the group's entries replaced by `placed`, in order. */
  ghost predicate Patched(ps: seq<nat>, group: seq<Shift>, placed: seq<nat>, after: seq<nat>) {
    && |after| == |ps| && |placed| == |group|
    && (forall j :: 0 <= j < |group| ==> group[j].index < |ps| && after[group[j].index] == placed[j])
    && forall i :: 0 <= i < |ps| ==> after[i] == ps[i] || exists j :: 0 <= j < |group| && group[j].index == i
  }

  /** The position list with every moved furrow's new place; an index the list does not have is refused. */
  method Patch(ps: seq<nat>, group: seq<Shift>, placed: seq<nat>) returns (r: Result<seq<nat>>)
    requires |placed| == |group|
    ensures r.Ok? <==> forall j :: 0 <= j < |group| ==> group[j].index < |ps|
    ensures r.Ok? && GroupOf(group, ps) && NoRepeat(group) ==> Patched(ps, group, placed, r.value)
    ensures r.Err? ==> r.error == Corrupt
  {
    var out := ps;
    for j := 0 to |group|
      invariant |out| == |ps|
      invariant forall k :: 0 <= k < j ==> group[k].index < |ps|
      invariant GroupOf(group, ps) && NoRepeat(group) ==> forall k :: 0 <= k < j ==> out[group[k].index] == placed[k]
      invariant forall i :: 0 <= i < |ps| ==> out[i] == ps[i] || exists k :: 0 <= k < j && group[k].index == i
    {
      if group[j].index >= |out| {
        return Err(Corrupt);
      }
      ghost var before := out;
      out := out[group[j].index := placed[j]];
      forall i | 0 <= i < |ps|
        ensures out[i] == ps[i] || exists k :: 0 <= k < j + 1 && group[k].index == i
      {
        if i == group[j].index {
          assert 0 <= j < j + 1 && group[j].index == i;
        } else if before[i] != ps[i] {
          var k :| 0 <= k < j && group[k].index == i;
          assert 0 <= k < j + 1 && group[k].index == i;
        }
      }
    }
    return Ok(out);
  }

  lemma {:induction false} PatchedElems(ps: seq<nat>, group: seq<Shift>, placed: seq<nat>, after: seq<nat>)
    requires Patched(ps, group, placed, after) && GroupOf(group, ps)
    requires Distinct(ps) && Distinct(placed) && Elems(placed) !! Elems(ps)
    ensures Elems(after) == Elems(ps) - Spots(group) + Elems(placed)
    ensures Distinct(after) && Spots(group) <= Elems(ps)
  {
    forall i | 0 <= i < |ps|
      ensures after[i] in Elems(ps) - Spots(group) + Elems(placed)
    {
      PatchedEntry(ps, group, placed, after, i);
    }
    forall p | p in Elems(ps) - Spots(group)
      ensures p in Elems(after)
    {
      var i :| 0 <= i < |ps| && ps[i] == p;
      PatchedEntry(ps, group, placed, after, i);
    }
    forall j | 0 <= j < |placed|
      ensures placed[j] in Elems(after)
    {
      assert after[group[j].index] == placed[j];
    }
    forall i, k | 0 <= i < k < |after|
      ensures after[i] != after[k]
    {
      PatchedEntry(ps, group, placed, after, i);
      PatchedEntry(ps, group, placed, after, k);
    }
  }

  lemma {:induction false} PatchedEntry(ps: seq<nat>, group: seq<Shift>, placed: seq<nat>, after: seq<nat>, i: nat)
    requires Patched(ps, group, placed, after) && GroupOf(group, ps) && Distinct(ps) && i < |ps|
    ensures (after[i] == ps[i] && ps[i] !in Spots(group))
      || exists j :: 0 <= j < |group| && group[j].index == i && after[i] == placed[j]
  {
    if j :| 0 <= j < |group| && group[j].index == i {
      assert after[i] == placed[j];
    }
  }

  /** The rebuilt leaf of a value some of whose furrows were copied elsewhere. */
  lemma {:induction false} RebuiltLeaf(v: Medium, was: Tree, group: seq<Shift>, placed: seq<nat>, runs: seq<Run>, at: nat)
    requires was.Leaf? && was.body.Extent? && Once(was) && Held(v, was)
    requires GroupOf(group, Furrows(was.body)) && Patched(Furrows(was.body), group, placed, Expand(runs))
    requires forall i :: 0 <= i < |runs| ==> runs[i].count > 0
    requires Distinct(placed) && Elems(placed) !! Own(was) && at !in Own(was) && at !in Elems(placed)
    requires forall j :: 0 <= j < |group| ==> Copied(v, group[j].pos, placed[j])
    requires SealedAt(v, at, LeafDoc(was.key, Extent(was.body.size, runs)))
    ensures var leaf := Leaf(at, was.key, Extent(was.body.size, runs));
      && Once(leaf) && Held(v, leaf) && ValueOf(v, leaf) == ValueOf(v, was)
      && Spots(group) <= Own(was) - {was.lba}
      && Own(leaf) == Own(was) - {was.lba} - Spots(group) + Elems(placed) + {at}
  {
    var ps, after := Furrows(was.body), Expand(runs);
    PatchedElems(ps, group, placed, after);
    forall i | 0 <= i < |ps|
      ensures FurrowAt(v, after[i], was.key, i) && PayloadAt(v, after[i]) == PayloadAt(v, ps[i])
    {
      assert FurrowAt(v, ps[i], was.key, i);
      PatchedEntry(ps, group, placed, after, i);
      if j :| 0 <= j < |group| && group[j].index == i && after[i] == placed[j] {
        assert Copied(v, group[j].pos, placed[j]) && ps[group[j].index] == group[j].pos;
      }
    }
    RebuiltBody(v, was, runs);
    assert was.lba !in Elems(ps);
  }

  /** Two positions hold the same block. */
  ghost predicate Copied(v: Medium, pos: nat, to: nat) {
    Has(v, pos) && Has(v, to) && v.disk[v.base + to] == v.disk[v.base + pos]
  }

  lemma {:induction false} RebuiltBody(v: Medium, was: Tree, runs: seq<Run>)
    requires was.Leaf? && was.body.Extent? && BodyHeld(v, was.key, was.body)
    requires |Expand(runs)| == |Furrows(was.body)| && forall i :: 0 <= i < |runs| ==> runs[i].count > 0
    requires forall i :: 0 <= i < |Expand(runs)| ==>
      && FurrowAt(v, Expand(runs)[i], was.key, i)
      && PayloadAt(v, Expand(runs)[i]) == PayloadAt(v, Furrows(was.body)[i])
    ensures BodyHeld(v, was.key, Extent(was.body.size, runs))
    ensures Assemble(v, Expand(runs)) == Assemble(v, Furrows(was.body))
  {
    var ps, after := Furrows(was.body), Expand(runs);
    assert seq(|ps|, i requires 0 <= i < |ps| => PayloadAt(v, ps[i]))
        == seq(|after|, i requires 0 <= i < |after| => PayloadAt(v, after[i]));
    forall i | 0 <= i < |after|
      ensures after[i] < v.len
    {
      assert FurrowAt(v, after[i], was.key, i);
    }
    ExpandedInside(runs, v.len);
    ExpandLength(runs);
    ExpandLength(was.body.runs);
  }
}
