/** A reap window classified: what still counts in it, grouped by what each block's self-address says it is. */
module Windows {
  import opened Blocks
  import opened Runs
  import opened Trie
  import opened Media
  import opened Tracts
  import opened Patching

  /** What a window leaves to move, by kind: a leaf's furrows together. */
  datatype Window = Window(lones: seq<Ref>, leaves: seq<Ref>, nodes: seq<Ref>, owners: map<Key, seq<Shift>>)

  function Sorted(win: Window, pos: nat, doc: Doc): Window {
    match doc
    case NodeDoc(_, _, _) => win.(nodes := win.nodes + [Ref(pos, doc)])
    case LeafDoc(_, Lone(_)) => win.(lones := win.lones + [Ref(pos, doc)])
    case LeafDoc(_, Extent(_, _)) => win.(leaves := win.leaves + [Ref(pos, doc)])
    case FurrowDoc(key, index, _) =>
      var group := if key in win.owners then win.owners[key] else [];
      win.(owners := win.owners[key := group + [Shift(pos, index)]])
  }

  ghost function OwnerSpots(owners: map<Key, seq<Shift>>): set<nat> {
    set k, g | k in owners && g in owners[k] :: g.pos
  }

  /** Every position the window's lists name. */
  ghost function Gathered(win: Window): set<nat> {
    Lbas(win.lones) + Lbas(win.leaves) + Lbas(win.nodes) + OwnerSpots(win.owners)
  }

  /** Index blocks the device holds, at positions of `s`. */
  ghost predicate Listed(v: Medium, s: set<nat>, items: seq<Ref>) {
    forall i :: 0 <= i < |items| ==> items[i].lba in s && !items[i].doc.FurrowDoc? && SealedAt(v, items[i].lba, items[i].doc)
  }

  ghost predicate GroupIn(v: Medium, s: set<nat>, key: Key, group: seq<Shift>) {
    group != [] && NoRepeat(group) && forall j :: 0 <= j < |group| ==> FurrowAt(v, group[j].pos, key, group[j].index) && group[j].pos in s
  }

  ghost predicate OwnersIn(v: Medium, s: set<nat>, owners: map<Key, seq<Shift>>) {
    forall k :: k in owners ==> GroupIn(v, s, k, owners[k])
  }

  ghost predicate WindowIn(v: Medium, s: set<nat>, win: Window) {
    Listed(v, s, win.lones) && Listed(v, s, win.leaves) && Listed(v, s, win.nodes) && OwnersIn(v, s, win.owners)
  }

  lemma {:induction false} SortedGathers(win: Window, pos: nat, doc: Doc)
    ensures Gathered(Sorted(win, pos, doc)) == Gathered(win) + {pos}
  {
    if doc.FurrowDoc? {
      var after := Sorted(win, pos, doc).owners;
      var group := if doc.key in win.owners then win.owners[doc.key] else [];
      assert after[doc.key] == group + [Shift(pos, doc.index)];
      assert (group + [Shift(pos, doc.index)])[|group|] == Shift(pos, doc.index);
      forall p | p in OwnerSpots(win.owners)
        ensures p in OwnerSpots(after)
      {
        var k, g :| k in win.owners && g in win.owners[k] && g.pos == p;
        assert g in after[k];
      }
      assert OwnerSpots(after) == OwnerSpots(win.owners) + {pos};
    } else {
      LbasAppend(win.nodes, [Ref(pos, doc)]);
      LbasAppend(win.lones, [Ref(pos, doc)]);
      LbasAppend(win.leaves, [Ref(pos, doc)]);
      assert Lbas([Ref(pos, doc)]) == {pos} by {
        assert [Ref(pos, doc)][0].lba == pos;
      }
    }
  }

  lemma {:induction false} SortedIn(v: Medium, s: set<nat>, win: Window, pos: nat, doc: Doc)
    requires WindowIn(v, s, win) && pos in s && SealedAt(v, pos, doc) && pos !in Gathered(win)
    ensures WindowIn(v, s, Sorted(win, pos, doc))
  {
    if doc.FurrowDoc? {
      var group := if doc.key in win.owners then win.owners[doc.key] else [];
      forall j | 0 <= j < |group|
        ensures group[j].pos != pos
      {
        assert group[j] in win.owners[doc.key];
      }
      assert FurrowAt(v, pos, doc.key, doc.index);
      assert GroupIn(v, s, doc.key, group + [Shift(pos, doc.index)]);
    }
  }

  /** References are true, so one block's seal decides whether its position was already retired. */
  lemma {:induction false} RetiredBySeal(v: Medium, refs: seq<Ref>, pos: nat, doc: Doc)
    requires RefsTrue(v, refs) && SealedAt(v, pos, doc)
    ensures Ref(pos, doc) in refs <==> pos in Lbas(refs)
  {
    if pos in Lbas(refs) {
      var i :| 0 <= i < |refs| && refs[i].lba == pos;
      assert SealedAt(v, refs[i].lba, refs[i].doc);
    }
  }

  lemma {:induction false} EmptyWindow(v: Medium, s: set<nat>)
    ensures Gathered(Window([], [], [], map[])) == {} && WindowIn(v, s, Window([], [], [], map[]))
  {
  }

  /** One cursor of a window: its survivor is gathered, whatever else is there is not. */
  lemma {:induction false} SurveyStep(v: Medium, s: set<nat>, win: Window, after: Window, from: nat, x: nat, doc: Doc)
    requires WindowIn(v, s, win) && from <= x < from + v.len && Gathered(win) == Lap(from, x, v.len) * s
    requires if x % v.len in s then SealedAt(v, x % v.len, doc) && after == Sorted(win, x % v.len, doc) else after == win
    ensures WindowIn(v, s, after) && Gathered(after) == Lap(from, x + 1, v.len) * s
  {
    hide WindowIn, Gathered, Sorted;
    var y := x + 1;
    LapSplit(from, x, y, v.len);
    LapsApart(from, x, y, v.len);
    assert Lap(x, y, v.len) == {x % v.len};
    if x % v.len in s {
      SortedGathers(win, x % v.len, doc);
      SortedIn(v, s, win, x % v.len, doc);
    }
  }
}
