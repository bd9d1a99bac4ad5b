/** Walking the committed index from the device: the batched work-list walk an open steps through, the recursive
    walk, and the record of reached positions that ends both whatever the device holds. */
module Walks {
  import opened Blocks
  import opened Runs
  import opened Trie
  import opened Media
  import opened Arenas
  import opened Devices
  import opened Mirrors
  import opened Tracts
  import opened Hamts

  /** Pointers a step reads together. */
  const WALK_STEP: Positive

  /** A pointer still to read, the route to it (path chunks set, the rest zero) and its depth. */
  datatype Item = Item(ptr: Tree, route: Key, depth: nat)

  /** Positions the walk finds from a pointer: a zeroed target is nothing, a block its own and what it names. */
  ghost function Reached(v: Medium, t: Tree): set<nat>
    decreases t, 1
  {
    if !Committed(t) || DocAt(v, LbaOf(t), DocOf(t)) != Ok(Some(DocOf(t))) then {}
    else if t.Leaf? then Own(t)
    else {t.place.lba} + ReachedUnder(v, t.kids)
  }

  ghost function ReachedUnder(v: Medium, ts: seq<Tree>): set<nat>
    decreases ts, 0
  {
    set c, p | 0 <= c < |ts| && p in Reached(v, ts[c]) :: p
  }

  lemma {:induction false} ReachedAppend(v: Medium, a: seq<Tree>, b: seq<Tree>)
    ensures ReachedUnder(v, a + b) == ReachedUnder(v, a) + ReachedUnder(v, b)
  {
    hide Reached;
    var ab := a + b;
    forall p | p in ReachedUnder(v, a)
      ensures p in ReachedUnder(v, ab)
    {
      var c :| 0 <= c < |a| && p in Reached(v, a[c]);
      assert ab[c] == a[c];
    }
    forall p | p in ReachedUnder(v, b)
      ensures p in ReachedUnder(v, ab)
    {
      var c :| 0 <= c < |b| && p in Reached(v, b[c]);
      assert ab[|a| + c] == b[c];
    }
  }

  lemma {:induction false} ReachedOne(v: Medium, t: Tree)
    ensures ReachedUnder(v, [t]) == Reached(v, t)
  {
    hide Reached;
    assert [t][0] == t;
  }

  /** Over a healthy index the walk finds exactly what it references. */
  lemma {:induction false} ReachedIsPos(v: Medium, t: Tree, pre: seq<nat>)
    requires Held(v, t) && Sound(t, pre) && (t.Nil? || Committed(t))
    ensures Reached(v, t) == Pos(t)
    decreases t
  {
    if !t.Nil? {
      HeldDoc(v, t, pre);
      if t.Node? {
        forall c | 0 <= c < WIDTH
          ensures Reached(v, t.kids[c]) == Pos(t.kids[c])
        {
          ReachedIsPos(v, t.kids[c], pre + [c]);
        }
        assert ReachedUnder(v, t.kids) == Under(t.kids);
      }
    }
  }

  ghost function Ptrs(items: seq<Item>): (ts: seq<Tree>)
    ensures |ts| == |items|
  {
    seq(|items|, i requires 0 <= i < |items| => items[i].ptr)
  }

  lemma {:induction false} PtrsAppend(a: seq<Item>, b: seq<Item>)
    ensures Ptrs(a + b) == Ptrs(a) + Ptrs(b)
  {
  }

  /** A node's children as work. */
  function Kids(item: Item, kids: seq<Tree>): (out: seq<Item>)
    requires item.depth < LEVELS && |kids| <= WIDTH
    ensures forall i :: 0 <= i < |out| ==> out[i].depth == item.depth + 1 && !out[i].ptr.Nil?
    decreases |kids|
  {
    if kids == [] then []
    else
      var c := |kids| - 1;
      var front := Kids(item, kids[..c]);
      if kids[c].Nil? then front else front + [Item(kids[c], RouteWith(item.route, item.depth, c), item.depth + 1)]
  }

  lemma {:induction false} KidsReached(v: Medium, item: Item, kids: seq<Tree>)
    requires item.depth < LEVELS && |kids| <= WIDTH
    ensures ReachedUnder(v, Ptrs(Kids(item, kids))) == ReachedUnder(v, kids)
    decreases |kids|
  {
    hide Reached;
    if kids != [] {
      var c := |kids| - 1;
      var front := Kids(item, kids[..c]);
      KidsReached(v, item, kids[..c]);
      assert kids == kids[..c] + [kids[c]];
      ReachedAppend(v, kids[..c], [kids[c]]);
      ReachedOne(v, kids[c]);
      if !kids[c].Nil? {
        var last := Item(kids[c], RouteWith(item.route, item.depth, c), item.depth + 1);
        PtrsAppend(front, [last]);
        assert Ptrs([last]) == [kids[c]];
        ReachedAppend(v, Ptrs(front), [kids[c]]);
      } else {
        assert Reached(v, kids[c]) == {} by {
          NilReached(v);
        }
      }
    }
  }

  lemma {:induction false} NilReached(v: Medium)
    ensures Reached(v, Nil) == {}
  {
  }

  // ---------------------------------------------------------------- a healthy work list

  /** Every pointer of the list heads a sound subtree the device holds, and no two share a block. */
  ghost predicate Healthy(v: Medium, items: seq<Item>) {
    Apart(Ptrs(items)) && forall i :: 0 <= i < |items| ==> HealthyItem(v, items[i])
  }

  ghost predicate HealthyItem(v: Medium, item: Item) {
    && Committed(item.ptr) && item.depth <= LEVELS && Sound(item.ptr, item.route[..item.depth])
    && Once(item.ptr) && Held(v, item.ptr)
  }

  lemma {:induction false} UnderAppend(a: seq<Tree>, b: seq<Tree>)
    ensures Under(a + b) == Under(a) + Under(b)
  {
    hide Pos;
    var ab := a + b;
    forall p | p in Under(a)
      ensures p in Under(ab)
    {
      var c :| 0 <= c < |a| && p in Pos(a[c]);
      assert ab[c] == a[c];
    }
    forall p | p in Under(b)
      ensures p in Under(ab)
    {
      var c :| 0 <= c < |b| && p in Pos(b[c]);
      assert ab[|a| + c] == b[c];
    }
  }

  /** Blocks of two lists are apart when those of each are and nothing is common to both. */
  lemma {:induction false} ApartAppend(a: seq<Tree>, b: seq<Tree>)
    ensures Apart(a + b) <==> Apart(a) && Apart(b) && Under(a) !! Under(b)
  {
    if Apart(a + b) {
      ApartParts(a, b);
    }
    if Apart(a) && Apart(b) && Under(a) !! Under(b) {
      ApartJoin(a, b);
    }
  }

  lemma {:induction false} ApartParts(a: seq<Tree>, b: seq<Tree>)
    requires Apart(a + b)
    ensures Apart(a) && Apart(b) && Under(a) !! Under(b)
  {
    hide Pos;
    var ab := a + b;
    forall c, e, p | 0 <= c < |ab| && 0 <= e < |ab| && c != e && p in Pos(ab[c])
      ensures p !in Pos(ab[e])
    {
      assert Pos(ab[c]) !! Rest(ab, c);
      assert Pos(ab[e]) <= Rest(ab, c);
    }
    assert forall c :: 0 <= c < |a| ==> ab[c] == a[c];
    assert forall c :: 0 <= c < |b| ==> ab[|a| + c] == b[c];
    forall c | 0 <= c < |b|
      ensures Pos(b[c]) !! Rest(b, c)
    {
      forall p | p in Rest(b, c)
        ensures p !in Pos(b[c])
      {
        var e :| 0 <= e < |b| && e != c && p in Pos(b[e]);
        assert ab[|a| + e] == b[e] && ab[|a| + c] == b[c];
      }
    }
    forall p | p in Under(a)
      ensures p !in Under(b)
    {
      var c :| 0 <= c < |a| && p in Pos(a[c]);
      forall e | 0 <= e < |b|
        ensures p !in Pos(b[e])
      {
        assert ab[|a| + e] == b[e] && ab[c] == a[c];
      }
    }
  }

  lemma {:induction false} ApartJoin(a: seq<Tree>, b: seq<Tree>)
    requires Apart(a) && Apart(b) && Under(a) !! Under(b)
    ensures Apart(a + b)
  {
    hide Pos;
    var ab := a + b;
    forall c | 0 <= c < |ab|
      ensures Pos(ab[c]) !! Rest(ab, c)
    {
      forall p | p in Rest(ab, c)
        ensures p !in Pos(ab[c])
      {
        var e :| 0 <= e < |ab| && e != c && p in Pos(ab[e]);
        if c < |a| && e < |a| {
          assert p in Rest(a, c);
        } else if c >= |a| && e >= |a| {
          assert p in Pos(b[e - |a|]);
          assert p in Rest(b, c - |a|);
        } else if c < |a| {
          assert p in Under(b);
        } else {
          assert p in Under(a);
        }
      }
    }
  }

  /** A healthy node's children are healthy work over the same blocks but its own. */
  lemma {:induction false} KidsHealthy(v: Medium, item: Item, n: nat)
    requires HealthyItem(v, item) && item.ptr.Node? && n <= WIDTH
    ensures item.depth < LEVELS && |item.ptr.kids| == WIDTH && item.ptr.depth == item.depth
    ensures var work := Kids(item, item.ptr.kids[..n]);
      && Healthy(v, work) && Under(Ptrs(work)) == Under(item.ptr.kids[..n]) && Apart(item.ptr.kids[..n])
  {
    var kids := item.ptr.kids;
    assert kids == kids[..n] + kids[n..];
    ApartAppend(kids[..n], kids[n..]);
    if n > 0 {
      var c := n - 1;
      KidsHealthy(v, item, c);
      var front := Kids(item, kids[..c]);
      assert kids[..n][..c] == kids[..c] && kids[..n] == kids[..c] + [kids[c]];
      ApartAppend(kids[..c], [kids[c]]);
      UnderAppend(kids[..c], [kids[c]]);
      if !kids[c].Nil? {
        var last := Item(kids[c], RouteWith(item.route, item.depth, c), item.depth + 1);
        KidHealthy(v, item, c);
        PtrsAppend(front, [last]);
        assert Ptrs([last]) == [kids[c]];
        UnderAppend(Ptrs(front), [kids[c]]);
        ApartAppend(Ptrs(front), [kids[c]]);
      } else {
        assert Under([kids[c]]) == {};
      }
    }
  }

  lemma {:induction false} KidHealthy(v: Medium, item: Item, c: nat)
    requires HealthyItem(v, item) && item.ptr.Node? && c < WIDTH
    ensures item.depth < LEVELS && |item.ptr.kids| == WIDTH
    ensures !item.ptr.kids[c].Nil? ==> HealthyItem(v, Item(item.ptr.kids[c], RouteWith(item.route, item.depth, c), item.depth + 1))
  {
    var r := RouteWith(item.route, item.depth, c);
    assert r[..item.depth + 1] == item.route[..item.depth] + [c];
    assert !IsDirty(item.ptr.kids[c]);
  }

  // ---------------------------------------------------------------- the record of reached positions

  /** One bit a block: a healthy index is a tree, so a second arrival is damage. */
  class Visited {
    const bits: array<bool>

    ghost function Marked(): set<nat>
      reads this, bits
    {
      set i: nat | i < bits.Length && bits[i]
    }

    ghost function Free(): set<nat>
      reads this, bits
    {
      set i: nat | i < bits.Length && !bits[i]
    }

    constructor (len: nat)
      ensures bits.Length == len && fresh(bits) && Marked() == {}
    {
      bits := new bool[len](_ => false);
    }

    /** Mark a position reached; refused when it already was. */
    method Reach(lba: nat) returns (r: Result<()>)
      requires lba < bits.Length
      modifies bits
      ensures r == if lba in old(Marked()) then Err(Corrupt) else Ok(())
      ensures Marked() == old(Marked()) + {lba}
      ensures Free() == old(Free()) - {lba} && (r.Ok? ==> lba in old(Free()))
    {
      if bits[lba] {
        return Err(Corrupt);
      }
      bits[lba] := true;
      return Ok(());
    }
  }

  /** The open's walk between steps: what it has found and what it has yet to find. */
  class Walk {
    var todo: seq<Item>
    const visited: Visited
    var found: seq<Ref>
    var referenced: seq<nat>
    var stale: seq<Item>

    constructor (root: Tree, len: nat)
      requires root.Nil? || Committed(root)
      ensures todo == Start(root) && found == [] && referenced == [] && stale == []
      ensures fresh(visited) && fresh(visited.bits) && visited.bits.Length == len && visited.Marked() == {}
    {
      todo := Start(root);
      visited := new Visited(len);
      found, referenced, stale := [], [], [];
    }

    /** The pointers of the list lead to committed blocks. */
    ghost predicate Valid(v: Medium)
      reads this, visited, visited.bits
    {
      && visited.bits.Length == v.len
      && (forall i :: 0 <= i < |todo| ==> Committed(todo[i].ptr))
      && RefsTrue(v, found)
      && Lbas(found) + Elems(referenced) <= visited.Marked()
    }

    /** What the walk has found and will still find. */
    ghost function Found(v: Medium): set<nat>
      reads this
    {
      Lbas(found) + Elems(referenced) + ReachedUnder(v, Ptrs(todo))
    }

    /** The part of the index still to walk is whole, and nothing of it was reached. */
    ghost predicate Sane(v: Medium)
      reads this, visited, visited.bits
    {
      Healthy(v, todo) && Under(Ptrs(todo)) !! visited.Marked() && stale == []
    }

    /** A bounded step: found and yet to find together stay what they were. */
    method Step(m: Mirror, t: Tract) returns (r: Result<()>)
      requires m.Valid() && Valid(t.View(m)) && todo != []
      modifies this, visited.bits
      ensures Valid(t.View(m))
      ensures r.Ok? ==> Found(t.View(m)) == old(Found(t.View(m))) && |visited.Free()| < old(|visited.Free()|)
      ensures old(Sane(t.View(m))) ==> r.Ok? && Sane(t.View(m))
    {
      hide Healthy, HealthyItem, Reached, RefsTrue, Last, Flat, Overlay, CacheSorted, CacheTrue, Under, Apart, Kids, Ptrs, ReachedUnder,
           Lbas, Elems, Pos, Committed;
      ghost var v, sane := t.View(m), Sane(t.View(m));
      var cut := if |todo| > WALK_STEP then |todo| - WALK_STEP else 0;
      var part := todo[cut..];
      var blocks := ReadPart(m, t, part);
      if blocks.Err? {
        if sane {
          PartFits(v, todo, cut);
        }
        return Err(blocks.error);
      }
      assert todo == todo[..cut] + part;
      todo := todo[..cut];
      r := Process(part, blocks.value, t.len, sane, v);
      if r.Ok? {
        FewerFree(visited.Free(), old(visited.Free()));
      }
    }

    /** The pointers of a step in turn, each with the block read for it. */
    method Process(part: seq<Item>, blocks: seq<Block>, len: Positive, ghost sane: bool, ghost v: Medium) returns (r: Result<()>)
      requires Valid(v) && v.len == len && part != [] && |blocks| == |part|
      requires forall i :: 0 <= i < |part| ==> (Committed(part[i].ptr) && Has(v, LbaOf(part[i].ptr)) && blocks[i] == v.disk[v.base + LbaOf(part[i].ptr)])
      requires sane ==> Work(v, todo + part, visited.Marked()) && stale == []
      modifies this`todo, this`found, this`referenced, this`stale, visited.bits
      ensures Valid(v)
      ensures r.Ok? ==> visited.Free() < old(visited.Free())
      ensures r.Ok? ==> (Lbas(found) + Elems(referenced) + ReachedUnder(v, Ptrs(todo))
                         == old(Lbas(found) + Elems(referenced) + ReachedUnder(v, Ptrs(todo + part))))
      ensures sane ==> r.Ok? && Work(v, todo, visited.Marked()) && stale == []
    {
      hide Healthy, HealthyItem, Reached, RefsTrue, Under, Apart, Kids, Ptrs, ReachedUnder, Lbas, Elems, Pos, Work, Committed, Has;
      assert part[0..] == part;
      for i := 0 to |part|
        invariant Valid(v) && (if i > 0 then visited.Free() < old(visited.Free()) else visited.Free() == old(visited.Free()))
        invariant Lbas(found) + Elems(referenced) + ReachedUnder(v, Ptrs(todo + part[i..]))
          == old(Lbas(found) + Elems(referenced) + ReachedUnder(v, Ptrs(todo + part)))
        invariant sane ==> Work(v, todo + part[i..], visited.Marked()) && stale == []
      {
        assert todo + part[i..] == (todo + [part[i]]) + part[i + 1..];
        var _ :- Advance(part[i], blocks[i], len, part[i + 1..], sane, v);
      }
      assert todo + part[|part|..] == todo;
      return Ok(());
    }

    /** One pointer of a step, with `rest` of the step's part still to come. */
    method Advance(item: Item, block: Block, len: Positive, ghost rest: seq<Item>, ghost sane: bool, ghost v: Medium) returns (r: Result<()>)
      requires Valid(v) && v.len == len && Committed(item.ptr)
      requires Has(v, LbaOf(item.ptr)) && block == v.disk[v.base + LbaOf(item.ptr)]
      requires sane ==> Work(v, (todo + [item]) + rest, visited.Marked()) && stale == []
      modifies this`todo, this`found, this`referenced, this`stale, visited.bits
      ensures Valid(v)
      ensures r.Ok? ==> visited.Free() < old(visited.Free())
      ensures r.Ok? ==> (Lbas(found) + Elems(referenced) + ReachedUnder(v, Ptrs(todo + rest))
                         == old(Lbas(found) + Elems(referenced) + ReachedUnder(v, Ptrs((todo + [item]) + rest))))
      ensures sane ==> r.Ok? && Work(v, todo + rest, visited.Marked()) && stale == []
    {
      hide Healthy, HealthyItem, Reached, RefsTrue, Under, Apart, Kids, Ptrs, ReachedUnder, Lbas, Elems, Pos, Work, Committed;
      ghost var before, marked := todo, visited.Marked();
      if sane {
        Popped(v, before, item, rest, marked);
      }
      r := Visit(item, block, len, v);
      if r.Err? {
        return r;
      }
      ghost var kids := todo[|before|..];
      assert todo + rest == (before + kids) + rest;
      ReachedSwap(v, before, item, kids, rest);
      if sane {
        Pushed(v, before, item, kids, rest, marked, visited.Marked());
      }
    }

    /** Read the blocks of several pointers at once. */
    method ReadPart(m: Mirror, t: Tract, part: seq<Item>) returns (r: Result<seq<Block>>)
      requires m.Valid() && forall i :: 0 <= i < |part| ==> Committed(part[i].ptr)
      ensures r.Ok? <==> forall i :: 0 <= i < |part| ==> Has(t.View(m), LbaOf(part[i].ptr))
      ensures r.Ok? ==> |r.value| == |part|
      ensures r.Ok? ==> forall i :: 0 <= i < |part| ==> r.value[i] == m.disk[t.base + LbaOf(part[i].ptr)]
    {
      var lbas: seq<nat> := [];
      for i := 0 to |part|
        invariant |lbas| == i && forall k :: 0 <= k < i ==> lbas[k] == t.base + LbaOf(part[k].ptr) && LbaOf(part[k].ptr) < t.len
      {
        if LbaOf(part[i].ptr) >= t.len {
          return Err(Bounds(LbaOf(part[i].ptr)));
        }
        lbas := lbas + [t.base + LbaOf(part[i].ptr)];
      }
      r := m.ReadMany(lbas);
    }

    /** One read pointer: its target recorded and its children listed; a zeroed target is a stale pointer. */
    method Visit(item: Item, block: Block, len: Positive, ghost v: Medium) returns (r: Result<()>)
      requires Valid(v) && v.len == len && Committed(item.ptr)
      requires Has(v, LbaOf(item.ptr)) && block == v.disk[v.base + LbaOf(item.ptr)]
      modifies this`todo, this`found, this`referenced, this`stale, visited.bits
      ensures Valid(v)
      ensures r.Ok? ==> old(todo) <= todo && visited.Free() < old(visited.Free())
      ensures r.Ok? ==> (Lbas(found) + Elems(referenced) + ReachedUnder(v, Ptrs(todo[|old(todo)|..]))
                         == old(Lbas(found) + Elems(referenced)) + Reached(v, item.ptr))
      ensures HealthyItem(v, item) && Pos(item.ptr) !! old(visited.Marked()) && old(stale) == [] ==>
        && r.Ok? && stale == [] && visited.Marked() <= old(visited.Marked()) + Pos(item.ptr)
        && Healthy(v, todo[|old(todo)|..]) && Under(Ptrs(todo[|old(todo)|..])) <= Pos(item.ptr)
        && Under(Ptrs(todo[|old(todo)|..])) !! visited.Marked()
    {
      hide Healthy, RefsTrue, Apart, Kids, Inside, Reached, Pos, Under, Lbas, Elems, ReachedUnder, Ptrs, Sound, Once, Held;
      var lba := LbaOf(item.ptr);
      assert DocAt(v, lba, DocOf(item.ptr)) == DocOfBlock(block, DocOf(item.ptr), len);
      ReachedDoc(v, item.ptr);
      if HealthyItem(v, item) {
        ItemDoc(v, item);
      }
      NoWork(v);
      assert todo[|todo|..] == [];
      var _ :- visited.Reach(lba);
      var doc :- DocOfBlock(block, DocOf(item.ptr), len);
      if doc.None? {
        stale := stale + [item];
        return Ok(());
      }
      r := Record(item, lba, doc.value, len, v);
    }

    /** A block that is what its pointer names, and what it names in turn. */
    method Record(item: Item, lba: nat, doc: Doc, len: Positive, ghost v: Medium) returns (r: Result<()>)
      requires Valid(v) && v.len == len && Committed(item.ptr) && lba == LbaOf(item.ptr) && doc == DocOf(item.ptr) && DocFits(doc, len)
      requires SealedAt(v, lba, doc) && lba in visited.Marked()
      modifies this`todo, this`found, this`referenced, visited.bits
      ensures Valid(v)
      ensures r.Ok? ==> old(todo) <= todo && visited.Free() <= old(visited.Free())
      ensures r.Ok? ==> (Lbas(found) + Elems(referenced) + ReachedUnder(v, Ptrs(todo[|old(todo)|..]))
                         == old(Lbas(found) + Elems(referenced)) + Named(v, item.ptr))
      ensures HealthyItem(v, item) && Pos(item.ptr) !! old(visited.Marked()) - {lba} ==>
        && r.Ok? && visited.Marked() <= old(visited.Marked()) + Pos(item.ptr)
        && Healthy(v, todo[|old(todo)|..]) && Under(Ptrs(todo[|old(todo)|..])) <= Pos(item.ptr)
        && Under(Ptrs(todo[|old(todo)|..])) !! visited.Marked()
    {
      hide Healthy, RefsTrue, Apart, Kids, Inside, Reached, Pos, Under, Lbas, Elems, ReachedUnder, Ptrs, Sound, Once, Held;
      if HealthyItem(v, item) {
        ItemDoc(v, item);
      }
      NoWork(v);
      NoElems();
      assert todo[|todo|..] == [];
      FoundOne(v, found, Ref(lba, doc));
      found := found + [Ref(lba, doc)];
      match doc {
        case NodeDoc(depth, _, kids) =>
          if depth != item.depth {
            return Err(Corrupt);
          }
          ListKids(item, kids, v);
          return Ok(());
        case LeafDoc(_, Extent(size, runs)) =>
          if HealthyItem(v, item) {
            ItemRuns(v, item);
          }
          var ps :- ExpandRuns(runs, size, len);
          ExpandInside(runs, len);
          r := Reference(ps, v);
          assert todo[|old(todo)|..] == [];
        case _ =>
          return Ok(());
      }
    }

    /** A node's children go on the list. */
    method ListKids(item: Item, kids: seq<Tree>, ghost v: Medium)
      requires Valid(v) && item.ptr.Node? && item.depth < LEVELS && kids == item.ptr.kids && |kids| == WIDTH
      requires forall c :: 0 <= c < WIDTH ==> kids[c].Nil? || Committed(kids[c])
      modifies this`todo
      ensures Valid(v) && old(todo) <= todo
      ensures ReachedUnder(v, Ptrs(todo[|old(todo)|..])) == ReachedUnder(v, kids)
      ensures HealthyItem(v, item) ==> Healthy(v, todo[|old(todo)|..]) && Under(Ptrs(todo[|old(todo)|..])) == Under(kids)
    {
      hide Healthy, RefsTrue, Apart, Kids, Reached, Pos, Under, Lbas, Elems, ReachedUnder, Ptrs, Sound, Once, Held;
      var work := Kids(item, kids);
      assert (todo + work)[|todo|..] == work;
      todo := todo + work;
      KidsCommitted(item, kids);
      KidsReached(v, item, kids);
      if HealthyItem(v, item) {
        KidsHealthy(v, item, WIDTH);
        assert kids[..WIDTH] == kids;
      }
    }

    /** A value's furrows, marked live by position, unread. */
    method Reference(ps: seq<nat>, ghost v: Medium) returns (r: Result<()>)
      requires Valid(v) && forall i :: 0 <= i < |ps| ==> ps[i] < visited.bits.Length
      modifies this`referenced, visited.bits
      ensures Valid(v) && visited.Free() <= old(visited.Free())
      ensures r.Ok? ==> Elems(referenced) == old(Elems(referenced)) + Elems(ps)
      ensures Distinct(ps) && Elems(ps) !! old(visited.Marked()) ==> r.Ok? && visited.Marked() == old(visited.Marked()) + Elems(ps)
    {
      hide RefsTrue;
      for i := 0 to |ps|
        invariant Valid(v) && visited.Free() <= old(visited.Free())
        invariant Elems(referenced) == old(Elems(referenced)) + Elems(ps[..i])
        invariant visited.Marked() == old(visited.Marked()) + Elems(ps[..i])
      {
        var _ :- visited.Reach(ps[i]);
        ElemsAppend(referenced, ps[i]);
        ElemsAppend(ps[..i], ps[i]);
        assert ps[..i + 1] == ps[..i] + [ps[i]];
        referenced := referenced + [ps[i]];
      }
      assert ps[..|ps|] == ps;
      return Ok(());
    }

    /** The walk to its end: on any device contents it stops, since every pointer read marks a new position or
        is refused; over a healthy index it finds every referenced block and refuses nothing. */
    method Run(m: Mirror, t: Tract) returns (r: Result<()>)
      requires m.Valid() && Valid(t.View(m))
      modifies this, visited.bits
      ensures Valid(t.View(m))
      ensures r.Ok? ==> todo == [] && Lbas(found) + Elems(referenced) == old(Found(t.View(m)))
      ensures old(Sane(t.View(m))) ==> r.Ok? && stale == []
    {
      hide Healthy, Reached, RefsTrue, Under, Apart;
      ghost var v, sane := t.View(m), Sane(t.View(m));
      while todo != []
        invariant Valid(v) && Found(v) == old(Found(v)) && (sane ==> Sane(v))
        decreases |visited.Free()|
      {
        var _ :- Step(m, t);
      }
      assert ReachedUnder(v, Ptrs([])) == {};
      return Ok(());
    }
  }

  function Start(root: Tree): seq<Item> {
    if root.Nil? then [] else [Item(root, seq(LEVELS, _ => 0), 0)]
  }

  ghost predicate Work(v: Medium, items: seq<Item>, marked: set<nat>) {
    Healthy(v, items) && Under(Ptrs(items)) !! marked
  }

  lemma {:induction false} FewerFree(a: set<nat>, b: set<nat>)
    requires a < b
    ensures |a| < |b|
  {
    var x :| x in b && x !in a;
    FewerOrSame(a, b - {x});
  }

  lemma {:induction false} FewerOrSame(a: set<nat>, b: set<nat>)
    requires a <= b
    ensures |a| <= |b|
  {
    if a != {} {
      var x :| x in a;
      FewerOrSame(a - {x}, b - {x});
    }
  }

  lemma {:induction false} NoWork(v: Medium)
    ensures ReachedUnder(v, Ptrs([])) == {} && Healthy(v, []) && Under(Ptrs([])) == {}
  {
  }

  lemma {:induction false} FoundOne(v: Medium, found: seq<Ref>, r: Ref)
    ensures Lbas(found + [r]) == Lbas(found) + {r.lba}
    ensures RefsTrue(v, found) && SealedAt(v, r.lba, r.doc) ==> RefsTrue(v, found + [r])
  {
    LbasAppend(found, [r]);
    LbaOne(r);
  }

  lemma {:induction false} KidsCommitted(item: Item, kids: seq<Tree>)
    requires item.depth < LEVELS && |kids| <= WIDTH && forall c :: 0 <= c < |kids| ==> kids[c].Nil? || Committed(kids[c])
    ensures forall i :: 0 <= i < |Kids(item, kids)| ==> Committed(Kids(item, kids)[i].ptr)
    decreases |kids|
  {
    if kids != [] {
      KidsCommitted(item, kids[..|kids| - 1]);
    }
  }

  lemma {:induction false} ItemDoc(v: Medium, item: Item)
    requires HealthyItem(v, item)
    ensures DocAt(v, LbaOf(item.ptr), DocOf(item.ptr)) == Ok(Some(DocOf(item.ptr)))
    ensures item.ptr.Node? ==> item.ptr.depth == item.depth
    ensures LbaOf(item.ptr) in Pos(item.ptr)
    ensures item.ptr.Node? ==> LbaOf(item.ptr) !in Under(item.ptr.kids) && Under(item.ptr.kids) <= Pos(item.ptr)
  {
    HeldDoc(v, item.ptr, item.route[..item.depth]);
  }

  lemma {:induction false} ReachedDoc(v: Medium, t: Tree)
    requires Committed(t)
    ensures DocAt(v, LbaOf(t), DocOf(t)) == Ok(Some(DocOf(t))) ==> Reached(v, t) == Named(v, t)
    ensures DocAt(v, LbaOf(t), DocOf(t)) == Ok(None) ==> Reached(v, t) == {}
  {
  }

  /** The positions a pointer's document names: its furrows, or what its children reach. */
  ghost function Onward(v: Medium, t: Tree): set<nat> {
    match t
    case Nil => {}
    case Leaf(_, _, body) => Elems(Furrows(body))
    case Node(_, _, _, kids) => ReachedUnder(v, kids)
  }

  /** A block and what it names. */
  ghost function Named(v: Medium, t: Tree): set<nat>
    requires Committed(t)
  {
    {LbaOf(t)} + Onward(v, t)
  }

  lemma {:induction false} NoElems()
    ensures Elems([]) == {}
  {
  }

  lemma {:induction false} ItemRuns(v: Medium, item: Item)
    requires HealthyItem(v, item) && item.ptr.Leaf? && item.ptr.body.Extent?
    ensures var body := item.ptr.body;
      && Inside(body.runs, v.len) && Total(body.runs) <= v.len && Total(body.runs) == CeilDiv(body.size, FURROW_CAP)
      && Distinct(Expand(body.runs)) && item.ptr.lba !in Elems(Expand(body.runs))
      && Pos(item.ptr) == {item.ptr.lba} + Elems(Expand(body.runs))
  {
  }

  lemma {:induction false} PartFits(v: Medium, items: seq<Item>, cut: nat)
    requires Healthy(v, items) && cut <= |items|
    ensures forall i :: 0 <= i < |items[cut..]| ==> Committed(items[cut..][i].ptr) && Has(v, LbaOf(items[cut..][i].ptr))
  {
    forall i | 0 <= i < |items[cut..]|
      ensures Committed(items[cut..][i].ptr) && Has(v, LbaOf(items[cut..][i].ptr))
    {
      assert HealthyItem(v, items[cut + i]);
    }
  }

  lemma {:induction false} HealthyAppend(v: Medium, a: seq<Item>, b: seq<Item>)
    ensures Healthy(v, a + b) <==> Healthy(v, a) && Healthy(v, b) && Under(Ptrs(a)) !! Under(Ptrs(b))
    ensures Under(Ptrs(a + b)) == Under(Ptrs(a)) + Under(Ptrs(b))
  {
    hide HealthyItem, Apart, Under;
    PtrsAppend(a, b);
    ApartAppend(Ptrs(a), Ptrs(b));
    UnderAppend(Ptrs(a), Ptrs(b));
    if Healthy(v, a + b) {
      assert forall i :: 0 <= i < |a| ==> (a + b)[i] == a[i];
      assert forall i :: 0 <= i < |b| ==> (a + b)[|a| + i] == b[i];
    }
  }

  lemma {:induction false} HealthyOne(v: Medium, x: Item)
    ensures Healthy(v, [x]) ==> HealthyItem(v, x)
    ensures Under(Ptrs([x])) == Pos(x.ptr)
  {
    assert [x][0] == x && Ptrs([x])[0] == x.ptr;
  }

  lemma {:induction false} Popped(v: Medium, a: seq<Item>, x: Item, b: seq<Item>, marked: set<nat>)
    requires Work(v, (a + [x]) + b, marked)
    ensures HealthyItem(v, x) && Pos(x.ptr) !! marked
  {
    hide HealthyItem, Healthy, Apart, Under, Ptrs;
    HealthyAppend(v, a + [x], b);
    HealthyAppend(v, a, [x]);
    HealthyOne(v, x);
  }

  /** A visited item's children take its place. */
  lemma {:induction false} Pushed(v: Medium, a: seq<Item>, x: Item, kids: seq<Item>, b: seq<Item>, before: set<nat>, after: set<nat>)
    requires Work(v, (a + [x]) + b, before)
    requires Healthy(v, kids) && Under(Ptrs(kids)) <= Pos(x.ptr) && Under(Ptrs(kids)) !! after && after <= before + Pos(x.ptr)
    ensures Work(v, (a + kids) + b, after)
  {
    hide HealthyItem, Healthy, Apart, Under, Ptrs;
    HealthyAppend(v, a + [x], b);
    HealthyAppend(v, a, [x]);
    HealthyOne(v, x);
    HealthyAppend(v, a, kids);
    HealthyAppend(v, a + kids, b);
  }

  lemma {:induction false} ReachedSwap(v: Medium, a: seq<Item>, x: Item, kids: seq<Item>, b: seq<Item>)
    ensures ReachedUnder(v, Ptrs((a + [x]) + b)) == ReachedUnder(v, Ptrs(a)) + Reached(v, x.ptr) + ReachedUnder(v, Ptrs(b))
    ensures ReachedUnder(v, Ptrs((a + kids) + b)) == ReachedUnder(v, Ptrs(a)) + ReachedUnder(v, Ptrs(kids)) + ReachedUnder(v, Ptrs(b))
  {
    hide Reached;
    PtrsAppend(a + [x], b);
    PtrsAppend(a, [x]);
    PtrsAppend(a + kids, b);
    PtrsAppend(a, kids);
    assert Ptrs([x]) == [x.ptr];
    ReachedAppend(v, Ptrs(a + [x]), Ptrs(b));
    ReachedAppend(v, Ptrs(a), [x.ptr]);
    ReachedOne(v, x.ptr);
    ReachedAppend(v, Ptrs(a + kids), Ptrs(b));
    ReachedAppend(v, Ptrs(a), Ptrs(kids));
  }

  /** The walk's start over a whole index: it will find exactly what the root references. */
  lemma {:induction false} StartSane(v: Medium, root: Tree, w: Walk)
    requires Sound(root, []) && Once(root) && Held(v, root) && (root.Nil? || Committed(root))
    requires w.todo == Start(root) && w.found == [] && w.referenced == [] && w.stale == []
    requires w.visited.bits.Length == v.len && w.visited.Marked() == {}
    ensures w.Valid(v) && w.Sane(v) && w.Found(v) == Pos(root)
  {
    ReachedIsPos(v, root, []);
    NoLbas();
    NoWork(v);
    assert Elems([]) == {};
    if !root.Nil? {
      var x := Item(root, seq(LEVELS, _ => 0), 0);
      assert x.route[..0] == [];
      ReachedOne(v, root);
      assert Ptrs([x]) == [root];
      HealthyOne(v, x);
      assert Apart([root]);
    }
  }

  // ---------------------------------------------------------------- the eager walk

  predicate IsSealed(b: Block) {
    b.Sealed? || b.Spine?
  }

  /** Those positions at which something sealed lies. */
  ghost function SealedOf(v: Medium, s: set<nat>): set<nat> {
    set p | p in s && Has(v, p) && IsSealed(v.disk[v.base + p])
  }

  lemma {:induction false} SealedPlus(v: Medium, a: set<nat>, b: set<nat>)
    ensures SealedOf(v, a + b) == SealedOf(v, a) + SealedOf(v, b)
  {
  }

  /** The recursive walk: each block read, marked, recorded and descended before the next; a value's furrows are read and
      recorded only where something sealed lies. */
  class EagerWalk {
    const visited: Visited
    var out: seq<nat>
    var stale: seq<Item>

    constructor (len: nat)
      ensures out == [] && stale == []
      ensures fresh(visited) && fresh(visited.bits) && visited.bits.Length == len && visited.Marked() == {}
    {
      visited := new Visited(len);
      out, stale := [], [];
    }

    /** When nothing is refused, what is recorded is what the batched walk finds, less unsealed furrows. */
    method Visit(m: Mirror, t: Tract, item: Item) returns (r: Result<()>)
      requires m.Valid() && t.base + t.len <= |m.disk| && visited.bits.Length == t.len && Committed(item.ptr)
      modifies this`out, this`stale, visited.bits, m`cache, m`uses
      decreases |visited.Free()|, 0
      ensures m.Valid() && m.disk == old(m.disk) && visited.Free() <= old(visited.Free())
      ensures r.Ok? ==> Elems(out) == old(Elems(out)) + SealedOf(t.View(m), Reached(t.View(m), item.ptr))
    {
      hide Reached, ReachedUnder, Elems, SealedOf, Mirrors.Mirror.Valid, Visited.Marked, Visited.Free, Inside;
      ghost var v := t.View(m);
      ghost var free := visited.Free();
      var doc :- ReadDoc(m, t, LbaOf(item.ptr), DocOf(item.ptr));
      ReachedDoc(v, item.ptr);
      var _ :- visited.Reach(LbaOf(item.ptr));
      FewerFree(visited.Free(), free);
      if doc.None? {
        stale := stale + [item];
        SealedNone(v);
        return Ok(());
      }
      EagerParts(v, item.ptr);
      ElemsAppend(out, LbaOf(item.ptr));
      out := out + [LbaOf(item.ptr)];
      r := VisitBelow(m, t, item, doc.value);
    }

    /** What a block that reads leads to. */
    method VisitBelow(m: Mirror, t: Tract, item: Item, doc: Doc) returns (r: Result<()>)
      requires m.Valid() && t.base + t.len <= |m.disk| && visited.bits.Length == t.len && Committed(item.ptr)
      requires doc == DocOf(item.ptr) && DocAt(t.View(m), LbaOf(item.ptr), doc) == Ok(Some(doc))
      modifies this`out, this`stale, visited.bits, m`cache, m`uses
      decreases |visited.Free()|, 2
      ensures m.Valid() && m.disk == old(m.disk) && visited.Free() <= old(visited.Free())
      ensures r.Ok? ==> Elems(out) == old(Elems(out)) + SealedOf(t.View(m), Onward(t.View(m), item.ptr))
    {
      hide Reached, ReachedUnder, Elems, SealedOf, Visited.Marked, Visited.Free, Mirrors.Mirror.Valid;
      SealedNone(t.View(m));
      if doc.NodeDoc? {
        if doc.depth != item.depth {
          return Err(Corrupt);
        }
        r := VisitKids(m, t, item, doc.kids);
      } else if doc.body.Extent? {
        var ps :- ExpandRuns(doc.body.runs, doc.body.size, t.len);
        ExpandInside(doc.body.runs, t.len);
        r := ReadFurrows(m, t, ps);
      } else {
        r := Ok(());
      }
    }

    method VisitKids(m: Mirror, t: Tract, item: Item, kids: seq<Tree>) returns (r: Result<()>)
      requires m.Valid() && t.base + t.len <= |m.disk| && visited.bits.Length == t.len
      requires item.ptr.Node? && kids == item.ptr.kids && |kids| == WIDTH && item.depth < LEVELS
      requires forall c :: 0 <= c < WIDTH ==> KidFits(kids[c], t.len)
      modifies this`out, this`stale, visited.bits, m`cache, m`uses
      decreases |visited.Free()|, 1
      ensures m.Valid() && m.disk == old(m.disk) && visited.Free() <= old(visited.Free())
      ensures r.Ok? ==> Elems(out) == old(Elems(out)) + SealedOf(t.View(m), ReachedUnder(t.View(m), kids))
    {
      hide Reached, ReachedUnder, Elems, SealedOf, Mirrors.Mirror.Valid;
      ghost var v, free := t.View(m), visited.Free();
      SealedNone(v);
      assert kids[..0] == [];
      for c := 0 to WIDTH
        invariant m.Valid() && m.disk == old(m.disk) && visited.Free() <= free
        invariant Elems(out) == old(Elems(out)) + SealedOf(v, ReachedUnder(v, kids[..c]))
      {
        EagerNext(v, kids, c);
        FewerOrSame(visited.Free(), free);
        if !kids[c].Nil? {
          var _ :- Visit(m, t, Item(kids[c], RouteWith(item.route, item.depth, c), item.depth + 1));
        }
      }
      assert kids[..WIDTH] == kids;
      return Ok(());
    }

    method ReadFurrows(m: Mirror, t: Tract, ps: seq<nat>) returns (r: Result<()>)
      requires m.Valid() && t.base + t.len <= |m.disk| && visited.bits.Length == t.len && forall i :: 0 <= i < |ps| ==> ps[i] < t.len
      modifies this`out, visited.bits
      ensures visited.Free() <= old(visited.Free())
      ensures r.Ok? ==> Elems(out) == old(Elems(out)) + SealedOf(t.View(m), Elems(ps))
    {
      hide Elems, SealedOf, Mirrors.Mirror.Valid;
      ghost var v := t.View(m);
      SealedNone(v);
      assert ps[..0] == [];
      for i := 0 to |ps|
        invariant Elems(out) == old(Elems(out)) + SealedOf(v, Elems(ps[..i])) && visited.Free() <= old(visited.Free())
      {
        assert ps[..i + 1] == ps[..i] + [ps[i]];
        ElemsAppend(ps[..i], ps[i]);
        SealedPlus(v, Elems(ps[..i]), {ps[i]});
        SealedOne(v, ps[i]);
        ElemsAppend(out, ps[i]);
        var _ :- visited.Reach(ps[i]);
        var block := m.Read(t.base + ps[i]);
        if IsSealed(block.value) {
          out := out + [ps[i]];
        }
      }
      assert ps[..|ps|] == ps;
      return Ok(());
    }
  }

  lemma {:induction false} SealedNone(v: Medium)
    ensures SealedOf(v, {}) == {} && Elems([]) == {} && ReachedUnder(v, []) == {}
  {
  }

  lemma {:induction false} SealedOne(v: Medium, p: nat)
    ensures Has(v, p) ==> SealedOf(v, {p}) == if IsSealed(v.disk[v.base + p]) then {p} else {}
  {
  }

  /** A block that reads, and the rest it names. */
  lemma {:induction false} EagerParts(v: Medium, t: Tree)
    requires Committed(t) && DocAt(v, LbaOf(t), DocOf(t)) == Ok(Some(DocOf(t)))
    ensures SealedOf(v, Reached(v, t)) == {LbaOf(t)} + SealedOf(v, Onward(v, t))
  {
    ReachedDoc(v, t);
    hide Reached, ReachedUnder;
    SealedNone(v);
    SealedOne(v, LbaOf(t));
    SealedPlus(v, {LbaOf(t)}, Onward(v, t));
  }

  lemma {:induction false} EagerNext(v: Medium, kids: seq<Tree>, c: nat)
    requires c < |kids|
    ensures SealedOf(v, ReachedUnder(v, kids[..c + 1])) == SealedOf(v, ReachedUnder(v, kids[..c])) + SealedOf(v, Reached(v, kids[c]))
    ensures kids[c].Nil? ==> SealedOf(v, Reached(v, kids[c])) == {}
  {
    hide Reached, ReachedUnder;
    assert kids[..c + 1] == kids[..c] + [kids[c]];
    ReachedAppend(v, kids[..c], [kids[c]]);
    ReachedOne(v, kids[c]);
    SealedPlus(v, ReachedUnder(v, kids[..c]), Reached(v, kids[c]));
    NilReached(v);
  }

  lemma {:induction false} LeafSealed(v: Medium, t: Tree, p: nat)
    requires Held(v, t) && t.Leaf? && p in Pos(t)
    ensures Has(v, p) && v.disk[v.base + p].Sealed?
  {
    if p != t.lba {
      var ps := Furrows(t.body);
      assert p in Elems(ps);
      var i :| 0 <= i < |ps| && ps[i] == p;
      assert FurrowAt(v, ps[i], t.key, i);
    }
  }

  /** Every block a healthy index references is sealed. */
  lemma {:induction false} HeldSealed(v: Medium, t: Tree, p: nat)
    requires Held(v, t) && p in Pos(t)
    ensures Has(v, p) && v.disk[v.base + p].Sealed?
    decreases t
  {
    hide BodyHeld, Furrows, FurrowAt, Assemble;
    if t.Leaf? {
      LeafSealed(v, t, p);
    } else if t.Node? && p !in Own(t) {
      var c :| 0 <= c < |t.kids| && p in Pos(t.kids[c]);
      HeldSealed(v, t.kids[c], p);
    }
  }

  /** Where an index is not healthy the walks can differ: over a value whose one furrow is no longer sealed, the open's walk
      finds the furrow's position and the recursive one does not. */
  lemma {:induction false} WalksDiffer(key: Key)
    ensures var leaf := Leaf(1, key, Extent(1, [Run(0, 1)]));
      var v := Medium([Torn(0), Sealed(DocOf(leaf))], 0, 2);
      DocAt(v, 1, DocOf(leaf)) == Ok(Some(DocOf(leaf))) && Reached(v, leaf) == {0, 1} && SealedOf(v, Reached(v, leaf)) == {1}
  {
    var runs := [Run(0, 1)];
    var leaf := Leaf(1, key, Extent(1, runs));
    var v := Medium([Torn(0), Sealed(DocOf(leaf))], 0, 2);
    assert runs[1..] == [] && Expand(runs) == Span(0, 1) + Expand([]) && Expand([]) == [];
    assert Expand(runs) == [0] && Elems([0]) == {0};
    ReachedDoc(v, leaf);
  }

  /** Over a healthy index both walks find exactly the blocks it references. */
  lemma {:induction false} WalksAgree(v: Medium, root: Tree)
    requires Held(v, root) && Sound(root, []) && (root.Nil? || Committed(root))
    ensures SealedOf(v, Reached(v, root)) == Reached(v, root) == Pos(root)
  {
    hide Held, Sound, Pos, Reached;
    ReachedIsPos(v, root, []);
    forall p | p in Pos(root)
      ensures Has(v, p) && IsSealed(v.disk[v.base + p])
    {
      HeldSealed(v, root, p);
    }
  }
}
