/** Batches: what an ordered list of puts and deletes means, and what giving it up and beginning again may commit. */
module Batches {
  import opened Blocks

  datatype Op = Set(key: Key, value: Value) | Unset(key: Key)

  function Step(m: map<Key, Stored>, op: Op): map<Key, Stored> {
    match op
    case Set(key, value) => m[key := Full(value)]
    case Unset(key) => m - {key}
  }

  /** The operations applied in order. */
  function Fold(ops: seq<Op>, m: map<Key, Stored>): map<Key, Stored> {
    if ops == [] then m else Step(Fold(ops[..|ops| - 1], m), ops[|ops| - 1])
  }

  lemma {:induction false} FoldNext(ops: seq<Op>, i: nat, m: map<Key, Stored>)
    requires i < |ops|
    ensures Fold(ops[..i + 1], m) == Step(Fold(ops[..i], m), ops[i])
  {
    assert ops[..i + 1][..i] == ops[..i];
  }

  predicate Touched(ops: seq<Op>, key: Key) {
    exists i :: 0 <= i < |ops| && ops[i].key == key
  }

  /** Two maps differ at most on keys the operations touch. */
  ghost predicate AgreeOff(ops: seq<Op>, a: map<Key, Stored>, b: map<Key, Stored>) {
    forall k: Key :: !Touched(ops, k) ==> Same(a, b, k)
  }

  ghost predicate Same(a: map<Key, Stored>, b: map<Key, Stored>, k: Key) {
    (k in a <==> k in b) && (k in a && k in b ==> a[k] == b[k])
  }

  lemma {:induction false} SameAll(a: map<Key, Stored>, b: map<Key, Stored>)
    requires forall k: Key :: Same(a, b, k)
    ensures a == b
  {
    forall k: Key
      ensures k in a <==> k in b
      ensures k in a && k in b ==> a[k] == b[k]
    {
      assert Same(a, b, k);
    }
  }

  /** A touched key holds what the last operation on it says, wherever the fold began. */
  lemma {:induction false} FoldAt(ops: seq<Op>, a: map<Key, Stored>, b: map<Key, Stored>, k: Key)
    requires Touched(ops, k) || Same(a, b, k)
    ensures Same(Fold(ops, a), Fold(ops, b), k)
  {
    if ops != [] {
      var front, last := ops[..|ops| - 1], ops[|ops| - 1];
      if last.key != k {
        if Touched(ops, k) {
          var i :| 0 <= i < |ops| && ops[i].key == k;
          assert front[i].key == k;
        }
        FoldAt(front, a, b, k);
      }
    }
  }

  lemma {:induction false} FoldOff(ops: seq<Op>, m: map<Key, Stored>, k: Key)
    requires !Touched(ops, k)
    ensures Same(Fold(ops, m), m, k)
  {
    if ops != [] {
      var front, last := ops[..|ops| - 1], ops[|ops| - 1];
      assert last.key != k;
      forall i | 0 <= i < |front|
        ensures front[i].key != k
      {
        assert ops[i] == front[i];
      }
      FoldOff(front, m, k);
    }
  }

  lemma {:induction false} TouchedPrefix(ops: seq<Op>, i: nat, k: Key)
    requires i <= |ops| && Touched(ops[..i], k)
    ensures Touched(ops, k)
  {
    var j :| 0 <= j < i && ops[..i][j].key == k;
    assert ops[j].key == k;
  }

  /** Whatever part of a batch a map already carries, it agrees with the map before off the batch's keys. */
  lemma {:induction false} PartAgrees(ops: seq<Op>, i: nat, m: map<Key, Stored>, part: map<Key, Stored>)
    requires i <= |ops| && AgreeOff(ops, part, m)
    ensures AgreeOff(ops, Fold(ops[..i], part), m)
  {
    forall k: Key | !Touched(ops, k)
      ensures Same(Fold(ops[..i], part), m, k)
    {
      if Touched(ops[..i], k) {
        TouchedPrefix(ops, i, k);
      }
      FoldOff(ops[..i], part, k);
      assert Same(part, m, k);
    }
  }

  /** The replay law: over any such map the whole batch folds to the same map. */
  lemma {:induction false} ReplayLaw(ops: seq<Op>, m: map<Key, Stored>, part: map<Key, Stored>)
    requires AgreeOff(ops, part, m)
    ensures Fold(ops, part) == Fold(ops, m)
  {
    forall k: Key
      ensures Same(Fold(ops, part), Fold(ops, m), k)
    {
      assert Touched(ops, k) || Same(part, m, k);
      FoldAt(ops, part, m, k);
    }
    SameAll(Fold(ops, part), Fold(ops, m));
  }

  lemma {:induction false} FoldJoin(a: seq<Op>, b: seq<Op>, m: map<Key, Stored>)
    ensures Fold(a + b, m) == Fold(b, Fold(a, m))
  {
    if b == [] {
      assert a + b == a;
    } else {
      var front := b[..|b| - 1];
      FoldJoin(a, front, m);
      assert (a + b)[..|a + b| - 1] == a + front;
    }
  }

  // ---------------------------------------------------------------- outcomes

  /** The last operation on a key. */
  function LastOf(ops: seq<Op>, k: Key): Option<Op> {
    if ops == [] then None
    else if ops[|ops| - 1].key == k then Some(ops[|ops| - 1])
    else LastOf(ops[..|ops| - 1], k)
  }

  /** The key holds in `m` what `last` left there, or what it held in `was` when nothing touched it. */
  ghost predicate Left(m: map<Key, Stored>, was: map<Key, Stored>, k: Key, last: Option<Op>) {
    match last
    case None => Same(m, was, k)
    case Some(Set(_, value)) => k in m && m[k] == Full(value)
    case Some(Unset(_)) => k !in m
  }

  lemma {:induction false} FoldHolds(ops: seq<Op>, m: map<Key, Stored>, k: Key)
    ensures Left(Fold(ops, m), m, k, LastOf(ops, k))
  {
    if ops != [] && ops[|ops| - 1].key != k {
      FoldHolds(ops[..|ops| - 1], m, k);
    }
  }

  lemma {:induction false} LastOfJoin(a: seq<Op>, b: seq<Op>, k: Key)
    ensures LastOf(a + b, k) == if LastOf(b, k).Some? then LastOf(b, k) else LastOf(a, k)
  {
    if b == [] {
      assert a + b == a;
    } else {
      var front := b[..|b| - 1];
      LastOfJoin(a, front, k);
      assert (a + b)[..|a + b| - 1] == a + front;
    }
  }

  lemma {:induction false} LastOfIn(ops: seq<Op>, k: Key)
    ensures LastOf(ops, k).Some? ==> LastOf(ops, k).value in ops && LastOf(ops, k).value.key == k
    ensures LastOf(ops, k).Some? <==> Touched(ops, k)
  {
    if ops != [] && ops[|ops| - 1].key != k {
      var front := ops[..|ops| - 1];
      LastOfIn(front, k);
      assert forall i :: 0 <= i < |front| ==> front[i] == ops[i];
    }
  }

  /** Two lists of operations leave every key alike, whatever they start from. */
  ghost predicate Alike(a: seq<Op>, b: seq<Op>) {
    forall k: Key :: LastOf(a, k) == LastOf(b, k)
  }

  lemma {:induction false} AlikeFold(a: seq<Op>, b: seq<Op>, m: map<Key, Stored>)
    requires Alike(a, b)
    ensures Fold(a, m) == Fold(b, m)
  {
    forall k: Key
      ensures Same(Fold(a, m), Fold(b, m), k)
    {
      FoldHolds(a, m, k);
      FoldHolds(b, m, k);
      assert LastOf(a, k) == LastOf(b, k);
    }
    SameAll(Fold(a, m), Fold(b, m));
  }

  lemma {:induction false} AlikeJoin(a: seq<Op>, b: seq<Op>, c: seq<Op>)
    requires Alike(a, b)
    ensures Alike(a + c, b + c)
  {
    forall k: Key
      ensures LastOf(a + c, k) == LastOf(b + c, k)
    {
      LastOfJoin(a, c, k);
      LastOfJoin(b, c, k);
    }
  }

  lemma {:induction false} AlikeThen(a: seq<Op>, b: seq<Op>, c: seq<Op>)
    requires Alike(a, b)
    ensures Alike(b, a) && Alike(a, a) && (Alike(b, c) ==> Alike(a, c))
  {
  }

  // ---------------------------------------------------------------- what a cut can show after a replay

  /** Passes over the batch, each given up after so many operations and begun again over what it committed. */
  predicate Partial(ops: seq<Op>, passes: seq<nat>) {
    forall i :: 0 <= i < |passes| ==> passes[i] < |ops|
  }

  /** The operations they applied. */
  function Redone(ops: seq<Op>, passes: seq<nat>): seq<Op>
    requires Partial(ops, passes)
  {
    if passes == [] then [] else Redone(ops, passes[..|passes| - 1]) + ops[..passes[|passes| - 1]]
  }

  ghost predicate IsPrefix(ops: seq<Op>, m: map<Key, Stored>, x: map<Key, Stored>) {
    exists i :: 0 <= i <= |ops| && x == Fold(ops[..i], m)
  }

  /** The batch given up and begun again any number of times only ever commits prefixes of its fold. */
  ghost predicate OnlyPrefixes(ops: seq<Op>) {
    forall m: map<Key, Stored>, passes: seq<nat> :: Partial(ops, passes) ==> IsPrefix(ops, m, Fold(Redone(ops, passes), m))
  }

  /** These operations leave every key as the prefix of length `r` does. */
  ghost predicate LikePrefix(ops: seq<Op>, done: seq<Op>, r: nat) {
    r <= |ops| && Alike(done, ops[..r])
  }

  ghost predicate LikeTwo(ops: seq<Op>, done: seq<Op>, p: nat, q: nat) {
    p < |ops| && q < |ops| && Alike(done, ops[..p] + ops[..q])
  }

  ghost predicate Lands(ops: seq<Op>, done: seq<Op>) {
    exists r: nat :: LikePrefix(ops, done, r)
  }

  /** Three passes given up after `p`, `q` and `s` operations leave every key as some prefix does. */
  ghost predicate ThreeLand(ops: seq<Op>, p: nat, q: nat, s: nat) {
    p < |ops| && q < |ops| && s < |ops| ==> Lands(ops, ops[..p] + ops[..q] + ops[..s])
  }

  /** What can be read off the batch alone: any three partial passes leave every key as some prefix does. */
  ghost predicate Replayable(ops: seq<Op>) {
    forall p: nat, q: nat, s: nat :: ThreeLand(ops, p, q, s)
  }

  /** Where any number of passes has got to: a proper prefix's outcome, or the whole one's reached by two passes. */
  ghost predicate CameTo(ops: seq<Op>, done: seq<Op>) {
    || (exists r: nat :: r < |ops| && LikePrefix(ops, done, r))
    || (LikePrefix(ops, done, |ops|) && exists p: nat, q: nat :: LikeTwo(ops, done, p, q))
  }

  lemma {:induction false} LandsAt(ops: seq<Op>, p: nat, q: nat, s: nat) returns (r: nat)
    requires Replayable(ops) && p < |ops| && q < |ops| && s < |ops|
    ensures LikePrefix(ops, ops[..p] + ops[..q] + ops[..s], r)
  {
    hide LikePrefix;
    assert ThreeLand(ops, p, q, s);
    r :| LikePrefix(ops, ops[..p] + ops[..q] + ops[..s], r);
  }

  lemma {:induction false} CameToIs(ops: seq<Op>, done: seq<Op>, r: nat, p: nat, q: nat)
    requires LikePrefix(ops, done, r) && (r == |ops| ==> LikeTwo(ops, done, p, q))
    ensures CameTo(ops, done)
  {
    hide LikeTwo;
    assert r <= |ops|;
    hide LikePrefix;
  }

  lemma {:induction false} CameToNext(ops: seq<Op>, done: seq<Op>, t: nat)
    requires Replayable(ops) && t < |ops| && CameTo(ops, done)
    ensures CameTo(ops, done + ops[..t])
  {
    hide LikePrefix, LikeTwo, Replayable, Lands;
    if r: nat :| r < |ops| && LikePrefix(ops, done, r) {
      NextOfPrefix(ops, done, r, t);
    } else {
      var p: nat, q: nat :| LikeTwo(ops, done, p, q);
      NextOfTwo(ops, done, p, q, t);
    }
  }

  lemma {:induction false} NextOfPrefix(ops: seq<Op>, done: seq<Op>, r: nat, t: nat)
    requires Replayable(ops) && r < |ops| && t < |ops| && LikePrefix(ops, done, r)
    ensures CameTo(ops, done + ops[..t])
  {
    var two, now := ops[..r] + ops[..t], done + ops[..t];
    AlikeJoin(done, ops[..r], ops[..t]);
    var x := LandsAt(ops, r, t, 0);
    assert two + ops[..0] == two;
    hide Replayable, Lands, Alike;
    AlikeThen(now, two, ops[..x]);
    CameToIs(ops, now, x, r, t);
  }

  /** Two passes that already left everything done, and a third. */
  lemma {:induction false} NextOfTwo(ops: seq<Op>, done: seq<Op>, p: nat, q: nat, t: nat)
    requires Replayable(ops) && t < |ops| && LikePrefix(ops, done, |ops|) && LikeTwo(ops, done, p, q)
    ensures CameTo(ops, done + ops[..t])
  {
    var two, now := ops[..p] + ops[..q], done + ops[..t];
    AlikeJoin(done, two, ops[..t]);
    var x := LandsAt(ops, p, q, t);
    assert ops[..|ops|] == ops;
    hide Replayable, Lands, Alike;
    AlikeThen(now, two + ops[..t], ops[..x]);
    if x == |ops| {
      AlikeThen(done, ops, ops);
      AlikeThen(now, ops, done);
      AlikeThen(now, done, two);
    }
    CameToIs(ops, now, x, p, q);
  }

  lemma {:induction false} AlikeSelf(a: seq<Op>)
    ensures Alike(a, a)
  {
  }

  /** Three passes decide for any number of them. */
  lemma {:induction false} AnyPasses(ops: seq<Op>, passes: seq<nat>) returns (r: nat)
    requires Replayable(ops) && Partial(ops, passes)
    ensures LikePrefix(ops, Redone(ops, passes), r)
  {
    hide Replayable, LikeTwo, LikePrefix, Lands;
    if passes == [] {
      r := 0;
      NonePrefix(ops);
    } else {
      assert passes[0] < |ops|;
      PassesReach(ops, passes);
      if x: nat :| x < |ops| && LikePrefix(ops, Redone(ops, passes), x) {
        r := x;
      } else {
        r := |ops|;
      }
    }
  }

  lemma {:induction false} NonePrefix(ops: seq<Op>)
    ensures LikePrefix(ops, [], 0)
  {
    assert ops[..0] == [];
    AlikeSelf([]);
  }

  lemma {:induction false} PassesReach(ops: seq<Op>, passes: seq<nat>)
    requires Replayable(ops) && Partial(ops, passes) && ops != []
    ensures CameTo(ops, Redone(ops, passes))
  {
    hide Replayable, LikeTwo, LikePrefix;
    if passes == [] {
      NonePrefix(ops);
    } else {
      var front, t := passes[..|passes| - 1], passes[|passes| - 1];
      PassesReach(ops, front);
      CameToNext(ops, Redone(ops, front), t);
    }
  }

  /** A value no operation of the batch sets. */
  function Unused(ops: seq<Op>): (v: Value)
    ensures forall i :: 0 <= i < |ops| && ops[i].Set? ==> |ops[i].value| < |v|
  {
    if ops == [] then [0]
    else
      var front, last := Unused(ops[..|ops| - 1]), ops[|ops| - 1];
      if last.Set? && |last.value| >= |front| then last.value + [0] else front
  }

  /** A map that tells every outcome apart: each key of the batch holds a value the batch never sets. */
  function Telling(ops: seq<Op>): map<Key, Stored> {
    map i | 0 <= i < |ops| :: ops[i].key := Full(Unused(ops))
  }

  lemma {:induction false} TellsApart(ops: seq<Op>, a: seq<Op>, b: seq<Op>)
    requires (forall op :: op in a ==> op in ops) && (forall op :: op in b ==> op in ops)
    requires Fold(a, Telling(ops)) == Fold(b, Telling(ops))
    ensures Alike(a, b)
  {
    var m := Telling(ops);
    forall k: Key
      ensures LastOf(a, k) == LastOf(b, k)
    {
      FoldHolds(a, m, k);
      FoldHolds(b, m, k);
      LastOfIn(a, k);
      LastOfIn(b, k);
      TellingAt(ops, k);
    }
  }

  lemma {:induction false} TellingAt(ops: seq<Op>, k: Key)
    ensures forall op :: op in ops && op.key == k ==>
      k in Telling(ops) && Telling(ops)[k] == Full(Unused(ops)) && (op.Set? ==> Full(op.value) != Telling(ops)[k])
  {
  }

  lemma {:induction false} RedoneIn(ops: seq<Op>, passes: seq<nat>)
    requires Partial(ops, passes)
    ensures forall op :: op in Redone(ops, passes) ==> op in ops
  {
    if passes != [] {
      RedoneIn(ops, passes[..|passes| - 1]);
    }
  }

  lemma {:induction false} RedoneThree(ops: seq<Op>, p: nat, q: nat, s: nat)
    requires p < |ops| && q < |ops| && s < |ops|
    ensures Partial(ops, [p, q, s]) && Redone(ops, [p, q, s]) == ops[..p] + ops[..q] + ops[..s]
  {
    var three, two, one: seq<nat> := [p, q, s], [p, q], [p];
    assert three[..2] == two && two[..1] == one && one[..0] == [];
    assert Redone(ops, one) == ops[..p];
    assert Redone(ops, two) == ops[..p] + ops[..q];
  }

  /** Exactly when every generation a batch may commit is a prefix of its fold, whatever map it starts from and however
      often it is given up and replayed. */
  lemma {:induction false} ReplayExact(ops: seq<Op>)
    ensures Replayable(ops) <==> OnlyPrefixes(ops)
  {
    if Replayable(ops) {
      forall m: map<Key, Stored>, passes: seq<nat> | Partial(ops, passes)
        ensures IsPrefix(ops, m, Fold(Redone(ops, passes), m))
      {
        PassesPrefix(ops, m, passes);
      }
    }
    if OnlyPrefixes(ops) {
      forall p: nat, q: nat, s: nat
        ensures ThreeLand(ops, p, q, s)
      {
        if p < |ops| && q < |ops| && s < |ops| {
          PrefixesLand(ops, p, q, s);
        }
      }
    }
  }

  lemma {:induction false} PrefixesLand(ops: seq<Op>, p: nat, q: nat, s: nat)
    requires OnlyPrefixes(ops) && p < |ops| && q < |ops| && s < |ops|
    ensures Lands(ops, ops[..p] + ops[..q] + ops[..s])
  {
    RedoneThree(ops, p, q, s);
    RedoneIn(ops, [p, q, s]);
    var done, m := Redone(ops, [p, q, s]), Telling(ops);
    assert IsPrefix(ops, m, Fold(done, m));
    hide OnlyPrefixes, Alike, Redone, Telling;
    var r: nat :| r <= |ops| && Fold(done, m) == Fold(ops[..r], m);
    TellsApart(ops, done, ops[..r]);
    assert LikePrefix(ops, done, r);
  }

  lemma {:induction false} PassesPrefix(ops: seq<Op>, m: map<Key, Stored>, passes: seq<nat>)
    requires Replayable(ops) && Partial(ops, passes)
    ensures IsPrefix(ops, m, Fold(Redone(ops, passes), m))
  {
    var r := AnyPasses(ops, passes);
    AlikeFold(Redone(ops, passes), ops[..r], m);
  }

  /** No key is given two different outcomes. */
  predicate Consistent(ops: seq<Op>) {
    forall i, j :: 0 <= i < j < |ops| && ops[i].key == ops[j].key ==> ops[i] == ops[j]
  }

  lemma {:induction false} ConsistentLast(ops: seq<Op>, p: nat, i: nat)
    requires Consistent(ops) && i < p <= |ops|
    ensures LastOf(ops[..p], ops[i].key) == Some(ops[i])
  {
    assert ops[..p][..p - 1] == ops[..p - 1];
    if ops[p - 1].key != ops[i].key {
      ConsistentLast(ops, p - 1, i);
    }
  }

  lemma {:induction false} ConsistentPair(ops: seq<Op>, p: nat, q: nat)
    requires Consistent(ops) && p <= |ops| && q <= |ops|
    ensures Alike(ops[..p] + ops[..q], ops[..if p <= q then q else p])
  {
    forall k: Key
      ensures LastOf(ops[..p] + ops[..q], k) == LastOf(ops[..if p <= q then q else p], k)
    {
      LastOfJoin(ops[..p], ops[..q], k);
      LastOfIn(ops[..p], k);
      LastOfIn(ops[..q], k);
      LastOfIn(ops[..if p <= q then q else p], k);
      if Touched(ops[..q], k) {
        var i :| 0 <= i < q && ops[..q][i].key == k;
        ConsistentLast(ops, q, i);
        ConsistentLast(ops, if p <= q then q else p, i);
      } else if Touched(ops[..p], k) {
        var i :| 0 <= i < p && ops[..p][i].key == k;
        assert i < q ==> ops[..q][i].key == k;
      } else if p <= q {
        assert !Touched(ops[..q], k);
      }
    }
  }

  /** A batch that sets each key one way replays safely. */
  lemma {:induction false} ConsistentReplays(ops: seq<Op>)
    requires Consistent(ops)
    ensures Replayable(ops)
  {
    forall p: nat, q: nat, s: nat
      ensures ThreeLand(ops, p, q, s)
    {
      if p < |ops| && q < |ops| && s < |ops| {
        ConsistentLands(ops, p, q, s);
      }
    }
  }

  lemma {:induction false} ConsistentLands(ops: seq<Op>, p: nat, q: nat, s: nat)
    requires Consistent(ops) && p < |ops| && q < |ops| && s < |ops|
    ensures Lands(ops, ops[..p] + ops[..q] + ops[..s])
  {
    hide Alike, Consistent;
    var r := if p <= q then q else p;
    var x := if r <= s then s else r;
    ConsistentPair(ops, p, q);
    AlikeJoin(ops[..p] + ops[..q], ops[..r], ops[..s]);
    ConsistentPair(ops, r, s);
    AlikeThen(ops[..p] + ops[..q] + ops[..s], ops[..r] + ops[..s], ops[..x]);
    assert LikePrefix(ops, ops[..p] + ops[..q] + ops[..s], x);
  }

  /** One key set twice replays safely too: that is more than is needed. */
  lemma {:induction false} TwiceReplays(a: Key)
    ensures var ops := [Set(a, [1]), Set(a, [2])]; Replayable(ops) && !Consistent(ops)
  {
    var ops := [Set(a, [1]), Set(a, [2])];
    assert ops[0].key == ops[1].key;
    forall p: nat, q: nat, s: nat
      ensures ThreeLand(ops, p, q, s)
    {
      if p < |ops| && q < |ops| && s < |ops| {
        OnceOrNot(ops, p, q, s);
      }
    }
  }

  lemma {:induction false} OnceOrNot(ops: seq<Op>, p: nat, q: nat, s: nat)
    requires |ops| == 2 && ops[0].key == ops[1].key && p < 2 && q < 2 && s < 2
    ensures Lands(ops, ops[..p] + ops[..q] + ops[..s])
  {
    assert ops[..0] == [] && ops[..1] == [ops[0]];
    var r := if p == 0 && q == 0 && s == 0 then 0 else 1;
    var two := if p == 0 && q == 0 then 0 else 1;
    hide Alike;
    OnceMore(ops[0], ops[..p], ops[..q]);
    AlikeJoin(ops[..p] + ops[..q], ops[..two], ops[..s]);
    OnceMore(ops[0], ops[..two], ops[..s]);
    AlikeThen(ops[..p] + ops[..q] + ops[..s], ops[..two] + ops[..s], ops[..r]);
    assert LikePrefix(ops, ops[..p] + ops[..q] + ops[..s], r);
  }

  lemma {:induction false} OnceMore(op: Op, a: seq<Op>, b: seq<Op>)
    ensures (a == [] || a == [op]) && (b == [] || b == [op]) ==> Alike(a + b, if a == [] then b else [op])
  {
    forall k: Key
      ensures LastOf(a + b, k) == if LastOf(b, k).Some? then LastOf(b, k) else LastOf(a, k)
    {
      LastOfJoin(a, b, k);
    }
  }

  /** A key set twice, then two others. */
  function Four(a: Key, b: Key, c: Key): seq<Op> {
    [Set(a, [1]), Set(a, [2]), Set(b, [1]), Set(c, [1])]
  }

  lemma {:induction false} FourPrefix(a: Key, b: Key, c: Key, r: nat)
    requires a != b && a != c && b != c && r <= 4
    ensures var ops := Four(a, b, c); |ops| == 4 && var m := Fold(ops[..r], map[]);
      && (a in m <==> r >= 1) && (b in m <==> r >= 3) && (c in m <==> r == 4)
      && (r == 1 ==> m[a] == Full([1])) && (r >= 2 ==> m[a] == Full([2]))
  {
    var ops := Four(a, b, c);
    assert ops[..0] == [];
    FoldNext(ops, 0, map[]);
    FoldNext(ops, 1, map[]);
    FoldNext(ops, 2, map[]);
    FoldNext(ops, 3, map[]);
  }

  /** Not every batch does: `a` set to 1 and then 2, then `b`, then `c`. Three operations committed while the fourth made
      room, the batch then given up, and its replay committing one operation while the second makes room: `a` holds 1 beside
      `b`, which no prefix of the fold says. */
  lemma {:induction false} ReplayNotPrefix(a: Key, b: Key, c: Key)
    requires a != b && a != c && b != c
    ensures var ops := Four(a, b, c);
      && Partial(ops, [3, 1]) && !IsPrefix(ops, map[], Fold(Redone(ops, [3, 1]), map[]))
      && !Replayable(ops)
  {
    var ops := Four(a, b, c);
    var two, one: seq<nat> := [3, 1], [3];
    assert two[..1] == one && one[..0] == [];
    assert Redone(ops, one) == ops[..3] && Redone(ops, two) == ops[..3] + ops[..1];
    var x := Fold(Redone(ops, two), map[]);
    FoldJoin(ops[..3], ops[..1], map[]);
    FourPrefix(a, b, c, 3);
    assert ops[..0] == [];
    FoldNext(ops, 0, Fold(ops[..3], map[]));
    assert x[a] == Full([1]) && b in x;
    forall r | 0 <= r <= |ops|
      ensures x != Fold(ops[..r], map[])
    {
      FourPrefix(a, b, c, r);
    }
    if Replayable(ops) {
      PassesPrefix(ops, map[], two);
    }
  }

  // ---------------------------------------------------------------- states on the way

  /** A map the batch may commit before it is done. */
  ghost predicate OnTheWay(ops: seq<Op>, m: map<Key, Stored>, x: map<Key, Stored>) {
    exists passes: seq<nat> :: Partial(ops, passes) && x == Fold(Redone(ops, passes), m)
  }

  /** What a pass over `c` commits before its last operation. */
  ghost predicate IsPart(ops: seq<Op>, c: map<Key, Stored>, x: map<Key, Stored>) {
    exists i :: 0 <= i < |ops| && x == Fold(ops[..i], c)
  }

  lemma {:induction false} StartOnTheWay(ops: seq<Op>, m: map<Key, Stored>)
    ensures OnTheWay(ops, m, m) && IsPrefix(ops, m, m)
  {
    var none: seq<nat> := [];
    assert Redone(ops, none) == [];
    assert ops[..0] == [] && m == Fold(ops[..0], m);
  }

  /** A pass given up over a map on the way leaves one on the way. */
  lemma {:induction false} FurtherOnTheWay(ops: seq<Op>, m: map<Key, Stored>, x: map<Key, Stored>, y: map<Key, Stored>)
    requires OnTheWay(ops, m, x) && IsPart(ops, x, y)
    ensures OnTheWay(ops, m, y)
  {
    var q :| 0 <= q < |ops| && y == Fold(ops[..q], x);
    var passes: seq<nat> :| Partial(ops, passes) && x == Fold(Redone(ops, passes), m);
    var more := passes + [q];
    assert more[..|passes|] == passes;
    FoldJoin(Redone(ops, passes), ops[..q], m);
    assert Partial(ops, more) && y == Fold(Redone(ops, more), m);
  }

  lemma {:induction false} RedoneAgrees(ops: seq<Op>, passes: seq<nat>, m: map<Key, Stored>)
    requires Partial(ops, passes)
    ensures AgreeOff(ops, Fold(Redone(ops, passes), m), m)
  {
    if passes != [] {
      var front, t := passes[..|passes| - 1], passes[|passes| - 1];
      RedoneAgrees(ops, front, m);
      PartAgrees(ops, t, m, Fold(Redone(ops, front), m));
      FoldJoin(Redone(ops, front), ops[..t], m);
    }
  }

  /** From anywhere on the way the whole batch ends where it would have from the start. */
  lemma {:induction false} EndOfTheWay(ops: seq<Op>, m: map<Key, Stored>, x: map<Key, Stored>)
    requires OnTheWay(ops, m, x)
    ensures Fold(ops, x) == Fold(ops, m)
  {
    var passes: seq<nat> :| Partial(ops, passes) && x == Fold(Redone(ops, passes), m);
    RedoneAgrees(ops, passes, m);
    ReplayLaw(ops, m, x);
  }

  /** On a replayable batch every map on the way is a prefix of the fold. */
  lemma {:induction false} WayIsPrefix(ops: seq<Op>, m: map<Key, Stored>, x: map<Key, Stored>)
    requires Replayable(ops) && OnTheWay(ops, m, x)
    ensures IsPrefix(ops, m, x)
  {
    var passes: seq<nat> :| Partial(ops, passes) && x == Fold(Redone(ops, passes), m);
    PassesPrefix(ops, m, passes);
  }

  /** A single operation has no way: it is done or not. */
  lemma {:induction false} OneOpWay(op: Op, m: map<Key, Stored>, x: map<Key, Stored>)
    requires OnTheWay([op], m, x)
    ensures x == m
  {
    var passes: seq<nat> :| Partial([op], passes) && x == Fold(Redone([op], passes), m);
    NothingRedone([op], passes);
  }

  lemma {:induction false} NothingRedone(ops: seq<Op>, passes: seq<nat>)
    requires |ops| == 1 && Partial(ops, passes)
    ensures Redone(ops, passes) == []
  {
    if passes != [] {
      NothingRedone(ops, passes[..|passes| - 1]);
    }
  }
}
