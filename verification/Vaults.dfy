/** The vault: ring, tract, index and live set over a mirror, and the protocol that keeps every power cut on a
    committed generation. Module Sessions says what its state keeps as a value; here the steps are taken. */
module Vaults {
  import opened Blocks
  import opened Runs
  import opened Trie
  import opened Media
  import opened Arenas
  import opened Devices
  import opened Mirrors
  import opened Tracts
  import opened Placing
  import opened Hamts
  import opened Rings
  import opened Generations
  import opened Sessions
  import opened Barriers
  import opened Walks
  import opened Batches
  import Moves

  /** What the fence's promise rests on: how often the fence was waived, how many generations overran themselves, whether
      the fence is in force, and the oldest generation of the log not given up. */
  datatype Watch = Watch(waived: nat, strayed: nat, inForce: bool, floor: nat)

  /** In force, with no waiver in between, the fence stays in force and nothing of the window is given up. */
  ghost predicate Watched(w0: Watch, w1: Watch) {
    && w0.waived <= w1.waived && w0.strayed <= w1.strayed && w0.floor <= w1.floor
    && (w0.inForce && w0.waived == w1.waived ==> w1.inForce && w1.floor == w0.floor)
  }

  /** No generation from `from` on overran itself. */
  ghost predicate Straight(log: seq<Gen>, from: nat) {
    forall j :: from <= j < |log| ==> !Overrun(log[j].entry)
  }

  /** A session as told from outside: what each device write left open to a cut, what was committed, and the watch. */
  datatype Trace = Trace(moments: seq<Moment>, log: seq<Gen>, watch: Watch)

  /** From one point of a session to another: more generations, and every cut in between restores one of them, none older
      than the newest at the start, with the window behind it from the floor on. */
  ghost predicate Progress(t0: Trace, t1: Trace, log2: nat) {
    && t0.log != [] && t0.moments <= t1.moments && t0.log <= t1.log && Generations.Linked(t1.log) && Watched(t0.watch, t1.watch)
    && (t1.watch.strayed == t0.watch.strayed ==> Straight(t1.log, |t0.log|))
    && HistoryOk(t1.moments, |t0.moments|, log2, t1.log, |t0.log| - 1, t1.watch.floor)
  }

  lemma {:induction false} ProgressLogs(t0: Trace, t1: Trace, log2: nat)
    requires Progress(t0, t1, log2)
    ensures t0.log != [] && t0.log <= t1.log && t1.log != [] && Generations.Linked(t1.log)
  {
  }

  lemma {:induction false} HistoryLower(history: seq<Moment>, from: nat, log2: nat, log: seq<Gen>, lo: nat, floor: nat, lower: nat)
    requires HistoryOk(history, from, log2, log, lo, floor) && lower <= lo
    ensures HistoryOk(history, from, log2, log, lower, floor)
  {
    hide MomentOk;
    forall i | from <= i < |history|
      ensures MomentOk(history[i], log2, log, lower, floor)
    {
      MomentMore(history[i], log2, log, lo, floor, log, lower, floor);
    }
  }

  lemma {:induction false} ProgressThen(t0: Trace, t1: Trace, t2: Trace, log2: nat)
    requires Progress(t0, t1, log2) && Progress(t1, t2, log2)
    ensures Progress(t0, t2, log2)
  {
    hide HistoryOk, Generations.Linked, Overrun;
    assert forall j :: 0 <= j < |t1.log| ==> t2.log[j] == t1.log[j];
    HistoryLower(t2.moments, |t1.moments|, log2, t2.log, |t1.log| - 1, t2.watch.floor, |t0.log| - 1);
    HistoryMore(t1.moments, t2.moments, |t0.moments|, log2, t1.log, |t0.log| - 1, t1.watch.floor, t2.log, |t0.log| - 1, t2.watch.floor);
  }

  /** One more generation. */
  lemma {:induction false} ProgressNext(t0: Trace, t1: Trace, log2: nat, next: Gen)
    requires Generations.Linked(t0.log) && t1.log == t0.log + [next] && next.entry.prev == Prev(Past(t0.log, 0).entry)
    requires t0.moments <= t1.moments && Watched(t0.watch, t1.watch)
    requires t1.watch.strayed == t0.watch.strayed ==> !Overrun(next.entry)
    requires HistoryOk(t1.moments, |t0.moments|, log2, t1.log, |t0.log| - 1, t1.watch.floor)
    ensures Progress(t0, t1, log2) && Past(t1.log, 0) == next
  {
    hide HistoryOk, Overrun;
    LinkedNext(t0.log, next);
  }

  /** Every generation from `from` on holds one of two maps. */
  ghost predicate OnlyMaps(log: seq<Gen>, from: nat, a: map<Key, Stored>, b: map<Key, Stored>) {
    forall j :: from <= j < |log| ==> log[j].content == a || log[j].content == b
  }

  /** Progress over one current map: what is committed meanwhile is the saved map or that one. */
  ghost predicate Moved(t0: Trace, t1: Trace, log2: nat, b: map<Key, Stored>) {
    Progress(t0, t1, log2) && OnlyMaps(t1.log, |t0.log|, Past(t0.log, 0).content, b)
  }

  /** Nothing committed, nothing written through. */
  lemma {:induction false} MovedStill(t0: Trace, t1: Trace, log2: nat, b: map<Key, Stored>)
    requires Generations.Linked(t0.log) && t1.moments == t0.moments && t1.log == t0.log && Watched(t0.watch, t1.watch)
    ensures Moved(t0, t1, log2, b)
  {
  }

  lemma {:induction false} MovedLogs(t0: Trace, t1: Trace, log2: nat, b: map<Key, Stored>)
    requires Moved(t0, t1, log2, b)
    ensures Progress(t0, t1, log2) && OnlyMaps(t1.log, |t0.log|, Past(t0.log, 0).content, b)
    ensures t0.log != [] && t0.log <= t1.log && t1.log != [] && Generations.Linked(t1.log)
    ensures Past(t1.log, 0).content == Past(t0.log, 0).content || Past(t1.log, 0).content == b
  {
    hide HistoryOk, Generations.Linked;
    assert |t1.log| == |t0.log| ==> t1.log == t0.log;
  }

  /** Steps over one current map, or over the saved one: what they commit is the first saved map or that one. */
  lemma {:induction false} MovedThen(t0: Trace, t1: Trace, t2: Trace, log2: nat, b: map<Key, Stored>, c: map<Key, Stored>)
    requires Moved(t0, t1, log2, b) && Moved(t1, t2, log2, c)
    requires t1.log != [] ==> c == b || c == Past(t1.log, 0).content
    ensures Moved(t0, t2, log2, b)
  {
    MovedLogs(t0, t1, log2, b);
    MovedLogs(t1, t2, log2, c);
    ProgressThen(t0, t1, t2, log2);
    hide Progress;
    assert forall j :: 0 <= j < |t1.log| ==> t2.log[j] == t1.log[j];
    assert Past(t1.log, 0).content == Past(t0.log, 0).content || Past(t1.log, 0).content == b;
  }

  /** Nothing committed, only written through. */
  lemma {:induction false} MovedHistory(t0: Trace, t1: Trace, log2: nat, b: map<Key, Stored>)
    requires Generations.Linked(t0.log) && t1.log == t0.log && t1.watch == t0.watch && t0.moments <= t1.moments
    requires HistoryOk(t1.moments, |t0.moments|, log2, t1.log, |t0.log| - 1, t1.watch.floor)
    ensures Moved(t0, t1, log2, b)
  {
    hide HistoryOk;
  }

  /** One more generation, of the saved map or the current one. */
  lemma {:induction false} MovedOne(t0: Trace, t1: Trace, log2: nat, b: map<Key, Stored>)
    requires Progress(t0, t1, log2) && |t1.log| == |t0.log| + 1
    requires Past(t1.log, 0).content == b || (t0.log != [] && Past(t1.log, 0).content == Past(t0.log, 0).content)
    ensures Moved(t0, t1, log2, b)
  {
    hide HistoryOk, Generations.Linked;
  }

  /** Over a saved map that is the current one nothing else is saved. */
  lemma {:induction false} MovedSame(t0: Trace, t1: Trace, log2: nat, b: map<Key, Stored>)
    requires Moved(t0, t1, log2, b) && t0.log != [] && Past(t0.log, 0).content == b
    ensures t1.log != [] && Past(t1.log, 0).content == b
  {
    MovedLogs(t0, t1, log2, b);
  }

  /** A step over the first current map or the saved one, after which the saved one may have become current. */
  lemma {:induction false} MovedOn(t0: Trace, t1: Trace, t2: Trace, log2: nat, b: map<Key, Stored>, c: map<Key, Stored>)
    requires Moved(t0, t1, log2, b) && Moved(t1, t2, log2, c) && t1.log != [] && (c == b || c == Past(t1.log, 0).content)
    ensures Moved(t0, t2, log2, b) && t2.log != [] && (c == b || c == Past(t2.log, 0).content)
  {
    hide Moved;
    MovedThen(t0, t1, t2, log2, b, c);
    MovedLogs(t1, t2, log2, c);
  }

  lemma {:induction false} FoldNothing(m: map<Key, Stored>)
    ensures Fold([], m) == m
  {
  }

  /** Generations from `from` on hold the map `a` or what a pass of the operations over `c` commits before its last one. */
  ghost predicate FoldMaps(log: seq<Gen>, from: nat, a: map<Key, Stored>, ops: seq<Op>, c: map<Key, Stored>) {
    forall j :: from <= j < |log| ==> log[j].content == a || IsPart(ops, c, log[j].content)
  }

  lemma {:induction false} NoFolds(log: seq<Gen>, a: map<Key, Stored>, ops: seq<Op>, c: map<Key, Stored>)
    ensures FoldMaps(log, |log|, a, ops, c)
  {
  }

  lemma {:induction false} FoldMapsNext(t0: Trace, t1: Trace, t2: Trace, log2: nat, ops: seq<Op>, i: nat, c: map<Key, Stored>)
    requires i < |ops| && Progress(t0, t1, log2) && Moved(t1, t2, log2, Fold(ops[..i], c))
    requires FoldMaps(t1.log, |t0.log|, Past(t0.log, 0).content, ops, c)
    ensures Progress(t0, t2, log2) && FoldMaps(t2.log, |t0.log|, Past(t0.log, 0).content, ops, c)
  {
    ProgressLogs(t0, t1, log2);
    MovedLogs(t1, t2, log2, Fold(ops[..i], c));
    ProgressThen(t0, t1, t2, log2);
    hide Progress, Generations.Linked;
    assert forall j :: 0 <= j < |t1.log| ==> t2.log[j] == t1.log[j];
    assert forall j :: 0 <= j < |t0.log| ==> t1.log[j] == t0.log[j];
    assert IsPart(ops, c, Fold(ops[..i], c));
  }

  /** A map the batch may commit over `m`: one on its way, or the whole fold. */
  ghost predicate MayCommit(ops: seq<Op>, m: map<Key, Stored>, x: map<Key, Stored>) {
    OnTheWay(ops, m, x) || x == Fold(ops, m)
  }

  /** A map the batch may leave: begun over the current map `b`, and again over the saved one, which is `a` until the batch
      itself commits. */
  ghost predicate MayLeave(ops: seq<Op>, a: map<Key, Stored>, b: map<Key, Stored>, x: map<Key, Stored>) {
    MayCommit(ops, a, x) || MayCommit(ops, b, x)
  }

  ghost predicate OnEitherWay(ops: seq<Op>, a: map<Key, Stored>, b: map<Key, Stored>, x: map<Key, Stored>) {
    OnTheWay(ops, a, x) || OnTheWay(ops, b, x)
  }

  ghost predicate EitherFold(ops: seq<Op>, a: map<Key, Stored>, b: map<Key, Stored>, x: map<Key, Stored>) {
    x == Fold(ops, a) || x == Fold(ops, b)
  }

  lemma {:induction false} SameFold(ops: seq<Op>, a: map<Key, Stored>, b: map<Key, Stored>, x: map<Key, Stored>)
    ensures a == b && EitherFold(ops, a, b, x) ==> x == Fold(ops, b)
  {
  }

  lemma {:induction false} EitherStart(ops: seq<Op>, a: map<Key, Stored>, b: map<Key, Stored>)
    ensures OnEitherWay(ops, a, b, a) && OnEitherWay(ops, a, b, b)
  {
    hide OnTheWay;
    StartOnTheWay(ops, a);
    StartOnTheWay(ops, b);
  }

  lemma {:induction false} EitherLeft(ops: seq<Op>, a: map<Key, Stored>, b: map<Key, Stored>, x: map<Key, Stored>)
    ensures OnEitherWay(ops, a, b, x) || EitherFold(ops, a, b, x) ==> MayLeave(ops, a, b, x)
  {
    hide OnTheWay, Fold;
  }

  /** A pass over a map on the way leaves one on the way, and its end is the end. */
  lemma {:induction false} EitherFurther(ops: seq<Op>, a: map<Key, Stored>, b: map<Key, Stored>, c: map<Key, Stored>, x: map<Key, Stored>)
    requires OnEitherWay(ops, a, b, c)
    ensures IsPart(ops, c, x) ==> OnEitherWay(ops, a, b, x)
    ensures x == Fold(ops, c) ==> EitherFold(ops, a, b, x)
  {
    hide OnTheWay, IsPart;
    if OnTheWay(ops, a, c) {
      EndOfTheWay(ops, a, c);
      if IsPart(ops, c, x) {
        FurtherOnTheWay(ops, a, c, x);
      }
    } else {
      EndOfTheWay(ops, b, c);
      if IsPart(ops, c, x) {
        FurtherOnTheWay(ops, b, c, x);
      }
    }
  }

  /** Every generation from `from` on is one the batch may leave. */
  ghost predicate WayMaps(log: seq<Gen>, from: nat, ops: seq<Op>, a: map<Key, Stored>, b: map<Key, Stored>) {
    forall j :: from <= j < |log| ==> MayLeave(ops, a, b, log[j].content)
  }

  /** Progress whose every generation is one the batch may leave. */
  ghost predicate Underway(t0: Trace, t1: Trace, log2: nat, ops: seq<Op>, a: map<Key, Stored>, b: map<Key, Stored>) {
    Progress(t0, t1, log2) && WayMaps(t1.log, |t0.log|, ops, a, b)
  }

  lemma {:induction false} UnderwayLogs(t0: Trace, t1: Trace, log2: nat, ops: seq<Op>, a: map<Key, Stored>, b: map<Key, Stored>)
    requires Underway(t0, t1, log2, ops, a, b)
    ensures Progress(t0, t1, log2) && t0.log != [] && t0.log <= t1.log && t1.log != []
  {
    hide WayMaps, Progress;
    ProgressLogs(t0, t1, log2);
  }

  lemma {:induction false} UnderwayThen(t0: Trace, t1: Trace, t2: Trace, log2: nat, ops: seq<Op>, a: map<Key, Stored>, b: map<Key, Stored>)
    requires Underway(t0, t1, log2, ops, a, b) && Underway(t1, t2, log2, ops, a, b)
    ensures Underway(t0, t2, log2, ops, a, b)
  {
    ProgressLogs(t0, t1, log2);
    ProgressLogs(t1, t2, log2);
    ProgressThen(t0, t1, t2, log2);
    hide Progress, MayLeave;
    assert forall j :: 0 <= j < |t1.log| ==> t2.log[j] == t1.log[j];
  }

  /** Steps over a map the batch may leave. */
  lemma {:induction false} UnderwayMoved(t0: Trace, t1: Trace, log2: nat, ops: seq<Op>, a: map<Key, Stored>, b: map<Key, Stored>,
                                         c: map<Key, Stored>)
    requires t0.log != [] && Moved(t0, t1, log2, c) && MayLeave(ops, a, b, Past(t0.log, 0).content) && MayLeave(ops, a, b, c)
    ensures Underway(t0, t1, log2, ops, a, b) && t1.log != [] && MayLeave(ops, a, b, Past(t1.log, 0).content)
    ensures OnEitherWay(ops, a, b, Past(t0.log, 0).content) && OnEitherWay(ops, a, b, c) ==> OnEitherWay(ops, a, b, Past(t1.log, 0).content)
  {
    MovedLogs(t0, t1, log2, c);
    hide MayLeave, OnEitherWay, Progress;
  }

  /** A pass over a map on the way. */
  lemma {:induction false} UnderwayFold(t0: Trace, t1: Trace, log2: nat, ops: seq<Op>, a: map<Key, Stored>, b: map<Key, Stored>,
                                        c: map<Key, Stored>)
    requires t0.log != [] && Progress(t0, t1, log2) && FoldMaps(t1.log, |t0.log|, Past(t0.log, 0).content, ops, c)
    requires OnEitherWay(ops, a, b, Past(t0.log, 0).content) && OnEitherWay(ops, a, b, c)
    ensures Underway(t0, t1, log2, ops, a, b) && t1.log != [] && OnEitherWay(ops, a, b, Past(t1.log, 0).content)
  {
    ProgressLogs(t0, t1, log2);
    hide OnEitherWay, Progress, MayLeave, IsPart;
    forall j | |t0.log| <= j < |t1.log|
      ensures OnEitherWay(ops, a, b, t1.log[j].content) && MayLeave(ops, a, b, t1.log[j].content)
    {
      EitherFurther(ops, a, b, c, t1.log[j].content);
      EitherLeft(ops, a, b, t1.log[j].content);
    }
    assert |t1.log| == |t0.log| ==> t1.log == t0.log;
  }

  /** Every generation from `from` on holds a prefix of the fold. */
  ghost predicate PrefixMaps(log: seq<Gen>, from: nat, ops: seq<Op>, m: map<Key, Stored>) {
    forall j :: from <= j < |log| ==> IsPrefix(ops, m, log[j].content)
  }

  lemma {:induction false} PrefixMapsThen(t0: Trace, t1: Trace, t2: Trace, log2: nat, ops: seq<Op>, m: map<Key, Stored>)
    requires t0.log != [] && Past(t0.log, 0).content == m && Progress(t0, t1, log2) && Moved(t1, t2, log2, Fold(ops, m))
    requires PrefixMaps(t1.log, |t0.log|, ops, m)
    ensures PrefixMaps(t2.log, |t0.log|, ops, m)
  {
    ProgressLogs(t0, t1, log2);
    MovedLogs(t1, t2, log2, Fold(ops, m));
    hide Progress;
    assert ops[..|ops|] == ops && IsPrefix(ops, m, Fold(ops, m));
    StartOnTheWay(ops, m);
    assert forall j :: 0 <= j < |t1.log| ==> t2.log[j] == t1.log[j];
    assert forall j :: 0 <= j < |t0.log| ==> t1.log[j] == t0.log[j];
  }

  lemma {:induction false} WaysArePrefixes(log: seq<Gen>, from: nat, ops: seq<Op>, m: map<Key, Stored>)
    requires Replayable(ops) && WayMaps(log, from, ops, m, m)
    ensures PrefixMaps(log, from, ops, m)
  {
    hide OnTheWay, Replayable;
    assert ops[..|ops|] == ops && IsPrefix(ops, m, Fold(ops, m));
    forall j | from <= j < |log|
      ensures IsPrefix(ops, m, log[j].content)
    {
      assert MayLeave(ops, m, m, log[j].content);
      if OnTheWay(ops, m, log[j].content) {
        WayIsPrefix(ops, m, log[j].content);
      }
    }
  }

  /** What a batch may have committed: maps on its way or the whole fold; only prefixes of the fold when nothing was
      replayed, and always when the batch is replayable. */
  ghost predicate Landed(log: seq<Gen>, from: nat, ops: seq<Op>, m: map<Key, Stored>, replayed: bool) {
    WayMaps(log, from, ops, m, m) && (!replayed || Replayable(ops) ==> PrefixMaps(log, from, ops, m))
  }

  lemma {:induction false} FirstLanded(t0: Trace, t1: Trace, log2: nat, ops: seq<Op>, m: map<Key, Stored>, replayed: bool)
    requires t0.log != [] && Past(t0.log, 0).content == m && Underway(t0, t1, log2, ops, m, m)
    requires !replayed ==> FoldMaps(t1.log, |t0.log|, m, ops, m)
    ensures Landed(t1.log, |t0.log|, ops, m, replayed)
  {
    hide Progress;
    if !replayed {
      StartOnTheWay(ops, m);
    } else if Replayable(ops) {
      WaysArePrefixes(t1.log, |t0.log|, ops, m);
    }
  }

  lemma {:induction false} LandedWays(log: seq<Gen>, from: nat, ops: seq<Op>, m: map<Key, Stored>, replayed: bool)
    requires Landed(log, from, ops, m, replayed)
    ensures WayMaps(log, from, ops, m, m)
  {
  }

  lemma {:induction false} LandedThen(t0: Trace, t1: Trace, t2: Trace, log2: nat, ops: seq<Op>, m: map<Key, Stored>, first: bool, second: bool)
    requires t0.log != [] && Past(t0.log, 0).content == m && Progress(t0, t1, log2) && Underway(t1, t2, log2, ops, m, m)
    requires Landed(t1.log, |t0.log|, ops, m, first) && (!second ==> Moved(t1, t2, log2, Fold(ops, m)))
    ensures Landed(t2.log, |t0.log|, ops, m, first || second)
  {
    hide MayLeave, Fold, Replayable, IsPrefix, Progress, Moved;
    UnderwayThen(t0, t1, t2, log2, ops, m, m);
    if !first && !second {
      PrefixMapsThen(t0, t1, t2, log2, ops, m);
    } else if Replayable(ops) {
      WaysArePrefixes(t2.log, |t0.log|, ops, m);
    }
  }

  lemma {:induction false} OneOp(op: Op, m: map<Key, Stored>)
    ensures Fold([op], m) == Step(m, op)
  {
    FoldNext([op], 0, m);
    assert [op][..1] == [op] && [op][..0] == [];
  }

  /** A single operation is done or not, over the one map or the other. */
  lemma {:induction false} OneOpLeft(op: Op, a: map<Key, Stored>, b: map<Key, Stored>, x: map<Key, Stored>)
    requires MayLeave([op], a, b, x)
    ensures x == a || x == b || x == Step(a, op) || x == Step(b, op)
  {
    hide OnTheWay;
    OneOp(op, a);
    OneOp(op, b);
    if OnTheWay([op], a, x) {
      OneOpWay(op, a, x);
    }
    if OnTheWay([op], b, x) {
      OneOpWay(op, b, x);
    }
  }

  lemma {:induction false} OneOpWays(log: seq<Gen>, from: nat, op: Op, m: map<Key, Stored>)
    requires WayMaps(log, from, [op], m, m)
    ensures OnlyMaps(log, from, m, Step(m, op))
  {
    hide MayLeave;
    forall j | from <= j < |log|
      ensures log[j].content == m || log[j].content == Step(m, op)
    {
      OneOpLeft(op, m, m, log[j].content);
    }
  }

  lemma {:induction false} LiveKept(v: Medium, w: Medium, sv: map<nat, Block>, sw: map<nat, Block>, from: nat, to: nat,
                                    live: map<nat, Doc>, positions: set<nat>)
    requires LiveTrue(v, live) && live.Keys <= positions && Appended(v, w, sv, sw, from, to) && Lap(from, to, v.len) !! positions
    ensures LiveTrue(w, live)
  {
    hide Lap, Appended;
    AppendedOrder(v, w, sv, sw, from, to);
    AppendedKeeps(v, w, sv, sw, from, to, positions);
    forall lba | lba in live
      ensures SealedAt(w, lba, live[lba])
    {
      assert SealedAt(v, lba, live[lba]);
    }
  }

  lemma {:induction false} LiveSame(v: Medium, w: Medium, live: map<nat, Doc>)
    requires LiveTrue(v, live) && SameTract(v, w)
    ensures LiveTrue(w, live)
  {
    forall lba | lba in live
      ensures SealedAt(w, lba, live[lba])
    {
      assert SealedAt(v, lba, live[lba]);
    }
  }

  lemma {:induction false} LiveLonger(v: Medium, w: Medium, live: map<nat, Doc>)
    requires LiveTrue(v, live) && Keeps(v, w, live.Keys)
    ensures LiveTrue(w, live)
  {
    forall lba | lba in live
      ensures SealedAt(w, lba, live[lba])
    {
      assert SealedAt(v, lba, live[lba]);
    }
  }

  lemma {:induction false} RealignedAbove(plow: nat, from: nat, to: nat)
    requires 0 < from < to && plow % to == from
    ensures plow >= from
  {
    ModSmall(plow % to, to);
    assert plow < to ==> plow % to == plow;
  }

  /** A flush that wrote nothing and finished left the index as it was. */
  lemma {:induction false} NothingFlushed(t: Tree, u: Tree, d: Delta, e: Delta, v: Medium, from: nat, to: nat, len: Positive)
    requires Flushed(t, u, [], from, to, len) && Accounted(v, t, u, d, e, Lap(from, to, len)) && e == Delta([], []) && !IsDirty(u)
    ensures !IsDirty(t) && u == t && d == Delta([], [])
  {
    NoLbas();
    LapSome(from, to, len);
  }

  lemma {:induction false} LapSome(from: nat, to: nat, len: Positive)
    ensures from < to ==> Lap(from, to, len) != {}
  {
    assert from < to ==> from % len in Lap(from, to, len);
  }

  /** Generations at the head's budget after so many heartbeats, as far as the window reaches. */
  function Rungs(attempts: nat): nat {
    if attempts + 1 < FENCE_K then attempts + 1 else FENCE_K
  }

  lemma {:induction false} BeatenParts(disk: seq<Block>, after: seq<Block>, log2: nat, log: seq<Gen>, more: seq<Gen>, fence: Option<nat>)
    requires Beaten(disk, after, log2, log, more, fence)
    ensures log != [] && more != [] && fence == Fence(after, log2, Past(more, 0).entry)
    ensures Past(more, 0).entry.reap == Past(log, 0).entry.reap && Past(more, 0).entry.tract == Past(log, 0).entry.tract
    ensures Budget(Past(more, 0).entry) == Budget(Past(log, 0).entry)
    ensures more == log + [Past(more, 0)] && Past(more, 0).content == Past(log, 0).content
  {
  }

  /** One heartbeat written and the fence recomputed over it. */
  ghost predicate Beaten(disk: seq<Block>, after: seq<Block>, log2: nat, log: seq<Gen>, more: seq<Gen>, fence: Option<nat>) {
    && log != [] && |more| == |log| + 1 && more == log + [Past(more, 0)]
    && Beats(Past(log, 0).entry, Past(more, 0).entry) && Past(more, 0).content == Past(log, 0).content
    && Pow2(log2) <= |disk|
    && after == disk[Past(more, 0).entry.gen % Pow2(log2) := Spine(Past(more, 0).entry)]
    && fence == Fence(after, log2, Past(more, 0).entry)
  }

  lemma {:induction false} BeatenBy(disk: seq<Block>, after: seq<Block>, log2: nat, log: seq<Gen>, e: Entry, fence: Option<nat>)
    requires log != [] && Beats(Past(log, 0).entry, e) && Pow2(log2) <= |disk|
    requires after == disk[e.gen % Pow2(log2) := Spine(e)] && fence == Fence(after, log2, e)
    ensures Beaten(disk, after, log2, log, log + [Gen(e, Past(log, 0).content)], fence)
  {
    hide Fence, Pow2;
  }

  /** The live set of a committed root, walked from the device. */
  method LiveOf(m: Mirror, t: Tract, root: Tree) returns (r: Result<LiveSet>)
    requires m.Valid() && (root.Nil? || Blocks.Committed(root))
    requires Sound(root, []) && Once(root) && Held(t.View(m), root)
    ensures r.Ok? && fresh(r.value) && LiveTrue(t.View(m), r.value.map_) && r.value.Positions() == Pos(root)
  {
    hide Sound, Once, Held, Pos, Healthy, RefsTrue, Reached, Under, Apart, Last, Flat, Overlay, CacheSorted, CacheTrue, Lbas, Elems;
    var walk := new Walk(root, t.len);
    StartSane(t.View(m), root, walk);
    var done := walk.Run(m, t);
    if done.Err? {
      return Err(Error.Corrupt);
    }
    var live := new LiveSet();
    live.Load(walk.found, walk.referenced, t.View(m));
    return Ok(live);
  }

  class Vault {
    const m: Mirror
    const ring: Ring
    const tract: Tract
    var hamt: Hamt
    var live: LiveSet
    /** Where the reap will stand once the next commit retires the window reaped last. */
    var pending: Option<nat>
    /** Where the plow stood when the pending edits began. */
    ghost var since: nat
    /** How often the fence was waived, and how many generations overran themselves. */
    ghost var waived: nat
    ghost var strayed: nat
    /** The oldest generation of the log not given up, and what it was when the plow was last put back. */
    ghost var floor: nat
    ghost var taken: nat
    /** Every generation committed in this session, behind those it was opened on. */
    ghost var log: seq<Gen>

    constructor (m: Mirror, ring: Ring, tract: Tract, hamt: Hamt, live: LiveSet, ghost floor: nat, ghost log: seq<Gen>)
      ensures this.m == m && this.ring == ring && this.tract == tract && this.hamt == hamt && this.live == live
      ensures pending == None && since == tract.plow && this.floor == taken == floor && this.log == log
      ensures waived == 0 && strayed == 0
    {
      this.m, this.ring, this.tract, this.hamt, this.live := m, ring, tract, hamt, live;
      pending := None;
      this.since, this.waived, this.strayed, this.floor, this.taken, this.log := tract.plow, 0, 0, floor, floor, log;
    }

    ghost function Snap(): State
      requires m.Prim() != null
      reads this, m, m.a, m.b, ring, tract, hamt, live
    {
      State(m.disk, m.Durable(), m.Staged(), ring.log2, tract.len, tract.plow, tract.reap, tract.fence,
            hamt.Index(), hamt.delta, live.Positions(), pending, since, floor, taken, log)
    }

    ghost predicate Valid()
      reads this, m, m.a, m.b, ring, tract, hamt, live
    {
      && m.Valid() && hamt.Valid() && tract.base == Pow2(ring.log2)
      && log != [] && ring.head == Some(Past(log, 0).entry)
      && LiveTrue(tract.View(m), live.map_)
      && Good(Snap())
    }

    /** The map a read answers from, pending edits included. */
    ghost function Current(): map<Key, Stored>
      reads this`hamt, m, tract, hamt
    {
      Content(tract.View(m), hamt.Index())
    }

    /** The map of the committed head. */
    ghost function Saved(): map<Key, Stored>
      requires log != []
      reads this`log
    {
      Past(log, 0).content
    }

    ghost function History(): seq<Moment>
      requires m.Prim() != null
      reads m, m.a, m.b
    {
      m.History()
    }

    ghost function Watching(): Watch
      reads this`waived, this`strayed, this`floor, tract`fence
    {
      Watch(waived, strayed, tract.fence.Some?, floor)
    }

    ghost function Traced(): Trace
      requires m.Prim() != null
      reads this`waived, this`strayed, this`floor, this`log, tract`fence, m, m.a, m.b
    {
      Trace(History(), log, Watching())
    }

    predicate HasUncommitted()
      reads this`hamt, hamt
    {
      hamt.HasUncommitted()
    }

    /** The head's commit overran it. */
    ghost predicate Overran()
      reads this`log
    {
      log != [] && Overrun(Past(log, 0).entry)
    }

    /** The head's commit overran it, or the window staged reaches past where the pending edits began, so that the next may. */
    ghost predicate Astray()
      reads this`log, this`pending, this`since
    {
      Overran() || (pending.Some? && pending.value > since)
    }

    // -------------------------------------------------------------- what validity gives

    lemma {:induction false} Present()
      requires m.Valid()
      ensures m.Prim() != null
    {
    }

    lemma {:induction false} Alive()
      requires Valid()
      ensures m.Prim() != null && log != [] && ring.head == Some(Past(log, 0).entry) && floor <= |log|
    {
      GoodHas(Snap());
    }

    lemma {:induction false} Told()
      requires m.Prim() != null
      ensures Traced() == Trace(History(), log, Watching()) && History() == m.History()
      ensures Watching() == Watch(waived, strayed, tract.fence.Some?, floor)
      ensures log != [] ==> Saved() == Past(log, 0).content
    {
    }

    /** Nothing has been written through since `t0`. */
    lemma {:induction false} Still(t0: Trace, b: map<Key, Stored>)
      requires Valid() && t0.log == log && m.Prim() != null && t0.moments == History() && Watched(t0.watch, Watching())
      ensures Moved(t0, Traced(), ring.log2, b) && Progress(t0, Traced(), ring.log2)
    {
      GoodHas(Snap());
      hide Good, Generations.Linked, Vault.Valid;
      MovedStill(t0, Traced(), ring.log2, b);
      MovedLogs(t0, Traced(), ring.log2, b);
    }

    /** What a step starts from. */
    lemma {:induction false} Begin(b: map<Key, Stored>)
      requires Valid()
      ensures m.Prim() != null && log != [] && ring.head == Some(Past(log, 0).entry) && floor <= |log|
      ensures Moved(Traced(), Traced(), ring.log2, b) && Progress(Traced(), Traced(), ring.log2)
    {
      hide Vault.Valid, Moved, Progress;
      Alive();
      Still(Traced(), b);
    }

    /** What appends under a fence give up. */
    lemma {:induction false} Floored(s: State, to: nat)
      requires Good(s)
      ensures s.log != [] && s.floor <= |s.log|
      ensures to <= s.plow || (s.fence.Some? && to <= s.fence.value) ==> AfterAppend(s, to) == s.floor
    {
      GoodHas(s);
      hide Cursors, Rooted, Tidy, Fenceable, Intact, MinBudget, AfterAppend;
      if to <= s.plow || (s.fence.Some? && to <= s.fence.value) {
        FenceSpares(s, to);
      }
    }

    lemma {:induction false} Shows()
      requires m.Valid()
      ensures m.disk == Overlay(m.Durable(), m.Staged())
    {
    }

    lemma {:induction false} Ready()
      requires Valid()
      ensures tract.Valid() && Pow2(ring.log2) + tract.len <= |m.disk| && tract.reap <= since <= tract.plow
      ensures ring.Valid(m) && ViewOf(Snap()) == tract.View(m) && Map(Snap()) == Current()
      ensures Poised(tract.View(m), hamt.Index(), hamt.delta, live.Positions(), since, tract.plow)
      ensures hamt.Sane(tract.View(m)) && Home(hamt.Index(), live.Positions(), since, tract.plow, tract.len)
    {
      GoodHas(Snap());
      RestoresFits(m.disk, ring.log2, Past(log, 0));
      hide Pow2, RingHolds, Chained, Classify, Held, Sound, Once, Lap, Lbas, Generations.Linked, Quiet, Lasting;
    }

    /** Back in a good state after guarded appends and an edit of the index. */
    lemma {:induction false} Rejoin(s: State, was: map<nat, Doc>)
      requires Good(s) && m.Valid() && hamt.Valid() && tract.base == Pow2(ring.log2)
      requires log != [] && ring.head == Some(Past(log, 0).entry)
      requires s.durable == m.Durable() && s.log2 == ring.log2 && s.len == tract.len && s.reap == tract.reap && s.fence == tract.fence
      requires s.live == live.Positions() && s.pending == pending && s.since == since && s.taken == taken && s.log == log
      requires LiveTrue(ViewOf(s), live.map_)
      requires Appended(ViewOf(s), tract.View(m), s.staged, m.Staged(), s.plow, tract.plow)
      requires Lap(s.plow, tract.plow, tract.len) !! live.Positions() && tract.plow <= tract.reap + tract.len
      requires Poised(tract.View(m), hamt.Index(), hamt.delta, live.Positions(), since, tract.plow)
      requires s.delta.removed <= hamt.delta.removed && s.floor <= |s.log| && floor == AfterAppend(s, tract.plow)
      requires hamt.delta == Delta([], []) && !IsDirty(hamt.Index()) ==> hamt.Index() == Head(s).root
      ensures Valid()
    {
      hide Good, Appended, Lap, Poised, LiveTrue, AfterAppend, Pow2;
      Shows();
      var v := tract.View(m);
      assert v.disk == m.disk && v.base == Pow2(ring.log2) && v.len == tract.len;
      EditKeeps(s, v, m.Staged(), tract.plow, hamt.Index(), hamt.delta);
      assert Snap() == Edited(s, v, m.Staged(), tract.plow, hamt.Index(), hamt.delta);
      LiveKept(ViewOf(s), v, s.staged, m.Staged(), s.plow, tract.plow, live.map_, live.Positions());
    }

    // -------------------------------------------------------------- commit

    /** Write the dirty index out; refused midway, it still denotes the same map. */
    method FlushIndex() returns (r: Result<Tree>)
      requires Valid()
      modifies this`floor, hamt, tract`plow, m`pending, m`cache, m`disk
      ensures Valid() && Current() == old(Current()) && History() == old(History()) && m.Prim() == old(m.Prim())
      ensures r.Ok? ==> hamt.Index() == r.value && !IsDirty(r.value)
      ensures r.Err? ==> r.error == TractFull || (r.error == Fenced(tract.plow) && tract.FenceBinds())
      ensures old(!hamt.HasUncommitted()) ==> r.Ok? && hamt.Index() == old(hamt.Index()) && hamt.delta == Delta([], [])
      ensures r.Ok? ==> !hamt.root.InArena?
      ensures SameRing(old(m.disk), m.disk, Pow2(ring.log2)) && Watched(old(Watching()), Watching())
    {
      hide Good, Appended, Lap, Poised, LiveTrue, Pow2, Wf, Tr, Sound, Once, Held, Home, Flushed, Accounted, Content, Overlay, Last, Flat,
           CacheSorted, CacheTrue;
      ghost var s := Snap();
      Ready();
      hamt.DirtyRoot();
      r := hamt.Flush(m, tract, live, since);
      Floored(s, tract.plow);
      floor := AfterAppend(s, tract.plow);
      hamt.DirtyRoot();
      FlushPoised(ViewOf(s), tract.View(m), s.staged, m.Staged(), s.index, hamt.Index(), s.delta, hamt.delta, s.live, since, s.plow, tract.plow);
      SettlesFlushed(s, tract.View(m), hamt.Index(), hamt.delta, tract.plow);
      AppendedRing(ViewOf(s), tract.View(m), s.staged, m.Staged(), s.plow, tract.plow);
      Rejoin(s, live.map_);
    }

    /** Write one entry over the ring's next slot and recompute the fence. Every cut meanwhile restores the head or,
        once its slot has landed whole, the generation the entry commits, with the window behind either. */
    method AppendEntry(e: Entry, ghost content: map<Key, Stored>) returns (r: Result<()>)
      requires m.Valid() && ring.Valid(m) && log != [] && ring.head == Some(Past(log, 0).entry)
      requires Draining(m.Durable(), m.Staged(), ring.log2, log, floor)
      requires Writing(m.disk, ring.log2, log, Gen(e, content), floor)
      modifies this`log, ring`head, tract`fence, m, m.a, m.b
      ensures m.Prim() == old(m.Prim()) && (m.b == old(m.b) || m.b == null)
      ensures log == old(log) + [Gen(e, content)] && old(History()) <= History()
      ensures HistoryOk(History(), |old(History())|, ring.log2, log, |old(log)| - 1, floor)
      ensures r.Err? ==> Down(r.error) && tract.fence == old(tract.fence)
      ensures r.Ok? ==> m.Valid() && m.Durable() == m.disk && m.Staged() == map[] && ring.Valid(m) && ring.head == Some(e)
      ensures r.Ok? ==> e.gen % Pow2(ring.log2) < |m.disk| && m.disk == old(m.disk)[e.gen % Pow2(ring.log2) := Spine(e)]
      ensures r.Ok? ==> tract.fence == Fence(m.disk, ring.log2, e)
    {
      hide RingHolds, Classify, Restores, Stands, Pos, Devices.Moves, Spined, Chained, Pow2, Last, Flat, Overlay, CacheSorted, CacheTrue,
           StagedOff, Budgets,
           Draining, Deepens, NextDeep, Writing, Rings.Ring.Valid;
      ghost var h0, durable, staged, disk, next := History(), m.Durable(), m.Staged(), m.disk, Gen(e, content);
      WritingFits(disk, ring.log2, log, next, floor);
      WritesEntry(next);
      var wrote := ring.Append(m, e);
      AppendHistory(History(), |h0|, durable, staged, disk, ring.log2, log, next, floor);
      log := log + [next];
      if wrote.Err? {
        return Err(wrote.error);
      }
      NothingStaged(m.disk);
      var budgets := ring.RecentFences(m);
      tract.fence := FenceFrom(budgets);
      return Ok(());
    }

    lemma {:induction false} WritesEntry(next: Gen)
      requires Writing(m.disk, ring.log2, log, next, floor)
      ensures log != [] && Succeeds(next.entry, ring.log2, Past(log, 0).entry)
      ensures next.entry.prev == Prev(Past(log, 0).entry) && next.entry.gen > Past(log, 0).entry.gen
    {
    }

    /** One more generation: its entry written and logged. Nothing of the window is given up. */
    method Record(e: Entry, ghost content: map<Key, Stored>) returns (r: Result<()>)
      requires m.Valid() && ring.Valid(m) && log != [] && ring.head == Some(Past(log, 0).entry) && Generations.Linked(log)
      requires Draining(m.Durable(), m.Staged(), ring.log2, log, floor)
      requires Writing(m.disk, ring.log2, log, Gen(e, content), floor)
      requires Pow2(ring.log2) <= |m.disk| && (tract.fence.None? || tract.fence == Fence(m.disk, ring.log2, Past(log, 0).entry))
      modifies this`log, this`strayed, ring`head, tract`fence, m, m.a, m.b
      ensures m.Prim() == old(m.Prim()) && (m.b == old(m.b) || m.b == null)
      ensures log == old(log) + [Gen(e, content)] && strayed == old(strayed) + if Overrun(e) then 1 else 0
      ensures Overran() == Overrun(e) && Moved(old(Traced()), Traced(), ring.log2, content)
      ensures r.Err? ==> Down(r.error)
      ensures r.Ok? ==> m.Valid() && m.Durable() == m.disk && m.Staged() == map[] && ring.Valid(m) && ring.head == Some(e)
      ensures r.Ok? ==> e.gen % Pow2(ring.log2) < |m.disk| && m.disk == old(m.disk)[e.gen % Pow2(ring.log2) := Spine(e)]
      ensures r.Ok? ==> tract.fence == Fence(m.disk, ring.log2, e)
    {
      hide *;
      Present();
      Told();
      ghost var t0, disk, next := Traced(), m.disk, Gen(e, content);
      WritesEntry(next);
      strayed := if Overrun(e) then strayed + 1 else strayed;
      r := AppendEntry(e, content);
      if r.Ok? {
        FenceStays(disk, m.disk, ring.log2, Past(t0.log, 0).entry, e);
      }
      Told();
      Recorded(t0.watch, Watching());
      ProgressNext(t0, Traced(), ring.log2, next);
      MovedOne(t0, Traced(), ring.log2, content);
      HeadOverran(e);
    }

    lemma {:induction false} HeadOverran(e: Entry)
      requires log != [] && Past(log, 0).entry == e
      ensures Overran() == Overrun(e)
    {
    }

    lemma {:induction false} Recorded(w0: Watch, w1: Watch)
      requires w1.floor == w0.floor && w1.waived == w0.waived && w0.strayed <= w1.strayed && (w0.inForce ==> w1.inForce)
      ensures Watched(w0, w1)
    {
    }

    /** One more generation of the same root, length and cursors: the map is saved again, and the fence is taken over a
        window that reaches one generation less far back. */
    method AppendHeartbeat(now: int) returns (r: Result<()>)
      requires Valid()
      modifies this`log, this`strayed, ring`head, tract`fence, m, m.a, m.b
      ensures m.Prim() == old(m.Prim()) && (m.b == old(m.b) || m.b == null)
      ensures Moved(old(Traced()), Traced(), ring.log2, old(Saved())) && |log| == |old(log)| + 1
      ensures Overran() == old(Overran()) && (!Overran() ==> strayed == old(strayed))
      ensures r.Err? ==> Down(r.error)
      ensures r.Ok? ==> Valid() && Current() == old(Current()) && Saved() == old(Saved())
      ensures r.Ok? ==> Beaten(old(m.disk), m.disk, ring.log2, old(log), log, tract.fence)
    {
      hide Good, LiveTrue, Pow2, Wf, Tr, Content, Restores, Stands, Pos, StagedOff, Fence, Geometry, Beaten, Moved, Draining, Writing,
           Mirrors.Mirror.Valid, Rings.Ring.Valid, Hamts.Hamt.Valid, Generations.Linked;
      Present();
      ghost var s := Snap();
      var head := ring.head.value;
      var e := Entry(head.gen + 1, Prev(head), ring.log2, head.tract, head.root, head.plow, head.reap, live.Count(), now);
      BeatReady(e);
      r := Record(e, Saved());
      if r.Ok? {
        Wrote(s, e);
      }
    }

    lemma {:induction false} BeatReady(e: Entry)
      requires Valid() && e.gen == Past(log, 0).entry.gen + 1 && e.prev == Prev(Past(log, 0).entry) && e.ringLog2 == ring.log2
      requires var h := Past(log, 0).entry; e.tract == h.tract && e.root == h.root && e.plow == h.plow && e.reap == h.reap
      ensures ring.Valid(m) && Pow2(ring.log2) <= |m.disk| && Beats(Past(log, 0).entry, e) && Generations.Linked(log)
      ensures Draining(m.Durable(), m.Staged(), ring.log2, log, floor)
      ensures Writing(m.disk, ring.log2, log, Gen(e, Saved()), floor) && Overrun(e) == Overran()
      ensures tract.fence.None? || tract.fence == Fence(m.disk, ring.log2, Past(log, 0).entry)
    {
      hide Good, LiveTrue, Pow2, Wf, Tr, Content, Restores, Stands, Pos, StagedOff, Fence, Geometry, Draining, Writing, Generations.Linked;
      Ready();
      HeadStands();
      GoodHas(Snap());
      BeatKeeps(Snap(), e);
    }

    lemma {:induction false} HeadStands()
      requires Valid()
      ensures Past(log, 0).entry.ringLog2 == ring.log2
      ensures Restores(m.Durable(), ring.log2, Past(log, 0)) && Restores(m.disk, ring.log2, Past(log, 0))
      ensures StagedOff(m.Staged(), Pow2(ring.log2), Pos(Past(log, 0).entry.root)) && live.Positions() == Pos(Past(log, 0).entry.root)
    {
      GoodHas(Snap());
    }

    /** The state after a heartbeat is good again. */
    lemma {:induction false} Wrote(s: State, e: Entry)
      requires m.Valid() && hamt.Valid() && tract.base == Pow2(ring.log2) && Good(s) && s.log2 == ring.log2
      requires s.log != [] && log == s.log + [Gen(e, Past(s.log, 0).content)] && ring.head == Some(e) && Beats(Past(s.log, 0).entry, e)
      requires e.gen % Pow2(ring.log2) < |s.disk| && Pow2(ring.log2) <= |s.disk|
      requires Snap() == AfterWrite(s, e, Past(s.log, 0).content) && LiveTrue(ViewOf(s), live.map_)
      ensures Valid() && Map(s) == Current()
      ensures Beaten(s.disk, m.disk, ring.log2, s.log, log, tract.fence)
    {
      hide Good, LiveTrue, Pow2, Wf, Tr, Fence, Beaten, Content, Writes;
      BeatKeeps(s, e);
      var w := AfterWrite(s, e, Past(s.log, 0).content);
      ViewWritten(s, e, Past(s.log, 0).content);
      assert ViewOf(w) == tract.View(m);
      LiveSame(ViewOf(s), ViewOf(w), live.map_);
      assert Past(log, 0) == Gen(e, Past(s.log, 0).content);
      BeatenBy(s.disk, m.disk, ring.log2, s.log, e, tract.fence);
    }

    /** The head's cursors and length are the tract's own: nothing reaped since, nothing grown. */
    ghost predicate AtHead()
      requires log != []
      reads this`log, tract
    {
      Past(log, 0).entry.reap == Some(tract.reap) && Past(log, 0).entry.tract == tract.len
    }

    /** Flush the index; while the fence refuses, heartbeats slide the window under it. The ladder ends, and over a
        ring of at least K slots it ends with room when the tract's reap and length are the head's. */
    method FlushLadder(now: int) returns (r: Result<Tree>)
      requires Valid()
      modifies this`floor, this`log, this`strayed, hamt, ring`head, tract`plow, tract`fence, m, m.a, m.b
      ensures m.Prim() == old(m.Prim()) && (m.b == old(m.b) || m.b == null)
      ensures Moved(old(Traced()), Traced(), ring.log2, old(Saved()))
      ensures Overran() == old(Overran()) && (!Overran() ==> strayed == old(strayed))
      ensures Fine(r) ==> Valid() && Current() == old(Current()) && Saved() == old(Saved())
      ensures r.Ok? ==> hamt.Index() == r.value && !IsDirty(r.value) && !hamt.root.InArena?
      ensures r.Err? ==> Down(r.error) || r.error.TractFull? || r.error.Fenced?
      ensures r.Err? && r.error.Fenced? && Pow2(ring.log2) >= FENCE_K ==> !old(AtHead())
      ensures old(!hamt.HasUncommitted()) ==> r.Ok? && log == old(log) && hamt.Index() == old(hamt.Index()) && hamt.delta == Delta([], [])
    {
      hide *;
      Alive();
      Begin(Saved());
      Told();
      ghost var t0, log0, saved := Traced(), log, Saved();
      AtHeadIs();
      LevelAtHead();
      var attempts := 0;
      while true
        invariant m.Prim() == old(m.Prim()) && (m.b == old(m.b) || m.b == null) && m.Prim() != null
        invariant Valid() && Current() == old(Current()) && log != [] && Saved() == saved && 0 <= attempts <= FENCE_K + 3
        invariant Moved(t0, Traced(), ring.log2, saved) && OnLevel(Past(log0, 0).entry, attempts)
        invariant Overran() == old(Overran()) && (!Overran() ==> strayed == old(strayed))
        invariant old(!hamt.HasUncommitted()) ==> log == log0 && !hamt.HasUncommitted() && hamt.Index() == old(hamt.Index())
        decreases FENCE_K + 3 - attempts
      {
        Told();
        ghost var t1 := Traced();
        r := FlushTry(Past(log0, 0).entry, attempts);
        Told();
        Still(t1, saved);
        MovedThen(t0, t1, Traced(), ring.log2, saved, saved);
        Fineness(r, r);
        if r.Ok? {
          return r;
        }
        if !r.error.Fenced? || attempts > FENCE_K + 2 {
          if attempts > FENCE_K + 2 && Pow2(ring.log2) >= FENCE_K {
            FullWindow(Past(log0, 0).entry, attempts);
          }
          return r;
        }
        ghost var t2 := Traced();
        var beat := Climb(now, Past(log0, 0).entry, attempts);
        Told();
        attempts := attempts + 1;
        MovedThen(t0, t2, Traced(), ring.log2, saved, saved);
        if beat.Err? {
          DownNotFine<(), Tree>(beat);
          return Err(beat.error);
        }
        Alive();
      }
    }

    /** After so many heartbeats since `head` was the newest: that much of the window has the head's budget, and the
        fence is what the window says. */
    ghost predicate OnLevel(head: Entry, attempts: nat)
      reads this, m, ring, tract
    {
      && log != [] && Past(log, 0).entry.reap == head.reap && Past(log, 0).entry.tract == head.tract
      && Budget(Past(log, 0).entry) == Budget(head) && Pow2(ring.log2) <= |m.disk|
      && (Pow2(ring.log2) >= FENCE_K ==> Level(m.disk, ring.log2, log, Rungs(attempts), Budget(head)))
      && (attempts > 0 ==> tract.fence == Fence(m.disk, ring.log2, Past(log, 0).entry))
    }

    /** A flush between two rungs. */
    method FlushTry(ghost head: Entry, ghost attempts: nat) returns (r: Result<Tree>)
      requires Valid() && OnLevel(head, attempts)
      modifies this`floor, hamt, tract`plow, m`pending, m`cache, m`disk
      ensures Valid() && Current() == old(Current()) && History() == old(History()) && OnLevel(head, attempts) && m.Prim() == old(m.Prim())
      ensures r.Ok? ==> hamt.Index() == r.value && !IsDirty(r.value) && !hamt.root.InArena?
      ensures r.Err? ==> r.error == TractFull || (r.error == Fenced(tract.plow) && tract.FenceBinds())
      ensures old(!hamt.HasUncommitted()) ==> r.Ok? && hamt.Index() == old(hamt.Index()) && hamt.delta == Delta([], [])
      ensures Watched(old(Watching()), Watching())
    {
      hide Good, LiveTrue, Pow2, Wf, Tr, Content, Fence, Level, Budget, SameRing, Mirrors.Mirror.Valid, Hamts.Hamt.Valid;
      ghost var disk := m.disk;
      r := FlushIndex();
      StillLevel(disk, head, attempts);
    }

    /** One rung of the ladder. */
    method Climb(now: int, ghost head: Entry, ghost attempts: nat) returns (r: Result<()>)
      requires Valid() && OnLevel(head, attempts)
      modifies this`log, this`strayed, ring`head, tract`fence, m, m.a, m.b
      ensures m.Prim() == old(m.Prim()) && (m.b == old(m.b) || m.b == null)
      ensures Moved(old(Traced()), Traced(), ring.log2, old(Saved()))
      ensures Overran() == old(Overran()) && (!Overran() ==> strayed == old(strayed))
      ensures r.Err? ==> Down(r.error)
      ensures r.Ok? ==> Valid() && Current() == old(Current()) && Saved() == old(Saved()) && OnLevel(head, attempts + 1)
    {
      hide Good, LiveTrue, Pow2, Wf, Tr, Content, Fence, Beaten, Level, Beats, Budget, Moved,
           Mirrors.Mirror.Valid, Rings.Ring.Valid, Hamts.Hamt.Valid;
      ghost var was, disk := log, m.disk;
      LevelFits();
      r := AppendHeartbeat(now);
      if r.Ok? {
        BeatenParts(disk, m.disk, ring.log2, was, log, tract.fence);
        LevelFits();
        if Pow2(ring.log2) >= FENCE_K {
          Rung(disk, was, attempts, Budget(head));
        }
      }
    }

    lemma {:induction false} AtHeadIs()
      requires log != []
      ensures AtHead() <==> Past(log, 0).entry.reap == Some(tract.reap) && Past(log, 0).entry.tract == tract.len
    {
    }

    lemma {:induction false} LevelAtHead()
      requires Valid()
      ensures OnLevel(Past(log, 0).entry, 0)
    {
      GoodHas(Snap());
      LevelStart(m.disk, ring.log2, log);
    }

    lemma {:induction false} LevelFits()
      requires Valid()
      ensures Generations.Linked(log) && Spined(m.disk, ring.log2, Past(log, 0).entry) && Chained(Past(log, 0).entry) && Pow2(ring.log2) <= |m.disk|
    {
      GoodHas(Snap());
    }

    lemma {:induction false} StillLevel(disk: seq<Block>, head: Entry, attempts: nat)
      requires log != [] && SameRing(disk, m.disk, Pow2(ring.log2)) && Pow2(ring.log2) <= |disk|
      requires Past(log, 0).entry.reap == head.reap && Past(log, 0).entry.tract == head.tract && Budget(Past(log, 0).entry) == Budget(head)
      requires Pow2(ring.log2) >= FENCE_K ==> Level(disk, ring.log2, log, Rungs(attempts), Budget(head))
      requires attempts > 0 ==> tract.fence == Fence(disk, ring.log2, Past(log, 0).entry)
      ensures OnLevel(head, attempts)
    {
      hide Fence, Pow2, Level;
      FenceKept(disk, m.disk, ring.log2, Past(log, 0).entry);
      if Pow2(ring.log2) >= FENCE_K {
        LevelKept(disk, m.disk, ring.log2, log, Rungs(attempts), Budget(head));
      }
    }

    lemma {:induction false} Rung(disk: seq<Block>, was: seq<Gen>, attempts: nat, budget: nat)
      requires Beaten(disk, m.disk, ring.log2, was, log, tract.fence) && Level(disk, ring.log2, was, Rungs(attempts), budget)
      requires Pow2(ring.log2) >= FENCE_K && Generations.Linked(was) && Spined(disk, ring.log2, Past(was, 0).entry)
      ensures Level(m.disk, ring.log2, log, Rungs(attempts + 1), budget)
    {
      hide Level, Pow2, Fence, Spined, Generations.Linked;
      var n := if attempts + 1 < FENCE_K then attempts + 1 else FENCE_K - 1;
      LevelLess(disk, ring.log2, was, Rungs(attempts), n, budget);
      assert Past(log, 0).entry.gen % Pow2(ring.log2) < |disk|;
      LevelNext(disk, ring.log2, was, n, budget, Past(log, 0));
    }

    /** With the window full of the head's budget, the fence is the end of clean space: it refuses nothing. */
    lemma {:induction false} FullWindow(head: Entry, attempts: nat)
      requires Valid() && OnLevel(head, attempts) && attempts >= FENCE_K && Pow2(ring.log2) >= FENCE_K
      ensures head.reap == Some(tract.reap) && head.tract == tract.len ==> !tract.FenceBinds()
    {
      hide Good, Fence, Level, Pow2;
      LevelFits();
      LevelFence(m.disk, ring.log2, log, FENCE_K, Budget(head));
    }

    /** The commit point: the flushed root becomes the head's, the staged window retires, the fence is recomputed. */
    method CommitRoot(root: Tree, now: int) returns (r: Result<()>)
      requires Valid() && hamt.Index() == root && !IsDirty(root) && !hamt.root.InArena?
      modifies this, hamt`delta, live, ring`head, tract`reap, tract`fence, m, m.a, m.b
      ensures m.Prim() == old(m.Prim()) && (m.b == old(m.b) || m.b == null) && hamt == old(hamt) && live == old(live)
      ensures Moved(old(Traced()), Traced(), ring.log2, old(Current())) && |log| == |old(log)| + 1
      ensures waived == old(waived) && (old(!Astray()) ==> !Overran() && strayed == old(strayed))
      ensures r.Err? ==> Down(r.error)
      ensures r.Ok? ==> Valid() && Current() == old(Current()) && Saved() == Current()
      ensures r.Ok? ==> !HasUncommitted() && pending == None && AtHead()
      ensures r.Ok? ==> live.Positions() == Pos(Past(log, 0).entry.root) && Past(log, 0).entry.root == root
      ensures r.Ok? ==> tract.fence == Fence(m.disk, ring.log2, Past(log, 0).entry)
    {
      hide Good, LiveTrue, Pow2, Wf, Tr, Content, Pos, Fence, HistoryOk, Lbas, Moved, Mirrors.Mirror.Valid;
      Present();
      ghost var s := Snap();
      SealedLive(s);
      if !Astray() {
        StraightCommit(s);
      }
      ApplyDelta();
      r := WriteCommit(root, now, s);
    }

    /** A window within the pending edits' start crosses nothing. */
    lemma {:induction false} StraightCommit(s: State)
      requires s.pending.Some? ==> s.pending.value <= s.since
      ensures !Crosses(s)
    {
      hide Lbas;
    }

    /** What lies between the delta applied and the entry written. */
    ghost predicate Applied(s: State)
      reads this, m, m.a, m.b, ring, tract, hamt, live
    {
      && m.Valid() && m.Prim() != null && hamt.Valid() && tract.base == Pow2(ring.log2) && s.log2 == ring.log2 && Good(s) && !IsDirty(s.index)
      && log == s.log && log != [] && ring.head == Some(Past(log, 0).entry) && hamt.Index() == s.index && hamt.delta == Delta([], [])
      && m.disk == s.disk && m.Durable() == s.durable && m.Staged() == s.staged
      && tract.len == s.len && tract.plow == s.plow && tract.reap == ReapAfter(s) && tract.fence == s.fence
      && pending == None && floor == s.floor && taken == s.taken && live.Positions() == Pos(s.index) && LiveTrue(ViewOf(s), live.map_)
    }

    method WriteCommit(root: Tree, now: int, ghost s: State) returns (r: Result<()>)
      requires Applied(s) && hamt.Index() == root && !hamt.root.InArena?
      modifies this, ring`head, tract`fence, m, m.a, m.b
      ensures m.Prim() == old(m.Prim()) && (m.b == old(m.b) || m.b == null) && hamt == old(hamt) && live == old(live)
      ensures Moved(old(Traced()), Traced(), ring.log2, Map(s)) && |log| == |old(log)| + 1
      ensures waived == old(waived) && (!Overrun(Head(s)) && !Crosses(s) ==> !Overran() && strayed == old(strayed))
      ensures r.Err? ==> Down(r.error)
      ensures r.Ok? ==> Valid() && Current() == Map(s) && Saved() == Current()
      ensures r.Ok? ==> !HasUncommitted() && pending == None && AtHead()
      ensures r.Ok? ==> Past(log, 0).entry.root == root
      ensures r.Ok? ==> tract.fence == Fence(m.disk, ring.log2, Past(log, 0).entry)
    {
      hide Good, LiveTrue, Pow2, Wf, Tr, Content, Restores, Stands, Pos, StagedOff, Fence, Geometry, Lap, Moved, Draining, Writing,
           Overrun, Crosses, ReapAfter, Map, Mirrors.Mirror.Valid, Rings.Ring.Valid, Hamts.Hamt.Valid, Generations.Linked, AfterCommit,
           AfterWrite, Budget,
           Vault.Valid, Vault.Current, Vault.HasUncommitted, Vault.AtHead, Vault.Snap, ViewOf;
      var head := ring.head.value;
      var e := Entry(head.gen + 1, Prev(head), ring.log2, tract.len, root, tract.plow, Some(tract.reap), live.Count(), now);
      CommitReady(s, e);
      r := Record(e, Map(s));
      if r.Ok? {
        since := tract.plow;
        SealedSnap(s, e);
        Sealed(s, e);
      }
    }

    /** The live set becomes what the flushed root references, and the staged window's reap takes effect. */
    method ApplyDelta()
      requires Valid()
      modifies this`pending, hamt`delta, live, tract`reap
      ensures hamt.delta == Delta([], []) && pending == None && hamt.Valid() && hamt.Index() == old(hamt.Index())
      ensures tract.reap == old(ReapAfter(Snap())) && LiveTrue(tract.View(m), live.map_)
      ensures live.Positions() == old(live.Positions()) + Lbas(old(hamt.delta.added)) - Lbas(old(hamt.delta.removed))
    {
      hide Good, LiveTrue, Pow2, Wf, Tr, Lbas, AddAll, RemoveAll, RefsTrue, Mirrors.Mirror.Valid;
      RefsReady();
      ghost var v := tract.View(m);
      var delta := hamt.TakeDelta();
      live.Apply(delta, v);
      if pending.Some? {
        tract.reap := pending.value;
        pending := None;
      }
    }

    lemma {:induction false} SealedSnap(s: State, e: Entry)
      requires m.Valid() && m.Prim() != null && s.log2 == ring.log2 && Pow2(ring.log2) <= |s.disk| && e.gen % Pow2(ring.log2) < |s.disk|
      requires m.Durable() == m.disk == s.disk[e.gen % Pow2(ring.log2) := Spine(e)] && m.Staged() == map[]
      requires log == s.log + [Gen(e, Map(s))] && hamt.Index() == s.index && hamt.delta == Delta([], [])
      requires tract.len == s.len && tract.plow == since == s.plow && tract.reap == ReapAfter(s) && tract.fence == Fence(m.disk, ring.log2, e)
      requires pending == None && live.Positions() == Pos(s.index) && floor == s.floor && taken == s.taken
      ensures Snap() == AfterCommit(s, e)
    {
      hide Pos, ReapAfter, Map, Fence, Pow2, Mirrors.Mirror.Valid, Wf, Tr;
    }

    lemma {:induction false} CommitReady(s: State, e: Entry)
      requires Applied(s) && Commits(s, e)
      ensures ring.Valid(m) && Pow2(ring.log2) <= |m.disk| && Past(log, 0).entry.ringLog2 == ring.log2 && Generations.Linked(log)
      ensures Draining(m.Durable(), m.Staged(), ring.log2, log, floor)
      ensures Writing(m.disk, ring.log2, log, Gen(e, Map(s)), floor)
      ensures !Overrun(Head(s)) ==> (Overrun(e) <==> Crosses(s))
      ensures tract.fence.None? || tract.fence == Fence(m.disk, ring.log2, Past(log, 0).entry)
    {
      hide Good, LiveTrue, Pow2, Wf, Tr, Content, Stands, Pos, StagedOff, Fence, Geometry, Poised, RingHolds, Chained, Classify, Quiet, Lasting,
           Draining, Writing, Generations.Linked, Intact, Overrun, Crosses;
      GoodHas(s);
      CommitKeeps(s, e);
      if !Overrun(Head(s)) {
        CommitOverruns(s, e);
      }
    }

    lemma {:induction false} RefsReady()
      requires Valid()
      ensures RefsTrue(tract.View(m), hamt.delta.added) && RefsTrue(tract.View(m), hamt.delta.removed)
    {
      GoodHas(Snap());
    }

    /** The state after a commit is good again. */
    lemma {:induction false} Sealed(s: State, e: Entry)
      requires m.Valid() && hamt.Valid() && tract.base == Pow2(ring.log2) && Good(s) && s.log2 == ring.log2
      requires s.log != [] && log == s.log + [Gen(e, Map(s))] && ring.head == Some(e) && Commits(s, e) && !IsDirty(s.index)
      requires e.gen % Pow2(ring.log2) < |s.disk| && Pow2(ring.log2) <= |s.disk|
      requires Snap() == AfterCommit(s, e) && LiveTrue(ViewOf(s), live.map_)
      ensures Valid() && Map(s) == Current() && Past(log, 0) == Gen(e, Map(s))
      ensures !hamt.root.InArena? ==> !HasUncommitted()
      ensures AtHead()
    {
      hide Good, LiveTrue, Pow2, Wf, Tr, Fence, Content, Lap, Pos, Poised, Writes;
      CommitKeeps(s, e);
      var w := AfterCommit(s, e);
      ViewWritten(s, e, Map(s));
      assert ViewOf(w) == tract.View(m);
      LiveSame(ViewOf(s), ViewOf(w), live.map_);
    }

    lemma {:induction false} SealedLive(s: State)
      requires Good(s)
      ensures Pos(s.index) == s.live + Lbas(s.delta.added) - Lbas(s.delta.removed)
    {
      GoodHas(s);
      PoisedFresh(ViewOf(s), s.index, s.delta, s.live, s.since, s.plow);
    }

    /** Ok saves the current map as a generation of its own. A refusal keeps both maps, the reap and the staged window; it
        may leave heartbeats behind. */
    method Commit(now: int) returns (r: Result<()>)
      requires Valid()
      modifies this, hamt, live, ring`head, tract`plow, tract`reap, tract`fence, m, m.a, m.b
      ensures m.Prim() == old(m.Prim()) && (m.b == old(m.b) || m.b == null) && hamt == old(hamt) && live == old(live)
      ensures Moved(old(Traced()), Traced(), ring.log2, old(Current()))
      ensures waived == old(waived) && (old(!Astray()) && Fine(r) ==> !Astray() && strayed == old(strayed))
      ensures Fine(r) ==> Valid() && Current() == old(Current())
      ensures r.Ok? ==> Saved() == Current() && !HasUncommitted() && pending == None && AtHead()
      ensures r.Ok? ==> live.Positions() == Pos(Past(log, 0).entry.root) && |log| > |old(log)|
      ensures r.Err? ==> Down(r.error) || r.error.TractFull? || r.error.Fenced?
      ensures r.Err? && !Down(r.error) ==> Saved() == old(Saved()) && tract.reap == old(tract.reap) && pending == old(pending)
      ensures r.Err? && r.error.Fenced? && Pow2(ring.log2) >= FENCE_K ==> !old(AtHead())
      ensures old(!HasUncommitted()) ==> r.Ok? || Down(r.error)
    {
      hide Vault.Valid, Vault.Current, Progress, Moved, Good, Pos;
      Begin(Current());
      ghost var t0, was, now0 := Traced(), Saved(), Current();
      var root := FlushLadder(now);
      ghost var t1 := Traced();
      MovedThen(t0, t0, t1, ring.log2, now0, was);
      if root.Err? {
        return Err(root.error);
      }
      r := CommitRoot(root.value, now);
      MovedLogs(t0, t1, ring.log2, now0);
      MovedThen(t0, t1, Traced(), ring.log2, now0, now0);
    }

    // -------------------------------------------------------------- back to the head

    /** With nothing uncommitted the vault reads as its head. */
    lemma {:induction false} PristineSaved()
      requires Valid()
      ensures !HasUncommitted() <==> Pristine(Snap())
      ensures !HasUncommitted() ==> hamt.Index() == Past(log, 0).entry.root && Current() == Saved()
    {
      var s := Snap();
      GoodHas(s);
      hamt.DirtyRoot();
      RollbackKeeps(s);
      hide Good, LiveTrue, Pow2, Content, Poised;
      assert tract.View(m) == ViewOf(s) == ViewOf(RolledBack(s)) && Map(RolledBack(s)) == Content(ViewOf(s), Past(log, 0).entry.root);
    }

    lemma {:induction false} HeadRoot()
      requires Valid()
      ensures Past(log, 0).entry.root.Nil? || Blocks.Committed(Past(log, 0).entry.root)
    {
      GoodHas(Snap());
    }

    /** Drop every pending edit and the staged window: the index is the committed head's again. */
    method ReloadHead()
      requires Valid()
      modifies this`hamt, this`pending
      ensures Valid() && Current() == Saved() && !HasUncommitted() && pending == None && fresh(hamt)
    {
      hide Good, LiveTrue, Pow2, Wf, Tr, Content, Mirrors.Mirror.Valid;
      Present();
      HeadRoot();
      ghost var s := Snap();
      RollbackKeeps(s);
      var root := ring.head.value.root;
      hamt := new Hamt(root);
      pending := None;
      assert Snap() == RolledBack(s);
      PristineSaved();
    }

    /** Back to the committed head, never over uncommitted work: that is landed first, and when it cannot land the
        caller, who still holds every item, is told the tract is full. */
    method RollbackToHead(now: int, commitFailed: bool) returns (r: Result<()>)
      requires Valid()
      modifies this, hamt, live, ring`head, tract`plow, tract`reap, tract`fence, m, m.a, m.b
      ensures m.Prim() == old(m.Prim()) && (m.b == old(m.b) || m.b == null) && (hamt == old(hamt) || fresh(hamt)) && live == old(live)
      ensures Moved(old(Traced()), Traced(), ring.log2, old(Current()))
      ensures waived == old(waived) && (old(!Astray()) && Fine(r) ==> !Astray() && strayed == old(strayed))
      ensures Fine(r) ==> Valid() && Current() == old(Current())
      ensures r.Ok? ==> !HasUncommitted() && Saved() == Current() && pending == None
      ensures r.Err? ==> Down(r.error) || r.error.TractFull?
      ensures old(!HasUncommitted()) ==> r.Ok? && log == old(log) && History() == old(History())
    {
      hide Vault.Valid, Vault.Current, Progress, Moved, Good;
      Begin(Current());
      ghost var t0, now0 := Traced(), Current();
      if HasUncommitted() {
        if commitFailed {
          return Err(TractFull);
        }
        var landed := Commit(now);
        if landed.Err? {
          return Err(if Down(landed.error) then landed.error else TractFull);
        }
      }
      PristineSaved();
      ghost var t1 := Traced();
      ReloadHead();
      Still(t1, now0);
      MovedThen(t0, t1, Traced(), ring.log2, now0, now0);
      return Ok(());
    }

    // -------------------------------------------------------------- the reap

    /** A window reaped and held back: lookups and the reap stand as they were, and `pending` says how far the next commit
        may move it. */
    method ReapStaged(w: nat) returns (r: Result<()>)
      requires Valid()
      modifies this`pending, this`since, this`floor, hamt, tract`plow, tract`reap, m`pending, m`cache, m`uses, m`disk
      ensures Valid() && Current() == old(Current()) && History() == old(History()) && tract.reap == old(tract.reap)
      ensures Watched(old(Watching()), Watching())
      ensures r.Err? ==> (r.error.TractFull? || r.error.Fenced? || r.error.Corrupt?) && pending == old(pending)
      ensures r.Ok? ==> pending == Some(old(tract.reap + Min(w, tract.plow - tract.reap)))
      ensures old(!HasUncommitted() && !Astray()) ==> !Astray()
    {
      hide Vault.Valid, Vault.Current, Good, Lap, Lbas;
      Alive();
      ghost var clean := hamt.delta.added == [];
      NoneAdded();
      Lift();
      var end := ReapInto(w);
      if end.Ok? {
        StageAt(end.value);
      }
      r := if end.Ok? then Ok(()) else Err(end.error);
    }

    lemma {:induction false} NoneAdded()
      requires Valid()
      ensures !HasUncommitted() ==> hamt.delta.added == []
    {
      hide Vault.Valid;
      PristineSaved();
    }

    /** With nothing appended yet, the pending edits may be said to begin here. */
    ghost method Lift()
      requires Valid()
      modifies this`since
      ensures Valid() && since >= old(since)
      ensures hamt.delta.added == [] ==> since == tract.plow
    {
      hide Good, LiveTrue, Pow2, Wf, Tr, Content, Mirrors.Mirror.Valid;
      Present();
      Ready();
      if hamt.delta.added == [] {
        LiftKeeps(Snap());
        since := tract.plow;
      }
    }

    /** The cursor a reap reached, held back for the retiring commit. */
    method StageAt(end: nat)
      requires Valid() && tract.reap <= end <= tract.plow
      requires Lap(tract.reap, end, tract.len) * live.Positions() <= Lbas(hamt.delta.removed)
      modifies this`pending
      ensures Valid() && pending == Some(end)
    {
      hide Good, LiveTrue, Pow2, Wf, Tr, Content, Mirrors.Mirror.Valid, Lap, Lbas;
      Present();
      StageReapKeeps(Snap(), end);
      pending := Some(end);
    }

    /** The reap of a window with its cursor put back: everything live in it is retired by the delta. */
    method ReapInto(w: nat) returns (r: Result<nat>)
      requires Valid()
      modifies this`floor, hamt, tract`plow, tract`reap, m`pending, m`cache, m`uses, m`disk
      ensures Valid() && Current() == old(Current()) && History() == old(History()) && tract.reap == old(tract.reap) && tract.plow >= old(tract.plow)
      ensures r.Err? ==> r.error.TractFull? || r.error.Fenced? || r.error.Corrupt?
      ensures r.Ok? ==> r.value == tract.reap + Min(w, old(tract.plow) - tract.reap) && tract.reap <= r.value <= tract.plow
      ensures r.Ok? ==> Lap(tract.reap, r.value, tract.len) * live.Positions() <= Lbas(hamt.delta.removed)
      ensures Watched(old(Watching()), Watching())
    {
      hide Good, Appended, Lap, Lbas, Poised, LiveTrue, Pow2, Wf, Tr, Sound, Once, Held, Home, Content, Overlay, Last, Flat, CacheSorted,
           CacheTrue, Pos, Hamts.Hamt.Valid;
      ghost var s := Snap();
      Ready();
      SettledIndex();
      hamt.DirtyRoot();
      var start := tract.reap;
      var reaped := hamt.ReapWindow(m, tract, live, w, since);
      r := if reaped.Ok? then Ok(tract.reap) else Err(reaped.error);
      tract.reap := start;
      Floored(s, tract.plow);
      floor := AfterAppend(s, tract.plow);
      hamt.DirtyRoot();
      Rejoin(s, live.map_);
    }

    lemma {:induction false} SettledIndex()
      requires Valid()
      ensures hamt.delta == Delta([], []) && !IsDirty(hamt.Index()) ==> hamt.Index() == Past(log, 0).entry.root
    {
      GoodHas(Snap());
    }

    function ReapWindow(): (w: nat)
      reads tract
      ensures w >= REAP_WINDOW_MIN
    {
      WindowOf(tract.len)
    }

    /** Appends the fence still allows. */
    function FenceRoom(): Option<nat>
      reads tract
    {
      if tract.fence.None? then None
      else if tract.fence.value > tract.plow then Some(tract.fence.value - tract.plow) else Some(0)
    }

    /** The window that fits: at most a window, the cap, what is occupied, and what clean space can stage. */
    method FitWindow(cap: nat) returns (w: nat)
      requires Valid()
      ensures w <= cap && w <= ReapWindow() && w <= tract.plow - tract.reap
      ensures w > 0 ==> w + RESERVE <= tract.CleanBlocks()
    {
      hide Good, LiveTrue, Wf, Tr, Pow2;
      Ready();
      var clean := tract.CleanBlocks();
      w := Min(Min(ReapWindow(), cap), tract.plow - tract.reap);
      w := Min(w, if clean > RESERVE then clean - RESERVE else 0);
    }

    /** A window retired and committed (true), or none that fits (false); the map is the same either way. */
    method ReapOneWindow(now: int, cap: nat) returns (r: Result<bool>)
      requires Valid()
      modifies this, hamt, live, ring`head, tract`plow, tract`reap, tract`fence, m, m.a, m.b
      ensures m.Prim() == old(m.Prim()) && (m.b == old(m.b) || m.b == null) && hamt == old(hamt) && live == old(live)
      ensures Moved(old(Traced()), Traced(), ring.log2, old(Current()))
      ensures waived == old(waived) && (old(!HasUncommitted() && !Astray()) && Fine(r) ==> !Astray() && strayed == old(strayed))
      ensures Fine(r) ==> Valid() && Current() == old(Current())
      ensures r.Err? ==> Refusal(r.error)
      ensures r == Ok(true) ==> Saved() == Current() && !HasUncommitted() && pending == None
      ensures old(!HasUncommitted()) && r.Ok? ==> !HasUncommitted()
    {
      hide Vault.Valid, Vault.Current, Vault.Astray, Progress, Moved, Good;
      Begin(Current());
      ghost var t0, now0 := Traced(), Current();
      var fitted := RoomFor(now, cap);
      if fitted.Err? {
        return Err(fitted.error);
      }
      if fitted.value == 0 {
        return Ok(false);
      }
      ghost var t1 := Traced();
      r := Retire(fitted.value, now);
      MovedThen(t0, t1, Traced(), ring.log2, now0, now0);
    }

    /** The window to reap now: a window still staged is landed first, and the fence slid once if it is tight. */
    method RoomFor(now: int, cap: nat) returns (r: Result<nat>)
      requires Valid()
      modifies this, hamt, live, ring`head, tract`plow, tract`reap, tract`fence, m, m.a, m.b
      ensures m.Prim() == old(m.Prim()) && (m.b == old(m.b) || m.b == null) && hamt == old(hamt) && live == old(live)
      ensures Moved(old(Traced()), Traced(), ring.log2, old(Current()))
      ensures waived == old(waived) && (old(!Astray()) && Fine(r) ==> !Astray() && strayed == old(strayed))
      ensures Fine(r) ==> Valid() && Current() == old(Current())
      ensures r.Err? ==> Down(r.error) || r.error.TractFull? || r.error.Fenced?
      ensures old(!HasUncommitted()) && r.Ok? ==> !HasUncommitted()
      ensures r.Ok? ==> r.value <= cap
    {
      hide Vault.Valid, Vault.Current, Vault.Astray, Progress, Moved, Good;
      Begin(Current());
      ghost var t0, now0 := Traced(), Current();
      if pending.Some? {
        var landed := Commit(now);
        if landed.Err? {
          return Err(landed.error);
        }
      }
      var w := FitWindow(cap);
      if w > 0 && FenceRoom().Some? && FenceRoom().value < w + RESERVE {
        ghost var t1 := Traced();
        var landed := Commit(now);
        MovedThen(t0, t1, Traced(), ring.log2, now0, now0);
        if landed.Err? {
          return Err(landed.error);
        }
      }
      if FenceRoom().Some? {
        w := Min(w, if FenceRoom().value > RESERVE then FenceRoom().value - RESERVE else 0);
      }
      return Ok(w);
    }

    /** A window staged and its retiring commit. */
    method Retire(w: nat, now: int) returns (r: Result<bool>)
      requires Valid()
      modifies this, hamt, live, ring`head, tract`plow, tract`reap, tract`fence, m, m.a, m.b
      ensures m.Prim() == old(m.Prim()) && (m.b == old(m.b) || m.b == null) && hamt == old(hamt) && live == old(live)
      ensures Moved(old(Traced()), Traced(), ring.log2, old(Current()))
      ensures waived == old(waived) && (old(!HasUncommitted() && !Astray()) && Fine(r) ==> !Astray() && strayed == old(strayed))
      ensures Fine(r) ==> Valid() && Current() == old(Current())
      ensures r.Err? ==> Refusal(r.error)
      ensures r.Ok? ==> r.value && Saved() == Current() && !HasUncommitted() && pending == None
    {
      hide Vault.Valid, Vault.Current, Vault.Astray, Progress, Moved, Good;
      Begin(Current());
      ghost var t0, now0 := Traced(), Current();
      var staged := ReapStaged(w);
      Still(t0, now0);
      if staged.Err? {
        return Err(staged.error);
      }
      ghost var t1 := Traced();
      var landed := Commit(now);
      MovedThen(t0, t1, Traced(), ring.log2, now0, now0);
      return if landed.Ok? then Ok(true) else Err(landed.error);
    }

    /** One window after a commit while dead space exceeds a quarter of the tract. */
    method MaybeReap(now: int) returns (r: Result<()>)
      requires Valid()
      modifies this, hamt, live, ring`head, tract`plow, tract`reap, tract`fence, m, m.a, m.b
      ensures m.Prim() == old(m.Prim()) && (m.b == old(m.b) || m.b == null) && hamt == old(hamt) && live == old(live)
      ensures Moved(old(Traced()), Traced(), ring.log2, old(Current()))
      ensures waived == old(waived) && (old(!HasUncommitted() && !Astray()) && Fine(r) ==> !Astray() && strayed == old(strayed))
      ensures Fine(r) ==> Valid() && Current() == old(Current())
      ensures old(!HasUncommitted()) && r.Ok? ==> !HasUncommitted()
      ensures r.Err? ==> Refusal(r.error)
    {
      hide Vault.Valid, Vault.Current, Vault.Astray, Progress, Moved, Good;
      Begin(Current());
      Ordered();
      var used := Min(tract.plow - tract.reap, tract.len);
      var dead := if used > live.Count() then used - live.Count() else 0;
      if dead * 4 > tract.len {
        var reaped := ReapOneWindow(now, used);
        if reaped.Err? {
          return Err(reaped.error);
        }
      }
      return Ok(());
    }

    lemma {:induction false} Ordered()
      requires Valid()
      ensures tract.reap <= tract.plow
    {
      hide Good, LiveTrue, Pow2;
      Ready();
    }

    // -------------------------------------------------------------- growing

    /** A longer tract under the committed map; a length no longer than now changes nothing. Every cut restores the head,
        under the old length until the entry of the new one lands. Pending edits are given up. */
    method Grow(to: nat, now: int) returns (r: Result<()>)
      requires Valid()
      modifies this, ring`head, tract, m, m.a, m.b
      ensures m.Prim() == old(m.Prim()) && (m.b == old(m.b) || m.b == null)
      ensures (hamt == old(hamt) || fresh(hamt)) && (live == old(live) || fresh(live))
      ensures Moved(old(Traced()), Traced(), ring.log2, old(Saved())) && waived == old(waived) && strayed == old(strayed)
      ensures r.Err? ==> Down(r.error)
      ensures r.Ok? ==> Valid() && Saved() == old(Saved())
      ensures r.Ok? && to > old(tract.len) ==> tract.len == to && Current() == old(Saved()) && !HasUncommitted() && !Astray() && pending == None
      ensures r.Ok? && to > old(tract.len) ==> tract.reap == tract.plow - old(tract.len) && tract.plow % to == old(tract.len)
      ensures r.Ok? && to <= old(tract.len) ==> tract.len == old(tract.len) && Current() == old(Current()) && hamt == old(hamt)
      ensures r.Ok? && to <= old(tract.len) ==> log == old(log) && Astray() == old(Astray())
    {
      hide Vault.Valid, Vault.Current, Vault.HasUncommitted, Progress, Moved, Good;
      Alive();
      Begin(Saved());
      ghost var t0, saved := Traced(), Saved();
      if to <= tract.len {
        return Ok(());
      }
      var space := ExtendDevices(to);
      if space.Err? {
        return Err(space.error);
      }
      Barrier();
      ghost var t1 := Traced();
      r := GrowCommit(to, now);
      MovedThen(t0, t1, Traced(), ring.log2, saved, saved);
    }

    /** The head reloaded and its live set walked anew. */
    method Barrier()
      requires Valid()
      modifies this`hamt, this`pending, this`live
      ensures Valid() && Current() == Saved() && !HasUncommitted() && pending == None && fresh(hamt) && fresh(live)
    {
      hide Good, LiveTrue, Pow2, Wf, Tr, Content, Pos, Mirrors.Mirror.Valid, Sound, Once, Held;
      ReloadHead();
      PristineSaved();
      RootWhole();
      var root := ring.head.value.root;
      var walked := LiveOf(m, tract, root);
      Present();
      ghost var s := Snap();
      live := walked.value;
      Again(s);
    }

    lemma {:induction false} RootWhole()
      requires Valid() && !HasUncommitted()
      ensures var root := Past(log, 0).entry.root;
        (root.Nil? || Blocks.Committed(root)) && Sound(root, []) && Once(root) && Held(tract.View(m), root)
      ensures live.Positions() == Pos(Past(log, 0).entry.root)
    {
      HeadRoot();
      HeadStands();
      PristineSaved();
      Ready();
      hide Good;
    }

    /** Extend every device, after draining what is staged. */
    method ExtendDevices(to: nat) returns (r: Result<()>)
      requires Valid() && to > tract.len
      modifies m, m.a, m.b
      ensures m.Prim() == old(m.Prim()) && (m.b == old(m.b) || m.b == null)
      ensures Moved(old(Traced()), Traced(), ring.log2, Saved())
      ensures r.Err? ==> Down(r.error)
      ensures r.Ok? ==> Valid() && Current() == old(Current()) && Pow2(ring.log2) + to <= |m.disk|
    {
      hide Good, LiveTrue, Pow2, Wf, Tr, Content, Pos, Restores, StagedOff, Devices.Moves, Last, Flat, Overlay, CacheSorted, CacheTrue,
           Draining, Deepens,
           Moved, HistoryOk, Generations.Linked;
      ghost var s, t0 := Snap(), Traced();
      HeadStands();
      Shows();
      Drains();
      r := m.Grow(tract.base + to);
      GrowHistory(History(), |t0.moments|, s.durable, s.staged, s.disk, ring.log2, log, floor);
      MovedHistory(t0, Traced(), ring.log2, Saved());
      if r.Ok? {
        NothingStaged(m.disk);
        ExtendKeeps(s, m.disk);
        LiveSame(ViewOf(s), tract.View(m), live.map_);
        Again(Widened(s, m.disk));
      }
    }

    lemma {:induction false} Drains()
      requires Valid()
      ensures Draining(m.Durable(), m.Staged(), ring.log2, log, floor) && Generations.Linked(log)
      ensures log != [] && Deepens(m.disk, ring.log2, log, |log| - 1, floor)
    {
      SnapShows();
      hide *;
      GoodHas(Snap());
      GoodDrains(Snap());
    }

    lemma {:induction false} SnapShows()
      requires Valid()
      ensures m.Prim() != null && Good(Snap())
      ensures var s := Snap();
        s.durable == m.Durable() && s.staged == m.Staged() && s.disk == m.disk && s.log2 == ring.log2 && s.log == log && s.floor == floor
    {
    }

    lemma {:induction false} SnapCursors()
      requires m.Prim() != null
      ensures var s := Snap(); s.len == tract.len && s.plow == tract.plow && s.reap == tract.reap && s.fence == tract.fence
      ensures log != [] ==> Head(Snap()) == Past(log, 0).entry && Overran() == Overrun(Past(log, 0).entry)
    {
      hide Mirrors.Mirror.Valid, Overrun;
    }

    lemma {:induction false} Again(s: State)
      requires m.Valid() && hamt.Valid() && tract.base == Pow2(ring.log2) && log != [] && ring.head == Some(Past(log, 0).entry)
      requires LiveTrue(tract.View(m), live.map_) && Good(s) && Snap() == s
      ensures Valid()
    {
    }

    /** The cursors realigned to the new length and the head committed again under it: the index is clean, so the
        commit's flush writes nothing. */
    method GrowCommit(to: nat, now: int) returns (r: Result<()>)
      requires Valid() && !HasUncommitted() && pending == None && to > tract.len && Pow2(ring.log2) + to <= |m.disk|
      modifies this`since, this`strayed, this`taken, this`log, ring`head, tract, m, m.a, m.b
      ensures m.Prim() == old(m.Prim()) && (m.b == old(m.b) || m.b == null)
      ensures Moved(old(Traced()), Traced(), ring.log2, old(Saved())) && strayed == old(strayed)
      ensures r.Err? ==> Down(r.error)
      ensures r.Ok? ==> Valid() && Current() == old(Saved()) && Saved() == old(Saved()) && !HasUncommitted()
      ensures r.Ok? ==> tract.len == to && !Overran() && tract.reap == tract.plow - old(tract.len) && tract.plow % to == old(tract.len)
    {
      hide Good, LiveTrue, Pow2, Wf, Tr, Content, Restores, Stands, Pos, StagedOff, Fence, Geometry, Lap, Grown, Realign, Moved,
           Mirrors.Mirror.Valid, Rings.Ring.Valid, Hamts.Hamt.Valid, Vault.Current, Generations.Linked;
      Present();
      ghost var s := Snap();
      PristineSaved();
      HeadPositive();
      var head, from := ring.head.value, tract.len;
      tract.plow := Realign(head.plow, from, to);
      RealignLaw(head.plow, from, to);
      RealignedAbove(tract.plow, from, to);
      tract.reap := tract.plow - from;
      tract.len := to;
      var e := Entry(head.gen + 1, Prev(head), ring.log2, tract.len, head.root, tract.plow, Some(tract.reap), live.Count(), now);
      r := WriteGrown(e, to, s);
    }

    method WriteGrown(e: Entry, to: nat, ghost s: State) returns (r: Result<()>)
      requires m.Valid() && hamt.Valid() && tract.base == Pow2(ring.log2) && log != [] && ring.head == Some(Past(log, 0).entry)
      requires Good(s) && Pristine(s) && s.pending.None? && Grows(s, e, to) && Pow2(s.log2) + to <= |s.disk| && LiveTrue(ViewOf(s), live.map_)
      requires Snap() == s.(len := e.tract, plow := e.plow, reap := e.reap.value)
      modifies this`since, this`strayed, this`taken, this`log, ring`head, tract`fence, m, m.a, m.b
      ensures m.Prim() == old(m.Prim()) && (m.b == old(m.b) || m.b == null)
      ensures Moved(old(Traced()), Traced(), ring.log2, Past(s.log, 0).content) && strayed == old(strayed)
      ensures r.Err? ==> Down(r.error)
      ensures r.Ok? ==> Valid() && Current() == Past(s.log, 0).content && Saved() == Past(s.log, 0).content && !Overran()
    {
      hide Good, LiveTrue, Pow2, Wf, Tr, Content, Restores, Stands, Pos, StagedOff, Fence, Geometry, Lap, Realign, Moved, Draining, Writing,
           Mirrors.Mirror.Valid, Rings.Ring.Valid, Generations.Linked, Grows;
      Present();
      GrowReady(s, e, to);
      r := Record(e, Past(s.log, 0).content);
      if r.Ok? {
        since, taken := tract.plow, floor;
        Regrown(s, e, to);
      }
    }

    lemma {:induction false} HeadPositive()
      requires Valid()
      ensures Past(log, 0).entry.tract == tract.len && Past(log, 0).entry.ringLog2 == ring.log2
    {
      GoodHas(Snap());
    }

    lemma {:induction false} GrowReady(s: State, e: Entry, to: nat)
      requires m.Valid() && Good(s) && Pristine(s) && s.pending.None? && Grows(s, e, to) && Pow2(s.log2) + to <= |s.disk|
      requires s.disk == m.disk && s.durable == m.Durable() && s.staged == m.Staged() && s.log == log && s.log2 == ring.log2
      requires ring.head == Some(Past(log, 0).entry) && floor == s.floor && tract.fence == s.fence
      ensures ring.Valid(m) && Pow2(ring.log2) <= |m.disk| && Past(log, 0).entry.ringLog2 == ring.log2 && Generations.Linked(log)
      ensures Draining(m.Durable(), m.Staged(), ring.log2, log, floor)
      ensures Writing(m.disk, ring.log2, log, Gen(e, Past(log, 0).content), floor) && !Overrun(e)
      ensures tract.fence.None? || tract.fence == Fence(m.disk, ring.log2, Past(log, 0).entry)
    {
      hide Good, LiveTrue, Pow2, Wf, Tr, Content, Stands, Pos, StagedOff, Fence, Geometry, Poised, RingHolds, Chained, Classify, Quiet, Lasting,
           Draining, Writing, Generations.Linked, Intact;
      GoodHas(s);
      GrowKeeps(s, e, to);
    }

    lemma {:induction false} Regrown(s: State, e: Entry, to: nat)
      requires m.Valid() && hamt.Valid() && tract.base == Pow2(ring.log2) && s.log2 == ring.log2
      requires Good(s) && Pristine(s) && s.pending.None? && Grows(s, e, to) && Pow2(s.log2) + to <= |s.disk|
      requires log == s.log + [Gen(e, Past(s.log, 0).content)] && ring.head == Some(e)
      requires e.gen % Pow2(ring.log2) < |s.disk| && Snap() == Grown(s, e) && LiveTrue(ViewOf(s), live.map_)
      ensures Valid() && Current() == Past(s.log, 0).content && Past(log, 0) == Gen(e, Past(s.log, 0).content)
    {
      hide Good, LiveTrue, Pow2, Wf, Tr, Fence, Content, Realign, Writes;
      GrowKeeps(s, e, to);
      var w := Grown(s, e);
      assert ViewOf(w) == tract.View(m);
      LiveLonger(ViewOf(s), ViewOf(w), live.map_);
    }

    // -------------------------------------------------------------- the fence deadlock's exit

    /** Blocks of the next window that still count: the window stops before clean space could not stage them. */
    method SurvivingWindow() returns (w: nat)
      requires Valid()
      ensures w <= ReapWindow() && w <= tract.plow - tract.reap
    {
      hide Good, LiveTrue, Wf, Tr, Pow2;
      Ready();
      var clean := tract.CleanBlocks();
      var most := Min(ReapWindow(), tract.plow - tract.reap);
      var survivors := 0;
      w := 0;
      while w < most
        invariant w <= most
      {
        if live.IsReferenced((tract.reap + w) % tract.len) {
          survivors := survivors + 1;
        }
        if survivors > 0 && survivors + RESERVE > clean {
          return w;
        }
        w := w + 1;
      }
    }

    /** The fence off: both maps stand, but appends no longer spare the generations before the head. */
    method WaiveFence()
      requires Valid()
      modifies this`waived, tract`fence
      ensures Valid() && tract.fence == None && waived == old(waived) + 1 && Current() == old(Current()) && Watched(old(Watching()), Watching())
    {
      hide Good, LiveTrue, Pow2, Wf, Tr, Content, Mirrors.Mirror.Valid;
      Present();
      ghost var s := Snap();
      WaiveKeeps(s);
      waived := waived + 1;
      tract.fence := None;
      Again(s.(fence := None));
    }

    /** The fence as the ring's last generations have it. */
    method Refence()
      requires Valid()
      modifies tract`fence
      ensures Valid() && Current() == old(Current()) && Pow2(ring.log2) <= |m.disk| && tract.fence == Fence(m.disk, ring.log2, Past(log, 0).entry)
      ensures Watched(old(Watching()), Watching())
    {
      hide Good, LiveTrue, Pow2, Wf, Tr, Content, Budgets, RingHolds, Chained, SlotAt, Mirrors.Mirror.Valid;
      Present();
      Ready();
      ghost var s := Snap();
      WaiveKeeps(s);
      FencedOr(s);
      var budgets := ring.RecentFences(m);
      tract.fence := FenceFrom(budgets);
      Again(s.(fence := tract.fence));
    }

    lemma {:induction false} FencedOr(s: State)
      requires Good(s)
      ensures s.log != [] && Pow2(s.log2) <= |s.disk| && (s.fence.None? || s.fence == Fence(s.disk, s.log2, Head(s)))
    {
    }

    predicate Comfortable()
      reads tract
    {
      tract.fence.None? || FenceRoom().value >= ReapWindow() + RESERVE * 2
    }

    /** Reap windows with the fence waived until it leaves room again; grow once when not even one block can be staged.
        The committed map is never at stake: only rollback to older generations is. */
    method Rescue(now: int) returns (r: Result<nat>)
      requires Valid()
      modifies this, hamt, live, ring`head, tract, m, m.a, m.b
      ensures m.Prim() == old(m.Prim()) && (m.b == old(m.b) || m.b == null)
      ensures (hamt == old(hamt) || fresh(hamt)) && (live == old(live) || fresh(live))
      ensures Moved(old(Traced()), Traced(), ring.log2, old(Current()))
      ensures old(!HasUncommitted() && !Astray()) && Fine(r) ==> !Astray() && strayed == old(strayed)
      ensures r.Err? ==> Refusal(r.error)
      ensures Fine(r) ==> Valid() && (Current() == old(Current()) || Current() == Saved())
      ensures old(!HasUncommitted()) && Fine(r) ==> Current() == old(Current())
      ensures old(!HasUncommitted()) && r.Ok? ==> !HasUncommitted()
      ensures r.Ok? ==> Pow2(ring.log2) <= |m.disk| && tract.fence == Fence(m.disk, ring.log2, Past(log, 0).entry)
    {
      hide Vault.Valid, Vault.Current, Vault.Astray, Vault.HasUncommitted, Vault.Comfortable, Progress, Moved, Good;
      Begin(Current());
      ghost var t0, map0, clean, straight := Traced(), Current(), !HasUncommitted(), !HasUncommitted() && !Astray();
      var windows, grown := 0, false;
      var bound := if tract.len / REAP_WINDOW_MIN > 8 then tract.len / REAP_WINDOW_MIN else 8;
      for i := 0 to bound
        invariant m.Prim() == old(m.Prim()) && (m.b == old(m.b) || m.b == null) && m.Prim() != null && log != []
        invariant (hamt == old(hamt) || fresh(hamt)) && (live == old(live) || fresh(live))
        invariant Valid() && Moved(t0, Traced(), ring.log2, map0) && (Current() == map0 || Current() == Saved())
        invariant clean ==> !HasUncommitted() && Current() == map0
        invariant straight ==> !Astray() && strayed == old(strayed)
      {
        if tract.plow == tract.reap || (Comfortable() && windows > 0) {
          break;
        }
        ghost var t1, map1 := Traced(), Current();
        var step := RescueStep(now, grown);
        MovedOn(t0, t1, Traced(), ring.log2, map0, map1);
        if step.Err? {
          return Err(step.error);
        }
        Alive();
        if step.value {
          windows := windows + 1;
        } else {
          grown := true;
        }
      }
      ghost var t1 := Traced();
      Refence();
      Still(t1, map0);
      MovedThen(t0, t1, Traced(), ring.log2, map0, map0);
      return Ok(windows);
    }

    /** One step of a rescue: a window reaped and committed (true), or the one grow that makes room (false). */
    method RescueStep(now: int, grown: bool) returns (r: Result<bool>)
      requires Valid()
      modifies this, hamt, live, ring`head, tract, m, m.a, m.b
      ensures m.Prim() == old(m.Prim()) && (m.b == old(m.b) || m.b == null)
      ensures (hamt == old(hamt) || fresh(hamt)) && (live == old(live) || fresh(live))
      ensures Moved(old(Traced()), Traced(), ring.log2, old(Current()))
      ensures old(!HasUncommitted() && !Astray()) && Fine(r) ==> !Astray() && strayed == old(strayed)
      ensures r.Err? ==> Refusal(r.error)
      ensures Fine(r) ==> Valid() && (Current() == old(Current()) || Current() == Saved())
      ensures old(!HasUncommitted()) && Fine(r) ==> Current() == old(Current())
      ensures old(!HasUncommitted()) && r.Ok? ==> !HasUncommitted()
    {
      hide Vault.Valid, Vault.Current, Vault.Astray, Progress, Moved, Good;
      Begin(Current());
      PristineSaved();
      ghost var t0, map0 := Traced(), Current();
      var w := SurvivingWindow();
      if w == 0 {
        if grown {
          return Err(TractFull);
        }
        ghost var saved := Saved();
        var to := if live.Count() * 2 > tract.len then tract.len * 2 else tract.len + ReapWindow() * 4;
        var space := Grow(to, now);
        MovedThen(t0, t0, Traced(), ring.log2, map0, saved);
        return if space.Ok? then Ok(false) else Err(space.error);
      }
      WaiveFence();
      Still(t0, map0);
      ghost var t1 := Traced();
      r := Retire(w, now);
      MovedThen(t0, t1, Traced(), ring.log2, map0, map0);
    }

    // -------------------------------------------------------------- puts and deletes

    /** What every rung of a ladder keeps: cuts restore generations from the old head on, and what was committed on the way
        is the saved map or the current one. Over nothing uncommitted no window crosses. */
    twostate predicate Ran(ok: bool)
      requires old(m.Prim()) != null && old(log) != []
      reads this, m, m.a, m.b, ring, tract, hamt, live
    {
      && m.Prim() == old(m.Prim()) && (m.b == old(m.b) || m.b == null)
      && (hamt == old(hamt) || fresh(hamt)) && (live == old(live) || fresh(live))
      && Moved(old(Traced()), Traced(), ring.log2, old(Current()))
      && (ok ==> Valid())
      && (ok && old(!HasUncommitted() && !Astray()) ==> !Astray() && strayed == old(strayed))
    }

    predicate Fine<T>(r: Result<T>) {
      r.Ok? || !Down(r.error)
    }

    lemma {:induction false} Fineness<T, U>(r: Result<T>, u: Result<U>)
      ensures (r.Ok? ==> Fine(r)) && (u.Ok? ==> Fine(u))
      ensures r.Err? && u.Err? && r.error == u.error ==> Fine(r) == Fine(u)
    {
    }

    predicate Refusal(e: Error) {
      Down(e) || e.TractFull? || e.Fenced? || e.Corrupt?
    }

    /** One put into the pending index; refused, it leaves no trace. */
    method PutTry(key: Key, value: Value) returns (r: Result<()>)
      requires Valid()
      modifies this`floor, hamt, tract`plow, m`pending, m`cache, m`uses, m`disk
      ensures Valid() && History() == old(History())
      ensures r.Ok? ==> Current() == old(Current())[key := Full(value)]
      ensures r.Err? ==> Current() == old(Current()) && (r.error.TractFull? || r.error.Fenced? || r.error.Corrupt?)
      ensures r.Err? && old(!HasUncommitted()) ==> !HasUncommitted()
      ensures Watched(old(Watching()), Watching())
    {
      hide Good, Appended, Lap, Poised, LiveTrue, Pow2, Wf, Tr, Sound, Once, Held, Home, Accounted, Content, Overlay, Last, Flat,
           CacheSorted, CacheTrue;
      ghost var s := Snap();
      Ready();
      SettledIndex();
      hamt.DirtyRoot();
      r := hamt.Put(m, tract, live, key, value, since);
      Floored(s, tract.plow);
      floor := AfterAppend(s, tract.plow);
      hamt.DirtyRoot();
      if r.Ok? {
        FlushPoised(ViewOf(s), tract.View(m), s.staged, m.Staged(), s.index, hamt.Index(), s.delta, hamt.delta, s.live, since, s.plow, tract.plow);
      } else {
        PoisedOrphans(ViewOf(s), tract.View(m), s.staged, m.Staged(), s.index, s.delta, s.live, since, s.plow, tract.plow);
      }
      Rejoin(s, live.map_);
    }

    /** One delete from the pending index: it appends nothing, so it is never refused. */
    method DeleteTry(key: Key) returns (existed: bool)
      requires Valid()
      modifies this`floor, hamt, m`cache, m`uses
      ensures Valid() && History() == old(History())
      ensures existed <==> key in old(Current())
      ensures Current() == old(Current()) - {key}
      ensures !existed && old(!HasUncommitted()) ==> !HasUncommitted()
      ensures Watched(old(Watching()), Watching())
    {
      hide Good, Appended, Lap, Poised, LiveTrue, Pow2, Wf, Tr, Sound, Once, Held, Home, Accounted, Content, Overlay, Last, Flat,
           CacheSorted, CacheTrue;
      ghost var s := Snap();
      Ready();
      SettledIndex();
      ContentKeys(tract.View(m), hamt.Index());
      hamt.DirtyRoot();
      var gone := hamt.Delete(m, tract, key);
      Floored(s, tract.plow);
      floor := AfterAppend(s, tract.plow);
      hamt.DirtyRoot();
      existed := gone.value;
      NothingAppended(ViewOf(s), s.staged, s.plow);
      EmptyLap(s.plow, s.len);
      FlushPoised(ViewOf(s), tract.View(m), s.staged, m.Staged(), s.index, hamt.Index(), s.delta, hamt.delta, s.live, since, s.plow, tract.plow);
      Rejoin(s, live.map_);
    }

    lemma {:induction false} ContentKeys(v: Medium, t: Tree)
      ensures Content(v, t).Keys == Keys(t)
    {
    }

    /** The put ladder's own grow: with earlier work uncommitted it says the tract is full instead, and the batch grows
        and replays what it still holds. */
    method GrowInLadder(now: int) returns (r: Result<()>)
      requires Valid()
      modifies this, ring`head, tract, m, m.a, m.b
      ensures m.Prim() == old(m.Prim()) && (m.b == old(m.b) || m.b == null)
      ensures (hamt == old(hamt) || fresh(hamt)) && (live == old(live) || fresh(live))
      ensures Moved(old(Traced()), Traced(), ring.log2, old(Current()))
      ensures strayed == old(strayed) && (old(!Astray()) && Fine(r) ==> !Astray())
      ensures Fine(r) ==> Valid() && Current() == old(Current())
      ensures r.Ok? ==> !HasUncommitted()
      ensures r.Err? ==> Down(r.error) || r.error.TractFull?
      ensures old(!HasUncommitted()) ==> r.Ok? || Down(r.error)
    {
      hide Vault.Valid, Vault.Current, Vault.HasUncommitted, Progress, Moved, Good;
      Begin(Current());
      PristineSaved();
      if HasUncommitted() {
        return Err(TractFull);
      }
      HeadPositive();
      r := Grow(tract.len * 2, now);
    }

    /** The way out of a wedge: back to the head, a rescue, and one grow if the rescue finds the tract full of live data.
        Says whether it grew. */
    method Unwedge(now: int, commitFailed: bool, grew: bool) returns (r: Result<bool>)
      requires Valid()
      modifies this, hamt, live, ring`head, tract, m, m.a, m.b
      ensures m.Prim() == old(m.Prim()) && (m.b == old(m.b) || m.b == null)
      ensures (hamt == old(hamt) || fresh(hamt)) && (live == old(live) || fresh(live))
      ensures Moved(old(Traced()), Traced(), ring.log2, old(Current()))
      ensures old(!Astray()) && Fine(r) ==> !Astray() && strayed == old(strayed)
      ensures Fine(r) ==> Valid() && Current() == old(Current())
      ensures r.Ok? ==> !HasUncommitted() && (grew ==> r.value)
      ensures r.Err? ==> Refusal(r.error)
    {
      hide Vault.Valid, Vault.Current, Vault.HasUncommitted, Vault.Astray, Progress, Moved, Good;
      Begin(Current());
      ghost var t0, map0 := Traced(), Current();
      var back := RollbackToHead(now, commitFailed);
      if back.Err? {
        return Err(back.error);
      }
      ghost var t1 := Traced();
      r := RescueOrGrow(now, grew);
      MovedThen(t0, t1, Traced(), ring.log2, map0, map0);
    }

    /** A rescue, and the one grow when it finds the tract full. */
    method RescueOrGrow(now: int, grew: bool) returns (r: Result<bool>)
      requires Valid() && !HasUncommitted()
      modifies this, hamt, live, ring`head, tract, m, m.a, m.b
      ensures m.Prim() == old(m.Prim()) && (m.b == old(m.b) || m.b == null)
      ensures (hamt == old(hamt) || fresh(hamt)) && (live == old(live) || fresh(live))
      ensures Moved(old(Traced()), Traced(), ring.log2, old(Current()))
      ensures old(!Astray()) && Fine(r) ==> !Astray() && strayed == old(strayed)
      ensures Fine(r) ==> Valid() && Current() == old(Current())
      ensures r.Ok? ==> !HasUncommitted() && (grew ==> r.value)
      ensures r.Err? ==> Refusal(r.error)
    {
      hide Vault.Valid, Vault.Current, Vault.HasUncommitted, Vault.Astray, Progress, Moved, Good;
      Begin(Current());
      ghost var t0, map0 := Traced(), Current();
      PristineSaved();
      var rescued := Rescue(now);
      if rescued.Ok? {
        return Ok(grew);
      }
      if !rescued.error.TractFull? || grew {
        return Err(rescued.error);
      }
      ghost var t1 := Traced();
      var space := GrowInLadder(now);
      MovedThen(t0, t1, Traced(), ring.log2, map0, map0);
      return if space.Ok? then Ok(true) else Err(space.error);
    }

    /** One round of the put ladder: the put itself (None when it landed), else room made for the next try and whether
        the tract has grown. A device that failed meanwhile ends the ladder. */
    method PutRound(key: Key, value: Value, now: int, grew: bool) returns (r: Result<Option<bool>>)
      requires Valid()
      modifies this, hamt, live, ring`head, tract, m, m.a, m.b
      ensures m.Prim() == old(m.Prim()) && (m.b == old(m.b) || m.b == null)
      ensures (hamt == old(hamt) || fresh(hamt)) && (live == old(live) || fresh(live))
      ensures Moved(old(Traced()), Traced(), ring.log2, old(Current()))
      ensures old(!HasUncommitted() && !Astray()) && Fine(r) ==> !Astray() && strayed == old(strayed)
      ensures Fine(r) ==> Valid() && Current() == if r == Ok(None) then old(Current())[key := Full(value)] else old(Current())
      ensures r.Ok? && r.value.Some? ==> (grew ==> r.value.value)
      ensures old(!HasUncommitted()) && r.Ok? && r.value.Some? ==> !HasUncommitted()
      ensures r.Err? ==> Refusal(r.error)
    {
      hide Vault.Valid, Vault.Current, Vault.HasUncommitted, Progress, Moved, Good;
      Begin(Current());
      ghost var t0, map0 := Traced(), Current();
      var tried := PutTry(key, value);
      Still(t0, map0);
      if tried.Ok? {
        return Ok(None);
      }
      if tried.error.Corrupt? {
        return Err(tried.error);
      }
      ghost var t1 := Traced();
      var room := SlideOrReap(tried.error.Fenced?, now);
      MovedThen(t0, t1, Traced(), ring.log2, map0, map0);
      if room.Err? {
        return Err(room.error);
      }
      if room.value {
        return Ok(Some(grew));
      }
      ghost var t2 := Traced();
      var out := Unwedge(now, tried.error.Fenced?, grew);
      MovedThen(t0, t2, Traced(), ring.log2, map0, map0);
      return if out.Ok? then Ok(Some(out.value)) else Err(out.error);
    }

    /** Room for a refused put: past the fence by committing generations, past a full tract by a reap window. False when
        neither moved, the commit fenced past its own ladder or no window fitting. */
    method SlideOrReap(fenced: bool, now: int) returns (r: Result<bool>)
      requires Valid()
      modifies this, hamt, live, ring`head, tract`plow, tract`reap, tract`fence, m, m.a, m.b
      ensures m.Prim() == old(m.Prim()) && (m.b == old(m.b) || m.b == null) && hamt == old(hamt) && live == old(live)
      ensures Moved(old(Traced()), Traced(), ring.log2, old(Current()))
      ensures old(!HasUncommitted() && !Astray()) && Fine(r) ==> !Astray() && strayed == old(strayed)
      ensures Fine(r) ==> Valid() && Current() == old(Current())
      ensures r.Err? ==> Refusal(r.error)
      ensures old(!HasUncommitted()) && r.Ok? ==> !HasUncommitted()
    {
      hide Vault.Valid, Vault.Current, Vault.HasUncommitted, Vault.Astray, Progress, Moved, Good;
      Alive();
      if fenced {
        var slid := Commit(now);
        if slid.Err? && Down(slid.error) {
          return Err(slid.error);
        }
        return Ok(slid.Ok? || !slid.error.Fenced?);
      }
      r := ReapOneWindow(now, tract.len);
    }

    /** A put and the room for it, uncommitted: a lap of rounds, one grow when they run out, another lap, and then the tract
        is called full. */
    method PutNoCommit(key: Key, value: Value, now: int) returns (r: Result<()>)
      requires Valid()
      modifies this, hamt, live, ring`head, tract, m, m.a, m.b
      ensures Ran(Fine(r)) && (r.Err? ==> Refusal(r.error))
      ensures Fine(r) ==> Current() == if r.Ok? then old(Current())[key := Full(value)] else old(Current())
    {
      hide Vault.Valid, Vault.Current, Vault.HasUncommitted, Vault.Astray, Progress, Moved, Good;
      Alive();
      ghost var t0, map0 := Traced(), Current();
      var round := PutRounds(key, value, now, false);
      if round.Ok? && round.value == Some(false) {
        ghost var t1 := Traced();
        round := GrowAndRetry(key, value, now);
        MovedThen(t0, t1, Traced(), ring.log2, map0, map0);
      }
      r := if round.Err? then Err(round.error) else if round.value.Some? then Err(TractFull) else Ok(());
    }

    method GrowAndRetry(key: Key, value: Value, now: int) returns (r: Result<Option<bool>>)
      requires Valid()
      modifies this, hamt, live, ring`head, tract, m, m.a, m.b
      ensures Ran(Fine(r)) && (r.Err? ==> Refusal(r.error))
      ensures Fine(r) ==> Current() == if r == Ok(None) then old(Current())[key := Full(value)] else old(Current())
    {
      hide Vault.Valid, Vault.Current, Vault.HasUncommitted, Vault.Astray, Progress, Moved, Good, Mirrors.Mirror.Valid, Hamts.Hamt.Valid;
      Alive();
      ghost var t0, map0 := Traced(), Current();
      var space := GrowInLadder(now);
      if space.Err? {
        r := Err(space.error);
      } else {
        ghost var t1 := Traced();
        r := PutRounds(key, value, now, true);
        MovedThen(t0, t1, Traced(), ring.log2, map0, map0);
      }
    }

    /** A lap of rounds: landed (None), or not, and whether the tract has grown. */
    method PutRounds(key: Key, value: Value, now: int, grew: bool) returns (r: Result<Option<bool>>)
      requires Valid()
      modifies this, hamt, live, ring`head, tract, m, m.a, m.b
      ensures m.Prim() == old(m.Prim()) && (m.b == old(m.b) || m.b == null)
      ensures (hamt == old(hamt) || fresh(hamt)) && (live == old(live) || fresh(live))
      ensures Moved(old(Traced()), Traced(), ring.log2, old(Current()))
      ensures old(!HasUncommitted() && !Astray()) && Fine(r) ==> !Astray() && strayed == old(strayed)
      ensures Fine(r) ==> Valid() && Current() == if r == Ok(None) then old(Current())[key := Full(value)] else old(Current())
      ensures old(!HasUncommitted()) && r.Ok? && r.value.Some? ==> !HasUncommitted()
      ensures r.Err? ==> Refusal(r.error)
    {
      hide Vault.Valid, Vault.Current, Vault.HasUncommitted, Vault.Astray, Progress, Moved, Good;
      Begin(Current());
      ghost var t0, map0, clean, straight := Traced(), Current(), !HasUncommitted(), !HasUncommitted() && !Astray();
      r := Ok(Some(grew));
      var rounds := FENCE_K + 3 + tract.len / ReapWindow() + 8;
      while rounds > 0 && r.Ok? && r.value.Some?
        invariant m.Prim() == old(m.Prim()) && (m.b == old(m.b) || m.b == null) && m.Prim() != null && rounds >= 0
        invariant (hamt == old(hamt) || fresh(hamt)) && (live == old(live) || fresh(live))
        invariant Moved(t0, Traced(), ring.log2, map0)
        invariant Fine(r) ==> Valid() && Current() == if r == Ok(None) then map0[key := Full(value)] else map0
        invariant Fine(r) && straight ==> !Astray() && strayed == old(strayed)
        invariant r.Ok? && r.value.Some? && clean ==> !HasUncommitted()
        invariant r.Err? ==> Refusal(r.error)
      {
        ghost var t1 := Traced();
        r := PutRound(key, value, now, r.value.value);
        MovedThen(t0, t1, Traced(), ring.log2, map0, map0);
        rounds := rounds - 1;
      }
    }

    /** Whether a put may be skipped: the value is committed at its key, and no pending edit hides it. */
    method HoldsCommitted(key: Key, value: Value) returns (held: bool)
      requires Valid()
      modifies m`cache, m`uses
      ensures Valid() && Current() == old(Current()) && History() == old(History())
      ensures held ==> key in Current() && Current()[key] == Full(value)
      ensures held ==> key in Saved() && Saved()[key] == Full(value)
      ensures HasUncommitted() == old(HasUncommitted())
    {
      hide Good, LiveTrue, Pow2, Wf, Tr, Poised, Walkable, Sound, Once, Home, Overlay, Last, Flat, CacheSorted, CacheTrue, Content, Find;
      Ready();
      ContentKeys(tract.View(m), hamt.Index());
      ContentAt(tract.View(m), hamt.Index(), key);
      var leaf := hamt.FindLeaf(m, tract, key);
      if leaf.Err? || leaf.value.None? {
        return false;
      }
      var lba := leaf.value.value.lba;
      if lba !in live.map_ || live.map_[lba] != DocOf(leaf.value.value) {
        return false;
      }
      var stored := hamt.Lookup(m, tract, key);
      held := stored.Ok? && stored.value == Some(value);
      if held {
        LeafKeyed(hamt.Index(), key);
        CommittedLeaf(leaf.value.value);
      }
    }

    lemma {:induction false} LeafKeyed(t: Tree, key: Key)
      requires Sound(t, [])
      ensures Find(t, 0, key).Leaf? ==> Find(t, 0, key).key == key
    {
      hide Leaves;
      if Find(t, 0, key).Leaf? {
        KeyIsFound(t, key);
      }
    }

    lemma {:induction false} ContentAt(v: Medium, t: Tree, key: Key)
      ensures key in Keys(t) ==> key in Content(v, t) && Content(v, t)[key] == ValueOf(v, Find(t, 0, key))
    {
    }

    /** A leaf block the live set holds is the committed leaf of its key. */
    lemma {:induction false} CommittedLeaf(leaf: Tree)
      requires Valid() && leaf.Leaf? && leaf.lba in live.map_ && live.map_[leaf.lba] == DocOf(leaf)
      ensures leaf.key in Saved() && Saved()[leaf.key] == ValueOf(tract.View(m), leaf)
    {
      HeadStands();
      HeadPositive();
      var g, v := Past(log, 0), tract.View(m);
      RestoresFits(m.disk, ring.log2, g);
      assert v == MediumOf(m.disk, Pow2(ring.log2), g.entry);
      assert SealedAt(v, leaf.lba, DocOf(leaf));
      hide Good, LiveTrue, Pow2, Sound, Once, Held, Content, Pos, Find, Leaves, Restores, Spined;
      Moves.RoleOf(v, g.entry.root, leaf.lba);
      FindIsMembership(g.entry.root, [], leaf);
      KeyIsFound(g.entry.root, leaf.key);
      ContentAt(v, g.entry.root, leaf.key);
    }

    /** One pass over the operations, uncommitted: the current map becomes their fold, and what is committed meanwhile is a
        proper prefix of it. Says whether anything changed. */
    method ApplyItems(ops: seq<Op>, now: int) returns (r: Result<bool>)
      requires Valid()
      modifies this, hamt, live, ring`head, tract, m, m.a, m.b
      ensures m.Prim() == old(m.Prim()) && (m.b == old(m.b) || m.b == null)
      ensures (hamt == old(hamt) || fresh(hamt)) && (live == old(live) || fresh(live))
      ensures Progress(old(Traced()), Traced(), ring.log2) && FoldMaps(log, |old(log)|, old(Saved()), ops, old(Current()))
      ensures |ops| <= 1 && old(!HasUncommitted() && !Astray()) && Fine(r) ==> !Astray() && strayed == old(strayed)
      ensures Fine(r) ==> Valid()
      ensures r.Ok? ==> Current() == Fold(ops, old(Current()))
      ensures r.Err? && Fine(r) ==> IsPart(ops, old(Current()), Current())
      ensures r == Ok(false) ==> Current() == old(Current()) && log == old(log) && (old(!HasUncommitted()) ==> !HasUncommitted())
      ensures r.Err? ==> Refusal(r.error)
    {
      hide Vault.Valid, Vault.Current, Vault.HasUncommitted, Vault.Astray, Progress, Moved, Good, Fold, FoldMaps;
      Alive();
      Begin(Current());
      ghost var t0, log0, map0, straight := Traced(), log, Current(), !HasUncommitted() && !Astray();
      NoFolds(log, Saved(), ops, map0);
      r := Ok(false);
      var i := 0;
      assert ops[..0] == [];
      FoldNothing(map0);
      while i < |ops| && r.Ok?
        invariant m.Prim() == old(m.Prim()) && (m.b == old(m.b) || m.b == null) && m.Prim() != null && i <= |ops|
        invariant (hamt == old(hamt) || fresh(hamt)) && (live == old(live) || fresh(live))
        invariant Progress(t0, Traced(), ring.log2) && FoldMaps(log, |log0|, old(Saved()), ops, map0)
        invariant Fine(r) ==> Valid() && Current() == Fold(ops[..i], map0)
        invariant r.Err? ==> i < |ops|
        invariant r == Ok(false) ==> Current() == map0 && log == log0 && (old(!HasUncommitted()) ==> !HasUncommitted())
        invariant straight && i == 0 && r.Ok? ==> !HasUncommitted()
        invariant straight && |ops| <= 1 && Fine(r) ==> !Astray() && strayed == old(strayed)
        invariant r.Err? ==> Refusal(r.error)
        decreases |ops| - i, r.Ok?
      {
        FoldNext(ops, i, map0);
        ghost var t1 := Traced();
        var done := ApplyItem(ops[i], now);
        FoldMapsNext(t0, t1, Traced(), ring.log2, ops, i, map0);
        if done.Err? {
          r := Err(done.error);
        } else {
          r := Ok(r.value || done.value);
          i := i + 1;
        }
      }
      assert i == |ops| ==> ops[..i] == ops;
    }

    /** One operation of a batch. */
    method ApplyItem(op: Op, now: int) returns (r: Result<bool>)
      requires Valid()
      modifies this, hamt, live, ring`head, tract, m, m.a, m.b
      ensures m.Prim() == old(m.Prim()) && (m.b == old(m.b) || m.b == null)
      ensures (hamt == old(hamt) || fresh(hamt)) && (live == old(live) || fresh(live))
      ensures Moved(old(Traced()), Traced(), ring.log2, old(Current()))
      ensures old(!HasUncommitted() && !Astray()) && Fine(r) ==> !Astray() && strayed == old(strayed)
      ensures Fine(r) ==> Valid() && Current() == if r.Ok? then Step(old(Current()), op) else old(Current())
      ensures r == Ok(false) ==> Current() == old(Current()) && log == old(log) && (old(!HasUncommitted()) ==> !HasUncommitted())
      ensures r.Err? ==> Refusal(r.error)
    {
      hide Vault.Valid, Vault.Current, Vault.HasUncommitted, Progress, Moved, Good;
      Begin(Current());
      ghost var t0, map0 := Traced(), Current();
      match op {
        case Set(key, value) =>
          var held := HoldsCommitted(key, value);
          if held {
            r := Ok(false);
          } else {
            ghost var t1 := Traced();
            var landed := PutNoCommit(key, value, now);
            MovedThen(t0, t1, Traced(), ring.log2, map0, map0);
            r := if landed.Ok? then Ok(true) else Err(landed.error);
          }
        case Unset(key) =>
          var existed := DeleteTry(key);
          Still(t0, map0);
          r := Ok(existed);
      }
    }

    /** Back to the committed map, and room made there: a rescue, and a grow if it finds nothing to retire. */
    method RescueFromHead(now: int) returns (r: Result<()>)
      requires Valid()
      modifies this, hamt, live, ring`head, tract, m, m.a, m.b
      ensures m.Prim() == old(m.Prim()) && (m.b == old(m.b) || m.b == null)
      ensures (hamt == old(hamt) || fresh(hamt)) && (live == old(live) || fresh(live))
      ensures Moved(old(Traced()), Traced(), ring.log2, old(Saved()))
      ensures old(!Astray()) && Fine(r) ==> !Astray() && strayed == old(strayed)
      ensures Fine(r) ==> Valid() && Current() == old(Saved()) && Saved() == old(Saved()) && (r.Ok? ==> !HasUncommitted())
      ensures r.Err? ==> Refusal(r.error)
    {
      hide Vault.Valid, Vault.Current, Vault.HasUncommitted, Progress, Moved, Good;
      Alive();
      Begin(Saved());
      ghost var t0, saved := Traced(), Saved();
      ReloadHead();
      var rescued := Rescue(now);
      ghost var t1 := Traced();
      MovedSame(t0, t1, ring.log2, saved);
      if rescued.Err? && rescued.error.TractFull? {
        HeadPositive();
        r := Grow(tract.len * 2, now);
        MovedThen(t0, t1, Traced(), ring.log2, saved, saved);
      } else {
        r := if rescued.Ok? then Ok(()) else Err(rescued.error);
      }
    }

    /** Both maps are ones the batch may leave. */
    ghost predicate Left(ops: seq<Op>, a: map<Key, Stored>, b: map<Key, Stored>)
      requires log != []
      reads this`log, this`hamt, m, tract, hamt
    {
      MayLeave(ops, a, b, Saved()) && MayLeave(ops, a, b, Current())
    }

    lemma {:induction false} LeftBy(ops: seq<Op>, a: map<Key, Stored>, b: map<Key, Stored>)
      requires log != [] && (OnEitherWay(ops, a, b, Saved()) || EitherFold(ops, a, b, Saved()))
      requires OnEitherWay(ops, a, b, Current()) || EitherFold(ops, a, b, Current())
      ensures Left(ops, a, b)
    {
      hide OnEitherWay, EitherFold, MayLeave, Vault.Current;
      EitherLeft(ops, a, b, Saved());
      EitherLeft(ops, a, b, Current());
    }

    /** The item pass over the current map, grown and replayed once over the saved one when an item could not land without
        dropping others. */
    method ItemPass(ops: seq<Op>, now: int, ghost a: map<Key, Stored>, ghost b: map<Key, Stored>) returns (r: Result<bool>, ghost replayed: bool)
      requires Valid() && log != [] && Saved() == a && Current() == b
      modifies this, hamt, live, ring`head, tract, m, m.a, m.b
      ensures m.Prim() == old(m.Prim()) && (m.b == old(m.b) || m.b == null)
      ensures (hamt == old(hamt) || fresh(hamt)) && (live == old(live) || fresh(live))
      ensures |ops| <= 1 && old(!HasUncommitted() && !Astray()) && Fine(r) ==> !Astray() && strayed == old(strayed)
      ensures Underway(old(Traced()), Traced(), ring.log2, ops, a, b) && log != [] && OnEitherWay(ops, a, b, Saved())
      ensures Fine(r) ==> Valid() && Left(ops, a, b)
      ensures r.Err? ==> Refusal(r.error)
      ensures a == b ==> Landed(log, |old(log)|, ops, a, replayed)
      ensures r.Ok? ==> EitherFold(ops, a, b, Current())
      ensures r == Ok(false) ==> Current() == old(Current()) && log == old(log) && (old(!HasUncommitted()) ==> !HasUncommitted())
    {
      hide *;
      Alive();
      Told();
      ghost var t0 := Traced();
      replayed := false;
      EitherStart(ops, a, b);
      r := ItemsOver(ops, now, a, b);
      Told();
      ghost var t1 := Traced();
      if a == b {
        FirstLanded(t0, t1, ring.log2, ops, a, false);
      }
      if r.Err? && r.error.TractFull? {
        replayed := true;
        FullIsFine(r);
        r := GrowAndReplay(ops, now, a, b);
        Told();
        UnderwayThen(t0, t1, Traced(), ring.log2, ops, a, b);
        if a == b {
          FirstLanded(t0, Traced(), ring.log2, ops, a, true);
        }
      }
    }

    lemma {:induction false} FullIsFine<T>(r: Result<T>)
      requires r.Err? && r.error.TractFull?
      ensures Fine(r)
    {
    }

    method GrowAndReplay(ops: seq<Op>, now: int, ghost a: map<Key, Stored>, ghost b: map<Key, Stored>) returns (r: Result<bool>)
      requires Valid() && log != [] && OnEitherWay(ops, a, b, Saved())
      modifies this, hamt, live, ring`head, tract, m, m.a, m.b
      ensures m.Prim() == old(m.Prim()) && (m.b == old(m.b) || m.b == null)
      ensures (hamt == old(hamt) || fresh(hamt)) && (live == old(live) || fresh(live))
      ensures |ops| <= 1 && Fine(r) ==> !Astray() && strayed == old(strayed)
      ensures Underway(old(Traced()), Traced(), ring.log2, ops, a, b) && log != [] && OnEitherWay(ops, a, b, Saved())
      ensures Fine(r) ==> Valid() && Left(ops, a, b)
      ensures r.Err? ==> Refusal(r.error)
      ensures r.Ok? ==> r.value && EitherFold(ops, a, b, Current())
    {
      hide Vault.Valid, Vault.Current, Vault.HasUncommitted, Vault.Astray, Vault.Left, Progress, Moved, Underway, Good, FoldMaps, Fold,
           OnEitherWay, EitherFold, MayLeave, IsPart;
      Alive();
      ghost var t0, saved := Traced(), Saved();
      HeadPositive();
      EitherLeft(ops, a, b, saved);
      var space := Grow(tract.len * 2, now);
      ghost var t1 := Traced();
      UnderwayMoved(t0, t1, ring.log2, ops, a, b, saved);
      if space.Err? {
        r := Err(space.error);
      } else {
        r := ItemsOver(ops, now, a, b);
        UnderwayThen(t0, t1, Traced(), ring.log2, ops, a, b);
        r := if r.Ok? then Ok(true) else r;
      }
    }

    /** A pass over a map on the way. */
    method ItemsOver(ops: seq<Op>, now: int, ghost a: map<Key, Stored>, ghost b: map<Key, Stored>) returns (r: Result<bool>)
      requires Valid() && log != [] && OnEitherWay(ops, a, b, Saved()) && OnEitherWay(ops, a, b, Current())
      modifies this, hamt, live, ring`head, tract, m, m.a, m.b
      ensures m.Prim() == old(m.Prim()) && (m.b == old(m.b) || m.b == null)
      ensures (hamt == old(hamt) || fresh(hamt)) && (live == old(live) || fresh(live))
      ensures |ops| <= 1 && old(!HasUncommitted() && !Astray()) && Fine(r) ==> !Astray() && strayed == old(strayed)
      ensures Underway(old(Traced()), Traced(), ring.log2, ops, a, b) && log != [] && OnEitherWay(ops, a, b, Saved())
      ensures FoldMaps(log, |old(log)|, old(Saved()), ops, old(Current()))
      ensures Fine(r) ==> Valid() && Left(ops, a, b)
      ensures r.Err? ==> Refusal(r.error)
      ensures r.Ok? ==> EitherFold(ops, a, b, Current())
      ensures r == Ok(false) ==> Current() == old(Current()) && log == old(log) && (old(!HasUncommitted()) ==> !HasUncommitted())
    {
      hide *;
      Alive();
      Told();
      ghost var t0, was := Traced(), Current();
      r := ApplyItems(ops, now);
      Told();
      UnderwayFold(t0, Traced(), ring.log2, ops, a, b, was);
      EitherFurther(ops, a, b, was, Current());
      Fineness(r, r);
      if Fine(r) {
        LeftBy(ops, a, b);
      }
    }

    /** The batch's commit; when it finds no room, the barrier (a grow, or a rescue from the head) and the whole batch
        again over what is committed. */
    method CommitOrReplay(ops: seq<Op>, now: int, ghost a: map<Key, Stored>, ghost b: map<Key, Stored>) returns (r: Result<()>, ghost replayed: bool)
      requires Valid() && log != [] && OnEitherWay(ops, a, b, Saved()) && EitherFold(ops, a, b, Current())
      modifies this, hamt, live, ring`head, tract, m, m.a, m.b
      ensures m.Prim() == old(m.Prim()) && (m.b == old(m.b) || m.b == null)
      ensures (hamt == old(hamt) || fresh(hamt)) && (live == old(live) || fresh(live))
      ensures |ops| <= 1 && old(!Astray()) && Fine(r) ==> !Astray() && strayed == old(strayed)
      ensures Underway(old(Traced()), Traced(), ring.log2, ops, a, b)
      ensures Fine(r) ==> Valid() && log != [] && Left(ops, a, b)
      ensures r.Err? ==> Refusal(r.error)
      ensures r.Ok? ==> !HasUncommitted() && Saved() == Current() && EitherFold(ops, a, b, Current())
      ensures !replayed ==> Moved(old(Traced()), Traced(), ring.log2, old(Current()))
    {
      hide *;
      Alive();
      Told();
      ghost var t0 := Traced();
      replayed := false;
      LeftBy(ops, a, b);
      r := CommitOver(ops, now, a, b);
      Told();
      Fineness(r, r);
      ghost var t1 := Traced();
      if r.Err? && !Down(r.error) {
        replayed := true;
        NotDown(r);
        r := Replay(ops, r.error.TractFull?, now, a, b);
        UnderwayThen(t0, t1, Traced(), ring.log2, ops, a, b);
      }
    }

    /** The commit alone. */
    method CommitOver(ops: seq<Op>, now: int, ghost a: map<Key, Stored>, ghost b: map<Key, Stored>) returns (r: Result<()>)
      requires Valid() && log != [] && Left(ops, a, b)
      modifies this, hamt, live, ring`head, tract`plow, tract`reap, tract`fence, m, m.a, m.b
      ensures m.Prim() == old(m.Prim()) && (m.b == old(m.b) || m.b == null) && hamt == old(hamt) && live == old(live)
      ensures Moved(old(Traced()), Traced(), ring.log2, old(Current())) && Underway(old(Traced()), Traced(), ring.log2, ops, a, b)
      ensures old(!Astray()) && Fine(r) ==> !Astray() && strayed == old(strayed)
      ensures Fine(r) ==> Valid() && Current() == old(Current()) && log != [] && Left(ops, a, b)
      ensures r.Err? ==> Refusal(r.error) && (!Down(r.error) ==> Saved() == old(Saved()))
      ensures r.Ok? ==> !HasUncommitted() && Saved() == Current()
    {
      hide *;
      Alive();
      Told();
      ghost var t0, map0 := Traced(), Current();
      LeftIs(ops, a, b);
      r := Commit(now);
      Told();
      UnderwayMoved(t0, Traced(), ring.log2, ops, a, b, map0);
      Refuses(r);
      Fineness(r, r);
      if Fine(r) {
        LeftNow(ops, a, b);
      }
    }

    lemma {:induction false} DownNotFine<T, U>(r: Result<T>)
      requires r.Err? && Down(r.error)
      ensures !Fine(Result<U>.Err(r.error)) && !r.error.Fenced?
    {
    }

    lemma {:induction false} Refuses<T>(r: Result<T>)
      ensures r.Err? && (Down(r.error) || r.error.TractFull? || r.error.Fenced?) ==> Refusal(r.error)
    {
    }

    lemma {:induction false} NotDown<T>(r: Result<T>)
      requires r.Err? && !Down(r.error)
      ensures Fine(r)
    {
    }

    lemma {:induction false} LeftIs(ops: seq<Op>, a: map<Key, Stored>, b: map<Key, Stored>)
      requires log != [] && Left(ops, a, b)
      ensures MayLeave(ops, a, b, Saved()) && MayLeave(ops, a, b, Current())
    {
      hide MayLeave, Vault.Current;
    }

    lemma {:induction false} LeftNow(ops: seq<Op>, a: map<Key, Stored>, b: map<Key, Stored>)
      requires log != [] && MayLeave(ops, a, b, Past(log, 0).content) && MayLeave(ops, a, b, Current())
      ensures Left(ops, a, b)
    {
      hide MayLeave, Vault.Current;
    }

    method Replay(ops: seq<Op>, full: bool, now: int, ghost a: map<Key, Stored>, ghost b: map<Key, Stored>) returns (r: Result<()>)
      requires Valid() && log != [] && OnEitherWay(ops, a, b, Saved())
      modifies this, hamt, live, ring`head, tract, m, m.a, m.b
      ensures m.Prim() == old(m.Prim()) && (m.b == old(m.b) || m.b == null)
      ensures (hamt == old(hamt) || fresh(hamt)) && (live == old(live) || fresh(live))
      ensures |ops| <= 1 && old(!Astray()) && Fine(r) ==> !Astray() && strayed == old(strayed)
      ensures Underway(old(Traced()), Traced(), ring.log2, ops, a, b)
      ensures Fine(r) ==> Valid() && log != [] && Left(ops, a, b)
      ensures r.Err? ==> Refusal(r.error)
      ensures r.Ok? ==> !HasUncommitted() && Saved() == Current() && EitherFold(ops, a, b, Current())
    {
      hide *;
      Alive();
      Told();
      ghost var t0, saved := Traced(), Saved();
      EitherLeft(ops, a, b, saved);
      var back := BarrierOrRescue(full, now);
      Told();
      ghost var t1 := Traced();
      UnderwayMoved(t0, t1, ring.log2, ops, a, b, saved);
      Fineness(back, back);
      if back.Err? {
        r := back;
        if Fine(r) {
          LeftBy(ops, a, b);
        }
      } else {
        r := ItemsAndCommit(ops, now, a, b);
        UnderwayThen(t0, t1, Traced(), ring.log2, ops, a, b);
      }
    }

    method BarrierOrRescue(full: bool, now: int) returns (r: Result<()>)
      requires Valid()
      modifies this, hamt, live, ring`head, tract, m, m.a, m.b
      ensures m.Prim() == old(m.Prim()) && (m.b == old(m.b) || m.b == null)
      ensures (hamt == old(hamt) || fresh(hamt)) && (live == old(live) || fresh(live))
      ensures Moved(old(Traced()), Traced(), ring.log2, old(Saved()))
      ensures old(!Astray()) && Fine(r) ==> !Astray() && strayed == old(strayed)
      ensures Fine(r) ==> Valid() && Current() == old(Saved()) && Saved() == old(Saved()) && (r.Ok? ==> !HasUncommitted())
      ensures r.Err? ==> Refusal(r.error)
    {
      hide Vault.Valid, Vault.Current, Vault.HasUncommitted, Vault.Astray, Progress, Moved, Good;
      Alive();
      HeadPositive();
      if full {
        r := Grow(tract.len * 2, now);
      } else {
        r := RescueFromHead(now);
      }
    }

    method ItemsAndCommit(ops: seq<Op>, now: int, ghost a: map<Key, Stored>, ghost b: map<Key, Stored>) returns (r: Result<()>)
      requires Valid() && log != [] && OnEitherWay(ops, a, b, Saved()) && Current() == Saved()
      modifies this, hamt, live, ring`head, tract, m, m.a, m.b
      ensures m.Prim() == old(m.Prim()) && (m.b == old(m.b) || m.b == null)
      ensures (hamt == old(hamt) || fresh(hamt)) && (live == old(live) || fresh(live))
      ensures |ops| <= 1 && old(!HasUncommitted() && !Astray()) && Fine(r) ==> !Astray() && strayed == old(strayed)
      ensures Underway(old(Traced()), Traced(), ring.log2, ops, a, b)
      ensures Fine(r) ==> Valid() && log != [] && Left(ops, a, b)
      ensures r.Err? ==> Refusal(r.error)
      ensures r.Ok? ==> !HasUncommitted() && Saved() == Current() && EitherFold(ops, a, b, Current())
    {
      hide *;
      Alive();
      Told();
      ghost var t0 := Traced();
      var items := ItemsOver(ops, now, a, b);
      Told();
      ghost var t1 := Traced();
      Fineness(items, items);
      if items.Err? {
        r := Err(items.error);
        Fineness(items, r);
      } else {
        r := CommitOver(ops, now, a, b);
        Told();
        Fineness(r, r);
        UnderwayThen(t0, t1, Traced(), ring.log2, ops, a, b);
      }
    }

    /** Apply many operations in order, durable on return. With `a` the map saved before and `b` the current one, equal when
        nothing was left uncommitted: Ok means the current map is the fold of the operations over the one or the other, and
        over a clean vault that it is committed too, whatever commits, rollbacks, rescues, grows and full replays it took.
        Refused or not, every generation committed meanwhile, the saved map and the current one are each what the batch may
        leave, given up and begun again: the fold, or parts of it on the way there. Over a clean vault generations are
        prefixes of the fold when nothing was replayed, and always exactly when the batch is replayable. */
    method ApplyBatch(ops: seq<Op>, now: int) returns (r: Result<()>, ghost replayed: bool)
      requires Valid()
      modifies this, hamt, live, ring`head, tract, m, m.a, m.b
      ensures m.Prim() == old(m.Prim()) && (m.b == old(m.b) || m.b == null)
      ensures (hamt == old(hamt) || fresh(hamt)) && (live == old(live) || fresh(live))
      ensures |ops| <= 1 && old(!HasUncommitted() && !Astray()) && Fine(r) ==> !Astray() && strayed == old(strayed)
      ensures Underway(old(Traced()), Traced(), ring.log2, ops, old(Saved()), old(Current()))
      ensures Fine(r) ==> Valid() && log != [] && Left(ops, old(Saved()), old(Current()))
      ensures r.Err? ==> Refusal(r.error)
      ensures r.Ok? ==> EitherFold(ops, old(Saved()), old(Current()), Current())
      ensures r.Ok? ==> (!HasUncommitted() && Saved() == Current()) || (Current() == old(Current()) && log == old(log))
      ensures old(!HasUncommitted()) && r.Ok? ==> Current() == Fold(ops, old(Current())) && Saved() == Current() && !HasUncommitted()
      ensures old(!HasUncommitted()) ==> Landed(log, |old(log)|, ops, old(Current()), replayed)
    {
      hide *;
      Alive();
      Told();
      PristineSaved();
      ghost var t0, a, b := Traced(), Saved(), Current();
      var dirty;
      dirty, replayed := ItemPass(ops, now, a, b);
      Told();
      ghost var t1 := Traced();
      UnderwayLogs(t0, t1, ring.log2, ops, a, b);
      SameFold(ops, a, b, Current());
      if dirty.Err? {
        r := Err(dirty.error);
        Fineness(dirty, r);
      } else if !dirty.value {
        r := Ok(());
        Fineness(dirty, r);
        PristineSaved();
      } else {
        Fineness(dirty, dirty);
        r, replayed := LandOn(ops, now, a, b, t0, replayed);
        UnderwayThen(t0, t1, Traced(), ring.log2, ops, a, b);
        SameFold(ops, a, b, Current());
      }
    }

    /** The batch landed behind what its item pass committed since `t0`. */
    method LandOn(ops: seq<Op>, now: int, ghost a: map<Key, Stored>, ghost b: map<Key, Stored>, ghost t0: Trace, ghost first: bool)
      returns (r: Result<()>, ghost replayed: bool)
      requires Valid() && log != [] && OnEitherWay(ops, a, b, Saved()) && EitherFold(ops, a, b, Current())
      requires m.Prim() != null && t0.log != [] && Past(t0.log, 0).content == a && Progress(t0, Traced(), ring.log2)
      requires a == b ==> Landed(log, |t0.log|, ops, a, first)
      modifies this, hamt, live, ring`head, tract, m, m.a, m.b
      ensures m.Prim() == old(m.Prim()) && (m.b == old(m.b) || m.b == null)
      ensures (hamt == old(hamt) || fresh(hamt)) && (live == old(live) || fresh(live))
      ensures |ops| <= 1 && old(!Astray()) && Fine(r) ==> !Astray() && strayed == old(strayed)
      ensures Underway(old(Traced()), Traced(), ring.log2, ops, a, b)
      ensures Fine(r) ==> Valid() && log != [] && Left(ops, a, b)
      ensures r.Err? ==> Refusal(r.error)
      ensures a == b ==> Landed(log, |t0.log|, ops, a, replayed)
      ensures r.Ok? ==> !HasUncommitted() && Saved() == Current() && EitherFold(ops, a, b, Current())
    {
      hide *;
      Alive();
      Told();
      ghost var t1 := Traced();
      SameFold(ops, a, b, Current());
      r, replayed := Land(ops, now, a, b);
      Told();
      if a == b {
        LandedThen(t0, t1, Traced(), ring.log2, ops, a, first, replayed);
      }
      replayed := first || replayed;
    }

    /** The batch's commit and the reap that follows it. */
    method Land(ops: seq<Op>, now: int, ghost a: map<Key, Stored>, ghost b: map<Key, Stored>) returns (r: Result<()>, ghost replayed: bool)
      requires Valid() && log != [] && OnEitherWay(ops, a, b, Saved()) && EitherFold(ops, a, b, Current())
      modifies this, hamt, live, ring`head, tract, m, m.a, m.b
      ensures m.Prim() == old(m.Prim()) && (m.b == old(m.b) || m.b == null)
      ensures (hamt == old(hamt) || fresh(hamt)) && (live == old(live) || fresh(live))
      ensures |ops| <= 1 && old(!Astray()) && Fine(r) ==> !Astray() && strayed == old(strayed)
      ensures Underway(old(Traced()), Traced(), ring.log2, ops, a, b)
      ensures Fine(r) ==> Valid() && log != [] && Left(ops, a, b)
      ensures r.Err? ==> Refusal(r.error)
      ensures r.Ok? ==> !HasUncommitted() && Saved() == Current() && EitherFold(ops, a, b, Current())
      ensures !replayed ==> Moved(old(Traced()), Traced(), ring.log2, old(Current()))
    {
      hide *;
      Alive();
      Told();
      ghost var t0, map0 := Traced(), Current();
      r, replayed := CommitOrReplay(ops, now, a, b);
      Told();
      ghost var t1, map1 := Traced(), Current();
      UnderwayLogs(t0, t1, ring.log2, ops, a, b);
      Fineness(r, r);
      if r.Ok? {
        r := ReapOver(ops, now, a, b);
        Told();
        Fineness(r, r);
        UnderwayThen(t0, t1, Traced(), ring.log2, ops, a, b);
        if !replayed {
          MovedThen(t0, t1, Traced(), ring.log2, map0, map1);
        }
      }
    }

    /** The reap after the commit: refused or not, what was committed stays. */
    method ReapOver(ops: seq<Op>, now: int, ghost a: map<Key, Stored>, ghost b: map<Key, Stored>) returns (r: Result<()>)
      requires Valid() && log != [] && Left(ops, a, b) && !HasUncommitted() && Saved() == Current()
      modifies this, hamt, live, ring`head, tract`plow, tract`reap, tract`fence, m, m.a, m.b
      ensures m.Prim() == old(m.Prim()) && (m.b == old(m.b) || m.b == null) && hamt == old(hamt) && live == old(live)
      ensures Moved(old(Traced()), Traced(), ring.log2, old(Current())) && Underway(old(Traced()), Traced(), ring.log2, ops, a, b)
      ensures old(!Astray()) && Fine(r) ==> !Astray() && strayed == old(strayed)
      ensures Fine(r) ==> Valid() && log != [] && Left(ops, a, b) && Saved() == Current() == old(Current())
      ensures r.Ok? ==> !HasUncommitted()
      ensures r.Err? ==> Refusal(r.error)
    {
      hide *;
      Alive();
      Told();
      ghost var t0, map0 := Traced(), Current();
      LeftIs(ops, a, b);
      r := MaybeReap(now);
      Told();
      MovedSame(t0, Traced(), ring.log2, map0);
      UnderwayMoved(t0, Traced(), ring.log2, ops, a, b, map0);
      if Fine(r) {
        LeftNow(ops, a, b);
      }
    }

    /** Insert or overwrite, durable on return: a batch of one. Refused, the saved map and the current one each hold it or
        not, and nothing else has changed. */
    method Put(key: Key, value: Value, now: int) returns (r: Result<()>)
      requires Valid()
      modifies this, hamt, live, ring`head, tract, m, m.a, m.b
      ensures m.Prim() == old(m.Prim()) && (m.b == old(m.b) || m.b == null)
      ensures (hamt == old(hamt) || fresh(hamt)) && (live == old(live) || fresh(live))
      ensures Underway(old(Traced()), Traced(), ring.log2, [Set(key, value)], old(Saved()), old(Current()))
      ensures old(!HasUncommitted() && !Astray()) && Fine(r) ==> !Astray() && strayed == old(strayed)
      ensures Fine(r) ==> Valid() && log != [] && Left([Set(key, value)], old(Saved()), old(Current()))
      ensures r.Err? ==> Refusal(r.error)
      ensures r.Ok? ==> EitherFold([Set(key, value)], old(Saved()), old(Current()), Current())
      ensures old(!HasUncommitted()) && r.Ok? ==> Saved() == old(Current())[key := Full(value)] && Current() == Saved() && !HasUncommitted()
      ensures old(!HasUncommitted()) ==> OnlyMaps(log, |old(log)|, old(Current()), old(Current())[key := Full(value)])
      ensures old(!HasUncommitted()) && Fine(r) ==>
        (Saved() == old(Current()) || Saved() == old(Current())[key := Full(value)])
        && (Current() == old(Current()) || Current() == old(Current())[key := Full(value)])
    {
      hide Vault.Valid, Vault.Current, Vault.HasUncommitted, Vault.Astray, Progress, Good, OnlyMaps, Landed, Underway, MayLeave, EitherFold;
      Alive();
      PristineSaved();
      ghost var replayed;
      OneOp(Set(key, value), Current());
      ghost var a, b, clean := Saved(), Current(), !HasUncommitted();
      r, replayed := ApplyBatch([Set(key, value)], now);
      if clean {
        LandedWays(log, |old(log)|, [Set(key, value)], b, replayed);
        OneOpWays(log, |old(log)|, Set(key, value), b);
        if Fine(r) {
          OneOpLeft(Set(key, value), b, b, Saved());
          OneOpLeft(Set(key, value), b, b, Current());
        }
      }
    }

    /** Delete, durable on return; false when the key was absent, and then nothing is committed. Refused, the delete stays
        pending in memory. */
    method Delete(key: Key, now: int) returns (r: Result<bool>)
      requires Valid()
      modifies this, hamt, live, ring`head, tract`plow, tract`reap, tract`fence, m, m.a, m.b
      ensures m.Prim() == old(m.Prim()) && (m.b == old(m.b) || m.b == null) && hamt == old(hamt) && live == old(live)
      ensures Moved(old(Traced()), Traced(), ring.log2, old(Current()) - {key}) && waived == old(waived)
      ensures old(!HasUncommitted() && !Astray()) && Fine(r) ==> !Astray() && strayed == old(strayed)
      ensures Fine(r) ==> Valid() && Current() == old(Current()) - {key}
      ensures r.Ok? ==> (r.value <==> key in old(Current())) && (if r.value then Saved() == Current() else log == old(log))
      ensures r.Ok? && old(!HasUncommitted()) ==> !HasUncommitted()
    {
      hide Vault.Valid, Vault.Current, Vault.HasUncommitted, Progress, Moved, Good;
      Begin(Current());
      ghost var t0, map1 := Traced(), Current() - {key};
      var existed := DeleteTry(key);
      Still(t0, map1);
      if !existed {
        r := Ok(false);
      } else {
        ghost var t1 := Traced();
        var landed := Commit(now);
        MovedThen(t0, t1, Traced(), ring.log2, map1, map1);
        if landed.Ok? {
          ghost var t2 := Traced();
          landed := MaybeReap(now);
          MovedThen(t0, t2, Traced(), ring.log2, map1, map1);
          MovedLogs(t1, t2, ring.log2, map1);
          MovedSame(t2, Traced(), ring.log2, map1);
        }
        r := if landed.Ok? then Ok(true) else Err(landed.error);
      }
    }

    /** The value of a key, verified block by block. */
    method Get(key: Key) returns (r: Result<Option<Value>>)
      requires Valid()
      modifies m`cache, m`uses
      ensures Valid() && Current() == old(Current()) && History() == old(History())
      ensures r == if key in Current() then Answer(Current()[key]) else Ok(None)
    {
      hide Good, LiveTrue, Pow2, Wf, Tr, Poised, Sound, Once, Home, Overlay, Last, Flat, CacheSorted, CacheTrue;
      Ready();
      ContentKeys(tract.View(m), hamt.Index());
      r := hamt.Lookup(m, tract, key);
    }

    function HeadTime(): int
      requires ring.head.Some?
      reads ring
    {
      ring.head.value.time
    }

    /** Too little below the fence for a window with its reserve. */
    predicate Wedged()
      reads tract
    {
      FenceRoom().Some? && FenceRoom().value < ReapWindow() + 8
    }
  }

  // ---------------------------------------------------------------- opening

  /** The watch an open begins with: the fence is in force when the ring still says so. */
  ghost function OpenWatch(disk: seq<Block>, log2: nat, log: seq<Gen>, floor: nat): Watch
    requires log != [] && Past(log, 0).entry.tract > 0 && Pow2(log2) <= |disk|
  {
    var e := Past(log, 0).entry;
    Watch(0, 0, Fence(disk, log2, e).Some?, floor)
  }

  /** Open an existing vault: the ring from the file, the head from the ring, the live set from a walk of the head's
      index, the reap derived from it, the fence from the last generations; a head wedged against its fence is rescued
      or grown at once. On a device that restores a generation, the vault opened reads as exactly its map; what earlier
      sessions kept of the window is kept on, and a cut during the open itself loses nothing either. */
  method Open(m: Mirror, ghost log2: nat, ghost log: seq<Gen>, ghost floor: nat) returns (r: Result<Vault>, ghost t: Trace)
    requires m.Valid() && m.Settled() && Generations.Linked(log) && floor < |log| && RestoresAt(m.disk, log2, log, |log| - 1, floor)
    modifies m, m.a, m.b
    ensures m.Prim() == old(m.Prim()) && m.Prim() != null && t.moments == m.History()
    ensures Pow2(log2) <= |old(m.disk)| && Past(log, 0).entry.tract > 0
    ensures Moved(Trace(old(m.History()), log, OpenWatch(old(m.disk), log2, log, floor)), t, log2, Past(log, 0).content)
    ensures r.Err? ==> Down(r.error)
    ensures r.Ok? ==> fresh(r.value) && r.value.m == m && r.value.Valid() && r.value.Current() == Past(log, 0).content
    ensures r.Ok? ==> r.value.ring.log2 == log2 && r.value.Traced() == t
  {
    hide Good, LiveTrue, Wf, Tr, Content, Pos, Progress, Moved, Says, SaysRing, Spined, Stands, Pow2, Restores, Deepens, OpenWatch,
         Generations.Linked,
         Mirrors.Mirror.Valid, Rings.Ring.Valid, Vault.Valid, Vault.Current, Vault.HasUncommitted, Vault.Traced;
    RestoresFits(m.disk, log2, Past(log, 0));
    var vault := Resume(m, log2, log, floor);
    ghost var t0, map0 := vault.Traced(), Past(log, 0).content;
    vault.Begin(map0);
    vault.Told();
    var now := vault.HeadTime() + 1;
    if vault.Wedged() {
      var rescued := vault.Rescue(now);
      ghost var t1 := vault.Traced();
      vault.Told();
      if rescued.Err? && Down(rescued.error) {
        return Err(rescued.error), t1;
      }
      MovedSame(t0, t1, log2, map0);
      if rescued.Err? && rescued.error.TractFull? {
        vault.HeadPositive();
        var space := vault.Grow(vault.tract.len * 2, now);
        vault.Told();
        MovedThen(t0, t1, vault.Traced(), log2, map0, map0);
        if space.Err? {
          return Err(space.error), vault.Traced();
        }
      }
    }
    return Ok(vault), vault.Traced();
  }

  /** What an open makes of any ring that can be found, whatever slots are unreadable behind its newest one: its size from
      the file, its head by the search, the live set from a walk of the head's index, and an index that reads as exactly
      the map committed. */
  method Load(m: Mirror, ghost log2: nat, ghost g: Gen) returns (ring: Ring, tract: Tract, live: LiveSet, hamt: Hamt)
    requires m.Valid() && Loads(m.disk, log2, g)
    ensures fresh(ring) && fresh(tract) && fresh(live) && fresh(hamt) && Pow2(log2) <= |m.disk|
    ensures ring.log2 == log2 && ring.head == Some(g.entry) && ring.Valid(m)
    ensures tract.base == Pow2(log2) && tract.len == g.entry.tract && tract.plow == g.entry.plow
    ensures tract.reap <= tract.plow <= tract.reap + tract.len && Lap(tract.plow, tract.reap + tract.len, tract.len) !! Pos(g.entry.root)
    ensures tract.fence == Fence(m.disk, log2, g.entry)
    ensures live.Positions() == Pos(g.entry.root) && LiveTrue(tract.View(m), live.map_)
    ensures hamt.Valid() && hamt.Index() == g.entry.root && hamt.delta == Delta([], []) && !hamt.HasUncommitted()
    ensures Sound(hamt.Index(), []) && Held(tract.View(m), hamt.Index()) && Content(tract.View(m), hamt.Index()) == g.content
  {
    hide LiveTrue, Wf, Tr, Content, Pos, RingHolds, Chained, Classify, Sound, Once, Held, Lap, Fence, Findable, Says, SaysRing,
         Mirrors.Mirror.Valid, Rings.Ring.Valid;
    LoadsFits(m.disk, log2, g);
    FindableSays(m.disk, log2);
    var found := Bootstrap(m);
    ring := OpenRing(m, found.value, g.entry);
    tract, live := OpenTract(m, ring, g);
    hamt := new Hamt(ring.head.value.root);
    assert tract.View(m) == MediumOf(m.disk, Pow2(log2), g.entry);
  }

  /** A vault over the newest generation, nothing pending. */
  method Resume(m: Mirror, ghost log2: nat, ghost log: seq<Gen>, ghost floor: nat) returns (v: Vault)
    requires m.Valid() && m.Settled() && Generations.Linked(log) && floor < |log| && RestoresAt(m.disk, log2, log, |log| - 1, floor)
    ensures fresh(v) && fresh(v.ring) && fresh(v.tract) && fresh(v.hamt) && fresh(v.live)
    ensures Pow2(log2) <= |m.disk| && Past(log, 0).entry.tract > 0 && m.Prim() == old(m.Prim()) && m.Prim() != null
    ensures v.m == m && v.Valid() && v.Current() == Past(log, 0).content && !v.HasUncommitted() && v.ring.log2 == log2
    ensures v.Traced() == Trace(old(m.History()), log, OpenWatch(m.disk, log2, log, floor))
  {
    hide Good, LiveTrue, Wf, Tr, Content, Pos, Lap, Fence, Restores, Deepens, Loads, Held, Generations.Linked,
         Mirrors.Mirror.Valid, Rings.Ring.Valid, Hamts.Hamt.Valid;
    ghost var g := Past(log, 0);
    RestoresFits(m.disk, log2, g);
    RestoresLoads(m.disk, log2, g);
    MirrorAlive(m);
    var ring, tract, live, hamt := Load(m, log2, g);
    OpenKeeps(m.disk, log2, log, floor, tract.reap);
    v := new Vault(m, ring, tract, hamt, live, floor, log);
    Settles(m);
    assert v.Snap() == Opened(m.disk, log2, log, floor, tract.reap);
    v.Again(v.Snap());
    ViewIs(v);
  }

  method OpenRing(m: Mirror, log2: nat, ghost head: Entry) returns (ring: Ring)
    requires m.Valid() && Headed(m.disk, log2, head)
    ensures fresh(ring) && ring.log2 == log2 && ring.head == Some(head) && ring.Valid(m)
  {
    hide RingHolds, Chained, Classify, Mirrors.Mirror.Valid;
    ring := new Ring(log2);
    ring.HeadSearch(m, head);
  }

  /** The tract as the head left it: length and plow recorded, the reap derived from what the walk finds live, the fence
      from the last generations. */
  method OpenTract(m: Mirror, ring: Ring, ghost g: Gen) returns (tract: Tract, live: LiveSet)
    requires m.Valid() && ring.Valid(m) && ring.head == Some(g.entry) && Stands(m.disk, Pow2(ring.log2), g)
    ensures fresh(tract) && fresh(live) && tract.base == Pow2(ring.log2) && tract.len == g.entry.tract && tract.plow == g.entry.plow
    ensures tract.reap <= tract.plow <= tract.reap + tract.len && Lap(tract.plow, tract.reap + tract.len, tract.len) !! Pos(g.entry.root)
    ensures tract.fence == Fence(m.disk, ring.log2, g.entry)
    ensures live.Positions() == Pos(g.entry.root) && LiveTrue(tract.View(m), live.map_)
    ensures g.entry.root.Nil? || Blocks.Committed(g.entry.root)
  {
    hide RingHolds, Chained, Classify, Sound, Once, Held, Content, Pos, Lap, LiveTrue, Budgets, Mirrors.Mirror.Valid;
    var head := ring.head.value;
    var n := ring.Slots();
    StandsBelow(m.disk, Pow2(ring.log2), g);
    tract := new Tract(n, head.tract, head.plow, 0, None);
    var walked := LiveOf(m, tract, head.root);
    live := walked.value;
    tract.reap := DeriveReap(tract.plow, tract.len, live.Positions());
    var budgets := ring.RecentFences(m);
    tract.fence := FenceFrom(budgets);
  }

  /** Whatever a cut left, reopening it reads as exactly the map of the newest generation whose entry landed: one of
      those the history promised, with the window behind it. */
  method Reopen(m: Mirror, ghost log2: nat, ghost log: seq<Gen>, ghost lo: nat, ghost floor: nat)
    returns (r: Result<Vault>, ghost j: nat, ghost t: Trace)
    requires m.Valid() && m.Settled() && Generations.Linked(log) && RestoresOne(m.disk, log2, log, lo, floor)
    modifies m, m.a, m.b
    ensures lo <= j < |log| && Pow2(log2) <= |old(m.disk)| && Newest(old(m.disk), log2, 0, Pow2(log2)) == Some(log[j].entry)
    ensures m.Prim() == old(m.Prim()) && m.Prim() != null && t.moments == m.History() && log[j].entry.tract > 0
    ensures Moved(Trace(old(m.History()), log[..j + 1], OpenWatch(old(m.disk), log2, log[..j + 1], Min(floor, j))), t, log2, log[j].content)
    ensures r.Err? ==> Down(r.error)
    ensures r.Ok? ==> fresh(r.value) && r.value.Valid() && r.value.Current() == log[j].content && r.value.Traced() == t
    ensures r.Ok? ==> r.value.m == m && r.value.ring.log2 == log2
  {
    hide Restores, Deepens, Newest, Pow2, Moved, Vault.Valid, Vault.Current, Vault.Traced, Mirrors.Mirror.Valid, Generations.Linked, OpenWatch;
    j :| lo <= j < |log| && RestoresAt(m.disk, log2, log, j, floor);
    RestoresLoads(m.disk, log2, log[j]);
    NewestStands(m.disk, log2, log[j]);
    LogTo(m.disk, log2, log, j, floor);
    r, t := Open(m, log2, log[..j + 1], Min(floor, j));
  }

  /** The log as far as the generation restored. */
  lemma {:induction false} LogTo(disk: seq<Block>, log2: nat, log: seq<Gen>, j: nat, floor: nat)
    requires Generations.Linked(log) && j < |log| && RestoresAt(disk, log2, log, j, floor)
    ensures Generations.Linked(log[..j + 1]) && Past(log[..j + 1], 0) == log[j]
    ensures RestoresAt(disk, log2, log[..j + 1], j, Min(floor, j))
  {
    RestoresFits(disk, log2, log[j]);
    LinkedTo(log, j);
    hide Restores, Stands, Spined, NextDeep, Overrun, Generations.Linked, Pow2;
    var sofar := log[..j + 1];
    assert sofar[..j] == log[..j] && sofar[j] == log[j];
    forall k | 0 <= k < |sofar| && InWindow(sofar, j, Min(floor, j), k)
      ensures Stands(disk, Pow2(log2), sofar[k])
    {
      assert k < j ==> InWindow(log, j, floor, k);
    }
  }

  /** A device loads only the newest generation its ring holds. */
  lemma {:induction false} NewestStands(disk: seq<Block>, log2: nat, g: Gen)
    requires Loads(disk, log2, g)
    ensures Pow2(log2) <= |disk| && Newest(disk, log2, 0, Pow2(log2)) == Some(g.entry)
  {
    hide Stands, RingHolds, Chained, Classify, Findable, Newest, Pow2;
    HeadIsNewest(disk, log2, g.entry);
  }

  // ---------------------------------------------------------------- genesis

  /** A fresh vault: the ring zeroed, generation 0 written over an empty index, the rest of the device the tract. */
  method Format(m: Mirror, log2: nat, now: int) returns (r: Result<Vault>)
    requires m.Valid() && 0 < log2 <= 32
    modifies m, m.a, m.b
    ensures r.Err? ==> Down(r.error) || r.error.Corrupt?
    ensures r.Ok? ==> fresh(r.value) && r.value.m == m && r.value.Valid() && r.value.Current() == map[] && r.value.Saved() == map[]
    ensures r.Ok? ==> r.value.ring.log2 == log2 && r.value.tract.len == |old(m.disk)| - Pow2(log2) && !r.value.Overran()
  {
    hide Vault.Valid, Vault.Current, Good, Restores, RingHolds, Classify, Rings.Ring.Valid, Mirrors.Mirror.Valid, Pow2;
    var ring := new Ring(log2);
    var n := ring.Slots();
    var total := m.Blocks();
    if total <= n {
      return Err(Error.Corrupt);
    }
    var e := Entry(0, Prev.Genesis, log2, total - n, Nil, 0, Some(0), 0, now);
    var wrote := WriteGenesis(m, ring, e);
    if wrote.Err? {
      return Err(wrote.error);
    }
    var v := FirstVault(m, ring, e);
    return Ok(v);
  }

  ghost predicate SealsOn(store: seq<Block>) {
    exists p :: 0 <= p < |store| && IsSealed(store[p])
  }

  /** Whether anything sealed lies anywhere on a device. */
  method AnySealed(dev: Device) returns (found: bool)
    ensures found <==> SealsOn(dev.store)
  {
    for lba := 0 to |dev.store|
      invariant forall p :: 0 <= p < lba ==> !IsSealed(dev.store[p])
    {
      var block := dev.Read(lba);
      if IsSealed(block.value) {
        return true;
      }
    }
    return false;
  }

  /** Something sealed lies on one of the devices. */
  ghost predicate Inhabited(m: Mirror)
    reads m, m.a, m.b
  {
    (m.a != null && SealsOn(m.a.store)) || (m.b != null && SealsOn(m.b.store))
  }

  /** One of the first slots holds an entry. */
  ghost predicate Found(disk: seq<Block>) {
    exists s :: 0 <= s < PROBES && s < |disk| && Says(disk, s)
  }

  /** The whole ladder of an open: a ring that can be found is opened; where none is, one sealed block anywhere on either
      device means a vault that lost its spine, and it is refused untouched; only drives with none are formatted. */
  method OpenOrFormat(m: Mirror, log2: nat, now: int, ghost ringLog2: nat, ghost log: seq<Gen>, ghost floor: nat) returns (r: Result<Vault>)
    requires m.Valid() && m.Settled() && 0 < log2 <= 32
    requires Found(m.disk) ==> Generations.Linked(log) && floor < |log| && RestoresAt(m.disk, ringLog2, log, |log| - 1, floor)
    modifies m, m.a, m.b
    ensures r.Ok? ==> fresh(r.value) && r.value.m == m && r.value.Valid()
    ensures r.Err? ==> Down(r.error) || (r.error.Corrupt? && !old(Found(m.disk)))
    ensures old(Found(m.disk)) && r.Ok? ==> r.value.Current() == Past(log, 0).content && r.value.ring.log2 == ringLog2
    ensures !old(Found(m.disk)) && old(Inhabited(m)) ==>
      && r == Err(Error.Corrupt) && m.b == old(m.b)
      && (m.a != null ==> m.a.store == old(m.a.store) && m.a.history == old(m.a.history))
      && (m.b != null ==> m.b.store == old(m.b.store) && m.b.history == old(m.b.history))
    ensures !old(Found(m.disk)) && r.Ok? ==> !old(Inhabited(m)) && r.value.Current() == map[] && r.value.ring.log2 == log2
  {
    hide Restores, Deepens, Generations.Linked, Says, SaysRing, Spined, Stands, Moved, OpenWatch, SealsOn, Pow2,
         Vault.Valid, Vault.Current, Vault.Traced, Mirrors.Mirror.Valid;
    var found := Bootstrap(m);
    if found.Some? {
      ghost var t;
      Spoken(m.disk, found.value);
      r, t := Open(m, ringLog2, log, floor);
      return r;
    }
    var lived := false;
    if m.a != null {
      lived := AnySealed(m.a);
    }
    if m.b != null {
      var other := AnySealed(m.b);
      lived := lived || other;
    }
    if lived {
      return Err(Error.Corrupt);
    }
    r := Format(m, log2, now);
  }

  lemma {:induction false} Spoken(disk: seq<Block>, r: nat)
    requires SaysRing(disk, r)
    ensures Found(disk)
  {
    hide Says;
    var s: nat :| FirstSaid(disk, s) && disk[s].entry.ringLog2 == r;
  }

  method WriteGenesis(m: Mirror, ring: Ring, e: Entry) returns (r: Result<()>)
    requires m.Valid() && ring.head == None && 0 < ring.log2 <= 32 && Pow2(ring.log2) + e.tract <= |m.disk|
    requires e.gen == 0 && e.prev.Genesis? && e.ringLog2 == ring.log2 && e.root == Nil && e.tract > 0 && e.plow == 0 && e.reap == Some(0)
    modifies ring`head, m, m.a, m.b
    ensures r.Err? ==> Down(r.error)
    ensures r.Ok? ==> m.Valid() && m.Settled() && ring.Valid(m) && ring.head == Some(e) && Restores(m.disk, ring.log2, Gen(e, map[]))
  {
    hide RingHolds, Classify, Chained, Restores, Content, Pow2, Mirrors.Mirror.Valid, Devices.Moves;
    var n := ring.Slots();
    var zeroed := ZeroRing(m, n);
    if zeroed.Err? {
      return zeroed;
    }
    FreshRing(m, ring);
    MirrorAlive(m);
    ModSmall(0, n);
    r := ring.Append(m, e);
    if r.Ok? {
      GenesisStands(m, ring.log2, Gen(e, map[]));
    }
  }

  method FirstVault(m: Mirror, ring: Ring, e: Entry) returns (v: Vault)
    requires m.Valid() && m.Settled() && ring.Valid(m) && ring.head == Some(e) && Restores(m.disk, ring.log2, Gen(e, map[]))
    requires e.root.Nil? && e.plow == 0 && e.reap == Some(0)
    ensures fresh(v) && v.m == m && v.ring == ring && v.Valid() && v.Current() == map[] && v.Saved() == map[]
    ensures v.tract.len == e.tract && !v.Overran()
  {
    hide Good, LiveTrue, Wf, Tr, Content, RingHolds, Classify, Chained, Restores, Lap, Spined, Stands, Budgets, Mirrors.Mirror.Valid,
         Hamts.Hamt.Valid, Deepens;
    ghost var g := Gen(e, map[]);
    RestoresFits(m.disk, ring.log2, g);
    GenesisClean(e.tract);
    LoneLog(m.disk, ring.log2, g);
    OpenKeeps(m.disk, ring.log2, [g], 0, 0);
    var n := ring.Slots();
    var budgets := ring.RecentFences(m);
    var tract := new Tract(n, e.tract, 0, 0, FenceFrom(budgets));
    var hamt := new Hamt(Nil);
    var live := new LiveSet();
    v := new Vault(m, ring, tract, hamt, live, 0, [g]);
    Settles(m);
    NothingLive(tract.View(m));
    assert v.Snap() == Opened(m.disk, ring.log2, [g], 0, 0);
    v.Again(v.Snap());
    ViewIs(v);
  }

  lemma {:induction false} NothingLive(v: Medium)
    ensures LiveTrue(v, map[])
  {
  }

  lemma {:induction false} GenesisClean(len: nat)
    requires len > 0
    ensures Lap(0, len, len) !! Pos(Nil) && Pos(Nil) == {}
  {
  }

  method ZeroRing(m: Mirror, n: nat) returns (r: Result<()>)
    requires m.Valid() && n <= |m.disk|
    modifies m, m.a, m.b
    ensures m.Prim() == old(m.Prim()) && (m.b == old(m.b) || m.b == null)
    ensures r.Err? ==> Down(r.error)
    ensures r.Ok? ==> m.Valid() && |m.disk| == |old(m.disk)| && forall s :: 0 <= s < n ==> m.disk[s].Zero?
  {
    hide Last, Flat, Overlay, CacheSorted, CacheTrue, Devices.Moves, Mirrors.Mirror.Valid;
    for slot := 0 to n
      invariant m.Valid() && |m.disk| == |old(m.disk)| && m.Prim() == old(m.Prim()) && (m.b == old(m.b) || m.b == null)
      invariant forall s :: 0 <= s < slot ==> m.disk[s].Zero?
    {
      MirrorAlive(m);
      var wrote := m.WriteVerified(slot, Zero);
      if wrote.Err? {
        return wrote;
      }
    }
    return Ok(());
  }

  lemma {:induction false} MirrorAlive(m: Mirror)
    requires m.Valid()
    ensures m.Prim() != null
  {
  }

  lemma {:induction false} FreshRing(m: Mirror, ring: Ring)
    requires 0 < ring.log2 <= 32 && ring.head == None && Pow2(ring.log2) <= |m.disk|
    requires forall s :: 0 <= s < Pow2(ring.log2) ==> m.disk[s].Zero?
    ensures ring.Valid(m)
  {
  }

  lemma {:induction false} GenesisStands(m: Mirror, log2: nat, g: Gen)
    requires m.Valid() && 0 < log2 <= 32 && Pow2(log2) + g.entry.tract <= |m.disk| && g.content == map[]
    requires g.entry.gen == 0 && g.entry.prev.Genesis? && g.entry.ringLog2 == log2 && g.entry.root == Nil && g.entry.tract > 0
    requires Geometry(g.entry)
    requires m.disk[0] == Spine(g.entry) && forall s :: 0 < s < Pow2(log2) ==> m.disk[s].Zero?
    ensures Restores(m.disk, log2, g)
  {
    GenesisRestores(m.disk, log2, g.entry);
  }

  lemma {:induction false} Settles(m: Mirror)
    requires m.Valid() && m.Settled()
    ensures m.Durable() == m.disk && m.Staged() == map[]
  {
  }

  lemma {:induction false} ViewIs(v: Vault)
    requires v.Valid()
    ensures v.Current() == Map(v.Snap())
  {
  }


  lemma {:induction false} FlushPoised(v: Medium, w: Medium, sv: map<nat, Block>, sw: map<nat, Block>, t: Tree, u: Tree, d: Delta, e: Delta,
                                       live: set<nat>, since: nat, from: nat, to: nat)
    requires Poised(v, t, d, live, since, from) && Appended(v, w, sv, sw, from, to) && Lap(from, to, v.len) !! live && to <= since + v.len
    requires Sound(u, []) && Once(u) && Held(w, u) && Accounted(w, t, u, d, e, Lap(from, to, v.len))
    ensures Poised(w, u, e, live, since, to) && d.removed <= e.removed && d.added <= e.added
  {
    hide *;
    PoisedStep(v, w, sv, sw, t, u, d, e, Lap(from, to, v.len), live, since, from, to);
    AccountedGrows(w, t, u, d, e, Lap(from, to, v.len));
  }

  lemma {:induction false} AccountedGrows(v: Medium, t: Tree, u: Tree, d: Delta, e: Delta, added: set<nat>)
    requires Accounted(v, t, u, d, e, added)
    ensures d.removed <= e.removed && d.added <= e.added
  {
  }

  lemma {:induction false} SettlesFlushed(s: State, v: Medium, u: Tree, e: Delta, to: nat)
    requires Good(s) && Flushed(s.index, u, [], s.plow, to, s.len) && Accounted(v, s.index, u, s.delta, e, Lap(s.plow, to, s.len))
    ensures e == Delta([], []) && !IsDirty(u) ==> u == Head(s).root
  {
    hide Flushed, Accounted;
    if e == Delta([], []) && !IsDirty(u) {
      NothingFlushed(s.index, u, s.delta, e, v, s.plow, to, s.len);
    }
  }
}
