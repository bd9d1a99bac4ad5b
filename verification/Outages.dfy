/** Whole runs: any commands in any order, power cut at any device write, and the vault opened again. */
module Outages {
  import opened Blocks
  import opened Runs
  import opened Trie
  import opened Media
  import opened Devices
  import opened Mirrors
  import opened Tracts
  import opened Hamts
  import opened Rings
  import opened Generations
  import opened Sessions
  import opened Batches
  import opened Vaults

  datatype Command =
    | PutOne(key: Key, value: Value)
    | Remove(key: Key)
    | Batch(ops: seq<Op>)
    | CommitNow
    | Reap(cap: nat)
    | GrowTo(tract: nat)
    | RescueNow

  /** The edits a command asks for. */
  function Edits(c: Command): seq<Op> {
    match c
    case PutOne(key, value) => [Set(key, value)]
    case Remove(key) => [Unset(key)]
    case Batch(ops) => ops
    case _ => []
  }

  /** At most one edit: no window can be reaped in the middle of it. */
  predicate Small(c: Command) {
    |Edits(c)| <= 1
  }

  /** A command that never waives the fence. */
  predicate Gentle(c: Command) {
    c.Remove? || c.CommitNow? || c.Reap? || c.GrowTo?
  }

  function AllEdits(cs: seq<Command>): seq<Op> {
    if cs == [] then [] else AllEdits(cs[..|cs| - 1]) + Edits(cs[|cs| - 1])
  }

  // ---------------------------------------------------------------- what a run commits

  /** The map once the first `i` commands are done. */
  function After(cs: seq<Command>, i: nat, m: map<Key, Stored>): map<Key, Stored>
    requires i <= |cs|
  {
    Fold(AllEdits(cs[..i]), m)
  }

  lemma {:induction false} AfterNext(cs: seq<Command>, i: nat, m: map<Key, Stored>)
    requires i < |cs|
    ensures After(cs, i + 1, m) == Fold(Edits(cs[i]), After(cs, i, m))
  {
    assert cs[..i + 1][..i] == cs[..i];
    FoldJoin(AllEdits(cs[..i]), Edits(cs[i]), m);
  }

  /** What a command makes of a map: all of its edits once it is done, that is accepted with nothing left uncommitted;
      what they may commit on the way otherwise. */
  ghost predicate Outcome(ops: seq<Op>, done: bool, y: map<Key, Stored>, x: map<Key, Stored>) {
    if done then x == Fold(ops, y) else MayCommit(ops, y, x)
  }

  /** A map that may be saved, or current, after the first `n` commands of a run begun over `a` saved and `b` current. */
  ghost predicate Possible(cs: seq<Command>, done: seq<bool>, n: nat, a: map<Key, Stored>, b: map<Key, Stored>, x: map<Key, Stored>)
    requires n <= |cs| && n <= |done|
    decreases n
  {
    if n == 0 then x == a || x == b
    else
      var ops, d := Edits(cs[n - 1]), done[n - 1];
      exists y: map<Key, Stored> :: Possible(cs, done, n - 1, a, b, y) && Outcome(ops, d, y, x)
  }

  /** A map some command of the run may commit, over one possible when it began. */
  ghost predicate Explains(cs: seq<Command>, done: seq<bool>, a: map<Key, Stored>, b: map<Key, Stored>, x: map<Key, Stored>) {
    exists i: nat, y: map<Key, Stored> :: CommitsAt(cs, done, a, b, i, y, x)
  }

  /** The command `i`, over a map possible when it began, may commit this one. */
  ghost predicate CommitsAt(cs: seq<Command>, done: seq<bool>, a: map<Key, Stored>, b: map<Key, Stored>, i: nat, y: map<Key, Stored>,
                            x: map<Key, Stored>) {
    i < |cs| && i <= |done| && Possible(cs, done, i, a, b, y) && MayCommit(Edits(cs[i]), y, x)
  }

  ghost predicate Explained(log: seq<Gen>, from: nat, cs: seq<Command>, done: seq<bool>, a: map<Key, Stored>, b: map<Key, Stored>) {
    forall j :: from <= j < |log| ==> Explains(cs, done, a, b, log[j].content)
  }

  lemma {:induction false} NoneExplained(log: seq<Gen>, cs: seq<Command>, a: map<Key, Stored>, b: map<Key, Stored>)
    ensures Explained(log, |log|, cs, [], a, b) && Possible(cs, [], 0, a, b, a) && Possible(cs, [], 0, a, b, b)
  {
  }

  /** What the last command began over. */
  lemma {:induction false} PossibleFrom(cs: seq<Command>, done: seq<bool>, n: nat, a: map<Key, Stored>, b: map<Key, Stored>, x: map<Key, Stored>)
    returns (y: map<Key, Stored>)
    requires 0 < n <= |cs| && n <= |done| && Possible(cs, done, n, a, b, x)
    ensures Possible(cs, done, n - 1, a, b, y) && Outcome(Edits(cs[n - 1]), done[n - 1], y, x)
  {
    hide Outcome, Edits;
    var ops, d := Edits(cs[n - 1]), done[n - 1];
    y :| Possible(cs, done, n - 1, a, b, y) && Outcome(ops, d, y, x);
  }

  lemma {:induction false} PossibleMore(cs: seq<Command>, done: seq<bool>, d: bool, n: nat, a: map<Key, Stored>, b: map<Key, Stored>,
                                        x: map<Key, Stored>)
    requires n <= |cs| && n <= |done| && Possible(cs, done, n, a, b, x)
    ensures Possible(cs, done + [d], n, a, b, x)
    decreases n
  {
    hide Outcome, Edits;
    if n > 0 {
      var y := PossibleFrom(cs, done, n, a, b, x);
      PossibleMore(cs, done, d, n - 1, a, b, y);
      assert Outcome(Edits(cs[n - 1]), (done + [d])[n - 1], y, x);
    }
  }

  /** One command further. */
  lemma {:induction false} PossibleNext(cs: seq<Command>, done: seq<bool>, d: bool, a: map<Key, Stored>, b: map<Key, Stored>,
                                        saved: map<Key, Stored>, current: map<Key, Stored>, x: map<Key, Stored>)
    requires |done| < |cs| && Possible(cs, done, |done|, a, b, saved) && Possible(cs, done, |done|, a, b, current)
    requires if d then EitherFold(Edits(cs[|done|]), saved, current, x) else MayLeave(Edits(cs[|done|]), saved, current, x)
    ensures Possible(cs, done + [d], |done| + 1, a, b, x)
  {
    var n := |done|;
    PossibleMore(cs, done, d, n, a, b, saved);
    PossibleMore(cs, done, d, n, a, b, current);
    hide MayCommit, Edits, Fold;
    assert Outcome(Edits(cs[n]), d, saved, x) || Outcome(Edits(cs[n]), d, current, x);
    hide Outcome;
    ghost var y := if Outcome(Edits(cs[n]), d, saved, x) then saved else current;
    assert Possible(cs, done + [d], n, a, b, y) && Outcome(Edits(cs[n]), (done + [d])[n], y, x);
  }

  lemma {:induction false} ExplainedNext(t0: Trace, t1: Trace, t2: Trace, log2: nat, cs: seq<Command>, done: seq<bool>,
                                         a: map<Key, Stored>, b: map<Key, Stored>, saved: map<Key, Stored>, current: map<Key, Stored>)
    requires |done| < |cs| && Progress(t0, t1, log2) && Underway(t1, t2, log2, Edits(cs[|done|]), saved, current)
    requires Possible(cs, done, |done|, a, b, saved) && Possible(cs, done, |done|, a, b, current)
    requires Explained(t1.log, |t0.log|, cs, done, a, b)
    ensures Explained(t2.log, |t0.log|, cs, done, a, b)
  {
    ProgressLogs(t0, t1, log2);
    UnderwayLogs(t1, t2, log2, Edits(cs[|done|]), saved, current);
    hide Progress, MayCommit, Edits, Possible;
    forall j | |t0.log| <= j < |t2.log|
      ensures Explains(cs, done, a, b, t2.log[j].content)
    {
      if j < |t1.log| {
        assert t2.log[j] == t1.log[j];
      } else {
        assert MayLeave(Edits(cs[|done|]), saved, current, t2.log[j].content);
        assert CommitsAt(cs, done, a, b, |done|, saved, t2.log[j].content) || CommitsAt(cs, done, a, b, |done|, current, t2.log[j].content);
      }
    }
  }

  lemma {:induction false} ExplainedMore(log: seq<Gen>, from: nat, cs: seq<Command>, done: seq<bool>, d: bool,
                                         a: map<Key, Stored>, b: map<Key, Stored>)
    requires Explained(log, from, cs, done, a, b)
    ensures Explained(log, from, cs, done + [d], a, b)
  {
    hide MayCommit, Edits, Possible;
    forall j | from <= j < |log|
      ensures Explains(cs, done + [d], a, b, log[j].content)
    {
      var x := log[j].content;
      assert Explains(cs, done, a, b, x);
      var i: nat, y: map<Key, Stored> :| CommitsAt(cs, done, a, b, i, y, x);
      PossibleMore(cs, done, d, i, a, b, y);
      assert CommitsAt(cs, done + [d], a, b, i, y, x);
    }
  }

  /** Over a clean vault, with every command done, only one map is possible: the edits so far, in order. */
  lemma {:induction false} DonePossible(cs: seq<Command>, done: seq<bool>, n: nat, m: map<Key, Stored>, x: map<Key, Stored>)
    requires n <= |cs| && n <= |done| && (forall i :: 0 <= i < n ==> done[i]) && Possible(cs, done, n, m, m, x)
    ensures x == After(cs, n, m)
    decreases n
  {
    hide *;
    if n == 0 {
      NothingPossible(cs, done, m, x);
      NothingDone(cs, m);
    } else {
      var y := PossibleFrom(cs, done, n, m, m, x);
      DonePossible(cs, done, n - 1, m, y);
      AfterNext(cs, n - 1, m);
      OutcomeDone(Edits(cs[n - 1]), y, x);
    }
  }

  lemma {:induction false} NothingPossible(cs: seq<Command>, done: seq<bool>, m: map<Key, Stored>, x: map<Key, Stored>)
    requires Possible(cs, done, 0, m, m, x)
    ensures x == m
  {
  }

  lemma {:induction false} OutcomeDone(ops: seq<Op>, y: map<Key, Stored>, x: map<Key, Stored>)
    requires Outcome(ops, true, y, x)
    ensures x == Fold(ops, y)
  {
  }

  /** So each generation of such a run holds the edits of the commands done, and what the running one may commit of its
      own. */
  lemma {:induction false} DoneExplains(cs: seq<Command>, done: seq<bool>, m: map<Key, Stored>, x: map<Key, Stored>)
    requires (forall i :: 0 <= i < |done| ==> done[i]) && Explains(cs, done, m, m, x)
    ensures exists i: nat :: i < |cs| && MayCommit(Edits(cs[i]), After(cs, i, m), x)
  {
    hide MayCommit, Edits, After;
    var i: nat, y: map<Key, Stored> :| CommitsAt(cs, done, m, m, i, y, x);
    DonePossible(cs, done, i, m, y);
  }

  // ---------------------------------------------------------------- commands and runs

  /** One command. Every cut meanwhile restores a generation of the log, none older than the newest at the start, and each
      generation, the saved map and the current one hold what the command may leave of its edits; once accepted, the
      current map holds all of them. */
  method Act(v: Vault, c: Command, now: int) returns (r: Result<()>)
    requires v.Valid()
    modifies v, v.hamt, v.live, v.ring`head, v.tract, v.m, v.m.a, v.m.b
    ensures v.m.Prim() == old(v.m.Prim()) && (v.m.b == old(v.m.b) || v.m.b == null) && v.m.Prim() != null
    ensures (v.hamt == old(v.hamt) || fresh(v.hamt)) && (v.live == old(v.live) || fresh(v.live))
    ensures Underway(old(v.Traced()), v.Traced(), v.ring.log2, Edits(c), old(v.Saved()), old(v.Current()))
    ensures v.Fine(r) ==> v.Valid() && v.log != [] && v.Left(Edits(c), old(v.Saved()), old(v.Current()))
    ensures Gentle(c) ==> v.waived == old(v.waived)
    ensures Small(c) && old(!v.HasUncommitted() && !v.Astray()) && v.Fine(r) ==> !v.Astray() && v.strayed == old(v.strayed)
    ensures r.Ok? ==> EitherFold(Edits(c), old(v.Saved()), old(v.Current()), v.Current())
    ensures r.Ok? && old(!v.HasUncommitted()) ==>
      !v.HasUncommitted() && v.Saved() == v.Current() == Fold(Edits(c), old(v.Current()))
  {
    hide *;
    EditsOf(c);
    match c {
      case PutOne(key, value) =>
        v.Alive();
        v.PristineSaved();
        OneOp(Set(key, value), v.Current());
        StepIs(key, value, v.Current());
        r := v.Put(key, value, now);
      case Remove(key) =>
        r := RemoveOne(v, key, now);
      case Batch(ops) =>
        ghost var replayed;
        v.Alive();
        r, replayed := v.ApplyBatch(ops, now);
      case _ =>
        r := Tend(v, c, now);
    }
  }

  lemma {:induction false} EditsOf(c: Command)
    ensures match c
            case PutOne(key, value) => Edits(c) == [Set(key, value)]
            case Remove(key) => Edits(c) == [Unset(key)]
            case Batch(ops) => Edits(c) == ops
            case _ => Edits(c) == []
    ensures Small(c) <==> |Edits(c)| <= 1
    ensures Gentle(c) <==> c.Remove? || c.CommitNow? || c.Reap? || c.GrowTo?
  {
  }

  method RemoveOne(v: Vault, key: Key, now: int) returns (r: Result<()>)
    requires v.Valid()
    modifies v, v.hamt, v.live, v.ring`head, v.tract, v.m, v.m.a, v.m.b
    ensures v.m.Prim() == old(v.m.Prim()) && (v.m.b == old(v.m.b) || v.m.b == null) && v.m.Prim() != null
    ensures (v.hamt == old(v.hamt) || fresh(v.hamt)) && (v.live == old(v.live) || fresh(v.live))
    ensures Underway(old(v.Traced()), v.Traced(), v.ring.log2, [Unset(key)], old(v.Saved()), old(v.Current()))
    ensures v.Fine(r) ==> v.Valid() && v.log != [] && v.Left([Unset(key)], old(v.Saved()), old(v.Current()))
    ensures v.waived == old(v.waived)
    ensures old(!v.HasUncommitted() && !v.Astray()) && v.Fine(r) ==> !v.Astray() && v.strayed == old(v.strayed)
    ensures r.Ok? ==> EitherFold([Unset(key)], old(v.Saved()), old(v.Current()), v.Current())
    ensures r.Ok? && old(!v.HasUncommitted()) ==>
      !v.HasUncommitted() && v.Saved() == v.Current() == Fold([Unset(key)], old(v.Current()))
  {
    hide *;
    v.Alive();
    v.Told();
    ghost var t0, a, b, ops := v.Traced(), v.Saved(), v.Current(), [Unset(key)];
    OneOp(Unset(key), b);
    StepIs(key, [], b);
    var gone := v.Delete(key, now);
    v.Told();
    ActMoved(t0, v.Traced(), v.ring.log2, ops, a, b, Fold(ops, b));
    r := if gone.Ok? then Ok(()) else Err(gone.error);
    v.Fineness(gone, r);
    if v.Fine(r) {
      v.LeftNow(ops, a, b);
    }
    if r.Ok? {
      EitherLast(ops, a, b);
      v.PristineSaved();
    }
  }

  lemma {:induction false} EitherLast(ops: seq<Op>, a: map<Key, Stored>, b: map<Key, Stored>)
    ensures EitherFold(ops, a, b, Fold(ops, a)) && EitherFold(ops, a, b, Fold(ops, b))
  {
    hide Fold;
  }

  /** A command without edits. */
  method Tend(v: Vault, c: Command, now: int) returns (r: Result<()>)
    requires v.Valid() && (c.CommitNow? || c.Reap? || c.GrowTo? || c.RescueNow?)
    modifies v, v.hamt, v.live, v.ring`head, v.tract, v.m, v.m.a, v.m.b
    ensures v.m.Prim() == old(v.m.Prim()) && (v.m.b == old(v.m.b) || v.m.b == null) && v.m.Prim() != null
    ensures (v.hamt == old(v.hamt) || fresh(v.hamt)) && (v.live == old(v.live) || fresh(v.live))
    ensures Underway(old(v.Traced()), v.Traced(), v.ring.log2, [], old(v.Saved()), old(v.Current()))
    ensures v.Fine(r) ==> v.Valid() && v.log != [] && v.Left([], old(v.Saved()), old(v.Current()))
    ensures !c.RescueNow? ==> v.waived == old(v.waived)
    ensures old(!v.HasUncommitted() && !v.Astray()) && v.Fine(r) ==> !v.Astray() && v.strayed == old(v.strayed)
    ensures r.Ok? ==> EitherFold([], old(v.Saved()), old(v.Current()), v.Current())
    ensures r.Ok? && old(!v.HasUncommitted()) ==> !v.HasUncommitted() && v.Saved() == v.Current() == Fold([], old(v.Current()))
  {
    hide *;
    v.Alive();
    v.Told();
    v.PristineSaved();
    ghost var t0, a, b, log2 := v.Traced(), v.Saved(), v.Current(), v.ring.log2;
    FoldNothing(a);
    FoldNothing(b);
    EitherLast([], a, b);
    match c {
      case CommitNow =>
        r := v.Commit(now);
        v.Fineness(r, r);
      case Reap(cap) =>
        var reaped := v.ReapOneWindow(now, cap);
        r := if reaped.Ok? then Ok(()) else Err(reaped.error);
        v.Fineness(reaped, r);
      case GrowTo(to) =>
        r := v.Grow(to, now);
        DownIsOut(v, r);
      case RescueNow =>
        var freed := v.Rescue(now);
        r := if freed.Ok? then Ok(()) else Err(freed.error);
        v.Fineness(freed, r);
    }
    v.Told();
    ActMoved(t0, v.Traced(), log2, [], a, b, if c.GrowTo? then a else b);
    MovedLogs(t0, v.Traced(), log2, if c.GrowTo? then a else b);
    if v.Fine(r) {
      v.LeftNow([], a, b);
    }
    if r.Ok? {
      v.PristineSaved();
    }
  }

  lemma {:induction false} DownIsOut(v: Vault, r: Result<()>)
    ensures r.Err? && Down(r.error) ==> !v.Fine(r)
    ensures r.Ok? ==> v.Fine(r)
  {
  }

  lemma {:induction false} StepIs(key: Key, value: Value, m: map<Key, Stored>)
    ensures Batches.Step(m, Set(key, value)) == m[key := Full(value)] && Batches.Step(m, Unset(key)) == m - {key}
  {
  }

  /** Progress over the saved map, the current one or the one with the edits. */
  lemma {:induction false} ActMoved(t0: Trace, t1: Trace, log2: nat, ops: seq<Op>, a: map<Key, Stored>, b: map<Key, Stored>, c: map<Key, Stored>)
    requires t0.log != [] && Past(t0.log, 0).content == a && Moved(t0, t1, log2, c) && (c == a || c == b || c == Fold(ops, b))
    ensures Underway(t0, t1, log2, ops, a, b) && t1.log != [] && MayLeave(ops, a, b, Past(t1.log, 0).content)
    ensures MayLeave(ops, a, b, a) && MayLeave(ops, a, b, b) && MayLeave(ops, a, b, Fold(ops, b))
  {
    hide Moved, Underway, OnEitherWay, MayLeave, Fold;
    EitherStart(ops, a, b);
    EitherLeft(ops, a, b, a);
    EitherLeft(ops, a, b, b);
    EitherLeft(ops, a, b, Fold(ops, b));
    UnderwayMoved(t0, t1, log2, ops, a, b, c);
  }

  /** A run of commands: refused ones are skipped, a device error ends it. Cut anywhere, it restores a generation it
      committed. Refused commands and all, each generation holds what the running command may commit over a map possible
      when it began, and a command that is done leaves all of its edits in what is saved. With none refused, over a vault
      with nothing uncommitted, every command is done, and in the end what is saved is every edit in order. */
  method Play(v: Vault, cs: seq<Command>, now: int) returns (r: Result<()>, refused: bool, ghost done: seq<bool>)
    requires v.Valid()
    modifies v, v.hamt, v.live, v.ring`head, v.tract, v.m, v.m.a, v.m.b
    ensures v.m.Prim() == old(v.m.Prim()) && v.m.Prim() != null
    ensures Progress(old(v.Traced()), v.Traced(), v.ring.log2)
    ensures r.Err? ==> Down(r.error)
    ensures r.Ok? ==> v.Valid() && v.log != [] && |done| == |cs|
    ensures (forall i :: 0 <= i < |cs| ==> Gentle(cs[i])) ==> v.waived == old(v.waived)
    ensures (forall i :: 0 <= i < |cs| ==> Small(cs[i])) && old(!v.HasUncommitted() && !v.Astray()) && !refused && r.Ok? ==>
      !v.Astray() && v.strayed == old(v.strayed)
    ensures Explained(v.log, |old(v.log)|, cs, done, old(v.Saved()), old(v.Current()))
    ensures r.Ok? ==>
      && Possible(cs, done, |cs|, old(v.Saved()), old(v.Current()), v.Saved())
      && Possible(cs, done, |cs|, old(v.Saved()), old(v.Current()), v.Current())
    ensures !refused && old(!v.HasUncommitted()) ==> forall i :: 0 <= i < |done| ==> done[i]
    ensures r.Ok? && !refused && old(!v.HasUncommitted()) ==>
      !v.HasUncommitted() && v.Saved() == v.Current() == Fold(AllEdits(cs), old(v.Current()))
  {
    hide Vault.Valid, Vault.Current, Vault.HasUncommitted, Vault.Astray, Progress, Moved, Underway, Good, Fold, Edits, Small, Gentle, Explained,
         Possible, MayLeave, EitherFold, AllEdits, After;
    v.Alive();
    v.PristineSaved();
    v.Begin(v.Current());
    ghost var t0, a, b := v.Traced(), v.Saved(), v.Current();
    ghost var clean, straight := !v.HasUncommitted(), !v.HasUncommitted() && !v.Astray();
    NoneExplained(v.log, cs, a, b);
    refused, done := false, [];
    for i := 0 to |cs|
      invariant v.m.Prim() == old(v.m.Prim()) && (v.m.b == old(v.m.b) || v.m.b == null) && v.m.Prim() != null
      invariant (v.hamt == old(v.hamt) || fresh(v.hamt)) && (v.live == old(v.live) || fresh(v.live))
      invariant v.Valid() && v.log != [] && Progress(t0, v.Traced(), v.ring.log2)
      invariant (forall k :: 0 <= k < |cs| ==> Gentle(cs[k])) ==> v.waived == old(v.waived)
      invariant straight && (forall k :: 0 <= k < |cs| ==> Small(cs[k])) && !refused ==> !v.Astray() && v.strayed == old(v.strayed)
      invariant |done| == i && Explained(v.log, |t0.log|, cs, done, a, b)
      invariant Possible(cs, done, i, a, b, v.Saved()) && Possible(cs, done, i, a, b, v.Current())
      invariant clean && !refused ==> !v.HasUncommitted() && forall k :: 0 <= k < i ==> done[k]
    {
      ghost var t1 := v.Traced();
      var acted, d := Turn(v, cs, i, now, done, a, b, t0);
      if acted.Err? {
        if Down(acted.error) {
          return Err(acted.error), refused, done;
        }
        refused := true;
      }
      done := done + [d];
    }
    if clean && !refused {
      v.PristineSaved();
      DonePossible(cs, done, |cs|, a, v.Saved());
    }
    AllDone(cs, a);
    return Ok(()), refused, done;
  }

  /** One command of a run, and whether it is done. */
  method Turn(v: Vault, cs: seq<Command>, i: nat, now: int, ghost done: seq<bool>, ghost a: map<Key, Stored>, ghost b: map<Key, Stored>, ghost t0: Trace)
    returns (r: Result<()>, ghost d: bool)
    requires v.Valid() && v.log != [] && v.m.Prim() != null && |done| == i < |cs| && Progress(t0, v.Traced(), v.ring.log2)
    requires Explained(v.log, |t0.log|, cs, done, a, b)
    requires Possible(cs, done, i, a, b, v.Saved()) && Possible(cs, done, i, a, b, v.Current())
    modifies v, v.hamt, v.live, v.ring`head, v.tract, v.m, v.m.a, v.m.b
    ensures v.m.Prim() == old(v.m.Prim()) && (v.m.b == old(v.m.b) || v.m.b == null) && v.m.Prim() != null
    ensures (v.hamt == old(v.hamt) || fresh(v.hamt)) && (v.live == old(v.live) || fresh(v.live))
    ensures Progress(t0, v.Traced(), v.ring.log2) && Explained(v.log, |t0.log|, cs, done, a, b)
    ensures Gentle(cs[i]) ==> v.waived == old(v.waived)
    ensures Small(cs[i]) && old(!v.HasUncommitted() && !v.Astray()) && v.Fine(r) ==> !v.Astray() && v.strayed == old(v.strayed)
    ensures v.Fine(r) ==>
      && v.Valid() && v.log != [] && Explained(v.log, |t0.log|, cs, done + [d], a, b)
      && Possible(cs, done + [d], i + 1, a, b, v.Saved()) && Possible(cs, done + [d], i + 1, a, b, v.Current())
    ensures d <==> r.Ok? && !v.HasUncommitted()
    ensures r.Ok? && old(!v.HasUncommitted()) ==> !v.HasUncommitted()
  {
    hide *;
    v.Told();
    ghost var t1, saved, current, ops := v.Traced(), v.Saved(), v.Current(), Edits(cs[i]);
    r := Act(v, cs[i], now);
    v.Told();
    UnderwayLogs(t1, v.Traced(), v.ring.log2, ops, saved, current);
    ProgressThen(t0, t1, v.Traced(), v.ring.log2);
    ExplainedNext(t0, t1, v.Traced(), v.ring.log2, cs, done, a, b, saved, current);
    d := r.Ok? && !v.HasUncommitted();
    v.Fineness(r, r);
    if v.Fine(r) {
      v.LeftIs(ops, saved, current);
      ExplainedMore(v.log, |t0.log|, cs, done, d, a, b);
      if d {
        v.PristineSaved();
      }
      PossibleNext(cs, done, d, a, b, saved, current, v.Saved());
      PossibleNext(cs, done, d, a, b, saved, current, v.Current());
    }
  }

  lemma {:induction false} NothingDone(cs: seq<Command>, m: map<Key, Stored>)
    ensures After(cs, 0, m) == m
  {
    assert cs[..0] == [];
  }

  lemma {:induction false} AllDone(cs: seq<Command>, m: map<Key, Stored>)
    ensures After(cs, |cs|, m) == Fold(AllEdits(cs), m)
  {
    assert cs[..|cs|] == cs;
  }

  // ---------------------------------------------------------------- what the fence keeps over a run

  /** The window has been kept all along: the fence in force at the start, and not waived since. */
  ghost predicate Unbroken(t0: Trace, t1: Trace) {
    t0.watch.inForce && t1.watch.waived == t0.watch.waived
  }

  /** At the end of a run the last K generations, as far back as the window began, read back as they were committed, and no
      cursor the fence still allows lands on a block they reference: all but one whose own commit overran it. Unless the
      head's did, clean space holds none of its blocks either. */
  lemma {:induction false} RunProtects(v: Vault, t0: Trace, k: nat, x: nat)
    requires v.Valid() && v.m.Prim() != null && Progress(t0, v.Traced(), v.ring.log2) && Unbroken(t0, v.Traced())
    requires t0.watch.floor <= k < |v.log| && |v.log| - k <= FENCE_K && !Overrun(v.log[k].entry)
    ensures Stands(v.m.disk, Pow2(v.ring.log2), v.log[k])
    ensures v.tract.fence.Some? && v.tract.len > 0
    ensures v.tract.plow <= x < v.tract.fence.value ==> x % v.tract.len !in Pos(v.log[k].entry.root)
    ensures !v.Overran() ==> Lap(v.tract.plow, v.tract.reap + v.tract.len, v.tract.len) !! Pos(Past(v.log, 0).entry.root)
  {
    hide *;
    Unlapsed(t0, v.Traced(), v.ring.log2);
    v.Told();
    v.SnapShows();
    v.Ready();
    VaultWindow(v, k, x);
  }

  lemma {:induction false} VaultWindow(v: Vault, k: nat, x: nat)
    requires v.Valid() && v.m.Prim() != null && v.floor <= k < |v.log| && |v.log| - k <= FENCE_K && !Overrun(v.log[k].entry)
    requires v.tract.fence.Some?
    ensures Stands(v.m.disk, Pow2(v.ring.log2), v.log[k])
    ensures v.tract.plow <= x < v.tract.fence.value ==> x % v.tract.len !in Pos(v.log[k].entry.root)
    ensures !v.Overran() ==> Lap(v.tract.plow, v.tract.reap + v.tract.len, v.tract.len) !! Pos(Past(v.log, 0).entry.root)
  {
    hide *;
    v.Alive();
    v.SnapShows();
    v.SnapCursors();
    var s := v.Snap();
    WindowShown(s, k);
    PastIs(v.log, k);
    if v.tract.plow <= x < v.tract.fence.value {
      FenceBars(s, |v.log| - 1 - k, x);
    }
    TwoCursors(s, 0);
  }

  /** And while no generation overran itself, that is while the count has not gone up, it is so of all of them. */
  lemma {:induction false} StraightRun(t0: Trace, t1: Trace, log2: nat, k: nat)
    requires Progress(t0, t1, log2) && t1.watch.strayed == t0.watch.strayed && |t0.log| <= k < |t1.log|
    ensures !Overrun(t1.log[k].entry)
  {
    hide HistoryOk, Generations.Linked, Overrun;
  }

  lemma {:induction false} Unlapsed(t0: Trace, t1: Trace, log2: nat)
    requires Progress(t0, t1, log2) && Unbroken(t0, t1)
    ensures t1.watch.inForce && t1.watch.floor == t0.watch.floor
  {
    hide HistoryOk, Generations.Linked;
  }

  /** No cursor the fence of the entry `log[j]` allows lands on a block `log[k]` references. */
  ghost predicate Unreached(img: seq<Block>, log2: nat, log: seq<Gen>, j: nat, k: nat)
    requires j < |log| && k < |log| && Pow2(log2) <= |img| && log[j].entry.tract > 0
  {
    var f := Fence(img, log2, log[j].entry);
    forall x: nat :: f.Some? && log[j].entry.plow <= x < f.value ==> x % log[j].entry.tract !in Pos(log[k].entry.root)
  }

  /** And whatever a cut leaves: behind the newest generation it restores, the last K read back, out of reach of every
      cursor the fence of that generation allows. */
  lemma {:induction false} CutProtects(t0: Trace, t1: Trace, log2: nat, cut: nat, img: seq<Block>) returns (j: nat)
    requires Progress(t0, t1, log2) && Unbroken(t0, t1) && |t0.moments| <= cut < |t1.moments| && Image(t1.moments[cut], img)
    ensures |t0.log| - 1 <= j < |t1.log| && Restores(img, log2, t1.log[j])
    ensures Pow2(log2) <= |img| && t1.log[j].entry.tract > 0
    ensures forall k :: 0 <= k < |t1.log| && InWindow(t1.log, j, t0.watch.floor, k) ==>
      Stands(img, Pow2(log2), t1.log[k]) && Unreached(img, log2, t1.log, j, k)
  {
    Unlapsed(t0, t1, log2);
    ProgressLogs(t0, t1, log2);
    j := CutRestores(t0, t1, log2, cut, img);
    hide *;
    RestoresFits(img, log2, t1.log[j]);
    forall k | 0 <= k < |t1.log| && InWindow(t1.log, j, t0.watch.floor, k)
      ensures Stands(img, Pow2(log2), t1.log[k]) && Unreached(img, log2, t1.log, j, k)
    {
      OutOfReach(img, log2, t1.log, j, t1.watch.floor, k);
    }
  }

  lemma {:induction false} OutOfReach(img: seq<Block>, log2: nat, log: seq<Gen>, j: nat, floor: nat, k: nat)
    requires Generations.Linked(log) && j < |log| && Restores(img, log2, log[j]) && Deepens(img, log2, log, j, floor)
    requires k < |log| && InWindow(log, j, floor, k) && Pow2(log2) <= |img| && log[j].entry.tract > 0
    ensures Stands(img, Pow2(log2), log[k]) && Unreached(img, log2, log, j, k)
  {
    hide Restores, Deepens, Stands, Fence, Pos, Pow2, InWindow, Generations.Linked;
    forall x: nat
      ensures Stands(img, Pow2(log2), log[k])
      ensures Fence(img, log2, log[j].entry).Some? && log[j].entry.plow <= x < Fence(img, log2, log[j].entry).value ==>
        x % log[j].entry.tract !in Pos(log[k].entry.root)
    {
      WindowProtects(img, log2, log, j, floor, k, x);
    }
    WindowProtects(img, log2, log, j, floor, k, 0);
  }

  lemma {:induction false} CutRestores(t0: Trace, t1: Trace, log2: nat, cut: nat, img: seq<Block>) returns (j: nat)
    requires Progress(t0, t1, log2) && |t0.moments| <= cut < |t1.moments| && Image(t1.moments[cut], img)
    ensures |t0.log| - 1 <= j < |t1.log| && Restores(img, log2, t1.log[j]) && Deepens(img, log2, t1.log, j, t1.watch.floor)
    ensures t0.log != [] && RestoresOne(img, log2, t1.log, |t0.log| - 1, t1.watch.floor)
  {
    hide Image, Restores, Deepens, Generations.Linked;
    assert MomentOk(t1.moments[cut], log2, t1.log, |t0.log| - 1, t1.watch.floor);
    assert RestoresOne(img, log2, t1.log, |t0.log| - 1, t1.watch.floor);
    j :| |t0.log| - 1 <= j < |t1.log| && RestoresAt(img, log2, t1.log, j, t1.watch.floor);
  }

  // ---------------------------------------------------------------- after the cut

  /** Power cut at any device write since a session began, then the same drive opened again: the map read back is exactly
      that of the newest generation whose entry landed, and no generation that was newest at the start is lost. After a
      run that map is what one of its commands may commit over a map possible when it began. The session that follows goes
      on from there, with the same window behind it. */
  method CutAndReopen(ghost t0: Trace, ghost t1: Trace, ghost log2: nat, ghost cs: seq<Command>, ghost done: seq<bool>,
                      ghost a: map<Key, Stored>, ghost b: map<Key, Stored>, ghost cut: nat, img: seq<Block>)
    returns (r: Result<Vault>, ghost j: nat, ghost t: Trace)
    requires Progress(t0, t1, log2) && |t0.moments| <= cut < |t1.moments| && Image(t1.moments[cut], img)
    ensures |t0.log| - 1 <= j < |t1.log| && Pow2(log2) <= |img| && Newest(img, log2, 0, Pow2(log2)) == Some(t1.log[j].entry)
    ensures t1.log[j].entry.tract > 0 && t0.log != []
    ensures Moved(Trace([], t1.log[..j + 1], OpenWatch(img, log2, t1.log[..j + 1], Min(t1.watch.floor, j))), t, log2, t1.log[j].content)
    ensures r.Err? ==> Down(r.error)
    ensures r.Ok? ==> fresh(r.value) && r.value.Valid() && r.value.Traced() == t && r.value.Current() == t1.log[j].content
    ensures Past(t0.log, 0).content == a && Explained(t1.log, |t0.log|, cs, done, a, b) ==>
      t1.log[j].content == a || Explains(cs, done, a, b, t1.log[j].content)
  {
    hide Image, RestoresOne, Newest, Pow2, Progress, Moved, Explains, Vault.Valid, Vault.Current, Vault.Traced, Mirrors.Mirror.Valid,
         Generations.Linked, OpenWatch;
    ProgressLogs(t0, t1, log2);
    ghost var _ := CutRestores(t0, t1, log2, cut, img);
    var dev := new Device.Powered(img);
    var m := new Mirror(dev, null);
    assert m.Prim() == dev && m.disk == img && m.History() == [];
    r, j, t := Reopen(m, log2, t1.log, |t0.log| - 1, t1.watch.floor);
    assert j == |t0.log| - 1 ==> t1.log[j] == Past(t0.log, 0);
  }
}
