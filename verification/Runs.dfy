/** Extent runs: a value's furrow positions as (start, count) pairs, and a value cut into furrows. */
module Runs {
  import opened Blocks

  function Span(start: nat, count: nat): (s: seq<nat>)
    ensures |s| == count
  {
    seq(count, i requires 0 <= i < count => start + i)
  }

  /** The positions a run list names, in order. */
  function Expand(runs: seq<Run>): seq<nat> {
    if runs == [] then [] else Span(runs[0].start, runs[0].count) + Expand(runs[1..])
  }

  function Total(runs: seq<Run>): nat {
    if runs == [] then 0 else runs[0].count + Total(runs[1..])
  }

  ghost function Elems(ps: seq<nat>): set<nat> {
    set p | p in ps
  }

  lemma {:induction false} ElemsAppend(ps: seq<nat>, p: nat)
    ensures Elems(ps + [p]) == Elems(ps) + {p}
  {
  }

  /** Every run lies inside a tract of `len` blocks. */
  predicate Inside(runs: seq<Run>, len: nat) {
    forall i :: 0 <= i < |runs| ==> runs[i].start < len && runs[i].count <= len - runs[i].start
  }

  function CeilDiv(n: nat, d: Positive): nat {
    (n + d - 1) / d
  }

  lemma {:induction false} ExpandAppend(runs: seq<Run>, r: Run)
    ensures Expand(runs + [r]) == Expand(runs) + Span(r.start, r.count)
    ensures Total(runs + [r]) == Total(runs) + r.count
  {
    if runs == [] {
      assert runs + [r] == [r];
      assert Expand([r][1..]) == [];
    } else {
      ExpandAppend(runs[1..], r);
      assert (runs + [r])[1..] == runs[1..] + [r];
      assert (runs + [r])[0] == runs[0];
    }
  }

  lemma {:induction false} ExpandLength(runs: seq<Run>)
    ensures |Expand(runs)| == Total(runs)
  {
    if runs != [] {
      ExpandLength(runs[1..]);
    }
  }

  lemma {:induction false} ExpandInside(runs: seq<Run>, len: nat)
    requires Inside(runs, len)
    ensures forall i :: 0 <= i < |Expand(runs)| ==> Expand(runs)[i] < len
  {
    if runs != [] {
      ExpandInside(runs[1..], len);
    }
  }

  lemma {:induction false} TotalPrefix(runs: seq<Run>, i: nat)
    requires i <= |runs|
    ensures Total(runs[..i]) <= Total(runs)
  {
    if i > 0 {
      TotalPrefix(runs[1..], i - 1);
      assert runs[..i][1..] == runs[1..][..i - 1];
    }
  }

  /** The runs counted without expanding them, each checked against the tract first. */
  method CheckRuns(runs: seq<Run>, len: nat) returns (r: Result<nat>)
    ensures r.Ok? <==> Inside(runs, len) && Total(runs) <= len
    ensures r.Ok? ==> r.value == Total(runs)
    ensures r.Err? ==> r.error == Corrupt
  {
    var total := 0;
    for i := 0 to |runs|
      invariant total == Total(runs[..i]) <= len || (i == 0 && total == 0)
      invariant Inside(runs[..i], len)
    {
      var s, c := runs[i].start, runs[i].count;
      if s >= len || c > len - s {
        return Err(Corrupt);
      }
      total := total + c;
      assert runs[..i + 1] == runs[..i] + [runs[i]];
      ExpandAppend(runs[..i], runs[i]);
      if total > len {
        TotalPrefix(runs, i + 1);
        return Err(Corrupt);
      }
    }
    assert runs[..|runs|] == runs;
    return Ok(total);
  }

  /** The furrow position of every index; refused unless the runs name exactly the furrows `size` needs. */
  method ExpandRuns(runs: seq<Run>, size: nat, len: nat) returns (r: Result<seq<nat>>)
    ensures r.Ok? <==> Inside(runs, len) && Total(runs) <= len && Total(runs) == CeilDiv(size, FURROW_CAP)
    ensures r.Ok? ==> r.value == Expand(runs)
    ensures r.Err? ==> r.error == Corrupt
  {
    var total :- CheckRuns(runs, len);
    if total != CeilDiv(size, FURROW_CAP) {
      return Err(Corrupt);
    }
    var out: seq<nat> := [];
    for i := 0 to |runs|
      invariant out == Expand(runs[..i])
    {
      ghost var before := out;
      for j := 0 to runs[i].count
        invariant out == before + Span(runs[i].start, j)
      {
        out := out + [runs[i].start + j];
      }
      assert runs[..i + 1] == runs[..i] + [runs[i]];
      ExpandAppend(runs[..i], runs[i]);
    }
    assert runs[..|runs|] == runs;
    return Ok(out);
  }

  /** Places where a position does not follow its predecessor. */
  function Breaks(ps: seq<nat>): nat {
    if |ps| <= 1 then 0
    else Breaks(ps[..|ps| - 1]) + (if ps[|ps| - 1] == ps[|ps| - 2] + 1 then 0 else 1)
  }

  lemma {:induction false} ExtendLast(runs: seq<Run>, p: nat)
    requires runs != [] && runs[|runs| - 1].start + runs[|runs| - 1].count == p
    ensures Expand(runs[|runs| - 1 := Run(runs[|runs| - 1].start, runs[|runs| - 1].count + 1)]) == Expand(runs) + [p]
  {
    var front, last := runs[..|runs| - 1], runs[|runs| - 1];
    var longer := Run(last.start, last.count + 1);
    assert runs == front + [last];
    assert runs[|runs| - 1 := longer] == front + [longer];
    ExpandAppend(front, last);
    ExpandAppend(front, longer);
    assert Span(last.start, last.count + 1) == Span(last.start, last.count) + [p];
  }

  lemma {:induction false} NewLast(runs: seq<Run>, p: nat)
    ensures Expand(runs + [Run(p, 1)]) == Expand(runs) + [p]
  {
    ExpandAppend(runs, Run(p, 1));
    assert Span(p, 1) == [p];
  }

  /** Back to runs: the inverse of expansion, with as few runs as the positions allow. */
  method CompressRuns(ps: seq<nat>) returns (runs: seq<Run>)
    ensures Expand(runs) == ps
    ensures |runs| == if ps == [] then 0 else 1 + Breaks(ps)
    ensures forall i :: 0 <= i < |runs| ==> runs[i].count > 0
  {
    hide Expand;
    runs := [];
    assert Expand(runs) == [] by {
      ExpandEmpty();
    }
    for i := 0 to |ps|
      invariant Expand(runs) == ps[..i]
      invariant |runs| == if i == 0 then 0 else 1 + Breaks(ps[..i])
      invariant forall k :: 0 <= k < |runs| ==> runs[k].count > 0
      invariant i > 0 ==> runs[|runs| - 1].start + runs[|runs| - 1].count == ps[i - 1] + 1
    {
      var p := ps[i];
      assert ps[..i + 1] == ps[..i] + [p];
      assert i > 0 ==> ps[..i + 1][..i] == ps[..i];
      var last := |runs| - 1;
      if runs != [] && runs[last].start + runs[last].count == p {
        ExtendLast(runs, p);
        runs := runs[last := Run(runs[last].start, runs[last].count + 1)];
      } else {
        NewLast(runs, p);
        runs := runs + [Run(p, 1)];
      }
    }
    assert ps[..|ps|] == ps;
  }

  lemma {:induction false} ExpandEmpty()
    ensures Expand([]) == []
  {
  }

  /** Non-empty runs whose positions all lie in the tract pass the run check. */
  lemma {:induction false} ExpandedInside(runs: seq<Run>, len: nat)
    requires forall i :: 0 <= i < |runs| ==> runs[i].count > 0
    requires forall i :: 0 <= i < |Expand(runs)| ==> Expand(runs)[i] < len
    ensures Inside(runs, len)
  {
    if runs != [] {
      var e, head := Expand(runs), Span(runs[0].start, runs[0].count);
      assert e == head + Expand(runs[1..]);
      assert head[runs[0].count - 1] == e[runs[0].count - 1] && head[0] == e[0];
      forall i | 0 <= i < |Expand(runs[1..])|
        ensures Expand(runs[1..])[i] < len
      {
        assert Expand(runs[1..])[i] == e[|head| + i];
      }
      ExpandedInside(runs[1..], len);
      assert forall i :: 1 <= i < |runs| ==> runs[i] == runs[1..][i - 1];
    }
  }

  /** What the reap relies on: an in-tract list of the right count survives compression and checked expansion. */
  method RoundTrip(ps: seq<nat>, size: nat, len: nat) returns (r: Result<seq<nat>>)
    requires |ps| <= len && |ps| == CeilDiv(size, FURROW_CAP)
    requires forall i :: 0 <= i < |ps| ==> ps[i] < len
    ensures r == Ok(ps)
  {
    var runs := CompressRuns(ps);
    ExpandedInside(runs, len);
    ExpandLength(runs);
    r := ExpandRuns(runs, size, len);
  }

  /** Positions of `n` blocks appended at monotone cursor `plow` in a tract of `len` blocks. */
  function Places(plow: nat, n: nat, len: Positive): (s: seq<nat>)
    ensures |s| == n
  {
    seq(n, i requires 0 <= i < n => (plow + i) % len)
  }

  lemma {:induction false} MulAtLeast(d: int, len: Positive)
    ensures d >= 1 ==> d * len >= len
    ensures d <= -1 ==> d * len <= 0 - len
  {
    if d >= 1 {
      assert d * len == (d - 1) * len + len;
    } else if d <= -1 {
      assert d * len == (d + 1) * len - len;
    }
  }

  lemma {:induction false} SmallMod(q: nat, r: nat, len: Positive)
    requires r < len
    ensures (q * len + r) % len == r && (q * len + r) / len == q
  {
    var x := q * len + r;
    assert x == (x / len) * len + x % len;
    MulAtLeast(x / len - q, len);
    assert (x / len - q) * len == (x / len) * len - q * len;
  }

  /** A fresh append of at most a lap wraps at most once, so it compresses to at most two runs. */
  lemma {:induction false} FreshAppendBreaks(plow: nat, n: nat, len: Positive)
    requires n <= len
    ensures Breaks(Places(plow, n, len)) == if plow % len + n > len then 1 else 0
  {
    if n > 1 {
      FreshAppendBreaks(plow, n - 1, len);
      var ps := Places(plow, n, len);
      assert ps[..n - 1] == Places(plow, n - 1, len);
      PlaceAt(plow, n - 1, len);
      PlaceAt(plow, n - 2, len);
    } else {
      assert plow % len < len;
    }
  }

  lemma {:induction false} PlaceAt(plow: nat, i: nat, len: Positive)
    requires i < len
    ensures (plow + i) % len == if plow % len + i < len then plow % len + i else plow % len + i - len
  {
    var q := plow / len;
    assert plow == q * len + plow % len;
    if plow % len + i < len {
      SmallMod(q, plow % len + i, len);
    } else {
      assert plow + i == (q + 1) * len + (plow % len + i - len);
      SmallMod(q + 1, plow % len + i - len, len);
    }
  }

  /** The payloads of a value's furrows, and the value they carry. */
  function Shard(value: Value): (parts: seq<Value>)
    ensures forall i :: 0 <= i < |parts| ==> |parts[i]| <= FURROW_CAP
  {
    if value == [] then []
    else if |value| <= FURROW_CAP then [value]
    else [value[..FURROW_CAP]] + Shard(value[FURROW_CAP..])
  }

  function Join(parts: seq<Value>): Value {
    if parts == [] then [] else parts[0] + Join(parts[1..])
  }

  lemma {:induction false} CeilDivSmall(n: nat, d: Positive)
    requires n <= d
    ensures CeilDiv(n, d) == if n == 0 then 0 else 1
  {
    SmallMod(if n == 0 then 0 else 1, if n == 0 then d - 1 else n - 1, d);
  }

  lemma {:induction false} CeilDivStep(n: nat, d: Positive)
    ensures CeilDiv(n + d, d) == CeilDiv(n, d) + 1
  {
    var m := n + d - 1;
    assert m == (m / d) * d + m % d;
    assert n + d + d - 1 == (m / d + 1) * d + m % d;
    SmallMod(m / d + 1, m % d, d);
  }

  lemma {:induction false} CeilDivCovers(n: nat, d: Positive)
    ensures n <= CeilDiv(n, d) * d
  {
    var m := n + d - 1;
    assert m == (m / d) * d + m % d;
  }

  lemma {:induction false} ShardJoins(value: Value)
    ensures Join(Shard(value)) == value
    ensures |Shard(value)| == CeilDiv(|value|, FURROW_CAP)
  {
    if value == [] {
      CeilDivSmall(0, FURROW_CAP);
    } else if |value| <= FURROW_CAP {
      assert Join([value]) == value + Join([]);
      CeilDivSmall(|value|, FURROW_CAP);
    } else {
      var rest := value[FURROW_CAP..];
      ShardJoins(rest);
      assert value == value[..FURROW_CAP] + rest;
      CeilDivStep(|rest|, FURROW_CAP);
    }
  }

  lemma {:induction false} JoinAppend(parts: seq<Value>, p: Value)
    ensures Join(parts + [p]) == Join(parts) + p
  {
    if parts == [] {
      assert parts + [p] == [p];
      assert Join([p]) == p + Join([]);
    } else {
      JoinAppend(parts[1..], p);
      assert (parts + [p])[1..] == parts[1..] + [p];
    }
  }
}
