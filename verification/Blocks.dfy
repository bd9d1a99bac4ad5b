/** What the vault stores: keys, values, the documents inside sealed blocks, and the trie they form.

    A seal is a collision-free hash of the document, so here a document stands for its own hash.
    A committed pointer (hash, lba) is then the document it names together with a position: a `Tree`
    whose place is `At(lba)`. Following a pointer means reading the device at that position and
    comparing what is sealed there with that document. */
module Blocks {
  /** How wide a node is, and how many chunks of five bits a key has. */
  const WIDTH: nat := 32
  const LEVELS: nat := 52

  /** A key as its 52 routing chunks; module Keys relates the 32 bytes of a key to them. */
  type Key = k: seq<nat> | |k| == LEVELS && forall i :: 0 <= i < LEVELS ==> k[i] < WIDTH
    witness seq(LEVELS, _ => 0)

  /** The chunk at `d` set to `c`: threads the path down to a child. */
  function RouteWith(base: Key, d: nat, c: nat): (r: Key)
    requires d < LEVELS && c < WIDTH
    ensures r[..d] == base[..d] && r[d] == c
  {
    base[d := c]
  }

  type Value = seq<bv8>

  /** What a key holds: a value, or furrows that no longer total the size their leaf says, which a read refuses. */
  datatype Stored = Full(value: Value) | Short

  /** How a read answers what a key holds. */
  function Answer(held: Stored): Result<Option<Value>> {
    match held
    case Full(value) => Ok(Some(value))
    case Short => Err(Corrupt)
  }

  type Positive = n: nat | n > 0 witness 1

  /** Bytes a lone leaf holds, bytes a furrow holds, runs an extent leaf holds: fixed by the block envelope. */
  const LONE_MAX: nat
  const FURROW_CAP: Positive
  const MAX_RUNS: nat

  datatype Option<+T> = None | Some(value: T)

  datatype Run = Run(start: nat, count: nat)

  datatype Body =
    | Lone(value: Value)
    | Extent(size: nat, runs: seq<Run>)

  datatype Place = Dirty | At(lba: nat)

  /** The index as the engine holds it: committed subtrees (every place is `At`) under dirty nodes. */
  datatype Tree =
    | Nil
    | Leaf(lba: nat, key: Key, body: Body)
    | Node(place: Place, depth: nat, route: Key, kids: seq<Tree>)

  datatype Doc =
    | NodeDoc(depth: nat, route: Key, kids: seq<Tree>)
    | LeafDoc(key: Key, body: Body)
    | FurrowDoc(key: Key, index: nat, payload: Value)

  /** One spine commit object. `prev` is the parent entry, standing for its hash. */
  datatype Prev = Genesis | Prev(entry: Entry)
  datatype Entry = Entry(gen: nat, prev: Prev, ringLog2: nat, tract: nat, root: Tree, plow: nat,
                         reap: Option<nat>, live: nat, time: int)

  /** A device block: all-zero, unsealed bytes, a sealed tract document, or a sealed spine entry. */
  datatype Block = Zero | Torn(junk: nat) | Sealed(doc: Doc) | Spine(entry: Entry)

  datatype Error =
    | Seal
    | Corrupt
    | Verify(lba: nat)
    | Bounds(lba: nat)
    | Fenced(plow: nat)
    | TractFull

  /** A device that did not take a write: the session ends, the vault is reopened. */
  predicate Down(e: Error) {
    e.Verify? || e.Bounds?
  }

  datatype Result<+T> = Ok(value: T) | Err(error: Error) {
    predicate IsFailure() {
      Err?
    }

    function PropagateFailure<U>(): Result<U>
      requires Err?
    {
      Err(error)
    }

    function Extract(): T
      requires Ok?
    {
      value
    }
  }

  /** The document a committed pointer names. */
  function DocOf(t: Tree): Doc
    requires !t.Nil?
  {
    match t
    case Leaf(_, key, body) => LeafDoc(key, body)
    case Node(_, depth, route, kids) => NodeDoc(depth, route, kids)
  }

  predicate Committed(t: Tree) {
    t.Leaf? || (t.Node? && t.place.At?)
  }

  /** The position of a committed pointer. */
  function LbaOf(t: Tree): nat
    requires Committed(t)
  {
    if t.Leaf? then t.lba else t.place.lba
  }

  /** The pointer naming document `doc` at `lba`; furrows are never pointed at by the index. */
  function PointerTo(doc: Doc, lba: nat): Tree
    requires !doc.FurrowDoc?
  {
    match doc
    case NodeDoc(depth, route, kids) => Node(At(lba), depth, route, kids)
    case LeafDoc(key, body) => Leaf(lba, key, body)
  }
}
