/** A key's bytes and the 5-bit chunks that route it: 51 whole ones and, at depth 51, a last one of which only the top
    bit exists. The trie's modules work on the chunks; here they are cut from the bytes and set in them. */
module Keys {
  import opened Blocks

  const KEY_BYTES := 32
  const KEY_BITS := 256

  /** Machine words as their bits, high bit first. */
  type Bits = seq<bool>
  type Byte = b: Bits | |b| == 8 witness seq(8, _ => false)
  type Word = w: Bits | |w| == 16 witness seq(16, _ => false)
  type Bytes = b: seq<Byte> | |b| == KEY_BYTES witness seq(KEY_BYTES, _ => seq(8, _ => false))

  function Zeros(n: nat): Bits {
    seq(n, _ => false)
  }

  function ShiftRight(w: Word, n: nat): Word
    requires n <= 16
  {
    Zeros(n) + w[..16 - n]
  }

  function ShiftLeft(w: Word, n: nat): Word
    requires n <= 16
  {
    w[n..] + Zeros(n)
  }

  function And(w: Word, x: Word): Word {
    seq(16, i requires 0 <= i < 16 => w[i] && x[i])
  }

  function Or(w: Word, x: Word): Word {
    seq(16, i requires 0 <= i < 16 => w[i] || x[i])
  }

  function Not(w: Word): Word {
    seq(16, i requires 0 <= i < 16 => !w[i])
  }

  /** 0x1F: the low five bits. */
  function LowFive(): Word {
    seq(16, i => i >= 11)
  }

  /** The byte at `i` with the one after it, zeros past the last. */
  function Window(b: Bytes, i: nat): Word
    requires i < KEY_BYTES
  {
    b[i] + (if i + 1 < KEY_BYTES then b[i + 1] else Zeros(8))
  }

  function Chunk(b: Bytes, depth: nat): Byte
    requires depth < LEVELS
  {
    var bit := depth * 5;
    And(ShiftRight(Window(b, bit / 8), 11 - bit % 8), LowFive())[8..]
  }

  /** `base` with one chunk replaced. */
  function RouteWithChunk(base: Bytes, depth: nat, slot: Byte): Bytes
    requires depth < LEVELS
  {
    var bit := depth * 5;
    var byte, shift := bit / 8, 11 - bit % 8;
    var mask := ShiftLeft(LowFive(), shift);
    var window := Or(And(Window(base, byte), Not(mask)), ShiftLeft(Zeros(8) + slot, shift));
    var b: Bytes := base[byte := window[..8]];
    if byte + 1 < KEY_BYTES then b[byte + 1 := window[8..]] else b
  }

  // ---------------------------------------------------------------- bit by bit

  /** Bit `i` of the key, the first byte's high bit first. */
  function BitAt(b: Bytes, i: nat): bool
    requires i < KEY_BITS
  {
    b[i / 8][i % 8]
  }

  /** A slot holds five bits. */
  predicate Five(c: Byte) {
    !c[0] && !c[1] && !c[2]
  }

  lemma {:induction false} ChunkWindow(b: Bytes, d: nat, j: nat)
    requires d < LEVELS && j < 5
    ensures Five(Chunk(b, d)) && Chunk(b, d)[3 + j] == Window(b, d * 5 / 8)[d * 5 % 8 + j]
  {
    hide Window;
  }

  /** A chunk is five bits of the key in order; past the key's end it reads zeros. */
  lemma {:induction false} ChunkBit(b: Bytes, d: nat, j: nat)
    requires d < LEVELS && j < 5
    ensures Five(Chunk(b, d))
    ensures Chunk(b, d)[3 + j] == (5 * d + j < KEY_BITS && BitAt(b, 5 * d + j))
  {
    hide Chunk;
    ChunkWindow(b, d, j);
    var byte, off := d * 5 / 8, d * 5 % 8;
    assert 5 * d + j == 8 * byte + (off + j);
    if off + j >= 8 {
      assert 5 * d + j == 8 * (byte + 1) + (off + j - 8);
    }
  }

  /** Setting a chunk sets the five bits of the key it covers, and no other. */
  lemma {:induction false} RouteBit(b: Bytes, d: nat, slot: Byte, i: nat)
    requires d < LEVELS && Five(slot) && i < KEY_BITS
    ensures BitAt(RouteWithChunk(b, d, slot), i) == if 5 * d <= i < 5 * d + 5 then slot[3 + i - 5 * d] else BitAt(b, i)
  {
    var byte, off := d * 5 / 8, d * 5 % 8;
    assert 5 * d == 8 * byte + off && i == 8 * (i / 8) + i % 8;
  }

  /** Bits decide a key. */
  lemma {:induction false} SameBytes(a: Bytes, b: Bytes)
    requires forall i :: 0 <= i < KEY_BITS ==> BitAt(a, i) == BitAt(b, i)
    ensures a == b
  {
    forall k | 0 <= k < KEY_BYTES
      ensures a[k] == b[k]
    {
      forall i | 0 <= i < 8
        ensures a[k][i] == b[k][i]
      {
        assert BitAt(a, 8 * k + i) == BitAt(b, 8 * k + i);
      }
    }
  }

  /** Two distinct keys differ in some chunk below LEVELS: a split separates them before the key is used up. */
  lemma {:induction false} KeysDiverge(a: Bytes, b: Bytes)
    requires a != b
    ensures exists d :: 0 <= d < LEVELS && Chunk(a, d) != Chunk(b, d)
  {
    hide Chunk, BitAt;
    if forall d :: 0 <= d < LEVELS ==> Chunk(a, d) == Chunk(b, d) {
      forall i | 0 <= i < KEY_BITS
        ensures BitAt(a, i) == BitAt(b, i)
      {
        ChunkBit(a, i / 5, i % 5);
        ChunkBit(b, i / 5, i % 5);
      }
      SameBytes(a, b);
    }
  }

  // ---------------------------------------------------------------- threading a route

  /** What depth `d` can hold: five bits, of which the last depth has only the top one. */
  predicate Fits(d: nat, slot: Byte) {
    Five(slot) && (d == LEVELS - 1 ==> forall j :: 4 <= j < 8 ==> !slot[j])
  }

  lemma {:induction false} ChunkFits(b: Bytes, d: nat)
    requires d < LEVELS
    ensures Fits(d, Chunk(b, d))
  {
    hide Chunk;
    ChunkBit(b, d, 0);
    forall j | 4 <= j < 8 && d == LEVELS - 1
      ensures !Chunk(b, d)[j]
    {
      ChunkBit(b, d, j - 3);
    }
  }

  lemma {:induction false} SameChunk(c: Byte, e: Byte)
    requires Five(c) && Five(e) && forall i :: 3 <= i < 8 ==> c[i] == e[i]
    ensures c == e
  {
  }

  /** The route carries the slot at its depth exactly when that depth can hold it; every other chunk stays. */
  lemma {:induction false} RouteChunk(b: Bytes, d: nat, slot: Byte, e: nat)
    requires d < LEVELS && e < LEVELS && Five(slot)
    ensures Chunk(RouteWithChunk(b, d, slot), d) == slot <==> Fits(d, slot)
    ensures e != d ==> Chunk(RouteWithChunk(b, d, slot), e) == Chunk(b, e)
  {
    hide Chunk, RouteWithChunk, BitAt;
    var r := RouteWithChunk(b, d, slot);
    ChunkFits(r, d);
    if Fits(d, slot) {
      forall i | 3 <= i < 8
        ensures Chunk(r, d)[i] == slot[i]
      {
        ChunkBit(r, d, i - 3);
        if 5 * d + i - 3 < KEY_BITS {
          RouteBit(b, d, slot, 5 * d + i - 3);
        }
      }
      SameChunk(Chunk(r, d), slot);
    }
    if e != d {
      forall i | 3 <= i < 8
        ensures Chunk(r, e)[i] == Chunk(b, e)[i]
      {
        ChunkBit(r, e, i - 3);
        ChunkBit(b, e, i - 3);
        if 5 * e + i - 3 < KEY_BITS {
          RouteBit(b, d, slot, 5 * e + i - 3);
        }
      }
      ChunkFits(r, e);
      ChunkFits(b, e);
      SameChunk(Chunk(r, e), Chunk(b, e));
    }
  }

  // ---------------------------------------------------------------- the trie's keys

  function One(b: bool): nat {
    if b then 1 else 0
  }

  function Nibble(c: Byte, i: nat): (n: nat)
    requires i <= 4
    ensures n < 16
  {
    8 * One(c[i]) + 4 * One(c[i + 1]) + 2 * One(c[i + 2]) + One(c[i + 3])
  }

  /** A slot as the number it is. */
  function Number(c: Byte): (n: nat)
    ensures Five(c) ==> n < WIDTH
  {
    16 * Nibble(c, 0) + Nibble(c, 4)
  }

  function SlotOf(n: nat): (c: Byte)
    requires n < WIDTH
    ensures Five(c) && Number(c) == n
  {
    var a := if n >= 16 then n - 16 else n;
    var b := if a >= 8 then a - 8 else a;
    var d := if b >= 4 then b - 4 else b;
    var e := if d >= 2 then d - 2 else d;
    [false, false, false, n >= 16, a >= 8, b >= 4, d >= 2, e >= 1]
  }

  lemma {:induction false} SameNibble(c: Byte, e: Byte, i: nat)
    requires i <= 4 && Nibble(c, i) == Nibble(e, i)
    ensures c[i] == e[i] && c[i + 1] == e[i + 1] && c[i + 2] == e[i + 2] && c[i + 3] == e[i + 3]
  {
  }

  lemma {:induction false} SameNumber(c: Byte, e: Byte)
    requires Number(c) == Number(e)
    ensures c == e
  {
    hide Nibble;
    SameNibble(c, e, 0);
    SameNibble(c, e, 4);
  }

  /** The chunks of a key's bytes, as the trie routes them. */
  function KeyOf(b: Bytes): (k: Key)
    ensures forall d :: 0 <= d < LEVELS ==> k[d] == Number(Chunk(b, d))
  {
    assert forall d :: 0 <= d < LEVELS ==> Number(Chunk(b, d)) < WIDTH by {
      forall d | 0 <= d < LEVELS
        ensures Number(Chunk(b, d)) < WIDTH
      {
        ChunkBit(b, d, 0);
      }
    }
    seq(LEVELS, d requires 0 <= d < LEVELS => Number(Chunk(b, d)))
  }

  /** The chunks decide the bytes: distinct keys stay distinct in the trie. */
  lemma {:induction false} KeyOfInjective(a: Bytes, b: Bytes)
    requires KeyOf(a) == KeyOf(b)
    ensures a == b
  {
    hide Chunk, Number;
    if a != b {
      KeysDiverge(a, b);
      var d :| 0 <= d < LEVELS && Chunk(a, d) != Chunk(b, d);
      assert KeyOf(a)[d] == KeyOf(b)[d];
      SameNumber(Chunk(a, d), Chunk(b, d));
    }
  }

  lemma {:induction false} TopBit(c: Byte)
    requires Fits(LEVELS - 1, c)
    ensures Number(c) % 16 == 0
  {
    assert !c[4] && !c[5] && !c[6] && !c[7];
  }

  /** A chunk sequence is some key's exactly when its last chunk is one bit. */
  lemma {:induction false} KeyOfOnto(k: Key)
    ensures (exists b: Bytes :: KeyOf(b) == k) <==> k[LEVELS - 1] % 16 == 0
  {
    if k[LEVELS - 1] % 16 == 0 {
      var b := Threaded(k, LEVELS);
      ThreadedKey(k, LEVELS);
      assert KeyOf(b) == k;
    }
    forall b: Bytes
      ensures KeyOf(b)[LEVELS - 1] % 16 == 0
    {
      ChunkFits(b, LEVELS - 1);
      hide Chunk;
      TopBit(Chunk(b, LEVELS - 1));
    }
  }

  /** The route of a path: its chunks set one depth after another, the rest zero. */
  function Threaded(k: Key, n: nat): Bytes
    requires n <= LEVELS
  {
    if n == 0 then seq(KEY_BYTES, _ => seq(8, _ => false)) else RouteWithChunk(Threaded(k, n - 1), n - 1, SlotOf(k[n - 1]))
  }

  lemma {:induction false} SlotFits(n: nat, d: nat)
    requires n < WIDTH && (d == LEVELS - 1 ==> n % 16 == 0)
    ensures Fits(d, SlotOf(n))
  {
  }

  /** A threaded route reads back chunk by chunk. */
  lemma {:induction false} ThreadedKey(k: Key, n: nat)
    requires n <= LEVELS && (n == LEVELS ==> k[LEVELS - 1] % 16 == 0)
    ensures forall d :: 0 <= d < n ==> KeyOf(Threaded(k, n))[d] == k[d]
  {
    hide Chunk, RouteWithChunk, KeyOf, SlotOf, Number;
    if n > 0 {
      ThreadedKey(k, n - 1);
      var slot := SlotOf(k[n - 1]);
      SlotFits(k[n - 1], n - 1);
      RouteKey(Threaded(k, n - 1), n - 1, slot);
    }
  }

  /** On chunks the byte-level setter is the trie's own: one chunk replaced. */
  lemma {:induction false} RouteKey(b: Bytes, d: nat, slot: Byte)
    requires d < LEVELS && Fits(d, slot)
    ensures Number(slot) < WIDTH && KeyOf(RouteWithChunk(b, d, slot)) == RouteWith(KeyOf(b), d, Number(slot))
  {
    hide Chunk, RouteWithChunk;
    forall e | 0 <= e < LEVELS
      ensures KeyOf(RouteWithChunk(b, d, slot))[e] == RouteWith(KeyOf(b), d, Number(slot))[e]
    {
      RouteChunk(b, d, slot, e);
    }
  }
}
