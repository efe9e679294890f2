/** Word memory, head words and request sizes, for 64-bit words without footers. */
module Words {

  const MALLOC_ALIGNMENT: nat := 16
  const MIN_CHUNK_SIZE: nat := 32
  const CHUNK_OVERHEAD: nat := 8
  const MIN_REQUEST: nat := 23
  const MAX_SMALL_REQUEST: nat := 232
  const MIN_LARGE_SIZE: nat := 256
  const TOP_FOOT_SIZE: nat := 80
  const TWO64: nat := 0x1_0000_0000_0000_0000
  const MAX_SIZE_T: nat := TWO64 - 1
  const MAX_REQUEST: nat := TWO64 - 4 * MIN_CHUNK_SIZE

  /** Offsets of the fields of a (tree) chunk. */
  const HEAD: int := 8
  const FD: int := 16
  const BK: int := 24
  const CHILD0: int := 32
  const CHILD1: int := 40
  const PARENT: int := 48
  const INDEX: int := 56

  /** One 8-byte word. A `head` word packs a chunk size and its two in-use flags; sizes are multiples
      of 16, so the packing in the low bits loses nothing (`PackingIsLossless`). Any other word is
      a number: a pointer, a foot, or payload. */
  datatype Word =
    | Data(value: int)
    | Head(size: nat, cin: bool, pin: bool)

  /** The memory obtained so far: `m[a]` is the word that starts at byte address `a`. */
  type Mem = map<int, Word>

  /** The bits of a word, read as an unsigned number. */
  function Bits(w: Word): int {
    match w
    case Data(v) => v
    case Head(s, c, p) => s + (if c then 2 else 0) + (if p then 1 else 0)
  }

  /** `chunksize`, `cinuse` and `pinuse` of the source, read off those bits. */
  function SizeField(bits: int): int { bits - bits % 8 }
  predicate CinuseBit(bits: int) { bits / 2 % 2 == 1 }
  predicate PinuseBit(bits: int) { bits % 2 == 1 }

  lemma PackingIsLossless(w: Word)
    requires w.Head? && w.size % 16 == 0
    ensures SizeField(Bits(w)) == w.size
    ensures CinuseBit(Bits(w)) == w.cin && PinuseBit(Bits(w)) == w.pin
  {
    var q, f := w.size / 16, Bits(w) - w.size;
    LowThreeBits(2 * q, f);
    LowBit(8 * q, f);
    HalfBits(8 * q, f);
    LowBit(4 * q, f / 2);
  }

  lemma LowThreeBits(q: nat, f: nat)
    requires f < 8
    ensures (8 * q + f) % 8 == f
  {}

  lemma LowBit(q: nat, f: nat)
    requires f < 4
    ensures (2 * q + f) % 2 == f % 2
  {}

  lemma HalfBits(q: nat, f: nat)
    ensures (2 * q + f) / 2 == q + f / 2
  {}

  /** `head |= PINUSE_BIT` and `head & PINUSE_BIT`, on whatever the word is at the time. */
  function WithPinuse(w: Word): Word {
    match w
    case Data(v) => Data(if v % 2 == 0 then v + 1 else v)
    case Head(s, c, _) => Head(s, c, true)
  }

  predicate PinuseOf(w: Word) {
    match w
    case Data(v) => v % 2 == 1
    case Head(_, _, p) => p
  }

  lemma PinuseBits(w: Word)
    requires w.Head? ==> w.size % 16 == 0
    ensures PinuseOf(w) <==> PinuseBit(Bits(w))
    ensures PinuseOf(WithPinuse(w)) && Bits(WithPinuse(w)) == if PinuseBit(Bits(w)) then Bits(w) else Bits(w) + 1
  {
    if w.Head? { PackingIsLossless(w); }
  }

  /** What specifications read from a number word: zero when there is none. */
  function Rd(m: Mem, a: int): int { if a in m && m[a].Data? then m[a].value else 0 }

  /** What specifications read from the head word of chunk `p`. */
  function SizeAt(m: Mem, p: int): int { if p + HEAD in m && m[p + HEAD].Head? then m[p + HEAD].size else 0 }

  /** The chunk at `p` carries this head. */
  ghost predicate HasHead(m: Mem, p: int, size: nat, cin: bool, pin: bool) {
    p + HEAD in m && m[p + HEAD] == Head(size, cin, pin)
  }

  /** The word at `a` is the number `v`. */
  ghost predicate NumAt(m: Mem, a: int, v: int) { a in m && m[a] == Data(v) }

  /** Loading a number and storing a word are possible only inside the memory obtained. */
  function Load(m: Mem, a: int): (v: int)
    requires a in m && m[a].Data?
    ensures v == Rd(m, a)
  {
    m[a].value
  }

  function LoadHead(m: Mem, p: int): (h: Word)
    requires p + HEAD in m && m[p + HEAD].Head?
    ensures h.Head? && HasHead(m, p, h.size, h.cin, h.pin)
  {
    m[p + HEAD]
  }

  function Store(m: Mem, a: int, w: Word): (m': Mem)
    requires a in m
  {
    m[a := w]
  }

  /** Every address in `[lo, hi)` is in memory. */
  ghost predicate Mapped(m: Mem, lo: int, hi: int) { forall a :: lo <= a < hi ==> a in m }

  /** Unsigned 64-bit subtraction. */
  function Sub64(a: nat, b: nat): nat
    requires a < TWO64 && b < TWO64
  {
    if a >= b then a - b else a + TWO64 - b
  }

  function PadRequest(bytes: nat): nat { (bytes + 23) / 16 * 16 }

  function Request2Size(bytes: nat): nat { if bytes < MIN_REQUEST then MIN_CHUNK_SIZE else PadRequest(bytes) }

  /** A padded request is the least legal chunk size whose payload holds `bytes`. */
  lemma Request2SizeIsLeast(bytes: nat, s: nat)
    ensures Request2Size(bytes) % 16 == 0 && Request2Size(bytes) >= MIN_CHUNK_SIZE
    ensures Request2Size(bytes) - CHUNK_OVERHEAD >= bytes
    ensures s % 16 == 0 && s >= MIN_CHUNK_SIZE && s - CHUNK_OVERHEAD >= bytes ==> Request2Size(bytes) <= s
  {}

  function Pow2(n: nat): (r: nat)
    ensures r > 0
  {
    if n == 0 then 1 else 2 * Pow2(n - 1)
  }

  lemma {:induction false} Pow2Add(a: nat, b: nat)
    ensures Pow2(a) * Pow2(b) == Pow2(a + b)
  {
    if a > 0 {
      Pow2Add(a - 1, b);
    }
  }

  lemma {:induction false} Pow2Mono(a: nat, b: nat)
    requires a <= b
    ensures Pow2(a) <= Pow2(b)
  {
    if a < b {
      Pow2Mono(a, b - 1);
    }
  }

  lemma Pow2Values()
    ensures Pow2(0) == 1 && Pow2(7) == 128 && Pow2(8) == 256 && Pow2(16) == 0x1_0000
    ensures Pow2(23) == 0x80_0000 && Pow2(22) == 0x40_0000
    ensures Pow2(64) == TWO64
  {
    assert Pow2(3) == 8 && Pow2(4) == 16;
    Pow2Add(3, 3);
    Pow2Add(4, 3);
    Pow2Add(4, 4);
    Pow2Add(8, 8);
    Pow2Add(16, 6);
    Pow2Add(16, 7);
    Pow2Add(16, 16);
    Pow2Add(32, 32);
  }
}
