/** The ChaCha8 label stream of `src/utilities/label_prf.rs`. The ChaCha8 rounds are the
    parameter `core`: it maps a key and the last four state words to a 64-byte block. */
module LabelPrfs {
  import opened Blocks

  type Seed = s: seq<Byte> | |s| == 32 witness seq(32, _ => 0)
  type BlockBytes = s: seq<Byte> | |s| == 64 witness seq(64, _ => 0)
  type Core = (Seed, nat, nat, nat, nat) -> BlockBytes

  const WORD_BYTES: nat := 4
  const BLOCK_BYTES: nat := 64
  const TWO32: nat := 0x1_0000_0000
  const TWO64: nat := 0x1_0000_0000_0000_0000
  /** Number of word positions: 2^68. */
  const WORD_POSITIONS: nat := 0x10_0000_0000_0000_0000

  datatype PrfState = PrfState(seed: Seed, stream: nat, wordPos: nat) {
    predicate Valid() {
      stream < TWO64 && wordPos < WORD_POSITIONS
    }
  }

  /** Byte `pos` of the single stream with a 64-bit block counter. */
  function Keystream(core: Core, seed: Seed, stream: nat, pos: nat): Byte {
    var counter := pos / BLOCK_BYTES % TWO64;
    core(seed, counter % TWO32, counter / TWO32, stream % TWO32, stream / TWO32)[pos % BLOCK_BYTES]
  }

  /** The next `n` bytes of the stream. */
  function KeyBytes(core: Core, st: PrfState, n: nat): (r: seq<Byte>)
    ensures |r| == n
  {
    seq(n, j requires 0 <= j < n => Keystream(core, st.seed, st.stream, WORD_BYTES * st.wordPos + j))
  }

  function Advance(st: PrfState, words: nat): (r: PrfState)
    ensures st.stream < TWO64 ==> r.Valid()
  {
    st.(wordPos := (st.wordPos + words) % WORD_POSITIONS)
  }

  function WordsFor(n: nat): nat {
    (n + 3) / 4
  }

  /** Bytes `from..from + len` of the keystream of a cipher whose block counter has 32 bits:
      it must not be asked to go past its last block. */
  function IetfKeystream(core: Core, key: Seed, nonce: (nat, nat, nat), from: nat, len: nat): (r: seq<Byte>)
    requires from + len <= TWO32 * BLOCK_BYTES
    ensures |r| == len
  {
    seq(len, j requires 0 <= j < len =>
      core(key, (from + j) / BLOCK_BYTES, nonce.0, nonce.1, nonce.2)[(from + j) % BLOCK_BYTES])
  }

  /** One byte of the 32-bit cipher, restarted at block `pos / 64`, is a byte of the 64-bit stream. */
  lemma CounterSplit(core: Core, seed: Seed, stream: nat, pos: nat, j: nat)
    requires (pos / BLOCK_BYTES % TWO64 % TWO32) * BLOCK_BYTES + pos % BLOCK_BYTES + j < TWO32 * BLOCK_BYTES
    ensures
      var block := pos / BLOCK_BYTES % TWO64;
      var from := block % TWO32 * BLOCK_BYTES + pos % BLOCK_BYTES;
      core(seed, (from + j) / BLOCK_BYTES, block / TWO32, stream % TWO32, stream / TWO32)[(from + j) % BLOCK_BYTES]
      == Keystream(core, seed, stream, pos + j)
  {
    var block := pos / BLOCK_BYTES % TWO64;
    var low := block % TWO32;
    var up := (pos % BLOCK_BYTES + j) / BLOCK_BYTES;
    var from := low * BLOCK_BYTES + pos % BLOCK_BYTES;
    assert (from + j) / BLOCK_BYTES == low + up && (from + j) % BLOCK_BYTES == (pos + j) % BLOCK_BYTES;
    assert (pos + j) / BLOCK_BYTES == pos / BLOCK_BYTES + up;
    assert low + up < TWO32;
    assert (pos / BLOCK_BYTES + up) % TWO64 == block + up;
    assert (block + up) % TWO32 == low + up && (block + up) / TWO32 == block / TWO32;
  }

  /** Bytes left before the 32-bit counter wraps, from byte position `pos`. */
  function UntilWrap(pos: nat): (r: nat)
    ensures r > 0
  {
    (TWO32 - pos / BLOCK_BYTES % TWO64 % TWO32) * BLOCK_BYTES - pos % BLOCK_BYTES
  }

  function ChunkNonce(stream: nat, pos: nat): (nat, nat, nat) {
    (pos / BLOCK_BYTES % TWO64 / TWO32, stream % TWO32, stream / TWO32)
  }

  function ChunkStart(pos: nat): (r: nat)
    ensures r + UntilWrap(pos) == TWO32 * BLOCK_BYTES
  {
    pos / BLOCK_BYTES % TWO64 % TWO32 * BLOCK_BYTES + pos % BLOCK_BYTES
  }

  /** A chunk that stops before the wrap is a stretch of the 64-bit stream. */
  lemma ChunkIsStream(core: Core, seed: Seed, stream: nat, pos: nat, take: nat)
    requires take <= UntilWrap(pos)
    ensures IetfKeystream(core, seed, ChunkNonce(stream, pos), ChunkStart(pos), take)
         == seq(take, j requires 0 <= j < take => Keystream(core, seed, stream, pos + j))
  {
    forall j: nat | j < take
      ensures IetfKeystream(core, seed, ChunkNonce(stream, pos), ChunkStart(pos), take)[j]
           == Keystream(core, seed, stream, pos + j)
    {
      CounterSplit(core, seed, stream, pos, j);
    }
  }

  /** One round of the `generate` loop: restart the 32-bit cipher at `bytePos` and take what is
      asked for, or what is left before the counter wraps. */
  method NextChunk(core: Core, seed: Seed, stream: nat, bytePos: nat, remaining: nat)
    returns (chunk: seq<Byte>)
    requires remaining > 0
    ensures 0 < |chunk| <= remaining
    ensures chunk == seq(|chunk|, j requires 0 <= j < |chunk| => Keystream(core, seed, stream, bytePos + j))
  {
    var blockPos := bytePos / BLOCK_BYTES % TWO64;
    var byteInBlock := bytePos % BLOCK_BYTES;
    var low := blockPos % TWO32;
    var high := blockPos / TWO32;
    var nonce := (high, stream % TWO32, stream / TWO32);
    var untilWrap := (TWO32 - low) * BLOCK_BYTES - byteInBlock;
    assert untilWrap == UntilWrap(bytePos);
    var take := if untilWrap < remaining then untilWrap else remaining;
    chunk := IetfKeystream(core, seed, nonce, low * BLOCK_BYTES + byteInBlock, take);
    ChunkIsStream(core, seed, stream, bytePos, take);
  }

  method WriteChunk(output: array<Byte>, offset: nat, chunk: seq<Byte>)
    requires offset + |chunk| <= output.Length
    modifies output
    ensures forall k | 0 <= k < output.Length ::
      output[k] == if offset <= k < offset + |chunk| then chunk[k - offset] else old(output[k])
  {
    forall j | 0 <= j < |chunk| {
      output[offset + j] := chunk[j];
    }
    assert forall j | 0 <= j < |chunk| :: output[offset + j] == chunk[j];
    forall k | offset <= k < offset + |chunk|
      ensures output[k] == chunk[k - offset]
    {
      assert output[offset + (k - offset)] == chunk[k - offset];
    }
  }

  class LabelPrf {
    const core: Core
    const seed: Seed
    var stream: nat
    var wordPos: nat

    predicate Valid()
      reads this
    {
      State().Valid()
    }

    /** The portable state, as `state()` returns it. */
    function State(): PrfState
      reads this
    {
      PrfState(seed, stream, wordPos)
    }

    constructor FromSeed(core: Core, seed: Seed)
      ensures Valid() && this.core == core && State() == PrfState(seed, 0, 0)
    {
      this.core, this.seed := core, seed;
      stream, wordPos := 0, 0;
    }

    /** Resuming from a saved state gives that state back. */
    constructor FromState(core: Core, st: PrfState)
      requires st.stream < TWO64
      ensures Valid() && this.core == core && State() == Advance(st, 0)
      ensures st.Valid() ==> State() == st
    {
      this.core, this.seed := core, st.seed;
      stream, wordPos := st.stream, st.wordPos % WORD_POSITIONS;
    }

    method Generate(output: array<Byte>)
      requires Valid()
      modifies output
      ensures output[..] == KeyBytes(core, State(), output.Length)
    {
      var offset := 0;
      var bytePos := wordPos * WORD_BYTES;
      while offset < output.Length
        invariant offset <= output.Length && bytePos == wordPos * WORD_BYTES + offset
        invariant forall k | 0 <= k < offset ::
          output[k] == Keystream(core, seed, stream, wordPos * WORD_BYTES + k)
        decreases output.Length - offset
      {
        var chunk := NextChunk(core, seed, stream, bytePos, output.Length - offset);
        WriteChunk(output, offset, chunk);
        offset := offset + |chunk|;
        bytePos := bytePos + |chunk|;
      }
    }

    method FillBytes(output: array<Byte>)
      requires Valid()
      modifies this`wordPos, output
      ensures Valid()
      ensures output[..] == KeyBytes(core, old(State()), output.Length)
      ensures State() == Advance(old(State()), WordsFor(output.Length))
    {
      Generate(output);
      wordPos := (wordPos + (output.Length + 3) / 4) % WORD_POSITIONS;
    }

    method NextU32() returns (r: nat)
      requires Valid()
      modifies this`wordPos
      ensures Valid()
      ensures r == FromLeBytes(KeyBytes(core, old(State()), 4))
      ensures State() == Advance(old(State()), 1)
    {
      var bytes := new Byte[4](_ => 0);
      FillBytes(bytes);
      r := FromLeBytes(bytes[..]);
    }

    method NextBlock() returns (b: Block)
      requires Valid()
      modifies this`wordPos
      ensures Valid()
      ensures (b, State()) == DrawBlock(core, old(State()))
    {
      var bytes := new Byte[16](_ => 0);
      FillBytes(bytes);
      b := bytes[..];
    }
  }

  function FromLeBytes(bytes: seq<Byte>): nat {
    if bytes == [] then 0 else bytes[0] as nat + 256 * FromLeBytes(bytes[1..])
  }

  // ----- draws as functions of the state -----

  function DrawBlock(core: Core, st: PrfState): (Block, PrfState) {
    (KeyBytes(core, st, 16), Advance(st, 4))
  }

  /** The permute bit of the input phase: `next_u32() % 2 == 0`. */
  function DrawBit(core: Core, st: PrfState): (bool, PrfState) {
    (FromLeBytes(KeyBytes(core, st, 4)) % 2 == 0, Advance(st, 1))
  }

  // ----- properties of the stream -----

  /** The stream repeats after 2^70 bytes, so masking the word position loses nothing. */
  lemma KeystreamPeriodic(core: Core, seed: Seed, stream: nat, pos: nat, laps: nat)
    ensures Keystream(core, seed, stream, pos + laps * (WORD_POSITIONS * WORD_BYTES)) == Keystream(core, seed, stream, pos)
  {
    var shift := laps * TWO64;
    assert pos + laps * (WORD_POSITIONS * WORD_BYTES) == pos + BLOCK_BYTES * shift;
    assert (pos + BLOCK_BYTES * shift) / BLOCK_BYTES == pos / BLOCK_BYTES + shift;
    AddLaps(pos / BLOCK_BYTES, laps);
  }

  /** The stream is the one of a cipher whose state has a 64-bit block counter in words 12 and 13 and
      a 64-bit stream number in words 14 and 15, low words first. */
  lemma StateWords(core: Core, seed: Seed, stream: nat, pos: nat, w12: nat, w13: nat, w14: nat, w15: nat)
    requires w12 < TWO32 && w13 < TWO32 && w14 < TWO32 && pos < TWO64 * BLOCK_BYTES
    requires w12 + TWO32 * w13 == pos / BLOCK_BYTES && w14 + TWO32 * w15 == stream
    ensures Keystream(core, seed, stream, pos) == core(seed, w12, w13, w14, w15)[pos % BLOCK_BYTES]
  {
    LowAndHigh(w12, w13);
    LowAndHigh(w14, w15);
  }

  lemma LowAndHigh(low: nat, high: nat)
    requires low < TWO32
    ensures (low + TWO32 * high) % TWO32 == low && (low + TWO32 * high) / TWO32 == high
  {
  }

  lemma AddLaps(x: nat, laps: nat)
    ensures (x + laps * TWO64) % TWO64 == x % TWO64
  {
    if laps > 0 {
      AddLaps(x, laps - 1);
      assert x + laps * TWO64 == (x + (laps - 1) * TWO64) + TWO64;
    }
  }

  /** A whole number of words drawn now and `m` bytes drawn later are one longer draw. */
  lemma DrawsConcatenate(core: Core, st: PrfState, words: nat, m: nat)
    ensures KeyBytes(core, st, 4 * words) + KeyBytes(core, Advance(st, words), m) == KeyBytes(core, st, 4 * words + m)
  {
    var a := KeyBytes(core, st, 4 * words);
    var b := KeyBytes(core, Advance(st, words), m);
    var c := KeyBytes(core, st, 4 * words + m);
    var laps := (st.wordPos + words) / WORD_POSITIONS;
    var rest := (st.wordPos + words) % WORD_POSITIONS;
    forall j: nat | j < m
      ensures b[j] == c[4 * words + j]
    {
      KeystreamPeriodic(core, st.seed, st.stream, WORD_BYTES * rest + j, laps);
      assert st.wordPos + words == rest + laps * WORD_POSITIONS;
    }
  }

  /** The bytes of a run of draws, and the state it ends in. */
  function Draws(core: Core, st: PrfState, words: seq<nat>): (seq<Byte>, PrfState)
    decreases |words|
  {
    if words == [] then ([], st)
    else
      var (rest, last) := Draws(core, Advance(st, words[0]), words[1..]);
      (KeyBytes(core, st, 4 * words[0]) + rest, last)
  }

  function Sum(xs: seq<nat>): nat {
    if xs == [] then 0 else xs[0] + Sum(xs[1..])
  }

  /** However a run is cut into draws, the labels are consecutive bytes of one stream and
      the final position depends on the total alone. */
  lemma {:induction false} DrawsAreOneStream(core: Core, st: PrfState, words: seq<nat>)
    requires st.Valid()
    ensures Draws(core, st, words) == (KeyBytes(core, st, 4 * Sum(words)), Advance(st, Sum(words)))
    decreases |words|
  {
    if words != [] {
      DrawsAreOneStream(core, Advance(st, words[0]), words[1..]);
      DrawsConcatenate(core, st, words[0], 4 * Sum(words[1..]));
      AdvanceTwice(st, words[0], Sum(words[1..]));
    }
  }

  lemma AdvanceTwice(st: PrfState, a: nat, b: nat)
    ensures Advance(Advance(st, a), b) == Advance(st, a + b)
  {
    var x := st.wordPos + a;
    assert x == x / WORD_POSITIONS * WORD_POSITIONS + x % WORD_POSITIONS;
    assert (x % WORD_POSITIONS + b) % WORD_POSITIONS == (x + b) % WORD_POSITIONS;
  }
}
