/** Garbler setup (`src/functionality/setup.rs`): the shared key expands to the offset, the label
    stream and the garbling key. */
module Setup {
  import opened Blocks
  import opened LabelPrfs

  datatype GarblerKeys = GarblerKeys(delta: Block, labels: PrfState, garbleKey: Block)

  const SEED_BYTES: nat := 32

  /** The keys as slices of the one stream that the shared key gives. */
  function Expand(core: Core, prfKey: Seed): (r: GarblerKeys)
    ensures Lsb(r.delta) && r.labels.Valid()
  {
    var stream := KeyBytes(core, PrfState(prfKey, 0, 0), 3 * SEED_BYTES);
    var deltaSeed: Seed := stream[..SEED_BYTES];
    var labelSeed: Seed := stream[SEED_BYTES..2 * SEED_BYTES];
    var garbleKey: Block := stream[2 * SEED_BYTES..2 * SEED_BYTES + 16];
    GarblerKeys(SetLow(KeyBytes(core, PrfState(deltaSeed, 0, 0), 16)), PrfState(labelSeed, 0, 0), garbleKey)
  }

  /** Bytes `from..from + n` of the stream that a key gives. */
  function Stretch(core: Core, key: Seed, from: nat, n: nat): (r: seq<Byte>)
    ensures |r| == n
  {
    seq(n, j requires 0 <= j < n => Keystream(core, key, 0, from + j))
  }

  /** The offset, the label seed and the garbling key come from three disjoint parts of the key's
      stream: bytes 0 to 31 seed a stream of their own whose first block is the offset with its low
      bit set, bytes 32 to 63 seed the labels, bytes 64 to 79 are the garbling key. */
  predicate FromDisjointParts(core: Core, prfKey: Seed, delta: Block, labels: PrfState, garbleKey: Block) {
    labels.seed == Stretch(core, prfKey, 32, 32) && labels.stream == 0 && labels.wordPos == 0 &&
    garbleKey == Stretch(core, prfKey, 64, 16) && Lsb(delta) &&
    delta[0] == Stretch(core, Stretch(core, prfKey, 0, 32), 0, 16)[0] | 1 &&
    delta[1..] == Stretch(core, Stretch(core, prfKey, 0, 32), 0, 16)[1..]
  }

  lemma ExpandsFromDisjointParts(core: Core, prfKey: Seed)
    ensures var r := Expand(core, prfKey); FromDisjointParts(core, prfKey, r.delta, r.labels, r.garbleKey)
  {
    var stream := KeyBytes(core, PrfState(prfKey, 0, 0), 3 * SEED_BYTES);
    assert stream[..32] == Stretch(core, prfKey, 0, 32);
    assert stream[32..64] == Stretch(core, prfKey, 32, 32);
    assert stream[64..80] == Stretch(core, prfKey, 64, 16);
    assert KeyBytes(core, PrfState(stream[..32], 0, 0), 16) == Stretch(core, stream[..32], 0, 16);
  }

  method FillSeed(kdf: LabelPrf) returns (seed: Seed)
    requires kdf.Valid()
    modifies kdf`wordPos
    ensures kdf.Valid()
    ensures seed == KeyBytes(kdf.core, old(kdf.State()), SEED_BYTES) && kdf.State() == Advance(old(kdf.State()), 8)
  {
    var bytes := new Byte[SEED_BYTES](_ => 0);
    kdf.FillBytes(bytes);
    seed := bytes[..];
  }

  /** Three draws from the key stream; the offset's low bit is forced. */
  method GarblerDeltaAndPrf(core: Core, prfKey: Seed) returns (delta: Block, prf: LabelPrf, garbleKey: Block)
    ensures fresh(prf) && prf.Valid() && prf.core == core
    ensures Expand(core, prfKey) == GarblerKeys(delta, prf.State(), garbleKey)
    ensures FromDisjointParts(core, prfKey, delta, prf.State(), garbleKey)
  {
    hide FromDisjointParts;
    ExpandsFromDisjointParts(core, prfKey);
    ghost var st := PrfState(prfKey, 0, 0);
    var kdf := new LabelPrf.FromSeed(core, prfKey);
    var deltaSeed := FillSeed(kdf);
    var labelSeed := FillSeed(kdf);
    var garbleSeed := FillSeed(kdf);
    AdvanceTwice(st, 8, 8);
    DrawsConcatenate(core, st, 8, 32);
    DrawsConcatenate(core, st, 16, 32);
    ghost var stream := KeyBytes(core, st, 3 * SEED_BYTES);
    assert stream[..32] == deltaSeed && stream[32..64] == labelSeed && stream[64..] == garbleSeed by {
      assert stream == (KeyBytes(core, st, 32) + KeyBytes(core, Advance(st, 8), 32)) + KeyBytes(core, Advance(st, 16), 32);
    }
    var source := new LabelPrf.FromSeed(core, deltaSeed);
    var drawn := source.NextBlock();
    delta := drawn[0 := drawn[0] | 1];
    prf := new LabelPrf.FromSeed(core, labelSeed);
    garbleKey := garbleSeed[..16];
  }
}
