/** Which bytes of the label stream become which label, witness or permute bit: everything a garbler
    draws comes from a stretch of its own. */
module StreamUse {
  import opened Blocks
  import opened Circuits
  import opened LabelPrfs
  import opened Garbling
  import opened Inputs
  import opened BinaryShares
  import opened Lockstep

  /** `n` bytes of the stream, `from` bytes after the state's position. */
  function BytesAt(core: Core, st: PrfState, from: nat, n: nat): (r: seq<Byte>)
    ensures |r| == n
  {
    seq(n, j requires 0 <= j < n => Keystream(core, st.seed, st.stream, WORD_BYTES * st.wordPos + from + j))
  }

  function BlockAt(core: Core, st: PrfState, from: nat): Block {
    BytesAt(core, st, from, 16)
  }

  /** A draw after `words` words have been used. */
  lemma LaterBytes(core: Core, st: PrfState, words: nat, n: nat)
    ensures KeyBytes(core, Advance(st, words), n) == BytesAt(core, st, 4 * words, n)
  {
    DrawsConcatenate(core, st, words, n);
    var a, b, c := KeyBytes(core, st, 4 * words), KeyBytes(core, Advance(st, words), n), KeyBytes(core, st, 4 * words + n);
    forall j: nat | j < n
      ensures b[j] == BytesAt(core, st, 4 * words, n)[j]
    {
      assert b[j] == (a + b)[4 * words + j] == c[4 * words + j];
    }
  }

  lemma LaterBlock(core: Core, st: PrfState, words: nat)
    requires st.Valid()
    ensures DrawBlock(core, Advance(st, words)) == (BlockAt(core, st, 4 * words), Advance(st, words + 4))
  {
    LaterBytes(core, st, words, 16);
    AdvanceTwice(st, words, 4);
  }

  lemma LaterBit(core: Core, st: PrfState, words: nat)
    requires st.Valid()
    ensures DrawBit(core, Advance(st, words)) == (FromLeBytes(BytesAt(core, st, 4 * words, 4)) % 2 == 0, Advance(st, words + 1))
  {
    LaterBytes(core, st, words, 4);
    AdvanceTwice(st, words, 1);
  }

  /** The draws for input wire `i` of one pass: 52 bytes of their own. */
  lemma {:induction false} WiresUse(core: Core, st: PrfState, n: nat, i: nat)
    requires st.Valid() && i < n
    ensures DrawWires(core, st, n).0[i]
         == WireDraw(FromLeBytes(BytesAt(core, st, 52 * i, 4)) % 2 == 0, BlockAt(core, st, 52 * i + 4),
                     BlockAt(core, st, 52 * i + 20), BlockAt(core, st, 52 * i + 36))
  {
    hide Advance, DrawBlock, DrawBit, BytesAt, BlockAt, FromLeBytes;
    if i < n - 1 {
      WiresUse(core, st, n - 1, i);
    } else {
      var w := 13 * i;
      WiresAdvance(core, st, i);
      LaterBit(core, st, w);
      LaterBlock(core, st, w + 1);
      LaterBlock(core, st, w + 5);
      LaterBlock(core, st, w + 9);
    }
  }

  /** The draws for wire `i` of the evaluator's input: 96 bytes of their own. */
  lemma {:induction false} PadsUse(core: Core, st: PrfState, n: nat, i: nat)
    requires st.Valid() && i < n
    ensures DrawPads(core, st, n).0[i]
         == PadDraw(BlockAt(core, st, 96 * i), BlockAt(core, st, 96 * i + 16), BlockAt(core, st, 96 * i + 32),
                    BlockAt(core, st, 96 * i + 48), BlockAt(core, st, 96 * i + 64), BlockAt(core, st, 96 * i + 80))
  {
    hide Advance, DrawBlock, BytesAt, BlockAt;
    if i < n - 1 {
      PadsUse(core, st, n - 1, i);
    } else {
      var w := 24 * i;
      PadsAdvance(core, st, i);
      LaterBlock(core, st, w);
      LaterBlock(core, st, w + 4);
      LaterBlock(core, st, w + 8);
      LaterBlock(core, st, w + 12);
      LaterBlock(core, st, w + 16);
      LaterBlock(core, st, w + 20);
    }
  }

  /** The draws for bit `i` of a binary-to-Yao conversion: 112 bytes of their own. */
  lemma {:induction false} SharesUse(core: Core, st: PrfState, n: nat, i: nat)
    requires st.Valid() && i < n
    ensures DrawShares(core, st, n).0[i]
         == BitDraw(BlockAt(core, st, 112 * i), BlockAt(core, st, 112 * i + 16), BlockAt(core, st, 112 * i + 32),
                    BlockAt(core, st, 112 * i + 48), BlockAt(core, st, 112 * i + 64), BlockAt(core, st, 112 * i + 80),
                    BlockAt(core, st, 112 * i + 96))
  {
    hide Advance, DrawBlock, BytesAt, BlockAt;
    if i < n - 1 {
      SharesUse(core, st, n - 1, i);
    } else {
      var w := 28 * i;
      SharesAdvance(core, st, i);
      LaterBlock(core, st, w);
      LaterBlock(core, st, w + 4);
      LaterBlock(core, st, w + 8);
      LaterBlock(core, st, w + 12);
      LaterBlock(core, st, w + 16);
      LaterBlock(core, st, w + 20);
      LaterBlock(core, st, w + 24);
    }
  }

  /** The two witnesses for bit `i` of a Yao-to-binary conversion. */
  lemma {:induction false} WitnessesUse(core: Core, st: PrfState, n: nat, i: nat)
    requires st.Valid() && i < n
    ensures WitnessPairs(core, st, n).0[i] == (BlockAt(core, st, 32 * i), BlockAt(core, st, 32 * i + 16))
  {
    hide Advance, DrawBlock, BytesAt, BlockAt;
    if i < n - 1 {
      WitnessesUse(core, st, n - 1, i);
    } else {
      var w := 8 * i;
      WitnessesAdvance(core, st, i);
      LaterBlock(core, st, w);
      LaterBlock(core, st, w + 4);
    }
  }

  /** A constant gate's false label is the next block of the stream with its low bit set, and its
      table block shows the evaluator the label of the constant. */
  lemma ConstantUses(c: BinaryCircuit, shares: seq<seq<Block>>, delta: Block, core: Core, tccr: TccrHash, st: PrfState, k: nat)
    requires c.WiresInRange() && c.InputsFit(shares) && k < |c.gates| && st.Valid() && c.gates[k].Constant?
    ensures var before, after := GarbleAfter(c, shares, delta, core, tccr, st, k), GarbleAfter(c, shares, delta, core, tccr, st, k + 1);
            var zero := SetLow(BlockAt(core, st, 16 * CountConst(c.gates[..k])));
            after.w[c.gates[k].wire] == zero && Lsb(zero) && after.f == before.f + [Active(zero, c.gates[k].val, delta)]
  {
    hide Advance, DrawBlock, BytesAt, BlockAt, SetLow;
    GarblingAdvances(c, shares, delta, core, tccr, st, k);
    LaterBlock(core, st, 4 * CountConst(c.gates[..k]));
    LowIsSet(BlockAt(core, st, 16 * CountConst(c.gates[..k])));
  }

  lemma LowIsSet(b: Block)
    ensures Lsb(SetLow(b))
  {
  }

  /** The false labels of the input functionality, in the order in which it returns them: both
      garblers' inputs, one pass each, then the evaluator's. */
  lemma InputLabelsUse(store: Store, delta: Block, core: Core, tccr: TccrHash, st: PrfState, n: nat, i: nat)
    requires st.Valid() && i < n
    ensures var out, k := After(InputFromAll(n), store, delta, core, tccr, st).0, |store|;
            |out| == k + 3 && out[..k] == store && |out[k]| == |out[k + 1]| == |out[k + 2]| == n &&
            out[k][i] == BlockAt(core, st, 52 * i + 4) && out[k + 1][i] == BlockAt(core, Advance(st, 13 * n), 52 * i + 4) &&
            var mid := Advance(st, 26 * n);
            out[k + 2][i] == XorBlocks(BlockAt(core, mid, 96 * i), BlockAt(core, mid, 96 * i + 16))
  {
    hide Advance, DrawWires, DrawPads, BlockAt, BytesAt, XorBlocks, FromLeBytes;
    AdvanceIsValid(st, 13 * n);
    AdvanceIsValid(st, 26 * n);
    WiresUse(core, st, n, i);
    WiresAdvance(core, st, n);
    WiresUse(core, Advance(st, 13 * n), n, i);
    WiresAdvance(core, Advance(st, 13 * n), n);
    AdvanceTwice(st, 13 * n, 13 * n);
    PadsUse(core, Advance(st, 26 * n), n, i);
  }

  lemma AdvanceIsValid(st: PrfState, words: nat)
    requires st.Valid()
    ensures Advance(st, words).Valid()
  {
  }

  // ----- tweaks -----

  /** Two hashes that agree on one tweak. */
  ghost predicate AgreeAt(h1: TccrHash, h2: TccrHash, tweak: nat) {
    forall b: Block :: h1(b, tweak) == h2(b, tweak)
  }

  /** Gate `i` hashes its first operand under tweak 2i alone and its second under 2i + 1 alone, on
      both sides: no tweak serves two purposes. */
  lemma TweaksApart(h1: TccrHash, h2: TccrHash, x: Block, y: Block, delta: Block, g0: Block, g1: Block, i: nat)
    ensures AgreeAt(h1, h2, 2 * i) ==> GarbleAnd(x, y, delta, h1, i).0 == GarbleAnd(x, y, delta, h2, i).0
    ensures AgreeAt(h1, h2, 2 * i + 1) ==> GarbleAnd(x, y, delta, h1, i).1 == GarbleAnd(x, y, delta, h2, i).1
    ensures AgreeAt(h1, h2, 2 * i) && AgreeAt(h1, h2, 2 * i + 1) ==>
      GarbleAnd(x, y, delta, h1, i).2 == GarbleAnd(x, y, delta, h2, i).2 &&
      EvalAnd(x, y, g0, g1, h1, i) == EvalAnd(x, y, g0, g1, h2, i)
  {
    hide XorBlocks, Lsb;
  }
}
