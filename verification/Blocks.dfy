/** 16-byte wire labels and their xor (`src/utilities/utils.rs`). */
module Blocks {
  type Byte = bv8
  type Block = s: seq<Byte> | |s| == 16 witness seq(16, _ => 0)

  function Zero(): Block {
    seq(16, _ => 0)
  }

  function XorBlocks(a: Block, b: Block): Block {
    seq(16, i requires 0 <= i < 16 => a[i] ^ b[i])
  }

  function Lsb(b: Block): bool {
    b[0] & 1 == 1
  }

  /** `block[0] |= 1` */
  function SetLow(b: Block): (r: Block)
    ensures Lsb(r)
  {
    b[0 := b[0] | 1]
  }

  /** The label of value `bit` on a wire whose false label is `f`. */
  function Active(f: Block, bit: bool, delta: Block): Block {
    if bit then XorBlocks(f, delta) else f
  }

  lemma XorComm(a: Block, b: Block)
    ensures XorBlocks(a, b) == XorBlocks(b, a)
  {
  }

  lemma XorAssoc(a: Block, b: Block, c: Block)
    ensures XorBlocks(XorBlocks(a, b), c) == XorBlocks(a, XorBlocks(b, c))
  {
  }

  lemma XorCancel(a: Block, b: Block)
    ensures XorBlocks(XorBlocks(a, b), b) == a
    ensures XorBlocks(b, XorBlocks(b, a)) == a
  {
  }

  lemma LsbXor(a: Block, d: Block)
    ensures Lsb(XorBlocks(a, d)) == (Lsb(a) != Lsb(d))
  {
  }

  /** With an odd offset a wire's two labels differ, in the low bit already. */
  lemma ActiveLsb(f: Block, bit: bool, delta: Block)
    requires Lsb(delta)
    ensures Lsb(Active(f, bit, delta)) == (Lsb(f) != bit)
    ensures Active(f, true, delta) != Active(f, false, delta)
  {
    LsbXor(f, delta);
  }

  /** Xoring labels xors the values they carry. */
  lemma ActiveXor(f: Block, a: bool, g: Block, b: bool, delta: Block)
    ensures XorBlocks(Active(f, a, delta), Active(g, b, delta)) == Active(XorBlocks(f, g), a != b, delta)
  {
    XorAssoc(f, delta, g);
    XorComm(delta, g);
    XorAssoc(f, g, delta);
    XorAssoc(XorBlocks(f, delta), g, delta);
    XorAssoc(f, XorBlocks(delta, g), delta);
    XorCancel(g, delta);
  }

  lemma ActiveNot(f: Block, a: bool, delta: Block)
    ensures Active(XorBlocks(f, delta), !a, delta) == Active(f, a, delta)
  {
    XorCancel(f, delta);
  }

  lemma ActiveTwice(f: Block, a: bool, b: bool, delta: Block)
    ensures Active(Active(f, a, delta), b, delta) == Active(f, a != b, delta)
  {
    XorCancel(f, delta);
  }
}
