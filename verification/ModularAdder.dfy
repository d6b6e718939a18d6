/** Addition modulo a constant (`src/arithmetic.rs`): little-endian modulus bytes, subtraction by
    two's complement, and the adder-comparator-subtractor-multiplexer composition. */
module ModularAdder {
  import opened Circuits
  import opened Builder
  import opened Numbers
  import opened Gadgets
  import opened PrefixAdder
  import opened Arithmetic

  type U8 = n: nat | n < 256

  /** The number a little-endian byte string stands for. */
  function LeNum(bytes: seq<U8>): nat {
    if bytes == [] then 0 else bytes[0] + 256 * LeNum(bytes[1..])
  }

  function Shr(b: nat, i: nat): nat {
    if i == 0 then b else Shr(b, i - 1) / 2
  }

  lemma HalfStep(p: nat, s: nat)
    ensures p * s == (2 * p) * (s / 2) + if s % 2 == 1 then p else 0
  {
    MulDistrib(p, 2 * (s / 2), s % 2);
    MulAssoc(p, 2, s / 2);
    assert p * 2 == 2 * p;
  }

  method ByteBits(byte: U8) returns (bits: seq<bool>)
    ensures |bits| == 8 && Num(bits) == byte
  {
    bits := [];
    for i := 0 to 8
      invariant |bits| == i && Num(bits) + Pow2(i) * Shr(byte, i) == byte
    {
      NumSnoc(bits, Shr(byte, i) % 2 == 1);
      HalfStep(Pow2(i), Shr(byte, i));
      bits := bits + [Shr(byte, i) % 2 == 1];
    }
    assert Pow2(8) == 256;
  }

  method BytesToBitsLe(bytes: seq<U8>) returns (bits: seq<bool>)
    ensures |bits| == 8 * |bytes| && Num(bits) == LeNum(bytes)
  {
    bits := [];
    for k := 0 to |bytes|
      invariant |bits| == 8 * k && Num(bits) + Pow2(8 * k) * LeNum(bytes[k..]) == LeNum(bytes)
    {
      var chunk := ByteBits(bytes[k]);
      NumAppend(bits, chunk);
      Pow2Add(8 * k, 8);
      assert Pow2(8) == 256;
      assert bytes[k..][1..] == bytes[k + 1..];
      MulDistrib(Pow2(8 * k), bytes[k], 256 * LeNum(bytes[k + 1..]));
      MulAssoc(Pow2(8 * k), 256, LeNum(bytes[k + 1..]));
      bits := bits + chunk;
    }
  }

  /** `Vec::resize(n, false)`: cut off or filled with zeros. */
  function Resize(bits: seq<bool>, n: nat): (r: seq<bool>)
    ensures |r| == n
  {
    if n <= |bits| then bits[..n] else bits + Zeros(n - |bits|)
  }

  function Zeros(n: nat): (r: seq<bool>)
    ensures |r| == n
  {
    if n == 0 then [] else [false] + Zeros(n - 1)
  }

  lemma {:induction false} NumZeros(n: nat)
    ensures Num(Zeros(n)) == 0
  {
    if n > 0 {
      NumZeros(n - 1);
      assert Zeros(n)[1..] == Zeros(n - 1);
    }
  }

  lemma ResizeNum(bits: seq<bool>, n: nat)
    ensures Num(Resize(bits, n)) == Num(bits) % Pow2(n)
  {
    if n <= |bits| {
      NumTake(bits, n);
    } else {
      NumAppend(bits, Zeros(n - |bits|));
      NumZeros(n - |bits|);
      NumBound(bits);
      Pow2Monotone(|bits|, n);
      ModUnique(Num(bits), Pow2(n), 0, Num(bits));
    }
  }

  /** Bitwise complement. */
  function Complement(bits: seq<bool>): (r: seq<bool>)
    ensures |r| == |bits|
  {
    seq(|bits|, i requires 0 <= i < |bits| => !bits[i])
  }

  lemma {:induction false} NumComplement(bits: seq<bool>)
    ensures Num(bits) + Num(Complement(bits)) == Pow2(|bits|) - 1
  {
    if bits != [] {
      NumComplement(bits[1..]);
      assert Complement(bits)[1..] == Complement(bits[1..]);
    }
  }

  /** Add one, stopping as soon as the carry dies. */
  method Increment(start: seq<bool>) returns (bits: seq<bool>, ghost overflow: bool)
    ensures |bits| == |start| && Num(bits) + Weight(|start|, overflow) == Num(start) + 1
  {
    bits := start;
    var carry := true;
    var i := 0;
    while i < |bits|
      invariant i <= |bits| == |start| && carry
      invariant bits[i..] == start[i..]
      invariant Num(bits[..i]) + Weight(i, true) == Num(start[..i]) + 1
    {
      var bit := bits[i];
      var sum := bit != carry;
      carry := carry && bit;
      IncrementStep(start, bits, i);
      bits := bits[i := sum];
      i := i + 1;
      if !carry {
        break;
      }
    }
    overflow := carry;
    assert bits == bits[..i] + bits[i..] && start == start[..i] + start[i..];
    NumAppend(bits[..i], bits[i..]);
    NumAppend(start[..i], start[i..]);
  }

  lemma IncrementStep(start: seq<bool>, bits: seq<bool>, i: nat)
    requires i < |bits| == |start| && bits[i..] == start[i..]
    requires Num(bits[..i]) + Weight(i, true) == Num(start[..i]) + 1
    ensures var next := bits[i := !bits[i]];
            next[i + 1..] == start[i + 1..] &&
            Num(next[..i + 1]) + Weight(i + 1, bits[i]) == Num(start[..i + 1]) + 1
  {
    var next := bits[i := !bits[i]];
    assert bits[i] == bits[i..][0] == start[i];
    assert next[..i + 1] == bits[..i] + [!bits[i]] && start[..i + 1] == start[..i] + [start[i]];
    NumSnoc(bits[..i], !bits[i]);
    NumSnoc(start[..i], start[i]);
    assert bits[i + 1..] == bits[i..][1..] && start[i + 1..] == start[i..][1..];
  }

  // ----- constants on a builder -----

  predicate AreConstants(gates: seq<Gate>, bits: seq<bool>, ids: seq<nat>) {
    |ids| == |bits| && forall i | 0 <= i < |ids| :: ids[i] < |gates| && gates[ids[i]] == Constant(bits[i], ids[i])
  }

  lemma ConstantValues(gates: seq<Gate>, bits: seq<bool>, ids: seq<nat>, inputs: seq<seq<bool>>)
    requires AreConstants(gates, bits, ids)
    ensures Vals(gates, inputs, ids) == bits
  {
  }

  method ConstantWires(b: CircuitBuilder, bits: seq<bool>) returns (ids: seq<nat>)
    requires b.Valid()
    modifies b
    ensures b.Valid() && Extends(old(b.gates), b.gates)
    ensures b.inputGateIds == old(b.inputGateIds) && b.outputGateIds == old(b.outputGateIds)
    ensures AreConstants(b.gates, bits, ids) && Below(ids, |b.gates|)
  {
    hide BuilderForm;
    ids := [];
    for i := 0 to |bits|
      invariant b.Valid() && Extends(old(b.gates), b.gates)
      invariant b.inputGateIds == old(b.inputGateIds) && b.outputGateIds == old(b.outputGateIds)
      invariant AreConstants(b.gates, bits[..i], ids)
    {
      var id := b.Const(bits[i]);
      ids := ids + [id];
    }
    assert bits[..|bits|] == bits;
  }

  // ----- subtraction of a constant -----

  predicate SubtractsAt(c: BinaryCircuit, size: nat, p: nat, inputs: seq<seq<bool>>)
    requires |inputs| == 1
  {
    Num(Output(c, inputs)) == (Num(inputs[0]) + Pow2(size) - p % Pow2(size)) % Pow2(size)
  }

  /** The outputs are `x - p` modulo 2^size. */
  ghost predicate Subtracts(c: BinaryCircuit, size: nat, p: nat) {
    Shape(c, [size]) && |c.outputGateIds| == size &&
    forall inputs: seq<seq<bool>> | Words(inputs, 1, size) :: SubtractsAt(c, size, p, inputs)
  }

  lemma SubtractOutputs(c: BinaryCircuit, size: nat, p: nat, gin: seq<nat>, neg: seq<bool>, overflow: bool, ids: seq<nat>,
                        ppa: BinaryCircuit, outs: seq<nat>)
    requires Shape(c, [size]) && |gin| == |neg| == size && IsGroup(c.gates, gin, 0) && AreConstants(c.gates, neg, ids)
    requires Num(neg) + Weight(size, overflow) == Pow2(size) - p % Pow2(size)
    requires Adds(ppa, size) && InlinedHere(c.gates, ppa, [gin, ids], outs)
    requires c.outputGateIds == outs[..size]
    ensures Subtracts(c, size, p)
  {
    hide BuilderForm, Num, Pow2, Weight;
    forall inputs: seq<seq<bool>> | Words(inputs, 1, size)
      ensures SubtractsAt(c, size, p, inputs)
    {
      GroupValues(c.gates, gin, 0, inputs);
      ConstantValues(c.gates, neg, ids, inputs);
      Inlined(c.gates, ppa, [gin, ids], outs, inputs);
      var groups := Groups(c.gates, inputs, [gin, ids]);
      assert groups == [inputs[0], neg];
      assert AddsAt(ppa, groups);
      var all := Vals(c.gates, inputs, outs);
      assert Output(c, inputs) == all[..size];
      NumTake(all, size);
      NegatedSum(Num(inputs[0]), Num(neg), size, p, overflow);
    }
  }

  lemma NegatedSum(x: nat, neg: nat, size: nat, p: nat, overflow: bool)
    requires neg + Weight(size, overflow) == Pow2(size) - p % Pow2(size)
    ensures (x + neg) % Pow2(size) == (x + Pow2(size) - p % Pow2(size)) % Pow2(size)
  {
    if overflow {
      AddModulus(x + neg, Pow2(size));
    }
  }

  lemma AddModulus(x: nat, m: nat)
    requires m > 0
    ensures (x + m) % m == x % m
  {
    var k := DivMod(x, m);
    MulDistrib(m, k, 1);
    ModUnique(x + m, m, k + 1, x % m);
  }

  method NegatedConstant(size: nat, primeBytesLe: seq<U8>) returns (neg: seq<bool>, ghost overflow: bool)
    ensures |neg| == size
    ensures Num(neg) + Weight(size, overflow) == Pow2(size) - LeNum(primeBytesLe) % Pow2(size)
  {
    var pbin := BytesToBitsLe(primeBytesLe);
    ResizeNum(pbin, size);
    pbin := Resize(pbin, size);
    NumComplement(pbin);
    neg, overflow := Increment(Complement(pbin));
  }

  method BuildSubtractOrderCircuit(size: nat, primeBytesLe: seq<U8>) returns (c: BinaryCircuit)
    requires 0 < size < 0x1_0000
    ensures Shape(c, [size]) && |c.outputGateIds| == size
    ensures Subtracts(c, size, LeNum(primeBytesLe))
  {
    hide BuilderForm, Adds, InlinedHere, Subtracts, Num;
    var b := new CircuitBuilder();
    var gin := b.NewInputs(size);
    var neg, overflow := NegatedConstant(size, primeBytesLe);
    var pbinIds := ConstantWires(b, neg);
    var ppa := BuildPpaCircuit(size);
    var ppaout := Inline(b, ppa, [gin, pbinIds], [size, size]);
    b.MarkOutputs(ppaout[..size]);
    c := b.Finish();
    SubtractOutputs(c, size, LeNum(primeBytesLe), gin, neg, overflow, pbinIds, ppa, ppaout);
  }

  // ----- addition modulo a constant -----

  /** What the circuit computes on all inputs: one conditional subtraction of `p` cut to
      `size + 1` bits, in `size` bits. */
  function ModAdd(size: nat, p: nat, x: nat, y: nat): nat {
    var q := p % Pow2(size + 1);
    (if x + y >= q then x + y - q else x + y) % Pow2(size)
  }

  predicate ModAddsAt(c: BinaryCircuit, size: nat, p: nat, inputs: seq<seq<bool>>)
    requires |inputs| == 2
  {
    Num(Output(c, inputs)) == ModAdd(size, p, Num(inputs[0]), Num(inputs[1]))
  }

  ghost predicate ModAdds(c: BinaryCircuit, size: nat, p: nat) {
    Shape(c, [size, size]) && |c.outputGateIds| == size &&
    forall inputs: seq<seq<bool>> | TwoWords(inputs, size) :: ModAddsAt(c, size, p, inputs)
  }

  /** For a modulus that fits `size` bits, or is 2^size, reduced operands give a reduced sum. */
  lemma ModAddReduced(size: nat, p: nat, x: nat, y: nat)
    requires x < p && y < p && p <= Pow2(size)
    ensures ModAdd(size, p, x, y) == (x + y) % p
  {
    assert Pow2(size + 1) == 2 * Pow2(size);
    ModUnique(p, Pow2(size + 1), 0, p);
    if x + y >= p {
      ModUnique(x + y, p, 1, x + y - p);
      ModUnique(x + y - p, Pow2(size), 0, x + y - p);
    } else {
      ModUnique(x + y, p, 0, x + y);
      ModUnique(x + y, Pow2(size), 0, x + y);
    }
  }

  function Repeat(w: nat, n: nat): (r: seq<nat>)
    ensures |r| == n && forall i | 0 <= i < n :: r[i] == w
  {
    seq(n, _ => w)
  }

  /** What the sum, the comparator and the subtractor carry for given inputs. */
  lemma ModAddParts(gates: seq<Gate>, size: nat, p: nat, inputs: seq<seq<bool>>, x: seq<nat>, y: seq<nat>,
                    ppa: BinaryCircuit, add: seq<nat>, pbin: seq<bool>, ps: seq<nat>, ge: BinaryCircuit, comp: seq<nat>,
                    subc: BinaryCircuit, sub: seq<nat>)
    requires TwoWords(inputs, size) && |x| == |y| == size && IsGroup(gates, x, 0) && IsGroup(gates, y, 1)
    requires Adds(ppa, size) && InlinedHere(gates, ppa, [x, y], add)
    requires AreConstants(gates, pbin, ps) && |pbin| == size + 1 && Num(pbin) == p % Pow2(size + 1)
    requires TestsGe(ge, size + 1) && InlinedHere(gates, ge, [add, ps], comp)
    requires Subtracts(subc, size + 1, p) && InlinedHere(gates, subc, [add], sub)
    ensures |add| == |sub| == size + 1 && |comp| == 1
    ensures Num(Vals(gates, inputs, add)) == Num(inputs[0]) + Num(inputs[1])
    ensures Val(gates, inputs, comp[0]) == (Num(inputs[0]) + Num(inputs[1]) >= p % Pow2(size + 1))
    ensures Num(Vals(gates, inputs, sub))
         == (Num(inputs[0]) + Num(inputs[1]) + Pow2(size + 1) - p % Pow2(size + 1)) % Pow2(size + 1)
  {
    hide BuilderForm, Num, Pow2, Val;
    InlinedOnInputs(gates, ppa, x, y, add, inputs);
    assert AddsAt(ppa, inputs);
    ConstantValues(gates, pbin, ps, inputs);
    var sum := Vals(gates, inputs, add);
    Inlined(gates, ge, [add, ps], comp, inputs);
    assert Groups(gates, inputs, [add, ps]) == [sum, pbin];
    assert GeAt(ge, [sum, pbin]);
    assert Vals(gates, inputs, comp)[0] == Val(gates, inputs, comp[0]);
    Inlined(gates, subc, [add], sub, inputs);
    assert Groups(gates, inputs, [add]) == [sum];
    assert SubtractsAt(subc, size + 1, p, [sum]);
  }

  /** Choosing between the difference and the sum, in `size` bits. */
  lemma ModAddChoice(gates: seq<Gate>, size: nat, inputs: seq<seq<bool>>, comp: nat, sub: seq<nat>, add: seq<nat>,
                     mux: BinaryCircuit, out: seq<nat>)
    requires |sub| == |add| == size + 1 && Selects(mux, size)
    requires InlinedHere(gates, mux, [Repeat(comp, size), sub[..size], add[..size]], out)
    ensures Num(Vals(gates, inputs, out))
         == Num(Vals(gates, inputs, if Val(gates, inputs, comp) then sub else add)) % Pow2(size)
  {
    hide BuilderForm, Num, Pow2, Val;
    var ids := [Repeat(comp, size), sub[..size], add[..size]];
    Inlined(gates, mux, ids, out, inputs);
    var groups := Groups(gates, inputs, ids);
    assert MuxAt(mux, groups, size);
    var chosen := Vals(gates, inputs, if Val(gates, inputs, comp) then sub else add);
    var r := Vals(gates, inputs, out);
    forall i | 0 <= i < size
      ensures r[i] == chosen[..size][i]
    {
      assert r[i] == Output(mux, groups)[i] == if groups[0][i] then groups[1][i] else groups[2][i];
      assert groups[0][i] == Val(gates, inputs, comp);
      assert groups[1][i] == Val(gates, inputs, sub[i]) && groups[2][i] == Val(gates, inputs, add[i]);
    }
    assert r == chosen[..size];
    NumTake(chosen, size);
  }

  lemma SubtractNoWrap(s: nat, m: nat, q: nat)
    requires q <= s < m
    ensures (s + m - q) % m == s - q
  {
    AddModulus(s - q, m);
    ModUnique(s - q, m, 0, s - q);
  }

  lemma ModAddOutputs(c: BinaryCircuit, size: nat, p: nat, x: seq<nat>, y: seq<nat>,
                      ppa: BinaryCircuit, add: seq<nat>, pbin: seq<bool>, ps: seq<nat>, ge: BinaryCircuit, comp: seq<nat>,
                      subc: BinaryCircuit, sub: seq<nat>, mux: BinaryCircuit, out: seq<nat>)
    requires Shape(c, [size, size]) && |x| == |y| == size && IsGroup(c.gates, x, 0) && IsGroup(c.gates, y, 1)
    requires Adds(ppa, size) && InlinedHere(c.gates, ppa, [x, y], add)
    requires AreConstants(c.gates, pbin, ps) && |pbin| == size + 1 && Num(pbin) == p % Pow2(size + 1)
    requires TestsGe(ge, size + 1) && InlinedHere(c.gates, ge, [add, ps], comp)
    requires Subtracts(subc, size + 1, p) && InlinedHere(c.gates, subc, [add], sub)
    requires Selects(mux, size) && |add| == |sub| == size + 1 && |comp| == 1
    requires InlinedHere(c.gates, mux, [Repeat(comp[0], size), sub[..size], add[..size]], out)
    requires c.outputGateIds == out && |out| == size
    ensures ModAdds(c, size, p)
  {
    hide BuilderForm, Num, Pow2, Val, InlinedHere, IsGroup, TestsGe, Subtracts, Selects, Adds, AreConstants, ModAdd;
    forall inputs: seq<seq<bool>> | TwoWords(inputs, size)
      ensures ModAddsAt(c, size, p, inputs)
    {
      ModAddParts(c.gates, size, p, inputs, x, y, ppa, add, pbin, ps, ge, comp, subc, sub);
      ModAddChoice(c.gates, size, inputs, comp[0], sub, add, mux, out);
      NumBound(Vals(c.gates, inputs, add));
      ModAddFinish(size, p, Num(inputs[0]), Num(inputs[1]), Val(c.gates, inputs, comp[0]),
                   Num(Vals(c.gates, inputs, sub)), Num(Output(c, inputs)));
    }
  }

  lemma ModAddFinish(size: nat, p: nat, x: nat, y: nat, ge: bool, sub: nat, out: nat)
    requires x + y < Pow2(size + 1) && ge == (x + y >= p % Pow2(size + 1))
    requires sub == (x + y + Pow2(size + 1) - p % Pow2(size + 1)) % Pow2(size + 1)
    requires out == (if ge then sub else x + y) % Pow2(size)
    ensures out == ModAdd(size, p, x, y)
  {
    hide Pow2;
    if ge {
      SubtractNoWrap(x + y, Pow2(size + 1), p % Pow2(size + 1));
    }
  }

  method BuildModAddCircuit(size: nat, primeBytesLe: seq<U8>) returns (c: BinaryCircuit)
    requires 0 < size && size + 1 < 0x1_0000
    ensures Shape(c, [size, size]) && |c.outputGateIds| == size
    ensures ModAdds(c, size, LeNum(primeBytesLe))
  {
    hide BuilderForm, Adds, TestsGe, Subtracts, Selects, ModAdds, InlinedHere, Num, IsGroup, AreConstants;
    var b := new CircuitBuilder();
    var pbin := ModulusBits(size, primeBytesLe);
    var ps, x, y := ModAddWires(b, size, pbin);
    ghost var b0 := b.gates;
    var addCircuit := BuildPpaCircuit(size);
    var add := Inline(b, addCircuit, [x, y], [size, size]);
    ghost var b1 := b.gates;
    var compCirc := BuildCompareGeCircuit(size + 1);
    var comp := Inline(b, compCirc, [add, ps], [size + 1, size + 1]);
    ghost var b2 := b.gates;
    var subCirc := BuildSubtractOrderCircuit(size + 1, primeBytesLe);
    var sub := Inline(b, subCirc, [add], [size + 1]);
    ghost var b3 := b.gates;
    var comps := Repeat(comp[0], size);
    var ifthenelse := BuildIfThenElseCircuit(size);
    var out := Inline(b, ifthenelse, [comps, sub[..size], add[..size]], [size, size, size]);
    InlinedStable(b1, b.gates, addCircuit, [x, y], add);
    InlinedStable(b2, b.gates, compCirc, [add, ps], comp);
    InlinedStable(b3, b.gates, subCirc, [add], sub);
    ModAddGroups(b0, b.gates, x, y, pbin, ps);
    b.MarkOutputs(out);
    c := b.Finish();
    ModAddOutputs(c, size, LeNum(primeBytesLe), x, y, addCircuit, add, pbin, ps, compCirc, comp, subCirc, sub, ifthenelse, out);
  }

  /** The modulus constants, then the two input words. */
  method ModAddWires(b: CircuitBuilder, size: nat, pbin: seq<bool>) returns (ps: seq<nat>, x: seq<nat>, y: seq<nat>)
    requires b.Valid() && b.inputGateIds == [] && b.outputGateIds == []
    modifies b
    ensures Shape(b.Circuit(), [size, size]) && b.outputGateIds == []
    ensures |x| == |y| == size && |ps| == |pbin| && Below(ps, |b.gates|) && Below(x, |b.gates|) && Below(y, |b.gates|)
    ensures IsGroup(b.gates, x, 0) && IsGroup(b.gates, y, 1) && AreConstants(b.gates, pbin, ps)
  {
    hide BuilderForm;
    ps := ConstantWires(b, pbin);
    x := b.NewInputs(size);
    y := b.NewInputs(size);
  }

  lemma ModAddGroups(g1: seq<Gate>, g2: seq<Gate>, x: seq<nat>, y: seq<nat>, pbin: seq<bool>, ps: seq<nat>)
    requires Extends(g1, g2) && IsGroup(g1, x, 0) && IsGroup(g1, y, 1) && AreConstants(g1, pbin, ps)
    ensures IsGroup(g2, x, 0) && IsGroup(g2, y, 1) && AreConstants(g2, pbin, ps)
  {
  }

  method ModulusBits(size: nat, primeBytesLe: seq<U8>) returns (pbin: seq<bool>)
    ensures |pbin| == size + 1 && Num(pbin) == LeNum(primeBytesLe) % Pow2(size + 1)
  {
    pbin := BytesToBitsLe(primeBytesLe);
    ResizeNum(pbin, size + 1);
    pbin := Resize(pbin, size + 1);
  }
}
