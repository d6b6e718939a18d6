/** The share-checking circuits: `crates/zcash/src/zcash.rs` and the verification circuits of
    `crates/hd-migration/src/circuits.rs`. The modulus bytes and the PRF circuits are parameters. */
module ImportCircuit {
  import opened Circuits
  import opened Builder
  import opened Numbers
  import opened Gadgets
  import opened Arithmetic
  import opened ModularAdder

  const SHARE_BITS: nat := 256

  /** Three replicated shares: the `next` words of parties 1, 2, 3, then their `prev` words. */
  predicate SharingInputs(inputs: seq<seq<bool>>) {
    Words(inputs, 6, SHARE_BITS)
  }

  /** Each party's `next` word is the following party's `prev` word. */
  predicate CyclicMatch(inputs: seq<seq<bool>>)
    requires SharingInputs(inputs)
  {
    inputs[0] == inputs[4] && inputs[1] == inputs[5] && inputs[2] == inputs[3]
  }

  /** The three `next` words added by two modular adders. */
  function ShareSum(p: nat, inputs: seq<seq<bool>>): nat
    requires SharingInputs(inputs)
  {
    ModAdd(SHARE_BITS, p, ModAdd(SHARE_BITS, p, Num(inputs[0]), Num(inputs[1])), Num(inputs[2]))
  }

  /** For reduced shares and a modulus of at most 256 bits this is the sum of the shares. */
  lemma ShareSumReduced(p: nat, inputs: seq<seq<bool>>)
    requires SharingInputs(inputs) && p <= Pow2(SHARE_BITS)
    requires Num(inputs[0]) < p && Num(inputs[1]) < p && Num(inputs[2]) < p
    ensures ShareSum(p, inputs) == (Num(inputs[0]) + Num(inputs[1]) + Num(inputs[2])) % p
  {
    hide Num, Pow2, ModAdd;
    var x, y, z := Num(inputs[0]), Num(inputs[1]), Num(inputs[2]);
    ModAddReduced(SHARE_BITS, p, x, y);
    ModAddReduced(SHARE_BITS, p, (x + y) % p, z);
    ModPlus(x + y, z, p);
  }

  lemma ModPlus(a: nat, b: nat, p: nat)
    requires p > 0
    ensures (a % p + b) % p == (a + b) % p
  {
    var k := DivMod(a, p);
    var j := DivMod(a % p + b, p);
    MulDistrib(p, k, j);
    ModUnique(a + b, p, k + j, (a % p + b) % p);
  }

  function ToBits(n: nat, len: nat): (r: seq<bool>)
    ensures |r| == len
  {
    if len == 0 then [] else [n % 2 == 1] + ToBits(n / 2, len - 1)
  }

  lemma {:induction false} ToBitsNum(bits: seq<bool>)
    ensures ToBits(Num(bits), |bits|) == bits
  {
    if bits != [] {
      ToBitsNum(bits[1..]);
      assert Num(bits) / 2 == Num(bits[1..]);
    }
  }

  // ----- the pieces on a builder -----

  predicate SixGroups(gates: seq<Gate>, g: seq<seq<nat>>) {
    |g| == 6 && forall n | 0 <= n < 6 :: |g[n]| == SHARE_BITS && IsGroup(gates, g[n], n)
  }

  lemma SixGroupsStable(g1: seq<Gate>, g2: seq<Gate>, g: seq<seq<nat>>)
    requires Extends(g1, g2) && SixGroups(g1, g)
    ensures SixGroups(g2, g)
  {
  }

  lemma SixGroupsBelow(gates: seq<Gate>, g: seq<seq<nat>>)
    requires SixGroups(gates, g)
    ensures IdsBelow(g, |gates|)
  {
    assert forall k | 0 <= k < |g| :: IsGroup(gates, g[k], k);
  }

  lemma PairOnInputs(gates: seq<Gate>, g: seq<seq<nat>>, c: BinaryCircuit, i: nat, j: nat, outs: seq<nat>,
                     inputs: seq<seq<bool>>)
    requires SixGroups(gates, g) && i < 6 && j < 6 && SharingInputs(inputs)
    requires InlinedHere(gates, c, [g[i], g[j]], outs)
    ensures FitsGroups(c, [inputs[i], inputs[j]]) && Vals(gates, inputs, outs) == Output(c, [inputs[i], inputs[j]])
  {
    hide BuilderForm;
    GroupValues(gates, g[i], i, inputs);
    GroupValues(gates, g[j], j, inputs);
    assert Groups(gates, inputs, [g[i], g[j]]) == [inputs[i], inputs[j]];
    Inlined(gates, c, [g[i], g[j]], outs, inputs);
  }

  predicate CyclicAt(gates: seq<Gate>, o: nat, inputs: seq<seq<bool>>)
    requires SharingInputs(inputs)
  {
    Val(gates, inputs, o) == CyclicMatch(inputs)
  }

  /** Wire `o` tells whether the sharing is cyclically consistent. */
  ghost predicate CyclicWire(gates: seq<Gate>, o: nat) {
    forall inputs: seq<seq<bool>> | SharingInputs(inputs) :: CyclicAt(gates, o, inputs)
  }

  lemma CyclicStable(g1: seq<Gate>, g2: seq<Gate>, o: nat)
    requires Extends(g1, g2) && o < |g1| && CyclicWire(g1, o)
    ensures CyclicWire(g2, o)
  {
    forall inputs: seq<seq<bool>> | SharingInputs(inputs)
      ensures CyclicAt(g2, o, inputs)
    {
      assert CyclicAt(g1, o, inputs);
      ValStable(g1, g2, inputs, o);
    }
  }

  lemma CyclicFromPairs(gates: seq<Gate>, g: seq<seq<nat>>, eq: BinaryCircuit, op1: seq<nat>, op2: seq<nat>, op3: seq<nat>,
                        temp: nat, o: nat)
    requires SixGroups(gates, g) && TestsEqual(eq, SHARE_BITS) && |op1| == |op2| == |op3| == 1
    requires InlinedHere(gates, eq, [g[0], g[4]], op1) && InlinedHere(gates, eq, [g[1], g[5]], op2)
    requires InlinedHere(gates, eq, [g[2], g[3]], op3)
    requires IsAnd(gates, op1[0], op2[0], temp) && IsAnd(gates, temp, op3[0], o)
    ensures CyclicWire(gates, o)
  {
    hide BuilderForm, InlinedHere;
    forall inputs: seq<seq<bool>> | SharingInputs(inputs)
      ensures CyclicAt(gates, o, inputs)
    {
      EqualPair(gates, g, eq, 0, 4, op1, inputs);
      EqualPair(gates, g, eq, 1, 5, op2, inputs);
      EqualPair(gates, g, eq, 2, 3, op3, inputs);
      assert Val(gates, inputs, temp) == (Val(gates, inputs, op1[0]) && Val(gates, inputs, op2[0]));
    }
  }

  lemma EqualPair(gates: seq<Gate>, g: seq<seq<nat>>, eq: BinaryCircuit, i: nat, j: nat, op: seq<nat>, inputs: seq<seq<bool>>)
    requires SixGroups(gates, g) && i < 6 && j < 6 && SharingInputs(inputs) && |op| == 1
    requires TestsEqual(eq, SHARE_BITS) && InlinedHere(gates, eq, [g[i], g[j]], op)
    ensures Val(gates, inputs, op[0]) == (inputs[i] == inputs[j])
  {
    hide BuilderForm, InlinedHere, SixGroups;
    PairOnInputs(gates, g, eq, i, j, op, inputs);
    assert EqAt(eq, [inputs[i], inputs[j]]);
    assert Vals(gates, inputs, op)[0] == Val(gates, inputs, op[0]);
  }

  method AndThree(b: CircuitBuilder, x: nat, y: nat, z: nat) returns (temp: nat, o: nat)
    requires b.Valid() && x < |b.gates| && y < |b.gates| && z < |b.gates|
    modifies b
    ensures b.Valid() && Extends(old(b.gates), b.gates) && o < |b.gates|
    ensures b.inputGateIds == old(b.inputGateIds) && b.outputGateIds == old(b.outputGateIds)
    ensures IsAnd(b.gates, x, y, temp) && IsAnd(b.gates, temp, z, o)
  {
    hide BuilderForm;
    temp := b.And(x, y);
    o := b.And(temp, z);
  }

  method CheckCyclic(b: CircuitBuilder, g: seq<seq<nat>>) returns (o: nat)
    requires b.Valid() && |g| == 6 && SixGroups(b.gates, g)
    modifies b
    ensures b.Valid() && Extends(old(b.gates), b.gates) && o < |b.gates|
    ensures b.inputGateIds == old(b.inputGateIds) && b.outputGateIds == old(b.outputGateIds)
    ensures SixGroups(b.gates, g) && CyclicWire(b.gates, o)
  {
    hide BuilderForm, InlinedHere, SixGroups, TestsEqual, IsAnd, CyclicWire;
    ghost var b0 := b.gates;
    var eq := BuildCompareEqCircuit(SHARE_BITS);
    var op1 := ComparePair(b, eq, g, 0, 4);
    ghost var b1 := b.gates;
    SixGroupsStable(b0, b1, g);
    var op2 := ComparePair(b, eq, g, 1, 5);
    ghost var b2 := b.gates;
    SixGroupsStable(b1, b2, g);
    var op3 := ComparePair(b, eq, g, 2, 3);
    ghost var b3 := b.gates;
    var temp;
    temp, o := AndThree(b, op1[0], op2[0], op3[0]);
    InlinedStable(b1, b.gates, eq, [g[0], g[4]], op1);
    InlinedStable(b2, b.gates, eq, [g[1], g[5]], op2);
    InlinedStable(b3, b.gates, eq, [g[2], g[3]], op3);
    SixGroupsStable(b2, b.gates, g);
    CyclicFromPairs(b.gates, g, eq, op1, op2, op3, temp, o);
  }

  method ComparePair(b: CircuitBuilder, eq: BinaryCircuit, g: seq<seq<nat>>, i: nat, j: nat) returns (op: seq<nat>)
    requires b.Valid() && SixGroups(b.gates, g) && i < 6 && j < 6
    requires Shape(eq, [SHARE_BITS, SHARE_BITS]) && |eq.outputGateIds| == 1
    modifies b
    ensures b.Valid() && Extends(old(b.gates), b.gates)
    ensures b.inputGateIds == old(b.inputGateIds) && b.outputGateIds == old(b.outputGateIds)
    ensures |op| == 1 && op[0] < |b.gates| && InlinedHere(b.gates, eq, [g[i], g[j]], op)
  {
    SixGroupsBelow(b.gates, g);
    assert |g[i]| == |g[j]| == SHARE_BITS;
    hide BuilderForm, InlinedHere, SixGroups;
    op := Inline(b, eq, [g[i], g[j]], [SHARE_BITS, SHARE_BITS]);
  }

  predicate SumAt(gates: seq<Gate>, ids: seq<nat>, p: nat, inputs: seq<seq<bool>>)
    requires SharingInputs(inputs)
  {
    Num(Vals(gates, inputs, ids)) == ShareSum(p, inputs)
  }

  /** The wires `ids` carry the sum of the three shares. */
  ghost predicate SumWires(gates: seq<Gate>, ids: seq<nat>, p: nat) {
    |ids| == SHARE_BITS && forall inputs: seq<seq<bool>> | SharingInputs(inputs) :: SumAt(gates, ids, p, inputs)
  }

  lemma SumFromAdders(gates: seq<Gate>, g: seq<seq<nat>>, p: nat, add: BinaryCircuit, temp: seq<nat>, ids: seq<nat>)
    requires SixGroups(gates, g) && ModAdds(add, SHARE_BITS, p) && |temp| == |ids| == SHARE_BITS
    requires InlinedHere(gates, add, [g[0], g[1]], temp) && InlinedHere(gates, add, [temp, g[2]], ids)
    ensures SumWires(gates, ids, p)
  {
    hide BuilderForm, InlinedHere, Num, ModAdd, IsGroup;
    forall inputs: seq<seq<bool>> | SharingInputs(inputs)
      ensures SumAt(gates, ids, p, inputs)
    {
      PairOnInputs(gates, g, add, 0, 1, temp, inputs);
      assert ModAddsAt(add, SHARE_BITS, p, [inputs[0], inputs[1]]);
      GroupValues(gates, g[2], 2, inputs);
      Inlined(gates, add, [temp, g[2]], ids, inputs);
      var t := Vals(gates, inputs, temp);
      assert Groups(gates, inputs, [temp, g[2]]) == [t, inputs[2]];
      assert ModAddsAt(add, SHARE_BITS, p, [t, inputs[2]]);
    }
  }

  method SumShares(b: CircuitBuilder, g: seq<seq<nat>>, primeBytesLe: seq<U8>) returns (ids: seq<nat>)
    requires b.Valid() && SixGroups(b.gates, g)
    modifies b
    ensures b.Valid() && Extends(old(b.gates), b.gates) && |ids| == SHARE_BITS && Below(ids, |b.gates|)
    ensures b.inputGateIds == old(b.inputGateIds) && b.outputGateIds == old(b.outputGateIds)
    ensures SixGroups(b.gates, g) && SumWires(b.gates, ids, LeNum(primeBytesLe))
  {
    SixGroupsBelow(b.gates, g);
    assert forall n | 0 <= n < 6 :: |g[n]| == SHARE_BITS;
    hide BuilderForm, InlinedHere, SixGroups, ModAdds, SumWires, LeNum;
    ghost var b0 := b.gates;
    var circ := BuildModAddCircuit(SHARE_BITS, primeBytesLe);
    var temp := Inline(b, circ, [g[0], g[1]], [SHARE_BITS, SHARE_BITS]);
    ghost var b1 := b.gates;
    ids := Inline(b, circ, [temp, g[2]], [SHARE_BITS, SHARE_BITS]);
    InlinedStable(b1, b.gates, circ, [g[0], g[1]], temp);
    SixGroupsStable(b0, b.gates, g);
    SumFromAdders(b.gates, g, LeNum(primeBytesLe), circ, temp, ids);
  }

  lemma SumStable(g1: seq<Gate>, g2: seq<Gate>, ids: seq<nat>, p: nat)
    requires Extends(g1, g2) && Below(ids, |g1|) && SumWires(g1, ids, p)
    ensures SumWires(g2, ids, p)
  {
    hide Num;
    forall inputs: seq<seq<bool>> | SharingInputs(inputs)
      ensures SumAt(g2, ids, p, inputs)
    {
      assert SumAt(g1, ids, p, inputs);
      ValsStable(g1, g2, inputs, ids);
    }
  }

  ghost predicate SixShapes(c: BinaryCircuit) {
    Shape(c, [SHARE_BITS, SHARE_BITS, SHARE_BITS, SHARE_BITS, SHARE_BITS, SHARE_BITS])
  }

  method ShareInputs(b: CircuitBuilder) returns (g: seq<seq<nat>>)
    requires b.Valid() && b.inputGateIds == [] && b.outputGateIds == []
    modifies b
    ensures b.Valid() && SixShapes(b.Circuit()) && b.outputGateIds == []
    ensures |g| == 6 && SixGroups(b.gates, g)
  {
    hide BuilderForm;
    g := [];
    for n := 0 to 6
      invariant b.Valid() && b.outputGateIds == [] && |b.inputGateIds| == n
      invariant forall k | 0 <= k < n :: |b.inputGateIds[k]| == SHARE_BITS
      invariant |g| == n && forall k | 0 <= k < n :: |g[k]| == SHARE_BITS && IsGroup(b.gates, g[k], k)
    {
      var ids := b.NewInputs(SHARE_BITS);
      g := g + [ids];
    }
  }

  // ----- the circuits -----

  predicate VerifiesAt(c: BinaryCircuit, inputs: seq<seq<bool>>)
    requires SharingInputs(inputs)
  {
    Output(c, inputs) == [CyclicMatch(inputs)]
  }

  /** `build_verify_sharings_circuit`: the one output is cyclic consistency. */
  method BuildVerifySharingsCircuit() returns (c: BinaryCircuit)
    ensures SixShapes(c)
    ensures forall inputs: seq<seq<bool>> | SharingInputs(inputs) :: VerifiesAt(c, inputs)
  {
    hide BuilderForm, SixGroups, CyclicWire;
    var b := new CircuitBuilder();
    var g := ShareInputs(b);
    var o := CheckCyclic(b, g);
    b.MarkOutput(o);
    c := b.Finish();
    VerifiesFromWire(c, o);
  }

  lemma VerifiesFromWire(c: BinaryCircuit, o: nat)
    requires CyclicWire(c.gates, o) && c.outputGateIds == [o]
    ensures forall inputs: seq<seq<bool>> | SharingInputs(inputs) :: VerifiesAt(c, inputs)
  {
    forall inputs: seq<seq<bool>> | SharingInputs(inputs)
      ensures VerifiesAt(c, inputs)
    {
      assert CyclicAt(c.gates, o, inputs);
      assert Output(c, inputs)[0] == Val(c.gates, inputs, o);
    }
  }

  predicate VerifiesAndSumsAt(c: BinaryCircuit, p: nat, inputs: seq<seq<bool>>)
    requires SharingInputs(inputs)
  {
    Output(c, inputs) == [CyclicMatch(inputs)] + ToBits(ShareSum(p, inputs), SHARE_BITS)
  }

  /** `build_scalar_rss_to_y_verification_circuit`: consistency, then the shared scalar. */
  method BuildScalarRssToYVerificationCircuit(primeBytesLe: seq<U8>) returns (c: BinaryCircuit)
    ensures SixShapes(c)
    ensures forall inputs: seq<seq<bool>> | SharingInputs(inputs) :: VerifiesAndSumsAt(c, LeNum(primeBytesLe), inputs)
  {
    hide BuilderForm, SixGroups, CyclicWire, SumWires, LeNum;
    var b := new CircuitBuilder();
    var g := ShareInputs(b);
    var o := CheckCyclic(b, g);
    ghost var b1 := b.gates;
    var ids := SumShares(b, g, primeBytesLe);
    CyclicStable(b1, b.gates, o);
    b.MarkOutput(o);
    b.MarkOutputs(ids);
    c := b.Finish();
    VerifiesAndSums(c, o, ids, LeNum(primeBytesLe));
  }

  lemma VerifiesAndSums(c: BinaryCircuit, o: nat, ids: seq<nat>, p: nat)
    requires CyclicWire(c.gates, o) && SumWires(c.gates, ids, p) && c.outputGateIds == [o] + ids
    ensures forall inputs: seq<seq<bool>> | SharingInputs(inputs) :: VerifiesAndSumsAt(c, p, inputs)
  {
    hide Num, ToBits;
    forall inputs: seq<seq<bool>> | SharingInputs(inputs)
      ensures VerifiesAndSumsAt(c, p, inputs)
    {
      assert CyclicAt(c.gates, o, inputs) && SumAt(c.gates, ids, p, inputs);
      ToBitsNum(Vals(c.gates, inputs, ids));
      assert Output(c, inputs) == [Val(c.gates, inputs, o)] + Vals(c.gates, inputs, ids);
    }
  }

  /** What the embedded PRF circuits make of one scalar, output after output. */
  function PrfOutputs(prfs: seq<BinaryCircuit>, word: seq<bool>): (r: seq<bool>) {
    if prfs == [] then []
    else PrfOutputs(prfs[..|prfs| - 1], word) + Output(prfs[|prfs| - 1], [word])
  }

  predicate ExpandsAt(c: BinaryCircuit, prfs: seq<BinaryCircuit>, word: seq<bool>) {
    Output(c, [word]) == PrfOutputs(prfs, word)
  }

  ghost predicate Expands(c: BinaryCircuit, prfs: seq<BinaryCircuit>) {
    Shape(c, [SHARE_BITS]) && forall word: seq<bool> | |word| == SHARE_BITS :: ExpandsAt(c, prfs, word)
  }

  predicate PrfWiresAt(gates: seq<Gate>, outs: seq<nat>, prfs: seq<BinaryCircuit>, word: seq<bool>) {
    Vals(gates, [word], outs) == PrfOutputs(prfs, word)
  }

  ghost predicate PrfWires(gates: seq<Gate>, outs: seq<nat>, prfs: seq<BinaryCircuit>) {
    forall word: seq<bool> | |word| == SHARE_BITS :: PrfWiresAt(gates, outs, prfs, word)
  }

  lemma PrfWiresStep(g1: seq<Gate>, g2: seq<Gate>, sk: seq<nat>, outs: seq<nat>, prfs: seq<BinaryCircuit>, k: nat, more: seq<nat>)
    requires k < |prfs| && Shape(prfs[k], [SHARE_BITS]) && |sk| == SHARE_BITS && IsGroup(g2, sk, 0)
    requires Extends(g1, g2) && Below(outs, |g1|) && PrfWires(g1, outs, prfs[..k])
    requires InlinedHere(g2, prfs[k], [sk], more)
    ensures PrfWires(g2, outs + more, prfs[..k + 1])
  {
    hide BuilderForm, InlinedHere;
    var outs', prfs' := outs + more, prfs[..k + 1];
    forall word: seq<bool> | |word| == SHARE_BITS
      ensures PrfWiresAt(g2, outs', prfs', word)
    {
      assert PrfWiresAt(g1, outs, prfs[..k], word);
      ValsStable(g1, g2, [word], outs);
      GroupValues(g2, sk, 0, [word]);
      assert Groups(g2, [word], [sk]) == [word];
      Inlined(g2, prfs[k], [sk], more, [word]);
      assert prfs'[..k] == prfs[..k];
      assert Vals(g2, [word], outs') == Vals(g2, [word], outs) + Vals(g2, [word], more);
    }
  }

  /** `build_zcash_blake2b_circuit`: the PRF circuits side by side on one scalar. */
  method BuildZcashBlake2bCircuit(prfs: seq<BinaryCircuit>) returns (c: BinaryCircuit)
    requires forall k | 0 <= k < |prfs| :: Shape(prfs[k], [SHARE_BITS])
    ensures Shape(c, [SHARE_BITS]) && Expands(c, prfs)
  {
    hide BuilderForm, InlinedHere, PrfWires;
    var b := new CircuitBuilder();
    var sk := b.NewInputs(SHARE_BITS);
    PrfWiresNone(b.gates);
    assert prfs[..0] == [];
    for k := 0 to |prfs|
      invariant b.Valid() && Shape(b.Circuit(), [SHARE_BITS]) && IsGroup(b.gates, sk, 0)
      invariant Below(b.outputGateIds, |b.gates|) && PrfWires(b.gates, b.outputGateIds, prfs[..k])
    {
      ghost var before := b.gates;
      var hashIds := Inline(b, prfs[k], [sk], [SHARE_BITS]);
      PrfWiresStep(before, b.gates, sk, b.outputGateIds, prfs, k, hashIds);
      b.MarkOutputs(hashIds);
    }
    assert prfs[..|prfs|] == prfs;
    c := b.Finish();
    ExpandsFromWires(c, prfs);
  }

  lemma PrfWiresNone(gates: seq<Gate>)
    ensures PrfWires(gates, [], [])
  {
    forall word: seq<bool> | |word| == SHARE_BITS
      ensures PrfWiresAt(gates, [], [], word)
    {
      assert Vals(gates, [word], []) == [];
    }
  }

  lemma ExpandsFromWires(c: BinaryCircuit, prfs: seq<BinaryCircuit>)
    requires Shape(c, [SHARE_BITS]) && PrfWires(c.gates, c.outputGateIds, prfs)
    ensures Expands(c, prfs)
  {
    hide BuilderForm;
    forall word: seq<bool> | |word| == SHARE_BITS
      ensures ExpandsAt(c, prfs, word)
    {
      assert PrfWiresAt(c.gates, c.outputGateIds, prfs, word);
    }
  }

  predicate ImportsAt(c: BinaryCircuit, p: nat, prfs: seq<BinaryCircuit>, inputs: seq<seq<bool>>)
    requires SharingInputs(inputs)
  {
    Output(c, inputs) == [CyclicMatch(inputs)] + PrfOutputs(prfs, ToBits(ShareSum(p, inputs), SHARE_BITS))
  }

  /** Output 0 is cyclic consistency; the rest is the PRF applied to the shared scalar. */
  ghost predicate Imports(c: BinaryCircuit, p: nat, prfs: seq<BinaryCircuit>) {
    SixShapes(c) && forall inputs: seq<seq<bool>> | SharingInputs(inputs) :: ImportsAt(c, p, prfs, inputs)
  }

  /** `build_zcash_import_function` */
  method BuildZcashImportFunction(primeBytesLe: seq<U8>, prfs: seq<BinaryCircuit>) returns (c: BinaryCircuit)
    requires forall k | 0 <= k < |prfs| :: Shape(prfs[k], [SHARE_BITS])
    ensures Imports(c, LeNum(primeBytesLe), prfs)
  {
    hide BuilderForm, SixGroups, CyclicWire, SumWires, LeNum, InlinedHere, Expands, Imports;
    var b := new CircuitBuilder();
    var g := ShareInputs(b);
    var output := CheckCyclic(b, g);
    ghost var b1 := b.gates;
    var res3Ids := SumShares(b, g, primeBytesLe);
    ghost var b2 := b.gates;
    var zcash := BuildZcashBlake2bCircuit(prfs);
    var op := Inline(b, zcash, [res3Ids], [SHARE_BITS]);
    CyclicStable(b1, b.gates, output);
    SumStable(b2, b.gates, res3Ids, LeNum(primeBytesLe));
    b.MarkOutput(output);
    b.MarkOutputs(op);
    c := b.Finish();
    ImportOutputs(c, LeNum(primeBytesLe), prfs, output, res3Ids, zcash, op);
  }

  lemma ImportOutputs(c: BinaryCircuit, p: nat, prfs: seq<BinaryCircuit>, o: nat, ids: seq<nat>, zcash: BinaryCircuit, op: seq<nat>)
    requires SixShapes(c) && CyclicWire(c.gates, o) && SumWires(c.gates, ids, p)
    requires Expands(zcash, prfs) && InlinedHere(c.gates, zcash, [ids], op) && c.outputGateIds == [o] + op
    ensures Imports(c, p, prfs)
  {
    hide BuilderForm, InlinedHere, Num, ToBits, PrfOutputs, CyclicMatch, ShareSum, Val;
    forall inputs: seq<seq<bool>> | SharingInputs(inputs)
      ensures ImportsAt(c, p, prfs, inputs)
    {
      assert CyclicAt(c.gates, o, inputs) && SumAt(c.gates, ids, p, inputs);
      var word := Vals(c.gates, inputs, ids);
      ToBitsNum(word);
      Inlined(c.gates, zcash, [ids], op, inputs);
      assert Groups(c.gates, inputs, [ids]) == [word];
      assert ExpandsAt(zcash, prfs, word);
      assert Output(c, inputs) == [Val(c.gates, inputs, o)] + Vals(c.gates, inputs, op);
    }
  }
}
