/** The two readings of one Bristol text agree: the library's parser on the one hand, the build
    script's parser, encoder and the library's decoder on the other. */
module Codec {
  import opened Wrappers
  import opened Blocks
  import opened Circuits
  import opened Bristol
  import opened LabelPrfs
  import opened Compact

  // ----- reading back what was written -----

  /** The bytes continue with `chunk` at `pos`. */
  predicate Holds(bytes: seq<Byte>, pos: nat, chunk: seq<Byte>) {
    pos + |chunk| <= |bytes| && bytes[pos..pos + |chunk|] == chunk
  }

  lemma HoldsParts(bytes: seq<Byte>, pos: nat, a: seq<Byte>, b: seq<Byte>)
    requires Holds(bytes, pos, a + b)
    ensures Holds(bytes, pos, a) && Holds(bytes, pos + |a|, b)
  {
    var all := bytes[pos..pos + |a + b|];
    assert all[..|a|] == a && all[|a|..] == b;
    assert bytes[pos..pos + |a|] == all[..|a|];
    assert bytes[pos + |a|..pos + |a| + |b|] == all[|a|..];
  }

  lemma ReadBack(bytes: seq<Byte>, pos: nat, v: nat, k: nat)
    requires Holds(bytes, pos, Le(v, k)) && v < LeLimit(k)
    ensures ReadLe(bytes, pos, k) == Some((v, pos + k))
  {
    LeRoundTrip(v, k);
  }

  lemma {:induction false} NumbersBack(bytes: seq<Byte>, pos: nat, vs: seq<nat>, width: nat)
    requires Holds(bytes, pos, NumberBytes(vs, width)) && forall i | 0 <= i < |vs| :: vs[i] < LeLimit(width)
    ensures ReadNumbers(bytes, pos, width, |vs|) == Some((vs, pos + |NumberBytes(vs, width)|))
  {
    hide ReadLe, Le, Holds, LeLimit;
    if vs != [] {
      var n := |vs| - 1;
      HoldsParts(bytes, pos, NumberBytes(vs[..n], width), Le(vs[n], width));
      NumbersBack(bytes, pos, vs[..n], width);
      ReadBack(bytes, pos + |NumberBytes(vs[..n], width)|, vs[n], width);
      assert vs == vs[..n] + [vs[n]];
    }
  }

  /** The fields of the gate fit the format. */
  predicate GateEncodable(g: CompactGate) {
    WiresUpTo(g, MAX_COMPACT_WIRE) && (g.CompactInput? ==> g.no < U32_LIMIT)
  }

  lemma GateBack(bytes: seq<Byte>, pos: nat, g: CompactGate)
    requires Holds(bytes, pos, GateBytes(g)) && GateEncodable(g)
    ensures ReadGate(bytes, pos) == Some((g, pos + |GateBytes(g)|))
  {
    hide ReadLe, Le, Holds, LeLimit;
    LeLimits();
    match g {
      case CompactInput(no, wire) =>
        HoldsParts(bytes, pos, Le(TAG_INPUT, 1) + Le(no, 4), Le(wire, 3));
        HoldsParts(bytes, pos, Le(TAG_INPUT, 1), Le(no, 4));
        ReadBack(bytes, pos, TAG_INPUT, 1);
        ReadBack(bytes, pos + 1, no, 4);
        ReadBack(bytes, pos + 5, wire, 3);
      case CompactConst(val, wire) =>
        var tag := if val then TAG_CONST_TRUE else TAG_CONST_FALSE;
        HoldsParts(bytes, pos, Le(tag, 1), Le(wire, 3));
        ReadBack(bytes, pos, tag, 1);
        ReadBack(bytes, pos + 1, wire, 3);
      case CompactXor(x, y, out) => ThreeBack(bytes, pos, TAG_XOR, x, y, out);
      case CompactAnd(x, y, out) => ThreeBack(bytes, pos, TAG_AND, x, y, out);
      case CompactInv(x, out) =>
        HoldsParts(bytes, pos, Le(TAG_INV, 1) + Le(x, 3), Le(out, 3));
        HoldsParts(bytes, pos, Le(TAG_INV, 1), Le(x, 3));
        ReadBack(bytes, pos, TAG_INV, 1);
        ReadBack(bytes, pos + 1, x, 3);
        ReadBack(bytes, pos + 4, out, 3);
    }
  }

  lemma ThreeBack(bytes: seq<Byte>, pos: nat, tag: nat, x: nat, y: nat, out: nat)
    requires tag < 256 && x <= MAX_COMPACT_WIRE && y <= MAX_COMPACT_WIRE && out <= MAX_COMPACT_WIRE
    requires Holds(bytes, pos, Le(tag, 1) + Le(x, 3) + Le(y, 3) + Le(out, 3))
    ensures ReadLe(bytes, pos, 1) == Some((tag, pos + 1)) && ReadPair(bytes, pos + 1) == Some((x, y, pos + 7))
    ensures ReadLe(bytes, pos + 7, 3) == Some((out, pos + 10))
  {
    hide ReadLe, Le, Holds, LeLimit;
    LeLimits();
    HoldsParts(bytes, pos, Le(tag, 1) + Le(x, 3) + Le(y, 3), Le(out, 3));
    HoldsParts(bytes, pos, Le(tag, 1) + Le(x, 3), Le(y, 3));
    HoldsParts(bytes, pos, Le(tag, 1), Le(x, 3));
    ReadBack(bytes, pos, tag, 1);
    ReadBack(bytes, pos + 1, x, 3);
    ReadBack(bytes, pos + 4, y, 3);
    ReadBack(bytes, pos + 7, out, 3);
  }

  // ----- the circuit that a list of compact gates stands for -----

  predicate GroupsBelow(gates: seq<CompactGate>, groups: nat) {
    forall i | 0 <= i < |gates| :: gates[i].CompactInput? ==> gates[i].no < groups
  }

  /** Input positions, AND ids and constant wires handed out in gate order. */
  function Number(gates: seq<CompactGate>, groups: nat): (r: Decoded)
    requires GroupsBelow(gates, groups)
    ensures |r.ids| == groups && |r.gates| == |gates|
  {
    if gates == [] then Fresh(groups)
    else AddGate(Number(gates[..|gates| - 1], groups), gates[|gates| - 1])
  }

  predicate AllFit(gates: seq<CompactGate>, numWires: nat, groups: nat) {
    forall i | 0 <= i < |gates| :: GateFits(gates[i], numWires, groups)
  }

  lemma {:induction false} GatesBack(bytes: seq<Byte>, pos: nat, gates: seq<CompactGate>, numWires: nat, groups: nat)
    requires Holds(bytes, pos, GatesBytes(gates))
    requires forall i | 0 <= i < |gates| :: GateEncodable(gates[i])
    ensures AllFit(gates, numWires, groups) ==>
      GroupsBelow(gates, groups) &&
      DecodeGates(bytes, pos, numWires, groups, |gates|) == Some((Number(gates, groups), pos + |GatesBytes(gates)|))
    ensures !AllFit(gates, numWires, groups) ==> DecodeGates(bytes, pos, numWires, groups, |gates|).None?
  {
    hide ReadGate, AddGate, GateBytes, GateEncodable, WiresUpTo, Holds;
    if gates == [] {
    } else {
      var n := |gates| - 1;
      var before := gates[..n];
      HoldsParts(bytes, pos, GatesBytes(before), GateBytes(gates[n]));
      GatesBack(bytes, pos, before, numWires, groups);
      GateBack(bytes, pos + |GatesBytes(before)|, gates[n]);
      assert gates == before + [gates[n]];
    }
  }

  /** Numbers that `u32` fields of the source can hold. */
  predicate U32Fields(c: BuildCircuit) {
    c.numWires < U32_LIMIT && |c.inputSizes| < U32_LIMIT && |c.outputGateIds| < U32_LIMIT && |c.gates| < U32_LIMIT &&
    (forall i | 0 <= i < |c.inputSizes| :: c.inputSizes[i] < U32_LIMIT) &&
    forall i | 0 <= i < |c.gates| :: c.gates[i].CompactInput? ==> c.gates[i].no < U32_LIMIT
  }

  /** What the decoder's assertions ask for: one gate per wire, and every reference in range. */
  predicate Consistent(c: BuildCircuit) {
    |c.gates| == c.numWires && AllFit(c.gates, c.numWires, |c.inputSizes|) && AllBelow(c.outputGateIds, c.numWires)
  }

  function CircuitOf(c: BuildCircuit): BinaryCircuit
    requires GroupsBelow(c.gates, |c.inputSizes|)
  {
    var s := Number(c.gates, |c.inputSizes|);
    BinaryCircuit(s.gates, |c.inputSizes|, s.ids, c.outputGateIds, s.falseWire, s.trueWire, s.ands, c.numWires)
  }

  lemma HeaderBack(c: BuildCircuit, bytes: seq<Byte>)
    requires U32Fields(c) && Holds(bytes, 0, HeaderBytes(c))
    ensures ReadHeader(bytes) == Some(CompactHeader(c.numWires, |c.inputSizes|, |c.outputGateIds|, |c.gates|, 24))
  {
    hide Le, LeLimit, ReadLe, NumberBytes;
    var counts := [c.numWires, |c.inputSizes|, |c.outputGateIds|, |c.gates|];
    var word := NumberBytes(counts, 4);
    LeLimits();
    CountBytes(counts[0], counts[1], counts[2], counts[3]);
    assert HeaderBytes(c) == MAGIC + Le(VERSION, 2) + Le(0, 2) + word;
    HoldsParts(bytes, 0, MAGIC + Le(VERSION, 2) + Le(0, 2), word);
    HoldsParts(bytes, 0, MAGIC + Le(VERSION, 2), Le(0, 2));
    HoldsParts(bytes, 0, MAGIC, Le(VERSION, 2));
    ReadBack(bytes, 4, VERSION, 2);
    NumbersBack(bytes, 8, counts, 4);
  }

  lemma CountBytes(a: nat, b: nat, c: nat, d: nat)
    ensures NumberBytes([a, b, c, d], 4) == Le(a, 4) + Le(b, 4) + Le(c, 4) + Le(d, 4)
    ensures |NumberBytes([a, b, c, d], 4)| == 16
  {
    assert [a, b, c, d][..3] == [a, b, c] && [a, b, c][..2] == [a, b] && [a, b][..1] == [a] && [a][..0] == [];
    assert NumberBytes([a], 4) == Le(a, 4);
    assert NumberBytes([a, b], 4) == Le(a, 4) + Le(b, 4);
    assert NumberBytes([a, b, c], 4) == Le(a, 4) + Le(b, 4) + Le(c, 4);
  }

  /** Decoding an encoded circuit succeeds exactly when the circuit is consistent, and gives it back
      with input positions and AND ids numbered in gate order. */
  lemma DecodeEncode(c: BuildCircuit)
    requires U32Fields(c) && WiresEncodable(c)
    ensures Consistent(c) ==> GroupsBelow(c.gates, |c.inputSizes|) && Decode(Encoding(c)) == Some(CircuitOf(c))
    ensures !Consistent(c) ==> Decode(Encoding(c)) == None
  {
    hide HeaderBytes, NumberBytes, GatesBytes, ReadHeader, ReadNumbers, DecodeGates, WiresUpTo, Number, GroupsBelow, AllFit,
         AllBelow, LeLimit, Holds;
    var bytes := Encoding(c);
    var head, sizes, outputs, gates :=
      HeaderBytes(c), NumberBytes(c.inputSizes, 4), NumberBytes(c.outputGateIds, 3), GatesBytes(c.gates);
    HoldsAll(bytes);
    HoldsParts(bytes, 0, head + sizes + outputs, gates);
    HoldsParts(bytes, 0, head + sizes, outputs);
    HoldsParts(bytes, 0, head, sizes);
    HeaderBack(c, bytes);
    HeaderLength(c);
    LeLimits();
    NumbersBack(bytes, 24, c.inputSizes, 4);
    NumbersBack(bytes, 24 + |sizes|, c.outputGateIds, 3);
    GatesBack(bytes, 24 + |sizes| + |outputs|, c.gates, c.numWires, |c.inputSizes|);
  }

  lemma HoldsAll(bytes: seq<Byte>)
    ensures Holds(bytes, 0, bytes)
  {
    assert bytes[0..|bytes|] == bytes;
  }

  lemma HeaderLength(c: BuildCircuit)
    ensures |HeaderBytes(c)| == 24
  {
  }

  // ----- the two parsers -----

  function Strip(g: Gate): CompactGate {
    match g
    case Input(no, _, wire) => CompactInput(no, wire)
    case Constant(val, wire) => CompactConst(val, wire)
    case Xor(x, y, out) => CompactXor(x, y, out)
    case And(x, y, _, out) => CompactAnd(x, y, out)
    case Inv(x, out) => CompactInv(x, out)
  }

  function StripAll(gates: seq<Gate>): seq<CompactGate> {
    seq(|gates|, i requires 0 <= i < |gates| => Strip(gates[i]))
  }

  /** Wherever the library's gate loop succeeds, so does the build script's, on the same gates, all
      of whose wires are in range. */
  lemma {:induction false} GateLoopsAgree(lines: seq<string>, numWires: nat, k: nat)
    requires ParseGates(lines, numWires, k).Ok?
    ensures var gates := ParseGates(lines, numWires, k).value.0;
            |gates| == k && BuildGates(lines, k) == Ok(StripAll(gates)) &&
            forall i | 0 <= i < k :: gates[i].InRange(numWires) && !gates[i].Input? && !gates[i].Constant?
  {
    hide ReadGateLine;
    if k > 0 {
      GateLoopsAgree(lines, numWires, k - 1);
      LineAgrees(lines, numWires, k - 1);
      var before, all := ParseGates(lines, numWires, k - 1).value.0, ParseGates(lines, numWires, k).value.0;
      assert all == before + [all[k - 1]];
      assert StripAll(all) == StripAll(before) + [Strip(all[k - 1])];
    } else {
      assert StripAll([]) == [];
    }
  }

  lemma LineAgrees(lines: seq<string>, numWires: nat, i: nat)
    requires Line(lines, i).Some? && LineInRange(Line(lines, i).value, numWires)
    ensures var g := Line(lines, i).value;
            forall ands: nat :: Strip(ToGate(g, ands)) == ToCompact(g) && ToGate(g, ands).InRange(numWires)
  {
    hide Word, KindOf, LineWords;
    var g := Line(lines, i).value;
    assert g.arity != 2 ==> g.in1 == 0;
  }

  lemma {:induction false} InputLoopsAgree(sizes: seq<nat>, k: nat)
    requires k <= |sizes| < U32_LIMIT && TotalSize(sizes) <= MAX_BRISTOL_WIRES
    ensures BuildInputs(sizes, k) == StripAll(InputGates(sizes, k))
  {
    hide TotalSize, BuildGroup, GroupGates, StripAll;
    if k == 0 {
      StripNothing();
    } else {
      InputLoopsAgree(sizes, k - 1);
      SumMonotone(sizes, k);
      SumStep(sizes, k - 1);
      var base := TotalSize(sizes[..k - 1]);
      GroupsAgree(k - 1, sizes[k - 1], base);
      StripConcat(InputGates(sizes, k - 1), GroupGates(k - 1, sizes[k - 1], base));
    }
  }

  lemma GroupsAgree(no: nat, width: nat, base: nat)
    requires no < U32_LIMIT && base + width <= U32_LIMIT
    ensures BuildGroup(no, width, base) == StripAll(GroupGates(no, width, base))
  {
  }

  lemma StripNothing()
    ensures StripAll([]) == []
  {
  }

  lemma StripConcat(a: seq<Gate>, b: seq<Gate>)
    ensures StripAll(a + b) == StripAll(a) + StripAll(b)
  {
  }

  // ----- numbering gives the library's circuit back -----

  /** The lists of input positions after the first `k` groups. */
  function IdsTo(sizes: seq<nat>, k: nat): seq<seq<nat>>
    requires k <= |sizes|
  {
    seq(|sizes|, i requires 0 <= i < |sizes| => if i < k then Range(0, sizes[i]) else [])
  }

  lemma {:induction false} NumberConcat(a: seq<CompactGate>, g: CompactGate, groups: nat)
    requires GroupsBelow(a + [g], groups)
    ensures GroupsBelow(a, groups) && (g.CompactInput? ==> g.no < groups)
    ensures Number(a + [g], groups) == AddGate(Number(a, groups), g)
  {
    forall i | 0 <= i < |a|
      ensures a[i].CompactInput? ==> a[i].no < groups
    {
      assert (a + [g])[i] == a[i];
    }
    assert (a + [g])[|a|] == g;
    assert (a + [g])[..|a|] == a;
  }

  lemma BelowSnoc(a: seq<CompactGate>, g: CompactGate, groups: nat)
    requires GroupsBelow(a, groups) && (g.CompactInput? ==> g.no < groups)
    ensures GroupsBelow(a + [g], groups)
  {
  }

  /** Adding the inputs of one group one by one. */
  lemma {:induction false} NumberGroup(done: seq<Gate>, sizes: seq<nat>, no: nat, width: nat, base: nat)
    requires no < |sizes| && width <= sizes[no] && GroupsBelow(StripAll(done), |sizes|)
    requires Number(StripAll(done), |sizes|) == Decoded(done, IdsTo(sizes, no), None, None, 0)
    ensures var gates := done + GroupGates(no, width, base);
            GroupsBelow(StripAll(gates), |sizes|) &&
            Number(StripAll(gates), |sizes|)
              == Decoded(gates, IdsTo(sizes, no)[no := Range(0, width)], None, None, 0)
  {
    hide GroupsBelow, Number;
    if width == 0 {
      assert done + GroupGates(no, 0, base) == done;
      assert IdsTo(sizes, no)[no := Range(0, 0)] == IdsTo(sizes, no);
    } else {
      var before := done + GroupGates(no, width - 1, base);
      var g := Input(no, width - 1, base + width - 1);
      NumberGroup(done, sizes, no, width - 1, base);
      assert done + GroupGates(no, width, base) == before + [g];
      assert StripAll(before + [g]) == StripAll(before) + [Strip(g)];
      BelowSnoc(StripAll(before), Strip(g), |sizes|);
      NumberConcat(StripAll(before), Strip(g), |sizes|);
      assert Range(0, width - 1) + [width - 1] == Range(0, width);
      var ids := IdsTo(sizes, no);
      assert ids[no := Range(0, width - 1)][no := Range(0, width)] == ids[no := Range(0, width)];
    }
  }

  lemma {:induction false} NumberInputs(sizes: seq<nat>, k: nat)
    requires k <= |sizes|
    ensures var gates := InputGates(sizes, k);
            GroupsBelow(StripAll(gates), |sizes|) &&
            Number(StripAll(gates), |sizes|) == Decoded(gates, IdsTo(sizes, k), None, None, 0)
  {
    hide TotalSize;
    if k == 0 {
      assert IdsTo(sizes, 0) == seq(|sizes|, _ => []);
      assert StripAll([]) == [];
    } else {
      NumberInputs(sizes, k - 1);
      NumberGroup(InputGates(sizes, k - 1), sizes, k - 1, sizes[k - 1], TotalSize(sizes[..k - 1]));
      assert IdsTo(sizes, k - 1)[k - 1 := Range(0, sizes[k - 1])] == IdsTo(sizes, k);
    }
  }

  /** AND ids are handed out in the order of the gate lines. */
  lemma {:induction false} NumberLines(lines: seq<string>, sizes: seq<nat>, numWires: nat, k: nat)
    requires ParseGates(lines, numWires, k).Ok?
    ensures var (gates, ands) := ParseGates(lines, numWires, k).value;
            var all := InputGates(sizes, |sizes|) + gates;
            GroupsBelow(StripAll(all), |sizes|) &&
            Number(StripAll(all), |sizes|) == Decoded(all, IdLists(sizes), None, None, ands)
  {
    hide GroupsBelow, Number, TotalSize, InputGates, Line, LineInRange;
    var inputs := InputGates(sizes, |sizes|);
    var (gates, ands) := ParseGates(lines, numWires, k).value;
    if k == 0 {
      NumberInputs(sizes, |sizes|);
      assert inputs + gates == inputs;
      assert IdsTo(sizes, |sizes|) == IdLists(sizes);
    } else {
      NumberLines(lines, sizes, numWires, k - 1);
      var (before, count) := ParseGates(lines, numWires, k - 1).value;
      var g := ToGate(Line(lines, k - 1).value, count);
      assert inputs + gates == (inputs + before) + [g];
      assert StripAll((inputs + before) + [g]) == StripAll(inputs + before) + [Strip(g)];
      BelowSnoc(StripAll(inputs + before), Strip(g), |sizes|);
      NumberConcat(StripAll(inputs + before), Strip(g), |sizes|);
    }
  }

  // ----- the agreement -----

  lemma {:induction false} InputsInRange(sizes: seq<nat>, k: nat, numWires: nat)
    requires k <= |sizes| && TotalSize(sizes) <= numWires
    ensures forall i | 0 <= i < |InputGates(sizes, k)| ::
      InputGates(sizes, k)[i].Input? && InputGates(sizes, k)[i].wire < numWires && InputGates(sizes, k)[i].no < k
  {
    hide TotalSize;
    if k > 0 {
      InputsInRange(sizes, k - 1, numWires);
      SumMonotone(sizes, k);
      SumStep(sizes, k - 1);
    }
  }

  lemma StripFits(g: Gate, numWires: nat, groups: nat)
    requires g.InRange(numWires) && (g.Input? ==> g.no < groups)
    ensures GateFits(Strip(g), numWires, groups)
  {
  }

  /** What the build script keeps of a circuit. */
  function Stripped(c: BinaryCircuit): BuildCircuit {
    BuildCircuit(StripAll(c.gates), seq(|c.inputGateIds|, n requires 0 <= n < |c.inputGateIds| => |c.inputGateIds[n]|),
                 c.outputGateIds, c.numWires)
  }

  /** For every text the library's parser accepts, the build script's parser reads the same circuit
      and the encoder's assertions hold; decoding its output gives the library's circuit exactly
      when there is one gate per wire, and fails otherwise. */
  lemma CodecAgreement(file: string)
    requires ParseLines(Lines(file)).Ok?
    ensures var c := ParseLines(Lines(file)).value;
            var b := BuildParseLines(Lines(file));
            b == Ok(Stripped(c)) && WiresEncodable(b.value) &&
            Decode(Encoding(b.value)) == if |c.gates| == c.numWires then Some(c) else None
  {
    hide TotalSize, InputGates, Header, OutputCount, Sizes, ParseGates, BuildGates, Number, GroupsBelow, Encoding, Decode, BuildInputs,
         StripAll, Word;
    var lines := Lines(file);
    var c := ParseLines(lines).value;
    var (numGates, numWires) := Header(LineWords(lines, 0)).value;
    var sizes := LibrarySizes(LineWords(lines, 1), numWires).value;
    var inputs := InputGates(sizes, |sizes|);
    var gates := ParseGates(lines, numWires, numGates).value.0;
    GateLoopsAgree(lines, numWires, numGates);
    InputLoopsAgree(sizes, |sizes|);
    StripConcat(inputs, gates);
    NumberLines(lines, sizes, numWires, numGates);
    InputsInRange(sizes, |sizes|, numWires);
    assert c.gates == inputs + gates;
    var b := BuildParseLines(lines).value;
    assert b == BuildCircuit(StripAll(c.gates), sizes, c.outputGateIds, numWires);
    assert seq(|c.inputGateIds|, n requires 0 <= n < |c.inputGateIds| => |c.inputGateIds[n]|) == sizes;
    assert GatesOk(c.gates, numWires, |sizes|);
    StripAllFit(c.gates, numWires, |sizes|);
    assert sizes[..|sizes|] == sizes;
    assert WiresEncodable(b) && |b.gates| < U32_LIMIT;
    DecodeEncode(b);
  }

  predicate GatesOk(gates: seq<Gate>, numWires: nat, groups: nat) {
    forall i | 0 <= i < |gates| :: gates[i].InRange(numWires) && (gates[i].Input? ==> gates[i].no < groups)
  }

  lemma StripAllFit(gates: seq<Gate>, numWires: nat, groups: nat)
    requires GatesOk(gates, numWires, groups) && numWires <= MAX_BRISTOL_WIRES && groups < U32_LIMIT
    ensures AllFit(StripAll(gates), numWires, groups) && |StripAll(gates)| == |gates|
    ensures forall i | 0 <= i < |gates| :: GateEncodable(StripAll(gates)[i])
  {
    forall i | 0 <= i < |gates|
      ensures GateFits(StripAll(gates)[i], numWires, groups) && GateEncodable(StripAll(gates)[i])
    {
      StripFits(gates[i], numWires, groups);
    }
  }

  // ----- arbitrary bytes -----

  /** Gate `i` is in range; an input is listed in its group, and an AND gate has the next id. */
  predicate SoundGate(s: Decoded, numWires: nat, i: nat)
    requires i < |s.gates|
  {
    var g := s.gates[i];
    g.InRange(numWires) && (g.Input? ==> g.no < |s.ids| && g.id < |s.ids[g.no]|) && (g.And? ==> g.id == CountAnd(s.gates[..i]))
  }

  predicate CountsUp(ids: seq<nat>) {
    forall i | 0 <= i < |ids| :: ids[i] == i
  }

  /** The wire of the last constant gate of a value. */
  function LastConstant(gates: seq<Gate>, val: bool): Option<nat> {
    if gates == [] then None
    else
      var g := gates[|gates| - 1];
      if g.Constant? && g.val == val then Some(g.wire) else LastConstant(gates[..|gates| - 1], val)
  }

  predicate SoundDecoded(s: Decoded, numWires: nat) {
    s.ands == CountAnd(s.gates) && s.trueWire == LastConstant(s.gates, true) && s.falseWire == LastConstant(s.gates, false) && (forall i | 0 <= i < |s.gates| :: SoundGate(s, numWires, i)) &&
    forall n | 0 <= n < |s.ids| :: CountsUp(s.ids[n])
  }

  lemma AddKeepsGate(s: Decoded, g: CompactGate, numWires: nat, i: nat)
    requires i < |s.gates| && SoundGate(s, numWires, i) && (g.CompactInput? ==> g.no < |s.ids|)
    ensures SoundGate(AddGate(s, g), numWires, i)
  {
    var t := AddGate(s, g);
    assert t.gates[..i] == s.gates[..i] && t.gates[i] == s.gates[i];
  }

  lemma AddSounds(s: Decoded, g: CompactGate, numWires: nat, groups: nat)
    requires SoundDecoded(s, numWires) && |s.ids| == groups && GateFits(g, numWires, groups)
    ensures SoundDecoded(AddGate(s, g), numWires)
  {
    hide CountAnd, LastConstant;
    var t, n := AddGate(s, g), |s.gates|;
    AppendAnd(s.gates, t.gates[n]);
    assert t.gates == s.gates + [t.gates[n]] && t.gates[..n] == s.gates;
    AppendConstant(s.gates, t.gates[n], true);
    AppendConstant(s.gates, t.gates[n], false);
    forall i | 0 <= i < |t.gates|
      ensures SoundGate(t, numWires, i)
    {
      if i < n {
        AddKeepsGate(s, g, numWires, i);
      }
    }
    forall k | 0 <= k < |t.ids|
      ensures CountsUp(t.ids[k])
    {
      assert CountsUp(s.ids[k]);
    }
  }

  lemma AppendConstant(gates: seq<Gate>, g: Gate, val: bool)
    ensures LastConstant(gates + [g], val) == if g.Constant? && g.val == val then Some(g.wire) else LastConstant(gates, val)
  {
    assert (gates + [g])[..|gates|] == gates;
  }

  lemma AppendAnd(gates: seq<Gate>, g: Gate)
    ensures CountAnd(gates + [g]) == CountAnd(gates) + if g.And? then 1 else 0
  {
    assert (gates + [g])[..|gates|] == gates;
  }

  lemma {:induction false} DecodedGatesSound(bytes: seq<Byte>, pos: nat, numWires: nat, groups: nat, k: nat)
    ensures var r := DecodeGates(bytes, pos, numWires, groups, k);
            r.Some? ==> |r.value.0.gates| == k && SoundDecoded(r.value.0, numWires)
  {
    hide ReadGate, AddGate, SoundDecoded, GateFits;
    if k == 0 {
      FreshSounds(numWires, groups);
    } else {
      DecodedGatesSound(bytes, pos, numWires, groups, k - 1);
      var before := DecodeGates(bytes, pos, numWires, groups, k - 1);
      if before.Some? && ReadGate(bytes, before.value.1).Some? {
        var g := ReadGate(bytes, before.value.1).value.0;
        if GateFits(g, numWires, groups) {
          AddSounds(before.value.0, g, numWires, groups);
        }
      }
    }
  }

  lemma FreshSounds(numWires: nat, groups: nat)
    ensures SoundDecoded(Fresh(groups), numWires) && Fresh(groups).gates == []
  {
  }

  /** Whatever the bytes, a circuit that comes out of them has one gate per wire, all wires and input
      groups in range, its inputs listed and its AND gates numbered in order. */
  lemma DecodedIsSound(bytes: seq<Byte>)
    ensures var c := Decode(bytes);
            c.Some? ==>
              |c.value.gates| == c.value.numWires && c.value.WiresInRange() && c.value.numNonfreeGates == CountAnd(c.value.gates) &&
              c.value.trueWire == LastConstant(c.value.gates, true) && c.value.falseWire == LastConstant(c.value.gates, false) &&
              |c.value.inputGateIds| == c.value.numInputs && (forall n | 0 <= n < c.value.numInputs :: CountsUp(c.value.inputGateIds[n])) &&
              forall i | 0 <= i < |c.value.gates| ::
                var g := c.value.gates[i];
                (g.Input? ==> g.no < c.value.numInputs && g.id < |c.value.inputGateIds[g.no]|) &&
                (g.And? ==> g.id == CountAnd(c.value.gates[..i]))
  {
    hide ReadHeader, ReadNumbers, DecodeGates, CountAnd, LastConstant;
    var header := ReadHeader(bytes);
    if header.Some? && ReadNumbers(bytes, header.value.pos, 4, header.value.numInputs).Some? {
      var h := header.value;
      var p1 := ReadNumbers(bytes, h.pos, 4, h.numInputs).value.1;
      if ReadNumbers(bytes, p1, 3, h.numOutputs).Some? {
        var p2 := ReadNumbers(bytes, p1, 3, h.numOutputs).value.1;
        DecodedGatesSound(bytes, p2, h.numWires, h.numInputs, h.numGates);
        var r := DecodeGates(bytes, p2, h.numWires, h.numInputs, h.numGates);
        if r.Some? {
          var s := r.value.0;
          forall i | 0 <= i < |s.gates|
            ensures s.gates[i].InRange(h.numWires) && (s.gates[i].And? ==> s.gates[i].id == CountAnd(s.gates[..i]))
            ensures s.gates[i].Input? ==> s.gates[i].no < |s.ids| && s.gates[i].id < |s.ids[s.gates[i].no]|
          {
            assert SoundGate(s, h.numWires, i);
          }
        }
      }
    }
  }

  /** Bytes of a gate in the format. */
  function GateSize(g: Gate): nat {
    match g
    case Input(_, _, _) => 8
    case Constant(_, _) => 4
    case Inv(_, _) => 7
    case _ => 10
  }

  function GatesSize(gates: seq<Gate>): nat {
    if gates == [] then 0 else GatesSize(gates[..|gates| - 1]) + GateSize(gates[|gates| - 1])
  }

  lemma ReadGateMoves(bytes: seq<Byte>, pos: nat, s: Decoded)
    ensures var r := ReadGate(bytes, pos);
            r.Some? && (r.value.0.CompactInput? ==> r.value.0.no < |s.ids|) ==>
              r.value.1 == pos + GateSize(AddGate(s, r.value.0).gates[|s.gates|]) && AddGate(s, r.value.0).gates[..|s.gates|] == s.gates
  {
    hide FromLeBytes;
  }

  lemma {:induction false} DecodeGatesMoves(bytes: seq<Byte>, pos: nat, numWires: nat, groups: nat, k: nat)
    ensures var r := DecodeGates(bytes, pos, numWires, groups, k);
            r.Some? ==> r.value.1 == pos + GatesSize(r.value.0.gates)
  {
    hide ReadGate, AddGate, GateFits, GateSize;
    if k > 0 {
      DecodeGatesMoves(bytes, pos, numWires, groups, k - 1);
      var before := DecodeGates(bytes, pos, numWires, groups, k - 1);
      if before.Some? && ReadGate(bytes, before.value.1).Some? && GateFits(ReadGate(bytes, before.value.1).value.0, numWires, groups) {
        FitsGroup(ReadGate(bytes, before.value.1).value.0, numWires, groups);
        ReadGateMoves(bytes, before.value.1, before.value.0);
      }
    }
  }

  lemma FitsGroup(g: CompactGate, numWires: nat, groups: nat)
    requires GateFits(g, numWires, groups)
    ensures g.CompactInput? ==> g.no < groups
  {
  }

  lemma {:induction false} ReadNumbersMoves(bytes: seq<Byte>, pos: nat, width: nat, n: nat)
    ensures var r := ReadNumbers(bytes, pos, width, n); r.Some? ==> |r.value.0| == n && r.value.1 == pos + width * n
  {
    hide FromLeBytes;
    if n > 0 {
      ReadNumbersMoves(bytes, pos, width, n - 1);
      assert width * n == width * (n - 1) + width;
    }
  }

  /** Bytes are decoded only if they begin with the magic and the version, and all of them are used:
      nothing may follow the last gate. */
  lemma DecodesWholeFile(bytes: seq<Byte>)
    ensures var c := Decode(bytes);
            c.Some? ==>
              |bytes| == 24 + 4 * c.value.numInputs + 3 * |c.value.outputGateIds| + GatesSize(c.value.gates) &&
              bytes[..4] == MAGIC && FromLeBytes(bytes[4..6]) == 2
  {
    hide FromLeBytes, ReadNumbers, DecodeGates, GatesSize;
    ReadNumbersMoves(bytes, 8, 4, 4);
    var header := ReadHeader(bytes);
    if header.Some? {
      var h := header.value;
      ReadNumbersMoves(bytes, h.pos, 4, h.numInputs);
      if ReadNumbers(bytes, h.pos, 4, h.numInputs).Some? {
        var p1 := ReadNumbers(bytes, h.pos, 4, h.numInputs).value.1;
        ReadNumbersMoves(bytes, p1, 3, h.numOutputs);
        if ReadNumbers(bytes, p1, 3, h.numOutputs).Some? {
          DecodeGatesMoves(bytes, ReadNumbers(bytes, p1, 3, h.numOutputs).value.1, h.numWires, h.numInputs, h.numGates);
        }
      }
    }
  }

  // ----- the format itself -----

  function Values(bytes: seq<Byte>): (r: seq<nat>)
    ensures |r| == |bytes| && forall i | 0 <= i < |bytes| :: r[i] == bytes[i] as nat
  {
    seq(|bytes|, i requires 0 <= i < |bytes| => bytes[i] as nat)
  }

  lemma ValuesConcat(a: seq<Byte>, b: seq<Byte>)
    ensures Values(a + b) == Values(a) + Values(b)
  {
  }

  lemma {:induction false} ZeroLe(k: nat)
    ensures forall i | 0 <= i < k :: Le(0, k)[i] as nat == 0
  {
    if k == 0 {
    } else {
      ZeroLe(k - 1);
    }
  }

  /** A small number in little-endian order. */
  lemma SmallLe(v: nat, k: nat)
    requires v < 256 && k > 0
    ensures Values(Le(v, k)) == [v] + seq(k - 1, _ => 0)
  {
    hide LowByte, Values;
    assert v / 256 == 0;
    ZeroLe(k - 1);
    var bytes, expected := Le(v, k), [v] + seq(k - 1, _ => 0);
    assert bytes == [LowByte(v)] + Le(0, k - 1);
    forall i | 0 <= i < k
      ensures Values(bytes)[i] == expected[i]
    {
    }
  }

  lemma Parts3(tag: nat, x: nat, k: nat, y: nat)
    requires tag < 256 && x < 256 && y < 256 && k > 0
    ensures Values(Le(tag, 1) + Le(x, k) + Le(y, 3)) == [tag] + ([x] + seq(k - 1, _ => 0)) + [y, 0, 0]
  {
    hide Le, Values;
    SmallLe(tag, 1);
    SmallLe(x, k);
    SmallLe(y, 3);
    ValuesConcat(Le(tag, 1), Le(x, k));
    ValuesConcat(Le(tag, 1) + Le(x, k), Le(y, 3));
    assert seq(2, _ => 0) == [0, 0] && seq(0, _ => 0) == [];
  }

  lemma Parts4(tag: nat, x: nat, y: nat, z: nat)
    requires tag < 256 && x < 256 && y < 256 && z < 256
    ensures Values(Le(tag, 1) + Le(x, 3) + Le(y, 3) + Le(z, 3)) == [tag, x, 0, 0, y, 0, 0, z, 0, 0]
  {
    hide Le, Values;
    Parts3(tag, x, 3, y);
    SmallLe(z, 3);
    ValuesConcat(Le(tag, 1) + Le(x, 3) + Le(y, 3), Le(z, 3));
    assert seq(2, _ => 0) == [0, 0];
  }

  lemma Parts2(tag: nat, z: nat)
    requires tag < 256 && z < 256
    ensures Values(Le(tag, 1) + Le(z, 3)) == [tag, z, 0, 0]
  {
    hide Le, Values;
    SmallLe(tag, 1);
    SmallLe(z, 3);
    ValuesConcat(Le(tag, 1), Le(z, 3));
    assert seq(2, _ => 0) == [0, 0] && seq(0, _ => 0) == [];
  }

  /** The bytes of each kind of gate, for numbers below 256. */
  lemma GateLayout(g: CompactGate)
    requires WiresUpTo(g, 255) && (g.CompactInput? ==> g.no < 256)
    ensures Values(GateBytes(g)) ==
            match g
            case CompactInput(no, wire) => [0, no, 0, 0, 0, wire, 0, 0]
            case CompactConst(val, wire) => if val then [2, wire, 0, 0] else [1, wire, 0, 0]
            case CompactXor(x, y, out) => [3, x, 0, 0, y, 0, 0, out, 0, 0]
            case CompactAnd(x, y, out) => [4, x, 0, 0, y, 0, 0, out, 0, 0]
            case CompactInv(x, out) => [5, x, 0, 0, out, 0, 0]
  {
    hide Le, Values;
    assert seq(3, _ => 0) == [0, 0, 0] && seq(2, _ => 0) == [0, 0];
    match g {
      case CompactInput(no, wire) => Parts3(0, no, 4, wire);
      case CompactConst(val, wire) => Parts2(if val then 2 else 1, wire);
      case CompactXor(x, y, out) => Parts4(3, x, y, out);
      case CompactAnd(x, y, out) => Parts4(4, x, y, out);
      case CompactInv(x, out) => Parts3(5, x, 3, out);
    }
  }

  /** The file begins with the letters GCB1, the version and two reserved bytes, then four counts. */
  lemma HeaderLayout(c: BuildCircuit)
    requires c.numWires < 256 && |c.inputSizes| < 256 && |c.outputGateIds| < 256 && |c.gates| < 256
    ensures Values(HeaderBytes(c)) == [0x47, 0x43, 0x42, 0x31] + [2, 0, 0, 0] + [c.numWires, 0, 0, 0] + [|c.inputSizes|, 0, 0, 0] +
                                      [|c.outputGateIds|, 0, 0, 0] + [|c.gates|, 0, 0, 0]
  {
    hide Le, Values, MAGIC;
    var a, b, n := Le(2, 2), Le(0, 2), seq(3, _ => 0);
    MagicValues();
    SmallLe(2, 2);
    SmallLe(0, 2);
    SmallLe(c.numWires, 4);
    SmallLe(|c.inputSizes|, 4);
    SmallLe(|c.outputGateIds|, 4);
    SmallLe(|c.gates|, 4);
    assert n == [0, 0, 0] && seq(1, _ => 0) == [0];
    HeaderParts(MAGIC, a, b, Le(c.numWires, 4), Le(|c.inputSizes|, 4), Le(|c.outputGateIds|, 4), Le(|c.gates|, 4));
  }

  lemma MagicValues()
    ensures Values(MAGIC) == [0x47, 0x43, 0x42, 0x31]
  {
  }

  lemma HeaderParts(m: seq<Byte>, a: seq<Byte>, b: seq<Byte>, c: seq<Byte>, d: seq<Byte>, e: seq<Byte>, f: seq<Byte>)
    ensures Values(m + a + b + c + d + e + f)
         == Values(m) + (Values(a) + Values(b)) + Values(c) + Values(d) + Values(e) + Values(f)
  {
    hide Values;
    ValuesConcat(m, a);
    ValuesConcat(m + a, b);
    ValuesConcat(m + a + b, c);
    ValuesConcat(m + a + b + c, d);
    ValuesConcat(m + a + b + c + d, e);
    ValuesConcat(m + a + b + c + d + e, f);
  }
}
