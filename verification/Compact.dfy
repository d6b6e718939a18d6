/** The compact circuit format: the build script's encoder (`build.rs`) and the library's decoder
    (`src/circuit.rs`). A failed assertion or an early end of the bytes is `None`. */
module Compact {
  import opened Wrappers
  import opened Blocks
  import opened Circuits
  import opened LabelPrfs
  import opened Bristol

  const MAGIC: seq<Byte> := [0x47, 0x43, 0x42, 0x31]
  const VERSION: nat := 2
  const MAX_COMPACT_WIRE: nat := 0xFF_FFFF

  const TAG_INPUT: nat := 0
  const TAG_CONST_FALSE: nat := 1
  const TAG_CONST_TRUE: nat := 2
  const TAG_XOR: nat := 3
  const TAG_AND: nat := 4
  const TAG_INV: nat := 5

  // ----- little-endian numbers -----

  function Le(v: nat, k: nat): (r: seq<Byte>)
    ensures |r| == k
  {
    if k == 0 then [] else [LowByte(v)] + Le(v / 256, k - 1)
  }

  function LowByte(v: nat): (b: Byte)
    ensures b as nat == v % 256
  {
    ToByte(v % 256)
  }

  /** The byte of value `n`. */
  function ToByte(n: nat): (b: Byte)
    requires n < 256
    ensures b as nat == n
  {
    if n == 0 then 0
    else
      var b := ToByte(n - 1);
      assert b < 255 by { ByteOrder(b, 255); }
      ByteSuccessor(b);
      b + 1
  }

  lemma ByteOrder(b: Byte, c: Byte)
    ensures b < c <==> (b as nat) < c as nat
  {
  }

  lemma ByteSuccessor(b: Byte)
    requires b < 255
    ensures (b + 1) as nat == b as nat + 1
  {
  }

  function LeLimit(k: nat): nat {
    if k == 0 then 1 else 256 * LeLimit(k - 1)
  }

  lemma {:induction false} LeRoundTrip(v: nat, k: nat)
    requires v < LeLimit(k)
    ensures FromLeBytes(Le(v, k)) == v
  {
    hide LowByte;
    if k > 0 {
      LeRoundTrip(v / 256, k - 1);
      var low, rest := LowByte(v), Le(v / 256, k - 1);
      FromLeStep(low, rest);
      assert v == v % 256 + 256 * (v / 256);
    }
  }

  lemma FromLeStep(low: Byte, rest: seq<Byte>)
    ensures FromLeBytes([low] + rest) == low as nat + 256 * FromLeBytes(rest)
  {
    assert ([low] + rest)[1..] == rest;
  }

  lemma LeLimits()
    ensures LeLimit(1) == 256 && LeLimit(2) == 0x1_0000 && LeLimit(3) == MAX_COMPACT_WIRE + 1 && LeLimit(4) == U32_LIMIT
  {
    assert LeLimit(1) == 256 * LeLimit(0);
    assert LeLimit(2) == 256 * LeLimit(1);
    assert LeLimit(3) == 256 * LeLimit(2);
    assert LeLimit(4) == 256 * LeLimit(3);
  }

  // ----- encoder -----

  function GateBytes(g: CompactGate): seq<Byte> {
    match g
    case CompactInput(no, wire) => Le(TAG_INPUT, 1) + Le(no, 4) + Le(wire, 3)
    case CompactConst(val, wire) => Le(if val then TAG_CONST_TRUE else TAG_CONST_FALSE, 1) + Le(wire, 3)
    case CompactXor(x, y, out) => Le(TAG_XOR, 1) + Le(x, 3) + Le(y, 3) + Le(out, 3)
    case CompactAnd(x, y, out) => Le(TAG_AND, 1) + Le(x, 3) + Le(y, 3) + Le(out, 3)
    case CompactInv(x, out) => Le(TAG_INV, 1) + Le(x, 3) + Le(out, 3)
  }

  function NumberBytes(vs: seq<nat>, k: nat): seq<Byte> {
    if vs == [] then [] else NumberBytes(vs[..|vs| - 1], k) + Le(vs[|vs| - 1], k)
  }

  function GatesBytes(gates: seq<CompactGate>): seq<Byte> {
    if gates == [] then [] else GatesBytes(gates[..|gates| - 1]) + GateBytes(gates[|gates| - 1])
  }

  function HeaderBytes(c: BuildCircuit): seq<Byte> {
    MAGIC + Le(VERSION, 2) + Le(0, 2) + Le(c.numWires, 4) + Le(|c.inputSizes| % U32_LIMIT, 4) +
    Le(|c.outputGateIds| % U32_LIMIT, 4) + Le(|c.gates| % U32_LIMIT, 4)
  }

  function Encoding(c: BuildCircuit): seq<Byte> {
    HeaderBytes(c) + NumberBytes(c.inputSizes, 4) + NumberBytes(c.outputGateIds, 3) + GatesBytes(c.gates)
  }

  /** Every wire of the gate is at most `max`. */
  predicate WiresUpTo(g: CompactGate, max: nat) {
    match g
    case CompactInput(_, wire) => wire <= max
    case CompactConst(_, wire) => wire <= max
    case CompactXor(x, y, out) => x <= max && y <= max && out <= max
    case CompactAnd(x, y, out) => x <= max && y <= max && out <= max
    case CompactInv(x, out) => x <= max && out <= max
  }

  predicate WiresEncodable(c: BuildCircuit) {
    (forall i | 0 <= i < |c.outputGateIds| :: c.outputGateIds[i] <= MAX_COMPACT_WIRE) &&
    forall i | 0 <= i < |c.gates| :: WiresUpTo(c.gates[i], MAX_COMPACT_WIRE)
  }

  method PushNumbers(vs: seq<nat>, k: nat) returns (bytes: seq<Byte>)
    ensures bytes == NumberBytes(vs, k)
  {
    bytes := [];
    for i := 0 to |vs|
      invariant bytes == NumberBytes(vs[..i], k)
    {
      assert vs[..i + 1][..i] == vs[..i];
      bytes := bytes + Le(vs[i], k);
    }
    assert vs[..|vs|] == vs;
  }

  method PushOutputs(vs: seq<nat>) returns (r: Option<seq<Byte>>)
    ensures r == if forall i | 0 <= i < |vs| :: vs[i] <= MAX_COMPACT_WIRE then Some(NumberBytes(vs, 3)) else None
  {
    hide Le;
    var bytes: seq<Byte> := [];
    for i := 0 to |vs|
      invariant bytes == NumberBytes(vs[..i], 3) && forall j | 0 <= j < i :: vs[j] <= MAX_COMPACT_WIRE
    {
      assert vs[..i + 1][..i] == vs[..i];
      if vs[i] > MAX_COMPACT_WIRE {
        return None;
      }
      bytes := bytes + Le(vs[i], 3);
    }
    assert vs[..|vs|] == vs;
    r := Some(bytes);
  }

  method PushGates(gates: seq<CompactGate>) returns (r: Option<seq<Byte>>)
    ensures r == if forall i | 0 <= i < |gates| :: WiresUpTo(gates[i], MAX_COMPACT_WIRE) then Some(GatesBytes(gates)) else None
  {
    hide GateBytes, WiresUpTo;
    var bytes: seq<Byte> := [];
    for i := 0 to |gates|
      invariant bytes == GatesBytes(gates[..i]) && forall j | 0 <= j < i :: WiresUpTo(gates[j], MAX_COMPACT_WIRE)
    {
      assert gates[..i + 1][..i] == gates[..i];
      if !WiresUpTo(gates[i], MAX_COMPACT_WIRE) {
        return None;
      }
      bytes := bytes + GateBytes(gates[i]);
    }
    assert gates[..|gates|] == gates;
    r := Some(bytes);
  }

  /** The assertions of the encoder stop it exactly at a wire that needs more than 24 bits. */
  method EncodeCompact(c: BuildCircuit) returns (r: Option<seq<Byte>>)
    ensures r == if WiresEncodable(c) then Some(Encoding(c)) else None
  {
    hide NumberBytes, HeaderBytes, GatesBytes, WiresUpTo;
    var sizes := PushNumbers(c.inputSizes, 4);
    var outputs := PushOutputs(c.outputGateIds);
    if outputs.None? {
      return None;
    }
    var gates := PushGates(c.gates);
    if gates.None? {
      return None;
    }
    r := Some(HeaderBytes(c) + sizes + outputs.value + gates.value);
  }

  // ----- decoder -----

  predicate AllBelow(vs: seq<nat>, limit: nat) {
    forall i | 0 <= i < |vs| :: vs[i] < limit
  }

  function ReadLe(bytes: seq<Byte>, pos: nat, k: nat): Option<(nat, nat)> {
    if pos + k <= |bytes| then Some((FromLeBytes(bytes[pos..pos + k]), pos + k)) else None
  }

  class CompactReader {
    const bytes: seq<Byte>
    var pos: nat

    constructor (bytes: seq<Byte>)
      ensures this.bytes == bytes && pos == 0
    {
      this.bytes, pos := bytes, 0;
    }

    /** Reading `k` bytes moves the position past them, or fails and leaves it. */
    method Read(k: nat) returns (v: Option<nat>)
      modifies this
      ensures v.Some? <==> ReadLe(bytes, old(pos), k).Some?
      ensures v.Some? ==> ReadLe(bytes, old(pos), k) == Some((v.value, pos))
      ensures v.None? ==> pos == old(pos)
    {
      var end := pos + k;
      if end > |bytes| {
        return None;
      }
      v := Some(FromLeBytes(bytes[pos..end]));
      pos := end;
    }

    method ReadU24Pair() returns (v: Option<(nat, nat)>)
      modifies this
      ensures match ReadPair(bytes, old(pos))
              case Some((x, y, next)) => v == Some((x, y)) && pos == next
              case None => v.None?
    {
      var x := Read(3);
      if x.None? {
        return None;
      }
      var y := Read(3);
      if y.None? {
        return None;
      }
      v := Some((x.value, y.value));
    }
  }

  function ReadPair(bytes: seq<Byte>, pos: nat): Option<(nat, nat, nat)> {
    match ReadLe(bytes, pos, 3)
    case None => None
    case Some((x, p1)) =>
      match ReadLe(bytes, p1, 3)
      case None => None
      case Some((y, p2)) => Some((x, y, p2))
  }

  function ReadGate(bytes: seq<Byte>, pos: nat): Option<(CompactGate, nat)> {
    match ReadLe(bytes, pos, 1)
    case None => None
    case Some((tag, p1)) =>
      if tag == TAG_INPUT then
        match ReadLe(bytes, p1, 4)
        case None => None
        case Some((no, p2)) =>
          match ReadLe(bytes, p2, 3)
          case None => None
          case Some((wire, p3)) => Some((CompactInput(no, wire), p3))
      else if tag == TAG_CONST_FALSE || tag == TAG_CONST_TRUE then
        match ReadLe(bytes, p1, 3)
        case None => None
        case Some((wire, p2)) => Some((CompactConst(tag == TAG_CONST_TRUE, wire), p2))
      else if tag == TAG_XOR || tag == TAG_AND then
        match ReadPair(bytes, p1)
        case None => None
        case Some((x, y, p2)) =>
          match ReadLe(bytes, p2, 3)
          case None => None
          case Some((out, p3)) => Some((if tag == TAG_XOR then CompactXor(x, y, out) else CompactAnd(x, y, out), p3))
      else if tag == TAG_INV then
        match ReadPair(bytes, p1)
        case None => None
        case Some((x, out, p2)) => Some((CompactInv(x, out), p2))
      else None
  }

  /** What the decoder has put together so far. */
  datatype Decoded = Decoded(gates: seq<Gate>, ids: seq<seq<nat>>, falseWire: Option<nat>, trueWire: Option<nat>, ands: nat)

  predicate GateFits(g: CompactGate, numWires: nat, groups: nat) {
    numWires > 0 && WiresUpTo(g, numWires - 1) && (g.CompactInput? ==> g.no < groups)
  }

  /** Input positions and AND ids are handed out in gate order. */
  function AddGate(s: Decoded, g: CompactGate): (r: Decoded)
    requires g.CompactInput? ==> g.no < |s.ids|
    ensures |r.ids| == |s.ids| && |r.gates| == |s.gates| + 1
  {
    match g
    case CompactInput(no, wire) =>
      var id := |s.ids[no]|;
      s.(gates := s.gates + [Input(no, id, wire)], ids := s.ids[no := s.ids[no] + [id]])
    case CompactConst(val, wire) =>
      var t := s.(gates := s.gates + [Constant(val, wire)]);
      if val then t.(trueWire := Some(wire)) else t.(falseWire := Some(wire))
    case CompactXor(x, y, out) => s.(gates := s.gates + [Xor(x, y, out)])
    case CompactAnd(x, y, out) => s.(gates := s.gates + [And(x, y, s.ands, out)], ands := s.ands + 1)
    case CompactInv(x, out) => s.(gates := s.gates + [Inv(x, out)])
  }

  function Fresh(groups: nat): Decoded {
    Decoded([], seq(groups, _ => []), None, None, 0)
  }

  function DecodeGates(bytes: seq<Byte>, pos: nat, numWires: nat, groups: nat, k: nat): (r: Option<(Decoded, nat)>)
    ensures r.Some? ==> |r.value.0.ids| == groups
  {
    if k == 0 then Some((Fresh(groups), pos))
    else
      match DecodeGates(bytes, pos, numWires, groups, k - 1)
      case None => None
      case Some((s, p)) =>
        match ReadGate(bytes, p)
        case None => None
        case Some((g, p')) => if GateFits(g, numWires, groups) then Some((AddGate(s, g), p')) else None
  }

  function ReadNumbers(bytes: seq<Byte>, pos: nat, width: nat, n: nat): Option<(seq<nat>, nat)> {
    if n == 0 then Some(([], pos))
    else
      match ReadNumbers(bytes, pos, width, n - 1)
      case None => None
      case Some((vs, p)) =>
        match ReadLe(bytes, p, width)
        case None => None
        case Some((v, p')) => Some((vs + [v], p'))
  }

  datatype CompactHeader = CompactHeader(numWires: nat, numInputs: nat, numOutputs: nat, numGates: nat, pos: nat)

  function ReadHeader(bytes: seq<Byte>): Option<CompactHeader> {
    if |bytes| < 4 || bytes[..4] != MAGIC then None
    else
      match ReadLe(bytes, 4, 2)
      case None => None
      case Some((version, _)) =>
        if version != VERSION then None
        else
          match ReadNumbers(bytes, 8, 4, 4)
          case None => None
          case Some((vs, p)) => if |vs| == 4 then Some(CompactHeader(vs[0], vs[1], vs[2], vs[3], p)) else None
  }

  function Decode(bytes: seq<Byte>): Option<BinaryCircuit> {
    match ReadHeader(bytes)
    case None => None
    case Some(h) =>
      match ReadNumbers(bytes, h.pos, 4, h.numInputs)
      case None => None
      case Some((sizes, p1)) =>
        match ReadNumbers(bytes, p1, 3, h.numOutputs)
        case None => None
        case Some((outputs, p2)) =>
          if !AllBelow(outputs, h.numWires) || h.numGates != h.numWires then None
          else
            match DecodeGates(bytes, p2, h.numWires, h.numInputs, h.numGates)
            case None => None
            case Some((s, p3)) =>
              if p3 != |bytes| then None
              else Some(BinaryCircuit(s.gates, h.numInputs, s.ids, outputs, s.falseWire, s.trueWire, s.ands, h.numWires))
  }

  lemma {:induction false} DecodeGatesNone(bytes: seq<Byte>, pos: nat, numWires: nat, groups: nat, k: nat, n: nat)
    requires k <= n && DecodeGates(bytes, pos, numWires, groups, k).None?
    ensures DecodeGates(bytes, pos, numWires, groups, n).None?
  {
    if k < n {
      DecodeGatesNone(bytes, pos, numWires, groups, k, n - 1);
    }
  }

  lemma {:induction false} ReadNumbersNone(bytes: seq<Byte>, pos: nat, width: nat, k: nat, n: nat)
    requires k <= n && ReadNumbers(bytes, pos, width, k).None?
    ensures ReadNumbers(bytes, pos, width, n).None?
  {
    if k < n {
      ReadNumbersNone(bytes, pos, width, k, n - 1);
    }
  }

  lemma {:induction false} ReadNumbersPrefix(bytes: seq<Byte>, pos: nat, width: nat, k: nat, n: nat)
    requires k <= n && ReadNumbers(bytes, pos, width, n).Some?
    ensures ReadNumbers(bytes, pos, width, k).Some?
    ensures ReadNumbers(bytes, pos, width, k).value.0 <= ReadNumbers(bytes, pos, width, n).value.0
    ensures |ReadNumbers(bytes, pos, width, k).value.0| == k
  {
    if k < n {
      ReadNumbersPrefix(bytes, pos, width, k, n - 1);
    } else if n > 0 {
      ReadNumbersPrefix(bytes, pos, width, n - 1, n - 1);
    }
  }

  /** A run of numbers; a number at or above `limit` stops the reader. */
  method ReadRun(reader: CompactReader, width: nat, n: nat, limit: nat) returns (r: Option<seq<nat>>)
    modifies reader
    ensures match ReadNumbers(reader.bytes, old(reader.pos), width, n)
            case None => r.None?
            case Some((vs, p)) =>
              if AllBelow(vs, limit) then r == Some(vs) && reader.pos == p else r.None?
  {
    hide ReadLe;
    ghost var from := reader.pos;
    var vs: seq<nat> := [];
    for k := 0 to n
      invariant ReadNumbers(reader.bytes, from, width, k) == Some((vs, reader.pos))
      invariant AllBelow(vs, limit)
    {
      var v := reader.Read(width);
      if v.None? {
        ReadNumbersNone(reader.bytes, from, width, k + 1, n);
        return None;
      }
      if v.value >= limit {
        if ReadNumbers(reader.bytes, from, width, n).Some? {
          ReadNumbersPrefix(reader.bytes, from, width, k + 1, n);
          assert ReadNumbers(reader.bytes, from, width, n).value.0[|vs|] == v.value;
        }
        return None;
      }
      vs := vs + [v.value];
    }
    r := Some(vs);
  }

  method ReadOneGate(reader: CompactReader) returns (r: Option<CompactGate>)
    modifies reader
    ensures match ReadGate(reader.bytes, old(reader.pos))
            case None => r.None?
            case Some((g, p)) => r == Some(g) && reader.pos == p
  {
    hide ReadLe;
    var tag := reader.Read(1);
    if tag.None? {
      return None;
    }
    if tag.value == TAG_INPUT {
      var no := reader.Read(4);
      if no.None? {
        return None;
      }
      var wire := reader.Read(3);
      if wire.None? {
        return None;
      }
      return Some(CompactInput(no.value, wire.value));
    } else if tag.value == TAG_CONST_FALSE || tag.value == TAG_CONST_TRUE {
      var wire := reader.Read(3);
      if wire.None? {
        return None;
      }
      return Some(CompactConst(tag.value == TAG_CONST_TRUE, wire.value));
    } else if tag.value == TAG_XOR || tag.value == TAG_AND {
      var xy := reader.ReadU24Pair();
      if xy.None? {
        return None;
      }
      var out := reader.Read(3);
      if out.None? {
        return None;
      }
      return Some(if tag.value == TAG_XOR then CompactXor(xy.value.0, xy.value.1, out.value)
                  else CompactAnd(xy.value.0, xy.value.1, out.value));
    } else if tag.value == TAG_INV {
      var xo := reader.ReadU24Pair();
      if xo.None? {
        return None;
      }
      return Some(CompactInv(xo.value.0, xo.value.1));
    }
    r := None;
  }

  method ReadCompactHeader(reader: CompactReader) returns (r: Option<CompactHeader>)
    requires reader.pos == 0
    modifies reader
    ensures r == ReadHeader(reader.bytes)
    ensures r.Some? ==> reader.pos == r.value.pos
  {
    hide ReadNumbers;
    var b := reader.bytes;
    if |b| < 4 || b[..4] != MAGIC {
      return None;
    }
    reader.pos := 4;
    var version := reader.Read(2);
    if version.None? || version.value != VERSION {
      return None;
    }
    var reserved := reader.Read(2);
    if reserved.None? {
      ShortHeader(b);
      return None;
    }
    var vs := ReadRun(reader, 4, 4, U32_LIMIT);
    U32Numbers(b, 8, 4);
    if vs.None? {
      return None;
    }
    ReadNumbersLength(b, 8, 4, 4);
    r := Some(CompactHeader(vs.value[0], vs.value[1], vs.value[2], vs.value[3], reader.pos));
  }

  lemma ShortHeader(b: seq<Byte>)
    requires ReadLe(b, 6, 2).None?
    ensures ReadNumbers(b, 8, 4, 4).None?
  {
    assert ReadNumbers(b, 8, 4, 0) == Some(([], 8));
    assert ReadNumbers(b, 8, 4, 1).None?;
    ReadNumbersNone(b, 8, 4, 1, 4);
  }

  lemma {:induction false} ReadNumbersLength(bytes: seq<Byte>, pos: nat, width: nat, n: nat)
    ensures ReadNumbers(bytes, pos, width, n).Some? ==> |ReadNumbers(bytes, pos, width, n).value.0| == n
  {
    if n > 0 {
      ReadNumbersLength(bytes, pos, width, n - 1);
    }
  }

  /** Four bytes are always below 2^32. */
  lemma {:induction false} U32Numbers(bytes: seq<Byte>, pos: nat, n: nat)
    ensures ReadNumbers(bytes, pos, 4, n).Some? ==> AllBelow(ReadNumbers(bytes, pos, 4, n).value.0, U32_LIMIT)
  {
    hide FromLeBytes;
    if n > 0 {
      U32Numbers(bytes, pos, n - 1);
      LeLimits();
      var before := ReadNumbers(bytes, pos, 4, n - 1);
      if before.Some? && before.value.1 + 4 <= |bytes| {
        var word := bytes[before.value.1..before.value.1 + 4];
        FromLeBound(word);
        assert |word| == 4 && LeLimit(|word|) == LeLimit(4) && FromLeBytes(word) < U32_LIMIT;
        assert ReadNumbers(bytes, pos, 4, n).value.0 == before.value.0 + [FromLeBytes(word)];
      }
    }
  }

  lemma {:induction false} FromLeBound(bytes: seq<Byte>)
    ensures FromLeBytes(bytes) < LeLimit(|bytes|)
  {
    if bytes != [] {
      FromLeBound(bytes[1..]);
    }
  }

  method FromCompactBytes(bytes: seq<Byte>) returns (r: Option<BinaryCircuit>)
    ensures r == Decode(bytes)
  {
    hide ReadHeader, ReadNumbers, ReadGate, AddGate;
    var reader := new CompactReader(bytes);
    var header := ReadCompactHeader(reader);
    if header.None? {
      return None;
    }
    var h := header.value;
    ghost var p0 := reader.pos;
    var sizes := ReadRun(reader, 4, h.numInputs, U32_LIMIT);
    U32Numbers(bytes, p0, h.numInputs);
    if sizes.None? {
      return None;
    }
    var outputs := ReadRun(reader, 3, h.numOutputs, h.numWires);
    if outputs.None? || h.numGates != h.numWires {
      return None;
    }
    ghost var p2 := reader.pos;
    var s := Fresh(h.numInputs);
    for k := 0 to h.numGates
      invariant DecodeGates(bytes, p2, h.numWires, h.numInputs, k) == Some((s, reader.pos))
    {
      var g := ReadOneGate(reader);
      if g.None? || !GateFits(g.value, h.numWires, h.numInputs) {
        DecodeGatesNone(bytes, p2, h.numWires, h.numInputs, k + 1, h.numGates);
        return None;
      }
      s := AddGate(s, g.value);
    }
    if reader.pos != |bytes| {
      return None;
    }
    r := Some(BinaryCircuit(s.gates, h.numInputs, s.ids, outputs.value, s.falseWire, s.trueWire, s.ands, h.numWires));
  }
}
