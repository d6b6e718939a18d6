/** The two parsers of Bristol Fashion text: the library's (`src/circuit.rs`) and the build
    script's (`build.rs`). `usize` has 64 bits. */
module Bristol {
  import opened Wrappers
  import opened Circuits

  const MAX_BRISTOL_GATES: nat := 2_000_000
  const MAX_BRISTOL_WIRES: nat := 2_000_000
  const MAX_BRISTOL_INPUT_GROUPS: nat := 64
  const U32_LIMIT: nat := 0x1_0000_0000
  const USIZE_LIMIT: nat := 0x1_0000_0000_0000_0000

  // ----- text -----

  /** The characters with the Unicode property White_Space. */
  predicate IsWhitespace(c: char) {
    var n := c as int;
    9 <= n <= 13 || n == 0x20 || n == 0x85 || n == 0xA0 || n == 0x1680 || 0x2000 <= n <= 0x200A ||
    n == 0x2028 || n == 0x2029 || n == 0x202F || n == 0x205F || n == 0x3000
  }

  function LineEnd(s: string): (n: nat)
    ensures n <= |s|
  {
    if s == [] || s[0] == '\n' then 0 else 1 + LineEnd(s[1..])
  }

  function StripReturn(line: string): string {
    if line != [] && line[|line| - 1] == '\r' then line[..|line| - 1] else line
  }

  /** `str::lines`: a carriage return goes with the newline after it. */
  function Lines(s: string): seq<string> {
    if s == [] then []
    else
      var n := LineEnd(s);
      if n == |s| then [s] else [StripReturn(s[..n])] + Lines(s[n + 1..])
  }

  function WordEnd(s: string): (n: nat)
    ensures n <= |s| && (s != [] && !IsWhitespace(s[0]) ==> n > 0)
  {
    if s == [] || IsWhitespace(s[0]) then 0 else 1 + WordEnd(s[1..])
  }

  /** `str::split_whitespace` */
  function Words(s: string): seq<string> {
    if s == [] then []
    else if IsWhitespace(s[0]) then Words(s[1..])
    else [s[..WordEnd(s)]] + Words(s[WordEnd(s)..])
  }

  predicate PlainWord(w: string) {
    w != [] && forall i | 0 <= i < |w| :: !IsWhitespace(w[i])
  }

  function Spaced(ws: seq<string>): string {
    if ws == [] then [] else ws[0] + [' '] + Spaced(ws[1..])
  }

  lemma {:induction false} WordEndAt(w: string, rest: string)
    requires (forall i | 0 <= i < |w| :: !IsWhitespace(w[i])) && rest != [] && IsWhitespace(rest[0])
    ensures WordEnd(w + rest) == |w|
  {
    if w == [] {
      assert w + rest == rest;
    } else {
      WordEndAt(w[1..], rest);
      assert (w + rest)[1..] == w[1..] + rest;
    }
  }

  /** Splitting undoes joining, for any words without white space. */
  lemma {:induction false} WordsOfSpaced(ws: seq<string>)
    requires forall i | 0 <= i < |ws| :: PlainWord(ws[i])
    ensures Words(Spaced(ws)) == ws
  {
    if ws != [] {
      WordsOfSpaced(ws[1..]);
      var w, rest := ws[0], [' '] + Spaced(ws[1..]);
      assert PlainWord(w) && Spaced(ws) == w + rest;
      WordEndAt(w, rest);
      assert (w + rest)[..|w|] == w && (w + rest)[|w|..] == rest;
      assert rest[1..] == Spaced(ws[1..]);
    }
  }

  predicate PlainLine(l: string) {
    (forall i | 0 <= i < |l| :: l[i] != '\n') && (l != [] ==> l[|l| - 1] != '\r')
  }

  /** Lines that all end with the same terminator. */
  function Terminated(ls: seq<string>, crlf: bool): string {
    if ls == [] then []
    else ls[0] + (if crlf then ['\r', '\n'] else ['\n']) + Terminated(ls[1..], crlf)
  }

  lemma {:induction false} LineEndAt(l: string, rest: string)
    requires (forall i | 0 <= i < |l| :: l[i] != '\n') && rest != [] && rest[0] == '\n'
    ensures LineEnd(l + rest) == |l|
  {
    if l == [] {
      assert l + rest == rest;
    } else {
      LineEndAt(l[1..], rest);
      assert (l + rest)[1..] == l[1..] + rest;
    }
  }

  lemma LinesStep(l: string, rest: string)
    requires forall i | 0 <= i < |l| :: l[i] != '\n'
    ensures Lines(l + ['\n'] + rest) == [StripReturn(l)] + Lines(rest)
  {
    var tail := ['\n'] + rest;
    assert l + ['\n'] + rest == l + tail;
    LineEndAt(l, tail);
    assert (l + tail)[..|l|] == l && (l + tail)[|l| + 1..] == rest;
  }

  /** Both line endings are understood. */
  lemma {:induction false} LinesOfTerminated(ls: seq<string>, crlf: bool)
    requires forall i | 0 <= i < |ls| :: PlainLine(ls[i])
    ensures Lines(Terminated(ls, crlf)) == ls
  {
    hide Lines, LineEnd;
    if ls == [] {
      LinesOfNothing();
    } else {
      LinesOfTerminated(ls[1..], crlf);
      assert PlainLine(ls[0]);
      var l := if crlf then ls[0] + ['\r'] else ls[0];
      LinesStep(l, Terminated(ls[1..], crlf));
      assert Terminated(ls, crlf) == l + ['\n'] + Terminated(ls[1..], crlf);
      assert StripReturn(l) == ls[0];
    }
  }

  lemma LinesOfNothing()
    ensures Lines([]) == []
  {
  }

  predicate IsDigit(c: char) {
    '0' <= c <= '9'
  }

  function DigitValue(c: char): (v: nat)
    requires IsDigit(c)
    ensures v < 10
  {
    (c - '0') as int
  }

  predicate AllDigits(s: string) {
    forall i | 0 <= i < |s| :: IsDigit(s[i])
  }

  function Decimal(s: string): nat
    requires AllDigits(s)
  {
    if s == [] then 0 else 10 * Decimal(s[..|s| - 1]) + DigitValue(s[|s| - 1])
  }

  /** `parse` for an unsigned type: an optional plus sign, digits, and a value below the limit. */
  function ParseUnsigned(s: string, limit: nat): (r: Option<nat>)
    ensures r.Some? ==> r.value < limit
  {
    var digits := if s != [] && s[0] == '+' then s[1..] else s;
    if digits == [] || !AllDigits(digits) then None
    else if Decimal(digits) < limit then Some(Decimal(digits))
    else None
  }

  function Word(words: seq<string>, k: nat, limit: nat): (r: Option<nat>)
    ensures r.Some? ==> r.value < limit
  {
    if k < |words| then ParseUnsigned(words[k], limit) else None
  }

  function LineWords(lines: seq<string>, k: nat): seq<string> {
    if k < |lines| then Words(lines[k]) else []
  }

  // ----- the sections both parsers read -----

  /** Number of gates and of wires. */
  function Header(words: seq<string>): Option<(nat, nat)> {
    match (Word(words, 0, USIZE_LIMIT), Word(words, 1, U32_LIMIT))
    case (Some(g), Some(w)) => Some((g, w))
    case _ => None
  }

  function Sizes(words: seq<string>, k: nat): (r: Option<seq<nat>>)
    ensures r.Some? ==> |r.value| == k && forall i | 0 <= i < k :: r.value[i] < U32_LIMIT
  {
    if k == 0 then Some([])
    else
      match (Sizes(words, k - 1), Word(words, k, U32_LIMIT))
      case (Some(sizes), Some(size)) => Some(sizes + [size])
      case _ => None
  }

  function OutputCount(words: seq<string>): Option<nat> {
    match Word(words, 0, USIZE_LIMIT)
    case Some(groups) => if groups == 1 then Word(words, 1, U32_LIMIT) else None
    case None => None
  }

  datatype Kind = AndKind | XorKind | InvKind

  datatype GateLine = GateLine(arity: nat, in0: nat, in1: nat, out: nat, kind: Kind)

  function KindOf(word: string): Option<Kind> {
    if word == "AND" then Some(AndKind)
    else if word == "XOR" then Some(XorKind)
    else if word == "INV" then Some(InvKind)
    else None
  }

  /** A gate line. The second operand is read when the arity is 2 and is 0 otherwise; the number of
      outputs must be a number but is not looked at. */
  function ReadGateLine(words: seq<string>): (r: Option<GateLine>) {
    match (Word(words, 0, U32_LIMIT), Word(words, 1, U32_LIMIT), Word(words, 2, U32_LIMIT))
    case (Some(arity), Some(_), Some(in0)) =>
      var at := if arity == 2 then 4 else 3;
      (match (if arity == 2 then Word(words, 3, U32_LIMIT) else Some(0), Word(words, at, U32_LIMIT))
       case (Some(in1), Some(out)) =>
         if at + 1 < |words| && KindOf(words[at + 1]).Some?
         then Some(GateLine(arity, in0, in1, out, KindOf(words[at + 1]).value))
         else None
       case _ => None)
    case _ => None
  }

  function TotalSize(sizes: seq<nat>): nat {
    if sizes == [] then 0 else TotalSize(sizes[..|sizes| - 1]) + sizes[|sizes| - 1]
  }

  /** `base, base + 1, ...` */
  function Range(base: nat, n: nat): seq<nat> {
    seq(n, i requires 0 <= i < n => base + i)
  }

  // ----- the library's parser -----

  datatype FileParsingError = InputNoParsingError | FileFormatError(line: nat) | CircuitTooLarge

  function LibrarySizes(words: seq<string>, numWires: nat): Option<seq<nat>> {
    match Word(words, 0, USIZE_LIMIT)
    case None => None
    case Some(groups) =>
      if groups > MAX_BRISTOL_INPUT_GROUPS then None
      else
        match Sizes(words, groups)
        case Some(sizes) => if forall i | 0 <= i < |sizes| :: sizes[i] <= numWires then Some(sizes) else None
        case None => None
  }

  function GroupGates(no: nat, width: nat, base: nat): seq<Gate> {
    seq(width, i requires 0 <= i < width => Input(no, i, base + i))
  }

  /** The input gates of the first `k` groups, on consecutive wires. */
  function InputGates(sizes: seq<nat>, k: nat): (r: seq<Gate>)
    requires k <= |sizes|
    ensures |r| == TotalSize(sizes[..k])
  {
    if k == 0 then []
    else
      assert sizes[..k][..k - 1] == sizes[..k - 1];
      InputGates(sizes, k - 1) + GroupGates(k - 1, sizes[k - 1], TotalSize(sizes[..k - 1]))
  }

  predicate LineInRange(g: GateLine, numWires: nat) {
    g.in0 < numWires && g.out < numWires && (g.arity == 2 ==> g.in1 < numWires)
  }

  function ToGate(g: GateLine, ands: nat): Gate {
    match g.kind
    case AndKind => And(g.in0, g.in1, ands, g.out)
    case XorKind => Xor(g.in0, g.in1, g.out)
    case InvKind => Inv(g.in0, g.out)
  }

  function Line(lines: seq<string>, i: nat): Option<GateLine> {
    ReadGateLine(LineWords(lines, i + 3))
  }

  /** The gates of the first `k` gate lines and their number of AND gates. */
  function ParseGates(lines: seq<string>, numWires: nat, k: nat): Result<(seq<Gate>, nat), FileParsingError> {
    if k == 0 then Ok(([], 0))
    else
      match ParseGates(lines, numWires, k - 1)
      case Err(e) => Err(e)
      case Ok((gates, ands)) =>
        match Line(lines, k - 1)
        case Some(g) =>
          if LineInRange(g, numWires) then Ok((gates + [ToGate(g, ands)], if g.kind == AndKind then ands + 1 else ands))
          else Err(FileFormatError(k - 1))
        case None => Err(FileFormatError(k - 1))
  }

  function IdLists(sizes: seq<nat>): seq<seq<nat>> {
    seq(|sizes|, i requires 0 <= i < |sizes| => Range(0, sizes[i]))
  }

  function ParseLines(lines: seq<string>): Result<BinaryCircuit, FileParsingError> {
    match Header(LineWords(lines, 0))
    case None => Err(InputNoParsingError)
    case Some((numGates, numWires)) =>
      if numGates > MAX_BRISTOL_GATES || numWires > MAX_BRISTOL_WIRES then Err(CircuitTooLarge)
      else
        match LibrarySizes(LineWords(lines, 1), numWires)
        case None => Err(InputNoParsingError)
        case Some(sizes) =>
          match OutputCount(LineWords(lines, 2))
          case None => Err(InputNoParsingError)
          case Some(numOutputs) =>
            if numOutputs > numWires then Err(FileFormatError(0))
            else if TotalSize(sizes) + numGates > MAX_BRISTOL_GATES then Err(CircuitTooLarge)
            else if TotalSize(sizes) > numWires then Err(FileFormatError(0))
            else
              match ParseGates(lines, numWires, numGates)
              case Err(e) => Err(e)
              case Ok((gates, ands)) =>
                Ok(BinaryCircuit(InputGates(sizes, |sizes|) + gates, |sizes|, IdLists(sizes),
                                 Range(numWires - numOutputs, numOutputs), None, None, ands, numWires))
  }

  lemma {:induction false} SumMonotone(sizes: seq<nat>, k: nat)
    requires k <= |sizes|
    ensures TotalSize(sizes[..k]) <= TotalSize(sizes)
    decreases |sizes| - k
  {
    if k == |sizes| {
      assert sizes[..k] == sizes;
    } else {
      SumMonotone(sizes, k + 1);
      assert sizes[..k + 1][..k] == sizes[..k];
    }
  }

  lemma {:induction false} SumBound(sizes: seq<nat>, bound: nat)
    requires forall i | 0 <= i < |sizes| :: sizes[i] <= bound
    ensures TotalSize(sizes) <= |sizes| * bound
  {
    if sizes != [] {
      SumBound(sizes[..|sizes| - 1], bound);
      assert |sizes| * bound == (|sizes| - 1) * bound + bound;
    }
  }

  lemma {:induction false} ParseGatesErr(lines: seq<string>, numWires: nat, k: nat, n: nat)
    requires k <= n && ParseGates(lines, numWires, k).Err?
    ensures ParseGates(lines, numWires, n) == ParseGates(lines, numWires, k)
  {
    hide Line, LineInRange, ToGate;
    if k < n {
      ParseGatesErr(lines, numWires, k, n - 1);
    }
  }

  lemma {:induction false} SizesNone(words: seq<string>, k: nat, n: nat)
    requires k <= n && Sizes(words, k).None?
    ensures Sizes(words, n).None?
  {
    if k < n {
      SizesNone(words, k, n - 1);
    }
  }

  lemma {:induction false} SizesPrefix(words: seq<string>, k: nat, n: nat)
    requires k <= n && Sizes(words, n).Some?
    ensures Sizes(words, k) == Some(Sizes(words, n).value[..k])
  {
    if k < n {
      SizesPrefix(words, k, n - 1);
      assert Sizes(words, n).value[..k] == Sizes(words, n - 1).value[..k];
    } else {
      assert Sizes(words, n).value[..n] == Sizes(words, n).value;
    }
  }

  method ReadSizes(words: seq<string>, numWires: nat) returns (r: Option<seq<nat>>)
    ensures r == LibrarySizes(words, numWires)
  {
    hide ParseUnsigned;
    var groups := Word(words, 0, USIZE_LIMIT);
    if groups.None? || groups.value > MAX_BRISTOL_INPUT_GROUPS {
      return None;
    }
    var sizes: seq<nat> := [];
    for k := 0 to groups.value
      invariant Sizes(words, k) == Some(sizes) && forall i | 0 <= i < |sizes| :: sizes[i] <= numWires
    {
      var size := Word(words, k + 1, U32_LIMIT);
      if size.None? {
        SizesNone(words, k + 1, groups.value);
        return None;
      }
      if size.value > numWires {
        if Sizes(words, groups.value).Some? {
          SizesPrefix(words, k + 1, groups.value);
          assert Sizes(words, groups.value).value[k] == size.value;
        }
        return None;
      }
      sizes := sizes + [size.value];
    }
    r := Some(sizes);
  }

  /** The input loops; the wire counter is checked before every gate. */
  method PushInputs(sizes: seq<nat>, numWires: nat) returns (r: Result<(seq<Gate>, seq<seq<nat>>), FileParsingError>)
    ensures r == if TotalSize(sizes) > numWires then Err(FileFormatError(0)) else Ok((InputGates(sizes, |sizes|), IdLists(sizes)))
  {
    hide TotalSize;
    var gates: seq<Gate> := [];
    var inputGateIds: seq<seq<nat>> := [];
    var totalCount := 0;
    EmptySum();
    assert sizes[..0] == [];
    for no := 0 to |sizes|
      invariant gates == InputGates(sizes, no) && inputGateIds == IdLists(sizes[..no])
      invariant totalCount == TotalSize(sizes[..no]) && totalCount <= numWires
    {
      var ids: seq<nat> := [];
      assert sizes[..no + 1] == sizes[..no] + [sizes[no]];
      SumStep(sizes, no);
      SumMonotone(sizes, no + 1);
      for id := 0 to sizes[no]
        invariant gates == InputGates(sizes, no) + GroupGates(no, id, TotalSize(sizes[..no]))
        invariant ids == Range(0, id) && totalCount == TotalSize(sizes[..no]) + id && totalCount <= numWires
      {
        if totalCount >= numWires {
          return Err(FileFormatError(0));
        }
        gates := gates + [Input(no, id, totalCount)];
        ids := ids + [id];
        totalCount := totalCount + 1;
      }
      inputGateIds := inputGateIds + [ids];
    }
    assert sizes[..|sizes|] == sizes;
    r := Ok((gates, inputGateIds));
  }

  lemma EmptySum()
    ensures TotalSize([]) == 0
  {
  }

  lemma SumStep(sizes: seq<nat>, k: nat)
    requires k < |sizes|
    ensures TotalSize(sizes[..k + 1]) == TotalSize(sizes[..k]) + sizes[k]
  {
    assert sizes[..k + 1][..k] == sizes[..k];
  }

  method Parse(file: string) returns (r: Result<BinaryCircuit, FileParsingError>)
    ensures r == ParseLines(Lines(file))
  {
    hide Header, Sizes, OutputCount, Line, LineInRange, ToGate, TotalSize, InputGates, Lines, LineWords, ParseUnsigned, Word, Range,
         IdLists;
    var lines := Lines(file);
    var header := Header(LineWords(lines, 0));
    if header.None? {
      return Err(InputNoParsingError);
    }
    var (numGates, numWires) := header.value;
    if numGates > MAX_BRISTOL_GATES || numWires > MAX_BRISTOL_WIRES {
      return Err(CircuitTooLarge);
    }
    var inputSizes := ReadSizes(LineWords(lines, 1), numWires);
    if inputSizes.None? {
      return Err(InputNoParsingError);
    }
    var sizes := inputSizes.value;
    var totalInputs := TotalSize(sizes);
    SumBound(sizes, MAX_BRISTOL_WIRES);
    assert totalInputs < U32_LIMIT;
    var numOutputs := OutputCount(LineWords(lines, 2));
    if numOutputs.None? {
      return Err(InputNoParsingError);
    }
    if numOutputs.value > numWires {
      return Err(FileFormatError(0));
    }
    if totalInputs + numGates > MAX_BRISTOL_GATES {
      return Err(CircuitTooLarge);
    }
    var outputs := Range(numWires - numOutputs.value, numOutputs.value);
    var inputs := PushInputs(sizes, numWires);
    if inputs.Err? {
      return Err(inputs.error);
    }
    var gates, ands := inputs.value.0, 0;
    for i := 0 to numGates
      invariant ParseGates(lines, numWires, i).Ok? && ands == ParseGates(lines, numWires, i).value.1
      invariant gates == inputs.value.0 + ParseGates(lines, numWires, i).value.0
    {
      var g := Line(lines, i);
      if g.None? || !LineInRange(g.value, numWires) {
        ParseGatesErr(lines, numWires, i + 1, numGates);
        return Err(FileFormatError(i));
      }
      gates := gates + [ToGate(g.value, ands)];
      ands := if g.value.kind == AndKind then ands + 1 else ands;
    }
    r := Ok(BinaryCircuit(gates, |sizes|, inputs.value.1, outputs, None, None, ands, numWires));
  }

  // ----- the build script's parser -----

  /** A gate as the compact format carries it: input positions and AND ids are left out. */
  datatype CompactGate =
    | CompactInput(no: nat, wire: nat)
    | CompactConst(val: bool, wire: nat)
    | CompactXor(xid: nat, yid: nat, out: nat)
    | CompactAnd(xid: nat, yid: nat, out: nat)
    | CompactInv(xid: nat, out: nat)

  datatype BuildCircuit = BuildCircuit(gates: seq<CompactGate>, inputSizes: seq<nat>, outputGateIds: seq<nat>, numWires: nat)

  datatype BuildError = InvalidHeader | InvalidInputs | InvalidOutputs | InvalidOutputWires | InvalidGate(line: nat)

  function BuildSizes(words: seq<string>): Option<seq<nat>> {
    match Word(words, 0, USIZE_LIMIT)
    case None => None
    case Some(groups) => Sizes(words, groups)
  }

  /** The source stores both numbers as `u32`. */
  function BuildGroup(no: nat, width: nat, base: nat): seq<CompactGate> {
    seq(width, i requires 0 <= i < width => CompactInput(no % U32_LIMIT, (base + i) % U32_LIMIT))
  }

  function BuildInputs(sizes: seq<nat>, k: nat): (r: seq<CompactGate>)
    requires k <= |sizes|
    ensures |r| == TotalSize(sizes[..k])
  {
    if k == 0 then []
    else
      assert sizes[..k][..k - 1] == sizes[..k - 1];
      BuildInputs(sizes, k - 1) + BuildGroup(k - 1, sizes[k - 1], TotalSize(sizes[..k - 1]))
  }

  function ToCompact(g: GateLine): CompactGate {
    match g.kind
    case AndKind => CompactAnd(g.in0, g.in1, g.out)
    case XorKind => CompactXor(g.in0, g.in1, g.out)
    case InvKind => CompactInv(g.in0, g.out)
  }

  function BuildGates(lines: seq<string>, k: nat): Result<seq<CompactGate>, BuildError> {
    if k == 0 then Ok([])
    else
      match BuildGates(lines, k - 1)
      case Err(e) => Err(e)
      case Ok(gates) =>
        match Line(lines, k - 1)
        case Some(g) => Ok(gates + [ToCompact(g)])
        case None => Err(InvalidGate(k - 1 + 4))
  }

  function BuildParseLines(lines: seq<string>): Result<BuildCircuit, BuildError> {
    match Header(LineWords(lines, 0))
    case None => Err(InvalidHeader)
    case Some((numGates, numWires)) =>
      match BuildSizes(LineWords(lines, 1))
      case None => Err(InvalidInputs)
      case Some(sizes) =>
        match OutputCount(LineWords(lines, 2))
        case None => Err(InvalidOutputs)
        case Some(numOutputs) =>
          if numOutputs > numWires then Err(InvalidOutputWires)
          else
            match BuildGates(lines, numGates)
            case Err(e) => Err(e)
            case Ok(gates) =>
              Ok(BuildCircuit(BuildInputs(sizes, |sizes|) + gates, sizes, Range(numWires - numOutputs, numOutputs), numWires))
  }

  lemma {:induction false} BuildGatesErr(lines: seq<string>, k: nat, n: nat)
    requires k <= n && BuildGates(lines, k).Err?
    ensures BuildGates(lines, n) == BuildGates(lines, k)
  {
    hide Line;
    if k < n {
      BuildGatesErr(lines, k, n - 1);
    }
  }

  method ParseBristol(file: string) returns (r: Result<BuildCircuit, BuildError>)
    ensures r == BuildParseLines(Lines(file))
  {
    hide Header, Sizes, OutputCount, Line, ToCompact, TotalSize, Lines, LineWords, ParseUnsigned, Word, Range;
    var lines := Lines(file);
    var header := Header(LineWords(lines, 0));
    if header.None? {
      return Err(InvalidHeader);
    }
    var (numGates, numWires) := header.value;
    var inputSizes := BuildSizes(LineWords(lines, 1));
    if inputSizes.None? {
      return Err(InvalidInputs);
    }
    var sizes := inputSizes.value;
    var numOutputs := OutputCount(LineWords(lines, 2));
    if numOutputs.None? {
      return Err(InvalidOutputs);
    }
    var gates: seq<CompactGate> := [];
    for no := 0 to |sizes|
      invariant gates == BuildInputs(sizes, no)
    {
      assert sizes[..no + 1][..no] == sizes[..no];
      for i := 0 to sizes[no]
        invariant gates == BuildInputs(sizes, no) + BuildGroup(no, i, TotalSize(sizes[..no]))
      {
        gates := gates + [CompactInput(no % U32_LIMIT, |gates| % U32_LIMIT)];
      }
    }
    if numOutputs.value > numWires {
      return Err(InvalidOutputWires);
    }
    var outputs := Range(numWires - numOutputs.value, numOutputs.value);
    for i := 0 to numGates
      invariant BuildGates(lines, i).Ok? && gates == BuildInputs(sizes, |sizes|) + BuildGates(lines, i).value
    {
      var g := Line(lines, i);
      if g.None? {
        BuildGatesErr(lines, i + 1, numGates);
        return Err(InvalidGate(i + 4));
      }
      gates := gates + [ToCompact(g.value)];
    }
    r := Ok(BuildCircuit(gates, sizes, outputs, numWires));
  }
}
