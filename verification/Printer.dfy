/** A printer of Bristol Fashion text, and what the two parsers make of it: the texts that the
    library's parser accepts are those of exactly the circuits described here. */
module Printer {
  import opened Wrappers
  import opened Circuits
  import opened Bristol
  import opened Codec

  // ----- numbers -----

  const DIGITS: string := "0123456789"

  function DecimalText(n: nat): (s: string)
    ensures s != []
  {
    if n < 10 then [DIGITS[n]] else DecimalText(n / 10) + [DIGITS[n % 10]]
  }

  lemma DigitsAreDigits(d: nat)
    requires d < 10
    ensures IsDigit(DIGITS[d]) && DigitValue(DIGITS[d]) == d
  {
  }

  lemma {:induction false} DecimalOfText(n: nat)
    ensures AllDigits(DecimalText(n)) && Decimal(DecimalText(n)) == n
  {
    if n < 10 {
      DigitsAreDigits(n);
      assert [DIGITS[n]][..0] == [];
    } else {
      DecimalOfText(n / 10);
      DigitsAreDigits(n % 10);
      var s := DecimalText(n / 10) + [DIGITS[n % 10]];
      assert s[..|s| - 1] == DecimalText(n / 10);
    }
  }

  function Zeros(z: nat): string {
    seq(z, _ => '0')
  }

  lemma DigitOf(c: char)
    requires IsDigit(c)
    ensures DIGITS[DigitValue(c)] == c
  {
  }

  lemma NextDigit(m: nat, d: nat)
    requires m > 0 && d < 10
    ensures DecimalText(10 * m + d) == DecimalText(m) + [DIGITS[d]]
  {
    assert (10 * m + d) / 10 == m && (10 * m + d) % 10 == d;
  }

  lemma TextSnoc(y: nat, m: nat, d: nat) returns (z: nat)
    requires d < 10
    ensures Zeros(y) + DecimalText(m) + [DIGITS[d]] == Zeros(z) + DecimalText(10 * m + d)
  {
    if m == 0 {
      z := y + 1;
      assert DecimalText(0) == ['0'] && DecimalText(d) == [DIGITS[d]];
      assert Zeros(z) == Zeros(y) + ['0'];
    } else {
      z := y;
      NextDigit(m, d);
      assert Zeros(y) + DecimalText(m) + [DIGITS[d]] == Zeros(y) + (DecimalText(m) + [DIGITS[d]]);
    }
  }

  /** A string of digits is the text of its number behind some zeros. */
  lemma {:induction false} DigitsAreText(s: string) returns (z: nat)
    requires s != [] && AllDigits(s)
    ensures s == Zeros(z) + DecimalText(Decimal(s))
  {
    hide DigitValue, DecimalText, Zeros, Decimal, IsDigit;
    var n := |s| - 1;
    var init, d := s[..n], DigitValue(s[n]);
    DecimalStep(s);
    DigitOf(s[n]);
    assert s == init + [s[n]];
    if n == 0 {
      assert init == [];
      z := 0;
      OneDigit(d);
    } else {
      var y := DigitsAreText(init);
      z := TextSnoc(y, Decimal(init), d);
    }
  }

  lemma DecimalStep(s: string)
    requires s != [] && AllDigits(s)
    ensures var n := |s| - 1;
            AllDigits(s[..n]) && Decimal(s) == 10 * Decimal(s[..n]) + DigitValue(s[n]) && (n == 0 ==> Decimal(s[..n]) == 0)
  {
  }

  lemma OneDigit(d: nat)
    requires d < 10
    ensures Zeros(0) + DecimalText(d) == [DIGITS[d]]
  {
  }

  lemma {:induction false} DecimalOfZeros(z: nat, s: string)
    requires AllDigits(s)
    ensures AllDigits(Zeros(z) + s) && Decimal(Zeros(z) + s) == Decimal(s)
    decreases |s|
  {
    if s == [] {
      ZerosAreZero(z);
      assert Zeros(z) + s == Zeros(z);
    } else {
      var n := |s| - 1;
      var all := Zeros(z) + s;
      DecimalOfZeros(z, s[..n]);
      assert all[..|all| - 1] == Zeros(z) + s[..n] && all[|all| - 1] == s[n];
    }
  }

  lemma {:induction false} ZerosAreZero(z: nat)
    ensures AllDigits(Zeros(z)) && Decimal(Zeros(z)) == 0
  {
    if z > 0 {
      ZerosAreZero(z - 1);
      assert Zeros(z)[..z - 1] == Zeros(z - 1);
    }
  }

  function NumberText(n: nat, zeros: nat, plus: bool): string {
    if plus then ['+'] + (Zeros(zeros) + DecimalText(n)) else Zeros(zeros) + DecimalText(n)
  }

  /** The texts of a number: its decimal digits behind any zeros, and a plus sign if one likes. */
  ghost predicate Writes(s: string, n: nat) {
    exists zeros: nat, plus: bool :: s == NumberText(n, zeros, plus)
  }

  lemma ReadsNumberText(n: nat, zeros: nat, plus: bool, limit: nat)
    ensures ParseUnsigned(NumberText(n, zeros, plus), limit) == if n < limit then Some(n) else None
  {
    hide Decimal;
    DecimalOfText(n);
    DecimalOfZeros(zeros, DecimalText(n));
    var s, digits := NumberText(n, zeros, plus), Zeros(zeros) + DecimalText(n);
    assert IsDigit(digits[0]);
    assert plus ==> s[1..] == digits;
  }

  lemma ReadsDigits(s: string, limit: nat)
    requires ParseUnsigned(s, limit).Some?
    ensures s != []
    ensures var digits := if s[0] == '+' then s[1..] else s;
            digits != [] && AllDigits(digits) && ParseUnsigned(s, limit).value == Decimal(digits)
  {
  }

  /** A number is read exactly from its texts, and only below the limit of its type. */
  lemma ReadsItsTexts(s: string, limit: nat, n: nat)
    ensures ParseUnsigned(s, limit) == Some(n) <==> n < limit && Writes(s, n)
  {
    hide Decimal;
    if ParseUnsigned(s, limit) == Some(n) {
      var plus := s != [] && s[0] == '+';
      var digits := if plus then s[1..] else s;
      ReadsDigits(s, limit);
      var zeros := DigitsAreText(digits);
      assert s == NumberText(n, zeros, plus);
    }
    if n < limit && Writes(s, n) {
      var zeros: nat, plus: bool :| s == NumberText(n, zeros, plus);
      ReadsNumberText(n, zeros, plus, limit);
    }
  }

  lemma ReadsText(n: nat, limit: nat)
    requires n < limit
    ensures ParseUnsigned(DecimalText(n), limit) == Some(n)
  {
    ReadsNumberText(n, 0, false, limit);
    assert NumberText(n, 0, false) == DecimalText(n);
  }

  // ----- words and lines -----

  /** Words with one space between them. */
  function Joined(ws: seq<string>): string {
    if ws == [] then "" else if |ws| == 1 then ws[0] else ws[0] + " " + Joined(ws[1..])
  }

  lemma {:induction false} WordEndOfAll(w: string)
    requires forall i | 0 <= i < |w| :: !IsWhitespace(w[i])
    ensures WordEnd(w) == |w|
  {
    if w != [] {
      WordEndOfAll(w[1..]);
    }
  }

  lemma {:induction false} WordsOfJoined(ws: seq<string>)
    requires forall i | 0 <= i < |ws| :: PlainWord(ws[i])
    ensures Words(Joined(ws)) == ws
  {
    if |ws| == 1 {
      assert PlainWord(ws[0]);
      WordEndOfAll(ws[0]);
      assert ws[0][..|ws[0]|] == ws[0] && ws[0][|ws[0]|..] == [];
      assert Words([]) == [];
    } else if ws != [] {
      WordsOfJoined(ws[1..]);
      var w, rest := ws[0], " " + Joined(ws[1..]);
      assert PlainWord(w) && Joined(ws) == w + rest;
      WordEndAt(w, rest);
      assert (w + rest)[..|w|] == w && (w + rest)[|w|..] == rest;
      assert rest[1..] == Joined(ws[1..]);
    }
  }

  lemma {:induction false} JoinedIsPlain(ws: seq<string>)
    requires forall i | 0 <= i < |ws| :: PlainWord(ws[i])
    ensures PlainLine(Joined(ws)) && forall i | 0 <= i < |Joined(ws)| :: Joined(ws)[i] != '\r'
  {
    if ws != [] {
      assert PlainWord(ws[0]);
      JoinedIsPlain(ws[1..]);
    }
  }

  // ----- circuits -----

  function Texts(ns: seq<nat>): (r: seq<string>)
    ensures |r| == |ns| && forall i | 0 <= i < |ns| :: r[i] == DecimalText(ns[i])
  {
    seq(|ns|, i requires 0 <= i < |ns| => DecimalText(ns[i]))
  }

  function GroupSizes(c: BinaryCircuit): (r: seq<nat>)
    ensures |r| == |c.inputGateIds| && forall n | 0 <= n < |r| :: r[n] == |c.inputGateIds[n]|
  {
    seq(|c.inputGateIds|, n requires 0 <= n < |c.inputGateIds| => |c.inputGateIds[n]|)
  }

  /** Number of input wires. */
  function InputCount(c: BinaryCircuit): nat {
    TotalSize(GroupSizes(c))
  }

  /** "2 1 x y out AND", "2 1 x y out XOR" or "1 1 x out INV". */
  function GateWords(g: Gate): seq<string>
    requires !g.Input? && !g.Constant?
  {
    match g
    case And(x, y, _, out) => ["2", "1", DecimalText(x), DecimalText(y), DecimalText(out), "AND"]
    case Xor(x, y, out) => ["2", "1", DecimalText(x), DecimalText(y), DecimalText(out), "XOR"]
    case Inv(x, out) => ["1", "1", DecimalText(x), DecimalText(out), "INV"]
  }

  /** Circuits that Bristol Fashion text can describe, within the library's limits: the inputs come
      first, group after group on consecutive wires; AND ids count the gates; the outputs are the last
      wires; there are no constants. */
  predicate Printable(c: BinaryCircuit) {
    var n := InputCount(c);
    n <= |c.gates| <= MAX_BRISTOL_GATES && n <= c.numWires <= MAX_BRISTOL_WIRES &&
    |c.inputGateIds| == c.numInputs <= MAX_BRISTOL_INPUT_GROUPS &&
    (forall k | 0 <= k < |c.inputGateIds| :: forall i | 0 <= i < |c.inputGateIds[k]| :: c.inputGateIds[k][i] == i) &&
    (forall k | 0 <= k < |c.inputGateIds| ::
       |c.inputGateIds[k]| <= c.numWires && GroupStands(c, k)) &&
    (forall i | n <= i < |c.gates| :: GateStands(c.gates, c.numWires, i)) &&
    |c.outputGateIds| <= c.numWires &&
    (forall i | 0 <= i < |c.outputGateIds| :: c.outputGateIds[i] == c.numWires - |c.outputGateIds| + i) &&
    c.falseWire == c.trueWire == None && c.numNonfreeGates == CountAnd(c.gates)
  }

  /** Gate `i` is an AND, XOR or INV gate in range, and an AND gate has the next id. */
  predicate GateStands(gates: seq<Gate>, numWires: nat, i: nat)
    requires i < |gates|
  {
    !gates[i].Input? && !gates[i].Constant? && gates[i].InRange(numWires) &&
    (gates[i].And? ==> gates[i].id == CountAnd(gates[..i]))
  }

  /** The gates of input group `k`. */
  predicate GroupStands(c: BinaryCircuit, k: nat)
    requires k < |c.inputGateIds|
  {
    var base := TotalSize(GroupSizes(c)[..k]);
    base + |c.inputGateIds[k]| <= |c.gates| &&
    forall i | base <= i < base + |c.inputGateIds[k]| :: c.gates[i] == Input(k, i - base, i)
  }

  function HeadLines(c: BinaryCircuit): seq<seq<string>>
    requires InputCount(c) <= |c.gates|
  {
    [Texts([|c.gates| - InputCount(c), c.numWires]), Texts([|c.inputGateIds|] + GroupSizes(c)), Texts([1, |c.outputGateIds|])]
  }

  function GateLines(gates: seq<Gate>): (r: seq<seq<string>>)
    requires forall i | 0 <= i < |gates| :: !gates[i].Input? && !gates[i].Constant?
    ensures |r| == |gates| && forall i | 0 <= i < |gates| :: r[i] == GateWords(gates[i])
  {
    seq(|gates|, i requires 0 <= i < |gates| => GateWords(gates[i]))
  }

  /** The words of every line of the text. */
  function PrintedWords(c: BinaryCircuit): seq<seq<string>>
    requires Printable(c)
  {
    ReadableGates(c);
    HeadLines(c) + GateLines(c.gates[InputCount(c)..])
  }

  lemma ReadableGates(c: BinaryCircuit)
    requires Printable(c)
    ensures var rest := c.gates[InputCount(c)..];
            forall i | 0 <= i < |rest| :: !rest[i].Input? && !rest[i].Constant?
  {
    hide TotalSize, GroupStands, CountAnd;
    var n := InputCount(c);
    forall i | 0 <= i < |c.gates[n..]|
      ensures !c.gates[n..][i].Input? && !c.gates[n..][i].Constant?
    {
      assert GateStands(c.gates, c.numWires, n + i);
    }
  }

  function PrintedLines(c: BinaryCircuit): (r: seq<string>)
    requires Printable(c)
    ensures |r| == |PrintedWords(c)| && forall i | 0 <= i < |r| :: r[i] == Joined(PrintedWords(c)[i])
  {
    var ws := PrintedWords(c);
    seq(|ws|, i requires 0 <= i < |ws| => Joined(ws[i]))
  }

  /** The text of a circuit, with either line ending. */
  function Printed(c: BinaryCircuit, crlf: bool): string
    requires Printable(c)
  {
    Terminated(PrintedLines(c), crlf)
  }

  // ----- reading the text back -----

  lemma TextsArePlain(n: nat)
    ensures PlainWord(DecimalText(n))
  {
    DecimalOfText(n);
    forall i | 0 <= i < |DecimalText(n)|
      ensures !IsWhitespace(DecimalText(n)[i])
    {
      assert IsDigit(DecimalText(n)[i]);
    }
  }

  predicate AllPlain(ws: seq<string>) {
    forall i | 0 <= i < |ws| :: PlainWord(ws[i])
  }

  lemma NumbersArePlain(ns: seq<nat>)
    ensures AllPlain(Texts(ns))
  {
    hide PlainWord;
    forall i | 0 <= i < |ns|
      ensures PlainWord(Texts(ns)[i])
    {
      TextsArePlain(ns[i]);
    }
  }

  lemma GateWordsArePlain(g: Gate)
    requires !g.Input? && !g.Constant?
    ensures AllPlain(GateWords(g))
  {
    hide DecimalText;
    match g {
      case And(x, y, _, out) =>
        TextsArePlain(x);
        TextsArePlain(y);
        TextsArePlain(out);
      case Xor(x, y, out) =>
        TextsArePlain(x);
        TextsArePlain(y);
        TextsArePlain(out);
      case Inv(x, out) =>
        TextsArePlain(x);
        TextsArePlain(out);
    }
  }

  lemma PrintedIsPlain(c: BinaryCircuit, i: nat)
    requires Printable(c) && i < |PrintedWords(c)|
    ensures AllPlain(PrintedWords(c)[i])
  {
    hide AllPlain, GateWords, Texts;
    ReadableGates(c);
    NumbersArePlain([|c.gates| - InputCount(c), c.numWires]);
    NumbersArePlain([|c.inputGateIds|] + GroupSizes(c));
    NumbersArePlain([1, |c.outputGateIds|]);
    if i >= 3 {
      GateWordsArePlain(c.gates[InputCount(c)..][i - 3]);
    }
  }

  /** The lines and words of the text are the printed ones. */
  lemma LinesOfPrinted(c: BinaryCircuit, crlf: bool)
    requires Printable(c)
    ensures Lines(Printed(c, crlf)) == PrintedLines(c)
    ensures forall i | 0 <= i < |PrintedWords(c)| :: LineWords(PrintedLines(c), i) == PrintedWords(c)[i]
  {
    hide Printable, PrintedWords, Joined, Words, Lines, PlainWord;
    forall i | 0 <= i < |PrintedLines(c)|
      ensures PlainLine(PrintedLines(c)[i]) && Words(PrintedLines(c)[i]) == PrintedWords(c)[i]
    {
      PrintedIsPlain(c, i);
      JoinedIsPlain(PrintedWords(c)[i]);
      WordsOfJoined(PrintedWords(c)[i]);
    }
    LinesOfTerminated(PrintedLines(c), crlf);
  }

  lemma WordIs(words: seq<string>, k: nat, n: nat, limit: nat)
    requires k < |words| && words[k] == DecimalText(n) && n < limit
    ensures Word(words, k, limit) == Some(n)
  {
    ReadsText(n, limit);
  }

  lemma {:induction false} SizesAre(words: seq<string>, sizes: seq<nat>, k: nat)
    requires k <= |sizes| && words == Texts([|sizes|] + sizes) && forall i | 0 <= i < |sizes| :: sizes[i] < U32_LIMIT
    ensures Sizes(words, k) == Some(sizes[..k])
  {
    hide DecimalText, Word;
    if k > 0 {
      SizesAre(words, sizes, k - 1);
      assert words[k] == DecimalText(sizes[k - 1]);
      WordIs(words, k, sizes[k - 1], U32_LIMIT);
      assert sizes[..k] == sizes[..k - 1] + [sizes[k - 1]];
    }
  }

  /** The three head lines are read back. */
  lemma HeadIsRead(c: BinaryCircuit)
    requires Printable(c)
    ensures var lines := PrintedLines(c);
            Header(LineWords(lines, 0)) == Some((|c.gates| - InputCount(c), c.numWires)) &&
            LibrarySizes(LineWords(lines, 1), c.numWires) == Some(GroupSizes(c)) &&
            OutputCount(LineWords(lines, 2)) == Some(|c.outputGateIds|)
  {
    hide DecimalText, Word, Lines, Words, TotalSize;
    LinesOfPrinted(c, false);
    var head, sizes, outs := PrintedWords(c)[0], PrintedWords(c)[1], PrintedWords(c)[2];
    WordIs(head, 0, |c.gates| - InputCount(c), USIZE_LIMIT);
    WordIs(head, 1, c.numWires, U32_LIMIT);
    WordIs(sizes, 0, |c.inputGateIds|, USIZE_LIMIT);
    SizesAre(sizes, GroupSizes(c), |c.inputGateIds|);
    assert GroupSizes(c)[..|c.inputGateIds|] == GroupSizes(c);
    WordIs(outs, 0, 1, USIZE_LIMIT);
    WordIs(outs, 1, |c.outputGateIds|, U32_LIMIT);
  }

  lemma SmallTexts()
    ensures DecimalText(1) == "1" && DecimalText(2) == "2"
  {
  }

  /** A gate line is read back as its gate. */
  lemma GateIsRead(g: Gate, numWires: nat, ands: nat)
    requires !g.Input? && !g.Constant? && g.InRange(numWires) && numWires <= MAX_BRISTOL_WIRES && (g.And? ==> g.id == ands)
    ensures var line := ReadGateLine(GateWords(g));
            line.Some? && LineInRange(line.value, numWires) && ToGate(line.value, ands) == g && (line.value.kind == AndKind <==> g.And?)
  {
    hide DecimalText, Word;
    SmallTexts();
    var words := GateWords(g);
    match g {
      case And(x, y, _, out) => OperandsAreRead(words, x, y, out);
      case Xor(x, y, out) => OperandsAreRead(words, x, y, out);
      case Inv(x, out) =>
        WordIs(words, 0, 1, U32_LIMIT);
        WordIs(words, 1, 1, U32_LIMIT);
        WordIs(words, 2, x, U32_LIMIT);
        WordIs(words, 3, out, U32_LIMIT);
    }
  }

  lemma OperandsAreRead(words: seq<string>, x: nat, y: nat, out: nat)
    requires |words| == 6 && words[..5] == ["2", "1", DecimalText(x), DecimalText(y), DecimalText(out)]
    requires x < U32_LIMIT && y < U32_LIMIT && out < U32_LIMIT
    ensures Word(words, 0, U32_LIMIT) == Some(2) && Word(words, 1, U32_LIMIT) == Some(1) && Word(words, 2, U32_LIMIT) == Some(x)
    ensures Word(words, 3, U32_LIMIT) == Some(y) && Word(words, 4, U32_LIMIT) == Some(out)
  {
    hide DecimalText, Word;
    SmallTexts();
    forall k | 0 <= k < 5
      ensures words[k] == words[..5][k]
    {
    }
    WordIs(words, 0, 2, U32_LIMIT);
    WordIs(words, 1, 1, U32_LIMIT);
    WordIs(words, 2, x, U32_LIMIT);
    WordIs(words, 3, y, U32_LIMIT);
    WordIs(words, 4, out, U32_LIMIT);
  }

  lemma NextGate(lines: seq<string>, numWires: nat, k: nat, before: seq<Gate>, ands: nat, g: Gate)
    requires k > 0 && ParseGates(lines, numWires, k - 1) == Ok((before, ands))
    requires var line := Line(lines, k - 1);
             line.Some? && LineInRange(line.value, numWires) && ToGate(line.value, ands) == g && (line.value.kind == AndKind <==> g.And?)
    ensures ParseGates(lines, numWires, k) == Ok((before + [g], if g.And? then ands + 1 else ands))
  {
    hide Line, LineInRange, ToGate;
  }

  /** Gate line `i - n` of the text holds gate `i`. */
  lemma LineIsRead(c: BinaryCircuit, i: nat)
    requires Printable(c) && InputCount(c) <= i < |c.gates|
    ensures var line := Line(PrintedLines(c), i - InputCount(c));
            line.Some? && LineInRange(line.value, c.numWires) && ToGate(line.value, CountAnd(c.gates[..i])) == c.gates[i] &&
            (line.value.kind == AndKind <==> c.gates[i].And?)
  {
    hide GateWords, ReadGateLine, LineInRange, ToGate, PrintedLines, TotalSize, GroupStands;
    LinesOfPrinted(c, false);
    assert GateStands(c.gates, c.numWires, i);
    assert PrintedWords(c)[i - InputCount(c) + 3] == GateWords(c.gates[i]);
    GateIsRead(c.gates[i], c.numWires, CountAnd(c.gates[..i]));
  }

  lemma {:induction false} GatesAreRead(c: BinaryCircuit, k: nat)
    requires Printable(c) && InputCount(c) + k <= |c.gates|
    ensures var n := InputCount(c);
            ParseGates(PrintedLines(c), c.numWires, k) == Ok((c.gates[n..n + k], CountAnd(c.gates[..n + k])))
  {
    hide Printable, PrintedLines, Line, LineInRange, ToGate, InputCount, CountAnd, ParseGates;
    var n := InputCount(c);
    if k == 0 {
      NoAndsInInputs(c);
      NoGates(PrintedLines(c), c.numWires);
      assert c.gates[n..n + k] == [] && n + k == n;
    } else {
      GatesAreRead(c, k - 1);
      var i := n + k - 1;
      assert i == n + (k - 1) && n + k == i + 1;
      LineIsRead(c, i);
      NextGate(PrintedLines(c), c.numWires, k, c.gates[n..i], CountAnd(c.gates[..i]), c.gates[i]);
      PrefixStep(c.gates, n, i);
    }
  }

  lemma NoGates(lines: seq<string>, numWires: nat)
    ensures ParseGates(lines, numWires, 0) == Ok(([], 0))
  {
  }

  lemma PrefixStep(gates: seq<Gate>, n: nat, i: nat)
    requires n <= i < |gates|
    ensures CountAnd(gates[..i + 1]) == CountAnd(gates[..i]) + if gates[i].And? then 1 else 0
    ensures gates[n..i + 1] == gates[n..i] + [gates[i]]
  {
    assert gates[..i + 1][..i] == gates[..i];
  }

  lemma {:induction false} InputsAre(c: BinaryCircuit, k: nat)
    requires Printable(c) && k <= |c.inputGateIds|
    ensures var n := TotalSize(GroupSizes(c)[..k]); n <= |c.gates| && InputGates(GroupSizes(c), k) == c.gates[..n]
  {
    hide TotalSize;
    var sizes := GroupSizes(c);
    if k == 0 {
      EmptySum();
      assert sizes[..0] == [];
    } else {
      InputsAre(c, k - 1);
      SumStep(sizes, k - 1);
      assert GroupStands(c, k - 1);
      var base := TotalSize(sizes[..k - 1]);
      assert c.gates[..base + sizes[k - 1]] == c.gates[..base] + GroupGates(k - 1, sizes[k - 1], base);
    }
  }

  lemma AllInputsAre(c: BinaryCircuit)
    requires Printable(c)
    ensures InputGates(GroupSizes(c), |c.inputGateIds|) == c.gates[..InputCount(c)]
  {
    InputsAre(c, |c.inputGateIds|);
    assert GroupSizes(c)[..|c.inputGateIds|] == GroupSizes(c);
  }

  lemma {:induction false} InputGatesAreInputs(sizes: seq<nat>, k: nat)
    requires k <= |sizes|
    ensures forall i | 0 <= i < |InputGates(sizes, k)| :: InputGates(sizes, k)[i].Input?
  {
    if k > 0 {
      InputGatesAreInputs(sizes, k - 1);
    }
  }

  lemma {:induction false} NoAnds(gates: seq<Gate>)
    requires forall i | 0 <= i < |gates| :: gates[i].Input?
    ensures CountAnd(gates) == 0
  {
    if gates != [] {
      NoAnds(gates[..|gates| - 1]);
    }
  }

  lemma NoAndsInInputs(c: BinaryCircuit)
    requires Printable(c)
    ensures CountAnd(c.gates[..InputCount(c)]) == 0
  {
    hide GroupStands, TotalSize;
    AllInputsAre(c);
    InputGatesAreInputs(GroupSizes(c), |c.inputGateIds|);
    NoAnds(c.gates[..InputCount(c)]);
  }

  /** What the head lines and the form of a printable circuit fix. */
  lemma FormIsFixed(c: BinaryCircuit)
    requires Printable(c)
    ensures var n := InputCount(c);
            n <= |c.gates| <= MAX_BRISTOL_GATES && n <= c.numWires <= MAX_BRISTOL_WIRES && |c.outputGateIds| <= c.numWires &&
            c == BinaryCircuit(c.gates[..n] + c.gates[n..], |GroupSizes(c)|, IdLists(GroupSizes(c)),
                               Range(c.numWires - |c.outputGateIds|, |c.outputGateIds|), None, None, CountAnd(c.gates), c.numWires)
  {
    hide TotalSize, GroupStands, CountAnd;
    var n := InputCount(c);
    assert c.gates[..n] + c.gates[n..] == c.gates;
    forall k | 0 <= k < |c.inputGateIds|
      ensures IdLists(GroupSizes(c))[k] == c.inputGateIds[k]
    {
    }
    assert IdLists(GroupSizes(c)) == c.inputGateIds;
    assert Range(c.numWires - |c.outputGateIds|, |c.outputGateIds|) == c.outputGateIds;
  }

  /** The library's parser reads every printable circuit back from its text. */
  lemma ParsesPrinted(c: BinaryCircuit, crlf: bool)
    requires Printable(c)
    ensures ParseLines(Lines(Printed(c, crlf))) == Ok(c)
  {
    hide Printable, PrintedLines, LineWords, Header, LibrarySizes, OutputCount, ParseGates, InputGates, Lines, Printed,
         CountAnd, IdLists, Range;
    var n := InputCount(c);
    FormIsFixed(c);
    LinesOfPrinted(c, crlf);
    HeadIsRead(c);
    GatesAreRead(c, |c.gates| - n);
    AllInputsAre(c);
    assert c.gates[n..n + (|c.gates| - n)] == c.gates[n..] && c.gates[..|c.gates|] == c.gates;
  }

  /** So does the build script's, up to what its format leaves out. */
  lemma BuildParsesPrinted(c: BinaryCircuit, crlf: bool)
    requires Printable(c)
    ensures BuildParseLines(Lines(Printed(c, crlf))) == Ok(Stripped(c))
  {
    hide Printable, ParseLines, BuildParseLines, Lines, Printed, Stripped;
    ParsesPrinted(c, crlf);
    CodecAgreement(Printed(c, crlf));
  }

  // ----- nothing else is accepted -----

  lemma StandsStep(before: seq<Gate>, g: Gate, numWires: nat, i: nat)
    requires i < |before| && GateStands(before, numWires, i)
    ensures GateStands(before + [g], numWires, i)
  {
    assert (before + [g])[..i] == before[..i];
  }

  lemma ParsedGate(lines: seq<string>, numWires: nat, k: nat)
    requires k > 0 && ParseGates(lines, numWires, k).Ok?
    ensures ParseGates(lines, numWires, k - 1).Ok?
    ensures var (before, ands) := ParseGates(lines, numWires, k - 1).value;
            var (gates, ands') := ParseGates(lines, numWires, k).value;
            |gates| == |before| + 1 && gates == before + [gates[|before|]] &&
            var g := gates[|before|];
            !g.Input? && !g.Constant? && g.InRange(numWires) && (g.And? ==> g.id == ands) && ands' == if g.And? then ands + 1 else ands
  {
    hide ReadGateLine;
    LineAgrees(lines, numWires, k - 1);
  }

  lemma {:induction false} ParsedGates(lines: seq<string>, numWires: nat, inputs: seq<Gate>, k: nat)
    requires ParseGates(lines, numWires, k).Ok? && forall i | 0 <= i < |inputs| :: inputs[i].Input?
    ensures var (gates, ands) := ParseGates(lines, numWires, k).value;
            |gates| == k && ands == CountAnd(inputs + gates) &&
            forall i | |inputs| <= i < |inputs + gates| :: GateStands(inputs + gates, numWires, i)
  {
    hide ParseGates, CountAnd, GateStands;
    if k == 0 {
      NoGates(lines, numWires);
      assert inputs + [] == inputs;
      NoAnds(inputs);
    } else {
      ParsedGate(lines, numWires, k);
      ParsedGates(lines, numWires, inputs, k - 1);
      var before, all := inputs + ParseGates(lines, numWires, k - 1).value.0, inputs + ParseGates(lines, numWires, k).value.0;
      var n := |before|;
      assert all == before + [all[n]];
      SnocStands(before, all[n], numWires);
      forall i | |inputs| <= i < n
        ensures GateStands(all, numWires, i)
      {
        StandsStep(before, all[n], numWires, i);
      }
    }
  }

  lemma SnocStands(before: seq<Gate>, g: Gate, numWires: nat)
    requires !g.Input? && !g.Constant? && g.InRange(numWires) && (g.And? ==> g.id == CountAnd(before))
    ensures GateStands(before + [g], numWires, |before|)
    ensures CountAnd(before + [g]) == CountAnd(before) + if g.And? then 1 else 0
  {
    assert (before + [g])[..|before|] == before;
  }

  lemma {:induction false} GroupsStand(sizes: seq<nat>, k: nat, no: nat, i: nat)
    requires no < k <= |sizes| && TotalSize(sizes[..no]) <= i < TotalSize(sizes[..no]) + sizes[no]
    ensures i < |InputGates(sizes, k)| && InputGates(sizes, k)[i] == Input(no, i - TotalSize(sizes[..no]), i)
  {
    hide TotalSize;
    SumStep(sizes, k - 1);
    if no < k - 1 {
      GroupsStand(sizes, k - 1, no, i);
    }
  }

  /** Every circuit that the library's parser returns is printable: whatever the text, what it read is
      within all limits and well formed, and printing it gives a text of the same circuit. */
  lemma ParsedIsPrintable(lines: seq<string>)
    requires ParseLines(lines).Ok?
    ensures Printable(ParseLines(lines).value)
  {
    hide Header, OutputCount, TotalSize, ParseGates, InputGates, Sizes, Word, LineWords;
    var c := ParseLines(lines).value;
    var (numGates, numWires) := Header(LineWords(lines, 0)).value;
    var sizes := LibrarySizes(LineWords(lines, 1), numWires).value;
    var inputs := InputGates(sizes, |sizes|);
    assert GroupSizes(c) == sizes && sizes[..|sizes|] == sizes;
    InputGatesAreInputs(sizes, |sizes|);
    ParsedGates(lines, numWires, inputs, numGates);
    forall k | 0 <= k < |sizes|
      ensures GroupStands(c, k)
    {
      var base := TotalSize(sizes[..k]);
      SumStep(sizes, k);
      SumMonotone(sizes, k + 1);
      forall i | base <= i < base + sizes[k]
        ensures c.gates[i] == Input(k, i - base, i)
      {
        GroupsStand(sizes, |sizes|, k, i);
      }
    }
  }

  /** The circuits of accepted texts are exactly the printable ones. */
  lemma AcceptedIffPrintable(c: BinaryCircuit)
    ensures Printable(c) <==> exists file :: ParseLines(Lines(file)) == Ok(c)
  {
    hide Printable, ParseLines, Lines, Printed;
    if Printable(c) {
      ParsesPrinted(c, false);
    }
    if file :| ParseLines(Lines(file)) == Ok(c) {
      ParsedIsPrintable(Lines(file));
    }
  }

  // ----- the grammar -----

  /** Word `k` of a line is a text of `n`. */
  ghost predicate Says(words: seq<string>, k: nat, n: nat) {
    k < |words| && Writes(words[k], n)
  }

  /** A gate line of arity `a`: the arity, the number of outputs, the operands, the output and the
      kind. The second operand is there only for arity 2; what follows the kind does not matter. */
  ghost predicate DescribesGate(words: seq<string>, g: GateLine) {
    var at := if g.arity == 2 then 4 else 3;
    Says(words, 0, g.arity) && (exists outs: nat | outs < U32_LIMIT :: Says(words, 1, outs)) && Says(words, 2, g.in0) &&
    (if g.arity == 2 then Says(words, 3, g.in1) else g.in1 == 0) && Says(words, at, g.out) &&
    at + 1 < |words| &&
    words[at + 1] == (match g.kind case AndKind => "AND" case XorKind => "XOR" case InvKind => "INV") &&
    g.arity < U32_LIMIT && g.in0 < U32_LIMIT && g.in1 < U32_LIMIT && g.out < U32_LIMIT
  }

  lemma WordSays(words: seq<string>, k: nat, limit: nat, n: nat)
    ensures Word(words, k, limit) == Some(n) <==> Says(words, k, n) && n < limit
  {
    hide ParseUnsigned, Writes;
    if k < |words| {
      ReadsItsTexts(words[k], limit, n);
    }
  }

  lemma WordSaysSome(words: seq<string>, k: nat, limit: nat)
    ensures Word(words, k, limit).Some? <==> exists n: nat | n < limit :: Says(words, k, n)
  {
    hide Word, Says;
    if Word(words, k, limit).Some? {
      WordSays(words, k, limit, Word(words, k, limit).value);
    }
    forall n: nat | n < limit && Says(words, k, n)
      ensures Word(words, k, limit).Some?
    {
      WordSays(words, k, limit, n);
    }
  }

  /** Gate lines are read exactly as described. */
  lemma ReadsGateLineIff(words: seq<string>, g: GateLine)
    ensures ReadGateLine(words) == Some(g) <==> DescribesGate(words, g)
  {
    hide Word, Says;
    WordSays(words, 0, U32_LIMIT, g.arity);
    WordSaysSome(words, 1, U32_LIMIT);
    WordSays(words, 2, U32_LIMIT, g.in0);
    WordSays(words, 3, U32_LIMIT, g.in1);
    WordSays(words, 3, U32_LIMIT, g.out);
    WordSays(words, 4, U32_LIMIT, g.out);
  }

  lemma ReadsHeaderIff(words: seq<string>, gates: nat, wires: nat)
    ensures Header(words) == Some((gates, wires)) <==>
      Says(words, 0, gates) && gates < USIZE_LIMIT && Says(words, 1, wires) && wires < U32_LIMIT
  {
    hide Word, Says;
    WordSays(words, 0, USIZE_LIMIT, gates);
    WordSays(words, 1, U32_LIMIT, wires);
  }

  lemma ReadsOutputsIff(words: seq<string>, outputs: nat)
    ensures OutputCount(words) == Some(outputs) <==> Says(words, 0, 1) && Says(words, 1, outputs) && outputs < U32_LIMIT
  {
    hide Word, Says;
    WordSays(words, 0, USIZE_LIMIT, 1);
    WordSays(words, 1, U32_LIMIT, outputs);
  }

  lemma {:induction false} ReadsSizesIff(words: seq<string>, k: nat, sizes: seq<nat>)
    ensures Sizes(words, k) == Some(sizes) <==>
      |sizes| == k && forall i | 0 <= i < k :: Says(words, i + 1, sizes[i]) && sizes[i] < U32_LIMIT
  {
    hide Word, Says;
    if k > 0 {
      if sizes != [] {
        ReadsSizesIff(words, k - 1, sizes[..|sizes| - 1]);
        WordSays(words, k, U32_LIMIT, sizes[|sizes| - 1]);
        assert sizes == sizes[..|sizes| - 1] + [sizes[|sizes| - 1]];
      }
    }
  }

  /** The input line: the number of groups, at most 64, and their sizes, none above the wires. */
  lemma ReadsInputsIff(words: seq<string>, numWires: nat, sizes: seq<nat>)
    ensures LibrarySizes(words, numWires) == Some(sizes) <==>
      Says(words, 0, |sizes|) && |sizes| <= MAX_BRISTOL_INPUT_GROUPS &&
      forall i | 0 <= i < |sizes| :: Says(words, i + 1, sizes[i]) && sizes[i] < U32_LIMIT && sizes[i] <= numWires
  {
    hide Word, Says, Sizes;
    WordSays(words, 0, USIZE_LIMIT, |sizes|);
    ReadsSizesIff(words, |sizes|, sizes);
    var groups := Word(words, 0, USIZE_LIMIT);
    if groups.Some? && Sizes(words, groups.value).Some? {
      WordSays(words, 0, USIZE_LIMIT, groups.value);
      ReadsSizesIff(words, groups.value, Sizes(words, groups.value).value);
    }
  }

  // ----- which error -----

  /** Everything before the gate lines can be read, and the outputs are among the wires. */
  predicate SectionsRead(lines: seq<string>) {
    Header(LineWords(lines, 0)).Some? &&
    var wires := Header(LineWords(lines, 0)).value.1;
    LibrarySizes(LineWords(lines, 1), wires).Some? && OutputCount(LineWords(lines, 2)).Some? &&
    OutputCount(LineWords(lines, 2)).value <= wires
  }

  predicate CountsTooLarge(lines: seq<string>) {
    Header(LineWords(lines, 0)).Some? &&
    var (gates, wires) := Header(LineWords(lines, 0)).value;
    gates > MAX_BRISTOL_GATES || wires > MAX_BRISTOL_WIRES
  }

  predicate TotalTooLarge(lines: seq<string>)
    requires SectionsRead(lines)
  {
    var (gates, wires) := Header(LineWords(lines, 0)).value;
    TotalSize(LibrarySizes(LineWords(lines, 1), wires).value) + gates > MAX_BRISTOL_GATES
  }

  /** The library calls a text too large for its announced counts or for its inputs and gates
      together, and unreadable for a bad head line; every other error names a gate line or a wire
      count. */
  lemma ErrorKinds(lines: seq<string>)
    ensures ParseLines(lines) == Err(CircuitTooLarge) <==> CountsTooLarge(lines) || (SectionsRead(lines) && TotalTooLarge(lines))
    ensures ParseLines(lines) == Err(InputNoParsingError) <==>
      Header(LineWords(lines, 0)).None? ||
      (!CountsTooLarge(lines) && (LibrarySizes(LineWords(lines, 1), Header(LineWords(lines, 0)).value.1).None? ||
                                  OutputCount(LineWords(lines, 2)).None?))
  {
    hide Header, LibrarySizes, OutputCount, LineWords, TotalSize, ParseGates, InputGates, Range, IdLists;
    if SectionsRead(lines) {
      var (gates, wires) := Header(LineWords(lines, 0)).value;
      FirstBadLine(lines, wires, gates);
    }
  }

  /** The build script names the section it cannot read, in the order in which it reads them. */
  lemma BuildErrorKinds(lines: seq<string>)
    ensures BuildParseLines(lines) == Err(InvalidHeader) <==> Header(LineWords(lines, 0)).None?
    ensures BuildParseLines(lines) == Err(InvalidInputs) <==>
      Header(LineWords(lines, 0)).Some? && BuildSizes(LineWords(lines, 1)).None?
    ensures BuildParseLines(lines) == Err(InvalidOutputs) <==>
      Header(LineWords(lines, 0)).Some? && BuildSizes(LineWords(lines, 1)).Some? && OutputCount(LineWords(lines, 2)).None?
    ensures BuildParseLines(lines) == Err(InvalidOutputWires) <==>
      Header(LineWords(lines, 0)).Some? && BuildSizes(LineWords(lines, 1)).Some? && OutputCount(LineWords(lines, 2)).Some? &&
      OutputCount(LineWords(lines, 2)).value > Header(LineWords(lines, 0)).value.1
  {
    hide Header, BuildSizes, OutputCount, LineWords, BuildGates, BuildInputs, Range;
    if Header(LineWords(lines, 0)).Some? {
      FirstBadBuildLine(lines, Header(LineWords(lines, 0)).value.0);
    }
  }

  // ----- which line is at fault -----

  predicate GoodLine(lines: seq<string>, numWires: nat, i: nat) {
    Line(lines, i).Some? && LineInRange(Line(lines, i).value, numWires)
  }

  lemma GateLineStep(lines: seq<string>, numWires: nat, n: nat)
    requires n > 0
    ensures var before, r := ParseGates(lines, numWires, n - 1), ParseGates(lines, numWires, n);
            if before.Err? then r == before
            else if GoodLine(lines, numWires, n - 1) then r.Ok? else r == Err(FileFormatError(n - 1))
  {
    hide Line, LineInRange, ToGate;
  }

  /** The error of the gate section names the first gate line that is no gate in range. */
  lemma {:induction false} FirstBadLine(lines: seq<string>, numWires: nat, n: nat)
    ensures match ParseGates(lines, numWires, n)
            case Ok(_) => forall i | 0 <= i < n :: GoodLine(lines, numWires, i)
            case Err(FileFormatError(k)) =>
              k < n && !GoodLine(lines, numWires, k) && forall i | 0 <= i < k :: GoodLine(lines, numWires, i)
            case Err(_) => false
  {
    hide GoodLine, ParseGates;
    if n == 0 {
      NoGates(lines, numWires);
    } else {
      FirstBadLine(lines, numWires, n - 1);
      GateLineStep(lines, numWires, n);
    }
  }

  /** The build script counts the lines of the file from one. */
  lemma {:induction false} FirstBadBuildLine(lines: seq<string>, n: nat)
    ensures match BuildGates(lines, n)
            case Ok(_) => forall i | 0 <= i < n :: Line(lines, i).Some?
            case Err(InvalidGate(k)) =>
              4 <= k < n + 4 && Line(lines, k - 4).None? && forall i | 0 <= i < k - 4 :: Line(lines, i).Some?
            case Err(_) => false
  {
    hide Line;
    if n > 0 {
      FirstBadBuildLine(lines, n - 1);
    }
  }
}
