/** Several circuits garbled one after the other into one table that the evaluator cuts up by each
    circuit's gate counts (`src/functionality/circuit_eval.rs`). */
module CircuitBatch {
  import opened Wrappers
  import opened Blocks
  import opened Circuits
  import opened LabelPrfs
  import opened Garbling
  import opened Builder

  /** One circuit with the garblers' false input labels, the evaluator's labels and the bits they
      stand for. */
  datatype Job = Job(c: BinaryCircuit, shares: seq<seq<Block>>, labels: seq<seq<Block>>, bits: seq<seq<bool>>)

  predicate Fine(j: Job) {
    j.c.WiresInRange() && j.c.InputsFit(j.shares)
  }

  /** Length of the circuit's part of the table, as both sides compute it. */
  function Slice(c: BinaryCircuit): nat {
    2 * c.numNonfreeGates + c.NumConstantGates()
  }

  /** For circuits made by the builder these are the blocks the gate loop writes and reads. */
  lemma SliceIsTableLength(c: BinaryCircuit)
    requires BuilderForm(c)
    ensures Slice(c) == TableLength(c.gates)
  {
  }

  datatype Garbled = Garbled(table: seq<Block>, wires: seq<seq<Block>>, prf: PrfState)

  function GarbleMany(jobs: seq<Job>, delta: Block, core: Core, hash: TccrHash, prf: PrfState, k: nat): (r: Garbled)
    requires k <= |jobs| && forall i | 0 <= i < |jobs| :: Fine(jobs[i])
    ensures |r.wires| == k && forall i | 0 <= i < k :: |r.wires[i]| == jobs[i].c.numWires
  {
    if k == 0 then Garbled([], [], prf)
    else
      var g := GarbleMany(jobs, delta, core, hash, prf, k - 1);
      var r := GarbleAll(jobs[k - 1].c, jobs[k - 1].shares, delta, core, hash, g.prf);
      Garbled(g.table + r.f, g.wires + [r.w], r.prf)
  }

  method GarbleJobs(jobs: seq<Job>, setup: GarblerSetup, hash: TccrHash) returns (table: seq<Block>, outs: seq<map<nat, Block>>)
    requires setup.prf.Valid() && forall i | 0 <= i < |jobs| :: Fine(jobs[i])
    modifies setup.prf`wordPos
    ensures setup.prf.Valid()
    ensures var g := GarbleMany(jobs, setup.delta, setup.prf.core, hash, old(setup.prf.State()), |jobs|);
            table == g.table && setup.prf.State() == g.prf && |outs| == |jobs| &&
            forall k | 0 <= k < |jobs| :: Fine(jobs[k]) && outs[k] == OutputMap(g.wires[k], jobs[k].c.outputGateIds)
  {
    hide GarbleAll, OutputMap;
    table, outs := [], [];
    ghost var st := setup.prf.State();
    for k := 0 to |jobs|
      invariant setup.prf.Valid() && |outs| == k
      invariant var g := GarbleMany(jobs, setup.delta, setup.prf.core, hash, st, k);
                table == g.table && setup.prf.State() == g.prf &&
                forall i | 0 <= i < k :: Fine(jobs[i]) && outs[i] == OutputMap(g.wires[i], jobs[i].c.outputGateIds)
    {
      assert Fine(jobs[k]);
      var f, out := Garble(jobs[k].c, jobs[k].shares, setup, hash);
      table, outs := table + f, outs + [out];
    }
  }

  /** The first `k` results and the cursor into the table. */
  function EvalMany(jobs: seq<Job>, table: seq<Block>, hash: TccrHash, k: nat)
    : (r: Result<(seq<map<nat, Block>>, nat), ProtocolError>)
    requires k <= |jobs|
    ensures r.Ok? ==> |r.value.0| == k
  {
    if k == 0 then Ok(([], 0))
    else
      match EvalMany(jobs, table, hash, k - 1)
      case Err(e) => Err(e)
      case Ok((outs, at)) =>
        var end := at + Slice(jobs[k - 1].c);
        if end > |table| then Err(InvalidLength)
        else
          match EvalAll(jobs[k - 1].c, jobs[k - 1].labels, table[at..end], hash)
          case Err(e) => Err(e)
          case Ok(out) => Ok((outs + [out], end))
  }

  lemma {:induction false} EvalManyErr(jobs: seq<Job>, table: seq<Block>, hash: TccrHash, k: nat, n: nat)
    requires k <= n <= |jobs| && EvalMany(jobs, table, hash, k).Err?
    ensures EvalMany(jobs, table, hash, n) == EvalMany(jobs, table, hash, k)
  {
    if k < n {
      EvalManyErr(jobs, table, hash, k, n - 1);
    }
  }

  method EvaluateJobs(jobs: seq<Job>, table: seq<Block>, hash: TccrHash) returns (r: Result<seq<map<nat, Block>>, ProtocolError>)
    ensures match EvalMany(jobs, table, hash, |jobs|)
            case Ok((outs, _)) => r == Ok(outs)
            case Err(e) => r == Err(e)
  {
    hide EvalAll;
    var len := 0;
    var output: seq<map<nat, Block>> := [];
    for k := 0 to |jobs|
      invariant EvalMany(jobs, table, hash, k) == Ok((output, len))
    {
      var end := len + Slice(jobs[k].c);
      if end > |table| {
        EvalManyErr(jobs, table, hash, k + 1, |jobs|);
        return Err(InvalidLength);
      }
      var out := EvaluateGarbled(jobs[k].c, jobs[k].labels, table[len..end], hash);
      if out.Err? {
        EvalManyErr(jobs, table, hash, k + 1, |jobs|);
        return Err(out.error);
      }
      output := output + [out.value];
      len := end;
    }
    r := Ok(output);
  }

  predicate Encoded(j: Job, delta: Block) {
    Fine(j) && j.c.InputsFit(j.labels) && j.c.InputsFit(j.bits) && InputsEncode(j.c, j.shares, j.labels, j.bits, delta)
  }

  /** The result carries the labels of the plain evaluation. */
  predicate Labelled(j: Job, wires: seq<Block>, out: map<nat, Block>, delta: Block) {
    Fine(j) && j.c.InputsFit(j.bits) && |wires| == j.c.numWires && forall i | 0 <= i < |j.c.outputGateIds| ::
      var w := j.c.outputGateIds[i];
      w in out && out[w] == Active(wires[w], Eval(j.c, j.bits)[i], delta)
  }

  lemma {:induction false} TablesGrow(jobs: seq<Job>, delta: Block, core: Core, hash: TccrHash, prf: PrfState, k: nat, n: nat)
    requires k <= n <= |jobs| && forall i | 0 <= i < |jobs| :: Fine(jobs[i])
    ensures GarbleMany(jobs, delta, core, hash, prf, k).table <= GarbleMany(jobs, delta, core, hash, prf, n).table
    ensures GarbleMany(jobs, delta, core, hash, prf, k).wires <= GarbleMany(jobs, delta, core, hash, prf, n).wires
  {
    hide GarbleAll;
    if k < n {
      TablesGrow(jobs, delta, core, hash, prf, k, n - 1);
    }
  }

  /** Every circuit gets its own stretch of the table, and evaluates to the labels of its own plain
      evaluation. */
  lemma {:induction false} BatchCorrect(jobs: seq<Job>, delta: Block, core: Core, hash: TccrHash, prf: PrfState, k: nat)
    requires k <= |jobs| && Lsb(delta) && forall i | 0 <= i < |jobs| :: Fine(jobs[i])
    requires forall i | 0 <= i < |jobs| :: Encoded(jobs[i], delta) && BuilderForm(jobs[i].c)
    ensures var g := GarbleMany(jobs, delta, core, hash, prf, |jobs|);
            var r := EvalMany(jobs, g.table, hash, k);
            r.Ok? && r.value.1 == |GarbleMany(jobs, delta, core, hash, prf, k).table| &&
            forall i | 0 <= i < k :: Labelled(jobs[i], g.wires[i], r.value.0[i], delta)
  {
    hide GarbleAll, EvalAll, BuilderForm, Encoded, Labelled, Fine, Slice;
    if k > 0 {
      BatchCorrect(jobs, delta, core, hash, prf, k - 1);
      OneJob(jobs[k - 1], delta, core, hash, GarbleMany(jobs, delta, core, hash, prf, k - 1).prf);
      OwnStretch(jobs, delta, core, hash, prf, k);
    }
  }

  /** Where the table of job `k - 1` lies in the common table. */
  lemma OwnStretch(jobs: seq<Job>, delta: Block, core: Core, hash: TccrHash, prf: PrfState, k: nat)
    requires 0 < k <= |jobs| && forall i | 0 <= i < |jobs| :: Fine(jobs[i])
    ensures var all := GarbleMany(jobs, delta, core, hash, prf, |jobs|);
            var before := GarbleMany(jobs, delta, core, hash, prf, k - 1);
            var own := GarbleAll(jobs[k - 1].c, jobs[k - 1].shares, delta, core, hash, before.prf);
            var end := |before.table| + |own.f|;
            end == |GarbleMany(jobs, delta, core, hash, prf, k).table| && end <= |all.table| &&
            all.table[|before.table|..end] == own.f && all.wires[k - 1] == own.w
  {
    hide GarbleAll;
    assert Fine(jobs[k - 1]);
    TablesGrow(jobs, delta, core, hash, prf, k, |jobs|);
    var before := GarbleMany(jobs, delta, core, hash, prf, k - 1);
    var own := GarbleAll(jobs[k - 1].c, jobs[k - 1].shares, delta, core, hash, before.prf);
    assert GarbleMany(jobs, delta, core, hash, prf, k).table == before.table + own.f;
  }

  lemma OneJob(j: Job, delta: Block, core: Core, hash: TccrHash, prf: PrfState)
    requires Encoded(j, delta) && BuilderForm(j.c) && Lsb(delta)
    ensures Fine(j)
    ensures var g := GarbleAll(j.c, j.shares, delta, core, hash, prf);
            var r := EvalAll(j.c, j.labels, g.f, hash);
            |g.f| == Slice(j.c) && r.Ok? && Labelled(j, g.w, r.value, delta)
  {
    hide GarbleAll, EvalAll, BuilderForm, InputsEncode;
    SliceIsTableLength(j.c);
    GarbleThenEvaluate(j.c, j.shares, j.labels, j.bits, delta, core, hash, prf, GarbleAll(j.c, j.shares, delta, core, hash, prf).f);
  }

  // ----- one circuit for many inputs -----

  /** The evaluator pairs its inputs with the full chunks of the table, so a short table drops
      inputs without an error. */
  function EvalChunks(c: BinaryCircuit, inputs: seq<seq<seq<Block>>>, fs: seq<Block>, hash: TccrHash)
    : (r: Result<seq<map<nat, Block>>, ProtocolError>)
    decreases |inputs|
  {
    if inputs == [] || |fs| < Slice(c) then Ok([])
    else
      match EvalAll(c, inputs[0], fs[..Slice(c)], hash)
      case Err(e) => Err(e)
      case Ok(out) =>
        match EvalChunks(c, inputs[1..], fs[Slice(c)..], hash)
        case Err(e) => Err(e)
        case Ok(outs) => Ok([out] + outs)
  }

  /** Cutting a table into chunks of no blocks panics. */
  datatype Outcome = Panicked | Returned(result: Result<seq<map<nat, Block>>, ProtocolError>)

  function ChunkedEval(c: BinaryCircuit, inputs: seq<seq<seq<Block>>>, fs: seq<Block>, hash: TccrHash): Outcome {
    if Slice(c) == 0 then Panicked else Returned(EvalChunks(c, inputs, fs, hash))
  }

  function Behind(outs: seq<map<nat, Block>>, r: Result<seq<map<nat, Block>>, ProtocolError>)
    : Result<seq<map<nat, Block>>, ProtocolError>
  {
    match r
    case Err(e) => Err(e)
    case Ok(more) => Ok(outs + more)
  }

  lemma BehindNothing(r: Result<seq<map<nat, Block>>, ProtocolError>)
    ensures Behind([], r) == r
  {
    if r.Ok? {
      assert [] + r.value == r.value;
    }
  }

  method EvaluateChunks(c: BinaryCircuit, inputs: seq<seq<seq<Block>>>, fs: seq<Block>, hash: TccrHash) returns (r: Outcome)
    ensures r == ChunkedEval(c, inputs, fs, hash)
  {
    hide EvalAll;
    var complen := Slice(c);
    if complen == 0 {
      return Panicked;
    }
    var output: seq<map<nat, Block>> := [];
    var k, at := 0, 0;
    assert inputs[0..] == inputs && fs[0..] == fs;
    BehindNothing(EvalChunks(c, inputs, fs, hash));
    while k < |inputs| && at + complen <= |fs|
      invariant k <= |inputs| && at <= |fs|
      invariant EvalChunks(c, inputs, fs, hash) == Behind(output, EvalChunks(c, inputs[k..], fs[at..], hash))
    {
      assert fs[at..][..complen] == fs[at..at + complen] && fs[at..][complen..] == fs[at + complen..];
      assert inputs[k..][0] == inputs[k] && inputs[k..][1..] == inputs[k + 1..];
      var out := EvaluateGarbled(c, inputs[k], fs[at..at + complen], hash);
      if out.Err? {
        return Returned(Err(out.error));
      }
      ghost var rest := EvalChunks(c, inputs[k + 1..], fs[at + complen..], hash);
      assert rest.Ok? ==> output + ([out.value] + rest.value) == output + [out.value] + rest.value;
      output := output + [out.value];
      k, at := k + 1, at + complen;
    }
    assert output + [] == output;
    r := Returned(Ok(output));
  }

  lemma {:induction false} ChunkCount(c: BinaryCircuit, inputs: seq<seq<seq<Block>>>, fs: seq<Block>, hash: TccrHash)
    requires BuilderForm(c) && forall k | 0 <= k < |inputs| :: c.InputsFit(inputs[k])
    ensures var r := EvalChunks(c, inputs, fs, hash);
            r.Ok? && |r.value| <= |inputs| && (|r.value| == |inputs| <==> |inputs| * Slice(c) <= |fs|)
    decreases |inputs|
  {
    hide EvalAll, BuilderForm;
    BuilderFormInlines(c);
    var n := Slice(c);
    if inputs == [] {
      assert |inputs| * n == 0;
    } else {
      assert |inputs| * n == n + |inputs[1..]| * n;
      if n <= |fs| {
        SliceIsTableLength(c);
        EvalOkIff(c, inputs[0], fs[..n], hash);
        ChunkCount(c, inputs[1..], fs[n..], hash);
      }
    }
  }

  /** Every input is evaluated exactly when the circuit needs table blocks at all and the table has
      enough of them; too short a table gives fewer results, never an error. */
  lemma AllChunksIff(c: BinaryCircuit, inputs: seq<seq<seq<Block>>>, fs: seq<Block>, hash: TccrHash)
    requires BuilderForm(c) && forall k | 0 <= k < |inputs| :: c.InputsFit(inputs[k])
    ensures var r := ChunkedEval(c, inputs, fs, hash);
            (r.Returned? <==> Slice(c) > 0) && (r.Returned? ==> r.result.Ok? && |r.result.value| <= |inputs|) &&
            (r.Returned? && r.result.Ok? && |r.result.value| == |inputs| <==> Slice(c) > 0 && |inputs| * Slice(c) <= |fs|)
  {
    hide BuilderForm, EvalChunks;
    ChunkCount(c, inputs, fs, hash);
  }

  /** The inputs of jobs that share one circuit. */
  function LabelsOf(jobs: seq<Job>): (r: seq<seq<seq<Block>>>)
    ensures |r| == |jobs| && forall k | 0 <= k < |jobs| :: r[k] == jobs[k].labels
  {
    seq(|jobs|, k requires 0 <= k < |jobs| => jobs[k].labels)
  }

  /** One slice at the cursor. */
  lemma OneSlice(jobs: seq<Job>, table: seq<Block>, hash: TccrHash, k: nat, outs: seq<map<nat, Block>>, at: nat)
    returns (out: map<nat, Block>)
    requires k < |jobs| && at <= |table| && EvalMany(jobs, table, hash, k) == Ok((outs, at))
    requires EvalMany(jobs, table, hash, |jobs|).Ok?
    ensures at + Slice(jobs[k].c) <= |table|
    ensures EvalAll(jobs[k].c, jobs[k].labels, table[at..at + Slice(jobs[k].c)], hash) == Ok(out)
    ensures EvalMany(jobs, table, hash, k + 1) == Ok((outs + [out], at + Slice(jobs[k].c)))
  {
    hide EvalAll, Slice;
    if EvalMany(jobs, table, hash, k + 1).Err? {
      EvalManyErr(jobs, table, hash, k + 1, |jobs|);
      assert false;
    }
    out := EvalAll(jobs[k].c, jobs[k].labels, table[at..at + Slice(jobs[k].c)], hash).value;
  }

  /** One chunk at the same place. */
  lemma OneChunk(c: BinaryCircuit, inputs: seq<seq<seq<Block>>>, fs: seq<Block>, hash: TccrHash, k: nat, at: nat, out: map<nat, Block>)
    requires k < |inputs| && at + Slice(c) <= |fs| && EvalAll(c, inputs[k], fs[at..at + Slice(c)], hash) == Ok(out)
    ensures EvalChunks(c, inputs[k..], fs[at..], hash) == Behind([out], EvalChunks(c, inputs[k + 1..], fs[at + Slice(c)..], hash))
  {
    hide EvalAll, Slice;
    var n := Slice(c);
    assert fs[at..][..n] == fs[at..at + n] && fs[at..][n..] == fs[at + n..];
    assert inputs[k..][0] == inputs[k] && inputs[k..][1..] == inputs[k + 1..];
  }

  lemma BehindTwice(a: seq<map<nat, Block>>, b: seq<map<nat, Block>>, r: Result<seq<map<nat, Block>>, ProtocolError>)
    ensures Behind(a, Behind(b, r)) == Behind(a + b, r)
  {
    if r.Ok? {
      assert a + (b + r.value) == a + b + r.value;
    }
  }

  /** On a long enough table the chunks are what the running cursor cuts out. */
  lemma {:induction false} ChunksAreSlices(jobs: seq<Job>, c: BinaryCircuit, table: seq<Block>, hash: TccrHash, k: nat,
                                           outs: seq<map<nat, Block>>, at: nat)
    requires (forall i | 0 <= i < |jobs| :: jobs[i].c == c) && k <= |jobs| && at <= |table|
    requires EvalMany(jobs, table, hash, k) == Ok((outs, at)) && EvalMany(jobs, table, hash, |jobs|).Ok?
    ensures Behind(outs, EvalChunks(c, LabelsOf(jobs)[k..], table[at..], hash)) == Ok(EvalMany(jobs, table, hash, |jobs|).value.0)
    decreases |jobs| - k
  {
    hide EvalAll, EvalMany, Slice, Behind;
    if k == |jobs| {
      NoChunks(c, LabelsOf(jobs)[k..], table[at..], hash, outs);
    } else {
      var out := OneSlice(jobs, table, hash, k, outs, at);
      OneChunk(c, LabelsOf(jobs), table, hash, k, at, out);
      ChunksAreSlices(jobs, c, table, hash, k + 1, outs + [out], at + Slice(c));
      BehindTwice(outs, [out], EvalChunks(c, LabelsOf(jobs)[k + 1..], table[at + Slice(c)..], hash));
    }
  }

  lemma NoChunks(c: BinaryCircuit, inputs: seq<seq<seq<Block>>>, fs: seq<Block>, hash: TccrHash, outs: seq<map<nat, Block>>)
    requires inputs == []
    ensures Behind(outs, EvalChunks(c, inputs, fs, hash)) == Ok(outs)
  {
    assert outs + [] == outs;
  }

  lemma NoSlices(jobs: seq<Job>, table: seq<Block>, hash: TccrHash)
    ensures EvalMany(jobs, table, hash, 0) == Ok(([], 0))
  {
  }

  /** One circuit garbled for many inputs: as long as it has a table block at all, every input
      evaluates to the labels of its own plain evaluation. */
  lemma ChunksCorrect(jobs: seq<Job>, c: BinaryCircuit, delta: Block, core: Core, hash: TccrHash, prf: PrfState)
    requires BuilderForm(c) && Slice(c) > 0 && Lsb(delta) && forall i | 0 <= i < |jobs| :: Fine(jobs[i])
    requires forall i | 0 <= i < |jobs| :: jobs[i].c == c && Encoded(jobs[i], delta)
    ensures var g := GarbleMany(jobs, delta, core, hash, prf, |jobs|);
            var r := ChunkedEval(c, LabelsOf(jobs), g.table, hash);
            r.Returned? && r.result.Ok? && |r.result.value| == |jobs| &&
            forall i | 0 <= i < |jobs| :: Labelled(jobs[i], g.wires[i], r.result.value[i], delta)
  {
    hide GarbleMany, EvalMany, EvalChunks, BuilderForm, Encoded, Labelled, Fine, Slice;
    var table := GarbleMany(jobs, delta, core, hash, prf, |jobs|).table;
    BatchCorrect(jobs, delta, core, hash, prf, |jobs|);
    NoSlices(jobs, table, hash);
    ChunksAreSlices(jobs, c, table, hash, 0, [], 0);
    assert LabelsOf(jobs)[0..] == LabelsOf(jobs) && table[0..] == table;
    BehindNothing(EvalChunks(c, LabelsOf(jobs), table, hash));
  }
}
