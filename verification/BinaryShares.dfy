/** Between replicated shares of a bit and Yao shares of it (`src/functionality/b_to_y.rs`,
    `src/functionality/y_to_b.rs`). The commitment scheme and the hash of two blocks are parameters. */
module BinaryShares {
  import opened Wrappers
  import opened Blocks
  import opened LabelPrfs
  import opened Garbling
  import opened Inputs

  type PairHash = (Block, Block) -> Block

  datatype BinaryShare = BinaryShare(value1: bool, value2: bool)

  /** The bit is `x1 ^ x2 ^ x3`; party i holds its own part and the xor with the previous one. */
  predicate Replicated(s0: BinaryShare, s1: BinaryShare, s2: BinaryShare, x: bool) {
    s0.value1 == (s2.value2 != s0.value2) && s1.value1 == (s0.value2 != s1.value2) &&
    s2.value1 == (s1.value2 != s2.value2) && x == ((s0.value2 != s1.value2) != s2.value2)
  }

  // ----- binary to Yao: the garblers -----

  datatype BitDraw = BitDraw(l1: Block, wit2f: Block, l2: Block, wit2t: Block, wit3f: Block, l3: Block, wit3t: Block)

  function DrawShare(core: Core, st: PrfState): (BitDraw, PrfState) {
    var (l1, s1) := DrawBlock(core, st);
    var (wit2f, s2) := DrawBlock(core, s1);
    var (l2, s3) := DrawBlock(core, s2);
    var (wit2t, s4) := DrawBlock(core, s3);
    var (wit3f, s5) := DrawBlock(core, s4);
    var (l3, s6) := DrawBlock(core, s5);
    var (wit3t, s7) := DrawBlock(core, s6);
    (BitDraw(l1, wit2f, l2, wit2t, wit3f, l3, wit3t), s7)
  }

  function DrawShares(core: Core, st: PrfState, n: nat): (r: (seq<BitDraw>, PrfState))
    ensures |r.0| == n
  {
    if n == 0 then ([], st)
    else
      var (ds, s) := DrawShares(core, st, n - 1);
      var (d, s') := DrawShare(core, s);
      (ds + [d], s')
  }

  datatype BitMsg = BitMsg(label1: Block, falseCom: Block, trueCom: Block, decom: (Block, Block), hash: Block)

  /** The opening of part 2 or 3 of the bit, and the commitments to its two labels. */
  function Opening(d: BitDraw, delta: Block, third: bool, x: bool): (Block, Block) {
    if third then (Active(d.l3, x, delta), if x then d.wit3t else d.wit3f)
    else (Active(d.l2, x, delta), if x then d.wit2t else d.wit2f)
  }

  function BitCom(commit: Commit, d: BitDraw, delta: Block, third: bool, x: bool): Block {
    commit(Opening(d, delta, third, x).0, Opening(d, delta, third, x).1)
  }

  /** Party 0 opens part 3 of the bit and hashes the commitments to part 2; party 1 the reverse. */
  function ShareMsg(id: nat, share: BinaryShare, delta: Block, d: BitDraw, commit: Commit, hash: PairHash): BitMsg {
    var other := share.value1 != share.value2;
    var third := id == 0;
    var x1 := if id == 0 then share.value2 else other;
    var x := if id == 0 then other else share.value2;
    BitMsg(Active(d.l1, x1, delta), BitCom(commit, d, delta, third, false), BitCom(commit, d, delta, third, true),
           Opening(d, delta, third, x),
           hash(BitCom(commit, d, delta, !third, false), BitCom(commit, d, delta, !third, true)))
  }

  /** The false label of the whole bit. */
  function ShareLabel(d: BitDraw): Block {
    XorBlocks(XorBlocks(d.l1, d.l2), d.l3)
  }

  method CreateShareMsg(share: BinaryShare, setup: GarblerSetup, commit: Commit, hash: PairHash)
    returns (msg: BitMsg, out: Block, ghost d: BitDraw)
    requires setup.prf.Valid()
    modifies setup.prf`wordPos
    ensures setup.prf.Valid() && (d, setup.prf.State()) == DrawShare(setup.prf.core, old(setup.prf.State()))
    ensures msg == ShareMsg(setup.partyId, share, setup.delta, d, commit, hash) && out == ShareLabel(d)
  {
    var delta := setup.delta;
    var label1f := setup.prf.NextBlock();
    var witness2f := setup.prf.NextBlock();
    var label2f := setup.prf.NextBlock();
    var comm2f := commit(label2f, witness2f);
    var witness2t := setup.prf.NextBlock();
    var label2t := XorBlocks(label2f, delta);
    var comm2t := commit(label2t, witness2t);
    var witness3f := setup.prf.NextBlock();
    var label3f := setup.prf.NextBlock();
    var comm3f := commit(label3f, witness3f);
    var witness3t := setup.prf.NextBlock();
    var label3t := XorBlocks(label3f, delta);
    var comm3t := commit(label3t, witness3t);
    d := BitDraw(label1f, witness2f, label2f, witness2t, witness3f, label3f, witness3t);
    if setup.partyId == 0 {
      var x1, x3 := share.value2, share.value1 != share.value2;
      var label1 := if x1 then XorBlocks(label1f, delta) else label1f;
      msg := BitMsg(label1, comm3f, comm3t, if x3 then (label3t, witness3t) else (label3f, witness3f), hash(comm2f, comm2t));
    } else {
      var x2, x1 := share.value2, share.value1 != share.value2;
      var label1 := if x1 then XorBlocks(label1f, delta) else label1f;
      msg := BitMsg(label1, comm2f, comm2t, if x2 then (label2t, witness2t) else (label2f, witness2f), hash(comm3f, comm3t));
    }
    out := XorBlocks(XorBlocks(label1f, label2f), label3f);
  }

  function ShareMsgs(id: nat, shares: seq<BinaryShare>, delta: Block, ds: seq<BitDraw>, commit: Commit, hash: PairHash)
    : seq<BitMsg>
    requires |ds| <= |shares|
  {
    seq(|ds|, i requires 0 <= i < |ds| => ShareMsg(id, shares[i], delta, ds[i], commit, hash))
  }

  function ShareLabels(ds: seq<BitDraw>): seq<Block> {
    seq(|ds|, i requires 0 <= i < |ds| => ShareLabel(ds[i]))
  }

  method CreateShareMsgs(shares: seq<BinaryShare>, setup: GarblerSetup, commit: Commit, hash: PairHash)
    returns (msgs: seq<BitMsg>, out: seq<Block>)
    requires setup.prf.Valid()
    modifies setup.prf`wordPos
    ensures setup.prf.Valid()
    ensures var (ds, end) := DrawShares(setup.prf.core, old(setup.prf.State()), |shares|);
            msgs == ShareMsgs(setup.partyId, shares, setup.delta, ds, commit, hash) && out == ShareLabels(ds) &&
            setup.prf.State() == end
  {
    hide DrawShare, ShareMsg, ShareLabel;
    msgs, out := [], [];
    ghost var ds: seq<BitDraw> := [];
    ghost var core, st := setup.prf.core, setup.prf.State();
    for k := 0 to |shares|
      invariant setup.prf.Valid() && DrawShares(core, st, k) == (ds, setup.prf.State())
      invariant msgs == ShareMsgs(setup.partyId, shares, setup.delta, ds, commit, hash) && out == ShareLabels(ds)
    {
      ghost var d;
      var msg, lbl;
      msg, lbl, d := CreateShareMsg(shares[k], setup, commit, hash);
      msgs, out := msgs + [msg], out + [lbl];
      ds := ds + [d];
    }
  }

  // ----- binary to Yao: the evaluator -----

  /** The labels of the three parts of the bit. */
  function ProcessShareMsgs(share: BinaryShare, m1: BitMsg, m2: BitMsg, commit: Commit, hash: PairHash)
    : Result<(Block, Block, Block), ProtocolError>
  {
    var x3 := share.value2;
    var x2 := share.value1 != share.value2;
    if m1.label1 != m2.label1 then Err(InconsistentMessage)
    else if hash(m2.falseCom, m2.trueCom) != m1.hash then Err(InvalidShare)
    else if hash(m1.falseCom, m1.trueCom) != m2.hash then Err(InvalidShare)
    else if commit(m2.decom.0, m2.decom.1) != (if x2 then m2.trueCom else m2.falseCom) then Err(CommitmentVerificationFailed)
    else if commit(m1.decom.0, m1.decom.1) != (if x3 then m1.trueCom else m1.falseCom) then Err(CommitmentVerificationFailed)
    else Ok((m1.label1, m2.decom.0, m1.decom.0))
  }

  function EvaluatorShare(share: BinaryShare, m1: BitMsg, m2: BitMsg, commit: Commit, hash: PairHash)
    : Result<Block, ProtocolError>
  {
    match ProcessShareMsgs(share, m1, m2, commit, hash)
    case Err(e) => Err(e)
    case Ok((l1, l2, l3)) => Ok(XorBlocks(XorBlocks(l1, l2), l3))
  }

  lemma ThreeLabels(d: BitDraw, x1: bool, x2: bool, x3: bool, delta: Block)
    ensures XorBlocks(XorBlocks(Active(d.l1, x1, delta), Active(d.l2, x2, delta)), Active(d.l3, x3, delta))
         == Active(ShareLabel(d), (x1 != x2) != x3, delta)
  {
    ActiveXor(d.l1, x1, d.l2, x2, delta);
    ActiveXor(XorBlocks(d.l1, d.l2), x1 != x2, d.l3, x3, delta);
  }

  /** From any replicated sharing the evaluator gets the label of the bit; nothing can fail. */
  lemma HonestBitToYao(s0: BinaryShare, s1: BinaryShare, s2: BinaryShare, x: bool, delta: Block, d: BitDraw,
                       commit: Commit, hash: PairHash)
    requires Replicated(s0, s1, s2, x)
    ensures EvaluatorShare(s2, ShareMsg(0, s0, delta, d, commit, hash), ShareMsg(1, s1, delta, d, commit, hash), commit, hash)
         == Ok(Active(ShareLabel(d), x, delta))
  {
    ThreeLabels(d, s0.value2, s1.value2, s2.value2, delta);
  }

  /** The message breaks neither the hash of the two honest commitments nor their binding. */
  predicate ShareBinds(commit: Commit, hash: PairHash, m: BitMsg, d: BitDraw, delta: Block, third: bool) {
    var f, t := BitCom(commit, d, delta, third, false), BitCom(commit, d, delta, third, true);
    (hash(m.falseCom, m.trueCom) == hash(f, t) ==> m.falseCom == f && m.trueCom == t) &&
    forall x :: NoCollision(commit, m.decom.0, m.decom.1, Opening(d, delta, third, x).0, Opening(d, delta, third, x).1)
  }

  /** With one honest garbler and no collision, an accepted message gives the label of the shared
      bit, whatever the other garbler sent. */
  lemma OneHonestBitToYao(honest: nat, s0: BinaryShare, s1: BinaryShare, s2: BinaryShare, x: bool, delta: Block,
                          d: BitDraw, commit: Commit, hash: PairHash, m: BitMsg)
    requires honest < 2 && Replicated(s0, s1, s2, x) && ShareBinds(commit, hash, m, d, delta, honest == 1)
    ensures var h := ShareMsg(honest, if honest == 0 then s0 else s1, delta, d, commit, hash);
            var r := if honest == 0 then EvaluatorShare(s2, h, m, commit, hash) else EvaluatorShare(s2, m, h, commit, hash);
            r.Ok? ==> r.value == Active(ShareLabel(d), x, delta)
  {
    ThreeLabels(d, s0.value2, s1.value2, s2.value2, delta);
    var third := honest == 1;
    var x23 := if third then s2.value2 else s1.value2;
    assert NoCollision(commit, m.decom.0, m.decom.1, Opening(d, delta, third, x23).0, Opening(d, delta, third, x23).1);
  }

  // ----- Yao to binary -----

  datatype YaoMsg2 = YaoMsg2(com0: Block, com1: Block, wit0: Block, wit1: Block)

  /** Garbler 0's mask: a random bit `y` and a random label for it. */
  function MaskLabel(wyr: Block, y: bool, delta: Block): Block {
    if y then XorBlocks(wyr, delta) else wyr
  }

  function WitnessPair(core: Core, st: PrfState): ((Block, Block), PrfState) {
    var (w0, s1) := DrawBlock(core, st);
    var (w1, s2) := DrawBlock(core, s1);
    ((w0, w1), s2)
  }

  function WitnessPairs(core: Core, st: PrfState, n: nat): (r: (seq<(Block, Block)>, PrfState))
    ensures |r.0| == n
  {
    if n == 0 then ([], st)
    else
      var (ws, s) := WitnessPairs(core, st, n - 1);
      var (w, s') := WitnessPair(core, s);
      (ws + [w], s')
  }

  function MaskedPair(wr0: Block, f: Block, delta: Block): (Block, Block) {
    var wz0 := XorBlocks(wr0, f);
    (wz0, XorBlocks(wz0, delta))
  }

  /** Commitments to the two masked labels, ordered by the low bit of the wire's false label. */
  function YaoCommit(wr0: Block, f: Block, delta: Block, wits: (Block, Block), commit: Commit): YaoMsg2 {
    var (wz0, wz1) := MaskedPair(wr0, f, delta);
    if !Lsb(f) then YaoMsg2(commit(wz0, wits.0), commit(wz1, wits.1), wits.0, wits.1)
    else YaoMsg2(commit(wz1, wits.0), commit(wz0, wits.1), wits.0, wits.1)
  }

  method CreateYaoMsg2(wr0: Block, f: Block, setup: GarblerSetup, commit: Commit)
    returns (msg: YaoMsg2, wz: (Block, Block), ghost wits: (Block, Block))
    requires setup.prf.Valid()
    modifies setup.prf`wordPos
    ensures setup.prf.Valid() && (wits, setup.prf.State()) == WitnessPair(setup.prf.core, old(setup.prf.State()))
    ensures msg == YaoCommit(wr0, f, setup.delta, wits, commit) && wz == MaskedPair(wr0, f, setup.delta)
  {
    var p := Lsb(f);
    var wz0 := XorBlocks(wr0, f);
    var wz1 := XorBlocks(wz0, setup.delta);
    var witness0 := setup.prf.NextBlock();
    var witness1 := setup.prf.NextBlock();
    wits := (witness0, witness1);
    var com0 := if !p then commit(wz0, witness0) else commit(wz1, witness0);
    var com1 := if !p then commit(wz1, witness1) else commit(wz0, witness1);
    msg := YaoMsg2(com0, com1, witness0, witness1);
    wz := (wz0, wz1);
  }

  function YaoCommits(wr0s: seq<Block>, fs: seq<Block>, delta: Block, wits: seq<(Block, Block)>, commit: Commit): seq<YaoMsg2>
    requires |wits| <= |fs| && |wits| <= |wr0s|
  {
    seq(|wits|, i requires 0 <= i < |wits| => YaoCommit(wr0s[i], fs[i], delta, wits[i], commit))
  }

  method CreateYaoMsgs2(wr0s: seq<Block>, fs: seq<Block>, setup: GarblerSetup, commit: Commit) returns (msgs: seq<YaoMsg2>)
    requires setup.prf.Valid() && |wr0s| == |fs|
    modifies setup.prf`wordPos
    ensures setup.prf.Valid()
    ensures var (wits, end) := WitnessPairs(setup.prf.core, old(setup.prf.State()), |fs|);
            msgs == YaoCommits(wr0s, fs, setup.delta, wits, commit) && setup.prf.State() == end
  {
    hide YaoCommit, WitnessPair;
    msgs := [];
    ghost var wits: seq<(Block, Block)> := [];
    ghost var core, st := setup.prf.core, setup.prf.State();
    for k := 0 to |fs|
      invariant setup.prf.Valid() && WitnessPairs(core, st, k) == (wits, setup.prf.State())
      invariant msgs == YaoCommits(wr0s, fs, setup.delta, wits, commit)
    {
      ghost var w;
      var msg, wz;
      msg, wz, w := CreateYaoMsg2(wr0s[k], fs[k], setup, commit);
      msgs := msgs + [msg];
      wits := wits + [w];
    }
  }

  function Garbler0Share(f: Block, y: bool): BinaryShare {
    BinaryShare(Lsb(f) != y, Lsb(f))
  }

  function Garbler1Share(f: Block, shareDelta: Block, delta: Block, wr0: Block, wxz: Block): Result<BinaryShare, ProtocolError> {
    var (wz0, wz1) := MaskedPair(wr0, f, shareDelta);
    if delta != shareDelta then Err(InvalidShare)
    else if wxz != wz0 && wxz != wz1 then Err(InvalidShare)
    else
      var pz := Lsb(wxz) != Lsb(wr0);
      Ok(BinaryShare(pz != Lsb(f), pz))
  }

  function EvaluatorBit(lbl: Block, wyr: Block, y: bool, m0: YaoMsg2, m1: YaoMsg2, commit: Commit)
    : Result<BinaryShare, ProtocolError>
  {
    var wxz := XorBlocks(lbl, wyr);
    var pz := Lsb(lbl) != y;
    if m0 != m1 then Err(InconsistentMessage)
    else if (if pz then commit(wxz, m0.wit1) != m0.com1 else commit(wxz, m0.wit0) != m0.com0)
    then Err(CommitmentVerificationFailed)
    else Ok(BinaryShare(y != pz, y))
  }

  /** The masked label is the one the garblers expect for the masked value. */
  lemma MaskedLabel(f: Block, x: bool, wyr: Block, y: bool, delta: Block)
    ensures var (wz0, wz1) := MaskedPair(MaskLabel(wyr, y, delta), f, delta);
            XorBlocks(Active(f, x, delta), wyr) == if x != y then wz1 else wz0
  {
    var wr0 := MaskLabel(wyr, y, delta);
    ActiveXor(f, x, wyr, false, delta);
    ActiveXor(wyr, y, f, false, delta);
    XorComm(f, wyr);
    assert XorBlocks(wr0, f) == Active(XorBlocks(wyr, f), y, delta);
    ActiveTwice(XorBlocks(wyr, f), y, true, delta);
  }

  /** In an honest run every check passes and the parties hold a replicated sharing of the bit. */
  lemma HonestYaoToBit(f: Block, x: bool, wyr: Block, y: bool, delta: Block, wits: (Block, Block), commit: Commit)
    requires Lsb(delta)
    ensures var lbl, wr0 := Active(f, x, delta), MaskLabel(wyr, y, delta);
            var m := YaoCommit(wr0, f, delta, wits, commit);
            var b1 := Garbler1Share(f, delta, delta, wr0, XorBlocks(lbl, wyr));
            var b2 := EvaluatorBit(lbl, wyr, y, m, m, commit);
            b1.Ok? && b2.Ok? && Replicated(Garbler0Share(f, y), b1.value, b2.value, x)
  {
    MaskedLabel(f, x, wyr, y, delta);
    ActiveLsb(f, x, delta);
    LsbXor(wyr, delta);
    LsbXor(Active(f, x, delta), wyr);
  }

  /** Binary to Yao and back: a replicated sharing of the same bit. */
  lemma BitRoundTrip(s0: BinaryShare, s1: BinaryShare, s2: BinaryShare, x: bool, delta: Block, d: BitDraw,
                     wyr: Block, y: bool, wits: (Block, Block), commit: Commit, hash: PairHash)
    requires Replicated(s0, s1, s2, x) && Lsb(delta)
    ensures var lbl := EvaluatorShare(s2, ShareMsg(0, s0, delta, d, commit, hash), ShareMsg(1, s1, delta, d, commit, hash),
                                      commit, hash);
            lbl.Ok? &&
            var f, wr0 := ShareLabel(d), MaskLabel(wyr, y, delta);
            var m := YaoCommit(wr0, f, delta, wits, commit);
            var b1 := Garbler1Share(f, delta, delta, wr0, XorBlocks(lbl.value, wyr));
            var b2 := EvaluatorBit(lbl.value, wyr, y, m, m, commit);
            b1.Ok? && b2.Ok? && Replicated(Garbler0Share(f, y), b1.value, b2.value, x)
  {
    hide Replicated, EvaluatorShare, YaoCommit, Garbler1Share, EvaluatorBit, ShareLabel, ShareMsg;
    HonestBitToYao(s0, s1, s2, x, delta, d, commit, hash);
    HonestYaoToBit(ShareLabel(d), x, wyr, y, delta, wits, commit);
  }

  /** The opening of the masked label `wxz` does not break the commitments to the wire's two masked
      labels under either witness. */
  predicate MaskBinds(commit: Commit, wxz: Block, wr0: Block, f: Block, delta: Block, wits: (Block, Block)) {
    var (wz0, wz1) := MaskedPair(wr0, f, delta);
    NoCollision(commit, wxz, wits.0, wz0, wits.0) && NoCollision(commit, wxz, wits.0, wz1, wits.0) &&
    NoCollision(commit, wxz, wits.1, wz0, wits.1) && NoCollision(commit, wxz, wits.1, wz1, wits.1)
  }

  /** With one honest garbler and no collision, whatever the other garbler sent, the evaluator accepts
      only labels of the wire, and then the three shares are a replicated sharing of the bit that its
      label stands for. */
  lemma OneHonestYaoToBit(f: Block, lbl: Block, wyr: Block, y: bool, delta: Block, wits: (Block, Block), commit: Commit,
                          honest: nat, m: YaoMsg2)
    requires honest < 2 && Lsb(delta) && MaskBinds(commit, XorBlocks(lbl, wyr), MaskLabel(wyr, y, delta), f, delta, wits)
    ensures var wr0 := MaskLabel(wyr, y, delta);
            var h := YaoCommit(wr0, f, delta, wits, commit);
            var r := if honest == 0 then EvaluatorBit(lbl, wyr, y, h, m, commit) else EvaluatorBit(lbl, wyr, y, m, h, commit);
            r.Ok? ==>
              exists x :: lbl == Active(f, x, delta) &&
                var b1 := Garbler1Share(f, delta, delta, wr0, XorBlocks(lbl, wyr));
                b1.Ok? && Replicated(Garbler0Share(f, y), b1.value, r.value, x)
  {
    hide Replicated, Garbler0Share, Garbler1Share;
    var wr0 := MaskLabel(wyr, y, delta);
    var h := YaoCommit(wr0, f, delta, wits, commit);
    var r := if honest == 0 then EvaluatorBit(lbl, wyr, y, h, m, commit) else EvaluatorBit(lbl, wyr, y, m, h, commit);
    if r.Ok? {
      MaskedLabel(f, y, wyr, y, delta);
      MaskedLabel(f, !y, wyr, y, delta);
      var x := if XorBlocks(lbl, wyr) == MaskedPair(wr0, f, delta).0 then y else !y;
      assert XorBlocks(lbl, wyr) == XorBlocks(Active(f, x, delta), wyr);
      XorCancel(lbl, wyr);
      XorCancel(Active(f, x, delta), wyr);
      HonestYaoToBit(f, x, wyr, y, delta, wits, commit);
    }
  }

  /** Garbler 1 refuses a share made under another offset than its own. */
  lemma ForeignShareRefused(f: Block, shareDelta: Block, delta: Block, wr0: Block, wxz: Block)
    ensures shareDelta != delta ==> Garbler1Share(f, shareDelta, delta, wr0, wxz) == Err(InvalidShare)
  {
  }

  /** Garbler 1 accepts exactly the two labels of the masked wire, so whatever the evaluator sends,
      its share is that of one of the two masked values. */
  lemma Garbler1AcceptsIff(f: Block, wyr: Block, y: bool, delta: Block, wxz: Block)
    requires Lsb(delta)
    ensures var wr0 := MaskLabel(wyr, y, delta);
            var r := Garbler1Share(f, delta, delta, wr0, wxz);
            (r.Ok? <==> exists x :: wxz == XorBlocks(Active(f, x, delta), wyr)) &&
            forall x :: wxz == XorBlocks(Active(f, x, delta), wyr) ==>
              r == Ok(BinaryShare(x != y, (x != y) != Lsb(f)))
  {
    var wr0 := MaskLabel(wyr, y, delta);
    forall x: bool
      ensures var (wz0, wz1) := MaskedPair(wr0, f, delta);
              XorBlocks(Active(f, x, delta), wyr) == (if x != y then wz1 else wz0) &&
              Lsb(XorBlocks(Active(f, x, delta), wyr)) == ((Lsb(f) != x) != Lsb(wyr))
    {
      MaskedLabel(f, x, wyr, y, delta);
      ActiveLsb(f, x, delta);
      LsbXor(Active(f, x, delta), wyr);
    }
    LsbXor(wyr, delta);
    assert wxz == XorBlocks(wr0, f) ==> wxz == XorBlocks(Active(f, y, delta), wyr);
    assert wxz == XorBlocks(XorBlocks(wr0, f), delta) ==> wxz == XorBlocks(Active(f, !y, delta), wyr);
  }
}
