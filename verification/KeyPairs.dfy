/** The protocol that turns Yao shares of a 256-bit number into a replicated key pair
    (`crates/hd-migration/src/yao_to_rss.rs`). Parties 0 and 1 are the garblers, party 2 is the
    evaluator. A curve point is its discrete logarithm. A failed assertion, an inverted zero or a
    point that does not fill its slot in a message is `None`: the identity encodes as one octet
    (section 2.3.3 of SEC 1), and every message of the protocol has room for 33. */
module KeyPairs {
  import opened Wrappers
  import opened Blocks
  import opened Numbers
  import opened PrimeField
  import opened Shamir
  import opened YaoToRss

  const GADGET_POSITIONS: nat := 256

  datatype GarblerTape = GarblerTape(a: int, aStar: int, delta0: int, delta1: int)

  datatype Msg1 = Msg1(cvec: seq<int>, cvecStar: seq<int>, delta2: int, delta0: int)

  datatype GarblerState1 = GarblerState1(
    alpha: int, alphaStar: int, beta: int, betaStar: int, delta0: int, delta1: int, delta2: int)

  datatype Msg2 = Msg2(pkTilde: int, pkTildeStar: int, ski: int, skip2: int)

  datatype EvaluatorState2 = EvaluatorState2(pkTilde: int, sk0: int, sk2: int, delta0: int, delta2: int)

  datatype PointPair = PointPair(pki: int, pkip2: int)

  datatype GarblerState3 = GarblerState3(points: PointPair, pkTilde: int, pkTildeStar: int, ski: int, skip2: int)

  datatype KeyShare = KeyShare(prev: int, next: int, pubkey: int)

  predicate Tape(q: int, t: GarblerTape) {
    Element(q, t.a) && Element(q, t.aStar) && Element(q, t.delta0) && Element(q, t.delta1)
  }

  predicate Encodable(point: int) {
    point != 0
  }

  // ----- the steps -----

  function CreateMsg1(q: int, kdf: Kdf, fs: seq<Block>, delta: Block, t: GarblerTape): Option<(Msg1, GarblerState1)>
    requires q > 1
  {
    if |fs| != GADGET_POSITIONS || t.a == 0 then None
    else
      var (cvec, beta) := GarbleGadgetAfter(q, kdf, fs, delta, t.a, |fs|);
      var (cvecStar, betaStar) := GarbleGadgetAfter(q, kdf, fs, delta, t.aStar, |fs|);
      var delta2 := Sub(q, Mul(q, beta, Invert(q, t.a)), Add(q, t.delta0, t.delta1));
      Some((Msg1(cvec, cvecStar, delta2, t.delta0),
            GarblerState1(t.a, t.aStar, beta, betaStar, t.delta0, t.delta1, delta2)))
  }

  function CreateMsg2(q: int, kdf: Kdf, labels: seq<Block>, fromP1: Msg1, fromP2: Msg1, sk0: int, sk1: int)
    : Option<(Msg2, Msg2, EvaluatorState2)>
    requires q > 1
  {
    if fromP1 != fromP2 || |fromP1.cvec| != |labels| || |fromP1.cvecStar| != |labels| then None
    else
      var sk := EvalGadgetAfter(q, kdf, fromP1.cvec, labels, |labels|);
      var skStar := EvalGadgetAfter(q, kdf, fromP1.cvecStar, labels, |labels|);
      var sk2 := Sub(q, sk, Add(q, sk0, sk1));
      if !Encodable(sk) || !Encodable(skStar) then None
      else Some((Msg2(sk, skStar, sk0, sk1), Msg2(sk, skStar, sk1, sk2),
                 EvaluatorState2(sk, sk0, sk2, fromP1.delta0, fromP1.delta2)))
  }

  function CreateMsg3(ski: int, skip2: int): Option<PointPair> {
    if Encodable(ski) && Encodable(skip2) then Some(PointPair(ski, skip2)) else None
  }

  /** The three equations and the sum that every party checks. */
  predicate PointsAgree(q: int, own: PointPair, pim1: PointPair, pip2: PointPair, pkTilde: int)
    requires q > 1
  {
    own.pki == pim1.pkip2 && own.pkip2 == pip2.pki && pip2.pkip2 == pim1.pki &&
    Add(q, Add(q, own.pki, own.pkip2), pim1.pki) == pkTilde
  }

  function CreateMsg4(q: int, s1: GarblerState1, s3: GarblerState3): Option<int>
    requires q > 1
  {
    if s1.alpha == 0 || s1.alphaStar == 0 then None
    else
      var pk := Mul(q, Sub(q, s3.pkTilde, s1.beta), Invert(q, s1.alpha));
      var pkStar := Mul(q, Sub(q, s3.pkTildeStar, s1.betaStar), Invert(q, s1.alphaStar));
      if pk == pkStar then Some(pk) else None
  }

  function OutputShare(q: int, s: int, alpha: int, delta: int): int
    requires q > 1
  {
    Sub(q, Mul(q, s, Invert(q, alpha)), delta)
  }

  /** A garbler's part after it has received message 2: its own points, those of the other garbler
      and of the evaluator. Party 0 precedes party 1 in the ring, and party 2 precedes party 0. */
  function GarblerFinish(q: int, id: nat, s1: GarblerState1, m: Msg2, own: PointPair, other: PointPair,
                         evaluator: PointPair): Option<KeyShare>
    requires q > 1
  {
    var pim1 := if id == 0 then evaluator else other;
    var pip2 := if id == 0 then other else evaluator;
    if !PointsAgree(q, own, pim1, pip2, m.pkTilde) then None
    else
      match CreateMsg4(q, s1, GarblerState3(own, m.pkTilde, m.pkTildeStar, m.ski, m.skip2))
      case None => None
      case Some(pk) =>
        if id == 0 then Some(KeyShare(OutputShare(q, m.ski, s1.alpha, s1.delta0),
                                      OutputShare(q, m.skip2, s1.alpha, s1.delta1), pk))
        else Some(KeyShare(OutputShare(q, m.ski, s1.alpha, s1.delta1),
                           OutputShare(q, m.skip2, s1.alpha, s1.delta2), pk))
  }

  function EvaluatorFinish(q: int, s2: EvaluatorState2, own: PointPair, p1: PointPair, p2: PointPair, alpha1: int,
                           alpha2: int, pk1: int, pk2: int): Option<KeyShare>
    requires q > 1
  {
    if alpha1 != alpha2 || !PointsAgree(q, own, p2, p1, s2.pkTilde) || !Encodable(pk1) || !Encodable(pk2) ||
       pk1 != pk2 || alpha1 == 0
    then None
    else Some(KeyShare(OutputShare(q, s2.sk2, alpha1, s2.delta2), OutputShare(q, s2.sk0, alpha1, s2.delta0), pk1))
  }

  /** The whole protocol among honest parties. The garblers draw the same tape, as they hold the
      same generator. */
  function Run(q: int, kdf: Kdf, fs: seq<Block>, delta: Block, labels: seq<Block>, t: GarblerTape, sk0: int, sk1: int)
    : Option<(KeyShare, KeyShare, KeyShare)>
    requires q > 1
  {
    match CreateMsg1(q, kdf, fs, delta, t)
    case None => None
    case Some((msg1, s1)) =>
      match CreateMsg2(q, kdf, labels, msg1, msg1, sk0, sk1)
      case None => None
      case Some((m1, m2, s2)) =>
        match (CreateMsg3(m1.ski, m1.skip2), CreateMsg3(m2.ski, m2.skip2), CreateMsg3(s2.sk2, s2.sk0))
        case (Some(p1), Some(p2), Some(p3)) =>
          (match (GarblerFinish(q, 0, s1, m1, p1, p2, p3), GarblerFinish(q, 1, s1, m2, p2, p1, p3))
           case (Some(k1), Some(k2)) =>
             (match EvaluatorFinish(q, s2, p3, p1, p2, s1.alpha, s1.alpha, k1.pubkey, k2.pubkey)
              case Some(k3) => Some((k1, k2, k3))
              case None => None)
           case _ => None)
        case _ => None
  }

  // ----- algebra -----

  lemma ShareValue(q: int, s: int, alpha: int, delta: int)
    requires q > 1
    ensures Eqm(q, OutputShare(q, s, alpha, delta), s * Invert(q, alpha) - delta)
  {
    var i := Invert(q, alpha);
    EqmMod(q, s * i);
    EqmRefl(q, delta);
    EqmSub(q, s * i % q, s * i, delta, delta);
    SubEqm(q, Mul(q, s, i), delta);
    EqmTrans(q, OutputShare(q, s, alpha, delta), Mul(q, s, i) - delta, s * i - delta);
  }

  /** The last additive share is determined by the others. */
  lemma LastShare(q: int, total: int, u: int, v: int)
    requires q > 1
    ensures Eqm(q, u + v + Sub(q, total, Add(q, u, v)), total)
  {
    var w := Sub(q, total, Add(q, u, v));
    AddEqm(q, u, v);
    EqmRefl(q, total);
    EqmSub(q, total, total, Add(q, u, v), u + v);
    SubEqm(q, total, Add(q, u, v));
    EqmTrans(q, w, total - Add(q, u, v), total - (u + v));
    EqmRefl(q, u + v);
    EqmAdd(q, u + v, u + v, w, total - (u + v));
  }

  lemma AddThree(q: int, u: int, v: int, w: int)
    requires q > 1
    ensures Eqm(q, Add(q, Add(q, u, v), w), u + v + w)
  {
    AddEqm(q, u, v);
    EqmRefl(q, w);
    EqmAdd(q, Add(q, u, v), u + v, w, w);
    AddEqm(q, Add(q, u, v), w);
    EqmTrans(q, Add(q, Add(q, u, v), w), Add(q, u, v) + w, u + v + w);
  }

  /** The three points add up to the total in whichever order they are added. */
  lemma AddThreeIs(q: int, u: int, v: int, w: int, total: int)
    requires q > 1 && Element(q, total) && Eqm(q, u + v + w, total)
    ensures Add(q, Add(q, u, v), w) == total
  {
    AddThree(q, u, v, w);
    EqmTrans(q, Add(q, Add(q, u, v), w), u + v + w, total);
    EqmUnique(q, Add(q, Add(q, u, v), w), total);
  }

  lemma ScaleSum(i: int, u: int, v: int, w: int)
    ensures i * (u + v + w) == u * i + v * i + w * i
  {
  }

  /** Unmasking is linear: the three outputs add up to the unmasked total. */
  lemma UnmaskedSum(q: int, alpha: int, beta: int, total: int, u: int, v: int, w: int, d0: int, d1: int)
    requires q > 1 && Eqm(q, u + v + w, total)
    ensures var d2 := Sub(q, Mul(q, beta, Invert(q, alpha)), Add(q, d0, d1));
            Add(q, Add(q, OutputShare(q, u, alpha, d0), OutputShare(q, v, alpha, d1)), OutputShare(q, w, alpha, d2))
            == Mul(q, Sub(q, total, beta), Invert(q, alpha))
  {
    hide OutputShare, Invert;
    var i := Invert(q, alpha);
    var d2 := Sub(q, Mul(q, beta, i), Add(q, d0, d1));
    ghost var a, b, c := OutputShare(q, u, alpha, d0), OutputShare(q, v, alpha, d1), OutputShare(q, w, alpha, d2);
    ShareValue(q, u, alpha, d0);
    ShareValue(q, v, alpha, d1);
    ShareValue(q, w, alpha, d2);
    SumThree(q, a, u * i - d0, b, v * i - d1, c, w * i - d2);
    ScaleSum(i, u, v, w);
    EqmScale(q, i, u + v + w, total);
    LastShare(q, Mul(q, beta, i), d0, d1);
    EqmMod(q, beta * i);
    EqmTrans(q, d0 + d1 + d2, Mul(q, beta, i), beta * i);
    EqmSub(q, i * (u + v + w), i * total, d0 + d1 + d2, beta * i);
    assert u * i - d0 + (v * i - d1) + (w * i - d2) == i * (u + v + w) - (d0 + d1 + d2);
    EqmTrans(q, a + b + c, i * (u + v + w) - (d0 + d1 + d2), i * total - beta * i);
    DistribMinus(i, total, beta);
    SubEqm(q, total, beta);
    EqmScale(q, i, Sub(q, total, beta), total - beta);
    EqmMod(q, Sub(q, total, beta) * i);
    EqmTrans(q, Mul(q, Sub(q, total, beta), i), Sub(q, total, beta) * i, i * (total - beta));
    var pk := Mul(q, Sub(q, total, beta), i);
    EqmSym(q, pk, i * (total - beta));
    EqmTrans(q, a + b + c, i * total - beta * i, pk);
    AddThreeIs(q, a, b, c, pk);
  }

  lemma SumThree(q: int, a: int, a': int, b: int, b': int, c: int, c': int)
    requires Eqm(q, a, a') && Eqm(q, b, b') && Eqm(q, c, c')
    ensures Eqm(q, a + b + c, a' + b' + c')
  {
    EqmAdd(q, a, a', b, b');
    EqmAdd(q, a + b, a' + b', c, c');
  }

  // ----- the honest run -----

  /** The evaluator's value for mask `a` on the number `x`. */
  function Masked(q: int, kdf: Kdf, fs: seq<Block>, delta: Block, a: int, x: nat): int
    requires q > 1
  {
    Add(q, a * x, GarbleGadgetAfter(q, kdf, fs, delta, a, |fs|).1)
  }

  lemma MaskedValue(q: int, kdf: Kdf, fs: seq<Block>, delta: Block, a: int, labels: seq<Block>, bits: seq<bool>)
    requires q > 1 && Lsb(delta) && Encodes(fs, labels, bits, delta)
    ensures var (cvec, b) := GarbleGadgetAfter(q, kdf, fs, delta, a, |fs|);
            |cvec| == |fs| && Element(q, b) &&
            EvalGadgetAfter(q, kdf, cvec, labels, |fs|) == Masked(q, kdf, fs, delta, a, Num(bits))
  {
    GadgetCorrect(q, kdf, fs, delta, a, labels, bits);
    var (cvec, b) := GarbleGadgetAfter(q, kdf, fs, delta, a, |fs|);
    var z := EvalGadgetAfter(q, kdf, cvec, labels, |fs|);
    AddEqm(q, a * Num(bits), b);
    EqmSym(q, Add(q, a * Num(bits), b), a * Num(bits) + b);
    EqmTrans(q, z, a * Num(bits) + b, Masked(q, kdf, fs, delta, a, Num(bits)));
    EqmUnique(q, z, Masked(q, kdf, fs, delta, a, Num(bits)));
  }

  /** Removing the mask in the exponent gives the public key of the number. */
  lemma UnmaskedKey(q: int, kdf: Kdf, fs: seq<Block>, delta: Block, a: int, x: nat)
    requires Prime(q) && 0 < a < q
    ensures var b := GarbleGadgetAfter(q, kdf, fs, delta, a, |fs|).1;
            Mul(q, Sub(q, Masked(q, kdf, fs, delta, a, x), b), Invert(q, a)) == x % q
  {
    var b := GarbleGadgetAfter(q, kdf, fs, delta, a, |fs|).1;
    var z := Masked(q, kdf, fs, delta, a, x);
    AddEqm(q, a * x, b);
    DecodeCorrect(q, a, b, z, x);
    Commute(Invert(q, a), Sub(q, z, b));
  }

  lemma Commute(x: int, y: int)
    ensures x * y == y * x
  {
  }

  /** The random values for which an honest run goes through: nonzero masks, and no point that is
      the identity. */
  predicate Usable(q: int, kdf: Kdf, fs: seq<Block>, delta: Block, x: nat, t: GarblerTape, sk0: int, sk1: int)
    requires q > 1
  {
    var sk := Masked(q, kdf, fs, delta, t.a, x);
    t.a != 0 && t.aStar != 0 && sk0 != 0 && sk1 != 0 && Add(q, sk0, sk1) != sk && sk != 0 &&
    Masked(q, kdf, fs, delta, t.aStar, x) != 0 && x % q != 0
  }

  /** A replicated key pair of `x`: neighbours share a value, the three values add up to `x`, and
      everybody holds the public key of `x`. */
  predicate IsKeyPair(q: int, k1: KeyShare, k2: KeyShare, k3: KeyShare, x: int)
    requires q > 1
  {
    k1.next == k2.prev && k2.next == k3.prev && k3.next == k1.prev &&
    Add(q, Add(q, k1.prev, k1.next), k2.next) == x % q &&
    k1.pubkey == k2.pubkey == k3.pubkey == x % q
  }

  lemma SharesZeroIff(q: int, total: int, u: int, v: int)
    requires q > 1 && Element(q, total)
    ensures Sub(q, total, Add(q, u, v)) == 0 <==> Add(q, u, v) == total
  {
    var s, w := Add(q, u, v), Sub(q, total, Add(q, u, v));
    SubEqm(q, total, s);
    if w == 0 {
      EqmRefl(q, s);
      EqmAdd(q, 0, total - s, s, s);
      EqmUnique(q, s, total);
    }
  }

  /** The honest garbler's and evaluator's first two messages. */
  lemma HonestOpening(q: int, kdf: Kdf, fs: seq<Block>, delta: Block, labels: seq<Block>, bits: seq<bool>,
                      t: GarblerTape, sk0: int, sk1: int)
    requires Prime(q) && Lsb(delta) && Encodes(fs, labels, bits, delta) && |fs| == GADGET_POSITIONS
    requires Tape(q, t) && t.a != 0
    ensures var x := Num(bits);
            var sk := Masked(q, kdf, fs, delta, t.a, x);
            var skStar := Masked(q, kdf, fs, delta, t.aStar, x);
            var sk2 := Sub(q, sk, Add(q, sk0, sk1));
            var b := GarbleGadgetAfter(q, kdf, fs, delta, t.a, |fs|).1;
            var bStar := GarbleGadgetAfter(q, kdf, fs, delta, t.aStar, |fs|).1;
            var d2 := Sub(q, Mul(q, b, Invert(q, t.a)), Add(q, t.delta0, t.delta1));
            var m := CreateMsg1(q, kdf, fs, delta, t);
            m.Some? && m.value.1 == GarblerState1(t.a, t.aStar, b, bStar, t.delta0, t.delta1, d2) &&
            CreateMsg2(q, kdf, labels, m.value.0, m.value.0, sk0, sk1) ==
              if sk == 0 || skStar == 0 then None
              else Some((Msg2(sk, skStar, sk0, sk1), Msg2(sk, skStar, sk1, sk2),
                         EvaluatorState2(sk, sk0, sk2, t.delta0, d2)))
  {
    hide GarbleGadgetAfter, EvalGadgetAfter, Invert, Num, Masked;
    MaskedValue(q, kdf, fs, delta, t.a, labels, bits);
    MaskedValue(q, kdf, fs, delta, t.aStar, labels, bits);
  }

  /** What both garblers and the evaluator compute once the messages are out. */
  lemma HonestFinish(q: int, s1: GarblerState1, m1: Msg2, m2: Msg2, s2: EvaluatorState2, x: nat)
    requires Prime(q) && 0 < s1.alpha < q && Element(q, s1.alphaStar)
    requires s1.delta2 == Sub(q, Mul(q, s1.beta, Invert(q, s1.alpha)), Add(q, s1.delta0, s1.delta1))
    requires Element(q, m1.pkTilde) && m1.skip2 == m2.ski && m1.pkTilde == m2.pkTilde && m1.pkTildeStar == m2.pkTildeStar
    requires m2.skip2 == Sub(q, m1.pkTilde, Add(q, m1.ski, m1.skip2))
    requires s2 == EvaluatorState2(m1.pkTilde, m1.ski, m2.skip2, s1.delta0, s1.delta2)
    requires Mul(q, Sub(q, m1.pkTilde, s1.beta), Invert(q, s1.alpha)) == x % q
    requires s1.alphaStar != 0 ==> Mul(q, Sub(q, m1.pkTildeStar, s1.betaStar), Invert(q, s1.alphaStar)) == x % q
    ensures var p1, p2, p3 := PointPair(m1.ski, m1.skip2), PointPair(m2.ski, m2.skip2), PointPair(s2.sk2, s2.sk0);
            var k1 := GarblerFinish(q, 0, s1, m1, p1, p2, p3);
            var k2 := GarblerFinish(q, 1, s1, m2, p2, p1, p3);
            (k1.Some? <==> s1.alphaStar != 0) && (k2.Some? <==> s1.alphaStar != 0) &&
            (s1.alphaStar != 0 ==>
               k1.value.pubkey == k2.value.pubkey == x % q &&
               var k3 := EvaluatorFinish(q, s2, p3, p1, p2, s1.alpha, s1.alpha, x % q, x % q);
               (k3.Some? <==> x % q != 0) && (k3.Some? ==> IsKeyPair(q, k1.value, k2.value, k3.value, x)))
  {
    hide OutputShare, Invert;
    var u, v, w := m1.ski, m1.skip2, m2.skip2;
    LastShare(q, m1.pkTilde, u, v);
    AddThreeIs(q, u, v, w, m1.pkTilde);
    assert v + w + u == u + v + w == w + u + v;
    AddThreeIs(q, v, w, u, m1.pkTilde);
    AddThreeIs(q, w, u, v, m1.pkTilde);
    UnmaskedSum(q, s1.alpha, s1.beta, m1.pkTilde, u, v, w, s1.delta0, s1.delta1);
  }

  /** An honest run goes through exactly when the random values are usable, and then it ends in a
      replicated key pair of the number whose bits the labels encode. */
  lemma HonestRun(q: int, kdf: Kdf, fs: seq<Block>, delta: Block, labels: seq<Block>, bits: seq<bool>,
                  t: GarblerTape, sk0: int, sk1: int)
    requires Prime(q) && Lsb(delta) && Encodes(fs, labels, bits, delta) && |fs| == GADGET_POSITIONS
    requires Tape(q, t) && Element(q, sk0) && Element(q, sk1)
    ensures var run := Run(q, kdf, fs, delta, labels, t, sk0, sk1);
            (run.Some? <==> Usable(q, kdf, fs, delta, Num(bits), t, sk0, sk1)) &&
            (run.Some? ==> IsKeyPair(q, run.value.0, run.value.1, run.value.2, Num(bits)))
  {
    hide GarbleGadgetAfter, EvalGadgetAfter, Invert, Num, Masked, OutputShare, GarblerFinish, EvaluatorFinish, IsKeyPair;
    if t.a != 0 {
      HonestOpening(q, kdf, fs, delta, labels, bits, t, sk0, sk1);
      var x := Num(bits);
      MaskedElement(q, kdf, fs, delta, t.a, x);
      var (m, s1) := CreateMsg1(q, kdf, fs, delta, t).value;
      var msgs := CreateMsg2(q, kdf, labels, m, m, sk0, sk1);
      if msgs.Some? {
        var (m1, m2, s2) := msgs.value;
        SharesZeroIff(q, m1.pkTilde, sk0, sk1);
        UnmaskedKey(q, kdf, fs, delta, t.a, x);
        if t.aStar != 0 {
          UnmaskedKey(q, kdf, fs, delta, t.aStar, x);
        }
        HonestFinish(q, s1, m1, m2, s2, x);
      }
    }
  }

  lemma MaskedElement(q: int, kdf: Kdf, fs: seq<Block>, delta: Block, a: int, x: nat)
    requires q > 1
    ensures Element(q, Masked(q, kdf, fs, delta, a, x))
  {
  }

  // ----- an arbitrary evaluator -----

  /** Whatever the evaluator sends, two garblers that accept hold the same public key, agree on the
      value they share, and together with the second garbler's other value hold its secret key. */
  lemma AcceptedSharesMatchKey(q: int, s1: GarblerState1, m1: Msg2, m2: Msg2, n1: PointPair, n2: PointPair)
    requires q > 1
    requires s1.delta2 == Sub(q, Mul(q, s1.beta, Invert(q, s1.alpha)), Add(q, s1.delta0, s1.delta1))
    requires Element(q, m1.pkTilde) && Element(q, m2.pkTilde)
    ensures var p1, p2 := PointPair(m1.ski, m1.skip2), PointPair(m2.ski, m2.skip2);
            var k1 := GarblerFinish(q, 0, s1, m1, p1, p2, n1);
            var k2 := GarblerFinish(q, 1, s1, m2, p2, p1, n2);
            k1.Some? && k2.Some? ==>
              k1.value.next == k2.value.prev && k1.value.pubkey == k2.value.pubkey &&
              Add(q, Add(q, k1.value.prev, k1.value.next), k2.value.next) == k1.value.pubkey
  {
    hide OutputShare, Invert;
    var p1, p2 := PointPair(m1.ski, m1.skip2), PointPair(m2.ski, m2.skip2);
    var k1 := GarblerFinish(q, 0, s1, m1, p1, p2, n1);
    var k2 := GarblerFinish(q, 1, s1, m2, p2, p1, n2);
    if k1.Some? && k2.Some? {
      var u, v, w := m1.ski, m1.skip2, m2.skip2;
      AddThree(q, u, v, w);
      AddThree(q, v, w, u);
      EqmSym(q, m1.pkTilde, u + v + w);
      assert v + w + u == u + v + w;
      EqmTrans(q, m2.pkTilde, u + v + w, m1.pkTilde);
      EqmUnique(q, m2.pkTilde, m1.pkTilde);
      UnmaskedSum(q, s1.alpha, s1.beta, m1.pkTilde, u, v, w, s1.delta0, s1.delta1);
    }
  }

  /** A nonzero factor keeps different numbers apart. */
  lemma CancelMask(q: int, a: int, x: int, y: int)
    requires Prime(q) && 0 < a < q && Eqm(q, a * x, a * y)
    ensures Eqm(q, x, y)
  {
    InvertCorrect(q, a);
    CancelStep(q, a, Invert(q, a), x, y);
  }

  lemma MulEqm(q: int, x: int, y: int)
    requires q > 1
    ensures Eqm(q, Mul(q, x, y), x * y)
  {
    EqmMod(q, x * y);
  }

  /** What unmasking a value that is off by `e` gives, times the mask. */
  lemma UnmaskedShift(q: int, a: int, b: int, x: int, e: int, z: int)
    requires Prime(q) && 0 < a < q && Eqm(q, z, a * x + b + e)
    ensures Eqm(q, a * Mul(q, Sub(q, z, b), Invert(q, a)), a * x + e)
  {
    hide Invert, Mul, Sub, Eqm, Prime;
    assert q > 1;
    var i, d := Invert(q, a), Sub(q, z, b);
    InvertCorrect(q, a);
    MulEqm(q, d, i);
    EqmScale(q, a, Mul(q, d, i), d * i);
    EqmScale(q, d, a * i, 1);
    Swap(a, d, i);
    EqmTrans(q, a * Mul(q, d, i), d * (a * i), d * 1);
    SubEqm(q, z, b);
    EqmRefl(q, b);
    var v := a * x;
    EqmSub(q, z, v + b + e, b, b);
    EqmTrans(q, d, z - b, v + e);
    EqmTrans(q, a * Mul(q, d, i), d, v + e);
  }

  /** The evaluator's value for mask `a`, off by `e`. */
  predicate ShiftedBy(q: int, kdf: Kdf, fs: seq<Block>, delta: Block, a: int, x: nat, e: int, z: int)
    requires q > 1
  {
    z == Add(q, Masked(q, kdf, fs, delta, a, x), e)
  }

  lemma ShiftedValue(q: int, kdf: Kdf, fs: seq<Block>, delta: Block, a: int, x: nat, e: int, z: int)
    requires Prime(q) && 0 < a < q && ShiftedBy(q, kdf, fs, delta, a, x, e, z)
    ensures var b := GarbleGadgetAfter(q, kdf, fs, delta, a, |fs|).1;
            Eqm(q, a * Mul(q, Sub(q, z, b), Invert(q, a)), a * x + e)
  {
    hide Invert;
    var b, v := GarbleGadgetAfter(q, kdf, fs, delta, a, |fs|).1, Masked(q, kdf, fs, delta, a, x);
    AddEqm(q, a * x, b);
    AddEqm(q, v, e);
    EqmRefl(q, e);
    EqmAdd(q, v, a * x + b, e, e);
    EqmTrans(q, z, v + e, a * x + b + e);
    UnmaskedShift(q, a, b, x, e, z);
  }

  lemma CrossScale(q: int, a: int, c: int, p: int, x: int, e: int, d: int)
    requires Eqm(q, a * p, a * x + e) && Eqm(q, c * p, c * x + d)
    ensures Eqm(q, e * c, d * a)
  {
    EqmScale(q, c, a * p, a * x + e);
    EqmScale(q, a, c * p, c * x + d);
    assert c * (a * p) == a * (c * p);
    assert c * (a * x + e) == a * (c * x) + e * c by {
      assert c * (a * x) == a * (c * x);
    }
    assert a * (c * x + d) == a * (c * x) + d * a;
    EqmSym(q, c * (a * p), a * (c * x) + e * c);
    EqmTrans(q, a * (c * x) + e * c, c * (a * p), a * (c * x) + d * a);
    EqmRefl(q, a * (c * x));
    EqmSub(q, a * (c * x) + e * c, a * (c * x) + d * a, a * (c * x), a * (c * x));
  }

  /** The check of the two unmasked keys: whatever the evaluator adds to its two values, a garbler
      accepts only shifts in the ratio of the two masks, and if the starred value is right the public
      key is that of the number. */
  lemma ShiftsMustMatch(q: int, kdf: Kdf, fs: seq<Block>, delta: Block, t: GarblerTape, x: nat, e: int, eStar: int,
                        id: nat, m: Msg2, own: PointPair, other: PointPair, evaluator: PointPair)
    requires Prime(q) && Tape(q, t) && t.a != 0 && t.aStar != 0 && |fs| == GADGET_POSITIONS
    requires ShiftedBy(q, kdf, fs, delta, t.a, x, e, m.pkTilde) && ShiftedBy(q, kdf, fs, delta, t.aStar, x, eStar, m.pkTildeStar)
    ensures var s1 := CreateMsg1(q, kdf, fs, delta, t).value.1;
            var k := GarblerFinish(q, id, s1, m, own, other, evaluator);
            k.Some? ==>
              (e * t.aStar) % q == (eStar * t.a) % q && Eqm(q, t.a * k.value.pubkey, t.a * x + e) &&
              (eStar % q == 0 ==> k.value.pubkey == x % q)
  {
    hide Invert, Masked, GarbleGadgetAfter, OutputShare, PointsAgree, Sub, Mul;
    var s1 := CreateMsg1(q, kdf, fs, delta, t).value.1;
    var k := GarblerFinish(q, id, s1, m, own, other, evaluator);
    ShiftedValue(q, kdf, fs, delta, t.a, x, e, m.pkTilde);
    ShiftedValue(q, kdf, fs, delta, t.aStar, x, eStar, m.pkTildeStar);
    if k.Some? {
      var pk := k.value.pubkey;
      CrossScale(q, t.a, t.aStar, pk, x, e, eStar);
      EqmReduced(q, e * t.aStar, eStar * t.a);
      if eStar % q == 0 {
        KeyOfUnshifted(q, t.aStar, pk, x, eStar);
      }
    }
  }

  lemma KeyOfUnshifted(q: int, a: int, pk: int, x: nat, e: int)
    requires Prime(q) && 0 < a < q && Element(q, pk) && Eqm(q, a * pk, a * x + e) && e % q == 0
    ensures pk == x % q
  {
    EqmMod(q, e);
    EqmSym(q, 0, e);
    EqmRefl(q, a * x);
    EqmAdd(q, a * x, a * x, e, 0);
    EqmTrans(q, a * pk, a * x + e, a * x);
    CancelMask(q, a, pk, x);
    EqmMod(q, x);
    EqmSym(q, x % q, x);
    EqmTrans(q, pk, x, x % q);
    EqmUnique(q, pk, x % q);
  }

  /** The three parties' points agree exactly when they are one triple of points that adds up to the
      total, each party holding its own two. */
  lemma PointsAgreeIff(q: int, own: PointPair, pim1: PointPair, pip2: PointPair, total: int)
    requires q > 1 && Element(q, total)
    ensures PointsAgree(q, own, pim1, pip2, total) <==>
      exists w :: pim1 == PointPair(w, own.pki) && pip2 == PointPair(own.pkip2, w) && Eqm(q, own.pki + own.pkip2 + w, total)
  {
    if PointsAgree(q, own, pim1, pip2, total) {
      AddThree(q, own.pki, own.pkip2, pim1.pki);
      EqmSym(q, total, own.pki + own.pkip2 + pim1.pki);
      assert pim1 == PointPair(pim1.pki, own.pki) && pip2 == PointPair(own.pkip2, pim1.pki);
    }
    if w :| pim1 == PointPair(w, own.pki) && pip2 == PointPair(own.pkip2, w) && Eqm(q, own.pki + own.pkip2 + w, total) {
      AddThreeIs(q, own.pki, own.pkip2, w, total);
    }
  }

  // ----- one arbitrary garbler -----

  /** With one honest garbler, an evaluator that finishes used the honest first message, and ends with
      the shares it would have after an honest run, whatever the other garbler sent at any step. */
  lemma EvaluatorWithOneHonest(q: int, kdf: Kdf, labels: seq<Block>, honest: nat, h: Msg1, m: Msg1, sk0: int, sk1: int,
                               own: PointPair, p1: PointPair, p2: PointPair, alpha: int, alpha': int, pk: int, pk': int)
    requires q > 1 && honest < 2
    ensures var opening := if honest == 0 then CreateMsg2(q, kdf, labels, h, m, sk0, sk1)
                          else CreateMsg2(q, kdf, labels, m, h, sk0, sk1);
            opening.Some? ==>
              m == h &&
              var s2 := opening.value.2;
              var r := if honest == 0 then EvaluatorFinish(q, s2, own, p1, p2, alpha, alpha', pk, pk')
                       else EvaluatorFinish(q, s2, own, p1, p2, alpha', alpha, pk', pk);
              r.Some? ==>
                alpha' == alpha != 0 && pk' == pk != 0 && r.value.pubkey == pk &&
                p1.pki == own.pkip2 && p2.pkip2 == own.pki && p1.pkip2 == p2.pki &&
                Eqm(q, own.pki + own.pkip2 + p1.pkip2, s2.pkTilde) &&
                r.value.prev == OutputShare(q, s2.sk2, alpha, h.delta2) && r.value.next == OutputShare(q, s2.sk0, alpha, h.delta0)
  {
    hide OutputShare, EvalGadgetAfter;
    var opening := if honest == 0 then CreateMsg2(q, kdf, labels, h, m, sk0, sk1) else CreateMsg2(q, kdf, labels, m, h, sk0, sk1);
    if opening.Some? && PointsAgree(q, own, p2, p1, opening.value.2.pkTilde) {
      AddThree(q, own.pki, own.pkip2, p2.pki);
      EqmSym(q, opening.value.2.pkTilde, own.pki + own.pkip2 + p2.pki);
    }
  }
}
