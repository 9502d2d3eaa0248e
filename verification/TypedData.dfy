// The terms of a Pact as hashed (agent-kernel/src/typedData.ts) and the binding that the hash gives.
module TypedData {
  import opened Prelude
  import opened CanonicalValues
  import opened Canonical
  import opened KernelTypes
  import opened KernelOps
  import opened KernelSafety

  /** An integer as JavaScript prints it. */
  function Integer(n: int): (v: Value)
    ensures v.Num?
  {
    Num(if n < 0 then "-" + DigitText(-n) else DigitText(n))
  }

  function PaymentField(t: PaymentTerms, i: nat): Field {
    match i
    case 0 => Field("chainId", Integer(t.chainId))
    case 1 => Field("vault", Str(t.vault))
    case 2 => Field("token", Str(t.token))
    case 3 => Field("payer", Str(t.payer))
    case 4 => Field("recipient", Str(t.recipient))
    case 5 => Field("maximumAllocationBaseUnits", Str(t.maximumAllocation))
    case 6 => Field("velocityBaseUnitsPerSecond", Str(t.velocity))
    case 7 => Field("lifespanSeconds", Integer(t.lifespanSeconds))
    case _ => Field("residualRecipient", Str(t.residualRecipient))
  }

  function PaymentProjection(t: PaymentTerms): Value {
    Obj(seq(9, i requires 0 <= i < 9 => PaymentField(t, i)))
  }

  /** The fields of pactTermsProjection in order: everything agreed, nothing of the Pact's progress. */
  function TermField(t: PactTerms, i: nat): Field {
    match i
    case 0 => Field("version", Str("openrails-pact-terms-v1"))
    case 1 => Field("pactId", Str(t.pactId))
    case 2 => Field("workspaceId", Str(t.workspaceId))
    case 3 => Field("pathId", Str(t.pathId))
    case 4 => Field("pathRevision", Integer(t.pathRevision))
    case 5 => Field("pathHash", Str(t.pathHash))
    case 6 => Field("proposalId", Str(t.proposalId))
    case 7 => Field("proposalHash", Str(t.proposalHash))
    case 8 => Field("decisionId", Str(t.decisionId))
    case 9 => Field("decisionHash", Str(t.decisionHash))
    case 10 => Field("initiator", Str(t.initiator))
    case 11 => Field("agentId", Str(t.agentId))
    case 12 => Field("counterparty", Str(t.counterparty))
    case 13 => Field("actionType", Str(t.actionType))
    case 14 => Field("specification", t.specification)
    case 15 => Field("commercialTerms", t.commercialTerms)
    case 16 => Field("paymentTerms", PaymentProjection(t.payment))
    case 17 => Field("evidencePolicyId", Str(t.evidencePolicyId))
    case 18 => Field("evidencePolicyVersion", Str(t.evidencePolicyVersion))
    case 19 => Field("evidencePolicyCodeDigest", Str(t.evidencePolicyCodeDigest))
    case 20 => Field("completionPolicyId", Str(t.completionPolicyId))
    case 21 => Field("disputePolicyId", Str(t.disputePolicyId))
    case _ => Field("requiresCounterpartySignature", Bool(t.requiresCounterpartySignature))
  }

  function Projection(t: PactTerms): Value {
    Obj(seq(23, i requires 0 <= i < 23 => TermField(t, i)))
  }

  /** An integer's text is its decimal digits, after a sign when it is negative, without leading zeros. */
  lemma IntegerReads(n: int)
    ensures n < 0 ==> Integer(n).text == "-" + Integer(-n).text
    ensures n >= 0 ==> IsUnits(Integer(n).text) && Units(Integer(n).text) == n
    ensures n > 0 ==> Integer(n).text[0] != '0'
  {
    if n >= 0 { DigitTextReads(n); }
  }

  lemma {:induction false} DigitTextReads(n: nat)
    ensures IsUnits(DigitText(n)) && DigitsValue(DigitText(n)) == n
    ensures n > 0 ==> DigitText(n)[0] != '0'
  {
    DigitTextDigits(n);
    if n >= 10 {
      DigitTextReads(n / 10);
      var text := DigitText(n);
      assert text[..|text| - 1] == DigitText(n / 10);
    } else {
      var text := DigitText(n);
      assert text[..|text| - 1] == "";
    }
  }

  /** What is hashed of a payment, field by field. */
  lemma PaymentFieldsAre(t: PaymentTerms)
    ensures PaymentProjection(t)
            == Obj([Field("chainId", Integer(t.chainId)), Field("vault", Str(t.vault)), Field("token", Str(t.token)),
                    Field("payer", Str(t.payer)), Field("recipient", Str(t.recipient)),
                    Field("maximumAllocationBaseUnits", Str(t.maximumAllocation)),
                    Field("velocityBaseUnitsPerSecond", Str(t.velocity)),
                    Field("lifespanSeconds", Integer(t.lifespanSeconds)),
                    Field("residualRecipient", Str(t.residualRecipient))])
  {
    hide Integer;
  }

  /** What is hashed of a Pact's terms, field by field, under the version of the format. */
  lemma TermFieldsAre(t: PactTerms)
    ensures Projection(t)
            == Obj([Field("version", Str("openrails-pact-terms-v1")), Field("pactId", Str(t.pactId)),
                    Field("workspaceId", Str(t.workspaceId)), Field("pathId", Str(t.pathId)),
                    Field("pathRevision", Integer(t.pathRevision)), Field("pathHash", Str(t.pathHash)),
                    Field("proposalId", Str(t.proposalId)), Field("proposalHash", Str(t.proposalHash)),
                    Field("decisionId", Str(t.decisionId)), Field("decisionHash", Str(t.decisionHash)),
                    Field("initiator", Str(t.initiator)), Field("agentId", Str(t.agentId)),
                    Field("counterparty", Str(t.counterparty)), Field("actionType", Str(t.actionType)),
                    Field("specification", t.specification), Field("commercialTerms", t.commercialTerms),
                    Field("paymentTerms", PaymentProjection(t.payment)),
                    Field("evidencePolicyId", Str(t.evidencePolicyId)),
                    Field("evidencePolicyVersion", Str(t.evidencePolicyVersion)),
                    Field("evidencePolicyCodeDigest", Str(t.evidencePolicyCodeDigest)),
                    Field("completionPolicyId", Str(t.completionPolicyId)),
                    Field("disputePolicyId", Str(t.disputePolicyId)),
                    Field("requiresCounterpartySignature", Bool(t.requiresCounterpartySignature))])
  {
    hide Integer, PaymentProjection;
  }

  /** hashCanonical with the digest as a parameter; an error where canonicalJson throws. */
  function HashCanonical(sha: string -> Hex, leq: KeyOrder, v: Value): Result<Hex> {
    var text := CanonicalJson(leq, v);
    if text.Err? then Err(text.error) else Ok(sha(text.value))
  }

  ghost predicate Injective(sha: string -> Hex) {
    forall a, b :: sha(a) == sha(b) ==> a == b
  }

  lemma HashDecidesEquality(sha: string -> Hex, leq: KeyOrder, x: Value, y: Value)
    requires Injective(sha) && TotalOrder(leq) && Data(x) && Data(y)
    ensures HashCanonical(sha, leq, x) == HashCanonical(sha, leq, y) <==> Same(x, y)
  {
    CanonicalJsonDecidesEquality(leq, x, y);
  }

  // ---- The projection loses nothing --------------------------------------------------------------

  lemma IntegerInjective(m: int, n: int)
    ensures Integer(m) == Integer(n) <==> m == n
  {
    DigitTextDigits(if m < 0 then -m else m);
    DigitTextDigits(if n < 0 then -n else n);
    if Integer(m) == Integer(n) {
      var a, b := Integer(m).text, Integer(n).text;
      assert a[0] == b[0];
      if m < 0 && n < 0 {
        assert DigitText(-m) == a[1..] && DigitText(-n) == b[1..];
        DigitTextInjective(-m, -n);
      } else if m >= 0 && n >= 0 {
        DigitTextInjective(m, n);
      }
    }
  }

  lemma IntegerIsData(n: int)
    ensures Data(Integer(n))
  {
    DigitTextDigits(if n < 0 then -n else n);
    var text := Integer(n).text;
    forall i | 0 <= i < |text| ensures text[i] in "0123456789+-.eE" {
      if '0' <= text[i] <= '9' {
        assert "0123456789+-.eE"[text[i] as int - '0' as int] == text[i];
      } else {
        assert "0123456789+-.eE"[11] == text[i];
      }
    }
  }

  /** Objects with the same keys in the same places are the same when their values are. */
  lemma SameFieldByField(a: seq<Field>, b: seq<Field>)
    requires |a| == |b| && UniqueKeys(a)
    requires forall i :: 0 <= i < |a| ==> a[i].key == b[i].key
    ensures Same(Obj(a), Obj(b)) <==> forall i :: 0 <= i < |a| ==> Same(a[i].value, b[i].value)
  {
    assert Keys(a) == Keys(b);
    if Same(Obj(a), Obj(b)) {
      forall i | 0 <= i < |a| ensures Same(a[i].value, b[i].value) {
        assert a[i].key == b[i].key;
      }
    }
  }

  /** The length of a key and its third letter, which tell the keys of a projection apart. */
  function KeyCode(key: string): nat {
    if |key| < 3 then 0 else 1000 * |key| + key[2] as nat
  }

  lemma DistinctCodes(fields: seq<Field>, codes: seq<nat>)
    requires |fields| == |codes|
    requires forall i :: 0 <= i < |fields| ==> KeyCode(fields[i].key) == codes[i]
    requires forall i, j :: 0 <= i < j < |codes| ==> codes[i] != codes[j]
    ensures UniqueKeys(fields)
  {
    forall i, j | 0 <= i < j < |fields| ensures fields[i].key != fields[j].key {
      assert codes[i] != codes[j];
    }
  }

  const PAYMENT_CODES: seq<nat> := [7097, 5117, 5107, 5121, 9099, 26120, 26108, 15102, 17115]
  const TERM_CODES: seq<nat> := [7114, 6099, 11114, 6116, 12116, 8116, 10111, 12111, 10099, 12099, 9105, 7101, 12117,
                                 10116, 13101, 15109, 12121, 16105, 21105, 24105, 18109, 15115, 29113]

  lemma CodesDistinct()
    ensures |TERM_CODES| == 23 && forall i, j :: 0 <= i < j < 23 ==> TERM_CODES[i] != TERM_CODES[j]
    ensures |PAYMENT_CODES| == 9 && forall i, j :: 0 <= i < j < 9 ==> PAYMENT_CODES[i] != PAYMENT_CODES[j]
  {
  }

  lemma PaymentKeysUnique(t: PaymentTerms)
    ensures UniqueKeys(PaymentProjection(t).fields)
  {
    CodesDistinct();
    forall i | 0 <= i < 9 ensures KeyCode(PaymentField(t, i).key) == PAYMENT_CODES[i] {}
    DistinctCodes(PaymentProjection(t).fields, PAYMENT_CODES);
  }

  lemma TermCode(t: PactTerms, i: nat)
    requires i < 23
    ensures KeyCode(TermField(t, i).key) == TERM_CODES[i]
  {
    if i < 12 { EarlyTermCode(t, i); } else { LateTermCode(t, i); }
  }

  lemma EarlyTermCode(t: PactTerms, i: nat)
    requires i < 12
    ensures KeyCode(TermField(t, i).key) == TERM_CODES[i]
  {
    hide Integer, PaymentProjection;
  }

  lemma LateTermCode(t: PactTerms, i: nat)
    requires 12 <= i < 23
    ensures KeyCode(TermField(t, i).key) == TERM_CODES[i]
  {
    hide Integer, PaymentProjection;
  }

  lemma KeysUnique(t: PactTerms)
    ensures UniqueKeys(Projection(t).fields)
  {
    CodesDistinct();
    forall i | 0 <= i < 23 ensures KeyCode(TermField(t, i).key) == TERM_CODES[i] {
      TermCode(t, i);
    }
    hide TermField, KeyCode;
    DistinctCodes(Projection(t).fields, TERM_CODES);
  }

  // ---- What equal hashes mean --------------------------------------------------------------------

  /** The same agreement: equal terms, up to key order inside the two free-form objects. */
  ghost predicate SameAgreement(p: PactTerms, q: PactTerms) {
    && q == p.(specification := q.specification, commercialTerms := q.commercialTerms)
    && Same(p.specification, q.specification) && Same(p.commercialTerms, q.commercialTerms)
  }

  ghost predicate JsonTerms(t: PactTerms) {
    Data(t.specification) && Data(t.commercialTerms)
  }

  lemma SamePayment(p: PaymentTerms, q: PaymentTerms)
    ensures Same(PaymentProjection(p), PaymentProjection(q)) <==> p == q
  {
    hide Integer;
    var a, b := PaymentProjection(p).fields, PaymentProjection(q).fields;
    PaymentKeysUnique(p);
    SameFieldByField(a, b);
    hide UniqueKeys;
    IntegerInjective(p.chainId, q.chainId);
    IntegerInjective(p.lifespanSeconds, q.lifespanSeconds);
    if Same(PaymentProjection(p), PaymentProjection(q)) {
      forall i | 0 <= i < 9 ensures PaymentField(p, i).value == PaymentField(q, i).value {
        assert Same(a[i].value, b[i].value);
      }
      PaymentFieldsDecide(p, q);
    }
  }

  lemma PaymentFieldsDecide(p: PaymentTerms, q: PaymentTerms)
    requires forall i :: 0 <= i < 9 ==> PaymentField(p, i).value == PaymentField(q, i).value
    ensures p == q
  {
    hide Integer;
    IntegerInjective(p.chainId, q.chainId);
    IntegerInjective(p.lifespanSeconds, q.lifespanSeconds);
    assert PaymentField(p, 0).value == PaymentField(q, 0).value && PaymentField(p, 1).value == PaymentField(q, 1).value;
    assert PaymentField(p, 2).value == PaymentField(q, 2).value && PaymentField(p, 3).value == PaymentField(q, 3).value;
    assert PaymentField(p, 4).value == PaymentField(q, 4).value && PaymentField(p, 5).value == PaymentField(q, 5).value;
    assert PaymentField(p, 6).value == PaymentField(q, 6).value && PaymentField(p, 7).value == PaymentField(q, 7).value;
    assert PaymentField(p, 8).value == PaymentField(q, 8).value;
  }

  lemma ProjectionDecides(p: PactTerms, q: PactTerms)
    ensures Same(Projection(p), Projection(q)) <==> SameAgreement(p, q)
  {
    hide Integer, PaymentProjection, TermField;
    var a, b := Projection(p).fields, Projection(q).fields;
    KeysUnique(p);
    forall i | 0 <= i < 23 ensures a[i].key == b[i].key && (Same(a[i].value, b[i].value) <==> TermAgrees(p, q, i)) {
      TermDecides(p, q, i);
    }
    SameFieldByField(a, b);
    hide Same, UniqueKeys, SameAgreement, TermAgrees;
    AllTermsAgree(p, q);
  }

  /** What equality of the i-th projected field says about the terms. */
  ghost predicate TermAgrees(p: PactTerms, q: PactTerms, i: nat) {
    match i
    case 0 => true
    case 1 => p.pactId == q.pactId
    case 2 => p.workspaceId == q.workspaceId
    case 3 => p.pathId == q.pathId
    case 4 => p.pathRevision == q.pathRevision
    case 5 => p.pathHash == q.pathHash
    case 6 => p.proposalId == q.proposalId
    case 7 => p.proposalHash == q.proposalHash
    case 8 => p.decisionId == q.decisionId
    case 9 => p.decisionHash == q.decisionHash
    case 10 => p.initiator == q.initiator
    case 11 => p.agentId == q.agentId
    case 12 => p.counterparty == q.counterparty
    case 13 => p.actionType == q.actionType
    case 14 => Same(p.specification, q.specification)
    case 15 => Same(p.commercialTerms, q.commercialTerms)
    case 16 => p.payment == q.payment
    case 17 => p.evidencePolicyId == q.evidencePolicyId
    case 18 => p.evidencePolicyVersion == q.evidencePolicyVersion
    case 19 => p.evidencePolicyCodeDigest == q.evidencePolicyCodeDigest
    case 20 => p.completionPolicyId == q.completionPolicyId
    case 21 => p.disputePolicyId == q.disputePolicyId
    case _ => p.requiresCounterpartySignature == q.requiresCounterpartySignature
  }

  lemma TermDecides(p: PactTerms, q: PactTerms, i: nat)
    requires i < 23
    ensures TermField(p, i).key == TermField(q, i).key
    ensures Same(TermField(p, i).value, TermField(q, i).value) <==> TermAgrees(p, q, i)
  {
    hide Integer, PaymentProjection, Same;
    SamePayment(p.payment, q.payment);
    IntegerInjective(p.pathRevision, q.pathRevision);
    SameScalars(TermField(p, i).value, TermField(q, i).value);
  }

  lemma SameScalars(x: Value, y: Value)
    ensures x.Str? || x.Num? || x.Bool? ==> (Same(x, y) <==> x == y)
  {
  }

  lemma AllTermsAgree(p: PactTerms, q: PactTerms)
    ensures (forall i: nat :: i < 23 ==> TermAgrees(p, q, i)) <==> SameAgreement(p, q)
  {
    hide Same;
    if forall i: nat :: i < 23 ==> TermAgrees(p, q, i) {
      assert TermAgrees(p, q, 1) && TermAgrees(p, q, 2) && TermAgrees(p, q, 3) && TermAgrees(p, q, 4);
      assert TermAgrees(p, q, 5) && TermAgrees(p, q, 6) && TermAgrees(p, q, 7) && TermAgrees(p, q, 8);
      assert TermAgrees(p, q, 9) && TermAgrees(p, q, 10) && TermAgrees(p, q, 11) && TermAgrees(p, q, 12);
      assert TermAgrees(p, q, 13) && TermAgrees(p, q, 14) && TermAgrees(p, q, 15) && TermAgrees(p, q, 16);
      assert TermAgrees(p, q, 17) && TermAgrees(p, q, 18) && TermAgrees(p, q, 19) && TermAgrees(p, q, 20);
      assert TermAgrees(p, q, 21) && TermAgrees(p, q, 22);
    }
  }

  lemma PaymentIsData(t: PaymentTerms)
    ensures Data(PaymentProjection(t))
  {
    hide Integer;
    PaymentKeysUnique(t);
    IntegerIsData(t.chainId);
    IntegerIsData(t.lifespanSeconds);
    forall i | 0 <= i < 9 ensures Data(PaymentField(t, i).value) {}
  }

  lemma TermIsData(t: PactTerms, i: nat)
    requires JsonTerms(t) && i < 23
    ensures Data(TermField(t, i).value)
  {
    hide Integer, PaymentProjection;
    IntegerIsData(t.pathRevision);
    PaymentIsData(t.payment);
  }

  lemma ProjectionIsData(t: PactTerms)
    requires JsonTerms(t)
    ensures Data(Projection(t))
  {
    hide Integer, PaymentProjection;
    KeysUnique(t);
    forall i | 0 <= i < 23 ensures Data(TermField(t, i).value) {
      TermIsData(t, i);
    }
    hide TermField, UniqueKeys;
  }

  /** With a collision-free digest, equal terms hashes mean the same agreement, and the other way round. */
  lemma TermsHashBinds(sha: string -> Hex, leq: KeyOrder, p: PactTerms, q: PactTerms)
    requires Injective(sha) && TotalOrder(leq) && JsonTerms(p) && JsonTerms(q)
    ensures HashCanonical(sha, leq, Projection(p)).Ok?
    ensures HashCanonical(sha, leq, Projection(p)) == HashCanonical(sha, leq, Projection(q)) <==> SameAgreement(p, q)
  {
    hide Projection, SameAgreement;
    ProjectionIsData(p);
    ProjectionIsData(q);
    HashDecidesEquality(sha, leq, Projection(p), Projection(q));
    ProjectionDecides(p, q);
  }

  /** The kernel's terms hash is the canonical one. */
  ghost predicate HashesCanonically(env: Env, sha: string -> Hex, leq: KeyOrder) {
    forall t: PactTerms :: JsonTerms(t) ==> HashCanonical(sha, leq, Projection(t)) == Ok(env.hashTerms(t))
  }

  /**
   * Over every run a terms hash names one Pact for good: a Pact stored earlier and a Pact stored at any later time
   * have the same terms hash exactly when they are the same Pact, whatever happened to either in between.
   */
  lemma TermsHashNamesPact(env: Env, sha: string -> Hex, leq: KeyOrder, first: seq<Event>, second: seq<Event>,
                           a: string, b: string)
    requires Injective(sha) && TotalOrder(leq) && HashesCanonically(env, sha, leq)
    requires var s, r := Run(env, EMPTY_STATE, first), Run(env, EMPTY_STATE, first + second);
             && a in s.pacts && b in r.pacts && JsonTerms(s.pacts[a].terms) && JsonTerms(r.pacts[b].terms)
    ensures var s, r := Run(env, EMPTY_STATE, first), Run(env, EMPTY_STATE, first + second);
            s.pacts[a].termsHash == r.pacts[b].termsHash <==> a == b
  {
    hide Run, Step, JsonTerms, Projection, HashCanonical;
    var s, r := Run(env, EMPTY_STATE, first), Run(env, EMPTY_STATE, first + second);
    OpenedPactsStayOpened(env, first, second, a);
    StoredHash(env, first, a);
    StoredHash(env, first + second, b);
    TermsHashBinds(sha, leq, s.pacts[a].terms, r.pacts[b].terms);
  }

  lemma StoredHash(env: Env, run: seq<Event>, id: string)
    requires id in Run(env, EMPTY_STATE, run).pacts
    ensures var pact := Run(env, EMPTY_STATE, run).pacts[id];
            env.hashTerms(pact.terms) == pact.termsHash && pact.terms.pactId == id
  {
    hide Run, Step, SignaturesGenuine, FullySigned, PaymentConsistent;
    assert Sound(env, EMPTY_STATE);
    RunSound(env, EMPTY_STATE, run);
    var s := Run(env, EMPTY_STATE, run);
    assert PactSound(env, s.pacts[id], s.pactSignatures[id]);
  }
}
