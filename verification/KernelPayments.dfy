// What the calls that sign and pay for a Pact add up to over every run.
module KernelPayments {
  import opened Prelude
  import opened KernelTypes
  import opened Policy
  import opened KernelOps
  import opened KernelSafety
  import opened KernelFrames
  import opened KernelHistory
  import Lifecycle = KernelLifecycle

  // ---- Signing -----------------------------------------------------------------------------------

  ghost predicate WaitsUnsigned(s: State, id: string)
    requires id in s.pacts
  {
    s.pacts[id].status == AwaitingSignatures ==> !FullySigned(s.pacts[id], SignaturesOf(s, id))
  }

  lemma SignedAndWaiting(env: Env, s: State, op: Op, now: int, id: string)
    requires op.OpSignPact? && Sound(env, s) && id in s.pacts && WaitsUnsigned(s, id)
    requires id in Step(env, s, op, now).pacts
    ensures WaitsUnsigned(Step(env, s, op, now), id)
  {
    hide Step, SignPactError, Sound, FindSignature, SignedBy, PactSound;
    SignPactStep(env, s, op, now);
    SoundPact(env, s, id);
  }

  lemma BornUnsigned(env: Env, s: State, op: Op, now: int, id: string)
    requires id !in s.pacts && id in Step(env, s, op, now).pacts
    ensures SignaturesOf(Step(env, s, op, now), id) == []
  {
    hide Step, CreatePactError, NewPact, AllowedNow;
    if ChangesPact(op) {
      PactStepFrame(env, s, op, now);
    } else if op.OpCreatePact? {
      CreatePactStep(env, s, op, now);
      CreateStepFrame(env, s, op, now);
    } else {
      RegistryStepFrame(env, s, op, now);
    }
  }

  lemma NobodySigned(pact: Pact)
    ensures !FullySigned(pact, [])
  {
  }

  lemma SameWait(p: Pact, q: Pact, signatures: seq<PactSignature>)
    requires q.terms == p.terms
    ensures FullySigned(q, signatures) <==> FullySigned(p, signatures)
  {
    hide SignedBy;
  }

  lemma StepWaits(env: Env, s: State, op: Op, now: int, id: string)
    requires Sound(env, s) && (id in s.pacts ==> WaitsUnsigned(s, id)) && id in Step(env, s, op, now).pacts
    ensures WaitsUnsigned(Step(env, s, op, now), id)
  {
    hide Step, Sound, FullySigned;
    var r := Step(env, s, op, now);
    if id !in s.pacts {
      BornUnsigned(env, s, op, now, id);
      NobodySigned(r.pacts[id]);
    } else if op.OpSignPact? {
      SignedAndWaiting(env, s, op, now, id);
    } else {
      Lifecycle.StepAdvances(env, s, op, now, id);
      SameWait(s.pacts[id], r.pacts[id], SignaturesOf(s, id));
    }
  }

  /**
   * In every run a Pact that is not completed, disputed or up for rectification awaits signatures exactly while one
   * that it needs, the authority's or a required counterparty's, is missing.
   */
  lemma {:induction false} AwaitsExactlyWhileUnsigned(env: Env, run: seq<Event>, id: string)
    requires id in Run(env, EMPTY_STATE, run).pacts
    ensures var s := Run(env, EMPTY_STATE, run);
            && WaitsUnsigned(s, id)
            && (s.pacts[id].status !in {Completed, Disputed, RectificationRequired} ==>
                  (s.pacts[id].status == AwaitingSignatures <==> !FullySigned(s.pacts[id], SignaturesOf(s, id))))
  {
    hide Step, PactIntact, SignaturesGenuine, FullySigned, PaymentConsistent;
    var last, earlier := run[|run| - 1], run[..|run| - 1];
    var s := Run(env, EMPTY_STATE, earlier);
    assert Sound(env, EMPTY_STATE);
    RunSound(env, EMPTY_STATE, earlier);
    RunSound(env, EMPTY_STATE, run);
    if id in s.pacts { AwaitsExactlyWhileUnsigned(env, earlier, id); }
    StepWaits(env, s, last.op, last.now, id);
    SoundPact(env, Run(env, EMPTY_STATE, run), id);
  }

  /** What a party's first signature does. */
  lemma FirstSignature(env: Env, s: State, id: string, signer: Address, signature: Signature, now: int)
    requires SignPactError(env, s, id, signer, signature).None? && FindSignature(SignaturesOf(s, id), signer).None?
    requires id in s.pacts && s.pacts[id].terms.workspaceId in s.workspaces
    ensures var pact := s.pacts[id];
            var more := SignaturesOf(s, id) + [PactSignature(pact.terms, pact.termsHash, signer, signature)];
            var r := Step(env, s, OpSignPact(id, signer, signature), now);
            && r.pacts == s.pacts[id := Countersigned(pact, s.workspaces[pact.terms.workspaceId].authorityAccount,
                                                      more)]
            && SignaturesOf(r, id) == more && r.workspaces == s.workspaces
  {
    hide Step, SignPactError, FindSignature, Countersigned;
    SignPactStep(env, s, OpSignPact(id, signer, signature), now);
  }

  /** What the other party's signature does after that: nothing when the first one was enough. */
  lemma SecondSignature(env: Env, s: State, r: State, id: string, signer: Address, signature: Signature, now: int)
    requires id in s.pacts && id in r.pacts && r.workspaces == s.workspaces
    requires SignPactError(env, s, id, signer, signature).None? && FindSignature(SignaturesOf(s, id), signer).None?
    requires r.pacts[id].terms == s.pacts[id].terms && r.pacts[id].termsHash == s.pacts[id].termsHash
    requires !SignedBy(SignaturesOf(r, id), signer)
    ensures if r.pacts[id].status == AwaitingSignatures then
              SignPactError(env, r, id, signer, signature).None? && FindSignature(SignaturesOf(r, id), signer).None?
            else Step(env, r, OpSignPact(id, signer, signature), now) == r
  {
    hide Step, FindSignature, SignedBy, SameText;
    FindSignatureFinds(SignaturesOf(r, id), signer);
    SignPactStep(env, r, OpSignPact(id, signer, signature), now);
  }

  lemma OnlyOneMore(signatures: seq<PactSignature>, more: PactSignature, party: Address)
    ensures SignedBy(signatures + [more], party) <==> SignedBy(signatures, party) || SameText(more.signer, party)
  {
    hide SameText;
    var all := signatures + [more];
    if SignedBy(signatures, party) {
      var i :| 0 <= i < |signatures| && SameText(signatures[i].signer, party);
      assert SameText(all[i].signer, party);
    }
    if SameText(more.signer, party) { assert SameText(all[|signatures|].signer, party); }
  }

  ghost predicate FirstOf(env: Env, s: State, id: string, signer: Address, signature: Signature) {
    SignPactError(env, s, id, signer, signature).None? && FindSignature(SignaturesOf(s, id), signer).None?
  }

  /** The Pact after one party and then the other have signed. */
  lemma BothSigned(env: Env, s: State, id: string, a: Address, sigA: Signature, b: Address, sigB: Signature, now: int)
    requires FirstOf(env, s, id, a, sigA) && FirstOf(env, s, id, b, sigB) && !SameText(a, b)
    ensures id in s.pacts
    ensures Step(env, Step(env, s, OpSignPact(id, a, sigA), now), OpSignPact(id, b, sigB), now).pacts
            == s.pacts[id := s.pacts[id].(status := Accepted, revision := s.pacts[id].revision + 1)]
  {
    hide Step, SignPactError, FindSignature, SignedBy;
    SignPactTarget(env, s, id, a, sigA);
    SignPactParty(env, s, id, a, sigA);
    SignPactParty(env, s, id, b, sigB);
    var pact, before := s.pacts[id], SignaturesOf(s, id);
    var authority, counterparty := s.workspaces[pact.terms.workspaceId].authorityAccount, pact.terms.counterparty;
    FirstSignature(env, s, id, a, sigA, now);
    var r := Step(env, s, OpSignPact(id, a, sigA), now);
    FindSignatureFinds(before, a);
    FindSignatureFinds(before, b);
    var first, second := PactSignature(pact.terms, pact.termsHash, a, sigA),
                         PactSignature(pact.terms, pact.termsHash, b, sigB);
    OnlyOneMore(before, first, b);
    PartySigns(before, first, second, authority);
    PartySigns(before, first, second, counterparty);
    SecondSignature(env, s, r, id, b, sigB, now);
    if r.pacts[id].status == AwaitingSignatures { FirstSignature(env, r, id, b, sigB, now); }
  }

  lemma SignPactParty(env: Env, s: State, id: string, signer: Address, signature: Signature)
    requires SignPactError(env, s, id, signer, signature).None?
    ensures id in s.pacts && s.pacts[id].terms.workspaceId in s.workspaces
    ensures SameText(signer, s.workspaces[s.pacts[id].terms.workspaceId].authorityAccount)
            || SameText(signer, s.pacts[id].terms.counterparty)
  {
    hide FindSignature;
  }

  /** A party has signed once its signature, and not merely the other party's, is there. */
  lemma PartySigns(before: seq<PactSignature>, first: PactSignature, second: PactSignature, party: Address)
    requires !SignedBy(before, first.signer) && !SignedBy(before, second.signer)
    requires SameText(first.signer, party) || SameText(second.signer, party)
    ensures !SignedBy(before, party)
    ensures SignedBy(before + [first], party) <==> SameText(first.signer, party)
    ensures SignedBy(before + [first] + [second], party)
  {
    OnlyOneMore(before, first, party);
    OnlyOneMore(before + [first], second, party);
  }

  /** Whichever party signs first, the Pact ends up accepted, with one revision more. */
  lemma SigningOrderIrrelevant(env: Env, s: State, id: string, a: Address, sigA: Signature, b: Address,
                               sigB: Signature, now: int)
    requires FirstOf(env, s, id, a, sigA) && FirstOf(env, s, id, b, sigB) && !SameText(a, b)
    ensures var signA, signB := OpSignPact(id, a, sigA), OpSignPact(id, b, sigB);
            && Step(env, Step(env, s, signA, now), signB, now).pacts
               == Step(env, Step(env, s, signB, now), signA, now).pacts
            && id in s.pacts && id in Step(env, Step(env, s, signA, now), signB, now).pacts
            && Step(env, Step(env, s, signA, now), signB, now).pacts[id]
               == s.pacts[id].(status := Accepted, revision := s.pacts[id].revision + 1)
  {
    hide Step, FirstOf;
    BothSigned(env, s, id, a, sigA, b, sigB, now);
    BothSigned(env, s, id, b, sigB, a, sigA, now);
  }

  // ---- Preparing, opening, settling --------------------------------------------------------------

  /** The call prepares, opens or settles the Pact, and is accepted. */
  ghost predicate TakesEffect(env: Env, s: State, op: Op, now: int, id: string) {
    || Pays(env, s, op, now, id)
    || (op.OpRecordSettlement? && op.pactId == id
        && RecordSettlementError(env, s, id, op.txHash, op.amount, op.settlement).None?)
  }

  /** The accepted calls of a run that prepared, opened or settled the Pact, oldest first. */
  ghost function PaymentCalls(env: Env, run: seq<Event>, id: string): seq<Op> {
    if run == [] then []
    else
      var last, earlier := run[|run| - 1], run[..|run| - 1];
      PaymentCalls(env, earlier, id)
      + if TakesEffect(env, Run(env, EMPTY_STATE, earlier), last.op, last.now, id) then [last.op] else []
  }

  function Preparations(h: seq<Op>): (n: nat)
    ensures n <= |h|
  {
    if h == [] then 0
    else Preparations(h[..|h| - 1]) + if h[|h| - 1].OpPreparePayment? then 1 else 0
  }

  /** First preparations, any number of them, then at most one opening, then settlements. */
  ghost predicate InOrder(h: seq<Op>) {
    && (h != [] ==> Preparations(h) > 0)
    && forall i :: 0 <= i < |h| ==>
         if i < Preparations(h) then h[i].OpPreparePayment?
         else if i == Preparations(h) then h[i].OpOpenPayment? else h[i].OpRecordSettlement?
  }

  /** The observations of a series of settlements, the first for each transaction. */
  function FirstPerTransaction(h: seq<Op>): seq<SettlementObservation> {
    if h == [] then []
    else
      var earlier := FirstPerTransaction(h[..|h| - 1]);
      var last := h[|h| - 1];
      if last.OpRecordSettlement? && !HasSettlement(earlier, last.settlement.transactionHash)
      then earlier + [last.settlement] else earlier
  }

  /** The payment on record: the last preparation, the opening that matched it, each settlement once. */
  ghost predicate Tells(h: seq<Op>, payment: Option<OpenRails>)
    requires InOrder(h)
  {
    var n := Preparations(h);
    && (payment.None? <==> h == [])
    && (payment.Some? ==>
          var p := payment.value;
          && 0 < n && PreparedBy(p, h[n - 1].preparation)
          && (n == |h| ==> p.openingTxHash.None? && p.opening.None? && p.settlements == [])
          && (n < |h| ==>
                && p.openingTxHash == Some(h[n].txHash) && p.opening == Some(h[n].opening)
                && p.metadataHash == h[n].metadataHash && p.paycardId == h[n].paycardId
                && p.settlements == FirstPerTransaction(h[n + 1..])))
  }

  predicate PreparedBy(p: OpenRails, q: Preparation) {
    && p.metadataHash == q.metadataHash && p.paycardId == q.paycardId && p.genesisTimestamp == q.genesisTimestamp
    && p.nonceChannel == q.nonceChannel && p.nonceValue == q.nonceValue
  }

  lemma PreparationsAppend(h: seq<Op>, op: Op)
    ensures Preparations(h + [op]) == Preparations(h) + if op.OpPreparePayment? then 1 else 0
  {
    assert (h + [op])[..|h|] == h;
  }

  /** The next call keeps the order when it prepares an unopened Pact, opens a prepared or settles an opened one. */
  lemma NextInOrder(h: seq<Op>, op: Op)
    requires InOrder(h)
    requires op.OpPreparePayment? ==> Preparations(h) == |h|
    requires op.OpOpenPayment? ==> Preparations(h) == |h| && h != []
    requires !op.OpPreparePayment? && !op.OpOpenPayment? ==> op.OpRecordSettlement? && Preparations(h) < |h|
    ensures InOrder(h + [op])
  {
    PreparationsAppend(h, op);
    hide Preparations;
    var more := h + [op];
    forall i | 0 <= i < |h|
      ensures more[i] == h[i]
    {}
  }

  lemma PreparationTold(h: seq<Op>, op: Op, pact: Pact)
    requires InOrder(h) && InOrder(h + [op]) && Tells(h, pact.openRails) && op.OpPreparePayment?
    requires Preparations(h) == |h|
    ensures Tells(h + [op], Prepared(pact, op.preparation).openRails)
  {
    PreparationsAppend(h, op);
  }

  lemma OpeningTold(h: seq<Op>, op: Op, pact: Pact)
    requires InOrder(h) && InOrder(h + [op]) && Tells(h, pact.openRails) && op.OpOpenPayment?
    requires Preparations(h) == |h| && pact.openRails.Some?
    requires pact.openRails.value.metadataHash == op.metadataHash && pact.openRails.value.paycardId == op.paycardId
    ensures Tells(h + [op], Opened(pact, op.txHash, op.opening).openRails)
  {
    PreparationsAppend(h, op);
    assert (h + [op])[|h| + 1..] == [];
  }

  lemma SettlementTold(h: seq<Op>, op: Op, pact: Pact)
    requires InOrder(h) && InOrder(h + [op]) && Tells(h, pact.openRails) && op.OpRecordSettlement?
    requires Preparations(h) < |h| && pact.openRails.Some?
    ensures Tells(h + [op], SettledWith(pact, op.settlement).openRails)
  {
    PreparationsAppend(h, op);
    hide Preparations, InOrder, FirstPerTransaction, HasSettlement, PaymentBinding;
    var n := Preparations(h);
    assert (h + [op])[n + 1..] == h[n + 1..] + [op];
    FirstPerTransactionMore(h[n + 1..], op);
  }

  lemma FirstPerTransactionMore(h: seq<Op>, op: Op)
    requires op.OpRecordSettlement?
    ensures FirstPerTransaction(h + [op]) ==
              if HasSettlement(FirstPerTransaction(h), op.settlement.transactionHash) then FirstPerTransaction(h)
              else FirstPerTransaction(h) + [op.settlement]
  {
    hide HasSettlement;
    assert (h + [op])[..|h|] == h;
  }

  /** How far the accepted calls have got shows in the Pact. */
  lemma ToldProgress(env: Env, pact: Pact, signatures: seq<PactSignature>, h: seq<Op>)
    requires PactSound(env, pact, signatures) && InOrder(h) && Tells(h, pact.openRails)
    ensures HasOpening(pact) <==> Preparations(h) < |h|
    ensures pact.openRails.Some? <==> h != []
    ensures pact.status in {Accepted, PaymentPrepared, AwaitingWallet} ==> Preparations(h) == |h|
  {
    hide PactIntact, SignaturesGenuine, FullySigned, PaymentConsistent, PreparedBy;
  }

  lemma PreparationContinues(env: Env, s: State, op: Op, now: int, id: string, h: seq<Op>)
    requires op.OpPreparePayment? && Pays(env, s, op, now, id) && Sound(env, s) && id in s.pacts
    requires InOrder(h) && Tells(h, s.pacts[id].openRails)
    ensures var r := Step(env, s, op, now);
            id in r.pacts && InOrder(h + [op]) && Tells(h + [op], r.pacts[id].openRails)
  {
    hide Step, PreparePaymentError, InOrder, Tells, Sound, PactSound, Prepared;
    PreparePaymentTarget(env, s, id, op.preparation, now);
    SoundPact(env, s, id);
    ToldProgress(env, s.pacts[id], s.pactSignatures[id], h);
    NextInOrder(h, op);
    PreparationTold(h, op, s.pacts[id]);
    PreparePaymentStep(env, s, op, now);
  }

  lemma OpeningContinues(env: Env, s: State, op: Op, now: int, id: string, h: seq<Op>)
    requires op.OpOpenPayment? && Pays(env, s, op, now, id) && Sound(env, s) && id in s.pacts
    requires InOrder(h) && Tells(h, s.pacts[id].openRails)
    ensures var r := Step(env, s, op, now);
            id in r.pacts && InOrder(h + [op]) && Tells(h + [op], r.pacts[id].openRails)
  {
    hide Step, OpenPaymentError, InOrder, Tells, Sound, PactSound, Opened;
    OpenPaymentTarget(env, s, id, op.metadataHash, op.paycardId, op.txHash, op.opening, now);
    SoundPact(env, s, id);
    ToldProgress(env, s.pacts[id], s.pactSignatures[id], h);
    NextInOrder(h, op);
    OpeningTold(h, op, s.pacts[id]);
    OpenPaymentStep(env, s, op, now);
  }

  lemma SettlementContinues(env: Env, s: State, op: Op, now: int, id: string, h: seq<Op>)
    requires op.OpRecordSettlement? && TakesEffect(env, s, op, now, id) && Sound(env, s) && id in s.pacts
    requires InOrder(h) && Tells(h, s.pacts[id].openRails)
    ensures var r := Step(env, s, op, now);
            id in r.pacts && InOrder(h + [op]) && Tells(h + [op], r.pacts[id].openRails)
  {
    hide Step, RecordSettlementError, InOrder, Tells, Sound, PactSound, SettledWith;
    RecordSettlementTarget(env, s, id, op.txHash, op.amount, op.settlement);
    SoundPact(env, s, id);
    ToldProgress(env, s.pacts[id], s.pactSignatures[id], h);
    NextInOrder(h, op);
    SettlementTold(h, op, s.pacts[id]);
    RecordSettlementStep(env, s, op, now);
  }

  /** A call that does not take effect on the Pact leaves its payment as it was. */
  lemma PaymentUntouched(env: Env, s: State, op: Op, now: int, id: string)
    requires id in s.pacts && !TakesEffect(env, s, op, now, id)
    ensures var r := Step(env, s, op, now); id in r.pacts && r.pacts[id].openRails == s.pacts[id].openRails
  {
    hide Step, PreparePaymentError, OpenPaymentError, RecordSettlementError;
    if op.OpPreparePayment? {
      PreparationElsewhere(env, s, op, now, id);
    } else if op.OpOpenPayment? {
      OpeningElsewhere(env, s, op, now, id);
    } else if op.OpRecordSettlement? {
      SettlementElsewhere(env, s, op, now, id);
    } else {
      Lifecycle.StepAdvances(env, s, op, now, id);
    }
  }

  lemma SettlementElsewhere(env: Env, s: State, op: Op, now: int, id: string)
    requires op.OpRecordSettlement? && id in s.pacts
    requires op.pactId == id ==>
               RecordSettlementError(env, s, id, op.txHash, op.amount, op.settlement).Some?
    ensures var r := Step(env, s, op, now); id in r.pacts && r.pacts[id] == s.pacts[id]
  {
    hide Step, RecordSettlementError, RecordSettlement, SameTerms, SameNonces, SameBindings;
    RecordSettlementStep(env, s, op, now);
    if op.pactId in s.pacts && s.pacts[op.pactId].openRails.Some? {
      RecordSettlementFrame(s, op.pactId, op.settlement, now);
    }
  }

  lemma BornUnpaid(env: Env, s: State, op: Op, now: int, id: string)
    requires id !in s.pacts && id in Step(env, s, op, now).pacts
    ensures Step(env, s, op, now).pacts[id].openRails.None?
  {
    hide Step, CreatePactError, NewPact, AllowedNow;
    if ChangesPact(op) {
      PactStepFrame(env, s, op, now);
    } else if op.OpCreatePact? {
      CreateStepFrame(env, s, op, now);
      NewPactUnpaid(env, s, op.request, now);
    } else {
      RegistryStepFrame(env, s, op, now);
    }
  }

  lemma NewPactUnpaid(env: Env, s: State, r: PactRequest, now: int)
    requires CreatePactError(env, s, r, true).None?
    ensures NewPact(env, s, r, now).openRails.None?
  {
    hide FindPlugin, CurrentUsage, PositiveUnits;
  }

  lemma EffectOnStored(env: Env, s: State, op: Op, now: int, id: string)
    requires TakesEffect(env, s, op, now, id)
    ensures id in s.pacts
  {
    hide Pays, RecordSettlementError;
    if op.OpRecordSettlement? && RecordSettlementError(env, s, id, op.txHash, op.amount, op.settlement).None? {
      RecordSettlementTarget(env, s, id, op.txHash, op.amount, op.settlement);
    } else {
      PayingIsEligible(env, s, op, now, id);
    }
  }

  /**
   * In every run the accepted calls that pay for a Pact are preparations, then at most one opening, of what the last
   * of them prepared, then settlements; and the payment on record is exactly what those calls tell.
   */
  lemma {:induction false} PaymentFollowsProtocol(env: Env, run: seq<Event>, id: string)
    ensures var h, pacts := PaymentCalls(env, run, id), Run(env, EMPTY_STATE, run).pacts;
            InOrder(h) && if id in pacts then Tells(h, pacts[id].openRails) else h == []
  {
    hide Step, TakesEffect, InOrder, Tells, Sound;
    if run == [] {
      NothingPaid();
    } else {
      var last, earlier := run[|run| - 1], run[..|run| - 1];
      var s, h := Run(env, EMPTY_STATE, earlier), PaymentCalls(env, earlier, id);
      PaymentFollowsProtocol(env, earlier, id);
      RunSoundFromEmpty(env, earlier);
      assert h + [] == h;
      if TakesEffect(env, s, last.op, last.now, id) {
        EffectOnStored(env, s, last.op, last.now, id);
        EffectContinues(env, s, last.op, last.now, id, h);
      } else if id in s.pacts {
        PaymentUntouched(env, s, last.op, last.now, id);
      } else if id in Run(env, EMPTY_STATE, run).pacts {
        BornUnpaid(env, s, last.op, last.now, id);
        NothingPaid();
      }
    }
  }

  lemma EffectContinues(env: Env, s: State, op: Op, now: int, id: string, h: seq<Op>)
    requires TakesEffect(env, s, op, now, id) && Sound(env, s) && id in s.pacts
    requires InOrder(h) && Tells(h, s.pacts[id].openRails)
    ensures var r := Step(env, s, op, now);
            id in r.pacts && InOrder(h + [op]) && Tells(h + [op], r.pacts[id].openRails)
  {
    hide Step, PreparePaymentError, OpenPaymentError, RecordSettlementError, InOrder, Tells, Sound;
    if op.OpPreparePayment? {
      PreparationContinues(env, s, op, now, id, h);
    } else if op.OpOpenPayment? {
      OpeningContinues(env, s, op, now, id, h);
    } else {
      SettlementContinues(env, s, op, now, id, h);
    }
  }

  lemma NothingPaid()
    ensures InOrder([]) && Tells([], None)
  {
  }

  /** Every settled transaction is on record once, by an observation of one of the calls. */
  lemma {:induction false} TransactionsSettleOnce(h: seq<Op>)
    ensures var settled := FirstPerTransaction(h);
            && (forall i :: 0 <= i < |h| && h[i].OpRecordSettlement? ==>
                  HasSettlement(settled, h[i].settlement.transactionHash))
            && EachTransactionOnce(settled)
            && (forall o :: o in settled ==> SettledBy(h, o))
  {
    hide SameText, SettledBy, HasSettlement, EachTransactionOnce;
    if h != [] {
      var init, last := h[..|h| - 1], h[|h| - 1];
      TransactionsSettleOnce(init);
      var earlier := FirstPerTransaction(init);
      forall i | 0 <= i < |h| && h[i].OpRecordSettlement?
        ensures HasSettlement(FirstPerTransaction(h), h[i].settlement.transactionHash)
      {
        SettledStays(earlier, last, h[i].settlement.transactionHash);
        if i < |init| { assert init[i] == h[i]; }
      }
      forall o | o in FirstPerTransaction(h)
        ensures SettledBy(h, o)
      {
        SettledByMore(h, o);
      }
      if last.OpRecordSettlement? && !HasSettlement(earlier, last.settlement.transactionHash) {
        OnceMore(earlier, last.settlement);
      }
    } else {
      assert EachTransactionOnce([]) by { NothingTwice(); }
    }
  }

  ghost predicate EachTransactionOnce(settled: seq<SettlementObservation>) {
    forall i, j :: 0 <= i < j < |settled| ==> !SameText(settled[i].transactionHash, settled[j].transactionHash)
  }

  lemma NothingTwice()
    ensures EachTransactionOnce([])
  {
  }

  ghost predicate SettledBy(h: seq<Op>, o: SettlementObservation) {
    exists j :: 0 <= j < |h| && h[j].OpRecordSettlement? && h[j].settlement == o
  }

  lemma SettledByMore(h: seq<Op>, o: SettlementObservation)
    requires h != []
    ensures SettledBy(h[..|h| - 1], o) ==> SettledBy(h, o)
    ensures h[|h| - 1].OpRecordSettlement? && h[|h| - 1].settlement == o ==> SettledBy(h, o)
  {
    var init := h[..|h| - 1];
    if SettledBy(init, o) {
      var j :| 0 <= j < |init| && init[j].OpRecordSettlement? && init[j].settlement == o;
      assert h[j] == init[j];
    }
  }

  lemma OnceMore(settled: seq<SettlementObservation>, o: SettlementObservation)
    requires EachTransactionOnce(settled) && !HasSettlement(settled, o.transactionHash)
    ensures EachTransactionOnce(settled + [o])
  {
    hide SameText;
    var more := settled + [o];
    forall i, j | 0 <= i < j < |more|
      ensures !SameText(more[i].transactionHash, more[j].transactionHash)
    {
      assert more[i] == settled[i];
      if j < |settled| { assert more[j] == settled[j]; }
    }
  }

  lemma SettledStays(earlier: seq<SettlementObservation>, last: Op, txHash: Hex)
    ensures var settled := if last.OpRecordSettlement? && !HasSettlement(earlier, last.settlement.transactionHash)
                           then earlier + [last.settlement] else earlier;
            && (HasSettlement(earlier, txHash) ==> HasSettlement(settled, txHash))
            && (last.OpRecordSettlement? ==> HasSettlement(settled, last.settlement.transactionHash))
  {
    var settled := if last.OpRecordSettlement? && !HasSettlement(earlier, last.settlement.transactionHash)
                   then earlier + [last.settlement] else earlier;
    if HasSettlement(earlier, txHash) {
      var i :| 0 <= i < |earlier| && SameText(earlier[i].transactionHash, txHash);
      assert SameText(settled[i].transactionHash, txHash);
    }
    if settled != earlier {
      assert SameText(settled[|earlier|].transactionHash, last.settlement.transactionHash);
    }
  }
}
