// Safety over every run: executing Pacts are signed and canonically opened, and what they were opened with stays.
module KernelSafety {
  import opened Prelude
  import opened KernelTypes
  import opened Policy
  import opened KernelOps

  // ---- What holds of every stored Pact -----------------------------------------------------------

  /** Every recorded signature verifies over the Pact's terms hash, by a party, once per party. */
  ghost predicate SignaturesGenuine(env: Env, pact: Pact, signatures: seq<PactSignature>) {
    && (forall i :: 0 <= i < |signatures| ==>
          && signatures[i].terms == pact.terms && signatures[i].hash == pact.termsHash
          && env.verify(PactMessage(pact.terms, pact.termsHash), signatures[i].signature, signatures[i].signer)
          && (SameText(signatures[i].signer, pact.terms.initiator)
              || SameText(signatures[i].signer, pact.terms.counterparty)))
    && (forall i, j :: 0 <= i < j < |signatures| ==> !SameText(signatures[i].signer, signatures[j].signer))
  }

  ghost predicate FullySigned(pact: Pact, signatures: seq<PactSignature>) {
    && SignedBy(signatures, pact.terms.initiator)
    && (pact.terms.requiresCounterpartySignature ==> SignedBy(signatures, pact.terms.counterparty))
  }

  /** The opening on record matches the Pact's terms and its prepared payment; so does every settlement, once each. */
  ghost predicate PaymentConsistent(pact: Pact)
    requires pact.openRails.Some?
  {
    var payment := pact.openRails.value;
    && (payment.opening.Some? ==>
          payment.openingTxHash.Some?
          && OpeningMatches(pact.terms, payment.metadataHash, payment.paycardId, payment.openingTxHash.value,
                            payment.opening.value))
    && (payment.settlements != [] ==> payment.opening.Some?)
    && (forall i :: 0 <= i < |payment.settlements| ==>
          var o := payment.settlements[i];
          SettlementMatches(pact.terms, payment.paycardId, o.transactionHash, o.settledAmount, o))
    && (forall i, j :: 0 <= i < j < |payment.settlements| ==>
          !SameText(payment.settlements[i].transactionHash, payment.settlements[j].transactionHash))
  }

  /** What holds of a Pact and the signatures stored for it. */
  ghost predicate PactSound(env: Env, pact: Pact, signatures: seq<PactSignature>) {
    && PactIntact(env, pact)
    && SignaturesGenuine(env, pact, signatures)
    && (pact.openRails.Some? || pact.status in {Accepted, PaymentPrepared, AwaitingWallet} ==>
          FullySigned(pact, signatures))
    && (pact.status in {Active, Performing, Settled} ==> HasOpening(pact))
    && (HasOpening(pact) ==>
          pact.status in {Active, Performing, Completed, Settled, Disputed, RectificationRequired})
    && (pact.openRails.Some? ==> PaymentConsistent(pact))
  }

  ghost predicate Authoritative(s: State, id: string, pact: Pact) {
    && pact.terms.pactId == id && pact.terms.workspaceId in s.workspaces
    && s.workspaces[pact.terms.workspaceId].authorityAccount == pact.terms.initiator
  }

  ghost predicate Sound(env: Env, s: State) {
    && (forall id :: id in s.pacts ==>
          && id in s.pactSignatures
          && PactSound(env, s.pacts[id], s.pactSignatures[id])
          && Authoritative(s, id, s.pacts[id]))
    && (forall id :: id in s.checkpoints ==> s.checkpoints[id].pactId in s.pacts)
    && (forall id :: id in s.gaiaCases ==> s.gaiaCases[id].pactId in s.pacts)
  }

  /** What a Pact keeps when it becomes q. */
  ghost predicate PactKept(p: Pact, q: Pact) {
    && q.terms == p.terms && q.termsHash == p.termsHash && p.revision <= q.revision
    && (HasOpening(p) ==>
          && HasOpening(q)
          && q.openRails.value.(settlements := []) == p.openRails.value.(settlements := [])
          && p.openRails.value.settlements <= q.openRails.value.settlements)
  }

  /** What a later state keeps of an earlier one's Pact. */
  ghost predicate Keeps(before: State, after: State, id: string)
    requires id in before.pacts
  {
    && id in after.pacts && PactKept(before.pacts[id], after.pacts[id])
    && SignaturesOf(before, id) <= SignaturesOf(after, id)
  }

  ghost predicate KeepsAll(before: State, after: State) {
    forall id :: id in before.pacts ==> Keeps(before, after, id)
  }

  // ---- One step ----------------------------------------------------------------------------------

  /** The step replaces one Pact, and perhaps its signatures, by a sound and faithful successor. */
  ghost predicate Replaces(env: Env, before: State, after: State, id: string) {
    && id in after.pacts && after.pacts == before.pacts[id := after.pacts[id]]
    && after.workspaces == before.workspaces
    && id in after.pactSignatures && after.pactSignatures == before.pactSignatures[id := after.pactSignatures[id]]
    && PactSound(env, after.pacts[id], after.pactSignatures[id])
    && Authoritative(after, id, after.pacts[id])
    && (id in before.pacts ==>
          PactKept(before.pacts[id], after.pacts[id]) && SignaturesOf(before, id) <= after.pactSignatures[id])
    && (forall k :: k in after.checkpoints ==> after.checkpoints[k].pactId in after.pacts)
    && (forall k :: k in after.gaiaCases ==> after.gaiaCases[k].pactId in after.pacts)
  }

  lemma SameAuthority(before: State, after: State, id: string, pact: Pact)
    requires Authoritative(before, id, pact) && after.workspaces == before.workspaces
    ensures Authoritative(after, id, pact)
  {
  }

  lemma ReplacesSound(env: Env, before: State, after: State, id: string)
    requires Sound(env, before) && Replaces(env, before, after, id)
    ensures Sound(env, after) && KeepsAll(before, after)
  {
    hide PactSound, PactKept, Authoritative;
    forall k | k in after.pacts
      ensures k in after.pactSignatures && PactSound(env, after.pacts[k], after.pactSignatures[k])
      ensures Authoritative(after, k, after.pacts[k])
    {
      if k != id { SameAuthority(before, after, k, before.pacts[k]); }
    }
    forall k | k in before.pacts
      ensures Keeps(before, after, k)
    {
      if k != id { PactKeptReflexive(before.pacts[k]); }
    }
  }

  /** What soundness says of one Pact. */
  lemma SoundPact(env: Env, s: State, id: string)
    requires Sound(env, s) && id in s.pacts
    ensures id in s.pactSignatures && PactSound(env, s.pacts[id], s.pactSignatures[id])
    ensures Authoritative(s, id, s.pacts[id]) && SignaturesOf(s, id) == s.pactSignatures[id]
  {
    hide PactSound, Authoritative;
  }

  /** The step moves one Pact on and leaves its signatures; checkpoints and cases name Pacts that exist. */
  ghost predicate Moved(before: State, after: State, id: string) {
    && id in before.pacts && id in after.pacts && after.pacts == before.pacts[id := after.pacts[id]]
    && after.workspaces == before.workspaces && after.pactSignatures == before.pactSignatures
    && (forall k :: k in after.checkpoints ==>
          after.checkpoints[k].pactId == id
          || (k in before.checkpoints && after.checkpoints[k].pactId == before.checkpoints[k].pactId))
    && (forall k :: k in after.gaiaCases ==>
          after.gaiaCases[k].pactId == id
          || (k in before.gaiaCases && after.gaiaCases[k].pactId == before.gaiaCases[k].pactId))
  }

  lemma MovedSound(env: Env, before: State, after: State, id: string)
    requires Sound(env, before) && Moved(before, after, id)
    requires PactSound(env, after.pacts[id], before.pactSignatures[id]) && PactKept(before.pacts[id], after.pacts[id])
    ensures Sound(env, after) && KeepsAll(before, after)
  {
    hide PactSound;
    assert after.pactSignatures == before.pactSignatures[id := before.pactSignatures[id]];
    ReplacesSound(env, before, after, id);
  }

  lemma PactKeptReflexive(p: Pact)
    ensures PactKept(p, p)
  {}

  lemma FindSignatureFinds(signatures: seq<PactSignature>, a: Address)
    ensures FindSignature(signatures, a).Some? <==> SignedBy(signatures, a)
  {
    hide SameText;
    if signatures != [] {
      FindSignatureFinds(signatures[1..], a);
      if SignedBy(signatures[1..], a) {
        var i :| 0 <= i < |signatures[1..]| && SameText(signatures[1..][i].signer, a);
        assert SameText(signatures[i + 1].signer, a);
      }
      if SignedBy(signatures, a) && !SameText(signatures[0].signer, a) {
        var i :| 0 <= i < |signatures| && SameText(signatures[i].signer, a);
        assert SameText(signatures[1..][i - 1].signer, a);
      }
    }
  }

  lemma CreatePactSound(env: Env, s: State, r: PactRequest, now: int)
    requires Sound(env, s) && CreatePactError(env, s, r, true).None?
    ensures Sound(env, CreatePact(env, s, r, now)) && KeepsAll(s, CreatePact(env, s, r, now))
  {
    hide CreatePactError, NewPact, PactSound, Authoritative, Sound, KeepsAll, Replaces, CreatePact;
    CreatePactReplaces(env, s, r, now);
    ReplacesSound(env, s, CreatePact(env, s, r, now), r.pactId);
  }

  lemma CreatePactReplaces(env: Env, s: State, r: PactRequest, now: int)
    requires Sound(env, s) && CreatePactError(env, s, r, true).None?
    ensures Replaces(env, s, CreatePact(env, s, r, now), r.pactId)
  {
    hide CreatePactError, NewPact, PactSound, AppendKey, PactKept;
    NewPactSound(env, s, r, now);
  }

  lemma NewPactSound(env: Env, s: State, r: PactRequest, now: int)
    requires CreatePactError(env, s, r, true).None?
    ensures PactSound(env, NewPact(env, s, r, now), []) && Authoritative(s, r.pactId, NewPact(env, s, r, now))
    ensures r.pactId !in s.pacts
  {
    hide SameText, CurrentUsage, Units, IsUnits, FindPlugin;
  }

  lemma SignatureAdded(env: Env, pact: Pact, signatures: seq<PactSignature>, signer: Address, signature: Signature)
    requires PactSound(env, pact, signatures) && pact.status == AwaitingSignatures && !SignedBy(signatures, signer)
    requires env.verify(PactMessage(pact.terms, pact.termsHash), signature, signer)
    requires SameText(signer, pact.terms.initiator) || SameText(signer, pact.terms.counterparty)
    ensures var more := signatures + [PactSignature(pact.terms, pact.termsHash, signer, signature)];
            && SignaturesGenuine(env, pact, more)
            && PactSound(env, pact, more)
            && (FullySigned(pact, more) ==>
                  PactSound(env, pact.(status := Accepted, revision := pact.revision + 1), more))
  {
    hide SameText, IsUnits, Units, PaymentConsistent;
    var more := signatures + [PactSignature(pact.terms, pact.termsHash, signer, signature)];
    var next := pact.(status := Accepted, revision := pact.revision + 1);
    assert SignaturesGenuine(env, pact, more) by { SignatureStaysGenuine(env, pact, signatures, signer, signature); }
    if FullySigned(pact, signatures) {
      SignedByMore(signatures, more, pact.terms.initiator);
      if pact.terms.requiresCounterpartySignature { SignedByMore(signatures, more, pact.terms.counterparty); }
    }
    SameSignatures(env, pact, next, more);
    SamePaymentConsistent(pact, next);
  }

  lemma SignedByMore(few: seq<PactSignature>, more: seq<PactSignature>, a: Address)
    requires few <= more && SignedBy(few, a)
    ensures SignedBy(more, a)
  {
    hide SameText;
    var i :| 0 <= i < |few| && SameText(few[i].signer, a);
    assert SameText(more[i].signer, a);
  }

  /** What signatures prove depends on the terms and their hash alone. */
  lemma SameSignatures(env: Env, pact: Pact, next: Pact, signatures: seq<PactSignature>)
    requires next.terms == pact.terms && next.termsHash == pact.termsHash
    ensures SignaturesGenuine(env, next, signatures) <==> SignaturesGenuine(env, pact, signatures)
    ensures FullySigned(next, signatures) <==> FullySigned(pact, signatures)
  {
    hide SameText, SignedBy;
  }

  lemma SignatureStaysGenuine(env: Env, pact: Pact, signatures: seq<PactSignature>, signer: Address,
                              signature: Signature)
    requires SignaturesGenuine(env, pact, signatures) && !SignedBy(signatures, signer)
    requires env.verify(PactMessage(pact.terms, pact.termsHash), signature, signer)
    requires SameText(signer, pact.terms.initiator) || SameText(signer, pact.terms.counterparty)
    ensures SignaturesGenuine(env, pact, signatures + [PactSignature(pact.terms, pact.termsHash, signer, signature)])
  {
    hide SameText;
    var more := signatures + [PactSignature(pact.terms, pact.termsHash, signer, signature)];
    forall i, j | 0 <= i < j < |more|
      ensures !SameText(more[i].signer, more[j].signer)
    {
      if j < |signatures| {
        assert !SameText(signatures[i].signer, signatures[j].signer);
      } else {
        assert !SameText(signatures[i].signer, signer);
      }
    }
  }

  lemma RepeatedSignature(s: State, id: string, signer: Address, signature: Signature, now: int)
    requires id in s.pacts && s.pacts[id].terms.workspaceId in s.workspaces
    requires FindSignature(SignaturesOf(s, id), signer).Some?
    ensures SignPact(s, id, signer, signature, now) == s
  {
    hide FindSignature;
  }

  lemma CountersignedSound(env: Env, pact: Pact, more: seq<PactSignature>)
    requires PactSound(env, pact, more)
    requires FullySigned(pact, more) ==> PactSound(env, pact.(status := Accepted, revision := pact.revision + 1), more)
    ensures PactSound(env, Countersigned(pact, pact.terms.initiator, more), more)
    ensures PactKept(pact, Countersigned(pact, pact.terms.initiator, more))
  {
    hide SignedBy, PactSound, PaymentBinding;
  }

  lemma SignatureReplaces(env: Env, s: State, id: string, signer: Address, signature: Signature, now: int)
    requires Sound(env, s) && id in s.pacts && s.pacts[id].terms.workspaceId in s.workspaces
    requires FindSignature(SignaturesOf(s, id), signer).None?
    requires var pact := s.pacts[id];
             var more := SignaturesOf(s, id) + [PactSignature(pact.terms, pact.termsHash, signer, signature)];
             && PactSound(env, pact, more)
             && (FullySigned(pact, more) ==>
                   PactSound(env, pact.(status := Accepted, revision := pact.revision + 1), more))
    ensures Replaces(env, s, SignPact(s, id, signer, signature, now), id)
  {
    hide FullySigned, PactSound, PactKept, FindSignature, Countersigned;
    var pact := s.pacts[id];
    SoundPact(env, s, id);
    CountersignedSound(env, pact, SignaturesOf(s, id)
                                  + [PactSignature(pact.terms, pact.termsHash, signer, signature)]);
  }

  lemma SignPactSound(env: Env, s: State, id: string, signer: Address, signature: Signature, now: int)
    requires Sound(env, s) && SignPactError(env, s, id, signer, signature).None?
    ensures Sound(env, SignPact(s, id, signer, signature, now)) && KeepsAll(s, SignPact(s, id, signer, signature, now))
  {
    hide SameText, SignedBy, PactSound, FindSignature, Sound, KeepsAll, Replaces, SignPact;
    FindSignatureFinds(SignaturesOf(s, id), signer);
    if FindSignature(SignaturesOf(s, id), signer).Some? {
      RepeatedSignature(s, id, signer, signature, now);
      Unchanged(env, s);
    } else {
      SoundPact(env, s, id);
      SignatureAdded(env, s.pacts[id], SignaturesOf(s, id), signer, signature);
      SignatureReplaces(env, s, id, signer, signature, now);
      ReplacesSound(env, s, SignPact(s, id, signer, signature, now), id);
    }
  }

  lemma PaymentReplaced(env: Env, pact: Pact, signatures: seq<PactSignature>, next: Pact)
    requires PactSound(env, pact, signatures)
    requires pact.status in {Accepted, PaymentPrepared, AwaitingWallet} && next.openRails.Some?
    requires next == pact.(openRails := next.openRails, status := next.status, revision := pact.revision + 1)
    requires if HasOpening(next) then next.status == Active else next.status == PaymentPrepared
    requires PaymentConsistent(next)
    ensures PactSound(env, next, signatures) && PactKept(pact, next)
  {
    hide SameText, Units, IsUnits, SignaturesGenuine, FullySigned, PaymentConsistent;
    SameSignatures(env, pact, next, signatures);
  }

  lemma PreparePaymentSound(env: Env, s: State, id: string, q: Preparation, now: int)
    requires Sound(env, s) && PreparePaymentError(env, s, id, q, now).None?
    ensures Sound(env, PreparePayment(s, id, q, now)) && KeepsAll(s, PreparePayment(s, id, q, now))
  {
    hide Eligible, PactSound, PactKept, PactIntact, Sound, KeepsAll, Authoritative;
    var after := PreparePayment(s, id, q, now);
    SoundPact(env, s, id);
    PaymentReplaced(env, s.pacts[id], s.pactSignatures[id], after.pacts[id]);
    MovedSound(env, s, after, id);
  }

  lemma OpenPaymentSound(env: Env, s: State, id: string, metadataHash: Hex, paycardId: Hex, txHash: Hex,
                         o: OpeningObservation, now: int)
    requires Sound(env, s) && OpenPaymentError(env, s, id, metadataHash, paycardId, txHash, o, now).None?
    ensures Sound(env, OpenPayment(s, id, txHash, o, now)) && KeepsAll(s, OpenPayment(s, id, txHash, o, now))
  {
    hide Eligible, PactSound, PactKept, PactIntact, OpeningMatches, PaymentConsistent, Sound, KeepsAll, Authoritative;
    var after := OpenPayment(s, id, txHash, o, now);
    SoundPact(env, s, id);
    OpeningConsistent(env, s.pacts[id], s.pactSignatures[id], after.pacts[id]);
    PaymentReplaced(env, s.pacts[id], s.pactSignatures[id], after.pacts[id]);
    MovedSound(env, s, after, id);
  }

  lemma OpeningConsistent(env: Env, pact: Pact, signatures: seq<PactSignature>, next: Pact)
    requires PactSound(env, pact, signatures) && pact.status in {PaymentPrepared, AwaitingWallet}
    requires pact.openRails.Some? && HasOpening(next) && next.terms == pact.terms
    requires next.openRails.value.openingTxHash.Some?
    requires next.openRails.value == pact.openRails.value.(openingTxHash := next.openRails.value.openingTxHash,
                                                           opening := next.openRails.value.opening)
    requires OpeningMatches(next.terms, next.openRails.value.metadataHash, next.openRails.value.paycardId,
                            next.openRails.value.openingTxHash.value, next.openRails.value.opening.value)
    ensures PaymentConsistent(next)
  {
    hide OpeningMatches, SettlementMatches, SignaturesGenuine, FullySigned, PactIntact, SameText;
  }

  /** A change of status and revision only, to a status the Pact's payment allows. */
  lemma StatusChanged(env: Env, pact: Pact, signatures: seq<PactSignature>, next: Pact)
    requires PactSound(env, pact, signatures)
    requires next == pact.(status := next.status, revision := next.revision) && pact.revision <= next.revision
    requires next.status == pact.status || next.status in {Completed, Disputed, RectificationRequired}
             || (next.status == Performing && pact.status == Active)
    ensures PactSound(env, next, signatures) && PactKept(pact, next)
  {
    hide SameText, IsUnits, Units, SignaturesGenuine, FullySigned, PaymentConsistent;
    SameSignatures(env, pact, next, signatures);
    SamePaymentConsistent(pact, next);
  }

  lemma SamePaymentConsistent(pact: Pact, next: Pact)
    requires next.terms == pact.terms && next.openRails == pact.openRails
    requires pact.openRails.Some? ==> PaymentConsistent(pact)
    ensures next.openRails.Some? ==> PaymentConsistent(next)
  {
    hide SameText, OpeningMatches, SettlementMatches;
  }

  lemma SubmitCheckpointSound(env: Env, s: State, c: Checkpoint, signature: Signature, now: int)
    requires Sound(env, s) && SubmitCheckpointError(env, s, c, signature, now).None?
    ensures Sound(env, SubmitCheckpoint(s, c, now)) && KeepsAll(s, SubmitCheckpoint(s, c, now))
  {
    hide SameText, PactSound, PactKept, PactIntact, Sound, KeepsAll, Authoritative, CheckpointIds;
    var after := SubmitCheckpoint(s, c, now);
    SoundPact(env, s, c.pactId);
    StatusChanged(env, s.pacts[c.pactId], s.pactSignatures[c.pactId], after.pacts[c.pactId]);
    MovedSound(env, s, after, c.pactId);
  }

  lemma VerifyCheckpointSound(env: Env, s: State, checkpointId: string, v: Verdict, now: int)
    requires Sound(env, s) && checkpointId in s.checkpoints && s.checkpoints[checkpointId].pactId in s.pacts
    ensures Sound(env, VerifyCheckpoint(s, checkpointId, v, now))
    ensures KeepsAll(s, VerifyCheckpoint(s, checkpointId, v, now))
  {
    hide PactSound, PactKept, PactIntact, Sound, KeepsAll, Authoritative;
    var id, after := s.checkpoints[checkpointId].pactId, VerifyCheckpoint(s, checkpointId, v, now);
    SoundPact(env, s, id);
    StatusChanged(env, s.pacts[id], s.pactSignatures[id], after.pacts[id]);
    MovedSound(env, s, after, id);
  }

  lemma VerifyCheckpointTarget(env: Env, s: State, checkpointId: string, key: (string, string), v: Option<Verdict>)
    requires VerifyCheckpointError(env, s, checkpointId, key, v).None?
    ensures v.Some? && checkpointId in s.checkpoints && s.checkpoints[checkpointId].pactId in s.pacts
  {}

  lemma OpenGaiaCaseSound(env: Env, s: State, g: GaiaCase, signature: Signature, now: int)
    requires Sound(env, s) && OpenGaiaCaseError(env, s, g, signature, now).None?
    ensures Sound(env, OpenGaiaCase(s, g, now)) && KeepsAll(s, OpenGaiaCase(s, g, now))
  {
    hide SameText, PactSound, PactKept, PactIntact, Sound, KeepsAll, Authoritative;
    var after := OpenGaiaCase(s, g, now);
    SoundPact(env, s, g.pactId);
    StatusChanged(env, s.pacts[g.pactId], s.pactSignatures[g.pactId], after.pacts[g.pactId]);
    MovedSound(env, s, after, g.pactId);
  }

  lemma ResolveGaiaCaseTarget(env: Env, s: State, caseId: string, resolver: Address, d: GaiaDecision, c: Command,
                              signature: Signature, now: int)
    requires ResolveGaiaCaseError(env, s, caseId, resolver, d, c, signature, now).None?
    ensures caseId in s.gaiaCases && s.gaiaCases[caseId].pactId in s.pacts
  {
    hide CommandError, MayResolve;
  }

  lemma ResolveGaiaCaseSound(env: Env, s: State, caseId: string, d: GaiaDecision, c: Command, now: int)
    requires Sound(env, s) && caseId in s.gaiaCases && s.gaiaCases[caseId].pactId in s.pacts
    ensures Sound(env, ResolveGaiaCase(s, caseId, d, c, now)) && KeepsAll(s, ResolveGaiaCase(s, caseId, d, c, now))
  {
    hide PactSound, PactKept, Sound, KeepsAll, Authoritative, NextNonce, SameRegistry;
    var id, after := s.gaiaCases[caseId].pactId, ResolveGaiaCase(s, caseId, d, c, now);
    SoundPact(env, s, id);
    StatusChanged(env, s.pacts[id], s.pactSignatures[id], after.pacts[id]);
    MovedSound(env, s, after, id);
  }

  lemma SettlementAdded(pact: Pact, o: SettlementObservation)
    requires pact.openRails.Some? && HasOpening(pact) && PaymentConsistent(pact)
    requires SettlementMatches(pact.terms, pact.openRails.value.paycardId, o.transactionHash, o.settledAmount, o)
    requires !HasSettlement(pact.openRails.value.settlements, o.transactionHash)
    ensures PaymentConsistent(pact.(openRails := Some(pact.openRails.value.(
              settlements := pact.openRails.value.settlements + [o]))))
  {
    hide SameText, OpeningMatches, SettlementMatches;
    var settlements := pact.openRails.value.settlements;
    forall i | 0 <= i < |settlements|
      ensures !SameText(settlements[i].transactionHash, o.transactionHash)
    {}
  }

  lemma MatchesOwnHash(t: PactTerms, paycardId: Hex, txHash: Hex, amount: string, o: SettlementObservation)
    requires SettlementMatches(t, paycardId, txHash, amount, o)
    ensures SettlementMatches(t, paycardId, o.transactionHash, o.settledAmount, o)
  {}

  lemma SettledWithSound(env: Env, pact: Pact, signatures: seq<PactSignature>, txHash: Hex, amount: string,
                         o: SettlementObservation)
    requires PactSound(env, pact, signatures) && HasOpening(pact)
    requires SettlementMatches(pact.terms, pact.openRails.value.paycardId, txHash, amount, o)
    ensures PactSound(env, SettledWith(pact, o), signatures) && PactKept(pact, SettledWith(pact, o))
  {
    hide SameText, PactIntact, SignaturesGenuine, FullySigned, PaymentConsistent, HasSettlement, SettlementMatches;
    var next := SettledWith(pact, o);
    SameSignatures(env, pact, next, signatures);
    IntactByTerms(env, pact, next);
    if HasSettlement(pact.openRails.value.settlements, o.transactionHash) {
      SamePaymentConsistent(pact, next);
    } else {
      MatchesOwnHash(pact.terms, pact.openRails.value.paycardId, txHash, amount, o);
      SettlementAdded(pact, o);
      SamePaymentConsistent(pact.(openRails := next.openRails), next);
    }
  }

  lemma IntactByTerms(env: Env, pact: Pact, next: Pact)
    requires PactIntact(env, pact) && next.terms == pact.terms && next.termsHash == pact.termsHash
    ensures PactIntact(env, next)
  {
    hide Units, IsUnits;
  }

  lemma SettlementSound(env: Env, s: State, id: string, txHash: Hex, amount: string, o: SettlementObservation, now: int)
    requires Sound(env, s) && RecordSettlementError(env, s, id, txHash, amount, o).None?
    ensures Sound(env, RecordSettlement(s, id, o, now)) && KeepsAll(s, RecordSettlement(s, id, o, now))
  {
    hide PactIntact, PactSound, PactKept, SettledWith, SettlementMatches, Units, IsUnits, Sound, KeepsAll,
         Authoritative;
    SoundPact(env, s, id);
    SettledWithSound(env, s.pacts[id], s.pactSignatures[id], txHash, amount, o);
    MovedSound(env, s, RecordSettlement(s, id, o, now), id);
  }

  /** Operations that touch no Pact. */
  lemma RegistrySound(env: Env, s: State, after: State)
    requires Sound(env, s) && SamePacts(s, after)
    requires forall w :: w in s.workspaces ==> w in after.workspaces && after.workspaces[w] == s.workspaces[w]
    ensures Sound(env, after) && KeepsAll(s, after)
  {
    hide PactSound, PactKept;
    forall id | id in s.pacts
      ensures Keeps(s, after, id)
    {
      PactKeptReflexive(s.pacts[id]);
    }
  }

  lemma RegistryCallSound(env: Env, s: State, op: Op, now: int)
    requires Sound(env, s)
    ensures Sound(env, RegistryCall(env, s, op, now)) && KeepsAll(s, RegistryCall(env, s, op, now))
  {
    hide Sound, KeepsAll, RegisterWorkspaceError, RegisterAgentError, SetAgentStatusError, ActivatePathError,
         InstallPluginError, SubmitProposalError, SetAgentStatus, ActivatePath, SubmitProposal, RunJob, UseNonce;
    Unchanged(env, s);
    match op
    case OpRegisterWorkspace(w, sig) =>
      if RegisterWorkspaceError(env, s, w, sig).None? {
        NewWorkspace(env, s, w, sig);
        RegistrySound(env, s, s.(workspaces := s.workspaces[w.workspaceId := w]));
      }
    case OpRegisterAgent(a, _, _) => RegistrySound(env, s, s.(agents := s.agents[a.agentId := a]));
    case OpSetAgentStatus(w, a, status, c, sig) =>
      if SetAgentStatusError(env, s, w, a, status, c, sig, now).None? {
        SetAgentStatusTarget(env, s, w, a, status, c, sig, now);
        SetAgentStatusSound(env, s, a, status, c);
      }
    case OpActivatePath(path, sig) => ActivatePathSound(env, s, path, sig);
    case OpInstallPlugin(key, m, c, _) => InstallPluginSound(env, s, key, m, c);
    case OpSubmitProposal(p) => SubmitProposalSound(env, s, p);
    case OpRunJob(id, identity) =>
      RunJobSound(env, s, id, id in s.jobs && AllowedNow(env, s, s.jobs[id].proposalId, identity, now));
    case _ =>
  }

  lemma PaymentCallSound(env: Env, s: State, op: Op, now: int)
    requires Sound(env, s)
    ensures Sound(env, PaymentCall(env, s, op, now)) && KeepsAll(s, PaymentCall(env, s, op, now))
  {
    hide Sound, KeepsAll, CreatePactError, CreatePact, SignPactError, SignPact, PreparePaymentError, PreparePayment,
         OpenPaymentError, OpenPayment, RecordSettlementError, RecordSettlement, AllowedNow;
    Unchanged(env, s);
    match op
    case OpCreatePact(r, identity) =>
      var allow := AllowedNow(env, s, r.proposalId, identity, now);
      if CreatePactError(env, s, r, allow).None? {
        CreateOnlyIfAllowed(env, s, r, allow);
        CreatePactSound(env, s, r, now);
      }
    case OpSignPact(id, signer, sig) =>
      if SignPactError(env, s, id, signer, sig).None? { SignPactSound(env, s, id, signer, sig, now); }
    case OpPreparePayment(id, q) =>
      if PreparePaymentError(env, s, id, q, now).None? { PreparePaymentSound(env, s, id, q, now); }
    case OpOpenPayment(id, m, card, tx, o) =>
      if OpenPaymentError(env, s, id, m, card, tx, o, now).None? { OpenPaymentSound(env, s, id, m, card, tx, o, now); }
    case OpRecordSettlement(id, tx, amount, o) =>
      if RecordSettlementError(env, s, id, tx, amount, o).None? { SettlementSound(env, s, id, tx, amount, o, now); }
    case _ =>
  }

  lemma CaseCallSound(env: Env, s: State, op: Op, now: int)
    requires Sound(env, s)
    ensures Sound(env, CaseCall(env, s, op, now)) && KeepsAll(s, CaseCall(env, s, op, now))
  {
    hide Sound, KeepsAll, SubmitCheckpointError, SubmitCheckpoint, VerifyCheckpointError, VerifyCheckpoint,
         OpenGaiaCaseError, OpenGaiaCase, ResolveGaiaCaseError, ResolveGaiaCase;
    Unchanged(env, s);
    match op
    case OpSubmitCheckpoint(c, sig) =>
      if SubmitCheckpointError(env, s, c, sig, now).None? { SubmitCheckpointSound(env, s, c, sig, now); }
    case OpVerifyCheckpoint(id, key, v) =>
      if VerifyCheckpointError(env, s, id, key, v).None? {
        VerifyCheckpointTarget(env, s, id, key, v);
        VerifyCheckpointSound(env, s, id, v.value, now);
      }
    case OpOpenGaiaCase(g, sig) =>
      if OpenGaiaCaseError(env, s, g, sig, now).None? { OpenGaiaCaseSound(env, s, g, sig, now); }
    case OpResolveGaiaCase(id, r, d, c, sig) =>
      if ResolveGaiaCaseError(env, s, id, r, d, c, sig, now).None? {
        ResolveGaiaCaseTarget(env, s, id, r, d, c, sig, now);
        ResolveGaiaCaseSound(env, s, id, d, c, now);
      }
    case _ =>
  }

  /** No operation breaks the soundness of any Pact, and none takes back what it was opened with. */
  lemma StepSound(env: Env, s: State, op: Op, now: int)
    requires Sound(env, s)
    ensures Sound(env, Step(env, s, op, now)) && KeepsAll(s, Step(env, s, op, now))
  {
    hide Sound, KeepsAll, RegistryCall, PaymentCall, CaseCall;
    RegistryCallSound(env, s, op, now);
    PaymentCallSound(env, s, op, now);
    CaseCallSound(env, s, op, now);
  }

  lemma NewWorkspace(env: Env, s: State, w: Workspace, signature: Signature)
    requires RegisterWorkspaceError(env, s, w, signature).None?
    ensures w.workspaceId !in s.workspaces
  {
    hide ActiveOwner;
  }

  lemma SetAgentStatusTarget(env: Env, s: State, workspaceId: string, agentId: string, status: AgentStatus,
                             c: Command, signature: Signature, now: int)
    requires SetAgentStatusError(env, s, workspaceId, agentId, status, c, signature, now).None?
    ensures agentId in s.agents
  {
    hide CommandError;
  }

  lemma SetAgentStatusSound(env: Env, s: State, agentId: string, status: AgentStatus, c: Command)
    requires Sound(env, s) && agentId in s.agents
    ensures Sound(env, SetAgentStatus(s, agentId, status, c)) && KeepsAll(s, SetAgentStatus(s, agentId, status, c))
  {
    hide Sound, KeepsAll;
    RegistrySound(env, s, SetAgentStatus(s, agentId, status, c));
  }

  lemma ActivatePathSound(env: Env, s: State, path: Path, signature: Signature)
    requires Sound(env, s)
    ensures Sound(env, ActivatePath(env, s, path, signature)) && KeepsAll(s, ActivatePath(env, s, path, signature))
  {
    hide Sound, KeepsAll;
    RegistrySound(env, s, ActivatePath(env, s, path, signature));
  }

  lemma InstallPluginSound(env: Env, s: State, key: (string, string), m: Manifest, c: Command)
    requires Sound(env, s)
    ensures Sound(env, UseNonce(s, c).(plugins := s.plugins[key := m]))
    ensures KeepsAll(s, UseNonce(s, c).(plugins := s.plugins[key := m]))
  {
    hide Sound, KeepsAll;
    RegistrySound(env, s, UseNonce(s, c).(plugins := s.plugins[key := m]));
  }

  lemma SubmitProposalSound(env: Env, s: State, p: Proposal)
    requires Sound(env, s)
    ensures Sound(env, SubmitProposal(env, s, p)) && KeepsAll(s, SubmitProposal(env, s, p))
  {
    hide Sound, KeepsAll, AlreadySubmitted, SubmittedJob, AppendKey, IdempotencyKey, FindJob, Units, IsUnits;
    if AlreadySubmitted(s, p) {
      Unchanged(env, s);
    } else {
      RegistrySound(env, s, SubmitProposal(env, s, p));
    }
  }

  lemma RunJobSound(env: Env, s: State, jobId: string, allow: bool)
    requires Sound(env, s)
    ensures Sound(env, RunJob(s, jobId, allow)) && KeepsAll(s, RunJob(s, jobId, allow))
  {
    hide Sound, KeepsAll;
    RegistrySound(env, s, RunJob(s, jobId, allow));
  }

  lemma Unchanged(env: Env, s: State)
    requires Sound(env, s)
    ensures KeepsAll(s, s)
  {
    RegistrySound(env, s, s);
  }

  lemma CreateOnlyIfAllowed(env: Env, s: State, r: PactRequest, allow: bool)
    requires CreatePactError(env, s, r, allow).None?
    ensures allow && CreatePactError(env, s, r, true).None?
  {}

  // ---- Runs --------------------------------------------------------------------------------------

  lemma {:induction false} RunSound(env: Env, s: State, run: seq<Event>)
    requires Sound(env, s)
    ensures Sound(env, Run(env, s, run)) && KeepsAll(s, Run(env, s, run))
  {
    hide Sound, Step, PactKept;
    if run == [] {
      Unchanged(env, s);
    } else {
      var last := run[|run| - 1];
      var mid := Run(env, s, run[..|run| - 1]);
      RunSound(env, s, run[..|run| - 1]);
      StepSound(env, mid, last.op, last.now);
      forall id | id in s.pacts
        ensures Keeps(s, Run(env, s, run), id)
      {
        assert Keeps(s, mid, id) && Keeps(mid, Run(env, s, run), id);
        KeptTransitively(s.pacts[id], mid.pacts[id], Run(env, s, run).pacts[id]);
      }
    }
  }

  lemma RunSoundFromEmpty(env: Env, run: seq<Event>)
    ensures Sound(env, Run(env, EMPTY_STATE, run))
  {
    hide Run, PactSound;
    assert Sound(env, EMPTY_STATE);
    RunSound(env, EMPTY_STATE, run);
  }

  lemma KeptTransitively(p: Pact, q: Pact, r: Pact)
    requires PactKept(p, q) && PactKept(q, r)
    ensures PactKept(p, r)
  {}

  lemma RunSplit(env: Env, s: State, first: seq<Event>, second: seq<Event>)
    ensures Run(env, s, first + second) == Run(env, Run(env, s, first), second)
  {
    hide Step;
    if second == [] {
      assert first + second == first;
    } else {
      assert (first + second)[..|first + second| - 1] == first + second[..|second| - 1];
      RunSplit(env, s, first, second[..|second| - 1]);
    }
  }

  /**
   * In every reachable state an active, performing or settled Pact was opened on the chain as agreed: by the recorded
   * transaction, on the chain and vault of its terms, under the Paycard and metadata it was prepared with, between the
   * parties of its terms, with their allocation, velocity and lifespan, not terminated and with something available.
   * Its signatures over its terms hash, by the Workspace authority and, where required, the counterparty, verify; its
   * terms still hash to its terms hash.
   */
  lemma ExecutingPactsAreAuthorised(env: Env, run: seq<Event>, id: string)
    requires id in Run(env, EMPTY_STATE, run).pacts
    requires Run(env, EMPTY_STATE, run).pacts[id].status in {Active, Performing, Settled}
    ensures var s := Run(env, EMPTY_STATE, run);
            var pact, t := s.pacts[id], s.pacts[id].terms;
            && env.hashTerms(t) == pact.termsHash
            && t.workspaceId in s.workspaces
            && GenuinelySignedBy(env, s, id, s.workspaces[t.workspaceId].authorityAccount)
            && (t.requiresCounterpartySignature ==> GenuinelySignedBy(env, s, id, t.counterparty))
    ensures var pact := Run(env, EMPTY_STATE, run).pacts[id];
            && pact.openRails.Some? && pact.openRails.value.opening.Some? && pact.openRails.value.openingTxHash.Some?
            && var prepared, pay := pact.openRails.value, pact.terms.payment;
            && var o := prepared.opening.value;
            && Lower(o.transactionHash) == Lower(prepared.openingTxHash.value)
            && o.chainId == pay.chainId && Lower(o.vault) == Lower(pay.vault)
            && o.paycardId == prepared.paycardId && o.metadataHash == prepared.metadataHash
            && Lower(o.payer) == Lower(pay.payer) && Lower(o.recipient) == Lower(pay.recipient)
            && Lower(o.residualRecipient) == Lower(pay.residualRecipient)
            && o.poolAllocation == pay.maximumAllocation && o.flowVelocity == pay.velocity
            && o.lifespanSeconds == pay.lifespanSeconds
            && o.operationalStatus == 0 && IsUnits(o.availableBalance) && Units(o.availableBalance) > 0
  {
    hide Run, Step, Lower, IsUnits, Units, SettlementMatches;
    assert Sound(env, EMPTY_STATE);
    RunSound(env, EMPTY_STATE, run);
    var s := Run(env, EMPTY_STATE, run);
    assert PactSound(env, s.pacts[id], s.pactSignatures[id]);
    PartySigned(env, s, id, s.pacts[id].terms.initiator);
    if s.pacts[id].terms.requiresCounterpartySignature { PartySigned(env, s, id, s.pacts[id].terms.counterparty); }
  }

  /**
   * In every reachable state each settlement on record was observed on the chain and vault of the Pact's terms, from
   * the Paycard of its preparation to its recipient, after an opening; no transaction is on record twice.
   */
  lemma SettlementsAreOfThePact(env: Env, run: seq<Event>, id: string)
    requires id in Run(env, EMPTY_STATE, run).pacts && Run(env, EMPTY_STATE, run).pacts[id].openRails.Some?
    ensures var pact := Run(env, EMPTY_STATE, run).pacts[id];
            var prepared, pay := pact.openRails.value, pact.terms.payment;
            var settled := prepared.settlements;
            && (settled != [] ==> prepared.opening.Some?)
            && (forall i :: 0 <= i < |settled| ==>
                  && settled[i].chainId == pay.chainId && Lower(settled[i].vault) == Lower(pay.vault)
                  && settled[i].paycardId == prepared.paycardId && Lower(settled[i].recipient) == Lower(pay.recipient))
            && (forall i, j :: 0 <= i < j < |settled| ==>
                  Lower(settled[i].transactionHash) != Lower(settled[j].transactionHash))
  {
    hide Run, Step, Lower, OpeningMatches, Sound, PactIntact, SignaturesGenuine, FullySigned;
    RunSoundFromEmpty(env, run);
    SoundPact(env, Run(env, EMPTY_STATE, run), id);
  }

  lemma PartySigned(env: Env, s: State, id: string, party: Address)
    requires id in s.pacts && SignaturesGenuine(env, s.pacts[id], SignaturesOf(s, id))
    requires SignedBy(SignaturesOf(s, id), party)
    ensures GenuinelySignedBy(env, s, id, party)
  {
    hide SameText;
    var i :| 0 <= i < |SignaturesOf(s, id)| && SameText(SignaturesOf(s, id)[i].signer, party);
  }

  ghost predicate GenuinelySignedBy(env: Env, s: State, id: string, party: Address)
    requires id in s.pacts
  {
    exists i :: 0 <= i < |SignaturesOf(s, id)| && SameText(SignaturesOf(s, id)[i].signer, party)
      && SignaturesOf(s, id)[i].hash == s.pacts[id].termsHash
      && env.verify(PactMessage(s.pacts[id].terms, s.pacts[id].termsHash), SignaturesOf(s, id)[i].signature,
                    SignaturesOf(s, id)[i].signer)
  }

  /**
   * Between any two states of a run a Pact keeps its terms and signatures; once opened it stays in the statuses
   * that follow an opening, with the same Paycard and opening observation and a growing list of settlements.
   */
  lemma OpenedPactsStayOpened(env: Env, first: seq<Event>, second: seq<Event>, id: string)
    requires id in Run(env, EMPTY_STATE, first).pacts
    ensures Keeps(Run(env, EMPTY_STATE, first), Run(env, EMPTY_STATE, first + second), id)
    ensures HasOpening(Run(env, EMPTY_STATE, first).pacts[id]) ==>
              Run(env, EMPTY_STATE, first + second).pacts[id].status
                !in {AwaitingSignatures, Accepted, PaymentPrepared, AwaitingWallet}
  {
    hide Run, Step, PactIntact, SignaturesGenuine, FullySigned, PaymentConsistent;
    assert Sound(env, EMPTY_STATE);
    RunSound(env, EMPTY_STATE, first);
    RunSplit(env, EMPTY_STATE, first, second);
    RunSound(env, Run(env, EMPTY_STATE, first), second);
    var s := Run(env, EMPTY_STATE, first + second);
    assert PactSound(env, s.pacts[id], s.pactSignatures[id]);
  }
}
