/**
 * The `ZkVerifier` runtime pallet: a registry of Groth16 verifying keys indexed by circuit
 * identifier, and a record of which (account, circuit) pairs have submitted a proof that verified.
 *
 * The Groth16 verifier and the canonical deserialisers of BLS12-381 artefacts are foreign code;
 * they enter the model as the four fields of a `Groth16` value, about which nothing is assumed.
 */
module ZkVerifier {
  import opened Wrappers
  import opened Primitives

  /** A proof as submitted in a transaction: serialised Groth16 proof and one serialised field element per public input. */
  datatype ZkProof = ZkProof(proof: Bytes, publicInputs: seq<Bytes>)

  /** Deserialised `VerifyingKey<Bls12_381>`; its structure is not modelled. */
  type VerifyingKey

  /** Deserialised `Proof<Bls12_381>`; its structure is not modelled. */
  type Proof

  /** A BLS12-381 scalar field element `Fr`; its arithmetic is not modelled. */
  type Fr

  /**
   * The cryptographic backend. Each decoder returns `None` where `deserialize` returns an error;
   * `verify` returns `None` where `ark_groth16::verify_proof` returns an error.
   */
  datatype Groth16 = Groth16(
    decodeVerifyingKey: Bytes -> Option<VerifyingKey>,
    decodeProof: Bytes -> Option<Proof>,
    decodeFr: Bytes -> Option<Fr>,
    verify: (VerifyingKey, Proof, seq<Fr>) -> Option<bool>)

  /** The pallet's declared errors. `ProofAlreadyVerified` is declared but no call returns it. */
  datatype Error = InvalidProof | VerifyingKeyNotFound | ProofAlreadyVerified

  /** Why a dispatched call failed: the origin check of the host, or a pallet error. */
  datatype DispatchError = BadOrigin | Module(error: Error)

  type DispatchResult = Result<Unit, DispatchError>

  datatype Event = ProofVerified(who: AccountId, circuitId: Bytes) | VerifyingKeySet(circuitId: Bytes)

  /** The pallet's storage (`VerifyingKeys`, `VerifiedProofs`) together with the events it has deposited. */
  datatype State = State(
    verifyingKeys: map<Bytes, Bytes>,
    verifiedProofs: map<(AccountId, Bytes), bool>,
    events: seq<Event>)

  /** What one dispatched call leaves behind: the new state and the call's result. */
  datatype Outcome = Outcome(state: State, result: DispatchResult)

  /** Storage and event log at genesis. */
  const Genesis := State(map[], map[], [])

  /** The key registered for `circuitId`, if any. */
  function VerifyingKeyOf(s: State, circuitId: Bytes): (vk: Option<Bytes>)
    ensures vk.Some? <==> circuitId in s.verifyingKeys
    ensures vk.Some? ==> vk.value == s.verifyingKeys[circuitId]
  {
    if circuitId in s.verifyingKeys then Some(s.verifyingKeys[circuitId]) else None
  }

  /** The `verified_proof` getter: a value query, so a pair never written reads as `false`. */
  function VerifiedProof(s: State, who: AccountId, circuitId: Bytes): (verified: bool)
    ensures (who, circuitId) !in s.verifiedProofs ==> !verified
    ensures (who, circuitId) in s.verifiedProofs ==> verified == s.verifiedProofs[(who, circuitId)]
  {
    (who, circuitId) in s.verifiedProofs && s.verifiedProofs[(who, circuitId)]
  }

  /** Decodes every public input, failing as a whole when any one of them fails to decode. */
  function DecodePublicInputs(g: Groth16, inputs: seq<Bytes>): (r: Option<seq<Fr>>)
    ensures r.Some? <==> forall i :: 0 <= i < |inputs| ==> g.decodeFr(inputs[i]).Some?
    ensures r.Some? ==> |r.value| == |inputs|
    ensures r.Some? ==> forall i :: 0 <= i < |inputs| ==> g.decodeFr(inputs[i]) == Some(r.value[i])
  {
    if inputs == [] then Some([])
    else
      match g.decodeFr(inputs[0])
      case None => None
      case Some(x) =>
        match DecodePublicInputs(g, inputs[1..])
        case None => None
        case Some(xs) => Some([x] + xs)
  }

  /**
   * Whether the key bytes and the submitted proof pass every step between the key lookup and
   * the storage write: deserialising the key, the proof and each public input, and running
   * the verifier. The public inputs are those of the submitted `ZkProof`.
   */
  function Groth16Accepts(g: Groth16, vkBytes: Bytes, proof: ZkProof): (ok: bool)
    ensures g.decodeVerifyingKey(vkBytes).None? ==> !ok
    ensures g.decodeProof(proof.proof).None? ==> !ok
    ensures (exists i :: 0 <= i < |proof.publicInputs| && g.decodeFr(proof.publicInputs[i]).None?) ==> !ok
    ensures ok <==>
      var vk, p, inputs := g.decodeVerifyingKey(vkBytes), g.decodeProof(proof.proof), DecodePublicInputs(g, proof.publicInputs);
      vk.Some? && p.Some? && inputs.Some? && g.verify(vk.value, p.value, inputs.value) == Some(true)
  {
    match g.decodeVerifyingKey(vkBytes)
    case None => false
    case Some(vk) =>
      match g.decodeProof(proof.proof)
      case None => false
      case Some(p) =>
        match DecodePublicInputs(g, proof.publicInputs)
        case None => false
        case Some(inputs) => g.verify(vk, p, inputs) == Some(true)
  }

  /** `set_verifying_key` as one atomic step. */
  function SetVerifyingKeyStep(s: State, origin: Option<AccountId>, circuitId: Bytes, vk: Bytes): (o: Outcome)
    ensures origin.None? ==> o == Outcome(s, Err(BadOrigin))
    ensures origin.Some? ==> o.result == Ok(Unit)
    ensures origin.Some? ==> VerifyingKeyOf(o.state, circuitId) == Some(vk)
    ensures forall c :: c != circuitId ==> VerifyingKeyOf(o.state, c) == VerifyingKeyOf(s, c)
    ensures o.state.verifiedProofs == s.verifiedProofs
    ensures origin.Some? ==> o.state.events == s.events + [VerifyingKeySet(circuitId)]
  {
    if origin.None? then Outcome(s, Err(BadOrigin))
    else
      Outcome(s.(verifyingKeys := s.verifyingKeys[circuitId := vk],
                 events := s.events + [VerifyingKeySet(circuitId)]),
              Ok(Unit))
  }

  /** `verify_proof` as one atomic step: either every write is made or none is. */
  function VerifyProofStep(g: Groth16, s: State, origin: Option<AccountId>, proof: ZkProof, circuitId: Bytes): (o: Outcome)
    ensures origin.None? ==> o == Outcome(s, Err(BadOrigin))
    ensures o.result.Err? ==> o.state == s
    ensures o.result == Err(Module(VerifyingKeyNotFound)) <==> origin.Some? && VerifyingKeyOf(s, circuitId).None?
    ensures o.result == Err(Module(InvalidProof)) <==>
      origin.Some? && circuitId in s.verifyingKeys && !Groth16Accepts(g, s.verifyingKeys[circuitId], proof)
    ensures o.result.Ok? <==>
      origin.Some? && circuitId in s.verifyingKeys && Groth16Accepts(g, s.verifyingKeys[circuitId], proof)
    ensures o.result != Err(Module(ProofAlreadyVerified))
    ensures o.result.Ok? ==> o.state.verifyingKeys == s.verifyingKeys
    ensures o.result.Ok? ==> o.state.verifiedProofs == s.verifiedProofs[(origin.value, circuitId) := true]
    ensures o.result.Ok? ==> forall who: AccountId, c: Bytes :: VerifiedProof(o.state, who, c) <==> VerifiedProof(s, who, c) || (who, c) == (origin.value, circuitId)
    ensures o.result.Ok? ==> o.state.events == s.events + [ProofVerified(origin.value, circuitId)]
  {
    if origin.None? then Outcome(s, Err(BadOrigin))
    else if circuitId !in s.verifyingKeys then Outcome(s, Err(Module(VerifyingKeyNotFound)))
    else if !Groth16Accepts(g, s.verifyingKeys[circuitId], proof) then Outcome(s, Err(Module(InvalidProof)))
    else
      var who := origin.value;
      Outcome(s.(verifiedProofs := s.verifiedProofs[(who, circuitId) := true],
                 events := s.events + [ProofVerified(who, circuitId)]),
              Ok(Unit))
  }

  /** Only `true` is ever written to `VerifiedProofs`. */
  ghost predicate OnlyTrueRecorded(s: State) {
    forall k :: k in s.verifiedProofs ==> s.verifiedProofs[k]
  }

  /** Both calls keep `VerifiedProofs` free of `false` entries, starting from genesis. */
  lemma StepsRecordOnlyTrue(g: Groth16, s: State, origin: Option<AccountId>, proof: ZkProof, circuitId: Bytes, vk: Bytes)
    requires OnlyTrueRecorded(s)
    ensures OnlyTrueRecorded(Genesis)
    ensures OnlyTrueRecorded(SetVerifyingKeyStep(s, origin, circuitId, vk).state)
    ensures OnlyTrueRecorded(VerifyProofStep(g, s, origin, proof, circuitId).state)
  {
  }

  /**
   * No replay protection: resubmitting an accepted proof for the same pair succeeds again,
   * leaves both tables as they were after the first submission and deposits a second event.
   */
  lemma ResubmissionSucceedsAgain(g: Groth16, s: State, who: AccountId, proof: ZkProof, circuitId: Bytes)
    requires VerifyProofStep(g, s, Some(who), proof, circuitId).result.Ok?
    ensures
      var first := VerifyProofStep(g, s, Some(who), proof, circuitId);
      var second := VerifyProofStep(g, first.state, Some(who), proof, circuitId);
      second.result.Ok?
      && second.state.verifyingKeys == first.state.verifyingKeys
      && second.state.verifiedProofs == first.state.verifiedProofs
      && second.state.events == s.events + [ProofVerified(who, circuitId), ProofVerified(who, circuitId)]
  {
  }

  /**
   * After a key is set for a circuit, proofs for that circuit are judged against that key
   * alone, and every result recorded before the replacement still reads as it did.
   */
  lemma LatestKeyDecides(g: Groth16, s: State, setter: AccountId, circuitId: Bytes, vk: Bytes,
                         who: AccountId, proof: ZkProof)
    ensures
      var s' := SetVerifyingKeyStep(s, Some(setter), circuitId, vk).state;
      (VerifyProofStep(g, s', Some(who), proof, circuitId).result.Ok? <==> Groth16Accepts(g, vk, proof))
      && forall w: AccountId, c: Bytes :: VerifiedProof(s', w, c) == VerifiedProof(s, w, c)
  {
  }

  /** The pallet instance: the two storage maps and the event log, updated in place by the two calls. */
  class Pallet {
    const groth16: Groth16
    var verifyingKeys: map<Bytes, Bytes>
    var verifiedProofs: map<(AccountId, Bytes), bool>
    var events: seq<Event>

    function Current(): State
      reads this
    {
      State(verifyingKeys, verifiedProofs, events)
    }

    constructor (groth16: Groth16)
      ensures this.groth16 == groth16
      ensures Current() == Genesis
    {
      this.groth16 := groth16;
      verifyingKeys := map[];
      verifiedProofs := map[];
      events := [];
    }

    /** The `verifying_key` getter. */
    function VerifyingKey(circuitId: Bytes): (vk: Option<Bytes>)
      reads this
      ensures vk == VerifyingKeyOf(Current(), circuitId)
    {
      if circuitId in verifyingKeys then Some(verifyingKeys[circuitId]) else None
    }

    /** `set_verifying_key`: open to every signed origin. */
    method SetVerifyingKey(origin: Option<AccountId>, circuitId: Bytes, vk: Bytes) returns (r: DispatchResult)
      modifies this
      ensures Outcome(Current(), r) == SetVerifyingKeyStep(old(Current()), origin, circuitId, vk)
    {
      if origin.None? {
        return Err(BadOrigin);
      }
      verifyingKeys := verifyingKeys[circuitId := vk];
      events := events + [VerifyingKeySet(circuitId)];
      r := Ok(Unit);
    }

    /** `verify_proof`: the signer of the transaction is the account recorded as verified. */
    method VerifyProof(origin: Option<AccountId>, proof: ZkProof, circuitId: Bytes) returns (r: DispatchResult)
      modifies this
      ensures Outcome(Current(), r) == VerifyProofStep(groth16, old(Current()), origin, proof, circuitId)
    {
      if origin.None? {
        return Err(BadOrigin);
      }
      var who := origin.value;
      if circuitId !in verifyingKeys {
        return Err(Module(VerifyingKeyNotFound));
      }
      var vkBytes := verifyingKeys[circuitId];
      var vk := groth16.decodeVerifyingKey(vkBytes);
      if vk.None? {
        return Err(Module(InvalidProof));
      }
      var p := groth16.decodeProof(proof.proof);
      if p.None? {
        return Err(Module(InvalidProof));
      }
      var inputs := DecodePublicInputs(groth16, proof.publicInputs);
      if inputs.None? {
        return Err(Module(InvalidProof));
      }
      var valid := groth16.verify(vk.value, p.value, inputs.value);
      if valid.None? || !valid.value {
        return Err(Module(InvalidProof));
      }
      verifiedProofs := verifiedProofs[(who, circuitId) := true];
      events := events + [ProofVerified(who, circuitId)];
      r := Ok(Unit);
    }
  }
}
