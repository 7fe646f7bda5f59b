/**
 * The KYC circuit: private document-hash and signature bytes, public key bytes and a public
 * boolean outcome. Its only constraint is that the outcome is true; the bytes are allocated
 * but not yet checked against each other.
 */
module KycVerification {
  import opened Wrappers
  import opened Primitives
  import opened R1cs

  datatype KycVerificationCircuit = KycVerificationCircuit(
    documentHash: Option<Bytes>,
    signature: Option<Bytes>,
    publicKey: Option<Bytes>,
    verificationResult: Option<bool>)

  predicate FullyAssigned(c: KycVerificationCircuit) {
    c.documentHash.Some? && c.signature.Some? && c.publicKey.Some? && c.verificationResult.Some?
  }

  /** The field encoding of the optional boolean outcome. */
  function ResultValue(c: KycVerificationCircuit): (v: Option<int>)
    ensures v.Some? <==> c.verificationResult.Some?
    ensures v.Some? ==> (v.value == 1 <==> c.verificationResult.value)
  {
    if c.verificationResult.Some? then Some(BoolValue(c.verificationResult.value)) else None
  }

  /** `n` copies of one kind. */
  function Repeat(kind: Kind, n: nat): (kinds: seq<Kind>)
    ensures |kinds| == n
    ensures forall i :: 0 <= i < n ==> kinds[i] == kind
  {
    seq(n, _ => kind)
  }

  /** Each byte as a present field value. */
  function ByteValues(bytes: Bytes): (values: seq<Option<int>>)
    ensures |values| == |bytes|
    ensures forall i :: 0 <= i < |bytes| ==> values[i] == Some(bytes[i] as int)
  {
    seq(|bytes|, i requires 0 <= i < |bytes| => Some(bytes[i] as int))
  }

  /** The byte gadgets of the three vectors, in allocation order. */
  function ByteVariables(mode: Mode, hash: Bytes, signature: Bytes, key: Bytes): seq<Variable> {
    AllocateVec(mode, Witness, hash) + AllocateVec(mode, Witness, signature) + AllocateVec(mode, Input, key)
  }

  /** The byte gadgets' kinds and the values of the input gadgets among them. */
  lemma {:induction false} ByteVariablesOrder(mode: Mode, hash: Bytes, signature: Bytes, key: Bytes)
    ensures
      var vars := ByteVariables(mode, hash, signature, key);
      |vars| == |hash| + |signature| + |key|
      && Kinds(vars) == Repeat(Witness, |hash| + |signature|) + Repeat(Input, |key|)
      && (mode == Prove ==> InputValues(vars) == ByteValues(key))
  {
    var witnesses := AllocateVec(mode, Witness, hash) + AllocateVec(mode, Witness, signature);
    var inputs := AllocateVec(mode, Input, key);
    assert ByteVariables(mode, hash, signature, key) == witnesses + inputs;
    assert Kinds(witnesses + inputs) == Repeat(Witness, |hash| + |signature|) + Repeat(Input, |key|);
    InputValuesAppend(witnesses, inputs);
    InputValuesOfInputs(inputs);
  }

  /**
   * What `generate_constraints` appends to a constraint system in `mode` that already holds
   * `base` variables: the hash bytes and the signature bytes as witnesses, the key bytes and
   * the outcome as inputs, then the constraint that the outcome equals true. The byte vectors
   * are taken out of their options before anything is allocated, in both modes.
   */
  function KycSynthesis(c: KycVerificationCircuit, mode: Mode, base: nat): (s: Synthesis)
    ensures c.documentHash.None? ==> s == Synthesis([], [], Err(AssignmentMissing))
    ensures s.result.Ok? <==>
      c.documentHash.Some? && c.signature.Some? && c.publicKey.Some? && (mode == Setup || c.verificationResult.Some?)
    ensures s.result.Err? ==> s.constraints == []
    ensures |s.constraints| <= 1
  {
    if c.documentHash.None? then Synthesis([], [], Err(AssignmentMissing))
    else if c.signature.None? then
      Synthesis(AllocateVec(mode, Witness, c.documentHash.value), [], Err(AssignmentMissing))
    else if c.publicKey.None? then
      Synthesis(AllocateVec(mode, Witness, c.documentHash.value) + AllocateVec(mode, Witness, c.signature.value),
                [], Err(AssignmentMissing))
    else
      var bytes := ByteVariables(mode, c.documentHash.value, c.signature.value, c.publicKey.value);
      match Allocate(mode, Input, ResultValue(c))
      case Err(e) => Synthesis(bytes, [], Err(e))
      case Ok(result) => Synthesis(bytes + [result], [Equal(Var(base + |bytes|), Const(1))], Ok(Unit))
  }

  /** A missing signature or key vector fails before any of its bytes is allocated. */
  lemma {:induction false} KycMissingVector(c: KycVerificationCircuit, mode: Mode, base: nat)
    ensures
      var s := KycSynthesis(c, mode, base);
      (c.documentHash.Some? && c.signature.None? ==>
         s.result == Err(AssignmentMissing) && Kinds(s.variables) == Repeat(Witness, |c.documentHash.value|))
      && (c.documentHash.Some? && c.signature.Some? && c.publicKey.None? ==>
         s.result == Err(AssignmentMissing)
         && Kinds(s.variables) == Repeat(Witness, |c.documentHash.value| + |c.signature.value|))
  {
    var s := KycSynthesis(c, mode, base);
    if c.documentHash.Some? && c.signature.None? {
      assert Kinds(s.variables) == Repeat(Witness, |c.documentHash.value|);
    } else if c.documentHash.Some? && c.signature.Some? && c.publicKey.None? {
      assert Kinds(s.variables) == Repeat(Witness, |c.documentHash.value| + |c.signature.value|);
    }
  }

  /**
   * Allocation order: hash bytes and signature bytes as witnesses, then key bytes and the
   * outcome as inputs, so the input gadgets hold the key bytes followed by the outcome.
   */
  lemma {:induction false} KycAllocationOrder(c: KycVerificationCircuit, mode: Mode, base: nat)
    requires KycSynthesis(c, mode, base).result.Ok?
    ensures
      var s := KycSynthesis(c, mode, base);
      Kinds(s.variables) == Repeat(Witness, |c.documentHash.value| + |c.signature.value|) + Repeat(Input, |c.publicKey.value| + 1)
      && (mode == Prove ==> InputValues(s.variables) == ByteValues(c.publicKey.value) + [ResultValue(c)])
  {
    var s := KycSynthesis(c, mode, base);
    var bytes := ByteVariables(mode, c.documentHash.value, c.signature.value, c.publicKey.value);
    ByteVariablesOrder(mode, c.documentHash.value, c.signature.value, c.publicKey.value);
    var result := Allocate(mode, Input, ResultValue(c)).value;
    assert s.variables == bytes + [result];
    assert Kinds(s.variables) == Kinds(bytes) + [Input];
    if mode == Prove {
      InputValuesAppend(bytes, [result]);
      assert InputValues([result]) == [result.value];
    }
  }

  /** `generate_constraints`, appending to the shared constraint system step by step. */
  method GenerateConstraints(c: KycVerificationCircuit, cs: ConstraintSystem) returns (r: Result<Unit, SynthesisError>)
    modifies cs
    ensures
      var s := KycSynthesis(c, cs.mode, |old(cs.variables)|);
      r == s.result && cs.variables == old(cs.variables) + s.variables && cs.constraints == old(cs.constraints) + s.constraints
  {
    if c.documentHash.None? {
      return Err(AssignmentMissing);
    }
    var documentHash := cs.NewVariableVec(Witness, c.documentHash.value);
    if c.signature.None? {
      return Err(AssignmentMissing);
    }
    var signature := cs.NewVariableVec(Witness, c.signature.value);
    if c.publicKey.None? {
      return Err(AssignmentMissing);
    }
    var publicKey := cs.NewVariableVec(Input, c.publicKey.value);
    ghost var bytes := ByteVariables(cs.mode, c.documentHash.value, c.signature.value, c.publicKey.value);
    assert cs.variables == old(cs.variables) + bytes;
    var verificationResult := cs.NewVariable(Input, ResultValue(c));
    if verificationResult.Err? {
      assert cs.variables == old(cs.variables) + KycSynthesis(c, cs.mode, |old(cs.variables)|).variables;
      return Err(verificationResult.error);
    }
    assert verificationResult.value == |old(cs.variables)| + |bytes|;
    cs.EnforceEqual(Var(verificationResult.value), Const(1));
    r := Ok(Unit);
  }

  /**
   * With every value present, the constraints emitted in prove mode hold exactly when the
   * outcome is true, whatever variables the system held before.
   */
  lemma {:induction false} KycRelation(c: KycVerificationCircuit, before: seq<Variable>)
    requires FullyAssigned(c)
    ensures
      var s := KycSynthesis(c, Prove, |before|);
      (Satisfied(before + s.variables, s.constraints) <==> c.verificationResult.value)
  {
    var s := KycSynthesis(c, Prove, |before|);
    var bytes := ByteVariables(Prove, c.documentHash.value, c.signature.value, c.publicKey.value);
    var result := Allocate(Prove, Input, ResultValue(c)).value;
    assert s.variables == bytes + [result];
    assert s.constraints == [Equal(Var(|before| + |bytes|), Const(1))];
    var all := before + s.variables;
    assert all[|before| + |bytes|] == result;
    assert result.value == Some(BoolValue(c.verificationResult.value));
    assert Holds(s.constraints[0], all) <==> c.verificationResult.value;
  }

  /** The contents of the byte vectors never decide satisfaction. */
  lemma BytesNeverMatter(c1: KycVerificationCircuit, c2: KycVerificationCircuit, before: seq<Variable>)
    requires FullyAssigned(c1) && FullyAssigned(c2)
    requires c1.verificationResult == c2.verificationResult
    ensures
      var s1 := KycSynthesis(c1, Prove, |before|);
      var s2 := KycSynthesis(c2, Prove, |before|);
      Satisfied(before + s1.variables, s1.constraints) == Satisfied(before + s2.variables, s2.constraints)
  {
    KycRelation(c1, before);
    KycRelation(c2, before);
  }

  /**
   * Key generation with the byte vectors present but no outcome, and proving with byte
   * vectors of the same lengths, produce the same shape.
   */
  lemma SetupAndProveAgree(template: KycVerificationCircuit, c: KycVerificationCircuit, base: nat)
    requires template.documentHash.Some? && template.signature.Some? && template.publicKey.Some?
    requires FullyAssigned(c)
    requires |template.documentHash.value| == |c.documentHash.value|
    requires |template.signature.value| == |c.signature.value|
    requires |template.publicKey.value| == |c.publicKey.value|
    ensures
      var setup := KycSynthesis(template, Setup, base);
      var prove := KycSynthesis(c, Prove, base);
      setup.result.Ok? && prove.result.Ok?
      && Kinds(setup.variables) == Kinds(prove.variables)
      && setup.constraints == prove.constraints
  {
  }

  /**
   * The circuit's test: hash [1, 2, 3, 4], signature [5, 6, 7, 8], key [9, 10, 11, 12] and a
   * true outcome build in both modes with the same shape, and the constraints hold.
   */
  lemma TestKycVerification()
    ensures
      var c := KycVerificationCircuit(Some([1, 2, 3, 4]), Some([5, 6, 7, 8]), Some([9, 10, 11, 12]), Some(true));
      var setup := KycSynthesis(c, Setup, 0);
      var prove := KycSynthesis(c, Prove, 0);
      setup.result.Ok? && prove.result.Ok?
      && Kinds(setup.variables) == Kinds(prove.variables) && setup.constraints == prove.constraints
      && Satisfied(prove.variables, prove.constraints)
  {
    var c := KycVerificationCircuit(Some([1, 2, 3, 4]), Some([5, 6, 7, 8]), Some([9, 10, 11, 12]), Some(true));
    KycRelation(c, []);
    assert [] + KycSynthesis(c, Prove, 0).variables == KycSynthesis(c, Prove, 0).variables;
  }
}
