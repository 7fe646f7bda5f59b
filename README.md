# ZK-Soul-vault in Dafny

A Dafny model of the four pieces of ZK-Soul-vault that carry logic of their own:

- **The `ZkVerifier` runtime pallet** (`zk_verifier.dfy`). It is a two-table registry. `VerifyingKeys` maps a circuit identifier to verifying-key bytes. `VerifiedProofs` maps an (account, circuit) pair to a flag. `set_verifying_key` stores a key. `verify_proof` looks the key up, deserialises the key, the proof and the public inputs, runs the Groth16 verifier, then records the signer as verified and deposits an event. The class `Pallet` holds the two maps and the event log and updates them in place. The pure functions `SetVerifyingKeyStep` and `VerifyProofStep` specify each call as one atomic step. The Groth16 verifier and the canonical deserialisers are foreign code. They enter as the fields of a `Groth16` value, and the proofs assume nothing about them.
- **The `identity_vault` ink! contract** (`identity_vault.dfy`). The class `IdentityVault` has an `owner` and a map from account to a list of attestations. Only the owner may append to a list, and nothing ever removes from one. `verify_attestation` searches a list for a credential type. The environment's caller and block timestamp are method parameters.
- **A value-level constraint system** (`r1cs.dfy`). This is the shared `ConstraintSystemRef` that circuits append to. One variable stands for one allocated `UInt32`, `UInt8` or `Boolean` gadget, tagged witness or input. Constraints are stated by what they mean for the variables' values. In setup mode (key generation) no value is demanded. In prove mode an absent value fails with `AssignmentMissing`.
- **The age-threshold and KYC circuits** (`age_verification.dfy`, `kyc_verification.dfy`). Each `generate_constraints` is a method that appends to the constraint system. A pure `*Synthesis` function specifies it, and lemmas state the allocation order (which fixes the values of the input gadgets, in order), the missing-assignment failures and the relation each circuit enforces.

`wrappers.dfy` holds `Option`/`Result`. `primitives.dfy` holds the machine integers and byte strings.

Where the code disagrees with its own comments or with the system's stated design, the model follows the code:

- The age circuit's comment at circuits/age-verification/src/lib.rs:39 says "age >= minimum_age". The code enforces `Ordering::Greater` without equality, so the model is strict: `age > minimum_age`.
- `verify_proof` never returns `ProofAlreadyVerified`, so the model has no replay protection. A second valid submission succeeds again and deposits another event.
- Every deserialisation failure and every verifier error becomes `InvalidProof`. The model has no separate encoding error.
- `set_verifying_key` accepts any signed origin. There is no registrar check.

Two lines of `verify_proof` cannot mean what they say, so the model follows their evident intent:

- Line 70 rebinds `proof` to the deserialised Groth16 proof. Line 74 then reads `public_inputs` off that value, which has no such field. The model takes the public inputs from the submitted `ZkProof`.
- Line 62 calls `.ok_or` on the getter of a value-query map, which returns bytes rather than an option. The model treats a circuit with no registered key as `VerifyingKeyNotFound`. A key registered as empty bytes is present, so it goes on to deserialisation. So `VerifyingKeys` is modelled as an option query: the model's `verifying_key` getter returns `None` for a circuit with no key, where the declared value-query getter at line 28 returns empty bytes.

## Model

| member | source | states |
|---|---|---|
| `ZkVerifier.VerifyingKeyOf` | runtime/zk-verifier/src/lib.rs:28 | the key of a circuit is present exactly when one was stored, and is the stored bytes |
| `ZkVerifier.VerifiedProof` | runtime/zk-verifier/src/lib.rs:29 | the `verified_proof` getter reads `false` for a pair never written, and the stored flag otherwise |
| `ZkVerifier.DecodePublicInputs` | runtime/zk-verifier/src/lib.rs:74-78 | decoding succeeds iff every input decodes; on success the result has one element per input, each the decoding of that input, in order |
| `ZkVerifier.Groth16Accepts` | runtime/zk-verifier/src/lib.rs:66-84 | a key that does not decode, a proof that does not decode or any public input that does not decode means rejection; acceptance holds iff all three decode and the verifier returns `true` (a verifier error or `false` rejects) |
| `ZkVerifier.SetVerifyingKeyStep` | runtime/zk-verifier/src/lib.rs:96-110 | unsigned origin: `BadOrigin` and nothing changes; signed: `Ok`, the circuit's key reads as `vk` (replacing any earlier one), every other circuit's key is unchanged, `VerifiedProofs` is unchanged, and exactly `VerifyingKeySet(circuit_id)` is appended to the events |
| `ZkVerifier.VerifyProofStep` | runtime/zk-verifier/src/lib.rs:54-93 | unsigned origin: `BadOrigin` and nothing changes; any failure leaves storage and events unchanged; `VerifyingKeyNotFound` iff signed and no key is registered; `InvalidProof` iff a key is registered and the Groth16 steps reject; `Ok` iff they accept; `ProofAlreadyVerified` is never returned; on success only `(signer, circuit_id)` becomes `true` and exactly `ProofVerified(signer, circuit_id)` is appended |
| `ZkVerifier.StepsRecordOnlyTrue` | runtime/zk-verifier/src/lib.rs:87 | starting from genesis, both calls keep every entry of `VerifiedProofs` equal to `true` |
| `ZkVerifier.ResubmissionSucceedsAgain` | runtime/zk-verifier/src/lib.rs:81-92 | no replay protection: resubmitting an accepted proof for the same pair succeeds again, leaves both tables as after the first submission, and deposits a second `ProofVerified` |
| `ZkVerifier.LatestKeyDecides` | runtime/zk-verifier/src/lib.rs:62-104 | after a key is set for a circuit, a proof for that circuit succeeds iff the Groth16 steps accept it under that key; replacing a key leaves every recorded result readable as before |
| `ZkVerifier.Pallet.constructor` | runtime/zk-verifier/src/lib.rs:26-30 | genesis: both storage maps are empty, no event has been deposited, and the pallet uses the Groth16 backend it is given |
| `ZkVerifier.Pallet.VerifyingKey` | runtime/zk-verifier/src/lib.rs:28 | the getter on the pallet's storage agrees with `VerifyingKeyOf` on its state |
| `ZkVerifier.Pallet.SetVerifyingKey` | runtime/zk-verifier/src/lib.rs:96-110 | the in-place call leaves the storage, event log and result that `SetVerifyingKeyStep` gives for the old state |
| `ZkVerifier.Pallet.VerifyProof` | runtime/zk-verifier/src/lib.rs:54-93 | the in-place call, step by step through key lookup, three deserialisations and verification, leaves the storage, event log and result that `VerifyProofStep` gives for the old state |
| `IdentityVault.IdentityVault.constructor` | contracts/identity-vault/src/lib.rs:41-46 | the instantiating caller becomes the owner and no account has attestations |
| `IdentityVault.IdentityVault.VerifyProof` | contracts/identity-vault/src/lib.rs:99-103 | the placeholder accepts every proof, so `add_attestation` never returns `InvalidProof` |
| `IdentityVault.IdentityVault.GetAttestations` | contracts/identity-vault/src/lib.rs:78-80 | read-only; an account with no entry gets the empty list, any other its stored list |
| `IdentityVault.IdentityVault.AddAttestation` | contracts/identity-vault/src/lib.rs:49-75 | a caller other than the owner gets `NotAuthorized` and nothing changes; the owner gets `Ok`, and `Attestation{credential_type, proof, timestamp}` is appended to the end of the account's list; the earlier entries and all other accounts are unchanged; `owner` never changes; every stored list stays non-empty |
| `IdentityVault.IdentityVault.VerifyAttestation` | contracts/identity-vault/src/lib.rs:83-97 | `AttestationNotFound` iff the account has no entry; otherwise `Ok(true)` iff some stored attestation has an equal credential type, and `Ok(false)` if none does |
| `IdentityVault.NotFoundExactlyWhenEmpty` | contracts/identity-vault/src/lib.rs:64-93 | since only `add_attestation` writes an entry and always writes a non-empty list, `verify_attestation` returns `AttestationNotFound` exactly when `get_attestations` of the account is empty |
| `IdentityVault.AppendedIsFound` | contracts/identity-vault/src/lib.rs:64-72 | an attestation appended to a list is found by its credential type |
| `IdentityVault.AddThenVerify` | contracts/identity-vault/src/lib.rs:64-93 | after the owner adds an attestation of some type for an account, `verify_attestation` of that type returns `Ok(true)` |
| `IdentityVault.AddAttestationWorks` | contracts/identity-vault/src/lib.rs:116-134 | the contract's test: the owner adds an "age" attestation for Bob, after which Bob has exactly one attestation, with that type and proof |
| `R1cs.Allocate` | circuits/age-verification/src/lib.rs:22-34 | allocation fails with `AssignmentMissing` iff the mode is prove and the value is absent; the variable has the requested kind and records the value in prove mode and no value in setup mode |
| `R1cs.AllocateVec` | circuits/kyc-verification/src/lib.rs:23-38 | a byte vector allocates one variable of the given kind per byte, in order, each recording its byte in prove mode and no value in setup mode |
| `R1cs.ConstraintSystem.NewVariable` | circuits/age-verification/src/lib.rs:22-34 | appends the allocated variable and returns its index, or returns `AssignmentMissing` and appends nothing |
| `R1cs.ConstraintSystem.NewVariableVec` | circuits/kyc-verification/src/lib.rs:23-38 | appends one variable per byte, in order, and returns their consecutive indices |
| `R1cs.ConstraintSystem.Sub` | circuits/age-verification/src/lib.rs:37 | returns the difference term and appends the constraint that makes underflow unsatisfiable |
| `R1cs.ConstraintSystem.EnforceCmp` | circuits/age-verification/src/lib.rs:40 | appends exactly the requested comparison constraint |
| `R1cs.ConstraintSystem.EnforceEqual` | circuits/kyc-verification/src/lib.rs:47 | appends exactly the requested equality constraint |
| `AgeVerification.AgeSynthesis` | circuits/age-verification/src/lib.rs:17-43 | succeeds iff in setup mode or all three values are present; in prove mode the first absent value, in order birth year, current year, minimum age, yields `AssignmentMissing` after the variables allocated before it; on success the kinds are witness, input, input and the input gadgets hold `current_year` then `minimum_age`; failures emit no constraint |
| `AgeVerification.GenerateConstraints` | circuits/age-verification/src/lib.rs:17-43 | the in-place method appends to the constraint system exactly the variables and constraints, and returns exactly the result, that `AgeSynthesis` gives |
| `AgeVerification.AgeRelation` | circuits/age-verification/src/lib.rs:36-40 | with all values present, the constraints hold iff `birth_year <= current_year` and `current_year - birth_year > minimum_age`, strictly |
| `AgeVerification.OnlyAgeMatters` | circuits/age-verification/src/lib.rs:22-40 | the birth year affects satisfaction only through the age: the constraints hold iff `age > minimum_age` |
| `AgeVerification.AgeEqualToMinimumRejected` | circuits/age-verification/src/lib.rs:39-40 | an age equal to the minimum age is unsatisfiable |
| `AgeVerification.FutureBirthYearRejected` | circuits/age-verification/src/lib.rs:37 | a birth year after the current year is unsatisfiable rather than wrapping around |
| `AgeVerification.SetupAndProveAgree` | circuits/age-verification/src/lib.rs:22-40 | the empty template in setup mode and any fully assigned circuit in prove mode give the same variable kinds and the same constraints |
| `AgeVerification.TestAgeVerification` | circuits/age-verification/src/lib.rs:53-74 | born 1990, year 2024, minimum 18: builds in both modes with one shape, the constraints hold, and the input gadgets hold 2024 and 18 |
| `AgeVerification.UnderageScenarioRejected` | circuits/age-verification/src/lib.rs:36-40 | the under-age scenario of the system's design (born 2010, year 2024, minimum 18, so age 14): the circuit builds in prove mode but its constraints do not hold |
| `KycVerification.ByteVariablesOrder` | circuits/kyc-verification/src/lib.rs:23-38 | the byte gadgets are hash and signature bytes as witnesses, then key bytes as inputs; in prove mode the input gadgets among them hold the key bytes, in order |
| `KycVerification.KycSynthesis` | circuits/kyc-verification/src/lib.rs:18-50 | an absent document hash fails `AssignmentMissing` before any allocation, in both modes; success iff all three byte vectors are present and, in prove mode, the outcome is present; at most one constraint, and none on failure |
| `KycVerification.KycMissingVector` | circuits/kyc-verification/src/lib.rs:29-38 | an absent signature or key fails with `AssignmentMissing` before any of its bytes is allocated, in both modes, leaving only the witness bytes allocated before it |
| `KycVerification.KycAllocationOrder` | circuits/kyc-verification/src/lib.rs:23-43 | on success the kinds are the hash and signature bytes as witnesses followed by the key bytes and the outcome as inputs; in prove mode the input gadgets hold the key bytes followed by the outcome |
| `KycVerification.GenerateConstraints` | circuits/kyc-verification/src/lib.rs:18-50 | the in-place method appends to the constraint system exactly the variables and constraints, and returns exactly the result, that `KycSynthesis` gives |
| `KycVerification.KycRelation` | circuits/kyc-verification/src/lib.rs:45-47 | with all values present, the constraints hold iff `verification_result` is true |
| `KycVerification.BytesNeverMatter` | circuits/kyc-verification/src/lib.rs:45-47 | two fully assigned circuits with the same outcome are equally satisfied, whatever their hash, signature and key bytes |
| `KycVerification.SetupAndProveAgree` | circuits/kyc-verification/src/lib.rs:23-47 | a setup-mode template and a prove-mode circuit whose byte vectors have the same lengths give the same variable kinds and the same constraints |
| `KycVerification.TestKycVerification` | circuits/kyc-verification/src/lib.rs:60-81 | the test's circuit (hash 1..4, signature 5..8, key 9..12, outcome true) builds in both modes with one shape, and its constraints hold |

## Left out

- Groth16 parameter generation, proving and verification, and BLS12-381 and `Fr` arithmetic, are foreign cryptography. `Groth16` carries the verifier and the deserialisers as unconstrained functions. So no lemma states that a satisfied circuit yields a proof that verifies.
- The canonical (de)serialisation byte layouts of `ark_serialize` are foreign. Each decoder is a partial function returning `Option`.
- The gadgets' bit decomposition and the R1CS encoding of `sub`, `enforce_cmp` and `enforce_equal` are library code that is not part of this model. Their value-level meaning is stated instead.
- R1cs.ConstraintSystem.Sub: assumes the unseen `sub` gadget makes `birth_year > current_year` unsatisfiable rather than wrapping modulo 2^32 (circuits/age-verification/src/lib.rs:37).
- R1cs.ConstraintSystem.NewVariable: a failed allocation appends nothing. The library counts the variable before it demands the value, but the constraint system is discarded after any error either way.
- AgeVerification.TestAgeVerification: does not state that `verify_proof` returns `true`, because the verifier is foreign. It states that the constraints hold and that the input gadgets hold 2024 and 18.
- KycVerification.TestKycVerification: does not state that `verify_proof` accepts `[Fr::from(1)]`. How the library packs the key bytes, which are also allocated as inputs, into field elements is not visible.
- `R1cs.InputValues` is the gadget-level view: the values of the input gadgets, in allocation order. It is not the field-element vector that Groth16 verification takes. The packing done by `UInt8::new_input_vec` and the bitwise inputs of `UInt32` are not modelled, so no lemma states which field elements a verifier is given.
- Field elements are unbounded integers with no reduction modulo the BLS12-381 scalar order. Every value the circuits allocate is below 2^32, so no reduction can occur.
- The proof-generation example CLI (circuits/kyc-verification/examples/generate_proof.rs) is left out. It is randomness, printing and file output only.
- Substrate and ink! plumbing is left out: the declaration macros, weights, the unused `Config::Time`, storage hashers, `construct_runtime!` and the mock test runtime (whose one test is empty). The origin is an `Option<AccountId>`, events are an appended log, and accounts are natural numbers.
- Concurrency and transaction rollback of the host ledger are left out. Each call is one atomic step that either makes all its writes or none.

