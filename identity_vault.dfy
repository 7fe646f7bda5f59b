/**
 * The `identity_vault` contract: an owner-gated store of attestations per account, to which
 * the owner only ever appends, with a search by credential type.
 *
 * The caller and the block timestamp, which the contract reads from its environment, are
 * parameters of the messages that read them.
 */
module IdentityVault {
  import opened Wrappers
  import opened Primitives

  datatype Attestation = Attestation(credentialType: Bytes, proof: Bytes, timestamp: uint64)

  datatype Error = NotAuthorized | InvalidProof | AttestationNotFound

  /** Some attestation in `list` is of type `credentialType`. */
  predicate HasCredential(list: seq<Attestation>, credentialType: Bytes) {
    exists i | 0 <= i < |list| :: list[i].credentialType == credentialType
  }

  /** An attestation just appended is found by its credential type. */
  lemma AppendedIsFound(list: seq<Attestation>, a: Attestation)
    ensures HasCredential(list + [a], a.credentialType)
  {
    assert (list + [a])[|list|] == a;
  }

  class IdentityVault {
    var owner: AccountId
    var attestations: map<AccountId, seq<Attestation>>

    /** An account has an entry only once something was appended to it. */
    ghost predicate Valid()
      reads this
    {
      forall account :: account in attestations ==> |attestations[account]| > 0
    }

    /** `new`: the instantiating caller becomes the owner; no account has attestations. */
    constructor (caller: AccountId)
      ensures Valid()
      ensures owner == caller
      ensures attestations == map[]
    {
      owner := caller;
      attestations := map[];
    }

    /** The placeholder proof check: it accepts every proof. */
    function VerifyProof(proof: Bytes): (accepted: bool)
      ensures accepted
    {
      true
    }

    /** `get_attestations`: the stored list, or the empty list for an account with no entry. */
    function GetAttestations(account: AccountId): (list: seq<Attestation>)
      reads this
      ensures account !in attestations ==> list == []
      ensures account in attestations ==> list == attestations[account]
    {
      if account in attestations then attestations[account] else []
    }

    /**
     * `add_attestation`: only the owner may call it; it appends one attestation, stamped with
     * the block time, to the end of `account`'s list and touches nothing else.
     */
    method AddAttestation(caller: AccountId, blockTimestamp: uint64, account: AccountId,
                          credentialType: Bytes, proof: Bytes) returns (r: Result<Unit, Error>)
      requires Valid()
      modifies this`attestations
      ensures Valid()
      ensures owner == old(owner)
      ensures caller != owner ==> r == Err(NotAuthorized) && attestations == old(attestations)
      ensures caller == owner ==> r == Ok(Unit)
      ensures caller == owner ==> attestations.Keys == old(attestations).Keys + {account}
      ensures caller == owner ==>
        GetAttestations(account) == old(GetAttestations(account)) + [Attestation(credentialType, proof, blockTimestamp)]
      ensures forall other :: other != account && other in old(attestations) ==> attestations[other] == old(attestations)[other]
    {
      if caller != owner {
        return Err(NotAuthorized);
      }
      if !VerifyProof(proof) {
        return Err(InvalidProof);
      }
      var attestation := Attestation(credentialType, proof, blockTimestamp);
      var userAttestations := GetAttestations(account);
      userAttestations := userAttestations + [attestation];
      attestations := attestations[account := userAttestations];
      r := Ok(Unit);
    }

    /**
     * `verify_attestation`: `AttestationNotFound` for an account with no entry, otherwise
     * whether one of its attestations has the given credential type.
     */
    method VerifyAttestation(account: AccountId, credentialType: Bytes) returns (r: Result<bool, Error>)
      ensures account !in attestations ==> r == Err(AttestationNotFound)
      ensures account in attestations ==> r == Ok(HasCredential(attestations[account], credentialType))
    {
      if account !in attestations {
        return Err(AttestationNotFound);
      }
      var list := attestations[account];
      for i := 0 to |list|
        invariant forall j :: 0 <= j < i ==> list[j].credentialType != credentialType
      {
        if list[i].credentialType == credentialType {
          return Ok(true);
        }
      }
      return Ok(false);
    }
  }

  /**
   * Because no stored list is ever empty, `verify_attestation` reports `AttestationNotFound`
   * exactly for the accounts whose `get_attestations` is empty: those never given one.
   */
  method NotFoundExactlyWhenEmpty(vault: IdentityVault, account: AccountId, credentialType: Bytes)
    returns (r: Result<bool, Error>)
    requires vault.Valid()
    ensures r == Err(AttestationNotFound) <==> vault.GetAttestations(account) == []
  {
    r := vault.VerifyAttestation(account, credentialType);
  }

  /** Once the owner has added an attestation of some type for an account, verifying that type succeeds. */
  method AddThenVerify(vault: IdentityVault, blockTimestamp: uint64, account: AccountId,
                       credentialType: Bytes, proof: Bytes) returns (r: Result<bool, Error>)
    requires vault.Valid()
    modifies vault
    ensures r == Ok(true)
  {
    var added := vault.AddAttestation(vault.owner, blockTimestamp, account, credentialType, proof);
    AppendedIsFound(old(vault.GetAttestations(account)), Attestation(credentialType, proof, blockTimestamp));
    r := vault.VerifyAttestation(account, credentialType);
  }

  /**
   * The contract's `add_attestation_works` test: Alice instantiates the vault and adds an
   * attestation of type "age" for Bob, which is then Bob's only attestation.
   */
  method AddAttestationWorks(alice: AccountId, bob: AccountId, blockTimestamp: uint64)
    returns (added: Result<Unit, Error>, list: seq<Attestation>)
    ensures added == Ok(Unit)
    ensures |list| == 1
    ensures list[0].credentialType == [0x61, 0x67, 0x65]
    ensures list[0].proof == [0x70, 0x72, 0x6f, 0x6f, 0x66]
  {
    var vault := new IdentityVault(alice);
    var credentialType: Bytes := [0x61, 0x67, 0x65];
    var proof: Bytes := [0x70, 0x72, 0x6f, 0x6f, 0x66];
    added := vault.AddAttestation(alice, blockTimestamp, bob, credentialType, proof);
    list := vault.GetAttestations(bob);
  }
}
