/** The proof-of-existence pallet: a registry from content to the account
    that claimed it. */
module ProofOfExistence {
  import opened Support

  const ALREADY_CLAIMED := "this content is already claimed"
  const CLAIM_NOT_FOUND := "Claim does not exist"
  /** The reason the source gives when the caller is not the owner, word for word. */
  const NOT_OWNER := "Claim does belong to caller"

  /** What `create_claim` returns and leaves in the claims map. */
  function CreateClaimStep(claims: map<string, string>, caller: string, claim: string)
    : (r: Step<map<string, string>>)
    ensures r.result.Ok? <==> claim !in claims
    ensures claim in claims ==> r == Step(Err(ALREADY_CLAIMED), claims)
    ensures r.result.Ok? ==> claim in r.state && r.state[claim] == caller
    ensures r.result.Ok? ==> r.state.Keys == claims.Keys + {claim}
    ensures forall c :: c != claim && c in claims ==> c in r.state && r.state[c] == claims[c]
  {
    if claim in claims then Step(Err(ALREADY_CLAIMED), claims)
    else Step(Ok, claims[claim := caller])
  }

  /** What `revoke_claim` returns and leaves in the claims map. */
  function RevokeClaimStep(claims: map<string, string>, caller: string, claim: string)
    : (r: Step<map<string, string>>)
    ensures r.result.Ok? <==> claim in claims && claims[claim] == caller
    ensures claim !in claims ==> r == Step(Err(CLAIM_NOT_FOUND), claims)
    ensures claim in claims && claims[claim] != caller ==> r == Step(Err(NOT_OWNER), claims)
    ensures r.result.Ok? ==> r.state.Keys == claims.Keys - {claim}
    ensures forall c :: c != claim && c in claims ==> c in r.state && r.state[c] == claims[c]
  {
    if claim !in claims then Step(Err(CLAIM_NOT_FOUND), claims)
    else if claims[claim] != caller then Step(Err(NOT_OWNER), claims)
    else Step(Ok, claims - {claim})
  }

  /** Once a key has an owner, a second claim on it fails for every caller
      and the owner stays. */
  lemma SecondClaimFails(claims: map<string, string>, first: string, second: string, claim: string)
    requires claim !in claims
    ensures var after := CreateClaimStep(claims, first, claim).state;
            CreateClaimStep(after, second, claim) == Step(Err(ALREADY_CLAIMED), after) &&
            after[claim] == first
  {
  }

  /** Revoking a claim one has just created gives back the map it started from. */
  lemma CreateThenRevoke(claims: map<string, string>, caller: string, claim: string)
    requires claim !in claims
    ensures RevokeClaimStep(CreateClaimStep(claims, caller, claim).state, caller, claim) == Step(Ok, claims)
  {
    assert claims[claim := caller] - {claim} == claims;
  }

  /** After the owner revokes, the key is free: any account can claim it. */
  lemma RevokeThenClaim(claims: map<string, string>, owner: string, other: string, claim: string)
    requires claim in claims && claims[claim] == owner
    ensures var after := RevokeClaimStep(claims, owner, claim).state;
            claim !in after &&
            CreateClaimStep(after, other, claim).result == Ok &&
            CreateClaimStep(after, other, claim).state == claims[claim := other]
  {
  }

  /** The pallet's call type. */
  datatype Call = CreateClaim(claim: string) | RevokeClaim(claim: string)

  class Pallet {
    var claims: map<string, string>

    /** A new pallet holds no claim. */
    constructor ()
      ensures claims == map[]
      ensures forall c :: GetClaim(c) == None
    {
      claims := map[];
    }

    /** The owner of `claim`, if any. */
    function GetClaim(claim: string): (r: Option<string>)
      reads this
      ensures r.Some? <==> claim in claims
      ensures r.Some? ==> r.value == claims[claim]
    {
      if claim in claims then Some(claims[claim]) else None
    }

    /** Claims `claim` for `caller` unless someone already owns it. */
    method CreateClaim(caller: string, claim: string) returns (r: DispatchResult)
      modifies this
      ensures Step(r, claims) == CreateClaimStep(old(claims), caller, claim)
    {
      if claim in claims {
        return Err(ALREADY_CLAIMED);
      }
      claims := claims[claim := caller];
      return Ok;
    }

    /** Removes `claim` if it exists and `caller` owns it. */
    method RevokeClaim(caller: string, claim: string) returns (r: DispatchResult)
      modifies this
      ensures Step(r, claims) == RevokeClaimStep(old(claims), caller, claim)
    {
      var owner := GetClaim(claim);
      match owner {
        case None =>
          return Err(CLAIM_NOT_FOUND);
        case Some(o) =>
          if o != caller {
            return Err(NOT_OWNER);
          }
          claims := claims - {claim};
      }
      return Ok;
    }

    /** Routes a call to the operation it names and passes its result on unchanged. */
    method Dispatch(caller: string, call: Call) returns (r: DispatchResult)
      modifies this
      ensures call.CreateClaim? ==> Step(r, claims) == CreateClaimStep(old(claims), caller, call.claim)
      ensures call.RevokeClaim? ==> Step(r, claims) == RevokeClaimStep(old(claims), caller, call.claim)
    {
      match call {
        case CreateClaim(claim) =>
          r := CreateClaim(caller, claim);
        case RevokeClaim(claim) =>
          r := RevokeClaim(caller, claim);
      }
    }
  }

  /** The unit test `basic_proof_of_existence`, checked against the class
      contracts: no owner at first; alice's claim succeeds and makes her the
      owner; bob's claim on the same content fails; alice revokes; bob's
      claim then succeeds. */
  method BasicProofOfExistence()
    returns (initial: Option<string>, created: DispatchResult, owner: Option<string>,
             duplicate: DispatchResult, revoked: DispatchResult, reclaimed: DispatchResult)
    ensures initial == None && created == Ok && owner == Some("alice")
    ensures duplicate == Err(ALREADY_CLAIMED) && revoked == Ok && reclaimed == Ok
  {
    var poe := new Pallet();
    initial := poe.GetClaim("Hello, world!");
    created := poe.CreateClaim("alice", "Hello, world!");
    owner := poe.GetClaim("Hello, world!");
    duplicate := poe.CreateClaim("bob", "Hello, world!");
    revoked := poe.RevokeClaim("alice", "Hello, world!");
    reclaimed := poe.CreateClaim("bob", "Hello, world!");
  }

  /** A scenario beyond the unit test that goes through `Dispatch`: alice
      claims "x"; bob's revocation of it fails and alice stays the owner;
      alice's revocation succeeds and frees "x"; bob claims "y". */
  method DispatchScenario()
    returns (created: DispatchResult, foreign: DispatchResult, kept: Option<string>,
             revoked: DispatchResult, freed: Option<string>, other: DispatchResult, otherOwner: Option<string>)
    ensures created == Ok && foreign == Err(NOT_OWNER) && kept == Some("alice")
    ensures revoked == Ok && freed == None && other == Ok && otherOwner == Some("bob")
  {
    var poe := new Pallet();
    created := poe.Dispatch("alice", CreateClaim("x"));
    foreign := poe.Dispatch("bob", RevokeClaim("x"));
    kept := poe.GetClaim("x");
    revoked := poe.Dispatch("alice", RevokeClaim("x"));
    freed := poe.GetClaim("x");
    other := poe.Dispatch("bob", CreateClaim("y"));
    otherOwner := poe.GetClaim("y");
  }
}
