/** The system pallet: the current block height and a per-account nonce. */
module System {
  import opened Support

  /** Block numbers and nonces are `u32` in every configuration of the runtime. */
  const MAX_U32: nat := 0xFFFF_FFFF

  type U32 = x: nat | x <= MAX_U32

  /** Default-zero read of the nonce map: an account never seen has nonce 0. */
  function NonceOf(nonce: map<string, U32>, who: string): U32
  {
    if who in nonce then nonce[who] else 0
  }

  /** The stored nonce entry of `who`, as the map's own `get` gives it. */
  function NonceEntry(nonce: map<string, U32>, who: string): (r: Option<U32>)
    ensures r.Some? <==> who in nonce
    ensures r.Some? ==> r.value == nonce[who]
  {
    if who in nonce then Some(nonce[who]) else None
  }

  /** The nonce map after one `inc_nonce(who)`. */
  function IncNonceMap(nonce: map<string, U32>, who: string): (r: map<string, U32>)
    requires NonceOf(nonce, who) < MAX_U32
    ensures who in r && r[who] == NonceOf(nonce, who) + 1
    ensures r.Keys == nonce.Keys + {who}
    ensures forall a :: a in nonce && a != who ==> r[a] == nonce[a]
  {
    nonce[who := NonceOf(nonce, who) + 1]
  }

  /** The nonce map after `k` calls of `inc_nonce(who)`. */
  function IncNonceTimes(nonce: map<string, U32>, who: string, k: nat): (r: map<string, U32>)
    requires NonceOf(nonce, who) + k <= MAX_U32
    ensures NonceOf(r, who) == NonceOf(nonce, who) + k
    ensures forall a :: a != who ==> (a in r <==> a in nonce) && NonceOf(r, a) == NonceOf(nonce, a)
    decreases k
  {
    if k == 0 then nonce else IncNonceMap(IncNonceTimes(nonce, who, k - 1), who)
  }

  /** On a fresh pallet, `k` calls of `inc_nonce(who)` leave exactly one
      entry, `who`, whose nonce is `k`. */
  lemma FreshNonceAfterCalls(who: string, k: nat)
    requires k <= MAX_U32
    ensures k == 0 ==> IncNonceTimes(map[], who, k) == map[]
    ensures k > 0 ==> IncNonceTimes(map[], who, k) == map[who := k]
  {
  }

  class Pallet {
    var blockNumber: U32
    var nonce: map<string, U32>

    /** A new pallet is at height 0 and has seen no account. */
    constructor ()
      ensures BlockNumber() == 0 && nonce == map[]
    {
      blockNumber := 0;
      nonce := map[];
    }

    /** The current block height. A function that only reads `this`, so
        asking for it cannot change the state. */
    function BlockNumber(): (r: U32)
      reads this
      ensures r == blockNumber
    {
      blockNumber
    }

    /** Advances the height by one; the `u32` addition must not overflow. */
    method IncBlockNumber()
      requires BlockNumber() < MAX_U32
      modifies this
      ensures BlockNumber() == old(BlockNumber()) + 1
      ensures nonce == old(nonce)
    {
      blockNumber := blockNumber + 1;
    }

    /** Reads `who`'s nonce (0 when absent) and stores it plus one. */
    method IncNonce(who: string)
      requires NonceOf(nonce, who) < MAX_U32
      modifies this
      ensures nonce == IncNonceMap(old(nonce), who)
      ensures BlockNumber() == old(BlockNumber())
    {
      var current := NonceOf(nonce, who);
      nonce := nonce[who := current + 1];
    }
  }

  /** The unit test `init_system`, checked against the class contracts:
      after one block and one nonce bump for alice, the height is 1, alice's
      nonce entry is 1 and bob has none. */
  method InitSystem() returns (height: U32, alice: Option<U32>, bob: Option<U32>)
    ensures height == 1 && alice == Some(1) && bob == None
  {
    var system := new Pallet();
    system.IncBlockNumber();
    system.IncNonce("alice");
    height := system.BlockNumber();
    alice := NonceEntry(system.nonce, "alice");
    bob := NonceEntry(system.nonce, "bob");
  }
}
