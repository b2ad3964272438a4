# Pallets of a minimal state-machine runtime, in Dafny

This project models the three state modules ("pallets") of a small
deterministic ledger runtime written in Rust:

- **System** (`system.dfy`): the current block height and a nonce per
  account. A new pallet is at height 0 and has no nonces. `inc_block_number`
  adds one to the height. `inc_nonce(who)` reads `who`'s nonce (0 when
  absent) and stores it plus one.
- **Balances** (`balances.dfy`): a balance per account, 0 when absent.
  `set_balance` overwrites one account. `transfer(caller, receiver, amount)`
  reads both balances, does a checked subtraction on the caller ("Not Enough
  Funds.") and a checked `u128` addition on the receiver ("Overflow
  Balance."), and only when both pass writes the caller's new balance and
  then the receiver's.
- **Proof of existence** (`proof_of_existence.dfy`): a map from content to the
  account that claimed it. `create_claim` fails when the content is already
  claimed. `revoke_claim` fails when there is no claim or the caller does not
  own it. `dispatch` routes the `Call` enum (`CreateClaim`, `RevokeClaim`) to
  those two operations and returns their result unchanged.
- **Support** (`support.dfy`): `DispatchResult` (`Ok`, or `Err` with the
  reason string), `Option`, and `Step`, the pair of a result and the state
  an operation leaves.

Each pallet is a class whose field is the Rust struct's map (and, for
System, the height). Each mutating method ties its result and new state to
a pure transition function of the old state: `IncNonceMap`, `TransferStep`,
`CreateClaimStep`, `RevokeClaimStep`. The properties the Rust code promises
are proved about those functions: the exact error cases, all-or-nothing
failure, exact +1 increments, and that no other entry changes. Every failure
path returns the source's own reason string and leaves the map exactly as it
was.

Accounts and content are `string`. Balances are `U128`, the naturals up to
`MAX_BALANCE` = 2^128 − 1. That is the balance type of the pallet's test
configuration, so the overflow check can be stated. Block numbers and nonces
are `U32`. A Rust `u32` `+= 1` panics on overflow in a debug build, so
`IncBlockNumber` and `IncNonce` require that the counter is below
`MAX_U32`. Every value stored in the maps stays in range because of the
subset types.

The client methods `System.InitSystem`, `Balances.InitBalance`,
`Balances.TransferBalance` and `ProofOfExistence.BasicProofOfExistence`
replay the Rust unit tests against the class contracts alone. Each one
returns the values the test inspects, and its `ensures` clause states the
values the test expects. `ProofOfExistence.DispatchScenario` is an extra
scenario, not taken from a unit test. It goes through `Dispatch` and includes
a revocation by an account that does not own the claim. The verifier checks
all of these; none is executed.

`System.Pallet.BlockNumber` is the getter for the height. It is a function
that only reads `this`, so it cannot change the state. The constructor and
the two mutating methods state their contracts through it.

Two points about the behaviour:

- A self-transfer that passes both checks is expected to change nothing. The
  code credits the account with `amount` instead, because the receiver write
  overwrites the caller write (see Findings). The model keeps the code's
  behaviour and adds a corrected definition beside it.
- The code reports failures as reason strings, and the model keeps them word
  for word. That includes "Claim does belong to caller", the message for a
  caller who does not own the claim.

## Model

| member | source | states |
|---|---|---|
| System.Pallet.constructor | src/system.rs:18-23 | a new system pallet is at block number 0 with an empty nonce map |
| System.Pallet.BlockNumber | src/system.rs:25-27 | returns the stored block height; as a function that only reads `this`, it cannot change the state |
| System.Pallet.IncBlockNumber | src/system.rs:29-31 | the block number grows by exactly one and the nonce map is unchanged; the `u32` addition must not overflow |
| System.Pallet.IncNonce | src/system.rs:33-37 | the new nonce map is `IncNonceMap` of the old one; the block number is unchanged |
| System.IncNonceMap | src/system.rs:33-37 | `who` ends at its old nonce plus one, where an absent account counts as 0 and so ends at 1; the key set gains only `who`; every other entry keeps its value |
| System.IncNonceTimes | src/system.rs:33-37 | after k increments of `who`'s nonce, `who`'s nonce is its old value plus k; every other account keeps its nonce, and an absent one stays absent |
| System.FreshNonceAfterCalls | src/system.rs:33-37 | on a fresh pallet, k calls of `inc_nonce(who)` leave the map `{who: k}`, or the empty map when k = 0 |
| System.NonceEntry | src/system.rs:57-58 | the map's own `get` on the nonce map: `Some(n)` exactly when the account has an entry, with the stored nonce, and `None` otherwise, the absent case the test checks |
| System.InitSystem | src/system.rs:49-59 | the test `init_system`: after one `inc_block_number` and an `inc_nonce` for alice, the height is 1, alice's nonce entry is 1 and bob has none |
| Balances.Pallet.constructor | src/balances.rs:15-19 | a new balances pallet stores no balance |
| Balances.Pallet.Balance | src/balances.rs:25-27 | an account never set reads as 0 and a set one reads its stored value; it cannot modify the map |
| Balances.Pallet.SetBalance | src/balances.rs:21-23 | overwrites one entry: `who` then reads as the set value and every other account reads as before |
| Balances.Pallet.Transfer | src/balances.rs:33-53 | the result and the new balance map are exactly `TransferStep` of the old map |
| Balances.TransferStep | src/balances.rs:39-52 | succeeds iff amount ≤ caller balance and receiver balance + amount ≤ 2^128 − 1; insufficient funds fails with "Not Enough Funds." and an unchanged map; receiver overflow fails with "Overflow Balance." and an unchanged map, so the sender is not debited either; on success between different accounts the caller loses `amount`, the receiver gains it, and their sum is conserved; no other account changes |
| Balances.TransferConservesTotal | src/balances.rs:39-52 | a transfer between two different accounts leaves the sum of all balances unchanged, whether it succeeds or fails |
| Balances.SelfTransferCredits | src/balances.rs:39-50 | a self-transfer that passes both checks succeeds, ends with the account at its old balance plus `amount`, and raises the sum of all balances by `amount` |
| Balances.SelfTransferExample | src/balances.rs:39-50 | alice with 10, sending 4 to herself, ends with 14 |
| Balances.ConservingTransferStep | src/balances.rs:39-52 | the corrected transfer runs the same checks and gives the same result; it equals `TransferStep` between different accounts; a self-transfer leaves the map unchanged |
| Balances.ConservingTransferConservesTotal | src/balances.rs:39-52 | the corrected transfer conserves the sum of all balances in every case, self-transfer included |
| Balances.TransferBalanceExample | src/balances.rs:83-95 | from an empty map, alice→bob 100 fails with "Not Enough Funds."; with alice at 100, alice→bob 55 succeeds and leaves alice 45 and bob 55 |
| Balances.InitBalance | src/balances.rs:69-80 | the test `init_balance`: alice reads 0, then 100 once set, and bob still reads 0 |
| Balances.TransferBalance | src/balances.rs:82-95 | the test `transfer_balance` on the class: the unfunded transfer fails with "Not Enough Funds.", and after funding the transfer of 55 succeeds and leaves alice 45 and bob 55 |
| ProofOfExistence.Pallet.constructor | src/proof_of_existence.rs:15-19 | a new claims pallet has no claims: `GetClaim` is `None` for every key |
| ProofOfExistence.Pallet.GetClaim | src/proof_of_existence.rs:21-23 | returns `Some(owner)` exactly when the key is claimed, with the stored owner |
| ProofOfExistence.Pallet.CreateClaim | src/proof_of_existence.rs:25-31 | the result and the new claims map are exactly `CreateClaimStep` of the old map |
| ProofOfExistence.Pallet.RevokeClaim | src/proof_of_existence.rs:33-47 | the result and the new claims map are exactly `RevokeClaimStep` of the old map |
| ProofOfExistence.Pallet.Dispatch | src/proof_of_existence.rs:50-69 | over the two-variant `Call` datatype, `CreateClaim`/`RevokeClaim` return exactly what `create_claim`/`revoke_claim` return and leave the same state |
| ProofOfExistence.CreateClaimStep | src/proof_of_existence.rs:25-31 | succeeds iff the key is unclaimed, and then the key is owned by the caller; an already-claimed key fails with "this content is already claimed" and an unchanged map; no other key changes |
| ProofOfExistence.RevokeClaimStep | src/proof_of_existence.rs:33-47 | succeeds iff the key is claimed by the caller, and then exactly that key is removed; an absent key fails with "Claim does not exist", a non-owner fails with "Claim does belong to caller", and both leave the map, owner included, unchanged; no other key changes |
| ProofOfExistence.BasicProofOfExistence | src/proof_of_existence.rs:88-100 | the test `basic_proof_of_existence`: no owner at first; alice's claim succeeds and makes her the owner; bob's claim on the same content fails with "this content is already claimed"; alice's revocation succeeds; bob's claim then succeeds |
| ProofOfExistence.DispatchScenario | src/proof_of_existence.rs:59-69 | an extra scenario through `Dispatch`: alice claims "x"; bob's revocation fails with "Claim does belong to caller" and alice stays the owner; alice's revocation succeeds and frees "x"; bob's claim on "y" makes him its owner |
| ProofOfExistence.SecondClaimFails | src/proof_of_existence.rs:25-31 | after a successful claim, a second claim on the same key by any caller fails with "this content is already claimed" and the first owner stays |
| ProofOfExistence.CreateThenRevoke | src/proof_of_existence.rs:25-46 | revoking a claim just created by the same caller succeeds and restores the original map |
| ProofOfExistence.RevokeThenClaim | src/proof_of_existence.rs:33-46 | after the owner revokes, the key is unclaimed and a claim by any other account succeeds |

## Findings

| source | as written | input that shows it | evidently intended | confidence | as-written member | corrected member |
|---|---|---|---|---|---|---|
| src/balances.rs:39-50 | both balances are read before either write, and the receiver write (line 50) overwrites the caller write (line 49) | `transfer("alice", "alice", 4)` with alice at 10 leaves alice at 14 | a self-transfer that passes both checks leaves the balance unchanged, so transfers conserve the total | high, not executed | Balances.SelfTransferCredits | Balances.ConservingTransferStep |

`Balances.Pallet.Transfer` keeps the behaviour as written, because it models
the Rust code. `Balances.ConservingTransferStep` is the corrected definition.
`Balances.ConservingTransferConservesTotal` proves the intended property
about it.

## Left out

- The `Runtime` aggregate, block execution (`execute_block`), the `support` module (`Dispatch` trait, `Block`, `Header`, `Extrinsic`) and the macro-generated balances `Call`: not part of this model. Their code is not in the modelled files.
- `src/main.rs`: demonstration wiring and debug printing only.
- `src/types.rs` and the generic `Config` traits: instantiated concretely as `string` accounts and content, `U128` balances, and `U32` block numbers and nonces.
- The `num` trait plumbing (`Zero`, `One`, `CheckedAdd`, `CheckedSub`, `AddAssign`): replaced by integer arithmetic with explicit bounds.
- System.Pallet.IncBlockNumber: `u32` overflow of `+=` is a precondition, not modelled wrap-around. A release build would wrap instead of panicking.
- System.Pallet.IncNonce: `u32` overflow of `+ 1` is a precondition, for the same reason.
- `#[derive(Debug)]` output, lifetimes and borrowing (`&'static str`, `Option<&AccountID>`): these affect neither state nor results.
- The balance type of the `main.rs` runtime is `u32`. The model uses the pallet's own test configuration, `u128`.
