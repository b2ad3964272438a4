/** The balances pallet: a per-account balance with a checked transfer. */
module Balances {
  import opened Support

  /** The balance type of the pallet's own test configuration, `u128`. */
  const MAX_BALANCE: nat := 0xFFFF_FFFF_FFFF_FFFF_FFFF_FFFF_FFFF_FFFF

  type U128 = x: nat | x <= MAX_BALANCE

  const NOT_ENOUGH_FUNDS := "Not Enough Funds."
  const OVERFLOW_BALANCE := "Overflow Balance."

  /** Default-zero read of the balance map. */
  function BalanceOf(balances: map<string, U128>, who: string): U128
  {
    if who in balances then balances[who] else 0
  }

  /** What `transfer` does to the balance map, step for step: read both
      balances, subtract with a check, add with a check, then write the
      caller's new balance and after it the receiver's. */
  function TransferStep(balances: map<string, U128>, caller: string, receiver: string, amount: U128)
    : (r: Step<map<string, U128>>)
    ensures r.result.Ok? <==>
              amount <= BalanceOf(balances, caller) &&
              BalanceOf(balances, receiver) + amount <= MAX_BALANCE
    ensures BalanceOf(balances, caller) < amount ==> r == Step(Err(NOT_ENOUGH_FUNDS), balances)
    ensures (amount <= BalanceOf(balances, caller) && BalanceOf(balances, receiver) + amount > MAX_BALANCE)
              ==> r == Step(Err(OVERFLOW_BALANCE), balances)
    ensures r.result.Ok? && caller != receiver ==>
              && BalanceOf(r.state, caller) == BalanceOf(balances, caller) - amount
              && BalanceOf(r.state, receiver) == BalanceOf(balances, receiver) + amount
              && BalanceOf(r.state, caller) + BalanceOf(r.state, receiver)
                 == BalanceOf(balances, caller) + BalanceOf(balances, receiver)
    ensures r.result.Ok? ==> r.state.Keys == balances.Keys + {caller, receiver}
    ensures forall a :: a != caller && a != receiver && a in balances ==> a in r.state && r.state[a] == balances[a]
  {
    var callerBalance := BalanceOf(balances, caller);
    var receiverBalance := BalanceOf(balances, receiver);
    if callerBalance < amount then
      Step(Err(NOT_ENOUGH_FUNDS), balances)
    else if receiverBalance + amount > MAX_BALANCE then
      Step(Err(OVERFLOW_BALANCE), balances)
    else
      Step(Ok, balances[caller := callerBalance - amount][receiver := receiverBalance + amount])
  }

  /** The sum of the balances of the accounts in `keys`. */
  ghost function SumOver(balances: map<string, U128>, keys: set<string>): nat
    requires keys <= balances.Keys
    decreases keys
  {
    if keys == {} then 0
    else
      var k :| k in keys;
      balances[k] + SumOver(balances, keys - {k})
  }

  /** The total issuance: the sum of every stored balance. */
  ghost function Total(balances: map<string, U128>): nat
  {
    SumOver(balances, balances.Keys)
  }

  /** Any member of `keys` can be taken out of the sum first. */
  lemma {:induction false} SumOverPick(balances: map<string, U128>, keys: set<string>, k: string)
    requires keys <= balances.Keys && k in keys
    ensures SumOver(balances, keys) == balances[k] + SumOver(balances, keys - {k})
    decreases keys
  {
    var j :| j in keys && SumOver(balances, keys) == balances[j] + SumOver(balances, keys - {j});
    if j != k {
      SumOverPick(balances, keys - {j}, k);
      SumOverPick(balances, keys - {k}, j);
      assert keys - {j} - {k} == keys - {k} - {j};
    }
  }

  /** The sum over `keys` depends only on the balances stored under `keys`. */
  lemma {:induction false} SumOverAgree(m1: map<string, U128>, m2: map<string, U128>, keys: set<string>)
    requires keys <= m1.Keys && keys <= m2.Keys
    requires forall k :: k in keys ==> m1[k] == m2[k]
    ensures SumOver(m1, keys) == SumOver(m2, keys)
    decreases keys
  {
    if keys != {} {
      var k :| k in keys;
      SumOverPick(m1, keys, k);
      SumOverPick(m2, keys, k);
      SumOverAgree(m1, m2, keys - {k});
    }
  }

  /** Overwriting one balance changes the total by the difference. */
  lemma TotalUpdate(balances: map<string, U128>, who: string, v: U128)
    ensures Total(balances[who := v]) + BalanceOf(balances, who) == Total(balances) + v
  {
    var updated := balances[who := v];
    SumOverPick(updated, updated.Keys, who);
    SumOverAgree(updated, balances, balances.Keys - {who});
    if who in balances {
      assert updated.Keys - {who} == balances.Keys - {who};
      SumOverPick(balances, balances.Keys, who);
    } else {
      assert updated.Keys - {who} == balances.Keys - {who} == balances.Keys;
    }
  }

  /** A successful transfer between two different accounts conserves the
      total issuance; a failed one leaves every balance where it was. */
  lemma TransferConservesTotal(balances: map<string, U128>, caller: string, receiver: string, amount: U128)
    requires caller != receiver
    ensures Total(TransferStep(balances, caller, receiver, amount).state) == Total(balances)
  {
    var r := TransferStep(balances, caller, receiver, amount);
    if r.result.Ok? {
      var callerBalance, receiverBalance := BalanceOf(balances, caller), BalanceOf(balances, receiver);
      var debited := balances[caller := callerBalance - amount];
      TotalUpdate(balances, caller, callerBalance - amount);
      TotalUpdate(debited, receiver, receiverBalance + amount);
      assert BalanceOf(debited, receiver) == receiverBalance;
    }
  }

  /** Self-transfer as written: the receiver write, computed from the balance
      read before the caller write, overwrites it, so the account gains
      `amount` and the total issuance grows by `amount` instead of staying put. */
  lemma SelfTransferCredits(balances: map<string, U128>, who: string, amount: U128)
    requires amount <= BalanceOf(balances, who)
    requires BalanceOf(balances, who) + amount <= MAX_BALANCE
    ensures TransferStep(balances, who, who, amount).result == Ok
    ensures BalanceOf(TransferStep(balances, who, who, amount).state, who) == BalanceOf(balances, who) + amount
    ensures Total(TransferStep(balances, who, who, amount).state) == Total(balances) + amount
  {
    var b := BalanceOf(balances, who);
    assert TransferStep(balances, who, who, amount).state == balances[who := b + amount];
    TotalUpdate(balances, who, b + amount);
  }

  /** A concrete instance: alice holds 10 and sends 4 to herself. */
  lemma SelfTransferExample()
    ensures TransferStep(map["alice" := 10], "alice", "alice", 4) == Step(Ok, map["alice" := 14])
  {
    assert map["alice" := 10]["alice" := 6]["alice" := 14] == map["alice" := 14];
  }

  /** Transfer as evidently intended: the same two checks in the same order,
      but a self-transfer that passes them changes nothing. */
  function ConservingTransferStep(balances: map<string, U128>, caller: string, receiver: string, amount: U128)
    : (r: Step<map<string, U128>>)
    ensures r.result == TransferStep(balances, caller, receiver, amount).result
    ensures caller != receiver ==> r == TransferStep(balances, caller, receiver, amount)
    ensures caller == receiver ==> r.state == balances
  {
    if caller == receiver then
      Step(TransferStep(balances, caller, receiver, amount).result, balances)
    else
      TransferStep(balances, caller, receiver, amount)
  }

  /** The corrected transfer conserves the total issuance in every case. */
  lemma ConservingTransferConservesTotal(balances: map<string, U128>, caller: string, receiver: string, amount: U128)
    ensures Total(ConservingTransferStep(balances, caller, receiver, amount).state) == Total(balances)
  {
    if caller != receiver {
      TransferConservesTotal(balances, caller, receiver, amount);
    }
  }

  /** The unit test `transfer_balance` on the transition function: a transfer
      from an unfunded account fails, and after alice is given 100 a transfer
      of 55 to bob leaves alice with 45 and bob with 55. */
  lemma TransferBalanceExample()
    ensures TransferStep(map[], "alice", "bob", 100) == Step(Err(NOT_ENOUGH_FUNDS), map[])
    ensures var after := TransferStep(map["alice" := 100], "alice", "bob", 55);
            after.result == Ok && BalanceOf(after.state, "alice") == 45 && BalanceOf(after.state, "bob") == 55
  {
  }

  class Pallet {
    var balances: map<string, U128>

    /** A new pallet stores no balance. */
    constructor ()
      ensures balances == map[]
    {
      balances := map[];
    }

    /** An account never set reads as zero. It takes `&mut self` in Rust but
        only reads; as a function it cannot change the map. */
    function Balance(who: string): (r: U128)
      reads this
      ensures who !in balances ==> r == 0
      ensures who in balances ==> r == balances[who]
    {
      BalanceOf(balances, who)
    }

    /** Administrative overwrite of one account's balance. */
    method SetBalance(who: string, amount: U128)
      modifies this
      ensures balances == old(balances)[who := amount]
      ensures Balance(who) == amount
      ensures forall a :: a != who ==> Balance(a) == old(Balance(a))
    {
      balances := balances[who := amount];
    }

    /** Checked subtract on the caller, checked add on the receiver, both
        before either write; then the two writes, caller first. */
    method Transfer(caller: string, receiver: string, amount: U128) returns (r: DispatchResult)
      modifies this
      ensures Step(r, balances) == TransferStep(old(balances), caller, receiver, amount)
    {
      var callerBalance := Balance(caller);
      var receiverBalance := Balance(receiver);
      if callerBalance < amount {
        return Err(NOT_ENOUGH_FUNDS);
      }
      callerBalance := callerBalance - amount;
      if receiverBalance + amount > MAX_BALANCE {
        return Err(OVERFLOW_BALANCE);
      }
      receiverBalance := receiverBalance + amount;
      SetBalance(caller, callerBalance);
      SetBalance(receiver, receiverBalance);
      return Ok;
    }
  }

  /** The unit test `init_balance`, checked against the class contracts:
      alice reads 0, then 100 once set; bob still reads 0. */
  method InitBalance() returns (before: U128, after: U128, bob: U128)
    ensures before == 0 && after == 100 && bob == 0
  {
    var balances := new Pallet();
    before := balances.Balance("alice");
    balances.SetBalance("alice", 100);
    after := balances.Balance("alice");
    bob := balances.Balance("bob");
  }

  /** The unit test `transfer_balance`, checked against the class contracts:
      an unfunded transfer fails, and after funding alice with 100 a transfer
      of 55 leaves alice with 45 and bob with 55. */
  method TransferBalance() returns (unfunded: DispatchResult, funded: DispatchResult, alice: U128, bob: U128)
    ensures unfunded == Err(NOT_ENOUGH_FUNDS) && funded == Ok
    ensures alice == 45 && bob == 55
  {
    var balances := new Pallet();
    unfunded := balances.Transfer("alice", "bob", 100);
    balances.SetBalance("alice", 100);
    funded := balances.Transfer("alice", "bob", 55);
    alice := balances.Balance("alice");
    bob := balances.Balance("bob");
  }
}
