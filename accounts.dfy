/** The account service: balances kept per account identifier in the account
    store, changed by deposits (putMoney) and withdrawals (getMoney). */
module Accounts {
  import opened Outcomes

  /** An account as the store hands it out: its identifier and its balance. */
  datatype Account = Account(id: int, amount: int)

  /** The identifier of an account the store has not saved yet. */
  const UnassignedId: int := 0

  /** The account store: the balance of every account, by identifier. */
  type Balances = map<int, int>

  /** A balance-changing call on the account service. */
  datatype Request =
    | Put(id: int, amount: int)  // putMoney(id, amount)
    | Get(id: int, amount: int)  // getMoney(id, amount)

  /** No account in the store holds a negative balance. */
  ghost predicate NonNegative(b: Balances) {
    forall id :: id in b ==> b[id] >= 0
  }

  /** No deposit in the sequence has a negative amount. */
  ghost predicate NoNegativeDeposits(reqs: seq<Request>) {
    forall i :: 0 <= i < |reqs| && reqs[i].Put? ==> reqs[i].amount >= 0
  }

  /** What checkBalance(id) answers on the store b. */
  function BalanceOf(b: Balances, id: int): (r: Result<int>)
    ensures r.Ok? <==> id in b
    ensures r.Ok? ==> r.value == b[id]
    ensures r.Err? ==> r.error == AccountNotFound
  {
    if id in b then Ok(b[id]) else Err(AccountNotFound)
  }

  /** One balance-changing call on the store b: the store afterwards and the
      call's reply (the new balance, or the failure). */
  function Perform(b: Balances, req: Request): (r: (Balances, Result<int>))
    ensures r.0.Keys == b.Keys
    ensures forall id :: id in b && id != req.id ==> r.0[id] == b[id]
    ensures r.1.Err? ==> r.0 == b
    ensures r.1.Ok? ==> req.id in r.0 && r.1.value == r.0[req.id]
    ensures req.Get? && r.1.Ok? ==> r.1.value >= 0
    ensures req.id !in b ==> r == (b, Err(AccountNotFound))
  {
    if req.id !in b then (b, Err(AccountNotFound))
    else
      match req
      case Put(id, x) => (b[id := b[id] + x], Ok(b[id] + x))
      case Get(id, x) =>
        if x > b[id] then (b, Err(NotEnoughMoney))
        else (b[id := b[id] - x], Ok(b[id] - x))
  }

  /** The store after a sequence of calls, oldest first; a call that fails
      leaves the store as it was. */
  function Run(b: Balances, reqs: seq<Request>): (r: Balances)
    ensures r.Keys == b.Keys
  {
    if reqs == [] then b else Run(Perform(b, reqs[0]).0, reqs[1..])
  }

  /** A withdrawal is refused for want of money exactly when it asks for more
      than the balance, and it succeeds exactly otherwise. */
  lemma WithdrawRefusedIff(b: Balances, id: int, x: int)
    requires id in b
    ensures Perform(b, Get(id, x)).1 == Err(NotEnoughMoney) <==> x > b[id]
    ensures Perform(b, Get(id, x)).1.Ok? <==> x <= b[id]
  {
  }

  /** A deposit on a stored account adds the amount to its balance, whatever
      the balance, and replies with the sum. */
  lemma DepositAdds(b: Balances, id: int, x: int)
    requires id in b
    ensures Perform(b, Put(id, x)) == (b[id := b[id] + x], Ok(b[id] + x))
  {
  }

  /** A withdrawal of no more than the balance subtracts the amount and replies
      with the difference. */
  lemma WithdrawSubtracts(b: Balances, id: int, x: int)
    requires id in b && x <= b[id]
    ensures Perform(b, Get(id, x)) == (b[id := b[id] - x], Ok(b[id] - x))
  {
  }

  /** Withdrawing the whole balance succeeds and leaves zero. */
  lemma WithdrawWholeBalance(b: Balances, id: int)
    requires id in b
    ensures Perform(b, Get(id, b[id])) == (b[id := 0], Ok(0))
  {
  }

  /** Depositing an amount and then withdrawing it again restores the store,
      when the balance is not negative (a negative balance plus x is less than
      x, so the withdrawal would be refused). */
  lemma DepositThenWithdraw(b: Balances, id: int, x: int)
    requires id in b && b[id] >= 0
    ensures Perform(Perform(b, Put(id, x)).0, Get(id, x)) == (b, Ok(b[id]))
  {
    var b1 := Perform(b, Put(id, x)).0;
    assert b1[id := b[id]] == b;
  }

  /** One call keeps every balance non-negative, provided a deposit is not of a
      negative amount. */
  lemma PerformKeepsNonNegative(b: Balances, req: Request)
    requires NonNegative(b)
    requires req.Put? ==> req.amount >= 0
    ensures NonNegative(Perform(b, req).0)
  {
  }

  /** No sequence of calls makes a balance negative, provided no deposit is of a
      negative amount: withdrawals are refused rather than overdrawing. */
  lemma {:induction false} RunKeepsNonNegative(b: Balances, reqs: seq<Request>)
    requires NonNegative(b)
    requires NoNegativeDeposits(reqs)
    ensures NonNegative(Run(b, reqs))
  {
    if reqs != [] {
      PerformKeepsNonNegative(b, reqs[0]);
      assert NoNegativeDeposits(reqs[1..]) by {
        forall i | 0 <= i < |reqs[1..]| && reqs[1..][i].Put?
          ensures reqs[1..][i].amount >= 0
        {
          assert reqs[1..][i] == reqs[i + 1];
        }
      }
      RunKeepsNonNegative(Perform(b, reqs[0]).0, reqs[1..]);
    }
  }

  /** Running one more call after a sequence is performing that call on the
      store the sequence left: the store of a service that has received the
      calls reqs, one after another, is Run of its starting store. */
  lemma {:induction false} RunThenPerform(b: Balances, reqs: seq<Request>, req: Request)
    ensures Run(b, reqs + [req]) == Perform(Run(b, reqs), req).0
  {
    if reqs != [] {
      assert (reqs + [req])[1..] == reqs[1..] + [req];
      RunThenPerform(Perform(b, reqs[0]).0, reqs[1..], req);
    } else {
      assert [req][1..] == [];
    }
  }

  /** An account that no call in the sequence names keeps its balance. */
  lemma {:induction false} RunLeavesUntouched(b: Balances, reqs: seq<Request>, id: int)
    requires id in b
    requires forall i :: 0 <= i < |reqs| ==> reqs[i].id != id
    ensures Run(b, reqs)[id] == b[id]
  {
    if reqs != [] {
      assert reqs[0].id != id;
      var b1 := Perform(b, reqs[0]).0;
      assert forall i :: 0 <= i < |reqs[1..]| ==> reqs[1..][i] == reqs[i + 1];
      RunLeavesUntouched(b1, reqs[1..], id);
    }
  }

  /** The account service over the account store. */
  class AccountService {
    /** The account store. */
    var balances: Balances
    /** Every account handed to the store's saveAccount, oldest first. */
    ghost var saved: seq<Account>
    /** Every putMoney and getMoney call received, oldest first. */
    ghost var requests: seq<Request>

    constructor (store: Balances)
      ensures balances == store && saved == [] && requests == []
    {
      balances := store;
      saved := [];
      requests := [];
    }

    /** createAccount: hands an unsaved account with the given amount to the
        store; assignedId is the identifier the store gives it. */
    method CreateAccount(amount: int, assignedId: int) returns (account: Account)
      requires assignedId != UnassignedId && assignedId !in balances
      modifies this
      ensures saved == old(saved) + [Account(UnassignedId, amount)]
      ensures balances == old(balances)[assignedId := amount]
      ensures account == Account(assignedId, amount)
      ensures requests == old(requests)
    {
      var unsaved := Account(UnassignedId, amount);
      saved := saved + [unsaved];
      balances := balances[assignedId := unsaved.amount];
      account := unsaved.(id := assignedId);
    }

    /** putMoney: adds the amount to the account's balance and returns the new
        balance. */
    method PutMoney(id: int, amount: int) returns (r: Result<int>)
      modifies this
      ensures (balances, r) == Perform(old(balances), Put(id, amount))
      ensures requests == old(requests) + [Put(id, amount)]
      ensures saved == old(saved)
    {
      requests := requests + [Put(id, amount)];
      if id !in balances {
        r := Err(AccountNotFound);
        return;
      }
      var updated := balances[id] + amount;
      balances := balances[id := updated];
      r := Ok(updated);
    }

    /** getMoney: takes the amount from the account's balance and returns the
        new balance, failing with "Not enough money" when the amount exceeds the
        balance. */
    method GetMoney(id: int, amount: int) returns (r: Result<int>)
      modifies this
      ensures (balances, r) == Perform(old(balances), Get(id, amount))
      ensures requests == old(requests) + [Get(id, amount)]
      ensures saved == old(saved)
    {
      requests := requests + [Get(id, amount)];
      if id !in balances {
        r := Err(AccountNotFound);
        return;
      }
      if amount > balances[id] {
        r := Err(NotEnoughMoney);
        return;
      }
      var updated := balances[id] - amount;
      balances := balances[id := updated];
      r := Ok(updated);
    }

    /** getAccount: the stored account for the identifier. */
    method GetAccount(id: int) returns (r: Result<Account>)
      ensures id in balances ==> r == Ok(Account(id, balances[id]))
      ensures id !in balances ==> r == Err(AccountNotFound)
    {
      if id in balances {
        r := Ok(Account(id, balances[id]));
      } else {
        r := Err(AccountNotFound);
      }
    }

    /** checkBalance: the stored balance of the account. */
    method CheckBalance(id: int) returns (r: Result<int>)
      ensures id in balances ==> r == Ok(balances[id])
      ensures id !in balances ==> r == Err(AccountNotFound)
    {
      r := BalanceOf(balances, id);
    }
  }

  /** The account-service tests as a run of the model: creation, a deposit of
      200 onto 100, withdrawing a whole balance, and a refused withdrawal. */
  method AccountServiceScenario()
  {
    var service := new AccountService(map[]);
    var created := service.CreateAccount(1000, 1);
    assert service.saved == [Account(UnassignedId, 1000)];
    assert created == Account(1, 1000);

    service := new AccountService(map[1 := 100]);
    var put := service.PutMoney(1, 200);
    assert put == Ok(300);

    service := new AccountService(map[1 := 100]);
    var got := service.GetMoney(1, 100);
    assert got == Ok(0);

    service := new AccountService(map[1 := 100]);
    var refused := service.GetMoney(1, 101);
    assert refused == Err(NotEnoughMoney) && Message(refused.error) == "Not enough money";
    assert service.balances == map[1 := 100];

    var account := service.GetAccount(1);
    assert account == Ok(Account(1, 100));
    var balance := service.CheckBalance(1);
    assert balance == Ok(100);
  }

  /** Create with 1000, deposit 200, withdraw 100, then a withdrawal of 1101 is
      refused and the balance stays 1100. */
  method LedgerRoundScenario()
  {
    var service := new AccountService(map[]);
    var account := service.CreateAccount(1000, 7);
    var r := service.PutMoney(account.id, 200);
    assert r == Ok(1200);
    r := service.GetMoney(account.id, 100);
    assert r == Ok(1100);
    r := service.GetMoney(account.id, 1101);
    assert r == Err(NotEnoughMoney);
    var created := map[7 := 1000];
    RunThenPerform(created, [], Put(7, 200));
    RunThenPerform(created, [Put(7, 200)], Get(7, 100));
    RunThenPerform(created, [Put(7, 200), Get(7, 100)], Get(7, 1101));
    assert service.balances == Run(created, service.requests);
    assert service.balances[7] == 1100;
    assert service.requests == [Put(7, 200), Get(7, 100), Get(7, 1101)];
  }
}
