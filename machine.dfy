/** The cash-machine service: withdrawals and deposits at a cash machine, each
    a sequence of calls on the card service and on the machine's money box, and
    the balance query and PIN change, which it hands to the card service. */
module Machine {
  import opened Outcomes
  import Accounts
  import Cards
  import Notes

  /** The physical note box of a cash machine. Its note inventory is not part of
      this model; a box is known by its identity. */
  class MoneyBox {
  }

  /** A cash machine and the one money box it owns. */
  class CashMachine {
    const moneyBox: MoneyBox

    constructor (moneyBox: MoneyBox)
      ensures this.moneyBox == moneyBox
    {
      this.moneyBox := moneyBox;
    }
  }

  /** A call on the money-box service. */
  datatype BoxCall =
    | Dispense(box: MoneyBox, sum: int)  // getMoney(box, sum)
    | Accept(box: MoneyBox, note100: int, note500: int, note1000: int, note5000: int)  // putMoney(box, ...)

  /** The money-box service, seen through its calls: which notes it hands out
      for a sum, or whether it cannot, is its own algorithm, given here as the
      function dispense. */
  class MoneyBoxService {
    /** The note list the box hands out for a sum, or CannotDispense. */
    const dispense: (MoneyBox, int) -> Result<seq<int>>
    /** Every call received, oldest first. */
    ghost var calls: seq<BoxCall>

    constructor (dispense: (MoneyBox, int) -> Result<seq<int>>)
      ensures this.dispense == dispense && calls == []
    {
      this.dispense := dispense;
      calls := [];
    }

    /** getMoney: the notes for the sum, out of the box, or the box's failure. */
    method GetMoney(box: MoneyBox, sum: int) returns (notes: Result<seq<int>>)
      modifies this
      ensures notes == dispense(box, sum)
      ensures calls == old(calls) + [Dispense(box, sum)]
    {
      calls := calls + [Dispense(box, sum)];
      notes := dispense(box, sum);
    }

    /** putMoney: the counts of each face value, into the box. */
    method PutMoney(box: MoneyBox, note100: int, note500: int, note1000: int, note5000: int)
      modifies this
      ensures calls == old(calls) + [Accept(box, note100, note500, note1000, note5000)]
    {
      calls := calls + [Accept(box, note100, note500, note1000, note5000)];
    }
  }

  /** The call a deposit of the note list makes on the money box. */
  function AcceptNotes(box: MoneyBox, notes: seq<int>): (c: BoxCall)
    requires |notes| == |Notes.ListFaces|
    ensures c.Accept? && c.box == box
    ensures [c.note100, c.note500, c.note1000, c.note5000] == Notes.BoxCounts(notes)
  {
    Accept(box, notes[3], notes[2], notes[1], notes[0])
  }

  /** A deposit whose balance check succeeded cannot fail when it credits the
      card: the notes the box takes in are always credited, with their value. */
  lemma CheckedDepositCredited(cards: Cards.CardStore, b: Accounts.Balances, number: string,
                               pin: string, hash: string -> string, notes: seq<int>)
    requires |notes| == |Notes.ListFaces|
    requires Cards.Serve(cards, b, number, pin, hash, Cards.Balance).1.Ok?
    ensures var balance := Cards.Serve(cards, b, number, pin, hash, Cards.Balance).1.value;
      Cards.Serve(cards, b, number, pin, hash, Cards.Deposit(Notes.NotesValue(notes))).1
        == Ok(balance + Notes.Value(Notes.BoxCounts(notes), Notes.BoxFaces))
  {
    Notes.BoxTakesCreditedValue(notes);
  }

  /** The cash-machine service over the card service and the money-box
      service. */
  class CashMachineService {
    const cardService: Cards.CardService
    const moneyBoxService: MoneyBoxService

    constructor (cardService: Cards.CardService, moneyBoxService: MoneyBoxService)
      ensures this.cardService == cardService && this.moneyBoxService == moneyBoxService
    {
      this.cardService := cardService;
      this.moneyBoxService := moneyBoxService;
    }

    /** getMoney: withdraws the amount through the card service and, only once
        that succeeded, takes the notes for it out of the machine's box. A box
        that cannot hand out the sum fails the call, and the debit stays
        committed: nothing credits it back. */
    method GetMoney(machine: CashMachine, number: string, pin: string, amount: int)
      returns (r: Result<seq<int>>)
      modifies cardService.accounts, moneyBoxService
      ensures var cs := cardService;
        var debit := Cards.Serve(cs.cards, old(cs.accounts.balances), number, pin, cs.hash, Cards.Withdrawal(amount));
        && cs.accounts.balances == debit.0
        && cs.accounts.requests == old(cs.accounts.requests) + Cards.Sent(cs.cards, number, pin, cs.hash, Cards.Withdrawal(amount))
        && cs.accounts.saved == old(cs.accounts.saved)
        && (debit.1.Err? ==> r == Err(debit.1.error) && moneyBoxService.calls == old(moneyBoxService.calls))
        && (debit.1.Ok? ==>
              && r == moneyBoxService.dispense(machine.moneyBox, Notes.IntValue(amount))
              && moneyBoxService.calls == old(moneyBoxService.calls) + [Dispense(machine.moneyBox, Notes.IntValue(amount))])
    {
      var debit := cardService.GetMoney(number, pin, amount);
      if debit.Err? {
        r := Err(debit.error);
        return;
      }
      r := moneyBoxService.GetMoney(machine.moneyBox, Notes.IntValue(amount));
    }

    /** putMoney: checks the card's balance (which authenticates it), puts the
        notes into the machine's box in the order (100, 500, 1000, 5000), then
        credits their value through the card service. */
    method PutMoney(machine: CashMachine, number: string, pin: string, notes: seq<int>)
      returns (r: Result<int>)
      requires |notes| == |Notes.ListFaces|
      modifies cardService.accounts, moneyBoxService
      ensures var cs := cardService;
        var check := Cards.Serve(cs.cards, old(cs.accounts.balances), number, pin, cs.hash, Cards.Balance).1;
        var credit := Cards.Deposit(Notes.NotesValue(notes));
        && cs.accounts.saved == old(cs.accounts.saved)
        && (check.Err? ==>
              && r == Err(check.error)
              && cs.accounts.balances == old(cs.accounts.balances)
              && cs.accounts.requests == old(cs.accounts.requests)
              && moneyBoxService.calls == old(moneyBoxService.calls))
        && (check.Ok? ==>
              && moneyBoxService.calls == old(moneyBoxService.calls) + [AcceptNotes(machine.moneyBox, notes)]
              && (cs.accounts.balances, r) == Cards.Serve(cs.cards, old(cs.accounts.balances), number, pin, cs.hash, credit)
              && cs.accounts.requests == old(cs.accounts.requests) + Cards.Sent(cs.cards, number, pin, cs.hash, credit))
    {
      var check := cardService.GetBalance(number, pin);
      if check.Err? {
        r := Err(check.error);
        return;
      }
      moneyBoxService.PutMoney(machine.moneyBox, notes[3], notes[2], notes[1], notes[0]);
      r := cardService.PutMoney(number, pin, Notes.NotesValue(notes));
    }

    /** checkBalance: the card service's balance for the card and PIN. */
    method CheckBalance(machine: CashMachine, number: string, pin: string) returns (r: Result<int>)
      ensures var cs := cardService;
        r == Cards.Serve(cs.cards, cs.accounts.balances, number, pin, cs.hash, Cards.Balance).1
    {
      r := cardService.GetBalance(number, pin);
    }

    /** changePin: the card service's PIN change, with the same arguments. */
    method ChangePin(number: string, oldPin: string, newPin: string) returns (r: Result<bool>)
      requires cardService.Valid()
      modifies cardService
      ensures cardService.Valid()
      ensures var cs := cardService;
        match Cards.Repinned(old(cs.cards), number, oldPin, newPin, cs.hash)
        case Err(e) => r == Err(e) && cs.cards == old(cs.cards) && cs.saved == old(cs.saved)
        case Ok(after) => r == Ok(true) && cs.cards == after && cs.saved == old(cs.saved) + [after[number]]
      ensures cardService.created == old(cardService.created)
    {
      r := cardService.ChangePin(number, oldPin, newPin);
    }
  }

  /** The cash-machine withdrawal test as a run of the model. */
  method CashMachineScenario(hash: string -> string, dispense: (MoneyBox, int) -> Result<seq<int>>)
  {
    var box := new MoneyBox;
    var machine := new CashMachine(box);
    var ledger := new Accounts.AccountService(map[7 := 5000]);
    var cards := new Cards.CardService(ledger, hash, map["1111" := Cards.Card(1, "1111", 7, hash("1011"))]);
    var boxService := new MoneyBoxService(dispense);
    var service := new CashMachineService(cards, boxService);

    var notes := service.GetMoney(machine, "1111", "1011", 1000);
    assert ledger.requests == [Accounts.Get(7, 1000)];
    assert boxService.calls == [Dispense(box, 1000)];
    assert notes == dispense(box, 1000);
    assert ledger.balances == map[7 := 4000];
  }

  /** A withdrawal whose notes the box cannot hand out: the call fails, and the
      account stays debited. */
  method CashMachineUndispensedScenario(hash: string -> string)
  {
    var box := new MoneyBox;
    var machine := new CashMachine(box);
    var ledger := new Accounts.AccountService(map[7 := 5000]);
    var cards := new Cards.CardService(ledger, hash, map["1111" := Cards.Card(1, "1111", 7, hash("1011"))]);
    var boxService := new MoneyBoxService((b: MoneyBox, sum: int) => Err(CannotDispense));
    var service := new CashMachineService(cards, boxService);

    var notes := service.GetMoney(machine, "1111", "1011", 1000);
    assert notes == Err(CannotDispense);
    assert ledger.balances == map[7 := 4000];
    assert ledger.requests == [Accounts.Get(7, 1000)];
    assert boxService.calls == [Dispense(box, 1000)];
  }

  /** The cash-machine deposit test as a run of the model. */
  method CashMachineDepositScenario(hash: string -> string, dispense: (MoneyBox, int) -> Result<seq<int>>)
  {
    var box := new MoneyBox;
    var machine := new CashMachine(box);
    var ledger := new Accounts.AccountService(map[7 := 4000]);
    var cards := new Cards.CardService(ledger, hash, map["1111" := Cards.Card(1, "1111", 7, hash("1011"))]);
    var boxService := new MoneyBoxService(dispense);
    var service := new CashMachineService(cards, boxService);

    var credited := service.PutMoney(machine, "1111", "1011", [1, 1, 1, 1]);
    assert boxService.calls == [Accept(box, 1, 1, 1, 1)];
    assert ledger.requests == [Accounts.Put(7, 6600)];
    assert credited == Ok(10600);
  }

  /** The cash-machine balance and PIN-change tests as a run of the model. */
  method CashMachineQueryScenario(hash: string -> string, dispense: (MoneyBox, int) -> Result<seq<int>>)
  {
    var box := new MoneyBox;
    var machine := new CashMachine(box);
    var ledger := new Accounts.AccountService(map[7 := 10600]);
    var cards := new Cards.CardService(ledger, hash, map["1111" := Cards.Card(1, "1111", 7, hash("1011"))]);
    var boxService := new MoneyBoxService(dispense);
    var service := new CashMachineService(cards, boxService);

    var balance := service.CheckBalance(machine, "1111", "1011");
    assert balance == Ok(10600);

    var changed := service.ChangePin("1111", "1011", "0100");
    assert changed == Ok(true);
  }
}
