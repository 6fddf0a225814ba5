/** The card service: cards bound to accounts and protected by a PIN digest.
    Every balance operation on a card first authenticates the card number and
    PIN, and only then hands the call to the account service, addressed to the
    card's account. */
module Cards {
  import opened Outcomes
  import Accounts

  /** A card: its identifier, its number, the account it draws on and its PIN
      code as the store keeps it, which authentication compares with the digest
      of the PIN offered. */
  datatype Card = Card(id: int, number: string, accountId: int, pinCode: string)

  /** The card store, by card number. */
  type CardStore = map<string, Card>

  /** Every card is stored under its own number. */
  ghost predicate Keyed(cards: CardStore) {
    forall n :: n in cards ==> cards[n].number == n
  }

  /** The PIN digest function maps different PINs to different digests. */
  ghost predicate Injective(hash: string -> string) {
    forall p, q :: hash(p) == hash(q) ==> p == q
  }

  /** The arguments of one createCard call on the card store. */
  datatype NewCard = NewCard(number: string, accountId: int, pin: string)

  /** Looks the card up by number and compares the digest of the PIN with the
      stored PIN code. */
  function Authenticate(cards: CardStore, number: string, pin: string, hash: string -> string): (r: Result<Card>)
    ensures r.Ok? <==> number in cards && hash(pin) == cards[number].pinCode
    ensures r.Ok? ==> r.value == cards[number]
    ensures number !in cards ==> r == Err(NoCardFound)
    ensures number in cards && hash(pin) != cards[number].pinCode ==> r == Err(PincodeIncorrect)
  {
    if number !in cards then Err(NoCardFound)
    else if hash(pin) != cards[number].pinCode then Err(PincodeIncorrect)
    else Ok(cards[number])
  }

  /** A balance operation on a card. */
  datatype Op =
    | Balance              // getBalance
    | Deposit(amount: int)     // putMoney
    | Withdrawal(amount: int)  // getMoney

  /** The account-service call an operation on the card makes, if any. */
  function LedgerCall(card: Card, op: Op): seq<Accounts.Request> {
    match op
    case Balance => []
    case Deposit(x) => [Accounts.Put(card.accountId, x)]
    case Withdrawal(x) => [Accounts.Get(card.accountId, x)]
  }

  /** The balance-changing calls the account service receives when the
      operation is asked of the card number with the PIN: none unless the card
      authenticates, and then exactly one for a deposit or a withdrawal, of the
      matching kind, addressed to the card's account, with the amount asked. */
  function Sent(cards: CardStore, number: string, pin: string, hash: string -> string, op: Op): (r: seq<Accounts.Request>)
    ensures |r| <= 1
    ensures r != [] ==> number in cards && hash(pin) == cards[number].pinCode
    ensures r != [] ==> !op.Balance? && r[0].id == cards[number].accountId && r[0].amount == op.amount
    ensures r != [] ==> (op.Deposit? ==> r[0].Put?) && (op.Withdrawal? ==> r[0].Get?)
    ensures number in cards && hash(pin) == cards[number].pinCode && !op.Balance? ==> |r| == 1
  {
    match Authenticate(cards, number, pin, hash)
    case Err(_) => []
    case Ok(card) => LedgerCall(card, op)
  }

  /** The operation asked of the card number with the PIN, on the account store
      b: the store afterwards and the reply. */
  function Serve(cards: CardStore, b: Accounts.Balances, number: string, pin: string,
                 hash: string -> string, op: Op): (r: (Accounts.Balances, Result<int>))
    ensures r.1.Ok? || r.0 != b ==> number in cards && hash(pin) == cards[number].pinCode
    ensures number !in cards ==> r == (b, Err(NoCardFound))
    ensures number in cards && hash(pin) != cards[number].pinCode ==> r == (b, Err(PincodeIncorrect))
    ensures r.0 != b ==> Sent(cards, number, pin, hash, op) != []
    ensures number in cards && hash(pin) == cards[number].pinCode && op.Balance? ==>
      r == (b, Accounts.BalanceOf(b, cards[number].accountId))
  {
    match Authenticate(cards, number, pin, hash)
    case Err(e) => (b, Err(e))
    case Ok(card) =>
      match op
      case Balance => (b, Accounts.BalanceOf(b, card.accountId))
      case Deposit(x) => Accounts.Perform(b, Accounts.Put(card.accountId, x))
      case Withdrawal(x) => Accounts.Perform(b, Accounts.Get(card.accountId, x))
  }

  /** The card store after a PIN change from oldPin to newPin on the card
      number, or the failure of authenticating with oldPin. */
  function Repinned(cards: CardStore, number: string, oldPin: string, newPin: string,
                    hash: string -> string): (r: Result<CardStore>)
    ensures r.Ok? <==> number in cards && hash(oldPin) == cards[number].pinCode
    ensures r.Err? ==> r.error == (if number in cards then PincodeIncorrect else NoCardFound)
    ensures r.Ok? ==> r.value.Keys == cards.Keys
    ensures r.Ok? ==> r.value[number] == cards[number].(pinCode := hash(newPin))
    ensures r.Ok? && Keyed(cards) ==> Keyed(r.value) && r.value[number] == Card(cards[number].id, number, cards[number].accountId, hash(newPin))
    ensures r.Ok? ==> forall n :: n in cards && n != number ==> r.value[n] == cards[n]
  {
    match Authenticate(cards, number, oldPin, hash)
    case Err(e) => Err(e)
    case Ok(card) => Ok(cards[number := card.(pinCode := hash(newPin))])
  }

  /** Every operation on a card number the store does not know fails with "No
      card found" and changes nothing. */
  lemma UnknownCardRefused(cards: CardStore, b: Accounts.Balances, number: string, pin: string,
                           newPin: string, hash: string -> string, op: Op)
    requires number !in cards
    ensures Serve(cards, b, number, pin, hash, op) == (b, Err(NoCardFound))
    ensures Sent(cards, number, pin, hash, op) == []
    ensures Repinned(cards, number, pin, newPin, hash) == Err(NoCardFound)
  {
  }

  /** Every operation with a PIN whose digest is not the stored one fails with
      "Pincode is incorrect" and changes nothing. */
  lemma WrongPinRefused(cards: CardStore, b: Accounts.Balances, number: string, pin: string,
                        newPin: string, hash: string -> string, op: Op)
    requires number in cards && hash(pin) != cards[number].pinCode
    ensures Serve(cards, b, number, pin, hash, op) == (b, Err(PincodeIncorrect))
    ensures Sent(cards, number, pin, hash, op) == []
    ensures Repinned(cards, number, pin, newPin, hash) == Err(PincodeIncorrect)
  {
  }

  /** An authenticated withdrawal is exactly one getMoney call on the card's
      account (not on the card's own identifier), with the requested amount. */
  lemma WithdrawalUsesAccountId(cards: CardStore, b: Accounts.Balances, number: string, pin: string,
                                hash: string -> string, x: int)
    requires number in cards && hash(pin) == cards[number].pinCode
    ensures Sent(cards, number, pin, hash, Withdrawal(x)) == [Accounts.Get(cards[number].accountId, x)]
    ensures Serve(cards, b, number, pin, hash, Withdrawal(x))
         == Accounts.Perform(b, Accounts.Get(cards[number].accountId, x))
  {
  }

  /** An authenticated balance query makes no account-service call and replies
      with the balance of the card's account (not of the card's own
      identifier). */
  lemma BalanceUsesAccountId(cards: CardStore, b: Accounts.Balances, number: string, pin: string,
                             hash: string -> string)
    requires number in cards && hash(pin) == cards[number].pinCode
    ensures Sent(cards, number, pin, hash, Balance) == []
    ensures Serve(cards, b, number, pin, hash, Balance) == (b, Accounts.BalanceOf(b, cards[number].accountId))
  {
  }

  /** An authenticated deposit is exactly one putMoney call on the card's
      account, with the requested amount, and its reply is that call's. */
  lemma DepositUsesAccountId(cards: CardStore, b: Accounts.Balances, number: string, pin: string,
                             hash: string -> string, x: int)
    requires number in cards && hash(pin) == cards[number].pinCode
    ensures Sent(cards, number, pin, hash, Deposit(x)) == [Accounts.Put(cards[number].accountId, x)]
    ensures Serve(cards, b, number, pin, hash, Deposit(x))
         == Accounts.Perform(b, Accounts.Put(cards[number].accountId, x))
  {
  }

  /** After a PIN change the new PIN authenticates the card. */
  lemma NewPinAccepted(cards: CardStore, number: string, oldPin: string, newPin: string,
                       hash: string -> string)
    requires Repinned(cards, number, oldPin, newPin, hash).Ok?
    ensures var after := Repinned(cards, number, oldPin, newPin, hash).value;
      Authenticate(after, number, newPin, hash) == Ok(after[number])
  {
  }

  /** After a PIN change to a different PIN the old PIN no longer authenticates,
      when the digest tells PINs apart. */
  lemma OldPinRejected(cards: CardStore, number: string, oldPin: string, newPin: string,
                       hash: string -> string)
    requires Injective(hash)
    requires oldPin != newPin
    requires Repinned(cards, number, oldPin, newPin, hash).Ok?
    ensures var after := Repinned(cards, number, oldPin, newPin, hash).value;
      Authenticate(after, number, oldPin, hash) == Err(PincodeIncorrect)
  {
  }

  /** The card service over the card store and the account service. */
  class CardService {
    /** The card store. */
    var cards: CardStore
    /** Every card handed to the store's saveCard, oldest first. */
    ghost var saved: seq<Card>
    /** Every createCard call made on the store, oldest first. */
    ghost var created: seq<NewCard>
    /** The account service that holds the cards' accounts. */
    const accounts: Accounts.AccountService
    /** The one-way PIN digest. */
    const hash: string -> string

    /** The object invariant: the store files every card under its number. */
    ghost predicate Valid()
      reads this
    {
      Keyed(cards)
    }

    constructor (accounts: Accounts.AccountService, hash: string -> string, cards: CardStore)
      requires Keyed(cards)
      ensures Valid()
      ensures this.accounts == accounts && this.hash == hash
      ensures this.cards == cards && saved == [] && created == []
    {
      this.accounts := accounts;
      this.hash := hash;
      this.cards := cards;
      saved := [];
      created := [];
    }

    /** createCard: hands the number, account and PIN, unchanged, to the card
        store's createCard and returns the card the store made of them, given
        here as stored. */
    method CreateCard(number: string, accountId: int, pin: string, stored: Card) returns (card: Card)
      requires Valid()
      modifies this
      ensures Valid()
      ensures created == old(created) + [NewCard(number, accountId, pin)]
      ensures card == stored
      ensures cards == old(cards)[stored.number := stored]
      ensures saved == old(saved)
    {
      created := created + [NewCard(number, accountId, pin)];
      card := stored;
      cards := cards[card.number := card];
    }

    /** getBalance: authenticates, then reads the balance of the card's
        account. */
    method GetBalance(number: string, pin: string) returns (r: Result<int>)
      ensures r == Serve(cards, accounts.balances, number, pin, hash, Balance).1
    {
      var auth := Authenticate(cards, number, pin, hash);
      if auth.Err? {
        r := Err(auth.error);
        return;
      }
      r := accounts.CheckBalance(auth.value.accountId);
    }

    /** getMoney: authenticates, then withdraws the amount from the card's
        account. */
    method GetMoney(number: string, pin: string, amount: int) returns (r: Result<int>)
      modifies accounts
      ensures (accounts.balances, r) == Serve(cards, old(accounts.balances), number, pin, hash, Withdrawal(amount))
      ensures accounts.requests == old(accounts.requests) + Sent(cards, number, pin, hash, Withdrawal(amount))
      ensures accounts.saved == old(accounts.saved)
    {
      var auth := Authenticate(cards, number, pin, hash);
      if auth.Err? {
        r := Err(auth.error);
        return;
      }
      r := accounts.GetMoney(auth.value.accountId, amount);
    }

    /** putMoney: authenticates, then deposits the amount on the card's
        account. */
    method PutMoney(number: string, pin: string, amount: int) returns (r: Result<int>)
      modifies accounts
      ensures (accounts.balances, r) == Serve(cards, old(accounts.balances), number, pin, hash, Deposit(amount))
      ensures accounts.requests == old(accounts.requests) + Sent(cards, number, pin, hash, Deposit(amount))
      ensures accounts.saved == old(accounts.saved)
    {
      var auth := Authenticate(cards, number, pin, hash);
      if auth.Err? {
        r := Err(auth.error);
        return;
      }
      r := accounts.PutMoney(auth.value.accountId, amount);
    }

    /** cnangePin (so spelled in the source): authenticates with the old PIN,
        then saves the card with the digest of the new PIN and answers true. */
    method ChangePin(number: string, oldPin: string, newPin: string) returns (r: Result<bool>)
      requires Valid()
      modifies this
      ensures Valid()
      ensures match Repinned(old(cards), number, oldPin, newPin, hash)
        case Err(e) => r == Err(e) && cards == old(cards) && saved == old(saved)
        case Ok(after) => r == Ok(true) && cards == after && saved == old(saved) + [after[number]]
      ensures created == old(created)
    {
      var auth := Authenticate(cards, number, oldPin, hash);
      if auth.Err? {
        r := Err(auth.error);
        return;
      }
      var card := auth.value.(pinCode := hash(newPin));
      saved := saved + [card];
      cards := cards[card.number := card];
      r := Ok(true);
    }
  }

  /** The card-creation and balance tests as runs of the model. */
  method CardServiceScenario(hash: string -> string)
  {
    var ledger := new Accounts.AccountService(map[1 := 1000, 100 := 10]);
    var service := new CardService(ledger, hash, map[]);
    var card := service.CreateCard("5555", 1, "0123", Card(1, "5555", 1, "0123"));
    assert service.created == [NewCard("5555", 1, "0123")];
    assert card.id != 0 && card.number == "5555" && card.accountId == 1 && card.pinCode == "0123";

    service := new CardService(ledger, hash, map["1234" := Card(1, "1234", 1, hash("0000"))]);
    var balance := service.GetBalance("1234", "0000");
    assert balance == Ok(1000);
  }

  /** The withdrawal, deposit and PIN-change tests as a run of the model. */
  method CardLedgerScenario(hash: string -> string)
  {
    var ledger := new Accounts.AccountService(map[1 := 1000, 100 := 10]);
    var service := new CardService(ledger, hash, map["1111" := Card(1, "1111", 100, hash("0000"))]);
    var got := service.GetMoney("1111", "0000", 1);
    assert ledger.requests == [Accounts.Get(100, 1)];
    assert got == Ok(9);

    service := new CardService(ledger, hash, map["1111" := Card(1, "1111", 1, hash("1209"))]);
    var put := service.PutMoney("1111", "1209", 1000);
    assert ledger.requests == [Accounts.Get(100, 1), Accounts.Put(1, 1000)];
    assert put == Ok(2000);

    var changed := service.ChangePin("1111", "1209", "1110");
    assert changed == Ok(true);
    assert service.saved == [Card(1, "1111", 1, hash("1110"))];
  }

  /** The failure tests as runs of the model, for any digest function that
      does not turn "0012" into "0000". */
  method CardRefusalScenario(hash: string -> string)
    requires hash("0012") != "0000"
  {
    var ledger := new Accounts.AccountService(map[1 := 1000]);
    var service := new CardService(ledger, hash, map[]);
    var missing := service.PutMoney("1111", "1209", 1000);
    assert missing == Err(NoCardFound) && Message(missing.error) == "No card found";
    var missingPin := service.ChangePin("1111", "1209", "1110");
    assert missingPin.Err?;

    service := new CardService(ledger, hash, map["1234" := Card(1, "1234", 1, "0000")]);
    var wrong := service.GetBalance("1234", "0012");
    assert wrong == Err(PincodeIncorrect) && Message(wrong.error) == "Pincode is incorrect";
  }
}
