/** ctrlers/types/account.go and ctrlers/account: balances and nonces. The first half is the
    account ledger as a value with the source's 256-bit arithmetic; the second half is the account
    objects that transactions share, and the controller that hands them out. */
module Accounts {
  import opened Base
  import opened Sums

  datatype Acct = Acct(balance: nat, nonce: int, name: string, url: string)

  type Accts = map<Address, Acct>

  datatype AcctError = InvalidAmount | InsufficientFund | NotFoundAccount

  const NEW_ACCT := Acct(0, 0, "", "")

  // ----- one account

  function AddTo(a: Acct, amt: nat): Result<Acct, AcctError> {
    if Negative(amt) then Failure(InvalidAmount) else Success(a.(balance := Add256(a.balance, amt)))
  }

  function TakeFrom(a: Acct, amt: nat): Result<Acct, AcctError> {
    if Negative(amt) then Failure(InvalidAmount)
    else if amt > a.balance then Failure(InsufficientFund)
    else Success(a.(balance := Sub256(a.balance, amt)))
  }

  function Get(m: Accts, a: Address): Acct { if a in m then m[a] else NEW_ACCT }

  // ----- the ledger

  /** transfer: take from the sender, then give to the receiver, who may be the sender. */
  function Transfer(m: Accts, from: Address, to: Address, amt: nat): Result<Accts, AcctError>
    requires from in m
  {
    var x :- TakeFrom(m[from], amt);
    var m' := m[from := x];
    var y := Get(m', to);
    Success(m'[to := y.(balance := Add256(y.balance, amt))])
  }

  /** Reward pays only an account that exists; AddBalance opens one if need be. */
  function Reward(m: Accts, a: Address, amt: nat): Result<Accts, AcctError> {
    if a !in m then Failure(NotFoundAccount)
    else
      var x :- AddTo(m[a], amt);
      Success(m[a := x])
  }

  function AddBalance(m: Accts, a: Address, amt: nat): Result<Accts, AcctError> {
    var x :- AddTo(Get(m, a), amt);
    Success(m[a := x])
  }

  function SubBalance(m: Accts, a: Address, amt: nat): Result<Accts, AcctError> {
    if a !in m then Failure(NotFoundAccount)
    else
      var x :- TakeFrom(m[a], amt);
      Success(m[a := x])
  }

  lemma TransferByParts(m: Accts, from: Address, to: Address, amt: nat)
    requires from in m
    ensures match TakeFrom(m[from], amt)
      case Failure(e) => Transfer(m, from, to, amt) == Failure(e)
      case Success(x) =>
        var r := AddTo(if from == to then x else Get(m, to), amt);
        r.Success? && Transfer(m, from, to, amt) == Success(m[from := x][to := r.value])
  {
  }

  /** InitLedger: the genesis asset holders, a later entry replacing an earlier one. */
  function Holders(hs: seq<(Address, nat)>): Accts {
    if hs == [] then map[] else Holders(hs[..|hs| - 1])[hs[|hs| - 1].0 := NEW_ACCT.(balance := hs[|hs| - 1].1)]
  }

  // ----- sums of balances

  function BalanceOf(a: Acct): int { a.balance }

  ghost function Money(m: Accts): int { Total(m, BalanceOf) }

  lemma MoneyUpdate(m: Accts, a: Address, x: Acct)
    ensures Money(m[a := x]) == Money(m) - Get(m, a).balance + x.balance
  {
    TotalUpdate(m, BalanceOf, a, x);
  }

  lemma BalanceWithinMoney(m: Accts, a: Address)
    ensures 0 <= Get(m, a).balance <= Money(m)
  {
    TotalAtLeastPart(m, BalanceOf, a);
  }

  /** Crediting an account adds exactly the amount, as long as all the money fits. */
  lemma CreditAdds(m: Accts, a: Address, amt: nat)
    requires amt < TWO255 && Money(m) + amt < TWO256
    ensures AddBalance(m, a, amt).Success? && Money(AddBalance(m, a, amt).value) == Money(m) + amt
    ensures AddBalance(m, a, amt).value == m[a := Get(m, a).(balance := Get(m, a).balance + amt)]
    ensures a in m ==> Reward(m, a, amt) == AddBalance(m, a, amt)
  {
    BalanceWithinMoney(m, a);
    MoneyUpdate(m, a, Get(m, a).(balance := Get(m, a).balance + amt));
  }

  /** Debiting an account that holds the amount takes exactly the amount. */
  lemma DebitTakes(m: Accts, a: Address, amt: nat)
    requires a in m && amt <= m[a].balance && amt < TWO255 && Money(m) < TWO256
    ensures SubBalance(m, a, amt).Success? && Money(SubBalance(m, a, amt).value) == Money(m) - amt
    ensures SubBalance(m, a, amt).value == m[a := m[a].(balance := m[a].balance - amt)]
  {
    BalanceWithinMoney(m, a);
    MoneyUpdate(m, a, m[a].(balance := m[a].balance - amt));
  }

  /** A transfer succeeds exactly when the sender holds a non-negative amount, moves it, and leaves
      the sum of balances and every other account alone; to oneself it changes nothing. */
  lemma TransferMoves(m: Accts, from: Address, to: Address, amt: nat)
    requires from in m && Money(m) < TWO255
    ensures Transfer(m, from, to, amt).Success? <==> !Negative(amt) && amt <= m[from].balance
    ensures Transfer(m, from, to, amt).Success? ==>
      var m' := Transfer(m, from, to, amt).value;
      && Money(m') == Money(m)
      && m'.Keys == m.Keys + {to}
      && (from == to ==> m' == m)
      && (from != to ==> m'[from] == m[from].(balance := m[from].balance - amt))
      && (from != to ==> m'[to] == Get(m, to).(balance := Get(m, to).balance + amt))
      && (forall a :: a in m && a != from && a != to ==> m'[a] == m[a])
  {
    BalanceWithinMoney(m, from);
    if !Negative(amt) && amt <= m[from].balance {
      DebitTakes(m, from, amt);
      var m1 := SubBalance(m, from, amt).value;
      CreditAdds(m1, to, amt);
      assert Transfer(m, from, to, amt) == AddBalance(m1, to, amt);
    }
  }

  // ----- account objects

  class Account {
    const addr: Address
    var balance: nat
    var nonce: int
    var name: string
    var docURL: string

    constructor (a: Address)
      ensures addr == a && Value() == NEW_ACCT
    {
      addr, balance, nonce, name, docURL := a, 0, 0, "", "";
    }

    constructor Load(a: Address, x: Acct)
      ensures addr == a && Value() == x
    {
      addr, balance, nonce, name, docURL := a, x.balance, x.nonce, x.name, x.url;
    }

    function Value(): Acct
      reads this
    {
      Acct(balance, nonce, name, docURL)
    }

    method Add(amt: nat) returns (err: Option<AcctError>)
      modifies this`balance
      ensures match AddTo(old(Value()), amt)
        case Success(x) => err == None && Value() == x
        case Failure(e) => err == Some(e) && Value() == old(Value())
    {
      if Negative(amt) { return Some(InvalidAmount); }
      balance := Add256(balance, amt);
      return None;
    }

    method Sub(amt: nat) returns (err: Option<AcctError>)
      modifies this`balance
      ensures match TakeFrom(old(Value()), amt)
        case Success(x) => err == None && Value() == x
        case Failure(e) => err == Some(e) && Value() == old(Value())
    {
      if Negative(amt) { return Some(InvalidAmount); }
      if amt > balance { return Some(InsufficientFund); }
      balance := Sub256(balance, amt);
      return None;
    }

    method AddNonce()
      modifies this`nonce
      ensures Value() == old(Value()).(nonce := old(nonce) + 1)
    {
      nonce := nonce + 1;
    }

    method SetDoc(n: string, u: string)
      modifies this`name, this`docURL
      ensures Value() == old(Value()).(name := n, url := u)
    {
      name := n;
      docURL := u;
    }
  }

  /** transfer on the objects themselves. */
  method MoveBetween(sender: Account, receiver: Account, amt: nat) returns (err: Option<AcctError>)
    requires sender.addr == receiver.addr ==> sender == receiver
    modifies sender, receiver
    ensures match TakeFrom(old(sender.Value()), amt)
      case Failure(e) => err == Some(e) && sender.Value() == old(sender.Value())
          && receiver.Value() == old(receiver.Value())
      case Success(x) =>
        && err == None
        && AddTo(if sender == receiver then x else old(receiver.Value()), amt) == Success(receiver.Value())
        && (sender != receiver ==> sender.Value() == x)
  {
    err := sender.Sub(amt);
    if err == None { err := receiver.Add(amt); }
  }

  /** The controller. The ledger hands out one shared object per address, so an entry of `accts` is
      what every transaction context of the block sees; `newbies` are the receivers' accounts that
      were opened in this block and not yet written. */
  class AcctCtrler {
    var accts: Accts
    var newbies: set<Address>

    constructor (genesis: seq<(Address, nat)>)
      ensures accts == Holders(genesis) && newbies == {}
    {
      var m: Accts := map[];
      for i := 0 to |genesis|
        invariant m == Holders(genesis[..i])
      {
        assert genesis[..i + 1][..i] == genesis[..i];
        m := m[genesis[i].0 := NEW_ACCT.(balance := genesis[i].1)];
      }
      assert genesis[..|genesis|] == genesis;
      accts, newbies := m, {};
    }

    method FindOrNewAccount(a: Address) returns (x: Acct)
      modifies this`newbies
      ensures x == Get(accts, a)
      ensures newbies == old(newbies) + (if a in accts then {} else {a})
    {
      if a in accts { return accts[a]; }
      newbies := newbies + {a};
      return NEW_ACCT;
    }

    method TransferBetween(from: Address, to: Address, amt: nat) returns (err: Option<AcctError>)
      requires from in accts
      modifies this`accts
      ensures match Transfer(old(accts), from, to, amt)
        case Success(m) => err == None && accts == m
        case Failure(e) => err == Some(e) && accts == old(accts)
    {
      var sender := new Account.Load(from, accts[from]);
      var receiver := sender;
      if to != from { receiver := new Account.Load(to, Get(accts, to)); }
      TransferByParts(accts, from, to, amt);
      err := MoveBetween(sender, receiver, amt);
      if err == None {
        accts := accts[from := sender.Value()];
        accts := accts[to := receiver.Value()];
      }
    }

    method RewardAccount(a: Address, amt: nat) returns (err: Option<AcctError>)
      modifies this`accts
      ensures match Reward(old(accts), a, amt)
        case Success(m) => err == None && accts == m
        case Failure(e) => err == Some(e) && accts == old(accts)
    {
      if a !in accts { return Some(NotFoundAccount); }
      var x := new Account.Load(a, accts[a]);
      err := x.Add(amt);
      if err == None { accts := accts[a := x.Value()]; }
    }

    method AddToBalance(a: Address, amt: nat) returns (err: Option<AcctError>)
      modifies this`accts
      ensures match AddBalance(old(accts), a, amt)
        case Success(m) => err == None && accts == m
        case Failure(e) => err == Some(e) && accts == old(accts)
    {
      var x := new Account.Load(a, Get(accts, a));
      err := x.Add(amt);
      if err == None { accts := accts[a := x.Value()]; }
    }
  }
}
