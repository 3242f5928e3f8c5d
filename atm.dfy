/** The DollarsBank ATM: the list of customer accounts and the transfer of
    money between two of them. */
module DollarsBankAtm {
  import opened CustomerAccount

  /** The message of a transfer's debit leg. */
  function TransferTo(email: string): string { "Transfer to " + email }

  /** The message of a transfer's credit leg. */
  function TransferFrom(email: string): string { "Transfer from " + email }

  class Atm {
    var accounts: seq<Account>

    /** Every account the ATM holds keeps the account invariant, so no
        balance anywhere is negative. */
    ghost predicate Valid()
      reads this, accounts
    {
      forall a :: a in accounts ==> a.Valid()
    }

    constructor ()
      ensures Valid() && accounts == []
    {
      accounts := [];
    }

    /** `addAccount`: builds an account from the five arguments, taken in
        order as email, name, id, PIN and initial balance, and appends it.
        Nothing is checked for duplicates. */
    method AddAccount(email: string, firstName: string, lastName: string, password: string, initialBalance: int)
      requires Valid()
      modifies this
      ensures Valid()
      ensures |accounts| == |old(accounts)| + 1
      ensures accounts[..|old(accounts)|] == old(accounts)
      ensures var a := accounts[|accounts| - 1];
              && fresh(a)
              && a.email == email && a.name == firstName && a.accountId == lastName && a.pin == password
              && a.balance == (if initialBalance > 0 then initialBalance else 0)
              && a.transactions == if initialBalance > 0
                                   then [Transaction(0, initialBalance, initialBalance, InitialMessage)]
                                   else []
    {
      var account := new Account(email, firstName, lastName, password, initialBalance);
      accounts := accounts + [account];
    }

    /** `transfer`: moves `amount` from `account1` to `account2` when the
        amount is positive and strictly below the source balance; otherwise
        it reports false and neither account changes. The two accounts may
        be the same object. */
    method Transfer(account1: Account, account2: Account, amount: int) returns (ok: bool)
      requires account1.Valid() && account2.Valid()
      modifies account1, account2
      ensures account1.Valid() && account2.Valid()
      ensures ok <==> 0 < amount < old(account1.balance)
      ensures !ok ==> unchanged(account1, account2)
      ensures ok && account1 != account2 ==>
                && account1.balance == old(account1.balance) - amount
                && account2.balance == old(account2.balance) + amount
                && account1.transactions == old(account1.transactions) +
                     [Transaction(old(account1.balance), -amount, old(account1.balance) - amount,
                                  TransferTo(account2.email))]
                && account2.transactions == old(account2.transactions) +
                     [Transaction(old(account2.balance), amount, old(account2.balance) + amount,
                                  TransferFrom(account1.email))]
      ensures ok && account1 == account2 ==>
                && account1.balance == old(account1.balance)
                && account1.transactions == old(account1.transactions) +
                     [Transaction(old(account1.balance), -amount, old(account1.balance) - amount,
                                  TransferTo(account1.email)),
                      Transaction(old(account1.balance) - amount, amount, old(account1.balance),
                                  TransferFrom(account1.email))]
      ensures account1 != account2 ==>
                account1.balance + account2.balance == old(account1.balance) + old(account2.balance)
    {
      if amount < 0 {
        return false;
      }
      var moneyAvailable := account1.balance > amount;
      if moneyAvailable {
        var withdrawal := account1.Transact(amount * -1, TransferTo(account2.email));
        if withdrawal.Truthy() {
          var deposit := account2.Transact(amount, TransferFrom(account1.email));
          if deposit.Truthy() {
            return true;
          }
        }
      }
      return false;
    }
  }

  /** What `Transfer` guarantees (both accounts still valid, the ATM and
      every other account untouched) keeps every account of the ATM valid.
      A caller that holds `atm.Valid()` applies it right after the call,
        ok := atm.Transfer(a1, a2, amount);
        TransferKeepsValid(atm, a1, a2);
      with `old` meaning the state before the transfer: `Transfer` modifies
      only `a1` and `a2`, so every other account and `atm` itself are
      unchanged. */
  twostate lemma TransferKeepsValid(atm: Atm, account1: Account, account2: Account)
    requires old(atm.Valid()) && unchanged(atm)
    requires account1.Valid() && account2.Valid()
    requires forall a :: a in atm.accounts && a != account1 && a != account2 ==> unchanged(a)
    ensures atm.Valid()
  {
    forall a | a in atm.accounts
      ensures a.Valid()
    {
      if a != account1 && a != account2 {
        assert old(a.Valid());
      }
    }
  }
}
