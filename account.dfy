/** A single customer account of the DollarsBank ledger: a balance and an
    append-only log of transaction records. Money is counted in whole cents. */
module CustomerAccount {

  /** One entry of an account's log, built by `RecordTransaction`. */
  datatype Transaction = Transaction(previousBalance: int, amount: int, newBalance: int, message: string)

  /** What `transaction(amount, message)` hands back: the new record, `null`
      for a refused overdraft, or `0` when the amount is zero. */
  datatype Outcome = Recorded(record: Transaction) | Rejected | NoOp
  {
    /** JavaScript truthiness of the result: only a record object is truthy
        (`null` and `0` are both falsy). */
    predicate Truthy() { Recorded? }
  }

  datatype Option<T> = None | Some(value: T)

  /** The PIN-free view of an account returned by `accountInfo`. */
  datatype Info = Info(name: string, email: string, id: string)

  const InitialMessage: string := "Initial balance."

  /** The decision `transaction` takes for a balance and an amount: credits
      always go through, debits that would overdraw are refused, zero does
      nothing. */
  function Apply(balance: int, amount: int, message: string): (r: Outcome)
    ensures r.Recorded? <==> amount > 0 || (amount < 0 && balance + amount >= 0)
    ensures r.Rejected? <==> amount < 0 && balance + amount < 0
    ensures r.NoOp? <==> amount == 0
    ensures r.Recorded? ==> r.record == Transaction(balance, amount, balance + amount, message)
    ensures balance >= 0 ==> BalanceAfter(balance, r) >= 0
  {
    if amount > 0 then
      Recorded(Transaction(balance, amount, balance + amount, message))
    else if amount < 0 then
      if balance + amount < 0 then Rejected
      else Recorded(Transaction(balance, amount, balance + amount, message))
    else
      NoOp
  }

  /** The balance once an outcome has been applied. */
  function BalanceAfter(balance: int, r: Outcome): int
  {
    if r.Recorded? then r.record.newBalance else balance
  }

  /** The log once an outcome has been applied: only a record is appended. */
  function LogAfter(log: seq<Transaction>, r: Outcome): seq<Transaction>
  {
    if r.Recorded? then log + [r.record] else log
  }

  /** Every record starts where the previous one ended (the first one at 0)
      and adds its amount to that balance. */
  ghost predicate Chained(log: seq<Transaction>)
  {
    |log| == 0 ||
    (var last := log[|log| - 1];
     && Chained(log[..|log| - 1])
     && last.previousBalance == Closing(log[..|log| - 1])
     && last.newBalance == last.previousBalance + last.amount)
  }

  /** No record ever leaves the account below zero. */
  ghost predicate NonNegative(log: seq<Transaction>)
  {
    |log| == 0 || (NonNegative(log[..|log| - 1]) && log[|log| - 1].newBalance >= 0)
  }

  /** The balance the log ends on: the last record's new balance, or 0. */
  function Closing(log: seq<Transaction>): int
  {
    if |log| == 0 then 0 else log[|log| - 1].newBalance
  }

  /** The sum of all recorded amounts. */
  function Total(log: seq<Transaction>): int
  {
    if |log| == 0 then 0 else Total(log[..|log| - 1]) + log[|log| - 1].amount
  }

  /** In a chained log every record satisfies newBalance == previousBalance + amount. */
  lemma {:induction false} ChainedRecordsAdd(log: seq<Transaction>)
    requires Chained(log)
    ensures forall i :: 0 <= i < |log| ==> log[i].newBalance == log[i].previousBalance + log[i].amount
  {
    if |log| > 0 {
      var prefix := log[..|log| - 1];
      ChainedRecordsAdd(prefix);
      assert forall i :: 0 <= i < |prefix| ==> prefix[i] == log[i];
    }
  }

  /** In a chained, non-negative log no record starts or ends below zero. */
  lemma {:induction false} NoRecordNegative(log: seq<Transaction>)
    requires Chained(log) && NonNegative(log)
    ensures forall i :: 0 <= i < |log| ==> log[i].previousBalance >= 0 && log[i].newBalance >= 0
  {
    if |log| > 0 {
      var prefix := log[..|log| - 1];
      NoRecordNegative(prefix);
      assert forall i :: 0 <= i < |prefix| ==> prefix[i] == log[i];
    }
  }

  /** In a chained log the recorded amounts add up to the closing balance. */
  lemma {:induction false} TotalIsClosing(log: seq<Transaction>)
    requires Chained(log)
    ensures Total(log) == Closing(log)
  {
    if |log| > 0 {
      TotalIsClosing(log[..|log| - 1]);
    }
  }

  /** Applying any amount to the closing balance of a well-formed log keeps it
      well-formed: still chained, never negative, the balance is the new
      closing balance and the sum of all amounts. */
  lemma ApplyKeepsLedger(log: seq<Transaction>, amount: int, message: string)
    requires Chained(log) && NonNegative(log)
    ensures var r := Apply(Closing(log), amount, message);
            var after := LogAfter(log, r);
            && Chained(after) && NonNegative(after)
            && Closing(after) == BalanceAfter(Closing(log), r) >= 0
            && Total(after) == Closing(after)
  {
    var after := LogAfter(log, Apply(Closing(log), amount, message));
    assert after[..|log|] == log;
    TotalIsClosing(after);
  }

  class Account {
    const email: string
    const name: string
    const accountId: string
    const pin: string
    var balance: int
    var transactions: seq<Transaction>

    /** The account invariant: the log is chained from 0, never negative,
        and the balance is where it ends. */
    ghost predicate Valid()
      reads this
    {
      Chained(transactions) && NonNegative(transactions) && 0 <= balance == Closing(transactions)
    }

    /** Starts from 0 with an empty log and applies `initialBalance` as the
        transaction "Initial balance.": a positive amount leaves exactly one
        record, anything else leaves none. */
    constructor (email: string, name: string, accountId: string, pin: string, initialBalance: int)
      ensures Valid()
      ensures this.email == email && this.name == name && this.accountId == accountId && this.pin == pin
      ensures balance == if initialBalance > 0 then initialBalance else 0
      ensures transactions == if initialBalance > 0
                              then [Transaction(0, initialBalance, initialBalance, InitialMessage)]
                              else []
    {
      this.email := email;
      this.name := name;
      this.accountId := accountId;
      this.pin := pin;
      transactions := [];
      balance := 0;
      new;
      var initial := Transact(initialBalance, InitialMessage);
    }

    /** `transaction(amount, message)`: the only operation that changes the
        balance. A refused or zero amount changes nothing. */
    method Transact(amount: int, message: string) returns (r: Outcome)
      requires Valid()
      modifies this
      ensures Valid()
      ensures r == Apply(old(balance), amount, message)
      ensures r.Truthy() <==> amount > 0 || (amount < 0 && old(balance) + amount >= 0)
      ensures balance == BalanceAfter(old(balance), r)
      ensures transactions == LogAfter(old(transactions), r)
      ensures balance == Total(transactions)
      ensures !r.Truthy() ==> unchanged(this)
    {
      ApplyKeepsLedger(transactions, amount, message);
      if amount > 0 {
        var oldBalance := balance;
        balance := balance + amount;
        var t := RecordTransaction(oldBalance, amount, message);
        r := Recorded(t);
      } else if amount < 0 {
        var isOverdraft := balance + amount < 0;
        if isOverdraft {
          return Rejected;
        }
        var oldBalance := balance;
        balance := balance + amount;
        var t := RecordTransaction(oldBalance, amount, message);
        r := Recorded(t);
      } else {
        r := NoOp;
      }
    }

    /** `recordTransaction`: builds the record from the old balance, the
        amount and the balance as it now stands, and appends it to the log. */
    method RecordTransaction(oldBalance: int, amount: int, message: string) returns (t: Transaction)
      modifies this
      ensures t == Transaction(oldBalance, amount, balance, message)
      ensures balance == old(balance)
      ensures transactions == old(transactions) + [t]
    {
      t := Transaction(oldBalance, amount, balance, message);
      transactions := transactions + [t];
    }

    /** `lastFiveTransactions`: nothing for an empty log, the newest five
        (newest first) when there are at least five, and otherwise the whole
        log in its own, oldest-first, order. */
    method LastFiveTransactions() returns (r: Option<seq<Transaction>>)
      ensures r.None? <==> |transactions| == 0
      ensures |transactions| >= 5 ==>
                r.Some? && |r.value| == 5 &&
                forall k :: 0 <= k < 5 ==> r.value[k] == transactions[|transactions| - 1 - k]
      ensures 0 < |transactions| < 5 ==> r == Some(transactions)
    {
      if |transactions| == 0 {
        return None;
      }
      if |transactions| >= 5 {
        var arrayEnd := |transactions| - 1;
        var fiveLess := arrayEnd - 5;
        var returnedItems := [];
        var i := arrayEnd;
        while i > fiveLess
          invariant fiveLess <= i <= arrayEnd
          invariant |returnedItems| == arrayEnd - i
          invariant forall k :: 0 <= k < |returnedItems| ==> returnedItems[k] == transactions[arrayEnd - k]
        {
          returnedItems := returnedItems + [transactions[i]];
          i := i - 1;
        }
        return Some(returnedItems);
      }
      return Some(transactions);
    }

    /** `accountInfo`: name, email and id, and nothing else. */
    function AccountInfo(): (info: Info)
      ensures info.name == name && info.email == email && info.id == accountId
    {
      Info(name, email, accountId)
    }
  }

  /** The summary never depends on the PIN (nor on the balance or the log):
      accounts that agree on name, email and id give the same summary. */
  lemma AccountInfoHidesPin(a: Account, b: Account)
    requires a.name == b.name && a.email == b.email && a.accountId == b.accountId
    ensures a.AccountInfo() == b.AccountInfo()
  {
  }
}
