/** The folds Payment runs over its ledger entries: per-account balances and the balance check,
    as written and as intended. */
module PaymentLedger {
  import opened Primitives
  import opened Enums
  import opened LedgerEntries

  /** GetAccountBalance(account): the sum of credit - debit over the entries of that account. */
  function AccountBalance(entries: seq<LedgerEntry>, account: LedgerAccount): int
    decreases |entries|
  {
    if |entries| == 0 then 0
    else
      var last := entries[|entries| - 1];
      AccountBalance(entries[..|entries| - 1], account) + (if last.account == account then last.Net() else 0)
  }

  /** The sum of credit - debit over every entry, whatever its account. */
  function NetBalance(entries: seq<LedgerEntry>): int
    decreases |entries|
  {
    if |entries| == 0 then 0 else NetBalance(entries[..|entries| - 1]) + entries[|entries| - 1].Net()
  }

  /** The expression IsLedgerBalanced compares with zero: customer - clearing - merchant, in
      unchecked 32-bit int arithmetic. */
  function LedgerCheckValue(entries: seq<LedgerEntry>): (r: Int32)
    ensures NetBalance(entries) == 0 ==> r == Wrap32(2 * AccountBalance(entries, Customer))
  {
    AccountsPartitionNetBalance(entries);
    Wrap32(AccountBalance(entries, Customer) - AccountBalance(entries, Clearing) - AccountBalance(entries, Merchant))
  }

  /** IsLedgerBalanced, as written. */
  predicate IsLedgerBalanced(entries: seq<LedgerEntry>) {
    LedgerCheckValue(entries) == 0
  }

  /** The double-entry invariant the check is meant to test: every debit is matched by a credit,
      so the three account balances add up to zero. */
  predicate IsLedgerBalancedIntended(entries: seq<LedgerEntry>) {
    AccountBalance(entries, Customer) + AccountBalance(entries, Clearing) + AccountBalance(entries, Merchant) == 0
  }

  /** Every Customer entry takes money out of the customer account. */
  predicate CustomerEntriesAreDebits(entries: seq<LedgerEntry>) {
    forall i :: 0 <= i < |entries| && entries[i].account == Customer ==> entries[i].Net() < 0
  }

  /** Some entry is on the account. */
  predicate HasEntryOn(entries: seq<LedgerEntry>, account: LedgerAccount) {
    exists i :: 0 <= i < |entries| && entries[i].account == account
  }

  /** Some entry is on the Customer account. */
  predicate HasCustomerEntry(entries: seq<LedgerEntry>) {
    HasEntryOn(entries, Customer)
  }

  /** The balance sums only the account's own entries: an account that no entry touches has a
      zero balance. */
  lemma {:induction false} UntouchedAccountHasZeroBalance(entries: seq<LedgerEntry>, account: LedgerAccount)
    ensures !HasEntryOn(entries, account) ==> AccountBalance(entries, account) == 0
    decreases |entries|
  {
    if |entries| > 0 && !HasEntryOn(entries, account) {
      var prefix := entries[..|entries| - 1];
      assert !HasEntryOn(prefix, account) by {
        forall i | 0 <= i < |prefix| ensures prefix[i].account != account {
          assert prefix[i] == entries[i];
        }
      }
      UntouchedAccountHasZeroBalance(prefix, account);
    }
  }

  /** A balance of a concatenation is the sum of the balances of the parts. */
  lemma {:induction false} AccountBalanceAppend(s: seq<LedgerEntry>, t: seq<LedgerEntry>, account: LedgerAccount)
    ensures AccountBalance(s + t, account) == AccountBalance(s, account) + AccountBalance(t, account)
    decreases |t|
  {
    if |t| == 0 {
      assert s + t == s;
    } else {
      var t' := t[..|t| - 1];
      assert (s + t)[..|s + t| - 1] == s + t';
      AccountBalanceAppend(s, t', account);
    }
  }

  /** The net balance of a concatenation is the sum of the net balances of the parts. */
  lemma {:induction false} NetBalanceAppend(s: seq<LedgerEntry>, t: seq<LedgerEntry>)
    ensures NetBalance(s + t) == NetBalance(s) + NetBalance(t)
    decreases |t|
  {
    if |t| == 0 {
      assert s + t == s;
    } else {
      var t' := t[..|t| - 1];
      assert (s + t)[..|s + t| - 1] == s + t';
      NetBalanceAppend(s, t');
    }
  }

  /** The balances of a two-entry ledger, spelled out. */
  lemma PairBalances(a: LedgerEntry, b: LedgerEntry, account: LedgerAccount)
    ensures AccountBalance([a, b], account)
         == (if a.account == account then a.Net() else 0) + (if b.account == account then b.Net() else 0)
    ensures NetBalance([a, b]) == a.Net() + b.Net()
  {
    assert [a, b][..1] == [a];
    assert [a][..0] == [];
    assert AccountBalance([a], account) == (if a.account == account then a.Net() else 0);
    assert NetBalance([a]) == a.Net();
  }

  /** The three accounts partition the ledger: their balances add up to the net balance. */
  lemma {:induction false} AccountsPartitionNetBalance(entries: seq<LedgerEntry>)
    ensures AccountBalance(entries, Customer) + AccountBalance(entries, Clearing) + AccountBalance(entries, Merchant)
         == NetBalance(entries)
    decreases |entries|
  {
    if |entries| > 0 {
      AccountsPartitionNetBalance(entries[..|entries| - 1]);
    }
  }

  /** With only debits on the customer account its balance is never positive, and it is zero
      exactly when there is no customer entry at all. */
  lemma {:induction false} CustomerBalanceSign(entries: seq<LedgerEntry>)
    requires CustomerEntriesAreDebits(entries)
    ensures AccountBalance(entries, Customer) <= 0
    ensures AccountBalance(entries, Customer) == 0 <==> !HasCustomerEntry(entries)
    decreases |entries|
  {
    if |entries| > 0 {
      var prefix := entries[..|entries| - 1];
      assert CustomerEntriesAreDebits(prefix) by {
        forall i | 0 <= i < |prefix| && prefix[i].account == Customer
          ensures prefix[i].Net() < 0
        {
          assert prefix[i] == entries[i];
        }
      }
      CustomerBalanceSign(prefix);
      if HasCustomerEntry(prefix) {
        var i :| 0 <= i < |prefix| && prefix[i].account == Customer;
        assert entries[i] == prefix[i];
      }
      if HasCustomerEntry(entries) && !HasCustomerEntry(prefix) {
        assert forall j :: 0 <= j < |prefix| ==> entries[j].account != Customer by {
          forall j | 0 <= j < |prefix| ensures entries[j].account != Customer {
            assert prefix[j] == entries[j];
          }
        }
        var i :| 0 <= i < |entries| && entries[i].account == Customer;
        assert i == |entries| - 1;
      }
    }
  }

  /** As written, IsLedgerBalanced holds for a ledger that nets to zero and debits the customer,
      and whose customer balance stays above int.MinValue, exactly when the customer account has
      never been touched: once funds are reserved the check is false. */
  lemma IsLedgerBalancedMeansNoCustomerEntry(entries: seq<LedgerEntry>)
    requires NetBalance(entries) == 0 && CustomerEntriesAreDebits(entries)
    ensures AccountBalance(entries, Customer) > Int32Min ==> (IsLedgerBalanced(entries) <==> !HasCustomerEntry(entries))
  {
    CustomerBalanceSign(entries);
  }

  /** The intended check agrees with the double-entry invariant on every ledger. */
  lemma IntendedCheckIsNetBalance(entries: seq<LedgerEntry>)
    ensures IsLedgerBalancedIntended(entries) <==> NetBalance(entries) == 0
  {
    AccountsPartitionNetBalance(entries);
  }
}
