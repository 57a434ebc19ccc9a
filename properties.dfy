/** Facts that relate several handlers: what a later lookup sees after a
    change, the deposit/withdraw round trip, create/delete as inverses,
    and the non-negative-balance invariant and where it breaks. */
module Properties {
  import opened Accounts
  import opened Table

  /** After a create, a lookup by the new record's account number finds it,
      unless an earlier entry already had that number. */
  lemma CreateThenGet(s: seq<Bank>, b: Bank)
    ensures Get(Create(s, b).banks, b.accountNumber) ==
            if HasAccount(s, b.accountNumber) then Get(s, b.accountNumber) else Ok(b)
  {
    var k := b.accountNumber;
    if HasAccount(s, k) {
      var i := FirstMatch(s, k).value;
      assert forall j :: 0 <= j < i ==> Create(s, b).banks[j] == s[j];
      FirstMatchUnique(Create(s, b).banks, k, i);
    } else {
      FirstMatchAfterPrefix(s, [b], k);
      assert FirstMatch([b], k) == Some(0);
    }
  }

  /** Deleting right after creating a new account number gives back the
      old list and the created record. */
  lemma CreateThenDelete(s: seq<Bank>, b: Bank)
    requires !HasAccount(s, b.accountNumber)
    ensures Delete(Create(s, b).banks, b.accountNumber) == Step(s, Ok(b))
  {
    var k := b.accountNumber;
    FirstMatchAfterPrefix(s, [b], k);
    assert FirstMatch([b], k) == Some(0);
    var t := Create(s, b).banks;
    assert FirstMatchAt(t, k, |s|);
    var d := Delete(t, k);
    assert d.banks == s;
  }

  /** After a delete, a lookup by the same number sees only what came after
      the removed entry; with unique account numbers it finds nothing. */
  lemma DeleteThenGet(s: seq<Bank>, k: int, i: int)
    requires FirstMatchAt(s, k, i)
    ensures Get(Delete(s, k).banks, k) == Get(s[i + 1..], k)
    ensures UniqueKeys(s) ==> Get(Delete(s, k).banks, k) == NotFound
  {
    var t := Delete(s, k).banks;
    assert t == s[..i] + s[i + 1..];
    assert !HasAccount(s[..i], k);
    FirstMatchAfterPrefix(s[..i], s[i + 1..], k);
  }

  /** A partial update never moves the key, so a lookup right after it
      answers the updated record. */
  lemma UpdatePartialThenGet(s: seq<Bank>, k: int, p: BankPatch)
    ensures Get(UpdatePartial(s, k, p).banks, k) == UpdatePartial(s, k, p).result
  {
    if HasAccount(s, k) {
      var i := FirstMatch(s, k).value;
      FirstMatchKept(s, UpdatePartial(s, k, p).banks, k, i);
    }
  }

  /** A full update that keeps the key is seen by the next lookup. */
  lemma UpdateThenGet(s: seq<Bank>, k: int, b: Bank)
    requires HasAccount(s, k) && b.accountNumber == k
    ensures Get(Update(s, k, b).banks, k) == Ok(b)
  {
    var i := FirstMatch(s, k).value;
    FirstMatchKept(s, Update(s, k, b).banks, k, i);
  }

  /** A partial update whose body is a full record acts as a full update
      that keeps the stored account number. */
  lemma UpdatePartialFullIsUpdate(s: seq<Bank>, k: int, c: Bank)
    ensures UpdatePartial(s, k, FromBank(c)) == Update(s, k, c.(accountNumber := k))
  {
    if HasAccount(s, k) {
      var i := FirstMatch(s, k).value;
      MergeFull(s[i], c);
      assert UpdatePartial(s, k, FromBank(c)).banks == Update(s, k, c.(accountNumber := k)).banks;
    }
  }

  /** Depositing `a` and then withdrawing `a` restores the list when the
      account's balance was non-negative. */
  lemma DepositThenWithdraw(s: seq<Bank>, k: int, a: int, i: int)
    requires FirstMatchAt(s, k, i) && s[i].balance >= 0
    ensures Withdraw(Deposit(s, k, a).banks, k, a) == Step(s, Ok(s[i]))
  {
    var d := Deposit(s, k, a).banks;
    assert OnlyChanged(s, d, i) && d[i] == s[i].(balance := s[i].balance + a);
    assert FirstMatchAt(d, k, i) by { FirstMatchKept(s, d, k, i); }
    var w := Withdraw(d, k, a);
    assert d[i].balance >= a;
    assert OnlyChanged(d, w.banks, i) && w.banks[i] == s[i];
    assert w.banks == s by {
      forall j | 0 <= j < |s| ensures w.banks[j] == s[j] {
        if j != i { assert w.banks[j] == d[j]; }
      }
    }
  }

  /** On a negative balance the same round trip is refused, whatever `a`. */
  lemma DepositThenWithdrawNegative(s: seq<Bank>, k: int, a: int, i: int)
    requires FirstMatchAt(s, k, i) && s[i].balance < 0
    ensures Withdraw(Deposit(s, k, a).banks, k, a) ==
            Step(Deposit(s, k, a).banks, InsufficientFunds)
  {
    var d := Deposit(s, k, a).banks;
    FirstMatchKept(s, d, k, i);
    assert d[i].balance < a;
  }

  /** Withdrawal keeps every balance non-negative. */
  lemma WithdrawKeepsNonNegative(s: seq<Bank>, k: int, a: int)
    requires AllNonNegative(s)
    ensures AllNonNegative(Withdraw(s, k, a).banks)
  {
    var w := Withdraw(s, k, a);
    if w.result.Ok? {
      var i := FirstMatch(s, k).value;
      forall j | 0 <= j < |w.banks| ensures w.banks[j].balance >= 0 {
        if j != i { assert w.banks[j] == s[j]; }
      }
    }
  }

  /** Deposits of a non-negative amount keep every balance non-negative. */
  lemma DepositKeepsNonNegative(s: seq<Bank>, k: int, a: int)
    requires AllNonNegative(s) && a >= 0
    ensures AllNonNegative(Deposit(s, k, a).banks)
  {
    var d := Deposit(s, k, a);
    if d.result.Ok? {
      var i := FirstMatch(s, k).value;
      forall j | 0 <= j < |d.banks| ensures d.banks[j].balance >= 0 {
        if j != i { assert d.banks[j] == s[j]; }
      }
    }
  }

  /** The deposit handler does not check the amount's sign, so a negative
      deposit takes an account below zero without the withdrawal check. */
  lemma NegativeDepositOverdraws()
    ensures AllNonNegative(Seed())
    ensures !AllNonNegative(Deposit(Seed(), 123456789, -100001).banks)
  {
    assert FirstMatchAt(Seed(), 123456789, 0);
    assert Deposit(Seed(), 123456789, -100001).banks[0].balance == -1;
  }

  /** The deposit and withdrawal scenario on the seeded account, and a
      lookup of a number that was never created. */
  lemma SeedScenario()
    ensures
      var d := Deposit(Seed(), 123456789, 50000);
      var w1 := Withdraw(d.banks, 123456789, 200000);
      var w2 := Withdraw(w1.banks, 123456789, 150000);
      d.result.Ok? && d.result.bank.balance == 150000 &&
      w1.result == InsufficientFunds && w1.banks[0].balance == 150000 &&
      w2.result.Ok? && w2.result.bank.balance == 0
    ensures Get(Seed(), 111111) == NotFound
  {
    var s := Seed();
    assert FirstMatchAt(s, 123456789, 0);
    var d := Deposit(s, 123456789, 50000);
    assert FirstMatchAt(d.banks, 123456789, 0);
    var w1 := Withdraw(d.banks, 123456789, 200000);
    assert w1.banks == d.banks;
    assert !HasAccount(s, 111111) by {
      assert forall j :: 0 <= j < |s| ==> s[j].accountNumber != 111111;
    }
  }
}
