/** The service's in-memory account list and its request handlers.
    The list is one mutable object; each handler scans it for the first
    entry with the requested account number and then reads, changes,
    replaces or removes that entry. Handlers run one at a time. */
module App {
  import opened Accounts
  import opened Table

  class BankStore {
    /** The accounts, in insertion order. */
    var banks: seq<Bank>

    /** The store as the service starts: the two seeded accounts. */
    constructor ()
      ensures banks == Seed()
    {
      banks := Seed();
    }

    /** GET /banks: the whole list, unchanged. */
    method GetBanks() returns (r: seq<Bank>)
      ensures r == banks
    {
      r := banks;
    }

    /** The scan every keyed handler starts with: walk the list in order and
        stop at the first entry whose account number is `k`. */
    method Find(k: int) returns (r: Option<nat>)
      ensures r.Some? ==> FirstMatchAt(banks, k, r.value)
      ensures r.None? <==> !HasAccount(banks, k)
      ensures r == FirstMatch(banks, k)
    {
      var i := 0;
      while i < |banks|
        invariant 0 <= i <= |banks|
        invariant forall j :: 0 <= j < i ==> banks[j].accountNumber != k
      {
        if banks[i].accountNumber == k {
          FirstMatchUnique(banks, k, i);
          return Some(i);
        }
        i := i + 1;
      }
      return None;
    }

    /** GET /banks/{account_number}. */
    method GetBank(k: int) returns (r: Result)
      ensures r == Get(banks, k)
    {
      var found := Find(k);
      match found
      case None => r := NotFound;
      case Some(i) => r := Ok(banks[i]);
    }

    /** POST /banks: append the record and echo it back. */
    method CreateBank(b: Bank) returns (r: Bank)
      modifies this
      ensures Step(banks, Ok(r)) == Create(old(banks), b)
    {
      banks := banks + [b];
      r := b;
    }

    /** PATCH /banks/{account_number}: overwrite the fields the patch
        carries in the first match, and answer the changed record. */
    method UpdateBankPartial(k: int, p: BankPatch) returns (r: Result)
      modifies this
      ensures Step(banks, r) == UpdatePartial(old(banks), k, p)
    {
      var found := Find(k);
      match found
      case None => r := NotFound;
      case Some(i) =>
        var b := Merge(banks[i], p);
        assert UpdatePartial(banks, k, p) == Step(banks[i := b], Ok(b));
        banks := banks[i := b];
        r := Ok(b);
    }

    /** PUT /banks/{account_number}: store `b` in place of the first match
        and answer `b`. */
    method UpdateBank(k: int, b: Bank) returns (r: Result)
      modifies this
      ensures Step(banks, r) == Update(old(banks), k, b)
    {
      var found := Find(k);
      match found
      case None => r := NotFound;
      case Some(i) =>
        assert Update(banks, k, b) == Step(banks[i := b], Ok(b));
        banks := banks[i := b];
        r := Ok(b);
    }

    /** DELETE /banks/{account_number}: pop the first match and answer it. */
    method DeleteBank(k: int) returns (r: Result)
      modifies this
      ensures Step(banks, r) == Delete(old(banks), k)
    {
      var found := Find(k);
      match found
      case None => r := NotFound;
      case Some(i) =>
        assert Delete(banks, k) == Step(banks[..i] + banks[i + 1..], Ok(banks[i]));
        r := Ok(banks[i]);
        banks := banks[..i] + banks[i + 1..];
    }

    /** PUT /banks/{account_number}/deposit. */
    method DepositTo(k: int, amount: int) returns (r: Result)
      modifies this
      ensures Step(banks, r) == Deposit(old(banks), k, amount)
    {
      var found := Find(k);
      match found
      case None => r := NotFound;
      case Some(i) =>
        var b := banks[i].(balance := banks[i].balance + amount);
        assert Deposit(banks, k, amount) == Step(banks[i := b], Ok(b));
        banks := banks[i := b];
        r := Ok(b);
    }

    /** PUT /banks/{account_number}/withdraw. */
    method WithdrawFrom(k: int, amount: int) returns (r: Result)
      modifies this
      ensures Step(banks, r) == Withdraw(old(banks), k, amount)
    {
      var found := Find(k);
      match found
      case None => r := NotFound;
      case Some(i) =>
        if banks[i].balance < amount {
          assert Withdraw(banks, k, amount) == Step(banks, InsufficientFunds);
          r := InsufficientFunds;
        } else {
          var b := banks[i].(balance := banks[i].balance - amount);
          assert Withdraw(banks, k, amount) == Step(banks[i := b], Ok(b));
          banks := banks[i := b];
          r := Ok(b);
        }
    }
  }
}
