/** The account record of the bank service and the partial-update merge.
    Balances are whole cents (`int`), so deposits and withdrawals are exact. */
module Accounts {

  datatype Option<T> = None | Some(value: T) {
    /** The value when present, otherwise `default`. */
    function GetOr(default: T): T {
      match this
      case Some(v) => v
      case None => default
    }
  }

  /** One account, as stored in the service's list. */
  datatype Bank = Bank(
    name: string,
    address: string,
    accountNumber: int,
    balance: int,
    isActive: bool,
    typeOfAccount: string)

  /** The body of a partial update: each field may be absent (`None`).
      `accountNumber` is carried but never applied by the merge. */
  datatype BankPatch = BankPatch(
    name: Option<string>,
    address: Option<string>,
    accountNumber: Option<int>,
    balance: Option<int>,
    isActive: Option<bool>,
    typeOfAccount: Option<string>)

  /** The patch that a full `Bank` body yields: every field present. */
  function FromBank(b: Bank): (p: BankPatch) {
    BankPatch(Some(b.name), Some(b.address), Some(b.accountNumber),
              Some(b.balance), Some(b.isActive), Some(b.typeOfAccount))
  }

  /** The patch with no field present. */
  const EmptyPatch: BankPatch := BankPatch(None, None, None, None, None, None)

  /** Applies a patch field by field, in the order the handler checks them:
      a present field overwrites, an absent one keeps the stored value,
      and the account number is left alone whatever the patch says. */
  function Merge(b: Bank, p: BankPatch): (r: Bank)
    ensures r.accountNumber == b.accountNumber
    ensures r.name == p.name.GetOr(b.name)
    ensures r.address == p.address.GetOr(b.address)
    ensures r.balance == p.balance.GetOr(b.balance)
    ensures r.isActive == p.isActive.GetOr(b.isActive)
    ensures r.typeOfAccount == p.typeOfAccount.GetOr(b.typeOfAccount)
  {
    var b1 := if p.name.Some? then b.(name := p.name.value) else b;
    var b2 := if p.address.Some? then b1.(address := p.address.value) else b1;
    var b3 := if p.balance.Some? then b2.(balance := p.balance.value) else b2;
    var b4 := if p.isActive.Some? then b3.(isActive := p.isActive.value) else b3;
    if p.typeOfAccount.Some? then b4.(typeOfAccount := p.typeOfAccount.value) else b4
  }

  /** A patch with nothing present changes nothing. */
  lemma MergeEmpty(b: Bank)
    ensures Merge(b, EmptyPatch) == b
  {}

  /** Applying the same patch twice is the same as applying it once. */
  lemma MergeIdempotent(b: Bank, p: BankPatch)
    ensures Merge(Merge(b, p), p) == Merge(b, p)
  {}

  /** A full record as patch replaces every field except the account number. */
  lemma MergeFull(b: Bank, c: Bank)
    ensures Merge(b, FromBank(c)) == c.(accountNumber := b.accountNumber)
  {}

  /** A patch that carries only a balance changes the balance and nothing else. */
  lemma MergeBalanceOnly(b: Bank, x: int)
    ensures Merge(b, EmptyPatch.(balance := Some(x))) == b.(balance := x)
  {}
}
