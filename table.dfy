/** The account list as a value, and what each handler does to it.
    Every keyed handler acts on the FIRST entry whose account number
    matches; nothing stops two entries from sharing one. */
module Table {
  import opened Accounts

  /** What a handler answers: the record, or one of the two errors. */
  datatype Result = Ok(bank: Bank) | NotFound | InsufficientFunds

  /** The list after a handler, with the handler's answer. */
  datatype Step = Step(banks: seq<Bank>, result: Result)

  /** Some entry has account number `k`. */
  predicate HasAccount(s: seq<Bank>, k: int) {
    exists i :: 0 <= i < |s| && s[i].accountNumber == k
  }

  /** Entry `i` is the first one with account number `k`. */
  predicate FirstMatchAt(s: seq<Bank>, k: int, i: int) {
    0 <= i < |s| && s[i].accountNumber == k &&
    forall j :: 0 <= j < i ==> s[j].accountNumber != k
  }

  /** No two entries share an account number. */
  predicate UniqueKeys(s: seq<Bank>) {
    forall i, j :: 0 <= i < j < |s| ==> s[i].accountNumber != s[j].accountNumber
  }

  /** Every balance is non-negative. */
  predicate AllNonNegative(s: seq<Bank>) {
    forall i :: 0 <= i < |s| ==> s[i].balance >= 0
  }

  /** Entries other than `i` are as they were, and the length too. */
  predicate OnlyChanged(s: seq<Bank>, t: seq<Bank>, i: int) {
    |t| == |s| && forall j :: 0 <= j < |s| && j != i ==> t[j] == s[j]
  }

  /** The index of the first entry with account number `k`, if any. */
  function FirstMatch(s: seq<Bank>, k: int): (r: Option<nat>)
    ensures r.Some? ==> FirstMatchAt(s, k, r.value)
    ensures r.None? <==> !HasAccount(s, k)
    decreases |s|
  {
    if s == [] then None
    else if s[0].accountNumber == k then Some(0)
    else match FirstMatch(s[1..], k)
      case None => None
      case Some(i) => Some(i + 1)
  }

  /** There is only one first match. */
  lemma FirstMatchUnique(s: seq<Bank>, k: int, i: int)
    requires FirstMatchAt(s, k, i)
    ensures FirstMatch(s, k) == Some(i)
  {
  }

  /** The entries before `|a|` do not match: the first match of `a + b` is
      that of `b`, shifted. */
  lemma {:induction false} FirstMatchAfterPrefix(a: seq<Bank>, b: seq<Bank>, k: int)
    requires !HasAccount(a, k)
    ensures FirstMatch(a + b, k) ==
            match FirstMatch(b, k) case None => None case Some(i) => Some(|a| + i)
  {
    match FirstMatch(b, k)
    case None =>
      forall j | 0 <= j < |a + b| ensures (a + b)[j].accountNumber != k {
        if j < |a| {
          assert (a + b)[j] == a[j];
        } else {
          assert (a + b)[j] == b[j - |a|];
        }
      }
    case Some(i) =>
      forall j | 0 <= j < |a| + i ensures (a + b)[j].accountNumber != k {
        if j < |a| {
          assert (a + b)[j] == a[j];
        } else {
          assert (a + b)[j] == b[j - |a|];
        }
      }
      assert FirstMatchAt(a + b, k, |a| + i);
      FirstMatchUnique(a + b, k, |a| + i);
  }

  /** Changing entry `i` but keeping its account number keeps the first match. */
  lemma FirstMatchKept(s: seq<Bank>, t: seq<Bank>, k: int, i: int)
    requires FirstMatchAt(s, k, i)
    requires OnlyChanged(s, t, i) && t[i].accountNumber == k
    ensures FirstMatch(t, k) == Some(i)
  {
    assert forall j :: 0 <= j < i ==> t[j] == s[j];
    FirstMatchUnique(t, k, i);
  }

  /** GET /banks/{account_number}: the first matching entry, or NotFound. */
  function Get(s: seq<Bank>, k: int): (r: Result)
    ensures r.NotFound? <==> !HasAccount(s, k)
    ensures !r.InsufficientFunds?
    ensures r.Ok? ==> exists i :: FirstMatchAt(s, k, i) && r.bank == s[i]
    ensures forall i :: FirstMatchAt(s, k, i) ==> r == Ok(s[i])
  {
    match FirstMatch(s, k)
    case None => NotFound
    case Some(i) => FirstMatchUnique(s, k, i); Ok(s[i])
  }

  /** POST /banks: append `b` at the end and answer it unchanged. */
  function Create(s: seq<Bank>, b: Bank): (r: Step)
    ensures r.result == Ok(b)
    ensures |r.banks| == |s| + 1 && r.banks[|s|] == b
    ensures forall j :: 0 <= j < |s| ==> r.banks[j] == s[j]
  {
    Step(s + [b], Ok(b))
  }

  /** PATCH /banks/{account_number}: merge `p` into the first match. */
  function UpdatePartial(s: seq<Bank>, k: int, p: BankPatch): (r: Step)
    ensures r.result.NotFound? <==> !HasAccount(s, k)
    ensures r.result.NotFound? ==> r.banks == s
    ensures !r.result.InsufficientFunds?
    ensures forall i :: FirstMatchAt(s, k, i) ==>
      OnlyChanged(s, r.banks, i) && r.banks[i] == Merge(s[i], p) &&
      r.result == Ok(r.banks[i])
  {
    match FirstMatch(s, k)
    case None => Step(s, NotFound)
    case Some(i) =>
      FirstMatchUnique(s, k, i);
      var b := Merge(s[i], p);
      Step(s[i := b], Ok(b))
  }

  /** PUT /banks/{account_number}: put `b` in place of the first match;
      the stored account number becomes `b`'s. */
  function Update(s: seq<Bank>, k: int, b: Bank): (r: Step)
    ensures r.result.NotFound? <==> !HasAccount(s, k)
    ensures r.result.NotFound? ==> r.banks == s
    ensures !r.result.InsufficientFunds?
    ensures forall i :: FirstMatchAt(s, k, i) ==>
      OnlyChanged(s, r.banks, i) && r.banks[i] == b && r.result == Ok(b)
  {
    match FirstMatch(s, k)
    case None => Step(s, NotFound)
    case Some(i) => FirstMatchUnique(s, k, i); Step(s[i := b], Ok(b))
  }

  /** DELETE /banks/{account_number}: remove the first match, keeping the
      order of the rest, and answer the removed entry. */
  function Delete(s: seq<Bank>, k: int): (r: Step)
    ensures r.result.NotFound? <==> !HasAccount(s, k)
    ensures r.result.NotFound? ==> r.banks == s
    ensures !r.result.InsufficientFunds?
    ensures r.result.Ok? ==> |r.banks| == |s| - 1
    ensures forall i :: FirstMatchAt(s, k, i) ==>
      r.result == Ok(s[i]) &&
      (forall j :: 0 <= j < i ==> r.banks[j] == s[j]) &&
      (forall j :: i < j < |s| ==> r.banks[j - 1] == s[j])
  {
    match FirstMatch(s, k)
    case None => Step(s, NotFound)
    case Some(i) => FirstMatchUnique(s, k, i); Step(s[..i] + s[i + 1..], Ok(s[i]))
  }

  /** PUT /banks/{account_number}/deposit: add `amount` (of any sign) to the
      first match's balance. */
  function Deposit(s: seq<Bank>, k: int, amount: int): (r: Step)
    ensures r.result.NotFound? <==> !HasAccount(s, k)
    ensures r.result.NotFound? ==> r.banks == s
    ensures !r.result.InsufficientFunds?
    ensures forall i :: FirstMatchAt(s, k, i) ==>
      OnlyChanged(s, r.banks, i) &&
      r.banks[i] == s[i].(balance := s[i].balance + amount) &&
      r.result == Ok(r.banks[i])
  {
    match FirstMatch(s, k)
    case None => Step(s, NotFound)
    case Some(i) =>
      FirstMatchUnique(s, k, i);
      var b := s[i].(balance := s[i].balance + amount);
      Step(s[i := b], Ok(b))
  }

  /** PUT /banks/{account_number}/withdraw: refuse when the first match's
      balance is below `amount`, otherwise subtract `amount`. */
  function Withdraw(s: seq<Bank>, k: int, amount: int): (r: Step)
    ensures r.result.NotFound? <==> !HasAccount(s, k)
    ensures r.result.InsufficientFunds? <==>
      exists i :: FirstMatchAt(s, k, i) && s[i].balance < amount
    ensures !r.result.Ok? ==> r.banks == s
    ensures r.result.Ok? ==> r.result.bank.balance >= 0
    ensures forall i :: FirstMatchAt(s, k, i) && s[i].balance >= amount ==>
      OnlyChanged(s, r.banks, i) &&
      r.banks[i] == s[i].(balance := s[i].balance - amount) &&
      r.result == Ok(r.banks[i])
  {
    match FirstMatch(s, k)
    case None => Step(s, NotFound)
    case Some(i) =>
      FirstMatchUnique(s, k, i);
      if s[i].balance < amount then Step(s, InsufficientFunds)
      else
        var b := s[i].(balance := s[i].balance - amount);
        Step(s[i := b], Ok(b))
  }

  /** The two accounts the service starts with (balances in cents). */
  function Seed(): (r: seq<Bank>)
    ensures |r| == 2 && UniqueKeys(r) && AllNonNegative(r)
  {
    [ Bank("Bank of Example", "123 Example Street", 123456789, 100000, true, "savings"),
      Bank("Example National Bank", "456 Example Avenue", 987654321, 250050, true, "joint") ]
  }
}
