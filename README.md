# Bank account store — a Dafny model

This project models the in-memory account store of a small HTTP bank
service. The service keeps one module-level list of `Bank` records. Each
record has a name, an address, an account number, a balance, an active
flag and an account type. Eight request handlers read or change that list:
- list all accounts;
- create an account, by appending it;
- look up an account;
- apply a partial update;
- replace an account;
- delete an account;
- deposit;
- withdraw.

Every keyed handler scans the list from the front and acts on the **first**
entry whose account number matches. Nothing makes account numbers unique.
There are two error outcomes:
- `NotFound`: no entry has the number;
- `InsufficientFunds`: a withdrawal asks for more than the balance.

Layout:

- `accounts.dfy` (module `Accounts`) holds three things:
  - the `Bank` record;
  - the partial-update body `BankPatch`, where every field is an `Option`;
  - `Merge`, which writes only the fields that are present and never the account number.
- `table.dfy` (module `Table`) treats the list as a value. It holds:
  - `FirstMatch`, the index of the first entry with a given number;
  - `Get`, the answer of a lookup, which leaves the list alone;
  - one function per handler that changes the list (`Create`, `UpdatePartial`, `Update`, `Delete`, `Deposit`, `Withdraw`), returning the new list together with the handler's `Result`;
  - `Seed`, the initial list;
  - no function for listing all accounts, which answers the list itself.
- `store.dfy` (module `App`) holds the class `BankStore`:
  - its field `banks: seq<Bank>` is the service's list;
  - it has one method per handler;
  - each keyed handler calls `Find`, the loop that scans for the first match;
  - every changing method is proved to leave the list and its answer exactly as the matching `Table` function says.
- `properties.dfy` (module `Properties`) holds facts that connect several handlers:
  - lookup after create, patch, replace or delete;
  - create followed by delete;
  - deposit followed by withdraw;
  - the non-negative-balance invariant;
  - the seeded scenario.

Balances and amounts are whole cents (`int`), so the seed balances
1000.0 and 2500.5 become 100000 and 250050.

## Model

| member | source | states |
|---|---|---|
| `Accounts.Merge` | app.py:57-66 | each field present in the patch overwrites the stored one and each absent field keeps its stored value; the account number is never changed |
| `Accounts.MergeEmpty` | app.py:57-66 | a patch with no field present leaves the record as it was |
| `Accounts.MergeIdempotent` | app.py:57-66 | applying the same patch twice equals applying it once |
| `Accounts.MergeFull` | app.py:54-66 | a full `Bank` body replaces every field except the account number |
| `Accounts.MergeBalanceOnly` | app.py:61-62 | a patch that carries only a balance changes the balance and leaves every other field identical |
| `Table.FirstMatch` | app.py:55-56 | the result is the index of an entry with the number such that no earlier entry has it; it is None exactly when no entry has the number |
| `Table.Get` | app.py:103-108 | NotFound exactly when no entry matches; otherwise the entry at the lowest matching index; never InsufficientFunds |
| `Table.UpdatePartial` | app.py:53-68 | NotFound exactly when no entry matches, and then the list is unchanged; otherwise only the first match changes, to the merge of old record and patch, the length and all other entries stay, and the updated record is answered |
| `Table.Update` | app.py:70-76 | NotFound exactly when no entry matches, and then the list is unchanged; otherwise the first match is replaced by the new record, whose account number may differ, with all other indices and the length kept and the new record answered |
| `Table.Delete` | app.py:78-83 | NotFound exactly when no entry matches, and then the list is unchanged; otherwise the first match is removed and answered, the length drops by one, entries before it keep their index and entries after it move down by one in order |
| `Table.Deposit` | app.py:85-91 | NotFound exactly when no entry matches, and then the list is unchanged; otherwise the first match's balance becomes old + amount for any sign of amount, with every other field and entry kept |
| `Table.Withdraw` | app.py:93-101 | NotFound exactly when no entry matches; InsufficientFunds exactly when the first match's balance is below the amount; both leave the list unchanged; otherwise the balance becomes old - amount, which is non-negative, with all else kept |
| `Table.Create` | app.py:48-51 | the new list is one longer, keeps every earlier entry at its index, ends with the given record, and the answer is that record unchanged |
| `Table.Seed` | app.py:17-34 | the initial list holds two accounts with distinct account numbers and non-negative balances |
| `App.BankStore.constructor` | app.py:17-34 | the store starts with the two seeded accounts |
| `App.BankStore.GetBanks` | app.py:44-46 | answers the whole list in insertion order and changes nothing |
| `App.BankStore.Find` | app.py:55-56 | the scan loop stops at the first entry with the number, or reports that there is none |
| `App.BankStore.GetBank` | app.py:103-108 | answers `Table.Get` of the current list and changes nothing |
| `App.BankStore.CreateBank` | app.py:48-51 | the new list and the answer are exactly those of `Table.Create` on the old list |
| `App.BankStore.UpdateBankPartial` | app.py:53-68 | the new list and the answer are exactly those of `Table.UpdatePartial` on the old list |
| `App.BankStore.UpdateBank` | app.py:70-76 | the new list and the answer are exactly those of `Table.Update` on the old list |
| `App.BankStore.DeleteBank` | app.py:78-83 | the new list and the answer are exactly those of `Table.Delete` on the old list |
| `App.BankStore.DepositTo` | app.py:85-91 | the new list and the answer are exactly those of `Table.Deposit` on the old list |
| `App.BankStore.WithdrawFrom` | app.py:93-101 | the new list and the answer are exactly those of `Table.Withdraw` on the old list |
| `Properties.CreateThenGet` | app.py:48-51 | after a create, a lookup by the new number answers the created record, unless an earlier entry already had that number, in which case it answers that entry |
| `Properties.CreateThenDelete` | app.py:78-83 | if the number is new, delete after create gives back the old list and the created record |
| `Properties.DeleteThenGet` | app.py:78-83 | after a delete, a lookup by the same number sees only the entries after the removed one; with unique numbers it yields NotFound |
| `Properties.UpdatePartialThenGet` | app.py:53-68 | a lookup right after a partial update answers what the partial update answered |
| `Properties.UpdateThenGet` | app.py:70-76 | after a replacement that keeps the number, a lookup answers the new record |
| `Properties.UpdatePartialFullIsUpdate` | app.py:54-66 | a partial update with a full record as body equals a replacement by that record carrying the stored account number |
| `Properties.DepositThenWithdraw` | app.py:85-101 | deposit a then withdraw a on a non-negative balance restores the original list and answers the original record |
| `Properties.DepositThenWithdrawNegative` | app.py:93-100 | on a negative balance, the withdrawal in that round trip is refused and leaves the deposited list |
| `Properties.WithdrawKeepsNonNegative` | app.py:97-100 | if every balance is non-negative, it stays so after a withdrawal |
| `Properties.DepositKeepsNonNegative` | app.py:85-90 | if every balance is non-negative, it stays so after a deposit of a non-negative amount |
| `Properties.NegativeDepositOverdraws` | app.py:86-89 | the seeded list has no negative balance, but a negative deposit makes one |
| `Properties.SeedScenario` | app.py:17-34 | on the seeded account: deposit 500.00 gives 1500.00; withdraw 2000.00 is refused and the balance stays 1500.00; withdraw 1500.00 gives 0; looking up 111111 gives NotFound |

## Left out

- The web framework is not modelled. That covers the app object, the route decorators, response models, and the mapping of NotFound to HTTP 404 and InsufficientFunds to 400. Only the abstract outcomes remain.
- The cross-origin middleware settings are not modelled (app.py:36-42). They are transport configuration.
- Request-body and query-parameter parsing and validation are not modelled. They belong to a foreign library. Handlers take already-typed values.
- Floating-point balances and amounts are not modelled (rounding, NaN, infinities). Balances and amounts are exact integers (cents).
- Concurrency is not modelled. Handlers run one at a time, as the single shared list without locking assumes.
- Object identity is not modelled. In the source the list holds references, and a handler answers the very object it changed or stored. Here records are values, so aliasing between an answered record and the stored one is not modelled. The content is the same at the moment of the answer.
- `Accounts.Merge` takes each patch field as optional. The source's body type requires every field, so in practice every field is present. `Accounts.FromBank` and `Properties.UpdatePartialFullIsUpdate` cover that case.
- The user store, the "set balance" handler and the lookup by e-mail are not part of this model. `app.py` has none of them.
