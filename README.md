# Shared-expense balances API, modelled in Dafny

The system is a small PHP web API whose script sets up two pieces of state:

- the list of groups, seeded with three groups of three members each and never changed;
- the ledger `$expenses`, which starts empty.

The script runs from its first line on every request, so in a plain PHP process `$expenses` is empty again for each request. The model follows what the handlers do to these arrays within a request. The `Ledger` class also keeps the ledger from one handler call to the next, which holds only where the runtime keeps the script's globals alive between requests (see "Left out").

Two handlers add to the ledger. POST /expense records an expense. POST /payment records a payment. Both first validate the request, then append one entry `{group_id, paid_by, amount}` at the end.

GET /group/{group_id}/balances finds the group; for a group with no members it answers 200 with a "no members" message. Otherwise it builds a keyed, insertion-ordered array of balances:

1. every member is set to 0;
2. each entry of the group takes its full amount off the payer;
3. it adds `amount / n` to every member other than the payer, where `n` is the member count;
4. it lists the array as `{member_id, member_name, balance}` rows, in key order.

The model has seven modules.

- `Domain` holds the entities: members, groups, ledger entries, report rows and handler outcomes. A missing or zero request field is PHP's falsy value; here it is `None` or `Some(0)`.
- `GroupStore` holds the seeded groups and the lookup loop `FindGroupById`. The loop is proved against `FirstGroup`.
- `Settlement` specifies the balance handler by recursive functions over prefixes, one step per loop iteration.
  - PHP's ordered array is a `Tally`: the key order plus a map.
  - The looping methods `ZeroMembers`, `CreditOthers`, `ReplayLedger`, `ListRows` and `ComputeBalances` are proved equal to those functions.
- `SettlementFacts` proves what the balances are:
  - the per-entry update;
  - the closed form `Owed` of every balance;
  - the layout of the report;
  - that the order of the ledger does not matter.
- `SettlementTotals` proves what the balances add up to, which is not zero.
- `Api` is the `Ledger` class. It holds the groups and the growing ledger, and its methods are the three handlers.
- `Scenarios` works through concrete ledgers of the seeded Group 1.

Amounts are exact reals and ids are integers.

## Behaviour of the code worth knowing

- **The payer gets no share back.** The inner loop skips the payer. So 90 paid by one of three members gives −90, 30, 30, not −60, 30, 30 (`Scenarios.AliyaPaysNinety`).
- **The balances do not sum to zero.** Each entry of the group whose payer is a member lowers the sum by `amount / n`. The sum of a report is `Drift`, proved in `SettlementTotals.ReportTotal` and `SettlementTotals.DriftOfUnique`.
- **Negative amounts are accepted.** The only check on an amount is that it is present and non-zero.
- **Payments skip the membership check.** A payment is appended under `from_member` without checking that this member belongs to the group, and `to_member` is checked for presence and then dropped.
  - A payer who is not a member therefore gets a row of their own after the members, with no name (`Scenarios.OutsiderPays`).
  - That payer is charged the whole amount, while every member gains a share. The report's sum is then unchanged.
- **Member names come from `array_column`.** `array_column(..., 'name', 'id')` keeps the last member with a given id, so `NameOf` searches from the end.

## Model

| member | source | states |
|---|---|---|
| GroupStore.FindGroupById | index.php:47-54 | returns the first group whose id matches, or None exactly when no group matches; the list is a value and is not changed |
| GroupStore.FirstIndex | index.php:48-52 | the position of the first match: every earlier group has another id, and the group at that position carries the id |
| GroupStore.SeedLookup | index.php:14-42 | the seeded list answers ids 1, 2 and 3 with groups 1, 2 and 3 and nothing else; each seeded group has three members with distinct ids |
| GroupStore.SeedGroups | index.php:14-42 | the three seeded groups; SeedLookup states what the lookup finds in them |
| GroupStore.FirstGroup | index.php:47-54 | the group the lookup returns; FindGroupById, proved equal to it, states that it is the first match or none |
| GroupStore.IsMember | index.php:151 | `in_array($paid_by, array_column(..., 'id'))`; IsMemberIndex states its meaning |
| GroupStore.IsMemberIndex | index.php:151 | `in_array` over the member ids: an id is a member exactly when some member carries it |
| Domain.Given | index.php:112-117 | PHP's `!$x` on a field read with `?? null`: a field passes exactly when it is present and not the zero of its type; FalsyFields states the cases |
| Domain.GivenId | index.php:138-142 | the falsy test on an id field: absent or 0 is missing |
| Domain.GivenAmount | index.php:114-117 | the falsy test on an amount: absent or 0 is missing, and any other amount passes, negative ones included |
| Api.FalsyFields | index.php:112-117 | an absent field and a zero field are both refused as missing in both handlers, while a negative amount is recorded |
| Domain.StatusCode | index.php:117-161 | a recording outcome answers 201 exactly when it is recorded, 404 exactly when the group is unknown, and 400 exactly when a field is missing or the payer is not a member |
| Domain.BalanceCode | index.php:73-106 | the balance query answers 404 exactly when the group is not found, and 200 exactly otherwise, for both the no-members message and the report |
| Settlement.ComputeBalances | index.php:69-107 | the handler's answer is GroupBalances: not found, no members, or the rows listed from the replayed tally |
| Settlement.ZeroMembers | index.php:83-86 | the loop that zeroes each member builds the tally Zeroed(members) |
| Settlement.Zeroed | index.php:83-86 | after the zeroing step, the keys are exactly the member ids and each is 0 |
| Settlement.CreditOthers | index.php:92-96 | the inner loop builds Credit: every member other than the payer gains the share |
| Settlement.ReplayLedger | index.php:83-98 | zeroing, then the outer loop over the whole ledger, builds Replay(members, groupId, entries) |
| Settlement.ListRows | index.php:100-104 | the report loop builds Rows, one row per key in key order |
| Settlement.Get | index.php:91-94 | reading `$balances[$k]`, where a missing key reads as 0; ChargeAt and ApplyAt state the balances it reads |
| Settlement.Assign | index.php:85-94 | `$balances[$k] = $v`, which overwrites a key or appends it at the end; AssignWellFormed and AssignPrefix state that keys stay distinct and are only appended |
| Settlement.Credit | index.php:92-96 | the inner loop's effect; CreditAt states each key's new balance, CreditKeys which keys it adds |
| Settlement.Charge | index.php:90-96 | one visit of an entry of the group, debit then credits; ChargeAt, ChargeKeys and ChargeWellFormed state its effect |
| Settlement.Apply | index.php:89-97 | one iteration of the outer loop; ApplyAt, ApplyKeys and ApplyWellFormed state its effect |
| Settlement.Replay | index.php:83-98 | the tally after the outer loop; ReplayAt states every balance and ReplayKeys every key |
| Settlement.GroupBalances | index.php:69-107 | the answer of the balance query; BalanceOutcomes, ReportLayout and ReportTotal state what it is |
| Settlement.Rows | index.php:100-104 | row `i` is key `i` of the tally, with its name lookup and its balance, and there is one row per key |
| Settlement.NameOf | index.php:102 | a name is found exactly when the id is a member id |
| SettlementFacts.BalanceOutcomes | index.php:73-81 | the answer is not found exactly when no group carries the id; it is no members exactly when the group found has none |
| SettlementFacts.ZeroedWellFormed | index.php:83-86 | the zeroed tally lists each key once, and its keys and order agree |
| SettlementFacts.ZeroedOrder | index.php:83-86 | with distinct member ids, the zeroed keys are the member ids in member order |
| SettlementFacts.ApplyAt | index.php:88-98 | an entry of another group leaves the tally unchanged; an entry of the group takes its amount off the payer and adds `amount / n` to every other key once per time that key is listed among the members |
| SettlementFacts.ApplyToUniqueMembers | index.php:88-98 | with distinct member ids: the payer loses the amount, every other member gains `amount / n`, and every other key is unchanged |
| SettlementFacts.ContributionOfUnique | index.php:90-96 | with distinct member ids, an entry contributes −amount to its payer, `amount / n` to every other member and 0 to anybody else |
| SettlementFacts.ApplyKeys | index.php:91-94 | an entry of the group adds exactly its payer and the members to the keys; an entry of another group adds none |
| SettlementFacts.ApplyWellFormed | index.php:91-94 | an entry keeps the tally's keys distinct and in agreement with its map |
| SettlementFacts.ChargeAt | index.php:90-96 | one visit of a matching entry moves the payer down by the amount and every other key up by its shares |
| SettlementFacts.ReplayAt | index.php:83-98 | at the end, every key's balance is Owed, the sum over the group's entries of what each one contributes to that key |
| SettlementFacts.ReplayKeys | index.php:83-98 | the final keys are exactly the members and the payers of the group's entries |
| SettlementFacts.ReplayPrefix | index.php:83-98 | keys are only ever appended, so the member keys come first |
| SettlementFacts.ReplayWellFormed | index.php:83-98 | the final tally lists each key once |
| SettlementFacts.OwedPermutation | index.php:88-98 | the closed-form balance of a key is the same for any permutation of the ledger |
| SettlementFacts.ReplayPermutation | index.php:88-98 | replaying a permutation of the ledger gives the same balance map |
| SettlementFacts.MemberRows | index.php:83-86 | with distinct member ids, key `i` of the final tally is member `i`, whose name is found |
| SettlementFacts.PayerRows | index.php:91 | with distinct member ids, every key after the members is a payer of the group who is not a member |
| SettlementFacts.ReportLayout | index.php:100-104 | with distinct member ids, the report opens with one named row per member in member order; after them come the non-member payers, unnamed and each once, and every non-member payer of the group has such a row; every balance is its closed form |
| SettlementFacts.OutsiderKeys | index.php:91 | with distinct member ids, every payer of the group who is not a member has a key after the members |
| SettlementFacts.OutsiderRows | index.php:91-104 | with distinct member ids, every payer of the group who is not a member gets an unnamed row after the member rows |
| SettlementFacts.SameRows | index.php:100-104 | two tallies with the same balances list the same set of rows, whatever the order of their keys |
| SettlementFacts.ReportPermutation | index.php:88-104 | permuting the ledger keeps the same set of rows; with distinct member ids the member rows stay in place |
| SettlementTotals.ZeroedTotal | index.php:83-86 | the balances add up to 0 after the zeroing step |
| SettlementTotals.CreditTotal | index.php:92-96 | the inner loop raises the sum by one share per listed member other than the payer |
| SettlementTotals.ApplyTotal | index.php:90-95 | an entry of the group lowers the sum of all balances by one share per time its payer is listed among the members; an entry of another group leaves it unchanged |
| SettlementTotals.EntryShiftsTotal | index.php:90-95 | with distinct member ids, an entry paid by a member lowers the sum by exactly `amount / n`; an entry paid by anyone else leaves the sum unchanged |
| SettlementTotals.ReplayTotal | index.php:83-98 | the final balances add up to Drift, not to 0 |
| SettlementTotals.ReportTotal | index.php:88-104 | the balances of the report add up to Drift |
| SettlementTotals.DriftOfUnique | index.php:90-95 | with distinct member ids, Drift is minus one share for each entry of the group paid by a member |
| Api.ExpenseOutcome | index.php:142-153 | 400 exactly when a field is missing or zero; 404 exactly when the fields are given and the group is unknown; 400 for a payer who is not a member; recorded exactly when all checks pass |
| Api.PaymentOutcome | index.php:117-124 | 400 exactly when one of the four fields is missing or zero; 404 exactly when they are given and the group is unknown; otherwise recorded, and never refused for membership |
| Api.PaymentAcceptsWhatExpenseAccepts | index.php:117-124 | a payment goes through wherever the same expense would; the two handlers agree on when the group is unknown |
| Api.Ledger.constructor | index.php:14-44 | starts with the seeded groups and an empty ledger |
| Api.Ledger.RecordExpense | index.php:136-162 | answers ExpenseOutcome; on success it appends exactly `{group_id, paid_by, amount}` at the end, otherwise the ledger is unchanged; the invariant that every entry has a non-zero amount, non-zero ids and an existing group is kept, although no other contract depends on it |
| Api.Ledger.RecordPayment | index.php:110-133 | answers PaymentOutcome; on success it appends `{group_id, from_member, amount}` at the end and drops `to_member`, otherwise the ledger is unchanged |
| Api.Ledger.Balances | index.php:69-107 | the balance query over the current ledger is GroupBalances |
| Scenarios.GroupOneMembers | index.php:15-23 | Group 1 has the three distinct member ids 1, 2 and 3 |
| Scenarios.GroupOneContribution | index.php:90-96 | in Group 1 an entry contributes −amount to its payer and `amount / 3` to each other member |
| Scenarios.GroupOneReport | index.php:100-104 | when all payers are members, Group 1's report is the three named rows Aliya, Buhan, Cheeti with their closed-form balances |
| Scenarios.GroupOneOrderWith | index.php:91 | when one payer `x` is not a member, the keys are 1, 2, 3, then `x` |
| Scenarios.GroupOneReportWith | index.php:100-104 | when one payer `x` is not a member, the report has a fourth row for `x` with no name |
| Scenarios.AliyaPaysNinety | index.php:90-95 | 90 paid by Aliya gives −90, 30, 30, and the report sums to −30 |
| Scenarios.BuhanLedgerOwed | index.php:88-98 | after 90 by Aliya, an entry of Group 2 and 30 by Buhan, the closed-form balances are −80, 0, 40 |
| Scenarios.BuhanPaysThirty | index.php:88-104 | the same ledger reports −80, 0, 40; the entry of Group 2 is ignored |
| Scenarios.OutsiderPays | index.php:91-104 | 30 in Group 1, paid by Harh of Group 3, gives 10, 10, 10 and an unnamed row −30 for Harh |
| Scenarios.NoGroupFour | index.php:73-75 | the balance query for group 4 is not found |

## Left out

- PHP's warning on an undefined array key is left out. When the payer has no key yet, `$balances[$expense['paid_by']] -= ...` (index.php:91) first emits "Undefined array key" ("Undefined index" in PHP 7) and then creates the key. `Settlement.Get` models only the read as 0, so the model does not emit the warning. The balances are the same either way.

- Slim plumbing is left out: creating the app, the middleware, routing, `withJson` encoding and `$app->run()` (index.php:2-11, 190-191). It is library code. Handler answers are the `Status` and `BalanceOutcome` datatypes, with their HTTP codes given by `StatusCode` and `BalanceCode`.
- The response bodies are left out. Only the outcome and the report rows are modelled, not the JSON text.
- The POST /group/{group_id}/balances and /group/{group_id}/due_payments endpoints are left out (index.php:165-188). They only check that a field is present and echo it, with no state.
- The GET /group/{group_id}/members endpoint is left out beyond the lookup it shares with the other handlers (index.php:57-66).
- Floating point is left out. Amounts are exact reals, so `amount / n` is exact and sums do not round. PHP's integer division into floats is not modelled either.
- PHP's loose typing is left out: the `(int)` casts on route parameters, string/number `==` in the lookup and in the group filter, and `in_array`'s loose comparison. Ids are integers, and request fields are `Option` values that are already typed.
- Falsy values other than a missing field or 0 are left out, such as `"0"`, `""`, `false` or an empty array.
- State surviving between requests is assumed, not modelled. `Api.Ledger` keeps `expenses` across calls of its methods, but plain PHP runs the script afresh for every request (index.php:44 resets `$expenses`). So in plain PHP an entry appended by POST /expense or POST /payment is never seen by a later GET /group/{group_id}/balances, and every balance comes back 0. The model matches only a runtime that keeps the script's globals alive between requests.
- Concurrency is left out. The model handles one request at a time.
- The reference loops in `findGroupById` are left out (`&$groups`, `foreach ... as &$group`). They change nothing, so the lookup takes the list by value.
