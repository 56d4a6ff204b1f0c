# nnsdao canister services in Dafny

This project models the three stateful services of the nnsdao canister (src/nnsdao/src):

- **Disbursement queue** (`DisburseService`, disburse.rs):
  - a wrapping `u128` deposit sub-account counter, encoded into a 32-byte sub-account;
  - a LIFO stack of pending disbursements drained under a single-flight boolean lock;
  - a LIFO stack of failed disbursements that are retried once.
- **Membership directory and proposal pre-check** (`DaoService`, dao.rs):
  - a map from principal to member record, with status 1 (joined) and -1 (quit);
  - the DAO info record;
  - the stake check and the proposer list of `initiate_proposal`;
  - the forwarding of votes to the proposal SDK.
- **Canister log** (`LoggerService`, logger.rs):
  - a fixed-capacity ring buffer driven by `next` and `full`;
  - the `get_log_messages` query, which filters, takes the first `count` entries and then sorts them newest first.

Modules:

- `Common`: `Result`, `Option`, the integer widths, `Principal`, `Subaccount`, and `Reverse` with its lemma `ReverseSnoc`.
- `Decimal`: decimal rendering of unsigned integers.
- `Subaccounts`: the counter and its 32-byte encoding.
- `Disburse`, `Dao`, `LogQuery` and `Logger`: the services.

Code that mutates state is a class with the source's fields, for example `Disburse.DisburseService`. Most of its methods are proved equal to a pure function on a value of its state (`DrainPending`, `JoinMember`, `Store`, …), and the properties the source promises are lemmas about those functions. `InitiateProposal`, `Vote` and `UpdateDaoInfo` state their effect directly in their own contracts.

Calls into other canisters, and into the external SDK crate `nnsdao_sdk_basic`, become parameters, so every property holds whatever they answer:

- the ICP/NDP ledger transfer is a `TransferOutcome` value;
- the NDP balance lookup is a function argument;
- the SDK's `proposal` and `vote` calls are function arguments.

The clock (`api::time()`) and the caller's principal text are parameters too.

Points worth knowing:

- The stake check in `initiate_proposal` compares `Result`s with Rust's derived order. `Ok` sorts before `Err`, so a balance lookup that fails passes the check. `Dao.ResultLess` models that order, and `Dao.PassesStakeCheck` states the consequence for the check.
- lib.rs calls a different, out-of-sync `DaoService` interface: `propose` with extra fields, and `quit` returning a member record. The model follows dao.rs as written.

## Model

| member | source | states |
|---|---|---|
| Disburse.AmountText | src/nnsdao/src/disburse.rs:18-27 | the text is `NDP:` or `ICP:` according to the tag, followed by decimal digits with no leading zero whose value is the amount |
| Disburse.AmountTextInjective | src/nnsdao/src/disburse.rs:18-27 | different amounts, or the same number in different currencies, display differently |
| Decimal.NatToDecimal | src/nnsdao/src/disburse.rs:20-23 | the rendering of an integer is non-empty, all digits, with no leading zero |
| Decimal.DecimalRoundTrip | src/nnsdao/src/disburse.rs:20-23 | reading the decimal rendering back gives the number |
| Decimal.NatToDecimalInjective | src/nnsdao/src/disburse.rs:20-23 | distinct numbers render differently |
| Subaccounts.NextSubaccountNum | src/nnsdao/src/disburse.rs:58-65 | the next counter is never 0; `u128::MAX` goes to 1 and anything else is incremented |
| Subaccounts.NthSubaccountNumClosedForm | src/nnsdao/src/disburse.rs:58-65 | after k steps the counter is start+k, wrapped past `u128::MAX` back to 1, with 0 treated as `u128::MAX` |
| Subaccounts.SubaccountNumsDistinct | src/nnsdao/src/disburse.rs:58-65 | up to `u128::MAX` consecutive calls return pairwise distinct non-zero numbers |
| Subaccounts.Pow256Of16 | src/nnsdao/src/disburse.rs:67-76 | a `u128` fits exactly in 16 bytes |
| Subaccounts.ToLeBytes | src/nnsdao/src/disburse.rs:71 | `to_le_bytes` of a k-byte integer has exactly k bytes |
| Subaccounts.ToLeBytesDigits | src/nnsdao/src/disburse.rs:71 | byte i of `to_le_bytes` is digit i of the number in base 256 (least significant first) |
| Subaccounts.LeBytesRoundTrip | src/nnsdao/src/disburse.rs:70-74 | decoding the little-endian bytes of n gives n when n fits |
| Subaccounts.SubaccountBytes | src/nnsdao/src/disburse.rs:67-76 | a sub-account has 32 bytes |
| Subaccounts.SubaccountLayout | src/nnsdao/src/disburse.rs:67-76 | bytes 0..15 are zero, and byte 31-i is byte i of the little-endian counter (big-endian, byte 31 least significant) |
| Subaccounts.SubaccountRoundTrip | src/nnsdao/src/disburse.rs:67-76 | the counter can be read back from its sub-account |
| Subaccounts.SubaccountBytesInjective | src/nnsdao/src/disburse.rs:67-76 | distinct counter values give distinct sub-accounts |
| Disburse.HandleDisbursement | src/nnsdao/src/disburse.rs:151-209 | `Ok("ok")` exactly when the transfer succeeded; otherwise the transfer's error text, unchanged |
| Disburse.Add | src/nnsdao/src/disburse.rs:78-80 | appends to the pending stack; the failed stack and the lock are unchanged |
| Disburse.DrainPending | src/nnsdao/src/disburse.rs:95-119 | empty or locked: `(None, Ok(""))`, nothing changes; otherwise pops the newest pending item, returns it with its transfer result, pushes it onto the failed stack iff the transfer failed, lock free |
| Disburse.DrainFailed | src/nnsdao/src/disburse.rs:82-93 | empty: `(None, Ok(""))`; otherwise pops the newest failed item and returns its result; the pending stack and lock are untouched |
| Disburse.DrainPendingConserves | src/nnsdao/src/disburse.rs:95-119 | one drain loses and duplicates nothing: pending + failed + delivered is the same multiset as before |
| Disburse.DrainFailedDropsItem | src/nnsdao/src/disburse.rs:82-93 | a retry removes its item for good, even if it fails again; the pending stack, the lock and `try_num` are unchanged |
| Disburse.DrainPendingKeepsOlder | src/nnsdao/src/disburse.rs:95-119 | k drains from an unlocked service leave the k newest items removed, the older ones pending in order, and the lock free |
| Disburse.DrainPendingServesNewest | src/nnsdao/src/disburse.rs:106-110 | k drains take the k most recently added items, newest first (LIFO) |
| Disburse.DrainPendingFailsInOrder | src/nnsdao/src/disburse.rs:111-116 | after k drains the failed stack has grown by exactly the taken items whose transfer failed, in the order taken |
| Disburse.ThreeAddsTwoDrains | src/nnsdao/src/disburse.rs:78-119 | three adds and two successful drains deliver the third and second items, leave only the first pending, and leave the failed stack unchanged |
| Disburse.DisburseService.constructor | src/nnsdao/src/disburse.rs:41-55 | counter 0, both stacks empty, lock free |
| Disburse.DisburseService.GetNewSubaccountNum | src/nnsdao/src/disburse.rs:58-65 | the stored counter equals the returned value, which is the next counter and never 0 |
| Subaccounts.SubaccountFromLayout | src/nnsdao/src/disburse.rs:67-76 | any 32-byte string with zeros in bytes 0..15 and byte 31-i equal to byte i of the 16-byte little-endian counter is exactly `SubaccountBytes` of that counter |
| Disburse.DisburseService.GetTransactionSubaccount | src/nnsdao/src/disburse.rs:67-76 | advances the counter; the `for` loop fills the 32-byte buffer into exactly `SubaccountBytes` of the new counter |
| Disburse.DisburseService.AddDisbursement | src/nnsdao/src/disburse.rs:78-80 | appends to `disbursements_queue`; the counter, failed stack and lock are unchanged |
| Disburse.DisburseService.HandleFailedDisbursements | src/nnsdao/src/disburse.rs:82-93 | new state, item and result are those of `DrainFailed`; only the failed stack may change |
| Disburse.DisburseService.HandlePendingDisbursements | src/nnsdao/src/disburse.rs:95-119 | new state, item and result are those of `DrainPending`; the counter is unchanged |
| Dao.NewMember | src/nnsdao/src/dao.rs:171-184 | the record carries status 1 and the supplied nickname, avatar, intro and social links |
| Dao.JoinMember | src/nnsdao/src/dao.rs:166-185 | a principal already present in any status gets "You are alreay a member of this group!" and the map is unchanged; otherwise exactly one entry is added, the new record, and every other entry is unchanged |
| Dao.QuitMember | src/nnsdao/src/dao.rs:192-201 | an absent principal gets "You are not yet a member of this group!"; otherwise the same keys, only this record's status becomes -1, and `Ok(true)` is returned |
| Dao.IsMemberOf | src/nnsdao/src/dao.rs:93-99 | `Ok(true)` iff the principal is a key, whatever its status; otherwise the "not yet joined" error |
| Dao.JoinTwiceFails | src/nnsdao/src/dao.rs:171-180 | a second join with the same principal fails and changes nothing |
| Dao.QuitThenJoinFails | src/nnsdao/src/dao.rs:171-180 | a member who quit cannot join again |
| Dao.QuitIdempotent | src/nnsdao/src/dao.rs:192-201 | a second quit leaves the same map and the same result |
| Dao.QuitKeepsMembership | src/nnsdao/src/dao.rs:93-99 | after quitting, `is_member` still answers `Ok(true)` |
| Dao.MapValuesRemove | src/nnsdao/src/dao.rs:162-164 | a map's values are those of the map without any one key, plus that key's value |
| Dao.MapValuesCount | src/nnsdao/src/dao.rs:162-164 | there are as many values as keys, and every stored record is among them |
| Dao.ResultLess | src/nnsdao/src/dao.rs:106 | the derived `Result` order: two `Ok`s compare by value, and `Ok` sorts before `Err` |
| Dao.ResultLessStrictOrder | src/nnsdao/src/dao.rs:106 | that order is irreflexive, transitive and total, as a derived order over totally ordered payloads is |
| Dao.PassesStakeCheck | src/nnsdao/src/dao.rs:102-107 | the stake check rejects exactly an `Ok` balance below 1000_0000_0000; an `Err` balance passes |
| Dao.DaoService.constructor | src/nnsdao/src/dao.rs:84-91 | no members, no proposers, the given info |
| Dao.DaoService.IsMember | src/nnsdao/src/dao.rs:93-99 | `Ok(true)` iff the principal is in `member_list`, whatever its status; otherwise the "not yet joined" error |
| Dao.DaoService.UserInfo | src/nnsdao/src/dao.rs:186-191 | the stored record, or the "not yet a member" error |
| Dao.DaoService.MemberList | src/nnsdao/src/dao.rs:162-164 | always `Ok`, holding exactly the stored records with multiplicity |
| Dao.DaoService.GetDaoInfo | src/nnsdao/src/dao.rs:150-152 | always `Ok` of the stored info |
| Dao.DaoService.UpdateDaoInfo | src/nnsdao/src/dao.rs:153-161 | all six fields are overwritten, the result is the argument, and only the info changes |
| Dao.DaoService.Join | src/nnsdao/src/dao.rs:166-185 | the new member map and the result are those of `JoinMember` |
| Dao.DaoService.Quit | src/nnsdao/src/dao.rs:192-201 | the new member map and the result are those of `QuitMember` |
| Dao.DaoService.InitiateProposal | src/nnsdao/src/dao.rs:100-125 | a failed stake check gives "Insufficient funds sent." and leaves `proposer_list` unchanged; otherwise the SDK's answer is returned, and `proposer_list` grows by one item (proposer, sub-account, new id) exactly when that answer is `Ok` |
| Dao.DaoService.Vote | src/nnsdao/src/dao.rs:126-148 | the SDK always receives a `Yes(ndp_count)` vote from the caller, and its answer is the result |
| LogQuery.Contains | src/nnsdao/src/logger.rs:108-110 | true iff the needle occurs at some position of the message |
| LogQuery.FilterMatching | src/nnsdao/src/logger.rs:100-114 | keeps exactly the entries satisfying `Matches` (the filter closure): those at or after `fromTimeNanos` (if given) that contain `messageContains` (if given), each as many times as it occurs in the buffer |
| LogQuery.FilterMatchingAppend | src/nnsdao/src/logger.rs:100-114 | the filter keeps buffer order: filtering a concatenation is concatenating the filtered parts |
| LogQuery.TakeFirst | src/nnsdao/src/logger.rs:115 | a prefix of length `min(count, len)` |
| LogQuery.InsertNewestFirst | src/nnsdao/src/logger.rs:119-127 | inserting into a newest-first list keeps it newest-first and adds exactly the one entry |
| LogQuery.SortNewestFirst | src/nnsdao/src/logger.rs:119-127 | the result is ordered by non-increasing `timeNanos` and is a permutation of the input |
| LogQuery.GetLogMessages | src/nnsdao/src/logger.rs:95-133 | at most `count` entries, newest first, a permutation of the first `count` matching entries in buffer order; `last_analyzed_message_time_nanos` is the call time |
| LogQuery.GetLogMessagesComplete | src/nnsdao/src/logger.rs:100-127 | when at most `count` entries match, every matching entry is returned |
| LogQuery.RegexIgnored | src/nnsdao/src/logger.rs:100-114 | `message_regex` has no effect on the result |
| LogQuery.TakeBeforeSort | src/nnsdao/src/logger.rs:115-127 | the take precedes the sort: from an older entry stored before a newer one, a query for one entry returns the older |
| Logger.Store | src/nnsdao/src/logger.rs:56-69 | keeps the buffer invariant; appends when not full, otherwise overwrites slot `next` and leaves every other slot alone; `full` only becomes true, exactly when `next` reaches `max_count`, and `next` then resets to 0 |
| Logger.StoreKeepsNewest | src/nnsdao/src/logger.rs:56-69 | oldest first, the buffer holds the last `max_count` of the old entries plus the new one |
| Logger.FormatMessage | src/nnsdao/src/logger.rs:83-92 | the message has exactly the length of the three fields, the key/value text and three `\|\|` separators; when the fields contain no `\|`, splitting at the first `\|\|` reads back the canister, then the caller text, then the method; the key/value text ends the message |
| Logger.KvTextAppend | src/nnsdao/src/logger.rs:78-81 | each key/value pair contributes its own `k:v,`, in order |
| Logger.FormatKv | src/nnsdao/src/logger.rs:78-81 | the loop builds exactly `KvText` of the pairs |
| Logger.LoggerService.constructor | src/nnsdao/src/logger.rs:44-53 | empty queue, `max_count` 20000, `next` 0, not full, and the buffer invariant holds |
| Logger.LoggerService.StoreLogMessage | src/nnsdao/src/logger.rs:56-69 | keeps the buffer invariant; the new state is `Store` of the old one; the chronological contents are the newest `max_count` entries |
| Logger.LoggerService.GetLogMessages | src/nnsdao/src/logger.rs:95-133 | over the service's buffer: at most `count` entries, newest first, a permutation of the first `count` matching entries in slot order, each one stored and matching; the time is the call time |
| Logger.LoggerService.LogFormatMessage | src/nnsdao/src/logger.rs:71-93 | stores exactly one new entry, stamped with the given time, whose message is `canister\|\|caller\|\|method\|\|k1:v1,k2:v2,` |

## Left out

- Proposal storage, tallying, settlement and payouts: they live in the external `nnsdao_sdk_basic` crate. Its `proposal` and `vote` calls are function parameters, and `proposal_list` (dao.rs:131-134) only forwards to it, so it is not modelled.
- The SDK's `Proposal` record is reduced to the `id` this service reads.
- Ledger and EXT token calls (src/nnsdao/src/canister/*.rs) are not part of this model:
  - a transfer is represented by its outcome only;
  - the NDP balance lookup is a function parameter.
- Which ledger `handle_disbursement` calls (ICP or NDP by the amount's tag) and the arguments it passes are not modelled. This includes the memo decoded by `tools::decode_token`; tools.rs is not part of this model.
- The audit-log entries that `handle_disbursement` writes, with their account-identifier text, are not modelled.
- `mortgage_ndp` is a stub that always returns `Ok(true)`. It is folded into `Dao.DaoService.Vote`.
- Interleaving across `.await`: every operation runs to completion. The lock is plain state, and concurrent drains are not modelled.
- Disburse.DrainPending, Disburse.DrainFailed: a transfer that traps is not modelled; `TransferOutcome` has only `Ok` and `Err`. `ndp_transfer` calls `.unwrap()` on the call result and on `u64::try_from(block)` after its await (canister/ledger.rs:96, 98). A trap there comes after the pop (disburse.rs:89, 108) and after `lock = true` (disburse.rs:106) are committed. The item is then in neither stack, and the pending lock stays held until the next upgrade, which restores it as `false` (disburse.rs:52-54). `DrainPendingConserves`, the "lock free" clauses and `DisburseService.HandlePendingDisbursements` hold only for transfers that return.
- Dao.DaoService.InitiateProposal: a trap in `ndp_balance` (the `.unwrap()` at canister/ledger.rs:66) is not modelled. It happens before any state change.
- lib.rs endpoint glue, upgrade persistence, the heartbeat, init.rs, owner.rs and types.rs are not part of this model.
- `Dao.DaoService.constructor`: lib.rs (lines 36-43) needs a `Default` for `DaoService`, but dao.rs does not derive one. The constructor stands in for that missing `Default`: an empty directory and proposer list, with a given info.
- `LogQuery.SortNewestFirst`: the contract states ordering and permutation. It does not state the stability of Rust's `sort_by`, although the definition is stable.
- `LogQuery.GetLogMessages`: the buffer is queried in slot order, as the source does. The model does not state the order of a wrapped buffer's slots relative to time.
- `api::time()`, `ic_cdk::api::id()` and `Principal::to_text` are parameters or left out.
- Serde defaults and the `skip_serializing` attribute on the lock are not modelled.
- Integer widths appear as subset types (`Byte` for `u8`, `U32`, `U64`, `U128`). No arithmetic in the core can overflow except the counter, whose wrap is modelled.
