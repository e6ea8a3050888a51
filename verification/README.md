# A verified model of LedgerCore

LedgerCore is a double-entry ledger with payments, refunds, currency conversion, settlement
and reconciliation on PostgreSQL. This project models its write path as a protocol of
concurrent transactions and proves what the protocol keeps, for every input, every
interleaving and every reachable state. All 64-bit arithmetic wraps in the model as it does
in the program, so each theorem says exactly where wrap-around matters.

## How the model is built

| layer | modules | content |
|---|---|---|
| arithmetic | `Int64`, `Money`, `FxRate` | two's-complement wrap; parsing and printing amounts; rational rounding |
| tables | `Ledger`, `Database` | entries and their balancing check; rows, and the SQL aggregates as sums over the journal |
| one transaction | `Posting`, `Settlement`, `SettlementLoops`, `Session`, `Store` | the posting and settlement algorithms as functions, and the loops, statements and retry loop proved equal to them |
| one after another | `Serial`, `Evolution`, `Acceptance`, `Coverage`, `Balances`, `Refunds`, `PaidOnce`, `Solvency`, `Payouts`, `Pools`, `FxDesk`, `Keys`, `Overflows` | committed operations applied one at a time: when each is accepted and what it writes, the invariants of every such run, and concrete runs in which wrap-around shows |
| all at once | `Machine`, `Invariant`, `Statements`, `Serializability`, `ExactlyOnce`, `Answers`, `Progress`, `Reachable` | any number of transactions, interleaved statement by statement under READ COMMITTED with row locks; everything reachable there is reachable serially |
| reconciliation | `Reconcile` | the report, recomputed from the journal |

The step machine follows PostgreSQL 16: each statement reads the latest committed rows and
the transaction's own writes (section 13.2.1 of its documentation), `FOR UPDATE` waits for the
holder and then reads the newest version, and locks last until commit or rollback (section
13.3.2). An insert of an idempotency key waits for an uncommitted insert of the same key. At
any moment a transaction may be rolled back, with a retryable error or not, and a commit may
succeed without its acknowledgement arriving.

A Go map is iterated in no particular order. Loops over maps pick keys arbitrarily, and their
contracts name one result, so the order is shown not to matter.

## What the code does and its comments do not say

- `Entry.Validate` sums in an int64 that wraps: it accepts sums that are multiples of 2^64
  (`Ledger.ValidateWraps`), and an accepted entry balances exactly if and only if every
  currency's sum is an int64 (`Ledger.ValidateBalances`). Entries built by transfer, payment,
  refund and conversion always balance exactly (`Balances.BuildBalanced`).
- Balances are int64s that wrap, too: two payments of 2^63 - 1 out of one account leave it
  with a stored balance of 2 (`Overflows.StoredIsNotDerived`). Stored is the exact sum of the
  postings if and only if that sum is an int64 (`Balances.StoredIsDerivedIff`).
- The refund guard adds in an int64 that wraps: a payment of one unit can be refunded 2^63
  units (`Overflows.RefundedTooMuch`). The guard is exact if and only if the sum it forms is
  an int64 (`Posting.GuardExactIff`), and a payment's refunds stay within its captured amount
  exactly as long as they sum to an int64 (`Refunds.RunRefundsBounded`).
- A settlement that finds a merchant's payments worth less than nothing marks them settled and
  pays nothing (`Overflows.SettledWithoutPay`). A merchant is paid exactly what its settled
  payments were worth if and only if no batch found a negative worth (`PaidOnce.PaidOutIsWorth`).
- `Rate.Convert` returns a nearest integer if and only if the rounded result fits and the
  amount is not the minimum int64, which converts correctly at 1/1 only
  (`FxRate.ConvertNearestIff`). `ConvertFX` posts whatever positive amount the conversion
  returns: 2^62 + 1 units at 4/1 release 4 (`Overflows.NarrowedTrade`). The desk stays within
  half a unit of the exact rate for each conversion exactly when every result fits, up to 2^64
  conversions (`FxDesk.DeskPosition`).
- `FormatMajor` prints the minimum int64 with two signs, so it is the one amount that cannot
  be parsed back (`Money.FormatParseRoundTrip`).
- A settlement is described as a single balanced transaction; the code writes one journal
  transaction per merchant inside one database transaction, and that is what is modelled.

## Model

| member | source | states |
|---|---|---|
| Ledger.Validate | internal/ledger/types.go:76-96 | the leg loop and the loop over the per-currency map reject exactly as specified, whatever the order of the map |
| Ledger.SumPerCurrency | internal/ledger/types.go:80-89 | the map holds each currency's wrapped sum, and the first bad leg decides the error |
| Ledger.CheckNets | internal/ledger/types.go:90-94 | a non-zero net in any currency is reported, in any iteration order |
| Ledger.ValidateAccepts | internal/ledger/types.go:76-96 | accepted if and only if two or more legs, none zero, all currencies known, every sum a multiple of 2^64 |
| Ledger.BadLegRefused | internal/ledger/types.go:80-88 | the first leg that is zero or in an unknown currency decides the error |
| Ledger.GoodLegsRefused | internal/ledger/types.go:76-96 | without such legs only too few of them or an unbalanced currency is refused |
| Ledger.ValidateBalances | internal/ledger/types.go:72-76 | an accepted entry nets to exactly zero in every currency if and only if every sum is an int64 |
| Ledger.ValidateWraps | internal/ledger/types.go:80-94 | a concrete accepted entry that does not balance |
| Money.Scale | internal/money/money.go:57-67 | the loop computes ten to the number of decimals, exact up to 18 decimals |
| Money.ParseDigits | internal/money/money.go:100-113 | the digit loop returns the positional value, or rejects a text with a non-digit |
| Money.PadRight | internal/money/money.go:97-99 | the padding loop appends exactly the missing zeros |
| Money.ParseUnsigned | internal/money/money.go:88-119 | cut at the first point, the two refusals, padding, the two digit loops and the scaled sum |
| Money.ParseDecimal | internal/money/money.go:76-87 | white space is trimmed and one leading sign removed |
| Money.ParseMajor | internal/money/money.go:72-120 | unknown currencies are refused; otherwise sign, cut, padding and loops compute the specified amount |
| Money.ParseAccepts | internal/money/money.go:72-120 | the accepted texts are exactly the trimmed forms of an optional sign, digits, and an optional point with at most d digits, with some digit present |
| Money.AmountParsed | internal/money/money.go:76-119 | a sign or none, digits, and at most d digits after an optional point parse to the signed value with its decimals |
| Money.OnlyAmounts | internal/money/money.go:76-119 | nothing else, between white space, is parsed |
| Money.SpaceIgnored | internal/money/money.go:76 | white space around a text does not change what it parses to |
| Money.AsciiSpaces | internal/money/money.go:76 | of the ASCII characters exactly tab, line feed, vertical tab, form feed, carriage return and space are white space |
| Money.FiveCurrencies | internal/money/money.go:27-33 | USD, EUR, GBP, CAD and AUD are supported, no others, all with two decimals |
| Money.HundredthsParsed | internal/money/money.go:72-120 | in each of them w.ff parses to 100 * w + ff, so 12.34 is 1234 |
| Money.ParseExact | internal/money/money.go:100-119 | an accepted text parses to the value it denotes, exactly if and only if that is an int64 |
| Money.FormatMajor | internal/money/money.go:124-142 | sign, whole part and padded fraction are printed as specified |
| Money.MinimumUnparsable | internal/money/money.go:130-135 | the printed minimum int64 is refused by the parser |
| Money.FormatText | internal/money/money.go:124-142 | every amount but the minimum prints as the canonical text that denotes it: a minus sign only if negative, no superfluous leading zero, exactly d digits after the point |
| Money.FormatParseRoundTrip | internal/money/money.go:124-142 | parsing undoes printing for an amount if and only if it is not the minimum int64 |
| Money.Reparse | internal/money/money.go:72-142 | printing a parsed amount and parsing it again changes nothing, except for the minimum int64 |
| FxRate.Convert | internal/money/fx.go:36-56 | a rate is refused unless both fields are positive; otherwise the sign handling and big-integer steps compute the specified quotient |
| FxRate.ConvertRounds | internal/money/fx.go:28-56 | when the rounded result fits, the result is the one nearest integer with ties away from zero |
| FxRate.ConvertNearestIff | internal/money/fx.go:36-56 | the result is a nearest integer if and only if a condition on rate and amount holds that can be evaluated beforehand |
| FxRate.ConvertOdd | internal/money/fx.go:40-54 | converting the opposite amount gives the opposite result if and only if the result is not the minimum int64 |
| FxRate.ConvertMonotone | internal/money/fx.go:36-56 | a larger amount never converts to less |
| FxRate.ConvertRoundTrip | internal/money/fx.go:36-56 | there and back at the inverse rate is off by z with 2 * Num * abs(z) <= Num + Den, and exact when Num >= Den |
| FxRate.DeskError | internal/money/fx.go:36-56 | n separate conversions whose results fit are together off the exact rate by at most n half units |
| FxRate.DeskErrorIff | internal/money/fx.go:36-56 | for positive amounts that bound holds if each result fits an int64 and, below 2^64 conversions, only if each does |
| FxRate.SplitConversion | internal/money/fx.go:36-56 | converting an amount in k pieces or at once differs by at most (k + 1) / 2 |
| Posting.SortAscending | internal/store/postings.go:176 | sorting the collected ids gives the strictly ascending enumeration of their set |
| Posting.DistinctSortedAccountIds | internal/store/postings.go:167-178 | the lock order is the strictly ascending enumeration of the entry's accounts |
| Posting.AscendingUnique | internal/store/postings.go:165-178 | there is only one ascending order of a set of accounts |
| Posting.ComputeDeltas | internal/store/postings.go:78-88 | the leg loop finds a currency mismatch or the wrapped sum of each account's legs |
| Posting.CheckBalances | internal/store/postings.go:91-99 | the loop over the locked rows, in any order, rejects an overdraft or yields every new balance |
| Posting.PostEffect | internal/store/postings.go:77-124 | a posting moves every account by the sum of its legs, several legs on one account included, and leaves no no-negative account it touches below zero |
| Posting.CheckPostFrame | internal/store/postings.go:61-99 | the verdict and the new balances depend on the locked rows only |
| Posting.GetPaymentLegs | internal/store/payments.go:26-68 | the row loop decodes merchant, source, currency and captured amount, or refuses |
| Posting.DecodeOrder | internal/store/payments.go:37-67 | a payment's two postings decode alike in either order |
| Posting.GuardExactIff | internal/ops/ops.go:113-123 | the guard decides as exact integers would if and only if prior plus amount is an int64 |
| Acceptance.EntryAccepted | internal/store/postings.go:55-99 | an entry is posted if and only if it validates, the guard agrees, every leg names an account of its currency, and every account it touches may go negative or ends non-negative in an int64 |
| Acceptance.PairRefused | internal/store/postings.go:55-99 | a refused movement between two accounts reports the first of: unknown currency, missing account, guard, currency mismatch, insufficient funds |
| Acceptance.TransferAccepted | internal/ops/ops.go:43-59 | a transfer is accepted if and only if key and id are unused, the amount is positive, the accounts differ, carry its currency and bear it; it writes exactly that row, those balances and the key |
| Acceptance.PaymentAccepted | internal/ops/ops.go:63-77 | a payment is accepted if and only if key and id are unused, the amount is positive, and both accounts carry the requested currency and bear it; its row is pending, with both legs in that currency |
| Acceptance.RefundAccepted | internal/ops/ops.go:82-124 | a refund is accepted if and only if it is keyed and names a recorded payment whose captured amount covers it, in int64 arithmetic, and whose accounts bear it |
| Acceptance.RefundWrites | internal/ops/ops.go:99-109 | an accepted refund takes the amount from the merchant back to the source in the currency of the payment |
| Acceptance.ConversionBuilt | internal/ops/fx.go:33-72 | a conversion is built if and only if the amount is positive, both accounts exist with different currencies, both fields of the rate are positive, the converted amount is positive, and both desks exist |
| Acceptance.ConversionAccepted | internal/ops/fx.go:33-80 | it is then accepted if and only if the currencies are supported, the desks carry them and all four accounts bear their legs; it writes those four legs |
| Acceptance.ConversionSums | internal/ops/fx.go:63-72 | each account bears the amount on one side and its conversion on the other, netted where a customer is a desk |
| Acceptance.JournalAccepted | internal/store/postings.go:35-99 | a raw entry is accepted if and only if it validates on accounts of its currencies that bear it, and is written leg for leg |
| Acceptance.BuildRefused | internal/ops/ops.go:43-109 | a request that cannot be built is refused for a reason that holds |
| Acceptance.UnkeyedRefundOnly | internal/store/idempotency.go:55-58 | without a key a refund is refused, and no other request is for lack of one |
| Evolution.RefundQueriesAgree | internal/store/payments.go:70-84 | the refund total of the guard and that of the netting query are the same number |
| Settlement.NetsAreGroupSums | internal/store/settlement.go:181-200 | the netting query has one row per merchant and currency with pending payments, and its net is captured minus refunded over that group's own payments |
| Settlement.PayAllEffect | internal/store/settlement.go:91-113 | after several payouts in one transaction each balance is the committed one plus all the postings so far, because each payout re-reads the transaction's writes |
| Settlement.PayAllSums | internal/store/settlement.go:93-113 | each account moves by the nets it receives as a rail less the nets it is paid out |
| Settlement.RailGrows | internal/store/settlement.go:93-113 | an account ends a batch with the nets it received as a rail less those it was paid out: a rail that is no merchant grows by exactly its currency's positive nets |
| Serial.NetsCovered | internal/store/settlement.go:57-113 | every net's merchant is among the locked merchants, its currency has a payout account, and both accounts a payout re-locks are already held |
| Coverage.CandidateIff | internal/store/settlement.go:142-150 | an account is a candidate if and only if some payment to it is pending and not settled |
| Coverage.BatchSettles | internal/store/settlement.go:115-121 | a batch settles the waiting payments of its merchants and changes no other row |
| Coverage.CandidatesSettled | internal/store/settlement.go:43-47 | a batch over the candidates settles every payment that waited |
| Coverage.BatchPays | internal/store/settlement.go:91-113 | every new row of a batch pays one of its merchants what it is owed in a currency, into the payout account of that currency |
| Coverage.OwedArePaid | internal/store/settlement.go:91-113 | every merchant of a batch that is owed something in a currency is paid it |
| SettlementLoops.UnionSortedIds | internal/store/settlement.go:243-260 | merchants and payout accounts, each once, in the one ascending order, whatever the order of the payout map |
| SettlementLoops.ResolvePayouts | internal/store/settlement.go:58-65 | all payout accounts are found, or the batch is refused |
| SettlementLoops.SplitRows | internal/store/settlement.go:153-171 | the row loop collects every merchant and every currency of the query |
| Session.Connection.LockAccounts | internal/store/postings.go:140-163 | the locked rows, or account-not-found when any is missing |
| Session.Connection.RunGuard | internal/ops/ops.go:112-124 | the guard reads the refunds so far in the transaction's view, compares in int64 arithmetic, and admits what exact integers would if and only if prior plus amount is an int64 |
| Session.Connection.InsertEntry | internal/store/postings.go:101-119 | header first, then leg by leg, the journal gains exactly the entry |
| Session.Connection.UpdateBalances | internal/store/postings.go:120-124 | the updates overwrite exactly the touched balances, in any order |
| Session.Connection.PostEntryTx | internal/store/postings.go:55-127 | a rejected entry changes nothing and returns the specified error; an accepted one writes its row and the new balances |
| Session.Connection.ClaimKey | internal/store/idempotency.go:91-105 | afterwards the key is there and every other row is as before; the caller owns the claim if and only if the row is unfinished, committed rows being finished |
| Session.Connection.ReadReplay | internal/store/idempotency.go:108-132 | an answer is the atomic replay of the request, with the legs that request builds; only another payload is refused, and under a refusal no operation of that key and request can commit; with faithful keys the unexpected state never arises |
| Session.Connection.PostKeyed | internal/store/idempotency.go:55-88 | a new key posts and is completed with its transaction; a known key posts nothing |
| Session.KeyedPostIsOp | internal/store/idempotency.go:64-86 | whatever a keyed posting commits is the atomic posting or replay of its request, and when it fails no such operation succeeds |
| Session.Connection.CandidateMerchants | internal/store/settlement.go:142-172 | exactly the accounts some pending, unsettled payment is to, and their currencies |
| Session.Connection.ComputeNetsLocked | internal/store/settlement.go:177-239 | nets, count and ids of the pending payments of the locked merchants, or an error when a net is no int64 |
| Session.Connection.Prepare | internal/store/settlement.go:51-81 | candidates, payout accounts, locks and nets are those of the specification, or no batch over these merchants can commit |
| Session.Connection.CloseBatch | internal/store/settlement.go:115-126 | the listed payments are marked with the batch, whose totals are then filled in |
| Session.Connection.PayOut | internal/store/settlement.go:91-113 | the loop pays as specified and adds up the total; if it fails, no batch over these nets can succeed |
| Session.Connection.RunSettlement | internal/store/settlement.go:48-138 | either the atomic batch over the candidates is in the tables, the result reports it, and every payment that waited is settled by it, or no such batch could commit |
| Store.Store.Transfer | internal/ops/ops.go:43-59 | built if and only if the amount is positive and the accounts differ; the job is that of the specified transfer, which takes the exact amount of the currency from one account, gives it to another and touches no third |
| Store.Store.Payment | internal/ops/ops.go:63-77 | built if and only if the amount is positive; the job is that of the specified payment, flagged pending, and moves the exact amount of the requested currency from source to merchant |
| Store.Store.Refund | internal/ops/ops.go:82-109 | built if and only if the amount is positive and the payment is recorded; the job reverses it, under a guard with its captured amount |
| Store.Store.ConvertFx | internal/ops/fx.go:33-72 | built if and only if amount, accounts, currencies, rate, result and desks allow it, equal currencies being refused; the four legs are those of the conversion and balance |
| Store.Store.Attempt | internal/store/store.go:92-116 | a conflict is never answered, and one at the commit only where the work is refused; what is answered is true of the database |
| Store.Store.RunInTx | internal/store/store.go:90-119 | every attempt but the last ended by a retryable error; the last answered, or was the 25th and retryable; at most one committed |
| Store.HealthySucceeds | internal/store/store.go:90-119 | after retryable errors only, a healthy attempt among the first 25 succeeds, unless the work is refused |
| Store.Store.Submit | internal/ops/ops.go:126-140 | a request, with its retries, commits its one operation or nothing; a refund without a key is refused at once |
| Store.Store.Settle | internal/store/settlement.go:48-138 | a settlement, with its retries, commits its one batch, which settles every payment that waited, or nothing |
| Serializability.Serializable | internal/store/postings.go:55-163 | every interleaving, with rollbacks, retries and lost acknowledgements, commits the state of running its committed operations one at a time in commit order |
| Serializability.CommitIsAtomic | internal/store/store.go:107-116 | what a transaction commits is the atomic effect of its operation on the database as it is at the commit |
| Statements.RelockCovered | internal/store/settlement.go:105-107 | re-locking in the payout loop never waits |
| Evolution.ApplyKeepsGood | internal/store/postings.go:55-127 | every operation keeps the tables' integrity and changes only rows of accounts it has locked |
| Evolution.NetsFrozen | internal/store/settlement.go:36-45 | while merchants are locked no other commit changes their pending payments or nets |
| Evolution.CheckFrozen | internal/store/postings.go:68-99 | while accounts are locked no other commit changes a posting's verdict, guard included |
| Reachable.EveryState | internal/store/queries.go:54-96 | in every reachable state: stored is derived, accounts that may not go negative are not, refunds are bounded, keys are faithful, payouts are the positive worths batch by batch, and what settled payments were worth exactly when no batch found a negative worth |
| Reachable.FriendlyPayouts | internal/store/settlement.go:91-113 | in every reachable state, a settlement in its payout loop over merchants with friendly histories is never rejected: its next statement goes through |
| Reachable.ReadsStayCurrent | internal/store/postings.go:66-124 | no two transactions hold one account, and rows read under a lock are still the committed rows at the commit |
| Reachable.QueriesAgree | internal/store/settlement.go:76-81 | at the commit of a settlement the marked ids are exactly the payments its nets were computed from |
| Reachable.ReconcileFindsNoDrift | internal/settle/reconcile.go:35-91 | reconciling any reachable state finds no drift and zero totals |
| Progress.WaitsRise | internal/store/postings.go:61-68 | along every wait the requested resource strictly rises, keys below accounts, so waits never form a cycle |
| Progress.NoDeadlock | internal/store/idempotency.go:64-73 | in every reachable state some transaction that has not ended can run |
| Progress.EventUses | internal/store/store.go:90-119 | every statement, rollback or lost acknowledgement uses up work of its own transaction |
| Progress.RunEnds | internal/store/store.go:92-118 | without new submissions only boundedly many further events can happen |
| Progress.EveryoneEnds | internal/store/settlement.go:67-75 | from every reachable state all transactions can be brought to commit or abort by running them alone |
| Keys.KeyCommittedIff | internal/store/idempotency.go:34-48 | a key is committed if and only if the log posts it, with that posting's request and transaction |
| ExactlyOnce.ExactlyOncePosting | internal/store/idempotency.go:55-105 | in every reachable state each key has been posted at most once, counting duplicates, retries and lost acknowledgements |
| Answers.DuplicateEnds | internal/store/idempotency.go:84-132 | in every reachable state a duplicate of a committed request is answered by its own next two statements, without waiting and whatever others do between them: with the committed transaction, or with a conflict for another payload |
| Answers.AnswersTrue | internal/store/store.go:90-119 | in every reachable state the answer that ends a transaction is true: what it says was committed is the atomic effect of its request, and when it says failed the same atomic request fails with the same error, or no batch over its merchants is accepted |
| Answers.LostCommits | internal/store/store.go:107-116 | a lost acknowledgement hides a commit that is the atomic effect of the transaction's operation |
| Answers.FaultAnswered | internal/store/store.go:95-119 | a rollback commits nothing, and ends a transaction only with the answer that it failed |
| Answers.FailureRefuses | internal/store/idempotency.go:55-132 | when a posting is told it failed, no posting and no replay of its request is accepted on the database at that step |
| Answers.SubmissionAnswered | internal/ops/ops.go:43-140 | a submission starts its transaction, or is refused at once and nothing it could commit is accepted |
| Answers.AttemptsCounted | internal/store/store.go:90-104 | the attempts of a running transaction are exactly its retryable errors |
| Answers.RetriedTo25 | internal/store/store.go:90-119 | a retryable error sends a transaction back to its first statement, with nothing held or committed, until it is the 25th |
| Answers.SettlesWhatWaited | internal/store/settlement.go:36-47 | a settlement that commits has settled every payment that waited when it read its candidates, whatever others did in between |
| ExactlyOnce.AbortLeavesKeyClaimable | internal/store/idempotency.go:46-48 | after a rollback the next claimant takes the key |
| ExactlyOnce.CommitEnds | internal/store/store.go:90-119 | one submission, with all its attempts, commits at most once |
| Keys.ReplayFaithful | internal/store/idempotency.go:107-132 | a replay returns the transaction of the one earlier posting with the same request, whose legs are what that request builds now |
| Keys.CommittedForGood | internal/store/idempotency.go:84-86 | a committed key is replayed after anything else has happened, and no payload posts under it again |
| Balances.RunDerived | internal/store/postings.go:77-124 | after every run each cached balance is the wrapped sum of its postings, and every entry's sums vanish modulo 2^64 |
| Balances.StoredIsDerivedIff | internal/store/queries.go:10-31 | the cached balance is the exact sum of the postings if and only if that sum is an int64 |
| Balances.RunNonNegative | internal/store/postings.go:90-99 | after every run no account that may not go negative is below zero |
| Balances.SumsSwap | internal/store/queries.go:52-71 | summing postings by account and then over a currency's accounts is summing them by currency |
| Balances.Conserved | internal/store/queries.go:52-96 | the per-currency sums of postings and of balances, when they can be scanned at all, are zero |
| Balances.ConservedExactly | internal/store/queries.go:73-96 | while accounts' sums are int64s, balances of a currency add up to its postings, to zero when transactions balance |
| Balances.BuildBalanced | internal/ops/ops.go:43-98 | entries of transfer, payment, refund and conversion net to exactly zero in every currency |
| Balances.RunBalancedIff | internal/store/queries.go:112-134 | every transaction of a journal balances exactly if and only if every raw entry given to it did |
| Refunds.RefundStep | internal/ops/ops.go:99-124 | a refund that is admitted adds its amount, and stays within the captured amount if and only if the total is an int64 |
| Refunds.RunRefundsBounded | internal/ops/ops.go:99-124 | after every run a payment's refunds are at most its captured amount if and only if they sum to an int64 |
| Refunds.SkippedOnlyIfRefunded | internal/store/settlement.go:93-96 | where no pending payment of the batch is refunded beyond its captured amount, nets are non-negative and a merchant is skipped if and only if all its pending payments are fully refunded |
| Overflows.RefundedTooMuch | internal/ops/ops.go:113-123 | a run of five operations after which a payment of one unit has been refunded 2^63 units |
| Overflows.StoredIsNotDerived | internal/store/postings.go:77-124 | a run of two payments of 2^63 - 1 after which the stored balance is 2 and the postings sum to -2 * (2^63 - 1) |
| Overflows.SettledWithoutPay | internal/store/settlement.go:91-121 | a run that ends with a settlement of an over-refunded payment: it is settled, nothing is paid, and its worth was negative |
| Overflows.NarrowedTrade | internal/ops/fx.go:52-72 | a conversion of 2^62 + 1 units at 4/1 that is posted and releases 4, far from the exact rate |
| PaidOnce.BatchesDisjoint | internal/store/settlement.go:43-47 | each payment enters at most one batch |
| PaidOnce.SettledIffBatched | internal/store/settlement.go:115-121 | a payment is settled if and only if some batch settled it |
| PaidOnce.RunBatchesOk | internal/store/settlement.go:115-126 | after every run exactly the settled payments carry a batch id, and each batch's item count is the number of payments carrying it |
| PaidOnce.BatchTotal | internal/store/settlement.go:112-126 | the total a batch records is what its payouts took out, in an int64 |
| PaidOnce.PaidOutIsDue | internal/store/settlement.go:91-113 | over every run a merchant is paid, batch by batch, captured minus refunded over the payments settled, where positive |
| PaidOnce.PaidOutIsWorth | internal/store/settlement.go:32-47 | a merchant is never paid less than captured minus refunded over its settled payments, and exactly that if and only if no batch found it owed a negative amount |
| Solvency.SettleKeepsSolvent | internal/store/settlement.go:91-121 | a batch leaves a solvent merchant with its balance less what it was owed, where that is positive, and owes it nothing more |
| Solvency.RunSolvent | internal/store/postings.go:90-99 | over every run that debits a merchant only by settlement and refunds of unsettled payments, its balance covers its pending nets |
| Payouts.SettlementAccepted | internal/store/settlement.go:91-121 | in every reachable state, a batch over such merchants with new ids is accepted if and only if every net is an int64: never is one rejected for funds |
| Pools.AcceptedIffAdmissible | internal/store/postings.go:90-99 | among no-negative accounts with an int64 total a transfer is accepted exactly when unbounded integers would allow it |
| Pools.TransferExact | internal/ops/ops.go:43-59 | an accepted transfer debits the sender and credits the receiver by the exact amount and touches nobody else |
| Pools.RunKeepsPool | internal/store/postings.go:77-99 | over every run the pool keeps its total and every balance stays between 0 and the total |
| FxDesk.TradeMoves | internal/ops/fx.go:63-72 | every accepted conversion debits the sender, is taken and released by the two desk accounts, and credits the receiver with the converted amount |
| FxDesk.DeskPosition | internal/ops/fx.go:22-32 | over every run, what the desk took and released over n conversions at a rate is off the exact rate by at most n half units if each result fits an int64 and, below 2^64 conversions, only if each does |
| Reconcile.RecomputedBalances | internal/store/queries.go:12-31 | every account's posting sum, or an error when one is no int64 |
| Reconcile.StoredBalances | internal/store/queries.go:34-50 | every account's cached balance |
| Reconcile.ConservationByCurrency | internal/store/queries.go:54-71 | the total of every currency with postings, or an error when one is no int64 |
| Reconcile.PostedIff | internal/store/queries.go:54-57 | a currency is among them if and only if some posting has it |
| Reconcile.UnbalancedTxns | internal/store/queries.go:114-134 | exactly the unbalanced transactions, ascending |
| Reconcile.FindDrift | internal/settle/reconcile.go:61-66 | the loop over the map, in any order, finds exactly the accounts that differ, each once |
| Reconcile.SortDrift | internal/settle/reconcile.go:67-69 | the items in strictly ascending order of account |
| Reconcile.AllZero | internal/settle/reconcile.go:77-82 | the flag survives the loop, in any order, if and only if every total is zero |
| Reconcile.Run | internal/settle/reconcile.go:43-91 | a report if and only if all sums can be scanned, and then exactly the specified one |
| Reconcile.ReportMeans | internal/settle/reconcile.go:43-91 | the report lists exactly the transactions that do not balance, the accounts whose balance is not the sum of their postings with both numbers, and the total of every currency with postings, and says whether all are zero |
| Reconcile.OkIff | internal/settle/reconcile.go:35-42 | OK if and only if every transaction balances exactly and no account drifts; zero totals follow |
| Reconcile.ReachableReport | internal/settle/reconcile.go:35-42 | on every reachable state there is no drift, and OK if and only if every raw entry was balanced |
| Reconcile.ReachableScans | internal/store/queries.go:12-71 | on balanced entries the total scan never fails, and the balance scan succeeds if and only if stored equals derived |

## Left out

- HTTP handlers, the JSON envelope, status mapping, `cmd/` mains, the load harness and environment handling: no invariant of the ledger lives there.
- SERIALIZABLE mode: its conflict detection is not modelled; a serialization failure or deadlock report is a rollback that may strike any transaction at any step.
- Waiting times of the retry loop: only the number of attempts is modelled.
- SHA-256 and JSON: the stored request hash is the request itself, so equal hashes mean equal payloads; the response body bound to a key is its transaction id.
- Account creation and name lookup: the accounts are fixed, start at balance 0, and payout and desk accounts are found through a map that never changes; that each rail has its currency is assumed only where a theorem says so.
- Direct use of the store to post entries labelled payment, refund or settlement: raw entries are modelled as transfers without a reference.
- The statements of one posting after its checks (insert header, insert legs, update balances) are one step of the machine, since nobody else can see or change those rows before the commit; module Session has them one by one, without other writers.
- Reconciliation while commits land between its queries: its queries read one fixed database. Its row counts are left out.
- The sum and minimum query of the load monitor, account statements, memos and timestamps.
- Order of rows where nothing depends on it: the ids to be marked are used as a set.
- Amounts of currencies with more than 18 decimals: ten to that power is no int64; the five currencies have 2.
- Fractions of 2^31 or more bytes, whose length the parser narrows to 32 bits before comparing it.
- Invalid UTF-8: strings are sequences of code points, and trimming removes the characters of Unicode white space.
- `big.Int.Int64` on a quotient that does not fit: the Go documentation leaves the result open; its low 64 bits are modelled, as the library computes them.
- Solvency.RunSolvent: holds under the stated restrictions on debits; the code also allows transfers out of a merchant, refunds of settled payments and payments whose source is the merchant, after which a batch may rightly be rejected.
