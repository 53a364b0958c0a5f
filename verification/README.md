# Kuatia: a verified model

Kuatia is a double-entry ledger whose money lives in immutable postings. A transfer
consumes live postings and creates new ones in one atomic store call; balances are sums of
live postings; accounts are append-only logs of versions; every commit leaves an event.
This project models the parts of Kuatia where mistakes would lose or create money, and
proves what its design promises about them in Dafny 4.11. `dafny verify dfyconfig.toml`
checks all of it.

## What is modelled

- **The ledger as a state machine** (`store.dfy`, `store_laws.dfy`, `mem_store.dfy`,
  `runs.dfy`, `run_proofs.dfy`, `theorems.dfy`, `journal.dfy`). The store's tables are one state value; each store call
  is one step. A client may load from any earlier states, plan, and commit much later, so a
  run is an arbitrary interleaving of commits from stale plans, account transitions,
  registrations, reservations, books and cache points. One invariant carries conservation,
  no double spend, no overdraft, replay, version and event history through every run.
- **Validation** (`validate.dfy`, `acceptance.dfy`): `validate_and_plan` decides one declarative
  rule, stated again in flag bits, account digests and sums.
- **Intent resolution** (`resolve.dfy`, `resolve_theorems.dfy`): exact per holder and per
  asset, and optimal in the number of postings consumed.
- **Balance cache** (`balance.dfy`, `query.dfy`): snapshot plus tail is the live balance.
- **Client operations** (`ledger.dfy`, `intent.dfy`, `filings.dfy`, `refusals.dfy`,
  `ledger_client.dfy`, `saga.dfy`, `saga_theorems.dfy`, `saga_guard.dfy`, `saga_roundtrip.dfy`,
  `saga_replay.dfy`, `wide_commits.dfy`): commit, reverse, resolve and `run_movements`, as relations and as the
  step-by-step code that meets them; what each files, and why it refuses.
- **Inflight holds** (`inflight.dfy`, `inflight_theorems.dfy`, `inflight_ops.dfy`,
  `inflight_parked.dfy`, `inflight_answers.dfy`, `inflight_client.dfy`): authorize, confirm, void
  and their derived status, from an unregistered hold to any later state, and what each call
  answers.
- **The SQL store** (`sql_tables.dfy`, `sql_store.dfy`, `sql_theorems.dfy`, `sql_runs.dfy`,
  `sql_floors.dfy`): its two posting tables and chunked statements simulate the in-memory
  tables through whole runs.
- **Account codes** (`cycle_walk.dfy`, `obfuscation.dfy`, `account_code.dfy`,
  `account_code_theorems.dfy`, `account_code_vectors.dfy`): keyed Feistel network with
  cycle-walking, base 36, and the MOD 97-10 check of ISO/IEC 7064, down to known values.
- **Codecs** (`bytes.dfy`, `canonical.dfy`, `decimal.dfy`, `amount.dfy`,
  `amount_theorems.dfy`): the hash preimage and decimal amounts.

Code that changes things step by step is a class or a method with loops, proved against a
value-level specification (`InMemoryStore`, `SqlStore`, `Ledger`, `InflightLedger`); pure
code is functions and lemmas. `totals.dfy` and `amounts.dfy` hold the order-free sums that
hash-map iteration needs.

## Hypotheses

- Amounts use the default 64-bit backing; the canonical bytes are also proved free of the
  backing's width.
- The content hash is a parameter: every statement holds for any digest. Where two contents
  must not collide (`Saga.Genuine`, `Saga.AllGenuine`), the statement says so for the envelopes
  concerned: those the legs of a run resolve to and those that reverse them.
- The theorems about a compensation assume that what each committed leg consumed fits 16-bit
  positions again (`Saga.ReversalsSmall`); `SagaGuard.ReversalsFit` derives that from a guard on
  the state before the call, so that `SagaGuard.AllOrNothing` does not assume it.
- An envelope of a run creates at most 65536 postings, because positions are cast to 16
  bits; `WideCommits` says exactly what a wider one leaves. Byte lengths and counts stay
  below 2^32, because they are written as 32-bit prefixes.
- Clock readings are inputs. For the cache, every commit visible after a point was computed
  is later than the point's watermark (the grace assumption), watermarks stay below the
  largest 64-bit time, and the store has at most 2^32 - 1 transfers.
- Hash maps and hash sets are iterated in an arbitrary order.
- The metadata codec of inflight payloads reads back what it tagged. The hold concerned is
  no destination and no funder of its trade (`InflightParked.ApartBySub` gives a condition on
  the trade alone), nothing but inflight operations touches it, and the authorization was not
  answered from the log.
- That a sum overflows is the one answer in which the two stores may differ
  (`SqlTheorems.CommitsAgreeUnlessOverflow`, `SqlRuns.SqlSimulates`); it cannot happen when the
  balances a commit leaves on accounts that forbid overdraft fit in 64 bits.
- `InflightClient` and `LedgerClient` run over the in-memory store without interference;
  interference is the subject of `Runs` and of `InflightTheorems.InflightConserves`.

## Where the code and its promises differ

- `run_movements` says that on failure the committed legs are reversed and several transfers
  behave as one all-or-nothing workflow. That fails in three ways, each with the plain original
  error as the answer.
  - A later leg is the very reversal of an earlier one, as when a whole posting is paid over
    and straight back: the two have the same content hash (the payer is not hashed), so the
    idempotency check answers for the reversal and nothing is taken back
    (`RoundTrip.RoundTripNotRestored`).
  - A leg cannot even be built, being a deposit of the minimum amount: its error comes back
    without any compensation (`RoundTrip.UnbuildableNotRestored`; `Saga.Build` says that only
    that deposit cannot be built).
  - A leg repeats a transfer that is already in the log. A deposit consumes nothing and carries
    no nonce, so a deposit equal to an earlier one is answered with the earlier receipt and
    moves nothing; when a later leg fails, reversing that receipt takes the earlier deposit back
    (`Replay.RepeatedDepositNotRestored`).

  Apart from legs that consume more than 65536 postings, whose reversals lose creates as the
  last item below says, there is no fourth: `SagaTheorems.OriginalErrorBalance` says exactly what
  is left moved, `Saga.EffectiveExactly` that the transfer of a leg is taken back if and only if
  nothing had consumed what it created, and `SagaTheorems.OriginalErrorRestores` exactly when
  all balances are back. `SagaGuard.AllOrNothing` gives guards that a caller can check before
  the call: no deposit of the minimum amount; no positive payment from a holding that an earlier
  leg pays into or from, or that has more than 65536 postings; no leg whose consume-nothing form
  is already in the log. Without the last of them, `SagaGuard.AllOrNothingExactly` says exactly
  when all is back, and `SagaGuard.RepeatsTakenBack` reads the loss off the legs and the state
  before the call.
- The floor check of the in-memory store leaves reserved rows out of the projected balance,
  the SQL one counts them. On states a ledger can reach both always pass
  (`LedgerTheorems.FloorNeverFires`, `SqlTheorems.SqlFloorSees`). On other states they can
  differ: `SqlFloors.FloorsDiffer` gives related tables and a request that one store commits
  and the other rejects, and `SqlFloors.FloorsAgree` says that they agree when every touched
  holding whose owner forbids overdraft has its owner listed as involved and no reserved row.
- `Amount::parse` accepts a sign on the whole part, also after a minus sign has been taken off.
  `AmountTheorems.AcceptsExactly` says exactly which texts are accepted and with what value;
  `AmountTheorems.SecondSignAccepted` is the surprising case, where the fraction counts against
  the whole part.
- Posting positions are cast to 16 bits without a check, so an envelope of more than 65536
  creates passes validation and then loses the creates whose position comes round again:
  `WideCommits.WideIssueLoses` is such a commit and `WideCommits.WideCommitConserves` the exact
  condition under which conservation survives.

## Model

| member | source | states |
|---|---|---|
| `LedgerTheorems.LiveAssetsSumToZero` | crates/kuatia-storage/src/mem_store.rs:458-571 | in every state of every interleaving of clients whose plans may be stale, the live postings of each asset sum to zero |
| `LedgerTheorems.SpentOnceAndForAll` | crates/kuatia-storage/src/mem_store.rs:499-505 | a posting is consumed by at most one stored transfer, and from then on it is in neither live table in any later state |
| `RunProofs.RunSafe` | crates/kuatia-storage/src/mem_store.rs:458-616 | the whole ledger invariant holds in every state of every run, and between any two states rows, transfers, versions and events are kept, spent stays spent and closed stays closed |
| `RunProofs.StalePlanSound` | crates/kuatia/src/ledger/commit.rs:190-255 | a plan validated from reads taken in any earlier states is still sound in the current one, because it rests only on facts that never change |
| `RunProofs.CommitKeepsInv` | crates/kuatia-storage/src/mem_store.rs:458-571 | the atomic commit of a sound plan keeps the invariant whatever its outcome |
| `RunProofs.TransitionKeepsInv` | crates/kuatia/src/ledger/transition.rs:27-61 | an account-version transition built from a stale version keeps the invariant: it lands on the head, is already applied, or is refused |
| `RunProofs.ReserveSame` | crates/kuatia-storage/src/mem_store.rs:275-292 | reserving any id list moves rows between the live tables and changes nothing a balance, a transfer or the index depends on |
| `RunProofs.ReleaseSame` | crates/kuatia-storage/src/mem_store.rs:294-310 | the same for releasing |
| `RunProofs.AppliedLiveSum` | crates/kuatia-storage/src/mem_store.rs:556-570 | a commit moves the live sum of every holder and of every asset by exactly created minus consumed |
| `LedgerTheorems.NoOverdraft` | crates/kuatia-core/src/validate.rs:446-462 | an account that forbids overdraft never holds a negative live posting and never has a negative balance, in every state of every run |
| `LedgerTheorems.FloorNeverFires` | crates/kuatia-storage/src/mem_store.rs:507-554 | the overdraft rejection inside the commit cannot fire for a plan validated from any earlier reads; with balances in 64 bits the outcome is decided by the other guards alone |
| `LedgerTheorems.ReplayIsBalance` | crates/kuatia/src/ledger/balance.rs:55-117 | for every account and asset in every reachable state, replaying only the transfers the participation index returns gives the live sum |
| `LedgerTheorems.VersionsAndEventsMatch` | crates/kuatia/src/ledger/transition.rs:27-61 | account versions are consecutive and differ only in the two lifecycle flags, and each after the first has exactly one lifecycle event: closed when the version is closed, frozen when it is frozen, unfrozen when it is neither |
| `Journal.EventOrigin` | crates/kuatia/src/ledger/commit.rs:190-255 | every event in the log was written by a step of the run about its own subject, at that step's time |
| `Journal.TransferOrigin` | crates/kuatia/src/ledger/commit.rs:218-240 | every stored transfer carries the envelope, the receipt and the time of the commit that stored it, and its event has the same time |
| `LedgerTheorems.TransfersAndEventsMatch` | crates/kuatia-storage/src/mem_store.rs:440-454 | stored transfers and committed events correspond one to one |
| `LedgerTheorems.ClosedIsFinal` | crates/kuatia-storage/src/mem_store.rs:573-616 | once closed, an account's versions and its set of live postings never change again |
| `LedgerTheorems.ClosedStaysEmpty` | crates/kuatia/src/ledger/lifecycle.rs:67-87 | an account that was empty when it was closed stays empty in every later state of every run |
| `MemStore.InMemoryStore.ReservePostings` | crates/kuatia-storage/src/mem_store.rs:275-292 | the loop does to the tables what the value-level reserve says, with the same count, for any id list |
| `MemStore.InMemoryStore.ReleasePostings` | crates/kuatia-storage/src/mem_store.rs:294-310 | likewise for release: only rows held under that reservation go back |
| `MemStore.InMemoryStore.DeactivatePostings` | crates/kuatia-storage/src/mem_store.rs:312-336 | likewise for deactivation, from the active or from the reserved table |
| `MemStore.InMemoryStore.InsertPostings` | crates/kuatia-storage/src/mem_store.rs:338-352 | only ids new to the immutable table are inserted and activated |
| `MemStore.InMemoryStore.CreateAccount` | crates/kuatia-storage/src/mem_store.rs:151-159 | an account is registered once; a second registration changes nothing |
| `MemStore.InMemoryStore.AppendEvent` | crates/kuatia-storage/src/mem_store.rs:440-454 | an event is appended unless its dedup key is already in the log |
| `MemStore.InMemoryStore.AppendBalanceProjection` | crates/kuatia-storage/src/mem_store.rs:83-103 | a cache point is appended under its own account and asset only |
| `MemStore.InMemoryStore.SurvivingSum` | crates/kuatia-storage/src/mem_store.rs:525-535 | summed in any map order, the surviving amount of one holding is exact, and a failure means that some order of its rows really overflows |
| `MemStore.InMemoryStore.CheckGuards` | crates/kuatia-storage/src/mem_store.rs:472-505 | idempotency, then freeze/close in order, then double spend: the first that decides is the answer |
| `MemStore.InMemoryStore.CheckFloors` | crates/kuatia-storage/src/mem_store.rs:507-554 | no breach means every checked floor holds; a reported breach is a real one with its real projected balance |
| `MemStore.InMemoryStore.CommitEnvelope` | crates/kuatia-storage/src/mem_store.rs:458-571 | all or nothing: the guards' answer, or a rejection with nothing written, or the whole transfer applied |
| `MemStore.InMemoryStore.CommitTransition` | crates/kuatia-storage/src/mem_store.rs:573-616 | a new version only on top of its predecessor and never on a closed account; an old one is reported as already applied |
| `StoreLaws.ReserveMoves` | crates/kuatia-storage/src/mem_store.rs:275-292 | exactly the requested active rows become held under the reservation, each counted once |
| `StoreLaws.ReleaseMoves` | crates/kuatia-storage/src/mem_store.rs:294-310 | exactly the requested rows that this reservation holds become active again |
| `StoreLaws.DeactivateRemoves` | crates/kuatia-storage/src/mem_store.rs:312-336 | exactly the requested active rows go, or with a reservation those it holds |
| `StoreLaws.InsertAdds` | crates/kuatia-storage/src/mem_store.rs:338-352 | every new id is stored and active with the first posting given for it, and counted; known ids are left alone |
| `StoreLaws.PostingStates` | crates/kuatia-storage/src/mem_store.rs:257-273 | in every reachable state a posting is spent exactly when a stored transfer consumed it, missing exactly when none created it, and live otherwise |
| `StoreLaws.GuardDecides` | crates/kuatia-storage/src/mem_store.rs:458-505 | the guards in order: a known transfer is answered with its receipt, then the first missing, frozen or closed account decides, then the first posting that is not active |
| `StoreLaws.CommitTwice` | crates/kuatia-storage/src/mem_store.rs:464-470 | a commit that is put again changes nothing, and its client is answered with the same receipt |
| `StoreLaws.TransitionLands` | crates/kuatia-storage/src/mem_store.rs:573-616 | each outcome of a transition exactly for its condition on the head, and only the one that lands changes the history |
| `StoreLaws.TransitionTwice` | crates/kuatia-storage/src/mem_store.rs:573-616 | a transition that is put again changes nothing |
| `StoreLaws.BooksFinal` | crates/kuatia-storage/src/mem_store.rs:662-669 | in every run a book keeps the policy it was first registered with |
| `Events.DedupKeyIdentifies` | crates/kuatia-storage/src/events.rs:77-97 | two events share a dedup key exactly when they are about the same transfer or the same account version; only creation events have none |
| `Events.KeyExamples` | crates/kuatia-storage/src/events.rs:77-110 | the two forms of the key, spelled out |
| `Events.AppendBySubject` | crates/kuatia-storage/src/mem_store.rs:440-454 | deduplicating by key is deduplicating by subject |
| `Validate.ValidateAndPlan` | crates/kuatia-core/src/validate.rs:303-526 | accepts exactly the acceptable inputs, whatever the map iteration order; the plan is determined by the envelope; a rejection names the first rule, in the order of the checks, that is really broken |
| `Acceptance.AcceptedExactly` | crates/kuatia-core/src/validate.rs:303-526 | what acceptable means, in flag bits, account digests and sums: something moves, no posting twice and only loaded ones, between open accounts, as the snapshots pinned them and the book admits; assets balance, no holder that forbids overdraft gets a negative posting or balance, and nothing overflows |
| `Validate.BookDecides` | crates/kuatia-core/src/validate.rs:360-413 | with every other rule met, a book admits exactly the inputs whose moved assets are all listed, unless no list is given, and whose owners all have their base account listed or share a flag bit with the book, unless neither is given |
| `Validate.VerdictReadsRequiredState` | crates/kuatia-core/src/validate.rs:112-129 | two inputs that agree on the keys the required state names get the same verdict, and the same reasons are open to a rejection |
| `Validate.Owners` | crates/kuatia-core/src/validate.rs:84-104 | the owner list contains exactly the owners of created and consumed postings |
| `Validate.PlannedIdsDistinct` | crates/kuatia-core/src/validate.rs:502-519 | with at most 65536 creates the 16-bit positions give distinct ids |
| `Validate.TouchedRequired` | crates/kuatia-core/src/validate.rs:84-129 | every balance the floor check reads is one the loader was told to fetch |
| `Validate.CheckConservation` | crates/kuatia-core/src/validate.rs:416-444 | conservation is decided per asset, with overflow reported only for sums that leave 64 bits |
| `Validate.CheckFloors` | crates/kuatia-core/src/validate.rs:464-500 | the projected floor is decided for every touched holding |
| `Canonical.EnvelopeRoundTrip` | crates/kuatia-types/src/canonical.rs:147-180 | decoding the canonical bytes, with anything behind them, gives back the envelope up to payers and the rest unread |
| `Canonical.EnvelopeBytesIdentify` | crates/kuatia-types/src/canonical.rs:147-180 | two envelopes have equal bytes exactly when they differ at most in payer annotations; no encoding is a proper prefix of another |
| `Canonical.AccountRoundTrip` | crates/kuatia-types/src/canonical.rs:182-202 | decoding an account's bytes gives the account back |
| `Canonical.AccountBytesIdentify` | crates/kuatia-types/src/canonical.rs:182-202 | two accounts have equal bytes exactly when they are equal |
| `Bytes.BeByte` | crates/kuatia-types/src/canonical.rs:36-60 | integers are written most significant byte first |
| `Canonical.EnvelopeExample` | crates/kuatia-types/src/canonical.rs:146-180 | the layout of an envelope byte by byte on an example: version 5, the counted consumes, creates and snapshots, the book, the counted metadata |
| `Canonical.AccountExample` | crates/kuatia-types/src/canonical.rs:182-203 | the layout of an account byte by byte on an example |
| `Canonical.CentBytesWidthFree` | crates/kuatia-money/src/lib.rs:212-222 | amount bytes do not depend on the backing width and round trip in every backing that holds the value |
| `Canonical.EnvelopeToBytes` | crates/kuatia-types/src/canonical.rs:147-180 | the appending loops produce the canonical bytes |
| `Canonical.AccountToBytes` | crates/kuatia-types/src/canonical.rs:182-202 | the appending loops produce the canonical bytes |
| `Balance.ComputeBalance` | crates/kuatia/src/ledger/balance.rs:184-200 | the live sum in any row order, or an overflow that some order can really meet |
| `Balance.QueryTransfers` | crates/kuatia-storage/src/mem_store.rs:386-430 | the result lists exactly the transfers indexed under the account in the window, each once, by commit time |
| `Balance.FoldAccountDelta` | crates/kuatia/src/ledger/balance.rs:55-99 | the loops return credits minus deduplicated debits and the number of postings seen; they overflow exactly when a partial sum does, and miss a posting exactly when a consumed id names no row |
| `Balance.RepeatedSpendCountsOnce` | crates/kuatia/src/ledger/balance.rs:55-99 | a posting consumed again, by whatever record, is debited and counted once |
| `Balance.TailFold` | crates/kuatia/src/ledger/balance.rs:101-117 | folding a tail gives the window's sum of deltas and its number of postings: the dedup drops nothing and no row is missing |
| `Balance.FoldTail` | crates/kuatia/src/ledger/balance.rs:101-117 | the tail read from the store folds to the window's sum and count, or a partial sum in commit order overflows |
| `Balance.ClosestProjection` | crates/kuatia-storage/src/mem_store.rs:105-119 | the point with the latest watermark at or before the given time, with the largest id among equals |
| `Balance.ReadBalance` | crates/kuatia/src/ledger/balance.rs:211-242 | closest cache point plus tail is the authoritative balance; a failure is an overflow on the way; a new point is asked for without a point or after a tail of at least the interval |
| `Balance.NextCachePoint` | crates/kuatia/src/ledger/balance.rs:134-174 | a point is computed exactly when no point is at or before the watermark, or the closest is older by the debounce, and enough postings moved since; it holds the balance of its watermark, computed from nothing or from an earlier point; a failure is an overflow |
| `Balance.AppendCachePoint` | crates/kuatia/src/ledger/balance.rs:134-174 | appends that point exactly when it is due, or leaves the store alone |
| `Balance.PointsAlwaysRight` | crates/kuatia/src/ledger/balance.rs:134-174 | under the grace assumption every cache point is right in every state of every run, whatever points it was built from |
| `Balance.CachedReadIsBalance` | crates/kuatia/src/ledger/balance.rs:211-242 | whatever point a reader picked in whatever earlier state, adding the tail of the state it folds gives that state's balance |
| `Query.FilterTransfers` | crates/kuatia-storage/src/query.rs:19-44 | exactly the records inside the half-open time window and of the book |
| `Query.LeftOut` | crates/kuatia-storage/src/query.rs:19-44 | a record is left out exactly for a bound it does not meet: before the start, at or after the end, or of another book |
| `Query.FilterAppend` | crates/kuatia-storage/src/query.rs:19-44 | in their order and as often as they occur: filtering two stretches apart is filtering both together |
| `Query.Paginate` | crates/kuatia-storage/src/query.rs:50-70 | the page is the stretch after the offset, cut at the limit, with the total before the cut; without bounds and up to 2^32 - 1 records it is everything |
| `Query.NextPage` | crates/kuatia-storage/src/query.rs:50-70 | reading on from where a page ended loses nothing and repeats nothing |
| `Resolution.DraftMovements` | crates/kuatia-core/src/posting_resolution.rs:121-149 | fails exactly when a running net debit overflows; otherwise credits every movement and lists exactly the positive net debits, once each, in key order |
| `Resolution.CheckedSum` | crates/kuatia-core/src/posting_resolution.rs:200-205 | summing positives overflows exactly when their total does |
| `Resolution.TakeUntil` | crates/kuatia-core/src/posting_resolution.rs:214-221 | takes the shortest prefix that reaches the amount |
| `Resolution.CoverDebit` | crates/kuatia-core/src/posting_resolution.rs:195-260 | one debit is covered, offset or refused as specified |
| `Resolution.ResolveEnvelope` | crates/kuatia-core/src/posting_resolution.rs:182-268 | all debits in order; the first that cannot be covered decides |
| `ResolutionTheorems.ResolutionExact` | crates/kuatia-core/src/posting_resolution.rs:121-262 | each holder changes by its credits less its positive net debit, each asset by the sum of the negative net debits, and no posting is consumed twice |
| `ResolutionTheorems.ResolutionConserves` | crates/kuatia-core/src/posting_resolution.rs:121-262 | the envelope conserves every asset exactly when no net debit is negative |
| `ResolutionTheorems.GreedyOptimal` | crates/kuatia-core/src/posting_resolution.rs:207-221 | no set of available postings with fewer members covers the debit |
| `ResolutionTheorems.TiesKeepOrder` | crates/kuatia-core/src/posting_resolution.rs:205-225 | postings of equal value are taken in the order they were offered |
| `ResolutionTheorems.ResolvedInOrder` | crates/kuatia-core/src/posting_resolution.rs:140-262 | a resolved envelope takes from the debited holdings in order of account, subaccount and asset, and creates at most one posting more for each, in the same order |
| `ResolutionTheorems.ChangeSmallest` | crates/kuatia-core/src/posting_resolution.rs:223-232 | the change is smaller than every consumed posting |
| `ResolutionTheorems.ResolutionFewest` | crates/kuatia-core/src/posting_resolution.rs:195-232 | over the whole transfer, no set that funds every net debit is smaller than what is consumed |
| `ResolutionTheorems.CoverVerdict` | crates/kuatia-core/src/posting_resolution.rs:195-260 | for a positive debit the only overflow is in the total of the positives; insufficient funds exactly when the total falls short and overdraft is forbidden |
| `ResolutionTheorems.ResolutionOverflow` | crates/kuatia-core/src/posting_resolution.rs:195-262 | after a draft, resolution overflows exactly when the positives on offer for the first failing debit do; nothing later overflows |
| `LedgerOps.CommitDecides` | crates/kuatia/src/ledger/commit.rs:190-255 | a failed commit changes nothing; a successful one found its transfer in the log or recorded it, and keeps the invariant |
| `WideCommits.WideCommitSum` | crates/kuatia-storage/src/mem_store.rs:556-564 | a commit of any width moves each slice by the creates whose 16-bit position no later one takes, less what it consumed |
| `WideCommits.WideCommitConserves` | crates/kuatia-core/src/validate.rs:502-519 | so a balanced envelope conserves every asset exactly when the creates it loses sum to zero in each; up to 65536 creates none are lost |
| `WideCommits.WideIssueLoses` | crates/kuatia-core/src/validate.rs:502-519 | a balanced envelope of 65537 creates passes validation and its commit loses a unit |
| `WideCommits.WideIssueBreaks` | crates/kuatia-core/src/validate.rs:502-519 | from registered accounts and an empty log, that one commit leaves the live postings of the asset summing to -1 |
| `LedgerOps.ReverseNegates` | crates/kuatia/src/ledger/commit.rs:263-306 | a reversal answered from the log changes nothing; any other successful one, of at most 65536 consumed postings, moves every balance by the exact negative of the original delta |
| `LedgerOps.ReversalDelta` | crates/kuatia/src/ledger/commit.rs:271-302 | over every slice the reversal envelope's delta is minus the transfer's |
| `Intents.ResolvedRealises` | crates/kuatia/src/ledger/commit.rs:128-168 | a resolved intent credits its movements, moves each holding by its credits less its positive net debit, and is already pinned |
| `Intents.ResolvedOnlyDebits` | crates/kuatia/src/ledger/commit.rs:128-168 | it consumes only from, and leaves change or offsets only on, holdings the intent debits |
| `Intents.TransferKeeps` | crates/kuatia/src/ledger/commit.rs:176-179 | committing an intent that resolves to at most 65536 creates keeps the invariant and changes nothing on failure |
| `Intents.CreatesCounted` | crates/kuatia/src/ledger/commit.rs:128-168 | a resolved intent creates at most one posting per movement and one more per holding it debits |
| `LedgerClient.Ledger.Load` | crates/kuatia/src/ledger/commit.rs:50-87 | reads exactly the required state, and fails only for a missing row or account, an unsummable balance, or a book other than the default one that is not registered, each with its own error |
| `LedgerClient.Ledger.CommitEnvelope` | crates/kuatia/src/ledger/commit.rs:190-255 | the steps of the client meet the commit relation; a transfer that is new is filed under its content hash with its pinned envelope, its receipt and the time of the call, and announced at that time |
| `Filings.CommitFiles` | crates/kuatia/src/ledger/commit.rs:218-240 | a newly committed envelope is stored as it is, with its receipt and the time of the commit, and so is its event |
| `Filings.EnvelopeFiles` | crates/kuatia/src/ledger/commit.rs:190-207 | what is stored is the envelope given, pinned to the current version of each account it creates for, each once and in order, unless it came with snapshots |
| `Filings.ReversalFiles` | crates/kuatia/src/ledger/commit.rs:263-306 | a new reversal has the book and metadata of its original, consumes exactly the original's created ids in order, and gives each consumed row back to its owner with no payer |
| `Filings.IntentFiles` | crates/kuatia/src/ledger/commit.rs:128-179 | a new intent is stored with its book and metadata, first the credit of each movement, annotated with its payer unless that is the payee, then change and offsets, which nobody pays |
| `Filings.CommitRefused` | crates/kuatia/src/ledger/commit.rs:190-255 | what each refusal of a commit means: the store failed to read or add up, the book is not registered, validation broke a named rule, or a consumed posting is no longer active; nothing else, and nothing changed |
| `LedgerClient.Ledger.Reverse` | crates/kuatia/src/ledger/commit.rs:263-306 | the steps of the client meet the reversal relation; a new reversal is filed as the inverse of its original, in the original's book |
| `LedgerClient.Ledger.Resolve` | crates/kuatia/src/ledger/commit.rs:128-168 | loads the active postings and accounts of the debits and resolves, or fails for a stated reason |
| `Refusals.IntentRefused` | crates/kuatia-core/src/posting_resolution.rs:190-262 | a refused intent names a net debit of its movements and a holding that cannot give it: its positive postings are fewer and the account may not go negative, or they do not add up |
| `LedgerClient.Ledger.Commit` | crates/kuatia/src/ledger/commit.rs:176-179 | resolve, then commit; a new intent is filed with its own book and metadata and one credit per movement |
| `LedgerClient.Ledger.RunMovements` | crates/kuatia/src/saga.rs:72-95 | forward loop and last-first compensation, with the states they pass through |
| `LedgerClient.Ledger.Transition` | crates/kuatia/src/ledger/transition.rs:27-61 | each error exactly for its condition: no such account, already closed, no next version; otherwise the head is exactly the mutated account |
| `LedgerClient.Ledger.Freeze` | crates/kuatia/src/ledger/lifecycle.rs:39-50 | success means the account is frozen, in the next version and otherwise unchanged, and the log ends in its AccountFrozen event at the time of the call; each error has its exact condition |
| `LedgerClient.Ledger.Unfreeze` | crates/kuatia/src/ledger/lifecycle.rs:53-63 | the same for unfrozen and AccountUnfrozen |
| `LedgerClient.Ledger.Close` | crates/kuatia/src/ledger/lifecycle.rs:67-87 | refused exactly for a live posting or an impossible transition; success means the account is closed, not frozen and empty, and the log ends in its AccountClosed event |
| `StoreLaws.LifecycleBits` | crates/kuatia-types/src/account.rs:7-64 | a lifecycle change sets or clears the frozen and closed bits and no other bit of the flag word |
| `StoreLaws.FlagBits` | crates/kuatia-types/src/account.rs:7-64 | frozen, closed, inflight and the overdraft ban are bits 0 to 3 |
| `LedgerClient.Ledger.HasLivePostings` | crates/kuatia/src/ledger/lifecycle.rs:94-100 | some live posting, active or reserved, belongs to the account |
| `LedgerClient.Ledger.CreateAccount` | crates/kuatia/src/ledger/lifecycle.rs:22-36 | fails exactly for a registered id and then changes nothing |
| `Saga.Build` | crates/kuatia/src/saga.rs:56-66 | a leg builds a transfer of one or two movements, and fails exactly for a deposit of the minimum amount |
| `Saga.BuildMoves` | crates/kuatia/src/saga.rs:56-66 | a leg moves its amount from payer to payee, except that paying a negative amount takes nothing; a deposit debits nothing on the external account |
| `SagaTheorems.LegFiles` | crates/kuatia/src/saga.rs:56-66 | a newly committed leg is filed in the default book without metadata; a payment first credits the payee, a deposit first debits the external account and then credits the payee |
| `Saga.CompensationBalance` | crates/kuatia/src/saga.rs:72-95 | after a completed compensation, legs answered from the log included, every balance is its start plus what the new transfers moved that were not taken back, less what older ones moved that were |
| `Saga.TakenOnce` | crates/kuatia/src/saga.rs:81-91 | however often a transfer is among the receipts, it is taken back at most once |
| `Saga.EffectiveExactly` | crates/kuatia/src/saga.rs:81-91 | a completed compensation takes the transfer of a leg back exactly when nothing in the log had consumed what it created |
| `Saga.CompensationLeaves` | crates/kuatia/src/saga.rs:72-95 | so every balance is its start plus what the run's own spent transfers moved, less what the older unspent ones among the receipts had moved |
| `Saga.SpentMeansReused` | crates/kuatia/src/saga.rs:74-80 | for a newly committed leg, being spent is being reused by a later newly committed leg |
| `Saga.AnsweredFromLog` | crates/kuatia/src/ledger/commit.rs:202-207 | a reversal leaves the state alone exactly when its content hash was already stored |
| `SagaTheorems.CommitNeverCompensates` | crates/kuatia/src/saga.rs:81-91 | a failed commit never reports a compensation failure, so the two kinds of error can be told apart |
| `SagaTheorems.UnbuildableLeg` | crates/kuatia/src/saga.rs:72-95 | a leg that cannot be built ends the run with its error and no compensation: every balance keeps exactly what the earlier legs newly recorded |
| `SagaTheorems.OriginalErrorBalance` | crates/kuatia/src/saga.rs:72-95 | the exact balance after an original error, over both ways of failing |
| `SagaTheorems.OriginalErrorRestores` | crates/kuatia/src/saga.rs:68-95 | when every leg can be built, an original error means every balance is back at its start exactly when what the run's own spent transfers moved is what the older unspent ones had moved |
| `SagaTheorems.ReuseEndsInFailure` | crates/kuatia/src/saga.rs:81-91 | when something consumed what the transfer of a leg created, the answer is a compensation failure unless the run stopped at a leg that cannot be built or that reversal is already in the log |
| `SagaTheorems.IndependentNotReused` | crates/kuatia/src/saga.rs:68-95 | if no payment draws on a holding that an earlier leg paid into or from, no leg consumes what an earlier one created |
| `SagaGuard.CarriesBare` | crates/kuatia/src/ledger/commit.rs:128-168 | a leg resolved to an envelope that consumes nothing has one content, which a caller can compute from the leg and the current account versions |
| `SagaGuard.ReplayedIsBare` | crates/kuatia/src/ledger/commit.rs:202-207 | only a leg that consumes nothing is answered from the log, under the hash of that content, by a transfer that consumed nothing either |
| `SagaGuard.LoggedIsReplayed` | crates/kuatia/src/ledger/commit.rs:202-207 | a deposit or non-positive payment whose content was in the log before the run is answered from it |
| `SagaGuard.ReversalsFit` | crates/kuatia/src/ledger/commit.rs:271-302 | independent legs that draw on holdings of at most 65536 postings have reversals that fit 16-bit positions |
| `SagaGuard.AllOrNothing` | crates/kuatia/src/saga.rs:68-95 | if every leg can be built, no payment draws on a holding an earlier leg touched or on one of more than 65536 postings, and no leg repeats a logged transfer that consumed nothing, all of which a caller can check before the call, then an original error means every balance is back at its start |
| `SagaGuard.AllOrNothingExactly` | crates/kuatia/src/saga.rs:68-95 | without the last of these guards, that holds exactly when what the older unspent transfers among the receipts had moved comes to nothing |
| `SagaGuard.RepeatsTakenBack` | crates/kuatia/src/saga.rs:68-95 | for legs none of which touches a holding another one draws on, the loss can be read off before the call: it is what the unspent logged transfers that the committed legs repeat had moved |
| `Replay.DepositReplays` | crates/kuatia/src/ledger/commit.rs:202-207 | a deposit whose content is in the log changes nothing and hands out the old receipt |
| `Replay.RepeatedDepositTakenBack` | crates/kuatia/src/saga.rs:68-95 | such a deposit followed by a leg that fails returns the plain error and takes the older deposit back |
| `Replay.RepeatedDepositNotRestored` | crates/kuatia/src/saga.rs:68-95 | from registered accounts: a deposit, then a run that repeats it and fails on an unknown payer, which leaves the depositor short of the first deposit |
| `RoundTrip.RoundTripNotRestored` | crates/kuatia/src/saga.rs:68-95 | paying a whole posting over and back and then failing returns the plain error with both reversals answered Ok, yet the amount has moved: the documented all-or-nothing promise fails |
| `RoundTrip.UnbuildableNotRestored` | crates/kuatia/src/saga.rs:68-95 | one payment followed by a deposit of the minimum amount returns that deposit's error and the payment stands |
| `RoundTrip.SettingExists` | crates/kuatia-types/src/transfer.rs:96-107 | after one deposit to a registered account, the setting of those runs exists |
| `RoundTrip.PayerNotHashed` | crates/kuatia-types/src/canonical.rs:121-134 | the payer does not enter the content hash |
| `RoundTrip.ReversalIsPaymentBack` | crates/kuatia/src/ledger/commit.rs:263-306 | reversing a whole payment is the whole payment back |
| `RoundTrip.PaymentCommits` | crates/kuatia/src/ledger/commit.rs:190-255 | nothing but a taken id stops a whole payment between open accounts that may overdraw |
| `Inflight.DistributeToFunders` | crates/kuatia/src/inflight/projection.rs:273-301 | payouts of a positive balance with a funder sum to it exactly; every leg but the last is capped at what it brought, and none is served before those ahead of it are paid back in full; the subtraction never overflows |
| `Inflight.GroupOf` | crates/kuatia/src/inflight/projection.rs:93-107 | every hold of the leg table has a group |
| `Inflight.GroupsDistinct` | crates/kuatia/src/inflight/projection.rs:93-111 | no hold has two |
| `Inflight.GroupDestination` | crates/kuatia/src/inflight/projection.rs:120-130 | a group's destination is that of one of its legs, so resolving it cannot fail |
| `Inflight.OverallState` | crates/kuatia/src/inflight/projection.rs:234-259 | each state is returned exactly when its name is true of the lines |
| `Inflight.StateMeans` | crates/kuatia/src/inflight/projection.rs:234-262 | what the state says of lines that conserve: held, confirmed and voided are all of what was authorized on that side, mixed leaves nothing held, partially confirmed has some held and some not |
| `Inflight.DeriveStatus` | crates/kuatia/src/inflight/projection.rs:155-232 | exactly one line per hold and asset of the leg table, in their order, each with its hold's destination and the authorized, confirmed, voided and held amounts, and the state their names say; it fails exactly when one of its checked sums overflows |
| `InflightTheorems.HoldConserves` | crates/kuatia/src/inflight.rs:136-338 | held = authorized - confirmed - voided with all four non-negative, read off the hold's history |
| `InflightTheorems.StatusConserves` | crates/kuatia/src/inflight/projection.rs:155-232 | so every derived status line satisfies it |
| `InflightTheorems.InflightConserves` | crates/kuatia/src/inflight.rs:136-338 | in every state of every interleaving in which only inflight commits touch the hold |
| `InflightOps.SettlementShaped` | crates/kuatia/src/inflight.rs:411-438 | a settlement spends only its hold and creates nothing negative elsewhere |
| `InflightOps.AuthorizationShaped` | crates/kuatia/src/inflight.rs:178-197 | the rewritten trade credits each hold exactly its legs and spends nothing of it |
| `InflightOps.OperationsConserve` | crates/kuatia/src/inflight.rs:136-338 | over every sequence of authorizations, settlements, closures and account steps, wherever an operation stopped |
| `InflightOps.SettlesClear` | crates/kuatia/src/inflight.rs:210-338 | once authorized, nothing confirm, confirm_all and void do touches a hold that is no destination and no funder other than by settling it |
| `InflightParked.AuthorizeOpens` | crates/kuatia/src/inflight.rs:136-201 | after authorize succeeded every hold is in order, forbids overdraft, and the leg table is on file under the handle |
| `InflightParked.ParkedConserves` | crates/kuatia/src/inflight.rs:136-338 | from unregistered holds, through authorize, to any later state of any mix of confirms, voids and unrelated operations: held = authorized - confirmed - voided with all four non-negative, and the leg table still on file |
| `InflightParked.SweepFollows` | crates/kuatia/src/inflight.rs:210-338 | the paths of confirm, confirm_all and void are among what may follow an authorization |
| `InflightParked.JoinFollows` | crates/kuatia/src/inflight.rs:210-338 | the paths of calls made one after another join into one |
| `InflightParked.SweepConserves` | crates/kuatia/src/inflight.rs:210-338 | so a confirm or void that reads its leg table from the log, whenever after authorize, keeps the law in every state it passes through |
| `InflightClient.InflightLedger.AuthorizeTrade` | crates/kuatia/src/inflight.rs:136-201 | refuses exactly a movement to itself, then exactly a trade whose holds are taken or shared; otherwise registers one new hold per payee (its flags, book and metadata spelled out) and commits the rewritten trade last; a failed call is the refused commit |
| `InflightClient.InflightLedger.ConfirmAll` | crates/kuatia/src/inflight.rs:210-240 | every step confirms the whole balance a hold has to its destination, in the authorization's book, or closes one; the receipts returned are those of the settlements in order; every hold left empty is closed; each error has its cause; with nothing answered from the log every hold ends empty |
| `InflightOps.SettleMoves` | crates/kuatia/src/inflight.rs:411-438 | a new settlement moves its amount from the hold to its target and nothing else |
| `InflightClient.InflightLedger.Confirm` | crates/kuatia/src/inflight.rs:254-300 | settles exactly the requested amounts in order, never more than the hold has, each out of the hold of the first leg it names; on success the receipts are returned and every touched hold is closed or still holds something; each error names its cause: an unknown or foreign handle (exactly), a request that matches no leg or exceeds what is held, a refused settlement, a sum that does not add up, a hold that cannot be closed |
| `InflightClient.InflightLedger.VoidAll` | crates/kuatia/src/inflight.rs:305-338 | every step returns one share of a hold's balance to a funder, the shares in leg order, or closes a hold; receipts, closing and errors as for ConfirmAll; with nothing answered from the log every hold ends empty |
| `InflightAnswers.SettlementFiles` | crates/kuatia/src/inflight.rs:411-438 | a new settlement is filed in the authorization's book, tagged with its role, transaction and destination, and first credits its target from the hold |
| `InflightAnswers.SettlementCounted` | crates/kuatia/src/inflight/projection.rs:170-197 | the status counts a settlement in the role it was made in |
| `InflightAnswers.AuthorizationFiles` | crates/kuatia/src/inflight.rs:178-197 | a new authorization is filed in the trade's book with its metadata and the leg table, and credits each movement to the hold of its destination |
| `InflightAnswers.SettleSpares` | crates/kuatia/src/inflight.rs:411-438 | a settlement takes postings from its own hold only |
| `InflightClient.HoldAccount` | crates/kuatia/src/inflight.rs:162-168 | a hold forbids overdraft, is flagged inflight and is open |
| `SqlStorage.SqlStore.ReservePostings` | crates/kuatia-storage-sql/src/posting.rs:301-347 | for any id list and any chunk size: the count of the in-memory reserve and a related state |
| `SqlStorage.SqlStore.ReleasePostings` | crates/kuatia-storage-sql/src/posting.rs:349-391 | the same for release |
| `SqlStorage.SqlStore.DeactivatePostings` | crates/kuatia-storage-sql/src/posting.rs:393-450 | the same for both deactivation paths |
| `SqlStorage.SqlStore.InsertPostings` | crates/kuatia-storage-sql/src/posting.rs:452-499 | the same for insertion; live rows stay copies of immutable ones |
| `SqlStorage.SqlStore.GetPostingStates` | crates/kuatia-storage-sql/src/posting.rs:156-240 | the state of each id in request order |
| `SqlTables.StatesAgree` | crates/kuatia-storage-sql/src/posting.rs:226-238 | the states are those of the in-memory store |
| `SqlTables.ReserveRefines` | crates/kuatia-storage-sql/src/posting.rs:301-347 | the set statement refines the in-memory loop, duplicates included |
| `SqlTables.UpdateChunks` | crates/kuatia-storage-sql/src/posting.rs:322-342 | two chunks do what one statement over both would, with counts adding up |
| `SqlStorage.SqlStore.CommitEnvelope` | crates/kuatia-storage-sql/src/commit.rs:137-305 | guards, writes, floor over the written tables, commit or rollback |
| `SqlStorage.SqlStore.CommitTransition` | crates/kuatia-storage-sql/src/commit.rs:307-376 | version row, head and event in one transaction |
| `SqlTheorems.CommitsAgree` | crates/kuatia-storage-sql/src/commit.rs:137-305 | on a state satisfying the ledger invariant a planned commit whose balances fit in 64 bits gets the same answer from both stores and leaves them related |
| `SqlTheorems.CommitsAgreeUnlessOverflow` | crates/kuatia-storage-sql/src/commit.rs:137-305 | without that bound the only other answer is that a sum overflows, and then nothing is written |
| `SqlRuns.StepAgrees` | crates/kuatia-storage-sql/src/commit.rs:137-376 | every step gets the same answer from both stores and keeps them related, or one answers with an internal error that wrote nothing; if the balances fit in 64 bits the answers are equal |
| `SqlRuns.SqlSimulates` | crates/kuatia-storage-sql/src/commit.rs:137-376 | the whole run side by side from empty tables: while the answers have been equal the tables are related, and they can first differ only where one store answers a commit with an internal error |
| `SqlRuns.FittingRunsAgree` | crates/kuatia-storage-sql/src/commit.rs:137-376 | if every commit leaves balances in 64 bits on accounts that forbid overdraft, all answers are equal and all states related |
| `SqlFloors.FloorsAgree` | crates/kuatia-storage-sql/src/commit.rs:255-277 | on any related tables, reachable or not, with the touched holdings free of reservations and listed as involved, one store's floor holds exactly when the other's does and a breach is the same breach |
| `SqlFloors.FloorsDiffer` | crates/kuatia-storage-sql/src/commit.rs:255-277 | related tables with a reserved row below zero, on which the same request commits in memory and is rejected by the SQL store |
| `SqlStorage.SqlStore.CreateAccount` | crates/kuatia-storage-sql/src/account.rs:41-98 | the first version and the head are written unless the account has a head |
| `SqlTheorems.SqlFollowsRun` | crates/kuatia-storage-sql/src/commit.rs:137-305 | at the end of every run, for plans from any earlier reads: the same answer and related states, or one store finds that a sum overflows and writes nothing; if the balances fit neither does |
| `SqlTheorems.SqlFloorSees` | crates/kuatia-storage-sql/src/commit.rs:255-277 | the balance read back after writing is the balance the commit leaves, and is never negative for an account that forbids overdraft |
| `SqlTheorems.TransitionsAgree` | crates/kuatia-storage-sql/src/commit.rs:307-376 | transitions get the same answer from both stores and leave them related |
| `CycleWalk.WalkEnds` | crates/kuatia-types/src/account_code.rs:195-207 | walking any permutation of a finite set from inside a part of it lands inside that part again |
| `CycleWalk.WalkedInverse` | crates/kuatia-types/src/account_code.rs:195-218 | walking two inverse permutations gives inverse permutations of the part |
| `Obfuscation.NetworkInverse` | crates/kuatia-types/src/account_code.rs:167-193 | with any round function the network permutes the 94-bit blocks and the inverse undoes it |
| `Obfuscation.ObfuscationIsBijective` | crates/kuatia-types/src/account_code.rs:195-218 | obfuscation and its inverse undo each other on all 93-bit values, for any round function |
| `Obfuscation.Feistel94` | crates/kuatia-types/src/account_code.rs:170-180 | the loop computes the network |
| `Obfuscation.Feistel94Inv` | crates/kuatia-types/src/account_code.rs:183-193 | the loop computes its inverse |
| `Obfuscation.Obfuscate` | crates/kuatia-types/src/account_code.rs:199-207 | terminates on every packed value and lands where the walk lands |
| `Obfuscation.Deobfuscate` | crates/kuatia-types/src/account_code.rs:210-218 | likewise backwards |
| `AccountCode.UnpackPack` | crates/kuatia-types/src/account_code.rs:47-59 | unpacking gives back the low 63 and 30 bits |
| `AccountCode.Base36Body` | crates/kuatia-types/src/account_code.rs:63-73 | eighteen base-36 digits denoting the value |
| `AccountCode.BodyRadix` | crates/kuatia-types/src/account_code.rs:63-73 | rendering what a body denotes gives the body back |
| `AccountCode.IbanExpand` | crates/kuatia-types/src/account_code.rs:77-88 | the expansion denotes the number the check is about |
| `AccountCode.Mod97` | crates/kuatia-types/src/account_code.rs:92-98 | the residue of the whole number |
| `AccountCode.CheckDigits` | crates/kuatia-types/src/account_code.rs:102-104 | 98 minus the residue of the body followed by 00 |
| `AccountCode.PassingChecks` | crates/kuatia-types/src/account_code.rs:297-300 | the digits that pass are the computed ones, or 00 for 97, 01 for 98, 99 for 02 |
| `AccountCode.Display` | crates/kuatia-types/src/account_code.rs:232-235 | prints the code |
| `AccountCode.ToGrouped` | crates/kuatia-types/src/account_code.rs:243-253 | prints it in groups of four |
| `AccountCode.FromStr` | crates/kuatia-types/src/account_code.rs:280-309 | accepts exactly the valid codes and finds the one encodable id with that body |
| `AccountCodeVectors.FirstOutput` | crates/kuatia-types/src/account_code.rs:147-152 | the bit mixer on its increment gives the generator's known first output |
| `AccountCodeVectors.KeyedMixes` | crates/kuatia-types/src/account_code.rs:154-174 | round keys mix the seed with multiples of the increment, and a round mixes its key with one half |
| `AccountCodeVectors.FourRounds` | crates/kuatia-types/src/account_code.rs:167-181 | the network written out: four rounds, each half replaced by its exclusive or with the function of the other |
| `AccountCodeVectors.DocumentedCode` | crates/kuatia-types/src/account_code.rs:366-380 | the packed value, the base-36 digits and the check digits of the fixed vector |
| `AccountCodeTheorems.ParsesBack` | crates/kuatia-types/src/account_code.rs:232-309 | any text that cleans to the code of an id parses to its low bits, hence to the id exactly when it is encodable |
| `AccountCodeTheorems.PrintedFormsParse` | crates/kuatia-types/src/account_code.rs:232-309 | the machine, grouped, dashed and lower-cased forms all parse back |
| `AccountCodeTheorems.GroupedAt` | crates/kuatia-types/src/account_code.rs:243-253 | grouping puts a separator before every fifth, ninth and so on character and keeps the rest in order |
| `AccountCodeTheorems.PrintsBack` | crates/kuatia-types/src/account_code.rs:280-309 | an accepted text prints back as its cleaned form, up to the three check-digit aliases |
| `AccountCodeTheorems.NormalFormsIdentify` | crates/kuatia-types/src/account_code.rs:280-309 | two accepted texts name the same account exactly when their normal forms agree |
| `AccountCodeTheorems.SubstitutionRejected` | crates/kuatia-types/src/account_code.rs:297-300 | one digit for another or one letter for another, anywhere, is always rejected |
| `AccountCodeTheorems.TranspositionRejected` | crates/kuatia-types/src/account_code.rs:297-308 | swapping different neighbours is accepted exactly for 1/B, 2/M or 3/X inside the body with the swapped body still a packed value |
| `Amount.FormatRoundTrips` | crates/kuatia-money/src/lib.rs:339-418 | a formatted amount parses back to itself exactly when there are at most 18 decimals and it is not the minimum |
| `Amount.ParseExact` | crates/kuatia-money/src/lib.rs:339-398 | a plain decimal, white space around it or not, parses to its exact scaled value, or is an error exactly when the scale or the magnitude does not fit |
| `AmountTheorems.AcceptsExactly` | crates/kuatia-money/src/lib.rs:339-398 | the texts that parse are exactly the spellings of a representable reading (white space, at most one minus, an optional sign on the whole part, digits, an optional fraction), and each parses to what its reading denotes |
| `AmountTheorems.PlainUnlessSigned` | crates/kuatia-money/src/lib.rs:339-398 | without a sign on the whole part a reading is a plain decimal with its exact value; a plus sign there changes nothing; a minus sign there comes after another and turns the whole part but not the fraction |
| `AmountTheorems.ReadSpelled` | crates/kuatia-money/src/lib.rs:339-398 | every well-formed text is accepted exactly when it is representable |
| `AmountTheorems.SecondSignAccepted` | crates/kuatia-money/src/lib.rs:341-361 | a second minus sign is accepted and the fraction then counts against the whole part |

## Left out

- `kuatia-dashboard`, the examples, tracing, task spawning, error texts, builders and pass-through queries: presentation and plumbing.
- SHA-256 itself, CBOR and JSON: the digest and the metadata codec are parameters.
- Event sequence numbers, `AutoId` and `crc32`: ids minted from the clock; events carry no sequence number here.
- Row mapping, SQL text, casts of ids, assets and versions to signed columns, result order and Postgres locking: statements are set operations on tables and a transaction is one atomic step.
- Books: only the policy value that validation reads; a run may register a book once.
- Non-ASCII text given to the account code or amount parsers: characters outside ASCII are not modelled, and only ASCII white space is.
- Ledger runs contain no `deactivate_postings` or `insert_postings` step: they are proved as store operations, but no ledger operation calls them.
- The emptiness check of `close` stands outside its atomic step: that a closed account is empty is claimed only for a `close` that runs without interference.
- `set_id_seed` as a global: the seed is a parameter.
- `inflight_subaccount`: the subaccount derived from a trade is a parameter.
- The subscription, query and list operations of the stores that no property here needs.
- The guard in `plan` against an under-fetched balance: `Validate.TouchedRequired` shows the required keys cover what is read.
- LedgerOps.CommitDecides: is for envelopes of at most 65536 creates, because beyond that the invariant really fails; `WideCommits` has the witness and the exact effect of wider commits.
- LedgerOps.ReverseNegates: is for originals that consumed at most 65536 postings, so that the reversal's own positions are distinct; a wider reversal moves what `WideCommits.WideCommitSum` says.
- Intents.TransferKeeps: is for intents that resolve to at most 65536 creates, for the same reason.
- InflightClient.InflightLedger.AuthorizeTrade: is for trades whose movements and debited holdings together number at most 65536, for the same reason.
- SqlTheorems.CommitsAgree: needs the checked balances to fit in 64 bits, since the two stores add up different rows on the way and may notice an overflow at different times; `SqlTheorems.CommitsAgreeUnlessOverflow`, `SqlTheorems.SqlFollowsRun` and `SqlRuns.SqlSimulates` have no such bound.
- InflightClient.InflightLedger.ConfirmAll: reads each hold's balance authoritatively instead of through the cache; conservation does not depend on what was read.
