# Verification of the corridor payment engine and its contracts

A Dafny model of the parts of the repository that decide whether money moves once, twice or not at
all, and of the two contracts and the serializer those parts rely on.

## What is modelled

**The payment engine** (`packages/engine/src`). One idempotency key, one durable row, one chain.

- `Protocol.dfy` is the protocol: the events of one `execute` call (reading and claiming the row,
  every stored version of the run, the gate, the clock, `findExisting`, `submit`, `refund`, the
  reconcile and refund verdicts, the breaker outcome), which of them a process may take next given
  what it has seen (`LocalNext`), and what the row and the chain answer (`SharedNext`). A submit can
  pay and report success, pay and report failure, fail, fail now and land later, or never answer.
  The submitter interface promises nothing about its failures, so `Config` says what a submitter
  does: `misreports` (a failure may have landed, or land after a final one) and `lateRetries` (a
  retryable failure may land later). `Truthful` is neither; `CanTell` is what paying once needs.
  A crash is a process that takes no further event; `Boot` starts one that remembers nothing.
- `OneWorker.dfy` is the invariant between row and chain over every history of crashes and resumes
  by one worker at a time; `Safety.dfy` and `Checked.dfy` are what follows from it, and
  `Witnesses.dfy` the histories that show which of its conditions are needed, with the resulting
  exact conditions. All of these are about one worker at a time.
- `Interleaving.dfy` is every interleaving of any number of processes: who pays, for what, and who
  refunds. In memory a stale write can put back a row without its terms, so there the payments are
  tied to the copy of the process that claimed the key (`Races.TermsAreKeptExactly`).
  `Endings.dfy` is how rows end under all of them, and `Races.dfy` what processes can do to each
  other, with the exact conditions.
- `Fresh.dfy`, `Resume.dfy`, `RunContext.dfy` and `Engine.dfy` are `execute`, `resumeRun` and their
  helpers in imperative form, against oracles that may answer anything (`Outside.dfy`). Each method
  keeps the recorded history one that `Protocol.dfy` allows, so the safety results hold of it at
  every moment. `Outside.dfy` also notes whether every answer was the one hoped for: a claimed run
  completes exactly when it should, and when it does not there was a cause.
- `States.dfy`, `Runs.dfy`, `Stores.dfy`, `Breaker.dfy`: the transition table, the stored run, both
  idempotency stores, both breaker stores.
- `Reconcile.dfy` and `Waker.dfy`: the polling loops against a specification over the whole tape of
  answers, and waking a sleeping loop.

**Manifest pinning** (`packages/manifest/src`): `Canonical.dfy` is `canonicalJson` over UTF-16 code
units, with string quoting as in section 7 of RFC 8259 and lone surrogates escaped as
`JSON.stringify` does. "Same text exactly when same manifest" is what lets a resumed run trust its
stored hash; SHA-256 stands for the text it digests. `Reader.dfy` is an independent, strict reader
of such texts: what is printed reads back as what was printed.

**The contracts** (`contracts/registry`, `contracts/attester`, and the mirror in `packages/probe`):
`Registry.dfy`, `Attester.dfy` and `Domain.dfy`. Two storages, a cross-contract call, cooldowns,
entry lifetimes in ledgers, bitmaps, and the domain walk in both languages. `Facts.dfy` reads off
any sequence of calls who may attest and what the registry says.

Amounts are integers in stroops. Decimal parsing, signing, networks and clocks are oracles or
parameters.

## Where the code and its comments differ

The model follows the code in each case.

- `packages/engine/src/run.ts:1096-1099` says the stored refund id is what stops a resumed process
  from asking for a second refund. The id is only ever written together with a terminal state
  (`Safety.RefundIdOnlyAtTheEnd`), so a resumed process never sees one; what stops it is the state
  it starts from (`Safety.AtMostOneRefund`).
- `resumeRun` never looks at `dryRun`: a dry run that stopped after opening its transaction pays
  when it is called again, still as a dry run, if there is no gate (`Witnesses.ResumedDryRunPays`,
  `Witnesses.DryRunsPayExactly`).
- `packages/engine/src/breaker.ts:180-182` says `trippedAt` is written once per transition into
  `open`. The in-memory store keeps the first one until a reset, so a second trip after a success
  goes unreported (`Breaker.MemoryMissesASecondTrip`); the SQL store reports every one.
- `packages/engine/src/verbs.ts:189-199` speaks of that many consecutive polls;
  the code needs one answer more, and counts a first answer "unknown" as a repeat
  (`Reconcile.SteadyAnswersStall`).
- `packages/engine/src/run.ts:1091-1093` takes a settlement that never succeeded for one that left
  nothing on the chain. A payment reported as a failure that is on the chain, or gets there later,
  leaves a finished run with no settlement on its row, and under `refund_sender` one that looks
  refunded (`Witnesses.UnrecordedMoneyExactly`, `Witnesses.LostPayment`). With one worker at a time
  and truthful failures that cannot happen (`Safety.MovedMoneyIsRecorded`).
- With several workers it can even so: `resumeRun` claims nothing, so a second caller can fail or park
  a row while the first is about to pay, and the version guard of
  `packages/engine/src/idempotency-pg.ts:321-326` then drops the first one's `settling`
  (`Races.FailsWhileTheWinnerPays`; `Races.LeftOutExactly` has the exact condition). In the same way
  `refunded` can overwrite a recorded settlement (`Races.RefusedOverPaid`,
  `Races.OverwrittenExactly`).
- `findExisting` before a submit does not help where a retryable failure lands after the next look:
  the retry pays again (`Witnesses.OnePaymentExactly`). `packages/stellar/src/index.ts:285-291`
  reports such submits as not retryable; the interface does not ask for it.
- Two workers that resume the same settled run can both ask for its refund, gate or not, exactly
  under `refund_sender` (`Interleaving.ConcurrentRefundsExactly`), and both tell the breaker
  (`Races.ToldTwiceExactly`); one refund and one outcome are promised to one worker at a time.

## Model

| member | source | states |
|---|---|---|
| Canonical.CanonicalJson | packages/manifest/src/index.ts:516-533 | the loop that prints a value yields the reference print of the value read as a map, and `undefined` exactly for `undefined` |
| Canonical.SameTextIffSameManifest | packages/manifest/src/index.ts:511-533 | two values print the same text exactly when they are equal with objects read as maps |
| Canonical.ReorderingKeysKeepsTheText | packages/manifest/src/index.ts:511-515 | the order of an object's keys does not matter to its text |
| Canonical.EveryEditChangesTheText | packages/manifest/src/index.ts:536-540 | changing one property to a different value changes the text that is hashed |
| Canonical.PrintIsPrefixFree | packages/manifest/src/index.ts:516-533 | no print of a value can be read as the beginning of the print of another, whatever follows |
| Canonical.QuoteIsPrefixFree | packages/manifest/src/index.ts:529 | a quoted string tells the string and where it ends, escapes and lone surrogates included |
| Canonical.SortedKeysIsSorted | packages/manifest/src/index.ts:524 | sorting keys gives them in strictly ascending code-unit order, each once, whatever order they came in |
| Reader.CanonicalTextIsJson | packages/manifest/src/index.ts:511-533 | the canonical text is JSON for the manifest: a strict reader gives back the value it was printed from, with every kept property of an object once, in ascending order |
| Reader.ReadsBack | packages/manifest/src/index.ts:516-533 | the print of any value reads back as that value, whatever delimiter follows it |
| Reader.StringReadsBack | packages/manifest/src/index.ts:529 | a quoted string reads back, and only in the spelling `JSON.stringify` gives it: short escapes where there are some, `\u` for other control characters and for surrogates that are not half of a pair |
| Reader.BeforeIsByCodeUnits | packages/manifest/src/index.ts:524 | one key sorts before another exactly if at the first difference it ends or has the smaller code unit |
| Runs.HashCorridor | packages/manifest/src/index.ts:538-540 | the hash is the digest text of the canonical form |
| Runs.SameHashSameSettings | packages/engine/src/run.ts:1384-1402 | an unchanged hash means unchanged validated settings, so a resumed run plays by the rules it started under |
| Runs.BackoffMs | packages/engine/src/verbs.ts:452-455 | 250, 500, 1000, 2000 and 4000 ms for the first five attempts, and five seconds from the sixth on |
| Runs.SettleQuoteProblem | packages/engine/src/verbs.ts:107-123 | a quote can be settled exactly if its amount is positive and its asset is the settle asset in one of its spellings |
| Runs.NeedsPathPayment | packages/engine/src/ports.ts:173-181 | no path payment is needed exactly where nothing else, XLM on both sides, or the same code and issuer is received |
| States.NoReturnToSettling | packages/engine/src/state.ts:30-72 | a legal walk that left the states before settlement for anything but `settling` never settles again |
| States.SettlingAgainIsARetry | packages/engine/src/state.ts:30-72 | between two visits to `settling` a legal walk passes `retrying` and then `verifying` |
| States.TerminalIsTheEnd | packages/engine/src/state.ts:78-87 | no legal walk leaves a terminal state |
| Stores.DecodingIsExact | packages/engine/src/idempotency-pg.ts:142-185 | decoding a SQL row gives back what was written, exactly when its settlement columns agree |
| Stores.NothingErasesEvidence | packages/engine/src/idempotency-pg.ts:337-390 | under any sequence of puts the row matures: the version only rises and refund id, source deposit, manifest hash, settlement, owner never change once set |
| Stores.StaleWritersAreIgnored | packages/engine/src/idempotency-pg.ts:321-326 | puts with a version no higher than the row's change nothing |
| Stores.StoresAgreeOnOneWriter | packages/engine/src/idempotency.ts:141-162 | on the writes of one worker both stores hold and return the last run written |
| Stores.OneWriterPut | packages/engine/src/idempotency-pg.ts:337-390 | one rising write that drops nothing is stored and read back as written, by either store |
| Stores.MemoryHasNoGuard | packages/engine/src/idempotency.ts:146-154 | the in-memory store lets a stale snapshot win where the SQL store keeps its row |
| Stores.Store.Create | packages/engine/src/idempotency-pg.ts:207-242 | exactly the first caller for a key wins, and only its run is stored |
| Stores.Store.Get | packages/engine/src/idempotency-pg.ts:244-255 | the stored row, decoded: a SQL row from before the settlement columns names its transaction hash as its settlement, and no other column changes |
| Stores.Store.PutRun | packages/engine/src/idempotency.ts:146-154 | no other key is touched; in SQL a put no newer than its row changes nothing and a newer one is stored column by column, keeping the first refund id, deposit, manifest hash and settlement and the last settlement reference and kind; in memory the last put wins but a stored source deposit stays |
| Stores.Store.RecordResolution | packages/engine/src/idempotency.ts:185-193 | only a held run can be resolved out of band, and only once |
| Breaker.CauseSurvivesARestart | packages/engine/src/breaker.ts:166-176 | a lane failure stored as "CODE: message" reads back as the same code and message, any other error as the fallback |
| Breaker.StoresFollowTheHistory | packages/engine/src/breaker.ts:204-232 | both stores count the failures since the last success or reset and are open exactly when one of those met its own threshold |
| Breaker.RowsRemember | packages/engine/src/breaker-pg.ts:146-222 | what else the rows say of any history, and where the stores differ: in memory the first crossing of a threshold since a reset and the last error text since then; in SQL the last opening since a reset and what the very last failure said; in both the last reset |
| Breaker.SqlReportsEachTripOnce | packages/engine/src/breaker-pg.ts:146-185 | with distinct timestamps a failure reports a trip exactly when it opened the lane |
| Breaker.ReportsAreOpenings | packages/engine/src/breaker.ts:179-184 | over a whole history the SQL store reports as many trips as the lane has openings |
| Breaker.MemoryReportsFirstTripsOnly | packages/engine/src/breaker.ts:225 | the in-memory store reports an opening exactly when no other trip time is on record |
| Breaker.MemoryMissesASecondTrip | packages/engine/src/breaker.ts:204-232 | a lane that trips, recovers by a success and trips again: the second trip is unreported in memory and reported in SQL |
| Breaker.InMemoryHealthStore.RecordOutcome | packages/engine/src/breaker.ts:204-232 | the branches of the store compute the next row of the history model and touch no other lane |
| Breaker.InMemoryHealthStore.ResetLane | packages/engine/src/breaker.ts:234-253 | a reset lane is closed with no failures and no trip time |
| Protocol.MayStopAnywhere | packages/engine/src/run.ts:1337-1340 | every prefix of a history that can happen can happen: a process may crash at any await |
| Protocol.FirstPaid | packages/engine/src/ports.ts:317-328 | a look-up finds a payment made for this very request, and none exactly when there is none |
| OneWorker.WritesAreFactual | packages/engine/src/run.ts:1016-1031 | what all allowed writes share: a table step, nothing of the evidence dropped, terms fixed once opened, settlement recorded only from a reference in hand |
| OneWorker.SameRequest | packages/engine/src/run.ts:1486-1492 | a process resumed under an unchanged hash rebuilds exactly the request the first one submits |
| OneWorker.PaymentFindStep | packages/engine/src/run.ts:785-802 | a look that finds nothing proves nothing landed, because everything landed is for the request looked for |
| OneWorker.InvHolds | packages/engine/src/run.ts:278-875 | the invariant tying the stored row to the chain holds after every history of crashes and resumes |
| OneWorker.SettlementIsKept | packages/engine/src/run.ts:817-835 | a recorded settlement, its reference and its amount survive every later write |
| Safety.AtMostOnePayment | packages/engine/src/run.ts:785-802 | where no retryable failure lands late, and what has landed can be looked up or was reported, at most one payment lands or can still land for a key, lost and late responses included; whatever lands or can still land goes to the deposit address on the row, with its memo and memo type, for its settlement amount, in the settle asset of the manifest it was claimed under |
| Safety.AtMostOneSuccess | packages/engine/src/run.ts:803-816 | at most one submit is ever answered with success, with or without `findExisting` |
| Safety.SettledAsOwed | packages/engine/src/run.ts:817-835 | whatever a row says was settled, paid by this process or found by a later one, goes where the row says, with its memo, for its amount, in the settle asset of the claim's manifest |
| Safety.RowIsOfItsClaim | packages/engine/src/run.ts:463-474 | a row stays the key's own, for the corridor and under the manifest hash it was claimed with |
| Safety.RetriesAreBounded | packages/engine/src/verbs.ts:464-481 | all processes together submit at most max_retries + 1 times and back off at most 5000 ms per retry |
| Safety.AtMostOneRefund | packages/engine/src/run.ts:1096-1145 | one worker at a time: the chain is asked for a refund at most once, of a payment that landed, for exactly its amount |
| Safety.RefundsFollowThePolicy | packages/engine/src/run.ts:1157-1163 | one worker at a time: a refund is asked for only if some call carried a `refund_sender` manifest, under an unchanged manifest the run's own; a run refunded with no settlement on its row was pinned to one, or the anchor reported the refund |
| Safety.RefundIdOnlyAtTheEnd | packages/engine/src/run.ts:1096-1148 | a refund id on a row means a terminal row; no resumed live run carries one |
| Safety.AtMostOneOutcome | packages/engine/src/run.ts:259-276 | one worker at a time: one key tells the breaker at most one outcome, after its run ended, a success only for a completed one |
| Safety.UnderOneManifest | packages/engine/src/run.ts:1384-1416 | one worker at a time: as long as the manifest's hash stays the same, money moved by a truthful submitter without a recorded settlement sits in `settling`, and no settled run has failed unless the manifest says `manual` |
| Safety.SettledRunsEndWell | packages/engine/src/run.ts:1036-1163 | one worker at a time: under an unchanged manifest a settled run fails only with manual rollback, completes only on the anchor's word, is refunded only with a refund id or the anchor's full report |
| Safety.MovedMoneyIsRecorded | packages/engine/src/run.ts:817-835 | one worker at a time: with a truthful submitter, money that moved or may move is on the row, or the row still says `settling`; only a manifest changed meanwhile can have failed it first |
| Checked.PaidOnlyAfterChecks | packages/engine/src/run.ts:642-816 | every submit has behind it, since the process started or last submitted, a gate that let through the quote on the row, a look that found nothing, a clock reading before a firm quote's deadline, and the drawn deposit |
| Checked.FreshDryRunsMoveNothing | packages/engine/src/run.ts:746-764 | a fresh dry run never looks, submits, confirms, refunds or draws a deposit |
| Checked.DryRunsPayNothing | packages/engine/src/run.ts:1545-1551 | where every call is a dry run no money moves, given a gate or a submitter that cannot look |
| Witnesses.PaysTwice | packages/engine/src/run.ts:785-816 | a payment reported as a retryable failure is made again, where it lands only later or, without `findExisting`, has landed |
| Witnesses.OnePaymentExactly | packages/engine/src/run.ts:785-816 | one worker at a time: a key can pay twice exactly when the manifest allows a retry and a retryable failure can land later, or can have landed and cannot be looked for |
| Witnesses.LostPayment | packages/engine/src/run.ts:1091-1155 | one worker at a time: a run can end refunded with the payment out, no settlement, no refund id and no report of one, exactly under `refund_sender` with a submitter whose failures need not be the truth |
| Witnesses.UnrecordedMoneyExactly | packages/engine/src/run.ts:803-835 | one worker at a time: under an unchanged manifest a finished run can leave a landed payment unrecorded exactly when a reported failure need not be the truth, whatever the submitter can look up |
| Witnesses.LosesPayment | packages/engine/src/run.ts:803-816 | the history in which a payment that landed, or lands later, but was reported as a failure ends the run by its rollback policy with nothing on its row |
| Witnesses.ResumedDryRunPays | packages/engine/src/run.ts:1341-1353 | a dry run that is called again after a crash pays |
| Witnesses.DryRunsPayExactly | packages/engine/src/run.ts:1545-1551 | calls that are all dry runs can pay exactly when there is no gate and the submitter can look |
| Interleaving.OnlyTheWinnerPays | packages/engine/src/run.ts:463-474 | with a gate, or a submitter that cannot look, every submit of every interleaving comes from the one process whose claim won |
| Interleaving.ConcurrentCallersPayOnce | packages/engine/src/run.ts:1545-1551 | with a gate, or a submitter that cannot look, under any interleaving and crashes: at most one submit succeeds, at most max_retries + 1 are made, at most one payment exists or is under way where a process can tell what became of the last submit, and each is for what the winner of the claim agreed, in Postgres for what the row says |
| Interleaving.EveryPaymentIsAsAgreed | packages/engine/src/run.ts:1486-1492 | whatever any process pays in any interleaving, gate or not: it goes to the winner's deposit address with its memo, memo type and amount, in the settle asset of the claim's manifest; in Postgres the row says the same |
| Interleaving.ConcurrentPaymentExactly | packages/engine/src/run.ts:1545-1551 | concurrent callers can pay twice exactly when there is no gate and the submitter can look, or one process alone could |
| Interleaving.TwoResumersPayTwice | packages/engine/src/run.ts:1341-1353 | the two resumers that do it |
| Interleaving.TwoWorkersRefundTwice | packages/engine/src/run.ts:1113-1145 | under `refund_sender` two processes resuming one settled run can both ask for its refund |
| Interleaving.ConcurrentRefundsExactly | packages/engine/src/run.ts:1113-1163 | concurrent callers of one manifest can ask for two refunds exactly when it says `refund_sender` |
| Interleaving.RefundsFollowThePolicy | packages/engine/src/run.ts:1157-1163 | under one manifest no interleaving asks for a refund unless it says `refund_sender` |
| Interleaving.TheRowOnlyMatures | packages/engine/src/idempotency-pg.ts:321-390 | in Postgres the row only matures, however the workers' writes interleave |
| Endings.ConcurrentSettledRunsEndWell | packages/engine/src/run.ts:1036-1163 | whatever runs at the same time under one manifest: a row that says what was settled fails only under `manual`, completes only on the anchor's word and is refunded only with a refund id or its report; in SQL with a submitter that cannot look, or a gate and truthful failures, in memory always |
| Endings.LandedMoneyIsRecorded | packages/engine/src/run.ts:803-835 | whatever runs at the same time under one manifest, no finished SQL row leaves out a landed payment, with a truthful submitter that cannot look and no deposit to draw (or a gate and `manual`) |
| Races.FailsWhileTheWinnerPays | packages/engine/src/run.ts:1521-1545 | a second caller that reads `verifying`, looks in vain and finds the quote lapsed or the route untrusted fails the row; the winner's `settling` comes too late for it, and it pays |
| Races.StaleFailureInMemory | packages/engine/src/idempotency.ts:146-154 | in memory a caller that read the row before it was opened fails it after the payment went out |
| Races.TermsAreKeptExactly | packages/engine/src/idempotency.ts:146-154 | the row says what each payment was for, in every interleaving under one manifest, exactly in Postgres |
| Races.ParkedWhileTheWinnerPays | packages/engine/src/run.ts:1472-1484 | without a gate, a caller by whose clock the quote of a funded run has lapsed parks it while the winner settles unseen |
| Races.RecoveredWhileTheWinnerPays | packages/engine/src/run.ts:1426-1449 | a caller for whom the deposit falls through starts to recover the run, a third parks the recovery, and the winner, for whom it arrives, pays unseen |
| Races.LeftOutExactly | packages/engine/src/run.ts:1341-1612 | concurrent callers of one manifest can leave a finished row with a landed payment unrecorded exactly in memory, or with a submitter that can look or is not truthful, or for a corridor that draws a deposit, unless it has a gate and rolls back by hand |
| Races.RefusedOverPaid | packages/engine/src/run.ts:1591-1612 | without a gate, of two resumers that submit one records its payment and the other, refused, writes `refunded` over it |
| Races.RefusedOverFound | packages/engine/src/run.ts:803-816 | a submit reported as failed lands; another caller finds and records the payment, and the first ends the run as `refunded` over it |
| Races.OverwrittenExactly | packages/engine/src/idempotency-pg.ts:337-390 | concurrent callers of one manifest can overwrite a recorded settlement with `refunded` and no refund to show for it exactly under `refund_sender`, in SQL, with a submitter that can look, unless there is a gate and failures are truthful |
| Races.TwoWorkersTellTwice | packages/engine/src/run.ts:259-276 | two callers that resume one settled run both complete it and both tell the breaker |
| Races.ToldTwiceExactly | packages/engine/src/run.ts:259-276 | concurrent callers of one manifest can tell the breaker of one key twice exactly when there is a breaker |
| Outside.World.Get | packages/engine/src/run.ts:394 | a process sees the row as decoded, goes live on an unfinished one and is done with a finished one |
| Outside.World.Create | packages/engine/src/run.ts:463-474 | the claim wins exactly when there is no row |
| Outside.World.FindExisting | packages/engine/src/ports.ts:317-328 | payments under way may land first; then an answered look-up is the truth about all that landed, and a payment that was there before stays the one found; a failed one tells nothing and changes nothing |
| Outside.World.Arrive | packages/engine/src/run.ts:785-802 | any number of payments under way reach the chain between two calls: none is lost or invented, and nothing else changes |
| Outside.World.SubmitPayment | packages/engine/src/ports.ts:58-72 | an accepted submit paid and leaves its reference in hand; a refused one did nothing, unless the submitter may misreport or be late, and then it paid this request once or still may |
| Outside.World.RequestRefund | packages/engine/src/ports.ts:329-342 | a refund call is booked whether or not it is accepted |
| RunContexts.StoryGoesOn | packages/engine/src/run.ts:1016-1031 | trail and audit entries keep telling one story of legal steps with rising versions |
| RunContexts.RunContext.Advance | packages/engine/src/run.ts:1016-1031 | moves exactly if the table allows it, stores the next version, extends trail and audit together, tells nobody else |
| RunContexts.RunContext.NoteDeposit | packages/engine/src/run.ts:624-626 | stores the deposit reference as the next version, with no transition on the trail |
| RunContexts.RunContext.RecordOutcome | packages/engine/src/run.ts:259-276 | tells the breaker success for a completed run, failure for one that ended on one of the eight lane codes, and nothing otherwise |
| RunContexts.RunContext.Die | packages/engine/src/run.ts:1173-1200 | fails the run with the error on its row and the breaker told, or changes nothing if the table forbids it |
| RunContexts.RunContext.HoldAndStop | packages/engine/src/run.ts:1036-1052 | parks the run with the error on its row, keeps its settlement, and has the breaker judge the given cause |
| RunContexts.RunContext.AwaitAnchorRefund | packages/engine/src/run.ts:1062-1090 | waits for the refund the anchor announced, asks the chain for nothing, ends refunded on its report and held otherwise |
| RunContexts.RunContext.RecordAnchorRefund | packages/engine/src/run.ts:1075-1085 | keeps the anchor's payment id unless one is on record, and ends refunded |
| RunContexts.RunContext.RefundAndStop | packages/engine/src/run.ts:1054-1155 | asks the chain exactly for the recorded payment in full and only where one is recorded on-chain, not yet asked back and not the anchor's to refund; an off-chain settlement is held; nothing to reverse is recorded as refunded |
| RunContexts.RunContext.RefundOnChain | packages/engine/src/run.ts:1113-1145 | one refund call if the amount is on record, refunded if it was accepted, held otherwise |
| RunContexts.RunContext.FinishFailure | packages/engine/src/run.ts:1159-1163 | ends the run as the rollback policy says, with at most the one refund call that policy asks for |
| FreshRuns.BuiltAsRecorded | packages/engine/src/verbs.ts:86-100 | the request a fresh pass submits goes to the opened transaction's deposit address with its memo and memo type, for the quoted amount of the settle asset, and is the one its row rebuilds |
| FreshRuns.ConfigProblem | packages/engine/src/run.ts:500-562 | a route fits exactly if the adapter is compatible, a public corridor's route is attested or trusted by opt-in, and there is a quote source that binds the anchor |
| FreshRuns.QuoteRun | packages/engine/src/run.ts:564-574 | records exactly the provider's quote, unless it is an error or a firm quote already past its deadline |
| FreshRuns.ComplyRun | packages/engine/src/run.ts:576-584 | goes on only with a cleared customer, or an anchor that asks for none |
| FreshRuns.OpenRun | packages/engine/src/run.ts:586-597 | records exactly the opened transaction's payment terms |
| FreshRuns.DepositSource | packages/engine/src/run.ts:620-636 | goes on only with a named deposit that arrived, opening one only if the row names none |
| FreshRuns.FundRun | packages/engine/src/run.ts:612-637 | without a sending side the run fails; with one it is funded only by the deposit on its row |
| FreshRuns.CheckPass | packages/engine/src/run.ts:644-674 | a pass goes on only within the timeout, before a firm quote's deadline and with a quote that can be settled as it is |
| FreshRuns.PassGate | packages/engine/src/run.ts:676-775 | a pass reaches settlement only past a passing gate, not as a dry run, and with the quote's deadline looked at again |
| FreshRuns.StillBinds | packages/engine/src/run.ts:765-775 | settlement is entered only with a clock reading before a firm quote's deadline |
| FreshRuns.HoldOrDie | packages/engine/src/run.ts:711-719 | a failed check parks a run whose deposit was taken and fails any other |
| FreshRuns.HoldOrFinish | packages/engine/src/run.ts:659-667 | an expired quote parks a run whose deposit was taken and ends any other by its rollback policy |
| FreshRuns.Settle | packages/engine/src/verbs.ts:130-161 | pays only by the strategy for the instructions' kind and corridor; a reference is for exactly the row's request |
| FreshRuns.TrySettle | packages/engine/src/run.ts:785-802 | an existing payment is taken instead of paying; a failed look-up ends the run |
| FreshRuns.FinishSettlement | packages/engine/src/run.ts:817-864 | completes only with the opened transaction's and quote's own terms recorded as settled, checked on the chain if there is a verifier, and the anchor's word |
| FreshRuns.VerifySettled | packages/engine/src/run.ts:837-842 | a settlement the chain does not confirm ends the run by its rollback policy |
| FreshRuns.RecordRef | packages/engine/src/run.ts:817-836 | what is recorded as settled is the opened transaction's address and memo, the quoted amount of the settle asset, and the reference with its kind and hash |
| FreshRuns.ReconcileAndComplete | packages/engine/src/run.ts:843-874 | the anchor's word alone decides whether a settled run completes |
| FreshRuns.Recover | packages/engine/src/run.ts:803-816 | tries again exactly for a retryable error with retries left; gives up refunded, held or failed by the rollback policy, with no refund call for a payment it has no record of |
| FreshRuns.SettleLoop | packages/engine/src/run.ts:639-866 | terminates; a completed run settled the quoted amount of the settle asset to the opened transaction's address with its memo, and any other end had a cause |
| FreshRuns.FreshRun | packages/engine/src/run.ts:476-875 | completes only with a fitting route, a cleared customer, a drawn deposit and that settlement behind it; if every answer is as hoped for and it is no dry run, it completes |
| ResumedRuns.Resume | packages/engine/src/run.ts:1341-1716 | if every answer is as hoped for, a run whose payment is recorded or can be found completes and a recovery ends refunded; a recovery never asks for a refund; a run carried on from its settlement completes only on the chain's yes where the chain can be asked and is parked on its no, and the payment it made or found is the one its row asks for |
| ResumedRuns.TurnAway | packages/engine/src/run.ts:1362-1371 | without a route a run that moved no money is failed and any other left exactly as it is; the breaker hears of neither |
| ResumedRuns.ManifestHasChanged | packages/engine/src/run.ts:1398-1399 | decides by the recomputed hash whether the run is pinned to another manifest |
| ResumedRuns.RefuseChanged | packages/engine/src/run.ts:1401-1410 | a changed manifest fails a run that has not settled, recoveries included, and the breaker does not hear of it |
| ResumedRuns.ResumeSettlement | packages/engine/src/run.ts:1460-1494 | a payment that can be found is recorded; a row with fields missing, or a submitter that cannot look, leaves the run and its history as they were, or parked if its quote lapsed while it was funded |
| ResumedRuns.AdoptPayment | packages/engine/src/run.ts:1511-1520 | an existing payment is recorded instead of paying, unless the deposit it needs is not on record |
| ResumedRuns.Resubmit | packages/engine/src/run.ts:1521-1596 | never pays when a settlement may be in flight, there is a gate, or a public corridor's route is trusted by nobody |
| ResumedRuns.WalkToSettling | packages/engine/src/run.ts:1496-1509 | walks to `settling` by legal steps, changing nothing but state and version |
| ResumedRuns.RecordFound | packages/engine/src/run.ts:1597-1612 | records exactly the request and reference in hand as settled |
| ResumedRuns.SubmitResumed | packages/engine/src/run.ts:1591-1612 | pays from `settling` only, records an accepted payment, and otherwise ends refunded, held or failed by the rollback policy |
| ResumedRuns.ResumeReconcile | packages/engine/src/run.ts:1614-1657 | a settled row that says what was settled completes on the anchor's word; where there is a verifier the chain is asked exactly about on-chain settlements whose request is on record, the run completes only on its yes, and is held on its no |
| ResumedRuns.ResumeRefund | packages/engine/src/run.ts:1666-1713 | carries a recovery on without ever asking for a refund, and has the breaker judge the stored failure if it counts against a lane and a reconcile mismatch if not |
| ResumedRuns.WaitForRefund | packages/engine/src/run.ts:1685-1713 | ends refunded on the anchor's full report and held otherwise, the breaker judging the stored cause |
| Engine.Refusal | packages/engine/src/run.ts:313-391 | nothing refuses a call exactly when it has a gate or the opt-out, an amount that is positive, within the corridor's limits and, on a corridor that is not proven, at most the canary amount or else the engine's own cap, and a corridor that may run there |
| Engine.Admit | packages/engine/src/run.ts:393-474 | an open lane refuses only a new key, with nothing asked of anyone; an existing row is answered or resumed with all that a resumption promises, open lane or not; a claimed run always ends |
| Engine.Continue | packages/engine/src/run.ts:395-417 | a completed key answers with its run and any other finished one with a conflict, asking nothing of anyone; an unfinished one is never refused, and gets all that a resumption promises |
| Engine.Execute | packages/engine/src/run.ts:278-875 | a refused call asks nothing of any port and leaves nothing behind; any other keeps every limit, the cap of an unproven corridor among them; an open lane refuses only new keys, creates no row, and never keeps a run from being resumed to its end; a claimed run always ends, tells one story and answers for its final state; a completed one has everything behind it, a resumed one the chain's yes where it can be asked |
| Engine.SafeAtEveryMoment | packages/engine/src/run.ts:278-875 | wherever the processes of a world stopped: at most one success, refund and outcome, and at most one payment where a process can tell what became of the last submit |
| Reconcile.ReconcileUntil | packages/engine/src/verbs.ts:230-362 | stops at the first poll that is final, stalls or comes too late, with the verdict that poll deserves in this order and none before it deserved one, and waits as specified in between |
| Reconcile.JudgesWell | packages/engine/src/verbs.ts:260-332 | the loop's counters judge a poll as the whole tape does: settled, terminal, external stall, poll stall, deadline, in this order |
| Reconcile.FailedPollsDoNotStall | packages/engine/src/verbs.ts:266-285 | failed polls neither count nor reset, and never complete a stall |
| Reconcile.SteadyAnswersStall | packages/engine/src/verbs.ts:266-285 | an anchor that always gives the same answer stalls the loop exactly from the poll after `threshold` answers on, or from that many on if it says "unknown" |
| Reconcile.TurnKeepsPace | packages/engine/src/verbs.ts:333-361 | each wait is the base interval, or doubles within an unchanged external phase up to the cap |
| Reconcile.ExternalWaitsDouble | packages/engine/src/verbs.ts:333-361 | while the anchor waits for someone outside and says nothing new, the wait after the n-th such answer is 2^n times the base interval, up to a minute or the base, whichever is more |
| Reconcile.OtherWaitsAreTheBase | packages/engine/src/verbs.ts:333-361 | outside an external phase every wait is the base interval |
| Reconcile.PollingEnds | packages/engine/src/verbs.ts:320-362 | a decision within ceil((deadline - start) / pollMs) + 1 polls plus one per wake-up |
| Reconcile.WatchRefund | packages/engine/src/verbs.ts:381-427 | reports a full refund exactly when the first poll that reports one or is too late reports a complete one |
| Wakers.InMemoryWaker.AddEventListener | packages/engine/src/ports.ts:100-103 | registers one more listener for that transaction, once, and leaves every other and every delivered wake alone |
| Wakers.InMemoryWaker.RemoveEventListener | packages/engine/src/ports.ts:104-106 | removes exactly that listener, and nothing else changes |
| Wakers.InMemoryWaker.Wake | packages/engine/src/ports.ts:113-119 | sets the flag of that transaction and no other, leaves the listeners registered, and calls exactly those of that transaction |
| Wakers.NoWakeUpIsLost | packages/engine/src/verbs.ts:337-357 | with one running loop per transaction a woken loop is not asleep, and its next step starts a poll or returns |
| Wakers.AWakeIsHeeded | packages/engine/src/verbs.ts:337-357 | after a wake of its transaction a running loop is never asleep until its own next step, by which it polls again or returns |
| Wakers.EachWakeSparesOneSleep | packages/engine/src/verbs.ts:337-357 | a loop's waits are skipped or cut short at most as often as its transaction is woken, whatever else happens and however many loops there are |
| Wakers.PollingEndsDespiteWakes | packages/engine/src/verbs.ts:320-362 | a loop decides within ceil((deadline - start) / pollMs) + 1 polls plus one for every `wake()` of its transaction |
| Wakers.TwoLoopsLoseAWake | packages/engine/src/ports.ts:89-120 | from every reached state two running loops on one transaction can lose a wake-up, with no further loop started |
| Wakers.WakesAreLostExactly | packages/engine/src/verbs.ts:337-357 | where no two loops have shared a transaction until now, a wake-up can be lost without a further loop exactly when two running loops share one now |
| Domain.IsCanonicalDomainBytes | contracts/attester/src/lib.rs:169-190 | the contract's walk accepts exactly dot-joined labels within 253 bytes |
| Domain.IsCanonicalLabelBytes | contracts/attester/src/lib.rs:196-215 | upper case passes the end checks but no label |
| Domain.IsCanonicalDomainText | packages/probe/src/domain.ts:39-51 | the mirror accepts a string exactly when the contract accepts its UTF-8 bytes |
| Domain.IsCanonicalLabelText | packages/probe/src/domain.ts:21-28 | the mirror's label check over code units |
| Domain.JoinedIsSegmented | packages/probe/src/domain.ts:30-38 | walking segments and joining labels describe the same strings |
| Domain.OneSpelling | contracts/attester/src/lib.rs:150-168 | no two accepted domains differ only by case, and none is another with a trailing dot |
| Registries.CheckReceiveAssets | contracts/registry/src/lib.rs:339-355 | the nested loops find the first thing wrong with a list |
| Registries.AssetProblem | contracts/registry/src/lib.rs:332-355 | nothing is wrong exactly with a bounded list of fitting codes none of which comes twice |
| Registries.SepsFor | contracts/registry/src/lib.rs:590-599 | the loop decodes the bitmap |
| Registries.DecodedExactly | contracts/registry/src/lib.rs:588-599 | a SEP number is decoded exactly when its bit is set |
| Registries.DecodingIsFaithful | contracts/registry/src/lib.rs:99-105 | two accepted bitmaps that decode alike are equal |
| Registries.PutAnchorStaysSound | contracts/registry/src/lib.rs:400-466 | the list of domains stays the set of records, bounded, without repetition, and every record well formed |
| Registries.PutMetaStaysSound | contracts/registry/src/lib.rs:479-525 | metadata only stands beside a record, with a good asset list and country |
| Registries.StoredAssetsAreDistinct | contracts/registry/src/lib.rs:332-355 | no stored asset list is over its bound or names an asset twice |
| Registries.BumpChangesNoFact | contracts/registry/src/lib.rs:527-550 | a bump changes lifetimes only |
| Registries.PassedWasRun | contracts/registry/src/lib.rs:165-169 | a probe stored as passed is stored as run |
| Registries.PutAnchorExtends | contracts/registry/src/lib.rs:319-330 | an accepted record extends its own entry and the instance to at least what an extension leaves at the least, and no metadata entry |
| Registries.Registry.PutAnchor | contracts/registry/src/lib.rs:400-466 | accepted exactly from the writer, on live entries, with known bits, no probe passed that was not run and room for the domain; then the record is exactly the call's seps, toml hash, probes and attester with the ledger of the call, and no other record or metadata changes; refused with nothing changed |
| Registries.Registry.PutMeta | contracts/registry/src/lib.rs:479-525 | accepted exactly from the writer, on live entries, beside a record, with a list and country in order; then the metadata is exactly the call's assets, country and attester with its ledger, and nothing else stored changes |
| Registries.Registry.Bump | contracts/registry/src/lib.rs:538-550 | accepted exactly for a recorded domain with live entries, and changes no fact |
| Registries.Registry.Staleness | contracts/registry/src/lib.rs:608-611 | the age of a record, zero when the clock is behind it |
| Registries.Registry.Serves | contracts/registry/src/lib.rs:624-637 | yes exactly when the SEP is advertised and its probe passed |
| Attesters.Attester.CheckSubmission | contracts/attester/src/lib.rs:256-282 | refuses exactly whoever is not enrolled or was removed, then any other spelling than the canonical one, then whoever comes before the cooldown is over |
| Attesters.Attester.Attest | contracts/attester/src/lib.rs:356-389 | an accepted attestation is from a member, is stored in the registry as given under the signer's name and starts its cooldown; a refused one changes neither contract |
| Attesters.Attester.AttestMeta | contracts/attester/src/lib.rs:402-431 | the same for metadata, refused here before the registry is asked |
| Attesters.ContractsStayCoupled | contracts/attester/src/lib.rs:356-431 | over every call sequence both contracts agree on when each domain was attested, the registry stays sound, and no two recorded domains differ only by case |
| Attesters.IntrudersAreRefused | contracts/registry/src/lib.rs:409-414 | the registry takes nothing from anyone but its attester |
| Attesters.RejectedCallsChangeNothing | contracts/attester/src/lib.rs:356-431 | a rejected call leaves both contracts as they were |
| Attesters.ClocksAreIndependent | contracts/attester/src/lib.rs:101-107 | neither cooldown ever blocks the other half |
| Attesters.AttestationsAreSpaced | contracts/attester/src/lib.rs:267-281 | two accepted attestations of a domain lie at least the interval then in force apart |
| Facts.OnlyTheEnrolledAttest | contracts/attester/src/lib.rs:433-456 | over every call sequence an attestation is let past the membership check exactly if the owner's last word on its signer was yes, or there was none and it was a member at the start; a removed or never enrolled signer is refused with both contracts unchanged |
| Facts.MembersAreTheEnrolled | contracts/attester/src/lib.rs:262-265 | whoever the storage calls a member is whom the calls enrolled last |
| Facts.RecordsSayWhatWasLastAttested | contracts/registry/src/lib.rs:440-450 | over every call sequence a domain's record says what its last accepted attestation said, at that call's ledger, under that call's signer |
| Facts.MetasSayWhatWasLastAttested | contracts/registry/src/lib.rs:503-510 | the same for its assets and country |
| Facts.NothingIsSaidUnattested | contracts/attester/src/lib.rs:356-431 | fresh contracts say nothing of a domain for which nothing was ever accepted |
| Attesters.NothingExpires | contracts/registry/src/lib.rs:38-51 | from the first write on, with every domain bumped at gaps of at most the threshold, or one ledger more on a host that extends at exactly the threshold too, no entry expires |
| Attesters.NoCallMeetsAnArchive | contracts/registry/src/lib.rs:527-550 | so no call is turned away for an archived entry |
| Attesters.SafeGapsExactly | contracts/registry/src/lib.rs:145-153 | over all histories of fresh contracts the gaps between bumps that keep everything alive are exactly those: for every longer one there is a history bumped in time by it in which a record lapses |

## Left out

- Custom settlement strategies, and corridors that need a path payment: the default strategies are modelled, the rest decline.
- Concurrency and the imperative methods: `Engine.Execute` runs against a world with one process at a time; the interleavings are of the protocol its methods are proved to follow.
- The text of the error a caller gets back from a run of its own: the stored `lastError` and the breaker's cause are modelled, the returned value is only the run.
- Error codes and messages of a failed gate check: any code, the check's own logic is an oracle.
- Polling inside the engine: `Engine` takes the verdict of the reconcile and refund loops as an answer; the loops themselves are in `Reconcile.dfy` over a finite tape.
- Decimal money strings, their scale and comparison: integers in stroops.
- Schema validation and YAML: an arbitrary function from the manifest read as a map to the settings.
- SHA-256: its text; collisions are not considered.
- Rows written before the manifest hash or the settlement columns existed: decoding and the hash check cover them, the histories start from rows this engine wrote.
- HTTP, Horizon, Soroban RPC, SEP clients, signing: oracles.
- An accepted source deposit without an id: taken as a refused one.
- Logging, metrics, alerting, audit details beyond state and version.
- Contract administration, upgrade and re-pointing the registry at another attester: the host's authorisation is one comparison of addresses.
- Lifetimes of the attester's own entries, and restoring archived ones: a lapsed marker blocks calls rather than the cooldown.
- Ledger numbers and amounts are unbounded; saturating subtraction is written out.
- The breaker's `MeteredCorridorHealthStore` counters: reports are counted over a history instead.
