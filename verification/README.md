# LedgerProof in Dafny

A model of LedgerProof's money path and of the harness that attacks it, with
proofs. The system takes Stripe webhooks at least once, in any order, and keeps
a double-entry ledger in which every money movement stands exactly once. The
project follows the code: each module names the file it models.

| module | what it models |
|---|---|
| `Ledger`, `Mapping`, `Fixtures` | chart of accounts, derived balances, what the database commits, the mapping of events to transactions, the harness's fixtures and their ground-truth deltas |
| `Protocol`, `Invariant`, `Safety`, `Drain`, `Convergence`, `Shortfall` | ingest, broker and workers as a step protocol in which every step is one database or queue operation, with crashes and redeliveries between any two |
| `Payloads` | what each event books, said of its payload's own fields: the types that post, the amount, the fee, the object, the currency |
| `HappyPath`, `Mishaps` | runs of that protocol, step by step: the one without a fault, and those that end where they should not |
| `Service` | the same operations as methods over one event log, ledger and queue; every effect of theirs is a step of the protocol |
| `Gate`, `Signature` | what the webhook checks first; the header's printer and fail-closed parser |
| `Faults`, `Deliveries`, `Verdict`, `PlanEffects`, `PlanSound` | fault plans, what of them passes the gate, the verdict on a run, and the proof that the pipeline meets every plan |
| `Recon`, `ReconExpected`, `ReconStripe` | loading the ledger, and both reconcilers |
| `Repair` | which ledger damage a balanced repair can undo |
| `Gcra`, `Limiter`, `LimiterLock` | the rate limiter: the rule, the call over expiring keys, and many callers under an expiring lock |
| `Shed` | the load shedder |
| `Reorder` | the proxy's reorder buffer |
| `Wrappers`, `Sums` | options and results, finite sums |

`dafny verify dfyconfig.toml` checks everything, with no other options. Lemmas carry
`{:induction false}` throughout, so that each proof is the one written; `hide`
statements keep definitions a proof does not need away from the solver.

What the model takes as given:

- HMAC-SHA256 is a function of secret, timestamp and body that yields a hex
  string. Only where a changed body must be refused is it also taken to tell that
  body from the one signed.
- `uuid5` is injective, and no approved repair carries an id it could make.
- The fee Stripe reports for an event is a function of the event.
- An event id names one event, and events that share type and money object map
  to the same entries (`Safety.Coherent`, used by the results on twins). This
  excludes refund payloads without a refunds list that share a charge id, whose
  identity falls back to the charge.
- The broker does not lose messages; a raised task is acknowledged, so a retry
  is a message of its own.
- The database refuses a commit with fewer than two entries, an unknown account,
  an amount that is not positive, a currency other than the account's, or
  unequal debits and credits in a currency.
- JSON writing and parsing are functions that invert each other on the events
  sent (`Deliveries.SaneSite` shows such a site exists). Times are reals or
  integers, pressure is a real.

Where the code and its documentation part, the model follows the code:

- `repair_is_balanced` is documented as what the database would accept. It also
  accepts accounts that do not exist and other currencies;
  `Repair.DatabaseAccepts` says exactly what is missing, and
  `Repair.UnknownAccountScores` shows a repair the score counts as restoring
  although no repair the database takes could.
- A `processed` row can become `failed`, because the worker's UPDATE is
  unguarded. `Safety.ProcessedLostOnlyToDeadLetter` says by which step, and no
  other; `Mishaps.ProcessedBecomesFailed` is such a run, and it ends with the
  money posted. What never changes is that a worker-written status stays one
  (`Safety.StatusStable`).
- When the write of `failed` itself raises, the message is gone and the row is
  still `queued`. `Mishaps.QuietIsNotEnough` is such a run on concrete states: it
  ends quiet, every event answered 200, no row failed, and the charge missing
  from the balances. `Safety.NoLoss` has a case for it,
  `Safety.RedeliveryRecovers` and `Mishaps.StrandedRecovers` show the next
  delivery repairs it, `Convergence.DrainedSettles` says which rows to look at,
  and `Shortfall.MatchesIffPosted` when the balances are right all the same.
- The limiter's lock can expire under a slow holder. `LimiterLock` proves the
  sequential behaviour for holders within the lock's time to live; with
  `LimiterLock.InOrderIffNotOvertaken` exactly when any run, slow holders
  included, has it; ownership of the lock in every run; and with
  `LimiterLock.SlowHolderDoubleAdmits` a run that exceeds the rate.
- A dropped event is reported only if it moves money: `PlanSound.PlanSoundness`
  has that as part of an if-and-only-if.

## Model

| member | source | states |
|---|---|---|
| Ledger.GapIsNet | src/ledgerproof/ledger/invariant.py:21-35 | the invariant's difference over the derived balances is the ledger's debits minus its credits, whatever the entries |
| Ledger.BalanceOfLedger | migrations/001_ledger.sql:52-59 | an account's balance over all entries is the sum of what each transaction does to it |
| Ledger.Conservation | src/ledgerproof/ledger/invariant.py:60-75 | any ledger of committed transactions passes the global invariant check |
| Mapping.EntriesBalanceOut | src/ledgerproof/stripe_io/mapping.py:157-191 | every mapped transaction balances in its currency, for any amount and fee |
| Mapping.CommitsIffSound | src/ledgerproof/stripe_io/mapping.py:121-200 | the database commits a mapped transaction if and only if its amounts are sound for the event type (0 <= fee <= gross, positive amounts) and it is in the chart's currency |
| Payloads.ChargePosts | src/ledgerproof/stripe_io/mapping.py:94-168 | a charge books its gross less the fee to the Stripe balance, the fee, and the gross as revenue, and nothing else; the fee is the expanded reference's, and the one fetched where the payload's is a bare id or absent |
| Payloads.DisputePosts | src/ledgerproof/stripe_io/mapping.py:110-187 | a dispute books its amount as lost and the fee, which is the sum over its references where all are expanded and otherwise the one fetched, and takes both from Stripe |
| Payloads.RefundPosts | src/ledgerproof/stripe_io/mapping.py:169-181 | a refund books the newest refund's own amount, and amount_refunded exactly where the list lacks it |
| Payloads.PayoutPosts | src/ledgerproof/stripe_io/mapping.py:188-191 | a payout moves its amount from Stripe to the bank |
| Payloads.ChargeAsks | src/ledgerproof/stripe_io/mapping.py:94-107 | a charge without a fee in its payload asks for one, by the bare id it carries if any |
| Payloads.DisputeAsks | src/ledgerproof/stripe_io/mapping.py:110-118 | and so does a dispute with a bare reference or none, naming the first bare one |
| Payloads.ChargeMoves | src/ledgerproof/worker/handlers.py:60-69 | the worker posts every whole charge, with the payload's fee, and the fetched one exactly where the payload has none |
| Payloads.DisputeMoves | src/ledgerproof/worker/handlers.py:60-69 | and every whole dispute |
| Payloads.BuildsExactlyWhole | src/ledgerproof/stripe_io/mapping.py:121-200 | with the fee supplied an event is mapped if and only if its payload carries the fields of its type, and to no transaction only for the invoice |
| Payloads.MovedObject | src/ledgerproof/stripe_io/mapping.py:46-75 | a refund moves money as its newest refund, any other event as the object it carries |
| Payloads.OtherCurrencyNeverCommits | src/ledgerproof/stripe_io/mapping.py:154-161 | what commits is in US dollars, in either case; no other currency's transaction ever does |
| Protocol.OnlyFourTypesMove | src/ledgerproof/worker/handlers.py:33-58 | only charge.succeeded, charge.refunded, charge.dispute.created and payout.paid move money; payment_intent.succeeded never does |
| Payloads.LedgerHoldsFourTypes | src/ledgerproof/worker/handlers.py:33-58 | in every reachable ledger each transaction made from an event is of one of those four types, the type of its own row |
| Fixtures.Delta | harness/events.py:83-89 | the loop sums signed lines per account and skips zero amounts |
| Fixtures.PostedBalance | harness/events.py:78-89 | posting a fixture's lines and summing its delta agree on every account |
| Fixtures.FixtureAgrees | harness/events.py:158-456 | for every kind, amount and fee, a fixture's ground-truth delta is exactly the non-zero effect of the transaction the mapping builds from its payload, and its money object is the maker's |
| Invariant.AttemptAppends | src/ledgerproof/ledger/post.py:89-144 | one attempt appends its transaction only if no unique key is taken and the triggers accept it, and otherwise leaves the ledger as it was; it reports a duplicate only when a key is taken |
| Invariant.AttemptTells | src/ledgerproof/ledger/post.py:89-144 | which outcome an attempt reports, and when it appends, in terms of the fault met, the keys free, the accounts known and the triggers |
| Invariant.ConflictMeansCovered | src/ledgerproof/worker/handlers.py:70-88 | a violation of any of the three unique keys means the event's movement is already in the ledger |
| Invariant.StepAdvances | src/ledgerproof/worker/handlers.py:113-144 | no step drops a row, changes its payload, takes a worker-written status back, or removes a transaction |
| Invariant.RowChange | src/ledgerproof/ingest/dedupe.py:54-98 | only ingest's insert of an event that meets neither dedupe key adds a row, as received |
| Invariant.LiveUntilSettled | src/ledgerproof/worker/tasks.py:56-101 | a live message stays live until its row has a worker's verdict or its dead-letter write has failed |
| Invariant.StepKeepsInv | src/ledgerproof/worker/handlers.py:44-144 | the whole invariant (rows, traffic, ledger, statuses, answers) is kept by every step |
| Invariant.ReachableInv | src/ledgerproof/ingest/app.py:153-210 | it holds in every reachable state |
| Safety.NoLoss | src/ledgerproof/ingest/app.py:55-61 | in every reachable state an event answered 200 is in the ledger, moves no money, is dead-lettered, has a message with its row's payload, or (only after a failed dead-letter write) sits in a row the next delivery re-enqueues |
| Safety.StatusTruth | src/ledgerproof/worker/handlers.py:76-88 | a processed row has its own transaction, the one its payload maps to; an ignored row moves no money and has none |
| Safety.StatusStable | src/ledgerproof/ingest/dedupe.py:100-112 | along any run a worker-written status never returns to received or queued, and no transaction goes away |
| Safety.DuplicateOnlyWhenDone | src/ledgerproof/ingest/app.py:181-199 | every duplicate ever answered in a reachable state was answered for a row that stands for the event and is terminal, and remains so after any further run |
| Safety.ProcessedLostOnlyToDeadLetter | src/ledgerproof/worker/handlers.py:113-144 | a processed row changes status in a step if and only if the step writes the dead letter of another delivery of its own event, and then to failed |
| Safety.AtMostOnce | src/ledgerproof/ledger/post.py:60-144 | no two transactions of a reachable ledger stand for one verified event, racing workers and twin event ids included |
| Safety.MoneyConserved | src/ledgerproof/ledger/invariant.py:60-75 | every reachable ledger, approved repairs included, passes the global invariant |
| Safety.RedeliveryRecovers | src/ledgerproof/ingest/app.py:182-198 | a redelivery that meets a row not yet done runs to a 200 and leaves a message with the stored payload and the row queued |
| Drain.WorkBounded | src/ledgerproof/worker/tasks.py:56-101 | in any run the worker steps number at most the starting measure plus a fixed allowance per message added or put back |
| Drain.DrainTerminates | src/ledgerproof/worker/tasks.py:81-101 | a worker run without refills ends within the measure: six attempts a message, five serialization attempts in each |
| Drain.WorkPossible | src/ledgerproof/worker/tasks.py:56-101 | and ends only drained: while a message is queued or held some worker step without a fault can be taken |
| Drain.DrainRecovers | src/ledgerproof/worker/tasks.py:56-101 | from any reachable state a run of worker steps without a fault drains everything within the measure and leaves each event that had a message processed with its money posted, ignored without any, or failed; and not failed if the event can be done and nobody had given it up |
| Convergence.FirstsStep | src/ledgerproof/ingest/dedupe.py:54-98 | an event repeats, by either key, an earlier event of the stretch if and only if its insert meets a row |
| Convergence.RecordedAreFirsts | src/ledgerproof/ingest/dedupe.py:68-98 | the rows an insert leaves are exactly the events that repeat no earlier one, payload for payload |
| Convergence.Settles | src/ledgerproof/worker/handlers.py:44-88 | over any interleaving from a quiet state, once the new rows are settled the ledger has grown by exactly one transaction per distinct movement received, under the id of the first event to bring it, and by the approved repairs |
| Convergence.DrainedSettles | src/ledgerproof/ingest/app.py:181-210 | a drained state in which every event received was answered 200 is settled if and only if no new row is failed and none is both stranded and open; an open one reads queued |
| Convergence.OrderIrrelevant | src/ledgerproof/stripe_io/mapping.py:46-64 | the reference total depends on which events were delivered, not on their order or repetition |
| Convergence.Convergence | src/ledgerproof/ingest/app.py:181-210 | whatever the delivery order, duplication, twin ids, crashes and redeliveries, every drained run that answered every event, with no row failed and no stranded row still open, has balances equal to the sum of the mapped deltas, each distinct (type, money object) counted once, plus approved repairs |
| Shortfall.ShortfallIsExact | src/ledgerproof/worker/handlers.py:44-88 | at every moment of every run, settled or not, each account is short of the events' deltas and the repairs by exactly what the movements not yet in the ledger would add |
| Shortfall.CommittedWeighs | src/ledgerproof/stripe_io/mapping.py:157-191 | every movement the database commits raises the total of bank, refunds, dispute losses, fees and revenue, so no two omissions cancel |
| Shortfall.MatchesIffPosted | src/ledgerproof/ingest/app.py:55-61 | over sound amounts, all balances are what the events and repairs come to if and only if each distinct movement has its own transaction |
| Shortfall.MissingShows | src/ledgerproof/worker/tasks.py:81-101 | where a movement is missing from a drained state that answered every event, its row is failed, or queued and stranded |
| Shortfall.ConvergedIffPosted | src/ledgerproof/ingest/app.py:181-210 | in any run from the start the balances are those of the events, in whatever order listed, if and only if each distinct movement has its own transaction |
| HappyPath.NewEventNoConflict | src/ledgerproof/ledger/post.py:89-144 | the transaction of an event no row stands for meets none of the three unique keys |
| HappyPath.DeliveredSettles | src/ledgerproof/ingest/app.py:153-210 | one new money event delivered to any quiet pipeline with a worker has a run that answers 200 and ends quiet, with exactly its transaction appended and its row processed |
| Mishaps.Strands | src/ledgerproof/worker/tasks.py:81-101 | from any quiet pipeline, an event answered 200, tried six times in vain and its dead letter refused leaves a quiet state with the row queued, no message and the ledger as it was |
| Mishaps.SixTries | src/ledgerproof/worker/tasks.py:81-101 | an event that never succeeds is taken by a worker exactly six times |
| Mishaps.QuietIsNotEnough | src/ledgerproof/worker/tasks.py:94-100 | a concrete run that ends quiet, answered and without a failed row, yet with balances other than the event's |
| Mishaps.StrandedRecovers | src/ledgerproof/ingest/app.py:182-198 | after it the next delivery posts the money, and the state it ends in is clear although the row stays among the stranded |
| Mishaps.ProcessedBecomesFailed | src/ledgerproof/worker/handlers.py:113-144 | a run in which a processed row, its money posted, ends failed |
| Mishaps.EmptyChargeIsInvisible | src/ledgerproof/stripe_io/mapping.py:157-168 | a charge of nothing maps to a transaction that never commits and whose absence no balance shows, so sound amounts are needed |
| Service.TriggersAccept | migrations/001_ledger.sql:95-139 | one pass over the entries accepts exactly what the database commits |
| Service.LookUpAccounts | src/ledgerproof/ledger/post.py:96-105 | finds an unknown account, or is struck by a fault, or every account is known |
| Service.Stack.InsertEntries | src/ledgerproof/ledger/post.py:120-132 | the open transaction gains every entry in order, or the loop stops at a refused row or a fault |
| Service.Stack.AttemptCommit | src/ledgerproof/ledger/post.py:89-144 | lookups, inserts and commit, struck by any fault at any statement, with the rollback: the ledger and the outcome are those of the protocol's atomic attempt, nothing stays open, and unless posted or cut off after the commit the ledger is unchanged |
| Service.PostsOnceOrNot | src/ledgerproof/ledger/post.py:60-86 | the retry loop adds the transaction once or not at all; posted means it did, a duplicate that a key was taken, and giving up that all five attempts conflicted |
| Service.FiveConflicts | src/ledgerproof/ledger/post.py:60-86 | posting gives up on conflicts if and only if all of exactly five attempts met one |
| Service.Stack.CheckAndRecord | src/ledgerproof/ingest/dedupe.py:54-98 | inserts a received row unless a row has the id or holds the same type and money object, and otherwise reports the blocking row, the id match first; the protocol's insert step |
| Service.Stack.MarkQueued | src/ledgerproof/ingest/dedupe.py:100-112 | advances received to queued and nothing else |
| Service.Stack.Webhook | src/ledgerproof/ingest/app.py:181-210 | answers queued only after a message with the new event's or the blocking row's payload was enqueued and the row marked, duplicate exactly where the row with the event's id is processed, without money, or failed (or, without such a row, only for a twin's row in one of these), an error when the enqueue or the mark raised, with what each had done by then; stays among the reachable states |
| Service.Stack.MarkStatus | src/ledgerproof/worker/handlers.py:113-144 | writes the status to the row with the id, payload kept; inserts one where there is none, unless another row holds its type and money object |
| Service.Stack.PostTransaction | src/ledgerproof/ledger/post.py:60-86 | the loop's ledger and outcome are those of the retry specification, each attempt a protocol step |
| Service.Stack.HandleEvent | src/ledgerproof/worker/handlers.py:44-110 | ignores unhandled types, fetches a missing fee, posts, treats a duplicate as done, and writes the status, all as protocol steps; any event but a charge, refund, dispute or payout leaves the ledger as it was |
| Service.Stack.GiveUpOrRetry | src/ledgerproof/worker/tasks.py:81-101 | publishes a retry with one more count while retries are left, and otherwise writes failed |
| Service.Stack.ProcessEvent | src/ledgerproof/worker/tasks.py:56-101 | takes a message, handles it and acknowledges it, whatever fails in between |
| Gate.Admit | src/ledgerproof/ingest/app.py:153-179 | a body over 512 KiB, a signature not accepted within 300 s, a body that is not JSON, and one that is no event are refused in this order, each with its own error; everything else passes as the event it parses to |
| Gate.PassedWasSigned | src/ledgerproof/ingest/app.py:157-166 | nothing passes the gate without a v1 digest of these bytes under the endpoint's secret and a timestamp within tolerance |
| Signature.Verify | src/ledgerproof/stripe_io/signature.py:77-143 | accepts a non-empty body if and only if every header item is well formed, exactly one is an integer timestamp, it is within tolerance, and some v1 value equals the digest; an empty body and a malformed item have their own refusals |
| Signature.AcceptsSpelled | src/ledgerproof/stripe_io/signature.py:77-143 | the same in characters: what a well-formed item, a timestamp item and the matching item literally are |
| Signature.SplitJoin | src/ledgerproof/stripe_io/signature.py:74-106 | splitting a header joined from comma-free items gives the items back |
| Signature.IntRoundTrip | src/ledgerproof/stripe_io/signature.py:74-116 | a printed timestamp parses back to itself |
| Signature.PrintedAccepted | src/ledgerproof/stripe_io/signature.py:44-143 | what verify makes of any header sign can print, for any secrets, schemes and body |
| Signature.SignPrints | src/ledgerproof/stripe_io/signature.py:44-74 | the header is the timestamp, then one v1 item per secret in order, then the v0 item if asked for |
| Signature.SignedIsAccepted | src/ledgerproof/stripe_io/signature.py:44-143 | a header signed with the endpoint's secret in any position is accepted exactly within tolerance |
| Signature.NoDowngrade | src/ledgerproof/stripe_io/signature.py:110-128 | a header without v1, whatever correct v0 it carries, is never accepted |
| Signature.ChangedBodyRefused | src/ledgerproof/stripe_io/signature.py:135-143 | a header signed over one body does not pass another with a different digest |
| Faults.FlipOneByte | harness/faults.py:150-165 | the loop finds the data key and flips the first digit from there |
| Faults.FlipChangesOneDigit | harness/faults.py:150-165 | the tampered body differs in one byte, the first digit in the event's data, which becomes the next digit, nine becoming zero; it fails only if there is none |
| Faults.SumDeltas | harness/faults.py:173-181 | the nested loop computes the summed delta of the posted fixtures without zeros |
| Faults.TotalsAre | harness/faults.py:173-181 | that is, per account, the sum over the fixtures whose id is posted |
| Deliveries.ForgedRefused | harness/faults.py:408-462 | a tampered, truncated, back-dated or downgraded delivery is refused by the signature check and by nothing else |
| Deliveries.PassingIsCarried | harness/faults.py:229-499 | for every fault, the events that pass the gate are exactly those the plan carries, in order, repetitions and twin included; every delivery the plan expects refused is |
| Faults.PlanSends | harness/faults.py:229-499 | how many deliveries each fault makes, and for which event ids, in order |
| Faults.PlanSwitches | harness/faults.py:229-499 | which fault sets which switch, delay, hold, kill time, expected refusal and reason, and that no other does |
| Faults.PlanBackdates | harness/faults.py:340-449 | a back-dated delivery is the whole body signed the fault's age ago, or a minute past the tolerance |
| Faults.PlanTampers | harness/faults.py:408-432 | what replaces a signed body: its first half, or one digit of its data changed, under the header of the body signed |
| Faults.PlanErrs | harness/faults.py:244-441 | each argument error is raised exactly under its own condition |
| Verdict.DetectBreaks | harness/runner.py:97-177 | reports nothing if and only if the books balance, the observed change is the expected one, no refused id posted or was answered with success, no refusal had the wrong reason, every expected id posted, no more transactions than expected, the queue drained, a drop was reported and ingest responded; each failure of these is reported as its own kind, and nothing else is, most severe first |
| PlanEffects.CarriedFirsts | harness/faults.py:229-499 | whatever a plan repeats, reorders or twins comes down to the fixtures it means to record, each once |
| PlanEffects.PlanPosts | harness/faults.py:253-496 | every plan expects exactly its intended money fixtures to post |
| PlanEffects.PlanExpects | harness/faults.py:253-496 | and the balances to move by their summed deltas |
| PlanEffects.CommittedHasDelta | harness/faults.py:168-170 | a fixture whose transaction commits has a non-empty expected delta |
| PlanEffects.ExpectedIsIntended | harness/faults.py:173-181 | the expected change of each account is the sum over the intended money fixtures, and there are as many as posted ids |
| PlanSound.ScenarioRecords | harness/runner.py:388-455 | a scenario appends one transaction per intended money fixture, whatever the interleaving |
| PlanSound.DiffAgrees | harness/runner.py:184-188 | the observed non-zero balance changes equal the expected ones as a map |
| PlanSound.RowsAgree | harness/runner.py:224-231 | the transactions found for the candidate ids are the expected ones, one each |
| PlanSound.ObservedPosted | harness/runner.py:224-231 | what an observation counts: one for each transaction of a candidate event, duplicates included, and the ids among them |
| PlanSound.ObservedRest | harness/runner.py:438-478 | the balance changes, the invariant, the queue and the refusals it reports, in terms of the two states and the replies |
| PlanSound.AcceptingIs | harness/runner.py:456-466 | a bad delivery counts as accepted if and only if it was answered 2xx |
| PlanSound.MisRefusedIs | harness/runner.py:468-478 | and as wrongly refused if and only if it was answered 4xx with another reason |
| PlanSound.ForgeriesRefused | harness/runner.py:456-478 | no delivery meant to be refused is answered 2xx, and none is refused by the wrong layer |
| PlanSound.DropReports | harness/runner.py:480-492 | for a drop the reconciler reports a missing event if and only if some fixture moves money |
| PlanSound.PlanSoundness | harness/runner.py:368-525 | for every fault and every list of distinct fixtures, any interleaving of the plan's deliveries run to a settled state is judged without a break if and only if ingest stayed responsive and, for a drop, some fixture moves money |
| PlanSound.DrainedPlanSoundness | harness/runner.py:388-455 | the same of any run that was waited for until quiet, with every event that got through answered 200, no new row failed and no stranded one open: settling is derived |
| PlanSound.SlowDeliveryRuns | harness/faults.py:482-496 | the premises of plan soundness can be met: a slow delivery of any new fixture the database would take has such a run |
| PlanSound.ChargeRuns | harness/faults.py:482-496 | and a site, a fixture and a run that meet them exist |
| Deliveries.SaneSite | harness/faults.py:184-192 | a digest and a codec with the properties taken for granted exist for any fixtures |
| Recon.LoadLedger | src/ledgerproof/recon/reconciler.py:104-155 | the grouping loop over the query's rows yields one summary per transaction, in order |
| Recon.GroupingSummarises | src/ledgerproof/recon/reconciler.py:127-155 | grouping loses no row and adds none to the wrong transaction: each summary is the transaction's non-zero deltas and its debit total |
| Recon.SidesCover | src/ledgerproof/recon/reconciler.py:122-126 | the per-account debit sums of a transaction add up to its debit total, and the credit sums differ from it by its net |
| ReconExpected.Magnitude | src/ledgerproof/recon/reconciler.py:158-164 | half the L1 norm of a delta |
| ReconExpected.MagnitudeOfDelta | src/ledgerproof/recon/reconciler.py:158-164 | for a committed transaction that is at most its debit total, with equality if and only if no account is both debited and credited |
| ReconExpected.CompareDeltas | src/ledgerproof/recon/reconciler.py:254-272 | one mismatch per account on which expected and recorded delta differ, and no other |
| ReconExpected.ReconcileExpected | src/ledgerproof/recon/reconciler.py:187-289 | reports exactly the missing events, differing accounts and unexpected transactions, each once, and counts the distinct events compared |
| ReconExpected.MismatchSays | src/ledgerproof/recon/reconciler.py:252-269 | an account's mismatch carries the first expectation's amount as wanted and the transaction's as found, and appears exactly where they differ |
| ReconExpected.MissingSays | src/ledgerproof/recon/reconciler.py:227-250 | an event without a transaction is missing if and only if its first expectation moves anything, with half of what it moves |
| ReconExpected.UnknownSays | src/ledgerproof/recon/reconciler.py:271-286 | a transaction is unexpected if and only if no expected event has its event id |
| ReconExpected.DiffIsExact | src/ledgerproof/recon/reconciler.py:187-222 | there is no diff break if and only if each distinct expected event has the same non-zero delta as its transaction, absence counting as zero, and no other transaction exists |
| ReconExpected.CleanDiffBalances | src/ledgerproof/recon/reconciler.py:193-212 | without a diff break every account's balance is the sum of the expected deltas, each distinct event counted once |
| ReconStripe.IterBalanceTransactions | src/ledgerproof/recon/reconciler.py:292-315 | asks for no cursor twice, follows each page's last id, stops only at the last page, at a page without an id, or at a cursor that does not advance, and yields the pages asked for |
| ReconStripe.CrawlYieldsAll | src/ledgerproof/recon/reconciler.py:292-315 | over any listing, whatever the page sizes, it yields every balance transaction once, in order |
| ReconStripe.ReconcileStripe | src/ledgerproof/recon/reconciler.py:325-442 | the loops over candidates and the matched set report, with these numbers and nothing else: an amount or a fee of a balance transaction that differs from that of the ledger transaction it is held against, one with nothing to be held against, the ledger transactions of an object beyond its balance transactions, and a failed currency check |
| ReconStripe.ReportSays | src/ledgerproof/recon/reconciler.py:325-442 | the same in terms of ranks: the j-th balance transaction of an object is held against its j-th ledger transaction, or its first where there are fewer |
| ReconStripe.SilenceMeansAgreement | src/ledgerproof/recon/reconciler.py:366-423 | if no missing, amount or fee break is reported, every balance transaction has a ledger transaction on its object with exactly its amount and fee |
| ReconStripe.BreakCounts | src/ledgerproof/recon/reconciler.py:366-440 | with m ledger transactions and k balance transactions on an object, min(m, k) are matched, k are missing in the ledger if m = 0 and none otherwise, and max(0, m - k) are missing in the source |
| ReconStripe.NetIsAmountMinusFee | src/ledgerproof/recon/reconciler.py:336-348 | for every event type, amount and fee the mapped change to the Stripe balance is the counterpart's amount minus its fee |
| ReconStripe.MappedLedgerIsClean | src/ledgerproof/recon/reconciler.py:325-442 | a committed ledger the mapping built from events on distinct objects has no breaks against their counterparts, in any order |
| Repair.RepairIsBalanced | src/ledgerproof/triage/schema.py:94-108 | true if and only if there are two entries, every direction is known and every currency nets to zero |
| Repair.ApplyRepair | src/ledgerproof/triage/bench.py:159-174 | each listed account moves by its signed entries, an unknown one not at all, and no zero is kept |
| Repair.RepairRestoresExpectedBalances | src/ledgerproof/triage/bench.py:177-191 | true if and only if the repair is balanced and brings every account to its expected balance |
| Repair.DatabaseAccepts | src/ledgerproof/triage/schema.py:94-108 | the database takes a repair if and only if the stand-in does and every entry is on the chart and in its currency |
| Repair.BalancedKeepsGap | tests/unit/test_repair_algebra.py:64-78 | a balanced repair moves the invariant gap by exactly what it posts on unknown accounts, so over the chart not at all |
| Repair.MirrorRepairs | tests/unit/test_repair_metric.py:133-156 | when the gaps agree and the balances differ, the mirror of the surplus is a balanced repair of at least two entries, and it succeeds |
| Repair.RepairableIffSameGap | src/ledgerproof/triage/bench.py:177-191 | a repair the database takes that restores the expected balances exists if and only if the two ledgers have the same gap and agree off the chart |
| Repair.ScoreIgnoresGap | src/ledgerproof/triage/bench.py:168-171 | a repair scored as restoring exists if and only if the ledgers agree off the chart, whatever their gaps |
| Repair.UnknownAccountScores | src/ledgerproof/triage/bench.py:168-171 | a concrete ledger no accepted repair can fix, with a refused repair that scores as fixing it |
| Gcra.RateBound | src/ledgerproof/limits/gcra.py:136-137 | two admitted calls with n admissions after the first are at least (n - burst + 1) * T apart, even if the clock steps back |
| Gcra.WindowBound | src/ledgerproof/limits/gcra.py:195-220 | at most burst + floor(W / T) calls are admitted in any window of length W |
| Gcra.ColdKeyAdmitsBurst | src/ledgerproof/limits/gcra.py:14-18 | a cold key admits exactly burst calls at one instant |
| Gcra.RemainingIsExact | src/ledgerproof/limits/gcra.py:228-233 | remaining is the number of further calls that would be admitted at that instant |
| Gcra.RetryIsExact | src/ledgerproof/limits/gcra.py:195-206 | a denied caller is admitted from now + retry_after on and no earlier, however many denied calls come between |
| Gcra.ExpiryIsLate | src/ledgerproof/limits/gcra.py:209-212 | a stored arrival time expires more than tolerance + 0.999 s after itself |
| Gcra.ExpiryIsSoon | src/ledgerproof/limits/gcra.py:209-212 | and is kept no more than a second, and more than 0.999 s, beyond the time it could matter |
| Limiter.Acquire | src/ledgerproof/limits/gcra.py:151-160 | the loop ends at the first try that is not taken or at the first after the deadline, with that try's answer |
| Limiter.GCRALimiter.Create | src/ledgerproof/limits/gcra.py:116-142 | a limiter is built exactly for a positive rate and period and a burst of at least one, with an emission interval of period / rate and a tolerance of burst - 1 of them |
| Limiter.GCRALimiter.Check | src/ledgerproof/limits/gcra.py:170-226 | the answer and the new state are those of a limiter whose keys never expire; a lock busy for 0.05 s denies and moves nothing; when the store fails a fail-open limiter admits with its full rate remaining and a fail-closed one denies with the emission interval to wait, and the arrival time moves only if the write landed; counters count |
| LimiterLock.UnexpiredHoldersExclude | src/ledgerproof/limits/gcra.py:65-79 | in every run, slow holders included, a caller within the lock's time to live holds it under its own token, so no two such callers exist |
| LimiterLock.ReleaseIsOwnerOnly | src/ledgerproof/limits/gcra.py:73-79 | in every run a release removes no lock but the releasing caller's own |
| LimiterLock.InOrderIffNotOvertaken | src/ledgerproof/limits/gcra.py:151-226 | in every run, slow holders, faults, lost replies and crashes included, the decisions and the stored arrival time are at every moment those of one sequential run on a key that never expires if and only if no deciding caller was overtaken: by a decision at a later clock, or by an arrival time moved past its own clock since it read |
| LimiterLock.UndisturbedIsSequential | src/ledgerproof/limits/gcra.py:151-226 | slow holders included: if nobody else decided between a caller's clock reading and its own decision, and it read the key within 0.999 s of the clock, the decisions of any interleaving with faults, lost replies and crashes are those of one sequential run on a key that never expires, at non-decreasing times |
| LimiterLock.UndisturbedNotOvertaken | src/ledgerproof/limits/gcra.py:151-226 | such callers are never overtaken |
| LimiterLock.DisturbedInOrder | src/ledgerproof/limits/gcra.py:65-67 | the converse fails: a concrete run in which a caller is disturbed and no harm is done |
| LimiterLock.TimelyIsUndisturbed | src/ledgerproof/limits/gcra.py:65-79 | holders that do not outlive their lock are never disturbed so |
| LimiterLock.ConcurrentIsSequential | src/ledgerproof/limits/gcra.py:151-226 | so if no holder outlives its lock the decisions are sequential |
| LimiterLock.UndisturbedRateBound | src/ledgerproof/limits/gcra.py:151-226 | undisturbed callers together stay within burst + floor(W / T) in every window |
| LimiterLock.ConcurrentRateBound | src/ledgerproof/limits/gcra.py:151-226 | and so do concurrent callers none of whom outlives the lock |
| LimiterLock.SlowHolderDoubleAdmits | src/ledgerproof/limits/gcra.py:65-67 | a run with one slow holder in which two calls 0.6 s apart pass a limit of one a second |
| Shed.LoadShedder.Observe | src/ledgerproof/limits/shed.py:115-146 | one observation moves level and counters as the hysteresis rule says, or nothing but the pressure when switched off |
| Shed.TargetIsReached | src/ledgerproof/limits/shed.py:112-113 | with ordered thresholds the target exceeds a tier if and only if the pressure reaches that tier's threshold |
| Shed.TargetCounts | src/ledgerproof/limits/shed.py:112-113 | in whatever order the thresholds stand, the target is the number reached |
| Shed.LoadShedder.ShouldShed | src/ledgerproof/limits/shed.py:148-179 | sheds exactly the tiers below the level when switched on and enforcing, and counts each decision once, a dark launch included |
| Shed.MorePressureShedsMore | src/ledgerproof/limits/shed.py:112-146 | of two runs, the one under pointwise at least the pressure sheds every tier the other sheds, at every step |
| Shed.FlapBound | src/ledgerproof/limits/shed.py:115-146 | escalations cost escalate_after samples and relaxations recover_after, and with the counters held they total no more than the samples |
| Shed.LevelInRange | src/ledgerproof/limits/shed.py:112-146 | the level stays between 0 and 4 |
| Shed.ChangeIsEarned | src/ledgerproof/limits/shed.py:115-146 | a level change ends a full streak of samples on one side of the old level |
| Shed.ClimbsOnTime | src/ledgerproof/limits/shed.py:123-132 | constant pressure above the level reaches its target after exactly (target - level) * escalate_after samples less the counter held, and stays |
| Shed.SinksOnTime | src/ledgerproof/limits/shed.py:133-144 | and below it with recover_after |
| Reorder.ForwardedAtMostOnce | harness/proxy.py:433-461 | in every interleaving of submits, flushes and timeouts a plan is forwarded at most once, and exactly once if its submit has returned |
| Reorder.AllReturnedAllForwarded | harness/proxy.py:433-461 | once all submits return, every plan has been forwarded exactly once |
| Reorder.ClaimsAreFinal | harness/proxy.py:436-456 | a plan claimed by a flush or by its own timeout is never claimed again |
| Reorder.SenderIsClaimant | harness/proxy.py:441-456 | the party that forwards a plan is the one that claimed it |
| Reorder.FlushedInReverse | harness/proxy.py:437-445 | a submit that flushed and returned has forwarded its batch, exactly the flush size, in the reverse of arrival order |
| Reorder.FlushesAtSize | harness/proxy.py:433-445 | in every reachable state fewer plans than the flush size wait in the buffer |

## Left out

- HTTP, FastAPI, Celery, Redis, psycopg, sockets, process control and logs: each appears only as the atomic step it performs.
- SHA-256, JSON text and datetimes: functions with the properties named above; constant-time comparison is not a functional property.
- Signature.Verify: integers are canonical decimals with an optional minus sign; the other literals Python's `int()` takes are not modelled.
- Faults.FlipOneByte: the position it reports goes into a plan's `params` record, which, like the notes, is not modelled.
- PlanSound.MisRefusedIs: a reply's body is its error text, compared as a whole; the harness looks for the reason inside the response body.
- Verdict.DetectBreaks: the order of breaks of one kind (sorted by event id) is not modelled.
- ReconExpected.ReconcileExpected: the order of mismatches within one event (sorted by account name) and the detail text are not modelled.
- Recon.LoadLedger: the rows are those the query selected; its time and currency filters and its ordering are SQL's.
- ReconStripe.IterBalanceTransactions: the listing is fixed during the crawl and holds finitely many ids; against a server that invents fresh cursors for ever the loop would not end.
- PlanSound.PlanSoundness: every delivery that passes the gate reaches ingest once, no row of the scenario ends dead-lettered or open, and no operator acts meanwhile; whether ingest stays responsive is an observation handed in.
- Limiter.GCRALimiter.Check: the server clock does not run backwards across calls on this path and a GET lands within 0.999 s of the clock reading; `Gcra.RateBound` covers a clock that steps back.
- Reorder.ForwardedAtMostOnce: `_Reorderer.submit` is a state machine over its awaits, not a method, because submits interleave.
- Floating point: limiter times and pressure are reals, so nothing is said of float rounding or the rounded Retry-After header.
- Jitter and retry delays: a retry may run at any later time.
- The TAT key of one limiter key in `LimiterLock`: keys do not interact, so one is modelled.
- The LLM agent, prompts, batch schema, scoring beyond the repair metric, pricing and aggregation: plumbing and simple sums.
- The egress client, observability, configuration, secret scanner, migrations runner, test-clock kit, stack lifecycle: they follow from reading one function each or are I/O.
- The live proxy's other faults (`_live_plan`): they rewrite headers and bodies the plan builder already covers.
