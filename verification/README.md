# Verified models of the agent hub's protocols and folds

A Dafny model of the parts of the repository whose correctness cannot be read off one
function body: protocols that interleave at every `await`, streams that are cut and put
together again, and incremental folds that must agree with a simple definition.
`dafny verify dfyconfig.toml` checks the whole project.

| files | what they model |
|---|---|
| `HubStore`, `RunnerProtocol`, `RunnerInvariants`, `RunnerPermits`, `RunnerHistory`, `RunnerRuns`, `RunnerOwnership`, `RunnerTurns`, `RunnerTurnsExactly`, `RunnerDeliveries`, `RunnerRedelivery`, `RunnerOutcomes` | slots, claims and deduplication of a runner: the row operations as a class, the coroutines of `RunnerService` as a transition system with one action per stretch between two awaits, for any number of runners, instances and coroutines |
| `RelayQueue` | the webhook relay's bounded queue with its one-token notify channel |
| `ThreadRepair`, `ThreadStore` | rewriting a broken chat thread into one the provider accepts, and writing it back |
| `Decimal`, `Ledger`, `ReceiptMiddleware`, `Citations` | receipts from the tool message to the rendered ledger, the stamped snapshot, the strict reader, and the verdict on a report's citations |
| `SseStream`, `ActivityTurn` | the event stream printer and its chunked parser; the turn with replay and live subscribers |
| `Outbox`, `OutboxWorker` | the outbox worker under failures at any call, while transactions add rows at any time: the protocol, and the loop that runs it |
| `Blame`, `BlamePorcelain`, `BlameMetadata`, `BlameReduction` | the reduction of `git blame --porcelain`, against a printer of that format |
| `LoopDetection`, `TokenBudget` | the two middlewares that stop a run |
| `ActivityCollector`, `ActivityFold`, `ActivityTokens`, `ActivityShown` | from the run's stream to the user interface: tokens, and everything the nodes and work logs show |
| `SubagentContract` | the result holder, truncation and metadata of a delegation |

## What does not hold

Some promises fail on some inputs. Each of these has a lemma that shows the failure and one
that says when the code is right.

- A dictionary entry of a runner need not own its database row. `stop_instance` pops before
  it awaits, so a re-raise of the same id can win its claim first and the stop then takes the
  row down under the new entry; a hub-side down does the same. For each runner and instance,
  whatever happens to all others: a step keeps the entry's row, now and in every orderly
  continuation, if and only if the hub does not take down a row that is listed or about to
  be, and no claim is won while a stop is pending (`RunnerOwnership.OrderlyExactly`). The
  overlap is reachable (`RunnerTurns.OverlapIsReachable`).
- A turn need not hold its row. After any orderly run its object is listed, or awaited by the
  stop that popped it, if and only if the turn holds its row as long as it is under way, in
  every orderly continuation that cuts off no stop waiting for it
  (`RunnerTurnsExactly.TurnExactly`). From every reachable state in which neither holds, some
  such continuation takes the row away under the turn (`UncoveredLosesRow`); a turn that was
  waiting for the lock when the stop took it is one case (`RunnerTurns.RowlessTurnIsReachable`).
- Deliveries run at least once, not exactly once: `begin_event` comes before the instance
  lock. Two deliveries of a key can complete, the second with the key already processed
  (`RunnerDeliveries.SecondCompletionIsReachable`), but only if accepted before every mark
  (`AcceptedBeforeEveryMark`). A key completes at most once when no delivery is accepted
  while another of its key is live and none is cut off between completion and mark
  (`CompletesAtMostOnce`). Both conditions are exact: accepting beside a live delivery opens
  the way to a second completion (`AcceptExactly`), and so does a cut-off before the mark,
  unless the key is processed already, or no delivery of it is about to begin and every
  runner has lost all its permits (`RunnerRedelivery.LostMarkExactly`).
- Published ids can decrease and two rows can be published and unmarked at once, when a
  transaction with a lower id becomes visible late (`Outbox.LateRowGoesLast`, `TwoLoose`).
  Ids ascend exactly as long as every new row is above everything published and everything
  in the worker's batch, which is more than being above everything published
  (`TimelyExactly`); at most one row is published and unmarked exactly as long as every new
  row is above the batch and above a row whose mark is due (`ClearExactly`). That a marked
  row was published needs no condition (`AtLeastOnce`).
- Thread repair counts an answer anywhere in the thread as an answer. The result is accepted
  by the provider exactly when the existing answers sit right after their AI messages
  (`ThreadRepair.RepairAccepted`, `MisplacedAnswerStaysMisplaced`).
- The rendered ledger keeps its budget exactly from four characters up (`Ledger.BudgetHolds`).
- Payloads come back from the event stream exactly when none contains a newline
  (`SseStream.StreamRoundTrip`).
- `splitlines` also breaks at carriage returns, form feeds and other separators, which git
  leaves in names, subjects and source lines, so metadata and code can forge headers and
  metadata of other commits. For any content: the line counts are right exactly when no
  piece of a printed line looks like a header (`BlamePorcelain.CountsExactlyWhenNothingPoses`;
  a subject that forges one: `ForgedSummary`); a commit's metadata is its own exactly when,
  for every key, the first piece read under it that starts with the key carries its own value
  (`BlameReduction.OwnExactly`); and the reduction fails exactly when the author time read
  under a commit that is credited with lines, its own or forged, is no number
  (`BlameReduces`). With plain metadata and one code line it fails (`ForgedTimeRaises`); where
  nothing poses as a header and the metadata is plain it never does, and the answer is true
  (`PlainBlameReduces`).
- Truncation keeps its limit exactly from 16 characters up (`SubagentContract.TruncateFits`);
  below that, a slice from minus zero keeps the whole text. The shipped limit is 2000.
- With a budget of zero, the first reply without tool calls makes the token warning divide by
  zero (`TokenBudget.ZeroBudgetRaises`), and nothing else does (`Budget.AfterModel`).
- A stop that arrives while a frame is being persisted leaves a stored frame that no subscriber
  sees. What is stored and what is seen agree exactly when no emit is cut off
  (`ActivityTurn.Turn.SameExactly`).

## Model

| member | source | states |
|---|---|---|
| `HubStore.HubInstanceStore.ClaimInstance` | agent/infra/db/hub_store.py:62-84 | compare-and-set: the row goes to the runner exactly when it is down or already names it; otherwise nothing changes and the holder is told |
| `HubStore.HubInstanceStore.PeekHolder` | agent/infra/db/hub_store.py:86-102 | the four outcomes, without touching the row |
| `HubStore.HubInstanceStore.ReleaseInstance` | agent/infra/db/hub_store.py:104-115 | the row goes down exactly when the releasing runner runs it |
| `HubStore.HubInstanceStore.BeginEvent` | agent/infra/db/hub_store.py:117-129 | accepted exactly while the key is not processed; an upsert never clears a processed mark |
| `HubStore.HubInstanceStore.MarkProcessed` | agent/infra/db/hub_store.py:131-138 | marks the existing journal row of the key and no other |
| `RunnerInvariants.StructureStep` | agent/core/runner/service.py:112-341 | every step of every coroutine keeps the locks exclusive, every object its owner's, and a popped object out of the dictionary with one stopper |
| `RunnerPermits.PermitsConserved` | agent/core/runner/service.py:112-176 | in every interleaving the slots are the free permits, the raised instances, the permits in the hands of raisers and stoppers, and the stops of that runner that were cut off; nothing else loses a permit; `busy` never exceeds `slots` |
| `RunnerPermits.PermitsComeBack` | agent/core/runner/service.py:125-176 | once no coroutine of the runner holds a permit, every slot without an instance is free, less the stops cut off |
| `RunnerPermits.RaiseNeverOverwrites` | agent/core/runner/service.py:125-143 | a winning claim adds an entry under an id that is not in the dictionary, for an object nobody refers to |
| `RunnerPermits.BlockedOnlyByLocks` | agent/core/runner/service.py:112-341 | a coroutine of a reachable state is blocked exactly by an empty semaphore or a held lock |
| `RunnerPermits.LockHolderCanMove` | agent/core/runner/service.py:125-176 | whoever a lock names can move: no deadlock on a held lock |
| `RunnerHistory.ClaimsSeparated` | agent/core/runner/service.py:164-176 | two claims of one instance by different runners always have a release by the first or a hub-side down between them |
| `RunnerHistory.ReleaseIsQuiet` | agent/core/runner/service.py:164-176 | a release is issued under the lock of an object that is out of the dictionary, while no other coroutine is in a turn on it or stopping it |
| `RunnerHistory.MarkedOnlyWhenEarned` | agent/core/runner/service.py:211-280 | a key is marked only after that very delivery completed or was skipped without a code target, never after it was cancelled, dropped or failed; a marked key is never accepted again |
| `RunnerHistory.ProcessedIsMarkedAndRefused` | agent/core/runner/service.py:211-231 | processed means marked in this run, and `begin_event` then refuses and writes nothing |
| `RunnerOutcomes.JobDone` | agent/core/runner/service.py:112-341 | in every run a coroutine that is over and did not give up did its job: a delivery is marked, refused, or handed off after its row was seen in other hands; a chat had its turn and a raise found its instance listed, unless the row was in other hands; a stop found nothing listed or saw its row released |
| `RunnerOutcomes.TakenIsMarked` | agent/core/runner/service.py:211-280 | in every run a delivery accepted, skipped or completed whose coroutine is over is marked, unless it gave up |
| `RunnerOutcomes.GaveUpOnlyIfCut` | agent/core/runner/service.py:228-279 | a coroutine gives up only when it is cut off, or its context or turn fails |
| `RunnerOutcomes.ListedNeedsNoSlot` | agent/core/runner/service.py:112-124 | a chat or delivery for a listed instance goes on without a slot or the raise lock, whatever their state |
| `RunnerOutcomes.ForeignNeedsNoSlot` | agent/core/runner/service.py:219-224 | a delivery that sees its row in other hands is handed off without touching a slot |
| `RunnerDeliveries.AcceptedBeforeEveryMark` | agent/core/runner/service.py:228-278 | in every run whatever completes, a second time or the first, was accepted before any mark of its key |
| `RunnerDeliveries.CompletesAtMostOnce` | agent/core/runner/service.py:211-280 | a key completes at most once in every run in which no delivery is accepted while another of its key is live and none is cut off between completion and mark |
| `RunnerDeliveries.AcceptExactly` | agent/core/runner/service.py:228-231 | after any such run, accepting a delivery opens the way to a second completion if and only if another of its key is live |
| `RunnerDeliveries.BothComplete` | agent/core/runner/service.py:228-278 | two live deliveries of a key can both complete, wherever they stand and whoever holds the locks |
| `RunnerRedelivery.LostMarkExactly` | agent/core/runner/service.py:245-278 | after any clean run, cutting a completed delivery off before its mark leaves its key completing at most once, in every clean continuation, if and only if the key is processed, or no delivery of it is about to begin and every runner has lost all its permits |
| `RunnerRedelivery.CompletesAgain` | agent/core/runner/service.py:112-280 | otherwise a run is constructed that completes the key a second time, from any state of slots, locks and rows |
| `RunnerDeliveries.SecondCompletionIsReachable` | agent/core/runner/service.py:211-280 | from every initial state with a slot and a claimable instance a run whose history holds two completions of one key, the second after the key was marked |
| `RunnerOwnership.EntryOwnsRow` | agent/core/runner/service.py:112-176 | in a run that is orderly for one runner and instance, whatever happens to all others, the entry owns its row |
| `RunnerOwnership.RaisedOnce` | agent/core/runner/service.py:112-143 | no instance is raised by two runners that both keep order |
| `RunnerOwnership.OverlapLosesRow` | agent/core/runner/service.py:164-176 | a claim won while any stop of the instance is pending, waiting, behind a turn or inside the lock, can end with an entry whose row is down |
| `RunnerOwnership.DownLosesRow` | agent/core/runner/service.py:130-143 | so can a hub-side down of a row that is listed or about to be |
| `RunnerOwnership.OrderlyExactly` | agent/core/runner/service.py:112-176 | after any orderly run a step is orderly if and only if no orderly continuation leaves an entry without its row |
| `RunnerTurns.OverlapIsReachable` | agent/core/runner/service.py:112-176 | from every initial state with two slots and a claimable instance a raise comes to win its claim while a stop is pending |
| `RunnerTurns.TurnHoldsRow` | agent/core/runner/service.py:164-279 | in every orderly run a turn whose object is listed, or whose end a stop awaits, runs on a row its runner holds |
| `RunnerTurnsExactly.TurnExactly` | agent/core/runner/service.py:164-279 | after any orderly run, that is so if and only if the row is held as long as the turn is under way in every orderly continuation that cuts off no stop waiting for it |
| `RunnerTurnsExactly.UncoveredLosesRow` | agent/core/runner/service.py:112-279 | from every reachable state with a turn on an object neither listed nor awaited, some such continuation takes the row away under the turn |
| `RunnerTurns.WaitingTurnOutlivesRelease` | agent/core/runner/service.py:164-176 | in every reachable state with a stop at its release and a turn waiting for the lock, the turn can start on a row that is gone, its object neither listed nor awaited |
| `RunnerTurns.RowlessTurnIsReachable` | agent/core/runner/service.py:112-341 | such a turn is reached from every initial state with a slot and a claimable instance |
| `RelayQueue.Queue.Push` | tunnel/cmd/relay/main.go:38-49 | appends, keeps the newest records up to the limit, leaves one token |
| `RelayQueue.Queue.Drain` | tunnel/cmd/relay/main.go:51-57 | takes everything and empties the queue |
| `RelayQueue.NothingLost` | tunnel/cmd/relay/main.go:38-90 | in every interleaving of pushers and pullers: no lost wakeup; the records pushed leave in that order and once each; a reply is exactly what was taken out for it; only overflow evicts |
| `RelayQueue.WaitsUntilServed` | tunnel/cmd/relay/main.go:75-94 | in every interleaving only a pull that asked to wait waits, and it is answered with nothing only after its timer or client gave up, or a token made it look again |
| `RelayQueue.InternalTerminates` | tunnel/cmd/relay/main.go:45-48 | steps that need no outside help run out |
| `RelayQueue.QuiescentMeansServed` | tunnel/cmd/relay/main.go:79-90 | when none is left, no puller waits over a record |
| `ThreadRepair.RepairedMessages` | agent/core/runner/history.py:39-68 | the loop computes the repaired thread and the repair count: the messages inserted and those rewritten, zero exactly when the thread comes out unchanged |
| `ThreadRepair.AnswerCalls` | agent/core/runner/history.py:59-67 | one answer for each call nobody answered, in call order |
| `ThreadRepair.RepairAccepted` | agent/core/runner/history.py:39-68 | every call is answered right after its AI message and no truncated call is left, if and only if existing answers sit right after their AI messages |
| `ThreadRepair.MisplacedAnswerStaysMisplaced` | agent/core/runner/history.py:41-61 | a thread with an answer after another message is left as it is and not accepted |
| `ThreadRepair.OriginalsSurvive` | agent/core/runner/history.py:44-67 | erasing the inserted answers gives back the sanitized originals in order |
| `ThreadRepair.InsertedExactly` | agent/core/runner/history.py:59-67 | what is inserted is one cancellation for each call nobody answered, in call order, under the call's id and tool |
| `ThreadRepair.TextSurvives` | agent/core/runner/history.py:45-54 | exactly the AI messages with truncated calls are rewritten, and keep their id, calls and text, with the note behind it |
| `ThreadRepair.RepairedIsClean` | agent/core/runner/history.py:39-68 | after a repair every call is answered and nothing is truncated |
| `ThreadRepair.RepairIdempotent` | agent/core/runner/history.py:39-68 | repairing twice is repairing once, for every thread |
| `ThreadStore.Thread.AddMessages` | agent/core/runner/history.py:71-96 | the merge by id the append path relies on: known ids replace in place, unnamed messages go to the end under fresh ids |
| `ThreadStore.MintedIsNamed` | agent/core/runner/history.py:88-90 | the rewrite path writes the update message by message: all named, known ids kept, missing ones fresh and in order, nothing else changed |
| `ThreadStore.Thread.RepairDanglingToolCalls` | agent/core/runner/history.py:71-96 | both write paths leave the repaired thread; nothing is written when nothing is wrong; a second repair finds nothing |
| `ThreadStore.MintedKeepsRepair` | agent/core/runner/history.py:71-96 | the ids given on writing do not disturb the repair |
| `ThreadStore.MergedUnnamed` | agent/core/runner/history.py:86-90 | merging messages without ids is appending them |
| `Decimal.ParsePrint` | agent/core/subagents/receipts.py:34-35 | reading a printed number gives it back |
| `Decimal.PrintParse` | agent/core/subagents/receipts.py:140-150 | printing a numeral without leading zeros after reading it gives it back |
| `Decimal.PrintLength` | agent/core/subagents/receipts.py:47-49 | an id has at most k digits exactly when its number is below ten to the k |
| `Ledger.ExtractToolReceipts` | agent/core/subagents/receipts.py:106-121 | the valid stamped receipts in message order, numbered r1 to rN by position |
| `Ledger.ReceiptsInOrder` | agent/core/subagents/receipts.py:106-121 | the k-th receipt is that of the k-th stamped tool message, field by field |
| `Ledger.ReadLedger` | agent/core/subagents/receipts.py:132-157 | accepts exactly the lists of valid receipts whose ids count up by one, and returns them unchanged |
| `Ledger.ExtractCitingTurnReceipts` | agent/core/subagents/receipts.py:124-158 | reads the ledger of the last AI message that carries one, and nothing when that one is not strict |
| `Ledger.LastLedgerExactly` | agent/core/subagents/receipts.py:124-135 | the ledger read is the one that no later AI message replaces |
| `Ledger.IdPosition` | agent/core/subagents/receipts.py:139-150 | an id of the accepted form is the printed form of its position |
| `Ledger.DictRoundTrip` | agent/core/subagents/receipts.py:97-121 | a receipt survives the untyped dictionary |
| `Ledger.RenderToolReceipts` | agent/core/subagents/receipts.py:161-197 | text and snapshot as the budget dictates, computed line by line from the newest |
| `Ledger.KeepNewest` | agent/core/subagents/receipts.py:183-192 | the loop keeps the newest receipts while the next one still fits |
| `Ledger.SnapshotIsLongest` | agent/core/subagents/receipts.py:161-197 | the snapshot is exactly what is shown in full: all when all fits, else the longest run of newest receipts that fits with the omission line |
| `Ledger.BudgetHolds` | agent/core/subagents/receipts.py:193-197 | the text keeps its budget if and only if the budget is at least 4 (or the ledger is empty) |
| `Ledger.ClipKeepsHead` | agent/core/subagents/receipts.py:193-197 | a clipped ledger keeps its beginning, with the ellipsis on a line of its own |
| `Ledger.SampleLine` | agent/core/subagents/receipts.py:161-197 | what stands where on the line of a receipt |
| `ReceiptMiddleware.InjectLedger` | agent/core/middleware/tool_receipts.py:49-61 | the request is the thread as it stands with the ledger right after the leading system messages, or unchanged when there are no receipts; the snapshot is the receipts shown |
| `ReceiptMiddleware.ThreadIsKept` | agent/core/middleware/tool_receipts.py:49-61 | taking the ledger out of the request gives the whole thread back |
| `ReceiptMiddleware.StampResponse` | agent/core/middleware/tool_receipts.py:63-76 | every AI message of the reply carries the snapshot, nothing else changes |
| `ReceiptMiddleware.ShownConsecutive` | agent/core/middleware/tool_receipts.py:49-61 | the snapshot's ids still count up by one after the suffix selection |
| `ReceiptMiddleware.LedgerRoundTrip` | agent/core/middleware/tool_receipts.py:49-76 | for every thread and reply the strict reader returns exactly the receipts shown, or falls back to the last older ledger when none were shown or nothing could be stamped |
| `Citations.ParseCitations` | agent/core/subagents/receipts.py:42-55 | the citations of the text, left to right, without repeats in first-seen order |
| `Citations.MatchExactly` | agent/core/subagents/receipts.py:20-20 | a text starts with a citation exactly when a prefix of it is `[r` digits, a tool name behind blanks or none, `]` |
| `Citations.CitationNumber` | agent/core/subagents/receipts.py:44-55 | such a citation is read under the id of its number, however many zeros lead it, and dropped beyond ten digits |
| `Citations.DedupFirstSeen` | agent/core/subagents/receipts.py:44-55 | every citation once, none lost |
| `Citations.DedupPrefix` | agent/core/subagents/receipts.py:44-55 | more text only adds citations at the end |
| `Citations.FoundIsPrinted` | agent/core/subagents/receipts.py:38-55 | parsing citations printed between bracket-free prose gives them back in order; ids of more than ten digits are all it drops |
| `Citations.CitationRoundTrip` | agent/core/subagents/receipts.py:38-55 | the same, deduplicated |
| `Citations.VerifyReceiptCitations` | agent/core/subagents/receipts.py:257-295 | with multiplicity and in citation order: unknown are the cited ids that no receipt has; resolved those whose last receipt succeeded and is of the anchored tool, if any; the others fail, with the status or the mismatch as the reason; a report with citations passes exactly when all are resolved, one without exactly when it claims nothing that needs backing |
| `Citations.BackedByReceipt` | agent/core/subagents/receipts.py:258-280 | where ids are distinct, a citation is resolved exactly when some receipt has its id, succeeded, and is of the anchored tool |
| `Citations.VerdictPartitions` | agent/core/subagents/receipts.py:263-280 | resolved, failed and unknown together are the cited ids, none lost and none twice |
| `Citations.AllResolved` | agent/core/subagents/receipts.py:281-285 | no failure and no unknown if and only if every citation resolves |
| `Citations.HonestReportPasses` | agent/core/subagents/receipts.py:124-295 | from ledger through stamped reply and strict reader to verdict: a report that cites only receipts its model was shown passes exactly when every cited call succeeded |
| `SseStream.ReplayStream` | backend/internal/hub/app/instance.go:157-166 | one frame per payload and the final `done` |
| `SseStream.DrainBuffer` | frontend/src/api/hub/http.ts:211-222 | hands on every complete frame of the buffer and keeps the unfinished rest |
| `SseStream.StreamSSE` | frontend/src/api/hub/http.ts:204-223 | for every split into chunks, the events are those of the whole text, in order and once each; malformed payloads are skipped |
| `SseStream.ParsedAppend` | frontend/src/api/hub/http.ts:206-216 | parsing what is buffered and then the rest with more text is parsing it all |
| `SseStream.BreakIsFirst` | frontend/src/api/hub/http.ts:212-212 | the frame boundary found is the first blank line |
| `SseStream.DataLineExactly` | frontend/src/api/hub/http.ts:213-216 | the payload of a frame is what follows the prefix on its first line that starts with it |
| `SseStream.StreamRoundTrip` | frontend/src/api/hub/http.ts:204-223 | the parser gives back exactly the printed payloads and `done`, if and only if no payload contains a newline |
| `ActivityTurn.Turn.Persist` | agent/core/runner/activity.py:269-270 | a frame is persisted under the next number before any subscriber sees it |
| `ActivityTurn.Turn.CutOff` | agent/core/runner/activity.py:269-270 | a stop during that write uses the number up and no subscriber ever sees the frame |
| `ActivityTurn.Turn.SameExactly` | agent/core/runner/activity.py:266-273 | what was persisted and what subscribers see are the same, number by number, exactly when no emit was cut off |
| `ActivityTurn.Turn.Deliver` | agent/core/runner/activity.py:271-273 | the frame is stored and reaches every listed subscriber once |
| `ActivityTurn.Turn.Emit` | agent/core/runner/activity.py:266-273 | both, after any number of cut-off emits; the persisted numbers count up from one and the frames are what was persisted without the emits that were cut off |
| `ActivityTurn.Turn.Close` | agent/core/runner/activity.py:275-278 | every listed subscriber gets the end marker |
| `ActivityTurn.Turn.Join` | agent/core/runner/activity.py:280-285 | subscription and snapshot are one step |
| `ActivityTurn.Turn.Next` | agent/core/runner/activity.py:286-298 | one resumption of the generator: replay, live frame or end |
| `ActivityTurn.SubscriberSeesTurn` | agent/core/runner/activity.py:254-298 | whenever it joins, a subscriber has yielded a prefix of what the run emitted; at the end exactly all of it, in order; and it waits exactly when it has yielded everything of an open turn |
| `Outbox.AtLeastOnce` | backend/internal/hub/app/outbox.go:18-69 | in every run, with failures and inserts anywhere, a marked row was published and only rows are published |
| `Outbox.OrderedWhenTimely` | backend/internal/hub/app/outbox.go:43-69 | with failures anywhere, in every run whose new rows are above everything published and in hand: published ids never decrease, the log without repeats is a prefix of the rows in id order, at most one row is published and unmarked |
| `Outbox.TimelyExactly` | backend/internal/hub/app/outbox.go:43-69 | after any such run a new row is above everything published and in hand if and only if no such continuation publishes ids that decrease |
| `Outbox.OneLooseWhenClear` | backend/internal/hub/app/outbox.go:53-64 | at most one row is published and unmarked when new rows are above the batch and above a row whose mark is due |
| `Outbox.ClearExactly` | backend/internal/hub/app/outbox.go:53-64 | and exactly then |
| `Outbox.LateRowGoesLast` | backend/internal/hub/app/outbox.go:43-69 | two rows fetched, a third between them visible after the first is published: it goes out last |
| `Outbox.TwoLoose` | backend/internal/hub/app/outbox.go:53-64 | a lower row visible while a mark is due leaves two published unmarked rows |
| `OutboxWorker.OutboxService.Drain` | backend/internal/hub/app/outbox.go:43-69 | the loop is a run of that protocol with rows arriving between any two calls; it terminates when finitely many arrive, fails exactly when one of its calls did, which is then its last, and otherwise leaves every row present at its start marked |
| `OutboxWorker.OutboxService.PublishAndMark` | backend/internal/hub/app/outbox.go:53-64 | one row: published, then marked, with an error possible before or after either took effect and rows arriving in between; it stops exactly at a failed call |
| `OutboxWorker.OutboxService.Unpublished` | backend/internal/hub/adapters/postgres/queries/outbox.sql:26-28 | the smallest unmarked ids in order |
| `Blame.ParseBlamePorcelain` | agent/core/tools/security/blame.py:56-96 | the committed sha above all others by line count, author time and sha, told field by field; empty without one; an error for an unreadable author time |
| `Blame.Best` | agent/core/tools/security/blame.py:80-88 | the maximum over the committed candidates |
| `Blame.TimeSays` | agent/core/tools/security/blame.py:80-84 | the time compared is zero when missing or empty, and otherwise the value of a signed numeral or an error |
| `BlameReduction.FeedReads` | agent/core/tools/security/blame.py:64-79 | for any lines, the metadata kept of a commit is what the pieces read under it claim first |
| `BlameReduction.BlameReduces` | agent/core/tools/security/blame.py:45-96 | for any content, forged or not: the reduction fails exactly when the author time read under a credited commit is no number, is empty exactly when no committed sha is credited, and otherwise is above all others by credited lines, time and sha, with author, address, time, zone and message as first claimed under it |
| `BlameReduction.PlainBlameReduces` | agent/core/tools/security/blame.py:56-96 | where nothing poses as a header and no metadata holds a line separator: never fails, empty exactly when all lines are uncommitted, otherwise the commit that is truly above all others, with its own author, address, time, zone and subject |
| `BlameReduction.OwnExactly` | agent/core/tools/security/blame.py:77-79 | for any content, what is read of a commit is its own metadata if and only if for every key the first piece read under it that starts with the key carries its own value |
| `BlameReduction.PlainIsOwn` | agent/core/tools/security/blame.py:77-79 | which holds for texts without line separators where nothing poses as a header |
| `BlameReduction.AuthorForgeryFails` | agent/core/tools/security/blame.py:77-84 | any author name with a carriage return and an author time that is no number behind it fails the reduction |
| `BlameReduction.CodeForgeryFails` | agent/core/tools/security/blame.py:67-84 | so does any code line with a header and such a time behind carriage returns, however plain the metadata |
| `BlameReduction.ForgedTimeRaises` | agent/core/tools/security/blame.py:67-84 | a concrete blame of one committed line with plain metadata on which the reduction fails |
| `BlamePorcelain.TallyIsCountPlusForged` | agent/core/tools/security/blame.py:67-74 | for any content of metadata and code a commit is credited with its lines plus the headers forged for it |
| `BlamePorcelain.HeaderExactly` | agent/core/tools/security/blame.py:45-53 | a header is a name of 40 hexadecimal digits and two numbers |
| `BlamePorcelain.CountsExactlyWhenNothingPoses` | agent/core/tools/security/blame.py:67-74 | for any content, the counts are true if and only if no piece of a printed metadata line or code line looks like a header |
| `BlamePorcelain.SummaryForges` | agent/core/tools/security/blame.py:67-74 | any subject with a carriage return and a header behind it credits a commit that brought in nothing |
| `BlamePorcelain.ForgedSummary` | agent/core/tools/security/blame.py:67-74 | a concrete one |
| `BlameMetadata.FirstClaimSays` | agent/core/tools/security/blame.py:77-79 | the value kept under a key is that of the first piece that starts with it |
| `BlameMetadata.PlainClaimsOwn` | agent/core/tools/security/blame.py:77-79 | texts without line separators are claimed first by their own lines, whatever the trailing lines hold |
| `BlameReduction.OwnTime` | agent/core/tools/security/blame.py:80-84 | with own metadata, the author time printed is the one compared |
| `BlameMetadata.MailRoundTrip` | agent/core/tools/security/blame.py:91-91 | the address comes out of its angle brackets |
| `LoopDetection.Detector.AfterModel` | agent/core/middleware/loop_detection.py:79-131 | calls are stripped exactly when the fingerprint or some tool fills its window; a turn let through adds at most one warning, by the stated priority; windows are the last observations |
| `LoopDetection.Detector.Warn` | agent/core/middleware/loop_detection.py:115-130 | warnings are queued once per fingerprint and once per tool |
| `LoopDetection.Detector.Drain` | agent/core/middleware/loop_detection.py:136-141 | queued warnings are injected once each and in order |
| `LoopDetection.MostCommon` | agent/core/middleware/loop_detection.py:92-94 | the most frequent tool, the first seen among equals |
| `LoopDetection.Detector.constructor` | agent/core/middleware/loop_detection.py:63-69 | the window is at least each limit and equal to one of them |
| `LoopDetection.WindowBound` | agent/core/middleware/loop_detection.py:63-113 | among any window of consecutive tool-calling turns at most `identical_hard - 1` of one fingerprint keep their calls |
| `LoopDetection.Detector.KeptBound` | agent/core/middleware/loop_detection.py:79-113 | that bound at any point of any run of the detector |
| `TokenBudget.Budget.Observe` | agent/core/middleware/token_budget.py:47-57 | the total is the sum over ids of the largest usage seen; observing known messages again adds nothing |
| `TokenBudget.Budget.AfterModel` | agent/core/middleware/token_budget.py:46-91 | stripped exactly at the budget with calls pending; the warning is due once; raises exactly for the first reply without calls under a zero budget |
| `TokenBudget.ZeroBudgetRaises` | agent/core/middleware/token_budget.py:28-91 | that failure, for every warning fraction |
| `TokenBudget.TruncatedTowardsZero` | agent/core/middleware/token_budget.py:28-34 | the warning mark is the fraction of the budget rounded towards zero |
| `TokenBudget.Budget.Drain` | agent/core/middleware/token_budget.py:96-101 | at most one warning is injected in a run |
| `TokenBudget.LargestUnique` | agent/core/middleware/token_budget.py:48-57 | the largest usages depend only on which observations were made, not on order or repetition |
| `TokenBudget.Reobserved` | agent/core/middleware/token_budget.py:48-57 | re-observing a history in any order leaves the total unchanged |
| `TokenBudget.MoreObserved` | agent/core/middleware/token_budget.py:48-57 | more observations never lower the total |
| `ActivityCollector.Work` | agent/core/runner/activity.py:108-151 | text, calls and output in order, the tokens on the first frame, and a frame of their own if there is none |
| `ActivityCollector.Collector.OnCustom` | agent/core/runner/activity.py:165-209 | the frames of a subagent event and the status it leaves |
| `ActivityCollector.Collector.OnUpdates` | agent/core/runner/activity.py:211-248 | the frames of a graph update and the findings counted |
| `ActivityCollector.Collector.Frames` | agent/core/runner/activity.py:156-163 | chunk by chunk the collector emits the frames of the whole stream |
| `ActivityFold.FoldActivity` | frontend/src/features/hub/activity.ts:153-233 | the graph is, for the lead and for every subagent in order of first mention, that agent's own frames folded alone |
| `ActivityFold.Node` | frontend/src/features/hub/activity.ts:164-173 | one node per id, opened on first mention |
| `ActivityTokens.TokensConserved` | frontend/src/features/hub/activity.ts:153-233 | the turn's tokens are the lead's plus all subagents', and equal, for input and output, the sums of what the usage records of the lead's AI messages and the subagents' AI steps say, each counted once and charged to its agent |
| `ActivityTokens.TokensOfRecord` | agent/core/runner/activity.py:69-78 | a usage record yields the number under its first key, or the second where the first is missing, for input and for output, and nothing when neither side is a number |
| `ActivityTokens.AgentShows` | frontend/src/features/hub/activity.ts:213-227 | an agent's tokens and work log are those of its own frames, in order |
| `ActivityTokens.WorkSpent` | agent/core/runner/activity.py:147-151 | a message's tokens appear exactly once, under its own agent |
| `ActivityTokens.StreamSpent` | agent/core/runner/activity.py:156-248 | the frames of a stream carry exactly the usage of its AI messages, for every agent and in total |
| `ActivityTokens.PartsMakeTheWhole` | frontend/src/features/hub/activity.ts:217-225 | lead and subagents add up to the total |
| `ActivityTokens.CollectorAgrees` | agent/core/runner/activity.py:165-248 | the interface shows the lead's findings and every subagent's status as the collector has them |
| `ActivityShown.NodesShown` | agent/core/runner/activity.py:165-248 | from the stream to the screen: the lead's findings are its calls of `report_finding`; a subagent's node shows its last description, error and count of findings, the last report addressed to it, and the status its last start or end says |
| `ActivityShown.LogsShown` | agent/core/runner/activity.py:108-151 | the work log of the lead and of every subagent is what it said, called and got back, line by line, with a message's tokens on its first line |
| `ActivityShown.ClipExactly` | agent/core/runner/activity.py:33-36 | a text is shown without the blanks around it and cut after the limit |
| `SubagentContract.SubagentResult.TrySetTerminal` | agent/core/subagents/contract.py:82-108 | raises for a status that is not terminal, refuses after a terminal write, otherwise sets the given fields |
| `SubagentContract.SubagentResult.UpdateTokenUsageRecords` | agent/core/subagents/contract.py:110-112 | replaces the records unless the result is terminal |
| `SubagentContract.SubagentResult.UpdateToolReceipts` | agent/core/subagents/contract.py:114-118 | replaces the receipts unless none are given or the result is terminal |
| `SubagentContract.FirstWriteWins` | agent/core/subagents/contract.py:82-118 | any sequence of calls leaves the first terminal write over the last updates before it |
| `SubagentContract.OnlyFirstAccepted` | agent/core/subagents/contract.py:92-108 | in any sequence exactly the first terminal write is told that it won |
| `SubagentContract.TruncateFits` | agent/core/subagents/contract.py:133-138 | the limit holds if and only if the text was short or the limit is at least 16; a cut text has exactly the limit's length |
| `SubagentContract.TruncateIdempotent` | agent/core/subagents/contract.py:133-138 | cutting twice is cutting once, whenever the limit holds |
| `SubagentContract.TruncateKeepsEnds` | agent/core/subagents/contract.py:133-138 | a cut text keeps its first two thirds and its end |
| `SubagentContract.ShortLimitKeepsAll` | agent/core/subagents/contract.py:133-138 | at a limit of 15 a longer text grows |
| `SubagentContract.MetadataRoundTrip` | agent/core/subagents/contract.py:154-244 | exactly terminal payloads with a known stop reason are sent, and the reader gets back status, stop reason, usage, receipts, verdict and the once-cut texts |
| `SubagentContract.ReadIsSound` | agent/core/subagents/contract.py:210-244 | whatever the metadata, every field returned is well formed |

## Left out

- The runner's coroutines are values in a transition system, not a class: the point is their
  interleavings. Aliasing of `LocalInstance` objects is explicit as object ids.
- The terminal console and its lock, the idle timer's clock (a reap is a stop at any time),
  `raise_instance`'s answer to a caller that does not wait, heartbeats, process crash and
  restart of a runner, and the delivery of a forwarded event at the other runner.
- The fallback query of `claim_instance` is one atomic step with its update.
- Waiting coroutines are woken in any order; fairness of locks and semaphore is not modelled.
- `ActivityTurn.Turn.Emit`: frames are emitted one after another and not after close, as the
  service does; the trace id is left out, and whether a write that was asked for took effect
  is not told apart.
- `OutboxWorker.OutboxService.Drain`: the rows still to arrive are a finite list in any order;
  the polling timer is left out.
- Repositories with SHA-256 object names: their 64 digits are no header for the reduction, which
  is then empty; the printer here prints names of 40 digits.
- `Blame.ParseBlamePorcelain`: the ISO rendering of the author time is not modelled, and an
  integer is an optional sign and ASCII digits. The blame resolver's caches are left out.
- Character classes of regular expressions, `strip` and `isdigit` are the ASCII ones.
- `Citations.VerifyReceiptCitations`: whether the prose claims an action (verb and path
  patterns) is a parameter.
- `SseStream.StreamSSE`: chunks are decoded text; the incremental UTF-8 decoder and JSON
  parsing are parameters or left out. Connecting and status codes are left out.
- `ThreadStore.Thread.AddMessages`: the merge is that of the graph library, as its append and
  rewrite paths are used here; removal of single messages is left out.
- Hash functions are parameters: fingerprints of call sets and the digest of a result.
- `ActivityFold.FoldActivity`: timestamps are left out, and with them the start and finish
  times and the tool durations of the work log.
- `ActivityCollector.Work`: the rendering of a call's arguments to one line is a parameter;
  the collected chat reply is left out.
- `LoopDetection.Detector.AfterModel` and `TokenBudget.Budget.AfterModel`: the text of the
  warnings and the rewritten message are left out; what is stripped and when is not.
- OAuth, webhook signatures, encryption, the sandbox tools, the screens, prompts, skills and
  configuration.
