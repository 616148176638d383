# Loading, restoring and binding data in PlotJuggler: models and proofs

PlotJuggler's application layer loads files through a ticketed queue, restores layouts that name files, caches, cloud
providers and live streams, and keeps every display that waits for a topic subscribed. This project models the parts of
that layer where several steps, threads or passes have to agree, and proves what they keep.

Each protocol appears twice. Once as values: a state, the steps that change it, and lemmas over every run of those
steps. Once as the object it is in the program: a class with the same fields, whose `Valid()` is the invariant of those
runs and whose methods keep it while they take the object to the state the step names. Pure transformations are functions
with lemmas; the loops that compute them are methods proved against those functions.

## The parts

| files | what they model |
|---|---|
| `LoadTickets`, `LoadTicketSafety`, `LoadTicketTheorems`, `LoadWindow`, `LoadCancelBlame`, `LoadOutcomes`, `FileLoader` | the loader's queue, suspendable prologue, worker, fan-out loop, cancellation and reusable shutdown, with observers that call back into the loader |
| `LoadTransactions`, `LoadedDatasets` | loads as transactions on the session's datasets, and what the ticket tells of them |
| `MessageGate` | import workers parked on a question and the threads that answer, one atomic action at a time |
| `Promotion`, `PromotionTheorems`, `PromotionStranding`, `PromotionAnswers`, `SourcePromotionHost` | source promotion under interleaved plugin threads, and the teardown of a provider session |
| `LayoutImport`, `LayoutImportSafety`, `LayoutImportTheorems`, `LayoutImportConsent`, `LayoutImportPlans`, `LayoutImportRollback`, `LayoutImportBatch` | the layout import batch: planning, trust gate, cache hits, jobs, quarantine and replan, cancel, rollback |
| `LayoutImportRun` | the batch and the loader together |
| `PendingDisplay`, `PendingDisplayOutcomes`, `PendingDisplayBinder` | pending display intents, what each operation leaves staged, and the demand references they hold |
| `ReplayConfig`, `ReplayGrammar` | configurations nested as text in JSON strings, and a text grammar of the kind their laws ask for |
| `FanoutMatch` | binding saved fan-out children to live datasets |
| `XmlText`, `StreamRecords` | numbers and CDATA payloads as text; the layout's stream records |
| `ElementWalk`, `StreamQualifiers` | the explicit-stack document walk; stamping, stripping and binding dataset qualifiers |
| `PixelConversion` | raw image buffers to samples, with the size guard in machine words |
| `KeySequence` | the salted key-sequence matcher and its event filter |
| `DocumentOrderWalk`, `Base64`, `RecentLayouts` | the walk along parent links, and the bounded list of recent layouts with its stored form |
| `UploadStore` | upload identities and chunked staging |

## Where the program does not do what it says

Each of these has a concrete input or run, and a lemma that says exactly when it happens.

- A slot that, while a load's end is being announced, shuts the loader down and then loads again loses the new request:
  the code after the slot clears the state of the new load (`LoadTicketTheorems.HandOverLosesATicket`; the exact
  condition is `HandOverExact`).
- Inside the window where shutdown runs observers, an accepted request can be dropped without a terminal, a cancelled
  queued ticket gets two, and a nested shutdown resolves every collected ticket twice
  (`LoadWindow.WindowBreaksPromises`, from one reachable state). `LoadWindow.WindowExact` says for every call an observer
  can make there whether it breaks the promise.
- A cancel made while the configuration dialog is open survives the dialog's reject and failure exits and cancels the
  next load (`LoadCancelBlame.LeakedLatchCancelsTheNextLoad`; `LatchExact` is the exact condition).
- A fan-out load replaces the dataset it matched only when the catalog was showing that dataset
  (`LoadTransactions.ReplacedExactlyWhenShown`); an empty or tombstoned one stays beside the new ones
  (`UnshownMatchStays`, `Session.FanOut` run by `ReplaceEmpty` and `ReplaceTombstoned`).
- A promotion whose enqueue throws is not answered until shutdown (`PromotionStranding.ThrowingEnqueueStrands`); with
  nothing under way any more, exactly those are unanswered (`PromotionStranding.DrainedAnswersExactly`).
- A cancelled import batch removes what its children reported, so the session is back where it was exactly when no child
  reported a dataset that was already there (`LayoutImportRollback.CancelledRollsBack`; `ReusedDatasetIsRemoved` is a run
  in which one did). Without a checkpoint hook nothing is removed (`NoCheckpointNoRollback`, `DatasetIsLeftBehind`).
- A stopped stream's counts are forgotten while staged entries still hold references to it; a later release then takes
  away another holder's reference (`PendingDisplay.ForgottenDatasetLosesAReference`; `StepConserves` is exact).
- The header of the key-sequence matcher promises to fire exactly when the last keys are the sequence. That holds for
  every stream if and only if the sequence's first key occurs nowhere else in it
  (`KeySequence.ExactIffFirstKeyIsUnique`).

The guard of the pixel conversion divides by the height; the dimension limit its callers apply first is what keeps a zero
height away (`PixelConversion.LimitExcludesZeroHeight`).

## Model

| member | source | states |
|---|---|---|
| `LoadTicketTheorems.EveryTicketInOnePlace` | pj_app/src/FileLoader.cpp:2178-2864 | in every reachable state of a loader whose slots may re-enter it, each accepted ticket is in exactly one of queued, current without a terminal, pending, delivered; so no terminal repeats |
| `LoadTicketTheorems.DrainedDeliversAll` | pj_app/src/FileLoader.cpp:2692-2741 | once every posted call has run, every accepted ticket has been delivered exactly once and the loader is idle |
| `LoadTicketSafety.StepKeeps` | pj_app/src/FileLoader.cpp:2282-2412 | every legal step, in and between observer slots, keeps the accounting of tickets and the control state |
| `LoadTicketSafety.RunKeeps` | pj_app/src/FileLoader.cpp:2215-2864 | so does every run of steps, across shutdown and reuse |
| `LoadTicketTheorems.HandOverExact` | pj_app/src/FileLoader.cpp:2397-2412 | the code after a load's slots keeps the accounting if and only if no other load became current while they ran |
| `LoadTicketTheorems.HandOverLosesATicket` | pj_app/src/FileLoader.cpp:2399-2412 | a reachable run in which a slot shuts down and loads again ends with the second ticket in no place |
| `LoadTicketTheorems.StartNextConserves` | pj_app/src/FileLoader.cpp:2215-2252 | picking up the next request neither loses nor invents a ticket |
| `LoadWindow.WindowExact` | pj_app/src/FileLoader.cpp:2760-2864 | a call an observer makes inside shutdown keeps every ticket in one place if and only if it is refused or harmless: an accepted request needs an idle loader with nothing queued and no dialog, a nested shutdown needs nothing unresolved, a cancel must not name a queued ticket |
| `LoadWindow.SafeIsHarmless` | pj_app/src/FileLoader.cpp:2760-2864 | every call the runs allow in the window is harmless, and in the window of an unresolved load no other call is |
| `LoadWindow.WindowBreaksPromises` | pj_app/src/FileLoader.cpp:2760-2864 | from one reachable window a request is lost, a queued ticket and the running one get two terminals |
| `LoadWindow.WindowEnqueueIsLost` | pj_app/src/FileLoader.cpp:2814-2844 | a request accepted by an observer inside the shutdown of a load is dropped without a terminal |
| `LoadWindow.WindowCancelResolvesTwice` | pj_app/src/FileLoader.cpp:2760-2864 | a queued ticket cancelled by an observer inside shutdown gets a second terminal |
| `LoadWindow.NestedShutdownResolvesTwice` | pj_app/src/FileLoader.cpp:2751-2864 | a shutdown nested in that window resolves every collected ticket twice |
| `LoadTicketTheorems.CancelAnswersUnresolved` | pj_app/src/FileLoader.cpp:2653-2685 | cancelLoad answers true exactly for tickets that have no terminal yet |
| `LoadTicketTheorems.CancelTouchesOnlyItsTicket` | pj_app/src/FileLoader.cpp:2641-2685 | cancelling a ticket moves no other ticket, latches a stop only for the current load, and repeating it changes nothing |
| `LoadTicketTheorems.LateCompletionIsDropped` | pj_app/src/FileLoader.cpp:2282-2285 | a completion of a load that is over, however many shutdowns and loads later it runs, changes nothing but the event queue |
| `LoadTicketTheorems.GenerationNeverReturns` | pj_app/src/FileLoader.cpp:2765-2772 | a generation that is over stays over across any number of shutdowns and reuses |
| `LoadTicketTheorems.GenerationAdvances` | pj_app/src/FileLoader.cpp:2231-2239 | no step takes the generation counter back |
| `LoadCancelBlame.LatchExact` | pj_app/src/FileLoader.cpp:1489-1545 | a step leaves the cancel latch clear between loads if and only if it is not one of the dialog exits that leak it |
| `LoadCancelBlame.CancelledWasAskedFor` | pj_app/src/FileLoader.cpp:1537-1545 | over every run without such an exit, only tickets somebody asked to stop end cancelled, and a load about to start finds the latch clear |
| `LoadCancelBlame.LeakedLatchCancelsTheNextLoad` | pj_app/src/FileLoader.cpp:1490-1508 | a cancel during the dialog, answered by rejecting it, cancels the next request |
| `FileLoading.FileLoader.LoadFileTicketed` | pj_app/src/FileLoader.cpp:2178-2213 | a valid loader stays valid; an accepted request gets a new ticket that has exactly one place, a refused one gets 0 and, unless the loader is being destroyed, a failure signal |
| `FileLoading.FileLoader.CancelLoad` | pj_app/src/FileLoader.cpp:2653-2685 | true exactly for a ticket without a terminal; no other ticket gets one, and nothing is announced |
| `FileLoading.FileLoader.JoinForShutdown` | pj_app/src/FileLoader.cpp:2751-2864 | uninterrupted, it leaves the loader idle and valid with every ticket delivered exactly once |
| `FileLoading.FileLoader.BeginShutdown` | pj_app/src/FileLoader.cpp:2751-2815 | the first half: what it will resolve is collected, the generation invalidated, the worker joined |
| `FileLoading.FileLoader.EndShutdown` | pj_app/src/FileLoader.cpp:2822-2862 | the second half up to the flush: nothing queued, nothing active, and one Cancelled terminal naming nothing scheduled for each collected request, in order |
| `FileLoading.FileLoader.AnswerDialog` | pj_app/src/FileLoader.cpp:1489-1545 | a valid loader stays valid through every way the configuration dialog can end |
| `FileLoading.FileLoader.Dispatch` | pj_app/src/FileLoader.cpp:2254-2285 | a valid loader stays valid through any posted call |
| `FileLoading.FileLoader.EndWorker` | pj_app/src/FileLoader.cpp:2397-2412 | and through what follows the slots of a completion, when they made no other load current |
| `FileLoading.FileLoader.StartNext` | pj_app/src/FileLoader.cpp:2215-2252 | the front request becomes the current load under a new generation |
| `FileLoading.FileLoader.RunEntries` | pj_app/src/FileLoader.cpp:1757-1936 | the fan-out loop runs to the next import on the worker, or to the epilogue |
| `FileLoading.FileLoader.ResumeEntry` | pj_app/src/FileLoader.cpp:1939-2001 | the entry that returned is classified by the stop that applies to it, then the loop stops or goes on |
| `FileLoading.FileLoader.OnWorkerFinished` | pj_app/src/FileLoader.cpp:2282-2404 | a completion that finds its load schedules exactly one terminal: Cancelled if and only if a stop was latched, Failed if and only if none was and the plugin or the replay of a replacing load failed, Loaded otherwise; it names the dataset exactly when its rows stay |
| `FileLoading.FileLoader.PerformAll` | pj_app/src/FileLoader.cpp:2178-2864 | the object follows every legal run of steps, and afterwards each ticket it gave out is in exactly one place |
| `LoadTransactions.Session.RollBack` | pj_app/src/FileLoader.cpp:2441-2478 | a discarded, failed or shut-down load leaves the datasets, names and source paths exactly as they were before it |
| `LoadTransactions.Session.Finish` | pj_app/src/FileLoader.cpp:2316-2404 | a single load keeps its rows unless it was discarded, failed without a stop, or the replay of a replacing load failed; otherwise nothing has happened; its outcome is Cancelled for any stop, Failed for a failure without one |
| `LoadTransactions.Session.BeginFresh` | pj_app/src/FileLoader.cpp:1341-1362 | a fresh load creates its dataset in the live session |
| `LoadTransactions.Session.BeginRefill` | pj_app/src/FileLoader.cpp:1637-1658 | a replacing load moves the old rows aside |
| `LoadTransactions.Session.RunImports` | pj_app/src/FileLoader.cpp:1771-2001 | the fan-out loop creates one dataset per entry it reaches and reports what was kept and what stopped it |
| `LoadTransactions.Session.FanOut` | pj_app/src/FileLoader.cpp:1725-2167 | a fan-out that keeps nothing leaves everything as it was; one that commits leaves the old datasets less the replaced one plus the kept entries, and it is Loaded if and only if something was kept and no whole-load stop ended it, Failed if and only if it kept nothing, was not discarded and an entry failed |
| `LoadTransactions.Session.CommitFanOut` | pj_app/src/FileLoader.cpp:2048-2065 | the tombstoned dataset goes for good and the kept ones get the source path |
| `LoadTransactions.DropUnkeptLeaves` | pj_app/src/FileLoader.cpp:2014-2034 | the cleanup leaves the old datasets and exactly the kept ones of those created |
| `LoadTransactions.KeptExactly` | pj_app/src/FileLoader.cpp:1945-1971 | every entry that takes its rows keeps exactly them under its own id, no two entries share an id, and nothing else is kept |
| `LoadTransactions.UnshownMatchStays` | pj_app/src/FileLoader.cpp:1726-1735 | a matched dataset the catalog does not show stays in the session beside the kept entry |
| `LoadTransactions.ReplaceEmpty` | pj_app/src/FileLoader.cpp:1726-1735 | such a run: the matched dataset is empty |
| `LoadTransactions.ReplaceTombstoned` | pj_app/src/FileLoader.cpp:1726-1735 | such a run: the user took the matched dataset out of the catalog |
| `LoadTransactions.Session.Tombstone` | pj_app/src/FileLoader.cpp:1733-1735 | a dataset leaves the catalog only if the catalog shows it |
| `LoadTransactions.ReplacedExactlyWhenShown` | pj_app/src/FileLoader.cpp:1726-1735 | the matched dataset is removed exactly when something is kept and the catalog was showing it |
| `LoadOutcomes.WorkerEndTells` | pj_app/src/FileLoader.cpp:2316-2404 | what the terminal of a worker load says, in terms of the stop, the plugin's status and the replay alone |
| `LoadOutcomes.PrologueTells` | pj_app/src/FileLoader.cpp:1164-1168 | a request whose prologue fails ends Failed naming nothing, one that reuses a dataset ends Loaded naming it |
| `LoadOutcomes.DialogTells` | pj_app/src/FileLoader.cpp:1490-1532 | a rejected dialog cancels its load; a broken contract or a refused configuration fails it |
| `LoadOutcomes.PastDialogTells` | pj_app/src/FileLoader.cpp:1537-1545 | a stop latched at the dialog cancels the load, and a refused expansion fails it |
| `LoadOutcomes.FanOutEndTells` | pj_app/src/FileLoader.cpp:2014-2163 | the end of a fan-out: Loaded with data and no stop, Cancelled with data and a stop or without anything failed, Failed when nothing was kept and something failed; it names what was kept, nothing after a discard |
| `LoadOutcomes.FanOutTellsItsTransaction` | pj_app/src/FileLoader.cpp:1757-2167 | a fan-out whose imports are stopped and return as the entries of a transaction say schedules a terminal with the transaction's outcome, naming exactly the datasets it keeps, in order |
| `LoadOutcomes.QueuedCancelTells` | pj_app/src/FileLoader.cpp:2653-2672 | a queued request that is cancelled leaves the queue and ends Cancelled, naming nothing |
| `LoadOutcomes.StoppedWorkerTells` | pj_app/src/FileLoader.cpp:2673-2685 | a running load that is cancelled ends Cancelled when it returns, naming its dataset exactly when the stop was to keep it and a replacing load replayed |
| `LoadOutcomes.ShutdownTells` | pj_app/src/FileLoader.cpp:2850-2858 | a shutdown ends whatever is unresolved, the running load first and then the queue in order, Cancelled with nothing |
| `LoadOutcomes.TerminalsAreTruthful` | pj_app/src/FileLoader.cpp:2282-2862 | over every run a terminal, scheduled or delivered, carries the identity its ticket was accepted under; as Loaded it names data, as Failed none, and the dataset it names first is the first it produced |
| `LoadedDatasets.EndWorkerLoad` | pj_app/src/FileLoader.cpp:2316-2404 | loader and session hear of the same completion: the terminal has the session's outcome, and it names the dataset exactly when the session holds the rows written there and nothing exactly when the session is as before the load |
| `MessageGate.StepKeeps` | pj_app/src/FileLoader.cpp:91-156 | every atomic action of worker, answering thread and shutdown keeps the rendezvous invariant |
| `MessageGate.AnswersAreTheWinners` | pj_app/src/FileLoader.cpp:94-114 | in every interleaving a worker that gets past its wait returns the value of the one winning compare-exchange, released once |
| `MessageGate.UncontestedAnswerReturns` | pj_app/src/FileLoader.cpp:795-828 | in every run a worker returns an answer somebody gave to its own question, and when only one was given, such as the button of its dialog, that one |
| `MessageGate.ButtonReachesWorker` | pj_app/src/FileLoader.cpp:94-114 | from an open dialog nobody else answers, the button pressed is what the parked worker returns |
| `MessageGate.FirstAnswerStands` | pj_app/src/FileLoader.cpp:97-104 | no later finish call and no shutdown changes the first answer |
| `MessageGate.QuietNeverParks` | pj_app/src/FileLoader.cpp:140-150 | after the gate's shutdown every waiting question has its permit |
| `MessageGate.QuietIsKept` | pj_app/src/FileLoader.cpp:118-150 | no worker step undoes that or sets another worker back, and a new question is refused at once |
| `MessageGate.EveryWorkerReturns` | pj_app/src/FileLoader.cpp:2779-2797 | while the GUI thread only waits, every asking worker returns by its own steps |
| `MessageGate.ShutdownCompletes` | pj_app/src/FileLoader.cpp:140-150 | shutdown itself comes to its end from every reachable state |
| `MessageGate.ShutForGood` | pj_app/src/FileLoader.cpp:795-813 | a shut gate stays shut: no question registers and no queued call opens a dialog |
| `MessageGate.JoinWithoutShutdownIsStuck` | pj_app/src/FileLoader.cpp:2779-2797 | without the gate's shutdown one posted question is waited for for ever |
| `MessageGate.PluginQuestion.Finish` | pj_app/src/FileLoader.cpp:97-104 | release-once: the first answer is kept, later ones change nothing |
| `MessageGate.PluginMessageGate.BeginRequest` | pj_app/src/FileLoader.cpp:118-125 | registers the question unless the gate is shut |
| `MessageGate.PluginMessageGate.EndRequest` | pj_app/src/FileLoader.cpp:127-130 | erases every occurrence of the question and nothing else |
| `MessageGate.PluginMessageGate.Shutdown` | pj_app/src/FileLoader.cpp:140-150 | every pending question ends answered, -1 where it had no answer, with one permit more |
| `MessageGate.WithoutExactly` | pj_app/src/FileLoader.cpp:127-130 | erasing keeps exactly the other elements |
| `Promotion.StepKeeps` | pj_app/src/SourcePromotionHost.cpp:55-324 | every step of plugin threads, GUI thread, shutdown and import jobs keeps the promotion invariant |
| `PromotionTheorems.AnsweredExactlyOnce` | pj_app/src/SourcePromotionHost.cpp:128-165 | an accepted call is answered at most once, exactly once when the event loop is back, and every one is after shutdown |
| `PromotionTheorems.OkMeansAttached` | pj_app/src/SourcePromotionHost.cpp:101-121 | a call answered ok has its record attached |
| `PromotionTheorems.AttachedByItsCommit` | pj_app/src/SourcePromotionHost.cpp:55-81 | in every run a record is attached only at a commit of the promotion's own load that produced the dataset it names, and that dataset then carries it |
| `PromotionTheorems.AnswersStand` | pj_app/src/SourcePromotionHost.cpp:308-324 | an answer is never given again or differently |
| `PromotionTheorems.RejectedIsNeverAnswered` | pj_app/src/SourcePromotionHost.cpp:171-245 | a refused call never becomes a promotion, so its callback never runs |
| `PromotionStranding.DrainedAnswersExactly` | pj_app/src/SourcePromotionHost.cpp:101-121 | given that the loader ends every ticket, an accepted call has been answered, exactly once, if and only if its enqueue did not throw or the host was shut down |
| `PromotionStranding.ThrowingEnqueueStrands` | pj_app/src/SourcePromotionHost.cpp:290-295 | a run in which the enqueue throws and the promotion is left open |
| `PromotionTheorems.JoinWaitsOnNoCallback` | pj_app/src/HeadlessDescriptorProviderSession.cpp:177-199 | in every run, at the destructor's join each live job is cancelled and waits on no undelivered callback, and new promotions are refused |
| `PromotionTheorems.JoinCompletes` | pj_app/src/HeadlessDescriptorProviderSession.cpp:275-279 | the join ends by the jobs' own steps |
| `PromotionTheorems.SweepCompletes` | pj_app/src/SourcePromotionHost.cpp:159-164 | shutdown's callback loop ends in whatever order it visits the promotions |
| `PromotionTheorems.DestructorCompletes` | pj_app/src/HeadlessDescriptorProviderSession.cpp:177-213 | the destructor reaches its end from every state it can start in |
| `PromotionTheorems.ReverseOrderDeadlocks` | pj_app/src/HeadlessDescriptorProviderSession.cpp:177-199 | joining before the promotion host is shut down reaches a state from which no run finishes |
| `PromotionHost.SourcePromotionHost.OnPromote` | pj_app/src/SourcePromotionHost.cpp:171-245 | accepts exactly the calls with a callback, a whole v1 request, a dataset and a path, before shutdown, whose job could be queued; an accepted one is kept as it was made, open and unanswered |
| `PromotionHost.SourcePromotionHost.FinishPromotion` | pj_app/src/SourcePromotionHost.cpp:308-324 | the first decision is the call's one answer and closes it, any later one changes nothing |
| `PromotionHost.SourcePromotionHost.ProcessPromotion` | pj_app/src/SourcePromotionHost.cpp:247-306 | a call whose dataset is not the provider's, without a loader or refused by it is answered not ok, with the loader's reason where it gave one; one that gets a ticket stays open and is remembered under it |
| `PromotionHost.SourcePromotionHost.OnLoadCommitting` | pj_app/src/SourcePromotionHost.cpp:55-81 | the promotion of a committing load is attached if and only if it was or its dataset was produced, a reason recorded otherwise; no other promotion changes |
| `PromotionHost.SourcePromotionHost.OnFileLoadFailed` | pj_app/src/SourcePromotionHost.cpp:82-100 | the reason goes to exactly the promotion being issued or the one of the current ticket and path |
| `PromotionHost.SourcePromotionHost.OnLoadFinished` | pj_app/src/SourcePromotionHost.cpp:101-121 | the open promotion of an ended load gets its one answer: ok if and only if the load was Loaded and the record attached, otherwise with the recorded reason or the outcome's text; nothing else changes |
| `PromotionHost.SourcePromotionHost.Shutdown` | pj_app/src/SourcePromotionHost.cpp:128-165 | afterwards every accepted call has exactly one answer; the answers given before stand and the others are not ok |
| `PromotionAnswers.AnsweredAsItsLoadEnded` | pj_app/src/SourcePromotionHost.cpp:101-121 | from any reachable state: once the load of an open promotion has ended, every continuation that is back in the event loop has given it exactly one answer, ok if and only if the load was Loaded and the record attached |
| `PromotionAnswers.LoadedAndAttachedIsPromoted` | pj_app/src/SourcePromotionHost.cpp:110-113 | the end of a load with its record attached, the lock and the callback leave exactly one answer, and it is ok |
| `PromotionAnswers.GoodPromotionSucceeds` | pj_app/src/SourcePromotionHost.cpp:55-306 | called, issued, committed with its dataset, loaded: a promotion ends with the one answer ok, its record attached |
| `PromotionAnswers.CommitTells` | pj_app/src/SourcePromotionHost.cpp:55-81 | a commit attaches exactly when it kept the dataset, records why not otherwise, and touches no other promotion |
| `PromotionHost.EndedIsARun` | pj_app/src/SourcePromotionHost.cpp:101-121 | the loadFinished slot without interference is a run of the interleaved steps |
| `PromotionHost.FinishIsARun` | pj_app/src/SourcePromotionHost.cpp:308-324 | so is finishPromotion |
| `PromotionHost.ClosedIsARun` | pj_app/src/SourcePromotionHost.cpp:128-165 | so is shutdown's callback loop, in any order |
| `PromotionHost.ProviderSession.StartImport` | pj_app/src/HeadlessDescriptorProviderSession.cpp:220-259 | a job id never used before in the session |
| `PromotionHost.ProviderSession.ConcludeJob` | pj_app/src/HeadlessDescriptorProviderSession.cpp:281-290 | the job leaves the registry, unknown ids change nothing |
| `PromotionHost.ProviderSession.CancelJob` | pj_app/src/HeadlessDescriptorProviderSession.cpp:261-267 | marks one live job |
| `PromotionHost.ProviderSession.CancelAll` | pj_app/src/HeadlessDescriptorProviderSession.cpp:269-273 | marks every live job and nothing else |
| `LayoutImportSafety.ImportsNeedConsent` | pj_app/src/LayoutImportBatch.cpp:333-404 | planning lets an untrusted or oversized import through only with a question to the user, a refused one never |
| `LayoutImportSafety.PlanSourceResult` | pj_app/src/LayoutImportBatch.cpp:182-259 | planning concludes a source exactly when it leaves it nothing to do |
| `LayoutImportSafety.PlanViaProviderResult` | pj_app/src/LayoutImportBatch.cpp:261-405 | so does planning through the provider |
| `LayoutImportSafety.ReplanResult` | pj_app/src/LayoutImportBatch.cpp:595-656 | a replanned source is no cache hit any more and never queued for an import that needs consent |
| `LayoutImportSafety.FailureKeeps` | pj_app/src/LayoutImportBatch.cpp:595-656 | the quarantine path puts its source in exactly one place again |
| `LayoutImportSafety.StartNextJobKeeps` | pj_app/src/LayoutImportBatch.cpp:658-702 | starting the next job keeps every source in its one place |
| `LayoutImportSafety.LaunchKeeps` | pj_app/src/LayoutImportBatch.cpp:532-539 | start()'s loop gives every source with work its one place |
| `LayoutImportTheorems.StepKeeps` | pj_app/src/LayoutImportBatch.cpp:407-913 | every operation keeps the batch invariant |
| `LayoutImportTheorems.EverySourceInOnePlace` | pj_app/src/LayoutImportBatch.cpp:471-878 | in every reachable state of a running or cancelling batch each planned source is in exactly one of concluded, awaiting a ticket, the active job, the queue, and some child is outstanding |
| `LayoutImportTheorems.ImportsHadConsent` | pj_app/src/LayoutImportBatch.cpp:471-557 | no import runs or waits without the consent it needed |
| `LayoutImportConsent.SkippedNeverRuns` | pj_app/src/LayoutImportBatch.cpp:497-505 | over every run, a source the user skipped has that result for good, never had consent, and is never queued, active or awaiting a load |
| `LayoutImportConsent.TrustedIsImported` | pj_app/src/LayoutImportBatch.cpp:506-539 | over every run, a source the user trusted leaves start() queued or active, or failed because its job could not be started; its consent stands and it ends as an import job ends |
| `LayoutImportConsent.CancelledLayoutTouchesNothing` | pj_app/src/LayoutImportBatch.cpp:492-496 | cancelling the layout at the prompt ends the batch with no ticket, job or effect |
| `LayoutImportConsent.ResultsStand` | pj_app/src/LayoutImportBatch.cpp:559-878 | over every run of a started batch, a result once given never changes |
| `LayoutImportPlans.SourcesRunAsPlanned` | pj_app/src/LayoutImportBatch.cpp:532-693 | in every reachable state only sources planned as imports are queued or active, and only sources planned as files wait for a load |
| `LayoutImportPlans.StartLeavesNothingPlanned` | pj_app/src/LayoutImportBatch.cpp:511-557 | start() either leaves a child outstanding or has concluded every source |
| `LayoutImportSafety.ProviderDecides` | pj_app/src/LayoutImportBatch.cpp:261-405 | what the provider's answer makes of a source: exactly when it counts as loaded, is a file to load, an import, or one to ask about |
| `LayoutImportSafety.PlanningDecides` | pj_app/src/LayoutImportBatch.cpp:182-259 | a cached copy is used before the provider is asked, a locked one fails, and a source without a usable reference falls back to its saved path |
| `LayoutImportSafety.ReplanDecides` | pj_app/src/LayoutImportBatch.cpp:595-656 | a replanned source follows the provider, and what would have to be asked about fails |
| `LayoutImportTheorems.FinishedOnceAndLast` | pj_app/src/LayoutImportBatch.cpp:880-913 | finished() is emitted at most once, last of all effects, and only when every source has concluded |
| `LayoutImportRollback.CancelledRollsBack` | pj_app/src/LayoutImportBatch.cpp:840-913 | a cancelled batch removes exactly what its children reported over the run, in order, before it restores the workspace; the session is then as it was if and only if no child reported one of its datasets |
| `LayoutImportRollback.ReusedDatasetIsRemoved` | pj_app/src/FileLoader.cpp:1299-1329 | a run in which a reusing load reports a dataset of the session, and the rollback removes it |
| `LayoutImportRollback.NoCheckpointNoRollback` | pj_app/src/LayoutImportBatch.cpp:887-902 | without a checkpoint a cancelled batch leaves everything its children reported |
| `LayoutImportRollback.DatasetIsLeftBehind` | pj_app/src/LayoutImportBatch.cpp:887-902 | a run that leaves a new dataset behind |
| `LayoutImportTheorems.StepSettles` | pj_app/src/LayoutImportBatch.cpp:471-913 | starting, cancelling and every child terminal leave the batch waiting for a child of its own, or over with every source concluded |
| `LayoutImportTheorems.BatchTerminates` | pj_app/src/LayoutImportBatch.cpp:559-747 | a batch under way has finished after a bounded number of child terminals, replans included |
| `LayoutImportTheorems.StepRank` | pj_app/src/LayoutImportBatch.cpp:704-827 | each child terminal brings it closer and nothing sets it back |
| `LayoutImportRun.DrainedLoaderFinishesBatch` | pj_app/src/LayoutImportBatch.cpp:521-525 | over every run of loader and batch together: once the loader has drained and no import job is active, a started batch has finished, every source concluded |
| `LayoutImportRun.WaitsForTheLoader` | pj_app/src/LayoutImportBatch.cpp:783-791 | until then it waits for its active job or for a ticket the loader has accepted and not announced |
| `ImportBatch.LayoutImportBatch.PrepareSources` | pj_app/src/LayoutImportBatch.cpp:407-454 | every source planned on its own facts, none of them anywhere yet |
| `ImportBatch.LayoutImportBatch.AskConsent` | pj_app/src/LayoutImportBatch.cpp:471-509 | after Skip every source asked about is done, SkippedUntrusted and without consent; after TrustAndImport each keeps its import and has consent; CancelLayout declines; no other source changes |
| `ImportBatch.LayoutImportBatch.StartBatch` | pj_app/src/LayoutImportBatch.cpp:471-557 | prompt, checkpoint, launch, first job; afterwards a child is outstanding or the batch is over, and unless the prompt was declined it is over only with every source concluded |
| `ImportBatch.LayoutImportBatch.LoadHit` | pj_app/src/LayoutImportBatch.cpp:559-593 | a ticket, the quarantine path, or a failed source |
| `ImportBatch.LayoutImportBatch.CacheLoadFailed` | pj_app/src/LayoutImportBatch.cpp:595-656 | replans the source while running, cancels it otherwise |
| `ImportBatch.LayoutImportBatch.StartJobs` | pj_app/src/LayoutImportBatch.cpp:658-702 | the first queued job that starts becomes the active one |
| `ImportBatch.LayoutImportBatch.LoadFinished` | pj_app/src/LayoutImportBatch.cpp:783-827 | the ticket's source concludes as the load ended, or is replanned when it was a cached copy that failed, and its datasets are recorded; then a child is outstanding or the batch is over |
| `ImportBatch.LayoutImportBatch.JobTerminal` | pj_app/src/LayoutImportBatch.cpp:704-747 | the active job's source is Imported for a promoted or eager success, Cancelled or Failed for those, and the next job starts; then a child is outstanding or the batch is over |
| `ImportBatch.LayoutImportBatch.CancelBatch` | pj_app/src/LayoutImportBatch.cpp:840-878 | exactly the queued or not yet started sources conclude as Cancelled, outstanding children are waited for; the batch runs no more |
| `ImportBatch.LayoutImportBatch.RollBack` | pj_app/src/LayoutImportBatch.cpp:887-902 | removes the produced datasets and restores the workspace |
| `ImportBatch.LayoutImportBatch.FinishIfDrained` | pj_app/src/LayoutImportBatch.cpp:880-913 | finishes exactly when no ticket, job or queue entry is left |
| `ImportBatch.LayoutImportBatch.PerformAll` | pj_app/src/LayoutImportBatch.cpp:407-913 | the object follows every run of the operations, each planned source in exactly one place throughout |
| `PendingDisplay.DemandIsConserved` | pj_app/src/PendingDisplayBinder.cpp:39-71 | over every run the tracker's count of a reference is what others hold plus the number of staged entries holding it; nothing staged and no other holder means zero |
| `PendingDisplay.StepConserves` | pj_runtime/src/TopicDemandTracker.cpp:129-147 | a step keeps that if and only if it does not make the tracker forget a reference an entry holds |
| `PendingDisplay.RefreshKeeps` | pj_app/src/PendingDisplayBinder.cpp:39-62 | a refresh balances itself and leaves a reference for exactly what the entry had and what the catalog names for it now |
| `PendingDisplay.FlushCovers` | pj_app/src/PendingDisplayBinder.cpp:380-487 | an entry that survives a flush has a live target and holds every reference the catalog warrants |
| `PendingDisplay.DrainTriesAll` | pj_app/src/PendingDisplayBinder.cpp:380-487 | a drain pass leaves only entries that were tried and declined |
| `PendingDisplayOutcomes.FlushLeavesSurvivors` | pj_app/src/PendingDisplayBinder.cpp:380-487 | the in-place flush loop leaves exactly the survivors, in the order they were staged |
| `PendingDisplayOutcomes.DeclinedIntentStays` | pj_app/src/PendingDisplayBinder.cpp:405-487 | an intent that is not due, or that its target declines, stays staged |
| `PendingDisplay.EraseIsFilter` | pj_app/src/PendingDisplayBinder.cpp:270-304 | the in-place erase loop keeps exactly the entries that are not gone, in order |
| `PendingDisplay.DeathErasesItsEntries` | pj_app/src/PendingDisplayBinder.cpp:282-304 | after a widget's death exactly the entries of living targets remain |
| `PendingDisplay.SecondDropIsIgnored` | pj_app/src/PendingDisplayBinder.cpp:143-178 | dropping the same thing twice stages it once |
| `PendingDisplay.ForgottenDatasetLosesAReference` | pj_runtime/src/TopicDemandTracker.cpp:129-147 | forgetting a dataset an entry still waits on makes the entry's release take another holder's reference |
| `DisplayBinder.TopicDemandTracker.AddReference` | pj_runtime/src/TopicDemandTracker.cpp:52-60 | one more reference |
| `DisplayBinder.TopicDemandTracker.RemoveReference` | pj_runtime/src/TopicDemandTracker.cpp:62-80 | one fewer, none below zero, a zero count erased |
| `DisplayBinder.TopicDemandTracker.ForgetDataset` | pj_runtime/src/TopicDemandTracker.cpp:129-147 | every count of the dataset goes, no other |
| `PendingDisplay.RegistryBalances` | pj_app/src/PendingDisplayBinder.cpp:39-71 | an operation of the registry leaves what every other holder has of every reference as it was |
| `DisplayBinder.PendingDisplayBinder.NamingDatasets` | pj_app/src/PendingDisplayBinder.cpp:18-33 | the datasets naming a topic, in catalog order, each once |
| `DisplayBinder.PendingDisplayBinder.RefreshDemandRefs` | pj_app/src/PendingDisplayBinder.cpp:39-62 | missing references added to entry and tracker |
| `DisplayBinder.PendingDisplayBinder.ReleaseDemandRefs` | pj_app/src/PendingDisplayBinder.cpp:64-71 | every reference the entry recorded is released |
| `DisplayBinder.PendingDisplayBinder.HasEntryFor` | pj_app/src/PendingDisplayBinder.cpp:143-153 | whether an intent of the same kind, target, path and preferred dataset is staged |
| `DisplayBinder.PendingDisplayBinder.AddPending` | pj_app/src/PendingDisplayBinder.cpp:155-268 | an intent with a topic that is not staged yet is staged behind the others with exactly the references the catalog warrants; otherwise nothing changes |
| `DisplayBinder.PendingDisplayBinder.Collect` | pj_app/src/PendingDisplayBinder.cpp:82-141 | exactly the layout's curves are staged, in order, each with exactly the references the catalog warrants; the others' references are untouched |
| `DisplayBinder.PendingDisplayBinder.EraseWhere` | pj_app/src/PendingDisplayBinder.cpp:270-304 | the in-place erase loop |
| `DisplayBinder.PendingDisplayBinder.TargetDestroyed` | pj_app/src/PendingDisplayBinder.cpp:282-304 | exactly the intents of living targets stay, and the others' references are untouched |
| `DisplayBinder.PendingDisplayBinder.ReleaseCompletedDockIntents` | pj_app/src/PendingDisplayBinder.cpp:270-280 | exactly the dock's completed intents go, the others' references untouched |
| `DisplayBinder.PendingDisplayBinder.FlushEntry` | pj_app/src/PendingDisplayBinder.cpp:393-487 | one turn of the flush loop: the entry goes if its target is gone or it is due and completes, and otherwise stays in place with its references refreshed |
| `DisplayBinder.PendingDisplayBinder.Flush` | pj_app/src/PendingDisplayBinder.cpp:380-487 | what stays is exactly, in order, what has a living target and is not both due and complete, due meaning a drain or its topic or X topic named; each with its references refreshed; the number completed is returned, the others' references are untouched |
| `DisplayBinder.PendingDisplayBinder.Clear` | pj_app/src/PendingDisplayBinder.cpp:530-535 | nothing is staged and the tracker counts exactly what the others hold |
| `ReplayConfig.StripUndoesRecording` | pj_app/src/FanoutConfig.cpp:158-180 | stripping a recorded rewrite gives the rewrite that records nothing, substring shortcut included, for every configuration text |
| `ReplayConfig.SecondRewriteRecordsNothing` | pj_app/src/FanoutConfig.cpp:158-169 | a second rewrite to the same path equals the rewrite that records nothing, which is therefore idempotent |
| `ReplayConfig.RewriteRefusesOnlyNonObjects` | pj_app/src/FanoutConfig.cpp:158-169 | a rewrite is refused exactly for a non-empty text that is no object |
| `ReplayConfig.EveryInstancePointsAt` | pj_app/src/FanoutConfig.cpp:89-126 | every instance extracted from a rewritten configuration that is an object points at the new path, at every depth |
| `ReplayConfig.RewritePointsAt` | pj_app/src/FanoutConfig.cpp:71-81 | the rewritten object and every child at any depth has the new file path |
| `ReplayConfig.RewriteRecords` | pj_app/src/FanoutConfig.cpp:71-81 | at every depth the old path is recorded exactly when it could be rebased |
| `ReplayConfig.EditKeepsTheRest` | pj_app/src/FanoutConfig.cpp:49-86 | at every depth a rewrite changes the file path and the saved path alone and a strip the saved path alone; other members, other entries and a fan-out that is no array stay |
| `ReplayConfig.PassesFuse` | pj_app/src/FanoutConfig.cpp:49-69 | two passes over a configuration are one pass when the edits compose on each object |
| `ReplayConfig.NothingToStrip` | pj_app/src/FanoutConfig.cpp:171-180 | a rewritten text without the key has nothing to strip at any depth |
| `ReplayGrammar.SomeGrammarIsFaithful` | pj_app/src/FanoutConfig.cpp:23-43 | what the laws ask of parsing and printing can be met: a printed object is read back, shows its keys, and is longer than the texts nested in it |
| `ReplayConfig.DeepEntry` | pj_app/src/FanoutConfig.cpp:49-69 | a child becomes the text of its own edit, any other entry passes through |
| `ReplayConfig.ExtractFanout` | pj_app/src/FanoutConfig.cpp:89-126 | the string entries in order, or the whole text when there is none |
| `ReplayConfig.TextsInOrder` | pj_app/src/FanoutConfig.cpp:109-125 | the extracted texts are the string entries in array order, one for each, repeats included |
| `ReplayConfig.EditDeep` | pj_app/src/FanoutConfig.cpp:71-86 | the recursive rewrite through the strings |
| `ReplayConfig.EditEntries` | pj_app/src/FanoutConfig.cpp:49-69 | the loop over the fan-out entries |
| `ReplayConfig.RewriteReplayFilepaths` | pj_app/src/FanoutConfig.cpp:158-169 | the rewrite on text |
| `ReplayConfig.StripHostReplayKeys` | pj_app/src/FanoutConfig.cpp:171-180 | the strip on text |
| `FanoutMatch.UnchangedFanoutBindsAll` | pj_app/src/LayoutXml.cpp:451-518 | when the saved children are the live names and indices in any order, names shared or empty, each binds to its own dataset |
| `FanoutMatch.EachCandidateOnce` | pj_app/src/LayoutXml.cpp:451-518 | bound children get pairwise distinct candidates whose names agree with the saved ones |
| `FanoutMatch.ChangedShapeBindsNothing` | pj_app/src/LayoutXml.cpp:489-494 | once a shared name's count has changed none of its children binds |
| `FanoutMatch.SharedNameBindsByIndexOnly` | pj_app/src/LayoutXml.cpp:489-494 | a child sharing its name binds to the candidate at its index or to none |
| `FanoutMatch.OwnNameBindsWhateverItsIndex` | pj_app/src/LayoutXml.cpp:496-507 | a child with a name of its own that exactly one free candidate carries binds to it, whatever index was saved |
| `FanoutMatch.OwnNameCarriedTwice` | pj_app/src/LayoutXml.cpp:507-511 | when several free candidates carry the name, the index alone decides |
| `FanoutMatch.UnnamedTakesWhatIsLeft` | pj_app/src/LayoutXml.cpp:496-507 | a child without a name takes the last free candidate, whatever its index |
| `FanoutMatch.UnnamedBindsByIndex` | pj_app/src/LayoutXml.cpp:470-482 | with several free ones it takes the one at its index, whatever that one is called |
| `FanoutMatch.MatchFanoutDatasets` | pj_app/src/LayoutXml.cpp:451-518 | the matching loop |
| `FanoutMatch.MatchChild` | pj_app/src/LayoutXml.cpp:484-511 | one child: index only for shared names, name first otherwise |
| `FanoutMatch.CollectFitting` | pj_app/src/LayoutXml.cpp:497-505 | the unused candidates the name fits |
| `FanoutMatch.CountSaved` | pj_app/src/LayoutXml.cpp:455-458 | how many saved children have the name |
| `FanoutMatch.CountLive` | pj_app/src/LayoutXml.cpp:459-462 | how many candidates have it |
| `StreamRecords.WriterAcceptsExactlyValid` | pj_app/src/LayoutXml.cpp:189-211 | the writer accepts a list exactly when it is empty, or every record is complete under its own id and the document has no block yet |
| `StreamRecords.WriteThenExtract` | pj_app/src/LayoutXml.cpp:147-249 | reading after an accepted write gives the list back up to the spelling of absent timeline state |
| `StreamRecords.ExtractedIsValid` | pj_app/src/LayoutXml.cpp:147-187 | what the reader accepts the writer would accept |
| `StreamRecords.Document.WriteStreamingSources` | pj_app/src/LayoutXml.cpp:189-249 | an accepted write keeps the root's tag, its old children in order with exactly one block behind them, and every attribute but the version, which is the schema's; a refused write leaves the document unchanged |
| `StreamRecords.Document.Check` | pj_app/src/LayoutXml.cpp:206-211 | the first problem of the list, if any |
| `StreamRecords.ExtractStreamingSources` | pj_app/src/LayoutXml.cpp:147-187 | the records in order, or the first problem |
| `StreamRecords.ReadsWrittenDataset` | pj_app/src/LayoutXml.cpp:43-63 | timeline state written is read back in its normal form |
| `StreamRecords.OmittedDatasetIsDefault` | pj_app/src/LayoutXml.cpp:227-243 | the dataset element is left out exactly when it would say nothing |
| `XmlText.ParsePrinted` | pj_app/src/LayoutXml.cpp:43-63 | a printed number is read back, whatever its sign |
| `XmlText.AppendJsonAsCdata` | pj_runtime/include/pj_runtime/XmlCdata.h:20-34 | the payload cut into CDATA sections |
| `XmlText.SectionsJoin` | pj_runtime/include/pj_runtime/XmlCdata.h:16-34 | cutting loses nothing |
| `XmlText.SectionsUnterminated` | pj_runtime/include/pj_runtime/XmlCdata.h:16-34 | no section holds a terminator |
| `XmlText.PayloadSurvives` | pj_runtime/include/pj_runtime/XmlCdata.h:16-34 | any payload comes back from the file text |
| `XmlText.OneSectionIsNotEnough` | pj_runtime/include/pj_runtime/XmlCdata.h:16-19 | a payload with a terminator does not survive as one section |
| `ElementWalk.EachElementOnce` | pj_app/src/LayoutXml.cpp:667-678 | the explicit-stack walk visits every element exactly once |
| `ElementWalk.PrefixShape` | pj_app/src/LayoutXml.cpp:667-678 | at every point of the walk the visited elements are closed upwards and, among siblings, from the last down |
| `ElementWalk.ForEachElement` | pj_app/src/LayoutXml.cpp:667-678 | the stack loop applies the visitor in that order |
| `ElementWalk.LocalPass` | pj_app/src/LayoutXml.cpp:667-678 | a visitor that touches only its element makes the same edit on every element independently |
| `StreamQualifiers.EveryStampedQualifierRebinds` | pj_app/src/LayoutXml.cpp:716-844 | stamp, strip, bind: every qualifier of a stamped dataset, in all five shapes at any depth, ends as exactly the new id with source and path gone |
| `StreamQualifiers.QualifiersStayApart` | pj_app/src/LayoutXml.cpp:792-844 | with both maps one to one, two qualifiers of reloaded streams end alike exactly when they named the same dataset before |
| `StreamQualifiers.Document.SaveAndRebind` | pj_app/src/LayoutXml.cpp:716-844 | the three passes in sequence on the document: every qualifier of a stream that came back ends as exactly its new id |
| `StreamQualifiers.OtherQualifiersStay` | pj_app/src/LayoutXml.cpp:808-844 | a qualifier that is not bound is left alone, unless its layer adopts an id into the empty place |
| `StreamQualifiers.LayerAdoptsItsLastPayload` | pj_app/src/LayoutXml.cpp:832-842 | a layer with no qualifier of its own waits for the stream of its last bound payload |
| `StreamQualifiers.Stamped` | pj_app/src/LayoutXml.cpp:792-806 | stamping puts the identity next to the id and changes nothing else of the qualifier |
| `StreamQualifiers.PathKeepsId` | pj_app/src/LayoutXml.cpp:716-725 | a qualifier with a path survives the strip whole |
| `StreamQualifiers.StripRemovesExactly` | pj_app/src/LayoutXml.cpp:716-763 | the strip takes exactly the non-zero numeric ids without a path, of the five kinds of element that qualify data, and no other attribute |
| `StreamQualifiers.WaitsExactly` | pj_app/src/LayoutXml.cpp:808-844 | after the bind exactly these elements wait besides those that did: a curve, layer or configuration topic with a returning qualifier, and a layer with a returning payload |
| `StreamQualifiers.BindPass` | pj_app/src/LayoutXml.cpp:808-844 | the bind walk, element by element |
| `StreamQualifiers.Document.StampDatasetIdentities` | pj_app/src/LayoutXml.cpp:792-806 | every element's attributes after the stamp |
| `StreamQualifiers.Document.RemoveUnvalidatedDatasetIds` | pj_app/src/LayoutXml.cpp:749-763 | every element keeps every attribute except exactly its unvouched ids |
| `StreamQualifiers.Document.BindStreamQualifiers` | pj_app/src/LayoutXml.cpp:808-844 | every element's attributes after the bind |
| `PixelConversion.AcceptedBuffersFit` | pj_app/src/SceneImageDecoder.cpp:150-158 | the guard accepts exactly the buffers whose rows fit, without any product wrapping, and then there are at most as many samples as bytes |
| `PixelConversion.ReadsInside` | pj_app/src/SceneImageDecoder.cpp:63-74 | every sample read of an accepted buffer lies inside it |
| `PixelConversion.CellIsItsSample` | pj_app/src/SceneImageDecoder.cpp:63-74 | output cell (x, y, c) is the sample those coordinates name, for every stride |
| `PixelConversion.BlueFirstRows` | pj_app/src/SceneImageDecoder.cpp:63-74 | decoding a blue-first image gives the samples of the red-first one, row by row, for every height |
| `PixelConversion.SampleIsInLayoutOrder` | pj_app/src/SceneImageDecoder.cpp:48-60 | a sample is its bytes in the layout's order on either kind of machine |
| `PixelConversion.SwapIsAnInvolution` | pj_app/src/SceneImageDecoder.cpp:38-45 | swapping twice changes nothing |
| `PixelConversion.SwapReversesBytes` | pj_app/src/SceneImageDecoder.cpp:38-45 | a swap reads the same bytes in the opposite order |
| `PixelConversion.EveryEncodingHasAKernel` | pj_app/src/SceneImageDecoder.cpp:79-123 | every known encoding has a converter with its channels, size, order and colour order |
| `PixelConversion.EncodedSample` | pj_app/src/SceneImageDecoder.cpp:105-123 | a sample of an image in a known encoding is its bytes in the image's own order on any machine, a float exactly for 32FC1 |
| `PixelConversion.EncodingDecides` | pj_app/src/SceneImageDecoder.cpp:105-123 | the bgr names alone are blue first, the 16 and 32 bit names alone have samples of more than one byte, and those take the image's byte order |
| `PixelConversion.NoProductWraps` | pj_app/src/SceneImageDecoder.cpp:150-158 | within the limit the packed row and the sample count are exact in any size type of at least 32 bits |
| `PixelConversion.ConvertRows` | pj_app/src/SceneImageDecoder.cpp:63-74 | the row loops fill the output with the rows' samples |
| `PixelConversion.ToSamples` | pj_app/src/SceneImageDecoder.cpp:143-172 | a mismatch, an exceeded budget, or exactly the image's samples |
| `KeySequence.StepHashIsInjective` | pj_app/src/KeySequence.h:16-24 | at one position no two 32-bit keys share a step value |
| `KeySequence.StepHashIsABijection` | pj_app/src/KeySequence.h:16-24 | each step value stands for exactly one key |
| `KeySequence.KeySequenceMatcher.FeedKey` | pj_app/src/KeySequence.cpp:16-30 | one key takes the matcher to the specified state and answer |
| `KeySequence.FiresOnlyOnTheSequence` | pj_app/src/KeySequence.cpp:16-30 | the matcher fires only on streams that end with the sequence |
| `KeySequence.ExactWhenFirstKeyIsUnique` | pj_app/src/KeySequence.h:26-31 | with a first key found nowhere else it fires exactly on those |
| `KeySequence.ExactIffFirstKeyIsUnique` | pj_app/src/KeySequence.h:26-31 | it does so on every stream if and only if the first key is found nowhere else |
| `KeySequence.AabMissesAaab` | pj_app/src/KeySequence.cpp:16-30 | A A B is missed on A A A B |
| `KeySequence.RedeliveryIsInvisible` | pj_app/src/KeySequence.cpp:43-58 | however often a press is delivered the matcher gets it once |
| `KeySequence.KeySequenceWatcher.OnKeyPress` | pj_app/src/KeySequence.cpp:43-58 | a re-delivered or repeated press changes nothing but the timestamp; any other feeds the matcher |
| `DocumentOrderWalk.Walk` | pj_app/src/BrowserPersistence.cpp:542-561 | the walk over first-child, next-sibling and parent links visits every element once, in document order, and ends |
| `DocumentOrderWalk.Climb` | pj_app/src/BrowserPersistence.cpp:552-560 | climbing finds the next element of the document or the end |
| `RecentLayouts.IsSafeGenericLayoutRecipe` | pj_app/src/BrowserPersistence.cpp:513-563 | a recipe is accepted exactly when it is bounded, generic and nothing in it names a source |
| `RecentLayouts.SafeSaysExactly` | pj_app/src/BrowserPersistence.cpp:513-563 | what a recipe may be, written out: its size, its root, the elements it may not hold, and no text or value naming an upload, its backing path or a stream |
| `RecentLayouts.DisplayName` | pj_app/src/BrowserPersistence.cpp:179-188 | the kept name is never empty, at most 128 characters, without separators or control characters |
| `RecentLayouts.TidyNameIsKept` | pj_app/src/BrowserPersistence.cpp:179-188 | a file name with nothing to clean is kept as it is from whatever folder, cut at 128 characters |
| `RecentLayouts.RememberedShape` | pj_app/src/BrowserPersistence.cpp:587-600 | the new recipe comes first and behind it the longest prefix of the others that keeps five recipes and 1 MiB |
| `RecentLayouts.RememberedIsValid` | pj_app/src/BrowserPersistence.cpp:578-600 | remembering keeps at most five recipes under distinct ids and at most 1 MiB |
| `RecentLayouts.RememberingTwice` | pj_app/src/BrowserPersistence.cpp:587-600 | remembering the same layout again changes nothing |
| `RecentLayouts.StoredListSurvives` | pj_app/src/BrowserPersistence.cpp:213-250 | every list remembering can leave comes back from storage as it was |
| `RecentLayouts.CollectedIsValid` | pj_app/src/BrowserPersistence.cpp:213-236 | whatever was stored, what is read back is such a list |
| `RecentLayouts.BrowserPersistence.RememberGenericLayout` | pj_app/src/BrowserPersistence.cpp:578-612 | refuses an unsafe layout and changes nothing, or leaves the remembered list |
| `RecentLayouts.BrowserPersistence.Trim` | pj_app/src/BrowserPersistence.cpp:592-600 | the erase loop keeps the prefix whose running total fits |
| `RecentLayouts.DecodeRecipes` | pj_app/src/BrowserPersistence.cpp:213-236 | the stored items that join the list, in order |
| `RecentLayouts.AddItem` | pj_app/src/BrowserPersistence.cpp:225-234 | one stored item joins the list exactly when it is a valid recipe, new, and within both bounds |
| `RecentLayouts.DecodeRecipeObject` | pj_app/src/BrowserPersistence.cpp:194-211 | one stored item, if it is a valid recipe |
| `Base64.DecodeEncode` | pj_app/src/BrowserPersistence.cpp:205-245 | Base64 decoding undoes encoding for every byte string |
| `UploadStore.PrintedNameReadsBack` | pj_app/src/BrowserFileStore.cpp:63-104 | parsing a printed identity gives back every non-empty name |
| `UploadStore.AcceptedIsPrinted` | pj_app/src/BrowserFileStore.cpp:63-83 | an accepted identity is the printed form up to the spelling of its number |
| `UploadStore.IdentityDeterminesUpload` | pj_app/src/BrowserFileStore.cpp:92-104 | two uploads of a session never share an identity |
| `UploadStore.StageAsync` | pj_app/src/BrowserFileStore.cpp:188-305 | one completion for every upload: the upload's bytes and digest if and only if the file opened, every chunk was written whole, the flush succeeded and the file reopened, Failed otherwise |
| `UploadStore.StageJob.Step` | pj_app/src/BrowserFileStore.cpp:215-270 | one step writes and digests one chunk: it ends Failed on a short write, a failed flush or a file that does not reopen, Staged with exactly the upload after the last chunk otherwise, and goes on in between |
| `UploadStore.StageJob.RunSteps` | pj_app/src/BrowserFileStore.cpp:215-270 | the steps end, with the upload exactly when every chunk was written whole, the flush succeeded and the file reopened |
| `UploadStore.SanitizedBasename` | pj_app/src/BrowserFileStore.cpp:45-61 | the staged file's name is plain, not empty, not hidden and at most 240 characters |
| `UploadStore.PlainNameIsKept` | pj_app/src/BrowserFileStore.cpp:45-61 | a plain file name that is not hidden is staged under its own name, whatever path it came with |

## Left out

- Qt widgets, dialogs, presentation, diagnostics and translations; message texts are kept only where one decides which
  reason an answer carries.
- The loader's prologue is atomic between its suspension points: what observers do inside a single prologue step, and
  the synchronous pre-commit signal as a point of re-entry, are not modelled.
- Tickets, generations, promotion ids and job ids are natural numbers: counter wrap-around is not modelled.
- Progress ticks and ingest tokens of the loader.
- `LoadTransactions.Session.FanOut`: rows stand for a dataset's topics; pruning of topics and time references are not
  part of it, and nothing else changes the session while a load is in flight.
- `LoadOutcomes.FanOutTellsItsTransaction`: of entries no shutdown reaches; what a shutdown ends is in
  `LoadOutcomes.ShutdownTells`.
- `Promotion.StepKeeps`: a source path and the path a failure names are compared as texts, not as file identities.
- `PromotionStranding.DrainedAnswersExactly`: takes from the loader that every ticket it gave out ends, which is what
  `LoadTicketTheorems.DrainedDeliversAll` proves of it.
- `PromotionTheorems.JoinWaitsOnNoCallback`: a job is one that ends once it is cancelled and the callback it waits for
  has arrived.
- `LayoutImportRun.DrainedLoaderFinishesBatch`: which cancels the batch makes of its loads is left open, and its import
  jobs' terminals are inputs.
- The import batch's document rewrites, the records and pins it attaches when a hit commits, and which provider sessions
  it keeps; a provider's answers, the loader's acceptance and the user's choice are inputs of each operation.
- `DisplayBinder.PendingDisplayBinder.Flush`: whether a tried entry completes is the plot's or the dock's answer; how a
  path resolves in the catalog, viewports and curve elements are not modelled, and observers of the tracker do not call
  back into the binder.
- `ReplayConfig.StripUndoesRecording`: holds for every text grammar that reads back what it prints, nests shorter texts
  in longer ones and prints keys literally. `ReplayGrammar` has one; the syntax of JSON itself is not modelled, nor is
  path normalisation.
- `StreamRecords.WriteThenExtract`: works on the document tree; of the file's text only CDATA sections and numbers are
  modelled. Surrounding spaces, which the number reader would accept, are refused here.
- `StreamQualifiers.EveryStampedQualifierRebinds`: the document is its elements in document order with their parents; the
  strip's six tag passes are one pass here, which is the same because each touches its own elements.
- `PixelConversion.ToSamples`: the conversion of an integer or of stored bits to a float, and the compressed formats'
  decoders.
- `RecentLayouts.IsSafeGenericLayoutRecipe`: the XML grammar and the hash of a name are parameters; letter case is
  folded for ASCII only.
- `UploadStore.StageAsync`: files are what was written; the digest is the sequence of bytes fed to it, so equal digests
  mean equal bytes fed. Random session ids, directories and leases are not modelled.
- Preferences, timeline view state, series paths and the other layout passes: easier than what is here.
