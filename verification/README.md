# Autoreas bridge: models and proofs

A Dafny model of the parts of the bridge whose correctness does not show from reading one function, and proofs about
them. `dafny verify dfyconfig.toml` checks the whole project.

## What is modelled

**Cloudflare clearance transport** (`internal/cfclearance`). Each request is a process with a program counter; the two
critical sections of `ensureFresh`, the base round trip, the wait for a solver slot, the solve and the save outside the
mutex are separate steps, and any number of requests may interleave. `ClearanceProtocol.dfy` holds the machine and what
every step keeps of the shared state, `ClearanceTheorems.dfy` what holds of every run, `ClearanceTransport.dfy` the
object itself: its critical sections do to its fields what the machine's steps do to the shared state.
`ClearanceHistory.dfy` shows that the three maps hold exactly what the log of a run says, and reads off the log alone
whether a challenged request replays, waits, is refused or must start a solve.
`CookieRules.dfy` models the cookie walks. Two of them disagree: the walk that judges freshness takes the first
applicable `cf_clearance`, the one that decorates a request reports the last. `ClearanceRefused.dfy` says what a store on
which they disagree does to a request over every run: the value just refused is taken for a fresh one and never solved
again.

**Schedule board** (`internal/anime/schedule_*.go`). A partial drag-and-drop draft is merged into ordered queues. A Go
map walk is a walk over the keys in an arbitrary order, and results are proved for all orders. `ScheduleOrder.dfy` is
one queue, `ScheduleBoard.dfy` the board, `ScheduleDraft.dfy` and `ScheduleCanonical.dfy` the theorems,
`ScheduleOverlay.dfy` what is said of the records and entries themselves (whose cards stand on the board, which days end
up contiguous, what the written records show), `ScheduleMethods.dfy` the loops proved against the functions the theorems are about, `ScheduleApply.dfy` the checks,
the batch of writes and the board token. The token does not always move: `TokenMovesExactly` says when, `TokenMayStay`
gives a draft for which it does not. A board holds the same cards on any walk, but an anime's list of days is compared in
order, and `ScheduleWalks.dfy` says exactly when the walk over the reflowed days decides that list, and with it which
animes are written: `WalkDecidesWrites` is a draft that writes an anime nobody moved on one walk and not on the other.

**Download run** (`internal/download`). `DownloadPorts.dfy` is the outside world: every answer of the disk, the clock,
JDownloader and the stop signal is an arbitrary function of the instant it is asked at. `HosterWatch.dfy` is the watch
over one hoster attempt, `EpisodePipeline.dfy` the fallback over hosters and the loop over missing episodes, whose
cursor is read back from the folder. `DownloadRun.dfy` is the fan-out as a state machine (workers, semaphore, once-only
gate, counters under a mutex, outcome channel) and `DownloadTheorems.dfy` what holds of every interleaving. Both levels
share the outcomes, deltas and counters of `EpisodePipeline.dfy`, and `DownloadRefines.dfy` joins them: whatever
`ProcessAnime` may return, a worker may deliver.

**Notification rows** (`NotificationRows.dfy`). Two packages must agree on what a summary row stands for: the row
builders of `internal/download` and `internal/desktop`, and the badge counter.

**Backup bundle** (`BundleFormat.dfy`, `Bundle.dfy`, `BundleImport.dfy`). Print-then-hash, export, verify, preview and
apply. The digest, the manifest encoding and the importers are parameters; assumptions on them are stated as predicates
(`Faithful`, `Digests`, `Matching`, `Agrees`).

**Activity log** (`ActivityLog.dfy`). Keyset paging with other writers between the pages, and the prune.

## Model

| member | source | states |
|---|---|---|
| CookieRules.PathMatchesIsDirectoryPrefix | internal/cfclearance/clearance.go:65-79 | a cookie path covers exactly itself and the directory below it (section 5.1.4 of RFC 6265) |
| CookieRules.PathMatchesTransitive | internal/cfclearance/clearance.go:65-79 | covering nests |
| CookieRules.DomainMatchesByLabels | internal/cfclearance/clearance.go:52-62 | a cookie domain covers the hosts whose last labels are its own, in any case and with or without a leading dot (section 5.1.3 of RFC 6265) |
| CookieRules.KeepCloudflareCookies | internal/cfclearance/clearance.go:27-40 | the loop keeps exactly Cloudflare's own cookies, in order, scoped to the host |
| CookieRules.KeptExactly | internal/cfclearance/clearance.go:27-40 | kept are the cookies named cf_clearance or with prefix __cf, each once and in order, those without a domain given the host |
| CookieRules.ScopedCookieMatchesItsHost | internal/cfclearance/clearance.go:33-36 | a kept cookie reported without domain or path accompanies every request to that host |
| CookieRules.KeepingPreservesFreshness | internal/cfclearance/clearance.go:27-50 | dropping and scoping cookies neither loses nor invents a fresh clearance |
| CookieRules.FindCurrentClearance | internal/cfclearance/transport.go:175-186 | the walk returns the first applicable clearance |
| CookieRules.JudgedIsFirst | internal/cfclearance/transport.go:175-186 | freshness is judged by the first stored clearance that applies, or by nothing |
| CookieRules.Decorate | internal/cfclearance/transport.go:114-137 | every stored cookie that applies and whose name the caller does not send is added once, in stored order; the stored User-Agent replaces the caller's; the last clearance added is reported |
| CookieRules.AddedPairs | internal/cfclearance/transport.go:121-128 | a name and value are added exactly when some stored cookie has them, applies, and the name is not taken |
| CookieRules.SentIsLast | internal/cfclearance/transport.go:121-132 | the value reported as sent is that of the last stored clearance that applies, or nothing |
| CookieRules.SentIsOnTheWire | internal/cfclearance/transport.go:121-132 | the clearances put on the wire are exactly the applicable ones |
| CookieRules.WalksDifferExample | internal/cfclearance/transport.go:121-145 | a stored clearance on which the two walks disagree |
| ClearanceRefused.RefusedValueLooksFresh | internal/cfclearance/transport.go:121-145 | over every run in which the stored clearance stays, at every attempt: the refused value is taken for a fresh one and replayed without a solve exactly when the two walks over it differ; otherwise the request goes on to the check |
| ClearanceRefused.NeverSolvedAgain | internal/cfclearance/transport.go:86-145 | a request on such a store never reaches the check, waits or leads; challenged every time it ends with the challenge after all its sends |
| CookieRules.AnswerServesExactly | internal/cfclearance/transport.go:229-236 | over any solver answer: the value served after the save is non-empty and not the refused one exactly when the first clearance that applies to the URL is fresh |
| CookieRules.FreshAnswerMayServeRefused | internal/cfclearance/transport.go:229-236 | a solver answer that passes the freshness check and still serves the refused value |
| ClearanceProtocol.SharedStep | internal/cfclearance/transport.go:141-240 | every step of every request keeps: in-flight entries one to one with leaders, mutex held by one, slots counted and capped, saved clearances untouched until their leader unregisters |
| ClearanceProtocol.CooldownStep | internal/cfclearance/transport.go:154-168 | no step starts a solve of a domain before the cooldown of its last failed solve has passed |
| ClearanceProtocol.UndisturbedStep | internal/cfclearance/transport.go:147-165 | no step deletes, or starts a solve of, a domain between a leader's registration or save and its unregistration |
| ClearanceProtocol.StoreStep | internal/cfclearance/transport.go:229-238 | every clearance ever stored has a User-Agent and a non-empty clearance other than the rejected one |
| ClearanceTheorems.ErrorsStep | internal/cfclearance/transport.go:162-171 | a call carries its leader's error from before it is closed |
| ClearanceTheorems.TruthStep | internal/cfclearance/transport.go:170-196 | a waiter let go by a closed call took away exactly its leader's error |
| ClearanceTheorems.RoundTripStep | internal/cfclearance/transport.go:86-108 | sends, solve-or-wait calls and responses stay within bounds; each response is closed or returned, never both |
| ClearanceTheorems.RankFalls | internal/cfclearance/transport.go:86-108 | every step of a round trip brings it nearer its end |
| ClearanceTheorems.NoDeadlock | internal/cfclearance/transport.go:142-223 | while a round trip is not done some request can move, without help from a timeout or a cancellation |
| ClearanceTheorems.InvStep | internal/cfclearance/transport.go:81-240 | one step of any request keeps all of the above together |
| ClearanceTheorems.EveryRunIsSafe | internal/cfclearance/transport.go:81-240 | all of it holds in every state of every interleaving |
| ClearanceTheorems.RoundTripIsBounded | internal/cfclearance/transport.go:86-108 | a round trip takes a bounded number of steps, however many run beside it |
| ClearanceHistory.RemembersStep | internal/cfclearance/transport.go:141-240 | every step keeps the maps equal to the log: the running solve, the last save not deleted since, and for each cooldown the failure it comes from |
| ClearanceHistory.AdmitDecides | internal/cfclearance/transport.go:154-160 | in every run a solve is refused exactly while a failure of the domain is less than the cooldown ago, and otherwise starts then and there |
| ClearanceHistory.HistoryDecides | internal/cfclearance/transport.go:141-160 | in every run the log decides the whole first critical section: replay, wait, refuse or start, and whether a refused clearance is forgotten |
| ClearanceHistory.SendingDecides | internal/cfclearance/transport.go:114-132 | in every run what a request sends is read off the last save not deleted since |
| ClearanceHistory.AnswerDecides | internal/cfclearance/transport.go:86-103 | which answers go to ensureFresh and which go back to the caller |
| ClearanceHistory.EndDecides | internal/cfclearance/transport.go:161-196 | leader and waiters replay after a solved call and give up after a failed one; a cancelled wait gives up |
| ClearanceTransport.Transport.constructor | internal/cfclearance/transport.go:64-76 | a new transport shows the machine's first state, with each zero field of the policy at its default |
| ClearanceTransport.Transport.OpenEnsureFresh | internal/cfclearance/transport.go:142-160 | the first critical section does to the fields what the machine's look, check and admit do |
| ClearanceTransport.Transport.FinishSolve | internal/cfclearance/transport.go:225-239 | what the solver's answer leads to: exactly a fresh clearance with a User-Agent is saved, Cloudflare's own cookies only |
| ClearanceTransport.Transport.CloseEnsureFresh | internal/cfclearance/transport.go:164-169 | the second critical section unregisters and opens the cooldown exactly after a failure |
| ClearanceTransport.Transport.RoundTrip | internal/cfclearance/transport.go:81-109 | at most max(0, MaxSolvesPerRequest) + 1 sends, stopping at the first attempt that must; all but the returned response closed; a failed solve returns the challenge |
| ScheduleOrder.InOrderUnique | internal/anime/schedule_service_normalization.go:87-94 | a queue in (order, anime, index) order is determined by its cards |
| ScheduleOrder.QueueReads | internal/anime/schedule_service_normalization.go:87-94 | a sorted queue reads by order, then anime, then place in the anime's own list |
| ScheduleOrder.IdBelowExactly | internal/anime/schedule_service_normalization.go:87-94 | animes compare byte by byte, a prefix first |
| ScheduleOrder.StableSortConfluent | internal/anime/schedule_service_normalization.go:87-94 | two walks over the same placements sort to the same queue, ties included |
| ScheduleOrder.FullSortAgrees | internal/anime/schedule_service_normalization.go:198-208 | the stable sort and the canonical three-key sort give one queue |
| ScheduleOrder.MergePermutes | internal/anime/schedule_service_normalization.go:62-70 | merging loses and invents no card |
| ScheduleOrder.MergeConfluent | internal/anime/schedule_service_normalization.go:62-70 | the merged queue does not depend on the order of gathering |
| ScheduleOrder.MergeKeepsTheRest | internal/anime/schedule_service_normalization.go:62-103 | unchanged cards keep their relative order |
| ScheduleOrder.MergePositions | internal/anime/schedule_service_normalization.go:62-103 | the i-th moved card stands at min(its order, unchanged cards + i): a later insertion displaces none before it |
| ScheduleOrder.MovedOrdersAscend | internal/anime/schedule_service_normalization.go:87-94 | distinct positive orders sort to a strictly rising list |
| ScheduleOrder.MergeWithoutMoves | internal/anime/schedule_service_normalization.go:62-70 | where nothing moved, merging is sorting |
| ScheduleBoard.RebuildConserves | internal/anime/schedule_service_normalization.go:36-59 | every anime keeps as many cards on every day as it had |
| ScheduleBoard.NumberedIsContiguous | internal/anime/schedule_service_normalization.go:106-110 | a numbered queue occupies exactly 1 to n |
| ScheduleBoard.PositionsConfluent | internal/anime/schedule_service_validation.go:94-104 | the positions of a day do not depend on the walk |
| ScheduleDraft.DraftConfluent | internal/anime/schedule_service_normalization.go:36-110 | a draft gives every anime the same cards on every day whatever order Go walks its maps in |
| ScheduleDraft.BoardMaterializes | internal/anime/schedule_service_normalization.go:28-43 | every pair of walks gives a board, with no anime the draft does not place |
| ScheduleDraft.DraftConserves | internal/anime/schedule_service_normalization.go:36-59 | no card changes day or is lost; a day outside the reflow set keeps its very list |
| ScheduleDraft.ReflowedIsContiguous | internal/anime/schedule_service_normalization.go:62-110 | a reflowed day is numbered 1 to n |
| ScheduleDraft.FinalCheckExactly | internal/anime/schedule_service_validation.go:84-91 | the final check fails exactly on a submitted day without duplicate orders that is not contiguous as asked |
| ScheduleDraft.AcceptedOnAnyWalk | internal/anime/schedule_service_validation.go:84-104 | whether a draft is accepted does not depend on the order of any walk |
| ScheduleDraft.SubmittedOnce | internal/anime/schedule_service_validation.go:72-81 | no two accepted entries ask for one position |
| ScheduleDraft.MovedOrdersDistinct | internal/anime/schedule_service_validation.go:56-81 | the orders asked for on a day are distinct and positive |
| ScheduleDraft.MovedCardsLand | internal/anime/schedule_service_normalization.go:61-110 | where a valid draft puts every moved card of a reflowed day |
| ScheduleDraft.UnchangedKeepTheirOrder | internal/anime/schedule_service_normalization.go:61-110 | reading a reflowed day from 1 to n, the unchanged cards stand in (order, anime, index) order |
| ScheduleOverlay.DesiredExactly | internal/anime/schedule_service_normalization.go:10-23 | the board asked for holds the active and the submitted animes and no other: the one's own cards, the other's last entry |
| ScheduleOverlay.DesiredKeys | internal/anime/schedule_service_normalization.go:10-23 | its animes are the active ids and the entries' ids |
| ScheduleOverlay.NobodyElse | internal/anime/schedule_service_normalization.go:28-43 | nobody is on a draft's board who is neither active nor submitted |
| ScheduleOverlay.UnmovedKeepTheirCards | internal/anime/schedule_service_normalization.go:28-43 | an active anime that was not moved keeps on every day as many cards as its own record has |
| ScheduleOverlay.MovedHaveTheirCards | internal/anime/schedule_service_normalization.go:28-43 | a submitted anime has on every day as many cards as it asked for |
| ScheduleOverlay.TouchedDaysEndContiguous | internal/anime/schedule_service_normalization.go:113-183 | once a draft is accepted both sides of every move are numbered 1 to n, and every other day is as asked for |
| ScheduleOverlay.ValidDraftsStayOnTheBoard | internal/anime/schedule_service_validation.go:38-81 | a valid draft leaves its animes on known days and positive positions, and they are active |
| ScheduleCanonical.CanonicalConfluent | internal/anime/schedule_service_normalization.go:186-214 | the canonical board is one board, list order included |
| ScheduleCanonical.CanonicalOnDay | internal/anime/schedule_service_normalization.go:186-214 | each known day is numbered by its sorted queue, other days are left alone, no card is lost |
| ScheduleCanonical.CanonicalAgreesWithDraft | internal/anime/schedule_service_normalization.go:62-70 | where a draft moved nothing, its queue is the canonical one |
| ScheduleCanonical.CanonicalIdempotent | internal/anime/schedule_service_normalization.go:186-214 | canonicalizing twice changes nothing more |
| ScheduleMethods.SplitReflowPlacements | internal/anime/schedule_service_normalization.go:46-59 | the split keeps the other days and gathers exactly the queues taken apart |
| ScheduleMethods.PartitionDraftDestinationRefs | internal/anime/schedule_service_normalization.go:73-84 | unchanged and moved cards, each in the order met |
| ScheduleMethods.InsertSchedulePlacementRef | internal/anime/schedule_service_normalization.go:97-103 | the copy-shift insertion is the insertion at min(order - 1, length) |
| ScheduleMethods.MergeDraftDestinationRefs | internal/anime/schedule_service_normalization.go:62-70 | the loop computes the merged queue |
| ScheduleMethods.AppendNormalizedDestination | internal/anime/schedule_service_normalization.go:106-110 | the loop appends position k + 1 for the card at k, anime by anime |
| ScheduleMethods.NormalizeSchedulePlacementsForDraft | internal/anime/schedule_service_normalization.go:36-43 | the board rebuilt from the merged queues, for an arbitrary walk of both maps |
| ScheduleMethods.NormalizeSchedulePlacementsMap | internal/anime/schedule_service_normalization.go:186-214 | the canonical board |
| ScheduleMethods.DestinationHasDuplicateOrders | internal/anime/schedule_service_normalization.go:136-150 | the scan answers exactly whether two cards share a position |
| ScheduleMethods.AffectedScheduleDestinations | internal/anime/schedule_service_normalization.go:154-183 | both sides of every move, known days only |
| ScheduleMethods.ReflowScheduleDestinations | internal/anime/schedule_service_normalization.go:115-133 | the affected days not submitted, or submitted with a shared position |
| ScheduleMethods.DesiredSchedulePlacements | internal/anime/schedule_service_normalization.go:10-23 | active records overlaid with the draft |
| ScheduleMethods.NormalizedSchedulePlacements | internal/anime/schedule_service_normalization.go:28-31 | the whole draft, materialized |
| ScheduleMethods.SchedulePositionsAreContiguous | internal/anime/schedule_service_validation.go:107-115 | true exactly when the positions are 1 to n in some order |
| ScheduleMethods.ValidateAffectedScheduleDestinations | internal/anime/schedule_service_validation.go:84-91 | passes exactly when every affected day is contiguous |
| ScheduleMethods.ValidateEntries | internal/anime/schedule_service_validation.go:38-81 | the per-entry checks accept exactly the valid drafts |
| ScheduleMethods.ValidateScheduleDraft | internal/anime/schedule_service_validation.go:13-23 | accepts exactly the drafts that are valid entry by entry and contiguous as asked, whatever the walks |
| ScheduleApply.CurrentBoardModifiedAt | internal/anime/schedule_service.go:141-150 | the latest modification among active records |
| ScheduleApply.StaleScheduleEntry | internal/anime/schedule_service.go:92-99 | the first entry made against an outdated anime, if any |
| ScheduleOverlay.StaleExactly | internal/anime/schedule_service.go:92-99 | a draft is stale exactly when some entry was made on another modification time than its anime's record has |
| ScheduleApply.BuildScheduleOperations | internal/anime/schedule_service_operations.go:11-40 | one operation for each anime whose days change, and no other, sorted by anime |
| ScheduleApply.BatchDetermined | internal/anime/schedule_service.go:77-81 | boards that give every active anime one list have one batch: it does not depend on the walk over the records |
| ScheduleWalks.ListIsFixedExactly | internal/anime/schedule_service_normalization.go:36-43 | an anime has one list on every walk exactly when it has cards on at most one reflowed day |
| ScheduleWalks.BatchIsFixedExactly | internal/anime/schedule_service_operations.go:11-40 | the whole batch is one on every walk exactly when that holds of every active anime |
| ScheduleWalks.WrittenOnSomeWalk | internal/anime/schedule_service_operations.go:26-40 | an active anime with cards on two reflowed days is written on some walk, moved or not |
| ScheduleWalks.WalkDecidesWrites | internal/anime/schedule_service_normalization.go:39-41 | a draft that leaves an unmoved anime alone on one walk, and writes and restamps it on the other |
| ScheduleApply.Apply | internal/anime/schedule_service.go:55-84 | which result is returned, exactly: the refusals in order, the first stale entry, and past them, for a board of the draft, no-op when it changes nothing, the stamped batch when no changed anime was written meanwhile, and base-changed with nothing written otherwise |
| ScheduleApply.WriteBatch | internal/anime/store/gateway.go:163-197 | all operations or none: every base must still be the stored one |
| ScheduleApply.AppliedIsBatch | internal/anime/store/gateway.go:163-197 | each write goes to an active anime, once, stamped past its base |
| ScheduleOverlay.WrittenShowsBoard | internal/anime/store/gateway.go:163-197 | once the batch is in, every active record has its days on the board, raised when they changed, and every other record is as it was |
| ScheduleApply.TokenMovesExactly | internal/anime/schedule_service.go:63-66 | a second editor's board token is found out of date exactly when the clock, moved on by the batch, passes it, or the clock is behind some base that passes it once raised by its place in the batch |
| ScheduleWalks.TokenMayStay | internal/anime/store/gateway.go:163-197 | a draft that is written while every other editor's token still matches |
| ScheduleApply.ClockAheadMovesToken | internal/anime/store/gateway.go:167-192 | the token never moves back, and with a clock not behind the board every batch moves it |
| HosterWatch.ClassifyJDStatus | internal/download/service_hoster_watch.go:34-66 | when each verdict is given, over the links and packages; death excludes every sign of life |
| HosterWatch.HasPositiveJDSignal | internal/download/service_hoster_watch.go:169-184 | true exactly when something resolved or is transferring |
| HosterWatch.JDPreCheckIsDead | internal/download/service_hoster_watch.go:148-163 | dead exactly when a client answers with a dead status, and packages removed exactly then; one question at most |
| HosterWatch.DetectDownloadStartPhase | internal/download/service_hoster_watch.go:117-143 | at most 12 probes, five seconds apart, that say what the folder held; it fails exactly when none of the twelve sees a sign, and reports a landing exactly when the first sign is the episode itself |
| HosterWatch.EvaluateJDAfterGrace | internal/download/service_hoster_watch.go:296-340 | each exit exactly for its answer: no client, no status, dead, silent, alive; packages removed exactly on the answers that cost them |
| HosterWatch.PollForCompletion | internal/download/service_hoster_watch.go:253-268 | a look at the folder before every sleep, within 361 sleeps; success on the first look past the baseline, timeout only after the whole cap |
| HosterWatch.WatchTransfer | internal/download/service_hoster_watch.go:225-246 | grace, verdict and poll together: where the attempt ends for what the outside answers |
| HosterWatch.AwaitHosterOutcome | internal/download/service_hoster_watch.go:198-246 | each exit exactly for what the folder and JDownloader answer when asked; success exactly on a disk count past the baseline; at most two questions, and one removal exactly when the answers cost the packages, last, justified and named by the exit |
| HosterWatch.ExitDetermined | internal/download/service_hoster_watch.go:198-246 | two attempts that get the same answers end alike, but for the clock of the completion poll |
| HosterWatch.RemovalsExactly | internal/download/service_hoster_watch.go:198-340 | an attempt ends at an exit that removes packages exactly when the status was dead beforehand, or the grace was silent and the answer after it costs them |
| HosterWatch.FinishedWorkIsRemoved | internal/download/service_hoster_watch.go:323-326 | an attempt of a first hoster whose link is reported finished, nothing in the folder yet, is called dead and loses its packages |
| EpisodePipeline.TryHoster | internal/download/service_pipeline.go:408-445 | an enqueue-error row exactly when the client refuses; otherwise a row for the end the watch comes to, worded by its exit, and a removal exactly when the answers cost the packages, which is then a dead row |
| EpisodePipeline.EnqueueWithFallback | internal/download/service_pipeline.go:387-456 | one row per attempted hoster, for a prefix of the order; only the last a success; success, credit and failure kind are those of the last row's exit; when no_hosters and jd_unavailable are reported |
| EpisodePipeline.RowsAreWorded | internal/download/service_hoster_watch_exit.go:118-127 | which exits are a success, a dead hoster, a timeout and an enqueue error |
| EpisodePipeline.ProcessAvailableEpisode | internal/download/service_pipeline.go:161-217 | exactly when an episode lands, is offered or fails, from the page, the links, the gate and the last row of its ledger; one delta; only landing moves the cursor, strictly, and completes that episode |
| EpisodePipeline.DownloadAvailableEpisodes | internal/download/service_pipeline.go:118-144 | ends; the outcome is that of a story of episodes, each tried once the one before has landed; the episodes it names are those completed in the log; deltas sum to the outcome; unless cut short it leaves the folder caught up |
| EpisodePipeline.PlayedTells | internal/download/service_pipeline.go:118-217 | what an outcome tells of its story: found, landed, first and last, and the failure or the link that ended it |
| EpisodePipeline.JDGate.Online | internal/download/jd_gate.go:34-51 | resolves once, to what it is told then, and answers the same ever after |
| EpisodePipeline.EarlySettles | internal/download/service_pipeline.go:52-112 | an anime over before any episode reports its whole outcome in one delta |
| EpisodePipeline.PrepareAnimeDownload | internal/download/service_pipeline.go:52-91 | which of the early ends is taken, or what is missing, from the folder, the season and the listing |
| EpisodePipeline.ProcessAnime | internal/download/service_pipeline.go:18-33 | on every path the deltas sum to the outcome, the gate is asked only when an episode is missing, the episodes counted are those completed in the log, in order, and the outcome is an early one or the one its story makes |
| DownloadRun.WorkersSoundStep | internal/download/service.go:367-400 | every step keeps each worker's outcome in line with where it is and with the gate |
| DownloadRun.GateSoundStep | internal/download/jd_gate.go:34-60 | every step keeps the gate resolved at most once, by one worker |
| DownloadRun.BalancedStep | internal/download/service.go:320-327 | every step keeps counters, slots and channel equal to the sums over workers |
| DownloadRun.InvStep | internal/download/service.go:319-401 | one step of any worker keeps all of that |
| DownloadRun.RunInv | internal/download/service.go:319-401 | it holds in every state of every interleaving |
| DownloadTheorems.CountersAreSums | internal/download/service.go:319-336 | counters are the sums over outcomes; at the end every anime was skipped or checked once and its outcome collected once |
| DownloadTheorems.CountersCountEndings | internal/download/service.go:499-513 | at the end each counter is what it says: animes not ready, checked, current and failing, and the episodes found and downloaded |
| DownloadTheorems.ListedInOrder | internal/download/service.go:384-415 | links and outcomes are listed in the order they come, and by no other move |
| DownloadTheorems.DeliveredAreWhole | internal/download/service.go:367-400 | every outcome delivered has the shape the notification rows rely on |
| DownloadTheorems.GateSplitsRuns | internal/download/jd_gate.go:34-60 | at most one resolution; offline, nothing is downloaded in the whole run; online, nothing is offered by hand |
| DownloadTheorems.LaunchedOnlyForCause | internal/download/service_pipeline.go:114-119 | the gate is asked only once an episode is missing; offline once known stays known |
| DownloadTheorems.RunNeverStalls | internal/download/service.go:367-395 | while a worker is not done some worker can move |
| DownloadTheorems.RunIsBounded | internal/download/service.go:367-395 | no interleaving takes more moves than a bound in the listings |
| DownloadTheorems.ThrottleHolds | internal/download/service.go:370-383 | never more animes at once than the limit; none when it is below one |
| DownloadTheorems.SummarizeAnimeOutcomes | internal/download/service.go:406-415 | whether any outcome failed and any succeeded |
| DownloadTheorems.StatusMeans | internal/download/service.go:421-496 | what each of the five final statuses says of the animes, exactly |
| DownloadRefines.StoryPlays | internal/download/service_pipeline.go:118-144 | an anime's story of episodes is a run of its worker's moves, in any state of any run |
| DownloadRefines.OutcomeIsDelivered | internal/download/service_pipeline.go:18-33 | every outcome ProcessAnime may return is one that a worker may deliver |
| NotificationRows.CountNotificationSubjects | internal/desktop/app_notification_center_projection.go:31-41 | the loop sums what each row stands for beyond the rows below it |
| NotificationRows.QuietMeans | internal/download/service_notification_rows.go:189-192 | an outcome is folded away exactly when the anime was skipped or current |
| NotificationRows.RowWords | internal/download/service_notification_rows.go:205-220 | the word of a row, exactly: failed, offered by hand, downloaded, skipped, up to date |
| NotificationRows.CheckedMeansCutShort | internal/download/service_notification_rows.go:205-220 | the word left over is the one of an anime a stop cut short |
| NotificationRows.PhraseIsExact | internal/download/service_notification_rows.go:258-269 | a range is named exactly when the episodes the outcome brackets are all of it and nothing else |
| NotificationRows.ProcessAndPhrase | internal/download/service_notification_rows.go:258-269 | one anime from start to phrase: the phrase names exactly the episodes completed in the log, and a bare count only when they are no range |
| NotificationRows.PartitionRunOutcomes | internal/download/service_notification_rows.go:102-113 | eventful and quiet, each in the order collected |
| NotificationRows.WherePicks | internal/download/service_notification_rows.go:102-113 | the two parts are picked in the order collected, each outcome once |
| NotificationRows.BuildRunDetailRows | internal/download/service_notification_rows.go:39-57 | the layout of a run's rows |
| NotificationRows.RunBadgeCountsAnimes | internal/download/service_notification_rows.go:39-169 | the badge of a run's rows counts every anime once |
| NotificationRows.AttentionFirst | internal/download/service_notification_rows.go:115-128 | who is named: eventful animes first, quiet ones only in what is left, as many in all as the limit allows |
| NotificationRows.BuildRunStartedRows | internal/download/service_notification_rows.go:77-98 | the badge of a starting run counts the addressable animes |
| NotificationRows.AddressablePicks | internal/download/service_notification_rows.go:77-98 | the animes with an id, in the order selected |
| NotificationRows.BuildSeasonAvailableRows | internal/desktop/app_season_notification_rows.go:30-58 | the badge of a season batch counts its names |
| BundleFormat.PrintedInjective | internal/backup/bundle.go:116-123 | among lists whose names forge nothing the hashed text determines the list of groups |
| BundleFormat.ForgedIsRead | internal/backup/bundle.go:116-123 | every list is hashed like one list whose names forge nothing, and that is itself exactly when its own names forge nothing: a name forges when it starts with another group's whole line |
| BundleFormat.LineBreakForgesGroups | internal/backup/bundle.go:116-123 | such a name, and the two lists that hash alike |
| BundleFormat.DecimalReads | internal/backup/bundle.go:116-123 | counts are printed in decimal without leading zeros |
| Bundle.Export | internal/backup/export.go:30-61 | the manifest is written last and only when every group exported |
| Bundle.ReadManifestFromZip | internal/backup/verify.go:138-156 | the loop reads the manifest |
| Bundle.ManifestIsFirst | internal/backup/verify.go:138-156 | the first entry of that name decides |
| Bundle.IndexZipEntries | internal/backup/verify.go:88-94 | the loop builds the lookup |
| Bundle.IndexFindsLast | internal/backup/verify.go:88-94 | exactly the names of entries are found, and of several entries of one name the last |
| Bundle.VerifyContextChecksums | internal/backup/verify.go:99-114 | passes exactly when every group is there, fits and digests as recorded; else the first failure |
| Bundle.VerifyBundle | internal/backup/verify.go:49-83 | passes exactly on a readable manifest of a known version whose digests and checksum are right |
| Bundle.FailedExportIsNoBundle | internal/backup/bundle.go:22-24 | a failed export left nothing that reads as a bundle |
| Bundle.ExportVerifiesExactly | internal/backup/verify.go:49-83 | an export verifies exactly when every stored entry fits and, for a repeated name, digests alike |
| Bundle.ManifestTells | internal/backup/export.go:30-61 | an export's manifest says of every group its name, the count reported and the digest of what was written |
| Bundle.RoundTrip | internal/backup/verify.go:173-183 | with distinct names each group opens to the bytes its export wrote, and no other group opens |
| Bundle.ChecksumPinsContents | internal/backup/bundle.go:116-123 | verified bundles with one checksum and no forging names hold the same groups and bytes, or a digest collision |
| BundleImport.Apply | internal/backup/import.go:129-174 | groups in order until one fails: what committed, what failed, what was not attempted |
| BundleImport.UnknownBundleGroups | internal/backup/import.go:109-122 | the carried names no importer has, in the order carried and as often |
| BundleImport.CarriedNamesAccounted | internal/backup/import.go:109-122 | a name is unknown exactly when it is carried and no importer has it |
| BundleImport.PreviewedPicks | internal/backup/import.go:68-99 | shown are the carried groups in the importers' order, each with its validated count |
| BundleImport.ImportedPicks | internal/backup/import.go:129-162 | the import reports the carried groups in order, each with the rows put in its table |
| BundleImport.Preview | internal/backup/import.go:68-104 | what the preview reports, and when it refuses; nothing is written |
| BundleImport.PreviewForetells | internal/backup/import.go:65-162 | a preview that passes foretells the import and its counts |
| BundleImport.PreviewAccounts | internal/backup/import.go:83-99 | every known group is shown or absent, never both |
| BundleImport.OmissionIsNotDeletion | internal/backup/import.go:142-149 | tables the bundle does not carry stay as they were |
| BundleImport.ExportThenApplyRestores | internal/backup/import.go:129-162 | exporting tables and applying the bundle anywhere restores them and touches no other |
| ActivityLog.Where | internal/activity/store.go:111-133 | the clauses appended select exactly what the query asks for |
| ActivityLog.FiltersPartition | internal/activity/store.go:111-133 | unset filters admit everything, bounds are inclusive: adjoining windows share no row and miss none |
| ActivityLog.PageIsPrefix | internal/activity/store.go:272-320 | a page is the first rows of the plain sorted list |
| ActivityLog.PagesNeverRepeat | internal/activity/store.go:98-108 | following pages never repeats or disorders, whatever is written between them |
| ActivityLog.PagesNeverSkip | internal/activity/store.go:98-108 | a row that stayed in the table and was reached was read |
| ActivityLog.PagesEnumerate | internal/activity/store.go:98-108 | on a still table the pages are exactly the selected rows |
| ActivityLog.WriteKeeps | internal/activity/store.go:199-258 | a committed write keeps order, ids and the bound |
| ActivityLog.TableStaysBounded | internal/activity/store.go:238-258 | after a process's first committed write the table holds at most rowCap + pruneEvery - 1 rows |
| ActivityLog.PruneKeepsNewest | internal/activity/store.go:244-258 | a prune keeps exactly the newest rows up to the cap |
| ActivityLog.NothingLostBetween | internal/activity/store.go:238-258 | between two prunes the table keeps every row and gains the new one |
| ActivityLog.WrittenRowSurvives | internal/activity/store.go:199-258 | when the write that prunes keeps its own row |
| ActivityLog.Store.constructor | internal/activity/store.go:184-194 | a non-positive retention falls back to its default |
| ActivityLog.Store.RecordActivity | internal/activity/store.go:199-258 | the new table with the record under its own source, or the system's when it names none, and what a refused insert or commit leaves |
| ActivityLog.Store.ListRecent | internal/activity/store.go:272-320 | the walk over the index gives the page, newest first and within the limit |
| ActivityLog.Store.CountMatching | internal/activity/store.go:262-269 | the length of the list the pages are cut from |

## Left out

- Requests the clearance policy does not admit pass straight through; announcements, logging and the registrable domain of a host are not modelled.
- Lower-casing of hosts and cookie domains is modelled for ASCII only.
- The solve timeout is a step that may be taken at any time while a leader waits for a slot, and an arbitrary solver answer afterwards; solver panics are not modelled.
- `sort.SliceStable`, `sort.Ints` and `sort.Slice` are functions whose order and stability are proved, not the library's in-place sorts; entry-id and submitted-day sets are comprehensions.
- ScheduleApply.Apply: an anime counts as changed when its days differ, where the source compares re-encoded JSON; conflict recording and the announcement of committed writes are left out.
- EpisodePipeline.DownloadAvailableEpisodes: requires that nobody deletes episodes while it looks at the folder; without that the source's own loop need not end.
- The order of hosters is an arbitrary function of the extracted links; hoster-name casing between the resolver and the lookup is not modelled.
- EpisodePipeline.ProcessAnime: asks the gate once for all episodes, where the source asks per episode; that the answer cannot change in between is DownloadTheorems.LaunchedOnlyForCause.
- Progress deltas name their anime here, where the source leaves that field empty; the counters do not read it.
- DownloadRun keeps the slot count even when no limit is set, where the source has no semaphore; it then bounds nothing.
- Row titles, bodies and detail sentences other than the episode phrase, and row actions, are not modelled.
- SHA-256, JSON and the zip container are abstract; a group's export is one write, and a manifest is assumed to survive its encoding.
- Bundle.RoundTrip: requires distinct group names; what repeated names do is Bundle.ExportVerifiesExactly. Archive entries no manifest names can still be opened by name, as in the source.
- BundleImport.Apply: a failing importer leaves its table as it was, which the source leaves to each importer's transaction.
- SQL text is a list of clauses with their meaning, and the table is kept in the order of its index; the AUTOINCREMENT id is a counter.
- ActivityLog.Store.RecordActivity: the bound is not promised after a commit that fails, because the write counter has then already advanced.
- Replay of the activity log, the season service, watch history, the JDownloader client, path utilities, HTTP routing and the desktop shell are not part of this model.
