# Verification of the earthquake incident pipeline

A Dafny model of how the service turns provider observations into canonical earthquake incidents, publishes every
version of them, and notifies subscribers, with proofs of what each step keeps and of what holds over whole runs.

Check it with `dafny verify dfyconfig.toml`.

## The parts

| files | what they model |
|---|---|
| `Solutions.dfy`, `Correlation.dfy`, `CorrelationScores.dfy` | solution classes, lifecycles, the preference between sources; scoring and choosing the incident that a first sighting joins, and what a score answers to |
| `IncidentTables.dfy`, `Repository.dfy` | ingestion of one observation, as functions on the tables and as the methods that write them row by row, proved equal |
| `KnownSources.dfy`, `FirstSightings.dfy` | what an observation leaves of every row it touches, told by the stored rows and the observation alone |
| `IncidentInvariants.dfy`, `IncidentHistory.dfy`, `IncidentLaws.dfy`, `Confluence.dfy` | what every ingestion step keeps, whole runs, documented laws with their exact conditions, arrival order |
| `IngestionLocks.dfy`, `TableChanges.dfy`, `IngestionOrder.dfy` | interleaved ingestion transactions under the advisory lock and row locks, steps that commute, and the serial run that every interleaving amounts to |
| `Contracts.dfy`, `CoreMessaging.dfy`, `ConsumerGroups.dfy`, `OutboxRelay.dfy`, `Pipeline.dfy`, `PipelineTheorems.dfy`, `NotificationOrigins.dfy`, `MessagingRepository.dfy` | messages, inbox and outbox, Kafka consumer groups, relays with lock timeouts and clocks of their own, the whole pipeline end to end, and the messaging tables with the relay's loop |
| `ConcurrentConsumers.dfy` | core consumers whose transactions interleave, from inbox row to outbox row |
| `Shaking.dfy`, `ShakingLaws.dfy`, `Subscriptions.dfy`, `NotificationRepository.dfy`, `MatchingLaws.dfy`, `NotificationConsumer.dfy` | the intensity estimate, the search radius, whom a change notifies, what matching writes, and the transaction of one message |
| `TelegramAlerts.dfy`, `TelegramFence.dfy`, `TelegramConvergence.dfy`, `TelegramWorker.dfy` | the projection of desired and delivered Telegram messages, its lock timeout, when it converges, and the worker that delivers them |
| `Backfill.dfy` | historical backfill in checkpointed windows |

Code that changes rows step by step is a class whose methods are proved against functions or predicates on the old and
new state; what the service promises is then proved of those. Concurrent programs are state machines over their
steps: any number of consumers, relays, workers and transactions, with crashes, redelivery, lost responses and lock
timeouts at every step.

Times are integers, and floats are reals. Payload hashes and deterministic identifiers are taken to be injective, so a
payload and the values that an identifier is computed from stand for them. Fresh UUIDs, clocks, the order in which the
database returns equal rows, and failures of calls are parameters or free choices. Distance is an arbitrary function; the
logarithm, exponential and square root are known only by their laws.

## Where the documentation and the code disagree

The model follows the code. Each point has a lemma with an input and a lemma with the exact condition.

- `docs/architecture.md:51` says that stale responses cannot overwrite newer source data. Staleness is judged by the
  incident's time, so a source that is not canonical can be taken back in time
  (`IncidentLaws.OlderDataOverwrites`, `IncidentLaws.SourceTimeFallsExactlyWhenBackdated`).
- `docs/event-correlation.md:56` says that a lifecycle advances monotonically but for retraction. It also falls, without
  becoming retracted, when the one best source of several is retracted (`IncidentLaws.LifecycleFallsBack`,
  `IncidentLaws.LifecycleFallsExactlyOnTimelyRetraction`).
- `internal/domain/shaking/model.go:72` calls the search radius conservative. It stops at 20000 km, within the bound of half
  the Earth's circumference that `docs/decisions.md:113` sets, and drops subscriptions beyond
  (`Subscriptions.MaximumDropsASubscription`, `Subscriptions.FiringIsSelectedWithinTheMaximum`).
- `docs/event-correlation.md:115` says that edits converge on the newest text. An upsert that reopens a row under
  delivery lets two workers overlap, after which the row is active and shows an older version: because both sent
  (`TelegramConvergence.OverlapBreaksConvergence`, `TelegramConvergence.LateOverlapBreaksConvergence`), or because both
  edited (`TelegramConvergence.EditsBreakConvergence`). A run converges, wherever it is broken off, if and only if no claim
  in it finds a worker that may do harm: one that read another text, and still has its edit to make or, while the row
  stores no message, has sent a message or may send one (`TelegramConvergence.ConvergesExactlyWhenNoClaimFindsHarm`).
- `docs/architecture.md:95` describes backfill checkpoints per range. Ranges are told apart in whole seconds, so a call may
  succeed at another range's checkpoint without fetching its own beginning (`Backfills.SharedSecondSkips`,
  `Backfills.SuccessCoversExactlyWhenTheStartIsCovered`).
- `docs/notifications.md:28` mentions a cap of one hour on retry delays. It is never reached
  (`TelegramWorkers.CeilingsGrowBelowTheCap`).

## Model

| member | source | states |
|---|---|---|
| Solutions.ResolveLifecycle | internal/domain/earthquake/correlation.go:54-82 | the loop over solution classes finds the one lifecycle that the evidence supports: the best class that is not retracted, retracted only when there is none |
| Solutions.SupportedLifecycleIsUnique | internal/domain/earthquake/correlation.go:54-82 | a body of evidence supports at most one lifecycle |
| Solutions.PreferenceIsStrictTotalOrder | internal/domain/earthquake/correlation.go:235-257 | preference between sources is irreflexive, asymmetric and transitive, and total between different catalogue providers |
| Solutions.BeatsExactlyWhen | internal/domain/earthquake/correlation.go:235-257 | a reviewed source is preferred to a confirmed, preliminary and retracted one, in this order, and among equal classes KNDC to USGS, GEOFON, EMSC and all others, in this order |
| Correlation.Policy.ScoreIsAProportion | internal/domain/earthquake/correlation.go:187-224 | under a valid policy every score lies in [0, 1] |
| Correlation.Policy.InvalidExactlyWhen | internal/domain/earthquake/correlation.go:123-131 | what makes a policy invalid |
| CorrelationScores.RejectedExactlyWhen | internal/domain/earthquake/correlation.go:187-220 | a candidate is rejected if and only if a known gap exceeds its maximum, or no dimension known of both has a weight |
| CorrelationScores.ScoreAnswersToTime | internal/domain/earthquake/correlation.go:187-224 | two candidates that differ from the newcomer alike but in time differ in score by the weight of time, as a part of the known weights, times the difference of their gaps, as a part of the maximum |
| CorrelationScores.ScoreAnswersToDistance | internal/domain/earthquake/correlation.go:187-224 | so it is for distance |
| CorrelationScores.ScoreAnswersToMagnitude | internal/domain/earthquake/correlation.go:187-224 | so it is for magnitude, where it is known |
| CorrelationScores.ScoreAnswersToDepth | internal/domain/earthquake/correlation.go:187-224 | so it is for depth, where it is known |
| CorrelationScores.ScoreIsFullExactlyWhen | internal/domain/earthquake/correlation.go:187-224 | a score is 1 if and only if every gap with a weight is zero |
| Correlation.Policy.Correlate | internal/domain/earthquake/correlation.go:154-185 | for every sequence of different candidates the match is the one that reaches the threshold and beats all others by the margin, if there is one; the answer depends on the set of candidates only; it is ambiguous exactly when some match reaches the threshold and none wins |
| Correlation.Policy.WinnerIsUnique | internal/domain/earthquake/correlation.go:154-185 | at most one match wins |
| Correlation.Policy.MoreCandidatesNeverWorsenTheWinner | internal/domain/earthquake/correlation.go:154-185 | one more candidate never moves the match to a lower score or to a third incident |
| Correlation.SortByRank | internal/domain/earthquake/correlation.go:168-173 | ranking is a permutation in the order of score, then identity |
| KnownSources.KnownSourceFollows | internal/repository/postgres/repository.go:251-316 | what an event of a known source leaves: the better class, and a retraction only in time and for good; the row rewritten if and only if the observation counts and is of no weaker class; the incident adopting it if and only if it is then preferable or preferred; channel, links, times, kind of change and receipt |
| FirstSightings.FirstSightingFollows | internal/repository/postgres/repository.go:180-246 | a first sighting joins the incident that stands out, or else opens one; what it leaves of source, incident and receipt; the newcomer is adopted if and only if it is preferable |
| FirstSightings.DecisionJoinsExactlyWhen | internal/repository/postgres/repository.go:360-412 | an incident is joined if and only if the newcomer is of a catalogue and has a magnitude, fewer than 100 incidents lie within 30 seconds and 25 km and are of another catalogue and not of the newcomer's provider, and this one scores 0.82 and 0.08 more than any other by the weights in production |
| IncidentInvariants.ApplyEventKeepsConsistency | internal/repository/postgres/repository.go:160-316 | every branch of ingestion keeps the store consistent: one active association a source, to the incident it names; one source a provider in an incident; the canonical fields, time and source version of each incident are those of its preferred source, its own; its lifecycle is what its evidence supports; its revisions are the versions 2..current, once each |
| IncidentInvariants.ApplyEventFailsOnlyOnMintedCollision | internal/repository/postgres/repository.go:189-246 | on a consistent store no unique key is violated, no row is missing and the recursive retry is not taken: ingestion fails exactly when the identity minted for a new incident is taken |
| IncidentInvariants.PreferredIdentityIsUnique | internal/repository/postgres/repository.go:318-350 | no two incidents prefer one source, and none prefers an unknown one |
| IncidentInvariants.NextRevisionIsFree | internal/repository/postgres/repository.go:354-357 | the key of a source's next revision is never taken |
| IncidentInvariants.MaterialIsStep | internal/repository/postgres/repository.go:294-316 | a material update rewrites its source, and makes it canonical exactly when it is or becomes the preferred one |
| IncidentInvariants.CorrelatedIsStep | internal/repository/postgres/repository.go:423-475 | a first sighting that joins an incident becomes canonical exactly when it beats the preferred source, and always leaves one new version with its revision |
| IncidentInvariants.LifecycleChangeIsStep | internal/repository/postgres/repository.go:569-595 | a change of evidence makes a new version exactly when the lifecycle changes, whatever kind is reported |
| IncidentHistory.EveryReachableStoreIsConsistent | internal/repository/postgres/repository.go:160-316 | every store that ingestion can reach is consistent |
| IncidentHistory.RunGrows | internal/repository/postgres/repository.go:251-299 | over every run sources stay with their incidents and climb preliminary < confirmed < reviewed < retracted, versions never fall, and associations, revisions and observations are only added |
| IncidentHistory.RetractionIsFinal | internal/domain/earthquake/correlation.go:86-94 | no later run of observations brings a retracted source back |
| IncidentHistory.LifecycleFallsExactlyWhenSoleBestRetracts | internal/repository/postgres/repository.go:546-595 | a lifecycle falls if and only if the step retracts the one source that held it up, and becomes retracted if and only if all other sources are |
| IncidentLaws.LifecycleFallsExactlyOnTimelyRetraction | internal/repository/postgres/repository.go:251-316 | an event lowers a lifecycle if and only if it is a timely retraction of the one source that held it up, as the tables and the observation tell beforehand |
| CoreMessaging.ReplayPublishesNothing | internal/repository/postgres/messaging.go:171-184 | replaying an observation right after it was applied adds no outbox row |
| IncidentHistory.ReplayChangesNothing | internal/repository/postgres/repository.go:251-316 | replaying an observation right after it was applied, through any branch, changes no version, lifecycle or canonical field and adds no row, however often |
| IncidentLaws.SourceTimeFallsExactlyWhenBackdated | internal/repository/postgres/repository.go:251-299 | older data replaces newer data of a source if and only if it is not older than the incident, not the stored payload at the incident's time and not of a weaker class; never at the preferred source |
| IncidentLaws.OlderDataOverwrites | internal/repository/postgres/repository.go:251-263 | a run of three sightings in which it happens |
| IncidentLaws.KnownSourceKeepsIncidentTime | internal/repository/postgres/repository.go:251-316 | a known source never takes its incident back in time |
| IncidentLaws.JoinedIncidentTimeFallsExactlyWhenOlderWins | internal/repository/postgres/repository.go:467-474 | a joining source takes the incident back in time if and only if it is older and preferred |
| IncidentLaws.IncidentTimeFalls | internal/repository/postgres/repository.go:467-474 | a run of two sightings in which it happens |
| IncidentLaws.RetractionCountsExactlyWhenTimely | internal/repository/postgres/repository.go:251-316 | the retraction of a known source counts if and only if it is neither older than the incident nor the stored payload again |
| IncidentLaws.CanonicalRankFallsExactlyWhenItRetracts | internal/repository/postgres/repository.go:251-316 | values of a weaker class replace canonical ones if and only if the preferred source itself retracts them in time |
| IncidentLaws.JoiningNeverLowersTheCanonicalRank | internal/repository/postgres/repository.go:467-474 | a first sighting never brings weaker canonical values |
| IncidentLaws.LifecycleFallsBack | internal/domain/earthquake/correlation.go:56-82 | a run in which a reviewed incident falls back without being retracted |
| Confluence.ArrivalOrderDoesNotMatter | internal/repository/postgres/repository.go:360-475 | first sightings that gather in one incident leave the same canonical row, lifecycle and version under every order of arrival |
| Confluence.GatheringDependsOnArrivals | internal/repository/postgres/repository.go:467-474 | the preferred source of a gathered incident is the one that beats all others, and its version is their number |
| IngestionLocks.EveryInterleavingKeepsInvariant | internal/repository/postgres/repository.go:160-216 | in every interleaving of transactions the store stays consistent, lock holders commit in the order of their locks, and whoever decides under the lock has seen every incident that earlier holders opened |
| IngestionOrder.InterleavingIsSerial | internal/repository/postgres/repository.go:360-412 | in every interleaving the tables are, but for the order of association and revision rows, those of one serial run of the committed events, in which a first sighting under the lock stands where it was decided and the holders of the lock come in the order of their locks |
| TableChanges.EventIsRowwise | internal/repository/postgres/repository.go:160-316 | what an event does is independent of the order in which rows were written |
| TableChanges.KnownCommutes | internal/repository/postgres/repository.go:248-316 | a first sighting and the rewriting of a known source of another incident have one effect in both orders |
| TableChanges.ChoicesCommute | internal/repository/postgres/repository.go:180-246 | two first sightings of different sources that go to different incidents have one effect in both orders |
| IngestionLocks.WaitsForTheLockExactlyWhen | internal/repository/postgres/repository.go:360-369 | a transaction waits for the advisory lock if and only if its source is new, of a catalogue and has a magnitude |
| IngestionLocks.OpeningKeepsEligible | internal/repository/postgres/repository.go:360-387 | an incident opened without the lock is no candidate for any decision |
| IngestionLocks.SameIdentityRereadsOrAborts | internal/repository/postgres/repository.go:195-228 | of two first sightings of one source the second writes nothing: it reads the row again exactly when it opens an incident and the source is preferred, and aborts otherwise |
| Repositories.Repository.Apply | internal/repository/postgres/repository.go:160-316 | the statement-by-statement program equals the transaction as a function of the old tables, errors included |
| Repositories.Repository.ApplyBatch | internal/repository/postgres/repository.go:108-158 | a batch is applied as a whole with the tally of its changes, or fails with the first error and leaves the tables alone |
| Repositories.Repository.IncidentLifecycle | internal/repository/postgres/repository.go:546-567 | reading the associated classes row by row resolves the evidence of the incident |
| Repositories.Repository.DecideCorrelation | internal/repository/postgres/repository.go:360-412 | a page of fewer than 100 candidates is all of them, and a full page decides nothing |
| Repositories.CandidatePage | internal/repository/postgres/repository.go:374-400 | the page holds each eligible incident once, or exactly the 100 nearest in time, in the order of distance in time and identity |
| Repositories.Repository.UpdateKnown | internal/repository/postgres/repository.go:248-316 | the branches for a known source equal the transaction as a function |
| IncidentTables.Tally | internal/repository/postgres/repository.go:128-141 | fetched events are the inserted, updated and unchanged ones together |
| IncidentTables.TallyCountsKinds | internal/repository/postgres/repository.go:128-141 | insertions and updates are counted each, unchanged and stale events together |
| Contracts.IncidentChangeRoundTrip | internal/eventstream/contracts.go:159-199 | a change is accepted exactly when it is an insertion or update of a version, in a known mode, at a proper time, and is then received with its kind, identity and both snapshots; its message is eligible if and only if it came in realtime after a complete baseline |
| Contracts.SnapshotShowsTheIncident | internal/eventstream/contracts.go:201-213 | each value of a message is the incident's |
| Contracts.SnapshotKeepsAllButProvenance | internal/eventstream/contracts.go:201-230 | two incidents look alike in a message if and only if they differ in provenance at most |
| Contracts.ProviderObservationRoundTrip | internal/eventstream/contracts.go:112-157 | a message is made exactly of a valid observation in a valid mode, and gives it back |
| Contracts.ChangeIsAcceptedExactlyWhen | internal/eventstream/contracts.go:175-271 | which messages of changes a consumer accepts, whoever made them |
| Contracts.ObservationIsAcceptedExactlyWhen | internal/eventstream/contracts.go:236-254 | which messages of observations a consumer accepts, whoever made them |
| Contracts.MessagesAgreeExactlyWhen | internal/eventstream/contracts.go:112-139 | two observations have one identifier if and only if they agree on source, channel, time and payload |
| NotificationOrigins.OnlyRealtimeIsEligible | internal/eventstream/contracts.go:159-173 | in every run, a message in the change log is eligible if and only if the observation whose processing made its version came in realtime, after a complete baseline |
| NotificationConsumers.OnlyRealtimeNotifies | internal/repository/postgres/messaging.go:119-128 | a change that came as baseline, backfill or recovery adds no alert and no delivery |
| CoreMessaging.ApplyProviderMessageKeepsInvariant | internal/repository/postgres/messaging.go:33-79 | an applied message keeps the tables equal to the fold of the inbox and the outbox equal to the versions 1..current of every incident, the newest of which shows the incident; a skipped one changes nothing |
| CoreMessaging.MessageIsAppliedExactlyWhen | internal/repository/postgres/messaging.go:33-79 | of acceptable messages, one whose position holds another is refused, one that is stored is skipped, and any other is applied unless the store fails |
| CoreMessaging.NewRowWaits | internal/repository/postgres/messaging.go:171-184 | a new outbox row waits to be published at once |
| CoreMessaging.PublishableKeepsComplete | internal/repository/postgres/messaging.go:171-184 | every new version, and nothing else, adds one outbox row, in a message that consumers accept |
| MessagingRepositories.MessagingRepository.ApplyProvider | internal/repository/postgres/messaging.go:33-79 | inbox, incident change and outbox in one transaction, equal to the transaction as a function, errors included |
| MessagingRepositories.MessagingRepository.ApplyIncident | internal/repository/postgres/messaging.go:81-115 | the notification inbox accepts, skips or refuses a message as specified |
| NotificationConsumers.ApplyIncidentMessage | internal/repository/postgres/messaging.go:81-133 | one transaction: a refused or repeated message, or one whose alerts cannot be stored, leaves nothing; any other leaves its inbox row, the refreshed alerts of an update and the matching of an eligible change together |
| NotificationConsumers.NoticeShowsTheMessage | internal/repository/postgres/messaging.go:90-93 | what is matched is what the message tells: both states, version, lifecycle and mode |
| NotificationConsumers.UpdateReachesAlertsExactlyWhen | internal/repository/postgres/repository.go:779-833 | an update moves the older alerts of its incident to its version, of active and paused subscriptions, and no others |
| NotificationConsumers.RefreshedAlertsKeepTheirText | internal/repository/postgres/messaging.go:119-128 | an alert that an update refreshes carries the text of the refresh; a trigger's text is for new alerts |
| NotificationConsumers.MatchingAgainChangesNothing | internal/repository/postgres/repository.go:746-764 | matching a change again changes no alert and no delivery, even without the inbox |
| MessagingRepositories.MessagingRepository.ClaimCoreOutbox | internal/repository/postgres/messaging.go:186-215 | locks rows that are unpublished, due and not under a young lock, the most overdue up to the batch, all of them if they fit, and no others |
| MessagingRepositories.MessagingRepository.CompleteCoreOutbox | internal/repository/postgres/messaging.go:217-228 | publishes a row exactly for the worker that holds it |
| MessagingRepositories.MessagingRepository.FailCoreOutbox | internal/repository/postgres/messaging.go:230-246 | puts a row off exactly for the worker that holds it |
| MessagingRepositories.ProcessOutbox | internal/core/outbox.go:54-103 | a round publishes each row that it claims once, and completes it if the broker acknowledged that, or else puts it off by the backoff of its attempts; no other row changes, and the log grows by what was appended |
| OutboxRelay.BackoffDoublesUpTo256Seconds | internal/core/outbox.go:92-103 | the backoff is a second at first, doubles with every attempt, and is 256 seconds from the eighth on |
| OutboxRelay.EveryRunIsFenced | internal/core/outbox.go:54-103 | for any number of relays with clocks that may differ: two work on one row only if one claim had outlived the lock timeout by the clock of the relay that made the other; a row is published exactly by one completion, after the broker acknowledged it |
| OutboxRelay.OnlyTheCurrentClaimSettles | internal/repository/postgres/messaging.go:217-246 | a completion or failure changes the outbox exactly when its relay's claim is the current one |
| PipelineTheorems.NotificationsAreExactlyOnce | internal/notification/consumer.go:45-89 | under any crashes, redelivery and repeated publication a version of an incident is notified at most once, only existing versions are, and once all is drained every version 1..current has been |
| PipelineTheorems.ConsumptionIsAFold | internal/core/consumer.go:40-72 | the tables equal the fold of the observations that the log holds under the distinct messages, in order of first processing, log order is kept in each partition, and no committed offset passes an unapplied record |
| ConcurrentConsumers.InterleavedConsumptionIsAFold | internal/repository/postgres/messaging.go:33-79 | however the transactions of consumers interleave, applying the committed messages one by one in some order gives the tables, but for the order of rows; a message committed before another began comes before it, so one that is consumed after another stays after it; no message or position is committed twice, and the outbox holds exactly the versions 1..current |
| PipelineTheorems.NewestMessageShowsTheIncident | internal/repository/postgres/messaging.go:171-184 | in every run the newest message of every incident shows the incident as the tables have it, but for the time it was last seen |
| PipelineTheorems.EveryPublicationIsAccepted | internal/eventstream/contracts.go:175-199 | whatever relays publish passes the decoder and the key check of the notification consumer |
| PipelineTheorems.NoPositionEverConflicts | internal/repository/postgres/messaging.go:135-169 | over immutable logs neither consumer can meet a position conflict |
| PipelineTheorems.ConsumingFailsOnlyInTheStore | internal/core/consumer.go:46-67 | consuming a well-formed record fails only where the incident store does |
| PipelineTheorems.ConsumerStopsExactlyWhen | internal/core/consumer.go:40-72 | a consumer stops, without a trace, if and only if the message is not acceptable, the key does not name its source, or the store refuses it; otherwise the record is applied |
| PipelineTheorems.NotificationConsumerStopsExactlyWhen | internal/notification/consumer.go:46-81 | so does the notification consumer, by the key of the incident |
| PipelineTheorems.NotificationIsMadeExactlyWhen | internal/repository/postgres/messaging.go:81-115 | of acceptable messages, one whose position holds another is refused, one that is stored is skipped, and any other makes its notifications |
| PipelineTheorems.EveryRunKeepsInvariant | internal/core/consumer.go:40-92 | the invariant of the whole pipeline holds in every run |
| ConsumerGroups.CommitKeepsTrack | internal/core/consumer.go:58-72 | committing after applying never moves a committed offset past an unapplied record |
| ConsumerGroups.SessionsPassOneRecordAtATime | internal/core/consumer.go:40-72 | a session starts at the committed offset, and a commit passes the applied record and no other |
| ShakingLaws.EstimateFollows | internal/domain/shaking/model.go:37-72 | the estimate in another form: the slant distance by Pythagoras, twice the mean by logarithms of squares, the spread by a product, all values on the scale; none without a magnitude |
| ShakingLaws.BoundFollows | internal/domain/shaking/model.go:74-91 | the bound of the search in the same form |
| Shaking.UpperDecreases | internal/domain/shaking/model.go:114-135 | mean plus sigma never increases with distance for saturations up to 200 km, also across 50 km where a rising logarithm joins the mean |
| Shaking.ReachIsDownward | internal/domain/shaking/model.go:114-135 | the distances that reach an intensity are those up to some distance, at every magnitude and depth for intensities up to seven |
| Shaking.UpperRisesAtLargeMagnitudes | internal/domain/shaking/model.go:114-135 | at magnitude 12 mean plus sigma rises from 100 to 400 km |
| Shaking.SaturatedGrowth | internal/domain/shaking/model.go:129-132 | the comparison of logarithms behind it, by Bernoulli's inequality |
| Shaking.CandidateRadius | internal/domain/shaking/model.go:74-102 | the 64 bisection steps return nothing, everything, or a radius at which the bound falls below the intensity within the last 20000 / 2^64 km |
| Shaking.RadiusSeparates | internal/domain/shaking/model.go:72-102 | no distance beyond the radius, up to 20000 km, reaches the intensity, and all within it but the last 20000 / 2^64 km do, at every magnitude for intensities up to seven |
| Subscriptions.FiringIsSelectedWithinTheMaximum | internal/domain/notification/model.go:62-79 | a subscription that the exact estimate fires is preselected if and only if it lies within 20000 km |
| Subscriptions.PreselectionRefinesExactMatching | internal/repository/postgres/repository.go:649-667 | preselected matching gives every subscription what exact matching does, if and only if it does not fire beyond 20000 km |
| Subscriptions.MaximumDropsASubscription | internal/domain/shaking/model.go:91-93 | for any two places 20001 km apart, a magnitude 9 earthquake and a subscription that fires but is not selected |
| MatchingLaws.SentExactlyWhenFoundAndFired | internal/domain/notification/model.go:62-205 | when each trigger is sent to a subscription, told by the subscription, the earthquake and the way it came |
| MatchingLaws.DeliveryIsGainedExactlyWhen | internal/repository/postgres/repository.go:649-764 | matching adds a delivery if and only if a webhook subscription is active, lies near enough, and the trigger fires |
| MatchingLaws.AlertIsGainedExactlyWhen | internal/repository/postgres/repository.go:649-764 | matching adds an alert if and only if a Telegram subscription is active, lies near enough, and some trigger fires; its text is that of the first |
| NotificationRepositories.NotificationRepository.CreateDeliveries | internal/repository/postgres/repository.go:649-777 | after matching every alert and delivery, and no other, is what its subscription's triggers make of it; a failure leaves nothing; each counter is the number of the subscriptions it stands for |
| NotificationRepositories.NotificationRepository.RefreshAlerts | internal/repository/postgres/repository.go:779-833 | every alert of the incident but those of disabled subscriptions moves to its version |
| NotificationRepositories.NotificationRepository.UpsertAlert | internal/repository/postgres/telegram_alert.go:34-63 | creates an alert or moves it to a newer version only, and only for a Telegram subscription with a chat |
| NotificationRepositories.NotificationRepository.ClaimAlerts | internal/repository/postgres/telegram_alert.go:65-104 | locks rows whose next attempt has come, or that are in processing under a lock older than the timeout, the most urgent up to the batch, users' before the channel's, all of them if they fit |
| NotificationRepositories.NotificationRepository.CompleteAlert | internal/repository/postgres/telegram_alert.go:106-118 | stores the first message identifier, the highest delivered version, and active only at the desired one |
| NotificationRepositories.NotificationRepository.FailAlert | internal/repository/postgres/telegram_alert.go:120-135 | puts an alert off or declares it dead |
| TelegramAlerts.EveryRunKeepsProjection | internal/repository/postgres/telegram_alert.go:34-135 | with any number of workers: the desired content is the newest upserted, delivered never exceeds desired, and each status agrees with the message identifier and versions |
| TelegramAlerts.ActKeepsProjection | internal/repository/postgres/telegram_alert.go:43-58 | desired and delivered versions never fall, and the message identifier is written once |
| TelegramFence.ClaimsOverlapOnlyLateOrReleased | internal/repository/postgres/telegram_alert.go:65-104 | in every run, a worker claims a row that another is still at work on only if the other's claim has outlived the lock timeout, or an upsert, completion or failure took the row out of processing since |
| TelegramAlerts.ConvergenceWithoutOverlap | internal/notification/worker.go:94-144 | as long as claims do not overlap, an active alert's message shows the desired payload in every run |
| TelegramConvergence.ConvergesExactlyWhenNoClaimFindsHarm | internal/notification/worker.go:94-144 | whatever its workers still do after any part of a run, an active alert shows the desired text, if and only if no claim of the run finds a worker that read another text and has its edit still to make or, while no message is stored, has sent one or may send one |
| TelegramConvergence.ConvergenceWithoutHarm | internal/notification/worker.go:94-144 | in every run without such a claim an active alert shows the desired text, whatever overlaps, upserts, crashes and lost responses it has |
| TelegramConvergence.HarmfulClaimBreaksConvergence | internal/repository/postgres/telegram_alert.go:65-118 | from every reachable state such a claim can be followed by calls and completions of the two workers alone, after which both are done and the alert is active with an older text |
| TelegramConvergence.ConvergenceWithoutStaleHands | internal/notification/worker.go:94-144 | it is enough that no claim finds a worker with an older reading |
| TelegramConvergence.ActiveShowsAVersion | internal/repository/postgres/telegram_alert.go:34-135 | in every run an active alert shows the desired version or an older one that was upserted, and nothing else |
| TelegramAlerts.OneDeliveryConverges | internal/notification/worker.go:94-144 | once upserts stop, one successful send or edit brings any alert that is not dead to the newest payload, also while other workers hold the row |
| TelegramConvergence.OverlapBreaksConvergence | internal/repository/postgres/telegram_alert.go:43-58 | a run of two overlapping sends after which an active alert shows an older version |
| TelegramConvergence.LateOverlapBreaksConvergence | internal/repository/postgres/telegram_alert.go:43-58 | such a run in which the last call on the stored message was made with no other worker at work |
| TelegramConvergence.EditsBreakConvergence | internal/repository/postgres/telegram_alert.go:43-58 | a run of two overlapping edits after which an active alert shows an older version |
| TelegramWorkers.DeliverTelegramAlert | internal/notification/worker.go:94-144 | one call to Telegram if the payload can be rendered, to send or to edit as the row says, and one result, a completion exactly when Telegram confirmed; each is a step of the alert protocol |
| TelegramWorkers.RetryDelay | internal/notification/worker.go:453-459 | a delay lies between half its ceiling and the ceiling |
| TelegramWorkers.CeilingsGrowBelowTheCap | internal/notification/worker.go:453-459 | ceilings are 5 seconds at first, double up to the tenth attempt, and stay at 2560 seconds, below the cap of an hour |
| Backfills.Service.RunBackfill | internal/ingestion/service.go:157-220 | a call, however it ends, adds windows that join end to end from its start, moves the checkpoint forward but never past them, and reaches the end of the range on success; each is a chunk long, or shorter at the end of the range; it fails exactly when a statement or fetch did; it terminates for every positive chunk |
| Backfills.Service.ApplyWindow | internal/ingestion/service.go:175-210 | a finished window had the observations of all its pages applied, each once and in order, in batches up to the limit |
| Backfills.SeriesKeepsCoverage | internal/ingestion/service.go:157-220 | any series of calls on one range, from the first on, keeps all before the checkpoint covered, never moves it back, and once one has succeeded the range is covered |
| Backfills.AdvancesKeepsCoverage | internal/ingestion/service.go:157-220 | each call keeps all before the checkpoint covered, and a success covers the range |
| Backfills.SuccessCoversExactlyWhenTheStartIsCovered | internal/ingestion/service.go:161-168 | a success covers its range if and only if what lies before its checkpoint was covered before |
| Backfills.KeysAgreeExactlyWhen | internal/ingestion/service.go:161 | two ranges share a checkpoint if and only if they begin in one second and end in one |
| Backfills.SharedSecondSkips | internal/ingestion/service.go:161 | two ranges that begin in the same second share a checkpoint: after a first success on the later one, a success on the earlier one leaves its beginning uncovered |
| Backfills.LateRangeSucceeds | internal/ingestion/service.go:157-220 | a first call on such a later range may succeed |
| Backfills.JoinedCoversExactly | internal/ingestion/service.go:169-218 | windows that join end to end cover their range and nothing else |

## Left out

- Shaking.UpperDecreases: is confined to saturations up to 200 km, that is magnitudes up to about 9.58, because beyond the bound does rise with distance; what the search needs of larger magnitudes is Shaking.ReachIsDownward.
- Repositories.Repository.ApplyBatch: without the deliveries and refreshes that the legacy path makes in the same transaction.
- MessagingRepositories.ProcessOutbox: for one relay by itself; other relays between its claim and its results are steps of OutboxRelay.
- NotificationRepositories.NotificationRepository.CreateDeliveries: without audit rows, evaluation rows and source links.
- PipelineTheorems.NotificationsAreExactlyOnce: covers runs in which only Kafka messages write; the legacy batch path enqueues nothing while notifying.
- TelegramAlerts.OneDeliveryConverges: says nothing of dead alerts, which only a newer version revives.
- The webhook delivery queue (claim, send, retry, dead) and its HTTP calls: the same shape as the Telegram queue without versions.
- What a notification says: payloads are an arbitrary function of subscription and trigger, and matching audits with their trigger totals, intensity evaluations and source links are not stored.
- Notification content inside the end-to-end pipeline: the pipeline counts committed notification transactions, and what one writes is modelled apart.
- The consumers' endless loops and the worker's and relay's tickers: they are runs of steps.
- Row order among equal sort keys; identities are numbers, whose order stands for that of UUIDs.
- The wait for a row lock of a known source: in IngestionLocks reading a row for update and rewriting it are one step. Of a full candidate page, which rows are locked is left open.
- Changed-field and association evidence columns, created and updated timestamps, and error texts.
- OutboxRelay.EveryRunIsFenced: a relay's own clock does not run back between a claim and the failure of its publication.
- PipelineTheorems.ConsumptionIsAFold: core consumption is one step there; interleaved transactions are those of ConcurrentConsumers.
- The headers of outbox messages, and a relay's failure to parse them.
- The two geodesies: the previous estimate measures on a sphere and the current one in the database, as two unrelated functions.
- Rounding, NaN and infinities: values that are not finite count as absent.
- Parsing of backfill checkpoints, the record of ingestion runs, and recovery ranges.
- Providers, HTTP, Telegram and Kafka clients, administration, bot dialogue, the public API, metrics and configuration.
