# The membership engine, modelled and proved

This project models the part of the service that decides who is in a VIP channel:
people are admitted by an exchange UID, checked period after period, warned, removed,
restored, and may return. It proves what that engine promises over whole histories, and
what the two protocols around it promise under concurrency: the once-per-period claim,
and the separation of tenants in one database.

How it is arranged:

- `Types`, `Rows`, `Eligibility`, `Compliance`, `Uid`, `Lifecycle` hold the data and the
  pure rules. One tenant's tables are a value `Db`; a row's id is its position; money is
  a whole number of 10^-8 units; time is a whole number of microseconds.
- `Sweep` and `Onboarding` give the monitoring pass and a UID submission as functions on
  the tables. The provider is an arbitrary map of answers (absent: unavailable). Telegram
  is a list of effects and a number of calls it still answers.
- `Sessions`, `Monitor`, `Services`, `Scheduler`, `Chat` and `Repositories` are the
  program's objects as it has them: classes whose methods change fields and loop. Each
  method is proved to do exactly what the matching function says, exceptions and
  rollbacks included.
- `Ladder`, `Joining`, `Timeline`, `Invites`, `SweepLaws`, `SweepTheorems`, `Runs`,
  `Aborts`, `Outages`, `Insertions`, `OutageRuns`, `Engine`, `EngineLadder`,
  `EngineInvites`, `Admissions`, `Records`, `Expiry`, `Entitlement`, `Homes` and
  `Conversation` hold the theorems about histories. A history is any sequence of submissions,
  monitoring runs and joins, each committed or rolled back. `Story` in `Engine` shows
  each membership row of it as one run of a one-row machine.
- `Notices`, `Answers`, `Replies` and `Endings` say what single operations mean to the
  people concerned, read off the tables and the provider's answers: who is told what,
  what a submission answers and records, what a reply says, what a commit publishes.
- `Claims`, `Serializability` and `Delivery` interleave any number of monitor instances,
  with crashes: rows in the second, messages in the third. `TenantScope`,
  `TenantIsolation`, `UniqueKeys` and `Repositories` interleave sessions of many tenants
  statement by statement, with open transactions, row versions and unique-key waits.
- `Witnesses` and `RepeatedMessages` hold reachable histories, under the default policy,
  in which the program does not do what one may expect.

What the proofs found, each with the exact condition where there is one:

- A stored secret that does not decrypt ends the scheduler's loop: the tenants listed
  after it have no turn. Every listed tenant ends as its own run leaves it exactly when
  no such secret stands before a tenant with something to commit
  (`Scheduler.FailuresAreContainedIff`, `Scheduler.OneBadSecretStopsTheRest`).
- Joining moves the instant grace is counted from. Whether the full bound is kept from
  there can be read off the row before joining, however late the join comes: exactly when
  it carries no warning (`Joining.JoiningKeepsBoundIff`). Removal and return never bring
  fresh grace.
- A run aborts of itself exactly when two monitored memberships are judged by one
  account the provider answers about (`Aborts.RunsAbortIff`). One market never gets
  there; one person admitted in two markets does (`Witnesses.AdmittedTwiceAborts`).
- A member is judged by the first account, whatever its market. A live membership's
  subscription is always active; a removed one's is expired exactly when its market is
  that of the first account. So access and entitlement are out of step exactly for those
  removed from another market (`Homes.OutOfStepIff`,
  `Witnesses.RemovedWithActiveSubscription`).
- An aborted run leaves no row, its FAILED row included. The messages of a period are the
  committed run's, once, exactly when every other attempt died before its first message
  (`Delivery.SentOnceIff`, `RepeatedMessages.OneWarningTwice`).
- Runs of different periods of one tenant must not overlap. Whatever their two instants,
  there is a member to whom both give the first warning while the membership counts one,
  which no serial execution does (`RepeatedMessages.OverlapWarnsTwice`).
- A subscription's end date is the last removal's and a return does not clear it, so an
  active one can have ended in the past (`Expiry.EndDateIsLastRemoval`,
  `Witnesses.ReturnedWithPastEnd`).
- Outages change nothing that counts, but a pass that only lacked the trade count takes
  the account's snapshot row of the period (`Insertions.OutagePassCanBlockALaterOne`).
  A free period is used up by a run exactly when the run does not raise, and a run in an
  outage of the whole provider never raises (`Runs.PeriodIsUsedUpIff`).
- The UID pattern accepts one final newline on text that was not normalised
  (`Uid.NewlineLoophole`); normalised text is never affected (`Uid.ValidNormalized`).
  It counts digits of every script while the folding knows three, so nine full-width
  digits pass and reach the provider as typed (`Uid.FullWidthStays`).
- Primary keys are the one unique index that does not lead with the tenant, so isolation
  rests on their being fresh (`TenantIsolation.ReusedPrimaryKeyTells`).

## Model

| member | source | states |
|---|---|---|
| Eligibility.BlameNeedsEvidence | app/domain/eligibility.py:58-123 | A verdict blames the member exactly when the provider answered and the answer itself breaks a rule; eligible for monitoring implies eligible for sign-up; more money never disqualifies |
| Eligibility.ReasonIff | app/domain/eligibility.py:58-123 | Every reason comes exactly on its evidence, the first broken rule before any later one; state, balance and shortfall follow it |
| Compliance.DecisionIff | app/domain/compliance.py:85-150 | Every action and every excuse for none comes exactly in its case; a warning or removal carries the verdict's own reason |
| Eligibility.ShortfallIsHonest | app/services/bot_conversation.py:222-229 | A deposit cures the verdict exactly when it reaches the shortfall; the rounded figure always does, by less than one quantum too much; the three shown figures disagree by 0 or one quantum |
| Eligibility.CeilingOfSum | app/domain/messages.py:97-105 | Rounding two amounts up separately exceeds rounding their sum by nothing or by exactly one quantum |
| Uid.OneCharacter | app/domain/uid.py:15-31 | By code point: 34 characters are removed, the thirty digits of the three scripts become the ASCII digit of their value, every other character stays |
| Uid.NormalizeReadsDigits | app/domain/uid.py:26-31 | Normalising gives the ASCII string of some digit values exactly when the text spells those digits, each in any of the three scripts, with removable characters anywhere and nothing else |
| Uid.NineDigitsTyped | app/domain/uid.py:26-35 | A text that spells digits is a valid UID exactly when they are nine |
| Uid.NormalizeIsCanonical | app/domain/uid.py:26-31 | Translating, substituting and stripping equals one pass that drops separators and folds digits; the final strip removes nothing |
| Uid.NormalizeIdempotent | app/domain/uid.py:26-31 | Normalising twice, as bot and service together do, is normalising once |
| Uid.SameUidIffRespelling | app/domain/uid.py:26-31 | Two texts have one canonical form exactly when typing one of the removed code points in or out, and writing a digit value in another of the three scripts, leads from one to the other |
| Uid.ValidNormalized | app/domain/uid.py:21-35 | A normalised text is valid exactly when it is nine decimal digits |
| Uid.NewlineLoophole | app/domain/uid.py:21-35 | The pattern alone accepts nine digits and a newline |
| Uid.FullWidthStays | app/domain/uid.py:15-35 | Nine full-width digits are a valid UID that normalising leaves as typed |
| PeriodLock.BoundaryIsTheFloor | app/jobs/period_lock.py:27-38 | The boundary is the one multiple of the period with start <= now < start + period, also before the epoch |
| PeriodLock.BoundaryLaws | app/jobs/period_lock.py:27-38 | Flooring is idempotent and monotone, and two instants share a boundary exactly when they lie in one aligned period |
| PeriodLock.ClaimsInWindow | app/jobs/period_lock.py:41-67 | Instants of a window of length l with pairwise different boundaries number at most ceil(l / period) + 1 |
| Ladder.LadderHolds | app/jobs/membership_monitor.py:216-229 | At every point of any history the warning record on the row is the streak of WARNs since the last reset: same count, last instant, spacing, and at most the maximum |
| Ladder.CountMatchesClock | app/jobs/membership_monitor.py:216-229 | In every history, under any policies, the counter is zero exactly when there is no last-warning time |
| Ladder.RevocationEndsFullLadder | app/domain/compliance.py:116-150 | Every removal ends a streak of exactly max_warnings warnings, consecutive ones an interval apart, and comes grace plus the remaining intervals after each rung's reference instant; clocks need not be monotone |
| Ladder.RevocationEvidence | app/domain/compliance.py:94-150 | Behind every removal stand max_warnings + 1 definite failing verdicts, none an outage, with no eligible verdict between first and last |
| Ladder.SinceMovesOnlyByJoining | app/services/referral_onboarding.py:258-271 | Neither checks nor removals nor returns move the instant grace is counted from; only joining does |
| Ladder.BoundFromTheRow | app/domain/compliance.py:116-150 | Without a join during the streak, a removal comes no sooner than member_since + grace + max_warnings intervals, as read off the row |
| Joining.JoiningKeepsBoundIff | app/jobs/membership_monitor.py:184-193 | For every reachable INVITED row and every instant, however late: every continuation that joins then or later gives grace and all the intervals, counted from joining, before the first removal, exactly when the row carries no warning or warnings need no spacing; with grace not negative, continuations in the order of a wall clock decide it alike |
| Joining.StandingWarningBreaksBound | app/domain/compliance.py:116-150 | For every INVITED row with a standing warning and every join whose grace ends no sooner than an interval after that warning, failing checks an interval apart from then on, in wall-clock order, make a removal that comes too soon |
| Ladder.JoiningMidStreakShortensTheLatestBound | app/jobs/membership_monitor.py:184-193 | A history in which a join during the streak makes that same bound fail |
| Timeline.ExactTimeline | app/domain/compliance.py:126-150 | With passes every d past grace and failing verdicts, WARN falls exactly on passes 0, s, 2s, ... and REVOKE on pass max_warnings * s, s = max(1, ceil(interval / d)), nothing on any other |
| Timeline.BoundedLiveness | app/domain/compliance.py:126-150 | With passes at most g apart, removal comes no later than first pass + max_warnings * (interval + g) |
| SweepLaws.SweepIsParallel | app/jobs/membership_monitor.py:109-195 | A finished pass over distinct rows is every member's change, judged on the state before it, applied together; log and counters are the members' own in list order |
| SweepTheorems.SweepFinishesIff | app/jobs/membership_monitor.py:163-176 | A pass finishes exactly when no two listed members, nor a member and an existing row, need the same snapshot key |
| SweepTheorems.TwoMembershipsOfOneUserAbort | app/adapters/persistence/models/membership.py:195-202 | Two monitored memberships of one answered person abort the pass in any order |
| SweepTheorems.OrderIndependence | app/jobs/membership_monitor.py:109-113 | Every permutation of the listed members finishes alike, with the same rows and counters and a permuted log |
| SweepTheorems.SweepConservation | app/jobs/membership_monitor.py:197-267 | processed is the number listed, each in at most one column; REVOKED rows grow by revoked; standing warnings change by warned less what restores cleared; with active channels the log holds exactly revoked ban-then-unban pairs |
| Notices.EveryoneIsTold | app/jobs/membership_monitor.py:212-267 | A finished pass sends each listed member's own messages and nothing else: every message, ban and unban is addressed to the Telegram id in that member's user row, says what became of the membership, names a reason that the provider's answer bears out, and expels from the judging account's channel; without an id nothing is said and a ban is of 0 |
| Notices.FiguresAreCounts | app/jobs/membership_monitor.py:197-267 | The figures are counts of what the rows show: warned, removed and restored members; skipped counts exactly those about whom the provider could not tell |
| Runs.StoppedAt | app/jobs/membership_monitor.py:109-116 | A sweep stopped at a member by an exception or by Telegram has sent exactly what the whole plan would have sent by then |
| Runs.RunAccountsForItself | app/jobs/membership_monitor.py:107-123 | A completed run's job row repeats the report, and the report accounts for all changes |
| Runs.ReplayIsNoOp | app/jobs/membership_monitor.py:99-105 | Once a period is on record, any number of further runs in it change no row and ask nobody, whatever they would be told |
| Runs.AbortedRunsLeaveNoTrace | app/jobs/scheduler.py:76-83 | Any sequence of runs leaves the tables that its runs without an exception leave when made alone, each of which then again ends without one: failed attempts use up no period |
| Runs.PeriodIsUsedUpIff | app/jobs/membership_monitor.py:99-123 | After a run in a free period the period is on record exactly when the run did not raise; with the provider out for everybody a run completes, says nothing and uses the period up |
| Aborts.RunsAbortIff | app/jobs/membership_monitor.py:163-176 | After any history, a run aborts of itself exactly when its period is free and two monitored memberships are judged by one account the provider answers about |
| Aborts.OneMarketRunsNeverAbort | app/jobs/membership_monitor.py:135-176 | In a tenant with one market no run ever aborts of itself, whatever the history and the answers |
| Sessions.Session.ClaimPeriod | app/jobs/period_lock.py:41-67 | Granted exactly when the key is free; a lost race leaves the whole transaction, earlier uncommitted work included, as it was |
| Sessions.Session.InsertJob | app/adapters/persistence/models/jobs.py:28-32 | The insert succeeds exactly when the key is new and otherwise breaks the transaction |
| Sessions.Session.Rollback | app/jobs/scheduler.py:76-83 | The view returns to what is committed |
| Monitor.MembershipMonitor.ApplyRestore | app/jobs/membership_monitor.py:216-224 | Clears the record, lifts a suspension, counts and tells, in that order, so a failed message still raises |
| Monitor.MembershipMonitor.ApplyWarn | app/jobs/membership_monitor.py:226-239 | Records count and instant, counts and tells |
| Monitor.MembershipMonitor.ApplyRevoke | app/jobs/membership_monitor.py:241-267 | Ban and unban, row, subscription and message, stopping where Telegram fails |
| Monitor.MembershipMonitor.Process | app/jobs/membership_monitor.py:125-195 | One member: first account, its programme, the provider, account fields, snapshot, decision |
| Monitor.MembershipMonitor.SweepMembers | app/jobs/membership_monitor.py:109-116 | The loop equals the recursive pass, up to the first exception |
| Monitor.MembershipMonitor.Run | app/jobs/membership_monitor.py:97-123 | Stands down, completes or raises exactly as RunMonitor says, with the rows, report, job row and messages it says |
| Scheduler.TurnsThatCome | app/jobs/scheduler.py:58-83 | A listed tenant ends as its own run alone leaves it if no tenant before it has a secret that fails to decrypt, and is not touched otherwise; the messages sent are those of the tenants whose turn comes, in order; an exception leaves the loop exactly when some secret fails |
| Scheduler.OwnRunIff | app/jobs/scheduler.py:58-83 | A turn commits a completed run whole and nothing of any other, and sends what the run planned up to the call Telegram did not answer |
| Scheduler.FailuresAreContainedIff | app/jobs/scheduler.py:58-83 | Every listed tenant ends as its own run leaves it exactly when no secret that fails to decrypt stands before a tenant with something to commit |
| Scheduler.FailuresAreContained | app/jobs/scheduler.py:65-83 | Missing credentials, outages and any failure inside a run stay with their tenant |
| Scheduler.OneBadSecretStopsTheRest | app/services/provider_factory.py:48-58 | A tenant listed after one whose secret fails misses a run that was due, and would not have missed it in the other order |
| Scheduler.Deployment.SweepTenant | app/jobs/scheduler.py:72-83 | One tenant's session: committed if the run returned, rolled back if it raised, messages sent either way |
| Scheduler.Deployment.RunComplianceSweep | app/jobs/scheduler.py:52-94 | Tables, messages and the exception that may leave the loop are those of SweepAll |
| Claims.AtMostOncePerKey | app/jobs/period_lock.py:41-67 | In any interleaving with crashes, no key is held twice, and each (tenant, period) commits at most one run |
| Claims.ClaimIff | app/jobs/period_lock.py:41-67 | A claim is lost exactly when the key is on record, waits exactly while another holds it open, and is otherwise granted on the tables as committed; trying sends and commits nothing |
| Claims.OnlyOwnChangesArePublished | app/jobs/scheduler.py:76-83 | A run's commit overwrites nothing it did not change: rows it left alone, and other columns of a row it warned, keep what others committed |
| Serializability.RunsAreSerial | app/jobs/scheduler.py:58-83 | When runs of one tenant in different periods do not overlap, every open transaction is a prefix of a run alone and the committed rows are those of a serial execution |
| Serializability.InterleavingsAreSerial | app/jobs/scheduler.py:58-83 | The same as one statement, with distinct keys and at most ceil(l / period) + 1 runs of a tenant in a window of length l |
| Delivery.MessagesOfAKey | app/jobs/membership_monitor.py:109-116 | Under any interleaving with crashes the messages of a key are its attempts' messages one after the other, each the beginning of what that attempt planned on its own base, all of it if it committed |
| Delivery.MessagesOfATenant | app/jobs/membership_monitor.py:109-116 | The same for all messages of a tenant whose runs do not overlap |
| Delivery.SentOnceIff | app/jobs/scheduler.py:76-83 | The messages of a committed key are exactly the committed run's, once, if and only if every other attempt at it ended before its first message was delivered |
| Delivery.OneTransitionPerKey | app/jobs/period_lock.py:41-67 | Under any schedule no membership has two committed monitoring transitions under one key |
| RepeatedMessages.OneWarningTwice | app/jobs/scheduler.py:76-83 | A reachable log in which a member gets the same first warning twice for one period |
| RepeatedMessages.OverlapWarnsTwice | app/jobs/membership_monitor.py:97-123 | For any two instants in different periods, a reachable database on which the two runs, open at once, each give the first warning and record it in their job row while the membership counts one; run one after the other, in either order, the second warns nobody or counts two, so the two leave rows that no serial execution leaves |
| Serializability.AbortedRunsRepeatMessages | app/jobs/scheduler.py:76-83 | Two attempts that die after the first member send its messages twice and change no row |
| Onboarding.SpellingIsImmaterial | app/services/referral_onboarding.py:113-134 | Every spelling of one UID, and its normalised form, is one and the same submission |
| Answers.AnswerIff | app/services/referral_onboarding.py:113-209 | Each of the eight outcomes comes exactly in its case, in terms of the normalised UID, the configuration, the account that holds the UID, the provider's answer against the rules, and the sender's membership before |
| Answers.TurnedAwayRecordsNothing | app/services/referral_onboarding.py:113-132 | Turned away before the provider is asked, a submission records at most its sender |
| Answers.AskingRecords | app/services/referral_onboarding.py:134-281 | Once the provider is asked, the UID's account and no other gets the status, rejection, state and balance of the answer; if the answer suffices the sender's subscription is revived or added and the membership let in with a good link, otherwise neither moves |
| Services.InviteService.Issue | app/services/invite_service.py:50-96 | Returns the live link or mints, recording link, time and status; nothing is recorded when Telegram fails |
| Services.ReferralOnboardingService.ReviveOrAddSubscription | app/services/referral_onboarding.py:232-253 | Revives the first subscription of user and market, keeping its start and end, or adds one |
| Services.ReferralOnboardingService.ReadmitOrAddMembership | app/services/referral_onboarding.py:255-281 | Relinks the row, wiping the record of a removed or expired one, or adds a pending row |
| Services.ReferralOnboardingService.SubmitUid | app/services/referral_onboarding.py:101-209 | The whole sequence equals Submit in rows, outcome, link, verdict and messages |
| Invites.MintsAreSpaced | app/services/invite_service.py:84-96 | Two successive mints are a lifetime apart, or the status left INVITED/ACTIVE in between |
| Invites.ReuseReturnsLastMint | app/services/invite_service.py:66-68 | A call that mints nothing returns the last minted link, unexpired, to a row live ever since |
| Invites.InvitedHasLink | app/services/invite_service.py:77-81 | A live row carries the link and issue time of the last mint |
| EngineInvites.InviteLedger | app/services/referral_onboarding.py:193-200 | The three invite laws for every membership of every committed history |
| Engine.StoryTellsTheRow | app/services/referral_onboarding.py:193-200 | Any history, seen from one row, is a run of the one-membership machine |
| Engine.SubmitRows | app/services/referral_onboarding.py:188-200 | A submission changes memberships only by admitting, and then one row only |
| EngineLadder.NoRemovalWithoutLadder | app/jobs/membership_monitor.py:216-267 | After any history whose runs and programmes have one policy, a REVOKED membership has been so ever since a check that ended a full ladder and rests on definite verdicts |
| Outages.OutagesAreInvisible | app/jobs/membership_monitor.py:144-176 | Dropping any number of outage passes, whole calls or missing trade counts, from a history leaves memberships, subscriptions, users, messages and the counts of warned, revoked and restored as they were; processed and skipped fall by the same number |
| OutageRuns.OutagesAreInvisibleInRuns | app/jobs/membership_monitor.py:97-123 | The same for whole histories with claims, job rows, rollbacks and failures of Telegram: leaving out of each run members the provider could not tell about changes, besides check fields and snapshots, only processed and skipped_unavailable of job rows, by the same number |
| Insertions.SilentInsertsAlwaysRun | app/jobs/membership_monitor.py:144-147 | Inserting any number of passes for which the whole call failed, anywhere, always runs and changes nothing that counts |
| Insertions.MissingTradesInsertIff | app/jobs/membership_monitor.py:163-176 | Inserting a pass that lacked only the trade count runs exactly when the account has no snapshot of that period yet and no later move writes one |
| Insertions.OutagePassCanBlockALaterOne | app/adapters/persistence/models/membership.py:195-202 | A concrete such pass after which a pass of the same period that would run alone does not |
| Outages.SweepAsPasses | app/jobs/membership_monitor.py:109-113 | A sweep is its member passes one by one, so the outage law covers sweeps |
| Admissions.OneUidBacksOnePerson | app/services/referral_onboarding.py:128-142 | In every reachable state no uid appears twice, and holders of memberships map injectively into uids about which the provider's own answer met the sign-up rule |
| Admissions.OwnersNeverChange | app/services/referral_onboarding.py:136-142 | Owner, provider and uid of an account never change |
| Records.BalanceIsLastAnswer | app/services/referral_onboarding.py:159-176 | Over any history the balance on record is the deposit in the last committed answer; outages and rolled-back attempts never overwrite it |
| Records.AccountsTellTheAnswers | app/jobs/membership_monitor.py:161-165 | A committed run writes instant and state of the check on exactly the accounts that judge a monitored member and have a programme, the balance only if the provider told one, and nothing else on any account |
| Records.SnapshotsTellTheAnswers | app/jobs/membership_monitor.py:161-176 | A committed run adds exactly one snapshot per account it checked and got an answer about, with its trades, balance, registration and the monitoring state they amount to, and overwrites none |
| Entitlement.OneMarketUsersAgree | app/services/referral_onboarding.py:193-281 | In any tenant after any history: one subscription per user and market, one membership per user and channel, and whoever has stayed in one market is live on an active subscription of their own or removed on an expired one |
| Entitlement.EntitlementAndAccessAgree | app/services/referral_onboarding.py:193-281 | With one market that is everybody, through any removals and returns |
| Entitlement.RemovalEndsOwnSubscriptionIff | app/jobs/membership_monitor.py:241-262 | A removal ends the member's own subscription exactly when it is the first one of the judging account's market; the ban follows that market too |
| Homes.SubscriptionTellsAccessIff | app/jobs/membership_monitor.py:138-262 | After any history from empty tables, with any markets: every membership is on its user's own subscription for the market of its channel, which is active while the membership is live and expired, once it is REVOKED, exactly when that market is the one of the user's first account |
| Homes.OutOfStepIff | app/services/referral_onboarding.py:193-281 | Over the same histories a membership disagrees with its subscription exactly when it was removed from a market other than that of its user's first account |
| Expiry.EndDateIsLastRemoval | app/jobs/membership_monitor.py:255-262 | After any history from empty tables a subscription has an end date exactly when a committed removal expired it, and it is the instant of the last such removal; returns (app/services/referral_onboarding.py:236-239) change neither |
| Witnesses.RemovedWithActiveSubscription | app/jobs/membership_monitor.py:138-140 | Two submissions and four sweeps of the default policy lead a two-market tenant to a REVOKED membership with an ACTIVE subscription |
| Witnesses.ReturnedWithPastEnd | app/services/referral_onboarding.py:236-239 | Admission, four sweeps and a return leave an ACTIVE subscription whose end date is in the past, and grace still counted from the first admission |
| Witnesses.AdmittedTwiceAborts | app/jobs/membership_monitor.py:138-176 | One person admitted in two markets: every run aborts of itself while the provider answers about the first account |
| Conversation.RememberedIsLastOffer | app/services/bot_conversation.py:151-161 | The remembered market is that of the last link the person was sent, through sweeps, reconfiguration and rolled-back updates |
| Conversation.UidTextsAreRecognised | app/services/bot_conversation.py:93-99 | No valid UID text is turned away by the command or digit tests before validation |
| Conversation.WhenOnboarded | app/services/bot_conversation.py:174-202 | Onboarding is reached exactly when the canonical text is a valid UID and a market is remembered or exactly one is ready; otherwise nothing is asked and only users change |
| Conversation.NoGuessedMarket | app/services/bot_conversation.py:84-202 | Over any history of updates a UID is onboarded only under the last market offered to its sender or, if none ever was, the single ready market |
| Replies.UidIsAnswered | app/services/bot_conversation.py:174-235 | The reply to a UID comes exactly in its case; a refusal shows deposit, minimum and gap each rounded up to the cent, and paying the gap shown qualifies; not-registered carries the programme's own link, an invitation the link now on the sender's row |
| Replies.ButtonIsAnswered | app/services/bot_conversation.py:84-91 | A button offers the market it names, with that programme's own link and the choice remembered, or says it is not set up |
| Replies.TextIsAnswered | app/services/bot_conversation.py:93-190 | A start, or a UID with no market determined, is greeted with the one ready market's offer, the choice of two, or neither; digits that are no UID are refused; anything else is asked for one |
| Replies.SuperscriptIsRefused | app/services/bot_conversation.py:98-101 | A lone superscript digit counts as digits and is refused as a UID; a letter is asked for one |
| Chat.BotConversation.AvailableMarkets | app/services/bot_conversation.py:103-118 | Exactly the markets with active programme and active channel, in order |
| Chat.BotConversation.OfferReferralLink | app/services/bot_conversation.py:151-172 | Refuses an inactive programme, otherwise ensures the user and remembers the market |
| Chat.BotConversation.TakeUid | app/services/bot_conversation.py:174-202 | Rejects, asks for a market, or onboards, as HandleUid says |
| Chat.BotConversation.Handle | app/services/bot_conversation.py:84-101 | Reply, rows, messages and failure of one update equal Respond |
| Chat.BotConversation.ReceiveUpdate | app/adapters/web/routers/telegram_webhook.py:113-134 | An update is committed whole or, when it raises, leaves nothing and is answered with an apology |
| TenantScope.SettingsNeverLeak | app/core/tenant_scope.py:68-84 | In any interleaving no transaction sees a setting other than its own session's tenant or none, and an idle connection carries none |
| TenantIsolation.LayersConfine | app/core/tenant_scope.py:87-101 | The row policy, or without it the loader criteria and statements that name the tenant or a key of its, confines every lawful statement to the session's tenant |
| TenantIsolation.PolicyFailsClosed | migrations/versions/0002_row_level_security.py:38-50 | With no tenant published a read is empty, an insert is refused and no version changes |
| TenantIsolation.PolicyScopesEveryRead | migrations/versions/0002_row_level_security.py:38-50 | Under the policy every read of a bound session returns its tenant's rows only, whatever its where clause |
| TenantIsolation.RawReadIsScopedIff | app/core/tenant_scope.py:20-33 | Without the policy a raw read stays in its tenant exactly when its own where clause says so |
| TenantIsolation.NonInterference | app/core/tenant_scope.py:53-101 | Erasing all other tenants' steps from any interleaving changes neither a tenant's rows nor any result of its statements, unique-key failures and waits included |
| TenantIsolation.ReusedPrimaryKeyTells | app/adapters/persistence/models/base.py:36-39 | Whatever is stored: beside another tenant's committed row, an insert that would have been made is refused exactly when it goes to the same table and reuses that row's primary key |
| UniqueKeys.UniqueKeysHold | app/adapters/persistence/models/membership.py:39-41 | However transactions interleave, no statement is answered with two rows of one primary or unique key |
| Repositories.SqlSession.BindTenant | app/core/tenant_scope.py:53-60 | The tenant is stored on the session |
| Repositories.SqlSession.ApplyTenantSetting | app/core/tenant_scope.py:68-84 | The connection carries the session's tenant on PostgreSQL, and is untouched otherwise |
| Repositories.SqlSession.ApplyLoaderCriteria | app/core/tenant_scope.py:87-101 | ORM selects, and only they, gain the tenant predicate |
| Repositories.SqlSession.Execute | app/core/tenant_scope.py:87-101 | A statement on a session is the machine's step |
| Repositories.SqlSession.End | app/core/database.py:25-32 | The end of a session's transaction is the machine's step, and leaves no tenant on the connection |
| Endings.EndingsTell | app/core/database.py:25-32 | The commit of a healthy transaction publishes what it inserted, drops what it deleted and leaves every other version alone; a rollback, or the commit of a failed one, drops what it inserted and lifts its marks |
| Endings.CommitPublishesTheView | app/core/database.py:25-32 | Every select a transaction could make just before it commits is answered alike to a later transaction of its tenant |
| Endings.RollbackLeavesNoTrace | app/core/database.py:25-32 | After any statements, however they ended, a rollback leaves every version as it was before the first |
| Endings.RollbackIsUnseen | app/core/database.py:25-32 | A rollback changes no answer to any other session |
| Endings.FailurePoisons | app/core/database.py:25-32 | After a refused row or a used key every later statement of the transaction fails and changes nothing |
| Endings.SavepointHolds | app/jobs/period_lock.py:59-67 | Inside a savepoint the same failure leaves the transaction as it was |
| Repositories.TenantScopedRepository.GetById | app/adapters/persistence/repositories.py:44-49 | The keyed select, answered as one row or none |
| Repositories.TenantScopedRepository.ListAll | app/adapters/persistence/repositories.py:51-60 | One page of the tenant's rows |
| Repositories.TenantScopedRepository.Save | app/adapters/persistence/repositories.py:62-67 | Stamps the tenant, inserts, reloads |
| Repositories.TenantScopedRepository.Delete | app/adapters/persistence/repositories.py:69-75 | True exactly when a row was hit |
| Repositories.GetByIdFindsOwnRows | app/adapters/persistence/repositories.py:44-49 | get_by_id finds a row exactly when the session's own tenant is named and has it, committed or its own; it never meets two |
| Repositories.ListingIsAPage | app/adapters/persistence/repositories.py:51-60 | list_all returns, from offset on and at most limit of them, the tenant's visible rows of the table, each once, in one order |
| Repositories.ForeignCallsAreEmpty | app/adapters/persistence/repositories.py:44-75 | Naming another tenant reads nothing; under the policy it also deletes nothing and its insert is refused |
| Repositories.OwnCallsAreLawful | app/adapters/persistence/repositories.py:44-75 | Every statement of the repository calls for the own tenant, the reload of save included, needs no row policy, so non-interference covers them on either database |
| Repositories.SaveGetDelete | app/adapters/persistence/repositories.py:44-75 | What save wrote the reload and get_by_id return; delete takes it and get_by_id then finds nothing |
| Endings.SavedIsFoundAfterCommit | app/adapters/persistence/repositories.py:62-67 | After save and commit a later session of the tenant finds the row with get_by_id |
| Endings.SavedIsGoneAfterRollback | app/adapters/persistence/repositories.py:62-67 | After save and rollback a later session finds under that id exactly the row that was on record before, if any |
| Endings.NothingIsFoundAfterRollback | app/adapters/persistence/repositories.py:62-67 | It finds nothing exactly when the rolled-back session had not itself deleted a row of that id |

## Left out

- HTTP routers, middleware, schemas, wiring, logging: plumbing; of the webhook only commit, rollback and apology are modelled.
- Failures between tenants other than a missing credential and a secret that does not decrypt (reading the registry, opening a session): the job as a whole fails.
- Network halves of the exchange and Telegram adapters: an arbitrary map of answers and a budget of answered calls stand for them.
- The exchange adapter in the repository never reports trades, so with it no monitoring verdict is eligible; nothing here depends on that.
- Fernet encryption, SHA-1 signing and payments: foreign calls and a single insert.
- Migrations other than the row policy and the unique keys; the `tenants` and `webhook_routes` tables, which are unscoped on purpose.
- Message wording and the string form of amounts: only the numeric value of `format_amount` is modelled; Decimal context precision is replaced by unbounded integers.
- Float rounding in `total_seconds()`: time is whole microseconds.
- Row order of unordered selects: fixed as insertion order; new row ids are fresh by construction in the engine and a stated hypothesis in the tenant model.
- Several readings of the clock inside one submission are one instant.
- Object identity of ORM rows: rows are values in the session's tables, so two Python references to one row are not told apart; usernames and first names of users are not stored.
- Concurrent submissions of one UID: submissions are serial in the engine; what their unique key does under interleaving is shown in the tenant model only.
- Submissions and joins interleaved with an open monitoring run: in the engine every run is one step, and the machine of interleaved runs has monitoring runs only, each working on the tables as they were when it claimed its period.
- Reconfiguration during engine histories: programmes and channels are fixed there, and change freely in chat histories.
- Pool exhaustion and savepoints nested in one another: a connection handed out is idle, and a failing statement either poisons the transaction or, inside a savepoint, only itself.
- A kept FAILED job row and exactly-once messages across aborted runs: the code does not provide them.
- Serializability.InterleavingsAreSerial: assumes that runs of one tenant in different periods do not overlap in time. That is a sufficient condition: for every two instants in different periods some database breaks it (RepeatedMessages.OverlapWarnsTwice), but on other databases an overlap may do no harm. Per key, Claims.AtMostOncePerKey, Delivery.MessagesOfAKey and Delivery.OneTransitionPerKey assume nothing.
- Delivery.MessagesOfATenant: under the same assumption, since the messages of overlapping runs mix.
- Entitlement.OneMarketUsersAgree: for users who stay in one market, because across markets it is false; Homes.OutOfStepIff says exactly for whom.
- Ladder.BoundFromTheRow: for histories in which nobody joins during the streak; Joining.JoiningKeepsBoundIff says exactly when joining is safe.
- OutageRuns.OutagesAreInvisibleInRuns: for runs that do not abort of themselves; Aborts.RunsAbortIff says exactly which do.
- Eligibility.ShortfallIsHonest: about the numbers shown, not their printed form.
