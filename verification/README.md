# Verified model of the CSD mining pool core

This project models the parts of the pool where a mistake would lose money, lose work or report something untrue,
and proves what they guarantee. It is written in Dafny 4.11; `dafny verify dfyconfig.toml` checks everything.

Five components are modelled, each as a specification on values, as the imperative program that computes it, and as
theorems about every run or every input.

1. **Replacement-latency telemetry** (`LatencyModel`, `LatencyInvariant`, `LatencyRuns`, `LatencyTheorems`,
   `LatencyEntries`, `LatencyScenes`, `LatencyAccount`, `LatencyReports`, `LatencyTallies`, `LatencyTelemetry`). A mutex-protected event table that any participant may fail
   to lock. Joining and leaving are two separate steps, and a publication loads its three counters one after another
   while holding the lock, so sessions move between the counters, the roster and the loads. The main theorem is that
   `complete` is truthful at the second load, and at the first for `zero_sessions`; at the last load it need not be.
   The conservation law of summaries fails exactly when a publication that is not degraded has loaded more untracked
   sessions than sessions in all; one reachable run gets there by a join and one by a leave. What every summary and
   every total reports is proved against a book kept beside the run, which notes only what happened from outside.
2. **Job retention and the tip fence** (`TipSentinel`, `JobRetention`, `JobWatch`, `StratumSession`, `SubmitRaces`).
   The set of invalidated parents is shown to refine "one live parent, fenced or not" over every interleaving of the
   refresh loop with sessions. The submit path on top reads the table four times, with installations in between. A
   share is credited on the live, unfenced parent exactly when its parent still has a retained job at the fence test;
   an installation between fetch and test can break that, and does in a concrete run.
3. **Submission to the second node** (`CandidateControl`, `CandidateSubmitter`, `SecondaryCircuit`). Claims are files
   created atomically; attempts, time-outs, late writes, kills and power loss interleave freely. At most one
   submission per claim, and only on a parent both nodes agree on. An attempt that starts within one cooldown of its
   check keeps the cooldown of the circuit breaker exactly when no failure slips between the check and the permit; the
   race that breaks it is a concrete run.
4. **Share arithmetic and difficulty control** (`ShareMath`, `ShareVerify`, `Vardiff`, over `Positional` and `Hex`).
   Long division, target comparison, byte layouts, and the controller bounded over every run.
5. **Money** (`TextOrder`, `Ledger`, `Pplns`, `PplnsTheorems`, `Payouts`, `Amounts`, `PayoutCsv`). Splits, ledger
   entries, payout selection, decimal amounts and the export, with 128-bit wrap-around written out.

## Reading the model

* A class method that changes state ensures that its abstract value (`View`) is the one a specification function
  gives; the theorems are about these functions and about sequences of them.
* A run is a list of actions, each enabled where it happens. Nothing bounds its length.
* SHA-256 is an argument of the functions that need it. Node answers, disk faults, lock contention, the iteration
  order of hash containers, time, and what others made of shared state between two reads of one operation are
  arguments of each step; in runs, the other participants take steps of their own there.
* Properties that hold only under a condition are stated as "if and only if", with a concrete input or run for the
  failing side: `SummariesConserveSessions` with `JoinExceeds` and `LeaveExceeds`, `InconsistentRosterIff` with
  `JoinIsInconsistent`, `CompleteMissesNobody` with `MissedAtLastLoad`, `PublishCompleteIff` with `EntryIsLost`,
  `CreditNeedsLiveTipIff` with `DeadParentIsCredited`, `UnclassifiedIff` with `UnclassifiedWithoutFence`,
  `StartsAfterCooldownIff` with `CheckAndPermitRace`, `NoWorkIsPaidIff` with `DustCanGoToNoWork`,
  `NonFiniteKeepsOrderIff` with `InfiniteDifficultyIsEasy`, `ParseIsExactIff` with `ParseCanWrap`.
* Where the documentation and the code differ, the model follows the code: the assigned target divides by the
  *rounded* difficulty (`crates/csd-pool-consensus/src/lib.rs:193`), where the text speaks of rounding up.
* Unchecked 128-bit arithmetic wraps, as it does in a release build of the workspace, which sets no overflow checks;
  a debug build would panic in the same places.

## Model

| member | source | states |
|---|---|---|
| `LatencyTheorems.AllNotifiedIsTruthful` | crates/csd-pool-bridge/src/replacement_latency.rs:338-572 | In every interleaving of joins, leaves, observations, the loads of publications, notifications and refused locks: a summary `complete` / `all_notified` counts exactly the sessions that were live when its publication loaded the untracked counter, the same sessions that were counted at its first load; none failed or was skipped, and each of them was sent that job successfully after the publication. |
| `LatencyTheorems.CompleteMissesNobody` | crates/csd-pool-bridge/src/replacement_latency.rs:370-422 | Any `complete` summary had no session left behind by a contended leave; `zero_sessions` means nobody was counted at the first load, and otherwise the roster held everybody live at the second. At the last load it misses exactly the untracked sessions. |
| `LatencyTheorems.NothingCompleteAfterContendedLeave` | crates/csd-pool-bridge/src/replacement_latency.rs:472-496 | Once one tracked disconnect failed to take the lock, every `complete` summary emitted in any continuation is of an event published before. |
| `LatencyTheorems.SummariesConserveSessions` | crates/csd-pool-bridge/src/replacement_latency.rs:357-625 | Every summary emitted in any run satisfies success + failed + skipped >= target, with equality if and only if its event was never published, its publication was degraded, or its publication loaded no more untracked sessions than sessions in all. |
| `LatencyTheorems.ExcessNeedsMovingSession` | crates/csd-pool-bridge/src/replacement_latency.rs:370-483 | An excess needs a session that was half way out untracked at the second load, or that was untracked there without having been counted at the first; without one the three counts add up to the target. |
| `LatencyScenes.JoinExceeds` | crates/csd-pool-bridge/src/replacement_latency.rs:370-420 | A concrete run with nobody leaving: a session joins between the first two loads and is counted untracked. The summary is `complete` / `zero_sessions` with target 0 and one skipped session. |
| `LatencyScenes.LeaveExceeds` | crates/csd-pool-bridge/src/replacement_latency.rs:472-483 | A concrete run with nobody joining during the loads: an untracked session caught between the two counter updates of its leave gives the same excess. |
| `LatencyScenes.JoinIsInconsistent` | crates/csd-pool-bridge/src/replacement_latency.rs:379-394 | A concrete run, with nobody half way in or out at either load, that reports `session_roster_inconsistent` because a session joined between them. |
| `LatencyScenes.MissedAtLastLoad` | crates/csd-pool-bridge/src/replacement_latency.rs:370-420 | A concrete run that ends `complete` although a session was live at the last load and was never waited for, so the truth at the second load does not extend to the last. |
| `LatencyScenes.EntryIsLost` | crates/csd-pool-bridge/src/replacement_latency.rs:408-411 | A concrete run that publishes two events under one job key and ends with a published live event that has no entry. |
| `LatencyTheorems.RosterIdentity` | crates/csd-pool-bridge/src/replacement_latency.rs:444-496 | In every reachable state: roster + joining + untracked = active total + leaving + stale tracked; with nobody half way, roster = (active - untracked) + stale. |
| `LatencyTheorems.InconsistentRosterIff` | crates/csd-pool-bridge/src/replacement_latency.rs:357-401 | For every summary emitted in any run: it reports `session_roster_inconsistent` if and only if its event was published with no stale session loaded, no more sessions half way out of the roster than counted without being on it, and the sessions of the first two loads out of balance. `JoinIsInconsistent` is an input. |
| `LatencyTheorems.StaleRosterIff` | crates/csd-pool-bridge/src/replacement_latency.rs:357-401 | For every summary emitted in any run: it reports `stale_session_roster` if and only if its event was published with a stale session loaded, or with more sessions half way out of the roster at the first load than counted without being on it. |
| `LatencyTheorems.InconsistentRosterNeedsMove` | crates/csd-pool-bridge/src/replacement_latency.rs:370-394 | In particular `session_roster_inconsistent` needs a session half way in or out at the first load, or untracked sessions that changed between the first two loads. |
| `LatencyTheorems.IndexesAgree` | crates/csd-pool-bridge/src/replacement_latency.rs:258-305 | In every reachable state `dedupe` is a bijection with the live events, every `published_jobs` entry points to a live published event with that key, stage times are ordered, the bounds 16, 1024 and 16 hold, and `completed` is the suffix of all summaries. |
| `LatencyTheorems.StageTimesAddUp` | crates/csd-pool-bridge/src/replacement_latency.rs:600-616 | In every summary emitted in any run, the stage times present add up to the total within two milliseconds of rounding, and a `complete` summary has all of them. |
| `LatencyTheorems.PublicationsStay` | crates/csd-pool-bridge/src/replacement_latency.rs:338-422 | No continuation of a run rewrites what was true when an event was published. |
| `LatencyEntries.PublishCompleteIff` | crates/csd-pool-bridge/src/replacement_latency.rs:408-411 | Publishing keeps every published live event reachable through `published_jobs` if and only if no other live event carries the same replacement key. |
| `LatencyEntries.PublishedEventsAreFound` | crates/csd-pool-bridge/src/replacement_latency.rs:408-411 | In every run that never reuses a live key, every published live event has its entry. |
| `LatencyRuns.StepKeeps` | crates/csd-pool-bridge/src/replacement_latency.rs:258-572 | Every step of every participant keeps the whole invariant: indexes, bounds, conservation, roster accounting and the truth of all summaries so far. |
| `LatencyRuns.LoadsPublish` | crates/csd-pool-bridge/src/replacement_latency.rs:338-422 | The three loads and the end of a publication, taken one after another, are one call of the program, whatever the counters become in between. |
| `LatencyTheorems.EveryRunIsSound` | crates/csd-pool-bridge/src/replacement_latency.rs:198-572 | Every run from an empty telemetry reaches only states with that invariant. |
| `LatencyReports.StartIsFresh` | crates/csd-pool-bridge/src/replacement_latency.rs:198-233 | A telemetry just made is fresh, which is where the runs of this module start. |
| `LatencyAccount.FirstIsLeast` | crates/csd-pool-bridge/src/replacement_latency.rs:536-560 | The first notification of a session since a publication is the one at the least place among those that reached any event. |
| `LatencyReports.CountsAreCredits` | crates/csd-pool-bridge/src/replacement_latency.rs:516-667 | Every summary emitted in any run counts as successes and failures exactly the sessions it waited for whose first notification since the publication that reached any event reached this one with that outcome, and as skipped everybody else; its stale count is what its publication loaded. |
| `LatencyReports.FanoutReasonIs` | crates/csd-pool-bridge/src/replacement_latency.rs:536-567 | Of the summaries whose last session was notified: `partial_notify_failure` if and only if some notification was credited as failed, `partial_notify_skip` if and only if none was and somebody was skipped, `all_notified` otherwise. |
| `LatencyReports.ReasonsAreTrue` | crates/csd-pool-bridge/src/replacement_latency.rs:574-677 | In any run the status is the one belonging to the reason, and the reason holds: superseded events lost a session to another event, disconnected ones to a clean leave, `complete` ones wait for nobody, and only events at least thirty seconds old timed out. |
| `LatencyReports.StagesAreMeasured` | crates/csd-pool-bridge/src/replacement_latency.rs:589-626 | In any run a summary carries the class of its own observation and, in whole milliseconds, the times between its own observation, first readiness, publication and end. |
| `LatencyReports.EveryEventEndsOnce` | crates/csd-pool-bridge/src/replacement_latency.rs:198-667 | In any run every event observed is live or has exactly one summary, and a live event waits for exactly those on its roster who were neither notified since nor left cleanly. |
| `LatencyReports.ExpiryIsExact` | crates/csd-pool-bridge/src/replacement_latency.rs:574-587 | Expiry takes exactly the live events that are thirty seconds old. |
| `LatencyReports.ObserveAnswers` | crates/csd-pool-bridge/src/replacement_latency.rs:258-305 | An observation is answered with the live event of that key, known or new, and with none exactly if the key is too long, the lock is refused, or sixteen other events are live. |
| `LatencyReports.EntersIff` | crates/csd-pool-bridge/src/replacement_latency.rs:444-463 | A joining session gets onto the roster if and only if the lock is had and fewer than 1024 sessions are on it. |
| `LatencyTallies.TotalsAreTallies` | crates/csd-pool-bridge/src/replacement_latency.rs:198-695 | In any run the running totals are exactly how often the lock was contended or poisoned when tried, an observation or publication refused, a stage reported out of turn, and a session left untracked; every log line is queued, taken or counted as dropped. |
| `LatencyTallies.SummariesReportTotals` | crates/csd-pool-bridge/src/replacement_latency.rs:600-625 | The totals in a summary are those of the moment it was emitted. |
| `LatencyTallies.FailuresNameTheirCause` | crates/csd-pool-bridge/src/replacement_latency.rs:311-442 | A stage out of turn, a key too long for the event to be published, and a failure told by the caller end the event with a summary that says so. |
| `LatencyTallies.LogLineIs` | crates/csd-pool-bridge/src/replacement_latency.rs:796-810 | At most 120 log lines pass in a window of a minute; one that passes is queued if there is a sender and room. |
| `LatencyTelemetry.ReplacementLatencyTelemetry.constructor` | crates/csd-pool-bridge/src/replacement_latency.rs:206-233 | Empty state and zero counters. |
| `LatencyTelemetry.ReplacementLatencyTelemetry.TryState` | crates/csd-pool-bridge/src/replacement_latency.rs:683-695 | A refused or poisoned lock moves only the failure counters. |
| `LatencyTelemetry.ReplacementLatencyTelemetry.LogAllowed` | crates/csd-pool-bridge/src/replacement_latency.rs:796-810 | At most 120 summaries are logged per one-minute window; the window rolls over on time. |
| `LatencyTelemetry.ReplacementLatencyTelemetry.FinishLocked` | crates/csd-pool-bridge/src/replacement_latency.rs:589-653 | Removes the event and both its index entries, emits one summary, keeps the last 16, and drops the log line when the window or queue is full. |
| `LatencyTelemetry.ReplacementLatencyTelemetry.FinishFanoutLocked` | crates/csd-pool-bridge/src/replacement_latency.rs:655-677 | An event with untracked sessions ends as `tracking_gap` / `untracked_sessions`, any other as `complete` with the given reason. |
| `LatencyTelemetry.ReplacementLatencyTelemetry.ExpireLocked` | crates/csd-pool-bridge/src/replacement_latency.rs:574-587 | Finishes exactly the events older than the limit, in some order of the hash map. |
| `LatencyTelemetry.ReplacementLatencyTelemetry.ObserveUpstreamAt` | crates/csd-pool-bridge/src/replacement_latency.rs:258-305 | Refuses oversized keys, answers a known key with its event, counts and drops beyond 16 events, otherwise records a new event under the next id. |
| `LatencyTelemetry.ReplacementLatencyTelemetry.MarkAReadyAt` | crates/csd-pool-bridge/src/replacement_latency.rs:311-332 | Records the first readiness; a call out of order is counted and finishes the event as failed. |
| `LatencyTelemetry.ReplacementLatencyTelemetry.MarkPublishedAt` | crates/csd-pool-bridge/src/replacement_latency.rs:338-422 | Expires, checks order, then loads the three counters one after another, and either degrades the event or waits for every tracked session. |
| `LatencyTelemetry.ReplacementLatencyTelemetry.CheckOrder` | crates/csd-pool-bridge/src/replacement_latency.rs:345-369 | An oversized key or a publication out of order finishes the event as failed, and nothing else is published. |
| `LatencyTelemetry.ReplacementLatencyTelemetry.PublishInOrder` | crates/csd-pool-bridge/src/replacement_latency.rs:357-422 | The publication itself, for any values the counters take between the loads: skipped count, pending set, `published_jobs` entry, and immediate completion when nobody waits. |
| `LatencyTelemetry.ReplacementLatencyTelemetry.FailEventAt` | crates/csd-pool-bridge/src/replacement_latency.rs:424-432 | Finishes the event as failed if the lock is had. |
| `LatencyTelemetry.ReplacementLatencyTelemetry.ExpireAt` | crates/csd-pool-bridge/src/replacement_latency.rs:434-442 | The periodic expiry, if the lock is had. |
| `LatencyTelemetry.ReplacementLatencyTelemetry.ActivateSession` | crates/csd-pool-bridge/src/replacement_latency.rs:444-463 | Counts the session and then puts it on the roster, or counts it as untracked when the lock is refused or the roster is full. |
| `LatencyTelemetry.ReplacementLatencyTelemetry.DropSession` | crates/csd-pool-bridge/src/replacement_latency.rs:497-512 | Takes the session off every waiting event but one, counting it skipped, and lists the published events nobody waits for any more. |
| `LatencyTelemetry.ReplacementLatencyTelemetry.DeactivateSession` | crates/csd-pool-bridge/src/replacement_latency.rs:472-513 | The two halves of leaving, for tracked, untracked and uncounted sessions, with and without the lock. |
| `LatencyTelemetry.ReplacementLatencyTelemetry.RecordFanoutAt` | crates/csd-pool-bridge/src/replacement_latency.rs:519-572 | Credits the outcome to the event of that key, removes the session from every other waiting event, and finishes what is then empty. |
| `LatencyTelemetry.TelemetrySession.Authorize` | crates/csd-pool-bridge/src/replacement_latency.rs:762-768 | Only the first authorization of a connection joins. |
| `LatencyTelemetry.TelemetrySession.RecordNotify` | crates/csd-pool-bridge/src/replacement_latency.rs:770-775 | Only an authorized connection reports notifications; the events finished are exactly the expired and the superseded ones, each once. |
| `LatencyTelemetry.TelemetrySession.Drop` | crates/csd-pool-bridge/src/replacement_latency.rs:778-785 | Dropping the connection leaves exactly if it had joined, and finishes exactly the events nobody waits for any more. |
| `TipSentinel.CanonicalChainworkIsExact` | crates/csd-pool-bridge/src/lib.rs:499-514 | Canonical chainwork exists for exactly the nonempty hexadecimal texts, denotes the same number, and has no leading zero or capital. |
| `TipSentinel.CanonicalHealthHashIsExact` | crates/csd-pool-bridge/src/lib.rs:487-497 | A canonical tip hash exists for exactly the texts of 32 bytes; it is 64 lower-case digits decoding to the same bytes. |
| `TipSentinel.TrimIs` | crates/csd-pool-bridge/src/lib.rs:487-514 | Trimming takes white space off both ends until none is left there. |
| `TipSentinel.ChainworkOrderIsNumeric` | crates/csd-pool-bridge/src/lib.rs:516-520 | Comparing trimmed texts by length and then by character compares the numbers. |
| `TipSentinel.InvalidatesParentMeaning` | crates/csd-pool-bridge/src/lib.rs:522-537 | The parent is called stale if and only if node A has left it, node B is higher, or B is on another tip of the same height with at least as much work. |
| `JobRetention.SubmitValidIff` | crates/csd-pool-bridge/src/lib.rs:281-284 | In every run of the refresh loop, interleaved with sessions, a retained job is accepted if and only if its parent is the last published parent and that parent has not been fenced since. Jobs of an earlier visit to the same tip become valid again. |
| `JobRetention.RoundPublishesIff` | crates/csd-pool-bridge/src/lib.rs:681-840 | In every run a round publishes its template if and only if the tip moved, a heartbeat is due or the parent was just fenced, no read failed, the template builds on the tip read, its parent is not the fenced live one, its id is new and it could be persisted. |
| `JobRetention.LiveParentIsTipRead` | crates/csd-pool-bridge/src/lib.rs:768-785 | In every run the live parent is the tip read by the round that published on it, if it read one. |
| `JobRetention.RetainedIff` | crates/csd-pool-bridge/src/lib.rs:328-365 | In every run the table holds exactly the entries some installation put there, with its time and the generation current then, until one too late for them or under the same id took them out. |
| `JobRetention.GenerationIsTipChanges` | crates/csd-pool-bridge/src/lib.rs:328-345 | In every run the generation is one more than the number of rounds that published on another parent than the current one. |
| `JobRetention.SendsIff` | crates/csd-pool-bridge/src/lib.rs:1531-1555 | In every run a fetched job is written to a session exactly if its parent was live and unfenced when tested, as long as that parent still had a retained job. |
| `JobRetention.FoundForSubmitIff` | crates/csd-pool-bridge/src/lib.rs:281-284 | The fetch and the fence test take separate locks. In every run, a job fetched at one moment that passes the test at a later one has the live, unfenced parent if and only if that parent still has a retained job at the test. |
| `JobRetention.FoundForSubmitUndisturbed` | crates/csd-pool-bridge/src/lib.rs:281-284 | Whatever else the loop does between the two reads, without an installation only a job on the live, unfenced parent passes. |
| `JobRetention.InstallRefines` | crates/csd-pool-bridge/src/lib.rs:328-365 | Whatever was invalidated, installing a job leaves exactly the jobs of its parent valid: the set of invalidated parents refines "one live parent, fenced or not". |
| `JobRetention.FencedParentIsNotRepublished` | crates/csd-pool-bridge/src/lib.rs:786-795 | While the live parent is fenced, every job the loop decides to publish is on another parent. |
| `JobRetention.GuardRefusesOnlyFenced` | crates/csd-pool-bridge/src/lib.rs:382-390 | Between rounds the live parent is retained if and only if it is not fenced, so the guard never blocks an unfenced heartbeat. |
| `JobRetention.FenceIsPermanent` | crates/csd-pool-bridge/src/lib.rs:367-390 | After a fence no run makes a job on that parent acceptable again, unless it installs a job on a different parent. |
| `JobRetention.CurrentGenerationIsLive` | crates/csd-pool-bridge/src/lib.rs:328-365 | In every run all retained jobs of the current generation build on the live parent. |
| `JobRetention.DeliveryLagMeans` | crates/csd-pool-bridge/src/lib.rs:303-319 | `NotifyDeliveryLag` if and only if no job of the generation that was loaded has been noted as delivered to the session. |
| `JobRetention.SwitchLagMeans` | crates/csd-pool-bridge/src/lib.rs:303-319 | `MinerSwitchLag` implies the session had been sent a job of the loaded generation and submitted an older one, whatever happened between the load and the lookup. |
| `JobRetention.UnclassifiedIff` | crates/csd-pool-bridge/src/lib.rs:303-319 | A submit found invalidated, over four separate reads: on the live parent it was fenced. On any other it stays unclassified if and only if the session was up to date and some installation since the job was found expired it or took its id for the loaded generation or later, with no later one putting an older job under that id; after the load none can. |
| `JobRetention.UnclassifiedMeansFenced` | crates/csd-pool-bridge/src/lib.rs:303-319 | As long as the entry found invalidated is still there, `Unclassified` implies that the live parent itself is fenced and the submit was on it. |
| `SubmitRaces.DeadParentIsCredited` | crates/csd-pool-bridge/src/lib.rs:1695-1789 | A concrete run: a heartbeat between the fetch and the fence test drops the old job and the mark on its parent, and the share on the dead parent is credited. |
| `SubmitRaces.UnclassifiedWithoutFence` | crates/csd-pool-bridge/src/lib.rs:1698-1720 | A concrete run: the same heartbeat before the classification leaves a stale submit unclassified though nothing was fenced. |
| `JobRetention.EveryRunIsSound` | crates/csd-pool-bridge/src/lib.rs:640-847 | Every interleaving of fence, generation start, swap, broadcast, delivery and notes keeps the refinement invariant. |
| `JobRetention.RoundIsARun` | crates/csd-pool-bridge/src/lib.rs:681-840 | One round of the loop is a run of the interleaving model, so the theorems above apply to it. |
| `JobWatch.RetainedJobs.WithInitial` | crates/csd-pool-bridge/src/lib.rs:243-271 | One job, generation 1, nothing invalidated. |
| `JobWatch.RetainedJobs.GetForSubmit` | crates/csd-pool-bridge/src/lib.rs:281-284 | Finds a job if and only if it is retained at the fetch and its parent is not invalidated at the test, whatever the table becomes in between. |
| `JobWatch.RetainedJobs.JobParentIsInvalidated` | crates/csd-pool-bridge/src/lib.rs:286-289 | True if and only if the job is retained at the fetch and its parent is invalidated at the test. |
| `JobWatch.RetainedJobs.LookUp` | crates/csd-pool-bridge/src/lib.rs:1695-1720 | The four reads before a submit goes on, each against the table of its moment. |
| `JobWatch.RetainedJobs.StaleGenerationClass` | crates/csd-pool-bridge/src/lib.rs:303-319 | Classifies a stale submit by the generation last delivered, the current generation, and the generation of the job in what the table has become by then. |
| `JobWatch.RetainedJobs.Publish` | crates/csd-pool-bridge/src/lib.rs:328-365 | A tip change starts a new generation; expired jobs go, other parents are invalidated, the new parent is not, unused marks are dropped. |
| `JobWatch.RetainedJobs.InvalidateParent` | crates/csd-pool-bridge/src/lib.rs:367-380 | Fences the parent, changes nothing else, and counts the retained jobs that fall with it. |
| `JobWatch.RetainedJobs.ParentIsRetained` | crates/csd-pool-bridge/src/lib.rs:382-390 | True exactly for an unfenced parent with a retained job. |
| `JobWatch.SharedJobWatch.Refresh` | crates/csd-pool-bridge/src/lib.rs:681-840 | Observation, fence, every way to skip a refresh, and the publication, in the order of the loop. |
| `StratumSession.EverySubmitIsCountedOnce` | crates/csd-pool-bridge/src/lib.rs:1690-1901 | In every session each submit after authorization moves exactly one of accepted, rejected and stale, except at most one cut short by a repository error, after which the session is closed. |
| `StratumSession.WhatASubmitCounts` | crates/csd-pool-bridge/src/lib.rs:1690-1901 | Accepted rises exactly for the first submit of a share on a live job that meets its target, is stored, and has its block recorded if it is one; stale exactly for a job that is not live; rejected exactly for a malformed, foreign, repeated, too easy or already stored one. |
| `StratumSession.WhatClosesASession` | crates/csd-pool-bridge/src/lib.rs:1787-1944 | A submit leaves the session open exactly if no repository or write error happened, no ban came, and it was not the third stale submit in a row. |
| `StratumSession.NothingBeforeAuthorization` | crates/csd-pool-bridge/src/lib.rs:1690-1694 | A submit before authorization counts nothing and is seen nowhere. |
| `StratumSession.EveryCreditIsDeserved` | crates/csd-pool-bridge/src/lib.rs:1754-1822 | Every text credited in a session had an arrival on a live job that met its target and was stored. |
| `StratumSession.AbortNeedsRepositoryFailure` | crates/csd-pool-bridge/src/lib.rs:1787-1822 | The exception happens if and only if a share that met its target could not be stored, or its block could not be recorded. |
| `StratumSession.ShareVerifiedAtMostOnce` | crates/csd-pool-bridge/src/lib.rs:1754-1787 | A tuple of job, extranonce2, ntime and nonce texts is verified at most once per session and credited at most once. |
| `StratumSession.ClosedByThirdStale` | crates/csd-pool-bridge/src/lib.rs:1907-1944 | Three stale submits without a submit on a live job between them close the session. |
| `StratumSession.CreditNeedsLiveTipIff` | crates/csd-pool-bridge/src/lib.rs:1695-1789 | In every interleaving with the refresh loop, credit needs a job that was retained at the fetch; its parent is live and unfenced at the fence test if and only if it still has a retained job then. |
| `StratumSession.CreditNeedsLiveTip` | crates/csd-pool-bridge/src/lib.rs:1695-1789 | If no job was installed between the fetch and the fence test, credit needs a job on the live, unfenced parent. |
| `StratumSession.Connection.HandleSubmit` | crates/csd-pool-bridge/src/lib.rs:1690-1944 | One `mining.submit` with its separate reads of the table: all rejections in the order of the code, the counters, the streak, the seen set and the closing of the session. |
| `CandidateControl.SentOncePerKey` | crates/csd-pool-bridge/src/lib.rs:2226-2307 | Across concurrent submits, claim time-outs whose write lands later, crashes and power loss, no two full submissions share a claim. |
| `CandidateControl.OneShotSendsAtMostOnce` | crates/csd-pool-bridge/src/lib.rs:2226-2307 | In one-shot mode the second node receives at most one full submission, ever. |
| `CandidateControl.ContinuousSendsOncePerHash` | crates/csd-pool-bridge/src/lib.rs:2333-2409 | In continuous mode it receives at most one per lower-cased candidate hash, and only for well-formed hashes. |
| `CandidateControl.ExistingClaimsAreSpent` | crates/csd-pool-bridge/src/lib.rs:2226-2409 | Claim files found at start are never used for a submission. |
| `CandidateControl.SentOnlyOnAgreedParent` | crates/csd-pool-bridge/src/lib.rs:2770-2793 | At every full submission the cached snapshot read after the claim, not older than allowed, showed both nodes on the same height, tip and work, and that tip is the parent in the header sent. |
| `CandidateControl.ClaimsNeedAgreement` | crates/csd-pool-bridge/src/lib.rs:2743-2754 | Every claim file created belongs to an attempt whose snapshot read before the claim agreed in the same sense: a mismatch never consumes a claim. |
| `CandidateControl.EligibleIff` | crates/csd-pool-bridge/src/lib.rs:3244-3328 | For any candidate and any texts, eligibility is exactly a readable parent in the header and agreement of both nodes on it. |
| `CandidateControl.SkipNamesFirstFailure` | crates/csd-pool-bridge/src/lib.rs:3244-3300 | The reason for skipping names the first check that failed. |
| `CandidateControl.ClaimKeysAreExact` | crates/csd-pool-bridge/src/lib.rs:2333-2409 | In continuous mode exactly the well-formed hashes have a claim, and two have the same one just when they differ only in capitals. |
| `CandidateControl.CandidateCarriesParent` | crates/csd-pool-bridge/src/lib.rs:3321-3328 | That parent is the one the 84-byte header was built with. |
| `CandidateControl.RunKeeps` | crates/csd-pool-bridge/src/lib.rs:2226-2409 | The file system, task and claim invariant survives every run, including kills and loss of power. |
| `CandidateSubmitter.CandidateClaims.Claim` | crates/csd-pool-bridge/src/lib.rs:2475-2480 | Claims at most once: a claim reported won was absent before and is present afterwards, an existing or unsafe one is refused, and a failure stays visible. |
| `CandidateSubmitter.ClaimOnIsTheTask` | crates/csd-pool-bridge/src/lib.rs:2226-2409 | A claim that runs alone does what the interleaving model says its task does. |
| `CandidateSubmitter.SubmitsIff` | crates/csd-pool-bridge/src/lib.rs:2698-2800 | A claim is attempted if and only if the circuit was closed at the check, a permit was free and both nodes agreed on the parent; the second node is called if and only if, besides, the claim was new, written and in time, and both nodes still agreed. |
| `CandidateSubmitter.SolveBlock` | crates/csd-pool-bridge/src/lib.rs:3683-3709 | A candidate built from a verified submit carries the parent of the template it was verified on, and the hash of its own header, which is within the network target and names a claim. |
| `CandidateSubmitter.SolvedBlockIsSentOnItsParent` | crates/csd-pool-bridge/src/lib.rs:2770-2793 | In every run, a solved block is only sent while both nodes agreed on the parent of the template it was verified on. |
| `CandidateSubmitter.ParallelNodeBlockSubmitter.SubmitSecondary` | crates/csd-pool-bridge/src/lib.rs:2698-2800 | Calls the second node if and only if every check passes in order, touches claims only after the first checks, records the outcome only after a claim was attempted, and always returns its permit. |
| `SecondaryCircuit.CheckRefusesIff` | crates/csd-pool-bridge/src/lib.rs:2528-2543 | In every run the circuit refuses if and only if the failures since the last acceptance reached the threshold and the cooldown since the latest of them is not over; skips neither open nor reset it. |
| `SecondaryCircuit.AtomicStartWaits` | crates/csd-pool-bridge/src/lib.rs:2722-2742 | With check and permit taken as one step, an attempt starts after the threshold only once the cooldown since the latest failure is over. |
| `SecondaryCircuit.StartsAfterCooldownIff` | crates/csd-pool-bridge/src/lib.rs:2722-2742 | Without that assumption: an attempt that starts within one cooldown of its check keeps the cooldown since the latest failure if and only if no failure was recorded between its check and its permit; without one it always does. |
| `SecondaryCircuit.CheckAndPermitRace` | crates/csd-pool-bridge/src/lib.rs:2722-2742 | A concrete run with one permit in which an attempt starts during the cooldown because a failure was recorded between its check and its permit. |
| `SecondaryCircuit.InFlightIsBounded` | crates/csd-pool-bridge/src/lib.rs:2725-2742 | The semaphore bounds the submissions in flight in every run. |
| `SecondaryCircuit.SecondaryCircuitBreaker.Eligibility` | crates/csd-pool-bridge/src/lib.rs:2528-2543 | Half-opens the circuit when the cooldown is over. |
| `SecondaryCircuit.SecondaryCircuitBreaker.RecordOutcome` | crates/csd-pool-bridge/src/lib.rs:2545-2560 | Acceptance resets, failure counts and opens at the threshold, a skip changes nothing. |
| `ShareMath.DivTargetByU64` | crates/csd-pool-consensus/src/lib.rs:229-242 | Byte-wise long division yields the exact floor of the 256-bit target by the divisor; no cast truncates. |
| `ShareMath.TargetForDifficulty` | crates/csd-pool-consensus/src/lib.rs:186-196 | The assigned target is the base target divided by the rounded difficulty, or the base target itself for small and non-finite difficulties. |
| `ShareMath.DivisorIsNearest` | crates/csd-pool-consensus/src/lib.rs:186-196 | The divisor is the whole number nearest to the difficulty, halves upwards, between one and the greatest 64-bit number. |
| `ShareMath.HashOrderIsNumeric` | crates/csd-pool-consensus/src/lib.rs:244-246 | Comparing hashes byte by byte compares 256-bit numbers. |
| `ShareMath.MeetsTargetIff` | crates/csd-pool-consensus/src/lib.rs:152-196 | A hash meets the assigned target if and only if the hash times the whole difficulty is at most the base target. |
| `ShareMath.TargetsAreMonotone` | crates/csd-pool-consensus/src/lib.rs:186-196 | A larger finite difficulty never has a larger target. |
| `ShareMath.NonFiniteKeepsOrderIff` | crates/csd-pool-consensus/src/lib.rs:186-196 | The target of a non-finite difficulty, which is the base target, is no larger than the target of a finite one if and only if that one is below 1.5 or the base target is zero. |
| `ShareMath.InfiniteDifficultyIsEasy` | crates/csd-pool-consensus/src/lib.rs:186-196 | So monotonicity stops at the finite values: infinity is easier than 2. |
| `ShareMath.CoinbaseLayout` | crates/csd-pool-consensus/src/lib.rs:83-99 | The coinbase carries both extranonces side by side between prefix and suffix. |
| `ShareMath.CoinbasesAreDistinct` | crates/csd-pool-consensus/src/lib.rs:83-99 | Different extranonce pairs never give the same coinbase. |
| `ShareMath.Header84` | crates/csd-pool-consensus/src/lib.rs:112-128 | Fills the 84 bytes of the header, field by field. |
| `ShareMath.ParentInHeader` | crates/csd-pool-consensus/src/lib.rs:112-128 | The parent hash stands at bytes 4 to 36. |
| `ShareMath.HeaderRoundTrip` | crates/csd-pool-consensus/src/lib.rs:112-128 | Every field in range can be read back from the header bytes. |
| `ShareMath.BranchGivesRoot` | crates/csd-pool-consensus/src/lib.rs:101-110 | Folding the branch of a tree over a new first leaf gives the root of the tree with that leaf. |
| `ShareMath.MerkleRootFromBranch` | crates/csd-pool-consensus/src/lib.rs:101-110 | The loop computes that fold. |
| `ShareVerify.VerifyShareAgainstTarget` | crates/csd-pool-consensus/src/lib.rs:152-184 | Accepts exactly the hashes within the target, flags exactly those within the network target, and returns a header in which version, parent, time, bits and nonce read back, whose Merkle root folds the branch over the hash of the coinbase with both extranonces, and whose hash is the share. |
| `ShareVerify.BuiltOnTree` | crates/csd-pool-consensus/src/lib.rs:101-110 | That header commits to any tree with the branch of the template, with the coinbase as first leaf. |
| `ShareVerify.ParseSolutionIff` | crates/csd-pool-bridge/src/lib.rs:3950-3962 | A submit is read exactly as what its three texts denote; otherwise the first bad text names the error. |
| `ShareVerify.VerifySubmit` | crates/csd-pool-bridge/src/lib.rs:3950-3962 | Accepts if and only if the submit parses and its hash times the whole difficulty fits the base target; what is accepted carries the time, nonce and extranonce its texts denote; a refusal names the first parse error or a low-difficulty share. |
| `ShareVerify.VardiffState.VerifySubmitForVardiff` | crates/csd-pool-bridge/src/lib.rs:3964-3983 | Credits the current difficulty, or a lower previous one within its grace period; whatever is credited, hash times whole difficulty is at most the base target. |
| `ShareVerify.VardiffState.PreviousDifficultyInGrace` | crates/csd-pool-bridge/src/lib.rs:4122-4127 | Only a lower previous difficulty, only inside the window. |
| `ShareVerify.VardiffState.RecordAcceptedShare` | crates/csd-pool-bridge/src/lib.rs:4129-4172 | The controller step for an accepted share. |
| `ShareVerify.VardiffState.ApplySuggestedDifficulty` | crates/csd-pool-bridge/src/lib.rs:4174-4202 | The controller step for a suggestion. |
| `Vardiff.EveryRunIsBounded` | crates/csd-pool-bridge/src/lib.rs:4043-4214 | From any raw configuration, over every run: the difficulty is a whole number within its bounds, the average within [0.05, 4 target], changes are at least the minimum time apart, and each lies between round(current / factor) and round(current * factor). |
| `Vardiff.GraceIsLatestIncrease` | crates/csd-pool-bridge/src/lib.rs:4122-4127 | In every run the previous difficulty is credited exactly while the latest change was an increase and its grace period lasts, and it is the difficulty before that change. |
| `Vardiff.ShareAdjusts` | crates/csd-pool-bridge/src/lib.rs:4129-4172 | An accepted share changes the difficulty by at most one step and only when the last change is old enough. |
| `Vardiff.SuggestionAdjusts` | crates/csd-pool-bridge/src/lib.rs:4174-4202 | The same for a suggestion of any value. |
| `Vardiff.ShareAverages` | crates/csd-pool-bridge/src/lib.rs:4129-4172 | The average starts as the first gap between shares, and each further one moves it by the configured fraction of its distance to the new gap, which is kept between a twentieth of a second and four target intervals. |
| `Vardiff.ShareRetargets` | crates/csd-pool-bridge/src/lib.rs:4129-4172 | A share changes the difficulty if and only if the last change is old enough, the average is off the pace and the change is at least one percent; it becomes the whole number nearest to the difficulty at which shares would come on time, as far as one step and the bounds allow. |
| `Vardiff.SuggestionRetargets` | crates/csd-pool-bridge/src/lib.rs:4174-4202 | A suggestion that is positive and not too soon makes the difficulty the whole number nearest to it that one step and the bounds allow, if that is a change of one percent, and then drops the average. |
| `Vardiff.ShareFollowsPace` | crates/csd-pool-bridge/src/lib.rs:4129-4172 | A share changes the difficulty upwards only when the average is below the raise threshold, downwards only when it is above the lower threshold, and never otherwise. |
| `Vardiff.SuggestionIsFollowed` | crates/csd-pool-bridge/src/lib.rs:4174-4202 | A suggestion that changes the difficulty moves it towards the suggested value. |
| `Vardiff.NormalizedIsIdempotent` | crates/csd-pool-bridge/src/lib.rs:4043-4084 | Normalizing repairs every configuration, and normalizing twice is normalizing once. |
| `Vardiff.NormalizedRepairs` | crates/csd-pool-bridge/src/lib.rs:4043-4084 | Normalizing keeps every valid field and repairs each invalid one with its default, rounding bounds inwards. |
| `Pplns.AllocatePplns` | crates/csd-pool-accounting/src/lib.rs:74-119 | The loops over the tree map compute the specified split, errors included. |
| `Pplns.TallyShares` | crates/csd-pool-accounting/src/lib.rs:86-89 | The map of weights holds, for each miner of the window, the sum of its difficulties, without wrap-around. |
| `PplnsTheorems.ValueIsConserved` | crates/csd-pool-accounting/src/lib.rs:97-118 | For every reward, fee and window, even when products wrap: fee + allocations = reward, and every miner is listed once in order of name. |
| `PplnsTheorems.RefusedIff` | crates/csd-pool-accounting/src/lib.rs:79-95 | Exactly which inputs are refused, and with which error. |
| `PplnsTheorems.PortionIsExactIff` | crates/csd-pool-accounting/src/lib.rs:103-107 | A miner but the last gets exactly floor(total * weight / window) if and only if total * weight fits in 128 bits. |
| `PplnsTheorems.LowBitsArePaid` | crates/csd-pool-accounting/src/lib.rs:97-107 | Otherwise a miner is paid the whole part for the low 128 bits of its product, and so is the pool. |
| `PplnsTheorems.LastMinerTakesTheDust` | crates/csd-pool-accounting/src/lib.rs:104-107 | The last miner gets at least its floor, and at most its floor plus one unit per other miner when no other product overflows. |
| `PplnsTheorems.NoWorkIsPaidIff` | crates/csd-pool-accounting/src/lib.rs:100-118 | For every input: a miner of the window without any work is paid if and only if it comes last by name and the proportional share of some other miner is not a whole number of base units, or its product does not fit in 128 bits. |
| `PplnsTheorems.DustCanGoToNoWork` | crates/csd-pool-accounting/src/lib.rs:102-107 | Such a window, with its payments. |
| `PplnsTheorems.FeeIsExactIff` | crates/csd-pool-accounting/src/lib.rs:97-98 | The fee is floor(reward * bps / 10000) if and only if that product fits in 128 bits. |
| `PplnsTheorems.PayDependsOnWorkOnly` | crates/csd-pool-accounting/src/lib.rs:86-118 | Two windows with the same miners and the same work per miner are paid the same. |
| `PplnsTheorems.ShareOrderIsIrrelevant` | crates/csd-pool-accounting/src/lib.rs:86-89 | Permuting the shares changes nothing. |
| `PplnsTheorems.SplittingAShareIsIrrelevant` | crates/csd-pool-accounting/src/lib.rs:86-89 | Splitting a share into two of the same total changes nothing. |
| `PplnsTheorems.LedgerGainsTheRewardIff` | crates/csd-pool-accounting/src/lib.rs:121-144 | The entries of an allocated block add up to the reward if and only if no single amount reaches 2^127. |
| `PplnsTheorems.RewardsReachTheirMiners` | crates/csd-pool-accounting/src/lib.rs:121-144 | The entries give every miner its own amount as an immature reward and the pool its fee, as signed columns store them. |
| `PplnsTheorems.RewardsReachNobodyElse` | crates/csd-pool-accounting/src/lib.rs:121-144 | They give nothing to anybody else or under any other kind, and all refer to the block. |
| `Payouts.SelectPayouts` | crates/csd-pool-accounting/src/lib.rs:174-204 | Filters, sorts, truncates and sums; the total is the true sum modulo 2^128. |
| `Payouts.SelectionIsRanked` | crates/csd-pool-accounting/src/lib.rs:189-194 | The selection is ranked by amount and name, part of the eligible balances, and as long as the limit allows. |
| `Payouts.SelectionIsOptimal` | crates/csd-pool-accounting/src/lib.rs:179-194 | No choice of at most the allowed number of eligible balances pays more. |
| `Payouts.SelectionIsExact` | crates/csd-pool-accounting/src/lib.rs:174-204 | As many balances are selected as reach the minimum and the limit allows, larger amounts first and equal ones by name; each recipient stands for balances of exactly its miner, address and amount, all of them if the limit is not exceeded. |
| `Payouts.NoChoicePaysMore` | crates/csd-pool-accounting/src/lib.rs:179-194 | No choice of at most the allowed number of places in the list, all reaching the minimum, is worth more. |
| `Payouts.SortKeepsTies` | crates/csd-pool-accounting/src/lib.rs:189-193 | Recipients that tie keep their input order. |
| `Payouts.BalanceOrderIsIrrelevant` | crates/csd-pool-accounting/src/lib.rs:174-194 | The selection does not depend on the order of the balances, if equal name and amount mean the same balance. |
| `Payouts.LocksTakeWhatIsPaidIff` | crates/csd-pool-accounting/src/lib.rs:206-228 | The drafted locks take exactly the paid amounts if and only if no amount exceeds 2^127. |
| `Payouts.LocksCancelTheTotalIff` | crates/csd-pool-accounting/src/lib.rs:194-228 | Locks and reported total cancel if and only if the sum wrapped as often as there are oversized amounts; always when the true total is at most 2^127. |
| `Payouts.LocksReachTheirMiners` | crates/csd-pool-accounting/src/lib.rs:206-228 | The drafted locks take from each miner what it is paid, all as payout locks under the batch. |
| `Amounts.FormatThenParse` | crates/csd-pool-api/src/lib.rs:1943-1949 | Reading a formatted amount gives it back, for every `u128`. |
| `Amounts.ParseThenFormat` | crates/csd-pool-api/src/lib.rs:2090-2120 | Formatting what was read from a canonical text gives the text back, if its value fits. |
| `Amounts.ReformattingIsCanonical` | crates/csd-pool-api/src/lib.rs:2090-2120 | Any exactly read amount is written as a canonical eight-decimal text of the same value. |
| `Amounts.AcceptedIff` | crates/csd-pool-api/src/lib.rs:2090-2105 | Accepts exactly digits, optionally a point and at most eight digits, with a whole part that fits; otherwise returns the trimmed text as the error. |
| `Amounts.ParseIsExactIff` | crates/csd-pool-api/src/lib.rs:2106-2119 | The final unchecked addition is exact except for the greatest whole part with a fraction above .68211455. |
| `Amounts.ParseCanWrap` | crates/csd-pool-api/src/lib.rs:2119-2119 | A concrete text that is read as a far smaller amount. |
| `Amounts.ParseCsdBaseUnits` | crates/csd-pool-api/src/lib.rs:2090-2120 | The program with its padding loop computes the specified result. |
| `PayoutCsv.ExportIsReadBack` | crates/csd-pool-api/src/lib.rs:2179-2199 | Reading the export with an RFC 4180 reader gives the header and one row of eight cells per recipient, whatever the texts contain. |
| `PayoutCsv.EveryRecipientIsTold` | crates/csd-pool-api/src/lib.rs:2179-2199 | A reader finds, for every recipient of every batch in order, one row whose named columns hold the texts of the batch and the recipient, and both amounts as numbers and in coins. |
| `PayoutCsv.WrittenTablesAreRead` | crates/csd-pool-api/src/lib.rs:2215-2221 | No quoted or plain cell can break out of its place, for any table. |
| `PayoutCsv.PayoutBatchesCsv` | crates/csd-pool-api/src/lib.rs:2179-2199 | The nested loops write exactly those rows. |

## Left out

* Widths of counters and ids: event ids, session ids, generations and statistics counters are unbounded, where the
  program has 64-bit integers and saturating or wrapping increments.
* Memory ordering of the atomics: the reads and updates of relaxed atomics happen in the order of one interleaving.
  The running totals that a summary reports beside its own event are read in one step.
* Keys are measured in characters, where the program measures the UTF-8 length of dedupe and replacement keys.
* The runs of the telemetry start with it enabled; disabled, every operation does nothing, which the class methods say.
* Time never runs backwards in the runs of `Vardiff`, `SecondaryCircuit` and `JobRetention`; the telemetry allows any
  clock reading and treats an earlier one as the program does.
* A poisoned lock of `RetainedJobs`, the abuse tables or the circuit panics in the program and is not modelled.
* A sentinel error skips the round in the program and is simply no round here.
* The coupling of the refresh loop to the telemetry (which event it reports next) is not modelled: telemetry theorems
  hold for every sequence of calls, so for that one too.
* `AbuseManager`, authorization, difficulty suggestions in the frame loop, and vardiff inside a session are not part of
  `StratumSession`; a ban may close the connection after any submit.
* The codes and texts of responses to miners; which submit is refused, and which counter moves, is modelled.
* Submission to the first node, relay audits, `parallel_submit_status` and the JSON of all reports.
* The circuit breaker and the concurrency limit are not part of `CandidateControl`: they only stop attempts, so its
  theorems cover every attempt they let through.
* The claim file's contents, its permissions and symbolic-link checks; a claim is the existence of a synced file.
* Floating point: difficulties and the moving average are real numbers rounded half away from zero, with one value for
  everything that is not finite. Hash rate, effort, luck and `difficulty_for_target` are left out.
* `Divisor` treats a difficulty beyond 64 bits as the greatest 64-bit number, as the saturating cast does.
* HTTP, PostgreSQL, configuration parsing, dashboards, the signer, the mock node, and the Python checks.
* Pplns.AllocatePplns: assumes fewer than 2^63 shares, which no slice in memory can exceed.
* Payouts.SortByRank: an insertion sort stands for the standard library's stable sort; `RankingIsUnique` and
  `SortKeepsTies` characterize the result.
* PayoutCsv.ReadCsv: the reader is a reference written for the proof; the program only writes. Lines end with a line
  feed, where RFC 4180 prescribes a carriage return before it.
