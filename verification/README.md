# Verified model of the resume agent kernel

This project models, in Dafny, the four cores of the kernel and proves what they are
for. Run `dafny verify dfyconfig.toml` to check it.

**Deterministic allocation** (`Ordering`, `AllocationSnapshot`, `AllocationPlan`,
`AllocationExecution`, `AllocationTheorems`, `AllocationAccounting`, `ReplayCache`,
`AllocationReplay`, `AllocationWindow`, `AllocationService`). A snapshot of members and
demands is validated, canonicalised and planned by a staged greedy allocator whose every
assignment moves the keys the next member sees. The staged pipeline refines a one-pass
specification; the order anything was sent in never shows in the plan; supply and
sequences are conserved; interchangeable demands stay balanced. Around it, a bounded
cache replays answers by idempotency key. `AllocationReplay` is a transition system over
the atomic steps of concurrent calls, and in every interleaving a replay is what a fresh
run of the caller's own, possibly permuted, request would give. Sorting is known only by
contract, so the proofs hold for an unstable sort.

**Budgeted agent loop** (`ModelTokens`, `ModelClient`, `LoopBudget`, `LoopConversation`,
`LoopTools`, `LoopCandidate`). A run is a loop over turns with budgets for tokens,
context, calls and turns, a final phase that latches, compaction of the conversation, a
reserve for a correction, and a multiplier for transport retries. The client, the
tokenizer, the clock, the parser of replies and every reading tool are arbitrary
functions (`World`), so a theorem about a run is about every run. `Record` is the ledger
the rounds of a run satisfy: every call was affordable, its reserve included, against
what had been spent before it.

**Evidence collector** (`PipelineText`, `AgentEvidence`, `AgentSubmissions`,
`AgentCollector`, `RuntimeTasks`). Text is paged into numbered lines without loss;
evidence is a quote found, whitespace aside, in its own lines; submissions are accepted
exactly when sound and are then all that a run may change. The chunked driver merges
chunks of 24 jobs into one ranking: DONE means every job is covered once, on verified
evidence, within one budget.

**Single-flight sessions** (`SessionProtocol`, `SessionStore`). Callers of one key share
one run. The protocol is a transition system over locked steps, waiting, cancellation
and sweeping, with its invariants proved over every interleaving; the class beside it is
the store itself, each of whose locked operations is shown to be one of the protocol's
steps.

`ToolsSchema` models the feedback on arguments that fail their schema: it is exact for
the keywords it handles and always points at something that is wrong.

Two findings. README.md:77 of the repository calls the allocation cache a five-minute
idempotency cache: an entry under a key should turn away every other payload that starts
within five minutes of the entry's start. The code does not keep that promise always.
`AllocationWindow.TheWindowHoldsExactly` says when it does: no step but a commit can
break it, and a commit leaves it standing if and only if the commit is refused; or is
for the same key and payload and started no earlier; or is for another key, finds the
entry still alive at its own start, and is not the one that drops it from a full cache.
`AllocationWindow.CutShortByReplacement` and `AllocationWindow.CutShortBySweep` are runs
that break it with every call at most 30 seconds in flight, the most
`max_duration_seconds` allows. The jobs a DONE result covers are a permutation of the
jobs requested exactly when no reference repeats (`RuntimeTasks.CoversEachOnce`);
`internal/protocol/tasks.go:125-129` refuses envelopes in which one does.

How the source's terms are represented: SHA-256 digests are the digested values
themselves, so equal digests mean equal values; timestamps are instants beside their
text, or malformed; Go's `int` and `int64` are integers, with the one place a range is
relied on stated (`AllocationAccounting.NothingOverflows`) and division truncating
towards zero (`LoopBudget.Quotient`); scores, confidences and token ratios are reals;
strings are code points. Message contents and tool arguments are structured values
instead of JSON text, and call identifiers are pairs of turn and place instead of
`call_T_I`.

## Model

| member | source | states |
|---|---|---|
| Ordering.SortSlice | internal/allocation/service.go:74-82 | What every library sort promises its caller: an ascending permutation, nothing about ties. |
| Ordering.SortedIsUnique | internal/allocation/service.go:74-95 | If no two different elements tie, every sort of the same elements gives the same sequence, so an unstable sort is deterministic. |
| Ordering.StringLessTotal | internal/allocation/snapshot.go:32-33 | String order is a strict total order, so sorted strings come out one way only. |
| Ordering.VectorLessTotal | internal/allocation/snapshot.go:173-180 | Comparing order vectors slot by slot is a strict total order. |
| Ordering.SortedMembers | internal/allocation/snapshot.go:160-164 | However a map yields its keys, listing and sorting them gives one sequence. |
| AllocationSnapshot.TagHash | internal/allocation/snapshot.go:182-191 | The digest of exactly the given tags, arranged by code. |
| AllocationSnapshot.Repeats | internal/allocation/snapshot.go:68-74 | The seen-map loop reports a repeat exactly when two elements are equal. |
| AllocationSnapshot.ValidateIds | internal/allocation/snapshot.go:86-99 | Accepts exactly lists of known demands without repeats. |
| AllocationSnapshot.ValidateTags | internal/allocation/snapshot.go:100-108 | Accepts exactly verified tags with unique codes and unique assertion references. |
| AllocationSnapshot.ValidateMember | internal/allocation/snapshot.go:77-109 | Accepts exactly the members that meet the declarative condition, hash of the tags included. |
| AllocationSnapshot.ValidateSnapshot | internal/allocation/snapshot.go:51-111 | Accepts exactly the snapshots that meet the declarative, order-free validity condition. |
| AllocationSnapshot.CanonicalMembers | internal/allocation/snapshot.go:25-30 | Every member keeps its content and ends with its lists in order. |
| AllocationSnapshot.CanonicalDemands | internal/allocation/snapshot.go:31-34 | Every demand keeps its content and ends with its lists in order. |
| AllocationSnapshot.CanonicalSnapshot | internal/allocation/snapshot.go:14-44 | The result is a canonical form of the input: same nested multisets, every list in order. |
| AllocationSnapshot.CanonicalIsNormalForm | internal/allocation/snapshot.go:14-44 | For a snapshot in which nothing ties, unique keys being enough: its canonical form equals that of another if and only if the two are equal up to nested permutation. |
| AllocationSnapshot.CanonicalIsIdempotent | internal/allocation/snapshot.go:14-44 | Canonicalising a canonical form changes nothing, whatever an unstable sort does with ties, if and only if nothing in the snapshot ties. |
| AllocationSnapshot.SortableIsUnambiguous | internal/allocation/snapshot.go:14-44 | Where keys are unique, as validation demands, nothing ties. |
| AllocationSnapshot.ValidIsSortable | internal/allocation/snapshot.go:63-104 | Every validated snapshot has the unique keys the normal form needs. |
| AllocationSnapshot.ValidityIsContent | internal/allocation/snapshot.go:51-111 | Validity does not depend on the order anything was sent in. |
| AllocationPlan.UsableByCode | internal/allocation/snapshot.go:124-129 | Exactly the verified, supported tags that are manual or confident enough, by code. |
| AllocationPlan.MatchDemand | internal/allocation/snapshot.go:136-164 | Suits exactly when every required tag and at least one tag is usable; score counts preferred hits; keys are the hits in order. |
| AllocationPlan.CollectRefs | internal/allocation/snapshot.go:165-168 | One assertion reference per hit, in the order of the hits. |
| AllocationPlan.MakeOffer | internal/allocation/snapshot.go:136-169 | The offer of a suiting demand, its hits, references and order vector. |
| AllocationPlan.Eligible | internal/allocation/snapshot.go:119-172 | The offers of all suiting receiving demands and the reason a member without one would wait. |
| AllocationPlan.OffersAre | internal/allocation/snapshot.go:131-171 | Offers are exactly those of allowed, receiving, suiting demands. |
| AllocationPlan.OffersNeverTie | internal/allocation/snapshot.go:169 | Two offers with the same order vector are for the same demand, because the vector ends in its id. |
| AllocationPlan.WaitsExactlyWhenNothingSuits | internal/allocation/service.go:96-106 | A member waits if and only if no allowed demand suits, and then with the matching reason. |
| AllocationPlan.AssignsTheLeast | internal/allocation/service.go:95-106 | An assigned member gets the unique lexicographic minimum over all suiting demands, with its tags and order vector. |
| AllocationExecution.Execution.Read | internal/allocation/service.go:54-64 | Succeeds exactly on valid snapshots and loads members and demands by id. |
| AllocationExecution.Execution.Filter | internal/allocation/service.go:65-72 | Every member's options and reason are on file, computed against the demands as read. |
| AllocationExecution.Execution.Rank | internal/allocation/service.go:73-84 | Members are permuted into creation time and id order. |
| AllocationExecution.Execution.Refresh | internal/allocation/service.go:89-95 | The member's options with slots 2 and 3 refreshed, sorted. |
| AllocationExecution.Execution.SimulateMember | internal/allocation/service.go:88-116 | One member's decision and the new counters are those of the one-pass specification. |
| AllocationExecution.Execution.Simulate | internal/allocation/service.go:85-118 | All decisions and the final demands are those of the one-pass specification. |
| AllocationExecution.Execution.Validate | internal/allocation/service.go:119-132 | Accepts exactly decisions aligned with the members, assignments carrying a five-slot vector ending in their demand. |
| AllocationExecution.Execution.Run | internal/allocation/service.go:182-193 | The staged pipeline completes exactly on valid input when not interrupted, with the one-pass plan; it is never rejected after the first stage. |
| AllocationExecution.RefreshRecomputes | internal/allocation/service.go:89-95 | Refreshing only two slots of offers filed up front equals recomputing the offers on the current demands. |
| AllocationExecution.HeadIsLeast | internal/allocation/service.go:95-98 | The head of any sort of the refreshed offers is the minimum of the recomputed ones. |
| AllocationExecution.SortedOffersDecide | internal/allocation/service.go:88-108 | Deciding from the sorted refreshed options is the specification's decision. |
| AllocationExecution.RankingIsUnique | internal/allocation/service.go:73-84 | With unique member ids every sort ranks the members the same way. |
| AllocationExecution.PlanPassesTheCheck | internal/allocation/service.go:119-132 | Validation always accepts what simulation produced. |
| AllocationTheorems.TransportOrderIsIrrelevant | internal/allocation/service.go:54-118 | Snapshots equal up to permuting members, demands, tags and id lists get the identical decision sequence, every field included. |
| AllocationTheorems.SameDecision | internal/allocation/service.go:88-115 | One member sent in another order gets the same decision. |
| AllocationAccounting.SupplyIsConserved | internal/allocation/service.go:107-113 | Each demand's supply ends as its initial value plus the members assigned to it that had not already counted it; the next sequence advances by the assignments. |
| AllocationAccounting.SequencesAreConsecutive | internal/allocation/service.go:105-113 | Assigned sequences are consecutive from the snapshot's next sequence in decision order. |
| AllocationAccounting.LastAssigneeStamps | internal/allocation/service.go:111-112 | A touched demand ends with the sequence of its last assignee. |
| AllocationAccounting.UntouchedDemand | internal/allocation/service.go:97-114 | A demand nobody was assigned to is unchanged. |
| AllocationAccounting.SequencesAreNew | internal/allocation/snapshot.go:59-65 | Every assigned sequence exceeds every last sequence in the snapshot. |
| AllocationAccounting.NothingOverflows | internal/allocation/service.go:105-113 | Under the request schema's bounds no counter leaves the range of int64 at any moment of the batch. |
| AllocationAccounting.LeastSuppliedIsChosen | internal/allocation/service.go:89-100 | Among demands that differ only in counters, a least supplied one is chosen. |
| AllocationAccounting.SpreadNeverGrows | internal/allocation/service.go:85-118 | The spread of supply over interchangeable demands never exceeds its bound, at least one. |
| AllocationAccounting.BatchStaysBalanced | internal/allocation/service.go:85-118 | At every moment of the batch the spread is at most the larger of the initial spread and one. |
| AllocationAccounting.FilledMeansLevel | internal/allocation/service.go:85-118 | Once the newcomers could fill every demand to the initial maximum, the spread is at most one. |
| ReplayCache.StoringIsSafe | internal/allocation/service.go:201-219 | Storing keeps at most 256 entries, changes no other live entry, and drops a live one only at capacity, the one with the earliest start. |
| ReplayCache.GuardIs | internal/allocation/service.go:157-162 | A key turns away every other payload started within five minutes of an entry, if and only if it holds an entry of the same payload that started no earlier. |
| ReplayCache.GuardAfter | internal/allocation/service.go:199-219 | A promise survives a commit if and only if the commit is refused; or is for the same key and payload and started no earlier; or is for another key, finds the entry alive and does not drop it to make room. |
| ReplayCache.GuardSurvivesExactly | internal/allocation/service.go:199-219 | Before the commit: the promise survives in every way the commit may go, if and only if the same holds and the entry is not one of earliest start in a full cache. |
| ReplayCache.CloneResponse | internal/allocation/service.go:222-227 | A fresh object with a fresh array of decisions and the same value: a copy that shared the array would not do. |
| ReplayCache.Store.Find | internal/allocation/service.go:156-166 | Replays a fresh entry of the same hash as a copy that shares neither object nor array with the cache, reports a fresh one of another hash as a clash, and misses otherwise. |
| ReplayCache.Store.Tamper | internal/allocation/service.go:163-165 | Writing to the heading or, in place, to the decisions of an answer that shares nothing with the cache leaves every entry as it was. |
| ReplayCache.Store.Sweep | internal/allocation/service.go:204-208 | Exactly the expired entries go. |
| ReplayCache.Store.Oldest | internal/allocation/service.go:210-216 | An entry of earliest start, whatever the iteration order. |
| ReplayCache.Store.MakeRoom | internal/allocation/service.go:204-218 | Expired entries go, and at capacity exactly one of the earliest. |
| ReplayCache.Store.Put | internal/allocation/service.go:219 | A copy, its array included, is stored under the key; the caller's object and array stay outside the cache. |
| ReplayCache.Store.Commit | internal/allocation/service.go:199-219 | Refuses exactly a fresh entry of another hash, and otherwise leaves a cache with the entry stored. |
| AllocationReplay.EqualHashesReplay | internal/allocation/service.go:148-166 | Equal hashes mean the stored decisions are those a fresh run of the caller's own request would give, even permuted and never validated. |
| AllocationReplay.LookUpIsSound | internal/allocation/service.go:156-166 | A look-up in a sound cache leads on, or to an outcome a fresh run justifies. |
| AllocationReplay.CommitKeepsInv | internal/allocation/service.go:199-219 | The commit step keeps the cache sound and within capacity. |
| AllocationReplay.StepKeepsInv | internal/allocation/service.go:134-221 | Every atomic step of every call keeps the invariant: sound entries, at most 256 of them, slots held equal to calls holding one and at most 4. |
| AllocationReplay.EveryRunIsCoherent | internal/allocation/service.go:134-221 | In every interleaving of any calls the invariant holds, so every replayed response has the decisions of a fresh run. |
| AllocationReplay.SlotsComeBack | internal/allocation/service.go:176-181 | When no call is inside, no slot is held: every exit releases. |
| AllocationReplay.CommitRespectsOthers | internal/allocation/service.go:201-219 | A commit changes no other key, and its own only if the entry was stale or of the same hash. |
| AllocationWindow.CommitKeepsTheGuard | internal/allocation/service.go:199-219 | For every commit step of every call: the promise survives if and only if the step is refused, renews it no earlier, or, under another key, neither sweeps nor drops the entry. |
| AllocationWindow.GuardIsSafeFromACall | internal/allocation/service.go:199-219 | Before the step: it survives in every way the step may go, exactly under the condition on the call and the cache. |
| AllocationWindow.TheWindowHoldsExactly | internal/allocation/service.go:134-221 | Over any part of any run the promise stands throughout if and only if every commit in it meets that condition. |
| AllocationWindow.GuardRefuses | internal/allocation/service.go:156-203 | While it stands, another payload under the key started within the window is refused at its look-up and at its commit. |
| AllocationWindow.CutShortByReplacement | internal/allocation/service.go:134-221 | The promise is broken in a run with lags of at most 30 seconds: a slower call of the same payload replaces the entry, and another payload is accepted within five minutes of its start. |
| AllocationWindow.CutShortBySweep | internal/allocation/service.go:134-221 | And in one in which a commit under another key, started later, sweeps the entry before an earlier call of another payload commits. |
| AllocationService.Service.LookUp | internal/allocation/service.go:156-166 | The object's look-up is the protocol's step, and a replay shares neither object nor array with the cache. |
| AllocationService.Service.HashRequest | internal/allocation/service.go:144-155 | A hash of the canonicalised request, every other field included; the declared hash matches only if it is that of a canonical form of the snapshot, and always does so if nothing in the snapshot ties. |
| AllocationService.Service.FreshRun | internal/allocation/service.go:182-194 | Completes exactly on valid, uninterrupted requests, with the response of the plan; rejects exactly invalid ones. |
| AllocationService.Service.CommitAnswer | internal/allocation/service.go:194-220 | Stores and returns the response, or reports the conflict leaving the cache as it was. |
| AllocationService.Service.RunAndCommit | internal/allocation/service.go:182-220 | Answers exactly when nothing prevents it and otherwise names what did; an answer is the plan of this request and is stored, a failure leaves the cache as it was. |
| AllocationService.Service.InSlot | internal/allocation/service.go:176-220 | The same, and the slot is given back on every exit. |
| AllocationService.Service.AnswerHashed | internal/allocation/service.go:156-220 | Replays, refuses or runs exactly as the cache, the slots and the interruptions decide, each failure for its own reason. |
| AllocationService.Service.Execute | internal/allocation/service.go:134-221 | Every answer, replayed or fresh, has the decisions a fresh run of this request gives; refusals are for the reason that applies, slots are given back and failures store nothing. |
| SessionProtocol.NextKeepsInv | internal/session/store.go:23-69 | Every step of every caller keeps the invariant: at most 1000 entries, pending entries owned by a running caller and still in the map. |
| SessionProtocol.EveryRunIsInvariant | internal/session/store.go:23-69 | The invariant holds in every state of every interleaving. |
| SessionProtocol.SingleFlight | internal/session/store.go:28-55 | Two running callers of one key are one caller; an entry in flight is in the map; the map never exceeds 1000. |
| SessionProtocol.NoOrphans | internal/session/store.go:33-66 | Whoever waits on an open entry waits on a caller that is still running it. |
| SessionProtocol.VerdictsAreWrittenOnce | internal/session/store.go:64-67 | Once written, an entry's verdict never changes, in any later state. |
| SessionProtocol.SharersAgree | internal/session/store.go:28-38 | The owner and every waiter of one entry return the same verdict, and sharers have equal hash and key. |
| SessionStore.EnteredIsAStep | internal/session/store.go:24-55 | Joining, being turned away and beginning are steps of the protocol and keep its invariant. |
| SessionStore.SessionStore.Sweep | internal/session/store.go:40-48 | Exactly the finished entries older than an hour go. |
| SessionStore.SessionStore.Enter | internal/session/store.go:24-55 | The locked entry is one step of the protocol, and gives the caller what the protocol says it holds; joins, refuses, turns away or begins, with the whole new map; entries in flight stay. |
| SessionStore.SessionStore.Publish | internal/session/store.go:64-67 | Is the protocol's publishing step: an open entry gets its verdict, once. |
| SessionStore.SessionStore.Await | internal/session/store.go:33-38 | Is the protocol's waking step: a waiter returns the verdict of the closed entry. |
| SessionStore.SessionStore.Abandon | internal/session/store.go:33-36 | A waiter whose context ends takes the protocol's cancelling step, and the store is as it was. |
| SessionStore.SessionStore.Execute | internal/session/store.go:23-69 | A call is an entering step and then, for the owner, the publishing step, for a waiter of a closed entry the waking step; owners return their own verdict, waiters that of the entry they joined with an equal hash. |
| PipelineText.SplitUndoesJoin | internal/pipeline/text.go:45 | Splitting at a separator no part holds gives back the joined parts. |
| PipelineText.JoinedBytes | internal/pipeline/text.go:35-45 | The running size of pages and separators is the byte length of the joined text. |
| PipelineText.TrimsToNothing | internal/pipeline/text.go:47 | Trimming leaves nothing exactly of blank text. |
| PipelineText.Measure | internal/pipeline/text.go:35-44 | The page loop accepts exactly clean pages within the size bound and measures their joined size. |
| PipelineText.ReadText | internal/pipeline/text.go:20-51 | Accepts exactly the texts that meet the declarative condition, and yields their pages joined by form feeds. |
| AgentEvidence.NumberLines | internal/agent/collector.go:40-44 | The two nested loops number the lines of the split text. |
| AgentEvidence.PagingIsLossless | internal/agent/collector.go:35-46 | For accepted pages, lines are numbered from 1 without gaps, pages never decrease, and the lines of page i joined by line feeds are input page i. |
| AgentEvidence.Verify | internal/agent/collector.go:74-86 | True exactly when the quote is long enough, in range, on one page and found modulo whitespace. |
| AgentEvidence.VerifyAll | internal/agent/collector.go:87-97 | True exactly for a non-empty list of which every piece verifies. |
| AgentEvidence.ValidateEvidence | internal/agent/collector.go:98-120 | Succeeds exactly when all evidence verifies; otherwise blames the first piece that does not, with its first fault and its path. |
| AgentEvidence.EvidenceIsAnchored | internal/agent/collector.go:66-86 | Evidence that verifies is, without whitespace, a substring of the page of the original input it names. |
| AgentSubmissions.SettledIsGood | internal/agent/collector.go:164-181 | What is stored of an accepted profile has no supported tag below 0.8 and carries the risk when the text or experience is thin. |
| AgentSubmissions.AddedIsGood | internal/agent/collector.go:211-222 | Adding an accepted batch keeps every stored match evidenced, scored and in scope. |
| AgentSubmissions.AddedKeeps | internal/agent/collector.go:211-222 | Adding a batch adds exactly its references and changes no stored match. |
| AgentSubmissions.AddedHolds | internal/agent/collector.go:211-222 | Each match of an accepted batch ends stored, scored and with its rank cleared. |
| AgentSubmissions.ScoresAreFair | internal/agent/collector.go:218-219 | Scores lie in [0,1], are within half of the fourth place of the weighted mean, and never fall when a dimension rises. |
| AgentSubmissions.IncompleteIsCapped | internal/agent/collector.go:212-219 | An incomplete profile never raises a score and holds it at 0.935. |
| AgentSubmissions.RankingIsUnique | internal/agent/collector.go:240-255 | Any two rankings of the stored matches are equal, so map order never shows. |
| AgentCollector.Collector.constructor | internal/agent/collector.go:35-46 | A collector over exactly these lines and jobs by reference, empty and valid. |
| AgentCollector.Collector.ClaimProblem | internal/agent/collector.go:128-141 | No problem exactly when the claim is sound; otherwise the first thing wrong with it. |
| AgentCollector.Collector.TagProblem | internal/agent/collector.go:143-162 | No problem exactly when the tag is known, new, in range and evidenced; otherwise the first thing wrong with it. |
| AgentCollector.Collector.CheckProfile | internal/agent/collector.go:125-167 | Accepts exactly sound profiles and settles their tags; otherwise blames the first fault. |
| AgentCollector.Collector.SubmitProfile | internal/agent/collector.go:121-183 | Accepted exactly once, before the end, when sound; stores the settled profile or changes nothing. |
| AgentCollector.Collector.MatchProblem | internal/agent/collector.go:189-209 | No problem exactly when the match is in scope, new, in range, reasoned and evidenced. |
| AgentCollector.Collector.SubmitMatches | internal/agent/collector.go:184-224 | All of a batch or none of it: accepted exactly when every match is, stored scored, everything else unchanged. |
| AgentCollector.Collector.Finish | internal/agent/collector.go:225-239 | DONE exactly with a profile and a match for every job, FAILED always, nothing after the end. |
| AgentCollector.Collector.Ranked | internal/agent/collector.go:240-255 | Every stored match once, by score then reference, ranked from one. |
| ModelTokens.TokenCounter.Base | internal/model/tokens.go:95-101 | Eight plus sixteen and the token length for every message. |
| ModelTokens.TokenCounter.Estimate | internal/model/tokens.go:102-104 | The base scaled by ratio and margin, rounded up, never zero. |
| ModelTokens.TokenCounter.Observe | internal/model/tokens.go:105-118 | The ratio stays within [0.25, 4]; the new estimate covers the report if and only if some allowed ratio could; later reports lose at most a tenth. |
| ModelTokens.DroppingNeverCosts | internal/model/tokens.go:95-104 | On an unchanged counter, dropping messages never raises the estimate. |
| ModelTokens.SpikesDecaySlowly | internal/model/tokens.go:109-117 | After n reports at least 0.9 to the n of any ratio is left, within the bounds. |
| ModelClient.ReportedUsage | internal/model/http_client.go:227-238 | A field counts as reported exactly when present and not negative, and is zero otherwise. |
| ModelClient.MaxAttempts | internal/model/http_client.go:102 | Between 1 and 6 attempts, one more than the retries in that range. |
| ModelClient.HTTPClient.Complete | internal/model/http_client.go:68-100 | Between 1 and the maximum of attempts, usage summed over exactly those, all but the last retryable errors, ended for the stated reason. |
| ModelClient.NoAttemptIsFree | internal/model/http_client.go:74-84 | For input and output apart, reported plus unknown attempts are all attempts, and usage is reported exactly when not all are unknown. |
| ModelClient.WithinIsModest | internal/model/http_client.go:68-100 | If each attempt keeps to an estimate and a cap, the reported sums fit the attempts that reported. |
| LoopBudget.Trace.InitBudget | internal/llmloop/budget.go:16-22 | The default context size is filled in and the diagnostics start fresh from what is left. |
| LoopBudget.AvailableIsAffordable | internal/llmloop/candidate.go:126-150 | An output within what is available leaves attempts times estimate and limit, plus the reserve, within what remains, and the call within the context. |
| LoopBudget.RoomForOutput | internal/llmloop/candidate.go:110-126 | A round that is not tight has at least 1024 output tokens per attempt. |
| LoopBudget.CorrectionIsPaidFor | internal/llmloop/candidate.go:118-125 | A correction reserve pays for a whole correction on every attempt and leaves the submission before it its 1024 tokens. |
| LoopBudget.RecordUsage | internal/llmloop/budget.go:23-56 | Charges what was reported, one estimate per unknown input and one cap or the measured reply per unknown output, and recalibrates only on full reports. |
| LoopBudget.ChargesFit | internal/llmloop/budget.go:23-48 | A call that kept to estimate and cap on every attempt is charged at most that many estimates and caps. |
| LoopBudget.MergeUsageSource | internal/llmloop/budget.go:57-70 | Estimated or reported exactly when every round was. |
| LoopBudget.LivelyHasProgress | internal/llmloop/candidate.go:91-93 | Of any three rounds in a row that another follows, one made progress. |
| LoopBudget.OverrunIsExcessive | internal/llmloop/candidate.go:156-168 | A round overruns the total or eats its reserve only by charging beyond its attempts' estimates or caps. |
| LoopBudget.ReserveRemains | internal/llmloop/candidate.go:98-168 | After a round that did not, the run is within its total and that round's reserve is still there. |
| LoopConversation.Conversation.Observe | internal/llmloop/context.go:36-60 | What is remembered as called and read, and exactly when a call counts as progress or as a repeat. |
| LoopConversation.Conversation.ResidentLines | internal/llmloop/context.go:64-87 | Exactly the line numbers shown by results still held. |
| LoopConversation.Conversation.Ranges | internal/llmloop/context.go:98-113 | Ascending ranges that do not touch and cover exactly the lines read. |
| LoopConversation.CoveringIsUnique | internal/llmloop/context.go:98-113 | There is only one such list of ranges. |
| LoopConversation.Conversation.Messages | internal/llmloop/context.go:114-166 | Instructions, a state message picturing the run, and every round held, whole and in order. |
| LoopConversation.Conversation.Missing | internal/llmloop/context.go:125-141 | The tools still to be called, one per job without a match, and the jobs in order of reference. |
| LoopConversation.Conversation.Compact | internal/llmloop/context.go:167-173 | Keeps exactly the last rounds, whole. |
| LoopConversation.MessagesAreDetermined | internal/llmloop/context.go:114-166 | The same state is always sent as the same messages, however maps are iterated. |
| LoopConversation.CompactionNeverCosts | internal/llmloop/candidate.go:126-132 | Compaction never raises the estimate of what is sent on the same counter. |
| LoopConversation.IdsAreUnique | internal/llmloop/candidate.go:184-186 | No two calls in orderly rounds share an identifier. |
| LoopCandidate.IdsAreUniqueOverTheRun | internal/llmloop/candidate.go:184-186 | Two calls with one identifier, in any lists of messages sent in a run, are the same call of the same round, compacted rounds included. |
| LoopTools.Submit | internal/agent/tools.go:129-160 | A submitting tool succeeds exactly when the collector accepts, does exactly that submission, and otherwise changes nothing. |
| LoopTools.ReadSections | internal/agent/tools.go:56-67 | Exactly the lines asked for, at most 200, or a refusal. |
| LoopTools.Execute | internal/tools/registry.go:133-150 | Only the three submitting tools may change the collector, and only when the call reaches them and is accepted. |
| LoopTools.AcceptedIsProgress | internal/llmloop/context.go:88-97 | An accepted submission always raises the collector's progress. |
| LoopCandidate.Survey | internal/llmloop/candidate.go:98-109 | The estimate of what would be sent, compacted if large, and the reserve for a final submission and a correction. |
| LoopCandidate.Settle | internal/llmloop/candidate.go:110-125 | Final exactly if it was or the round would be tight; what is kept back is backed by what remains. |
| LoopCandidate.Squeeze | internal/llmloop/candidate.go:127-132 | Drops all but the last round without raising the estimate. |
| LoopCandidate.Fit | internal/llmloop/candidate.go:126-150 | An affordable plan with a useful output, or a stop for exactly the reason that applies; an analysis round never stops here. |
| LoopCandidate.Preflight | internal/llmloop/candidate.go:98-150 | The three together: attempts times estimate and limit plus reserve fit what remains, the call fits the context, and only a final round may stop. |
| LoopCandidate.Charge | internal/llmloop/candidate.go:157-165 | The trace gains one round charged for the call, its turn, totals, remaining tokens and retries. |
| LoopCandidate.Dispatch | internal/llmloop/candidate.go:204-208 | A final round refuses every other tool; submissions are accepted exactly when the collector would. |
| LoopCandidate.RunCall | internal/llmloop/candidate.go:198-234 | One call counted, run if allowed, observed, traced and answered; a call without progress leaves the collector as it was. |
| LoopCandidate.RunCalls | internal/llmloop/candidate.go:190-235 | The round is the reply and exactly its results in call order, within the tool limit, nothing run after the end. |
| LoopCandidate.AssignIds | internal/llmloop/candidate.go:184-186 | Calls are numbered by turn and place. |
| LoopCandidate.AskForRepair | internal/llmloop/candidate.go:174-183 | Exactly two repairs, and not on the last turn. |
| LoopCandidate.RunReply | internal/llmloop/candidate.go:184-249 | The round is closed with its progress and appended whole; a finished collector ends the run as completed or incomplete. |
| LoopCandidate.Call | internal/llmloop/candidate.go:98-165 | Stops only in a final round, or makes one call whose round fits the budget. |
| LoopCandidate.Gate | internal/llmloop/candidate.go:80-97 | Goes on exactly while context, tokens, calls and progress allow, latching the final phase; otherwise stops for the cause that holds. |
| LoopCandidate.Answer | internal/llmloop/candidate.go:166-249 | Overrun, model error, unusable reply or calls, in that order, each with its recorded reason. |
| LoopCandidate.Exchange | internal/llmloop/candidate.go:98-250 | One call charged and answered, its round closed, or a final round's stop for want of an affordable call. |
| LoopCandidate.Turn | internal/llmloop/candidate.go:79-250 | Either a stop before any call that leaves the collector as it was, or exactly one charged round. |
| LoopCandidate.TurnExtendsHistory | internal/llmloop/candidate.go:79-251 | A turn extends the history of its run: it sends a list that replays, whole, a suffix of the rounds so far, and adds one round. |
| LoopCandidate.Loop | internal/llmloop/candidate.go:79-251 | Terminates within the turns; totals are the start plus the rounds, every round fits the budget, finalisation is latched; list i sent replays, whole, a suffix of the first i rounds of one orderly run. |
| LoopCandidate.RunCandidate | internal/llmloop/candidate.go:57-252 | The same for the whole run; every ending has its cause and its recorded reason, and success means a complete, evidenced assessment within the budget. |
| LoopCandidate.WellBehavedIsNotExcessive | internal/llmloop/budget.go:23-56 | A reply whose reported usage is within the sums of its attempts, or whose measured text is within the cap where nothing is reported, is never charged beyond them. |
| LoopCandidate.EachAttemptIsWellBehaved | internal/model/http_client.go:68-100 | Attempts that each keep to estimate and cap make a well-behaved reply, whatever the retries. |
| LoopCandidate.WellBehavedKeepsTheReserve | internal/llmloop/candidate.go:98-168 | After a well-behaved round the total keeps the reserve of that round. |
| LoopCandidate.TheBudgetHolds | internal/llmloop/candidate.go:98-168 | If each attempt of a call keeps to its estimate and cap, retries and unreported usage included, the total is not overrun after its round and its reserve is still there. |
| LoopCandidate.OverrunHasAnExcessiveRound | internal/llmloop/candidate.go:166-168 | A run past its tokens after a call has a last round in which some attempt did not keep to its estimate or cap. |
| RuntimeTasks.RunChunk | internal/runtime/tasks.go:132-155 | A completed chunk has a profile, the shared one if there was one, and an evidenced match for each of its jobs. |
| RuntimeTasks.Merge | internal/runtime/tasks.go:157-159 | The chunk's matches override, all others stay. |
| RuntimeTasks.MergeAssessed | internal/runtime/tasks.go:131-160 | Chunks assessed against one profile make an assessed whole. |
| RuntimeTasks.RunChunks | internal/runtime/tasks.go:130-160 | The chunk loop is done exactly when every chunk completed, and then all jobs are assessed against one profile within the budget. |
| RuntimeTasks.RunTask | internal/runtime/tasks.go:98-168 | DONE exactly when the text is accepted and every chunk completed; then every requested job is covered once, ranked by score then reference from one, all evidence verified, within the budget. |
| RuntimeTasks.CoversEachOnce | internal/runtime/tasks.go:163-166 | The covered jobs are a permutation of the requested ones if and only if no reference was requested twice, as the envelope check ensures. |
| RuntimeTasks.DoneIsAnchored | internal/runtime/tasks.go:161-167 | From DONE to the input: every quote the matches, claims and tags of a result rest on is, whitespace aside, a substring of the page it names, as that page was sent. |
| ToolsSchema.LocateSchemaIssue | internal/tools/errors.go:36-122 | The search finds the specified first issue, whatever order maps are walked in. |
| ToolsSchema.SearchObject | internal/tools/errors.go:39-58 | Type, required fields, unknown fields and then properties, in that order. |
| ToolsSchema.SearchProperties | internal/tools/errors.go:59-74 | The first issue among the properties present, in order of name. |
| ToolsSchema.FeedbackIsExact | internal/tools/errors.go:36-122 | No issue is found if and only if the value conforms, for the keywords handled. |
| ToolsSchema.FeedbackPoints | internal/tools/errors.go:36-122 | The reported path leads to a value with that very fault under its own sub-schema, or to an absent required field. |

## Left out

- HTTP serving, authentication, logging, process start-up, packaging: plumbing.
- JSON encoding and decoding, the JSON Schema library and the protocol envelopes: typed values stand in; a schema verdict is an input of `LoopTools.Execute`.
- SHA-256 itself, RFC 3339 syntax, BPE encodings and their vocabularies: an injective digest, instants and an arbitrary length function stand in.
- IEEE rounding, NaN and infinities: reals stand in, so exact ties of rounded floats and the rejection of non-finite numbers are not covered.
- The UTF-8 validity check of pages: text is already code points. Lengths are still counted in UTF-8 bytes.
- The contents of prompts and hint texts, the mapping of endings to failure codes, durations, trace identifiers, tool item counts and error codes in traces, and the counters of compactions, repeated calls and validation failures.
- The fixed parts of the state message: tool definitions, budget, candidate, tag catalog and section table.
- Registration of tools and providers: whether a tool is offered is an input.
- The MCP client and the inside of one HTTP attempt, the output cap sent with it included: each attempt is an arbitrary outcome.
- The wall clock: `World.ended` and `World.late` say, turn by turn, what the context and the deadline would.
- Search tools of the agent: what they answer is arbitrary; only `resume.read_sections` is computed.
- Fields that are only carried along (claim details, names, tag descriptions, job texts).
- AllocationService.Service.Execute: the checks of envelope and pin that come before it, and the sizes and response schema checked after, are outside; the response schema's verdict is an input.
- AgentCollector.Collector.SubmitProfile: the caller's own slice, whose tag statuses the source overwrites in place, is a value here, so that aliasing is not modelled.
- ToolsSchema.LocateSchemaIssue: a whole number beyond the range of int64 is reported as not an integer; the source leaves that conversion to the machine. A `required` entry that is not a string, on which the source panics, is not representable.
- LoopCandidate.RunCandidate: failure to load the tokenizer is not modelled.
- RuntimeTasks.RunTask: failures to build the client or the registry, and the failure details of a run that did not finish, are not modelled.
- SessionStore.SessionStore.Execute: blocking is not executable here; a waiter of an open entry returns no verdict yet and still waits in the protocol, which it leaves by `Await` or `Abandon`.
- ReplayCache.CloneResponse: the decisions are an array that is copied; the lists inside one decision are values, so sharing of those is not modelled.
