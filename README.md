# Labeling portal engine, modelled in Dafny

This project models the task-lifecycle and consensus engine of a mock video-caption labeling
service. Its in-memory store is `MemoryDatabase`. The services act on the store as follows:

- A new task gets a priority tier from its uncertainty and difficulty.
- Tasks are listed by priority, then by creation time.
- An annotator claims the first pending task that their reliability allows.
- Submitting an annotation updates the annotator's counters and reliability. From the third
  annotation on, the task moves to `awaiting_review`.
- Votes are stored per task.
- Finalization aggregates the captions into a consensus record and marks the task `finalized`.
- Reliability reports and a dashboard are derived from the counters.

Layout, one module per file:

- `schemas.dfy`: the records (task, annotation, vote, consensus, report), the priority weights
  1/5/10 and the status values. It also defines the `Option`/`Result` wrappers that stand in
  for `None` and for the `KeyError`/`ValueError` exceptions, messages included.
- `database.dfy`: class `MemoryDatabase`.
  - Its dictionaries are `map` fields.
  - `taskOrder` records the insertion order of `tasks`, which Python's dict iteration follows
    and the stable sort depends on.
  - The `defaultdict` reads are methods that store the default entry, as Python does.
  - `Valid()` is the store invariant. Listed ids exist, stored metrics are well formed, and
    `taskOrder` enumerates `tasks` exactly once.
- `services.dfy`: the service operations, as methods that mutate the store. Each method that
  models a Python function gives in its `ensures` the whole new state of every field it may
  modify. Two scenario methods state only the property they exhibit:
  `FinalizeConsensusTwice` (the same answer twice) and `ReannotateFinalized` (status back to
  `awaiting_review`).
- `ordering.dfy`: the priority formula, the listing order (a stable insertion sort proved
  sorted and a permutation) and the claim rule.
- `similarity.dfy`, `text.dfy`, `rounding.dfy`:
  - the word-overlap similarity;
  - `str.lower()`, `str.split()` and `" ".join`;
  - Python's `round()` with ties to even.
- `consensus.dfy`: `_aggregate_semantic` and the mock evaluator.
- `reliability.dfy`: the metrics counters, `_compute_reliability` and the report.
- `retraining.dfy`: the known-id filter of `trigger_retraining` and `_mutate_caption`.

Some behaviour of the code runs against what one might expect of a labeling service:

- **The consensus caption is always the first caption.** The similarity divides the overlap by
  the sum of both word-set sizes, not by the size of their union. So a caption scores at most
  0.5 against anything, and a caption with words scores exactly 0.5 against itself. The first
  caption (the centroid) therefore has the largest key, and `max()` keeps the first of equal
  keys. One might expect the consensus to be the caption most similar to the others, or a
  caption to score 1.0 against itself; neither holds. The agreement is likewise at most 0.5.
- **Every annotation disagrees once a consensus exists.** The threshold is 0.7, and no
  similarity reaches it. Each submission after finalization therefore adds the number of
  ALL annotations on the task to the submitter's disagreements, not one.
- **Status can move backwards.** A finalized task that receives a third or later annotation
  goes back to `awaiting_review` (`ReannotateFinalized`). Finalization also overwrites any
  status.
- **A failed finalization can change the store.** With no annotations, the `ValueError` path
  leaves an empty list stored under the task id, because it reads the `defaultdict`.
- **Looked-up annotators appear on the dashboard.** The dashboard lists every annotator whose
  metrics were ever read, including annotators who only requested an assignment or were looked
  up by `get_reliability`.

Python's `uuid4()`, `utcnow()` and `random.uniform(45, 120)` are parameters: a fresh id, a clock
reading `now` and a `sample` in [45, 120].

## Model

| member | source | states |
|---|---|---|
| TaskOrdering.CalculatePriority | app/services.py:52-58 | high iff uncertainty*10 + weight >= 12, medium iff in [7, 12), low iff below 7 (all three directions) |
| TaskOrdering.PriorityMonotone | app/services.py:52-58 | for a fixed difficulty, more uncertainty never gives a lower tier |
| TaskOrdering.LowDifficultyNeverHigh | app/services.py:52-58 | a low-difficulty task with uncertainty at most 1 is never high |
| TaskOrdering.HighDifficultyTiers | app/services.py:52-58 | a high-difficulty task is never low, and is high exactly from uncertainty 0.2 on |
| TaskOrdering.InsertTask | app/services.py:62 | inserting into a sorted listing keeps it sorted and adds exactly that task (multiset) |
| TaskOrdering.PrependSorted | app/services.py:62 | a task that precedes the head of a sorted listing can be put in front |
| TaskOrdering.KeepHeadSorted | app/services.py:62 | a head that precedes everything else stays first after an insertion further down |
| TaskOrdering.SortTasks | app/services.py:62 | the result is sorted by (-priority, created_at) and is a permutation of the input |
| TaskOrdering.Score | app/services.py:53 | the scaled score uncertainty*10 + weight, on which `CalculatePriority` states its three tiers |
| TaskOrdering.Precedes | app/services.py:62 | the sort key order (-priority, created_at): higher weight first, then earlier creation; `SortTasks` is sorted by it |
| TaskOrdering.FirstEligible | app/services.py:69-73 | the index is the first task that is pending and not (high with reliability < 0.6); every earlier task is skipped; `|ts|` means none |
| TaskOrdering.Eligible | app/services.py:70-73 | a task is claimable when pending and not high priority for reliability below 0.6; `FirstEligible` and `NoHighTaskForUnreliable` are stated with it |
| TaskOrdering.NoHighTaskForUnreliable | app/services.py:72-73 | below reliability 0.6 the task offered is never high priority and is pending |
| Services.TaskValues | app/services.py:62 | `DB.tasks.values()` in insertion order: one value per ordered id |
| Services.ListTasks | app/services.py:61-62 | the listing is sorted and is a permutation of the stored tasks |
| Services.ListTasksIsPermutationOfStore | app/services.py:61-62 | the listing has as many entries as the store, holds exactly the stored tasks, and each is stored under its own id |
| Services.CreateTask | app/services.py:37-49 | the new task is pending, unassigned, with the computed priority and both timestamps `now`; it is stored under the fresh id and appended to iteration order |
| Services.Claim | app/services.py:74-76 | the claimed copy is assigned to the annotator and keeps id and priority |
| Services.RequestAssignment | app/services.py:65-78 | returns None with tasks unchanged when no listed task is eligible; otherwise claims the first eligible listed task, and no other task changes; the annotator's metrics entry is stored (default for a newcomer) |
| Services.ClaimListed | app/services.py:74-77 | a listed task is stored under its id, and writing its claimed copy changes only that entry |
| Services.ScanForEligible | app/services.py:69-78 | the loop stops at exactly `FirstEligible` of the listing |
| Services.SubmitAnnotation | app/services.py:90-105 | KeyError and no change for an unknown task; otherwise the annotation is stored and appended to the task's list, the annotator's metrics become `CompleteTask` of the old ones, and the task is awaiting_review iff the list now has 3 or more ids, otherwise unchanged |
| Services.RecordAnnotation | app/services.py:93-103 | the state after storing the annotation and updating the metrics, before the status check |
| Services.StoreAnnotation | app/services.py:101-102 | the annotation is stored under its id and its id appended to its task's list |
| Services.UpdateMetricsOnCompletion | app/services.py:108-118 | only the annotator's entry changes: one more completed task, the sample added, disagreements increased by the task's full annotation count when it has a consensus (by 0 otherwise), reliability recomputed |
| Services.MaybeUpdateTaskStatus | app/services.py:130-134 | with 3 or more annotations the task becomes awaiting_review whatever its status, otherwise nothing changes; the read stores an empty list for a task that had none |
| Services.SubmitVote | app/services.py:139-153 | KeyError and no change for an unknown task; otherwise the vote is stored and appended to the task's vote list |
| Services.FinalizeConsensus | app/services.py:156-173 | KeyError and no change for an unknown task; ValueError with only an empty list stored when there are no annotations; otherwise the consensus is the first caption, with the mean similarity to it and the mock confidence, and the task is finalized |
| Services.EvaluateConsensus | app/services.py:162-170 | the record built from a non-empty caption list: first caption, `Agreement`, mock confidence; agreement in [0, 0.5], confidence in [0.6, 1] |
| Services.FinalizeConsensusTwice | app/services.py:156-173 | finalizing twice in a row gives the same error, or the same caption, agreement and confidence |
| Services.ReannotateFinalized | app/services.py:90-105 | a finalized task with two or more annotations is back in awaiting_review after one more |
| Services.GetReliability | app/services.py:245-255 | the report of the stored (or default) metrics, reliability in [0.1, 0.99]; the annotator is stored and so appears on the dashboard |
| Services.DashboardSnapshot | app/services.py:258-259 | one report per key of the metrics map, each for its own annotator with its completed count |
| Services.DashboardWithinClamp | app/services.py:258-259 | every reliability on the dashboard of a valid store is within [0.1, 0.99] |
| Database.MemoryDatabase.constructor | app/database.py:15-30 | a new store is empty and valid |
| Database.MemoryDatabase.Reset | app/database.py:32-33 | reset empties every map and keeps the store valid |
| Database.MemoryDatabase.CaptionsOf | app/services.py:159 | one caption per annotation id, in list order |
| Database.MemoryDatabase.ReadTaskAnnotations | app/database.py:19 | returns the task's list, storing an empty list for an unseen task; no change otherwise |
| Database.MemoryDatabase.ReadTaskVotes | app/database.py:21 | returns the task's vote list, storing an empty list for an unseen task; no change otherwise |
| Database.MemoryDatabase.ReadMetrics | app/database.py:23-30 | an unseen annotator gets (0, 0.0, 0, 0.5), stored; a known one's entry is returned unchanged |
| Database.MemoryDatabase.AddTask | app/services.py:48 | a task with a fresh id is added and goes last in iteration order |
| Database.MemoryDatabase.UpdateTask | app/services.py:74-76 | overwriting a stored task changes only that entry and keeps iteration order |
| Database.MemoryDatabase.PutAnnotation | app/services.py:101 | only the annotation entry changes |
| Database.MemoryDatabase.AppendTaskAnnotation | app/services.py:102 | the id goes at the end of the task's list (created empty if missing) |
| Database.MemoryDatabase.PutVote | app/services.py:151 | only the vote entry changes |
| Database.MemoryDatabase.AppendTaskVote | app/services.py:152 | the id goes at the end of the task's vote list (created empty if missing) |
| Database.MemoryDatabase.PutConsensus | app/services.py:171 | only the task's consensus entry changes |
| Database.MemoryDatabase.PutMetrics | app/services.py:110-118 | only the annotator's entry changes; a well-formed entry keeps the store valid |
| Similarity.AtLeastOne | app/services.py:192 | `max(n, 1)`: at least 1 and at least n, and equal to n or to 1 |
| Similarity.SemanticSimilarity | app/services.py:190-193 | the similarity is in [0, 0.5] |
| Similarity.WordSet | app/services.py:191 | `set(s.lower().split())`: the set of the lower-cased string's words; `SameWordsSameSimilarity` shows only it matters |
| Similarity.OverlapAtMostHalf | app/services.py:191-192 | twice the shared-word count never exceeds the sum of the two word counts |
| Similarity.SimilaritySymmetric | app/services.py:190-193 | the similarity does not depend on argument order |
| Similarity.SelfSimilarity | app/services.py:190-193 | a caption with words scores exactly 0.5 against itself, one without words 0 |
| Similarity.SameWordsSameSimilarity | app/services.py:191 | only the set of lower-cased words matters |
| Similarity.SimilarityToWordless | app/services.py:190-193 | every caption scores 0 against a caption without words |
| Text.Lower | app/services.py:191 | lower-casing keeps length and maps each character |
| Text.Split | app/services.py:191 | every piece is a non-empty word without whitespace, and the pieces laid end to end are exactly the non-whitespace characters of the string, in order |
| Text.SplitJoin | app/services.py:240 | splitting words joined with single spaces gives the words back |
| Text.Join | app/services.py:240 | `" ".join(words)`; `SplitJoin` proves splitting it gives the words back |
| Consensus.SimilaritiesFromCentroid | app/services.py:181-184 | one similarity per caption, of the centroid to that caption |
| Consensus.SimilaritiesToCentroid | app/services.py:186 | the `max()` keys: one per caption, of that caption to the centroid |
| Consensus.BestIndexIsFirstMaximum | app/services.py:186 | the index `max()` picks holds a largest key, and every earlier key is strictly smaller |
| Consensus.MeanSimilarityBounds | app/services.py:185-187 | the rounded mean of similarities in [0, 0.5] is in [0, 0.5] |
| Consensus.Sum | app/services.py:185 | `sum()` of the similarities; `SumBounds` bounds it by the length times the element bounds |
| Consensus.SumBounds | app/services.py:185 | elements in [lo, hi] give a sum in [lo*n, hi*n] |
| Consensus.MeanSimilarity | app/services.py:185-187 | the rounded mean `round(sum / len, 3)`; bounded by `MeanSimilarityBounds` |
| Consensus.BestIndex | app/services.py:186 | the index `max(..., key=...)` picks is within the list; `BestIndexIsFirstMaximum` proves it is the first largest key |
| Consensus.Agreement | app/services.py:181-187 | the agreement of a non-empty caption list is in [0, 0.5] |
| Consensus.AggregateSemantic | app/services.py:176-187 | ValueError("No captions to aggregate") iff the list is empty; otherwise a caption from the list, with agreement in [0, 0.5] |
| Consensus.FirstMaximiser | app/services.py:186 | the aggregated caption is the first caption with the largest similarity to the centroid |
| Consensus.ConsensusIsFirstCaption | app/services.py:180-186 | the aggregated caption is always the first caption |
| Consensus.AggregateSemanticClosedForm | app/services.py:176-187 | aggregating a non-empty list gives the first caption and the mean similarity to it |
| Consensus.UnanimousAgreement | app/services.py:181-187 | captions that all share one non-empty word set agree at exactly 0.5 |
| Consensus.MeanOfHalves | app/services.py:185-187 | the rounded mean of similarities that are all 0.5 is 0.5 |
| Consensus.MockLlmEvaluation | app/services.py:196-197 | the confidence is in [0.6, 1], 1 from 80 characters on, 0.6 for the empty caption |
| Reliability.DefaultMetricsWellFormed | app/database.py:23-30 | the default entry satisfies the metrics invariant |
| Reliability.CountDisagreements | app/services.py:114-117 | the count is the number of captions: none reaches the 0.7 threshold |
| Reliability.ComputeReliability | app/services.py:121-127 | 0.5 with no completed tasks; always in [0.1, 0.99] |
| Reliability.PerfectAnnotator | app/services.py:121-127 | no disagreements and at most 90 s a task on average give 0.99 |
| Reliability.HeavyDisagreement | app/services.py:121-127 | three or more disagreements per completed task give 0.1 |
| Reliability.CompleteTask | app/services.py:108-118 | completed +1, total seconds + sample, disagreements + the new count, reliability in the clamp; the metrics invariant is preserved for a sample in [45, 120] |
| Reliability.Report | app/services.py:245-255 | the report is for the given annotator with throughput equal to completed |
| Reliability.ReportBounds | app/services.py:245-255 | for a well-formed entry: reliability in [0.1, 0.99], average seconds in [45, 120] when tasks were completed and 0 otherwise |
| Reliability.DefaultReport | app/services.py:245-255 | an unseen annotator reports (0.5, 0, 0.0, 0.0) |
| Retraining.KnownTaskIds | app/services.py:203 | the kept ids are stored ones from the request, and every stored requested id is kept |
| Retraining.KnownTaskIdsAppend | app/services.py:203 | the request order is kept: appending an id appends it exactly when it is stored |
| Retraining.LabeledTasks | app/services.py:203 | one forwarded task per known id, in request order: entry i is the stored task of `KnownTaskIds` entry i |
| Retraining.MutateCaption | app/services.py:232-240 | a caption without words is returned unchanged |
| Retraining.MutateCaptionAddsOneWord | app/services.py:232-240 | a caption with up to five words gains "refined" at the end, one with more gains "Updated" in front: the word list gains exactly that word (the words are re-joined with single spaces) |
| Rounding.RoundMonotone | app/services.py:127 | `round(x, n)` is monotone in x |
| Rounding.RoundBetween | app/services.py:127 | bounds that are on the rounding grid survive rounding |
| Rounding.RoundOnGrid | app/services.py:127 | a multiple of 10^-n rounds to itself |
| Rounding.Round | app/services.py:127 | `round(x, n)` as used at lines 127, 187, 193, 197 and 251-254: the nearest multiple of 10^-n, ties to even |
| Rounding.RoundWithinHalfUnit | app/services.py:127 | `round(x, n)` is within half of 10^-n of x |

## Left out

- `upsert_prediction` and `evaluate_retrained_model`: prediction storage and the evaluator
  report are not part of this model. The `predictions` map exists only so that construction and
  `reset` are complete.
- `trigger_retraining`: only the id filter is modelled. The webhook payload's shape and its
  timestamp are not.
- The HTTP layer (`app/main.py`) and the request-validation models (`app/schemas.py`) are not
  part of this model. Their field bounds appear as preconditions: uncertainty in [0, 1] and
  vote score in [0, 1].
- Text.Lower: only ASCII letters are lower-cased. Python's full Unicode case mapping is not
  modelled.
- Rounding.Round: works on exact reals with ties to even. CPython rounds the binary double,
  which can differ at decimal ties that are not exactly representable.
- Timestamps: each operation takes one clock reading `now`. Python calls `utcnow()` separately
  for `created_at` and `updated_at`, and those calls can differ by microseconds.
- Ids: `uuid4()` is a parameter. `Services.CreateTask` requires the id to be new, which a
  random uuid is in practice; the other operations accept any id, as the code does.
- Concurrency and locking around the assignment scan are not modelled: every operation runs
  atomically.
- Services.RequestAssignment: it computes the listing before the metrics read. The two
  commute, because the read only touches `annotator_metrics`.
- Services.UpdateMetricsOnCompletion: it reads the entry without first storing the default.
  The final write to the same key overwrites that default, so the resulting state is the same.
- Services.DashboardSnapshot: it returns a map, so the order in which Python's dict lists the
  annotators (the order they were first looked up) is not modelled.
- TaskOrdering.SortTasks: it is proved sorted and a permutation. Stability (tasks with equal
  keys keep their insertion order) is built into the insertion but not stated as a lemma.
