/**
 * The service operations, each mutating the store passed to it. Fresh ids
 * (uuid4), clock readings (utcnow) and the simulated elapsed time
 * (random.uniform(45, 120)) are parameters supplied by the caller.
 */
module Services {
  import opened Schemas
  import opened TaskOrdering
  import opened Consensus
  import opened Reliability
  import opened Database

  /** DB.tasks.values(), in the dict's iteration order. */
  function TaskValues(tasks: map<string, Task>, order: seq<string>): (values: seq<Task>)
    requires forall i :: 0 <= i < |order| ==> order[i] in tasks
    ensures |values| == |order|
    ensures forall i :: 0 <= i < |order| ==> values[i] == tasks[order[i]]
  {
    seq(|order|, i requires 0 <= i < |order| && order[i] in tasks => tasks[order[i]])
  }

  /** list_tasks */
  function ListTasks(tasks: map<string, Task>, order: seq<string>): (listed: seq<Task>)
    requires forall i :: 0 <= i < |order| ==> order[i] in tasks
    ensures Sorted(listed)
    ensures multiset(listed) == multiset(TaskValues(tasks, order))
  {
    SortTasks(TaskValues(tasks, order))
  }

  /** The listing holds exactly the stored tasks, each once. */
  lemma ListTasksIsPermutationOfStore(db: MemoryDatabase)
    requires db.Valid()
    ensures var listed := ListTasks(db.tasks, db.taskOrder);
            && |listed| == |db.tasks|
            && (forall t :: t in listed <==> t in db.tasks.Values)
            && (forall t :: t in listed ==> t.id in db.tasks && db.tasks[t.id] == t)
  {
    var values := TaskValues(db.tasks, db.taskOrder);
    var listed := ListTasks(db.tasks, db.taskOrder);
    assert |listed| == |multiset(listed)| == |multiset(values)| == |values|;
    forall t ensures t in listed <==> t in db.tasks.Values {
      calc {
        t in listed;
        t in multiset(listed);
        t in multiset(values);
        t in values;
      }
      if t in db.tasks.Values {
        var id :| id in db.tasks && db.tasks[id] == t;
        var i :| 0 <= i < |db.taskOrder| && db.taskOrder[i] == id;
        assert values[i] == t;
      }
    }
  }

  /** create_task */
  method CreateTask(db: MemoryDatabase, videoId: string, uncertainty: real, difficulty: Priority,
                    taskId: string, now: int) returns (task: Task)
    requires db.Valid()
    requires 0.0 <= uncertainty <= 1.0
    requires taskId !in db.tasks
    modifies db`tasks, db`taskOrder
    ensures db.Valid()
    ensures task == Task(taskId, videoId, CalculatePriority(uncertainty, difficulty), None, Pending, now, now, uncertainty)
    ensures db.tasks == old(db.tasks)[taskId := task]
    ensures db.taskOrder == old(db.taskOrder) + [taskId]
  {
    var priority := CalculatePriority(uncertainty, difficulty);
    task := Task(taskId, videoId, priority, None, Pending, now, now, uncertainty);
    db.AddTask(task);
  }

  /** The stored copy request_assignment writes for a claimed task. */
  function Claim(task: Task, annotatorId: string, now: int): (claimed: Task)
    ensures claimed.id == task.id && claimed.priority == task.priority
    ensures claimed.status == Assigned && claimed.assignedTo == Some(annotatorId)
  {
    task.(assignedTo := Some(annotatorId), status := Assigned, updatedAt := now)
  }

  /**
   * request_assignment: the first task in listing order that is pending and,
   * for an annotator below 0.6 reliability, not high priority, is claimed.
   * Reading the annotator's metrics stores the default entry for a newcomer.
   */
  method RequestAssignment(db: MemoryDatabase, annotatorId: string, now: int) returns (claimed: Option<Task>)
    requires db.Valid()
    modifies db`tasks, db`annotatorMetrics
    ensures db.Valid()
    ensures db.annotatorMetrics == old(db.annotatorMetrics)[annotatorId := old(db.MetricsOf(annotatorId))]
    ensures var listed := old(ListTasks(db.tasks, db.taskOrder));
            var k := FirstEligible(listed, old(db.MetricsOf(annotatorId)).reliability);
            && (k == |listed| ==> claimed == None && db.tasks == old(db.tasks))
            && (k < |listed| ==>
                  && listed[k].id in old(db.tasks)
                  && claimed == Some(Claim(listed[k], annotatorId, now))
                  && db.tasks == old(db.tasks)[listed[k].id := claimed.value])
  {
    var sortedTasks := ListTasks(db.tasks, db.taskOrder);
    var metrics := db.ReadMetrics(annotatorId);
    var k := ScanForEligible(sortedTasks, metrics.reliability);
    if k == |sortedTasks| {
      return None;
    }
    var updated := ClaimListed(db, sortedTasks[k], annotatorId, now);
    return Some(updated);
  }

  /** DB.tasks[task.id] = the claimed copy of a listed task. */
  method ClaimListed(db: MemoryDatabase, task: Task, annotatorId: string, now: int) returns (updated: Task)
    requires db.Valid()
    requires task in ListTasks(db.tasks, db.taskOrder)
    modifies db`tasks
    ensures db.Valid()
    ensures task.id in old(db.tasks)
    ensures updated == Claim(task, annotatorId, now)
    ensures db.tasks == old(db.tasks)[task.id := updated]
  {
    ListTasksIsPermutationOfStore(db);
    updated := Claim(task, annotatorId, now);
    db.UpdateTask(updated);
  }

  /**
   * The loop of request_assignment: skip tasks that are not pending, and
   * high-priority ones when reliability is below 0.6; stop at the first other.
   */
  method ScanForEligible(sortedTasks: seq<Task>, reliability: real) returns (k: nat)
    ensures k == FirstEligible(sortedTasks, reliability)
  {
    for i := 0 to |sortedTasks|
      invariant forall j :: 0 <= j < i ==> !Eligible(sortedTasks[j], reliability)
    {
      var task := sortedTasks[i];
      if task.status != Pending {
        continue;
      }
      if task.priority == High && reliability < 0.6 {
        continue;
      }
      return i;
    }
    return |sortedTasks|;
  }

  /**
   * submit_annotation: KeyError for an unknown task, with nothing changed.
   * Otherwise the annotation is stored and appended to the task's list, the
   * annotator's counters are updated and the task may move to
   * awaiting_review.
   */
  method SubmitAnnotation(db: MemoryDatabase, taskId: string, annotatorId: string, caption: string,
                          annotationId: string, now: int, sample: real) returns (r: Result<Annotation>)
    requires db.Valid()
    requires 45.0 <= sample <= 120.0
    modifies db`annotations, db`taskAnnotations, db`annotatorMetrics, db`tasks
    ensures db.Valid()
    ensures taskId !in old(db.tasks) ==>
      && r == Err(KeyError("Task not found"))
      && db.annotations == old(db.annotations) && db.taskAnnotations == old(db.taskAnnotations)
      && db.annotatorMetrics == old(db.annotatorMetrics) && db.tasks == old(db.tasks)
    ensures taskId in old(db.tasks) ==>
      var ids := old(db.TaskAnnotationIds(taskId)) + [annotationId];
      var task := old(db.tasks[taskId]);
      && r == Ok(Annotation(annotationId, taskId, annotatorId, caption, now))
      && db.annotations == old(db.annotations)[annotationId := r.value]
      && db.taskAnnotations == old(db.taskAnnotations)[taskId := ids]
      && db.annotatorMetrics == old(db.annotatorMetrics)[annotatorId :=
           CompleteTask(old(db.MetricsOf(annotatorId)), sample,
                        if taskId in old(db.consensus) then |ids| else 0)]
      && db.tasks == old(db.tasks)[taskId :=
           if |ids| >= 3 then task.(status := AwaitingReview, updatedAt := now) else task]
  {
    if taskId !in db.tasks {
      return Err(KeyError("Task not found"));
    }
    var annotation := RecordAnnotation(db, taskId, annotatorId, caption, annotationId, now, sample);
    MaybeUpdateTaskStatus(db, taskId, now);
    return Ok(annotation);
  }

  /**
   * The part of submit_annotation before the status check: the annotation is
   * stored and listed under its task, and the annotator's metrics updated.
   */
  method RecordAnnotation(db: MemoryDatabase, taskId: string, annotatorId: string, caption: string,
                          annotationId: string, now: int, sample: real) returns (annotation: Annotation)
    requires db.Valid()
    requires 45.0 <= sample <= 120.0
    modifies db`annotations, db`taskAnnotations, db`annotatorMetrics
    ensures db.Valid()
    ensures var ids := old(db.TaskAnnotationIds(taskId)) + [annotationId];
      && annotation == Annotation(annotationId, taskId, annotatorId, caption, now)
      && db.annotations == old(db.annotations)[annotationId := annotation]
      && db.taskAnnotations == old(db.taskAnnotations)[taskId := ids]
      && db.annotatorMetrics == old(db.annotatorMetrics)[annotatorId :=
           CompleteTask(old(db.MetricsOf(annotatorId)), sample,
                        if taskId in old(db.consensus) then |ids| else 0)]
  {
    annotation := Annotation(annotationId, taskId, annotatorId, caption, now);
    StoreAnnotation(db, annotation);
    UpdateMetricsOnCompletion(db, taskId, annotatorId, sample);
  }

  /** DB.annotations[id] = annotation; DB.task_annotations[task_id].append(id) */
  method StoreAnnotation(db: MemoryDatabase, annotation: Annotation)
    requires db.Valid()
    modifies db`annotations, db`taskAnnotations
    ensures db.Valid()
    ensures db.annotations == old(db.annotations)[annotation.id := annotation]
    ensures db.taskAnnotations == old(db.taskAnnotations)[annotation.taskId :=
      old(db.TaskAnnotationIds(annotation.taskId)) + [annotation.id]]
    ensures annotation.taskId in db.taskAnnotations
  {
    db.PutAnnotation(annotation);
    db.AppendTaskAnnotation(annotation.taskId, annotation.id);
  }

  /**
   * _update_metrics_on_completion: one more completed task and the elapsed
   * sample; once the task has a consensus, every annotation on it (not only
   * the new one) is counted as a disagreement, since no similarity reaches
   * 0.7; then reliability is recomputed.
   */
  method UpdateMetricsOnCompletion(db: MemoryDatabase, taskId: string, annotatorId: string, sample: real)
    requires db.Valid()
    requires taskId in db.taskAnnotations
    requires 45.0 <= sample <= 120.0
    modifies db`annotatorMetrics
    ensures db.Valid()
    ensures db.annotatorMetrics == old(db.annotatorMetrics)[annotatorId :=
      CompleteTask(old(db.MetricsOf(annotatorId)), sample,
                   if taskId in old(db.consensus) then |old(db.taskAnnotations[taskId])| else 0)]
  {
    // The defaultdict read inserts the default entry, which the write below
    // overwrites anyway, so the value is taken without it.
    var metrics := db.MetricsOf(annotatorId);
    var newDisagreements := 0;
    if taskId in db.consensus {
      var consensus := db.consensus[taskId];
      var captions := db.CaptionsOf(db.taskAnnotations[taskId]);
      newDisagreements := CountDisagreements(captions, consensus.consensusCaption);
    }
    var updated := CompleteTask(metrics, sample, newDisagreements);
    db.PutMetrics(annotatorId, updated);
  }

  /**
   * _maybe_update_task_status: three or more annotations put the task in
   * awaiting_review whatever its status was, finalized included.
   */
  method MaybeUpdateTaskStatus(db: MemoryDatabase, taskId: string, now: int)
    requires db.Valid()
    requires taskId in db.tasks
    modifies db`tasks, db`taskAnnotations
    ensures db.Valid()
    ensures db.taskAnnotations == old(db.taskAnnotations)[taskId := old(db.TaskAnnotationIds(taskId))]
    ensures taskId in old(db.taskAnnotations) ==> db.taskAnnotations == old(db.taskAnnotations)
    ensures db.tasks == old(db.tasks)[taskId :=
      if |old(db.TaskAnnotationIds(taskId))| >= 3
      then old(db.tasks[taskId]).(status := AwaitingReview, updatedAt := now)
      else old(db.tasks[taskId])]
  {
    var task := db.tasks[taskId];
    var ids := db.ReadTaskAnnotations(taskId);
    if |ids| >= 3 {
      db.UpdateTask(task.(status := AwaitingReview, updatedAt := now));
    }
  }

  /** submit_vote: KeyError for an unknown task; otherwise stored and appended. */
  method SubmitVote(db: MemoryDatabase, taskId: string, annotatorId: string, score: real,
                    rationale: Option<string>, voteId: string, now: int) returns (r: Result<Vote>)
    requires db.Valid()
    requires 0.0 <= score <= 1.0
    modifies db`votes, db`taskVotes
    ensures db.Valid()
    ensures taskId !in old(db.tasks) ==>
      r == Err(KeyError("Task not found")) && db.votes == old(db.votes) && db.taskVotes == old(db.taskVotes)
    ensures taskId in old(db.tasks) ==>
      && r == Ok(Vote(voteId, taskId, annotatorId, score, rationale, now))
      && db.votes == old(db.votes)[voteId := r.value]
      && db.taskVotes == old(db.taskVotes)[taskId := old(db.TaskVoteIds(taskId)) + [voteId]]
  {
    if taskId !in db.tasks {
      return Err(KeyError("Task not found"));
    }
    var vote := Vote(voteId, taskId, annotatorId, score, rationale, now);
    db.PutVote(vote);
    db.AppendTaskVote(taskId, voteId);
    return Ok(vote);
  }

  /**
   * finalize_consensus: KeyError for an unknown task; ValueError when it has
   * no annotations (the inserting read leaves an empty list stored for it);
   * otherwise the consensus is written and the task becomes finalized,
   * whatever its status was.
   */
  method FinalizeConsensus(db: MemoryDatabase, taskId: string, now: int) returns (r: Result<ConsensusResult>)
    requires db.Valid()
    modifies db`taskAnnotations, db`consensus, db`tasks
    ensures db.Valid()
    ensures taskId !in old(db.tasks) ==>
      && r == Err(KeyError("Task not found"))
      && db.taskAnnotations == old(db.taskAnnotations)
      && db.consensus == old(db.consensus) && db.tasks == old(db.tasks)
    ensures taskId in old(db.tasks) && old(db.TaskAnnotationIds(taskId)) == [] ==>
      && r == Err(ValueError("No annotations available for consensus"))
      && db.taskAnnotations == old(db.taskAnnotations)[taskId := []]
      && db.consensus == old(db.consensus) && db.tasks == old(db.tasks)
    ensures taskId in old(db.tasks) && old(db.TaskAnnotationIds(taskId)) != [] ==>
      var captions := old(db.CaptionsOf(db.TaskAnnotationIds(taskId)));
      && r == Ok(ConsensusResult(taskId, captions[0], Agreement(captions), MockLlmEvaluation(captions[0]), now))
      && db.taskAnnotations == old(db.taskAnnotations)
      && db.consensus == old(db.consensus)[taskId := r.value]
      && db.tasks == old(db.tasks)[taskId := old(db.tasks[taskId]).(status := Finalized, updatedAt := now)]
  {
    if taskId !in db.tasks {
      return Err(KeyError("Task not found"));
    }
    var ids := db.ReadTaskAnnotations(taskId);
    var captions := db.CaptionsOf(ids);
    if captions == [] {
      return Err(ValueError("No annotations available for consensus"));
    }
    assert taskId in old(db.taskAnnotations) && db.taskAnnotations == old(db.taskAnnotations);
    var result := EvaluateConsensus(taskId, captions, now);
    db.PutConsensus(taskId, result);
    db.UpdateTask(db.tasks[taskId].(status := Finalized, updatedAt := now));
    return Ok(result);
  }

  /**
   * The record finalize_consensus builds from a non-empty caption list: the
   * aggregated caption, which is always the first one, its agreement, and the
   * confidence of the mock evaluation.
   */
  method EvaluateConsensus(taskId: string, captions: seq<string>, now: int) returns (result: ConsensusResult)
    requires captions != []
    ensures result == ConsensusResult(taskId, captions[0], Agreement(captions), MockLlmEvaluation(captions[0]), now)
    ensures 0.0 <= result.semanticAgreement <= 0.5 && 0.6 <= result.llmConfidence <= 1.0
  {
    var aggregated := AggregateSemantic(captions).value;
    AggregateSemanticClosedForm(captions);
    var llmConfidence := MockLlmEvaluation(aggregated.caption);
    result := ConsensusResult(taskId, aggregated.caption, aggregated.agreement, llmConfidence, now);
  }

  /** Finalizing twice with nothing submitted in between gives the same answer. */
  method FinalizeConsensusTwice(db: MemoryDatabase, taskId: string, firstNow: int, secondNow: int)
    returns (first: Result<ConsensusResult>, second: Result<ConsensusResult>)
    requires db.Valid()
    modifies db`taskAnnotations, db`consensus, db`tasks
    ensures first.Err? ==> second == first
    ensures first.Ok? ==> (second.Ok?
      && second.value.consensusCaption == first.value.consensusCaption
      && second.value.semanticAgreement == first.value.semanticAgreement
      && second.value.llmConfidence == first.value.llmConfidence)
  {
    ghost var ids := db.TaskAnnotationIds(taskId);
    first := FinalizeConsensus(db, taskId, firstNow);
    assert first.Ok? ==> db.TaskAnnotationIds(taskId) == ids;
    second := FinalizeConsensus(db, taskId, secondNow);
  }

  /** A finalized task that receives another annotation is back in awaiting_review. */
  method ReannotateFinalized(db: MemoryDatabase, taskId: string, annotatorId: string, caption: string,
                             annotationId: string, now: int, sample: real) returns (r: Result<Annotation>)
    requires db.Valid()
    requires taskId in db.tasks && db.tasks[taskId].status == Finalized
    requires |db.TaskAnnotationIds(taskId)| >= 2
    requires 45.0 <= sample <= 120.0
    modifies db`annotations, db`taskAnnotations, db`annotatorMetrics, db`tasks
    ensures r.Ok?
    ensures taskId in db.tasks && db.tasks[taskId].status == AwaitingReview
  {
    r := SubmitAnnotation(db, taskId, annotatorId, caption, annotationId, now, sample);
  }

  /** get_reliability: reading stores the default entry for an unseen annotator. */
  method GetReliability(db: MemoryDatabase, annotatorId: string) returns (report: ReliabilityMetrics)
    requires db.Valid()
    modifies db`annotatorMetrics
    ensures db.Valid()
    ensures report == Report(annotatorId, old(db.MetricsOf(annotatorId)))
    ensures 0.1 <= report.reliability <= 0.99
    ensures db.annotatorMetrics == old(db.annotatorMetrics)[annotatorId := old(db.MetricsOf(annotatorId))]
    ensures annotatorId in DashboardSnapshot(db.annotatorMetrics)
  {
    var metrics := db.ReadMetrics(annotatorId);
    ReportBounds(annotatorId, metrics);
    report := Report(annotatorId, metrics);
  }

  /** dashboard_snapshot: one report per key of the metrics map, looked-up annotators included. */
  function DashboardSnapshot(metrics: map<string, Metrics>): (snapshot: map<string, ReliabilityMetrics>)
    ensures snapshot.Keys == metrics.Keys
    ensures forall a :: a in snapshot ==> snapshot[a].annotatorId == a && snapshot[a].throughput == metrics[a].completed
  {
    map a | a in metrics :: Report(a, metrics[a])
  }

  /** Every report on the dashboard of a valid store is within the reliability clamp. */
  lemma DashboardWithinClamp(db: MemoryDatabase)
    requires db.Valid()
    ensures forall a :: a in DashboardSnapshot(db.annotatorMetrics) ==>
      0.1 <= DashboardSnapshot(db.annotatorMetrics)[a].reliability <= 0.99
  {
    forall a | a in db.annotatorMetrics {
      ReportBounds(a, db.annotatorMetrics[a]);
    }
  }
}
