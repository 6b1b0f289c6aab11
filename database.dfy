/**
 * The in-memory store every service operation mutates. Each Python dict is a
 * map field; taskOrder records the iteration order of the tasks dict (its
 * insertion order), which decides the order of tasks with equal sort keys.
 * task_annotations, task_votes and annotator_metrics are defaultdicts: reading
 * a missing key inserts the default, which the Read* methods model.
 */
module Database {
  import opened Schemas
  import opened Reliability

  class MemoryDatabase {
    var tasks: map<string, Task>
    var taskOrder: seq<string>
    var predictions: map<string, Prediction>
    var annotations: map<string, Annotation>
    var taskAnnotations: map<string, seq<string>>
    var votes: map<string, Vote>
    var taskVotes: map<string, seq<string>>
    var consensus: map<string, ConsensusResult>
    var annotatorMetrics: map<string, Metrics>

    /** Tasks are stored under their own id, and taskOrder lists each key once. */
    ghost predicate TasksIndexed()
      reads this`tasks, this`taskOrder
    {
      && (forall id :: id in tasks ==> tasks[id].id == id)
      && (forall id :: id in tasks <==> id in taskOrder)
      && (forall i :: 0 <= i < |taskOrder| ==> taskOrder[i] in tasks)
      && (forall i, j :: 0 <= i < j < |taskOrder| ==> taskOrder[i] != taskOrder[j])
      && |taskOrder| == |tasks|
    }

    /** Per-task annotation lists only name stored annotations. */
    ghost predicate AnnotationListsStored()
      reads this`taskAnnotations, this`annotations
    {
      forall t, i :: t in taskAnnotations && 0 <= i < |taskAnnotations[t]| ==> taskAnnotations[t][i] in annotations
    }

    /** Per-task vote lists only name stored votes. */
    ghost predicate VoteListsStored()
      reads this`taskVotes, this`votes
    {
      forall t, i :: t in taskVotes && 0 <= i < |taskVotes[t]| ==> taskVotes[t][i] in votes
    }

    /** Every metrics entry is well formed. */
    ghost predicate MetricsWellFormed()
      reads this`annotatorMetrics
    {
      forall a :: a in annotatorMetrics ==> WellFormed(annotatorMetrics[a])
    }

    ghost predicate Valid()
      reads this
    {
      TasksIndexed() && AnnotationListsStored() && VoteListsStored() && MetricsWellFormed()
    }

    /** The state of a freshly constructed store. */
    predicate Empty()
      reads this
    {
      && tasks == map[] && taskOrder == [] && predictions == map[]
      && annotations == map[] && taskAnnotations == map[]
      && votes == map[] && taskVotes == map[]
      && consensus == map[] && annotatorMetrics == map[]
    }

    constructor ()
      ensures Empty() && Valid()
    {
      tasks, taskOrder, predictions := map[], [], map[];
      annotations, taskAnnotations := map[], map[];
      votes, taskVotes := map[], map[];
      consensus, annotatorMetrics := map[], map[];
    }

    /** reset: re-runs the initialiser on the same object. */
    method Reset()
      modifies this
      ensures Empty() && Valid()
    {
      tasks, taskOrder, predictions := map[], [], map[];
      annotations, taskAnnotations := map[], map[];
      votes, taskVotes := map[], map[];
      consensus, annotatorMetrics := map[], map[];
    }

    /** What task_annotations[taskId] holds, without the inserting read. */
    function TaskAnnotationIds(taskId: string): seq<string>
      reads this`taskAnnotations
    {
      if taskId in taskAnnotations then taskAnnotations[taskId] else []
    }

    function TaskVoteIds(taskId: string): seq<string>
      reads this`taskVotes
    {
      if taskId in taskVotes then taskVotes[taskId] else []
    }

    /** What annotator_metrics[annotatorId] holds, without the inserting read. */
    function MetricsOf(annotatorId: string): Metrics
      reads this`annotatorMetrics
    {
      if annotatorId in annotatorMetrics then annotatorMetrics[annotatorId] else DefaultMetrics
    }

    /** [annotations[id].caption for id in ids] */
    function CaptionsOf(ids: seq<string>): (captions: seq<string>)
      reads this`annotations
      requires forall i :: 0 <= i < |ids| ==> ids[i] in annotations
      ensures |captions| == |ids|
      ensures forall i :: 0 <= i < |ids| ==> captions[i] == annotations[ids[i]].caption
    {
      var stored := annotations;
      seq(|ids|, i requires 0 <= i < |ids| && ids[i] in stored => stored[ids[i]].caption)
    }

    /** task_annotations[taskId]: an unseen task gets an empty list stored. */
    method ReadTaskAnnotations(taskId: string) returns (ids: seq<string>)
      requires Valid()
      modifies this`taskAnnotations
      ensures Valid()
      ensures ids == old(TaskAnnotationIds(taskId))
      ensures taskAnnotations == old(taskAnnotations)[taskId := ids]
      ensures taskId in old(taskAnnotations) ==> taskAnnotations == old(taskAnnotations)
    {
      if taskId !in taskAnnotations {
        taskAnnotations := taskAnnotations[taskId := []];
      }
      ids := taskAnnotations[taskId];
    }

    /** task_votes[taskId]: an unseen task gets an empty list stored. */
    method ReadTaskVotes(taskId: string) returns (ids: seq<string>)
      requires Valid()
      modifies this`taskVotes
      ensures Valid()
      ensures ids == old(TaskVoteIds(taskId))
      ensures taskVotes == old(taskVotes)[taskId := ids]
      ensures taskId in old(taskVotes) ==> taskVotes == old(taskVotes)
    {
      if taskId !in taskVotes {
        taskVotes := taskVotes[taskId := []];
      }
      ids := taskVotes[taskId];
    }

    /**
     * annotator_metrics[annotatorId]: an unseen annotator gets completed 0,
     * total_seconds 0.0, disagreements 0 and reliability 0.5, stored.
     */
    method ReadMetrics(annotatorId: string) returns (m: Metrics)
      requires Valid()
      modifies this`annotatorMetrics
      ensures Valid()
      ensures m == old(MetricsOf(annotatorId))
      ensures annotatorId !in old(annotatorMetrics) ==> m == Metrics(0, 0.0, 0, 0.5)
      ensures annotatorMetrics == old(annotatorMetrics)[annotatorId := m]
      ensures annotatorId in old(annotatorMetrics) ==> annotatorMetrics == old(annotatorMetrics)
    {
      if annotatorId !in annotatorMetrics {
        annotatorMetrics := annotatorMetrics[annotatorId := DefaultMetrics];
      }
      m := annotatorMetrics[annotatorId];
    }

    /** DB.tasks[task.id] = task, with the id not yet stored: a new task, last in iteration order. */
    method AddTask(task: Task)
      requires Valid() && task.id !in tasks
      modifies this`tasks, this`taskOrder
      ensures Valid()
      ensures tasks == old(tasks)[task.id := task]
      ensures taskOrder == old(taskOrder) + [task.id]
    {
      tasks := tasks[task.id := task];
      taskOrder := taskOrder + [task.id];
    }

    /** DB.tasks[task.id] = task, for a stored id: the iteration order is kept. */
    method UpdateTask(task: Task)
      requires Valid() && task.id in tasks
      modifies this`tasks
      ensures Valid()
      ensures tasks == old(tasks)[task.id := task]
    {
      tasks := tasks[task.id := task];
    }

    /** DB.annotations[annotation.id] = annotation */
    method PutAnnotation(annotation: Annotation)
      requires Valid()
      modifies this`annotations
      ensures Valid()
      ensures annotations == old(annotations)[annotation.id := annotation]
    {
      annotations := annotations[annotation.id := annotation];
    }

    /** DB.task_annotations[taskId].append(annotationId) */
    method AppendTaskAnnotation(taskId: string, annotationId: string)
      requires Valid() && annotationId in annotations
      modifies this`taskAnnotations
      ensures Valid()
      ensures taskAnnotations == old(taskAnnotations)[taskId := old(TaskAnnotationIds(taskId)) + [annotationId]]
    {
      var ids := ReadTaskAnnotations(taskId);
      taskAnnotations := taskAnnotations[taskId := ids + [annotationId]];
    }

    /** DB.votes[vote.id] = vote */
    method PutVote(vote: Vote)
      requires Valid()
      modifies this`votes
      ensures Valid()
      ensures votes == old(votes)[vote.id := vote]
    {
      votes := votes[vote.id := vote];
    }

    /** DB.task_votes[taskId].append(voteId) */
    method AppendTaskVote(taskId: string, voteId: string)
      requires Valid() && voteId in votes
      modifies this`taskVotes
      ensures Valid()
      ensures taskVotes == old(taskVotes)[taskId := old(TaskVoteIds(taskId)) + [voteId]]
    {
      var ids := ReadTaskVotes(taskId);
      taskVotes := taskVotes[taskId := ids + [voteId]];
    }

    /** DB.consensus[taskId] = result */
    method PutConsensus(taskId: string, result: ConsensusResult)
      requires Valid()
      modifies this`consensus
      ensures Valid()
      ensures consensus == old(consensus)[taskId := result]
    {
      consensus := consensus[taskId := result];
    }

    /** DB.annotator_metrics[annotatorId] = metrics, for a well-formed entry. */
    method PutMetrics(annotatorId: string, metrics: Metrics)
      requires Valid() && WellFormed(metrics)
      modifies this`annotatorMetrics
      ensures Valid()
      ensures annotatorMetrics == old(annotatorMetrics)[annotatorId := metrics]
    {
      annotatorMetrics := annotatorMetrics[annotatorId := metrics];
    }
  }
}
