/**
 * The records the labeling service stores and returns: tasks, annotations,
 * votes, consensus results, predictions and the per-annotator report, plus the
 * Option/Result wrappers the operations use in place of Python's None and
 * exceptions. Timestamps are abstract clock readings (ints) supplied by the
 * caller; identifiers are strings.
 */
module Schemas {

  datatype Option<T> = None | Some(value: T)

  /** The two exceptions the engine raises, with the messages it raises them with. */
  datatype Error = KeyError(message: string) | ValueError(message: string)

  datatype Result<T> = Ok(value: T) | Err(error: Error)

  /** Priority tiers; the weight is the enum's integer value. */
  datatype Priority = Low | Medium | High {
    function Weight(): (w: int)
      ensures w in {1, 5, 10}
    {
      match this
      case Low => 1
      case Medium => 5
      case High => 10
    }
  }

  /** The four status strings the engine ever writes. */
  datatype Status = Pending | Assigned | AwaitingReview | Finalized

  datatype Task = Task(
    id: string,
    videoId: string,
    priority: Priority,
    assignedTo: Option<string>,
    status: Status,
    createdAt: int,
    updatedAt: int,
    uncertainty: real)

  datatype Prediction = Prediction(
    videoId: string,
    caption: string,
    uncertainty: real,
    modelVersion: string)

  datatype Annotation = Annotation(
    id: string,
    taskId: string,
    annotatorId: string,
    caption: string,
    createdAt: int)

  datatype Vote = Vote(
    id: string,
    taskId: string,
    annotatorId: string,
    score: real,
    rationale: Option<string>,
    createdAt: int)

  datatype ConsensusResult = ConsensusResult(
    taskId: string,
    consensusCaption: string,
    semanticAgreement: real,
    llmConfidence: real,
    finalizedAt: int)

  /** The report returned for one annotator. */
  datatype ReliabilityMetrics = ReliabilityMetrics(
    annotatorId: string,
    reliability: real,
    throughput: int,
    averageTaskSeconds: real,
    disagreementRate: real)
}
