/**
 * The two pieces of the retraining hooks that carry logic: which of the
 * requested task ids are forwarded (the known ones, in request order), and the
 * deterministic caption mutation that stands in for a retrained model.
 */
module Retraining {
  import opened Schemas
  import opened Text

  /** The ids of the request that name a stored task, in request order. */
  function KnownTaskIds(ids: seq<string>, tasks: map<string, Task>): (known: seq<string>)
    ensures |known| <= |ids|
    ensures forall i :: 0 <= i < |known| ==> known[i] in tasks && known[i] in ids
    ensures forall id :: id in ids && id in tasks ==> id in known
  {
    if ids == [] then []
    else (if ids[0] in tasks then [ids[0]] else []) + KnownTaskIds(ids[1..], tasks)
  }

  /** Appending an id appends it to the result exactly when it is known: the order is the request's. */
  lemma {:induction false} KnownTaskIdsAppend(ids: seq<string>, id: string, tasks: map<string, Task>)
    ensures KnownTaskIds(ids + [id], tasks)
         == KnownTaskIds(ids, tasks) + (if id in tasks then [id] else [])
  {
    if ids == [] {
      assert [] + [id] == [id];
    } else {
      assert (ids + [id])[1..] == ids[1..] + [id];
      KnownTaskIdsAppend(ids[1..], id, tasks);
    }
  }

  /** [DB.tasks[id] for id in labeled_task_ids if id in DB.tasks] */
  function LabeledTasks(ids: seq<string>, tasks: map<string, Task>): (labeled: seq<Task>)
    ensures |labeled| == |KnownTaskIds(ids, tasks)| <= |ids|
    ensures forall i :: 0 <= i < |labeled| ==> labeled[i] == tasks[KnownTaskIds(ids, tasks)[i]]
    ensures forall i :: 0 <= i < |labeled| ==> labeled[i] in tasks.Values
  {
    var known := KnownTaskIds(ids, tasks);
    seq(|known|, i requires 0 <= i < |known| => tasks[known[i]])
  }

  /** _mutate_caption */
  function MutateCaption(caption: string): (r: string)
    ensures Split(caption) == [] ==> r == caption
  {
    var words := Split(caption);
    if words == [] then caption
    else if |words| > 5 then Join(["Updated"] + words)
    else Join(words + ["refined"])
  }

  /**
   * A caption with words gains exactly one: "Updated" in front when it has
   * more than five, "refined" at the end otherwise.
   */
  lemma MutateCaptionAddsOneWord(caption: string)
    ensures var words := Split(caption);
            && (0 < |words| <= 5 ==> Split(MutateCaption(caption)) == words + ["refined"])
            && (|words| > 5 ==> Split(MutateCaption(caption)) == ["Updated"] + words)
  {
    var words := Split(caption);
    if 0 < |words| <= 5 {
      SplitJoinExtended(words, "refined", false);
    } else if |words| > 5 {
      SplitJoinExtended(words, "Updated", true);
    }
  }

  lemma SplitJoinExtended(words: seq<string>, extra: string, inFront: bool)
    requires forall i :: 0 <= i < |words| ==> IsWord(words[i])
    requires extra == "refined" || extra == "Updated"
    ensures var extended := if inFront then [extra] + words else words + [extra];
            Split(Join(extended)) == extended
  {
    assert IsWord(extra);
    var extended := if inFront then [extra] + words else words + [extra];
    assert forall i :: 0 <= i < |extended| ==> IsWord(extended[i]) by {
      forall i | 0 <= i < |extended| ensures IsWord(extended[i]) {
        if inFront && i > 0 {
          assert extended[i] == words[i - 1];
        } else if !inFront && i < |words| {
          assert extended[i] == words[i];
        }
      }
    }
    SplitJoin(extended);
  }
}
