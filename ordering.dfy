/**
 * Task management logic of the service that is pure: the priority tier a new
 * task gets, the order in which tasks are listed (priority descending, then
 * creation time ascending, as Python's stable sorted() produces it) and which
 * task an annotator may claim.
 */
module TaskOrdering {
  import opened Schemas

  /** The scaled score: uncertainty times ten plus the difficulty weight. */
  function Score(uncertainty: real, difficulty: Priority): real
  {
    uncertainty * 10.0 + difficulty.Weight() as real
  }

  /** _calculate_priority */
  function CalculatePriority(uncertainty: real, difficulty: Priority): (p: Priority)
    ensures p == High <==> Score(uncertainty, difficulty) >= 12.0
    ensures p == Medium <==> 7.0 <= Score(uncertainty, difficulty) < 12.0
    ensures p == Low <==> Score(uncertainty, difficulty) < 7.0
  {
    var scaled := Score(uncertainty, difficulty);
    if scaled >= 12.0 then High
    else if scaled >= 7.0 then Medium
    else Low
  }

  /** For a fixed difficulty, more uncertainty never lowers the tier. */
  lemma PriorityMonotone(u1: real, u2: real, difficulty: Priority)
    requires u1 <= u2
    ensures CalculatePriority(u1, difficulty).Weight() <= CalculatePriority(u2, difficulty).Weight()
  {
  }

  /** A low-difficulty task with uncertainty at most 1 never reaches high. */
  lemma LowDifficultyNeverHigh(uncertainty: real)
    requires uncertainty <= 1.0
    ensures CalculatePriority(uncertainty, Low) != High
  {
  }

  /** A high-difficulty task is at least medium, and high from uncertainty 0.2 on. */
  lemma HighDifficultyTiers(uncertainty: real)
    requires 0.0 <= uncertainty
    ensures CalculatePriority(uncertainty, High) != Low
    ensures CalculatePriority(uncertainty, High) == High <==> uncertainty >= 0.2
  {
  }

  /** Sort key order: a comes no later than b under (-priority, created_at). */
  predicate Precedes(a: Task, b: Task)
  {
    || a.priority.Weight() > b.priority.Weight()
    || (a.priority.Weight() == b.priority.Weight() && a.createdAt <= b.createdAt)
  }

  predicate Sorted(ts: seq<Task>)
  {
    forall i, j :: 0 <= i < j < |ts| ==> Precedes(ts[i], ts[j])
  }

  /**
   * Inserts t before the first task it precedes; since t came earlier in the
   * input than everything in ts, equal keys keep their input order.
   */
  function InsertTask(t: Task, ts: seq<Task>): (r: seq<Task>)
    requires Sorted(ts)
    ensures Sorted(r)
    ensures multiset(r) == multiset(ts) + multiset{t}
  {
    if ts == [] || Precedes(t, ts[0]) then
      PrependSorted(t, ts);
      [t] + ts
    else
      var tail := InsertTask(t, ts[1..]);
      assert ts == [ts[0]] + ts[1..];
      KeepHeadSorted(ts, t, tail);
      [ts[0]] + tail
  }

  lemma PrependSorted(h: Task, ts: seq<Task>)
    requires Sorted(ts)
    requires ts == [] || Precedes(h, ts[0])
    ensures Sorted([h] + ts)
  {
    var r := [h] + ts;
    forall i, j | 0 <= i < j < |r| ensures Precedes(r[i], r[j]) {
      if i == 0 && j > 1 {
        assert Precedes(ts[0], ts[j - 1]);
      }
    }
  }

  lemma KeepHeadSorted(ts: seq<Task>, t: Task, tail: seq<Task>)
    requires Sorted(ts) && ts != [] && !Precedes(t, ts[0])
    requires Sorted(tail) && multiset(tail) == multiset(ts[1..]) + multiset{t}
    ensures Sorted([ts[0]] + tail)
  {
    var r := [ts[0]] + tail;
    forall i, j | 0 <= i < j < |r| ensures Precedes(r[i], r[j]) {
      if i == 0 {
        var x := tail[j - 1];
        assert x in multiset(tail);
        if x != t {
          assert x in multiset(ts[1..]);
          var k :| 0 <= k < |ts[1..]| && ts[1..][k] == x;
          assert ts[k + 1] == x;
        }
      }
    }
  }

  /** Python's stable sorted() by (-priority, created_at), as insertion sort. */
  function SortTasks(ts: seq<Task>): (r: seq<Task>)
    ensures Sorted(r)
    ensures multiset(r) == multiset(ts)
  {
    if ts == [] then []
    else
      assert ts == [ts[0]] + ts[1..];
      InsertTask(ts[0], SortTasks(ts[1..]))
  }

  /** A task an annotator of the given reliability may claim. */
  predicate Eligible(t: Task, reliability: real)
  {
    t.status == Pending && !(t.priority == High && reliability < 0.6)
  }

  /** Index of the first claimable task in listing order, |ts| when there is none. */
  function FirstEligible(ts: seq<Task>, reliability: real): (k: nat)
    ensures k <= |ts|
    ensures forall j :: 0 <= j < k ==> !Eligible(ts[j], reliability)
    ensures k < |ts| ==> Eligible(ts[k], reliability)
  {
    if ts == [] then 0
    else if Eligible(ts[0], reliability) then 0
    else 1 + FirstEligible(ts[1..], reliability)
  }

  /** An annotator below 0.6 reliability is never offered a high-priority task. */
  lemma {:induction false} NoHighTaskForUnreliable(ts: seq<Task>, reliability: real)
    requires reliability < 0.6
    ensures var k := FirstEligible(ts, reliability);
            k < |ts| ==> ts[k].priority != High && ts[k].status == Pending
  {
  }
}
