/** The retained-job table and the refresh loop in the form the bridge runs them. */
module JobWatch {
  import opened Prelude
  import opened JobRetention

  class RetainedJobs {
    var inner: map<JobId, RetainedJob>
    var invalidatedParents: set<Hash>
    var currentCleanGeneration: nat

    ghost function View(): Store
      reads this
    {
      Store(inner, invalidatedParents, currentCleanGeneration)
    }

    constructor WithInitial(job: Job, now: Instant)
      ensures View() == JobRetention.WithInitial(job, now)
    {
      inner := map[job.id := RetainedJob(job, now, 1)];
      invalidatedParents := {};
      currentCleanGeneration := 1;
    }

    method Get(id: JobId) returns (job: Option<Job>)
      ensures job == if id in inner then Some(inner[id].job) else None
    {
      job := if id in inner then Some(inner[id].job) else None;
    }

    method ParentIsInvalidated(parent: Hash) returns (invalidated: bool)
      ensures invalidated <==> Invalidated(View(), parent)
    {
      invalidated := parent in invalidatedParents;
    }

    /** What the refresh loop made of the table while somebody else was between two reads. */
    method Become(s: Store)
      modifies this
      ensures View() == s
    {
      inner, invalidatedParents, currentCleanGeneration := s.jobs, s.invalidated, s.generation;
    }

    /** Fetching and testing take two locks; `tested` is what the table has become when the fence is tested. */
    method GetForSubmit(id: JobId, tested: Store) returns (job: Option<Job>)
      modifies this
      ensures View() == tested
      ensures job.Some? <==> FoundForSubmit(old(View()), tested, id)
      ensures job.Some? ==> job.value == old(inner)[id].job
    {
      job := Get(id);
      Become(tested);
      if job.Some? {
        var invalidated := ParentIsInvalidated(job.value.prev);
        if invalidated {
          job := None;
        }
      }
    }

    method JobParentIsInvalidated(id: JobId, tested: Store) returns (invalidated: bool)
      modifies this
      ensures View() == tested
      ensures invalidated <==> FoundInvalidated(old(View()), tested, id)
    {
      var job := Get(id);
      Become(tested);
      invalidated := false;
      if job.Some? {
        invalidated := ParentIsInvalidated(job.value.prev);
      }
    }

    /** Fetch, fence test, and both once more, as the submit path does: whether the submit goes on, or is invalidated. */
    method LookUp(id: JobId, d: Lookup) returns (passes: bool, invalidated: bool)
      requires View() == d.fetched
      modifies this
      ensures View() == d.retested
      ensures passes <==> PassesLookup(d, id)
      ensures invalidated <==> FoundInvalidated(d.refetched, d.retested, id)
    {
      var job := GetForSubmit(id, d.tested);
      Become(d.refetched);
      invalidated := JobParentIsInvalidated(id, d.retested);
      passes := job.Some? && !invalidated;
    }

    /** The generation is an atomic read before the table is locked; `looked` is the table by then. */
    method StaleGenerationClass(id: JobId, lastDelivered: nat, looked: Store) returns (class_: StaleClass)
      modifies this
      ensures class_ == StaleClassOf(old(currentCleanGeneration), looked, id, lastDelivered)
    {
      var current := currentCleanGeneration;
      if lastDelivered < current {
        return NotifyDeliveryLag;
      }
      Become(looked);
      if id in inner && inner[id].generation < current {
        return MinerSwitchLag;
      }
      return Unclassified;
    }

    method ParentIsRetained(parent: Hash) returns (retained: bool)
      ensures retained <==> ParentRetained(View(), parent)
    {
      retained := false;
      if parent in invalidatedParents {
        return;
      }
      var todo := inner.Keys;
      while todo != {}
        invariant todo <= inner.Keys
        invariant forall id :: id in inner && id !in todo ==> inner[id].job.prev != parent
        decreases |todo|
      {
        var id :| id in todo;
        if inner[id].job.prev == parent {
          return true;
        }
        todo := todo - {id};
      }
    }

    method Publish(job: Job, reason: JobReason, retention: nat, now: Instant)
      modifies this
      ensures View() == JobRetention.Publish(old(View()), job, reason, retention, now)
    {
      if reason.TipChange? {
        currentCleanGeneration := currentCleanGeneration + 1;
      }
      var generation := currentCleanGeneration;
      inner := map id | id in inner && Monus(now, inner[id].publishedAt) <= retention :: inner[id];
      var retainedParents := set id | id in inner :: inner[id].job.prev;
      if reason.TipChange? {
        invalidatedParents := invalidatedParents + (retainedParents - {job.prev});
      }
      invalidatedParents := invalidatedParents * retainedParents;
      invalidatedParents := invalidatedParents - {job.prev};
      inner := inner[job.id := RetainedJob(job, now, generation)];
    }

    /** Fences a parent and counts the retained jobs that fall with it. */
    method InvalidateParent(parent: Hash) returns (count: nat)
      modifies this
      ensures View() == JobRetention.InvalidateParent(old(View()), parent)
      ensures count == |set id | id in inner && inner[id].job.prev == parent|
    {
      count := |set id | id in inner && inner[id].job.prev == parent|;
      invalidatedParents := invalidatedParents + {parent};
    }
  }

  class SharedJobWatch {
    const retainedJobs: RetainedJobs
    var current: Job

    constructor (job: Job, now: Instant)
      ensures fresh(retainedJobs) && current == job
      ensures retainedJobs.View() == JobRetention.WithInitial(job, now)
    {
      current := job;
      retainedJobs := new RetainedJobs.WithInitial(job, now);
    }

    /** One round of the loop: an optional sentinel observation, then a refresh that any check may call off. */
    method Refresh(observation: Option<TipSentinel.Observation>, answers: Answers, retention: nat, now: Instant)
      modifies this, retainedJobs
      ensures (retainedJobs.View(), current)
                == Round(old(retainedJobs.View()), old(current), observation, answers, retention, now)
    {
      var forced := observation.Some? && TipSentinel.InvalidatesParent(current.prev, observation.value);
      if forced {
        var fenced := retainedJobs.InvalidateParent(current.prev);
      }
      if answers.firstTip.Failed? {
        return;
      }
      var observedTip := answers.firstTip.value;
      if observedTip == Some(current.prev) && !answers.heartbeatDue && !forced {
        return;
      }
      if answers.template.Failed? {
        return;
      }
      var next := answers.template.value;
      if answers.secondTip.Failed? {
        return;
      }
      var latestTip := if answers.secondTip.value.Some? then answers.secondTip.value else observedTip;
      if latestTip.Some? && next.prev != latestTip.value {
        return;
      }
      var retained := retainedJobs.ParentIsRetained(next.prev);
      if !retained && next.prev == current.prev {
        return;
      }
      var reason := if next.prev != current.prev then TipChange else Heartbeat;
      if next.id == current.id || !answers.persisted {
        return;
      }
      retainedJobs.Publish(next, reason, retention, now);
      current := next;
    }
  }
}
