/** How many jobs one worker process has in flight: `poll` claims at most MaxConcurrent jobs and
    waits for all of them (scan/worker.go:163-185). */
module ScanBatches {
  import opened Receipts
  import opened ScanModel
  import opened ScanLifecycle

  ghost predicate BatchesBounded(s: State) {
    forall w :: |InFlight(s, w)| <= s.maxConcurrent
  }

  lemma BatchStep(s: State, step: Step)
    requires BatchesBounded(s)
    ensures BatchesBounded(Apply(s, step)) && Apply(s, step).maxConcurrent == s.maxConcurrent
  {
    var t := Apply(s, step);
    if step.Work? && step.work.Claim? {
      ClaimFillsOneBatch(s, step.worker, step.work.batch);
    } else {
      NoNewHolds(s, step);
      forall w
        ensures |InFlight(t, w)| <= s.maxConcurrent
      {
        assert InFlight(t, w) <= InFlight(s, w);
        SubsetSize(InFlight(t, w), InFlight(s, w));
      }
    }
  }

  lemma NoNewHolds(s: State, step: Step)
    requires !(step.Work? && step.work.Claim?)
    ensures Apply(s, step).maxConcurrent == s.maxConcurrent
    ensures forall k :: k in Apply(s, step).runs ==> k in s.runs
  {
    if !step.Work? {
      UsersKeepHolds(s, step);
    } else if (step.worker, step.work.job) in s.runs && step.work.job in s.jobs {
      WorkersKeepHolds(s, (step.worker, step.work.job), step.work);
    }
  }

  lemma UsersKeepHolds(s: State, step: Step)
    requires !step.Work?
    ensures ApplyUser(s, step).maxConcurrent == s.maxConcurrent && ApplyUser(s, step).runs == s.runs
  {
    if OnDrafts(step) {
      DraftsKeepHolds(s, step);
    } else if !OnCache(step) {
      JobsKeepHolds(s, step);
    }
  }

  lemma DraftsKeepHolds(s: State, step: Step)
    requires OnDrafts(step)
    ensures ApplyDrafts(s, step).maxConcurrent == s.maxConcurrent && ApplyDrafts(s, step).runs == s.runs
  {
  }

  lemma JobsKeepHolds(s: State, step: Step)
    requires !step.Work? && !OnDrafts(step) && !OnCache(step)
    ensures ApplyJobs(s, step).maxConcurrent == s.maxConcurrent && ApplyJobs(s, step).runs == s.runs
  {
  }

  ghost predicate SameHolds(s: State, t: State) {
    t.maxConcurrent == s.maxConcurrent && forall h :: h in t.runs ==> h in s.runs
  }

  lemma BuildersKeepHolds(s: State, k: Hold, work: WorkerStep)
    requires k in s.runs && Builds(work)
    ensures SameHolds(s, ApplyBuild(s, k, work))
  {
  }

  lemma WorkersKeepHolds(s: State, k: Hold, work: WorkerStep)
    requires k in s.runs && k.1 in s.jobs
    ensures SameHolds(s, ApplyWork(s, k, work))
  {
    if Builds(work) {
      BuildersKeepHolds(s, k, work);
    } else if Ends(work) {
      EndsKeepHolds(s, k, work);
    } else {
      OthersKeepHolds(s, k, work);
    }
  }

  lemma EndsKeepHolds(s: State, k: Hold, work: WorkerStep)
    requires k in s.runs && k.1 in s.jobs
    ensures SameHolds(s, ApplyEnd(s, k, work))
  {
  }

  lemma OthersKeepHolds(s: State, k: Hold, work: WorkerStep)
    requires k in s.runs && k.1 in s.jobs
    ensures SameHolds(s, ApplyOn(s, k, work))
  {
  }

  lemma HoldsAfterClaim(s: State, t: State, w: Worker, batch: set<JobId>)
    requires InFlight(s, w) == {} && t.runs.Keys == s.runs.Keys + Holds(w, batch)
    ensures InFlight(t, w) == Holds(w, batch)
    ensures forall v :: v != w ==> InFlight(t, v) == InFlight(s, v)
  {
    forall k
      ensures k in InFlight(s, w) <==> k in s.runs && k.0 == w
    {
    }
  }

  lemma ClaimFillsOneBatch(s: State, w: Worker, batch: set<JobId>)
    requires BatchesBounded(s)
    ensures BatchesBounded(ApplyClaim(s, w, batch)) && ApplyClaim(s, w, batch).maxConcurrent == s.maxConcurrent
  {
    var t := ApplyClaim(s, w, batch);
    if t != s {
      HoldsSize(w, batch);
      HoldsAfterClaim(s, t, w, batch);
    }
  }

  lemma {:induction false} HoldsSize(w: Worker, batch: set<JobId>)
    ensures |Holds(w, batch)| == |batch|
  {
    if batch == {} {
      assert Holds(w, batch) == {};
    } else {
      var j :| j in batch;
      HoldsSize(w, batch - {j});
      assert Holds(w, batch) == Holds(w, batch - {j}) + {(w, j)};
    }
  }

  /** A worker process never has more than `maxConcurrent` jobs in flight, in any run. */
  lemma {:induction false} BatchesBoundedInEveryRun(s: State, steps: seq<Step>)
    requires Initial(s)
    ensures BatchesBounded(Run(s, steps))
  {
    if steps == [] {
      assert forall w :: InFlight(s, w) == {};
    } else {
      BatchesBoundedInEveryRun(s, steps[..|steps| - 1]);
      BatchStep(Run(s, steps[..|steps| - 1]), steps[|steps| - 1]);
    }
  }
}
