/** Who wakes the job when its last page lands: page-completion handlers of one job,
    interleaved at every statement (scan/upload_chunked.go:245-257, scan/service.go:106-112,
    and the two queries of AllPagesUploaded, scan/repository.go:462-477). */
module UploadWakeup {
  import opened ScanModel

  datatype Phase =
    | Started                     // before MarkPageUploaded
    | Marked                      // page marked (or found uploaded), nothing counted yet
    | Counted(nonePending: bool)  // first query of AllPagesUploaded answered
    | Checked(ready: bool)        // second query answered
    | Done

  /** `seen` is the job status read at the start of the request; `resumed` marks the path for
      a page that is already composed, which writes only if it saw the job uploading.
      `basis` is the set of pages the first query counted over, without those reopened since. */
  datatype Handler = Handler(page: nat, seen: JobStatus, resumed: bool, phase: Phase, basis: set<nat>)

  /** `pages` maps a page to whether it is uploaded. */
  datatype State = State(pages: map<nat, bool>, status: JobStatus, handlers: map<nat, Handler>)

  datatype Step =
    | Begin(h: nat, page: nat)
    | MarkPage(h: nat)
    | Resume(h: nat)
    | CountPending(h: nat)
    | CountTotal(h: nat)
    | WriteStatus(h: nat)
    | Fail(h: nat)               // a query fails; the handler gives up without writing
    | AddPage(page: nat)         // EnsurePage creates a page row
    | Reopen(page: nat)          // a late chunk write makes an uploaded page `uploading` again
    | Elsewhere(status: JobStatus) // another writer moves a job that has left uploading

  predicate AllUploaded(s: State) {
    s.pages != map[] && forall p :: p in s.pages ==> s.pages[p]
  }

  predicate Writes(h: Handler) {
    h.phase == Checked(true) && (h.resumed ==> h.seen == Uploading)
  }

  function SetPhase(s: State, h: nat, phase: Phase): State
    requires h in s.handlers
  {
    s.(handlers := s.handlers[h := s.handlers[h].(phase := phase)])
  }

  /** The state after a step; a step that is not enabled changes nothing. */
  function Apply(s: State, step: Step): State {
    match step
    case Begin(h, page) =>
      if h !in s.handlers && page in s.pages
      then s.(handlers := s.handlers[h := Handler(page, s.status, false, Started, {})])
      else s
    case MarkPage(h) =>
      if h in s.handlers && s.handlers[h].phase == Started
      then s.(pages := s.pages[s.handlers[h].page := true],
              handlers := s.handlers[h := s.handlers[h].(phase := Marked, resumed := false)])
      else s
    case Resume(h) =>
      if h in s.handlers && s.handlers[h].phase == Started && s.handlers[h].page in s.pages && s.pages[s.handlers[h].page]
      then s.(handlers := s.handlers[h := s.handlers[h].(phase := Marked, resumed := true)])
      else s
    case CountPending(h) =>
      if h in s.handlers && s.handlers[h].phase == Marked
      then s.(handlers := s.handlers[h := s.handlers[h].(
                phase := Counted(forall p :: p in s.pages ==> s.pages[p]), basis := s.pages.Keys)])
      else s
    case CountTotal(h) =>
      if h in s.handlers && s.handlers[h].phase.Counted?
      then SetPhase(s, h, Checked(s.pages != map[] && s.handlers[h].phase.nonePending))
      else s
    case WriteStatus(h) =>
      if h in s.handlers && s.handlers[h].phase.Checked?
      then SetPhase(if Writes(s.handlers[h]) then s.(status := Pending) else s, h, Done)
      else s
    case Fail(h) =>
      if h in s.handlers then SetPhase(s, h, Done) else s
    case AddPage(page) =>
      if page !in s.pages then s.(pages := s.pages[page := false]) else s
    case Reopen(page) =>
      if page in s.pages && s.pages[page]
      then s.(pages := s.pages[page := false],
              handlers := map h | h in s.handlers :: s.handlers[h].(basis := s.handlers[h].basis - {page}))
      else s
    case Elsewhere(status) =>
      if s.status != Uploading && status != Uploading then s.(status := status) else s
  }

  /** A handler writes `pending`, if it found every page uploaded and, on the path for a composed
      page, had seen the job uploading; no other step of these handlers touches the status. */
  lemma HandlersWritePending(s: State, step: Step)
    requires !step.Elsewhere?
    ensures Apply(s, step).status ==
            if step.WriteStatus? && step.h in s.handlers && s.handlers[step.h].phase == Checked(true)
               && (s.handlers[step.h].resumed ==> s.handlers[step.h].seen == Uploading)
            then Pending else s.status
  {
  }

  function Run(s: State, steps: seq<Step>): State {
    if steps == [] then s else Apply(Run(s, steps[..|steps| - 1]), steps[|steps| - 1])
  }

  /** CreateJob: every page row exists, none is uploaded, no handler runs. */
  ghost predicate Created(s: State) {
    && s.status == Uploading && s.handlers == map[] && s.pages != map[]
    && forall p :: p in s.pages ==> !s.pages[p]
  }

  // ---------------------------------------------------------------- no lost wakeup

  /** A handler that will still find every page uploaded and write. */
  ghost predicate WillWake(h: Handler) {
    && (h.phase == Marked || h.phase == Counted(true) || h.phase == Checked(true))
    && (h.resumed ==> h.seen == Uploading)
  }

  ghost predicate WakeupPending(s: State) {
    exists h :: h in s.handlers && WillWake(s.handlers[h])
  }

  ghost predicate NoLostWakeup(s: State) {
    AllUploaded(s) && s.status == Uploading ==> WakeupPending(s)
  }

  /** A failure that takes away the only handler that would have written. */
  ghost predicate LosesWakeup(s: State, step: Step) {
    && step.Fail? && AllUploaded(s) && s.status == Uploading
    && step.h in s.handlers && WillWake(s.handlers[step.h])
    && forall k :: k in s.handlers && k != step.h ==> !WillWake(s.handlers[k])
  }

  /** A lost wakeup is made good by another completion of a page of the job, repeated or
      first, or by a page that is still to come or comes again. */
  ghost predicate Recovers(s: State, step: Step) {
    match step
    case MarkPage(h) => h in s.handlers && s.handlers[h].phase == Started
    case Resume(h) =>
      && h in s.handlers && s.handlers[h].phase == Started && s.handlers[h].seen == Uploading
      && s.handlers[h].page in s.pages && s.pages[s.handlers[h].page]
    case AddPage(page) => page !in s.pages
    case Reopen(page) => page in s.pages && s.pages[page]
    case _ => false
  }

  /** Exactly when one step loses the wakeup: a failure does iff it hits the only handler that
      would have written, once all pages are uploaded; no other step ever does. */
  lemma WakeupLostIff(s: State, step: Step)
    requires NoLostWakeup(s)
    ensures !NoLostWakeup(Apply(s, step)) <==> LosesWakeup(s, step)
  {
    var t := Apply(s, step);
    assert step.Reopen? && t != s ==> step.page in t.pages && !t.pages[step.page];
    if AllUploaded(t) && t.status == Uploading && t != s && !LosesWakeup(s, step) {
      if step.MarkPage? {
        assert WillWake(t.handlers[step.h]);
      } else {
        assert AllUploaded(s);
        var h :| h in s.handlers && WillWake(s.handlers[h]) && !(step.Fail? && step.h == h);
        assert h in t.handlers && WillWake(t.handlers[h]);
      }
    }
  }

  /** ... and exactly when one step makes a lost wakeup good. */
  lemma WakeupRecoveredIff(s: State, step: Step)
    requires !NoLostWakeup(s)
    ensures NoLostWakeup(Apply(s, step)) <==> Recovers(s, step)
  {
    var t := Apply(s, step);
    if Recovers(s, step) {
      if step.AddPage? || step.Reopen? {
        assert step.page in t.pages && !t.pages[step.page];
      } else {
        assert step.h in t.handlers && WillWake(t.handlers[step.h]);
      }
    } else {
      forall h | h in t.handlers
        ensures !WillWake(t.handlers[h])
      {
        assert h in s.handlers ==> !WillWake(s.handlers[h]);
      }
      assert t.pages == s.pages && t.status == s.status;
    }
  }

  /** What the i-th step of a history does to the wakeup. */
  ghost predicate LosesAt(s: State, steps: seq<Step>, i: nat)
    requires i < |steps|
  {
    LosesWakeup(Run(s, steps[..i]), steps[i])
  }

  ghost predicate RecoversAt(s: State, steps: seq<Step>, i: nat)
    requires i < |steps|
  {
    Recovers(Run(s, steps[..i]), steps[i])
  }

  /** Some failure among the first n steps lost the wakeup and nothing after it made it good. */
  ghost predicate LostUnrecovered(s: State, steps: seq<Step>, n: nat)
    requires n <= |steps|
  {
    exists i :: 0 <= i < n && LosesAt(s, steps, i) && forall j :: i < j < n ==> !RecoversAt(s, steps, j)
  }

  lemma LostOneMore(s: State, steps: seq<Step>, n: nat)
    requires 0 < n <= |steps|
    ensures LostUnrecovered(s, steps, n) <==>
              LosesAt(s, steps, n - 1) || (LostUnrecovered(s, steps, n - 1) && !RecoversAt(s, steps, n - 1))
  {
    if LostUnrecovered(s, steps, n - 1) && !RecoversAt(s, steps, n - 1) {
      var i :| 0 <= i < n - 1 && LosesAt(s, steps, i) && forall j :: i < j < n - 1 ==> !RecoversAt(s, steps, j);
      assert forall j :: i < j < n ==> j == n - 1 || !RecoversAt(s, steps, j);
    }
  }

  lemma {:induction false} LostInEveryRun(s: State, steps: seq<Step>, n: nat)
    requires Created(s) && n <= |steps|
    ensures !NoLostWakeup(Run(s, steps[..n])) <==> LostUnrecovered(s, steps, n)
  {
    if n == 0 {
      var p :| p in s.pages;
    } else {
      var before, step := Run(s, steps[..n - 1]), steps[n - 1];
      assert steps[..n][..n - 1] == steps[..n - 1];
      LostInEveryRun(s, steps, n - 1);
      LostOneMore(s, steps, n);
      LostNext(before, step);
    }
  }

  lemma LostNext(s: State, step: Step)
    ensures !NoLostWakeup(Apply(s, step)) <==> LosesWakeup(s, step) || (!NoLostWakeup(s) && !Recovers(s, step))
  {
    if NoLostWakeup(s) {
      WakeupLostIff(s, step);
    } else {
      WakeupRecoveredIff(s, step);
    }
  }

  ghost predicate AllDone(s: State) {
    forall h :: h in s.handlers ==> s.handlers[h].phase == Done
  }

  /** In every interleaving, with pages being added along the way and any failures, once the
      handlers are done and the pages are uploaded the job is still `uploading` exactly when
      some failure lost the wakeup and nothing after it made it good. */
  lemma StaysUploadingIff(s: State, steps: seq<Step>)
    requires Created(s) && AllDone(Run(s, steps)) && AllUploaded(Run(s, steps))
    ensures Run(s, steps).status == Uploading <==> LostUnrecovered(s, steps, |steps|)
  {
    LostInEveryRun(s, steps, |steps|);
    assert steps[..|steps|] == steps;
  }

  /** So the last page wakes the job, also when requests fail, as long as none of the failures
      takes away the only wakeup. */
  lemma LastPageWakesTheJob(s: State, steps: seq<Step>)
    requires Created(s)
    requires forall i :: 0 <= i < |steps| ==> !LosesAt(s, steps, i)
    requires AllDone(Run(s, steps)) && AllUploaded(Run(s, steps))
    ensures Run(s, steps).status != Uploading
  {
    StaysUploadingIff(s, steps);
  }

  /** Such a history: one page, and its handler fails after marking it ... */
  lemma FailureLosesWakeup()
    ensures var s := State(map[1 := false], Uploading, map[]);
            var t := Run(s, [Begin(7, 1), MarkPage(7), Fail(7)]);
            Created(s) && AllDone(t) && AllUploaded(t) && t.status == Uploading
  {
    var s := State(map[1 := false], Uploading, map[]);
    RunOne(s, [], Begin(7, 1));
    RunOne(s, [Begin(7, 1)], MarkPage(7));
    RunOne(s, [Begin(7, 1), MarkPage(7)], Fail(7));
    assert [] + [Begin(7, 1)] == [Begin(7, 1)] && [Begin(7, 1)] + [MarkPage(7)] == [Begin(7, 1), MarkPage(7)];
    assert [Begin(7, 1), MarkPage(7)] + [Fail(7)] == [Begin(7, 1), MarkPage(7), Fail(7)];
    var t := Apply(Apply(Apply(s, Begin(7, 1)), MarkPage(7)), Fail(7));
    assert 1 in s.pages && 1 in t.pages;
  }

  /** ... and repeating the completion call repairs it from any state, as long as nothing
      interferes with the repeated call: that is what its idempotent path is for. */
  lemma RepeatedCompletionRecovers(s: State, h: nat, page: nat)
    requires h !in s.handlers && page in s.pages && AllUploaded(s)
    ensures Run(s, [Begin(h, page), Resume(h), CountPending(h), CountTotal(h), WriteStatus(h)]).status != Uploading
  {
    var s1 := Apply(s, Begin(h, page));
    var s2 := Apply(s1, Resume(h));
    var s3 := Apply(s2, CountPending(h));
    var s4 := Apply(s3, CountTotal(h));
    var s5 := Apply(s4, WriteStatus(h));
    RunFive(s, Begin(h, page), Resume(h), CountPending(h), CountTotal(h), WriteStatus(h));
    assert s3.handlers[h].phase == Counted(true);
    assert s4.handlers[h].phase == Checked(true);
  }

  lemma RunFive(s: State, a: Step, b: Step, c: Step, d: Step, e: Step)
    ensures Run(s, [a, b, c, d, e]) == Apply(Apply(Apply(Apply(Apply(s, a), b), c), d), e)
  {
    RunOne(s, [], a);
    RunOne(s, [a], b);
    RunOne(s, [a, b], c);
    RunOne(s, [a, b, c], d);
    RunOne(s, [a, b, c, d], e);
    assert [a] == [] + [a] && [a, b] == [a] + [b] && [a, b, c] == [a, b] + [c];
    assert [a, b, c, d] == [a, b, c] + [d] && [a, b, c, d, e] == [a, b, c, d] + [e];
  }

  lemma RunOne(s: State, steps: seq<Step>, last: Step)
    ensures Run(s, steps + [last]) == Apply(Run(s, steps), last)
  {
    assert (steps + [last])[..|steps + [last]| - 1] == steps;
  }

  // ---------------------------------------------------------------- never early

  predicate HasCounted(h: Handler) {
    h.phase == Counted(true) || h.phase == Checked(true)
  }

  /** What a handler has counted, and nobody reopened, stays uploaded. */
  ghost predicate BasisUploaded(s: State) {
    forall h, p :: h in s.handlers && HasCounted(s.handlers[h]) && p in s.handlers[h].basis ==> p in s.pages && s.pages[p]
  }

  lemma BasisUploadedStep(s: State, step: Step)
    requires BasisUploaded(s)
    ensures BasisUploaded(Apply(s, step))
  {
    var t := Apply(s, step);
    assert forall p :: p in s.pages ==> p in t.pages && (s.pages[p] && !(step.Reopen? && step.page == p) ==> t.pages[p]);
  }

  lemma {:induction false} BasisUploadedRun(s: State, steps: seq<Step>)
    requires Created(s)
    ensures BasisUploaded(Run(s, steps))
  {
    if steps != [] {
      BasisUploadedRun(s, steps[..|steps| - 1]);
      BasisUploadedStep(Run(s, steps[..|steps| - 1]), steps[|steps| - 1]);
    }
  }

  /** Exactly when a wakeup comes too early: the writing handler wakes a job with a page missing
      iff a page is not uploaded that its count did not cover, or that was reopened since. */
  lemma EarlyIffUncountedPage(s: State, steps: seq<Step>, h: nat)
    requires Created(s)
    requires var t := Run(s, steps); h in t.handlers && Writes(t.handlers[h])
    ensures var t := Run(s, steps);
            !AllUploaded(Apply(t, WriteStatus(h))) <==> exists p :: p in t.pages && p !in t.handlers[h].basis && !t.pages[p]
  {
    BasisUploadedRun(s, steps);
    PagesNeverVanish(s, steps);
  }

  lemma {:induction false} PagesNeverVanish(s: State, steps: seq<Step>)
    ensures s.pages.Keys <= Run(s, steps).pages.Keys
    ensures Created(s) ==> Run(s, steps).pages != map[]
  {
    if steps != [] {
      PagesNeverVanish(s, steps[..|steps| - 1]);
    }
    if Created(s) {
      var p :| p in s.pages;
      assert p in Run(s, steps).pages;
    }
  }

  /** A page is added or reopened while some handler has counted and not yet written. */
  ghost predicate Outdates(s: State, step: Step) {
    && ((step.AddPage? && step.page !in s.pages) || (step.Reopen? && step.page in s.pages && s.pages[step.page]))
    && exists h :: h in s.handlers && HasCounted(s.handlers[h])
  }

  ghost predicate CountsHold(s: State) {
    forall h, p :: h in s.handlers && HasCounted(s.handlers[h]) && p in s.pages ==> s.pages[p]
  }

  lemma CountsHoldStep(s: State, step: Step)
    requires CountsHold(s) && !Outdates(s, step)
    ensures CountsHold(Apply(s, step))
  {
    var t := Apply(s, step);
    forall h, p | h in t.handlers && HasCounted(t.handlers[h]) && p in t.pages
      ensures t.pages[p]
    {
      if h in s.handlers && HasCounted(s.handlers[h]) {
        assert p in s.pages ==> s.pages[p];
      }
    }
  }

  lemma {:induction false} CountsHoldRun(s: State, steps: seq<Step>, n: nat)
    requires Created(s) && n <= |steps|
    requires forall i :: 0 <= i < n ==> !Outdates(Run(s, steps[..i]), steps[i])
    ensures CountsHold(Run(s, steps[..n]))
  {
    if n > 0 {
      assert steps[..n][..n - 1] == steps[..n - 1];
      CountsHoldRun(s, steps, n - 1);
      CountsHoldStep(Run(s, steps[..n - 1]), steps[n - 1]);
    }
  }

  /** The job never leaves `uploading` before its last page, in any interleaving and with any
      failures, unless a page is added or reopened between some handler's count and write. */
  lemma JobWaitsForLastPage(s: State, steps: seq<Step>, step: Step)
    requires Created(s) && Run(s, steps).status == Uploading && Apply(Run(s, steps), step).status != Uploading
    requires forall i :: 0 <= i < |steps| ==> !Outdates(Run(s, steps[..i]), steps[i])
    ensures AllUploaded(Apply(Run(s, steps), step))
  {
    assert steps[..|steps|] == steps;
    CountsHoldRun(s, steps, |steps|);
    PagesNeverVanish(s, steps);
    var t := Run(s, steps);
    assert step.WriteStatus? && HasCounted(t.handlers[step.h]);
  }

  lemma {:induction false} HandlerPages(s: State, steps: seq<Step>)
    requires Created(s)
    ensures forall h :: h in Run(s, steps).handlers ==> Run(s, steps).handlers[h].page in Run(s, steps).pages
  {
    if steps != [] {
      HandlerPages(s, steps[..|steps| - 1]);
    }
  }

  /** Reopening a counted page breaks it ... */
  lemma ReopenedTooLate()
    ensures var s := State(map[1 := false], Uploading, map[]);
            var t := Run(s, [Begin(7, 1), MarkPage(7), CountPending(7), CountTotal(7), Reopen(1)] + [WriteStatus(7)]);
            Created(s) && t.status == Pending && !AllUploaded(t)
  {
    var s := State(map[1 := false], Uploading, map[]);
    PageReopenedAfterCount(s);
    RunOne(s, [Begin(7, 1), MarkPage(7), CountPending(7), CountTotal(7), Reopen(1)], WriteStatus(7));
    assert 1 in s.pages;
    EarlyWrite();
  }

  lemma PageReopenedAfterCount(s: State)
    requires s == State(map[1 := false], Uploading, map[])
    ensures Run(s, [Begin(7, 1), MarkPage(7), CountPending(7), CountTotal(7), Reopen(1)]) ==
            State(map[1 := false], Uploading, map[7 := Handler(1, Uploading, false, Checked(true), {})])
  {
    CountedByFour(s);
    RunFive(s, Begin(7, 1), MarkPage(7), CountPending(7), CountTotal(7), Reopen(1));
    var counted := State(map[1 := true], Uploading, map[7 := Handler(1, Uploading, false, Checked(true), {1})]);
    assert {1} - {1} == {};
    assert Apply(counted, Reopen(1)).handlers == map[7 := Handler(1, Uploading, false, Checked(true), {})];
  }

  lemma EarlyWrite()
    ensures var t := Apply(State(map[1 := false], Uploading, map[7 := Handler(1, Uploading, false, Checked(true), {})]), WriteStatus(7));
            t.status == Pending && !AllUploaded(t)
  {
    var t := Apply(State(map[1 := false], Uploading, map[7 := Handler(1, Uploading, false, Checked(true), {})]), WriteStatus(7));
    assert 1 in t.pages && !t.pages[1];
  }

  /** ... and so does adding a page there. */
  lemma PageAddedTooLate()
    ensures exists s, steps :: Created(s) && Run(s, steps).status == Pending && !AllUploaded(Run(s, steps))
  {
    var s := State(map[1 := false], Uploading, map[]);
    var steps := [Begin(7, 1), MarkPage(7), CountPending(7), CountTotal(7), AddPage(2)];
    PageAddedAfterCount(s);
    RunOne(s, steps, WriteStatus(7));
    var t := Run(s, steps + [WriteStatus(7)]);
    assert t.status == Pending && 2 in t.pages && !t.pages[2];
    assert 1 in s.pages && Created(s);
  }

  lemma PageAddedAfterCount(s: State)
    requires s == State(map[1 := false], Uploading, map[])
    ensures Run(s, [Begin(7, 1), MarkPage(7), CountPending(7), CountTotal(7), AddPage(2)]) ==
            State(map[1 := true, 2 := false], Uploading, map[7 := Handler(1, Uploading, false, Checked(true), {1})])
  {
    CountedByFour(s);
    RunFive(s, Begin(7, 1), MarkPage(7), CountPending(7), CountTotal(7), AddPage(2));
  }

  lemma CountedByFour(s: State)
    requires s == State(map[1 := false], Uploading, map[])
    ensures Apply(Apply(Apply(Apply(s, Begin(7, 1)), MarkPage(7)), CountPending(7)), CountTotal(7)) ==
            State(map[1 := true], Uploading, map[7 := Handler(1, Uploading, false, Checked(true), {1})])
  {
    var marked := State(map[1 := true], Uploading, map[7 := Handler(1, Uploading, false, Marked, {})]);
    assert Apply(Apply(s, Begin(7, 1)), MarkPage(7)) == marked;
    var counted := State(map[1 := true], Uploading, map[7 := Handler(1, Uploading, false, Counted(true), {1})]);
    assert marked.pages.Keys == {1};
    assert Apply(marked, CountPending(7)) == counted;
  }

  // ---------------------------------------------------------------- more than one writer

  /** The i-th step is a handler's write of `pending`. */
  ghost predicate WakesAt(s: State, steps: seq<Step>, i: nat)
    requires i < |steps|
  {
    var t := Run(s, steps[..i]);
    steps[i].WriteStatus? && steps[i].h in t.handlers && Writes(t.handlers[steps[i].h])
  }

  ghost predicate WokenBefore(s: State, steps: seq<Step>, n: nat)
    requires n <= |steps|
  {
    exists i :: 0 <= i < n && WakesAt(s, steps, i)
  }

  lemma {:induction false} LeftIffWoken(s: State, steps: seq<Step>, n: nat)
    requires s.status == Uploading && n <= |steps|
    ensures Run(s, steps[..n]).status != Uploading <==> WokenBefore(s, steps, n)
  {
    if n > 0 {
      assert steps[..n][..n - 1] == steps[..n - 1];
      LeftIffWoken(s, steps, n - 1);
      LeavesIff(Run(s, steps[..n - 1]), steps[n - 1]);
      assert WokenBefore(s, steps, n) <==> WokenBefore(s, steps, n - 1) || WakesAt(s, steps, n - 1);
    }
  }

  lemma LeavesIff(s: State, step: Step)
    ensures Apply(s, step).status != Uploading <==>
              s.status != Uploading || (step.WriteStatus? && step.h in s.handlers && Writes(s.handlers[step.h]))
  {
  }

  /** When a handler writes `pending` onto a job that has left `uploading`, and may by then be
      claimed or finished: exactly when another handler has written before. The status is not
      looked at again. */
  lemma WritesLateIff(s: State, steps: seq<Step>, h: nat)
    requires Created(s) && h in Run(s, steps).handlers && Writes(Run(s, steps).handlers[h])
    ensures Apply(Run(s, steps), WriteStatus(h)).status == Pending
    ensures Run(s, steps).status != Uploading <==> exists i :: 0 <= i < |steps| && WakesAt(s, steps, i) && steps[i].h != h
  {
    assert steps[..|steps|] == steps;
    LeftIffWoken(s, steps, |steps|);
    forall i | 0 <= i < |steps| && WakesAt(s, steps, i)
      ensures steps[i].h != h
    {
      DoneStays(s, steps, i + 1, |steps|, steps[i].h);
    }
  }

  /** A handler that has written is done. */
  lemma {:induction false} DoneStays(s: State, steps: seq<Step>, i: nat, n: nat, h: nat)
    requires 0 < i <= n <= |steps| && WakesAt(s, steps, i - 1) && steps[i - 1].h == h
    ensures h in Run(s, steps[..n]).handlers && Run(s, steps[..n]).handlers[h].phase == Done
  {
    assert steps[..n][..n - 1] == steps[..n - 1];
    if i < n {
      DoneStays(s, steps, i, n - 1, h);
    }
  }

  /** Two last pages whose handlers both count before either writes. */
  function BothCount(): seq<Step> {
    [Begin(1, 1), Begin(2, 2), MarkPage(1), MarkPage(2), CountPending(1)]
  }

  function BothCheck(): seq<Step> {
    [CountPending(2), CountTotal(1), CountTotal(2)]
  }

  /** A worker claims the job after the first write, and the second write puts it back. */
  lemma ClaimedJobIsPutBack()
    ensures var s := State(map[1 := false, 2 := false], Uploading, map[]);
            var t := Run(s, BothCount() + BothCheck());
            var claimed := Apply(Apply(t, WriteStatus(1)), Elsewhere(Processing));
            && Created(s) && claimed.status == Processing && Apply(claimed, WriteStatus(2)).status == Pending
            && Run(s, BothCount() + BothCheck() + [WriteStatus(1), Elsewhere(Processing), WriteStatus(2)]) == Apply(claimed, WriteStatus(2))
  {
    var s := State(map[1 := false, 2 := false], Uploading, map[]);
    assert 1 in s.pages;
    BothMarked(s);
    RunFive(s, Begin(1, 1), Begin(2, 2), MarkPage(1), MarkPage(2), CountPending(1));
    BothCounted(Run(s, BothCount()));
    RunThree(s, BothCount(), CountPending(2), CountTotal(1), CountTotal(2));
    var t := Run(s, BothCount() + BothCheck());
    BothWrite(t);
    RunThree(s, BothCount() + BothCheck(), WriteStatus(1), Elsewhere(Processing), WriteStatus(2));
  }

  lemma BothWrite(t: State)
    requires t.status == Uploading && 1 in t.handlers && 2 in t.handlers && t.handlers[1].phase == Checked(true)
    requires t.handlers[2].phase == Checked(true) && !t.handlers[1].resumed && !t.handlers[2].resumed
    ensures var claimed := Apply(Apply(t, WriteStatus(1)), Elsewhere(Processing));
            claimed.status == Processing && Apply(claimed, WriteStatus(2)).status == Pending
  {
  }

  lemma RunThree(s: State, steps: seq<Step>, a: Step, b: Step, c: Step)
    ensures Run(s, steps + [a, b, c]) == Apply(Apply(Apply(Run(s, steps), a), b), c)
  {
    var one, two := steps + [a], steps + [a, b];
    RunOne(s, steps, a);
    assert two == one + [b];
    RunOne(s, one, b);
    assert steps + [a, b, c] == two + [c];
    RunOne(s, two, c);
  }

  lemma BothMarked(s: State)
    requires s == State(map[1 := false, 2 := false], Uploading, map[])
    ensures Apply(Apply(Apply(Apply(Apply(s, Begin(1, 1)), Begin(2, 2)), MarkPage(1)), MarkPage(2)), CountPending(1)) ==
            State(map[1 := true, 2 := true], Uploading,
                  map[1 := Handler(1, Uploading, false, Counted(true), {1, 2}), 2 := Handler(2, Uploading, false, Marked, {})])
  {
    var begun := State(map[1 := false, 2 := false], Uploading,
                       map[1 := Handler(1, Uploading, false, Started, {}), 2 := Handler(2, Uploading, false, Started, {})]);
    assert Apply(Apply(s, Begin(1, 1)), Begin(2, 2)) == begun;
    var marked := State(map[1 := true, 2 := true], Uploading,
                        map[1 := Handler(1, Uploading, false, Marked, {}), 2 := Handler(2, Uploading, false, Marked, {})]);
    assert Apply(Apply(begun, MarkPage(1)), MarkPage(2)) == marked;
    assert marked.pages.Keys == {1, 2};
  }

  lemma BothCounted(s: State)
    requires s == State(map[1 := true, 2 := true], Uploading,
                        map[1 := Handler(1, Uploading, false, Counted(true), {1, 2}), 2 := Handler(2, Uploading, false, Marked, {})])
    ensures var t := Apply(Apply(Apply(s, CountPending(2)), CountTotal(1)), CountTotal(2));
            && t.status == Uploading && 1 in t.handlers && 2 in t.handlers && t.handlers[1].phase == Checked(true)
            && t.handlers[2].phase == Checked(true) && !t.handlers[1].resumed && !t.handlers[2].resumed
  {
  }
}
