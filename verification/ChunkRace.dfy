/** Two chunk requests for one page at the same time: the page row is read when a request
    starts and its receipts are written back whole when it ends (scan/upload_chunked.go:75-136,
    scan/repository.go:439-460). Requests here are well-formed; `ChunkProtocol` says which are. */
module ChunkRace {
  import opened Common

  type Request = nat

  /** The receipts of the page row and whether the page is uploaded. */
  datatype Page = Page(uploaded: bool, total: nat, received: seq<nat>)

  /** A request between its read and its write: what it will write back. */
  datatype Waiting = Waiting(total: nat, received: seq<nat>)

  datatype State = State(page: Page, requests: map<Request, Waiting>)

  datatype Step =
    | Read(r: Request, index: nat, total: nat)
    | Write(r: Request)
    | GiveUp(r: Request)     // refused or failed after the read
    | Mark                   // a completion call marks the page uploaded

  function Apply(s: State, step: Step): State {
    match step
    case Read(r, index, total) =>
      if r in s.requests || s.page.uploaded || total == 0 || (s.page.total != 0 && s.page.total != total) || index in s.page.received
      then s
      else s.(requests := s.requests[r := Waiting(total, s.page.received + [index])])
    case Write(r) =>
      if r in s.requests
      then State(Page(false, s.requests[r].total, s.requests[r].received), s.requests - {r}) else s
    case GiveUp(r) => s.(requests := s.requests - {r})
    case Mark => s.(page := Page(true, 0, []))
  }

  function Run(s: State, steps: seq<Step>): State {
    if steps == [] then s else Apply(Run(s, steps[..|steps| - 1]), steps[|steps| - 1])
  }

  const NEW := State(Page(false, 0, []), map[])

  lemma RunNext(s: State, steps: seq<Step>, n: nat)
    requires 0 < n <= |steps|
    ensures Run(s, steps[..n]) == Apply(Run(s, steps[..n - 1]), steps[n - 1])
  {
    assert steps[..n][..n - 1] == steps[..n - 1];
  }

  /** The j-th step writes the page row. */
  ghost predicate WritesAt(s: State, steps: seq<Step>, j: nat)
    requires j < |steps|
  {
    steps[j].Mark? || (steps[j].Write? && steps[j].r in Run(s, steps[..j]).requests)
  }

  ghost predicate QuietBetween(s: State, steps: seq<Step>, i: nat, n: nat)
    requires n <= |steps|
  {
    forall j :: i < j < n ==> !WritesAt(s, steps, j)
  }

  /** The request read at step i and has not written by step n. */
  ghost predicate Waits(s: State, steps: seq<Step>, i: nat, n: nat, r: Request)
    requires i < n <= |steps|
  {
    && steps[i].Read? && steps[i].r == r && r !in Run(s, steps[..i]).requests
    && forall j :: i < j <= n ==> r in Run(s, steps[..j]).requests
  }

  /** What it will write back is what it read and its own number. */
  lemma {:induction false} WritesBack(s: State, steps: seq<Step>, i: nat, n: nat, r: Request)
    requires i < n <= |steps| && Waits(s, steps, i, n, r)
    ensures r in Run(s, steps[..n]).requests
    ensures var read := Run(s, steps[..i]).page;
            !read.uploaded && Run(s, steps[..n]).requests[r] == Waiting(steps[i].total, read.received + [steps[i].index])
    ensures QuietBetween(s, steps, i, n) ==> Run(s, steps[..n]).page == Run(s, steps[..i]).page
  {
    RunNext(s, steps, n);
    assert r in Run(s, steps[..n]).requests;
    if n > i + 1 {
      WritesBack(s, steps, i, n - 1, r);
      assert QuietBetween(s, steps, i, n) ==> !WritesAt(s, steps, n - 1);
    }
  }

  /** Step j is the last one before n to write the row. */
  ghost predicate LastWrite(s: State, steps: seq<Step>, j: nat, n: nat)
    requires j < n <= |steps|
  {
    WritesAt(s, steps, j) && QuietBetween(s, steps, j, n)
  }

  lemma {:induction false} PageIsLastWritten(s: State, steps: seq<Step>, j: nat, n: nat)
    requires j < n <= |steps| && LastWrite(s, steps, j, n)
    ensures Run(s, steps[..n]).page == Run(s, steps[..j + 1]).page
  {
    if n > j + 1 {
      PageIsLastWritten(s, steps, j, n - 1);
      RunNext(s, steps, n);
      assert !WritesAt(s, steps, n - 1);
    }
  }

  lemma {:induction false} SomeLastWrite(s: State, steps: seq<Step>, i: nat, n: nat)
    requires i < n <= |steps| && !QuietBetween(s, steps, i, n)
    ensures exists j :: i < j < n && LastWrite(s, steps, j, n)
  {
    if WritesAt(s, steps, n - 1) {
      assert LastWrite(s, steps, n - 1, n);
    } else {
      assert !QuietBetween(s, steps, i, n - 1);
      SomeLastWrite(s, steps, i, n - 1);
      var j :| i < j < n - 1 && LastWrite(s, steps, j, n - 1);
      assert LastWrite(s, steps, j, n);
    }
  }

  /** The exact condition for losing a receipt, in every run: a request's write drops the
      receipt of chunk x iff since its read another request wrote the row last, and wrote x,
      and this one neither read x nor is x. */
  lemma WriteLosesReceiptIff(s: State, steps: seq<Step>, i: nat, r: Request, x: nat)
    requires i < |steps| && Waits(s, steps, i, |steps|, r)
    ensures var after := Apply(Run(s, steps), Write(r)).page;
            x in Run(s, steps).page.received && x !in after.received <==>
              exists j :: i < j < |steps| && LastWrite(s, steps, j, |steps|) && x in Run(s, steps[..j + 1]).page.received
                          && x !in Run(s, steps[..i]).page.received && x != steps[i].index
  {
    var n := |steps|;
    assert steps[..n] == steps;
    WritesBack(s, steps, i, n, r);
    if QuietBetween(s, steps, i, n) {
      assert forall j :: i < j < n ==> !WritesAt(s, steps, j);
    } else {
      SomeLastWrite(s, steps, i, n);
      forall j | i < j < n && LastWrite(s, steps, j, n)
        ensures Run(s, steps[..j + 1]).page == Run(s, steps).page
      {
        PageIsLastWritten(s, steps, j, n);
      }
    }
  }

  /** ... and for reopening an uploaded page: iff since the request's read a completion marked
      the page and nothing was written after that. The receipts of before come back, without
      their chunks; `ChunkProtocol.ReopenedNeverCompletes` says what that means. */
  lemma WriteReopensIff(s: State, steps: seq<Step>, i: nat, r: Request)
    requires i < |steps| && Waits(s, steps, i, |steps|, r)
    ensures Apply(Run(s, steps), Write(r)).page ==
            Page(false, steps[i].total, Run(s, steps[..i]).page.received + [steps[i].index])
    ensures Run(s, steps).page.uploaded <==> exists j :: i < j < |steps| && steps[j].Mark? && QuietBetween(s, steps, j, |steps|)
  {
    var n := |steps|;
    assert steps[..n] == steps;
    WritesBack(s, steps, i, n, r);
    if !QuietBetween(s, steps, i, n) {
      SomeLastWrite(s, steps, i, n);
      var j :| i < j < n && LastWrite(s, steps, j, n);
      UploadedIfMarkedLast(s, steps, j, n);
    }
    if j :| i < j < n && steps[j].Mark? && QuietBetween(s, steps, j, n) {
      UploadedIfMarkedLast(s, steps, j, n);
    }
  }

  lemma UploadedIfMarkedLast(s: State, steps: seq<Step>, j: nat, n: nat)
    requires j < n <= |steps| && LastWrite(s, steps, j, n)
    ensures Run(s, steps[..n]).page.uploaded <==> steps[j].Mark?
  {
    PageIsLastWritten(s, steps, j, n);
    RunNext(s, steps, j + 1);
  }

  // ---------------------------------------------------------------- one request after the other

  /** The chunks whose requests were answered as received since the page was last marked. */
  ghost function Answered(s: State, steps: seq<Step>): set<nat> {
    if steps == [] then {}
    else
      var init, last := steps[..|steps| - 1], steps[|steps| - 1];
      if last.Mark? then {}
      else if last.Write? && last.r in Run(s, init).requests then Answered(s, init) + {Own(Run(s, init), last.r)}
      else Answered(s, init)
  }

  /** The number a waiting request adds. */
  ghost function Own(s: State, r: Request): nat
    requires r in s.requests
  {
    if s.requests[r].received == [] then 0 else s.requests[r].received[|s.requests[r].received| - 1]
  }

  /** Nothing starts, and no completion marks the page, while a request waits. */
  ghost predicate OneAtATime(s: State, steps: seq<Step>) {
    steps == [] ||
    (OneAtATime(s, steps[..|steps| - 1]) &&
     (steps[|steps| - 1].Read? || steps[|steps| - 1].Mark? ==> Run(s, steps[..|steps| - 1]).requests == map[]))
  }

  ghost predicate Holds(received: seq<nat>, chunks: set<nat>) {
    forall x :: x in received <==> x in chunks
  }

  /** The receipts are the answered chunks; at most one request waits, and it will write back
      all of them and its own. */
  ghost predicate Orderly(s: State, answered: set<nat>) {
    && Holds(s.page.received, answered)
    && (forall r :: r in s.requests ==>
          !s.page.uploaded && |s.requests[r].received| > 0 && s.requests[r].received == s.page.received + [Own(s, r)])
    && forall r, q :: r in s.requests && q in s.requests ==> r == q
  }

  /** One request after the other: the receipts are always exactly the chunks that were answered
      as received, and no write drops one or reopens the page. */
  lemma {:induction false} OneAtATimeLosesNothing(steps: seq<Step>)
    requires OneAtATime(NEW, steps)
    ensures Orderly(Run(NEW, steps), Answered(NEW, steps))
  {
    if steps != [] {
      var init, last := steps[..|steps| - 1], steps[|steps| - 1];
      OneAtATimeLosesNothing(init);
      OneAtATimeStep(Run(NEW, init), last, Answered(NEW, init));
    }
  }

  lemma OneAtATimeStep(s: State, step: Step, answered: set<nat>)
    requires Orderly(s, answered) && (step.Read? || step.Mark? ==> s.requests == map[])
    ensures Orderly(Apply(s, step), if step.Mark? then {}
                                    else if step.Write? && step.r in s.requests then answered + {Own(s, step.r)} else answered)
  {
  }

  // ---------------------------------------------------------------- two short histories

  lemma AnsweredNext(s: State, steps: seq<Step>, n: nat)
    requires 0 < n <= |steps|
    ensures var before, step := Run(s, steps[..n - 1]), steps[n - 1];
            Answered(s, steps[..n]) == if step.Mark? then {}
                                       else if step.Write? && step.r in before.requests
                                       then Answered(s, steps[..n - 1]) + {Own(before, step.r)}
                                       else Answered(s, steps[..n - 1])
    ensures Run(s, steps[..n]) == Apply(Run(s, steps[..n - 1]), steps[n - 1])
  {
    assert steps[..n][..n - 1] == steps[..n - 1];
  }

  /** Two requests read before either writes: the first one's receipt is lost, though it was
      answered as received. */
  lemma OverlapLosesReceipt()
    ensures var steps := [Read(1, 0, 2), Read(2, 1, 2), Write(1), Write(2)];
            Run(NEW, steps).page == Page(false, 2, [1]) && Answered(NEW, steps) == {0, 1}
  {
    var steps := [Read(1, 0, 2), Read(2, 1, 2), Write(1), Write(2)];
    AnsweredNext(NEW, steps, 1);
    AnsweredNext(NEW, steps, 2);
    AnsweredNext(NEW, steps, 3);
    AnsweredNext(NEW, steps, 4);
    assert steps[..4] == steps && steps[..0] == [];
  }

  /** A repeated request that overlaps the completion reopens the uploaded page. */
  lemma OverlapReopensPage()
    ensures var steps := [Read(1, 0, 1), Read(2, 0, 1), Write(1), Mark, Write(2)];
            Run(NEW, steps[..4]).page.uploaded && Run(NEW, steps).page == Page(false, 1, [0])
  {
    var steps := [Read(1, 0, 1), Read(2, 0, 1), Write(1), Mark, Write(2)];
    RunNext(NEW, steps, 1);
    RunNext(NEW, steps, 2);
    RunNext(NEW, steps, 3);
    RunNext(NEW, steps, 4);
    RunNext(NEW, steps, 5);
    assert steps[..5] == steps && steps[..0] == [];
  }
}
