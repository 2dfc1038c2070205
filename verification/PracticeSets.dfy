/** Creating the day's practice set while several first requests race, and questions are deleted
    under it: ensureTodaySet and generateDailySet (careergoals/practice.go:340-451), and the ON
    DELETE CASCADE of practice_set_questions, set off by SaveDraft (quiz/review.go:345-352).
    Each step is one statement; a transaction's rows are private until it commits, an INSERT on a
    key that another open transaction holds waits, and so does a DELETE of a question that an
    open transaction has written a row for. */
module PracticeSets {
  import opened Common

  type SetId = nat
  type Request = nat
  type Question = nat

  /** A question as the selector names it; one whose id is no number is skipped. */
  type Pick = Option<Question>

  /** A row of practice_set_questions; its order is the place among all picked questions. */
  datatype Row = Row(question: Question, order: nat)

  /** The unique key of daily_practice_sets. A goal belongs to one user. */
  datatype Slot = Slot(user: nat, goal: nat, date: nat)

  /** A committed set, its visible question rows, and the selection it was made from. */
  datatype DailySet = DailySet(slot: Slot, rows: seq<Row>, picked: seq<Pick>)

  datatype Phase =
    | Asked
    | Missed                                   // the first SELECT found nothing
    | Inserted(set_: SetId, next: nat, rows: seq<Row>) // open transaction, next question of the loop
    | Lost                                     // ON CONFLICT DO NOTHING returned no row
    | Returned(id: SetId)
    | Failed

  datatype Caller = Caller(slot: Slot, picked: seq<Pick>, phase: Phase)

  /** `nextId` is the id sequence; it never goes back, also after a rollback. `gone` are the
      questions that have been deleted. */
  datatype State = State(sets: map<SetId, DailySet>, callers: map<Request, Caller>, nextId: SetId, gone: set<Question>)

  datatype Step =
    | Ask(r: Request, slot: Slot, picked: seq<Pick>)
    | LookUp(r: Request)
    | Insert(r: Request)
    | WriteRow(r: Request)
    | Commit(r: Request)
    | Reread(r: Request)
    | Abort(r: Request)
    | Delete(questions: set<Question>)

  /** The rows of the first n picked questions. */
  function RowsFor(picked: seq<Pick>, n: nat): seq<Row>
    requires n <= |picked|
  {
    if n == 0 then []
    else RowsFor(picked, n - 1) + if picked[n - 1].Some? then [Row(picked[n - 1].value, n)] else []
  }

  /** The rows that are left when questions are deleted. */
  ghost function Kept(rows: seq<Row>, gone: set<Question>): seq<Row> {
    if rows == [] then []
    else Kept(rows[..|rows| - 1], gone) + if rows[|rows| - 1].question in gone then [] else [rows[|rows| - 1]]
  }

  ghost predicate Clear(rows: seq<Row>, gone: set<Question>) {
    forall row :: row in rows ==> row.question !in gone
  }

  lemma {:induction false} KeptAllIff(rows: seq<Row>, gone: set<Question>)
    ensures Kept(rows, gone) == rows <==> Clear(rows, gone)
    ensures |Kept(rows, gone)| <= |rows|
  {
    if rows != [] {
      var init, last := rows[..|rows| - 1], rows[|rows| - 1];
      KeptAllIff(init, gone);
      assert rows == init + [last];
      if Kept(rows, gone) == rows { assert Kept(rows, gone)[..|init|] == init; }
    }
  }

  lemma {:induction false} KeptTwice(rows: seq<Row>, gone: set<Question>, more: set<Question>)
    ensures Kept(Kept(rows, gone), more) == Kept(rows, gone + more)
  {
    if rows != [] {
      var init, last := rows[..|rows| - 1], rows[|rows| - 1];
      KeptTwice(init, gone, more);
      assert Kept(init, gone) + [] == Kept(init, gone) && Kept(init, gone + more) + [] == Kept(init, gone + more);
      if last.question !in gone {
        var kept := Kept(init, gone) + [last];
        assert kept[..|kept| - 1] == Kept(init, gone);
      }
    }
  }

  ghost predicate Visible(sets: map<SetId, DailySet>, slot: Slot) {
    exists id :: id in sets && sets[id].slot == slot
  }

  /** What a SELECT by slot finds. */
  ghost function Find(sets: map<SetId, DailySet>, slot: Slot): (id: SetId)
    requires Visible(sets, slot)
    ensures id in sets && sets[id].slot == slot
  {
    var id :| id in sets && sets[id].slot == slot;
    id
  }

  /** Another open transaction has inserted this key. */
  ghost predicate Locked(s: State, slot: Slot, r: Request) {
    exists q :: q in s.callers && q != r && s.callers[q].slot == slot && s.callers[q].phase.Inserted?
  }

  function Goto(s: State, r: Request, phase: Phase): State
    requires r in s.callers
  {
    s.(callers := s.callers[r := s.callers[r].(phase := phase)])
  }

  /** Some open transaction has a row of one of these questions. */
  ghost predicate InUse(s: State, questions: set<Question>) {
    exists r :: r in s.callers && s.callers[r].phase.Inserted? && !Clear(s.callers[r].phase.rows, questions)
  }

  ghost function Deleted(s: State, questions: set<Question>): State {
    s.(sets := map id | id in s.sets :: s.sets[id].(rows := Kept(s.sets[id].rows, questions)), gone := s.gone + questions)
  }

  /** The next question of the loop can be written, or is skipped. */
  predicate MayWrite(pick: Pick, gone: set<Question>) {
    pick.Some? ==> pick.value !in gone
  }

  ghost function Moved(s: State, r: Request, step: Step): State
    requires r in s.callers && !step.Ask? && !step.Delete?
  {
    var c := s.callers[r];
    match step
    case LookUp(_) =>
      if c.phase != Asked then s
      else Goto(s, r, if Visible(s.sets, c.slot) then Returned(Find(s.sets, c.slot)) else Missed)
    case Insert(_) =>
      if c.phase != Missed || Locked(s, c.slot, r) then s
      else if Visible(s.sets, c.slot) then Goto(s, r, Lost)
      else Goto(s.(nextId := s.nextId + 1), r, Inserted(s.nextId, 0, []))
    case WriteRow(_) =>
      if c.phase.Inserted? && c.phase.next < |c.picked| && MayWrite(c.picked[c.phase.next], s.gone)
      then
        var pick := c.picked[c.phase.next];
        Goto(s, r, Inserted(c.phase.set_, c.phase.next + 1, c.phase.rows + if pick.Some? then [Row(pick.value, c.phase.next + 1)] else []))
      else s
    case Commit(_) =>
      if c.phase.Inserted? && c.phase.next == |c.picked|
      then Goto(s.(sets := s.sets[c.phase.set_ := DailySet(c.slot, c.phase.rows, c.picked)]), r, Returned(c.phase.set_)) else s
    case Reread(_) =>
      if c.phase != Lost then s
      else Goto(s, r, if Visible(s.sets, c.slot) then Returned(Find(s.sets, c.slot)) else Failed)
    case Abort(_) => if c.phase.Returned? then s else Goto(s, r, Failed)
  }

  ghost function Apply(s: State, step: Step): State {
    if step.Delete? then if InUse(s, step.questions) then s else Deleted(s, step.questions)
    else if step.Ask? then
      if step.r in s.callers then s else s.(callers := s.callers[step.r := Caller(step.slot, step.picked, Asked)])
    else if step.r in s.callers then Moved(s, step.r, step)
    else s
  }

  ghost function RunFrom(s: State, steps: seq<Step>): State {
    if steps == [] then s else Apply(RunFrom(s, steps[..|steps| - 1]), steps[|steps| - 1])
  }

  ghost function Run(steps: seq<Step>): State {
    RunFrom(State(map[], map[], 1, {}), steps)
  }

  // ---------------------------------------------------------------- invariant

  ghost predicate OnePerSlot(sets: map<SetId, DailySet>) {
    forall a, b :: a in sets && b in sets && sets[a].slot == sets[b].slot ==> a == b
  }

  /** A committed set holds all that was picked for it, but for questions deleted since. */
  ghost predicate Complete(sets: map<SetId, DailySet>, gone: set<Question>) {
    forall id :: id in sets ==> sets[id].rows == Kept(RowsFor(sets[id].picked, |sets[id].picked|), gone)
  }

  predicate BothOpen(a: Caller, b: Caller) {
    a.phase.Inserted? && b.phase.Inserted?
  }

  /** The key lock: at most one open transaction a slot, and none once a set is committed. */
  ghost predicate KeyLocked(sets: map<SetId, DailySet>, callers: map<Request, Caller>) {
    && (forall p, q :: p in callers && q in callers && BothOpen(callers[p], callers[q]) && callers[p].slot == callers[q].slot ==> p == q)
    && forall r :: r in callers && callers[r].phase.Inserted? ==> !Visible(sets, callers[r].slot)
  }

  ghost predicate CallerOk(sets: map<SetId, DailySet>, nextId: SetId, gone: set<Question>, c: Caller) {
    match c.phase
    case Returned(id) => id in sets && sets[id].slot == c.slot
    case Inserted(id, next, rows) => id !in sets && id < nextId && next <= |c.picked| && rows == RowsFor(c.picked, next) && Clear(rows, gone)
    case Lost => Visible(sets, c.slot)
    case _ => true
  }

  ghost predicate CallersOk(sets: map<SetId, DailySet>, callers: map<Request, Caller>, nextId: SetId, gone: set<Question>) {
    forall r :: r in callers ==> CallerOk(sets, nextId, gone, callers[r])
  }

  ghost predicate OwnIds(callers: map<Request, Caller>) {
    forall p, q :: p in callers && q in callers && BothOpen(callers[p], callers[q]) && callers[p].phase.set_ == callers[q].phase.set_ ==> p == q
  }

  ghost predicate Valid(s: State) {
    && OnePerSlot(s.sets) && Complete(s.sets, s.gone) && KeyLocked(s.sets, s.callers) && CallersOk(s.sets, s.callers, s.nextId, s.gone)
    && OwnIds(s.callers) && forall id :: id in s.sets ==> id < s.nextId
  }

  /** A caller moves on without an open transaction. */
  lemma GotoKeepsValid(s: State, r: Request, phase: Phase)
    requires Valid(s) && r in s.callers && !phase.Inserted? && CallerOk(s.sets, s.nextId, s.gone, s.callers[r].(phase := phase))
    ensures Valid(Goto(s, r, phase))
  {
  }

  lemma InsertKeepsValid(s: State, r: Request)
    requires Valid(s) && r in s.callers && s.callers[r].phase == Missed
    requires !Locked(s, s.callers[r].slot, r) && !Visible(s.sets, s.callers[r].slot)
    ensures Valid(Goto(s.(nextId := s.nextId + 1), r, Inserted(s.nextId, 0, [])))
  {
    var t := Goto(s.(nextId := s.nextId + 1), r, Inserted(s.nextId, 0, []));
    forall q | q in t.callers
      ensures CallerOk(t.sets, t.nextId, t.gone, t.callers[q])
      ensures q != r && t.callers[q].phase.Inserted? ==> t.callers[q].slot != t.callers[r].slot && t.callers[q].phase.set_ < s.nextId
    {
      assert CallerOk(s.sets, s.nextId, s.gone, s.callers[q]);
    }
  }

  lemma WriteKeepsValid(s: State, r: Request)
    requires Valid(s) && r in s.callers && s.callers[r].phase.Inserted? && s.callers[r].phase.next < |s.callers[r].picked|
    ensures Valid(Moved(s, r, WriteRow(r)))
  {
    var t := Moved(s, r, WriteRow(r));
    forall q | q in t.callers
      ensures CallerOk(t.sets, t.nextId, t.gone, t.callers[q])
    {
      assert CallerOk(s.sets, s.nextId, s.gone, s.callers[q]);
    }
  }

  lemma CommitKeepsValid(s: State, r: Request)
    requires Valid(s) && r in s.callers && s.callers[r].phase.Inserted? && s.callers[r].phase.next == |s.callers[r].picked|
    ensures Valid(Moved(s, r, Commit(r)))
  {
    var t, c := Moved(s, r, Commit(r)), s.callers[r];
    assert CallerOk(s.sets, s.nextId, s.gone, c);
    KeptAllIff(c.phase.rows, s.gone);
    NewSetKeepsSets(s.sets, s.gone, c.phase.set_, c.slot, c.picked);
    forall q | q in t.callers
      ensures CallerOk(t.sets, t.nextId, t.gone, t.callers[q])
      ensures t.callers[q].phase.Inserted? ==> !Visible(t.sets, t.callers[q].slot)
    {
      CommitKeepsCaller(s, r, q);
    }
  }

  lemma CommitKeepsCaller(s: State, r: Request, q: Request)
    requires Valid(s) && r in s.callers && s.callers[r].phase.Inserted? && s.callers[r].phase.next == |s.callers[r].picked|
    requires q in s.callers
    ensures var t := Moved(s, r, Commit(r));
            && q in t.callers && CallerOk(t.sets, t.nextId, t.gone, t.callers[q])
            && (t.callers[q].phase.Inserted? ==> !Visible(t.sets, t.callers[q].slot))
  {
    var c := s.callers[r];
    assert CallerOk(s.sets, s.nextId, s.gone, c) && CallerOk(s.sets, s.nextId, s.gone, s.callers[q]);
    VisibleAfter(s.sets, c.phase.set_, DailySet(c.slot, c.phase.rows, c.picked), s.callers[q].slot);
  }

  lemma NewSetKeepsSets(sets: map<SetId, DailySet>, gone: set<Question>, id: SetId, slot: Slot, picked: seq<Pick>)
    requires OnePerSlot(sets) && Complete(sets, gone) && !Visible(sets, slot)
    requires Kept(RowsFor(picked, |picked|), gone) == RowsFor(picked, |picked|)
    ensures var next := sets[id := DailySet(slot, RowsFor(picked, |picked|), picked)];
            OnePerSlot(next) && Complete(next, gone)
  {
    assert forall k :: k in sets ==> sets[k].slot != slot;
  }

  lemma VisibleAfter(sets: map<SetId, DailySet>, id: SetId, made: DailySet, slot: Slot)
    requires id !in sets
    ensures Visible(sets[id := made], slot) <==> Visible(sets, slot) || made.slot == slot
  {
    if k :| k in sets && sets[k].slot == slot { assert k in sets[id := made] && sets[id := made][k].slot == slot; }
    if made.slot == slot { assert id in sets[id := made] && sets[id := made][id].slot == slot; }
  }

  lemma StepKeepsValid(s: State, step: Step)
    requires Valid(s)
    ensures Valid(Apply(s, step))
  {
    if step.Delete? {
      if !InUse(s, step.questions) { DeleteKeepsValid(s, step.questions); }
    } else if step.Ask? {
      AskKeepsValid(s, step.r, step.slot, step.picked);
    } else if step.r in s.callers {
      var r, c := step.r, s.callers[step.r];
      assert CallerOk(s.sets, s.nextId, s.gone, c);
      match step
      case LookUp(_) => if c.phase == Asked { GotoKeepsValid(s, r, if Visible(s.sets, c.slot) then Returned(Find(s.sets, c.slot)) else Missed); }
      case Insert(_) =>
        if c.phase == Missed && !Locked(s, c.slot, r) {
          if Visible(s.sets, c.slot) { GotoKeepsValid(s, r, Lost); } else { InsertKeepsValid(s, r); }
        }
      case WriteRow(_) => if c.phase.Inserted? && c.phase.next < |c.picked| { WriteKeepsValid(s, r); }
      case Commit(_) => if c.phase.Inserted? && c.phase.next == |c.picked| { CommitKeepsValid(s, r); }
      case Reread(_) => if c.phase == Lost { GotoKeepsValid(s, r, Returned(Find(s.sets, c.slot))); }
      case Abort(_) => if !c.phase.Returned? { GotoKeepsValid(s, r, Failed); }
    }
  }

  lemma DeleteKeepsValid(s: State, questions: set<Question>)
    requires Valid(s) && !InUse(s, questions)
    ensures Valid(Deleted(s, questions))
  {
    var t := Deleted(s, questions);
    forall id | id in t.sets
      ensures t.sets[id].rows == Kept(RowsFor(t.sets[id].picked, |t.sets[id].picked|), t.gone)
    {
      KeptTwice(RowsFor(s.sets[id].picked, |s.sets[id].picked|), s.gone, questions);
    }
    forall q | q in t.callers
      ensures CallerOk(t.sets, t.nextId, t.gone, t.callers[q])
      ensures t.callers[q].phase.Inserted? ==> !Visible(t.sets, t.callers[q].slot)
    {
      assert CallerOk(s.sets, s.nextId, s.gone, s.callers[q]);
      if Visible(s.sets, s.callers[q].slot) {
        var id :| id in s.sets && s.sets[id].slot == s.callers[q].slot;
        assert id in t.sets && t.sets[id].slot == t.callers[q].slot;
      }
    }
  }

  lemma AskKeepsValid(s: State, r: Request, slot: Slot, picked: seq<Pick>)
    requires Valid(s)
    ensures Valid(Apply(s, Ask(r, slot, picked)))
  {
    var t := Apply(s, Ask(r, slot, picked));
    forall q | q in t.callers
      ensures CallerOk(t.sets, t.nextId, t.gone, t.callers[q])
    {
      assert q in s.callers ==> CallerOk(s.sets, s.nextId, s.gone, s.callers[q]);
    }
  }

  lemma {:induction false} RunKeepsValid(steps: seq<Step>)
    ensures Valid(Run(steps))
  {
    if steps != [] {
      RunKeepsValid(steps[..|steps| - 1]);
      StepKeepsValid(Run(steps[..|steps| - 1]), steps[|steps| - 1]);
    }
  }

  // ---------------------------------------------------------------- main results

  /** For any interleaving of requests, commits and rollbacks, at most one set per user, goal
      and date is ever committed. */
  lemma AtMostOneSetPerSlot(steps: seq<Step>, a: SetId, b: SetId)
    requires var s := Run(steps); a in s.sets && b in s.sets && s.sets[a].slot == s.sets[b].slot
    ensures a == b
  {
    RunKeepsValid(steps);
  }

  /** Every caller that gets an answer gets the committed set of its slot, and so the same id as
      every other caller of that slot. All of its questions are written, except those deleted
      since: the set is complete iff none of them has been. */
  lemma CallersGetTheCompleteSet(steps: seq<Step>, p: Request, q: Request)
    requires var s := Run(steps);
             p in s.callers && q in s.callers && s.callers[p].phase.Returned? && s.callers[q].phase.Returned?
    ensures var s := Run(steps);
            var id := s.callers[p].phase.id;
            && id in s.sets && s.sets[id].slot == s.callers[p].slot
            && var all := RowsFor(s.sets[id].picked, |s.sets[id].picked|);
            && s.sets[id].rows == Kept(all, s.gone)
            && (s.sets[id].rows == all <==> Clear(all, s.gone))
            && (s.callers[q].slot == s.callers[p].slot ==> s.callers[q].phase.id == id)
  {
    var s := Run(steps);
    RunKeepsValid(steps);
    assert CallerOk(s.sets, s.nextId, s.gone, s.callers[p]);
    assert CallerOk(s.sets, s.nextId, s.gone, s.callers[q]);
    var id := s.callers[p].phase.id;
    KeptAllIff(RowsFor(s.sets[id].picked, |s.sets[id].picked|), s.gone);
  }

  /** Exactly when a step changes the rows of a committed set: when it deletes a question that is
      among them. */
  lemma SetChangesIff(s: State, step: Step, id: SetId)
    requires Valid(s) && id in s.sets
    ensures id in Apply(s, step).sets && Apply(s, step).sets[id].slot == s.sets[id].slot
    ensures Apply(s, step).sets[id].picked == s.sets[id].picked
    ensures Apply(s, step).sets[id].rows != s.sets[id].rows <==>
              step.Delete? && !InUse(s, step.questions) && !Clear(s.sets[id].rows, step.questions)
  {
    if step.Delete? {
      KeptAllIff(s.sets[id].rows, step.questions);
    } else if !step.Ask? && step.r in s.callers {
      assert CallerOk(s.sets, s.nextId, s.gone, s.callers[step.r]);
    }
  }

  lemma StepKeepsAnswers(s: State, step: Step, p: Request)
    requires p in s.callers && s.callers[p].phase.Returned?
    ensures p in Apply(s, step).callers && Apply(s, step).callers[p] == s.callers[p]
  {
  }

  /** A given answer is final, and so is a committed set, whatever happens later, except that the
      rows of questions deleted by then are gone. */
  lemma {:induction false} AnswersAreFinal(steps: seq<Step>, more: seq<Step>, p: Request, id: SetId)
    ensures id in Run(steps).sets ==>
              var before, after := Run(steps), Run(steps + more);
              && id in after.sets && after.sets[id].slot == before.sets[id].slot && after.sets[id].picked == before.sets[id].picked
              && after.sets[id].rows == Kept(before.sets[id].rows, after.gone)
    ensures p in Run(steps).callers && Run(steps).callers[p].phase.Returned? ==>
              p in Run(steps + more).callers && Run(steps + more).callers[p] == Run(steps).callers[p]
    decreases |more|
  {
    RunKeepsValid(steps);
    RunKeepsValid(steps + more);
    if more == [] {
      assert steps + more == steps;
      if id in Run(steps).sets { KeptAgain(Run(steps), Run(steps), id); }
    } else {
      var init, step := more[..|more| - 1], more[|more| - 1];
      assert (steps + more)[..|steps + more| - 1] == steps + init;
      AnswersAreFinal(steps, init, p, id);
      RunKeepsValid(steps + init);
      var mid := Run(steps + init);
      if p in mid.callers && mid.callers[p].phase.Returned? { StepKeepsAnswers(mid, step, p); }
      GoneGrows(mid, step);
      GoneGrowsFrom(steps, init);
      if id in Run(steps).sets {
        SetChangesIff(mid, step, id);
        KeptAgain(Run(steps), Run(steps + more), id);
      }
    }
  }

  lemma GoneGrows(s: State, step: Step)
    ensures s.gone <= Apply(s, step).gone
  {
  }

  lemma {:induction false} GoneGrowsFrom(steps: seq<Step>, more: seq<Step>)
    ensures Run(steps).gone <= Run(steps + more).gone
    decreases |more|
  {
    if more == [] {
      assert steps + more == steps;
    } else {
      var init, step := more[..|more| - 1], more[|more| - 1];
      assert (steps + more)[..|steps + more| - 1] == steps + init;
      GoneGrowsFrom(steps, init);
      GoneGrows(Run(steps + init), step);
    }
  }

  /** What was picked decides the rows, now and later. */
  lemma KeptAgain(s: State, t: State, id: SetId)
    requires Valid(s) && Valid(t) && s.gone <= t.gone && id in s.sets && id in t.sets && t.sets[id].picked == s.sets[id].picked
    ensures t.sets[id].rows == Kept(s.sets[id].rows, t.gone)
  {
    KeptTwice(RowsFor(s.sets[id].picked, |s.sets[id].picked|), s.gone, t.gone);
    assert s.gone + t.gone == t.gone;
  }

  /** The request that lost the race always finds the winner's set. */
  lemma LoserFindsTheSet(steps: seq<Step>, r: Request)
    requires var s := Run(steps); r in s.callers && s.callers[r].phase == Lost
    ensures Apply(Run(steps), Reread(r)).callers[r].phase.Returned?
  {
    RunKeepsValid(steps);
    assert CallerOk(Run(steps).sets, Run(steps).nextId, Run(steps).gone, Run(steps).callers[r]);
  }

  /** A committed set holds exactly the picked questions with a number for an id, each at its
      place. */
  lemma {:induction false} RowsForHas(picked: seq<Pick>, n: nat, row: Row)
    requires n <= |picked|
    ensures row in RowsFor(picked, n) <==> 1 <= row.order <= n && picked[row.order - 1] == Some(row.question)
  {
    if n > 0 {
      RowsForHas(picked, n - 1, row);
    }
  }

  /** ... in the order of their places. */
  lemma {:induction false} RowsForAscend(picked: seq<Pick>, n: nat)
    requires n <= |picked|
    ensures forall a, b :: 0 <= a < b < |RowsFor(picked, n)| ==> RowsFor(picked, n)[a].order < RowsFor(picked, n)[b].order
  {
    if n > 0 {
      RowsForAscend(picked, n - 1);
      forall row | row in RowsFor(picked, n - 1)
        ensures row.order < n
      {
        RowsForHas(picked, n - 1, row);
      }
    }
  }

  lemma StepKeepsCallers(s: State, step: Step, r: Request)
    requires r in Apply(s, step).callers
    ensures var c := Apply(s, step).callers[r];
            if r in s.callers then c.slot == s.callers[r].slot && c.picked == s.callers[r].picked else step == Ask(r, c.slot, c.picked)
  {
  }

  /** A request stands for the slot and the selection it was made with ... */
  lemma {:induction false} CallerWasAsked(steps: seq<Step>, r: Request) returns (i: nat)
    requires r in Run(steps).callers
    ensures i < |steps| && steps[i] == Ask(r, Run(steps).callers[r].slot, Run(steps).callers[r].picked)
  {
    var init, last := steps[..|steps| - 1], steps[|steps| - 1];
    StepKeepsCallers(Run(init), last, r);
    if r in Run(init).callers {
      i := CallerWasAsked(init, r);
    } else {
      i := |init|;
    }
  }

  lemma StepMakesSet(s: State, step: Step, id: SetId)
    requires id in Apply(s, step).sets && !(id in s.sets && s.sets[id].slot == Apply(s, step).sets[id].slot
                                           && s.sets[id].picked == Apply(s, step).sets[id].picked)
    ensures step.Commit? && step.r in s.callers && s.callers[step.r].slot == Apply(s, step).sets[id].slot
            && s.callers[step.r].picked == Apply(s, step).sets[id].picked
  {
  }

  /** ... and a committed set was picked by some request for its slot. */
  lemma {:induction false} SetWasAskedFor(steps: seq<Step>, id: SetId) returns (i: nat)
    requires id in Run(steps).sets
    ensures i < |steps| && steps[i].Ask? && steps[i].slot == Run(steps).sets[id].slot && steps[i].picked == Run(steps).sets[id].picked
  {
    var init, last := steps[..|steps| - 1], steps[|steps| - 1];
    var s, t := Run(init), Run(steps);
    if id in s.sets && s.sets[id].slot == t.sets[id].slot && s.sets[id].picked == t.sets[id].picked {
      i := SetWasAskedFor(init, id);
    } else {
      StepMakesSet(s, last, id);
      i := CallerWasAsked(init, last.r);
    }
  }

  // ---------------------------------------------------------------- one request on its own

  /** How far the question loop gets: to the write that fails, or through. */
  function Reached(picked: seq<Pick>, failing: Option<nat>): nat {
    if failing.Some? then failing.value else |picked|
  }

  /** What an undisturbed request that has to generate the set does. `failing` is the question
      whose row cannot be written, if there is one. */
  function GenerateSteps(r: Request, picked: seq<Pick>, failing: Option<nat>, committed: bool): seq<Step> {
    WriteSteps(r, Reached(picked, failing)) + [if failing.None? && committed then Commit(r) else Abort(r)]
  }

  /** The insert of the set and n turns of the question loop. */
  function WriteSteps(r: Request, n: nat): seq<Step> {
    if n == 0 then [Insert(r)] else WriteSteps(r, n - 1) + [WriteRow(r)]
  }

  /** Nothing before the failing question refers to a deleted one; if nothing fails, none does. */
  ghost predicate FailingWrite(picked: seq<Pick>, failing: Option<nat>, gone: set<Question>) {
    && (failing.Some? ==> failing.value < |picked| && picked[failing.value].Some?)
    && forall i :: 0 <= i < |picked| && i < Reached(picked, failing) ==> MayWrite(picked[i], gone)
  }

  ghost function AfterGenerate(s: State, r: Request, failing: Option<nat>, committed: bool): State
    requires r in s.callers
  {
    var c := s.callers[r];
    var done := failing.None? && committed;
    State(if done then s.sets[s.nextId := DailySet(c.slot, RowsFor(c.picked, |c.picked|), c.picked)] else s.sets,
          s.callers[r := c.(phase := if done then Returned(s.nextId) else Failed)],
          s.nextId + 1, s.gone)
  }

  lemma RunNext(s: State, steps: seq<Step>, step: Step)
    ensures RunFrom(s, steps + [step]) == Apply(RunFrom(s, steps), step)
  {
    assert (steps + [step])[..|steps|] == steps;
  }

  /** The open transaction after n questions. */
  ghost function Writing(s: State, r: Request, n: nat): State
    requires r in s.callers && n <= |s.callers[r].picked|
  {
    Goto(s.(nextId := s.nextId + 1), r, Inserted(s.nextId, n, RowsFor(s.callers[r].picked, n)))
  }

  ghost predicate MayInsert(s: State, r: Request) {
    r in s.callers && s.callers[r].phase == Missed && !Locked(s, s.callers[r].slot, r) && !Visible(s.sets, s.callers[r].slot)
  }

  lemma OneMoreWrite(s: State, r: Request, n: nat)
    requires r in s.callers && 0 < n <= |s.callers[r].picked| && MayWrite(s.callers[r].picked[n - 1], s.gone)
    ensures Apply(Writing(s, r, n - 1), WriteRow(r)) == Writing(s, r, n)
  {
    var t := Writing(s, r, n - 1);
    assert t.callers[r].phase.rows + (if t.callers[r].picked[n - 1].Some? then [Row(t.callers[r].picked[n - 1].value, n)] else [])
           == RowsFor(s.callers[r].picked, n);
  }

  lemma InsertRun(s: State, r: Request)
    requires MayInsert(s, r)
    ensures RunFrom(s, [Insert(r)]) == Writing(s, r, 0)
  {
    RunNext(s, [], Insert(r));
    assert [Insert(r)] == [] + [Insert(r)];
  }

  lemma {:induction false} WritesRun(s: State, r: Request, n: nat)
    requires MayInsert(s, r) && n <= |s.callers[r].picked|
    requires forall i :: 0 <= i < n ==> MayWrite(s.callers[r].picked[i], s.gone)
    ensures RunFrom(s, WriteSteps(r, n)) == Writing(s, r, n)
  {
    if n == 0 {
      InsertRun(s, r);
    } else {
      WritesRun(s, r, n - 1);
      RunNext(s, WriteSteps(r, n - 1), WriteRow(r));
      OneMoreWrite(s, r, n);
    }
  }

  lemma LastStep(s: State, r: Request, failing: Option<nat>, committed: bool)
    requires r in s.callers && FailingWrite(s.callers[r].picked, failing, s.gone)
    ensures Apply(Writing(s, r, Reached(s.callers[r].picked, failing)), if failing.None? && committed then Commit(r) else Abort(r)) ==
            AfterGenerate(s, r, failing, committed)
  {
  }

  /** The code of generateDailySet, undisturbed, is a run of the machine. */
  lemma GenerateIsRun(s: State, r: Request, failing: Option<nat>, committed: bool)
    requires MayInsert(s, r) && FailingWrite(s.callers[r].picked, failing, s.gone)
    ensures RunFrom(s, GenerateSteps(r, s.callers[r].picked, failing, committed)) == AfterGenerate(s, r, failing, committed)
  {
    var n := Reached(s.callers[r].picked, failing);
    WritesRun(s, r, n);
    LastStep(s, r, failing, committed);
    RunNext(s, WriteSteps(r, n), if failing.None? && committed then Commit(r) else Abort(r));
  }

  /** A request that finds its set asks and looks up; one that does not goes on to generate it. */
  lemma EnsureStarts(s: State, r: Request, slot: Slot, picked: seq<Pick>)
    requires Valid(s) && r !in s.callers
    ensures RunFrom(s, [Ask(r, slot, picked), LookUp(r)]) ==
            s.(callers := s.callers[r := Caller(slot, picked, if Visible(s.sets, slot) then Returned(Find(s.sets, slot)) else Missed)])
    ensures forall id :: id in s.sets && s.sets[id].slot == slot ==> id == Find(s.sets, slot)
  {
    RunNext(s, [], Ask(r, slot, picked));
    RunNext(s, [Ask(r, slot, picked)], LookUp(r));
    assert [] + [Ask(r, slot, picked)] == [Ask(r, slot, picked)];
    assert [Ask(r, slot, picked)] + [LookUp(r)] == [Ask(r, slot, picked), LookUp(r)];
  }

  lemma {:induction false} RunAppend(s: State, steps: seq<Step>, more: seq<Step>)
    ensures RunFrom(s, steps + more) == RunFrom(RunFrom(s, steps), more)
    decreases |more|
  {
    if more == [] {
      assert steps + more == steps;
    } else {
      assert (steps + more)[..|steps + more| - 1] == steps + more[..|more| - 1];
      RunAppend(s, steps, more[..|more| - 1]);
    }
  }

  /** A whole request on its own, as steps: ask, look up and, if there is no set yet, insert,
      write the questions, and commit or roll back. */
  lemma RequestIsRun(s: State, r: Request, slot: Slot, picked: seq<Pick>, failing: Option<nat>, committed: bool)
    requires Valid(s) && r !in s.callers && !Locked(s, slot, r) && !Visible(s.sets, slot)
    requires FailingWrite(picked, failing, s.gone)
    ensures RunFrom(s, [Ask(r, slot, picked), LookUp(r)] + GenerateSteps(r, picked, failing, committed)) ==
            AfterGenerate(s.(callers := s.callers[r := Caller(slot, picked, Missed)]), r, failing, committed)
  {
    var missed := s.(callers := s.callers[r := Caller(slot, picked, Missed)]);
    EnsureStarts(s, r, slot, picked);
    RunAppend(s, [Ask(r, slot, picked), LookUp(r)], GenerateSteps(r, picked, failing, committed));
    GenerateIsRun(missed, r, failing, committed);
  }

  /** How a set that was complete comes to be served incomplete, from any state: one of its
      questions is deleted, and a later caller looks it up. */
  lemma IncompleteSetIsServed(s: State, id: SetId, row: Row, r: Request, picked: seq<Pick>)
    requires Valid(s) && id in s.sets && row in s.sets[id].rows && !InUse(s, {row.question}) && r !in s.callers
    ensures var t := RunFrom(s, [Delete({row.question})] + [Ask(r, s.sets[id].slot, picked), LookUp(r)]);
            && r in t.callers && t.callers[r].phase == Returned(id) && id in t.sets && t.sets[id].picked == s.sets[id].picked
            && |t.sets[id].rows| < |s.sets[id].rows| && t.sets[id].rows != RowsFor(t.sets[id].picked, |t.sets[id].picked|)
  {
    var slot, gone := s.sets[id].slot, {row.question};
    var t := Apply(s, Delete(gone));
    RunNext(s, [], Delete(gone));
    assert [] + [Delete(gone)] == [Delete(gone)];
    RunAppend(s, [Delete(gone)], [Ask(r, slot, picked), LookUp(r)]);
    StepKeepsValid(s, Delete(gone));
    EnsureStarts(t, r, slot, picked);
    assert id in t.sets && t.sets[id].slot == slot;
    assert Visible(t.sets, slot);
    KeptAllIff(s.sets[id].rows, gone);
    KeptShorter(s.sets[id].rows, gone);
    KeptShorterThanAll(s, id);
  }

  lemma {:induction false} KeptShorter(rows: seq<Row>, gone: set<Question>)
    ensures |Kept(rows, gone)| <= |rows|
    ensures |Kept(rows, gone)| == |rows| ==> Kept(rows, gone) == rows
  {
    if rows != [] {
      KeptShorter(rows[..|rows| - 1], gone);
    }
  }

  lemma KeptShorterThanAll(s: State, id: SetId)
    requires Valid(s) && id in s.sets
    ensures |s.sets[id].rows| <= |RowsFor(s.sets[id].picked, |s.sets[id].picked|)|
  {
    KeptShorter(RowsFor(s.sets[id].picked, |s.sets[id].picked|), s.gone);
  }

  /** Such a state is reached by one request. */
  lemma SetIsMade(r: Request, slot: Slot, q: Question, picked: seq<Pick>)
    requires picked == [Some(q)]
    ensures var s := Run([Ask(r, slot, picked), LookUp(r)] + GenerateSteps(r, picked, None, true));
            && Valid(s) && 1 in s.sets && s.sets[1] == DailySet(slot, [Row(q, 1)], picked) && !InUse(s, {q}) && s.callers.Keys == {r}
  {
    var none := State(map[], map[], 1, {});
    var made := [Ask(r, slot, picked), LookUp(r)] + GenerateSteps(r, picked, None, true);
    RunKeepsValid([]);
    RunKeepsValid(made);
    assert Run([]) == none;
    RequestIsRun(none, r, slot, picked, None, true);
    OneRow(picked, q);
    AfterMaking(none.(callers := none.callers[r := Caller(slot, picked, Missed)]), r, q);
  }

  lemma OneRow(picked: seq<Pick>, q: Question)
    requires picked == [Some(q)]
    ensures RowsFor(picked, |picked|) == [Row(q, 1)]
  {
    assert RowsFor(picked, 0) == [];
  }

  lemma AfterMaking(s: State, r: Request, q: Question)
    requires s.callers.Keys == {r} && s.nextId == 1 && s.sets == map[] && RowsFor(s.callers[r].picked, |s.callers[r].picked|) == [Row(q, 1)]
    ensures var t := AfterGenerate(s, r, None, true);
            && 1 in t.sets && t.sets[1] == DailySet(s.callers[r].slot, [Row(q, 1)], s.callers[r].picked)
            && !InUse(t, {q}) && t.callers.Keys == {r}
  {
  }

  lemma ClearRows(picked: seq<Pick>, n: nat, gone: set<Question>)
    requires n <= |picked| && forall i :: 0 <= i < n ==> MayWrite(picked[i], gone)
    ensures Kept(RowsFor(picked, n), gone) == RowsFor(picked, n)
  {
    forall row | row in RowsFor(picked, n)
      ensures row.question !in gone
    {
      RowsForHas(picked, n, row);
    }
    KeptAllIff(RowsFor(picked, n), gone);
  }

  /** A request in tables of its own. */
  lemma GeneratedTables(sets: map<SetId, DailySet>, nextId: SetId, gone: set<Question>, r: Request, slot: Slot, picked: seq<Pick>,
                        failing: Option<nat>, committed: bool)
    ensures var done := failing.None? && committed;
            AfterGenerate(State(sets, map[r := Caller(slot, picked, Missed)], nextId, gone), r, failing, committed) ==
            State(if done then sets[nextId := DailySet(slot, RowsFor(picked, |picked|), picked)] else sets,
                  map[r := Caller(slot, picked, if done then Returned(nextId) else Failed)], nextId + 1, gone)
  {
    assert map[r := Caller(slot, picked, Missed)][r := Caller(slot, picked, Failed)] == map[r := Caller(slot, picked, Failed)];
  }

  class PracticeTables {
    var sets: map<SetId, DailySet>
    var nextId: SetId
    ghost var gone: set<Question>

    constructor ()
      ensures Valid() && sets == map[]
    {
      sets, nextId, gone := map[], 1, {};
    }

    ghost predicate Valid()
      reads this
    {
      OnePerSlot(sets) && Complete(sets, gone) && forall id :: id in sets ==> id < nextId
    }

    /** The tables as the machine's state, with one request in it. */
    ghost function With(r: Request, slot: Slot, picked: seq<Pick>, phase: Phase): State
      reads this
    {
      State(sets, map[r := Caller(slot, picked, phase)], nextId, gone)
    }

    /** `found` is the SELECT's row; `r` is any name for the request. */
    method EnsureTodaySet(ghost r: Request, slot: Slot, found: Option<SetId>, picked: seq<Pick>, failing: Option<nat>, committed: bool)
      returns (result: Option<SetId>)
      requires Valid() && FailingWrite(picked, failing, gone)
      requires if found.Some? then found.value in sets && sets[found.value].slot == slot else !Visible(sets, slot)
      modifies this`sets, this`nextId
      ensures Valid()
      ensures result.Some? ==> result.value in sets && sets[result.value].slot == slot
      ensures found.Some? ==> result == found && sets == old(sets) && nextId == old(nextId)
      ensures found.None? ==> With(r, slot, picked, if result.Some? then Returned(result.value) else Failed) ==
                              AfterGenerate(old(With(r, slot, picked, Missed)), r, failing, committed)
    {
      if found.Some? { return found; }
      GeneratedTables(sets, nextId, gone, r, slot, picked, failing, committed);
      result := GenerateDailySet(slot, picked, failing, committed);
    }

    /** The transaction. */
    method GenerateDailySet(slot: Slot, picked: seq<Pick>, failing: Option<nat>, committed: bool) returns (result: Option<SetId>)
      requires Valid() && !Visible(sets, slot) && FailingWrite(picked, failing, gone)
      modifies this`sets, this`nextId
      ensures Valid()
      ensures result == (if failing.None? && committed then Some(old(nextId)) else None)
      ensures nextId == old(nextId) + 1
      ensures sets == if result.Some? then old(sets)[result.value := DailySet(slot, RowsFor(picked, |picked|), picked)] else old(sets)
    {
      var id := nextId;
      nextId := nextId + 1;
      var rows := [];
      var i := 0;
      while i < |picked|
        invariant 0 <= i <= |picked| && (failing.Some? ==> i <= failing.value)
        invariant rows == RowsFor(picked, i)
        invariant sets == old(sets) && nextId == old(nextId) + 1
      {
        if picked[i].Some? {
          if failing == Some(i) { return None; }
          rows := rows + [Row(picked[i].value, i + 1)];
        }
        i := i + 1;
      }
      if !committed { return None; }
      ClearRows(picked, |picked|, gone);
      NewSetKeepsSets(sets, gone, id, slot, picked);
      sets := sets[id := DailySet(slot, rows, picked)];
      return Some(id);
    }
  }
}
