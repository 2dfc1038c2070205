/** Webhooks and checkout completions interleaved at every statement: the event row, the look-up
    of the order, the guarded UPDATE of the payment, the upsert of the subscription and the mark
    on the event are separate and take no lock (billing/webhook.go:38-118, 162-207,
    billing/dev_checkout.go:26-43, billing/repository.go:138-171). */
module BillingCalls {
  import opened Common
  import opened Subscriptions
  import opened B = Billing

  type CallId = nat

  /** Where a call is: its event is recorded, it has read the payment row, it has marked the
      payment, or only the mark on its event is left. */
  datatype Phase =
    | Begun
    | Loaded(row: Payment)
    | Marking(row: Payment)
    | Closing

  /** `what` is the call as `Billing.Step` describes it. */
  datatype Call = Call(what: B.Step, phase: Phase)

  datatype System = System(b: B.State, calls: map<CallId, Call>)

  datatype Act =
    | NewOrder(order: Order, user: User, plan: Plan)
    | Begin(r: CallId, what: B.Step)
    | Settle(r: CallId)               // events without an order
    | Load(r: CallId)
    | Mark(r: CallId)
    | Extend(r: CallId, at: Time)
    | Close(r: CallId)
    | Abort(r: CallId)                // a statement fails, or the process stops

  // ---------------------------------------------------------------- what a call is about

  function EventOf(what: B.Step): Option<EventId> {
    match what
    case RazorpayWebhook(event, _, _) => Some(event)
    case PayUWebhook(txn, _, _) => Some(txn)
    case _ => None
  }

  function OrderOf(what: B.Step): Option<Order> {
    match what
    case RazorpayWebhook(_, PaymentCaptured(Some(id)), _) => Some(Order(Razorpay, id))
    case RazorpayWebhook(_, PaymentFailed(Some(id)), _) => Some(Order(Razorpay, id))
    case PayUWebhook(txn, _, _) => Some(Order(PayU, txn))
    case DevComplete(_, id, _) => Some(Order(Razorpay, id))
    case _ => None
  }

  predicate Completes(what: B.Step) {
    what.DevComplete? || (what.PayUWebhook? && what.status == Success) || (what.RazorpayWebhook? && what.body.PaymentCaptured?)
  }

  predicate Fails(what: B.Step) {
    (what.PayUWebhook? && what.status == Failure) || (what.RazorpayWebhook? && what.body.PaymentFailed?)
  }

  // ---------------------------------------------------------------- statements

  function Goto(s: System, r: CallId, phase: Phase): System
    requires r in s.calls
  {
    s.(calls := s.calls[r := s.calls[r].(phase := phase)])
  }

  function End(s: System, r: CallId): System {
    s.(calls := s.calls - {r})
  }

  /** EventExists and the INSERT under the unique index: the first call takes the event. */
  function Begins(s: System, r: CallId, what: B.Step): System {
    match EventOf(what)
    case None => if what.DevComplete? && r !in s.calls then s.(calls := s.calls[r := Call(what, Begun)]) else s
    case Some(event) =>
      if r in s.calls || event == 0 || event in s.b.events then s
      else System(Recorded(s.b, event), s.calls[r := Call(what, Begun)])
  }

  /** What the look-up of the order makes of the call; None when it returns an error or has
      nothing left to do. */
  function AfterLoad(b: B.State, what: B.Step): Option<Phase> {
    var order := OrderOf(what);
    if order.None? || order.value !in b.payments then None
    else
      var row := b.payments[order.value];
      if what.DevComplete? && (row.user != what.user || row.status == Completed) then None
      else if !Completes(what) && !Fails(what) then Some(Closing)
      else if what.RazorpayWebhook? && Completes(what) && row.status == Completed then Some(Closing)
      else Some(Loaded(row))
  }

  function Loads(s: System, r: CallId): System
    requires r in s.calls
  {
    match AfterLoad(s.b, s.calls[r].what)
    case None => End(s, r)
    case Some(phase) => Goto(s, r, phase)
  }

  function Settles(s: System, r: CallId): System
    requires r in s.calls
  {
    match s.calls[r].what
    case RazorpayWebhook(_, SubscriptionCancelled(Some(user)), _) => Goto(s.(b := Cancel(s.b, user)), r, Closing)
    case RazorpayWebhook(_, PaymentCaptured(None), _) => End(s, r)
    case RazorpayWebhook(_, PaymentFailed(None), _) => End(s, r)
    case _ => Goto(s, r, Closing)
  }

  function MarkedAs(b: B.State, k: Order, status: PaymentStatus): B.State
    requires k in b.payments
  {
    b.(payments := b.payments[k := Marked(b.payments[k], status)])
  }

  function Extended(b: B.State, k: Order, row: Payment, at: Time): B.State {
    b.(subs := Upserted(b.subs, row.user, row.plan, at, b.month), log := b.log + [Bought(row.user, k, at)])
  }

  function Marks(s: System, r: CallId): System
    requires r in s.calls && s.calls[r].phase.Loaded?
  {
    var c := s.calls[r];
    var order := OrderOf(c.what);
    if order.None? || order.value !in s.b.payments then s
    else
      Goto(s.(b := MarkedAs(s.b, order.value, if Completes(c.what) then Completed else Failed)), r,
           if Completes(c.what) then Marking(c.phase.row) else Closing)
  }

  function Extends(s: System, r: CallId, at: Time): System
    requires r in s.calls && s.calls[r].phase.Marking?
  {
    var c := s.calls[r];
    var order := OrderOf(c.what);
    if order.None? then s else Goto(s.(b := Extended(s.b, order.value, c.phase.row, at)), r, Closing)
  }

  function Closes(s: System, r: CallId): System
    requires r in s.calls
  {
    match EventOf(s.calls[r].what)
    case None => End(s, r)
    case Some(event) => End(s.(b := s.b.(events := s.b.events[event := true])), r)
  }

  predicate At(s: System, r: CallId, phase: Phase) {
    r in s.calls && s.calls[r].phase == phase
  }

  function Do(s: System, act: Act): System {
    match act
    case NewOrder(k, user, plan) =>
      if k in s.b.payments then s else s.(b := s.b.(payments := s.b.payments[k := Payment(user, plan, Pending)]))
    case Begin(r, what) => Begins(s, r, what)
    case Settle(r) => if At(s, r, Begun) && OrderOf(s.calls[r].what).None? then Settles(s, r) else s
    case Load(r) => if At(s, r, Begun) && OrderOf(s.calls[r].what).Some? then Loads(s, r) else s
    case Mark(r) => if r in s.calls && s.calls[r].phase.Loaded? then Marks(s, r) else s
    case Extend(r, at) => if r in s.calls && s.calls[r].phase.Marking? then Extends(s, r, at) else s
    case Close(r) => if At(s, r, Closing) then Closes(s, r) else s
    case Abort(r) => End(s, r)
  }

  function RunCalls(s: System, acts: seq<Act>): System {
    if acts == [] then s else Do(RunCalls(s, acts[..|acts| - 1]), acts[|acts| - 1])
  }

  function Start(month: nat): System {
    System(New(month), map[])
  }

  // ---------------------------------------------------------------- what every step keeps

  ghost predicate CallOk(b: B.State, c: Call) {
    && (EventOf(c.what).Some? ==> EventOf(c.what).value in b.events)
    && (c.phase.Loaded? || c.phase.Marking? ==>
          && OrderOf(c.what).Some? && OrderOf(c.what).value in b.payments
          && b.payments[OrderOf(c.what).value].user == c.phase.row.user
          && b.payments[OrderOf(c.what).value].plan == c.phase.row.plan)
    && (c.phase.Loaded? ==> Completes(c.what) || Fails(c.what))
    && (c.phase.Loaded? && Completes(c.what) && OrderOf(c.what).value.provider == Razorpay ==> c.phase.row.status != Completed)
    && (c.phase.Marking? ==> Completes(c.what) && b.payments[OrderOf(c.what).value].status != Pending)
  }

  ghost predicate CallsOk(s: System) {
    && (forall r :: r in s.calls ==> CallOk(s.b, s.calls[r]))
    && forall r, q :: r in s.calls && q in s.calls && EventOf(s.calls[r].what).Some? && EventOf(s.calls[r].what) == EventOf(s.calls[q].what) ==>
         r == q
  }

  /** An order that is pending, or not known, has extended nothing. */
  ghost predicate PendingOk(b: B.State) {
    forall k :: k !in b.payments || b.payments[k].status == Pending ==> TimesBought(b.log, k) == 0
  }

  ghost predicate PayUCallOk(s: System, q: CallId)
    requires q in s.calls && s.calls[q].what.PayUWebhook?
  {
    var k := Order(PayU, s.calls[q].what.txn);
    && (!s.calls[q].phase.Closing? ==> TimesBought(s.b.log, k) == 0)
    && (s.calls[q].phase.Begun? || s.calls[q].phase.Loaded? ==> k in s.b.payments ==> s.b.payments[k].status == Pending)
    && (s.calls[q].phase.Loaded? ==> s.calls[q].phase.row.status == Pending)
    && (s.calls[q].phase.Marking? ==> k in s.b.payments && s.b.payments[k].status == Completed)
  }

  /** PayU's single callback: the order is untouched until it is marked. */
  ghost predicate PayUOk(s: System) {
    && (forall k :: k in s.b.payments && k.provider == PayU && k.id !in s.b.events ==> s.b.payments[k].status == Pending)
    && (forall k :: k in s.b.payments && k.provider == PayU && s.b.payments[k].status == Failed ==> TimesBought(s.b.log, k) == 0)
    && forall r :: r in s.calls && s.calls[r].what.PayUWebhook? ==> PayUCallOk(s, r)
  }

  ghost predicate SystemOk(s: System) {
    CallsOk(s) && PendingOk(s.b) && PayUOk(s) && SubsOk(s.b) && LogOwned(s.b.payments, s.b.log)
  }

  /** Tables only move forward: orders keep their user and plan, statuses leave `pending` once,
      event rows stay. */
  ghost predicate Later(b: B.State, t: B.State) {
    && b.events.Keys <= t.events.Keys
    && forall k :: k in b.payments ==>
         && k in t.payments && t.payments[k].user == b.payments[k].user && t.payments[k].plan == b.payments[k].plan
         && (b.payments[k].status != Pending ==> t.payments[k].status == b.payments[k].status)
  }

  lemma CallsAfter(s: System, b: B.State, r: CallId, phase: Phase)
    requires CallsOk(s) && Later(s.b, b) && r in s.calls && CallOk(b, s.calls[r].(phase := phase))
    ensures CallsOk(Goto(s.(b := b), r, phase))
  {
    forall q | q in s.calls
      ensures CallOk(b, s.calls[q])
    {
      assert CallOk(s.b, s.calls[q]);
    }
  }

  lemma CallsWithout(s: System, b: B.State, r: CallId)
    requires CallsOk(s) && Later(s.b, b)
    ensures CallsOk(End(s.(b := b), r)) && CallsOk(s.(b := b))
  {
    forall q | q in s.calls
      ensures CallOk(b, s.calls[q])
    {
      assert CallOk(s.b, s.calls[q]);
    }
  }

  lemma BeginKeepsCalls(s: System, r: CallId, what: B.Step)
    requires CallsOk(s)
    ensures CallsOk(Begins(s, r, what))
  {
    var t := Begins(s, r, what);
    forall q | q in t.calls
      ensures CallOk(t.b, t.calls[q])
    {
      if q in s.calls { assert CallOk(s.b, s.calls[q]); }
    }
  }

  lemma LoadKeepsCalls(s: System, r: CallId)
    requires CallsOk(s) && r in s.calls
    ensures CallsOk(Loads(s, r))
  {
    assert CallOk(s.b, s.calls[r]);
    match AfterLoad(s.b, s.calls[r].what)
    case None => CallsWithout(s, s.b, r);
    case Some(phase) => CallsAfter(s, s.b, r, phase);
  }

  lemma SettleKeepsCalls(s: System, r: CallId)
    requires CallsOk(s) && r in s.calls
    ensures CallsOk(Settles(s, r))
  {
    assert CallOk(s.b, s.calls[r]);
    match s.calls[r].what
    case RazorpayWebhook(_, SubscriptionCancelled(Some(user)), _) => CallsAfter(s, Cancel(s.b, user), r, Closing);
    case RazorpayWebhook(_, PaymentCaptured(None), _) => CallsWithout(s, s.b, r);
    case RazorpayWebhook(_, PaymentFailed(None), _) => CallsWithout(s, s.b, r);
    case _ => CallsAfter(s, s.b, r, Closing);
  }

  lemma MarkKeepsCalls(s: System, r: CallId)
    requires CallsOk(s) && r in s.calls && s.calls[r].phase.Loaded?
    ensures CallsOk(Marks(s, r))
  {
    var c := s.calls[r];
    assert CallOk(s.b, c);
    CallsAfter(s, MarkedAs(s.b, OrderOf(c.what).value, if Completes(c.what) then Completed else Failed), r,
               if Completes(c.what) then Marking(c.phase.row) else Closing);
  }

  lemma ExtendKeepsCalls(s: System, r: CallId, at: Time)
    requires CallsOk(s) && r in s.calls && s.calls[r].phase.Marking?
    ensures CallsOk(Extends(s, r, at))
  {
    var c := s.calls[r];
    assert CallOk(s.b, c);
    CallsAfter(s, Extended(s.b, OrderOf(c.what).value, c.phase.row, at), r, Closing);
  }

  lemma CloseKeepsCalls(s: System, r: CallId)
    requires CallsOk(s) && r in s.calls
    ensures CallsOk(Closes(s, r))
  {
    match EventOf(s.calls[r].what)
    case None => CallsWithout(s, s.b, r);
    case Some(event) => CallsWithout(s, s.b.(events := s.b.events[event := true]), r);
  }

  lemma ActKeepsCalls(s: System, act: Act)
    requires CallsOk(s)
    ensures CallsOk(Do(s, act))
  {
    match act
    case NewOrder(k, user, plan) =>
      if k !in s.b.payments { CallsWithout(s, s.b.(payments := s.b.payments[k := Payment(user, plan, Pending)]), 0); }
    case Begin(r, what) => BeginKeepsCalls(s, r, what);
    case Settle(r) => if r in s.calls { SettleKeepsCalls(s, r); }
    case Load(r) => if r in s.calls { LoadKeepsCalls(s, r); }
    case Mark(r) => if r in s.calls && s.calls[r].phase.Loaded? { MarkKeepsCalls(s, r); }
    case Extend(r, at) => if r in s.calls && s.calls[r].phase.Marking? { ExtendKeepsCalls(s, r, at); }
    case Close(r) => if r in s.calls { CloseKeepsCalls(s, r); }
    case Abort(r) => CallsWithout(s, s.b, r);
  }

  // ---------------------------------------------------------------- orders and subscriptions

  /** The order whose subscription a step extends. */
  ghost predicate ExtendsOrder(s: System, act: Act, k: Order) {
    act.Extend? && act.r in s.calls && s.calls[act.r].phase.Marking? && OrderOf(s.calls[act.r].what) == Some(k)
  }

  lemma ExtendLogs(b: B.State, k: Order, row: Payment, at: Time, j: Order)
    ensures TimesBought(Extended(b, k, row, at).log, j) == TimesBought(b.log, j) + if k == j then 1 else 0
  {
    LogGrows(b.log, Bought(row.user, k, at), j, 0);
  }

  lemma CancelLogs(b: B.State, user: User, j: Order)
    ensures TimesBought(Cancel(b, user).log, j) == TimesBought(b.log, j)
  {
    LogGrows(b.log, Dropped(user), j, 0);
  }

  /** The log grows by an extension or a cancellation, or not at all. */
  lemma ActLogs(s: System, act: Act, k: Order)
    ensures TimesBought(Do(s, act).b.log, k) == TimesBought(s.b.log, k) + if ExtendsOrder(s, act, k) then 1 else 0
  {
    match act
    case Extend(r, at) =>
      if r in s.calls && s.calls[r].phase.Marking? && OrderOf(s.calls[r].what).Some? {
        ExtendLogs(s.b, OrderOf(s.calls[r].what).value, s.calls[r].phase.row, at, k);
      }
    case Settle(r) =>
      if r in s.calls && s.calls[r].what.RazorpayWebhook? && s.calls[r].what.body.SubscriptionCancelled? && s.calls[r].what.body.user.Some? {
        CancelLogs(s.b, s.calls[r].what.body.user.value, k);
      }
    case _ =>
      assert Do(s, act).b.log == s.b.log;
  }

  /** Statuses change at marks only, and from `pending` only; users and plans never. */
  lemma ActStatus(s: System, act: Act, k: Order)
    ensures k in s.b.payments ==>
              && k in Do(s, act).b.payments && Do(s, act).b.payments[k].user == s.b.payments[k].user
              && Do(s, act).b.payments[k].plan == s.b.payments[k].plan
              && (Do(s, act).b.payments[k].status != s.b.payments[k].status ==>
                    s.b.payments[k].status == Pending && act.Mark? && act.r in s.calls && s.calls[act.r].phase.Loaded?
                    && OrderOf(s.calls[act.r].what) == Some(k))
    ensures k !in s.b.payments && k in Do(s, act).b.payments ==>
              Do(s, act).b.payments[k].status == Pending
              && act == NewOrder(k, Do(s, act).b.payments[k].user, Do(s, act).b.payments[k].plan)
    ensures s.b.events.Keys <= Do(s, act).b.events.Keys
  {
  }

  lemma ActKeepsPending(s: System, act: Act)
    requires CallsOk(s) && PendingOk(s.b)
    ensures PendingOk(Do(s, act).b)
  {
    var t := Do(s, act);
    forall k | k !in t.b.payments || t.b.payments[k].status == Pending
      ensures TimesBought(t.b.log, k) == 0
    {
      ActStatus(s, act, k);
      ActLogs(s, act, k);
      if act.Extend? && act.r in s.calls { assert CallOk(s.b, s.calls[act.r]); }
    }
  }

  lemma ActKeepsPayU(s: System, act: Act)
    requires CallsOk(s) && PendingOk(s.b) && PayUOk(s)
    ensures PayUOk(Do(s, act))
  {
    var t := Do(s, act);
    forall k | k in t.b.payments && k.provider == PayU && k.id !in t.b.events
      ensures t.b.payments[k].status == Pending
    {
      ActStatus(s, act, k);
      if act.Mark? && act.r in s.calls { assert CallOk(s.b, s.calls[act.r]); }
    }
    forall k | k in t.b.payments && k.provider == PayU && t.b.payments[k].status == Failed
      ensures TimesBought(t.b.log, k) == 0
    {
      ActStatus(s, act, k);
      ActLogs(s, act, k);
      if act.Extend? && act.r in s.calls && s.calls[act.r].what.PayUWebhook? { assert PayUCallOk(s, act.r); }
    }
    forall q | q in t.calls && t.calls[q].what.PayUWebhook?
      ensures PayUCallOk(t, q)
    {
      PayUCallAfter(s, act, q);
    }
  }

  /** A new call comes from `Begin`, an old one keeps its description, and only its own step
      moves it on. */
  lemma CallAfter(s: System, act: Act, q: CallId)
    requires q in Do(s, act).calls
    ensures q !in s.calls ==> act.Begin? && act.r == q && Do(s, act).calls[q] == Call(act.what, Begun)
                              && Do(s, act) == Begins(s, q, act.what)
    ensures q in s.calls ==> Do(s, act).calls[q].what == s.calls[q].what
    ensures q in s.calls && Do(s, act).calls[q] != s.calls[q] ==>
              (act.Settle? || act.Load? || act.Mark? || act.Extend?) && act.r == q
  {
  }

  lemma PayUCallAfter(s: System, act: Act, q: CallId)
    requires CallsOk(s) && PendingOk(s.b) && PayUOk(s)
    requires q in Do(s, act).calls && Do(s, act).calls[q].what.PayUWebhook?
    ensures PayUCallOk(Do(s, act), q)
  {
    var t := Do(s, act);
    var k := Order(PayU, t.calls[q].what.txn);
    CallAfter(s, act, q);
    ActStatus(s, act, k);
    ActLogs(s, act, k);
    if q in s.calls {
      assert PayUCallOk(s, q) && CallOk(s.b, s.calls[q]);
      if (act.Mark? || act.Extend?) && act.r in s.calls && OrderOf(s.calls[act.r].what) == Some(k) {
        assert act.r == q by {
          assert EventOf(s.calls[act.r].what) == EventOf(s.calls[q].what) == Some(s.calls[q].what.txn);
        }
      }
    }
  }

  // ---------------------------------------------------------------- subscriptions and the log

  lemma ExtendKeepsSubs(b: B.State, k: Order, row: Payment, at: Time)
    requires SubsOk(b)
    ensures SubsOk(Extended(b, k, row, at))
  {
    var t := Extended(b, k, row, at);
    forall u
      ensures SubOk(t.subs, t.log, t.month, u)
    {
      assert SubOk(b.subs, b.log, b.month, u);
      LogGrows(b.log, Bought(row.user, k, at), k, u);
      var times := Captures(b.log, u);
      assert u == row.user ==> Captures(t.log, u) == times + [at] && (times + [at])[..|times|] == times;
    }
  }

  lemma CancelKeepsSubs(b: B.State, user: User)
    requires SubsOk(b)
    ensures SubsOk(Cancel(b, user))
  {
    var t := Cancel(b, user);
    if t != b {
      forall u
        ensures SubOk(t.subs, t.log, t.month, u)
      {
        assert SubOk(b.subs, b.log, b.month, u);
        LogGrows(b.log, Dropped(user), Order(PayU, 0), u);
      }
    }
  }

  lemma SubsFrame(b: B.State, t: B.State)
    requires SubsOk(b) && t.subs == b.subs && t.log == b.log && t.month == b.month
    ensures SubsOk(t)
  {
    forall u
      ensures SubOk(t.subs, t.log, t.month, u)
    {
      assert SubOk(b.subs, b.log, b.month, u);
    }
  }

  lemma ActKeepsSubs(s: System, act: Act)
    requires SubsOk(s.b)
    ensures SubsOk(Do(s, act).b) && Do(s, act).b.month == s.b.month
  {
    match act
    case Extend(r, at) =>
      if r in s.calls && s.calls[r].phase.Marking? && OrderOf(s.calls[r].what).Some? {
        ExtendKeepsSubs(s.b, OrderOf(s.calls[r].what).value, s.calls[r].phase.row, at);
      }
    case Settle(r) =>
      if r in s.calls && s.calls[r].what.RazorpayWebhook? && s.calls[r].what.body.SubscriptionCancelled? && s.calls[r].what.body.user.Some? {
        CancelKeepsSubs(s.b, s.calls[r].what.body.user.value);
      }
    case _ => SubsFrame(s.b, Do(s, act).b);
  }

  /** A step appends at most one entry to the log, for an order of that user. */
  lemma ActAppends(s: System, act: Act)
    requires CallsOk(s)
    ensures var b, t := s.b, Do(s, act).b;
            t.log == b.log
            || exists e :: t.log == b.log + [e] && Owned(t.payments, e) && (e.Bought? ==> act.Extend? && e.at == act.at)
  {
    var t := Do(s, act).b;
    if act.Extend? && act.r in s.calls { assert CallOk(s.b, s.calls[act.r]); }
    if t.log != s.b.log {
      var e := t.log[|s.b.log|];
      assert t.log == s.b.log + [e];
    }
  }

  lemma ActKeepsOwned(s: System, act: Act)
    requires CallsOk(s) && LogOwned(s.b.payments, s.b.log)
    ensures LogOwned(Do(s, act).b.payments, Do(s, act).b.log)
  {
    var t := Do(s, act).b;
    ActAppends(s, act);
    forall i | 0 <= i < |s.b.log|
      ensures Owned(t.payments, s.b.log[i])
    {
      assert Owned(s.b.payments, s.b.log[i]);
      if s.b.log[i].Bought? { ActStatus(s, act, s.b.log[i].order); }
    }
  }

  lemma ActKeepsOk(s: System, act: Act)
    requires SystemOk(s)
    ensures SystemOk(Do(s, act)) && Do(s, act).b.month == s.b.month
  {
    ActKeepsCalls(s, act);
    ActKeepsPending(s, act);
    ActKeepsPayU(s, act);
    ActKeepsSubs(s, act);
    ActKeepsOwned(s, act);
  }

  lemma {:induction false} OkInEveryRun(month: nat, acts: seq<Act>)
    ensures SystemOk(RunCalls(Start(month), acts)) && RunCalls(Start(month), acts).b.month == month
  {
    if acts != [] {
      var before, act := RunCalls(Start(month), acts[..|acts| - 1]), acts[|acts| - 1];
      OkInEveryRun(month, acts[..|acts| - 1]);
      ActKeepsOk(before, act);
    }
  }

  // ---------------------------------------------------------------- whose plan a subscription has

  ghost predicate PlanOk(b: B.State, user: User) {
    var k := LastBought(b.log, user);
    if k.None? then user !in b.subs
    else
      && k.value in b.payments && b.payments[k.value].user == user
      && user in b.subs && b.subs[user].plan == b.payments[k.value].plan
  }

  lemma ExtendKeepsPlan(b: B.State, k: Order, row: Payment, at: Time, user: User)
    requires PlanOk(b, user) && k in b.payments && b.payments[k].user == row.user && b.payments[k].plan == row.plan
    ensures PlanOk(Extended(b, k, row, at), user)
  {
    LastBoughtNext(b.log, Bought(row.user, k, at), user);
  }

  lemma CancelKeepsPlan(b: B.State, dropped: User, user: User)
    requires PlanOk(b, user)
    ensures PlanOk(Cancel(b, dropped), user)
  {
    LastBoughtNext(b.log, Dropped(dropped), user);
  }

  /** Orders keep their user and plan. */
  lemma PlanFrame(b: B.State, t: B.State, user: User)
    requires PlanOk(b, user) && t.subs == b.subs && t.log == b.log && Later(b, t)
    ensures PlanOk(t, user)
  {
  }

  lemma ActKeepsPlan(s: System, act: Act, user: User)
    requires CallsOk(s) && PlanOk(s.b, user)
    ensures PlanOk(Do(s, act).b, user)
  {
    match act
    case Extend(r, at) =>
      if r in s.calls && s.calls[r].phase.Marking? {
        assert CallOk(s.b, s.calls[r]);
        ExtendKeepsPlan(s.b, OrderOf(s.calls[r].what).value, s.calls[r].phase.row, at, user);
      }
    case Settle(r) =>
      if r in s.calls && s.calls[r].what.RazorpayWebhook? && s.calls[r].what.body.SubscriptionCancelled? && s.calls[r].what.body.user.Some? {
        CancelKeepsPlan(s.b, s.calls[r].what.body.user.value, user);
      }
    case _ => PlanFrame(s.b, Do(s, act).b, user);
  }

  /** In every interleaving a user has a subscription exactly after buying one, and its plan is
      that of the order bought last. */
  lemma {:induction false} PlanIsLastBought(month: nat, acts: seq<Act>, user: User)
    ensures PlanOk(RunCalls(Start(month), acts).b, user)
  {
    if acts != [] {
      OkInEveryRun(month, acts[..|acts| - 1]);
      PlanIsLastBought(month, acts[..|acts| - 1], user);
      ActKeepsPlan(RunCalls(Start(month), acts[..|acts| - 1]), acts[|acts| - 1], user);
    }
  }

  /** ... and an order has the user and the plan it was placed with. */
  lemma {:induction false} OrderIsAsPlaced(month: nat, acts: seq<Act>, k: Order) returns (i: nat)
    requires k in RunCalls(Start(month), acts).b.payments
    ensures i < |acts| && k !in RunCalls(Start(month), acts[..i]).b.payments
    ensures var p := RunCalls(Start(month), acts).b.payments[k]; acts[i] == NewOrder(k, p.user, p.plan)
  {
    var init, act := acts[..|acts| - 1], acts[|acts| - 1];
    ActStatus(RunCalls(Start(month), init), act, k);
    if k in RunCalls(Start(month), init).b.payments {
      i := OrderIsAsPlaced(month, init, k);
      assert init[..i] == acts[..i];
    } else {
      i := |acts| - 1;
    }
  }

  // ---------------------------------------------------------------- every interleaving

  /** The end is the largest of t + k * month over the times, where k counts the one at t and the
      later ones. */
  ghost predicate LargestDemand(times: seq<Time>, month: nat, end: Time) {
    && (forall i :: 0 <= i < |times| ==> Demand(times, i, month) <= end)
    && exists i :: 0 <= i < |times| && Demand(times, i, month) == end
  }

  lemma EndsAtLargestDemand(times: seq<Time>, month: nat)
    requires times != []
    ensures LargestDemand(times, month, EndsAt(times, month))
  {
    EndIsLargestDemand(times, month);
  }

  /** Whatever calls were made and however they interleave, an active subscription ends at the
      largest demand of its captures since the last cancellation. */
  lemma ActiveEndIsLargestDemand(month: nat, acts: seq<Act>, user: User)
    requires var b := RunCalls(Start(month), acts).b; user in b.subs && b.subs[user].status == Active
    ensures var b := RunCalls(Start(month), acts).b; LargestDemand(Captures(b.log, user), month, b.subs[user].endsAt)
  {
    OkInEveryRun(month, acts);
    var b := RunCalls(Start(month), acts).b;
    assert SubOk(b.subs, b.log, b.month, user) && b.month == month;
    EndsAtLargestDemand(Captures(b.log, user), month);
  }

  /** The upserts run on a clock that does not go back. */
  ghost predicate ForwardClock(acts: seq<Act>, now: Time) {
    && (forall i :: 0 <= i < |acts| && acts[i].Extend? ==> acts[i].at <= now)
    && forall i, j :: 0 <= i < j < |acts| && acts[i].Extend? && acts[j].Extend? ==> acts[i].at <= acts[j].at
  }

  ghost predicate OrderedUpTo(times: seq<Time>, now: Time) {
    Ordered(times) && forall i :: 0 <= i < |times| ==> times[i] <= now
  }

  lemma OrderedEntry(log: seq<Entry>, e: Entry, user: User, before: Time, now: Time)
    requires OrderedUpTo(Captures(log, user), before) && before <= now && (e.Bought? ==> e.at == now)
    ensures OrderedUpTo(Captures(log + [e], user), now)
  {
    LogGrows(log, e, Order(PayU, 0), user);
  }

  lemma {:induction false} CapturesAreOrdered(month: nat, acts: seq<Act>, user: User, now: Time)
    requires ForwardClock(acts, now)
    ensures OrderedUpTo(Captures(RunCalls(Start(month), acts).b.log, user), now)
  {
    if acts != [] {
      var init, act := acts[..|acts| - 1], acts[|acts| - 1];
      var before, after := RunCalls(Start(month), init), RunCalls(Start(month), acts);
      var limit := if act.Extend? then act.at else now;
      CapturesAreOrdered(month, init, user, limit);
      OkInEveryRun(month, init);
      ActAppends(before, act);
      if e :| after.b.log == before.b.log + [e] && (e.Bought? ==> act.Extend? && e.at == act.at) {
        OrderedEntry(before.b.log, e, user, limit, limit);
      }
    }
  }

  /** At any instant after the run, GetEntitlements finds the subscription active exactly when
      the instant is one of the entitled ones. */
  lemma ActiveMeansEntitled(month: nat, acts: seq<Act>, user: User, now: Time)
    requires ForwardClock(acts, now)
    ensures var b := RunCalls(Start(month), acts).b;
            HasActive(b.subs, user, now) <==> now in EntitledTimes(Captures(b.log, user), month)
  {
    OkInEveryRun(month, acts);
    var b := RunCalls(Start(month), acts).b;
    var times := Captures(b.log, user);
    assert SubOk(b.subs, b.log, month, user);
    CapturesAreOrdered(month, acts, user, now);
    EntitledTimesAre(times, now, month);
    if times != [] {
      assert times[|times| - 1] in times;
      LastCapturesCount(times, now);
    }
  }

  // ---------------------------------------------------------------- counting an order twice

  /** The call r read its order at step i, may complete it, and waits to extend by step n. */
  ghost predicate Waits(month: nat, acts: seq<Act>, i: nat, n: nat, r: CallId, k: Order)
    requires i < n <= |acts|
  {
    && acts[i] == Load(r) && At(RunCalls(Start(month), acts[..i]), r, Begun)
    && forall j :: i < j <= n ==>
         var s := RunCalls(Start(month), acts[..j]);
         r in s.calls && (s.calls[r].phase.Loaded? || s.calls[r].phase.Marking?) && OrderOf(s.calls[r].what) == Some(k)
         && Completes(s.calls[r].what)
  }

  /** Step j extends a subscription for the order. */
  ghost predicate ExtendsAt(month: nat, acts: seq<Act>, j: nat, k: Order)
    requires j < |acts|
  {
    ExtendsOrder(RunCalls(Start(month), acts[..j]), acts[j], k)
  }

  lemma RunNext(s: System, acts: seq<Act>, n: nat)
    requires 0 < n <= |acts|
    ensures RunCalls(s, acts[..n]) == Do(RunCalls(s, acts[..n - 1]), acts[n - 1])
  {
    assert acts[..n][..n - 1] == acts[..n - 1];
  }

  ghost predicate ExtendedBetween(month: nat, acts: seq<Act>, i: nat, n: nat, k: Order)
    requires n <= |acts|
  {
    exists j :: i <= j < n && ExtendsAt(month, acts, j, k)
  }

  lemma BetweenNext(month: nat, acts: seq<Act>, i: nat, n: nat, k: Order)
    requires i < n <= |acts|
    ensures ExtendedBetween(month, acts, i, n, k) <==> ExtendedBetween(month, acts, i, n - 1, k) || ExtendsAt(month, acts, n - 1, k)
  {
  }

  /** How often the order has counted after n steps. */
  ghost function Counted(month: nat, acts: seq<Act>, n: nat, k: Order): nat
    requires n <= |acts|
  {
    TimesBought(RunCalls(Start(month), acts[..n]).b.log, k)
  }

  lemma CountedNext(month: nat, acts: seq<Act>, n: nat, k: Order)
    requires 0 < n <= |acts|
    ensures Counted(month, acts, n, k) == Counted(month, acts, n - 1, k) + if ExtendsAt(month, acts, n - 1, k) then 1 else 0
  {
    RunNext(Start(month), acts, n);
    ActLogs(RunCalls(Start(month), acts[..n - 1]), acts[n - 1], k);
  }

  lemma {:induction false} CountedSince(month: nat, acts: seq<Act>, i: nat, n: nat, k: Order)
    requires i <= n <= |acts|
    ensures Counted(month, acts, n, k) > 0 <==> Counted(month, acts, i, k) > 0 || ExtendedBetween(month, acts, i, n, k)
  {
    if i < n {
      CountedSince(month, acts, i, n - 1, k);
      CountedNext(month, acts, n, k);
      BetweenNext(month, acts, i, n, k);
    }
  }

  /** What a completion that goes on has read: a pending order, or a failed one. */
  lemma ReadsPendingOrFailed(month: nat, acts: seq<Act>, i: nat, r: CallId, k: Order)
    requires i < |acts| && Waits(month, acts, i, i + 1, r, k)
    ensures var b := RunCalls(Start(month), acts[..i]).b;
            && k in b.payments && b.payments[k].status != Completed
            && (b.payments[k].status == Pending ==> TimesBought(b.log, k) == 0)
            && (k.provider == PayU ==> b.payments[k].status == Pending)
  {
    var s := RunCalls(Start(month), acts[..i]);
    OkInEveryRun(month, acts[..i]);
    RunNext(Start(month), acts, i + 1);
    var t := RunCalls(Start(month), acts[..i + 1]);
    assert r in t.calls;
    assert s.calls[r].what.PayUWebhook? ==> PayUCallOk(s, r);
  }

  /** The exact condition for counting an order twice, in every interleaving: a completion that
      is about to extend finds its order counted iff, since it read the order, another call has
      extended for it, or the order had failed and counted before that read. */
  lemma CountsTwiceIff(month: nat, acts: seq<Act>, i: nat, r: CallId, k: Order)
    requires i < |acts| && Waits(month, acts, i, |acts|, r, k)
    ensures var read, b := RunCalls(Start(month), acts[..i]).b, RunCalls(Start(month), acts).b;
            && k in read.payments
            && (TimesBought(b.log, k) > 0 <==>
                  (exists j :: i < j < |acts| && ExtendsAt(month, acts, j, k) && acts[j].r != r)
                  || (read.payments[k].status == Failed && TimesBought(read.log, k) > 0))
  {
    assert acts[..|acts|] == acts;
    assert Waits(month, acts, i, i + 1, r, k);
    ReadsPendingOrFailed(month, acts, i, r, k);
    CountedSince(month, acts, i, |acts|, k);
    forall j | i <= j < |acts| && ExtendsAt(month, acts, j, k)
      ensures i < j && acts[j].r != r
    {
      OthersExtend(month, acts, i, j, r, k);
    }
  }

  /** A call that still waits has not extended. */
  lemma OthersExtend(month: nat, acts: seq<Act>, i: nat, j: nat, r: CallId, k: Order)
    requires i <= j < |acts| && Waits(month, acts, i, |acts|, r, k) && ExtendsAt(month, acts, j, k)
    ensures i < j && acts[j].r != r
  {
    RunNext(Start(month), acts, j + 1);
    ExtendingCloses(RunCalls(Start(month), acts[..j]), acts[j], k);
  }

  lemma ExtendingCloses(s: System, act: Act, k: Order)
    requires ExtendsOrder(s, act, k)
    ensures At(Do(s, act), act.r, Closing)
  {
  }

  // ---------------------------------------------------------------- how it happens

  /** Two calls that read a pending order before either marks it. */
  function Overlap(r: CallId, q: CallId, at: Time): seq<Act> {
    [Load(r), Load(q), Mark(r), Mark(q), Extend(r, at), Extend(q, at)]
  }

  lemma BothLoad(s: System, r: CallId, q: CallId, k: Order)
    requires r != q && At(s, r, Begun) && At(s, q, Begun) && k in s.b.payments && s.b.payments[k].status == Pending
    requires AfterLoad(s.b, s.calls[r].what) == AfterLoad(s.b, s.calls[q].what) == Some(Loaded(s.b.payments[k]))
    requires OrderOf(s.calls[r].what) == OrderOf(s.calls[q].what) == Some(k)
    ensures Do(Do(s, Load(r)), Load(q)) ==
            s.(calls := s.calls[r := Call(s.calls[r].what, Loaded(s.b.payments[k]))][q := Call(s.calls[q].what, Loaded(s.b.payments[k]))])
  {
  }

  lemma BothMark(s: System, r: CallId, q: CallId, k: Order, row: Payment)
    requires r != q && At(s, r, Loaded(row)) && At(s, q, Loaded(row)) && k in s.b.payments && s.b.payments[k].status == Pending
    requires OrderOf(s.calls[r].what) == OrderOf(s.calls[q].what) == Some(k) && Completes(s.calls[r].what) && Completes(s.calls[q].what)
    ensures var t := Do(Do(s, Mark(r)), Mark(q));
            && k in t.b.payments && t.b.payments[k].status == Completed && t.b.log == s.b.log
            && At(t, r, Marking(row)) && At(t, q, Marking(row)) && t.calls[r].what == s.calls[r].what && t.calls[q].what == s.calls[q].what
  {
  }

  lemma BothExtend(s: System, r: CallId, q: CallId, k: Order, row: Payment, at: Time)
    requires r != q && At(s, r, Marking(row)) && At(s, q, Marking(row))
    requires OrderOf(s.calls[r].what) == OrderOf(s.calls[q].what) == Some(k)
    ensures var t := Do(Do(s, Extend(r, at)), Extend(q, at));
            t.b.payments == s.b.payments && TimesBought(t.b.log, k) == TimesBought(s.b.log, k) + 2
  {
    ActLogs(s, Extend(r, at), k);
    ActLogs(Do(s, Extend(r, at)), Extend(q, at), k);
  }

  /** For every pending order and any two completions of it, from whatever paths: the order
      never fails, ends completed, and has counted twice. */
  lemma OverlapCountsTwice(s: System, r: CallId, q: CallId, k: Order, at: Time)
    requires r != q && At(s, r, Begun) && At(s, q, Begun) && k in s.b.payments && s.b.payments[k].status == Pending
    requires OrderOf(s.calls[r].what) == OrderOf(s.calls[q].what) == Some(k) && Completes(s.calls[r].what) && Completes(s.calls[q].what)
    requires s.calls[r].what.DevComplete? ==> s.calls[r].what.user == s.b.payments[k].user
    requires s.calls[q].what.DevComplete? ==> s.calls[q].what.user == s.b.payments[k].user
    ensures var t := RunCalls(s, Overlap(r, q, at)).b;
            k in t.payments && t.payments[k].status == Completed && TimesBought(t.log, k) == TimesBought(s.b.log, k) + 2
  {
    var acts, row := Overlap(r, q, at), s.b.payments[k];
    RunNext(s, acts, 1);
    RunNext(s, acts, 2);
    RunNext(s, acts, 3);
    RunNext(s, acts, 4);
    RunNext(s, acts, 5);
    RunNext(s, acts, 6);
    assert acts[..0] == [] && acts[..6] == acts;
    BothLoad(s, r, q, k);
    var loaded := RunCalls(s, acts[..2]);
    BothMark(loaded, r, q, k, row);
    BothExtend(RunCalls(s, acts[..4]), r, q, k, row, at);
  }

  /** Such a state is reached from an empty database: a capture and a development completion of
      the same order. */
  lemma OverlapIsReached(month: nat)
    ensures var k := Order(Razorpay, 7);
            var acts := [NewOrder(k, 1, 1), Begin(2, RazorpayWebhook(5, PaymentCaptured(Some(7)), 0)), Begin(3, DevComplete(1, 7, 0))];
            var t := RunCalls(Start(month), acts + Overlap(2, 3, 0)).b;
            k in t.payments && t.payments[k].status == Completed && TimesBought(t.log, k) == 2
  {
    var k := Order(Razorpay, 7);
    var acts := [NewOrder(k, 1, 1), Begin(2, RazorpayWebhook(5, PaymentCaptured(Some(7)), 0)), Begin(3, DevComplete(1, 7, 0))];
    RunNext(Start(month), acts, 1);
    RunNext(Start(month), acts, 2);
    RunNext(Start(month), acts, 3);
    assert acts[..0] == [] && acts[..3] == acts;
    var s := RunCalls(Start(month), acts);
    OverlapCountsTwice(s, 2, 3, k, 0);
    RunAppend(Start(month), acts, Overlap(2, 3, 0));
  }

  lemma {:induction false} RunAppend(s: System, acts: seq<Act>, more: seq<Act>)
    ensures RunCalls(s, acts + more) == RunCalls(RunCalls(s, acts), more)
    decreases |more|
  {
    if more == [] {
      assert acts + more == acts;
    } else {
      assert (acts + more)[..|acts + more| - 1] == acts + more[..|more| - 1];
      RunAppend(s, acts, more[..|more| - 1]);
    }
  }

  // ---------------------------------------------------------------- a lost extension

  /** No completion has read this order and still goes on. */
  ghost predicate Idle(s: System, k: Order) {
    forall r :: r in s.calls && OrderOf(s.calls[r].what) == Some(k) && Completes(s.calls[r].what) ==>
      !s.calls[r].phase.Loaded? && !s.calls[r].phase.Marking? && (k.provider == PayU ==> !s.calls[r].phase.Begun?)
  }

  lemma IdleStep(s: System, act: Act, k: Order)
    requires SystemOk(s) && Idle(s, k) && k in s.b.payments && s.b.payments[k].status == Completed
    ensures var t := Do(s, act);
            && Idle(t, k) && k in t.b.payments && t.b.payments[k].status == Completed
            && TimesBought(t.b.log, k) == TimesBought(s.b.log, k)
  {
    var t := Do(s, act);
    ActStatus(s, act, k);
    ActLogs(s, act, k);
    if act.Extend? && act.r in s.calls { assert CallOk(s.b, s.calls[act.r]); }
    forall r | r in t.calls && OrderOf(t.calls[r].what) == Some(k) && Completes(t.calls[r].what)
      ensures !t.calls[r].phase.Loaded? && !t.calls[r].phase.Marking? && (k.provider == PayU ==> !t.calls[r].phase.Begun?)
    {
      CallAfter(s, act, r);
    }
  }

  /** A completed order with no completion on its way has counted for good: whatever calls
      follow, it never extends a subscription again. */
  lemma {:induction false} CompletedIsFinal(s: System, acts: seq<Act>, k: Order)
    requires SystemOk(s) && Idle(s, k) && k in s.b.payments && s.b.payments[k].status == Completed
    ensures var t := RunCalls(s, acts);
            && SystemOk(t) && Idle(t, k) && k in t.b.payments && t.b.payments[k].status == Completed
            && TimesBought(t.b.log, k) == TimesBought(s.b.log, k)
  {
    if acts != [] {
      var before := RunCalls(s, acts[..|acts| - 1]);
      CompletedIsFinal(s, acts[..|acts| - 1], k);
      ActKeepsOk(before, acts[|acts| - 1]);
      IdleStep(before, acts[|acts| - 1], k);
    }
  }

  /** So a completion that fails between its mark and its upsert loses the month for good: the
      order is completed and never counts. */
  lemma AbortLosesExtension(s: System, r: CallId, acts: seq<Act>, k: Order)
    requires SystemOk(s) && r in s.calls && s.calls[r].phase.Marking? && OrderOf(s.calls[r].what) == Some(k)
    requires s.b.payments[k].status == Completed && TimesBought(s.b.log, k) == 0
    requires forall q :: q in s.calls && q != r && OrderOf(s.calls[q].what) == Some(k) ==> s.calls[q].phase.Closing?
    ensures var t := RunCalls(Do(s, Abort(r)), acts).b;
            k in t.payments && t.payments[k].status == Completed && TimesBought(t.log, k) == 0
  {
    ActKeepsOk(s, Abort(r));
    CompletedIsFinal(Do(s, Abort(r)), acts, k);
  }

  // ---------------------------------------------------------------- one completion at a time

  /** A call past its read. */
  predicate Reading(c: Call, k: Order) {
    (c.phase.Loaded? || c.phase.Marking?) && OrderOf(c.what) == Some(k)
  }

  /** Nobody reads an order while another call is between its read of that order and its end,
      and nothing fails between the mark and the upsert. */
  ghost predicate Orderly(s: System, act: Act) {
    match act
    case Load(r) =>
      r in s.calls && OrderOf(s.calls[r].what).Some? ==>
        forall q :: q in s.calls ==> !Reading(s.calls[q], OrderOf(s.calls[r].what).value)
    case Abort(r) => r in s.calls ==> !s.calls[r].phase.Marking?
    case _ => true
  }

  ghost predicate OrderlyRun(month: nat, acts: seq<Act>) {
    acts == [] ||
    (OrderlyRun(month, acts[..|acts| - 1]) && Orderly(RunCalls(Start(month), acts[..|acts| - 1]), acts[|acts| - 1]))
  }

  /** A completion has marked the order and not yet extended. */
  ghost predicate Extending(s: System, k: Order) {
    exists r :: r in s.calls && s.calls[r].phase.Marking? && OrderOf(s.calls[r].what) == Some(k)
  }

  ghost predicate OneReader(s: System) {
    && (forall r, q, k :: r in s.calls && q in s.calls && Reading(s.calls[r], k) && Reading(s.calls[q], k) ==> r == q)
    && forall r, k :: r in s.calls && Reading(s.calls[r], k) && s.calls[r].phase.Loaded? ==>
         k in s.b.payments && s.b.payments[k] == s.calls[r].phase.row
  }

  ghost predicate CountsOnce(s: System, k: Order) {
    k in s.b.payments && s.b.payments[k].status == Completed ==>
      TimesBought(s.b.log, k) == if Extending(s, k) then 0 else 1
  }

  lemma ReadingBefore(s: System, act: Act, r: CallId, k: Order)
    requires CallsOk(s) && r in Do(s, act).calls && Reading(Do(s, act).calls[r], k)
    ensures (r in s.calls && Reading(s.calls[r], k)) || (act == Load(r) && r in s.calls && OrderOf(s.calls[r].what) == Some(k))
    ensures act == Load(r) && !(r in s.calls && Reading(s.calls[r], k)) ==>
              k in Do(s, act).b.payments && Do(s, act).calls[r].phase == Loaded(Do(s, act).b.payments[k])
    ensures Do(s, act).calls[r].phase.Loaded? && r in s.calls && Reading(s.calls[r], k) ==> Do(s, act).calls[r] == s.calls[r]
  {
    CallAfter(s, act, r);
    if r in s.calls { assert CallOk(s.b, s.calls[r]); }
  }

  lemma RowAfter(s: System, act: Act, r: CallId, k: Order)
    requires CallsOk(s) && OneReader(s) && r in Do(s, act).calls && Reading(Do(s, act).calls[r], k)
    requires Do(s, act).calls[r].phase.Loaded?
    ensures k in Do(s, act).b.payments && Do(s, act).b.payments[k] == Do(s, act).calls[r].phase.row
  {
    ReadingBefore(s, act, r, k);
    ActRow(s, act, k);
  }

  /** Only a mark of this order changes its row. */
  lemma ActRow(s: System, act: Act, k: Order)
    requires k in s.b.payments
    ensures k in Do(s, act).b.payments
    ensures Do(s, act).b.payments[k] != s.b.payments[k] ==>
              act.Mark? && act.r in s.calls && s.calls[act.r].phase.Loaded? && Reading(s.calls[act.r], k)
              && (act.r in Do(s, act).calls ==> !Do(s, act).calls[act.r].phase.Loaded?)
  {
  }

  lemma ReaderStep(s: System, act: Act)
    requires CallsOk(s) && OneReader(s) && Orderly(s, act)
    ensures OneReader(Do(s, act))
  {
    var t := Do(s, act);
    forall r, k | r in t.calls && Reading(t.calls[r], k) && t.calls[r].phase.Loaded?
      ensures k in t.b.payments && t.b.payments[k] == t.calls[r].phase.row
    {
      RowAfter(s, act, r, k);
    }
    forall r, q, k | r in t.calls && q in t.calls && Reading(t.calls[r], k) && Reading(t.calls[q], k)
      ensures r == q
    {
      ReadingBefore(s, act, r, k);
      ReadingBefore(s, act, q, k);
    }
  }

  lemma StillExtending(s: System, act: Act, q: CallId, k: Order)
    requires q in s.calls && s.calls[q].phase.Marking? && OrderOf(s.calls[q].what) == Some(k)
    requires !(act.Extend? && act.r == q) && act != Abort(q)
    ensures q in Do(s, act).calls && Do(s, act).calls[q] == s.calls[q]
  {
  }

  lemma NewlyExtending(s: System, act: Act, q: CallId, k: Order)
    requires q in Do(s, act).calls && Do(s, act).calls[q].phase.Marking? && OrderOf(Do(s, act).calls[q].what) == Some(k)
    ensures q in s.calls && OrderOf(s.calls[q].what) == Some(k) && s.calls[q].what == Do(s, act).calls[q].what
    ensures s.calls[q].phase.Marking? || (act == Mark(q) && s.calls[q].phase.Loaded? && Completes(s.calls[q].what))
  {
    CallAfter(s, act, q);
  }

  /** A completion that goes on marks an order that is not completed. */
  lemma MarksUncompleted(s: System, r: CallId, k: Order)
    requires SystemOk(s) && OneReader(s) && r in s.calls && s.calls[r].phase.Loaded? && OrderOf(s.calls[r].what) == Some(k)
    requires Completes(s.calls[r].what)
    ensures k in s.b.payments && s.b.payments[k].status != Completed
  {
    assert Reading(s.calls[r], k) && CallOk(s.b, s.calls[r]);
    assert s.calls[r].what.PayUWebhook? ==> PayUCallOk(s, r);
  }

  lemma CountsOnceStep(s: System, act: Act, k: Order)
    requires SystemOk(s) && OneReader(s) && Orderly(s, act) && CountsOnce(s, k)
    ensures CountsOnce(Do(s, act), k)
  {
    var t := Do(s, act);
    ActStatus(s, act, k);
    ActLogs(s, act, k);
    if k in t.b.payments && t.b.payments[k].status == Completed {
      if s.b.payments[k].status != Completed {
        assert TimesBought(s.b.log, k) == 0;
        assert t.calls[act.r].phase.Marking?;
      } else if ExtendsOrder(s, act, k) {
        ExtendingCloses(s, act, k);
        forall q | q in t.calls && t.calls[q].phase.Marking? && OrderOf(t.calls[q].what) == Some(k)
          ensures q == act.r
        {
          NewlyExtending(s, act, q, k);
          assert Reading(s.calls[q], k) && Reading(s.calls[act.r], k);
        }
      } else {
        ExtendingStays(s, act, k);
      }
    }
  }

  lemma ExtendingStays(s: System, act: Act, k: Order)
    requires SystemOk(s) && OneReader(s) && Orderly(s, act) && !ExtendsOrder(s, act, k)
    requires k in s.b.payments && s.b.payments[k].status == Completed
    ensures Extending(Do(s, act), k) <==> Extending(s, k)
  {
    var t := Do(s, act);
    if q :| q in s.calls && s.calls[q].phase.Marking? && OrderOf(s.calls[q].what) == Some(k) {
      StillExtending(s, act, q, k);
    }
    if q :| q in t.calls && t.calls[q].phase.Marking? && OrderOf(t.calls[q].what) == Some(k) {
      NewlyExtending(s, act, q, k);
      if s.calls[q].phase.Loaded? { MarksUncompleted(s, q, k); }
    }
  }

  lemma {:induction false} OrderlyRunsCountOnce(month: nat, acts: seq<Act>)
    requires OrderlyRun(month, acts)
    ensures OneReader(RunCalls(Start(month), acts))
    ensures forall k :: CountsOnce(RunCalls(Start(month), acts), k)
  {
    if acts != [] {
      var init, act := acts[..|acts| - 1], acts[|acts| - 1];
      OrderlyRunsCountOnce(month, init);
      OkInEveryRun(month, init);
      ReaderStep(RunCalls(Start(month), init), act);
      forall k
        ensures CountsOnce(RunCalls(Start(month), acts), k)
      {
        CountsOnceStep(RunCalls(Start(month), init), act, k);
      }
    }
  }

  /** With any repeated or fresh events from any path, one completion of an order at a time: a
      completed order has extended its user's subscription exactly once, or is just about to,
      and a pending one never has. */
  lemma CompletedOrdersCountOnce(month: nat, acts: seq<Act>, k: Order)
    requires OrderlyRun(month, acts) && k in RunCalls(Start(month), acts).b.payments
    ensures var s := RunCalls(Start(month), acts);
            && (s.b.payments[k].status == Completed ==> TimesBought(s.b.log, k) == if Extending(s, k) then 0 else 1)
            && (s.b.payments[k].status == Pending ==> TimesBought(s.b.log, k) == 0)
            && (k.provider == PayU && s.b.payments[k].status == Failed ==> TimesBought(s.b.log, k) == 0)
  {
    var s := RunCalls(Start(month), acts);
    OkInEveryRun(month, acts);
    OrderlyRunsCountOnce(month, acts);
    assert CountsOnce(s, k) && PendingOk(s.b) && PayUOk(s);
  }

  /** In such runs a step extends a subscription for an order that already counted only if the
      order has failed, and is Razorpay's. */
  lemma SecondExtensionIsForFailedOrder(month: nat, acts: seq<Act>, act: Act, k: Order)
    requires OrderlyRun(month, acts) && TimesBought(RunCalls(Start(month), acts).b.log, k) > 0
    requires TimesBought(Do(RunCalls(Start(month), acts), act).b.log, k) > TimesBought(RunCalls(Start(month), acts).b.log, k)
    ensures var b := RunCalls(Start(month), acts).b;
            k in b.payments && b.payments[k].status == Failed && k.provider == Razorpay
  {
    var s := RunCalls(Start(month), acts);
    OkInEveryRun(month, acts);
    OrderlyRunsCountOnce(month, acts);
    ActLogs(s, act, k);
    assert CallOk(s.b, s.calls[act.r]);
    assert CountsOnce(s, k) && Extending(s, k);
    assert s.calls[act.r].what.PayUWebhook? ==> PayUCallOk(s, act.r);
  }

  /** The orders a user's captures were for. */
  ghost function OrdersBought(log: seq<Entry>, user: User): seq<Order> {
    if log == [] then []
    else
      var e := log[|log| - 1];
      OrdersBought(log[..|log| - 1], user) + if e.Bought? && e.user == user then [e.order] else []
  }

  ghost predicate NeverCancelled(log: seq<Entry>, user: User) {
    Dropped(user) !in log
  }

  lemma {:induction false} OneOrderPerCapture(log: seq<Entry>, user: User)
    requires NeverCancelled(log, user)
    ensures |OrdersBought(log, user)| == |Captures(log, user)|
  {
    if log != [] {
      assert log[|log| - 1] in log && forall e :: e in log[..|log| - 1] ==> e in log;
      OneOrderPerCapture(log[..|log| - 1], user);
    }
  }

  lemma {:induction false} OrdersBoughtCount(payments: map<Order, Payment>, log: seq<Entry>, user: User, k: Order)
    requires LogOwned(payments, log)
    ensures multiset(OrdersBought(log, user))[k] ==
            if k in payments && payments[k].user == user then TimesBought(log, k) else 0
  {
    if log != [] {
      var init, e := log[..|log| - 1], log[|log| - 1];
      OrdersBoughtCount(payments, init, user, k);
      assert Owned(payments, e);
    } else if k in payments {
      assert TimesBought(log, k) == 0;
    }
  }

  ghost function CompletedOrders(payments: map<Order, Payment>, user: User): set<Order> {
    set k | k in payments && payments[k].user == user && payments[k].status == Completed
  }

  /** None of the user's orders was extended after it had failed. */
  ghost predicate NoFailedCapture(s: B.State, user: User) {
    forall k :: k in s.payments && s.payments[k].user == user && s.payments[k].status == Failed ==> TimesBought(s.log, k) == 0
  }

  lemma SameSize(a: multiset<Order>, b: multiset<Order>)
    requires b <= a
    ensures |a| == |b| <==> a == b
  {
    assert a == b + (a - b);
  }

  /** The orders a user's captures were for, against the completed ones. */
  lemma BoughtAndCompleted(month: nat, acts: seq<Act>, user: User)
    requires OrderlyRun(month, acts)
    requires var s := RunCalls(Start(month), acts); forall k :: k in s.b.payments && s.b.payments[k].user == user ==> !Extending(s, k)
    ensures var b := RunCalls(Start(month), acts).b;
            var bought, done := multiset(OrdersBought(b.log, user)), multiset(CompletedOrders(b.payments, user));
            && done <= bought
            && (bought == done <==> NoFailedCapture(b, user))
  {
    OkInEveryRun(month, acts);
    OrderlyRunsCountOnce(month, acts);
    var s := RunCalls(Start(month), acts);
    var bought, done := multiset(OrdersBought(s.b.log, user)), multiset(CompletedOrders(s.b.payments, user));
    forall k
      ensures done[k] <= bought[k]
      ensures done[k] == bought[k] <==>
                !(k in s.b.payments && s.b.payments[k].user == user && s.b.payments[k].status == Failed && TimesBought(s.b.log, k) != 0)
    {
      assert CountsOnce(s, k);
      OrdersBoughtCount(s.b.payments, s.b.log, user, k);
    }
    if bought == done {
      assert forall k :: done[k] == bought[k];
    }
    if NoFailedCapture(s.b, user) {
      assert forall k :: done[k] == bought[k];
    }
  }

  /** ... and for a user never cancelled and with no completion on its way, captures and completed
      orders are equally many exactly when no order was captured after failing, and so is the
      entitled time, in months. */
  lemma EntitledForCompletedOrders(month: nat, acts: seq<Act>, user: User)
    requires OrderlyRun(month, acts) && NeverCancelled(RunCalls(Start(month), acts).b.log, user)
    requires var s := RunCalls(Start(month), acts); forall k :: k in s.b.payments && s.b.payments[k].user == user ==> !Extending(s, k)
    ensures var b := RunCalls(Start(month), acts).b;
            && |Captures(b.log, user)| >= |CompletedOrders(b.payments, user)|
            && (|Captures(b.log, user)| == |CompletedOrders(b.payments, user)| <==> NoFailedCapture(b, user))
    ensures var b := RunCalls(Start(month), acts).b;
            month > 0 ==>
              (|EntitledTimes(Captures(b.log, user), month)| == |CompletedOrders(b.payments, user)| * month <==> NoFailedCapture(b, user))
  {
    var b := RunCalls(Start(month), acts).b;
    var bought, done := OrdersBought(b.log, user), CompletedOrders(b.payments, user);
    BoughtAndCompleted(month, acts, user);
    SameSize(multiset(bought), multiset(done));
    assert multiset(bought) == multiset(done) + (multiset(bought) - multiset(done));
    assert |bought| == |multiset(bought)| && |multiset(done)| == |done|;
    OneOrderPerCapture(b.log, user);
    EntitledTimeIsMonths(Captures(b.log, user), month);
    if month > 0 { TimesMonth(|Captures(b.log, user)|, |done|, month); }
  }

  lemma TimesMonth(a: nat, b: nat, month: nat)
    requires month > 0
    ensures a * month == b * month <==> a == b
  {
    if a < b { assert (b - a) * month > 0; }
    if a > b { assert (a - b) * month > 0; }
  }

  // ---------------------------------------------------------------- one call on its own

  /** Everything a call can do, in order; what does not apply to it changes nothing. */
  function WholeCall(r: CallId, what: B.Step): seq<Act> {
    [Begin(r, what), Settle(r), Load(r)] + ([Mark(r), Extend(r, what.at), Close(r)] + [Abort(r)])
  }

  /** The end of every call. */
  function Finish(s: System, r: CallId): System {
    Do(Do(s, Close(r)), Abort(r))
  }

  lemma GoneStays(s: System, r: CallId, at: Time)
    requires r !in s.calls
    ensures Do(s, Settle(r)) == Do(s, Load(r)) == Do(s, Mark(r)) == Do(s, Extend(r, at)) == s
    ensures Do(s, Close(r)) == s && Do(s, Abort(r)).b == s.b && Do(s, Abort(r)).calls == s.calls
  {
    assert s.calls - {r} == s.calls;
  }

  /** What is left of a call after its read, or after it settled. */
  lemma RestIs(s: System, r: CallId, at: Time)
    requires r in s.calls && CallOk(s.b, s.calls[r])
    ensures var t := Finish(Do(Do(s, Mark(r)), Extend(r, at)), r);
            var c, b := s.calls[r], s.b;
            && t.calls == s.calls - {r}
            && t.b.month == b.month
            && t.b.payments == (if c.phase.Loaded? then MarkedAs(b, OrderOf(c.what).value, if Completes(c.what) then Completed else Failed).payments
                                else b.payments)
            && t.b.events == (if EventOf(c.what).Some? && !c.phase.Begun? then b.events[EventOf(c.what).value := true] else b.events)
            && t.b.subs == (if c.phase.Marking? || (c.phase.Loaded? && Completes(c.what))
                            then Upserted(b.subs, c.phase.row.user, c.phase.row.plan, at, b.month) else b.subs)
            && t.b.log == (if c.phase.Marking? || (c.phase.Loaded? && Completes(c.what))
                           then b.log + [Bought(c.phase.row.user, OrderOf(c.what).value, at)] else b.log)
  {
  }

  function AfterRead(s: System, r: CallId, what: B.Step): System {
    Do(Do(Do(s, Begin(r, what)), Settle(r)), Load(r))
  }

  lemma SettledCall(s: System, r: CallId, what: B.Step)
    requires r !in s.calls && what.RazorpayWebhook? && OrderOf(what).None? && what.event != 0 && what.event !in s.b.events
    ensures var t := AfterRead(s, r, what);
            var b := Recorded(s.b, what.event);
            t == match what.body
                 case SubscriptionCancelled(Some(user)) => System(Cancel(b, user), s.calls[r := Call(what, Closing)])
                 case SubscriptionCancelled(None) => System(b, s.calls[r := Call(what, Closing)])
                 case OtherEvent => System(b, s.calls[r := Call(what, Closing)])
                 case _ => System(b, s.calls)
  {
    assert s.calls[r := Call(what, Begun)] - {r} == s.calls;
  }

  lemma ReadingCall(s: System, r: CallId, what: B.Step)
    requires r !in s.calls && OrderOf(what).Some?
    requires EventOf(what).Some? ==> EventOf(what).value != 0 && EventOf(what).value !in s.b.events
    ensures var b := if EventOf(what).Some? then Recorded(s.b, EventOf(what).value) else s.b;
            AfterRead(s, r, what) == match AfterLoad(b, what)
                                     case None => System(b, s.calls)
                                     case Some(phase) => System(b, s.calls[r := Call(what, phase)])
  {
    assert s.calls[r := Call(what, Begun)] - {r} == s.calls;
  }

  lemma RefusedCall(s: System, r: CallId, what: B.Step)
    requires r !in s.calls && EventOf(what).Some? && (EventOf(what).value == 0 || EventOf(what).value in s.b.events)
    ensures AfterRead(s, r, what) == s && Apply(s.b, what).0 == s.b
  {
  }

  /** An undisturbed call does what `Billing.Apply` says: the statements in order are the call. */
  lemma CallIsItsStatements(s: System, r: CallId, what: B.Step)
    requires r !in s.calls && !what.Checkout?
    ensures RunCalls(s, WholeCall(r, what)) == System(Apply(s.b, what).0, s.calls)
  {
    RunAppend(s, [Begin(r, what), Settle(r), Load(r)], [Mark(r), Extend(r, what.at), Close(r)] + [Abort(r)]);
    RunThree(s, Begin(r, what), Settle(r), Load(r));
    RunAppend(AfterRead(s, r, what), [Mark(r), Extend(r, what.at), Close(r)], [Abort(r)]);
    RunThree(AfterRead(s, r, what), Mark(r), Extend(r, what.at), Close(r));
    var t := Do(Do(Do(AfterRead(s, r, what), Mark(r)), Extend(r, what.at)), Close(r));
    RunNext(t, [Abort(r)], 1);
    assert [Abort(r)][..1] == [Abort(r)] && [Abort(r)][..0] == [];
    WholeCallIs(s, r, what);
  }

  lemma RunThree(s: System, a: Act, b: Act, c: Act)
    ensures RunCalls(s, [a, b, c]) == Do(Do(Do(s, a), b), c)
  {
    RunNext(s, [a, b, c], 1);
    RunNext(s, [a, b, c], 2);
    RunNext(s, [a, b, c], 3);
    assert [a, b, c][..0] == [] && [a, b, c][..3] == [a, b, c];
  }

  lemma WholeCallIs(s: System, r: CallId, what: B.Step)
    requires r !in s.calls && !what.Checkout?
    ensures Finish(Do(Do(AfterRead(s, r, what), Mark(r)), Extend(r, what.at)), r) == System(Apply(s.b, what).0, s.calls)
  {
    var t := AfterRead(s, r, what);
    if EventOf(what).Some? && (EventOf(what).value == 0 || EventOf(what).value in s.b.events) {
      RefusedCall(s, r, what);
      GoneStays(s, r, what.at);
    } else if OrderOf(what).None? {
      SettledCall(s, r, what);
      if r in t.calls {
        RestIs(t, r, what.at);
        assert t.calls - {r} == s.calls;
      } else {
        GoneStays(t, r, what.at);
      }
    } else {
      ReadingCall(s, r, what);
      if r in t.calls {
        RestIs(t, r, what.at);
        assert t.calls - {r} == s.calls;
      } else {
        GoneStays(t, r, what.at);
      }
    }
  }
}
