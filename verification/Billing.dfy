/** Payment webhooks and what they do to orders and subscriptions (billing/webhook.go,
    billing/repository.go:114-238, billing/dev_checkout.go). Signatures are checked before any
    of this. Here one call is one step; `BillingCalls` takes the calls apart. */
module Billing {
  import opened Common
  import opened Subscriptions

  type User = nat
  type EventId = nat     // 0 is a missing id
  type Plan = nat

  datatype Provider = Razorpay | PayU

  datatype Order = Order(provider: Provider, id: nat)

  datatype PaymentStatus = Pending | Completed | Failed

  datatype Payment = Payment(user: User, plan: Plan, status: PaymentStatus)

  datatype SubscriptionStatus = Active | Cancelled

  datatype Subscription = Subscription(status: SubscriptionStatus, plan: Plan, endsAt: Time)

  /** What happened to the subscriptions so far. */
  datatype Entry = Bought(user: User, order: Order, at: Time) | Dropped(user: User)

  /** `events` maps an event id to whether its row is marked processed. Both providers' ids share
      one unique index, and PayU's id is its order's. `log` is history only. */
  datatype State = State(month: nat, payments: map<Order, Payment>, events: map<EventId, bool>,
                         subs: map<User, Subscription>, log: seq<Entry>)

  datatype RazorpayBody =
    | PaymentCaptured(order: Option<nat>)
    | PaymentFailed(order: Option<nat>)
    | SubscriptionCancelled(user: Option<User>)
    | OtherEvent

  datatype PayUStatus = Success | Failure | OtherStatus

  datatype Step =
    | Checkout(order: Order, user: User, plan: Plan, at: Time)
    | RazorpayWebhook(event: EventId, body: RazorpayBody, at: Time)
    | PayUWebhook(txn: nat, status: PayUStatus, at: Time)
    | DevComplete(user: User, orderId: nat, at: Time)

  datatype Outcome = Handled | AlreadyHandled | NoEventId | NoOrderId | PaymentNotFound | NotAllowed

  // ---------------------------------------------------------------- table writes

  /** MarkPaymentCompleted and MarkPaymentFailed touch pending rows only. */
  function Marked(p: Payment, status: PaymentStatus): Payment {
    p.(status := if p.status == Pending then status else p.status)
  }

  /** UpsertActiveSubscription. */
  function Upserted(subs: map<User, Subscription>, user: User, plan: Plan, now: Time, month: nat): map<User, Subscription> {
    subs[user := Subscription(Active, plan,
                              if user in subs && subs[user].status == Active then Extend(subs[user].endsAt, now, month)
                              else now + month)]
  }

  /** Completing an order: the payment, then the subscription. */
  function Complete(s: State, k: Order, now: Time): State
    requires k in s.payments
  {
    var p := s.payments[k];
    s.(payments := s.payments[k := Marked(p, Completed)], subs := Upserted(s.subs, p.user, p.plan, now, s.month),
       log := s.log + [Bought(p.user, k, now)])
  }

  function Fail(s: State, k: Order): State
    requires k in s.payments
  {
    s.(payments := s.payments[k := Marked(s.payments[k], Failed)])
  }

  /** CancelSubscription. */
  function Cancel(s: State, user: User): State {
    if user in s.subs && s.subs[user].status == Active
    then s.(subs := s.subs[user := s.subs[user].(status := Cancelled)], log := s.log + [Dropped(user)])
    else s
  }

  // ---------------------------------------------------------------- handlers

  function HandleRazorpay(s: State, body: RazorpayBody, now: Time): (State, Outcome) {
    match body
    case PaymentCaptured(None) => (s, NoOrderId)
    case PaymentCaptured(Some(id)) =>
      var k := Order(Razorpay, id);
      if k !in s.payments then (s, PaymentNotFound)
      else if s.payments[k].status == Completed then (s, Handled)
      else (Complete(s, k, now), Handled)
    case PaymentFailed(None) => (s, NoOrderId)
    case PaymentFailed(Some(id)) =>
      var k := Order(Razorpay, id);
      if k !in s.payments then (s, PaymentNotFound) else (Fail(s, k), Handled)
    case SubscriptionCancelled(None) => (s, Handled)
    case SubscriptionCancelled(Some(user)) => (Cancel(s, user), Handled)
    case OtherEvent => (s, Handled)
  }

  function HandlePayU(s: State, txn: nat, status: PayUStatus, now: Time): (State, Outcome) {
    var k := Order(PayU, txn);
    if k !in s.payments then (s, PaymentNotFound)
    else
      match status
      case Success => (Complete(s, k, now), Handled)
      case Failure => (Fail(s, k), Handled)
      case OtherStatus => (s, Handled)
  }

  /** The event row is inserted before anything else and stays even when handling fails. */
  function Processed(handled: (State, Outcome), event: EventId): (State, Outcome) {
    (handled.0.(events := handled.0.events[event := handled.1 == Handled]), handled.1)
  }

  function Recorded(s: State, event: EventId): State {
    s.(events := s.events[event := false])
  }

  function DevCompleted(s: State, user: User, orderId: nat, now: Time): (State, Outcome) {
    var k := Order(Razorpay, orderId);
    if k !in s.payments then (s, PaymentNotFound)
    else if s.payments[k].user != user then (s, NotAllowed)
    else if s.payments[k].status == Completed then (s, Handled)
    else (Complete(s, k, now), Handled)
  }

  function Apply(s: State, step: Step): (State, Outcome) {
    match step
    case Checkout(k, user, plan, _) =>
      if k in s.payments then (s, NotAllowed) else (s.(payments := s.payments[k := Payment(user, plan, Pending)]), Handled)
    case RazorpayWebhook(event, body, now) =>
      if event == 0 then (s, NoEventId)
      else if event in s.events then (s, AlreadyHandled)
      else Processed(HandleRazorpay(Recorded(s, event), body, now), event)
    case PayUWebhook(txn, status, now) =>
      if txn == 0 then (s, NoEventId)
      else if txn in s.events then (s, AlreadyHandled)
      else Processed(HandlePayU(Recorded(s, txn), txn, status, now), txn)
    case DevComplete(user, orderId, now) => DevCompleted(s, user, orderId, now)
  }

  function Run(s: State, steps: seq<Step>): State {
    if steps == [] then s else Apply(Run(s, steps[..|steps| - 1]), steps[|steps| - 1]).0
  }

  function New(month: nat): State {
    State(month, map[], map[], map[], [])
  }

  // ---------------------------------------------------------------- history

  /** How often an order has extended a subscription. */
  ghost function TimesBought(log: seq<Entry>, k: Order): nat {
    if log == [] then 0
    else TimesBought(log[..|log| - 1], k) + if log[|log| - 1].Bought? && log[|log| - 1].order == k then 1 else 0
  }

  /** A user's captures since the last cancellation. */
  ghost function Captures(log: seq<Entry>, user: User): seq<Time> {
    if log == [] then []
    else
      var before, e := Captures(log[..|log| - 1], user), log[|log| - 1];
      if e.user != user then before else if e.Dropped? then [] else before + [e.at]
  }

  /** The order the user bought last, cancelled since or not. */
  ghost function LastBought(log: seq<Entry>, user: User): Option<Order> {
    if log == [] then None
    else
      var e := log[|log| - 1];
      if e.Bought? && e.user == user then Some(e.order) else LastBought(log[..|log| - 1], user)
  }

  lemma LastBoughtNext(log: seq<Entry>, e: Entry, user: User)
    ensures LastBought(log + [e], user) == if e.Bought? && e.user == user then Some(e.order) else LastBought(log, user)
  {
    assert (log + [e])[..|log|] == log;
  }

  lemma LogGrows(log: seq<Entry>, e: Entry, k: Order, user: User)
    ensures TimesBought(log + [e], k) == TimesBought(log, k) + if e.Bought? && e.order == k then 1 else 0
    ensures Captures(log + [e], user) ==
            if e.user != user then Captures(log, user) else if e.Dropped? then [] else Captures(log, user) + [e.at]
  {
    assert (log + [e])[..|log|] == log;
  }

  // ---------------------------------------------------------------- what the log says

  /** The end of an active subscription is what its captures since the last cancellation add
      up to. */
  ghost predicate SubOk(subs: map<User, Subscription>, log: seq<Entry>, month: nat, user: User) {
    var times := Captures(log, user);
    if user in subs && subs[user].status == Active then times != [] && subs[user].endsAt == EndsAt(times, month)
    else times == []
  }

  ghost predicate SubsOk(s: State) {
    forall user :: SubOk(s.subs, s.log, s.month, user)
  }

  ghost predicate Owned(payments: map<Order, Payment>, e: Entry) {
    e.Bought? ==> e.order in payments && payments[e.order].user == e.user
  }

  ghost predicate LogOwned(payments: map<Order, Payment>, log: seq<Entry>) {
    forall i :: 0 <= i < |log| ==> Owned(payments, log[i])
  }

  predicate HasActive(subs: map<User, Subscription>, user: User, now: Time) {
    user in subs && subs[user].status == Active && subs[user].endsAt > now
  }

  // ---------------------------------------------------------------- what one call does to an order

  predicate Fresh(s: State, event: EventId) {
    event != 0 && event !in s.events
  }

  /** The step says that the order was paid. */
  predicate Pays(step: Step, k: Order) {
    match step
    case RazorpayWebhook(_, PaymentCaptured(Some(id)), _) => k == Order(Razorpay, id)
    case PayUWebhook(txn, Success, _) => k == Order(PayU, txn)
    case DevComplete(_, id, _) => k == Order(Razorpay, id)
    case _ => false
  }

  /** ... and gets as far as the payment row. PayU's path does not look at its status. */
  predicate Buys(s: State, step: Step, k: Order) {
    k in s.payments
    && match step
       case RazorpayWebhook(event, _, _) => Fresh(s, event) && s.payments[k].status != Completed
       case PayUWebhook(txn, _, _) => Fresh(s, txn)
       case DevComplete(user, _, _) => s.payments[k].user == user && s.payments[k].status != Completed
       case Checkout(_, _, _, _) => false
  }

  /** The row of a user after buying a plan for a month. */
  predicate Subscribes(before: map<User, Subscription>, after: map<User, Subscription>, user: User, plan: Plan, now: Time, month: nat) {
    && after.Keys == before.Keys + {user}
    && (forall u :: u in before && u != user ==> after[u] == before[u])
    && after[user].status == Active && after[user].plan == plan
    && after[user].endsAt == if HasActive(before, user, now) then before[user].endsAt + month else now + month
  }

  /** A paid order that extends gives its own user its own plan, and is completed if it was
      pending; one that does not extend changes nothing but its event row. */
  lemma PaidOrderBuysItsPlan(s: State, step: Step, k: Order)
    requires Pays(step, k)
    ensures var t := Apply(s, step).0;
            if Buys(s, step, k) then
              var p := s.payments[k];
              && Subscribes(s.subs, t.subs, p.user, p.plan, step.at, s.month)
              && t.log == s.log + [Bought(p.user, k, step.at)]
              && t.payments == s.payments[k := Payment(p.user, p.plan, if p.status == Pending then Completed else p.status)]
            else t.subs == s.subs && t.log == s.log && t.payments == s.payments
  {
  }

  /** The step says that the payment failed. */
  predicate FailsOrder(step: Step, k: Order) {
    match step
    case RazorpayWebhook(_, PaymentFailed(Some(id)), _) => k == Order(Razorpay, id)
    case PayUWebhook(txn, Failure, _) => k == Order(PayU, txn)
    case _ => false
  }

  function Delivered(step: Step): EventId {
    match step
    case RazorpayWebhook(event, _, _) => event
    case PayUWebhook(txn, _, _) => txn
    case _ => 0
  }

  /** A failed payment marks a pending order as failed, and that is all. */
  lemma FailedPaymentMarksPending(s: State, step: Step, k: Order)
    requires FailsOrder(step, k)
    ensures var t := Apply(s, step).0;
            && t.subs == s.subs && t.log == s.log
            && t.payments == if Fresh(s, Delivered(step)) && k in s.payments && s.payments[k].status == Pending
                             then s.payments[k := Payment(s.payments[k].user, s.payments[k].plan, Failed)] else s.payments
  {
    var t := Apply(s, step).0;
    assert k in s.payments ==> s.payments[k := s.payments[k]] == s.payments;
  }

  /** A cancellation event stops an active subscription, keeping its plan and its end. */
  lemma CancellationKeepsPlanAndEnd(s: State, event: EventId, user: User, now: Time)
    ensures var t := Apply(s, RazorpayWebhook(event, SubscriptionCancelled(Some(user)), now)).0;
            && t.payments == s.payments
            && (if Fresh(s, event) && user in s.subs && s.subs[user].status == Active
                then t.subs == s.subs[user := Subscription(Cancelled, s.subs[user].plan, s.subs[user].endsAt)]
                     && t.log == s.log + [Dropped(user)]
                else t.subs == s.subs && t.log == s.log)
  {
  }

  /** Every other webhook leaves orders and subscriptions alone. */
  predicate Idle(step: Step) {
    match step
    case RazorpayWebhook(_, body, _) =>
      body == PaymentCaptured(None) || body == PaymentFailed(None) || body == SubscriptionCancelled(None) || body == OtherEvent
    case PayUWebhook(_, status, _) => status == OtherStatus
    case _ => false
  }

  /** The order a webhook names, if it needs one. */
  function NeededOrder(step: Step): Option<Order> {
    match step
    case RazorpayWebhook(_, PaymentCaptured(Some(id)), _) => Some(Order(Razorpay, id))
    case RazorpayWebhook(_, PaymentFailed(Some(id)), _) => Some(Order(Razorpay, id))
    case PayUWebhook(txn, _, _) => Some(Order(PayU, txn))
    case _ => None
  }

  /** A webhook is answered for what is wrong with it, and its event row says whether it was
      handled. */
  lemma EventRowSaysHandled(s: State, step: Step)
    requires step.RazorpayWebhook? || step.PayUWebhook?
    ensures var (t, out) := Apply(s, step);
            var event, k := Delivered(step), NeededOrder(step);
            && (out == NoEventId <==> event == 0)
            && (out == AlreadyHandled <==> event in s.events && event != 0)
            && (out == PaymentNotFound <==> Fresh(s, event) && k.Some? && k.value !in s.payments)
            && (out == NoOrderId <==> Fresh(s, event) && step.RazorpayWebhook?
                                      && (step.body == PaymentCaptured(None) || step.body == PaymentFailed(None)))
            && out != NotAllowed
            && t.events == (if Fresh(s, event) then s.events[event := out == Handled] else s.events)
            && (Idle(step) ==> t.payments == s.payments && t.subs == s.subs && t.log == s.log)
  {
  }

  // ---------------------------------------------------------------- where the promise breaks

  /** A captured event extends the subscription exactly when it is fresh and its order is known
      and not completed; it completes the order only if that is pending. */
  lemma CaptureExtendsIff(s: State, event: EventId, id: nat, now: Time)
    ensures var k, t := Order(Razorpay, id), Apply(s, RazorpayWebhook(event, PaymentCaptured(Some(id)), now)).0;
            && (t.log != s.log <==> event != 0 && event !in s.events && k in s.payments && s.payments[k].status != Completed)
            && (t.log != s.log ==> (t.payments[k].status == Completed <==> s.payments[k].status == Pending))
  {
  }

  ghost predicate FreshEvents(s: State, events: seq<EventId>) {
    && (forall i :: 0 <= i < |events| ==> events[i] != 0 && events[i] !in s.events)
    && forall i, j :: 0 <= i < j < |events| ==> events[i] != events[j]
  }

  function CapturedBy(events: seq<EventId>, id: nat, now: Time): (steps: seq<Step>)
    ensures |steps| == |events|
  {
    seq(|events|, i requires 0 <= i < |events| => RazorpayWebhook(events[i], PaymentCaptured(Some(id)), now))
  }

  lemma CaptureOfFailed(s: State, event: EventId, id: nat, now: Time)
    requires var k := Order(Razorpay, id); k in s.payments && s.payments[k].status == Failed
    requires event != 0 && event !in s.events
    ensures var k, t := Order(Razorpay, id), Apply(s, RazorpayWebhook(event, PaymentCaptured(Some(id)), now)).0;
            && k in t.payments && t.payments[k].status == Failed && t.events.Keys == s.events.Keys + {event}
            && TimesBought(t.log, k) == TimesBought(s.log, k) + 1
  {
    var k := Order(Razorpay, id);
    LogGrows(s.log, Bought(s.payments[k].user, k, now), k, 0);
  }

  /** Every fresh capture of a failed order buys another month, and the order stays failed. */
  lemma {:induction false} FailedOrderKeepsExtending(s: State, events: seq<EventId>, id: nat, now: Time)
    requires var k := Order(Razorpay, id); k in s.payments && s.payments[k].status == Failed
    requires FreshEvents(s, events)
    ensures var k, t := Order(Razorpay, id), Run(s, CapturedBy(events, id, now));
            && k in t.payments && t.payments[k].status == Failed
            && TimesBought(t.log, k) == TimesBought(s.log, k) + |events|
            && forall e :: e in t.events ==> e in s.events || e in events
  {
    if events == [] {
      assert CapturedBy(events, id, now) == [];
    } else {
      var init, e := events[..|events| - 1], events[|events| - 1];
      assert CapturedBy(events, id, now)[..|events| - 1] == CapturedBy(init, id, now);
      FailedOrderKeepsExtending(s, init, id, now);
      assert e !in init;
      CaptureOfFailed(Run(s, CapturedBy(init, id, now)), e, id, now);
    }
  }

  /** A cancellation forfeits the time stacked beyond the next capture, exactly when there is
      some. */
  lemma CancelForfeitsIff(s: State, user: User, plan: Plan, now: Time)
    requires user in s.subs && s.subs[user].status == Active
    ensures Upserted(Cancel(s, user).subs, user, plan, now, s.month)[user].endsAt == now + s.month
    ensures Upserted(Cancel(s, user).subs, user, plan, now, s.month)[user].endsAt == Upserted(s.subs, user, plan, now, s.month)[user].endsAt
            <==> s.subs[user].endsAt <= now
  {
  }

  /** Once an event row exists, no delivery of that event ever changes anything again, also when
      the first one failed, for instance because its order was not known yet. */
  lemma {:induction false} EventCountsOnce(s: State, steps: seq<Step>, event: EventId, body: RazorpayBody, now: Time)
    requires event in s.events && event != 0
    ensures Apply(Run(s, steps), RazorpayWebhook(event, body, now)) == (Run(s, steps), AlreadyHandled)
    ensures event in Run(s, steps).events
  {
    if steps != [] {
      EventCountsOnce(s, steps[..|steps| - 1], event, body, now);
      EventsStay(Run(s, steps[..|steps| - 1]), steps[|steps| - 1]);
    }
  }

  lemma EventsStay(s: State, step: Step)
    ensures s.events.Keys <= Apply(s, step).0.events.Keys
  {
  }

  lemma FailedDeliveryIsSwallowed(s: State, event: EventId, id: nat, now: Time, user: User, plan: Plan, later: Time)
    requires event != 0 && event !in s.events && Order(Razorpay, id) !in s.payments
    ensures var captured := PaymentCaptured(Some(id));
            var first := Apply(s, RazorpayWebhook(event, captured, now));
            var known := Apply(first.0, Checkout(Order(Razorpay, id), user, plan, later)).0;
            && first.1 == PaymentNotFound
            && Order(Razorpay, id) in known.payments
            && Apply(known, RazorpayWebhook(event, captured, later)) == (known, AlreadyHandled)
  {
  }

  /** The first PayU callback for an order decides it, even one that is neither a success nor a
      failure: every later one is dropped. */
  lemma {:induction false} FirstPayUCallbackDecides(s: State, steps: seq<Step>, txn: nat, first: PayUStatus, next: PayUStatus, now: Time, later: Time)
    requires txn != 0
    ensures var t := Run(Apply(s, PayUWebhook(txn, first, now)).0, steps);
            Apply(t, PayUWebhook(txn, next, later)) == (t, AlreadyHandled)
    ensures txn in Run(Apply(s, PayUWebhook(txn, first, now)).0, steps).events
  {
    if steps != [] {
      FirstPayUCallbackDecides(s, steps[..|steps| - 1], txn, first, next, now, later);
      EventsStay(Run(Apply(s, PayUWebhook(txn, first, now)).0, steps[..|steps| - 1]), steps[|steps| - 1]);
    }
  }

  // ---------------------------------------------------------------- the service

  class BillingService {
    const month: nat
    var payments: map<Order, Payment>
    var events: map<EventId, bool>
    var subs: map<User, Subscription>
    ghost var log: seq<Entry>

    constructor (month: nat)
      ensures Now() == New(month)
    {
      this.month := month;
      payments, events, subs, log := map[], map[], map[], [];
    }

    ghost function Now(): State
      reads this
    {
      State(month, payments, events, subs, log)
    }

    method HandleRazorpayWebhook(event: EventId, body: RazorpayBody, now: Time) returns (out: Outcome)
      modifies this
      ensures (Now(), out) == Apply(old(Now()), RazorpayWebhook(event, body, now))
    {
      if event == 0 { return NoEventId; }
      if event in events { return AlreadyHandled; }
      events := events[event := false];
      out := Handled;
      match body {
        case PaymentCaptured(order) => out := HandleRazorpayPaymentCaptured(order, now);
        case PaymentFailed(order) => out := HandleRazorpayPaymentFailed(order, now);
        case SubscriptionCancelled(user) => if user.Some? { CancelSubscription(user.value); }
        case OtherEvent =>
      }
      assert event in events && !events[event] && events[event := false] == events;
      if out != Handled { return; }
      events := events[event := true];
    }

    method HandleRazorpayPaymentCaptured(order: Option<nat>, now: Time) returns (out: Outcome)
      modifies this`payments, this`subs, this`log
      ensures (Now(), out) == HandleRazorpay(old(Now()), PaymentCaptured(order), now)
    {
      if order.None? { return NoOrderId; }
      var k := Order(Razorpay, order.value);
      if k !in payments { return PaymentNotFound; }
      if payments[k].status == Completed { return Handled; }
      CompleteOrder(k, now);
      return Handled;
    }

    method HandleRazorpayPaymentFailed(order: Option<nat>, ghost now: Time) returns (out: Outcome)
      modifies this`payments
      ensures (Now(), out) == HandleRazorpay(old(Now()), PaymentFailed(order), now)
    {
      if order.None? { return NoOrderId; }
      var k := Order(Razorpay, order.value);
      if k !in payments { return PaymentNotFound; }
      MarkPayment(k, Failed);
      return Handled;
    }

    /** The two guarded UPDATEs of payments. */
    method MarkPayment(k: Order, status: PaymentStatus)
      requires k in payments
      modifies this`payments
      ensures payments == old(payments)[k := Marked(old(payments)[k], status)]
      ensures payments.Keys == old(payments).Keys && forall j :: j in payments && j != k ==> payments[j] == old(payments)[j]
      ensures payments[k] == Payment(old(payments)[k].user, old(payments)[k].plan,
                                     if old(payments)[k].status == Pending then status else old(payments)[k].status)
    {
      if payments[k].status == Pending {
        payments := payments[k := payments[k].(status := status)];
      } else {
        assert payments[k := payments[k]] == payments;
      }
    }

    method UpsertActiveSubscription(user: User, plan: Plan, now: Time)
      modifies this`subs
      ensures subs == Upserted(old(subs), user, plan, now, month)
      ensures Subscribes(old(subs), subs, user, plan, now, month)
    {
      var endsAt := now + month;
      if user in subs && subs[user].status == Active && subs[user].endsAt > now {
        endsAt := subs[user].endsAt + month;
      }
      subs := subs[user := Subscription(Active, plan, endsAt)];
    }

    method CompleteOrder(k: Order, now: Time)
      requires k in payments
      modifies this`payments, this`subs, this`log
      ensures Now() == Complete(old(Now()), k, now)
    {
      var p := payments[k];
      MarkPayment(k, Completed);
      UpsertActiveSubscription(p.user, p.plan, now);
      log := log + [Bought(p.user, k, now)];
    }

    method CancelSubscription(user: User)
      modifies this`subs, this`log
      ensures Now() == Cancel(old(Now()), user)
      ensures subs.Keys == old(subs).Keys
      ensures forall u :: u in subs ==> subs[u].plan == old(subs)[u].plan && subs[u].endsAt == old(subs)[u].endsAt
      ensures forall u :: u in subs ==> subs[u].status == if u == user then Cancelled else old(subs)[u].status
    {
      if user in subs && subs[user].status == Active {
        subs := subs[user := subs[user].(status := Cancelled)];
        log := log + [Dropped(user)];
      }
    }

    method HandlePayUWebhook(txn: nat, status: PayUStatus, now: Time) returns (out: Outcome)
      modifies this
      ensures (Now(), out) == Apply(old(Now()), PayUWebhook(txn, status, now))
    {
      if txn == 0 { return NoEventId; }
      if txn in events { return AlreadyHandled; }
      events := events[txn := false];
      var k := Order(PayU, txn);
      if k !in payments {
        assert events == events[txn := false];
        return PaymentNotFound;
      }
      match status {
        case Success => CompleteOrder(k, now);
        case Failure => MarkPayment(k, Failed);
        case OtherStatus =>
      }
      events := events[txn := true];
      return Handled;
    }

    /** The development-only third path; like the webhooks it never looks at `Failed`. */
    method CompleteDevCheckout(user: User, orderId: nat, now: Time) returns (out: Outcome)
      modifies this`payments, this`subs, this`log
      ensures (Now(), out) == Apply(old(Now()), DevComplete(user, orderId, now))
    {
      var k := Order(Razorpay, orderId);
      if k !in payments { return PaymentNotFound; }
      if payments[k].user != user { return NotAllowed; }
      if payments[k].status == Completed { return Handled; }
      CompleteOrder(k, now);
      return Handled;
    }

    method GetEntitlements(user: User, now: Time) returns (active: bool, plan: Option<Plan>, expiresAt: Option<Time>)
      ensures active <==> HasActive(subs, user, now)
      ensures plan == if active then Some(subs[user].plan) else None
      ensures expiresAt == if active then Some(subs[user].endsAt) else None
    {
      if user !in subs || subs[user].status != Active || subs[user].endsAt <= now { return false, None, None; }
      return true, Some(subs[user].plan), Some(subs[user].endsAt);
    }
  }
}
