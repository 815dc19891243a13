// The storyforge Stripe webhook: verification of test events, dispatch on
// the event type, and the handlers that read and write the subscription and
// payment tables. Subscriptions are keyed by Stripe customer id and
// payments by payment-intent id, the two lookups the handlers make.
module StripeWebhook {
  import opened Common
  import opened StripeProducts

  datatype Subscription = Subscription(
    userId: int,
    stripeCustomerId: string,
    stripeSubscriptionId: Option<string>,
    plan: string,
    status: string,
    booksPerMonth: nat,
    imagesPerMonth: nat,
    currentMonthBooksCreated: nat,
    currentMonthImagesGenerated: nat,
    currentPeriodStart: int,
    currentPeriodEnd: int,
    canceledAt: Option<int>)

  /** `userId` is None when `parseInt` of the metadata gave NaN. */
  datatype Payment = Payment(
    userId: Option<int>,
    stripePaymentIntentId: string,
    amount: int,
    currency: string,
    status: string,
    paymentType: string,
    description: Option<string>)

  type Metadata = map<string, string>

  datatype CheckoutSession = CheckoutSession(id: string, clientReferenceId: Option<string>, customer: Option<string>, metadata: Option<Metadata>)

  /** Period bounds are Stripe's seconds since the epoch. */
  datatype StripeSubscription = StripeSubscription(
    id: string, customer: string, status: string, metadata: Option<Metadata>, currentPeriodStart: int, currentPeriodEnd: int)

  /** An invoice's `payment_intent`: an id, or an expanded object with one. */
  datatype IntentRef = IntentIdRef(intentId: string) | ExpandedIntent(expandedId: string)

  datatype Invoice = Invoice(
    id: string, customer: string, paymentIntent: Option<IntentRef>, amountPaid: Option<int>, currency: Option<string>, number: Option<string>)

  datatype PaymentIntent = PaymentIntent(id: string, amount: int, currency: string, metadata: Option<Metadata>, description: Option<string>)

  datatype EventType =
    | CheckoutSessionCompleted
    | SubscriptionCreated
    | SubscriptionUpdated
    | SubscriptionDeleted
    | InvoicePaid
    | InvoicePaymentFailed
    | PaymentIntentSucceeded
    | PaymentIntentFailed
    | Unhandled(name: string)

  datatype EventObject =
    | SessionObject(session: CheckoutSession)
    | SubscriptionObject(subscription: StripeSubscription)
    | InvoiceObject(invoice: Invoice)
    | IntentObject(intent: PaymentIntent)
    | OtherObject

  datatype StripeEvent = StripeEvent(id: string, kind: EventType, payload: EventObject)

  datatype Tables = Tables(subscriptions: map<string, Subscription>, payments: map<string, Payment>)

  /** `{verified: true}`, `{received: true}`, or a 400 with the error. */
  datatype WebhookResponse = Verified | Received | BadRequest

  const TEST_EVENT_PREFIX := "evt_test_"
  const PERIOD_MS := 30 * 24 * 60 * 60 * 1000
  /** Stands for the TypeError thrown when a plan name is not in PLAN_CONFIG. */
  const UNKNOWN_PLAN := "TypeError: plan configuration is undefined"

  /** The event type named by Stripe's `type` string. */
  function EventTypeOf(name: string): (r: EventType)
    ensures r.Unhandled? <==> name !in {"checkout.session.completed", "customer.subscription.created",
      "customer.subscription.updated", "customer.subscription.deleted", "invoice.paid",
      "invoice.payment_failed", "payment_intent.succeeded", "payment_intent.payment_failed"}
    ensures r.Unhandled? ==> r.name == name
    ensures name == "checkout.session.completed" ==> r == CheckoutSessionCompleted
    ensures name == "customer.subscription.created" ==> r == SubscriptionCreated
    ensures name == "customer.subscription.updated" ==> r == SubscriptionUpdated
    ensures name == "customer.subscription.deleted" ==> r == SubscriptionDeleted
    ensures name == "invoice.paid" ==> r == InvoicePaid
    ensures name == "invoice.payment_failed" ==> r == InvoicePaymentFailed
    ensures name == "payment_intent.succeeded" ==> r == PaymentIntentSucceeded
    ensures name == "payment_intent.payment_failed" ==> r == PaymentIntentFailed
  {
    if name == "checkout.session.completed" then CheckoutSessionCompleted
    else if name == "customer.subscription.created" then SubscriptionCreated
    else if name == "customer.subscription.updated" then SubscriptionUpdated
    else if name == "customer.subscription.deleted" then SubscriptionDeleted
    else if name == "invoice.paid" then InvoicePaid
    else if name == "invoice.payment_failed" then InvoicePaymentFailed
    else if name == "payment_intent.succeeded" then PaymentIntentSucceeded
    else if name == "payment_intent.payment_failed" then PaymentIntentFailed
    else Unhandled(name)
  }

  /** Stripe sends each handled type with the matching object (the source
      casts `event.data.object` accordingly). */
  predicate WellTyped(e: StripeEvent)
    ensures e.kind.Unhandled? ==> WellTyped(e)
    ensures WellTyped(e) && !e.kind.Unhandled? ==> !e.payload.OtherObject?
  {
    match e.kind
    case CheckoutSessionCompleted => e.payload.SessionObject?
    case SubscriptionCreated => e.payload.SubscriptionObject?
    case SubscriptionUpdated => e.payload.SubscriptionObject?
    case SubscriptionDeleted => e.payload.SubscriptionObject?
    case InvoicePaid => e.payload.InvoiceObject?
    case InvoicePaymentFailed => e.payload.InvoiceObject?
    case PaymentIntentSucceeded => e.payload.IntentObject?
    case PaymentIntentFailed => e.payload.IntentObject?
    case Unhandled(_) => true
  }

  /** `metadata?.[key]`. */
  function MetaValue(metadata: Option<Metadata>, key: string): (r: Option<string>)
    ensures r.Some? <==> metadata.Some? && key in metadata.value
    ensures r.Some? ==> r.value == metadata.value[key]
  {
    if metadata.Some? && key in metadata.value then Some(metadata.value[key]) else None
  }

  /** `parseInt(client_reference_id || "0")`, falsy (NaN or 0) as None. */
  function CheckoutUserId(session: CheckoutSession): (r: Option<int>)
    ensures r.Some? ==> r.value != 0 && r == ParseInt(OrElse(session.clientReferenceId, "0"))
    ensures r.Some? <==> ParseInt(OrElse(session.clientReferenceId, "0")).Some? && ParseInt(OrElse(session.clientReferenceId, "0")).value != 0
  {
    var parsed := ParseInt(OrElse(session.clientReferenceId, "0"));
    if parsed.Some? && parsed.value != 0 then parsed else None
  }

  /** `checkout.session.completed`: with a user and a customer, creates the
      customer's subscription when there is none, on the metadata plan
      (default starter), active, with that plan's allowances, no usage and
      a 30-day period from now. An unknown plan throws. */
  function CheckoutCompleted(t: Tables, session: CheckoutSession, now: int): (r: Result<Tables>)
    ensures r.Ok? ==> r.value.payments == t.payments
    ensures r.Err? <==> (CheckoutUserId(session).Some? && Truthy(session.customer) && session.customer.value !in t.subscriptions
      && OrElse(MetaValue(session.metadata, "plan"), "starter") !in PlanConfig())
    ensures r.Ok? && r.value != t ==>
      (CheckoutUserId(session).Some? && Truthy(session.customer) && session.customer.value !in t.subscriptions
      && r.value.subscriptions.Keys == t.subscriptions.Keys + {session.customer.value}
      && forall k :: k in t.subscriptions ==> r.value.subscriptions[k] == t.subscriptions[k])
    ensures r.Ok? && CheckoutUserId(session).Some? && Truthy(session.customer) && session.customer.value !in t.subscriptions ==>
      var plan := OrElse(MetaValue(session.metadata, "plan"), "starter");
      session.customer.value in r.value.subscriptions
      && r.value.subscriptions[session.customer.value] == Subscription(CheckoutUserId(session).value, session.customer.value,
        None, plan, "active", PlanConfig()[plan].booksPerMonth, PlanConfig()[plan].imagesPerMonth, 0, 0, now, now + PERIOD_MS, None)
  {
    var userId := CheckoutUserId(session);
    if userId.None? || !Truthy(session.customer) then Ok(t)
    else
      var customer := session.customer.value;
      if customer in t.subscriptions then Ok(t)
      else
        var plan := OrElse(MetaValue(session.metadata, "plan"), "starter");
        if plan !in PlanConfig() then Err(UNKNOWN_PLAN)
        else
          var config := PlanConfig()[plan];
          var created := Subscription(userId.value, customer, None, plan, "active", config.booksPerMonth,
            config.imagesPerMonth, 0, 0, now, now + PERIOD_MS, None);
          Ok(t.(subscriptions := t.subscriptions[customer := created]))
  }

  /** `customer.subscription.created`: an existing record for the customer
      takes the subscription id, status and period (seconds times 1000);
      otherwise nothing happens. The plan is looked up but never read, so an
      unknown plan does not throw here. */
  function SubscriptionCreatedStep(t: Tables, s: StripeSubscription): (r: Tables)
    ensures r.payments == t.payments
    ensures r.subscriptions.Keys == t.subscriptions.Keys
    ensures forall k :: k in t.subscriptions && k != s.customer ==> r.subscriptions[k] == t.subscriptions[k]
    ensures s.customer in t.subscriptions ==> r.subscriptions[s.customer] == t.subscriptions[s.customer].(
      stripeSubscriptionId := Some(s.id), status := s.status,
      currentPeriodStart := s.currentPeriodStart * 1000, currentPeriodEnd := s.currentPeriodEnd * 1000)
  {
    if s.customer !in t.subscriptions then t
    else
      var existing := t.subscriptions[s.customer];
      var updated := existing.(stripeSubscriptionId := Some(s.id), status := s.status,
        currentPeriodStart := s.currentPeriodStart * 1000, currentPeriodEnd := s.currentPeriodEnd * 1000);
      t.(subscriptions := t.subscriptions[s.customer := updated])
  }

  /** The plan `customer.subscription.updated` applies: the metadata plan,
      or the record's own. */
  function UpdatedPlan(existing: Subscription, s: StripeSubscription): (r: string)
    ensures Truthy(MetaValue(s.metadata, "plan")) ==> r == s.metadata.value["plan"]
    ensures !Truthy(MetaValue(s.metadata, "plan")) ==> r == existing.plan
  {
    OrElse(MetaValue(s.metadata, "plan"), existing.plan)
  }

  /** `customer.subscription.updated`: an existing record takes the plan,
      its allowances, the status and the period; an unknown plan throws. */
  function SubscriptionUpdatedStep(t: Tables, s: StripeSubscription): (r: Result<Tables>)
    ensures r.Err? <==> s.customer in t.subscriptions && UpdatedPlan(t.subscriptions[s.customer], s) !in PlanConfig()
    ensures r.Ok? ==> r.value.payments == t.payments && r.value.subscriptions.Keys == t.subscriptions.Keys
    ensures r.Ok? ==> forall k :: k in t.subscriptions && k != s.customer ==> r.value.subscriptions[k] == t.subscriptions[k]
    ensures r.Ok? && s.customer in t.subscriptions ==>
      var plan := UpdatedPlan(t.subscriptions[s.customer], s);
      r.value.subscriptions[s.customer] == t.subscriptions[s.customer].(plan := plan, status := s.status,
        booksPerMonth := PlanConfig()[plan].booksPerMonth, imagesPerMonth := PlanConfig()[plan].imagesPerMonth,
        currentPeriodStart := s.currentPeriodStart * 1000, currentPeriodEnd := s.currentPeriodEnd * 1000)
  {
    if s.customer !in t.subscriptions then Ok(t)
    else
      var existing := t.subscriptions[s.customer];
      var plan := UpdatedPlan(existing, s);
      if plan !in PlanConfig() then Err(UNKNOWN_PLAN)
      else
        var config := PlanConfig()[plan];
        var updated := existing.(plan := plan, status := s.status, booksPerMonth := config.booksPerMonth,
          imagesPerMonth := config.imagesPerMonth, currentPeriodStart := s.currentPeriodStart * 1000,
          currentPeriodEnd := s.currentPeriodEnd * 1000);
        Ok(t.(subscriptions := t.subscriptions[s.customer := updated]))
  }

  /** Sets the status of the customer's record, if there is one, and
      stamps `canceledAt` when given. */
  function SetStatus(t: Tables, customer: string, status: string, canceledAt: Option<int>): (r: Tables)
    ensures r.payments == t.payments && r.subscriptions.Keys == t.subscriptions.Keys
    ensures forall k :: k in t.subscriptions && k != customer ==> r.subscriptions[k] == t.subscriptions[k]
    ensures customer in t.subscriptions ==>
      r.subscriptions[customer] == t.subscriptions[customer].(status := status,
        canceledAt := if canceledAt.Some? then canceledAt else t.subscriptions[customer].canceledAt)
  {
    if customer !in t.subscriptions then t
    else
      var existing := t.subscriptions[customer];
      var updated := if canceledAt.Some? then existing.(status := status, canceledAt := canceledAt) else existing.(status := status);
      t.(subscriptions := t.subscriptions[customer := updated])
  }

  /** Adds a payment under its intent id unless one is recorded already. */
  function RecordPayment(t: Tables, p: Payment): (r: Tables)
    ensures r.subscriptions == t.subscriptions
    ensures p.stripePaymentIntentId in t.payments ==> r == t
    ensures p.stripePaymentIntentId !in t.payments ==> r.payments == t.payments[p.stripePaymentIntentId := p]
  {
    if p.stripePaymentIntentId in t.payments then t
    else t.(payments := t.payments[p.stripePaymentIntentId := p])
  }

  /** The truthy intent id of an invoice, if any. */
  function InvoiceIntentId(inv: Invoice): (r: Option<string>)
    ensures inv.paymentIntent.None? ==> r.None?
    ensures inv.paymentIntent.Some? && inv.paymentIntent.value.IntentIdRef? ==>
      r == if inv.paymentIntent.value.intentId == "" then None else Some(inv.paymentIntent.value.intentId)
    ensures inv.paymentIntent.Some? && inv.paymentIntent.value.ExpandedIntent? ==>
      r == Some(inv.paymentIntent.value.expandedId)
  {
    match inv.paymentIntent
    case None => None
    case Some(IntentIdRef(id)) => if id == "" then None else Some(id)
    case Some(ExpandedIntent(id)) => Some(id)
  }

  /** `Invoice ${invoice.number}`. */
  function InvoiceDescription(inv: Invoice): (r: string)
    ensures StartsWith(r, "Invoice ")
    ensures inv.number.Some? ==> r[|"Invoice "|..] == inv.number.value
    ensures inv.number.None? ==> r == "Invoice null"
  {
    "Invoice " + (if inv.number.Some? then inv.number.value else "null")
  }

  /** `invoice.paid`: with a subscription for the customer and a payment
      intent, records a succeeded subscription payment (amount 0 and
      currency usd by default) unless that intent is already recorded. */
  function InvoicePaidStep(t: Tables, inv: Invoice): (r: Tables)
    ensures r.subscriptions == t.subscriptions
    ensures forall k :: k in t.payments ==> k in r.payments && r.payments[k] == t.payments[k]
    ensures r.payments.Keys - t.payments.Keys <= (if InvoiceIntentId(inv).Some? then {InvoiceIntentId(inv).value} else {})
    ensures r != t ==>
      (inv.customer in t.subscriptions && InvoiceIntentId(inv).Some? && InvoiceIntentId(inv).value in r.payments
      && var p := r.payments[InvoiceIntentId(inv).value];
      p.status == "succeeded" && p.paymentType == "subscription"
      && p.userId == Some(t.subscriptions[inv.customer].userId))
    ensures inv.customer in t.subscriptions && InvoiceIntentId(inv).Some? && InvoiceIntentId(inv).value !in t.payments ==>
      r.payments == t.payments[InvoiceIntentId(inv).value := Payment(Some(t.subscriptions[inv.customer].userId),
        InvoiceIntentId(inv).value, if inv.amountPaid.Some? then inv.amountPaid.value else 0,
        OrElse(inv.currency, "usd"), "succeeded", "subscription", Some(InvoiceDescription(inv)))]
  {
    var intentId := InvoiceIntentId(inv);
    if inv.customer !in t.subscriptions || intentId.None? then t
    else
      var payment := Payment(Some(t.subscriptions[inv.customer].userId), intentId.value,
        if inv.amountPaid.Some? then inv.amountPaid.value else 0,
        OrElse(inv.currency, "usd"), "succeeded", "subscription", Some(InvoiceDescription(inv)));
      RecordPayment(t, payment)
  }

  /** `payment_intent.succeeded` and `payment_intent.payment_failed`: with a
      `user_id` in the metadata, records the intent with the given status
      and the metadata payment type (default one_time) unless it is
      already recorded. */
  function IntentStep(t: Tables, pi: PaymentIntent, status: string): (r: Tables)
    ensures r.subscriptions == t.subscriptions
    ensures forall k :: k in t.payments ==> k in r.payments && r.payments[k] == t.payments[k]
    ensures r.payments.Keys - t.payments.Keys <= {pi.id}
    ensures r != t <==> Truthy(MetaValue(pi.metadata, "user_id")) && pi.id !in t.payments
    ensures r != t ==>
      (pi.id in r.payments && r.payments[pi.id].status == status
      && r.payments[pi.id].paymentType == OrElse(MetaValue(pi.metadata, "payment_type"), "one_time"))
    ensures r != t ==>
      r.payments[pi.id] == Payment(ParseInt(MetaValue(pi.metadata, "user_id").value), pi.id, pi.amount, pi.currency,
        status, OrElse(MetaValue(pi.metadata, "payment_type"), "one_time"), if Truthy(pi.description) then pi.description else None)
  {
    var userIdText := MetaValue(pi.metadata, "user_id");
    if !Truthy(userIdText) then t
    else
      var payment := Payment(ParseInt(userIdText.value), pi.id, pi.amount, pi.currency, status,
        OrElse(MetaValue(pi.metadata, "payment_type"), "one_time"),
        if Truthy(pi.description) then pi.description else None);
      RecordPayment(t, payment)
  }

  /** `handleStripeWebhook`: the response and the tables afterwards. */
  function HandleEvent(t: Tables, e: StripeEvent, now: int): (r: (WebhookResponse, Tables))
    requires WellTyped(e)
    ensures StartsWith(e.id, TEST_EVENT_PREFIX) ==> r == (Verified, t)
    ensures e.kind.Unhandled? && !StartsWith(e.id, TEST_EVENT_PREFIX) ==> r == (Received, t)
    ensures r.0 == BadRequest ==> r.1 == t
    ensures r.0 == BadRequest <==>
      (!StartsWith(e.id, TEST_EVENT_PREFIX)
      && ((e.kind == CheckoutSessionCompleted && CheckoutCompleted(t, e.payload.session, now).Err?)
       || (e.kind == SubscriptionUpdated && SubscriptionUpdatedStep(t, e.payload.subscription).Err?)))
    ensures !StartsWith(e.id, TEST_EVENT_PREFIX) ==> r.0 != Verified
    ensures !StartsWith(e.id, TEST_EVENT_PREFIX) ==> (
      match e.kind
      case CheckoutSessionCompleted =>
        CheckoutCompleted(t, e.payload.session, now).Ok? ==> r == (Received, CheckoutCompleted(t, e.payload.session, now).value)
      case SubscriptionCreated => r == (Received, SubscriptionCreatedStep(t, e.payload.subscription))
      case SubscriptionUpdated =>
        SubscriptionUpdatedStep(t, e.payload.subscription).Ok? ==> r == (Received, SubscriptionUpdatedStep(t, e.payload.subscription).value)
      case SubscriptionDeleted => r == (Received, SetStatus(t, e.payload.subscription.customer, "canceled", Some(now)))
      case InvoicePaid => r == (Received, InvoicePaidStep(t, e.payload.invoice))
      case InvoicePaymentFailed => r == (Received, SetStatus(t, e.payload.invoice.customer, "past_due", None))
      case PaymentIntentSucceeded => r == (Received, IntentStep(t, e.payload.intent, "succeeded"))
      case PaymentIntentFailed => r == (Received, IntentStep(t, e.payload.intent, "failed"))
      case Unhandled(_) => r == (Received, t))
  {
    if StartsWith(e.id, TEST_EVENT_PREFIX) then (Verified, t)
    else
      var outcome := match e.kind
        case CheckoutSessionCompleted => CheckoutCompleted(t, e.payload.session, now)
        case SubscriptionCreated => Ok(SubscriptionCreatedStep(t, e.payload.subscription))
        case SubscriptionUpdated => SubscriptionUpdatedStep(t, e.payload.subscription)
        case SubscriptionDeleted => Ok(SetStatus(t, e.payload.subscription.customer, "canceled", Some(now)))
        case InvoicePaid => Ok(InvoicePaidStep(t, e.payload.invoice))
        case InvoicePaymentFailed => Ok(SetStatus(t, e.payload.invoice.customer, "past_due", None))
        case PaymentIntentSucceeded => Ok(IntentStep(t, e.payload.intent, "succeeded"))
        case PaymentIntentFailed => Ok(IntentStep(t, e.payload.intent, "failed"))
        case Unhandled(_) => Ok(t);
      if outcome.Err? then (BadRequest, t) else (Received, outcome.value)
  }

  /** Every subscription's allowances are those of its plan, and its plan exists. */
  predicate LimitsFollowPlan(t: Tables) {
    forall k :: k in t.subscriptions ==>
      t.subscriptions[k].plan in PlanConfig()
      && t.subscriptions[k].booksPerMonth == PlanConfig()[t.subscriptions[k].plan].booksPerMonth
      && t.subscriptions[k].imagesPerMonth == PlanConfig()[t.subscriptions[k].plan].imagesPerMonth
  }

  /** No event removes or alters a recorded payment: a failed payment
      stays failed after a later success, and a replay adds nothing. */
  lemma PaymentsOnlyGrow(t: Tables, e: StripeEvent, now: int)
    requires WellTyped(e)
    ensures forall k :: k in t.payments ==> k in HandleEvent(t, e, now).1.payments && HandleEvent(t, e, now).1.payments[k] == t.payments[k]
  {
  }

  /** No event removes a subscription. */
  lemma SubscriptionsNeverRemoved(t: Tables, e: StripeEvent, now: int)
    requires WellTyped(e)
    ensures t.subscriptions.Keys <= HandleEvent(t, e, now).1.subscriptions.Keys
  {
  }

  /** Every event keeps each subscription's allowances equal to its plan's. */
  lemma LimitsFollowPlanPreserved(t: Tables, e: StripeEvent, now: int)
    requires WellTyped(e) && LimitsFollowPlan(t)
    ensures LimitsFollowPlan(HandleEvent(t, e, now).1)
  {
    var t' := HandleEvent(t, e, now).1;
    forall k | k in t'.subscriptions
      ensures t'.subscriptions[k].plan in PlanConfig()
      ensures t'.subscriptions[k].booksPerMonth == PlanConfig()[t'.subscriptions[k].plan].booksPerMonth
      ensures t'.subscriptions[k].imagesPerMonth == PlanConfig()[t'.subscriptions[k].plan].imagesPerMonth
    {
      if !StartsWith(e.id, TEST_EVENT_PREFIX) && e.kind == CheckoutSessionCompleted && k !in t.subscriptions {
        var session := e.payload.session;
        var plan := OrElse(MetaValue(session.metadata, "plan"), "starter");
        assert t'.subscriptions[k].plan == plan;
      }
    }
  }

  /** Delivering the same event twice with the same clock is the same as
      delivering it once: same response, same tables. */
  lemma ReplayIsIdempotent(t: Tables, e: StripeEvent, now: int)
    requires WellTyped(e)
    ensures HandleEvent(HandleEvent(t, e, now).1, e, now) == HandleEvent(t, e, now)
  {
    if !StartsWith(e.id, TEST_EVENT_PREFIX) {
      match e.kind
      case CheckoutSessionCompleted =>
        var r := CheckoutCompleted(t, e.payload.session, now);
        if r.Ok? && r.value != t {
          assert e.payload.session.customer.value in r.value.subscriptions;
        }
      case SubscriptionUpdated =>
        UpdateReplay(t, e.payload.subscription);
      case SubscriptionCreated =>
        var s := e.payload.subscription;
        var once := SubscriptionCreatedStep(t, s);
        assert SubscriptionCreatedStep(once, s).subscriptions == once.subscriptions;
      case SubscriptionDeleted =>
        var c := e.payload.subscription.customer;
        var once := SetStatus(t, c, "canceled", Some(now));
        assert SetStatus(once, c, "canceled", Some(now)).subscriptions == once.subscriptions;
      case InvoicePaymentFailed =>
        var c := e.payload.invoice.customer;
        var once := SetStatus(t, c, "past_due", None);
        assert SetStatus(once, c, "past_due", None).subscriptions == once.subscriptions;
      case InvoicePaid =>
        var once := InvoicePaidStep(t, e.payload.invoice);
        if once != t {
          assert InvoicePaidStep(once, e.payload.invoice) == once;
        }
      case PaymentIntentSucceeded =>
      case PaymentIntentFailed =>
      case Unhandled(_) =>
    }
  }

  lemma UpdateReplay(t: Tables, s: StripeSubscription)
    ensures var r := SubscriptionUpdatedStep(t, s);
      r.Ok? ==> SubscriptionUpdatedStep(r.value, s) == r
  {
    var r := SubscriptionUpdatedStep(t, s);
    if r.Ok? && s.customer in t.subscriptions {
      var once := r.value.subscriptions[s.customer];
      var plan := UpdatedPlan(t.subscriptions[s.customer], s);
      assert UpdatedPlan(once, s) == plan;
      var config := PlanConfig()[plan];
      var again := once.(plan := plan, status := s.status, booksPerMonth := config.booksPerMonth,
        imagesPerMonth := config.imagesPerMonth, currentPeriodStart := s.currentPeriodStart * 1000,
        currentPeriodEnd := s.currentPeriodEnd * 1000);
      assert again == once;
      assert r.value.subscriptions[s.customer := again] == r.value.subscriptions;
    }
  }

  /** A later cancellation, with another clock, only moves `canceledAt`. */
  lemma CancelReplayMovesOnlyTimestamp(t: Tables, customer: string, now1: int, now2: int)
    requires customer in t.subscriptions
    ensures var once := SetStatus(t, customer, "canceled", Some(now1));
      var twice := SetStatus(once, customer, "canceled", Some(now2));
      twice.subscriptions[customer] == once.subscriptions[customer].(canceledAt := Some(now2))
  {
  }

  /** After a checkout has created a customer's subscription, a paid invoice
      for that customer is recorded against the checkout's user, as a
      succeeded subscription payment. */
  lemma CheckoutThenInvoicePaid(t: Tables, session: CheckoutSession, now: int, inv: Invoice)
    requires CheckoutUserId(session).Some? && Truthy(session.customer) && session.customer.value !in t.subscriptions
    requires OrElse(MetaValue(session.metadata, "plan"), "starter") in PlanConfig()
    requires inv.customer == session.customer.value
    requires InvoiceIntentId(inv).Some? && InvoiceIntentId(inv).value !in t.payments
    ensures CheckoutCompleted(t, session, now).Ok?
    ensures var paid := InvoicePaidStep(CheckoutCompleted(t, session, now).value, inv);
      var id := InvoiceIntentId(inv).value;
      id in paid.payments && paid.payments[id].userId == CheckoutUserId(session)
      && paid.payments[id].status == "succeeded" && paid.payments[id].paymentType == "subscription"
  {
    var created := CheckoutCompleted(t, session, now).value;
    assert inv.customer in created.subscriptions;
  }

  /** The tables behind the webhook endpoint. */
  class WebhookStore {
    var subscriptions: map<string, Subscription>
    var payments: map<string, Payment>

    function Snapshot(): Tables
      reads this
    {
      Tables(subscriptions, payments)
    }

    constructor (subscriptions: map<string, Subscription>, payments: map<string, Payment>)
      ensures Snapshot() == Tables(subscriptions, payments)
    {
      this.subscriptions := subscriptions;
      this.payments := payments;
    }

    method HandleCheckoutSessionCompleted(session: CheckoutSession, now: int) returns (ok: bool)
      modifies this
      ensures ok == CheckoutCompleted(old(Snapshot()), session, now).Ok?
      ensures Snapshot() == if ok then CheckoutCompleted(old(Snapshot()), session, now).value else old(Snapshot())
    {
      var userId := CheckoutUserId(session);
      if userId.None? || !Truthy(session.customer) {
        return true;
      }
      var stripeCustomerId := session.customer.value;
      if stripeCustomerId in subscriptions {
        return true;
      }
      var plan := OrElse(MetaValue(session.metadata, "plan"), "starter");
      if plan !in PlanConfig() {
        return false;
      }
      var planConfig := PlanConfig()[plan];
      subscriptions := subscriptions[stripeCustomerId := Subscription(userId.value, stripeCustomerId, None, plan, "active",
        planConfig.booksPerMonth, planConfig.imagesPerMonth, 0, 0, now, now + PERIOD_MS, None)];
      return true;
    }

    method HandleSubscriptionCreated(s: StripeSubscription)
      modifies this
      ensures Snapshot() == SubscriptionCreatedStep(old(Snapshot()), s)
    {
      if s.customer in subscriptions {
        var existing := subscriptions[s.customer];
        subscriptions := subscriptions[s.customer := existing.(stripeSubscriptionId := Some(s.id), status := s.status,
          currentPeriodStart := s.currentPeriodStart * 1000, currentPeriodEnd := s.currentPeriodEnd * 1000)];
      }
    }

    method HandleSubscriptionUpdated(s: StripeSubscription) returns (ok: bool)
      modifies this
      ensures ok == SubscriptionUpdatedStep(old(Snapshot()), s).Ok?
      ensures Snapshot() == if ok then SubscriptionUpdatedStep(old(Snapshot()), s).value else old(Snapshot())
    {
      if s.customer !in subscriptions {
        return true;
      }
      var existing := subscriptions[s.customer];
      var plan := OrElse(MetaValue(s.metadata, "plan"), existing.plan);
      if plan !in PlanConfig() {
        return false;
      }
      var planConfig := PlanConfig()[plan];
      subscriptions := subscriptions[s.customer := existing.(plan := plan, status := s.status,
        booksPerMonth := planConfig.booksPerMonth, imagesPerMonth := planConfig.imagesPerMonth,
        currentPeriodStart := s.currentPeriodStart * 1000, currentPeriodEnd := s.currentPeriodEnd * 1000)];
      return true;
    }

    /** `customer.subscription.deleted` (canceled, stamped now) and
        `invoice.payment_failed` (past_due). */
    method UpdateStatus(customer: string, status: string, canceledAt: Option<int>)
      modifies this
      ensures Snapshot() == SetStatus(old(Snapshot()), customer, status, canceledAt)
    {
      if customer in subscriptions {
        var existing := subscriptions[customer];
        if canceledAt.Some? {
          subscriptions := subscriptions[customer := existing.(status := status, canceledAt := canceledAt)];
        } else {
          subscriptions := subscriptions[customer := existing.(status := status)];
        }
      }
    }

    method CreatePaymentIfAbsent(payment: Payment)
      modifies this
      ensures Snapshot() == RecordPayment(old(Snapshot()), payment)
    {
      if payment.stripePaymentIntentId !in payments {
        payments := payments[payment.stripePaymentIntentId := payment];
      }
    }

    method HandleInvoicePaid(inv: Invoice)
      modifies this
      ensures Snapshot() == InvoicePaidStep(old(Snapshot()), inv)
    {
      var intentId := InvoiceIntentId(inv);
      if inv.customer in subscriptions && intentId.Some? {
        var payment := Payment(Some(subscriptions[inv.customer].userId), intentId.value,
          if inv.amountPaid.Some? then inv.amountPaid.value else 0,
          OrElse(inv.currency, "usd"), "succeeded", "subscription", Some(InvoiceDescription(inv)));
        CreatePaymentIfAbsent(payment);
      }
    }

    method HandlePaymentIntent(pi: PaymentIntent, status: string)
      modifies this
      ensures Snapshot() == IntentStep(old(Snapshot()), pi, status)
    {
      var userIdText := MetaValue(pi.metadata, "user_id");
      if Truthy(userIdText) {
        var payment := Payment(ParseInt(userIdText.value), pi.id, pi.amount, pi.currency, status,
          OrElse(MetaValue(pi.metadata, "payment_type"), "one_time"),
          if Truthy(pi.description) then pi.description else None);
        CreatePaymentIfAbsent(payment);
      }
    }

    /** `handleStripeWebhook`: test events are answered before anything
        else; a handler that throws gets a 400 and has written nothing. */
    method HandleStripeWebhook(e: StripeEvent, now: int) returns (response: WebhookResponse)
      requires WellTyped(e)
      modifies this
      ensures (response, Snapshot()) == HandleEvent(old(Snapshot()), e, now)
    {
      if StartsWith(e.id, TEST_EVENT_PREFIX) {
        return Verified;
      }
      var ok := true;
      match e.kind {
        case CheckoutSessionCompleted =>
          ok := HandleCheckoutSessionCompleted(e.payload.session, now);
        case SubscriptionCreated =>
          HandleSubscriptionCreated(e.payload.subscription);
        case SubscriptionUpdated =>
          ok := HandleSubscriptionUpdated(e.payload.subscription);
        case SubscriptionDeleted =>
          UpdateStatus(e.payload.subscription.customer, "canceled", Some(now));
        case InvoicePaid =>
          HandleInvoicePaid(e.payload.invoice);
        case InvoicePaymentFailed =>
          UpdateStatus(e.payload.invoice.customer, "past_due", None);
        case PaymentIntentSucceeded =>
          HandlePaymentIntent(e.payload.intent, "succeeded");
        case PaymentIntentFailed =>
          HandlePaymentIntent(e.payload.intent, "failed");
        case Unhandled(_) =>
      }
      response := if ok then Received else BadRequest;
    }
  }
}
