/**
 * The Stripe webhook endpoint (src/app/api/webhooks/stripe/route.ts).
 *
 * A request passes a signature gate, then a dispatch on the event's type
 * string; every branch issues at most one write against the
 * `user_subscriptions` table: a plain insert, an update of the rows whose
 * `stripe_subscription_id` matches, or nothing.  The table is an in-memory
 * sequence of rows held by a `SubscriptionTable` object.  Whether Stripe's
 * signature check accepted the raw body is a boolean input, and the
 * timestamp `new Date().toISOString()` is an opaque `now` string input.
 */
module Webhook {
  import opened Wrappers

  /** One row of `user_subscriptions`. */
  datatype Row = Row(
    userId: string,
    planType: string,
    stripeCustomerId: string,
    stripeSubscriptionId: string,
    status: string,
    startedAt: string,
    canceledAt: Option<string>)

  /** The object passed to `.update(...)`: `status` is always written,
      `canceled_at` only when the object carries it. */
  datatype Patch = Patch(status: string, canceledAt: Option<string>)

  /** The fields of `event.data.object` that the handlers read.  A checkout
      session supplies `metadata`, `customer` and `subscription`; a
      subscription supplies `id`, `metadata` and `status`.  A missing
      `metadata` object is the empty map. */
  datatype StripeObject = StripeObject(
    id: string,
    metadata: map<string, string>,
    customer: string,
    subscription: string,
    status: string)

  /** A verified Stripe event: its `type` tag and its data object. */
  datatype Event = Event(eventType: string, data: StripeObject)

  /** One delivery of an event to the endpoint. */
  datatype Delivery = Delivery(verified: bool, event: Event, now: string)

  datatype Body = Received | Error(message: string)
  datatype Response = Response(status: int, body: Body)

  const CheckoutSessionCompleted := "checkout.session.completed"
  const CustomerSubscriptionUpdated := "customer.subscription.updated"
  const CustomerSubscriptionDeleted := "customer.subscription.deleted"
  const InvoicePaymentSucceeded := "invoice.payment_succeeded"
  const InvoicePaymentFailed := "invoice.payment_failed"

  /** `{ received: true }` with status 200. */
  const Acknowledged := Response(200, Received)
  const SignatureRejected := Response(400, Error("Webhook signature verification failed"))

  /** JavaScript truthiness of `obj.metadata?.[key]`: present and not empty. */
  predicate HasMetadata(obj: StripeObject, key: string)
  {
    key in obj.metadata && obj.metadata[key] != ""
  }

  /** The row inserted for a completed checkout session. */
  function NewRow(session: StripeObject, now: string): (r: Row)
    requires HasMetadata(session, "userId") && HasMetadata(session, "planType")
    ensures r.status == "active" && r.startedAt == now && r.canceledAt == None
    ensures r.userId == session.metadata["userId"] && r.planType == session.metadata["planType"]
    ensures r.stripeCustomerId == session.customer && r.stripeSubscriptionId == session.subscription
  {
    Row(session.metadata["userId"], session.metadata["planType"],
        session.customer, session.subscription, "active", now, None)
  }

  /** A row after `.update(patch)`. */
  function Patched(row: Row, patch: Patch): (r: Row)
    ensures r.status == patch.status
    ensures r.canceledAt == (if patch.canceledAt.Some? then patch.canceledAt else row.canceledAt)
    ensures r.userId == row.userId && r.planType == row.planType && r.startedAt == row.startedAt
    ensures r.stripeCustomerId == row.stripeCustomerId
    ensures r.stripeSubscriptionId == row.stripeSubscriptionId
  {
    row.(status := patch.status,
         canceledAt := if patch.canceledAt.Some? then patch.canceledAt else row.canceledAt)
  }

  /** The table after `.update(patch).eq('stripe_subscription_id', key)`:
      exactly the matching rows are patched, every other row is kept, and
      no row is added, removed or reordered. */
  function UpdatedWhere(rows: seq<Row>, key: string, patch: Patch): (r: seq<Row>)
    ensures |r| == |rows|
    ensures forall i :: 0 <= i < |rows| && rows[i].stripeSubscriptionId == key ==>
      r[i] == Patched(rows[i], patch)
    ensures forall i :: 0 <= i < |rows| && rows[i].stripeSubscriptionId != key ==>
      r[i] == rows[i]
  {
    if rows == [] then []
    else
      [if rows[0].stripeSubscriptionId == key then Patched(rows[0], patch) else rows[0]]
      + UpdatedWhere(rows[1..], key, patch)
  }

  /** Whether the event is a completed checkout carrying both metadata fields. */
  predicate CreatesRow(e: Event)
  {
    e.eventType == CheckoutSessionCompleted && HasMetadata(e.data, "userId") && HasMetadata(e.data, "planType")
  }

  /** The table after handling `event` at time `now`, the signature being valid. */
  function Apply(rows: seq<Row>, event: Event, now: string): (r: seq<Row>)
    ensures CreatesRow(event) ==> |r| == |rows| + 1 && r[..|rows|] == rows
    ensures !CreatesRow(event) ==> |r| == |rows|
    ensures forall i :: 0 <= i < |rows| ==>
      r[i].stripeSubscriptionId == rows[i].stripeSubscriptionId
      && r[i].userId == rows[i].userId && r[i].planType == rows[i].planType
  {
    var o := event.data;
    if event.eventType == CheckoutSessionCompleted then
      if HasMetadata(o, "userId") && HasMetadata(o, "planType") then rows + [NewRow(o, now)]
      else rows
    else if event.eventType == CustomerSubscriptionUpdated then
      if HasMetadata(o, "userId") then UpdatedWhere(rows, o.id, Patch(o.status, None))
      else rows
    else if event.eventType == CustomerSubscriptionDeleted then
      UpdatedWhere(rows, o.id, Patch("canceled", Some(now)))
    else
      rows
  }

  /** The table after one delivery: an unverified delivery changes nothing. */
  function Deliver(rows: seq<Row>, d: Delivery): (r: seq<Row>)
    ensures !d.verified ==> r == rows
    ensures |r| == |rows| + (if Inserts(d) then 1 else 0)
  {
    if d.verified then Apply(rows, d.event, d.now) else rows
  }

  /** The table after a sequence of deliveries, handled one at a time in order. */
  function DeliverAll(rows: seq<Row>, ds: seq<Delivery>): (r: seq<Row>)
    ensures |r| >= |rows|
    decreases |ds|
  {
    if ds == [] then rows else DeliverAll(Deliver(rows, ds[0]), ds[1..])
  }

  /** Whether a delivery is one that inserts a row. */
  predicate Inserts(d: Delivery)
  {
    d.verified && CreatesRow(d.event)
  }

  /** The number of inserting deliveries in `ds`. */
  function InsertCount(ds: seq<Delivery>): nat
  {
    if ds == [] then 0 else (if Inserts(ds[0]) then 1 else 0) + InsertCount(ds[1..])
  }

  /** The `user_subscriptions` table, written to by the webhook handler. */
  class SubscriptionTable {
    var rows: seq<Row>

    constructor (initial: seq<Row>)
      ensures rows == initial
    {
      rows := initial;
    }

    /** `.insert(row)`: appends the row, with no uniqueness check. */
    method Insert(row: Row)
      modifies this
      ensures rows == old(rows) + [row]
    {
      rows := rows + [row];
    }

    /** `.update(patch).eq('stripe_subscription_id', key)`, one row at a time. */
    method UpdateWhere(key: string, patch: Patch)
      modifies this
      ensures rows == UpdatedWhere(old(rows), key, patch)
    {
      ghost var before := rows;
      var i := 0;
      while i < |rows|
        invariant 0 <= i <= |rows| == |before|
        invariant forall j :: 0 <= j < i && before[j].stripeSubscriptionId == key ==>
          rows[j] == Patched(before[j], patch)
        invariant forall j :: 0 <= j < i && before[j].stripeSubscriptionId != key ==>
          rows[j] == before[j]
        invariant forall j :: i <= j < |rows| ==> rows[j] == before[j]
      {
        if rows[i].stripeSubscriptionId == key {
          rows := rows[i := Patched(rows[i], patch)];
        }
        i := i + 1;
      }
      ghost var after := UpdatedWhere(before, key, patch);
      assert forall j :: 0 <= j < |rows| ==> rows[j] == after[j];
    }

    /** `POST`: the signature gate, then the dispatch on `event.eventType`. */
    method HandleEvent(verified: bool, event: Event, now: string) returns (response: Response)
      modifies this
      ensures !verified ==> response == SignatureRejected && rows == old(rows)
      ensures verified ==> response == Acknowledged && rows == Apply(old(rows), event, now)
    {
      if !verified {
        return SignatureRejected;
      }
      var o := event.data;
      if event.eventType == CheckoutSessionCompleted {
        if HasMetadata(o, "userId") && HasMetadata(o, "planType") {
          Insert(NewRow(o, now));
        }
      } else if event.eventType == CustomerSubscriptionUpdated {
        if HasMetadata(o, "userId") {
          UpdateWhere(o.id, Patch(o.status, None));
        }
      } else if event.eventType == CustomerSubscriptionDeleted {
        UpdateWhere(o.id, Patch("canceled", Some(now)));
      }
      // invoice.payment_succeeded, invoice.payment_failed and any other type: logged only
      response := Acknowledged;
    }
  }

  // ----- properties of the handler -----

  /** Patching twice with the same patch is patching once. */
  lemma {:induction false} UpdatedWhereIdempotent(rows: seq<Row>, key: string, patch: Patch)
    ensures UpdatedWhere(UpdatedWhere(rows, key, patch), key, patch) == UpdatedWhere(rows, key, patch)
  {
    if rows != [] {
      UpdatedWhereIdempotent(rows[1..], key, patch);
    }
  }

  /** An update that matches no row leaves the table as it was. */
  lemma {:induction false} UpdatedWhereNoMatch(rows: seq<Row>, key: string, patch: Patch)
    requires forall i :: 0 <= i < |rows| ==> rows[i].stripeSubscriptionId != key
    ensures UpdatedWhere(rows, key, patch) == rows
  {
    if rows != [] {
      UpdatedWhereNoMatch(rows[1..], key, patch);
    }
  }

  /** A completed checkout carrying both metadata fields appends exactly one
      active row built from the metadata and the session's ids. */
  lemma CheckoutCompletedAppendsRow(rows: seq<Row>, e: Event, now: string)
    requires e.eventType == CheckoutSessionCompleted
    requires HasMetadata(e.data, "userId") && HasMetadata(e.data, "planType")
    ensures var r := Apply(rows, e, now);
      && |r| == |rows| + 1
      && r[..|rows|] == rows
      && r[|rows|].status == "active"
      && r[|rows|].userId == e.data.metadata["userId"]
      && r[|rows|].planType == e.data.metadata["planType"]
      && r[|rows|].stripeCustomerId == e.data.customer
      && r[|rows|].stripeSubscriptionId == e.data.subscription
      && r[|rows|].startedAt == now
      && r[|rows|].canceledAt == None
  {
  }

  /** A completed checkout missing either metadata field writes nothing. */
  lemma CheckoutCompletedWithoutMetadataIsNoop(rows: seq<Row>, e: Event, now: string)
    requires e.eventType == CheckoutSessionCompleted
    requires !HasMetadata(e.data, "userId") || !HasMetadata(e.data, "planType")
    ensures Apply(rows, e, now) == rows
  {
  }

  /** The insert is not idempotent: a redelivered completed checkout adds a
      second row with the same subscription id. */
  lemma CheckoutCompletedRedeliveryDuplicates(rows: seq<Row>, e: Event, now: string)
    requires e.eventType == CheckoutSessionCompleted
    requires HasMetadata(e.data, "userId") && HasMetadata(e.data, "planType")
    ensures var twice := Apply(Apply(rows, e, now), e, now);
      && |twice| == |rows| + 2
      && twice[|rows|] == twice[|rows| + 1]
      && twice != Apply(rows, e, now)
  {
    var once := Apply(rows, e, now);
    var twice := Apply(once, e, now);
    assert |twice| != |once|;
  }

  /** A subscription update with `metadata.userId` writes the reported status
      on every matching row and leaves every other row and field alone. */
  lemma SubscriptionUpdatedSetsStatus(rows: seq<Row>, e: Event, now: string)
    requires e.eventType == CustomerSubscriptionUpdated && HasMetadata(e.data, "userId")
    ensures var r := Apply(rows, e, now);
      && |r| == |rows|
      && (forall i :: 0 <= i < |rows| && rows[i].stripeSubscriptionId == e.data.id ==>
            r[i] == rows[i].(status := e.data.status))
      && (forall i :: 0 <= i < |rows| && rows[i].stripeSubscriptionId != e.data.id ==>
            r[i] == rows[i])
  {
  }

  /** A subscription update without `metadata.userId` writes nothing. */
  lemma SubscriptionUpdatedWithoutUserIsNoop(rows: seq<Row>, e: Event, now: string)
    requires e.eventType == CustomerSubscriptionUpdated && !HasMetadata(e.data, "userId")
    ensures Apply(rows, e, now) == rows
  {
  }

  /** Delivering the same subscription update twice, even at different
      times, leaves the table as delivering it once. */
  lemma SubscriptionUpdatedIdempotent(rows: seq<Row>, e: Event, now: string, later: string)
    requires e.eventType == CustomerSubscriptionUpdated
    ensures Apply(Apply(rows, e, now), e, later) == Apply(rows, e, now)
  {
    if HasMetadata(e.data, "userId") {
      UpdatedWhereIdempotent(rows, e.data.id, Patch(e.data.status, None));
    }
  }

  /** A subscription deletion cancels the matching rows, stamping `canceled_at`,
      keeps their user, plan and ids, and never creates a row. */
  lemma SubscriptionDeletedCancels(rows: seq<Row>, e: Event, now: string)
    requires e.eventType == CustomerSubscriptionDeleted
    ensures var r := Apply(rows, e, now);
      && |r| == |rows|
      && (forall i :: 0 <= i < |rows| && rows[i].stripeSubscriptionId == e.data.id ==>
            r[i] == rows[i].(status := "canceled", canceledAt := Some(now)))
      && (forall i :: 0 <= i < |rows| && rows[i].stripeSubscriptionId != e.data.id ==>
            r[i] == rows[i])
  {
  }

  /** A redelivered deletion keeps the rows canceled but restamps
      `canceled_at` with the later time: the second delivery's table is the
      one a single delivery at that time would give. */
  lemma SubscriptionDeletedRedelivery(rows: seq<Row>, e: Event, now: string, later: string)
    requires e.eventType == CustomerSubscriptionDeleted
    ensures Apply(Apply(rows, e, now), e, later) == Apply(rows, e, later)
  {
    var b := Apply(Apply(rows, e, now), e, later);
    var c := Apply(rows, e, later);
    assert |b| == |c|;
    forall i | 0 <= i < |b| ensures b[i] == c[i] {}
  }

  /** A subscription deletion for an id no row carries changes nothing. */
  lemma SubscriptionDeletedWithoutMatchIsNoop(rows: seq<Row>, e: Event, now: string)
    requires e.eventType == CustomerSubscriptionDeleted
    requires forall i :: 0 <= i < |rows| ==> rows[i].stripeSubscriptionId != e.data.id
    ensures Apply(rows, e, now) == rows
  {
    UpdatedWhereNoMatch(rows, e.data.id, Patch("canceled", Some(now)));
  }

  /** Invoice events and every unrecognised type are acknowledged without a write. */
  lemma OtherEventsAreNoops(rows: seq<Row>, e: Event, now: string)
    ensures e.eventType in {InvoicePaymentSucceeded, InvoicePaymentFailed} ==> Apply(rows, e, now) == rows
    ensures e.eventType !in {CheckoutSessionCompleted, CustomerSubscriptionUpdated, CustomerSubscriptionDeleted} ==>
      Apply(rows, e, now) == rows
  {
  }

  /** Over any sequence of deliveries rows are never removed or reordered, and
      the table grows by exactly one row per inserting delivery. */
  lemma {:induction false} DeliveriesOnlyAppend(rows: seq<Row>, ds: seq<Delivery>)
    ensures |DeliverAll(rows, ds)| == |rows| + InsertCount(ds)
    ensures forall i :: 0 <= i < |rows| ==>
      DeliverAll(rows, ds)[i].stripeSubscriptionId == rows[i].stripeSubscriptionId
      && DeliverAll(rows, ds)[i].userId == rows[i].userId
      && DeliverAll(rows, ds)[i].planType == rows[i].planType
    decreases |ds|
  {
    if ds != [] {
      var next := Deliver(rows, ds[0]);
      DeliveriesOnlyAppend(next, ds[1..]);
    }
  }
}
