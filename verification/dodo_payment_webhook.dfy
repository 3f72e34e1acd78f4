/** The second payment webhook receiver (api/webhooks/dodo-payment.js):
    it insists on a signature header and a configured secret, then applies
    checkout, renewal and deletion events keyed by the stored payment id. */
module DodoPaymentWebhook {
  import opened Wrappers
  import opened Ledger

  /** `session.metadata`: both fields may be absent or empty. */
  datatype Metadata = Metadata(userId: Option<string>, plan: Option<string>)

  /** `event.data.object`: a checkout session (`id`, `metadata`), an invoice
      (`subscription`) or a subscription (`id`). */
  datatype EventObject = EventObject(id: string, subscription: string, metadata: Option<Metadata>)

  datatype Request = Request(
    verb: string,
    signature: Option<string>,   // the dodo-signature header
    eventType: string,
    obj: EventObject)

  datatype Response = Response(code: int, db: Db)

  /** A present, non-empty string (JavaScript truthiness of a string). */
  predicate Truthy(s: Option<string>) {
    s.Some? && s.value != ""
  }

  /** The row the checkout upsert writes. The payload names no `id`, the
      table's primary key, and the call names no conflict column, so the
      upsert is an insert: the columns it does not name take their
      defaults. */
  function InsertedRecord(plan: string, sessionId: string, now: Instant): (n: Record)
    ensures n.tier == TierOf(plan) && n.limit == LimitFor(plan) && n.used == 0
    ensures n.paymentId == Some(sessionId) && n.paymentStatus == Some(PaymentActive)
    ensures n.periodStart == Some(DayOf(now)) && n.periodEnd == Some(DayOf(now) + 30)
    ensures n.status.None? && n.graceEnd.None? && n.canceledAt.None? && n.cancelReason.None?
  {
    Record(TierOf(plan), 0, LimitFor(plan), Some(DayOf(now)), Some(DayOf(now + 30 * MsPerDay)), None,
           Some(PaymentActive), Some(sessionId), None, None, None)
  }

  /** The metadata names both a user and a plan. */
  predicate Named(s: EventObject) {
    s.metadata.Some? && Truthy(s.metadata.value.userId) && Truthy(s.metadata.value.plan)
  }

  /** `handlePaymentSuccess`: without a user id or a plan nothing happens;
      otherwise a row for the user is inserted. A missing `metadata` object
      is a TypeError; the insert fails when the store fails or the user
      already has a row (one row per user). */
  function CheckoutCompleted(t: Table, s: EventObject, now: Instant, storeFails: bool): (r: Result<Table, string>)
    ensures r.Err? <==> s.metadata.None? || (Named(s) && (storeFails || s.metadata.value.userId.value in t))
    ensures r.Ok? && !Named(s) ==> r.value == t
    ensures r.Ok? && Named(s) ==>
      var u := s.metadata.value.userId.value;
      && u !in t && u in r.value
      && OnlyRowChanged(t, r.value, u)
      && r.value[u] == InsertedRecord(s.metadata.value.plan.value, s.id, now)
  {
    if s.metadata.None? then Err("Cannot destructure undefined")
    else
      var m := s.metadata.value;
      if !Truthy(m.userId) || !Truthy(m.plan) then Ok(t)
      else if storeFails then Err("upsert failed")
      else if m.userId.value in t then Err("duplicate key value violates unique constraint")
      else
        var u := m.userId.value;
        Ok(t[u := InsertedRecord(m.plan.value, s.id, now)])
  }

  /** Applies `f` to every row whose payment id is `id`. */
  function UpdateWherePaymentId(t: Table, id: string, f: Record -> Record): (t': Table)
    ensures t'.Keys == t.Keys
    ensures forall v :: v in t ==> t'[v] == (if t[v].paymentId == Some(id) then f(t[v]) else t[v])
  {
    map v | v in t :: if t[v].paymentId == Some(id) then f(t[v]) else t[v]
  }

  /** `handleSubscriptionPayment`: payment status active on the rows whose
      payment id is the invoice's subscription; nothing else changes. */
  function SubscriptionPayment(t: Table, inv: EventObject): (t': Table)
    ensures t'.Keys == t.Keys
    ensures forall v :: v in t && t[v].paymentId == Some(inv.subscription) ==>
      t'[v] == t[v].(paymentStatus := Some(PaymentActive))
    ensures forall v :: v in t && t[v].paymentId != Some(inv.subscription) ==> t'[v] == t[v]
  {
    UpdateWherePaymentId(t, inv.subscription, (rec: Record) => rec.(paymentStatus := Some(PaymentActive)))
  }

  /** `handleSubscriptionCancelled`: tier free, limit 3 and payment status
      canceled on the rows whose payment id is the subscription's id; the
      usage counter and subscription status are kept. */
  function SubscriptionDeleted(t: Table, sub: EventObject): (t': Table)
    ensures t'.Keys == t.Keys
    ensures forall v :: v in t && t[v].paymentId == Some(sub.id) ==>
      t'[v] == t[v].(tier := Free, limit := FreeLimit, paymentStatus := Some(PaymentCanceled))
    ensures forall v :: v in t && t[v].paymentId != Some(sub.id) ==> t'[v] == t[v]
  {
    UpdateWherePaymentId(t, sub.id, (rec: Record) => rec.(tier := Free, limit := FreeLimit, paymentStatus := Some(PaymentCanceled)))
  }

  /** `handler`: 405 for anything but POST, 400 without a signature header or
      configured secret, then dispatch on the event type: 200 on success or
      for an unknown type, 400 when a handler threw (with no change). */
  function Handle(db: Db, req: Request, secret: Option<string>, now: Instant, storeFails: bool): (r: Response)
    ensures r.code in {200, 400, 405}
    ensures r.code != 200 ==> r.db == db
    ensures r.db.history == db.history
    ensures req.verb != "POST" ==> r.code == 405
    ensures req.verb == "POST" && (!Truthy(req.signature) || !Truthy(secret)) ==> r.code == 400
    ensures req.verb == "POST" && Truthy(req.signature) && Truthy(secret) ==>
      if req.eventType == "checkout.session.completed" then
        match CheckoutCompleted(db.subs, req.obj, now, storeFails)
        case Ok(t') => r == Response(200, db.(subs := t'))
        case Err(_) => r == Response(400, db)
      else if req.eventType == "invoice.payment_succeeded" then
        if storeFails then r == Response(400, db) else r == Response(200, db.(subs := SubscriptionPayment(db.subs, req.obj)))
      else if req.eventType == "customer.subscription.deleted" then
        if storeFails then r == Response(400, db) else r == Response(200, db.(subs := SubscriptionDeleted(db.subs, req.obj)))
      else r == Response(200, db)
  {
    if req.verb != "POST" then Response(405, db)
    else if !Truthy(req.signature) || !Truthy(secret) then Response(400, db)
    else if req.eventType == "checkout.session.completed" then
      match CheckoutCompleted(db.subs, req.obj, now, storeFails)
      case Ok(t') => Response(200, db.(subs := t'))
      case Err(_) => Response(400, db)
    else if req.eventType == "invoice.payment_succeeded" then
      if storeFails then Response(400, db) else Response(200, db.(subs := SubscriptionPayment(db.subs, req.obj)))
    else if req.eventType == "customer.subscription.deleted" then
      if storeFails then Response(400, db) else Response(200, db.(subs := SubscriptionDeleted(db.subs, req.obj)))
    else Response(200, db)
  }

  /** A checkout for a user who already has a row (every user whose status
      was read once) is answered 400 and changes nothing, so a redelivered
      checkout event, at whatever instant, fails after the first one
      succeeded. */
  lemma ExistingUserCheckoutRejected(db: Db, req: Request, secret: Option<string>, now: Instant)
    requires req.verb == "POST" && Truthy(req.signature) && Truthy(secret)
    requires req.eventType == "checkout.session.completed"
    requires Named(req.obj) && req.obj.metadata.value.userId.value in db.subs
    ensures Handle(db, req, secret, now, false) == Response(400, db)
  {
  }

  /** The second delivery of a checkout event is rejected. */
  lemma CheckoutRedeliveryRejected(t: Table, s: EventObject, now: Instant, later: Instant)
    requires Named(s) && CheckoutCompleted(t, s, now, false).Ok?
    ensures CheckoutCompleted(CheckoutCompleted(t, s, now, false).value, s, later, false).Err?
  {
  }

  /** A renewal that arrives after a deletion marks the payment active again
      but leaves the row on the free tier with the free limit. */
  lemma RenewalAfterDeletionStaysFree(t: Table, u: UserId, id: string)
    requires u in t && t[u].paymentId == Some(id)
    ensures var t2 := SubscriptionPayment(SubscriptionDeleted(t, EventObject(id, "", None)), EventObject("", id, None));
      t2[u].tier == Free && t2[u].limit == FreeLimit && t2[u].paymentStatus == Some(PaymentActive)
  {
  }
}
