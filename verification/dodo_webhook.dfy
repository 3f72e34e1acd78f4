/** The first payment webhook receiver (api/webhooks/dodo.js): it dispatches
    an event name to a change of `user_subscriptions` and answers with an
    HTTP status code. */
module DodoWebhook {
  import opened Wrappers
  import opened Ledger

  /** `metadata` of a payment event. */
  datatype Metadata = Metadata(userId: UserId, plan: Option<string>)

  /** The `data` object of an event; which fields matter depends on the event. */
  datatype EventData = EventData(
    sessionId: Option<string>,        // session_id
    metadata: Option<Metadata>,
    subscriptionId: string,           // subscription_id
    reason: Option<string>)

  datatype Request = Request(verb: string, signature: Option<string>, event: string, data: EventData)

  /** Storage failures the receiver can meet: the subscription update and the
      history insert. */
  datatype Faults = Faults(updateFails: bool, historyFails: bool)

  datatype Response = Response(code: int, db: Db)

  /** The row after a successful payment: tier = plan (an absent plan leaves
      the column as it was), limit 50 for 'pro' else 3, usage 0, active, a
      30-day billing period from today, the session id as payment id (an
      absent one leaves the column) and an active payment status. */
  function PaidRecord(rec: Record, plan: Option<string>, sessionId: Option<string>, now: Instant): (n: Record)
    ensures n.tier == (if plan.Some? then TierOf(plan.value) else rec.tier)
    ensures n.limit == (if plan == Some("pro") then ProLimit else FreeLimit)
    ensures n.used == 0 && n.status == Some(Active) && n.paymentStatus == Some(PaymentActive)
    ensures n.periodStart == Some(DayOf(now)) && n.periodEnd == Some(DayOf(now) + 30)
    ensures n.paymentId == (if sessionId.Some? then sessionId else rec.paymentId)
    ensures n.canceledAt == rec.canceledAt && n.cancelReason == rec.cancelReason && n.graceEnd == rec.graceEnd
  {
    rec.(tier := if plan.Some? then TierOf(plan.value) else rec.tier,
         limit := if plan == Some("pro") then ProLimit else FreeLimit,
         used := 0, status := Some(Active),
         periodStart := Some(DayOf(now)), periodEnd := Some(DayOf(now + 30 * MsPerDay)),
         paymentId := if sessionId.Some? then sessionId else rec.paymentId,
         paymentStatus := Some(PaymentActive))
  }

  /** `handlePaymentSuccess`: updates the row of `metadata.user_id` (none is
      created when it is missing), then logs 'upgraded'. A failed update is
      an error; a failed history insert is only logged. A missing
      `metadata` object is a TypeError, hence an error too. */
  function PaymentSuccess(db: Db, d: EventData, now: Instant, f: Faults): (r: Result<Db, string>)
    ensures r.Err? <==> d.metadata.None? || f.updateFails
    ensures r.Ok? ==> var u := d.metadata.value.userId;
      && r.value.subs.Keys == db.subs.Keys
      && (forall v :: v in db.subs && v != u ==> r.value.subs[v] == db.subs[v])
      && (u in db.subs ==> r.value.subs[u] == PaidRecord(db.subs[u], d.metadata.value.plan, d.sessionId, now))
    ensures r.Ok? && !f.historyFails ==>
      r.value.history == db.history + [HistoryEntry(d.metadata.value.userId, "upgraded", Some("free"),
                                                    d.metadata.value.plan, Some("Payment successful via Dodo Payment"))]
    ensures r.Ok? && f.historyFails ==> r.value.history == db.history
  {
    if d.metadata.None? then Err("Cannot read properties of undefined")
    else if f.updateFails then Err("subscription update failed")
    else
      var m := d.metadata.value;
      var subs := if m.userId in db.subs then db.subs[m.userId := PaidRecord(db.subs[m.userId], m.plan, d.sessionId, now)]
                  else db.subs;
      var entry := HistoryEntry(m.userId, "upgraded", Some("free"), m.plan, Some("Payment successful via Dodo Payment"));
      Ok(Db(subs, if f.historyFails then db.history else db.history + [entry]))
  }

  /** The users whose stored payment id is `id`. */
  function Matching(t: Table, id: string): (s: set<UserId>)
    ensures forall v :: v in s <==> v in t && t[v].paymentId == Some(id)
  {
    set v | v in t.Keys && t[v].paymentId == Some(id)
  }

  /** The row after a cancellation event: canceled at `now` with the given
      reason or 'Cancelled via Dodo Payment'; tier and limit stay. */
  function CanceledRecord(rec: Record, reason: Option<string>, now: Instant): (n: Record)
    ensures n.status == Some(Canceled) && n.canceledAt == Some(now)
    ensures n.cancelReason == Some(if reason.Some? && reason.value != "" then reason.value else "Cancelled via Dodo Payment")
    ensures n.tier == rec.tier && n.limit == rec.limit && n.used == rec.used && n.graceEnd == rec.graceEnd
  {
    rec.(status := Some(Canceled), canceledAt := Some(now),
         cancelReason := Some(if reason.Some? && reason.value != "" then reason.value else "Cancelled via Dodo Payment"))
  }

  /** `handleSubscriptionCancelled`: looks the row up by payment id with
      `.single()`, which fails unless exactly one row matches, then cancels
      it. Every failure is caught and logged, so this never errors. */
  function SubscriptionCancelled(db: Db, d: EventData, now: Instant, f: Faults): (db': Db)
    ensures db'.history == db.history && db'.subs.Keys == db.subs.Keys
    ensures |Matching(db.subs, d.subscriptionId)| != 1 || f.updateFails ==> db' == db
    ensures |Matching(db.subs, d.subscriptionId)| == 1 && !f.updateFails ==>
      forall v :: v in db.subs ==>
        db'.subs[v] == (if v in Matching(db.subs, d.subscriptionId)
                        then CanceledRecord(db.subs[v], d.reason, now) else db.subs[v])
  {
    var hits := Matching(db.subs, d.subscriptionId);
    if |hits| != 1 || f.updateFails then db
    else db.(subs := map v | v in db.subs :: if v in hits then CanceledRecord(db.subs[v], d.reason, now) else db.subs[v])
  }

  /** `handler`: 405 for anything but POST; otherwise dispatch on the event
      name and answer 200, or 500 when the handler threw. The signature
      header is read but never checked. */
  function Handle(db: Db, req: Request, now: Instant, f: Faults): (r: Response)
    ensures req.verb != "POST" ==> r == Response(405, db)
    ensures req.verb == "POST" && req.event == "payment.success" ==>
      match PaymentSuccess(db, req.data, now, f)
      case Ok(db') => r == Response(200, db')
      case Err(_) => r == Response(500, db)
    ensures req.verb == "POST" && req.event == "subscription.cancelled" ==>
      r == Response(200, SubscriptionCancelled(db, req.data, now, f))
    ensures req.verb == "POST" && req.event != "payment.success" && req.event != "subscription.cancelled" ==>
      r == Response(200, db)
    ensures r.code in {200, 405, 500}
  {
    if req.verb != "POST" then Response(405, db)
    else if req.event == "payment.success" then
      match PaymentSuccess(db, req.data, now, f)
      case Ok(db') => Response(200, db')
      case Err(_) => Response(500, db)
    else if req.event == "payment.failed" then Response(200, db)
    else if req.event == "subscription.cancelled" then Response(200, SubscriptionCancelled(db, req.data, now, f))
    else Response(200, db)
  }

  /** The answer and the stored state never depend on the signature header. */
  lemma SignatureIgnored(db: Db, req: Request, sig: Option<string>, now: Instant, f: Faults)
    ensures Handle(db, req.(signature := sig), now, f) == Handle(db, req, now, f)
  {
  }

  /** A failed history insert does not undo the upgrade or fail the request:
      the rows come out the same as when the insert succeeds. */
  lemma HistoryFailureKeepsUpgrade(db: Db, req: Request, now: Instant)
    requires req.verb == "POST" && req.event == "payment.success" && req.data.metadata.Some?
    ensures var ok := Handle(db, req, now, Faults(false, false));
      var lost := Handle(db, req, now, Faults(false, true));
      ok.code == 200 && lost.code == 200 && ok.db.subs == lost.db.subs && lost.db.history == db.history
  {
  }

  /** Cancelling through the webhook keeps the tier: a paid-up pro row whose
      payment id is unique becomes a canceled pro row with usage and limit
      unchanged. */
  lemma {:induction false} CancelEventKeepsTier(db: Db, u: UserId, id: string, now: Instant, reason: Option<string>)
    requires u in db.subs && db.subs[u].tier == Pro && db.subs[u].paymentId == Some(id)
    requires forall v :: v in db.subs && v != u ==> db.subs[v].paymentId != Some(id)
    ensures var d := EventData(None, None, id, reason);
      var r := Handle(db, Request("POST", None, "subscription.cancelled", d), now, Faults(false, false));
      && r.code == 200
      && r.db.subs[u].tier == Pro && r.db.subs[u].status == Some(Canceled)
      && r.db.subs[u].limit == db.subs[u].limit && r.db.subs[u].used == db.subs[u].used
  {
    assert Matching(db.subs, id) == {u};
  }
}
