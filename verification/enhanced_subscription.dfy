/** The enhanced subscription service (src/lib/enhancedSubscriptionService.ts):
    the same per-user record with a cancel / grace period / reactivate
    lifecycle and an append-only history log. */
module EnhancedSubscription {
  import opened Wrappers
  import opened Ledger

  /** What every operation reads from its surroundings: the current instant,
      the day one calendar month after today (`new Date(y, m + 1, d)`),
      whether the history table accepts inserts, and whether the payment
      columns' update in `handlePaymentSuccess` succeeds. */
  datatype Ctx = Ctx(now: Instant, nextMonth: Day, historyWritable: bool, paymentWritable: bool)

  /** `SubscriptionStatus`: the stored row plus the derived fields. */
  datatype EStatus = EStatus(
    record: Record,
    canAnalyze: bool,
    daysUntilReset: nat,
    daysUntilExpiry: Option<nat>)

  /** `logSubscriptionHistory`: appends one entry; a failed insert is logged
      to the console and swallowed, so it never affects the caller. */
  function LogHistory(db: Db, ctx: Ctx, e: HistoryEntry): (db': Db)
    ensures db'.subs == db.subs
    ensures ctx.historyWritable ==> db'.history == db.history + [e]
    ensures !ctx.historyWritable ==> db'.history == db.history
  {
    if ctx.historyWritable then db.(history := db.history + [e]) else db
  }

  /** The day the grace period of a canceled row ends: the stored grace end,
      or the billing-period end when none is stored. */
  function GraceEndOf(rec: Record): Day {
    if rec.graceEnd.Some? then rec.graceEnd.value else DayOrEpoch(rec.periodEnd)
  }

  /** `today <= graceEnd`, with the stored date read as its midnight. */
  predicate InGrace(rec: Record, now: Instant) {
    now <= Midnight(GraceEndOf(rec))
  }

  /** The row `createFreeSubscription` inserts: free, limit 3, active, a
      billing period from today to one month later; the usage counter takes
      its column default of 0. */
  function FreshRecord(ctx: Ctx): (rec: Record)
    ensures rec.tier == Free && rec.limit == FreeLimit && rec.used == 0
    ensures rec.status == Some(Active)
    ensures rec.periodStart == Some(DayOf(ctx.now)) && rec.periodEnd == Some(ctx.nextMonth)
    ensures rec.graceEnd.None? && rec.canceledAt.None? && rec.cancelReason.None?
  {
    Record(Free, 0, FreeLimit, Some(DayOf(ctx.now)), Some(ctx.nextMonth), Some(Active),
           None, None, None, None, None)
  }

  /** `createFreeSubscription`: inserts the fresh row, logs 'created', and
      reports it with `canAnalyze` true and 30 days until reset. The insert
      fails (and throws) when the user already has a row. */
  function CreateFreeSubscription(db: Db, u: UserId, ctx: Ctx): (r: Result<(EStatus, Db), string>)
    ensures r.Err? <==> u in db.subs
    ensures r.Ok? ==> OnlyRowChanged(db.subs, r.value.1.subs, u)
    ensures r.Ok? ==> r.value.1.subs[u] == FreshRecord(ctx) && r.value.0.record == FreshRecord(ctx)
    ensures r.Ok? ==> r.value.0.canAnalyze && r.value.0.daysUntilReset == 30
    ensures r.Ok? && ctx.historyWritable ==>
      r.value.1.history == db.history + [HistoryEntry(u, "created", None, Some("free"), Some("Initial subscription"))]
  {
    if u in db.subs then Err("duplicate key value violates unique constraint")
    else
      var db1 := db.(subs := db.subs[u := FreshRecord(ctx)]);
      var db2 := LogHistory(db1, ctx, HistoryEntry(u, "created", None, Some("free"), Some("Initial subscription")));
      Ok((EStatus(FreshRecord(ctx), true, 30, None), db2))
  }

  /** The row after `downgradeToFree`: free, limit 3, usage 0, active, a new
      billing period, every cancellation column cleared; the payment columns
      are untouched. */
  function DowngradedRecord(rec: Record, ctx: Ctx): (n: Record)
    ensures n.tier == Free && n.limit == FreeLimit && n.used == 0 && n.status == Some(Active)
    ensures n.periodStart == Some(DayOf(ctx.now)) && n.periodEnd == Some(ctx.nextMonth)
    ensures n.canceledAt.None? && n.cancelReason.None? && n.graceEnd.None?
    ensures n.paymentId == rec.paymentId && n.paymentStatus == rec.paymentStatus
  {
    rec.(tier := Free, limit := FreeLimit, used := 0, status := Some(Active),
         periodStart := Some(DayOf(ctx.now)), periodEnd := Some(ctx.nextMonth),
         canceledAt := None, cancelReason := None, graceEnd := None)
  }

  /** `downgradeToFree`. An update that matches no row changes nothing, but
      the 'downgraded' entry is logged regardless. */
  function DowngradeToFree(db: Db, u: UserId, ctx: Ctx): (db': Db)
    ensures db'.subs.Keys == db.subs.Keys
    ensures forall v :: v in db.subs && v != u ==> db'.subs[v] == db.subs[v]
    ensures u in db.subs ==> db'.subs[u] == DowngradedRecord(db.subs[u], ctx)
    ensures u in db.subs ==> db'.subs[u].status == Some(Active)
    ensures ctx.historyWritable ==>
      db'.history == db.history + [HistoryEntry(u, "downgraded", Some("pro"), Some("free"),
                                                Some("Automatic downgrade after cancellation"))]
    ensures !ctx.historyWritable ==> db'.history == db.history
  {
    var subs := if u in db.subs then db.subs[u := DowngradedRecord(db.subs[u], ctx)] else db.subs;
    LogHistory(db.(subs := subs), ctx,
               HistoryEntry(u, "downgraded", Some("pro"), Some("free"), Some("Automatic downgrade after cancellation")))
  }

  /** 1 while the row is a canceled one whose read may still downgrade it. */
  function PendingDowngrades(db: Db, u: UserId): nat {
    if u in db.subs && db.subs[u].status == Some(Canceled) then 1 else 0
  }

  /** `getSubscriptionStatus`. A missing row is created. For an existing row
      the days until the billing end are reported and `canAnalyze` is
      `used < limit`, except for a canceled row: within its grace period
      the same rule applies; past it, a pro row is downgraded and read
      again, and any other tier cannot analyse. */
  function GetSubscriptionStatus(db: Db, u: UserId, ctx: Ctx): (r: (EStatus, Db))
    ensures u in r.1.subs && r.0.record == r.1.subs[u]
    ensures r.1.subs.Keys == db.subs.Keys + {u}
    ensures forall v :: v in db.subs && v != u ==> r.1.subs[v] == db.subs[v]
    ensures u !in db.subs ==>
      r.1.subs[u] == FreshRecord(ctx) && r.0.canAnalyze && r.0.daysUntilReset == 30
    ensures u in db.subs && db.subs[u].status != Some(Canceled) ==>
      && r.1 == db
      && (r.0.canAnalyze <==> db.subs[u].used < db.subs[u].limit)
      && r.0.daysUntilReset == DaysUntil(DayOrEpoch(db.subs[u].periodEnd), ctx.now)
      && r.0.daysUntilExpiry.None?
    ensures u in db.subs && db.subs[u].status == Some(Canceled) && InGrace(db.subs[u], ctx.now) ==>
      && r.1 == db
      && (r.0.canAnalyze <==> db.subs[u].used < db.subs[u].limit)
      && r.0.daysUntilExpiry == Some(DaysUntil(GraceEndOf(db.subs[u]), ctx.now))
    ensures u in db.subs && db.subs[u].status == Some(Canceled) && !InGrace(db.subs[u], ctx.now)
              && db.subs[u].tier == Pro ==>
      && r.1.subs[u] == DowngradedRecord(db.subs[u], ctx)
      && r.1 == DowngradeToFree(db, u, ctx)
      && r.0.canAnalyze
    ensures u in db.subs && db.subs[u].status == Some(Canceled) && !InGrace(db.subs[u], ctx.now)
              && db.subs[u].tier != Pro ==>
      r.1 == db && !r.0.canAnalyze && r.0.daysUntilExpiry == Some(0)
    decreases PendingDowngrades(db, u)
  {
    if u !in db.subs then
      var created := CreateFreeSubscription(db, u, ctx);
      created.value
    else
      var rec := db.subs[u];
      var billingEnd := DayOrEpoch(rec.periodEnd);
      var daysUntilReset := DaysUntil(billingEnd, ctx.now);
      var withinQuota := rec.used < rec.limit;
      if rec.status != Some(Canceled) then
        (EStatus(rec, withinQuota, daysUntilReset, None), db)
      else
        var graceEnd := GraceEndOf(rec);
        var daysUntilExpiry := DaysUntil(graceEnd, ctx.now);
        if ctx.now <= Midnight(graceEnd) then
          (EStatus(rec, withinQuota, daysUntilReset, Some(daysUntilExpiry)), db)
        else if rec.tier == Pro then
          GetSubscriptionStatus(DowngradeToFree(db, u, ctx), u, ctx)
        else
          (EStatus(rec, false, daysUntilReset, Some(daysUntilExpiry)), db)
  }

  /** The reply of `cancelSubscription`. */
  datatype CancelOutcome = CancelOutcome(success: bool, message: string, effectiveDate: Option<Day>)

  /** `cancelSubscription`: reads the status first (which may create or
      downgrade the row). A free row cannot be canceled and nothing further
      is written. Otherwise the row becomes canceled at `now` with the given
      reason (an absent reason leaves the column as it was) and a grace end
      of today when immediate, else the billing end; the tier is kept. */
  function CancelSubscription(db: Db, u: UserId, reason: Option<string>, immediate: bool, ctx: Ctx)
    : (r: (CancelOutcome, Db))
    ensures var (st, db1) := GetSubscriptionStatus(db, u, ctx);
      st.record.tier == Free ==>
        r == (CancelOutcome(false, "Cannot cancel free subscription", None), db1)
    ensures var (st, db1) := GetSubscriptionStatus(db, u, ctx);
      st.record.tier != Free ==>
        && r.0.success
        && r.1.subs.Keys == db1.subs.Keys
        && (forall v :: v in db1.subs && v != u ==> r.1.subs[v] == db1.subs[v])
        && r.1.subs[u].status == Some(Canceled)
        && r.1.subs[u].canceledAt == Some(ctx.now)
        && r.1.subs[u].cancelReason == (if reason.Some? then reason else st.record.cancelReason)
        && r.1.subs[u].graceEnd == (if immediate then Some(DayOf(ctx.now)) else st.record.periodEnd)
        && r.1.subs[u].tier == st.record.tier && r.1.subs[u].limit == st.record.limit
        && r.1.subs[u].used == st.record.used
        && r.0.effectiveDate == Some(if immediate then DayOf(ctx.now) else DayOrEpoch(st.record.periodEnd))
  {
    var (st, db1) := GetSubscriptionStatus(db, u, ctx);
    if st.record.tier == Free then
      (CancelOutcome(false, "Cannot cancel free subscription", None), db1)
    else
      CancelRecord(db1, u, st.record, reason, immediate, ctx)
  }

  /** The cancellation write for a paid row `rec` of `u`, then its history
      entry. */
  function CancelRecord(db1: Db, u: UserId, rec: Record, reason: Option<string>, immediate: bool, ctx: Ctx)
    : (r: (CancelOutcome, Db))
    ensures r.0.success
    ensures r.1.subs.Keys == db1.subs.Keys + {u}
    ensures forall v :: v in db1.subs && v != u ==> r.1.subs[v] == db1.subs[v]
    ensures r.1.subs[u] == rec.(status := Some(Canceled), canceledAt := Some(ctx.now),
                                cancelReason := if reason.Some? then reason else rec.cancelReason,
                                graceEnd := if immediate then Some(DayOf(ctx.now)) else rec.periodEnd)
    ensures r.0.effectiveDate == Some(if immediate then DayOf(ctx.now) else DayOrEpoch(rec.periodEnd))
  {
    var canceled := rec.(status := Some(Canceled), canceledAt := Some(ctx.now),
                         cancelReason := if reason.Some? then reason else rec.cancelReason,
                         graceEnd := if immediate then Some(DayOf(ctx.now)) else rec.periodEnd);
    var logged := if reason.Some? && reason.value != "" then reason.value else "User requested cancellation";
    var db2 := LogHistory(db1.(subs := db1.subs[u := canceled]), ctx,
                          HistoryEntry(u, "canceled", Some(TierName(rec.tier)), Some("canceled"), Some(logged)));
    var message := if immediate then "Subscription canceled immediately"
                   else "Subscription will cancel at the end of your billing period";
    (CancelOutcome(true, message, Some(if immediate then DayOf(ctx.now) else DayOrEpoch(rec.periodEnd))), db2)
  }

  /** The reply of `reactivateSubscription`. */
  datatype ReactivateOutcome = ReactivateOutcome(success: bool, message: string)

  /** `reactivateSubscription`: after the status read, only a row that is
      still canceled is reactivated: status active, cancellation columns
      cleared, tier and usage kept. */
  function ReactivateSubscription(db: Db, u: UserId, ctx: Ctx): (r: (ReactivateOutcome, Db))
    ensures var (st, db1) := GetSubscriptionStatus(db, u, ctx);
      st.record.status != Some(Canceled) ==>
        r == (ReactivateOutcome(false, "Subscription is not canceled"), db1)
    ensures var (st, db1) := GetSubscriptionStatus(db, u, ctx);
      st.record.status == Some(Canceled) ==>
        && r.0.success
        && r.1.subs.Keys == db1.subs.Keys
        && (forall v :: v in db1.subs && v != u ==> r.1.subs[v] == db1.subs[v])
        && r.1.subs[u] == st.record.(status := Some(Active), canceledAt := None,
                                     cancelReason := None, graceEnd := None)
  {
    var (st, db1) := GetSubscriptionStatus(db, u, ctx);
    var rec := st.record;
    if rec.status != Some(Canceled) then
      (ReactivateOutcome(false, "Subscription is not canceled"), db1)
    else
      var active := rec.(status := Some(Active), canceledAt := None, cancelReason := None, graceEnd := None);
      var db2 := LogHistory(db1.(subs := db1.subs[u := active]), ctx,
                            HistoryEntry(u, "reactivated", Some("canceled"), Some(TierName(rec.tier)),
                                         Some("User reactivated subscription")));
      (ReactivateOutcome(true, "Subscription reactivated successfully"), db2)
  }

  /** `upgradeSubscription`: tier = plan, limit 50 for 'pro' else 3, usage
      reset to 0, active, a new billing period, cancel time and reason
      cleared, but the grace end left as it was. A missing row is not
      created; the 'upgraded' entry is logged regardless. */
  function UpgradeSubscription(db: Db, u: UserId, plan: string, ctx: Ctx): (db': Db)
    ensures db'.subs.Keys == db.subs.Keys
    ensures forall v :: v in db.subs && v != u ==> db'.subs[v] == db.subs[v]
    ensures u in db.subs ==> var n := db'.subs[u];
      && n.tier == TierOf(plan) && n.limit == LimitFor(plan) && n.used == 0
      && n.status == Some(Active)
      && n.periodStart == Some(DayOf(ctx.now)) && n.periodEnd == Some(ctx.nextMonth)
      && n.canceledAt.None? && n.cancelReason.None?
      && n.graceEnd == db.subs[u].graceEnd
      && n.paymentId == db.subs[u].paymentId && n.paymentStatus == db.subs[u].paymentStatus
    ensures ctx.historyWritable ==>
      db'.history == db.history + [HistoryEntry(u, "upgraded", Some("free"), Some(plan), Some("User upgraded subscription"))]
  {
    var subs :=
      if u in db.subs then
        db.subs[u := db.subs[u].(tier := TierOf(plan), limit := LimitFor(plan), used := 0,
                                 status := Some(Active), periodStart := Some(DayOf(ctx.now)),
                                 periodEnd := Some(ctx.nextMonth), canceledAt := None, cancelReason := None)]
      else db.subs;
    LogHistory(db.(subs := subs), ctx,
               HistoryEntry(u, "upgraded", Some("free"), Some(plan), Some("User upgraded subscription")))
  }

  /** `handlePaymentSuccess`: the upgrade, then the payment id and an active
      payment status. A failure of that second update is only logged: the
      call still succeeds and the row keeps its old payment columns. */
  function HandlePaymentSuccess(db: Db, u: UserId, sessionId: string, plan: string, ctx: Ctx): (db': Db)
    ensures db'.subs.Keys == db.subs.Keys
    ensures forall v :: v in db.subs && v != u ==> db'.subs[v] == db.subs[v]
    ensures u in db.subs ==> db'.subs[u].tier == TierOf(plan) && db'.subs[u].used == 0
    ensures u in db.subs && ctx.paymentWritable ==>
      db'.subs[u].paymentId == Some(sessionId) && db'.subs[u].paymentStatus == Some(PaymentActive)
    ensures u in db.subs && !ctx.paymentWritable ==>
      db'.subs[u].paymentId == db.subs[u].paymentId && db'.subs[u].paymentStatus == db.subs[u].paymentStatus
    ensures u in db.subs ==> var n := db'.subs[u];
      && n.limit == LimitFor(plan) && n.status == Some(Active)
      && n.periodStart == Some(DayOf(ctx.now)) && n.periodEnd == Some(ctx.nextMonth)
      && n.canceledAt.None? && n.cancelReason.None? && n.graceEnd == db.subs[u].graceEnd
    ensures ctx.historyWritable ==>
      db'.history == db.history + [HistoryEntry(u, "upgraded", Some("free"), Some(plan), Some("User upgraded subscription"))]
    ensures !ctx.historyWritable ==> db'.history == db.history
  {
    var db1 := UpgradeSubscription(db, u, plan, ctx);
    if u in db1.subs && ctx.paymentWritable then
      db1.(subs := db1.subs[u := db1.subs[u].(paymentId := Some(sessionId), paymentStatus := Some(PaymentActive))])
    else db1
  }

  /** When the payment columns' update fails, `handlePaymentSuccess` has
      done exactly what `upgradeSubscription` does. */
  lemma FailedPaymentUpdateIsPlainUpgrade(db: Db, u: UserId, sessionId: string, plan: string, ctx: Ctx)
    requires !ctx.paymentWritable
    ensures HandlePaymentSuccess(db, u, sessionId, plan, ctx) == UpgradeSubscription(db, u, plan, ctx)
  {
  }

  /** After a paid 'pro' upgrade, a status read at any later instant leaves
      the row as it is and reports that the user can analyse, with the pro
      limit and a fresh counter. */
  lemma PaidProUserCanAnalyze(db: Db, u: UserId, sessionId: string, ctx: Ctx, later: Ctx)
    requires u in db.subs
    ensures var db1 := HandlePaymentSuccess(db, u, sessionId, "pro", ctx);
      var (st, db2) := GetSubscriptionStatus(db1, u, later);
      && db2 == db1
      && st.canAnalyze
      && st.record.tier == Pro && st.record.limit == ProLimit && st.record.used == 0
  {
    var db1 := HandlePaymentSuccess(db, u, sessionId, "pro", ctx);
    assert db1.subs[u].status == Some(Active);
    assert db1.subs[u].limit == ProLimit;
  }

  /** An immediate cancel stores today's date as the grace end, and a date
      column is read as its midnight: a status read later the same day (any
      instant but midnight itself) finds the grace period over and
      downgrades the pro row straight away, resetting its usage. */
  lemma ImmediateCancelDowngradesSameDay(db: Db, u: UserId, ctx: Ctx)
    requires u in db.subs && db.subs[u].tier == Pro && db.subs[u].status == Some(Active)
    requires ctx.now % MsPerDay != 0
    ensures var (_, db1) := CancelSubscription(db, u, None, true, ctx);
      var (st, db2) := GetSubscriptionStatus(db1, u, ctx);
      && db1.subs[u].status == Some(Canceled)
      && db2.subs[u].tier == Free && db2.subs[u].status == Some(Active) && db2.subs[u].used == 0
      && st.canAnalyze
  {
    var (st0, db0) := GetSubscriptionStatus(db, u, ctx);
    assert db0 == db;
    var (_, db1) := CancelSubscription(db, u, None, true, ctx);
    var rec := db1.subs[u];
    assert GraceEndOf(rec) == DayOf(ctx.now);
    assert !InGrace(rec, ctx.now);
  }

  /** Cancelling a pro row at the end of the billing period and then
      reactivating it while the period lasts restores an active pro row with
      the same usage, limit and billing period and no cancellation data. */
  lemma CancelThenReactivateRestores(db: Db, u: UserId, reason: Option<string>, ctx: Ctx)
    requires u in db.subs && db.subs[u].tier == Pro && db.subs[u].status == Some(Active)
    requires db.subs[u].periodEnd.Some? && ctx.now <= Midnight(db.subs[u].periodEnd.value)
    ensures var (c, db1) := CancelSubscription(db, u, reason, false, ctx);
      var (a, db2) := ReactivateSubscription(db1, u, ctx);
      && c.success && a.success
      && db2.subs[u] == db.subs[u].(status := Some(Active), canceledAt := None,
                                    cancelReason := None, graceEnd := None)
  {
    var (_, db1) := CancelSubscription(db, u, reason, false, ctx);
    assert db1.subs[u].graceEnd == db.subs[u].periodEnd;
    assert InGrace(db1.subs[u], ctx.now);
  }

  /** The enhanced upgrade leaves a stale grace end behind: upgrading a
      canceled row clears its cancel time and reason but keeps the grace
      end it carried. */
  lemma UpgradeKeepsGraceEnd(db: Db, u: UserId, g: Day, ctx: Ctx)
    requires u in db.subs && db.subs[u].status == Some(Canceled) && db.subs[u].graceEnd == Some(g)
    ensures var n := UpgradeSubscription(db, u, "pro", ctx).subs[u];
      n.status == Some(Active) && n.canceledAt.None? && n.graceEnd == Some(g) && n.limit == ProLimit
  {
  }
}
