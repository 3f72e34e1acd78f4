/** The subscription service the upload flow and the payment return page use
    (src/lib/subscriptionService.ts): quota status, the manual usage
    increment, free/pro transitions and the client side of checkout. */
module SubscriptionService {
  import opened Wrappers
  import opened Ledger
  import Strings
  import QueryString

  /** What `getSubscriptionStatus` reports to the upload component. */
  datatype Status = Status(
    canAnalyze: bool,
    remaining: int,       // analysesRemaining
    tier: Tier,           // currentTier
    needsUpgrade: bool,
    used: int,            // usedThisMonth
    limit: int)           // monthlyLimit

  /** The row `createFreeSubscription` inserts. Columns it does not name are
      left to the table's defaults, modelled as absent. */
  function NewFreeRecord(): Record {
    Record(Free, 0, FreeLimit, None, None, None, None, None, None, None, None)
  }

  /** `createFreeSubscription`: inserts a free row with a limit of 3. The
      table holds one row per user, so inserting for a user who already has
      a row fails. */
  function CreateFreeSubscription(t: Table, u: UserId): (r: Result<Table, string>)
    ensures r.Err? <==> u in t
    ensures r.Ok? ==> OnlyRowChanged(t, r.value, u)
    ensures r.Ok? ==> r.value[u].tier == Free && r.value[u].limit == 3 && r.value[u].used == 0
  {
    if u in t then Err("Failed to create subscription") else Ok(t[u := NewFreeRecord()])
  }

  /** The status derived from an existing row. */
  function StatusOf(rec: Record): (s: Status)
    ensures s.remaining >= 0
    ensures s.remaining > 0 ==> s.remaining == rec.limit - rec.used
    ensures s.remaining == 0 ==> rec.used >= rec.limit
    ensures s.canAnalyze <==> rec.used < rec.limit
    ensures s.needsUpgrade <==> rec.used >= rec.limit && rec.tier == Free
    ensures s.tier == rec.tier && s.used == rec.used && s.limit == rec.limit
  {
    var remaining := if rec.limit - rec.used > 0 then rec.limit - rec.used else 0;
    var canAnalyze := remaining > 0;
    Status(canAnalyze, remaining, rec.tier, !canAnalyze && rec.tier == Free, rec.used, rec.limit)
  }

  /** The status reported when the lookup fails: the row is created and a
      fixed fresh-free status is returned without re-reading it. */
  const FreshFreeStatus: Status := Status(true, 3, Free, false, 0, 3)

  /** `getSubscriptionStatus`: a failed lookup (no row) creates the free row
      and reports the fresh status; otherwise the status follows the row. */
  function GetSubscriptionStatus(t: Table, u: UserId): (r: (Status, Table))
    ensures u !in t ==> r.0 == FreshFreeStatus
    ensures u !in t ==> OnlyRowChanged(t, r.1, u) && r.1[u] == NewFreeRecord()
    ensures u in t ==> r.1 == t
    ensures u in r.1 && r.0 == StatusOf(r.1[u])
  {
    if u !in t then (FreshFreeStatus, t[u := NewFreeRecord()])
    else (StatusOf(t[u]), t)
  }

  /** `canPerformAnalysis`. */
  function CanPerformAnalysis(t: Table, u: UserId): (ok: bool)
    ensures ok <==> u !in t || t[u].used < t[u].limit
  {
    GetSubscriptionStatus(t, u).0.canAnalyze
  }

  /** The fallback branch of `incrementUsage`, taken when the hosted
      increment procedure reports an error: read the counter and write it
      back plus one, only if the row exists. */
  function IncrementUsage(t: Table, u: UserId): (t': Table)
    ensures t'.Keys == t.Keys
    ensures u in t ==> t'[u] == t[u].(used := t[u].used + 1)
    ensures u !in t ==> t' == t
    ensures forall v :: v in t && v != u ==> t'[v] == t[v]
  {
    if u in t then t[u := t[u].(used := t[u].used + 1)] else t
  }

  /** `upgradeToPro`: tier pro, limit 50, payment status active and the
      payment id (an absent id leaves the column as it was); the usage
      counter is not reset. The update is read back with `.single()`, so a
      user without a row is an error. */
  function UpgradeToPro(t: Table, u: UserId, paymentId: Option<string>): (r: Result<Table, string>)
    ensures r.Err? <==> u !in t
    ensures r.Ok? ==> r.value.Keys == t.Keys
    ensures r.Ok? ==> forall v :: v in t && v != u ==> r.value[v] == t[v]
    ensures r.Ok? ==> var n := r.value[u];
      && n.tier == Pro && n.limit == ProLimit
      && n.paymentStatus == Some(PaymentActive)
      && n.paymentId == (if paymentId.Some? then paymentId else t[u].paymentId)
      && n.used == t[u].used
      && n.status == t[u].status && n.periodStart == t[u].periodStart && n.periodEnd == t[u].periodEnd
      && n.canceledAt == t[u].canceledAt && n.cancelReason == t[u].cancelReason && n.graceEnd == t[u].graceEnd
  {
    if u !in t then Err("Failed to upgrade subscription")
    else
      var prev := t[u];
      Ok(t[u := prev.(tier := Pro, limit := ProLimit, paymentStatus := Some(PaymentActive),
                     paymentId := if paymentId.Some? then paymentId else prev.paymentId)])
  }

  /** `cancelProSubscription`: back to free with limit 3 and payment status
      canceled; the usage counter is not reset. */
  function CancelProSubscription(t: Table, u: UserId): (r: Result<Table, string>)
    ensures r.Err? <==> u !in t
    ensures r.Ok? ==> r.value.Keys == t.Keys
    ensures r.Ok? ==> forall v :: v in t && v != u ==> r.value[v] == t[v]
    ensures r.Ok? ==> var n := r.value[u];
      && n.tier == Free && n.limit == FreeLimit
      && n.paymentStatus == Some(PaymentCanceled)
      && n.used == t[u].used && n.paymentId == t[u].paymentId && n.status == t[u].status
      && n.periodStart == t[u].periodStart && n.periodEnd == t[u].periodEnd
      && n.canceledAt == t[u].canceledAt && n.cancelReason == t[u].cancelReason && n.graceEnd == t[u].graceEnd
  {
    if u !in t then Err("Failed to cancel subscription")
    else Ok(t[u := t[u].(tier := Free, limit := FreeLimit, paymentStatus := Some(PaymentCanceled))])
  }

  /** `handlePaymentSuccess`: the pro upgrade with the session id as payment
      id; the plan argument only reaches a log line. */
  function HandlePaymentSuccess(t: Table, u: UserId, sessionId: string, plan: string): (r: Result<Table, string>)
    ensures r.Err? <==> u !in t
    ensures r.Ok? ==> r.value.Keys == t.Keys
    ensures r.Ok? ==> r.value[u].tier == Pro && r.value[u].paymentId == Some(sessionId)
    ensures r.Ok? ==> r.value[u].limit == ProLimit && r.value[u].paymentStatus == Some(PaymentActive)
    ensures r.Ok? ==> r.value[u] == t[u].(tier := Pro, limit := ProLimit, paymentStatus := Some(PaymentActive),
                                         paymentId := Some(sessionId))
    ensures r.Ok? ==> r.value[u].used == t[u].used
    ensures r.Ok? ==> forall v :: v in t && v != u ==> r.value[v] == t[v]
  {
    match UpgradeToPro(t, u, Some(sessionId))
    case Ok(t') => Ok(t')
    case Err(_) => Err("Failed to process payment success")
  }

  /** The three browser-storage keys the checkout flow leaves behind:
      `dodo_pending_payment`, `dodo_pending_user_id`, `dodo_pending_plan`. */
  datatype PendingStore = PendingStore(payment: Option<string>, userId: Option<string>, plan: Option<string>)

  /** The browser context `initiateDodoPayment` consults. */
  datatype ClientEnv = ClientEnv(
    viteSiteUrl: Option<string>,   // VITE_SITE_URL
    origin: string,                // window.location.origin
    hostname: string,              // window.location.hostname
    demoMode: Option<string>)      // VITE_DEMO_MODE

  /** The JSON body of a successful `/api/create-payment-session` reply. */
  datatype SessionReply = SessionReply(paymentUrl: string, sessionId: string)

  /** The request body the client posts. */
  datatype CheckoutRequest = CheckoutRequest(userId: string, plan: string, amount: int)

  function CheckoutRequestFor(u: UserId, plan: string): (q: CheckoutRequest)
    ensures q.userId == u && q.plan == plan
    ensures q.amount == (if plan == "pro" then 9 else 0)
  {
    CheckoutRequest(u, plan, if plan == "pro" then 9 else 0)
  }

  /** `VITE_SITE_URL || window.location.origin`. */
  function SiteUrl(env: ClientEnv): string {
    if env.viteSiteUrl.Some? && env.viteSiteUrl.value != "" then env.viteSiteUrl.value else env.origin
  }

  /** Development (served from localhost) or demo mode skips the server. */
  predicate DemoShortcut(env: ClientEnv) {
    env.hostname == "localhost" || env.demoMode == Some("true")
  }

  /** `session_${Date.now()}_${userId}`. */
  function LocalSessionId(nowMs: int, u: UserId): string {
    "session_" + Strings.IntToString(nowMs) + "_" + u
  }

  /** The query of the local success URL used by the demo shortcut
      (`marker` = "demo") and by the fallback after a failed server call
      (`marker` = "fallback"): session, plan and `marker=true`, no mode. */
  function LocalQuery(sessionId: string, plan: string, marker: string): seq<(string, string)> {
    [("session", sessionId), ("plan", plan), (marker, "true")]
  }

  function LocalSuccessUrl(site: string, sessionId: string, plan: string, marker: string): string {
    site + "/payment/success" + "?" + QueryString.Query(LocalQuery(sessionId, plan, marker))
  }

  /** `initiateDodoPayment`: returns the URL to open and the pending-payment
      keys it stores. It never fails: a failed server call falls back to a
      local success URL. `reply` is the server's answer, absent when the
      call threw or was not ok. */
  function InitiateDodoPayment(env: ClientEnv, u: UserId, plan: string, nowMs: int,
                               reply: Option<SessionReply>): (r: (string, PendingStore))
    ensures r.1.userId == Some(u) && r.1.plan == Some(plan)
    ensures DemoShortcut(env) ==>
      r == (LocalSuccessUrl(SiteUrl(env), LocalSessionId(nowMs, u), plan, "demo"),
            PendingStore(Some(LocalSessionId(nowMs, u)), Some(u), Some(plan)))
    ensures !DemoShortcut(env) && reply.Some? ==>
      r == (reply.value.paymentUrl, PendingStore(Some(reply.value.sessionId), Some(u), Some(plan)))
    ensures !DemoShortcut(env) && reply.None? ==>
      r == (LocalSuccessUrl(SiteUrl(env), LocalSessionId(nowMs, u), plan, "fallback"),
            PendingStore(Some(LocalSessionId(nowMs, u)), Some(u), Some(plan)))
  {
    var site := SiteUrl(env);
    if DemoShortcut(env) then
      var sid := LocalSessionId(nowMs, u);
      (LocalSuccessUrl(site, sid, plan, "demo"), PendingStore(Some(sid), Some(u), Some(plan)))
    else if reply.Some? then
      (reply.value.paymentUrl, PendingStore(Some(reply.value.sessionId), Some(u), Some(plan)))
    else
      var sid := LocalSessionId(nowMs, u);
      (LocalSuccessUrl(site, sid, plan, "fallback"), PendingStore(Some(sid), Some(u), Some(plan)))
  }

  /** The local session id reads back unchanged from a URL when the user id
      needs no percent-decoding. */
  lemma LocalSessionIdPlain(nowMs: int, u: UserId)
    requires QueryString.Plain(u)
    ensures QueryString.Plain(LocalSessionId(nowMs, u))
  {
    var t := Strings.IntToString(nowMs);
    assert forall i :: 0 <= i < |t| ==> t[i] != '&' && t[i] != '#' && t[i] != '%' && t[i] != '+';
  }

  /** The local success URL parses back to its query, which carries the
      session id and plan and no `mode` parameter. */
  lemma LocalSuccessUrlParams(site: string, sessionId: string, plan: string, marker: string)
    requires QueryString.BaseOk(site)
    requires QueryString.Plain(sessionId) && QueryString.Plain(plan)
    requires marker in {"demo", "fallback"}
    ensures var ps := QueryString.Params(LocalSuccessUrl(site, sessionId, plan, marker));
      && ps == LocalQuery(sessionId, plan, marker)
      && QueryString.Lookup(ps, "session") == Some(sessionId)
      && QueryString.Lookup(ps, "plan") == Some(plan)
      && QueryString.Lookup(ps, "mode").None?
  {
    QueryString.BaseAppend(site, "/payment/success");
    var ps := LocalQuery(sessionId, plan, marker);
    assert QueryString.WellFormed(ps);
    QueryString.ParseBuilt(site + "/payment/success", ps);
    QueryString.LookupAbsent(ps, "mode");
  }

  /** The quota gate followed by one increment keeps usage within the limit:
      a user allowed to analyse ends at most at the limit. */
  lemma GatedIncrementKeepsQuota(t: Table, u: UserId)
    requires u in t && t[u].used <= t[u].limit
    requires CanPerformAnalysis(t, u)
    ensures IncrementUsage(t, u)[u].used <= IncrementUsage(t, u)[u].limit
    ensures IncrementUsage(t, u)[u].used == t[u].used + 1
  {
  }

  /** Because `cancelProSubscription` keeps the counter, a pro user who used
      more than 3 analyses is over the free limit afterwards: blocked and
      flagged for upgrade. */
  lemma CancelKeepsProUsage(t: Table, u: UserId)
    requires u in t && t[u].used > FreeLimit
    ensures CancelProSubscription(t, u).Ok?
    ensures var s := StatusOf(CancelProSubscription(t, u).value[u]);
      !s.canAnalyze && s.needsUpgrade && s.remaining == 0
  {
  }

  /** The synthesized fresh status is what reading the new row would give. */
  lemma FreshStatusMatchesNewRow()
    ensures StatusOf(NewFreeRecord()) == FreshFreeStatus
  {
  }
}
