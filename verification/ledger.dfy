/** The `user_subscriptions` and `subscription_history` tables shared by both
    subscription services and both webhook receivers, with the clock
    conventions every transition uses. */
module Ledger {
  import opened Wrappers

  type UserId = string

  /** A point in time in milliseconds since the epoch (`Date.now()`). */
  type Instant = int

  /** A calendar date held in a date column, as days since 1970-01-01 (UTC). */
  type Day = int

  const MsPerDay: int := 86400000

  /** `now.toISOString().split('T')[0]`: the UTC date of an instant. */
  function DayOf(t: Instant): (d: Day)
    ensures Midnight(d) <= t < Midnight(d) + MsPerDay
  {
    t / MsPerDay
  }

  /** `new Date('YYYY-MM-DD')`: the instant at which a stored date begins. */
  function Midnight(d: Day): Instant {
    d * MsPerDay
  }

  /** A null date column read through `new Date(null)` is the epoch. */
  function DayOrEpoch(d: Option<Day>): Day {
    d.GetOr(0)
  }

  /** `Math.max(0, Math.ceil((day - now) / msPerDay))`: whole days, rounded up,
      from `now` until the start of `d`; zero once that start has passed. */
  function DaysUntil(d: Day, now: Instant): (n: nat)
    ensures n == 0 <==> now >= Midnight(d)
    ensures now < Midnight(d) ==> (n - 1) * MsPerDay < Midnight(d) - now <= n * MsPerDay
  {
    var gap := Midnight(d) - now;
    var ceil := -((-gap) / MsPerDay);
    if ceil < 0 then 0 else ceil
  }

  /** `subscription_tier`. The webhooks copy a plan string into it verbatim,
      so a value other than 'free' and 'pro' is representable; `Other` never
      spells one of those two. */
  datatype TierValue = Free | Pro | Other(name: string)
  type Tier = t: TierValue | !t.Other? || (t.name != "free" && t.name != "pro") witness Free

  /** The tier a plan string denotes. */
  function TierOf(plan: string): (t: Tier)
    ensures t == Pro <==> plan == "pro"
    ensures t == Free <==> plan == "free"
  {
    if plan == "pro" then Pro else if plan == "free" then Free else Other(plan)
  }

  /** The column text of a tier. */
  function TierName(t: Tier): (s: string)
    ensures TierOf(s) == t
  {
    match t
    case Free => "free"
    case Pro => "pro"
    case Other(n) => n
  }

  const FreeLimit: int := 3
  const ProLimit: int := 50

  /** `plan === 'pro' ? 50 : 3`. */
  function LimitFor(plan: string): (n: int)
    ensures n == ProLimit <==> plan == "pro"
    ensures n == FreeLimit <==> plan != "pro"
  {
    if plan == "pro" then ProLimit else FreeLimit
  }

  /** `subscription_status`. */
  datatype SubscriptionState = Active | Canceled | Paused | Expired

  /** `payment_status`. */
  datatype PaymentState = PaymentPending | PaymentActive | PaymentCanceled | PaymentPastDue

  /** One row of `user_subscriptions`. Nullable columns, and columns the
      application never sets on insert (left to the table's defaults), are
      `Option`s. */
  datatype Record = Record(
    tier: Tier,
    used: int,                       // analyses_used_this_month
    limit: int,                      // monthly_limit
    periodStart: Option<Day>,        // billing_period_start
    periodEnd: Option<Day>,          // billing_period_end
    status: Option<SubscriptionState>,
    paymentStatus: Option<PaymentState>,
    paymentId: Option<string>,       // dodo_payment_id
    canceledAt: Option<Instant>,
    cancelReason: Option<string>,
    graceEnd: Option<Day>)           // grace_period_end

  /** The `user_subscriptions` table, keyed by `user_id`. */
  type Table = map<UserId, Record>

  /** One row of `subscription_history`. */
  datatype HistoryEntry = HistoryEntry(
    user: UserId,
    action: string,
    previousTier: Option<string>,
    newTier: Option<string>,
    reason: Option<string>)

  /** Both tables: subscriptions and the append-only history log. */
  datatype Db = Db(subs: Table, history: seq<HistoryEntry>)

  /** Every row other than `u`'s is untouched and no row appears or vanishes,
      except that `u` may gain a row. */
  ghost predicate OnlyRowChanged(t: Table, t': Table, u: UserId) {
    && t'.Keys == t.Keys + {u}
    && (forall v :: v in t && v != u ==> t'[v] == t[v])
  }
}
