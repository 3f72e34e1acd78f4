/** The payment return page (src/pages/PaymentSuccess.tsx): on arrival it
    reads `session`, `plan`, `mode` and `upgrade` from the address and
    upgrades either the signed-in user or, on the legacy path, the user the
    checkout left in browser storage. */
module PaymentReturn {
  import opened Wrappers
  import opened Ledger
  import QueryString
  import SubscriptionService

  /** Which branch of the arrival effect runs. */
  datatype Branch = NoSession | TestMode | Production | Simulation | Fallback | Legacy

  /** A present, non-empty string (JavaScript truthiness of a string). */
  predicate Truthy(s: Option<string>) {
    s.Some? && s.value != ""
  }

  /** `searchParams.get('plan') || 'pro'`. */
  function PlanOf(ps: seq<(string, string)>): (plan: string)
    ensures Truthy(QueryString.Lookup(ps, "plan")) ==> plan == QueryString.Lookup(ps, "plan").value
    ensures !Truthy(QueryString.Lookup(ps, "plan")) ==> plan == "pro"
  {
    var p := QueryString.Lookup(ps, "plan");
    if Truthy(p) then p.value else "pro"
  }

  /** The branch chosen from the parameters: nothing without a (non-empty)
      session; then mode 'test', 'production', 'simulation' with
      `upgrade=true`, 'fallback'; everything else is the legacy path. */
  function BranchOf(ps: seq<(string, string)>): (b: Branch)
    ensures b == NoSession <==> !Truthy(QueryString.Lookup(ps, "session"))
    ensures b == Simulation ==> QueryString.Lookup(ps, "upgrade") == Some("true")
    ensures b == Legacy ==>
      var m := QueryString.Lookup(ps, "mode");
      m != Some("test") && m != Some("production") && m != Some("fallback")
      && (m == Some("simulation") ==> QueryString.Lookup(ps, "upgrade") != Some("true"))
  {
    var mode := QueryString.Lookup(ps, "mode");
    if !Truthy(QueryString.Lookup(ps, "session")) then NoSession
    else if mode == Some("test") then TestMode
    else if mode == Some("production") then Production
    else if mode == Some("simulation") && QueryString.Lookup(ps, "upgrade") == Some("true") then Simulation
    else if mode == Some("fallback") then Fallback
    else Legacy
  }

  /** The user the effect upgrades: the signed-in user on the four mode
      branches, the stored pending user on the legacy path, nobody without
      a session. The `userId` parameter plays no part. */
  function TargetOf(ps: seq<(string, string)>, current: Option<UserId>, store: SubscriptionService.PendingStore): (r: Option<UserId>)
    ensures r.Some? ==> r == current || r == store.userId
    ensures BranchOf(ps) == NoSession ==> r.None?
    ensures BranchOf(ps) == Legacy ==> (r.Some? <==> Truthy(store.userId))
    ensures BranchOf(ps) !in {NoSession, Legacy} ==> r == current
  {
    match BranchOf(ps)
    case NoSession => None
    case Legacy => if Truthy(store.userId) then store.userId else None
    case _ => current
  }

  /** After the effect: the table, the three storage keys, whether the page
      shows the upgraded state, and whether the error toast was shown. */
  datatype Outcome = Outcome(subs: Table, store: SubscriptionService.PendingStore, upgraded: bool, failed: bool)

  const Cleared: SubscriptionService.PendingStore := SubscriptionService.PendingStore(None, None, None)

  /** The arrival effect. `current` is the signed-in user (if any), `store`
      the pending-payment keys. An upgrade of a user without a row throws:
      the error toast shows and nothing else changes. */
  function OnReturn(t: Table, ps: seq<(string, string)>, current: Option<UserId>,
                    store: SubscriptionService.PendingStore): (o: Outcome)
    ensures !(o.upgraded && o.failed)
    ensures BranchOf(ps) == NoSession ==> o == Outcome(t, store, false, false)
    ensures TargetOf(ps, current, store).None? && BranchOf(ps) != NoSession ==> o == Outcome(t, store, true, false)
    ensures TargetOf(ps, current, store).Some? ==>
      var u := TargetOf(ps, current, store).value;
      var sid := QueryString.Lookup(ps, "session").value;
      && (u !in t ==> o == Outcome(t, store, false, true))
      && (u in t ==>
            && o.upgraded && !o.failed
            && o.subs.Keys == t.Keys
            && o.subs[u].tier == Pro && o.subs[u].limit == ProLimit
            && o.subs[u].paymentId == Some(sid) && o.subs[u].used == t[u].used
            && (forall v :: v in t && v != u ==> o.subs[v] == t[v])
            && o.store == (if BranchOf(ps) == Legacy then Cleared else store))
  {
    var branch := BranchOf(ps);
    if branch == NoSession then Outcome(t, store, false, false)
    else
      var sid := QueryString.Lookup(ps, "session").value;
      var plan := if branch == Legacy && Truthy(store.plan) then store.plan.value else PlanOf(ps);
      match TargetOf(ps, current, store)
      case None => Outcome(t, store, true, false)
      case Some(u) =>
        match SubscriptionService.HandlePaymentSuccess(t, u, sid, plan)
        case Err(_) => Outcome(t, store, false, true)
        case Ok(t') => Outcome(t', if branch == Legacy then Cleared else store, true, false)
  }

  /** `ps` without any pair named `name`. */
  function Without(ps: seq<(string, string)>, name: string): (r: seq<(string, string)>)
    ensures forall i :: 0 <= i < |r| ==> r[i].0 != name
    ensures |r| <= |ps|
    decreases |ps|
  {
    if |ps| == 0 then []
    else if ps[0].0 == name then Without(ps[1..], name)
    else [ps[0]] + Without(ps[1..], name)
  }

  /** Removing one name changes no other name's value. */
  lemma {:induction false} LookupWithout(ps: seq<(string, string)>, name: string, other: string)
    requires other != name
    ensures QueryString.Lookup(Without(ps, name), other) == QueryString.Lookup(ps, other)
    decreases |ps|
  {
    if |ps| > 0 {
      LookupWithout(ps[1..], name, other);
    }
  }

  /** The `userId` parameter is read but never used: the outcome is the same
      with every `userId` pair removed. */
  lemma UserIdParamIgnored(t: Table, ps: seq<(string, string)>, current: Option<UserId>,
                           store: SubscriptionService.PendingStore)
    ensures OnReturn(t, Without(ps, "userId"), current, store) == OnReturn(t, ps, current, store)
  {
    LookupWithout(ps, "userId", "session");
    LookupWithout(ps, "userId", "plan");
    LookupWithout(ps, "userId", "mode");
    LookupWithout(ps, "userId", "upgrade");
  }

  /** A simulation address without `upgrade=true` is handled like an
      address with no mode at all. */
  lemma SimulationWithoutUpgradeIsLegacy(ps: seq<(string, string)>)
    requires Truthy(QueryString.Lookup(ps, "session"))
    requires QueryString.Lookup(ps, "mode") == Some("simulation")
    requires QueryString.Lookup(ps, "upgrade") != Some("true")
    ensures BranchOf(ps) == Legacy
  {
  }

  /** An address with a session and no mode takes the legacy path, which
      upgrades the user left in storage (with the session id from the
      address) and clears the storage keys. */
  lemma NoModeUpgradesStoredUser(t: Table, ps: seq<(string, string)>, current: Option<UserId>,
                                 store: SubscriptionService.PendingStore, u: UserId)
    requires Truthy(QueryString.Lookup(ps, "session")) && QueryString.Lookup(ps, "mode").None?
    requires store.userId == Some(u) && u != "" && u in t
    ensures BranchOf(ps) == Legacy
    ensures var o := OnReturn(t, ps, current, store);
      && o.upgraded && o.subs[u].tier == Pro
      && o.subs[u].paymentId == QueryString.Lookup(ps, "session")
      && o.store == Cleared
  {
  }
}
