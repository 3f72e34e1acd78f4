/** End-to-end checkout paths: the address the client or the session
    endpoint produces, read back by the return page. */
module PaymentFlow {
  import opened Wrappers
  import opened Ledger
  import Strings
  import QueryString
  import SubscriptionService
  import PaymentSession
  import PaymentReturn

  /** A test-mode session lands on the test branch of the return page, which
      upgrades the signed-in user with the endpoint's session id. The user
      named in the request body is not the one upgraded. */
  lemma TestSessionUpgradesSignedInUser(t: Table, b: PaymentSession.Body, env: PaymentSession.ServerEnv,
                                        now: int, suffix: string, current: UserId,
                                        store: SubscriptionService.PendingStore)
    requires PaymentSession.Handle("POST", Some(b), env, now, suffix).code == 200
    requires PaymentSession.TestModeOn(b, env)
    requires QueryString.BaseOk(PaymentSession.SiteText(env))
    requires QueryString.Plain(suffix) && QueryString.Plain(b.plan.value) && QueryString.Plain(b.userId.value)
    requires current in t
    ensures var url := PaymentSession.Handle("POST", Some(b), env, now, suffix).reply.paymentUrl;
      var ps := QueryString.Params(url);
      && PaymentReturn.BranchOf(ps) == PaymentReturn.TestMode
      && var o := PaymentReturn.OnReturn(t, ps, Some(current), store);
      && o.upgraded && o.subs[current].tier == Pro
      && o.subs[current].paymentId == Some(PaymentSession.SessionId(now, suffix))
      && o.store == store
    ensures var url := PaymentSession.Handle("POST", Some(b), env, now, suffix).reply.paymentUrl;
      var o := PaymentReturn.OnReturn(t, QueryString.Params(url), Some(current), store);
      b.userId.value != current && b.userId.value in t ==> o.subs[b.userId.value] == t[b.userId.value]
  {
    var sid := PaymentSession.SessionId(now, suffix);
    PaymentSession.SessionIdPlain(now, suffix);
    var site := PaymentSession.SiteText(env);
    PaymentSession.TestUrlParams(site, sid, b.plan.value, b.amount.value, b.userId.value);
    PaymentSession.TestQueryValues(sid, b.plan.value, b.amount.value, b.userId.value);
    var ps := QueryString.Params(PaymentSession.Handle("POST", Some(b), env, now, suffix).reply.paymentUrl);
    assert PaymentReturn.TargetOf(ps, Some(current), store) == Some(current);
  }

  /** The address the hosted checkout returns to after paying lands on the
      production branch with the endpoint's session id. */
  lemma ProductionReturnIsProductionBranch(site: string, sid: string, plan: string)
    requires QueryString.BaseOk(site) && QueryString.Plain(sid) && QueryString.Plain(plan) && sid != ""
    ensures var ps := QueryString.Params(PaymentSession.SuccessTarget(site, sid, plan));
      && PaymentReturn.BranchOf(ps) == PaymentReturn.Production
      && QueryString.Lookup(ps, "session") == Some(sid)
  {
    PaymentSession.SuccessTargetParams(site, sid, plan);
    PaymentSession.SuccessQueryValues(sid, plan);
  }

  /** The client's own addresses (the demo shortcut and the fallback after a
      failed server call) carry no `mode`, so the return page takes the
      legacy path: it upgrades the user who started the checkout, whoever
      is signed in, and clears the pending keys. */
  lemma LocalAddressUpgradesInitiator(t: Table, env: SubscriptionService.ClientEnv, u: UserId, plan: string,
                                      nowMs: int, reply: Option<SubscriptionService.SessionReply>,
                                      current: Option<UserId>)
    requires SubscriptionService.DemoShortcut(env) || reply.None?
    requires QueryString.BaseOk(SubscriptionService.SiteUrl(env))
    requires QueryString.Plain(u) && QueryString.Plain(plan) && u != "" && u in t
    ensures var (url, store) := SubscriptionService.InitiateDodoPayment(env, u, plan, nowMs, reply);
      var ps := QueryString.Params(url);
      && PaymentReturn.BranchOf(ps) == PaymentReturn.Legacy
      && var o := PaymentReturn.OnReturn(t, ps, current, store);
      && o.upgraded && o.subs[u].tier == Pro
      && o.subs[u].paymentId == Some(SubscriptionService.LocalSessionId(nowMs, u))
      && o.store == PaymentReturn.Cleared
  {
    var sid := SubscriptionService.LocalSessionId(nowMs, u);
    SubscriptionService.LocalSessionIdPlain(nowMs, u);
    var marker := if SubscriptionService.DemoShortcut(env) then "demo" else "fallback";
    SubscriptionService.LocalSuccessUrlParams(SubscriptionService.SiteUrl(env), sid, plan, marker);
    var (url, store) := SubscriptionService.InitiateDodoPayment(env, u, plan, nowMs, reply);
    assert url == SubscriptionService.LocalSuccessUrl(SubscriptionService.SiteUrl(env), sid, plan, marker);
    assert sid != "" by { assert |sid| >= |"session_"|; }
    PaymentReturn.NoModeUpgradesStoredUser(t, QueryString.Params(url), current, store, u);
  }

  /** The client asks for amount 0 for any plan but 'pro', which the
      endpoint rejects as a missing field. */
  lemma NonProPlanRejected(u: UserId, plan: string, env: PaymentSession.ServerEnv, now: int, suffix: string)
    requires plan != "pro"
    ensures var q := SubscriptionService.CheckoutRequestFor(u, plan);
      PaymentSession.Handle("POST", Some(PaymentSession.Body(Some(q.userId), Some(q.plan), Some(q.amount), None)),
                            env, now, suffix).code == 400
  {
  }
}
