/** The checkout-session endpoint (api/create-payment-session.js): CORS
    headers, method and input checks, then a test URL that upgrades on
    arrival or a hosted-checkout URL whose return addresses are
    percent-encoded. */
module PaymentSession {
  import opened Wrappers
  import Strings
  import UriComponent
  import JsonText
  import QueryString

  /** The JSON request body. */
  datatype Body = Body(userId: Option<string>, plan: Option<string>, amount: Option<int>, testMode: Option<bool>)

  /** `SITE_URL` and `DODO_TEST_MODE`. */
  datatype ServerEnv = ServerEnv(siteUrl: Option<string>, dodoTestMode: Option<string>)

  datatype Reply =
    | NoContent
    | Failure(error: string)
    | Session(paymentUrl: string, sessionId: string, mode: string)

  datatype Response = Response(code: int, headers: seq<(string, string)>, reply: Reply)

  const CorsHeaders: seq<(string, string)> := [
    ("Access-Control-Allow-Origin", "*"),
    ("Access-Control-Allow-Methods", "POST, OPTIONS"),
    ("Access-Control-Allow-Headers", "Content-Type")]

  /** The hosted checkout page of the product. */
  const CheckoutHost: string := "https://checkout.dodopayments.com"
  const ProductPath: string := "/buy/pdt_NjgiFrU6ivuwnagRbUPZc"
  const CheckoutBase: string := CheckoutHost + ProductPath

  predicate Truthy(s: Option<string>) {
    s.Some? && s.value != ""
  }

  /** `${process.env.SITE_URL}`: an unset variable renders as "undefined". */
  function SiteText(env: ServerEnv): string {
    env.siteUrl.GetOr("undefined")
  }

  /** `session_${Date.now()}_${suffix}`, the suffix being nine base-36 digits
      of a random number. */
  function SessionId(now: int, suffix: string): string {
    "session_" + Strings.IntToString(now) + "_" + suffix
  }

  predicate TestModeOn(b: Body, env: ServerEnv) {
    b.testMode == Some(true) || env.dodoTestMode == Some("true")
  }

  /** The test-mode query: straight back to the success page, upgrading on
      arrival. Query texts are written as their name/value pairs. */
  function TestQuery(sid: string, plan: string, amount: int, userId: string): seq<(string, string)> {
    [("session", sid), ("plan", plan), ("amount", Strings.IntToString(amount)), ("userId", userId),
     ("mode", "test"), ("upgrade", "true")]
  }

  function TestUrl(site: string, sid: string, plan: string, amount: int, userId: string): string {
    site + "/payment/success" + "?" + QueryString.Query(TestQuery(sid, plan, amount, userId))
  }

  /** Where the hosted checkout returns after paying. */
  function SuccessQuery(sid: string, plan: string): seq<(string, string)> {
    [("session", sid), ("plan", plan), ("mode", "production")]
  }

  function SuccessTarget(site: string, sid: string, plan: string): string {
    site + "/payment/success" + "?" + QueryString.Query(SuccessQuery(sid, plan))
  }

  /** Where the hosted checkout returns after cancelling. */
  function CancelTarget(site: string, sid: string): string {
    site + "/payment/cancelled" + "?" + QueryString.Query([("session", sid)])
  }

  /** `JSON.stringify({userId, plan, sessionId, app: 'footrate-ai'})`. */
  function MetadataJson(userId: string, plan: string, sid: string): string {
    JsonText.Object([("userId", userId), ("plan", plan), ("sessionId", sid), ("app", "footrate-ai")])
  }

  /** The hosted-checkout query, given its three values already
      percent-encoded. */
  function CheckoutQuery(successUrl: string, cancelUrl: string, metadata: string): seq<(string, string)> {
    [("quantity", "1"), ("success_url", successUrl), ("cancel_url", cancelUrl), ("metadata", metadata)]
  }

  function ProductionUrl(site: string, sid: string, plan: string, userId: string): string {
    var q := CheckoutQuery(UriComponent.Encode(SuccessTarget(site, sid, plan)),
                           UriComponent.Encode(CancelTarget(site, sid)),
                           UriComponent.Encode(MetadataJson(userId, plan, sid)));
    CheckoutBase + "?" + QueryString.Query(q)
  }

  /** `handler`. The body is absent when the request had none (reading its
      fields then throws). The simulation fallback after a failed URL build
      needs a plan holding a lone surrogate, on which `encodeURIComponent`
      throws; strings here hold scalar values only, so it is not modelled. */
  function Handle(verb: string, body: Option<Body>, env: ServerEnv, now: int, suffix: string): (r: Response)
    ensures r.headers == CorsHeaders
    ensures verb == "OPTIONS" ==> r.code == 200 && r.reply == NoContent
    ensures verb != "OPTIONS" && verb != "POST" ==> r.code == 405
    ensures verb == "POST" && body.None? ==> r.code == 500
    ensures verb == "POST" && body.Some? ==>
      var b := body.value;
      && (r.code == 400 <==> !Truthy(b.userId) || !Truthy(b.plan) || b.amount.None? || b.amount == Some(0))
      && (r.code != 400 ==> r.code == 200 && r.reply.Session? && r.reply.sessionId == SessionId(now, suffix))
    ensures verb == "POST" && body.Some? && r.code == 200 ==>
      var b := body.value;
      var sid := SessionId(now, suffix);
      if TestModeOn(b, env) then
        r.reply == Session(TestUrl(SiteText(env), sid, b.plan.value, b.amount.value, b.userId.value), sid, "test")
      else
        r.reply == Session(ProductionUrl(SiteText(env), sid, b.plan.value, b.userId.value), sid, "production")
  {
    if verb == "OPTIONS" then Response(200, CorsHeaders, NoContent)
    else if verb != "POST" then Response(405, CorsHeaders, Failure("Method not allowed"))
    else if body.None? then Response(500, CorsHeaders, Failure("Failed to create payment session"))
    else
      var b := body.value;
      if !Truthy(b.userId) || !Truthy(b.plan) || b.amount.None? || b.amount == Some(0) then
        Response(400, CorsHeaders, Failure("Missing required fields: userId, plan, amount"))
      else
        var sid := SessionId(now, suffix);
        var site := SiteText(env);
        if TestModeOn(b, env) then
          Response(200, CorsHeaders, Session(TestUrl(site, sid, b.plan.value, b.amount.value, b.userId.value), sid, "test"))
        else
          Response(200, CorsHeaders, Session(ProductionUrl(site, sid, b.plan.value, b.userId.value), sid, "production"))
  }

  lemma IntTextPlain(n: int)
    ensures QueryString.Plain(Strings.IntToString(n))
  {
    var t := Strings.IntToString(n);
    assert forall i :: 0 <= i < |t| ==> t[i] != '&' && t[i] != '#' && t[i] != '%' && t[i] != '+';
  }

  lemma SessionIdPlain(now: int, suffix: string)
    requires QueryString.Plain(suffix)
    ensures QueryString.Plain(SessionId(now, suffix))
  {
    IntTextPlain(now);
  }

  lemma TestQueryWellFormed(sid: string, plan: string, amount: int, userId: string)
    requires QueryString.Plain(sid) && QueryString.Plain(plan) && QueryString.Plain(userId)
    ensures QueryString.WellFormed(TestQuery(sid, plan, amount, userId))
  {
    IntTextPlain(amount);
    TestPairsWellFormed(sid, plan, Strings.IntToString(amount), userId);
  }

  lemma TestPairsWellFormed(sid: string, plan: string, amount: string, userId: string)
    requires QueryString.Plain(sid) && QueryString.Plain(plan) && QueryString.Plain(amount)
    requires QueryString.Plain(userId)
    ensures QueryString.WellFormed([("session", sid), ("plan", plan), ("amount", amount), ("userId", userId),
                                    ("mode", "test"), ("upgrade", "true")])
  {
  }

  /** The test URL parses back to the query it was built from. */
  lemma TestUrlParams(site: string, sid: string, plan: string, amount: int, userId: string)
    requires QueryString.BaseOk(site)
    requires QueryString.Plain(sid) && QueryString.Plain(plan) && QueryString.Plain(userId)
    ensures QueryString.Params(TestUrl(site, sid, plan, amount, userId)) == TestQuery(sid, plan, amount, userId)
  {
    QueryString.BaseAppend(site, "/payment/success");
    TestQueryWellFormed(sid, plan, amount, userId);
    QueryString.ParseBuilt(site + "/payment/success", TestQuery(sid, plan, amount, userId));
  }

  /** The test query carries the session id, plan, amount and user id it
      was built from, with mode 'test' and upgrade 'true'. */
  lemma TestQueryValues(sid: string, plan: string, amount: int, userId: string)
    ensures var ps := TestQuery(sid, plan, amount, userId);
      && QueryString.Lookup(ps, "session") == Some(sid)
      && QueryString.Lookup(ps, "plan") == Some(plan)
      && QueryString.Lookup(ps, "amount") == Some(Strings.IntToString(amount))
      && QueryString.Lookup(ps, "userId") == Some(userId)
      && QueryString.Lookup(ps, "mode") == Some("test")
      && QueryString.Lookup(ps, "upgrade") == Some("true")
  {
    var ps := TestQuery(sid, plan, amount, userId);
    assert "session"[0] != "upgrade"[0] && "plan"[0] != "mode"[0] && "amount"[0] != "userId"[0];
    QueryString.LookupAt(ps, "session", 0);
    QueryString.LookupAt(ps, "plan", 1);
    QueryString.LookupAt(ps, "amount", 2);
    QueryString.LookupAt(ps, "userId", 3);
    QueryString.LookupAt(ps, "mode", 4);
    QueryString.LookupAt(ps, "upgrade", 5);
  }

  /** The return address after paying parses back to its query. */
  lemma SuccessTargetParams(site: string, sid: string, plan: string)
    requires QueryString.BaseOk(site) && QueryString.Plain(sid) && QueryString.Plain(plan)
    ensures QueryString.Params(SuccessTarget(site, sid, plan)) == SuccessQuery(sid, plan)
  {
    QueryString.BaseAppend(site, "/payment/success");
    assert QueryString.WellFormed(SuccessQuery(sid, plan));
    QueryString.ParseBuilt(site + "/payment/success", SuccessQuery(sid, plan));
  }

  /** That query carries the session id and plan with mode 'production'
      and no upgrade flag. */
  lemma SuccessQueryValues(sid: string, plan: string)
    ensures var ps := SuccessQuery(sid, plan);
      && QueryString.Lookup(ps, "session") == Some(sid)
      && QueryString.Lookup(ps, "plan") == Some(plan)
      && QueryString.Lookup(ps, "mode") == Some("production")
      && QueryString.Lookup(ps, "upgrade").None?
  {
    var ps := SuccessQuery(sid, plan);
    QueryString.LookupAt(ps, "mode", 2);
    QueryString.LookupAbsent(ps, "upgrade");
  }

  lemma EncodedDelimited(s: string)
    ensures QueryString.Delimited(UriComponent.Encode(s))
  {
    var e := UriComponent.Encode(s);
    assert forall i :: 0 <= i < |e| ==> e[i] != '&' && e[i] != '#';
  }

  lemma CheckoutBaseOk()
    ensures QueryString.BaseOk(CheckoutBase)
  {
    var host, path := CheckoutHost, ProductPath;
    assert forall i | 0 <= i < |host| :: host[i] != '?' && host[i] != '#';
    assert forall i | 0 <= i < |path| :: path[i] != '?' && path[i] != '#';
  }

  lemma CheckoutQueryWellFormed(successUrl: string, cancelUrl: string, metadata: string)
    requires QueryString.Delimited(successUrl) && QueryString.Delimited(cancelUrl) && QueryString.Delimited(metadata)
    ensures QueryString.WellFormed(CheckoutQuery(successUrl, cancelUrl, metadata))
  {
    var n0, n1, n2, n3 := "quantity", "success_url", "cancel_url", "metadata";
    assert forall i | 0 <= i < |n0| :: n0[i] != '=' && n0[i] != '&' && n0[i] != '#';
    assert forall i | 0 <= i < |n1| :: n1[i] != '=' && n1[i] != '&' && n1[i] != '#';
    assert forall i | 0 <= i < |n2| :: n2[i] != '=' && n2[i] != '&' && n2[i] != '#';
    assert forall i | 0 <= i < |n3| :: n3[i] != '=' && n3[i] != '&' && n3[i] != '#';
  }

  /** A hosted-checkout URL parses back to its query. */
  lemma CheckoutUrlParams(base: string, successUrl: string, cancelUrl: string, metadata: string)
    requires QueryString.BaseOk(base)
    requires QueryString.Delimited(successUrl) && QueryString.Delimited(cancelUrl) && QueryString.Delimited(metadata)
    ensures QueryString.Params(base + "?" + QueryString.Query(CheckoutQuery(successUrl, cancelUrl, metadata)))
         == CheckoutQuery(successUrl, cancelUrl, metadata)
  {
    CheckoutQueryWellFormed(successUrl, cancelUrl, metadata);
    QueryString.ParseBuilt(base, CheckoutQuery(successUrl, cancelUrl, metadata));
  }

  /** The values of the hosted-checkout query, one parameter each. */
  lemma CheckoutQueryValues(successUrl: string, cancelUrl: string, metadata: string)
    ensures var ps := CheckoutQuery(successUrl, cancelUrl, metadata);
      && QueryString.Lookup(ps, "quantity") == Some("1")
      && QueryString.Lookup(ps, "success_url") == Some(successUrl)
      && QueryString.Lookup(ps, "cancel_url") == Some(cancelUrl)
      && QueryString.Lookup(ps, "metadata") == Some(metadata)
  {
    var ps := CheckoutQuery(successUrl, cancelUrl, metadata);
    assert "quantity"[0] != "metadata"[0];
    QueryString.LookupAt(ps, "cancel_url", 2);
    QueryString.LookupAt(ps, "metadata", 3);
  }

  /** The hosted-checkout URL's parameters decode to the site's success and
      cancel pages and the metadata text. */
  lemma ProductionUrlParams(site: string, sid: string, plan: string, userId: string)
    ensures var ps := QueryString.Params(ProductionUrl(site, sid, plan, userId));
      && QueryString.Lookup(ps, "quantity") == Some("1")
      && QueryString.Lookup(ps, "success_url").Some?
      && UriComponent.Decode(QueryString.Lookup(ps, "success_url").value) == Some(SuccessTarget(site, sid, plan))
      && QueryString.Lookup(ps, "cancel_url").Some?
      && UriComponent.Decode(QueryString.Lookup(ps, "cancel_url").value) == Some(CancelTarget(site, sid))
      && QueryString.Lookup(ps, "metadata").Some?
      && UriComponent.Decode(QueryString.Lookup(ps, "metadata").value) == Some(MetadataJson(userId, plan, sid))
  {
    var a, b, c := SuccessTarget(site, sid, plan), CancelTarget(site, sid), MetadataJson(userId, plan, sid);
    EncodedDelimited(a);
    EncodedDelimited(b);
    EncodedDelimited(c);
    CheckoutBaseOk();
    CheckoutUrlParams(CheckoutBase, UriComponent.Encode(a), UriComponent.Encode(b), UriComponent.Encode(c));
    CheckoutQueryValues(UriComponent.Encode(a), UriComponent.Encode(b), UriComponent.Encode(c));
    UriComponent.DecodeEncode(a);
    UriComponent.DecodeEncode(b);
    UriComponent.DecodeEncode(c);
  }
}
