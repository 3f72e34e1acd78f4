/** The upload handler (src/components/PhotoUpload.tsx): file-type check,
    quota gate, analysis, usage increment with a status refresh, saving the
    analysis, completion, and the quota banners under the upload box. The
    analysis call, the increment's success and the stored status are
    inputs; the effects the handler performs are returned in order. */
module PhotoUpload {
  import opened Wrappers
  import opened Ledger
  import Strings
  import SubscriptionService
  import AnalysisResult

  /** What the handler does, in order. */
  datatype Effect =
    | InvalidFileToast                  // "Invalid file type"
    | UpgradePanel                      // inline upgrade panel opened
    | Analysing                         // analysis started
    | NotFootToast(description: string)
    | Increment(user: UserId)           // usage increment attempted
    | Refresh(user: UserId)             // status re-read after the increment
    | Save(user: UserId)                // analysis row insert attempted
    | Complete                          // completion callback
    | DoneToast(remaining: Option<int>) // "N analyses remaining" part, if a status was loaded
    | FailedToast(description: string)

  /** The handler's result: its effects, the subscription table, and the
      status the component holds afterwards. */
  datatype Upload = Upload(effects: seq<Effect>, subs: Table, status: Option<SubscriptionService.Status>)

  /** A present, non-empty user id (`if (userId)`). */
  predicate SignedIn(userId: Option<UserId>) {
    userId.Some? && userId.value != ""
  }

  /** The quota gate: a signed-in user whose loaded status forbids analysis. */
  predicate Gated(userId: Option<UserId>, status: Option<SubscriptionService.Status>) {
    SignedIn(userId) && status.Some? && !status.value.canAnalyze
  }

  function NotFootDescription(a: AnalysisResult.Analysis): string {
    if a.medicalWarning.Some? && a.medicalWarning.value != "" then a.medicalWarning.value
    else "Please upload a clear photo of feet for analysis."
  }

  /** No effect of the list is an increment. */
  predicate NoIncrement(e: seq<Effect>) {
    forall i :: 0 <= i < |e| ==> !e[i].Increment?
  }

  /** No effect of the list is a save. */
  predicate NoSave(e: seq<Effect>) {
    forall i :: 0 <= i < |e| ==> !e[i].Save?
  }

  /** Exactly one increment, for `u`, and a save for `u` after it. */
  predicate IncrementOnceThenSave(e: seq<Effect>, u: UserId) {
    exists i, j :: 0 <= i < j < |e| && e[i] == Increment(u) && e[j] == Save(u)
                   && forall k :: 0 <= k < |e| && k != i ==> !e[k].Increment?
  }

  /** The part of `handleFile` after the checks: run the analysis and act
      on its result. */
  function Analyse(t: Table, userId: Option<UserId>, status: Option<SubscriptionService.Status>,
                   analysis: Result<AnalysisResult.Analysis, string>, incrementOk: bool): (r: Upload)
    ensures analysis.Err? ==> r == Upload([Analysing, FailedToast(analysis.error)], t, status)
    ensures analysis.Ok? && !analysis.value.isFootDetected ==>
      && Complete !in r.effects && NoIncrement(r.effects) && NoSave(r.effects) && r.subs == t
    ensures Complete in r.effects <==> analysis.Ok? && analysis.value.isFootDetected
    ensures Complete in r.effects && !SignedIn(userId) ==> NoIncrement(r.effects) && NoSave(r.effects) && r.subs == t
    ensures Complete in r.effects && SignedIn(userId) ==> IncrementOnceThenSave(r.effects, userId.value)
    ensures UpgradePanel !in r.effects
    ensures r.subs.Keys >= t.Keys
    ensures forall v :: v in t && !(SignedIn(userId) && v == userId.value) ==> r.subs[v] == t[v]
  {
    match analysis
    case Err(m) => Upload([Analysing, FailedToast(m)], t, status)
    case Ok(a) =>
      if !a.isFootDetected then Upload([Analysing, NotFootToast(NotFootDescription(a))], t, status)
      else
        var done := [Complete, DoneToast(if status.Some? then Some(status.value.remaining - 1) else None)];
        if !SignedIn(userId) then Upload([Analysing] + done, t, status)
        else RecordAndComplete(t, userId.value, status, incrementOk)
  }

  /** A foot result for a signed-in user: increment the usage (and, when
      that worked, re-read the status), save the analysis, then complete.
      A failed increment changes nothing and does not stop the rest. */
  function RecordAndComplete(t: Table, u: UserId, status: Option<SubscriptionService.Status>,
                             incrementOk: bool): (r: Upload)
    ensures IncrementOnceThenSave(r.effects, u)
    ensures Complete in r.effects && UpgradePanel !in r.effects
    ensures r.subs.Keys >= t.Keys
    ensures forall v :: v in t && v != u ==> r.subs[v] == t[v]
    ensures u in t && incrementOk ==> r.subs[u].used == t[u].used + 1
    ensures !incrementOk ==> r.subs == t
  {
    var done := [Complete, DoneToast(if status.Some? then Some(status.value.remaining - 1) else None)];
    if incrementOk then
      var t1 := SubscriptionService.IncrementUsage(t, u);
      var (st, t2) := SubscriptionService.GetSubscriptionStatus(t1, u);
      var e := [Analysing, Increment(u), Refresh(u), Save(u)] + done;
      assert e[1] == Increment(u) && e[3] == Save(u) && e[4] == Complete;
      Upload(e, t2, Some(st))
    else
      var e := [Analysing, Increment(u), Save(u)] + done;
      assert e[1] == Increment(u) && e[2] == Save(u) && e[3] == Complete;
      Upload(e, t, status)
  }

  /** `handleFile`. `analysis` is what the analysis call returned (`Err`
      carries the thrown message); `incrementOk` says whether the usage
      increment succeeded. A rejected file or a gated user gets nothing
      else done. */
  function HandleFile(t: Table, fileType: string, userId: Option<UserId>,
                      status: Option<SubscriptionService.Status>,
                      analysis: Result<AnalysisResult.Analysis, string>, incrementOk: bool): (r: Upload)
    ensures !Strings.StartsWith(fileType, "image/") ==> r == Upload([InvalidFileToast], t, status)
    ensures Strings.StartsWith(fileType, "image/") && Gated(userId, status) ==> r == Upload([UpgradePanel], t, status)
    ensures UpgradePanel in r.effects <==> Strings.StartsWith(fileType, "image/") && Gated(userId, status)
    ensures Complete in r.effects <==>
      Strings.StartsWith(fileType, "image/") && !Gated(userId, status)
      && analysis.Ok? && analysis.value.isFootDetected
    ensures Complete !in r.effects ==> r.subs == t && NoIncrement(r.effects)
    ensures r.subs.Keys >= t.Keys
    ensures forall v :: v in t && !(SignedIn(userId) && v == userId.value) ==> r.subs[v] == t[v]
  {
    if !Strings.StartsWith(fileType, "image/") then Upload([InvalidFileToast], t, status)
    else if Gated(userId, status) then Upload([UpgradePanel], t, status)
    else Analyse(t, userId, status, analysis, incrementOk)
  }

  /** When the gate reads the user's current row, an upload never takes a
      user past the monthly limit. */
  lemma UploadKeepsQuota(t: Table, fileType: string, u: UserId,
                         analysis: Result<AnalysisResult.Analysis, string>, incrementOk: bool)
    requires u != "" && u in t && t[u].used <= t[u].limit
    ensures var r := HandleFile(t, fileType, Some(u), Some(SubscriptionService.StatusOf(t[u])), analysis, incrementOk);
      u in r.subs && r.subs[u].used <= r.subs[u].limit
  {
  }

  /** Two uploads in a row with the status refreshed in between use at most
      the remaining quota: a free user with one analysis left gets one more
      and is gated on the next. */
  lemma SecondUploadGated(t: Table, u: UserId, a: AnalysisResult.Analysis, b: Result<AnalysisResult.Analysis, string>)
    requires u != "" && u in t && t[u].limit - t[u].used == 1
    requires a.isFootDetected
    ensures var r1 := HandleFile(t, "image/png", Some(u), Some(SubscriptionService.StatusOf(t[u])), Ok(a), true);
      var r2 := HandleFile(r1.subs, "image/png", Some(u), r1.status, b, true);
      && Complete in r1.effects
      && r2.effects == [UpgradePanel]
  {
    var r1 := HandleFile(t, "image/png", Some(u), Some(SubscriptionService.StatusOf(t[u])), Ok(a), true);
    assert Strings.StartsWith("image/png", "image/");
    assert r1.subs[u].used == r1.subs[u].limit;
  }

  // ---- banners ----

  /** The "Upgrade" button under the upload box. */
  predicate UpgradeButton(s: SubscriptionService.Status) {
    s.remaining == 0 && s.tier == Free
  }

  /** The "Almost at limit" warning. */
  predicate AlmostAtLimit(s: SubscriptionService.Status) {
    s.remaining <= 2 && s.remaining > 0 && s.tier == Free
  }

  /** Read from a row: the button shows exactly when a free user has used
      the whole limit, the warning exactly when one or two analyses are
      left; never both. */
  lemma BannersFromRow(rec: Record)
    ensures var s := SubscriptionService.StatusOf(rec);
      && (UpgradeButton(s) <==> rec.tier == Free && rec.used >= rec.limit)
      && (AlmostAtLimit(s) <==> rec.tier == Free && rec.limit - 2 <= rec.used < rec.limit)
      && !(UpgradeButton(s) && AlmostAtLimit(s))
  {
  }
}
