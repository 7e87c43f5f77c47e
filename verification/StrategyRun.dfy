/** Strategy policies and run views: the quantity bounds that every accepted response respects. */
module StrategyRun {
  import opened Common
  import opened DecimalText
  import opened DecimalModel
  import opened Decimal

  type RunId(==, !new)

  datatype Policy = Policy(
    intervalMs: int, maxOrderQty: string, maxTotalQty: string, maxActions: int, maxRunSeconds: int)

  datatype RunView = RunView(
    runId: RunId, policy: Policy, startedAtMs: nat, expiresAtMs: nat, sequence: nat,
    actionsSubmitted: int, totalSubmittedQty: string)

  const U64_MAX := 18446744073709551615

  predicate LimitsInRange(p: Policy) {
    5000 <= p.intervalMs <= 60000 && 1 <= p.maxActions <= 1000 && 60 <= p.maxRunSeconds <= 86400
  }

  predicate AcceptsPolicy(p: Policy) {
    var order, total := Read(p.maxOrderQty, true), Read(p.maxTotalQty, true);
    LimitsInRange(p) && order.Some? && total.Some? && Compare(order.value, total.value) <= 0
  }

  predicate AcceptsView(v: RunView) {
    var submitted, total := Read(v.totalSubmittedQty, false), Read(v.policy.maxTotalQty, true);
    && AcceptsPolicy(v.policy)
    && v.startedAtMs <= U64_MAX && v.expiresAtMs <= U64_MAX && v.sequence <= U64_MAX
    && 0 <= v.actionsSubmitted <= v.policy.maxActions
    && v.expiresAtMs - v.startedAtMs == v.policy.maxRunSeconds * 1000
    && submitted.Some? && Compare(submitted.value, total.value) <= 0
  }

  /** A later view of the run last seen as `previous`. */
  predicate Continues(previous: RunView, v: RunView) {
    var before, now := Read(previous.totalSubmittedQty, false), Read(v.totalSubmittedQty, false);
    && v.runId == previous.runId
    && v.startedAtMs == previous.startedAtMs && v.expiresAtMs == previous.expiresAtMs
    && v.sequence >= previous.sequence && v.actionsSubmitted >= previous.actionsSubmitted
    && before.Some? && now.Some? && Compare(now.value, before.value) >= 0
  }

  /** The exact number an accepted quantity denotes. */
  function Quantity(raw: string): real
    requires Parse(raw).Some?
  {
    Denotes(Parse(raw).value)
  }

  // ---- Methods -----------------------------------------------------------------

  method ParsePolicy(p: Policy) returns (r: Option<Policy>)
    ensures r == if AcceptsPolicy(p) then Some(p) else None
  {
    if p.intervalMs < 5000 || p.intervalMs > 60000 || p.maxActions < 1 || p.maxActions > 1000
       || p.maxRunSeconds < 60 || p.maxRunSeconds > 86400 { return None; }
    var order := ReadDecimal(p.maxOrderQty, true);
    if order.None? { return None; }
    var total := ReadDecimal(p.maxTotalQty, true);
    if total.None? || Compare(order.value, total.value) > 0 { return None; }
    return Some(p);
  }

  method ParseRunView(v: RunView, previous: Option<RunView>) returns (r: Option<RunView>)
    requires previous.Some? ==> AcceptsView(previous.value)
    ensures r == if AcceptsView(v) && (previous.Some? ==> Continues(previous.value, v)) then Some(v) else None
  {
    hide Read, Compare;
    var policy := ParsePolicy(v.policy);
    if policy.None? { return None; }
    if v.startedAtMs > U64_MAX || v.expiresAtMs > U64_MAX || v.sequence > U64_MAX { return None; }
    if v.actionsSubmitted < 0 || v.actionsSubmitted > v.policy.maxActions
       || v.expiresAtMs - v.startedAtMs != v.policy.maxRunSeconds * 1000 { return None; }
    var submitted := ReadDecimal(v.totalSubmittedQty, false);
    if submitted.None? { return None; }
    var total := ReadDecimal(v.policy.maxTotalQty, true);
    if Compare(submitted.value, total.value) > 0 { return None; }
    if previous.Some? {
      var p := previous.value;
      var before := ReadDecimal(p.totalSubmittedQty, false);
      if v.runId != p.runId || v.startedAtMs != p.startedAtMs || v.expiresAtMs != p.expiresAtMs
         || v.sequence < p.sequence || v.actionsSubmitted < p.actionsSubmitted
         || Compare(submitted.value, before.value) < 0 { return None; }
    }
    return Some(v);
  }

  // ---- Theorems ------------------------------------------------------------------

  /** A quantity string the validator admits. */
  predicate Admitted(raw: string) {
    |raw| <= 64 && Parse(raw).Some? && Quantity(raw) <= TWO_TO_96 - 1.0 && Fits(Parse(raw).value)
  }

  /** A policy is accepted exactly when its limits are in range and 0 < order <= total <= 2^96-1 holds exactly. */
  lemma PolicyAcceptedExactly(p: Policy)
    ensures AcceptsPolicy(p) <==>
      && LimitsInRange(p)
      && Admitted(p.maxOrderQty) && Admitted(p.maxTotalQty)
      && 0.0 < Quantity(p.maxOrderQty) <= Quantity(p.maxTotalQty)
  {
    AcceptedExactly(p.maxOrderQty, true);
    AcceptedExactly(p.maxTotalQty, true);
    if Read(p.maxOrderQty, true).Some? && Read(p.maxTotalQty, true).Some? {
      ComparisonOfAccepted(p.maxOrderQty, true, p.maxTotalQty, true);
    }
    hide Read, Compare, Denotes, Fits, Parse;
  }

  /** What is true of every accepted view: nothing exceeds the policy, exactly. */
  lemma ViewIsBounded(v: RunView)
    requires AcceptsView(v)
    ensures Admitted(v.totalSubmittedQty) && Admitted(v.policy.maxTotalQty)
    ensures 0.0 <= Quantity(v.totalSubmittedQty) <= Quantity(v.policy.maxTotalQty) <= TWO_TO_96 - 1.0
  {
    AcceptedExactly(v.totalSubmittedQty, false);
    PolicyAcceptedExactly(v.policy);
    ComparisonOfAccepted(v.totalSubmittedQty, false, v.policy.maxTotalQty, true);
    ReducedIsExact(Parse(v.totalSubmittedQty).value);
    hide Read, Compare, Denotes, Fits, Parse, Reduced;
  }

  /** A history of accepted views of one run, each checked against the one before. */
  predicate History(views: seq<RunView>) {
    && (forall i :: 0 <= i < |views| ==> AcceptsView(views[i]))
    && (forall i :: 0 < i < |views| ==> Continues(views[i - 1], views[i]))
  }

  lemma ContinuesUpward(previous: RunView, v: RunView)
    requires AcceptsView(previous) && AcceptsView(v) && Continues(previous, v)
    ensures Parse(previous.totalSubmittedQty).Some? && Parse(v.totalSubmittedQty).Some?
    ensures Quantity(previous.totalSubmittedQty) <= Quantity(v.totalSubmittedQty)
    ensures v.policy.maxRunSeconds == previous.policy.maxRunSeconds
  {
    ComparisonOfAccepted(v.totalSubmittedQty, false, previous.totalSubmittedQty, false);
    hide Read, Compare, Denotes, Fits, Parse;
  }

  /**
   Over any history the submitted total never falls and stays within each view's limit, the
   sequence and action counts never fall, and run, start, expiry and duration stay the same.
   */
  lemma {:induction false} HistoryIsMonotone(views: seq<RunView>, i: nat, j: nat)
    requires History(views) && i <= j < |views|
    ensures Admitted(views[i].totalSubmittedQty) && Admitted(views[j].totalSubmittedQty)
    ensures Admitted(views[j].policy.maxTotalQty)
    ensures Quantity(views[i].totalSubmittedQty) <= Quantity(views[j].totalSubmittedQty)
            <= Quantity(views[j].policy.maxTotalQty) <= TWO_TO_96 - 1.0
    ensures views[i].sequence <= views[j].sequence
    ensures views[i].actionsSubmitted <= views[j].actionsSubmitted <= views[j].policy.maxActions
    ensures views[i].runId == views[j].runId && views[i].startedAtMs == views[j].startedAtMs
    ensures views[i].expiresAtMs == views[j].expiresAtMs
    ensures views[i].policy.maxRunSeconds == views[j].policy.maxRunSeconds
    decreases j
  {
    hide Read, Compare, Quantity, Admitted, AcceptsPolicy;
    ViewIsBounded(views[i]);
    ViewIsBounded(views[j]);
    if i < j {
      HistoryIsMonotone(views, i, j - 1);
      ContinuesUpward(views[j - 1], views[j]);
    }
  }
}
