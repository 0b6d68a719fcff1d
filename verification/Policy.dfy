/**
 Job policy: which of a job's periodic and on-exit expressions fires, and what the schedd
 does about it. Evaluating a ClassAd expression is a function of the ad.
 */
module Policy {
  import opened Common
  import opened Jobs
  import Actions
  import SchedulerCore

  datatype Value = Undefined | Error | Boolean(b: bool) | Integer(i: int) | Real(r: real) | Text(s: string) | List

  /** The attributes present, the value of each attribute, and the value of a configured expression. */
  datatype Ad = Ad(present: set<string>, attr: string -> Value, expr: string -> Value)

  datatype Mode = PeriodicOnly | PeriodicThenExit

  datatype System = System(
    holdExpr: Option<string>, releaseExpr: Option<string>, removeExpr: Option<string>,
    holdReason: Option<string>, removeReason: Option<string>, holdSubCode: Option<string>)

  datatype Action = Stay | Complete | Requeue | Remove | Hold | Release

  datatype Decision = Decision(action: Action, reason: string, holdCode: int, holdSub: int, firing: string)

  // ----- evaluation -----

  predicate Truthy(v: Value) {
    match v
    case Boolean(b) => b
    case Integer(i) => i != 0
    case Real(r) => r != 0.0
    case _ => false
  }

  predicate ExplicitlyFalse(v: Value) {
    match v
    case Boolean(b) => !b
    case Integer(i) => i == 0
    case Real(r) => r == 0.0
    case _ => false
  }

  function Truncated(r: real): int { if r >= 0.0 then r.Floor else -(-r).Floor }

  function Number(v: Value): int {
    match v
    case Integer(i) => i
    case Real(r) => Truncated(r)
    case _ => 0
  }

  function IntOf(v: Value): int { if v.Integer? then v.i else 0 }

  function TextOf(v: Value): string { if v.Text? then v.s else "" }

  predicate Fires(ad: Ad, name: string) { name in ad.present && Truthy(ad.attr(name)) }

  predicate FiresExpr(ad: Ad, expr: Option<string>) { expr.Some? && Truthy(ad.expr(expr.value)) }

  function AttrNumber(ad: Ad, name: string): int { if name in ad.present then Number(ad.attr(name)) else 0 }

  function EvalNumber(ad: Ad, expr: Option<string>): int { if expr.Some? then Number(ad.expr(expr.value)) else 0 }

  function EvalString(ad: Ad, expr: Option<string>): string { if expr.Some? then TextOf(ad.expr(expr.value)) else "" }

  function DefaultReason(src: string, name: string): string {
    "The " + src + " " + name + " expression evaluated to TRUE"
  }

  function HoldReason(ad: Ad, base: string): string {
    var r := TextOf(ad.attr(base + "Reason"));
    if r != "" then r else DefaultReason("job attribute", base)
  }

  function Nothing(action: Action): Decision { Decision(action, "", 0, 0, "") }

  // ----- the decision procedure -----

  function CheckHold(ad: Ad, sys: Option<System>): Option<Decision> {
    if Fires(ad, "PeriodicHold") then
      Some(Decision(Hold, HoldReason(ad, "PeriodicHold"), JOB_POLICY, AttrNumber(ad, "PeriodicHoldSubCode"),
                    "PeriodicHold"))
    else if sys.Some? && FiresExpr(ad, sys.value.holdExpr) then
      var reason := EvalString(ad, sys.value.holdReason);
      Some(Decision(Hold, if reason == "" then DefaultReason("system macro", "SYSTEM_PERIODIC_HOLD") else reason,
                    SYSTEM_POLICY, EvalNumber(ad, sys.value.holdSubCode), "SYSTEM_PERIODIC_HOLD"))
    else None
  }

  function CheckRelease(ad: Ad, sys: Option<System>): Option<Decision> {
    if Fires(ad, "PeriodicRelease") then
      Some(Decision(Release, DefaultReason("job attribute", "PeriodicRelease"), 0, 0, "PeriodicRelease"))
    else if sys.Some? && FiresExpr(ad, sys.value.releaseExpr) then
      Some(Decision(Release, DefaultReason("system macro", "SYSTEM_PERIODIC_RELEASE"), 0, 0, "SYSTEM_PERIODIC_RELEASE"))
    else None
  }

  function CheckRemove(ad: Ad, sys: Option<System>): Option<Decision> {
    if Fires(ad, "PeriodicRemove") then
      Some(Decision(Remove, DefaultReason("job attribute", "PeriodicRemove"), 0, 0, "PeriodicRemove"))
    else if sys.Some? && FiresExpr(ad, sys.value.removeExpr) then
      var reason := EvalString(ad, sys.value.removeReason);
      Some(Decision(Remove, if reason == "" then DefaultReason("system macro", "SYSTEM_PERIODIC_REMOVE") else reason,
                    0, 0, "SYSTEM_PERIODIC_REMOVE"))
    else None
  }

  predicate OnExitRemoveIsFalse(ad: Ad) {
    "OnExitRemove" in ad.present && ExplicitlyFalse(ad.attr("OnExitRemove"))
  }

  function OnExit(ad: Ad): Decision {
    if Fires(ad, "OnExitHold") then
      Decision(Hold, HoldReason(ad, "OnExitHold"), JOB_POLICY, AttrNumber(ad, "OnExitHoldSubCode"), "OnExitHold")
    else if OnExitRemoveIsFalse(ad) then Decision(Requeue, "OnExitRemove evaluated to false", 0, 0, "OnExitRemove")
    else Decision(Complete, "", 0, 0, "OnExitRemove")
  }

  /** The state the policy is evaluated for: a negative one is read from the ad. */
  function StateOf(ad: Ad, given: int): int { if given < 0 then IntOf(ad.attr("JobStatus")) else given }

  function Analyze(ad: Ad, mode: Mode, sys: Option<System>, given: int): Decision {
    var state := StateOf(ad, given);
    if state == REMOVED then
      if mode.PeriodicOnly? then Nothing(Stay) else Decision(Remove, "Job was removed", 0, 0, "OnExitRemove")
    else
      var hold := if state != HELD && state != COMPLETED then CheckHold(ad, sys) else None;
      if hold.Some? then hold.value
      else
        var releasable := state == HELD && IntOf(ad.attr("HoldReasonCode")) != USER_REQUEST;
        var release := if releasable then CheckRelease(ad, sys) else None;
        if release.Some? then release.value
        else
          var remove := CheckRemove(ad, sys);
          if remove.Some? then remove.value
          else if mode.PeriodicOnly? then Nothing(Stay)
          else OnExit(ad)
  }

  // ----- the documented rules -----

  // These say when a rule fires and what it decides in terms of values alone. The numbers are
  // HTCondor's own: status 3 Removed, 4 Completed, 5 Held; hold code 1 user request, 3 job policy,
  // 26 system policy.

  /** The values that make a rule fire. */
  predicate IsTrue(v: Value) { v == Boolean(true) || (v.Integer? && v != Integer(0)) || (v.Real? && v != Real(0.0)) }

  /** The values that say no; anything else, undefined or an error included, says neither. */
  predicate IsFalse(v: Value) { v == Boolean(false) || v == Integer(0) || v == Real(0.0) }

  /** The state the policy is evaluated for: a negative one is read from the ad. */
  function Evaluated(ad: Ad, given: int): int {
    if given >= 0 then given else match ad.attr("JobStatus") case Integer(i) => i case _ => 0
  }

  /** One line of the documented precedence: when it applies, the expression it watches, and what
      is decided when that expression is true. */
  datatype Rule = Rule(applies: bool, value: Value, decision: Decision)

  function JobValue(ad: Ad, name: string): Value { if name in ad.present then ad.attr(name) else Undefined }

  function SystemValue(ad: Ad, expr: Option<string>): Value { if expr.Some? then ad.expr(expr.value) else Undefined }

  const NO_SYSTEM: System := System(None, None, None, None, None, None)

  function Pool(sys: Option<System>): System { if sys.Some? then sys.value else NO_SYSTEM }

  /** The text given, or the default when there is none. */
  function Given(v: Value, fallback: string): string { if v.Text? && v.s != "" then v.s else fallback }

  function JobText(name: string): string { "The job attribute " + name + " expression evaluated to TRUE" }

  function SystemText(name: string): string { "The system macro " + name + " expression evaluated to TRUE" }

  /** Within each action the job's own expression comes before the pool's. */
  function HoldRules(ad: Ad, sys: Option<System>, state: int): seq<Rule> {
    var holdable := state !in {4, 5};
    var pool := Pool(sys);
    [Rule(holdable, JobValue(ad, "PeriodicHold"),
          Decision(Hold, Given(ad.attr("PeriodicHoldReason"), JobText("PeriodicHold")),
                   3, Number(JobValue(ad, "PeriodicHoldSubCode")), "PeriodicHold")),
     Rule(holdable, SystemValue(ad, pool.holdExpr),
          Decision(Hold, Given(SystemValue(ad, pool.holdReason), SystemText("SYSTEM_PERIODIC_HOLD")),
                   26, Number(SystemValue(ad, pool.holdSubCode)), "SYSTEM_PERIODIC_HOLD"))]
  }

  /** A hold the user asked for is not released. */
  function ReleaseRules(ad: Ad, sys: Option<System>, state: int): seq<Rule> {
    var releasable := state == 5 && ad.attr("HoldReasonCode") != Integer(1);
    [Rule(releasable, JobValue(ad, "PeriodicRelease"),
          Decision(Release, JobText("PeriodicRelease"), 0, 0, "PeriodicRelease")),
     Rule(releasable, SystemValue(ad, Pool(sys).releaseExpr),
          Decision(Release, SystemText("SYSTEM_PERIODIC_RELEASE"), 0, 0, "SYSTEM_PERIODIC_RELEASE"))]
  }

  function RemoveRules(ad: Ad, sys: Option<System>): seq<Rule> {
    var pool := Pool(sys);
    [Rule(true, JobValue(ad, "PeriodicRemove"),
          Decision(Remove, JobText("PeriodicRemove"), 0, 0, "PeriodicRemove")),
     Rule(true, SystemValue(ad, pool.removeExpr),
          Decision(Remove, Given(SystemValue(ad, pool.removeReason), SystemText("SYSTEM_PERIODIC_REMOVE")),
                   0, 0, "SYSTEM_PERIODIC_REMOVE"))]
  }

  /** At the end nothing, or for a job that exited the on-exit rules: OnExitRemove defaults to true. */
  function LastRules(ad: Ad, mode: Mode): seq<Rule> {
    if mode.PeriodicOnly? then [Rule(true, Boolean(true), Decision(Stay, "", 0, 0, ""))]
    else
      [Rule(true, JobValue(ad, "OnExitHold"),
            Decision(Hold, Given(ad.attr("OnExitHoldReason"), JobText("OnExitHold")),
                     3, Number(JobValue(ad, "OnExitHoldSubCode")), "OnExitHold")),
       Rule(IsFalse(JobValue(ad, "OnExitRemove")), Boolean(true),
            Decision(Requeue, "OnExitRemove evaluated to false", 0, 0, "OnExitRemove")),
       Rule(true, Boolean(true), Decision(Complete, "", 0, 0, "OnExitRemove"))]
  }

  /** All the rules in order of precedence. */
  function Rules(ad: Ad, mode: Mode, sys: Option<System>, state: int): seq<Rule> {
    HoldRules(ad, sys, state) + (ReleaseRules(ad, sys, state) + (RemoveRules(ad, sys) + LastRules(ad, mode)))
  }

  predicate Triggers(rule: Rule) { rule.applies && IsTrue(rule.value) }

  function FirstMatch(rules: seq<Rule>): Option<Rule> {
    if rules == [] then None else if Triggers(rules[0]) then Some(rules[0]) else FirstMatch(rules[1..])
  }

  lemma {:induction false} FirstMatchConcat(a: seq<Rule>, b: seq<Rule>)
    ensures FirstMatch(a + b) == if FirstMatch(a).Some? then FirstMatch(a) else FirstMatch(b)
  {
    if a == [] {
      assert a + b == b;
    } else {
      assert (a + b)[1..] == a[1..] + b;
      FirstMatchConcat(a[1..], b);
    }
  }

  lemma FirstOfTwo(a: Rule, b: Rule)
    ensures FirstMatch([a, b]) == if Triggers(a) then Some(a) else if Triggers(b) then Some(b) else None
  {
    assert [a, b][1..] == [b];
    assert FirstMatch([b]) == if Triggers(b) then Some(b) else None;
  }

  /** What the first rule that triggers decides, if any does. */
  function Decided(rules: seq<Rule>): Option<Decision> {
    var rule := FirstMatch(rules);
    if rule.Some? then Some(rule.value.decision) else None
  }

  lemma DefaultTexts(name: string)
    ensures DefaultReason("job attribute", name) == JobText(name)
    ensures DefaultReason("system macro", name) == SystemText(name)
  {
    assert "The " + "job attribute" + " " == "The job attribute ";
    assert "The " + "system macro" + " " == "The system macro ";
  }

  lemma HoldAgrees(ad: Ad, sys: Option<System>, state: int)
    ensures Decided(HoldRules(ad, sys, state))
            == if state != HELD && state != COMPLETED then CheckHold(ad, sys) else None
  {
    var rules := HoldRules(ad, sys, state);
    assert "PeriodicHold" + "Reason" == "PeriodicHoldReason";
    DefaultTexts("PeriodicHold");
    DefaultTexts("SYSTEM_PERIODIC_HOLD");
    FirstOfTwo(rules[0], rules[1]);
  }

  lemma ReleaseAgrees(ad: Ad, sys: Option<System>, state: int)
    ensures Decided(ReleaseRules(ad, sys, state))
            == if state == HELD && IntOf(ad.attr("HoldReasonCode")) != USER_REQUEST then CheckRelease(ad, sys) else None
  {
    var rules := ReleaseRules(ad, sys, state);
    DefaultTexts("PeriodicRelease");
    DefaultTexts("SYSTEM_PERIODIC_RELEASE");
    FirstOfTwo(rules[0], rules[1]);
  }

  lemma RemoveAgrees(ad: Ad, sys: Option<System>)
    ensures Decided(RemoveRules(ad, sys)) == CheckRemove(ad, sys)
  {
    var rules := RemoveRules(ad, sys);
    DefaultTexts("PeriodicRemove");
    DefaultTexts("SYSTEM_PERIODIC_REMOVE");
    FirstOfTwo(rules[0], rules[1]);
  }

  lemma LastAgrees(ad: Ad, mode: Mode)
    ensures Decided(LastRules(ad, mode)) == Some(if mode.PeriodicOnly? then Nothing(Stay) else OnExit(ad))
  {
    var rules := LastRules(ad, mode);
    if mode.PeriodicThenExit? {
      assert "OnExitHold" + "Reason" == "OnExitHoldReason";
      DefaultTexts("OnExitHold");
      assert rules[1..] == [rules[1], rules[2]];
      FirstOfTwo(rules[1], rules[2]);
    }
  }

  /** A removed job is inert, and one that exited is removed for good. */
  function Inert(mode: Mode): Decision {
    if mode.PeriodicOnly? then Decision(Stay, "", 0, 0, "")
    else Decision(Remove, "Job was removed", 0, 0, "OnExitRemove")
  }

  /** Analyze is first match over the documented rules, except for a removed job. */
  lemma AnalyzeIsFirstMatch(ad: Ad, mode: Mode, sys: Option<System>, given: int)
    ensures var state := Evaluated(ad, given);
            Some(Analyze(ad, mode, sys, given))
            == if state == 3 then Some(Inert(mode)) else Decided(Rules(ad, mode, sys, state))
  {
    var state := Evaluated(ad, given);
    assert state == StateOf(ad, given);
    var tail := RemoveRules(ad, sys) + LastRules(ad, mode);
    FirstMatchConcat(RemoveRules(ad, sys), LastRules(ad, mode));
    FirstMatchConcat(ReleaseRules(ad, sys, state), tail);
    FirstMatchConcat(HoldRules(ad, sys, state), ReleaseRules(ad, sys, state) + tail);
    HoldAgrees(ad, sys, state);
    ReleaseAgrees(ad, sys, state);
    RemoveAgrees(ad, sys);
    LastAgrees(ad, mode);
  }

  /** A sub-code is the whole part of its number, cut towards zero, and 0 for anything else. */
  lemma SubCodesAreCut(v: Value)
    ensures var n := Number(v) as real;
            match v
            case Integer(i) => Number(v) == i
            case Real(r) => if r >= 0.0 then 0.0 <= n <= r < n + 1.0 else n - 1.0 < r <= n <= 0.0
            case _ => n == 0.0
  {
  }

  /** None of the periodic expressions of a job that is neither Held nor Completed fires. */
  predicate PeriodicQuiet(ad: Ad, sys: Option<System>) {
    && !IsTrue(JobValue(ad, "PeriodicHold")) && !IsTrue(SystemValue(ad, Pool(sys).holdExpr))
    && !IsTrue(JobValue(ad, "PeriodicRemove")) && !IsTrue(SystemValue(ad, Pool(sys).removeExpr))
  }

  /** A job that exited and that no periodic expression concerns is held when OnExitHold is true;
      otherwise run again exactly when OnExitRemove is there and is false or zero; otherwise done. */
  lemma OnExitDecides(ad: Ad, sys: Option<System>)
    requires PeriodicQuiet(ad, sys)
    ensures var d := Analyze(ad, PeriodicThenExit, sys, 2);
            var hold := "OnExitHold" in ad.present && IsTrue(ad.attr("OnExitHold"));
            var again := "OnExitRemove" in ad.present
                         && ad.attr("OnExitRemove") in {Boolean(false), Integer(0), Real(0.0)};
            && (d.action.Hold? <==> hold) && (d.action.Requeue? <==> !hold && again)
            && (d.action.Complete? <==> !hold && !again)
            && ExitVerdict(Some(ad), sys) == (if hold then SchedulerCore.HoldIt(3, d.holdSub)
                                              else if again then SchedulerCore.RequeueIt
                                              else SchedulerCore.CompleteIt)
  {
    assert Analyze(ad, PeriodicThenExit, sys, 2) == OnExit(ad);
  }

  /** A job that has just exited is always held, removed, requeued or completed. */
  lemma ExitIsDecided(ad: Ad, sys: Option<System>)
    ensures var d := Analyze(ad, PeriodicThenExit, sys, RUNNING);
            && !d.action.Stay? && !d.action.Release?
            && (d.action.Hold? ==> d.holdCode == JOB_POLICY || d.holdCode == SYSTEM_POLICY)
  {
    AnalyzeIsFirstMatch(ad, PeriodicThenExit, sys, RUNNING);
  }

  // ----- the evaluator -----

  /** What the core does with a job that exited: `ad` is its ad once the exit is recorded, if the job
      is still there. */
  function ExitVerdict(ad: Option<Ad>, sys: Option<System>): SchedulerCore.Verdict {
    if ad.None? then SchedulerCore.CompleteIt
    else
      var d := Analyze(ad.value, PeriodicThenExit, sys, RUNNING);
      match d.action
      case Hold => SchedulerCore.HoldIt(d.holdCode, d.holdSub)
      case Requeue => SchedulerCore.RequeueIt
      case Remove => SchedulerCore.RemoveIt
      case _ => SchedulerCore.CompleteIt
  }

  predicate Empty(sys: Option<System>) {
    sys.None? || (sys.value.holdExpr.None? && sys.value.releaseExpr.None? && sys.value.removeExpr.None?)
  }

  predicate HasPeriodicExpr(ad: Ad, state: int) {
    "PeriodicRemove" in ad.present || "PeriodicHold" in ad.present || (state == HELD && "PeriodicRelease" in ad.present)
  }

  predicate Skipped(ad: Ad, sys: Option<System>, state: int) { Empty(sys) && !HasPeriodicExpr(ad, state) }

  /** The evaluator's private copy of an ad: the same attributes, with the time bound besides. */
  predicate Copies(shared: Ad, copy: Ad) {
    copy.present == shared.present + {"CurrentTime"} && copy.attr("JobStatus") == shared.attr("JobStatus")
  }

  /** Skipping is sound: the private copy, which has CurrentTime besides and so may evaluate
      differently, would be told to stay in any case. */
  lemma SkippedWouldStay(shared: Ad, copy: Ad, sys: Option<System>)
    requires Copies(shared, copy) && Skipped(shared, sys, IntOf(shared.attr("JobStatus")))
    ensures Analyze(copy, PeriodicOnly, sys, IntOf(shared.attr("JobStatus"))).action == Stay
  {
  }

  // ----- from decision to action -----

  function RequestOf(d: Decision): Actions.Request
    requires d.action.Remove? || d.action.Hold? || d.action.Release?
  {
    match d.action
    case Hold => Actions.Request(Actions.Hold, false, true, d.holdCode, d.holdSub)
    case Release => Actions.Request(Actions.Release, false, true, 0, 0)
    case _ => Actions.Request(Actions.Remove, false, true, 0, 0)
  }

  /** One job of the scan. */
  datatype Scanned = Scanned(key: JobId, shared: Ad, copy: Ad)

  /** What a scan that evaluates every job would submit for this one. */
  function Submitted(job: Scanned, sys: Option<System>): seq<(JobId, Actions.Request)> {
    var d := Analyze(job.copy, PeriodicOnly, sys, IntOf(job.shared.attr("JobStatus")));
    if d.action.Remove? || d.action.Hold? || d.action.Release? then [(job.key, RequestOf(d))] else []
  }

  function AllSubmitted(scan: seq<Scanned>, sys: Option<System>): seq<(JobId, Actions.Request)> {
    if scan == [] then [] else AllSubmitted(scan[..|scan| - 1], sys) + Submitted(scan[|scan| - 1], sys)
  }

  /** The periodic scan with its fast path submits what a scan without one would. */
  method EvaluatePeriodic(scan: seq<Scanned>, sys: Option<System>) returns (events: seq<(JobId, Actions.Request)>)
    requires forall i | 0 <= i < |scan| :: Copies(scan[i].shared, scan[i].copy)
    ensures events == AllSubmitted(scan, sys)
  {
    events := [];
    var haveSys := !Empty(sys);
    for i := 0 to |scan|
      invariant events == AllSubmitted(scan[..i], sys)
    {
      var job := scan[i];
      assert scan[..i + 1][..i] == scan[..i];
      var state := IntOf(job.shared.attr("JobStatus"));
      if !haveSys && !HasPeriodicExpr(job.shared, state) {
        SkippedWouldStay(job.shared, job.copy, sys);
        continue;
      }
      var d := Analyze(job.copy, PeriodicOnly, sys, state);
      match d.action {
        case Remove => events := events + [(job.key, RequestOf(d))];
        case Hold => events := events + [(job.key, RequestOf(d))];
        case Release => events := events + [(job.key, RequestOf(d))];
        case _ =>
      }
    }
    assert scan[..|scan|] == scan;
  }

  /** A periodic decision about a job that has not changed since passes the core's check of its
      status, and the queue accepts it, except the release of a job held for input spooling. */
  lemma PeriodicActionIsAccepted(ad: Ad, sys: Option<System>, job: Job)
    requires job.status == IDLE || job.status == RUNNING || job.status == HELD
    requires IntOf(ad.attr("HoldReasonCode")) == job.holdCode
    requires !Analyze(ad, PeriodicOnly, sys, job.status).action.Stay?
    ensures var d := Analyze(ad, PeriodicOnly, sys, job.status);
            && (d.action.Remove? || d.action.Hold? || d.action.Release?)
            && SchedulerCore.PolicyApplicable(RequestOf(d).kind, job.status)
            && (Actions.Verdict(Some(job), RequestOf(d)) == Actions.ArSuccess
                <==> !(d.action.Release? && job.holdCode == SPOOLING_INPUT))
  {
  }

  /** What a periodic decision leads to in the record: a hold with the decision's own codes, a release,
      or a removal. */
  lemma PeriodicActionIsRecorded(ad: Ad, sys: Option<System>, job: Job, now: int)
    requires !Analyze(ad, PeriodicOnly, sys, job.status).action.Stay?
    ensures var d := Analyze(ad, PeriodicOnly, sys, job.status);
            && (d.action.Remove? || d.action.Hold? || d.action.Release?)
            && var after := Actions.Edited(job, RequestOf(d), now);
               match d.action
               case Hold => after.status == 5 && after.holdCode == d.holdCode && after.holdSub == d.holdSub
               case Release => after.status == (if job.statusOnRelease > 0 then job.statusOnRelease else 1)
               case _ => after.status == 3
  {
  }

  /** What happens to a job that exited is what the first documented rule that fires decides; one that
      is gone is completed. */
  lemma ExitVerdictFollows(ad: Ad, sys: Option<System>)
    ensures Decided(Rules(ad, PeriodicThenExit, sys, 2)).Some? && ExitVerdict(None, sys) == SchedulerCore.CompleteIt
    ensures var d := Decided(Rules(ad, PeriodicThenExit, sys, 2)).value;
            ExitVerdict(Some(ad), sys) == match d.action
                                          case Hold => SchedulerCore.HoldIt(d.holdCode, d.holdSub)
                                          case Remove => SchedulerCore.RemoveIt
                                          case Requeue => SchedulerCore.RequeueIt
                                          case _ => SchedulerCore.CompleteIt
  {
    AnalyzeIsFirstMatch(ad, PeriodicThenExit, sys, 2);
  }

  /** The event the periodic scan owes a job: by its status and the first documented rule that fires, on
      behalf of the schedd itself. */
  lemma PeriodicSubmits(job: Scanned, sys: Option<System>)
    requires Copies(job.shared, job.copy)
    ensures var state := Evaluated(job.shared, -1);
            var d := if state == 3 then Inert(PeriodicOnly) else
                       var first := Decided(Rules(job.copy, PeriodicOnly, sys, state));
                       if first.Some? then first.value else Inert(PeriodicOnly);
            Submitted(job, sys) == match d.action
                                   case Hold =>
                                     [(job.key, Actions.Request(Actions.Hold, false, true, d.holdCode, d.holdSub))]
                                   case Release => [(job.key, Actions.Request(Actions.Release, false, true, 0, 0))]
                                   case Remove => [(job.key, Actions.Request(Actions.Remove, false, true, 0, 0))]
                                   case _ => []
  {
    var state := Evaluated(job.shared, -1);
    assert state == IntOf(job.shared.attr("JobStatus")) && Evaluated(job.copy, state) == state;
    AnalyzeIsFirstMatch(job.copy, PeriodicOnly, sys, state);
  }
}
