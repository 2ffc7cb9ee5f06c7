/**
 * The mitigation policy engine: an alert is checked against the ordered rule
 * list in three fixed phases (RST rate limits, fragment drops, a standing state
 * flush). Each firing calls one actuator and appends one receipt.
 */
module PolicyEngine {
  import opened Wrappers
  import opened Alerts

  /**
   * A rule of the policy document. A key the document leaves out is None;
   * the rate and the fragment type are carried as the text they print as.
   */
  datatype Rule = Rule(action: Option<string>, flag: Option<string>, rate: Option<string>, fragType: Option<string>)

  /** The loaded policy document: its "policies" list, if it has one. */
  datatype Policy = Policy(policies: Option<seq<Rule>>)

  /** An actuator call. */
  datatype Call = RateLimit(flag: string, rate: string) | DropFrag(fragType: string) | FlushState(destination: string)

  /** An actuator call together with the receipt appended for it. */
  datatype Effect = Effect(call: Call, receipt: string)

  /** The effects produced and whether a missing key then raised. */
  datatype Outcome = Outcome(effects: seq<Effect>, failed: bool)

  datatype PhaseKind = RstPhase | FragPhase

  /** What one rule does in one phase: nothing, one effect, or a missing-key failure. */
  datatype Step = Skip | Fire(effect: Effect) | Fail

  const RateLimitFlag: string := "RATE_LIMIT_FLAG"
  const DropFragment: string := "DROP_FRAGMENT"
  const StateFlush: string := "STATE_FLUSH"
  const FlushReceipt: string := "State flushed for destination"

  /** The receipt text recorded for each kind of call. */
  function ReceiptText(c: Call): string
  {
    match c
    case RateLimit(_, rate) => "Rate limit RST @ " + rate
    case DropFrag(t) => "Dropped frag: " + t
    case FlushState(_) => FlushReceipt
  }

  /**
   * One rule in one phase, with the source's lookup order: the action first,
   * then (for a rate-limit rule) the flag, then the parameter the call needs.
   */
  function RuleStep(kind: PhaseKind, p: Rule): Step
  {
    match p.action
    case None => Fail
    case Some(action) =>
      match kind
      case RstPhase =>
        if action != RateLimitFlag then Skip
        else if p.flag.None? then Fail
        else if p.flag.value != "RST" then Skip
        else if p.rate.None? then Fail
        else Fire(Effect(RateLimit(p.flag.value, p.rate.value), ReceiptText(RateLimit(p.flag.value, p.rate.value))))
      case FragPhase =>
        if action != DropFragment then Skip
        else if p.fragType.None? then Fail
        else Fire(Effect(DropFrag(p.fragType.value), ReceiptText(DropFrag(p.fragType.value))))
  }

  /** One phase's walk over the rules in order, stopping at the first failure. */
  function RunPhase(kind: PhaseKind, rules: seq<Rule>): Outcome
  {
    if rules == [] then Outcome([], false)
    else
      var prev := RunPhase(kind, rules[..|rules| - 1]);
      if prev.failed then prev
      else match RuleStep(kind, rules[|rules| - 1])
        case Skip => prev
        case Fire(e) => Outcome(prev.effects + [e], false)
        case Fail => Outcome(prev.effects, true)
  }

  /** A phase that runs only when its flag is set, over the policy list if there is one. */
  function Phase(kind: PhaseKind, enabled: bool, policy: Policy): Outcome
  {
    if !enabled then Outcome([], false)
    else if policy.policies.None? then Outcome([], true)
    else RunPhase(kind, policy.policies.value)
  }

  function FlushEffect(alert: Alert): Effect
  {
    Effect(FlushState(alert.destinationIp), FlushReceipt)
  }

  /** Everything handling one alert does: the RST phase, the fragment phase, then the standing flush. */
  function Evaluate(alert: Alert, policy: Policy): Outcome
  {
    var rst := Phase(RstPhase, alert.flags.rst, policy);
    if rst.failed then rst
    else
      var frag := Phase(FragPhase, alert.flags.frag, policy);
      var upTo := rst.effects + frag.effects;
      if frag.failed then Outcome(upTo, true)
      else if alert.recommendedAction == StateFlush then Outcome(upTo + [FlushEffect(alert)], false)
      else Outcome(upTo, false)
  }

  function CallsOf(effects: seq<Effect>): seq<Call>
  {
    seq(|effects|, i requires 0 <= i < |effects| => effects[i].call)
  }

  function ReceiptsOf(effects: seq<Effect>): seq<string>
  {
    seq(|effects|, i requires 0 <= i < |effects| => effects[i].receipt)
  }

  /** The rate-limit, fragment-drop and state-flush actuators, as the trace of calls made on them. */
  class ActuatorLog {
    var calls: seq<Call>

    constructor ()
      ensures calls == []
    {
      calls := [];
    }

    method Apply(c: Call)
      modifies this
      ensures calls == old(calls) + [c]
    {
      calls := calls + [c];
    }
  }

  /** Once a phase has failed on a prefix, it has failed with the same effects on the whole list. */
  lemma {:induction false} FailureSticks(kind: PhaseKind, rules: seq<Rule>, i: nat)
    requires i <= |rules| && RunPhase(kind, rules[..i]).failed
    ensures RunPhase(kind, rules) == RunPhase(kind, rules[..i])
    decreases |rules| - i
  {
    if i < |rules| {
      assert rules[..i + 1][..i] == rules[..i];
      FailureSticks(kind, rules, i + 1);
    } else {
      assert rules[..i] == rules;
    }
  }

  /** One more rule of a phase that has not failed yet, as the definition takes it. */
  lemma RunPhaseStep(kind: PhaseKind, rules: seq<Rule>, i: nat)
    requires i < |rules| && !RunPhase(kind, rules[..i]).failed
    ensures var prev := RunPhase(kind, rules[..i]);
      RunPhase(kind, rules[..i + 1]) == match RuleStep(kind, rules[i])
        case Skip => prev
        case Fire(e) => Outcome(prev.effects + [e], false)
        case Fail => Outcome(prev.effects, true)
  {
    assert rules[..i + 1][..i] == rules[..i];
  }

  lemma CallsOfAppend(a: seq<Effect>, b: seq<Effect>)
    ensures CallsOf(a + b) == CallsOf(a) + CallsOf(b)
    ensures ReceiptsOf(a + b) == ReceiptsOf(a) + ReceiptsOf(b)
  {
    assert |CallsOf(a + b)| == |CallsOf(a) + CallsOf(b)|;
    assert |ReceiptsOf(a + b)| == |ReceiptsOf(a) + ReceiptsOf(b)|;
  }

  /** Appending one effect appends its call to the trace and its receipt to the list. */
  lemma CallsOfSnoc(a: seq<Effect>, e: Effect)
    ensures CallsOf(a + [e]) == CallsOf(a) + [e.call]
    ensures ReceiptsOf(a + [e]) == ReceiptsOf(a) + [e.receipt]
  {
    CallsOfAppend(a, [e]);
    assert CallsOf([e]) == [e.call];
    assert ReceiptsOf([e]) == [e.receipt];
  }

  /** One phase's loop over the policy list: actuator calls and receipts in rule order. */
  method ApplyPhase(kind: PhaseKind, rules: seq<Rule>, log: ActuatorLog) returns (receipts: seq<string>, ok: bool)
    modifies log
    ensures log.calls == old(log.calls) + CallsOf(RunPhase(kind, rules).effects)
    ensures ok == !RunPhase(kind, rules).failed
    ensures receipts == ReceiptsOf(RunPhase(kind, rules).effects)
  {
    receipts := [];
    ghost var effects: seq<Effect> := [];
    for i := 0 to |rules|
      invariant RunPhase(kind, rules[..i]) == Outcome(effects, false)
      invariant receipts == ReceiptsOf(effects)
      invariant log.calls == old(log.calls) + CallsOf(effects)
    {
      var p := rules[i];
      RunPhaseStep(kind, rules, i);
      if p.action.None? {
        FailureSticks(kind, rules, i + 1);
        return receipts, false;
      }
      var action := p.action.value;
      if kind == RstPhase && action == RateLimitFlag {
        if p.flag.None? {
          FailureSticks(kind, rules, i + 1);
          return receipts, false;
        }
        if p.flag.value == "RST" {
          if p.rate.None? {
            FailureSticks(kind, rules, i + 1);
            return receipts, false;
          }
          ghost var e := Effect(RateLimit(p.flag.value, p.rate.value), "Rate limit RST @ " + p.rate.value);
          CallsOfSnoc(effects, e);
          log.Apply(RateLimit(p.flag.value, p.rate.value));
          receipts := receipts + ["Rate limit RST @ " + p.rate.value];
          effects := effects + [e];
        }
      } else if kind == FragPhase && action == DropFragment {
        if p.fragType.None? {
          FailureSticks(kind, rules, i + 1);
          return receipts, false;
        }
        ghost var e := Effect(DropFrag(p.fragType.value), "Dropped frag: " + p.fragType.value);
        CallsOfSnoc(effects, e);
        log.Apply(DropFrag(p.fragType.value));
        receipts := receipts + ["Dropped frag: " + p.fragType.value];
        effects := effects + [e];
      }
    }
    assert rules[..|rules|] == rules;
    ok := true;
  }

  /** A phase guarded by its flag: the policy list is looked up only when the flag is set. */
  method FlaggedPhase(kind: PhaseKind, enabled: bool, policy: Policy, log: ActuatorLog)
    returns (receipts: seq<string>, ok: bool)
    modifies log
    ensures log.calls == old(log.calls) + CallsOf(Phase(kind, enabled, policy).effects)
    ensures ok == !Phase(kind, enabled, policy).failed
    ensures receipts == ReceiptsOf(Phase(kind, enabled, policy).effects)
  {
    if !enabled {
      return [], true;
    }
    if policy.policies.None? {
      return [], false;
    }
    receipts, ok := ApplyPhase(kind, policy.policies.value, log);
  }

  /**
   * Handling one alert: the receipts in order, or None when a missing key
   * raised (the calls made before it stay made).
   */
  method HandleAlert(alert: Alert, policy: Policy, log: ActuatorLog) returns (actionTaken: Option<seq<string>>)
    modifies log
    ensures log.calls == old(log.calls) + CallsOf(Evaluate(alert, policy).effects)
    ensures actionTaken.None? <==> Evaluate(alert, policy).failed
    ensures actionTaken.Some? ==> actionTaken.value == ReceiptsOf(Evaluate(alert, policy).effects)
  {
    ghost var calls0 := log.calls;
    ghost var rst := Phase(RstPhase, alert.flags.rst, policy);
    ghost var frag := Phase(FragPhase, alert.flags.frag, policy);
    var rstReceipts, rstOk := FlaggedPhase(RstPhase, alert.flags.rst, policy, log);
    if !rstOk {
      assert Evaluate(alert, policy) == rst;
      return None;
    }
    var fragReceipts, fragOk := FlaggedPhase(FragPhase, alert.flags.frag, policy, log);
    CallsOfAppend(rst.effects, frag.effects);
    assert log.calls == calls0 + CallsOf(rst.effects + frag.effects);
    if !fragOk {
      assert Evaluate(alert, policy) == Outcome(rst.effects + frag.effects, true);
      return None;
    }
    var taken := rstReceipts + fragReceipts;
    assert taken == ReceiptsOf(rst.effects + frag.effects);
    if alert.recommendedAction == StateFlush {
      log.Apply(FlushState(alert.destinationIp));
      taken := taken + [FlushReceipt];
      CallsOfAppend(rst.effects + frag.effects, [FlushEffect(alert)]);
      assert CallsOf([FlushEffect(alert)]) == [FlushState(alert.destinationIp)];
      assert ReceiptsOf([FlushEffect(alert)]) == [FlushReceipt];
      assert Evaluate(alert, policy) == Outcome(rst.effects + frag.effects + [FlushEffect(alert)], false);
    } else {
      assert Evaluate(alert, policy) == Outcome(rst.effects + frag.effects, false);
    }
    actionTaken := Some(taken);
  }

  // ---------------------------------------------------------------------------
  // Properties of the evaluation
  // ---------------------------------------------------------------------------

  /** Nothing flagged and no flush requested: no call and no receipt, and the policy is not even looked up. */
  lemma NoMitigation(alert: Alert, policy: Policy)
    requires !alert.flags.rst && !alert.flags.frag && alert.recommendedAction != StateFlush
    ensures Evaluate(alert, policy) == Outcome([], false)
  {
  }

  /** What each phase can emit: only RST rate limits, or only fragment drops, each with its own receipt. */
  predicate PhaseEffect(kind: PhaseKind, e: Effect)
  {
    && (kind == RstPhase ==> e.call.RateLimit? && e.call.flag == "RST")
    && (kind == FragPhase ==> e.call.DropFrag?)
    && e.receipt == ReceiptText(e.call)
  }

  lemma {:induction false} PhaseEffects(kind: PhaseKind, rules: seq<Rule>)
    ensures forall i :: 0 <= i < |RunPhase(kind, rules).effects| ==> PhaseEffect(kind, RunPhase(kind, rules).effects[i])
  {
    if rules != [] {
      PhaseEffects(kind, rules[..|rules| - 1]);
    }
  }

  /** The order of call kinds: rate limits, then fragment drops, then the flush. */
  function Rank(c: Call): nat
  {
    match c
    case RateLimit(_, _) => 0
    case DropFrag(_) => 1
    case FlushState(_) => 2
  }

  /** The properties EvaluateEffects promises of a list of effects. */
  predicate WellOrdered(alert: Alert, E: seq<Effect>)
  {
    && (forall i, j :: 0 <= i < j < |E| ==> Rank(E[i].call) <= Rank(E[j].call))
    && (forall i :: 0 <= i < |E| && E[i].call.FlushState? ==>
          i == |E| - 1 && E[i].call.destination == alert.destinationIp
          && alert.recommendedAction == "STATE_FLUSH")
    && (forall i :: 0 <= i < |E| && E[i].call.RateLimit? ==> alert.flags.rst && E[i].call.flag == "RST")
    && (forall i :: 0 <= i < |E| && E[i].call.DropFrag? ==> alert.flags.frag)
    && (forall i :: 0 <= i < |E| ==> E[i].receipt == ReceiptText(E[i].call))
  }

  /** Rate limits (only under RST), then fragment drops (only under FRAG), then at most the requested flush. */
  lemma SegmentsWellOrdered(alert: Alert, A: seq<Effect>, B: seq<Effect>, F: seq<Effect>)
    requires forall i :: 0 <= i < |A| ==> PhaseEffect(RstPhase, A[i])
    requires forall i :: 0 <= i < |B| ==> PhaseEffect(FragPhase, B[i])
    requires A != [] ==> alert.flags.rst
    requires B != [] ==> alert.flags.frag
    requires F == [] || (F == [FlushEffect(alert)] && alert.recommendedAction == StateFlush)
    ensures WellOrdered(alert, A + B + F)
  {
    var E := A + B + F;
    forall i | 0 <= i < |E|
      ensures Rank(E[i].call) == (if i < |A| then 0 else if i < |A| + |B| then 1 else 2)
      ensures E[i].call.FlushState? ==> i >= |A| + |B|
      ensures E[i].receipt == ReceiptText(E[i].call)
    {
      if i < |A| {
        assert E[i] == A[i];
      } else if i < |A| + |B| {
        assert E[i] == B[i - |A|];
      } else {
        assert E[i] == F[i - |A| - |B|];
      }
    }
  }

  /**
   * Whatever the alert and policy: calls come phase by phase, a rate limit only
   * for a set RST flag and a fragment drop only for a set FRAG flag, the flush
   * (if any) is the last call and targets the alert's destination, and the
   * i-th receipt is the receipt of the i-th call.
   */
  lemma EvaluateEffects(alert: Alert, policy: Policy)
    ensures var E := Evaluate(alert, policy).effects;
      && (forall i, j :: 0 <= i < j < |E| ==> Rank(E[i].call) <= Rank(E[j].call))
      && (forall i :: 0 <= i < |E| && E[i].call.FlushState? ==>
            i == |E| - 1 && E[i].call.destination == alert.destinationIp
            && alert.recommendedAction == "STATE_FLUSH")
      && (forall i :: 0 <= i < |E| && E[i].call.RateLimit? ==> alert.flags.rst && E[i].call.flag == "RST")
      && (forall i :: 0 <= i < |E| && E[i].call.DropFrag? ==> alert.flags.frag)
      && |CallsOf(E)| == |ReceiptsOf(E)|
      && (forall i :: 0 <= i < |E| ==> ReceiptsOf(E)[i] == ReceiptText(CallsOf(E)[i]))
  {
    var E := Evaluate(alert, policy).effects;
    var A, B, F := EvaluateSegments(alert, policy);
    SegmentsWellOrdered(alert, A, B, F);
    assert WellOrdered(alert, E);
    assert forall i :: 0 <= i < |E| ==> CallsOf(E)[i] == E[i].call && ReceiptsOf(E)[i] == E[i].receipt;
  }

  /** The effects of an evaluation cut into the RST phase's, the fragment phase's and the flush. */
  lemma EvaluateSegments(alert: Alert, policy: Policy) returns (A: seq<Effect>, B: seq<Effect>, F: seq<Effect>)
    ensures Evaluate(alert, policy).effects == A + B + F
    ensures forall i :: 0 <= i < |A| ==> PhaseEffect(RstPhase, A[i])
    ensures forall i :: 0 <= i < |B| ==> PhaseEffect(FragPhase, B[i])
    ensures A != [] ==> alert.flags.rst
    ensures B != [] ==> alert.flags.frag
    ensures F == [] || (F == [FlushEffect(alert)] && alert.recommendedAction == StateFlush)
  {
    var rst := Phase(RstPhase, alert.flags.rst, policy);
    var frag := Phase(FragPhase, alert.flags.frag, policy);
    if policy.policies.Some? {
      PhaseEffects(RstPhase, policy.policies.value);
      PhaseEffects(FragPhase, policy.policies.value);
    }
    A := rst.effects;
    if rst.failed {
      B, F := [], [];
      assert A + B + F == A;
    } else if frag.failed || alert.recommendedAction != StateFlush {
      B, F := frag.effects, [];
      assert A + B + F == A + B;
    } else {
      B, F := frag.effects, [FlushEffect(alert)];
    }
  }

  /** When nothing raised, a flush happens exactly when the alert asks for one, whatever the rules say. */
  lemma FlushIffRequested(alert: Alert, policy: Policy)
    requires !Evaluate(alert, policy).failed
    ensures var E := Evaluate(alert, policy).effects;
      (exists i :: 0 <= i < |E| && E[i].call.FlushState?) <==> alert.recommendedAction == "STATE_FLUSH"
  {
    var E := Evaluate(alert, policy).effects;
    EvaluateEffects(alert, policy);
    var rst := Phase(RstPhase, alert.flags.rst, policy);
    var frag := Phase(FragPhase, alert.flags.frag, policy);
    if alert.recommendedAction == StateFlush {
      assert E[|E| - 1].call.FlushState?;
    } else {
      if policy.policies.Some? {
        PhaseEffects(RstPhase, policy.policies.value);
        PhaseEffects(FragPhase, policy.policies.value);
      }
      assert !alert.flags.rst ==> rst.effects == [];
      assert !alert.flags.frag ==> frag.effects == [];
      assert E == rst.effects + frag.effects;
      forall i | 0 <= i < |E| ensures !E[i].call.FlushState? {
        if i < |rst.effects| {
          assert E[i] == rst.effects[i];
          assert PhaseEffect(RstPhase, rst.effects[i]);
        } else {
          assert E[i] == frag.effects[i - |rst.effects|];
          assert PhaseEffect(FragPhase, frag.effects[i - |rst.effects|]);
        }
      }
    }
  }

  // ---------------------------------------------------------------------------
  // A reference definition for well-formed policies
  // ---------------------------------------------------------------------------

  /** Whether a rule belongs to a phase. */
  predicate Matches(kind: PhaseKind, p: Rule)
  {
    match kind
    case RstPhase => p.action == Some(RateLimitFlag) && p.flag == Some("RST")
    case FragPhase => p.action == Some(DropFragment)
  }

  /** Every key a phase looks up in this rule is there. */
  predicate RuleWellFormed(kind: PhaseKind, p: Rule)
  {
    && p.action.Some?
    && (kind == RstPhase && p.action.value == RateLimitFlag ==> p.flag.Some?)
    && (Matches(kind, p) && kind == RstPhase ==> p.rate.Some?)
    && (Matches(kind, p) && kind == FragPhase ==> p.fragType.Some?)
  }

  predicate WellFormed(kind: PhaseKind, rules: seq<Rule>)
  {
    forall i :: 0 <= i < |rules| ==> RuleWellFormed(kind, rules[i])
  }

  function CallFor(kind: PhaseKind, p: Rule): Call
    requires Matches(kind, p) && RuleWellFormed(kind, p)
  {
    match kind
    case RstPhase => RateLimit("RST", p.rate.value)
    case FragPhase => DropFrag(p.fragType.value)
  }

  /** The calls of the rules that belong to the phase, one per rule, in list order. */
  function Fired(kind: PhaseKind, rules: seq<Rule>): seq<Call>
    requires WellFormed(kind, rules)
  {
    if rules == [] then []
    else (if Matches(kind, rules[0]) then [CallFor(kind, rules[0])] else []) + Fired(kind, rules[1..])
  }

  /** The number of rules that belong to the phase. */
  function Count(kind: PhaseKind, rules: seq<Rule>): nat
  {
    if rules == [] then 0 else (if Matches(kind, rules[0]) then 1 else 0) + Count(kind, rules[1..])
  }

  lemma {:induction false} FiredAppend(kind: PhaseKind, rules: seq<Rule>, p: Rule)
    requires WellFormed(kind, rules + [p])
    ensures WellFormed(kind, rules) && RuleWellFormed(kind, p)
    ensures Fired(kind, rules + [p]) ==
      Fired(kind, rules) + (if Matches(kind, p) then [CallFor(kind, p)] else [])
    ensures Count(kind, rules + [p]) == Count(kind, rules) + (if Matches(kind, p) then 1 else 0)
  {
    assert (rules + [p])[|rules|] == p;
    assert forall i :: 0 <= i < |rules| ==> (rules + [p])[i] == rules[i];
    if rules != [] {
      assert (rules + [p])[1..] == rules[1..] + [p];
      assert (rules + [p])[0] == rules[0];
      FiredAppend(kind, rules[1..], p);
    }
  }

  /**
   * On a well-formed list a phase never raises, and its calls are exactly
   * those of the matching rules, one each, in list order.
   */
  lemma {:induction false} PhaseIsFiltered(kind: PhaseKind, rules: seq<Rule>)
    requires WellFormed(kind, rules)
    ensures !RunPhase(kind, rules).failed
    ensures CallsOf(RunPhase(kind, rules).effects) == Fired(kind, rules)
    ensures |RunPhase(kind, rules).effects| == Count(kind, rules)
  {
    if rules != [] {
      var init, p := rules[..|rules| - 1], rules[|rules| - 1];
      assert rules == init + [p];
      FiredAppend(kind, init, p);
      PhaseIsFiltered(kind, init);
      var prev := RunPhase(kind, init);
      match RuleStep(kind, p)
      case Skip =>
      case Fire(e) =>
        CallsOfAppend(prev.effects, [e]);
      case Fail =>
    }
  }

  function RulesOf(policy: Policy): seq<Rule>
  {
    if policy.policies.Some? then policy.policies.value else []
  }

  /**
   * On a policy whose looked-up rules are well-formed nothing raises, and the
   * calls are the RST rules' rate limits (if RST is set), then the fragment
   * rules' drops (if FRAG is set), then one flush (if the alert asks for it);
   * so the number of calls, and of receipts, is the sum of those counts.
   */
  lemma EvaluateWellFormed(alert: Alert, policy: Policy)
    requires alert.flags.rst || alert.flags.frag ==> policy.policies.Some?
    requires alert.flags.rst ==> WellFormed(RstPhase, RulesOf(policy))
    requires alert.flags.frag ==> WellFormed(FragPhase, RulesOf(policy))
    ensures !Evaluate(alert, policy).failed
    ensures CallsOf(Evaluate(alert, policy).effects) ==
      (if alert.flags.rst then Fired(RstPhase, RulesOf(policy)) else [])
      + (if alert.flags.frag then Fired(FragPhase, RulesOf(policy)) else [])
      + (if alert.recommendedAction == "STATE_FLUSH" then [FlushState(alert.destinationIp)] else [])
    ensures |Evaluate(alert, policy).effects| ==
      (if alert.flags.rst then Count(RstPhase, RulesOf(policy)) else 0)
      + (if alert.flags.frag then Count(FragPhase, RulesOf(policy)) else 0)
      + (if alert.recommendedAction == "STATE_FLUSH" then 1 else 0)
  {
    var rules := RulesOf(policy);
    var rst := Phase(RstPhase, alert.flags.rst, policy);
    var frag := Phase(FragPhase, alert.flags.frag, policy);
    if alert.flags.rst { PhaseIsFiltered(RstPhase, rules); }
    if alert.flags.frag { PhaseIsFiltered(FragPhase, rules); }
    CallsOfAppend(rst.effects, frag.effects);
    CallsOfAppend(rst.effects + frag.effects, [FlushEffect(alert)]);
  }

  /** The single-rule example: an RST rate-limit rule at rate 100 fires once on an RST alert and not otherwise. */
  lemma SingleRstRule(alert: Alert)
    requires !alert.flags.frag && alert.recommendedAction != StateFlush
    ensures var policy := Policy(Some([Rule(Some("RATE_LIMIT_FLAG"), Some("RST"), Some("100"), None)]));
      CallsOf(Evaluate(alert, policy).effects) == (if alert.flags.rst then [RateLimit("RST", "100")] else [])
  {
    var rules := [Rule(Some("RATE_LIMIT_FLAG"), Some("RST"), Some("100"), None)];
    assert rules[..0] == [];
    CallsOfAppend([], [Effect(RateLimit("RST", "100"), "Rate limit RST @ 100")]);
  }
}
