/**
 * Properties that span components: the one risk rule read the same way by
 * the synchronisation module and both controllers, and the alert lifecycle
 * followed end to end on concrete inputs.
 */
module Pipeline {
  import opened Wrappers
  import opened Alerts
  import OnlineClassifier
  import LsmaSync
  import PolicyEngine

  /**
   * For an alert as forwarded (all fields present): both controllers accept it,
   * and they block its endpoints exactly when the synchronisation module sends
   * it on the urgent channel.
   */
  lemma RiskRuleAgreesAcrossSites(a: Alert)
    ensures Ingest(Json(Encode(a))).Accepted?
    ensures Ingest(Json(Encode(a))).alertId == a.alertId
    ensures LsmaSync.Dispatch(a, true).value.channel == LsmaSync.UrgentChannel
            <==> Ingest(Json(Encode(a))).block.Some?
    ensures Ingest(Json(Encode(a))).block.Some? ==>
            Ingest(Json(Encode(a))).block.value == Endpoints(a.sourceIp, a.destinationIp)
  {
    IngestEncoded(a);
    LsmaSync.RoutesByRisk(a);
  }

  /** An alert the classifier posts never makes the policy engine flush state, whatever the policy. */
  lemma PostedAlertsNeverFlush(ticks: seq<OnlineClassifier.Tick>, policy: PolicyEngine.Policy)
    requires forall i :: 0 <= i < |ticks| ==> OnlineClassifier.TickWellFormed(ticks[i])
    ensures forall p, i ::
              p in OnlineClassifier.RunTicks(ticks).posts && 0 <= i < |PolicyEngine.Evaluate(p.alert, policy).effects|
              ==> !PolicyEngine.Evaluate(p.alert, policy).effects[i].call.FlushState?
  {
    OnlineClassifier.PostedAlertsPassGate(ticks);
    forall p | p in OnlineClassifier.RunTicks(ticks).posts
      ensures forall i ::
                0 <= i < |PolicyEngine.Evaluate(p.alert, policy).effects|
                ==> !PolicyEngine.Evaluate(p.alert, policy).effects[i].call.FlushState?
    {
      PolicyEngine.EvaluateEffects(p.alert, policy);
    }
  }

  /**
   * The end-to-end vector: RST count 3, no FIN or FRAG, classifier output
   * (1, 0.92). The alert is posted with only RST set and RATE_LIMIT
   * recommended, goes on the urgent channel, and under a single RST rule at
   * rate 100 the policy engine makes one rate-limit call.
   */
  lemma EndToEndRstExample(alertId: string, timestamp: string)
    ensures var a := OnlineClassifier.CreateAlert([3, 0, 0], 1, 0.92, alertId, timestamp);
      && OnlineClassifier.ShouldSend(1, 0.92)
      && a.flags == Flags(true, false, false, false)
      && a.recommendedAction == "RATE_LIMIT"
      && LsmaSync.Dispatch(a, true) == Some(LsmaSync.Delivery(LsmaSync.UrgentChannel, a))
      && PolicyEngine.CallsOf(PolicyEngine.Evaluate(a,
           PolicyEngine.Policy(Some([PolicyEngine.Rule(Some("RATE_LIMIT_FLAG"), Some("RST"), Some("100"), None)])))
           .effects) == [PolicyEngine.RateLimit("RST", "100")]
  {
    var a := OnlineClassifier.CreateAlert([3, 0, 0], 1, 0.92, alertId, timestamp);
    PolicyEngine.SingleRstRule(a);
  }

  /**
   * The validation example (confidence 0.92, RST and FRAG set, DROP_FRAGMENT
   * recommended): urgent, blocked by both controllers, and under one rule of
   * each kind the engine rate-limits RST and then drops fragments, with no flush.
   */
  lemma ValidationExample()
    ensures var a := Alert("e7b3f13e-1234-45ab-b123-1234567890ab", "2025-07-05T12:34:56Z",
                           "192.168.1.10", "10.0.0.5", "TCP", Flags(true, false, false, true), 0.92, "DROP_FRAGMENT");
      var policy := PolicyEngine.Policy(Some([
        PolicyEngine.Rule(Some("RATE_LIMIT_FLAG"), Some("RST"), Some("100"), None),
        PolicyEngine.Rule(Some("DROP_FRAGMENT"), None, None, Some("ipv4"))]));
      && LsmaSync.Dispatch(a, true) == Some(LsmaSync.Delivery(LsmaSync.UrgentChannel, a))
      && Ingest(Json(Encode(a))) == Accepted(a.alertId, Some(Endpoints("192.168.1.10", "10.0.0.5")))
      && !PolicyEngine.Evaluate(a, policy).failed
      && PolicyEngine.CallsOf(PolicyEngine.Evaluate(a, policy).effects)
         == [PolicyEngine.RateLimit("RST", "100"), PolicyEngine.DropFrag("ipv4")]
  {
    var a := Alert("e7b3f13e-1234-45ab-b123-1234567890ab", "2025-07-05T12:34:56Z",
                   "192.168.1.10", "10.0.0.5", "TCP", Flags(true, false, false, true), 0.92, "DROP_FRAGMENT");
    var rules := [
      PolicyEngine.Rule(Some("RATE_LIMIT_FLAG"), Some("RST"), Some("100"), None),
      PolicyEngine.Rule(Some("DROP_FRAGMENT"), None, None, Some("ipv4"))];
    var policy := PolicyEngine.Policy(Some(rules));
    IngestEncoded(a);
    PolicyEngine.EvaluateWellFormed(a, policy);
    assert rules[1..] == [rules[1]];
    assert rules[1..][1..] == [];
  }
}
