/**
 * The Java (Floodlight/Beacon) controller endpoint: the same ingest decision
 * as the Ryu controller, and for a risky alert one static-flow record pushed
 * to the flow pusher.
 */
module JavaController {
  import opened Wrappers
  import opened Alerts

  /** A static-flow record as the JSON object's string fields. */
  type FlowRecord = map<string, string>

  const FlowFields: set<string> :=
    {"switch", "name", "priority", "eth_type", "ipv4_src", "ipv4_dst", "active", "actions"}

  datatype Response = Response(status: nat, entity: string)

  /** The response for a decision: 200 naming the alert, or 400. */
  function ResponseFor(decision: Ingestion): Response
  {
    match decision
    case Accepted(alertId, _) => Response(200, "Alert processed: " + alertId)
    case Rejected => Response(400, "Invalid JSON")
  }

  /** The record pushed for a pair of endpoints. */
  function StaticFlow(src: string, dst: string): FlowRecord
  {
    map["switch" := "00:00:00:00:00:00:00:01", "name" := "block_bad_traffic",
        "priority" := "32768", "eth_type" := "0x0800",
        "ipv4_src" := src, "ipv4_dst" := dst,
        "active" := "true", "actions" := "drop"]
  }

  /** The pushed record has exactly the eight fields, each with its fixed value or the alert's endpoint. */
  lemma StaticFlowFields(src: string, dst: string)
    ensures StaticFlow(src, dst).Keys == FlowFields
    ensures StaticFlow(src, dst)["switch"] == "00:00:00:00:00:00:00:01"
    ensures StaticFlow(src, dst)["name"] == "block_bad_traffic"
    ensures StaticFlow(src, dst)["priority"] == "32768" && StaticFlow(src, dst)["eth_type"] == "0x0800"
    ensures StaticFlow(src, dst)["ipv4_src"] == src && StaticFlow(src, dst)["ipv4_dst"] == dst
    ensures StaticFlow(src, dst)["active"] == "true" && StaticFlow(src, dst)["actions"] == "drop"
  {
  }

  class LsmaController {
    /** The records handed to the flow pusher, in order; its errors are swallowed, so a push is only recorded. */
    var pushed: seq<FlowRecord>

    constructor ()
      ensures pushed == []
    {
      pushed := [];
    }

    method PushFlow(flow: FlowRecord)
      modifies this
      ensures pushed == old(pushed) + [flow]
    {
      pushed := pushed + [flow];
    }

    /** Build the record field by field, then push it once. */
    method InstallMitigationPolicy(src: string, dst: string)
      modifies this
      ensures pushed == old(pushed) + [StaticFlow(src, dst)]
    {
      var flow: FlowRecord := map[];
      flow := flow["switch" := "00:00:00:00:00:00:00:01"];
      flow := flow["name" := "block_bad_traffic"];
      flow := flow["priority" := "32768"];
      flow := flow["eth_type" := "0x0800"];
      flow := flow["ipv4_src" := src];
      flow := flow["ipv4_dst" := dst];
      flow := flow["active" := "true"];
      flow := flow["actions" := "drop"];
      PushFlow(flow);
    }

    /**
     * Read the required fields; on a risky alert read both endpoints and push
     * one record; a missing field pushes nothing and answers 400.
     */
    method ReceiveAlert(body: Body) returns (response: Response)
      modifies this
      ensures response == ResponseFor(Ingest(body))
      ensures pushed == old(pushed) +
        (if Ingest(body).Accepted? && Ingest(body).block.Some?
         then [StaticFlow(Ingest(body).block.value.src, Ingest(body).block.value.dst)]
         else [])
    {
      if !body.Json? {
        return Response(400, "Invalid JSON");
      }
      var d := body.doc;
      if d.alertId.None? || d.confidence.None? || d.flags.None? || d.flags.value.frag.None? || d.flags.value.rst.None? {
        return Response(400, "Invalid JSON");
      }
      var alertId := d.alertId.value;
      if d.confidence.value > 0.9 || d.flags.value.frag.value || d.flags.value.rst.value {
        if d.sourceIp.None? || d.destinationIp.None? {
          return Response(400, "Invalid JSON");
        }
        InstallMitigationPolicy(d.sourceIp.value, d.destinationIp.value);
      }
      response := Response(200, "Alert processed: " + alertId);
    }
  }

  /** 200 exactly for an accepted alert, with the alert's id in the entity; 400 "Invalid JSON" otherwise. */
  lemma ResponseCases(body: Body)
    ensures ResponseFor(Ingest(body)).status == 200 <==> Ingest(body).Accepted?
    ensures ResponseFor(Ingest(body)).status == 400 <==> Ingest(body).Rejected?
    ensures Ingest(body).Accepted? ==>
      ResponseFor(Ingest(body)).entity == "Alert processed: " + body.doc.alertId.value
    ensures Ingest(body).Rejected? ==> ResponseFor(Ingest(body)).entity == "Invalid JSON"
  {
  }
}
