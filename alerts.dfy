/**
 * The alert record shared by every stage of the pipeline, the risk rule that
 * three different sites apply to it, and the decision both controllers take
 * when an alert arrives over HTTP.
 */
module Alerts {
  import opened Wrappers

  /** The fixed flag key set of an alert. */
  datatype Flags = Flags(rst: bool, fin: bool, syn: bool, frag: bool)

  /** An alert as the classifier builds it and the synchronisation module forwards it. */
  datatype Alert = Alert(
    alertId: string,
    timestamp: string,
    sourceIp: string,
    destinationIp: string,
    protocol: string,
    flags: Flags,
    confidence: real,
    recommendedAction: string)

  /** The confidence above which an alert is risky whatever its flags (a strict bound). */
  const RiskThreshold: real := 0.9

  /**
   * The risk rule: high confidence, or a fragmentation or reset signal.
   * The synchronisation module, the Ryu controller and the Java controller
   * all decide with this one predicate.
   */
  predicate HighRisk(confidence: real, frag: bool, rst: bool)
  {
    confidence > RiskThreshold || frag || rst
  }

  predicate IsRisky(a: Alert)
  {
    HighRisk(a.confidence, a.flags.frag, a.flags.rst)
  }

  lemma HighRiskCases(confidence: real, frag: bool, rst: bool)
    ensures frag || rst ==> HighRisk(confidence, frag, rst)
    ensures !frag && !rst ==> (HighRisk(confidence, frag, rst) <==> confidence > 0.9)
    ensures !HighRisk(0.9, false, false)
  {
  }

  // ---------------------------------------------------------------------------
  // The alert as a controller receives it: a JSON document whose fields may be
  // missing. A field is Some only when it is present with the type the
  // controller reads it as.
  // ---------------------------------------------------------------------------

  datatype FlagsDoc = FlagsDoc(frag: Option<bool>, rst: Option<bool>)

  datatype AlertDoc = AlertDoc(
    alertId: Option<string>,
    confidence: Option<real>,
    flags: Option<FlagsDoc>,
    sourceIp: Option<string>,
    destinationIp: Option<string>)

  /** A request body: empty, not parseable as a JSON object, or a parsed document. */
  datatype Body = Empty | Malformed | Json(doc: AlertDoc)

  /** The wire form of an alert: every field the controllers read is present. */
  function Encode(a: Alert): AlertDoc
  {
    AlertDoc(Some(a.alertId), Some(a.confidence),
             Some(FlagsDoc(Some(a.flags.frag), Some(a.flags.rst))),
             Some(a.sourceIp), Some(a.destinationIp))
  }

  datatype Endpoints = Endpoints(src: string, dst: string)

  /** What a controller does with an incoming body: reject it, or accept it and maybe block a pair of endpoints. */
  datatype Ingestion = Rejected | Accepted(alertId: string, block: Option<Endpoints>)

  /** The four lookups both controllers perform before deciding. */
  predicate HasRequiredFields(d: AlertDoc)
  {
    d.alertId.Some? && d.confidence.Some? && d.flags.Some?
    && d.flags.value.frag.Some? && d.flags.value.rst.Some?
  }

  /**
   * The ingest decision: a missing required field rejects; a risky alert then
   * needs both endpoints (looked up only in that case) and blocks them; any
   * other alert is accepted without mitigation.
   */
  function Ingest(body: Body): Ingestion
  {
    match body
    case Empty => Rejected
    case Malformed => Rejected
    case Json(d) =>
      if !HasRequiredFields(d) then Rejected
      else if HighRisk(d.confidence.value, d.flags.value.frag.value, d.flags.value.rst.value) then
        if d.sourceIp.Some? && d.destinationIp.Some?
        then Accepted(d.alertId.value, Some(Endpoints(d.sourceIp.value, d.destinationIp.value)))
        else Rejected
      else Accepted(d.alertId.value, None)
  }

  /** Rejection happens exactly for an empty or malformed body, a missing required field, or a risky alert without endpoints. */
  lemma IngestRejects(body: Body)
    ensures Ingest(body).Rejected? <==>
      (body.Empty? || body.Malformed? || !HasRequiredFields(body.doc)
       || (HighRisk(body.doc.confidence.value, body.doc.flags.value.frag.value, body.doc.flags.value.rst.value)
           && (body.doc.sourceIp.None? || body.doc.destinationIp.None?)))
  {
  }

  /** Mitigation is requested exactly for an accepted risky alert, and for its own endpoints. */
  lemma IngestBlocksIffRisky(body: Body)
    requires Ingest(body).Accepted?
    ensures body.Json? && HasRequiredFields(body.doc)
    ensures Ingest(body).alertId == body.doc.alertId.value
    ensures Ingest(body).block.Some? <==>
      HighRisk(body.doc.confidence.value, body.doc.flags.value.frag.value, body.doc.flags.value.rst.value)
    ensures Ingest(body).block.Some? ==>
      Ingest(body).block.value == Endpoints(body.doc.sourceIp.value, body.doc.destinationIp.value)
  {
  }

  /** A well-formed encoded alert is always accepted; it is blocked exactly when the risk rule holds. */
  lemma IngestEncoded(a: Alert)
    ensures Ingest(Json(Encode(a))) ==
      Accepted(a.alertId, if IsRisky(a) then Some(Endpoints(a.sourceIp, a.destinationIp)) else None)
  {
  }
}
