/**
 * The Ryu controller: a registry of connected datapaths, the table-miss entry
 * installed when a switch connects, a priority-50000 drop entry sent to every
 * registered datapath for a risky alert, and the HTTP endpoint that decides.
 */
module RyuController {
  import opened Wrappers
  import opened Alerts
  import opened OpenFlow

  type DatapathId = nat

  /** A connected switch: its id and the connection object the framework handed over. */
  datatype Datapath = Datapath(id: DatapathId, connection: nat)

  const TableMissPriority: nat := 0
  const MitigationPriority: nat := 50000
  const MitigationIdleTimeout: nat := 600

  /** The table-miss entry: wildcard match, priority 0, whole packet to the controller, no timeouts. */
  function TableMissMod(): FlowMod
  {
    FlowMod(Add, TableMissPriority, Wildcard,
            [ApplyActions([Output(OFPP_CONTROLLER, OFPCML_NO_BUFFER)])], 0, 0)
  }

  /** The drop entry for one source/destination pair: IPv4 match, no actions, 600 s idle timeout. */
  function MitigationMod(src: string, dst: string): FlowMod
  {
    FlowMod(Add, MitigationPriority, Match(Some(ETH_TYPE_IPV4), Some(src), Some(dst)),
            [ApplyActions([])], MitigationIdleTimeout, 0)
  }

  /** The flow-mods sent to a datapath so far. */
  function Log(sent: map<DatapathId, seq<FlowMod>>, id: DatapathId): seq<FlowMod>
  {
    if id in sent then sent[id] else []
  }

  class LsmaController {
    /** The datapath registry, keyed by datapath id. */
    var datapaths: map<DatapathId, Datapath>
    /** The flow-mods sent, per datapath, in order. */
    var sent: map<DatapathId, seq<FlowMod>>

    /** Every datapath is registered under its own id. */
    ghost predicate Valid()
      reads this
    {
      forall id :: id in datapaths ==> datapaths[id].id == id
    }

    constructor ()
      ensures Valid() && datapaths == map[] && sent == map[]
    {
      datapaths := map[];
      sent := map[];
    }

    /** Send one flow-mod carrying exactly the given priority, match, actions and timeouts. */
    method AddFlow(dp: Datapath, priority: nat, flowMatch: Match, actions: seq<Action>,
                   idleTimeout: nat, hardTimeout: nat)
      modifies this
      ensures datapaths == old(datapaths)
      ensures sent == old(sent)[dp.id := Log(old(sent), dp.id)
                       + [FlowMod(Add, priority, flowMatch, [ApplyActions(actions)], idleTimeout, hardTimeout)]]
    {
      var mod := FlowMod(Add, priority, flowMatch, [ApplyActions(actions)], idleTimeout, hardTimeout);
      sent := sent[dp.id := Log(sent, dp.id) + [mod]];
    }

    /** A switch connects: register it under its id (replacing an earlier one) and install the table-miss entry. */
    method SwitchFeaturesHandler(dp: Datapath)
      requires Valid()
      modifies this
      ensures Valid()
      ensures datapaths == old(datapaths)[dp.id := dp]
      ensures sent == old(sent)[dp.id := Log(old(sent), dp.id) + [TableMissMod()]]
    {
      datapaths := datapaths[dp.id := dp];
      AddFlow(dp, 0, Wildcard, [Output(OFPP_CONTROLLER, OFPCML_NO_BUFFER)], 0, 0);
    }

    /** Send the drop entry for (src, dst) to every registered datapath, once each, and to nothing else. */
    method InstallMitigationFlow(src: string, dst: string)
      requires Valid()
      modifies this
      ensures Valid() && datapaths == old(datapaths)
      ensures sent.Keys == old(sent).Keys + datapaths.Keys
      ensures forall id :: id in datapaths ==> sent[id] == Log(old(sent), id) + [MitigationMod(src, dst)]
      ensures forall id :: id in old(sent) && id !in datapaths ==> sent[id] == old(sent)[id]
    {
      var pending := datapaths.Keys;
      while pending != {}
        invariant pending <= datapaths.Keys && datapaths == old(datapaths) && Valid()
        invariant sent.Keys == old(sent).Keys + (datapaths.Keys - pending)
        invariant forall id :: id in datapaths && id !in pending ==>
                    sent[id] == Log(old(sent), id) + [MitigationMod(src, dst)]
        invariant forall id :: id in old(sent) && (id !in datapaths || id in pending) ==> sent[id] == old(sent)[id]
        decreases pending
      {
        var id :| id in pending;
        var dp := datapaths[id];
        AddFlow(dp, MitigationPriority, Match(Some(ETH_TYPE_IPV4), Some(src), Some(dst)), [],
                MitigationIdleTimeout, 0);
        pending := pending - {id};
      }
    }
  }

  // ---------------------------------------------------------------------------
  // The alert endpoint
  // ---------------------------------------------------------------------------

  /** Whether the handler's module has the name `Response` bound. */
  datatype Scope = Scope(responseBound: bool)

  /** The module as written: `Response` is used but never imported. */
  const AsWritten: Scope := Scope(false)
  /** The module with the response class imported. */
  const Intended: Scope := Scope(true)

  datatype Response = Response(status: nat, contentType: Option<string>, body: string)

  /** A handler either returns a response or lets an exception escape. */
  datatype HandlerResult = Responded(response: Response) | Raised(error: string)

  const NameErrorResponse: string := "NameError: name 'Response' is not defined"

  /** Constructing a response, which raises when the name is not bound. */
  function MakeResponse(scope: Scope, status: nat, contentType: Option<string>, body: string): HandlerResult
  {
    if scope.responseBound then Responded(Response(status, contentType, body)) else Raised(NameErrorResponse)
  }

  /** The JSON success body (escaping of the identifier is not modelled). */
  function ProcessedBody(alertId: string): string
  {
    "{\"result\": \"processed\", \"alert_id\": \"" + alertId + "\"}"
  }

  /**
   * The reply, following the handler's control flow: the success response is
   * built inside the guarded block, and any exception there (a rejected alert,
   * or a failure to build that response) leads to the 400 response built in
   * the exception handler, whose own failure escapes.
   */
  function Reply(scope: Scope, decision: Ingestion): HandlerResult
  {
    var tried :=
      if decision.Accepted?
      then MakeResponse(scope, 200, Some("application/json"), ProcessedBody(decision.alertId))
      else Raised("KeyError");
    if tried.Responded? then tried
    else MakeResponse(scope, 400, None, "Invalid alert JSON")
  }

  /**
   * As written, the handler returns no response for any body: a NameError
   * escapes it (what the web server then answers is outside this model), on
   * an accepted risky alert after its flows were sent.
   */
  lemma AsWrittenNeverResponds(body: Body)
    ensures Reply(AsWritten, Ingest(body)) == Raised(NameErrorResponse)
  {
  }

  /** With the import in place: 200 with the JSON body for an accepted alert, 400 for a rejected one. */
  lemma IntendedReplies(body: Body)
    ensures Reply(Intended, Ingest(body)).Responded?
    ensures Reply(Intended, Ingest(body)).response.status == 200 <==> Ingest(body).Accepted?
    ensures Reply(Intended, Ingest(body)).response.status == 400 <==> Ingest(body).Rejected?
    ensures Ingest(body).Accepted? ==>
      Reply(Intended, Ingest(body)).response == Response(200, Some("application/json"), ProcessedBody(Ingest(body).alertId))
  {
  }

  /** The REST endpoint, holding the controller application it installs flows through. */
  class AlertController {
    const app: LsmaController

    constructor (app: LsmaController)
      ensures this.app == app
    {
      this.app := app;
    }

    /**
     * Read the required fields; on a risky alert read both endpoints and send
     * the drop entry everywhere; then reply. A missing field sends nothing.
     * The scope says whether the response class is bound: AsWritten gives the
     * handler as it stands, Intended the handler with the import in place.
     */
    method ReceiveAlert(scope: Scope, body: Body) returns (result: HandlerResult)
      requires app.Valid()
      modifies app
      ensures app.Valid() && app.datapaths == old(app.datapaths)
      ensures result == Reply(scope, Ingest(body))
      ensures Ingest(body).Accepted? && Ingest(body).block.Some? ==>
        && app.sent.Keys == old(app.sent).Keys + app.datapaths.Keys
        && (forall id :: id in app.datapaths ==>
              app.sent[id] == Log(old(app.sent), id)
                              + [MitigationMod(Ingest(body).block.value.src, Ingest(body).block.value.dst)])
        && (forall id :: id in old(app.sent) && id !in app.datapaths ==> app.sent[id] == old(app.sent)[id])
      ensures !(Ingest(body).Accepted? && Ingest(body).block.Some?) ==> app.sent == old(app.sent)
    {
      if !body.Json? {
        assert Ingest(body) == Rejected;
        return MakeResponse(scope, 400, None, "Invalid alert JSON");
      }
      var d := body.doc;
      if d.alertId.None? || d.confidence.None? || d.flags.None? || d.flags.value.frag.None? || d.flags.value.rst.None? {
        assert Ingest(body) == Rejected;
        return MakeResponse(scope, 400, None, "Invalid alert JSON");
      }
      var alertId := d.alertId.value;
      var confidence := d.confidence.value;
      var frag := d.flags.value.frag.value;
      var rst := d.flags.value.rst.value;
      if confidence > 0.9 || frag || rst {
        if d.sourceIp.None? || d.destinationIp.None? {
          assert Ingest(body) == Rejected;
          return MakeResponse(scope, 400, None, "Invalid alert JSON");
        }
        assert Ingest(body) == Accepted(alertId, Some(Endpoints(d.sourceIp.value, d.destinationIp.value)));
        app.InstallMitigationFlow(d.sourceIp.value, d.destinationIp.value);
      } else {
        assert Ingest(body) == Accepted(alertId, None);
      }
      // Building the success response can itself raise; the handler then builds the 400 response.
      result := MakeResponse(scope, 200, Some("application/json"), ProcessedBody(alertId));
      if result.Raised? {
        result := MakeResponse(scope, 400, None, "Invalid alert JSON");
      }
    }
  }

  // ---------------------------------------------------------------------------
  // Flow-table consequences
  // ---------------------------------------------------------------------------

  /** The drop entry outranks the table-miss entry and never shares its key. */
  lemma MitigationOutranksTableMiss(src: string, dst: string)
    ensures MitigationMod(src, dst).priority > TableMissMod().priority
    ensures KeyOf(MitigationMod(src, dst)) != KeyOf(TableMissMod())
  {
  }

  /** Once a switch has its table-miss entry, any number of drop entries leave it as installed. */
  lemma {:induction false} TableMissPersists(prefix: seq<FlowMod>, drops: seq<FlowMod>)
    requires forall i :: 0 <= i < |drops| ==> drops[i].priority == MitigationPriority
    ensures var t := TableAfter(prefix + [TableMissMod()] + drops);
      KeyOf(TableMissMod()) in t && t[KeyOf(TableMissMod())] == EntryOf(TableMissMod())
  {
    var all := prefix + [TableMissMod()] + drops;
    if drops == [] {
      assert all[..|all| - 1] == prefix;
    } else {
      var init := drops[..|drops| - 1];
      assert all[..|all| - 1] == prefix + [TableMissMod()] + init;
      TableMissPersists(prefix, init);
      assert KeyOf(drops[|drops| - 1]) != KeyOf(TableMissMod());
    }
  }

  /** Two installs for the same pair leave each switch's table as one install does. */
  lemma RepeatedInstallIdempotent(log: seq<FlowMod>, src: string, dst: string)
    ensures TableAfter(log + [MitigationMod(src, dst)] + [MitigationMod(src, dst)])
         == TableAfter(log + [MitigationMod(src, dst)])
  {
    assert log + [MitigationMod(src, dst)] + [MitigationMod(src, dst)]
        == log + [MitigationMod(src, dst), MitigationMod(src, dst)];
    ReinstallIdempotent(log, MitigationMod(src, dst));
  }
}
