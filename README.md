# FLARE alert lifecycle, modelled in Dafny

This project models the alert lifecycle of the FLARE network-threat mitigation
loop.

- **Alert construction.** The online classifier decodes P4 register bitstrings in
  base 2 and sums them per register into the RST/FIN/FRAG feature vector. It
  builds an alert from that vector and the classifier's `(prediction, confidence)`,
  and posts the alert only when the prediction is malicious and the confidence
  is above 0.85.
- **Risk-tier routing.** The synchronisation module validates an alert. It then
  sends the alert, unchanged, on exactly one of two TLS channels: urgent
  (port 6001) when `confidence > 0.9 or FRAG or RST`, routine (port 6000) otherwise.
- **Policy evaluation.** The mitigation policy engine works in three fixed phases.
  First come the RST rate-limit rules, then the DROP_FRAGMENT rules, then a
  standing STATE_FLUSH. Each firing makes one actuator call and appends one receipt.
- **Ryu controller.** It keeps a registry of datapaths. When a switch connects,
  it installs the priority-0 table-miss entry. For a risky alert it sends one
  priority-50000 drop flow-mod to every registered datapath.
- **Java controller.** It applies the same risk rule and pushes one fixed-shape
  static-flow record per risky alert.

The risk rule is defined once (`Alerts.HighRisk`). The synchronisation module and
both controllers each spell the rule out in their own code. Their contracts tie
what they do to that one definition, and `Pipeline.RiskRuleAgreesAcrossSites`
shows that the three sites agree on every alert.

Modules, one per source file plus shared ones:

- `Wrappers` holds `Option`, for lookups that may find nothing.
- `Alerts` holds the alert record, the risk rule, the alert as a JSON document
  with optional fields, and the ingest decision both controllers take.
- `OnlineClassifier` models `controller/amcm_module/online_classifier.py`.
- `LsmaSync` models `scripts/lsma_sync.py`.
- `PolicyEngine` models `controller/atdm_module/mitigation_policy_engine.py`.
- `OpenFlow` holds the flow-mod message and an abstract switch flow table keyed by
  (match, priority). Under section 6.4 of the OpenFlow Switch Specification 1.3,
  an ADD with the same match and priority replaces the existing entry. The
  table-miss entry is the priority-0 wildcard entry of section 5.4.
- `RyuController` models `controller/lsma_controller.py`.
- `JavaController` models `controller/LSMAController.java`.
- `Pipeline` holds properties across components, and the concrete vectors from
  the demo loops and `scripts/Validation_example.py`.

Where the code changes state, the model does too:

- the Ryu registry and the per-datapath log of sent flow-mods are fields of a class;
- the actuator trace, the delivery log and the pushed-record trace are also fields;
- the loops of `get_flag_features`, `handle_alert` and `install_mitigation_flow`
  are `while`/`for` loops with invariants.

Each such method is proved against a specification function. The listed
properties are proved about that function.

Where the specification and the code differ, the model follows the code:

- A RATE_LIMIT_FLAG rule fires only when its flag is "RST" and the alert's RST
  flag is set. Other flag names never fire.
- The policy engine calls the actuators itself.
- Neither controller validates the alert against the schema.
- Neither controller keeps per-key flow bookkeeping. Idempotence is stated about
  the switch's own table under ADD replacement.
- The Java record's priority is "32768"; the Ryu flow-mod's priority is 50000.

## Model

| member | source | states |
|---|---|---|
| `Alerts.HighRiskCases` | scripts/lsma_sync.py:62 | FRAG or RST makes an alert risky whatever the confidence; without them it is risky iff confidence > 0.9; exactly 0.9 is not risky |
| `Alerts.Ingest` | controller/lsma_controller.py:82-95 | the decision both controllers take from a body; `IngestRejects` gives exactly when it rejects, `IngestBlocksIffRisky` what an acceptance carries, `IngestEncoded` that a complete alert is accepted |
| `Alerts.IngestRejects` | controller/lsma_controller.py:82-102 | a body is rejected iff it is empty or malformed, or lacks alert_id, classifier_confidence, flags.FRAG or flags.RST, or is risky and lacks source_ip or destination_ip |
| `Alerts.IngestBlocksIffRisky` | controller/lsma_controller.py:92-95 | an accepted body carries its own alert_id, and requests blocking iff the risk rule holds, for its own source and destination |
| `Alerts.IngestEncoded` | controller/LSMAController.java:37-51 | an alert with every field present is accepted, and its endpoints are blocked exactly when it is risky |
| `OnlineClassifier.Decode` | controller/amcm_module/online_classifier.py:50 | parsing succeeds iff the text is non-empty and all binary digits, so an empty or non-binary value is a ValueError; a parsed value is positive iff some digit is '1' |
| `OnlineClassifier.DecodeToBinary` | controller/amcm_module/online_classifier.py:50 | base-2 decoding inverts base-2 rendering: every number's binary form parses back to that number |
| `OnlineClassifier.BinaryValuePositive` | controller/amcm_module/online_classifier.py:50 | a bitstring decodes to a positive value iff it contains a '1' |
| `OnlineClassifier.RegisterTotalPositive` | controller/amcm_module/online_classifier.py:46-52 | a register's total is positive iff some entity of some response decodes to a positive value |
| `OnlineClassifier.FlagFeatures` | controller/amcm_module/online_classifier.py:39-53 | the result is absent iff some bitstring fails to parse; otherwise it has exactly 3 entries, RST, FIN, FRAG in order, each the sum over all that register's entries |
| `OnlineClassifier.CreateAlertFields` | controller/amcm_module/online_classifier.py:56-74 | RST/FIN/FRAG are set iff the matching feature is > 0; SYN is never set; RATE_LIMIT iff prediction == 1, else NO_ACTION; the confidence is passed through; the endpoints are 0.0.0.0 and the protocol is TCP |
| `OnlineClassifier.FlagFromRegisters` | controller/amcm_module/online_classifier.py:44-70 | an alert flag is set iff some entry of that flag's register holds a '1' bit |
| `OnlineClassifier.CreateAlert` | controller/amcm_module/online_classifier.py:56-74 | the alert record built from features and classifier output; every field is stated by `CreateAlertFields` and the flags are tied to register bits by `FlagFromRegisters` |
| `OnlineClassifier.ShouldSend` | controller/amcm_module/online_classifier.py:96 | the send gate, confidence > 0.85 and prediction 1; `PostedAlertsPassGate` proves every posted alert passed it |
| `OnlineClassifier.ClassifierLoop` | controller/amcm_module/online_classifier.py:88-106 | the loop's posts and its stop on an unparseable register value are exactly those of the tick-by-tick specification |
| `OnlineClassifier.PostedAlertsPassGate` | controller/amcm_module/online_classifier.py:96-101 | every posted alert recommends RATE_LIMIT and has confidence > 0.85 |
| `OnlineClassifier.AtMostOnePostPerTick` | controller/amcm_module/online_classifier.py:96-106 | a run makes no more posts than it has ticks |
| `OnlineClassifier.PostFailuresChangeNothing` | controller/amcm_module/online_classifier.py:100-106 | whether posts fail changes neither which alerts are posted nor whether the loop goes on |
| `LsmaSync.ChannelOf` | scripts/lsma_sync.py:24-32 | each tier's channel is one of the two fixed channel configurations |
| `LsmaSync.SecureSync.SendOverSecureChannel` | scripts/lsma_sync.py:37-52 | a send appends one delivery event with its channel and the alert |
| `LsmaSync.SecureSync.HandleAlert` | scripts/lsma_sync.py:55-69 | a rejected alert reports the failure and sends nothing; a valid one appends exactly one delivery, the one its tier dictates |
| `LsmaSync.Dispatch` | scripts/lsma_sync.py:55-69 | what handling one alert sends; `RoutesByRisk` and `InvalidNeverSent` give its channel and its rejection, `PayloadIsAlertAsReceived` its payload |
| `LsmaSync.RoutesByRisk` | scripts/lsma_sync.py:62-69 | a valid alert goes on the urgent channel iff confidence > 0.9 or FRAG or RST, and on the routine channel otherwise |
| `LsmaSync.ChannelsSeparate` | scripts/lsma_sync.py:24-32 | urgent uses port 6001, routine port 6000, and they share no certificate or key |
| `LsmaSync.ThresholdIsStrict` | scripts/lsma_sync.py:62-69 | confidence exactly 0.9 with FRAG and RST clear is routine |
| `LsmaSync.FlagsOverrideConfidence` | scripts/lsma_sync.py:62-64 | FRAG or RST routes urgent whatever the confidence |
| `LsmaSync.InvalidNeverSent` | scripts/lsma_sync.py:58 | an alert that fails validation is sent on neither channel |
| `LsmaSync.PayloadIsAlertAsReceived` | scripts/lsma_sync.py:46-69 | the payload written is the alert as received |
| `LsmaSync.SampleAlertIsUrgent` | scripts/lsma_sync.py:75-91 | the demo alert (RST set, confidence 0.95) routes urgent |
| `PolicyEngine.RunPhase` | controller/atdm_module/mitigation_policy_engine.py:36-46 | one phase's walk over the rules; `PhaseEffects` bounds what it emits, `FailureSticks` that a missing key ends it, `PhaseIsFiltered` that on well-formed rules it is the filter of matching rules |
| `PolicyEngine.Evaluate` | controller/atdm_module/mitigation_policy_engine.py:27-56 | everything handling one alert does; `EvaluateEffects` gives its order, guards and receipts, `FlushIffRequested` its flush, `EvaluateWellFormed` its exact calls on well-formed rules |
| `PolicyEngine.ActuatorLog.Apply` | controller/atdm_module/mitigation_policy_engine.py:38-50 | an actuator call appends exactly that call to the trace |
| `PolicyEngine.FailureSticks` | controller/atdm_module/mitigation_policy_engine.py:36-46 | a missing key ends the phase: once failed on a prefix, the whole phase has that outcome |
| `PolicyEngine.ApplyPhase` | controller/atdm_module/mitigation_policy_engine.py:36-46 | one phase's loop makes exactly the specified calls, in rule order, returns their receipts, and reports a missing key |
| `PolicyEngine.FlaggedPhase` | controller/atdm_module/mitigation_policy_engine.py:34-43 | a phase whose flag is clear does nothing and does not look up the policy list |
| `PolicyEngine.HandleAlert` | controller/atdm_module/mitigation_policy_engine.py:27-56 | the actuator trace grows by exactly the evaluation's calls; the receipts are returned unless a missing key raised |
| `PolicyEngine.NoMitigation` | controller/atdm_module/mitigation_policy_engine.py:34-56 | RST clear, FRAG clear and no STATE_FLUSH request give no call and the empty list |
| `PolicyEngine.PhaseEffects` | controller/atdm_module/mitigation_policy_engine.py:37-46 | the RST phase only emits rate limits for flag RST; the fragment phase only emits fragment drops; each receipt matches its call |
| `PolicyEngine.EvaluateEffects` | controller/atdm_module/mitigation_policy_engine.py:34-51 | rate limits come before fragment drops, which come before the flush; rate limits need RST and drops need FRAG; the flush is last, follows a STATE_FLUSH request and targets destination_ip; the i-th receipt belongs to the i-th call |
| `PolicyEngine.FlushIffRequested` | controller/atdm_module/mitigation_policy_engine.py:48-51 | when nothing raised, a flush happens iff recommended_action is STATE_FLUSH, whatever the rules |
| `PolicyEngine.FiredAppend` | controller/atdm_module/mitigation_policy_engine.py:36-46 | the matching rules' calls of a list extended by one rule are those of the list plus that rule's call if it matches |
| `PolicyEngine.PhaseIsFiltered` | controller/atdm_module/mitigation_policy_engine.py:36-46 | on a well-formed list a phase never raises, and makes exactly one call per matching rule, in list order |
| `PolicyEngine.EvaluateWellFormed` | controller/atdm_module/mitigation_policy_engine.py:34-51 | with well-formed rules the calls are RST rules (if RST), then DROP_FRAGMENT rules (if FRAG), then one flush (if requested); their count is the sum of those counts |
| `PolicyEngine.SingleRstRule` | controller/atdm_module/mitigation_policy_engine.py:34-39 | the rule {RATE_LIMIT_FLAG, RST, 100} gives one rate-limit call on an RST alert and none otherwise |
| `OpenFlow.Apply` | controller/lsma_controller.py:56-62 | an ADD creates or replaces the entry under its (match, priority) and changes no other entry |
| `OpenFlow.ApplyIdempotent` | controller/lsma_controller.py:56-62 | the same ADD applied twice leaves the table as applying it once |
| `OpenFlow.ReinstallIdempotent` | controller/lsma_controller.py:67-72 | a log ending in the same flow-mod twice yields the table of that log with it once |
| `OpenFlow.TableAfterKeys` | controller/lsma_controller.py:56-62 | the table has exactly one entry per distinct (match, priority) among the messages sent |
| `OpenFlow.LastWriteWins` | controller/lsma_controller.py:56-62 | each entry is the one carried by the last message sent under its key |
| `RyuController.LsmaController.constructor` | controller/lsma_controller.py:34 | the registry and the send logs start empty |
| `RyuController.LsmaController.AddFlow` | controller/lsma_controller.py:49-62 | exactly one ADD flow-mod is sent to that datapath, with exactly the given priority, match, actions and timeouts; the registry is unchanged |
| `RyuController.LsmaController.SwitchFeaturesHandler` | controller/lsma_controller.py:37-47 | the datapath is stored under its id, replacing any earlier one; exactly one table-miss flow-mod is sent to it: priority 0, wildcard match, output to controller unbuffered, timeouts 0 |
| `RyuController.LsmaController.InstallMitigationFlow` | controller/lsma_controller.py:64-72 | every registered datapath gets exactly one drop flow-mod (eth_type 0x0800, ipv4_src, ipv4_dst, no actions, priority 50000, idle 600, hard 0); no other log changes |
| `RyuController.Reply` | controller/lsma_controller.py:97-102 | the handler's reply as its try/except builds it; `AsWrittenNeverResponds` and `IntendedReplies` state it without and with the import |
| `RyuController.AsWrittenNeverResponds` | controller/lsma_controller.py:98-102 | as written, the handler returns no Response for any body: a NameError escapes it (what the web server then answers is not modelled) |
| `RyuController.IntendedReplies` | controller/lsma_controller.py:97-102 | with the import in place: 200 with the JSON body iff accepted, 400 "Invalid alert JSON" iff rejected |
| `RyuController.AlertController.ReceiveAlert` | controller/lsma_controller.py:81-102 | flows are sent to every registered datapath iff the body is accepted and risky, before any response is built; otherwise nothing is sent; the result is `Reply` for the given scope: as written a NameError escapes after the flows were sent, with the import in place the 200/400 reply |
| `RyuController.MitigationOutranksTableMiss` | controller/lsma_controller.py:47-71 | priority 50000 is strictly above 0, and the two entries never share a key |
| `RyuController.TableMissPersists` | controller/lsma_controller.py:47-72 | after the table-miss entry, any number of drop entries leave it exactly as installed |
| `RyuController.RepeatedInstallIdempotent` | controller/lsma_controller.py:67-72 | two installs for the same (src, dst) leave each switch's table as one install does |
| `JavaController.StaticFlow` | controller/LSMAController.java:68-76 | the record pushed for a pair of endpoints; `StaticFlowFields` gives its eight fields |
| `JavaController.ResponseFor` | controller/LSMAController.java:51-55 | the response for a decision; `ResponseCases` gives 200 with the alert id iff accepted and 400 iff rejected |
| `JavaController.StaticFlowFields` | controller/LSMAController.java:68-76 | the record has exactly the eight fields: fixed switch, name, priority "32768", eth_type "0x0800", active and drop action, and the alert's source and destination |
| `JavaController.LsmaController.PushFlow` | controller/FlowPusher.java:21-43 | a push appends the record to the trace and never fails the caller |
| `JavaController.LsmaController.InstallMitigationPolicy` | controller/LSMAController.java:59-79 | exactly one record, the fixed-shape one for (src, dst), is pushed |
| `JavaController.LsmaController.ReceiveAlert` | controller/LSMAController.java:35-57 | one record is pushed iff the body is accepted and risky, none otherwise; the response is the decision's response |
| `JavaController.ResponseCases` | controller/LSMAController.java:51-55 | 200 "Alert processed: " + alert_id iff accepted; 400 "Invalid JSON" iff rejected |
| `Pipeline.RiskRuleAgreesAcrossSites` | controller/LSMAController.java:47-49 | for a forwarded alert, both controllers accept it and block its endpoints exactly when the sync module routes it urgent |
| `Pipeline.PostedAlertsNeverFlush` | controller/amcm_module/online_classifier.py:96-97 | an alert the classifier posts never triggers a state flush, whatever the policy |
| `Pipeline.EndToEndRstExample` | controller/amcm_module/online_classifier.py:56-74 | features [3, 0, 0] with (1, 0.92) give a posted RST-only RATE_LIMIT alert, routed urgent, which one RST rule turns into one rate-limit call |
| `Pipeline.ValidationExample` | scripts/Validation_example.py:7-16 | the validation example alert routes urgent, is blocked by both controllers, and gets an RST rate limit and then a fragment drop with no flush |

## Findings

| source | as written | input that shows it | evidently intended | confidence | as-written member | corrected member |
|---|---|---|---|---|---|---|
| controller/lsma_controller.py:98-102 | `Response` is used but never imported (line 15 imports only `ControllerBase`, `WSGIApplication` and `route`). Both the success path and the exception handler raise NameError, after any flows were already sent. | any POST, e.g. an empty body or a valid risky alert | 200 with the JSON body for an accepted alert, 400 "Invalid alert JSON" otherwise | high (not executed) | `RyuController.AsWrittenNeverResponds` | `RyuController.IntendedReplies` |

## Left out

- The model does not cover the TLS context, the asyncio connection, drain and
  close of `send_over_secure_channel`. A send is an event tagged with its channel.
  A failed connection raises out of `handle_alert`, and that is not modelled.
- The jsonschema validation is not modelled, because the schema file
  `runtime/flare_alert.json` is not part of this model. Its verdict is an input
  of `LsmaSync.SecureSync.HandleAlert`.
- The scaler, `ensemble.predict` and `predict_proba` are floating-point ML. Each
  tick takes `(prediction, confidence)` as inputs.
- `uuid4` and `utcnow` are taken as per-tick inputs, as are the gRPC register
  reads and the success of the HTTP post.
- The 5-second sleep, KeyboardInterrupt, gRPC error handling and switch shutdown
  are not modelled. `OnlineClassifier.ClassifierLoop` covers a finite sequence of ticks.
- `OnlineClassifier.Decode`: Python's `int(s, 2)` also accepts surrounding
  whitespace, a sign, a "0b" prefix and underscores. The model treats those forms
  as parse failures. The model also does not cover what byte encoding the switch
  uses for a register value; it takes the bitstring as binary-digit text, as the
  code parses it.
- The feature vector is `seq<nat>`. The numpy 1×3 array and its dtype are not modelled.
- Confidence is a `real`. Rounding of the 0.85 and 0.9 literals and of JSON
  numbers to binary doubles is not modelled.
- JSON typing is simplified. A field is either present with the type read or
  absent. The model does not cover Python truthiness of non-boolean flags,
  Python comparing booleans as numbers, or org.json coercing numeric and
  "true"/"false" strings. It also does not cover Python accepting a non-string
  alert_id where Java rejects one.
- `json.dumps` escaping of the alert id in the Ryu success body is not modelled.
- `PolicyEngine.HandleAlert` takes a complete alert. Missing `flags`, `RST`,
  `FRAG`, `recommended_action` or `destination_ip` keys in the alert are not
  modelled. Missing keys in the policy document are modelled.
- Rate and fragment-type values are carried as the text they print as.
- `load_policy`, the YAML file and the demo loop of the policy engine are not
  modelled. The actuator modules are only recorded calls.
- Ryu's WSGI and event registration, JAX-RS annotations, logging and the Java
  `ping` endpoint are not modelled.
- Python dict iteration order in `install_mitigation_flow` is not modelled. The
  loop takes the datapaths in any order, and the per-datapath outcome does not
  depend on it.
- The datapath object is an id plus an opaque connection number. `send_msg`
  failures, OpenFlow error replies, entry expiry by timeout, and commands other
  than ADD are not modelled.
- `FlowPusher.pushFlow` is a recorded call. Its HTTP POST is not modelled, and it
  swallows every error.
- `scripts/p4runtime_controller.py` (pipeline install and register printing) and
  `controller/amcm_module/ensemble_trainer.py` (model training) are not part of
  this model.
