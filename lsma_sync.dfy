/**
 * The synchronisation module: an alert that passes schema validation is sent,
 * unchanged, on exactly one of two mutually authenticated channels, the urgent
 * one when the risk rule holds and the routine one otherwise.
 */
module LsmaSync {
  import opened Wrappers
  import opened Alerts

  /** A secure channel: the peer's address and the client certificate and key for it. */
  datatype Channel = Channel(host: string, port: nat, cert: string, key: string)

  const RoutineChannel: Channel :=
    Channel("127.0.0.100", 6000, "certs/routine_cert.pem", "certs/routine_key.pem")
  const UrgentChannel: Channel :=
    Channel("127.0.0.100", 6001, "certs/urgent_cert.pem", "certs/urgent_key.pem")

  datatype Tier = Urgent | Routine

  function TierOf(a: Alert): Tier
  {
    if IsRisky(a) then Urgent else Routine
  }

  function ChannelOf(t: Tier): (c: Channel)
    ensures c == UrgentChannel || c == RoutineChannel
  {
    match t
    case Urgent => UrgentChannel
    case Routine => RoutineChannel
  }

  /** One send: the channel used and the alert written on it. */
  datatype Delivery = Delivery(channel: Channel, payload: Alert)

  /**
   * What handling an alert sends: nothing when the schema rejects it (the
   * validation error escapes before any routing), otherwise one delivery.
   */
  function Dispatch(a: Alert, schemaValid: bool): Option<Delivery>
  {
    if schemaValid then Some(Delivery(ChannelOf(TierOf(a)), a)) else None
  }

  /** The deliveries made so far, in order. */
  class SecureSync {
    var deliveries: seq<Delivery>

    constructor ()
      ensures deliveries == []
    {
      deliveries := [];
    }

    /** Send one alert on a channel: recorded as an event, the transport itself is not modelled. */
    method SendOverSecureChannel(c: Channel, a: Alert)
      modifies this
      ensures deliveries == old(deliveries) + [Delivery(c, a)]
    {
      deliveries := deliveries + [Delivery(c, a)];
    }

    /**
     * Validate, then route: returns false (the validation error) and sends
     * nothing for a rejected alert; otherwise sends it on the channel of its tier.
     */
    method HandleAlert(a: Alert, schemaValid: bool) returns (ok: bool)
      modifies this
      ensures ok == schemaValid
      ensures deliveries == old(deliveries) + (if schemaValid then [Dispatch(a, schemaValid).value] else [])
    {
      if !schemaValid {
        return false;
      }
      var highRisk := a.confidence > 0.9 || a.flags.frag || a.flags.rst;
      if highRisk {
        SendOverSecureChannel(UrgentChannel, a);
      } else {
        SendOverSecureChannel(RoutineChannel, a);
      }
      ok := true;
    }
  }

  /** A valid alert goes to the urgent channel exactly when the risk rule holds, and to the routine one otherwise. */
  lemma RoutesByRisk(a: Alert)
    ensures Dispatch(a, true).Some?
    ensures Dispatch(a, true).value.channel == UrgentChannel <==>
      (a.confidence > 0.9 || a.flags.frag || a.flags.rst)
    ensures Dispatch(a, true).value.channel == RoutineChannel <==>
      !(a.confidence > 0.9 || a.flags.frag || a.flags.rst)
  {
  }

  /** The two tiers never share a port, a certificate or a key. */
  lemma ChannelsSeparate()
    ensures UrgentChannel.port == 6001 && RoutineChannel.port == 6000
    ensures UrgentChannel.cert != RoutineChannel.cert && UrgentChannel.key != RoutineChannel.key
  {
  }

  /** The threshold is strict: confidence exactly 0.9 without FRAG or RST is routine. */
  lemma ThresholdIsStrict(a: Alert)
    requires a.confidence == 0.9 && !a.flags.frag && !a.flags.rst
    ensures Dispatch(a, true) == Some(Delivery(RoutineChannel, a))
  {
  }

  /** A fragmentation or reset signal is urgent whatever the confidence. */
  lemma FlagsOverrideConfidence(a: Alert)
    requires a.flags.frag || a.flags.rst
    ensures Dispatch(a, true) == Some(Delivery(UrgentChannel, a))
  {
  }

  /** An alert that fails validation is sent on neither channel. */
  lemma InvalidNeverSent(a: Alert)
    ensures Dispatch(a, false) == None
  {
  }

  /** What is written is the alert as received. */
  lemma PayloadIsAlertAsReceived(a: Alert)
    ensures Dispatch(a, true).Some? && Dispatch(a, true).value.payload == a
  {
  }

  /** The sample alert of the module's own demo loop (RST set, confidence 0.95) is urgent. */
  lemma SampleAlertIsUrgent(alertId: string, timestamp: string)
    ensures var a := Alert(alertId, timestamp, "192.168.1.101", "10.0.0.5", "TCP",
                           Flags(true, false, false, false), 0.95, "RATE_LIMIT");
      Dispatch(a, true) == Some(Delivery(UrgentChannel, a))
  {
  }
}
