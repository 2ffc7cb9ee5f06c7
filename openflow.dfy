/**
 * The part of OpenFlow 1.3 the controller relies on: flow-mod messages with
 * the ADD command, and an abstract switch flow table keyed by match and
 * priority. Per section 6.4 of the OpenFlow Switch Specification 1.3, an ADD
 * whose match and priority equal those of an existing entry replaces it.
 */
module OpenFlow {
  import opened Wrappers

  /** The reserved port that sends a packet to the controller. */
  const OFPP_CONTROLLER: nat := 0xffff_fffd
  /** Max-length value asking the switch to send the whole packet, unbuffered. */
  const OFPCML_NO_BUFFER: nat := 0xffff
  const ETH_TYPE_IPV4: nat := 0x0800

  /** The match fields this controller uses; None is a wildcard. */
  datatype Match = Match(ethType: Option<nat>, ipv4Src: Option<string>, ipv4Dst: Option<string>)

  /** The all-wildcard match of the table-miss entry (section 5.4 of the OpenFlow Switch Specification 1.3). */
  const Wildcard: Match := Match(None, None, None)

  datatype Action = Output(port: nat, maxLen: nat)

  datatype Instruction = ApplyActions(actions: seq<Action>)

  /** The flow-mod command; Ryu's flow-mod defaults to ADD, the only one sent here. */
  datatype Command = Add

  datatype FlowMod = FlowMod(command: Command, priority: nat, flowMatch: Match,
                             instructions: seq<Instruction>, idleTimeout: nat, hardTimeout: nat)

  /** Flow entries are identified by their match and priority. */
  datatype FlowKey = FlowKey(flowMatch: Match, priority: nat)

  datatype FlowEntry = FlowEntry(instructions: seq<Instruction>, idleTimeout: nat, hardTimeout: nat)

  type FlowTable = map<FlowKey, FlowEntry>

  function KeyOf(m: FlowMod): FlowKey { FlowKey(m.flowMatch, m.priority) }

  function EntryOf(m: FlowMod): FlowEntry { FlowEntry(m.instructions, m.idleTimeout, m.hardTimeout) }

  /** The switch processing one ADD: the entry under the message's key is created or replaced, no other entry changes. */
  function Apply(t: FlowTable, m: FlowMod): (t': FlowTable)
    ensures t'.Keys == t.Keys + {KeyOf(m)}
    ensures t'[KeyOf(m)] == EntryOf(m)
    ensures forall k :: k in t && k != KeyOf(m) ==> t'[k] == t[k]
  {
    t[KeyOf(m) := EntryOf(m)]
  }

  /** The table left by a sequence of flow-mods sent to an empty table. */
  function TableAfter(mods: seq<FlowMod>): FlowTable
  {
    if mods == [] then map[] else Apply(TableAfter(mods[..|mods| - 1]), mods[|mods| - 1])
  }

  /** Sending the same ADD twice leaves the table as sending it once. */
  lemma ApplyIdempotent(t: FlowTable, m: FlowMod)
    ensures Apply(Apply(t, m), m) == Apply(t, m)
  {
  }

  lemma ReinstallIdempotent(log: seq<FlowMod>, m: FlowMod)
    ensures TableAfter(log + [m, m]) == TableAfter(log + [m])
  {
    assert (log + [m, m])[..|log| + 1] == log + [m];
    assert (log + [m])[..|log|] == log;
    ApplyIdempotent(TableAfter(log), m);
  }

  function KeysSent(mods: seq<FlowMod>): set<FlowKey>
  {
    set i | 0 <= i < |mods| :: KeyOf(mods[i])
  }

  /** The table holds exactly one entry per distinct (match, priority) among the messages sent. */
  lemma {:induction false} TableAfterKeys(mods: seq<FlowMod>)
    ensures TableAfter(mods).Keys == KeysSent(mods)
  {
    if mods != [] {
      var init, last := mods[..|mods| - 1], mods[|mods| - 1];
      TableAfterKeys(init);
      forall k | k in KeysSent(mods) ensures k in KeysSent(init) + {KeyOf(last)} {
        var i :| 0 <= i < |mods| && KeyOf(mods[i]) == k;
        if i < |init| { assert init[i] == mods[i]; }
      }
      forall k | k in KeysSent(init) ensures k in KeysSent(mods) {
        var i :| 0 <= i < |init| && KeyOf(init[i]) == k;
        assert mods[i] == init[i];
      }
    }
  }

  /** Each entry is the one carried by the last message sent under its key. */
  lemma {:induction false} LastWriteWins(mods: seq<FlowMod>, i: nat)
    requires i < |mods|
    requires forall j :: i < j < |mods| ==> KeyOf(mods[j]) != KeyOf(mods[i])
    ensures KeyOf(mods[i]) in TableAfter(mods) && TableAfter(mods)[KeyOf(mods[i])] == EntryOf(mods[i])
  {
    var init, last := mods[..|mods| - 1], mods[|mods| - 1];
    if i < |init| {
      assert init[i] == mods[i];
      forall j | i < j < |init| ensures KeyOf(init[j]) != KeyOf(init[i]) {
        assert init[j] == mods[j];
      }
      LastWriteWins(init, i);
    }
  }
}
