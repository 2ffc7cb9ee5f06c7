/**
 * The online classifier's alert construction: register bitstrings decoded in
 * base 2 and summed per register into the RST/FIN/FRAG feature vector, the
 * alert built from that vector and the classifier's output, the send gate,
 * and the polling loop that posts each gated alert once.
 */
module OnlineClassifier {
  import opened Wrappers
  import opened Alerts

  /** The three registers read on every tick, in feature order. */
  const Registers: seq<string> := ["MyIngress.rst_count", "MyIngress.fin_count", "MyIngress.frag_count"]

  /** What one register read returns: a stream of responses, each a list of entity bitstrings. */
  type Readout = seq<seq<string>>

  // ---------------------------------------------------------------------------
  // Base-2 decoding of a register bitstring
  // ---------------------------------------------------------------------------

  predicate IsBit(c: char) { c == '0' || c == '1' }

  /** A string that base-2 parsing accepts: non-empty, binary digits only. */
  predicate IsBinary(s: string)
  {
    |s| > 0 && forall i :: 0 <= i < |s| ==> IsBit(s[i])
  }

  function BitValue(c: char): nat { if c == '1' then 1 else 0 }

  function BitChar(b: nat): char { if b == 1 then '1' else '0' }

  /** The base-2 value of a digit string, most significant digit first. */
  function BinaryValue(s: string): nat
    requires forall i :: 0 <= i < |s| ==> IsBit(s[i])
  {
    if s == [] then 0 else 2 * BinaryValue(s[..|s| - 1]) + BitValue(s[|s| - 1])
  }

  /**
   * Base-2 parsing: a value for a binary string, a failure (ValueError) for
   * anything else, the empty string included. The value is positive exactly
   * when some digit is a '1'.
   */
  function Decode(s: string): (r: Option<nat>)
    ensures r.Some? <==> |s| > 0 && forall i :: 0 <= i < |s| ==> s[i] == '0' || s[i] == '1'
    ensures r.Some? ==> (r.value > 0 <==> exists i :: 0 <= i < |s| && s[i] == '1')
  {
    if IsBinary(s) then BinaryValuePositive(s); Some(BinaryValue(s)) else None
  }

  /** The shortest base-2 rendering of a number: the inverse of decoding. */
  function ToBinary(n: nat): string
  {
    if n < 2 then [BitChar(n)] else ToBinary(n / 2) + [BitChar(n % 2)]
  }

  lemma {:induction false} DecodeToBinary(n: nat)
    ensures IsBinary(ToBinary(n))
    ensures Decode(ToBinary(n)) == Some(n)
  {
    var s := ToBinary(n);
    if n >= 2 {
      DecodeToBinary(n / 2);
      assert s[..|s| - 1] == ToBinary(n / 2);
      assert BitValue(s[|s| - 1]) == n % 2;
    } else {
      assert s == [BitChar(n)] && IsBit(s[0]);
      assert s[..0] == [];
      assert BitValue(s[0]) == n;
      assert BinaryValue(s) == 2 * BinaryValue(s[..0]) + BitValue(s[0]);
    }
  }

  /** A bitstring decodes to a positive value exactly when it holds a '1'. */
  lemma {:induction false} BinaryValuePositive(s: string)
    requires forall i :: 0 <= i < |s| ==> IsBit(s[i])
    ensures BinaryValue(s) > 0 <==> exists i :: 0 <= i < |s| && s[i] == '1'
  {
    if s != [] {
      var p := s[..|s| - 1];
      BinaryValuePositive(p);
      if exists i :: 0 <= i < |p| && p[i] == '1' {
        var i :| 0 <= i < |p| && p[i] == '1';
        assert s[i] == '1';
      }
      if exists i :: 0 <= i < |s| && s[i] == '1' {
        var i :| 0 <= i < |s| && s[i] == '1';
        if i < |p| { assert p[i] == '1'; }
      }
    }
  }

  // ---------------------------------------------------------------------------
  // Per-register totals
  // ---------------------------------------------------------------------------

  predicate EntitiesValid(es: seq<string>)
  {
    forall j :: 0 <= j < |es| ==> IsBinary(es[j])
  }

  predicate ReadoutValid(r: Readout)
  {
    forall i :: 0 <= i < |r| ==> EntitiesValid(r[i])
  }

  /** The sum of the decoded values of one response's entities. */
  function EntitySum(es: seq<string>): nat
    requires EntitiesValid(es)
  {
    if es == [] then 0 else EntitySum(es[..|es| - 1]) + BinaryValue(es[|es| - 1])
  }

  /** A register's feature: the sum over every entity of every response. */
  function RegisterTotal(r: Readout): nat
    requires ReadoutValid(r)
  {
    if r == [] then 0 else RegisterTotal(r[..|r| - 1]) + EntitySum(r[|r| - 1])
  }

  /** A total is positive exactly when some entity of some response decodes to a positive value. */
  lemma {:induction false} RegisterTotalPositive(r: Readout)
    requires ReadoutValid(r)
    ensures RegisterTotal(r) > 0 <==>
      exists i, j :: 0 <= i < |r| && 0 <= j < |r[i]| && BinaryValue(r[i][j]) > 0
  {
    if r != [] {
      var p := r[..|r| - 1];
      var last := r[|r| - 1];
      RegisterTotalPositive(p);
      EntitySumPositive(last);
      if exists i, j :: 0 <= i < |r| && 0 <= j < |r[i]| && BinaryValue(r[i][j]) > 0 {
        var i, j :| 0 <= i < |r| && 0 <= j < |r[i]| && BinaryValue(r[i][j]) > 0;
        if i < |p| { assert p[i][j] == r[i][j]; }
      }
      if exists i, j :: 0 <= i < |p| && 0 <= j < |p[i]| && BinaryValue(p[i][j]) > 0 {
        var i, j :| 0 <= i < |p| && 0 <= j < |p[i]| && BinaryValue(p[i][j]) > 0;
        assert r[i][j] == p[i][j];
      }
    }
  }

  lemma {:induction false} EntitySumPositive(es: seq<string>)
    requires EntitiesValid(es)
    ensures EntitySum(es) > 0 <==> exists j :: 0 <= j < |es| && BinaryValue(es[j]) > 0
  {
    if es != [] {
      var p := es[..|es| - 1];
      EntitySumPositive(p);
      if exists j :: 0 <= j < |p| && BinaryValue(p[j]) > 0 {
        var j :| 0 <= j < |p| && BinaryValue(p[j]) > 0;
        assert es[j] == p[j];
      }
    }
  }

  /** The feature vector as a value: None when some bitstring fails to parse. */
  function FeatureVector(readouts: seq<Readout>): Option<seq<nat>>
    requires |readouts| == |Registers|
  {
    if forall k :: 0 <= k < |readouts| ==> ReadoutValid(readouts[k])
    then Some(seq(|readouts|, k requires 0 <= k < |readouts| => RegisterTotal(readouts[k])))
    else None
  }

  /**
   * Reads the three registers in order and accumulates each register's total
   * entity by entity; the first bitstring that is not base-2 aborts the read.
   */
  method FlagFeatures(readouts: seq<Readout>) returns (features: Option<seq<nat>>)
    requires |readouts| == |Registers|
    ensures features == FeatureVector(readouts)
    ensures features.Some? <==> forall k :: 0 <= k < |readouts| ==> ReadoutValid(readouts[k])
    ensures features.Some? ==>
              |features.value| == 3 && forall k :: 0 <= k < 3 ==> features.value[k] == RegisterTotal(readouts[k])
  {
    var acc: seq<nat> := [];
    for k := 0 to |Registers|
      invariant |acc| == k
      invariant forall m :: 0 <= m < k ==> ReadoutValid(readouts[m]) && acc[m] == RegisterTotal(readouts[m])
    {
      var r := readouts[k];
      var total: nat := 0;
      for i := 0 to |r|
        invariant ReadoutValid(r[..i])
        invariant total == RegisterTotal(r[..i])
      {
        var es := r[i];
        for j := 0 to |es|
          invariant EntitiesValid(es[..j])
          invariant total == RegisterTotal(r[..i]) + EntitySum(es[..j])
        {
          var v := Decode(es[j]);
          if v.None? {
            assert !ReadoutValid(readouts[k]) by { assert !IsBinary(r[i][j]); }
            return None;
          }
          assert es[..j + 1][..j] == es[..j];
          total := total + v.value;
        }
        assert es[..|es|] == es;
        assert r[..i + 1][..i] == r[..i];
      }
      assert r[..|r|] == r;
      acc := acc + [total];
    }
    features := Some(acc);
    assert acc == FeatureVector(readouts).value;
  }

  // ---------------------------------------------------------------------------
  // Alert construction and the send gate
  // ---------------------------------------------------------------------------

  const RateLimitAction: string := "RATE_LIMIT"
  const NoAction: string := "NO_ACTION"
  const UnknownIp: string := "0.0.0.0"

  /**
   * The alert for a feature vector and a classifier output. The identifier and
   * the UTC timestamp (already carrying its "Z" suffix) are supplied by the caller.
   */
  function CreateAlert(features: seq<nat>, prediction: int, confidence: real,
                       alertId: string, timestamp: string): Alert
    requires |features| == 3
  {
    Alert(alertId, timestamp, UnknownIp, UnknownIp, "TCP",
          Flags(features[0] > 0, features[1] > 0, false, features[2] > 0),
          confidence,
          if prediction == 1 then RateLimitAction else NoAction)
  }

  /** The shape of every constructed alert: flags read off the features, SYN never set, fixed endpoints and protocol. */
  lemma CreateAlertFields(features: seq<nat>, prediction: int, confidence: real,
                          alertId: string, timestamp: string)
    requires |features| == 3
    ensures var a := CreateAlert(features, prediction, confidence, alertId, timestamp);
      && (a.flags.rst <==> features[0] > 0)
      && (a.flags.fin <==> features[1] > 0)
      && (a.flags.frag <==> features[2] > 0)
      && !a.flags.syn
      && (a.recommendedAction == "RATE_LIMIT" <==> prediction == 1)
      && (a.recommendedAction == "NO_ACTION" <==> prediction != 1)
      && a.confidence == confidence && a.alertId == alertId && a.timestamp == timestamp
      && a.sourceIp == "0.0.0.0" && a.destinationIp == "0.0.0.0" && a.protocol == "TCP"
  {
  }

  /** A flag of an alert built from register reads is set exactly when some entry of that register holds a '1' bit. */
  lemma FlagFromRegisters(readouts: seq<Readout>, k: nat, prediction: int, confidence: real,
                          alertId: string, timestamp: string)
    requires |readouts| == |Registers| && k < 3
    requires FeatureVector(readouts).Some?
    ensures var a := CreateAlert(FeatureVector(readouts).value, prediction, confidence, alertId, timestamp);
      var flag := if k == 0 then a.flags.rst else if k == 1 then a.flags.fin else a.flags.frag;
      flag <==> exists i, j, b :: 0 <= i < |readouts[k]| && 0 <= j < |readouts[k][i]|
                                  && 0 <= b < |readouts[k][i][j]| && readouts[k][i][j][b] == '1'
  {
    var r := readouts[k];
    assert ReadoutValid(r);
    RegisterTotalPositive(r);
    forall i, j | 0 <= i < |r| && 0 <= j < |r[i]|
      ensures BinaryValue(r[i][j]) > 0 <==> exists b :: 0 <= b < |r[i][j]| && r[i][j][b] == '1'
    {
      BinaryValuePositive(r[i][j]);
    }
  }

  /** The gate in front of alert construction: a malicious prediction with confidence above 0.85. */
  predicate ShouldSend(prediction: int, confidence: real)
  {
    confidence > 0.85 && prediction == 1
  }

  // ---------------------------------------------------------------------------
  // The polling loop
  // ---------------------------------------------------------------------------

  /**
   * One tick's inputs: the register reads, the classifier's output for them,
   * the identifier and timestamp an alert would get, and whether the HTTP post
   * would succeed.
   */
  datatype Tick = Tick(readouts: seq<Readout>, prediction: int, confidence: real,
                       alertId: string, timestamp: string, postSucceeds: bool)

  /** One post attempt and whether it reached the synchronisation endpoint. */
  datatype Post = Post(alert: Alert, delivered: bool)

  /** The posts of a run and whether it stopped on a register value that did not parse. */
  datatype Run = Run(posts: seq<Post>, crashed: bool)

  predicate TickWellFormed(t: Tick) { |t.readouts| == |Registers| }

  /** Two ticks that differ at most in whether their post succeeds. */
  predicate SameExceptPost(t: Tick, t': Tick)
  {
    t.readouts == t'.readouts && t.prediction == t'.prediction && t.confidence == t'.confidence
    && t.alertId == t'.alertId && t.timestamp == t'.timestamp
  }

  /** The post a tick makes, given its feature vector: at most one. */
  function TickPosts(t: Tick, features: seq<nat>): seq<Post>
    requires |features| == 3
  {
    if ShouldSend(t.prediction, t.confidence)
    then [Post(CreateAlert(features, t.prediction, t.confidence, t.alertId, t.timestamp), t.postSucceeds)]
    else []
  }

  /** The posts of a sequence of ticks. */
  function RunTicks(ticks: seq<Tick>): Run
    requires forall i :: 0 <= i < |ticks| ==> TickWellFormed(ticks[i])
  {
    if ticks == [] then Run([], false)
    else
      assert TickWellFormed(ticks[0]);
      match FeatureVector(ticks[0].readouts)
      case None => Run([], true)
      case Some(f) =>
        var rest := RunTicks(ticks[1..]);
        Run(TickPosts(ticks[0], f) + rest.posts, rest.crashed)
  }

  /** The run after the first i ticks, with the posts made so far put in front. */
  predicate RunFrom(ticks: seq<Tick>, i: nat, done: seq<Post>)
    requires forall i :: 0 <= i < |ticks| ==> TickWellFormed(ticks[i])
    requires i <= |ticks|
  {
    RunTicks(ticks) == Run(done + RunTicks(ticks[i..]).posts, RunTicks(ticks[i..]).crashed)
  }

  /** The first tick of a non-empty run, as the definition takes it. */
  lemma RunTicksCons(s: seq<Tick>)
    requires forall i :: 0 <= i < |s| ==> TickWellFormed(s[i])
    requires |s| > 0
    ensures TickWellFormed(s[0])
    ensures FeatureVector(s[0].readouts).None? ==> RunTicks(s) == Run([], true)
    ensures FeatureVector(s[0].readouts).Some? ==>
              RunTicks(s) == Run(TickPosts(s[0], FeatureVector(s[0].readouts).value) + RunTicks(s[1..]).posts,
                                 RunTicks(s[1..]).crashed)
  {
  }

  /** One tick of the run: an unparseable read ends it; otherwise the tick's posts join those made so far. */
  lemma RunTicksStep(ticks: seq<Tick>, i: nat, done: seq<Post>)
    requires forall i :: 0 <= i < |ticks| ==> TickWellFormed(ticks[i])
    requires i < |ticks| && RunFrom(ticks, i, done)
    ensures TickWellFormed(ticks[i])
    ensures FeatureVector(ticks[i].readouts).None? ==> RunTicks(ticks) == Run(done, true)
    ensures FeatureVector(ticks[i].readouts).Some? ==>
              RunFrom(ticks, i + 1, done + TickPosts(ticks[i], FeatureVector(ticks[i].readouts).value))
  {
    var s := ticks[i..];
    assert s[0] == ticks[i];
    assert s[1..] == ticks[i + 1..];
    RunTicksCons(s);
    if FeatureVector(ticks[i].readouts).Some? {
      var tp := TickPosts(ticks[i], FeatureVector(ticks[i].readouts).value);
      var rest := RunTicks(ticks[i + 1..]);
      assert done + (tp + rest.posts) == (done + tp) + rest.posts;
    }
  }

  /**
   * The classifier loop over a finite sequence of ticks: read features, gate,
   * build and post an alert. A failed post is only reported; a register value
   * that does not parse ends the loop.
   */
  method ClassifierLoop(ticks: seq<Tick>) returns (posts: seq<Post>, crashed: bool)
    requires forall i :: 0 <= i < |ticks| ==> TickWellFormed(ticks[i])
    ensures Run(posts, crashed) == RunTicks(ticks)
  {
    posts, crashed := [], false;
    var i := 0;
    assert ticks[0..] == ticks;
    while i < |ticks|
      invariant 0 <= i <= |ticks|
      invariant RunFrom(ticks, i, posts)
    {
      RunTicksStep(ticks, i, posts);
      var t := ticks[i];
      var features := FlagFeatures(t.readouts);
      if features.None? {
        crashed := true;
        return;
      }
      ghost var before := posts;
      if ShouldSend(t.prediction, t.confidence) {
        var alert := CreateAlert(features.value, t.prediction, t.confidence, t.alertId, t.timestamp);
        posts := posts + [Post(alert, t.postSucceeds)];
      }
      assert posts == before + TickPosts(t, features.value);
      i := i + 1;
    }
    assert ticks[i..] == [];
  }

  /** Every posted alert recommends rate limiting and carries confidence above 0.85. */
  lemma {:induction false} PostedAlertsPassGate(ticks: seq<Tick>)
    requires forall i :: 0 <= i < |ticks| ==> TickWellFormed(ticks[i])
    ensures forall p :: p in RunTicks(ticks).posts ==>
      p.alert.recommendedAction == "RATE_LIMIT" && p.alert.confidence > 0.85
  {
    if ticks != [] && FeatureVector(ticks[0].readouts).Some? {
      PostedAlertsPassGate(ticks[1..]);
    }
  }

  /** A run never makes more posts than it has ticks. */
  lemma {:induction false} AtMostOnePostPerTick(ticks: seq<Tick>)
    requires forall i :: 0 <= i < |ticks| ==> TickWellFormed(ticks[i])
    ensures |RunTicks(ticks).posts| <= |ticks|
  {
    if ticks != [] && FeatureVector(ticks[0].readouts).Some? {
      AtMostOnePostPerTick(ticks[1..]);
    }
  }

  function PostedAlerts(posts: seq<Post>): seq<Alert>
  {
    seq(|posts|, i requires 0 <= i < |posts| => posts[i].alert)
  }

  lemma PostedAlertsAppend(a: seq<Post>, b: seq<Post>)
    ensures PostedAlerts(a + b) == PostedAlerts(a) + PostedAlerts(b)
  {
    assert |PostedAlerts(a + b)| == |PostedAlerts(a) + PostedAlerts(b)|;
  }

  /** Whether posts succeed changes nothing about which alerts are posted or whether the loop goes on. */
  lemma {:induction false} PostFailuresChangeNothing(ticks: seq<Tick>, ticks': seq<Tick>)
    requires forall i :: 0 <= i < |ticks| ==> TickWellFormed(ticks[i])
    requires |ticks'| == |ticks|
    requires forall i :: 0 <= i < |ticks| ==> SameExceptPost(ticks[i], ticks'[i])
    ensures forall i :: 0 <= i < |ticks'| ==> TickWellFormed(ticks'[i])
    ensures PostedAlerts(RunTicks(ticks).posts) == PostedAlerts(RunTicks(ticks').posts)
    ensures RunTicks(ticks).crashed == RunTicks(ticks').crashed
  {
    assert forall i :: 0 <= i < |ticks'| ==> TickWellFormed(ticks'[i]) by {
      forall i | 0 <= i < |ticks'| ensures TickWellFormed(ticks'[i]) {
        assert SameExceptPost(ticks[i], ticks'[i]);
      }
    }
    if ticks != [] {
      assert SameExceptPost(ticks[0], ticks'[0]);
      if FeatureVector(ticks[0].readouts).Some? {
        PostFailuresChangeNothing(ticks[1..], ticks'[1..]);
        var f := FeatureVector(ticks[0].readouts).value;
        var a, a' := TickPosts(ticks[0], f), TickPosts(ticks'[0], f);
        var r, r' := RunTicks(ticks[1..]), RunTicks(ticks'[1..]);
        assert PostedAlerts(a) == PostedAlerts(a');
        PostedAlertsAppend(a, r.posts);
        PostedAlertsAppend(a', r'.posts);
      }
    }
  }
}
