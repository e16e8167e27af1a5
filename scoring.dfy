/**
 * The scoring and result engine: normalising the raw pain counters,
 * choosing the bottleneck zone with a priority tie-break, resolving the
 * zone the user believes is the problem, and deciding between a "twist"
 * and a "confirmation" result.
 */
module Scoring {
  import opened Wrappers
  import opened Zones

  /** One session's answers as the engine reads them. */
  datatype AnswersState = AnswersState(
    scores: ZoneDict<int>,             // raw pain counter per zone
    perceivedZone: Option<Zone>,       // the zone the user says is the problem
    complaintBest: Option<(Zone, int)> // the most intense complaint seen: (zone, level)
  )

  /** The record a new session starts from: every zone at 0, in the order product, traffic, content, sales, system. */
  function FreshAnswers(): (a: AnswersState)
    ensures IsDict(a.scores) && Keys(a.scores) == [Product, Traffic, Content, Sales, System]
    ensures forall i :: 0 <= i < |a.scores| ==> a.scores[i].1 == 0
    ensures a.perceivedZone == None && a.complaintBest == None
  {
    AnswersState([(Product, 0), (Traffic, 0), (Content, 0), (Sales, 0), (System, 0)], None, None)
  }

  /** The configuration tables scoring consults: ZONE_MAX, ZONE_PRIORITY and TWIST_THRESHOLD. */
  datatype ScoringConfig = ScoringConfig(zoneMax: map<Zone, int>, priority: seq<Zone>, twistThreshold: real)

  /** Every zone that has a score has a positive configured maximum (otherwise the division fails). */
  predicate MaxConfigured(zoneMax: map<Zone, int>, scores: ZoneDict<int>) {
    forall i :: 0 <= i < |scores| ==> scores[i].0 in zoneMax && zoneMax[scores[i].0] > 0
  }

  /** Every raw score lies between 0 and its zone's configured maximum. */
  predicate WithinMax(zoneMax: map<Zone, int>, scores: ZoneDict<int>) {
    forall i :: 0 <= i < |scores| ==> scores[i].0 in zoneMax && 0 <= scores[i].1 <= zoneMax[scores[i].0]
  }

  /** `normalize_scores`: each zone's raw counter divided by that zone's maximum, zones kept in order. */
  function NormalizeScores(scores: ZoneDict<int>, zoneMax: map<Zone, int>): (norm: ZoneDict<real>)
    requires MaxConfigured(zoneMax, scores)
    ensures Keys(norm) == Keys(scores)
    ensures IsDict(scores) ==> IsDict(norm)
  {
    var norm := seq(|scores|, i requires 0 <= i < |scores| =>
      (scores[i].0, scores[i].1 as real / zoneMax[scores[i].0] as real));
    assert Keys(norm) == Keys(scores);
    norm
  }

  /** Looking a zone up in the normalised scores gives its raw score over its maximum. */
  lemma NormalizeLookup(scores: ZoneDict<int>, zoneMax: map<Zone, int>, z: Zone)
    requires IsDict(scores) && MaxConfigured(zoneMax, scores) && HasKey(scores, z)
    ensures var norm := NormalizeScores(scores, zoneMax);
      && z in zoneMax && HasKey(norm, z)
      && Get(norm, z) == Get(scores, z) as real / zoneMax[z] as real
  {
    var norm := NormalizeScores(scores, zoneMax);
    var i := IndexOf(scores, z);
    GetAt(scores, i);
    GetAt(norm, i);
  }

  lemma RatioInUnitInterval(a: int, b: int)
    requires 0 <= a <= b && 0 < b
    ensures 0.0 <= a as real / b as real <= 1.0
  {
    assert (a as real / b as real) * b as real == a as real;
  }

  /** When every raw score is within its maximum, every normalised score is in [0, 1]. */
  lemma NormalizedInUnitInterval(scores: ZoneDict<int>, zoneMax: map<Zone, int>)
    requires MaxConfigured(zoneMax, scores) && WithinMax(zoneMax, scores)
    ensures var norm := NormalizeScores(scores, zoneMax);
      forall i :: 0 <= i < |norm| ==> 0.0 <= norm[i].1 <= 1.0
  {
    var norm := NormalizeScores(scores, zoneMax);
    forall i | 0 <= i < |norm|
      ensures 0.0 <= norm[i].1 <= 1.0
    {
      RatioInUnitInterval(scores[i].1, zoneMax[scores[i].0]);
    }
  }

  /** Python's `max(values)`. */
  function MaxOf(vs: seq<real>): (m: real)
    requires |vs| > 0
    ensures m in vs
    ensures forall v :: v in vs ==> v <= m
  {
    if |vs| == 1 then vs[0]
    else
      var rest := MaxOf(vs[1..]);
      assert forall v :: v in vs ==> v == vs[0] || v in vs[1..];
      if vs[0] >= rest then vs[0] else rest
  }

  /** `[zone for zone, score in norm.items() if score == m]`, in dictionary order. */
  function Tied(norm: ZoneDict<real>, m: real): (tied: seq<Zone>)
    ensures forall z :: z in tied <==> exists i :: 0 <= i < |norm| && norm[i] == (z, m)
    ensures |tied| > 0 ==>
      exists i :: 0 <= i < |norm| && norm[i] == (tied[0], m) && forall j :: 0 <= j < i ==> norm[j].1 != m
  {
    if |norm| == 0 then []
    else
      var rest := Tied(norm[1..], m);
      assert forall i :: 0 <= i < |norm| - 1 ==> norm[1..][i] == norm[i + 1];
      if norm[0].1 == m then [norm[0].0] + rest else rest
  }

  /** Position of the first zone of `priority` that is in `tied`, or `|priority|` when there is none. */
  function FirstListed(priority: seq<Zone>, tied: seq<Zone>): (k: nat)
    ensures k <= |priority|
    ensures k < |priority| ==> priority[k] in tied
    ensures forall j :: 0 <= j < k ==> priority[j] !in tied
  {
    if |priority| == 0 then 0
    else if priority[0] in tied then 0
    else FirstListed(priority[1..], tied) + 1
  }

  /**
   * The zone `pick_max_zone` returns: among the zones with the largest
   * value, the first one listed in `priority`, else the first in dictionary
   * order. None stands for the error `max()` raises on an empty dictionary.
   */
  function MaxZone(norm: ZoneDict<real>, priority: seq<Zone>): (r: Option<Zone>)
    ensures r.None? <==> |norm| == 0
    ensures r.Some? ==> HasKey(norm, r.value)
  {
    if |norm| == 0 then None
    else
      var m := MaxOf(Values(norm));
      var tied := Tied(norm, m);
      assert tied != [] by {
        var i :| 0 <= i < |norm| && Values(norm)[i] == m;
        assert norm[i] == (norm[i].0, m);
      }
      var k := FirstListed(priority, tied);
      var z := if k < |priority| then priority[k] else tied[0];
      assert HasKey(norm, z) by {
        var i :| 0 <= i < |norm| && norm[i] == (z, m);
        assert Keys(norm)[i] == z;
      }
      Some(z)
  }

  /** `z` holds a score at least as large as every other zone's. */
  predicate IsTop(norm: ZoneDict<real>, z: Zone) {
    HasKey(norm, z) && forall i :: 0 <= i < |norm| ==> norm[i].1 <= Get(norm, z)
  }

  /** `z` is the earliest top-scoring zone in `priority`. */
  ghost predicate EarliestListedTop(norm: ZoneDict<real>, priority: seq<Zone>, z: Zone) {
    exists k :: 0 <= k < |priority| && priority[k] == z && forall j :: 0 <= j < k ==> !IsTop(norm, priority[j])
  }

  /** The bottleneck the tie-break rule designates, stated without reference to how it is computed. */
  ghost predicate PriorityWinner(norm: ZoneDict<real>, priority: seq<Zone>, z: Zone) {
    && IsTop(norm, z)
    && if exists k :: 0 <= k < |priority| && IsTop(norm, priority[k])
       then EarliestListedTop(norm, priority, z)
       else forall j :: 0 <= j < IndexOf(norm, z) ==> !IsTop(norm, norm[j].0)
  }

  /** Every score is at most the maximum of the scores. */
  lemma {:induction false} ScoresBelowMax(norm: ZoneDict<real>)
    requires |norm| > 0
    ensures forall i :: 0 <= i < |norm| ==> norm[i].1 <= MaxOf(Values(norm))
  {
    forall i | 0 <= i < |norm| ensures norm[i].1 <= MaxOf(Values(norm)) {
      assert Values(norm)[i] in Values(norm);
    }
  }

  /** In a non-empty dictionary the tied zones are exactly the top-scoring ones. */
  lemma {:induction false} TiedAreTop(norm: ZoneDict<real>, z: Zone)
    requires IsDict(norm) && |norm| > 0
    ensures z in Tied(norm, MaxOf(Values(norm))) <==> IsTop(norm, z)
  {
    ScoresBelowMax(norm);
    if z in Tied(norm, MaxOf(Values(norm))) {
      TiedIsTop(norm, z);
    }
    if IsTop(norm, z) {
      TopIsTied(norm, z);
    }
  }

  lemma {:induction false} TiedIsTop(norm: ZoneDict<real>, z: Zone)
    requires IsDict(norm) && |norm| > 0
    requires forall i :: 0 <= i < |norm| ==> norm[i].1 <= MaxOf(Values(norm))
    requires z in Tied(norm, MaxOf(Values(norm)))
    ensures IsTop(norm, z)
  {
    var m := MaxOf(Values(norm));
    var i :| 0 <= i < |norm| && norm[i] == (z, m);
    GetAt(norm, i);
  }

  lemma {:induction false} TopIsTied(norm: ZoneDict<real>, z: Zone)
    requires IsDict(norm) && |norm| > 0
    requires forall i :: 0 <= i < |norm| ==> norm[i].1 <= MaxOf(Values(norm))
    requires IsTop(norm, z)
    ensures z in Tied(norm, MaxOf(Values(norm)))
  {
    var m := MaxOf(Values(norm));
    var i :| 0 <= i < |norm| && Values(norm)[i] == m;
    var iz := IndexOf(norm, z);
    assert norm[i].1 <= Get(norm, z);
    assert norm[iz] == (z, m);
  }

  /** `MaxZone` picks the zone the tie-break rule designates, and no other zone is designated. */
  lemma {:induction false} MaxZoneCharacterized(norm: ZoneDict<real>, priority: seq<Zone>, z: Zone)
    requires IsDict(norm) && |norm| > 0
    ensures MaxZone(norm, priority) == Some(z) <==> PriorityWinner(norm, priority, z)
  {
    var w := MaxZone(norm, priority).value;
    MaxZoneIsWinner(norm, priority);
    if PriorityWinner(norm, priority, z) {
      PriorityWinnerUnique(norm, priority, w, z);
    }
  }

  lemma MaxZoneIsWinner(norm: ZoneDict<real>, priority: seq<Zone>)
    requires IsDict(norm) && |norm| > 0
    ensures PriorityWinner(norm, priority, MaxZone(norm, priority).value)
  {
    var m := MaxOf(Values(norm));
    var tied := Tied(norm, m);
    var k := FirstListed(priority, tied);
    var w := MaxZone(norm, priority).value;
    forall y ensures y in tied <==> IsTop(norm, y) {
      TiedAreTop(norm, y);
    }
    if k < |priority| {
      assert w == priority[k];
      assert EarliestListedTop(norm, priority, w);
    } else {
      assert w == tied[0];
      var i :| 0 <= i < |norm| && norm[i] == (w, m) && forall j :: 0 <= j < i ==> norm[j].1 != m;
      GetAt(norm, i);
      forall j | 0 <= j < i ensures !IsTop(norm, norm[j].0) {
        GetAt(norm, j);
      }
      assert !exists k' :: 0 <= k' < |priority| && IsTop(norm, priority[k']);
    }
  }

  lemma PriorityWinnerUnique(norm: ZoneDict<real>, priority: seq<Zone>, a: Zone, b: Zone)
    requires IsDict(norm)
    requires PriorityWinner(norm, priority, a) && PriorityWinner(norm, priority, b)
    ensures a == b
  {
    if exists k :: 0 <= k < |priority| && IsTop(norm, priority[k]) {
      var ka :| 0 <= ka < |priority| && priority[ka] == a && forall j :: 0 <= j < ka ==> !IsTop(norm, priority[j]);
      var kb :| 0 <= kb < |priority| && priority[kb] == b && forall j :: 0 <= j < kb ==> !IsTop(norm, priority[j]);
      assert ka == kb;
    } else {
      var ia, ib := IndexOf(norm, a), IndexOf(norm, b);
      assert ia == ib;
    }
  }

  /** When every zone scores the same, the bottleneck is the first zone of `priority`, provided it is scored. */
  lemma {:induction false} EqualScoresPickFirstListed(norm: ZoneDict<real>, priority: seq<Zone>)
    requires IsDict(norm) && |norm| > 0
    requires forall i :: 0 <= i < |norm| ==> norm[i].1 == norm[0].1
    requires |priority| > 0 && HasKey(norm, priority[0])
    ensures MaxZone(norm, priority) == Some(priority[0])
  {
    var z := priority[0];
    assert IsTop(norm, z) by {
      var iz := IndexOf(norm, z);
      assert Get(norm, z) == norm[0].1;
    }
    assert EarliestListedTop(norm, priority, z);
    MaxZoneCharacterized(norm, priority, z);
  }

  /**
   * `pick_max_zone`: the largest normalised score, the zones attaining it,
   * then a search of `priority` for the first of them, falling back to the
   * first tied zone. None when `norm` is empty.
   */
  method PickMaxZone(norm: ZoneDict<real>, priority: seq<Zone>) returns (r: Option<Zone>)
    ensures r == MaxZone(norm, priority)
  {
    if |norm| == 0 {
      return None;
    }
    var maxVal := MaxOf(Values(norm));
    var tied := Tied(norm, maxVal);
    var i := 0;
    while i < |priority|
      invariant 0 <= i <= |priority|
      invariant forall j :: 0 <= j < i ==> priority[j] !in tied
    {
      if priority[i] in tied {
        assert FirstListed(priority, tied) == i;
        return Some(priority[i]);
      }
      i := i + 1;
    }
    assert FirstListed(priority, tied) == |priority|;
    return Some(tied[0]);
  }

  /** `pick_perceived_fallback`: the zone of the strongest complaint, if one was recorded. */
  function PerceivedFallback(state: AnswersState): (r: Option<Zone>)
    ensures r.Some? <==> state.complaintBest.Some?
    ensures r.Some? ==> r.value == state.complaintBest.value.0
  {
    match state.complaintBest
    case Some(best) => Some(best.0)
    case None => None
  }

  /** The zone the user believes is the problem: the explicit answer, else the fallback. */
  function ResolvePerceived(state: AnswersState): Option<Zone> {
    if state.perceivedZone.Some? then state.perceivedZone else PerceivedFallback(state)
  }

  datatype DiagnosticResult = DiagnosticResult(
    bottleneck: Zone,              // the real bottleneck
    perceived: Option<Zone>,       // what the user believes
    twist: bool,                   // whether to present the result as a twist
    normScores: ZoneDict<real>,
    rawScores: ZoneDict<int>
  )

  /** The exceptions `compute_result` can raise on a session's data. */
  datatype ScoringError =
    | EmptyScores                 // `max()` of an empty sequence
    | PerceivedNotScored(zone: Zone) // `norm_scores[perceived]` on a missing key

  /** `compute_result`. */
  function ComputeResult(state: AnswersState, cfg: ScoringConfig): (r: Result<DiagnosticResult, ScoringError>)
    requires IsDict(state.scores) && MaxConfigured(cfg.zoneMax, state.scores)
    ensures r == Failure(EmptyScores) <==> |state.scores| == 0
    ensures r.Failure? && r.error.PerceivedNotScored? ==>
      ResolvePerceived(state) == Some(r.error.zone) && !HasKey(state.scores, r.error.zone)
    ensures |state.scores| > 0 && (ResolvePerceived(state).Some? ==> HasKey(state.scores, ResolvePerceived(state).value))
      ==> r.Success?
    ensures r.Success? ==> r.value.rawScores == state.scores && Keys(r.value.normScores) == Keys(state.scores)
    ensures r.Success? ==> IsTop(r.value.normScores, r.value.bottleneck)
    ensures r.Success? ==>
      r.value.perceived == (if state.perceivedZone.Some? then state.perceivedZone
                            else if state.complaintBest.Some? then Some(state.complaintBest.value.0)
                            else None)
  {
    if |state.scores| == 0 then Failure(EmptyScores)
    else
      var norm := NormalizeScores(state.scores, cfg.zoneMax);
      var bottleneck := MaxZone(norm, cfg.priority).value;
      MaxZoneIsWinner(norm, cfg.priority);
      var perceived := ResolvePerceived(state);
      assert forall z :: HasKey(norm, z) <==> HasKey(state.scores, z);
      if perceived.Some? && perceived.value != bottleneck && !HasKey(norm, perceived.value) then
        Failure(PerceivedNotScored(perceived.value))
      else
        var twist := perceived.Some? && perceived.value != bottleneck
          && Get(norm, bottleneck) - Get(norm, perceived.value) >= cfg.twistThreshold;
        Success(DiagnosticResult(bottleneck, perceived, twist, norm, state.scores))
  }

  /** The bottleneck is the top-scoring zone designated by the priority tie-break. */
  lemma BottleneckFollowsPriority(state: AnswersState, cfg: ScoringConfig)
    requires IsDict(state.scores) && MaxConfigured(cfg.zoneMax, state.scores)
    requires ComputeResult(state, cfg).Success?
    ensures var res := ComputeResult(state, cfg).value;
      res.normScores == NormalizeScores(state.scores, cfg.zoneMax)
      && PriorityWinner(res.normScores, cfg.priority, res.bottleneck)
  {
    var norm := NormalizeScores(state.scores, cfg.zoneMax);
    MaxZoneCharacterized(norm, cfg.priority, MaxZone(norm, cfg.priority).value);
  }

  /**
   * The twist rule: never without a perceived zone or when it equals the
   * bottleneck; otherwise exactly when the bottleneck's lead over the
   * perceived zone reaches the threshold (inclusive). That lead is never
   * negative.
   */
  lemma TwistDecision(state: AnswersState, cfg: ScoringConfig)
    requires IsDict(state.scores) && MaxConfigured(cfg.zoneMax, state.scores)
    requires ComputeResult(state, cfg).Success?
    ensures var res := ComputeResult(state, cfg).value;
      && (res.perceived.None? ==> !res.twist)
      && (res.perceived == Some(res.bottleneck) ==> !res.twist)
      && (res.perceived.Some? && res.perceived.value != res.bottleneck ==>
            && HasKey(res.normScores, res.perceived.value)
            && Get(res.normScores, res.bottleneck) - Get(res.normScores, res.perceived.value) >= 0.0
            && (res.twist <==>
                 Get(res.normScores, res.bottleneck) - Get(res.normScores, res.perceived.value) >= cfg.twistThreshold))
  {
    var res := ComputeResult(state, cfg).value;
    if res.perceived.Some? && res.perceived.value != res.bottleneck {
      var i := IndexOf(res.normScores, res.perceived.value);
      assert res.normScores[i].1 <= Get(res.normScores, res.bottleneck);
    }
  }

  /** Scores within their maxima give a result whose normalised scores all lie in [0, 1]. */
  lemma ResultScoresInUnitInterval(state: AnswersState, cfg: ScoringConfig)
    requires IsDict(state.scores) && MaxConfigured(cfg.zoneMax, state.scores)
    requires WithinMax(cfg.zoneMax, state.scores)
    requires ComputeResult(state, cfg).Success?
    ensures var norm := ComputeResult(state, cfg).value.normScores;
      forall i :: 0 <= i < |norm| ==> 0.0 <= norm[i].1 <= 1.0
  {
    NormalizedInUnitInterval(state.scores, cfg.zoneMax);
  }
}
