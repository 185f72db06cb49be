/**
 * Tracking of VPAs whose recommendation is missing. The cluster keeps, per VPA,
 * the time a missing recommendation was first noticed (or last reported); a
 * VPA that has gone without one for longer than RecommendationMissingMaxDuration
 * is reported and its timer restarts.
 */
module Staleness {
  import opened Model

  /** RecommendationMissingMaxDuration: 30 minutes. */
  const RecommendationMissingMaxDuration: Duration := 30 * Minute

  /** The new emptyVPAs entry of one VPA and whether the call reports staleness. */
  datatype Outcome = Outcome(entry: Option<Time>, stale: bool)

  /**
   * One RecordRecommendation call for one VPA, given its current emptyVPAs
   * entry and whether the VPA carries a non-empty recommendation.
   */
  function Observe(entry: Option<Time>, hasRecommendation: bool, now: Time): Outcome {
    if hasRecommendation then Outcome(None, false)
    else match entry
      case None => Outcome(Some(now), false)
      case Some(lastLogged) =>
        if lastLogged + RecommendationMissingMaxDuration < now then Outcome(Some(now), true)
        else Outcome(entry, false)
  }

  /** The recommendation counts as present when it exists and names at least one container. */
  predicate HasRecommendation(vpa: Vpa) {
    vpa.recommendation.Some? && |vpa.recommendation.value.containerRecommendations| > 0
  }

  /** The emptyVPAs map after applying an outcome to the entry of id. */
  function Apply(emptyVPAs: map<VpaID, Time>, id: VpaID, o: Outcome): (m: map<VpaID, Time>)
    ensures m - {id} == emptyVPAs - {id}
    ensures o.entry.None? ==> id !in m
    ensures o.entry.Some? ==> id in m && m[id] == o.entry.value
  {
    if o.entry.Some? then emptyVPAs[id := o.entry.value] else emptyVPAs - {id}
  }

  /**
   * The four cases of a recommendation observation: a present recommendation
   * clears the entry; a first missing one starts the timer; a later missing
   * one is stale exactly when the timer started strictly more than 30 minutes
   * ago, and then restarts it; otherwise nothing changes.
   */
  lemma ObserveCases(entry: Option<Time>, hasRecommendation: bool, now: Time)
    ensures hasRecommendation ==> Observe(entry, hasRecommendation, now) == Outcome(None, false)
    ensures !hasRecommendation && entry.None? ==> Observe(entry, hasRecommendation, now) == Outcome(Some(now), false)
    ensures !hasRecommendation && entry.Some? ==>
      (Observe(entry, hasRecommendation, now).stale <==> entry.value + RecommendationMissingMaxDuration < now)
    ensures !hasRecommendation && entry.Some? ==>
      Observe(entry, hasRecommendation, now).entry == (if entry.value + RecommendationMissingMaxDuration < now then Some(now) else entry)
  {
  }

  /**
   * Repeated observations of a missing recommendation at the given times:
   * the final entry and the number of calls that reported staleness.
   */
  function Replay(entry: Option<Time>, times: seq<Time>): (Option<Time>, nat)
    decreases |times|
  {
    if times == [] then (entry, 0)
    else
      var o := Observe(entry, false, times[0]);
      var rest := Replay(o.entry, times[1..]);
      (rest.0, rest.1 + if o.stale then 1 else 0)
  }

  /**
   * Observations no later than 30 minutes after the timer started never
   * report staleness and keep the timer where it is.
   */
  lemma {:induction false} NoReportWithinThreshold(first: Time, times: seq<Time>)
    requires forall i :: 0 <= i < |times| ==> times[i] <= first + RecommendationMissingMaxDuration
    ensures Replay(Some(first), times) == (Some(first), 0)
    decreases |times|
  {
    if times != [] {
      NoReportWithinThreshold(first, times[1..]);
    }
  }

  /**
   * The first observation strictly more than 30 minutes after the timer
   * started reports staleness and restarts the timer; observations within
   * 30 minutes of that restart report nothing more: exactly one report.
   */
  lemma {:induction false} ReportExactlyOnce(first: Time, times: seq<Time>)
    requires |times| > 0 && first + RecommendationMissingMaxDuration < times[0]
    requires forall i :: 0 <= i < |times| ==> times[i] <= times[0] + RecommendationMissingMaxDuration
    ensures Replay(Some(first), times) == (Some(times[0]), 1)
  {
    assert Observe(Some(first), false, times[0]) == Outcome(Some(times[0]), true);
    forall i | 0 <= i < |times[1..]|
      ensures times[1..][i] <= times[0] + RecommendationMissingMaxDuration
    {
      assert times[1..][i] == times[i + 1];
    }
    NoReportWithinThreshold(times[0], times[1..]);
  }
}
