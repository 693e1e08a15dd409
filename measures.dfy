/** The summary numbers a run reports, computed from the recorded response times. */
module Measures {
  import opened Scenario

  /** Mean response time, or an explicit "no data" when nothing was served. */
  datatype Average = NoData | Mean(value: real)

  function Sum(s: seq<real>): real
  {
    if s == [] then 0.0 else s[0] + Sum(s[1..])
  }

  lemma {:induction false} SumBounds(s: seq<real>, lo: real, hi: real)
    requires forall i :: 0 <= i < |s| ==> lo <= s[i] <= hi
    ensures lo * (|s| as real) <= Sum(s) <= hi * (|s| as real)
  {
    if s != [] {
      SumBounds(s[1..], lo, hi);
      assert lo * (|s| as real) == lo + lo * (|s[1..]| as real);
      assert hi * (|s| as real) == hi + hi * (|s[1..]| as real);
    }
  }

  /** Dividing bounds on a total by a positive count bounds the quotient. */
  lemma QuotientWithin(total: real, n: real, lo: real, hi: real)
    requires n > 0.0 && lo * n <= total <= hi * n
    ensures lo <= total / n <= hi
  {
  }

  /** The arithmetic mean of the recorded times; NoData takes the place of the infinite sentinel. */
  function AverageResponseTime(times: seq<real>): (r: Average)
    ensures r.NoData? <==> times == []
    ensures r.Mean? ==> r.value * (|times| as real) == Sum(times)
  {
    if times == [] then NoData else Mean(Sum(times) / (|times| as real))
  }

  /** A mean lies between any bounds that hold of every recorded time. */
  lemma AverageWithin(times: seq<real>, lo: real, hi: real)
    requires forall i :: 0 <= i < |times| ==> lo <= times[i] <= hi
    ensures AverageResponseTime(times).Mean? ==> lo <= AverageResponseTime(times).value <= hi
  {
    if times != [] {
      SumBounds(times, lo, hi);
      QuotientWithin(Sum(times), |times| as real, lo, hi);
    }
  }

  /** Total recorded response time as a percentage of the time all servers were available. */
  function UtilizationPercent(times: seq<real>, servers: nat): (u: real)
    requires servers >= 1
    ensures u * (servers as real * SimulationTime) == Sum(times) * 100.0
  {
    Sum(times) / (servers as real * SimulationTime) * 100.0
  }

  /**
   * A utilization percentage no larger than `served` responses of at most
   * `hi` each can fill across `servers` servers over SimulationTime, and
   * not negative.
   */
  predicate UtilizationBounded(u: real, served: nat, servers: nat, hi: real)
  {
    0.0 <= u && u * (servers as real * SimulationTime) <= hi * (served as real) * 100.0
  }

  /** Utilization is never negative and is bounded by the largest possible response time. */
  lemma UtilizationWithin(times: seq<real>, servers: nat, lo: real, hi: real)
    requires servers >= 1
    requires 0.0 <= lo
    requires forall i :: 0 <= i < |times| ==> lo <= times[i] <= hi
    ensures 0.0 <= UtilizationPercent(times, servers)
    ensures UtilizationPercent(times, servers) * (servers as real * SimulationTime)
            <= hi * (|times| as real) * 100.0
  {
    SumBounds(times, lo, hi);
    var c := servers as real * SimulationTime;
    var u := UtilizationPercent(times, servers);
    assert u * c == Sum(times) * 100.0;
    assert 0.0 <= lo * (|times| as real);
  }

  /** The percentage is not clamped: it passes 100 exactly when the recorded time exceeds capacity. */
  lemma UtilizationAboveFull(times: seq<real>, servers: nat)
    requires servers >= 1
    ensures UtilizationPercent(times, servers) > 100.0
            <==> Sum(times) > servers as real * SimulationTime
  {
  }
}
