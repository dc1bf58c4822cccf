/**
 * The item processor of the import step: rejects the records of one geohash,
 * passes every other record through untouched, and only logs a warning for
 * records that look congested.
 */
module Processor {
  import opened Wrappers
  import opened Records

  /** The geohash whose records are rejected. */
  const RejectedGeohash: string := "sxk9jr"

  /** Average speed below which a busy location counts as congested. */
  const AvgSpeedThreshold: int := 50

  /** Vehicle count above which a slow location counts as congested. */
  const VehicleThreshold: int := 100

  /** The failure `process` raises for a rejected record (an `IllegalArgumentException`). */
  datatype ProcessError = IllegalArgument(message: string)

  /** The congestion condition; it only decides whether a warning is logged. */
  predicate IsCongested(t: TrafficDensity)
  {
    t.averageSpeed < AvgSpeedThreshold && t.numberOfVehicles > VehicleThreshold
  }

  /**
   * `process`: fails exactly for the rejected geohash and otherwise returns its
   * argument unchanged. The congestion check has no effect on the result.
   */
  function Process(t: TrafficDensity): (r: Result<TrafficDensity, ProcessError>)
    ensures r.Failure? <==> t.geohash == RejectedGeohash
    ensures r.Failure? ==> r.error == IllegalArgument("Invalid date")
    ensures r.Success? ==> r.value == t
  {
    if t.geohash == RejectedGeohash then Failure(IllegalArgument("Invalid date"))
    else
      // the congestion branch of the source logs a warning and falls through
      Success(t)
  }

  /** Processing an accepted record again accepts it again and changes nothing. */
  lemma ProcessIdempotent(t: TrafficDensity)
    requires Process(t).Success?
    ensures Process(Process(t).value) == Process(t)
  {
  }

  /** A congested record that is not of the rejected geohash is accepted as it is. */
  lemma CongestionOnlyWarns(t: TrafficDensity)
    requires IsCongested(t)
    ensures Process(t).Success? <==> t.geohash != RejectedGeohash
    ensures Process(t).Success? ==> Process(t).value == t
  {
  }

  /** The records the processor accepts, in input order. */
  function Accepted(items: seq<TrafficDensity>): (r: seq<TrafficDensity>)
    ensures |r| <= |items|
    ensures forall x :: x in r ==> x in items && x.geohash != RejectedGeohash
    ensures forall x :: x in items && x.geohash != RejectedGeohash ==> x in r
  {
    if items == [] then []
    else match Process(items[0])
      case Success(v) => [v] + Accepted(items[1..])
      case Failure(_) => Accepted(items[1..])
  }

  /** How many records the processor rejects. */
  function RejectedCount(items: seq<TrafficDensity>): (n: nat)
    ensures n <= |items|
  {
    if items == [] then 0
    else (if Process(items[0]).Failure? then 1 else 0) + RejectedCount(items[1..])
  }

  /** Every record is either accepted or rejected: accepted = read - rejected. */
  lemma {:induction false} AcceptedPlusRejected(items: seq<TrafficDensity>)
    ensures |Accepted(items)| + RejectedCount(items) == |items|
  {
    if items != [] {
      AcceptedPlusRejected(items[1..]);
    }
  }

  /** A three-record input holding one rejected record yields two accepted records. */
  lemma ThreeRecordsOneRejected(a: TrafficDensity, b: TrafficDensity, c: TrafficDensity)
    requires a.geohash != RejectedGeohash && c.geohash != RejectedGeohash
    requires b.geohash == RejectedGeohash
    ensures Accepted([a, b, c]) == [a, c]
    ensures RejectedCount([a, b, c]) == 1
  {
    assert [a, b, c][1..] == [b, c];
    assert [b, c][1..] == [c];
    assert [c][1..] == [];
    assert RejectedCount([c]) == 0;
    assert RejectedCount([b, c]) == 1;
  }

  /** The congested sample record (geohash txk9jr, average speed 45, 120 vehicles) is accepted intact. */
  lemma CongestedSampleAccepted(t: TrafficDensity)
    requires t.geohash == "txk9jr" && t.averageSpeed == 45 && t.numberOfVehicles == 120
    ensures IsCongested(t)
    ensures Process(t) == Success(t)
  {
    assert t.geohash[0] != RejectedGeohash[0];
  }
}
