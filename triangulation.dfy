/**
 * The outlier filter and the step that hands its survivors to the
 * triangulator (services/triangulation.go). Stations live in an array, as the
 * Go slice's backing array; the filter shrinks the live prefix in place.
 */
module Triangulation {
  import opened Wrappers
  import opened Models
  import opened Errors
  import opened Sequences
  import Apis

  /** A station found in the directory, with the strength of the signal that named it. */
  datatype SignalAwareStation = SignalAwareStation(station: Station, signalStrength: real)

  /** Threshold on the root-mean-square distance (in degrees) under which stations count as close. */
  const StdDevThreshold: real := 0.03

  /** Sum of latitudes, accumulated front to back. */
  function SumLat(s: seq<SignalAwareStation>): real
  {
    if s == [] then 0.0 else SumLat(s[..|s| - 1]) + s[|s| - 1].station.lat
  }

  /** Sum of longitudes, accumulated front to back. */
  function SumLng(s: seq<SignalAwareStation>): real
  {
    if s == [] then 0.0 else SumLng(s[..|s| - 1]) + s[|s| - 1].station.lng
  }

  /** The plain (degree-space) mean point of the stations. */
  function MeanLat(s: seq<SignalAwareStation>): real
    requires |s| > 0
  {
    SumLat(s) / |s| as real
  }

  function MeanLng(s: seq<SignalAwareStation>): real
    requires |s| > 0
  {
    SumLng(s) / |s| as real
  }

  /** `math.Pow(x, 2)`. */
  function Pow2(x: real): (r: real)
    ensures r >= 0.0
  {
    x * x
  }

  /** Squared degree-space distance of a station to the point (lat, lng). */
  function SqDist(st: SignalAwareStation, lat: real, lng: real): (d: real)
    ensures d >= 0.0
  {
    Pow2(st.station.lat - lat) + Pow2(st.station.lng - lng)
  }

  /** Sum of squared distances to (lat, lng), accumulated front to back. */
  function SumSqDist(s: seq<SignalAwareStation>, lat: real, lng: real): (sum: real)
    ensures sum >= 0.0
  {
    if s == [] then 0.0 else SumSqDist(s[..|s| - 1], lat, lng) + SqDist(s[|s| - 1], lat, lng)
  }

  /**
   * The coherence test: sqrt(sum / n) < 0.03. Because the sum is never
   * negative, this is sum / n < 0.03 * 0.03, which avoids the square root.
   */
  predicate RmsBelowThreshold(sum: real, n: nat)
    requires n > 0
  {
    sum / n as real < StdDevThreshold * StdDevThreshold
  }

  /**
   * The square-root test and RmsBelowThreshold agree: for the non-negative
   * root of sum / n, root < 0.03 exactly when sum / n < 0.03 * 0.03.
   */
  lemma SqrtTest(sum: real, n: nat, root: real)
    requires n > 0 && root >= 0.0 && root * root == sum / n as real
    ensures root < StdDevThreshold <==> RmsBelowThreshold(sum, n)
  {
    assert StdDevThreshold * StdDevThreshold == 0.0009;
    if root < 0.03 {
      assert root * root <= 0.03 * root;
    } else {
      assert root * root >= 0.03 * root;
    }
  }

  /** The stations' root-mean-square distance to their mean point is below the threshold. */
  predicate Coherent(s: seq<SignalAwareStation>)
    requires |s| > 0
  {
    RmsBelowThreshold(SumSqDist(s, MeanLat(s), MeanLng(s)), |s|)
  }

  /** The index of the first station whose squared distance to (lat, lng) is largest. */
  function FirstFarthest(s: seq<SignalAwareStation>, lat: real, lng: real): (k: nat)
    requires |s| > 0
    ensures k < |s|
    ensures forall j :: 0 <= j < |s| ==> SqDist(s[j], lat, lng) <= SqDist(s[k], lat, lng)
    ensures forall j :: 0 <= j < k ==> SqDist(s[j], lat, lng) < SqDist(s[k], lat, lng)
  {
    if |s| == 1 then 0
    else
      var k := FirstFarthest(s[..|s| - 1], lat, lng);
      if SqDist(s[|s| - 1], lat, lng) > SqDist(s[k], lat, lng) then |s| - 1 else k
  }

  /**
   * What `findClosestStations` returns: while more than one station remains and
   * they are not coherent, drop the first station farthest from the mean point.
   */
  function ClosestStations(s: seq<SignalAwareStation>): (r: seq<SignalAwareStation>)
    ensures |r| <= |s|
    ensures |s| > 0 ==> |r| > 0
    ensures |s| <= 1 ==> r == s
    decreases |s|
  {
    if |s| <= 1 then s
    else if Coherent(s) then s
    else ClosestStations(RemoveAt(s, FirstFarthest(s, MeanLat(s), MeanLng(s))))
  }

  /** The survivors are the input with some stations removed, in their original order. */
  lemma {:induction false} ClosestIsSubsequence(s: seq<SignalAwareStation>)
    ensures IsSubsequence(ClosestStations(s), s)
    decreases |s|
  {
    if |s| <= 1 || Coherent(s) {
      SubsequenceReflexive(s);
    } else {
      var t := RemoveAt(s, FirstFarthest(s, MeanLat(s), MeanLng(s)));
      ClosestIsSubsequence(t);
      RemoveAtIsSubsequence(s, FirstFarthest(s, MeanLat(s), MeanLng(s)));
      SubsequenceTransitive(ClosestStations(t), t, s);
    }
  }

  /** More than one survivor means the survivors are coherent. */
  lemma {:induction false} ClosestIsCoherent(s: seq<SignalAwareStation>)
    ensures |ClosestStations(s)| > 1 ==> Coherent(ClosestStations(s))
    decreases |s|
  {
    if |s| > 1 && !Coherent(s) {
      ClosestIsCoherent(RemoveAt(s, FirstFarthest(s, MeanLat(s), MeanLng(s))));
    }
  }

  /** Filtering the survivors again changes nothing. */
  lemma {:induction false} ClosestIdempotent(s: seq<SignalAwareStation>)
    ensures ClosestStations(ClosestStations(s)) == ClosestStations(s)
  {
    ClosestIsCoherent(s);
  }

  /** `avgLat, avgLng`: the mean point of the first `n` stations, summed in order. */
  method MeanPoint(a: array<SignalAwareStation>, n: nat) returns (avgLat: real, avgLng: real)
    requires 0 < n <= a.Length
    ensures avgLat == MeanLat(a[..n]) && avgLng == MeanLng(a[..n])
  {
    avgLat, avgLng := 0.0, 0.0;
    var i := 0;
    while i < n
      invariant 0 <= i <= n
      invariant avgLat == SumLat(a[..i]) && avgLng == SumLng(a[..i])
    {
      assert a[..i + 1][..i] == a[..i];
      avgLat := avgLat + a[i].station.lat;
      avgLng := avgLng + a[i].station.lng;
      i := i + 1;
    }
    avgLat := avgLat / n as real;
    avgLng := avgLng / n as real;
  }

  /**
   * One pass over the first `n` stations: the sum of squared distances to
   * (avgLat, avgLng), and the first index with the strictly largest distance.
   */
  method FarthestScan(a: array<SignalAwareStation>, n: nat, avgLat: real, avgLng: real)
    returns (maxDistance: real, maxDistanceIndex: nat, sum: real)
    requires 0 < n <= a.Length
    ensures maxDistanceIndex == FirstFarthest(a[..n], avgLat, avgLng)
    ensures maxDistance == SqDist(a[maxDistanceIndex], avgLat, avgLng)
    ensures sum == SumSqDist(a[..n], avgLat, avgLng)
  {
    maxDistance, maxDistanceIndex, sum := 0.0, 0, 0.0;
    var i := 0;
    while i < n
      invariant 0 <= i <= n
      invariant sum == SumSqDist(a[..i], avgLat, avgLng)
      invariant i == 0 ==> maxDistanceIndex == 0 && maxDistance == 0.0
      invariant i > 0 ==> maxDistanceIndex == FirstFarthest(a[..i], avgLat, avgLng)
      invariant i > 0 ==> maxDistanceIndex < i && maxDistance == SqDist(a[maxDistanceIndex], avgLat, avgLng)
    {
      assert a[..i + 1][..i] == a[..i] && a[..i + 1][i] == a[i];
      var distance := Pow2(a[i].station.lat - avgLat) + Pow2(a[i].station.lng - avgLng);
      if distance > maxDistance {
        maxDistance := distance;
        maxDistanceIndex := i;
      }
      sum := sum + distance;
      i := i + 1;
    }
  }

  /**
   * `append(stations[0:i], stations[i+1:]...)`: the elements after `i` move one
   * place left inside the same array; the last live slot keeps its old value.
   */
  method RemoveInPlace(a: array<SignalAwareStation>, n: nat, i: nat)
    requires i < n <= a.Length
    modifies a
    ensures a[..n - 1] == RemoveAt(old(a[..n]), i)
    ensures a[n - 1..] == old(a[n - 1..])
  {
    var k := i;
    while k < n - 1
      invariant i <= k <= n - 1
      invariant forall j :: 0 <= j < i ==> a[j] == old(a[j])
      invariant forall j :: i <= j < k ==> a[j] == old(a[j + 1])
      invariant forall j :: k <= j < a.Length ==> a[j] == old(a[j])
    {
      a[k] := a[k + 1];
      k := k + 1;
    }
  }

  /**
   * `findClosestStations`: the slice is the first `n` slots of `a`; returns the
   * new length. The survivors are exactly ClosestStations of the input.
   */
  method FindClosestStations(a: array<SignalAwareStation>) returns (n: nat)
    modifies a
    ensures n <= a.Length
    ensures a[..n] == ClosestStations(old(a[..]))
  {
    n := a.Length;
    assert a[..n] == old(a[..]);
    while n > 1
      invariant n <= a.Length
      invariant ClosestStations(a[..n]) == ClosestStations(old(a[..]))
      decreases n
    {
      var avgLat, avgLng := MeanPoint(a, n);
      var maxDistance, maxDistanceIndex, sum := FarthestScan(a, n, avgLat, avgLng);
      if RmsBelowThreshold(sum, n) {
        return;
      }
      ghost var before := a[..n];
      RemoveInPlace(a, n, maxDistanceIndex);
      n := n - 1;
      assert a[..n] == RemoveAt(before, FirstFarthest(before, MeanLat(before), MeanLng(before)));
    }
  }

  /** What `doComputePosition` answers for the stations `s`, given the triangulator. */
  function PositionFrom(s: seq<SignalAwareStation>, triangulate: seq<SignalAwareStation> -> Apis.PositionResult)
    : (r: Result<Apis.PositionResult, APIError>)
    ensures r.Failure? <==> s == []
    ensures r.Failure? ==> r.error == NotFound("no suitable stations")
    ensures r.Success? ==> r.value == triangulate(ClosestStations(s))
  {
    var closest := ClosestStations(s);
    if |closest| == 0 then Failure(NotFound("no suitable stations"))
    else Success(triangulate(closest))
  }

  /**
   * `doComputePosition`: filter the stations in place, then triangulate the
   * survivors; no survivors means "no suitable stations".
   */
  method DoComputePosition(a: array<SignalAwareStation>, triangulate: seq<SignalAwareStation> -> Apis.PositionResult)
    returns (r: Result<Apis.PositionResult, APIError>)
    modifies a
    ensures r == PositionFrom(old(a[..]), triangulate)
  {
    var n := FindClosestStations(a);
    if n == 0 {
      return Failure(NotFound("no suitable stations"));
    }
    return Success(triangulate(a[..n]));
  }

  /** The stations of the filter's unit test; the third lies about one degree of longitude east of the rest. */
  function FourStations(): seq<SignalAwareStation>
  {
    [ SignalAwareStation(Station("0-32838-60122", 30.732796, 103.962357), -77.0),
      SignalAwareStation(Station("0-32838-60123", 30.734688, 103.961433), -83.0),
      SignalAwareStation(Station("0-32838-36861", 30.730850, 104.965279), -88.0),
      SignalAwareStation(Station("0-32838-60125", 30.732283, 103.961327), -95.0) ]
  }

  /** The far station, and only it, is filtered out. */
  lemma FourStationsDropsFarOne()
    ensures ClosestStations(FourStations()) == RemoveAt(FourStations(), 2)
  {
    var s := FourStations();
    assert s[..3][..2] == s[..2] && s[..2][..1] == s[..1] && s[..1][..0] == [];
    assert SumLat(s[..1]) == 30.732796 && SumLng(s[..1]) == 103.962357;
    assert SumLat(s[..2]) == 61.467484 && SumLng(s[..2]) == 207.92379;
    assert SumLat(s[..3]) == 92.198334 && SumLng(s[..3]) == 312.889069;
    assert SumLat(s) == 122.930617 && SumLng(s) == 416.850396;
    var lat, lng := MeanLat(s), MeanLng(s);
    assert lat == 30.73265425 && lng == 104.212599;
    assert SumSqDist(s, lat, lng) > 0.5;
    assert !Coherent(s);
    assert FirstFarthest(s, lat, lng) == 2;
    var t := RemoveAt(s, 2);
    assert t == [s[0], s[1], s[3]];
    assert t[..2] == s[..2] && t[..2][..1] == s[..1];
    assert SumLat(t) == 92.199767 && SumLng(t) == 311.885117;
    var tLat, tLng := MeanLat(t), MeanLng(t);
    assert tLat == 92.199767 / 3.0 && tLng == 311.885117 / 3.0;
    assert SqDist(t[0], tLat, tLng) < 0.00001;
    assert SqDist(t[1], tLat, tLng) < 0.00001;
    assert SqDist(t[2], tLat, tLng) < 0.00001;
    assert SumSqDist(t[..1], tLat, tLng) < 0.00001;
    assert SumSqDist(t[..2], tLat, tLng) < 0.00002;
    assert SumSqDist(t, tLat, tLng) < 0.00003;
    assert Coherent(t);
  }
}
