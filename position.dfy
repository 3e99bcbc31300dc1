/**
 * The position service (services/position.go): resolves signals to stations
 * through the station directory, works out which signals matched no station,
 * pairs each station with its signal's strength and hands them to the filter.
 */
module Position {
  import opened Wrappers
  import opened Models
  import opened Errors
  import opened Apis
  import opened Triangulation
  import Sequences

  /** The station directory's `FindStations`: the stations whose ids are among the keys, or an error. */
  type Directory = map<string, Signal> -> Result<seq<Station>, Fault>

  /** The triangulator, whose trigonometry is not modelled. */
  type Triangulator = seq<SignalAwareStation> -> PositionResult

  /** `buildStationId`: mnc, lac and cid joined by "-". */
  function BuildStationId(signal: Signal): (id: string)
    ensures |id| == |signal.mnc| + |signal.lac| + |signal.cid| + 2
  {
    signal.mnc + "-" + signal.lac + "-" + signal.cid
  }

  /** No character of `s` is the separator. */
  predicate NoDash(s: string)
  {
    forall i :: 0 <= i < |s| ==> s[i] != '-'
  }

  /** Position of the first "-" in `s`, or |s| when there is none. */
  function DashIndex(s: string): (k: nat)
    ensures k <= |s| && NoDash(s[..k])
    ensures k < |s| ==> s[k] == '-'
  {
    if s == [] then 0
    else if s[0] == '-' then 0
    else
      var k := 1 + DashIndex(s[1..]);
      assert forall i :: 1 <= i < k ==> s[..k][i] == s[1..][..k - 1][i - 1];
      k
  }

  /** The inverse of BuildStationId: splits an id at its first two separators. */
  function SplitStationId(id: string): Option<(string, string, string)>
  {
    var i := DashIndex(id);
    if i == |id| then None
    else
      var rest := id[i + 1..];
      var j := DashIndex(rest);
      if j == |rest| then None
      else Some((id[..i], rest[..j], rest[j + 1..]))
  }

  lemma {:induction false} DashIndexAfterCode(code: string, tail: string)
    requires NoDash(code)
    ensures DashIndex(code + "-" + tail) == |code|
    decreases |code|
  {
    var s := code + "-" + tail;
    if code != [] {
      assert s[1..] == code[1..] + "-" + tail;
      DashIndexAfterCode(code[1..], tail);
    }
  }

  /** When the codes hold no "-", the id splits back into exactly those codes. */
  lemma StationIdRoundTrip(signal: Signal)
    requires NoDash(signal.mnc) && NoDash(signal.lac)
    ensures SplitStationId(BuildStationId(signal)) == Some((signal.mnc, signal.lac, signal.cid))
  {
    var id := BuildStationId(signal);
    DashIndexAfterCode(signal.mnc, signal.lac + "-" + signal.cid);
    assert id == signal.mnc + "-" + (signal.lac + "-" + signal.cid);
    assert id[..|signal.mnc|] == signal.mnc;
    var rest := id[|signal.mnc| + 1..];
    assert rest == signal.lac + "-" + signal.cid;
    DashIndexAfterCode(signal.lac, signal.cid);
    assert rest[..|signal.lac|] == signal.lac;
    assert rest[|signal.lac| + 1..] == signal.cid;
  }

  /** Hence two signals share an id only when they name the same station. */
  lemma StationIdInjective(a: Signal, b: Signal)
    requires NoDash(a.mnc) && NoDash(a.lac) && NoDash(b.mnc) && NoDash(b.lac)
    requires BuildStationId(a) == BuildStationId(b)
    ensures a.mnc == b.mnc && a.lac == b.lac && a.cid == b.cid
  {
    StationIdRoundTrip(a);
    StationIdRoundTrip(b);
  }

  /** Codes that contain "-" can make two different stations share an id. */
  lemma StationIdCollision()
    ensures BuildStationId(Signal("0-1", "2", "3", -80.0)) == BuildStationId(Signal("0", "1-2", "3", -80.0))
  {
  }

  /** The ids of all the signals. */
  function SignalIds(signals: seq<Signal>): set<string>
  {
    set i | 0 <= i < |signals| :: BuildStationId(signals[i])
  }

  /** The `signals` map built by ComputePosition: each id mapped to the last signal with that id. */
  function Dedup(signals: seq<Signal>): (m: map<string, Signal>)
    ensures m.Keys == SignalIds(signals)
    ensures forall id :: id in m ==> BuildStationId(m[id]) == id
  {
    if signals == [] then map[]
    else
      var prefix, last := signals[..|signals| - 1], signals[|signals| - 1];
      var m := Dedup(prefix);
      assert SignalIds(signals) == SignalIds(prefix) + {BuildStationId(last)} by {
        assert forall i :: 0 <= i < |prefix| ==> prefix[i] == signals[i];
      }
      m[BuildStationId(last) := last]
  }

  /** A signal that no later signal shares an id with is the one kept for its id. */
  lemma {:induction false} DedupLastWins(signals: seq<Signal>, i: nat)
    requires i < |signals|
    requires forall j :: i < j < |signals| ==> BuildStationId(signals[j]) != BuildStationId(signals[i])
    ensures Dedup(signals)[BuildStationId(signals[i])] == signals[i]
  {
    if i < |signals| - 1 {
      var prefix := signals[..|signals| - 1];
      assert forall j :: i < j < |prefix| ==> prefix[j] == signals[j];
      DedupLastWins(prefix, i);
    }
  }

  /** One entry per distinct id: the map has as many entries as there are distinct ids. */
  lemma DedupSize(signals: seq<Signal>)
    ensures |Dedup(signals)| == |SignalIds(signals)|
    ensures signals != [] ==> |Dedup(signals)| > 0
  {
    if signals != [] {
      assert BuildStationId(signals[0]) in Dedup(signals);
    }
  }

  /** The ids of the stations the directory returned. */
  function StationIds(stations: seq<Station>): set<string>
  {
    set i | 0 <= i < |stations| :: stations[i].id
  }

  /** The requested ids that no returned station carries. */
  function UnknownIds(found: seq<Station>, requested: map<string, Signal>): set<string>
  {
    requested.Keys - StationIds(found)
  }

  /**
   * The unknowns handed to `RecordUnknownSignals`: for each requested id that no
   * found station carries, its signal, once. Map iteration order is unspecified,
   * so the keys are taken in an arbitrary order; `ids` records which one each
   * element came from.
   */
  method UnknownSignals(foundStations: seq<Station>, requested: map<string, Signal>)
    returns (unknowns: seq<Signal>, ghost ids: seq<string>)
    ensures |ids| == |unknowns|
    ensures forall i :: 0 <= i < |ids| ==> ids[i] in requested && unknowns[i] == requested[ids[i]]
    ensures forall i, j :: 0 <= i < j < |ids| ==> ids[i] != ids[j]
    ensures forall id :: id in ids <==> id in UnknownIds(foundStations, requested)
    ensures |unknowns| == |UnknownIds(foundStations, requested)|
    ensures forall i :: 0 <= i < |unknowns| ==>
      exists id :: id in UnknownIds(foundStations, requested) && requested[id] == unknowns[i]
  {
    unknowns, ids := [], [];
    var remaining := requested.Keys;
    while remaining != {}
      invariant remaining <= requested.Keys
      invariant |ids| == |unknowns|
      invariant forall i :: 0 <= i < |ids| ==> ids[i] in requested && unknowns[i] == requested[ids[i]]
      invariant forall i, j :: 0 <= i < j < |ids| ==> ids[i] != ids[j]
      invariant forall id :: id in ids <==> id in UnknownIds(foundStations, requested) && id !in remaining
      decreases remaining
    {
      var id :| id in remaining;
      var found := false;
      var k := 0;
      while k < |foundStations|
        invariant 0 <= k <= |foundStations|
        invariant !found
        invariant forall j :: 0 <= j < k ==> foundStations[j].id != id
      {
        if foundStations[k].id == id {
          found := true;
          break;
        }
        k := k + 1;
      }
      assert found <==> id in StationIds(foundStations);
      if !found {
        unknowns := unknowns + [requested[id]];
        ids := ids + [id];
      }
      remaining := remaining - {id};
    }
    Sequences.DistinctElements(ids);
    assert (set i | 0 <= i < |ids| :: ids[i]) == UnknownIds(foundStations, requested);
    forall i | 0 <= i < |unknowns|
      ensures exists id :: id in UnknownIds(foundStations, requested) && requested[id] == unknowns[i]
    {
      assert ids[i] in UnknownIds(foundStations, requested);
    }
  }

  /** `signals[station.Id].Strength`: a missing key reads Go's zero value. */
  function StrengthOf(signals: map<string, Signal>, id: string): real
  {
    if id in signals then signals[id].strength else 0.0
  }

  /** Each station paired with the strength of its signal, in the directory's order. */
  function Pair(stations: seq<Station>, signals: map<string, Signal>): (r: seq<SignalAwareStation>)
    ensures |r| == |stations|
    ensures forall i :: 0 <= i < |r| ==> r[i].station == stations[i]
    ensures forall i :: 0 <= i < |r| ==>
      r[i].signalStrength == (if stations[i].id in signals then signals[stations[i].id].strength else 0.0)
  {
    seq(|stations|, i requires 0 <= i < |stations| =>
      SignalAwareStation(stations[i], StrengthOf(signals, stations[i].id)))
  }

  /** A station named by a request signal gets the strength of the last signal naming it. */
  lemma PairTakesLastStrength(request: seq<Signal>, stations: seq<Station>, k: nat, i: nat)
    requires k < |stations| && i < |request|
    requires stations[k].id == BuildStationId(request[i])
    requires forall j :: i < j < |request| ==> BuildStationId(request[j]) != BuildStationId(request[i])
    ensures Pair(stations, Dedup(request))[k].signalStrength == request[i].strength
  {
    DedupLastWins(request, i);
  }

  /** Whether ComputePosition sends unknowns to the recorder: the directory answered,
      with fewer or more stations than there are distinct ids. */
  predicate RecordsUnknowns(request: seq<Signal>, findStations: Directory)
  {
    var signals := Dedup(request);
    findStations(signals).Success? && |findStations(signals).value| != |signals|
  }

  /** `unknowns` holds, once each, the signal of every id in `ids`, and nothing else. */
  predicate ListsSignalsOf(unknowns: seq<Signal>, ids: set<string>, signals: map<string, Signal>)
  {
    && (forall i :: 0 <= i < |unknowns| ==>
          BuildStationId(unknowns[i]) in ids && BuildStationId(unknowns[i]) in signals &&
          signals[BuildStationId(unknowns[i])] == unknowns[i])
    && (forall i, j :: 0 <= i < j < |unknowns| ==> BuildStationId(unknowns[i]) != BuildStationId(unknowns[j]))
    && (forall id :: id in ids ==> exists i :: 0 <= i < |unknowns| && BuildStationId(unknowns[i]) == id)
  }

  /** What ComputePosition answers for a request holding `request`. */
  function PositionFor(request: seq<Signal>, findStations: Directory, triangulate: Triangulator)
    : Result<PositionResult, Fault>
  {
    var signals := Dedup(request);
    match findStations(signals)
    case Failure(err) => Failure(err)
    case Success(stations) =>
      if |stations| != |signals| && |stations| == 0 then Failure(API(NotFound("no stations matched")))
      else
        match PositionFrom(Pair(stations, signals), triangulate)
        case Success(p) => Success(p)
        case Failure(e) => Failure(API(e))
  }

  /** The loop filling the `signals` map: later signals overwrite earlier ones with the same id. */
  method IndexSignals(requestSignals: seq<Signal>) returns (signals: map<string, Signal>)
    ensures signals == Dedup(requestSignals)
    ensures signals.Keys == SignalIds(requestSignals)
  {
    signals := map[];
    var i := 0;
    while i < |requestSignals|
      invariant 0 <= i <= |requestSignals|
      invariant signals == Dedup(requestSignals[..i])
    {
      assert requestSignals[..i + 1][..i] == requestSignals[..i];
      signals := signals[BuildStationId(requestSignals[i]) := requestSignals[i]];
      i := i + 1;
    }
    assert requestSignals[..i] == requestSignals;
  }

  /** The loop wrapping each found station with its signal's strength, by index. */
  method PairWithSignals(stations: seq<Station>, signals: map<string, Signal>)
    returns (signalAwareStations: array<SignalAwareStation>)
    ensures fresh(signalAwareStations)
    ensures signalAwareStations[..] == Pair(stations, signals)
  {
    signalAwareStations := new SignalAwareStation[|stations|];
    var k := 0;
    while k < |stations|
      invariant 0 <= k <= |stations|
      invariant forall j :: 0 <= j < k ==>
        signalAwareStations[j] == SignalAwareStation(stations[j], StrengthOf(signals, stations[j].id))
    {
      signalAwareStations[k] := SignalAwareStation(stations[k], StrengthOf(signals, stations[k].id));
      k := k + 1;
    }
  }

  /** The unknowns of a deduplicated map, listed by UnknownSignals, are listed by their own ids. */
  lemma UnknownsListed(stations: seq<Station>, signals: map<string, Signal>, list: seq<Signal>, ids: seq<string>)
    requires forall id :: id in signals ==> BuildStationId(signals[id]) == id
    requires |ids| == |list|
    requires forall i :: 0 <= i < |ids| ==> ids[i] in signals && list[i] == signals[ids[i]]
    requires forall i, j :: 0 <= i < j < |ids| ==> ids[i] != ids[j]
    requires forall id :: id in ids <==> id in UnknownIds(stations, signals)
    ensures ListsSignalsOf(list, UnknownIds(stations, signals), signals)
  {
    forall k | 0 <= k < |list| ensures BuildStationId(list[k]) == ids[k] { }
    forall id | id in UnknownIds(stations, signals)
      ensures exists k :: 0 <= k < |list| && BuildStationId(list[k]) == id
    {
      var k :| 0 <= k < |ids| && ids[k] == id;
      assert BuildStationId(list[k]) == id;
    }
  }

  /**
   * `ComputePosition`: deduplicate the signals by id, ask the directory, work
   * out the unknowns when the counts differ, fail when nothing matched, and
   * otherwise position from the found stations and their strengths.
   */
  method ComputePosition(request: PositionRequest, findStations: Directory, triangulate: Triangulator)
    returns (r: Result<PositionResult, Fault>, unknowns: Option<seq<Signal>>)
    ensures r == PositionFor(request.signals, findStations, triangulate)
    ensures unknowns.Some? <==> RecordsUnknowns(request.signals, findStations)
    ensures unknowns.Some? ==>
      ListsSignalsOf(unknowns.value,
                     UnknownIds(findStations(Dedup(request.signals)).value, Dedup(request.signals)),
                     Dedup(request.signals))
  {
    var signals := IndexSignals(request.signals);
    var found := findStations(signals);
    if found.Failure? {
      return Failure(found.error), None;
    }
    var stations := found.value;

    unknowns := None;
    if |stations| != |signals| {
      var list, ids := UnknownSignals(stations, signals);
      UnknownsListed(stations, signals, list, ids);
      unknowns := Some(list);
      if |stations| == 0 {
        return Failure(API(NotFound("no stations matched"))), unknowns;
      }
    }

    var signalAwareStations := PairWithSignals(stations, signals);
    var position := DoComputePosition(signalAwareStations, triangulate);
    r := match position
      case Success(p) => Success(p)
      case Failure(e) => Failure(API(e));
  }

  /** A directory error is returned as it is, and no unknowns are recorded. */
  lemma DirectoryErrorReturned(request: seq<Signal>, findStations: Directory, triangulate: Triangulator)
    requires findStations(Dedup(request)).Failure?
    ensures PositionFor(request, findStations, triangulate) == Failure(findStations(Dedup(request)).error)
    ensures !RecordsUnknowns(request, findStations)
  {
  }

  /** When the directory finds nothing for a non-empty request, every signal is unknown
      and the answer is NOT_FOUND "no stations matched". */
  lemma NothingMatched(request: seq<Signal>, findStations: Directory, triangulate: Triangulator)
    requires request != [] && findStations(Dedup(request)) == Success([])
    ensures PositionFor(request, findStations, triangulate) == Failure(API(NotFound("no stations matched")))
    ensures RecordsUnknowns(request, findStations)
    ensures UnknownIds([], Dedup(request)) == SignalIds(request)
  {
    DedupSize(request);
  }

  /** An empty request that the directory answers with no stations reaches the filter
      with nothing, and fails with "no suitable stations". */
  lemma EmptyRequestNoSuitableStations(findStations: Directory, triangulate: Triangulator)
    requires findStations(map[]) == Success([])
    ensures PositionFor([], findStations, triangulate) == Failure(API(NotFound("no suitable stations")))
    ensures !RecordsUnknowns([], findStations)
  {
    assert Dedup([]) == map[];
  }

  /** Once some station matched, the answer is the triangulation of the filtered, paired stations. */
  lemma MatchedNeverFails(request: seq<Signal>, findStations: Directory, triangulate: Triangulator)
    requires findStations(Dedup(request)).Success? && findStations(Dedup(request)).value != []
    ensures PositionFor(request, findStations, triangulate) ==
      Success(triangulate(ClosestStations(Pair(findStations(Dedup(request)).value, Dedup(request)))))
    ensures ClosestStations(Pair(findStations(Dedup(request)).value, Dedup(request))) != []
  {
  }

  /** Distinct station ids are as many as the stations. */
  lemma StationIdsSize(stations: seq<Station>)
    requires forall i, j :: 0 <= i < j < |stations| ==> stations[i].id != stations[j].id
    ensures |StationIds(stations)| == |stations|
  {
    var ids := seq(|stations|, i requires 0 <= i < |stations| => stations[i].id);
    Sequences.DistinctElements(ids);
    assert StationIds(stations) == set i | 0 <= i < |ids| :: ids[i] by {
      assert forall i :: 0 <= i < |ids| ==> ids[i] == stations[i].id;
    }
  }

  /**
   * For a directory that returns only requested stations, each at most once, the
   * count test is exact: the numbers differ iff some id went unmatched, and then
   * the unknowns are as many as the missing stations.
   */
  lemma CountTestMatchesUnknowns(found: seq<Station>, signals: map<string, Signal>)
    requires forall i :: 0 <= i < |found| ==> found[i].id in signals
    requires forall i, j :: 0 <= i < j < |found| ==> found[i].id != found[j].id
    ensures |UnknownIds(found, signals)| == |signals| - |found|
    ensures |found| != |signals| <==> UnknownIds(found, signals) != {}
  {
    StationIdsSize(found);
    assert StationIds(found) <= signals.Keys;
    assert |signals.Keys - StationIds(found)| == |signals.Keys| - |StationIds(found)|;
  }

  /** The directory of the service's unit test: it finds one station, whatever is asked. */
  function OneStationDirectory(signals: map<string, Signal>): Result<seq<Station>, Fault>
  {
    Success([Station("0-32838-60122", 30.732796, 103.962357)])
  }

  /** The service's unit test: two signals, one known station. The answer comes from that
      station alone with its signal's strength, and cid 60123 is the one unknown. */
  lemma TwoSignalsOneKnown(triangulate: Triangulator)
    ensures
      var request := [Signal("0", "32838", "60122", -78.0), Signal("0", "32838", "60123", -79.0)];
      var station := Station("0-32838-60122", 30.732796, 103.962357);
      && PositionFor(request, OneStationDirectory, triangulate) ==
           Success(triangulate([SignalAwareStation(station, -78.0)]))
      && RecordsUnknowns(request, OneStationDirectory)
      && UnknownIds([station], Dedup(request)) == {"0-32838-60123"}
      && Dedup(request)["0-32838-60123"] == Signal("0", "32838", "60123", -79.0)
  {
    var request := [Signal("0", "32838", "60122", -78.0), Signal("0", "32838", "60123", -79.0)];
    var station := Station("0-32838-60122", 30.732796, 103.962357);
    assert request[..1] == [request[0]];
    var a, b := BuildStationId(request[0]), BuildStationId(request[1]);
    assert a == "0-32838-60122" && b == "0-32838-60123";
    assert Dedup(request) == map[a := request[0], b := request[1]];
    assert [station][0].id == a;
    assert StationIds([station]) == {a};
    assert Pair([station], Dedup(request)) == [SignalAwareStation(station, -78.0)];
  }
}
