/**
 * The time-and-distance calculator: every ordered pair of depots, driving
 * time and distance from the provider chosen at construction, failures logged
 * and skipped; plus its deprecated time-only entry point.
 */
module TimeDistance {
  import opened Wrappers
  import opened Providers
  import opened Depots
  import opened Pairs
  import opened BestEffort
  import Time

  /** `_get_driving_info`: ask the backend chosen at construction and classify its reply. */
  function DrivingInfo<M>(provider: Provider, net: Network<M>, origin: string, destination: string)
    : Result<RouteInfo<M>, ProviderError>
  {
    match provider
    case MapQuest => MapQuestRouteInfo(net.mapquest(origin, destination))
    case Google => GoogleRouteInfo(net.google(origin, destination))
  }

  /** The try-block of the loop for one pair: a record on success, a log entry on failure. */
  function Attempt<M>(provider: Provider, net: Network<M>)
    : (Depot, Depot) -> Result<TimeDistanceRecord<M>, LogEntry>
  {
    (depot1: Depot, depot2: Depot) =>
      match DrivingInfo(provider, net, depot1.address, depot2.address)
      case Success(info) => Success(TimeDistanceRecord(depot1, depot2, info.time, info.distance))
      case Failure(e) => Failure(LogEntry(depot1.designation, depot2.designation, e))
  }

  function PairOutcomes<M>(provider: Provider, net: Network<M>, depots: seq<Depot>, testLimit: Option<int>)
    : seq<Result<TimeDistanceRecord<M>, LogEntry>>
  {
    Outcomes(depots, PermutationPairs(|depots|, testLimit), Attempt(provider, net))
  }

  /** The rows `calculate_times_and_distances` returns. */
  function Matrix<M>(provider: Provider, net: Network<M>, depots: seq<Depot>, testLimit: Option<int>)
    : seq<TimeDistanceRecord<M>>
  {
    Successes(PairOutcomes(provider, net, depots, testLimit))
  }

  /** The errors `calculate_times_and_distances` logs. */
  function ErrorLog<M>(provider: Provider, net: Network<M>, depots: seq<Depot>, testLimit: Option<int>)
    : seq<LogEntry>
  {
    Failures(PairOutcomes(provider, net, depots, testLimit))
  }

  /** Why dropping a column from a table fails. */
  datatype DropError = ColumnNotFound(column: string)

  /** The deprecated `calculate_times` as written: the DataFrame built from no
    * records has no columns at all, so dropping the distance column raises. */
  function LegacyTimes<M>(rows: seq<TimeDistanceRecord<M>>): (r: Result<seq<TimeRecord<M>>, DropError>)
    ensures r.Failure? <==> rows == []
    ensures r.Success? ==> r.value == Apply(DropDistance, rows)
  {
    if rows == [] then Failure(ColumnNotFound(DrivingDistanceMilesColumn))
    else Success(Apply(DropDistance, rows))
  }

  /** The deprecated `calculate_times` as intended: the same rows without the distance column. */
  function IntendedLegacyTimes<M>(rows: seq<TimeDistanceRecord<M>>): (r: seq<TimeRecord<M>>)
    ensures |r| == |rows|
    ensures forall k :: 0 <= k < |rows| ==>
              TimeRow(r[k], DrivingTimeMinutesColumn) == TimeDistanceRow(rows[k]) - {DrivingDistanceMilesColumn}
  {
    var r := Apply(DropDistance, rows);
    forall k | 0 <= k < |rows|
      ensures TimeRow(r[k], DrivingTimeMinutesColumn) == TimeDistanceRow(rows[k]) - {DrivingDistanceMilesColumn}
    {
      DropDistanceColumn(rows[k]);
    }
    r
  }

  /** Processing pair i appends its record or its log entry. */
  lemma PairStep<M>(provider: Provider, net: Network<M>, depots: seq<Depot>, testLimit: Option<int>, i: nat)
    requires i < |PermutationPairs(|depots|, testLimit)|
    ensures var pair := PermutationPairs(|depots|, testLimit)[i];
            var outs := PairOutcomes(provider, net, depots, testLimit);
            var depot1, depot2 := depots[pair.0], depots[pair.1];
            match DrivingInfo(provider, net, depot1.address, depot2.address)
            case Success(info) =>
              Successes(outs[..i + 1]) == Successes(outs[..i]) + [TimeDistanceRecord(depot1, depot2, info.time, info.distance)] &&
              Failures(outs[..i + 1]) == Failures(outs[..i])
            case Failure(e) =>
              Successes(outs[..i + 1]) == Successes(outs[..i]) &&
              Failures(outs[..i + 1]) == Failures(outs[..i]) + [LogEntry(depot1.designation, depot2.designation, e)]
  {
    var pair := PermutationPairs(|depots|, testLimit)[i];
    var outs := PairOutcomes(provider, net, depots, testLimit);
    Step(outs, i);
    assert outs[i] == Attempt(provider, net)(depots[pair.0], depots[pair.1]);
  }

  class TimeDistanceCalculator {
    const apiKey: string
    const provider: Provider

    constructor (apiKey: string, provider: Provider)
      ensures this.apiKey == apiKey && this.provider == provider
    {
      this.apiKey := apiKey;
      this.provider := provider;
    }

    /** `TimeDistanceCalculator(api_key, provider)`: raises unless the lower-cased name is a known provider. */
    static method Create(apiKey: string, providerName: string)
      returns (r: Result<TimeDistanceCalculator, ConfigError>)
      ensures r.Success? <==> ParseProvider(providerName).Success?
      ensures r.Success? ==> r.value.provider == ParseProvider(providerName).value && r.value.apiKey == apiKey
      ensures r.Failure? ==> r.error == UnsupportedProvider(providerName)
    {
      match ParseProvider(providerName) {
        case Success(provider) =>
          var calculator := new TimeDistanceCalculator(apiKey, provider);
          r := Success(calculator);
        case Failure(e) =>
          r := Failure(e);
      }
    }

    /** `calculate_times_and_distances`: one record per pair whose provider call
      * succeeded, in pair order; one log entry per failed pair; one sleep per record. */
    method CalculateTimesAndDistances<M>(depots: seq<Depot>, testLimit: Option<int>, net: Network<M>)
      returns (records: seq<TimeDistanceRecord<M>>, log: seq<LogEntry>, sleeps: nat)
      ensures records == Matrix(provider, net, depots, testLimit)
      ensures log == ErrorLog(provider, net, depots, testLimit)
      ensures sleeps == |records|
    {
      var depotPairs := Permutations(|depots|);
      if testLimit.Some? {
        depotPairs := SliceTo(depotPairs, testLimit.value);
      }
      assert depotPairs == PermutationPairs(|depots|, testLimit);
      ghost var outcomes := PairOutcomes(provider, net, depots, testLimit);
      records, log, sleeps := [], [], 0;
      for i := 0 to |depotPairs|
        invariant records == Successes(outcomes[..i])
        invariant log == Failures(outcomes[..i])
        invariant sleeps == |records|
      {
        var (idx1, idx2) := depotPairs[i];
        var depot1, depot2 := depots[idx1], depots[idx2];
        PairStep(provider, net, depots, testLimit, i);
        match DrivingInfo(provider, net, depot1.address, depot2.address) {
          case Success(info) =>
            records := records + [TimeDistanceRecord(depot1, depot2, info.time, info.distance)];
            sleeps := sleeps + 1;
          case Failure(e) =>
            log := log + [LogEntry(depot1.designation, depot2.designation, e)];
        }
      }
      assert outcomes[..|depotPairs|] == outcomes;
    }

    /** The deprecated `calculate_times`: the time-and-distance rows with the
      * distance column dropped, or the error pandas raises when there is no row. */
    method CalculateTimes<M>(depots: seq<Depot>, testLimit: Option<int>, net: Network<M>)
      returns (r: Result<seq<TimeRecord<M>>, DropError>)
      ensures r == LegacyTimes(Matrix(provider, net, depots, testLimit))
      ensures r.Success? ==> r.value == IntendedLegacyTimes(Matrix(provider, net, depots, testLimit))
    {
      var records, _, _ := CalculateTimesAndDistances(depots, testLimit, net);
      if records == [] {
        r := Failure(ColumnNotFound(DrivingDistanceMilesColumn));
      } else {
        r := Success(Apply(DropDistance, records));
      }
    }
  }

  /** Every processed pair is attempted once: it yields a record or a log entry.
    * At most n * (n - 1) records, and at most k with a limit k >= 0. */
  lemma MatrixSize<M>(provider: Provider, net: Network<M>, depots: seq<Depot>, testLimit: Option<int>)
    ensures |Matrix(provider, net, depots, testLimit)| + |ErrorLog(provider, net, depots, testLimit)| ==
            |PermutationPairs(|depots|, testLimit)|
    ensures |Matrix(provider, net, depots, testLimit)| <= |depots| * (|depots| - 1)
    ensures testLimit.Some? && 0 <= testLimit.value ==> |Matrix(provider, net, depots, testLimit)| <= testLimit.value
  {
    Partition(PairOutcomes(provider, net, depots, testLimit));
    PermutationPairsBound(|depots|, testLimit);
  }

  /** Record m comes from the m-th successful pair (idx1, idx2): its depot 1 is
    * row idx1, its depot 2 row idx2, its time and distance the provider's answer
    * for that ordered pair; the pairs used increase, and no successful pair is left out. */
  lemma RecordsFollowPairs<M>(provider: Provider, net: Network<M>, depots: seq<Depot>, testLimit: Option<int>)
    ensures var pairs := PermutationPairs(|depots|, testLimit);
            var rows := Matrix(provider, net, depots, testLimit);
            var pos := SuccessPositions(PairOutcomes(provider, net, depots, testLimit));
            |pos| == |rows| &&
            (forall a, b :: 0 <= a < b < |pos| ==> pos[a] < pos[b]) &&
            (forall m :: 0 <= m < |rows| ==>
               pos[m] < |pairs| &&
               rows[m].depot1 == depots[pairs[pos[m]].0] && rows[m].depot2 == depots[pairs[pos[m]].1] &&
               DrivingInfo(provider, net, rows[m].depot1.address, rows[m].depot2.address) ==
                 Success(RouteInfo(rows[m].time, rows[m].distance))) &&
            (forall k ::
               (0 <= k < |pairs| &&
                DrivingInfo(provider, net, depots[pairs[k].0].address, depots[pairs[k].1].address).Success?) ==>
               k in pos)
  {
    SuccessPositionsFacts(PairOutcomes(provider, net, depots, testLimit));
  }

  /** The provider answers every pair the loop processes. */
  predicate AnswersProcessedPairs<M>(provider: Provider, net: Network<M>, depots: seq<Depot>, testLimit: Option<int>) {
    var pairs := PermutationPairs(|depots|, testLimit);
    forall k :: 0 <= k < |pairs| ==>
      DrivingInfo(provider, net, depots[pairs[k].0].address, depots[pairs[k].1].address).Success?
  }

  /** The provider fails on every pair the loop processes. */
  predicate FailsProcessedPairs<M>(provider: Provider, net: Network<M>, depots: seq<Depot>, testLimit: Option<int>) {
    var pairs := PermutationPairs(|depots|, testLimit);
    forall k :: 0 <= k < |pairs| ==>
      DrivingInfo(provider, net, depots[pairs[k].0].address, depots[pairs[k].1].address).Failure?
  }

  /** The provider answers from every row to every other row (a row is never paired with itself). */
  predicate AnswersDistinctRows<M>(provider: Provider, net: Network<M>, depots: seq<Depot>) {
    forall i, j :: 0 <= i < |depots| && 0 <= j < |depots| && i != j ==>
      DrivingInfo(provider, net, depots[i].address, depots[j].address).Success?
  }

  /** Every processed pair is a pair of distinct rows, whatever the limit. */
  lemma DistinctRowsCoverProcessedPairs<M>(provider: Provider, net: Network<M>, depots: seq<Depot>, testLimit: Option<int>)
    requires AnswersDistinctRows(provider, net, depots)
    ensures AnswersProcessedPairs(provider, net, depots, testLimit)
  {
    var pairs := PermutationPairs(|depots|, testLimit);
    PermutationsFacts(|depots|);
    forall k | 0 <= k < |pairs|
      ensures pairs[k].0 != pairs[k].1
    {
      assert pairs[k] == Permutations(|depots|)[k];
      assert pairs[k] in Permutations(|depots|);
    }
  }

  /** With a provider that answers every processed pair, there is one
    * record per processed pair, in pair order, and nothing is logged. */
  lemma AllPairsSucceed<M>(provider: Provider, net: Network<M>, depots: seq<Depot>, testLimit: Option<int>)
    requires AnswersProcessedPairs(provider, net, depots, testLimit)
    ensures var pairs := PermutationPairs(|depots|, testLimit);
            var rows := Matrix(provider, net, depots, testLimit);
            |rows| == |pairs| && ErrorLog(provider, net, depots, testLimit) == [] &&
            forall k :: 0 <= k < |rows| ==> rows[k].depot1 == depots[pairs[k].0] && rows[k].depot2 == depots[pairs[k].1]
  {
    var outs := PairOutcomes(provider, net, depots, testLimit);
    AllSucceed(outs);
  }

  /** Some record goes from depot d1 to depot d2. */
  predicate HasRecord<M>(rows: seq<TimeDistanceRecord<M>>, d1: Depot, d2: Depot) {
    exists k :: 0 <= k < |rows| && rows[k].depot1 == d1 && rows[k].depot2 == d2
  }

  /** Every ordered pair of distinct depot rows (i, j) has a record from row i to row j. */
  predicate CoversDistinctRows<M>(rows: seq<TimeDistanceRecord<M>>, depots: seq<Depot>) {
    forall i, j :: 0 <= i < |depots| && 0 <= j < |depots| && i != j ==> HasRecord(rows, depots[i], depots[j])
  }

  /** Without a limit and with a provider that answers every pair of distinct
    * rows, the output has n * (n - 1) records, one for every such ordered pair. */
  lemma CompleteMatrix<M>(provider: Provider, net: Network<M>, depots: seq<Depot>)
    requires AnswersDistinctRows(provider, net, depots)
    ensures |Matrix(provider, net, depots, None)| == |depots| * (|depots| - 1)
    ensures CoversDistinctRows(Matrix(provider, net, depots, None), depots)
  {
    CompleteMatrixSize(provider, net, depots);
    var rows := Matrix(provider, net, depots, None);
    forall i, j | 0 <= i < |depots| && 0 <= j < |depots| && i != j
      ensures HasRecord(rows, depots[i], depots[j])
    {
      var k := RowOfPair(provider, net, depots, i, j);
    }
  }

  lemma CompleteMatrixSize<M>(provider: Provider, net: Network<M>, depots: seq<Depot>)
    requires AnswersDistinctRows(provider, net, depots)
    ensures |Matrix(provider, net, depots, None)| == |depots| * (|depots| - 1)
  {
    DistinctRowsCoverProcessedPairs(provider, net, depots, None);
    AllPairsSucceed(provider, net, depots, None);
    PermutationPairsCount(|depots|, None);
  }

  /** The position of the record for the ordered pair (i, j) when every pair succeeds. */
  lemma RowOfPair<M>(provider: Provider, net: Network<M>, depots: seq<Depot>, i: nat, j: nat) returns (k: nat)
    requires AnswersDistinctRows(provider, net, depots)
    requires i < |depots| && j < |depots| && i != j
    ensures k < |Matrix(provider, net, depots, None)|
    ensures Matrix(provider, net, depots, None)[k].depot1 == depots[i]
    ensures Matrix(provider, net, depots, None)[k].depot2 == depots[j]
  {
    DistinctRowsCoverProcessedPairs(provider, net, depots, None);
    AllPairsSucceed(provider, net, depots, None);
    var pairs := PermutationPairs(|depots|, None);
    assert pairs == Permutations(|depots|);
    PermutationsFacts(|depots|);
    assert (i, j) in pairs;
    k :| k < |pairs| && pairs[k] == (i, j);
  }

  /** With fewer than two depots there is nothing to compute, and nothing fails. */
  lemma FewerThanTwoDepots<M>(provider: Provider, net: Network<M>, depots: seq<Depot>, testLimit: Option<int>)
    requires |depots| < 2
    ensures Matrix(provider, net, depots, testLimit) == [] && ErrorLog(provider, net, depots, testLimit) == []
  {
    NoPairsBelowTwo(|depots|, testLimit);
  }

  /** When the provider fails on exactly one processed pair, that pair alone is
    * missing from the output and is the only log entry. */
  lemma OneFailingPair<M>(provider: Provider, net: Network<M>, depots: seq<Depot>, testLimit: Option<int>, j: nat)
    requires j < |PermutationPairs(|depots|, testLimit)|
    requires var p := PermutationPairs(|depots|, testLimit)[j];
             DrivingInfo(provider, net, depots[p.0].address, depots[p.1].address).Failure?
    requires forall k :: 0 <= k < |PermutationPairs(|depots|, testLimit)| && k != j ==>
               var p := PermutationPairs(|depots|, testLimit)[k];
               DrivingInfo(provider, net, depots[p.0].address, depots[p.1].address).Success?
    ensures |Matrix(provider, net, depots, testLimit)| == |PermutationPairs(|depots|, testLimit)| - 1
    ensures var p := PermutationPairs(|depots|, testLimit)[j];
            ErrorLog(provider, net, depots, testLimit) ==
              [LogEntry(depots[p.0].designation, depots[p.1].designation,
                        DrivingInfo(provider, net, depots[p.0].address, depots[p.1].address).error)]
  {
    OneFailure(PairOutcomes(provider, net, depots, testLimit), j);
  }

  /** Only the selected backend is consulted: replies of the other one never affect the result. */
  lemma OnlySelectedBackendConsulted<M>(provider: Provider, net1: Network<M>, net2: Network<M>,
                                        depots: seq<Depot>, testLimit: Option<int>)
    requires provider == MapQuest ==> forall o, d :: net1.mapquest(o, d) == net2.mapquest(o, d)
    requires provider == Google ==> forall o, d :: net1.google(o, d) == net2.google(o, d)
    ensures Matrix(provider, net1, depots, testLimit) == Matrix(provider, net2, depots, testLimit)
    ensures ErrorLog(provider, net1, depots, testLimit) == ErrorLog(provider, net2, depots, testLimit)
  {
    var outs1, outs2 := PairOutcomes(provider, net1, depots, testLimit), PairOutcomes(provider, net2, depots, testLimit);
    assert forall k :: 0 <= k < |outs1| ==> outs1[k] == outs2[k];
    assert outs1 == outs2;
  }

  /** As written, the deprecated `calculate_times` raises instead of returning an
    * empty table whenever no pair succeeds, e.g. for fewer than two depots. */
  lemma LegacyTimesFailsWithoutRecords<M>(provider: Provider, net: Network<M>, depots: seq<Depot>, testLimit: Option<int>)
    requires |depots| < 2 || FailsProcessedPairs(provider, net, depots, testLimit)
    ensures LegacyTimes(Matrix(provider, net, depots, testLimit)) == Failure(ColumnNotFound(DrivingDistanceMilesColumn))
    ensures IntendedLegacyTimes(Matrix(provider, net, depots, testLimit)) == []
  {
    var outs := PairOutcomes(provider, net, depots, testLimit);
    if |depots| < 2 {
      NoPairsBelowTwo(|depots|, testLimit);
    }
    AllFail(outs);
  }

  /** The intended deprecated `calculate_times` returns what the consolidated
    * time-only calculator returns for the same provider and replies, whenever
    * every reply that carries a time also carries a distance. */
  lemma IntendedLegacyMatchesTimeCalculator<M>(provider: Provider, net: Network<M>, depots: seq<Depot>, testLimit: Option<int>)
    requires forall o, d :: Time.DrivingTime(provider, net, o, d).Success? ==> DrivingInfo(provider, net, o, d).Success?
    ensures IntendedLegacyTimes(Matrix(provider, net, depots, testLimit)) == Time.Matrix(provider, net, depots, testLimit)
  {
    var a, b := PairOutcomes(provider, net, depots, testLimit), Time.PairOutcomes(provider, net, depots, testLimit);
    var pairs := PermutationPairs(|depots|, testLimit);
    forall k | 0 <= k < |a|
      ensures (a[k].Success? <==> b[k].Success?) && (a[k].Success? ==> DropDistance(a[k].value) == b[k].value)
    {
      var o, d := depots[pairs[k].0].address, depots[pairs[k].1].address;
      match provider {
        case MapQuest => MapQuestRouteInfoExtendsTime(net.mapquest(o, d));
        case Google => GoogleRouteInfoExtendsTime(net.google(o, d));
      }
    }
    Correspond(a, b, DropDistance);
  }

  lemma AttemptSucceeds<M>(provider: Provider, net: Network<M>, depot1: Depot, depot2: Depot)
    requires DrivingInfo(provider, net, depot1.address, depot2.address).Success?
    ensures var info := DrivingInfo(provider, net, depot1.address, depot2.address).value;
            Attempt(provider, net)(depot1, depot2) == Success(TimeDistanceRecord(depot1, depot2, info.time, info.distance))
  {
  }

  /** A three-depot example: a MapQuest stub answering every pair with time 5
    * and distance 2 gives six records, (A, B) first and (C, B) last. */
  lemma ThreeDepotExample()
    ensures var a, b, c := Depot("A", "1 Main St"), Depot("B", "2 Oak Ave"), Depot("C", "3 Pine Rd");
            var rows := Matrix(MapQuest, StubNetwork(), [a, b, c], None);
            |rows| == 6 &&
            rows[0] == TimeDistanceRecord(a, b, 5, 2) && rows[5] == TimeDistanceRecord(c, b, 5, 2)
  {
    var a, b, c := Depot("A", "1 Main St"), Depot("B", "2 Oak Ave"), Depot("C", "3 Pine Rd");
    var depots, stub := [a, b, c], StubNetwork();
    StubAnswers(a, b);
    StubAnswers(c, b);
    PermutationsOfThree();
    var outs := PairOutcomes(MapQuest, stub, depots, None);
    assert outs[0] == Attempt(MapQuest, stub)(a, b);
    assert outs[5] == Attempt(MapQuest, stub)(c, b);
    AttemptSucceeds(MapQuest, stub, a, b);
    AttemptSucceeds(MapQuest, stub, c, b);
    forall k | 0 <= k < |outs|
      ensures outs[k].Success?
    {
      var p := PermutationPairs(3, None)[k];
      StubAnswers(depots[p.0], depots[p.1]);
      AttemptSucceeds(MapQuest, stub, depots[p.0], depots[p.1]);
    }
    AllSucceed(outs);
  }

  /** A MapQuest stub that answers every request with status 0, time 5 and distance 2. */
  function StubNetwork(): Network<int> {
    Network((o: string, d: string) => Delivered(MapQuestBody(Some(MapQuestInfo(Some(0))), Some(MapQuestRoute(Some(5), Some(2))))),
            (o: string, d: string) => TransportFailure)
  }

  lemma StubAnswers(depot1: Depot, depot2: Depot)
    ensures DrivingInfo(MapQuest, StubNetwork(), depot1.address, depot2.address) == Success(RouteInfo(5, 2))
  {
  }

  lemma PermutationsOfThree()
    ensures PermutationPairs(3, None) == [(0, 1), (0, 2), (1, 0), (1, 2), (2, 0), (2, 1)]
  {
    assert PermutationRow(0, 3) == [(0, 1), (0, 2)];
    assert PermutationRow(1, 3) == [(1, 0), (1, 2)];
    assert PermutationRow(2, 3) == [(2, 0), (2, 1)];
    assert PermutationsFrom(3, 3) == [];
    assert PermutationsFrom(0, 3) == PermutationRow(0, 3) + PermutationRow(1, 3) + PermutationRow(2, 3) + [];
  }
}
