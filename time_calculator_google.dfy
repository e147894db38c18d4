/**
 * The older Google-only time calculator: unordered pairs of depots (each pair
 * once, lower row position first), the driving time from the Google distance
 * matrix service, failures logged and skipped.
 */
module GoogleCalculator {
  import opened Wrappers
  import opened Providers
  import opened Depots
  import opened Pairs
  import opened BestEffort

  /** The Google distance-matrix service, as a function of (origin, destination). */
  type DistanceMatrix<M> = (string, string) -> Reply<GoogleBody<M>>

  /** The try-block of the loop for one pair: a record on success, a log entry on failure. */
  function Attempt<M>(distanceMatrix: DistanceMatrix<M>): (Depot, Depot) -> Result<TimeRecord<M>, LogEntry> {
    (depot1: Depot, depot2: Depot) =>
      match GoogleTime(distanceMatrix(depot1.address, depot2.address))
      case Success(time) => Success(TimeRecord(depot1, depot2, time))
      case Failure(e) => Failure(LogEntry(depot1.designation, depot2.designation, e))
  }

  function PairOutcomes<M>(distanceMatrix: DistanceMatrix<M>, depots: seq<Depot>, testLimit: Option<int>)
    : seq<Result<TimeRecord<M>, LogEntry>>
  {
    Outcomes(depots, CombinationPairs(|depots|, testLimit), Attempt(distanceMatrix))
  }

  /** The rows `calculate_times` returns. */
  function Matrix<M>(distanceMatrix: DistanceMatrix<M>, depots: seq<Depot>, testLimit: Option<int>)
    : seq<TimeRecord<M>>
  {
    Successes(PairOutcomes(distanceMatrix, depots, testLimit))
  }

  /** The errors `calculate_times` logs. */
  function ErrorLog<M>(distanceMatrix: DistanceMatrix<M>, depots: seq<Depot>, testLimit: Option<int>)
    : seq<LogEntry>
  {
    Failures(PairOutcomes(distanceMatrix, depots, testLimit))
  }

  /** The dictionary this calculator appends: its time column is "Driving Time". */
  function Row<M>(r: TimeRecord<M>): (row: map<string, Cell<M>>)
    ensures row.Keys == {Depot1Designation, Depot1Address, Depot2Designation, Depot2Address, DrivingTimeColumn}
    ensures row[DrivingTimeColumn] == Metric(r.time)
    ensures row[Depot1Designation] == Text(r.depot1.designation) && row[Depot2Designation] == Text(r.depot2.designation)
    ensures row[Depot1Address] == Text(r.depot1.address) && row[Depot2Address] == Text(r.depot2.address)
  {
    TimeRowColumns(r, DrivingTimeColumn);
    TimeRow(r, DrivingTimeColumn)
  }

  class TimeCalculator {
    const apiKey: string

    constructor (apiKey: string)
      ensures this.apiKey == apiKey
    {
      this.apiKey := apiKey;
    }

    /** `calculate_times`: one record per unordered pair whose Google call
      * succeeded, in pair order; one log entry per failed pair; one sleep per record. */
    method CalculateTimes<M>(depots: seq<Depot>, testLimit: Option<int>, distanceMatrix: DistanceMatrix<M>)
      returns (records: seq<TimeRecord<M>>, log: seq<LogEntry>, sleeps: nat)
      ensures records == Matrix(distanceMatrix, depots, testLimit)
      ensures log == ErrorLog(distanceMatrix, depots, testLimit)
      ensures sleeps == |records|
    {
      var depotPairs := Combinations(|depots|);
      if testLimit.Some? {
        depotPairs := SliceTo(depotPairs, testLimit.value);
      }
      assert depotPairs == CombinationPairs(|depots|, testLimit);
      ghost var outcomes := PairOutcomes(distanceMatrix, depots, testLimit);
      records, log, sleeps := [], [], 0;
      for i := 0 to |depotPairs|
        invariant records == Successes(outcomes[..i])
        invariant log == Failures(outcomes[..i])
        invariant sleeps == |records|
      {
        var (idx1, idx2) := depotPairs[i];
        var depot1, depot2 := depots[idx1], depots[idx2];
        PairStep(distanceMatrix, depots, testLimit, i);
        match GoogleTime(distanceMatrix(depot1.address, depot2.address)) {
          case Success(time) =>
            records := records + [TimeRecord(depot1, depot2, time)];
            sleeps := sleeps + 1;
          case Failure(e) =>
            log := log + [LogEntry(depot1.designation, depot2.designation, e)];
        }
      }
      assert outcomes[..|depotPairs|] == outcomes;
    }
  }

  /** Processing pair i appends its record or its log entry. */
  lemma PairStep<M>(distanceMatrix: DistanceMatrix<M>, depots: seq<Depot>, testLimit: Option<int>, i: nat)
    requires i < |CombinationPairs(|depots|, testLimit)|
    ensures var pair := CombinationPairs(|depots|, testLimit)[i];
            var outs := PairOutcomes(distanceMatrix, depots, testLimit);
            var depot1, depot2 := depots[pair.0], depots[pair.1];
            match GoogleTime(distanceMatrix(depot1.address, depot2.address))
            case Success(time) =>
              Successes(outs[..i + 1]) == Successes(outs[..i]) + [TimeRecord(depot1, depot2, time)] &&
              Failures(outs[..i + 1]) == Failures(outs[..i])
            case Failure(e) =>
              Successes(outs[..i + 1]) == Successes(outs[..i]) &&
              Failures(outs[..i + 1]) == Failures(outs[..i]) + [LogEntry(depot1.designation, depot2.designation, e)]
  {
    var pair := CombinationPairs(|depots|, testLimit)[i];
    var outs := PairOutcomes(distanceMatrix, depots, testLimit);
    Step(outs, i);
    assert outs[i] == Attempt(distanceMatrix)(depots[pair.0], depots[pair.1]);
  }

  /** Record m comes from the m-th successful pair (idx1, idx2), with idx1 < idx2:
    * depot 1 is row idx1, depot 2 row idx2, and the reply's single element had
    * status "OK" and this duration; the pairs used increase, so no two records
    * share a pair in either direction, and no successful pair is left out. */
  lemma RecordsFollowPairs<M>(distanceMatrix: DistanceMatrix<M>, depots: seq<Depot>, testLimit: Option<int>)
    ensures var pairs := CombinationPairs(|depots|, testLimit);
            var rows := Matrix(distanceMatrix, depots, testLimit);
            var pos := SuccessPositions(PairOutcomes(distanceMatrix, depots, testLimit));
            |pos| == |rows| &&
            (forall a, b :: 0 <= a < b < |pos| ==> pos[a] < pos[b]) &&
            (forall m :: 0 <= m < |rows| ==>
               pos[m] < |pairs| && pairs[pos[m]].0 < pairs[pos[m]].1 &&
               rows[m].depot1 == depots[pairs[pos[m]].0] && rows[m].depot2 == depots[pairs[pos[m]].1] &&
               var reply := distanceMatrix(rows[m].depot1.address, rows[m].depot2.address);
               GoogleChecked(reply).Success? &&
               reply.body.rows[0].elements[0].status == Some("OK") &&
               reply.body.rows[0].elements[0].duration == Some(rows[m].time)) &&
            (forall k ::
               (0 <= k < |pairs| &&
                GoogleTime(distanceMatrix(depots[pairs[k].0].address, depots[pairs[k].1].address)).Success?) ==>
               k in pos)
  {
    SuccessPositionsFacts(PairOutcomes(distanceMatrix, depots, testLimit));
    CombinationPairsOrdered(|depots|, testLimit);
  }

  /** No ordered pair is processed in both directions: the processed pairs are
    * distinct, and the reverse of a processed pair is never processed. */
  lemma PairsNotRepeatedReversed(n: nat, testLimit: Option<int>)
    ensures var pairs := CombinationPairs(n, testLimit);
            forall a, b :: 0 <= a < |pairs| && 0 <= b < |pairs| ==>
              pairs[a] != (pairs[b].1, pairs[b].0) && (a != b ==> pairs[a] != pairs[b])
  {
    var pairs := CombinationPairs(n, testLimit);
    CombinationsFacts(n);
    forall a, b | 0 <= a < |pairs| && 0 <= b < |pairs|
      ensures pairs[a] != (pairs[b].1, pairs[b].0) && (a != b ==> pairs[a] != pairs[b])
    {
      assert pairs[a] == Combinations(n)[a] && pairs[b] == Combinations(n)[b];
    }
  }
}
