/**
 * The MapQuest-only time calculator: every ordered pair of depots, the
 * driving time from the MapQuest directions service, failures logged and skipped.
 */
module MapQuestCalculator {
  import opened Wrappers
  import opened Providers
  import opened Depots
  import opened Pairs
  import opened BestEffort

  /** The MapQuest directions service, as a function of (origin, destination). */
  type Directions<M> = (string, string) -> Reply<MapQuestBody<M>>

  /** The try-block of the loop for one pair: a record on success, a log entry on failure. */
  function Attempt<M>(directions: Directions<M>): (Depot, Depot) -> Result<TimeRecord<M>, LogEntry> {
    (depot1: Depot, depot2: Depot) =>
      match MapQuestTime(directions(depot1.address, depot2.address))
      case Success(time) => Success(TimeRecord(depot1, depot2, time))
      case Failure(e) => Failure(LogEntry(depot1.designation, depot2.designation, e))
  }

  function PairOutcomes<M>(directions: Directions<M>, depots: seq<Depot>, testLimit: Option<int>)
    : seq<Result<TimeRecord<M>, LogEntry>>
  {
    Outcomes(depots, PermutationPairs(|depots|, testLimit), Attempt(directions))
  }

  /** The rows `calculate_times` returns. */
  function Matrix<M>(directions: Directions<M>, depots: seq<Depot>, testLimit: Option<int>): seq<TimeRecord<M>> {
    Successes(PairOutcomes(directions, depots, testLimit))
  }

  /** The errors `calculate_times` logs. */
  function ErrorLog<M>(directions: Directions<M>, depots: seq<Depot>, testLimit: Option<int>): seq<LogEntry> {
    Failures(PairOutcomes(directions, depots, testLimit))
  }

  class TimeCalculator {
    const mapquestKey: string

    constructor (apiKey: string)
      ensures mapquestKey == apiKey
    {
      mapquestKey := apiKey;
    }

    /** `calculate_times`: one record per pair whose MapQuest call succeeded, in
      * pair order; one log entry per failed pair; one sleep per record. */
    method CalculateTimes<M>(depots: seq<Depot>, testLimit: Option<int>, directions: Directions<M>)
      returns (records: seq<TimeRecord<M>>, log: seq<LogEntry>, sleeps: nat)
      ensures records == Matrix(directions, depots, testLimit)
      ensures log == ErrorLog(directions, depots, testLimit)
      ensures sleeps == |records|
    {
      var depotPairs := Permutations(|depots|);
      if testLimit.Some? {
        depotPairs := SliceTo(depotPairs, testLimit.value);
      }
      assert depotPairs == PermutationPairs(|depots|, testLimit);
      ghost var outcomes := PairOutcomes(directions, depots, testLimit);
      records, log, sleeps := [], [], 0;
      for i := 0 to |depotPairs|
        invariant records == Successes(outcomes[..i])
        invariant log == Failures(outcomes[..i])
        invariant sleeps == |records|
      {
        var (idx1, idx2) := depotPairs[i];
        var depot1, depot2 := depots[idx1], depots[idx2];
        PairStep(directions, depots, testLimit, i);
        match MapQuestTime(directions(depot1.address, depot2.address)) {
          case Success(time) =>
            records := records + [TimeRecord(depot1, depot2, time)];
            sleeps := sleeps + 1;
          case Failure(e) =>
            log := log + [LogEntry(depot1.designation, depot2.designation, e)];
        }
      }
      assert outcomes[..|depotPairs|] == outcomes;
    }
  }

  /** Processing pair i appends its record or its log entry. */
  lemma PairStep<M>(directions: Directions<M>, depots: seq<Depot>, testLimit: Option<int>, i: nat)
    requires i < |PermutationPairs(|depots|, testLimit)|
    ensures var pair := PermutationPairs(|depots|, testLimit)[i];
            var outs := PairOutcomes(directions, depots, testLimit);
            var depot1, depot2 := depots[pair.0], depots[pair.1];
            match MapQuestTime(directions(depot1.address, depot2.address))
            case Success(time) =>
              Successes(outs[..i + 1]) == Successes(outs[..i]) + [TimeRecord(depot1, depot2, time)] &&
              Failures(outs[..i + 1]) == Failures(outs[..i])
            case Failure(e) =>
              Successes(outs[..i + 1]) == Successes(outs[..i]) &&
              Failures(outs[..i + 1]) == Failures(outs[..i]) + [LogEntry(depot1.designation, depot2.designation, e)]
  {
    var pair := PermutationPairs(|depots|, testLimit)[i];
    var outs := PairOutcomes(directions, depots, testLimit);
    Step(outs, i);
    assert outs[i] == Attempt(directions)(depots[pair.0], depots[pair.1]);
  }

  /** Record m comes from the m-th successful pair (idx1, idx2): depot 1 is row
    * idx1, depot 2 row idx2, and the reply for that ordered pair had status 0
    * and this route time; the pairs used increase, and no successful pair is left out. */
  lemma RecordsFollowPairs<M>(directions: Directions<M>, depots: seq<Depot>, testLimit: Option<int>)
    ensures var pairs := PermutationPairs(|depots|, testLimit);
            var rows := Matrix(directions, depots, testLimit);
            var pos := SuccessPositions(PairOutcomes(directions, depots, testLimit));
            |pos| == |rows| &&
            (forall a, b :: 0 <= a < b < |pos| ==> pos[a] < pos[b]) &&
            (forall m :: 0 <= m < |rows| ==>
               pos[m] < |pairs| &&
               rows[m].depot1 == depots[pairs[pos[m]].0] && rows[m].depot2 == depots[pairs[pos[m]].1] &&
               var reply := directions(rows[m].depot1.address, rows[m].depot2.address);
               reply.Delivered? && MapQuestStatus(reply.body) == Some(0) &&
               reply.body.route.Some? && reply.body.route.value.time == Some(rows[m].time)) &&
            (forall k ::
               (0 <= k < |pairs| &&
                MapQuestTime(directions(depots[pairs[k].0].address, depots[pairs[k].1].address)).Success?) ==>
               k in pos)
  {
    SuccessPositionsFacts(PairOutcomes(directions, depots, testLimit));
  }

  /** A pair whose reply lacks `info.statuscode`, or has one other than 0, is
    * never in the output. It is logged with the status the reply carried, or
    * as a malformed reply when the reply has no `info` at all. */
  lemma NonZeroStatusSkipped<M>(directions: Directions<M>, depots: seq<Depot>, testLimit: Option<int>, k: nat)
    requires k < |PermutationPairs(|depots|, testLimit)|
    requires var p := PermutationPairs(|depots|, testLimit)[k];
             var reply := directions(depots[p.0].address, depots[p.1].address);
             reply.Delivered? && MapQuestStatus(reply.body) != Some(0)
    ensures k !in SuccessPositions(PairOutcomes(directions, depots, testLimit))
    ensures PairOutcomes(directions, depots, testLimit)[k].Failure?
    ensures var p := PermutationPairs(|depots|, testLimit)[k];
            var body := directions(depots[p.0].address, depots[p.1].address).body;
            PairOutcomes(directions, depots, testLimit)[k].error.error ==
              (if body.info.None? then MalformedResponse else MapQuestStatusError(MapQuestStatus(body)))
  {
    var outs := PairOutcomes(directions, depots, testLimit);
    SuccessPositionsFacts(outs);
  }
}
