/**
 * The consolidated time-only calculator: every ordered pair of depots, the
 * driving time from the provider chosen at construction, failures logged and
 * skipped.
 */
module Time {
  import opened Wrappers
  import opened Providers
  import opened Depots
  import opened Pairs
  import opened BestEffort

  /** `_get_driving_time`: ask the backend chosen at construction and classify its reply. */
  function DrivingTime<M>(provider: Provider, net: Network<M>, origin: string, destination: string)
    : Result<M, ProviderError>
  {
    match provider
    case MapQuest => MapQuestTime(net.mapquest(origin, destination))
    case Google => GoogleTime(net.google(origin, destination))
  }

  /** The try-block of the loop for one pair: a record on success, a log entry on failure. */
  function Attempt<M>(provider: Provider, net: Network<M>): (Depot, Depot) -> Result<TimeRecord<M>, LogEntry> {
    (depot1: Depot, depot2: Depot) =>
      match DrivingTime(provider, net, depot1.address, depot2.address)
      case Success(time) => Success(TimeRecord(depot1, depot2, time))
      case Failure(e) => Failure(LogEntry(depot1.designation, depot2.designation, e))
  }

  function PairOutcomes<M>(provider: Provider, net: Network<M>, depots: seq<Depot>, testLimit: Option<int>)
    : seq<Result<TimeRecord<M>, LogEntry>>
  {
    Outcomes(depots, PermutationPairs(|depots|, testLimit), Attempt(provider, net))
  }

  /** The rows `calculate_times` returns. */
  function Matrix<M>(provider: Provider, net: Network<M>, depots: seq<Depot>, testLimit: Option<int>)
    : seq<TimeRecord<M>>
  {
    Successes(PairOutcomes(provider, net, depots, testLimit))
  }

  /** The errors `calculate_times` logs. */
  function ErrorLog<M>(provider: Provider, net: Network<M>, depots: seq<Depot>, testLimit: Option<int>)
    : seq<LogEntry>
  {
    Failures(PairOutcomes(provider, net, depots, testLimit))
  }

  class TimeCalculator {
    const apiKey: string
    const provider: Provider

    constructor (apiKey: string, provider: Provider)
      ensures this.apiKey == apiKey && this.provider == provider
    {
      this.apiKey := apiKey;
      this.provider := provider;
    }

    /** `TimeCalculator(api_key, provider)`: raises unless the lower-cased name is a known provider. */
    static method Create(apiKey: string, providerName: string) returns (r: Result<TimeCalculator, ConfigError>)
      ensures r.Success? <==> ParseProvider(providerName).Success?
      ensures r.Success? ==> r.value.provider == ParseProvider(providerName).value && r.value.apiKey == apiKey
      ensures r.Failure? ==> r.error == UnsupportedProvider(providerName)
    {
      match ParseProvider(providerName) {
        case Success(provider) =>
          var calculator := new TimeCalculator(apiKey, provider);
          r := Success(calculator);
        case Failure(e) =>
          r := Failure(e);
      }
    }

    /** `calculate_times`: one record per pair whose provider call succeeded, in
      * pair order; one log entry per failed pair; one sleep per record. */
    method CalculateTimes<M>(depots: seq<Depot>, testLimit: Option<int>, net: Network<M>)
      returns (records: seq<TimeRecord<M>>, log: seq<LogEntry>, sleeps: nat)
      ensures records == Matrix(provider, net, depots, testLimit)
      ensures log == ErrorLog(provider, net, depots, testLimit)
      ensures sleeps == |records|
    {
      var depotPairs := Permutations(|depots|);
      if testLimit.Some? {
        depotPairs := SliceTo(depotPairs, testLimit.value);
      }
      assert depotPairs == PermutationPairs(|depots|, testLimit);
      ghost var outcomes := PairOutcomes(provider, net, depots, testLimit);
      records, log, sleeps := [], [], 0;
      for i := 0 to |depotPairs|
        invariant records == Successes(outcomes[..i])
        invariant log == Failures(outcomes[..i])
        invariant sleeps == |records|
      {
        var (idx1, idx2) := depotPairs[i];
        var depot1, depot2 := depots[idx1], depots[idx2];
        PairStep(provider, net, depots, testLimit, i);
        match DrivingTime(provider, net, depot1.address, depot2.address) {
          case Success(time) =>
            records := records + [TimeRecord(depot1, depot2, time)];
            sleeps := sleeps + 1;
          case Failure(e) =>
            log := log + [LogEntry(depot1.designation, depot2.designation, e)];
        }
      }
      assert outcomes[..|depotPairs|] == outcomes;
    }
  }

  /** Processing pair i appends its record or its log entry. */
  lemma PairStep<M>(provider: Provider, net: Network<M>, depots: seq<Depot>, testLimit: Option<int>, i: nat)
    requires i < |PermutationPairs(|depots|, testLimit)|
    ensures var pair := PermutationPairs(|depots|, testLimit)[i];
            var outs := PairOutcomes(provider, net, depots, testLimit);
            var depot1, depot2 := depots[pair.0], depots[pair.1];
            match DrivingTime(provider, net, depot1.address, depot2.address)
            case Success(time) =>
              Successes(outs[..i + 1]) == Successes(outs[..i]) + [TimeRecord(depot1, depot2, time)] &&
              Failures(outs[..i + 1]) == Failures(outs[..i])
            case Failure(e) =>
              Successes(outs[..i + 1]) == Successes(outs[..i]) &&
              Failures(outs[..i + 1]) == Failures(outs[..i]) + [LogEntry(depot1.designation, depot2.designation, e)]
  {
    var pair := PermutationPairs(|depots|, testLimit)[i];
    var outs := PairOutcomes(provider, net, depots, testLimit);
    Step(outs, i);
    assert outs[i] == Attempt(provider, net)(depots[pair.0], depots[pair.1]);
  }

  /** Record m comes from the m-th successful pair (idx1, idx2): its depot 1 is
    * row idx1, its depot 2 row idx2, its time the provider's answer for that
    * ordered pair; the pairs used increase, and no successful pair is left out. */
  lemma RecordsFollowPairs<M>(provider: Provider, net: Network<M>, depots: seq<Depot>, testLimit: Option<int>)
    ensures var pairs := PermutationPairs(|depots|, testLimit);
            var rows := Matrix(provider, net, depots, testLimit);
            var pos := SuccessPositions(PairOutcomes(provider, net, depots, testLimit));
            |pos| == |rows| &&
            (forall a, b :: 0 <= a < b < |pos| ==> pos[a] < pos[b]) &&
            (forall m :: 0 <= m < |rows| ==>
               pos[m] < |pairs| &&
               rows[m].depot1 == depots[pairs[pos[m]].0] && rows[m].depot2 == depots[pairs[pos[m]].1] &&
               DrivingTime(provider, net, rows[m].depot1.address, rows[m].depot2.address) == Success(rows[m].time)) &&
            (forall k ::
               (0 <= k < |pairs| &&
                DrivingTime(provider, net, depots[pairs[k].0].address, depots[pairs[k].1].address).Success?) ==>
               k in pos)
  {
    var outs := PairOutcomes(provider, net, depots, testLimit);
    SuccessPositionsFacts(outs);
  }

  /** Only the selected backend is consulted: replies of the other one never affect the result. */
  lemma OnlySelectedBackendConsulted<M>(provider: Provider, net1: Network<M>, net2: Network<M>,
                                        depots: seq<Depot>, testLimit: Option<int>)
    requires provider == MapQuest ==> forall o, d :: net1.mapquest(o, d) == net2.mapquest(o, d)
    requires provider == Google ==> forall o, d :: net1.google(o, d) == net2.google(o, d)
    ensures Matrix(provider, net1, depots, testLimit) == Matrix(provider, net2, depots, testLimit)
    ensures ErrorLog(provider, net1, depots, testLimit) == ErrorLog(provider, net2, depots, testLimit)
  {
    var outs1, outs2 := PairOutcomes(provider, net1, depots, testLimit), PairOutcomes(provider, net2, depots, testLimit);
    assert forall k :: 0 <= k < |outs1| ==> outs1[k] == outs2[k];
    assert outs1 == outs2;
  }
}
