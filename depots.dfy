/**
 * Depots and the records the calculators produce. A depot row is read from
 * the input sheet; a record is one row of the output table.
 */
module Depots {
  import opened Providers

  /** One row of the depot sheet: its "Depot Designation" and "Depot Address". */
  datatype Depot = Depot(designation: string, address: string)

  /** One output row of the time-and-distance calculator. */
  datatype TimeDistanceRecord<M> = TimeDistanceRecord(depot1: Depot, depot2: Depot, time: M, distance: M)

  /** One output row of the time-only calculators. */
  datatype TimeRecord<M> = TimeRecord(depot1: Depot, depot2: Depot, time: M)

  /** What the calculators log when a pair fails, before skipping it. */
  datatype LogEntry = LogEntry(designation1: string, designation2: string, error: ProviderError)

  function DropDistance<M>(r: TimeDistanceRecord<M>): TimeRecord<M> {
    TimeRecord(r.depot1, r.depot2, r.time)
  }

  /** A cell of an output row. */
  datatype Cell<M> = Text(text: string) | Metric(value: M)

  const Depot1Designation := "Depot 1 Designation"
  const Depot1Address := "Depot 1 Address"
  const Depot2Designation := "Depot 2 Designation"
  const Depot2Address := "Depot 2 Address"
  const DrivingTimeMinutesColumn := "Driving Time (minutes)"
  const DrivingDistanceMilesColumn := "Driving Distance (miles)"
  /** The time column of the Google-only calculator. */
  const DrivingTimeColumn := "Driving Time"

  /** The dictionary appended for a time-and-distance record. */
  function TimeDistanceRow<M>(r: TimeDistanceRecord<M>): map<string, Cell<M>> {
    map[Depot1Designation := Text(r.depot1.designation),
        Depot1Address := Text(r.depot1.address),
        Depot2Designation := Text(r.depot2.designation),
        Depot2Address := Text(r.depot2.address),
        DrivingTimeMinutesColumn := Metric(r.time),
        DrivingDistanceMilesColumn := Metric(r.distance)]
  }

  /** The dictionary appended for a time-only record, under the given time column. */
  function TimeRow<M>(r: TimeRecord<M>, timeColumn: string): map<string, Cell<M>> {
    map[Depot1Designation := Text(r.depot1.designation),
        Depot1Address := Text(r.depot1.address),
        Depot2Designation := Text(r.depot2.designation),
        Depot2Address := Text(r.depot2.address),
        timeColumn := Metric(r.time)]
  }

  /** Dropping the distance column from a time-and-distance row leaves exactly
    * the row a time-only calculator writes for the same pair and time. */
  lemma DropDistanceColumn<M>(r: TimeDistanceRecord<M>)
    ensures TimeDistanceRow(r) - {DrivingDistanceMilesColumn} == TimeRow(DropDistance(r), DrivingTimeMinutesColumn)
  {
    var dropped := TimeDistanceRow(r) - {DrivingDistanceMilesColumn};
    var expected := TimeRow(DropDistance(r), DrivingTimeMinutesColumn);
    assert dropped.Keys == expected.Keys;
    assert forall k :: k in dropped.Keys ==> dropped[k] == expected[k];
  }

  /** A time-only row has the four depot columns and the time column, and
    * nothing else, when the time column is not one of the depot columns. */
  lemma TimeRowColumns<M>(r: TimeRecord<M>, timeColumn: string)
    requires timeColumn !in {Depot1Designation, Depot1Address, Depot2Designation, Depot2Address}
    ensures TimeRow(r, timeColumn).Keys ==
              {Depot1Designation, Depot1Address, Depot2Designation, Depot2Address, timeColumn}
    ensures TimeRow(r, timeColumn)[timeColumn] == Metric(r.time)
    ensures TimeRow(r, timeColumn)[Depot1Designation] == Text(r.depot1.designation)
    ensures TimeRow(r, timeColumn)[Depot2Designation] == Text(r.depot2.designation)
    ensures TimeRow(r, timeColumn)[Depot1Address] == Text(r.depot1.address)
    ensures TimeRow(r, timeColumn)[Depot2Address] == Text(r.depot2.address)
  {
  }
}
