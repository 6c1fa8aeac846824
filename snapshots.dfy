/** Values shared by the metric collector, the analysis engine and the legacy classifier. */
module Snapshots {

  datatype Option<T> = None | Some(value: T)

  /** How a component is wrapped for measurement. */
  datatype BoundaryType = HOC | INLINE

  /**
   * One aggregated timing sample of a component. Numbers are modelled as reals.
   * Snapshots produced by the collector carry no boundary type, hence the Option.
   */
  datatype Snapshot = Snapshot(
    component: string,
    renders: real,
    avgTime: real,
    maxTime: real,
    boundaryType: Option<BoundaryType>)

  /** The numeric snapshot fields a rule may name. */
  datatype Field = Renders | AvgTime | MaxTime

  /** `snapshot[field]` */
  function FieldValue(s: Snapshot, f: Field): real
  {
    match f
    case Renders => s.renders
    case AvgTime => s.avgTime
    case MaxTime => s.maxTime
  }

  /** `snapshot.boundaryType || "HOC"`: a snapshot without a boundary type counts as HOC. */
  function Boundary(s: Snapshot): BoundaryType
  {
    match s.boundaryType
    case None => HOC
    case Some(b) => b
  }

  /** The sum of a list of numbers, added left to right. */
  function Sum(v: seq<real>): real
  {
    if v == [] then 0.0 else Sum(v[..|v| - 1]) + v[|v| - 1]
  }

  ghost predicate Distinct<T>(xs: seq<T>)
  {
    forall i, j :: 0 <= i < j < |xs| ==> xs[i] != xs[j]
  }
}
