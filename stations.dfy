/**
 * The station directory (`GET /api/stations`, `GET /api/stations/:id`):
 * each stored station is returned with fields derived from its most recent
 * utilization reading: the utilization as a whole percentage, a waiting-time
 * bucket, an availability tier and a recommendation that depends on the
 * hour of the day.
 */
module Stations {
  import opened Wrappers
  import opened Http
  import Js

  datatype Station = Station(
    id: int,
    name: string,
    address: string,
    latitude: real,
    longitude: real,
    city: string,
    totalSlots: int,
    pricePerKwh: real,
    chargingPower: int,
    chargerType: string,
    efficiencyRating: real,
    amenities: seq<string>,
    isActive: bool,
    createdAt: int)

  /** A stored station with the utilization of its latest log row, if the query found one. */
  datatype StationRow = StationRow(station: Station, latestUtilization: Option<real>)

  /** What the directory returns for one station: the stored fields and the derived ones. */
  datatype StationView = StationView(
    station: Station,
    currentUtilization: int,
    estimatedWait: string,
    availabilityStatus: string,
    aiRecommendation: string)

  const DefaultUtilization: real := 0.3

  const NoWait := "No wait"
  const ShortWait := "5-10 mins"
  const MediumWait := "10-15 mins"
  const LongWait := "15+ mins"

  const Available := "Available"
  const Moderate := "Moderate"
  const Busy := "Busy"

  const PeakMessage := "Peak hours - Consider charging after 9 PM for 20% savings"
  const OffPeakMessage := "Perfect time! Off-peak rates - Save up to 30%"

  /** The utilization a station is described by: the logged one, or 0.3 when no row was found. */
  function Utilization(latest: Option<real>): (u: real)
    ensures latest.Some? ==> u == latest.value
    ensures latest.None? ==> u == DefaultUtilization
  {
    match latest
    case Some(u) => u
    case None => DefaultUtilization
  }

  /** `calculateWaitTime`: thresholds at 0.3, 0.6 and 0.8. */
  function EstimatedWait(u: real): (w: string)
    ensures w == NoWait <==> u < 0.3
    ensures w == ShortWait <==> 0.3 <= u < 0.6
    ensures w == MediumWait <==> 0.6 <= u < 0.8
    ensures w == LongWait <==> 0.8 <= u
  {
    if u < 0.3 then NoWait
    else if u < 0.6 then ShortWait
    else if u < 0.8 then MediumWait
    else LongWait
  }

  /** The position of a waiting-time bucket, shortest first. */
  function WaitRank(w: string): nat
  {
    if w == NoWait then 0
    else if w == ShortWait then 1
    else if w == MediumWait then 2
    else 3
  }

  /** A busier station never gets a shorter waiting-time bucket. */
  lemma EstimatedWaitMonotone(u1: real, u2: real)
    requires u1 <= u2
    ensures WaitRank(EstimatedWait(u1)) <= WaitRank(EstimatedWait(u2))
  {
  }

  /** `getAvailabilityStatus`: thresholds at 0.5 and 0.8. */
  function AvailabilityStatus(u: real): (s: string)
    ensures s == Available <==> u < 0.5
    ensures s == Moderate <==> 0.5 <= u < 0.8
    ensures s == Busy <==> 0.8 <= u
  {
    if u < 0.5 then Available
    else if u < 0.8 then Moderate
    else Busy
  }

  /** `getAIRecommendation`: the peak hours 18 to 21 are tested first, then the off-peak ones. */
  function Recommendation(efficiency: real, hour: int): (msg: string)
    ensures 18 <= hour <= 21 ==> msg == PeakMessage
    ensures (hour >= 22 || hour <= 6) && !(18 <= hour <= 21) ==> msg == OffPeakMessage
    ensures 7 <= hour <= 17 ==>
      msg == "Good efficiency (" + Js.NumberToString(Js.Round(efficiency * 100.0)) + "%) - Expected fast charging"
  {
    if 18 <= hour <= 21 then PeakMessage
    else if hour >= 22 || hour <= 6 then OffPeakMessage
    else "Good efficiency (" + Js.NumberToString(Js.Round(efficiency * 100.0)) + "%) - Expected fast charging"
  }

  /** The per-station mapping shared by both handlers. */
  function Describe(row: StationRow, hour: int): (v: StationView)
    ensures v.station == row.station
    ensures v.currentUtilization == Js.Round(Utilization(row.latestUtilization) * 100.0)
    ensures v.estimatedWait == EstimatedWait(Utilization(row.latestUtilization))
    ensures v.availabilityStatus == AvailabilityStatus(Utilization(row.latestUtilization))
    ensures v.aiRecommendation == Recommendation(row.station.efficiencyRating, hour)
  {
    var u := Utilization(row.latestUtilization);
    StationView(row.station, Js.Round(u * 100.0), EstimatedWait(u), AvailabilityStatus(u),
                Recommendation(row.station.efficiencyRating, hour))
  }

  /** `GET /`: one description per stored station, in the stored order. */
  function ListStations(rows: seq<StationRow>, hour: int): (r: seq<StationView>)
    ensures |r| == |rows|
    ensures forall i :: 0 <= i < |rows| ==> r[i] == Describe(rows[i], hour)
  {
    if rows == [] then [] else [Describe(rows[0], hour)] + ListStations(rows[1..], hour)
  }

  /** `GET /:id`: 400 for an id `parseInt` cannot read, 404 for an unknown station. */
  function GetStation(rows: map<int, StationRow>, idParam: string, hour: int): (r: Response<StationView>)
    ensures Js.ParseInt(idParam).None? ==> r == Err(BadRequest, "Invalid station ID")
    ensures Js.ParseInt(idParam).Some? && Js.ParseInt(idParam).value !in rows ==>
      r == Err(NotFound, "Station not found")
    ensures r.Ok? <==> Js.ParseInt(idParam).Some? && Js.ParseInt(idParam).value in rows
    ensures r.Ok? ==>
      && Js.ParseInt(idParam).Some?
      && Js.ParseInt(idParam).value in rows
      && r.value == Describe(rows[Js.ParseInt(idParam).value], hour)
  {
    match Js.ParseInt(idParam)
    case None => Err(BadRequest, "Invalid station ID")
    case Some(id) =>
      if id !in rows then Err(NotFound, "Station not found")
      else Ok(Describe(rows[id], hour))
  }

  /**
   * A station with no utilization row is described as 30% used, which is
   * "Available" but already past the "No wait" bucket, since 0.3 is not
   * below 0.3.
   */
  lemma DefaultDescription(st: Station, hour: int)
    ensures Describe(StationRow(st, None), hour).currentUtilization == 30
    ensures Describe(StationRow(st, None), hour).availabilityStatus == Available
    ensures Describe(StationRow(st, None), hour).estimatedWait == ShortWait
  {
  }

  /** The tier is always one of the three labels the web client knows. */
  lemma AvailabilityStatusIsLabel(u: real)
    ensures AvailabilityStatus(u) in {Available, Moderate, Busy}
  {
  }

  /** A numeric id reads back through `parseInt`, so a stored station is always found. */
  lemma GetStationById(rows: map<int, StationRow>, id: int, hour: int)
    requires id in rows
    ensures GetStation(rows, Js.NumberToString(id), hour) == Ok(Describe(rows[id], hour))
  {
    Js.ParseIntOfNumberToString(id);
  }
}
