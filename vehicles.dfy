/**
 * The vehicle registry (`/api/vehicles`, behind the authentication
 * middleware): a user's vehicles listed primary first and newest first, a
 * create that fills in defaults, and the designation of one vehicle as the
 * user's primary one. Both writes clear the user's primary flags before
 * setting one, so each user keeps at most one primary vehicle.
 */
module Vehicles {
  import opened Wrappers
  import opened Http
  import Js
  import Ordering
  import AuthMiddleware

  datatype Vehicle = Vehicle(
    id: int,
    userId: int,
    make: string,
    model: string,
    year: int,
    color: Option<string>,
    licensePlate: Option<string>,
    batteryCapacity: real,
    chargingEfficiency: real,
    maxChargingPower: int,
    vehicleRange: int,
    chargingCurveType: string,
    isPrimary: bool,
    createdAt: int)

  /** The body of `POST /`; `isPrimary` is already `Boolean(is_primary)`. */
  datatype VehicleInput = VehicleInput(
    make: Option<string>,
    model: Option<string>,
    year: Option<int>,
    color: Option<string>,
    licensePlate: Option<string>,
    batteryCapacity: Option<real>,
    chargingEfficiency: Option<real>,
    maxChargingPower: Option<int>,
    vehicleRange: Option<int>,
    chargingCurveType: Option<string>,
    isPrimary: bool)

  const AuthRequired := "Authentication required"
  const MissingFields := "Make, model, year, and battery capacity are required"
  const InvalidId := "Invalid vehicle ID"
  const NotOwned := "Vehicle not found or does not belong to user"

  const DefaultEfficiency: real := 0.90
  const DefaultMaxPower := 50
  const DefaultRange := 400
  const DefaultCurve := "standard"

  /** The ids of the primary vehicles of user `uid`. */
  function PrimaryIds(rows: map<int, Vehicle>, uid: int): set<int>
  {
    set k | k in rows && rows[k].userId == uid && rows[k].isPrimary
  }

  /** At most one primary vehicle per user. */
  ghost predicate SinglePrimary(rows: map<int, Vehicle>)
  {
    forall a, b ::
      a in rows && b in rows && rows[a].isPrimary && rows[b].isPrimary && rows[a].userId == rows[b].userId
      ==> a == b
  }

  /** Every row of `rows` that user `uid` does not own is in `rows'` unchanged. */
  ghost predicate OthersUnchanged(rows: map<int, Vehicle>, rows': map<int, Vehicle>, uid: int)
  {
    forall k :: k in rows && rows[k].userId != uid ==> k in rows' && rows'[k] == rows[k]
  }

  /**
   * `updateMany({ where: { user_id, is_primary: true }, data: { is_primary: false } })`:
   * no vehicle of the user stays primary; only that flag changes, and only on the user's rows.
   */
  function ClearPrimary(rows: map<int, Vehicle>, uid: int): (r: map<int, Vehicle>)
    ensures r.Keys == rows.Keys
    ensures PrimaryIds(r, uid) == {}
    ensures forall k :: k in rows ==> r[k].(isPrimary := rows[k].isPrimary) == rows[k]
    ensures OthersUnchanged(rows, r, uid)
  {
    map k | k in rows :: if rows[k].userId == uid then rows[k].(isPrimary := false) else rows[k]
  }

  /** Clearing the user's flags, then setting the one on `id`. */
  function SetPrimaryRows(rows: map<int, Vehicle>, uid: int, id: int): (r: map<int, Vehicle>)
    requires id in rows && rows[id].userId == uid
    ensures r.Keys == rows.Keys
    ensures PrimaryIds(r, uid) == {id}
    ensures forall k :: k in rows ==> r[k].(isPrimary := rows[k].isPrimary) == rows[k]
    ensures OthersUnchanged(rows, r, uid)
  {
    var cleared := ClearPrimary(rows, uid);
    var r := cleared[id := cleared[id].(isPrimary := true)];
    assert PrimaryIds(r, uid) == {id} by {
      assert forall k :: k in PrimaryIds(r, uid) ==> k == id;
    }
    r
  }

  /** Setting the same primary twice leaves the table as the first call left it. */
  lemma SetPrimaryIdempotent(rows: map<int, Vehicle>, uid: int, id: int)
    requires id in rows && rows[id].userId == uid
    ensures SetPrimaryRows(SetPrimaryRows(rows, uid, id), uid, id) == SetPrimaryRows(rows, uid, id)
  {
    var once := SetPrimaryRows(rows, uid, id);
    var twice := SetPrimaryRows(once, uid, id);
    forall k | k in rows ensures twice[k] == once[k] {
      if k != id && rows[k].userId == uid {
        assert k !in PrimaryIds(once, uid);
        assert k !in PrimaryIds(twice, uid);
      }
    }
  }

  /** A set-primary keeps every user at no more than one primary vehicle. */
  lemma SetPrimaryKeepsSinglePrimary(rows: map<int, Vehicle>, uid: int, id: int)
    requires id in rows && rows[id].userId == uid
    requires SinglePrimary(rows)
    ensures SinglePrimary(SetPrimaryRows(rows, uid, id))
  {
    var r := SetPrimaryRows(rows, uid, id);
    forall a, b | a in r && b in r && r[a].isPrimary && r[b].isPrimary && r[a].userId == r[b].userId
      ensures a == b
    {
      if r[a].userId == uid {
        assert a in PrimaryIds(r, uid) && b in PrimaryIds(r, uid);
      } else {
        assert r[a] == rows[a] && r[b] == rows[b];
      }
    }
  }

  /** `!make || !model || !year || !battery_capacity` fails. */
  predicate RequiredPresent(input: VehicleInput)
  {
    Js.TruthyString(input.make) && Js.TruthyString(input.model)
    && Js.TruthyInt(input.year) && Js.TruthyReal(input.batteryCapacity)
  }

  /** The row `POST /` creates, with the defaults for the optional fields. */
  function NewVehicle(id: int, uid: int, input: VehicleInput, now: int): (v: Vehicle)
    requires RequiredPresent(input)
    ensures v.id == id && v.userId == uid && v.createdAt == now && v.isPrimary == input.isPrimary
    ensures v.make == input.make.value && v.model == input.model.value && v.year == input.year.value
    ensures v.batteryCapacity == input.batteryCapacity.value
    ensures v.color.Some? <==> Js.TruthyString(input.color)
    ensures v.color.Some? ==> v.color == input.color && v.color.value != ""
    ensures v.licensePlate.Some? <==> Js.TruthyString(input.licensePlate)
    ensures v.licensePlate.Some? ==> v.licensePlate == input.licensePlate && v.licensePlate.value != ""
    ensures v.chargingEfficiency == if Js.TruthyReal(input.chargingEfficiency) then input.chargingEfficiency.value else DefaultEfficiency
    ensures v.maxChargingPower == if Js.TruthyInt(input.maxChargingPower) then input.maxChargingPower.value else DefaultMaxPower
    ensures v.vehicleRange == if Js.TruthyInt(input.vehicleRange) then input.vehicleRange.value else DefaultRange
    ensures v.chargingCurveType == if Js.TruthyString(input.chargingCurveType) then input.chargingCurveType.value else DefaultCurve
    ensures v.chargingCurveType != ""
  {
    Vehicle(
      id, uid, input.make.value, input.model.value, input.year.value,
      if Js.TruthyString(input.color) then input.color else None,
      if Js.TruthyString(input.licensePlate) then input.licensePlate else None,
      input.batteryCapacity.value,
      if Js.TruthyReal(input.chargingEfficiency) then input.chargingEfficiency.value else DefaultEfficiency,
      if Js.TruthyInt(input.maxChargingPower) then input.maxChargingPower.value else DefaultMaxPower,
      if Js.TruthyInt(input.vehicleRange) then input.vehicleRange.value else DefaultRange,
      if Js.TruthyString(input.chargingCurveType) then input.chargingCurveType.value else DefaultCurve,
      input.isPrimary,
      now)
  }

  /** The listing order: primary vehicles first, then the newest first. */
  function ListedBefore(a: Vehicle, b: Vehicle): bool
  {
    (a.isPrimary && !b.isPrimary) || (a.isPrimary == b.isPrimary && a.createdAt >= b.createdAt)
  }

  lemma ListedBeforeIsTotalPreorder()
    ensures Ordering.Total(ListedBefore) && Ordering.Transitive(ListedBefore)
  {
  }

  /** `v` inserted into a listing kept in listing order. */
  function InsertListed(v: Vehicle, s: seq<Vehicle>): (r: seq<Vehicle>)
    requires Ordering.Sorted(s, ListedBefore)
    ensures Ordering.Sorted(r, ListedBefore)
    ensures |r| == |s| + 1
    ensures forall w :: w in r <==> w == v || w in s
  {
    ListedBeforeIsTotalPreorder();
    var r := Ordering.Insert(v, s, ListedBefore);
    assert |r| == |multiset(r)|;
    r
  }

  /** The ids below `bound` of the vehicles user `uid` owns. */
  function OwnedBelow(rows: map<int, Vehicle>, uid: int, bound: int): set<int>
  {
    set k | k in rows && rows[k].userId == uid && k < bound
  }

  lemma OwnedBelowStep(rows: map<int, Vehicle>, uid: int, i: int)
    ensures OwnedBelow(rows, uid, i + 1)
      == if i in rows && rows[i].userId == uid then OwnedBelow(rows, uid, i) + {i} else OwnedBelow(rows, uid, i)
  {
  }

  /**
   * `findMany({ where: { user_id }, orderBy: [{ is_primary: 'desc' }, { created_at: 'desc' }] })`
   * over a table whose ids lie in `[1, nextId)`.
   */
  method CollectOwned(rows: map<int, Vehicle>, nextId: int, uid: int) returns (out: seq<Vehicle>)
    requires 1 <= nextId
    requires forall k :: k in rows ==> rows[k].id == k && 1 <= k < nextId
    ensures Ordering.Sorted(out, ListedBefore)
    ensures forall j :: 0 <= j < |out| ==> out[j].id in rows && rows[out[j].id] == out[j] && out[j].userId == uid
    ensures forall k :: k in rows && rows[k].userId == uid ==> rows[k] in out
    ensures |out| == |set k | k in rows && rows[k].userId == uid|
  {
    out := [];
    var i := 1;
    while i < nextId
      invariant 1 <= i <= nextId
      invariant Ordering.Sorted(out, ListedBefore)
      invariant forall w :: w in out ==> w.id in rows && rows[w.id] == w && w.userId == uid && w.id < i
      invariant forall k :: k in OwnedBelow(rows, uid, i) ==> rows[k] in out
      invariant |out| == |OwnedBelow(rows, uid, i)|
    {
      OwnedBelowStep(rows, uid, i);
      if i in rows && rows[i].userId == uid {
        out := InsertListed(rows[i], out);
      }
      i := i + 1;
    }
    assert OwnedBelow(rows, uid, i) == set k | k in rows && rows[k].userId == uid;
  }

  /** The vehicle table and the three handlers that use it. */
  class VehicleTable {
    var rows: map<int, Vehicle>
    var nextId: int

    ghost predicate Valid()
      reads this
    {
      && 1 <= nextId
      && (forall k :: k in rows ==> rows[k].id == k && 1 <= k < nextId)
      && SinglePrimary(rows)
    }

    constructor ()
      ensures Valid() && rows == map[] && nextId == 1
    {
      rows := map[];
      nextId := 1;
    }

    /** `GET /`: the caller's vehicles, each once, primary first and then newest first. */
    method List(caller: Option<AuthMiddleware.AuthUser>) returns (r: Response<seq<Vehicle>>)
      requires Valid()
      ensures caller.None? ==> r == Err(Unauthorized, AuthRequired)
      ensures caller.Some? ==> r.Ok?
      ensures r.Ok? ==> caller.Some? && Ordering.Sorted(r.value, ListedBefore)
      ensures r.Ok? ==> forall i :: 0 <= i < |r.value| ==>
        r.value[i].id in rows && rows[r.value[i].id] == r.value[i] && r.value[i].userId == caller.value.id
      ensures r.Ok? ==> forall k :: k in rows && rows[k].userId == caller.value.id ==> rows[k] in r.value
      ensures r.Ok? ==> |r.value| == |set k | k in rows && rows[k].userId == caller.value.id|
    {
      if caller.None? {
        return Err(Unauthorized, AuthRequired);
      }
      var uid := caller.value.id;
      var out := CollectOwned(rows, nextId, uid);
      r := Ok(out);
    }

    /**
     * `POST /`: 401 without a caller, 400 without make, model, year or
     * battery capacity; otherwise, if the new vehicle is to be primary, the
     * caller's primary flags are cleared first, then the row is added.
     */
    method Create(caller: Option<AuthMiddleware.AuthUser>, input: VehicleInput, now: int)
      returns (r: Response<Vehicle>)
      requires Valid()
      modifies this
      ensures Valid()
      ensures caller.None? ==> r == Err(Unauthorized, AuthRequired)
      ensures caller.Some? && !RequiredPresent(input) ==> r == Err(BadRequest, MissingFields)
      ensures caller.Some? && RequiredPresent(input) ==> r.Ok?
      ensures r.Err? ==> rows == old(rows) && nextId == old(nextId)
      ensures r.Ok? ==>
        && caller.Some?
        && r.value == NewVehicle(old(nextId), caller.value.id, input, now)
        && nextId == old(nextId) + 1
        && rows == (if input.isPrimary then ClearPrimary(old(rows), caller.value.id) else old(rows))[r.value.id := r.value]
        && PrimaryIds(rows, caller.value.id)
           == (if input.isPrimary then {r.value.id} else PrimaryIds(old(rows), caller.value.id))
        && OthersUnchanged(old(rows), rows, caller.value.id)
    {
      if caller.None? {
        return Err(Unauthorized, AuthRequired);
      }
      if !RequiredPresent(input) {
        return Err(BadRequest, MissingFields);
      }
      var uid := caller.value.id;
      ghost var before := rows;
      if input.isPrimary {
        rows := ClearPrimary(rows, uid);
      }
      var v := NewVehicle(nextId, uid, input, now);
      ghost var mid := rows;
      rows := rows[v.id := v];
      nextId := nextId + 1;
      assert PrimaryIds(rows, uid) == (if v.isPrimary then {v.id} else PrimaryIds(mid, uid));
      r := Ok(v);
    }

    /**
     * `PUT /:id/primary`: 401 without a caller, 400 for an id `parseInt`
     * cannot read, 404 unless the caller owns the vehicle; otherwise it
     * becomes the caller's only primary vehicle.
     */
    method SetPrimary(caller: Option<AuthMiddleware.AuthUser>, idParam: string) returns (r: Response<Vehicle>)
      requires Valid()
      modifies this
      ensures Valid()
      ensures nextId == old(nextId)
      ensures caller.None? ==> r == Err(Unauthorized, AuthRequired)
      ensures caller.Some? && Js.ParseInt(idParam).None? ==> r == Err(BadRequest, InvalidId)
      ensures caller.Some? && Js.ParseInt(idParam).Some?
        && !(Js.ParseInt(idParam).value in old(rows) && old(rows)[Js.ParseInt(idParam).value].userId == caller.value.id)
        ==> r == Err(NotFound, NotOwned)
      ensures caller.Some? && Js.ParseInt(idParam).Some?
        && Js.ParseInt(idParam).value in old(rows) && old(rows)[Js.ParseInt(idParam).value].userId == caller.value.id
        ==> r.Ok?
      ensures r.Err? ==> rows == old(rows)
      ensures r.Ok? ==>
        && caller.Some? && Js.ParseInt(idParam) == Some(r.value.id)
        && r.value.id in old(rows) && old(rows)[r.value.id].userId == caller.value.id
        && rows == SetPrimaryRows(old(rows), caller.value.id, r.value.id)
        && r.value == old(rows)[r.value.id].(isPrimary := true)
    {
      if caller.None? {
        return Err(Unauthorized, AuthRequired);
      }
      var parsed := Js.ParseInt(idParam);
      if parsed.None? {
        return Err(BadRequest, InvalidId);
      }
      var id, uid := parsed.value, caller.value.id;
      if !(id in rows && rows[id].userId == uid) {
        return Err(NotFound, NotOwned);
      }
      SetPrimaryKeepsSinglePrimary(rows, uid, id);
      ghost var before := rows;
      rows := ClearPrimary(rows, uid);
      rows := rows[id := rows[id].(isPrimary := true)];
      assert rows == SetPrimaryRows(before, uid, id);
      r := Ok(rows[id]);
    }
  }

  /** Creating a vehicle keeps every user at no more than one primary vehicle. */
  lemma CreateKeepsSinglePrimary(rows: map<int, Vehicle>, uid: int, v: Vehicle)
    requires SinglePrimary(rows)
    requires v.id !in rows && v.userId == uid
    ensures SinglePrimary((if v.isPrimary then ClearPrimary(rows, uid) else rows)[v.id := v])
  {
    var base := if v.isPrimary then ClearPrimary(rows, uid) else rows;
    var r := base[v.id := v];
    forall a, b | a in r && b in r && r[a].isPrimary && r[b].isPrimary && r[a].userId == r[b].userId
      ensures a == b
    {
      if v.isPrimary && r[a].userId == uid {
        assert a in PrimaryIds(r, uid) && b in PrimaryIds(r, uid);
        assert PrimaryIds(r, uid) <= {v.id} by {
          forall k | k in PrimaryIds(r, uid) ensures k == v.id {
            assert k == v.id || k in PrimaryIds(base, uid);
          }
        }
      } else if a != v.id && b != v.id {
        assert base[a].isPrimary && base[b].isPrimary;
        assert rows[a].isPrimary && rows[b].isPrimary;
      }
    }
  }
}
