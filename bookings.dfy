/**
 * The booking routes (`/api/bookings`): a booking table with slot
 * accounting per station. A station's active bookings are those whose
 * status is `booked` or `in_progress`; a create is refused once that count
 * reaches the station's `total_slots`, a cancel moves an active booking to
 * `cancelled`, and a start with the right code moves a booking to
 * `in_progress` whatever its status was.
 */
module Bookings {
  import opened Wrappers
  import opened Http
  import Js
  import Ordering
  import Stations

  datatype Status = Booked | InProgress | Completed | Cancelled

  /** The status as the table stores it. */
  function StatusName(s: Status): string
  {
    match s
    case Booked => "booked"
    case InProgress => "in_progress"
    case Completed => "completed"
    case Cancelled => "cancelled"
  }

  /** `status: { in: ['booked', 'in_progress'] }`: the bookings that hold a slot. */
  predicate IsActive(s: Status) { s == Booked || s == InProgress }

  /** The statuses a cancel refuses. */
  predicate IsTerminal(s: Status) { s == Cancelled || s == Completed }

  datatype Booking = Booking(
    id: int,
    userId: int,
    stationId: int,
    tokenNumber: string,
    slotNumber: int,
    vehicleModel: string,
    currentBattery: int,
    targetBattery: int,
    predictedDuration: int,
    slotStartTime: int,
    arrivalWindowStart: int,
    arrivalWindowEnd: int,
    startCode: int,
    endCode: int,
    startCodeUsed: bool,
    status: Status,
    bookingTime: int)

  /** The body of `POST /create`; times are milliseconds since the epoch. */
  datatype CreateRequest = CreateRequest(
    userId: Option<int>,
    stationId: Option<int>,
    vehicleModel: Option<string>,
    currentBattery: Option<int>,
    targetBattery: Option<int>,
    slotStartTime: Option<int>)

  /** What the create response tells the driver, besides the stored booking. */
  datatype Instructions = Instructions(
    token: string,
    startCode: int,
    endCode: int,
    arrivalWindowStart: int,
    arrivalWindowEnd: int,
    predictedDuration: string)

  datatype Created = Created(booking: Booking, instructions: Instructions)

  /** One station's entry in `GET /availability/:stationId`. */
  datatype Availability = Availability(
    id: int,
    name: string,
    totalSlots: int,
    activeBookings: int,
    availableSlots: int,
    isActive: bool)

  const MissingFields := "Missing required fields"
  const StationUnavailable := "Station not found or inactive"
  const NoSlots := "No available slots at this station"
  const BookingNotFound := "Booking not found"
  const AlreadyPrefix := "Booking already "
  const InvalidStart := "Invalid booking or start code"
  const StationNotFound := "Station not found"

  /** One minute in milliseconds. */
  const Minute := 60 * 1000
  const MinDuration := 60

  /** The ids of the bookings that hold a slot at station `sid`. */
  function ActiveIds(rows: map<int, Booking>, sid: int): set<int>
  {
    set k | k in rows && rows[k].stationId == sid && IsActive(rows[k].status)
  }

  /** `prisma.booking.count` over the active bookings of station `sid`. */
  function ActiveCount(rows: map<int, Booking>, sid: int): nat
  {
    |ActiveIds(rows, sid)|
  }

  /** No station holds more active bookings than it has slots. */
  ghost predicate WithinCapacity(rows: map<int, Booking>, stations: map<int, Stations.Station>)
  {
    forall sid :: sid in stations ==> ActiveCount(rows, sid) <= stations[sid].totalSlots
  }

  /** `!userId || !stationId || !vehicleModel || !currentBattery || !targetBattery` fails. */
  predicate RequiredPresent(req: CreateRequest)
  {
    Js.TruthyInt(req.userId) && Js.TruthyInt(req.stationId) && Js.TruthyString(req.vehicleModel)
    && Js.TruthyInt(req.currentBattery) && Js.TruthyInt(req.targetBattery)
  }

  /** The station exists and `is_active` holds. */
  predicate StationOpen(stations: map<int, Stations.Station>, sid: int)
  {
    sid in stations && stations[sid].isActive
  }

  /** `Math.max(60, (target - current) * 2)`, in minutes. */
  function PredictedDuration(current: int, target: int): (d: int)
    ensures d >= MinDuration
    ensures d == MinDuration || d == 2 * (target - current)
    ensures target - current >= 30 ==> d == 2 * (target - current)
    ensures target - current <= 30 ==> d == MinDuration
  {
    if 2 * (target - current) > MinDuration then 2 * (target - current) else MinDuration
  }

  /** The supplied slot start when it is truthy, else half an hour from `now`. */
  function SlotStart(requested: Option<int>, now: int): (t: int)
    ensures Js.TruthyInt(requested) ==> t == requested.value
    ensures !Js.TruthyInt(requested) ==> t == now + 30 * Minute
  {
    if Js.TruthyInt(requested) then requested.value else now + 30 * Minute
  }

  /** From half an hour before the slot start to a quarter of an hour after it. */
  function ArrivalWindow(slot: int): (w: (int, int))
    ensures w.0 <= slot <= w.1
    ensures w.1 - w.0 == 45 * Minute
    ensures slot - w.0 == 30 * Minute
  {
    (slot - 30 * Minute, slot + 15 * Minute)
  }

  /** `TK${Date.now()}${Math.floor(Math.random() * 1000)}`. */
  function Token(now: int, suffix: int): (t: string)
    ensures |t| >= 2 && t[..2] == "TK"
  {
    "TK" + Js.NumberToString(now) + Js.NumberToString(suffix)
  }

  /** The row `POST /create` adds when `active` bookings already hold slots at its station. */
  function NewBooking(
    id: int, req: CreateRequest, active: int, now: int, tokenSuffix: int, startCode: int, endCode: int): (b: Booking)
    requires RequiredPresent(req)
    ensures b.id == id && b.userId == req.userId.value && b.stationId == req.stationId.value
    ensures b.vehicleModel == req.vehicleModel.value
    ensures b.currentBattery == req.currentBattery.value && b.targetBattery == req.targetBattery.value
    ensures b.status == Booked && !b.startCodeUsed
    ensures b.slotNumber == active + 1
    ensures b.predictedDuration == PredictedDuration(req.currentBattery.value, req.targetBattery.value)
    ensures b.predictedDuration >= MinDuration
    ensures b.slotStartTime == SlotStart(req.slotStartTime, now)
    ensures (b.arrivalWindowStart, b.arrivalWindowEnd) == ArrivalWindow(b.slotStartTime)
    ensures b.arrivalWindowStart <= b.slotStartTime <= b.arrivalWindowEnd
    ensures b.tokenNumber == Token(now, tokenSuffix)
    ensures b.startCode == startCode && b.endCode == endCode && b.bookingTime == now
  {
    var slot := SlotStart(req.slotStartTime, now);
    var window := ArrivalWindow(slot);
    Booking(
      id, req.userId.value, req.stationId.value, Token(now, tokenSuffix), active + 1,
      req.vehicleModel.value, req.currentBattery.value, req.targetBattery.value,
      PredictedDuration(req.currentBattery.value, req.targetBattery.value),
      slot, window.0, window.1, startCode, endCode, false, Booked, now)
  }

  /** The `instructions` object of the create response for booking `b`. */
  function InstructionsFor(b: Booking): (i: Instructions)
    ensures i.token == b.tokenNumber && i.startCode == b.startCode && i.endCode == b.endCode
    ensures i.arrivalWindowStart == b.arrivalWindowStart && i.arrivalWindowEnd == b.arrivalWindowEnd
    ensures i.predictedDuration == Js.NumberToString(b.predictedDuration) + " minutes"
  {
    Instructions(
      b.tokenNumber, b.startCode, b.endCode, b.arrivalWindowStart, b.arrivalWindowEnd,
      Js.NumberToString(b.predictedDuration) + " minutes")
  }

  /** `Math.floor(1000 + Math.random() * 9000)` lies in `[1000, 9999]`. */
  predicate FourDigitCodes(b: Booking)
  {
    1000 <= b.startCode <= 9999 && 1000 <= b.endCode <= 9999
  }

  /** `booking.start_code !== parseInt(startCode)` is false. */
  predicate CodeMatches(b: Booking, code: string)
  {
    Js.ParseInt(code) == Some(b.startCode)
  }

  /** The row after a successful start: `in_progress`, with its start code spent. */
  function Started(b: Booking): Booking
  {
    b.(status := InProgress, startCodeUsed := true)
  }

  /** `GET /availability/:stationId`. */
  function StationAvailability(rows: map<int, Booking>, stations: map<int, Stations.Station>, sid: int)
    : (r: Response<Availability>)
    ensures sid !in stations <==> r == Err(NotFound, StationNotFound)
    ensures sid in stations <==> r.Ok?
    ensures r.Ok? ==>
      && sid in stations && r.value.id == stations[sid].id
      && r.value.totalSlots == stations[sid].totalSlots && r.value.isActive == stations[sid].isActive
      && r.value.activeBookings == ActiveCount(rows, sid)
      && r.value.availableSlots == r.value.totalSlots - r.value.activeBookings
  {
    if sid !in stations then
      Err(NotFound, StationNotFound)
    else
      var s := stations[sid];
      var active := ActiveCount(rows, sid);
      Ok(Availability(s.id, s.name, s.totalSlots, active, s.totalSlots - active, s.isActive))
  }

  /** The listing order of `GET /user/:userId`: newest booking first. */
  function NewerFirst(a: Booking, b: Booking): bool
  {
    a.bookingTime >= b.bookingTime
  }

  lemma NewerFirstIsTotalPreorder()
    ensures Ordering.Total(NewerFirst) && Ordering.Transitive(NewerFirst)
  {
  }

  /** `b` inserted into a listing kept newest first. */
  function InsertNewerFirst(b: Booking, s: seq<Booking>): (r: seq<Booking>)
    requires Ordering.Sorted(s, NewerFirst)
    ensures Ordering.Sorted(r, NewerFirst)
    ensures |r| == |s| + 1
    ensures forall w :: w in r <==> w == b || w in s
  {
    NewerFirstIsTotalPreorder();
    var r := Ordering.Insert(b, s, NewerFirst);
    assert |r| == |multiset(r)|;
    r
  }

  /** The ids below `bound` of the bookings of user `uid`. */
  function UserIdsBelow(rows: map<int, Booking>, uid: int, bound: int): set<int>
  {
    set k | k in rows && rows[k].userId == uid && k < bound
  }

  lemma UserIdsBelowStep(rows: map<int, Booking>, uid: int, i: int)
    ensures UserIdsBelow(rows, uid, i + 1)
      == if i in rows && rows[i].userId == uid then UserIdsBelow(rows, uid, i) + {i} else UserIdsBelow(rows, uid, i)
  {
  }

  /**
   * `findMany({ where: { user_id }, orderBy: { booking_time: 'desc' } })`
   * over a table whose ids lie in `[1, nextId)`.
   */
  method CollectForUser(rows: map<int, Booking>, nextId: int, uid: int) returns (out: seq<Booking>)
    requires 1 <= nextId
    requires forall k :: k in rows ==> rows[k].id == k && 1 <= k < nextId
    ensures Ordering.Sorted(out, NewerFirst)
    ensures forall j :: 0 <= j < |out| ==> out[j].id in rows && rows[out[j].id] == out[j] && out[j].userId == uid
    ensures forall k :: k in rows && rows[k].userId == uid ==> rows[k] in out
    ensures |out| == |set k | k in rows && rows[k].userId == uid|
  {
    out := [];
    var i := 1;
    while i < nextId
      invariant 1 <= i <= nextId
      invariant Ordering.Sorted(out, NewerFirst)
      invariant forall w :: w in out ==> w.id in rows && rows[w.id] == w && w.userId == uid && w.id < i
      invariant forall k :: k in UserIdsBelow(rows, uid, i) ==> rows[k] in out
      invariant |out| == |UserIdsBelow(rows, uid, i)|
    {
      UserIdsBelowStep(rows, uid, i);
      if i in rows && rows[i].userId == uid {
        out := InsertNewerFirst(rows[i], out);
      }
      i := i + 1;
    }
    assert UserIdsBelow(rows, uid, i) == set k | k in rows && rows[k].userId == uid;
  }

  /** The booking table and the handlers that use it. */
  class BookingTable {
    var rows: map<int, Booking>
    var nextId: int

    /** Ids come from the counter; the stored codes are the four-digit draws. */
    ghost predicate Valid()
      reads this
    {
      && 1 <= nextId
      && (forall k :: k in rows ==> rows[k].id == k && 1 <= k < nextId)
      && (forall k :: k in rows ==> FourDigitCodes(rows[k]))
    }

    constructor ()
      ensures Valid() && rows == map[] && nextId == 1
    {
      rows := map[];
      nextId := 1;
    }

    /**
     * `POST /create`: 400 when a required field is falsy, 404 when the
     * station is missing or inactive, 400 when its active bookings already
     * fill its slots; otherwise one `booked` row is added, holding the next
     * slot number. `now`, `tokenSuffix`, `startCode` and `endCode` are the
     * clock and the random draws.
     */
    method Create(
      req: CreateRequest, stations: map<int, Stations.Station>,
      now: int, tokenSuffix: int, startCode: int, endCode: int)
      returns (r: Response<Created>)
      requires Valid()
      requires 0 <= tokenSuffix < 1000
      requires 1000 <= startCode < 10000 && 1000 <= endCode < 10000
      modifies this
      ensures Valid()
      ensures !RequiredPresent(req) ==> r == Err(BadRequest, MissingFields)
      ensures RequiredPresent(req) && !StationOpen(stations, req.stationId.value)
        ==> r == Err(NotFound, StationUnavailable)
      ensures RequiredPresent(req) && StationOpen(stations, req.stationId.value)
        && ActiveCount(old(rows), req.stationId.value) >= stations[req.stationId.value].totalSlots
        ==> r == Err(BadRequest, NoSlots)
      ensures RequiredPresent(req) && StationOpen(stations, req.stationId.value)
        && ActiveCount(old(rows), req.stationId.value) < stations[req.stationId.value].totalSlots
        ==> r.Ok?
      ensures r.Err? ==> rows == old(rows) && nextId == old(nextId)
      ensures r.Ok? ==> RequiredPresent(req) && StationOpen(stations, req.stationId.value)
      ensures r.Ok? ==>
        var sid := req.stationId.value;
        && ActiveCount(old(rows), sid) < stations[sid].totalSlots
        && r.value.booking
           == NewBooking(old(nextId), req, ActiveCount(old(rows), sid), now, tokenSuffix, startCode, endCode)
        && r.value.instructions == InstructionsFor(r.value.booking)
        && rows == old(rows)[old(nextId) := r.value.booking]
        && nextId == old(nextId) + 1
        && 1 <= r.value.booking.slotNumber <= stations[sid].totalSlots
        && ActiveCount(rows, sid) == ActiveCount(old(rows), sid) + 1
    {
      if !RequiredPresent(req) {
        return Err(BadRequest, MissingFields);
      }
      var sid := req.stationId.value;
      if !StationOpen(stations, sid) {
        return Err(NotFound, StationUnavailable);
      }
      var active := ActiveCount(rows, sid);
      if active >= stations[sid].totalSlots {
        return Err(BadRequest, NoSlots);
      }
      var b := NewBooking(nextId, req, active, now, tokenSuffix, startCode, endCode);
      ActiveCountInsert(rows, b, sid);
      rows := rows[b.id := b];
      nextId := nextId + 1;
      r := Ok(Created(b, InstructionsFor(b)));
    }

    /**
     * `PUT /cancel/:bookingId`: 404 for a missing booking, 400 naming the
     * status of a cancelled or completed one; otherwise only its status
     * changes, to `cancelled`.
     */
    method Cancel(id: int) returns (r: Response<Booking>)
      requires Valid()
      modifies this
      ensures Valid() && nextId == old(nextId)
      ensures id !in old(rows) ==> r == Err(NotFound, BookingNotFound)
      ensures id in old(rows) && IsTerminal(old(rows)[id].status)
        ==> r == Err(BadRequest, AlreadyPrefix + StatusName(old(rows)[id].status))
      ensures id in old(rows) && IsActive(old(rows)[id].status) ==> r.Ok?
      ensures r.Err? ==> rows == old(rows)
      ensures r.Ok? ==>
        && id in old(rows) && IsActive(old(rows)[id].status)
        && r.value == old(rows)[id].(status := Cancelled)
        && rows == old(rows)[id := r.value]
    {
      if id !in rows {
        return Err(NotFound, BookingNotFound);
      }
      var b := rows[id];
      if b.status == Cancelled || b.status == Completed {
        return Err(BadRequest, AlreadyPrefix + StatusName(b.status));
      }
      var updated := b.(status := Cancelled);
      rows := rows[id := updated];
      r := Ok(updated);
    }

    /**
     * `POST /start/:bookingId`: 400 unless the booking exists and `parseInt`
     * of the supplied code is its start code; otherwise it becomes
     * `in_progress` with its start code spent. Its prior status is not
     * looked at.
     */
    method Start(id: int, code: string) returns (r: Response<Booking>)
      requires Valid()
      modifies this
      ensures Valid() && nextId == old(nextId)
      ensures !(id in old(rows) && CodeMatches(old(rows)[id], code)) <==> r == Err(BadRequest, InvalidStart)
      ensures id in old(rows) && CodeMatches(old(rows)[id], code) ==> r.Ok?
      ensures r.Err? ==> rows == old(rows)
      ensures r.Ok? ==> id in old(rows) && r.value == Started(old(rows)[id]) && rows == old(rows)[id := r.value]
    {
      if id !in rows || Js.ParseInt(code) != Some(rows[id].startCode) {
        return Err(BadRequest, InvalidStart);
      }
      var updated := Started(rows[id]);
      rows := rows[id := updated];
      r := Ok(updated);
    }

    /** `GET /user/:userId`: the user's bookings, each once, newest first. */
    method ForUser(uid: int) returns (out: seq<Booking>)
      requires Valid()
      ensures Ordering.Sorted(out, NewerFirst)
      ensures forall j :: 0 <= j < |out| ==> out[j].id in rows && rows[out[j].id] == out[j] && out[j].userId == uid
      ensures forall k :: k in rows && rows[k].userId == uid ==> rows[k] in out
      ensures |out| == |set k | k in rows && rows[k].userId == uid|
    {
      out := CollectForUser(rows, nextId, uid);
    }
  }

  /** Adding a booking raises the active count of its own station by one if it is active, and no other. */
  lemma ActiveCountInsert(rows: map<int, Booking>, b: Booking, sid: int)
    requires b.id !in rows
    ensures ActiveCount(rows[b.id := b], sid)
      == ActiveCount(rows, sid) + (if b.stationId == sid && IsActive(b.status) then 1 else 0)
  {
    var after := ActiveIds(rows[b.id := b], sid);
    if b.stationId == sid && IsActive(b.status) {
      assert after == ActiveIds(rows, sid) + {b.id};
    } else {
      assert after == ActiveIds(rows, sid);
    }
  }

  /** Changing one booking's status moves the active counts only at that booking's station. */
  lemma ActiveCountSetStatus(rows: map<int, Booking>, id: int, b: Booking, sid: int)
    requires id in rows && b.stationId == rows[id].stationId
    ensures ActiveCount(rows[id := b], sid)
      == ActiveCount(rows, sid)
         - (if rows[id].stationId == sid && IsActive(rows[id].status) then 1 else 0)
         + (if b.stationId == sid && IsActive(b.status) then 1 else 0)
  {
    var before := ActiveIds(rows, sid);
    var after := ActiveIds(rows[id := b], sid);
    var others := before - {id};
    if b.stationId == sid && IsActive(b.status) {
      assert after == others + {id};
    } else {
      assert after == others;
    }
    if rows[id].stationId == sid && IsActive(rows[id].status) {
      assert before == others + {id};
    } else {
      assert before == others;
    }
  }

  /** A create that passes the slot check keeps every station within its slots. */
  lemma CreateKeepsCapacity(rows: map<int, Booking>, stations: map<int, Stations.Station>, b: Booking)
    requires WithinCapacity(rows, stations)
    requires b.id !in rows && b.stationId in stations
    requires ActiveCount(rows, b.stationId) < stations[b.stationId].totalSlots
    ensures WithinCapacity(rows[b.id := b], stations)
  {
    forall sid | sid in stations
      ensures ActiveCount(rows[b.id := b], sid) <= stations[sid].totalSlots
    {
      ActiveCountInsert(rows, b, sid);
    }
  }

  /** A cancel never raises an active count, so it keeps every station within its slots. */
  lemma CancelKeepsCapacity(rows: map<int, Booking>, stations: map<int, Stations.Station>, id: int)
    requires WithinCapacity(rows, stations)
    requires id in rows
    ensures WithinCapacity(rows[id := rows[id].(status := Cancelled)], stations)
  {
    forall sid | sid in stations
      ensures ActiveCount(rows[id := rows[id].(status := Cancelled)], sid) <= stations[sid].totalSlots
    {
      ActiveCountSetStatus(rows, id, rows[id].(status := Cancelled), sid);
    }
  }

  /**
   * Starting a cancelled or completed booking at a full station puts that
   * station over its slots: start does not look at the prior status.
   */
  lemma StartCanOverfill(rows: map<int, Booking>, stations: map<int, Stations.Station>, id: int)
    requires id in rows && IsTerminal(rows[id].status)
    requires rows[id].stationId in stations
    requires ActiveCount(rows, rows[id].stationId) == stations[rows[id].stationId].totalSlots
    ensures !WithinCapacity(rows[id := Started(rows[id])], stations)
  {
    var sid := rows[id].stationId;
    ActiveCountSetStatus(rows, id, Started(rows[id]), sid);
  }

  /** Starting a booking that is already active leaves every station's active count unchanged. */
  lemma StartOnActiveKeepsCount(rows: map<int, Booking>, id: int, sid: int)
    requires id in rows && IsActive(rows[id].status)
    ensures ActiveCount(rows[id := Started(rows[id])], sid) == ActiveCount(rows, sid)
  {
    ActiveCountSetStatus(rows, id, Started(rows[id]), sid);
  }

  /** Under the capacity invariant no station reports a negative number of free slots. */
  lemma AvailabilityNonNegative(rows: map<int, Booking>, stations: map<int, Stations.Station>, sid: int)
    requires WithinCapacity(rows, stations) && sid in stations
    ensures StationAvailability(rows, stations, sid).Ok?
    ensures StationAvailability(rows, stations, sid).value.availableSlots >= 0
  {
  }

  /** A booking added at a station takes exactly one of the free slots availability reports. */
  lemma AvailabilityAfterCreate(rows: map<int, Booking>, stations: map<int, Stations.Station>, b: Booking)
    requires b.id !in rows && b.stationId in stations && b.status == Booked
    ensures StationAvailability(rows[b.id := b], stations, b.stationId).value.availableSlots
      == StationAvailability(rows, stations, b.stationId).value.availableSlots - 1
  {
    ActiveCountInsert(rows, b, b.stationId);
  }

  /** Create counts exactly the bookings availability counts, so it refuses exactly when no slot is free. */
  lemma CreateRefusesExactlyWhenFull(rows: map<int, Booking>, stations: map<int, Stations.Station>, sid: int)
    requires sid in stations
    ensures ActiveCount(rows, sid) >= stations[sid].totalSlots
      <==> StationAvailability(rows, stations, sid).value.availableSlots <= 0
  {
  }

  /** The code the create response hands out starts the booking. */
  lemma IssuedCodeStarts(b: Booking)
    ensures CodeMatches(b, Js.NumberToString(b.startCode))
  {
    Js.ParseIntOfNumberToString(b.startCode);
  }

  /**
   * The code check is no exact match: `parseInt` ignores whatever follows
   * the digits, so the issued code followed by any text that does not begin
   * with a digit starts the booking too ("1234abc" for code 1234).
   */
  lemma CodeWithTrailingTextStarts(b: Booking, tail: string)
    requires FourDigitCodes(b)
    requires tail == [] || !('0' <= tail[0] <= '9')
    ensures CodeMatches(b, Js.NumberToString(b.startCode) + tail)
  {
    Js.ParseIntIgnoresTail(b.startCode, tail);
  }

  /** A code holding no decimal digit never starts a booking. */
  lemma CodeWithoutDigitsRefused(b: Booking, code: string)
    requires forall i :: 0 <= i < |code| ==> !('0' <= code[i] <= '9')
    ensures !CodeMatches(b, code)
  {
    Js.ParseIntWithoutDigits(code);
  }

  /**
   * Cancelling an active booking succeeds, and a second cancel of the same
   * booking is refused with "Booking already cancelled".
   */
  method CancelTwice(t: BookingTable, id: int) returns (first: Response<Booking>, second: Response<Booking>)
    requires t.Valid()
    modifies t
    ensures id in old(t.rows) && IsActive(old(t.rows)[id].status) ==> first.Ok?
    ensures first.Ok? ==> second == Err(BadRequest, "Booking already cancelled")
    ensures first.Ok? ==> id in old(t.rows) && t.rows == old(t.rows)[id := old(t.rows)[id].(status := Cancelled)]
  {
    first := t.Cancel(id);
    second := t.Cancel(id);
  }
}
