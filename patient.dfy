/** A hospital patient (src/patient.py): identity and demographics fixed at construction,
    check-in and check-out times, and a ward/room allocation governed by the hospital's
    configuration. Python's raised ValueError/KeyError/TypeError become `PatientError` values. */
module PatientRecord {
  import opened Results
  import opened PyText

  /** A point in time, held as the text `str()` renders for it. */
  type Timestamp = string

  /** The eight column-name constants a payload is keyed by. */
  datatype ColumnNames = ColumnNames(
    id: string, name: string, age: string, gender: string,
    checkin: string, checkout: string, ward: string, room: string)
  {
    function Keys(): set<string> {
      {id, name, age, gender, checkin, checkout, ward, room}
    }

    /** No two of the eight names coincide (each differs from every name after it). */
    predicate Distinct() {
      && id !in {name, age, gender, checkin, checkout, ward, room}
      && name !in {age, gender, checkin, checkout, ward, room}
      && age !in {gender, checkin, checkout, ward, room}
      && gender !in {checkin, checkout, ward, room}
      && checkin !in {checkout, ward, room}
      && checkout !in {ward, room}
      && ward != room
    }
  }

  /** The configuration the patient module imports: WARD_NUMBERS, ROOM_NUMBERS and the column names. */
  datatype Config = Config(wards: set<int>, rooms: map<int, set<int>>, columns: ColumnNames)

  /** A payload field: Python `int` or `str`. */
  datatype Value = Int(i: int) | Str(s: string)

  type Payload = map<string, Value>

  datatype PatientError =
    | WardNotAvailable(ward: int)          // set_ward's ValueError
    | InvalidRoomNumber(room: int)         // validate_room_number's ValueError (also int('-') for a negative room)
    | RoomNotInWard(room: int, ward: int)  // set_room's ValueError on a room outside the assigned ward
    | NoRoomsForWard(ward: int)            // KeyError from ROOM_NUMBERS[ward]
    | IncompleteRecord                     // TypeError from int(None) in the payload

  /** The reference definition of a well-formed room: two decimal digits, the first a known ward. */
  predicate WellFormedRoom(wards: set<int>, room: int) {
    10 <= room <= 99 && room / 10 in wards
  }

  /** `validate_room_number`: rejects a room whose text is not two characters or whose first
      character is not a configured ward; otherwise returns True. */
  function ValidateRoomNumber(wards: set<int>, room: int): (r: Result<bool, PatientError>)
    ensures r.Success? <==> WellFormedRoom(wards, room)
    ensures r.Success? ==> r.value
    ensures r.Failure? ==> r.error == InvalidRoomNumber(room)
  {
    var text := IntToStr(room);
    var wrongLength := |text| != 2;
    TwoDigitRendering(room);
    match ParseDigit(text[0])
    case None => Failure(InvalidRoomNumber(room))
    case Some(first) =>
      if wrongLength || first !in wards then Failure(InvalidRoomNumber(room)) else Success(true)
  }

  /** `int(str(room)[0])`: the ward a two-digit room's text names. */
  function LeadingDigit(room: int): (d: int)
    requires 10 <= room <= 99
    ensures d == room / 10
  {
    TwoDigitRendering(room);
    ParseDigit(IntToStr(room)[0]).value
  }

  /** The allocation part of a patient's state: `_ward_number` and `_room_number`. */
  datatype Placement = Placement(ward: Option<int>, room: Option<int>)

  /** What every reachable allocation satisfies: the ward is a configured ward, and a room is
      only present together with a ward and is well-formed. */
  ghost predicate Admissible(cfg: Config, p: Placement) {
    && (p.ward.Some? ==> p.ward.value in cfg.wards)
    && (p.room.Some? ==> p.ward.Some? && WellFormedRoom(cfg.wards, p.room.value))
  }

  /** The stronger invariant that set_room's with-ward check suggests: a present room belongs to
      the room set registered for the present ward. The code does not maintain it (see the two
      counterexample lemmas below). */
  ghost predicate Registered(cfg: Config, p: Placement) {
    p.room.Some? ==> p.ward.Some? && p.ward.value in cfg.rooms && p.room.value in cfg.rooms[p.ward.value]
  }

  /** `set_ward` on values: the new allocation, or the error it raises. */
  function WardStep(cfg: Config, p: Placement, w: int): (r: Result<Placement, PatientError>)
    ensures r.Success? <==> w in cfg.wards
    ensures r.Success? ==> r.value.ward == Some(w) && r.value.room == p.room
    ensures r.Failure? ==> r.error == WardNotAvailable(w)
    ensures Admissible(cfg, p) && r.Success? ==> Admissible(cfg, r.value)
  {
    if w !in cfg.wards then Failure(WardNotAvailable(w)) else Success(p.(ward := Some(w)))
  }

  /** `set_room` on values: the new allocation, or the error it raises. */
  function RoomStep(cfg: Config, p: Placement, room: int): (r: Result<Placement, PatientError>)
    ensures r.Success? <==>
      && WellFormedRoom(cfg.wards, room)
      && (p.ward.Some? ==> p.ward.value in cfg.rooms && room in cfg.rooms[p.ward.value])
    ensures r.Success? ==>
      r.value == Placement(if p.ward.Some? then p.ward else Some(room / 10), Some(room))
    ensures r.Failure? ==>
      r.error == if !WellFormedRoom(cfg.wards, room) then InvalidRoomNumber(room)
                 else if p.ward.value !in cfg.rooms then NoRoomsForWard(p.ward.value)
                 else RoomNotInWard(room, p.ward.value)
    ensures Admissible(cfg, p) && r.Success? ==> Admissible(cfg, r.value)
  {
    var check := ValidateRoomNumber(cfg.wards, room);
    if check.Failure? then Failure(check.error)
    else if p.ward.Some? then
      if p.ward.value !in cfg.rooms then Failure(NoRoomsForWard(p.ward.value))
      else if room in cfg.rooms[p.ward.value] then Success(p.(room := Some(room)))
      else Failure(RoomNotInWard(room, p.ward.value))
    else Success(Placement(Some(LeadingDigit(room)), Some(room)))
  }

  /** Repeating a successful `set_room` with the same room: it succeeds again, leaving the
      allocation as it is, exactly when the room is in the (possibly just derived) ward's room set. */
  lemma RepeatedRoomStep(cfg: Config, p: Placement, room: int)
    requires RoomStep(cfg, p, room).Success?
    ensures var q := RoomStep(cfg, p, room).value;
      && (RoomStep(cfg, q, room).Success? <==> q.ward.value in cfg.rooms && room in cfg.rooms[q.ward.value])
      && (RoomStep(cfg, q, room).Success? ==> RoomStep(cfg, q, room).value == q)
  {
  }

  /** With a ward already assigned, a successful `set_room` leaves the room registered to that ward. */
  lemma RoomStepWithWardIsRegistered(cfg: Config, p: Placement, room: int)
    requires p.ward.Some?
    requires RoomStep(cfg, p, room).Success?
    ensures Registered(cfg, RoomStep(cfg, p, room).value)
  {
  }

  const ExampleColumns := ColumnNames("id", "name", "age", "gender", "checkin", "checkout", "ward", "room")
  const ExampleConfig := Config({1, 2}, map[1 := {11, 12}, 2 := {21, 22}], ExampleColumns)

  /** With no ward set, `set_room` derives the ward from the room's first digit without consulting
      ROOM_NUMBERS, so a room that is not registered to its ward is accepted. */
  lemma DerivedWardSkipsRoomTable()
    ensures RoomStep(ExampleConfig, Placement(None, None), 23) == Success(Placement(Some(2), Some(23)))
    ensures !Registered(ExampleConfig, Placement(Some(2), Some(23)))
  {
  }

  /** `set_ward` keeps the room even when it is not registered to the new ward. */
  lemma WardChangeStrandsRoom()
    ensures Registered(ExampleConfig, Placement(Some(1), Some(11)))
    ensures WardStep(ExampleConfig, Placement(Some(1), Some(11)), 2) == Success(Placement(Some(2), Some(11)))
    ensures !Registered(ExampleConfig, Placement(Some(2), Some(11)))
  {
  }

  /** `str()` of an optional time: Python renders None as "None". */
  function RenderTime(t: Option<Timestamp>): (s: string)
    ensures t.None? ==> s == "None"
    ensures t.Some? ==> s == t.value
  {
    match t
    case None => "None"
    case Some(text) => text
  }

  /** `int(x)` for an optional integer field: None raises TypeError. */
  function IntCoerce(x: Option<int>): (r: Result<int, PatientError>)
    ensures r.Success? <==> x.Some?
    ensures r.Success? ==> r.value == x.value
    ensures r.Failure? ==> r.error == IncompleteRecord
  {
    match x
    case None => Failure(IncompleteRecord)
    case Some(v) => Success(v)
  }

  class Patient {
    const config: Config
    const id: int
    const name: string
    const gender: string
    const age: int
    var checkinTime: Timestamp
    var checkoutTime: Option<Timestamp>
    var ward: Option<int>
    var room: Option<int>

    ghost predicate Valid()
      reads this
    {
      Admissible(config, Placement(ward, room))
    }

    function Placed(): Placement
      reads this
    {
      Placement(ward, room)
    }

    /** `__init__`: `newId` is the uuid4 value and `clock` the current time, both supplied by the caller. */
    constructor (config: Config, name: string, gender: string, age: int, newId: int, clock: Timestamp)
      ensures Valid()
      ensures this.config == config && id == newId
      ensures this.name == name && this.gender == gender && this.age == age
      ensures checkinTime == clock && checkoutTime == None
      ensures ward == None && room == None
    {
      this.config := config;
      this.name := name;
      this.gender := gender;
      this.age := age;
      this.id := newId;
      this.checkinTime := clock;
      this.checkoutTime := None;
      this.ward := None;
      this.room := None;
    }

    /** `get_id`: `id` is a `const`, so this is the constructor's `newId` for the object's whole life. */
    function GetId(): (r: int)
      ensures r == id
    {
      id
    }

    function GetName(): (r: string)
      ensures r == name
    {
      name
    }

    function GetGender(): (r: string)
      ensures r == gender
    {
      gender
    }

    function GetAge(): (r: int)
      ensures r == age
    {
      age
    }

    function GetWard(): (r: Option<int>)
      reads this
      ensures r == ward
    {
      ward
    }

    function GetRoom(): (r: Option<int>)
      reads this
      ensures r == room
    {
      room
    }

    /** `set_checkin_time`: the clock reading when `now`, else the given time; nothing else changes. */
    method SetCheckinTime(clock: Timestamp, dateTime: Timestamp := "", now: bool := true)
      requires Valid()
      modifies this
      ensures Valid()
      ensures checkinTime == if now then clock else dateTime
      ensures checkoutTime == old(checkoutTime) && ward == old(ward) && room == old(room)
    {
      if now {
        checkinTime := clock;
      } else {
        checkinTime := dateTime;
      }
    }

    /** `set_checkout_time`: the clock reading when `now`, else the given time; nothing else changes. */
    method SetCheckoutTime(clock: Timestamp, time: Timestamp := "", now: bool := true)
      requires Valid()
      modifies this
      ensures Valid()
      ensures checkoutTime == Some(if now then clock else time)
      ensures checkinTime == old(checkinTime) && ward == old(ward) && room == old(room)
    {
      if now {
        checkoutTime := Some(clock);
      } else {
        checkoutTime := Some(time);
      }
    }

    /** `set_ward`: fails on a ward outside WARD_NUMBERS with nothing changed; otherwise only the ward changes. */
    method SetWard(w: int) returns (o: Outcome<PatientError>)
      requires Valid()
      modifies this
      ensures Valid()
      ensures o.Pass? <==> w in config.wards
      ensures o.Fail? ==> o.error == WardNotAvailable(w)
      ensures ward == if o.Pass? then Some(w) else old(ward)
      ensures room == old(room) && checkinTime == old(checkinTime) && checkoutTime == old(checkoutTime)
      ensures match WardStep(config, old(Placed()), w)
              case Success(q) => o == Pass && Placed() == q
              case Failure(e) => o == Fail(e) && Placed() == old(Placed())
    {
      if w !in config.wards {
        return Fail(WardNotAvailable(w));
      }
      ward := Some(w);
      o := Pass;
    }

    /** `set_room`: validates the room's format, then either checks it against the assigned ward's
        room set or, with no ward, derives the ward from its first digit. A failure changes nothing;
        a success leaves both ward and room set, so the payload can then be built. */
    method SetRoom(r: int) returns (o: Outcome<PatientError>)
      requires Valid()
      modifies this
      ensures Valid()
      ensures checkinTime == old(checkinTime) && checkoutTime == old(checkoutTime)
      ensures !WellFormedRoom(config.wards, r) ==> o == Fail(InvalidRoomNumber(r))
      ensures o.Fail? ==> ward == old(ward) && room == old(room)
      ensures o.Pass? ==> ward.Some? && room == Some(r) && CreatePatientPayload().Success?
      ensures old(ward).None? && WellFormedRoom(config.wards, r) ==> o.Pass? && ward == Some(r / 10)
      ensures old(ward).Some? && WellFormedRoom(config.wards, r) ==>
        && ward == old(ward)
        && (o.Pass? <==> old(ward).value in config.rooms && r in config.rooms[old(ward).value])
      ensures match RoomStep(config, old(Placed()), r)
              case Success(q) => o == Pass && Placed() == q
              case Failure(e) => o == Fail(e) && Placed() == old(Placed())
    {
      var check := ValidateRoomNumber(config.wards, r);
      if check.Failure? {
        return Fail(check.error);
      }
      if ward.Some? {
        var w := ward.value;
        if w !in config.rooms {
          return Fail(NoRoomsForWard(w));
        }
        if r in config.rooms[w] {
          room := Some(r);
          o := Pass;
        } else {
          o := Fail(RoomNotInWard(r, w));
        }
      } else {
        ward := Some(LeadingDigit(r));
        room := Some(r);
        o := Pass;
      }
    }

    /** `create_patient_payload`: the eight-field record, failing exactly when ward or room is unset. */
    function CreatePatientPayload(): (r: Result<Payload, PatientError>)
      reads this
      ensures r.Failure? <==> ward.None? || room.None?
      ensures r.Failure? ==> r.error == IncompleteRecord
      ensures r.Success? ==> r.value.Keys == config.columns.Keys()
      ensures r.Success? && config.columns.Distinct() ==>
        var c := config.columns;
        && r.value[c.id] == Int(id) && r.value[c.age] == Int(age)
        && r.value[c.ward] == Int(ward.value) && r.value[c.room] == Int(room.value)
        && r.value[c.name] == Str(name) && r.value[c.gender] == Str(gender)
        && r.value[c.checkin] == Str(checkinTime)
        && r.value[c.checkout] == Str(if checkoutTime.None? then "None" else checkoutTime.value)
    {
      var wardNumber := IntCoerce(ward);
      var roomNumber := IntCoerce(room);
      if wardNumber.Failure? then Failure(wardNumber.error)
      else if roomNumber.Failure? then Failure(roomNumber.error)
      else
        var c := config.columns;
        Success(map[
          c.id := Int(id),
          c.name := Str(name),
          c.age := Int(age),
          c.gender := Str(gender),
          c.checkin := Str(checkinTime),
          c.checkout := Str(RenderTime(checkoutTime)),
          c.ward := Int(wardNumber.value),
          c.room := Int(roomNumber.value)
        ])
    }
  }

  /** A patient's life from admission to payload: no ward, room 23 gives ward 2; the id never changes. */
  method AdmissionExample(newId: int, admitted: Timestamp, left: Timestamp) {
    var p := new Patient(ExampleConfig, "Jane Doe", "Female", 30, newId, admitted);
    var payload := p.CreatePatientPayload();
    assert payload == Failure(IncompleteRecord);
    var o := p.SetRoom(23);
    assert o == Pass && p.ward == Some(2) && p.room == Some(23);
    o := p.SetRoom(24);
    assert o == Fail(RoomNotInWard(24, 2)) && p.room == Some(23);
    o := p.SetWard(3);
    assert o == Fail(WardNotAvailable(3)) && p.ward == Some(2);
    p.SetCheckoutTime(left);
    payload := p.CreatePatientPayload();
    assert ExampleColumns.Distinct();
    assert payload.Success? && payload.value["ward"] == Int(2) && payload.value["room"] == Int(23);
    assert payload.value["checkout"] == Str(left);
    assert p.GetId() == newId;
  }
}
