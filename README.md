# Patient portal: the patient record and the API's request helpers, in Dafny

This project models the core of a small hospital patient portal.

- **The patient record** (`src/patient.py`). A `Patient` has an id, a name, a gender and an age, all fixed at construction. It also has a check-in time, a check-out time, a ward and a room. The ward must be one of the configured wards (`WARD_NUMBERS`). A room must be two decimal digits, and its first digit must be a configured ward. When a ward is already assigned, the room must also be in that ward's room set (`ROOM_NUMBERS`). When no ward is assigned, the ward is taken from the room's first digit. The record turns into an eight-field payload keyed by the configured column names. Building the payload fails while ward or room is unset.
- **Two helpers of the API controller** (`src/api_controller.py`). The create endpoint checks that a request body has every required column name. `row_to_dict` turns a database row into a dictionary by zipping the column names with the row's values.

Modules:

- `Results` holds `Option`, `Result` and `Outcome`. A Python exception becomes a `Failure`/`Fail` value that carries a `PatientError`.
- `PyText` models what room validation uses of Python's text conversion: `str()` of an integer and `int()` of one character.
- `PatientRecord` holds the `Patient` class. Its methods change the ward, room and time fields in place. `SetWard` and `SetRoom` are proved against two pure step functions, `WardStep` and `RoomStep`, which carry the lemmas that relate several calls. The two time setters state their effect on the fields directly. The configuration (`WARD_NUMBERS`, `ROOM_NUMBERS` and the eight column-name constants) is a parameter stored in the object as the constant `config`.
- `ApiController` holds `ValidatePatientRequestBody`, and `RowToDict` built from `Zip` and `DictOf` (Python's `zip` and `dict`). `PATIENT_COLUMN_NAMES` is the parameter `columnNames`.

The id, name, gender and age are `const` fields, so no operation can change them. That makes `get_id` (and the other three getters) constant over the object's life. The getters are the functions `GetId`, `GetName`, `GetGender`, `GetAge`, `GetWard` and `GetRoom`.

A stricter invariant, that a present room always belongs to its ward's registered room set (`Registered`), does not hold in the code. It breaks in two ways:
- `set_ward` keeps a room that is not in the new ward's set (`WardChangeStrandsRoom`).
- `set_room` with no ward set never consults `ROOM_NUMBERS` (`DerivedWardSkipsRoomTable`).

The model keeps only the weaker invariant that the code does maintain (`Admissible`). `RoomStepWithWardIsRegistered` shows that `Registered` holds after a room is set under an assigned ward.

## Model

| member | source | states |
|---|---|---|
| PyText.IntToStr | src/patient.py:168 | `str(room_number)` of an integer is never empty, and it starts with `-` exactly for a negative number |
| PyText.ParseDigit | src/patient.py:169 | on the characters `str()` of an integer produces (`-` and `0`–`9`), `int()` of one character succeeds exactly on a digit, and is the inverse of the digit's rendering |
| PyText.DecimalRoundTrip | src/patient.py:168 | the decimal rendering used for `str(room_number)` reads back as the same number |
| PyText.TwoDigitRendering | src/patient.py:167-170 | the text of `n` has length 2 with a digit in front exactly when 10 ≤ n ≤ 99, and that digit is then n / 10; for a negative n, `int('-')` fails |
| PatientRecord.ValidateRoomNumber | src/patient.py:154-174 | succeeds (returning True) iff 10 ≤ room ≤ 99 and room / 10 is a configured ward, otherwise raises the invalid-room error; negative rooms are rejected too |
| PatientRecord.LeadingDigit | src/patient.py:194 | `int(str(room)[0])` of a two-digit room is its tens digit |
| PatientRecord.WardStep | src/patient.py:131-143 | set_ward succeeds iff the ward is configured; on success only the ward changes, and the room is kept as it was; it preserves `Admissible` |
| PatientRecord.RoomStep | src/patient.py:176-195 | set_room succeeds iff the room is well-formed and, when a ward is set, it is in that ward's room set; it then sets the room, keeps an assigned ward or derives it as room / 10 without looking at ROOM_NUMBERS, and names each error (bad format, ward without a room table, room not in ward); it preserves `Admissible` |
| PatientRecord.RepeatedRoomStep | src/patient.py:186-195 | repeating a successful set_room succeeds again, with nothing changed, exactly when the room is in the now-assigned ward's room set |
| PatientRecord.RoomStepWithWardIsRegistered | src/patient.py:187-192 | with a ward already assigned, a successful set_room leaves the room in that ward's room set |
| PatientRecord.DerivedWardSkipsRoomTable | src/patient.py:193-195 | with no ward, room 23 is accepted and sets ward 2 even when 23 is not in ward 2's room set |
| PatientRecord.WardChangeStrandsRoom | src/patient.py:141-143 | set_ward moves a registered room's patient to a ward whose room set does not hold that room |
| PatientRecord.IntCoerce | src/patient.py:220-221 | `int()` of the ward or room field fails exactly when the field is None, and then with the incomplete-record error; otherwise it returns the field's value |
| PatientRecord.RenderTime | src/patient.py:219 | `str()` of the checkout field: an unset time renders as "None", a set one as its own text |
| PatientRecord.Patient.GetId | src/patient.py:69-76 | `get_id` returns `id`, a `const` field, so it equals the constructor's `newId` for the object's whole life |
| PatientRecord.Patient.GetName | src/patient.py:78-85 | `get_name` returns the name given at construction, which never changes |
| PatientRecord.Patient.GetGender | src/patient.py:87-94 | `get_gender` returns the gender given at construction, which never changes |
| PatientRecord.Patient.GetAge | src/patient.py:96-103 | `get_age` returns the age given at construction, which never changes |
| PatientRecord.Patient.GetWard | src/patient.py:145-152 | `get_ward` returns the current ward, None until one is assigned |
| PatientRecord.Patient.GetRoom | src/patient.py:197-204 | `get_room` returns the current room, None until one is assigned |
| PatientRecord.Patient.constructor | src/patient.py:33-49 | a new patient carries the given id, name, gender and age, is checked in at the clock time, and has no checkout, ward or room |
| PatientRecord.Patient.SetCheckinTime | src/patient.py:105-116 | the check-in time becomes the clock reading when `now`, else the given time; nothing else changes |
| PatientRecord.Patient.SetCheckoutTime | src/patient.py:118-129 | the check-out time becomes the clock reading when `now`, else the given time; nothing else changes |
| PatientRecord.Patient.SetWard | src/patient.py:131-143 | fails iff the ward is not configured, and then nothing changes; on success only the ward changes, to the given one |
| PatientRecord.Patient.SetRoom | src/patient.py:176-195 | a malformed room fails; with no ward, a valid room sets ward room / 10 and the room; with a ward, it succeeds iff the room is in that ward's room set and keeps the ward; every failure leaves ward and room as they were; every success leaves both set, so that the payload can be built |
| PatientRecord.Patient.CreatePatientPayload | src/patient.py:206-222 | fails iff ward or room is unset; otherwise its keys are exactly the eight column names, with id, age, ward and room as ints, name, gender and times as strings, and an unset checkout rendered as "None" |
| ApiController.ValidatePatientRequestBody | src/api_controller.py:46-60 | true iff every column name is a key of the body |
| ApiController.ValidationIgnoresValues | src/api_controller.py:57-60 | the verdict depends only on the body's keys, never on its values |
| ApiController.ValidationMonotonic | src/api_controller.py:57 | adding keys to a valid body keeps it valid |
| ApiController.Zip | src/api_controller.py:72 | `zip` pairs the i-th name with the i-th value, up to the shorter length |
| ApiController.DictOf | src/api_controller.py:72 | `dict` of pairs has exactly the pairs' keys, and each key maps to the value of its last pair |
| ApiController.RowToDict | src/api_controller.py:62-72 | the keys are the first min(\|names\|, \|row\|) column names; surplus names or values are dropped; a name maps to the row value at its last position |
| ApiController.RowToDictLookup | src/api_controller.py:72 | with distinct names, `row_to_dict(row)[names[i]] == row[i]` for every i below min(\|names\|, \|row\|) |
| ApiController.RowToDictRoundTrip | src/api_controller.py:72 | with distinct names and one value per name, reading the dictionary back in column order gives the row |
| ApiController.PatientPayloadIsValidBody | src/api_controller.py:56-60 | a built patient payload passes the create endpoint's check when the required names are among the payload's column names |

## Left out

- `Patient.commit` (src/patient.py:224-229) is an HTTP POST, which is network I/O. `PatientPayloadIsValidBody` covers what the receiving endpoint checks.
- `generate_current_time` and `get_patient_id` read the clock and `uuid4`. They are inputs (`clock`, `newId`). The uniqueness of uuid values is probabilistic and is not modelled.
- Times are represented by the text `str()` gives them (`Timestamp`). How datetimes are formatted is library behaviour. An explicit time given to the setters is a text; passing None or a non-text object is not modelled.
- Rooms and wards are integers. The UI passes rooms as text, or None in place of an empty room. `validate_room_number` on None raises ValueError, because `str(None)` is `"None"` and `int('N')` fails. On the empty text it raises IndexError. Those inputs are not modelled.
- The configuration modules (`config`, `patient_db_config`) are not part of this model. Their constants are parameters: `Config` for the patient and `columnNames` for the controller.
- `ValidatePatientRequestBody` takes a dictionary. A request body that is not a dictionary (None from a missing JSON body, or a JSON list) is not modelled.
- Building a payload applies `str()`/`int()` to name, gender and age. The model takes them as already text and integer.
- `src/patient_db.py` is not part of this model. Each of its methods is one SQLAlchemy statement whose insert/select/update/delete semantics come from the library and the database engine.
- The Flask routing, request handlers and `run` of `src/api_controller.py` are not modelled; they are HTTP plumbing. In the create handler, `insert_patient(...)[0]` (src/api_controller.py:84) would raise on a None result before the None check on the next line.
- `src/front.py` is not part of this model; it is a web UI that makes HTTP calls.
