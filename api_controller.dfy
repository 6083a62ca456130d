/** The two pure helpers of the patient API controller (src/api_controller.py): the request-body
    check of the create endpoint and the conversion of a database row into a dictionary.
    PATIENT_COLUMN_NAMES, a configuration constant, is the parameter `columnNames`. */
module ApiController {
  import PatientRecord

  function Min(a: int, b: int): int {
    if a < b then a else b
  }

  /** `validate_patient_request_body`: `all(field in body for field in columnNames)`, which walks
      the names in order and stops at the first missing one. */
  function ValidatePatientRequestBody<V>(columnNames: seq<string>, body: map<string, V>): (ok: bool)
    ensures ok <==> (set c | c in columnNames) <= body.Keys
  {
    if columnNames == [] then true
    else columnNames[0] in body && ValidatePatientRequestBody(columnNames[1..], body)
  }

  /** Only the keys matter: two bodies with the same keys are judged alike, whatever their values. */
  lemma ValidationIgnoresValues<V, W>(columnNames: seq<string>, a: map<string, V>, b: map<string, W>)
    requires a.Keys == b.Keys
    ensures ValidatePatientRequestBody(columnNames, a) == ValidatePatientRequestBody(columnNames, b)
  {
  }

  /** Extra keys never make a valid body invalid. */
  lemma ValidationMonotonic<V>(columnNames: seq<string>, body: map<string, V>, extra: map<string, V>)
    requires ValidatePatientRequestBody(columnNames, body)
    ensures ValidatePatientRequestBody(columnNames, extra + body)
    ensures ValidatePatientRequestBody(columnNames, body + extra)
  {
  }

  /** Python's `zip`: pairs up the two sequences position by position and stops at the shorter. */
  function Zip<A, B>(xs: seq<A>, ys: seq<B>): (ps: seq<(A, B)>)
    ensures |ps| == Min(|xs|, |ys|)
    ensures forall i | 0 <= i < |ps| :: ps[i] == (xs[i], ys[i])
  {
    if xs == [] || ys == [] then [] else [(xs[0], ys[0])] + Zip(xs[1..], ys[1..])
  }

  /** Position i holds the last occurrence of its key among the pairs. */
  ghost predicate LastKeyAt<K, V>(ps: seq<(K, V)>, i: int)
    requires 0 <= i < |ps|
  {
    forall j | i < j < |ps| :: ps[j].0 != ps[i].0
  }

  /** Python's `dict` of a sequence of pairs: inserted in order, so a later pair with the same key wins. */
  function DictOf<K, V>(ps: seq<(K, V)>): (d: map<K, V>)
    ensures d.Keys == set i | 0 <= i < |ps| :: ps[i].0
    ensures forall i | 0 <= i < |ps| && LastKeyAt(ps, i) :: d[ps[i].0] == ps[i].1
  {
    if ps == [] then map[]
    else
      var n := |ps| - 1;
      var init := ps[..n];
      assert forall i | 0 <= i < n :: init[i] == ps[i];
      DictOf(init)[ps[n].0 := ps[n].1]
  }

  /** Whether no name occurs twice. */
  ghost predicate Distinct<T>(s: seq<T>) {
    forall i, j | 0 <= i < j < |s| :: s[i] != s[j]
  }

  /** `row_to_dict`: `dict(zip(PATIENT_COLUMN_NAMES, row))`. Its keys are the first
      min(|columnNames|, |row|) names; each maps to the value at the position of its last occurrence. */
  function RowToDict<V>(columnNames: seq<string>, row: seq<V>): (d: map<string, V>)
    ensures d.Keys == set i | 0 <= i < Min(|columnNames|, |row|) :: columnNames[i]
    ensures forall i | 0 <= i < Min(|columnNames|, |row|) ::
      (forall j | i < j < Min(|columnNames|, |row|) :: columnNames[j] != columnNames[i]) ==>
        d[columnNames[i]] == row[i]
  {
    var ps := Zip(columnNames, row);
    assert forall i | 0 <= i < |ps| :: ps[i].0 == columnNames[i];
    DictOf(ps)
  }

  /** With distinct names, every name that found a value maps to the value at its own position. */
  lemma RowToDictLookup<V>(columnNames: seq<string>, row: seq<V>)
    requires Distinct(columnNames)
    ensures forall i | 0 <= i < Min(|columnNames|, |row|) ::
      columnNames[i] in RowToDict(columnNames, row) && RowToDict(columnNames, row)[columnNames[i]] == row[i]
  {
  }

  /** Reading a dictionary back in column order. */
  function ReadBack<V>(columnNames: seq<string>, d: map<string, V>): (row: seq<V>)
    requires forall c | c in columnNames :: c in d
    ensures |row| == |columnNames|
    ensures forall i | 0 <= i < |row| :: row[i] == d[columnNames[i]]
  {
    if columnNames == [] then [] else [d[columnNames[0]]] + ReadBack(columnNames[1..], d)
  }

  /** Round trip: with distinct names and one value per name, reading the dictionary back in
      column order gives the original row. */
  lemma RowToDictRoundTrip<V>(columnNames: seq<string>, row: seq<V>)
    requires Distinct(columnNames)
    requires |row| == |columnNames|
    ensures forall c | c in columnNames :: c in RowToDict(columnNames, row)
    ensures ReadBack(columnNames, RowToDict(columnNames, row)) == row
  {
    RowToDictLookup(columnNames, row);
  }

  /** A patient's payload passes the create endpoint's check whenever every required name is one
      of the payload's eight column names. */
  lemma PatientPayloadIsValidBody(p: PatientRecord.Patient, columnNames: seq<string>)
    requires p.CreatePatientPayload().Success?
    requires forall c | c in columnNames :: c in p.config.columns.Keys()
    ensures ValidatePatientRequestBody(columnNames, p.CreatePatientPayload().value)
  {
  }
}
