/**
 * The `POST /api/hl7-to-fhir` handler: checks the request body, reads six
 * PID paths from the decoded HL7 v2 message, normalises them and builds a
 * FHIR message Bundle holding one Patient.
 *
 * HL7 decoding belongs to an external library and is a parameter here:
 * `decode` maps the message text to a total path lookup, or to a library
 * failure (the exception the handler turns into a 500). A lookup returns ""
 * for an absent path, which the handler's `||` defaults treat like a missing
 * value. The generation timestamp is a parameter instead of a clock read.
 */
module Hl7ToFhir {
  import opened Wrappers
  import opened Fhir

  /** A total lookup from an HL7 path such as "PID.3.1" to its text ("" if absent). */
  type Lookup = string -> string

  /** What the HL7 library yields for a message text. */
  datatype Decoded = Parsed(get: Lookup) | LibraryFailure

  /** The request body: a string, or anything else (absent, a parsed JSON object, ...). */
  datatype RequestBody = Text(text: string) | NotText

  datatype Error = InvalidBody | InternalError
  {
    /** The HTTP status the handler answers with: client fault or server fault. */
    function Status(): (s: int)
      ensures this == InvalidBody ==> s == 400
      ensures this == InternalError ==> s == 500
      ensures s < 500 <==> this == InvalidBody
    {
      match this
      case InvalidBody => 400
      case InternalError => 500
    }
  }

  const MrnPath: string := "PID.3.1"
  const FamilyNamePath: string := "PID.5.1"
  const GivenNamePath: string := "PID.5.2"
  const BirthDateComponentPath: string := "PID.7.1"
  const BirthDatePath: string := "PID.7"
  const SexPath: string := "PID.8"

  const UnknownMrn: string := "UNKNOWN-MRN"
  const UnknownName: string := "UNKNOWN"

  /** The only bodies the handler passes on: non-empty strings. */
  predicate AcceptableBody(body: RequestBody) {
    body.Text? && body.text != ""
  }

  /** JavaScript's `value || fallback` on a string: "" is falsy. */
  function OrDefault(value: string, fallback: string): string {
    if value != "" then value else fallback
  }

  /** PID.7.1, else the whole PID.7 field, else "". */
  function RawBirthDate(get: Lookup): (r: string)
    ensures get(BirthDateComponentPath) != "" ==> r == get(BirthDateComponentPath)
    ensures get(BirthDateComponentPath) == "" && get(BirthDatePath) != "" ==> r == get(BirthDatePath)
    ensures get(BirthDateComponentPath) == "" && get(BirthDatePath) == "" ==> r == ""
  {
    OrDefault(OrDefault(get(BirthDateComponentPath), get(BirthDatePath)), "")
  }

  /**
   * YYYYMMDD... to YYYY-MM-DD; absent when the raw value is shorter than eight
   * characters. Characters are not checked to be digits, and everything after
   * the eighth is ignored.
   */
  function NormalizeBirthDate(raw: string): (r: Option<string>)
    ensures r.Some? <==> |raw| >= 8
    ensures r.Some? ==> IsDateShape(r.value) && DateDigits(r.value) == raw[..8]
  {
    if raw != "" && |raw| >= 8 then
      var d := raw[0..4] + "-" + raw[4..6] + "-" + raw[6..8];
      assert d[..4] == raw[..4] && d[5..7] == raw[4..6] && d[8..10] == raw[6..8];
      assert raw[..8] == raw[..4] + raw[4..6] + raw[6..8];
      Some(d)
    else
      None
  }

  /** HL7 administrative sex (PID.8) to FHIR gender; every other value is unknown. */
  function MapGender(raw: string): (g: Gender)
    ensures g == Male <==> raw == "M"
    ensures g == Female <==> raw == "F"
    ensures g == Other <==> raw == "O"
    ensures g == Unknown <==> raw != "M" && raw != "F" && raw != "O"
  {
    if raw == "M" then Male
    else if raw == "F" then Female
    else if raw == "O" then Other
    else Unknown
  }

  /** The Patient resource built from the PID lookups. */
  function MapPatient(get: Lookup): (p: Patient)
    ensures WellFormedPatient(p)
    ensures get(MrnPath) != "" ==> p.identifier[0].value == get(MrnPath)
    ensures get(MrnPath) == "" ==> p.identifier[0].value == UnknownMrn
    ensures get(FamilyNamePath) != "" ==> p.name[0].family == get(FamilyNamePath)
    ensures get(FamilyNamePath) == "" ==> p.name[0].family == UnknownName
    ensures get(GivenNamePath) != "" ==> p.name[0].given == [get(GivenNamePath)]
    ensures get(GivenNamePath) == "" ==> p.name[0].given == [UnknownName]
    ensures p.gender == MapGender(get(SexPath))
    ensures p.birthDate.Some? <==> |RawBirthDate(get)| >= 8
    ensures p.birthDate.Some? ==> DateDigits(p.birthDate.value) == RawBirthDate(get)[..8]
  {
    var mrn := OrDefault(get(MrnPath), UnknownMrn);
    var lastName := OrDefault(get(FamilyNamePath), UnknownName);
    var firstName := OrDefault(get(GivenNamePath), UnknownName);
    var dobFhir := NormalizeBirthDate(RawBirthDate(get));
    var genderFhir := MapGender(get(SexPath));
    Patient(
      "Patient",
      [Identifier("usual", MedicalRecordType, mrn)],
      [HumanName("official", lastName, [firstName])],
      genderFhir,
      dobFhir)
  }

  /**
   * The whole handler. A body that is not a non-empty string is rejected before
   * the library sees it; a library failure becomes an internal error; otherwise
   * the Bundle wraps the mapped Patient and carries `timestamp` as lastUpdated.
   */
  function Translate(body: RequestBody, decode: string -> Decoded, timestamp: string): (r: Result<Bundle, Error>)
    ensures r == Failure(InvalidBody) <==> !AcceptableBody(body)
    ensures r == Failure(InternalError) <==> AcceptableBody(body) && decode(body.text).LibraryFailure?
    ensures r.Success? <==> AcceptableBody(body) && decode(body.text).Parsed?
    ensures r.Success? ==> WellFormedBundle(r.value) && r.value.meta.lastUpdated == timestamp
    ensures r.Success? ==> r.value.entry[0].resource == MapPatient(decode(body.text).get)
  {
    if !AcceptableBody(body) then
      Failure(InvalidBody)
    else
      match decode(body.text)
      case LibraryFailure => Failure(InternalError)
      case Parsed(get) =>
        Success(Bundle("Bundle", "message", Meta(timestamp), [Entry(MapPatient(get))]))
  }
}
