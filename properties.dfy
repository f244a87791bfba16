/**
 * What the translation promises across calls and inputs: the birth-date and
 * gender normalisations have inverses, the Patient and the Bundle built from
 * arbitrary lookups are exactly the well-formed ones, the output depends only on the six PID
 * lookups (and on the timestamp only through meta.lastUpdated), and a
 * rejected body never reaches the HL7 library.
 */
module Properties {
  import opened Wrappers
  import opened Fhir
  import opened Hl7ToFhir

  /** An HL7 administrative-sex code for each gender (the inverse direction of MapGender). */
  function Hl7Sex(g: Gender): string {
    match g
    case Male => "M"
    case Female => "F"
    case Other => "O"
    case Unknown => "U"
  }

  lemma GenderRoundTrip(g: Gender)
    ensures MapGender(Hl7Sex(g)) == g
  {
  }

  /** Codes outside M, F and O, including absence and lower case, map to unknown. */
  lemma GenderExamples()
    ensures MapGender("M") == Male && MapGender("F") == Female && MapGender("O") == Other
    ensures MapGender("") == Unknown && MapGender("U") == Unknown
    ensures MapGender("X") == Unknown && MapGender("m") == Unknown
  {
  }

  /** Every date-shaped string is produced from its own eight date characters. */
  lemma BirthDateOnto(d: string)
    requires IsDateShape(d)
    ensures NormalizeBirthDate(DateDigits(d)) == Some(d)
  {
    var r := NormalizeBirthDate(DateDigits(d)).value;
    DateDigitsInjective(r, d);
  }

  /** Two raw dates that agree on their first eight characters give the same birthDate. */
  lemma BirthDateIgnoresTail(raw: string, tail: string)
    requires |raw| >= 8
    ensures NormalizeBirthDate(raw + tail) == NormalizeBirthDate(raw)
  {
    assert (raw + tail)[..8] == raw[..8];
    DateDigitsInjective(NormalizeBirthDate(raw + tail).value, NormalizeBirthDate(raw).value);
  }

  /** A date-shaped string is determined by its date characters. */
  lemma DateDigitsInjective(d1: string, d2: string)
    requires IsDateShape(d1) && IsDateShape(d2)
    requires DateDigits(d1) == DateDigits(d2)
    ensures d1 == d2
  {
    var k1, k2 := DateDigits(d1), DateDigits(d2);
    forall i | 0 <= i < 10
      ensures d1[i] == d2[i]
    {
      if i < 4 {
        assert k1[i] == d1[i] && k2[i] == d2[i];
      } else if 4 < i < 7 {
        assert k1[i - 1] == d1[i] && k2[i - 1] == d2[i];
      } else if 7 < i {
        assert k1[i - 2] == d1[i] && k2[i - 2] == d2[i];
      }
    }
  }

  /** A message lookup from which MapPatient rebuilds `p`. */
  function LookupFor(p: Patient): Lookup
    requires WellFormedPatient(p)
  {
    var mrn := p.identifier[0].value;
    var family := p.name[0].family;
    var given := p.name[0].given[0];
    var dob := if p.birthDate.Some? then DateDigits(p.birthDate.value) else "";
    var sex := Hl7Sex(p.gender);
    path =>
      if path == MrnPath then mrn
      else if path == FamilyNamePath then family
      else if path == GivenNamePath then given
      else if path == BirthDateComponentPath then dob
      else if path == SexPath then sex
      else ""
  }

  /**
   * Every well-formed Patient is MapPatient of some lookup. The lookup is
   * unconstrained, so its values may hold characters a real HL7 field cannot.
   */
  lemma PatientReachable(p: Patient)
    requires WellFormedPatient(p)
    ensures MapPatient(LookupFor(p)) == p
  {
    var get := LookupFor(p);
    var q := MapPatient(get);
    GenderRoundTrip(p.gender);
    if p.birthDate.Some? {
      BirthDateOnto(p.birthDate.value);
    }
    assert q.identifier == p.identifier;
    assert q.name[0].given == p.name[0].given;
    assert q.name == p.name;
  }

  /**
   * Every well-formed Bundle is the handler's answer for some HL7 library
   * result; the message text plays no role beyond being a non-empty string.
   */
  lemma BundleReachable(b: Bundle)
    requires WellFormedBundle(b)
    ensures Translate(Text("MSH"), _ => Parsed(LookupFor(b.entry[0].resource)), b.meta.lastUpdated) == Success(b)
  {
    PatientReachable(b.entry[0].resource);
    assert b.entry == [Entry(b.entry[0].resource)];
  }

  /** The Patient depends on the message only through the six PID paths read. */
  lemma PatientDependsOnlyOnPidPaths(get1: Lookup, get2: Lookup)
    requires get1(MrnPath) == get2(MrnPath)
    requires get1(FamilyNamePath) == get2(FamilyNamePath)
    requires get1(GivenNamePath) == get2(GivenNamePath)
    requires get1(BirthDateComponentPath) == get2(BirthDateComponentPath)
    requires get1(BirthDatePath) == get2(BirthDatePath)
    requires get1(SexPath) == get2(SexPath)
    ensures MapPatient(get1) == MapPatient(get2)
  {
  }

  /** Two translations of the same request differ at most in meta.lastUpdated. */
  lemma TimestampOnlyAffectsMeta(body: RequestBody, decode: string -> Decoded, t1: string, t2: string)
    ensures Translate(body, decode, t1).Success? == Translate(body, decode, t2).Success?
    ensures Translate(body, decode, t1).Failure? ==> Translate(body, decode, t1) == Translate(body, decode, t2)
    ensures Translate(body, decode, t1).Success? ==>
      Translate(body, decode, t1).value.(meta := Meta(t2)) == Translate(body, decode, t2).value
  {
  }

  /** A rejected body is rejected whatever the HL7 library would have done with it. */
  lemma RejectionPrecedesDecoding(body: RequestBody, decode1: string -> Decoded, decode2: string -> Decoded, t: string)
    requires !AcceptableBody(body)
    ensures Translate(body, decode1, t) == Translate(body, decode2, t) == Failure(InvalidBody)
  {
  }

  /** A message with no PID data still translates, to the all-defaults Patient. */
  lemma AbsentPidDefaults(text: string, t: string)
    requires text != ""
    ensures Translate(Text(text), _ => Parsed(_ => ""), t) ==
      Success(Bundle("Bundle", "message", Meta(t), [Entry(Patient(
        "Patient",
        [Identifier("usual", MedicalRecordType, "UNKNOWN-MRN")],
        [HumanName("official", "UNKNOWN", ["UNKNOWN"])],
        Unknown,
        None))]))
  {
  }

  /** Dates: long raw values are cut to eight characters, short ones are dropped. */
  lemma BirthDateExamples()
    ensures NormalizeBirthDate("19800101") == Some("1980-01-01")
    ensures NormalizeBirthDate("198001011230") == Some("1980-01-01")
    ensures NormalizeBirthDate("1980") == None
    ensures NormalizeBirthDate("") == None
  {
    var d := "1980-01-01";
    assert DateDigits(d) == "19800101";
    BirthDateOnto(d);
    BirthDateIgnoresTail("19800101", "1230");
    assert "19800101" + "1230" == "198001011230";
  }

  /** The characters are not checked to be digits: an already-dashed date is mangled. */
  lemma BirthDateNotValidated()
    ensures NormalizeBirthDate("1980-01-01") == Some("1980--0-1-")
  {
    var d := "1980--0-1-";
    assert DateDigits(d) == "1980-01-";
    DateDigitsInjective(NormalizeBirthDate("1980-01-01").value, d);
  }

  /** The mock ADT^A01 admission message of the test console. */
  const MockAdtA01: string :=
    "MSH|^~\\&|EPIC|DEACONESS|HIE|HOSPITAL|20260219143000||ADT^A01|MSG12345|P|2.3\n"
    + "EVN|A01|20260219143000|||JONATHAN^SANTOS\n"
    + "PID|1||10006579^^^MRN||DOE^JOHN^A||19800101|M|||123 MAIN ST^^BELLEVILLE^IL^62220||(314)555-1234|||S||123456789\n"
    + "PV1|1|I|2000^2012^01||||12345^SMITH^JAMES^M||||||||||||1234567890"

  /** The PID lookups the HL7 library gives for MockAdtA01. */
  function MockAdtA01Lookup(path: string): string {
    if path == "PID.3.1" then "10006579"
    else if path == "PID.5.1" then "DOE"
    else if path == "PID.5.2" then "JOHN"
    else if path == "PID.7.1" || path == "PID.7" then "19800101"
    else if path == "PID.8" then "M"
    else ""
  }

  /** End to end: the mock admission of John Doe. */
  lemma MockAdtA01Translation(t: string)
    ensures Translate(Text(MockAdtA01), _ => Parsed(MockAdtA01Lookup), t) ==
      Success(Bundle("Bundle", "message", Meta(t), [Entry(Patient(
        "Patient",
        [Identifier("usual", CodeableConcept([Coding("http://terminology.hl7.org/CodeSystem/v2-0203", "MR")]), "10006579")],
        [HumanName("official", "DOE", ["JOHN"])],
        Male,
        Some("1980-01-01")))]))
  {
    BirthDateExamples();
  }
}
