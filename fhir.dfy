/**
 * The FHIR output of the translator: a message Bundle holding one Patient
 * resource, with exactly the fields the handler writes into its object literal.
 */
module Fhir {
  import opened Wrappers

  /** Coding system of the identifier-type code ("MR" = medical record number). */
  const IdentifierTypeSystem: string := "http://terminology.hl7.org/CodeSystem/v2-0203"
  const MedicalRecordCode: string := "MR"

  /** FHIR administrative gender. */
  datatype Gender = Male | Female | Other | Unknown
  {
    /** The code written into the JSON `gender` property. */
    function Code(): (c: string)
      ensures c == "male" <==> this == Male
      ensures c == "female" <==> this == Female
      ensures c == "other" <==> this == Other
      ensures c == "unknown" <==> this == Unknown
    {
      match this
      case Male => "male"
      case Female => "female"
      case Other => "other"
      case Unknown => "unknown"
    }
  }

  datatype Coding = Coding(system: string, code: string)

  datatype CodeableConcept = CodeableConcept(coding: seq<Coding>)

  /** `type` is a reserved word in Dafny, so the FHIR `type` property is `identifierType`. */
  datatype Identifier = Identifier(use: string, identifierType: CodeableConcept, value: string)

  datatype HumanName = HumanName(use: string, family: string, given: seq<string>)

  /** `birthDate` is left out of the JSON entirely when it is `None`. */
  datatype Patient = Patient(
    resourceType: string,
    identifier: seq<Identifier>,
    name: seq<HumanName>,
    gender: Gender,
    birthDate: Option<string>)

  datatype Meta = Meta(lastUpdated: string)

  datatype Entry = Entry(resource: Patient)

  /** `type` is a reserved word in Dafny, so the FHIR `type` property is `bundleType`. */
  datatype Bundle = Bundle(resourceType: string, bundleType: string, meta: Meta, entry: seq<Entry>)

  /** The identifier-type concept every translated identifier carries. */
  const MedicalRecordType: CodeableConcept :=
    CodeableConcept([Coding(IdentifierTypeSystem, MedicalRecordCode)])

  /** A FHIR `date` as the translator writes it: ten characters, '-' at indices 4 and 7. */
  predicate IsDateShape(d: string) {
    |d| == 10 && d[4] == '-' && d[7] == '-'
  }

  /** The eight characters a date-shaped string was built from (its YYYY, MM and DD parts). */
  function DateDigits(d: string): string
    requires IsDateShape(d)
  {
    d[..4] + d[5..7] + d[8..10]
  }

  /** The shape of every Patient the translator produces. */
  predicate WellFormedPatient(p: Patient) {
    && p.resourceType == "Patient"
    && |p.identifier| == 1
    && p.identifier[0].use == "usual"
    && p.identifier[0].identifierType == MedicalRecordType
    && p.identifier[0].value != ""
    && |p.name| == 1
    && p.name[0].use == "official"
    && p.name[0].family != ""
    && |p.name[0].given| == 1
    && p.name[0].given[0] != ""
    && (p.birthDate.Some? ==> IsDateShape(p.birthDate.value))
  }

  /** The shape of every Bundle the translator produces. */
  predicate WellFormedBundle(b: Bundle) {
    && b.resourceType == "Bundle"
    && b.bundleType == "message"
    && |b.entry| == 1
    && WellFormedPatient(b.entry[0].resource)
  }
}
