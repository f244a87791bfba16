# HL7 v2 ADT to FHIR Patient, in Dafny

This project models the translation done by the `POST /api/hl7-to-fhir`
handler of the hl7-to-fhir-api service. The handler takes an HL7 v2 ADT
message as plain text and answers with a FHIR `Bundle` of type `message`
that holds one `Patient` resource.

The handler works in five steps:

- it rejects a body that is not a non-empty string (HTTP 400);
- it hands the text to the `hl7-standard` library;
- it reads six PID paths: `PID.3.1`, `PID.5.1`, `PID.5.2`, `PID.7.1`, `PID.7` and `PID.8`;
- it replaces absent values with defaults (`UNKNOWN-MRN`, `UNKNOWN`);
- it reformats the birth date to `YYYY-MM-DD`, maps administrative sex to a
  FHIR gender, and builds the Bundle. Any exception becomes an HTTP 500.

The HL7 library is not modelled; it is a parameter. `decode: string -> Decoded`
gives, for a message text, either `Parsed(get)` or `LibraryFailure`:

- `get` is a total lookup from a path to a string, with `""` for an absent path.
  JavaScript's `||` treats `undefined` and `""` alike, so nothing is lost.
- `LibraryFailure` is the exception the handler's `catch` turns into a 500.

The clock read for `meta.lastUpdated` is the `timestamp` parameter.

Files:

- `wrappers.dfy`: `Option` and `Result`.
- `fhir.dfy`: the output datatypes and the well-formedness predicates.
  `WellFormedPatient` and `WellFormedBundle` give the fixed shape of every
  answer. `IsDateShape` and `DateDigits` describe a FHIR date and the eight
  characters it was built from.
- `hl7_to_fhir.dfy`: the handler as functions. `NormalizeBirthDate`,
  `MapGender`, `MapPatient` and `Translate` carry the promises in their contracts.
- `properties.dfy`: lemmas across inputs:
  - the inverses of the normalisations;
  - completeness, i.e. every well-formed Bundle is the answer for some result of the HL7 library;
  - dependence on the six PID paths only;
  - the timestamp affects only `meta.lastUpdated`;
  - rejection happens before decoding;
  - the defaults and the test console's mock ADT^A01 message, end to end.

Together, `MapPatient`'s contract and `PatientReachable` show that the Patients
built from arbitrary lookups are exactly the `WellFormedPatient` ones.
`Translate` and `BundleReachable` show the same for Bundles. The lookup is
unconstrained and the message text plays no role beyond being a non-empty
string. So this characterises the mapping, not the set of Bundles a real HL7
message can produce.

## Model

| member | source | states |
|---|---|---|
| Hl7ToFhir.Translate | server.js:23-99 | A body that is not a non-empty string gives the 400 error, and only such a body does. An accepted body whose decoding throws gives the internal error. Otherwise the answer is a well-formed Bundle: resourceType "Bundle", type "message", one entry holding a well-formed Patient. Its lastUpdated is the timestamp and its Patient is the one mapped from the decoded lookups. |
| Hl7ToFhir.Error.Status | server.js:27-98 | The invalid-body error is answered with exactly 400 (line 28) and the internal error with exactly 500 (line 97); a status below 500 (client fault) means the invalid-body error. |
| Hl7ToFhir.MapPatient | server.js:40-89 | The Patient is well-formed. The identifier value is PID.3.1 when non-empty, else "UNKNOWN-MRN". Family is PID.5.1 or "UNKNOWN", and given is exactly one element, PID.5.2 or "UNKNOWN"; each is defaulted on its own. Gender is MapGender of PID.8. birthDate is present exactly when the raw date has at least 8 characters, and then it is built from the first 8. |
| Hl7ToFhir.RawBirthDate | server.js:47 | The raw date is PID.7.1 if non-empty, else PID.7 if non-empty, else "". |
| Hl7ToFhir.NormalizeBirthDate | server.js:48-51 | The result is present if and only if the raw date has length at least 8. When present it is date-shaped (length 10, '-' at indices 4 and 7), and removing the dashes gives back the first 8 raw characters. |
| Hl7ToFhir.MapGender | server.js:53-58 | male iff "M", female iff "F", other iff "O", and unknown iff the code is none of those three. |
| Fhir.Gender.Code | server.js:55-58 | The emitted code is "male" exactly for Male, "female" exactly for Female, "other" exactly for Other and "unknown" exactly for Unknown, so the encoding loses nothing. |
| Properties.GenderRoundTrip | server.js:54-58 | Every FHIR gender is produced by some HL7 sex code (M, F, O, U). |
| Properties.GenderExamples | server.js:54-58 | M, F and O map to male, female and other. Absent, "U", "X" and lower-case "m" map to unknown. |
| Properties.DateDigitsInjective | server.js:50 | Two date-shaped strings with the same eight date characters are equal, so the reformatting loses nothing. |
| Properties.BirthDateOnto | server.js:48-51 | Every date-shaped string is the normalisation of its own eight date characters. |
| Properties.BirthDateIgnoresTail | server.js:50 | Characters after the eighth (e.g. a time of day) never change the birthDate. |
| Properties.BirthDateExamples | server.js:48-51 | "19800101" and "198001011230" give "1980-01-01"; "1980" and "" give no birthDate. |
| Properties.BirthDateNotValidated | server.js:49-50 | Digits are not checked: a raw "1980-01-01" gives "1980--0-1-". |
| Properties.PatientReachable | server.js:40-89 | Every well-formed Patient is the mapping of some (unconstrained) PID lookup. The well-formedness predicate is therefore exact for the mapping, not just an upper bound. |
| Properties.BundleReachable | server.js:61-92 | Every well-formed Bundle is the handler's answer, at its own timestamp, for some HL7 library result. The message text plays no role beyond being a non-empty string. |
| Properties.PatientDependsOnlyOnPidPaths | server.js:40-58 | Two messages that agree on PID.3.1, PID.5.1, PID.5.2, PID.7.1, PID.7 and PID.8 give the same Patient. |
| Properties.TimestampOnlyAffectsMeta | server.js:61-66 | The same request at two timestamps fails alike, or succeeds with Bundles that differ only in meta.lastUpdated. |
| Properties.RejectionPrecedesDecoding | server.js:27-36 | A rejected body gives the invalid-body error whatever the HL7 library would do, so it never reaches parsing. |
| Properties.AbsentPidDefaults | server.js:40-58 | A message whose lookups are all absent still translates. It gives identifier "UNKNOWN-MRN", name "UNKNOWN"/["UNKNOWN"], gender unknown and no birthDate. |
| Properties.MockAdtA01Translation | public/app.js:10-13 | The console's mock ADT^A01 message gives MRN "10006579", family "DOE", given ["JOHN"], gender male and birthDate "1980-01-01". This assumes the PID lookups in `MockAdtA01Lookup`. |

## Left out

- The `hl7-standard` library (`new HL7`, `transform`, `get`): its source is not part of this model. It is the `decode` parameter, and `MockAdtA01Lookup` is a hand-written stand-in for what it returns on the mock message.
- Exceptions thrown by `hl7.get` itself are not separated from parse failures: both are the one `LibraryFailure` case.
- A `get` result that is not a string (an array for a repeated field, say) is not modelled: a lookup always yields a string.
- Express setup, body parsing, static files, the health check, `app.listen` and logging are I/O plumbing.
- JSON serialisation of the answer is not modelled, nor are the two `error` strings of the error responses.
- PatientReachable and BundleReachable range over arbitrary lookups. A real HL7 lookup never yields a value containing the message's separators ('|', '^', '~', '&', a segment break), but `WellFormedPatient` admits such values (a family name "A|B", say). The lemmas do not say which Bundles real messages can produce.
- `new Date().toISOString()` is a clock read. It is the `timestamp` parameter, and its format is not checked.
- JavaScript strings count UTF-16 code units. Dafny's `char` is a Unicode scalar value, so `substring` positions agree only on text without surrogate pairs.
- The browser console (`public/app.js`) is UI with asynchronous I/O. Only its mock message is used.
