# tektome_utils schema validator, modelled in Dafny

`tektome_utils/schema.py` declares five pydantic records that a workflow
handler receives as plain dictionaries and turns into typed values:

| class | `id` | `kind` literal |
|---|---|---|
| `Resource` | one UUID | `"resource"` |
| `Resources` | list of UUIDs | `"resource[]"` |
| `Project` | one UUID | `"project"` |
| `Projects` | list of UUIDs | `"project[]"` |
| `AttributeDefinitions` | list of UUIDs | `"attribute_definition[]"` |

Both fields are required. `id` is coerced from a UUID object or its text, and
a list is coerced element by element. `kind` must be a string, and each class's
`validate_kind` hook accepts only its own literal; any other string is refused
with the message `kind must be '<literal>'`. Keys other than `id` and `kind`
are ignored. A record dumps back to a dictionary, and in JSON mode each UUID
becomes its canonical text.

The model is pure: datatypes, functions and lemmas. The source declares five
classes, but none has a method that updates its fields and none loops, so
each becomes a constructor of one `Record` datatype.

- `wrappers.dfy` (`Wrappers`): `Option` and `Result`.
- `uuids.dfy` (`Uuids`): a UUID is its 32 hexadecimal digits. The module also
  holds the canonical 8-4-4-4-12 text form of section 3 of RFC 4122, with
  `Format` (Python's `str(uuid)`) and `Parse`, and round-trip lemmas in both
  directions.
- `schema.dfy` (`Schema`): this file holds the parts of the validator:
  - `Raw`, the input value: `Null`, `Bool`, `Int`, `Str`, `UuidValue` or `List`.
  - `Model`, the five classes, with `Literal` and `IsListModel`.
  - `Record`, with one constructor per class.
  - The field validators `ValidateId`, `CheckKind` (the `validate_kind` hook)
    and `ValidateKind`.
  - `Validate`, one generic validator, parameterised by the class.
  - `Dump`, which models `model_dump` in Python mode and JSON mode.
- `schema_properties.dfy` (`SchemaProperties`): lemmas for the behaviour that
  the classes and their tests promise.

Validation checks the two fields independently, in declaration order, as
pydantic does. A failure lists every error found, each with its location: a
field, or the index of one list element. The `id` errors come first.

The Dafny record keeps the Python field name `id` on the singular classes. It
calls the list field `ids`, because Dafny does not let two constructors share
a field name with different types. `IdOf` gives both under one name.

Three choices follow the code rather than a looser reading of it:
- An explicit `None` for `id` or `kind` is a type error on that field, as
  pydantic reports it. It is not a "missing field" error. Either way,
  validation fails and the error names the field.
- Every error is reported, not only the first one.
- The input key of the list classes is `id`, never `ids`, as
  `tektome_utils/schema.py` declares it. (Only the Dafny destructor of the
  list constructors is named `ids`, for the reason given above.)

## Model

| member | source | states |
|---|---|---|
| `Uuids.Format` | tests/test_resource.py:91-96 | the text of a UUID is in the lower-case 8-4-4-4-12 grammar and shows each of its 32 digits at that digit's place |
| `Uuids.Parse` | tektome_utils/schema.py:27 | parsing succeeds exactly on texts in the canonical grammar (digits in either case) and reads each digit from its place |
| `Uuids.ParseFormat` | tests/test_resource.py:23-30 | parsing the text of any UUID gives that UUID back |
| `Uuids.FormatParse` | tektome_utils/schema.py:27 | a parsed canonical text formats back to the same text, lower-cased |
| `Uuids.FormatParseLower` | tests/test_resource.py:17-21 | a lower-case canonical text `s` is parsed to the UUID whose `str` is exactly `s` |
| `Uuids.FormatInjective` | tests/test_resources.py:111-118 | distinct UUIDs have distinct texts |
| `Uuids.ParseRejectsNonUuidText` | tests/test_resource.py:60-63 | "not-a-uuid", "invalid-uuid" and "" are not UUIDs |
| `Schema.CoerceUuid` | tektome_utils/schema.py:27 | a single `id` value is accepted exactly when it is a UUID (kept as is) or a canonical text (parsed, its text lower-cased); other strings are a format error, every other value (null included) a type error |
| `Schema.CoerceUuidList` | tektome_utils/schema.py:43 | a list is accepted exactly when every element is; the result then has the list's length and each element's UUID at the element's index; otherwise every refused element has an error at its index, and every error belongs to a refused element |
| `Schema.ValidateId` | tektome_utils/schema.py:27-91 | the `id` field is accepted exactly when present and acceptable for the class's cardinality; its value is a list exactly for the list classes; a single id holds the UUID the input coerces to, and a list holds, at each index, the UUID its element coerces to, with the list's length; absence is a `Missing` error on `id`; failure always carries an error |
| `Schema.CheckKind` | tektome_utils/schema.py:30-101 | the `validate_kind` hook accepts exactly the class's literal, returns it unchanged, and otherwise raises "kind must be '<literal>'" |
| `Schema.ValidateKind` | tektome_utils/schema.py:28-35 | `kind` is accepted exactly when it is the string literal of the class; an absent key is `Missing`, a non-string is a type error, any other string is the hook's value error |
| `Schema.Validate` | tektome_utils/schema.py:22-101 | a record is built exactly when `id` is acceptable and `kind` is the class's literal; it is of that class, stores that literal, and holds exactly the identifiers `ValidateId` accepted; a failure lists the `id` errors and then the `kind` errors, and is never empty |
| `Schema.Dump` | tests/test_resources.py:95-124 | the dump has exactly the keys `id` and `kind`; `kind` is kept; each UUID is kept (Python mode) or rendered as its text (JSON mode), in list order and with the list's length |
| `SchemaProperties.LiteralsDistinct` | tektome_utils/schema.py:32-98 | the five literals are pairwise distinct and non-empty |
| `SchemaProperties.KindMessageQuotesLiteral` | tests/test_resource.py:37-41 | the refusal message starts "kind must be " and contains the accepted literal in quotes |
| `SchemaProperties.KindMismatchRejected` | tests/test_resource.py:37-46 | any `kind` string other than the literal, "" included, fails validation with the class's message on `kind` |
| `SchemaProperties.OtherClassLiteralRejected` | tests/test_attribute_definitions.py:52-68 | another class's literal, including the singular or plural counterpart, fails with this class's message |
| `SchemaProperties.KindStoredUnchanged` | tektome_utils/schema.py:33-35 | a validated record stores the input `kind` string unchanged |
| `SchemaProperties.MissingFieldNamed` | tests/test_resource.py:48-58 | an absent `id` or `kind` fails with a `Missing` error naming that field |
| `SchemaProperties.NullFieldNamed` | tests/test_resource.py:65-71 | an explicit null `id` or `kind` fails with an error naming that field |
| `SchemaProperties.TextAndValueInterchangeable` | tests/test_project.py:17-31 | giving a UUID or its canonical text yields the same outcome |
| `SchemaProperties.GivenUuidStored` | tests/test_resource.py:11-15 | a UUID given as a value for a single `id` is stored as that same UUID |
| `SchemaProperties.TextIdFormatsBack` | tests/test_project.py:17-21 | a lower-case canonical text is stored as the UUID whose text it is |
| `SchemaProperties.MalformedTextRejected` | tests/test_project.py:66-69 | a text outside the canonical grammar is a format error on `id` |
| `SchemaProperties.EmptyListAccepted` | tests/test_resources.py:36-40 | the empty list validates to a record with no identifiers |
| `SchemaProperties.ListKeepsLengthAndOrder` | tests/test_resources.py:18-24 | a validated list record has the input list's length, with each element's UUID at its index |
| `SchemaProperties.DuplicatesAccepted` | tests/test_resources.py:159-163 | a repeated UUID is accepted and kept twice |
| `SchemaProperties.InvalidElementRejectsRecord` | tests/test_resources.py:76-84 | one refused element fails the whole record, with an error at that element's index |
| `SchemaProperties.ScalarRejectedWhereListDeclared` | tests/test_resources.py:86-89 | a bare value, even a valid UUID, where a list is declared is a type error on `id` |
| `SchemaProperties.CoerceUuidListCongruent` | tektome_utils/schema.py:43 | lists whose elements coerce alike coerce alike, errors included |
| `SchemaProperties.ElementTextAndValueInterchangeable` | tests/test_resources.py:18-30 | inside a list, a UUID and its text are interchangeable |
| `SchemaProperties.RecordEqualityIsFieldwise` | tests/test_resource.py:102-112 | two records are equal exactly when class, identifiers and kind are equal |
| `SchemaProperties.DifferentClassesNeverEqual` | tests/test_projects.py:149-154 | validated records of different classes are never equal |
| `SchemaProperties.ListOrderMatters` | tests/test_projects.py:142-147 | the same two distinct UUIDs in the other order give a different record |
| `SchemaProperties.ExtraKeyIgnored` | tests/test_resource.py:126-130 | adding a key other than `id` or `kind` never changes the outcome |
| `SchemaProperties.OnlyDeclaredFieldsRead` | tests/test_project.py:138-141 | dropping every key except `id` and `kind` never changes the outcome |
| `SchemaProperties.JsonDumpRendersText` | tests/test_resources.py:111-118 | in JSON mode a single UUID is dumped as its lower-case canonical text, and a list is dumped with the same length and, at each index, the text of the UUID at that index |
| `SchemaProperties.CoerceDumpedUuid` | tests/test_resources.py:26-34 | a dumped UUID, value or text, coerces back to itself |
| `SchemaProperties.DumpValidateRoundTrip` | tests/test_projects.py:183-199 | dumping a validated record in either mode and validating the dump gives the same record |

## Left out

- `Context` (`user_api_key`, `base_url`, `execution_id`) is exported by
  `tektome_utils/__init__.py` but is not defined in `tektome_utils/schema.py`.
  With no definition to model, it is not part of this model.
- The `tektome` package (`BaseSchema`, `Date`, `DateTime`, `tektome.schema`)
  is not part of this model.
- Schema.CoerceUuid: does not accept pydantic's other UUID texts (braced,
  `urn:uuid:`, 32 digits with no hyphens) or 16-byte values. Only the
  canonical 8-4-4-4-12 form is modelled, so these inputs fail in the model
  where pydantic accepts them.
- Schema.CoerceUuidList: accepts only a list. Tuples, sets, deques and
  generators, which pydantic also takes as a list, are not modelled.
- Schema.ValidateKind: does not accept `bytes` for `kind`. Pydantic decodes
  bytes to a string; the model treats them, like every non-string, as a type
  error.
- `Raw` has no floats, dicts or other Python objects. They would all be type
  errors, like `Bool` and `Int`.
- Error texts other than "kind must be '<literal>'" are not modelled. The model
  has only the error's location and its class (missing, type, format, value).
- `model_dump_json` (JSON text encoding), `model_json_schema`, field
  descriptions and docstrings belong to pydantic's machinery and are not
  modelled.
- `validate_call` (dict-to-record coercion at a function boundary) belongs to
  pydantic's machinery and is not modelled.
- Reassigning a field after construction, without re-validation, is not
  modelled. That is a pydantic default, not this code's logic. Records here
  are immutable values.
- Random `uuid4` test fixtures are not modelled; UUIDs are parameters of the
  lemmas.
