# Document ↔ model identifier mapping, in Dafny

This project models the mapping between MongoDB documents and Pydantic
record models in a small example repository. Stored documents carry their
primary key under `"_id"` as a BSON ObjectId. Models carry it under `"id"`
as a 24-character string.

- `Bson` (bson.dfy, for the `bson` library the code calls): an ObjectId is 12 bytes. `str(oid)` gives its 24
  lower-case hexadecimal digits. `ObjectId(s)` accepts exactly 24 hex digits
  of either case. Both round trips are proved.
- `Values` (values.dfy): the scalar values that appear in documents and
  keyword arguments, and Python's `str()` on them.
- `Models` (models.dfy, for models.py): `RequiredId` validation (coerce with `str()`, then
  require length 24), `OptionalId` (`None` or a `RequiredId`, default
  `None`), the identifier serialiser (an ObjectId only under the
  `"objectid"` context and for a non-empty value, raising `InvalidId` on a
  non-empty id that is not 24 hex digits), the `User` and `Post`
  field shapes, `model_dump(context=...)`, and `Model(**fields)`.
- `DbDumper` (dbdumper.dfy, for utils.py): `from_db` is the method `FromDb`. Its loop rewrites
  ObjectId values to text in a copy of the document and then renames
  `"_id"` to `"id"`. `to_db` is the method `ToDb`. It dumps the model under
  the `"objectid"` context and drops `"id"`, or moves it to `"_id"` when
  asked. Each method is proved equal to a specification function
  (`Imported`, `Exported`) whose postconditions state the key exclusivity
  and "nothing else changes".
- `RoundTrip` (roundtrip.dfy): storing a model and loading it back, as the repository's
  tests do.

Python dicts are Dafny `map<string, Value>` values. Exceptions (a failed
validation, `InvalidId` from `ObjectId(...)`) are `Failure` values of a
`Result`.

Two behaviours of the code are easy to miss:
- Identifiers come back from storage lower-cased. `str(ObjectId(s))` is
  lower-case hex, so an upper-case id is not returned unchanged.
  `RoundTrip.StoreThenLoad` states the general case.
  `RoundTrip.StoreThenLoadWithId` states the case of the tests (lower-case ids).
- `from_db` applies `str()` to any `"_id"` value, not only to ObjectIds.
  `to_db(model, include_id=True)` on a model without an id stores
  `"_id": None`. Loading that document gives `"id": "None"`, which then fails
  validation (`RoundTrip.StoredWithNullId`).

## Model

| member | source | states |
|---|---|---|
| `Bson.ToString` | utils.py:9-10 | `str()` of an ObjectId is exactly 24 characters, all lower-case hex digits |
| `Bson.FromString` | models.py:11 | `ObjectId(s)` succeeds exactly when `s` has 24 characters and all are hex digits |
| `Bson.Unhexlify` | models.py:11 | hex decoding succeeds exactly on even-length all-hex text and yields half as many bytes |
| `Bson.FromStringToString` | utils.py:9-10 | parsing the text form of an ObjectId gives back the same ObjectId |
| `Bson.ToStringFromString` | models.py:11 | printing a parsed ObjectId gives the parsed text lower-cased, and the same text when it was lower-case |
| `Values.PyStr` | models.py:10 | `str()` keeps a string as it is, prints an ObjectId as 24 lower-case hex digits that parse back to it, prints None as `"None"` and booleans as `"True"`/`"False"`, and prints an int as non-empty text that starts with `-` exactly when the int is negative |
| `Values.PyStrOfInt` | models.py:10 | `str()` of an int is a leading `-` exactly when it is negative, then decimal digits with no leading zero whose value is the magnitude of the int |
| `Values.DecimalDigitsValue` | models.py:10 | the decimal digits of a natural number read back as that number, and start with `0` only for zero |
| `Models.ValidateRequiredId` | models.py:10-12 | an input is accepted iff its `str()` form has 24 characters. The accepted id is that text; otherwise the error reports that text |
| `Models.ValidateOptionalId` | models.py:15-18 | None is accepted as None. Any other input is accepted iff its `str()` form has 24 characters, and becomes that text |
| `Models.OptionalIdField` | models.py:15-18 | an absent optional id defaults to None. The field is accepted iff it is absent, None or 24 characters long in `str()` form, and then holds the supplied id |
| `Models.SerializeOptionalId` | models.py:11-16 | None dumps as None. A present id dumps as an ObjectId iff the context is `"objectid"` and the id is 24 hex digits, and that ObjectId prints as the lower-cased id. Under that context a non-empty non-hex id raises. Otherwise the id dumps as its own string |
| `Models.StringIdAcceptedIffLength` | models.py:10-12 | a string identifier is accepted iff it has 24 characters, and the accepted value is that string |
| `Models.ValidationCoercesFirst` | models.py:10 | validation of any input equals validation of its `str()` form |
| `Models.ObjectIdInputAccepted` | models.py:10-12 | an ObjectId given for an identifier is accepted as its 24-character hex text |
| `Models.IntegerIdRejected` | models.py:10-12 | the integer 12345 is coerced to `"12345"` and rejected for its length |
| `Models.SerializeId` | models.py:11 | the result is an ObjectId iff the context is `"objectid"`, the value is non-empty and the value is 24 hex digits. That ObjectId prints as the lower-cased value. It raises `InvalidId` exactly when the context is `"objectid"` and the value is non-empty but not 24 hex digits. Otherwise the plain string is kept |
| `Models.ModelDump` | models.py:20-34 | the dump has exactly the declared fields (User: id/username/email; Post: id/title/content/author_id), and no ObjectId outside the `"objectid"` context |
| `Models.Construct` | models.py:15-34 | building succeeds exactly when every required `str` field is a supplied string, `author_id` (Post) is supplied with a 24-character `str()` form, and `"id"` is absent, None or 24 characters long. The built model then holds exactly the supplied strings, the `str()` form of the supplied ids, and id None when none was given |
| `Models.UserIdDefaultsToNone` | models.py:15-18 | a User built without an id has id None |
| `Models.PostAuthorIdStoredAsObjectId` | models.py:34 | a Post's hexadecimal author_id dumps to an ObjectId under the `"objectid"` context |
| `Models.ConstructModelDump` | models.py:8-34 | rebuilding a valid model from its dump outside the `"objectid"` context gives the same model |
| `DbDumper.Stringified` | utils.py:9-10 | an ObjectId value becomes its text form and every other value is unchanged. The result is never an ObjectId |
| `DbDumper.Imported` | utils.py:6-14 | no `"_id"` key and no ObjectId value in the result. Keys are the input keys minus `"_id"`, plus `"id"` when `"_id"` was present. `"id"` holds `str()` of the stored `"_id"`, overriding any `"id"`. Every other key keeps its value, with ObjectIds as text |
| `DbDumper.Exported` | utils.py:17-23 | no `"id"` key in the result. Every other key except `"_id"` keeps its value. `"_id"` appears iff it was there or the id is included, and then it holds the dumped `"id"` value |
| `DbDumper.ImportedWithStorageId` | utils.py:11-13 | loading a document with `"_id"` equals loading the rest and then setting `"id"` to the text of `"_id"`, overwriting any `"id"` already there |
| `DbDumper.FromDb` | utils.py:6-14 | the copy-and-rewrite loop followed by the rename computes `Imported` of the input document |
| `DbDumper.ToDb` | utils.py:17-23 | fails iff the `"objectid"` dump fails. On success the result equals `Exported` of that dump, has no `"id"`, has `"_id"` iff the id is included, and that `"_id"` is the dumped id |
| `RoundTrip.DumpSucceeds` | models.py:11 | the storage dump of a valid model raises exactly when one of its ids is not 24 hex digits |
| `RoundTrip.IdValueRoundTrip` | utils.py:9-10 | a 24-hex-digit identifier serialised for storage and loaded back is its lower-cased text, which validates again |
| `RoundTrip.UserLoaded` | utils.py:6-23 | the fields loaded from a stored User are exactly username, email and, when stored, the lower-cased id |
| `RoundTrip.PostStored` | utils.py:17-23 | the stored Post document holds title, content, author_id as an ObjectId and, when asked, `"_id"` |
| `RoundTrip.PostLoadedWithoutId` | utils.py:6-14 | a Post stored without its id loads as title, content and the lower-cased author_id text |
| `RoundTrip.PostLoadedWithId` | utils.py:11-13 | a Post stored with its id loads as the same fields plus `"id"` as the lower-cased id |
| `RoundTrip.StoreThenLoad` | test_repository_and_ids.py:60-70 | store, load and rebuild gives the model back with lower-cased ids, and with its id only when the id was stored |
| `RoundTrip.StoreThenLoadWithId` | test_repository_and_ids.py:60-70 | a model with lower-case ids stored with its id comes back unchanged |
| `RoundTrip.StoredIdIsObjectId` | test_repository_and_ids.py:65-70 | with the id included, `"_id"` is an ObjectId that prints as the model's id, and loading gives `"id"` equal to the model's id |
| `RoundTrip.StoredWithoutId` | test_repository_and_ids.py:80-85 | without the id, the stored document has no `"_id"` and the rebuilt model has id None |
| `RoundTrip.StoredWithNullId` | utils.py:11-22 | including the id of a model that has none stores `"_id": None`, which loads as `"id": "None"` and fails validation |

## Left out

- repository.py (`create_user`, `get_user`, `create_post`, `get_post`) is not part of this model. These functions are pass-throughs to the MongoDB client (`insert_one`, `find_one`), which is I/O. The model does not show how `create_*` writes `str(inserted_id)` back onto the model.
- How an ObjectId is generated (timestamp, counter, random bytes) is not modelled, and neither is building one from 12 raw bytes.
- `bytes.fromhex` skips whitespace between digit pairs. `Bson.FromString` rejects any non-hex character instead.
- `EmailStr` validation and normalisation are not modelled: `email` is any string and is kept exactly as given. Pydantic stores the normalised address, and only the address for input of the form `"Name <addr>"`.
- Pydantic reports every failing field at once. `Models.Construct` returns the first failure only.
- Pydantic's `str` fields also accept `bytes`. That input is not part of `Values.Value`.
- The `class Config` blocks of `User` and `Post` are not modelled.
- Union resolution for `OptionalId` is simplified: `None` gives `None`, and anything else goes through `RequiredId`.
- `Values.Value` covers None, bool, int, str and ObjectId only. Floats, dates, nested documents and lists are left out. `from_db` rewrites only top-level values.
- Dict key order is not modelled, because Dafny maps are unordered.
- `doc.copy()` is modelled by value semantics: `FromDb` cannot change its input.
