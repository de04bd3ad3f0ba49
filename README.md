# pywhentowork in Dafny

A model of `pywhentowork`, a small Python client for the WhenToWork scheduling service, and
proofs about it. The model covers:

- the `WhenToWork` client: its API key and base URL, the base-URL consistency check, the
  endpoint dispatcher and the three typed getters;
- the generic record class `W2WBaseClass`, with its construction, `from_json` and `repr`;
- the four record classes `Employee`, `Shift`, `Position` and `Category`, with their equality,
  hashing and `str`.

Modules, one per file:

- `Wrappers`: `Option` and `Result`.
- `Text`: decimal digits, zero padding, ASCII case mapping and joining.
- `PyValues`: the values a record attribute holds (`None`, `bool`, `int`, `str`), with Python's
  `==`, `hash()` and `str()` on them, and the exceptions raised.
- `Dicts`: insertion-ordered Python dicts as sequences of pairs.
- `W2WBase`: records as a class and an attribute dict, plus the base class's operations.
- `EmployeeRecord`, `ShiftRecord`, `PositionRecord`, `CategoryRecord`: the four record classes.
- `Dates`: `datetime.date`, `strptime("%Y-%m-%d")`, `strftime("%m/%d/%Y")`, and the 31-day
  range rule of the shift query.
- `BaseUrl`: `_is_base_url_valid`, with `re.search` taken as the leftmost match and `\d+` as
  greedy.
- `Api`: the client. `Client` is a class whose fields hold the key, the URL and the cached
  position list. The HTTP transport is a `Transport` object. It answers with a fixed `server`
  function and logs every request it is sent.

Three behaviours of the code worth noting:

- Building a client makes no emptiness check on the key; only the `key` setter rejects an empty
  key. The URL is checked only for consistency, and only after the position list has been
  fetched (`Api.Open`).
- Keyword arguments to a record constructor that are not schema fields are stored as attributes.
  The exceptions are five names. `self` and `fields` raise TypeError, because the subclass
  constructor and the base-class call would receive them twice. Of the three names Python
  reserves on every instance, `__class__` and `__dict__` raise TypeError, and `__weakref__` is
  skipped after its AttributeError is printed.
- The base-URL setter applies the consistency check to the URL already stored, not to the new
  one (`Api.SetBaseUrlOutcome`).

## Model

| member | source | states |
|---|---|---|
| PyValues.Numeric | pywhentowork/classes/employee.py:52 | a value takes part in numeric equality exactly when it is a bool or an int; an int counts as itself, `True` as 1 and `False` as 0 |
| PyValues.Eq | pywhentowork/classes/employee.py:52 | `==` holds between identical values; None and a string equal only themselves; a bool equals the int 1 or 0 it counts as; two ints are equal when their numbers are |
| PyValues.EqIsEquivalence | pywhentowork/classes/employee.py:52 | Python `==` on attribute values is reflexive, symmetric and transitive |
| PyValues.IntHash | pywhentowork/classes/employee.py:55 | `hash()` of an int is never -1, lies strictly between -(2^61-1) and 2^61-1, and is the int itself for small values other than -1 |
| PyValues.Hash | pywhentowork/classes/employee.py:55 | `hash(None)` and the hash of a string come from the process; a bool or an int hashes as the int it counts as, never -1, and as itself when small and non-negative |
| PyValues.HashRespectsEq | pywhentowork/classes/employee.py:54-55 | values equal under `==` have equal `hash()`, so `hash(True) == hash(1)` |
| PyValues.Str | pywhentowork/classes/employee.py:47 | an f-string placeholder shows a string as itself, None as `None`, a bool as `True` or `False`, a non-negative int as its decimal digits and a negative one as `-` and the digits of its magnitude |
| Text.IntText | pywhentowork/classes/_w2w_base.py:18 | `str(int)` is the decimal digits of a non-negative int, and `-` followed by the digits of the magnitude of a negative one |
| Text.Lower | pywhentowork/classes/_w2w_base.py:39 | `key.lower()` on ASCII capitals: keeps the length, lowers every ASCII capital, leaves no capital behind and keeps every other character (Python may lengthen non-ASCII keys; see Left out) |
| Text.LowerIdempotent | pywhentowork/classes/_w2w_base.py:39 | lower-casing a key twice gives the same key as lower-casing it once |
| Dicts.Get | pywhentowork/classes/_w2w_base.py:7-11 | a lookup finds nothing exactly when the key is absent; in a dict with unique keys it finds the stored value |
| Dicts.Set | pywhentowork/api.py:85 | assigning a present key keeps the key order; assigning a new key appends the pair; unique keys stay unique; the key reads back the new value; every other key is unchanged |
| Dicts.SetAllGet | pywhentowork/classes/_w2w_base.py:9-11 | after a sequence of assignments a key holds the last value assigned to it, or its earlier value if it was never assigned |
| Dicts.SetAllKeys | pywhentowork/classes/_w2w_base.py:9-11 | a sequence of assignments appends each new key once, in first-assignment order |
| Dicts.SetAllUnique | pywhentowork/classes/_w2w_base.py:9-11 | a sequence of assignments keeps the keys unique |
| Dicts.LookupUnique | pywhentowork/classes/_w2w_base.py:39 | when the keys are unique, the last pair for a key is the only pair for it |
| Dicts.CopyIsIdentity | pywhentowork/classes/_w2w_base.py:39 | copying a dict with unique keys pair by pair gives the same dict |
| W2WBase.Attr | pywhentowork/classes/employee.py:47 | attribute access succeeds exactly when the attribute is in `__dict__` and gives its value; otherwise it raises AttributeError naming the class and the attribute |
| W2WBase.Defaults | pywhentowork/classes/_w2w_base.py:6-7 | the first loop gives every schema field, in schema order, the value None |
| W2WBase.SetAttrError | pywhentowork/classes/_w2w_base.py:7-11 | `setattr` of a scalar raises exactly for the three descriptor names: TypeError for `__class__` and `__dict__`, AttributeError for `__weakref__`; any other name is stored |
| W2WBase.FieldsError | pywhentowork/classes/_w2w_base.py:6-7 | the unguarded field loop raises exactly when a schema field is a descriptor name |
| W2WBase.KwargsError | pywhentowork/classes/_w2w_base.py:9-14 | the keyword loop lets an error out exactly when a keyword is `__class__` or `__dict__`, and that error is a TypeError |
| W2WBase.Stored | pywhentowork/classes/_w2w_base.py:9-14 | the keywords that reach `__dict__` are those that are not descriptor names, and each keeps the last value given to it |
| W2WBase.InitAttrs | pywhentowork/classes/_w2w_base.py:5-14 | the `__dict__` construction leaves has no key twice |
| W2WBase.InitResult | pywhentowork/classes/_w2w_base.py:5-14 | `__init__` raises exactly when a field is a descriptor name or a keyword is `__class__` or `__dict__`; with plain fields the error is a TypeError; otherwise the record holds `InitAttrs` |
| W2WBase.FieldStep | pywhentowork/classes/_w2w_base.py:6-7 | one turn of the field loop sets the field to None, or raises that field's `setattr` error |
| W2WBase.KwargStep | pywhentowork/classes/_w2w_base.py:9-14 | one turn of the keyword loop stores the pair, skips a descriptor name, or lets a TypeError out |
| W2WBase.FieldsErrorPrefix | pywhentowork/classes/_w2w_base.py:6-7 | once the field loop has raised, the later fields do not matter |
| W2WBase.KwargsErrorPrefix | pywhentowork/classes/_w2w_base.py:9-14 | once the keyword loop has raised, the later keywords do not matter |
| W2WBase.InitFacts | pywhentowork/classes/_w2w_base.py:5-14 | with plain fields, the dict construction leaves satisfies every promise of `Built` |
| W2WBase.Initialize | pywhentowork/classes/_w2w_base.py:5-14 | the two `setattr` loops end as `InitResult` says; a record they return has unique keys, None in every field no keyword names, every keyword other than a descriptor name under its own name, and no descriptor name |
| W2WBase.InitDefaultsNone | pywhentowork/classes/_w2w_base.py:6-7 | a schema field that no keyword argument names is None after construction |
| W2WBase.InitKwargsStored | pywhentowork/classes/_w2w_base.py:9-11 | every keyword argument other than a descriptor name is stored under its own name, whether or not it is a schema field |
| W2WBase.InitNoOtherAttrs | pywhentowork/classes/_w2w_base.py:5-11 | a name that is neither a schema field nor a keyword is not an attribute |
| W2WBase.InitStoresNoSlot | pywhentowork/classes/_w2w_base.py:9-14 | with plain fields, no descriptor name ever lands in `__dict__` |
| W2WBase.InitOrder | pywhentowork/classes/_w2w_base.py:5-11 | attribute order is the schema fields (each in its first place) followed by the stored keyword names that are new |
| W2WBase.New | pywhentowork/classes/employee.py:43-44 | the subclass constructor raises exactly when a keyword is `self`, `fields`, `__class__` or `__dict__`, or the schema holds a descriptor name; with a plain schema the error is a TypeError; otherwise it builds the record of `InitAttrs` from the class's schema |
| W2WBase.LowerPairs | pywhentowork/classes/_w2w_base.py:39 | each key is lower-cased in place, and values and order are kept |
| W2WBase.LowerKeys | pywhentowork/classes/_w2w_base.py:39 | the lower-cased dict has unique keys, and each key holds the value of the last original key that lowers to it |
| W2WBase.FromJson | pywhentowork/classes/_w2w_base.py:20-41 | None gives None; a JSON object raises exactly when one of its keys lowers to `self`, `fields`, `__class__` or `__dict__` (or the schema holds a descriptor name), and otherwise gives the record the constructor builds from the lower-cased keys |
| W2WBase.FromJsonLaterKeyWins | pywhentowork/classes/_w2w_base.py:39-41 | when keys collide after lower-casing, the attribute holds the value of the last of them (for any key that does not lower to a descriptor name) |
| W2WBase.FromJsonFoldsKeys | pywhentowork/classes/_w2w_base.py:39-41 | a JSON key in any case, other than a descriptor name, becomes the lower-case attribute holding its value |
| W2WBase.FromJsonMissingFieldIsNone | pywhentowork/classes/_w2w_base.py:6-7 | a schema field that the JSON object does not mention, in any case, is None |
| W2WBase.FromJsonOnLowercase | pywhentowork/classes/_w2w_base.py:39-41 | on already lower-case unique keys, `from_json` builds the same record as the constructor |
| W2WBase.FromJsonDunderClassRaises | pywhentowork/classes/_w2w_base.py:9-14 | `from_json({"__CLASS__": None})` raises TypeError |
| W2WBase.FromJsonWeakrefSkipped | pywhentowork/classes/_w2w_base.py:9-14 | `from_json({"__WEAKREF__": 1})` builds a record without a `__weakref__` attribute |
| W2WBase.Repr | pywhentowork/classes/_w2w_base.py:16-18 | the repr starts with the class name and `(` and ends with `)` |
| W2WBase.AttrText | pywhentowork/classes/_w2w_base.py:18 | the text of a present attribute is its name, `=` and the `str` of its value |
| W2WBase.AttrTexts | pywhentowork/classes/_w2w_base.py:18 | one `name=value` text per name, in the given order |
| W2WBase.ReprInOrder | pywhentowork/classes/_w2w_base.py:18 | the repr lists `name=value` for every attribute in insertion order |
| W2WBase.ReprOfNew | pywhentowork/classes/_w2w_base.py:5-18 | a new record's repr lists the schema fields in schema order, then the extra keyword attributes |
| W2WBase.IdentityEq | pywhentowork/classes/employee.py:49-52 | an object of another class is unequal; the comparison raises AttributeError on the identifier exactly when the classes match and either object lacks it |
| W2WBase.IdentityHash | pywhentowork/classes/employee.py:54-55 | the hash exists exactly when the identifier does, and is then the `hash()` of the identifier; otherwise AttributeError |
| W2WBase.IdentityEqIff | pywhentowork/classes/employee.py:49-52 | two objects are equal exactly when they have the same class and equal identifier attributes; an object of another class is never equal |
| W2WBase.IdentityEqEquivalence | pywhentowork/classes/employee.py:49-52 | identity equality is reflexive on objects with an identifier, symmetric (even in the error it raises) and transitive |
| W2WBase.IdentityHashRespectsEq | pywhentowork/classes/employee.py:49-55 | equal objects have equal hashes |
| EmployeeRecord.Eq | pywhentowork/classes/employee.py:49-52 | `==` is False against a non-Employee; it raises AttributeError on `w2w_employee_id` exactly when the other is a Employee and either lacks it |
| EmployeeRecord.Hash | pywhentowork/classes/employee.py:54-55 | `hash` is the `hash()` of `w2w_employee_id` when present; otherwise it raises AttributeError on it |
| EmployeeRecord.Str | pywhentowork/classes/employee.py:46-47 | `str` succeeds exactly when `first_name` and `last_name` are present; otherwise it raises AttributeError on `first_name` if that is missing, else on `last_name` |
| EmployeeRecord.EqIffSameId | pywhentowork/classes/employee.py:49-52 | an Employee equals exactly the Employees with an equal `w2w_employee_id` |
| EmployeeRecord.EqIsEquivalence | pywhentowork/classes/employee.py:49-52 | Employee equality is reflexive, symmetric and transitive |
| EmployeeRecord.HashRespectsEq | pywhentowork/classes/employee.py:49-55 | equal Employees hash equally |
| EmployeeRecord.StrValue | pywhentowork/classes/employee.py:46-47 | with both attributes present, an Employee prints as the f-string texts of its first and last name, separated by a space |
| EmployeeRecord.StrFromJson | pywhentowork/classes/employee.py:46-47 | an Employee decoded from JSON prints as the values of the last keys that lower to `first_name` and `last_name`, whatever their case or type |
| ShiftRecord.Eq | pywhentowork/classes/shift.py:47-50 | `==` is False against a non-Shift; it raises AttributeError on `shift_id` exactly when the other is a Shift and either lacks it |
| ShiftRecord.Hash | pywhentowork/classes/shift.py:52-53 | `hash` is the `hash()` of `shift_id` when present; otherwise it raises AttributeError on it |
| ShiftRecord.Str | pywhentowork/classes/shift.py:44-45 | `str` raises only AttributeError on Shift, naming one of its six attributes that is missing |
| ShiftRecord.EqIffSameId | pywhentowork/classes/shift.py:47-50 | a Shift equals exactly the Shifts with an equal `shift_id` |
| ShiftRecord.EqIsEquivalence | pywhentowork/classes/shift.py:47-50 | Shift equality is reflexive, symmetric and transitive |
| ShiftRecord.HashRespectsEq | pywhentowork/classes/shift.py:47-53 | equal Shifts hash equally |
| ShiftRecord.StrReadsOnlyItsFields | pywhentowork/classes/shift.py:44-45 | `str` depends only on its six attributes, and it raises exactly when one of them is missing |
| ShiftRecord.SameAttrs | pywhentowork/classes/shift.py:44-45 | shifts that agree on the six attributes `str` reads have the same `str` |
| ShiftRecord.StrErrIffMissing | pywhentowork/classes/shift.py:44-45 | `str` raises exactly when one of its six attributes is missing |
| ShiftRecord.StrOfEmptyShift | pywhentowork/classes/shift.py:44-45 | a Shift built without arguments prints `None None - None None to None None` |
| ShiftRecord.StrOfNoneFields | pywhentowork/classes/shift.py:44-45 | a shift whose six attributes are None prints `None` in each of the six places |
| ShiftRecord.StrValue | pywhentowork/classes/shift.py:44-45 | with its six attributes present, a Shift prints `first last - start_date start_time to end_date end_time`, each part being the value's f-string text |
| ShiftRecord.StrFromJson | pywhentowork/classes/shift.py:44-45 | a Shift decoded from JSON prints that text built from the values of the last keys that lower to its six attribute names, whatever their case |
| PositionRecord.Eq | pywhentowork/classes/position.py:26-29 | `==` is False against a non-Position; it raises AttributeError on `position_id` exactly when the other is a Position and either lacks it |
| PositionRecord.Hash | pywhentowork/classes/position.py:31-32 | `hash` is the `hash()` of `position_id` when present; otherwise it raises AttributeError on it |
| PositionRecord.Str | pywhentowork/classes/position.py:23-24 | `str` succeeds exactly when `position_name` and `position_id` are present; otherwise it raises AttributeError on `position_name` if that is missing, else on `position_id` |
| PositionRecord.EqIffSameId | pywhentowork/classes/position.py:26-29 | a Position equals exactly the Positions with an equal `position_id` |
| PositionRecord.EqIsEquivalence | pywhentowork/classes/position.py:26-29 | Position equality is reflexive, symmetric and transitive |
| PositionRecord.HashRespectsEq | pywhentowork/classes/position.py:26-32 | equal Positions hash equally |
| PositionRecord.StrValue | pywhentowork/classes/position.py:23-24 | with both attributes present, a Position prints as `name (id)` for any values, an int id included, each part being the value's f-string text |
| PositionRecord.StrFromJson | pywhentowork/classes/position.py:23-24 | a Position decoded from JSON prints as `name (id)` built from the values of the last keys that lower to `position_name` and `position_id`, whatever their case or type |
| CategoryRecord.Eq | pywhentowork/classes/category.py:28-31 | `==` is False against a non-Category; it raises AttributeError on `category_id` exactly when the other is a Category and either lacks it |
| CategoryRecord.Hash | pywhentowork/classes/category.py:33-34 | `hash` is the `hash()` of `category_id` when present; otherwise it raises AttributeError on it |
| CategoryRecord.Str | pywhentowork/classes/category.py:25-26 | `str` succeeds exactly when `category_name` and `category_id` are present; otherwise it raises AttributeError on `category_name` if that is missing, else on `category_id` |
| CategoryRecord.EqIffSameId | pywhentowork/classes/category.py:28-31 | a Category equals exactly the Categories with an equal `category_id` |
| CategoryRecord.EqIsEquivalence | pywhentowork/classes/category.py:28-31 | Category equality is reflexive, symmetric and transitive |
| CategoryRecord.HashRespectsEq | pywhentowork/classes/category.py:28-34 | equal Categories hash equally |
| CategoryRecord.StrValue | pywhentowork/classes/category.py:25-26 | with both attributes present, a Category prints as `name (id)` for any values, an int id included, each part being the value's f-string text |
| CategoryRecord.StrFromJson | pywhentowork/classes/category.py:25-26 | a Category decoded from JSON prints as `name (id)` built from the values of the last keys that lower to `category_name` and `category_id`, whatever their case or type |
| Dates.DaysInMonth | pywhentowork/api.py:147-149 | every month has 28 to 31 days |
| Dates.Ordinal | pywhentowork/api.py:147 | `toordinal()` is at least 1, and is the day itself in January of year 1 |
| Dates.OrdinalInYear | pywhentowork/api.py:147 | a date's ordinal lies within its own year |
| Dates.DaysBetween | pywhentowork/api.py:147 | `(end - start).days` is zero exactly for equal dates, negative exactly when the end is before the start and positive exactly when it is after |
| Dates.Before | pywhentowork/api.py:143 | a date is before another only when they differ and its year is not later; an earlier year always comes first |
| Dates.BeforeIsStrictTotalOrder | pywhentowork/api.py:143 | date `<` is irreflexive, asymmetric, transitive and total on distinct dates |
| Dates.BeforeIffOrdinalLess | pywhentowork/api.py:143 | field-by-field date comparison agrees with day-count order, and two dates are equal exactly when their day counts are |
| Dates.NextDay | pywhentowork/api.py:149 | the next day is a date one day count later |
| Dates.AddDays | pywhentowork/api.py:149 | adding n days gives a date n day counts later |
| Dates.Normalize | pywhentowork/api.py:142-149 | the start is kept and the end becomes valid and 0 to 31 days after it; an in-range end is kept; an end before the start becomes the start; an end too far is clamped to 31 days |
| Dates.NormalizeIdempotent | pywhentowork/api.py:142-149 | normalising an already normalised range changes nothing |
| Dates.MonthThenDash | pywhentowork/api.py:138 | a month read by `%m` lies in 1 to 12 and is followed by the dash |
| Dates.DayAt | pywhentowork/api.py:138 | a day read by `%d` lies in 1 to 31 |
| Dates.ParseIsoDate | pywhentowork/api.py:137-140 | every accepted text names a real date |
| Dates.WireText | pywhentowork/api.py:152-153 | the wire text is 10 characters with slashes at 2 and 5, and its three digit groups read back as month, day and year |
| Dates.WireTextOfParsed | pywhentowork/api.py:138-153 | formatting a parsed zero-padded `YYYY-MM-DD` text gives the same digits as `MM/DD/YYYY` |
| Dates.ParseIsoText | pywhentowork/api.py:138 | parsing the ISO text of any valid date gives that date back |
| Dates.ParsedFields | pywhentowork/api.py:138 | the year, month and day of a date parsed from a ten-character text are the values of its three digit groups |
| Dates.StartAfterEndCollapses | pywhentowork/api.py:143-144 | 2024-03-10 to 2024-03-01 becomes 2024-03-10 to 2024-03-10 |
| Dates.LongSpanIsClamped | pywhentowork/api.py:147-149 | 2024-01-01 to 2024-03-01 ends at 2024-02-01 |
| Dates.ParseFullDate | pywhentowork/api.py:138 | `2024-03-10` parses to 10 March 2024 |
| Dates.ParseFirstOfMarch | pywhentowork/api.py:138 | `2024-03-01` parses to 1 March 2024 |
| Dates.ParseShortFields | pywhentowork/api.py:138 | `2024-3-1` is accepted with a one-digit month and day |
| Dates.ParseDayOutOfRange | pywhentowork/api.py:138 | `2024-02-30` is refused as a date that does not exist |
| Dates.ParseTrailingText | pywhentowork/api.py:138 | `2024-03-10x` is refused because text remains after the day |
| BaseUrl.FindWww | pywhentowork/api.py:64 | the search returns the leftmost `www<digit>` position, or nothing when there is none |
| BaseUrl.FindDll | pywhentowork/api.py:65 | the search returns the leftmost `w2w<letter>.dll` position, or nothing when there is none |
| BaseUrl.DigitRunEnd | pywhentowork/api.py:64 | `\d+` takes every digit up to the first non-digit |
| BaseUrl.WwwNumber | pywhentowork/api.py:64-68 | a number is read exactly when `www<digit>` occurs, and it is the value of all the digits after the first such match |
| BaseUrl.DllLetter | pywhentowork/api.py:65-69 | a letter is read exactly when `w2w<letter>.dll` occurs; it is an ASCII letter, the one of the first such match |
| BaseUrl.LetterPosition | pywhentowork/api.py:69-72 | `ord(upper) & 31` lies in 0 to 31, and on an ASCII letter is its alphabet position, 1 to 26, in either case |
| BaseUrl.IsBaseUrlValid | pywhentowork/api.py:60-78 | a URL that passes has both parts, and its server number lies in 1 to 26 |
| BaseUrl.ValidIff | pywhentowork/api.py:60-78 | a URL passes exactly when both patterns occur and the number of the first `www` match equals the alphabet position of the first dll letter |
| BaseUrl.MissingPartIsInvalid | pywhentowork/api.py:77-78 | a URL missing either pattern fails |
| BaseUrl.DefaultIsValid | pywhentowork/api.py:24 | the default base URL (`www6`, `w2wF`) passes |
| BaseUrl.MismatchIsInvalid | pywhentowork/api.py:60-78 | `www1` with `w2wB.dll` fails |
| BaseUrl.TwoLetterDllIsInvalid | pywhentowork/api.py:65 | a two-letter dll name such as `w2wCC.dll` does not match the pattern, so the URL fails |
| Api.Transport.Post | pywhentowork/api.py:87 | the request is logged and the server's answer to it is returned |
| Api.ReadResponse | pywhentowork/api.py:89-92 | the body is returned exactly when the status is 200 and the body decodes; another status raises with the response text; a body that does not decode raises a JSON error |
| Api.FromJsonAll | pywhentowork/api.py:100 | the list succeeds exactly when every element decodes, and then holds each element's record in order |
| Api.ListFromBody | pywhentowork/api.py:100 | errors pass through; a body without the endpoint's list raises KeyError; a body with it gives exactly `FromJsonAll` of the list |
| Api.RecordList | pywhentowork/api.py:89-100 | a getter's result after the request: a status error, a JSON error, a KeyError, and with status 200, a JSON body and the list present, exactly `FromJsonAll` of the list |
| Api.KeyOnlyParams | pywhentowork/api.py:85 | adding the key to an empty dict gives the one-field form `key=<key>` |
| Api.KeyAppended | pywhentowork/api.py:158-165 | the key comes after the three query fields in the posted form |
| Api.SetBaseUrlOutcome | pywhentowork/api.py:52-58 | an empty URL raises and changes nothing; a new URL is stored only while the current one passes the check |
| Api.SetterStoresInconsistentUrl | pywhentowork/api.py:57-58 | from the default URL the setter stores a URL that fails the check |
| Api.SetterStuckOnInconsistentUrl | pywhentowork/api.py:57-58 | once the stored URL fails the check, no sequence of assignments changes it |
| Api.SetBaseUrlAll | pywhentowork/api.py:52-58 | after a sequence of assignments the URL is the original one or one of those assigned |
| Api.AsWrittenFilterRaises | pywhentowork/api.py:156 | a Position decoded from JSON without an `id` key raises AttributeError in the filter as written (`AsWrittenIdAttr`) |
| Api.PositionFilterExample | pywhentowork/api.py:156 | for `{"POSITION_ID": "7"}` the filter as written raises, and the corrected one (`PositionIdAttr`) sends `7` |
| Api.PositionFilter | pywhentowork/api.py:156 | a string is sent as it is; a Position contributes the attribute the filter reads, and raises AttributeError on that name when it lacks it |
| Api.FilterUsesPositionId | pywhentowork/api.py:156 | with the corrected filter, a Position decoded from JSON is filtered by the identifier the JSON gave it |
| Api.ToDate | pywhentowork/api.py:137-140 | a date is used as it is; a text gives exactly `ParseIsoDate` of it; a parsed text is a real date |
| Api.ShiftQuery | pywhentowork/api.py:136-165 | the start date is read first, then the end date, then the filter (reading `id` as written or `position_id` as corrected), and the first failure is the error raised; the query succeeds exactly when all three do, and its fields are then start_date, end_date and position, in that order |
| Api.QueryFields | pywhentowork/api.py:142-165 | once both dates are read, the filter's error (as written or corrected) is the only error; the fields hold the start date and the normalised end date in wire format, then the filter value |
| Api.AsWrittenQueryRaises | pywhentowork/api.py:136-165 | as written, a query with a Position decoded from JSON without an `id` key raises AttributeError once the dates are read, so the getter sends nothing |
| Api.CorrectedQuerySendsPositionId | pywhentowork/api.py:136-165 | corrected, the same query succeeds and its `position` field holds the identifier the JSON gave the Position |
| Api.QueryStartAfterEnd | pywhentowork/api.py:142-163 | a query from 2024-03-10 to 2024-03-01 asks for `03/10/2024` to `03/10/2024` |
| Api.WireExample | pywhentowork/api.py:152 | 10 March 2024 is written `03/10/2024` |
| Api.Client.constructor | pywhentowork/api.py:26-27 | the key and the URL are stored as given |
| Api.Client.SetKey | pywhentowork/api.py:41-46 | an empty key raises and the old key stays; otherwise the key is replaced |
| Api.Client.SetBaseUrl | pywhentowork/api.py:52-58 | the outcome and the new URL are those of `SetBaseUrlOutcome` |
| Api.Client.PostToEndpoint | pywhentowork/api.py:80-92 | an endpoint outside the allow-list raises before the caller's dict or the network is touched; otherwise the key is written into the caller's dict, exactly one request goes to the base URL followed by the endpoint, and the response is checked |
| Api.Client.EmployeeList | pywhentowork/api.py:94-100 | one request with the key alone, answered by Employee records or an error |
| Api.Client.PositionList | pywhentowork/api.py:102-113 | one request with the key alone; on success the positions are also cached, on failure the cache is unchanged |
| Api.Client.AssignedShiftList | pywhentowork/api.py:115-167 | an unreadable date or filter (the filter as written or corrected) raises before any request; otherwise one request carries the query and the key, answered by Shift records or an error |
| Api.Client.PostShiftQuery | pywhentowork/api.py:158-167 | the query is posted with the key appended, and the answer is decoded into Shift records |
| Api.Open | pywhentowork/api.py:21-35 | the position list is fetched whatever the URL; a fetch error raises; a URL that fails the check then raises; otherwise a new client holds the key, the URL and the fetched positions |

## Findings

| source | as written | input that shows it | evidently intended | confidence | as-written member | corrected member |
|---|---|---|---|---|---|---|
| pywhentowork/api.py:156 | `position.id` reads an `id` attribute, but Position records have their identifier under `position_id` | a Position decoded from `{"POSITION_ID": "7"}`, passed as the position filter of `get_assigned_shift_list`, raises AttributeError | send the record's `position_id`, the same identifier a string filter carries | high; not executed | Api.AsWrittenFilterRaises, Api.AsWrittenQueryRaises, Api.PositionFilterExample | Api.FilterUsesPositionId, Api.CorrectedQuerySendsPositionId |

`Api.PositionFilter`, `Api.ShiftQuery`, `Api.QueryFields` and `Api.Client.AssignedShiftList` take
the attribute line 156 reads as a parameter: `Api.AsWrittenIdAttr` (`id`) is the line as written,
`Api.PositionIdAttr` (`position_id`) the line as intended. The argument assumes the
Position schema has no field named `id`. The schema file `position.json` is not part of this
model, and the class's documented attributes have no `id`.

## Left out

- `load_fields` (`_w2w_base.py:44-52`) reads each schema from a JSON file. The model takes the
  four field lists as the parameter `Schemas`.
- `from_json` on a JSON *string* (`_w2w_base.py:35-36`) is not modelled, because JSON text
  decoding is outside the model. `FromJson` takes a decoded object or None.
- The `print` in the `except AttributeError` branch of `__init__` (`_w2w_base.py:12-14`) is
  console output. The branch itself is modelled: the attribute is skipped.
- `W2WBase.SetAttrError`: a `__dict__` keyword whose value is a dict would replace the instance
  dict. Values here are scalars, so the model always raises TypeError for it.
- The network is modelled as an oracle. `requests.post` is `Transport.Post` on a fixed `server`
  function. `response.json()` is the `json` field of a response, absent when decoding fails.
  Timeouts and connection errors are not modelled.
- Attribute values are None, bool, int and str. JSON floats, lists and nested objects are not
  modelled, and neither are the values of response bodies other than lists of objects.
- The `str` hash and `hash(None)` depend on the process. They are parameters (`HashEnv`).
- The default date arguments of `get_assigned_shift_list` are the day the module was imported
  (`api.py:117-118`). That is a clock read, so the model takes both dates explicitly.
- A `datetime.datetime` passed where a date is expected is not modelled, by choice. It is a
  subclass of `datetime.date`, so the type hint admits it; compared with a date at `api.py:143`
  it raises TypeError. A position argument that is neither a str nor a Position is not
  modelled either.
- `Dates.ParseIsoDate`: `%Y`, `%m` and `%d` accept ASCII digits only. CPython builds them from
  Unicode `\d`, so it also accepts other decimal digits, such as fullwidth `２０２４-03-10`,
  which the model refuses.
- `strptime` is modelled for `%Y-%m-%d` only. Its ValueError messages are reduced to
  `DateFormatError` and `DateRangeError`.
- `Dates.WireText`: `%Y` is always padded to four digits. For years below 1000 the C library
  decides the padding.
- `BaseUrl.ValidIff`: the digit run after `www` may have any length. CPython 3.10.7 and later
  refuse `int()` on more than 4300 digits and raise ValueError out of `_is_base_url_valid`, and
  so out of the setter and the constructor. The model (`BaseUrl.IsBaseUrlValid`,
  `Api.SetBaseUrlOutcome`, `Api.Open`) returns false instead.
- `PyValues.Str`: an int is always shown as its digits. CPython 3.10.7 and later refuse to convert
  an int of more than 4300 digits to text, so `str()`, an f-string or `repr` of a record holding
  one raises ValueError. The model (`PyValues.Str`, `Text.IntText`, `W2WBase.Repr` and the
  records' `Str`) returns the digits instead.
- `Text.Lower`: case mapping is ASCII only. Python's `str.lower()` also lowers non-ASCII capitals
  and can change the length of a key (`"İ".lower()` has two characters), while the model keeps
  every non-ASCII character and the length.
- `BaseUrl.DigitRunEnd`, `BaseUrl.WwwNumber`: `\d` in the URL check matches ASCII digits only,
  where Python's `re` also matches other Unicode decimal digits.
- The `key` and `base_url` property getters are not modelled separately. They read the fields
  `Client.key` and `Client.baseUrl`.
