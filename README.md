# JJ accessor layer in Dafny

JJ is a small Swift library for reading an already-decoded, dynamically typed
JSON-like tree (`Any` holding dictionaries, arrays, strings, numbers and
`NSNull`). The model covers the library's accessor layer: `JJVal`, `JJArr`,
`JJMaybeArr`, `JJObj`, `JJMaybeObj` and `JJError`.

- **Values and paths.** A `JJVal` holds one node, or nothing, and the path by
  which it was reached. The path starts at `<root>`. Each step appends `.key`
  or `[index]`. A step through something that is not the expected container
  appends `<nil>.key` or `<nil>[index]`. Navigation never fails.
- **Three extraction forms.** Every target type has:
  - an optional form, `asX`;
  - a defaulting form, `toX(default)`;
  - a throwing form, `x()`. It throws `JJError.wrongType` with the raw value,
    the path and a fixed type label.
- **The pretty-printer.** `prettyPrint(space:spacer:)`, which also backs
  `debugDescription`, lays arrays and dictionaries out one element per line:
  - dictionary keys in sorted order;
  - strings quoted, `null` for `NSNull`;
  - no comma after the last element.

  The array and dictionary printers are loops that append a line plus `",\n"`
  per element and then delete the last comma. They are modelled as methods
  with loop invariants and proved equal to a declarative definition.

Modules:

- `Wrappers` (`wrappers.dfy`): `Option` and `Result`.
- `Text` (`text.dfy`):
  - the decimal rendering of an index (Swift's `"\(index)"`) and its inverse;
  - the order `sorted()` puts keys in, and the sorted listing of a key set;
  - joining lines with a separator.
- `JJ` (`jj.dfy`): the node tree, the views, the extractors, the errors, and
  the pretty-printer (specification functions and the imperative methods).
- `Extraction` (`extraction.dfy`): how the three extraction forms relate,
  the absence of cross-kind coercion, and the error messages.
- `Navigation` (`navigation.dfy`): chains of subscripts and the paths they
  record.
- `Printing` (`printing.dfy`): the layout of the printer's output, including
  sorted order and indentation.
- `Scenarios` (`scenarios.dfy`): the concrete documents of the library's
  tests, with the exact values, paths, messages and texts the library gives
  for them.

Three behaviours are inputs to the model rather than interpreted:

- Foundation's parsers: the RFC 3339 date formatter, `URL(string:)` and
  `TimeZone(identifier:)`. Each is a function parameter from a string to an
  optional result.
- Foundation's text for a scalar (`description`), which the printer uses for
  numbers and booleans. This is the parameter `show`.
- The debug description of a raw node (`String(reflecting:)`, which quotes
  strings), which the error message shows. The message applies
  `String(describing:)` to the `Any?` itself, and Swift renders the payload of
  an optional with its debug description. So a held `"Yury"` appears as
  `Optional("Yury")`. This is the parameter `describe`.

The type labels in the errors are the ones the code writes: `Bool`, `Int`,
`UInt`, `NSNumber`, `Float`, `Double`, `[String: Any]`, `[Any]`, `String`,
`NSDate` and `NSURL`.

`asUInt` converts a held `Int` with `UInt(v)`, which stops a Swift program
when `v` is negative, although the accessor's documentation says the result
is `nil` when the conversion is impossible. The model keeps both: the
accessor as written (`AsUIntAsWritten`, which can report `Trapped`), and the
documented reading (`AsUInt`), which the defaulting and throwing forms use.
See "## Findings".

## Model

| member | source | states |
|---|---|---|
| JJ.JJError.Description | JJ/Classes/JJ.swift:51-58 | A `wrongType` message starts with `JJError.WrongType: Can't convert ` and ends with ` to type '<label>'`; a `notFound` message is `JJError.NotFound: No object at path: '<path>'` |
| Extraction.AbsentMessage | JJ/Classes/JJ.swift:53-54 | The message for a missing value is `JJError.WrongType: Can't convert nil at path: '<path>' to type '<label>'` |
| Extraction.PresentMessage | JJ/Classes/JJ.swift:53-54 | The message for a held value shows `Optional(<its debug description>)` between the same fixed texts |
| JJ.Wrap | JJ/Classes/JJ.swift:65 | `jj(v)` holds `v` at path `<root>` |
| JJ.JJArr.At | JJ/Classes/JJ.swift:105-112 | The path is the array's path plus `[i]` for every index; the result holds element `i` exactly when `0 <= i < count` and is absent otherwise |
| JJ.JJArr.PrettyPrint | JJ/Classes/JJ.swift:135-146 | The loop that appends each element line with `",\n"` and then deletes the last comma yields exactly `PrettyArr`: `[]` when empty, else the lines joined by `",\n"` between `"[\n"` and `"\n" + space + "]"` |
| JJ.JJArr.DebugDescription | JJ/Classes/JJ.swift:149 | `debugDescription` is `prettyPrint()` with the default indentation |
| JJ.JJMaybeArr.At | JJ/Classes/JJ.swift:164-166 | With an array view, exactly that view's `at`; without one, an absent value at path + `<nil>[i]` |
| JJ.JJObj.At | JJ/Classes/JJ.swift:198-206 | The path is the dictionary's path plus `.key`; the result holds the entry exactly when the key is present |
| JJ.JJObj.PrettyPrint | JJ/Classes/JJ.swift:231-244 | The loop over the sorted keys that appends each `"key": value` line with `",\n"` and then deletes the last comma yields exactly `PrettyObj`: `{}` when empty, else the entry lines in sorted key order joined by `",\n"` |
| JJ.JJObj.DebugDescription | JJ/Classes/JJ.swift:246 | `debugDescription` is `prettyPrint()` with the default indentation |
| JJ.JJMaybeObj.At | JJ/Classes/JJ.swift:261-263 | With a dictionary view, exactly that view's `at`; without one, an absent value at path + `<nil>.key` |
| JJ.JJVal.AsBool | JJ/Classes/JJ.swift:302 | Defined exactly when a boolean node is held, and then it is that boolean |
| JJ.JJVal.ToBool | JJ/Classes/JJ.swift:310-312 | The held boolean, otherwise the default, which is `false` when not given |
| JJ.JJVal.GetBool | JJ/Classes/JJ.swift:318-323 | Succeeds exactly on a boolean node with that boolean; otherwise fails with `wrongType(raw, path, "Bool")` |
| JJ.JJVal.AsInt | JJ/Classes/JJ.swift:332 | Defined exactly when a signed integer node is held |
| JJ.JJVal.ToInt | JJ/Classes/JJ.swift:339-341 | The held integer, otherwise the default (`0` when not given) |
| JJ.JJVal.GetInt | JJ/Classes/JJ.swift:347-352 | Succeeds exactly on a signed integer node; otherwise `wrongType(raw, path, "Int")` |
| JJ.JJVal.AsUInt | JJ/Classes/JJ.swift:357-369 | The documented reading: defined exactly on an unsigned node or a non-negative signed one, with the same numeric value, and `nil` for a negative signed one |
| JJ.JJVal.AsUIntAsWritten | JJ/Classes/JJ.swift:361-369 | The accessor as written stops the program exactly on a negative signed node, and otherwise gives the documented reading |
| JJ.JJVal.ToUInt | JJ/Classes/JJ.swift:376-378 | The held value as unsigned when it has an unsigned reading, otherwise the default (`0` when not given) |
| JJ.JJVal.GetUInt | JJ/Classes/JJ.swift:384-389 | Succeeds exactly when `asUInt` is defined, with its value; otherwise `wrongType(raw, path, "UInt")` |
| JJ.JJVal.AsNumber | JJ/Classes/JJ.swift:398 | Defined exactly on a numeric node, and the number boxes that node |
| JJ.JJVal.ToNumber | JJ/Classes/JJ.swift:405-407 | The boxed numeric node, otherwise the default (integer `0` when not given) |
| JJ.JJVal.GetNumber | JJ/Classes/JJ.swift:413-418 | Succeeds exactly on a numeric node; otherwise `wrongType(raw, path, "NSNumber")` |
| JJ.JJVal.AsFloat | JJ/Classes/JJ.swift:427 | Defined exactly on a `Float` node |
| JJ.JJVal.ToFloat | JJ/Classes/JJ.swift:434-436 | The held `Float`, otherwise the default (`0` when not given) |
| JJ.JJVal.GetFloat | JJ/Classes/JJ.swift:442-447 | Succeeds exactly on a `Float` node; otherwise `wrongType(raw, path, "Float")` |
| JJ.JJVal.AsDouble | JJ/Classes/JJ.swift:456 | Defined exactly on a `Double` node |
| JJ.JJVal.ToDouble | JJ/Classes/JJ.swift:463-465 | The held `Double`, otherwise the default (`0` when not given) |
| JJ.JJVal.GetDouble | JJ/Classes/JJ.swift:471-476 | Succeeds exactly on a `Double` node; otherwise `wrongType(raw, path, "Double")` |
| JJ.JJVal.AsObj | JJ/Classes/JJ.swift:486-492 | Defined exactly on a dictionary node; the view holds that dictionary at the same path |
| JJ.JJVal.ToObj | JJ/Classes/JJ.swift:499-501 | An optional dictionary view at the same path that exists exactly when a dictionary is held |
| JJ.JJVal.GetObj | JJ/Classes/JJ.swift:507-513 | The dictionary view at the same path; otherwise `wrongType(raw, path, "[String: Any]")` |
| JJ.JJVal.AsArr | JJ/Classes/JJ.swift:522-527 | Defined exactly on an array node; the view holds that array at the same path |
| JJ.JJVal.ToArr | JJ/Classes/JJ.swift:534-536 | An optional array view at the same path that exists exactly when an array is held |
| JJ.JJVal.GetArr | JJ/Classes/JJ.swift:542-547 | The array view at the same path; otherwise `wrongType(raw, path, "[Any]")` |
| JJ.JJVal.AsString | JJ/Classes/JJ.swift:556 | Defined exactly on a string node |
| JJ.JJVal.ToString | JJ/Classes/JJ.swift:563-565 | The held string, otherwise the default (`""` when not given) |
| JJ.JJVal.GetString | JJ/Classes/JJ.swift:571-576 | Succeeds exactly on a string node; otherwise `wrongType(raw, path, "String")` |
| JJ.JJVal.AsDate | JJ/Classes/JJ.swift:585 | Only a held string can give a date, and then it is the parser's answer for it |
| JJ.JJVal.GetDate | JJ/Classes/JJ.swift:591-597 | Succeeds exactly on a string the parser accepts; otherwise `wrongType(raw, path, "NSDate")` |
| JJ.JJVal.AsURL | JJ/Classes/JJ.swift:606-612 | Only a held string can give a URL, and then it is the parser's answer for it |
| JJ.JJVal.ToURL | JJ/Classes/JJ.swift:619-621 | The parsed URL of a held string the parser accepts, otherwise the default |
| JJ.JJVal.GetURL | JJ/Classes/JJ.swift:627-633 | Succeeds exactly on a string the parser accepts; otherwise `wrongType(raw, path, "NSURL")` |
| JJ.JJVal.AsTimeZone | JJ/Classes/JJ.swift:648-654 | Only a held string can give a time zone, and then it is the lookup's answer for it |
| JJ.JJVal.AtKey | JJ/Classes/JJ.swift:661-663 | Appends `.key` under a dictionary and `<nil>.key` otherwise; holds the entry exactly when a dictionary with that key is held |
| JJ.JJVal.AtIndex | JJ/Classes/JJ.swift:674-676 | Appends `[i]` under an array and `<nil>[i]` otherwise; holds element `i` exactly when an array is held and `i` is in range |
| JJ.JJVal.PrettyPrint | JJ/Classes/JJ.swift:701-715 | The dispatch (array, dictionary, quoted string, `null`, scalar description, `nil`) yields exactly `PrettyVal` |
| JJ.JJVal.DebugDescription | JJ/Classes/JJ.swift:720 | `debugDescription` is `prettyPrint()` with the default indentation; it depends on the held node only, not on the path |
| JJ.JJVal.Exists | JJ/Classes/JJ.swift:683 | An explicit null exists; a value that does not exist gives no boolean, number, string, dictionary or array |
| JJ.JJVal.IsNull | JJ/Classes/JJ.swift:638 | A null gives no boolean, number, string, dictionary or array |
| JJ.JJArr.Exists | JJ/Classes/JJ.swift:124 | A confirmed array always exists |
| JJ.JJArr.Count | JJ/Classes/JJ.swift:127 | The count is exactly the number of indices from 0 that find an element |
| JJ.JJObj.Exists | JJ/Classes/JJ.swift:222 | A confirmed dictionary always exists |
| JJ.JJObj.Count | JJ/Classes/JJ.swift:224 | The count is the number of entries the printer lists, and it is zero exactly when no key finds anything |
| JJ.JJMaybeArr.Exists | JJ/Classes/JJ.swift:170 | Exists exactly when `raw` is not `nil` |
| JJ.JJMaybeArr.Raw | JJ/Classes/JJ.swift:173 | `raw` is `nil` exactly when no array is held; otherwise every in-range index reads that array's element, and when it is `nil` no index finds anything |
| JJ.JJMaybeObj.Exists | JJ/Classes/JJ.swift:274 | Exists exactly when `raw` is not `nil` |
| JJ.JJMaybeObj.Raw | JJ/Classes/JJ.swift:269 | `raw` is `nil` exactly when no dictionary is held; otherwise every key reads that dictionary's entry, and when it is `nil` no key finds anything |
| JJ.Label | JJ/Classes/JJ.swift:322-631 | Every type name in a `wrongType` error is non-empty and holds no quote, so the quoted name that ends the message is exactly the label |
| JJ.DeleteTrailingComma | JJ/Classes/JJ.swift:144 | Removing the second-to-last character of a text that ends in `",\n"` leaves the text ending in `"\n"` without the comma |
| Text.IntToString | JJ/Classes/JJ.swift:106 | The interpolated index is non-empty and starts with `-` exactly when the index is negative |
| Text.IntToStringRoundTrip | JJ/Classes/JJ.swift:106 | Reading back the interpolated index gives the index |
| Text.IntToStringInjective | JJ/Classes/JJ.swift:106 | Different indices are interpolated differently |
| Text.BelowTransitive | JJ/Classes/JJ.swift:236 | The key order used by `sorted()` is transitive |
| Text.BelowTotal | JJ/Classes/JJ.swift:236 | Any two different keys are ordered one way or the other |
| Text.BelowAsymmetric | JJ/Classes/JJ.swift:236 | No two keys are ordered both ways |
| Text.SortedKeys | JJ/Classes/JJ.swift:236 | `keys.sorted()` lists every key once, in strictly ascending order |
| Text.SortedKeysUnique | JJ/Classes/JJ.swift:236 | Any strictly ascending listing of the keys is the sorted one |
| Text.TerminatedIsJoinPlusTerm | JJ/Classes/JJ.swift:141-144 | Lines that each end in `",\n"` equal the lines joined by `",\n"` plus one more `",\n"`, which the comma deletion removes |
| Extraction.ThreeFormsAgree | JJ/Classes/JJ.swift:302-576 | For every type, `toX(d) == asX ?? d`; `x()` returns what `asX` holds or throws `wrongType(raw, path, label)`; `toObj`/`toArr` wrap `asObj`/`asArr` |
| Extraction.ParsedFormsAgree | JJ/Classes/JJ.swift:585-633 | The same agreement for dates and URLs |
| Extraction.StrictKindsExclusive | JJ/Classes/JJ.swift:302-556 | No coercion across kinds: two different strict targets never accept the same node |
| Extraction.LabelsDistinct | JJ/Classes/JJ.swift:322-631 | Every throwing extractor names a different type |
| Extraction.IntegerNodes | JJ/Classes/JJ.swift:332-369 | A signed integer is no boolean, float, double or string; it is a number, and an unsigned exactly when not negative; `uInt()` on a negative one fails with `wrongType(raw, path, "UInt")` |
| Extraction.NegativeUIntTraps | JJ/Classes/JJ.swift:357-366 | On a negative signed node the accessor as written stops the program, where the documented reading is `nil` and `toUInt(d)` is `d` |
| Extraction.UnsignedNodes | JJ/Classes/JJ.swift:361-369 | An unsigned integer is never read as signed |
| Extraction.StringNodes | JJ/Classes/JJ.swift:556 | A string is only a string, whatever it spells |
| Extraction.NothingExtractsFromAbsentOrNull | JJ/Classes/JJ.swift:302-683 | A missing value and a null both fail every extraction with their own path, and every `toX` gives its default |
| Extraction.ParsedFormsNeedParsableString | JJ/Classes/JJ.swift:585-654 | Dates, URLs and time zones come only from strings the parser accepts |
| Navigation.GoPath | JJ/Classes/JJ.swift:661-680 | One subscript appends exactly one segment, after a `<nil>` marker when the container does not fit, and then finds nothing |
| Navigation.GoAbsent | JJ/Classes/JJ.swift:661-680 | A subscript on nothing gives nothing at the marked path |
| Navigation.GoExists | JJ/Classes/JJ.swift:661-680 | A subscript finds something exactly when the container fits and holds the key or index |
| Navigation.WalkExtendsPath | JJ/Classes/JJ.swift:661-680 | Paths only grow along a chain of subscripts, by at least one character per step |
| Navigation.WalkAppend | JJ/Classes/JJ.swift:661-680 | A chain of subscripts composes |
| Navigation.AbsentWalk | JJ/Classes/JJ.swift:661-680 | Once nothing is found, the rest of the chain finds nothing and appends each segment after a `<nil>` marker |
| Navigation.MixedWalk | JJ/Classes/JJ.swift:661-680 | A chain that finds a prefix and then fails records the plain segments of the prefix, the failing segment (after `<nil>` when its container was not there), then a `<nil>`-marked segment per further step, and finds nothing |
| Navigation.PresentWalk | JJ/Classes/JJ.swift:661-680 | A chain that finds something started from a held value and recorded every segment without a marker |
| Navigation.NullVersusAbsent | JJ/Classes/JJ.swift:198-206 | A key mapped to null exists and is null; a missing key neither exists nor is null |
| Navigation.ViewExistence | JJ/Classes/JJ.swift:124-274 | Confirmed views always exist; the optional views exist exactly when they hold a view, and then their raw value is that view's |
| Navigation.IndexPathsDistinct | JJ/Classes/JJ.swift:105-112 | Different indices give different paths |
| Navigation.KeyPathsDistinct | JJ/Classes/JJ.swift:198-206 | Different keys give different paths |
| Navigation.IndexReadBack | JJ/Classes/JJ.swift:105-112 | The index can be read back from the path |
| Printing.EmptyContainers | JJ/Classes/JJ.swift:135-244 | An empty array prints `[]` and an empty dictionary `{}` |
| Printing.PrettyObjSortedOrder | JJ/Classes/JJ.swift:236-241 | Whatever order a dictionary holds its entries in, it prints them in the one strictly ascending order of its keys |
| Printing.PrettyNodeIndented | JJ/Classes/JJ.swift:701-715 | When no string, key or scalar text holds a line break, every line after the first starts with the current indentation and the text does not end in a line break |
| Printing.PrettyArrIndented | JJ/Classes/JJ.swift:135-146 | The same for an array; when it is not empty, every line between `[` and the last line begins with `space + spacer`, and the last line is `space + "]"` |
| Printing.PrettyObjIndented | JJ/Classes/JJ.swift:231-244 | The same for a dictionary; when it is not empty, every line between `{` and the last line begins with `space + spacer`, and the last line is `space + "}"` |
| Scenarios.PersonKeysSorted | JJ/Classes/JJ.swift:236 | `firstName` sorts before `lastName` |
| Scenarios.PersonLines | Example/Tests/Tests.swift:16 | The two entry lines of the person dictionary |
| Scenarios.PersonText | Example/Tests/Tests.swift:16-18 | The person dictionary prints as `{\n  "firstName": "Yury",\n  "lastName": "Korolev"\n}` |
| Scenarios.FirstNameText | Example/Tests/Tests.swift:98-100 | A string element prints quoted |
| Scenarios.MixedLines | Example/Tests/Tests.swift:125 | The element lines of `[1, "Nice", 5.5, null, "http://anjlab.com"]` |
| Scenarios.MixedText | Example/Tests/Tests.swift:125-126 | That array prints one element per line with no trailing comma |
| Scenarios.ShortArrayText | Example/Tests/Tests.swift:109 | `[1, "Nice"]` prints as `[\n  1,\n  "Nice"\n]` |
| Scenarios.DebugIgnoresPath | Example/Tests/Tests.swift:124 | The same node at two different paths has the same text |
| Scenarios.MixedReads | Example/Tests/Tests.swift:115-123 | The elements of the mixed array read back by kind; index 5 and index -1 are absent |
| Scenarios.SampleIsObject | Example/Tests/Tests.swift:93-95 | The sample document is a dictionary of 11 entries at `<root>` |
| Scenarios.SampleTextAndFlags | Example/Tests/Tests.swift:36-48 | Strings and booleans read back, with defaults for missing keys |
| Scenarios.SampleNumbers | Example/Tests/Tests.swift:49-72 | Integers, unsigned integers, doubles and numbers read back, with defaults for missing keys |
| Scenarios.SampleParsed | Example/Tests/Tests.swift:73-84 | Dates, URLs and time zones are the parsers' answers for the stored strings, and absent for missing keys |
| Scenarios.SampleContainers | Example/Tests/Tests.swift:85-96 | The nested dictionary and array views exist at `<root>.obj` and `<root>.arr` |
| Scenarios.UnknownKeyErrors | Example/Tests/Tests.swift:203-291 | Each throwing extractor on a missing key fails with `nil`, path `<root>.unknownKey` and its own label |
| Scenarios.UnknownKeyMessage | Example/Tests/Tests.swift:210 | The full message for a missing string |
| Scenarios.NestedMissingChain | Example/Tests/Tests.swift:229-234 | `["nested"]["unknown"][0]` on the person gives nothing at `<root>.nested<nil>.unknown<nil>[0]`, and `url()` fails there with `NSURL` |
| Scenarios.ObjectIsNotArray | Example/Tests/Tests.swift:237-242 | `arr()` on a dictionary fails with the dictionary, path `<root>` and label `[Any]` |
| Scenarios.NullEntry | JJ/Classes/JJ.swift:638-683 | A key mapped to null exists and is null; a missing key neither exists nor is null |
| Scenarios.NegativeIsNotUnsigned | JJ/Classes/JJ.swift:357-369 | `-1` stops the accessor as written, has no unsigned reading and makes `uInt()` fail with label `UInt`; `1` reads as `1` |

## Left out

- `JJEnc`, `JJDec`, `JJDecVal` and `jj(encoder:)` / `jj(decoder:)`: they wrap `NSCoder` archiving, whose behaviour is Foundation's.
- The RFC 3339 formatter, `URL(string:)` and `TimeZone(identifier:)` are function parameters. The model does not say which strings they accept.
- Swift's `as?` bridging of `NSNumber`: in Swift a boxed number can also cast to `Bool`, `Int`, `Float` or `Double`. Each node has one kind here, and `asNumber` accepts exactly the numeric kinds.
- Floating-point values are their IEEE 754 bits and are never computed with.
- The scalar `description` in `prettyPrint` and the debug description of a node in the error message are the parameters `show` and `describe`.
- The `#if DEBUG` deprecation warning in `JJObj.at`: it only prints.
- Subscripts are the same functions as `at`, so they have no members of their own.
- JJ.JJVal.ToURL: its default argument `URL(fileURLWithPath: "")` is a Foundation value, so the default is a required parameter.
- Stopping the program is an outcome only of `AsUIntAsWritten`; the model does not carry a trap through `toUInt` and `uInt()`, which use the documented reading.
- Text.SortedKeys: Swift compares strings by Unicode canonical ordering; the model compares characters one by one, which agrees on the keys used here but not for every Unicode string.
- Strings are printed between quotes as they are, without escaping, as the code does.
- `Example/Tests/Tests.swift` and `JJ.playground/Contents.swift` are not modelled; their expected strings appear in the `Scenarios` module.

## Findings

| source | as written | input that shows it | evidently intended | confidence | as-written member | corrected member |
|---|---|---|---|---|---|---|
| JJ/Classes/JJ.swift:357-366 | `asUInt` converts a held `Int` with `UInt(v)`, which stops the program when `v` is negative | a `JJVal` holding `Int(-1)` | the documented answer `nil` ("If this impossible, it is set to `nil`"), so `toUInt(d)` gives `d` and `uInt()` throws `wrongType` | high; not executed | JJ.JJVal.AsUIntAsWritten, with Extraction.NegativeUIntTraps | JJ.JJVal.AsUInt |
