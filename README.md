# Default Object Options — a Dafny model

This project models the core of the Default Object Options editor mod. The mod
hooks the level editor. When a level is opened, it reads `entries.json` from the
mod's config directory into a table from object ID to `ObjectOptions`. Each
entry holds a set of groups, six behaviour toggles and an X/Y scale. Every
time the editor creates an object, the mod does two things:

- It writes three flags from the user's settings onto the object.
- In advanced mode, it applies the table entry for ID 0 and then the entry
  for the object's type.

Modules, one per component:

- `Json` (`json.dfy`): the parsed JSON value. Objects keep their members in
  file order, and `Get` plays the part of `contains` followed by `[]`.
- `CNumbers` (`cnumbers.dfy`): `strtol(s, nullptr, 10)`. It skips white space,
  reads an optional sign, then runs the digit loop, clamping to the range of
  `long`. Also here: the conversion of a `long` to a 32-bit `int`.
  `long` is 32 or 64 bits, depending on the platform (`LongWidth`).
- `Options` (`options.dfy`): `ObjectOptions` and the reading of one entry.
  Each of the three loops (`groups`, `toggles`, `scale`) is a method proved
  against a closed-form function: `GroupsOf`, `TogglesOf`, `ScaleOf`.
- `Table` (`table.dfy`): the key filter and first-wins insertion in file
  order (`InsertAll`), plus their properties.
- `GameObjects` (`gameobjects.dfy`): the game object as a class with the
  fields the mod writes. `ObjectState` is its value snapshot, and `Applied`
  states what applying one `ObjectOptions` does.
- `EditorHook` (`editor.dfy`): the editor-session class `Editor`. It holds the
  cached settings and the table, and has the methods `Init`,
  `ParseDefaultObjectOptions`, `CreateObject` and
  `UpdateObjectWithObjectOptions`. Beside it are the pure specifications
  `LoadTable` and `Patched` and the lemmas about them.

The scale rule follows src/main.cpp:115-131:

- The scale rule is decided by the array's length. A one-element array sets
  both axes. Otherwise element 0 sets X, and every later numeric element
  overwrites Y, so `[2, 3, 4]` gives (2, 4), not (2, 3).
- Reading stops at the first non-numeric element.

## Model

| member | source | states |
|---|---|---|
| `Json.Find` | src/main.cpp:99-100 | a key is found iff some member has that name, and the value returned belongs to the first such member |
| `Json.Get` | src/main.cpp:105-109 | a value that is not an object contains no key |
| `CNumbers.ClampLong` | src/main.cpp:96 | strtol's out-of-range result is LONG_MIN or LONG_MAX, and an in-range value is kept |
| `CNumbers.StrToL` | src/main.cpp:96 | strtol with base 10 always returns a value in the `long` range of the platform |
| `CNumbers.ToInt32` | src/main.cpp:133 | converting a long to int keeps the value modulo 2^32, lands in the int range, and leaves values that fit unchanged |
| `CNumbers.NumeralRoundTrip` | src/main.cpp:96 | white space, an optional sign, a decimal numeral and a tail that does not start with a digit parse back to the signed numeral, clamped to long |
| `CNumbers.SignedDigits` | src/main.cpp:96 | a sign followed by a maximal digit run parses to the run's value with that sign; leading zeros count as digits |
| `CNumbers.LeadingSpaces` | src/main.cpp:96 | leading white space does not change what strtol reads |
| `CNumbers.NoDigitsReadsZero` | src/main.cpp:96 | a key with no digit after its white space and optional sign ("abc", "-", "+x", " -abc") parses to 0 |
| `CNumbers.DecimalValue` | src/main.cpp:96 | strtol's digit loop reads the canonical numeral of n back as n |
| `Options.TruncToInt` | src/main.cpp:102 | a group number is truncated toward zero |
| `Options.CollectGroups` | src/main.cpp:99-104 | the groups collected are exactly the truncated numeric elements of the array; other elements are ignored |
| `Options.ReadToggles` | src/main.cpp:105-114 | toggle position i is on iff `toggles` maps key i to the boolean true; otherwise it stays false |
| `Options.NumericPrefix` | src/main.cpp:118-119 | the scale loop reads exactly the elements before the first non-number |
| `Options.ReadScale` | src/main.cpp:115-131 | the scale loop, with its counter and both early exits, gives `ScaleOf` of the array |
| `Options.ScaleExamples` | src/main.cpp:115-131 | [2] gives (2,2), [2,3] gives (2,3), [2,"x"] gives (2,1), ["x",3] gives (1,1), [2,3,4] gives (2,4), [] gives (1,1) |
| `Options.ScaleIgnoresTail` | src/main.cpp:119 | after the first non-numeric element, nothing in the array affects the scale |
| `Options.ParseEntry` | src/main.cpp:98-131 | an entry is read into the options `EntryOptions` describes, starting from the defaults of lines 6-14 |
| `Options.EntryWithoutFieldsIsDefault` | src/main.cpp:6-14 | an entry with no recognised field, or one that is not an object, gets all-default options |
| `Options.EntryFieldKinds` | src/main.cpp:99-115 | a missing or non-array `groups` leaves no groups, a missing `toggles` leaves all false, and a missing or non-array `scale` leaves (1,1) |
| `Table.ObjectIdAsWritten` | src/main.cpp:96-133 | as written, a key is skipped exactly when its strtol value is 0, and an admitted key is stored as that value narrowed to an int (congruent modulo 2^32) |
| `Table.ObjectId` | src/main.cpp:96-133 | corrected filter: a key is skipped exactly when its strtol value is 0 modulo 2^32, and an admitted ID is a nonzero int congruent to that value |
| `Table.AsWrittenStoresKeyZero` | src/main.cpp:96-97 | with a 64-bit long, the key "4294967296" passes the zero test as written and is stored as ID 0; the corrected filter skips it |
| `Table.ObjectIdAgrees` | src/main.cpp:96-97 | the corrected filter admits the same IDs as the code whenever strtol's value fits in an int, so always with a 32-bit long |
| `Table.RejectedKeys` | src/main.cpp:96-97 | "abc", "", "0" and "-0" are skipped |
| `Table.AdmittedNumeral` | src/main.cpp:96-97 | for n up to INT_MAX, a numeral n with optional white space, sign and tail is admitted as its signed value unless it is 0 |
| `Table.KeyWithTail` | src/main.cpp:96 | "12abc" is admitted as 12 |
| `Table.KeyWithSpace` | src/main.cpp:96 | " 12" is admitted as 12 |
| `Table.NegativeKey` | src/main.cpp:96 | "-7" is admitted as -7 |
| `Table.PlainKey` | src/main.cpp:96 | "12" is admitted as 12 |
| `Table.KeyWithLeadingZero` | src/main.cpp:96 | "012" is admitted as 12 |
| `Table.InsertEntry` | src/main.cpp:96-133 | one loop step keeps every key already present and adds at most one |
| `Table.InsertEntryAsWritten` | src/main.cpp:96-133 | the same loop step with the as-written key filter keeps every key and adds at most one |
| `Table.InsertAll` | src/main.cpp:95-134 | the loop keeps every key already present and adds at most one entry per member |
| `Table.BuildTable` | src/main.cpp:95-134 | a built table's keys are exactly the IDs some member admits to, and there are at most as many as members |
| `Table.InsertEntryKeys` | src/main.cpp:96-98 | one loop step adds the key the member admits to, if any, and no other |
| `Table.InsertEntryKeeps` | src/main.cpp:133 | one loop step never replaces an existing entry |
| `Table.InsertEntryNew` | src/main.cpp:133 | a step whose ID is new stores the member's options under it |
| `Table.InsertAllKeys` | src/main.cpp:95-134 | the table's keys are the old keys plus the admitted IDs of all members |
| `Table.InsertAllKeeps` | src/main.cpp:133 | an entry that is already present survives the whole loop unchanged |
| `Table.InsertAllFirstWins` | src/main.cpp:95-134 | a new ID holds the options of the first member admitted to it, even when that member has no recognised fields |
| `Table.InsertAllNoZero` | src/main.cpp:96-97 | the loop never introduces key 0 |
| `Table.AsWrittenTableHoldsZero` | src/main.cpp:96-133 | with a 64-bit long, the as-written step turns the single key "4294967296" into an entry 0, while the corrected step adds nothing |
| `Table.BuildTableNoZero` | src/main.cpp:95-134 | a table built from any configuration has no entry 0 |
| `Table.CollidingKeysKeepFirst` | src/main.cpp:133 | "12" followed by "012" leaves only the options of "12" |
| `GameObjects.AppliedEffect` | src/main.cpp:56-70 | applying options adds their groups, sets the six flags to the toggles by position, gives both scale copies the configured values, and keeps the object's kind |
| `GameObjects.AppliedIdempotent` | src/main.cpp:56-70 | applying the same options twice is the same as applying them once |
| `GameObjects.AppliedTwice` | src/main.cpp:50-51 | applying a and then b unions both sets of groups and takes flags and scale from b |
| `GameObjects.AppliedOverwrites` | src/main.cpp:59-69 | the result of applying options does not depend on the object's earlier flags or scale |
| `GameObjects.GameObject.AddToGroup` | src/main.cpp:57 | joining a group adds it to the object's group set and changes nothing else |
| `GameObjects.GameObject.SetScaleX` | src/main.cpp:66 | the X setter writes the node scale only |
| `GameObjects.GameObject.SetScaleY` | src/main.cpp:68 | the Y setter writes the node scale only |
| `EditorHook.Message` | src/main.cpp:77-84 | each hard failure shows its own notification text |
| `EditorHook.LoadTable` | src/main.cpp:72-134 | a missing file and a parse failure are errors; a non-object document gives an empty table without error; an object gives exactly the admitted IDs of its keys and never ID 0 |
| `EditorHook.LoadIntoEmpty` | src/main.cpp:72-88 | the session's table after loading is `LoadTable`'s table, or stays empty on failure, and the failure reported is `LoadTable`'s error |
| `EditorHook.PatchedBasic` | src/main.cpp:43-48 | without advanced mode, or with an empty table, only the three session flags change |
| `EditorHook.PatchedOverride` | src/main.cpp:50-51 | with entries for 0 and for the type, the type's entry decides flags and scale, and the groups of both are added |
| `EditorHook.PatchedTypeOnly` | src/main.cpp:51 | with only the type's entry present, the object gets the session flags and then that entry |
| `EditorHook.PatchedFromConfig` | src/main.cpp:50 | with a table built from the configuration, entry 0 is never applied, and an object of type 0 only gets the session flags |
| `EditorHook.FailedLoadOnlySessionFlags` | src/main.cpp:76-88 | a missing, unparsable or non-object configuration leaves every object with only the session flags |
| `EditorHook.PatchedIdempotent` | src/main.cpp:36-54 | patching an object a second time changes nothing |
| `EditorHook.Editor.constructor` | src/main.cpp:19-26 | a session caches the four settings and starts with an empty table |
| `EditorHook.Editor.Init` | src/main.cpp:28-34 | opening a level fails iff the host's init fails; otherwise the table is loaded exactly in advanced mode |
| `EditorHook.Editor.ParseDefaultObjectOptions` | src/main.cpp:72-134 | the loop over the document's members leaves the table equal to `InsertAll` of the old table, and reports the failure the file gives |
| `EditorHook.Editor.CreateObject` | src/main.cpp:36-54 | a null object is returned untouched; otherwise the object is returned, patched exactly as `Patched` says |
| `EditorHook.Editor.UpdateObjectWithObjectOptions` | src/main.cpp:56-70 | joining each group, then writing the six flags and both copies of each scale axis, leaves the object equal to `Applied` of its old state |

## Left out

- The framework hook (`$modify`) and the host's own `LevelEditorLayer::init`
  and `createObject` are not modelled. Their results enter the model as
  parameters: `baseInitOk`, and the possibly-null object passed to
  `CreateObject`.
- Reading the settings through the mod API is not modelled. The four
  persisted settings enter the session's constructor as a `Settings` value.
- Finding the config directory, the file-exists test, reading the file and
  the JSON library's parser are not modelled. They are reduced to a
  `ConfigFile` value: missing, unparsable, or a parsed `Json` document.
- When a JSON object repeats a key, `Get` takes the first occurrence. How the
  JSON library treats such keys is not part of this model.
- The notification UI is not modelled. Each hard failure is returned as a
  `LoadError`, and `Message` gives its text.
- Floating point is not modelled:
  - Numbers are exact reals, and scale values are copied without the
    double-to-float narrowing.
  - A group number is truncated toward zero. A number outside the range of
    `int`, whose conversion C++ leaves undefined, is not modelled.
- Rendering side effects of `setScaleX`/`setScaleY` are not modelled. Each
  setter is one field write.
- The host's `addToGroup` is modelled as adding to a set. Any limits the host
  places on group membership belong to host code, which is not part of this
  model.
- The iteration order of `options.groups` is not modelled. The loop in
  `UpdateObjectWithObjectOptions` takes the groups in an arbitrary order,
  and every order gives the same result.
- Where `long` is 64 bits, the code tests for zero before narrowing the key
  to `int`. The model tests after narrowing (see Findings). With a 32-bit
  `long`, the two agree (`Table.ObjectIdAgrees`).

## Findings

| source | as written | input that shows it | evidently intended | confidence | as-written member | corrected member |
|---|---|---|---|---|---|---|
| src/main.cpp:96-97,133 | The zero test runs on strtol's `long`, and the key is then narrowed to `int` when inserted | Key "4294967296" on a 64-bit-`long` platform: strtol gives 2^32, which is nonzero and passes the test, and narrows to 0, so an entry 0 is inserted | Entry 0 can never come from the configuration | not executed | `Table.AsWrittenTableHoldsZero` | `Table.BuildTableNoZero` |
