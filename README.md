# Scripted connector: dispatch and result translation

This project models the dispatch-and-translate layer of a script-backed identity
connector (`AbstractScriptedConnector`). The connector keeps one compiled script
per operation. It builds an argument map for the script and runs it. It then
turns the script's loosely typed answer into the framework's objects: a uid, a
stream of connector objects with a paging cookie, or a stream of sync deltas.

The model is split into modules that follow the parts of the class:

- `Dynamic` holds the untyped values scripts exchange (`null`, strings,
  numbers, booleans, lists, maps with ordered entries). It also holds the Java
  exceptions the code raises or lets through, `Map.get`, ASCII
  `equalsIgnoreCase` and `toString`.
- `Placeholders` models `resolveVariables`. It collects `${name}` tokens that
  are not escaped by an odd run of backslashes. It then replaces every literal
  occurrence of each collected name that has a property value. The two loops
  are methods proved against `Names` and `Substitute`.
- `Framework` holds the framework's value types (attribute, connector object,
  uid, search result, sync delta) and the script handle. It also holds the
  `Host`: the script engine, the readable files, the system properties, the
  compiler, the attribute-type check and the operational attribute names.
- `Arguments` models the attribute maps that `create` and the update family
  pass to their scripts (both are loops over the attribute set), and the choice
  of the `id` argument of `create`.
- `SearchResults` models `processResults` as a loop proved against the row fold
  `ScanRows` / `Translate`.
- `SyncDeltas` models `processDeltas` as a loop with an early `break`, proved
  against the row fold `SyncRows`.
- `Dispatch` holds one pure function per operation, giving its result once the
  script slot is known. Each function fixes the order of the precondition
  checks, the arguments passed to the script and the wrapping of failures.
- `Connector` holds the class `ScriptedConnector` with its configuration and
  nine `Option<Executor>` slots. `Init` fills the slots. Each operation first
  reloads its slot when `reloadScriptOnExecution` is set. Every operation is
  proved equal to its `Dispatch` function applied to the slot after reloading.

Exceptions are values: an operation returns `Err(e)` where the Java code throws
`e`. A streaming operation returns what its handler received together with the
exception that ended it. `ConnectorException` is `Connector(message, cause)`.

Some behaviours of the Java code are easy to miss. The model keeps each of
them:

- A delete delta also carries a connector object holding the uid, the name
  and the object class (`RowDelta`).
- `processResults` ignores the handler's boolean answer. It delivers every
  object row up to the first row that fails.
- Every single-entry row is skipped as an object row, whether or not its key
  is the paging-cookie key.
- Each operation reloads its script before it checks its arguments.
- The update family and `delete` refuse only a null uid or a uid with a null
  value.
- A sync row is skipped when its uid is null or empty. A previous uid is used
  only when it is non-empty.

## Model

Source paths are relative to the repository root. `ASC` stands for
`scripted/src/main/java/net/tirasa/connid/commons/scripted/AbstractScriptedConnector.java`
in the prose; the table spells the path out.

| member | source | states |
|---|---|---|
| Dynamic.Get | scripted/src/main/java/net/tirasa/connid/commons/scripted/AbstractScriptedConnector.java:707-747 | a non-null lookup result is the value of an entry with that key; a key no entry has gives null |
| Dynamic.GetFirst | scripted/src/main/java/net/tirasa/connid/commons/scripted/AbstractScriptedConnector.java:707-747 | when several entries carry the key, the lookup gives the value of the first of them |
| Placeholders.WordEnd | scripted/src/main/java/net/tirasa/connid/commons/scripted/AbstractScriptedConnector.java:84 | `\w*` matches the longest run of word characters: every character before the end is a word character and the next one is not |
| Placeholders.CollectNames | scripted/src/main/java/net/tirasa/connid/commons/scripted/AbstractScriptedConnector.java:87-99 | the set built by the matcher loop is exactly `Names(input)`: the names of the pattern's matches preceded by an even number of backslashes |
| Placeholders.BackslashRun | scripted/src/main/java/net/tirasa/connid/commons/scripted/AbstractScriptedConnector.java:90-93 | the inner counting loop counts exactly the run of backslashes immediately before the match |
| Placeholders.NamesBeforeToken | scripted/src/main/java/net/tirasa/connid/commons/scripted/AbstractScriptedConnector.java:89-98 | no match starts inside a match, so resuming after the closing brace loses no name; a match adds its name exactly when it is not escaped |
| Placeholders.NamesBeforeStep | scripted/src/main/java/net/tirasa/connid/commons/scripted/AbstractScriptedConnector.java:89 | a position where no match starts adds no name |
| Placeholders.EscapeToggles | scripted/src/main/java/net/tirasa/connid/commons/scripted/AbstractScriptedConnector.java:90-98 | one more backslash before a placeholder flips whether it is collected (odd count skipped, even count collected), and the name stays the same |
| Placeholders.TokenShift | scripted/src/main/java/net/tirasa/connid/commons/scripted/AbstractScriptedConnector.java:84 | whether a match starts at a position, and its name, depend only on the text from that position on |
| Placeholders.WordEndShift | scripted/src/main/java/net/tirasa/connid/commons/scripted/AbstractScriptedConnector.java:84 | the end of a word run does not depend on the text before it |
| Placeholders.BackslashesPrefix | scripted/src/main/java/net/tirasa/connid/commons/scripted/AbstractScriptedConnector.java:91 | the backslash count before a position depends only on the text before it |
| Placeholders.EscapedAloneIgnored | scripted/src/main/java/net/tirasa/connid/commons/scripted/AbstractScriptedConnector.java:94-96 | `\${x}` alone collects no name |
| Placeholders.EscapedCopyNames | scripted/src/main/java/net/tirasa/connid/commons/scripted/AbstractScriptedConnector.java:89-98 | in `\${x}/${x}` only the unescaped copy is collected, giving the single name `x` |
| Placeholders.EscapedCopyReplaced | scripted/src/main/java/net/tirasa/connid/commons/scripted/AbstractScriptedConnector.java:98-106 | in `\${x}/${x}` the name `x` is collected once, and with `x = v` both copies are replaced, giving `\v/v` |
| Placeholders.ReplaceExample | scripted/src/main/java/net/tirasa/connid/commons/scripted/AbstractScriptedConnector.java:105 | `String.replace` rewrites the escaped copy of `${x}` as well as the plain one |
| Placeholders.ResolveVariables | scripted/src/main/java/net/tirasa/connid/commons/scripted/AbstractScriptedConnector.java:86-109 | the result is the substitution of the collected names in some order that lists each collected name once (the hash set's order); when no collected name has a property value the input comes back unchanged |
| Placeholders.SubstituteUntouched | scripted/src/main/java/net/tirasa/connid/commons/scripted/AbstractScriptedConnector.java:102-107 | names without a property value are skipped, so a substitution with no defined name changes nothing |
| Placeholders.SubstituteNoPlaceholder | scripted/src/main/java/net/tirasa/connid/commons/scripted/AbstractScriptedConnector.java:102-107 | a text holding no placeholder of the listed names is unchanged whatever the property values |
| Placeholders.ReplaceAbsent | scripted/src/main/java/net/tirasa/connid/commons/scripted/AbstractScriptedConnector.java:105 | replacing a target that does not occur returns the text unchanged |
| Placeholders.ReplaceIsJoin | scripted/src/main/java/net/tirasa/connid/commons/scripted/AbstractScriptedConnector.java:105 | `String.replace` equals splitting at the occurrences and joining the parts with the replacement |
| Placeholders.SplitJoin | scripted/src/main/java/net/tirasa/connid/commons/scripted/AbstractScriptedConnector.java:105 | joining the parts with the target again gives the original text, so the split loses nothing |
| Placeholders.SplitPartsFree | scripted/src/main/java/net/tirasa/connid/commons/scripted/AbstractScriptedConnector.java:105 | no part contains the target, so every literal occurrence is replaced |
| Placeholders.JoinPrefix | scripted/src/main/java/net/tirasa/connid/commons/scripted/AbstractScriptedConnector.java:105 | a join starts with its first part |
| Placeholders.JoinHead | scripted/src/main/java/net/tirasa/connid/commons/scripted/AbstractScriptedConnector.java:105 | a character put in front of the first part ends up in front of the join |
| Arguments.AttributeMapKeys | scripted/src/main/java/net/tirasa/connid/commons/scripted/AbstractScriptedConnector.java:236-239 | the keys of the map built with `put` are exactly the attribute names |
| Arguments.AttributeMapValue | scripted/src/main/java/net/tirasa/connid/commons/scripted/AbstractScriptedConnector.java:236-239 | a name maps to the values of the last attribute carrying it |
| Arguments.CreateAttributeMap | scripted/src/main/java/net/tirasa/connid/commons/scripted/AbstractScriptedConnector.java:236-241 | the loop builds the name-to-values map of all attributes, then drops `__NAME__` |
| Arguments.CreateAttributesExceptName | scripted/src/main/java/net/tirasa/connid/commons/scripted/AbstractScriptedConnector.java:236-242 | the `attributes` argument of `create` holds every input attribute name except `__NAME__`, each with its values |
| Arguments.KeptAttributesMembers | scripted/src/main/java/net/tirasa/connid/commons/scripted/AbstractScriptedConnector.java:294-302 | an attribute survives the update filter exactly when it is not operational or the method equals `UPDATE` ignoring case |
| Arguments.KeptStep | scripted/src/main/java/net/tirasa/connid/commons/scripted/AbstractScriptedConnector.java:295-301 | one step of the update loop puts the attribute exactly when it is kept |
| Arguments.UpdateAttributeMap | scripted/src/main/java/net/tirasa/connid/commons/scripted/AbstractScriptedConnector.java:293-302 | the loop's map is the name-to-values map of the kept attributes |
| Arguments.UpdateAttributeKeys | scripted/src/main/java/net/tirasa/connid/commons/scripted/AbstractScriptedConnector.java:293-302 | a name reaches an update script if and only if some attribute carries it and it is not operational or the method is `UPDATE` |
| Arguments.Find | scripted/src/main/java/net/tirasa/connid/commons/scripted/AbstractScriptedConnector.java:232-233 | the result is the first input attribute whose name matches ignoring case: it matches, and no earlier attribute does; none found means none matches |
| Arguments.CreateId | scripted/src/main/java/net/tirasa/connid/commons/scripted/AbstractScriptedConnector.java:232-234 | the only error is a null dereference, raised exactly when the name attribute is missing, or the name is null and the uid attribute is missing; otherwise the `id` is the name value when it is not null, else the uid attribute's value, or null when that value is null |
| SearchResults.ProcessResults | scripted/src/main/java/net/tirasa/connid/commons/scripted/AbstractScriptedConnector.java:643-693 | the objects handed over, the summary and the exception equal `Translate` of the rows: the summary carries the last cookie and `-1`, and only a paged handler receives it, only after every row |
| SearchResults.ScanFailureSticks | scripted/src/main/java/net/tirasa/connid/commons/scripted/AbstractScriptedConnector.java:646-670 | once a row fails, the rows after it change nothing |
| SearchResults.BuildFailureSticks | scripted/src/main/java/net/tirasa/connid/commons/scripted/AbstractScriptedConnector.java:657-670 | once an entry fails, the entries after it change nothing |
| SearchResults.BuildFailsOnNullIdentity | scripted/src/main/java/net/tirasa/connid/commons/scripted/AbstractScriptedConnector.java:661-670 | a multi-entry row fails exactly when it has a `__UID__` or `__NAME__` entry (any case) whose value is null |
| SearchResults.BuildObject | scripted/src/main/java/net/tirasa/connid/commons/scripted/AbstractScriptedConnector.java:656-680 | the entry loop of one object row computes `BuildRow`, including the failure on a null uid or name |
| SearchResults.BuildRowKeys | scripted/src/main/java/net/tirasa/connid/commons/scripted/AbstractScriptedConnector.java:657-680 | the object's attributes are exactly the row's keys other than uid, name and `password` (any case) |
| SearchResults.BuildRowValue | scripted/src/main/java/net/tirasa/connid/commons/scripted/AbstractScriptedConnector.java:673-679 | an attribute holds the value of the last entry with its key: a list as it is, a scalar as one value, null as no value |
| SearchResults.CookieFromLastCookieRow | scripted/src/main/java/net/tirasa/connid/commons/scripted/AbstractScriptedConnector.java:645-655 | the cookie is the rendered value of the last cookie row, wherever it stands; earlier cookie rows are overwritten |
| SearchResults.NoCookieRowNoCookie | scripted/src/main/java/net/tirasa/connid/commons/scripted/AbstractScriptedConnector.java:645-655 | without a single-entry row whose key is the cookie key and whose value is not null, the cookie stays null |
| SearchResults.ScanNoFailureBefore | scripted/src/main/java/net/tirasa/connid/commons/scripted/AbstractScriptedConnector.java:646 | a run without failure had no failure on any prefix |
| SearchResults.ObjectRows | scripted/src/main/java/net/tirasa/connid/commons/scripted/AbstractScriptedConnector.java:648-655 | the rows kept for objects are input rows that are maps with other than one entry |
| SearchResults.ObjectsFromObjectRows | scripted/src/main/java/net/tirasa/connid/commons/scripted/AbstractScriptedConnector.java:646-684 | every multi-entry row, and nothing else, is delivered as one object, in row order, with the search's object class; single-entry rows never become objects |
| SyncDeltas.CastString | scripted/src/main/java/net/tirasa/connid/commons/scripted/AbstractScriptedConnector.java:707 | the `(String)` cast passes strings and null and fails on anything else |
| SyncDeltas.DeltaKind | scripted/src/main/java/net/tirasa/connid/commons/scripted/AbstractScriptedConnector.java:726-732 | the delta is a delete exactly when the operation is `DELETE` ignoring case; a missing operation gives create-or-update |
| SyncDeltas.TokenOf | scripted/src/main/java/net/tirasa/connid/commons/scripted/AbstractScriptedConnector.java:710-716 | the token is never null: a missing token becomes `0`, any other token is kept |
| SyncDeltas.PasswordAttributes | scripted/src/main/java/net/tirasa/connid/commons/scripted/AbstractScriptedConnector.java:741-744 | a string password becomes the current-password attribute, a null one adds nothing, anything else fails the cast |
| SyncDeltas.AddAllKeys | scripted/src/main/java/net/tirasa/connid/commons/scripted/AbstractScriptedConnector.java:747-757 | the attribute names after the loop are the ones before it plus the `attributes` keys |
| SyncDeltas.AddAllValue | scripted/src/main/java/net/tirasa/connid/commons/scripted/AbstractScriptedConnector.java:750-756 | an entry not overwritten later gets its list as it is, a scalar as one value, or null as no value |
| SyncDeltas.AddAllKeeps | scripted/src/main/java/net/tirasa/connid/commons/scripted/AbstractScriptedConnector.java:741-757 | the current password stays unless an `attributes` key of the same name overwrites it |
| SyncDeltas.AddAttributes | scripted/src/main/java/net/tirasa/connid/commons/scripted/AbstractScriptedConnector.java:747-757 | the attributes loop computes `AddAll` |
| SyncDeltas.UpdateDeltaShape | scripted/src/main/java/net/tirasa/connid/commons/scripted/AbstractScriptedConnector.java:730-757 | an update delta keeps the row's uid, token and object class; it has a previous uid exactly when the row's is non-empty; its attribute names are the current password (when a password is given) plus the `attributes` keys |
| SyncDeltas.RowDeltaShape | scripted/src/main/java/net/tirasa/connid/commons/scripted/AbstractScriptedConnector.java:706-759 | a row is skipped exactly when its uid is null or empty; a delta carries the row's uid as its uid and as its object's uid and name, the object class and the defaulted token; it is a delete exactly for a `DELETE` operation, and then has no previous uid and no attributes; otherwise it is the row's update delta |
| SyncDeltas.BuildDelta | scripted/src/main/java/net/tirasa/connid/commons/scripted/AbstractScriptedConnector.java:706-733 | the per-row code computes `RowDelta`, including its failures (not a map, a field of the wrong type) |
| SyncDeltas.BuildUpdate | scripted/src/main/java/net/tirasa/connid/commons/scripted/AbstractScriptedConnector.java:734-757 | the update part of the per-row code computes `UpdateDelta`, including a missing or non-map `attributes` |
| SyncDeltas.ProcessDeltas | scripted/src/main/java/net/tirasa/connid/commons/scripted/AbstractScriptedConnector.java:696-768 | the deltas handed over and the exception equal the fold `SyncRows`, which stops right after the first refused delta |
| SyncDeltas.EndedSticks | scripted/src/main/java/net/tirasa/connid/commons/scripted/AbstractScriptedConnector.java:760-763 | after a refusal or a failure the remaining translated rows change nothing |
| SyncDeltas.DeltasFromResults | scripted/src/main/java/net/tirasa/connid/commons/scripted/AbstractScriptedConnector.java:698-763 | every delivered delta is the translation of some row |
| SyncDeltas.RowsAfterEndIgnored | scripted/src/main/java/net/tirasa/connid/commons/scripted/AbstractScriptedConnector.java:760-763 | rows appended after the run has ended are never looked at |
| SyncDeltas.StopsAtFirstRefusal | scripted/src/main/java/net/tirasa/connid/commons/scripted/AbstractScriptedConnector.java:760-763 | for any translated rows, every delta but the last was accepted, and the run stopped exactly when the last delivered delta was refused |
| SyncDeltas.DeltasFromRows | scripted/src/main/java/net/tirasa/connid/commons/scripted/AbstractScriptedConnector.java:707-722 | every delivered delta comes from an input row, has a non-empty uid used as its object's uid and name, the sync's object class and a non-null token |
| SyncDeltas.DeliversProduced | scripted/src/main/java/net/tirasa/connid/commons/scripted/AbstractScriptedConnector.java:698-767 | the deltas handed over are always a prefix of the deltas the rows translate to; when the run neither fails nor is stopped, no row failed and every delta was handed over, in row order |
| SyncDeltas.DeliversEveryRow | scripted/src/main/java/net/tirasa/connid/commons/scripted/AbstractScriptedConnector.java:698-767 | converse of `DeltasFromRows`: when the run neither fails nor is stopped, no row failed and the handler received the delta of every non-skipped row, in row order |
| SyncDeltas.ProducedMembers | scripted/src/main/java/net/tirasa/connid/commons/scripted/AbstractScriptedConnector.java:698-767 | a delta is among the translated deltas exactly when some row translates to it |
| SyncDeltas.DeleteRowDelta | scripted/src/main/java/net/tirasa/connid/commons/scripted/AbstractScriptedConnector.java:710-729 | a delete row without a token gives a delete delta with token `0` and an object holding only uid, name and object class |
| SyncDeltas.RenameRowUpdate | scripted/src/main/java/net/tirasa/connid/commons/scripted/AbstractScriptedConnector.java:734-757 | the update part of the rename row gives previous uid `1` and the attribute `cn` |
| SyncDeltas.RenameRowDelta | scripted/src/main/java/net/tirasa/connid/commons/scripted/AbstractScriptedConnector.java:730-757 | a rename row gives a create-or-update delta with the previous uid and the wrapped attribute |
| SyncDeltas.DeleteSkipRenameRows | scripted/src/main/java/net/tirasa/connid/commons/scripted/AbstractScriptedConnector.java:698-767 | a delete row, an empty-uid row and a rename row give exactly a delete delta then a create-or-update delta |
| SyncDeltas.RefusedFirstDeltaEndsRun | scripted/src/main/java/net/tirasa/connid/commons/scripted/AbstractScriptedConnector.java:760-763 | a handler refusing the first delta ends the run after it, whatever rows follow |
| Dispatch.CreateOutcome | scripted/src/main/java/net/tirasa/connid/commons/scripted/AbstractScriptedConnector.java:215-257 | no script: unsupported; then null object class, then null or empty attributes, in that order; a failed `id` choice is raised as it is; success exactly when the script returns a string for the built arguments, and the uid is that string; a script exception `e` gives "Create script error" with cause `e`; any other result gives "Create script error" wrapping the "didn't return" error |
| Dispatch.UpdateOutcome | scripted/src/main/java/net/tirasa/connid/commons/scripted/AbstractScriptedConnector.java:270-317 | no script: unsupported; then object class, attribute set and uid checks in that order; success exactly when the script returns a string, and the uid is that string; a script exception `e` gives "Update(<method>) script error" with cause `e`; any other result raises the unwrapped "didn't return" error with no cause |
| Dispatch.DeleteOutcome | scripted/src/main/java/net/tirasa/connid/commons/scripted/AbstractScriptedConnector.java:360-387 | no script: unsupported; then object class and uid checks; success exactly when the script does not raise; a script exception `e` gives "Delete script error" with cause `e` |
| Dispatch.Rows | scripted/src/main/java/net/tirasa/connid/commons/scripted/AbstractScriptedConnector.java:534-536 | only a list is taken as rows; null and anything else fail |
| Dispatch.QueryOutcome | scripted/src/main/java/net/tirasa/connid/commons/scripted/AbstractScriptedConnector.java:516-542 | no script: unsupported; then object class and handler checks; a script exception, or a result that is not a list, is wrapped as "Search script error" and nothing is delivered; for a list the handler receives exactly the objects of `ScanRows`, up to a failing row, whose failure is wrapped the same way; without a failure the result is `Translate` of the rows, and with one no summary is sent |
| Dispatch.SyncOutcome | scripted/src/main/java/net/tirasa/connid/commons/scripted/AbstractScriptedConnector.java:556-582 | no script: unsupported; then object class and handler checks; a script exception, or a result that is not a list, is wrapped as "Sync script error" and nothing is delivered; for a list the handler receives exactly the deltas of `SyncRows`, which stops at a refusal or a failing row, and that row's failure is wrapped the same way |
| Dispatch.LatestTokenOutcome | scripted/src/main/java/net/tirasa/connid/commons/scripted/AbstractScriptedConnector.java:591-618 | the token is returned exactly when the script returns a non-null value of a supported type, and it is that value; an unsupported type or an `IllegalArgumentException` gives "Unknown Token type"; a null result or any other exception gives the generic error, each wrapping the exception |
| Dispatch.TestOutcome | scripted/src/main/java/net/tirasa/connid/commons/scripted/AbstractScriptedConnector.java:629-640 | without a script `test` does nothing; with one it succeeds exactly when the script does not raise, and a script exception `e` gives "Test script error" with cause `e` |
| Dispatch.NoScriptRefusesBeforeChecks | scripted/src/main/java/net/tirasa/connid/commons/scripted/AbstractScriptedConnector.java:215-640 | with an empty slot every operation but `test` raises `UnsupportedOperationException` whatever its arguments, and `test` succeeds |
| Dispatch.NonStringUidWrappedOnlyByCreate | scripted/src/main/java/net/tirasa/connid/commons/scripted/AbstractScriptedConnector.java:244-314 | a non-string result, null included, is re-wrapped as "Create script error" in `create` but raised unwrapped in the update family |
| Dispatch.UpdateFamilyAttributes | scripted/src/main/java/net/tirasa/connid/commons/scripted/AbstractScriptedConnector.java:293-347 | `ADD_ATTRIBUTE_VALUES` and `REMOVE_ATTRIBUTE_VALUES` never pass an operational attribute; `UPDATE` passes every attribute name |
| Connector.LoadCases | scripted/src/main/java/net/tirasa/connid/commons/scripted/AbstractScriptedConnector.java:145-160 | an unreadable file is "Script error"; a null inline source is a null dereference; no executor exactly when the source is empty; a non-empty source (the file's text when there is a file name, else the inline text) gives its compiled executor when it compiles, and otherwise the compiler's failure, unwrapped |
| Connector.FileWinsOverInline | scripted/src/main/java/net/tirasa/connid/commons/scripted/AbstractScriptedConnector.java:150-152 | with a file name the inline source does not matter |
| Connector.SchemaNeedsFile | scripted/src/main/java/net/tirasa/connid/commons/scripted/AbstractScriptedConnector.java:194 | without a schema file name the schema slot is always empty |
| Connector.PlainFileNameReadAsIs | scripted/src/main/java/net/tirasa/connid/commons/scripted/AbstractScriptedConnector.java:151 | a file name with no defined placeholder is read as it is |
| Connector.ScriptedConnector.constructor | scripted/src/main/java/net/tirasa/connid/commons/scripted/AbstractScriptedConnector.java:111-133 | before `init` there is no configuration and all nine slots are empty |
| Connector.ScriptedConnector.GetScriptExecutor | scripted/src/main/java/net/tirasa/connid/commons/scripted/AbstractScriptedConnector.java:145-160 | the result is `Load` of the source at a path that is a resolution of the file name |
| Connector.ScriptedConnector.LoadSlot | scripted/src/main/java/net/tirasa/connid/commons/scripted/AbstractScriptedConnector.java:171 | some resolution of the file name loads the result |
| Connector.ScriptedConnector.LoadFirstSlots | scripted/src/main/java/net/tirasa/connid/commons/scripted/AbstractScriptedConnector.java:171-185 | on success the create, update, delete, search and authenticate slots each hold what their source loads; on a failure, the slots before the failing load hold their fresh loads and the failing slot and those after it are unchanged |
| Connector.ScriptedConnector.LoadLastSlots | scripted/src/main/java/net/tirasa/connid/commons/scripted/AbstractScriptedConnector.java:187-198 | on success the resolve-username, sync, schema and test slots each hold what their source loads; on a failure, the slots before the failing load hold their fresh loads and the failing slot and those after it are unchanged |
| Connector.ScriptedConnector.Init | scripted/src/main/java/net/tirasa/connid/commons/scripted/AbstractScriptedConnector.java:164-201 | the configuration is kept; on success each of the nine slots holds what its source loads (schema with empty inline source); on a failure, the slots before the failing load hold their fresh loads and the failing slot and all later slots keep their old values |
| Connector.ScriptedConnector.Reload | scripted/src/main/java/net/tirasa/connid/commons/scripted/AbstractScriptedConnector.java:211-214 | with reloading off the slot is kept; with it on the slot becomes a fresh load, or is kept when loading fails and the failure is returned |
| Connector.ScriptedConnector.Create | scripted/src/main/java/net/tirasa/connid/commons/scripted/AbstractScriptedConnector.java:206-258 | reloads the create slot, then returns `CreateOutcome` of the slot; before `init` it is a null dereference |
| Connector.ScriptedConnector.GenericUpdate | scripted/src/main/java/net/tirasa/connid/commons/scripted/AbstractScriptedConnector.java:260-318 | reloads the update slot, then returns `UpdateOutcome` for the method |
| Connector.ScriptedConnector.Update | scripted/src/main/java/net/tirasa/connid/commons/scripted/AbstractScriptedConnector.java:320-328 | `genericUpdate` with method `UPDATE` |
| Connector.ScriptedConnector.AddAttributeValues | scripted/src/main/java/net/tirasa/connid/commons/scripted/AbstractScriptedConnector.java:330-338 | `genericUpdate` with method `ADD_ATTRIBUTE_VALUES` |
| Connector.ScriptedConnector.RemoveAttributeValues | scripted/src/main/java/net/tirasa/connid/commons/scripted/AbstractScriptedConnector.java:340-348 | `genericUpdate` with method `REMOVE_ATTRIBUTE_VALUES` |
| Connector.ScriptedConnector.Delete | scripted/src/main/java/net/tirasa/connid/commons/scripted/AbstractScriptedConnector.java:350-388 | reloads the delete slot, then returns `DeleteOutcome` |
| Connector.ScriptedConnector.ExecuteQuery | scripted/src/main/java/net/tirasa/connid/commons/scripted/AbstractScriptedConnector.java:505-543 | reloads the search slot, then what the handler receives is `QueryOutcome` |
| Connector.ScriptedConnector.Sync | scripted/src/main/java/net/tirasa/connid/commons/scripted/AbstractScriptedConnector.java:545-583 | reloads the sync slot, then the deltas and the failure are those of `SyncOutcome` |
| Connector.ScriptedConnector.GetLatestSyncToken | scripted/src/main/java/net/tirasa/connid/commons/scripted/AbstractScriptedConnector.java:585-619 | reloads the sync slot (it has no slot of its own), then returns `LatestTokenOutcome` |
| Connector.ScriptedConnector.Test | scripted/src/main/java/net/tirasa/connid/commons/scripted/AbstractScriptedConnector.java:621-641 | reloads the test slot, then returns `TestOutcome` |

## Left out

- `authenticate`, `resolveUsername` and `schema` are not modelled as operations. `authenticate` reads its password through a `GuardedString` callback. `schema` lets the script fill a foreign `SchemaBuilder`. Their slots are still loaded by `Init`.
- Logging, the localized text behind the message keys, `config.validate()` in `test`, and the `log` and `options` arguments are not modelled. The argument map starts empty, as an abstract `buildArguments` allows. A null `OperationOptions` (a null dereference in the source) is not modelled.
- Script compilation, script execution, file reading and system properties are fields of `Host`. Compilation is a predicate on language and source. Creating the script factory for an unknown language is not modelled.
- Concurrency is not modelled, including races on the slots when reloading is on.
- The framework's own checks inside `ConnectorObjectBuilder.build`, `SyncDeltaBuilder.build` and the `Uid`/`Name` constructors are not modelled. Objects and deltas are plain records. Their attribute names are matched exactly, not the way the framework's attribute map matches them.
- Arguments.CreateId: a `Name` or `Uid` attribute whose first value is not a string counts as null. The framework's `Name` and `Uid` types always hold strings.
- `equalsIgnoreCase` folds ASCII letters only.
- SyncDeltas.UpdateDelta: an `attributes` entry named `__NAME__` or `__UID__` is kept as an ordinary attribute. In the source it goes into the same builder map as the name and uid set from the row's uid. It replaces the name, or meets the framework's uid check. The model always takes the object's name and uid from the row's uid.
- SyncDeltas.UpdateDeltaShape: states that the object's name and uid are the row's uid. Per the `UpdateDelta` line, this does not hold in the source for a row whose `attributes` has a `__NAME__` or `__UID__` entry.
- SyncDeltas.RowDeltaShape: the same holds for its statement that a delta's object has the row's uid as uid and name.
- SyncDeltas.DeltasFromRows: the same holds for its statement that each delivered object's name and uid are the delta's uid.
- A `Dict` value may repeat a key, which a Java map cannot. Scripts hand over Java maps, so repeated keys never arise from them.
- Floating-point values and integer widths are not modelled. The default token is the number `0`, not a 64-bit long.
- The sync password is kept as the plain string value, not as a `GuardedString`.
- Exceptions raised by a result handler are not modelled. The search handler's boolean answer is ignored, as in the source.
- Connector.ScriptedConnector.Sync: it does not return whether the handler asked to stop, because the source does not expose it.
