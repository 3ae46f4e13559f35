# Dirac DevTools front-end: console log, CSS editing helpers, geolocation list, screencast shell

A Dafny model of four parts of the Dirac DevTools front end.

- **The console message log** (`ConsoleModel`). It keeps an ordered list of messages, a map from (runtime model, exception id) to the message that reported the exception, warning/error/violation counters and a page-load sequence number (the epoch). Messages are added, cleared, demoted when their exception is revoked, and forgotten per target. The pure rules of `ConsoleMessage` go with it: constructor defaults, the console-API level and text, the group predicates, the group category key and content equality.
- **The style-sheet editor helpers** (`CSSPlugin`). These are the numeric-unit increment, the backtracking from the cursor to the property name, value suggestions, the swatch scan of changed lines and the flags around editing a swatch.
- **The custom geolocation list** (`GeolocationsSettingsTab`). These are the form validators, plus removing, committing and adding locations.
- **The screencast shell** (`ScreencastApp`). It attaches at most one screen-capture model and keeps the toggle button and the screencast pane consistent with the setting.

Files:

- `wrappers.dfy` holds `Option`.
- `js_string.dfy` holds the JavaScript string and number semantics the code relies on: white space, `trim`, `substring`, `charAt`, `startsWith`, `indexOf`, UTF-16 length, decimal rendering and `parseInt`.
- `console_message.dfy` holds the message datatype and rules.
- `console_model.dfy` holds the log. Its transitions are functions on a `LogState` value with their lemmas, and a `ConsoleModel` class updates its fields as the source does. Each method of the class is proved to produce the state its function describes.
- `css_plugin.dfy`, `geolocations.dfy` and `screencast.dfy` hold the other three parts. Their classes hold the fields the source updates in place.

Foreign parts enter as parameters:

- the runtime model's context lookups and the clock;
- the editor's tokenizer and the regular-expression splitter;
- the colour and bezier parsers and the CSS metadata;
- `Number` and `parseFloat`.

A runtime model or screen-capture model is a natural-number id. The preserve-log setting is a boolean argument.

## Model

| member | source | states |
|---|---|---|
| ConsoleMessages.NewMessage | resources/unpacked/devtools/front_end/sdk/ConsoleModel.js:479-512 | source, level, text, parameters, stack trace and model are kept; each default on its own: a missing type is `log`, a missing line or column 0, a missing or 0 timestamp `now`; an empty url, script id or worker id is dropped and a non-empty one kept; a given non-zero context id is kept, otherwise it is 0 without a runtime model and else looked up by script id, then by stack trace; the context is present iff a non-empty one was given, and is then `PrefixBeforeHash` of it; new messages carry no exception id, epoch or request |
| ConsoleMessages.NewMessageDefaults | resources/unpacked/devtools/front_end/sdk/ConsoleModel.js:486-497 | with the optional arguments omitted: type `log`, line 0, column 0, context id 0, timestamp = now, no url, script id, worker id or context |
| ConsoleMessages.NewMessageContext | resources/unpacked/devtools/front_end/sdk/ConsoleModel.js:509-511 | for a non-empty given context, the message's context is present, is a prefix of it without `#` that ends at its end or at a `#`, is all of it when it has no `#`, and is `''` when it starts with `#` |
| ConsoleMessages.PrefixBeforeHash | resources/unpacked/devtools/front_end/sdk/ConsoleModel.js:510 | result is a prefix without `#` that stops at the end or at a `#` |
| ConsoleMessages.ConsoleApiLevel | resources/unpacked/devtools/front_end/sdk/ConsoleModel.js:227-236 | debug iff verbose; error or assert iff error; warning iff warning; every other type iff info |
| ConsoleMessages.ConsoleApiText | resources/unpacked/devtools/front_end/sdk/ConsoleModel.js:237-244 | no arguments give `''`; a non-empty unserializable value wins; else a non-object value is converted by `ValueToString` (`undefined`, `null`, `true`/`false`, the decimal number, the string itself); else the object's description or `''` |
| ConsoleMessages.ConsoleApiMessage | resources/unpacked/devtools/front_end/sdk/ConsoleModel.js:225-251 | the built message has source console-api, the call's model, type, arguments, the mapped level and the derived text |
| ConsoleMessages.ValueToString | resources/unpacked/devtools/front_end/sdk/ConsoleModel.js:240-241 | definition: `v + ''` for the non-object values: `undefined`, `null`, `true`/`false`, the decimal number, the string itself |
| ConsoleMessages.IsGroupMessage | resources/unpacked/devtools/front_end/sdk/ConsoleModel.js:578-581 | definition: the type is start-group, start-group-collapsed or end-group |
| ConsoleMessages.IsGroupStartMessage | resources/unpacked/devtools/front_end/sdk/ConsoleModel.js:586-588 | definition: the type is start-group or start-group-collapsed |
| ConsoleMessages.IsErrorOrWarning | resources/unpacked/devtools/front_end/sdk/ConsoleModel.js:593-595 | definition: the level is warning or error |
| ConsoleMessages.IsGroupable | resources/unpacked/devtools/front_end/sdk/ConsoleModel.js:600-606 | definition: not console-api, not a command, result or system message, and not an error from JS or the network |
| ConsoleMessages.GroupCategoryKey | resources/unpacked/devtools/front_end/sdk/ConsoleModel.js:611-613 | definition: source, level, type and page-load sequence number joined by `:`; what it means is stated by `GroupCategoryKeyExact` |
| ConsoleMessages.JoinInjective | resources/unpacked/devtools/front_end/sdk/ConsoleModel.js:612 | joining `:`-free parts with `:` is injective |
| ConsoleMessages.GroupCategoryKeyExact | resources/unpacked/devtools/front_end/sdk/ConsoleModel.js:611-613 | two keys are equal iff the messages agree on source, level, type and page-load sequence number |
| ConsoleMessages.GroupCategoryAgrees | resources/unpacked/devtools/front_end/sdk/ConsoleModel.js:578-613 | messages with the same category key agree on `isGroupable`, the group predicates and `isErrorOrWarning` |
| ConsoleMessages.IsEqualStackTraces | resources/unpacked/devtools/front_end/sdk/ConsoleModel.js:658-678 | true iff both traces are absent, or both have frame-wise equal url, function, line and column and equal parent chains |
| ConsoleMessages.IsEqual | resources/unpacked/devtools/front_end/sdk/ConsoleModel.js:619-651 | the loop returns exactly the content-equality predicate: stack traces, the receiver-driven parameter comparison and the header fields |
| ConsoleMessages.IsEqualRejects | resources/unpacked/devtools/front_end/sdk/ConsoleModel.js:619-634 | false for `null`; false when the receiver has parameters and the argument has an object parameter that is not an error |
| ConsoleMessages.IsEqualReflexive | resources/unpacked/devtools/front_end/sdk/ConsoleModel.js:619-651 | a message without live object parameters equals itself |
| ConsoleMessages.IsEqualSymmetric | resources/unpacked/devtools/front_end/sdk/ConsoleModel.js:619-651 | symmetric when both or neither have parameters and neither has live objects |
| ConsoleMessages.IsEqualNotSymmetric | resources/unpacked/devtools/front_end/sdk/ConsoleModel.js:627-629 | a message without parameters equals its copy with an empty list, but not conversely |
| ConsoleLog.AfterClear | resources/unpacked/devtools/front_end/sdk/ConsoleModel.js:357-364 | messages and exception map emptied, all three counters 0, epoch unchanged, one ConsoleCleared event |
| ConsoleLog.AfterClearIfNecessary | resources/unpacked/devtools/front_end/sdk/ConsoleModel.js:265-270 | epoch rises by one; without preserve-log the log is cleared first, with it nothing else changes |
| ConsoleLog.AfterIncrement | resources/unpacked/devtools/front_end/sdk/ConsoleModel.js:325-338 | definition of the counter step; its meaning is stated by `AddMessageCounters` |
| ConsoleLog.AfterAdd | resources/unpacked/devtools/front_end/sdk/ConsoleModel.js:165-191 | definition of `addMessage` on the state: implicit clear for a console-api `clear`, epoch stamp, the sentinel check, then append, registration and counting; its meaning is stated by `AfterAddLog`, `DiracMessageNotStored`, `ClearMessageEffect`, `AddMessageCounters`, `AddMessageRegistration` and `AddKeepsInv` |
| ConsoleLog.AfterConsoleApiCall | resources/unpacked/devtools/front_end/sdk/ConsoleModel.js:225-252 | definition: `AfterAdd` of the message `ConsoleApiMessage` builds from the call |
| ConsoleLog.AfterAddLog | resources/unpacked/devtools/front_end/sdk/ConsoleModel.js:165-191 | the log becomes the old log (empty after an implicit clear) plus the message stamped with the entry epoch, or is left without it for a sentinel message; the epoch rises only for a console-api `clear` |
| ConsoleLog.DiracMessageNotStored | resources/unpacked/devtools/front_end/sdk/ConsoleModel.js:171-177 | a first parameter equal to the sentinel stores nothing: log, map and counters are those after the implicit clear, and a DiracMessage event is sent |
| ConsoleLog.ClearMessageEffect | resources/unpacked/devtools/front_end/sdk/ConsoleModel.js:166-169 | a console-api `clear` leaves exactly [itself] without preserve-log, the old log plus itself with it; it keeps the pre-increment epoch and the epoch rises by one |
| ConsoleLog.AddMessageCounters | resources/unpacked/devtools/front_end/sdk/ConsoleModel.js:325-338 | a violation bumps only `violations`, whatever its level; otherwise warning bumps `warnings`, error bumps `errors`, other or null levels nothing |
| ConsoleLog.AddMessageRegistration | resources/unpacked/devtools/front_end/sdk/ConsoleModel.js:179-188 | only a stored message with a truthy exception id and a runtime model is registered, at the index it was appended at |
| ConsoleLog.AfterRevoke | resources/unpacked/devtools/front_end/sdk/ConsoleModel.js:209-219 | unregistered (model, id): nothing changes; registered: `errors` drops by exactly one, that message alone becomes verbose, map and length unchanged, one MessageUpdated event |
| ConsoleLog.AfterTargetRemoved | resources/unpacked/devtools/front_end/sdk/ConsoleModel.js:113-119 | only the removed model's sub-map is deleted; messages, counters and epoch unchanged |
| ConsoleLog.AddKeepsInv | resources/unpacked/devtools/front_end/sdk/ConsoleModel.js:165-191 | adding keeps every map entry pointing at a logged message with that model and id, keeps the epoch stamps ordered and bounded, and keeps exact counters exact |
| ConsoleLog.ClearKeepsInv | resources/unpacked/devtools/front_end/sdk/ConsoleModel.js:357-364 | the cleared state satisfies the invariant and exact counters |
| ConsoleLog.ClearIfNecessaryKeepsInv | resources/unpacked/devtools/front_end/sdk/ConsoleModel.js:265-270 | the implicit clear keeps the invariant and exact counters |
| ConsoleLog.RevokeKeepsInv | resources/unpacked/devtools/front_end/sdk/ConsoleModel.js:209-219 | revoking keeps the map and epoch invariant |
| ConsoleLog.TargetRemovedKeepsInv | resources/unpacked/devtools/front_end/sdk/ConsoleModel.js:113-119 | removing a target keeps the invariant and exact counters |
| ConsoleLog.RevokeLiveErrorKeepsCounts | resources/unpacked/devtools/front_end/sdk/ConsoleModel.js:209-219 | revoking an exception whose message still counts as an error keeps the counters exact |
| ConsoleLog.RepeatedRevokeUndercounts | resources/unpacked/devtools/front_end/sdk/ConsoleModel.js:209-219 | revoking the same exception twice leaves `errors` one below the number of error messages |
| ConsoleLog.ErrorThenRevoke | resources/unpacked/devtools/front_end/sdk/ConsoleModel.js:165-219 | an error with exception id 1 counts 1; after its revocation the count is 0 and the message stays, at verbose level |
| ConsoleLog.ConsoleModel.constructor | resources/unpacked/devtools/front_end/sdk/ConsoleModel.js:37-50 | empty log, empty map, counters and epoch 0 |
| ConsoleLog.ConsoleModel.InsertMessage | resources/unpacked/devtools/front_end/sdk/ConsoleModel.js:179-189 | appends the message, records its index under its runtime model and exception id when both are set (id not 0), and bumps its counter |
| ConsoleLog.ConsoleModel.AddMessage | resources/unpacked/devtools/front_end/sdk/ConsoleModel.js:165-191 | new fields and events are those of `AfterAdd` on the old fields; the invariant is kept |
| ConsoleLog.ConsoleModel.IncrementErrorWarningCount | resources/unpacked/devtools/front_end/sdk/ConsoleModel.js:325-338 | exactly one counter (or none) is bumped, violation first |
| ConsoleLog.ConsoleModel.ExceptionRevoked | resources/unpacked/devtools/front_end/sdk/ConsoleModel.js:209-219 | new fields and events are those of `AfterRevoke`; the invariant is kept |
| ConsoleLog.ConsoleModel.ConsoleApiCalled | resources/unpacked/devtools/front_end/sdk/ConsoleModel.js:225-252 | adds the message built from the call |
| ConsoleLog.ConsoleModel.ClearIfNecessary | resources/unpacked/devtools/front_end/sdk/ConsoleModel.js:265-270 | new fields and events are those of `AfterClearIfNecessary` |
| ConsoleLog.ConsoleModel.Clear | resources/unpacked/devtools/front_end/sdk/ConsoleModel.js:357-364 | new fields and events are those of `AfterClear` |
| ConsoleLog.ConsoleModel.TargetRemoved | resources/unpacked/devtools/front_end/sdk/ConsoleModel.js:113-119 | new fields are those of `AfterTargetRemoved` |
| JsString.ParseIntCanonical | resources/unpacked/devtools/front_end/sources/CSSPlugin.js:125 | `parseInt` of a canonical decimal followed by a non-digit returns that number and stops after its digits |
| CssEditing.ModifyUnitAsWritten | resources/unpacked/devtools/front_end/sources/CSSPlugin.js:124-131 | the written version is null iff the text has no leading integer |
| CssEditing.ModifyUnit | resources/unpacked/devtools/front_end/sources/CSSPlugin.js:124-131 | the intended version is null iff the text has no leading integer (`parseInt` gives NaN) |
| CssEditing.ModifyUnitCanonical | resources/unpacked/devtools/front_end/sources/CSSPlugin.js:129-130 | for decimal(n) followed by a tail not starting with a digit, the result is decimal(n+change) followed by the same tail |
| CssEditing.ModifyUnitAsWrittenCanonical | resources/unpacked/devtools/front_end/sources/CSSPlugin.js:129-130 | on such canonical input the written version gives the same result |
| CssEditing.ModifyUnitInverse | resources/unpacked/devtools/front_end/sources/CSSPlugin.js:124-131 | changing a canonical unit by c and then by -c gives it back |
| CssEditing.ModifyUnitLeadingZeros | resources/unpacked/devtools/front_end/sources/CSSPlugin.js:129 | `007px` plus one is `807px` as written and `8px` as intended |
| CssEditing.ModifyUnitNegativeZero | resources/unpacked/devtools/front_end/sources/CSSPlugin.js:124-130 | `-0px` plus one is `10px` as written, because `-0` renders as `0`, and `1px` as intended |
| CssEditing.PlanUnitModification | resources/unpacked/devtools/front_end/sources/CSSPlugin.js:137-158 | an edit exists iff the token under (or just before) the normalized selection start is `css-number` and its text has a leading integer; the edit spans that token and writes what `_modifyUnit` as written gives for its text |
| CssEditing.UnitModificationOfCanonical | resources/unpacked/devtools/front_end/sources/CSSPlugin.js:152-161 | on a canonical number token the new text is decimal(n+change) plus the same unit |
| CssEditing.UnitModificationLeadingZeros | resources/unpacked/devtools/front_end/sources/CSSPlugin.js:129-161 | on the token `007px` an increment writes `807px`, five columns long |
| CssEditing.CssPlugin.HandleUnitModification | resources/unpacked/devtools/front_end/sources/CSSPlugin.js:137-164 | returns true iff an edit is planned; then the token's text is replaced by the as-written `_modifyUnit` result and the selection spans [token start, token start + new length); otherwise text and selection are unchanged |
| CssEditing.Scan | resources/unpacked/devtools/front_end/sources/CSSPlugin.js:406-427 | definition of the backtracking loop as a recursion over at most 10 tokens; its meaning is stated by `ScanByWalk` |
| CssEditing.Backtrack | resources/unpacked/devtools/front_end/sources/CSSPlugin.js:400-428 | definition: start the scan at the column; its meaning is stated by `BacktrackResult` and `BacktrackNegativeColumn` |
| CssEditing.ScanByWalk | resources/unpacked/devtools/front_end/sources/CSSPlugin.js:406-427 | the loop's result equals the reference: walk the token chain, stop at the first token not passed over, return it iff it is a property token after exactly one colon |
| CssEditing.BacktrackResult | resources/unpacked/devtools/front_end/sources/CSSPlugin.js:400-428 | a result is always a `css-property` token, reached over whitespace, comment or untyped tokens of which exactly one is a colon, within the first 10 tokens; and conversely |
| CssEditing.BacktrackNegativeColumn | resources/unpacked/devtools/front_end/sources/CSSPlugin.js:406 | a negative start column finds nothing |
| CssEditing.CssPlugin.BacktrackPropertyToken | resources/unpacked/devtools/front_end/sources/CSSPlugin.js:400-428 | the loop returns the backtracking result, inspects at most 10 tokens, and none when the column is negative |
| CssEditing.FilterByPrefixCounts | resources/unpacked/devtools/front_end/sources/CSSPlugin.js:392 | each value that starts with the prefix is kept as many times as it occurs; every other value occurs zero times |
| CssEditing.FilterByPrefixMembers | resources/unpacked/devtools/front_end/sources/CSSPlugin.js:392 | keeps exactly the values that start with the prefix |
| CssEditing.Suggestions | resources/unpacked/devtools/front_end/sources/CSSPlugin.js:378-393 | definition of `_cssSuggestions` on the editor's lines; its meaning is stated by `SuggestionsMeaning` |
| CssEditing.SuggestionsMeaning | resources/unpacked/devtools/front_end/sources/CSSPlugin.js:378-393 | none iff the word starts with `$` or no property name precedes it; otherwise exactly the property's values starting with the word |
| CssEditing.CssPlugin.CssSuggestions | resources/unpacked/devtools/front_end/sources/CSSPlugin.js:378-393 | returns `Suggestions` for the editor's lines |
| CssEditing.ScannedLine | resources/unpacked/devtools/front_end/sources/CSSPlugin.js:181 | definition: the line cut to `maxSwatchProcessingLength` (300) characters; stated by `ScannedLinePrefix` |
| CssEditing.IsDelimiter | resources/unpacked/devtools/front_end/sources/CSSPlugin.js:188 | definition: the class `[\s:;,(){}]` |
| CssEditing.Delimited | resources/unpacked/devtools/front_end/sources/CSSPlugin.js:189-194 | definition: the characters just before and just after the piece are delimiters or lie outside the line |
| CssEditing.ScannedLinePrefix | resources/unpacked/devtools/front_end/sources/CSSPlugin.js:181 | the scanned part of a line is its prefix of at most 300 characters |
| CssEditing.LineSwatchesExact | resources/unpacked/devtools/front_end/sources/CSSPlugin.js:183-200 | a swatch is found on a line iff some piece of the split line yields it |
| CssEditing.LineSwatchesSound | resources/unpacked/devtools/front_end/sources/CSSPlugin.js:183-200 | every swatch found on one scanned line carries that line number, is delimited there and is accepted by its parser |
| CssEditing.SwatchesInLinesSound | resources/unpacked/devtools/front_end/sources/CSSPlugin.js:180-202 | every swatch found lies on a scanned line, is delimited by `\s:;,(){}` or a line boundary in the truncated line, and its parser accepts it |
| CssEditing.KeepOutside | resources/unpacked/devtools/front_end/sources/CSSPlugin.js:209-211 | the kept bookmarks are exactly those outside the rescanned lines |
| CssEditing.CssPlugin.ScanLines | resources/unpacked/devtools/front_end/sources/CSSPlugin.js:180-202 | the outer loop returns the swatches of lines `startLine..endLine` in line order, each line truncated to 300 characters; none when `endLine < startLine` |
| CssEditing.CssPlugin.ScanLine | resources/unpacked/devtools/front_end/sources/CSSPlugin.js:183-201 | the inner loop returns the swatches of the pieces in order |
| CssEditing.CssPlugin.UpdateSwatches | resources/unpacked/devtools/front_end/sources/CSSPlugin.js:170-221 | the bookmarks become those outside the lines plus the swatches found on them; text, selection and undo count are unchanged |
| CssEditing.CssPlugin.constructor | resources/unpacked/devtools/front_end/sources/CSSPlugin.js:50-75 | starts unmuted with no swatch edit and scans every line |
| CssEditing.CssPlugin.SwatchIconClicked | resources/unpacked/devtools/front_end/sources/CSSPlugin.js:260-275 | mutes processing, clears the change flag, selects the swatch position and records its text range |
| CssEditing.CssPlugin.ChangeSwatchText | resources/unpacked/devtools/front_end/sources/CSSPlugin.js:339-344 | replaces the edited range, sets the change flag, and makes the range end at start + text length |
| CssEditing.CssPlugin.SwatchPopoverHidden | resources/unpacked/devtools/front_end/sources/CSSPlugin.js:349-354 | unmutes; calls undo exactly once when not committing after a change, never otherwise |
| CssEditing.CssPlugin.OnTextChanged | resources/unpacked/devtools/front_end/sources/CSSPlugin.js:359-363 | rescans iff not muted; while muted the bookmarks are unchanged |
| CssEditing.CancelledSwatchEdit | resources/unpacked/devtools/front_end/sources/CSSPlugin.js:260-363 | click, edit, text change, cancel, the undo's text change: while muted the bookmarks stay as they were; hiding unmutes before the one undo, so the undo's text change is rescanned and the bookmarks end as `Rescanned` of the old ones over the undone range |
| Geolocations.TitleValidator | resources/unpacked/devtools/front_end/emulation/GeolocationsSettingsTab.js:174-189 | "cannot be empty" iff the trimmed title is empty; "must be less than 50 characters" iff its UTF-16 length exceeds 50; valid iff the length is 1..50 |
| Geolocations.TitleLengthBoundary | resources/unpacked/devtools/front_end/emulation/GeolocationsSettingsTab.js:181 | 50 plain characters pass, 51 do not |
| Geolocations.HasAsciiLetter | resources/unpacked/devtools/front_end/emulation/GeolocationsSettingsTab.js:267 | true iff some character is an ASCII letter |
| Geolocations.TimezoneIdValidator | resources/unpacked/devtools/front_end/emulation/GeolocationsSettingsTab.js:259-272 | valid iff the trimmed value is empty or contains an ASCII letter; otherwise the alphabet-letters message |
| Geolocations.CoordinateValidator | resources/unpacked/devtools/front_end/emulation/GeolocationsSettingsTab.js:197-251 | an empty trimmed value is valid; otherwise valid iff `Number` is not NaN and `parseFloat` is within the bounds; errors carry one of the three messages |
| Geolocations.LatValidator | resources/unpacked/devtools/front_end/emulation/GeolocationsSettingsTab.js:197-220 | the coordinate rule with bounds -90 and 90 |
| Geolocations.LongValidator | resources/unpacked/devtools/front_end/emulation/GeolocationsSettingsTab.js:228-251 | the coordinate rule with bounds -180 and 180 |
| Geolocations.ValidCoordinateStoredInBounds | resources/unpacked/devtools/front_end/emulation/GeolocationsSettingsTab.js:99-102 | a coordinate its validator accepted is stored as a finite number within the bounds (an empty one as 0), given that `parseFloat` is not NaN where `Number` is not, on strings that are not all white space |
| Geolocations.Splice1 | resources/unpacked/devtools/front_end/emulation/GeolocationsSettingsTab.js:86 | `splice(index, 1)`: removes the element at index, counted from the end when negative; an index past the end removes nothing |
| Geolocations.Splice1RemovesOne | resources/unpacked/devtools/front_end/emulation/GeolocationsSettingsTab.js:84-88 | a valid index: length drops by one, earlier elements stay, later ones shift down by one |
| Geolocations.GeolocationsSettingsTab.RemoveItemRequested | resources/unpacked/devtools/front_end/emulation/GeolocationsSettingsTab.js:84-88 | the stored list becomes `Splice1` of the old one |
| Geolocations.GeolocationsSettingsTab.CommitEdit | resources/unpacked/devtools/front_end/emulation/GeolocationsSettingsTab.js:96-111 | the location gets the trimmed title and timezone id and the parsed coordinates (0 when empty); the list gets it appended iff it is new, else stays as it was |
| Geolocations.GeolocationsSettingsTab.AddButtonClicked | resources/unpacked/devtools/front_end/emulation/GeolocationsSettingsTab.js:53-55 | proposes index = list length and a fresh location with title `''`, lat 0, long 0, timezone id `''` |
| Geolocations.AddLocation | resources/unpacked/devtools/front_end/emulation/GeolocationsSettingsTab.js:53-111 | add then commit: the list grows by one with the new location at the proposed index |
| Screencast.ScreencastApp.constructor | resources/unpacked/devtools/front_end/screencast/ScreencastApp.js:16-23 | setting from storage (default false), toggled equals it, button disabled, no model |
| Screencast.ScreencastApp.PresentUI | resources/unpacked/devtools/front_end/screencast/ScreencastApp.js:39-52 | the split widget exists with its main pane hidden |
| Screencast.ScreencastApp.OnScreencastEnabledChanged | resources/unpacked/devtools/front_end/screencast/ScreencastApp.js:91-102 | nothing before `presentUI`; afterwards toggled = setting and view present, and the pane is shown iff toggled |
| Screencast.ScreencastApp.ModelAdded | resources/unpacked/devtools/front_end/screencast/ScreencastApp.js:58-68 | no-op while a model is attached; else attaches it and enables the button; throws before the UI exists, otherwise recomputes |
| Screencast.ScreencastApp.ModelRemoved | resources/unpacked/devtools/front_end/screencast/ScreencastApp.js:74-83 | no-op for another model; for the attached one: no model, no view, button disabled, pane hidden once the UI exists |
| Screencast.ScreencastApp.ToggleButtonClicked | resources/unpacked/devtools/front_end/screencast/ScreencastApp.js:85-89 | setting := not toggled-before-click, then recompute |
| Screencast.AppHolder.Instance | resources/unpacked/devtools/front_end/screencast/ScreencastApp.js:28-33 | creates the app on first call and returns the stored one afterwards |
| Screencast.InstanceIsShared | resources/unpacked/devtools/front_end/screencast/ScreencastApp.js:28-33 | two calls return the same object |
| Screencast.ToggleSession | resources/unpacked/devtools/front_end/screencast/ScreencastApp.js:58-102 | present, attach, click on, click off, detach: button disabled, pane hidden, toggle off |

## Left out

- Event wiring is left out: `targetAdded`, `_initTarget`, listener bookkeeping and `dispose`. These are subscriptions to the target manager and the editor.
- `evaluateCommandInConsole`, `saveToTempVariable`, `_mainFrameNavigated`, the profile messages and `fromException` are left out. They do asynchronous remote evaluation, user metrics and message formatting in other modules. `addCommandMessage` and `_queryObjectRequested` are left out too: they only build a message and call `addMessage`.
- `requestClearMessages` is modelled by its local `_clear` only. The calls into the log and runtime models are foreign.
- ConsoleLog.AfterAddLog: the message is a value, so the exception map stores its index in the log. Adding the same message object twice is therefore not modelled as aliasing: a later revoke demotes the registered entry only.
- ConsoleLog.IsDiracMessage compares the first parameter's value with the sentinel only when that value is a string. Loose equality with an object whose string conversion gives the sentinel is not modelled.
- ConsoleMessages.NewMessage: the runtime model's `executionContextIdForScriptId` and `executionContextForStackTrace` lookups, and `Date.now()`, are parameters.
- JavaScript numbers in the console log and the CSS unit increment are unbounded integers here. Fractional values, precision beyond 2^53 and exponent notation are not modelled. There is no separate `-0`; where it appears (`parseInt("-0px")`), its rendering `0` is that of the model's 0, so ModifyUnitAsWritten gives what the source gives. `parseInt` only yields integers, so for the CSS unit this matters only past 2^53. A console-API argument like `1.5` cannot be represented, so ConsoleMessages.ValueToString does not cover the text `1.5` that `console.log(1.5)` gives.
- Geolocations.ValidCoordinateStoredInBounds: because the two conversions are parameters, the fact that `parseFloat` reads a number wherever `Number` does, on strings that are not all white space, is a precondition of the lemma rather than a property of the model.
- CSS editing: the editor is reduced to its lines, selection, bookmarks and an undo counter. CssEditing.TextEditor.Undo counts the call; it is not modelled as restoring the text, because the edit history belongs to the editor.
- `TextRange` and the editor are not part of this model. `normalize` is taken to order the two ends, and `text()`/`editRange` are taken on a single line, which is how every modelled caller uses them.
- CssEditing.PlanUnitModification and CssEditing.CssPlugin.HandleUnitModification call `_modifyUnit` as written, as the handler does, so they carry the leading-zero behaviour of the finding below. The corrected CssEditing.ModifyUnit and its properties are proved on their own; no edit in the model uses it.
- CSS editing columns and lengths count characters, not UTF-16 code units. The two differ only for characters outside the Basic Multilingual Plane.
- Swatch creation is a parameter: `Color.parse`, `CubicBezier.parse`, the regexes and `splitStringByRegexes`. So are the popovers, spectrum and bezier editors (`_showSpectrum`, `_showBezierEditor`, `_spectrumChanged`, `_bezierChanged`) and the keyboard shortcut plumbing.
- `_isWordChar` is left out. It delegates to `TextUtils.Utils.isWordChar`, which is not part of this model.
- Geolocations: `Number` and `parseFloat` are parameters, so floating-point parsing is not modelled. `renderItem`, `beginEdit`, `_createEditor` and `_geolocationsUpdated` only build DOM or refill the list widget.
- The setting's serialization on `set` is not modelled. The stored list is the list of location objects.
- Screencast: widget layout (`SplitWidget`, `RootView`, `ScreencastView`) is reduced to booleans. `ToolbarButtonProvider` and `ScreencastAppProvider` only call `_instance`.
- Screencast.ScreencastApp.ModelAdded: the `TypeError` raised before `presentUI` is returned as a flag; the state it leaves behind is modelled.

## Findings

| source | as written | input that shows it | evidently intended | confidence | as-written member | corrected member |
|---|---|---|---|---|---|---|
| resources/unpacked/devtools/front_end/sources/CSSPlugin.js:129 | the unchanged tail starts after `(unitValue).toString().length` characters | `_modifyUnit("007px", 1)` gives `807px`; a `+` sign or leading white space misplaces the tail the same way (a `-` sign does not, except on a zero value: `-0px` plus one gives `10px`) | the tail starts where the parsed digits end, giving `8px` | medium, not executed | CssEditing.ModifyUnitAsWritten (CssEditing.ModifyUnitLeadingZeros, CssEditing.ModifyUnitNegativeZero) | CssEditing.ModifyUnit (CssEditing.ModifyUnitCanonical, CssEditing.ModifyUnitInverse) |
