# pylucam camera wrapper, modelled in Dafny

pylucam wraps Lumenera's LuCam camera library for Python. This project models the core of
its wrapper module, `src/pylucam/lucam.py`:

- **Error codes** (`ErrorCodes`): the `LucamError.CODES` table from code to error name, the
  text a raised `LucamError` shows, and the kinds of error a wrapper call can raise.
- **Property identifiers** (`PropertyNames`): how `_property_value` turns a `LucamProperty`
  member, a raw integer or a property name into the integer the library expects. A name
  without an underscore is split before its capitals, rejoined with underscores, upper-cased
  and looked up as a `LUCAM_PROP_*` symbol. The module also models the `Grn` to `Green`
  rewrite that `get_default_snapshot` applies to snapshot field names.
- **Marshalling** (`Marshalling`): the `Format` and `Snapshot` dataclasses and their
  `from_lucam` / `as_lucam` conversions to the native `LUCAM_FRAME_FORMAT` and
  `LUCAM_SNAPSHOT` structures. Each conversion goes field by field through the dataclass
  annotations.
- **The camera session** (`Session`): the `LucamCamera` class with its cached format, width,
  height, frame rate, default snapshot and fast-frame flag. Every native call is appended to a
  call history. The vendor library is a `Library` value: its answers are functions of that
  history, such as whether a call succeeded, the last error code, a property value, the frame
  format and the pixels a fast frame receives. Each method is specified by a function on the
  camera state (`GetFormatSpec`, `DefaultSnapshotSpec`, `WhiteBalanceSpec`, ...).
- **Camera facts** (`CameraFacts`): what those specification functions promise:
  - which calls are issued, and in what order;
  - what is cached;
  - what stays unchanged when a call fails;
  - where a failure stops a sequence of calls.

A failed native call is followed by `LucamGetLastErrorForCamera`, and its result becomes the
code of the `LucamError`. Python exceptions become `Result` / `Outcome` failures carrying an
`Error`. Attributes that `lucam.py` leaves unset until the first `get_format` or
`get_default_snapshot` are `Option` fields; reading one that is unset fails with
`AttributeError`.

## Model

| member | source | states |
|---|---|---|
| ErrorCodes.CodesDomain | src/pylucam/lucam.py:56-309 | The code table is defined for exactly the codes 0 to 99. |
| ErrorCodes.Describe | src/pylucam/lucam.py:318-319 | `str(LucamError)` has a text exactly when the code is 0..99, and that text is the table entry for the code. Any other code is a failed lookup. |
| ErrorCodes.KnownCodes | src/pylucam/lucam.py:57-308 | Code 0 is NoError, code 1 is NoSuchIndex and code 99 is RetryLimitReached. Codes 100 and -1 have no text. |
| PropertyNames.Upper | src/pylucam/lucam.py:421 | `str.upper` keeps the length, maps each lower-case ASCII letter to its capital and leaves every other character alone. |
| PropertyNames.UnderscoreCapitalsShape | src/pylucam/lucam.py:420 | Inserting underscores before capitals puts an underscore before every capital. In a name without underscores, each inserted underscore precedes a capital. Removing the underscores gives back the original name. |
| PropertyNames.SnakeCaseShape | src/pylucam/lucam.py:419-420 | The snake-case reading of a name without underscores keeps the first character. It puts an underscore before each later capital and nowhere else, and the other characters stay in order. |
| PropertyNames.SplitJoinIsSnakeCase | src/pylucam/lucam.py:420 | For a name with no whitespace, splitting before capitals and joining with `_` equals the reference snake-case reading. |
| PropertyNames.CamelCaseSymbol | src/pylucam/lucam.py:419-421 | A camel-case name without underscores is looked up as `LUCAM_PROP_` plus its upper-cased snake-case form. |
| PropertyNames.UnderscoredSymbol | src/pylucam/lucam.py:419-421 | A name that already contains `_` is only upper-cased before the `LUCAM_PROP_` lookup. |
| PropertyNames.OneWordSnakeCase | src/pylucam/lucam.py:420 | The snake-case reading keeps a word with no capital after its first character as it is. |
| PropertyNames.TwoWordSnakeCase | src/pylucam/lucam.py:420 | Two such words, the second starting with a capital, are joined with exactly one underscore. |
| PropertyNames.CapitalWordSymbol | src/pylucam/lucam.py:419-421 | `GAIN` resolves to `LUCAM_PROP_G_A_I_N`: every capital starts a new word. |
| PropertyNames.SymbolExamples | src/pylucam/lucam.py:419-421 | `gainRed`, `GainRed` and `gain_red` all give `LUCAM_PROP_GAIN_RED`. `gain` gives `LUCAM_PROP_GAIN`, a different symbol from the one `GAIN` gives. |
| PropertyNames.SplitJoinIsSnakeWords | src/pylucam/lucam.py:420 | For any name, splitting before capitals and joining with `_` gives the snake-case readings of its whitespace-separated words, joined with `_`; the rewrite has words exactly when the name has. |
| PropertyNames.SpacedNameSymbol | src/pylucam/lucam.py:419-421 | A name without `_` is looked up as `LUCAM_PROP_` plus the upper-cased snake-case readings of its whitespace-separated words, joined with `_`. |
| PropertyNames.SpaceSeparatedWords | src/pylucam/lucam.py:419-421 | Two space-free words separated by one space give the symbol of their snake-case readings joined with `_`, so `gain red` and `gainRed` name the same symbol. |
| PropertyNames.ResolveCases | src/pylucam/lucam.py:415-424 | A member resolves to its library value. An integer is returned unchanged. A name with `_` resolves through `LUCAM_PROP_` plus the upper-cased name. Any name without `_` resolves through `LUCAM_PROP_` plus the upper-cased snake-case readings of its whitespace-separated words, joined with `_`; a camel-case name without whitespace resolves through its upper-cased snake-case form. Each name resolves to the library value of its symbol, or fails with `AttributeError` naming that symbol when the library does not define it. |
| PropertyNames.ReplaceAbsent | src/pylucam/lucam.py:463-464 | `str.replace` of a pattern that does not occur leaves the text unchanged. |
| PropertyNames.QueryNameIsReplacement | src/pylucam/lucam.py:463-466 | The name a snapshot field is queried under equals `field.replace("Grn", "Green")`, whether or not the field contains `Grn`. |
| PropertyNames.SnapshotNamesMatchMembers | src/pylucam/lucam.py:322-327 | The queried names of `gain`, `gainRed`, `gainBlue`, `gainGrn1` and `gainGrn2` resolve to the symbols of the `LucamProperty` members, and `exposure` resolves to `LUCAM_PROP_EXPOSURE`. |
| PropertyNames.SpaceBeforeCapitals | src/pylucam/lucam.py:420 | `re.sub(r"([A-Z])", r" \1", name)`: the result is never shorter than the name. What the rewrite does with the words is stated by `SplitJoinIsSnakeCase` and `SplitJoinIsSnakeWords`. |
| PropertyNames.Split | src/pylucam/lucam.py:420 | `str.split()` without an argument: the maximal runs of non-space characters, in order. Leading spaces are dropped (`SplitLeadingSpace`), and a word followed by a space or the end is split off whole (`SplitLeadingWord`, `WordOfSpaceFree`). |
| PropertyNames.SplitLeadingSpace | src/pylucam/lucam.py:420 | `str.split()` ignores a leading space. |
| PropertyNames.SplitLeadingWord | src/pylucam/lucam.py:420 | A space-free word followed by a space or by nothing is the first element of `str.split()`, and the rest is split the same way. |
| PropertyNames.SplitNonEmpty | src/pylucam/lucam.py:420 | Text that starts with a non-space character yields at least one word. |
| PropertyNames.Join | src/pylucam/lucam.py:420 | `"_".join(words)`: the words in order with one separator between neighbours. Prepending a word adds the word and one separator (`JoinCons`). |
| PropertyNames.Normalise | src/pylucam/lucam.py:419-420 | A name containing `_` is kept. Any other name is split before its capitals and rejoined with `_`; `SnakeCaseShape`, `SplitJoinIsSnakeCase` and `SplitJoinIsSnakeWords` state the result. |
| PropertyNames.SymbolName | src/pylucam/lucam.py:419-421 | The symbol looked up is `LUCAM_PROP_` followed by the upper-cased normalised name; `CamelCaseSymbol`, `SpacedNameSymbol` and `UnderscoredSymbol` state it for each kind of name. |
| PropertyNames.Resolve | src/pylucam/lucam.py:415-424 | `_property_value` for each kind of identifier, including the `AttributeError` of a missing symbol; `ResolveCases` states the result for members, integers and every name. |
| PropertyNames.ReplaceAll | src/pylucam/lucam.py:463-464 | `str.replace(pat, rep)`: occurrences are replaced left to right without overlap. With no occurrence the text is unchanged (`ReplaceAbsent`). |
| PropertyNames.SnapshotQueryName | src/pylucam/lucam.py:463-466 | The name a snapshot field is queried under: `Grn` spelled out as `Green` when it occurs, otherwise the field itself. `QueryNameIsReplacement` shows the test before replacing changes nothing. |
| Marshalling.FormatAttr | src/pylucam/lucam.py:330-342 | Reading a `Format` attribute succeeds exactly for the eleven annotated field names. |
| Marshalling.StructAttr | src/pylucam/lucam.py:345-348 | Reading a `LUCAM_FRAME_FORMAT` attribute succeeds exactly for the same eleven names. |
| Marshalling.SetStructAttr | src/pylucam/lucam.py:355-356 | Setting a field of the native format makes that field read back the new value. |
| Marshalling.SetStructAttrKeeps | src/pylucam/lucam.py:355-356 | Setting one field of the native format leaves every other field unchanged. |
| Marshalling.FormatFromKwargs | src/pylucam/lucam.py:346-350 | `Format(**kwargs)` built from a dictionary with every annotated name has each attribute equal to the dictionary entry. |
| Marshalling.FormatFromLucam | src/pylucam/lucam.py:344-350 | The loop over the annotations copies every field by name from the native format. |
| Marshalling.FormatAsLucam | src/pylucam/lucam.py:352-358 | The loop that sets the fields of a new native format copies every field by name from the `Format`. |
| Marshalling.ConversionsCopyByName | src/pylucam/lucam.py:344-358 | Both conversions keep every attribute, read by name. |
| Marshalling.FormatRoundTrip | src/pylucam/lucam.py:344-358 | `Format.from_lucam(f.as_lucam()) == f` and `from_lucam(s).as_lucam() == s`. |
| Marshalling.SnapshotAttr | src/pylucam/lucam.py:361-375 | Reading a `Snapshot` attribute succeeds exactly for the eight annotated names: exposure and five gains, then timeout and format. |
| Marshalling.LucamSnapshotAttr | src/pylucam/lucam.py:385-394 | Reading a native snapshot attribute succeeds exactly for the same eight names. |
| Marshalling.SetLucamSnapshotAttr | src/pylucam/lucam.py:392 | Setting a native snapshot field to a value of that field's kind makes the field read back the value. Every other field is unchanged. |
| Marshalling.SnapshotFromKwargs | src/pylucam/lucam.py:469 | `Snapshot(**kwargs)` takes each attribute from the dictionary entry of the same name. |
| Marshalling.LucamOf | src/pylucam/lucam.py:385-394 | `Snapshot.as_lucam` succeeds exactly when the snapshot's format is a `Format` dataclass. |
| Marshalling.SnapshotAsLucam | src/pylucam/lucam.py:385-394 | The loop over the annotations converts the format with `as_lucam()[0]` and copies the other fields. An unconvertible format fails with `AttributeError`. |
| Marshalling.SnapshotFromLucamAsWritten | src/pylucam/lucam.py:377-383 | The loop as written copies all eight fields. The format stays the native structure. |
| Marshalling.SnapshotFromLucam | src/pylucam/lucam.py:377-383 | The corrected conversion copies the seven scalar fields and converts the format back with `Format.from_lucam`. |
| Marshalling.AsLucamCopiesFields | src/pylucam/lucam.py:385-394 | A successful `as_lucam` keeps every scalar field and the converted format. |
| Marshalling.AsWrittenRoundTripFails | src/pylucam/lucam.py:377-394 | For every native snapshot, `as_lucam` of the as-written `from_lucam` fails with `AttributeError("as_lucam")`. |
| Marshalling.SnapshotOfCopiesByName | src/pylucam/lucam.py:377-383 | The corrected `from_lucam` keeps every attribute by name, with the format converted. |
| Marshalling.SnapshotRoundTrip | src/pylucam/lucam.py:377-394 | With the corrected `from_lucam`, the round trip gives back the native snapshot on the eight annotated fields in one direction, and the `Snapshot` in the other. |
| Marshalling.FormatOf | src/pylucam/lucam.py:344-350 | `Format.from_lucam`: the record with each annotated field read from the structure. `FormatFromLucam` and `FormatRoundTrip` state it. |
| Marshalling.StructOf | src/pylucam/lucam.py:352-358 | `Format.as_lucam`: the structure with each annotated field set from the record. `FormatAsLucam` and `FormatRoundTrip` state it. |
| Marshalling.SnapshotOfAsWritten | src/pylucam/lucam.py:377-383 | `Snapshot.from_lucam` as written: every field copied by `getattr`, the format left native. `SnapshotFromLucamAsWritten` and `AsWrittenRoundTripFails` state it. |
| Marshalling.SnapshotOf | src/pylucam/lucam.py:377-383 | The corrected `from_lucam`: the format converted with `Format.from_lucam`. `SnapshotFromLucam`, `SnapshotOfCopiesByName` and `SnapshotRoundTrip` state it. |
| Session.LucamCamera.Init | src/pylucam/lucam.py:397-408 | Opening the camera issues `LucamCameraOpen(number)` and keeps its handle. Nothing is cached, the frame rate is 30 and fast frames are off. |
| Session.LucamCamera.Open | src/pylucam/lucam.py:407-410 | `LucamCamera(number)` opens the camera, then runs `get_format` and then `get_default_snapshot`. It fails with the first error, and otherwise returns a camera in the state `OpenSpec` describes. |
| Session.LucamCamera.Issue | src/pylucam/lucam.py:430-431 | A native call is appended to the history, and its success is the library's answer for that history. |
| Session.LucamCamera.GetLastError | src/pylucam/lucam.py:412-413 | `get_last_error` issues `LucamGetLastErrorForCamera` and returns the library's code. |
| Session.LucamCamera.IssueChecked | src/pylucam/lucam.py:311-316 | A failed call is followed by `get_last_error`, and `LucamError` carries that code. A successful call issues nothing more. |
| Session.LucamCamera.GetProperty | src/pylucam/lucam.py:426-434 | Resolves the identifier and issues `LucamGetProperty` with the resolved value. The result is the value the library writes. A failed resolution issues no call. |
| Session.LucamCamera.SetProperty | src/pylucam/lucam.py:436-440 | Resolves the identifier and issues `LucamSetProperty` with the value and flags 0. |
| Session.LucamCamera.GetFormat | src/pylucam/lucam.py:442-454 | On success it caches the converted format, the frame rate, and the width and height of the format. On failure only the calls change. |
| Session.LucamCamera.QueryField | src/pylucam/lucam.py:459-466 | One loop step of `get_default_snapshot`: `format` runs `get_format`, `timeout` is 100, and any other field is read with `get_property` under its `Grn`-to-`Green` name. |
| Session.LucamCamera.QueryFieldsLoop | src/pylucam/lucam.py:458-468 | The loop over the snapshot fields stops at the first failure. Otherwise it adds each field's value to the dictionary, as `QueryFields` defines. |
| Session.LucamCamera.GetDefaultSnapshot | src/pylucam/lucam.py:456-470 | It builds the snapshot from the queried values and caches it. The cache is assigned only when every query succeeded. |
| Session.LucamCamera.EnableFastFrames | src/pylucam/lucam.py:472-476 | Uses the argument, or the cached snapshot when the argument is `None`, converted with `as_lucam`. The flag becomes true only when `LucamEnableFastFrames` succeeds. |
| Session.LucamCamera.DisableFastFrames | src/pylucam/lucam.py:478-481 | Issues `LucamDisableFastFrames`. The flag becomes false only on success. |
| Session.LucamCamera.TakeFastFrame | src/pylucam/lucam.py:483-488 | Returns a fresh buffer of cached `height` rows and `width` columns holding the pixels the library writes. Fields are unset → `AttributeError`; negative sizes → `ValueError`; no other field changes. |
| Session.LucamCamera.WhiteBalance | src/pylucam/lucam.py:501-525 | The state and outcome are those of `WhiteBalanceSpec`: the region, then a disable if fast frames are on, then start, auto white balance, stop, the default snapshot and enable. |
| Session.LucamCamera.CameraClose | src/pylucam/lucam.py:527-529 | Issues a checked `LucamCameraClose`. |
| Session.FieldStepFacts | src/pylucam/lucam.py:459-466 | One step never changes the cached snapshot or the flag, and it keeps the cache consistent. Only the `format` field changes the cached format. A successful step yields a frame format for `format`, 100 for `timeout`, and a scalar otherwise. |
| Session.QueryFieldsFrame | src/pylucam/lucam.py:458-468 | The whole loop never changes the cached snapshot or the flag, and it keeps the cache consistent. |
| Session.QueryFieldsCalls | src/pylucam/lucam.py:458-468 | On success the loop issues, in field order, exactly the calls each field needs. |
| Session.QueryFieldsKeys | src/pylucam/lucam.py:458-468 | On success every looped field is a key, keys the loop did not visit keep their values, and each value keeps its field's kind. |
| Session.QueryFieldsValues | src/pylucam/lucam.py:458-468 | On success `timeout` holds 100 and `format` holds the format `get_format` cached last. |
| Session.DefaultKwargs | src/pylucam/lucam.py:457-469 | A successful loop over the snapshot fields yields a dictionary `Snapshot(**kwargs)` accepts. |
| Session.DefaultSnapshotOfLoop | src/pylucam/lucam.py:456-470 | Relates `get_default_snapshot` to its loop. The snapshot's format is the format `get_format` cached during the loop, and its timeout is 100. |
| Session.Checked | src/pylucam/lucam.py:311-316 | Every `if not lib.Call(...): raise LucamError(self)` (lines 430-433, 437-440, 446-447, 474-475, 479-480, 486-487, 511-522, 528-529). The outcome passes exactly when the library accepts the call. The history starts with the old history and the call, and is at most one call longer than that. A failure is always a `LucamError`. The exact calls and the code raised (`get_last_error` appended, `LucamError` of its code) are stated per operation by `CameraFacts.GetPropertyCalls`, `SetPropertyCalls`, `GetFormatCaches`, `EnableFacts`, `DisableFacts`, `FrameFacts` and `BalanceFacts`. |
| Session.GetPropertySpec | src/pylucam/lucam.py:426-434 | The history only grows, and a failed resolution of the identifier leaves it unchanged. |
| Session.SetPropertySpec | src/pylucam/lucam.py:436-440 | The history only grows, and a failed resolution of the identifier leaves it unchanged. |
| Session.GetFormatSpec | src/pylucam/lucam.py:442-454 | At least one call is issued. The snapshot and the fast-frame flag never change. On success the cached format is the returned one; on failure the cached format is unchanged. |
| Session.FieldStep | src/pylucam/lucam.py:459-466 | One turn of the loop only appends to the history and never changes the cached snapshot or the flag. |
| Session.FieldStepCalls | src/pylucam/lucam.py:459-466 | A successful turn issues exactly the calls its field needs: `LucamGetFormat` for `format`, none for `timeout`, one `LucamGetProperty` otherwise. |
| Session.FieldStepValue | src/pylucam/lucam.py:459-466 | A successful turn yields the value the library wrote for that field's own call: the format read, 100 for `timeout`, or the property value. |
| Session.QueryFields | src/pylucam/lucam.py:458-468 | The loop only appends to the history and never changes the cached snapshot or the flag. |
| Session.QueryFieldsStep | src/pylucam/lucam.py:458-468 | The loop stops at a failing field with that field's error, and otherwise stores the field's value and goes on with the rest. |
| Session.AllFieldCallsAppend | src/pylucam/lucam.py:458-468 | The calls of two lists of fields looped in turn are the calls of the first, then those of the second. |
| Session.QueryFieldsValueAt | src/pylucam/lucam.py:458-468 | On success, a field that occurs once holds the value the library wrote for its own call, given the history up to and including that call. |
| Session.DefaultSnapshotSpec | src/pylucam/lucam.py:456-470 | The history only grows and the flag never changes; `DefaultSnapshotFacts` and `DefaultSnapshotValues` state the rest. |
| Session.EnableSpec | src/pylucam/lucam.py:472-476 | Only the history and the flag can change. The flag is set afterwards exactly when it was set before or the call passed. Passing needs a snapshot argument or a cached one. |
| Session.DisableSpec | src/pylucam/lucam.py:478-481 | Only the history and the flag can change. The flag is set afterwards exactly when it was set before and the call failed. |
| Session.FrameSpec | src/pylucam/lucam.py:483-488 | The history only grows. A returned shape is the cached (height, width), and both are non-negative. |
| Session.Region | src/pylucam/lucam.py:504-505 | A region exists exactly when each dimension is given or cached. A given dimension is used as given. |
| Session.BalanceSpec | src/pylucam/lucam.py:510-522 | At least one call is issued, and on success the history grows by three calls. Which calls, and where a failure stops, is stated by `CameraFacts.BalanceFacts`. |
| Session.WhiteBalanceSpec | src/pylucam/lucam.py:501-525 | The history only grows, and on success fast frames are on. |
| Session.ResumeSpec | src/pylucam/lucam.py:523-525 | After the balance: the history only grows, and on success fast frames are on. |
| Session.OpenSpec | src/pylucam/lucam.py:407-410 | The history starts with `LucamCameraOpen(number)` and has more calls after it. Fast frames are off. On success a snapshot is cached. |
| Session.SnapshotFieldsListed | src/pylucam/lucam.py:361-375 | The annotated snapshot fields are exactly exposure, the five gains, timeout and format. |
| Session.KindedKwargs | src/pylucam/lucam.py:469 | A dictionary holding every snapshot field, with a format only under `format`, builds a `Snapshot`. |
| CameraFacts.DefaultQueries | src/pylucam/lucam.py:458-466 | The queries of `get_default_snapshot` are seven calls: exposure, the five `LucamProperty` members in declaration order, then `LucamGetFormat`. |
| CameraFacts.EightFieldCalls | src/pylucam/lucam.py:458-466 | Per-field calls in the order of the eight snapshot fields add up to the seven queries. `timeout` adds none. |
| CameraFacts.DefaultQueriesIssued | src/pylucam/lucam.py:458-466 | The snapshot fields issue exactly `DefaultQueries`, in declaration order. |
| CameraFacts.ScalarFieldCalls | src/pylucam/lucam.py:463-466 | A scalar field whose query name has a symbol is read by exactly one `LucamGetProperty` with that symbol's value. |
| CameraFacts.ExposureFieldCalls | src/pylucam/lucam.py:466 | `exposure` is read with `LUCAM_PROP_EXPOSURE`. |
| CameraFacts.GainFieldCalls | src/pylucam/lucam.py:466 | `gain` is read with the symbol of `LucamProperty.gain`. |
| CameraFacts.GainRedFieldCalls | src/pylucam/lucam.py:466 | `gainRed` is read with the symbol of `LucamProperty.gain_red`. |
| CameraFacts.GainBlueFieldCalls | src/pylucam/lucam.py:466 | `gainBlue` is read with the symbol of `LucamProperty.gain_blue`. |
| CameraFacts.GainGreen1FieldCalls | src/pylucam/lucam.py:463-464 | `gainGrn1` is read, as `gainGreen1`, with the symbol of `LucamProperty.gain_green1`. |
| CameraFacts.GainGreen2FieldCalls | src/pylucam/lucam.py:463-464 | `gainGrn2` is read, as `gainGreen2`, with the symbol of `LucamProperty.gain_green2`. |
| CameraFacts.SixPrefixCalls | src/pylucam/lucam.py:458-466 | Six fields each read by one call issue, after the first k fields, the first k calls, for k from 1 to 6. |
| CameraFacts.SnapshotFieldsDistinct | src/pylucam/lucam.py:361-375 | No snapshot field name repeats later in the annotations: each of the first seven is absent from the fields after it. |
| CameraFacts.QueryFieldsHead | src/pylucam/lucam.py:458-468 | The loop completes only if its first field succeeded. |
| CameraFacts.ScalarQueried | src/pylucam/lucam.py:458-468 | On success each of the first six snapshot fields holds the property value the library wrote for its own query. |
| CameraFacts.LastFieldQueried | src/pylucam/lucam.py:458-468 | On success a loop ending with `format` has issued exactly its calls, and `format` holds the format read by the last call. |
| CameraFacts.LoopQueriedFirst | src/pylucam/lucam.py:458-468 | On success `exposure`, `gain` and `gainRed` hold the values written for the first three queries. |
| CameraFacts.LoopQueriedSecond | src/pylucam/lucam.py:458-468 | On success `gainBlue`, `gainGrn1` and `gainGrn2` hold the values written for the next three queries. |
| CameraFacts.LoopQueriedFormat | src/pylucam/lucam.py:458-468 | On success `format` holds the format read by the last of the seven queries. |
| CameraFacts.LoopQueried | src/pylucam/lucam.py:458-468 | On success the loop issued exactly `DefaultQueries`, and each entry holds what the library wrote for its own query. |
| CameraFacts.DefaultSnapshotValues | src/pylucam/lucam.py:456-470 | On success each of the six scalar fields of the snapshot is the property value the library wrote for its own query. Timeout is 100, and the format is the one read by the last query. The cached format is that same format. |
| CameraFacts.DefaultSnapshotCached | src/pylucam/lucam.py:456-470 | A snapshot that was read is cached and holds a format record. |
| CameraFacts.ExposureDefined | src/pylucam/lucam.py:466 | `get_default_snapshot` completes only when the library defines `LUCAM_PROP_EXPOSURE`. |
| CameraFacts.GetPropertyCalls | src/pylucam/lucam.py:426-434 | A failed resolution issues no call. A resolved identifier issues `LucamGetProperty(value)`. On success that is the only call, and the result is the library's property value. |
| CameraFacts.SetPropertyCalls | src/pylucam/lucam.py:436-440 | A resolved identifier issues `LucamSetProperty(value, v, 0)`. A failed resolution issues no call. |
| CameraFacts.NameAsMember | src/pylucam/lucam.py:415-434 | A name whose symbol is a member's symbol behaves exactly like the member in `get_property`. |
| CameraFacts.GainRedSpellings | src/pylucam/lucam.py:415-434 | `gainRed`, `GainRed`, `gain_red`, the raw integer and `LucamProperty.gain_red` all read the same property. |
| CameraFacts.GetFormatCaches | src/pylucam/lucam.py:442-454 | The whole new state after `get_format` on success and on failure. On failure nothing but the calls changes. Consistency is kept. |
| CameraFacts.DefaultSnapshotFacts | src/pylucam/lucam.py:456-470 | On success the calls are `DefaultQueries` and the snapshot is cached with timeout 100 and the newly cached format. On failure the cached snapshot is unchanged. The flag never changes. |
| CameraFacts.EnableFacts | src/pylucam/lucam.py:472-476 | `None` uses the cache, and with no cache the result is `AttributeError("snapshot")`. A snapshot holding a native format fails before any call. The flag changes only on success. A failing call appends `get_last_error` and raises the `LucamError` of the code it reports. |
| CameraFacts.DisableFacts | src/pylucam/lucam.py:478-481 | One checked call. The flag is false on success and unchanged on failure. A failure appends `get_last_error` and raises the `LucamError` of the code it reports. |
| CameraFacts.FrameFacts | src/pylucam/lucam.py:483-488 | Without a cached format the result is `AttributeError("height")` and no call is issued. With a cached format of non-negative size, the frame is `(height, width)` and is returned exactly when the library call succeeds. A failure appends `get_last_error` and raises the `LucamError` of the code it reports. |
| CameraFacts.WhiteBalanceNeedsRegion | src/pylucam/lucam.py:504-505 | With no cached format and a dimension not given, `white_balance` fails and changes nothing. A dimension given or cached always yields the region. |
| CameraFacts.BalanceFacts | src/pylucam/lucam.py:510-522 | The three calls go in order and the balance passes exactly when all three pass. A failing start, a failing auto white balance and a failing stop each end the history at that call plus `get_last_error`, with that code as the `LucamError`. |
| CameraFacts.WhiteBalanceOrder | src/pylucam/lucam.py:501-525 | On success the region comes from the arguments or the cache and the flag is true. The calls are: disable (only if fast frames were on), start, auto white balance, stop, the default-snapshot queries, then enable with the cached snapshot. That snapshot holds the values the library wrote for the queries after the balance: timeout 100 and the newly cached format. |
| CameraFacts.WhiteBalanceDisableFails | src/pylucam/lucam.py:507-508 | A failing `disable_fast_frames` ends the call with its `LucamError`. Only the disable and `get_last_error` are issued, and fast frames stay on. |
| CameraFacts.WhiteBalanceStreamingFails | src/pylucam/lucam.py:510-522 | After the disable, a failing start, auto white balance or stop ends the call with its `LucamError`. The history ends at that call plus `get_last_error`. Apart from the history only the flag changes: fast frames are off. |
| CameraFacts.WhiteBalanceTail | src/pylucam/lucam.py:523-525 | After a successful balance, `white_balance` is the default-snapshot read followed, when that succeeds, by `enable_fast_frames()`. |
| CameraFacts.WhiteBalanceSnapshotFails | src/pylucam/lucam.py:523 | A failing default-snapshot read ends the call with its error and its state, and fast frames are off. |
| CameraFacts.EnableCachedFails | src/pylucam/lucam.py:472-475 | A failing enable with a cached snapshot issues the enable with that snapshot, then `get_last_error`, and the flag is unchanged. |
| CameraFacts.WhiteBalanceEnableFails | src/pylucam/lucam.py:525 | A failing final enable issues the enable with the new snapshot, then `get_last_error`, and fast frames stay off. |
| CameraFacts.OpenFacts | src/pylucam/lucam.py:407-410 | On success the calls are open, get format, then the default queries, and the format and snapshot are cached. Fast frames are off either way. |

## Left out

- The library loader and header parsing (`LUCAM_LIB`, `LUCAM_FFI`, the cffi declarations) are not part of this model. The library is a `Library` value whose answers depend only on the call history.
- What each native call does inside the camera is not modelled. Success, error codes, property values, formats, frame rates and pixels are whatever the `Library` value answers.
- `convert_frame_to_rgb` and `take_fast_frame_rgb` are left out: they call OpenCV's Bayer demosaic.
- `LucamError()` without a camera, which reads the global `LucamGetLastError`, is left out: every raise in the wrapper passes the camera.
- ErrorCodes.Describe: the text is the error's name, the first line of each table entry. The explanation lines that follow it in the source are not reproduced.
- Floating-point values (exposure, gains, frame rate, property values) are `real`s that are only passed along, never computed on. Rounding of the native `FLOAT` is not modelled.
- `str.upper` and `str.split` cover ASCII only. Unicode case mapping and Unicode whitespace are left out.
- PropertyNames.Resolve: an identifier is one of the three kinds the type hint names: a `LucamProperty` member, an `int` or a `str`. For those, the `assert isinstance(property, int)` holds because library symbols are modelled as integers. Any other argument (a float, `None`) would fail that assert with `AssertionError`; that path is not modelled.
- Marshalling.FormatRoundTrip, Marshalling.SetStructAttrKeeps: the native fields are unbounded integers and reals, and each field has storage of its own. Both assumptions go beyond cffi and the header:
  - cffi raises `OverflowError` for a negative or too-wide integer. This happens in the `setattr` calls at lines 356 and 392 and in the native-call arguments at lines 408 and 515-516. Those errors are not modelled.
  - In the vendor header, `subSampleX` / `binningX` and `subSampleY` / `binningY` share storage, so setting one changes the other. The model keeps them apart.
- `self.format` and `self.snapshot.format` are one shared, mutable `Format` object (lines 450, 460, 469). The model stores copies of values, so aliasing through that object is not modelled.
- `self.lib.START_STREAMING` and `self.lib.STOP_STREAMING` (lines 512, 520) are looked up on the library. The model assumes both exist, as the two commands of `StreamCommand`.
- The snapshot fields commented out in the source (strobe, trigger, shutter type, exposure delay) are not modelled.
- Marshalling.SnapshotRoundTrip: the native snapshot is modelled with the eight annotated fields only. The vendor structure also has `useStrobe`, `strobeDelay`, `useHwTrigger`, `shutterType` and `exposureDelay` (commented out at lines 369-371 and 374-375). `as_lucam` starts from a zero-filled structure (line 386) and sets only the annotated fields (lines 387-392), so the native-to-`Snapshot`-to-native identity holds on the eight annotated fields, and those other native fields come back 0.
- Session.LucamCamera.TakeFastFrame: the `uint8` frame is an `array2<bv8>`, and the library's writes are modelled as the buffer's contents on success. Contiguity and the cffi buffer are not modelled.
- Concurrency and the camera's timing behaviour are left out. Calls happen one at a time in program order.
- The stream window handle (`HWND`) passed to `LucamStreamVideoControl` is not modelled.

## Findings

| source | as written | input that shows it | evidently intended | confidence | as-written member | corrected member |
|---|---|---|---|---|---|---|
| src/pylucam/lucam.py:377-383 | `Snapshot.from_lucam` copies every field with `getattr`, including `format`, which stays a native `LUCAM_FRAME_FORMAT` | Any native snapshot: `Snapshot.from_lucam(s).as_lucam()` fails because the native format has no `as_lucam` | `format` converted back with `Format.from_lucam`, so that `from_lucam` and `as_lucam` are inverse on the annotated fields | not executed | Marshalling.SnapshotFromLucamAsWritten, Marshalling.AsWrittenRoundTripFails | Marshalling.SnapshotFromLucam, Marshalling.SnapshotRoundTrip |
