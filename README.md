# Girder web client: notification stream and DICOM slideshow, modelled in Dafny

This project models two small stateful components of the Girder web client and proves properties about them.

1. **EventStream** (`clients/web/src/utilities/EventStream.js`) is the per-user notification channel.
   - Its settings record is the caller's settings merged over the defaults `timeout: null` and `streamPath: '/notification/stream'`.
   - `open` builds the stream URL and opens a browser `EventSource` on it, when the platform has one.
   - The message handler parses each frame as JSON. A parsed frame whose `type` can be read and converted triggers `g:event.<type>`; a frame that fails to parse triggers `g:error`. A frame that parses to null or has an unconvertible `type` throws and triggers nothing (see Findings).
   - `close` closes the connection and drops it, or does nothing when there is none.
   - In the model, `JSON.parse` is a parameter `parse: string -> Option<JsValue>`, where `None` means it threw.
   - Backbone's `trigger` appends `(name, payload)` to the stream's `log`.
   - `EventSource` is the class `Connection`, holding a URL, a `closed` flag and the stream whose handler it carries.
2. **DicomView** (`plugins/dicom_viewer/web_external/js/main.js`) is a slideshow over an item's DICOM files. It keeps three fields: `files`, `index` and `first`.
   - `step` advances `index` cyclically and requests the file at the new index.
   - `handleFileList` sorts the listing by name and steps once.
   - The load callback picks the delay before the next step: 1000 if the file decoded, 1 otherwise.
   - The first decoded image runs the one-time window, level and camera setup.
   - The model records requested loads in `loads` and the chosen delays in `delays`.
   - The comparator `naturalSort` is a parameter `le`, required to be a total preorder.
   - The array sort is modelled by a stable insertion sort (`SortByName`), proved to return a sorted permutation.

Files:
- `js_values.dfy` (module `JsValues`): JavaScript values, truthiness, string conversion (which can throw), and reading the `type` property.
- `event_stream.dfy` (module `EventStreams`): the notification channel.
- `modular.dfy` (module `Modular`): facts about Euclidean division used by the slideshow proofs.
- `dicom_view.dfy` (module `DicomViewer`): the slideshow state.

Three behaviours of the channel's code are kept as written:
- `close` does not unregister the `onmessage` handler; it only calls `EventSource.close()` and drops the reference (`Connection.Close` keeps `listener`).
- The event type is not checked to be a string. `{"type": 5}` triggers `g:event.5`; an object without `type` triggers `g:event.undefined`.
- Calling `open` while a connection exists abandons that connection without closing it (`Open` ensures the old connection is unchanged).

The slideshow steps before it loads, so from the initial state the first file shown is `sorted[1 % n]`. With two or more files, the first file in sorted order is shown last in each cycle (`FirstCycleFromStart`). The model keeps this behaviour as written.

## Model

| member | source | states |
|---|---|---|
| `EventStreams.Defaults` | clients/web/src/utilities/EventStream.js:13-16 | The defaults have exactly the keys `timeout` and `streamPath`, with values null and "/notification/stream". |
| `EventStreams.Extend` | clients/web/src/utilities/EventStream.js:18 | Every key the caller supplies takes the caller's value, undefined included. Every default key the caller omits keeps its default. Keys come from both sides. A missing caller record leaves the defaults as they are. |
| `EventStreams.SettingsDefaults` | clients/web/src/utilities/EventStream.js:13-18 | An omitted `timeout` reads as null and an omitted `streamPath` reads as "/notification/stream"; every supplied key reads as the caller's value. |
| `EventStreams.EventStream.constructor` | clients/web/src/utilities/EventStream.js:12-21 | The new stream's settings are the caller's settings merged over the defaults. It has no connection and has triggered nothing. |
| `JsValues.Truthy` | clients/web/src/utilities/EventStream.js:30 | A value is truthy unless it is undefined, null, false, 0 or the empty string. |
| `JsValues.ToStr` | clients/web/src/utilities/EventStream.js:28-45 | Converting a value to a string throws only for an array or an object. An object throws exactly when it has its own `toString` key, since a parsed value is never callable; otherwise it prints as "[object Object]". A string converts to itself. |
| `JsValues.JoinConverted` | clients/web/src/utilities/EventStream.js:45 | Joining converted array elements throws exactly when one element's conversion threw; an empty array joins to "". |
| `JsValues.ArrayToStrThrows` | clients/web/src/utilities/EventStream.js:45 | Converting an array throws exactly when converting one of its non-null, non-undefined elements throws. |
| `EventStreams.StreamBase` | clients/web/src/utilities/EventStream.js:28 | `apiRoot + streamPath` throws exactly when the path cannot be converted. Otherwise it is the API root followed by the converted path. |
| `EventStreams.StreamUrl` | clients/web/src/utilities/EventStream.js:28-32 | Building the URL throws exactly when the path cannot be converted, or the timeout is truthy and cannot be converted. Otherwise the URL starts with the API root followed by the stream path. |
| `EventStreams.UrlQueryIffTruthy` | clients/web/src/utilities/EventStream.js:30-32 | A URL that was built is exactly root + path if and only if the timeout is falsy. Otherwise the rest of the URL is "?timeout=" followed by the timeout as a string. |
| `EventStreams.UrlTimeoutRecoverable` | clients/web/src/utilities/EventStream.js:30-31 | A positive integer timeout never makes the URL throw. The text after "?timeout=" is a decimal numeral that denotes the timeout. |
| `EventStreams.UrlWithTimeout30` | clients/web/src/utilities/EventStream.js:28-32 | With settings `{timeout: 30}` the URL is root + "/notification/stream?timeout=30". |
| `EventStreams.UrlWithoutTimeout` | clients/web/src/utilities/EventStream.js:30-32 | A timeout of null, undefined or 0, and the default settings, give root + "/notification/stream" with no query. |
| `JsValues.NaturalToString` | clients/web/src/utilities/EventStream.js:31 | Converting a natural number to text gives a non-empty digit string with no leading zero. It is one digit exactly when the number is below 10. |
| `JsValues.DecimalRoundTrip` | clients/web/src/utilities/EventStream.js:31 | Reading back the decimal text of a natural number gives the number. |
| `JsValues.NumberToString` | clients/web/src/utilities/EventStream.js:31 | An integer converts to a digit string, with a leading "-" when it is negative. |
| `JsValues.TypeField` | clients/web/src/utilities/EventStream.js:45 | Reading `obj.type` throws exactly when obj is null or undefined. It gives the object's `type` property when there is one, and undefined otherwise. |
| `EventStreams.TypeName` | clients/web/src/utilities/EventStream.js:45 | `obj.type` as a string throws for null or undefined obj. For an object with a `type` property it is that property converted, which may throw. Any other value gives "undefined". |
| `EventStreams.NotificationName` | clients/web/src/utilities/EventStream.js:45 | A notification name is "g:event." followed by the converted `type`. |
| `EventStreams.Handle` | clients/web/src/utilities/EventStream.js:36-46 | Every frame triggers exactly one event. It is a `g:event.` notification if and only if the frame parses to a value whose `type` can be read and converted. It is `g:error` with the raw message event if and only if not, and any such frame triggers exactly `g:error` carrying its own message event. |
| `EventStreams.SuccessfulParse` | clients/web/src/utilities/EventStream.js:38-45 | A frame that parses to a value v with a convertible `type` triggers exactly `("g:event." + v.type, v)` and no `g:error`. |
| `EventStreams.FailedParse` | clients/web/src/utilities/EventStream.js:40-44 | A frame that fails to parse triggers exactly one `g:error` carrying the message event, and no notification. |
| `EventStreams.HandleAsWritten` | clients/web/src/utilities/EventStream.js:36-46 | The handler as written throws if and only if the frame parses but its `type` cannot be read or converted: the value is null, or its `type` is an object with its own `toString` key or an array holding one. It then triggers nothing. On every other frame it triggers what `Handle` triggers. |
| `EventStreams.NullFrameAsWritten` | clients/web/src/utilities/EventStream.js:39-45 | The frame "null" triggers nothing and the handler throws; the corrected handler triggers `g:error` for it. |
| `EventStreams.UnprintableTypeAsWritten` | clients/web/src/utilities/EventStream.js:39-45 | The frame `{"type":{"toString":1}}` triggers nothing and the handler throws; the corrected handler triggers `g:error` for it. |
| `EventStreams.Emissions` | clients/web/src/utilities/EventStream.js:36-46 | With the corrected handler, a sequence of frames triggers exactly one event per frame. |
| `EventStreams.EmissionsAt` | clients/web/src/utilities/EventStream.js:36-46 | With the corrected handler, event i is the event triggered by frame i: nothing is dropped, duplicated or reordered. |
| `EventStreams.EmissionsAppend` | clients/web/src/utilities/EventStream.js:36-46 | With the corrected handler, handling the frames of a then those of b gives the events of a followed by those of b. |
| `EventStreams.EmissionsSnoc` | clients/web/src/utilities/EventStream.js:36-46 | With the corrected handler, one more frame appends its event to the events of the earlier frames. Since `OnMessage` appends one frame's event, a reader can conclude from the two contracts that `OnMessage` calls on frames f leave `old(log) + Emissions(f)`; no member states that. |
| `EventStreams.Connection.constructor` | clients/web/src/utilities/EventStream.js:34 | `new EventSource(url)` is an open connection to that URL with no handler yet. |
| `EventStreams.EventStream.Open` | clients/web/src/utilities/EventStream.js:25-50 | Without EventSource support, nothing changes and nothing is triggered. With support, `open` throws exactly when the URL cannot be built, and then nothing changes. Otherwise a fresh open connection to `StreamUrl` replaces `_eventSource` and carries this stream's handler. The previous connection is left unchanged, not closed. The log is unchanged. |
| `EventStreams.EventStream.OnMessage` | clients/web/src/utilities/EventStream.js:36-46 | The log grows by exactly the frame's event, and the connection field is unchanged. |
| `EventStreams.Connection.Close` | clients/web/src/utilities/EventStream.js:54 | `EventSource.close()` marks the connection closed and leaves its handler assigned. |
| `EventStreams.EventStream.Close` | clients/web/src/utilities/EventStream.js:52-57 | Afterwards there is no connection. A connection that existed is now closed. With no connection, nothing changes, so a second `close` is a no-op. The log is unchanged. |
| `DicomViewer.DicomView.constructor` | plugins/dicom_viewer/web_external/js/main.js:33-37 | Initial state: no files, index 0, `first` set, nothing loaded or scheduled. |
| `DicomViewer.NextIndex` | plugins/dicom_viewer/web_external/js/main.js:47 | The next index is below the file count. |
| `DicomViewer.DicomView.Step` | plugins/dicom_viewer/web_external/js/main.js:43-50 | With no files, nothing changes and nothing is requested. Otherwise the index becomes `(index + 1) % n`, stays below n, and the file at the new index is requested. The list and the flag are untouched, so the at-most-once setup invariant is kept. |
| `DicomViewer.Cycle` | plugins/dicom_viewer/web_external/js/main.js:47-49 | k successive steps request k files, each at an index below n. |
| `DicomViewer.CycleAt` | plugins/dicom_viewer/web_external/js/main.js:47-49 | The j-th of k successive steps from index i requests file `(i + j + 1) % n`. |
| `DicomViewer.IndexAfter` | plugins/dicom_viewer/web_external/js/main.js:47 | After k > 0 steps the index is below n; after none it is the starting index. |
| `DicomViewer.CycleSnoc` | plugins/dicom_viewer/web_external/js/main.js:47-49 | One more step appends the successor of the index reached after k steps, and after k > 0 steps that index is `(i + k) % n`. Since `Step` moves to `NextIndex`, a reader can conclude from the two contracts that repeated `Step` calls follow `Cycle`; no member states that. |
| `DicomViewer.CycleVisitsEachOnce` | plugins/dicom_viewer/web_external/js/main.js:47-49 | Any n successive steps request every index below n, and request no index twice. |
| `DicomViewer.FirstCycleFromStart` | plugins/dicom_viewer/web_external/js/main.js:36-49 | From index 0 the first step requests file `1 % n`, and the n-th step requests file 0. |
| `DicomViewer.Insert` | plugins/dicom_viewer/web_external/js/main.js:64 | Inserting x gives the list's elements plus x, as a multiset, one longer. |
| `DicomViewer.InsertSorted` | plugins/dicom_viewer/web_external/js/main.js:64 | Under a total preorder, inserting into a sorted list keeps it sorted. |
| `DicomViewer.SortByName` | plugins/dicom_viewer/web_external/js/main.js:64 | Sorting by name gives a permutation of the listing that is sorted under the comparator. |
| `DicomViewer.DicomView.HandleFileList` | plugins/dicom_viewer/web_external/js/main.js:63-67 | The stored list is a sorted permutation of the listing. Then exactly one step happens, so the file at `(old index + 1) % n` is requested when the list is non-empty. The at-most-once setup invariant is kept. |
| `DicomViewer.DicomView.SetImageData` | plugins/dicom_viewer/web_external/js/main.js:102-123 | Afterwards `first` is cleared. The one-time setup runs only if `first` was set, so it runs at most once per view. |
| `DicomViewer.DicomView.OnLoad` | plugins/dicom_viewer/web_external/js/main.js:74-89 | The next step is scheduled with delay 1000 if the file decoded and 1 if decoding threw. Only a decoded file reaches the image setup, which keeps the at-most-once invariant. |

## Findings

| source | as written | input that shows it | evidently intended | confidence | as-written member | corrected member |
|---|---|---|---|---|---|---|
| clients/web/src/utilities/EventStream.js:45 | `obj.type` is read outside the `try` block. `JSON.parse` can return null, and reading a property of null throws a TypeError out of the handler. | a frame whose data is `null` | a frame that is not a typed notification triggers `g:error` and the handler returns normally, like a frame that fails to parse | not executed; medium | `EventStreams.NullFrameAsWritten` | `EventStreams.Handle` |
| clients/web/src/utilities/EventStream.js:45 | `'g:event.' + obj.type` is also outside the `try` block. Converting an object parsed from JSON that has its own `toString` key throws a TypeError, because the key's value is not callable. An array holding such an object throws the same way. | a frame whose data is `{"type":{"toString":1}}` | such a frame triggers `g:error` and the handler returns normally | not executed; medium | `EventStreams.UnprintableTypeAsWritten` | `EventStreams.Handle` |

`EventStream.OnMessage`, `Emissions` and the lemmas about `Emissions` use the corrected handler. A frame that parses to null, or whose `type` cannot be converted to a string, triggers `g:error`. On every frame where the source's handler returns normally, the model triggers what the source triggers (`HandleAsWritten`).

## Left out

- vtk.js rendering is not modelled because it is foreign library and presentation code. This covers the renderer, window, interactor, camera, mapper, actor, `initVtk` and `render`. `SetImageData` models only the `first` flag and counts runs of the one-time setup.
- DICOM decoding is not modelled: `dicomParser.parseDicom`, `createImageData`, the Float32 scaling by 128 and the window width and centre arithmetic. They rely on a foreign API and floating point. `OnLoad` takes a flag saying whether decoding returned without throwing.
- HTTP and REST I/O are not modelled: `XMLHttpRequest`, `girder.restRequest` in `loadFileList`, the `girder.wrap` hook on `ItemView` and the DOM insertion. A requested load is an entry in `loads`.
- `setTimeout` timing is not modelled. A scheduled step is an entry in `delays`; running it is a later `Step` call.
- The internals of `naturalSort` are not modelled. It is the parameter `le`, required to be total and transitive.
- `SortByName`: stability is not proved. It is a stable insertion sort, but the model only proves it sorted and a permutation. Modern `Array.prototype.sort` is stable, so equal names could differ in order only if the sort were not.
- The server-sent-events transport is not modelled: frame delivery, reconnection, and whether a closed `EventSource` still delivers frames. `OnMessage` is the handler itself, run on one frame.
- Backbone.Events internals are not modelled: listener registration, unregistration and invocation order. `trigger` is an append to `log`.
- The `console.error` and `console.log` diagnostics are not modelled because they have no effect on state.
- JavaScript numbers are modelled as integers only. Fractions, NaN, infinities and the exponent notation of very large numbers are not represented.
- `new EventSource(url)` throwing on a malformed URL is not modelled.
- Caller settings holding functions, or objects with a callable `toString` or `valueOf`, are not modelled. Values are JSON-like, so an object's own `toString` key is never callable.
- `_.extend` applied to a caller argument that is not a plain object (a string or an array) is not modelled. The caller's settings are either absent or a record.
