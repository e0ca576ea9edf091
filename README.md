# OpenStreetmapMarker issue map: a Dafny model of its state logic

The application lets a user place issue markers on a map by clicking. It
describes each issue in a text field, and it shows a summary of the placed
issues. This project models the three pieces of the front end that hold state
or compute something from it:

- **Issue summary** (`issue_summary.dfy`, module `IssueSummary`). This is
  `IssueWidget`. It makes one pass over a list of `{issue, description}`
  records and fills two dictionaries: how many records carry each issue, and
  their descriptions in input order. It then lists every issue once with its
  count and descriptions. The pass is a `method` with a loop. It is proved
  equal to fold functions, and lemmas tie those folds to definitions that do
  not depend on them: the set of issues that occur, the multiset of issues,
  and the increasing list of indices that carry an issue. The model also
  includes the dictionaries as the code writes them, as plain JavaScript
  objects (see Findings).
- **Map component** (`map_component.dfy`, module `MapComponent`). This is
  `MapComponent`. It is a class with the two state cells, the marker list and
  the description draft, and a method for each of their handlers: typing
  replaces the draft, and a map click appends a marker and clears the draft.
  A read-only method draws one pin per marker, numbered by list position.
  Lemmas show two things about the numbering. The pin a click draws right
  away is the same as the last pin of the redraw that follows it. The numbers
  run from 1 to n with no gaps.
- **Location hook** (`geo_location.dfy`, module `GeoLocation`). This is
  `useGeoLocation`. It is a class with one `LocationState` field that the
  success and error callbacks overwrite. The error record's flag mapping is a
  function whose contract states the code-to-flag correspondence. Lemmas over
  any sequence of callbacks show that the last callback decides the state,
  that `loaded` never goes back to false, and that a state never holds both a
  position and an error.

`IssueWidget` takes its records as a value (`seq`). The model therefore never
changes its input, just as the widget only reads its `markers` prop.

Markers carry only the description text, a click always adds a marker, and
the only numbering is the popup label `index + 1`.

## Model

| member | source | states |
|---|---|---|
| IssueSummary.Aggregate | src/IssueWidget.tsx:9-18 | The loop over the records ends with both dictionaries keyed by exactly the issues that occur. Each count is that issue's multiplicity among the input issues, and each description list is the input filtered to that issue, in input order. The key list holds the issues in insertion order (first occurrence), and it and both dictionaries equal the fold specifications for the whole input. Keys are looked up among the dictionaries' own entries |
| IssueSummary.SummaryKeys | src/IssueWidget.tsx:9-18 | Both dictionaries have as keys exactly the issues that occur in the input. Every count equals the length of that issue's description list and is positive. Only the empty input gives empty dictionaries |
| IssueSummary.CountIsMultiplicity | src/IssueWidget.tsx:13-15 | An issue's count is its multiplicity in the multiset of input issues. An issue that is no key does not occur |
| IssueSummary.DescriptionsInInputOrder | src/IssueWidget.tsx:13-17 | The descriptions listed for an issue are those of exactly the records carrying it, taken in increasing index order |
| IssueSummary.DescriptionsForIsFilter | src/IssueWidget.tsx:16-17 | The list kept in the dictionary for an issue equals the input filtered to that issue, projected to descriptions |
| IssueSummary.CountsSumToLength | src/IssueWidget.tsx:13-15 | The counts of the listed issues add up to the number of input records |
| IssueSummary.AppendRecord | src/IssueWidget.tsx:13-17 | One more record at the end increments only its issue's count (from 0 if new) and appends its description only to that issue's list. The key list, kept in insertion order, grows by that issue at its end only when it is new. All other entries are unchanged |
| IssueSummary.IssueKeysListEachIssueOnce | src/IssueWidget.tsx:13-24 | The key list (`Object.keys(countByIssue)`) has no repeats and contains exactly the issues of the input |
| IssueSummary.KeysCardinality | src/IssueWidget.tsx:13-24 | The key list is as long as the set of distinct issues |
| IssueSummary.SummaryListsEachIssueOnce | src/IssueWidget.tsx:24-33 | The rendered list has one item per distinct issue and no other. Each item's count equals the number of its descriptions, and its descriptions are that issue's dictionary entry |
| IssueSummary.RenderedItems | src/IssueWidget.tsx:24-28 | Rendering distinct keys gives items in key order with distinct issues, each carrying its key's count and description list |
| IssueSummary.RenderSummary | src/IssueWidget.tsx:24-33 | The rendered list has one item per listed key, in the order given. Each item carries its key's count from `countByIssue` and its description list from `descriptionsByIssue` |
| IssueSummary.AggregateAsWritten | src/IssueWidget.tsx:9-18 | With plain `{}` objects as dictionaries, the loop throws exactly when some input record's issue is an inherited `Object.prototype` name. When it completes, both dictionaries have the same keys and none of them is an inherited name |
| IssueSummary.AsWrittenThrowsOnInheritedName | src/IssueWidget.tsx:15-17 | With plain `{}` dictionaries, one record whose issue is "toString" makes the loop throw. The own-key dictionaries count that issue once |
| IssueSummary.AsWrittenCharacterised | src/IssueWidget.tsx:9-18 | The loop on plain objects throws exactly when some input issue is an `Object.prototype` member name. Otherwise it yields the same dictionaries and the same key list, in insertion order, as the own-key model |
| MapComponent.MapComponent.constructor | src/MapComponent.tsx:14-15 | The component starts with no markers and an empty description |
| MapComponent.MapComponent.OnDescriptionChange | src/MapComponent.tsx:63 | Typing sets the draft to the field's value and leaves the marker list unchanged |
| MapComponent.MapComponent.OnMapClick | src/MapComponent.tsx:35-43 | A click at (lat, lng) makes the list the old list followed by exactly one marker at that point carrying the old draft, even an empty one. It clears the draft and draws a pin numbered with the new list length. The redraw's pins are the old pins plus that pin |
| MapComponent.MapComponent.DrawMarkers | src/MapComponent.tsx:27-32 | Redrawing gives exactly one pin per marker in list order. The marker at index i is numbered i + 1 and shows its issue text |
| MapComponent.ClickPinMatchesRedraw | src/MapComponent.tsx:27-43 | The pins for a list with one marker appended are the pins for the old list plus one pin for the new marker, numbered with the new list length |
| MapComponent.PinNumbersAreConsecutive | src/MapComponent.tsx:27-31 | The popup numbers are strictly increasing in list order, and the numbers that occur are exactly 1 to n |
| GeoLocation.ErrorState | src/useGeoLocation.tsx:36-47 | The error record is loaded, has empty coordinates, and copies the code and message. `PERMISSION_DENIED` is set (to 1) iff the code is 1, `POSITION_UNAVAILABLE` (to 2) iff it is 2, and `TIMEOUT` (to 3) iff it is 3. At most one flag is set |
| GeoLocation.UnsupportedSetsNoFlag | src/useGeoLocation.tsx:51-55 | Missing geolocation is reported as loaded, with empty coordinates, code 0, message "Geolocation not supported" and no flag |
| GeoLocation.LastCallbackWins | src/useGeoLocation.tsx:26-48 | After any sequence of callbacks the state is the one the last callback stores. Once a callback has fired, `loaded` is true and stays true |
| GeoLocation.ReachableStatesAreConsistent | src/useGeoLocation.tsx:21-48 | Every state reachable from the initial one is either the initial state (not loaded), a success state with no error, or a loaded error state with empty coordinates and at most one flag |
| GeoLocation.GeoLocationHook.constructor | src/useGeoLocation.tsx:21-24 | The hook starts not loaded, with coordinates `{lat: "", lng: ""}` and no error |
| GeoLocation.GeoLocationHook.OnSuccess | src/useGeoLocation.tsx:26-34 | `onSuccess` stores loaded, the position's coordinates, and no error field |
| GeoLocation.GeoLocationHook.OnError | src/useGeoLocation.tsx:36-48 | `onError` overwrites the state with the error record for its code and message |
| GeoLocation.GeoLocationHook.CheckSupport | src/useGeoLocation.tsx:50-56 | Without geolocation support the state becomes the code-0 "Geolocation not supported" error. With support it is unchanged |

## Findings

| source | as written | input that shows it | evidently intended | confidence | as-written member | corrected member |
|---|---|---|---|---|---|---|
| src/IssueWidget.tsx:9-17 | Both dictionaries are plain `{}` objects. `descriptionsByIssue[issue] \|\| []` therefore finds an inherited `Object.prototype` member for issues such as "toString", "constructor" or "__proto__". That value is truthy and has no `push`, so line 17 throws a TypeError and the widget fails to render | markers `[{issue: "toString", description: "broken lamp"}]` | Count and list any issue text. Look keys up among own entries only, e.g. with a `Map`, `Object.create(null)` or a `hasOwnProperty` test | not executed; high (follows from JavaScript property lookup) | IssueSummary.AsWrittenThrowsOnInheritedName | IssueSummary.Aggregate |

The description text typed in `MapComponent` becomes a marker's issue. A
user can therefore produce such an issue name. `IssueWidget` is not mounted
by `App.tsx` in this repository, so the failure shows only once the widget is
used.

## Left out

- Leaflet: map creation and removal, the tile layer, `L.marker(...).addTo(map)`, the click subscription and `preventDefault`/`stopPropagation` are foreign library calls. A drawn pin is modelled as a value holding its point, popup number and issue text.
- Popup HTML: the popup is an HTML string with a fixed image and the issue text inserted unescaped. The model keeps the number and text only, so markup injection through the description is not modelled.
- Coordinates are carried as `real` values and never computed with. Floating-point behaviour, and the `.toString()` the location hook applies to the position's numbers, are left out: `OnSuccess` receives the text directly.
- The browser position request and its asynchrony are left out. So is the call order of the mount effect. In particular, `getCurrentPosition` is still called after the unsupported branch (src/useGeoLocation.tsx:57), which would throw when `navigator.geolocation` is missing. Only the state each callback stores is modelled.
- React mechanics are left out: `useState`, the effect's re-run on every state change, and JSX. The click handler is modelled on the current state. The effect re-registers the handler after every change, so the state it captures is current.
- IssueSummary.Aggregate, IssueSummary.AppendRecord, IssueSummary.AsWrittenCharacterised, IssueSummary.RenderSummary: the key list (`Object.keys(countByIssue)`, src/IssueWidget.tsx:24) is modelled in insertion order. JavaScript lists array-index-like keys such as "0" or "17" first, in ascending numeric order, and only then the other keys in insertion order. For records with issues "b" then "1" the model gives ["b", "1"], where `Object.keys` gives ["1", "b"]. So the order of the rendered summary is exact only when no issue is such a key. The key set, its lack of repeats and every count and description list are unaffected.
- IssueSummary.Aggregate: the two statements at lines 16-17 are modelled as one update. Storing `descriptionsByIssue[issue] || []` and then pushing onto it is modelled as storing the old list with the description appended. The in-place `push` on a shared array is not modelled as aliasing.
- `App.tsx` (photo previews through object URLs, the multipart upload, logging, styles) is I/O with no state logic and is not part of this model.
