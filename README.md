# Radio repeaters map: the data rules of the map screen

The app draws radio repeaters from a bundled dataset on a map. Users filter
the markers by status and by frequency band, and tap a marker to open an info
window. This project models the logic under that screen, all of it in
`MainActivity.kt`:

- **Records** (`repeaters.dfy`, module `Repeaters`): `RepeaterItem` with the
  declared defaults. `Find` is the first-match lookup by callsign that turns
  a clicked marker back into the first record carrying the marker's name.
- **Feature mapper** (`features.dfy`, module `Features`): `ToFeatures` is the
  `mapNotNull` that turns records into point features. A record is kept only
  when it has at least two coordinates. The point is (longitude =
  `coordinates[1]`, latitude = `coordinates[0]`). The property bag holds
  exactly name, tx_freq, rx_freq and status.
- **Filter compiler** (`filters.dfy`, module `Filters`): `CompileFilter` is
  a method that builds the list of status tests and the list of frequency
  tests by conditional appends. It returns constant false when either list
  is empty, and otherwise all(any(status tests), any(frequency tests)). The
  filter is a `Filter` value that `Matches` evaluates against a feature's
  properties. `Passes` is the reference meaning, written from the band
  table: 70cm (420, 450), 2m (144, 146), 6m (50, 54), 10m (28, 29.7) MHz,
  all open intervals, with case-sensitive status labels "working", "off",
  "planned".
- **Screen state** (`screen.dfy`, module `Screen`): class `MapScreen` holds
  the loaded records, the selected record and the seven checkboxes. Its
  methods are the transitions: load, click, dismiss, checkbox change.
- **CTCSS display** (`ctcss.dfy`, module `Ctcss`): `FormatCtcss` takes the
  rendered text of the tone element, removes every `"`, and shows `false`
  and `null` as "None".
- `wrappers.dfy` holds the `Option` type, which stands for Kotlin's nullable
  references.

Frequencies and coordinates are `real` (MHz and degrees).
A CTCSS element is given by the text it renders to. `None` stands for Kotlin's
null, which the decoder produces for an absent key and for an explicit JSON
`null`; Kotlin renders it as `null`.

## Model

| member | source | states |
|---|---|---|
| Repeaters.Find | app/src/main/java/com/example/repeatersmap/MainActivity.kt:494 | none exactly when no record has the callsign; otherwise a record that is the first one with that callsign |
| Repeaters.FirstMatchUnique | app/src/main/java/com/example/repeatersmap/MainActivity.kt:494 | the first match is unique, so the lookup is determined by the list even when callsigns repeat |
| Repeaters.FindOwnCallsign | app/src/main/java/com/example/repeatersmap/MainActivity.kt:494 | with unique callsigns, looking up a record's own callsign returns that record |
| Features.ToFeatures | app/src/main/java/com/example/repeatersmap/MainActivity.kt:332-350 | output length at most input length, and equal exactly when every record has at least two coordinates |
| Features.ToFeaturesIsOrderedFilter | app/src/main/java/com/example/repeatersmap/MainActivity.kt:332-350 | the output is the input filtered, in order, to records with at least two coordinates; each feature has longitude coordinates[1], latitude coordinates[0], and name/tx/rx/status copied from its record |
| Features.ToFeaturesAppend | app/src/main/java/com/example/repeatersmap/MainActivity.kt:332-350 | records are mapped independently: mapping a concatenation gives the concatenation of the mapped parts |
| Features.ToFeaturesAllPlaced | app/src/main/java/com/example/repeatersmap/MainActivity.kt:332-346 | when every record has a position, feature k is the feature of record k |
| Features.DefaultItemDropped | app/src/main/java/com/example/repeatersmap/MainActivity.kt:121-131 | the record with every field at its declared default (empty callsign and status, zero frequencies, no coordinates) gets no marker |
| Features.DropsUnplaced | app/src/main/java/com/example/repeatersmap/MainActivity.kt:333-349 | a record with fewer than two coordinates yields no feature |
| Filters.AnyHoldsExists | app/src/main/java/com/example/repeatersmap/MainActivity.kt:475-478 | `any` over a list of tests holds exactly when some test in the list holds |
| Filters.AnyHoldsAppend | app/src/main/java/com/example/repeatersmap/MainActivity.kt:452-471 | appending a test to the list adds exactly one alternative to its `any` |
| Filters.StatusFilters | app/src/main/java/com/example/repeatersmap/MainActivity.kt:452-456 | the status list holds one equality test per checked status, in checkbox order; it is empty exactly when no status is checked, and its `any` holds exactly when the status equals a checked label |
| Filters.FrequencyFilters | app/src/main/java/com/example/repeatersmap/MainActivity.kt:458-471 | the band list holds one open-interval test per checked band, in checkbox order (70cm, 2m, 6m, 10m); it is empty exactly when no band is checked, and its `any` holds exactly when tx_freq is strictly inside a checked band |
| Filters.CompileFilter | app/src/main/java/com/example/repeatersmap/MainActivity.kt:452-479 | the filter is constant false exactly when all statuses or all bands are unchecked, and it accepts a feature exactly when its status is a checked label and its tx_freq is strictly inside a checked band |
| Filters.EmptyGroupRejectsAll | app/src/main/java/com/example/repeatersmap/MainActivity.kt:472-473 | with every status or every band unchecked, no feature passes |
| Filters.CheckingIsMonotone | app/src/main/java/com/example/repeatersmap/MainActivity.kt:452-479 | checking one more box never hides a feature that passed |
| Filters.BandEndpointsExcluded | app/src/main/java/com/example/repeatersmap/MainActivity.kt:462-464 | with every status and only the 2m band checked, a working repeater at 144.0 or 146.0 is rejected and one at 145.5 is accepted |
| Filters.DefaultsShowWorking2m | app/src/main/java/com/example/repeatersmap/MainActivity.kt:317-324 | under the initial all-checked toggles, a working repeater at 145.6 passes, and no status other than "working", "off" and "planned" ("testing", for one) passes at any frequency |
| Ctcss.StripQuotes | app/src/main/java/com/example/repeatersmap/MainActivity.kt:624 | the result has no `"`, is no longer than the input, and a character other than `"` occurs in it exactly when it occurs in the input |
| Ctcss.StripQuotesKeepsQuoteFree | app/src/main/java/com/example/repeatersmap/MainActivity.kt:624 | text without quotes is unchanged |
| Ctcss.StripQuotesIdempotent | app/src/main/java/com/example/repeatersmap/MainActivity.kt:624 | removing quotes twice is removing them once |
| Ctcss.StripQuotesAppend | app/src/main/java/com/example/repeatersmap/MainActivity.kt:624 | quote removal distributes over concatenation |
| Ctcss.FormatCtcss | app/src/main/java/com/example/repeatersmap/MainActivity.kt:623-629 | the result has no `"`; an absent tone gives "None"; the result is "None" or the quote-free text; it is "None" exactly when the quote-free text is `false`, `null` or `None` |
| Ctcss.FormatCtcssExamples | app/src/main/java/com/example/repeatersmap/MainActivity.kt:623-629 | a quoted tone shows unquoted; `false`, `null` and an absent tone show "None" |
| Screen.MapScreen.constructor | app/src/main/java/com/example/repeatersmap/MainActivity.kt:314-324 | initial state: no records, no selection, all seven boxes checked |
| Screen.MapScreen.Loaded | app/src/main/java/com/example/repeatersmap/MainActivity.kt:326-328 | the load result replaces the record list; selection and boxes are unchanged |
| Screen.MapScreen.OnClick | app/src/main/java/com/example/repeatersmap/MainActivity.kt:490-497 | a click naming a feature selects the first record with that callsign, or none; a click with no name leaves the selection unchanged; nothing else changes |
| Screen.MapScreen.Dismiss | app/src/main/java/com/example/repeatersmap/MainActivity.kt:512-527 | background tap or close icon: the selection becomes none; nothing else changes |
| Screen.MapScreen.SetChecked | app/src/main/java/com/example/repeatersmap/MainActivity.kt:390-431 | one checkbox takes the new value; records and selection are unchanged |
| Screen.MapScreen.CurrentFilter | app/src/main/java/com/example/repeatersmap/MainActivity.kt:451-479 | the layer's filter accepts exactly the features that pass the current boxes |
| Screen.ClickedName | app/src/main/java/com/example/repeatersmap/MainActivity.kt:491-492 | none for a click that hits no feature, otherwise the first clicked feature's name |
| Screen.MapScreen.RenderedFeatures | app/src/main/java/com/example/repeatersmap/MainActivity.kt:331-352 | the screen's features number at most its records, and exactly as many when every record has at least two coordinates |
| Screen.ClickOnRenderedMarker | app/src/main/java/com/example/repeatersmap/MainActivity.kt:490-497 | a click whose hit list (any list) starts with a rendered marker always finds a record, and that record's callsign is the marker's name |
| Screen.ClickFindsSourceRecord | app/src/main/java/com/example/repeatersmap/MainActivity.kt:490-497 | clicking any map feature always finds a record with the feature's name; with unique callsigns it finds the record the feature was built from |
| Screen.SingleRepeaterScenario | app/src/main/java/com/example/repeatersmap/MainActivity.kt:331-479 | one working repeater at 145.6 MHz becomes one feature with its four properties; it passes with only working and 2m checked, and fails with only working and 70cm checked |

## Left out

- `loadRepeatersFromAssets` (lines 147-170) reads the asset store on the IO dispatcher. It decodes through kotlinx.serialization with lenient, coercing settings, which is library behaviour. It yields an empty list on any failure. `MapScreen.Loaded` takes its result as a parameter.
- The GeoJSON text (`FeatureCollection(...).toJson()`, line 351) and MapLibre's evaluation of the expression DSL are library code. Features and the filter are Dafny values; `Matches` states the meaning of `all`, `any`, `eq`, `gt` and `lt`.
- Floating point: frequencies are exact reals. The constants in the source are float32 (`29.7f` is slightly above 29.7), while the feature frequencies are doubles. The model does not say what happens exactly at a band edge under IEEE-754 rounding.
- `JsonElement.toString()` rendering is library code. `FormatCtcss` starts from the rendered text. Kotlin's null element renders as `null`.
- `jsonPrimitive.content` (line 492): the model takes a clicked feature's name to be the callsign it was built with. A feature whose properties have no name is not modelled separately from a click that hits no feature.
- All Compose UI: the drawer and navigation, the info and about screens, the bottom sheet, `CustomInfoWindow`, `InfoLabelValue`, the "Loading data.." box, the camera start point and the tile style. This is presentation only. The status colour in the info window (case-insensitive "working") is part of that.
- The `LaunchedEffect` coroutine and recomposition (`remember` keys) are not modelled. The mapper and the filter compiler are modelled as functions of the state they read.
