# ToiletFinder map screen, modelled in Dafny

ToiletFinder is a one-screen Android app. It shows Copenhagen's public toilets
on a Google map. When the map is ready, `MapsActivity`:

- reads a bundled GeoJSON feature collection;
- turns every feature into a `Toilet` record (a name, coordinates, opening
  hours and a three-state handicap flag);
- places one marker per toilet, whose snippet is an accessibility label, a
  line break and the opening hours;
- installs a popup adapter that splits that snippet back into two lines;
- enables the "my location" layer, directly or after a runtime permission
  request.

This project models that logic and proves what it does. It has five modules:

- `Wrappers` (`wrappers.dfy`): `Option`, which stands for Kotlin's nullable
  types. `GetOr` is the elvis operator `?:`.
- `KotlinText` (`kotlin_text.dfy`): the standard-library string functions the
  activity calls.
  - `isBlank`/`isNotBlank`, over a fixed whitespace predicate: the JVM's
    `Character.isWhitespace || Character.isSpaceChar`.
  - `equals(ignoreCase = true)`, on ASCII letters.
  - `split` on a one-character delimiter, with Kotlin's behaviour: `""` splits
    into `[""]`, and trailing empty pieces are kept.
  - Lemmas: splitting and joining are inverse, and the first piece is the text
    up to the first delimiter.
- `Toilets` (`toilets.dfy`):
  - the data classes `Properties`, `Feature`, `Geometry`,
    `ToiletFeatureCollection`, `Toilet`;
  - the name fallback and the handicap flag;
  - the transform loop, as a method that is proved against `ToToilet`;
  - the accessibility label, the marker snippet and the marker of a toilet.
- `InfoWindow` (`info_window.dfy`):
  - the popup view, as a class whose text and visibility fields are updated in
    place;
  - `CustomInfoWindowAdapter.setInfoWindowText`, and a pure `DecodeSnippet`
    that specifies it;
  - the encode/decode round trip from a toilet to its popup.
- `Maps` (`maps_activity.dfy`):
  - the map, as a class holding its markers, its popup adapter and its
    location layer;
  - the activity, as a class holding its `lateinit` map and the permission
    requests it has launched;
  - `onMapReady`, the marker loop, `askLocationPermissionIfNeeded`, the
    permission callback and `enableMyLocation`.

A Kotlin `Double` is kept as its 64-bit pattern (`Toilets.Double`). The model
only copies coordinates, so nothing numeric is needed. Reading the asset is
I/O, so it is an `Option<string>` input. Gson's `fromJson` is foreign code, so
it is a function parameter that yields an optional collection. The four
permission answers are inputs too: the two `checkSelfPermission` results and
the map of grants delivered to the callback.

## Model

| member | source | states |
|---|---|---|
| Wrappers.Option.GetOr | app/src/main/java/com/example/toiletfinder/MapsActivity.kt:191-193 | the elvis operator `?:` gives the value when present and the default when null |
| KotlinText.IsWhitespace | app/src/main/java/com/example/toiletfinder/MapsActivity.kt:191 | ASCII letters and digits are never whitespace; space, tab, line feed and carriage return are |
| KotlinText.IsBlank | app/src/main/java/com/example/toiletfinder/MapsActivity.kt:191 | a text is blank exactly when every character in it is whitespace (the empty text included) |
| KotlinText.IsNotBlank | app/src/main/java/com/example/toiletfinder/MapsActivity.kt:191-192 | `isNotBlank` holds exactly when some character is not whitespace |
| KotlinText.AsciiUpper | app/src/main/java/com/example/toiletfinder/MapsActivity.kt:198 | lower-case ASCII letters map to their upper-case letter; every other character is left as it is |
| KotlinText.EqualsIgnoreCase | app/src/main/java/com/example/toiletfinder/MapsActivity.kt:198 | texts equal ignoring case have the same length, and equal texts are equal ignoring case |
| Toilets.TakeIfNotBlank | app/src/main/java/com/example/toiletfinder/MapsActivity.kt:191 | `?.takeIf { it.isNotBlank() }` keeps a candidate exactly when it is present and not blank, and then keeps it unchanged |
| Toilets.ToiletsOf | app/src/main/java/com/example/toiletfinder/MapsActivity.kt:189 | the `forEach` over the features gives one record per feature, the i-th built from the i-th feature |
| Toilets.MarkersFor | app/src/main/java/com/example/toiletfinder/MapsActivity.kt:205 | the `forEach` over the toilets gives one marker per toilet, the i-th being the marker of the i-th toilet |
| InfoWindow.VisibilityOf | app/src/main/java/com/example/toiletfinder/MapsActivity.kt:44 | a line is `VISIBLE` exactly when its text is non-empty, otherwise `GONE` |
| InfoWindow.GetOrNull | app/src/main/java/com/example/toiletfinder/MapsActivity.kt:43 | `getOrNull(i)` is present exactly for an index in range, and then it is that piece |
| Maps.GoogleMap.constructor | app/src/main/java/com/example/toiletfinder/MapsActivity.kt:151-153 | the map handed to `onMapReady` starts with no markers, no popup adapter and the location layer off |
| Maps.AlreadyGranted | app/src/main/java/com/example/toiletfinder/MapsActivity.kt:237 | a permission request is needed exactly when both fine and coarse location are denied |
| KotlinText.Split | app/src/main/java/com/example/toiletfinder/MapsActivity.kt:34 | `split("\n")` never returns an empty list, and no piece contains the delimiter |
| KotlinText.JoinSplit | app/src/main/java/com/example/toiletfinder/MapsActivity.kt:34 | joining the pieces with the delimiter gives back the original text |
| KotlinText.SplitJoin | app/src/main/java/com/example/toiletfinder/MapsActivity.kt:34 | splitting a join of delimiter-free pieces gives back exactly those pieces |
| KotlinText.SplitWithoutDelimiter | app/src/main/java/com/example/toiletfinder/MapsActivity.kt:34 | a text without the delimiter splits into one piece, the text itself |
| KotlinText.SplitAfterDelimiter | app/src/main/java/com/example/toiletfinder/MapsActivity.kt:214 | a delimiter-free head, then the delimiter, then anything: the head is the first piece and the rest splits as it would alone |
| KotlinText.SplitHead | app/src/main/java/com/example/toiletfinder/MapsActivity.kt:34 | piece 0 is the text up to the first delimiter; there is one piece exactly when the text has no delimiter; otherwise the later pieces are those of the text after the first delimiter |
| Toilets.ResolveName | app/src/main/java/com/example/toiletfinder/MapsActivity.kt:191-193 | the name is never blank; it is the placeholder `"Ukendt toilet"` or one of the two candidates, untrimmed |
| Toilets.FirstNonBlank | app/src/main/java/com/example/toiletfinder/MapsActivity.kt:191-193 | reference rule "first usable candidate, else the fallback": with no usable candidate the result is the fallback; otherwise it is the first usable candidate |
| Toilets.ResolveNameIsFirstNonBlank | app/src/main/java/com/example/toiletfinder/MapsActivity.kt:191-193 | the activity's name expression equals the first non-blank of `[toiletLokalitet, vejnavnHusnummer]`, falling back to `"Ukendt toilet"` |
| Toilets.NameFallbackOrder | app/src/main/java/com/example/toiletfinder/MapsActivity.kt:191-193 | a usable primary name wins; else a usable secondary name; else the placeholder |
| Toilets.EqualsJaIgnoringCase | app/src/main/java/com/example/toiletfinder/MapsActivity.kt:198 | `equals("Ja", ignoreCase = true)` holds exactly for `"Ja"`, `"ja"`, `"JA"` and `"jA"` |
| Toilets.HandicapFlag | app/src/main/java/com/example/toiletfinder/MapsActivity.kt:198 | the flag is null exactly when `handicapAdgang` is null; it is true exactly for a spelling of "Ja"; any other present text, `"Nej"` included, gives false |
| Toilets.ToToilet | app/src/main/java/com/example/toiletfinder/MapsActivity.kt:190-201 | the record's name is the resolved, never blank name; its flag is the handicap flag of `handicapAdgang` (null exactly when that is null); lat/lng are `properties.latitude`/`longitude`; the opening hours are `aabningstidDoegn` |
| Toilets.ToToiletIgnoresGeometry | app/src/main/java/com/example/toiletfinder/MapsActivity.kt:196-197 | the record does not depend on the feature's geometry or type: coordinates come only from the properties |
| Toilets.ScenarioBlankPrimaryName | app/src/main/java/com/example/toiletfinder/MapsActivity.kt:190-201 | primary `"  "`, secondary `"Main St 5"`, `"Ja"`, `"00-24"` give `Toilet("Main St 5", lat, lng, "00-24", true)` |
| Toilets.TransformFeatures | app/src/main/java/com/example/toiletfinder/MapsActivity.kt:188-202 | the loop's list has the length of `features`, and its i-th record is the one built from the i-th feature |
| Toilets.HandicapLabel | app/src/main/java/com/example/toiletfinder/MapsActivity.kt:207 | the label is `"Handicapvenlig"` exactly when the flag is true, and `"Ikke handicapvenlig"` for false and for null; it is non-empty and has no line break |
| Toilets.Snippet | app/src/main/java/com/example/toiletfinder/MapsActivity.kt:214 | split on `"\n"`, the snippet is the label followed by the pieces of the opening hours; the pieces after the first join back to the opening hours |
| Toilets.MarkerFor | app/src/main/java/com/example/toiletfinder/MapsActivity.kt:206-215 | the marker of a toilet stands at `LatLng(lat, lng)`, is titled with its name, and its snippet is the toilet's label-newline-hours snippet |
| InfoWindow.DecodeSnippet | app/src/main/java/com/example/toiletfinder/MapsActivity.kt:34-47 | a snippet hides both lines exactly when it is null; a non-null snippet always reaches the two-line branch |
| InfoWindow.DecodeShowsFirstTwoLines | app/src/main/java/com/example/toiletfinder/MapsActivity.kt:42-47 | line 1 is the snippet up to its first line break; line 2 is `""` without a break, otherwise the text after the first break up to the next one |
| InfoWindow.ExtraPartsIgnored | app/src/main/java/com/example/toiletfinder/MapsActivity.kt:43-47 | pieces at index 2 or later never reach the view: `a\nb\nrest` shows the same lines as `a\nb` |
| InfoWindow.SnippetRoundTrip | app/src/main/java/com/example/toiletfinder/MapsActivity.kt:214 | decoding a toilet's snippet shows its label on line 1, always visible, and the first line of its opening hours on line 2; that is all of the hours when they contain no line break |
| InfoWindow.FeaturePopup | app/src/main/java/com/example/toiletfinder/MapsActivity.kt:188-216 | the popup of the marker built from a feature is titled with the resolved, non-blank name, and shows the handicap label over the opening hours |
| InfoWindow.InfoWindowView.constructor | app/src/main/java/com/example/toiletfinder/MapsActivity.kt:30 | the inflated view starts with empty texts and visible lines |
| InfoWindow.CustomInfoWindowAdapter.constructor | app/src/main/java/com/example/toiletfinder/MapsActivity.kt:28-30 | the adapter inflates its own fresh view |
| InfoWindow.CustomInfoWindowAdapter.SetInfoWindowText | app/src/main/java/com/example/toiletfinder/MapsActivity.kt:32-51 | the title text is the marker's title; a non-null snippet sets both lines, each visible if and only if non-empty; a null snippet hides both lines and leaves their texts unchanged |
| InfoWindow.CustomInfoWindowAdapter.GetInfoWindow | app/src/main/java/com/example/toiletfinder/MapsActivity.kt:56-59 | fills the adapter's own view as `setInfoWindowText` does and returns that view |
| Maps.GoogleMap.AddMarker | app/src/main/java/com/example/toiletfinder/MapsActivity.kt:208-215 | the marker is appended and nothing else on the map changes |
| Maps.GoogleMap.SetInfoWindowAdapter | app/src/main/java/com/example/toiletfinder/MapsActivity.kt:161 | the adapter is installed and nothing else on the map changes |
| Maps.AnyLocationGranted | app/src/main/java/com/example/toiletfinder/MapsActivity.kt:140-141 | the callback sees a grant exactly when some permission in the result map is mapped to true; a missing entry is not a grant |
| Maps.LoadFeatures | app/src/main/java/com/example/toiletfinder/MapsActivity.kt:164-185 | features are available exactly when the asset was read and parsed, and they are then the parsed collection's features |
| Maps.MapsActivity.constructor | app/src/main/java/com/example/toiletfinder/MapsActivity.kt:134 | the `lateinit` map is not initialised and no request has been launched |
| Maps.MapsActivity.EnableMyLocation | app/src/main/java/com/example/toiletfinder/MapsActivity.kt:249-255 | the location layer is on; markers and adapter are unchanged |
| Maps.MapsActivity.AskLocationPermissionIfNeeded | app/src/main/java/com/example/toiletfinder/MapsActivity.kt:234-247 | if fine or coarse is already granted, the layer is enabled and nothing is requested; otherwise exactly one request for both permissions is launched and the layer is unchanged |
| Maps.MapsActivity.OnLocationPermissionResult | app/src/main/java/com/example/toiletfinder/MapsActivity.kt:137-145 | the layer is enabled if and only if some location permission was granted and the map is initialised; otherwise nothing changes |
| Maps.MapsActivity.PlaceMarkers | app/src/main/java/com/example/toiletfinder/MapsActivity.kt:205-216 | the map's markers become the old markers followed by one marker per toilet, in order; the adapter and location layer are untouched |
| Maps.MapsActivity.OnMapReady | app/src/main/java/com/example/toiletfinder/MapsActivity.kt:156-222 | the map is kept and a fresh adapter installed. If the asset is missing or does not parse, no marker is added and no permission is checked. Otherwise one marker per feature's toilet is appended, in order, and the permission decision follows |

## Left out

- Google Maps calls that only present things are not modelled: `moveCamera`, the Copenhagen constant and the zoom level (MapsActivity.kt:135, :158). They do not affect any state modelled here.
- `getInfoContents` (MapsActivity.kt:63-68) is not modelled. It always returns null, so the map uses `getInfoWindow`'s view.
- `LayoutInflater`, `findViewById` and the `custom_info_window` layout are not modelled. The view is one object with the title and two line fields.
- InfoWindow.InfoWindowView.constructor: the layout file is not part of this model, so the starting texts and visibilities of the inflated view are taken to be empty and visible. Nothing proved depends on them.
- `loadJsonFromAssets` (MapsActivity.kt:224-232) is left out because it is I/O. Its result is the `asset: Option<string>` input.
- Gson's `fromJson` (MapsActivity.kt:172-179) is left out because it is a foreign library. It is a parameter `string -> Option<ToiletFeatureCollection>`: `None` stands for both a thrown exception and a null result. Gson can also leave a non-null Kotlin field null. That case, and the crash it would cause, is not modelled.
- `Log.e` and `printStackTrace` are left out. Logging is output only.
- `registerForActivityResult` and the asynchronous delivery of the callback are left out. The callback is the method `OnLocationPermissionResult`, which the platform may call at any time with any result map.
- Maps.MapsActivity.EnableMyLocation: the swallowed `SecurityException` (permission revoked between the check and the use) is not modelled. The layer is always turned on, because there are no platform semantics to model the failure.
- Kotlin's `isWhitespace` uses the JVM's Unicode tables. The model uses a fixed list of characters: TAB to CR, U+001C to U+001F, and the Unicode space, line and paragraph separators that the JVM lists.
- KotlinText.AsciiUpper: `equals(ignoreCase = true)` is modelled on ASCII letters only. Unicode case mapping of other characters is not modelled. No non-ASCII character compares equal to `"Ja"` under it.
- Toilets.Double: floating-point values are not modelled, only their 64-bit patterns. The activity never computes on coordinates.
- `LatLng` is a plain pair. Google Maps clamps latitude and wraps longitude when a `LatLng` is built. Neither the activity nor this model relies on that.
- `addMarker` returns a `Marker`, which the activity ignores, and the model ignores it too. The map's marker list holds each marker's position, title and snippet.
- `TextView.setText(null)` shows `""`. So the model's title text is the marker's title, or `""` when the title is null.
