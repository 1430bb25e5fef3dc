/**
 * The data classes of MapsActivity.kt and the rules that turn one parsed
 * GeoJSON feature into a `Toilet`, and a `Toilet` into the marker that shows it.
 */
module Toilets {
  import opened Wrappers
  import opened KotlinText

  /**
   * A Kotlin `Double`, kept as its IEEE 754 bit pattern. Coordinates are only
   * ever copied, never computed on, so nothing more is needed.
   */
  datatype Double = Double(bits: bv64)

  /** `Geometry`: the GeoJSON geometry, `[longitude, latitude]`. */
  datatype Geometry = Geometry(geometryType: string, coordinates: seq<Double>)

  /** `Properties`: the attributes of one feature; Kotlin `String?` fields are options. */
  datatype Properties = Properties(
    toiletLokalitet: Option<string>,
    vejnavnHusnummer: Option<string>,
    handicapAdgang: Option<string>,
    aabningstidDoegn: string,
    longitude: Double,
    latitude: Double)

  /** `Feature`: one entry of the feature collection. */
  datatype Feature = Feature(featureType: string, geometry: Geometry, properties: Properties)

  /** `ToiletFeatureCollection`: the root object of the bundled document. */
  datatype ToiletFeatureCollection = ToiletFeatureCollection(collectionType: string, features: seq<Feature>)

  /** `Toilet`: the flat domain record; `handicap` is Kotlin's three-state `Boolean?`. */
  datatype Toilet = Toilet(name: string, lat: Double, lng: Double, openingHours: string, handicap: Option<bool>)

  const UnknownToiletName: string := "Ukendt toilet"
  const AffirmativeToken: string := "Ja"
  const AccessibleLabel: string := "Handicapvenlig"
  const NotAccessibleLabel: string := "Ikke handicapvenlig"

  /** Every spelling of "Ja" that compares equal to it ignoring (ASCII) case. */
  const JaSpellings: set<string> := {"Ja", "ja", "JA", "jA"}

  // ---------------------------------------------------------------------------
  // Name fallback

  /** A name candidate that may be used: present and not blank. */
  predicate Usable(candidate: Option<string>) {
    candidate.Some? && IsNotBlank(candidate.value)
  }

  /** Kotlin's `takeIf { it.isNotBlank() }` after a safe call. */
  function TakeIfNotBlank(candidate: Option<string>): (r: Option<string>)
    ensures r.Some? <==> Usable(candidate)
    ensures r.Some? ==> r == candidate
  {
    if Usable(candidate) then candidate else None
  }

  /**
   * The name of a toilet: `toiletLokalitet` if not blank, else
   * `vejnavnHusnummer` if not blank, else the placeholder. A chosen name is
   * returned as it is, not trimmed.
   */
  function ResolveName(p: Properties): (name: string)
    ensures IsNotBlank(name)
    ensures name == UnknownToiletName || Some(name) == p.toiletLokalitet || Some(name) == p.vejnavnHusnummer
  {
    assert !IsWhitespace(UnknownToiletName[0]);
    TakeIfNotBlank(p.toiletLokalitet).GetOr(TakeIfNotBlank(p.vejnavnHusnummer).GetOr(UnknownToiletName))
  }

  /**
   * Reference definition of the fallback: the first usable candidate of an
   * ordered list, or `fallback` when there is none.
   */
  function FirstNonBlank(candidates: seq<Option<string>>, fallback: string): (r: string)
    ensures (forall k :: 0 <= k < |candidates| ==> !Usable(candidates[k])) ==> r == fallback
    ensures forall k :: 0 <= k < |candidates| && Usable(candidates[k]) ==>
      (forall j :: 0 <= j < k ==> !Usable(candidates[j])) ==> r == candidates[k].value
    decreases |candidates|
  {
    if |candidates| == 0 then fallback
    else if Usable(candidates[0]) then candidates[0].value
    else
      var tail := candidates[1..];
      var r := FirstNonBlank(tail, fallback);
      assert forall k :: 0 <= k < |candidates| && Usable(candidates[k]) ==>
        (forall j :: 0 <= j < k ==> !Usable(candidates[j])) ==> r == candidates[k].value
      by {
        forall k | 0 <= k < |candidates| && Usable(candidates[k]) &&
          (forall j :: 0 <= j < k ==> !Usable(candidates[j]))
          ensures r == candidates[k].value
        {
          assert candidates[k] == tail[k - 1];
          assert forall j :: 0 <= j < k - 1 ==> tail[j] == candidates[j + 1];
        }
      }
      r
  }

  /** The activity's name rule is "first non-blank of primary, secondary, else placeholder". */
  lemma ResolveNameIsFirstNonBlank(p: Properties)
    ensures ResolveName(p) == FirstNonBlank([p.toiletLokalitet, p.vejnavnHusnummer], UnknownToiletName)
  {
  }

  /** The fallback order, case by case. */
  lemma NameFallbackOrder(p: Properties)
    ensures Usable(p.toiletLokalitet) ==> ResolveName(p) == p.toiletLokalitet.value
    ensures !Usable(p.toiletLokalitet) && Usable(p.vejnavnHusnummer) ==> ResolveName(p) == p.vejnavnHusnummer.value
    ensures !Usable(p.toiletLokalitet) && !Usable(p.vejnavnHusnummer) ==> ResolveName(p) == UnknownToiletName
  {
  }

  // ---------------------------------------------------------------------------
  // Handicap flag

  /** `equals("Ja", ignoreCase = true)` holds of exactly the four spellings of "Ja". */
  lemma EqualsJaIgnoringCase(s: string)
    ensures EqualsIgnoreCase(s, AffirmativeToken) <==> s in JaSpellings
  {
    if EqualsIgnoreCase(s, AffirmativeToken) {
      assert AsciiUpper(s[0]) == 'J' && AsciiUpper(s[1]) == 'A';
      assert s[0] == 'J' || s[0] == 'j';
      assert s[1] == 'A' || s[1] == 'a';
      assert s == [s[0], s[1]];
    }
  }

  /**
   * `handicapAdgang?.equals("Ja", ignoreCase = true)`: absent stays absent,
   * any spelling of "Ja" gives true, every other present text gives false.
   */
  function HandicapFlag(handicapAdgang: Option<string>): (flag: Option<bool>)
    ensures flag.None? <==> handicapAdgang.None?
    ensures flag == Some(true) <==> handicapAdgang.Some? && handicapAdgang.value in JaSpellings
    ensures flag == Some(false) <==> handicapAdgang.Some? && handicapAdgang.value !in JaSpellings
  {
    match handicapAdgang
    case None => None
    case Some(text) =>
      EqualsJaIgnoringCase(text);
      Some(EqualsIgnoreCase(text, AffirmativeToken))
  }

  // ---------------------------------------------------------------------------
  // Feature to Toilet

  /** One step of the transform loop: the `Toilet` built from one feature. */
  function ToToilet(f: Feature): (t: Toilet)
    ensures t.name == ResolveName(f.properties) && IsNotBlank(t.name)
    ensures t.handicap == HandicapFlag(f.properties.handicapAdgang)
    ensures t.lat == f.properties.latitude && t.lng == f.properties.longitude
    ensures t.openingHours == f.properties.aabningstidDoegn
    ensures t.handicap.None? <==> f.properties.handicapAdgang.None?
  {
    var props := f.properties;
    Toilet(ResolveName(props), props.latitude, props.longitude, props.aabningstidDoegn, HandicapFlag(props.handicapAdgang))
  }

  /** The record depends only on the properties: geometry and feature type are never read. */
  lemma ToToiletIgnoresGeometry(f: Feature, featureType: string, geometry: Geometry)
    ensures ToToilet(Feature(featureType, geometry, f.properties)) == ToToilet(f)
  {
  }

  /**
   * A blank primary name, the address "Main St 5" and the token "Ja" give the
   * record named after the address, accessible, with the hours copied.
   */
  lemma ScenarioBlankPrimaryName(lat: Double, lng: Double, geometry: Geometry)
    ensures ToToilet(Feature("Feature", geometry,
        Properties(Some("  "), Some("Main St 5"), Some("Ja"), "00-24", lng, lat)))
      == Toilet("Main St 5", lat, lng, "00-24", Some(true))
  {
    var name := "Main St 5";
    assert !IsWhitespace(name[0]);
  }

  /** The spec function of the transform: the records, in feature order. */
  function ToiletsOf(features: seq<Feature>): (toilets: seq<Toilet>)
    ensures |toilets| == |features|
    ensures forall i :: 0 <= i < |features| ==> toilets[i] == ToToilet(features[i])
  {
    seq(|features|, i requires 0 <= i < |features| => ToToilet(features[i]))
  }

  /**
   * The transform loop of `onMapReady`: appends the record of each feature to
   * a list that starts empty. No feature is dropped, reordered or merged.
   */
  method TransformFeatures(features: seq<Feature>) returns (toilets: seq<Toilet>)
    ensures |toilets| == |features|
    ensures forall i :: 0 <= i < |features| ==> toilets[i] == ToToilet(features[i])
  {
    toilets := [];
    for n := 0 to |features|
      invariant |toilets| == n
      invariant forall i :: 0 <= i < n ==> toilets[i] == ToToilet(features[i])
    {
      toilets := toilets + [ToToilet(features[n])];
    }
  }

  // ---------------------------------------------------------------------------
  // Markers and their snippet

  /** `LatLng(lat, lng)`. */
  datatype LatLng = LatLng(latitude: Double, longitude: Double)

  /** A marker as placed on the map: its options; Kotlin's `String?` title and snippet. */
  datatype Marker = Marker(position: LatLng, title: Option<string>, snippet: Option<string>)

  /** The localized accessibility label; only a definite `true` reads as accessible. */
  function HandicapLabel(handicap: Option<bool>): (status: string)
    ensures status == AccessibleLabel <==> handicap == Some(true)
    ensures status == NotAccessibleLabel <==> handicap != Some(true)
    ensures |status| > 0 && '\n' !in status
  {
    if handicap == Some(true) then AccessibleLabel else NotAccessibleLabel
  }

  /**
   * The snippet `"$handicapStatus\n${t.openingHours}"`: split on the line
   * break, it is the label followed by the pieces of the opening hours.
   */
  function Snippet(t: Toilet): (snippet: string)
    ensures Split(snippet, '\n') == [HandicapLabel(t.handicap)] + Split(t.openingHours, '\n')
    ensures Join(Split(snippet, '\n')[1..], '\n') == t.openingHours
  {
    var status := HandicapLabel(t.handicap);
    SplitAfterDelimiter(status, '\n', t.openingHours);
    JoinSplit(t.openingHours, '\n');
    status + "\n" + t.openingHours
  }

  /** The marker for one toilet: at its coordinates, titled with its name, with its snippet. */
  function MarkerFor(t: Toilet): (m: Marker)
    ensures m.position == LatLng(t.lat, t.lng)
    ensures m.title == Some(t.name)
    ensures m.snippet == Some(Snippet(t))
  {
    Marker(LatLng(t.lat, t.lng), Some(t.name), Some(Snippet(t)))
  }

  /** The markers of the marker loop, one per toilet, in order. */
  function MarkersFor(toilets: seq<Toilet>): (markers: seq<Marker>)
    ensures |markers| == |toilets|
    ensures forall i :: 0 <= i < |toilets| ==> markers[i] == MarkerFor(toilets[i])
  {
    seq(|toilets|, i requires 0 <= i < |toilets| => MarkerFor(toilets[i]))
  }
}
