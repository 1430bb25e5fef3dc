/**
 * `CustomInfoWindowAdapter` of MapsActivity.kt: the popup of a marker shows its
 * title and the first two line-break separated pieces of its snippet.
 */
module InfoWindow {
  import opened Wrappers
  import opened KotlinText
  import opened Toilets

  /** `View.VISIBLE` and `View.GONE`, the two visibilities the adapter sets. */
  datatype Visibility = Visible | Gone

  /** `if (text.isNotEmpty()) View.VISIBLE else View.GONE`. */
  function VisibilityOf(text: string): (v: Visibility)
    ensures v == Visible <==> |text| > 0
  {
    if |text| > 0 then Visible else Gone
  }

  /** `List.getOrNull(i)`. */
  function GetOrNull(parts: seq<string>, i: nat): (r: Option<string>)
    ensures r.Some? <==> i < |parts|
    ensures r.Some? ==> r.value == parts[i]
  {
    if i < |parts| then Some(parts[i]) else None
  }

  /**
   * What the adapter makes of a snippet: `Hidden` for a null snippet (both
   * lines hidden, their text left alone), otherwise the texts of the two lines.
   */
  datatype SnippetLines = Hidden | Shown(line1: string, line2: string)

  /**
   * `marker.snippet?.split("\n")`, then piece 0 into line 1 and piece 1 (or
   * `""`) into line 2. The test `snippetParts.isNotEmpty()` is kept; `Split`
   * never yields an empty list, so it never hides a non-null snippet.
   */
  function DecodeSnippet(snippet: Option<string>): (d: SnippetLines)
    ensures d.Hidden? <==> snippet.None?
  {
    match snippet
    case None => Hidden
    case Some(s) =>
      var parts := Split(s, '\n');
      if |parts| > 0 then Shown(GetOrNull(parts, 0).GetOr(""), GetOrNull(parts, 1).GetOr(""))
      else Hidden
  }

  /**
   * Independently of `Split`: line 1 is the snippet up to its first line break;
   * line 2 is empty when there is none, and otherwise the text after that
   * break up to the next one.
   */
  lemma DecodeShowsFirstTwoLines(s: string)
    ensures DecodeSnippet(Some(s)).Shown?
    ensures UpToFirst(s, '\n', DecodeSnippet(Some(s)).line1)
    ensures '\n' !in s ==> DecodeSnippet(Some(s)).line2 == ""
    ensures '\n' in s ==>
      var k := |DecodeSnippet(Some(s)).line1|;
      k < |s| && UpToFirst(s[k + 1..], '\n', DecodeSnippet(Some(s)).line2)
  {
    var parts := Split(s, '\n');
    SplitHead(s, '\n');
    if '\n' in s {
      var k := |parts[0]|;
      SplitHead(s[k + 1..], '\n');
      assert parts[1] == parts[1..][0];
    }
  }

  /** Pieces after the second never reach the view. */
  lemma ExtraPartsIgnored(a: string, b: string, rest: string)
    requires '\n' !in a && '\n' !in b
    ensures DecodeSnippet(Some(a + "\n" + b + "\n" + rest)) == Shown(a, b)
    ensures DecodeSnippet(Some(a + "\n" + b)) == Shown(a, b)
  {
    SplitAfterDelimiter(a, '\n', b + "\n" + rest);
    assert a + "\n" + b + "\n" + rest == a + ['\n'] + (b + "\n" + rest);
    SplitAfterDelimiter(b, '\n', rest);
    SplitWithoutDelimiter(b, '\n');
    SplitAfterDelimiter(a, '\n', b);
  }

  /**
   * Round trip of the marker snippet: the popup shows the accessibility label
   * on line 1 and the first line of the opening hours on line 2, which is all
   * of them when they hold no line break.
   */
  lemma SnippetRoundTrip(t: Toilet)
    ensures DecodeSnippet(Some(Snippet(t))) == Shown(HandicapLabel(t.handicap), Split(t.openingHours, '\n')[0])
    ensures '\n' !in t.openingHours ==>
      DecodeSnippet(Some(Snippet(t))) == Shown(HandicapLabel(t.handicap), t.openingHours)
    ensures VisibilityOf(HandicapLabel(t.handicap)) == Visible
  {
  }

  /**
   * From feature to popup: the popup of the marker built for a feature is
   * titled with the feature's resolved (never blank) name and shows the label
   * of its handicap flag above its opening hours.
   */
  lemma FeaturePopup(f: Feature)
    requires '\n' !in f.properties.aabningstidDoegn
    ensures var m := MarkerFor(ToToilet(f));
      && m.title == Some(ResolveName(f.properties))
      && IsNotBlank(m.title.value)
      && DecodeSnippet(m.snippet)
         == Shown(HandicapLabel(HandicapFlag(f.properties.handicapAdgang)), f.properties.aabningstidDoegn)
  {
  }

  /** The inflated `custom_info_window` layout: a title and two snippet lines. */
  class InfoWindowView {
    var titleText: string
    var line1Text: string
    var line1Visibility: Visibility
    var line2Text: string
    var line2Visibility: Visibility

    /** The layout file is not part of this model: its views start empty and visible. */
    constructor ()
      ensures titleText == "" && line1Text == "" && line2Text == ""
      ensures line1Visibility == Visible && line2Visibility == Visible
    {
      titleText, line1Text, line2Text := "", "", "";
      line1Visibility, line2Visibility := Visible, Visible;
    }
  }

  class CustomInfoWindowAdapter {
    /** The one view the adapter inflates and fills for every marker. */
    const window: InfoWindowView

    constructor ()
      ensures fresh(window)
    {
      window := new InfoWindowView();
    }

    /**
     * `setInfoWindowText`: the title is the marker's (Android shows a null text
     * as ""); a non-null snippet fills both lines, each visible exactly when
     * non-empty; a null snippet hides both lines and keeps their text.
     */
    method SetInfoWindowText(marker: Marker, view: InfoWindowView)
      modifies view
      ensures view.titleText == marker.title.GetOr("")
      ensures match DecodeSnippet(marker.snippet)
        case Hidden =>
          && view.line1Text == old(view.line1Text) && view.line1Visibility == Gone
          && view.line2Text == old(view.line2Text) && view.line2Visibility == Gone
        case Shown(line1, line2) =>
          && view.line1Text == line1 && view.line1Visibility == VisibilityOf(line1)
          && view.line2Text == line2 && view.line2Visibility == VisibilityOf(line2)
    {
      var title := marker.title;
      var snippetParts := if marker.snippet.Some? then Some(Split(marker.snippet.value, '\n')) else None;

      view.titleText := title.GetOr("");

      if snippetParts.Some? && |snippetParts.value| > 0 {
        view.line1Text := GetOrNull(snippetParts.value, 0).GetOr("");
        view.line1Visibility := if |view.line1Text| > 0 then Visible else Gone;

        view.line2Text := GetOrNull(snippetParts.value, 1).GetOr("");
        view.line2Visibility := if |view.line2Text| > 0 then Visible else Gone;
      } else {
        view.line1Visibility := Gone;
        view.line2Visibility := Gone;
      }
    }

    /** `getInfoWindow`: fills the adapter's own view for the marker and returns it. */
    method GetInfoWindow(marker: Marker) returns (v: InfoWindowView)
      modifies window
      ensures v == window
      ensures v.titleText == marker.title.GetOr("")
      ensures match DecodeSnippet(marker.snippet)
        case Hidden =>
          && v.line1Text == old(window.line1Text) && v.line1Visibility == Gone
          && v.line2Text == old(window.line2Text) && v.line2Visibility == Gone
        case Shown(line1, line2) =>
          && v.line1Text == line1 && v.line1Visibility == VisibilityOf(line1)
          && v.line2Text == line2 && v.line2Visibility == VisibilityOf(line2)
    {
      SetInfoWindowText(marker, window);
      v := window;
    }
  }
}
