/**
 * `MapsActivity` of MapsActivity.kt: once the map is ready it installs the
 * popup adapter, turns the bundled feature collection into toilets, places one
 * marker per toilet and then runs the location-permission flow.
 */
module Maps {
  import opened Wrappers
  import opened Toilets
  import opened InfoWindow

  /** The part of `GoogleMap` the activity drives: its markers, popup adapter and location layer. */
  class GoogleMap {
    var markers: seq<Marker>
    var infoWindowAdapter: CustomInfoWindowAdapter?
    var isMyLocationEnabled: bool

    constructor ()
      ensures markers == [] && infoWindowAdapter == null && !isMyLocationEnabled
    {
      markers, infoWindowAdapter, isMyLocationEnabled := [], null, false;
    }

    /** `addMarker(options)`: the map gets one more marker, at the end. */
    method AddMarker(options: Marker)
      modifies this
      ensures markers == old(markers) + [options]
      ensures infoWindowAdapter == old(infoWindowAdapter) && isMyLocationEnabled == old(isMyLocationEnabled)
    {
      markers := markers + [options];
    }

    /** `setInfoWindowAdapter(adapter)`. */
    method SetInfoWindowAdapter(adapter: CustomInfoWindowAdapter)
      modifies this
      ensures infoWindowAdapter == adapter
      ensures markers == old(markers) && isMyLocationEnabled == old(isMyLocationEnabled)
    {
      infoWindowAdapter := adapter;
    }
  }

  /** The two runtime permissions the activity asks for. */
  datatype Permission = AccessFineLocation | AccessCoarseLocation

  /** `PackageManager.PERMISSION_GRANTED` / `PERMISSION_DENIED`, as `checkSelfPermission` answers. */
  datatype PermissionCheck = PermissionGranted | PermissionDenied

  /** The array passed to `requestLocationPermission.launch`. */
  const LocationPermissions: seq<Permission> := [AccessFineLocation, AccessCoarseLocation]

  /** `fine == PERMISSION_GRANTED || coarse == PERMISSION_GRANTED`. */
  predicate AlreadyGranted(fine: PermissionCheck, coarse: PermissionCheck)
    ensures !AlreadyGranted(fine, coarse) <==> fine == PermissionDenied && coarse == PermissionDenied
  {
    fine == PermissionGranted || coarse == PermissionGranted
  }

  /**
   * `result[FINE] == true || result[COARSE] == true` on the callback's map: a
   * permission the map does not mention counts as not granted.
   */
  function AnyLocationGranted(result: map<Permission, bool>): (granted: bool)
    ensures granted <==> exists p :: p in result && result[p]
  {
    var granted := (AccessFineLocation in result && result[AccessFineLocation]) ||
                   (AccessCoarseLocation in result && result[AccessCoarseLocation]);
    assert (exists p :: p in result && result[p]) ==> granted by {
      if exists p :: p in result && result[p] {
        var p :| p in result && result[p];
        assert p == AccessFineLocation || p == AccessCoarseLocation;
      }
    }
    granted
  }

  /**
   * The bundled document as features: nothing when the asset could not be
   * read or Gson yields no collection (null or an exception).
   */
  function LoadFeatures(asset: Option<string>, fromJson: string -> Option<ToiletFeatureCollection>): (r: Option<seq<Feature>>)
    ensures r.Some? <==> asset.Some? && fromJson(asset.value).Some?
    ensures r.Some? ==> r.value == fromJson(asset.value).value.features
  {
    if asset.None? then None
    else match fromJson(asset.value)
      case None => None
      case Some(collection) => Some(collection.features)
  }

  class MapsActivity {
    /** `lateinit var map`: null until `onMapReady`, so `::map.isInitialized` is `googleMap != null`. */
    var googleMap: GoogleMap?
    /** Every `requestLocationPermission.launch(...)`, in order. */
    var launchedRequests: seq<seq<Permission>>

    constructor ()
      ensures googleMap == null && launchedRequests == []
    {
      googleMap, launchedRequests := null, [];
    }

    /** `enableMyLocation`: turns the location layer on and touches nothing else. */
    method EnableMyLocation()
      requires googleMap != null
      modifies googleMap
      ensures googleMap.isMyLocationEnabled
      ensures googleMap.markers == old(googleMap.markers) && googleMap.infoWindowAdapter == old(googleMap.infoWindowAdapter)
    {
      googleMap.isMyLocationEnabled := true;
    }

    /**
     * `askLocationPermissionIfNeeded`: with fine or coarse already granted the
     * layer is enabled at once and nothing is requested; otherwise exactly one
     * request for both permissions is launched and the layer is left as it was.
     */
    method AskLocationPermissionIfNeeded(fine: PermissionCheck, coarse: PermissionCheck)
      requires googleMap != null
      modifies this, googleMap
      ensures googleMap == old(googleMap)
      ensures googleMap.markers == old(googleMap.markers) && googleMap.infoWindowAdapter == old(googleMap.infoWindowAdapter)
      ensures AlreadyGranted(fine, coarse) ==>
        googleMap.isMyLocationEnabled && launchedRequests == old(launchedRequests)
      ensures !AlreadyGranted(fine, coarse) ==>
        googleMap.isMyLocationEnabled == old(googleMap.isMyLocationEnabled) &&
        launchedRequests == old(launchedRequests) + [LocationPermissions]
    {
      if AlreadyGranted(fine, coarse) {
        EnableMyLocation();
      } else {
        launchedRequests := launchedRequests + [LocationPermissions];
      }
    }

    /**
     * The `requestLocationPermission` callback: the layer is enabled exactly
     * when some location permission was granted and the map is initialised;
     * in every other case nothing changes.
     */
    method OnLocationPermissionResult(result: map<Permission, bool>)
      modifies googleMap
      ensures googleMap == old(googleMap) && launchedRequests == old(launchedRequests)
      ensures googleMap != null ==>
        && googleMap.isMyLocationEnabled == (old(googleMap.isMyLocationEnabled) || AnyLocationGranted(result))
        && googleMap.markers == old(googleMap.markers) && googleMap.infoWindowAdapter == old(googleMap.infoWindowAdapter)
    {
      var granted := AnyLocationGranted(result);
      if granted && googleMap != null {
        EnableMyLocation();
      }
    }

    /** The marker loop of `onMapReady`: one marker per toilet, appended in order. */
    method PlaceMarkers(toilets: seq<Toilet>)
      requires googleMap != null
      modifies googleMap
      ensures googleMap.markers == old(googleMap.markers) + MarkersFor(toilets)
      ensures googleMap.infoWindowAdapter == old(googleMap.infoWindowAdapter)
      ensures googleMap.isMyLocationEnabled == old(googleMap.isMyLocationEnabled)
    {
      for n := 0 to |toilets|
        invariant googleMap.markers == old(googleMap.markers) + MarkersFor(toilets[..n])
        invariant googleMap.infoWindowAdapter == old(googleMap.infoWindowAdapter)
        invariant googleMap.isMyLocationEnabled == old(googleMap.isMyLocationEnabled)
      {
        googleMap.AddMarker(MarkerFor(toilets[n]));
        assert MarkersFor(toilets[..n + 1]) == MarkersFor(toilets[..n]) + [MarkerFor(toilets[n])];
      }
      assert toilets[..|toilets|] == toilets;
    }

    /**
     * `onMapReady`: keeps the map, installs a fresh popup adapter, and, when
     * the asset was read and parsed, places the markers of its toilets and
     * runs the permission check. When loading or parsing fails the map keeps
     * its markers and no permission is checked or requested.
     */
    method OnMapReady(readyMap: GoogleMap, asset: Option<string>,
                      fromJson: string -> Option<ToiletFeatureCollection>,
                      fine: PermissionCheck, coarse: PermissionCheck)
      modifies this, readyMap
      ensures googleMap == readyMap
      ensures readyMap.infoWindowAdapter != null && fresh(readyMap.infoWindowAdapter)
      ensures LoadFeatures(asset, fromJson).None? ==>
        && readyMap.markers == old(readyMap.markers)
        && readyMap.isMyLocationEnabled == old(readyMap.isMyLocationEnabled)
        && launchedRequests == old(launchedRequests)
      ensures LoadFeatures(asset, fromJson).Some? ==>
        var features := LoadFeatures(asset, fromJson).value;
        && readyMap.markers == old(readyMap.markers) + MarkersFor(ToiletsOf(features))
        && (AlreadyGranted(fine, coarse) ==>
              readyMap.isMyLocationEnabled && launchedRequests == old(launchedRequests))
        && (!AlreadyGranted(fine, coarse) ==>
              readyMap.isMyLocationEnabled == old(readyMap.isMyLocationEnabled) &&
              launchedRequests == old(launchedRequests) + [LocationPermissions])
    {
      googleMap := readyMap;
      var adapter := new CustomInfoWindowAdapter();
      readyMap.SetInfoWindowAdapter(adapter);

      var jsonString := asset;
      if jsonString.None? {
        return;
      }
      var featureCollection := fromJson(jsonString.value);
      if featureCollection.None? {
        return;
      }

      var toilets := TransformFeatures(featureCollection.value.features);
      assert toilets == ToiletsOf(featureCollection.value.features);
      PlaceMarkers(toilets);

      AskLocationPermissionIfNeeded(fine, coarse);
    }
  }
}
