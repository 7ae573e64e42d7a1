/**
 * The map (src/components/MapView.tsx): one marker per listing, and a
 * viewport that recentres and zooms in when a listing is selected, once
 * the map has loaded. The map object is reduced to its viewport.
 */
module MapView {
  import opened Wrappers
  import opened Listing

  /** The map's initial centre and zoom, and the zoom a selection sets. */
  const InitialCenter: LatLng := LatLng(34.03356615, -118.7542039)
  const InitialZoom: int := 12
  const SelectedZoom: int := 15

  datatype Viewport = Viewport(center: LatLng, zoom: int)

  /** A marker: keyed by the listing's id, placed at its coordinate, and
      forwarding the listing when clicked. */
  datatype Marker = Marker(key: string, position: LatLng, onClick: Property)

  /** One marker per listing, in list order. */
  function Markers(ps: seq<Property>): (ms: seq<Marker>)
    ensures |ms| == |ps|
    ensures forall i :: 0 <= i < |ps| ==>
      ms[i].key == ps[i].id && ms[i].position == LatLng(ps[i].lat, ps[i].lng) && ms[i].onClick == ps[i]
  {
    if ps == [] then []
    else [Marker(ps[0].id, LatLng(ps[0].lat, ps[0].lng), ps[0])] + Markers(ps[1..])
  }

  class GoogleMapState {
    /** `mapRef.current`: the loaded map's viewport, or None before load. */
    var mapRef: Option<Viewport>

    constructor ()
      ensures mapRef == None
    {
      mapRef := None;
    }

    /** The map has loaded at the initial centre and zoom. */
    method OnLoad()
      modifies this
      ensures mapRef == Some(Viewport(InitialCenter, InitialZoom))
    {
      mapRef := Some(Viewport(InitialCenter, InitialZoom));
    }

    /** The selection effect: pan to the selected listing and zoom to 15,
        if there is a selection and the map has loaded. */
    method OnSelectionChange(selected: Option<Property>)
      modifies this
      ensures selected.Some? && old(mapRef).Some? ==>
        mapRef == Some(Viewport(LatLng(selected.value.lat, selected.value.lng), SelectedZoom))
      ensures selected.None? || old(mapRef).None? ==> mapRef == old(mapRef)
    {
      if selected.Some? && mapRef.Some? {
        var panned := mapRef.value.(center := LatLng(selected.value.lat, selected.value.lng));
        mapRef := Some(panned.(zoom := SelectedZoom));
      }
    }
  }

  /** Clicking a listing's marker once the map is loaded centres the map
      on that listing; clearing the selection afterwards leaves it there. */
  method SelectThenClear(ps: seq<Property>, i: int) returns (selected: Viewport, cleared: Viewport)
    requires 0 <= i < |ps|
    ensures selected == Viewport(LatLng(ps[i].lat, ps[i].lng), SelectedZoom)
    ensures cleared == selected
  {
    var googleMap := new GoogleMapState();
    googleMap.OnLoad();
    var marker := Markers(ps)[i];
    googleMap.OnSelectionChange(Some(marker.onClick));
    selected := googleMap.mapRef.value;
    googleMap.OnSelectionChange(None);
    cleared := googleMap.mapRef.value;
  }
}
