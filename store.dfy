/**
 * The native map state the controller reads and mutates: the view's center,
 * its zoom and the ordered marker list. The state holder's own source is not
 * part of this model; its operations are stated here as the controller uses them.
 */
module Store {

  import opened Wrappers

  datatype LatLng = LatLng(lat: real, lng: real)

  /** One marker record `{"id", "lat", "lng", "label"}`; `caption` is its label, which may be missing. */
  datatype Marker = Marker(id: string, lat: real, lng: real, caption: Option<string>)

  datatype MapState = MapState(center: LatLng, zoom: int, markers: seq<Marker>)

  /** The state holder: its fields are updated in place by the operations below. */
  class MapModel {
    var center: LatLng
    var zoom: int
    var markers: seq<Marker>

    function State(): MapState
      reads this
    {
      MapState(center, zoom, markers)
    }

    constructor (center: LatLng, zoom: int)
      ensures State() == MapState(center, zoom, [])
    {
      this.center := center;
      this.zoom := zoom;
      this.markers := [];
    }

    /** `add_marker`: appends; the id is the caller's to choose and is not checked. */
    method AddMarker(m: Marker)
      modifies this
      ensures markers == old(markers) + [m]
      ensures center == old(center) && zoom == old(zoom)
    {
      markers := markers + [m];
    }

    /** `clear_markers`: empties the list and keeps the view. */
    method ClearMarkers()
      modifies this
      ensures markers == []
      ensures center == old(center) && zoom == old(zoom)
    {
      markers := [];
    }

    /** Assignment to `center`: replaces it wholesale and keeps zoom and markers. */
    method SetCenter(c: LatLng)
      modifies this
      ensures center == c
      ensures zoom == old(zoom) && markers == old(markers)
    {
      center := c;
    }
  }
}
