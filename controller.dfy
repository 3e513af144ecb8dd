/**
 * The map controller: it owns a reference to the state holder, dispatches
 * script commands to the map view (recorded here, in order, in `log`), and
 * runs a full resynchronisation each time the state holder reports a change.
 */
module Controller {

  import opened Wrappers
  import opened Store
  import opened LabelEscape
  import opened Commands
  import opened Handlers

  class MapController {
    const model: MapModel
    /** Every command dispatched to the view so far, oldest first. */
    var log: seq<Command>

    /** Wires the handlers and runs the initial synchronisation. */
    constructor (model: MapModel)
      ensures this.model == model
      ensures log == Resync(model.State())
    {
      this.model := model;
      log := [];
      new;
      Sync();
    }

    /**
     * `sync_model_to_view`: dispatches the center and zoom, a clear, and one
     * add per marker in store order, each label escaped.
     */
    method Sync()
      modifies this
      ensures log == old(log) + Resync(model.State())
    {
      var c := model.center;
      var z := model.zoom;
      log := log + [SetCenter(c.lat, c.lng, z)];
      log := log + [ClearMarkers];
      var i := 0;
      while i < |model.markers|
        invariant i <= |model.markers|
        invariant log == old(log) + [SetCenter(c.lat, c.lng, z), ClearMarkers] + AddCommands(model.markers[..i])
      {
        var m := model.markers[i];
        var escaped := EscapeLabel(m.caption);
        log := log + [AddMarker(m.id, m.lat, m.lng, escaped)];
        assert model.markers[..i + 1][..i] == model.markers[..i];
        i := i + 1;
      }
      assert model.markers[..i] == model.markers;
    }

    /**
     * The "Add Marker" button: with both coordinates parsed, appends marker
     * `m{n+1}` labelled `{n+1}`; the state holder's notification then resyncs.
     */
    method OnAddMarkerClicked(lat: Option<real>, lng: Option<real>)
      modifies this, model
      ensures model.State() == Handle(old(model.State()), AddClicked(lat, lng))
      ensures lat.None? || lng.None? ==> model.State() == old(model.State()) && log == old(log)
      ensures lat.Some? && lng.Some? ==>
        var n := |old(model.markers)|;
        && model.markers == old(model.markers) + [Marker(MarkerId(n + 1), lat.value, lng.value, Some(UiLabel(n + 1)))]
        && log == old(log) + Resync(model.State())
    {
      if lat.None? || lng.None? {
        return;
      }
      var n := |model.markers|;
      var marker := Marker(MarkerId(n + 1), lat.value, lng.value, Some(UiLabel(n + 1)));
      model.AddMarker(marker);
      Sync();
    }

    /** The "Center Map" button: with both coordinates parsed, replaces the center. */
    method OnCenterClicked(lat: Option<real>, lng: Option<real>)
      modifies this, model
      ensures model.State() == Handle(old(model.State()), CenterClicked(lat, lng))
      ensures lat.None? || lng.None? ==> model.State() == old(model.State()) && log == old(log)
      ensures lat.Some? && lng.Some? ==>
        && model.center == LatLng(lat.value, lng.value)
        && model.zoom == old(model.zoom) && model.markers == old(model.markers)
        && log == old(log) + Resync(model.State())
    {
      if lat.None? || lng.None? {
        return;
      }
      model.SetCenter(LatLng(lat.value, lng.value));
      Sync();
    }

    /** The "Clear Markers" button, on an empty store as well. */
    method OnClearMarkers()
      modifies this, model
      ensures model.State() == Handle(old(model.State()), ClearClicked)
      ensures model.markers == [] && model.center == old(model.center) && model.zoom == old(model.zoom)
      ensures log == old(log) + [SetCenter(model.center.lat, model.center.lng, model.zoom), ClearMarkers]
    {
      model.ClearMarkers();
      Sync();
    }

    /** A right-click reported by the map: appends marker `m{n+1}` labelled `WP{n+1}`. */
    method OnWaypointAdded(lat: real, lng: real)
      modifies this, model
      ensures model.State() == Handle(old(model.State()), WaypointAdded(LatLng(lat, lng)))
      ensures
        var n := |old(model.markers)|;
        model.markers == old(model.markers) + [Marker(MarkerId(n + 1), lat, lng, Some(WaypointLabel(n + 1)))]
      ensures log == old(log) + Resync(model.State())
    {
      var n := |model.markers|;
      var marker := Marker(MarkerId(n + 1), lat, lng, Some(WaypointLabel(n + 1)));
      model.AddMarker(marker);
      Sync();
    }
  }
}
