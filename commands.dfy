/**
 * The command sequence of one full resynchronisation: the controller turns
 * the native state into `setCenter(...)`, `clearMarkers()` and one
 * `addMarker(...)` per marker, in store order.
 */
module Commands {

  import opened Store
  import opened LabelEscape

  /**
   * One script call handed to the map view. `id` and `caption` (the label) are the texts
   * the controller writes between the quotes of the call's string literals;
   * coordinates and zoom are passed through as numbers.
   */
  datatype Command =
    | SetCenter(lat: real, lng: real, zoom: int)
    | ClearMarkers
    | AddMarker(id: string, lat: real, lng: real, caption: string)

  function AddCommand(m: Marker): Command {
    AddMarker(m.id, m.lat, m.lng, EscapeLabel(m.caption))
  }

  /** One `addMarker` per marker, built up in the order the loop visits them. */
  function AddCommands(ms: seq<Marker>): seq<Command>
    decreases |ms|
  {
    if ms == [] then [] else AddCommands(ms[..|ms| - 1]) + [AddCommand(ms[|ms| - 1])]
  }

  /** Everything one call of the synchroniser dispatches, in order. */
  function Resync(s: MapState): seq<Command> {
    [SetCenter(s.center.lat, s.center.lng, s.zoom), ClearMarkers] + AddCommands(s.markers)
  }

  /** The k-th add command is built from the k-th marker. */
  lemma {:induction false} AddCommandsAt(ms: seq<Marker>)
    ensures |AddCommands(ms)| == |ms|
    ensures forall k :: 0 <= k < |ms| ==> AddCommands(ms)[k] == AddCommand(ms[k])
    decreases |ms|
  {
    if ms != [] {
      var init := ms[..|ms| - 1];
      AddCommandsAt(init);
      assert forall k :: 0 <= k < |init| ==> ms[k] == init[k];
    }
  }

  /**
   * A resync emits |markers| + 2 commands: the center and zoom first, the
   * clear second, then only adds, the k-th carrying the k-th marker's id and
   * coordinates and its escaped label. An empty store gives exactly two.
   */
  lemma ResyncShape(s: MapState)
    ensures |Resync(s)| == |s.markers| + 2
    ensures Resync(s)[0] == SetCenter(s.center.lat, s.center.lng, s.zoom)
    ensures Resync(s)[1] == ClearMarkers
    ensures forall k :: 2 <= k < |Resync(s)| ==> Resync(s)[k].AddMarker?
    ensures forall k :: 0 <= k < |s.markers| ==>
      && Resync(s)[k + 2].id == s.markers[k].id
      && Resync(s)[k + 2].lat == s.markers[k].lat
      && Resync(s)[k + 2].lng == s.markers[k].lng
      && Resync(s)[k + 2].caption == EscapeLabel(s.markers[k].caption)
  {
    AddCommandsAt(s.markers);
  }
}
