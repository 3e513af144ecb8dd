/**
 * The map page's script state: the view (center, zoom), the layers drawn on
 * the map, the `markers` table from id to layer, whether the web channel has
 * finished its handshake, and the right-click coordinates sent to the host.
 * Layers are values told apart by the serial number they were created with.
 */
module MapScript {

  import opened Wrappers
  import opened Store
  import opened LabelEscape
  import opened Commands

  /** The popup bound to a layer: a marker label, or the right-click callout. */
  datatype Popup = LabelPopup(text: string) | WaypointCallout(at: LatLng)

  datatype Layer = Layer(serial: nat, at: LatLng, popup: Option<Popup>)

  datatype Scene = Scene(
    center: LatLng,
    zoom: int,
    onMap: set<Layer>,
    markers: map<string, Layer>,
    nextSerial: nat,
    bridgeReady: bool,
    sent: seq<LatLng>)

  /**
   * Every layer was created before `nextSerial`, every recorded layer is on
   * the map, and no layer is recorded under two ids.
   */
  predicate SceneValid(sc: Scene) {
    && (forall l :: l in sc.onMap ==> l.serial < sc.nextSerial)
    && (forall id :: id in sc.markers ==> sc.markers[id] in sc.onMap)
    && (forall a, b :: a in sc.markers && b in sc.markers && a != b ==> sc.markers[a] != sc.markers[b])
  }

  /** The page as loaded: the initial view, no markers, channel not yet ready. */
  function InitialScene(): Scene {
    Scene(LatLng(22.9048880, 120.2719823), 20, {}, map[], 0, false, [])
  }

  /** `addMarker(id, lat, lng, label)`: draws a new layer and records it under `id`. */
  function AddMarkerStep(sc: Scene, id: string, lat: real, lng: real, text: string): Scene {
    var m := Layer(sc.nextSerial, LatLng(lat, lng), if text != "" then Some(LabelPopup(text)) else None);
    sc.(onMap := sc.onMap + {m}, markers := sc.markers[id := m], nextSerial := sc.nextSerial + 1)
  }

  /** `setCenter(lat, lng, zoom)`: a zero or absent zoom keeps the current one. */
  function SetCenterStep(sc: Scene, lat: real, lng: real, zoom: Option<int>): Scene {
    sc.(center := LatLng(lat, lng), zoom := if zoom.Some? && zoom.value != 0 then zoom.value else sc.zoom)
  }

  /** `clearMarkers()`: removes every recorded layer from the map and empties the table. */
  function ClearStep(sc: Scene): Scene {
    sc.(onMap := sc.onMap - sc.markers.Values, markers := map[])
  }

  /** The channel-init callback sets `window.qtbridge`. */
  function ChannelReadyStep(sc: Scene): Scene {
    sc.(bridgeReady := true)
  }

  /**
   * The `contextmenu` handler: draws a marker with a callout, never records
   * it, and reports the point to the host only once the channel is ready.
   */
  function ContextMenuStep(sc: Scene, lat: real, lng: real): Scene {
    var p := LatLng(lat, lng);
    var m := Layer(sc.nextSerial, p, Some(WaypointCallout(p)));
    sc.(onMap := sc.onMap + {m}, nextSerial := sc.nextSerial + 1,
        sent := if sc.bridgeReady then sc.sent + [p] else sc.sent)
  }

  /**
   * Executing one dispatched command. An `addMarker` whose id or label
   * literal does not read back is a SyntaxError and changes nothing.
   */
  function Apply(sc: Scene, c: Command): Scene {
    match c
    case SetCenter(lat, lng, zoom) => SetCenterStep(sc, lat, lng, Some(zoom))
    case ClearMarkers => ClearStep(sc)
    case AddMarker(idBody, lat, lng, captionBody) =>
      var id, text := JsLiteral(idBody), JsLiteral(captionBody);
      if id.Some? && text.Some? then AddMarkerStep(sc, id.value, lat, lng, text.value) else sc
  }

  /** Executing dispatched commands in order. */
  function Run(sc: Scene, cs: seq<Command>): Scene
    decreases |cs|
  {
    if cs == [] then sc else Run(Apply(sc, cs[0]), cs[1..])
  }

  lemma InitialSceneValid()
    ensures SceneValid(InitialScene())
    ensures InitialScene().markers == map[] && InitialScene().zoom == 20
  {
  }

  /** Running commands in two batches is running them in one. */
  lemma {:induction false} RunAppend(sc: Scene, a: seq<Command>, b: seq<Command>)
    ensures Run(sc, a + b) == Run(Run(sc, a), b)
    decreases |a|
  {
    if a == [] {
      assert a + b == b;
    } else {
      assert (a + b)[0] == a[0] && (a + b)[1..] == a[1..] + b;
      RunAppend(Apply(sc, a[0]), a[1..], b);
    }
  }

  lemma ApplyKeepsValid(sc: Scene, c: Command)
    requires SceneValid(sc)
    ensures SceneValid(Apply(sc, c))
    ensures Apply(sc, c).nextSerial >= sc.nextSerial
    ensures Apply(sc, c).bridgeReady == sc.bridgeReady && Apply(sc, c).sent == sc.sent
  {
  }

  /** Executing commands keeps the scene consistent and never touches the channel. */
  lemma {:induction false} RunKeepsValid(sc: Scene, cs: seq<Command>)
    requires SceneValid(sc)
    ensures SceneValid(Run(sc, cs))
    ensures Run(sc, cs).nextSerial >= sc.nextSerial
    ensures Run(sc, cs).bridgeReady == sc.bridgeReady && Run(sc, cs).sent == sc.sent
    decreases |cs|
  {
    if cs != [] {
      ApplyKeepsValid(sc, cs[0]);
      RunKeepsValid(Apply(sc, cs[0]), cs[1..]);
    }
  }

  /**
   * `addMarker` on an id already in the table replaces its entry; the
   * displaced layer stays on the map and survives the next `clearMarkers`.
   */
  lemma DisplacedLayerSurvivesClear(sc: Scene, id: string, lat: real, lng: real, text: string)
    requires SceneValid(sc)
    requires id in sc.markers
    ensures var after := AddMarkerStep(sc, id, lat, lng, text);
      && sc.markers[id] !in after.markers.Values
      && sc.markers[id] in ClearStep(after).onMap
  {
    var displaced := sc.markers[id];
    var after := AddMarkerStep(sc, id, lat, lng, text);
    assert after.markers[id].serial == sc.nextSerial > displaced.serial;
    assert forall k :: k in after.markers ==> after.markers[k] != displaced;
  }

  /** The right-click layer is never recorded, so no later `clearMarkers` removes it. */
  lemma ContextMenuLayerSurvivesClear(sc: Scene, lat: real, lng: real)
    requires SceneValid(sc)
    ensures var after := ContextMenuStep(sc, lat, lng);
      var m := Layer(sc.nextSerial, LatLng(lat, lng), Some(WaypointCallout(LatLng(lat, lng))));
      && m in after.onMap
      && m !in after.markers.Values
      && m in ClearStep(after).onMap
  {
    var m := Layer(sc.nextSerial, LatLng(lat, lng), Some(WaypointCallout(LatLng(lat, lng))));
    assert m !in sc.onMap;
    assert forall k :: k in sc.markers ==> sc.markers[k] != m;
  }

  /**
   * Before the channel handshake a right-click is drawn but not reported;
   * afterwards exactly its point is reported.
   */
  lemma ContextMenuReporting(sc: Scene, lat: real, lng: real)
    ensures !sc.bridgeReady ==> ContextMenuStep(sc, lat, lng).sent == sc.sent
    ensures sc.bridgeReady ==> ContextMenuStep(sc, lat, lng).sent == sc.sent + [LatLng(lat, lng)]
    ensures ContextMenuStep(sc, lat, lng).markers == sc.markers
  {
  }

  /** The script state as the page holds it; every function mutates it in place. */
  class MapPage {
    var center: LatLng
    var zoom: int
    var onMap: set<Layer>
    var markers: map<string, Layer>
    var nextSerial: nat
    var bridgeReady: bool
    var sent: seq<LatLng>

    function Snapshot(): Scene
      reads this
    {
      Scene(center, zoom, onMap, markers, nextSerial, bridgeReady, sent)
    }

    predicate Valid()
      reads this
    {
      SceneValid(Snapshot())
    }

    /** `L.map('map').setView([22.9048880, 120.2719823], 20)` and `var markers = {}`. */
    constructor ()
      ensures Valid()
      ensures Snapshot() == InitialScene()
    {
      center := LatLng(22.9048880, 120.2719823);
      zoom := 20;
      onMap := {};
      markers := map[];
      nextSerial := 0;
      bridgeReady := false;
      sent := [];
    }

    method AddMarker(id: string, lat: real, lng: real, text: string)
      requires Valid()
      modifies this
      ensures Valid()
      ensures Snapshot() == AddMarkerStep(old(Snapshot()), id, lat, lng, text)
      ensures id in markers && markers[id] !in old(onMap) && markers[id].at == LatLng(lat, lng)
      ensures markers[id].popup.Some? <==> text != ""
      ensures markers.Keys == old(markers.Keys) + {id}
      ensures forall k :: k in old(markers) && k != id ==> markers[k] == old(markers[k])
      ensures onMap == old(onMap) + {markers[id]}
    {
      var m := Layer(nextSerial, LatLng(lat, lng), if text != "" then Some(LabelPopup(text)) else None);
      onMap := onMap + {m};
      markers := markers[id := m];
      nextSerial := nextSerial + 1;
    }

    method SetCenter(lat: real, lng: real, zoom: Option<int>)
      requires Valid()
      modifies this
      ensures Valid()
      ensures Snapshot() == SetCenterStep(old(Snapshot()), lat, lng, zoom)
      ensures center == LatLng(lat, lng)
      ensures this.zoom == (if zoom.Some? && zoom.value != 0 then zoom.value else old(this.zoom))
    {
      center := LatLng(lat, lng);
      if zoom.Some? && zoom.value != 0 {
        this.zoom := zoom.value;
      }
    }

    /** Removes each recorded layer from the map, one key at a time, then empties the table. */
    method ClearMarkers()
      requires Valid()
      modifies this
      ensures Valid()
      ensures Snapshot() == ClearStep(old(Snapshot()))
      ensures markers == map[] && onMap == old(onMap) - old(markers).Values
    {
      var keys := markers.Keys;
      while keys != {}
        invariant keys <= markers.Keys
        invariant Snapshot().(onMap := old(onMap)) == old(Snapshot())
        invariant onMap == old(onMap) - (set k | k in markers.Keys - keys :: markers[k])
        decreases keys
      {
        var k :| k in keys;
        onMap := onMap - {markers[k]};
        keys := keys - {k};
      }
      assert markers.Keys - keys == markers.Keys;
      assert (set k | k in markers.Keys :: markers[k]) == markers.Values;
      assert onMap <= old(onMap);
      markers := map[];
    }

    method OnChannelReady()
      requires Valid()
      modifies this
      ensures Valid()
      ensures Snapshot() == ChannelReadyStep(old(Snapshot()))
    {
      bridgeReady := true;
    }

    method OnContextMenu(lat: real, lng: real)
      requires Valid()
      modifies this
      ensures Valid()
      ensures Snapshot() == ContextMenuStep(old(Snapshot()), lat, lng)
      ensures markers == old(markers)
      ensures sent == if old(bridgeReady) then old(sent) + [LatLng(lat, lng)] else old(sent)
    {
      var p := LatLng(lat, lng);
      var m := Layer(nextSerial, p, Some(WaypointCallout(p)));
      onMap := onMap + {m};
      nextSerial := nextSerial + 1;
      if bridgeReady {
        sent := sent + [p];
      }
    }

    /** Evaluates one dispatched command. */
    method Execute(c: Command)
      requires Valid()
      modifies this
      ensures Valid()
      ensures Snapshot() == Apply(old(Snapshot()), c)
    {
      match c {
        case SetCenter(lat, lng, z) =>
          SetCenter(lat, lng, Some(z));
        case ClearMarkers =>
          ClearMarkers();
        case AddMarker(idBody, lat, lng, captionBody) =>
          var id, text := JsLiteral(idBody), JsLiteral(captionBody);
          if id.Some? && text.Some? {
            AddMarker(id.value, lat, lng, text.value);
          }
      }
    }
  }
}
