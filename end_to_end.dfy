/**
 * What one full resynchronisation does to the map page: the controller's
 * commands for a native state, executed by the page's script in order.
 */
module EndToEnd {

  import opened Wrappers
  import opened Decimal
  import opened Store
  import opened LabelEscape
  import opened Commands
  import opened Handlers
  import opened MapScript

  function Ids(ms: seq<Marker>): set<string> {
    set i | 0 <= i < |ms| :: ms[i].id
  }

  /**
   * The script reads the marker's id and escaped label back as they are in
   * the store, and the id is an ordinary key of the script's `markers` object
   * (assigning to `__proto__` would replace the object's prototype instead).
   */
  predicate ReadsBack(m: Marker) {
    && m.id != "__proto__"
    && JsLiteral(m.id) == Some(m.id)
    && JsLiteral(EscapeLabel(m.caption)) == Some(LabelText(m.caption))
  }

  /** No later marker shares marker k's id, so marker k's layer is the one left in the table. */
  predicate LastWithId(ms: seq<Marker>, k: int)
    requires 0 <= k < |ms|
  {
    forall j :: k < j < |ms| ==> ms[j].id != ms[k].id
  }

  /** The popup `addMarker` binds for a stored label: none for a missing or empty one. */
  function PopupFor(caption: Option<string>): Option<Popup> {
    if LabelText(caption) != "" then Some(LabelPopup(LabelText(caption))) else None
  }

  /** The table holds, under `id`, a layer at marker m's point with m's label. */
  predicate Shows(r: Scene, id: string, m: Marker) {
    && id in r.markers
    && r.markers[id].at == LatLng(m.lat, m.lng)
    && r.markers[id].popup == PopupFor(m.caption)
  }

  /** Ids without backslashes, quotes or line breaks and labels without backslashes or line breaks read back. */
  lemma SafeMarkerReadsBack(m: Marker)
    requires LiteralSafe(m.id) && forall i :: 0 <= i < |m.id| ==> m.id[i] != Quote
    requires LiteralSafe(LabelText(m.caption))
    requires m.id != "__proto__"
    ensures ReadsBack(m)
  {
    PlainDecodes(m.id);
    EscapeDecodes(LabelText(m.caption));
  }

  /** A readable `addMarker` command runs the script's `addMarker` on the stored values. */
  lemma ApplyAdd(sc: Scene, m: Marker)
    requires ReadsBack(m)
    ensures Apply(sc, AddCommand(m)) == AddMarkerStep(sc, m.id, m.lat, m.lng, LabelText(m.caption))
  {
  }

  /** Run on the last command of a batch. */
  lemma RunSnoc(sc: Scene, cs: seq<Command>, c: Command)
    ensures Run(sc, cs + [c]) == Apply(Run(sc, cs), c)
  {
    RunAppend(sc, cs, [c]);
    assert Run(Run(sc, cs), [c]) == Run(Apply(Run(sc, cs), c), []);
  }

  /** Adds only draw new layers: nothing on the map disappears and the view is untouched. */
  lemma {:induction false} RunAddsFrame(sc: Scene, ms: seq<Marker>)
    requires SceneValid(sc)
    ensures var r := Run(sc, AddCommands(ms));
      && SceneValid(r)
      && r.center == sc.center && r.zoom == sc.zoom
      && sc.onMap <= r.onMap
      && r.nextSerial >= sc.nextSerial
      && (forall l :: l in r.onMap && l !in sc.onMap ==> l.serial >= sc.nextSerial)
    decreases |ms|
  {
    if ms != [] {
      var init, last := ms[..|ms| - 1], ms[|ms| - 1];
      RunAddsFrame(sc, init);
      var r0 := Run(sc, AddCommands(init));
      RunSnoc(sc, AddCommands(init), AddCommand(last));
      ApplyKeepsValid(r0, AddCommand(last));
    }
  }

  lemma IdsSnoc(ms: seq<Marker>)
    requires ms != []
    ensures Ids(ms) == Ids(ms[..|ms| - 1]) + {ms[|ms| - 1].id}
  {
    var init := ms[..|ms| - 1];
    forall x | x in Ids(ms)
      ensures x in Ids(init) + {ms[|ms| - 1].id}
    {
      var i :| 0 <= i < |ms| && ms[i].id == x;
      if i < |init| {
        assert init[i].id == x;
      }
    }
  }

  /** The adds for a non-empty list end with the script's `addMarker` for its last marker. */
  lemma RunAddsSnoc(sc: Scene, ms: seq<Marker>)
    requires ms != [] && ReadsBack(ms[|ms| - 1])
    ensures var last := ms[|ms| - 1];
      Run(sc, AddCommands(ms))
      == AddMarkerStep(Run(sc, AddCommands(ms[..|ms| - 1])), last.id, last.lat, last.lng, LabelText(last.caption))
  {
    var init, last := ms[..|ms| - 1], ms[|ms| - 1];
    RunSnoc(sc, AddCommands(init), AddCommand(last));
    ApplyAdd(Run(sc, AddCommands(init)), last);
  }

  /** After the adds, the table's keys are the old keys and the markers' ids. */
  lemma {:induction false} RunAddsKeys(sc: Scene, ms: seq<Marker>)
    requires forall i :: 0 <= i < |ms| ==> ReadsBack(ms[i])
    ensures Run(sc, AddCommands(ms)).markers.Keys == sc.markers.Keys + Ids(ms)
    decreases |ms|
  {
    if ms == [] {
      assert Ids(ms) == {};
    } else {
      var init := ms[..|ms| - 1];
      assert forall i :: 0 <= i < |init| ==> init[i] == ms[i];
      RunAddsKeys(sc, init);
      RunAddsSnoc(sc, ms);
      IdsSnoc(ms);
    }
  }

  /** After the adds, each id holds the layer of the last marker with that id. */
  lemma {:induction false} RunAddsEntries(sc: Scene, ms: seq<Marker>)
    requires forall i :: 0 <= i < |ms| ==> ReadsBack(ms[i])
    ensures var r := Run(sc, AddCommands(ms));
      forall k :: 0 <= k < |ms| && LastWithId(ms, k) ==> Shows(r, ms[k].id, ms[k])
    decreases |ms|
  {
    if ms != [] {
      var init := ms[..|ms| - 1];
      assert forall i :: 0 <= i < |init| ==> init[i] == ms[i];
      var last := ms[|ms| - 1];
      RunAddsEntries(sc, init);
      RunAddsSnoc(sc, ms);
      var r0 := Run(sc, AddCommands(init));
      var r := AddMarkerStep(r0, last.id, last.lat, last.lng, LabelText(last.caption));
      forall k | 0 <= k < |ms| && LastWithId(ms, k)
        ensures Shows(r, ms[k].id, ms[k])
      {
        if k < |init| {
          assert ms[k].id != last.id;
          assert init[k] == ms[k];
          assert LastWithId(init, k);
        }
      }
    }
  }

  /**
   * After one resync's commands, the table holds exactly the store's ids, the
   * layer under each id shows the last store marker with that id, the view
   * is the store's (a zero zoom keeps the page's), every previously recorded
   * layer is gone from the map and every unrecorded one is still on it.
   */
  lemma ResyncRebuilds(sc: Scene, s: MapState)
    requires SceneValid(sc)
    requires forall i :: 0 <= i < |s.markers| ==> ReadsBack(s.markers[i])
    ensures var r := Run(sc, Resync(s));
      && SceneValid(r)
      && r.center == s.center
      && r.zoom == (if s.zoom != 0 then s.zoom else sc.zoom)
      && r.markers.Keys == Ids(s.markers)
      && (forall k :: 0 <= k < |s.markers| && LastWithId(s.markers, k) ==>
            Shows(r, s.markers[k].id, s.markers[k]))
      && (forall l :: l in sc.markers.Values ==> l !in r.onMap)
      && (forall l :: l in sc.onMap && l !in sc.markers.Values ==> l in r.onMap)
  {
    var pre := [SetCenter(s.center.lat, s.center.lng, s.zoom), ClearMarkers];
    var sc0 := SetCenterStep(sc, s.center.lat, s.center.lng, Some(s.zoom));
    var sc1 := ClearStep(sc0);
    RunSnoc(sc, [pre[0]], ClearMarkers);
    assert [pre[0]] + [ClearMarkers] == pre;
    assert Run(sc, [pre[0]]) == Run(sc0, []);
    assert Run(sc, pre) == sc1;
    RunAppend(sc, pre, AddCommands(s.markers));
    RunAddsFrame(sc1, s.markers);
    RunAddsKeys(sc1, s.markers);
    RunAddsEntries(sc1, s.markers);
    forall l | l in sc.markers.Values
      ensures l !in Run(sc, Resync(s)).onMap
    {
      assert l in sc.onMap;
    }
  }

  /**
   * For a store the handlers built, the table after a resync maps `m1` ..
   * `m{n}` to layers at the markers' coordinates with their labels.
   */
  lemma HandlerStoreResync(sc: Scene, s: MapState)
    requires SceneValid(sc)
    requires HandlerBuilt(s.markers)
    ensures var r := Run(sc, Resync(s));
      && r.markers.Keys == Ids(s.markers)
      && (forall k :: 0 <= k < |s.markers| ==> Shows(r, MarkerId(k + 1), s.markers[k]))
  {
    HandlerBuiltReadsBack(s.markers);
    HandlerBuiltLastWithId(s.markers);
    ResyncRebuilds(sc, s);
    CanonicalEntries(Run(sc, Resync(s)), s.markers);
  }

  /** With canonical ids, "the layer of the last marker with id x" is the layer of marker k under `m{k+1}`. */
  lemma CanonicalEntries(r: Scene, ms: seq<Marker>)
    requires forall k :: 0 <= k < |ms| ==> LastWithId(ms, k) && ms[k].id == MarkerId(k + 1)
    requires forall k :: 0 <= k < |ms| && LastWithId(ms, k) ==> Shows(r, ms[k].id, ms[k])
    ensures forall k :: 0 <= k < |ms| ==> Shows(r, MarkerId(k + 1), ms[k])
  {
    forall k | 0 <= k < |ms|
      ensures Shows(r, MarkerId(k + 1), ms[k])
    {
      assert LastWithId(ms, k) && ms[k].id == MarkerId(k + 1);
      assert Shows(r, ms[k].id, ms[k]);
    }
  }

  lemma HandlerBuiltReadsBack(ms: seq<Marker>)
    requires HandlerBuilt(ms)
    ensures forall i :: 0 <= i < |ms| ==> ReadsBack(ms[i])
  {
    HandlerBuiltDecodes(ms);
    forall i | 0 <= i < |ms|
      ensures ms[i].id != "__proto__"
    {
      assert ms[i].id[0] == 'm' != "__proto__"[0];
    }
  }

  lemma HandlerBuiltLastWithId(ms: seq<Marker>)
    requires HandlerBuilt(ms)
    ensures forall k :: 0 <= k < |ms| ==> LastWithId(ms, k) && ms[k].id == MarkerId(k + 1)
  {
    CanonicalIdsDistinct(ms);
  }

  /**
   * A right-click after the handshake: the page draws its own callout layer
   * and reports the point; the controller appends `m{n+1}` labelled
   * `WP{n+1}`; the resync that follows records that marker, and the callout
   * layer stays on the map beside it.
   */
  lemma WaypointRoundTrip(sc: Scene, s: MapState, lat: real, lng: real)
    requires SceneValid(sc) && sc.bridgeReady
    requires HandlerBuilt(s.markers)
    ensures var sc1 := ContextMenuStep(sc, lat, lng);
      var s1 := Handle(s, WaypointAdded(sc1.sent[|sc1.sent| - 1]));
      var r := Run(sc1, Resync(s1));
      var n := |s.markers|;
      var callout := Layer(sc.nextSerial, LatLng(lat, lng), Some(WaypointCallout(LatLng(lat, lng))));
      && sc1.sent == sc.sent + [LatLng(lat, lng)]
      && MarkerId(n + 1) in r.markers
      && r.markers[MarkerId(n + 1)].at == LatLng(lat, lng)
      && r.markers[MarkerId(n + 1)].popup == Some(LabelPopup(WaypointLabel(n + 1)))
      && callout in r.onMap
  {
    var sc1 := ContextMenuStep(sc, lat, lng);
    var s1 := Handle(s, WaypointAdded(LatLng(lat, lng)));
    ContextMenuLayerSurvivesClear(sc, lat, lng);
    HandleKeepsHandlerBuilt(s, WaypointAdded(LatLng(lat, lng)));
    HandlerBuiltReadsBack(s1.markers);
    HandlerBuiltLastWithId(s1.markers);
    ResyncRebuilds(sc1, s1);
    HandleEffect(s, WaypointAdded(LatLng(lat, lng)));
  }

  /**
   * The first marker added on a fresh store under the initial view gives
   * exactly `setCenter(22.904888, 120.2719823, 20)`, `clearMarkers()` and
   * `addMarker('m1', 1.0, 2.0, '1')`.
   */
  lemma FirstMarkerCommands()
    ensures Resync(Handle(MapState(LatLng(22.904888, 120.2719823), 20, []), AddClicked(Some(1.0), Some(2.0))))
         == [SetCenter(22.904888, 120.2719823, 20), ClearMarkers, AddMarker("m1", 1.0, 2.0, "1")]
  {
    assert DigitChar(1) == '1';
    assert MarkerId(1) == "m1" && UiLabel(1) == "1";
    var m := Marker("m1", 1.0, 2.0, Some("1"));
    assert Handle(MapState(LatLng(22.904888, 120.2719823), 20, []), AddClicked(Some(1.0), Some(2.0))).markers == [m];
    assert Escape("1") == "1";
    assert AddCommands([m]) == [AddCommand(m)];
  }

  /** Executed on the page as loaded, those commands leave exactly `m1` in the table. */
  lemma FirstMarkerTable()
    ensures Run(InitialScene(), Resync(MapState(LatLng(22.904888, 120.2719823), 20, [Marker("m1", 1.0, 2.0, Some("1"))])))
              .markers.Keys == {"m1"}
  {
    var ms := [Marker("m1", 1.0, 2.0, Some("1"))];
    SafeMarkerReadsBack(ms[0]);
    InitialSceneValid();
    ResyncRebuilds(InitialScene(), MapState(LatLng(22.904888, 120.2719823), 20, ms));
    assert Ids(ms) == {"m1"};
  }
}
