/**
 * What the controller's event handlers do to the native state: parse
 * failures are ignored, new markers get id `m{n+1}` and label `{n+1}` (typed
 * coordinates) or `WP{n+1}` (a right-click on the map), where n is the number
 * of markers before the call.
 */
module Handlers {

  import opened Wrappers
  import opened Decimal
  import opened Store
  import opened LabelEscape

  function MarkerId(n: nat): string {
    "m" + Show(n)
  }

  function UiLabel(n: nat): string {
    Show(n)
  }

  function WaypointLabel(n: nat): string {
    "WP" + Show(n)
  }

  /** The events the controller reacts to; a coordinate that fails to parse is None. */
  datatype UiEvent =
    | AddClicked(lat: Option<real>, lng: Option<real>)
    | CenterClicked(lat: Option<real>, lng: Option<real>)
    | ClearClicked
    | WaypointAdded(point: LatLng)

  /** The native state after the controller handled `e`. */
  function Handle(s: MapState, e: UiEvent): MapState {
    var n := |s.markers|;
    match e
    case AddClicked(lat, lng) =>
      if lat.None? || lng.None? then s
      else s.(markers := s.markers + [Marker(MarkerId(n + 1), lat.value, lng.value, Some(UiLabel(n + 1)))])
    case CenterClicked(lat, lng) =>
      if lat.None? || lng.None? then s
      else s.(center := LatLng(lat.value, lng.value))
    case ClearClicked =>
      s.(markers := [])
    case WaypointAdded(p) =>
      s.(markers := s.markers + [Marker(MarkerId(n + 1), p.lat, p.lng, Some(WaypointLabel(n + 1)))])
  }

  /**
   * The guard under which the controller's handler for `e` calls the state
   * holder at all (both coordinates parse, or the event carries no text).
   * That each such call fires exactly one change notification is stated by
   * the controller's log, not here.
   */
  predicate Notifies(e: UiEvent) {
    match e
    case AddClicked(lat, lng) => lat.Some? && lng.Some?
    case CenterClicked(lat, lng) => lat.Some? && lng.Some?
    case ClearClicked => true
    case WaypointAdded(_) => true
  }

  function HandleAll(s: MapState, es: seq<UiEvent>): MapState
    decreases |es|
  {
    if es == [] then s else HandleAll(Handle(s, es[0]), es[1..])
  }

  /** Marker i (0-based) has id `m{i+1}`. */
  predicate CanonicalIds(ms: seq<Marker>) {
    forall i :: 0 <= i < |ms| ==> ms[i].id == MarkerId(i + 1)
  }

  /** Marker i (0-based) has one of the two labels the handlers generate for it. */
  predicate GeneratedLabels(ms: seq<Marker>) {
    forall i :: 0 <= i < |ms| ==>
      ms[i].caption == Some(UiLabel(i + 1)) || ms[i].caption == Some(WaypointLabel(i + 1))
  }

  /** The shape of every marker list the handlers can build from an empty one. */
  predicate HandlerBuilt(ms: seq<Marker>) {
    CanonicalIds(ms) && GeneratedLabels(ms)
  }

  /** A failed parse leaves the state alone. */
  lemma ParseFailureIsNoOp(s: MapState, e: UiEvent)
    requires e.AddClicked? || e.CenterClicked?
    requires e.lat.None? || e.lng.None?
    ensures Handle(s, e) == s
  {
  }

  /**
   * Each handled event changes the marker list by at most one appended
   * marker or a clear; centering replaces the center only.
   */
  lemma HandleEffect(s: MapState, e: UiEvent)
    ensures var r := Handle(s, e);
      var n := |s.markers|;
      && (e.ClearClicked? ==> r == s.(markers := []))
      && (e.CenterClicked? && Notifies(e) ==> r == s.(center := LatLng(e.lat.value, e.lng.value)))
      && (e.AddClicked? && Notifies(e) ==>
            r == s.(markers := s.markers + [Marker(MarkerId(n + 1), e.lat.value, e.lng.value, Some(UiLabel(n + 1)))]))
      && (e.WaypointAdded? ==>
            r == s.(markers := s.markers + [Marker(MarkerId(n + 1), e.point.lat, e.point.lng, Some(WaypointLabel(n + 1)))]))
  {
  }

  /** Handling any event keeps a handler-built marker list handler-built. */
  lemma HandleKeepsHandlerBuilt(s: MapState, e: UiEvent)
    requires HandlerBuilt(s.markers)
    ensures HandlerBuilt(Handle(s, e).markers)
  {
  }

  /**
   * If the markers change only through the handlers, marker i keeps id
   * `m{i+1}` and a generated label, whatever events arrive.
   */
  lemma {:induction false} HandleAllKeepsHandlerBuilt(s: MapState, es: seq<UiEvent>)
    requires HandlerBuilt(s.markers)
    ensures HandlerBuilt(HandleAll(s, es).markers)
    decreases |es|
  {
    if es != [] {
      HandleKeepsHandlerBuilt(s, es[0]);
      HandleAllKeepsHandlerBuilt(Handle(s, es[0]), es[1..]);
    }
  }

  /** Canonical ids are pairwise distinct. */
  lemma CanonicalIdsDistinct(ms: seq<Marker>)
    requires CanonicalIds(ms)
    ensures forall i, j :: 0 <= i < j < |ms| ==> ms[i].id != ms[j].id
  {
    forall i, j | 0 <= i < j < |ms|
      ensures ms[i].id != ms[j].id
    {
      var a, b := ms[i].id[1..], ms[j].id[1..];
      assert a == Show(i + 1) && b == Show(j + 1);
      assert DigitsValue(a) != DigitsValue(b);
    }
  }

  /** After a clear, numbering starts again at `m1`, for typed coordinates and right-clicks alike. */
  lemma ClearRestartsNumbering(s: MapState, lat: real, lng: real)
    ensures Handle(Handle(s, ClearClicked), AddClicked(Some(lat), Some(lng))).markers
         == [Marker("m1", lat, lng, Some("1"))]
    ensures Handle(Handle(s, ClearClicked), WaypointAdded(LatLng(lat, lng))).markers
         == [Marker("m1", lat, lng, Some("WP1"))]
  {
    assert DigitChar(1) == '1';
    assert MarkerId(1) == "m1" && UiLabel(1) == "1" && WaypointLabel(1) == "WP1";
  }

  /** A right-click label never looks like a typed-coordinate label. */
  lemma WaypointLabelIsNotUiLabel(n: nat, k: nat)
    ensures WaypointLabel(n) != UiLabel(k)
  {
    assert WaypointLabel(n)[0] == 'W';
    assert IsDigit(UiLabel(k)[0]);
  }

  /** Generated ids are read back verbatim by the map script. */
  lemma IdDecodes(n: nat)
    ensures JsLiteral(MarkerId(n)) == Some(MarkerId(n))
  {
    var t := MarkerId(n);
    assert forall j :: 0 <= j < |t| ==> t[j] == 'm' || IsDigit(t[j]);
    PlainDecodes(t);
  }

  /** Generated labels, once escaped, are read back verbatim by the map script. */
  lemma LabelsDecode(n: nat)
    ensures JsLiteral(Escape(UiLabel(n))) == Some(UiLabel(n))
    ensures JsLiteral(Escape(WaypointLabel(n))) == Some(WaypointLabel(n))
  {
    var u, w := UiLabel(n), WaypointLabel(n);
    assert forall j :: 0 <= j < |u| ==> IsDigit(u[j]);
    EscapeDecodes(u);
    assert forall j :: 0 <= j < |w| ==> w[j] == 'W' || w[j] == 'P' || IsDigit(w[j]);
    EscapeDecodes(w);
  }

  /** Handler-built ids and labels are read back verbatim by the map script. */
  lemma HandlerBuiltDecodes(ms: seq<Marker>)
    requires HandlerBuilt(ms)
    ensures forall i :: 0 <= i < |ms| ==> JsLiteral(ms[i].id) == Some(ms[i].id)
    ensures forall i :: 0 <= i < |ms| ==> JsLiteral(EscapeLabel(ms[i].caption)) == Some(LabelText(ms[i].caption))
  {
    forall i | 0 <= i < |ms|
      ensures JsLiteral(ms[i].id) == Some(ms[i].id)
      ensures JsLiteral(EscapeLabel(ms[i].caption)) == Some(LabelText(ms[i].caption))
    {
      IdDecodes(i + 1);
      LabelsDecode(i + 1);
    }
  }
}
