/** The drawn-polygon state of app.js: the layers of the `drawnItems`
    feature group and the retained `lastPolygonGeoJSON`, changed by the
    draw, edit, delete and clear events. */
module Drawing {
  import opened Geo
  import opened Yield

  /** The layers of `drawnItems` (as GeoJSON) and `lastPolygonGeoJSON`. */
  datatype DrawnView = DrawnView(layers: seq<Polygon>, lastPolygon: Option<Polygon>)

  /** Page load: nothing drawn, nothing retained. */
  const Initial: DrawnView := DrawnView([], None)

  /** At most one polygon is on the map, and the retained polygon is the one
      on the map (none when the map is empty). */
  predicate OneRetained(v: DrawnView) {
    |v.layers| <= 1 && v.lastPolygon == (if v.layers == [] then None else Some(v.layers[0]))
  }

  /** The weaker rule the page keeps as written: at most one polygon is on
      the map, and a polygon on the map is the retained one (a polygon may
      be retained while the map is empty). */
  predicate ShownRetained(v: DrawnView) {
    |v.layers| <= 1 && (v.layers != [] ==> v.lastPolygon == Some(v.layers[0]))
  }

  /** draw:created: earlier layers are cleared, the new one is added and
      retained, whatever the state was. */
  function AfterCreated(v: DrawnView, p: Polygon): (w: DrawnView)
    ensures OneRetained(w) && w.lastPolygon == Some(p)
  {
    DrawnView([p], Some(p))
  }

  /** Creating a polygon forgets everything drawn before it. */
  lemma CreateForgetsPrevious(u: DrawnView, v: DrawnView, p: Polygon)
    ensures AfterCreated(u, p) == AfterCreated(v, p)
  {
  }

  /** draw:edited, after the edit tool has reshaped the layers in place into
      `edited` (editing neither adds nor removes layers): the first layer is
      retained if there is one; otherwise nothing changes. */
  function AfterEdited(v: DrawnView, edited: seq<Polygon>): (w: DrawnView)
    requires |edited| == |v.layers|
    ensures w.layers == edited
    ensures edited == [] ==> w.lastPolygon == v.lastPolygon
    ensures edited != [] ==> w.lastPolygon == Some(edited[0])
    ensures OneRetained(v) ==> OneRetained(w)
  {
    if |edited| > 0 then DrawnView(edited, Some(edited[0])) else DrawnView(edited, v.lastPolygon)
  }

  /** The clear button: the map is emptied and nothing is retained. */
  function AfterCleared(v: DrawnView): (w: DrawnView)
    ensures OneRetained(w) && w.lastPolygon.None? && w.layers == []
  {
    DrawnView([], None)
  }

  /** The draw toolbar's delete tool as app.js leaves it: the tool removes
      the chosen layers (with at most one layer: that one or none), and no
      draw:deleted handler updates the retained polygon. */
  function AfterDeleteAsWritten(v: DrawnView, remaining: seq<Polygon>): (w: DrawnView)
    requires remaining == [] || remaining == v.layers
    ensures w.layers == remaining && w.lastPolygon == v.lastPolygon
    ensures v.lastPolygon.Some? && remaining == [] ==> !OneRetained(w)
  {
    DrawnView(remaining, v.lastPolygon)
  }

  /** The delete tool with a draw:deleted handler that retains the first
      remaining layer, like the edit handler, and nothing once the map is
      empty, like the clear button. */
  function AfterDeleted(v: DrawnView, remaining: seq<Polygon>): (w: DrawnView)
    requires remaining == [] || remaining == v.layers
    ensures w.layers == remaining
    ensures remaining == [] ==> w.lastPolygon.None?
    ensures OneRetained(v) ==> OneRetained(w)
  {
    if |remaining| > 0 then DrawnView(remaining, Some(remaining[0])) else DrawnView(remaining, None)
  }

  /** A user action on the map: draw a polygon, reshape the drawn layer,
      delete the drawn layer (or leave the delete tool keeping it), or press
      the clear button. */
  datatype Event = Create(p: Polygon) | Edit(shape: Polygon) | Delete(keep: bool) | Clear

  /** The state after one event. With `deleteHandled` false the delete tool
      runs as app.js leaves it (no draw:deleted handler); with it true, the
      delete goes through the corrected handler. */
  function Step(v: DrawnView, e: Event, deleteHandled: bool): (w: DrawnView)
    ensures e.Create? ==> w.layers == [e.p] && w.lastPolygon == Some(e.p)
    ensures e.Clear? ==> w == Initial
    ensures ShownRetained(v) ==> ShownRetained(w)
    ensures deleteHandled && OneRetained(v) ==> OneRetained(w)
  {
    match e
    case Create(p) => AfterCreated(v, p)
    case Edit(shape) => AfterEdited(v, seq(|v.layers|, _ => shape))
    case Delete(keep) =>
      var remaining := if keep then v.layers else [];
      if deleteHandled then AfterDeleted(v, remaining) else AfterDeleteAsWritten(v, remaining)
    case Clear => AfterCleared(v)
  }

  /** The state after a sequence of events. As written, the weaker rule
      `ShownRetained` holds after any sequence; with the draw:deleted handler
      the full rule `OneRetained` does. */
  function Replay(v: DrawnView, events: seq<Event>, deleteHandled: bool): (w: DrawnView)
    ensures ShownRetained(v) ==> ShownRetained(w)
    ensures deleteHandled && OneRetained(v) ==> OneRetained(w)
    decreases |events|
  {
    if events == [] then v else Replay(Step(v, events[0], deleteHandled), events[1..], deleteHandled)
  }

  /** Until a polygon is drawn, edits, deletes and clears leave the page in
      its initial state, so polygon mode keeps asking for a polygon; this
      holds with or without the draw:deleted handler. */
  lemma {:induction false} NothingRetainedBeforeDrawing(events: seq<Event>, deleteHandled: bool,
                                                        inp: Inputs, turfArea: AreaOracle)
    requires forall i :: 0 <= i < |events| ==> !events[i].Create?
    ensures Replay(Initial, events, deleteHandled) == Initial
    ensures inp.areaMode == PolygonMode ==> Recalc(inp, Replay(Initial, events, deleteHandled).lastPolygon, turfArea).NoArea?
  {
    if events != [] {
      assert Step(Initial, events[0], deleteHandled) == Initial;
      NothingRetainedBeforeDrawing(events[1..], deleteHandled, inp, turfArea);
    }
  }

  /** With the draw:deleted handler: after any sequence of events from page
      load, polygon mode gives an estimate only when exactly one polygon is on
      the map, and the estimate's area is that polygon's area. */
  lemma EstimateNeedsPolygonOnMap(events: seq<Event>, inp: Inputs, turfArea: AreaOracle)
    requires inp.areaMode == PolygonMode
    ensures var v := Replay(Initial, events, true);
            Recalc(inp, v.lastPolygon, turfArea).Estimate? ==>
              |v.layers| == 1 && turfArea(v.layers[0]) == Some(Recalc(inp, v.lastPolygon, turfArea).availM2)
  {
    assert OneRetained(Initial);
  }

  /** As written, the same does not hold: drawing a polygon with a positive
      area and deleting it with the toolbar leaves an empty map and an
      estimate. */
  lemma EstimateWithEmptyMapAsWritten(p: Polygon, a: AreaM2, inp: Inputs, turfArea: AreaOracle)
    requires inp.areaMode == PolygonMode && 0.0 < a && turfArea(p) == Some(a)
    ensures var v := Replay(Initial, [Create(p), Delete(false)], false);
            v.layers == [] && Recalc(inp, v.lastPolygon, turfArea).Estimate?
  {
    var events := [Create(p), Delete(false)];
    var v1 := Step(Initial, Create(p), false);
    var v2 := Step(v1, Delete(false), false);
    assert events[1..] == [Delete(false)] && events[1..][1..] == [];
    assert Replay(Initial, events, false) == Replay(v1, [Delete(false)], false) == Replay(v2, [], false);
    assert v2 == DrawnView([], Some(p));
  }

  /** As written, one delete is enough to break the rule: draw a polygon and
      delete it with the toolbar. */
  lemma DeleteAsWrittenBreaksRule(p: Polygon)
    ensures !OneRetained(AfterDeleteAsWritten(AfterCreated(Initial, p), []))
    ensures OneRetained(AfterDeleted(AfterCreated(Initial, p), []))
  {
  }

  /** The page's drawn-polygon state, changed in place by the handlers. */
  class DrawState {
    /** The layers of `drawnItems`, as GeoJSON. */
    var layers: seq<Polygon>
    /** `lastPolygonGeoJSON`: the polygon whose area the estimate uses. */
    var lastPolygon: Option<Polygon>

    function View(): DrawnView
      reads this
    {
      DrawnView(layers, lastPolygon)
    }

    ghost predicate Valid()
      reads this
    {
      OneRetained(View())
    }

    constructor ()
      ensures Valid()
      ensures View() == Initial
    {
      layers := [];
      lastPolygon := None;
    }

    /** The draw:created handler. */
    method Created(p: Polygon)
      modifies this
      ensures View() == AfterCreated(old(View()), p)
      ensures Valid()
    {
      layers := [];
      layers := layers + [p];
      lastPolygon := Some(p);
    }

    /** The draw:edited handler, once the edit tool has reshaped the layers. */
    method Edited(edited: seq<Polygon>)
      requires |edited| == |layers|
      modifies this
      ensures View() == AfterEdited(old(View()), edited)
      ensures old(Valid()) ==> Valid()
    {
      layers := edited;
      if |layers| > 0 {
        lastPolygon := Some(layers[0]);
      }
    }

    /** The clear button's handler. */
    method Cleared()
      modifies this
      ensures View() == AfterCleared(old(View()))
      ensures Valid()
    {
      layers := [];
      lastPolygon := None;
    }

    /** The delete tool as app.js leaves it: no handler runs. */
    method DeleteAsWritten(remaining: seq<Polygon>)
      requires remaining == [] || remaining == layers
      modifies this
      ensures View() == AfterDeleteAsWritten(old(View()), remaining)
      ensures old(lastPolygon).Some? && remaining == [] ==> !Valid()
    {
      layers := remaining;
    }

    /** The delete tool with a draw:deleted handler. */
    method Deleted(remaining: seq<Polygon>)
      requires remaining == [] || remaining == layers
      modifies this
      ensures View() == AfterDeleted(old(View()), remaining)
      ensures old(Valid()) ==> Valid()
    {
      layers := remaining;
      if |layers| > 0 {
        lastPolygon := Some(layers[0]);
      } else {
        lastPolygon := None;
      }
    }
  }

  /** As written: draw a polygon, delete it with the toolbar, recalculate in
      polygon mode. The map is empty, yet the estimate still uses the deleted
      polygon's area. */
  method StaleAreaAfterDelete(p: Polygon, a: AreaM2, inp: Inputs, turfArea: AreaOracle)
      returns (onMap: seq<Polygon>, out: Outcome)
    requires inp.areaMode == PolygonMode && 0.0 < a && turfArea(p) == Some(a)
    ensures onMap == []
    ensures out.Estimate? && out.availM2 == a
  {
    var d := new DrawState();
    d.Created(p);
    d.DeleteAsWritten([]);
    assert !d.Valid();
    onMap := d.layers;
    out := Recalc(inp, d.lastPolygon, turfArea);
  }

  /** With the draw:deleted handler: the same steps leave no estimate, only
      the request to draw a polygon, exactly as after the clear button. */
  method NoAreaAfterDelete(p: Polygon, inp: Inputs, turfArea: AreaOracle)
      returns (onMap: seq<Polygon>, out: Outcome)
    requires inp.areaMode == PolygonMode
    ensures onMap == []
    ensures out.NoArea?
  {
    var d := new DrawState();
    d.Created(p);
    d.Deleted([]);
    assert d.Valid();
    onMap := d.layers;
    out := Recalc(inp, d.lastPolygon, turfArea);
  }
}
