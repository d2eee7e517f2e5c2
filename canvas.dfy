/** The canvas's gesture handlers: the view transform (scale and translation
    from scene to screen), taps in each tool mode, dragging an entity or
    panning, and the pinch zoom. */
module Canvas {
  import opened Data
  import Seqs
  import Numeric
  import Scene
  import EditorState

  /** `toScene`: the scene point shown at screen point `p`. */
  function SceneOf(p: Point, scale: real, trans: Point): (r: Point)
    requires scale > 0.0
    ensures ScreenOf(r, scale, trans) == p
  {
    Point((p.x - trans.x) / scale, (p.y - trans.y) / scale)
  }

  /** Where the canvas draws scene point `q`: translated by `trans` after
      scaling by `scale`. */
  function ScreenOf(q: Point, scale: real, trans: Point): Point {
    Point(q.x * scale + trans.x, q.y * scale + trans.y)
  }

  /** `toScene` undoes the drawing transform. */
  lemma SceneOfScreen(q: Point, scale: real, trans: Point)
    requires scale > 0.0
    ensures SceneOf(ScreenOf(q, scale, trans), scale, trans) == q
  {
    var p := ScreenOf(q, scale, trans);
    Numeric.MulDiv(q.x, scale);
    Numeric.MulDiv(q.y, scale);
  }

  const MinScale: real := 0.2
  const MaxScale: real := 8.0

  /** The pinch step: the new scale is the old one times `zoom`, clamped to
      [0.2, 8]; the translation first moves by `pan`, then is adjusted so
      the point under `centroid` stays put. */
  function Pinch(scale: real, trans: Point, centroid: Point, pan: Point, zoom: real): (r: (real, Point))
    requires scale > 0.0
    ensures MinScale <= r.0 <= MaxScale
    ensures MinScale <= scale * zoom <= MaxScale ==> r.0 == scale * zoom
    ensures scale * zoom < MinScale ==> r.0 == MinScale
    ensures scale * zoom > MaxScale ==> r.0 == MaxScale
  {
    var newScale := Numeric.CoerceIn(scale * zoom, MinScale, MaxScale);
    (newScale, Toward(Point(trans.x + pan.x, trans.y + pan.y), centroid, newScale / scale))
  }

  /** The translation `t` moved toward `centroid` by the fraction
      `1 - change`. */
  function Toward(t: Point, centroid: Point, change: real): Point {
    Point(t.x + (centroid.x - t.x) * (1.0 - change), t.y + (centroid.y - t.y) * (1.0 - change))
  }

  /** The scene point under the centroid once the pan is applied is still
      under the centroid after the zoom. */
  lemma PinchKeepsFocus(scale: real, trans: Point, centroid: Point, pan: Point, zoom: real)
    requires scale > 0.0
    ensures var r := Pinch(scale, trans, centroid, pan, zoom);
            SceneOf(centroid, r.0, r.1) == SceneOf(centroid, scale, Point(trans.x + pan.x, trans.y + pan.y))
  {
    var r := Pinch(scale, trans, centroid, pan, zoom);
    var pre := Point(trans.x + pan.x, trans.y + pan.y);
    var k := r.0 / scale;
    FocusAxis(centroid.x, pre.x, scale, r.0);
    FocusAxis(centroid.y, pre.y, scale, r.0);
  }

  lemma FocusAxis(c: real, t: real, s: real, s': real)
    requires s > 0.0 && s' > 0.0
    ensures (c - (t + (c - t) * (1.0 - s' / s))) / s' == (c - t) / s
  {
    var k := s' / s;
    assert c - (t + (c - t) * (1.0 - k)) == (c - t) * k;
    assert k * s == s';
    assert (c - t) * k / s' == (c - t) / s;
  }

  /** The box spanned by two taps, as a zone of `hall` numbered `num`: the
      corner is the bottom-left one in screen terms, taken relative to the
      hall's top-left corner; ENTER, angle 0, no snapping. */
  function TappedZone(hall: Hall, a: Point, b: Point, num: Int32): (z: Zone)
    ensures z.hallNumber == hall.number && z.zoneNum == num && z.zoneType == ENTER && z.angleDeg == 0
    ensures z.wPx >= 0.0 && z.hPx >= 0.0
    ensures forall p: Point :: Scene.InDrawnBox(p, z, hall) <==>
              Min(a.x, b.x) <= p.x <= Max(a.x, b.x) && Min(a.y, b.y) <= p.y <= Max(a.y, b.y)
  {
    Zone(hall.number, num, ENTER, 0, Min(a.x, b.x) - hall.xPx, Max(a.y, b.y) - hall.yPx,
         Abs(b.x - a.x), Abs(b.y - a.y))
  }

  function Min(u: real, v: real): real { if u <= v then u else v }
  function Max(u: real, v: real): real { if u >= v then u else v }
  function Abs(u: real): real { if u < 0.0 then -u else u }

  /** The anchor a tap in AddAnchor mode places: at the tap, 0 cm high,
      served by the hall under the tap. */
  function TappedAnchor(hall: Hall, p: Point, num: Int32): (a: Anchor)
    ensures a.number == num && a.xScenePx == p.x && a.yScenePx == p.y && a.zCm == 0
    ensures a.mainHall == Some(hall.number) && a.extraHalls == [] && !a.bound
  {
    DefaultAnchor.(number := num, xScenePx := p.x, yScenePx := p.y, zCm := 0, mainHall := Some(hall.number))
  }

  function AnchorSelection(n: Int32): Scene.Selection { Scene.Selection(None, None, Some(n)) }
  function ZoneSelection(hn: Int32, zn: Int32): Scene.Selection { Scene.Selection(Some(hn), Some((hn, zn)), None) }
  function HallSelection(hn: Int32): Scene.Selection { Scene.Selection(Some(hn), None, None) }

  /** What a drag starting at scene point `p` grabs: an anchor, else a zone,
      else a hall, each only while its class is not locked; None means the
      drag pans. */
  function DragTarget(halls: seq<Hall>, zones: seq<Zone>, anchors: seq<Anchor>,
                      lockHalls: bool, lockZones: bool, lockAnchors: bool,
                      p: Point, trig: Int32 -> Scene.Rotation): (r: Option<Scene.Selection>)
    ensures var a := Scene.AnchorAt(anchors, p, Scene.AnchorRadius);
            !lockAnchors && a.Some? ==> r == Some(AnchorSelection(a.value.number))
    ensures var a := Scene.AnchorAt(anchors, p, Scene.AnchorRadius);
            var z := Scene.ZoneAt(halls, zones, p, trig);
            (lockAnchors || a.None?) && !lockZones && z.Some? ==>
              r == Some(ZoneSelection(z.value.hallNumber, z.value.zoneNum))
    ensures var a := Scene.AnchorAt(anchors, p, Scene.AnchorRadius);
            var z := Scene.ZoneAt(halls, zones, p, trig);
            var h := Scene.HallAt(halls, p);
            (lockAnchors || a.None?) && (lockZones || z.None?) && !lockHalls && h.Some? ==>
              r == Some(HallSelection(h.value.number))
    ensures r.None? <==>
              (lockAnchors || Scene.AnchorAt(anchors, p, Scene.AnchorRadius).None?)
              && (lockZones || Scene.ZoneAt(halls, zones, p, trig).None?)
              && (lockHalls || Scene.HallAt(halls, p).None?)
  {
    var a := Scene.AnchorAt(anchors, p, Scene.AnchorRadius);
    var z := Scene.ZoneAt(halls, zones, p, trig);
    var h := Scene.HallAt(halls, p);
    if a.Some? && !lockAnchors then Some(AnchorSelection(a.value.number))
    else if z.Some? && !lockZones then Some(ZoneSelection(z.value.hallNumber, z.value.zoneNum))
    else if h.Some? && !lockHalls then Some(HallSelection(h.value.number))
    else None
  }

  /** The grid step in scene pixels. */
  function StepPx(pixelPerCm: real, gridStepCm: real): real { pixelPerCm * gridStepCm }

  /** The first index whose element carries the key, or -1. */
  function AnchorIndex(anchors: seq<Anchor>, id: Int32): int {
    Seqs.FirstWhere(anchors, (a: Anchor) => a.number == id)
  }

  function HallIndex(halls: seq<Hall>, n: Int32): int {
    Seqs.FirstWhere(halls, (h: Hall) => h.number == n)
  }

  function ZoneIndex(zones: seq<Zone>, key: (Int32, Int32)): int {
    Seqs.FirstWhere(zones, (z: Zone) => z.hallNumber == key.0 && z.zoneNum == key.1)
  }

  /** The anchor moved by `d` and snapped to the grid of `step` pixels. */
  function MovedAnchor(a: Anchor, d: Point, step: real): (r: Anchor)
    ensures r == a.(xScenePx := r.xScenePx, yScenePx := r.yScenePx)
    ensures step > 0.0 ==>
              (-step / 2.0 <= r.xScenePx - (a.xScenePx + d.x) <= step / 2.0
               && -step / 2.0 <= r.yScenePx - (a.yScenePx + d.y) <= step / 2.0)
    ensures step <= 0.0 ==> r.xScenePx == a.xScenePx + d.x && r.yScenePx == a.yScenePx + d.y
    ensures Numeric.Snap(r.xScenePx, step) == r.xScenePx && Numeric.Snap(r.yScenePx, step) == r.yScenePx
    ensures step > 0.0 ==> Numeric.OnGrid(r.xScenePx, a.xScenePx + d.x, step) && Numeric.OnGrid(r.yScenePx, a.yScenePx + d.y, step)
  {
    Numeric.SnapIdempotent(a.xScenePx + d.x, step);
    Numeric.SnapIdempotent(a.yScenePx + d.y, step);
    a.(xScenePx := Numeric.Snap(a.xScenePx + d.x, step), yScenePx := Numeric.Snap(a.yScenePx + d.y, step))
  }

  function MovedHall(h: Hall, d: Point, step: real): (r: Hall)
    ensures r == h.(xPx := r.xPx, yPx := r.yPx)
    ensures step > 0.0 ==>
              (-step / 2.0 <= r.xPx - (h.xPx + d.x) <= step / 2.0
               && -step / 2.0 <= r.yPx - (h.yPx + d.y) <= step / 2.0)
    ensures step <= 0.0 ==> r.xPx == h.xPx + d.x && r.yPx == h.yPx + d.y
    ensures Numeric.Snap(r.xPx, step) == r.xPx && Numeric.Snap(r.yPx, step) == r.yPx
    ensures step > 0.0 ==> Numeric.OnGrid(r.xPx, h.xPx + d.x, step) && Numeric.OnGrid(r.yPx, h.yPx + d.y, step)
  {
    Numeric.SnapIdempotent(h.xPx + d.x, step);
    Numeric.SnapIdempotent(h.yPx + d.y, step);
    h.(xPx := Numeric.Snap(h.xPx + d.x, step), yPx := Numeric.Snap(h.yPx + d.y, step))
  }

  /** A dragged zone's corner offset moves with the finger, Y downwards. */
  function MovedZone(z: Zone, d: Point, step: real): (r: Zone)
    ensures r == z.(blXPx := r.blXPx, blYPx := r.blYPx)
    ensures step > 0.0 ==>
              (-step / 2.0 <= r.blXPx - (z.blXPx + d.x) <= step / 2.0
               && -step / 2.0 <= r.blYPx - (z.blYPx + d.y) <= step / 2.0)
    ensures step <= 0.0 ==> r.blXPx == z.blXPx + d.x && r.blYPx == z.blYPx + d.y
    ensures Numeric.Snap(r.blXPx, step) == r.blXPx && Numeric.Snap(r.blYPx, step) == r.blYPx
    ensures step > 0.0 ==> Numeric.OnGrid(r.blXPx, z.blXPx + d.x, step) && Numeric.OnGrid(r.blYPx, z.blYPx + d.y, step)
  {
    Numeric.SnapIdempotent(z.blXPx + d.x, step);
    Numeric.SnapIdempotent(z.blYPx + d.y, step);
    z.(blXPx := Numeric.Snap(z.blXPx + d.x, step), blYPx := Numeric.Snap(z.blYPx + d.y, step))
  }

  /** The anchor list after dragging anchor `id`: the first anchor with that
      number is moved, and nothing else changes. */
  function DraggedAnchors(anchors: seq<Anchor>, id: Int32, d: Point, step: real): (r: seq<Anchor>)
    ensures |r| == |anchors|
    ensures forall j :: 0 <= j < |r| && r[j] != anchors[j] ==>
              anchors[j].number == id && (forall k :: 0 <= k < j ==> anchors[k].number != id)
    ensures forall j :: 0 <= j < |r| ==> r[j] == anchors[j] || r[j] == MovedAnchor(anchors[j], d, step)
    ensures forall j :: 0 <= j < |r| && anchors[j].number == id && (forall k :: 0 <= k < j ==> anchors[k].number != id) ==>
              r[j] == MovedAnchor(anchors[j], d, step)
  {
    var i := AnchorIndex(anchors, id);
    if i < 0 then anchors else anchors[i := MovedAnchor(anchors[i], d, step)]
  }

  function DraggedHalls(halls: seq<Hall>, n: Int32, d: Point, step: real): (r: seq<Hall>)
    ensures |r| == |halls|
    ensures forall j :: 0 <= j < |r| && r[j] != halls[j] ==>
              halls[j].number == n && (forall k :: 0 <= k < j ==> halls[k].number != n)
    ensures forall j :: 0 <= j < |r| ==> r[j] == halls[j] || r[j] == MovedHall(halls[j], d, step)
    ensures forall j :: 0 <= j < |r| && halls[j].number == n && (forall k :: 0 <= k < j ==> halls[k].number != n) ==>
              r[j] == MovedHall(halls[j], d, step)
  {
    var i := HallIndex(halls, n);
    if i < 0 then halls else halls[i := MovedHall(halls[i], d, step)]
  }

  /** Zones are found by hall and zone number alone; their type is not
      part of the key. */
  function DraggedZones(zones: seq<Zone>, key: (Int32, Int32), d: Point, step: real): (r: seq<Zone>)
    ensures |r| == |zones|
    ensures forall j :: 0 <= j < |r| && r[j] != zones[j] ==>
              zones[j].hallNumber == key.0 && zones[j].zoneNum == key.1
              && (forall k :: 0 <= k < j ==> !(zones[k].hallNumber == key.0 && zones[k].zoneNum == key.1))
    ensures forall j :: 0 <= j < |r| ==> r[j] == zones[j] || r[j] == MovedZone(zones[j], d, step)
    ensures forall j ::
              (0 <= j < |r| && zones[j].hallNumber == key.0 && zones[j].zoneNum == key.1
               && (forall k :: 0 <= k < j ==> !(zones[k].hallNumber == key.0 && zones[k].zoneNum == key.1))) ==>
              r[j] == MovedZone(zones[j], d, step)
  {
    var i := ZoneIndex(zones, key);
    if i < 0 then zones else zones[i := MovedZone(zones[i], d, step)]
  }

  class PlanCanvas {
    const state: EditorState.PlanEditorState
    var scale: real
    var trans: Point
    var dragging: bool
    var dragEntity: Option<Scene.Selection>
    var isPanning: bool

    predicate Valid()
      reads this, state
    {
      MinScale <= scale <= MaxScale && state.Valid()
    }

    constructor (st: EditorState.PlanEditorState)
      requires st.Valid()
      ensures state == st && Valid()
      ensures scale == 1.0 && trans == Point(0.0, 0.0)
      ensures !dragging && dragEntity == None && !isPanning
    {
      state := st;
      scale := 1.0;
      trans := Point(0.0, 0.0);
      dragging := false;
      dragEntity := None;
      isPanning := false;
    }

    function ToScene(p: Point): (r: Point)
      reads this
      requires MinScale <= scale <= MaxScale
      ensures ScreenOf(r, scale, trans) == p
    {
      SceneOf(p, scale, trans)
    }

    /** `onTap`. The three helpers the handler calls but the editor does not
        define are inputs: `addHallByPoints` (the hall list and the two
        corners to the new hall list and the new hall), `nextZoneNumber`
        and `nextAnchorNumber`. The result is the selection handed to the
        edit callback, when the handler calls it. */
    method OnTap(pos: Point,
                 addHallByPoints: (seq<Hall>, Point, Point) -> (seq<Hall>, Hall),
                 nextZoneNumber: (seq<Zone>, Int32) -> Int32,
                 nextAnchorNumber: seq<Anchor> -> Int32)
      returns (edited: Option<Scene.Selection>)
      requires Valid()
      modifies state
      ensures Valid()
      ensures var p := SceneOf(pos, scale, trans);
              var hall := Scene.HallAt(old(state.halls), p);
              match old(state.mode)
              case Cursor =>
                edited == None && unchanged(state)
              case Calibrate =>
                && state.tempPointA == Some(p)
                && edited == (if old(state.tempPointA).None? then None else Some(Scene.NoSelection))
                && state.halls == old(state.halls) && state.zones == old(state.zones) && state.anchors == old(state.anchors)
                && state.selection == old(state.selection)
              case AddHall =>
                if !old(state.gridCalibrated) then edited == None && unchanged(state)
                else if old(state.tempPointA).None? then
                  && state.tempPointA == Some(p) && edited == None
                  && state.halls == old(state.halls) && state.selection == old(state.selection)
                else
                  var added := addHallByPoints(old(state.halls), old(state.tempPointA).value, p);
                  && state.halls == added.0
                  && state.selection == HallSelection(added.1.number)
                  && edited == Some(state.selection) && state.tempPointA == None
              case AddZone =>
                if hall.None? then edited == None && unchanged(state)
                else if old(state.tempPointA).None? then
                  && state.tempPointA == Some(p) && edited == None
                  && state.zones == old(state.zones) && state.selection == old(state.selection)
                else
                  var z := TappedZone(hall.value, old(state.tempPointA).value, p,
                                      nextZoneNumber(old(state.zones), hall.value.number));
                  && state.zones == old(state.zones) + [z]
                  && state.selection == ZoneSelection(hall.value.number, z.zoneNum)
                  && edited == Some(state.selection) && state.tempPointA == None
              case AddAnchor =>
                if hall.None? then edited == None && unchanged(state)
                else
                  var a := TappedAnchor(hall.value, p, nextAnchorNumber(old(state.anchors)));
                  && state.anchors == old(state.anchors) + [a]
                  && state.selection == AnchorSelection(a.number)
                  && edited == Some(state.selection) && state.tempPointA == old(state.tempPointA)
      ensures old(state.mode) != Scene.AddHall ==> state.halls == old(state.halls)
      ensures old(state.mode) != Scene.AddZone ==> state.zones == old(state.zones)
      ensures old(state.mode) != Scene.AddAnchor ==> state.anchors == old(state.anchors)
      ensures state.pixelPerCm == old(state.pixelPerCm) && state.gridStepCm == old(state.gridStepCm)
      ensures state.gridCalibrated == old(state.gridCalibrated) && state.mode == old(state.mode)
      ensures state.lockHalls == old(state.lockHalls) && state.lockZones == old(state.lockZones)
      ensures state.lockAnchors == old(state.lockAnchors)
    {
      var scene := SceneOf(pos, scale, trans);
      edited := None;
      match state.mode {
        case Cursor =>
        case Calibrate =>
          if state.tempPointA.None? {
            state.tempPointA := Some(scene);
          } else {
            state.tempPointA := Some(scene);
            edited := Some(Scene.NoSelection);
          }
        case AddHall =>
          if state.gridCalibrated {
            if state.tempPointA.None? {
              state.tempPointA := Some(scene);
            } else {
              var added := addHallByPoints(state.halls, state.tempPointA.value, scene);
              state.halls := added.0;
              state.selection := HallSelection(added.1.number);
              edited := Some(state.selection);
              state.tempPointA := None;
            }
          }
        case AddZone =>
          edited := TapAddZone(scene, nextZoneNumber);
        case AddAnchor =>
          edited := TapAddAnchor(scene, nextAnchorNumber);
      }
    }

    /** A tap at scene point `p` in AddZone mode: the first tap inside a hall
        is remembered, the second one adds the zone the two taps span. */
    method TapAddZone(p: Point, nextZoneNumber: (seq<Zone>, Int32) -> Int32)
      returns (edited: Option<Scene.Selection>)
      requires state.Valid()
      modifies state
      ensures state.Valid()
      ensures var hall := Scene.HallAt(old(state.halls), p);
              if hall.None? then edited == None && unchanged(state)
              else if old(state.tempPointA).None? then
                && state.tempPointA == Some(p) && edited == None
                && state.zones == old(state.zones) && state.selection == old(state.selection)
              else
                var z := TappedZone(hall.value, old(state.tempPointA).value, p,
                                    nextZoneNumber(old(state.zones), hall.value.number));
                && state.zones == old(state.zones) + [z]
                && state.selection == ZoneSelection(hall.value.number, z.zoneNum)
                && edited == Some(state.selection) && state.tempPointA == None
      ensures state.halls == old(state.halls) && state.anchors == old(state.anchors)
      ensures state.pixelPerCm == old(state.pixelPerCm) && state.gridStepCm == old(state.gridStepCm)
      ensures state.gridCalibrated == old(state.gridCalibrated) && state.mode == old(state.mode)
      ensures state.lockHalls == old(state.lockHalls) && state.lockZones == old(state.lockZones)
      ensures state.lockAnchors == old(state.lockAnchors)
    {
      edited := None;
      var hall := Scene.HallAt(state.halls, p);
      if hall.Some? {
        if state.tempPointA.None? {
          state.tempPointA := Some(p);
        } else {
          var a := state.tempPointA.value;
          // The hall under the second tap, compared with itself.
          var again := Scene.HallAt(state.halls, p);
          if again.Some? && again.value.number == hall.value.number {
            var z := TappedZone(hall.value, a, p, nextZoneNumber(state.zones, hall.value.number));
            state.zones := state.zones + [z];
            state.selection := ZoneSelection(hall.value.number, z.zoneNum);
            edited := Some(state.selection);
          }
          state.tempPointA := None;
        }
      }
    }

    /** A tap at scene point `p` in AddAnchor mode: inside a hall, a new
        anchor is placed there, served by that hall. */
    method TapAddAnchor(p: Point, nextAnchorNumber: seq<Anchor> -> Int32)
      returns (edited: Option<Scene.Selection>)
      requires state.Valid()
      modifies state
      ensures state.Valid()
      ensures var hall := Scene.HallAt(old(state.halls), p);
              if hall.None? then edited == None && unchanged(state)
              else
                var a := TappedAnchor(hall.value, p, nextAnchorNumber(old(state.anchors)));
                && state.anchors == old(state.anchors) + [a]
                && state.selection == AnchorSelection(a.number)
                && edited == Some(state.selection) && state.tempPointA == old(state.tempPointA)
      ensures state.halls == old(state.halls) && state.zones == old(state.zones)
      ensures state.pixelPerCm == old(state.pixelPerCm) && state.gridStepCm == old(state.gridStepCm)
      ensures state.gridCalibrated == old(state.gridCalibrated) && state.mode == old(state.mode)
      ensures state.lockHalls == old(state.lockHalls) && state.lockZones == old(state.lockZones)
      ensures state.lockAnchors == old(state.lockAnchors)
    {
      edited := None;
      var hall := Scene.HallAt(state.halls, p);
      if hall.Some? {
        var a := TappedAnchor(hall.value, p, nextAnchorNumber(state.anchors));
        state.anchors := state.anchors + [a];
        state.selection := AnchorSelection(a.number);
        edited := Some(state.selection);
      }
    }

    /** `onDragStart`: the gesture starts as a pan; in Cursor mode an
        entity under the finger, if its class is not locked, is grabbed
        instead. */
    method OnDragStart(pos: Point, trig: Int32 -> Scene.Rotation)
      requires Valid()
      modifies this
      ensures Valid() && scale == old(scale) && trans == old(trans)
      ensures var t := if state.mode == Scene.Cursor
                       then DragTarget(state.halls, state.zones, state.anchors, state.lockHalls,
                                       state.lockZones, state.lockAnchors, SceneOf(pos, scale, trans), trig)
                       else None;
              dragEntity == t && dragging == t.Some? && isPanning == t.None?
    {
      isPanning := true;
      dragging := false;
      dragEntity := None;
      if state.mode == Scene.Cursor {
        var scene := SceneOf(pos, scale, trans);
        var t := DragTarget(state.halls, state.zones, state.anchors, state.lockHalls,
                            state.lockZones, state.lockAnchors, scene, trig);
        if t.Some? {
          dragging := true;
          isPanning := false;
          dragEntity := t;
        }
      }
    }

    /** `onDrag`: a pan moves the view by the screen delta; otherwise the
        grabbed entity moves by the delta in scene pixels, snapped to the
        grid, replacing the first list element with its key. */
    method OnDrag(drag: Point)
      requires Valid()
      modifies this, state
      ensures Valid() && scale == old(scale)
      ensures dragging == old(dragging) && dragEntity == old(dragEntity) && isPanning == old(isPanning)
      ensures old(isPanning) ==> trans == Point(old(trans).x + drag.x, old(trans).y + drag.y)
      ensures !old(isPanning) ==> trans == old(trans)
      ensures var d := Point(drag.x / scale, drag.y / scale);
              var step := StepPx(state.pixelPerCm, state.gridStepCm);
              var moving := !old(isPanning) && dragging && dragEntity.Some?;
              var sel := if dragEntity.Some? then dragEntity.value else Scene.NoSelection;
              && state.anchors == (if moving && sel.anchorNumber.Some?
                                   then DraggedAnchors(old(state.anchors), sel.anchorNumber.value, d, step)
                                   else old(state.anchors))
              && state.halls == (if moving && sel.hallNumber.Some? && sel.zoneKey.None?
                                 then DraggedHalls(old(state.halls), sel.hallNumber.value, d, step)
                                 else old(state.halls))
              && state.zones == (if moving && sel.hallNumber.Some? && sel.zoneKey.Some?
                                 then DraggedZones(old(state.zones), sel.zoneKey.value, d, step)
                                 else old(state.zones))
      ensures state.pixelPerCm == old(state.pixelPerCm) && state.gridStepCm == old(state.gridStepCm)
      ensures state.gridCalibrated == old(state.gridCalibrated) && state.mode == old(state.mode)
      ensures state.lockHalls == old(state.lockHalls) && state.lockZones == old(state.lockZones)
      ensures state.lockAnchors == old(state.lockAnchors)
      ensures state.selection == old(state.selection) && state.tempPointA == old(state.tempPointA)
    {
      if isPanning {
        trans := Point(trans.x + drag.x, trans.y + drag.y);
        return;
      }
      if !dragging || dragEntity.None? {
        return;
      }
      var delta := Point(drag.x / scale, drag.y / scale);
      MoveEntity(dragEntity.value, delta, StepPx(state.pixelPerCm, state.gridStepCm));
    }

    /** The grabbed entity's list with that entity moved by `d` and snapped
        to a grid of `step` pixels; a zone key takes precedence over its hall. */
    method MoveEntity(sel: Scene.Selection, d: Point, step: real)
      requires state.Valid()
      modifies state
      ensures state.Valid()
      ensures state.anchors == (if sel.anchorNumber.Some?
                                then DraggedAnchors(old(state.anchors), sel.anchorNumber.value, d, step)
                                else old(state.anchors))
      ensures state.halls == (if sel.hallNumber.Some? && sel.zoneKey.None?
                              then DraggedHalls(old(state.halls), sel.hallNumber.value, d, step)
                              else old(state.halls))
      ensures state.zones == (if sel.hallNumber.Some? && sel.zoneKey.Some?
                              then DraggedZones(old(state.zones), sel.zoneKey.value, d, step)
                              else old(state.zones))
      ensures state.pixelPerCm == old(state.pixelPerCm) && state.gridStepCm == old(state.gridStepCm)
      ensures state.gridCalibrated == old(state.gridCalibrated) && state.mode == old(state.mode)
      ensures state.lockHalls == old(state.lockHalls) && state.lockZones == old(state.lockZones)
      ensures state.lockAnchors == old(state.lockAnchors)
      ensures state.selection == old(state.selection) && state.tempPointA == old(state.tempPointA)
    {
      if sel.anchorNumber.Some? {
        state.anchors := DraggedAnchors(state.anchors, sel.anchorNumber.value, d, step);
      }
      if sel.hallNumber.Some? {
        if sel.zoneKey.None? {
          state.halls := DraggedHalls(state.halls, sel.hallNumber.value, d, step);
        } else {
          state.zones := DraggedZones(state.zones, sel.zoneKey.value, d, step);
        }
      }
    }

    /** `onDragEnd` and `onDragCancel`. */
    method OnDragEnd()
      modifies this
      ensures !dragging && !isPanning && dragEntity == None
      ensures scale == old(scale) && trans == old(trans)
    {
      dragging := false;
      isPanning := false;
      dragEntity := None;
    }

    /** The transform gesture: pinch zoom about the centroid plus a
        two-finger pan. */
    method OnTransform(centroid: Point, pan: Point, zoom: real)
      requires Valid()
      modifies this
      ensures Valid()
      ensures (scale, trans) == Pinch(old(scale), old(trans), centroid, pan, zoom)
      ensures dragging == old(dragging) && dragEntity == old(dragEntity) && isPanning == old(isPanning)
    {
      var oldScale := scale;
      var newScale := Numeric.CoerceIn(oldScale * zoom, MinScale, MaxScale);
      var scaleChange := newScale / oldScale;
      var prePanTrans := Point(trans.x + pan.x, trans.y + pan.y);
      assert Pinch(oldScale, trans, centroid, pan, zoom).0 == newScale;
      assert Pinch(oldScale, trans, centroid, pan, zoom).1 == Toward(prePanTrans, centroid, scaleChange);
      trans := Toward(prePanTrans, centroid, scaleChange);
      scale := newScale;
    }
  }

  /** With anchors locked, no drag ever grabs an anchor, so dragging never
      moves one. */
  lemma LockedAnchorsStay(halls: seq<Hall>, zones: seq<Zone>, anchors: seq<Anchor>,
                          lockHalls: bool, lockZones: bool, p: Point, trig: Int32 -> Scene.Rotation)
    ensures var t := DragTarget(halls, zones, anchors, lockHalls, lockZones, true, p, trig);
            t.None? || t.value.anchorNumber.None?
  {
  }

  /** An anchor placed by a tap is served by the hall the tap hit, and that
      is the hall found at the anchor's own position. */
  lemma TappedAnchorInItsHall(halls: seq<Hall>, p: Point, num: Int32)
    requires Scene.HallAt(halls, p).Some?
    ensures var a := TappedAnchor(Scene.HallAt(halls, p).value, p, num);
            a.mainHall == Some(Scene.HallAt(halls, Point(a.xScenePx, a.yScenePx)).value.number)
  {
  }

  /** The zone made from two taps is drawn over the box the taps span, but
      (unless that box is centred on the hall's mid-height) the hit test
      looks for it elsewhere. */
  lemma TappedZoneHitRegion(hall: Hall, a: Point, b: Point, num: Int32, p: Point)
    ensures var z := TappedZone(hall, a, b, num);
            Scene.PointInsideZone(p, z, hall, Scene.NoRotation) <==>
              Scene.InDrawnBox(p, z.(blYPx := hall.hPx - z.blYPx), hall)
  {
    Scene.HitIsMirroredDrawnBox(p, TappedZone(hall, a, b, num), hall);
  }

  /** The second AddZone tap need not be in the first tap's hall: taps in two
      different halls still make a zone, in the second tap's hall, whose
      corner lies outside that hall. */
  lemma ZoneAcrossHalls()
    ensures var h1 := Hall(1, "", 0.0, 0.0, 100.0, 100.0);
            var h2 := Hall(2, "", 200.0, 0.0, 100.0, 100.0);
            var a := Point(50.0, 50.0);
            var b := Point(250.0, 80.0);
            && Scene.HallAt([h1, h2], a) == Some(h1)
            && Scene.HallAt([h1, h2], b) == Some(h2)
            && TappedZone(h2, a, b, 1).hallNumber == 2
            && TappedZone(h2, a, b, 1).blXPx == -150.0
  {
    var h1 := Hall(1, "", 0.0, 0.0, 100.0, 100.0);
    var h2 := Hall(2, "", 200.0, 0.0, 100.0, 100.0);
    assert Scene.InHall(h1, Point(50.0, 50.0)) && !Scene.InHall(h2, Point(50.0, 50.0));
    assert Scene.InHall(h2, Point(250.0, 80.0));
  }
}
