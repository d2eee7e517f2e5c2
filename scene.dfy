/** The editor's queries over its three lists: which hall, anchor or zone lies
    under a scene point, and which zones belong to a hall. When entities
    overlap, the one added last (drawn on top) wins. */
module Scene {
  import opened Data
  import Seqs

  /** The editor's tool modes. The source's enum declares only Cursor and
      Calibrate, yet its tap handler also switches on AddHall, AddZone and
      AddAnchor; all five are modes here. */
  datatype ToolMode = Cursor | Calibrate | AddHall | AddZone | AddAnchor

  /** What is selected: a hall, a zone (keyed by hall and zone number) or an
      anchor. */
  datatype Selection = Selection(hallNumber: Option<Int32>, zoneKey: Option<(Int32, Int32)>,
                                 anchorNumber: Option<Int32>)

  const NoSelection := Selection(None, None, None)

  /** The closed rectangle of the hall contains the point. */
  predicate InHall(h: Hall, p: Point) {
    p.x >= h.xPx && p.x <= h.xPx + h.wPx && p.y >= h.yPx && p.y <= h.yPx + h.hPx
  }

  /** `hallAt`: the last hall whose closed rectangle contains the point. */
  function HallAt(halls: seq<Hall>, p: Point): (r: Option<Hall>)
    ensures r.None? <==> forall i :: 0 <= i < |halls| ==> !InHall(halls[i], p)
    ensures r.Some? ==> exists i :: 0 <= i < |halls| && halls[i] == r.value && InHall(r.value, p)
                                    && forall j :: i < j < |halls| ==> !InHall(halls[j], p)
  {
    var i := Seqs.LastWhere(halls, (h: Hall) => InHall(h, p));
    if i < 0 then None else Some(halls[i])
  }

  /** The radius `anchorAt` uses unless told otherwise. */
  const AnchorRadius: real := 12.0

  /** The Euclidean distance from the anchor to the point is at most `radius`
      (`hypot(dx, dy) <= radius`, stated without the square root). */
  predicate NearAnchor(a: Anchor, p: Point, radius: real) {
    var dx := p.x - a.xScenePx;
    var dy := p.y - a.yScenePx;
    radius >= 0.0 && dx * dx + dy * dy <= radius * radius
  }

  /** `anchorAt`: the last anchor within `radius` of the point. */
  function AnchorAt(anchors: seq<Anchor>, p: Point, radius: real): (r: Option<Anchor>)
    ensures r.None? <==> forall i :: 0 <= i < |anchors| ==> !NearAnchor(anchors[i], p, radius)
    ensures r.Some? ==> exists i :: 0 <= i < |anchors| && anchors[i] == r.value && NearAnchor(r.value, p, radius)
                                    && forall j :: i < j < |anchors| ==> !NearAnchor(anchors[j], p, radius)
  {
    var i := Seqs.LastWhere(anchors, (a: Anchor) => NearAnchor(a, p, radius));
    if i < 0 then None else Some(anchors[i])
  }

  /** `zonesInHall`: the zones of hall `hn`, in list order. */
  function ZonesInHall(zones: seq<Zone>, hn: Int32): (r: seq<Zone>)
    ensures forall i :: 0 <= i < |r| ==> r[i] in zones && r[i].hallNumber == hn
    ensures forall i :: 0 <= i < |zones| && zones[i].hallNumber == hn ==> zones[i] in r
  {
    Seqs.Filter(zones, OfHall(hn))
  }

  /** The hall's zones come in list order, each as often as it occurs. */
  lemma ZonesInHallOrder(zones: seq<Zone>, hn: Int32)
    ensures var r := ZonesInHall(zones, hn);
            var at := Seqs.MatchIndices(zones, OfHall(hn));
            |r| == |at| && forall k :: 0 <= k < |r| ==> r[k] == zones[at[k]]
  {
    Seqs.FilterAt(zones, OfHall(hn));
  }

  /** The test `zonesInHall` filters by. */
  function OfHall(hn: Int32): Zone -> bool {
    (z: Zone) => z.hallNumber == hn
  }

  /** The first hall numbered `n`, as `halls.find { it.number == n }`. */
  function FindHall(halls: seq<Hall>, n: Int32): (r: Option<Hall>)
    ensures r.None? <==> forall i :: 0 <= i < |halls| ==> halls[i].number != n
    ensures r.Some? ==> exists i :: 0 <= i < |halls| && halls[i] == r.value && r.value.number == n
                                    && forall j :: 0 <= j < i ==> halls[j].number != n
  {
    var i := Seqs.FirstWhere(halls, (h: Hall) => h.number == n);
    if i < 0 then None else Some(halls[i])
  }

  /** The cosine and sine of a zone's angle. The trigonometry itself is an
      input of the model: `trig(angleDeg)` stands for the pair
      `(cos, sin)` of `angleDeg` degrees. */
  datatype Rotation = Rotation(cos: real, sin: real)

  const NoRotation := Rotation(1.0, 0.0)

  /** `pointInsideZone`: the point, taken relative to the hall, then to the
      zone's corner with Y measured UP from the hall's bottom edge, and
      rotated by `rot`, lies in `[0, w] x [0, h]`. */
  predicate PointInsideZone(p: Point, z: Zone, h: Hall, rot: Rotation) {
    var localX := p.x - h.xPx;
    var localY := p.y - h.yPx;
    var ox := localX - z.blXPx;
    var oy := (h.hPx - localY) - z.blYPx;
    var rx := rot.cos * ox + rot.sin * oy;
    var ry := -rot.sin * ox + rot.cos * oy;
    rx >= 0.0 && rx <= z.wPx && ry >= 0.0 && ry <= z.hPx
  }

  /** The zone has a hall and the point lies inside it, measured against the
      first hall carrying the zone's hall number. */
  predicate ZoneHit(halls: seq<Hall>, z: Zone, p: Point, trig: Int32 -> Rotation) {
    var h := FindHall(halls, z.hallNumber);
    h.Some? && PointInsideZone(p, z, h.value, trig(z.angleDeg))
  }

  /** `zoneAt`: the last zone hit at the point; zones whose hall is missing
      are skipped. */
  function ZoneAt(halls: seq<Hall>, zones: seq<Zone>, p: Point, trig: Int32 -> Rotation): (r: Option<Zone>)
    ensures r.None? <==> forall i :: 0 <= i < |zones| ==> !ZoneHit(halls, zones[i], p, trig)
    ensures r.Some? ==> exists i :: 0 <= i < |zones| && zones[i] == r.value && ZoneHit(halls, r.value, p, trig)
                                    && forall j :: i < j < |zones| ==> !ZoneHit(halls, zones[j], p, trig)
  {
    var i := Seqs.LastWhere(zones, (z: Zone) => ZoneHit(halls, z, p, trig));
    if i < 0 then None else Some(zones[i])
  }

  /** At angle 0 the zone hit region is, in scene coordinates, the box
      `[hx + blX, hx + blX + w] x [hy + hH - blY - h, hy + hH - blY]`:
      `blY` is read as a distance up from the hall's bottom edge. */
  lemma InsideUnrotated(p: Point, z: Zone, h: Hall)
    ensures PointInsideZone(p, z, h, NoRotation) <==>
              h.xPx + z.blXPx <= p.x <= h.xPx + z.blXPx + z.wPx
              && h.yPx + h.hPx - z.blYPx - z.hPx <= p.y <= h.yPx + h.hPx - z.blYPx
  {
    var ox := (p.x - h.xPx) - z.blXPx;
    var oy := (h.hPx - (p.y - h.yPx)) - z.blYPx;
    var rot := NoRotation;
    assert rot.cos == 1.0 && rot.sin == 0.0;
    assert rot.cos * ox + rot.sin * oy == ox;
    assert -rot.sin * ox + rot.cos * oy == oy;
    assert PointInsideZone(p, z, h, NoRotation) <==> 0.0 <= ox <= z.wPx && 0.0 <= oy <= z.hPx;
    assert 0.0 <= ox <= z.wPx <==> h.xPx + z.blXPx <= p.x <= h.xPx + z.blXPx + z.wPx;
    assert 0.0 <= oy <= z.hPx <==> h.yPx + h.hPx - z.blYPx - z.hPx <= p.y <= h.yPx + h.hPx - z.blYPx;
  }

  /** The box the canvas draws for a zone at angle 0: translated to
      `(hx + blX, hy + blY)` and extending `h` upwards from there, so `blY` is
      read as a distance DOWN from the hall's top edge. */
  predicate InDrawnBox(p: Point, z: Zone, h: Hall) {
    h.xPx + z.blXPx <= p.x <= h.xPx + z.blXPx + z.wPx
    && h.yPx + z.blYPx - z.hPx <= p.y <= h.yPx + z.blYPx
  }

  /** The hit test and the drawing disagree about `blY`: at angle 0 a zone is
      hit exactly where the canvas would draw the zone whose `blY` is
      mirrored to `hH - blY`. The two coincide only for zones whose corner
      sits at mid-height. */
  lemma HitIsMirroredDrawnBox(p: Point, z: Zone, h: Hall)
    ensures PointInsideZone(p, z, h, NoRotation) <==> InDrawnBox(p, z.(blYPx := h.hPx - z.blYPx), h)
  {
    InsideUnrotated(p, z, h);
  }

  /** A zone drawn in the top half of a 100 x 100 hall at the origin (corner
      10 px right of and 20 px below the hall's top-left corner, 10 x 10) is
      not hit by a tap in the middle of its drawn box. */
  lemma DrawnZoneMissed()
    ensures var h := Hall(1, "", 0.0, 0.0, 100.0, 100.0);
            var z := Zone(1, 1, ENTER, 0, 10.0, 20.0, 10.0, 10.0);
            InDrawnBox(Point(15.0, 15.0), z, h)
            && ZoneAt([h], [z], Point(15.0, 15.0), _ => NoRotation) == None
  {
    var h := Hall(1, "", 0.0, 0.0, 100.0, 100.0);
    var z := Zone(1, 1, ENTER, 0, 10.0, 20.0, 10.0, 10.0);
    assert FindHall([h], 1) == Some(h);
    InsideUnrotated(Point(15.0, 15.0), z, h);
  }
}
