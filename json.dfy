/** Tolerant decoding of the app's records from a parsed JSON value, following
    the editor's serializer settings: unknown keys are ignored, a field may be
    written under any of its alias names, a missing field or a `null` for a
    non-nullable field takes the field's default, and an unknown enum name
    takes the default too. When a key occurs more than once (or two aliases of
    one field occur) the later member wins. A member whose JSON kind does not
    match its field makes the whole decode fail (`None`). The library itself
    is more liberal there: it also reads a quoted number into a numeric field
    and, in lenient mode, an unquoted literal into a string field; those
    coercions are not part of this model. */
module JsonNames {
  import opened Data
  import Seqs
  import Text

  /** A parsed JSON value. Integer literals and literals with a fraction or an
      exponent are told apart, as the library's number readers do. */
  datatype JValue =
    | JNull
    | JBool(b: bool)
    | JInt(i: int)
    | JFloat(r: real)
    | JStr(s: string)
    | JArr(items: seq<JValue>)
    | JObj(members: seq<(string, JValue)>)

  type Members = seq<(string, JValue)>

  /** The value of the last member whose key is one of `names`. */
  function Member(obj: Members, names: seq<string>): (r: Option<JValue>)
    ensures r.None? <==> forall i :: 0 <= i < |obj| ==> obj[i].0 !in names
  {
    if |obj| == 0 then None
    else if obj[|obj| - 1].0 in names then Some(obj[|obj| - 1].1)
    else Member(obj[..|obj| - 1], names)
  }

  /** The member read is the last one under any of `names`. */
  lemma MemberIsLast(obj: Members, names: seq<string>, i: nat)
    requires i < |obj| && obj[i].0 in names
    requires forall j :: i < j < |obj| ==> obj[j].0 !in names
    ensures Member(obj, names) == Some(obj[i].1)
    decreases |obj|
  {
    if i < |obj| - 1 {
      MemberIsLast(obj[..|obj| - 1], names, i);
    }
  }

  function FloatField(obj: Members, names: seq<string>, default: real): Option<real> {
    FloatOf(Member(obj, names), default)
  }

  function FloatOf(m: Option<JValue>, default: real): Option<real> {
    match m
    case None => Some(default)
    case Some(JNull) => Some(default)
    case Some(JInt(i)) => Some(i as real)
    case Some(JFloat(r)) => Some(r)
    case Some(_) => None
  }

  function IntField(obj: Members, names: seq<string>, default: Int32): Option<Int32> {
    IntOf(Member(obj, names), default)
  }

  function IntOf(m: Option<JValue>, default: Int32): Option<Int32> {
    match m
    case None => Some(default)
    case Some(JNull) => Some(default)
    case Some(JInt(i)) => Text.ToInt32(i)
    case Some(_) => None
  }

  function StringField(obj: Members, names: seq<string>, default: string): Option<string> {
    StringOf(Member(obj, names), default)
  }

  function StringOf(m: Option<JValue>, default: string): Option<string> {
    match m
    case None => Some(default)
    case Some(JNull) => Some(default)
    case Some(JStr(s)) => Some(s)
    case Some(_) => None
  }

  function BoolField(obj: Members, names: seq<string>, default: bool): Option<bool> {
    BoolOf(Member(obj, names), default)
  }

  function BoolOf(m: Option<JValue>, default: bool): Option<bool> {
    match m
    case None => Some(default)
    case Some(JNull) => Some(default)
    case Some(JBool(b)) => Some(b)
    case Some(_) => None
  }

  /** A nullable `Int` whose default is null: the result is `Some(None)` for
      null, `None` for a decoding failure. */
  function NullableIntField(obj: Members, names: seq<string>): Option<Option<Int32>> {
    NullableIntOf(Member(obj, names))
  }

  function NullableIntOf(m: Option<JValue>): Option<Option<Int32>> {
    match m
    case None => Some(None)
    case Some(JNull) => Some(None)
    case Some(JInt(i)) => if Text.ToInt32(i).Some? then Some(Some(Text.ToInt32(i).value)) else None
    case Some(_) => None
  }

  /** A nullable `Boolean` whose default is null. */
  function NullableBoolField(obj: Members, names: seq<string>): Option<Option<bool>> {
    NullableBoolOf(Member(obj, names))
  }

  function NullableBoolOf(m: Option<JValue>): Option<Option<bool>> {
    match m
    case None => Some(None)
    case Some(JNull) => Some(None)
    case Some(JBool(b)) => Some(Some(b))
    case Some(_) => None
  }

  function IntList(items: seq<JValue>): Option<seq<Int32>> {
    if |items| == 0 then Some([])
    else
      var head := if items[0].JInt? then Text.ToInt32(items[0].i) else None;
      var tail := IntList(items[1..]);
      if head.Some? && tail.Some? then Some([head.value] + tail.value) else None
  }

  /** A `List<Int>` defaulting to the empty list. */
  function IntListField(obj: Members, names: seq<string>): Option<seq<Int32>> {
    IntListOf(Member(obj, names))
  }

  function IntListOf(m: Option<JValue>): Option<seq<Int32>> {
    match m
    case None => Some([])
    case Some(JNull) => Some([])
    case Some(JArr(items)) => IntList(items)
    case Some(_) => None
  }

  /** Decodes every item with `dec`; fails if one of them fails. */
  function DecodeAll<T>(items: seq<JValue>, dec: JValue -> Option<T>): (r: Option<seq<T>>)
    ensures r.Some? ==> |r.value| == |items|
    ensures r.Some? ==> forall k :: 0 <= k < |items| ==> dec(items[k]) == Some(r.value[k])
  {
    if |items| == 0 then Some([])
    else
      var head := dec(items[0]);
      var tail := DecodeAll(items[1..], dec);
      if head.Some? && tail.Some? then Some([head.value] + tail.value) else None
  }

  /** A list of records defaulting to the empty list. */
  function ListField<T>(obj: Members, names: seq<string>, dec: JValue -> Option<T>): Option<seq<T>> {
    ListOf(Member(obj, names), dec)
  }

  function ListOf<T>(m: Option<JValue>, dec: JValue -> Option<T>): Option<seq<T>> {
    match m
    case None => Some([])
    case Some(JNull) => Some([])
    case Some(JArr(items)) => DecodeAll(items, dec)
    case Some(_) => None
  }

  /** The zone type is written by its enum name; an unknown name gives ENTER. */
  function ZoneTypeField(obj: Members, names: seq<string>): Option<ZoneType> {
    ZoneTypeOf(Member(obj, names))
  }

  function ZoneTypeOf(m: Option<JValue>): Option<ZoneType> {
    match m
    case None => Some(ENTER)
    case Some(JNull) => Some(ENTER)
    case Some(JStr(s)) =>
      Some(if s == "ENTER" then ENTER else if s == "EXIT" then EXIT else if s == "BOUND" then BOUND else ENTER)
    case Some(_) => None
  }

  // The names each field of the app's records is accepted under.
  const HallNumberNames := ["number", "num", "hall_number"]
  const HallNameNames := ["name", "title", "label"]
  const HallXNames := ["xPx", "x_px", "x"]
  const HallYNames := ["yPx", "y_px", "y"]
  const HallWNames := ["wPx", "w_px", "width", "w"]
  const HallHNames := ["hPx", "h_px", "height", "h"]

  const ZoneHallNames := ["hallNumber", "hall_number", "room", "hall"]
  const ZoneNumNames := ["zoneNum", "number", "num", "zone_number"]
  const ZoneTypeNames := ["type", "zoneType"]
  const ZoneAngleNames := ["angleDeg", "angle_deg", "angle", "rotation"]
  const ZoneBlXNames := ["blX_Px", "bl_x_px", "x_px", "x"]
  const ZoneBlYNames := ["blY_Px", "bl_y_px", "y_px", "y"]
  const ZoneWNames := ["wPx", "w_px", "width", "w"]
  const ZoneHNames := ["hPx", "h_px", "height", "h"]

  const AnchorNumberNames := ["number", "id", "anchor_number"]
  const AnchorXNames := ["xScenePx", "x_scene_px", "x_px", "x"]
  const AnchorYNames := ["yScenePx", "y_scene_px", "y_px", "y"]
  const AnchorZNames := ["zCm", "z_cm", "z", "height_cm"]
  const AnchorMainHallNames := ["mainHall", "main_hall", "hall", "room"]
  const AnchorExtraHallsNames := ["extraHalls", "extra_halls", "halls"]
  const AnchorBoundNames := ["bound", "is_bound"]

  const SaveImageNames := ["image_data", "imageData", "background_base64"]
  const SavePpcmXNames := ["pixel_per_cm_x", "ppcm_x", "pixelPerCmX", "pixel_per_cm"]
  const SavePpcmYNames := ["pixel_per_cm_y", "ppcm_y", "pixelPerCmY"]
  const SaveGridNames := ["grid_step_cm", "gridStepCm", "grid_step"]

  function DecodeHall(v: JValue): Option<Hall> {
    if !v.JObj? then None
    else
      var o := v.members;
      var number := IntField(o, HallNumberNames, DefaultHall.number);
      var name := StringField(o, HallNameNames, DefaultHall.name);
      var x := FloatField(o, HallXNames, DefaultHall.xPx);
      var y := FloatField(o, HallYNames, DefaultHall.yPx);
      var w := FloatField(o, HallWNames, DefaultHall.wPx);
      var h := FloatField(o, HallHNames, DefaultHall.hPx);
      if number.Some? && name.Some? && x.Some? && y.Some? && w.Some? && h.Some?
      then Some(Hall(number.value, name.value, x.value, y.value, w.value, h.value))
      else None
  }

  function DecodeZone(v: JValue): Option<Zone> {
    if !v.JObj? then None
    else
      var o := v.members;
      var hall := IntField(o, ZoneHallNames, DefaultZone.hallNumber);
      var num := IntField(o, ZoneNumNames, DefaultZone.zoneNum);
      var kind := ZoneTypeField(o, ZoneTypeNames);
      var angle := IntField(o, ZoneAngleNames, DefaultZone.angleDeg);
      var x := FloatField(o, ZoneBlXNames, DefaultZone.blXPx);
      var y := FloatField(o, ZoneBlYNames, DefaultZone.blYPx);
      var w := FloatField(o, ZoneWNames, DefaultZone.wPx);
      var h := FloatField(o, ZoneHNames, DefaultZone.hPx);
      if hall.Some? && num.Some? && kind.Some? && angle.Some? && x.Some? && y.Some? && w.Some? && h.Some?
      then Some(Zone(hall.value, num.value, kind.value, angle.value, x.value, y.value, w.value, h.value))
      else None
  }

  function DecodeAnchor(v: JValue): Option<Anchor> {
    if !v.JObj? then None
    else
      var o := v.members;
      var number := IntField(o, AnchorNumberNames, DefaultAnchor.number);
      var x := FloatField(o, AnchorXNames, DefaultAnchor.xScenePx);
      var y := FloatField(o, AnchorYNames, DefaultAnchor.yScenePx);
      var z := IntField(o, AnchorZNames, DefaultAnchor.zCm);
      var main := NullableIntField(o, AnchorMainHallNames);
      var extra := IntListField(o, AnchorExtraHallsNames);
      var bound := BoolField(o, AnchorBoundNames, DefaultAnchor.bound);
      if number.Some? && x.Some? && y.Some? && z.Some? && main.Some? && extra.Some? && bound.Some?
      then Some(Anchor(number.value, x.value, y.value, z.value, main.value, extra.value, bound.value))
      else None
  }

  function DecodeProjectSave(v: JValue): Option<ProjectSave> {
    if !v.JObj? then None
    else
      var o := v.members;
      var image := StringField(o, SaveImageNames, DefaultProjectSave.imageData);
      var px := FloatField(o, SavePpcmXNames, DefaultProjectSave.pixelPerCmX);
      var py := FloatField(o, SavePpcmYNames, DefaultProjectSave.pixelPerCmY);
      var grid := FloatField(o, SaveGridNames, DefaultProjectSave.gridStepCm);
      var lh := BoolField(o, ["lock_halls"], false);
      var lz := BoolField(o, ["lock_zones"], false);
      var la := BoolField(o, ["lock_anchors"], false);
      var halls := ListField(o, ["halls"], DecodeHall);
      var anchors := ListField(o, ["anchors"], DecodeAnchor);
      var zones := ListField(o, ["zones"], DecodeZone);
      if image.Some? && px.Some? && py.Some? && grid.Some? && lh.Some? && lz.Some? && la.Some?
         && halls.Some? && anchors.Some? && zones.Some?
      then Some(ProjectSave(image.value, px.value, py.value, grid.value, lh.value, lz.value, la.value,
                            halls.value, anchors.value, zones.value))
      else None
  }

  /** A member appended under a key that is none of `names` does not change
      what is read under `names`. */
  lemma MemberSkips(o: Members, m: (string, JValue), names: seq<string>)
    requires m.0 !in names
    ensures Member(o + [m], names) == Member(o, names)
  {
    assert (o + [m])[..|o|] == o;
  }

  /** An object without any of a record's keys decodes to the record's
      defaults: a hall numbered 0 with an empty name at the origin with zero
      size; a zone of hall 0, number 0, type ENTER, angle 0 and zero geometry;
      an anchor with no main hall, no extra halls, height 0 and not bound; a
      project with no image, scale 1 on both axes, a 20 cm grid, no locks and
      empty lists. */
  lemma EmptyObjectDecodesToDefaults()
    ensures DecodeHall(JObj([])) == Some(Hall(0, "", 0.0, 0.0, 0.0, 0.0))
    ensures DecodeZone(JObj([])) == Some(Zone(0, 0, ENTER, 0, 0.0, 0.0, 0.0, 0.0))
    ensures DecodeAnchor(JObj([])) == Some(Anchor(0, 0.0, 0.0, 0, None, [], false))
    ensures DecodeProjectSave(JObj([])) == Some(ProjectSave("", 1.0, 1.0, 20.0, false, false, false, [], [], []))
  {
  }

  /** A hall's width is read under any of its four names. */
  lemma HallWidthAliases(k: string, w: real)
    requires k in HallWNames
    ensures DecodeHall(JObj([(k, JFloat(w))])) == Some(Hall(0, "", 0.0, 0.0, w, 0.0))
  {
  }

  /** The x scale is also read under the older single-scale name. */
  lemma ScaleAliases(k: string, s: real)
    requires k in SavePpcmXNames
    ensures DecodeProjectSave(JObj([(k, JFloat(s))])) == Some(DefaultProjectSave.(pixelPerCmX := s))
  {
    var o := [(k, JFloat(s))];
    MemberIsLast(o, SavePpcmXNames, 0);
    assert k !in SaveImageNames && k !in SavePpcmYNames && k !in SaveGridNames;
    assert k !in ["lock_halls"] && k !in ["lock_zones"] && k !in ["lock_anchors"];
    assert k !in ["halls"] && k !in ["anchors"] && k !in ["zones"];
  }

  /** When two aliases of one field are present, the later member wins. */
  lemma LaterAliasWins(a: real, b: real)
    ensures DecodeHall(JObj([("w", JFloat(a)), ("width", JFloat(b))])) == Some(DefaultHall.(wPx := b))
  {
    var o := [("w", JFloat(a)), ("width", JFloat(b))];
    assert o[1].0 in HallWNames;
    MemberIsLast(o, HallWNames, 1);
    assert forall i :: 0 <= i < |o| ==>
      (o[i].0 !in HallNumberNames && o[i].0 !in HallNameNames
       && o[i].0 !in HallXNames && o[i].0 !in HallYNames && o[i].0 !in HallHNames);
  }
}
