/** The project files: the desktop tool's `.proj` records (zones nested under
    their hall), the mapping from the editor's state to them and back, the
    loader's fallback to the app's own flat record, and the zone-type
    strings the desktop tool writes. */
module FileIO {
  import opened Data
  import Seqs
  import Text
  import opened JsonNames
  import Scene
  import opened EditorState

  /** A zone in the desktop file. `bottomLeftY` is the same top-down offset
      the editor stores; the type is the desktop tool's label. */
  datatype DZone = DZone(zoneNum: Int32, zoneType: string, zoneAngle: Int32,
                         bottomLeftX: real, bottomLeftY: real, wPx: real, hPx: real)

  datatype DHall = DHall(num: Int32, name: string, xPx: real, yPx: real, wPx: real, hPx: real,
                         zones: seq<DZone>)

  /** An anchor in the desktop file; `bound` is nullable. */
  datatype DAnchor = DAnchor(number: Int32, x: real, y: real, z: Int32, mainHall: Option<Int32>,
                             extraHalls: seq<Int32>, bound: Option<bool>)

  datatype DProject = DProject(imageData: string, pixelPerCmX: real, pixelPerCmY: real, gridStepCm: real,
                               lockHalls: bool, lockZones: bool, lockAnchors: bool,
                               halls: seq<DHall>, anchors: seq<DAnchor>)

  const DefaultDZone := DZone(0, "Входная зона", 0, 0.0, 0.0, 0.0, 0.0)
  const DefaultDHall := DHall(0, "", 0.0, 0.0, 0.0, 0.0, [])
  const DefaultDAnchor := DAnchor(0, 0.0, 0.0, 0, None, [], None)
  const DefaultDProject := DProject("", 1.0, 1.0, 20.0, false, false, false, [], [])

  // ---------------------------------------------------------------------
  // Zone-type strings

  /** The labels `toZoneType` recognises once trimmed and lower-cased, in the
      order it tries them. */
  const Labels: seq<(string, ZoneType)> := [
    ("входная зона", ENTER), ("входная", ENTER), ("enter", ENTER),
    ("выходная зона", EXIT), ("выходная", EXIT), ("exit", EXIT),
    ("переходная", BOUND), ("bound", BOUND)]

  /** The kind of the first entry labelled `key`; ENTER when there is none. */
  function Lookup(table: seq<(string, ZoneType)>, key: string): ZoneType {
    if |table| == 0 then ENTER
    else if table[0].0 == key then table[0].1
    else Lookup(table[1..], key)
  }

  lemma {:induction false} LookupFinds(table: seq<(string, ZoneType)>, key: string, i: nat)
    requires i < |table| && table[i].0 == key
    requires forall j :: 0 <= j < i ==> table[j].0 != key
    ensures Lookup(table, key) == table[i].1
  {
    if i > 0 {
      LookupFinds(table[1..], key, i - 1);
    }
  }

  lemma {:induction false} LookupMisses(table: seq<(string, ZoneType)>, key: string)
    requires forall i :: 0 <= i < |table| ==> table[i].0 != key
    ensures Lookup(table, key) == ENTER
  {
    if |table| > 0 {
      LookupMisses(table[1..], key);
    }
  }

  /** `toZoneType`: the trimmed, lower-cased label looked up among the known
      labels; unknown labels give ENTER. */
  function ToZoneType(s: string): ZoneType {
    Lookup(Labels, Text.Lowercase(Text.Trim(s)))
  }

  /** `toDesktopString`: the kind's label. */
  function ToDesktopString(t: ZoneType): string {
    t.Human()
  }

  /** The desktop label of each kind reads back as that kind: it has no blanks
      to trim, and lower-casing turns it into the first label of its kind. */
  lemma ZoneTypeRoundTrip(t: ZoneType)
    ensures ToZoneType(ToDesktopString(t)) == t
  {
    var s := ToDesktopString(t);
    match t
    case ENTER => KnownLabel(s, "входная зона", 0);
    case EXIT => KnownLabel(s, "выходная зона", 3);
    case BOUND => KnownLabel(s, "переходная", 6);
  }

  /** A label with no blanks at its ends whose lower case is the `i`-th known
      label, and none before it, has that label's kind. */
  lemma KnownLabel(s: string, key: string, i: nat)
    requires |s| > 0 && !Text.IsWhitespace(s[0]) && !Text.IsWhitespace(s[|s| - 1])
    requires |s| == |key| && forall k :: 0 <= k < |s| ==> Text.Lower(s[k]) == key[k]
    requires i < |Labels| && Labels[i].0 == key
    requires forall j :: 0 <= j < i ==> Labels[j].0 != key
    ensures ToZoneType(s) == Labels[i].1
  {
    Text.TrimKeeps(s);
    Text.LowercaseEach(s, key);
    LookupFinds(Labels, key, i);
  }

  /** Any label that is none of the known ones, whatever its case and blanks,
      gives ENTER. */
  lemma UnknownLabelIsEnter(s: string)
    requires forall i :: 0 <= i < |Labels| ==> Labels[i].0 != Text.Lowercase(Text.Trim(s))
    ensures ToZoneType(s) == ENTER
  {
    LookupMisses(Labels, Text.Lowercase(Text.Trim(s)));
  }

  /** Case and surrounding blanks do not matter. */
  lemma ZoneTypeIgnoresCaseAndBlanks()
    ensures ToZoneType(" Exit") == EXIT
  {
    assert Text.TrimStart(" Exit") == "Exit";
    assert Text.Trim(" Exit") == "Exit";
    assert Text.Lowercase("Exit") == "exit";
    assert Lookup(Labels, "exit") == EXIT;
  }

  // ---------------------------------------------------------------------
  // Decoding the desktop records (each field under its alias names)

  const DZoneNumNames := ["zone_num", "zoneNum", "number", "num", "id", "zoneId"]
  const DZoneTypeNames := ["zone_type", "zoneType", "type"]
  const DZoneAngleNames := ["zone_angle", "angle", "angleDeg"]
  const DZoneXNames := ["bottom_left_x", "bl_x", "x"]
  const DZoneYNames := ["bottom_left_y", "bl_y", "y"]
  const DZoneWNames := ["w_px", "w", "width"]
  const DZoneHNames := ["h_px", "h", "height"]

  const DHallNumNames := ["num", "number", "hall_number"]
  const DHallNameNames := ["name", "title", "label"]
  const DHallXNames := ["x_px", "xPx", "x"]
  const DHallYNames := ["y_px", "yPx", "y"]
  const DHallWNames := ["w_px", "wPx", "width"]
  const DHallHNames := ["h_px", "hPx", "height"]
  const DHallZonesNames := ["zones", "areas"]

  const DAnchorNumberNames := ["number", "id"]
  const DAnchorXNames := ["x", "x_px"]
  const DAnchorYNames := ["y", "y_px"]
  const DAnchorZNames := ["z", "z_cm"]
  const DAnchorMainHallNames := ["main_hall", "mainHall"]
  const DAnchorExtraHallsNames := ["extra_halls", "extraHalls"]
  const DAnchorBoundNames := ["bound", "is_bound"]

  function DecodeDZone(v: JValue): Option<DZone> {
    if !v.JObj? then None
    else
      var o := v.members;
      var num := IntField(o, DZoneNumNames, DefaultDZone.zoneNum);
      var kind := StringField(o, DZoneTypeNames, DefaultDZone.zoneType);
      var angle := IntField(o, DZoneAngleNames, DefaultDZone.zoneAngle);
      var x := FloatField(o, DZoneXNames, DefaultDZone.bottomLeftX);
      var y := FloatField(o, DZoneYNames, DefaultDZone.bottomLeftY);
      var w := FloatField(o, DZoneWNames, DefaultDZone.wPx);
      var h := FloatField(o, DZoneHNames, DefaultDZone.hPx);
      if num.Some? && kind.Some? && angle.Some? && x.Some? && y.Some? && w.Some? && h.Some?
      then Some(DZone(num.value, kind.value, angle.value, x.value, y.value, w.value, h.value))
      else None
  }

  function DecodeDHall(v: JValue): Option<DHall> {
    if !v.JObj? then None
    else
      var o := v.members;
      var num := IntField(o, DHallNumNames, DefaultDHall.num);
      var name := StringField(o, DHallNameNames, DefaultDHall.name);
      var x := FloatField(o, DHallXNames, DefaultDHall.xPx);
      var y := FloatField(o, DHallYNames, DefaultDHall.yPx);
      var w := FloatField(o, DHallWNames, DefaultDHall.wPx);
      var h := FloatField(o, DHallHNames, DefaultDHall.hPx);
      var zones := ListField(o, DHallZonesNames, DecodeDZone);
      if num.Some? && name.Some? && x.Some? && y.Some? && w.Some? && h.Some? && zones.Some?
      then Some(DHall(num.value, name.value, x.value, y.value, w.value, h.value, zones.value))
      else None
  }

  function DecodeDAnchor(v: JValue): Option<DAnchor> {
    if !v.JObj? then None
    else
      var o := v.members;
      var number := IntField(o, DAnchorNumberNames, DefaultDAnchor.number);
      var x := FloatField(o, DAnchorXNames, DefaultDAnchor.x);
      var y := FloatField(o, DAnchorYNames, DefaultDAnchor.y);
      var z := IntField(o, DAnchorZNames, DefaultDAnchor.z);
      var main := NullableIntField(o, DAnchorMainHallNames);
      var extra := IntListField(o, DAnchorExtraHallsNames);
      var bound := NullableBoolField(o, DAnchorBoundNames);
      if number.Some? && x.Some? && y.Some? && z.Some? && main.Some? && extra.Some? && bound.Some?
      then Some(DAnchor(number.value, x.value, y.value, z.value, main.value, extra.value, bound.value))
      else None
  }

  /** The project record has no aliases: each field is read under its own name. */
  function DecodeDProject(v: JValue): Option<DProject> {
    if !v.JObj? then None
    else
      var o := v.members;
      var image := StringField(o, ["image_data"], DefaultDProject.imageData);
      var px := FloatField(o, ["pixel_per_cm_x"], DefaultDProject.pixelPerCmX);
      var py := FloatField(o, ["pixel_per_cm_y"], DefaultDProject.pixelPerCmY);
      var grid := FloatField(o, ["grid_step_cm"], DefaultDProject.gridStepCm);
      var lh := BoolField(o, ["lock_halls"], false);
      var lz := BoolField(o, ["lock_zones"], false);
      var la := BoolField(o, ["lock_anchors"], false);
      var halls := ListField(o, ["halls"], DecodeDHall);
      var anchors := ListField(o, ["anchors"], DecodeDAnchor);
      if image.Some? && px.Some? && py.Some? && grid.Some? && lh.Some? && lz.Some? && la.Some?
         && halls.Some? && anchors.Some?
      then Some(DProject(image.value, px.value, py.value, grid.value, lh.value, lz.value, la.value,
                         halls.value, anchors.value))
      else None
  }

  /** An empty object decodes to the desktop defaults: an ENTER label, a
      1 px/cm scale on both axes, a 20 cm grid, no locks, no halls, no
      anchors, and a null `bound`. */
  lemma EmptyObjectDecodesToDesktopDefaults()
    ensures DecodeDZone(JObj([])) == Some(DZone(0, "Входная зона", 0, 0.0, 0.0, 0.0, 0.0))
    ensures DecodeDHall(JObj([])) == Some(DHall(0, "", 0.0, 0.0, 0.0, 0.0, []))
    ensures DecodeDAnchor(JObj([])) == Some(DAnchor(0, 0.0, 0.0, 0, None, [], None))
    ensures DecodeDProject(JObj([])) == Some(DProject("", 1.0, 1.0, 20.0, false, false, false, [], []))
  {
  }

  /** A desktop zone's number is read under any of its six names. */
  lemma ZoneNumberAliases(k: string, n: Int32)
    requires k in DZoneNumNames
    ensures DecodeDZone(JObj([(k, JInt(n))])) == Some(DefaultDZone.(zoneNum := n))
  {
    var o := [(k, JInt(n))];
    MemberIsLast(o, DZoneNumNames, 0);
    assert k !in DZoneTypeNames && k !in DZoneAngleNames && k !in DZoneXNames;
    assert k !in DZoneYNames && k !in DZoneWNames && k !in DZoneHNames;
  }

  /** The desktop decode does not read a top-level `zones` member, which is
      where the app's flat record keeps its zones: a flat file whose halls and
      anchors also read as desktop records loads as a desktop project, without
      its zones, and the loader never reaches the fallback that would read them. */
  lemma FlatZonesIgnoredByDesktopDecode(o: Members, zones: JValue)
    ensures DecodeDProject(JObj(o + [("zones", zones)])) == DecodeDProject(JObj(o))
  {
    var m := ("zones", zones);
    MemberSkips(o, m, ["image_data"]);
    MemberSkips(o, m, ["pixel_per_cm_x"]);
    MemberSkips(o, m, ["pixel_per_cm_y"]);
    MemberSkips(o, m, ["grid_step_cm"]);
    MemberSkips(o, m, ["lock_halls"]);
    MemberSkips(o, m, ["lock_zones"]);
    MemberSkips(o, m, ["lock_anchors"]);
    MemberSkips(o, m, ["halls"]);
    MemberSkips(o, m, ["anchors"]);
  }
  /** The names the app's own serializer writes an anchor's fields under:
      the declared property names, every field written. */
  const FlatAnchorKeys := ["number", "xScenePx", "yScenePx", "zCm", "mainHall", "extraHalls", "bound"]

  /** An anchor written by the app under its own field names, read as a
      desktop anchor, loses its position and height: the desktop names for
      them are `x`/`x_px`, `y`/`y_px` and `z`/`z_cm`, none of which the app
      writes, so it loads at (0, 0), 0 cm high. */
  lemma FlatAnchorLosesPosition(o: Members)
    requires forall i :: 0 <= i < |o| ==> o[i].0 in FlatAnchorKeys
    ensures DecodeDAnchor(JObj(o)).Some? ==>
              var a := AnchorOfD(DecodeDAnchor(JObj(o)).value);
              a.xScenePx == 0.0 && a.yScenePx == 0.0 && a.zCm == 0
  {
    assert forall k :: k in FlatAnchorKeys ==> k !in DAnchorXNames && k !in DAnchorYNames && k !in DAnchorZNames;
    assert Member(o, DAnchorXNames).None?;
    assert Member(o, DAnchorYNames).None?;
    assert Member(o, DAnchorZNames).None?;
  }

  // ---------------------------------------------------------------------
  // State to desktop record (`toProjectJson`)

  function DZoneOf(z: Zone): DZone {
    DZone(z.zoneNum, ToDesktopString(z.zoneType), z.angleDeg, z.blXPx, z.blYPx, z.wPx, z.hPx)
  }

  /** A hall with, nested in it, every zone carrying its number, in list order. */
  function DHallOf(h: Hall, zones: seq<Zone>): DHall {
    DHall(h.number, h.name, h.xPx, h.yPx, h.wPx, h.hPx, Seqs.Map(Scene.ZonesInHall(zones, h.number), DZoneOf))
  }

  /** `bound` is written as true, or left null. */
  function DAnchorOf(a: Anchor): (r: DAnchor)
    ensures r.bound == Some(true) || r.bound == None
  {
    DAnchor(a.number, a.xScenePx, a.yScenePx, a.zCm, a.mainHall, a.extraHalls, if a.bound then Some(true) else None)
  }

  /** `toProjectJson`, up to the JSON text: the record the desktop file holds.
      `image` stands for the encoded background picture. */
  function ToProjectJson(st: PlanEditorState, image: string): (r: DProject)
    reads st
    ensures r.pixelPerCmX == st.pixelPerCm && r.pixelPerCmY == st.pixelPerCm
    ensures |r.halls| == |st.halls| && |r.anchors| == |st.anchors|
  {
    var zones := st.zones;
    DProject(image, st.pixelPerCm, st.pixelPerCm, st.gridStepCm, st.lockHalls, st.lockZones, st.lockAnchors,
             Seqs.Map(st.halls, (h: Hall) => DHallOf(h, zones)), Seqs.Map(st.anchors, DAnchorOf))
  }

  /** `toProjectSave`: the flat record, the scale written on both axes.
      `image` stands for the encoded background picture. */
  function ToProjectSave(st: PlanEditorState, image: string): (r: ProjectSave)
    reads st
    ensures r.imageData == image
    ensures r.pixelPerCmX == st.pixelPerCm && r.pixelPerCmY == st.pixelPerCm
    ensures r.gridStepCm == st.gridStepCm
    ensures r.lockHalls == st.lockHalls && r.lockZones == st.lockZones && r.lockAnchors == st.lockAnchors
    ensures r.halls == st.halls && r.anchors == st.anchors && r.zones == st.zones
  {
    ProjectSave(image, st.pixelPerCm, st.pixelPerCm, st.gridStepCm, st.lockHalls, st.lockZones, st.lockAnchors,
                st.halls, st.anchors, st.zones)
  }

  // ---------------------------------------------------------------------
  // Desktop record to state

  function HallOfD(dh: DHall): Hall {
    Hall(dh.num, dh.name, dh.xPx, dh.yPx, dh.wPx, dh.hPx)
  }

  /** A loaded zone belongs to the enclosing hall; its geometry is copied as is. */
  function ZoneOfD(hallNum: Int32, dz: DZone): Zone {
    Zone(hallNum, dz.zoneNum, ToZoneType(dz.zoneType), dz.zoneAngle, dz.bottomLeftX, dz.bottomLeftY, dz.wPx, dz.hPx)
  }

  /** A null or false `bound` loads as false. */
  function AnchorOfD(da: DAnchor): Anchor {
    Anchor(da.number, da.x, da.y, da.z, da.mainHall, da.extraHalls, da.bound == Some(true))
  }

  /** The halls the loader adds, one per desktop hall, in order. */
  function LoadedHalls(dhs: seq<DHall>): (r: seq<Hall>)
    ensures |r| == |dhs|
    ensures forall k :: 0 <= k < |dhs| ==> r[k] == HallOfD(dhs[k])
  {
    if |dhs| == 0 then [] else LoadedHalls(dhs[..|dhs| - 1]) + [HallOfD(dhs[|dhs| - 1])]
  }

  /** The zones nested in one desktop hall, as loaded. */
  function HallZones(hallNum: Int32, dzs: seq<DZone>): (r: seq<Zone>)
    ensures |r| == |dzs|
    ensures forall k :: 0 <= k < |dzs| ==> r[k] == ZoneOfD(hallNum, dzs[k])
  {
    if |dzs| == 0 then [] else HallZones(hallNum, dzs[..|dzs| - 1]) + [ZoneOfD(hallNum, dzs[|dzs| - 1])]
  }

  /** The zones the loader adds: hall by hall, each hall's zones in order. */
  function LoadedZones(dhs: seq<DHall>): seq<Zone> {
    if |dhs| == 0 then []
    else
      var dh := dhs[|dhs| - 1];
      LoadedZones(dhs[..|dhs| - 1]) + HallZones(dh.num, dh.zones)
  }

  function LoadedAnchors(das: seq<DAnchor>): (r: seq<Anchor>)
    ensures |r| == |das|
    ensures forall k :: 0 <= k < |das| ==> r[k] == AnchorOfD(das[k])
  {
    if |das| == 0 then [] else LoadedAnchors(das[..|das| - 1]) + [AnchorOfD(das[|das| - 1])]
  }

  /** The state after a successful desktop load. */
  predicate HoldsDesktop(st: PlanEditorState, dp: DProject)
    reads st
  {
    && st.pixelPerCm == (if dp.pixelPerCmX > 0.0 then dp.pixelPerCmX else 1.0)
    && st.gridStepCm == (if dp.gridStepCm > 0.0 then dp.gridStepCm else 20.0)
    && st.lockHalls == dp.lockHalls && st.lockZones == dp.lockZones && st.lockAnchors == dp.lockAnchors
    && st.halls == LoadedHalls(dp.halls)
    && st.zones == LoadedZones(dp.halls)
    && st.anchors == LoadedAnchors(dp.anchors)
    && st.gridCalibrated
    && st.selection == Scene.NoSelection && st.tempPointA == None
  }

  /** The state after `loadFrom`: the scale from the x axis, else the y axis,
      else 1. */
  predicate HoldsSave(st: PlanEditorState, save: ProjectSave)
    reads st
  {
    && st.pixelPerCm == (if save.pixelPerCmX > 0.0 then save.pixelPerCmX
                         else if save.pixelPerCmY > 0.0 then save.pixelPerCmY else 1.0)
    && st.gridStepCm == (if save.gridStepCm > 0.0 then save.gridStepCm else 20.0)
    && st.lockHalls == save.lockHalls && st.lockZones == save.lockZones && st.lockAnchors == save.lockAnchors
    && st.halls == save.halls && st.anchors == save.anchors && st.zones == save.zones
    && st.gridCalibrated
    && st.selection == Scene.NoSelection && st.tempPointA == None
  }

  /** `loadFrom`: replaces everything with the flat record's contents. */
  method LoadFrom(st: PlanEditorState, save: ProjectSave)
    modifies st
    ensures st.Valid() && st.mode == old(st.mode)
    ensures HoldsSave(st, save)
  {
    var ppcm := if save.pixelPerCmX > 0.0 then save.pixelPerCmX
                else if save.pixelPerCmY > 0.0 then save.pixelPerCmY
                else 1.0;
    var grid := if save.gridStepCm > 0.0 then save.gridStepCm else 20.0;
    st.ClearAll();
    st.Fill(ppcm, grid, save.lockHalls, save.lockZones, save.lockAnchors, save.halls, save.zones, save.anchors);
  }

  /** The halls of the desktop record, added one by one. */
  method ReadHalls(dhs: seq<DHall>) returns (halls: seq<Hall>)
    ensures halls == LoadedHalls(dhs)
  {
    halls := [];
    var i := 0;
    while i < |dhs|
      invariant 0 <= i <= |dhs|
      invariant halls == LoadedHalls(dhs[..i])
    {
      halls := halls + [HallOfD(dhs[i])];
      assert dhs[..i + 1][..i] == dhs[..i];
      i := i + 1;
    }
    assert dhs[..i] == dhs;
  }

  /** The zones nested in one desktop hall, added one by one. */
  method ReadHallZones(dh: DHall) returns (zones: seq<Zone>)
    ensures zones == HallZones(dh.num, dh.zones)
  {
    zones := [];
    var j := 0;
    while j < |dh.zones|
      invariant 0 <= j <= |dh.zones|
      invariant zones == HallZones(dh.num, dh.zones[..j])
    {
      zones := zones + [ZoneOfD(dh.num, dh.zones[j])];
      assert dh.zones[..j + 1][..j] == dh.zones[..j];
      j := j + 1;
    }
    assert dh.zones[..j] == dh.zones;
  }

  /** The zones nested in the desktop halls, hall by hall. */
  method ReadZones(dhs: seq<DHall>) returns (zones: seq<Zone>)
    ensures zones == LoadedZones(dhs)
  {
    zones := [];
    var i := 0;
    while i < |dhs|
      invariant 0 <= i <= |dhs|
      invariant zones == LoadedZones(dhs[..i])
    {
      var inHall := ReadHallZones(dhs[i]);
      zones := zones + inHall;
      assert dhs[..i + 1][..i] == dhs[..i];
      i := i + 1;
    }
    assert dhs[..i] == dhs;
  }

  /** The anchors of the desktop record, added one by one. */
  method ReadAnchors(das: seq<DAnchor>) returns (anchors: seq<Anchor>)
    ensures anchors == LoadedAnchors(das)
  {
    anchors := [];
    var i := 0;
    while i < |das|
      invariant 0 <= i <= |das|
      invariant anchors == LoadedAnchors(das[..i])
    {
      anchors := anchors + [AnchorOfD(das[i])];
      assert das[..i + 1][..i] == das[..i];
      i := i + 1;
    }
    assert das[..i] == das;
  }

  /** The successful branch of `loadProjectJson`: clear, take the x scale
      (the y scale is not read), the grid step and the locks, then add the
      halls, the zones of each hall and the anchors. */
  method LoadDesktop(st: PlanEditorState, dp: DProject)
    modifies st
    ensures st.Valid() && st.mode == old(st.mode)
    ensures HoldsDesktop(st, dp)
  {
    var ppcm := if dp.pixelPerCmX > 0.0 then dp.pixelPerCmX else 1.0;
    var grid := if dp.gridStepCm > 0.0 then dp.gridStepCm else 20.0;
    var halls := ReadHalls(dp.halls);
    var zones := ReadZones(dp.halls);
    var anchors := ReadAnchors(dp.anchors);
    st.ClearAll();
    st.Fill(ppcm, grid, dp.lockHalls, dp.lockZones, dp.lockAnchors, halls, zones, anchors);
  }

  /** `loadProjectJson`. `doc` is the parse of `json`, `None` when the text is
      not JSON. Blank text changes nothing; a desktop record is loaded; failing
      that, a flat record is loaded with `loadFrom`; failing both, nothing
      changes and no error is reported. */
  method LoadProjectJson(st: PlanEditorState, json: string, doc: Option<JValue>)
    requires st.Valid()
    modifies st
    ensures st.Valid() && st.mode == old(st.mode)
    ensures Text.IsBlank(json) ==> unchanged(st)
    ensures !Text.IsBlank(json) && doc.Some? && DecodeDProject(doc.value).Some? ==>
              HoldsDesktop(st, DecodeDProject(doc.value).value)
    ensures !Text.IsBlank(json) && doc.Some? && DecodeDProject(doc.value).None?
            && DecodeProjectSave(doc.value).Some? ==>
              HoldsSave(st, DecodeProjectSave(doc.value).value)
    ensures !Text.IsBlank(json) && (doc.None? || (DecodeDProject(doc.value).None? && DecodeProjectSave(doc.value).None?)) ==>
              unchanged(st)
  {
    if Text.IsBlank(json) {
      return;
    }
    if doc.None? {
      return;
    }
    var desktop := DecodeDProject(doc.value);
    if desktop.Some? {
      LoadDesktop(st, desktop.value);
      return;
    }
    var legacy := DecodeProjectSave(doc.value);
    if legacy.Some? {
      LoadFrom(st, legacy.value);
    }
  }

  // ---------------------------------------------------------------------
  // Saving, then loading

  /** The zones of `halls`, hall by hall: the zones a save nests under each
      hall, in the order a load reads them back. */
  function Grouped(halls: seq<Hall>, zones: seq<Zone>): seq<Zone> {
    if |halls| == 0 then []
    else Grouped(halls[..|halls| - 1], zones) + Scene.ZonesInHall(zones, halls[|halls| - 1].number)
  }

  /** How many halls carry the number `n`. */
  function HallCount(halls: seq<Hall>, n: Int32): nat {
    if |halls| == 0 then 0
    else HallCount(halls[..|halls| - 1], n) + (if halls[|halls| - 1].number == n then 1 else 0)
  }

  predicate DistinctNumbers(halls: seq<Hall>) {
    forall i, j :: 0 <= i < j < |halls| ==> halls[i].number != halls[j].number
  }

  /** The nested zones of a saved hall load back as the hall's zones. */
  lemma HallZonesRoundTrip(h: Hall, zones: seq<Zone>)
    ensures HallZones(h.number, DHallOf(h, zones).zones) == Scene.ZonesInHall(zones, h.number)
  {
    var inHall := Scene.ZonesInHall(zones, h.number);
    var dzs := DHallOf(h, zones).zones;
    var r := HallZones(h.number, dzs);
    forall k | 0 <= k < |inHall|
      ensures r[k] == inHall[k]
    {
      assert dzs[k] == DZoneOf(inHall[k]);
      assert inHall[k].hallNumber == h.number;
      ZoneTypeRoundTrip(inHall[k].zoneType);
    }
  }

  lemma {:induction false} LoadedZonesOfSaved(halls: seq<Hall>, zones: seq<Zone>)
    ensures LoadedZones(Seqs.Map(halls, (h: Hall) => DHallOf(h, zones))) == Grouped(halls, zones)
  {
    var dhs := Seqs.Map(halls, (h: Hall) => DHallOf(h, zones));
    if |halls| > 0 {
      var init := halls[..|halls| - 1];
      var last := halls[|halls| - 1];
      assert dhs[..|dhs| - 1] == Seqs.Map(init, (h: Hall) => DHallOf(h, zones));
      assert dhs[|dhs| - 1] == DHallOf(last, zones);
      LoadedZonesOfSaved(init, zones);
      HallZonesRoundTrip(last, zones);
    }
  }

  /** An editor loaded from the flat record of another holds the other's
      halls, zones and anchors unchanged and in order, its scale, its locks
      and its grid step when that is positive. */
  lemma FlatSaveLoadRoundTrip(st: PlanEditorState, loaded: PlanEditorState, image: string)
    requires st.Valid()
    requires HoldsSave(loaded, ToProjectSave(st, image))
    ensures loaded.halls == st.halls && loaded.zones == st.zones && loaded.anchors == st.anchors
    ensures loaded.pixelPerCm == st.pixelPerCm
    ensures loaded.lockHalls == st.lockHalls && loaded.lockZones == st.lockZones && loaded.lockAnchors == st.lockAnchors
    ensures st.gridStepCm > 0.0 ==> loaded.gridStepCm == st.gridStepCm
  {
  }

  /** Saving to the desktop record and loading it back restores the halls and
      the anchors field for field, the scale (always positive), the locks, the
      grid step when it is positive, and the zones grouped hall by hall. */
  lemma SaveLoadRoundTrip(st: PlanEditorState, image: string)
    requires st.Valid()
    ensures var dp := ToProjectJson(st, image);
            && LoadedHalls(dp.halls) == st.halls
            && LoadedAnchors(dp.anchors) == st.anchors
            && LoadedZones(dp.halls) == Grouped(st.halls, st.zones)
            && (if dp.pixelPerCmX > 0.0 then dp.pixelPerCmX else 1.0) == st.pixelPerCm
            && (st.gridStepCm > 0.0 ==> dp.gridStepCm == st.gridStepCm)
            && dp.lockHalls == st.lockHalls && dp.lockZones == st.lockZones && dp.lockAnchors == st.lockAnchors
  {
    var dp := ToProjectJson(st, image);
    var zones := st.zones;
    assert dp.halls == Seqs.Map(st.halls, (h: Hall) => DHallOf(h, zones));
    forall k | 0 <= k < |st.halls|
      ensures LoadedHalls(dp.halls)[k] == st.halls[k]
    {
      assert dp.halls[k] == DHallOf(st.halls[k], zones);
    }
    forall k | 0 <= k < |st.anchors|
      ensures LoadedAnchors(dp.anchors)[k] == st.anchors[k]
    {
      assert dp.anchors[k] == DAnchorOf(st.anchors[k]);
    }
    LoadedZonesOfSaved(st.halls, zones);
  }

  /** Every copy of a zone of hall `n` is kept, and nothing else. */
  lemma {:induction false} ZonesInHallCount(zones: seq<Zone>, n: Int32, z: Zone)
    ensures multiset(Scene.ZonesInHall(zones, n))[z] == if z.hallNumber == n then multiset(zones)[z] else 0
  {
    if |zones| > 0 {
      var init := zones[..|zones| - 1];
      var last := zones[|zones| - 1];
      ZonesInHallCount(init, n, z);
      assert zones == init + [last];
      if last.hallNumber == n {
        assert Scene.ZonesInHall(zones, n) == Scene.ZonesInHall(init, n) + [last];
      } else {
        assert Scene.ZonesInHall(zones, n) == Scene.ZonesInHall(init, n);
      }
    }
  }

  /** The saved zones come back as many times as there are halls with their
      hall number: zones of a missing hall are lost, zones of a repeated hall
      number are repeated. */
  lemma {:induction false} GroupedCount(halls: seq<Hall>, zones: seq<Zone>, z: Zone)
    ensures multiset(Grouped(halls, zones))[z] == HallCount(halls, z.hallNumber) * multiset(zones)[z]
  {
    if |halls| > 0 {
      var init := halls[..|halls| - 1];
      var n := halls[|halls| - 1].number;
      var a := Grouped(init, zones);
      var b := Scene.ZonesInHall(zones, n);
      var copies := multiset(zones)[z];
      GroupedCount(init, zones, z);
      ZonesInHallCount(zones, n, z);
      assert Grouped(halls, zones) == a + b;
      assert multiset(a + b)[z] == multiset(a)[z] + multiset(b)[z];
      var before := HallCount(init, z.hallNumber);
      if n == z.hallNumber {
        assert HallCount(halls, z.hallNumber) == before + 1;
        assert multiset(b)[z] == copies;
        Distribute(before, 1, copies);
      } else {
        assert HallCount(halls, z.hallNumber) == before;
        assert multiset(b)[z] == 0;
      }
    }
  }

  lemma Distribute(x: nat, y: nat, k: nat)
    ensures (x + y) * k == x * k + y * k
  {
  }

  /** With distinct hall numbers, each hall number is carried by one hall at most. */
  lemma {:induction false} HallCountDistinct(halls: seq<Hall>, n: Int32)
    requires DistinctNumbers(halls)
    ensures HallCount(halls, n) == if Scene.FindHall(halls, n).Some? then 1 else 0
  {
    if |halls| > 0 {
      var init := halls[..|halls| - 1];
      var last := halls[|halls| - 1];
      HallCountDistinct(init, n);
      if last.number == n {
        assert forall i :: 0 <= i < |init| ==> init[i].number != n by {
          forall i | 0 <= i < |init|
            ensures init[i].number != n
          {
            assert init[i] == halls[i];
          }
        }
        assert Scene.FindHall(init, n).None?;
      } else {
        assert Scene.FindHall(halls, n).Some? <==> Scene.FindHall(init, n).Some? by {
          assert forall i :: 0 <= i < |init| ==> init[i] == halls[i];
        }
      }
    }
  }

  /** With distinct hall numbers and every zone's hall present, a save and a
      load give back exactly the zones, reordered hall by hall. */
  lemma ZonesRoundTripAsMultiset(halls: seq<Hall>, zones: seq<Zone>)
    requires DistinctNumbers(halls)
    requires forall k :: 0 <= k < |zones| ==> Scene.FindHall(halls, zones[k].hallNumber).Some?
    ensures multiset(Grouped(halls, zones)) == multiset(zones)
  {
    forall z | true
      ensures multiset(Grouped(halls, zones))[z] == multiset(zones)[z]
    {
      GroupedCount(halls, zones, z);
      HallCountDistinct(halls, z.hallNumber);
      if z in zones {
        var k :| 0 <= k < |zones| && zones[k] == z;
        assert Scene.FindHall(halls, z.hallNumber).Some?;
      }
    }
  }
}
