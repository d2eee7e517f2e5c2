/** The editor's state object: the scale and grid, the three entity lists, the
    lock flags, the tool mode, the selection and the first point of a two-tap
    gesture. */
module EditorState {
  import opened Data
  import Seqs
  import Scene
  import Export

  class PlanEditorState {
    var pixelPerCm: real
    var gridStepCm: real
    var gridCalibrated: bool
    var halls: seq<Hall>
    var zones: seq<Zone>
    var anchors: seq<Anchor>
    var lockHalls: bool
    var lockZones: bool
    var lockAnchors: bool
    var mode: Scene.ToolMode
    var selection: Scene.Selection
    var tempPointA: Option<Point>

    /** The scale stays positive: it starts at 1 and every load that sets it
        falls back to 1 for a value that is not positive. */
    predicate Valid()
      reads this
    {
      pixelPerCm > 0.0
    }

    constructor ()
      ensures Valid()
      ensures pixelPerCm == 1.0 && gridStepCm == 20.0 && !gridCalibrated
      ensures halls == [] && zones == [] && anchors == []
      ensures !lockHalls && !lockZones && !lockAnchors
      ensures mode == Scene.Cursor && selection == Scene.NoSelection && tempPointA == None
    {
      pixelPerCm := 1.0;
      gridStepCm := 20.0;
      gridCalibrated := false;
      halls := [];
      zones := [];
      anchors := [];
      lockHalls := false;
      lockZones := false;
      lockAnchors := false;
      mode := Scene.Cursor;
      selection := Scene.NoSelection;
      tempPointA := None;
    }

    /** `clearAll`: empties the three lists and forgets the selection and the
        pending tap; the scale, grid, locks and mode stay. */
    method ClearAll()
      modifies this
      ensures halls == [] && zones == [] && anchors == []
      ensures selection == Scene.NoSelection && tempPointA == None
      ensures pixelPerCm == old(pixelPerCm) && gridStepCm == old(gridStepCm)
      ensures gridCalibrated == old(gridCalibrated) && mode == old(mode)
      ensures lockHalls == old(lockHalls) && lockZones == old(lockZones) && lockAnchors == old(lockAnchors)
    {
      halls := [];
      zones := [];
      anchors := [];
      selection := Scene.NoSelection;
      tempPointA := None;
    }

    /** What both loaders do after `clearAll`: take the scale, the grid step,
        the locks and the three lists, and mark the grid as calibrated. */
    method Fill(ppcm: real, grid: real, lh: bool, lz: bool, la: bool,
                hs: seq<Hall>, zs: seq<Zone>, as_: seq<Anchor>)
      requires ppcm > 0.0
      modifies this
      ensures Valid()
      ensures pixelPerCm == ppcm && gridStepCm == grid && gridCalibrated
      ensures lockHalls == lh && lockZones == lz && lockAnchors == la
      ensures halls == hs && zones == zs && anchors == as_
      ensures mode == old(mode) && selection == old(selection) && tempPointA == old(tempPointA)
    {
      pixelPerCm := ppcm;
      gridStepCm := grid;
      lockHalls := lh;
      lockZones := lz;
      lockAnchors := la;
      halls := hs;
      zones := zs;
      anchors := as_;
      gridCalibrated := true;
    }

    /** `exportRooms`: the rooms of every hall at the current scale. The zone
        records of each hall are built by the slot-overwriting loop. */
    method ExportRooms() returns (cfg: ExportConfig)
      requires Valid()
      ensures cfg == Export.Rooms(halls, zones, anchors, pixelPerCm)
    {
      var ppcm := pixelPerCm;
      var rooms: seq<ExportRoom> := [];
      var i := 0;
      while i < |halls|
        invariant 0 <= i <= |halls|
        invariant rooms == Export.RoomList(halls[..i], zones, anchors, ppcm)
      {
        var h := halls[i];
        var recs := Export.ExportHallZones(zones, h, ppcm);
        var exported := Seqs.Map(Export.AnchorsForHall(anchors, h.number), (a: Anchor) => Export.ExportAnchorOf(a, h, ppcm));
        rooms := rooms + [ExportRoom(h.number, exported, recs)];
        assert halls[..i + 1][..i] == halls[..i];
        i := i + 1;
      }
      assert halls[..i] == halls;
      cfg := ExportConfig(rooms);
    }
  }
}
