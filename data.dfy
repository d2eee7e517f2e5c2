/** The records of the floor-plan editor: halls, zones, anchors, the project
    record the app saves for itself, and the records of the firmware export.
    Kotlin `Float` is modelled as `real`, Kotlin `Int` as `Int32`, a nullable
    value as `Option`. */
module Data {

  datatype Option<+T> = None | Some(value: T)

  const MinInt32: int := -0x8000_0000
  const MaxInt32: int := 0x7fff_ffff

  /** Kotlin's 32-bit `Int`. */
  type Int32 = x: int | -0x8000_0000 <= x <= 0x7fff_ffff

  /** Compose's `Offset`: a point in scene or screen pixels. */
  datatype Point = Point(x: real, y: real)

  /** The three kinds of zone; each carries the label the desktop tool shows. */
  datatype ZoneType = ENTER | EXIT | BOUND {
    function Human(): string {
      match this
      case ENTER => "Входная зона"
      case EXIT => "Выходная зона"
      case BOUND => "Переходная"
    }
  }

  /** A rectangular room in scene pixels; (xPx, yPx) is its top-left corner. */
  datatype Hall = Hall(number: Int32, name: string, xPx: real, yPx: real, wPx: real, hPx: real)

  /** A rectangle inside the hall numbered `hallNumber`. (blXPx, blYPx) is its
      bottom-left corner as an offset from the hall's top-left corner; the
      rectangle may be rotated about that corner by `angleDeg` degrees. */
  datatype Zone = Zone(hallNumber: Int32, zoneNum: Int32, zoneType: ZoneType, angleDeg: Int32,
                       blXPx: real, blYPx: real, wPx: real, hPx: real)

  /** A beacon at a scene point, `zCm` centimetres high, serving its main hall
      and any extra halls. */
  datatype Anchor = Anchor(number: Int32, xScenePx: real, yScenePx: real, zCm: Int32,
                           mainHall: Option<Int32>, extraHalls: seq<Int32>, bound: bool)

  /** The app's own project record (the flat format, zones in one list). */
  datatype ProjectSave = ProjectSave(imageData: string, pixelPerCmX: real, pixelPerCmY: real,
                                     gridStepCm: real, lockHalls: bool, lockZones: bool, lockAnchors: bool,
                                     halls: seq<Hall>, anchors: seq<Anchor>, zones: seq<Zone>)

  // The values a field takes when the decoded JSON object does not supply it.
  const DefaultHall := Hall(0, "", 0.0, 0.0, 0.0, 0.0)
  const DefaultZone := Zone(0, 0, ENTER, 0, 0.0, 0.0, 0.0, 0.0)
  const DefaultAnchor := Anchor(0, 0.0, 0.0, 0, None, [], false)
  const DefaultProjectSave := ProjectSave("", 1.0, 1.0, 20.0, false, false, false, [], [], [])

  // The firmware export: metres, Y measured upwards from the hall's bottom edge.
  // A `bound` of None is a field left out of the JSON.
  datatype ExportAnchor = ExportAnchor(id: Int32, x: real, y: real, z: real, bound: Option<bool>)
  datatype ExportRect = ExportRect(x: real, y: real, w: real, h: real, angle: real)
  datatype ExportZone = ExportZone(num: Int32, enter: ExportRect, exit: ExportRect, bound: Option<bool>)
  datatype ExportRoom = ExportRoom(num: Int32, anchors: seq<ExportAnchor>, zones: seq<ExportZone>)
  datatype ExportConfig = ExportConfig(rooms: seq<ExportRoom>)

  const ZeroRect := ExportRect(0.0, 0.0, 0.0, 0.0, 0.0)
}
