/** The firmware export: one room per hall, with the hall's anchors and its
    zones grouped by zone number, converted from scene pixels to metres with Y
    measured up from the hall's bottom edge and rounded to one decimal. */
module Export {
  import opened Data
  import Seqs
  import Numeric
  import Scene

  /** Pixels to metres at `ppcm` pixels per centimetre, rounded to one
      decimal. */
  function Metres(px: real, ppcm: real): (r: real)
    requires ppcm > 0.0
    ensures Numeric.IsRound1(r, px / (ppcm * 100.0))
  {
    Numeric.Round1(px / (ppcm * 100.0))
  }

  /** The anchor in the room of hall `h`. */
  function ExportAnchorOf(a: Anchor, h: Hall, ppcm: real): (r: ExportAnchor)
    requires ppcm > 0.0
    ensures r.id == a.number
    ensures Numeric.IsRound1(r.x, (a.xScenePx - h.xPx) / (ppcm * 100.0))
    ensures Numeric.IsRound1(r.y, (h.hPx - (a.yScenePx - h.yPx)) / (ppcm * 100.0))
    ensures Numeric.IsRound1(r.z, a.zCm as real / 100.0)
    ensures r.bound.Some? <==> a.bound
    ensures r.bound.Some? ==> r.bound.value
  {
    var localX := a.xScenePx - h.xPx;
    var localY := a.yScenePx - h.yPx;
    ExportAnchor(a.number, Metres(localX, ppcm), Metres(h.hPx - localY, ppcm),
                 Numeric.Round1(a.zCm as real / 100.0), if a.bound then Some(true) else None)
  }

  /** The anchor belongs to hall `n` as its main hall or as an extra hall. */
  predicate Serves(a: Anchor, n: Int32) {
    a.mainHall == Some(n) || n in a.extraHalls
  }

  /** The anchors serving hall `n`, in list order, each as often as it occurs. */
  function AnchorsForHall(anchors: seq<Anchor>, n: Int32): (r: seq<Anchor>)
    ensures forall i :: 0 <= i < |r| ==> r[i] in anchors && Serves(r[i], n)
    ensures forall i :: 0 <= i < |anchors| && Serves(anchors[i], n) ==> anchors[i] in r
  {
    Seqs.Filter(anchors, ServesHall(n))
  }

  function ServesHall(n: Int32): Anchor -> bool {
    (a: Anchor) => Serves(a, n)
  }

  /** A zone's rectangle in metres; Y is `hH - blY`, the angle is the degree
      value unrounded. */
  function ZoneRect(z: Zone, h: Hall, ppcm: real): (r: ExportRect)
    requires ppcm > 0.0
    ensures Numeric.IsRound1(r.x, z.blXPx / (ppcm * 100.0))
    ensures Numeric.IsRound1(r.y, (h.hPx - z.blYPx) / (ppcm * 100.0))
    ensures Numeric.IsRound1(r.w, z.wPx / (ppcm * 100.0))
    ensures Numeric.IsRound1(r.h, z.hPx / (ppcm * 100.0))
    ensures r.angle == z.angleDeg as real
  {
    ExportRect(Metres(z.blXPx, ppcm), Metres(h.hPx - z.blYPx, ppcm),
               Metres(z.wPx, ppcm), Metres(z.hPx, ppcm), z.angleDeg as real)
  }

  /** The `enter`, `exit` and `bound` variables of one zone group. */
  datatype Slots = Slots(enter: ExportRect, exit: ExportRect, bound: Option<bool>)

  const EmptySlots := Slots(ZeroRect, ZeroRect, None)

  /** One zone of the group: ENTER fills `enter`, EXIT fills `exit`, BOUND
      fills `enter` and sets `bound`. */
  function Put(s: Slots, t: ZoneType, rect: ExportRect): Slots {
    match t
    case ENTER => s.(enter := rect)
    case EXIT => s.(exit := rect)
    case BOUND => s.(enter := rect, bound := Some(true))
  }

  /** The slots after every zone of the group, in order. */
  function FoldSlots(group: seq<Zone>, h: Hall, ppcm: real): Slots
    requires ppcm > 0.0
  {
    if |group| == 0 then EmptySlots
    else
      var z := group[|group| - 1];
      Put(FoldSlots(group[..|group| - 1], h, ppcm), z.zoneType, ZoneRect(z, h, ppcm))
  }

  function ZoneRecord(num: Int32, group: seq<Zone>, h: Hall, ppcm: real): ExportZone
    requires ppcm > 0.0
  {
    var s := FoldSlots(group, h, ppcm);
    ExportZone(num, s.enter, s.exit, s.bound)
  }

  /** The record of zone number `num`: the loop over the group overwriting
      the three slot variables. */
  method ExportZoneOf(num: Int32, group: seq<Zone>, h: Hall, ppcm: real) returns (r: ExportZone)
    requires ppcm > 0.0
    ensures r == ZoneRecord(num, group, h, ppcm)
  {
    var enter := ZeroRect;
    var exit := ZeroRect;
    var bound: Option<bool> := None;
    var i := 0;
    while i < |group|
      invariant 0 <= i <= |group|
      invariant Slots(enter, exit, bound) == FoldSlots(group[..i], h, ppcm)
    {
      var z := group[i];
      var rect := ZoneRect(z, h, ppcm);
      match z.zoneType {
        case ENTER => enter := rect;
        case EXIT => exit := rect;
        case BOUND => enter := rect; bound := Some(true);
      }
      assert group[..i + 1][..i] == group[..i];
      i := i + 1;
    }
    assert group[..i] == group;
    r := ExportZone(num, enter, exit, bound);
  }

  /** The slot a zone type writes its rectangle into. */
  predicate FillsEnter(z: Zone) { z.zoneType != EXIT }

  predicate FillsExit(z: Zone) { z.zoneType == EXIT }

  /** The folded rectangles are: `enter` from the last ENTER or BOUND zone,
      `exit` from the last EXIT zone, all-zero when there is none. */
  lemma {:induction false} FoldSlotsChosen(group: seq<Zone>, h: Hall, ppcm: real)
    requires ppcm > 0.0
    ensures var s := FoldSlots(group, h, ppcm);
            var e := Seqs.LastWhere(group, FillsEnter);
            var x := Seqs.LastWhere(group, FillsExit);
            && s.enter == (if e < 0 then ZeroRect else ZoneRect(group[e], h, ppcm))
            && s.exit == (if x < 0 then ZeroRect else ZoneRect(group[x], h, ppcm))
  {
    if |group| > 0 {
      var init := group[..|group| - 1];
      FoldSlotsChosen(init, h, ppcm);
      assert forall i :: 0 <= i < |init| ==> init[i] == group[i];
    }
  }

  /** `bound` is true exactly when some zone of the group is BOUND, and left
      out otherwise. */
  lemma {:induction false} FoldSlotsBound(group: seq<Zone>, h: Hall, ppcm: real)
    requires ppcm > 0.0
    ensures var s := FoldSlots(group, h, ppcm);
            && (s.bound == Some(true) <==> exists i :: 0 <= i < |group| && group[i].zoneType == BOUND)
            && (s.bound == None <==> forall i :: 0 <= i < |group| ==> group[i].zoneType != BOUND)
  {
    if |group| > 0 {
      var init := group[..|group| - 1];
      FoldSlotsBound(init, h, ppcm);
      assert forall i :: 0 <= i < |init| ==> init[i] == group[i];
    }
  }

  /** A zone of number `num` that writes the `enter` slot. */
  function EntersAs(num: Int32): Zone -> bool {
    (z: Zone) => z.zoneNum == num && FillsEnter(z)
  }

  /** A zone of number `num` that writes the `exit` slot. */
  function ExitsAs(num: Int32): Zone -> bool {
    (z: Zone) => z.zoneNum == num && FillsExit(z)
  }

  /** Taken over the hall's whole zone list, the record of number `num` holds
      in `enter` the last zone of that number that is ENTER or BOUND: later
      zones of the list overwrite earlier ones. */
  lemma EnterFromHallList(inHall: seq<Zone>, num: Int32, h: Hall, ppcm: real)
    requires ppcm > 0.0
    ensures var e := Seqs.LastWhere(inHall, EntersAs(num));
            FoldSlots(Group(inHall, num), h, ppcm).enter == if e < 0 then ZeroRect else ZoneRect(inHall[e], h, ppcm)
  {
    FoldSlotsChosen(Group(inHall, num), h, ppcm);
    Seqs.LastOfFilter(inHall, Numbered(num), FillsEnter, EntersAs(num));
  }

  /** Likewise `exit` holds the last EXIT zone of that number in the list. */
  lemma ExitFromHallList(inHall: seq<Zone>, num: Int32, h: Hall, ppcm: real)
    requires ppcm > 0.0
    ensures var e := Seqs.LastWhere(inHall, ExitsAs(num));
            FoldSlots(Group(inHall, num), h, ppcm).exit == if e < 0 then ZeroRect else ZoneRect(inHall[e], h, ppcm)
  {
    FoldSlotsChosen(Group(inHall, num), h, ppcm);
    Seqs.LastOfFilter(inHall, Numbered(num), FillsExit, ExitsAs(num));
  }

  /** A group of one ENTER and one EXIT zone, in either order, yields one
      record with both rectangles and no `bound`. */
  lemma EnterAndExit(num: Int32, e: Zone, x: Zone, h: Hall, ppcm: real)
    requires ppcm > 0.0
    requires e.zoneType == ENTER && x.zoneType == EXIT
    ensures ZoneRecord(num, [e, x], h, ppcm) == ExportZone(num, ZoneRect(e, h, ppcm), ZoneRect(x, h, ppcm), None)
    ensures ZoneRecord(num, [x, e], h, ppcm) == ExportZone(num, ZoneRect(e, h, ppcm), ZoneRect(x, h, ppcm), None)
  {
    var re := ZoneRect(e, h, ppcm);
    var rx := ZoneRect(x, h, ppcm);
    assert [e][..0] == [] && [x][..0] == [];
    assert FoldSlots([e], h, ppcm) == Slots(re, ZeroRect, None);
    assert FoldSlots([x], h, ppcm) == Slots(ZeroRect, rx, None);
    assert [e, x][..1] == [e] && [x, e][..1] == [x];
    assert FoldSlots([e, x], h, ppcm) == Slots(re, rx, None);
    assert FoldSlots([x, e], h, ppcm) == Slots(re, rx, None);
  }

  /** The distinct zone numbers of the list, in order of first appearance. */
  function GroupKeys(zones: seq<Zone>): (r: seq<Int32>)
    ensures forall i, j :: 0 <= i < j < |r| ==> r[i] != r[j]
    ensures forall i :: 0 <= i < |zones| ==> zones[i].zoneNum in r
    ensures forall k :: 0 <= k < |r| ==> exists i :: 0 <= i < |zones| && zones[i].zoneNum == r[k]
  {
    if |zones| == 0 then []
    else
      var init := zones[..|zones| - 1];
      var keys := GroupKeys(init);
      var n := zones[|zones| - 1].zoneNum;
      assert forall k :: 0 <= k < |keys| ==> exists i :: 0 <= i < |init| && init[i].zoneNum == keys[k];
      if n in keys then keys else keys + [n]
  }

  /** The index of the first zone numbered `n`. */
  function FirstOf(zones: seq<Zone>, n: Int32): (r: int)
    ensures -1 <= r < |zones|
    ensures r >= 0 ==> zones[r].zoneNum == n && forall j :: 0 <= j < r ==> zones[j].zoneNum != n
    ensures r == -1 <==> forall j :: 0 <= j < |zones| ==> zones[j].zoneNum != n
  {
    if |zones| == 0 then -1
    else if zones[0].zoneNum == n then 0
    else
      var k := FirstOf(zones[1..], n);
      if k == -1 then -1 else k + 1
  }

  /** Where each key first appears in the zone list. */
  function Positions(zones: seq<Zone>, keys: seq<Int32>): seq<int>
  {
    seq(|keys|, i requires 0 <= i < |keys| => FirstOf(zones, keys[i]))
  }

  predicate Increasing(s: seq<int>) {
    forall i, j :: 0 <= i < j < |s| ==> s[i] < s[j]
  }

  /** The keys all occur and come in the order in which their numbers first
      appear. */
  predicate InFirstOrder(zones: seq<Zone>, keys: seq<Int32>) {
    var ps := Positions(zones, keys);
    (forall i :: 0 <= i < |ps| ==> ps[i] >= 0) && Increasing(ps)
  }

  lemma {:induction false} GroupKeysOrdered(zones: seq<Zone>)
    ensures InFirstOrder(zones, GroupKeys(zones))
  {
    if |zones| > 0 {
      var init := zones[..|zones| - 1];
      var keys := GroupKeys(init);
      var n := zones[|zones| - 1].zoneNum;
      GroupKeysOrdered(init);
      PositionsOfPrefix(init, zones, keys);
      if n in keys {
        assert GroupKeys(zones) == keys;
      } else {
        assert GroupKeys(zones) == keys + [n];
        NewKeyLast(init, zones, keys, n);
      }
    }
  }

  /** A number new in the last zone goes last, after every earlier key. */
  lemma NewKeyLast(init: seq<Zone>, zones: seq<Zone>, keys: seq<Int32>, n: Int32)
    requires |zones| > 0 && init == zones[..|zones| - 1] && zones[|zones| - 1].zoneNum == n
    requires forall i :: 0 <= i < |init| ==> init[i].zoneNum in keys
    requires n !in keys
    requires InFirstOrder(init, keys) && Positions(zones, keys) == Positions(init, keys)
    ensures InFirstOrder(zones, keys + [n])
  {
    var ps := Positions(zones, keys);
    FirstOfNew(init, zones, keys, n);
    assert Positions(zones, keys + [n]) == ps + [|zones| - 1];
    AppendLargest(ps, |zones| - 1);
  }

  /** Keys that all occur in a prefix are first found at the same places in
      the whole list. */
  lemma PositionsOfPrefix(init: seq<Zone>, zones: seq<Zone>, keys: seq<Int32>)
    requires |init| <= |zones| && init == zones[..|init|]
    requires forall k :: 0 <= k < |keys| ==> exists i :: 0 <= i < |init| && init[i].zoneNum == keys[k]
    ensures Positions(zones, keys) == Positions(init, keys)
  {
    forall k | 0 <= k < |keys|
      ensures FirstOf(init, keys[k]) == FirstOf(zones, keys[k])
    {
      FirstOfPrefix(init, zones, keys[k]);
    }
  }

  /** A number absent from the prefix is first found at the last place. */
  lemma FirstOfNew(init: seq<Zone>, zones: seq<Zone>, keys: seq<Int32>, n: Int32)
    requires |zones| > 0 && init == zones[..|zones| - 1] && zones[|zones| - 1].zoneNum == n
    requires forall i :: 0 <= i < |init| ==> init[i].zoneNum in keys
    requires n !in keys
    ensures FirstOf(zones, n) == |zones| - 1
  {
    assert forall i :: 0 <= i < |init| ==> zones[i] == init[i];
    assert forall i :: 0 <= i < |zones| - 1 ==> zones[i].zoneNum != n;
  }

  lemma AppendLargest(ps: seq<int>, x: int)
    requires Increasing(ps)
    requires 0 <= x && forall i :: 0 <= i < |ps| ==> 0 <= ps[i] < x
    ensures Increasing(ps + [x])
    ensures forall i :: 0 <= i < |ps + [x]| ==> (ps + [x])[i] >= 0
  {
    var r := ps + [x];
    forall i, j | 0 <= i < j < |r|
      ensures r[i] < r[j]
    {
      assert r[i] == ps[i];
      if j < |ps| {
        assert r[j] == ps[j];
      }
    }
    assert forall i :: 0 <= i < |ps| ==> r[i] == ps[i];
  }

  /** A number that occurs in a prefix is first found at the same place in
      the whole list. */
  lemma FirstOfPrefix(init: seq<Zone>, zones: seq<Zone>, n: Int32)
    requires |init| <= |zones| && init == zones[..|init|]
    requires exists i :: 0 <= i < |init| && init[i].zoneNum == n
    ensures 0 <= FirstOf(init, n) && FirstOf(zones, n) == FirstOf(init, n)
  {
    var k := FirstOf(init, n);
    assert forall j :: 0 <= j < |init| ==> zones[j] == init[j];
  }

  /** `groupBy { it.zoneNum }`: the zones numbered `num`, in list order. */
  function Group(zones: seq<Zone>, num: Int32): seq<Zone> {
    Seqs.Filter(zones, Numbered(num))
  }

  function Numbered(num: Int32): Zone -> bool {
    (z: Zone) => z.zoneNum == num
  }

  /** The records of the given zone numbers, in order. */
  function Records(inHall: seq<Zone>, keys: seq<Int32>, h: Hall, ppcm: real): seq<ExportZone>
    requires ppcm > 0.0
  {
    if |keys| == 0 then []
    else
      var n := keys[|keys| - 1];
      Records(inHall, keys[..|keys| - 1], h, ppcm) + [ZoneRecord(n, Group(inHall, n), h, ppcm)]
  }

  /** The zone records of hall `h`: one per zone number, in order of first
      appearance. */
  function HallZoneRecords(zones: seq<Zone>, h: Hall, ppcm: real): seq<ExportZone>
    requires ppcm > 0.0
  {
    var inHall := Scene.ZonesInHall(zones, h.number);
    Records(inHall, GroupKeys(inHall), h, ppcm)
  }

  /** The zone records of one hall, each built by `ExportZoneOf`. */
  method ExportHallZones(zones: seq<Zone>, h: Hall, ppcm: real) returns (recs: seq<ExportZone>)
    requires ppcm > 0.0
    ensures recs == HallZoneRecords(zones, h, ppcm)
  {
    var inHall := Scene.ZonesInHall(zones, h.number);
    var keys := GroupKeys(inHall);
    recs := [];
    var k := 0;
    while k < |keys|
      invariant 0 <= k <= |keys|
      invariant recs == Records(inHall, keys[..k], h, ppcm)
    {
      var rec := ExportZoneOf(keys[k], Group(inHall, keys[k]), h, ppcm);
      recs := recs + [rec];
      assert keys[..k + 1][..k] == keys[..k];
      k := k + 1;
    }
    assert keys[..k] == keys;
  }

  function Room(h: Hall, zones: seq<Zone>, anchors: seq<Anchor>, ppcm: real): ExportRoom
    requires ppcm > 0.0
  {
    ExportRoom(h.number,
               Seqs.Map(AnchorsForHall(anchors, h.number), (a: Anchor) => ExportAnchorOf(a, h, ppcm)),
               HallZoneRecords(zones, h, ppcm))
  }

  /** The rooms of the given halls, in order. */
  function RoomList(halls: seq<Hall>, zones: seq<Zone>, anchors: seq<Anchor>, ppcm: real): seq<ExportRoom>
    requires ppcm > 0.0
  {
    if |halls| == 0 then []
    else RoomList(halls[..|halls| - 1], zones, anchors, ppcm) + [Room(halls[|halls| - 1], zones, anchors, ppcm)]
  }

  /** `exportRooms`: one room per hall, in hall order. */
  function Rooms(halls: seq<Hall>, zones: seq<Zone>, anchors: seq<Anchor>, ppcm: real): ExportConfig
    requires ppcm > 0.0
  {
    ExportConfig(RoomList(halls, zones, anchors, ppcm))
  }

  lemma {:induction false} RoomListAt(halls: seq<Hall>, zones: seq<Zone>, anchors: seq<Anchor>, ppcm: real)
    requires ppcm > 0.0
    ensures var rooms := RoomList(halls, zones, anchors, ppcm);
            && |rooms| == |halls|
            && forall i :: 0 <= i < |halls| ==> rooms[i] == Room(halls[i], zones, anchors, ppcm)
  {
    if |halls| > 0 {
      RoomListAt(halls[..|halls| - 1], zones, anchors, ppcm);
    }
  }

  /** Exactly one room per hall, in hall order, numbered as the hall; every
      anchor serving the hall (as main or extra hall) is listed in it, and
      only those. */
  lemma RoomsShape(halls: seq<Hall>, zones: seq<Zone>, anchors: seq<Anchor>, ppcm: real, i: int)
    requires ppcm > 0.0
    requires 0 <= i < |halls|
    ensures var c := Rooms(halls, zones, anchors, ppcm);
            && |c.rooms| == |halls|
            && c.rooms[i].num == halls[i].number
            && (forall k :: 0 <= k < |anchors| && Serves(anchors[k], halls[i].number) ==>
                  ExportAnchorOf(anchors[k], halls[i], ppcm) in c.rooms[i].anchors)
            && (forall e :: e in c.rooms[i].anchors ==>
                  exists a :: a in anchors && Serves(a, halls[i].number) && e == ExportAnchorOf(a, halls[i], ppcm))
  {
    var h := halls[i];
    var served := AnchorsForHall(anchors, h.number);
    var mapped := Seqs.Map(served, (a: Anchor) => ExportAnchorOf(a, h, ppcm));
    RoomListAt(halls, zones, anchors, ppcm);
    forall k | 0 <= k < |anchors| && Serves(anchors[k], h.number)
      ensures ExportAnchorOf(anchors[k], h, ppcm) in mapped
    {
      var j :| 0 <= j < |served| && served[j] == anchors[k];
      assert mapped[j] == ExportAnchorOf(anchors[k], h, ppcm);
    }
    forall e | e in mapped
      ensures exists a :: a in anchors && Serves(a, h.number) && e == ExportAnchorOf(a, h, ppcm)
    {
      var j :| 0 <= j < |mapped| && mapped[j] == e;
      assert served[j] in anchors && Serves(served[j], h.number);
    }
  }

  /** A room lists the anchors serving its hall in the order of the anchor
      list, one entry per occurrence. */
  lemma RoomAnchorsInOrder(halls: seq<Hall>, zones: seq<Zone>, anchors: seq<Anchor>, ppcm: real, i: int)
    requires ppcm > 0.0
    requires 0 <= i < |halls|
    ensures var c := Rooms(halls, zones, anchors, ppcm);
            var at := Seqs.MatchIndices(anchors, ServesHall(halls[i].number));
            && |c.rooms| == |halls|
            && |c.rooms[i].anchors| == |at|
            && forall k :: 0 <= k < |at| ==> c.rooms[i].anchors[k] == ExportAnchorOf(anchors[at[k]], halls[i], ppcm)
  {
    RoomListAt(halls, zones, anchors, ppcm);
    Seqs.FilterAt(anchors, ServesHall(halls[i].number));
  }

  /** The records follow the zone numbers one for one. */
  lemma {:induction false} RecordsAt(inHall: seq<Zone>, keys: seq<Int32>, h: Hall, ppcm: real)
    requires ppcm > 0.0
    ensures var recs := Records(inHall, keys, h, ppcm);
            && |recs| == |keys|
            && forall k :: 0 <= k < |recs| ==> recs[k] == ZoneRecord(keys[k], Group(inHall, keys[k]), h, ppcm)
  {
    if |keys| > 0 {
      var init := keys[..|keys| - 1];
      RecordsAt(inHall, init, h, ppcm);
    }
  }

  /** Every zone of the hall is exported in exactly one record: the one
      carrying its zone number, built from the zones sharing that number. */
  lemma ZoneRecordPerNumber(zones: seq<Zone>, h: Hall, ppcm: real, z: Zone)
    requires ppcm > 0.0
    requires z in zones && z.hallNumber == h.number
    ensures var inHall := Scene.ZonesInHall(zones, h.number);
            var recs := HallZoneRecords(zones, h, ppcm);
            exists k :: 0 <= k < |recs| && recs[k] == ZoneRecord(z.zoneNum, Group(inHall, z.zoneNum), h, ppcm)
                        && forall k' :: 0 <= k' < |recs| && recs[k'].num == z.zoneNum ==> k' == k
  {
    var inHall := Scene.ZonesInHall(zones, h.number);
    var keys := GroupKeys(inHall);
    var recs := HallZoneRecords(zones, h, ppcm);
    RecordsAt(inHall, keys, h, ppcm);
    var i :| 0 <= i < |zones| && zones[i] == z;
    assert z in inHall;
    var m :| 0 <= m < |inHall| && inHall[m] == z;
    assert z.zoneNum in keys;
    var k :| 0 <= k < |keys| && keys[k] == z.zoneNum;
    assert recs[k] == ZoneRecord(z.zoneNum, Group(inHall, z.zoneNum), h, ppcm);
    forall k' | 0 <= k' < |recs| && recs[k'].num == z.zoneNum
      ensures k' == k
    {
      assert recs[k'] == ZoneRecord(keys[k'], Group(inHall, keys[k']), h, ppcm);
      assert keys[k'] == recs[k'].num;
    }
  }

  /** A hall at the origin, 200 x 100 px at 2 px/cm, with an anchor at
      (50, 30) and 150 cm high exports the anchor at x 0.2 (0.25 rounds to
      even), y 0.4 (0.35 rounds up to the even 4 tenths) and z 1.5. */
  lemma AnchorExample()
    ensures ExportAnchorOf(Anchor(7, 50.0, 30.0, 150, Some(1), [], false), Hall(1, "", 0.0, 0.0, 200.0, 100.0), 2.0)
            == ExportAnchor(7, 0.2, 0.4, 1.5, None)
  {
    assert Numeric.RoundHalfEven(2.5) == 2;
    assert Numeric.RoundHalfEven(3.5) == 4;
    assert Numeric.RoundHalfEven(15.0) == 15;
  }
}
