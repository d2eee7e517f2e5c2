/** What the hall, anchor and zone dialogs store when "Save" is pressed. Every
    length is edited in metres and stored in scene pixels; a field whose text
    does not parse keeps the entity's previous value, and the clamps apply to
    parsed values only. A typed length is given as the result of
    `toFloatOrNull` (`None` when the text is not a number). */
module Dialogs {
  import opened Data
  import Seqs
  import Numeric
  import Text

  /** Pixels per metre at the given scale; a scale that is not positive
      counts as 1 px/cm. */
  function PxPerMeter(ppcm: real): (r: real)
    ensures r > 0.0
    ensures ppcm > 0.0 ==> r == ppcm * 100.0
    ensures ppcm <= 0.0 ==> r == 100.0
  {
    (if ppcm > 0.0 then ppcm else 1.0) * 100.0
  }

  /** A length field: the typed metres raised to at least `lo`, or, when the
      text does not parse, the stored length in metres; then back to pixels. */
  function LengthPx(typed: Option<real>, lo: real, storedPx: real, ppm: real): (r: real)
    requires ppm > 0.0
    ensures typed.None? ==> r == storedPx
    ensures typed.Some? ==> r >= lo * ppm && r >= typed.value * ppm
    ensures typed.Some? && typed.value >= lo ==> r == typed.value * ppm
    ensures typed.Some? && typed.value < lo ==> r == lo * ppm
  {
    if typed.Some? then
      var m := Numeric.CoerceAtLeast(typed.value, lo);
      Numeric.MulMonotone(lo, m, ppm);
      Numeric.MulMonotone(typed.value, m, ppm);
      m * ppm
    else
      storedPx / ppm * ppm
  }

  /** A number field: the parsed integer, else the old value. */
  function NumberOr(text: string, previous: Int32): (r: Int32)
    ensures Text.ParseInt(text).Some? ==> r == Text.ParseInt(text).value
    ensures Text.ParseInt(text).None? ==> r == previous
  {
    match Text.ParseInt(text)
    case Some(n) => n
    case None => previous
  }

  // ---------------------------------------------------------------------
  // Hall dialog

  /** The hall the dialog stores: number, name, offsets at least 0 m and
      sizes at least 0.1 m, each kept when its text does not parse. */
  function ApplyHall(initial: Hall, number: string, name: string,
                     x: Option<real>, y: Option<real>, w: Option<real>, h: Option<real>, ppcm: real): (r: Hall)
    ensures r.number == NumberOr(number, initial.number) && r.name == name
    ensures x.None? ==> r.xPx == initial.xPx
    ensures y.None? ==> r.yPx == initial.yPx
    ensures w.None? ==> r.wPx == initial.wPx
    ensures h.None? ==> r.hPx == initial.hPx
    ensures x.Some? ==> r.xPx >= 0.0 && r.xPx == Numeric.CoerceAtLeast(x.value, 0.0) * PxPerMeter(ppcm)
    ensures y.Some? ==> r.yPx >= 0.0 && r.yPx == Numeric.CoerceAtLeast(y.value, 0.0) * PxPerMeter(ppcm)
    ensures w.Some? ==> r.wPx >= 0.1 * PxPerMeter(ppcm) && r.wPx == Numeric.CoerceAtLeast(w.value, 0.1) * PxPerMeter(ppcm)
    ensures h.Some? ==> r.hPx >= 0.1 * PxPerMeter(ppcm) && r.hPx == Numeric.CoerceAtLeast(h.value, 0.1) * PxPerMeter(ppcm)
  {
    var ppm := PxPerMeter(ppcm);
    initial.(number := NumberOr(number, initial.number), name := name,
             xPx := LengthPx(x, 0.0, initial.xPx, ppm), yPx := LengthPx(y, 0.0, initial.yPx, ppm),
             wPx := LengthPx(w, 0.1, initial.wPx, ppm), hPx := LengthPx(h, 0.1, initial.hPx, ppm))
  }

  /** The metres a stored length is shown as. */
  function Metres(px: real, ppcm: real): real {
    px / PxPerMeter(ppcm)
  }

  /** Saving a hall dialog whose fields still hold the hall's own values
      (its number, its name, its lengths in metres) gives back the hall, as
      long as the hall already satisfies the dialog's clamps. */
  lemma HallDialogRoundTrip(hall: Hall, ppcm: real)
    requires hall.xPx >= 0.0 && hall.yPx >= 0.0
    requires hall.wPx >= 0.1 * PxPerMeter(ppcm) && hall.hPx >= 0.1 * PxPerMeter(ppcm)
    ensures ApplyHall(hall, Text.IntToString(hall.number), hall.name,
                      Some(Metres(hall.xPx, ppcm)), Some(Metres(hall.yPx, ppcm)),
                      Some(Metres(hall.wPx, ppcm)), Some(Metres(hall.hPx, ppcm)), ppcm) == hall
  {
    var ppm := PxPerMeter(ppcm);
    Text.ParseIntOfString(hall.number);
    MetresBack(hall.xPx, 0.0, ppm);
    MetresBack(hall.yPx, 0.0, ppm);
    MetresBack(hall.wPx, 0.1, ppm);
    MetresBack(hall.hPx, 0.1, ppm);
  }

  /** A stored length at or above the clamp, shown in metres and typed back,
      is stored unchanged. */
  lemma MetresBack(px: real, lo: real, ppm: real)
    requires ppm > 0.0 && px >= lo * ppm
    ensures LengthPx(Some(px / ppm), lo, px, ppm) == px
  {
    var m := px / ppm;
    assert m * ppm == px;
    assert m >= lo;
  }

  // ---------------------------------------------------------------------
  // Anchor dialog

  /** The extra-halls field: the comma-separated pieces, trimmed, those that
      are integers, in order. */
  function ParseExtraHalls(text: string): seq<Int32> {
    IntegersOf(Text.Split(text, ','))
  }

  /** `mapNotNull { it.trim().toIntOrNull() }` over the pieces. */
  function IntegersOf(pieces: seq<string>): (r: seq<Int32>)
    ensures |r| <= |pieces|
  {
    if |pieces| == 0 then [] else PieceInteger(pieces[0]) + IntegersOf(pieces[1..])
  }

  /** One piece: its integer once trimmed, or nothing. */
  function PieceInteger(piece: string): (r: seq<Int32>)
    ensures |r| <= 1
  {
    var n := Text.ParseInt(Text.Trim(piece));
    if n.Some? then [n.value] else []
  }

  /** A piece yields a number exactly when, trimmed, it is an optional sign
      and decimal digits of `Int` range, and the number is their value. */
  lemma PieceIntegerValue(piece: string)
    ensures var t := Text.Trim(piece);
            |PieceInteger(piece)| == 1 <==> Text.IntegerText(t) && MinInt32 <= Text.TextValue(t) <= MaxInt32
    ensures |PieceInteger(piece)| == 1 ==> PieceInteger(piece)[0] == Text.TextValue(Text.Trim(piece))
  {
    Text.ParseIntSpec(Text.Trim(piece));
  }

  /** The text the extra-halls field starts with: the numbers joined by commas. */
  function ExtraHallsText(halls: seq<Int32>): string {
    Text.Join(NumberTexts(halls), ',')
  }

  function NumberTexts(halls: seq<Int32>): (r: seq<string>)
    ensures |r| == |halls|
    ensures forall k :: 0 <= k < |halls| ==> r[k] == Text.IntToString(halls[k])
  {
    Seqs.Map(halls, (n: Int32) => Text.IntToString(n))
  }

  lemma {:induction false} IntegersOfNumbers(halls: seq<Int32>)
    ensures IntegersOf(NumberTexts(halls)) == halls
  {
    if |halls| > 0 {
      var texts := NumberTexts(halls);
      assert texts[1..] == NumberTexts(halls[1..]);
      IntegersOfNumbers(halls[1..]);
      Text.TrimIntToString(halls[0]);
      Text.ParseIntOfString(halls[0]);
      assert halls == [halls[0]] + halls[1..];
    }
  }

  /** The extra halls read back from the field's initial text are the anchor's
      extra halls, the empty list included. */
  lemma ExtraHallsRoundTrip(halls: seq<Int32>)
    ensures ParseExtraHalls(ExtraHallsText(halls)) == halls
  {
    var texts := NumberTexts(halls);
    if |halls| == 0 {
      assert Text.Split("", ',') == [""];
      assert Text.Trim("") == "";
    } else {
      Text.SplitJoin(texts, ',');
      IntegersOfNumbers(halls);
    }
  }

  lemma {:induction false} IntegersOfAppend(a: seq<string>, b: seq<string>)
    ensures IntegersOf(a + b) == IntegersOf(a) + IntegersOf(b)
  {
    if |a| == 0 {
      assert a + b == b;
    } else {
      assert (a + b)[0] == a[0] && (a + b)[1..] == a[1..] + b;
      IntegersOfAppend(a[1..], b);
    }
  }

  /** A piece that is not an integer once trimmed, a blank one included,
      is dropped without disturbing the others. */
  lemma JunkPieceDropped(a: seq<string>, junk: string, b: seq<string>)
    requires Text.ParseInt(Text.Trim(junk)).None?
    ensures IntegersOf(a + [junk] + b) == IntegersOf(a + b)
  {
    assert PieceInteger(junk) == [];
    assert IntegersOf([junk]) == [] by {
      assert [junk][1..] == [];
    }
    IntegersOfAppend(a + [junk], b);
    IntegersOfAppend(a, [junk]);
    IntegersOfAppend(a, b);
    assert IntegersOf(a + [junk]) == IntegersOf(a);
  }

  /** A piece that is an integer of `Int` range once trimmed, as `" 5 "` or
      `"-2"`, contributes its value, in its place. */
  lemma IntegerPieceKept(a: seq<string>, piece: string, b: seq<string>)
    requires Text.IntegerText(Text.Trim(piece))
    requires MinInt32 <= Text.TextValue(Text.Trim(piece)) <= MaxInt32
    ensures IntegersOf(a + [piece] + b) == IntegersOf(a) + [Text.TextValue(Text.Trim(piece))] + IntegersOf(b)
  {
    PieceIntegerValue(piece);
    assert IntegersOf([piece]) == PieceInteger(piece) by {
      assert [piece][1..] == [];
    }
    IntegersOfAppend(a + [piece], b);
    IntegersOfAppend(a, [piece]);
  }

  lemma BlankPieceDropped(a: seq<string>, b: seq<string>)
    ensures IntegersOf(a + [""] + b) == IntegersOf(a + b)
  {
    assert Text.Trim("") == "";
    JunkPieceDropped(a, "", b);
  }

  /** An unclamped length field: the typed metres, or the stored length when
      the text does not parse, in pixels. */
  function PlainLengthPx(typed: Option<real>, storedPx: real, ppm: real): (r: real)
    requires ppm > 0.0
    ensures typed.None? ==> r == storedPx
    ensures typed.Some? ==> r == typed.value * ppm
  {
    (if typed.Some? then typed.value else storedPx / ppm) * ppm
  }

  /** The height field: the typed metres, or the stored height in metres, in
      whole centimetres; a height beyond the range of `Int` saturates at its
      bound. */
  function HeightCm(typed: Option<real>, storedCm: Int32): (r: Int32)
    ensures typed.None? ==> r == storedCm
    ensures typed.Some? && MinInt32 as real <= typed.value * 100.0 <= MaxInt32 as real ==>
              -0.5 < r as real - typed.value * 100.0 <= 0.5
    ensures typed.Some? && typed.value * 100.0 > MaxInt32 as real ==> r == MaxInt32
    ensures typed.Some? && typed.value * 100.0 < MinInt32 as real ==> r == MinInt32
  {
    if typed.Some? then
      Numeric.RoundToInt(typed.value * 100.0)
    else
      assert storedCm as real / 100.0 * 100.0 == storedCm as real;
      Numeric.RoundToIntOfInt(storedCm);
      Numeric.RoundToInt(storedCm as real / 100.0 * 100.0)
  }

  /** The anchor the dialog stores: the height in whole centimetres, rounded
      from the metres typed (ties towards positive infinity); x and y not
      clamped; the extra halls parsed from the text; the main hall kept when
      set, else the default hall. */
  function ApplyAnchor(initial: Anchor, number: string, x: Option<real>, y: Option<real>, z: Option<real>,
                       extras: string, bound: bool, hallForDefault: Option<Int32>, ppcm: real): (r: Anchor)
    ensures r.number == NumberOr(number, initial.number)
    ensures x.None? ==> r.xScenePx == initial.xScenePx
    ensures y.None? ==> r.yScenePx == initial.yScenePx
    ensures x.Some? ==> r.xScenePx == x.value * PxPerMeter(ppcm)
    ensures y.Some? ==> r.yScenePx == y.value * PxPerMeter(ppcm)
    ensures r.zCm == HeightCm(z, initial.zCm)
    ensures r.extraHalls == ParseExtraHalls(extras) && r.bound == bound
    ensures initial.mainHall.Some? ==> r.mainHall == initial.mainHall
    ensures initial.mainHall.None? ==> r.mainHall == hallForDefault
  {
    var ppm := PxPerMeter(ppcm);
    initial.(number := NumberOr(number, initial.number),
             xScenePx := PlainLengthPx(x, initial.xScenePx, ppm),
             yScenePx := PlainLengthPx(y, initial.yScenePx, ppm),
             zCm := HeightCm(z, initial.zCm), extraHalls := ParseExtraHalls(extras), bound := bound,
             mainHall := if initial.mainHall.Some? then initial.mainHall else hallForDefault)
  }

  /** Saving an anchor dialog whose fields still hold the anchor's own values
      gives back the anchor, once it has a main hall. */
  lemma AnchorDialogRoundTrip(anchor: Anchor, hallForDefault: Option<Int32>, ppcm: real)
    requires anchor.mainHall.Some?
    ensures ApplyAnchor(anchor, Text.IntToString(anchor.number),
                        Some(Metres(anchor.xScenePx, ppcm)), Some(Metres(anchor.yScenePx, ppcm)),
                        Some(anchor.zCm as real / 100.0), ExtraHallsText(anchor.extraHalls), anchor.bound,
                        hallForDefault, ppcm) == anchor
  {
    Text.ParseIntOfString(anchor.number);
    ExtraHallsRoundTrip(anchor.extraHalls);
    assert anchor.zCm as real / 100.0 * 100.0 == anchor.zCm as real;
    Numeric.RoundToIntOfInt(anchor.zCm);
  }

  /** An anchor without a main hall takes the default one. */
  lemma NewAnchorTakesDefaultHall(anchor: Anchor, hallForDefault: Option<Int32>, ppcm: real)
    requires anchor.mainHall.None?
    ensures ApplyAnchor(anchor, Text.IntToString(anchor.number), None, None, None,
                        ExtraHallsText(anchor.extraHalls), anchor.bound, hallForDefault, ppcm)
            == anchor.(mainHall := hallForDefault)
  {
    Text.ParseIntOfString(anchor.number);
    ExtraHallsRoundTrip(anchor.extraHalls);
  }

  // ---------------------------------------------------------------------
  // Zone dialog

  /** The zone the dialog stores: the chosen kind, the typed angle clamped to
      [-90, 90] degrees, offsets at least 0 m and sizes at least 0.1 m, each
      kept when its text does not parse; the zone stays in its hall. */
  function ApplyZone(initial: Zone, number: string, kind: ZoneType, angle: string,
                     x: Option<real>, y: Option<real>, w: Option<real>, h: Option<real>, ppcm: real): (r: Zone)
    ensures r.hallNumber == initial.hallNumber && r.zoneType == kind
    ensures r.zoneNum == NumberOr(number, initial.zoneNum)
    ensures Text.ParseInt(angle).None? ==> r.angleDeg == initial.angleDeg
    ensures Text.ParseInt(angle).Some? ==> -90 <= r.angleDeg <= 90
    ensures Text.ParseInt(angle).Some? && -90 <= Text.ParseInt(angle).value <= 90 ==>
              r.angleDeg == Text.ParseInt(angle).value
    ensures Text.ParseInt(angle).Some? && Text.ParseInt(angle).value < -90 ==> r.angleDeg == -90
    ensures Text.ParseInt(angle).Some? && Text.ParseInt(angle).value > 90 ==> r.angleDeg == 90
    ensures x.None? ==> r.blXPx == initial.blXPx
    ensures y.None? ==> r.blYPx == initial.blYPx
    ensures w.None? ==> r.wPx == initial.wPx
    ensures h.None? ==> r.hPx == initial.hPx
    ensures x.Some? ==> r.blXPx >= 0.0 && r.blXPx == Numeric.CoerceAtLeast(x.value, 0.0) * PxPerMeter(ppcm)
    ensures y.Some? ==> r.blYPx >= 0.0 && r.blYPx == Numeric.CoerceAtLeast(y.value, 0.0) * PxPerMeter(ppcm)
    ensures w.Some? ==> r.wPx >= 0.1 * PxPerMeter(ppcm) && r.wPx == Numeric.CoerceAtLeast(w.value, 0.1) * PxPerMeter(ppcm)
    ensures h.Some? ==> r.hPx >= 0.1 * PxPerMeter(ppcm) && r.hPx == Numeric.CoerceAtLeast(h.value, 0.1) * PxPerMeter(ppcm)
  {
    var ppm := PxPerMeter(ppcm);
    var ang := match Text.ParseInt(angle)
               case Some(a) => Numeric.CoerceInInt(a, -90, 90)
               case None => initial.angleDeg;
    initial.(zoneNum := NumberOr(number, initial.zoneNum), zoneType := kind, angleDeg := ang,
             blXPx := LengthPx(x, 0.0, initial.blXPx, ppm), blYPx := LengthPx(y, 0.0, initial.blYPx, ppm),
             wPx := LengthPx(w, 0.1, initial.wPx, ppm), hPx := LengthPx(h, 0.1, initial.hPx, ppm))
  }

  /** Saving a zone dialog whose fields still hold the zone's own values gives
      back the zone, as long as it already satisfies the dialog's clamps. */
  lemma ZoneDialogRoundTrip(zone: Zone, ppcm: real)
    requires -90 <= zone.angleDeg <= 90
    requires zone.blXPx >= 0.0 && zone.blYPx >= 0.0
    requires zone.wPx >= 0.1 * PxPerMeter(ppcm) && zone.hPx >= 0.1 * PxPerMeter(ppcm)
    ensures ApplyZone(zone, Text.IntToString(zone.zoneNum), zone.zoneType, Text.IntToString(zone.angleDeg),
                      Some(Metres(zone.blXPx, ppcm)), Some(Metres(zone.blYPx, ppcm)),
                      Some(Metres(zone.wPx, ppcm)), Some(Metres(zone.hPx, ppcm)), ppcm) == zone
  {
    var ppm := PxPerMeter(ppcm);
    Text.ParseIntOfString(zone.zoneNum);
    Text.ParseIntOfString(zone.angleDeg);
    MetresBack(zone.blXPx, 0.0, ppm);
    MetresBack(zone.blYPx, 0.0, ppm);
    MetresBack(zone.wPx, 0.1, ppm);
    MetresBack(zone.hPx, 0.1, ppm);
  }
}
