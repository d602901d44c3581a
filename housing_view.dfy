/** The styling rules of housing.style (housing.js) that differ from the map
    view's: the outline lookup by a strict `switch` and the "Nobody" tooltip;
    and how each compares with its map-view counterpart. */
module HousingView {
  import opened JsValues
  import opened Rooms
  import MapView

  /** style.tooltip: the names joined by "<br>", or "Nobody" for a room
      without names. An empty name list is truthy and joins to "". */
  function Tooltip(d: Room): (t: string)
    ensures d.occupantNames.None? ==> t == "Nobody"
    ensures d.occupantNames == Some([]) ==> t == ""
  {
    match d.occupantNames
    case None => "Nobody"
    case Some(names) => Join(names, "<br>")
  }

  /** The two tooltips differ only where the map view's is null. */
  lemma TooltipVersusMapView(d: Room)
    ensures Tooltip(d) == if MapView.Tooltip(d).Some? then MapView.Tooltip(d).value else "Nobody"
  {
  }

  /** style.bgpath: a `switch` on the shape id, with strict matching; anything
      but one of the numbers 0..20 falls to the default branch and yields
      undefined (None). */
  function BgPath(d: Room): (p: Option<string>)
    ensures p.Some? ==> p.value in ShapePaths
    ensures d.bgpath.Str? ==> p.None?
  {
    match d.bgpath
    case Str(_) => None
    case Num(n) =>
      match n
      case 0 => Some(ShapePaths[0])
      case 1 => Some(ShapePaths[1])
      case 2 => Some(ShapePaths[2])
      case 3 => Some(ShapePaths[3])
      case 4 => Some(ShapePaths[4])
      case 5 => Some(ShapePaths[5])
      case 6 => Some(ShapePaths[6])
      case 7 => Some(ShapePaths[7])
      case 8 => Some(ShapePaths[8])
      case 9 => Some(ShapePaths[9])
      case 10 => Some(ShapePaths[10])
      case 11 => Some(ShapePaths[11])
      case 12 => Some(ShapePaths[12])
      case 13 => Some(ShapePaths[13])
      case 14 => Some(ShapePaths[14])
      case 15 => Some(ShapePaths[15])
      case 16 => Some(ShapePaths[16])
      case 17 => Some(ShapePaths[17])
      case 18 => Some(ShapePaths[18])
      case 19 => Some(ShapePaths[19])
      case 20 => Some(ShapePaths[20])
      case _ => None
  }

  /** The switch selects outline n for exactly the numbers n in 0..20. */
  lemma BgPathStrict(d: Room)
    ensures BgPath(d).Some? <==> d.bgpath.Num? && 0 <= d.bgpath.n < |ShapePaths|
    ensures BgPath(d).Some? ==> BgPath(d).value == ShapePaths[d.bgpath.n]
  {
  }

  /** Where the two outline lookups agree: whenever the switch finds an
      outline, the map view's table finds the same one. */
  lemma BgPathAgreesWithMapView(d: Room)
    requires BgPath(d).Some?
    ensures MapView.BgPath(d) == Str(BgPath(d).value)
  {
    BgPathStrict(d);
    MapView.BgPathShapeIds(d);
  }

  /** Where they differ: a shape id given as the string "3" selects an
      outline in the map view but none here; a number outside 0..20 passes
      through in the map view and yields undefined here. */
  lemma BgPathDiffersFromMapView(d: Room, n: int)
    ensures d.bgpath == Str("3") ==>
      BgPath(d) == None && MapView.BgPath(d) == Str(ShapePaths[3])
    ensures d.bgpath == Num(n) && !(0 <= n < |ShapePaths|) ==>
      BgPath(d) == None && MapView.BgPath(d) == Num(n)
  {
    if d.bgpath == Str("3") {
      StringIdDiffers(d);
    } else if d.bgpath == Num(n) && !(0 <= n < |ShapePaths|) {
      NumberOutOfRangeDiffers(d);
    }
  }

  lemma StringIdDiffers(d: Room)
    requires d.bgpath == Str("3")
    ensures BgPath(d) == None && MapView.BgPath(d) == Str(ShapePaths[3])
  {
    assert NatToString(3) == "3";
    MapView.BgPathShapeIds(d);
  }

  lemma NumberOutOfRangeDiffers(d: Room)
    requires d.bgpath.Num? && !(0 <= d.bgpath.n < |ShapePaths|)
    ensures BgPath(d) == None && MapView.BgPath(d) == d.bgpath
  {
    BgPathStrict(d);
    MapView.BgPathShapeIds(d);
  }
}
