/** The styling rules of housing.map.style (map.js) that differ from the
    older view's: the outline lookup through the `paths` table and the
    tooltip that is null for a room without names. */
module MapView {
  import opened JsValues
  import opened Rooms

  /** The property lookup `style.paths[key]`: style.paths holds the outline of
      shape id k under the property name String(k), for k in 0..20. This finds
      the id, at or after `from`, whose name is `key`. */
  function PathKey(key: string, from: nat): (k: Option<nat>)
    decreases |ShapePaths| - from
    ensures k.Some? ==> from <= k.value < |ShapePaths| && NatToString(k.value) == key
    ensures k.None? ==> forall j: nat :: from <= j < |ShapePaths| ==> NatToString(j) != key
  {
    if from >= |ShapePaths| then None
    else if NatToString(from) == key then Some(from)
    else PathKey(key, from + 1)
  }

  /** style.bgpath: the table outline when String(d.bgpath) names one, else
      d.bgpath itself, taken as literal path data. */
  function BgPath(d: Room): (p: Ident)
    ensures p == d.bgpath || (p.Str? && p.s in ShapePaths)
  {
    match PathKey(ToString(d.bgpath), 0)
    case Some(k) => Str(ShapePaths[k])
    case None => d.bgpath
  }

  /** A numeric shape id 0..20 selects its outline and any other number passes
      through; a string selects an outline exactly when it is the decimal
      rendering of such an id, so "3" does and "03" or "x" do not. */
  lemma BgPathShapeIds(d: Room)
    ensures d.bgpath.Num? ==>
      BgPath(d) == if 0 <= d.bgpath.n < |ShapePaths| then Str(ShapePaths[d.bgpath.n]) else d.bgpath
    ensures forall k: nat :: k < |ShapePaths| && d.bgpath == Str(NatToString(k)) ==>
      BgPath(d) == Str(ShapePaths[k])
    ensures d.bgpath.Str? && (forall k: nat :: k < |ShapePaths| ==> d.bgpath.s != NatToString(k)) ==>
      BgPath(d) == d.bgpath
  {
    var key := ToString(d.bgpath);
    match PathKey(key, 0)
    case Some(k) =>
      NatToStringDigits(k);
      if d.bgpath.Num? {
        IntToStringRoundTrip(d.bgpath.n);
        IntToStringRoundTrip(k);
      }
      forall j: nat | j < |ShapePaths| && key == NatToString(j)
        ensures j == k
      {
        NatToStringDigits(j);
      }
    case None =>
      if d.bgpath.Num? && 0 <= d.bgpath.n {
        assert NatToString(d.bgpath.n) == key;
      }
  }

  /** style.tooltip: the occupants' names joined by "<br>", or null when the
      room carries no names. */
  function Tooltip(d: Room): (t: Option<string>)
    ensures t.None? <==> d.occupantNames.None?
  {
    match d.occupantNames
    case None => None
    case Some(names) => Some(Join(names, "<br>"))
  }

  /** Every occupant's name appears in the tooltip, in order, separated by "<br>". */
  lemma TooltipShowsEveryName(d: Room, k: nat)
    requires d.occupantNames.Some? && k < |d.occupantNames.value|
    ensures var names, o := d.occupantNames.value, JoinOffset(d.occupantNames.value, "<br>", k);
      && o + |names[k]| <= |Tooltip(d).value|
      && Tooltip(d).value[o..o + |names[k]|] == names[k]
      && (k + 1 < |names| ==>
            && o + |names[k]| + 4 <= |Tooltip(d).value|
            && Tooltip(d).value[o + |names[k]|..o + |names[k]| + 4] == "<br>")
      && (k + 1 == |names| ==> o + |names[k]| == |Tooltip(d).value|)
  {
    JoinShowsEach(d.occupantNames.value, "<br>", k);
    JoinLength(d.occupantNames.value, "<br>");
  }

}
