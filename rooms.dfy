/** The floor and room records both views draw, the room outlines they share,
    and the two floor-list rules both views apply: which floors a load draws,
    and how the offline demo reservation changes the floor list. */
module Rooms {
  import opened JsValues

  /** A room as the API delivers it. `bgpath` is a shape id or literal SVG path
      data; `occupantNames` is absent when the server sends no names. */
  datatype Room = Room(
    number: Ident,
    capacity: int,
    occupants: int,
    bgpath: Ident,
    occupantNames: Option<seq<string>>)

  datatype Floor = Floor(number: Ident, rooms: seq<Room>)

  /** The 21 room outlines; entry k is the outline of shape id k. Both views
      carry the same table, map.js keyed by strings and housing.js as a switch. */
  const ShapePaths: seq<string> := [
    "M26,50 v-75  h-52  v75  Z",
    "M39,43 v-78  h-78  v78  Z",
    "M39,50 v-75  h-78  v75  Z",
    "M52,32 v-58  h-103 v58  Z",
    "M51,63 v-113 h-102 v113 Z",
    "M38,41 v-75  h-76  v75  Z",
    "M26,37 v-75  h-51  v75  Z",
    "M25,37 v-75  h-48  v75  Z",
    "M40,37 v-75  h-80  v75  Z",
    "M48,62 v-58  h51 v-59 h-153 v117 Z",
    "M39,62 v-106 h-78  v106 Z",
    "M51,60 v-110 h-102 v110 Z",
    "M51,31 v-58  h-102 v58  Z",
    "M53,46 v-75  h-105 v75  Z",
    "M26,44 v-75  h-51  v75  Z",
    "M26,38 v-75  h-51  v75  Z",
    "M38,38 v-75  h-76  v75  Z",
    "M26,38 v-75  h-52  v75  Z",
    "M50,60 v-118 h-102 v118 Z",
    "M38,45 v-75  h-76  v75  Z",
    "M52,32 v-60  h-103 v60  Z"
  ]

  /** The floors of `data` whose number loosely equals `floor`, in order. */
  function Matching(data: seq<Floor>, floor: Option<Ident>): seq<Floor> {
    if data == [] then []
    else
      var last := data[|data| - 1];
      Matching(data[..|data| - 1], floor) + (if LooseEqUndef(last.number, floor) then [last] else [])
  }

  /** A load visits exactly the floors whose number equals the requested
      floor: all of them, and none when nothing matches. */
  lemma {:induction false} MatchingExact(data: seq<Floor>, floor: Option<Ident>)
    ensures forall f :: f in Matching(data, floor) <==> f in data && LooseEqUndef(f.number, floor)
    ensures |Matching(data, floor)| <= |data|
    ensures (forall i :: 0 <= i < |data| ==> !LooseEqUndef(data[i].number, floor)) ==>
      Matching(data, floor) == []
  {
    if data != [] {
      var init := data[..|data| - 1];
      MatchingExact(init, floor);
      assert data == init + [data[|data| - 1]];
      assert forall i :: 0 <= i < |init| ==> init[i] == data[i];
      forall f | f in data
        ensures f in init || f == data[|data| - 1]
      {
      }
    }
  }

  /** The loop of a floor load over the floor list: collects the floors whose
      rooms it binds to the room groups. */
  method FloorsToDraw(data: seq<Floor>, floor: Option<Ident>) returns (drawn: seq<Floor>)
    ensures drawn == Matching(data, floor)
  {
    drawn := [];
    for i := 0 to |data|
      invariant drawn == Matching(data[..i], floor)
    {
      assert data[..i + 1][..i] == data[..i];
      if LooseEqUndef(data[i].number, floor) {
        drawn := drawn + [data[i]];
      }
    }
    assert data[..|data|] == data;
  }

  /** The rooms a load draws, one group each. All groups are removed before
      the loop; each floor it visits binds its rooms to the groups already
      there by position, and only its rooms past those get a new group, drawn
      from that room. */
  function DrawnRooms(visited: seq<Floor>): (r: seq<Room>)
    ensures |visited| == 1 ==> r == visited[0].rooms
    ensures forall f :: f in visited ==> |f.rooms| <= |r|
    ensures visited != [] ==> r[..|visited[0].rooms|] == visited[0].rooms
  {
    if visited == [] then []
    else
      var before := DrawnRooms(visited[..|visited| - 1]);
      var last := visited[|visited| - 1];
      assert forall f :: f in visited ==> f in visited[..|visited| - 1] || f == last;
      if |last.rooms| > |before| then before + last.rooms[|before|..] else before
  }

  /** Group `j` shows room `j` of the first visited floor that has more than
      `j` rooms. */
  ghost predicate DrawnFrom(visited: seq<Floor>, r: seq<Room>, j: int)
    requires 0 <= j < |r|
  {
    exists p :: 0 <= p < |visited| && j < |visited[p].rooms| && r[j] == visited[p].rooms[j]
      && forall q :: 0 <= q < p ==> |visited[q].rooms| <= j
  }

  /** One floor more keeps group `j` showing the room of the first floor
      that reaches it: an old group keeps its room, and a new group shows
      the new floor's room, which no earlier floor reaches. */
  lemma DrawnFromExtended(init: seq<Floor>, last: Floor, before: seq<Room>, j: int)
    requires forall f :: f in init ==> |f.rooms| <= |before|
    requires 0 <= j < |before| ==> DrawnFrom(init, before, j)
    requires 0 <= j < |if |last.rooms| > |before| then before + last.rooms[|before|..] else before|
    ensures DrawnFrom(init + [last], if |last.rooms| > |before| then before + last.rooms[|before|..] else before, j)
  {
    var v := init + [last];
    var r := if |last.rooms| > |before| then before + last.rooms[|before|..] else before;
    if j < |before| {
      var p :| 0 <= p < |init| && j < |init[p].rooms| && before[j] == init[p].rooms[j]
        && forall q :: 0 <= q < p ==> |init[q].rooms| <= j;
      assert v[p] == init[p] && r[j] == before[j];
      assert forall q :: 0 <= q < p ==> v[q] == init[q];
    } else {
      assert v[|init|] == last && r[j] == last.rooms[j];
      forall q | 0 <= q < |init|
        ensures |v[q].rooms| <= j
      {
        assert v[q] == init[q] && init[q] in init;
      }
    }
  }

  /** The drawn groups are exactly as many as the largest visited floor has
      rooms, and each shows the room of its position on the first floor that
      reaches it. */
  lemma {:induction false} DrawnRoomsExact(visited: seq<Floor>)
    ensures visited == [] ==> DrawnRooms(visited) == []
    ensures visited != [] ==> exists p :: 0 <= p < |visited| && |DrawnRooms(visited)| == |visited[p].rooms|
    ensures forall j :: 0 <= j < |DrawnRooms(visited)| ==> DrawnFrom(visited, DrawnRooms(visited), j)
  {
    if visited != [] {
      var init, last := visited[..|visited| - 1], visited[|visited| - 1];
      var before := DrawnRooms(init);
      DrawnRoomsExact(init);
      assert visited == init + [last];
      forall j | 0 <= j < |DrawnRooms(visited)|
        ensures DrawnFrom(visited, DrawnRooms(visited), j)
      {
        DrawnFromExtended(init, last, before, j);
      }
      if |last.rooms| <= |before| && init != [] {
        var p :| 0 <= p < |init| && |before| == |init[p].rooms|;
        assert visited[p] == init[p];
      }
    }
  }

  /** With two floors numbered 4 and "4", both match floor 4, but only the
      second floor's room past the first floor's room count is drawn. */
  lemma DuplicateNumberHidesRooms(a: Room, b: Room, c: Room)
    ensures var v := [Floor(Num(4), [a]), Floor(Str("4"), [b, c])];
      Matching(v, Some(Num(4))) == v && DrawnRooms(v) == [a, c]
  {
    var v := [Floor(Num(4), [a]), Floor(Str("4"), [b, c])];
    NumberEqualsItsString(4);
    LooseEqSymmetric(Num(4), Str("4"));
    assert IntToString(4) == "4";
    assert v[..1] == [Floor(Num(4), [a])];
    assert v[..1][..0] == [];
    assert Matching(v[..1], Some(Num(4))) == v[..1];
    assert Matching(v, Some(Num(4))) == v;
    assert DrawnRooms(v[..1]) == [a];
    assert [b, c][1..] == [c];
  }

  /** Index of the first floor whose number loosely equals `floor`. */
  function FirstMatch(data: seq<Floor>, floor: Option<Ident>): (k: Option<nat>)
    ensures k.Some? ==> k.value < |data| && LooseEqUndef(data[k.value].number, floor)
    ensures k.Some? ==> forall j :: 0 <= j < k.value ==> !LooseEqUndef(data[j].number, floor)
    ensures k.None? ==> forall j :: 0 <= j < |data| ==> !LooseEqUndef(data[j].number, floor)
  {
    if data == [] then None
    else if LooseEqUndef(data[0].number, floor) then Some(0)
    else match FirstMatch(data[1..], floor)
      case None => None
      case Some(k) => Some(k + 1)
  }

  function WithOccupants(f: Floor, i: nat, v: int): Floor
    requires i < |f.rooms|
  {
    f.(rooms := f.rooms[i := f.rooms[i].(occupants := v)])
  }

  /** The offline demo reservation: room `i` of the first floor matching
      `floor` gets `v` occupants. None when that floor has no room `i`, where
      the script's assignment throws a TypeError. */
  function DemoReserve(data: seq<Floor>, floor: Option<Ident>, i: nat, v: int): Option<seq<Floor>> {
    match FirstMatch(data, floor)
    case None => Some(data)
    case Some(k) =>
      if i < |data[k].rooms| then Some(data[k := WithOccupants(data[k], i, v)]) else None
  }

  /** The demo reservation changes one room's occupant count and nothing else:
      every floor keeps its number and rooms, every other room is unchanged,
      and with no matching floor the list is unchanged. */
  lemma DemoReserveChangesOneRoom(data: seq<Floor>, floor: Option<Ident>, i: nat, v: int)
    ensures (forall j :: 0 <= j < |data| ==> !LooseEqUndef(data[j].number, floor)) ==>
      DemoReserve(data, floor, i, v) == Some(data)
    ensures DemoReserve(data, floor, i, v).Some? ==>
      var d := DemoReserve(data, floor, i, v).value;
      && |d| == |data|
      && (forall k :: 0 <= k < |data| ==>
            d[k].number == data[k].number && |d[k].rooms| == |data[k].rooms|)
      && (forall k, r :: 0 <= k < |data| && 0 <= r < |data[k].rooms| ==>
            if FirstMatch(data, floor) == Some(k) && r == i
            then d[k].rooms[r] == data[k].rooms[r].(occupants := v)
            else d[k].rooms[r] == data[k].rooms[r])
    ensures DemoReserve(data, floor, i, v).None? <==>
      exists k :: FirstMatch(data, floor) == Some(k) && i >= |data[k].rooms|
  {
    match FirstMatch(data, floor)
    case None =>
    case Some(k) =>
  }

  /** The demo loop of clickRoom: scans the floors, updates the first one that
      matches and stops. `thrown` reports the TypeError of a missing room. */
  method DemoIncrement(data: seq<Floor>, floor: Option<Ident>, i: nat, v: int)
    returns (updated: seq<Floor>, thrown: bool)
    ensures thrown <==> DemoReserve(data, floor, i, v).None?
    ensures !thrown ==> DemoReserve(data, floor, i, v) == Some(updated)
  {
    updated, thrown := data, false;
    var k := 0;
    while k < |data|
      invariant 0 <= k <= |data|
      invariant forall j :: 0 <= j < k ==> !LooseEqUndef(data[j].number, floor)
      invariant updated == data && !thrown
    {
      if LooseEqUndef(data[k].number, floor) {
        assert FirstMatch(data, floor) == Some(k);
        if i < |data[k].rooms| {
          updated := data[k := WithOccupants(data[k], i, v)];
        } else {
          thrown := true;
        }
        return;
      }
      k := k + 1;
    }
    assert FirstMatch(data, floor) == None;
  }
}
