/** The waypoint list of a route and the pure list operations the route
    editor of app.js performs on it: drag-and-drop reordering by two splices,
    the interior shuffle of the "optimizer", deletion by id, editing in
    place, and the placeholder distance and duration derived from the count. */
module Waypoints {
  import opened Common

  datatype Waypoint = Waypoint(id: Id, name: string, lat: Num, lng: Num, notes: string)

  // ---------------------------------------------------------------------------
  // splice
  // ---------------------------------------------------------------------------

  /** `s.splice(i, 1)` seen from the array: element `i` taken out. */
  function SpliceOut<T>(s: seq<T>, i: nat): (r: seq<T>)
    requires i < |s|
    ensures |r| == |s| - 1
    ensures multiset(r) + multiset{s[i]} == multiset(s)
  {
    assert s == s[..i] + [s[i]] + s[i + 1..];
    s[..i] + s[i + 1..]
  }

  /** `s.splice(i, 0, x)`: `x` inserted so that it sits at index `i`. */
  function SpliceIn<T>(s: seq<T>, i: nat, x: T): (r: seq<T>)
    requires i <= |s|
    ensures |r| == |s| + 1 && r[i] == x
    ensures multiset(r) == multiset(s) + multiset{x}
  {
    assert s == s[..i] + s[i..];
    s[..i] + [x] + s[i..]
  }

  // ---------------------------------------------------------------------------
  // reorderWaypoints
  // ---------------------------------------------------------------------------

  /** The first position of the waypoint with identifier `id`, or -1. */
  function PositionOf(ws: seq<Waypoint>, id: Id): int {
    FindIndex(ws, (w: Waypoint) => w.id == id)
  }

  /** The list after dropping `draggedId` onto `targetId`: both positions are
      looked up first, then the dragged waypoint is spliced out and spliced
      back in at the target's position as it was before the removal. An
      absent identifier leaves the list as it is. */
  function Reordered(ws: seq<Waypoint>, draggedId: Id, targetId: Id): (r: seq<Waypoint>)
    ensures |r| == |ws| && multiset(r) == multiset(ws)
  {
    var d := PositionOf(ws, draggedId);
    var t := PositionOf(ws, targetId);
    if d == -1 || t == -1 then ws
    else SpliceIn(SpliceOut(ws, d), t, ws[d])
  }

  /** Dropping a waypoint onto itself puts it back where it was. */
  lemma ReorderOntoItselfIsNoOp(ws: seq<Waypoint>, id: Id)
    ensures Reordered(ws, id, id) == ws
  {
    var d := PositionOf(ws, id);
    if d != -1 {
      assert ws == ws[..d] + [ws[d]] + ws[d + 1..];
    }
  }

  /** When both identifiers are present the dragged waypoint ends up at the
      target's original index, and taking it out again leaves exactly the
      other waypoints in their original relative order. */
  lemma ReorderMovesOne(ws: seq<Waypoint>, draggedId: Id, targetId: Id)
    requires PositionOf(ws, draggedId) != -1 && PositionOf(ws, targetId) != -1
    ensures var d, t := PositionOf(ws, draggedId), PositionOf(ws, targetId);
      var r := Reordered(ws, draggedId, targetId);
      r[t] == ws[d] && SpliceOut(r, t) == SpliceOut(ws, d)
  {
    var d, t := PositionOf(ws, draggedId), PositionOf(ws, targetId);
    assert Reordered(ws, draggedId, targetId) == SpliceIn(SpliceOut(ws, d), t, ws[d]);
    SpliceOutUndoesSpliceIn(SpliceOut(ws, d), t, ws[d]);
  }

  /** Splicing out what was just spliced in gives the list back. */
  lemma SpliceOutUndoesSpliceIn<T>(s: seq<T>, i: nat, x: T)
    requires i <= |s|
    ensures SpliceOut(SpliceIn(s, i, x), i) == s
  {
    var r := SpliceIn(s, i, x);
    assert r[..i] == s[..i];
    assert r[i + 1..] == s[i..];
  }

  /** Where the dragged waypoint lands relative to the target: dragged
      backwards it lands just before the target, but dragged forwards it
      lands just after it, because the target's index was taken before the
      removal shifted the target one place to the left. */
  lemma ReorderPlacement(ws: seq<Waypoint>, draggedId: Id, targetId: Id)
    requires PositionOf(ws, draggedId) != -1 && PositionOf(ws, targetId) != -1
    ensures var d, t := PositionOf(ws, draggedId), PositionOf(ws, targetId);
      var r := Reordered(ws, draggedId, targetId);
      (d < t ==> r[t - 1] == ws[t] && r[t] == ws[d]) &&
      (t < d ==> r[t] == ws[d] && r[t + 1] == ws[t])
  {
    var d, t := PositionOf(ws, draggedId), PositionOf(ws, targetId);
    assert Reordered(ws, draggedId, targetId) == SpliceIn(SpliceOut(ws, d), t, ws[d]);
    MovePlacement(ws, d, t);
  }

  /** `ReorderPlacement` by index: index `d` moved to index `t`. */
  lemma MovePlacement<T>(ws: seq<T>, d: nat, t: nat)
    requires d < |ws| && t < |ws|
    ensures var r := SpliceIn(SpliceOut(ws, d), t, ws[d]);
      (d < t ==> r[t - 1] == ws[t] && r[t] == ws[d]) &&
      (t < d ==> r[t] == ws[d] && r[t + 1] == ws[t])
  {
    var rest := SpliceOut(ws, d);
    if d < t {
      SpliceOutAt(ws, d, t - 1);
      SpliceInAt(rest, t, ws[d], t - 1);
    } else if t < d {
      SpliceOutAt(ws, d, t);
      SpliceInAt(rest, t, ws[d], t + 1);
    }
  }

  /** What sits at index `j` once index `i` is spliced out. */
  lemma SpliceOutAt<T>(s: seq<T>, i: nat, j: nat)
    requires i < |s| && j < |s| - 1
    ensures SpliceOut(s, i)[j] == if j < i then s[j] else s[j + 1]
  {
  }

  /** What sits at index `j` once `x` is spliced in at index `i`. */
  lemma SpliceInAt<T>(s: seq<T>, i: nat, x: T, j: nat)
    requires i <= |s| && j <= |s|
    ensures SpliceIn(s, i, x)[j] == if j < i then s[j] else if j == i then x else s[j - 1]
  {
  }

  // ---------------------------------------------------------------------------
  // optimizeRoute
  // ---------------------------------------------------------------------------

  /** `after` is `before` with only the waypoints strictly between the first
      and the last permuted. */
  ghost predicate InteriorShuffled(before: seq<Waypoint>, after: seq<Waypoint>)
    requires |before| >= 2
  {
    |after| == |before| &&
    after[0] == before[0] && after[|after| - 1] == before[|before| - 1] &&
    multiset(after[1..|after| - 1]) == multiset(before[1..|before| - 1])
  }

  /** Shuffling the interior permutes the whole route. */
  lemma InteriorShuffleIsPermutation(before: seq<Waypoint>, after: seq<Waypoint>)
    requires |before| >= 2 && InteriorShuffled(before, after)
    ensures multiset(after) == multiset(before)
  {
    var n := |before|;
    assert before == [before[0]] + before[1..n - 1] + [before[n - 1]];
    assert after == [after[0]] + after[1..n - 1] + [after[n - 1]];
  }

  // ---------------------------------------------------------------------------
  // deleteWaypoint, updateWaypoint
  // ---------------------------------------------------------------------------

  /** `ws.filter(w => w.id != id)`. */
  function WithoutId(ws: seq<Waypoint>, id: Id): seq<Waypoint> {
    Filter(ws, (w: Waypoint) => w.id != id)
  }

  /** Deleting by identifier removes every waypoint carrying it, keeps all
      the others, and deleting an absent identifier changes nothing. */
  lemma DeleteByIdKeepsOthers(ws: seq<Waypoint>, id: Id)
    ensures forall j :: 0 <= j < |WithoutId(ws, id)| ==> WithoutId(ws, id)[j].id != id
    ensures forall j :: 0 <= j < |ws| && ws[j].id != id ==> ws[j] in WithoutId(ws, id)
    ensures PositionOf(ws, id) == -1 ==> WithoutId(ws, id) == ws
  {
    if PositionOf(ws, id) == -1 {
      FilterKeepsAll(ws, (w: Waypoint) => w.id != id);
    }
  }

  /** Deleting keeps order: it acts on each part of the list separately. */
  lemma DeleteByIdKeepsOrder(a: seq<Waypoint>, b: seq<Waypoint>, id: Id)
    ensures WithoutId(a + b, id) == WithoutId(a, id) + WithoutId(b, id)
  {
    FilterAppend(a, b, (w: Waypoint) => w.id != id);
  }

  /** The waypoint at `i` with a new name and notes; identifier, coordinates
      and position are kept. */
  function Edited(ws: seq<Waypoint>, i: nat, name: string, notes: string): (r: seq<Waypoint>)
    requires i < |ws|
    ensures |r| == |ws| && r[i].name == name && r[i].notes == notes
    ensures r[i].id == ws[i].id && r[i].lat == ws[i].lat && r[i].lng == ws[i].lng
    ensures forall j :: 0 <= j < |ws| && j != i ==> r[j] == ws[j]
  {
    ws[i := ws[i].(name := name, notes := notes)]
  }

  // ---------------------------------------------------------------------------
  // updateRouteInfo
  // ---------------------------------------------------------------------------

  /** The route's duration label: a number of hours, the "0 minutes" of a
      new route, the "unknown" of an import without one, or an imported
      label kept as text. */
  datatype Duration = Hours(h: int) | ZeroMinutes | Unknown | Label(text: string)

  /** `Math.ceil(x)`. */
  function Ceil(x: real): int {
    if x.Floor as real == x then x.Floor else x.Floor + 1
  }

  /** The placeholder distance: 30 per waypoint. */
  function DistanceFor(count: nat): Num {
    Finite((count * 30) as real)
  }

  /** The placeholder duration: `Math.ceil(count * 0.5)` hours. */
  function HoursFor(count: nat): int {
    Ceil(count as real * 0.5)
  }

  /** Half an hour per waypoint, rounded up, is the integer `(count + 1) / 2`:
      the least number of hours `h` with `2 * h >= count`. */
  lemma HoursForIsHalfRoundedUp(count: nat)
    ensures HoursFor(count) == (count + 1) / 2
    ensures 2 * HoursFor(count) >= count && 2 * HoursFor(count) <= count + 1
  {
    var half := count / 2;
    if count % 2 == 0 {
      assert count as real * 0.5 == half as real;
    } else {
      assert count as real * 0.5 == half as real + 0.5;
      assert (half as real + 0.5).Floor == half;
    }
  }
}
