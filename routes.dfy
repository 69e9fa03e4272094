/** The route part of the application state of app.js: the list of routes
    and the pointer to the route being edited. `currentRoute` is a reference
    to one of the listed routes, so a route is an object here and every edit
    made through the pointer is seen in the list as well. */
module Routes {
  import opened Common
  import opened Waypoints

  class Route {
    const id: Id
    const name: string
    var waypoints: seq<Waypoint>
    var distance: Num
    var duration: Duration

    constructor (id: Id, name: string, waypoints: seq<Waypoint>, distance: Num, duration: Duration)
      ensures this.id == id && this.name == name && this.waypoints == waypoints
      ensures this.distance == distance && this.duration == duration
    {
      this.id := id;
      this.name := name;
      this.waypoints := waypoints;
      this.distance := distance;
      this.duration := duration;
    }

    /** The derived fields are the ones `updateRouteInfo` computes from the
        current number of waypoints. */
    predicate Summarized()
      reads this
    {
      distance == DistanceFor(|waypoints|) && duration == Hours(HoursFor(|waypoints|))
    }
  }

  /** `routes.findIndex(r => r.id == id)`. */
  function RoutePosition(rs: seq<Route>, id: Id): int {
    FindIndex(rs, (r: Route) => r.id == id)
  }

  /** `routes.filter(r => r.id !== id)`. */
  function WithoutRouteId(rs: seq<Route>, id: Id): seq<Route> {
    Filter(rs, (r: Route) => r.id != id)
  }

  /** Interior permutation in place: the descending Fisher–Yates loop of
      `optimizeRoute`, with each random draw `Math.floor(Math.random() * (i + 1))`
      an arbitrary index in `[0, i]`. */
  method Shuffle<T>(a: array<T>)
    modifies a
    ensures multiset(a[..]) == old(multiset(a[..]))
  {
    var i := a.Length - 1;
    while i > 0
      invariant i < a.Length
      invariant multiset(a[..]) == old(multiset(a[..]))
    {
      var j :| 0 <= j <= i;
      a[i], a[j] := a[j], a[i];
      i := i - 1;
    }
  }

  /** A randomly jittered coordinate: `centre + (r - 0.5) * 0.1` for a draw
      `r` of `Math.random()`. */
  function Jittered(centre: real, r: real): real {
    centre + (r - 0.5) * 0.1
  }

  class Store {
    var routes: seq<Route>
    var current: Route?

    /** The route being edited, if any, is one of the listed routes. */
    ghost predicate Valid()
      reads this
    {
      current != null ==> current in routes
    }

    constructor ()
      ensures Valid() && routes == [] && current == null
    {
      routes := [];
      current := null;
    }

    /** The state after `loadData` and the start of `initApp`: the loaded
        routes, and the first of them selected through `selectRoute` when
        there is one. */
    constructor Loaded(loaded: seq<Route>)
      ensures Valid() && routes == loaded
      ensures current == if |loaded| > 0 then loaded[0] else null
    {
      routes := loaded;
      current := null;
      new;
      if |loaded| > 0 {
        SelectRoute(loaded[0].id);
      }
    }

    /** `selectRoute`: the first route with the identifier becomes current;
        an unknown identifier clears the selection. */
    method SelectRoute(routeId: Id)
      requires Valid()
      modifies this`current
      ensures Valid()
      ensures var k := RoutePosition(routes, routeId);
        current == if k == -1 then null else routes[k]
    {
      var k := RoutePosition(routes, routeId);
      if k != -1 {
        current := routes[k];
      } else {
        current := null;
      }
    }

    /** `saveNewRoute`: a blank (after trimming) name is refused; otherwise
        an empty route is appended and then selected by its identifier. */
    method SaveNewRoute(nameInput: string, freshId: Id) returns (created: bool)
      requires Valid()
      modifies this
      ensures Valid()
      ensures created <==> Trim(nameInput) != ""
      ensures !created ==> routes == old(routes) && current == old(current)
      ensures created ==> |routes| == |old(routes)| + 1 && routes[..|old(routes)|] == old(routes)
      ensures created ==>
        var r := routes[|routes| - 1];
        fresh(r) && r.id == freshId && r.name == Trim(nameInput) && r.waypoints == [] &&
        r.distance == Finite(0.0) && r.duration == ZeroMinutes
      ensures created ==>
        var k := RoutePosition(routes, freshId);
        0 <= k && current == routes[k]
      ensures created && RoutePosition(old(routes), freshId) == -1 ==> current == routes[|routes| - 1]
    {
      var name := Trim(nameInput);
      if name == "" {
        return false;
      }
      var r := new Route(freshId, name, [], Finite(0.0), ZeroMinutes);
      ghost var before := routes;
      routes := routes + [r];
      assert routes[..|before|] == before;
      SelectRoute(freshId);
      if RoutePosition(before, freshId) == -1 {
        assert forall j :: 0 <= j < |before| ==> routes[j].id != freshId;
      }
      created := true;
    }

    /** `deleteCurrentRoute`, with the user's answer to the confirmation
        dialog as a parameter: every route sharing the current route's
        identifier is removed and the selection is cleared. */
    method DeleteCurrentRoute(confirmed: bool)
      requires Valid()
      modifies this
      ensures Valid()
      ensures old(current) == null || !confirmed ==> routes == old(routes) && current == old(current)
      ensures old(current) != null && confirmed ==>
        routes == WithoutRouteId(old(routes), old(current).id) && current == null
    {
      if current == null {
        return;
      }
      if confirmed {
        routes := WithoutRouteId(routes, current.id);
        current := null;
      }
    }

    /** `updateRouteInfo`: the derived fields of the current route are
        recomputed from its waypoint count. */
    method UpdateRouteInfo()
      modifies current
      ensures current != null ==> current.waypoints == old(current.waypoints) && current.Summarized()
    {
      if current == null {
        return;
      }
      var n := |current.waypoints|;
      current.distance := DistanceFor(n);
      current.duration := Hours(HoursFor(n));
    }

    /** `saveWaypoint`: with a non-blank name and a current route, exactly one
        waypoint is appended at the end and the derived fields are
        recomputed; otherwise nothing changes. */
    method SaveWaypoint(nameInput: string, notesInput: string, freshId: Id, rLat: real, rLng: real)
      returns (added: bool)
      requires Valid()
      requires 0.0 <= rLat < 1.0 && 0.0 <= rLng < 1.0
      modifies current
      ensures added <==> Trim(nameInput) != "" && current != null
      ensures added ==>
        current.waypoints == old(current.waypoints) +
          [Waypoint(freshId, Trim(nameInput), Finite(Jittered(32.0853, rLat)),
                    Finite(Jittered(34.7818, rLng)), Trim(notesInput))] &&
        current.Summarized()
      ensures !added && current != null ==> unchanged(current)
    {
      var name := Trim(nameInput);
      var notes := Trim(notesInput);
      if name == "" || current == null {
        return false;
      }
      var w := Waypoint(freshId, name, Finite(Jittered(32.0853, rLat)), Finite(Jittered(34.7818, rLng)), notes);
      current.waypoints := current.waypoints + [w];
      UpdateRouteInfo();
      added := true;
    }

    /** `updateWaypoint`: the first waypoint with the identifier gets the new
        name and notes in place; nothing else changes, not even the derived
        fields. A blank name is refused before the current route is
        consulted, so only a non-blank name needs a current route. */
    method UpdateWaypoint(waypointId: Id, nameInput: string, notesInput: string) returns (updated: bool)
      requires Valid()
      requires current != null || Trim(nameInput) == ""
      modifies current
      ensures current != null ==>
        var k := PositionOf(old(current.waypoints), waypointId);
        (updated <==> Trim(nameInput) != "" && k != -1) &&
        current.waypoints == (if updated then Edited(old(current.waypoints), k, Trim(nameInput), Trim(notesInput))
                              else old(current.waypoints)) &&
        current.distance == old(current.distance) && current.duration == old(current.duration)
      ensures current == null ==> !updated
    {
      var name := Trim(nameInput);
      var notes := Trim(notesInput);
      if name == "" {
        return false;
      }
      var k := PositionOf(current.waypoints, waypointId);
      if k == -1 {
        return false;
      }
      current.waypoints := Edited(current.waypoints, k, name, notes);
      updated := true;
    }

    /** `deleteWaypoint`, with the answer to the confirmation dialog as a
        parameter: every waypoint with the identifier is filtered out and the
        derived fields are recomputed. The current route is dereferenced only
        after a confirmation. */
    method DeleteWaypoint(waypointId: Id, confirmed: bool)
      requires Valid()
      requires current != null || !confirmed
      modifies current
      ensures confirmed ==>
        current.waypoints == WithoutId(old(current.waypoints), waypointId) && current.Summarized()
      ensures !confirmed && current != null ==> unchanged(current)
    {
      if confirmed {
        current.waypoints := WithoutId(current.waypoints, waypointId);
        UpdateRouteInfo();
      }
    }

    /** `reorderWaypoints`: both positions are found first; only when both
        identifiers are present is the dragged waypoint spliced out and back
        in at the target's position, and the derived fields recomputed. */
    method ReorderWaypoints(draggedId: Id, targetId: Id)
      requires Valid() && current != null
      modifies current
      ensures current.waypoints == Reordered(old(current.waypoints), draggedId, targetId)
      ensures (PositionOf(old(current.waypoints), draggedId) != -1 &&
               PositionOf(old(current.waypoints), targetId) != -1) ==> current.Summarized()
      ensures (PositionOf(old(current.waypoints), draggedId) == -1 ||
               PositionOf(old(current.waypoints), targetId) == -1) ==> unchanged(current)
    {
      var ws := current.waypoints;
      var d := PositionOf(ws, draggedId);
      var t := PositionOf(ws, targetId);
      if d != -1 && t != -1 {
        var dragged := ws[d];
        var rest := SpliceOut(ws, d);
        current.waypoints := SpliceIn(rest, t, dragged);
        UpdateRouteInfo();
      }
    }

    /** `optimizeRoute`: refused without a current route or with fewer than
        three waypoints; otherwise the waypoints between the first and the
        last are shuffled and the derived fields recomputed. */
    method OptimizeRoute() returns (optimized: bool)
      requires Valid()
      modifies current
      ensures optimized <==> current != null && |old(current.waypoints)| >= 3
      ensures optimized ==>
        InteriorShuffled(old(current.waypoints), current.waypoints) && current.Summarized()
      ensures !optimized && current != null ==> unchanged(current)
    {
      if current == null || |current.waypoints| < 3 {
        return false;
      }
      var ws := current.waypoints;
      var n := |ws|;
      var middle := new Waypoint[n - 2](k requires 0 <= k < n - 2 => ws[k + 1]);
      assert middle[..] == ws[1..n - 1];
      Shuffle(middle);
      var shuffled := [ws[0]] + middle[..] + [ws[n - 1]];
      assert shuffled[1..n - 1] == middle[..];
      current.waypoints := shuffled;
      UpdateRouteInfo();
      optimized := true;
    }
  }
}
