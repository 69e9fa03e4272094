/** Route import from uploaded files in app.js: the accept check applied to
    every upload, the choice of parser by file extension, what the GPX and
    KML parsers do with each match of their regular expression, and the
    route `tryImportRoute` builds from the parsed data.

    The file's text is seen through the three parsers' eyes: what
    `JSON.parse` makes of it, and the lists of matches the GPX and KML
    regular expressions find in it. `parseFloat` and `generateId` are
    parameters. */
module Import {
  import opened Common
  import opened Waypoints
  import opened Routes

  // ---------------------------------------------------------------------------
  // Accept check and dispatch
  // ---------------------------------------------------------------------------

  /** `isValidFileType`: the lower-cased name ends with one of the three
      accepted extensions. Lower-casing never makes a dot, so an accepted
      name has a dot just before a three- or four-letter extension. */
  function IsValidFileType(name: string): (accepted: bool)
    ensures accepted ==> (|name| >= 4 && name[|name| - 4] == '.') || (|name| >= 5 && name[|name| - 5] == '.')
  {
    var lower := ToLower(name);
    if EndsWith(lower, ".json") then DotBeforeExtension(name, ".json"); true
    else if EndsWith(lower, ".gpx") then DotBeforeExtension(name, ".gpx"); true
    else if EndsWith(lower, ".kml") then DotBeforeExtension(name, ".kml"); true
    else false
  }

  /** Only a dot lower-cases to a dot. */
  lemma DotBeforeExtension(name: string, ext: string)
    requires |ext| > 0 && ext[0] == '.' && EndsWith(ToLower(name), ext)
    ensures name[|name| - |ext|] == '.'
  {
    var k := |name| - |ext|;
    assert ToLower(name)[k..][0] == ext[0];
    assert LowerChar(name[k]) == '.';
  }

  datatype Parser = JsonParser | GpxParser | KmlParser | NoParser

  /** The parser `tryImportRoute` picks: the extension is compared as written,
      `.json` first, then `.gpx`, then `.kml`. No name ends with two of the
      three, so the order of the tests does not matter: each extension picks
      its own parser. */
  function ParserFor(name: string): (p: Parser)
    ensures p == JsonParser <==> EndsWith(name, ".json")
    ensures p == GpxParser <==> EndsWith(name, ".gpx")
    ensures p == KmlParser <==> EndsWith(name, ".kml")
  {
    if EndsWith(name, ".json") then
      assert !EndsWith(name, ".gpx") && !EndsWith(name, ".kml") by {
        LastCharOfSuffix(name, ".json");
        if EndsWith(name, ".gpx") { LastCharOfSuffix(name, ".gpx"); }
        if EndsWith(name, ".kml") { LastCharOfSuffix(name, ".kml"); }
      }
      JsonParser
    else if EndsWith(name, ".gpx") then
      assert !EndsWith(name, ".kml") by {
        LastCharOfSuffix(name, ".gpx");
        if EndsWith(name, ".kml") { LastCharOfSuffix(name, ".kml"); }
      }
      GpxParser
    else if EndsWith(name, ".kml") then KmlParser
    else NoParser
  }

  /** Every file a parser is chosen for passes the accept check. */
  lemma DispatchedFilesAreAccepted(name: string)
    ensures ParserFor(name) != NoParser ==> IsValidFileType(name)
  {
    if EndsWith(name, ".json") {
      EndsWithAfterLower(name, ".json");
      assert ToLower(".json") == ".json";
    } else if EndsWith(name, ".gpx") {
      EndsWithAfterLower(name, ".gpx");
      assert ToLower(".gpx") == ".gpx";
    } else if EndsWith(name, ".kml") {
      EndsWithAfterLower(name, ".kml");
      assert ToLower(".kml") == ".kml";
    }
  }

  /** A string ending with a suffix ends with the suffix's last character. */
  lemma LastCharOfSuffix(s: string, suffix: string)
    requires EndsWith(s, suffix) && |suffix| > 0
    ensures s[|s| - 1] == suffix[|suffix| - 1]
  {
    assert s[|s| - |suffix|..][|suffix| - 1] == s[|s| - 1];
  }

  /** None of the three extensions, as `tryImportRoute` writes them, ends in
      a capital letter. */
  lemma NoLowerExtension(name: string)
    requires |name| > 0 && 'A' <= name[|name| - 1] <= 'Z'
    ensures ParserFor(name) == NoParser
  {
    if EndsWith(name, ".json") { LastCharOfSuffix(name, ".json"); }
    if EndsWith(name, ".gpx") { LastCharOfSuffix(name, ".gpx"); }
    if EndsWith(name, ".kml") { LastCharOfSuffix(name, ".kml"); }
  }

  /** The converse fails: a name whose extension is written in capitals is
      accepted on upload, but no parser is chosen for it, so no route is
      imported from it. */
  lemma CapitalExtensionAcceptedButNotParsed(name: string)
    requires EndsWith(name, ".JSON") || EndsWith(name, ".GPX") || EndsWith(name, ".KML")
    ensures IsValidFileType(name)
    ensures ParserFor(name) == NoParser
  {
    if EndsWith(name, ".JSON") {
      LowerCaseOf(".JSON", ".json");
      AcceptedByLowerCase(name, ".JSON", ".json");
    } else if EndsWith(name, ".GPX") {
      LowerCaseOf(".GPX", ".gpx");
      AcceptedByLowerCase(name, ".GPX", ".gpx");
    } else {
      LowerCaseOf(".KML", ".kml");
      AcceptedByLowerCase(name, ".KML", ".kml");
    }
  }

  /** A name ending with a capital extension passes the accept check when
      the extension lower-cases to an accepted one, and no parser is chosen
      for it. */
  lemma AcceptedByLowerCase(name: string, ext: string, lower: string)
    requires EndsWith(name, ext) && |ext| > 0 && 'A' <= ext[|ext| - 1] <= 'Z'
    requires ToLower(ext) == lower && (lower == ".gpx" || lower == ".kml" || lower == ".json")
    ensures IsValidFileType(name) && ParserFor(name) == NoParser
  {
    EndsWithAfterLower(name, ext);
    LastCharOfSuffix(name, ext);
    NoLowerExtension(name);
  }

  /** Lower-casing a string character by character. */
  lemma LowerCaseOf(upper: string, lower: string)
    requires |upper| == |lower|
    requires forall i :: 0 <= i < |upper| ==> LowerChar(upper[i]) == lower[i]
    ensures ToLower(upper) == lower
  {
  }

  // ---------------------------------------------------------------------------
  // Parsers
  // ---------------------------------------------------------------------------

  /** What the route parsers return: the name, the waypoints, and the
      distance and duration when the file carries them. */
  datatype RouteData = RouteData(name: Option<string>, waypoints: seq<Waypoint>,
                                 distance: Option<Num>, duration: Option<string>)

  /** What `JSON.parse` makes of the file: a syntax error, `null`, or a value
      whose `name`, `waypoints`, `distance` and `duration` properties are
      read (absent ones and `null` ones are `None`). */
  datatype JsonDocument =
    | Malformed
    | JsonNull
    | JsonObject(name: Option<string>, waypoints: Option<seq<Waypoint>>,
                 distance: Option<Num>, duration: Option<string>)

  /** `parseJSONRoute`: `None` where it throws (a syntax error, or a property
      read on `null`); otherwise the document's fields, with an empty
      waypoint list when there is none. The waypoints are taken as they are,
      identifiers included. */
  function ParseJson(doc: JsonDocument): (r: Option<RouteData>)
    ensures r.None? <==> doc.Malformed? || doc.JsonNull?
    ensures r.Some? ==>
      (r.value.name == doc.name && r.value.distance == doc.distance && r.value.duration == doc.duration &&
       r.value.waypoints == (if doc.waypoints.Some? then doc.waypoints.value else []))
  {
    match doc
    case Malformed => None
    case JsonNull => None
    case JsonObject(name, waypoints, distance, duration) =>
      Some(RouteData(name, if waypoints.Some? then waypoints.value else [], distance, duration))
  }

  /** One match of the GPX waypoint expression: the `lat` and `lon`
      attributes and the `<name>` text. */
  datatype GpxMatch = GpxMatch(lat: string, lon: string, name: string)

  const GpxRouteName: string := "מסלול מ-GPX"
  const KmlRouteName: string := "מסלול מ-KML"

  /** The waypoints `parseGPXRoute` pushes: one per match, in match order,
      the k-th with the k-th generated identifier, latitude and longitude
      parsed from the attributes. */
  function GpxWaypoints(ms: seq<GpxMatch>, parseFloat: string -> Num, newId: nat -> Id): (ws: seq<Waypoint>)
    ensures |ws| == |ms|
    ensures forall k :: 0 <= k < |ms| ==>
      ws[k] == Waypoint(newId(k), ms[k].name, parseFloat(ms[k].lat), parseFloat(ms[k].lon), "")
  {
    if |ms| == 0 then []
    else
      var prev := GpxWaypoints(ms[..|ms| - 1], parseFloat, newId);
      var m := ms[|ms| - 1];
      prev + [Waypoint(newId(|prev|), m.name, parseFloat(m.lat), parseFloat(m.lon), "")]
  }

  /** `parseGPXRoute` after the regular expression: a loop over the matches
      that pushes one waypoint per match; the route gets the fixed name and
      no distance or duration. */
  method ParseGpx(ms: seq<GpxMatch>, parseFloat: string -> Num, newId: nat -> Id) returns (data: RouteData)
    ensures data == RouteData(Some(GpxRouteName), GpxWaypoints(ms, parseFloat, newId), None, None)
  {
    var waypoints: seq<Waypoint> := [];
    var i := 0;
    while i < |ms|
      invariant 0 <= i <= |ms| && |waypoints| == i
      invariant waypoints == GpxWaypoints(ms[..i], parseFloat, newId)
    {
      var m := ms[i];
      waypoints := waypoints + [Waypoint(newId(|waypoints|), m.name, parseFloat(m.lat), parseFloat(m.lon), "")];
      assert ms[..i + 1] == ms[..i] + [m];
      i := i + 1;
    }
    assert ms[..i] == ms;
    data := RouteData(Some(GpxRouteName), waypoints, None, None);
  }

  /** One match of the KML placemark expression: the `<name>` text and the
      `<coordinates>` text. */
  datatype KmlMatch = KmlMatch(name: string, coordinates: string)

  /** The coordinate fields of a placemark: its trimmed coordinate text split
      at commas. */
  function CoordinateFields(m: KmlMatch): seq<string> {
    Split(Trim(m.coordinates), ',')
  }

  /** A placemark the KML parser keeps: one with at least two fields. */
  predicate HasCoordinatePair(m: KmlMatch) {
    |CoordinateFields(m)| >= 2
  }

  /** The waypoint made from a kept placemark: longitude from the first
      field, latitude from the second, the given identifier. */
  function PlacemarkWaypoint(m: KmlMatch, id: Id, parseFloat: string -> Num): Waypoint
    requires HasCoordinatePair(m)
  {
    var fields := CoordinateFields(m);
    Waypoint(id, m.name, parseFloat(fields[1]), parseFloat(fields[0]), "")
  }

  /** The waypoints `parseKMLRoute` pushes for a list of matches. An
      identifier is generated only for a kept placemark, so the k-th
      waypoint carries the k-th generated identifier. */
  function KmlWaypoints(ms: seq<KmlMatch>, parseFloat: string -> Num, newId: nat -> Id): (ws: seq<Waypoint>)
    ensures |ws| <= |ms|
    ensures forall k :: 0 <= k < |ws| ==> ws[k].id == newId(k) && ws[k].notes == ""
  {
    if |ms| == 0 then []
    else
      var prev := KmlWaypoints(ms[..|ms| - 1], parseFloat, newId);
      var m := ms[|ms| - 1];
      if HasCoordinatePair(m) then prev + [PlacemarkWaypoint(m, newId(|prev|), parseFloat)] else prev
  }

  /** A placemark is kept exactly when its trimmed coordinate text holds a
      comma; the fields around the first comma give longitude and latitude,
      and neither holds a comma. */
  lemma PlacemarkRule(m: KmlMatch)
    ensures HasCoordinatePair(m) <==> ',' in Trim(m.coordinates)
    ensures HasCoordinatePair(m) ==>
      var fields := CoordinateFields(m);
      ',' !in fields[0] && ',' !in fields[1] &&
      Trim(m.coordinates) == fields[0] + [','] + Join(fields[1..], ',')
  {
    var text := Trim(m.coordinates);
    SplitFields(text, ',');
    JoinSplit(text, ',');
    assert ',' in text <==> multiset(text)[','] > 0;
  }

  /** The KML waypoints are the kept placemarks, in order and with nothing
      else: as many as pass the two-field rule, each built from the
      corresponding one. */
  lemma {:induction false} KmlWaypointsAreKeptPlacemarks(ms: seq<KmlMatch>, parseFloat: string -> Num, newId: nat -> Id)
    ensures var kept := Filter(ms, HasCoordinatePair);
      var ws := KmlWaypoints(ms, parseFloat, newId);
      |ws| == |kept| &&
      forall k :: 0 <= k < |ws| ==> ws[k] == PlacemarkWaypoint(kept[k], newId(k), parseFloat)
  {
    if |ms| > 0 {
      var init, m := ms[..|ms| - 1], ms[|ms| - 1];
      assert ms == init + [m];
      KmlWaypointsAreKeptPlacemarks(init, parseFloat, newId);
      KmlWaypointsStep(init, m, parseFloat, newId);
      FilterSnoc(init, m, HasCoordinatePair);
      var prev, keptBefore := KmlWaypoints(init, parseFloat, newId), Filter(init, HasCoordinatePair);
      if HasCoordinatePair(m) {
        var ws, kept := KmlWaypoints(ms, parseFloat, newId), Filter(ms, HasCoordinatePair);
        assert ws == prev + [PlacemarkWaypoint(m, newId(|prev|), parseFloat)];
        assert kept == keptBefore + [m];
        forall k | 0 <= k < |ws| ensures ws[k] == PlacemarkWaypoint(kept[k], newId(k), parseFloat) {
          if k < |prev| {
            assert ws[k] == prev[k] && kept[k] == keptBefore[k];
          }
        }
      }
    }
  }

  /** One more match adds at most its own waypoint at the end. */
  lemma KmlWaypointsStep(init: seq<KmlMatch>, m: KmlMatch, parseFloat: string -> Num, newId: nat -> Id)
    ensures var prev := KmlWaypoints(init, parseFloat, newId);
      KmlWaypoints(init + [m], parseFloat, newId) ==
        if HasCoordinatePair(m) then prev + [PlacemarkWaypoint(m, newId(|prev|), parseFloat)] else prev
  {
    assert (init + [m])[..|init|] == init;
  }

  /** `KmlWaypointsStep` for the loop of `ParseKml`: one more match of the
      list read. */
  lemma KmlWaypointsPrefixStep(ms: seq<KmlMatch>, i: nat, parseFloat: string -> Num, newId: nat -> Id)
    requires i < |ms|
    ensures var prev := KmlWaypoints(ms[..i], parseFloat, newId);
      KmlWaypoints(ms[..i + 1], parseFloat, newId) ==
        if HasCoordinatePair(ms[i]) then prev + [PlacemarkWaypoint(ms[i], newId(|prev|), parseFloat)] else prev
  {
    assert ms[..i + 1] == ms[..i] + [ms[i]];
    KmlWaypointsStep(ms[..i], ms[i], parseFloat, newId);
  }

  /** `parseKMLRoute` after the regular expression: a loop over the matches
      that pushes a waypoint for every placemark with a coordinate pair. */
  method ParseKml(ms: seq<KmlMatch>, parseFloat: string -> Num, newId: nat -> Id) returns (data: RouteData)
    ensures data == RouteData(Some(KmlRouteName), KmlWaypoints(ms, parseFloat, newId), None, None)
  {
    var waypoints: seq<Waypoint> := [];
    var i := 0;
    while i < |ms|
      invariant 0 <= i <= |ms|
      invariant waypoints == KmlWaypoints(ms[..i], parseFloat, newId)
    {
      var m := ms[i];
      var coords := CoordinateFields(m);
      KmlWaypointsPrefixStep(ms, i, parseFloat, newId);
      if |coords| >= 2 {
        waypoints := waypoints + [Waypoint(newId(|waypoints|), m.name, parseFloat(coords[1]), parseFloat(coords[0]), "")];
      }
      i := i + 1;
    }
    assert ms[..i] == ms;
    data := RouteData(Some(KmlRouteName), waypoints, None, None);
  }

  // ---------------------------------------------------------------------------
  // tryImportRoute
  // ---------------------------------------------------------------------------

  /** An uploaded file: its name and its text as each parser reads it. */
  datatype UploadedFile = UploadedFile(name: string, json: JsonDocument, gpx: seq<GpxMatch>, kml: seq<KmlMatch>)

  /** The parsed data `tryImportRoute` obtains, or `None` when no parser is
      chosen or the chosen one throws. */
  function ParsedRoute(file: UploadedFile, parseFloat: string -> Num, newId: nat -> Id): (r: Option<RouteData>)
    ensures ParserFor(file.name) == NoParser ==> r.None?
    ensures ParserFor(file.name) == GpxParser || ParserFor(file.name) == KmlParser ==> r.Some?
  {
    match ParserFor(file.name)
    case JsonParser => ParseJson(file.json)
    case GpxParser => Some(RouteData(Some(GpxRouteName), GpxWaypoints(file.gpx, parseFloat, newId), None, None))
    case KmlParser => Some(RouteData(Some(KmlRouteName), KmlWaypoints(file.kml, parseFloat, newId), None, None))
    case NoParser => None
  }

  /** `routeData.name || "מסלול מ-" + file name`: never empty. */
  function ImportedName(fileName: string, name: Option<string>): (r: string)
    ensures r != ""
    ensures name.Some? && name.value != "" ==> r == name.value
    ensures name.None? || name.value == "" ==> r == "מסלול מ-" + fileName
  {
    if name.Some? && name.value != "" then name.value else "מסלול מ-" + fileName
  }

  /** `routeData.distance || 0`: a missing, zero or NaN distance becomes 0,
      so the result is never NaN. */
  function ImportedDistance(distance: Option<Num>): (r: Num)
    ensures r != NaN
    ensures distance.Some? && Truthy(distance.value) ==> r == distance.value
    ensures distance.None? || !Truthy(distance.value) ==> r == Finite(0.0)
  {
    if distance.Some? && Truthy(distance.value) then distance.value else Finite(0.0)
  }

  /** `routeData.duration || "לא ידוע"`: a missing or empty label reads
      "unknown". */
  function ImportedDuration(duration: Option<string>): (r: Duration)
    ensures r == Unknown <==> duration.None? || duration.value == ""
    ensures r != Unknown ==> r == Label(duration.value)
  {
    if duration.Some? && duration.value != "" then Label(duration.value) else Unknown
  }

  /** GPX and KML imports always get the parser's fixed name, distance 0 and
      an unknown duration; a JSON document without a name is named after
      the file. */
  lemma ImportDefaults(file: UploadedFile, parseFloat: string -> Num, newId: nat -> Id)
    ensures var p := ParserFor(file.name);
      var data := ParsedRoute(file, parseFloat, newId);
      (p == GpxParser || p == KmlParser ==>
        ImportedName(file.name, data.value.name) == (if p == GpxParser then GpxRouteName else KmlRouteName) &&
        ImportedDistance(data.value.distance) == Finite(0.0) &&
        ImportedDuration(data.value.duration) == Unknown) &&
      (p == JsonParser && file.json.JsonObject? && file.json.name.None? ==>
        ImportedName(file.name, data.value.name) == "מסלול מ-" + file.name)
  {
    var data := ParsedRoute(file, parseFloat, newId);
    match ParserFor(file.name)
    case GpxParser =>
      assert data.value.name == Some(GpxRouteName) && data.value.distance.None? && data.value.duration.None?;
    case KmlParser =>
      assert data.value.name == Some(KmlRouteName) && data.value.distance.None? && data.value.duration.None?;
    case JsonParser =>
      if file.json.JsonObject? && file.json.name.None? {
        assert data.value.name.None?;
      }
    case NoParser =>
  }

  /** `tryImportRoute`: when a parser is chosen and does not throw, one new
      route is appended with the given identifier, the parsed waypoints and
      the defaulted name, distance and duration; the selection is left
      alone. Otherwise the routes are unchanged. */
  method TryImportRoute(store: Store, file: UploadedFile, parseFloat: string -> Num, newId: nat -> Id, routeId: Id)
    returns (imported: bool)
    requires store.Valid()
    modifies store
    ensures store.Valid() && store.current == old(store.current)
    ensures var data := ParsedRoute(file, parseFloat, newId);
      imported <==> data.Some?
    ensures !imported ==> store.routes == old(store.routes)
    ensures imported ==>
      var data := ParsedRoute(file, parseFloat, newId).value;
      |store.routes| == |old(store.routes)| + 1 && store.routes[..|old(store.routes)|] == old(store.routes) &&
      var r := store.routes[|store.routes| - 1];
      fresh(r) && r.id == routeId && r.name == ImportedName(file.name, data.name) &&
      r.waypoints == data.waypoints && r.distance == ImportedDistance(data.distance) &&
      r.duration == ImportedDuration(data.duration)
  {
    var data: Option<RouteData> := None;
    if EndsWith(file.name, ".json") {
      data := ParseJson(file.json);
    } else if EndsWith(file.name, ".gpx") {
      var gpx := ParseGpx(file.gpx, parseFloat, newId);
      data := Some(gpx);
    } else if EndsWith(file.name, ".kml") {
      var kml := ParseKml(file.kml, parseFloat, newId);
      data := Some(kml);
    }
    if data.None? {
      return false;
    }
    var d := data.value;
    var r := new Route(routeId, ImportedName(file.name, d.name), d.waypoints,
                       ImportedDistance(d.distance), ImportedDuration(d.duration));
    ghost var before := store.routes;
    store.routes := store.routes + [r];
    assert store.routes[..|before|] == before;
    imported := true;
  }
}
