/** Providers/Google/Shape/AbstractPolyshape.ts: polygons and polylines, whose geometry is a
    path built from a list of locations, each geocoded on its own and asynchronously. */
module Polyshape {
  import opened Common
  import opened ErrorCodes
  import opened ProviderShape

  /** The `locations` configuration: the empty string, or the list its JSON text parses to. */
  datatype Locations = NoLocations | Parsed(items: seq<string>)

  /** How `ConvertToCoordinates` settles for one location. */
  datatype Geocode = Geocoded(coords: Coordinates) | Failed(reason: string)

  /** `_validateLocations`: the locations are refused, with one report of the shape's invalid
      location error, exactly when there are none or fewer than the shape's minimum. */
  function ValidateLocations(loc: Locations, minPath: nat, invalidCode: ErrorCode): (r: (bool, seq<Report>))
    ensures !r.0 <==> loc.NoLocations? || |loc.items| < minPath
    ensures r.0 ==> r.1 == []
    ensures !r.0 ==> r.1 == [Report(invalidCode, "")]
  {
    if loc.NoLocations? || |loc.items| < minPath then (false, [Report(invalidCode, "")]) else (true, [])
  }

  /** How many locations `every` sends to geocoding: all of those before the first empty one. */
  function Started(items: seq<string>): (n: nat)
    ensures n <= |items|
    ensures forall j :: 0 <= j < n ==> items[j] != ""
    ensures n < |items| ==> items[n] == ""
  {
    var i := IndexOf(items, "");
    if i == -1 then |items| else i
  }

  /** The order in which the geocoding of the first n locations completes: each of them once. */
  predicate CompletionOrder(order: seq<nat>, n: nat)
  {
    && |order| == n
    && Distinct(order)
    && (forall i :: 0 <= i < |order| ==> order[i] < n)
    && (forall k :: 0 <= k < n ==> k in order)
  }

  /** What the path promise settles to. It is fulfilled, with one coordinate per location in the
      locations' own order, exactly when there are locations, none is empty and all of them are
      geocoded; it is rejected, with the reason of a failed geocoding, exactly when one of the
      locations sent to geocoding fails; otherwise it never settles. */
  predicate SettledAs(items: seq<string>, answers: seq<Geocode>, r: Promise<seq<Coordinates>>)
    requires |answers| == |items|
  {
    && (r.Resolved? <==>
          |items| > 0 && Started(items) == |items| && forall j :: 0 <= j < |items| ==> answers[j].Geocoded?)
    && (r.Resolved? ==>
          |r.value| == |items| && forall j :: 0 <= j < |items| ==> answers[j] == Geocoded(r.value[j]))
    && (r.Rejected? <==> exists j :: 0 <= j < Started(items) && answers[j].Failed?)
    && (r.Rejected? ==> exists j :: 0 <= j < Started(items) && answers[j] == Failed(r.reason))
  }

  /** Locations the shape accepts, none of them empty, each of which geocodes: the only case
      in which the path promise is fulfilled. */
  predicate FullyGeocoded(loc: Locations, minPath: nat, answers: seq<Geocode>)
  {
    && loc.Parsed? && |loc.items| >= minPath && |loc.items| > 0 && "" !in loc.items
    && |answers| == |loc.items| && forall j :: 0 <= j < |answers| ==> answers[j].Geocoded?
  }

  /** The resolved path: `Array.from(shapePath.keys()).sort().map(get)` over keys that are
      exactly the positions 0 to n - 1. */
  function SortedPath(shapePath: map<nat, Coordinates>, n: nat): (r: seq<Coordinates>)
    requires forall j :: 0 <= j < n ==> j in shapePath
    ensures |r| == n && forall j :: 0 <= j < n ==> r[j] == shapePath[j]
  {
    seq(n, j requires 0 <= j < n => shapePath[j])
  }

  /** The geocoded positions after n completions, as `shapePath` holds them. */
  ghost predicate PathSoFar(shapePath: map<nat, Coordinates>, answers: seq<Geocode>, order: seq<nat>, n: nat)
    requires n <= |order|
  {
    && (forall k :: k in shapePath <==> k in order[..n] && k < |answers| && answers[k].Geocoded?)
    && (forall k :: k in shapePath ==> k < |answers| && answers[k] == Geocoded(shapePath[k]))
  }

  /** Once every location is geocoded, every position has its coordinates. */
  lemma AllPositionsGeocoded(shapePath: map<nat, Coordinates>, answers: seq<Geocode>, order: seq<nat>)
    requires CompletionOrder(order, |answers|)
    requires PathSoFar(shapePath, answers, order, |order|)
    requires forall i :: 0 <= i < |order| ==> answers[order[i]].Geocoded?
    ensures forall j :: 0 <= j < |answers| ==> j in shapePath
  {
    assert order[..|order|] == order;
    forall j | 0 <= j < |answers|
      ensures j in shapePath
    {
      var i := IndexOf(order, j);
    }
  }

  /** Once every location is geocoded, sorting the stored coordinates by index gives each
      location's coordinates at its own position. */
  lemma SortedPathMatches(shapePath: map<nat, Coordinates>, answers: seq<Geocode>, order: seq<nat>)
    requires CompletionOrder(order, |answers|)
    requires PathSoFar(shapePath, answers, order, |order|)
    requires forall i :: 0 <= i < |order| ==> answers[order[i]].Geocoded?
    ensures forall j :: 0 <= j < |answers| ==> j in shapePath
    ensures forall j :: 0 <= j < |answers| ==> answers[j] == Geocoded(SortedPath(shapePath, |answers|)[j])
  {
    AllPositionsGeocoded(shapePath, answers, order);
  }

  /** A failure among the completions is a failure among the locations sent, and back. */
  lemma FailureAmongStarted(answers: seq<Geocode>, order: seq<nat>, n: nat)
    requires n <= |answers| && CompletionOrder(order, n)
    ensures (exists i :: 0 <= i < |order| && answers[order[i]].Failed?)
        <==> (exists j :: 0 <= j < n && answers[j].Failed?)
  {
    if exists j :: 0 <= j < n && answers[j].Failed? {
      var j :| 0 <= j < n && answers[j].Failed?;
      var i := IndexOf(order, j);
    }
  }

  /** The state of the path promise after the first n completions, `size` of which stored
      coordinates: it has a failure exactly when the promise is rejected, with the reason of a
      failed completion, and it is fulfilled, in index order, exactly when every location has
      succeeded. */
  ghost predicate Status(items: seq<string>, answers: seq<Geocode>, order: seq<nat>, n: nat,
                         size: nat, r: Promise<seq<Coordinates>>, failed: bool)
    requires n <= |order| && forall i :: 0 <= i < |order| ==> order[i] < |answers|
  {
    && (failed <==> exists i :: 0 <= i < n && answers[order[i]].Failed?)
    && (!failed ==> size == n)
    && (failed ==> size < n)
    && (r.Rejected? <==> failed)
    && (r.Rejected? ==> exists i :: 0 <= i < n && answers[order[i]] == Failed(r.reason))
    && (!failed ==> (r.Resolved? <==> n > 0 && size == |items|))
    && (r.Resolved? ==>
          |r.value| == |items| && |answers| == |items|
          && forall j :: 0 <= j < |items| ==> answers[j] == Geocoded(r.value[j]))
  }

  /** The order lists positions of locations only. */
  lemma OrderInRange(items: seq<string>, answers: seq<Geocode>, order: seq<nat>)
    requires |answers| == |items| && CompletionOrder(order, Started(items))
    ensures forall i :: 0 <= i < |order| ==> order[i] < |answers|
  {
  }

  /** A failed completion rejects a promise not settled yet. */
  lemma StatusFailed(items: seq<string>, answers: seq<Geocode>, order: seq<nat>, n: nat,
                     size: nat, r: Promise<seq<Coordinates>>, failed: bool)
    requires |answers| == |items| && |order| <= |items|
    requires n < |order| && forall i :: 0 <= i < |order| ==> order[i] < |answers|
    requires Status(items, answers, order, n, size, r, failed)
    requires answers[order[n]].Failed?
    ensures Status(items, answers, order, n + 1, size,
                   if r.Unsettled? then Rejected(answers[order[n]].reason) else r, true)
  {
  }

  /** A successful completion that leaves some location without coordinates, or comes after the
      promise settled, only adds to the stored coordinates. */
  lemma StatusStored(items: seq<string>, answers: seq<Geocode>, order: seq<nat>, n: nat,
                     size: nat, r: Promise<seq<Coordinates>>, failed: bool)
    requires |answers| == |items| && |order| <= |items|
    requires n < |order| && forall i :: 0 <= i < |order| ==> order[i] < |answers|
    requires Status(items, answers, order, n, size, r, failed)
    requires answers[order[n]].Geocoded? && !(size + 1 == |items| && r.Unsettled?)
    ensures Status(items, answers, order, n + 1, size + 1, r, failed)
  {
    if !failed {
      forall i | 0 <= i < n + 1
        ensures !answers[order[i]].Failed?
      {
      }
    }
  }

  /** The completion that stores the last missing coordinates is the last completion, and every
      completion was a success. */
  lemma StatusResolving(items: seq<string>, answers: seq<Geocode>, order: seq<nat>, n: nat,
                        size: nat, r: Promise<seq<Coordinates>>, failed: bool)
    requires |answers| == |items| && |order| <= |items|
    requires n < |order| && forall i :: 0 <= i < |order| ==> order[i] < |answers|
    requires Status(items, answers, order, n, size, r, failed)
    requires answers[order[n]].Geocoded? && size + 1 == |items| && r.Unsettled?
    ensures !failed && n + 1 == |order| == |items|
    ensures forall i :: 0 <= i < |order| ==> answers[order[i]].Geocoded?
  {
  }

  /** Fulfilling the promise with the coordinates in index order. */
  lemma StatusResolved(items: seq<string>, answers: seq<Geocode>, order: seq<nat>, n: nat,
                       size: nat, r: Promise<seq<Coordinates>>, path: seq<Coordinates>)
    requires |answers| == |items| && n + 1 == |order| == |items|
    requires forall i :: 0 <= i < |order| ==> order[i] < |answers|
    requires Status(items, answers, order, n, size, r, false)
    requires forall i :: 0 <= i < |order| ==> answers[order[i]].Geocoded?
    requires size + 1 == |items| && r.Unsettled?
    requires |path| == |items| && forall j :: 0 <= j < |items| ==> answers[j] == Geocoded(path[j])
    ensures Status(items, answers, order, n + 1, size + 1, Resolved(path), false)
  {
  }

  /** When every completion has happened, the promise has settled as `SettledAs` says. */
  lemma StatusDone(items: seq<string>, answers: seq<Geocode>, order: seq<nat>,
                   size: nat, r: Promise<seq<Coordinates>>, failed: bool)
    requires |answers| == |items| && CompletionOrder(order, Started(items))
    requires forall i :: 0 <= i < |order| ==> order[i] < |answers|
    requires Status(items, answers, order, |order|, size, r, failed)
    ensures SettledAs(items, answers, r)
  {
    FailureAmongStarted(answers, order, Started(items));
  }

  /** Storing the coordinates of the next completion adds one new position to `shapePath`. */
  lemma PathStep(answers: seq<Geocode>, order: seq<nat>, n: nat,
                 shapePath: map<nat, Coordinates>, next: map<nat, Coordinates>)
    requires Distinct(order) && n < |order| && order[n] < |answers| && answers[order[n]].Geocoded?
    requires PathSoFar(shapePath, answers, order, n)
    requires next == shapePath[order[n] := answers[order[n]].coords]
    ensures PathSoFar(next, answers, order, n + 1) && |next| == |shapePath| + 1
  {
    var k := order[n];
    assert k !in order[..n];
    assert order[..n + 1] == order[..n] + [k];
  }

  /** A failed completion stores nothing. */
  lemma PathSkip(answers: seq<Geocode>, order: seq<nat>, n: nat, shapePath: map<nat, Coordinates>)
    requires n < |order| && order[n] < |answers| && answers[order[n]].Failed?
    requires PathSoFar(shapePath, answers, order, n)
    ensures PathSoFar(shapePath, answers, order, n + 1)
  {
    assert order[..n + 1] == order[..n] + [order[n]];
  }

  /** The completions of the geocodings, in the order given: each success is stored under its
      location's index and the path is fulfilled, sorted by index, once every location has its
      coordinates; the first failure rejects the promise, and a promise settles only once. */
  method SettlePath(items: seq<string>, answers: seq<Geocode>, order: seq<nat>)
    returns (r: Promise<seq<Coordinates>>)
    requires |answers| == |items| && CompletionOrder(order, Started(items))
    ensures SettledAs(items, answers, r)
  {
    OrderInRange(items, answers, order);
    var shapePath: map<nat, Coordinates> := map[];
    r := Unsettled;
    ghost var failed := false;
    var n := 0;
    while n < |order|
      invariant n <= |order|
      invariant PathSoFar(shapePath, answers, order, n)
      invariant Status(items, answers, order, n, |shapePath|, r, failed)
    {
      var k := order[n];
      match answers[k] {
        case Failed(e) =>
          StatusFailed(items, answers, order, n, |shapePath|, r, failed);
          PathSkip(answers, order, n, shapePath);
          if r.Unsettled? {
            r := Rejected(e);
          }
          failed := true;
        case Geocoded(c) =>
          var next := shapePath[k := c];
          PathStep(answers, order, n, shapePath, next);
          if |next| == |items| && r.Unsettled? {
            StatusResolving(items, answers, order, n, |shapePath|, r, failed);
            SortedPathMatches(next, answers, order);
            var path := SortedPath(next, |items|);
            StatusResolved(items, answers, order, n, |shapePath|, r, path);
            r := Resolved(path);
          } else {
            StatusStored(items, answers, order, n, |shapePath|, r, failed);
          }
          shapePath := next;
      }
      n := n + 1;
    }
    StatusDone(items, answers, order, |shapePath|, r, failed);
  }

  /** `_buildPath`: None when the locations are refused (the promise is `undefined`); otherwise
      the locations sent to geocoding — those before the first empty one, whose error is
      reported — and what the path promise settles to. */
  method BuildPath(loc: Locations, minPath: nat, invalidCode: ErrorCode, answers: seq<Geocode>, order: seq<nat>)
    returns (r: Option<Promise<seq<Coordinates>>>, requested: seq<string>, reports: seq<Report>)
    requires loc.Parsed? ==> |answers| == |loc.items| && CompletionOrder(order, Started(loc.items))
    ensures r.None? <==> !ValidateLocations(loc, minPath, invalidCode).0
    ensures r.None? ==> requested == [] && reports == ValidateLocations(loc, minPath, invalidCode).1
    ensures r.Some? ==>
      && requested == loc.items[..Started(loc.items)]
      && reports == (if Started(loc.items) < |loc.items| then [Report(invalidCode, "")] else [])
      && SettledAs(loc.items, answers, r.value)
    ensures r.Some? && Started(loc.items) < |loc.items| ==> !r.value.Resolved?
  {
    var valid := ValidateLocations(loc, minPath, invalidCode);
    if !valid.0 {
      return None, [], valid.1;
    }
    var items := loc.items;
    requested, reports := [], [];
    var i := 0;
    while i < |items| && items[i] != ""
      invariant 0 <= i <= |items|
      invariant requested == items[..i]
      invariant forall j :: 0 <= j < i ==> items[j] != ""
    {
      requested := requested + [items[i]];
      i := i + 1;
    }
    if i < |items| {
      reports := [Report(invalidCode, "")];
    }
    assert i == Started(items);
    var settled := SettlePath(items, answers, order);
    r := Some(settled);
  }

  /** `providerPath`: the Google object's path, or no coordinates and an
      API_FailedGettingShapePath report when it has none. */
  function ProviderPath(p: ShapeProvider): (r: (seq<Coordinates>, seq<Report>))
    ensures p.path.Some? ==> r == (p.path.value, [])
    ensures p.path.None? ==> r == ([], [Report(API_FailedGettingShapePath, "")])
  {
    match p.path
    case Some(path) => (path, [])
    case None => ([], [Report(API_FailedGettingShapePath, "")])
  }

  class Polyshape {
    const shape: Shape
    /** `minPath`: 2 for polylines, 3 for polygons. */
    const minPath: nat
    /** `invalidShapeLocationErrorCode` of the concrete shape. */
    const invalidCode: ErrorCode

    constructor(names: EventNames, minPath: nat, invalidCode: ErrorCode)
      ensures fresh(shape) && shape.names == names && shape.Valid()
      ensures !shape.ready && shape.provider == None && shape.addedEvents == [] && shape.timer == None
      ensures this.minPath == minPath && this.invalidCode == invalidCode
    {
      shape := new Shape(names);
      this.minPath := minPath;
      this.invalidCode := invalidCode;
    }

    /** `build`: the path is built from the configured locations and handed to
        `_buildProvider`; the Google object is created with the path in the locations' order. */
    method Build(loc: Locations, answers: seq<Geocode>, order: seq<nat>, created: map<string, Value>,
                 handlers: seq<Handler>, hasClickHandlers: bool)
      returns (calls: seq<ShapeCall>, requested: seq<string>, reports: seq<Report>)
      requires loc.Parsed? ==> |answers| == |loc.items| && CompletionOrder(order, Started(loc.items))
      modifies shape
      ensures old(shape.Valid()) ==> shape.Valid()
      ensures FullyGeocoded(loc, minPath, answers) ==>
          && shape.ready && shape.provider.Some? && shape.provider.value.props == created
          && shape.provider.value.path.Some? && |shape.provider.value.path.value| == |loc.items|
          && (forall j :: 0 <= j < |loc.items| ==> answers[j] == Geocoded(shape.provider.value.path.value[j]))
          && reports == []
      ensures !ValidateLocations(loc, minPath, invalidCode).0 ==>
        calls == [] && reports == ValidateLocations(loc, minPath, invalidCode).1 && shape.ready == old(shape.ready)
      ensures (&& ValidateLocations(loc, minPath, invalidCode).0
               && (exists j :: 0 <= j < Started(loc.items) && answers[j].Failed?)) ==>
        && (exists reason :: Report(LIB_FailedGeocodingShapeLocations, reason) in reports)
        && calls == [] && shape.ready == old(shape.ready) && shape.provider == old(shape.provider)
    {
      var path;
      path, requested, reports := BuildPath(loc, minPath, invalidCode, answers, order);
      var more;
      calls, more := shape.BuildProvider(path, created, handlers, hasClickHandlers);
      reports := reports + more;
    }

    /** `changeProperty`: after the base shape's handling, a ready polyshape rebuilds its path
        for new locations (`loc` is the new value as parsed) and sets it on the Google object
        only once it is fully geocoded, reporting LIB_FailedGeocodingShapeLocations when a
        geocoding fails; fill colour and opacity are set on the Google object under their own
        names. */
    method ChangeProperty(name: string, value: Value, loc: Locations, answers: seq<Geocode>, order: seq<nat>)
      returns (calls: seq<ShapeCall>, reports: seq<Report>)
      requires shape.Valid()
      requires loc.Parsed? ==> |answers| == |loc.items| && CompletionOrder(order, Started(loc.items))
      modifies shape
      ensures shape.Valid() && shape.ready == old(shape.ready)
      ensures |calls| >= 1 && calls[0] == BaseChangeProperty(name, value)
      ensures !shape.ready ==>
        calls == [BaseChangeProperty(name, value)] && reports == [] && shape.provider == old(shape.provider)
      ensures shape.ready && ProviderKey(name).Some? ==>
        && calls == [BaseChangeProperty(name, value), SetProp(ProviderKey(name).value, value)] && reports == []
        && shape.provider == Some(old(shape.provider).value.(props := old(shape.provider).value.props[ProviderKey(name).value := value]))
      ensures shape.ready && name !in {"locations", "fillColor", "fillOpacity"} && ProviderKey(name).None? ==>
        calls == [BaseChangeProperty(name, value)] && reports == [] && shape.provider == old(shape.provider)
      ensures shape.ready && name in {"fillColor", "fillOpacity"} ==>
        && calls == [BaseChangeProperty(name, value), SetProp(name, value)] && reports == []
        && shape.provider == Some(old(shape.provider).value.(props := old(shape.provider).value.props[name := value]))
      ensures shape.ready && name == "locations" && FullyGeocoded(loc, minPath, answers) ==>
        && reports == []
        && shape.provider.Some? && shape.provider.value.props == old(shape.provider).value.props
        && shape.provider.value.path.Some?
        && calls == [BaseChangeProperty(name, value), SetPath(shape.provider.value.path.value)]
        && |shape.provider.value.path.value| == |loc.items|
        && forall j :: 0 <= j < |loc.items| ==> answers[j] == Geocoded(shape.provider.value.path.value[j])
      ensures shape.ready && name == "locations" && !FullyGeocoded(loc, minPath, answers) ==>
        calls == [BaseChangeProperty(name, value)] && shape.provider == old(shape.provider)
      ensures shape.ready && name == "locations" && !ValidateLocations(loc, minPath, invalidCode).0 ==>
        reports == [Report(invalidCode, "")]
      ensures (&& shape.ready && name == "locations" && ValidateLocations(loc, minPath, invalidCode).0
               && (exists j :: 0 <= j < Started(loc.items) && answers[j].Failed?)) ==>
          exists reason :: Report(LIB_FailedGeocodingShapeLocations, reason) in reports
    {
      calls := shape.ChangeProperty(name, value);
      reports := [];
      if shape.ready {
        if name == "locations" {
          var path, requested, built := BuildPath(loc, minPath, invalidCode, answers, order);
          reports := built;
          if path.Some? {
            match path.value
            case Resolved(p) =>
              shape.SetProviderPath(p);
              calls := calls + [SetPath(p)];
            case Rejected(reason) =>
              reports := reports + [Report(LIB_FailedGeocodingShapeLocations, reason)];
            case Unsettled =>
          }
        } else if name in {"fillColor", "fillOpacity"} {
          shape.SetProviderProp(name, value);
          calls := calls + [SetProp(name, value)];
        }
      }
    }
  }

  /** Changing the locations of a ready polyline to fully geocoded ones makes `providerPath`
      return the new coordinates in the locations' order, whatever order geocoding finished in. */
  method RelocateThenReadPath(p: Polyshape, items: seq<string>, answers: seq<Geocode>, order: seq<nat>)
    returns (path: seq<Coordinates>, reports: seq<Report>)
    requires p.shape.Valid() && p.shape.ready
    requires |items| >= p.minPath && |items| > 0 && "" !in items
    requires |answers| == |items| && forall j :: 0 <= j < |items| ==> answers[j].Geocoded?
    requires CompletionOrder(order, |items|)
    modifies p.shape
    ensures reports == [] && |path| == |items|
    ensures forall j :: 0 <= j < |items| ==> answers[j] == Geocoded(path[j])
  {
    assert Started(items) == |items|;
    var calls, built := p.ChangeProperty("locations", Str("[...]"), Parsed(items), answers, order);
    assert calls[|calls| - 1].SetPath?;
    path, reports := ProviderPath(p.shape.provider.value).0, ProviderPath(p.shape.provider.value).1;
  }
}
