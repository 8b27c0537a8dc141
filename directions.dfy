/** Providers/Google/Features/Directions.ts: the directions feature of a Google map — an enabled
    flag, a renderer drawn on the map exactly while the feature is enabled, and the totals read
    off the first route of the directions the renderer holds. */
module Directions {
  import opened Common
  import opened ErrorCodes

  /** `{location, stopover}`: one intermediate stop of a route request. */
  datatype Waypoint = Waypoint(location: string, stopover: bool)

  /** One leg of the first route, as the directions service returns it. */
  datatype Leg = Leg(start: Coordinates, end: Coordinates, distance: int, duration: int)

  /** `DirectionLegs`: what `getLegsFromDirection` reports for a leg. */
  datatype DirectionLeg = DirectionLeg(origin: Coordinates, destination: Coordinates, distance: int, duration: int)

  /** `ReturnMessage`: success, or an error code with an optional message. */
  datatype ReturnMessage = Success | Failed(code: ErrorCode, message: Option<string>)

  /** How the directions service answers a route request: a route whose first alternative has
      these legs, or a rejection with its reason. */
  datatype RouteAnswer = Routed(legs: seq<Leg>) | Rejected(reason: string)

  /** The SDK renderer: whether it is drawn on the map, and the legs of the first route of the
      directions it was last given. */
  datatype Renderer = Renderer(onMap: bool, shown: Option<seq<Leg>>)

  /** `_waypointsCleanup`: every location becomes a stopover, in the same order. */
  function WaypointsCleanup(locations: seq<string>): (r: seq<Waypoint>)
    ensures |r| == |locations|
    ensures forall i :: 0 <= i < |r| ==> r[i].stopover
  {
    if locations == [] then []
    else WaypointsCleanup(locations[..|locations| - 1]) + [Waypoint(locations[|locations| - 1], true)]
  }

  function Locations(ws: seq<Waypoint>): seq<string>
  {
    if ws == [] then [] else Locations(ws[..|ws| - 1]) + [ws[|ws| - 1].location]
  }

  /** The request carries the given locations unchanged and in order. */
  lemma {:induction false} CleanupKeepsLocations(locations: seq<string>)
    ensures Locations(WaypointsCleanup(locations)) == locations
  {
    if locations != [] {
      var init := locations[..|locations| - 1];
      CleanupKeepsLocations(init);
      assert WaypointsCleanup(locations)[..|locations| - 1] == WaypointsCleanup(init);
      assert locations == init + [locations[|locations| - 1]];
    }
  }

  /** The reference sum of a list of numbers. */
  function Sum(xs: seq<int>): int
  {
    if xs == [] then 0 else xs[0] + Sum(xs[1..])
  }

  function Distances(legs: seq<Leg>): (r: seq<int>)
    ensures |r| == |legs| && forall i :: 0 <= i < |r| ==> r[i] == legs[i].distance
  {
    if legs == [] then [] else [legs[0].distance] + Distances(legs[1..])
  }

  function Durations(legs: seq<Leg>): (r: seq<int>)
    ensures |r| == |legs| && forall i :: 0 <= i < |r| ==> r[i] == legs[i].duration
  {
    if legs == [] then [] else [legs[0].duration] + Durations(legs[1..])
  }

  /** The `reduce((acc, curr) => acc + curr.distance.value, acc)` fold, left to right. */
  function FoldDistance(acc: int, legs: seq<Leg>): int
    decreases legs
  {
    if legs == [] then acc else FoldDistance(acc + legs[0].distance, legs[1..])
  }

  /** The same fold over `duration.value`. */
  function FoldDuration(acc: int, legs: seq<Leg>): int
    decreases legs
  {
    if legs == [] then acc else FoldDuration(acc + legs[0].duration, legs[1..])
  }

  lemma {:induction false} FoldDistanceIsSum(acc: int, legs: seq<Leg>)
    decreases legs
    ensures FoldDistance(acc, legs) == acc + Sum(Distances(legs))
  {
    if legs != [] {
      FoldDistanceIsSum(acc + legs[0].distance, legs[1..]);
    }
  }

  lemma {:induction false} FoldDurationIsSum(acc: int, legs: seq<Leg>)
    decreases legs
    ensures FoldDuration(acc, legs) == acc + Sum(Durations(legs))
  {
    if legs != [] {
      FoldDurationIsSum(acc + legs[0].duration, legs[1..]);
    }
  }

  /** The legs reduce: one entry per leg, in order, with the leg's end points, distance and
      duration. */
  function LegsOf(legs: seq<Leg>): (r: seq<DirectionLeg>)
    ensures |r| == |legs|
    ensures forall i :: 0 <= i < |r| ==>
      r[i] == DirectionLeg(legs[i].start, legs[i].end, legs[i].distance, legs[i].duration)
  {
    if legs == [] then []
    else LegsOf(legs[..|legs| - 1]) + [DirectionLeg(legs[|legs| - 1].start, legs[|legs| - 1].end, legs[|legs| - 1].distance, legs[|legs| - 1].duration)]
  }

  function LegDistances(ls: seq<DirectionLeg>): seq<int>
  {
    if ls == [] then [] else [ls[0].distance] + LegDistances(ls[1..])
  }

  /** The distances of the reported legs add up to the reported total distance. */
  lemma LegsAddUpToDistance(legs: seq<Leg>)
    ensures Sum(LegDistances(LegsOf(legs))) == FoldDistance(0, legs)
  {
    FoldDistanceIsSum(0, legs);
    LegDistancesMatch(LegsOf(legs), legs);
  }

  lemma {:induction false} LegDistancesMatch(ls: seq<DirectionLeg>, legs: seq<Leg>)
    requires |ls| == |legs| && forall i :: 0 <= i < |ls| ==> ls[i].distance == legs[i].distance
    ensures LegDistances(ls) == Distances(legs)
  {
    if ls != [] {
      LegDistancesMatch(ls[1..], legs[1..]);
    }
  }

  class Directions {
    var isEnabled: bool
    /** `_directionsRenderer`: None before build and after dispose. */
    var renderer: Option<Renderer>
    /** Whether `_directionsService` is defined; build and dispose set it with the renderer. */
    var hasService: bool

    predicate Valid()
      reads this
    {
      hasService <==> renderer.Some?
    }

    /** A new feature is disabled and has neither renderer nor service. */
    constructor()
      ensures Valid() && !isEnabled && renderer == None && !hasService
    {
      isEnabled := false;
      renderer := None;
      hasService := false;
    }

    /** `build`: a fresh renderer and service; the renderer is put on the map and then
        `setState` with the current flag, so the flag survives the build. */
    method Build()
      modifies this
      ensures Valid()
      ensures isEnabled == old(isEnabled)
      ensures renderer == Some(Renderer(isEnabled, None)) && hasService
    {
      renderer := Some(Renderer(true, None));
      hasService := true;
      var r := SetState(isEnabled);
    }

    /** `setState`: the flag takes the value and the renderer is on the map exactly when it is
        true; without a renderer the call dereferences undefined. */
    method SetState(value: bool) returns (r: Result<()>)
      modifies this
      ensures hasService == old(hasService)
      ensures old(renderer).None? ==> r == Threw(UndefinedDereference) && renderer == old(renderer) && isEnabled == old(isEnabled)
      ensures old(renderer).Some? ==>
        && r == Ok(())
        && isEnabled == value
        && renderer == Some(old(renderer).value.(onMap := value))
    {
      if renderer.None? {
        return Threw(UndefinedDereference);
      }
      renderer := Some(renderer.value.(onMap := value));
      isEnabled := value;
      r := Ok(());
    }

    /** `dispose`: disables the feature, then drops renderer and service. */
    method Dispose() returns (r: Result<()>)
      requires Valid()
      modifies this
      ensures Valid()
      ensures old(renderer).None? ==> r.Threw? && renderer == None && isEnabled == old(isEnabled)
      ensures old(renderer).Some? ==> r.Ok? && !isEnabled && renderer == None && !hasService
    {
      r := SetState(false);
      if r.Threw? {
        return;
      }
      hasService := false;
      renderer := None;
    }

    /** `setPlugin`: the Google directions need no plugin, so whatever the provider name and key,
        the call reports GEN_NoPluginDirectionsNeeded on the map, answers nothing and leaves
        the feature as it was. */
    method SetPlugin(providerName: string, apiKey: string) returns (answer: Option<ReturnMessage>, reports: seq<Report>)
      ensures answer.None?
      ensures |reports| == 1 && reports[0].code == GEN_NoPluginDirectionsNeeded
    {
      answer := None;
      reports := [Report(GEN_NoPluginDirectionsNeeded, "")];
    }

    /** `removeRoute`: always disables the feature; the answer is success exactly when the
        renderer then reports no map, otherwise API_FailedRemoveDirections. The renderer here
        reports the map it was last given, so once built the answer is always success. */
    method RemoveRoute() returns (r: Result<ReturnMessage>)
      modifies this
      ensures old(renderer).None? ==> r == Threw(UndefinedDereference)
      ensures old(renderer).Some? ==>
        && !isEnabled && renderer == Some(old(renderer).value.(onMap := false))
        && r == Ok(Success)
      ensures hasService == old(hasService)
    {
      var s := SetState(false);
      if s.Threw? {
        return Threw(s.error);
      }
      if !renderer.value.onMap {
        r := Ok(Success);
      } else {
        r := Ok(Failed(API_FailedRemoveDirections, None));
      }
    }

    /** `setRoute`: the request's waypoints are the cleaned-up locations. A route is handed to
        the renderer and enables the feature; a rejection disables it and reports
        LIB_FailedSetDirections with the reason. Without a service the call dereferences
        undefined. */
    method SetRoute(waypoints: seq<string>, answer: RouteAnswer) returns (r: Result<ReturnMessage>, request: seq<Waypoint>)
      requires Valid()
      modifies this
      ensures Valid() && hasService == old(hasService)
      ensures request == WaypointsCleanup(waypoints)
      ensures !old(hasService) ==> r == Threw(UndefinedDereference) && renderer == old(renderer) && isEnabled == old(isEnabled)
      ensures old(hasService) && answer.Routed? ==>
        && r == Ok(Success) && isEnabled
        && renderer == Some(Renderer(true, Some(answer.legs)))
      ensures old(hasService) && answer.Rejected? ==>
        && r == Ok(Failed(LIB_FailedSetDirections, Some(answer.reason))) && !isEnabled
        && renderer == Some(old(renderer).value.(onMap := false))
    {
      request := WaypointsCleanup(waypoints);
      if !hasService {
        return Threw(UndefinedDereference), request;
      }
      match answer {
        case Routed(legs) =>
          renderer := Some(renderer.value.(shown := Some(legs)));
          var s := SetState(true);
          r := Ok(Success);
        case Rejected(reason) =>
          var s := SetState(false);
          r := Ok(Failed(LIB_FailedSetDirections, Some(reason)));
      }
    }

    /** `getTotalDistanceFromDirection`: 0 while disabled; otherwise the sum of the distances of
        the first route's legs, and a rejection when the renderer holds no directions. */
    function TotalDistance(): (r: Result<int>)
      reads this
      ensures !isEnabled ==> r == Ok(0)
      ensures isEnabled && renderer.Some? && renderer.value.shown.Some? ==>
        r == Ok(Sum(Distances(renderer.value.shown.value)))
      ensures isEnabled && (renderer.None? || renderer.value.shown.None?) ==> r == Threw(UndefinedDereference)
    {
      if !isEnabled then Ok(0)
      else if renderer.None? || renderer.value.shown.None? then Threw(UndefinedDereference)
      else
        FoldDistanceIsSum(0, renderer.value.shown.value);
        Ok(FoldDistance(0, renderer.value.shown.value))
    }

    /** `getTotalDurationFromDirection`, the same over the durations. */
    function TotalDuration(): (r: Result<int>)
      reads this
      ensures !isEnabled ==> r == Ok(0)
      ensures isEnabled && renderer.Some? && renderer.value.shown.Some? ==>
        r == Ok(Sum(Durations(renderer.value.shown.value)))
      ensures isEnabled && (renderer.None? || renderer.value.shown.None?) ==> r == Threw(UndefinedDereference)
    {
      if !isEnabled then Ok(0)
      else if renderer.None? || renderer.value.shown.None? then Threw(UndefinedDereference)
      else
        FoldDurationIsSum(0, renderer.value.shown.value);
        Ok(FoldDuration(0, renderer.value.shown.value))
    }

    /** `getLegsFromDirection`: [] while disabled; otherwise one entry per leg of the first
        route, in order. */
    function LegsFromDirection(): (r: Result<seq<DirectionLeg>>)
      reads this
      ensures !isEnabled ==> r == Ok([])
      ensures isEnabled && renderer.Some? && renderer.value.shown.Some? ==>
        var legs := renderer.value.shown.value;
        && r.Ok? && |r.value| == |legs|
        && forall i :: 0 <= i < |legs| ==>
             r.value[i] == DirectionLeg(legs[i].start, legs[i].end, legs[i].distance, legs[i].duration)
      ensures isEnabled && (renderer.None? || renderer.value.shown.None?) ==> r == Threw(UndefinedDereference)
    {
      if !isEnabled then Ok([])
      else if renderer.None? || renderer.value.shown.None? then Threw(UndefinedDereference)
      else Ok(LegsOf(renderer.value.shown.value))
    }
  }

  /** A built feature given a route reports that route's legs and totals; removing the route
      then brings the totals back to 0. */
  method RouteThenRemove(legs: seq<Leg>, waypoints: seq<string>)
    returns (distance: Result<int>, reported: Result<seq<DirectionLeg>>, removed: Result<ReturnMessage>, after: Result<int>)
    ensures distance == Ok(Sum(Distances(legs)))
    ensures reported == Ok(LegsOf(legs))
    ensures removed == Ok(Success) && after == Ok(0)
  {
    var d := new Directions();
    d.Build();
    var r, request := d.SetRoute(waypoints, Routed(legs));
    distance := d.TotalDistance();
    reported := d.LegsFromDirection();
    removed := d.RemoveRoute();
    after := d.TotalDistance();
  }
}
