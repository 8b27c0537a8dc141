/** Providers/Google/Features/Zoom.ts: the zoom feature of a Google map — a stored level, an
    autofit flag derived from it at build time and whenever the level is set, and the rule that
    refreshes the provider's zoom from them. */
module Zoom {
  import opened Common

  /** `OSFramework.Enum.OSMap.Zoom`: automatic, or a fixed level. */
  datatype ZoomLevel = Auto | Level(n: int)

  /** Calls the feature makes on its map and on the map's provider. The bounds passed to
      `fitBounds` and `panToBounds` are given by the points they were extended with. */
  datatype MapCall =
    | SetZoom(level: ZoomLevel)
    | FitBounds(points: seq<Coordinates>)
    | PanToBounds(points: seq<Coordinates>)
    | SetCurrentCenter(center: Coordinates)
    | Refresh

  /** The positions of the markers whose provider is defined, in marker order. */
  function Positions(markers: seq<Option<Coordinates>>): (r: seq<Coordinates>)
    ensures |r| <= |markers|
  {
    if markers == [] then []
    else Positions(markers[..|markers| - 1]) + (if markers[|markers| - 1].Some? then [markers[|markers| - 1].value] else [])
  }

  /** The bounds hold a point exactly when some marker with a defined provider is there. */
  lemma {:induction false} PositionsMembers(markers: seq<Option<Coordinates>>)
    ensures forall p :: p in Positions(markers) <==> Some(p) in markers
  {
    if markers != [] {
      PositionsMembers(markers[..|markers| - 1]);
      assert markers == markers[..|markers| - 1] + [markers[|markers| - 1]];
    }
  }

  /** Markers without a provider contribute nothing to the bounds. */
  lemma {:induction false} UndefinedProvidersSkipped(markers: seq<Option<Coordinates>>)
    requires forall i :: 0 <= i < |markers| ==> markers[i].None?
    ensures Positions(markers) == []
  {
    if markers != [] {
      UndefinedProvidersSkipped(markers[..|markers| - 1]);
    }
  }

  /** The three-way rule of `refreshZoom`, given whether autofit is on, the stored level, the
      markers' provider positions, the `zoomAutofit` constant and the centre the provider
      reports after fitting. */
  function RefreshRule(autofit: bool, level: ZoomLevel, markers: seq<Option<Coordinates>>, zoomAutofit: int,
                       fittedCenter: Coordinates): seq<MapCall>
  {
    if !autofit then [SetZoom(level)]
    else if |markers| <= 1 then [SetZoom(Level(zoomAutofit))]
    else
      var points := Positions(markers);
      [FitBounds(points), PanToBounds(points), SetCurrentCenter(fittedCenter)]
  }

  /** Whatever the markers, a refresh touches the provider's zoom exactly when autofit is off
      or there is at most one marker, and fits the bounds otherwise. */
  lemma RefreshRuleCases(autofit: bool, level: ZoomLevel, markers: seq<Option<Coordinates>>, zoomAutofit: int,
                         fittedCenter: Coordinates)
    ensures var calls := RefreshRule(autofit, level, markers, zoomAutofit, fittedCenter);
      && (|calls| == 1 <==> !autofit || |markers| <= 1)
      && (calls[0].SetZoom? <==> !autofit || |markers| <= 1)
      && (calls[0].FitBounds? ==> forall p :: p in calls[0].points <==> Some(p) in markers)
  {
    PositionsMembers(markers);
  }

  class Zoom {
    var level: ZoomLevel
    /** `_autofitEnabled`: undefined until the feature is built. */
    var autofit: Option<bool>

    constructor(level: ZoomLevel)
      ensures this.level == level && autofit == None
    {
      this.level := level;
      autofit := None;
    }

    /** `isAutofit`: the flag is read as JavaScript truthiness, so an unbuilt feature is not
        autofit. */
    predicate IsAutofit()
      reads this
    {
      autofit == Some(true)
    }

    /** `build`: autofit exactly when the stored level is Auto. */
    method Build()
      modifies this
      ensures level == old(level)
      ensures autofit.Some? && (IsAutofit() <==> level == Auto)
    {
      autofit := Some(level == Auto);
    }

    /** `setLevel`: the level is stored, autofit follows it, and the map is refreshed once. */
    method SetLevel(value: ZoomLevel) returns (calls: seq<MapCall>)
      modifies this
      ensures level == value
      ensures autofit.Some? && (IsAutofit() <==> value == Auto)
      ensures calls == [Refresh]
    {
      level := value;
      autofit := Some(value == Auto);
      calls := [Refresh];
    }

    /** `refreshZoom`, for the map whose zoom feature this is: without autofit the provider's
        zoom is set to the stored level; with autofit and at most one marker to the
        `zoomAutofit` constant; with two or more, the bounds are extended with each marker
        whose provider is defined, then fitted and panned to, and the centre recorded. */
    method RefreshZoom(markers: seq<Option<Coordinates>>, zoomAutofit: int, fittedCenter: Coordinates)
      returns (calls: seq<MapCall>)
      ensures calls == RefreshRule(IsAutofit(), level, markers, zoomAutofit, fittedCenter)
    {
      if IsAutofit() {
        if |markers| <= 1 {
          calls := [SetZoom(Level(zoomAutofit))];
        } else {
          var points := [];
          var i := 0;
          while i < |markers|
            invariant 0 <= i <= |markers|
            invariant points == Positions(markers[..i])
          {
            assert markers[..i + 1][..i] == markers[..i];
            if markers[i].Some? {
              points := points + [markers[i].value];
            }
            i := i + 1;
          }
          assert markers[..i] == markers;
          calls := [FitBounds(points), PanToBounds(points), SetCurrentCenter(fittedCenter)];
        }
      } else {
        calls := [SetZoom(level)];
      }
    }
  }

  /** Setting the level to Auto on a map with two markers, one of them not yet drawn, fits the
      bounds to the drawn one only. */
  method AutoWithOneDrawnMarker(drawn: Coordinates, zoomAutofit: int, fittedCenter: Coordinates)
    returns (calls: seq<MapCall>)
    ensures calls == [FitBounds([drawn]), PanToBounds([drawn]), SetCurrentCenter(fittedCenter)]
  {
    var z := new Zoom(Level(5));
    var refresh := z.SetLevel(Auto);
    var markers := [Some(drawn), None];
    assert markers[..1] == [Some(drawn)] && [Some(drawn)][..0] == [];
    assert Positions(markers) == Positions([Some(drawn)]) == [drawn];
    calls := z.RefreshZoom(markers, zoomAutofit, fittedCenter);
  }
}
