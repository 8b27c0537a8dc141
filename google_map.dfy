/** GoogleProvider/Map/Map.ts: the Google map — its provider object, its features and the
    markers it holds, a property switch that routes each changeable property to the provider or
    to a feature, and the order of its teardown. */
module GoogleMap {
  import opened Common
  import Marker

  /** Where `changeProperty` sends a property. */
  datatype Route = ToProvider | ToTrafficLayer | ToStaticMap | ToOffset

  /** Calls made on the provider object, on the features and on the base class. */
  datatype MapCall =
    | SetCenter(v: Value)
    | SetZoom(v: Value)
    | SetMapTypeId(v: Value)
    | SetStyles(v: Value)
    | SetOptions(v: Value)
    | TrafficLayerSetState(v: Value)
    | StaticMapSetState(v: Value)
    | SetOffset(v: Value)
    | BaseDispose
    | DisposeFeatures

  /** The names the switch knows, and where each goes. */
  function RouteOf(name: string): Option<Route>
  {
    if name in {"center", "zoom", "mapTypeId", "styles", "advancedFormat"} then Some(ToProvider)
    else if name == "showTraffic" then Some(ToTrafficLayer)
    else if name == "staticMap" then Some(ToStaticMap)
    else if name == "offset" then Some(ToOffset)
    else None
  }

  /** The route a call belongs to, and the value it carries. */
  function CallRoute(c: MapCall): Option<Route>
  {
    match c
    case SetCenter(_) => Some(ToProvider)
    case SetZoom(_) => Some(ToProvider)
    case SetMapTypeId(_) => Some(ToProvider)
    case SetStyles(_) => Some(ToProvider)
    case SetOptions(_) => Some(ToProvider)
    case TrafficLayerSetState(_) => Some(ToTrafficLayer)
    case StaticMapSetState(_) => Some(ToStaticMap)
    case SetOffset(_) => Some(ToOffset)
    case BaseDispose => None
    case DisposeFeatures => None
  }

  class GoogleMap {
    const uniqueId: string
    /** `isReady`, as the base map keeps it. */
    var ready: bool
    /** Whether `_provider` (the `google.maps.Map`) is defined. */
    var hasProvider: bool
    /** Whether the feature builder, and with it `features`, is defined. */
    var hasFeatures: bool
    /** The markers the base map holds, in the order they were added. */
    var markers: seq<Marker.Marker>

    constructor(uniqueId: string)
      ensures this.uniqueId == uniqueId && !ready && !hasProvider && !hasFeatures && markers == []
    {
      this.uniqueId := uniqueId;
      ready := false;
      hasProvider := false;
      hasFeatures := false;
      markers := [];
    }

    /** `_createGoogleMap`: with the library loaded, the provider is created, the features are
        built and the map finishes its build; otherwise an error is thrown and nothing changes. */
    method CreateGoogleMap(libraryLoaded: bool) returns (r: Result<()>)
      modifies this
      ensures !libraryLoaded ==>
        r == Threw(LibraryNotLoaded) && ready == old(ready) && hasProvider == old(hasProvider) && hasFeatures == old(hasFeatures)
      ensures libraryLoaded ==> r == Ok(()) && ready && hasProvider && hasFeatures
      ensures markers == old(markers)
    {
      if !libraryLoaded {
        return Threw(LibraryNotLoaded);
      }
      hasProvider := true;
      hasFeatures := true;
      ready := true;
      r := Ok(());
    }

    /** `changeProperty`: each known name goes to exactly one call, carrying the value — to
        the provider, to the traffic layer's or the static map's `setState`, or to `setOffset` —
        and any other name throws. A call through a provider or features that are not defined
        yet dereferences undefined, and so does a center whose value is null or undefined
        (its `lat` is read to build the `LatLng`). The configuration is never written. */
    method ChangeProperty(name: string, value: Value) returns (r: Result<seq<MapCall>>)
      ensures RouteOf(name).None? ==> r == Threw(PropertyCannotChange(name))
      ensures RouteOf(name) == Some(ToProvider) && !hasProvider ==> r == Threw(UndefinedDereference)
      ensures name == "center" && (value == Null || value == Undefined) ==> r == Threw(UndefinedDereference)
      ensures RouteOf(name).Some? && RouteOf(name) != Some(ToProvider) && !hasFeatures ==> r == Threw(UndefinedDereference)
      ensures r.Ok? ==> |r.value| == 1 && CallRoute(r.value[0]) == RouteOf(name) && r.value[0].v == value
      ensures r.Threw? ==>
        || RouteOf(name).None?
        || (RouteOf(name) == Some(ToProvider) && !hasProvider)
        || (RouteOf(name).Some? && RouteOf(name) != Some(ToProvider) && !hasFeatures)
        || (name == "center" && (value == Null || value == Undefined))
      ensures name == "center" && r.Ok? ==> r.value == [SetCenter(value)]
      ensures name == "zoom" && r.Ok? ==> r.value == [SetZoom(value)]
      ensures name == "mapTypeId" && r.Ok? ==> r.value == [SetMapTypeId(value)]
      ensures name == "styles" && r.Ok? ==> r.value == [SetStyles(value)]
      ensures name == "advancedFormat" && r.Ok? ==> r.value == [SetOptions(value)]
    {
      var route := RouteOf(name);
      if route.None? {
        return Threw(PropertyCannotChange(name));
      }
      if route.value == ToProvider {
        if !hasProvider {
          return Threw(UndefinedDereference);
        }
        if name == "center" {
          if value == Null || value == Undefined {
            return Threw(UndefinedDereference);
          }
          r := Ok([SetCenter(value)]);
        } else if name == "zoom" {
          r := Ok([SetZoom(value)]);
        } else if name == "mapTypeId" {
          r := Ok([SetMapTypeId(value)]);
        } else if name == "styles" {
          r := Ok([SetStyles(value)]);
        } else {
          r := Ok([SetOptions(value)]);
        }
      } else {
        if !hasFeatures {
          return Threw(UndefinedDereference);
        }
        match route.value {
          case ToTrafficLayer => r := Ok([TrafficLayerSetState(value)]);
          case ToStaticMap => r := Ok([StaticMapSetState(value)]);
          case ToOffset => r := Ok([SetOffset(value)]);
        }
      }
    }

    /** `changeMarkerProperty`: `found` is what the base map's `getMarker` returns for the id.
        An unknown marker is only logged; otherwise the marker applies the change itself. */
    method ChangeMarkerProperty(found: Option<Marker.Marker>, name: string, value: Value)
      returns (effects: seq<Marker.MarkerEffect>)
      modifies if found.Some? then {found.value} else {}
      ensures found.None? ==> effects == []
      ensures found.Some? ==>
        var m := found.value;
        && (name in old(m.config) ==> m.config == old(m.config)[name := value] && effects == [])
        && (name !in old(m.config) ==> m.config == old(m.config) && |effects| == 1 && effects[0].MapError?)
    {
      if found.None? {
        return [];
      }
      effects := found.value.ChangeProperty(name, value);
    }

    /** `addMarker`: the base map takes the marker; it is built at once only when the map is
        ready (`domWidgetId` is what the marker's build finds in the DOM). The same marker is
        returned. */
    method AddMarker(m: Marker.Marker, domWidgetId: Option<string>) returns (r: Marker.Marker)
      modifies this, m
      ensures r == m && markers == old(markers) + [m]
      ensures ready == old(ready) && hasProvider == old(hasProvider) && hasFeatures == old(hasFeatures)
      ensures old(ready) && !old(m.built) ==> m.widgetId == domWidgetId
      ensures !old(ready) ==> m.widgetId == old(m.widgetId)
      ensures m.built == old(m.built) && m.config == old(m.config)
    {
      markers := markers + [m];
      if ready {
        m.Build(domWidgetId);
      }
      r := m;
    }

    /** `dispose`: the base dispose first (which clears `isReady`), then the features, then the
        provider is dropped. A map whose features were never built throws at the second step and
        keeps its provider. */
    method Dispose() returns (r: Result<seq<MapCall>>)
      modifies this
      ensures old(hasFeatures) ==> r == Ok([BaseDispose, DisposeFeatures]) && !hasProvider
      ensures !old(hasFeatures) ==> r == Threw(UndefinedDereference) && hasProvider == old(hasProvider)
      ensures hasFeatures == old(hasFeatures) && markers == old(markers) && !ready
    {
      ready := false;
      if !hasFeatures {
        return Threw(UndefinedDereference);
      }
      hasProvider := false;
      r := Ok([BaseDispose, DisposeFeatures]);
    }
  }

  /** A map built with the library loaded accepts every known property, and a later dispose
      tears down in order. */
  method BuildChangeDispose(name: string, value: Value) returns (changed: Result<seq<MapCall>>, disposed: Result<seq<MapCall>>)
    requires RouteOf(name).Some?
    ensures changed.Ok? <==> !(name == "center" && (value == Null || value == Undefined))
    ensures changed.Ok? ==> |changed.value| == 1 && CallRoute(changed.value[0]) == RouteOf(name)
    ensures disposed == Ok([BaseDispose, DisposeFeatures])
  {
    var m := new GoogleMap("map1");
    var built := m.CreateGoogleMap(true);
    changed := m.ChangeProperty(name, value);
    disposed := m.Dispose();
  }
}
