/** OSFramework/Marker/AbstractMarker.ts: the state every marker keeps whatever its provider —
    the built flag, the widget id resolved at build time and the configuration record. */
module Marker {
  import opened Common
  import opened ErrorCodes

  /** What a marker does to the world outside its own fields. */
  datatype MarkerEffect =
    | TriggerInitialized
    | AddToClusterer
    | MapError(code: ErrorCode, message: string)

  class Marker {
    const uniqueId: string
    /** The unique id of the map the marker was created on. */
    const mapId: string
    /** `hasPopup`: false for plain markers, true for popup markers. */
    const hasPopup: bool
    var widgetId: Option<string>
    var built: bool
    var config: map<string, Value>

    constructor(mapId: string, uniqueId: string, hasPopup: bool, config: map<string, Value>)
      ensures this.mapId == mapId && this.uniqueId == uniqueId && this.hasPopup == hasPopup
      ensures this.config == config && widgetId == None
      ensures !IsReady()
    {
      this.mapId := mapId;
      this.uniqueId := uniqueId;
      this.hasPopup := hasPopup;
      this.config := config;
      widgetId := None;
      built := false;
    }

    /** `isReady` */
    predicate IsReady()
      reads this
    {
      built
    }

    /** The identity id lookups see. */
    function Ident(): (r: Identity)
      reads this
      ensures r.uniqueId == uniqueId && r.widgetId == widgetId
    {
      Identity(uniqueId, widgetId)
    }

    /** `equalsToID`: the id is the marker's unique id or its widget id; before a build has
        resolved a widget id, only the unique id matches. */
    predicate EqualsToID(id: string)
      reads this
      ensures EqualsToID(id) <==> Ident().EqualsToID(id)
      ensures widgetId == None ==> (EqualsToID(id) <==> id == uniqueId)
    {
      id == uniqueId || widgetId == Some(id)
    }

    /** `index`: the position of the first marker of the map's marker list with this unique id. */
    function Index(mapMarkers: seq<string>): (r: int)
      reads this
      ensures -1 <= r < |mapMarkers|
      ensures r == -1 <==> uniqueId !in mapMarkers
      ensures r >= 0 ==> mapMarkers[r] == uniqueId && forall j :: 0 <= j < r ==> mapMarkers[j] != uniqueId
    {
      IndexOf(mapMarkers, uniqueId)
    }

    /** `build`: a second build returns at once; the first one takes the id of the widget
        container found in the DOM (`domWidgetId`, None when the marker is not rendered). The
        ready flag is left to `FinishBuild`. */
    method Build(domWidgetId: Option<string>)
      modifies this
      ensures old(built) ==> widgetId == old(widgetId)
      ensures !old(built) ==> widgetId == domWidgetId
      ensures built == old(built) && config == old(config)
    {
      if built {
        return;
      }
      widgetId := domWidgetId;
    }

    /** `finishBuild`: ready, one Initialized event, and a place in the clusterer exactly when
        the map has one. */
    method FinishBuild(mapHasClusterer: bool) returns (effects: seq<MarkerEffect>)
      modifies this
      ensures IsReady()
      ensures effects == [TriggerInitialized] + (if mapHasClusterer then [AddToClusterer] else [])
      ensures widgetId == old(widgetId) && config == old(config)
    {
      built := true;
      effects := [TriggerInitialized];
      if mapHasClusterer {
        effects := effects + [AddToClusterer];
      }
    }

    /** `changeProperty`: a key the configuration owns is overwritten and nothing else changes;
        any other key leaves the configuration alone and raises one OnError on the map. */
    method ChangeProperty(name: string, value: Value) returns (effects: seq<MarkerEffect>)
      modifies this
      ensures name in old(config) ==> config == old(config)[name := value] && effects == []
      ensures name !in old(config) ==>
        config == old(config) && effects == [MapError(GEN_InvalidChangePropertyMarker, name)]
      ensures built == old(built) && widgetId == old(widgetId)
    {
      if name in config {
        config := config[name := value];
        effects := [];
      } else {
        effects := [MapError(GEN_InvalidChangePropertyMarker, name)];
      }
    }

    /** `dispose`: only the ready flag is cleared, so it is harmless on a marker never built. */
    method Dispose()
      modifies this
      ensures !IsReady()
      ensures widgetId == old(widgetId) && config == old(config)
    {
      built := false;
    }
  }

  /** The marker's lifecycle: constructed not ready, ready after finishBuild, a second build
      while ready keeps the widget id found first, not ready again after dispose, and a rebuild
      after dispose resolves the widget id afresh. */
  method Lifecycle(mapId: string, uniqueId: string, domWidgetId: Option<string>, later: Option<string>)
    returns (readyAfterConstruct: bool, readyAfterFinish: bool, widgetWhileBuilt: Option<string>,
             readyAfterDispose: bool, widgetAfterRebuild: Option<string>)
    ensures !readyAfterConstruct
    ensures readyAfterFinish && !readyAfterDispose
    ensures widgetWhileBuilt == domWidgetId
    ensures widgetAfterRebuild == later
  {
    var m := new Marker(mapId, uniqueId, false, map[]);
    readyAfterConstruct := m.IsReady();
    m.Build(domWidgetId);
    var effects := m.FinishBuild(false);
    readyAfterFinish := m.IsReady();
    m.Build(later);
    widgetWhileBuilt := m.widgetId;
    m.Dispose();
    readyAfterDispose := m.IsReady();
    m.Build(later);
    widgetAfterRebuild := m.widgetId;
  }
}
