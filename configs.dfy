/** The clean-up step that every `getProviderConfig` runs on the record it has just built:
    each key whose value is `undefined` is deleted, in `Object.keys` order. */
module ConfigProjection {
  import opened Common

  /** The key is in the output exactly when the source field is defined, and then carries it. */
  predicate CarriesDefined(r: map<string, Value>, key: string, field: Value)
  {
    (key in r <==> field != Undefined) && (key in r ==> r[key] == field)
  }

  /** `Object.keys(provider).forEach((key) => provider[key] === undefined && delete provider[key])`,
      where `keys` lists the keys of `provider`. */
  method DeleteUndefined(provider: map<string, Value>, keys: seq<string>) returns (r: map<string, Value>)
    requires forall k :: k in provider <==> k in keys
    ensures forall k :: k in r <==> k in provider && provider[k] != Undefined
    ensures forall k :: k in r ==> r[k] == provider[k]
  {
    r := provider;
    var i := 0;
    while i < |keys|
      invariant 0 <= i <= |keys|
      invariant forall k :: k in r <==> k in provider && (provider[k] == Undefined ==> k !in keys[..i])
      invariant forall k :: k in r ==> r[k] == provider[k]
    {
      var key := keys[i];
      if key in r && r[key] == Undefined {
        r := r - {key};
      }
      assert keys[..i + 1] == keys[..i] + [key];
      i := i + 1;
    }
    assert keys[..i] == keys;
  }
}

/** Provider/Google/Configuration/OSMap/GoogleMapConfig.ts: the Google map settings record. */
module GoogleMapConfig {
  import opened Common
  import opened ConfigProjection

  /** The record's fields; `mapType` is the source's `type`. */
  datatype GoogleMapConfig = GoogleMapConfig(
    advancedFormat: Value, apiKey: Value, center: Value, height: Value, markerClusterer: Value,
    offset: Value, showTraffic: Value, style: Value, mapType: Value, uniqueId: Value, zoom: Value)

  /** The options handed to `google.maps.Map`: center and zoom as they are, `style` under
      `styles`, `type` under `mapTypeId`; undefined ones dropped, defined falsy ones kept. */
  method GetProviderConfig(cfg: GoogleMapConfig) returns (r: map<string, Value>)
    ensures r.Keys <= {"center", "zoom", "styles", "mapTypeId"}
    ensures forall k :: k in r ==> r[k] != Undefined
    ensures CarriesDefined(r, "center", cfg.center) && CarriesDefined(r, "zoom", cfg.zoom)
    ensures CarriesDefined(r, "styles", cfg.style) && CarriesDefined(r, "mapTypeId", cfg.mapType)
  {
    var provider := map["center" := cfg.center, "zoom" := cfg.zoom, "styles" := cfg.style, "mapTypeId" := cfg.mapType];
    r := DeleteUndefined(provider, ["center", "zoom", "styles", "mapTypeId"]);
  }
}

/** OSFramework/Configuration/OSMap/MapConfig.ts: the framework's map settings record. */
module MapConfig {
  import opened Common
  import opened ConfigProjection

  /** The record's fields; `mapType` is the source's `type`. */
  datatype MapConfig = MapConfig(
    advancedFormat: Value, apiKey: Value, center: Value, extendedClass: Value, height: Value,
    offset: Value, showTraffic: Value, staticMap: Value, style: Value, mapType: Value,
    uniqueId: Value, zoom: Value)

  /** Same projection as the Google map record: center, zoom, styles (from `style`) and
      mapTypeId (from `type`), each present exactly when defined. */
  method GetProviderConfig(cfg: MapConfig) returns (r: map<string, Value>)
    ensures r.Keys <= {"center", "zoom", "styles", "mapTypeId"}
    ensures forall k :: k in r ==> r[k] != Undefined
    ensures CarriesDefined(r, "center", cfg.center) && CarriesDefined(r, "zoom", cfg.zoom)
    ensures CarriesDefined(r, "styles", cfg.style) && CarriesDefined(r, "mapTypeId", cfg.mapType)
  {
    var provider := map["center" := cfg.center, "zoom" := cfg.zoom, "styles" := cfg.style, "mapTypeId" := cfg.mapType];
    r := DeleteUndefined(provider, ["center", "zoom", "styles", "mapTypeId"]);
  }
}

/** Provider/Google/Configuration/Marker/GoogleMarkerConfig.ts: the Google marker settings. */
module GoogleMarkerConfig {
  import opened Common
  import opened ConfigProjection

  /** The record's fields; `labelText` is the source's `label`. */
  datatype GoogleMarkerConfig = GoogleMarkerConfig(
    allowDrag: Value, iconHeight: Value, iconUrl: Value, iconWidth: Value,
    labelText: Value, location: Value, title: Value)

  /** draggable from allowDrag, icon from iconUrl, label/location/title copied; the icon
      size never reaches the provider. */
  method GetProviderConfig(cfg: GoogleMarkerConfig) returns (r: map<string, Value>)
    ensures r.Keys <= {"draggable", "icon", "label", "location", "title"}
    ensures forall k :: k in r ==> r[k] != Undefined
    ensures CarriesDefined(r, "draggable", cfg.allowDrag) && CarriesDefined(r, "icon", cfg.iconUrl)
    ensures CarriesDefined(r, "label", cfg.labelText) && CarriesDefined(r, "location", cfg.location)
    ensures CarriesDefined(r, "title", cfg.title)
  {
    var provider := map["draggable" := cfg.allowDrag, "icon" := cfg.iconUrl, "label" := cfg.labelText,
                        "location" := cfg.location, "title" := cfg.title];
    r := DeleteUndefined(provider, ["draggable", "icon", "label", "location", "title"]);
  }
}

/** Provider/Google/Configuration/DrawingTools/DrawConfig.ts: the settings of a Google drawing tool. */
module DrawConfig {
  import opened Common
  import opened ConfigProjection

  datatype DrawConfig = DrawConfig(allowDrag: Value, uniqueId: Value)

  /** Always clickable; draggable only when allowDrag is defined. */
  method GetProviderConfig(cfg: DrawConfig) returns (r: map<string, Value>)
    ensures r.Keys <= {"clickable", "draggable"}
    ensures forall k :: k in r ==> r[k] != Undefined
    ensures "clickable" in r && r["clickable"] == Bool(true)
    ensures CarriesDefined(r, "draggable", cfg.allowDrag)
  {
    var provider := map["clickable" := Bool(true), "draggable" := cfg.allowDrag];
    r := DeleteUndefined(provider, ["clickable", "draggable"]);
  }
}

/** Provider/Leaflet/Configuration/Shape/BasicShapeConfig.ts: the settings of a Leaflet shape. */
module BasicShapeConfig {
  import opened Common
  import opened ConfigProjection

  datatype BasicShapeConfig = BasicShapeConfig(
    allowDrag: Value, allowEdit: Value, locations: Value,
    strokeColor: Value, strokeOpacity: Value, strokeWeight: Value)

  /** draggable is always true and editable always false (dragging and editing are switched by
      other means); opacity, color and weight come from the stroke fields when defined. */
  method GetProviderConfig(cfg: BasicShapeConfig) returns (r: map<string, Value>)
    ensures r.Keys <= {"draggable", "editable", "opacity", "color", "weight"}
    ensures forall k :: k in r ==> r[k] != Undefined
    ensures "draggable" in r && r["draggable"] == Bool(true)
    ensures "editable" in r && r["editable"] == Bool(false)
    ensures CarriesDefined(r, "opacity", cfg.strokeOpacity) && CarriesDefined(r, "color", cfg.strokeColor)
    ensures CarriesDefined(r, "weight", cfg.strokeWeight)
  {
    var provider := map["draggable" := Bool(true), "editable" := Bool(false), "opacity" := cfg.strokeOpacity,
                        "color" := cfg.strokeColor, "weight" := cfg.strokeWeight];
    r := DeleteUndefined(provider, ["draggable", "editable", "opacity", "color", "weight"]);
  }
}
