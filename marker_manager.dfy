/** OutSystems/Maps/MapAPI/MarkerManager.ts: the page's markers in creation order, plus the
    table from the id each marker was created under to the unique id of its map. */
module MarkerManager {
  import opened Common
  import Marker
  import MapManager
  import FileLayerEvents

  /** The identities id lookups see, marker by marker. */
  function Idents(ms: seq<Marker.Marker>): (r: seq<Identity>)
    reads ms
    ensures |r| == |ms|
    ensures forall i :: 0 <= i < |ms| ==> r[i] == ms[i].Ident()
  {
    if ms == [] then [] else Idents(ms[..|ms| - 1]) + [ms[|ms| - 1].Ident()]
  }

  class MarkerManager {
    /** `markerMap`: marker id -> unique id of its map. */
    var markerMap: map<string, string>
    /** `markerArr` */
    var markerArr: seq<Marker.Marker>
    /** Handlers waiting for markers that do not exist yet. */
    const pending: FileLayerEvents.PendingEvents

    ghost predicate Valid()
      reads this, pending
    {
      pending.Valid()
    }

    constructor()
      ensures Valid() && markerMap == map[] && markerArr == [] && fresh(pending)
    {
      markerMap := map[];
      markerArr := [];
      pending := new FileLayerEvents.PendingEvents();
    }

    /** The position of the first marker, in creation order, that answers to the id, or -1. */
    function Position(markerId: string): (r: int)
      reads this, markerArr
      ensures -1 <= r < |markerArr|
    {
      FirstMatch(Idents(markerArr), markerId)
    }

    /** `findIndex((p) => p && p.equalsToID(markerId))` over `markerArr`. */
    method IndexById(markerId: string) returns (i: int)
      ensures i == Position(markerId)
      ensures -1 <= i < |markerArr|
    {
      i := 0;
      while i < |markerArr|
        invariant 0 <= i <= |markerArr|
        invariant forall j :: 0 <= j < i ==> !markerArr[j].EqualsToID(markerId)
      {
        if markerArr[i].EqualsToID(markerId) {
          assert FirstMatch(Idents(markerArr), markerId) == i;
          return;
        }
        i := i + 1;
      }
      assert FirstMatch(Idents(markerArr), markerId) == -1;
      i := -1;
    }

    /** `GetMarkerById`: the first marker in creation order that the id names (by unique id or
        widget id); with none, an error when errors are raised and nothing otherwise. */
    method GetMarkerById(markerId: string, raiseError: bool) returns (r: Result<Option<Marker.Marker>>)
      ensures var i := Position(markerId);
        && (i >= 0 ==> r == Ok(Some(markerArr[i])))
        && (i == -1 && raiseError ==> r == Threw(MarkerNotFound(markerId)))
        && (i == -1 && !raiseError ==> r == Ok(None))
    {
      var i := IndexById(markerId);
      if i >= 0 {
        r := Ok(Some(markerArr[i]));
      } else if raiseError {
        r := Threw(MarkerNotFound(markerId));
      } else {
        r := Ok(None);
      }
    }

    /** `GetMapByMarkerId`: through the marker table when the id is a key there (without raising),
        otherwise through the map enclosing the marker's element in the DOM (`domMapId`, raising
        when that map is unknown), otherwise nothing. */
    method GetMapByMarkerId(maps: MapManager.MapManager, markerId: string, domMapId: Option<string>)
      returns (r: Result<Option<Identity>>)
      requires maps.Valid()
      ensures markerId in markerMap ==>
        r == Ok(MapManager.Lookup(maps.order, maps.maps, markerMap[markerId]))
      ensures markerId !in markerMap && domMapId.Some? ==>
        r == MapManager.Found(MapManager.Lookup(maps.order, maps.maps, domMapId.value), true, domMapId.value)
      ensures markerId !in markerMap && domMapId.None? ==> r == Ok(None)
    {
      if markerId in markerMap {
        r := maps.GetMapById(markerMap[markerId], false);
      } else if domMapId.Some? {
        r := maps.GetMapById(domMapId.value, true);
      } else {
        r := Ok(None);
      }
    }

    /** `CreateMarker`: the map is looked up (raising); a map that already has the marker id
        throws and nothing changes; otherwise exactly one new marker is appended, its id is
        recorded against the map's unique id, and it is handed to the map. */
    method CreateMarker(maps: MapManager.MapManager, mapId: string, markerId: string,
                        mapHasMarker: bool, config: map<string, Value>)
      returns (r: Result<Marker.Marker>, calls: seq<EntityCall>)
      requires maps.Valid()
      modifies this
      ensures var found := MapManager.Lookup(maps.order, maps.maps, mapId);
        && (found.None? ==> r == Threw(MapNotFound(mapId)))
        && (found.Some? && mapHasMarker ==> r == Threw(MarkerAlreadyRegistered(markerId)))
        && (r.Threw? ==> calls == [] && markerArr == old(markerArr) && markerMap == old(markerMap))
        && (found.Some? && !mapHasMarker ==>
              && r.Ok? && fresh(r.value)
              && r.value.uniqueId == markerId && r.value.mapId == found.value.uniqueId
              && !r.value.hasPopup && !r.value.IsReady() && r.value.config == config
              && markerArr == old(markerArr) + [r.value]
              && markerMap == old(markerMap)[markerId := found.value.uniqueId]
              && calls == [AddMarker(found.value.uniqueId, markerId)])
    {
      calls := [];
      var lookup := maps.GetMapById(mapId, true);
      if lookup.Threw? {
        r := Threw(lookup.error);
        return;
      }
      var target := lookup.value.value;
      if mapHasMarker {
        r := Threw(MarkerAlreadyRegistered(markerId));
        return;
      }
      var created := new Marker.Marker(target.uniqueId, markerId, false, config);
      markerArr := markerArr + [created];
      markerMap := markerMap[markerId := target.uniqueId];
      calls := [AddMarker(target.uniqueId, markerId)];
      r := Ok(created);
    }

    /** `CreateMarkerByUniqueID`: as `CreateMarker`, with the map found from the marker id
        (through the marker table without raising, else through the DOM raising "not found");
        an undefined map (no table entry and no DOM element, or a table entry naming a map that
        is gone) fails on `map.hasMarker`; and only a successful creation attaches the handlers
        waiting for the new marker. `widgetAfterAdd` is the widget id the marker's `build` finds
        in the DOM when the map's `addMarker` builds it (None when the map is not ready and the
        build is deferred); the flush matches pending keys against that identity. */
    method CreateMarkerByUniqueID(maps: MapManager.MapManager, markerId: string, popup: bool,
                                  domMapId: Option<string>, mapHasMarker: bool, config: map<string, Value>,
                                  widgetAfterAdd: Option<string>)
      returns (r: Result<Marker.Marker>, calls: seq<EntityCall>)
      requires maps.Valid() && Valid()
      modifies this, pending
      ensures Valid()
      ensures r.Threw? ==>
        && calls == [] && markerArr == old(markerArr) && markerMap == old(markerMap)
        && pending.keys == old(pending.keys) && pending.table == old(pending.table)
      ensures r.Ok? ==>
        && fresh(r.value) && r.value.uniqueId == markerId && r.value.hasPopup == popup
        && r.value.widgetId == widgetAfterAdd && !r.value.IsReady()
        && markerArr == old(markerArr) + [r.value]
        && markerMap == old(markerMap)[markerId := r.value.mapId]
        && calls == [AddMarker(r.value.mapId, markerId)]
             + FileLayerEvents.FlushCalls(old(pending.keys), old(pending.table), Identity(markerId, widgetAfterAdd))
        && pending.keys == FileLayerEvents.Unmatched(old(pending.keys), Identity(markerId, widgetAfterAdd))
        && pending.table == map k | k in old(pending.table) && !Identity(markerId, widgetAfterAdd).EqualsToID(k)
                                  :: old(pending.table)[k]
      ensures var viaDom := markerId !in old(markerMap) && domMapId.Some?;
        var found := if markerId in old(markerMap) then MapManager.Lookup(maps.order, maps.maps, old(markerMap)[markerId])
                     else if viaDom then MapManager.Lookup(maps.order, maps.maps, domMapId.value)
                     else None;
        && (found.None? && viaDom ==> r == Threw(MapNotFound(domMapId.value)))
        && (found.None? && !viaDom ==> r == Threw(UndefinedDereference))
        && (found.Some? && mapHasMarker ==> r == Threw(MarkerAlreadyRegistered(markerId)))
        && (found.Some? && !mapHasMarker ==>
              r.Ok? && r.value.mapId == found.value.uniqueId && r.value.config == config)
    {
      calls := [];
      var lookup := GetMapByMarkerId(maps, markerId, domMapId);
      if lookup.Threw? {
        r := Threw(lookup.error);
        return;
      }
      if lookup.value.None? {
        r := Threw(UndefinedDereference);
        return;
      }
      var target := lookup.value.value;
      if mapHasMarker {
        r := Threw(MarkerAlreadyRegistered(markerId));
        return;
      }
      var created := new Marker.Marker(target.uniqueId, markerId, popup, config);
      created.Build(widgetAfterAdd);
      markerArr := markerArr + [created];
      markerMap := markerMap[markerId := target.uniqueId];
      var flushed := pending.CheckPendingEvents(created.Ident());
      calls := [AddMarker(target.uniqueId, markerId)] + flushed;
      r := Ok(created);
    }

    /** `RemoveMarker`: an unknown id throws before anything changes; otherwise the map drops the
        marker, the table entry under the id argument is deleted (so removing by widget id
        leaves the unique id's entry behind), and exactly the first matching marker leaves the
        array, the others keeping their order. */
    method RemoveMarker(markerId: string) returns (r: Result<seq<EntityCall>>)
      modifies this
      ensures var i := old(Position(markerId));
        && (i == -1 ==> r == Threw(MarkerNotFound(markerId)) && markerArr == old(markerArr) && markerMap == old(markerMap))
        && (i >= 0 ==>
              var removed := old(markerArr)[i];
              && r == Ok([EntityCall.RemoveMarker(removed.mapId, markerId)])
              && markerMap == old(markerMap) - {markerId}
              && markerArr == old(markerArr)[..i] + old(markerArr)[i + 1..])
    {
      ghost var before := markerArr;
      var found := GetMarkerById(markerId, true);
      if found.Threw? {
        return Threw(found.error);
      }
      var marker := found.value.value;
      var i := IndexById(markerId);
      assert marker == before[i];
      r := Ok([EntityCall.RemoveMarker(marker.mapId, markerId)]);
      markerMap, markerArr := markerMap - {markerId}, markerArr[..i] + markerArr[i + 1..];
    }

    /** `ChangeProperty`: the marker is looked up (raising) and the change is handed to its map. */
    method ChangeProperty(markerId: string, propertyName: string, propertyValue: Value) returns (r: Result<seq<EntityCall>>)
      ensures var i := Position(markerId);
        && (i == -1 ==> r == Threw(MarkerNotFound(markerId)))
        && (i >= 0 ==> r == Ok([ChangeMarkerProperty(markerArr[i].mapId, markerId, propertyName, propertyValue)]))
    {
      var found := GetMarkerById(markerId, true);
      if found.Threw? {
        return Threw(found.error);
      }
      var marker := found.value.value;
      r := Ok([ChangeMarkerProperty(marker.mapId, markerId, propertyName, propertyValue)]);
    }

    /** `OpenPopup`: a popup call only when the marker has a popup. */
    method OpenPopup(markerId: string) returns (r: Result<seq<EntityCall>>)
      ensures var i := Position(markerId);
        && (i == -1 ==> r == Threw(MarkerNotFound(markerId)))
        && (i >= 0 ==> r == Ok(if markerArr[i].hasPopup then [EntityCall.OpenPopup(markerArr[i].uniqueId)] else []))
    {
      var found := GetMarkerById(markerId, true);
      if found.Threw? {
        return Threw(found.error);
      }
      var marker := found.value.value;
      r := Ok(if marker.hasPopup then [EntityCall.OpenPopup(marker.uniqueId)] else []);
    }

    /** `ClosePopup`: a popup call only when the marker has a popup. */
    method ClosePopup(markerId: string) returns (r: Result<seq<EntityCall>>)
      ensures var i := Position(markerId);
        && (i == -1 ==> r == Threw(MarkerNotFound(markerId)))
        && (i >= 0 ==> r == Ok(if markerArr[i].hasPopup then [EntityCall.ClosePopup(markerArr[i].uniqueId)] else []))
    {
      var found := GetMarkerById(markerId, true);
      if found.Threw? {
        return Threw(found.error);
      }
      var marker := found.value.value;
      r := Ok(if marker.hasPopup then [EntityCall.ClosePopup(marker.uniqueId)] else []);
    }

    /** `RefreshPopup`: a popup call only when the marker has a popup. */
    method RefreshPopup(markerId: string) returns (r: Result<seq<EntityCall>>)
      ensures var i := Position(markerId);
        && (i == -1 ==> r == Threw(MarkerNotFound(markerId)))
        && (i >= 0 ==> r == Ok(if markerArr[i].hasPopup then [EntityCall.RefreshPopup(markerArr[i].uniqueId)] else []))
    {
      var found := GetMarkerById(markerId, true);
      if found.Threw? {
        return Threw(found.error);
      }
      var marker := found.value.value;
      r := Ok(if marker.hasPopup then [EntityCall.RefreshPopup(marker.uniqueId)] else []);
    }
  }

  /** A marker created under an id no existing marker answers to is what a lookup by that id
      then finds, and removing it by that id restores the array. */
  method CreateFindRemove(mm: MarkerManager, maps: MapManager.MapManager, mapId: string, markerId: string)
    returns (created: Result<Marker.Marker>, found: Result<Option<Marker.Marker>>)
    requires maps.Valid() && MapManager.Lookup(maps.order, maps.maps, mapId).Some?
    requires mm.Position(markerId) == -1
    modifies mm
    ensures created.Ok? && found == Ok(Some(created.value))
    ensures mm.markerArr == old(mm.markerArr)
  {
    var before := mm.markerArr;
    ghost var ids := Idents(before);
    var calls;
    created, calls := mm.CreateMarker(maps, mapId, markerId, false, map[]);
    assert Idents(mm.markerArr) == ids + [created.value.Ident()];
    FirstMatchAppend(ids, created.value.Ident(), markerId);
    found := mm.GetMarkerById(markerId, true);
    var removed := mm.RemoveMarker(markerId);
    assert (before + [created.value])[..|before|] == before;
  }
}
