/** OutSystems/Maps/MapAPI/MapManager.ts: the page's registry of maps, keyed by unique id in
    creation order, with the most recently created existing map as the active one. */
module MapManager {
  import opened Common
  import FileLayerEvents

  /** The registered maps in iteration (insertion) order. */
  function Values(order: seq<string>, maps: map<string, Identity>): (r: seq<Identity>)
    requires forall k :: k in order ==> k in maps
    ensures |r| == |order|
    ensures forall i :: 0 <= i < |order| ==> r[i] == maps[order[i]]
  {
    if order == [] then [] else Values(order[..|order| - 1], maps) + [maps[order[|order| - 1]]]
  }

  /** What `GetMapById` finds: the map stored under the id when there is one, otherwise the
      first map in creation order that the id names (by widget id). */
  function Lookup(order: seq<string>, maps: map<string, Identity>, id: string): (r: Option<Identity>)
    requires forall k :: k in order ==> k in maps
    ensures id in maps ==> r == Some(maps[id])
    ensures id !in maps && r.None? ==> forall i :: 0 <= i < |order| ==> !maps[order[i]].EqualsToID(id)
    ensures id !in maps && r.Some? ==>
      exists i :: 0 <= i < |order| && r.value == maps[order[i]] && r.value.EqualsToID(id)
        && forall j :: 0 <= j < i ==> !maps[order[j]].EqualsToID(id)
  {
    if id in maps then Some(maps[id])
    else
      var all := Values(order, maps);
      var i := FirstMatch(all, id);
      if i == -1 then None else Some(all[i])
  }

  /** The outcome of a lookup: a missing map throws only when errors are raised. */
  function Found(found: Option<Identity>, raiseError: bool, id: string): (r: Result<Option<Identity>>)
    ensures r.Threw? <==> found.None? && raiseError
    ensures r.Threw? ==> r.error == MapNotFound(id)
    ensures r.Ok? ==> r.value == found
  {
    if found.None? && raiseError then Threw(MapNotFound(id)) else Ok(found)
  }

  /** A map found by a lookup is registered under its own unique id. */
  lemma FoundIsRegistered(order: seq<string>, maps: map<string, Identity>, id: string)
    requires forall k :: k in maps <==> k in order
    requires forall k :: k in maps ==> maps[k].uniqueId == k
    ensures var found := Lookup(order, maps, id);
      found.Some? ==> found.value.uniqueId in maps && maps[found.value.uniqueId] == found.value
  {
  }

  /** Deleting a registered key keeps the registry's shape, and the last key stays last unless
      it was the one deleted. */
  lemma DeleteKey(order: seq<string>, maps: map<string, Identity>, key: string)
    requires Distinct(order)
    requires forall k :: k in maps <==> k in order
    requires forall k :: k in maps ==> maps[k].uniqueId == k
    requires key in maps
    ensures 0 <= IndexOf(order, key)
    ensures var rest := RemoveAt(order, IndexOf(order, key));
      && Distinct(rest)
      && (forall k :: k in maps - {key} <==> k in rest)
      && (forall k :: k in maps - {key} ==> (maps - {key})[k].uniqueId == k)
      && (order[|order| - 1] != key ==> rest != [] && rest[|rest| - 1] == order[|order| - 1])
  {
    var i := IndexOf(order, key);
    var rest := RemoveAt(order, i);
    RemoveAtDistinct(order, i);
    forall k
      ensures k in maps - {key} <==> k in rest
    {
      assert k in rest <==> k in order && k != key;
    }
  }

  class MapManager {
    /** `maps` (a JavaScript Map): keys in insertion order, and the table. */
    var order: seq<string>
    var maps: map<string, Identity>
    /** `activeMap`, by unique id. */
    var active: Option<string>
    /** Handlers waiting for maps that do not exist yet. */
    const pending: FileLayerEvents.PendingEvents

    ghost predicate Valid()
      reads this, pending
    {
      && Distinct(order)
      && (forall k :: k in maps <==> k in order)
      && (forall k :: k in maps ==> maps[k].uniqueId == k)
      && active == (if order == [] then None else Some(order[|order| - 1]))
      && pending.Valid()
    }

    constructor()
      ensures Valid() && order == [] && maps == map[] && active == None
      ensures pending.keys == [] && fresh(pending)
    {
      order := [];
      maps := map[];
      active := None;
      pending := new FileLayerEvents.PendingEvents();
    }

    /** `GetMapById`: the loop over `maps.values()` runs only when the id is not a key. */
    method GetMapById(mapId: string, raiseError: bool) returns (r: Result<Option<Identity>>)
      requires Valid()
      ensures r == Found(Lookup(order, maps, mapId), raiseError, mapId)
    {
      var found: Option<Identity> := None;
      if mapId in maps {
        found := Some(maps[mapId]);
      } else {
        ghost var expected := Lookup(order, maps, mapId);
        var i := 0;
        while i < |order|
          invariant 0 <= i <= |order|
          invariant found.None? ==> forall j :: 0 <= j < i ==> !maps[order[j]].EqualsToID(mapId)
          invariant found.Some? ==> found == expected
        {
          var p := maps[order[i]];
          if p.EqualsToID(mapId) {
            found := Some(p);
            var first := FirstMatch(Values(order, maps), mapId);
            assert first == i;
            break;
          }
          i := i + 1;
        }
        if found.None? {
          assert FirstMatch(Values(order, maps), mapId) == -1;
        }
      }
      if found.None? && raiseError {
        r := Threw(MapNotFound(mapId));
      } else {
        r := Ok(found);
      }
    }

    /** `GetActiveMap`: the most recently created map that still exists, if any. */
    function GetActiveMap(): (r: Option<Identity>)
      requires Valid()
      reads this, pending
      ensures r.None? <==> maps == map[]
      ensures r.Some? ==> r.value == maps[order[|order| - 1]]
    {
      if active.None? then None else Some(maps[active.value])
    }

    /** `CreateMap`: an id already registered throws and nothing changes, pending handlers
        included; otherwise the new map is stored under its id, becomes the active map, and only
        then are its pending handlers attached and their keys dropped, the other entities' pending
        handlers staying as they were. */
    method CreateMap(mapId: string) returns (r: Result<seq<EntityCall>>)
      requires Valid()
      modifies this, pending
      ensures Valid()
      ensures old(mapId in maps) ==>
        && r == Threw(MapAlreadyRegistered(mapId))
        && order == old(order) && maps == old(maps) && active == old(active)
        && pending.keys == old(pending.keys) && pending.table == old(pending.table)
      ensures old(mapId !in maps) ==>
        && maps == old(maps)[mapId := Identity(mapId, None)]
        && order == old(order) + [mapId]
        && active == Some(mapId)
        && r == Ok(FileLayerEvents.FlushCalls(old(pending.keys), old(pending.table), Identity(mapId, None)))
        && pending.keys == FileLayerEvents.Unmatched(old(pending.keys), Identity(mapId, None))
        && pending.table == map k | k in old(pending.table) && !Identity(mapId, None).EqualsToID(k) :: old(pending.table)[k]
    {
      if mapId in maps {
        r := Threw(MapAlreadyRegistered(mapId));
        return;
      }
      var created := Identity(mapId, None);
      maps := maps[mapId := created];
      order := order + [mapId];
      active := Some(mapId);
      var calls := pending.CheckPendingEvents(created);
      r := Ok(calls);
    }

    /** `ChangeProperty`: the lookup error for an unknown id, otherwise one delegation to the map. */
    method ChangeProperty(mapId: string, propertyName: string, propertyValue: Value) returns (r: Result<seq<EntityCall>>)
      requires Valid()
      ensures var found := Lookup(order, maps, mapId);
        && (r.Threw? <==> found.None?)
        && (r.Threw? ==> r.error == MapNotFound(mapId))
        && (r.Ok? ==> r.value == [EntityCall.ChangeProperty(found.value.uniqueId, propertyName, propertyValue)])
    {
      var lookup := GetMapById(mapId, true);
      if lookup.Threw? {
        return Threw(lookup.error);
      }
      r := Ok([EntityCall.ChangeProperty(lookup.value.value.uniqueId, propertyName, propertyValue)]);
    }

    /** `GetAllMarkers`: the map whose marker list is returned (the list itself belongs to the
        map class, which is not part of this model). */
    method GetAllMarkers(mapId: string) returns (r: Result<Identity>)
      requires Valid()
      ensures var found := Lookup(order, maps, mapId);
        && (r.Threw? <==> found.None?)
        && (r.Threw? ==> r.error == MapNotFound(mapId))
        && (r.Ok? ==> r.value == found.value && r.value in maps.Values)
    {
      var lookup := GetMapById(mapId, true);
      if lookup.Threw? {
        return Threw(lookup.error);
      }
      r := Ok(lookup.value.value);
    }

    /** `RemoveMarkers`: the lookup error, or one `removeAllMarkers` on the map found. */
    method RemoveMarkers(mapId: string) returns (r: Result<seq<EntityCall>>)
      requires Valid()
      ensures var found := Lookup(order, maps, mapId);
        && (r.Threw? <==> found.None?)
        && (r.Threw? ==> r.error == MapNotFound(mapId))
        && (r.Ok? ==> r.value == [RemoveAllMarkers(found.value.uniqueId)])
    {
      var lookup := GetMapById(mapId, true);
      if lookup.Threw? {
        return Threw(lookup.error);
      }
      r := Ok([RemoveAllMarkers(lookup.value.value.uniqueId)]);
    }

    /** `RemoveFileLayers`: the lookup error, or one `removeAllFileLayers` on the map found. */
    method RemoveFileLayers(mapId: string) returns (r: Result<seq<EntityCall>>)
      requires Valid()
      ensures var found := Lookup(order, maps, mapId);
        && (r.Threw? <==> found.None?)
        && (r.Threw? ==> r.error == MapNotFound(mapId))
        && (r.Ok? ==> r.value == [RemoveAllFileLayers(found.value.uniqueId)])
    {
      var lookup := GetMapById(mapId, true);
      if lookup.Threw? {
        return Threw(lookup.error);
      }
      r := Ok([RemoveAllFileLayers(lookup.value.value.uniqueId)]);
    }

    /** `InitializeMap`: the lookup error before anything happens, otherwise the map is built
        and then its pending handlers are attached and their keys dropped, the other entities'
        staying as they were. `widgetAfterBuild` is the widget id the
        map's build resolves from the DOM, so handlers registered under it match the flush. */
    method InitializeMap(mapId: string, widgetAfterBuild: Option<string>) returns (r: Result<seq<EntityCall>>)
      requires Valid()
      modifies this, pending
      ensures Valid()
      ensures order == old(order) && active == old(active)
      ensures var found := old(Lookup(order, maps, mapId));
        && (r.Threw? <==> found.None?)
        && (r.Threw? ==>
              && r.error == MapNotFound(mapId) && maps == old(maps)
              && pending.keys == old(pending.keys) && pending.table == old(pending.table))
        && (r.Ok? ==>
              var built := Identity(found.value.uniqueId, widgetAfterBuild);
              && maps == old(maps)[found.value.uniqueId := built]
              && r.value == [Build(found.value.uniqueId)] + FileLayerEvents.FlushCalls(old(pending.keys), old(pending.table), built)
              && pending.keys == FileLayerEvents.Unmatched(old(pending.keys), built)
              && pending.table == map k | k in old(pending.table) && !built.EqualsToID(k) :: old(pending.table)[k])
    {
      var lookup := GetMapById(mapId, true);
      if lookup.Threw? {
        return Threw(lookup.error);
      }
      var key := lookup.value.value.uniqueId;
      var built := Identity(key, widgetAfterBuild);
      maps := maps[key := built];
      var calls := pending.CheckPendingEvents(built);
      r := Ok([Build(key)] + calls);
    }

    /** `RemoveMap`: the entry under the map's unique id is deleted, even when the map was named
        by its widget id; if it was the active map, the last remaining map in creation order
        becomes active (none if no map remains), otherwise the active map stays; then the map is
        disposed. */
    method RemoveMap(mapId: string) returns (r: Result<seq<EntityCall>>)
      requires Valid()
      modifies this
      ensures Valid()
      ensures var found := old(Lookup(order, maps, mapId));
        && (r.Threw? <==> found.None?)
        && (r.Threw? ==> r.error == MapNotFound(mapId) && maps == old(maps) && order == old(order) && active == old(active))
        && (r.Ok? ==>
              var key := found.value.uniqueId;
              && key in old(maps)
              && maps == old(maps) - {key}
              && order == RemoveAt(old(order), IndexOf(old(order), key))
              && (forall k :: k in order <==> k in old(order) && k != key)
              && (old(active) != Some(key) ==> active == old(active))
              && (old(active) == Some(key) ==> active == (if order == [] then None else Some(order[|order| - 1])))
              && r.value == [Dispose(key)])
    {
      var lookup := GetMapById(mapId, true);
      if lookup.Threw? {
        return Threw(lookup.error);
      }
      var key := lookup.value.value.uniqueId;
      FoundIsRegistered(order, maps, mapId);
      DeleteKey(order, maps, key);
      var at := IndexOf(order, key);
      maps := maps - {key};
      order := RemoveAt(order, at);
      if active == Some(key) {
        active := if order == [] then None else Some(order[|order| - 1]);
      }
      r := Ok([Dispose(key)]);
    }
  }

  /** Creating a map under a new id and removing it by that id restores the registry and the
      active map exactly. */
  method CreateThenRemove(m: MapManager, mapId: string) returns (created: Result<seq<EntityCall>>, removed: Result<seq<EntityCall>>)
    requires m.Valid() && mapId !in m.maps
    modifies m, m.pending
    ensures created.Ok? && removed == Ok([Dispose(mapId)])
    ensures m.maps == old(m.maps) && m.order == old(m.order) && m.active == old(m.active)
  {
    ghost var before, beforeMaps := m.order, m.maps;
    created := m.CreateMap(mapId);
    assert m.order == before + [mapId];
    assert Lookup(m.order, m.maps, mapId) == Some(Identity(mapId, None));
    assert IndexOf(before + [mapId], mapId) == |before|;
    assert RemoveAt(before + [mapId], |before|) == before;
    assert beforeMaps[mapId := Identity(mapId, None)] - {mapId} == beforeMaps;
    removed := m.RemoveMap(mapId);
  }
}
