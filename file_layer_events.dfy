/** MapAPI/FileLayerManager.Events.ts: handlers registered for an entity before it exists wait in
    a table keyed by the id they were registered under, and are attached when the entity appears. */
module FileLayerEvents {
  import opened Common

  /** One buffered subscription. */
  datatype Pending = Pending(event: string, cb: Callback)

  /** `addHandler` for each buffered entry, in buffered order. */
  function Attachments(target: string, entries: seq<Pending>): (r: seq<EntityCall>)
    ensures |r| == |entries|
    ensures forall i :: 0 <= i < |r| ==> r[i] == AddHandler(target, entries[i].event, entries[i].cb)
  {
    if entries == [] then []
    else Attachments(target, entries[..|entries| - 1]) + [AddHandler(target, entries[|entries| - 1].event, entries[|entries| - 1].cb)]
  }

  /** The calls a flush makes when visiting `keys` in order: for each key the entity answers
      to, its entries are attached and then the provider events refreshed once. */
  function FlushCalls(keys: seq<string>, table: map<string, seq<Pending>>, entity: Identity): seq<EntityCall>
    requires forall k :: k in keys ==> k in table
  {
    if keys == [] then []
    else
      var k := keys[|keys| - 1];
      FlushCalls(keys[..|keys| - 1], table, entity)
        + (if entity.EqualsToID(k) then Attachments(entity.uniqueId, table[k]) + [RefreshProviderEvents(entity.uniqueId)] else [])
  }

  /** The keys the entity does not answer to, in their original order. */
  function Unmatched(keys: seq<string>, entity: Identity): (r: seq<string>)
    ensures |r| <= |keys|
  {
    if keys == [] then []
    else Unmatched(keys[..|keys| - 1], entity) + (if entity.EqualsToID(keys[|keys| - 1]) then [] else [keys[|keys| - 1]])
  }

  /** The kept keys are exactly the keys the entity does not answer to. */
  lemma {:induction false} UnmatchedMembers(keys: seq<string>, entity: Identity)
    ensures forall k :: k in Unmatched(keys, entity) <==> k in keys && !entity.EqualsToID(k)
  {
    if keys != [] {
      UnmatchedMembers(keys[..|keys| - 1], entity);
      assert keys == keys[..|keys| - 1] + [keys[|keys| - 1]];
    }
  }

  function CountRefreshes(calls: seq<EntityCall>): nat
  {
    if calls == [] then 0
    else CountRefreshes(calls[..|calls| - 1]) + (if calls[|calls| - 1].RefreshProviderEvents? then 1 else 0)
  }

  lemma {:induction false} CountRefreshesAppend(a: seq<EntityCall>, b: seq<EntityCall>)
    ensures CountRefreshes(a + b) == CountRefreshes(a) + CountRefreshes(b)
  {
    if b != [] {
      assert (a + b)[..|a + b| - 1] == a + b[..|b| - 1];
      CountRefreshesAppend(a, b[..|b| - 1]);
    } else {
      assert a + b == a;
    }
  }

  lemma {:induction false} AttachmentsRefreshNothing(target: string, entries: seq<Pending>)
    ensures CountRefreshes(Attachments(target, entries)) == 0
  {
    if entries != [] {
      var prefix := Attachments(target, entries[..|entries| - 1]);
      AttachmentsRefreshNothing(target, entries[..|entries| - 1]);
      assert Attachments(target, entries)[..|entries| - 1] == prefix;
    }
  }

  /** refreshProviderEvents runs exactly once per key the entity answers to, so never when
      no key matches. */
  lemma {:induction false} RefreshOncePerMatchedKey(keys: seq<string>, table: map<string, seq<Pending>>, entity: Identity)
    requires forall k :: k in keys ==> k in table
    ensures CountRefreshes(FlushCalls(keys, table, entity)) == |keys| - |Unmatched(keys, entity)|
  {
    if keys != [] {
      var k := keys[|keys| - 1];
      var init := keys[..|keys| - 1];
      RefreshOncePerMatchedKey(init, table, entity);
      var tail := if entity.EqualsToID(k) then Attachments(entity.uniqueId, table[k]) + [RefreshProviderEvents(entity.uniqueId)] else [];
      CountRefreshesAppend(FlushCalls(init, table, entity), tail);
      if entity.EqualsToID(k) {
        AttachmentsRefreshNothing(entity.uniqueId, table[k]);
        CountRefreshesAppend(Attachments(entity.uniqueId, table[k]), [RefreshProviderEvents(entity.uniqueId)]);
        assert CountRefreshes([RefreshProviderEvents(entity.uniqueId)]) == 1 by {
          assert [RefreshProviderEvents(entity.uniqueId)][..0] == [];
        }
      } else {
        assert CountRefreshes(tail) == 0;
      }
    }
  }

  /** A flush over keys the entity does not answer to makes no call at all. */
  lemma {:induction false} FlushOfUnmatchedIsEmpty(keys: seq<string>, table: map<string, seq<Pending>>, entity: Identity)
    requires forall k :: k in keys ==> k in table && !entity.EqualsToID(k)
    ensures FlushCalls(keys, table, entity) == []
  {
    if keys != [] {
      FlushOfUnmatchedIsEmpty(keys[..|keys| - 1], table, entity);
    }
  }

  lemma {:induction false} UnmatchedDistinct(keys: seq<string>, entity: Identity)
    requires forall i, j :: 0 <= i < j < |keys| ==> keys[i] != keys[j]
    ensures var r := Unmatched(keys, entity); forall i, j :: 0 <= i < j < |r| ==> r[i] != r[j]
  {
    if keys != [] {
      UnmatchedDistinct(keys[..|keys| - 1], entity);
      var last := keys[|keys| - 1];
      assert last !in keys[..|keys| - 1];
      UnmatchedMembers(keys[..|keys| - 1], entity);
      assert last !in Unmatched(keys[..|keys| - 1], entity);
    }
  }

  /** Visiting key i extends the calls of the flush so far by that key's calls. */
  lemma FlushStep(snapshot: seq<string>, i: nat, table: map<string, seq<Pending>>, entity: Identity)
    requires i < |snapshot|
    requires forall k :: k in snapshot ==> k in table
    ensures FlushCalls(snapshot[..i + 1], table, entity) == FlushCalls(snapshot[..i], table, entity)
      + (if entity.EqualsToID(snapshot[i]) then Attachments(entity.uniqueId, table[snapshot[i]]) + [RefreshProviderEvents(entity.uniqueId)] else [])
  {
    assert snapshot[..i + 1][..i] == snapshot[..i];
  }

  /** One pass of the flush over a snapshot of the keys: the kept keys, the table left
      (every visited key the entity answers to deleted) and the calls made, in order. */
  method Flush(snapshot: seq<string>, original: map<string, seq<Pending>>, entity: Identity)
    returns (kept: seq<string>, left: map<string, seq<Pending>>, calls: seq<EntityCall>)
    requires forall k :: k in snapshot ==> k in original
    ensures kept == Unmatched(snapshot, entity)
    ensures calls == FlushCalls(snapshot, original, entity)
    ensures forall k :: k in left <==> k in original && !(k in snapshot && entity.EqualsToID(k))
    ensures forall k :: k in left ==> left[k] == original[k]
  {
    left := original;
    kept := [];
    calls := [];
    var i := 0;
    while i < |snapshot|
      invariant 0 <= i <= |snapshot|
      invariant kept == Unmatched(snapshot[..i], entity)
      invariant calls == FlushCalls(snapshot[..i], original, entity)
      invariant forall k :: k in left <==> k in original && !(k in snapshot[..i] && entity.EqualsToID(k))
      invariant forall k :: k in left ==> left[k] == original[k]
    {
      var key := snapshot[i];
      FlushStep(snapshot, i, original, entity);
      assert snapshot[..i + 1] == snapshot[..i] + [key];
      if entity.EqualsToID(key) {
        calls := calls + (Attachments(entity.uniqueId, original[key]) + [RefreshProviderEvents(entity.uniqueId)]);
        left := left - {key};
      } else {
        kept := kept + [key];
      }
      i := i + 1;
    }
    assert snapshot[..i] == snapshot;
  }

  /** Over the whole key list of a valid table, the flush leaves exactly the keys the entity
      does not answer to, still distinct and still matching the table's keys. */
  lemma FlushLeavesValid(keys: seq<string>, original: map<string, seq<Pending>>, left: map<string, seq<Pending>>, entity: Identity)
    requires forall i, j :: 0 <= i < j < |keys| ==> keys[i] != keys[j]
    requires original.Keys == set k | k in keys
    requires forall k :: k in left <==> k in original && !(k in keys && entity.EqualsToID(k))
    requires forall k :: k in left ==> left[k] == original[k]
    ensures left == map k | k in original && !entity.EqualsToID(k) :: original[k]
    ensures var r := Unmatched(keys, entity); forall i, j :: 0 <= i < j < |r| ==> r[i] != r[j]
    ensures left.Keys == set k | k in Unmatched(keys, entity)
  {
    UnmatchedDistinct(keys, entity);
    UnmatchedMembers(keys, entity);
  }

  /** `_pendingEvents`: a JavaScript Map, so its keys keep insertion order. */
  class PendingEvents {
    var keys: seq<string>
    var table: map<string, seq<Pending>>

    predicate Valid()
      reads this
    {
      && (forall i, j :: 0 <= i < j < |keys| ==> keys[i] != keys[j])
      && table.Keys == set k | k in keys
    }

    constructor()
      ensures Valid() && keys == [] && table == map[]
    {
      keys := [];
      table := map[];
    }

    /** `CheckPendingEvents`: every key the entity answers to (by unique id or widget id) has its
        entries attached in buffered order, one refresh, and is then deleted; the other keys and
        their entries stay as they were. */
    method CheckPendingEvents(entity: Identity) returns (calls: seq<EntityCall>)
      requires Valid()
      modifies this
      ensures Valid()
      ensures calls == FlushCalls(old(keys), old(table), entity)
      ensures keys == Unmatched(old(keys), entity)
      ensures table == map k | k in old(table) && !entity.EqualsToID(k) :: old(table)[k]
    {
      var kept, left;
      kept, left, calls := Flush(keys, table, entity);
      FlushLeavesValid(keys, table, left, entity);
      keys, table := kept, left;
    }

    /** `Unsubscribe`. When the entity exists, its handler is removed and its provider events
        refreshed, and the table is not touched. Otherwise the first buffered entry under the id
        with the same event and the same callback is removed; a missing key or entry changes
        nothing, and a list emptied this way stays registered under its key. */
    method Unsubscribe(entity: Option<Identity>, entityId: string, event: string, cb: Callback)
      returns (calls: seq<EntityCall>)
      requires Valid()
      modifies this
      ensures Valid() && keys == old(keys)
      ensures entity.Some? ==>
        calls == [RemoveHandler(entity.value.uniqueId, event, cb), RefreshProviderEvents(entity.value.uniqueId)]
        && table == old(table)
      ensures entity.None? ==> calls == [] && table == RemovePending(old(table), entityId, Pending(event, cb))
    {
      if entity.Some? {
        calls := [RemoveHandler(entity.value.uniqueId, event, cb), RefreshProviderEvents(entity.value.uniqueId)];
      } else {
        calls := [];
        if entityId in table {
          var index := IndexOf(table[entityId], Pending(event, cb));
          if index != -1 {
            table := table[entityId := RemoveAt(table[entityId], index)];
          }
        }
      }
    }

    /** Buffering a subscription for an id nothing answers to yet: appended to the id's list, or
        a new key at the end. In this file that branch is commented out; the map and marker
        Events namespaces, which are not part of this model, are assumed to buffer this way. */
    method Defer(entityId: string, event: string, cb: Callback)
      requires Valid()
      modifies this
      ensures Valid()
      ensures entityId in old(table) ==> keys == old(keys) && table == old(table)[entityId := old(table)[entityId] + [Pending(event, cb)]]
      ensures entityId !in old(table) ==> keys == old(keys) + [entityId] && table == old(table)[entityId := [Pending(event, cb)]]
    {
      if entityId in table {
        table := table[entityId := table[entityId] + [Pending(event, cb)]];
      } else {
        keys := keys + [entityId];
        table := table[entityId := [Pending(event, cb)]];
      }
    }
  }

  /** The table after removing the first occurrence of `entry` under `entityId`, if any. */
  function RemovePending(table: map<string, seq<Pending>>, entityId: string, entry: Pending): (r: map<string, seq<Pending>>)
    ensures r.Keys == table.Keys
    ensures forall k :: k in table && k != entityId ==> r[k] == table[k]
    ensures entityId in table && entry !in table[entityId] ==> r == table
    ensures entityId in table && entry in table[entityId] ==>
      var i := IndexOf(table[entityId], entry);
      && |r[entityId]| == |table[entityId]| - 1
      && r[entityId] == table[entityId][..i] + table[entityId][i + 1..]
      && forall j :: 0 <= j < i ==> table[entityId][j] != entry
  {
    if entityId in table && IndexOf(table[entityId], entry) != -1 then
      table[entityId := RemoveAt(table[entityId], IndexOf(table[entityId], entry))]
    else table
  }

  /** `Subscribe`: the layer is looked up (throwing when it does not exist), the handler
      attached and its provider events refreshed. It never reads or writes the table. */
  function Subscribe(layer: Option<Identity>, layerId: string, event: string, cb: Callback): (r: Result<seq<EntityCall>>)
    ensures r.Threw? <==> layer.None?
    ensures r.Threw? ==> r.error == FileLayerNotFound(layerId)
    ensures r.Ok? ==> r.value == [AddHandler(layer.value.uniqueId, event, cb), RefreshProviderEvents(layer.value.uniqueId)]
  {
    if layer.None? then Threw(FileLayerNotFound(layerId))
    else Ok([AddHandler(layer.value.uniqueId, event, cb), RefreshProviderEvents(layer.value.uniqueId)])
  }

  /** What one flush leaves behind gives a second flush for the same entity nothing to do. */
  lemma SecondFlushAttachesNothing(keys: seq<string>, table: map<string, seq<Pending>>, entity: Identity)
    requires forall k :: k in keys ==> k in table
    ensures forall k :: k in Unmatched(keys, entity) ==> k in table && !entity.EqualsToID(k)
    ensures var left := map k | k in table && !entity.EqualsToID(k) :: table[k];
      FlushCalls(Unmatched(keys, entity), left, entity) == []
  {
    var left := map k | k in table && !entity.EqualsToID(k) :: table[k];
    UnmatchedMembers(keys, entity);
    FlushOfUnmatchedIsEmpty(Unmatched(keys, entity), left, entity);
  }
}
