/** OSFramework/Event/OSMap/AbstractMapEvent.ts: a map event channel whose `trigger` calls every
    handler registered at the moment of the call, passing the map id first. */
module MapEvent {
  import opened Common

  /** One call of a handler, with the arguments it received. */
  datatype Invocation = Invocation(handler: Callback, args: seq<Value>)

  /** What a running handler may do to the channel's handler list, through the base class's
      `addHandler` (appends) and `removeHandler` (drops the first occurrence). */
  datatype Edit = Add(cb: Callback) | Remove(cb: Callback)

  function ApplyEdit(hs: seq<Callback>, e: Edit): seq<Callback>
  {
    match e
    case Add(cb) => hs + [cb]
    case Remove(cb) =>
      var i := IndexOf(hs, cb);
      if i == -1 then hs else RemoveAt(hs, i)
  }

  /** The list after one handler's edits, in the order that handler made them. */
  function ApplyEdits(hs: seq<Callback>, es: seq<Edit>): seq<Callback>
  {
    if es == [] then hs else ApplyEdit(ApplyEdits(hs, es[..|es| - 1]), es[|es| - 1])
  }

  /** The list after the edits of the first |effects| handlers of a dispatch. */
  function ApplyAll(hs: seq<Callback>, effects: seq<seq<Edit>>): seq<Callback>
  {
    if effects == [] then hs else ApplyEdits(ApplyAll(hs, effects[..|effects| - 1]), effects[|effects| - 1])
  }

  /** Handlers that do not touch the list leave it exactly as it was: the dispatch itself
      neither adds nor removes handlers. */
  lemma {:induction false} QuietDispatchKeepsList(hs: seq<Callback>, effects: seq<seq<Edit>>)
    requires forall i :: 0 <= i < |effects| ==> effects[i] == []
    ensures ApplyAll(hs, effects) == hs
  {
    if effects != [] {
      QuietDispatchKeepsList(hs, effects[..|effects| - 1]);
    }
  }

  class MapEvent {
    var handlers: seq<Callback>

    constructor()
      ensures handlers == []
    {
      handlers := [];
    }

    /** `handlers.slice(0).forEach((h) => h(mapId, ...args))`. Handler i of the snapshot makes the
        edits `effects[i]` while it runs; whatever they are, exactly the snapshot is called, once
        each and in order, with the map id followed by the arguments. */
    method Trigger(mapId: string, args: seq<Value>, effects: seq<seq<Edit>>) returns (invoked: seq<Invocation>)
      requires |effects| == |handlers|
      modifies this
      ensures |invoked| == |old(handlers)|
      ensures forall i :: 0 <= i < |invoked| ==> invoked[i] == Invocation(old(handlers)[i], [Str(mapId)] + args)
      ensures handlers == ApplyAll(old(handlers), effects)
    {
      var snapshot := handlers;
      invoked := [];
      var i := 0;
      while i < |snapshot|
        invariant 0 <= i <= |snapshot|
        invariant |invoked| == i
        invariant forall j :: 0 <= j < i ==> invoked[j] == Invocation(snapshot[j], [Str(mapId)] + args)
        invariant handlers == ApplyAll(snapshot, effects[..i])
      {
        invoked := invoked + [Invocation(snapshot[i], [Str(mapId)] + args)];
        assert effects[..i + 1][..i] == effects[..i];
        handlers := ApplyEdits(handlers, effects[i]);
        i := i + 1;
      }
      assert effects[..i] == effects;
    }
  }
}
