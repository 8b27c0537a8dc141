/** Shared vocabulary of the model: optional values, JavaScript values, entity identities,
    thrown errors and the calls the core makes on entities whose classes are not modelled. */
module Common {

  datatype Option<T> = None | Some(value: T)

  /** A JavaScript value as the core sees it. Objects that the core only passes through
      (coordinates, offsets, styles, provider objects) are opaque handles. */
  datatype Value = Undefined | Null | Bool(b: bool) | Num(n: int) | Str(s: string) | Handle(h: nat)

  /** JavaScript truthiness of a value (handles stand for objects, which are truthy). */
  predicate Truthy(v: Value)
  {
    match v
    case Undefined => false
    case Null => false
    case Bool(b) => b
    case Num(n) => n != 0
    case Str(s) => s != ""
    case Handle(_) => true
  }

  /** A latitude/longitude pair as the providers return it. */
  datatype Coordinates = Coordinates(lat: real, lng: real)

  /** Callbacks are opaque and compared by identity. */
  type Callback = nat

  /** What an id lookup needs to know about an entity: its unique id and, once its build has
      resolved it from the DOM, the id of its widget container. */
  datatype Identity = Identity(uniqueId: string, widgetId: Option<string>)
  {
    /** `equalsToID`: the id names the entity by unique id or by widget id. */
    predicate EqualsToID(id: string)
    {
      id == uniqueId || widgetId == Some(id)
    }
  }

  /** Errors the registries throw (construction-time failures) and JavaScript TypeErrors
      raised by dereferencing `undefined`. */
  datatype Failure =
    | MapNotFound(mapId: string)
    | MapAlreadyRegistered(mapId: string)
    | MarkerNotFound(markerId: string)
    | MarkerAlreadyRegistered(markerId: string)
    | FileLayerNotFound(fileLayerId: string)
    | PropertyCannotChange(propertyName: string)
    | LibraryNotLoaded
    | UndefinedDereference

  datatype Result<T> = Ok(value: T) | Threw(error: Failure)

  /** Calls made on maps, markers and file layers, whose own classes are not part of this model. */
  datatype EntityCall =
    | AddHandler(target: string, event: string, cb: Callback)
    | RemoveHandler(target: string, event: string, cb: Callback)
    | RefreshProviderEvents(target: string)
    | Build(target: string)
    | Dispose(target: string)
    | ChangeProperty(target: string, name: string, value: Value)
    | RemoveAllMarkers(target: string)
    | RemoveAllFileLayers(target: string)
    | AddMarker(target: string, markerId: string)
    | RemoveMarker(target: string, markerId: string)
    | ChangeMarkerProperty(target: string, markerId: string, name: string, value: Value)
    | OpenPopup(target: string)
    | ClosePopup(target: string)
    | RefreshPopup(target: string)

  /** `findIndex` by equality: the first position holding `x`, or -1. */
  function IndexOf<T(==)>(s: seq<T>, x: T): (r: int)
    ensures -1 <= r < |s|
    ensures r == -1 <==> x !in s
    ensures r >= 0 ==> s[r] == x && forall j :: 0 <= j < r ==> s[j] != x
  {
    if s == [] then -1
    else if s[0] == x then 0
    else
      var k := IndexOf(s[1..], x);
      if k == -1 then -1 else k + 1
  }

  /** `findIndex((p) => p.equalsToID(id))`: the first entity that the id names, or -1. */
  function FirstMatch(ids: seq<Identity>, id: string): (r: int)
    ensures -1 <= r < |ids|
    ensures r >= 0 ==> ids[r].EqualsToID(id)
    ensures forall j :: 0 <= j < |ids| && (r == -1 || j < r) ==> !ids[j].EqualsToID(id)
  {
    if ids == [] then -1
    else if ids[0].EqualsToID(id) then 0
    else
      var k := FirstMatch(ids[1..], id);
      if k == -1 then -1 else k + 1
  }

  /** An identity appended after identities none of which answers to the id is found last. */
  lemma {:induction false} FirstMatchAppend(ids: seq<Identity>, x: Identity, id: string)
    requires FirstMatch(ids, id) == -1 && x.EqualsToID(id)
    ensures FirstMatch(ids + [x], id) == |ids|
  {
    if ids != [] {
      assert (ids + [x])[1..] == ids[1..] + [x];
      FirstMatchAppend(ids[1..], x, id);
    }
  }

  /** The sequence without its element at position i (`splice(i, 1)`). */
  function RemoveAt<T>(s: seq<T>, i: nat): (r: seq<T>)
    requires i < |s|
    ensures |r| == |s| - 1
    ensures forall j :: 0 <= j < i ==> r[j] == s[j]
    ensures forall j :: i <= j < |r| ==> r[j] == s[j + 1]
  {
    s[..i] + s[i + 1..]
  }

  /** `splice(i, 1)` takes out exactly one element: the one at position i. */
  lemma RemoveAtTakesOne<T>(s: seq<T>, i: nat)
    requires i < |s|
    ensures multiset(RemoveAt(s, i)) + multiset{s[i]} == multiset(s)
  {
    assert s == s[..i] + [s[i]] + s[i + 1..];
  }

  predicate Distinct<T(==)>(s: seq<T>)
  {
    forall i, j :: 0 <= i < j < |s| ==> s[i] != s[j]
  }

  /** Removing one element of a sequence without repetitions removes exactly that value,
      and keeps the last element unless it was the one removed. */
  lemma RemoveAtDistinct<T>(s: seq<T>, i: nat)
    requires i < |s| && Distinct(s)
    ensures Distinct(RemoveAt(s, i))
    ensures forall x :: x in RemoveAt(s, i) <==> x in s && x != s[i]
    ensures i < |s| - 1 ==> RemoveAt(s, i)[|s| - 2] == s[|s| - 1]
  {
    var r := RemoveAt(s, i);
    forall x | x in r
      ensures x in s && x != s[i]
    {
      var j :| 0 <= j < |r| && r[j] == x;
      if j < i {
        assert r[j] == s[j];
      } else {
        assert r[j] == s[j + 1];
      }
    }
    forall x | x in s && x != s[i]
      ensures x in r
    {
      var j :| 0 <= j < |s| && s[j] == x;
      if j < i {
        assert r[j] == x;
      } else {
        assert r[j - 1] == x;
      }
    }
  }
}
