/** Providers/Google/Shape/AbstractProviderShape.ts: the part of a Google shape that does not
    depend on its geometry — which configuration changes reach the Google object, which
    listeners it carries, the debounced shape-changed event, and how the object is built from
    asynchronously computed coordinates and later disposed. */
module ProviderShape {
  import opened Common
  import opened ErrorCodes

  /** The Google shape object as far as this model needs it: its key/value store (`get` and
      `set`) and its path (`getPath`, None when it has none). */
  datatype ShapeProvider = ShapeProvider(props: map<string, Value>, path: Option<seq<Coordinates>>)

  /** `provider.get(key)`: a key never set reads as undefined. */
  function Prop(p: ShapeProvider, key: string): Value
  {
    if key in p.props then p.props[key] else Undefined
  }

  /** The final state of a promise: still pending, fulfilled with a value or rejected. */
  datatype Promise<T> = Unsettled | Resolved(value: T) | Rejected(reason: string)

  /** The objects listeners hang on: the Google object itself (`this.provider`) and the
      shape's `providerObjectListener`, which for polygons and polylines is the object's path. */
  datatype ListenerTarget = OnProvider | OnListenerObject

  /** Calls on the Google object, on the map library and on the base shape class. A listen call
      attaches one listener: `ListenClick` and `ListenProvider` on the Google object, `ListenPath`
      on the listener object. `ClearListeners(t, e)` is `google.maps.event.clearListeners(t, e)`. */
  datatype ShapeCall =
    | ClearListeners(target: ListenerTarget, event: string)
    | ListenClick
    | ListenPath(event: string, debounced: bool)
    | ListenProvider(event: string)
    | SetProp(key: string, value: Value)
    | BaseChangeProperty(name: string, value: Value)
    | BaseDispose
    | CreateProvider(path: seq<Coordinates>)
    | FinishBuild
    | SetPath(path: seq<Coordinates>)

  /** One entry of the shape's handler table: the event name it is keyed by, and whether its
      handler is a `ShapeProviderEvent`. */
  datatype Handler = Handler(eventName: string, isProviderEvent: bool)

  /** The constant event names a shape routes by: `shapeChangedEvent`, the shape's
      `providerEventsList` and `ProviderSpecialEvents`. */
  datatype EventNames = EventNames(shapeChanged: string, providerEvents: seq<string>, special: seq<string>)

  /** Where the listener for a provider event goes. */
  datatype Route = ChangedRoute | PathRoute | ProviderRoute

  function RouteOf(name: string, k: EventNames): Route
  {
    if name == k.shapeChanged then ChangedRoute
    else if name in k.special then PathRoute
    else ProviderRoute
  }

  /** The route a listener call belongs to; None for calls that are not listeners of events. */
  function CallRoute(c: ShapeCall): Option<Route>
  {
    match c
    case ListenPath(_, debounced) => Some(if debounced then ChangedRoute else PathRoute)
    case ListenProvider(_) => Some(ProviderRoute)
    case _ => None
  }

  /** The listeners attached for one handler: the shape-changed event listens, debounced, to
      every native event of `providerEventsList` on the path; a special event listens on the
      path; any other provider event listens on the Google object itself. Handlers that are not
      provider events attach nothing. */
  function ListenersFor(h: Handler, k: EventNames): (r: seq<ShapeCall>)
    ensures !h.isProviderEvent ==> r == []
    ensures forall c :: c in r ==> CallRoute(c) == Some(RouteOf(h.eventName, k))
    ensures h.isProviderEvent && RouteOf(h.eventName, k) == ChangedRoute ==>
      |r| == |k.providerEvents| && forall j :: 0 <= j < |r| ==> r[j] == ListenPath(k.providerEvents[j], true)
    ensures h.isProviderEvent && RouteOf(h.eventName, k) == PathRoute ==> r == [ListenPath(h.eventName, false)]
    ensures h.isProviderEvent && RouteOf(h.eventName, k) == ProviderRoute ==> r == [ListenProvider(h.eventName)]
  {
    if !h.isProviderEvent then []
    else
      match RouteOf(h.eventName, k)
      case ChangedRoute =>
        seq(|k.providerEvents|, j requires 0 <= j < |k.providerEvents| => ListenPath(k.providerEvents[j], true))
      case PathRoute => [ListenPath(h.eventName, false)]
      case ProviderRoute => [ListenProvider(h.eventName)]
  }

  /** The listeners of a table's handlers, in the table's order. */
  function HandlerCalls(hs: seq<Handler>, k: EventNames): seq<ShapeCall>
  {
    if hs == [] then [] else HandlerCalls(hs[..|hs| - 1], k) + ListenersFor(hs[|hs| - 1], k)
  }

  /** The names `_setShapeEvents` records in `_addedEvents`: those of the provider events. */
  function AddedNames(hs: seq<Handler>): seq<string>
  {
    if hs == [] then []
    else AddedNames(hs[..|hs| - 1]) + (if hs[|hs| - 1].isProviderEvent then [hs[|hs| - 1].eventName] else [])
  }

  /** An event name is recorded exactly when some provider-event handler carries it. */
  lemma {:induction false} AddedNamesMembers(hs: seq<Handler>, name: string)
    ensures name in AddedNames(hs) <==> exists i :: 0 <= i < |hs| && hs[i] == Handler(name, true)
  {
    if hs != [] {
      var init := hs[..|hs| - 1];
      AddedNamesMembers(init, name);
      if name in AddedNames(init) {
        var i :| 0 <= i < |init| && init[i] == Handler(name, true);
        assert hs[i] == Handler(name, true);
      }
      if exists i :: 0 <= i < |hs| && hs[i] == Handler(name, true) {
        var i :| 0 <= i < |hs| && hs[i] == Handler(name, true);
        if i < |init| {
          assert init[i] == Handler(name, true);
        }
      }
    }
  }

  /** The handler table is keyed by event name, so each recorded name is recorded once. */
  lemma {:induction false} AddedNamesOnce(hs: seq<Handler>)
    requires forall i, j :: 0 <= i < j < |hs| ==> hs[i].eventName != hs[j].eventName
    ensures Distinct(AddedNames(hs))
  {
    if hs != [] {
      var init := hs[..|hs| - 1];
      var last := hs[|hs| - 1];
      AddedNamesOnce(init);
      if last.isProviderEvent {
        AddedNamesMembers(init, last.eventName);
        forall i | 0 <= i < |init|
          ensures init[i] != Handler(last.eventName, true)
        {
          assert init[i].eventName == hs[i].eventName;
        }
      }
    }
  }

  /** `clearListeners(this.provider, name)` for each name, in order: the reset always clears on
      the Google object. */
  function ClearCalls(names: seq<string>): (r: seq<ShapeCall>)
    ensures |r| == |names| && forall j :: 0 <= j < |r| ==> r[j] == ClearListeners(OnProvider, names[j])
  {
    seq(|names|, j requires 0 <= j < |names| => ClearListeners(OnProvider, names[j]))
  }

  /** The entries at even positions (0, 2, 4, ...) of a list. */
  function EvenPositions<T>(s: seq<T>): (r: seq<T>)
    ensures |r| == (|s| + 1) / 2 && forall j :: 0 <= j < |r| ==> r[j] == s[2 * j]
  {
    seq((|s| + 1) / 2, j requires 0 <= j < (|s| + 1) / 2 => s[2 * j])
  }

  /** The entries at odd positions (1, 3, 5, ...) of a list. */
  function OddPositions<T>(s: seq<T>): (r: seq<T>)
    ensures |r| == |s| / 2 && forall j :: 0 <= j < |r| ==> r[j] == s[2 * j + 1]
  {
    seq(|s| / 2, j requires 0 <= j < |s| / 2 => s[2 * j + 1])
  }

  /** Splicing inside `forEach` skips the entry that slides into the removed one's place: with
      two or more recorded events, the second is neither cleared nor forgotten. */
  lemma ResetAsWrittenKeepsSecond(s: seq<string>)
    requires |s| >= 2
    ensures OddPositions(s) != [] && OddPositions(s)[0] == s[1]
    ensures ClearListeners(OnProvider, s[1]) !in ClearCalls(EvenPositions(s)) || exists j :: 0 <= j < |s| && j % 2 == 0 && s[j] == s[1]
  {
    var cleared := ClearCalls(EvenPositions(s));
    if ClearListeners(OnProvider, s[1]) in cleared {
      var i :| 0 <= i < |cleared| && cleared[i] == ClearListeners(OnProvider, s[1]);
      assert s[2 * i] == s[1] && (2 * i) % 2 == 0;
    }
  }

  /** With two or more events recorded, `_setShapeEvents` as written never gets back to a
      list without repetitions: the second recorded name survives the reset and is pushed again. */
  lemma AsWrittenRefreshRepeats(names: seq<string>)
    requires |names| >= 2
    ensures !Distinct(OddPositions(names) + names)
  {
    var after := OddPositions(names) + names;
    assert after[0] == names[1] == after[|OddPositions(names)| + 1];
  }

  /** A clock event for the shape-changed timer: a native change notification at a time, or
      the clock reaching a time. Times are in milliseconds. */
  datatype Tick = Notify(at: int) | Elapse(at: int)

  const ShapeChangedDelay: int := 500

  /** One step of the shape-changed timer. The timer is the time its pending timeout fires
      (None when none is pending). A notification cancels any pending timeout and starts a
      new one; the clock reaching the pending time fires it. The result is the new timer and
      the firing time, if the timeout fired. */
  function Step(timer: Option<int>, t: Tick): (r: (Option<int>, Option<int>))
    ensures t.Notify? ==> r == (Some(t.at + ShapeChangedDelay), None)
    ensures t.Elapse? ==> (r.1.Some? <==> timer.Some? && timer.value <= t.at)
    ensures r.1.Some? ==> r.0 == None && Some(r.1.value) == timer
    ensures t.Elapse? && r.1.None? ==> r.0 == timer
  {
    match t
    case Notify(at) => (Some(at + ShapeChangedDelay), None)
    case Elapse(at) =>
      if timer.Some? && timer.value <= at then (None, timer) else (timer, None)
  }

  /** The timer after a run of ticks, with the times at which the event fired. */
  function Run(timer: Option<int>, ticks: seq<Tick>): (Option<int>, seq<int>)
  {
    if ticks == [] then (timer, [])
    else
      var prev := Run(timer, ticks[..|ticks| - 1]);
      var next := Step(prev.0, ticks[|ticks| - 1]);
      (next.0, prev.1 + (if next.1.Some? then [next.1.value] else []))
  }

  /** Notifications at the given times, the clock reaching each one just before it. */
  function Burst(times: seq<int>): seq<Tick>
  {
    if times == [] then []
    else Burst(times[..|times| - 1]) + [Elapse(times[|times| - 1]), Notify(times[|times| - 1])]
  }

  predicate CloseTogether(times: seq<int>)
  {
    forall i :: 0 < i < |times| ==> times[i - 1] <= times[i] < times[i - 1] + ShapeChangedDelay
  }

  lemma {:induction false} BurstKeepsPending(times: seq<int>)
    requires times != [] && CloseTogether(times)
    ensures Run(None, Burst(times)) == (Some(times[|times| - 1] + ShapeChangedDelay), [])
  {
    var init := times[..|times| - 1];
    var t := times[|times| - 1];
    var mid := Burst(init) + [Elapse(t)];
    assert Burst(times) == mid + [Notify(t)];
    assert (mid + [Notify(t)])[..|mid|] == mid;
    assert mid[..|mid| - 1] == Burst(init);
    if init != [] {
      assert CloseTogether(init);
      BurstKeepsPending(init);
      assert init[|init| - 1] == times[|times| - 2];
    }
    assert Run(None, mid).1 == [];
  }

  /** A burst of notifications, each less than 500 ms after the previous one, fires the
      shape-changed event once, 500 ms after the last notification. */
  lemma BurstFiresOnce(times: seq<int>)
    requires times != [] && CloseTogether(times)
    ensures Run(None, Burst(times) + [Elapse(times[|times| - 1] + ShapeChangedDelay)]).1
      == [times[|times| - 1] + ShapeChangedDelay]
  {
    var ticks := Burst(times) + [Elapse(times[|times| - 1] + ShapeChangedDelay)];
    assert ticks[..|ticks| - 1] == Burst(times);
    BurstKeepsPending(times);
  }

  /** A notification 500 ms or more after the previous one comes after the previous timeout
      fired: two notifications that far apart fire twice. */
  lemma SeparatedNotificationsFireTwice(a: int, b: int)
    requires a + ShapeChangedDelay <= b
    ensures Run(None, Burst([a, b]) + [Elapse(b + ShapeChangedDelay)]).1
      == [a + ShapeChangedDelay, b + ShapeChangedDelay]
  {
    var t1 := [Elapse(a)];
    var t2 := t1 + [Notify(a)];
    var t3 := t2 + [Elapse(b)];
    var t4 := t3 + [Notify(b)];
    var t5 := t4 + [Elapse(b + ShapeChangedDelay)];
    RunSnoc(None, [], Elapse(a));
    assert [] + [Elapse(a)] == t1;
    assert Run(None, t1).0 == None && Run(None, t1).1 == [] + [];
    RunSnoc(None, t1, Notify(a));
    assert Run(None, t2).0 == Some(a + ShapeChangedDelay) && Run(None, t2).1 == Run(None, t1).1 + [];
    RunSnoc(None, t2, Elapse(b));
    assert Run(None, t3).0 == None && Run(None, t3).1 == Run(None, t2).1 + [a + ShapeChangedDelay];
    RunSnoc(None, t3, Notify(b));
    assert Run(None, t4).0 == Some(b + ShapeChangedDelay) && Run(None, t4).1 == Run(None, t3).1 + [];
    RunSnoc(None, t4, Elapse(b + ShapeChangedDelay));
    assert Run(None, t5).1 == Run(None, t4).1 + [b + ShapeChangedDelay];
    assert [a, b][..1] == [a];
    assert Burst([a]) == t2;
    assert Burst([a, b]) == t4;
    assert Run(None, t5).1 == [a + ShapeChangedDelay, b + ShapeChangedDelay];
  }

  /** Running one more tick is one more step. */
  lemma RunSnoc(timer: Option<int>, ticks: seq<Tick>, t: Tick)
    ensures var prev := Run(timer, ticks);
      var next := Step(prev.0, t);
      Run(timer, ticks + [t]) == (next.0, prev.1 + (if next.1.Some? then [next.1.value] else []))
  {
    assert (ticks + [t])[..|ticks|] == ticks;
  }

  /** The configuration properties a ready shape forwards to its Google object, and the key
      each one is stored under there. */
  function ProviderKey(name: string): (r: Option<string>)
    ensures r.Some? <==> name in {"allowDrag", "allowEdit", "strokeOpacity", "strokeColor", "strokeWeight"}
    ensures name in {"strokeOpacity", "strokeColor", "strokeWeight"} ==> r == Some(name)
  {
    if name == "allowDrag" then Some("draggable")
    else if name == "allowEdit" then Some("editable")
    else if name in {"strokeOpacity", "strokeColor", "strokeWeight"} then Some(name)
    else None
  }

  /** After `index` visits of the splicing `forEach` over `s`: the entries at odd positions
      below 2 * index are left in front, the unvisited tail follows, and the visited entries are
      those at even positions. */
  predicate SpliceState(s: seq<string>, left: seq<string>, visited: seq<string>, index: nat)
  {
    && 2 * index <= |s| + 1
    && |left| == |s| - index
    && (forall j :: 0 <= j < index && 2 * j + 1 < |s| ==> left[j] == s[2 * j + 1])
    && (forall j :: index <= j < |left| ==> left[j] == s[j + index])
    && |visited| == index
    && (forall j :: 0 <= j < index ==> visited[j] == s[2 * j])
  }

  lemma SpliceStep(s: seq<string>, left: seq<string>, visited: seq<string>, index: nat)
    requires SpliceState(s, left, visited, index) && index < |left|
    ensures SpliceState(s, RemoveAt(left, index), visited + [left[index]], index + 1)
  {
    var left' := RemoveAt(left, index);
    var visited' := visited + [left[index]];
    assert left[index] == s[2 * index];
    forall j | 0 <= j < index + 1 && 2 * j + 1 < |s|
      ensures left'[j] == s[2 * j + 1]
    {
      if j == index {
        assert left'[j] == left[index + 1] == s[index + 1 + index];
      }
    }
    forall j | index + 1 <= j < |left'|
      ensures left'[j] == s[j + index + 1]
    {
      assert left'[j] == left[j + 1];
    }
  }

  lemma SpliceDone(s: seq<string>, left: seq<string>, visited: seq<string>, index: nat)
    requires SpliceState(s, left, visited, index) && index >= |left|
    ensures left == OddPositions(s) && visited == EvenPositions(s)
  {
    assert 2 * index == |s| || 2 * index == |s| + 1;
  }

  /** `forEach` over a list that its callback `splice`s at the visited index: the callback
      sees index 0, 1, 2, ... of the live list while every removal shifts the rest left. The
      callback sees the entries at even positions, and those at odd positions are what is left. */
  method SpliceInForEach(s: seq<string>) returns (left: seq<string>, visited: seq<string>)
    ensures left == OddPositions(s) && visited == EvenPositions(s)
  {
    left, visited := s, [];
    var index := 0;
    while index < |left|
      invariant SpliceState(s, left, visited, index)
    {
      SpliceStep(s, left, visited, index);
      visited := visited + [left[index]];
      left := RemoveAt(left, index);
      index := index + 1;
    }
    SpliceDone(s, left, visited, index);
  }

  /** The `handlers.forEach` of `_setShapeEvents`: the names recorded and the listeners
      attached, handler by handler. */
  method ProviderListeners(handlers: seq<Handler>, k: EventNames) returns (added: seq<string>, calls: seq<ShapeCall>)
    ensures added == AddedNames(handlers) && calls == HandlerCalls(handlers, k)
  {
    added, calls := [], [];
    var i := 0;
    while i < |handlers|
      invariant 0 <= i <= |handlers|
      invariant added == AddedNames(handlers[..i]) && calls == HandlerCalls(handlers[..i], k)
    {
      var h := handlers[i];
      assert handlers[..i + 1][..i] == handlers[..i];
      if h.isProviderEvent {
        added := added + [h.eventName];
      }
      calls := calls + ListenersFor(h, k);
      i := i + 1;
    }
    assert handlers[..i] == handlers;
  }

  /** The listener a call attaches: the object it hangs on and the event it listens to. */
  function ListenerOf(c: ShapeCall): Option<(ListenerTarget, string)>
  {
    match c
    case ListenClick => Some((OnProvider, "click"))
    case ListenProvider(e) => Some((OnProvider, e))
    case ListenPath(e, _) => Some((OnListenerObject, e))
    case _ => None
  }

  predicate HangsOn(c: ShapeCall, t: ListenerTarget)
  {
    ListenerOf(c).Some? && ListenerOf(c).value.0 == t
  }

  /** The listeners among `ls` that hang on `t`, in order. */
  function On(ls: seq<ShapeCall>, t: ListenerTarget): (r: seq<ShapeCall>)
    ensures forall c :: c in r <==> c in ls && HangsOn(c, t)
  {
    if ls == [] then []
    else
      var init, last := ls[..|ls| - 1], ls[|ls| - 1];
      assert ls == init + [last];
      On(init, t) + (if HangsOn(last, t) then [last] else [])
  }

  /** `clearListeners(t, e)` on the attached listeners: those on `t` for `e` go, the others stay
      in order. */
  function Cleared(ls: seq<ShapeCall>, t: ListenerTarget, e: string): (r: seq<ShapeCall>)
    ensures forall c :: c in r <==> c in ls && ListenerOf(c) != Some((t, e))
  {
    if ls == [] then []
    else
      var init, last := ls[..|ls| - 1], ls[|ls| - 1];
      assert ls == init + [last];
      Cleared(init, t, e) + (if ListenerOf(last) == Some((t, e)) then [] else [last])
  }

  /** The listeners still attached after a run of calls, in the order they were attached: each
      listen call adds one, each `clearListeners` removes those it names. */
  function Live(calls: seq<ShapeCall>): seq<ShapeCall>
  {
    if calls == [] then []
    else
      var prev, c := Live(calls[..|calls| - 1]), calls[|calls| - 1];
      if ListenerOf(c).Some? then prev + [c]
      else if c.ClearListeners? then Cleared(prev, c.target, c.event)
      else prev
  }

  /** With none of them on `t`, no listener is kept for `t`. */
  lemma {:induction false} NoneOn(ls: seq<ShapeCall>, t: ListenerTarget)
    requires forall c :: c in ls ==> !HangsOn(c, t)
    ensures On(ls, t) == []
  {
    if ls != [] {
      NoneOn(ls[..|ls| - 1], t);
    }
  }

  /** One more call is one more step of `Live`. */
  lemma LiveSnoc(calls: seq<ShapeCall>, c: ShapeCall)
    ensures Live(calls + [c]) ==
      if ListenerOf(c).Some? then Live(calls) + [c]
      else if c.ClearListeners? then Cleared(Live(calls), c.target, c.event)
      else Live(calls)
  {
    assert (calls + [c])[..|calls|] == calls;
  }

  lemma {:induction false} OnAppend(a: seq<ShapeCall>, b: seq<ShapeCall>, t: ListenerTarget)
    ensures On(a + b, t) == On(a, t) + On(b, t)
  {
    if b == [] {
      assert a + b == a;
    } else {
      var init := b[..|b| - 1];
      assert (a + b)[..|a + b| - 1] == a + init;
      OnAppend(a, init, t);
    }
  }

  /** Clearing listeners on one object leaves those on the other object as they were. */
  lemma {:induction false} ClearedKeepsOther(ls: seq<ShapeCall>, t: ListenerTarget, e: string, u: ListenerTarget)
    requires t != u
    ensures On(Cleared(ls, t, e), u) == On(ls, u)
  {
    if ls != [] {
      var init, last := ls[..|ls| - 1], ls[|ls| - 1];
      ClearedKeepsOther(init, t, e, u);
      var kept := if ListenerOf(last) == Some((t, e)) then [] else [last];
      OnAppend(Cleared(init, t, e), kept, u);
      assert [last][..0] == [];
    }
  }

  /** Listen calls only add: the listeners attached before them stay, and theirs follow. */
  lemma {:induction false} LiveListens(prev: seq<ShapeCall>, ls: seq<ShapeCall>)
    requires forall c :: c in ls ==> ListenerOf(c).Some?
    ensures Live(prev + ls) == Live(prev) + ls
  {
    if ls == [] {
      assert prev + ls == prev;
    } else {
      var init := ls[..|ls| - 1];
      assert prev + ls == (prev + init) + [ls[|ls| - 1]];
      assert ls == init + [ls[|ls| - 1]];
      LiveSnoc(prev + init, ls[|ls| - 1]);
      LiveListens(prev, init);
    }
  }

  /** The reset's `clearListeners` calls never reach the listener object: every listener
      attached there stays attached. */
  lemma {:induction false} ClearsKeepListenerObject(prev: seq<ShapeCall>, names: seq<string>)
    ensures On(Live(prev + ClearCalls(names)), OnListenerObject) == On(Live(prev), OnListenerObject)
  {
    if names == [] {
      assert prev + ClearCalls(names) == prev;
    } else {
      var init, name := names[..|names| - 1], names[|names| - 1];
      assert ClearCalls(names) == ClearCalls(init) + [ClearListeners(OnProvider, name)];
      assert prev + ClearCalls(names) == (prev + ClearCalls(init)) + [ClearListeners(OnProvider, name)];
      LiveSnoc(prev + ClearCalls(init), ClearListeners(OnProvider, name));
      ClearsKeepListenerObject(prev, init);
      ClearedKeepsOther(Live(prev + ClearCalls(init)), OnProvider, name, OnListenerObject);
    }
  }

  /** On the Google object, the reset removes exactly the listeners of the names it clears. */
  lemma {:induction false} ClearsDropNamed(prev: seq<ShapeCall>, names: seq<string>)
    ensures forall c :: c in Live(prev + ClearCalls(names)) <==>
      c in Live(prev) && !(HangsOn(c, OnProvider) && ListenerOf(c).value.1 in names)
  {
    if names == [] {
      assert prev + ClearCalls(names) == prev;
    } else {
      var init, name := names[..|names| - 1], names[|names| - 1];
      assert ClearCalls(names) == ClearCalls(init) + [ClearListeners(OnProvider, name)];
      assert prev + ClearCalls(names) == (prev + ClearCalls(init)) + [ClearListeners(OnProvider, name)];
      LiveSnoc(prev + ClearCalls(init), ClearListeners(OnProvider, name));
      assert names == init + [name];
      ClearsDropNamed(prev, init);
    }
  }

  /** Every call of the handler routing attaches a listener, and every listener it hangs on the
      Google object listens to a name it records. */
  lemma {:induction false} HandlerCallsListen(hs: seq<Handler>, k: EventNames)
    ensures forall c :: c in HandlerCalls(hs, k) ==>
      ListenerOf(c).Some? && (HangsOn(c, OnProvider) ==> ListenerOf(c).value.1 in AddedNames(hs))
  {
    if hs != [] {
      var init, h := hs[..|hs| - 1], hs[|hs| - 1];
      HandlerCallsListen(init, k);
      forall c | c in HandlerCalls(hs, k)
        ensures ListenerOf(c).Some? && (HangsOn(c, OnProvider) ==> ListenerOf(c).value.1 in AddedNames(hs))
      {
        if c !in HandlerCalls(init, k) {
          assert c in ListenersFor(h, k);
          assert CallRoute(c) == Some(RouteOf(h.eventName, k));
        }
      }
    }
  }

  /** Whichever names the reset clears, a `_setShapeEvents` pass keeps every listener already on
      the listener object and attaches its own there again: those listeners pile up. */
  lemma RefreshKeepsListenerObject(prev: seq<ShapeCall>, cleared: seq<string>, click: seq<ShapeCall>,
                                   handlers: seq<Handler>, k: EventNames)
    requires click == [] || click == [ListenClick]
    ensures On(Live(prev + (ClearCalls(cleared) + click + HandlerCalls(handlers, k))), OnListenerObject)
      == On(Live(prev), OnListenerObject) + On(HandlerCalls(handlers, k), OnListenerObject)
  {
    var calls := HandlerCalls(handlers, k);
    var added := click + calls;
    var base := prev + ClearCalls(cleared);
    assert Live(prev + (ClearCalls(cleared) + click + calls)) == Live(base) + added by {
      assert prev + (ClearCalls(cleared) + click + calls) == base + added;
      HandlerCallsListen(handlers, k);
      LiveListens(base, added);
    }
    assert On(added, OnListenerObject) == On(calls, OnListenerObject) by {
      OnAppend(click, calls, OnListenerObject);
      assert On(click, OnListenerObject) == [] by {
        if click != [] {
          assert click[..0] == [];
        }
      }
      assert [] + On(calls, OnListenerObject) == On(calls, OnListenerObject);
    }
    OnAppend(Live(base), added, OnListenerObject);
    ClearsKeepListenerObject(prev, cleared);
  }

  /** The calls of two `_setShapeEvents` passes with the same handlers and no OnClick handler,
      the first starting from the recorded names `before` (`TwoPassesClicking` has the click
      listener). */
  function TwoPasses(before: seq<string>, handlers: seq<Handler>, k: EventNames): seq<ShapeCall>
  {
    (ClearCalls(before) + HandlerCalls(handlers, k)) + (ClearCalls(AddedNames(handlers)) + HandlerCalls(handlers, k))
  }

  /** After two passes, nothing has been cleared on the listener object: each of its listeners
      is attached twice. */
  lemma TwoPassesDoubleListenerObject(before: seq<string>, handlers: seq<Handler>, k: EventNames)
    ensures var calls := HandlerCalls(handlers, k);
      On(Live(TwoPasses(before, handlers, k)), OnListenerObject) == On(calls, OnListenerObject) + On(calls, OnListenerObject)
  {
    var calls := HandlerCalls(handlers, k);
    var first := ClearCalls(before) + calls;
    var second := ClearCalls(AddedNames(handlers)) + calls;
    assert On(Live(first), OnListenerObject) == On(calls, OnListenerObject) by {
      var cleared := ClearCalls(before);
      assert [] + (cleared + [] + calls) == first by {
        assert cleared + [] == cleared;
      }
      RefreshKeepsListenerObject([], before, [], handlers, k);
    }
    assert On(Live(first + second), OnListenerObject) == On(Live(first), OnListenerObject) + On(calls, OnListenerObject) by {
      var cleared := ClearCalls(AddedNames(handlers));
      assert cleared + [] + calls == second by {
        assert cleared + [] == cleared;
      }
      RefreshKeepsListenerObject(first, AddedNames(handlers), [], handlers, k);
    }
    assert TwoPasses(before, handlers, k) == first + second;
  }

  /** Clearing on its own attaches nothing. */
  lemma {:induction false} ClearsAloneLeaveNothing(names: seq<string>)
    ensures Live(ClearCalls(names)) == []
  {
    if names != [] {
      var init, name := names[..|names| - 1], names[|names| - 1];
      assert ClearCalls(names) == ClearCalls(init) + [ClearListeners(OnProvider, name)];
      LiveSnoc(ClearCalls(init), ClearListeners(OnProvider, name));
      ClearsAloneLeaveNothing(init);
    }
  }

  /** The second pass's clears take every listener of the first pass off the Google object. */
  lemma SecondClearsFirstOnProvider(before: seq<string>, handlers: seq<Handler>, k: EventNames)
    ensures On(Live((ClearCalls(before) + HandlerCalls(handlers, k)) + ClearCalls(AddedNames(handlers))), OnProvider) == []
  {
    var calls := HandlerCalls(handlers, k);
    var first := ClearCalls(before) + calls;
    HandlerCallsListen(handlers, k);
    LiveListens(ClearCalls(before), calls);
    ClearsAloneLeaveNothing(before);
    assert Live(first) == calls;
    ClearsDropNamed(first, AddedNames(handlers));
    NoneOn(Live(first + ClearCalls(AddedNames(handlers))), OnProvider);
  }

  /** After two passes, the second pass's clears have removed the first pass's listeners from
      the Google object: each of them is attached once. */
  lemma TwoPassesOnceOnProvider(before: seq<string>, handlers: seq<Handler>, k: EventNames)
    ensures On(Live(TwoPasses(before, handlers, k)), OnProvider) == On(HandlerCalls(handlers, k), OnProvider)
  {
    var calls := HandlerCalls(handlers, k);
    var cleared := (ClearCalls(before) + calls) + ClearCalls(AddedNames(handlers));
    assert Live(TwoPasses(before, handlers, k)) == Live(cleared) + calls by {
      HandlerCallsListen(handlers, k);
      assert TwoPasses(before, handlers, k) == cleared + calls;
      LiveListens(cleared, calls);
    }
    SecondClearsFirstOnProvider(before, handlers, k);
    OnAppend(Live(cleared), calls, OnProvider);
  }

  /** Clearing the listeners of one object and event keeps every other listener as many times
      as it was attached. */
  lemma {:induction false} ClearedKeepsCount(ls: seq<ShapeCall>, t: ListenerTarget, e: string, c: ShapeCall)
    requires ListenerOf(c) != Some((t, e))
    ensures multiset(Cleared(ls, t, e))[c] == multiset(ls)[c]
  {
    if ls != [] {
      var init, last := ls[..|ls| - 1], ls[|ls| - 1];
      assert ls == init + [last];
      ClearedKeepsCount(init, t, e, c);
    }
  }

  /** The reset's clears keep every listener whose event they do not name as many times as it
      was attached. */
  lemma {:induction false} ClearsKeepCount(prev: seq<ShapeCall>, names: seq<string>, c: ShapeCall)
    requires ListenerOf(c).Some? && ListenerOf(c).value.1 !in names
    ensures multiset(Live(prev + ClearCalls(names)))[c] == multiset(Live(prev))[c]
  {
    if names == [] {
      assert prev + ClearCalls(names) == prev;
    } else {
      var init, name := names[..|names| - 1], names[|names| - 1];
      assert names == init + [name];
      assert ClearCalls(names) == ClearCalls(init) + [ClearListeners(OnProvider, name)];
      assert prev + ClearCalls(names) == (prev + ClearCalls(init)) + [ClearListeners(OnProvider, name)];
      LiveSnoc(prev + ClearCalls(init), ClearListeners(OnProvider, name));
      ClearsKeepCount(prev, init, c);
      ClearedKeepsCount(Live(prev + ClearCalls(init)), OnProvider, name, c);
    }
  }

  /** The calls of two `_setShapeEvents` passes with the same handlers on a clickable Google
      object while OnClick has handlers, the first starting from the recorded names `before`. */
  function TwoPassesClicking(before: seq<string>, handlers: seq<Handler>, k: EventNames): seq<ShapeCall>
  {
    (ClearCalls(before) + ([ListenClick] + HandlerCalls(handlers, k)))
      + ClearCalls(AddedNames(handlers)) + ([ListenClick] + HandlerCalls(handlers, k))
  }

  /** A pass with the click listener attaches it and the handler listeners, in that order. */
  lemma ClickPassListens(prev: seq<ShapeCall>, handlers: seq<Handler>, k: EventNames)
    ensures Live(prev + ([ListenClick] + HandlerCalls(handlers, k))) == Live(prev) + ([ListenClick] + HandlerCalls(handlers, k))
  {
    HandlerCallsListen(handlers, k);
    LiveListens(prev, [ListenClick] + HandlerCalls(handlers, k));
  }

  /** The handler listeners never include the click listener unless 'click' is recorded. */
  lemma ClickOnceInPass(handlers: seq<Handler>, k: EventNames)
    requires "click" !in AddedNames(handlers)
    ensures multiset([ListenClick] + HandlerCalls(handlers, k))[ListenClick] == 1
  {
    var calls := HandlerCalls(handlers, k);
    HandlerCallsListen(handlers, k);
    assert ListenClick !in calls;
    assert multiset([ListenClick] + calls) == multiset([ListenClick]) + multiset(calls);
  }

  /** `_setShapeEvents` never records 'click', so no reset clears the click listener: after two
      passes it is attached twice, and the OnClick handlers would run twice per click. (A
      provider event subscribed under the name 'click' would be recorded and clear it.) */
  lemma ClickListenerTwice(before: seq<string>, handlers: seq<Handler>, k: EventNames)
    requires "click" !in AddedNames(handlers)
    ensures multiset(Live(TwoPassesClicking(before, handlers, k)))[ListenClick] == 2
  {
    var added := [ListenClick] + HandlerCalls(handlers, k);
    var first := ClearCalls(before) + added;
    var cleared := first + ClearCalls(AddedNames(handlers));
    ClickFirstPassOnce(before, handlers, k);
    ClearsKeepCount(first, AddedNames(handlers), ListenClick);
    ClickSecondPass(cleared, handlers, k);
  }

  /** After the first pass the click listener is attached once. */
  lemma ClickFirstPassOnce(before: seq<string>, handlers: seq<Handler>, k: EventNames)
    requires "click" !in AddedNames(handlers)
    ensures multiset(Live(ClearCalls(before) + ([ListenClick] + HandlerCalls(handlers, k))))[ListenClick] == 1
  {
    var added := [ListenClick] + HandlerCalls(handlers, k);
    ClickOnceInPass(handlers, k);
    ClickPassListens(ClearCalls(before), handlers, k);
    ClearsAloneLeaveNothing(before);
    assert [] + added == added;
  }

  /** A further pass attaches the click listener once more. */
  lemma ClickSecondPass(prev: seq<ShapeCall>, handlers: seq<Handler>, k: EventNames)
    requires "click" !in AddedNames(handlers)
    ensures multiset(Live(prev + ([ListenClick] + HandlerCalls(handlers, k))))[ListenClick]
      == multiset(Live(prev))[ListenClick] + 1
  {
    var added := [ListenClick] + HandlerCalls(handlers, k);
    ClickOnceInPass(handlers, k);
    ClickPassListens(prev, handlers, k);
    assert multiset(Live(prev) + added) == multiset(Live(prev)) + multiset(added);
  }

  class Shape {
    /** The event names this shape routes by. */
    const names: EventNames
    /** `isReady`, kept by the base shape class. */
    var ready: bool
    var provider: Option<ShapeProvider>
    /** `_addedEvents`: the events whose listeners the next reset clears. */
    var addedEvents: seq<string>
    /** `_shapeChangedEventTimeout`, as the time the pending timeout fires. */
    var timer: Option<int>

    /** A ready shape has its Google object: `finishBuild` runs only after `_createProvider`,
        and dispose drops both. */
    predicate Valid()
      reads this
    {
      ready ==> provider.Some?
    }

    constructor(names: EventNames)
      ensures this.names == names && Valid()
      ensures !ready && provider == None && addedEvents == [] && timer == None
    {
      this.names := names;
      ready := false;
      provider := None;
      addedEvents := [];
      timer := None;
    }

    /** `_resetShapeEvents` as written: the recorded events at even positions have their
        listeners cleared and are forgotten; those at odd positions stay recorded with their
        listeners in place. */
    method ResetShapeEventsAsWritten() returns (calls: seq<ShapeCall>)
      modifies this
      ensures addedEvents == OddPositions(old(addedEvents))
      ensures calls == ClearCalls(EvenPositions(old(addedEvents)))
      ensures ready == old(ready) && provider == old(provider) && timer == old(timer)
    {
      var left, cleared := SpliceInForEach(addedEvents);
      addedEvents := left;
      calls := ClearCalls(cleared);
    }

    /** The reset as evidently intended: every recorded event has its listeners on the Google
        object cleared, in order, and nothing stays recorded. Listeners on the listener object
        are not touched (`ClearsKeepListenerObject`). */
    method ResetShapeEvents() returns (calls: seq<ShapeCall>)
      modifies this
      ensures addedEvents == [] && calls == ClearCalls(old(addedEvents))
      ensures ready == old(ready) && provider == old(provider) && timer == old(timer)
    {
      calls := [];
      var i := 0;
      while i < |addedEvents|
        invariant 0 <= i <= |addedEvents|
        invariant calls == ClearCalls(addedEvents[..i])
      {
        calls := calls + [ClearListeners(OnProvider, addedEvents[i])];
        i := i + 1;
      }
      assert addedEvents[..i] == addedEvents;
      addedEvents := [];
    }

    /** `_setShapeEvents`: after the reset, a click listener when OnClick has handlers and the
        Google object is clickable, then the listeners of each provider event of the handler
        table, in the table's order, each event recorded for the next reset. */
    method SetShapeEvents(handlers: seq<Handler>, hasClickHandlers: bool) returns (calls: seq<ShapeCall>)
      requires provider.Some?
      modifies this
      ensures ready == old(ready) && provider == old(provider) && timer == old(timer)
      ensures addedEvents == AddedNames(handlers)
      ensures calls == ClearCalls(old(addedEvents))
        + (if hasClickHandlers && Truthy(Prop(provider.value, "clickable")) then [ListenClick] else [])
        + HandlerCalls(handlers, names)
    {
      calls := ResetShapeEvents();
      if hasClickHandlers && Truthy(Prop(provider.value, "clickable")) {
        calls := calls + [ListenClick];
      }
      var added, listeners := ProviderListeners(handlers, names);
      addedEvents := added;
      calls := calls + listeners;
    }

    /** `_setShapeEvents` composed with the reset as written: the names at odd positions of the
        old record stay recorded ahead of the newly pushed ones, and only those at even
        positions are cleared. */
    method SetShapeEventsAsWritten(handlers: seq<Handler>, hasClickHandlers: bool) returns (calls: seq<ShapeCall>)
      requires provider.Some?
      modifies this
      ensures ready == old(ready) && provider == old(provider) && timer == old(timer)
      ensures addedEvents == OddPositions(old(addedEvents)) + AddedNames(handlers)
      ensures calls == ClearCalls(EvenPositions(old(addedEvents)))
        + (if hasClickHandlers && Truthy(Prop(provider.value, "clickable")) then [ListenClick] else [])
        + HandlerCalls(handlers, names)
    {
      calls := ResetShapeEventsAsWritten();
      if hasClickHandlers && Truthy(Prop(provider.value, "clickable")) {
        calls := calls + [ListenClick];
      }
      var added, listeners := ProviderListeners(handlers, names);
      addedEvents := addedEvents + added;
      calls := calls + listeners;
    }

    /** A native change notification from the path: the pending timeout is cancelled and a
        new one set to fire 500 ms later. */
    method NativeChange(now: int)
      modifies this
      ensures timer == Step(old(timer), Notify(now)).0
      ensures ready == old(ready) && provider == old(provider) && addedEvents == old(addedEvents)
    {
      timer := Some(now + ShapeChangedDelay);
    }

    /** The clock reaching `now`: a due timeout fires, triggering the ProviderEvent for
        `shapeChangedEvent`. */
    method TimerElapsed(now: int) returns (fired: bool)
      modifies this
      ensures Step(old(timer), Elapse(now)) == (timer, if fired then old(timer) else None)
      ensures ready == old(ready) && provider == old(provider) && addedEvents == old(addedEvents)
    {
      fired := timer.Some? && timer.value <= now;
      if fired {
        timer := None;
      }
    }

    /** `_buildProvider`, given how the coordinates promise settles (None: no promise). Once
        fulfilled, the Google object is created from the coordinates (`created` holds the
        options the concrete shape gives it), its events are set and the build finishes; a
        rejection reports LIB_FailedGeocodingShapeLocations with the reason and the build never
        finishes; a promise that never settles, or none, changes nothing. */
    method BuildProvider(coordinates: Option<Promise<seq<Coordinates>>>, created: map<string, Value>,
                         handlers: seq<Handler>, hasClickHandlers: bool)
      returns (calls: seq<ShapeCall>, reports: seq<Report>)
      modifies this
      ensures coordinates.Some? && coordinates.value.Resolved? ==>
        var path := coordinates.value.value;
        && provider == Some(ShapeProvider(created, Some(path))) && ready
        && addedEvents == AddedNames(handlers) && reports == []
        && calls == [CreateProvider(path)] + ClearCalls(old(addedEvents))
          + (if hasClickHandlers && Truthy(Prop(provider.value, "clickable")) then [ListenClick] else [])
          + HandlerCalls(handlers, names) + [FinishBuild]
      ensures coordinates.Some? && coordinates.value.Rejected? ==>
        reports == [Report(LIB_FailedGeocodingShapeLocations, coordinates.value.reason)] && calls == []
      ensures !(coordinates.Some? && coordinates.value.Resolved?) ==>
        ready == old(ready) && provider == old(provider) && addedEvents == old(addedEvents)
      ensures !(coordinates.Some? && coordinates.value.Rejected?) ==> reports == []
      ensures coordinates.None? || coordinates.value.Unsettled? ==> calls == []
      ensures old(Valid()) ==> Valid()
      ensures timer == old(timer)
    {
      calls, reports := [], [];
      if coordinates.Some? {
        match coordinates.value
        case Resolved(path) =>
          provider := Some(ShapeProvider(created, Some(path)));
          var events := SetShapeEvents(handlers, hasClickHandlers);
          ready := true;
          calls := [CreateProvider(path)] + events + [FinishBuild];
        case Rejected(reason) =>
          reports := [Report(LIB_FailedGeocodingShapeLocations, reason)];
        case Unsettled =>
      }
    }

    /** `changeProperty`: the base class updates the configuration first; then a ready shape
        sets the forwarded properties on its Google object under their Google key. */
    method ChangeProperty(name: string, value: Value) returns (calls: seq<ShapeCall>)
      requires Valid()
      modifies this
      ensures Valid()
      ensures ready == old(ready) && addedEvents == old(addedEvents) && timer == old(timer)
      ensures ready && ProviderKey(name).Some? ==>
        && calls == [BaseChangeProperty(name, value), SetProp(ProviderKey(name).value, value)]
        && provider == Some(old(provider).value.(props := old(provider).value.props[ProviderKey(name).value := value]))
      ensures !(ready && ProviderKey(name).Some?) ==>
        calls == [BaseChangeProperty(name, value)] && provider == old(provider)
    {
      calls := [BaseChangeProperty(name, value)];
      var key := ProviderKey(name);
      if ready && key.Some? {
        SetProviderProp(key.value, value);
        calls := calls + [SetProp(key.value, value)];
      }
    }

    /** `provider.set(key, value)` on the Google object. */
    method SetProviderProp(key: string, value: Value)
      requires provider.Some?
      modifies this
      ensures provider == Some(old(provider).value.(props := old(provider).value.props[key := value]))
      ensures ready == old(ready) && addedEvents == old(addedEvents) && timer == old(timer)
    {
      provider := Some(provider.value.(props := provider.value.props[key := value]));
    }

    /** `_setProviderPath`: `provider.setPath(path)`. */
    method SetProviderPath(path: seq<Coordinates>)
      requires provider.Some?
      modifies this
      ensures provider == Some(old(provider).value.(path := Some(path)))
      ensures ready == old(ready) && addedEvents == old(addedEvents) && timer == old(timer)
    {
      provider := Some(provider.value.(path := Some(path)));
    }

    /** `dispose`: a ready shape takes its Google object off the map; the object is dropped
        either way, and the base class's dispose leaves the shape not ready. */
    method Dispose() returns (calls: seq<ShapeCall>)
      modifies this
      ensures calls == (if old(ready) then [SetProp("map", Null)] else []) + [BaseDispose]
      ensures provider == None && !ready && Valid()
      ensures addedEvents == old(addedEvents) && timer == old(timer)
    {
      calls := [];
      if ready {
        calls := [SetProp("map", Null)];
      }
      provider := None;
      ready := false;
      calls := calls + [BaseDispose];
    }

    /** `refreshProviderEvents`: sets the events again on a ready shape, does nothing otherwise. */
    method RefreshProviderEvents(handlers: seq<Handler>, hasClickHandlers: bool) returns (calls: seq<ShapeCall>)
      requires Valid()
      modifies this
      ensures Valid()
      ensures ready == old(ready) && provider == old(provider) && timer == old(timer)
      ensures !old(ready) ==> calls == [] && addedEvents == old(addedEvents)
      ensures old(ready) ==>
        && addedEvents == AddedNames(handlers)
        && calls == ClearCalls(old(addedEvents))
          + (if hasClickHandlers && Truthy(Prop(provider.value, "clickable")) then [ListenClick] else [])
          + HandlerCalls(handlers, names)
    {
      calls := [];
      if ready {
        calls := SetShapeEvents(handlers, hasClickHandlers);
      }
    }
  }

  /** Refreshing the events twice, with no OnClick handler, records each provider event once.
      Of the listeners the two refreshes attach, those on the Google object are attached once,
      since the second refresh clears the first one's, while those on the listener object are
      attached twice. With an OnClick handler the click listener is attached twice as well
      (`ClickListenerTwice`). */
  method RefreshTwice(s: Shape, handlers: seq<Handler>)
    returns (first: seq<ShapeCall>, second: seq<ShapeCall>)
    requires s.Valid() && s.ready
    requires forall i, j :: 0 <= i < j < |handlers| ==> handlers[i].eventName != handlers[j].eventName
    modifies s
    ensures Distinct(s.addedEvents) && s.addedEvents == AddedNames(handlers)
    ensures second == ClearCalls(AddedNames(handlers)) + HandlerCalls(handlers, s.names)
    ensures var calls := HandlerCalls(handlers, s.names);
      && On(Live(first + second), OnProvider) == On(calls, OnProvider)
      && On(Live(first + second), OnListenerObject) == On(calls, OnListenerObject) + On(calls, OnListenerObject)
  {
    ghost var before := s.addedEvents;
    ghost var calls := HandlerCalls(handlers, s.names);
    first := s.RefreshProviderEvents(handlers, false);
    assert first == ClearCalls(before) + calls by {
      assert ClearCalls(before) + [] == ClearCalls(before);
    }
    second := s.RefreshProviderEvents(handlers, false);
    assert second == ClearCalls(AddedNames(handlers)) + calls by {
      assert ClearCalls(AddedNames(handlers)) + [] == ClearCalls(AddedNames(handlers));
    }
    AddedNamesOnce(handlers);
    assert first + second == TwoPasses(before, handlers, s.names);
    TwoPassesOnceOnProvider(before, handlers, s.names);
    TwoPassesDoubleListenerObject(before, handlers, s.names);
  }

  /** The same two refreshes with the reset as written: starting from an empty record, with two
      or more provider events the record repeats a name after the second refresh (handlers A and
      B leave [B, A, B]). */
  method RefreshTwiceAsWritten(s: Shape, handlers: seq<Handler>)
    returns (first: seq<ShapeCall>, second: seq<ShapeCall>)
    requires s.provider.Some?
    modifies s
    ensures s.addedEvents == OddPositions(OddPositions(old(s.addedEvents)) + AddedNames(handlers)) + AddedNames(handlers)
    ensures old(s.addedEvents) == [] && |AddedNames(handlers)| >= 2 ==> !Distinct(s.addedEvents)
  {
    first := s.SetShapeEventsAsWritten(handlers, false);
    second := s.SetShapeEventsAsWritten(handlers, false);
    if old(s.addedEvents) == [] && |AddedNames(handlers)| >= 2 {
      assert OddPositions(old(s.addedEvents)) + AddedNames(handlers) == AddedNames(handlers);
      AsWrittenRefreshRepeats(AddedNames(handlers));
    }
  }
}
