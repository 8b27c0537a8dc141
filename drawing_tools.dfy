/** Providers/Leaflet/DrawingTools/DrawingTools.ts: the Leaflet drawing-tools control — the
    record of enabled tools handed to `L.Control.Draw`, the control's position, the single
    completion listener it keeps on the map, and its build, refresh and teardown. */
module DrawingTools {
  import opened Common
  import opened ErrorCodes

  /** `DrawingToolsTypes`, plus any other type a tool or a completion event may carry. */
  datatype ToolType = Circle | MarkerTool | Polygon | Polyline | Rectangle | OtherType(name: string)

  /** A tool of the control: its id, its type and the options it hands to Leaflet. */
  datatype Tool = Tool(uniqueId: string, kind: ToolType, options: Value)

  /** One slot of `ToolsList`: `false` (tool disabled) or the options of a tool. */
  datatype Slot = Disabled | Options(v: Value)

  /** `ToolsList`. `circlemarker` is a plain flag. */
  datatype ToolsList = ToolsList(circle: Slot, circlemarker: bool, marker: Slot, polygon: Slot, polyline: Slot, rectangle: Slot)

  /** `Constants.DrawingTools.Positions`. */
  datatype Position = TopLeft | TopRight | BottomLeft | BottomRight

  /** Calls the control makes on the map's provider, on its own provider and on its tools. */
  datatype DrawCall =
    | AddLayer
    | BuildTool(toolId: string)
    | OffCompleted
    | OnCompleted
    | SetDrawingOptions(draw: ToolsList)
    | AddControl
    | RemoveControl
    | SetPosition(position: Position)
    | AddCompletedEvent(toolId: string)

  /** The provider: an `L.Control.Draw` with its position and its tools record. */
  datatype Control = Control(position: Position, draw: ToolsList)

  /** `new ToolsList()`: every slot false. */
  function FreshToolsList(): (r: ToolsList)
    ensures r.circle == Disabled && !r.circlemarker && r.marker == Disabled
    ensures r.polygon == Disabled && r.polyline == Disabled && r.rectangle == Disabled
  {
    ToolsList(Disabled, false, Disabled, Disabled, Disabled, Disabled)
  }

  /** The options of the last tool of this type, or `false` when there is none. */
  function LastOf(tools: seq<Tool>, kind: ToolType): Slot
  {
    if tools == [] then Disabled
    else if tools[|tools| - 1].kind == kind then Options(tools[|tools| - 1].options)
    else LastOf(tools[..|tools| - 1], kind)
  }

  /** A slot stays `false` exactly when no tool has its type. */
  lemma {:induction false} LastOfDisabled(tools: seq<Tool>, kind: ToolType)
    ensures LastOf(tools, kind) == Disabled <==> forall i :: 0 <= i < |tools| ==> tools[i].kind != kind
  {
    if tools != [] {
      var init := tools[..|tools| - 1];
      LastOfDisabled(init, kind);
      if tools[|tools| - 1].kind != kind {
        assert forall i :: 0 <= i < |init| ==> init[i] == tools[i];
      }
    }
  }

  /** A filled slot holds the options of the last tool of its type. */
  lemma {:induction false} LastOfIsLast(tools: seq<Tool>, kind: ToolType) returns (i: nat)
    requires LastOf(tools, kind).Options?
    ensures i < |tools| && tools[i].kind == kind && LastOf(tools, kind).v == tools[i].options
    ensures forall j :: i < j < |tools| ==> tools[j].kind != kind
  {
    var init := tools[..|tools| - 1];
    if tools[|tools| - 1].kind == kind {
      i := |tools| - 1;
    } else {
      i := LastOfIsLast(init, kind);
    }
  }

  /** The record `_getTools` builds from the tools. */
  function ToolsFor(tools: seq<Tool>): ToolsList
  {
    ToolsList(LastOf(tools, Circle), false, LastOf(tools, MarkerTool), LastOf(tools, Polygon),
              LastOf(tools, Polyline), LastOf(tools, Rectangle))
  }

  /** Tools of any other type leave the record alone. */
  lemma {:induction false} OtherTypesIgnored(tools: seq<Tool>, t: Tool)
    requires t.kind.OtherType?
    ensures ToolsFor(tools + [t]) == ToolsFor(tools)
  {
    assert (tools + [t])[..|tools|] == tools;
  }

  /** `_getTools`: starting from a fresh record, each tool overwrites the slot of its type. */
  method GetTools(tools: seq<Tool>) returns (r: ToolsList)
    ensures r == ToolsFor(tools)
    ensures !r.circlemarker
  {
    r := FreshToolsList();
    var i := 0;
    while i < |tools|
      invariant 0 <= i <= |tools|
      invariant r == ToolsFor(tools[..i])
    {
      assert tools[..i + 1][..i] == tools[..i];
      var tool := tools[i];
      match tool.kind {
        case Circle => r := r.(circle := Options(tool.options));
        case MarkerTool => r := r.(marker := Options(tool.options));
        case Polygon => r := r.(polygon := Options(tool.options));
        case Polyline => r := r.(polyline := Options(tool.options));
        case Rectangle => r := r.(rectangle := Options(tool.options));
        case OtherType(_) =>
      }
      i := i + 1;
    }
    assert tools[..i] == tools;
  }

  /** The keys of `Constants.DrawingTools.Positions`. */
  function PositionNamed(name: string): Option<Position>
  {
    if name == "TOP_LEFT" then Some(TopLeft)
    else if name == "TOP_RIGHT" then Some(TopRight)
    else if name == "BOTTOM_LEFT" then Some(BottomLeft)
    else if name == "BOTTOM_RIGHT" then Some(BottomRight)
    else None
  }

  /** `_getDrawingToolsPosition`: the position a name denotes; an unknown name raises
      CFG_InvalidDrawingToolsPosition on the map with the name as the message, and yields
      undefined. */
  function DrawingToolsPosition(name: string): (r: (Option<Position>, seq<Report>))
    ensures r.0 == PositionNamed(name)
    ensures r.0.None? <==> r.1 == [Report(CFG_InvalidDrawingToolsPosition, name)]
    ensures r.0.Some? <==> r.1 == []
  {
    var p := PositionNamed(name);
    if p.Some? then (p, []) else (None, [Report(CFG_InvalidDrawingToolsPosition, name)])
  }

  /** The position `build` gives the control: the configured one, or TOP_LEFT when it is
      invalid. A missing position reaches the lookup as the text "undefined". */
  function BuildPosition(configured: Option<string>): (r: Position)
    ensures configured.Some? && PositionNamed(configured.value).Some? ==> r == PositionNamed(configured.value).value
    ensures configured.None? || PositionNamed(configured.value).None? ==> r == TopLeft
  {
    var name := if configured.Some? then configured.value else "undefined";
    var looked := DrawingToolsPosition(name).0;
    if looked.Some? then looked.value else TopLeft
  }

  /** `_addCompletedEventHandler`: the tools whose type is the completed layer's type, in the
      control's order. */
  function CompletedTargets(tools: seq<Tool>, layerType: ToolType): (r: seq<Tool>)
    ensures |r| <= |tools|
  {
    if tools == [] then []
    else CompletedTargets(tools[..|tools| - 1], layerType) + (if tools[|tools| - 1].kind == layerType then [tools[|tools| - 1]] else [])
  }

  /** A completion reaches a tool exactly when the tool's type is the event's layer type. */
  lemma {:induction false} CompletedTargetsMembers(tools: seq<Tool>, layerType: ToolType)
    ensures forall t :: t in CompletedTargets(tools, layerType) <==> t in tools && t.kind == layerType
  {
    if tools != [] {
      CompletedTargetsMembers(tools[..|tools| - 1], layerType);
      assert tools == tools[..|tools| - 1] + [tools[|tools| - 1]];
    }
  }

  function CompletedCalls(targets: seq<Tool>): (r: seq<DrawCall>)
    ensures |r| == |targets| && forall i :: 0 <= i < |r| ==> r[i] == AddCompletedEvent(targets[i].uniqueId)
  {
    if targets == [] then [] else CompletedCalls(targets[..|targets| - 1]) + [AddCompletedEvent(targets[|targets| - 1].uniqueId)]
  }

  function BuildCalls(tools: seq<Tool>): (r: seq<DrawCall>)
    ensures |r| == |tools| && forall i :: 0 <= i < |r| ==> r[i] == BuildTool(tools[i].uniqueId)
  {
    if tools == [] then [] else BuildCalls(tools[..|tools| - 1]) + [BuildTool(tools[|tools| - 1].uniqueId)]
  }

  /** The tools left once the base class drops the tool with this id, in their order. */
  function Without(tools: seq<Tool>, toolId: string): (r: seq<Tool>)
    ensures |r| <= |tools|
  {
    if tools == [] then []
    else Without(tools[..|tools| - 1], toolId) + (if tools[|tools| - 1].uniqueId == toolId then [] else [tools[|tools| - 1]])
  }

  /** Removal keeps exactly the tools with another id. */
  lemma {:induction false} WithoutMembers(tools: seq<Tool>, toolId: string)
    ensures forall t :: t in Without(tools, toolId) <==> t in tools && t.uniqueId != toolId
  {
    if tools != [] {
      WithoutMembers(tools[..|tools| - 1], toolId);
      assert tools == tools[..|tools| - 1] + [tools[|tools| - 1]];
    }
  }

  /** Removing a tool whose id no tool carries changes nothing. */
  lemma {:induction false} WithoutAbsent(tools: seq<Tool>, toolId: string)
    requires forall i :: 0 <= i < |tools| ==> tools[i].uniqueId != toolId
    ensures Without(tools, toolId) == tools
  {
    if tools != [] {
      WithoutAbsent(tools[..|tools| - 1], toolId);
      assert tools == tools[..|tools| - 1] + [tools[|tools| - 1]];
    }
  }

  /** Adding a tool with a fresh id and removing it again gives back the same tools, and so the
      same record for the control. */
  lemma AddThenRemove(tools: seq<Tool>, tool: Tool)
    requires forall i :: 0 <= i < |tools| ==> tools[i].uniqueId != tool.uniqueId
    ensures Without(tools + [tool], tool.uniqueId) == tools
    ensures ToolsFor(Without(tools + [tool], tool.uniqueId)) == ToolsFor(tools)
  {
    assert (tools + [tool])[..|tools|] == tools;
    WithoutAbsent(tools, tool.uniqueId);
  }

  class DrawingTools {
    /** `isReady`, as the base class keeps it. */
    var ready: bool
    /** `_provider`: the control, once built. */
    var provider: Option<Control>
    /** The tools, in the order the base class holds them. */
    var tools: seq<Tool>
    /** How many completion listeners the map's provider holds for this control. */
    var completedListeners: nat
    /** Whether the control is on the map. */
    var onMap: bool

    constructor()
      ensures !ready && provider == None && tools == [] && completedListeners == 0 && !onMap
    {
      ready := false;
      provider := None;
      tools := [];
      completedListeners := 0;
      onMap := false;
    }

    /** `_setDrawingToolsEvents`: every completion listener is removed before one is added, so
        exactly one is left whatever there were before. */
    method SetDrawingToolsEvents() returns (calls: seq<DrawCall>)
      modifies this
      ensures completedListeners == 1 && calls == [OffCompleted, OnCompleted]
      ensures ready == old(ready) && provider == old(provider) && tools == old(tools) && onMap == old(onMap)
    {
      completedListeners := 0;
      completedListeners := completedListeners + 1;
      calls := [OffCompleted, OnCompleted];
    }

    /** `_refreshDrawingTools`: listeners reset, the control's tools record rebuilt from the
        current tools, and the control added to the map. Without a control, reading its options
        dereferences undefined. */
    method RefreshDrawingTools() returns (r: Result<seq<DrawCall>>)
      modifies this
      ensures completedListeners == 1
      ensures old(provider).None? ==> r == Threw(UndefinedDereference) && provider == None && onMap == old(onMap)
      ensures old(provider).Some? ==>
        && provider == Some(old(provider).value.(draw := ToolsFor(tools)))
        && onMap
        && r == Ok([OffCompleted, OnCompleted, SetDrawingOptions(ToolsFor(tools)), AddControl])
      ensures ready == old(ready) && tools == old(tools)
    {
      var events := SetDrawingToolsEvents();
      if provider.None? {
        return Threw(UndefinedDereference);
      }
      var draw := GetTools(tools);
      provider := Some(provider.value.(draw := draw));
      onMap := true;
      r := Ok(events + [SetDrawingOptions(draw), AddControl]);
      assert r.value == [OffCompleted, OnCompleted, SetDrawingOptions(draw), AddControl];
    }

    /** `build`: the tools layer is added to the map, the control created at the configured
        position (TOP_LEFT when that is invalid, after reporting it) with the tools record,
        every tool built, the control refreshed onto the map, and the build finished. */
    method Build(configuredPosition: Option<string>) returns (calls: seq<DrawCall>, reports: seq<Report>)
      modifies this
      ensures ready && onMap && completedListeners == 1
      ensures provider == Some(Control(BuildPosition(configuredPosition), ToolsFor(tools)))
      ensures tools == old(tools)
      ensures |reports| <= 1
      ensures reports == DrawingToolsPosition(if configuredPosition.Some? then configuredPosition.value else "undefined").1
      ensures calls == [AddLayer] + BuildCalls(tools) + [OffCompleted, OnCompleted, SetDrawingOptions(ToolsFor(tools)), AddControl]
    {
      var name := if configuredPosition.Some? then configuredPosition.value else "undefined";
      var looked := DrawingToolsPosition(name);
      reports := looked.1;
      var position := if looked.0.Some? then looked.0.value else TopLeft;
      var draw := GetTools(tools);
      provider := Some(Control(position, draw));
      calls := [AddLayer] + BuildCalls(tools);
      var refresh := RefreshDrawingTools();
      calls := calls + refresh.value;
      ready := true;
    }

    /** `addTool`: the base class takes the tool; a ready control builds it and refreshes. */
    method AddTool(tool: Tool) returns (r: Result<Tool>, calls: seq<DrawCall>)
      modifies this
      ensures tools == old(tools) + [tool] && ready == old(ready)
      ensures !old(ready) ==> r == Ok(tool) && calls == [] && provider == old(provider)
      ensures old(ready) && old(provider).Some? ==>
        && r == Ok(tool)
        && calls == [BuildTool(tool.uniqueId), OffCompleted, OnCompleted, SetDrawingOptions(ToolsFor(tools)), AddControl]
        && provider == Some(old(provider).value.(draw := ToolsFor(tools)))
    {
      tools := tools + [tool];
      calls := [];
      if ready {
        var refresh := RefreshDrawingTools();
        if refresh.Threw? {
          return Threw(refresh.error), [BuildTool(tool.uniqueId)];
        }
        calls := [BuildTool(tool.uniqueId)] + refresh.value;
      }
      r := Ok(tool);
    }

    /** `changeProperty`: a ready control moves to a valid new position; an invalid one is
        reported and the control stays where it is. Other names, and a control not ready,
        reach only the base class. */
    method ChangeProperty(name: string, value: string) returns (calls: seq<DrawCall>, reports: seq<Report>)
      modifies this
      ensures ready == old(ready) && tools == old(tools) && onMap == old(onMap)
      ensures !(ready && name == "position") ==> calls == [] && reports == [] && provider == old(provider)
      ensures ready && name == "position" && PositionNamed(value).Some? && old(provider).Some? ==>
        && calls == [SetPosition(PositionNamed(value).value)] && reports == []
        && provider == Some(old(provider).value.(position := PositionNamed(value).value))
      ensures ready && name == "position" && PositionNamed(value).None? ==>
        calls == [] && reports == [Report(CFG_InvalidDrawingToolsPosition, value)] && provider == old(provider)
    {
      calls := [];
      reports := [];
      if ready && name == "position" {
        var looked := DrawingToolsPosition(value);
        reports := looked.1;
        if looked.0.Some? && provider.Some? {
          provider := Some(provider.value.(position := looked.0.value));
          calls := [SetPosition(looked.0.value)];
        }
      }
    }

    /** `removeTool`: the base class drops the tool, then the control is refreshed whether or
        not it is ready, which throws when it was never built. */
    method RemoveTool(toolId: string) returns (r: Result<seq<DrawCall>>)
      modifies this
      ensures tools == Without(old(tools), toolId) && ready == old(ready)
      ensures completedListeners == 1
      ensures old(provider).None? ==> r == Threw(UndefinedDereference) && provider == None
      ensures old(provider).Some? ==>
        && provider == Some(old(provider).value.(draw := ToolsFor(tools)))
        && onMap
        && r == Ok([OffCompleted, OnCompleted, SetDrawingOptions(ToolsFor(tools)), AddControl])
    {
      tools := Without(tools, toolId);
      r := RefreshDrawingTools();
    }

    /** `refreshProviderEvents`: listeners are reset only when the control is ready. */
    method RefreshProviderEvents() returns (calls: seq<DrawCall>)
      modifies this
      ensures old(ready) ==> completedListeners == 1 && calls == [OffCompleted, OnCompleted]
      ensures !old(ready) ==> completedListeners == old(completedListeners) && calls == []
      ensures ready == old(ready) && provider == old(provider) && tools == old(tools) && onMap == old(onMap)
    {
      calls := [];
      if ready {
        calls := SetDrawingToolsEvents();
      }
    }

    /** The completion listener: each tool of the completed layer's type receives the event. */
    method AddCompletedEventHandler(layerType: ToolType) returns (calls: seq<DrawCall>)
      ensures calls == CompletedCalls(CompletedTargets(tools, layerType))
    {
      var targets := CompletedTargets(tools, layerType);
      calls := CompletedCalls(targets);
    }

    /** `dispose`: a ready control leaves the map; the control is always dropped. The base
        class's own dispose follows and is not part of this model. */
    method Dispose() returns (calls: seq<DrawCall>)
      modifies this
      ensures provider == None
      ensures old(ready) ==> !onMap && calls == [RemoveControl]
      ensures !old(ready) ==> onMap == old(onMap) && calls == []
      ensures tools == old(tools) && completedListeners == old(completedListeners)
    {
      calls := [];
      if ready {
        onMap := false;
        calls := [RemoveControl];
      }
      provider := None;
    }
  }

  /** However often a built control is refreshed, exactly one completion listener remains. */
  method BuildAddRefresh(position: Option<string>, t1: Tool, t2: Tool) returns (listeners: nat)
    ensures listeners == 1
  {
    var d := new DrawingTools();
    var calls, reports := d.Build(position);
    var r1, c1 := d.AddTool(t1);
    var r2, c2 := d.AddTool(t2);
    calls := d.RefreshProviderEvents();
    listeners := d.completedListeners;
  }

  /** Adding a fresh tool to a built control and removing it again leaves the control's tools
      record as it was. */
  method AddRemoveRestores(d: DrawingTools, tool: Tool) returns (restored: bool)
    requires d.provider.Some?
    requires forall i :: 0 <= i < |d.tools| ==> d.tools[i].uniqueId != tool.uniqueId
    modifies d
    ensures restored && d.tools == old(d.tools)
    ensures d.provider == Some(old(d.provider).value.(draw := ToolsFor(old(d.tools))))
  {
    var before := d.tools;
    var added, c1 := d.AddTool(tool);
    var r := d.RemoveTool(tool.uniqueId);
    AddThenRemove(before, tool);
    restored := d.tools == before;
  }
}
