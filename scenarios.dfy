/** The example application's walks, stated as methods on the classes:
    the undo stack, the example project, and the state managers built on
    them. */
module Scenarios {
  import opened Effects
  import opened Projects
  import opened Commands
  import opened UndoStacks
  import opened ProjectStates
  import opened Replay
  import EF = EventsFunctionsState
  import PS = ProjectSettingsState

  /** Renaming "Foo" to "Bar", undoing and redoing: the name goes Bar,
      Foo, Bar. */
  method RenameScenario() returns (names: seq<string>)
    ensures names == ["Bar", "Foo", "Bar"]
  {
    var trace := new Trace();
    var stack := new UndoStack(trace);
    var p := new Project.Example();
    var settings := new StateManager(ProjectSettingsDescriptor, p, stack);
    var call := Settings(PS.SetName("Bar"));
    RerunAfterRevert(ExampleData, call);
    RevertUndoesAfter(ExampleData, call);
    settings.Dispatch(call);
    var afterDispatch := p.name;
    stack.Undo();
    assert p.Data() == ExampleData;
    var afterUndo := p.name;
    stack.Redo();
    assert p.Data() == After(ExampleData, call);
    names := [afterDispatch, afterUndo, p.name];
  }

  /** A rename with component 1 watching the settings and component 2
      watching the stack: the stack watcher is called first, then the state
      watcher, once each. */
  method NotificationScenario() returns (events: seq<Event>)
    ensures events == [Notified(2), Notified(1)]
  {
    var trace := new Trace();
    var stack := new UndoStack(trace);
    var p := new Project.Example();
    var settings := new StateManager(ProjectSettingsDescriptor, p, stack);
    var call := Settings(PS.SetName("Bar"));
    settings.Subscribe(1);
    stack.Subscribe(2);
    settings.Dispatch(call);
    events := trace.events;
  }

  /** An empty name is refused with an alert, yet the dispatch is still
      recorded: "setName" becomes the present entry. */
  method RefusedNameScenario() returns (name: string, events: seq<Event>, view: seq<ViewEntry>)
    ensures name == "Foo"
    ensures events == [Alerted(PS.InvalidNameMessage)]
    ensures view == [ViewEntry(BeginName, PastTag), ViewEntry("setName", PresentTag)]
  {
    var trace := new Trace();
    var stack := new UndoStack(trace);
    var p := new Project.Example();
    var settings := new StateManager(ProjectSettingsDescriptor, p, stack);
    settings.Dispatch(Settings(PS.SetName("")));
    name := p.name;
    events := trace.events;
    view := stack.GetStack();
  }

  /** add("x"), add("y"), undo, add("z"), redo on the stack object: the
      new dispatch drops the undone "y", so the final redo does nothing. */
  method BranchScenario() returns (functions: seq<string>, depth: nat)
    ensures functions == ExampleData.eventsFunctions + ["x", "z"]
    ensures depth == 2
  {
    var trace := new Trace();
    var stack := new UndoStack(trace);
    var p := new Project.Example();
    var onUpdate := new Callbacks.CallbackList();
    assert Machine(stack.Raw(), p.Data()) == Start(ExampleData);
    BranchWalk(ExampleData, p, onUpdate);
    DispatchOn(stack, p, onUpdate, Events(EF.Add("x")));
    DispatchOn(stack, p, onUpdate, Events(EF.Add("y")));
    UndoOn(stack, p);
    DispatchOn(stack, p, onUpdate, Events(EF.Add("z")));
    RedoOn(stack, p);
    functions := p.eventsFunctions;
    depth := |stack.past|;
  }

  /** remove(0) then undo puts the first function back in front. */
  method RemoveScenario() returns (afterRemove: seq<string>, afterUndo: seq<string>)
    ensures afterRemove == ["secondExtension"]
    ensures afterUndo == ExampleData.eventsFunctions
  {
    var trace := new Trace();
    var stack := new UndoStack(trace);
    var p := new Project.Example();
    var functionsState := new StateManager(EventsFunctionsDescriptor, p, stack);
    var call := Events(EF.Remove(0));
    RevertUndoesAfter(ExampleData, call);
    functionsState.Dispatch(call);
    afterRemove := p.eventsFunctions;
    stack.Undo();
    assert p.Data() == Reverted(After(ExampleData, call), InverseOf(ExampleData, call));
    afterUndo := p.eventsFunctions;
  }

  /** Both example states created in one registry share its stack:
      setName("Bar") through the settings state, add("x") through the list
      state, then two undos give back the example project. */
  method CrossStateScenario() returns (afterBoth: ProjectData, afterUndos: ProjectData)
    ensures afterBoth == ExampleData.(name := "Bar", eventsFunctions := ExampleData.eventsFunctions + ["x"])
    ensures afterUndos == ExampleData
  {
    var trace := new Trace();
    var registry := new Registry(trace);
    var p := new Project.Example();
    var settings := registry.CreateState(ProjectSettingsDescriptor, p);
    var functions := registry.CreateState(EventsFunctionsDescriptor, p);
    assert Machine(registry.undoStack.Raw(), p.Data()) == Start(ExampleData);
    afterBoth, afterUndos := TwoStatesOn(registry.undoStack, p, settings.onUpdate, functions.onUpdate);
  }

  /** The walk of CrossStateScenario on the stack and the project, with the
      two states' listener lists. */
  method TwoStatesOn(stack: UndoStack, p: Project, settings: Callbacks.CallbackList, functions: Callbacks.CallbackList)
    returns (afterBoth: ProjectData, afterUndos: ProjectData)
    requires Machine(stack.Raw(), p.Data()) == Start(ExampleData)
    modifies stack, stack.trace, p
    ensures afterBoth == ExampleData.(name := "Bar", eventsFunctions := ExampleData.eventsFunctions + ["x"])
    ensures afterUndos == ExampleData
  {
    var rename := Settings(PS.SetName("Bar"));
    var add := Events(EF.Add("x"));
    var d1 := After(ExampleData, rename);
    assert d1 == ExampleData.(name := "Bar");
    RevertUndoesAfter(ExampleData, rename);
    RevertUndoesAfter(d1, add);
    DispatchOn(stack, p, settings, rename);
    DispatchOn(stack, p, functions, add);
    afterBoth := p.Data();
    UndoOn(stack, p);
    assert p.Data() == d1;
    UndoOn(stack, p);
    afterUndos := p.Data();
  }
}
