/** createProjectState of the library entry point: one shared undo stack,
    a name-keyed table of state managers, and createState. */
module ProjectStates {
  import opened Effects
  import opened Callbacks
  import opened Projects
  import opened Commands
  import opened History
  import opened UndoStacks
  import opened Dispatch
  import EventsFunctionsState
  import ProjectSettingsState

  /** A state descriptor: its registration name and its declarations. */
  datatype Descriptor = Descriptor(name: string, kind: Kind)

  /** The two descriptors of the example application. */
  const EventsFunctionsDescriptor := Descriptor(EventsFunctionsState.Name, EventsFunctions)
  const ProjectSettingsDescriptor := Descriptor(ProjectSettingsState.Name, ProjectSettings)

  /** What createState builds from a descriptor. */
  class StateManager {
    const descriptor: Descriptor
    /** The data the descriptor's closures act on. */
    const project: Project
    /** The stack shared by every manager of the same createProjectState call. */
    const undoStack: UndoStack
    /** The `onUpdate` Set, as a duplicate-free list in insertion order. */
    const onUpdate: CallbackList
    const dispatchers: map<string, Dispatcher>

    ghost predicate Valid()
      reads onUpdate
    {
      NoDuplicates(onUpdate.ids) && onUpdate != undoStack.onUpdateStack
    }

    constructor (descriptor: Descriptor, project: Project, undoStack: UndoStack)
      ensures this.descriptor == descriptor && this.project == project && this.undoStack == undoStack
      ensures fresh(onUpdate) && onUpdate.ids == [] && Valid()
      ensures dispatchers.Keys == set k | k in Declarations(descriptor.kind)
      ensures forall k :: k in dispatchers ==> dispatchers[k] == Dispatcher(k)
    {
      var ds := BuildDispatchers(Declarations(descriptor.kind));
      this.descriptor, this.project, this.undoStack := descriptor, project, undoStack;
      onUpdate := new CallbackList();
      dispatchers := ds;
    }

    /** Set.add: a callback subscribed twice is stored once. */
    method Subscribe(f: ListenerId)
      requires Valid()
      modifies onUpdate
      ensures Valid() && onUpdate.ids == SetAdded(old(onUpdate.ids), f)
    {
      SetOperations(onUpdate.ids, f);
      onUpdate.SetAdd(f);
    }

    /** Set.delete: unsubscribing an absent callback does nothing. */
    method Unsubscribe(f: ListenerId)
      requires Valid()
      modifies onUpdate
      ensures Valid() && onUpdate.ids == SetDeleted(old(onUpdate.ids), f)
    {
      SetOperations(onUpdate.ids, f);
      onUpdate.SetDelete(f);
    }

    /** Calls each stored callback once. */
    method ForceUpdate()
      modifies undoStack.trace
      ensures undoStack.trace.events == old(undoStack.trace.events) + Notifications(onUpdate.ids)
    {
      onUpdate.CallAll(undoStack.trace);
    }

    /** The descriptor's getState, passed through. */
    function GetState(): (state: Shape)
      reads project
      ensures descriptor.kind == EventsFunctions ==> state == FunctionsList(project.eventsFunctions)
      ensures descriptor.kind == ProjectSettings ==>
        state == SettingsRecord(ProjectSettingsState.Settings(project.name, project.author))
    {
      StateOf(descriptor.kind, project.Data())
    }

    /** Invokes `dispatchers[Key(call)]` with the call's arguments. */
    method Dispatch(call: Call)
      requires Key(call) in dispatchers && Defined(project.Data(), call)
      modifies undoStack, undoStack.trace, project
      ensures project.Data() == After(old(project.Data()), call)
      ensures undoStack.Raw() ==
        Pushed(old(undoStack.Raw()), DispatchedItem(old(project.Data()), project, onUpdate, call))
      ensures undoStack.trace.events == old(undoStack.trace.events) + Alerts(call) +
        Notifications(undoStack.onUpdateStack.ids) + Notifications(onUpdate.ids)
    {
      Invoke(undoStack, project, onUpdate, call);
    }
  }

  /** The callback lists of the managers stored under `names`, in order. */
  function Listeners(names: seq<string>, states: map<string, StateManager>): (r: seq<seq<ListenerId>>)
    reads set m | m in states.Values :: m.onUpdate
    ensures |r| == |names|
  {
    seq(|names|, k requires 0 <= k < |names| reads set m | m in states.Values :: m.onUpdate =>
      if names[k] in states then states[names[k]].onUpdate.ids else [])
  }

  /** What createProjectState returns. */
  class Registry {
    const undoStack: UndoStack
    var states: map<string, StateManager>
    /** The keys of `states` in the order a for-in or Object.values visits
        them: first insertion order; overwriting keeps a key's place. */
    var order: seq<string>

    ghost predicate Valid()
      reads this
    {
      (forall i, j :: 0 <= i < j < |order| ==> order[i] != order[j]) &&
      (forall n :: n in states <==> n in order) &&
      (forall n | n in states :: states[n].undoStack == undoStack)
    }

    constructor (trace: Trace)
      ensures Valid() && states == map[] && order == []
      ensures fresh(undoStack) && fresh(undoStack.onUpdateStack) && undoStack.trace == trace
      ensures undoStack.Raw() == History.Raw([], StackItem(BeginName, Inert), []) && undoStack.onUpdateStack.ids == []
    {
      undoStack := new UndoStack(trace);
      states, order := map[], [];
    }

    /** Builds a manager on the shared stack and stores it under the
      descriptor's name, replacing any manager already stored there. */
    method CreateState(descriptor: Descriptor, project: Project) returns (m: StateManager)
      requires Valid()
      modifies this
      ensures Valid() && fresh(m) && fresh(m.onUpdate) && m.Valid() && m.onUpdate.ids == []
      ensures m.descriptor == descriptor && m.project == project && m.undoStack == undoStack
      ensures m.dispatchers.Keys == set k | k in Declarations(descriptor.kind)
      ensures states == old(states)[descriptor.name := m]
      ensures order == if descriptor.name in old(states) then old(order) else old(order) + [descriptor.name]
    {
      m := new StateManager(descriptor, project, undoStack);
      if descriptor.name !in states {
        order := order + [descriptor.name];
      }
      states := states[descriptor.name := m];
    }

    /** Calls every registered manager's forceUpdate, in the order
        Object.values lists them; the undo stack's own callbacks are not
        called. Each manager's callbacks are read before any is called. */
    method ForceUpdateAll()
      modifies undoStack.trace
      ensures undoStack.trace.events == old(undoStack.trace.events) + AllNotifications(Listeners(order, states))
    {
      CallEachList(Listeners(order, states), undoStack.trace);
    }
  }
}
