/** The dispatcher wrapper both createProjectState variants build around
    each declaration: run it once, push one item, notify. */
module Dispatch {
  import opened Effects
  import opened Callbacks
  import opened Projects
  import opened Commands
  import opened History
  import opened UndoStacks

  /** The wrapper built for the declaration stored under `name`; invoking it
      is Invoke with a call whose key is `name`. */
  datatype Dispatcher = Dispatcher(name: string)

  /** The loop over the descriptor's declarations: one wrapper per key. */
  method BuildDispatchers(keys: seq<string>) returns (ds: map<string, Dispatcher>)
    ensures ds.Keys == set k | k in keys
    ensures forall k :: k in ds ==> ds[k] == Dispatcher(k)
  {
    ds := map[];
    var i := 0;
    while i < |keys|
      invariant 0 <= i <= |keys|
      invariant ds.Keys == set k | k in keys[..i]
      invariant forall k :: k in ds ==> ds[k] == Dispatcher(k)
    {
      assert keys[..i + 1] == keys[..i] + [keys[i]];
      ds := ds[keys[i] := Dispatcher(keys[i])];
      i := i + 1;
    }
    assert keys[..i] == keys;
  }

  /** The item a dispatch pushes: named after the dispatcher key, undoing
      with the inverse the first run returned, redoing with the same call. */
  function DispatchedItem(d: ProjectData, project: Project, onUpdate: CallbackList, call: Call): StackItem
    requires Defined(d, call)
  {
    StackItem(Key(call), Command(project, onUpdate, call, InverseOf(d, call)))
  }

  /** Invoking a dispatcher: the declaration runs once, one item is pushed
      (so the stack's subscribers are called), then the state's own
      listeners are called. */
  method Invoke(stack: UndoStack, project: Project, onUpdate: CallbackList, call: Call)
    requires Defined(project.Data(), call)
    modifies stack, stack.trace, project
    ensures project.Data() == After(old(project.Data()), call)
    ensures stack.Raw() == Pushed(old(stack.Raw()), DispatchedItem(old(project.Data()), project, onUpdate, call))
    ensures stack.trace.events ==
      old(stack.trace.events) + Alerts(call) + Notifications(stack.onUpdateStack.ids) + Notifications(onUpdate.ids)
  {
    var undo := Run(project, stack.trace, call);
    stack.Push(StackItem(Key(call), Command(project, onUpdate, call, undo)));
    onUpdate.CallAll(stack.trace);
  }
}
