/** The module-level variant: createProjectState(stateDesc) builds one
    state hook on the single module-level stack, with its listeners kept in
    a plain array. */
module LibProjectState {
  import opened Effects
  import opened Callbacks
  import opened Projects
  import opened Commands
  import opened History
  import opened UndoStacks
  import opened Dispatch
  import ProjectSettingsState

  /** What one createProjectState(stateDesc) call closes over. */
  class ProjectStateHook {
    const kind: Kind
    const project: Project
    /** The module-level stack every hook pushes onto. */
    const stack: UndoStack
    /** The `onUpdate` array: a callback mounted twice is stored twice. */
    const onUpdate: CallbackList
    const dispatchers: map<string, Dispatcher>

    constructor (kind: Kind, project: Project, stack: UndoStack)
      ensures this.kind == kind && this.project == project && this.stack == stack
      ensures fresh(onUpdate) && onUpdate.ids == []
      ensures dispatchers.Keys == set k | k in Declarations(kind)
      ensures forall k :: k in dispatchers ==> dispatchers[k] == Dispatcher(k)
    {
      var ds := BuildDispatchers(Declarations(kind));
      this.kind, this.project, this.stack := kind, project, stack;
      onUpdate := new CallbackList();
      dispatchers := ds;
    }

    /** `update`: every stored callback, once per entry, in order. */
    method Update()
      modifies stack.trace
      ensures stack.trace.events == old(stack.trace.events) + Notifications(onUpdate.ids)
    {
      onUpdate.CallAll(stack.trace);
    }

    /** The hook's effect: registers the component's forceUpdate. */
    method Mount(f: ListenerId)
      modifies onUpdate
      ensures onUpdate.ids == old(onUpdate.ids) + [f]
    {
      onUpdate.Push(f);
    }

    /** The effect's cleanup, splice(indexOf(f), 1) without a guard. */
    method Unmount(f: ListenerId)
      modifies onUpdate
      ensures onUpdate.ids == SplicedOut(old(onUpdate.ids), f)
    {
      onUpdate.SpliceIndexOf(f);
    }

    /** The hook's return value: the current state and the wrapper table. */
    method Use() returns (state: Shape, ds: map<string, Dispatcher>)
      ensures kind == EventsFunctions ==> state == FunctionsList(project.eventsFunctions)
      ensures kind == ProjectSettings ==>
        state == SettingsRecord(ProjectSettingsState.Settings(project.name, project.author))
      ensures ds == dispatchers
    {
      state := StateOf(kind, project.Data());
      ds := dispatchers;
    }

    /** Invokes `dispatchers[Key(call)]`. */
    method Dispatch(call: Call)
      requires Key(call) in dispatchers && Defined(project.Data(), call)
      modifies stack, stack.trace, project
      ensures project.Data() == After(old(project.Data()), call)
      ensures stack.Raw() == Pushed(old(stack.Raw()), DispatchedItem(old(project.Data()), project, onUpdate, call))
      ensures stack.trace.events == old(stack.trace.events) + Alerts(call) +
        Notifications(stack.onUpdateStack.ids) + Notifications(onUpdate.ids)
    {
      Invoke(stack, project, onUpdate, call);
    }
  }

  /** The first position of `f` in a list is what indexOf returns. */
  lemma {:induction false} IndexOfFirst(l: seq<ListenerId>, f: ListenerId, a: int)
    requires 0 <= a < |l| && l[a] == f && f !in l[..a]
    ensures IndexOf(l, f) == a
    decreases a
  {
    if a > 0 {
      assert l[0] == l[..a][0];
      assert l[1..][..a - 1] == l[..a][1..];
      IndexOfFirst(l[1..], f, a - 1);
    }
  }

  /** A mount followed by its cleanup restores the array when `f` was not
      registered; otherwise the cleanup removes the earlier registration,
      so the contents are kept but `f` moves to the end. */
  lemma MountThenUnmount(ids: seq<ListenerId>, f: ListenerId)
    ensures f !in ids ==> SplicedOut(ids + [f], f) == ids
    ensures f in ids ==> SplicedOut(ids + [f], f) == Unsubscribed(ids, f) + [f]
    ensures f in ids ==> multiset(SplicedOut(ids + [f], f)) == multiset(ids)
  {
    var l := ids + [f];
    if f !in ids {
      assert l[..|ids|] == ids;
      IndexOfFirst(l, f, |ids|);
      assert l[..|ids|] + l[|ids| + 1..] == ids;
    } else {
      var j := IndexOf(ids, f);
      assert l[..j] == ids[..j];
      IndexOfFirst(l, f, j);
      assert l[..j] + l[j + 1..] == ids[..j] + ids[j + 1..] + [f];
      assert ids == ids[..j] + [f] + ids[j + 1..];
    }
  }
}
