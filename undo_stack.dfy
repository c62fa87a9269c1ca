/** The undo stack: a past / present / future timeline of named items whose
    undo and redo closures are represented by what they capture. */
module UndoStacks {
  import opened Effects
  import opened Callbacks
  import opened Projects
  import opened History
  import Commands

  /** What an item's undo and redo closures do. */
  datatype Action =
    | Inert   // the sentinel's `() => null` closures
      /** An item pushed by a dispatcher: undo runs `inverse` on `project`
          and then calls the state's `onUpdate` listeners; redo re-runs
          `call` on `project` and then calls them. */
    | Command(project: Project, onUpdate: CallbackList, call: Commands.Call, inverse: Commands.Inverse)

  /** One historised operation, with its display name. */
  datatype StackItem = StackItem(name: string, action: Action)

  /** The sentinel name of the class-based stack. */
  const BeginName := "begin"
  /** The sentinel name of the module-level stack. */
  const ProjectOpenName := "projectOpen"

  datatype Tag = PastTag | PresentTag | FutureTag

  /** One entry of the display view getStack builds. */
  datatype ViewEntry = ViewEntry(name: string, tag: Tag)

  /** The objects an item's closures write to. */
  function Target(item: StackItem): set<object>
  {
    if item.action.Command? then {item.action.project} else {}
  }

  /** How running the item's undo closure changes the project data. */
  function UndoEffect(item: StackItem, d: ProjectData): ProjectData
  {
    match item.action
    case Inert => d
    case Command(_, _, _, inverse) => Commands.Reverted(d, inverse)
  }

  /** The item's redo closure re-runs its call; the model needs the call to
      be defined on the data it is re-run on. */
  predicate Redoable(item: StackItem, d: ProjectData)
  {
    item.action.Command? ==> Commands.Defined(d, item.action.call)
  }

  /** How running the item's redo closure changes the project data. */
  function RedoEffect(item: StackItem, d: ProjectData): ProjectData
    requires Redoable(item, d)
  {
    match item.action
    case Inert => d
    case Command(_, _, call, _) => Commands.After(d, call)
  }

  /** The calls the undo closure makes: the state's listeners. */
  function UndoEvents(item: StackItem): seq<Event>
    reads if item.action.Command? then {item.action.onUpdate} else {}
  {
    match item.action
    case Inert => []
    case Command(_, onUpdate, _, _) => Notifications(onUpdate.ids)
  }

  /** The calls the redo closure makes: the declaration's alerts, then the
      state's listeners. */
  function RedoEvents(item: StackItem): seq<Event>
    reads if item.action.Command? then {item.action.onUpdate} else {}
  {
    match item.action
    case Inert => []
    case Command(_, onUpdate, call, _) => Commands.Alerts(call) + Notifications(onUpdate.ids)
  }

  /** Runs `item.undo()`. */
  method RunUndo(item: StackItem, trace: Trace)
    modifies trace, Target(item)
    ensures item.action.Command? ==>
      item.action.project.Data() == UndoEffect(item, old(item.action.project.Data()))
    ensures trace.events == old(trace.events) + old(UndoEvents(item))
  {
    match item.action
    case Inert =>
    case Command(project, onUpdate, _, inverse) =>
      Commands.RunInverse(project, inverse);
      onUpdate.CallAll(trace);
  }

  /** Runs `item.redo()`; the inverse the re-run returns is thrown away. */
  method RunRedo(item: StackItem, trace: Trace)
    requires item.action.Command? ==> Commands.Defined(item.action.project.Data(), item.action.call)
    modifies trace, Target(item)
    ensures item.action.Command? ==>
      item.action.project.Data() == RedoEffect(item, old(item.action.project.Data()))
    ensures trace.events == old(trace.events) + old(RedoEvents(item))
  {
    match item.action
    case Inert =>
    case Command(project, onUpdate, call, _) =>
      var _ := Commands.Run(project, trace, call);
      onUpdate.CallAll(trace);
  }

  function Tagged(items: seq<StackItem>, tag: Tag): (r: seq<ViewEntry>)
    ensures |r| == |items|
    ensures forall i :: 0 <= i < |items| ==> r[i] == ViewEntry(items[i].name, tag)
  {
    seq(|items|, i requires 0 <= i < |items| => ViewEntry(items[i].name, tag))
  }

  /** The flattened view getStack returns. */
  function View(r: Raw<StackItem>): seq<ViewEntry>
  {
    Tagged(r.past, PastTag) + [ViewEntry(r.present.name, PresentTag)] + Tagged(r.future, FutureTag)
  }

  /** The view has one entry per timeline item, oldest first, with the
      item's name; exactly one entry, at the present's position, is tagged
      present, those before it past and those after it future. */
  lemma ViewShape(r: Raw<StackItem>)
    ensures |View(r)| == |r.past| + 1 + |r.future| == |Timeline(r)|
    ensures forall i :: 0 <= i < |View(r)| ==> View(r)[i].name == Timeline(r)[i].name
    ensures forall i :: 0 <= i < |View(r)| ==> (View(r)[i].tag == PresentTag <==> i == |r.past|)
    ensures forall i :: 0 <= i < |View(r)| ==> (View(r)[i].tag == PastTag <==> i < |r.past|)
  {
    var v, t := View(r), Timeline(r);
    forall i | 0 <= i < |v|
      ensures v[i].name == t[i].name
      ensures v[i].tag == PresentTag <==> i == |r.past|
      ensures v[i].tag == PastTag <==> i < |r.past|
    {
      if i < |r.past| {
        assert v[i] == ViewEntry(r.past[i].name, PastTag);
        assert t[i] == r.past[i];
      } else if i == |r.past| {
        assert t[i] == r.present;
      } else {
        assert v[i] == ViewEntry(r.future[i - |r.past| - 1].name, FutureTag);
        assert t[i] == r.future[i - |r.past| - 1];
      }
    }
  }

  class UndoStack {
    var past: seq<StackItem>
    var present: StackItem
    var future: seq<StackItem>
    /** The update callbacks. */
    const onUpdateStack: CallbackList
    /** Where the callbacks' calls and the declarations' alerts are recorded. */
    const trace: Trace

    function Raw(): Raw<StackItem>
      reads this
    {
      History.Raw(past, present, future)
    }

    /** The class-based stack: a "begin" sentinel and nothing else. */
    constructor (trace: Trace)
      ensures Raw() == History.Raw([], StackItem(BeginName, Inert), [])
      ensures fresh(onUpdateStack) && onUpdateStack.ids == [] && this.trace == trace
    {
      past, present, future := [], StackItem(BeginName, Inert), [];
      onUpdateStack := new CallbackList();
      this.trace := trace;
    }

    /** The module-level stack: a "projectOpen" sentinel and nothing else. */
    constructor ModuleStack(trace: Trace)
      ensures Raw() == History.Raw([], StackItem(ProjectOpenName, Inert), [])
      ensures fresh(onUpdateStack) && onUpdateStack.ids == [] && this.trace == trace
    {
      past, present, future := [], StackItem(ProjectOpenName, Inert), [];
      onUpdateStack := new CallbackList();
      this.trace := trace;
    }

    /** Adds a callback; a callback added twice is called twice. */
    method Subscribe(f: ListenerId)
      modifies onUpdateStack
      ensures onUpdateStack.ids == old(onUpdateStack.ids) + [f]
    {
      onUpdateStack.Push(f);
    }

    /** Removes the first registration of a callback, if there is one. */
    method Unsubscribe(f: ListenerId)
      modifies onUpdateStack
      ensures onUpdateStack.ids == Unsubscribed(old(onUpdateStack.ids), f)
    {
      onUpdateStack.RemoveFirst(f);
    }

    /** The unguarded `splice(indexOf(f), 1)` of the module-level stack's
      cleanup: a callback that is not registered makes it drop the last one. */
    method Detach(f: ListenerId)
      modifies onUpdateStack
      ensures onUpdateStack.ids == SplicedOut(old(onUpdateStack.ids), f)
    {
      onUpdateStack.SpliceIndexOf(f);
    }

    /** Records a new operation, discarding the future, and notifies. */
    method Push(item: StackItem)
      modifies this, trace
      ensures Raw() == Pushed(old(Raw()), item)
      ensures trace.events == old(trace.events) + Notifications(onUpdateStack.ids)
    {
      future := [];
      past := past + [present];
      present := item;
      onUpdateStack.CallAll(trace);
    }

    /** Reverts the present operation and steps back; with an empty past it
      does nothing and notifies nobody. */
    method Undo()
      modifies this, trace, if past == [] then {} else Target(present)
      ensures Raw() == Undone(old(Raw()))
      ensures old(past) == [] ==> trace.events == old(trace.events)
      ensures old(past) != [] ==>
        trace.events == old(trace.events) + old(UndoEvents(present)) + Notifications(onUpdateStack.ids)
      ensures old(past) != [] && old(present).action.Command? ==>
        old(present).action.project.Data() == UndoEffect(old(present), old(present.action.project.Data()))
    {
      if |past| == 0 {
        return;
      }
      RunUndo(present, trace);
      future := [present] + future;
      present := past[|past| - 1];
      past := past[..|past| - 1];
      onUpdateStack.CallAll(trace);
    }

    /** Steps forward and re-applies the new present; with an empty future it
      does nothing and notifies nobody. */
    method Redo()
      requires future != [] && future[0].action.Command? ==>
        Commands.Defined(future[0].action.project.Data(), future[0].action.call)
      modifies this, trace, if future == [] then {} else Target(future[0])
      ensures Raw() == Redone(old(Raw()))
      ensures old(future) == [] ==> trace.events == old(trace.events)
      ensures old(future) != [] ==>
        trace.events == old(trace.events) + old(RedoEvents(future[0])) + Notifications(onUpdateStack.ids)
      ensures old(future) != [] && old(future[0]).action.Command? ==>
        old(future[0]).action.project.Data() == RedoEffect(old(future[0]), old(future[0].action.project.Data()))
    {
      if |future| == 0 {
        return;
      }
      past := past + [present];
      present := future[0];
      future := future[1..];
      RunRedo(present, trace);
      onUpdateStack.CallAll(trace);
    }

    /** The display view: past entries, the present, then future entries. */
    method GetStack() returns (view: seq<ViewEntry>)
      ensures view == View(Raw())
    {
      view := [];
      var i := 0;
      while i < |past|
        invariant 0 <= i <= |past|
        invariant view == Tagged(past[..i], PastTag)
      {
        view := view + [ViewEntry(past[i].name, PastTag)];
        i := i + 1;
      }
      assert past[..i] == past;
      view := view + [ViewEntry(present.name, PresentTag)];
      var j := 0;
      while j < |future|
        invariant 0 <= j <= |future|
        invariant view == Tagged(past, PastTag) + [ViewEntry(present.name, PresentTag)] + Tagged(future[..j], FutureTag)
      {
        view := view + [ViewEntry(future[j].name, FutureTag)];
        j := j + 1;
      }
      assert future[..j] == future;
    }
  }
}
