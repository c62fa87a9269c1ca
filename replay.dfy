/** The undo stack and the project data stepped together, as one value:
    the setting in which the round trips hold. */
module Replay {
  import opened Callbacks
  import opened Projects
  import opened Commands
  import opened History
  import opened UndoStacks
  import opened Dispatch
  import EF = EventsFunctionsState
  import PS = ProjectSettingsState

  /** A raw stack together with the data of the one project its items act on. */
  datatype Machine = Machine(raw: Raw<StackItem>, data: ProjectData)

  /** A fresh class-based stack over data `d`. */
  function Start(d: ProjectData): Machine
  {
    Machine(History.Raw([], StackItem(BeginName, Inert), []), d)
  }

  function AfterUndo(m: Machine): Machine
  {
    if m.raw.past == [] then m
    else Machine(Undone(m.raw), UndoEffect(m.raw.present, m.data))
  }

  predicate CanRedo(m: Machine)
  {
    m.raw.future != [] ==> Redoable(m.raw.future[0], m.data)
  }

  function AfterRedo(m: Machine): Machine
    requires CanRedo(m)
  {
    if m.raw.future == [] then m
    else Machine(Redone(m.raw), RedoEffect(m.raw.future[0], m.data))
  }

  function AfterDispatch(m: Machine, p: Project, cb: CallbackList, call: Call): Machine
    requires Defined(m.data, call)
  {
    Machine(Pushed(m.raw, DispatchedItem(m.data, p, cb, call)), After(m.data, call))
  }

  /** The invariant the round trips rely on: `states[k]` is the data with the
      first k+1 timeline items applied, the present's entry is the current
      data, and each item's redo leads from its predecessor's entry to its
      own while its undo leads back. */
  ghost predicate Coherent(m: Machine, states: seq<ProjectData>)
  {
    var t := Timeline(m.raw);
    |states| == |t| && states[|m.raw.past|] == m.data &&
    forall k :: 0 < k < |t| ==>
      Redoable(t[k], states[k - 1]) && RedoEffect(t[k], states[k - 1]) == states[k] &&
      UndoEffect(t[k], states[k]) == states[k - 1]
  }

  lemma StartCoherent(d: ProjectData)
    ensures Coherent(Start(d), [d])
  {
  }

  /** Dispatching keeps the invariant: the dropped future's entries go, and
      the new item's entry is the post-dispatch data. */
  lemma DispatchKeepsCoherent(m: Machine, states: seq<ProjectData>, p: Project, cb: CallbackList, call: Call)
    requires Coherent(m, states) && Defined(m.data, call)
    ensures Coherent(AfterDispatch(m, p, cb, call), states[..|m.raw.past| + 1] + [After(m.data, call)])
  {
    var m2 := AfterDispatch(m, p, cb, call);
    var s2 := states[..|m.raw.past| + 1] + [After(m.data, call)];
    var t, t2 := Timeline(m.raw), Timeline(m2.raw);
    var n := |m.raw.past|;
    assert |t2| == n + 2;
    forall k | 0 < k < |t2|
      ensures Redoable(t2[k], s2[k - 1]) && RedoEffect(t2[k], s2[k - 1]) == s2[k]
      ensures UndoEffect(t2[k], s2[k]) == s2[k - 1]
    {
      if k <= n {
        assert t2[k] == t[k] && s2[k] == states[k] && s2[k - 1] == states[k - 1];
      } else {
        assert s2[k - 1] == states[n] == m.data;
        RevertUndoesAfter(m.data, call);
      }
    }
  }

  lemma UndoKeepsCoherent(m: Machine, states: seq<ProjectData>)
    requires Coherent(m, states)
    ensures Coherent(AfterUndo(m), states)
    ensures m.raw.past != [] ==> AfterUndo(m).data == states[|m.raw.past| - 1]
  {
    MovesKeepTimeline(m.raw);
    if m.raw.past != [] {
      var n := |m.raw.past|;
      assert Timeline(m.raw)[n] == m.raw.present;
    }
  }

  lemma RedoKeepsCoherent(m: Machine, states: seq<ProjectData>)
    requires Coherent(m, states)
    ensures CanRedo(m) && Coherent(AfterRedo(m), states)
    ensures m.raw.future != [] ==> AfterRedo(m).data == states[|m.raw.past| + 1]
  {
    MovesKeepTimeline(m.raw);
    if m.raw.future != [] {
      var n := |m.raw.past|;
      assert Timeline(m.raw)[n + 1] == m.raw.future[0];
    }
  }

  /** On any coherent machine, undo then redo, and redo then undo, give back
      the exact stack and data. */
  lemma UndoRedoRoundTrip(m: Machine, states: seq<ProjectData>)
    requires Coherent(m, states)
    ensures m.raw.past != [] ==> CanRedo(AfterUndo(m)) && AfterRedo(AfterUndo(m)) == m
    ensures m.raw.future != [] ==> CanRedo(m) && AfterUndo(AfterRedo(m)) == m
  {
    UndoRedoInverse(m.raw);
    UndoKeepsCoherent(m, states);
    RedoKeepsCoherent(m, states);
    if m.raw.past != [] {
      RedoKeepsCoherent(AfterUndo(m), states);
    }
    if m.raw.future != [] {
      UndoKeepsCoherent(AfterRedo(m), states);
    }
  }

  /** Dispatching and undoing at once restores the data and the present,
      and leaves exactly the undone item waiting in the future. */
  lemma DispatchThenUndo(m: Machine, p: Project, cb: CallbackList, call: Call)
    requires Defined(m.data, call)
    ensures AfterUndo(AfterDispatch(m, p, cb, call)) ==
      Machine(History.Raw(m.raw.past, m.raw.present, [DispatchedItem(m.data, p, cb, call)]), m.data)
  {
    RevertUndoesAfter(m.data, call);
  }

  /** A dispatch after an undo throws the undone branch away: the next redo
      changes nothing. */
  lemma DispatchAfterUndoDropsRedo(m: Machine, p: Project, cb: CallbackList, call: Call)
    requires Defined(AfterUndo(m).data, call)
    ensures var b := AfterDispatch(AfterUndo(m), p, cb, call); CanRedo(b) && AfterRedo(b) == b
  {
  }

  /** One dispatch of a run: the call, and the listener list of the state
      manager it goes through. Every manager has its own list, and all of
      them push onto the one shared stack. */
  datatype Step = Step(onUpdate: CallbackList, call: Call)

  predicate AllDefined(d: ProjectData, steps: seq<Step>)
    decreases |steps|
  {
    steps == [] || (Defined(d, steps[0].call) && AllDefined(After(d, steps[0].call), steps[1..]))
  }

  function DispatchAll(m: Machine, p: Project, steps: seq<Step>): Machine
    requires AllDefined(m.data, steps)
    decreases |steps|
  {
    if steps == [] then m
    else DispatchAll(AfterDispatch(m, p, steps[0].onUpdate, steps[0].call), p, steps[1..])
  }

  /** The items a run of dispatches pushes, oldest first. */
  function ItemsOf(d: ProjectData, p: Project, steps: seq<Step>): seq<StackItem>
    requires AllDefined(d, steps)
    decreases |steps|
  {
    if steps == [] then []
    else [DispatchedItem(d, p, steps[0].onUpdate, steps[0].call)] + ItemsOf(After(d, steps[0].call), p, steps[1..])
  }

  function UndoTimes(m: Machine, n: nat): Machine
  {
    if n == 0 then m else AfterUndo(UndoTimes(m, n - 1))
  }

  predicate RedoableTimes(m: Machine, n: nat)
    decreases n
  {
    n == 0 || (CanRedo(m) && RedoableTimes(AfterRedo(m), n - 1))
  }

  function RedoTimes(m: Machine, n: nat): Machine
    requires RedoableTimes(m, n)
    decreases n
  {
    if n == 0 then m else RedoTimes(AfterRedo(m), n - 1)
  }

  /** N dispatches, each through any state's listener list, followed by N
      undos restore the original data, past and present; the N items wait in
      the future in dispatch order. */
  lemma {:induction false} DispatchesThenUndos(m: Machine, p: Project, steps: seq<Step>)
    requires AllDefined(m.data, steps)
    ensures UndoTimes(DispatchAll(m, p, steps), |steps|) ==
      Machine(History.Raw(m.raw.past, m.raw.present, if steps == [] then m.raw.future else ItemsOf(m.data, p, steps)), m.data)
    decreases |steps|
  {
    if steps != [] {
      var c := steps[0].call;
      var m1 := AfterDispatch(m, p, steps[0].onUpdate, c);
      DispatchesThenUndos(m1, p, steps[1..]);
      var rest := ItemsOf(m1.data, p, steps[1..]);
      var mid := UndoTimes(DispatchAll(m1, p, steps[1..]), |steps| - 1);
      assert mid == Machine(History.Raw(m1.raw.past, m1.raw.present, rest), m1.data);
      assert UndoTimes(DispatchAll(m, p, steps), |steps|) == AfterUndo(mid);
      RevertUndoesAfter(m.data, c);
      assert m1.raw.past[..|m1.raw.past| - 1] == m.raw.past;
      assert ItemsOf(m.data, p, steps) == [m1.raw.present] + rest;
    }
  }

  /** From the state N undos reach, N redos replay the dispatches: every redo
      is defined and the result is the post-dispatch machine. */
  lemma {:induction false} UndosThenRedos(m: Machine, p: Project, steps: seq<Step>)
    requires AllDefined(m.data, steps)
    ensures var u := Machine(History.Raw(m.raw.past, m.raw.present, ItemsOf(m.data, p, steps)), m.data);
      RedoableTimes(u, |steps|) && RedoTimes(u, |steps|).data == DispatchAll(m, p, steps).data &&
      (steps != [] ==> RedoTimes(u, |steps|) == DispatchAll(m, p, steps))
    decreases |steps|
  {
    if steps != [] {
      var m1 := AfterDispatch(m, p, steps[0].onUpdate, steps[0].call);
      var u := Machine(History.Raw(m.raw.past, m.raw.present, ItemsOf(m.data, p, steps)), m.data);
      var u1 := Machine(History.Raw(m1.raw.past, m1.raw.present, ItemsOf(m1.data, p, steps[1..])), m1.data);
      assert AfterRedo(u) == u1;
      UndosThenRedos(m1, p, steps[1..]);
      if steps[1..] == [] {
        assert u1 == m1;
      }
    }
  }

  /** The whole cycle: N dispatches through any mix of states, N undos back
      to the original data, N redos forward to the post-dispatch data. */
  lemma DispatchUndoRedoCycle(m: Machine, p: Project, steps: seq<Step>)
    requires AllDefined(m.data, steps) && steps != []
    ensures var d := DispatchAll(m, p, steps);
      var u := UndoTimes(d, |steps|);
      u.data == m.data && u.raw.past == m.raw.past && u.raw.present == m.raw.present &&
      RedoableTimes(u, |steps|) && RedoTimes(u, |steps|) == d
  {
    DispatchesThenUndos(m, p, steps);
    UndosThenRedos(m, p, steps);
  }

  /** Two states sharing the stack: setName("Bar") through the settings
      state's listeners, then add("x") through the list state's listeners;
      two undos restore both fields, and two redos replay both. */
  lemma CrossStateWalk(d: ProjectData, p: Project, settings: CallbackList, functions: CallbackList)
    ensures var steps := [Step(settings, Settings(PS.SetName("Bar"))), Step(functions, Events(EF.Add("x")))];
      var after := DispatchAll(Start(d), p, steps);
      after.data == d.(name := "Bar", eventsFunctions := d.eventsFunctions + ["x"]) &&
      UndoTimes(after, 2).data == d &&
      RedoableTimes(UndoTimes(after, 2), 2) && RedoTimes(UndoTimes(after, 2), 2) == after
  {
    var steps := [Step(settings, Settings(PS.SetName("Bar"))), Step(functions, Events(EF.Add("x")))];
    assert steps[1..] == [steps[1]];
    assert steps[1..][1..] == [];
    var m1 := AfterDispatch(Start(d), p, settings, Settings(PS.SetName("Bar")));
    assert m1.data == d.(name := "Bar");
    var m2 := AfterDispatch(m1, p, functions, Events(EF.Add("x")));
    assert DispatchAll(m1, p, steps[1..]) == DispatchAll(m2, p, []) == m2;
    DispatchUndoRedoCycle(Start(d), p, steps);
  }

  /** add "x", add "y", undo, add "z" gives L + ["x", "z"]; the redo that
      follows changes nothing. */
  lemma BranchWalk(d: ProjectData, p: Project, cb: CallbackList)
    ensures var m1 := AfterDispatch(Start(d), p, cb, Events(EF.Add("x")));
      var m2 := AfterDispatch(m1, p, cb, Events(EF.Add("y")));
      var m3 := AfterUndo(m2);
      var m4 := AfterDispatch(m3, p, cb, Events(EF.Add("z")));
      m1.data.eventsFunctions == d.eventsFunctions + ["x"] &&
      m2.data.eventsFunctions == d.eventsFunctions + ["x", "y"] &&
      m3.data.eventsFunctions == d.eventsFunctions + ["x"] &&
      m4.data.eventsFunctions == d.eventsFunctions + ["x", "z"] &&
      CanRedo(m4) && AfterRedo(m4) == m4
  {
    var m1 := AfterDispatch(Start(d), p, cb, Events(EF.Add("x")));
    var m2 := AfterDispatch(m1, p, cb, Events(EF.Add("y")));
    assert (d.eventsFunctions + ["x"]) + ["y"] == d.eventsFunctions + ["x", "y"];
    assert (d.eventsFunctions + ["x", "y"])[..|d.eventsFunctions| + 1] == d.eventsFunctions + ["x"];
    assert (d.eventsFunctions + ["x"]) + ["z"] == d.eventsFunctions + ["x", "z"];
  }

  /** remove(0) on ["a", "b"] leaves
      ["b"], and undo puts "a" back at index 0. */
  lemma RemoveWalk(name: string, author: string, p: Project, cb: CallbackList)
    ensures var m0 := Start(ProjectData(name, author, ["a", "b"]));
      var m1 := AfterDispatch(m0, p, cb, Events(EF.Remove(0)));
      m1.data.eventsFunctions == ["b"] && AfterUndo(m1).data.eventsFunctions == ["a", "b"]
  {
    var l: seq<string> := ["a", "b"];
    assert l[..0] + l[1..] == ["b"];
    assert ["b"][..0] + ["a"] + ["b"][0..] == ["a", "b"];
  }

  /** From "Foo", setName("Bar") leaves one
      past entry, the "begin" sentinel; undo gives "Foo", redo "Bar". */
  lemma RenameWalk(author: string, events: seq<string>, p: Project, cb: CallbackList)
    ensures var m0 := Start(ProjectData("Foo", author, events));
      var m1 := AfterDispatch(m0, p, cb, Settings(PS.SetName("Bar")));
      var m2 := AfterUndo(m1);
      m1.data.name == "Bar" && m1.raw.past == [StackItem(BeginName, Inert)] &&
      m2.data.name == "Foo" && CanRedo(m2) && AfterRedo(m2).data.name == "Bar"
  {
  }

  /** Every Command item of the timeline acts on project `p`. */
  ghost predicate OnlyTargets(r: Raw<StackItem>, p: Project)
  {
    forall item | item in Timeline(r) :: item.action.Command? ==> item.action.project == p
  }

  /** On a stack whose items all act on `p`, UndoStack.Undo steps the stack
      and `p` exactly as AfterUndo does. */
  method UndoOn(stack: UndoStack, p: Project)
    requires OnlyTargets(stack.Raw(), p)
    modifies stack, stack.trace, p
    ensures Machine(stack.Raw(), p.Data()) == AfterUndo(old(Machine(stack.Raw(), p.Data())))
    ensures OnlyTargets(stack.Raw(), p)
  {
    assert stack.present in Timeline(stack.Raw());
    stack.Undo();
    MovesKeepTimeline(old(stack.Raw()));
  }

  /** The same for UndoStack.Redo and AfterRedo. */
  method RedoOn(stack: UndoStack, p: Project)
    requires OnlyTargets(stack.Raw(), p) && CanRedo(Machine(stack.Raw(), p.Data()))
    modifies stack, stack.trace, p
    ensures Machine(stack.Raw(), p.Data()) == AfterRedo(old(Machine(stack.Raw(), p.Data())))
    ensures OnlyTargets(stack.Raw(), p)
  {
    if stack.future != [] {
      assert stack.future[0] in Timeline(stack.Raw());
    }
    stack.Redo();
    MovesKeepTimeline(old(stack.Raw()));
  }

  /** The same for a dispatch on `p` and AfterDispatch. */
  method DispatchOn(stack: UndoStack, p: Project, cb: CallbackList, call: Call)
    requires OnlyTargets(stack.Raw(), p) && Defined(p.Data(), call)
    modifies stack, stack.trace, p
    ensures Machine(stack.Raw(), p.Data()) == AfterDispatch(old(Machine(stack.Raw(), p.Data())), p, cb, call)
    ensures OnlyTargets(stack.Raw(), p)
  {
    Invoke(stack, p, cb, call);
  }
}
