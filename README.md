# create-project-state, modelled in Dafny

create-project-state is a command-pattern state manager for React
applications. A *state descriptor* declares a `getState` function and a
record of *dispatcher declarations*. Each declaration changes the
application's project object in place and returns an *inverse closure*
that undoes the change. `createState` wraps every declaration into a
*dispatcher*. A dispatcher runs the declaration once and pushes one named
item onto a shared linear *undo stack*. The item's undo runs the inverse;
its redo re-runs the declaration with the same arguments. Then the
dispatcher notifies the state's listeners. The undo stack keeps a
three-part timeline: `past` (oldest first), one `present` item, and
`future` (nearest first). It notifies its own subscribers after each
push, and after each undo or redo that moves the cursor.

The model follows the program's structure:

| file | module | models |
|---|---|---|
| effects.dfy | `Effects` | listener callbacks as opaque ids; a `Trace` object records every callback call and every `alert`, in order |
| callbacks.dfy | `Callbacks` | the listener arrays and Sets, and the `push`, `indexOf`/`splice`, `Set.add`/`Set.delete` and `forEach` operations on them |
| project.dfy | `Projects` | the mutable project object, and the example project's initial data |
| events_functions_state.dfy | `EventsFunctionsState` | the `add` / `remove` declarations over `project.eventsFunctions`, and their inverses |
| project_settings_state.dfy | `ProjectSettingsState` | the `setName` / `setAuthor` declarations, and the `{name, author}` record `getState` builds |
| commands.dfy | `Commands` | both descriptors' declarations as one closed set of commands |
| history.dfy | `History` | the raw timeline as a value, and the transitions push, undo and redo make on it |
| undo_stack.dfy | `UndoStacks` | the `UndoStack` class, with stack items whose closures are represented by what they capture |
| dispatch.dfy | `Dispatch` | the dispatcher wrapper both `createProjectState` variants build |
| project_state.dfy | `ProjectStates` | `createProjectState` of the library entry point: state managers, the `states` table, `forceUpdateAll` |
| lib_project_state.dfy | `LibProjectState` | the older hook-based `createProjectState` over the module-level stack |
| replay.dfy | `Replay` | the stack and the project data stepped together as one value, where the round-trip theorems hold |
| scenarios.dfy | `Scenarios` | the example application's walks, stated as methods on the classes |

A closure cannot be compared or reasoned about. So a stack item is a
name plus an `Action`: either the sentinel's inert closures, or a
`Command`. A `Command` holds the project it acts on, the state's listener
list, the call it re-runs, and the inverse the first run returned. The
module-level stack of `src/lib/undoStack.ts` runs the same `push`, `undo`
and `redo` code as the `UndoStack` class of `src/UndoStack.ts`. Both are
therefore the one class `UndoStacks.UndoStack`. The unnamed constructor
builds the "begin" sentinel. `ModuleStack` builds the "projectOpen" one.
`Detach` is the module-level stack's unguarded listener removal.

The round trips are proved about `Replay.Machine`. This value pairs a raw
stack with the data of the one project its items act on. A dispatch
followed by an undo restores the data. An undo then a redo restores
everything. N dispatches then N undos restore the original data, whichever
states' dispatchers made them. A
dispatch after an undo makes the next redo do nothing. `Coherent` is the
invariant behind these facts: every future item's redo leads forward
from its predecessor's data, and every item's undo leads back.
`Replay.UndoOn`, `Replay.RedoOn` and `Replay.DispatchOn` tie the class
methods to these functions.

## Model

| member | source | states |
|---|---|---|
| Callbacks.IndexOf | src/UndoStack.ts:61 | the first position of a callback in the list, or -1 exactly when it is absent |
| Callbacks.UnsubscribeRemovesFirst | src/UndoStack.ts:60-63 | unsubscribe removes only the first registration and keeps the rest in order; an absent callback leaves the list unchanged |
| Callbacks.SplicedOutCases | src/lib/undoStack.ts:25-27 | the unguarded `splice(indexOf(f), 1)` removes the first registration when `f` is registered; when it is absent, it removes the last listener of a non-empty list |
| Callbacks.NotificationsInOrder | src/UndoStack.ts:38-40 | notifying calls the listeners in list order, one call per entry |
| Callbacks.CalledOncePerRegistration | src/UndoStack.ts:53-55 | a callback subscribed k times is called k times per notification; an absent one is never called |
| Callbacks.SetOperations | src/index.ts:240-246 | Set.add stores a callback at most once and is idempotent; Set.delete removes exactly that callback; both keep the Set duplicate-free |
| Callbacks.SetDeleteIsUnsubscribe | src/index.ts:244-246 | on a duplicate-free list, Set.delete removes the same entry as a guarded splice |
| Callbacks.AllNotificationsFlatten | src/index.ts:225-226 | notifying several lists in turn calls each callback once per registration in any of them |
| Callbacks.CallEach | src/index.ts:247 | `forEach(f => f())` calls every entry once, in order |
| Callbacks.CallEachList | src/index.ts:225-226 | calling each list in turn adds exactly the lists' notifications, list by list |
| Callbacks.CallbackList.constructor | src/UndoStack.ts:36 | a new listener list is empty |
| Callbacks.CallbackList.Push | src/lib/createProjectState.ts:43 | push appends the callback, so duplicates are kept |
| Callbacks.CallbackList.RemoveFirst | src/UndoStack.ts:60-63 | the new list is the guarded removal of the callback |
| Callbacks.CallbackList.SpliceIndexOf | src/lib/createProjectState.ts:45 | the new list is the unguarded `splice(indexOf(f), 1)` |
| Callbacks.CallbackList.SetAdd | src/index.ts:241-243 | the new list is Set.add of the callback |
| Callbacks.CallbackList.SetDelete | src/index.ts:244-246 | the new list is Set.delete of the callback |
| Callbacks.CallbackList.CallAll | src/lib/createProjectState.ts:15 | the calls made are the list's notifications, in list order |
| Projects.Project.Example | example/src/states/Project.ts:1-4 | the example project has name "Foo", author "bar" and the two-element function list |
| EventsFunctionsState.Applied | src/states/EventsFunctionsState.ts:9-15 | add appends the name at the end; remove(i) deletes element i and keeps the rest in order |
| EventsFunctionsState.RunAdd | src/states/EventsFunctionsState.ts:9-12 | `add(name)` pushes onto the project's list and returns the pop inverse |
| EventsFunctionsState.RunRemove | src/states/EventsFunctionsState.ts:13-19 | `remove(index)` captures the element at index, splices it out, and returns the reinsertion inverse |
| EventsFunctionsState.RunInverse | src/states/EventsFunctionsState.ts:11-18 | the inverse pops the last element, or splices the captured element back in at its index |
| EventsFunctionsState.RevertUndoesApply | src/states/EventsFunctionsState.ts:14-18 | undo right after add or an in-range remove restores the exact list |
| EventsFunctionsState.RerunAfterRevert | example/src/states/EventsFunctionsState.ts:10-19 | re-running the declaration after its undo, as redo does, gives the post-dispatch list again and would capture the same inverse |
| EventsFunctionsState.RevertAllRestores | example/src/states/EventsFunctionsState.ts:9-20 | any run of adds and in-range removes is cancelled by running their inverses newest first, as the stack undoes them |
| ProjectSettingsState.RunSetName | src/states/ProjectSettingsState.ts:10-17 | `setName` captures the old name; it raises the "Invalid name!" alert and changes nothing for an empty name, and assigns the name otherwise |
| ProjectSettingsState.RunSetAuthor | src/states/ProjectSettingsState.ts:18-24 | `setAuthor` captures the old author and assigns the new one unconditionally |
| ProjectSettingsState.RunInverse | src/states/ProjectSettingsState.ts:14-23 | the inverse writes the captured value back to its field |
| ProjectSettingsState.SetterEffects | src/states/ProjectSettingsState.ts:10-24 | setName touches only the name and only with a non-empty value; setAuthor touches only the author, to any value; only an empty name alerts |
| ProjectSettingsState.RevertUndoesApply | src/states/ProjectSettingsState.ts:14-22 | undo right after either setter restores the record |
| ProjectSettingsState.EmptyNameIsNoop | example/src/states/ProjectSettingsState.ts:13-14 | a refused name leaves the record unchanged, and so does its undo |
| ProjectSettingsState.RerunAfterRevert | example/src/states/ProjectSettingsState.ts:11-25 | re-running a setter after its undo gives the post-dispatch record again and would capture the same inverse |
| ProjectSettingsState.RenameFooToBar | example/src/states/ProjectSettingsState.ts:11-17 | from "Foo": setName("Bar") gives "Bar", undo gives "Foo", redo gives "Bar" |
| Commands.KeyIdentifiesDescriptor | src/index.ts:253 | a dispatcher key belongs to a descriptor exactly when the call is one of that descriptor's declarations |
| Commands.After | src/index.ts:256 | a list declaration never changes the name or author; a settings declaration never changes the list |
| Commands.Reverted | src/index.ts:260 | an inverse changes only the fields its declaration changed |
| Commands.RevertUndoesAfter | src/index.ts:258-262 | the pushed item's undo, run right after the dispatch, gives back the project as it was |
| Commands.RerunAfterRevert | src/index.ts:263-266 | redo re-runs the declaration after undo: it gives the post-dispatch project, and the first inverse stays correct |
| Commands.Run | src/index.ts:256 | running a declaration changes the project as `After` says, returns `InverseOf`, and raises only the declaration's alerts |
| Commands.RunInverse | src/index.ts:260 | running an inverse changes the project as `Reverted` says |
| History.Depths | src/UndoStack.ts:69-103 | push deepens the past by one and empties the future; undo and redo move one item between past and future |
| History.MovesKeepTimeline | src/UndoStack.ts:82-103 | undo and redo leave the timeline past ++ [present] ++ future unchanged |
| History.UndoRedoInverse | src/lib/undoStack.ts:43-61 | undo then redo restores the exact raw stack, and so does redo then undo |
| History.PushAfterUndoDropsRedo | src/lib/undoStack.ts:33-41 | a push after an undo discards the undone branch, so the next redo does nothing |
| History.PushesThenUndos | src/UndoStack.ts:69-90 | N pushes then N undos bring back the old past and present, with the N items in the future in push order |
| UndoStacks.RunUndo | src/index.ts:259-262 | an item's undo runs the captured inverse on its project, then calls its state's listeners; the sentinel's undo does nothing |
| UndoStacks.RunRedo | src/index.ts:263-266 | an item's redo re-runs its call on its project, then calls its state's listeners; the sentinel's redo does nothing |
| UndoStacks.ViewShape | src/UndoStack.ts:108-123 | the view has one entry per timeline item with its name, exactly one tagged present at the present's position, past entries before it and future entries after it |
| UndoStacks.UndoStack.constructor | src/UndoStack.ts:29-36 | a new class-based stack has an empty past and future, a present named "begin", and no subscribers |
| UndoStacks.UndoStack.ModuleStack | src/lib/undoStack.ts:14-20 | the module-level stack starts with an empty past and future, a present named "projectOpen", and no listeners |
| UndoStacks.UndoStack.Subscribe | src/UndoStack.ts:53-55 | subscribe appends the callback |
| UndoStacks.UndoStack.Unsubscribe | src/UndoStack.ts:60-63 | unsubscribe removes the first registration, if there is one |
| UndoStacks.UndoStack.Detach | src/lib/undoStack.ts:24-28 | the module-level stack's cleanup is the unguarded `splice(indexOf(f), 1)` |
| UndoStacks.UndoStack.Push | src/UndoStack.ts:69-77 | the future is emptied, the old present joins the past, the item becomes present, and every subscriber is called once |
| UndoStacks.UndoStack.Undo | src/UndoStack.ts:82-90 | with an empty past nothing changes and nobody is called; otherwise the present's undo runs first, the old present becomes `future[0]`, the last past item becomes present without being re-applied, then subscribers are called |
| UndoStacks.UndoStack.Redo | src/UndoStack.ts:95-103 | with an empty future nothing changes and nobody is called; otherwise the present joins the past, `future[0]` becomes present, its redo runs, then subscribers are called |
| UndoStacks.UndoStack.GetStack | src/UndoStack.ts:108-123 | the returned view is the past, the present and the future, tagged and in timeline order |
| Dispatch.BuildDispatchers | src/index.ts:252-270 | the dispatchers map has exactly the declared keys, with one wrapper each |
| Dispatch.Invoke | src/index.ts:255-268 | a dispatch runs the declaration once, pushes one item named after the key and holding the first inverse, calls the stack's subscribers, then the state's listeners |
| ProjectStates.StateManager.constructor | src/index.ts:240-278 | a new manager has an empty listener Set, the shared stack, and one dispatcher per declared key |
| ProjectStates.StateManager.Subscribe | src/index.ts:241-243 | subscribe is Set.add and keeps the Set duplicate-free |
| ProjectStates.StateManager.Unsubscribe | src/index.ts:244-246 | unsubscribe is Set.delete and keeps the Set duplicate-free |
| ProjectStates.StateManager.ForceUpdate | src/index.ts:247 | forceUpdate calls each stored callback once, in insertion order |
| ProjectStates.StateManager.GetState | src/index.ts:273 | getState gives the current list, or a `{name, author}` record equal to the project's fields |
| ProjectStates.StateManager.Dispatch | src/index.ts:255-268 | a dispatch through a stored key behaves as `Dispatch.Invoke`, on the shared stack |
| ProjectStates.Registry.constructor | src/index.ts:221-223 | a new registry has an empty `states` table and a fresh "begin" stack |
| ProjectStates.Registry.CreateState | src/index.ts:280-283 | the new manager is stored under the descriptor's name, replacing any earlier one; other entries are untouched; the manager pushes onto the registry's stack |
| ProjectStates.Registry.ForceUpdateAll | src/index.ts:225-226 | the calls made are every stored manager's listeners, manager by manager in table order; the stack's subscribers are not called |
| LibProjectState.ProjectStateHook.constructor | src/lib/createProjectState.ts:14-35 | a new hook has an empty listener array and one dispatcher per declared key |
| LibProjectState.ProjectStateHook.Update | src/lib/createProjectState.ts:15 | update calls every listener, once per entry, in order |
| LibProjectState.ProjectStateHook.Mount | src/lib/createProjectState.ts:42-43 | the effect appends the component's callback |
| LibProjectState.ProjectStateHook.Unmount | src/lib/createProjectState.ts:44-46 | the cleanup is the unguarded `splice(indexOf(f), 1)` |
| LibProjectState.ProjectStateHook.Use | src/lib/createProjectState.ts:49 | the hook returns the descriptor's current state and always the same dispatchers |
| LibProjectState.ProjectStateHook.Dispatch | src/lib/createProjectState.ts:20-34 | a dispatch runs the declaration once, pushes one item named after the key onto the module-level stack, and then calls `update` |
| LibProjectState.MountThenUnmount | src/lib/createProjectState.ts:42-47 | a mount followed by its cleanup restores the array when `f` was not registered; otherwise the cleanup removes the earlier registration, so the contents are the same as a multiset and `f` moves to the end |
| Replay.StartCoherent | src/UndoStack.ts:29-33 | a fresh stack over any data satisfies the coherence invariant |
| Replay.DispatchKeepsCoherent | src/index.ts:255-268 | a dispatch keeps the invariant; the undone branch is dropped and the new data is added |
| Replay.UndoKeepsCoherent | src/UndoStack.ts:82-90 | undo keeps the invariant and brings back the previous item's data |
| Replay.RedoKeepsCoherent | src/UndoStack.ts:95-103 | on a coherent machine redo is always defined, keeps the invariant, and brings back the next item's data |
| Replay.UndoRedoRoundTrip | src/UndoStack.ts:82-103 | on a coherent machine, undo then redo, and redo then undo, restore the stack and the data exactly |
| Replay.DispatchThenUndo | src/index.ts:255-262 | a dispatch then an undo restores the data, past and present; the item waits in the future |
| Replay.DispatchAfterUndoDropsRedo | src/index.ts:257 | a dispatch made after an undo leaves nothing to redo |
| Replay.DispatchesThenUndos | src/lib/undoStack.ts:33-51 | N dispatches, each through any state's own listener list onto the shared stack, then N undos restore the original data, past and present; the N items wait in the future in dispatch order |
| Replay.UndosThenRedos | src/lib/undoStack.ts:53-61 | from there, N redos are all defined and replay the N dispatches exactly, whichever states they went through |
| Replay.DispatchUndoRedoCycle | src/lib/createProjectState.ts:20-34 | N dispatches through any mix of states, N undos and N redos go from the original data back to it and forward to the post-dispatch machine |
| Replay.CrossStateWalk | src/index.ts:221-257 | setName("Bar") through the settings state's listeners, then add("x") through the list state's, on one stack: two undos restore the project data and two redos replay both |
| Replay.BranchWalk | src/states/EventsFunctionsState.ts:9-12 | add("x"), add("y"), undo, add("z") gives L ++ ["x", "z"], and the following redo does nothing |
| Replay.RemoveWalk | src/states/EventsFunctionsState.ts:13-19 | remove(0) on ["a", "b"] leaves ["b"], and undo puts "a" back in front |
| Replay.RenameWalk | example/src/states/ProjectSettingsState.ts:11-17 | from "Foo", setName("Bar") pushes one item over the "begin" sentinel; undo gives "Foo" and redo "Bar" |
| Replay.UndoOn | src/UndoStack.ts:82-90 | on a stack whose items all act on one project, `UndoStack.Undo` steps the stack and the project as `AfterUndo` does |
| Replay.RedoOn | src/UndoStack.ts:95-103 | the same for `UndoStack.Redo` and `AfterRedo` |
| Replay.DispatchOn | src/index.ts:255-268 | the same for a dispatch and `AfterDispatch` |
| Scenarios.RenameScenario | example/src/states/ProjectSettingsState.ts:11-17 | on the classes, the example project's name goes "Bar", "Foo", "Bar" through setName("Bar"), undo, redo |
| Scenarios.NotificationScenario | src/index.ts:257-268 | in a dispatch, the stack's subscriber is called before the state's subscriber, once each |
| Scenarios.RefusedNameScenario | example/src/states/ProjectSettingsState.ts:13-14 | setName("") only raises the alert and keeps "Foo", and the dispatch is still recorded as the present "setName" entry |
| Scenarios.BranchScenario | example/src/states/EventsFunctionsState.ts:10-12 | on the stack object, add("x"), add("y"), undo, add("z"), redo gives the example list plus "x" and "z", with two items in the past |
| Scenarios.RemoveScenario | example/src/states/EventsFunctionsState.ts:14-19 | on the classes, remove(0) leaves ["secondExtension"] and undo restores the example list |
| Scenarios.CrossStateScenario | src/index.ts:221-283 | a registry with both example states on one project: setName("Bar") then add("x") give the renamed project with "x" appended, and two undos give back the example project |

## Left out

- The keyboard wiring (`window.addEventListener("keydown", …)` in the stack's constructor and in the module-level stack) is DOM input. `Undo` and `Redo` are called directly.
- `alert("Invalid name!")` is a browser side effect. It is recorded as an `Alerted` event on the trace, and nothing else.
- React hooks, rendering and the UI components are not modelled. `useForceUpdate` and `./forceUpdate` are not part of this model. Only the listener operations inside the hooks' effects are modelled, as `Mount`/`Unmount`, `Subscribe`/`Detach` and a component's callback id.
- The example server's WebSocket and JSON handling is I/O and is not modelled.
- The generic TypeScript typing of descriptors and dispatchers is replaced by the two concrete descriptors and their concrete argument lists.
- Listener callback bodies are opaque. A callback that subscribes or unsubscribes while a notification is running is not modelled. The model reads each listener list when the notification starts.
- EventsFunctionsState.RunRemove: requires an index inside the list. For any other index the source reads `undefined` as the old value and then splices with JavaScript's clamping. Its undo would put `undefined` into a list of strings, which the model's `seq<string>` cannot hold. `Defined` states this requirement for every dispatch and redo. The application only calls `remove` with indices of the rendered list.
- An `eventsFunctions` getState returns the very array the dispatchers mutate. The model returns the list's current value, which always equals what the alias would show. Aliasing itself is not modelled.
- The order in which JavaScript lists a table's keys is modelled as insertion order. Names that look like integers, which JavaScript lists first, are not modelled.
- The `behaviors` field of the example project has no logic and is not modelled.
- The round-trip theorems in `Replay` assume that every item on the stack acts on one project object, as in the example application. Stacks whose items act on several distinct projects are modelled by the classes but not covered by those theorems.
- UndoStacks.UndoStack.Redo: requires the next item's call to be defined on its project's data. This only matters for an out-of-range `remove`. `Replay.RedoKeepsCoherent` proves it always holds on a coherent stack.
- Numbers are modelled as unbounded integers, and `remove` indices as integers; a fractional index is not modelled.
