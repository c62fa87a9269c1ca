/** The dispatcher declarations of both descriptors, as one closed set of
    commands over the project, with what their inverse closures capture. */
module Commands {
  import opened Effects
  import opened Projects
  import EF = EventsFunctionsState
  import PS = ProjectSettingsState

  /** Which descriptor a state manager is built from. */
  datatype Kind = EventsFunctions | ProjectSettings

  /** A dispatcher invocation: the declaration and its arguments. */
  datatype Call = Events(events: EF.Call) | Settings(settings: PS.Call)

  /** The inverse closure a declaration returned. */
  datatype Inverse = EventsInverse(events: EF.Inverse) | SettingsInverse(settings: PS.Inverse)

  /** What getState returns. */
  datatype Shape = FunctionsList(items: seq<string>) | SettingsRecord(record: PS.Settings)

  /** The dispatcher keys a descriptor declares. */
  function Declarations(kind: Kind): seq<string>
  {
    match kind
    case EventsFunctions => EF.Keys
    case ProjectSettings => PS.Keys
  }

  function KindOf(c: Call): Kind
  {
    if c.Events? then EventsFunctions else ProjectSettings
  }

  /** The key the dispatcher is stored under, which also names its stack item. */
  function Key(c: Call): string
  {
    match c
    case Events(e) => EF.Key(e)
    case Settings(s) => PS.Key(s)
  }

  /** A call is offered by a descriptor exactly when its key is one of the
      descriptor's declarations. */
  lemma KeyIdentifiesDescriptor(c: Call, kind: Kind)
    ensures Key(c) in Declarations(kind) <==> KindOf(c) == kind
  {
  }

  function WithSettings(d: ProjectData, s: PS.Settings): ProjectData
  {
    d.(name := s.name, author := s.author)
  }

  /** getState of each descriptor: the list descriptor hands out the
      project's list itself, the settings descriptor a fresh record. */
  function StateOf(kind: Kind, d: ProjectData): Shape
  {
    match kind
    case EventsFunctions => FunctionsList(d.eventsFunctions)
    case ProjectSettings => SettingsRecord(PS.Record(d))
  }

  predicate Defined(d: ProjectData, c: Call)
  {
    c.Events? ==> EF.Defined(d.eventsFunctions, c.events)
  }

  /** The project after the declaration runs. */
  function After(d: ProjectData, c: Call): (r: ProjectData)
    requires Defined(d, c)
    ensures c.Events? ==> r.name == d.name && r.author == d.author
    ensures c.Settings? ==> r.eventsFunctions == d.eventsFunctions
  {
    match c
    case Events(e) => d.(eventsFunctions := EF.Applied(d.eventsFunctions, e))
    case Settings(s) => WithSettings(d, PS.Applied(PS.Record(d), s))
  }

  function InverseOf(d: ProjectData, c: Call): Inverse
    requires Defined(d, c)
  {
    match c
    case Events(e) => EventsInverse(EF.InverseOf(d.eventsFunctions, e))
    case Settings(s) => SettingsInverse(PS.InverseOf(PS.Record(d), s))
  }

  /** The project after an inverse closure runs. */
  function Reverted(d: ProjectData, inv: Inverse): (r: ProjectData)
    ensures inv.EventsInverse? ==> r.name == d.name && r.author == d.author
    ensures inv.SettingsInverse? ==> r.eventsFunctions == d.eventsFunctions
  {
    match inv
    case EventsInverse(e) => d.(eventsFunctions := EF.Reverted(d.eventsFunctions, e))
    case SettingsInverse(s) => WithSettings(d, PS.Reverted(PS.Record(d), s))
  }

  function Alerts(c: Call): seq<Event>
  {
    if c.Settings? then PS.Alerts(c.settings) else []
  }

  /** Undo right after a dispatch gives back the project as it was. */
  lemma RevertUndoesAfter(d: ProjectData, c: Call)
    requires Defined(d, c)
    ensures Reverted(After(d, c), InverseOf(d, c)) == d
  {
    match c
    case Events(e) => EF.RevertUndoesApply(d.eventsFunctions, e);
    case Settings(s) => PS.RevertUndoesApply(PS.Record(d), s);
  }

  /** Re-running a declaration on the restored project, as redo does, gives
      the post-dispatch project again and would capture the same inverse. */
  lemma RerunAfterRevert(d: ProjectData, c: Call)
    requires Defined(d, c)
    ensures var back := Reverted(After(d, c), InverseOf(d, c));
      Defined(back, c) && After(back, c) == After(d, c) && InverseOf(back, c) == InverseOf(d, c)
  {
    RevertUndoesAfter(d, c);
  }

  /** Runs the declaration of `c` on the project and returns its inverse. */
  method Run(p: Project, trace: Trace, c: Call) returns (inv: Inverse)
    requires Defined(p.Data(), c)
    modifies p, trace
    ensures p.Data() == After(old(p.Data()), c)
    ensures inv == InverseOf(old(p.Data()), c)
    ensures trace.events == old(trace.events) + Alerts(c)
  {
    match c
    case Events(e) =>
      var i: EF.Inverse;
      match e {
        case Add(name) => i := EF.RunAdd(p, name);
        case Remove(index) => i := EF.RunRemove(p, index);
      }
      inv := EventsInverse(i);
    case Settings(s) =>
      var i: PS.Inverse;
      match s {
        case SetName(name) => i := PS.RunSetName(p, trace, name);
        case SetAuthor(name) => i := PS.RunSetAuthor(p, name);
      }
      inv := SettingsInverse(i);
  }

  /** Runs an inverse closure on the project. */
  method RunInverse(p: Project, inv: Inverse)
    modifies p
    ensures p.Data() == Reverted(old(p.Data()), inv)
  {
    match inv
    case EventsInverse(e) => EF.RunInverse(p, e);
    case SettingsInverse(s) => PS.RunInverse(p, s);
  }
}
