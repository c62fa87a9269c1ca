/** The "projectSettings" state: the project's name and author, with the
    `setName` and `setAuthor` dispatchers. */
module ProjectSettingsState {
  import opened Effects
  import opened Projects

  /** The name the example application registers the state under. */
  const Name := "projectSettings"

  /** The message of the alert shown for an empty name. */
  const InvalidNameMessage := "Invalid name!"

  /** The record getState returns. */
  datatype Settings = Settings(name: string, author: string)

  datatype Call = SetName(name: string) | SetAuthor(name: string)

  /** The inverse closure: writes back the value read before the change. */
  datatype Inverse = RestoreName(oldName: string) | RestoreAuthor(oldAuthor: string)

  /** The keys of the `dispatchers` record, in declaration order. */
  const Keys: seq<string> := ["setName", "setAuthor"]

  function Key(c: Call): (k: string)
    ensures k in Keys
  {
    match c
    case SetName(_) => "setName"
    case SetAuthor(_) => "setAuthor"
  }

  /** The record getState builds from the project's name and author. */
  function Record(d: ProjectData): Settings
  {
    Settings(d.name, d.author)
  }

  /** getState: a fresh record holding the project's current name and author. */
  function GetState(p: Project): Settings
    reads p
  {
    Record(p.Data())
  }

  /** The fields after the declaration runs: a name shorter than one
      character is refused and leaves the name as it was. */
  function Applied(s: Settings, c: Call): Settings
  {
    match c
    case SetName(name) => if |name| < 1 then s else s.(name := name)
    case SetAuthor(name) => s.(author := name)
  }

  /** The declaration reads the old value before it changes anything. */
  function InverseOf(s: Settings, c: Call): Inverse
  {
    match c
    case SetName(_) => RestoreName(s.name)
    case SetAuthor(_) => RestoreAuthor(s.author)
  }

  function Reverted(s: Settings, inv: Inverse): Settings
  {
    match inv
    case RestoreName(oldName) => s.(name := oldName)
    case RestoreAuthor(oldAuthor) => s.(author := oldAuthor)
  }

  /** The alerts the declaration shows. */
  function Alerts(c: Call): seq<Event>
  {
    if c.SetName? && |c.name| < 1 then [Alerted(InvalidNameMessage)] else []
  }

  /** `setName(name)`: an empty name only raises the alert. */
  method RunSetName(p: Project, trace: Trace, name: string) returns (inv: Inverse)
    modifies p`name, trace
    ensures GetState(p) == Applied(old(GetState(p)), SetName(name))
    ensures inv == InverseOf(old(GetState(p)), SetName(name))
    ensures trace.events == old(trace.events) + Alerts(SetName(name))
  {
    var oldName := p.name;
    if |name| < 1 {
      trace.Alert(InvalidNameMessage);
    } else {
      p.name := name;
    }
    inv := RestoreName(oldName);
  }

  /** `setAuthor(name)`: assigns unconditionally, the empty string included. */
  method RunSetAuthor(p: Project, name: string) returns (inv: Inverse)
    modifies p`author
    ensures GetState(p) == Applied(old(GetState(p)), SetAuthor(name))
    ensures inv == InverseOf(old(GetState(p)), SetAuthor(name))
  {
    var oldName := p.author;
    p.author := name;
    inv := RestoreAuthor(oldName);
  }

  /** Runs an inverse closure. */
  method RunInverse(p: Project, inv: Inverse)
    modifies p`name, p`author
    ensures GetState(p) == Reverted(old(GetState(p)), inv)
  {
    match inv
    case RestoreName(oldName) => p.name := oldName;
    case RestoreAuthor(oldAuthor) => p.author := oldAuthor;
  }

  /** What each setter does: setName changes only the name, and only to a
      non-empty value; setAuthor changes only the author, to any value. */
  lemma SetterEffects(s: Settings, name: string)
    ensures Applied(s, SetName(name)).author == s.author
    ensures Applied(s, SetName(name)).name == if name == "" then s.name else name
    ensures Applied(s, SetAuthor(name)) == Settings(s.name, name)
    ensures Alerts(SetName(name)) != [] <==> name == ""
    ensures Alerts(SetAuthor(name)) == []
  {
  }

  /** Undoing right after a dispatch restores both fields. */
  lemma RevertUndoesApply(s: Settings, c: Call)
    ensures Reverted(Applied(s, c), InverseOf(s, c)) == s
  {
  }

  /** A refused name makes both the dispatch and its undo no-ops. */
  lemma EmptyNameIsNoop(s: Settings)
    ensures Applied(s, SetName("")) == s
    ensures Reverted(s, InverseOf(s, SetName(""))) == s
  {
  }

  /** Redo re-runs the setter on the restored record: the post-dispatch
      record comes back and the first inverse is still the right one. */
  lemma RerunAfterRevert(s: Settings, c: Call)
    ensures var back := Reverted(Applied(s, c), InverseOf(s, c));
      Applied(back, c) == Applied(s, c) && InverseOf(back, c) == InverseOf(s, c)
  {
  }

  /** The example's walk from "Foo": setName("Bar"), undo, redo. */
  lemma RenameFooToBar(author: string)
    ensures var s0 := Settings("Foo", author);
      var s1 := Applied(s0, SetName("Bar"));
      var s2 := Reverted(s1, InverseOf(s0, SetName("Bar")));
      var s3 := Applied(s2, SetName("Bar"));
      s1.name == "Bar" && s2.name == "Foo" && s3.name == "Bar" && s3 == s1
  {
  }
}
