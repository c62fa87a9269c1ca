/** The "eventsFunctions" state: a list of names with `add` and `remove`
    dispatchers over project.eventsFunctions. */
module EventsFunctionsState {
  import opened Projects

  /** The name the example application registers the state under. */
  const Name := "eventsFunctions"

  /** The dispatcher declarations and their arguments. */
  datatype Call = Add(name: string) | Remove(index: int)

  /** The inverse closure a declaration returns. */
  datatype Inverse =
    | Pop                                // () => list.pop()
    | Reinsert(index: nat, value: string) // () => list.splice(index, 0, value)

  /** The keys of the `dispatchers` record, in declaration order. */
  const Keys: seq<string> := ["add", "remove"]

  function Key(c: Call): (k: string)
    ensures k in Keys
  {
    match c
    case Add(_) => "add"
    case Remove(_) => "remove"
  }

  /** `remove` reads list[index] and splices at index; for an index outside
      the list the two disagree, so only in-range indices are modelled. */
  predicate Defined(list: seq<string>, c: Call)
  {
    c.Remove? ==> 0 <= c.index < |list|
  }

  /** The list after the declaration runs. */
  function Applied(list: seq<string>, c: Call): (r: seq<string>)
    requires Defined(list, c)
    ensures c.Add? ==> |r| == |list| + 1 && r[..|list|] == list && r[|list|] == c.name
    ensures c.Remove? ==> |r| == |list| - 1
    ensures c.Remove? ==> forall k :: 0 <= k < |r| ==> r[k] == if k < c.index then list[k] else list[k + 1]
  {
    match c
    case Add(name) => list + [name]
    case Remove(index) => list[..index] + list[index + 1..]
  }

  /** The inverse closure the declaration returns, with what it captured. */
  function InverseOf(list: seq<string>, c: Call): Inverse
    requires Defined(list, c)
  {
    match c
    case Add(_) => Pop
    case Remove(index) => Reinsert(index, list[index])
  }

  /** The list after an inverse runs: pop on an empty list changes nothing,
      and splice clamps an insertion point past the end to the end. */
  function Reverted(list: seq<string>, inv: Inverse): seq<string>
  {
    match inv
    case Pop => if list == [] then [] else list[..|list| - 1]
    case Reinsert(index, value) =>
      var k := if index <= |list| then index else |list|;
      list[..k] + [value] + list[k..]
  }

  /** `add(name)`: pushes onto project.eventsFunctions. */
  method RunAdd(p: Project, name: string) returns (inv: Inverse)
    modifies p`eventsFunctions
    ensures p.eventsFunctions == Applied(old(p.eventsFunctions), Add(name))
    ensures inv == InverseOf(old(p.eventsFunctions), Add(name))
  {
    p.eventsFunctions := p.eventsFunctions + [name];
    inv := Pop;
  }

  /** `remove(index)`: remembers list[index], then splices it out. */
  method RunRemove(p: Project, index: int) returns (inv: Inverse)
    requires 0 <= index < |p.eventsFunctions|
    modifies p`eventsFunctions
    ensures p.eventsFunctions == Applied(old(p.eventsFunctions), Remove(index))
    ensures inv == InverseOf(old(p.eventsFunctions), Remove(index))
  {
    var oldValue := p.eventsFunctions[index];
    p.eventsFunctions := p.eventsFunctions[..index] + p.eventsFunctions[index + 1..];
    inv := Reinsert(index, oldValue);
  }

  /** Runs an inverse closure. */
  method RunInverse(p: Project, inv: Inverse)
    modifies p`eventsFunctions
    ensures p.eventsFunctions == Reverted(old(p.eventsFunctions), inv)
  {
    match inv
    case Pop =>
      if p.eventsFunctions != [] {
        p.eventsFunctions := p.eventsFunctions[..|p.eventsFunctions| - 1];
      }
    case Reinsert(index, value) =>
      var k := if index <= |p.eventsFunctions| then index else |p.eventsFunctions|;
      p.eventsFunctions := p.eventsFunctions[..k] + [value] + p.eventsFunctions[k..];
  }

  /** Undoing right after a dispatch restores the exact list: pop after
      push, and reinsertion of the removed value at its index. */
  lemma RevertUndoesApply(list: seq<string>, c: Call)
    requires Defined(list, c)
    ensures Reverted(Applied(list, c), InverseOf(list, c)) == list
  {
    match c
    case Add(name) =>
      assert (list + [name])[..|list|] == list;
    case Remove(index) =>
      var r := Applied(list, c);
      assert r[..index] == list[..index];
      assert r[index..] == list[index + 1..];
      assert list == list[..index] + [list[index]] + list[index + 1..];
  }

  /** Redo re-runs the declaration on the restored list: it reproduces the
      post-dispatch list, and the inverse captured the first time is the one
      the re-run would capture, so it stays correct. */
  lemma RerunAfterRevert(list: seq<string>, c: Call)
    requires Defined(list, c)
    ensures var back := Reverted(Applied(list, c), InverseOf(list, c));
      Defined(back, c) && Applied(back, c) == Applied(list, c) && InverseOf(back, c) == InverseOf(list, c)
  {
    RevertUndoesApply(list, c);
  }

  /** A sequence of dispatches applies without an out-of-range remove. */
  predicate AllDefined(list: seq<string>, calls: seq<Call>)
    decreases |calls|
  {
    calls == [] || (Defined(list, calls[0]) && AllDefined(Applied(list, calls[0]), calls[1..]))
  }

  function AppliedAll(list: seq<string>, calls: seq<Call>): seq<string>
    requires AllDefined(list, calls)
    decreases |calls|
  {
    if calls == [] then list else AppliedAll(Applied(list, calls[0]), calls[1..])
  }

  /** The inverses the dispatches return, oldest first. */
  function InversesOf(list: seq<string>, calls: seq<Call>): (invs: seq<Inverse>)
    requires AllDefined(list, calls)
    ensures |invs| == |calls|
    decreases |calls|
  {
    if calls == [] then [] else [InverseOf(list, calls[0])] + InversesOf(Applied(list, calls[0]), calls[1..])
  }

  /** Runs the inverses newest first, as successive undos do. */
  function RevertedAll(list: seq<string>, invs: seq<Inverse>): seq<string>
    decreases |invs|
  {
    if invs == [] then list else Reverted(RevertedAll(list, invs[1..]), invs[0])
  }

  /** Any run of adds and in-range removes is cancelled by running the
      inverses in last-in first-out order. */
  lemma {:induction false} RevertAllRestores(list: seq<string>, calls: seq<Call>)
    requires AllDefined(list, calls)
    ensures RevertedAll(AppliedAll(list, calls), InversesOf(list, calls)) == list
    decreases |calls|
  {
    if calls != [] {
      var next := Applied(list, calls[0]);
      RevertAllRestores(next, calls[1..]);
      RevertUndoesApply(list, calls[0]);
    }
  }
}
