/** The three-part undo timeline as a value, and the transitions push,
    undo and redo make on it. Items are opaque here. */
module History {

  /** past runs oldest to newest, future nearest to farthest. */
  datatype Raw<T> = Raw(past: seq<T>, present: T, future: seq<T>)

  /** The whole timeline, oldest first. */
  function Timeline<T>(r: Raw<T>): seq<T>
  {
    r.past + [r.present] + r.future
  }

  /** push: the future is discarded and the present joins the past. */
  function Pushed<T>(r: Raw<T>, item: T): Raw<T>
  {
    Raw(r.past + [r.present], item, [])
  }

  /** undo: with an empty past nothing happens; otherwise the present moves
      to the front of the future and the last past item becomes present. */
  function Undone<T>(r: Raw<T>): Raw<T>
  {
    if r.past == [] then r
    else Raw(r.past[..|r.past| - 1], r.past[|r.past| - 1], [r.present] + r.future)
  }

  /** redo: with an empty future nothing happens; otherwise the present
      joins the past and the first future item becomes present. */
  function Redone<T>(r: Raw<T>): Raw<T>
  {
    if r.future == [] then r
    else Raw(r.past + [r.present], r.future[0], r.future[1..])
  }

  /** The state machine on (past depth, future depth): push resets the
      future and deepens the past; undo and redo move one step along the
      timeline, with a floor at the empty side. */
  lemma Depths<T>(r: Raw<T>, item: T)
    ensures |Pushed(r, item).past| == |r.past| + 1 && Pushed(r, item).future == []
    ensures r.past != [] ==> |Undone(r).past| == |r.past| - 1 && |Undone(r).future| == |r.future| + 1
    ensures r.future != [] ==> |Redone(r).past| == |r.past| + 1 && |Redone(r).future| == |r.future| - 1
  {
  }

  /** Undo and redo never change the timeline, only where the present is. */
  lemma MovesKeepTimeline<T>(r: Raw<T>)
    ensures Timeline(Undone(r)) == Timeline(r)
    ensures Timeline(Redone(r)) == Timeline(r)
  {
    if r.past != [] {
      assert r.past == r.past[..|r.past| - 1] + [r.past[|r.past| - 1]];
    }
    if r.future != [] {
      assert r.future == [r.future[0]] + r.future[1..];
    }
  }

  /** Undo followed by redo restores the exact raw stack, and so does redo
      followed by undo. */
  lemma UndoRedoInverse<T>(r: Raw<T>)
    ensures r.past != [] ==> Redone(Undone(r)) == r
    ensures r.future != [] ==> Undone(Redone(r)) == r
  {
    if r.past != [] {
      assert r.past[..|r.past| - 1] + [r.past[|r.past| - 1]] == r.past;
    }
  }

  /** A push after an undo throws the undone branch away: the next redo is
      a no-op. */
  lemma PushAfterUndoDropsRedo<T>(r: Raw<T>, item: T)
    ensures Redone(Pushed(Undone(r), item)) == Pushed(Undone(r), item)
    ensures Timeline(Pushed(Undone(r), item)) == Timeline(r)[..|Undone(r).past| + 1] + [item]
  {
    MovesKeepTimeline(r);
  }

  function PushedAll<T>(r: Raw<T>, items: seq<T>): Raw<T>
    decreases |items|
  {
    if items == [] then r else PushedAll(Pushed(r, items[0]), items[1..])
  }

  function UndoneTimes<T>(r: Raw<T>, n: nat): Raw<T>
  {
    if n == 0 then r else Undone(UndoneTimes(r, n - 1))
  }

  /** Pushing N > 0 items and undoing N times brings the old past and
      present back, with the N items waiting in the future in the order
      they were pushed (the old future was discarded by the first push). */
  lemma {:induction false} PushesThenUndos<T>(r: Raw<T>, items: seq<T>)
    ensures UndoneTimes(PushedAll(r, items), |items|) == Raw(r.past, r.present, if items == [] then r.future else items)
    decreases |items|
  {
    if items != [] {
      var r1 := Pushed(r, items[0]);
      PushesThenUndos(r1, items[1..]);
      assert PushedAll(r, items) == PushedAll(r1, items[1..]);
      var mid := UndoneTimes(PushedAll(r1, items[1..]), |items| - 1);
      assert mid == Raw(r1.past, r1.present, items[1..]);
      assert UndoneTimes(PushedAll(r, items), |items|) == Undone(mid);
      assert r1.past[..|r1.past| - 1] == r.past;
      assert [items[0]] + items[1..] == items;
    }
  }
}
