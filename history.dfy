/** The undo history: a deque of full snapshots of the constraint list and a
    cursor one past the snapshot matching the live list. */
module History {
  import opened Constraints

  type Snapshot = seq<Constraint>

  /** At most `MAX_UNDO_COUNT` undo steps, so at most one more snapshot. */
  const CAPACITY: nat := MAX_UNDO_COUNT + 1

  /** The history, the cursor and the live list, as the optimizer holds them. */
  datatype Log = Log(history: seq<Snapshot>, cursor: nat, live: Snapshot)

  /** The state before the first commit and right after `clear`/`load` reset it. */
  const RESET: Log := Log([], 0, [])

  /** The cursor names a snapshot and the deque is within capacity. */
  predicate Valid(l: Log)
  {
    1 <= l.cursor <= |l.history| <= CAPACITY
  }

  /** The snapshot under the cursor is the live list (a drag preview breaks this
      until the next commit). */
  predicate Synced(l: Log)
    requires Valid(l)
  {
    l.history[l.cursor - 1] == l.live
  }

  function CanUndo(l: Log): bool
  {
    l.cursor > 1
  }

  function CanRedo(l: Log): bool
  {
    l.cursor < |l.history|
  }

  /** `std::deque::resize(n)`: cut to the first n snapshots, or padded with empty lists. */
  function Resize(h: seq<Snapshot>, n: nat): (r: seq<Snapshot>)
    ensures |r| == n
    ensures forall i :: 0 <= i < n && i < |h| ==> r[i] == h[i]
    ensures forall i :: |h| <= i < n ==> r[i] == []
  {
    if n <= |h| then h[..n] else h + seq(n - |h|, _ => [])
  }

  /** commitChange: drop the redo tail, drop the oldest snapshot once more than
      `MAX_UNDO_COUNT` remain, append the live list, move the cursor to the end. */
  function Commit(l: Log): (r: Log)
    ensures |r.history| == if l.cursor > MAX_UNDO_COUNT then l.cursor else l.cursor + 1
    ensures r.cursor == |r.history| && r.live == l.live
    ensures r.history[|r.history| - 1] == l.live
    ensures var d := if l.cursor > MAX_UNDO_COUNT then 1 else 0;
            forall j :: 0 <= j < |r.history| - 1 ==>
              r.history[j] == if j + d < |l.history| then l.history[j + d] else []
  {
    var kept := if l.cursor != |l.history| then Resize(l.history, l.cursor) else l.history;
    var bounded := if |kept| > MAX_UNDO_COUNT then kept[1..] else kept;
    Log(bounded + [l.live], |bounded| + 1, l.live)
  }

  /** revertChange: when possible, step the cursor back and restore the snapshot before it. */
  function Undo(l: Log): (r: Log)
    requires l.cursor <= |l.history|
    ensures r.history == l.history
  {
    if CanUndo(l) then Log(l.history, l.cursor - 1, l.history[l.cursor - 2]) else l
  }

  /** redoChange: when possible, restore the snapshot after the cursor and step forward. */
  function Redo(l: Log): (r: Log)
    ensures r.history == l.history
  {
    if CanRedo(l) then Log(l.history, l.cursor + 1, l.history[l.cursor]) else l
  }

  /** The constructor's first commit gives the history `[[]]` with cursor 1. */
  lemma FirstCommit()
    ensures Commit(RESET) == Log([[]], 1, [])
    ensures Valid(Commit(RESET)) && Synced(Commit(RESET))
    ensures !CanUndo(Commit(RESET)) && !CanRedo(Commit(RESET))
  {
  }

  /** `load` resets the history before its commit, which leaves the loaded list
      as the one snapshot, under the cursor. */
  lemma CommitReset(s: Snapshot)
    ensures Commit(Log([], 0, s)) == Log([s], 1, s)
  {
  }

  /** A commit from a valid or a reset state leaves a valid, synced history with
      nothing to redo, whatever the live list was. */
  lemma {:induction false} CommitValid(l: Log)
    requires Valid(l) || l == Log([], 0, l.live)
    ensures Valid(Commit(l)) && Synced(Commit(l))
    ensures !CanRedo(Commit(l))
    ensures Commit(l).cursor - 1 == if l.cursor > MAX_UNDO_COUNT then MAX_UNDO_COUNT else l.cursor
  {
  }

  /** Undoing right after a commit restores the snapshot that was under the
      cursor before it; when that state was synced, that is the list the edit
      started from. */
  lemma {:induction false} UndoAfterCommit(l: Log, edited: Snapshot)
    requires Valid(l)
    ensures CanUndo(Commit(l.(live := edited)))
    ensures Undo(Commit(l.(live := edited))).live == l.history[l.cursor - 1]
    ensures Synced(l) ==> Undo(Commit(l.(live := edited))).live == l.live
    ensures CanRedo(Undo(Commit(l.(live := edited))))
  {
    var r := Commit(l.(live := edited));
    var d := if l.cursor > MAX_UNDO_COUNT then 1 else 0;
    assert r.history[|r.history| - 2] == l.history[|r.history| - 2 + d];
  }

  /** Undo and redo keep the history valid and always leave it synced. */
  lemma {:induction false} UndoRedoValid(l: Log)
    requires Valid(l)
    ensures Valid(Undo(l)) && Valid(Redo(l))
    ensures CanUndo(l) ==> Synced(Undo(l)) && Undo(l).cursor == l.cursor - 1
    ensures CanRedo(l) ==> Synced(Redo(l)) && Redo(l).cursor == l.cursor + 1
    ensures !CanUndo(l) ==> Undo(l) == l
    ensures !CanRedo(l) ==> Redo(l) == l
  {
  }

  /** Redo right after undo gives back the state undo started from, and the other way round. */
  lemma {:induction false} RedoUndoInverse(l: Log)
    requires Valid(l) && Synced(l)
    ensures CanUndo(l) ==> CanRedo(Undo(l)) && Redo(Undo(l)) == l
    ensures CanRedo(l) ==> CanUndo(Redo(l)) && Undo(Redo(l)) == l
  {
  }

  /** `n` undo steps in a row. */
  function UndoTimes(l: Log, n: nat): (r: Log)
    requires l.cursor <= |l.history|
    ensures r.history == l.history && r.cursor <= l.cursor
    decreases n
  {
    if n == 0 then l else UndoTimes(Undo(l), n - 1)
  }

  /** From a valid state, `n` undo steps reach snapshot `cursor - n` when that
      exists, and stop at the oldest snapshot otherwise. */
  lemma {:induction false} UndoTimesReaches(l: Log, n: nat)
    requires Valid(l)
    ensures Valid(UndoTimes(l, n))
    ensures n < l.cursor ==> UndoTimes(l, n).cursor == l.cursor - n
    ensures n >= l.cursor ==> UndoTimes(l, n).cursor == 1
    ensures n > 0 && n < l.cursor ==> Synced(UndoTimes(l, n))
    decreases n
  {
    if n > 0 {
      UndoRedoValid(l);
      UndoTimesReaches(Undo(l), n - 1);
    }
  }

  /** `n` redo steps in a row. */
  function RedoTimes(l: Log, n: nat): (r: Log)
    ensures r.history == l.history && r.cursor >= l.cursor
    decreases n
  {
    if n == 0 then l else RedoTimes(Redo(l), n - 1)
  }

  /** From a valid, synced state, `n` redo steps move the cursor forward `n`
      snapshots, when that many follow it, and restore the one they reach. */
  lemma {:induction false} RedoTimesReaches(l: Log, n: nat)
    requires Valid(l) && Synced(l) && l.cursor + n <= |l.history|
    ensures RedoTimes(l, n) == Log(l.history, l.cursor + n, l.history[l.cursor + n - 1])
    decreases n
  {
    if n > 0 {
      UndoRedoValid(l);
      RedoTimesReaches(Redo(l), n - 1);
    }
  }

  /** A run of edits, each of which sets the live list and commits it. */
  function CommitAll(l: Log, es: seq<Snapshot>): Log
    decreases |es|
  {
    if |es| == 0 then l else CommitAll(Commit(l.(live := es[0])), es[1..])
  }

  /** While the history has room, a run of one or more commits drops the
      redo tail and appends the edits after the cursor, with the cursor on the
      last one; an empty run changes nothing. */
  lemma {:induction false} CommitAllShape(l: Log, es: seq<Snapshot>)
    requires Valid(l) && l.cursor + |es| <= CAPACITY
    ensures |es| > 0 ==> CommitAll(l, es).history == l.history[..l.cursor] + es
    ensures CommitAll(l, es).cursor == l.cursor + |es|
    ensures |es| > 0 ==> CommitAll(l, es).live == es[|es| - 1]
    ensures |es| == 0 ==> CommitAll(l, es) == l
    decreases |es|
  {
    if |es| > 0 {
      var c := Commit(l.(live := es[0]));
      assert c.history == l.history[..l.cursor] + [es[0]];
      CommitAllShape(c, es[1..]);
      assert c.history[..c.cursor] == c.history;
      assert CommitAll(l, es) == CommitAll(c, es[1..]);
      assert es == [es[0]] + es[1..];
      assert (l.history[..l.cursor] + [es[0]]) + es[1..] == l.history[..l.cursor] + es;
    }
  }

  /** From a valid, synced state, `n` undos that stay within the history walk
      back through the snapshots before the cursor, and `n` redos then give
      back the state they started from. */
  lemma {:induction false} UndoSteps(e: Log, n: nat)
    requires Valid(e) && Synced(e) && n < e.cursor
    ensures forall k :: 0 <= k <= n ==> UndoTimes(e, k).live == e.history[e.cursor - 1 - k]
    ensures UndoTimes(e, n).cursor == e.cursor - n
    ensures RedoTimes(UndoTimes(e, n), n) == e
  {
    forall k | 0 <= k <= n
      ensures UndoTimes(e, k).live == e.history[e.cursor - 1 - k]
    {
      UndoTimesReaches(e, k);
    }
    UndoTimesReaches(e, n);
    RedoTimesReaches(UndoTimes(e, n), n);
  }

  /** Undoing a run of `n` edits, one step at a time, shows the edits newest
      first and then the list they started from; redoing `n` steps after that
      gives back the state after the last edit. */
  lemma {:induction false} UndoRedoEdits(l: Log, es: seq<Snapshot>)
    requires Valid(l) && Synced(l) && l.cursor + |es| <= CAPACITY
    ensures Valid(CommitAll(l, es)) && Synced(CommitAll(l, es))
    ensures forall k :: 0 <= k < |es| ==> UndoTimes(CommitAll(l, es), k).live == es[|es| - 1 - k]
    ensures UndoTimes(CommitAll(l, es), |es|).live == l.live
    ensures UndoTimes(CommitAll(l, es), |es|).cursor == l.cursor
    ensures RedoTimes(UndoTimes(CommitAll(l, es), |es|), |es|) == CommitAll(l, es)
  {
    var n := |es|;
    var e := CommitAll(l, es);
    CommitAllShape(l, es);
    assert n > 0 ==> e.history == l.history[..l.cursor] + es;
    UndoSteps(e, n);
    forall k | 0 <= k < n
      ensures UndoTimes(e, k).live == es[n - 1 - k]
    {
      assert e.history[l.cursor + (n - 1 - k)] == es[n - 1 - k];
    }
    assert e.history[l.cursor - 1] == l.history[l.cursor - 1];
  }
}
