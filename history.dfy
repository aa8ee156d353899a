/** The undo/redo history of the drawing page (app/page.tsx).
    A scene snapshot is an opaque serialized string; restoring one is
    asynchronous, so every restore has a begin and a completion. */
module History {
  import opened Wrappers

  /** Largest number of snapshots kept. */
  const MaxHistory: nat := 50

  /** One serialized scene (the `HistoryState` record). */
  datatype HistoryState = HistoryState(json: string)

  /** The last `n` elements of `s` (all of `s` when it is shorter). */
  function Last<T>(n: nat, s: seq<T>): (r: seq<T>)
    ensures |r| == if |s| <= n then |s| else n
    ensures forall k :: 0 <= k < |r| ==> r[k] == s[|s| - |r| + k]
  {
    if |s| <= n then s else s[|s| - n..]
  }

  /** The history after a save: the entries up to and including the cursor
      are kept, the redo branch after it is dropped, the new snapshot is
      appended, and the oldest entry is evicted above the cap. */
  function AfterSave(history: seq<HistoryState>, index: int, snap: HistoryState): (r: seq<HistoryState>)
    requires -1 <= index < |history| <= MaxHistory
    ensures |r| == if index + 2 <= MaxHistory then index + 2 else MaxHistory
    ensures r[|r| - 1] == snap
    ensures forall k :: 0 <= k < |r| - 1 ==> r[k] == history[index + 2 - |r| + k]
  {
    var kept := history[..index + 1] + [snap];
    if |kept| > MaxHistory then kept[1..] else kept
  }

  /** Saving from the end of a history is appending and keeping the newest entries. */
  lemma AfterSaveAtEnd(history: seq<HistoryState>, snap: HistoryState)
    requires 0 < |history| <= MaxHistory
    ensures AfterSave(history, |history| - 1, snap) == Last(MaxHistory, history + [snap])
  {
    assert history[..|history|] == history;
  }

  /** The history after saving every snapshot of `snaps` in turn, each save
      made with the cursor on the newest entry. */
  function Replay(history: seq<HistoryState>, snaps: seq<HistoryState>): (r: seq<HistoryState>)
    requires 0 < |history| <= MaxHistory
    ensures 0 < |r| <= MaxHistory
    decreases |snaps|
  {
    if snaps == [] then history
    else Replay(AfterSave(history, |history| - 1, snaps[0]), snaps[1..])
  }

  /** Keeping the newest n of a sequence and then of its extension is keeping the
      newest n of the extension. */
  lemma LastOfLast<T>(n: nat, s: seq<T>, t: seq<T>)
    ensures Last(n, Last(n, s) + t) == Last(n, s + t)
  {
    if n < |s| {
      var m := |s| - n;
      var u := s[m..] + t;
      assert Last(n, s) == s[m..];
      assert u == (s + t)[m..];
      if t == [] {
        assert s + t == s;
      } else {
        assert Last(n, u) == u[|t|..] == (s + t)[m + |t|..];
      }
    }
  }

  lemma ConsAfter<T>(s: seq<T>, t: seq<T>)
    requires t != []
    ensures s + [t[0]] + t[1..] == s + t
  {
    assert [t[0]] + t[1..] == t;
  }

  /** First-in first-out eviction: after any number of saves the history holds
      exactly the newest 50 snapshots (or all of them), oldest first. */
  lemma {:induction false} ReplayKeepsNewest(history: seq<HistoryState>, snaps: seq<HistoryState>)
    requires 0 < |history| <= MaxHistory
    ensures Replay(history, snaps) == Last(MaxHistory, history + snaps)
    decreases |snaps|
  {
    if snaps == [] {
      assert history + snaps == history;
    } else {
      var h' := AfterSave(history, |history| - 1, snaps[0]);
      AfterSaveAtEnd(history, snaps[0]);
      ReplayKeepsNewest(h', snaps[1..]);
      LastOfLast(MaxHistory, history + [snaps[0]], snaps[1..]);
      ConsAfter(history, snaps);
    }
  }

  /** The history manager with the guard as evidently intended: a save is
      ignored while a restore is in flight, and so are undo and redo. */
  class HistoryManager {
    /** The snapshots, oldest first (`history`). */
    var history: seq<HistoryState>
    /** The cursor (`historyIndex`); -1 while the history is empty. */
    var historyIndex: int
    /** The re-entrancy flag (`isRestoringRef`). */
    var isRestoring: bool
    /** The index an in-flight restore moves the cursor to when it succeeds. */
    var restoreTarget: int

    ghost predicate Valid()
      reads this
    {
      && |history| <= MaxHistory
      && -1 <= historyIndex < |history|
      && (historyIndex == -1 <==> history == [])
      && (isRestoring ==> 0 <= restoreTarget < |history| &&
                          (restoreTarget == historyIndex - 1 || restoreTarget == historyIndex + 1))
    }

    /** Whether the undo button is enabled. */
    function CanUndo(): bool
      reads this
    {
      historyIndex > 0
    }

    /** Whether the redo button is enabled. */
    function CanRedo(): bool
      reads this
    {
      historyIndex < |history| - 1
    }

    constructor ()
      ensures Valid()
      ensures history == [] && historyIndex == -1 && !isRestoring
    {
      history := [];
      historyIndex := -1;
      isRestoring := false;
      restoreTarget := 0;
    }

    /** `saveToHistory`: `scene` is the serialized current scene, or None when
        there is no canvas or serializing it threw. */
    method SaveToHistory(scene: Option<HistoryState>)
      requires Valid()
      modifies this
      ensures Valid()
      ensures old(isRestoring) || scene.None? ==> unchanged(this)
      ensures !old(isRestoring) && scene.Some? ==>
        && history == AfterSave(old(history), old(historyIndex), scene.value)
        && historyIndex == |history| - 1
        && !CanRedo()
        && isRestoring == old(isRestoring) && restoreTarget == old(restoreTarget)
    {
      if isRestoring {
        return;
      }
      if scene.None? {
        return;
      }
      var newHistory := history[..historyIndex + 1];
      newHistory := newHistory + [scene.value];
      if |newHistory| > MaxHistory {
        newHistory := newHistory[1..];
      }
      history := newHistory;
      historyIndex := |newHistory| - 1;
    }

    /** The delayed initial save: only an empty history takes the first
        snapshot, which becomes the undo floor at index 0. */
    method SaveInitial(scene: Option<HistoryState>)
      requires Valid()
      modifies this
      ensures Valid()
      ensures old(history) == [] && scene.Some? ==> history == [scene.value] && historyIndex == 0
      ensures !(old(history) == [] && scene.Some?) ==> unchanged(this)
      ensures isRestoring == old(isRestoring) && restoreTarget == old(restoreTarget)
    {
      if scene.Some? && |history| == 0 {
        history := [scene.value];
        historyIndex := 0;
      }
    }

    /** `handleUndo` up to the start of the asynchronous restore. Returns the
        snapshot handed to the scene loader, or None when nothing starts. */
    method BeginUndo(canvasReady: bool) returns (toLoad: Option<HistoryState>)
      requires Valid()
      modifies this
      ensures Valid()
      ensures toLoad.Some? <==> !old(isRestoring) && canvasReady && old(historyIndex) > 0
      ensures toLoad.Some? ==>
        && toLoad.value == old(history)[old(historyIndex) - 1]
        && isRestoring && restoreTarget == old(historyIndex) - 1
        && history == old(history) && historyIndex == old(historyIndex)
      ensures toLoad.None? ==> unchanged(this)
    {
      if isRestoring || historyIndex <= 0 || !canvasReady {
        return None;
      }
      var newIndex := historyIndex - 1;
      isRestoring := true;
      restoreTarget := newIndex;
      toLoad := Some(history[newIndex]);
    }

    /** `handleRedo` up to the start of the asynchronous restore. */
    method BeginRedo(canvasReady: bool) returns (toLoad: Option<HistoryState>)
      requires Valid()
      modifies this
      ensures Valid()
      ensures toLoad.Some? <==> !old(isRestoring) && canvasReady && old(historyIndex) < |old(history)| - 1
      ensures toLoad.Some? ==>
        && toLoad.value == old(history)[old(historyIndex) + 1]
        && isRestoring && restoreTarget == old(historyIndex) + 1
        && history == old(history) && historyIndex == old(historyIndex)
      ensures toLoad.None? ==> unchanged(this)
    {
      if isRestoring || historyIndex >= |history| - 1 || !canvasReady {
        return None;
      }
      var newIndex := historyIndex + 1;
      isRestoring := true;
      restoreTarget := newIndex;
      toLoad := Some(history[newIndex]);
    }

    /** The settlement of the restore promise: on success the cursor moves to
        the restored entry; either way the flag is cleared. The history list
        itself is never touched. */
    method CompleteRestore(success: bool)
      requires Valid() && isRestoring
      modifies this
      ensures Valid()
      ensures !isRestoring && history == old(history)
      ensures historyIndex == if success then old(restoreTarget) else old(historyIndex)
    {
      if success {
        historyIndex := restoreTarget;
      }
      isRestoring := false;
    }
  }

  /** An undo and a redo that both succeed, with no save between them, bring
      the cursor back to where it was. */
  method UndoThenRedo(m: HistoryManager)
    requires m.Valid() && !m.isRestoring && m.CanUndo()
    modifies m
    ensures m.Valid() && !m.isRestoring
    ensures m.historyIndex == old(m.historyIndex) && m.history == old(m.history)
  {
    var undone := m.BeginUndo(true);
    m.CompleteRestore(true);
    assert m.historyIndex == old(m.historyIndex) - 1;
    var redone := m.BeginRedo(true);
    m.CompleteRestore(true);
  }

  // ---------------------------------------------------------------------
  // The manager as written: undo and redo do not look at the flag, so two
  // restores can be in flight at once; the first to settle clears the flag.

  /** The page's history state as written, with every restore in flight. */
  datatype WrittenState = WrittenState(
    history: seq<HistoryState>, index: int, restoring: bool, pending: seq<int>)

  /** `saveToHistory` as written. */
  function WrittenSave(s: WrittenState, snap: HistoryState): (r: WrittenState)
    requires -1 <= s.index < |s.history| <= MaxHistory
    ensures s.restoring ==> r == s
    ensures !s.restoring ==> r.history == AfterSave(s.history, s.index, snap) && r.pending == s.pending &&
                             r.index == |r.history| - 1 && !r.restoring
  {
    if s.restoring then s
    else s.(history := AfterSave(s.history, s.index, snap),
            index := |AfterSave(s.history, s.index, snap)| - 1)
  }

  /** `handleUndo` as written, up to the start of the restore. */
  function WrittenBeginUndo(s: WrittenState): (r: WrittenState)
    ensures s.index > 0 ==> r.restoring && r.pending == s.pending + [s.index - 1] && r.index == s.index &&
                            r.history == s.history
    ensures s.index <= 0 ==> r == s
  {
    if s.index <= 0 then s
    else s.(restoring := true, pending := s.pending + [s.index - 1])
  }

  /** The settlement of the k-th restore in flight, as written. */
  function WrittenComplete(s: WrittenState, k: nat, success: bool): (r: WrittenState)
    requires k < |s.pending|
    ensures !r.restoring && r.history == s.history
    ensures r.pending == s.pending[..k] + s.pending[k + 1..] && |r.pending| == |s.pending| - 1
    ensures r.index == if success then s.pending[k] else s.index
  {
    s.(restoring := false,
       pending := s.pending[..k] + s.pending[k + 1..],
       index := if success then s.pending[k] else s.index)
  }

  /** Two undo clicks before the first restore settles: once the first one
      succeeds the flag is cleared, and a save is recorded although the
      second restore is still in flight. */
  lemma WrittenGuardLeaks(a: HistoryState, b: HistoryState, c: HistoryState, x: HistoryState)
    requires x != c
    ensures
      var s0 := WrittenState([a, b, c], 2, false, []);
      var s2 := WrittenBeginUndo(WrittenBeginUndo(s0));
      var s3 := WrittenComplete(s2, 0, true);
      var s4 := WrittenSave(s3, x);
      && s2.pending == [1, 1]
      && s3.pending == [1]
      && s4.history == [a, b, x] != s3.history
  {
    var s0 := WrittenState([a, b, c], 2, false, []);
    var s2 := WrittenBeginUndo(WrittenBeginUndo(s0));
    var s3 := WrittenComplete(s2, 0, true);
    assert s3.index == 1 && s3.history == [a, b, c];
    assert [a, b, c][..2] == [a, b];
  }
}
