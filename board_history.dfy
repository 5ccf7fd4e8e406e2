/**
 * The history-aware board reducer (common/src/board-history-reducer.ts). The board
 * reducer and the action folder it composes live in files outside this model; they
 * are parameters here, so everything proved holds whatever they do.
 */
module BoardHistory {
  import opened Wrappers
  import opened Domain

  type BoardHistoryEntry = PersistableBoardItemEvent

  datatype BoardWithHistory = BoardWithHistory(board: Board, history: seq<BoardHistoryEntry>)

  /**
   * What `boardReducer` answers: the updated board, whether it is a different object
   * from the board it was given (the `!==` test), and the undo action.
   */
  datatype Reduction = Reduction(board: Board, changed: bool, undo: Option<AppEvent>)

  type BoardReducer = (Board, BoardItemEvent) -> Reduction

  /** `foldActions(latest, event)`: the entry replacing `latest`, or `None` when the two do not fold. */
  type Folder = (BoardHistoryEntry, BoardItemEvent) -> Option<BoardHistoryEntry>

  /** What `boardHistoryReducer` answers: the new board with history, and the undo action. */
  datatype Step = Step(state: BoardWithHistory, undo: Option<AppEvent>)

  /**
   * `addToHistory`: a lock or unlock leaves the history alone; otherwise the event is
   * folded into the latest entry when the folder allows it, and appended when it does not.
   */
  function AddToHistory(history: seq<BoardHistoryEntry>, event: BoardItemEvent, fold: Folder): (r: seq<BoardHistoryEntry>)
    ensures |history| <= |r| <= |history| + 1
    ensures |history| > 0 ==> r[..|history| - 1] == history[..|history| - 1]
    ensures !IsPersistableBoardItemEvent(event) ==> r == history
    ensures IsPersistableBoardItemEvent(event) && history == [] ==> r == [event]
    ensures IsPersistableBoardItemEvent(event) && history != [] ==>
              var folded := fold(history[|history| - 1], event);
              (folded.Some? ==> |r| == |history| && r[|r| - 1] == folded.value) &&
              (folded.None? ==> |r| == |history| + 1 && r[..|history|] == history && r[|history|] == event)
  {
    if !IsPersistableBoardItemEvent(event) then history
    else if |history| == 0 then [event]
    else
      match fold(history[|history| - 1], event)
      case Some(folded) => history[..|history| - 1] + [folded]
      case None => history + [event]
  }

  /**
   * `boardHistoryReducer`: the board reducer's board and undo action, passed through,
   * and a history that changes only when the board did and the event persists.
   */
  function BoardHistoryReducer(state: BoardWithHistory, event: BoardItemEvent,
                               reduce: BoardReducer, fold: Folder): (r: Step)
    ensures r.state.board == reduce(state.board, event).board
    ensures r.undo == reduce(state.board, event).undo
    ensures !reduce(state.board, event).changed ==> r.state.history == state.history
    ensures r.state.history != state.history ==>
              reduce(state.board, event).changed && IsPersistableBoardItemEvent(event)
    ensures reduce(state.board, event).changed ==>
              r.state.history == AddToHistory(state.history, event, fold)
    ensures |state.history| <= |r.state.history| <= |state.history| + 1
  {
    var reduced := reduce(state.board, event);
    var history := if reduced.changed then AddToHistory(state.history, event, fold) else state.history;
    Step(BoardWithHistory(reduced.board, history), reduced.undo)
  }

  /** The outcome of feeding a stream of events, one at a time, to `BoardHistoryReducer`. */
  datatype Run = Run(state: BoardWithHistory, undos: seq<Option<AppEvent>>)

  function Replay(state: BoardWithHistory, events: seq<BoardItemEvent>,
                  reduce: BoardReducer, fold: Folder): Run
    decreases |events|
  {
    if events == [] then Run(state, [])
    else
      var step := BoardHistoryReducer(state, events[0], reduce, fold);
      var rest := Replay(step.state, events[1..], reduce, fold);
      Run(rest.state, [step.undo] + rest.undos)
  }

  /** The same stream fed to the board reducer alone: the boards and undo actions, with no history at all. */
  datatype BoardRun = BoardRun(board: Board, undos: seq<Option<AppEvent>>)

  function ReduceAll(board: Board, events: seq<BoardItemEvent>, reduce: BoardReducer): BoardRun
    decreases |events|
  {
    if events == [] then BoardRun(board, [])
    else
      var reduced := reduce(board, events[0]);
      var rest := ReduceAll(reduced.board, events[1..], reduce);
      BoardRun(rest.board, [reduced.undo] + rest.undos)
  }

  /** The number of events of a stream that persist, that is, are not locks or unlocks. */
  function PersistableCount(events: seq<BoardItemEvent>): nat
  {
    if events == [] then 0
    else (if IsPersistableBoardItemEvent(events[0]) then 1 else 0) + PersistableCount(events[1..])
  }

  /**
   * History handling never touches the board or the undo actions: over any stream, the
   * boards and undo actions are those of the board reducer alone, whatever the history
   * started as and whatever the folder does.
   */
  lemma {:induction false} HistoryIsOrthogonal(state: BoardWithHistory, events: seq<BoardItemEvent>,
                                               reduce: BoardReducer, fold: Folder)
    ensures Replay(state, events, reduce, fold).state.board == ReduceAll(state.board, events, reduce).board
    ensures Replay(state, events, reduce, fold).undos == ReduceAll(state.board, events, reduce).undos
    decreases |events|
  {
    if events != [] {
      var step := BoardHistoryReducer(state, events[0], reduce, fold);
      HistoryIsOrthogonal(step.state, events[1..], reduce, fold);
    }
  }

  /**
   * Over any stream the history only grows, by at most one entry per persisting event,
   * and every entry but the latest is never rewritten.
   */
  lemma {:induction false} ReplayKeepsHistory(state: BoardWithHistory, events: seq<BoardItemEvent>,
                                              reduce: BoardReducer, fold: Folder)
    ensures var h := Replay(state, events, reduce, fold).state.history;
            |state.history| <= |h| <= |state.history| + PersistableCount(events) &&
            (|state.history| > 0 ==> h[..|state.history| - 1] == state.history[..|state.history| - 1])
    decreases |events|
  {
    if events != [] {
      var step := BoardHistoryReducer(state, events[0], reduce, fold);
      ReplayKeepsHistory(step.state, events[1..], reduce, fold);
      var h0, h1 := state.history, step.state.history;
      var h := Replay(state, events, reduce, fold).state.history;
      if |h0| > 0 {
        assert h1[..|h0| - 1] == h0[..|h0| - 1];
        if |h1| > 0 {
          assert h[..|h1| - 1] == h1[..|h1| - 1];
          assert h[..|h0| - 1] == h[..|h1| - 1][..|h0| - 1];
        }
      }
    }
  }

  /** A stream of locks and unlocks never changes the history, whatever the board reducer reports. */
  lemma {:induction false} LocksNeverReachHistory(state: BoardWithHistory, events: seq<BoardItemEvent>,
                                                  reduce: BoardReducer, fold: Folder)
    requires forall k :: 0 <= k < |events| ==> events[k].LockItem? || events[k].UnlockItem?
    ensures Replay(state, events, reduce, fold).state.history == state.history
    decreases |events|
  {
    if events != [] {
      var step := BoardHistoryReducer(state, events[0], reduce, fold);
      LocksNeverReachHistory(step.state, events[1..], reduce, fold);
    }
  }

  /** No two adjacent entries of `history` fold into one. */
  predicate MaximallyFolded(history: seq<BoardHistoryEntry>, fold: Folder) {
    forall i :: 0 <= i < |history| - 1 ==> fold(history[i], history[i + 1]).None?
  }

  /**
   * A folder that never lets an entry fold into a neighbour it refused before, once that
   * neighbour has absorbed a later persisting event: two moves or updates fold only on
   * the same item set, and folding keeps that set.
   */
  ghost predicate KeepsBoundaries(fold: Folder) {
    forall a: BoardHistoryEntry, b: BoardHistoryEntry, c: PersistableBoardItemEvent ::
      fold(a, b).None? && fold(b, c).Some? ==> fold(a, fold(b, c).value).None?
  }

  /** With such a folder, adding to a maximally folded history keeps it maximally folded. */
  lemma AddToHistoryKeepsFolded(history: seq<BoardHistoryEntry>, event: BoardItemEvent, fold: Folder)
    requires KeepsBoundaries(fold) && MaximallyFolded(history, fold)
    ensures MaximallyFolded(AddToHistory(history, event, fold), fold)
  {
    var r := AddToHistory(history, event, fold);
    var n := |history|;
    if IsPersistableBoardItemEvent(event) && n > 0 {
      var folded := fold(history[n - 1], event);
      if folded.Some? {
        forall i | 0 <= i < |r| - 1 ensures fold(r[i], r[i + 1]).None? {
          assert r[i] == history[i];
          if i + 1 < n - 1 { assert r[i + 1] == history[i + 1]; }
          else if n >= 2 { assert fold(history[n - 2], history[n - 1]).None?; }
        }
      } else {
        forall i | 0 <= i < |r| - 1 ensures fold(r[i], r[i + 1]).None? {
          assert r[i] == history[i];
          if i + 1 < n { assert r[i + 1] == history[i + 1]; }
        }
      }
    }
  }

  /** With such a folder, the history of every run starting maximally folded stays maximally folded. */
  lemma {:induction false} ReplayKeepsFolded(state: BoardWithHistory, events: seq<BoardItemEvent>,
                                             reduce: BoardReducer, fold: Folder)
    requires KeepsBoundaries(fold) && MaximallyFolded(state.history, fold)
    ensures MaximallyFolded(Replay(state, events, reduce, fold).state.history, fold)
    decreases |events|
  {
    if events != [] {
      AddToHistoryKeepsFolded(state.history, events[0], fold);
      var step := BoardHistoryReducer(state, events[0], reduce, fold);
      ReplayKeepsFolded(step.state, events[1..], reduce, fold);
    }
  }

  /**
   * Two changing, persisting events on an empty history: one entry when the folder
   * merges them (a drag of one item, say), two when it refuses (an add then a move).
   */
  lemma TwoEdits(board: Board, e1: BoardItemEvent, e2: BoardItemEvent, reduce: BoardReducer, fold: Folder)
    requires IsPersistableBoardItemEvent(e1) && IsPersistableBoardItemEvent(e2)
    requires reduce(board, e1).changed && reduce(reduce(board, e1).board, e2).changed
    ensures var h := Replay(BoardWithHistory(board, []), [e1, e2], reduce, fold).state.history;
            match fold(e1, e2)
            case Some(f) => h == [f]
            case None => h == [e1, e2]
  {
    var s1 := BoardHistoryReducer(BoardWithHistory(board, []), e1, reduce, fold);
    assert s1.state.history == [e1];
    var s2 := BoardHistoryReducer(s1.state, e2, reduce, fold);
    assert [e1, e2][0] == e1 && [e1, e2][1..] == [e2] && [e2][1..] == [];
    assert Replay(s1.state, [e2], reduce, fold).state == s2.state;
    assert s2.state.history == AddToHistory([e1], e2, fold);
    assert [e1] + [e2] == [e1, e2];
  }
}
