/** The level-sequencing state machine of LevelManager::display and
    LevelManager::prepare_next_level, on the level index alone: what one call
    of display does to the index and what it reports, and what runs of calls
    do. */
module Sequencing {

  /** Whether display moves on to another index: when no level is active or
      the active one is finished. */
  predicate Advances(id: int, finished: bool) {
    id <= -1 || finished
  }

  /** One call of display with n levels in the index, from index id (-1 when
      no level is active). The active level is finished or not; the level that
      would be prepared next loads or not; the frame rendered goes on or not.
      An active level that is not finished is rendered again; otherwise the
      next index is prepared, and the index after the last one is the ending.
      Every failure, the ending included, leaves the index at -1. */
  function DisplayStep(id: int, n: int, finished: bool, loads: bool, renders: bool): (r: (int, bool))
    ensures r.1 ==> r.0 == (if Advances(id, finished) then id + 1 else id)
    ensures !r.1 ==> r.0 == -1
  {
    if !Advances(id, finished) then
      if renders then (id, true) else (-1, false)
    else if id + 1 < n && loads && renders then (id + 1, true)
    else (-1, false)
  }

  /** From any index in range, display leaves the index in range and reports
      success, or leaves it at -1 and reports failure. */
  lemma DisplayStepInRange(id: int, n: int, finished: bool, loads: bool, renders: bool)
    requires -1 <= id < n
    ensures var (id', ok) := DisplayStep(id, n, finished, loads, renders);
      && -1 <= id' < n
      && (ok <==> 0 <= id')
  {
    var (id', ok) := DisplayStep(id, n, finished, loads, renders);
    if ok && Advances(id, finished) {
      assert id + 1 < n;
    }
  }

  /** The outcomes of successive calls of display when every level loads,
      every frame goes on and every level is finished after one frame. */
  function Replay(id: int, n: int, calls: nat): (r: seq<(int, bool)>)
    ensures |r| == calls
    decreases calls
  {
    if calls == 0 then []
    else
      var step := DisplayStep(id, n, true, true, true);
      [step] + Replay(step.0, n, calls - 1)
  }

  /** From index id, the next n - id - 1 calls show the following levels in
      order, one each, and the call after them is the ending. */
  lemma {:induction false} ReplayFrom(id: int, n: int)
    requires -1 <= id < n
    ensures var r := Replay(id, n, n - id);
      && (forall j :: 0 <= j < n - id - 1 ==> r[j] == (id + 1 + j, true))
      && r[n - id - 1] == (-1, false)
    decreases n - id
  {
    var r := Replay(id, n, n - id);
    if id + 1 < n {
      ReplayFrom(id + 1, n);
      var rest := Replay(id + 1, n, n - id - 1);
      assert r == [(id + 1, true)] + rest;
      forall j | 0 <= j < n - id - 1
        ensures r[j] == (id + 1 + j, true)
      {
        if j > 0 {
          assert r[j] == rest[j - 1];
        }
      }
    } else {
      assert r == [(-1, false)] + Replay(-1, n, 0);
    }
  }

  /** Starting with no active level, the levels are shown exactly in index
      order 0, 1, ..., n - 1, and the (n + 1)-th call is the ending. */
  lemma LevelsInIndexOrder(n: nat)
    ensures var r := Replay(-1, n, n + 1);
      && (forall j :: 0 <= j < n ==> r[j] == (j, true))
      && r[n] == (-1, false)
  {
    ReplayFrom(-1, n);
  }

  /** With an empty index the first call is already the ending, whatever the
      active level's state. */
  lemma EmptyIndexEndsAtOnce(finished: bool, loads: bool, renders: bool)
    ensures DisplayStep(-1, 0, finished, loads, renders) == (-1, false)
  {
  }

  /** A failed call never retries the same level: the call after it, if it
      succeeds, shows the first level, whatever level failed. */
  lemma FailureRestartsAtFirstLevel(id: int, n: int, finished: bool, loads: bool, renders: bool,
                                    finished': bool, loads': bool, renders': bool)
    requires !DisplayStep(id, n, finished, loads, renders).1
    ensures var id' := DisplayStep(id, n, finished, loads, renders).0;
      DisplayStep(id', n, finished', loads', renders').1 ==> DisplayStep(id', n, finished', loads', renders').0 == 0
  {
  }

  /** An active level that is not finished is shown again at the same index
      for as long as its frames go on, and its index is given up as soon as a
      frame fails. */
  lemma UnfinishedLevelStays(id: int, n: int, loads: bool, renders: bool)
    requires 0 <= id < n
    ensures DisplayStep(id, n, false, loads, renders) == (if renders then (id, true) else (-1, false))
  {
  }
}
