/** The lifecycle state machine of a managed download. */
module Lifecycle {

  datatype DownloadState = Queued | Starting | Downloading | Paused | Completed | Failed | Cancelled {
    /** A backend owns the download: these are the states the concurrency limit counts. */
    predicate Active() {
      Starting? || Downloading?
    }

    predicate Terminal() {
      Completed? || Cancelled?
    }
  }

  function NextStates(s: DownloadState): seq<DownloadState> {
    match s
    case Queued => [Starting, Failed, Cancelled]
    case Starting => [Downloading, Completed, Paused, Failed, Cancelled]
    case Downloading => [Paused, Completed, Failed, Cancelled]
    case Paused => [Queued, Cancelled]
    case Completed => []
    case Failed => [Queued, Cancelled]
    case Cancelled => []
  }

  predicate IsValidTransition(from: DownloadState, to: DownloadState) {
    to in NextStates(from)
  }

  /** The legal moves, by where they lead. */
  lemma MovesByTarget(from: DownloadState, to: DownloadState)
    ensures IsValidTransition(from, to) <==>
              match to
              case Queued => from.Paused? || from.Failed?
              case Starting => from.Queued?
              case Downloading => from.Starting?
              case Paused => from.Active()
              case Completed => from.Active()
              case Failed => from.Active() || from.Queued?
              case Cancelled => !from.Terminal()
  {}

  /** A history of states in which every move is a legal one. */
  ghost predicate Walk(h: seq<DownloadState>) {
    forall i, j :: 0 <= i < |h| && 0 <= j < |h| && j == i + 1 ==> IsValidTransition(h[i], h[j])
  }

  /** No legal history continues past Completed or Cancelled, and these are the only dead ends. */
  lemma {:induction false} TerminalIsForGood(h: seq<DownloadState>, i: nat)
    requires Walk(h) && i < |h|
    ensures h[i].Terminal() ==> i == |h| - 1
    ensures h[i].Terminal() <==> NextStates(h[i]) == []
  {
    if i + 1 < |h| {
      assert IsValidTransition(h[i], h[i + 1]);
    }
  }

  /**
   * A download cannot be started a second time without having been stopped in between:
   * between two entries of Starting the history passes through Paused or Failed, and then Queued.
   */
  lemma {:induction false} RestartNeedsStop(h: seq<DownloadState>, i: nat, j: nat)
    requires Walk(h) && i < j < |h| && h[i].Starting? && h[j].Starting?
    ensures exists k :: i < k < j - 1 && (h[k].Paused? || h[k].Failed?) && h[k + 1].Queued?
  {
    assert IsValidTransition(h[j - 1], h[j]);
    var k := j - 2;
    assert IsValidTransition(h[k], h[k + 1]);
    assert i < k && (h[k].Paused? || h[k].Failed?) && h[k + 1].Queued?;
  }
}
