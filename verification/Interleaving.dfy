/**
 * The manager with any number of threads. A step here is one critical section of the mutex around the records,
 * or one move of a download task between two of them. A caller decides on a state it read in an earlier section,
 * so by the time it writes anything may have happened: its section is possible at any moment. What the threads
 * rely on is only what the section itself checks, the legality of the move.
 */
module Interleaving {
  import opened Lifecycle
  import opened Queues

  /** The states a task can leave its download in. */
  type Verdict = s: DownloadState | s.Completed? || s.Paused? || s.Cancelled? || s.Failed? witness Completed

  /** An attempt to run a download, from its claim to its end. */
  datatype Phase =
    | Claimed                             // moved to Starting, task not spawned yet
    | Spawned                             // task spawned, record not looked at yet
    | Picked(hasBackend: bool)            // record looked at and found active
    | InRun                               // inside the backend
    | Returned(verdict: Verdict)          // backend has returned, final write not made yet
    | Over

  datatype Attempt = Attempt(id: Id, phase: Phase)

  datatype Shared = Shared(
    records: map<Id, DownloadState>,
    // every state each download ever had, removed ones included
    history: map<Id, seq<DownloadState>>,
    attempts: seq<Attempt>)

  datatype Section =
    | Insert(id: Id)                          // enqueue
    | Requeue(id: Id)                         // resume, retry
    | CancelNow(id: Id)                       // cancel of a download that was at rest when looked at
    | Claim(id: Id)                           // begin_download, from start or the scheduler
    | Report(id: Id)                          // progress callback
    | Drop(id: Id)                            // remove
    | SaveFails(attempt: nat)                 // begin_download gives up
    | SpawnTask(attempt: nat)
    | Look(attempt: nat, hasBackend: bool)    // its task reads the record
    | Enter(attempt: nat)
    | Leave(attempt: nat, verdict: Verdict)
    | FinalWrite(attempt: nat)
    | Abort(attempt: nat)                     // shutdown reaches its task

  /** One write of a state under the lock: made if the download is known and the move is legal, refused otherwise. */
  function Write(w: Shared, id: Id, to: DownloadState): Shared
    requires id in w.records ==> id in w.history
  {
    if id in w.records && IsValidTransition(w.records[id], to)
    then w.(records := w.records[id := to], history := w.history[id := w.history[id] + [to]])
    else w
  }

  function SetPhase(w: Shared, a: nat, phase: Phase): Shared
    requires a < |w.attempts|
  {
    w.(attempts := w.attempts[a := w.attempts[a].(phase := phase)])
  }

  /** A download draws a fresh id; a task goes through its phases in order; everything else can happen at any time. */
  predicate Possible(w: Shared, c: Section) {
    match c
    case Insert(id) => id !in w.history
    case SaveFails(a) => a < |w.attempts| && w.attempts[a].phase.Claimed?
    case SpawnTask(a) => a < |w.attempts| && w.attempts[a].phase.Claimed?
    case Look(a, _) => a < |w.attempts| && w.attempts[a].phase.Spawned?
    case Enter(a) => a < |w.attempts| && w.attempts[a].phase.Picked? && w.attempts[a].phase.hasBackend
    case Leave(a, _) => a < |w.attempts| && w.attempts[a].phase.InRun?
    case FinalWrite(a) =>
      a < |w.attempts| && (w.attempts[a].phase.Returned? || (w.attempts[a].phase.Picked? && !w.attempts[a].phase.hasBackend))
    case Abort(a) => a < |w.attempts| && (w.attempts[a].phase.Spawned? || w.attempts[a].phase.InRun?)
    case _ => true
  }

  /** What a task will write at its end. */
  function FinalState(p: Phase): Verdict {
    if p.Returned? then p.verdict else Failed
  }

  function Next(w: Shared, c: Section): Shared
    requires Possible(w, c) && w.records.Keys <= w.history.Keys
  {
    match c
    case Insert(id) => w.(records := w.records[id := Queued], history := w.history[id := [Queued]])
    case Requeue(id) => Write(w, id, Queued)
    case CancelNow(id) => Write(w, id, Cancelled)
    case Claim(id) =>
      if id in w.records && IsValidTransition(w.records[id], Starting)
      then var w := Write(w, id, Starting); w.(attempts := w.attempts + [Attempt(id, Claimed)])
      else w
    case Report(id) => if id in w.records && w.records[id].Starting? then Write(w, id, Downloading) else w
    case Drop(id) => w.(records := w.records - {id})
    case SaveFails(a) => SetPhase(w, a, Over)
    case SpawnTask(a) => SetPhase(w, a, Spawned)
    case Look(a, hasBackend) =>
      var id := w.attempts[a].id;
      SetPhase(w, a, if id in w.records && w.records[id].Active() then Picked(hasBackend) else Over)
    case Enter(a) => SetPhase(w, a, InRun)
    case Leave(a, verdict) => SetPhase(w, a, Returned(verdict))
    case FinalWrite(a) => SetPhase(Write(w, w.attempts[a].id, FinalState(w.attempts[a].phase)), a, Over)
    case Abort(a) => SetPhase(w, a, Over)
  }

  /** A manager that has just been opened on these downloads. */
  ghost predicate JustOpened(w: Shared) {
    && w.attempts == []
    && w.history.Keys == w.records.Keys
    && (forall id :: id in w.records ==> !w.records[id].Active() && w.history[id] == [w.records[id]])
  }

  ghost predicate Interleaved(trace: seq<Shared>, sections: seq<Section>) {
    && |trace| == |sections| + 1 && JustOpened(trace[0])
    && (forall i {:trigger sections[i]} :: 0 <= i < |sections| ==>
          && Possible(trace[i], sections[i]) && trace[i].records.Keys <= trace[i].history.Keys
          && trace[i + 1] == Next(trace[i], sections[i]))
  }

  // ---------------------------------------------------------------- what every interleaving keeps

  predicate Live(w: Shared, a: int) {
    0 <= a < |w.attempts| && !w.attempts[a].phase.Over?
  }

  ghost predicate Recorded(w: Shared) {
    && w.records.Keys <= w.history.Keys
    && (forall id :: id in w.history ==> w.history[id] != [] && Walk(w.history[id]))
    && (forall id :: id in w.records ==> w.history[id][|w.history[id]| - 1] == w.records[id])
    && (forall a :: 0 <= a < |w.attempts| ==> w.attempts[a].id in w.history)
  }

  /** A live attempt is the only one of its download, which is active, cancelled behind its back, or removed. */
  ghost predicate Owned(w: Shared) {
    && (forall a, b :: Live(w, a) && Live(w, b) && a != b ==> w.attempts[a].id != w.attempts[b].id)
    && (forall a :: Live(w, a) && w.attempts[a].id in w.records ==>
          w.records[w.attempts[a].id].Active() || w.records[w.attempts[a].id].Cancelled?)
  }

  ghost predicate Sound(w: Shared) {
    Recorded(w) && Owned(w)
  }

  lemma WalkOneMore(h: seq<DownloadState>, to: DownloadState)
    requires Walk(h) && h != [] && IsValidTransition(h[|h| - 1], to)
    ensures Walk(h + [to])
  {}

  lemma WriteIsRecorded(w: Shared, id: Id, to: DownloadState)
    requires Recorded(w)
    ensures Recorded(Write(w, id, to))
  {
    if id in w.records && IsValidTransition(w.records[id], to) {
      var h := w.history[id] + [to];
      WalkOneMore(w.history[id], to);
      assert h[|h| - 1] == to;
      LongerHistory(w, id, h, to);
    }
  }

  lemma LongerHistory(w: Shared, id: Id, h: seq<DownloadState>, to: DownloadState)
    requires Recorded(w) && id in w.records && h != [] && Walk(h) && h[|h| - 1] == to
    ensures Recorded(w.(records := w.records[id := to], history := w.history[id := h]))
  {}

  /** A write keeps ownership when it leaves the download active or cancelled, or nobody is running it. */
  lemma WriteIsOwned(w: Shared, id: Id, to: DownloadState)
    requires Sound(w)
    requires to.Active() || to.Cancelled? || forall a :: Live(w, a) ==> w.attempts[a].id != id
    ensures Owned(Write(w, id, to))
  {}

  lemma PhaseIsOwned(w: Shared, a: nat, phase: Phase)
    requires Sound(w) && Live(w, a)
    ensures Sound(SetPhase(w, a, phase))
    ensures phase.Over? ==> forall b :: Live(SetPhase(w, a, phase), b) ==> w.attempts[b].id != w.attempts[a].id
  {}

  lemma NewAttemptIsSound(w: Shared, id: Id)
    requires Sound(w) && id in w.records && w.records[id].Active()
    requires forall a :: Live(w, a) ==> w.attempts[a].id != id
    ensures Sound(w.(attempts := w.attempts + [Attempt(id, Claimed)]))
  {}

  /** Only a queued download can be claimed, and a queued download has no live attempt. */
  lemma ClaimIsSound(w: Shared, id: Id)
    requires Sound(w)
    ensures Sound(Next(w, Claim(id)))
  {
    if id in w.records && IsValidTransition(w.records[id], Starting) {
      var r := Write(w, id, Starting);
      WriteIsRecorded(w, id, Starting);
      WriteIsOwned(w, id, Starting);
      assert forall a :: Live(r, a) ==> Live(w, a);
      NewAttemptIsSound(r, id);
    }
  }

  lemma FinalWriteIsSound(w: Shared, a: nat)
    requires Sound(w) && Possible(w, FinalWrite(a))
    ensures Sound(Next(w, FinalWrite(a)))
  {
    var id, to := w.attempts[a].id, FinalState(w.attempts[a].phase);
    var over := SetPhase(w, a, Over);
    PhaseIsOwned(w, a, Over);
    WriteIsRecorded(over, id, to);
    WriteIsOwned(over, id, to);
    assert Next(w, FinalWrite(a)) == Write(over, id, to);
  }

  /** Only a stopped download can be queued again, and a stopped download has no live attempt. */
  lemma RequeueIsSound(w: Shared, id: Id)
    requires Sound(w)
    ensures Sound(Next(w, Requeue(id)))
  {
    WriteIsRecorded(w, id, Queued);
    if id in w.records && IsValidTransition(w.records[id], Queued) {
      WriteIsOwned(w, id, Queued);
    }
  }

  lemma NextIsSound(w: Shared, c: Section)
    requires Sound(w) && Possible(w, c)
    ensures Sound(Next(w, c))
  {
    match c
    case Insert(id) =>
    case Requeue(id) => RequeueIsSound(w, id);
    case CancelNow(id) =>
      WriteIsRecorded(w, id, Cancelled);
      WriteIsOwned(w, id, Cancelled);
    case Claim(id) => ClaimIsSound(w, id);
    case Report(id) =>
      WriteIsRecorded(w, id, Downloading);
      WriteIsOwned(w, id, Downloading);
    case Drop(id) =>
    case FinalWrite(a) => FinalWriteIsSound(w, a);
    case _ => PhaseIsOwned(w, c.attempt, Next(w, c).attempts[c.attempt].phase);
  }

  lemma {:induction false} InterleavingsAreSound(trace: seq<Shared>, sections: seq<Section>, k: nat)
    requires Interleaved(trace, sections) && k < |trace|
    ensures Sound(trace[k])
    decreases k
  {
    if k > 0 {
      InterleavingsAreSound(trace, sections, k - 1);
      NextIsSound(trace[k - 1], sections[k - 1]);
    }
  }

  // ---------------------------------------------------------------- main results

  /**
   * Under every interleaving each download's states form a walk in the transition table, and no two tasks are inside
   * a backend for one download; the download of a task inside its backend is active, cancelled or removed.
   */
  lemma LegalHistoriesAndSingleRunner(trace: seq<Shared>, sections: seq<Section>, k: nat)
    requires Interleaved(trace, sections) && k < |trace|
    ensures var w := trace[k];
            && (forall id :: id in w.history ==> Walk(w.history[id]))
            && (forall a, b :: 0 <= a < b < |w.attempts| && w.attempts[a].phase.InRun? && w.attempts[b].phase.InRun? ==>
                  w.attempts[a].id != w.attempts[b].id)
            && (forall a :: 0 <= a < |w.attempts| && w.attempts[a].phase.InRun? && w.attempts[a].id in w.records ==>
                  w.records[w.attempts[a].id].Active() || w.records[w.attempts[a].id].Cancelled?)
  {
    InterleavingsAreSound(trace, sections, k);
    var w := trace[k];
    assert forall a :: 0 <= a < |w.attempts| && w.attempts[a].phase.InRun? ==> Live(w, a);
  }

  /** Histories are kept, and only ever added to. */
  lemma HistoryOnlyGrows(w: Shared, c: Section, id: Id)
    requires Recorded(w) && Possible(w, c) && id in w.history
    ensures id in Next(w, c).history && w.history[id] <= Next(w, c).history[id]
  {}

  lemma {:induction false} HistoriesOnlyGrow(trace: seq<Shared>, sections: seq<Section>, i: nat, k: nat, id: Id)
    requires Interleaved(trace, sections) && i <= k < |trace| && id in trace[i].history
    ensures id in trace[k].history && trace[i].history[id] <= trace[k].history[id]
    decreases k
  {
    if i < k {
      HistoriesOnlyGrow(trace, sections, i, k - 1, id);
      InterleavingsAreSound(trace, sections, k - 1);
      HistoryOnlyGrows(trace[k - 1], sections[k - 1], id);
    }
  }

  /** Completed and Cancelled are never left: from then on the download has that state or is removed. */
  lemma TerminalIsNeverLeft(trace: seq<Shared>, sections: seq<Section>, i: nat, k: nat, id: Id)
    requires Interleaved(trace, sections) && i <= k < |trace|
    requires id in trace[i].records && trace[i].records[id].Terminal()
    ensures id in trace[i].history && id in trace[k].history && trace[k].history[id] == trace[i].history[id]
    ensures id in trace[k].records ==> trace[k].records[id] == trace[i].records[id]
  {
    InterleavingsAreSound(trace, sections, i);
    InterleavingsAreSound(trace, sections, k);
    HistoriesOnlyGrow(trace, sections, i, k, id);
    TerminalIsForGood(trace[k].history[id], |trace[i].history[id]| - 1);
  }

  /** The reason: Paused and Failed are written only by the download's own task, at its end, and then nobody runs it. */
  lemma OnlyTheTaskStops(w: Shared, c: Section, id: Id)
    requires Sound(w) && Possible(w, c) && id in w.records && id in Next(w, c).records
    requires var to := Next(w, c).records[id]; to != w.records[id] && (to.Paused? || to.Failed?)
    ensures c.FinalWrite? && w.attempts[c.attempt].id == id && Live(w, c.attempt)
    ensures forall a :: Live(Next(w, c), a) ==> Next(w, c).attempts[a].id != id
  {}

  /** The final write of a task takes effect exactly when its download was neither cancelled nor removed meanwhile. */
  lemma FinalWriteTakesEffect(w: Shared, a: nat)
    requires Sound(w) && Possible(w, FinalWrite(a))
    ensures var id := w.attempts[a].id;
            var r := Next(w, FinalWrite(a));
            && (r.history[id] == w.history[id] + [FinalState(w.attempts[a].phase)] <==>
                  id in w.records && !w.records[id].Cancelled?)
            && (id in w.records ==>
                  r.records[id] == if w.records[id].Cancelled? then Cancelled else FinalState(w.attempts[a].phase))
  {}
}
