/** The transfer behind the manager's backend interface, and what a finished download therefore is. */
module HttpBackend {
  import opened Wrappers
  import opened Lifecycle
  import opened Queues
  import opened Records
  import opened ManagerModel
  import opened Runs
  import opened Histories
  import opened Attempts
  import opened Permits
  import Bandwidth
  import FileNames
  import Storage
  import Body
  import Engine

  const DEFAULT_MAX_REDIRECTS: nat := 10

  /** A transfer leaves no metadata behind. */
  const NO_META: string := "null"

  type Files = map<FileNames.Path, Storage.Bytes>

  /** How text is read: the scheme of a URL, the components of a destination; and how an error is worded. */
  datatype Reading = Reading(scheme: string -> string, path: string -> FileNames.Path, message: Storage.Error -> string)

  /** What the manager hands over of a record, as the engine's request. */
  function RequestOf(d: Download, reading: Reading): Engine.Request {
    Engine.Request(reading.scheme(d.url), reading.path(d.destination), DEFAULT_MAX_REDIRECTS)
  }

  /** What the manager is told of a transfer, once it ends. */
  function Answer(outcome: Engine.Outcome, reading: Reading): Option<BackendResult> {
    match outcome
    case Done(total) => Some(Finished(total, Some(total), NO_META))
    case GaveUp(error) => Some(if error.Cancelled? then Stopped else Broken(reading.message(error)))
    case Waiting => None
  }

  /** The destination holds as many bytes as the answer says, and nothing else changed. */
  ghost predicate Delivered(before: Files, after: Files, output: FileNames.Path, downloaded: u64) {
    output in after && Body.Count(|after[output]|) == downloaded && after == before[output := after[output]]
  }

  /** Every file there was, and the destination in any case, is as it was. */
  ghost predicate Spared(before: Files, after: Files, output: FileNames.Path) {
    (output in after ==> output in before) && forall p :: p in before ==> p in after && after[p] == before[p]
  }

  /** A transfer is finished when the destination was delivered, and otherwise spared every file. */
  ghost predicate AllOrNothing(before: Files, after: Files, output: FileNames.Path, answer: Option<BackendResult>) {
    if answer.Some? && answer.value.Finished?
    then Delivered(before, after, output, answer.value.downloaded)
    else Spared(before, after, output)
  }

  lemma UntouchedIsSpared(before: Files, after: Files, output: FileNames.Path, part: FileNames.Path, data: Storage.Bytes)
    requires Engine.Untouched(before, after, output, part, data)
    ensures Spared(before, after, output)
  {}

  /**
   * What an answer tells of how the loop ended, if it was reached: a seen signal, and nothing else, is told as a stop; an
   * error in its own words; and nothing at all of a transfer that waits.
   */
  predicate Tells(end: Option<Body.Ending>, answer: Option<BackendResult>, reading: Reading) {
    && (answer == Some(Stopped) <==> end == Some(Body.Broke(Storage.Cancelled)))
    && (end.Some? && end.value.Broke? && !end.value.error.Cancelled? ==>
          answer == Some(Broken(reading.message(end.value.error))))
    && (answer.None? <==> end.Some? && end.value.Asleep?)
    && (end.None? ==> answer.Some? && answer.value.Broken?)
  }

  /** A success tells the size of the destination, twice, and no metadata. */
  ghost predicate TellsSize(after: Files, output: FileNames.Path, answer: Option<BackendResult>) {
    answer.Some? && answer.value.Finished? ==>
      output in after && var size := Body.Count(|after[output]|); answer.value == Finished(size, Some(size), NO_META)
  }

  /** One attempt of a record's download, up to its answer, if there is one; `end` is how its loop ended, if reached. */
  method Run(disk: Storage.Disk, limiter: Bandwidth.TokenBucket?, d: Download, reading: Reading,
             response: Engine.Response, out: Engine.Outside, uuid: string)
    returns (answer: Option<BackendResult>, reports: seq<Body.Report>, ghost done: nat, ghost asked: nat,
             ghost end: Option<Body.Ending>)
    requires limiter != null ==> limiter.Valid()
    modifies disk, limiter
    ensures AllOrNothing(old(disk.files), disk.files, reading.path(d.destination), answer)
    ensures Tells(end, answer, reading) && TellsSize(disk.files, reading.path(d.destination), answer)
    ensures end.Some? ==> response.Streaming? && done <= asked <= |response.body|
    ensures end.Some? ==> (end.value == Body.Broke(Storage.Cancelled) <==> asked == done && out.cancelled(asked))
    ensures answer.None? ==> limiter != null
    ensures (forall n :: disk.io.works(n))
            && (response.Streaming? ==> old(Engine.Patient(limiter, response.body, out.waits))) ==>
              && answer == Answer(Engine.Expected(RequestOf(d, reading), d.overwrite, old(disk.files), response,
                                                  out.cancelled, Engine.RateOf(limiter), uuid), reading)
              && (Engine.Unhindered(RequestOf(d, reading), d.overwrite, old(disk.files), response, uuid) ==>
                    (answer == Some(Stopped) <==>
                       exists k :: 0 <= k <= |response.body| && out.cancelled(k)
                                   && Body.Undisturbed(response.body, out.cancelled, Engine.RateOf(limiter), 0, k)))
  {
    ghost var before := disk.files;
    var request := RequestOf(d, reading);
    var outcome;
    outcome, reports, done, asked, end := Engine.Download(disk, limiter, request, d.overwrite, response, out, uuid);
    answer := Answer(outcome, reading);
    if !outcome.Done? {
      UntouchedIsSpared(before, disk.files, request.output, Storage.PartPath(request.output, uuid),
                        if response.Streaming? then Body.Received(response.body, asked) else []);
    }
    if Engine.Unhindered(request, d.overwrite, before, response, uuid) {
      StoppedExactlyWhen(request, d.overwrite, before, response, out.cancelled, Engine.RateOf(limiter), uuid, reading);
    }
  }

  lemma StoppedExactlyWhen(req: Engine.Request, overwrite: bool, files: Files, response: Engine.Response,
                           cancelled: nat -> bool, rate: Option<u64>, uuid: string, reading: Reading)
    requires Engine.Unhindered(req, overwrite, files, response, uuid)
    ensures Answer(Engine.Expected(req, overwrite, files, response, cancelled, rate, uuid), reading) == Some(Stopped) <==>
              exists k :: 0 <= k <= |response.body| && cancelled(k)
                          && Body.Undisturbed(response.body, cancelled, rate, 0, k)
  {
    Engine.UnhinderedExactlyWhen(req, overwrite, files, response, uuid);
    Body.CancelledExactlyWhen(response.body, cancelled, rate, 0);
  }

  // ---------------------------------------------------------------- the manager's view

  /** A download that is known at the end of a part of a run, and was heard of at its start, was known all along. */
  lemma KnownThroughout(cfg: Config, env: Env, trace: seq<Sys>, ops: seq<Op>, i: nat, k: nat, id: Id)
    requires Steps(cfg, env, trace, ops) && i <= k < |trace| && id in trace[i].seen && id in trace[k].downloads
    ensures forall j :: i <= j <= k ==> id in trace[j].downloads
  {
    forall j | i <= j <= k
      ensures id in trace[j].downloads
    {
      RunFollows(cfg, env, trace, ops, i, j);
      RunFollows(cfg, env, trace, ops, j, k);
    }
  }

  /** Step `i` hands the record `d` of a download over to its backend, in task `t`. */
  ghost predicate HandsOver(cfg: Config, trace: seq<Sys>, ops: seq<Op>, i: nat, t: TaskId, d: Download) {
    && i < |ops| < |trace| && ops[i] == DoTaskBegin(t)
    && t in trace[i].tasks && d.backend in cfg.backends
    && trace[i].tasks[t].id in trace[i].downloads && trace[i].downloads[trace[i].tasks[t].id].info == d
  }

  lemma HandedOverRecord(cfg: Config, env: Env, db: Table, trace: seq<Sys>, ops: seq<Op>, i: nat, k: nat, t: TaskId,
                         d: Download)
    requires Life(cfg, env, db, trace, ops) && i < k < |trace| && HandsOver(cfg, trace, ops, i, t, d)
    requires t in trace[k].tasks && trace[k].tasks[t].id in trace[k].downloads
    ensures trace[k].tasks[t].id == trace[i].tasks[t].id
    ensures Evolved(d, trace[k].downloads[trace[k].tasks[t].id].info)
  {
    LifeIsSafe(cfg, env, db, trace, ops, 0);
    LifeIsSafe(cfg, env, db, trace, ops, i);
    RunFollows(cfg, env, trace, ops, i, k);
    KnownThroughout(cfg, env, trace, ops, i, k, trace[k].tasks[t].id);
    RequestsNeverChange(cfg, env, trace, ops, i, k, trace[k].tasks[t].id);
  }

  /** The end of an attempt of a known download, in the record. */
  lemma RecordAfterEnd(cfg: Config, env: Env, db: Table, trace: seq<Sys>, ops: seq<Op>, k: nat, t: TaskId,
                       r: BackendResult)
    requires Life(cfg, env, db, trace, ops) && k < |ops| && ops[k] == DoTaskEnd(t, r)
    requires t in trace[k].tasks && trace[k].tasks[t].id in trace[k].downloads
    requires trace[k].downloads[trace[k].tasks[t].id].info.backend in cfg.backends
    ensures var id := trace[k].tasks[t].id;
            && id in trace[k + 1].downloads
            && var (d, e) := (trace[k].downloads[id].info, trace[k + 1].downloads[id].info);
               && Evolved(d, e) && (e.state.Completed? <==> r.Finished?)
               && (r.Finished? ==> e.downloadedBytes == r.downloaded)
  {
    LifeIsSafe(cfg, env, db, trace, ops, k);
    assert Enabled(trace[k], ops[k]) && trace[k + 1] == TaskEnd(cfg, env, trace[k], t, r);
    PauseAttribution(cfg, env, db, trace, ops, k, t, r);
    StepEvolves(cfg, env, trace[k], ops[k]);
  }

  /** A record of the same request that is Completed exactly on success, and then shows the bytes counted. */
  lemma DeliveryShows(before: Files, after: Files, reading: Reading, d: Download, e: Download, r: BackendResult)
    requires AllOrNothing(before, after, reading.path(d.destination), Some(r)) && Evolved(d, e)
    requires (e.state.Completed? <==> r.Finished?) && (r.Finished? ==> e.downloadedBytes == r.downloaded)
    ensures if e.state.Completed? then Delivered(before, after, reading.path(e.destination), e.downloadedBytes)
            else Spared(before, after, reading.path(e.destination))
  {}

  /**
   * The manager's word about a file. When an attempt of a known download ends, on any disks, with whatever else was
   * going on, the download is Completed exactly when its transfer delivered; then the destination named in its record
   * holds as many bytes as its record says, and otherwise no file that existed was touched.
   */
  lemma CompletedMeansDelivered(cfg: Config, env: Env, db: Table, trace: seq<Sys>, ops: seq<Op>, i: nat, k: nat,
                                t: TaskId, r: BackendResult, d: Download, reading: Reading, before: Files, after: Files)
    requires Life(cfg, env, db, trace, ops) && i < k < |ops| && HandsOver(cfg, trace, ops, i, t, d)
    requires ops[k] == DoTaskEnd(t, r) && t in trace[k].tasks && trace[k].tasks[t].id in trace[k].downloads
    requires AllOrNothing(before, after, reading.path(d.destination), Some(r))
    ensures var id := trace[k].tasks[t].id;
            && id in trace[k + 1].downloads
            && var e := trace[k + 1].downloads[id].info;
               && Evolved(d, e) && (e.state.Completed? <==> r.Finished?)
               && (if e.state.Completed? then Delivered(before, after, reading.path(e.destination), e.downloadedBytes)
                   else Spared(before, after, reading.path(e.destination)))
  {
    var id := trace[k].tasks[t].id;
    HandedOverRecord(cfg, env, db, trace, ops, i, k, t, d);
    RecordAfterEnd(cfg, env, db, trace, ops, k, t, r);
    DeliveryShows(before, after, reading, d, trace[k + 1].downloads[id].info, r);
  }

  /**
   * The manager's word about a signal. When the loop of an attempt left at a seen signal, the download ends Paused if
   * some pause reached that very attempt, and Cancelled if none did; when it ended otherwise, it ends Completed or
   * Failed, in the words of the error, paused or not.
   */
  lemma SeenSignalDecides(cfg: Config, env: Env, db: Table, trace: seq<Sys>, ops: seq<Op>, k: nat, t: TaskId,
                          r: BackendResult, end: Option<Body.Ending>, reading: Reading)
    requires Life(cfg, env, db, trace, ops) && k < |ops| && ops[k] == DoTaskEnd(t, r)
    requires t in trace[k].tasks && trace[k].tasks[t].id in trace[k].downloads
    requires trace[k].downloads[trace[k].tasks[t].id].info.backend in cfg.backends
    requires Tells(end, Some(r), reading)
    ensures var state := StateOf(trace[k + 1], trace[k].tasks[t].id);
            && (end == Some(Body.Broke(Storage.Cancelled)) ==>
                  state == Some(if WasPaused(trace, ops, k, t) then Paused else Cancelled))
            && (end != Some(Body.Broke(Storage.Cancelled)) ==> state in {Some(Completed), Some(Failed)})
            && (end.Some? && end.value.Broke? && !end.value.error.Cancelled? ==>
                  state == Some(Failed)
                  && trace[k + 1].downloads[trace[k].tasks[t].id].info.error == Some(reading.message(end.value.error)))
  {
    assert Enabled(trace[k], ops[k]) && trace[k + 1] == TaskEnd(cfg, env, trace[k], t, r);
    PauseAttribution(cfg, env, db, trace, ops, k, t, r);
  }
}
