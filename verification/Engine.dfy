/** One transfer: checks, the loop that moves chunks from the response into a partial file, and the completion. */
module Engine {
  import opened Wrappers
  import opened Bandwidth
  import opened FileNames
  import opened Storage
  import opened Body

  /** What can go wrong before a body: anything but a cancellation, which only the transfer loop looks for. */
  type Failure = e: Error | !e.Cancelled? witness Filesystem

  datatype Response = Refused(error: Failure) | Streaming(announced: Option<u64>, body: seq<Item>)

  datatype Request = Request(scheme: string, output: Path, maxRedirects: nat)

  /** How a transfer ends, if it does: `Waiting` is one that the limiter has not let go on. */
  datatype Outcome = Done(total: u64) | GaveUp(error: Error) | Waiting

  /**
   * The outside of a transfer. `cancelled(i)` says whether the signal is seen when item `i` is asked for, `waits(i)` are
   * the clock readings that the limiter takes for item `i`, and `clock` are those taken for progress.
   */
  datatype Outside = Outside(cancelled: nat -> bool, waits: nat -> seq<real>, listening: bool, clock: nat -> int)

  predicate VerifyLength(expected: Option<u64>, received: u64) {
    match expected
    case None => true
    case Some(n) => n == received
  }

  function ValidRequest(req: Request): Option<Error> {
    if req.scheme != "http" && req.scheme != "https" then Some(InvalidUrl)
    else if FirstObjection(req.output).Some? then
      Some(if FirstObjection(req.output).value.BadPath? then InvalidPath else InvalidFileName)
    else if req.maxRedirects == 0 then Some(InvalidUrl)
    else None
  }

  method ValidateRequest(req: Request) returns (error: Option<Error>)
    ensures error == ValidRequest(req)
    ensures error.None? <==>
              (req.scheme == "http" || req.scheme == "https") && Acceptable(req.output) && req.maxRedirects > 0
  {
    if req.scheme != "http" && req.scheme != "https" {
      return Some(InvalidUrl);
    }
    var objection := ValidateOutputPath(req.output);
    if objection.Some? {
      return Some(if objection.value.BadPath? then InvalidPath else InvalidFileName);
    }
    if req.maxRedirects == 0 {
      return Some(InvalidUrl);
    }
    error := None;
  }

  // ---------------------------------------------------------------- the limiter

  ghost function RateOf(limiter: TokenBucket?): Option<u64> {
    if limiter == null then None else Some(limiter.rate)
  }

  /** The limiter's balance, and a full bucket that nobody uses when there is no limiter. */
  ghost function BalanceOf(limiter: TokenBucket?): Bucket
    reads limiter
  {
    if limiter == null then Bucket(0.0, 0.0) else Bucket(limiter.tokens, limiter.last)
  }

  /** The sleeps of the limiter, if there is one, are honoured. */
  ghost predicate Patient(limiter: TokenBucket?, body: seq<Item>, waits: nat -> seq<real>)
    reads limiter
  {
    limiter != null ==> SleepsAreHonoured(limiter.rate, BalanceOf(limiter), body, waits)
  }

  /** Takes the bytes of a chunk from the limiter; `passed` is false when the call has not come back. */
  method Admit(limiter: TokenBucket?, item: Item, waits: seq<real>) returns (passed: bool)
    requires limiter != null ==> limiter.Valid()
    requires item.Chunk?
    modifies limiter
    ensures limiter != null ==> limiter.Valid()
    ensures limiter == null ==> passed
    ensures limiter != null ==>
              var call := Acquiring(limiter.rate, old(BalanceOf(limiter)), Need(item), waits);
              passed == call.returned && BalanceOf(limiter) == call.end
    ensures passed ==> !Oversized(RateOf(limiter), item)
  {
    passed := true;
    if limiter != null {
      ghost var before := BalanceOf(limiter);
      var sleeps;
      passed, sleeps := limiter.Acquire(Count(|item.data|), waits);
      if Oversized(Some(limiter.rate), item) {
        NeverComesBack(limiter.rate, before, item, waits);
      }
    }
  }

  // ---------------------------------------------------------------- the loop

  /** `part` holds a beginning of what was received, and nothing else changed. */
  ghost predicate OnlyPart(before: map<Path, Bytes>, after: map<Path, Bytes>, part: Path, received: Bytes) {
    part in after && after == before[part := after[part]] && after[part] <= received
  }

  /** Writes one more chunk; nothing but the partial file changes, and it keeps to what was received. */
  method WriteNext(part: PartFile, data: Bytes, ghost before: map<Path, Bytes>) returns (ok: bool)
    requires part.Valid() && OnlyPart(before, part.disk.files, part.path, part.written)
    modifies part, part.disk
    ensures OnlyPart(before, part.disk.files, part.path, old(part.written) + data)
    ensures ok ==> part.Valid() && part.written == old(part.written) + data
    ensures ok == part.disk.io.works(old(part.disk.calls))
  {
    ok := part.WriteChunk(data);
  }

  /** What the loop knows after `n` items were taken in whole. */
  ghost predicate TakenIn(part: PartFile, limiter: TokenBucket?, body: seq<Item>, out: Outside, b0: Bucket, n: nat)
    reads part, part.disk, limiter
  {
    && n <= |body|
    && part.Valid() && part.written == Received(body, n)
    && (limiter != null ==>
          limiter.Valid() && BalanceOf(limiter) == BucketAfter(limiter.rate, b0, body, out.waits, n))
    && (forall k :: 0 <= k < n ==> !Oversized(RateOf(limiter), body[k]))
  }

  /** One item of the body: past an empty chunk, or through the limiter and into the file. */
  method Take(part: PartFile, limiter: TokenBucket?, body: seq<Item>, out: Outside, i: nat, ghost b0: Bucket,
              ghost before: map<Path, Bytes>)
    returns (end: Option<Ending>)
    requires TakenIn(part, limiter, body, out, b0, i) && i < |body|
    requires OnlyPart(before, part.disk.files, part.path, Received(body, i))
    modifies part, part.disk, limiter
    ensures OnlyPart(before, part.disk.files, part.path, Received(body, i + 1))
    ensures end.None? ==> body[i].Chunk? && TakenIn(part, limiter, body, out, b0, i + 1)
    ensures body[i].Lost? ==> end == Some(Broke(Network(body[i].what)))
    ensures end.Some? && body[i].Chunk? ==> end == Some(Asleep(i)) || end == Some(Broke(Filesystem))
    ensures end == Some(Asleep(i)) ==> limiter != null && Solid(body[i])
    ensures (limiter != null ==> SleepsAreHonoured(limiter.rate, b0, body, out.waits)) && body[i].Chunk? ==>
              (end == Some(Asleep(i)) <==> Oversized(RateOf(limiter), body[i]))
    ensures (forall n :: part.disk.io.works(n)) ==> end != Some(Broke(Filesystem))
  {
    assert Received(body, i + 1) == part.written + if body[i].Chunk? then body[i].data else [];
    if body[i].Lost? {
      return Some(Broke(Network(body[i].what)));
    }
    if body[i].data == [] {
      return None;
    }
    if limiter != null && SleepsAreHonoured(limiter.rate, b0, body, out.waits) {
      ComesBackExactlyWhen(limiter.rate, b0, body, out.waits, i);
    }
    var passed := Admit(limiter, body[i], out.waits(i));
    if !passed {
      return Some(Asleep(i));
    }
    var ok := WriteNext(part, body[i].data, before);
    end := if ok then None else Some(Broke(Filesystem));
  }

  /**
   * Moves the body into the partial file, item by item, until it ends, fails, is cancelled, or the limiter does not let
   * it go on. `done` is the number of items taken in whole, `asked` that of the items received.
   */
  method Receive(part: PartFile, limiter: TokenBucket?, announced: Option<u64>, body: seq<Item>, out: Outside)
    returns (end: Ending, downloaded: u64, reports: seq<Report>, ghost done: nat, ghost asked: nat)
    requires part.Valid() && part.written == [] && (limiter != null ==> limiter.Valid())
    modifies part, part.disk, limiter
    ensures done <= asked <= |body| && asked <= done + 1
    ensures OnlyPart(old(part.disk.files), part.disk.files, part.path, Received(body, asked))
    ensures forall k :: 0 <= k < done ==> !Oversized(RateOf(limiter), body[k])
    ensures end.Whole? ==>
              && part.Valid() && part.written == Received(body, |body|) && downloaded == Count(|part.written|)
              && EndOf(body, out.cancelled, RateOf(limiter), 0).Whole?
    ensures end == Broke(Cancelled) <==> asked == done && out.cancelled(asked)
    ensures end.Broke? ==>
              || end.error == Cancelled || end.error == Filesystem
              || (done < |body| && body[done].Lost? && end.error == Network(body[done].what))
    ensures end.Asleep? ==> limiter != null && end.at == done < asked && Solid(body[done])
    ensures end.Asleep? && old(Patient(limiter, body, out.waits)) ==>
              end == EndOf(body, out.cancelled, RateOf(limiter), 0)
    ensures (forall n :: part.disk.io.works(n)) && old(Patient(limiter, body, out.waits)) ==>
              end == EndOf(body, out.cancelled, RateOf(limiter), 0)
    ensures reports == if out.listening then MeterAfter(body, announced, out.clock, done).reports else []
  {
    downloaded, reports, done, asked := 0, [], 0, 0;
    var lastEmit, readings := out.clock(0), 1;
    var i := 0;
    ghost var b0 := BalanceOf(limiter);
    ghost var before := part.disk.files;
    while true
      invariant i <= |body| && done == asked == i
      invariant TakenIn(part, limiter, body, out, b0, i) && downloaded == Count(|part.written|)
      invariant OnlyPart(before, part.disk.files, part.path, Received(body, i))
      invariant EndOf(body, out.cancelled, RateOf(limiter), 0) == EndOf(body, out.cancelled, RateOf(limiter), i)
      invariant out.listening ==> Meter(reports, lastEmit, readings) == MeterAfter(body, announced, out.clock, i)
      invariant !out.listening ==> reports == []
      decreases |body| - i
    {
      if out.cancelled(i) {
        return Broke(Cancelled), downloaded, reports, done, asked;
      }
      if i == |body| {
        break;
      }
      asked := i + 1;
      CountGrows(|part.written|, if body[i].Chunk? then |body[i].data| else 0);
      var stop := Take(part, limiter, body, out, i, b0, before);
      if stop.Some? {
        return stop.value, downloaded, reports, done, asked;
      }
      downloaded := SaturatingAdd(downloaded, |body[i].data|);
      if body[i].data != [] && out.listening {
        var now := out.clock(readings);
        readings := readings + 1;
        if now - lastEmit >= THROTTLE_MS {
          reports := reports + [Report(downloaded, announced)];
          lastEmit := now;
        }
      }
      i, done := i + 1, i + 1;
    }
    end := Whole;
  }

  // ---------------------------------------------------------------- the completion

  /** The destination holds everything that was received, the partial file is gone, no other path changed. */
  ghost predicate Completed(before: map<Path, Bytes>, after: map<Path, Bytes>, output: Path, part: Path, data: Bytes) {
    part !in before && part !in after && after == before[output := data]
  }

  /** The destination is as it was; at most a partial file was added, holding a beginning of what was received. */
  ghost predicate Untouched(before: map<Path, Bytes>, after: map<Path, Bytes>, output: Path, part: Path,
                            received: Bytes)
  {
    && (output in after <==> output in before) && (output in before ==> after[output] == before[output])
    && (after == before || (part !in before && OnlyPart(before, after, part, received)))
  }

  /** The look before the rename, the last call but one, failed. */
  ghost predicate SecondLookFailed(disk: Disk)
    reads disk
  {
    2 <= disk.calls && !disk.io.works(disk.calls - 2)
  }

  /** The checks and the end of the transfer of a body that was received into `part`. */
  method Complete(part: PartFile, announced: Option<u64>, downloaded: u64, final: Path, overwrite: bool)
    returns (error: Option<Error>)
    requires part.Valid() && part.path != final
    modifies part, part.disk
    ensures error.None? ==>
              && VerifyLength(announced, downloaded)
              && part.disk.files == (old(part.disk.files) - {part.path})[final := old(part.written)]
    ensures error.None? && !overwrite && final in old(part.disk.files) ==> SecondLookFailed(part.disk)
    ensures error.Some? ==> OnlyPart(old(part.disk.files), part.disk.files, part.path, old(part.written))
    ensures error.Some? ==> error.value.InvalidResponse? || error.value.Filesystem? || error.value.AlreadyExists?
    ensures error == Some(AlreadyExists) ==> !overwrite && final in old(part.disk.files)
    ensures (forall n :: part.disk.io.works(n)) && (overwrite || final !in old(part.disk.files)) ==>
              error == if VerifyLength(announced, downloaded) then None else Some(InvalidResponse)
  {
    if !VerifyLength(announced, downloaded) {
      assert part.disk.files[part.path] <= part.disk.files[part.path] + part.buffer;
      return Some(InvalidResponse);
    }
    ghost var before := part.disk.files;
    var ok := part.Flush();
    if !ok {
      return Some(Filesystem);
    }
    error := Finalize(part, final, overwrite);
    if error.None? {
      assert part.disk.files == (before - {part.path})[final := old(part.written)];
    }
  }

  lemma RenameCompletes(before: map<Path, Bytes>, created: map<Path, Bytes>, received: map<Path, Bytes>,
                        after: map<Path, Bytes>, output: Path, part: Path, data: Bytes)
    requires part != output && part !in before && created == before[part := []]
    requires part in received && received == created[part := received[part]]
    requires after == (received - {part})[output := data]
    ensures Completed(before, after, output, part, data)
  {}

  lemma LeftoverIsUntouched(before: map<Path, Bytes>, created: map<Path, Bytes>, after: map<Path, Bytes>, output: Path,
                            part: Path, received: Bytes)
    requires part != output && part !in before && created == before[part := []]
    requires OnlyPart(created, after, part, received)
    ensures Untouched(before, after, output, part, received)
  {}

  // ---------------------------------------------------------------- the whole transfer

  /** What comes of a body once it is being received, if nothing outside fails. */
  function Settled(announced: Option<u64>, body: seq<Item>, cancelled: nat -> bool, rate: Option<u64>): Outcome {
    var count := Count(|Received(body, |body|)|);
    match EndOf(body, cancelled, rate, 0)
    case Broke(error) => GaveUp(error)
    case Asleep(_) => Waiting
    case Whole => if VerifyLength(announced, count) then Done(count) else GaveUp(InvalidResponse)
  }

  /** What keeps a transfer from receiving anything, on a filesystem that never fails. */
  function Hindrance(req: Request, overwrite: bool, files: map<Path, Bytes>, response: Response, uuid: string)
    : Option<Error>
  {
    if ValidRequest(req).Some? then ValidRequest(req)
    else if req.output in files && !overwrite then Some(AlreadyExists)
    else if response.Refused? then Some(response.error)
    else if PartPath(req.output, uuid) in files then Some(Filesystem)
    else None
  }

  /** The whole transfer on a filesystem that never fails, with a limiter whose sleeps are honoured. */
  function Expected(req: Request, overwrite: bool, files: map<Path, Bytes>, response: Response, cancelled: nat -> bool,
                    rate: Option<u64>, uuid: string): Outcome
  {
    match Hindrance(req, overwrite, files, response, uuid)
    case Some(error) => GaveUp(error)
    case None => Settled(response.announced, response.body, cancelled, rate)
  }

  /** On such a filesystem a transfer succeeds exactly when nothing was wrong with request, response, body or limiter. */
  lemma SucceedsExactlyWhen(req: Request, overwrite: bool, files: map<Path, Bytes>, response: Response,
                            cancelled: nat -> bool, rate: Option<u64>, uuid: string)
    ensures Expected(req, overwrite, files, response, cancelled, rate, uuid).Done? <==>
              && (req.scheme == "http" || req.scheme == "https") && Acceptable(req.output) && req.maxRedirects > 0
              && (overwrite || req.output !in files)
              && response.Streaming? && PartPath(req.output, uuid) !in files
              && (forall k :: 0 <= k <= |response.body| ==> !cancelled(k))
              && (forall k :: 0 <= k < |response.body| ==>
                    response.body[k].Chunk? && !Oversized(rate, response.body[k]))
              && (response.announced.Some? ==>
                    response.announced.value == Count(|Received(response.body, |response.body|)|))
  {
    NoObjection(req.output);
    if response.Streaming? {
      WholeExactlyWhen(response.body, cancelled, rate, 0);
    }
  }

  /**
   * How a transfer ends, by how its loop did: with the loop's own error, waiting with it, or, once the body is whole,
   * with success or what the completion meets.
   */
  predicate Concluded(end: Ending, outcome: Outcome) {
    match end
    case Broke(error) => outcome == GaveUp(error)
    case Asleep(_) => outcome == Waiting
    case Whole =>
      outcome.Done? || outcome in {GaveUp(InvalidResponse), GaveUp(Filesystem), GaveUp(AlreadyExists)}
  }

  /** A request that can be sent for, and kept. */
  predicate Sound(req: Request) {
    (req.scheme == "http" || req.scheme == "https") && Acceptable(req.output) && req.maxRedirects > 0
  }

  /** Nothing stands in the way of receiving a body. */
  predicate Unhindered(req: Request, overwrite: bool, files: map<Path, Bytes>, response: Response, uuid: string) {
    && Sound(req) && (overwrite || req.output !in files) && response.Streaming?
    && PartPath(req.output, uuid) !in files
  }

  lemma UnhinderedExactlyWhen(req: Request, overwrite: bool, files: map<Path, Bytes>, response: Response, uuid: string)
    ensures Hindrance(req, overwrite, files, response, uuid).None? <==>
              Unhindered(req, overwrite, files, response, uuid)
  {
    NoObjection(req.output);
  }

  /** Which error a request is refused with: the scheme comes first, then the destination, then the redirects. */
  lemma RefusedRequests(req: Request)
    ensures var (web, objection) := (req.scheme == "http" || req.scheme == "https", FirstObjection(req.output));
            && (ValidRequest(req).None? <==> Sound(req))
            && (ValidRequest(req) == Some(InvalidUrl) <==> !web || (Acceptable(req.output) && req.maxRedirects == 0))
            && (ValidRequest(req) == Some(InvalidPath) <==> web && objection.Some? && objection.value.BadPath?)
            && (ValidRequest(req) == Some(InvalidFileName) <==> web && objection.Some? && objection.value.BadName?)
            && (ValidRequest(req).Some? ==> ValidRequest(req).value in {InvalidUrl, InvalidPath, InvalidFileName})
  {
    NoObjection(req.output);
  }

  /** Before a body: which error stops a transfer, if the filesystem never fails, in the order of the checks. */
  lemma HinderedBySituation(req: Request, overwrite: bool, files: map<Path, Bytes>, response: Response,
                            cancelled: nat -> bool, rate: Option<u64>, uuid: string)
    requires Sound(req)
    ensures var outcome := Expected(req, overwrite, files, response, cancelled, rate, uuid);
            var taken := req.output in files && !overwrite;
            && (taken ==> outcome == GaveUp(AlreadyExists))
            && (!taken && response.Refused? ==> outcome == GaveUp(response.error))
            && (!taken && response.Streaming? && PartPath(req.output, uuid) in files ==> outcome == GaveUp(Filesystem))
  {
    NoObjection(req.output);
  }

  /** With a body: how a transfer ends, if the filesystem never fails, by what comes first. */
  lemma OutcomeBySituation(req: Request, overwrite: bool, files: map<Path, Bytes>, response: Response,
                           cancelled: nat -> bool, rate: Option<u64>, uuid: string, k: nat)
    requires Unhindered(req, overwrite, files, response, uuid) && k <= |response.body|
    requires Undisturbed(response.body, cancelled, rate, 0, k)
    ensures var outcome := Expected(req, overwrite, files, response, cancelled, rate, uuid);
            var (body, received) := (response.body, Count(|Received(response.body, |response.body|)|));
            && (cancelled(k) ==> outcome == GaveUp(Cancelled))
            && (!cancelled(k) && k < |body| && body[k].Lost? ==> outcome == GaveUp(Network(body[k].what)))
            && (!cancelled(k) && k < |body| && Oversized(rate, body[k]) ==> outcome == Waiting)
            && (!cancelled(k) && k == |body| ==>
                  outcome == if response.announced == None || response.announced == Some(received) then Done(received)
                             else GaveUp(InvalidResponse))
  {
    UnhinderedExactlyWhen(req, overwrite, files, response, uuid);
    var body := response.body;
    CancelledExactlyWhen(body, cancelled, rate, 0);
    if !cancelled(k) && k < |body| {
      if body[k].Lost? {
        LostExactlyWhen(body, cancelled, rate, 0, body[k].what);
      } else if Oversized(rate, body[k]) {
        AsleepExactlyWhen(body, cancelled, rate, 0, k);
      }
    } else if !cancelled(k) {
      assert forall j :: 0 <= j <= |body| ==> !cancelled(j);
      WholeExactlyWhen(body, cancelled, rate, 0);
    }
  }

  /** The transfer of a body into a fresh partial file, and its completion. */
  method Transfer(disk: Disk, part: PartFile, limiter: TokenBucket?, announced: Option<u64>, body: seq<Item>, final: Path,
                  overwrite: bool, out: Outside, ghost before: map<Path, Bytes>)
    returns (outcome: Outcome, reports: seq<Report>, ghost done: nat, ghost asked: nat, ghost end: Ending)
    requires part.disk == disk && part.Valid() && part.written == [] && part.path != final
    requires part.path !in before && disk.files == before[part.path := []]
    requires limiter != null ==> limiter.Valid()
    modifies part, disk, limiter
    ensures done <= asked <= |body|
    ensures forall k :: 0 <= k < done ==> !Oversized(RateOf(limiter), body[k])
    ensures outcome.Done? ==>
              && Completed(before, disk.files, final, part.path, Received(body, |body|))
              && EndOf(body, out.cancelled, RateOf(limiter), 0).Whole?
              && outcome.total == Count(|Received(body, |body|)|)
              && VerifyLength(announced, outcome.total)
    ensures outcome.Done? && !overwrite && final in before ==> SecondLookFailed(disk)
    ensures !outcome.Done? ==> Untouched(before, disk.files, final, part.path, Received(body, asked))
    ensures Concluded(end, outcome)
    ensures end == Broke(Cancelled) <==> asked == done && out.cancelled(asked)
    ensures end.Broke? ==>
              || end.error == Cancelled || end.error == Filesystem
              || (done < |body| && body[done].Lost? && end.error == Network(body[done].what))
    ensures outcome.Waiting? ==> limiter != null && done < asked && Solid(body[done])
    ensures outcome.Waiting? && old(Patient(limiter, body, out.waits)) ==>
              EndOf(body, out.cancelled, RateOf(limiter), 0) == Asleep(done)
    ensures (forall n :: disk.io.works(n)) && old(Patient(limiter, body, out.waits)) && (overwrite || final !in before) ==>
              outcome == Settled(announced, body, out.cancelled, RateOf(limiter))
    ensures reports == if out.listening then MeterAfter(body, announced, out.clock, done).reports else []
  {
    ghost var created := disk.files;
    var downloaded;
    var how;
    how, downloaded, reports, done, asked := Receive(part, limiter, announced, body, out);
    end := how;
    if !how.Whole? {
      LeftoverIsUntouched(before, created, disk.files, final, part.path, Received(body, asked));
      outcome := if how.Asleep? then Waiting else GaveUp(how.error);
      return;
    }
    asked := |body|;
    ghost var received := disk.files;
    var error := Complete(part, announced, downloaded, final, overwrite);
    if error.Some? {
      LeftoverIsUntouched(before, created, disk.files, final, part.path, Received(body, asked));
      outcome := GaveUp(error.value);
      return;
    }
    RenameCompletes(before, created, received, disk.files, final, part.path, Received(body, |body|));
    outcome := Done(downloaded);
  }

  /** The checks before a transfer: a fresh partial file, or the error that stops it before it wrote anything. */
  method Prepare(disk: Disk, req: Request, overwrite: bool, response: Response, uuid: string)
    returns (error: Option<Error>, part: PartFile?)
    modifies disk
    ensures error.Some? ==> part == null && disk.files == old(disk.files)
    ensures error.None? ==>
              && ValidRequest(req).None? && response.Streaming?
              && part != null && fresh(part) && part.disk == disk && part.path == PartPath(req.output, uuid)
              && part.Valid() && part.written == [] && part.path !in old(disk.files)
              && disk.files == old(disk.files)[part.path := []]
    ensures error.None? && !overwrite && req.output in old(disk.files) ==> !disk.io.works(old(disk.calls))
    ensures error != Some(Cancelled)
    ensures (forall n :: disk.io.works(n)) ==> error == Hindrance(req, overwrite, old(disk.files), response, uuid)
  {
    part := null;
    error := ValidateRequest(req);
    if error.Some? {
      return;
    }
    var found := disk.Exists(req.output);
    if found && !overwrite {
      return Some(AlreadyExists), null;
    }
    var ok := disk.Call();
    if !ok {
      return Some(Filesystem), null;
    }
    if response.Refused? {
      return Some(response.error), null;
    }
    part := CreatePartFile(disk, req.output, uuid);
    error := if part == null then Some(Filesystem) else None;
  }

  /**
   * All or nothing. A transfer that succeeds leaves the destination holding exactly the bytes received, as many as
   * were announced, and no partial file. One that fails, or that the limiter keeps waiting, leaves the destination
   * alone, whatever went wrong. `uuid` is the fresh tag drawn; `end` is how the loop ended, if it was reached.
   */
  method Download(disk: Disk, limiter: TokenBucket?, req: Request, overwrite: bool, response: Response, out: Outside,
                  uuid: string)
    returns (outcome: Outcome, reports: seq<Report>, ghost done: nat, ghost asked: nat, ghost end: Option<Ending>)
    requires limiter != null ==> limiter.Valid()
    modifies disk, limiter
    ensures response.Streaming? ==> done <= asked <= |response.body|
    ensures response.Streaming? ==> forall k :: 0 <= k < done ==> !Oversized(RateOf(limiter), response.body[k])
    ensures outcome.Done? ==>
              && ValidRequest(req).None? && response.Streaming?
              && Completed(old(disk.files), disk.files, req.output, PartPath(req.output, uuid),
                           Received(response.body, |response.body|))
              && EndOf(response.body, out.cancelled, RateOf(limiter), 0).Whole?
              && outcome.total == Count(|disk.files[req.output]|)
              && (response.announced.Some? ==> response.announced.value == outcome.total)
    ensures outcome.Done? && !overwrite && req.output in old(disk.files) ==>
              !disk.io.works(old(disk.calls)) && SecondLookFailed(disk)
    ensures !outcome.Done? && ValidRequest(req).Some? ==> disk.files == old(disk.files)
    ensures !outcome.Done? ==>
              Untouched(old(disk.files), disk.files, req.output, PartPath(req.output, uuid),
                        if response.Streaming? then Received(response.body, asked) else [])
    ensures end.Some? ==> response.Streaming? && Concluded(end.value, outcome)
    ensures end == Some(Broke(Cancelled)) ==> asked == done && out.cancelled(asked)
    ensures end.Some? && asked == done && out.cancelled(asked) ==> end == Some(Broke(Cancelled))
    ensures end.None? ==> outcome.GaveUp? && outcome.error != Cancelled && disk.files == old(disk.files)
    ensures outcome.Waiting? ==> limiter != null && response.Streaming? && done < asked && Solid(response.body[done])
    ensures outcome.Waiting? && old(Patient(limiter, response.body, out.waits)) ==>
              EndOf(response.body, out.cancelled, RateOf(limiter), 0) == Asleep(done)
    ensures (forall n :: disk.io.works(n))
            && (response.Streaming? ==> old(Patient(limiter, response.body, out.waits))) ==>
              outcome == Expected(req, overwrite, old(disk.files), response, out.cancelled, RateOf(limiter), uuid)
    ensures response.Streaming? && out.listening ==>
              reports == MeterAfter(response.body, response.announced, out.clock, done).reports
                         + if outcome.Done? then [Report(outcome.total, Some(outcome.total))] else []
    ensures !out.listening ==> reports == []
  {
    ghost var before := disk.files;
    var hindrance, part := Prepare(disk, req, overwrite, response, uuid);
    if hindrance.Some? {
      return GaveUp(hindrance.value), [], 0, 0, None;
    }
    PartPathIsElsewhere(req.output, uuid, uuid);
    ghost var how;
    outcome, reports, done, asked, how :=
      Transfer(disk, part, limiter, response.announced, response.body, req.output, overwrite, out, before);
    end := Some(how);
    if outcome.Done? && out.listening {
      var total := if response.announced.Some? then response.announced else Some(outcome.total);
      reports := reports + [Report(outcome.total, total)];
    }
  }
}
