/** What the scheduling loop does, against the pure selector: whom it starts, in which order, and whom it leaves alone. */
module Scheduling {
  import opened Wrappers
  import opened Lifecycle
  import opened Queues
  import opened Scheduler
  import opened Records
  import opened ManagerModel
  import opened Safety
  import opened Consistency

  /** Every id on the queue waits there once, for a download that is Queued. */
  ghost predicate Ready(s: Sys) {
    NoDup(s.queue) && forall id :: id in s.queue ==> StateOf(s, id) == Some(Queued)
  }

  function Selected(cfg: Config, s: Sys): seq<Id> {
    SelectForStart(s.queue, CountActive(s.downloads), cfg.limit)
  }

  /** Begins a batch of downloads, first to last. */
  function BeginAll(env: Env, s: Sys, ids: seq<Id>): Sys
    decreases |ids|
  {
    if ids == [] then s else BeginAll(env, BeginDownload(env, s, ids[0]), ids[1..])
  }

  /** `e` is the queued record `d` after being started: nothing else about it changed. */
  ghost predicate Begun(d: Download, e: Download) {
    d.state.Queued? && e == d.(state := Starting, updatedAt := e.updatedAt)
  }

  lemma BeginShape(env: Env, s: Sys, id: Id)
    requires StateOf(s, id) == Some(Queued)
    ensures var r := BeginDownload(env, s, id);
            && id in r.downloads && r.downloads == s.downloads[id := r.downloads[id]]
            && Begun(s.downloads[id].info, r.downloads[id].info)
            && r.log == s.log + (if env.disk(s.dbCalls) then [StateChanged(id, Queued, Starting), OnStarted(id)] else [])
  {}

  /** Beginning a Queued download always counts, even when its save fails; it is announced only when it was saved. */
  lemma BeginEffect(env: Env, s: Sys, id: Id)
    requires StateOf(s, id) == Some(Queued)
    ensures var r := BeginDownload(env, s, id);
            && r.downloads.Keys == s.downloads.Keys
            && Begun(s.downloads[id].info, r.downloads[id].info)
            && (forall x :: x in s.downloads && x != id ==> r.downloads[x] == s.downloads[x])
            && CountActive(r.downloads) == CountActive(s.downloads) + 1
            && r.queue == s.queue
  {
    BeginShape(env, s, id);
    ActiveAfterUpdate(s.downloads, id, BeginDownload(env, s, id).downloads[id]);
  }

  lemma TransitionIgnoresQueue(env: Env, s: Sys, id: Id, next: DownloadState, error: Option<string>, q: seq<Id>)
    ensures var (r, reply) := TransitionState(env, s, id, next, error);
            TransitionState(env, s.(queue := q), id, next, error) == (r.(queue := q), reply)
  {}

  lemma BeginIgnoresQueue(env: Env, s: Sys, id: Id, q: seq<Id>)
    ensures BeginDownload(env, s.(queue := q), id) == BeginDownload(env, s, id).(queue := q)
  {
    TransitionIgnoresQueue(env, s, id, Starting, None, q);
  }

  lemma RestStillQueued(env: Env, s: Sys, ids: seq<Id>)
    requires ids != [] && NoDup(ids) && forall id :: id in ids ==> StateOf(s, id) == Some(Queued)
    ensures var r := BeginDownload(env, s, ids[0]);
            && NoDup(ids[1..]) && ids[0] !in ids[1..]
            && (forall id :: id in ids ==> id == ids[0] || id in ids[1..])
            && (forall id :: id in ids[1..] ==> StateOf(r, id) == Some(Queued))
            && r.downloads.Keys == s.downloads.Keys
            && ids[0] in s.downloads && Begun(s.downloads[ids[0]].info, r.downloads[ids[0]].info)
            && (forall x :: x in s.downloads && x != ids[0] ==> r.downloads[x] == s.downloads[x])
            && CountActive(r.downloads) == CountActive(s.downloads) + 1
            && r.queue == s.queue
  {
    Tail(ids);
    BeginEffect(env, s, ids[0]);
  }

  lemma {:induction false} BeginAllEffect(env: Env, s: Sys, ids: seq<Id>)
    requires NoDup(ids) && forall id :: id in ids ==> StateOf(s, id) == Some(Queued)
    ensures var r := BeginAll(env, s, ids);
            && r.downloads.Keys == s.downloads.Keys && (forall id :: id in ids ==> id in s.downloads)
            && (forall id :: id in ids ==> Begun(s.downloads[id].info, r.downloads[id].info))
            && (forall x :: x in s.downloads && x !in ids ==> r.downloads[x] == s.downloads[x])
            && CountActive(r.downloads) == CountActive(s.downloads) + |ids|
            && r.queue == s.queue
    decreases |ids|
  {
    if ids != [] {
      RestStillQueued(env, s, ids);
      BeginAllEffect(env, BeginDownload(env, s, ids[0]), ids[1..]);
    }
  }

  /** After the first start the selector, asked again, offers the rest of what it offered before. */
  lemma SelectionShrinks(cfg: Config, env: Env, s: Sys)
    requires Ready(s) && Selected(cfg, s) != []
    ensures var (s1, ids) := (StartOne(env, s, s.queue[0]), Selected(cfg, s));
            && ids[0] == s.queue[0] && s1.queue == s.queue[1..]
            && Ready(s1) && Selected(cfg, s1) == ids[1..]
  {
    var id := s.queue[0];
    assert id in s.queue;
    WithoutHead(s.queue);
    Tail(s.queue);
    BeginEffect(env, s.(queue := s.queue[1..]), id);
  }

  /**
   * Starting one download at a time, counting and selecting anew after each, comes to selecting once and
   * starting the whole selection in order; the rest of the queue stays as it was.
   */
  lemma {:induction false} ScheduleRefinesSelector(cfg: Config, env: Env, s: Sys)
    requires Ready(s)
    ensures var ids := Selected(cfg, s);
            Schedule(cfg, env, s) == BeginAll(env, s.(queue := s.queue[|ids|..]), ids)
    decreases |s.queue|
  {
    var ids := Selected(cfg, s);
    if ids == [] {
      assert s.queue[0..] == s.queue;
    } else {
      var s1 := StartOne(env, s, s.queue[0]);
      SelectionShrinks(cfg, env, s);
      ScheduleRefinesSelector(cfg, env, s1);
      assert s1.queue[|ids| - 1..] == s.queue[|ids|..];
      BeginIgnoresQueue(env, s, s.queue[0], s.queue[1..]);
      BeginIgnoresQueue(env, s, s.queue[0], s.queue[|ids|..]);
    }
  }

  /** Everything scheduling does, by the selection: these start, the others neither move nor change. */
  lemma ScheduleEffect(cfg: Config, env: Env, s: Sys)
    requires Ready(s)
    ensures var (r, ids) := (Schedule(cfg, env, s), Selected(cfg, s));
            && r.queue == s.queue[|ids|..]
            && r.downloads.Keys == s.downloads.Keys && (forall id :: id in ids ==> id in s.downloads)
            && (forall id :: id in ids ==> Begun(s.downloads[id].info, r.downloads[id].info))
            && (forall x :: x in s.downloads && x !in ids ==> r.downloads[x] == s.downloads[x])
            && CountActive(r.downloads) == CountActive(s.downloads) + |ids|
  {
    var ids := Selected(cfg, s);
    ScheduleRefinesSelector(cfg, env, s);
    assert forall id :: id in ids ==> id in s.queue;
    BeginAllEffect(env, s.(queue := s.queue[|ids|..]), ids);
  }

  /** The downloads announced as started, in order. */
  function StartedIds(log: seq<Event>): seq<Id> {
    if log == [] then []
    else StartedIds(log[..|log| - 1]) + if log[|log| - 1].OnStarted? then [log[|log| - 1].id] else []
  }

  lemma StartedIdsAfterBegin(log: seq<Event>, id: Id)
    ensures StartedIds(log + [StateChanged(id, Queued, Starting), OnStarted(id)]) == StartedIds(log) + [id]
  {
    var l1 := log + [StateChanged(id, Queued, Starting)];
    var l2 := l1 + [OnStarted(id)];
    assert l2 == log + [StateChanged(id, Queued, Starting), OnStarted(id)];
    assert l2[..|l2| - 1] == l1 && l1[..|l1| - 1] == log;
  }

  lemma FirstThenRest(p: seq<Id>, ids: seq<Id>)
    requires ids != []
    ensures (p + [ids[0]]) + ids[1..] == p + ids
  {}

  lemma {:induction false} BeginAllAnnounces(env: Env, s: Sys, ids: seq<Id>)
    requires Reliable(env) && NoDup(ids) && forall id :: id in ids ==> StateOf(s, id) == Some(Queued)
    ensures StartedIds(BeginAll(env, s, ids).log) == StartedIds(s.log) + ids
    decreases |ids|
  {
    if ids != [] {
      RestStillQueued(env, s, ids);
      BeginShape(env, s, ids[0]);
      assert env.disk(s.dbCalls);
      StartedIdsAfterBegin(s.log, ids[0]);
      BeginAllAnnounces(env, BeginDownload(env, s, ids[0]), ids[1..]);
      FirstThenRest(StartedIds(s.log), ids);
    }
  }

  /** With a working database the Started events of one scheduling are the selection, in order. */
  lemma ScheduleAnnouncesSelection(cfg: Config, env: Env, s: Sys)
    requires Reliable(env) && Ready(s)
    ensures StartedIds(Schedule(cfg, env, s).log) == StartedIds(s.log) + Selected(cfg, s)
  {
    var ids := Selected(cfg, s);
    ScheduleRefinesSelector(cfg, env, s);
    assert forall id :: id in ids ==> id in s.queue;
    BeginAllAnnounces(env, s.(queue := s.queue[|ids|..]), ids);
  }

  /** Nothing that could run is left waiting. */
  predicate WorkConserving(cfg: Config, s: Sys) {
    s.queue == [] || CountActive(s.downloads) >= cfg.limit
  }

  /** Scheduling always ends with no work left that could run, in any state and on any disk. */
  lemma {:induction false} ScheduleConservesWork(cfg: Config, env: Env, s: Sys)
    ensures WorkConserving(cfg, Schedule(cfg, env, s))
    decreases |s.queue|
  {
    var ids := Selected(cfg, s);
    if ids != [] {
      ScheduleConservesWork(cfg, env, StartOne(env, s, ids[0]));
    }
  }
}
