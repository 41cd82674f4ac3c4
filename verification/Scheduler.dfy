/** The pure selector: which queued downloads may start now. */
module Scheduler {
  import opened Queues

  /** `limit` minus `active`, stopping at zero. */
  function Capacity(active: nat, limit: nat): nat {
    if active >= limit then 0 else limit - active
  }

  function SelectForStart(queue: seq<Id>, active: nat, limit: nat): (ids: seq<Id>)
    ensures ids <= queue
    ensures |ids| + active <= limit || ids == []
    ensures ids == queue || |ids| + active >= limit
  {
    var capacity := Capacity(active, limit);
    if capacity <= |queue| then queue[..capacity] else queue
  }
}
