/** A queued job's life between the broker and its workers
    (services/agent/src/worker/handler.py, queue/consumer.py, queue/reclaim.py).

    Every broker call is one atomic step; between two steps anything else may happen, a worker may
    die, and a call may take effect although its reply is lost. An entry of the `jobs` stream is
    one record here, and the tasks that handle its deliveries run side by side. */
module JobProtocol {
  import opened Wrappers

  datatype Status = Queued | Running | Done | Failed

  predicate Finished(s: Status) { s.Done? || s.Failed? }

  /** A job event: `Token` stands for every event that is not an outcome. */
  datatype Event = Token | DoneEvent | ErrorEvent(code: string)

  predicate Terminal(e: Event) { !e.Token? }

  const INTERRUPTED := ErrorEvent("JOB_INTERRUPTED")
  const ABANDONED := ErrorEvent("JOB_ABANDONED")

  /** Where a stream entry stands for the consumer group. */
  datatype Place = Unread | Pending | Acked

  /** What the task handling one delivery does next. */
  datatype Pc =
    | ReadStatus
    | MarkRunning
    | Executing
    | Publish(outcome: Event, dead: bool)
    | MarkFinished(marked: Event, afterDead: bool)
    | ReadLog
    | Park
    | Ack

  datatype Task = Task(count: nat, pc: Pc)

  /** A stream entry, its job's status hash and event log, and the live tasks on it. */
  datatype Record = Record(
    valid: bool,
    place: Place,
    deliveries: nat,
    status: Status,
    log: seq<Event>,
    parked: nat,
    tasks: map<nat, Task>,
    starts: nat)

  /** As `enqueue` and the API's submit leave it; `valid` when the payload parses as a job. */
  function Submitted(valid: bool): Record {
    Record(valid, Unread, 0, Queued, [], 0, map[], 0)
  }

  datatype Action =
    // XREADGROUP `>`; `kept` when the reader starts a task for the entry (its reply arrived, and
    // the worker is not shutting down).
    | Deliver(id: nat, kept: bool)
    // XAUTOCLAIM and the read of the delivery count.
    | Reclaim(id: nat, kept: bool)
    // The task's next broker call takes effect; `lost` when the worker never learns so.
    | Call(id: nat, lost: bool)
    // The run itself: it publishes an event, or ends.
    | Emit(id: nat)
    | Conclude(id: nat, outcome: Event)
    // A task ends without its next call: the worker died, or the call failed.
    | Die(id: nat)

  /** `handle`: an invalid payload is parked, a job delivered too often is given up, else it runs. */
  function FirstPc(valid: bool, count: nat, max: nat): Pc {
    if !valid then Park
    else if count > max then Publish(ABANDONED, true)
    else ReadStatus
  }

  function StatusFor(outcome: Event): Status {
    if outcome.DoneEvent? then Done else Failed
  }

  /** What a broker call does to the record, and what the task does after it. */
  function Effect(r: Record, pc: Pc): Record {
    match pc
    case MarkRunning => r.(status := Running)
    case Publish(outcome, _) => r.(log := r.log + [outcome])
    case MarkFinished(outcome, _) => r.(status := StatusFor(outcome))
    case Park => r.(parked := r.parked + 1)
    case Ack => r.(place := Acked)
    case _ => r
  }

  /** None when the task is over. */
  function NextPc(r: Record, pc: Pc): Option<Pc> {
    match pc
    case ReadStatus =>
      if Finished(r.status) then Some(Ack)
      else if r.status.Running? then Some(ReadLog)
      else Some(MarkRunning)
    case MarkRunning => Some(Executing)
    case Executing => Some(Executing)
    case Publish(outcome, dead) => Some(MarkFinished(outcome, dead))
    case MarkFinished(_, dead) => Some(if dead then Park else Ack)
    case ReadLog =>
      if r.log != [] && Terminal(r.log[|r.log| - 1]) then Some(MarkFinished(r.log[|r.log| - 1], false))
      else Some(Publish(INTERRUPTED, false))
    case Park => Some(Ack)
    case Ack => None
  }

  /** Whether the action can happen. `exclusive` is the promise of `keep_claimed`: an entry that a
      live task handles is never reclaimed. */
  predicate Can(r: Record, a: Action, exclusive: bool) {
    match a
    case Deliver(id, _) => r.place.Unread? && id !in r.tasks
    case Reclaim(id, _) => r.place.Pending? && id !in r.tasks && (exclusive ==> r.tasks == map[])
    case Call(id, _) => id in r.tasks && !r.tasks[id].pc.Executing?
    case Emit(id) => id in r.tasks && r.tasks[id].pc.Executing?
    case Conclude(id, outcome) => id in r.tasks && r.tasks[id].pc.Executing? && Terminal(outcome)
    case Die(id) => id in r.tasks
  }

  function Started(r: Record, id: nat, kept: bool, max: nat): Record {
    var s := r.(place := Pending, deliveries := r.deliveries + 1);
    if kept then s.(tasks := s.tasks[id := Task(s.deliveries, FirstPc(r.valid, s.deliveries, max))]) else s
  }

  function Step(r: Record, a: Action, max: nat): Record
    requires Can(r, a, false)
  {
    match a
    case Deliver(id, kept) => Started(r, id, kept, max)
    case Reclaim(id, kept) => Started(r, id, kept, max)
    case Call(id, lost) =>
      var t, s := r.tasks[id], Effect(r, r.tasks[id].pc);
      var next := NextPc(r, t.pc);
      if lost || next.None? then s.(tasks := s.tasks - {id})
      else
        s.(tasks := s.tasks[id := t.(pc := next.value)],
           starts := if next.value.Executing? then s.starts + 1 else s.starts)
    case Emit(id) => r.(log := r.log + [Token])
    case Conclude(id, outcome) => r.(tasks := r.tasks[id := r.tasks[id].(pc := Publish(outcome, false))])
    case Die(id) => r.(tasks := r.tasks - {id})
  }

  /** A run of the protocol on one entry, with every interleaving of its tasks. */
  ghost predicate Runs(r: Record, acts: seq<Action>, max: nat, exclusive: bool)
    decreases |acts|
  {
    acts == [] || (Can(r, acts[0], exclusive) && Runs(Step(r, acts[0], max), acts[1..], max, exclusive))
  }

  ghost function After(r: Record, acts: seq<Action>, max: nat): Record
    requires Runs(r, acts, max, false)
    decreases |acts|
  {
    if acts == [] then r else After(Step(r, acts[0], max), acts[1..], max)
  }
}
