/** Submitting a request once, by any number of clients at a time
    (services/api/src/queue/submit.py; who calls `release` is services/api/src/api/openai/routes.py).

    Every broker call is one step. A watched key has a version, which every write to it moves on;
    the transaction commits only if both watched versions are still the ones it saw. */
module Submission {
  import opened Wrappers

  datatype Status = Queued | Running | Done | Failed

  /** The versions of the request record and the thread's job pointer when they were watched. */
  datatype Watched = Watched(record: nat, thread: nat)

  datatype Pc =
    // `attachable` before anything is watched.
    | Look
    | LookStatus(found: nat)
    // `submit_once`, one pass of its loop.
    | Watch
    | Get(w: Watched)
    | GetStatus(w: Watched, found: nat)
    | GetPrevious(w: Watched)
    | GetPreviousStatus(w: Watched, previous: nat)
    | Exec(w: Watched, behind: bool)
    // Waiting for the answer of `queued`.
    | Waiting(queued: nat)
    // `release`: what it read still stands, or the record has been removed or replaced since.
    | ReleaseGet(answered: nat)
    | ReleaseDelete(released: nat, vacated: bool)
    | Over

  /** A job on the `jobs` stream, under the request key and on the thread it was queued for. */
  datatype Entry = Entry(key: nat, thread: nat, job: nat)

  /** A request in progress: its record's key, its thread, and the job it would queue. */
  datatype Client = Client(key: nat, thread: nat, job: nat, pc: Pc)

  datatype World = World(
    records: map<nat, nat>,
    threadJobs: map<nat, nat>,
    recordVersion: map<nat, nat>,
    threadVersion: map<nat, nat>,
    status: map<nat, Status>,
    clients: map<nat, Client>,
    // History: the jobs queued, in order, those whose `done` event is on the log, those whose record
    // expired or was released for them, and those whose record another job's release took away.
    queued: seq<Entry>,
    won: set<nat>,
    released: set<nat>,
    stray: set<nat>)

  const EMPTY := World(map[], map[], map[], map[], map[], map[], [], {}, {}, {})

  function Version(m: map<nat, nat>, k: nat): nat {
    if k in m then m[k] else 0
  }

  function Bumped(m: map<nat, nat>, k: nat): map<nat, nat> {
    m[k := Version(m, k) + 1]
  }

  /** `status in (None, FAILED)`: the job a record names can be queued again. */
  predicate Dead(w: World, job: nat) {
    job !in w.status || w.status[job].Failed?
  }

  predicate Live(w: World, job: nat) {
    job in w.status && (w.status[job].Queued? || w.status[job].Running?)
  }

  datatype Action =
    // A request arrives, with a job id nobody has used.
    | Arrive(id: nat, key: nat, thread: nat, job: nat)
    // The client's next broker call.
    | Call(id: nat)
    // The answer of its job was delivered in full: the client begins to release its request.
    | Delivered(id: nat)
    // The worker's side: started, `done` published, marked done, failed.
    | Start(job: nat)
    | Win(job: nat)
    | MarkDone(job: nat)
    | Fail(job: nat)
    // Out of the ordinary: `dead` overwrites a finished job, or a key expires.
    | GiveUp(job: nat)
    | ExpireStatus(job: nat)
    // `noticed` when a client that watches the key finds it written.
    | ExpireRecord(key: nat, noticed: bool)
    | ExpireThread(thread: nat, noticed: bool)

  predicate Can(w: World, a: Action) {
    match a
    case Arrive(id, _, _, job) =>
      && id !in w.clients && job !in w.status
      && (forall c | c in w.clients :: w.clients[c].job != job)
      && (forall i | 0 <= i < |w.queued| :: w.queued[i].job != job)
    case Call(id) => id in w.clients && !w.clients[id].pc.Waiting? && !w.clients[id].pc.Over?
    case Delivered(id) => id in w.clients && w.clients[id].pc.Waiting? && w.clients[id].pc.queued in w.won
    case Start(job) => job in w.status && w.status[job].Queued?
    case Win(job) => job in w.status && w.status[job].Running?
    case MarkDone(job) => job in w.won && job in w.status && w.status[job].Running?
    case Fail(job) => Live(w, job) && job !in w.won
    case GiveUp(job) => job in w.status
    case ExpireStatus(job) => job in w.status
    case ExpireRecord(key, _) => key in w.records
    case ExpireThread(thread, _) => thread in w.threadJobs
  }

  /** The record under `key` is gone or another's: a release that read it is out of date. */
  function Vacate(clients: map<nat, Client>, key: nat): map<nat, Client> {
    map id | id in clients ::
      if clients[id].key == key && clients[id].pc.ReleaseDelete? then
        clients[id].(pc := ReleaseDelete(clients[id].pc.released, true))
      else clients[id]
  }

  function Removed(w: World, key: nat, noticed: bool): World {
    w.(records := w.records - {key},
       recordVersion := if noticed then Bumped(w.recordVersion, key) else w.recordVersion,
       clients := Vacate(w.clients, key))
  }

  function Go(w: World, id: nat, pc: Pc): World
    requires id in w.clients
  {
    w.(clients := w.clients[id := w.clients[id].(pc := pc)])
  }

  /** The transaction: the record, the thread's pointer, the status and the stream entry. */
  function Committed(w: World, c: Client): World {
    w.(records := w.records[c.key := c.job],
       threadJobs := w.threadJobs[c.thread := c.job],
       recordVersion := Bumped(w.recordVersion, c.key),
       threadVersion := Bumped(w.threadVersion, c.thread),
       status := w.status[c.job := Queued],
       clients := Vacate(w.clients, c.key),
       queued := w.queued + [Entry(c.key, c.thread, c.job)])
  }

  function Called(w: World, id: nat): World
    requires Can(w, Call(id))
  {
    var c := w.clients[id];
    match c.pc
    case Look => Go(w, id, if c.key in w.records then LookStatus(w.records[c.key]) else Watch)
    case LookStatus(found) => Go(w, id, if Dead(w, found) then Watch else Waiting(found))
    case Watch => Go(w, id, Get(Watched(Version(w.recordVersion, c.key), Version(w.threadVersion, c.thread))))
    case Get(seen) => Go(w, id, if c.key in w.records then GetStatus(seen, w.records[c.key]) else GetPrevious(seen))
    case GetStatus(seen, found) => Go(w, id, if Dead(w, found) then GetPrevious(seen) else Waiting(found))
    case GetPrevious(seen) =>
      Go(w, id, if c.thread in w.threadJobs then GetPreviousStatus(seen, w.threadJobs[c.thread]) else Exec(seen, false))
    case GetPreviousStatus(seen, previous) => Go(w, id, Exec(seen, Live(w, previous)))
    case Exec(seen, _) =>
      if seen == Watched(Version(w.recordVersion, c.key), Version(w.threadVersion, c.thread))
      then Go(Committed(w, c), id, Waiting(c.job))
      else Go(w, id, Watch)
    case ReleaseGet(job) =>
      Go(w, id, if c.key in w.records && w.records[c.key] == job then ReleaseDelete(job, false) else Over)
    case ReleaseDelete(job, _) =>
      var s := Go(w, id, Over);
      if c.key !in w.records then s
      else if w.records[c.key] == job then Removed(s, c.key, true).(released := w.released + {job})
      else Removed(s, c.key, true).(stray := w.stray + {w.records[c.key]})
    case _ => w
  }

  function Step(w: World, a: Action): World
    requires Can(w, a)
  {
    match a
    case Arrive(id, key, thread, job) => w.(clients := w.clients[id := Client(key, thread, job, Look)])
    case Call(id) => Called(w, id)
    case Delivered(id) => Go(w, id, ReleaseGet(w.clients[id].pc.queued))
    case Start(job) => w.(status := w.status[job := Running])
    case Win(job) => w.(won := w.won + {job})
    case MarkDone(job) => w.(status := w.status[job := Done])
    case Fail(job) => w.(status := w.status[job := Failed])
    case GiveUp(job) => w.(status := w.status[job := Failed])
    case ExpireStatus(job) => w.(status := w.status - {job})
    case ExpireRecord(key, noticed) => Removed(w, key, noticed).(released := w.released + {w.records[key]})
    case ExpireThread(thread, noticed) =>
      w.(threadJobs := w.threadJobs - {thread},
         threadVersion := if noticed then Bumped(w.threadVersion, thread) else w.threadVersion)
  }

  ghost predicate Runs(w: World, acts: seq<Action>)
    decreases |acts|
  {
    acts == [] || (Can(w, acts[0]) && Runs(Step(w, acts[0]), acts[1..]))
  }

  ghost function After(w: World, acts: seq<Action>): World
    requires Runs(w, acts)
    decreases |acts|
  {
    if acts == [] then w else After(Step(w, acts[0]), acts[1..])
  }
}
