/**
 Background leadership: every API replica polls for one Postgres session lock and starts its timers
 only while it holds it. A `World` is the database's sessions and lock plus the replicas; each await of
 the lease and of the controller is a step, and sessions may die at any time.
 */
module BackgroundLeader {
  import opened Wrappers

  // ----- the database

  /** Open sessions, and the one that holds the advisory lock. */
  datatype Server = Server(alive: set<nat>, holder: Option<nat>, next: nat)

  function CloseSession(db: Server, s: nat): Server {
    Server(db.alive - {s}, if db.holder == Some(s) then None else db.holder, db.next)
  }

  /** pg_try_advisory_lock on an open session: free, or already its own. */
  predicate CanLock(db: Server, s: nat) {
    s in db.alive && (db.holder.None? || db.holder == Some(s))
  }

  // ----- a replica

  datatype Job = Tick | StopJob

  datatype Verdict = Waiting | Yes | No | Broke      // the awaited query: unanswered, its answer, or an error

  datatype ProbeStage = BeforeStart | AfterStart | Renewal

  datatype Step =
    | Idle
    | Closing(session: nat)                           // tryAcquire: drop the previous session
    | Connecting
    | Locking(session: nat, verdict: Verdict)
    | Ending(session: nat)                            // not acquired: drop the new session
    | Probing(session: nat, stage: ProbeStage, verdict: Verdict)
    | Unlocking(session: nat)                         // release
    | Leaving(session: nat)

  datatype Callback = Start | Stop

  datatype Replica = Replica(
    client: Option<nat>,
    broken: bool,
    leading: bool,
    stopped: bool,
    queue: seq<Job>,          // jobs chained behind the running one
    step: Step,
    rejected: bool,           // the chain's last job threw
    released: bool,           // a stop job ran to its end
    callbacks: seq<Callback>)

  datatype World = World(db: Server, replicas: seq<Replica>)

  const FRESH := Replica(None, false, false, false, [], Idle, false, false, [])

  datatype Action =
    | Join
    | Enqueue(r: nat)                                     // a timer poll
    | CallStop(r: nat)
    | Begin(r: nat, stopThrows: bool)                     // the next chained job starts
    | Serve(r: nat, arrives: bool, replies: bool)         // the awaited query reaches the server, or not
    | Connected(r: nat, ok: bool)
    | Resume(r: nat, startThrows: bool, stopThrows: bool) // the awaited promise settles
    | Drop(r: nat)                                        // the client object reports an error or its end
    | Die(s: nat)                                         // the server loses a session

  // ----- the lease

  /** The session is gone as far as the client knows: told once, which chains a tick. */
  function Lose(p: Replica): Replica {
    if p.broken then p else p.(broken := true, queue := p.queue + [Tick])
  }

  function Finish(p: Replica): Replica {
    p.(step := Idle, rejected := false)
  }

  /** `leading` goes false and the timers are stopped. `throws`: the stop callback throws. */
  function StepDown(p: Replica): Replica {
    p.(leading := false, callbacks := p.callbacks + [Stop])
  }

  /** held(): at once when there is no usable client, otherwise by a probe query. */
  function Probe(p: Replica, stage: ProbeStage): Replica {
    if p.client.None? || p.broken then NotHeld(p, stage)
    else p.(step := Probing(p.client.value, stage, Waiting))
  }

  /** The lock is not held: timers that run are stopped. */
  function NotHeld(p: Replica, stage: ProbeStage): Replica {
    if stage.BeforeStart? then Finish(p) else Finish(StepDown(p))
  }

  /** Leadership begins: the timers start. A throwing start is answered by a stop, and that may throw too. */
  function Lead(p: Replica, startThrows: bool, stopThrows: bool): Replica {
    var q := p.(leading := true, callbacks := p.callbacks + [Start]);
    if startThrows then
      var down := StepDown(q);
      if stopThrows then down.(step := Idle, rejected := true) else Finish(down)
    else if q.stopped then Finish(StepDown(q))
    else Probe(q, AfterStart)
  }

  /** tryAcquire() at its start. */
  function TryAcquire(p: Replica): Replica {
    if p.client.Some? && !p.broken then Acquired(p)
    else
      var q := p.(client := None, broken := false);
      if p.client.Some? then q.(step := Closing(p.client.value)) else q.(step := Connecting)
  }

  /** tryAcquire() returned true: a stopped controller leaves the lease to its stop job. */
  function Acquired(p: Replica): Replica {
    if p.stopped then Finish(p) else Probe(p, BeforeStart)
  }

  function RunTick(p: Replica): Replica {
    if p.stopped then Finish(p)
    else if !p.leading then TryAcquire(p)
    else Probe(p, Renewal)
  }

  function Release(p: Replica): Replica {
    var q := p.(client := None, broken := true);
    if p.client.None? then Finish(q).(released := true) else q.(step := Unlocking(p.client.value))
  }

  /** The stop job is chained on success only: a rejected chain skips it. */
  function RunStop(p: Replica, stopThrows: bool): Replica {
    if p.rejected then p
    else if p.leading then
      if stopThrows then StepDown(p).(rejected := true) else Release(StepDown(p))
    else Release(p)
  }

  // ----- steps

  function BeginJob(p: Replica, stopThrows: bool): Replica
    requires p.step.Idle? && p.queue != []
  {
    var q := p.(queue := p.queue[1..]);
    if p.queue[0].Tick? then RunTick(q) else RunStop(q, stopThrows)
  }

  /** The awaited operation at the server: its effect, and the verdict the client will see. */
  function ServeQuery(db: Server, step: Step, arrives: bool, replies: bool): (Server, Step) {
    match step
    case Locking(s, Waiting) =>
      if !arrives || s !in db.alive then (db, Locking(s, Broke))
      else
        var db' := if CanLock(db, s) then db.(holder := Some(s)) else db;
        (db', Locking(s, if !replies then Broke else if CanLock(db, s) then Yes else No))
    case Probing(s, stage, Waiting) =>
      (db, Probing(s, stage, if arrives && replies && s in db.alive then Yes else Broke))
    case Unlocking(s) =>
      (if arrives && db.holder == Some(s) then db.(holder := None) else db, step)
    case Closing(s) => (if arrives then CloseSession(db, s) else db, step)
    case Ending(s) => (if arrives then CloseSession(db, s) else db, step)
    case Leaving(s) => (if arrives then CloseSession(db, s) else db, step)
    case _ => (db, step)
  }

  function ResumeJob(p: Replica, startThrows: bool, stopThrows: bool): Replica {
    match p.step
    case Closing(_) => p.(step := Connecting)
    case Locking(s, verdict) =>
      if verdict.Waiting? then p
      else if verdict.Yes? && !p.broken then Acquired(p)
      else p.(client := None, step := Ending(s))
    case Ending(_) => Finish(p)
    case Probing(_, stage, verdict) =>
      if verdict.Waiting? then p
      else
        var q := if verdict.Broke? then Lose(p) else p;
        var held := verdict.Yes? && !q.broken;
        if !held then NotHeld(q, stage)
        else if stage.BeforeStart? then Lead(q, startThrows, stopThrows)
        else Finish(q)
    case Unlocking(s) => p.(step := Leaving(s))
    case Leaving(_) => Finish(p).(released := true)
    case _ => p
  }

  function Set(w: World, r: nat, p: Replica): World
    requires r < |w.replicas|
  {
    w.(replicas := w.replicas[r := p])
  }

  function Next(w: World, a: Action): World {
    match a
    case Join => w.(replicas := w.replicas + [FRESH])
    case Die(s) => w.(db := CloseSession(w.db, s))
    case Enqueue(r) =>
      if r < |w.replicas| then Set(w, r, w.replicas[r].(queue := w.replicas[r].queue + [Tick])) else w
    case CallStop(r) =>
      if r < |w.replicas| then Set(w, r, w.replicas[r].(stopped := true, queue := w.replicas[r].queue + [StopJob])) else w
    case Begin(r, stopThrows) =>
      if r < |w.replicas| && w.replicas[r].step.Idle? && w.replicas[r].queue != []
      then Set(w, r, BeginJob(w.replicas[r], stopThrows)) else w
    case Serve(r, arrives, replies) =>
      if r < |w.replicas|
      then
        var (db, step) := ServeQuery(w.db, w.replicas[r].step, arrives, replies);
        Set(w.(db := db), r, w.replicas[r].(step := step))
      else w
    case Connected(r, ok) =>
      if r < |w.replicas| && w.replicas[r].step.Connecting?
      then
        if ok then
          var s := w.db.next;
          Set(w.(db := w.db.(alive := w.db.alive + {s}, next := s + 1)), r,
              w.replicas[r].(client := Some(s), step := Locking(s, Waiting)))
        else Set(w, r, Finish(w.replicas[r]))
      else w
    case Resume(r, startThrows, stopThrows) =>
      if r < |w.replicas| then Set(w, r, ResumeJob(w.replicas[r], startThrows, stopThrows)) else w
    case Drop(r) =>
      if r < |w.replicas| && w.replicas[r].client.Some? then Set(w, r, Lose(w.replicas[r])) else w
  }

  function Run(w: World, actions: seq<Action>): World
    decreases |actions|
  {
    if actions == [] then w else Run(Next(w, actions[0]), actions[1..])
  }

  const INIT := World(Server({}, None, 0), [])
}
