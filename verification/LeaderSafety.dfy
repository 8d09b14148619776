/** What every run of the replicas, their sessions and the lock keeps. */
module LeaderSafety {
  import opened Wrappers
  import opened BackgroundLeader

  /** The session holds the lock, unless the server has lost it. */
  predicate Holds(db: Server, s: nat) {
    db.holder == Some(s) || s !in db.alive
  }

  function StepSession(step: Step): Option<nat> {
    match step
    case Closing(s) => Some(s)
    case Locking(s, _) => Some(s)
    case Ending(s) => Some(s)
    case Probing(s, _, _) => Some(s)
    case Unlocking(s) => Some(s)
    case Leaving(s) => Some(s)
    case _ => None
  }

  function Sessions(p: Replica): set<nat> {
    (if p.client.Some? then {p.client.value} else {}) +
    (if StepSession(p.step).Some? then {StepSession(p.step).value} else {})
  }

  /** Start, stop, start, stop, ...: timers run exactly after an odd number of callbacks. */
  predicate Alternates(callbacks: seq<Callback>) {
    forall i :: 0 <= i < |callbacks| ==> callbacks[i] == if i % 2 == 0 then Start else Stop
  }

  predicate CallbacksOk(p: Replica) {
    Alternates(p.callbacks) && (p.leading <==> |p.callbacks| % 2 == 1)
  }

  predicate StepOk(p: Replica) {
    match p.step
    case Locking(s, _) => p.client == Some(s) && !p.leading
    case Probing(s, stage, _) => p.client == Some(s) && (p.leading <==> !stage.BeforeStart?)
    case Idle => true
    case _ => p.client.None? && !p.leading
  }

  predicate StopOk(p: Replica) {
    && (StopJob in p.queue || p.step.Unlocking? || p.step.Leaving? || p.released ==> p.stopped)
    && (p.released ==> p.client.None? && p.step.Idle?)
  }

  /** A stopped replica that still leads has its stop job chained; a job that threw left the timers stopped. */
  predicate StopOwed(p: Replica) {
    && (p.stopped && p.leading ==> StopJob in p.queue)
    && (p.rejected && p.step.Idle? ==> !p.leading)
  }

  predicate Acquiring(p: Replica) {
    p.step.Locking? && !p.step.verdict.Yes?
  }

  predicate ReplicaOk(db: Server, p: Replica) {
    && StepOk(p) && StopOk(p) && StopOwed(p) && CallbacksOk(p)
    && (p.leading ==> p.client.Some?)
    && (p.client.Some? ==> p.client.value < db.next)
    && (StepSession(p.step).Some? ==> StepSession(p.step).value < db.next)
    && (p.client.Some? && !Acquiring(p) ==> Holds(db, p.client.value))
  }

  predicate ServerOk(db: Server) {
    && (forall s :: s in db.alive ==> s < db.next)
    && (db.holder.Some? ==> db.holder.value in db.alive)
  }

  predicate Inv(w: World) {
    && ServerOk(w.db)
    && (forall r :: 0 <= r < |w.replicas| ==> ReplicaOk(w.db, w.replicas[r]))
    && (forall r, q :: 0 <= r < q < |w.replicas| ==> Sessions(w.replicas[r]) !! Sessions(w.replicas[q]))
  }

  // ----- one replica at a time

  /** A replica may change by itself if it stays in order and takes up no session it did not use. */
  lemma InvSet(w: World, r: nat, p: Replica)
    requires Inv(w) && r < |w.replicas|
    requires ReplicaOk(w.db, p) && Sessions(p) <= Sessions(w.replicas[r])
    ensures Inv(Set(w, r, p))
  {
    hide ReplicaOk, Sessions;
  }

  lemma QueueOk(db: Server, p: Replica, job: Job)
    requires ReplicaOk(db, p)
    ensures ReplicaOk(db, p.(queue := p.queue + [Tick]))
    ensures ReplicaOk(db, p.(stopped := true, queue := p.queue + [StopJob]))
    ensures p.client.Some? ==> ReplicaOk(db, Lose(p)) && Sessions(Lose(p)) == Sessions(p)
  {
    assert StopJob in p.queue + [Tick] ==> StopJob in p.queue;
  }

  lemma StepDownOk(p: Replica)
    requires CallbacksOk(p) && p.leading
    ensures CallbacksOk(StepDown(p))
  {
  }

  lemma BeginOk(db: Server, p: Replica, stopThrows: bool)
    requires ReplicaOk(db, p) && p.step.Idle? && p.queue != []
    ensures ReplicaOk(db, BeginJob(p, stopThrows)) && Sessions(BeginJob(p, stopThrows)) <= Sessions(p)
  {
  }

  lemma CallbacksSame(p: Replica, q: Replica)
    requires CallbacksOk(p) && q.callbacks == p.callbacks && q.leading == p.leading
    ensures CallbacksOk(q)
  {
  }

  lemma ResumeOk(db: Server, p: Replica, startThrows: bool, stopThrows: bool)
    requires ReplicaOk(db, p)
    ensures ReplicaOk(db, ResumeJob(p, startThrows, stopThrows))
    ensures Sessions(ResumeJob(p, startThrows, stopThrows)) <= Sessions(p)
  {
    hide ReplicaOk;
    match p.step
    case Locking(_, _) => LockingOk(db, p, startThrows, stopThrows);
    case Probing(_, _, _) => ProbingOk(db, p, startThrows, stopThrows);
    case _ => EndingOk(db, p, startThrows, stopThrows);
  }

  lemma LockingOk(db: Server, p: Replica, startThrows: bool, stopThrows: bool)
    requires ReplicaOk(db, p) && p.step.Locking?
    ensures ReplicaOk(db, ResumeJob(p, startThrows, stopThrows))
    ensures Sessions(ResumeJob(p, startThrows, stopThrows)) <= Sessions(p)
  {
    hide Alternates;
  }

  /** Closing, unlocking and leaving settle without the client. */
  lemma EndingOk(db: Server, p: Replica, startThrows: bool, stopThrows: bool)
    requires ReplicaOk(db, p) && !p.step.Locking? && !p.step.Probing?
    ensures ReplicaOk(db, ResumeJob(p, startThrows, stopThrows))
    ensures Sessions(ResumeJob(p, startThrows, stopThrows)) <= Sessions(p)
  {
    hide Alternates;
  }

  lemma ProbingOk(db: Server, p: Replica, startThrows: bool, stopThrows: bool)
    requires ReplicaOk(db, p) && p.step.Probing?
    ensures ReplicaOk(db, ResumeJob(p, startThrows, stopThrows))
    ensures Sessions(ResumeJob(p, startThrows, stopThrows)) <= Sessions(p)
  {
    hide Alternates, Lead;
    var verdict := p.step.verdict;
    if !verdict.Waiting? {
      var q := if verdict.Broke? then Lose(p) else p;
      QueueOk(db, p, Tick);
      if !(verdict.Yes? && !q.broken) {
        NotHeldOk(db, q);
      } else if p.step.stage.BeforeStart? {
        LeadOk(db, q, startThrows, stopThrows);
      }
    }
  }

  lemma NotHeldOk(db: Server, p: Replica)
    requires ReplicaOk(db, p) && p.step.Probing?
    ensures ReplicaOk(db, NotHeld(p, p.step.stage)) && Sessions(NotHeld(p, p.step.stage)) <= Sessions(p)
  {
    hide Alternates;
    if p.leading { StepDownOk(p); }
  }

  lemma LeadOk(db: Server, p: Replica, startThrows: bool, stopThrows: bool)
    requires ReplicaOk(db, p) && p.step.Probing? && !p.leading
    ensures ReplicaOk(db, Lead(p, startThrows, stopThrows)) && Sessions(Lead(p, startThrows, stopThrows)) <= Sessions(p)
  {
    var q := p.(leading := true, callbacks := p.callbacks + [Start]);
    assert CallbacksOk(q);
    StepDownOk(q);
  }

  /** What happens to one session leaves a replica that does not use it in order. */
  lemma OtherSession(db: Server, db': Server, s: nat, q: Replica)
    requires ServerOk(db) && ReplicaOk(db, q) && s !in Sessions(q)
    requires db'.next >= db.next && (forall t :: t != s && t < db.next ==> (t in db'.alive <==> t in db.alive))
    requires || db'.holder == db.holder
             || (db'.holder == Some(s) && db.holder.None?)
             || (db'.holder.None? && db.holder == Some(s))
    ensures ReplicaOk(db', q)
  {
    hide CallbacksOk, StepOk, StopOk;
  }

  lemma ServeOk(w: World, r: nat, arrives: bool, replies: bool)
    requires Inv(w) && r < |w.replicas|
    ensures var p := w.replicas[r]; var (db, step) := ServeQuery(w.db, p.step, arrives, replies);
            && ServerOk(db) && ReplicaOk(db, p.(step := step)) && Sessions(p.(step := step)) == Sessions(p)
            && forall q :: 0 <= q < |w.replicas| && q != r ==> ReplicaOk(db, w.replicas[q])
  {
    hide CallbacksOk;
    var p := w.replicas[r];
    var (db, step) := ServeQuery(w.db, p.step, arrives, replies);
    if db != w.db {
      var s := StepSession(p.step).value;
      forall q | 0 <= q < |w.replicas| && q != r ensures ReplicaOk(db, w.replicas[q]) {
        assert s in Sessions(p);
        OtherSession(w.db, db, s, w.replicas[q]);
      }
    }
    CallbacksSame(p, p.(step := step));
  }

  // ----- the whole world

  lemma InvNext(w: World, a: Action)
    requires Inv(w)
    ensures Inv(Next(w, a))
  {
    hide ReplicaOk, ServeQuery, ResumeJob, BeginJob, Lose;
    match a
    case Join => InvJoin(w);
    case Enqueue(r) => if r < |w.replicas| { InvQueue(w, r); }
    case CallStop(r) => if r < |w.replicas| { InvQueue(w, r); }
    case Begin(r, stopThrows) =>
      if r < |w.replicas| && w.replicas[r].step.Idle? && w.replicas[r].queue != [] {
        BeginOk(w.db, w.replicas[r], stopThrows);
        InvSet(w, r, BeginJob(w.replicas[r], stopThrows));
      }
    case Serve(r, arrives, replies) => if r < |w.replicas| { ServeOk(w, r, arrives, replies); }
    case Connected(r, ok) => InvConnected(w, r, ok);
    case Resume(r, startThrows, stopThrows) =>
      if r < |w.replicas| {
        ResumeOk(w.db, w.replicas[r], startThrows, stopThrows);
        InvSet(w, r, ResumeJob(w.replicas[r], startThrows, stopThrows));
      }
    case Drop(r) => if r < |w.replicas| { InvQueue(w, r); }
    case Die(s) => InvDie(w, s);
  }

  lemma InvJoin(w: World)
    requires Inv(w)
    ensures Inv(Next(w, Join))
  {
    assert Sessions(FRESH) == {} && ReplicaOk(w.db, FRESH);
  }

  lemma InvQueue(w: World, r: nat)
    requires Inv(w) && r < |w.replicas|
    ensures Inv(Next(w, Enqueue(r))) && Inv(Next(w, CallStop(r))) && Inv(Next(w, Drop(r)))
  {
    hide ReplicaOk;
    var p := w.replicas[r];
    QueueOk(w.db, p, Tick);
    InvSet(w, r, p.(queue := p.queue + [Tick]));
    InvSet(w, r, p.(stopped := true, queue := p.queue + [StopJob]));
    if p.client.Some? { InvSet(w, r, Lose(p)); }
  }

  lemma InvDie(w: World, s: nat)
    requires Inv(w)
    ensures Inv(Next(w, Die(s)))
  {
    hide CallbacksOk, StepOk, StopOk;
  }

  lemma InvConnected(w: World, r: nat, ok: bool)
    requires Inv(w)
    ensures Inv(Next(w, Connected(r, ok)))
  {
    hide CallbacksOk, StopOk;
    if r < |w.replicas| && w.replicas[r].step.Connecting? {
      var p := w.replicas[r];
      var s := w.db.next;
      var db := w.db.(alive := w.db.alive + {s}, next := s + 1);
      var p' := p.(client := Some(s), step := Locking(s, Waiting));
      assert StopOk(p') && StopOk(Finish(p)) by { StopUnlessReleased(p); }
      CallbacksSame(p, p');
      CallbacksSame(p, Finish(p));
      if ok {
        forall q | 0 <= q < |w.replicas| && q != r ensures ReplicaOk(db, w.replicas[q]) {
          OtherSession(w.db, db, s, w.replicas[q]);
        }
      } else {
        InvSet(w, r, Finish(p));
      }
    }
  }

  lemma StopUnlessReleased(p: Replica)
    requires StopOk(p) && p.step.Connecting?
    ensures StopOk(Finish(p)) && forall s :: StopOk(p.(client := Some(s), step := Locking(s, Waiting)))
  {
  }

  lemma {:induction false} InvRun(w: World, actions: seq<Action>)
    requires Inv(w)
    ensures Inv(Run(w, actions))
    decreases |actions|
  {
    if actions != [] {
      InvNext(w, actions[0]);
      InvRun(Next(w, actions[0]), actions[1..]);
    }
  }

  /** At most one replica leads while its own lock session is alive. */
  lemma OneLiveLeader(actions: seq<Action>, r: nat, q: nat)
    requires var w := Run(INIT, actions);
             r < |w.replicas| && q < |w.replicas| && LeadsAlive(w, r) && LeadsAlive(w, q)
    ensures r == q
  {
    var w := Run(INIT, actions);
    InvRun(INIT, actions);
    assert ReplicaOk(w.db, w.replicas[r]) && ReplicaOk(w.db, w.replicas[q]);
    assert w.replicas[r].client.value in Sessions(w.replicas[r]);
    assert w.replicas[q].client.value in Sessions(w.replicas[q]);
  }

  predicate LeadsAlive(w: World, r: nat)
    requires r < |w.replicas|
  {
    var p := w.replicas[r];
    p.leading && p.client.Some? && p.client.value in w.db.alive
  }

  /** Timers are started and stopped in turn, and run exactly while the replica leads. */
  lemma StartsAndStopsAlternate(actions: seq<Action>, r: nat)
    requires r < |Run(INIT, actions).replicas|
    ensures var p := Run(INIT, actions).replicas[r];
            Alternates(p.callbacks) &&
            (p.leading <==> p.callbacks != [] && p.callbacks[|p.callbacks| - 1] == Start)
  {
    InvRun(INIT, actions);
    var p := Run(INIT, actions).replicas[r];
    assert ReplicaOk(Run(INIT, actions).db, p);
  }

  // ----- losing the session

  /** In a tick that will find the session gone: the probe is under way and has not passed. */
  predicate Doomed(w: World, r: nat) {
    r < |w.replicas| && var p := w.replicas[r];
    p.step.Probing? && p.step.stage.Renewal? && p.step.session !in w.db.alive && !p.step.verdict.Yes?
  }

  predicate Followed(w: World, r: nat) {
    r < |w.replicas| && w.replicas[r].step.Idle? && !w.replicas[r].leading
  }

  /**
   A tick that begins after the leader's session died is doomed, or is over at once with the timers stopped; on
   a stopped replica it does nothing, and the stop job that stops the timers is chained behind it.
   */
  lemma TickAfterDeath(actions: seq<Action>, r: nat, stopThrows: bool)
    requires var w := Run(INIT, actions);
             && r < |w.replicas| && w.replicas[r].leading && !LeadsAlive(w, r)
             && w.replicas[r].step.Idle? && w.replicas[r].queue != [] && w.replicas[r].queue[0].Tick?
    ensures var w := Run(INIT, actions); var w' := Next(w, Begin(r, stopThrows));
            if w.replicas[r].stopped then StopJob in w'.replicas[r].queue else Doomed(w', r) || Followed(w', r)
  {
    InvRun(INIT, actions);
    assert ReplicaOk(Run(INIT, actions).db, Run(INIT, actions).replicas[r]);
  }

  /** A stop job that begins stops the timers, even if the stop callback or the job before it threw. */
  lemma StopJobStopsTimers(actions: seq<Action>, r: nat, stopThrows: bool)
    requires var w := Run(INIT, actions);
             && r < |w.replicas| && w.replicas[r].step.Idle?
             && w.replicas[r].queue != [] && w.replicas[r].queue[0].StopJob?
    ensures !Next(Run(INIT, actions), Begin(r, stopThrows)).replicas[r].leading
  {
    InvRun(INIT, actions);
    assert ReplicaOk(Run(INIT, actions).db, Run(INIT, actions).replicas[r]);
  }

  lemma DoomedStaysDoomed(w: World, r: nat, a: Action)
    requires Inv(w) && Doomed(w, r)
    ensures Doomed(Next(w, a), r) || Followed(Next(w, a), r)
  {
    hide ReplicaOk;
    assert w.replicas[r].step.session < w.db.next by {
      ProbedSession(w, r);
    }
  }

  lemma ProbedSession(w: World, r: nat)
    requires Inv(w) && r < |w.replicas| && w.replicas[r].step.Probing?
    ensures w.replicas[r].step.session < w.db.next && w.replicas[r].client == Some(w.replicas[r].step.session)
  {
    assert ReplicaOk(w.db, w.replicas[r]);
    assert w.replicas[r].step.session in Sessions(w.replicas[r]);
  }

  /** At some point of the run the replica is between jobs and does not lead. */
  predicate FollowsWithin(w: World, r: nat, actions: seq<Action>)
    decreases |actions|
  {
    Followed(w, r) || (actions != [] && FollowsWithin(Next(w, actions[0]), r, actions[1..]))
  }

  /** Whatever else happens, a doomed tick never passes: it ends with the timers stopped, or it has not ended. */
  lemma {:induction false} DoomedEndsFollowing(w: World, r: nat, actions: seq<Action>)
    requires Inv(w) && Doomed(w, r)
    ensures FollowsWithin(w, r, actions) || Doomed(Run(w, actions), r)
    decreases |actions|
  {
    hide Inv, Doomed, Followed, Next;
    if actions != [] {
      DoomedStaysDoomed(w, r, actions[0]);
      InvNext(w, actions[0]);
      if Doomed(Next(w, actions[0]), r) {
        DoomedEndsFollowing(Next(w, actions[0]), r, actions[1..]);
      }
    }
  }

  // ----- stopping

  /** A stop job ran to its end: no lease, no timers, and nothing left that could bring them back. */
  predicate Retired(p: Replica) {
    && p.released && p.stopped && p.client.None? && !p.leading && p.step.Idle?
    && (p.callbacks == [] || p.callbacks[|p.callbacks| - 1] == Stop)
  }

  lemma ReleasedIsRetired(actions: seq<Action>, r: nat)
    requires r < |Run(INIT, actions).replicas| && Run(INIT, actions).replicas[r].released
    ensures Retired(Run(INIT, actions).replicas[r])
  {
    InvRun(INIT, actions);
    assert ReplicaOk(Run(INIT, actions).db, Run(INIT, actions).replicas[r]);
  }

  /** Retirement is for good: the timers never start again, whatever polls, drops or stops follow. */
  lemma {:induction false} RetiredForGood(w: World, r: nat, actions: seq<Action>)
    requires r < |w.replicas| && Retired(w.replicas[r])
    ensures r < |Run(w, actions).replicas| && Retired(Run(w, actions).replicas[r])
    ensures Run(w, actions).replicas[r].callbacks == w.replicas[r].callbacks
    decreases |actions|
  {
    if actions != [] {
      RetiredStep(w, r, actions[0]);
      RetiredForGood(Next(w, actions[0]), r, actions[1..]);
    }
  }

  lemma RetiredStep(w: World, r: nat, a: Action)
    requires r < |w.replicas| && Retired(w.replicas[r])
    ensures r < |Next(w, a).replicas| && Retired(Next(w, a).replicas[r])
    ensures Next(w, a).replicas[r].callbacks == w.replicas[r].callbacks
  {
  }

  predicate Releasing(p: Replica) {
    p.client.None? && !p.leading && (p.released || p.step.Unlocking?)
  }

  /**
   The first stop job that begins gives the lease up exactly if the job before it did not throw and
   its own call of the stop callback does not throw.
   */
  lemma StopJobReleases(p: Replica, stopThrows: bool)
    requires p.step.Idle? && p.queue != [] && p.queue[0].StopJob? && !p.released
    ensures Releasing(BeginJob(p, stopThrows)) <==> !p.rejected && !(p.leading && stopThrows)
  {
  }

  // ----- the lock at the server

  /** The session does not hold the lock, and nobody will ask for it on that session again. */
  predicate Spent(w: World, s: nat) {
    && s < w.db.next && w.db.holder != Some(s)
    && forall r :: 0 <= r < |w.replicas| ==> !AsksOn(w.replicas[r].step, s)
  }

  predicate AsksOn(step: Step, s: nat) {
    step.Locking? && step.session == s
  }

  lemma ProbeAsksNothing(p: Replica, stage: ProbeStage)
    ensures !Probe(p, stage).step.Locking? && !NotHeld(p, stage).step.Locking?
  {
  }

  lemma LeadAsksNothing(p: Replica, startThrows: bool, stopThrows: bool)
    ensures !Lead(p, startThrows, stopThrows).step.Locking?
  {
    hide Probe, StepDown;
    ProbeAsksNothing(p.(leading := true, callbacks := p.callbacks + [Start]), AfterStart);
  }

  lemma BeginAsksNothing(p: Replica, stopThrows: bool, s: nat)
    requires p.step.Idle? && p.queue != []
    ensures !AsksOn(BeginJob(p, stopThrows).step, s)
  {
    hide Probe;
    ProbeAsksNothing(p.(queue := p.queue[1..]), Renewal);
    ProbeAsksNothing(p.(queue := p.queue[1..]), BeforeStart);
  }

  lemma ResumeAsksNothing(p: Replica, startThrows: bool, stopThrows: bool, s: nat)
    requires !AsksOn(p.step, s)
    ensures !AsksOn(ResumeJob(p, startThrows, stopThrows).step, s)
  {
    hide Probe, NotHeld, Lead, Lose;
    ProbeAsksNothing(p, BeforeStart);
    if p.step.Probing? {
      var q := if p.step.verdict.Broke? then Lose(p) else p;
      ProbeAsksNothing(q, p.step.stage);
      LeadAsksNothing(q, startThrows, stopThrows);
    }
  }

  lemma ServeAsksNothing(db: Server, step: Step, arrives: bool, replies: bool, s: nat)
    requires !AsksOn(step, s) && s < db.next && db.holder != Some(s)
    ensures var (db', step') := ServeQuery(db, step, arrives, replies);
            !AsksOn(step', s) && s < db'.next && db'.holder != Some(s)
  {
  }

  lemma SpentStep(w: World, s: nat, a: Action)
    requires Spent(w, s)
    ensures Spent(Next(w, a), s)
  {
    hide BeginJob, ResumeJob, ServeQuery;
    match a
    case Begin(r, stopThrows) =>
      if r < |w.replicas| && w.replicas[r].step.Idle? && w.replicas[r].queue != [] {
        BeginAsksNothing(w.replicas[r], stopThrows, s);
      }
    case Serve(r, arrives, replies) =>
      if r < |w.replicas| { ServeAsksNothing(w.db, w.replicas[r].step, arrives, replies, s); }
    case Resume(r, startThrows, stopThrows) =>
      if r < |w.replicas| { ResumeAsksNothing(w.replicas[r], startThrows, stopThrows, s); }
    case _ =>
  }

  lemma {:induction false} SpentForGood(w: World, s: nat, actions: seq<Action>)
    requires Spent(w, s)
    ensures Spent(Run(w, actions), s)
    decreases |actions|
  {
    hide Spent, Next;
    if actions != [] {
      SpentStep(w, s, actions[0]);
      SpentForGood(Next(w, actions[0]), s, actions[1..]);
    }
  }

  /** The unlock, or the end of the session, frees the server's lock exactly if it arrives or the session did not hold it. */
  lemma ReleaseFreesExactly(w: World, r: nat, s: nat, arrives: bool, replies: bool)
    requires Inv(w) && r < |w.replicas| && (w.replicas[r].step == Unlocking(s) || w.replicas[r].step == Leaving(s))
    ensures Spent(Next(w, Serve(r, arrives, replies)), s) <==> arrives || w.db.holder != Some(s)
  {
    hide ReplicaOk;
    assert s in Sessions(w.replicas[r]) && s < w.db.next by { ReleasedSession(w, r, s); }
    forall q | 0 <= q < |w.replicas| ensures !AsksOn(w.replicas[q].step, s) {
      assert AsksOn(w.replicas[q].step, s) ==> s in Sessions(w.replicas[q]);
    }
  }

  lemma ReleasedSession(w: World, r: nat, s: nat)
    requires Inv(w) && r < |w.replicas| && (w.replicas[r].step == Unlocking(s) || w.replicas[r].step == Leaving(s))
    ensures s in Sessions(w.replicas[r]) && s < w.db.next
  {
    assert ReplicaOk(w.db, w.replicas[r]);
  }

  /** Once either has arrived the released session never holds the lock again, whatever follows. */
  lemma ReleasedLockStaysFree(w: World, r: nat, s: nat, replies: bool, later: seq<Action>)
    requires Inv(w) && r < |w.replicas| && (w.replicas[r].step == Unlocking(s) || w.replicas[r].step == Leaving(s))
    ensures Run(Next(w, Serve(r, true, replies)), later).db.holder != Some(s)
  {
    ReleaseFreesExactly(w, r, s, true, replies);
    SpentForGood(Next(w, Serve(r, true, replies)), s, later);
  }

  /** A job throws only if the stop callback throws: in the stop job, or after a start that threw. */
  lemma OnlyThrowingStopRejects(w: World, r: nat, a: Action)
    requires r < |w.replicas| && !w.replicas[r].rejected && Next(w, a).replicas[r].rejected
    ensures a == Begin(r, true) || a == Resume(r, true, true)
  {
    hide BeginJob, ResumeJob, ServeQuery;
    match a
    case Begin(q, stopThrows) =>
      if q < |w.replicas| && w.replicas[q].step.Idle? && w.replicas[q].queue != [] {
        BeginRejectsOnly(w.replicas[q], stopThrows);
      }
    case Resume(q, startThrows, stopThrows) =>
      if q < |w.replicas| { ResumeRejectsOnly(w.replicas[q], startThrows, stopThrows); }
    case _ =>
  }

  lemma BeginRejectsOnly(p: Replica, stopThrows: bool)
    requires p.step.Idle? && p.queue != []
    ensures !p.rejected && BeginJob(p, stopThrows).rejected ==> stopThrows
  {
  }

  lemma ResumeRejectsOnly(p: Replica, startThrows: bool, stopThrows: bool)
    ensures !p.rejected && ResumeJob(p, startThrows, stopThrows).rejected ==> startThrows && stopThrows
  {
  }

  /** So with a stop callback that never throws, every stop job gives the lease up. */
  lemma {:induction false} QuietStopNeverRejects(w: World, r: nat, actions: seq<Action>)
    requires r < |w.replicas| ==> !w.replicas[r].rejected
    requires forall i :: 0 <= i < |actions| ==> actions[i] != Begin(r, true) && actions[i] != Resume(r, true, true)
    ensures r < |Run(w, actions).replicas| ==> !Run(w, actions).replicas[r].rejected
    decreases |actions|
  {
    if actions != [] {
      var w1 := Next(w, actions[0]);
      if r < |w1.replicas| && w1.replicas[r].rejected {
        if r < |w.replicas| { OnlyThrowingStopRejects(w, r, actions[0]); }
        assert false;
      }
      QuietStopNeverRejects(w1, r, actions[1..]);
    }
  }

  const LEAK: seq<Action> :=
    [Join, Enqueue(0), Begin(0, false), Connected(0, true), Serve(0, true, true), Resume(0, false, false),
     Serve(0, true, true), Resume(0, true, true), CallStop(0), Begin(0, false)]

  /** The world before action `i` of LEAK. */
  function Leaking(i: nat): World {
    var held := FRESH.(client := Some(0));
    var threw := held.(callbacks := [Start, Stop], rejected := true);
    match i
    case 0 => INIT
    case 1 => World(Server({}, None, 0), [FRESH])
    case 2 => World(Server({}, None, 0), [FRESH.(queue := [Tick])])
    case 3 => World(Server({}, None, 0), [FRESH.(step := Connecting)])
    case 4 => World(Server({0}, None, 1), [held.(step := Locking(0, Waiting))])
    case 5 => World(Server({0}, Some(0), 1), [held.(step := Locking(0, Yes))])
    case 6 => World(Server({0}, Some(0), 1), [held.(step := Probing(0, BeforeStart, Waiting))])
    case 7 => World(Server({0}, Some(0), 1), [held.(step := Probing(0, BeforeStart, Yes))])
    case 8 => World(Server({0}, Some(0), 1), [threw])
    case 9 => World(Server({0}, Some(0), 1), [threw.(stopped := true, queue := [StopJob])])
    case _ => World(Server({0}, Some(0), 1), [threw.(stopped := true)])
  }

  lemma LeakStep(i: nat)
    requires i < |LEAK|
    ensures Next(Leaking(i), LEAK[i]) == Leaking(i + 1)
  {
    var none: seq<Job> := [];
    assert none + [Tick] == [Tick] && none + [StopJob] == [StopJob];
    assert [Tick][1..] == [StopJob][1..] == none;
    var silent: seq<Callback> := [];
    assert silent + [Start] + [Stop] == [Start, Stop];
    assert Next(Leaking(i), LEAK[i]).replicas == Leaking(i + 1).replicas;
  }

  lemma {:induction false} LeakRuns(i: nat)
    requires i <= |LEAK|
    ensures Run(Leaking(i), LEAK[i..]) == Leaking(|LEAK|)
    decreases |LEAK| - i
  {
    hide Leaking, Next;
    if i < |LEAK| {
      LeakStep(i);
      LeakRuns(i + 1);
      assert LEAK[i..][1..] == LEAK[i + 1..];
    }
  }

  /**
   Otherwise the lock can outlive the stop: both callbacks throw while leadership begins, so the stop job
   is skipped, and the replica that does not lead keeps the lock.
   */
  lemma ThrowingCallbacksKeepTheLock()
    ensures var w := Run(INIT, LEAK);
            && |w.replicas| == 1 && w.replicas[0].stopped && w.replicas[0].queue == [] && w.replicas[0].step.Idle?
            && !w.replicas[0].leading && w.db.holder == w.replicas[0].client == Some(0)
  {
    hide Next, Run;
    LeakRuns(0);
    assert LEAK[0..] == LEAK;
  }

  // ----- a healthy leader

  /** A probe that was answered yes, on a client that has not been lost, changes nothing but the end of the tick. */
  lemma AnsweredProbeKeepsLeading(db: Server, p: Replica, startThrows: bool, stopThrows: bool)
    requires ReplicaOk(db, p) && p.step.Probing? && p.step.verdict.Yes? && !p.step.stage.BeforeStart? && !p.broken
    ensures var q := ResumeJob(p, startThrows, stopThrows);
            p.leading && q.leading && q.callbacks == p.callbacks && q.client == p.client && !q.broken && q.step.Idle?
  {
  }

  /** Session `s` is alive and `p`'s own; nobody told the replica otherwise, or to stop. */
  predicate Sound(w: World, r: nat, s: nat) {
    && r < |w.replicas| && s in w.db.alive
    && var p := w.replicas[r]; p.client == Some(s) && !p.broken && !p.stopped
  }

  predicate Answered(verdict: Verdict) {
    verdict.Waiting? || verdict.Yes?
  }

  /** The replica leads, and the probe under way, if there is one, has not failed. */
  predicate Healthy(w: World, r: nat, s: nat) {
    && Sound(w, r, s)
    && var p := w.replicas[r];
       p.leading && (p.step.Idle? || (p.step.Probing? && p.step.session == s && !p.step.stage.BeforeStart? && Answered(p.step.verdict)))
  }

  /** The replica has been given the lock and is about to lead. */
  predicate Granted(w: World, r: nat, s: nat) {
    && Sound(w, r, s)
    && var p := w.replicas[r];
       && !p.leading
       && (|| p.step == Locking(s, Yes)
           || (p.step.Probing? && p.step.session == s && p.step.stage.BeforeStart? && Answered(p.step.verdict)))
  }

  /** The action leaves the replica alone: no loss, no stop, every query answered, no callback throwing. */
  predicate Spares(a: Action, r: nat, s: nat) {
    match a
    case Die(t) => t != s
    case Drop(q) => q != r
    case CallStop(q) => q != r
    case Serve(q, arrives, replies) => q == r ==> arrives && replies
    case Resume(q, startThrows, _) => q == r ==> !startThrows
    case _ => true
  }

  predicate Undisturbed(actions: seq<Action>, r: nat, s: nat) {
    forall i :: 0 <= i < |actions| ==> Spares(actions[i], r, s)
  }

  /** What other replicas do to the server leaves the session alive. */
  lemma ServeSpares(w: World, q: nat, arrives: bool, replies: bool, r: nat, s: nat)
    requires Inv(w) && Sound(w, r, s) && q < |w.replicas| && (q == r ==> w.replicas[q].step.Probing? || w.replicas[q].step.Idle? || w.replicas[q].step.Locking?)
    ensures s in ServeQuery(w.db, w.replicas[q].step, arrives, replies).0.alive
  {
    hide ReplicaOk;
    assert s in Sessions(w.replicas[r]);
  }

  lemma HealthyServe(w: World, r: nat, s: nat, q: nat, arrives: bool, replies: bool)
    requires Inv(w) && Healthy(w, r, s) && Spares(Serve(q, arrives, replies), r, s)
    ensures var w' := Next(w, Serve(q, arrives, replies)); Healthy(w', r, s) && w'.replicas[r].callbacks == w.replicas[r].callbacks
  {
    hide ReplicaOk, CallbacksOk, ServerOk;
    if q < |w.replicas| { ServeSpares(w, q, arrives, replies, r, s); }
  }

  lemma HealthyStep(w: World, r: nat, s: nat, a: Action)
    requires Inv(w) && Healthy(w, r, s) && Spares(a, r, s)
    ensures Healthy(Next(w, a), r, s) && Next(w, a).replicas[r].callbacks == w.replicas[r].callbacks
  {
    assert StopOk(w.replicas[r]) by { assert ReplicaOk(w.db, w.replicas[r]); }
    hide Inv, ServeQuery;
    match a
    case Serve(q, arrives, replies) => HealthyServe(w, r, s, q, arrives, replies);
    case Begin(q, _) => if q == r && w.replicas[r].queue != [] { assert w.replicas[r].queue[0] in w.replicas[r].queue; }
    case _ =>
  }

  /** A leader whose session lives, and that nobody disturbs, never stops its timers, whatever the other replicas do. */
  lemma {:induction false} HealthyLeaderStays(w: World, r: nat, s: nat, actions: seq<Action>)
    requires Inv(w) && Healthy(w, r, s) && Undisturbed(actions, r, s)
    ensures Healthy(Run(w, actions), r, s) && Run(w, actions).replicas[r].callbacks == w.replicas[r].callbacks
    decreases |actions|
  {
    hide Inv, Healthy, Next, Spares;
    if actions != [] {
      HealthyStep(w, r, s, actions[0]);
      InvNext(w, actions[0]);
      HealthyLeaderStays(Next(w, actions[0]), r, s, actions[1..]);
    }
  }

  lemma GrantedStep(w: World, r: nat, s: nat, a: Action)
    requires Inv(w) && Granted(w, r, s) && Spares(a, r, s)
    ensures var w' := Next(w, a);
            || (Granted(w', r, s) && w'.replicas[r].callbacks == w.replicas[r].callbacks)
            || (Healthy(w', r, s) && w'.replicas[r].callbacks == w.replicas[r].callbacks + [Start])
  {
    hide ReplicaOk, CallbacksOk, ServerOk;
    match a
    case Serve(q, arrives, replies) => if q < |w.replicas| { ServeSpares(w, q, arrives, replies, r, s); }
    case _ =>
  }

  /** Once the lock is granted an undisturbed tick can only end leading, with the timers started once. */
  lemma {:induction false} GrantedLeads(w: World, r: nat, s: nat, actions: seq<Action>)
    requires Inv(w) && Granted(w, r, s) && Undisturbed(actions, r, s)
    ensures var w' := Run(w, actions);
            || (Granted(w', r, s) && w'.replicas[r].callbacks == w.replicas[r].callbacks)
            || (Healthy(w', r, s) && w'.replicas[r].callbacks == w.replicas[r].callbacks + [Start])
    decreases |actions|
  {
    hide Inv, Next, Spares;
    if actions != [] {
      GrantedStep(w, r, s, actions[0]);
      InvNext(w, actions[0]);
      if Granted(Next(w, actions[0]), r, s) && Next(w, actions[0]).replicas[r].callbacks == w.replicas[r].callbacks {
        GrantedLeads(Next(w, actions[0]), r, s, actions[1..]);
      } else {
        HealthyLeaderStays(Next(w, actions[0]), r, s, actions[1..]);
      }
    }
  }

  // ----- a tick on a free lock

  /** The replica's own next step, with every query answered and no callback throwing. */
  function OwnStep(w: World, r: nat): Action
    requires r < |w.replicas|
  {
    match w.replicas[r].step
    case Idle => Begin(r, false)
    case Connecting => Connected(r, true)
    case Closing(s) => if s in w.db.alive then Serve(r, true, true) else Resume(r, false, false)
    case Locking(_, Waiting) => Serve(r, true, true)
    case Probing(_, _, Waiting) => Serve(r, true, true)
    case _ => Resume(r, false, false)
  }

  /** The replica goes on by itself: no action but its own next step. */
  predicate Alone(w: World, r: nat, actions: seq<Action>)
    decreases |actions|
  {
    actions == [] || (r < |w.replicas| && actions[0] == OwnStep(w, r) && Alone(Next(w, actions[0]), r, actions[1..]))
  }

  /** What is left of a tick that comes to lead. */
  function Left(w: World, r: nat): nat
    requires r < |w.replicas|
  {
    match w.replicas[r].step
    case Idle => 10
    case Closing(s) => if s in w.db.alive then 9 else 8
    case Connecting => 7
    case Locking(_, verdict) => if verdict.Waiting? then 6 else 5
    case Probing(_, BeforeStart, verdict) => if verdict.Waiting? then 4 else 3
    case Probing(_, _, verdict) => if verdict.Waiting? then 2 else 1
    case _ => 0
  }

  /** On its way to lead: nobody else has the lock, and what has been answered was answered yes. */
  predicate OnItsWay(w: World, r: nat) {
    && r < |w.replicas|
    && var p := w.replicas[r];
       && !p.stopped
       && match p.step
          case Idle => !p.leading && p.queue != [] && p.queue[0].Tick? && Reachable(w.db, p)
          case Closing(s) => !p.leading && p.client.None? && !p.broken && (w.db.holder.None? || (w.db.holder == Some(s) && s in w.db.alive))
          case Connecting => !p.leading && p.client.None? && !p.broken && w.db.holder.None?
          case Locking(s, verdict) =>
            && !p.leading && p.client == Some(s) && !p.broken && s in w.db.alive
            && (verdict.Yes? || (verdict.Waiting? && w.db.holder.None?))
          case Probing(s, stage, verdict) =>
            && p.client == Some(s) && !p.broken && s in w.db.alive && Answered(verdict) && !stage.Renewal?
            && (p.leading <==> stage.AfterStart?)
          case _ => false
  }

  /** No other session holds the lock, and a client that counts as usable is. */
  predicate Reachable(db: Server, p: Replica) {
    && (db.holder.None? || (p.client.Some? && db.holder == p.client))
    && (p.client.Some? && !p.broken ==> p.client.value in db.alive)
  }

  predicate NowLeads(w: World, r: nat) {
    r < |w.replicas| && w.replicas[r].leading && w.replicas[r].step.Idle?
    && w.replicas[r].client.Some? && w.replicas[r].client.value in w.db.alive && !w.replicas[r].broken
  }

  lemma OwnStepOn(w: World, r: nat)
    requires ServerOk(w.db) && OnItsWay(w, r)
    ensures var w' := Next(w, OwnStep(w, r));
            && ServerOk(w'.db) && r < |w'.replicas|
            && (NowLeads(w', r) || (OnItsWay(w', r) && Left(w', r) < Left(w, r)))
            && w'.replicas[r].callbacks ==
               w.replicas[r].callbacks + (if !w.replicas[r].leading && w'.replicas[r].leading then [Start] else [])
            && (w.replicas[r].leading ==> w'.replicas[r].leading) && (NowLeads(w', r) ==> w'.replicas[r].leading)
  {
  }

  /** A tick of a running replica, with the lock free and everything answered, ends leading, with the timers started. */
  lemma {:induction false} FreeLockTickLeads(w: World, r: nat) returns (actions: seq<Action>)
    requires ServerOk(w.db) && r < |w.replicas| && OnItsWay(w, r)
    ensures Alone(w, r, actions) && r < |Run(w, actions).replicas| && NowLeads(Run(w, actions), r)
    ensures Run(w, actions).replicas[r].callbacks == w.replicas[r].callbacks + if w.replicas[r].leading then [] else [Start]
    decreases Left(w, r)
  {
    hide OnItsWay, Next, OwnStep, NowLeads, ServerOk;
    OwnStepOn(w, r);
    var a := OwnStep(w, r);
    var rest := [];
    if !NowLeads(Next(w, a), r) { rest := FreeLockTickLeads(Next(w, a), r); }
    actions := [a] + rest;
    assert actions[1..] == rest;
    assert Run(w, actions) == Run(Next(w, a), rest);
  }

  /** A loss that the client reports chains a tick, unless it was known; and the next tick of a running leader that knows of it steps down. */
  lemma LossStopsTheLeader(w: World, r: nat, stopThrows: bool)
    requires r < |w.replicas| && w.replicas[r].client.Some?
    ensures var p, q := w.replicas[r], Next(w, Drop(r)).replicas[r];
            q.broken && q.queue == p.queue + (if p.broken then [] else [Tick]) && q.callbacks == p.callbacks
    ensures var p := w.replicas[r];
            p.step.Idle? && p.queue != [] && p.queue[0].Tick? && p.leading && p.broken && !p.stopped ==>
              var q := Next(w, Begin(r, stopThrows)).replicas[r];
              !q.leading && q.step.Idle? && q.callbacks == p.callbacks + [Stop] && q.queue == p.queue[1..]
  {
  }

  // ----- no session is left open

  /** The session that the replica is asking the server to end. */
  function Ends(step: Step): set<nat> {
    match step
    case Closing(s) => {s}
    case Ending(s) => {s}
    case Leaving(s) => {s}
    case _ => {}
  }

  /** A replica lets go only of a session that it has asked to end. */
  predicate LetsGo(p: Replica, q: Replica) {
    Sessions(p) <= Sessions(q) + Ends(p.step)
  }

  lemma BeginKeepsSessions(p: Replica, stopThrows: bool)
    requires p.step.Idle? && p.queue != []
    ensures Sessions(p) <= Sessions(BeginJob(p, stopThrows))
  {
  }

  lemma LeadKeepsSessions(p: Replica, startThrows: bool, stopThrows: bool)
    ensures Lead(p, startThrows, stopThrows).client == p.client
  {
  }

  lemma ResumeLetsGo(db: Server, p: Replica, startThrows: bool, stopThrows: bool)
    requires ReplicaOk(db, p)
    ensures LetsGo(p, ResumeJob(p, startThrows, stopThrows))
  {
    hide CallbacksOk, StopOk, StopOwed, Lead, Alternates;
    if p.step.Probing? {
      LeadKeepsSessions(p, startThrows, stopThrows);
      LeadKeepsSessions(Lose(p), startThrows, stopThrows);
    }
  }

  /** The sessions that the replicas ask to end in the course of a run. */
  function Asked(w: World, actions: seq<Action>): set<nat>
    decreases |actions|
  {
    if actions == [] then {} else AskedBy(w, actions[0]) + Asked(Next(w, actions[0]), actions[1..])
  }

  function AskedBy(w: World, a: Action): set<nat> {
    if a.Resume? && a.r < |w.replicas| then Ends(w.replicas[a.r].step) else {}
  }

  predicate InUse(w: World, s: nat) {
    exists r :: 0 <= r < |w.replicas| && s in Sessions(w.replicas[r])
  }

  predicate SessionsAccounted(w: World, asked: set<nat>) {
    forall s: nat :: s < w.db.next ==> s in asked || InUse(w, s)
  }

  lemma UseGoesOn(w: World, a: Action, s: nat)
    requires Inv(w) && InUse(w, s)
    ensures s in AskedBy(w, a) || InUse(Next(w, a), s)
  {
    hide BeginJob, ResumeJob, ServeQuery, ServerOk, ReplicaOk, Sessions;
    var w' := Next(w, a);
    var r :| 0 <= r < |w.replicas| && s in Sessions(w.replicas[r]);
    assert s in Sessions(w'.replicas[r]) || s in AskedBy(w, a) by { OneReplicaLetsGo(w, a, r, s); }
  }

  lemma OneReplicaLetsGo(w: World, a: Action, r: nat, s: nat)
    requires Inv(w) && r < |w.replicas| && s in Sessions(w.replicas[r])
    ensures r < |Next(w, a).replicas| && (s in Sessions(Next(w, a).replicas[r]) || s in AskedBy(w, a))
  {
    hide BeginJob, ResumeJob, CallbacksOk, StopOk, StopOwed;
    assert ReplicaOk(w.db, w.replicas[r]);
    match a
    case Begin(q, stopThrows) =>
      if q == r && w.replicas[r].step.Idle? && w.replicas[r].queue != [] { BeginKeepsSessions(w.replicas[r], stopThrows); }
    case Resume(q, startThrows, stopThrows) => if q == r { ResumeLetsGo(w.db, w.replicas[r], startThrows, stopThrows); }
    case _ =>
  }

  lemma NewSessionIsInUse(w: World, a: Action)
    ensures w.db.next <= Next(w, a).db.next <= w.db.next + 1
    ensures Next(w, a).db.next > w.db.next ==> InUse(Next(w, a), w.db.next)
  {
    hide BeginJob, ResumeJob;
    if a.Connected? && Next(w, a).db.next > w.db.next { assert w.db.next in Sessions(Next(w, a).replicas[a.r]); }
  }

  lemma {:induction false} SessionsAccountedRun(w: World, actions: seq<Action>, asked: set<nat>)
    requires Inv(w) && SessionsAccounted(w, asked)
    ensures SessionsAccounted(Run(w, actions), asked + Asked(w, actions))
    decreases |actions|
  {
    hide Inv, Next, InUse, AskedBy;
    if actions == [] {
      assert asked + Asked(w, actions) == asked;
    } else {
      var a := actions[0];
      InvNext(w, a);
      NewSessionIsInUse(w, a);
      forall s: nat | s < Next(w, a).db.next ensures s in asked + AskedBy(w, a) || InUse(Next(w, a), s) {
        if InUse(w, s) { UseGoesOn(w, a, s); }
      }
      SessionsAccountedRun(Next(w, a), actions[1..], asked + AskedBy(w, a));
      assert asked + AskedBy(w, a) + Asked(Next(w, a), actions[1..]) == asked + Asked(w, actions);
    }
  }

  /** No session is left open unasked: each one ever opened is in use by a replica, or a replica asked the server to end it. */
  lemma NoSessionIsForgotten(actions: seq<Action>, s: nat)
    requires s < Run(INIT, actions).db.next
    ensures s in Asked(INIT, actions) || InUse(Run(INIT, actions), s)
  {
    SessionsAccountedRun(INIT, actions, {});
  }

  // ----- no job hangs

  /** What one awaited operation may come to. */
  datatype Answer = Answer(ok: bool, arrives: bool, replies: bool, startThrows: bool, stopThrows: bool)

  /** The operation the replica waits for is answered, or its promise settles. */
  function Settlement(p: Replica, r: nat, answer: Answer): Action {
    match p.step
    case Connecting => Connected(r, answer.ok)
    case Locking(_, Waiting) => Serve(r, answer.arrives, answer.replies)
    case Probing(_, _, Waiting) => Serve(r, answer.arrives, answer.replies)
    case _ => Resume(r, answer.startThrows, answer.stopThrows)
  }

  function Ahead(step: Step): nat {
    match step
    case Idle => 0
    case Closing(_) => 8
    case Connecting => 7
    case Locking(_, verdict) => if verdict.Waiting? then 6 else 5
    case Probing(_, BeforeStart, verdict) => if verdict.Waiting? then 4 else 3
    case Probing(_, _, verdict) => if verdict.Waiting? then 2 else 1
    case Unlocking(_) => 2
    case Leaving(_) => 1
    case Ending(_) => 1
  }

  lemma LeadLeadsOn(p: Replica, startThrows: bool, stopThrows: bool)
    ensures Ahead(Lead(p, startThrows, stopThrows).step) <= 2
  {
  }

  lemma ResumeLeadsOn(p: Replica, startThrows: bool, stopThrows: bool)
    requires !p.step.Idle? && !p.step.Connecting? && !((p.step.Locking? || p.step.Probing?) && p.step.verdict.Waiting?)
    ensures Ahead(ResumeJob(p, startThrows, stopThrows).step) < Ahead(p.step)
  {
    hide Lead;
    if p.step.Probing? {
      LeadLeadsOn(p, startThrows, stopThrows);
      LeadLeadsOn(Lose(p), startThrows, stopThrows);
    }
  }

  lemma ServeLeadsOn(db: Server, step: Step, arrives: bool, replies: bool)
    requires (step.Locking? || step.Probing?) && step.verdict.Waiting?
    ensures Ahead(ServeQuery(db, step, arrives, replies).1) < Ahead(step)
  {
  }

  lemma ConnectLeadsOn()
    ensures Ahead(Idle) < Ahead(Connecting)
    ensures forall s :: Ahead(Locking(s, Waiting)) < Ahead(Connecting)
  {
  }

  lemma WhichSettlement(p: Replica, r: nat, answer: Answer)
    ensures var waits := (p.step.Locking? || p.step.Probing?) && p.step.verdict.Waiting?;
            Settlement(p, r, answer) ==
            if p.step.Connecting? then Connected(r, answer.ok)
            else if waits then Serve(r, answer.arrives, answer.replies)
            else Resume(r, answer.startThrows, answer.stopThrows)
  {
  }

  lemma SettlementLeadsOn(w: World, r: nat, answer: Answer)
    requires r < |w.replicas| && !w.replicas[r].step.Idle?
    ensures var w' := Next(w, Settlement(w.replicas[r], r, answer));
            r < |w'.replicas| && Ahead(w'.replicas[r].step) < Ahead(w.replicas[r].step)
  {
    hide ResumeJob, BeginJob, ServeQuery, Ahead, Settlement;
    var p := w.replicas[r];
    WhichSettlement(p, r, answer);
    if p.step.Connecting? {
      ConnectLeadsOn();
    } else if (p.step.Locking? || p.step.Probing?) && p.step.verdict.Waiting? {
      ServeLeadsOn(w.db, p.step, answer.arrives, answer.replies);
    } else {
      ResumeLeadsOn(p, answer.startThrows, answer.stopThrows);
    }
  }

  /** The replica's job goes on by these answers until it is over. */
  function GoOn(w: World, r: nat, answers: seq<Answer>): World
    decreases |answers|
  {
    if answers == [] || r >= |w.replicas| || w.replicas[r].step.Idle? then w
    else GoOn(Next(w, Settlement(w.replicas[r], r, answers[0])), r, answers[1..])
  }

  /** Whatever each of its operations comes to, a job is over after at most eight of them, so the chain goes on. */
  lemma {:induction false} EveryJobEnds(w: World, r: nat, answers: seq<Answer>)
    requires r < |w.replicas| && |answers| >= Ahead(w.replicas[r].step)
    ensures r < |GoOn(w, r, answers).replicas| && GoOn(w, r, answers).replicas[r].step.Idle?
    decreases |answers|
  {
    hide Next, Settlement;
    if !w.replicas[r].step.Idle? {
      SettlementLeadsOn(w, r, answers[0]);
      EveryJobEnds(Next(w, Settlement(w.replicas[r], r, answers[0])), r, answers[1..]);
    }
  }
}
