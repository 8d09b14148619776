/**
 One job at a time for each stream: a chain of promises per lock, whose last link is kept in a map and taken
 out when it has settled. Every settling of a promise is a step, so jobs of all streams interleave.
 */
module StreamLocks {
  import opened Wrappers

  datatype Phase = Queued | Running | Settled

  /** `previous` is the job whose end this one waits for. */
  datatype Job = Job(lock: nat, previous: Option<nat>, phase: Phase)

  datatype World = World(jobs: seq<Job>, locks: map<nat, nat>)

  const INIT := World([], map[])

  datatype Action =
    | Call(lock: nat, ahead: bool, skipIfBusy: bool)
    | Begin(j: nat)
    | End(j: nat, failed: bool)
    | Clean(j: nat)              // the callback on the settled link

  function SetPhase(w: World, j: nat, phase: Phase): World
    requires j < |w.jobs|
  {
    w.(jobs := w.jobs[j := w.jobs[j].(phase := phase)])
  }

  /** The link a job waits for has settled, whether its work succeeded or failed. */
  predicate MayBegin(w: World, j: nat) {
    && j < |w.jobs| && w.jobs[j].phase.Queued?
    && (w.jobs[j].previous.Some? ==> w.jobs[j].previous.value < |w.jobs| && w.jobs[w.jobs[j].previous.value].phase.Settled?)
  }

  function Next(w: World, a: Action): World {
    match a
    case Call(lock, ahead, skipIfBusy) =>
      if skipIfBusy && lock in w.locks then w
      else
        var previous := if ahead || lock !in w.locks then None else Some(w.locks[lock]);
        World(w.jobs + [Job(lock, previous, Queued)], w.locks[lock := |w.jobs|])
    case Begin(j) => if MayBegin(w, j) then SetPhase(w, j, Running) else w
    case End(j, _) => if j < |w.jobs| && w.jobs[j].phase.Running? then SetPhase(w, j, Settled) else w
    case Clean(j) =>
      if j < |w.jobs| && w.jobs[j].phase.Settled? && w.jobs[j].lock in w.locks && w.locks[w.jobs[j].lock] == j
      then w.(locks := w.locks - {w.jobs[j].lock}) else w
  }

  function Run(w: World, actions: seq<Action>): World
    decreases |actions|
  {
    if actions == [] then w else Run(Next(w, actions[0]), actions[1..])
  }

  // ----- one stream at a time

  predicate Of(w: World, j: nat, lock: nat) {
    j < |w.jobs| && w.jobs[j].lock == lock
  }

  predicate Ended(w: World, j: nat) {
    j < |w.jobs| && w.jobs[j].phase.Settled?
  }

  predicate AllEnded(w: World, lock: nat) {
    forall j :: 0 <= j < |w.jobs| && Of(w, j, lock) ==> Ended(w, j)
  }

  /** A job that has begun comes after the end of every earlier job of its stream. */
  predicate InOrder(w: World, lock: nat) {
    forall i, j :: 0 <= i < j < |w.jobs| && Of(w, i, lock) && Of(w, j, lock) && !w.jobs[j].phase.Queued? ==> Ended(w, i)
  }

  /** A waiting job's link is the last earlier unsettled job of its stream; without a link, those have all ended. */
  predicate Linked(w: World, j: nat, lock: nat)
    requires j < |w.jobs|
  {
    var p := w.jobs[j].previous;
    && (p.Some? ==> p.value < j && Of(w, p.value, lock))
    && (forall i :: 0 <= i < j && Of(w, i, lock) && (p.None? || p.value < i) ==> Ended(w, i))
  }

  /** The map holds the last job of the stream, and may forget it only when all have ended. */
  predicate TailOk(w: World, lock: nat) {
    && (lock in w.locks ==> Of(w, w.locks[lock], lock))
    && (forall j :: 0 <= j < |w.jobs| && Of(w, j, lock) ==> if lock in w.locks then j <= w.locks[lock] else Ended(w, j))
  }

  predicate Inv(w: World, lock: nat) {
    && InOrder(w, lock) && TailOk(w, lock)
    && (forall j :: 0 <= j < |w.jobs| && Of(w, j, lock) ==> Linked(w, j, lock))
  }

  /** A job that is called ahead of one of its stream that has not ended. */
  predicate Overtakes(w: World, a: Action, lock: nat) {
    a.Call? && a.lock == lock && a.ahead && !(a.skipIfBusy && lock in w.locks) && !AllEnded(w, lock)
  }

  lemma MayBeginInOrder(w: World, j: nat, i: nat, lock: nat)
    requires Inv(w, lock) && MayBegin(w, j) && Of(w, j, lock) && i < j && Of(w, i, lock)
    ensures Ended(w, i)
  {
    assert Linked(w, j, lock);
    var p := w.jobs[j].previous;
    if p.Some? && i < p.value { assert Of(w, p.value, lock); }
  }

  lemma PhaseKeeps(w: World, j: nat, phase: Phase, lock: nat)
    requires Inv(w, lock) && j < |w.jobs| && !w.jobs[j].phase.Settled?
    requires phase == if w.jobs[j].phase.Queued? then Running else Settled
    requires w.jobs[j].phase.Queued? ==> MayBegin(w, j)
    ensures Inv(SetPhase(w, j, phase), lock)
  {
    var w' := SetPhase(w, j, phase);
    forall i ensures (Of(w', i, lock) <==> Of(w, i, lock)) && (Ended(w, i) ==> Ended(w', i)) {}
    forall i, k | 0 <= i < k < |w'.jobs| && Of(w', i, lock) && Of(w', k, lock) && !w'.jobs[k].phase.Queued?
      ensures Ended(w', i)
    {
      if k == j && w.jobs[j].phase.Queued? { MayBeginInOrder(w, j, i, lock); }
    }
    forall k | 0 <= k < |w'.jobs| && Of(w', k, lock) ensures Linked(w', k, lock) {
      assert Linked(w, k, lock);
    }
  }

  /** An ordinary call, and one with `ahead` that finds the stream idle, join the end of the chain. */
  lemma CallKeeps(w: World, a: Action, lock: nat)
    requires Inv(w, lock) && a.Call? && !Overtakes(w, a, lock)
    ensures Inv(Next(w, a), lock)
  {
    var w', n := Next(w, a), |w.jobs|;
    if w' != w {
      forall i | 0 <= i < n ensures (Of(w', i, lock) <==> Of(w, i, lock)) && (Ended(w, i) <==> Ended(w', i)) {}
      forall k | 0 <= k < |w'.jobs| && Of(w', k, lock) ensures Linked(w', k, lock) {
        if k < n { assert Linked(w, k, lock); }
      }
      forall i, k | 0 <= i < k < |w'.jobs| && Of(w', i, lock) && Of(w', k, lock) && !w'.jobs[k].phase.Queued?
        ensures Ended(w', i)
      {
        assert Of(w, i, lock) && Of(w, k, lock);
      }
    }
  }

  lemma OvertakingBreaks(w: World, a: Action, lock: nat)
    requires Inv(w, lock) && Overtakes(w, a, lock)
    ensures !Inv(Next(w, a), lock)
  {
    var w', n := Next(w, a), |w.jobs|;
    var i :| 0 <= i < |w.jobs| && Of(w, i, lock) && !Ended(w, i);
    assert Of(w', i, lock) && !Ended(w', i) && Of(w', n, lock);
    assert !Linked(w', n, lock);
  }

  lemma CleanKeeps(w: World, j: nat, lock: nat)
    requires Inv(w, lock)
    ensures Inv(Next(w, Clean(j)), lock)
  {
    var w' := Next(w, Clean(j));
    if w' != w {
      forall i ensures (Of(w', i, lock) <==> Of(w, i, lock)) && (Ended(w, i) <==> Ended(w', i)) {}
      forall k | 0 <= k < |w.jobs| && Of(w', k, lock) ensures Linked(w', k, lock) {
        assert Linked(w, k, lock);
      }
      forall i, k | 0 <= i < k < |w'.jobs| && Of(w', i, lock) && Of(w', k, lock) && !w'.jobs[k].phase.Queued?
        ensures Ended(w', i)
      {
        assert Of(w, i, lock) && Of(w, k, lock);
      }
      if w.jobs[j].lock == lock {
        assert Of(w, j, lock) && Ended(w, j);
        forall k | 0 <= k < |w.jobs| && Of(w, k, lock) ensures Ended(w', k) {}
      }
    }
  }

  /** A step keeps a stream's chain exactly if it does not call a job ahead of one that has not ended. */
  lemma StepKeepsChainExactly(w: World, a: Action, lock: nat)
    requires Inv(w, lock)
    ensures Inv(Next(w, a), lock) <==> !Overtakes(w, a, lock)
  {
    hide Inv;
    match a
    case Call(_, _, _) =>
      if Overtakes(w, a, lock) { OvertakingBreaks(w, a, lock); } else { CallKeeps(w, a, lock); }
    case Begin(j) => if MayBegin(w, j) { PhaseKeeps(w, j, Running, lock); }
    case End(j, _) => if j < |w.jobs| && w.jobs[j].phase.Running? { PhaseKeeps(w, j, Settled, lock); }
    case Clean(j) => CleanKeeps(w, j, lock);
  }

  // ----- what an overtaking call may lead to

  predicate IsRunning(w: World, j: nat, lock: nat) {
    Of(w, j, lock) && w.jobs[j].phase.Running?
  }

  /** Two jobs of one stream run at once. */
  predicate Overlap(w: World, lock: nat) {
    exists i, j :: 0 <= i < j < |w.jobs| && IsRunning(w, i, lock) && IsRunning(w, j, lock)
  }

  predicate NeverOvertakes(w: World, actions: seq<Action>, lock: nat)
    decreases |actions|
  {
    actions == [] || (!Overtakes(w, actions[0], lock) && NeverOvertakes(Next(w, actions[0]), actions[1..], lock))
  }

  lemma {:induction false} InvRun(w: World, actions: seq<Action>, lock: nat)
    requires Inv(w, lock) && NeverOvertakes(w, actions, lock)
    ensures Inv(Run(w, actions), lock)
    decreases |actions|
  {
    hide Inv, Next, Overtakes;
    if actions != [] {
      StepKeepsChainExactly(w, actions[0], lock);
      InvRun(Next(w, actions[0]), actions[1..], lock);
    }
  }

  /** A run after which two jobs of the stream run at once, though nothing overtakes any more. */
  predicate LeadsToOverlap(w: World, rest: seq<Action>, lock: nat) {
    NeverOvertakes(w, rest, lock) && Overlap(Run(w, rest), lock)
  }

  /** The first job of the stream that has not ended. */
  lemma {:induction false} FirstUnended(w: World, n: nat, lock: nat) returns (i: nat)
    requires n <= |w.jobs| && exists j :: 0 <= j < n && Of(w, j, lock) && !Ended(w, j)
    ensures i < n && Of(w, i, lock) && !Ended(w, i)
    ensures forall j :: 0 <= j < i && Of(w, j, lock) ==> Ended(w, j)
  {
    if j :| 0 <= j < n - 1 && Of(w, j, lock) && !Ended(w, j) {
      i := FirstUnended(w, n - 1, lock);
    } else {
      i := n - 1;
    }
  }

  lemma BeginLeadsOn(w: World, a: Action, rest: seq<Action>, lock: nat)
    requires a.Begin? && LeadsToOverlap(Next(w, a), rest, lock)
    ensures LeadsToOverlap(w, [a] + rest, lock)
  {
    hide Next, Overlap;
    assert ([a] + rest)[1..] == rest;
  }

  /** Begin the overtaker, and the job in front if it is still queued. */
  lemma OvertakingLeadsToOverlap(w: World, a: Action, lock: nat) returns (rest: seq<Action>)
    requires Inv(w, lock) && Overtakes(w, a, lock)
    ensures LeadsToOverlap(Next(w, a), rest, lock)
  {
    hide Run, NeverOvertakes;
    var w', n := Next(w, a), |w.jobs|;
    var i := FirstUnended(w, n, lock);
    assert Linked(w, i, lock);
    var w'' := Next(w', Begin(n));
    assert MayBegin(w', n) && IsRunning(w'', n, lock);
    rest := [];
    if w.jobs[i].phase.Running? {
      assert IsRunning(w'', i, lock);
      OverlapLeads(w'', lock);
    } else {
      var w3 := Next(w'', Begin(i));
      assert MayBegin(w'', i);
      assert IsRunning(w3, i, lock) && IsRunning(w3, n, lock);
      OverlapLeads(w3, lock);
      BeginLeadsOn(w'', Begin(i), rest, lock);
      rest := [Begin(i)] + rest;
    }
    BeginLeadsOn(w', Begin(n), rest, lock);
    rest := [Begin(n)] + rest;
  }

  lemma OverlapLeads(w: World, lock: nat)
    requires Overlap(w, lock)
    ensures LeadsToOverlap(w, [], lock)
  {
  }

  /** A call overtakes exactly if, without any further overtaking, two jobs of its stream may come to run at once. */
  lemma OvertakesExactlyIfOverlapFollows(w: World, a: Action, lock: nat)
    requires Inv(w, lock)
    ensures Overtakes(w, a, lock) <==> exists rest :: LeadsToOverlap(Next(w, a), rest, lock)
  {
    hide Inv, Next, Overtakes, LeadsToOverlap;
    if Overtakes(w, a, lock) {
      var rest := OvertakingLeadsToOverlap(w, a, lock);
    } else {
      StepKeepsChainExactly(w, a, lock);
      forall rest ensures !LeadsToOverlap(Next(w, a), rest, lock) { ChainNeverOverlaps(Next(w, a), rest, lock); }
    }
  }

  lemma ChainNeverOverlaps(w: World, rest: seq<Action>, lock: nat)
    requires Inv(w, lock)
    ensures !LeadsToOverlap(w, rest, lock)
  {
    hide Inv, Overlap, Run, NeverOvertakes;
    if NeverOvertakes(w, rest, lock) {
      InvRun(w, rest, lock);
      OrderExcludesOverlap(Run(w, rest), lock);
    }
  }

  lemma OrderExcludesOverlap(w: World, lock: nat)
    requires Inv(w, lock)
    ensures !Overlap(w, lock)
  {
    hide Linked, TailOk;
    assert InOrder(w, lock);
  }

  // ----- the results, for every stream on which nothing overtook

  /** Jobs of one stream never overlap, begin in the order of their calls, and failures change nothing. */
  lemma JobsTakeTurns(actions: seq<Action>, lock: nat, i: nat, j: nat)
    requires NeverOvertakes(INIT, actions, lock)
    requires var w := Run(INIT, actions); i < j && Of(w, i, lock) && Of(w, j, lock) && !w.jobs[j].phase.Queued?
    ensures Ended(Run(INIT, actions), i)
  {
    InvRun(INIT, actions, lock);
  }

  /** While a job is queued or running its stream counts as busy. */
  lemma BusyWhileQueuedOrRunning(actions: seq<Action>, lock: nat, j: nat)
    requires NeverOvertakes(INIT, actions, lock)
    requires Of(Run(INIT, actions), j, lock) && !Ended(Run(INIT, actions), j)
    ensures lock in Run(INIT, actions).locks
  {
    InvRun(INIT, actions, lock);
  }

  /** No turn is lost: a queued job may begin exactly when every earlier job of its stream has ended. */
  lemma MayBeginExactlyInTurn(actions: seq<Action>, lock: nat, j: nat)
    requires NeverOvertakes(INIT, actions, lock)
    requires Of(Run(INIT, actions), j, lock) && Run(INIT, actions).jobs[j].phase.Queued?
    ensures var w := Run(INIT, actions);
            MayBegin(w, j) <==> forall i :: 0 <= i < j && Of(w, i, lock) ==> Ended(w, i)
  {
    var w := Run(INIT, actions);
    InvRun(INIT, actions, lock);
    assert Linked(w, j, lock);
    if MayBegin(w, j) {
      forall i | 0 <= i < j && Of(w, i, lock) ensures Ended(w, i) {
        MayBeginInOrder(w, j, i, lock);
      }
    }
  }

  /** A job called with `ahead` overtakes a running one, and the next ordinary job waits for the overtaker only. */
  lemma AheadOverlaps()
    ensures var w := Run(INIT, [Call(0, false, false), Begin(0), Call(0, true, false), Begin(1), End(1, false),
                                Call(0, false, false), Begin(2)]);
            |w.jobs| == 3 && w.jobs[0].phase.Running? && w.jobs[2].phase.Running?
  {
  }

  // ----- what happens when nothing is in the way

  /** A call joins exactly if it does not have to skip: queued, behind the stream's last job unless it goes ahead. */
  lemma CallJoinsExactly(w: World, lock: nat, ahead: bool, skipIfBusy: bool)
    ensures var w' := Next(w, Call(lock, ahead, skipIfBusy));
            if skipIfBusy && lock in w.locks then w' == w
            else && |w'.jobs| == |w.jobs| + 1 && w'.jobs[..|w.jobs|] == w.jobs
                 && w'.jobs[|w.jobs|].lock == lock && w'.jobs[|w.jobs|].phase.Queued?
                 && (w'.jobs[|w.jobs|].previous.Some? <==> !ahead && lock in w.locks)
                 && w'.locks == w.locks[lock := |w.jobs|]
  {
  }

  /** The head of the chain runs, and ends, whether it fails or not; its last job then leaves the stream idle. */
  lemma HeadRunsAndLeavesIdle(actions: seq<Action>, lock: nat, j: nat, failed: bool)
    requires NeverOvertakes(INIT, actions, lock)
    requires var w := Run(INIT, actions);
             && Of(w, j, lock) && w.jobs[j].phase.Queued? && forall i :: 0 <= i < j && Of(w, i, lock) ==> Ended(w, i)
    ensures var w := Run(INIT, actions); var w1 := Next(w, Begin(j)); var w2 := Next(w1, End(j, failed));
            && w1.jobs == w.jobs[j := w.jobs[j].(phase := Running)] && w1.locks == w.locks
            && w2.jobs == w.jobs[j := w.jobs[j].(phase := Settled)] && w2.locks == w.locks
            && ((forall i :: j < i < |w.jobs| ==> !Of(w, i, lock)) ==> lock !in Next(w2, Clean(j)).locks)
  {
    MayBeginExactlyInTurn(actions, lock, j);
    InvRun(INIT, actions, lock);
    hide InOrder, Linked, Run;
    var w := Run(INIT, actions);
    assert lock in w.locks && Of(w, w.locks[lock], lock) && j <= w.locks[lock];
  }
}
