/**
 The poll of one claimed sync-work row: the gates in front of it, the stream lock, the pages, and the nested
 try, catch and finally around them. A settlement counts only while the row is still claimed.
 */
module PollItem {
  datatype Lane = Interactive | Live | Catalog | History | Media

  datatype Work = Work(id: nat, installation: nat, lane: Lane)

  /**
   Settlements. `Again`: due at once; `WrongPlane`: deferred to the other plane or a calmer time; `Failed`: due
   after a back-off, with an error; `Polled`: due by the stream's heat; `Rescan`: the next directory census.
   */
  datatype Outcome = Again | WrongPlane | Succeeded | Failed | Cancelled | Polled(accepted: nat) | Rescan

  /** What the whole batch is given. */
  datatype Plane = Plane(bootstrap: bool, allowHistory: bool, syncRun: bool)

  datatype RunRead = RunThrows | RunOver | RunAlive

  /** What the awaits and checks of one poll answer. A false `…Ok` is an exception. */
  datatype Answers = Answers(
    run: RunRead,
    hold: bool,
    throttleHistory: bool,
    throttleMedia: bool,
    idle: bool,
    deferHistory: bool,
    dutyReadOk: bool,
    historyDuty: bool,
    dutyWriteOk: bool,
    thread: bool,                // the stream key names a conversation
    staleBefore: bool,           // another conversation is preferred now
    enqueueBeforeOk: bool,
    resolveOk: bool,
    stateReadOk: bool,
    key: nat,
    busy: bool,                  // the stream's lock is taken
    pages: nat,
    pollOk: bool,
    rememberOk: bool,
    staleAfter: bool,
    enqueueAfterOk: bool,
    idleReadOk: bool,
    rememberErrorOk: bool)

  /** The rows' settlements: a first one stays. */
  function Settled(ledger: map<nat, Outcome>, id: nat, outcome: Outcome): map<nat, Outcome> {
    if id in ledger then ledger else ledger[id := outcome]
  }

  // ----- which rows may be polled at all

  /** The row passes the gates that do not look at its stream. */
  predicate InPlane(lane: Lane, plane: Plane, a: Answers) {
    Wanted(plane, a) && !a.hold && Allowed(lane, plane, a) && (lane.History? ==> a.dutyReadOk && a.historyDuty)
  }

  predicate PlaneThrows(lane: Lane, plane: Plane, a: Answers) {
    || (plane.syncRun && a.run.RunThrows?)
    || (Wanted(plane, a) && !a.hold && Allowed(lane, plane, a) && lane.History? && (!a.dutyReadOk || (!a.historyDuty && !a.dutyWriteOk)))
  }

  /** The plane and the pressure on the machine allow this lane. */
  predicate Allowed(lane: Lane, plane: Plane, a: Answers) {
    match lane
    case History => plane.allowHistory && (plane.bootstrap || !a.throttleHistory)
    case Media => !plane.bootstrap && !a.throttleMedia && a.idle && !a.deferHistory
    case _ => true
  }

  /** The run the batch belongs to is still wanted. */
  predicate Wanted(plane: Plane, a: Answers) {
    plane.syncRun ==> a.run.RunAlive?
  }

  predicate Stale(lane: Lane, preferredElsewhere: bool) {
    lane.Interactive? && preferredElsewhere
  }

  /** Nothing in front of the stream lock ends the poll. */
  predicate Reaches(lane: Lane, plane: Plane, a: Answers) {
    && Wanted(plane, a) && !a.hold && Allowed(lane, plane, a)
    && (lane.History? ==> a.dutyReadOk && a.historyDuty)
    && a.thread && !Stale(lane, a.staleBefore) && a.resolveOk && a.stateReadOk
  }

  predicate Skips(lane: Lane, a: Answers) {
    a.busy && !lane.Interactive?
  }

  /** Everything after the lock went well. */
  predicate Completes(lane: Lane, a: Answers) {
    a.pollOk && a.rememberOk && (if Stale(lane, a.staleAfter) then a.enqueueAfterOk else a.idleReadOk)
  }

  class Streams {
    var ledger: map<nat, Outcome>
    var pulling: set<nat>
    var pullingHistory: set<nat>
    var catchingUp: set<nat>
    var enqueued: seq<nat>        // rows put back as live work
    var accepted: nat
    ghost var polled: seq<nat>    // rows whose stream was really polled

    constructor ()
      ensures ledger == map[] && pulling == {} && pullingHistory == {} && enqueued == [] && accepted == 0 && polled == []
    {
      ledger, pulling, pullingHistory, catchingUp, enqueued, accepted, polled := map[], {}, {}, {}, [], 0, [];
    }

    method Settle(id: nat, outcome: Outcome)
      modifies this`ledger
      ensures ledger == Settled(old(ledger), id, outcome)
    {
      if id !in ledger {
        ledger := ledger[id := outcome];
      }
    }

    /** Cancels the claim and puts the row back as live work; the second write may throw. */
    method ReleaseStaleInteractiveClaim(item: Work, enqueueOk: bool) returns (ok: bool)
      modifies this`ledger, this`enqueued
      ensures ok == enqueueOk
      ensures ledger == Settled(old(ledger), item.id, Cancelled)
      ensures enqueued == if ok then old(enqueued) + [item.id] else old(enqueued)
    {
      Settle(item.id, Cancelled);
      if enqueueOk { enqueued := enqueued + [item.id]; }
      ok := enqueueOk;
    }

    /** The gates of the run, the hold, the plane and the history duty. */
    method PassPlane(item: Work, plane: Plane, a: Answers) returns (go: bool, threw: bool)
      modifies this`ledger
      ensures go <==> InPlane(item.lane, plane, a)
      ensures threw <==> PlaneThrows(item.lane, plane, a)
      ensures go || threw ==> !(go && threw) && ledger == old(ledger)
      ensures !go && !threw ==> ledger == Settled(old(ledger), item.id, GateOutcome(item.lane, plane, a))
    {
      go, threw := false, false;
      if plane.syncRun {
        if a.run.RunThrows? { return false, true; }
        if a.run.RunOver? { Settle(item.id, Again); return; }
      }
      if a.hold { Settle(item.id, Again); return; }
      if !plane.allowHistory && item.lane.History? { Settle(item.id, WrongPlane); return; }
      if item.lane.Media? && plane.bootstrap { Settle(item.id, WrongPlane); return; }
      if item.lane.History? && a.throttleHistory && !plane.bootstrap { Settle(item.id, WrongPlane); return; }
      if item.lane.Media? && (a.throttleMedia || !a.idle || a.deferHistory) { Settle(item.id, WrongPlane); return; }
      if item.lane.History? {
        if !a.dutyReadOk { return false, true; }
        if !a.historyDuty {
          if !a.dutyWriteOk { return false, true; }
          Settle(item.id, Succeeded);
          return;
        }
      }
      go := true;
    }

    /** The gates: `go` if the poll goes on to the stream; otherwise the row was settled, or a read or write threw. */
    method PassGates(item: Work, plane: Plane, a: Answers) returns (go: bool, threw: bool)
      modifies this`ledger, this`enqueued
      ensures go <==> Reaches(item.lane, plane, a)
      ensures go ==> !threw && ledger == old(ledger)
      ensures !go && !threw ==> ledger == Settled(old(ledger), item.id, GateOutcome(item.lane, plane, a))
      ensures threw ==> ledger == old(ledger) || (GateOutcome(item.lane, plane, a) == Cancelled && ledger == Settled(old(ledger), item.id, Cancelled))
      ensures threw <==> GateThrows(item.lane, plane, a)
      ensures enqueued == if item.lane.Interactive? && Wanted(plane, a) && !a.hold && a.thread && a.staleBefore && a.enqueueBeforeOk
                          then old(enqueued) + [item.id] else old(enqueued)
    {
      go, threw := PassPlane(item, plane, a);
      if !go { return; }
      go := false;
      if !a.thread { Settle(item.id, Failed); return; }
      if Stale(item.lane, a.staleBefore) {
        var ok := ReleaseStaleInteractiveClaim(item, a.enqueueBeforeOk);
        return false, !ok;
      }
      if !a.resolveOk { Settle(item.id, Failed); return; }
      if !a.stateReadOk { return false, true; }
      go := true;
    }

    /**
     One row. Whatever happens the row is settled, by the branch that ended its poll, or the poll throws; and the
     stream is not left marked as being pulled.
     */
    method Poll(item: Work, plane: Plane, a: Answers) returns (ok: bool)
      modifies this
      ensures ok ==> ledger == Settled(old(ledger), item.id, Verdict(item.lane, plane, a))
      ensures !ok ==> ledger == old(ledger) || ledger == Settled(old(ledger), item.id, Verdict(item.lane, plane, a))
      ensures ok <==> !PollThrows(item.lane, plane, a)
      ensures ok <==> !MayNotFinish(item.lane, plane, a)
      ensures ok && item.id !in old(ledger) ==> item.id in ledger && SettledRightly(ledger[item.id], item.lane, plane, a)
      ensures !ok ==> ledger == old(ledger) || ledger == Settled(old(ledger), item.id, Cancelled)
      ensures polled == if Polls(item.lane, plane, a) then old(polled) + [item.id] else old(polled)
      ensures enqueued == if PutBack(item.lane, plane, a) then old(enqueued) + [item.id] else old(enqueued)
      ensures accepted == old(accepted) + if Polls(item.lane, plane, a) && a.pollOk && a.rememberOk then a.pages else 0
      ensures Reaches(item.lane, plane, a) ==> pulling == old(pulling) - {a.key} && pullingHistory == old(pullingHistory) - {a.key}
      ensures !Reaches(item.lane, plane, a) ==> pulling == old(pulling) && pullingHistory == old(pullingHistory)
    {
      hide GateOutcome, GateThrows, Allowed, Wanted, SettledRightly, MayNotFinish, Reaches, Resolved, Addressed;
      ReachesExactly(item.lane, plane, a);
      ThrowsExactly(item.lane, plane, a);
      if !PollThrows(item.lane, plane, a) { VerdictIsRight(item.lane, plane, a); }
      var go, threw := PassGates(item, plane, a);
      if !go { return !threw; }
      pulling := pulling + {a.key};
      if item.lane.History? {
        catchingUp := catchingUp + {a.key};
        pullingHistory := pullingHistory + {a.key};
      }
      ok := TryStream(item, a);
      pulling := pulling - {a.key};
      pullingHistory := pullingHistory - {a.key};
    }

    /** The try block and its catch: what goes wrong behind the lock is remembered and settled as a failure. */
    method TryStream(item: Work, a: Answers) returns (ok: bool)
      modifies this`ledger, this`enqueued, this`accepted, this`polled
      ensures ok ==> ledger == Settled(old(ledger), item.id, StreamOutcome(item.lane, a))
      ensures !ok ==> ledger == old(ledger) || ledger == Settled(old(ledger), item.id, StreamOutcome(item.lane, a))
      ensures !ok ==> ledger == old(ledger) || ledger == Settled(old(ledger), item.id, Cancelled)
      ensures enqueued == if Skips(item.lane, a) || !a.pollOk || !a.rememberOk || !Stale(item.lane, a.staleAfter) || !a.enqueueAfterOk
                          then old(enqueued) else old(enqueued) + [item.id]
      ensures ok <==> Skips(item.lane, a) || Completes(item.lane, a) || a.rememberErrorOk
      ensures polled == if Skips(item.lane, a) then old(polled) else old(polled) + [item.id]
      ensures accepted == old(accepted) + if !Skips(item.lane, a) && a.pollOk && a.rememberOk then a.pages else 0
    {
      var caught := false;
      label Try: {
        if Skips(item.lane, a) { Settle(item.id, Again); break Try; }
        polled := polled + [item.id];
        if !a.pollOk { caught := true; break Try; }
        if !a.rememberOk { caught := true; break Try; }
        accepted := accepted + a.pages;
        if Stale(item.lane, a.staleAfter) {
          var released := ReleaseStaleInteractiveClaim(item, a.enqueueAfterOk);
          caught := !released;
          break Try;
        }
        if !a.idleReadOk { caught := true; break Try; }
        Settle(item.id, Polled(a.pages));
      }
      ok := true;
      if caught {
        if a.rememberErrorOk { Settle(item.id, Failed); } else { ok := false; }
      }
    }
  }

  /** A read or a write in front of the stream throws. */
  predicate GateThrows(lane: Lane, plane: Plane, a: Answers) {
    || (plane.syncRun && a.run.RunThrows?)
    || (Wanted(plane, a) && !a.hold && Allowed(lane, plane, a) && GateReadThrows(lane, a))
  }

  predicate GateReadThrows(lane: Lane, a: Answers) {
    if lane.History? && (!a.dutyReadOk || !a.historyDuty) then !a.dutyReadOk || !a.dutyWriteOk
    else if !a.thread then false
    else if Stale(lane, a.staleBefore) then !a.enqueueBeforeOk
    else a.resolveOk && !a.stateReadOk
  }

  /** The stream is really polled. */
  predicate Polls(lane: Lane, plane: Plane, a: Answers) {
    Reaches(lane, plane, a) && !Skips(lane, a)
  }

  /** The catch block itself throws. */
  predicate StreamThrows(lane: Lane, plane: Plane, a: Answers) {
    Polls(lane, plane, a) && !Completes(lane, a) && !a.rememberErrorOk
  }

  /** The settlement in front of the stream, for a row that does not come to it. */
  function GateOutcome(lane: Lane, plane: Plane, a: Answers): Outcome {
    if !Wanted(plane, a) || a.hold then Again
    else if !Allowed(lane, plane, a) then WrongPlane
    else if lane.History? && !a.historyDuty then Succeeded
    else if !a.thread then Failed
    else if Stale(lane, a.staleBefore) then Cancelled
    else Failed
  }

  /** The settlement behind the gates. */
  function StreamOutcome(lane: Lane, a: Answers): Outcome {
    if Skips(lane, a) then Again
    else if !a.pollOk || !a.rememberOk then Failed
    else if Stale(lane, a.staleAfter) then Cancelled
    else if !a.idleReadOk then Failed
    else Polled(a.pages)
  }

  /** The settlement a row gets from its own poll. */
  function Verdict(lane: Lane, plane: Plane, a: Answers): Outcome {
    if Reaches(lane, plane, a) then StreamOutcome(lane, a) else GateOutcome(lane, plane, a)
  }

  predicate PollThrows(lane: Lane, plane: Plane, a: Answers) {
    GateThrows(lane, plane, a) || StreamThrows(lane, plane, a)
  }

  // ----- which settlement is right

  /** The run is still wanted, nothing is on hold, and plane, pressure and idleness allow the lane. */
  predicate Due(plane: Plane, a: Answers) {
    (!plane.syncRun || a.run == RunAlive) && !a.hold
  }

  predicate Calm(lane: Lane, plane: Plane, a: Answers) {
    match lane
    case History => plane.allowHistory && !(a.throttleHistory && !plane.bootstrap)
    case Media => !plane.bootstrap && !a.throttleMedia && a.idle && !a.deferHistory
    case _ => true
  }

  /** Due and calm, a history row owes something, and the row names a conversation. */
  predicate Addressed(lane: Lane, plane: Plane, a: Answers) {
    Due(plane, a) && Calm(lane, plane, a) && (lane == History ==> a.historyDuty) && a.thread
  }

  /** And it is not stale, and its stream can be resolved. */
  predicate Resolved(lane: Lane, plane: Plane, a: Answers) {
    Addressed(lane, plane, a) && !(lane == Interactive && a.staleBefore) && a.resolveOk
  }

  /**
   Due at once: the run is over, on hold, or the stream is busy. Deferred: not calm. Succeeded: history that owes
   nothing. Cancelled: another conversation is preferred now, before the poll or after it. Failed: no conversation,
   no stream, or something went wrong behind the lock. Polled: none of these.
   */
  predicate SettledRightly(outcome: Outcome, lane: Lane, plane: Plane, a: Answers) {
    var busy := a.busy && lane != Interactive;
    var wrong := !a.pollOk || !a.rememberOk;
    && (outcome == Again <==> !Due(plane, a) || (Resolved(lane, plane, a) && busy))
    && (outcome == WrongPlane <==> Due(plane, a) && !Calm(lane, plane, a))
    && (outcome == Succeeded <==> Due(plane, a) && Calm(lane, plane, a) && lane == History && !a.historyDuty)
    && (outcome == Cancelled <==>
          && lane == Interactive && Addressed(lane, plane, a)
          && (a.staleBefore || (Resolved(lane, plane, a) && !wrong && a.staleAfter)))
    && (outcome == Outcome.Failed <==>
          || (Due(plane, a) && Calm(lane, plane, a) && (lane == History ==> a.historyDuty) && !a.thread)
          || (Addressed(lane, plane, a) && !(lane == Interactive && a.staleBefore) && !a.resolveOk)
          || (Resolved(lane, plane, a) && !busy && (wrong || (!(lane == Interactive && a.staleAfter) && !a.idleReadOk))))
    && (outcome == Polled(a.pages) <==>
          Resolved(lane, plane, a) && !busy && !wrong && a.idleReadOk && !(lane == Interactive && a.staleAfter))
  }

  /** An await throws that no catch of the poll takes. */
  predicate MayNotFinish(lane: Lane, plane: Plane, a: Answers) {
    || (plane.syncRun && a.run == RunThrows)
    || (Due(plane, a) && Calm(lane, plane, a) && lane == History && (!a.dutyReadOk || (!a.historyDuty && !a.dutyWriteOk)))
    || (Addressed(lane, plane, a) && lane == Interactive && a.staleBefore && !a.enqueueBeforeOk)
    || (Resolved(lane, plane, a) && !a.stateReadOk)
    || (&& Resolved(lane, plane, a) && !(a.busy && lane != Interactive) && !a.rememberErrorOk
        && (|| !a.pollOk || !a.rememberOk
            || (if lane == Interactive && a.staleAfter then !a.enqueueAfterOk else !a.idleReadOk)))
  }

  /** A stale row, found before the poll or after it, is live work again, unless that write throws. */
  predicate PutBack(lane: Lane, plane: Plane, a: Answers) {
    && lane == Interactive && Addressed(lane, plane, a)
    && if a.staleBefore then a.enqueueBeforeOk
       else a.resolveOk && a.stateReadOk && a.pollOk && a.rememberOk && a.staleAfter && a.enqueueAfterOk
  }

  lemma ReachesExactly(lane: Lane, plane: Plane, a: Answers)
    ensures Reaches(lane, plane, a) <==> Resolved(lane, plane, a) && (lane == History ==> a.dutyReadOk) && a.stateReadOk
    ensures Resolved(lane, plane, a) <==> Addressed(lane, plane, a) && !(lane == Interactive && a.staleBefore) && a.resolveOk
    ensures lane == Interactive ==> (Addressed(lane, plane, a) <==> Wanted(plane, a) && !a.hold && a.thread)
  {
  }

  /** A stream is polled exactly if every gate lets the row through and its lock need not be skipped. */
  lemma PollsExactly(lane: Lane, plane: Plane, a: Answers)
    ensures Polls(lane, plane, a) <==>
            && Resolved(lane, plane, a) && (lane == History ==> a.dutyReadOk) && a.stateReadOk && (a.busy ==> lane == Interactive)
  {
  }

  lemma ThrowsExactly(lane: Lane, plane: Plane, a: Answers)
    ensures PollThrows(lane, plane, a) <==> MayNotFinish(lane, plane, a)
  {
  }

  lemma VerdictIsRight(lane: Lane, plane: Plane, a: Answers)
    requires !PollThrows(lane, plane, a)
    ensures SettledRightly(Verdict(lane, plane, a), lane, plane, a)
  {
  }
}
