/**
 The reply service itself: one call from start to end, as a sequence of awaits against the store,
 the blob store and the channel, each of which may throw. Other calls, on this or other replicas, get on
 between any two awaits. The call and what goes on around it are a run of the protocol, so what the
 protocol's runs keep, this code keeps.

 `calm` says that no await of this call throws, `Quiet` that nobody else gets on meanwhile.
 */
module ReplyService {
  import opened Wrappers
  import opened ReplyRecovery
  import opened ReplyProtocol
  import opened ReplySafety

  /** Some sequence of protocol actions leads from `w` to `w'`. */
  ghost predicate Leads(w: World, w': World) {
    exists actions :: Run(w, actions) == w'
  }

  lemma LeadsByOne(w: World, a: Action)
    ensures Leads(w, Next(w, a))
  {
    RunSnoc(w, [], a);
    assert Run(w, []) == w;
    assert Run(w, [] + [a]) == Next(w, a);
  }

  lemma LeadsToItself(w: World)
    ensures Leads(w, w)
  {
    assert Run(w, []) == w;
  }

  lemma LeadsOn(w: World, mid: World, w': World)
    requires Leads(w, mid) && Leads(mid, w')
    ensures Leads(w, w')
  {
    var first :| Run(w, first) == mid;
    var later :| Run(mid, later) == w';
    RunAppend(w, first, later);
  }

  lemma LeadsKeepsInv(w: World, w': World)
    requires Leads(w, w') && Inv(w)
    ensures Inv(w')
  {
    var actions :| Run(w, actions) == w';
    InvRun(w, actions);
  }

  /** The call of a host is one of the calls of the world. */
  lemma OwnCall(before: seq<Call>, c: Call, after: seq<Call>, c': Call)
    ensures (before + [c] + after)[|before|] == c
    ensures (before + [c] + after)[|before| := c'] == before + [c'] + after
  {
  }

  /** Which calls end with an error but no store write when their await throws. */
  predicate Plainly(c: Call) {
    PendingWrite(c).None? && !c.Sending? && !c.Over?
  }

  /** The action is one of call `i`. */
  predicate Moves(a: Action, i: nat) {
    match a
    case Advance(k) => k == i
    case Prepare(k, _) => k == i
    case Answer(k, _, _) => k == i
    case Ingest(k, _) => k == i
    case Fail(k) => k == i
    case Crash(k) => k == i
    case _ => false
  }

  lemma BecomeSwap(w: World, i: nat, c: Call, k: nat, d: Call)
    requires i < |w.calls| && k < |w.calls| && k != i
    ensures Become(Become(w, i, c), k, d) == Become(Become(w, k, d), i, c)
  {
    Swap(w.calls, i, c, k, d);
  }

  /** Two different calls of a list may be replaced in either order. */
  lemma Swap(calls: seq<Call>, i: nat, c: Call, k: nat, d: Call)
    requires i < |calls| && k < |calls| && k != i
    ensures calls[i := c][k := d] == calls[k := d][i := c]
  {
  }

  /** Calls that write the row when their await succeeds. */
  predicate Writes(c: Call) {
    c.Claiming? || c.Rejecting? || c.Accepting? || c.Marking?
  }

  lemma OtherWrites(w: World, i: nat, c: Call, k: nat)
    requires i < |w.calls| && k < |w.calls| && k != i && Writes(w.calls[k])
    ensures AdvanceCall(Become(w, i, c), k) == Become(AdvanceCall(w, k), i, c)
    ensures |AdvanceCall(w, k).calls| == |w.calls| && AdvanceCall(w, k).calls[i] == w.calls[i]
  {
    hide ReplyBatch, Save, LookUp, ApplyWrite, PendingWrite, Claimable, SaveBlob, Revive;
    Swap(w.calls, i, c, k, AdvanceCall(w, k).calls[k]);
  }

  lemma OtherLooks(w: World, i: nat, c: Call, k: nat)
    requires i < |w.calls| && k < |w.calls| && k != i && (w.calls[k].Looking? || w.calls[k].LookingAgain? || w.calls[k].Loading? || w.calls[k].Naming?)
    ensures AdvanceCall(Become(w, i, c), k) == Become(AdvanceCall(w, k), i, c)
    ensures |AdvanceCall(w, k).calls| == |w.calls| && AdvanceCall(w, k).calls[i] == w.calls[i]
  {
    hide ReplyBatch, Save, LookUp, ApplyWrite, PendingWrite, Claimable, SaveBlob, Revive;
    Swap(w.calls, i, c, k, AdvanceCall(w, k).calls[k]);
  }

  lemma OtherReads(w: World, i: nat, c: Call, k: nat)
    requires i < |w.calls| && k < |w.calls| && k != i && !Writes(w.calls[k]) && !(w.calls[k].Looking? || w.calls[k].LookingAgain? || w.calls[k].Loading? || w.calls[k].Naming?)
    ensures AdvanceCall(Become(w, i, c), k) == Become(AdvanceCall(w, k), i, c)
    ensures |AdvanceCall(w, k).calls| == |w.calls| && AdvanceCall(w, k).calls[i] == w.calls[i]
  {
    hide ReplyBatch, Save, LookUp, ApplyWrite, PendingWrite, Claimable, SaveBlob, Revive;
    Swap(w.calls, i, c, k, AdvanceCall(w, k).calls[k]);
  }

  /** The await of another call succeeds. */
  lemma OtherAdvances(w: World, i: nat, c: Call, k: nat)
    requires i < |w.calls| && k < |w.calls| && k != i
    ensures AdvanceCall(Become(w, i, c), k) == Become(AdvanceCall(w, k), i, c)
    ensures |AdvanceCall(w, k).calls| == |w.calls| && AdvanceCall(w, k).calls[i] == w.calls[i]
  {
    hide AdvanceCall, Become;
    if Writes(w.calls[k]) {
      OtherWrites(w, i, c, k);
    } else if w.calls[k].Looking? || w.calls[k].LookingAgain? || w.calls[k].Loading? || w.calls[k].Naming? {
      OtherLooks(w, i, c, k);
    } else {
      OtherReads(w, i, c, k);
    }
  }

  lemma OtherEnds(w: World, i: nat, c: Call, k: nat, outcome: Outcome)
    requires i < |w.calls| && k < |w.calls| && k != i
    ensures Abandon(Become(w, i, c), k, outcome) == Become(Abandon(w, k, outcome), i, c)
  {
    hide ReplyBatch, Save, PendingWrite;
    BecomeSwap(w, i, c, k, Over(outcome));
  }

  lemma OtherAnswered(w: World, i: nat, c: Call, k: nat, answer: SendAnswer, reached: bool)
    requires i < |w.calls| && k < |w.calls| && k != i && w.calls[k].Sending?
    ensures AnswerCall(Become(w, i, c), k, answer, reached) == Become(AnswerCall(w, k, answer, reached), i, c)
    ensures |AnswerCall(w, k, answer, reached).calls| == |w.calls| && AnswerCall(w, k, answer, reached).calls[i] == w.calls[i]
  {
    Swap(w.calls, i, c, k, AnswerCall(w, k, answer, reached).calls[k]);
  }

  /** What others do does not depend on where this call is, and leaves it there. */
  lemma OthersMove(w: World, i: nat, c: Call, a: Action)
    requires i < |w.calls| && !Moves(a, i)
    ensures i < |Next(w, a).calls| && Next(w, a).calls[i] == w.calls[i]
    ensures Next(Become(w, i, c), a) == Become(Next(w, a), i, c)
  {
    hide AdvanceCall, AnswerCall, Abandon, ReplyBatch, Save, ApplyWrite, PendingWrite, FailureOutcome;
    match a
    case Arrive(thread) => assert w.calls[i := c] + [Looking(thread)] == (w.calls + [Looking(thread)])[i := c];
    case Advance(k) => if k < |w.calls| { OtherAdvances(w, i, c, k); }
    case Prepare(k, d) => if k < |w.calls| { BecomeSwap(w, i, c, k, Claiming(d)); }
    case Answer(k, answer, reached) =>
      if k < |w.calls| && w.calls[k].Sending? { OtherAnswered(w, i, c, k, answer, reached); }
    case Ingest(k, eventId) =>
      if k < |w.calls| && w.calls[k].Ingesting? {
        BecomeSwap(w, i, c, k, Aliasing(w.calls[k].thread, w.calls[k].receipt, eventId, w.calls[k].sender));
      }
    case Fail(k) => if k < |w.calls| { OtherFails(w, i, c, k); }
    case Crash(k) => if k < |w.calls| { OtherFails(w, i, c, k); }
    case Land(_) =>
  }

  lemma OtherFails(w: World, i: nat, c: Call, k: nat)
    requires i < |w.calls| && k < |w.calls| && k != i
    ensures Abandon(Become(w, i, c), k, FailureOutcome(w.calls[k])) == Become(Abandon(w, k, FailureOutcome(w.calls[k])), i, c)
    ensures Abandon(Become(w, i, c), k, Crashed) == Become(Abandon(w, k, Crashed), i, c)
    ensures forall outcome :: |Abandon(w, k, outcome).calls| == |w.calls| && Abandon(w, k, outcome).calls[i] == w.calls[i]
  {
    hide PendingWrite, FailureOutcome;
    OtherEnds(w, i, c, k, FailureOutcome(w.calls[k]));
    OtherEnds(w, i, c, k, Crashed);
  }

  // ----- what a retry meets

  /** An attempt of the asked thread, or of whichever thread if none is asked for. */
  predicate Prior(row: Option<Attempt>, thread: string) {
    row.Some? && (thread == "" || row.value.thread == thread)
  }

  predicate Foreign(row: Option<Attempt>, thread: string) {
    row.Some? && thread != "" && row.value.thread != thread
  }

  /** Nobody knows, or nobody knows yet, whether the reply went out. */
  predicate Undecided(row: Option<Attempt>, thread: string) {
    Prior(row, thread) && (row.value.status == Pending || row.value.status == Failed)
  }

  /** The row's evidence does not fit its status. */
  predicate Conflicting(row: Option<Attempt>, thread: string) {
    && Prior(row, thread)
    && (|| (row.value.status == Rejected && (row.value.eventId.Some? || row.value.receipt.Some? || row.value.messageIds.Some?))
        || (row.value.status == Accepted &&
              (row.value.recovery.None? || row.value.receipt.None? || !row.value.receipt.value.accepted))
        || (row.value.status == Sent && row.value.eventId.None?))
  }

  predicate Finished(row: Option<Attempt>, thread: string) {
    Prior(row, thread) && row.value.status == Sent && row.value.eventId.Some?
  }

  /** The first look of a call decides by the row alone, and nothing but the call's own place changes. */
  lemma FirstLookDecides(w: World, i: nat)
    requires i < |w.calls| && w.calls[i].Looking?
    ensures var thread := w.calls[i].thread; var w' := Next(w, Advance(i));
            && w' == w.(calls := w.calls[i := w'.calls[i]])
            && (Foreign(w.row, thread) ==> w'.calls[i] == Over(InvalidReply))
            && (Undecided(w.row, thread) ==> w'.calls[i] == Over(SendUncertain))
            && (Conflicting(w.row, thread) ==> w'.calls[i] == Over(RecoveryUnavailable))
            && (Finished(w.row, thread) ==> Next(w', Advance(i)) == w.(calls := w.calls[i := Over(Replied)]))
            && (w'.calls[i] == Preparing(thread) <==>
                  || w.row.None?
                  || (Prior(w.row, thread) && w.row.value.status == Rejected && !Conflicting(w.row, thread)))
            && (w'.calls[i].Loading? <==>
                  Prior(w.row, thread) && w.row.value.status == Accepted && !Conflicting(w.row, thread))
  {
    hide ReplyBatch, Save, Revive, ApplyWrite;
  }

  /** A call whose claim is refused looks again, and decides as at first, except that it never sends. */
  lemma RefusedClaimDecides(w: World, i: nat)
    requires i < |w.calls| && w.calls[i].Claiming? && !Claimable(w.row, w.calls[i].draft.thread) && w.calls[i].draft.thread != ""
    ensures var thread := w.calls[i].draft.thread; var w' := Next(Next(w, Advance(i)), Advance(i));
            && w' == w.(calls := w.calls[i := w'.calls[i]])
            && (Foreign(w.row, thread) ==> w'.calls[i] == Over(InvalidReply))
            && (Undecided(w.row, thread) ==> w'.calls[i] == Over(SendUncertain))
            && (Conflicting(w.row, thread) ==> w'.calls[i] == Over(RecoveryUnavailable))
            && (Finished(w.row, thread) ==> Next(w', Advance(i)) == w.(calls := w.calls[i := Over(Replied)]))
            && (w'.calls[i].Loading? <==>
                  Prior(w.row, thread) && w.row.value.status == Accepted && !Conflicting(w.row, thread))
            && !w'.calls[i].Preparing?
  {
    hide ReplyBatch, Save, Revive, ApplyWrite;
  }

  /** A delivered call, undisturbed: the payload under the channel's id, then acceptance with the receipt, its message ids and that payload. */
  lemma DeliveryIsRecorded(w: World, i: nat)
    requires i < |w.calls| && w.calls[i].Naming?
    ensures var d, receipt := w.calls[i].draft, w.calls[i].receipt;
            var payload := Save(DeliveredBatch(d, receipt));
            var w' := Next(Next(w, Advance(i)), Advance(i));
            && w'.blobs == w.blobs[Digest(payload) := payload]
            && w'.row == Some(Attempt(d.thread, Accepted, None, Some(receipt.messageIds), Some(Digest(payload)), Some(receipt)))
            && w'.calls == w.calls[i := Ingesting(d.thread, DeliveredBatch(d, receipt), receipt, true)]
            && w'.delivered == w.delivered && w'.ingested == w.ingested && w'.limbo == w.limbo
  {
    hide ReplyBatch, Save, Revive;
  }

  /** Storing, undisturbed: the batch is ingested, and the row marked sent under the event it became and the receipt's message ids. */
  lemma StoringMarksTheEvent(w: World, i: nat, eventId: string)
    requires i < |w.calls| && w.calls[i].Ingesting? && w.row.Some?
    ensures var call := w.calls[i];
            var w' := Next(Next(Next(Next(w, Ingest(i, eventId)), Advance(i)), Advance(i)), Advance(i));
            && w'.row == Some(Attempt(call.thread, Sent, Some(eventId), Some(call.receipt.messageIds),
                                      w.row.value.recovery, w.row.value.receipt))
            && w'.ingested == w.ingested + [call.batch] && w'.calls == w.calls[i := Over(Replied)]
            && w'.delivered == w.delivered && w'.blobs == w.blobs && w'.limbo == w.limbo
  {
    hide ReplyBatch, Save, Revive, LookUp, Claimable, SaveBlob;
    var call := w.calls[i];
    var w1 := Next(w, Ingest(i, eventId));
    assert w1.calls == w.calls[i := Aliasing(call.thread, call.receipt, eventId, call.sender)];
    var w2 := Next(w1, Advance(i));
    assert w2.calls == w.calls[i := Marking(call.thread, call.receipt, eventId, call.sender)];
    var w3 := Next(w2, Advance(i));
    assert w3.calls == w.calls[i := Showing(call.sender)];
  }

  class ReplyHost {
    var row: Option<Attempt>
    var blobs: map<Digest, Value>
    var limbo: seq<Write>
    var delivered: seq<Draft>
    var ingested: seq<Value>
    var before: seq<Call>                // the calls that arrived before this one, and after it
    var after: seq<Call>
    var schedule: seq<seq<Action>>       // what others do before each await of this call

    constructor (schedule: seq<seq<Action>>)
      ensures this.schedule == schedule && forall c :: State(c) == INIT.(calls := [c])
    {
      row, blobs, limbo, delivered, ingested := None, map[], [], [], [];
      before, after := [], [];
      this.schedule := schedule;
    }

    /** The protocol state in which this call is at `c`. */
    ghost function State(c: Call): World
      reads this
    {
      World(row, blobs, limbo, before + [c] + after, delivered, ingested)
    }

    /** Nobody else gets on from here. */
    ghost predicate Quiet()
      reads this
    {
      schedule == []
    }

    ghost function Shared(): (Option<Attempt>, map<Digest, Value>, seq<Write>, seq<Draft>, seq<Value>)
      reads this
    {
      (row, blobs, limbo, delivered, ingested)
    }

    /** One action of another call, or of the store. */
    method OtherStep(a: Action, ghost c: Call)
      modifies this
      ensures schedule == old(schedule)
      ensures Leads(old(State(c)), State(c))
    {
      hide Next, Leads;
      var me := |before|;
      ghost var start := State(c);
      LeadsToItself(start);
      if !Moves(a, me) {
        var w := World(row, blobs, limbo, before + [Over(Crashed)] + after, delivered, ingested);
        var w' := Next(w, a);
        OwnCall(before, Over(Crashed), after, c);
        OthersMove(w, me, c, a);
        row, blobs, limbo, delivered, ingested := w'.row, w'.blobs, w'.limbo, w'.delivered, w'.ingested;
        before, after := w'.calls[..me], w'.calls[me + 1..];
        assert w'.calls[me := c] == before + [c] + after;
        LeadsByOne(start, a);
      }
    }

    /** What the others do while this call waits at `c`. */
    method Interleave(ghost c: Call)
      modifies this
      ensures Leads(old(State(c)), State(c))
      ensures old(Quiet()) ==> Quiet() && Shared() == old(Shared())
    {
      hide Leads;
      LeadsToItself(State(c));
      if schedule == [] { return; }
      var actions := schedule[0];
      schedule := schedule[1..];
      for k := 0 to |actions|
        invariant Leads(old(State(c)), State(c))
      {
        ghost var mid := State(c);
        OtherStep(actions[k], c);
        LeadsOn(old(State(c)), mid, State(c));
      }
    }

    /** An await that may throw without touching the store. */
    method Await(ghost c: Call, calm: bool) returns (ok: bool)
      requires Plainly(c)
      modifies this
      ensures calm ==> ok
      ensures Leads(old(State(c)), State(if ok then c else Over(FailureOutcome(c))))
      ensures old(Quiet()) ==> Quiet() && Shared() == old(Shared())
    {
      Interleave(c);
      ok := *;
      if calm { ok := true; }
      if !ok {
        OwnCall(before, c, after, Over(FailureOutcome(c)));
        LeadsByOne(State(c), Fail(|before|));
        LeadsOn(old(State(c)), State(c), State(Over(FailureOutcome(c))));
      }
    }

    /** The call whose write has just succeeded. */
    ghost function Written(c: Call): Call {
      match c
      case Rejecting(_) => Over(SendFailed)
      case Accepting(d, r) => Ingesting(d.thread, DeliveredBatch(d, r), r, true)
      case Marking(_, _, _, sender) => Showing(sender)
      case _ => c
    }

    /** A store write: it takes effect, or fails towards the caller and stays in limbo. */
    method Store(ghost c: Call, write: Write, calm: bool) returns (ok: bool)
      requires PendingWrite(c) == Some(write) && write.Put?
      modifies this
      ensures calm ==> ok
      ensures ok ==> row.Some? && row.value.status == write.status && row.value.eventId == write.eventId && row.value.messageIds == write.messageIds
      ensures Leads(old(State(c)), State(if ok then Written(c) else Over(FailureOutcome(c))))
      ensures old(Quiet()) ==>
                && Quiet() && blobs == old(blobs) && delivered == old(delivered) && ingested == old(ingested)
                && row == (if ok then ApplyWrite(old(row), write) else old(row))
    {
      hide ReplyBatch, Save;
      Interleave(c);
      ghost var waiting := State(c);
      ok := *;
      if calm { ok := true; }
      if ok {
        row := ApplyWrite(row, write);
        OwnCall(before, c, after, Written(c));
        LeadsByOne(waiting, Advance(|before|));
        LeadsOn(old(State(c)), waiting, State(Written(c)));
      } else {
        limbo := limbo + [write];
        OwnCall(before, c, after, Over(FailureOutcome(c)));
        LeadsByOne(waiting, Fail(|before|));
        LeadsOn(old(State(c)), waiting, State(Over(FailureOutcome(c))));
      }
    }

    /** An await that succeeded: the protocol takes the same step. */
    lemma Advanced(start: World, waiting: World, c: Call, c': Call)
      requires Leads(start, waiting) && waiting.calls == before + [c] + after
      requires AdvanceCall(waiting, |before|) == State(c')
      ensures Leads(start, State(c'))
    {
      OwnCall(before, c, after, c');
      LeadsByOne(waiting, Advance(|before|));
      LeadsOn(start, waiting, State(c'));
    }

    method Ingest(thread: string, batch: Value, receipt: Receipt, ghost sender: bool, calm: bool)
      returns (ok: bool, eventId: string)
      modifies this
      ensures calm ==> ok
      ensures Leads(old(State(Ingesting(thread, batch, receipt, sender))),
                    State(if ok then Aliasing(thread, receipt, eventId, sender) else Over(if sender then RecoveryPending else SendFailed)))
      ensures ok ==> batch in ingested
      ensures old(Quiet()) ==>
                && Quiet() && row == old(row) && delivered == old(delivered) && blobs == old(blobs)
                && ingested == if ok then old(ingested) + [batch] else old(ingested)
    {
      ghost var c := Ingesting(thread, batch, receipt, sender);
      eventId := *;
      ok := Await(c, calm);
      if ok {
        ghost var waiting := State(c);
        OwnCall(before, c, after, Aliasing(thread, receipt, eventId, sender));
        LeadsByOne(waiting, ReplyProtocol.Ingest(|before|, eventId));
        ingested := ingested + [batch];
        LeadsOn(old(State(c)), waiting, State(Aliasing(thread, receipt, eventId, sender)));
      }
    }

    /** Ingest the batch, bind aliases, mark the attempt sent, read the item back. */
    method StoreDeliveredReply(thread: string, batch: Value, receipt: Receipt, sender: bool, calm: bool)
      returns (outcome: Outcome)
      modifies this
      ensures Leads(old(State(Ingesting(thread, batch, receipt, sender))), State(Over(outcome)))
      ensures outcome == Replied || outcome == if sender then RecoveryPending else SendFailed
      ensures calm ==> outcome == Replied
      ensures old(Quiet()) ==>
                && Quiet() && delivered == old(delivered)
                && (outcome == Replied ==>
                      ingested == old(ingested) + [batch] && row.Some? && row.value.status == Sent && row.value.eventId.Some?)
    {
      hide Leads, Run, ReplyBatch, Save, ApplyWrite, LookUp, Claimable;
      ghost var start := State(Ingesting(thread, batch, receipt, sender));
      outcome := if sender then RecoveryPending else SendFailed;

      var ok, eventId := Ingest(thread, batch, receipt, sender, calm);
      if !ok { return; }
      ghost var aliasing := Aliasing(thread, receipt, eventId, sender);
      ghost var s1 := State(aliasing);

      ok := Await(aliasing, calm);
      LeadsOn(start, s1, State(if ok then aliasing else Over(outcome)));
      if !ok { return; }
      ghost var marking := Marking(thread, receipt, eventId, sender);
      OwnCall(before, aliasing, after, marking);
      Advanced(start, State(aliasing), aliasing, marking);

      ghost var s2 := State(marking);
      outcome := MarkSent(thread, receipt, eventId, sender, calm);
      LeadsOn(start, s2, State(Over(outcome)));
    }

    /** Mark the attempt sent under its event, and read the item back. */
    method MarkSent(thread: string, receipt: Receipt, eventId: string, sender: bool, calm: bool) returns (outcome: Outcome)
      modifies this
      ensures Leads(old(State(Marking(thread, receipt, eventId, sender))), State(Over(outcome)))
      ensures outcome == Replied || outcome == if sender then RecoveryPending else SendFailed
      ensures calm ==> outcome == Replied
      ensures old(Quiet()) ==>
                && Quiet() && delivered == old(delivered) && ingested == old(ingested)
                && (outcome == Replied ==> row.Some? && row.value.status == Sent && row.value.eventId == Some(eventId))
    {
      hide Leads, Run, ReplyBatch, Save, LookUp, Claimable;
      ghost var marking := Marking(thread, receipt, eventId, sender);
      ghost var start := State(marking);
      outcome := if sender then RecoveryPending else SendFailed;
      var ok := Store(marking, Put(thread, Sent, Some(eventId), Some(receipt.messageIds), None, None), calm);
      if !ok { return; }

      ghost var s1 := State(Showing(sender));
      ok := Await(Showing(sender), calm);
      LeadsOn(start, s1, State(if ok then Showing(sender) else Over(outcome)));
      if !ok { return; }
      outcome := Replied;
      OwnCall(before, Showing(sender), after, Over(Replied));
      Advanced(start, State(Showing(sender)), Showing(sender), Over(Replied));
    }

    /**
     What an earlier attempt decides: its outcome, or `None` when a send may go ahead. The call is
     at its first look, or at the second one after a refused claim.
     */
    method ReplayPriorAttempt(thread: string, again: bool, calm: bool) returns (prior: Option<Outcome>)
      modifies this
      ensures Leads(old(State(Look(thread, again))), State(if prior.Some? then Over(prior.value) else Absent(thread, again)))
      ensures prior.None? ==>
                row.None? || (row.value.status == Rejected && !row.value.HasEvidence() && (thread == "" || thread == row.value.thread))
      ensures old(Quiet()) ==> Quiet() && delivered == old(delivered) && (prior.None? ==> Shared() == old(Shared()))
      ensures old(Quiet()) && old(Claimable(row, thread)) && calm ==> prior.None?
      ensures old(Quiet()) && calm && old(Foreign(row, thread)) ==> prior == Some(InvalidReply) && Shared() == old(Shared())
      ensures old(Quiet()) && calm && old(Undecided(row, thread)) ==> prior == Some(SendUncertain) && Shared() == old(Shared())
      ensures old(Quiet()) && calm && old(Conflicting(row, thread)) ==> prior == Some(RecoveryUnavailable) && Shared() == old(Shared())
      ensures old(Quiet()) && calm && old(Finished(row, thread)) ==> prior == Some(Replied) && Shared() == old(Shared())
      ensures old(Quiet()) && old(Recoverable(thread)) && calm ==>
                && prior == Some(Replied) && row.Some? && row.value.status == Sent
                && ingested == old(ingested) + [DeliveredBatch(old(delivered[0]), old(row.value.receipt.value))]
    {
      hide Leads, Run, ReplyBatch, Save;
      ghost var look, absent := Look(thread, again), Absent(thread, again);
      ghost var start := State(look);
      var ok := Await(look, calm);
      if !ok { return Some(SendFailed); }
      ghost var seen := LookUp(row, thread, absent);
      OwnCall(before, look, after, seen);
      Advanced(start, State(look), look, seen);

      if row.None? { return None; }
      var attempt := row.value;
      if thread != "" && attempt.thread != thread { return Some(InvalidReply); }
      if attempt.status == Rejected {
        if attempt.HasEvidence() { return Some(RecoveryUnavailable); }
        return None;
      }
      if attempt.status == Failed || attempt.status == Pending { return Some(SendUncertain); }
      ghost var s1 := State(seen);
      if attempt.status == Accepted {
        if attempt.recovery.None? || attempt.receipt.None? || !attempt.receipt.value.accepted {
          return Some(RecoveryUnavailable);
        }
        var outcome := RecoverAccepted(attempt, calm);
        LeadsOn(start, s1, State(Over(outcome)));
        return Some(outcome);
      }
      if attempt.eventId.None? { return Some(RecoveryUnavailable); }
      ok := Await(seen, calm);
      LeadsOn(start, s1, State(if ok then seen else Over(SendFailed)));
      if !ok { return Some(SendFailed); }
      OwnCall(before, seen, after, Over(Replied));
      Advanced(start, State(seen), seen, Over(Replied));
      return Some(Replied);
    }

    ghost function Look(thread: string, again: bool): Call {
      if again then LookingAgain(thread) else Looking(thread)
    }

    ghost function Absent(thread: string, again: bool): Call {
      if again then Over(SendInProgress) else Preparing(thread)
    }

    /** An accepted attempt of this thread whose invariant holds: the retry must finish it. */
    ghost predicate Recoverable(thread: string)
      reads this
    {
      && Inv(World(row, blobs, [], [], delivered, ingested))
      && row.Some? && row.value.status == Accepted && (thread == "" || thread == row.value.thread)
    }

    /** Load the saved payload of an accepted attempt and store it. */
    method RecoverAccepted(attempt: Attempt, calm: bool) returns (outcome: Outcome)
      requires attempt.recovery.Some? && attempt.receipt.Some?
      modifies this
      ensures Leads(old(State(Loading(attempt.thread, attempt.recovery.value, attempt.receipt.value))), State(Over(outcome)))
      ensures old(Quiet()) ==> Quiet() && delivered == old(delivered)
      ensures old(Quiet()) && old(row) == Some(attempt) && old(Recoverable(attempt.thread)) && calm ==>
                && outcome == Replied && row.Some? && row.value.status == Sent
                && ingested == old(ingested) + [DeliveredBatch(old(delivered[0]), attempt.receipt.value)]
    {
      hide Leads, Run, ReplyBatch, Save;
      var hash, receipt := attempt.recovery.value, attempt.receipt.value;
      ghost var loading := Loading(attempt.thread, hash, receipt);
      ghost var start := State(loading);
      if row == Some(attempt) && Recoverable(attempt.thread) {
        ReplyBatchRoundTrip(delivered[0], OutboundId(delivered[0], receipt));
      }
      var ok := Await(loading, calm);
      if !ok { return SendFailed; }
      if hash !in blobs || Digest(blobs[hash]) != hash {
        OwnCall(before, loading, after, Over(SendFailed));
        Advanced(start, State(loading), loading, Over(SendFailed));
        return SendFailed;
      }
      var batch := Revive(blobs[hash]);
      ghost var ingesting := Ingesting(attempt.thread, batch, receipt, false);
      OwnCall(before, loading, after, ingesting);
      Advanced(start, State(loading), loading, ingesting);
      ghost var loaded := State(ingesting);
      outcome := StoreDeliveredReply(attempt.thread, batch, receipt, false, calm);
      LeadsOn(start, loaded, State(Over(outcome)));
    }

    /** The atomic claim: taken, refused, or failed towards the caller. */
    method ClaimAttempt(draft: Draft, calm: bool) returns (threw: bool, claimed: bool)
      modifies this
      ensures calm ==> !threw
      ensures !threw && claimed ==>
                row == Some(Attempt(draft.thread, Pending, None, None, Some(Digest(Save(ReplyBatch(draft, ProvisionalId(draft))))), None))
      ensures !threw && !claimed ==> !Claimable(row, draft.thread)
      ensures Leads(old(State(Claiming(draft))),
                    State(if threw then Over(SendFailed) else if claimed then Sending(draft) else LookingAgain(draft.thread)))
      ensures old(Quiet()) ==>
                && Quiet() && delivered == old(delivered) && ingested == old(ingested) && blobs == old(blobs)
                && (!threw ==> claimed == Claimable(old(row), draft.thread))
                && (threw || !claimed ==> row == old(row))
    {
      hide ReplyBatch, Save;
      ghost var c := Claiming(draft);
      var write := Claim(draft.thread, Digest(Save(ReplyBatch(draft, ProvisionalId(draft)))));
      Interleave(c);
      ghost var waiting := State(c);
      threw := *;
      if calm { threw := false; }
      claimed := false;
      if threw {
        OwnCall(before, c, after, Over(SendFailed));
        LeadsByOne(waiting, Fail(|before|));
        limbo := limbo + [write];
        LeadsOn(old(State(c)), waiting, State(Over(SendFailed)));
        return;
      }
      claimed := Claimable(row, draft.thread);
      row := ApplyWrite(row, write);
      ghost var c' := if claimed then Sending(draft) else LookingAgain(draft.thread);
      OwnCall(before, c, after, c');
      Advanced(old(State(c)), waiting, c, c');
    }

    /** The definite rejection is recorded, so that a retry may claim the row again. */
    method RecordRejection(draft: Draft, calm: bool) returns (outcome: Outcome)
      modifies this
      ensures Leads(old(State(Rejecting(draft))), State(Over(outcome)))
      ensures outcome == SendFailed || outcome == RejectionPending
      ensures calm ==> outcome == SendFailed
      ensures outcome == SendFailed ==> row.Some? && row.value.status == Rejected && row.value.eventId.None? && row.value.messageIds.None?
      ensures old(Quiet()) ==> Quiet() && delivered == old(delivered) && (outcome == RejectionPending ==> row == old(row))
    {
      hide Leads, ReplyBatch, Save;
      var hash := Digest(Save(ReplyBatch(draft, ProvisionalId(draft))));
      var ok := Store(Rejecting(draft), Put(draft.thread, Rejected, None, None, Some(hash), None), calm);
      return if ok then SendFailed else RejectionPending;
    }

    /** Delivered: save the payload under the channel's id, record acceptance, store the reply. */
    method RecordDelivery(draft: Draft, receipt: Receipt, calm: bool) returns (outcome: Outcome)
      modifies this
      ensures Leads(old(State(Naming(draft, receipt))), State(Over(outcome)))
      ensures outcome == Replied || outcome == RecoveryPending
      ensures calm ==> outcome == Replied
      ensures old(Quiet()) ==>
                && Quiet() && delivered == old(delivered)
                && (outcome == Replied ==>
                      ingested == old(ingested) + [DeliveredBatch(draft, receipt)] && row.Some? && row.value.status == Sent)
    {
      hide Leads, Run, ReplyBatch, Save;
      ghost var naming, accepting := Naming(draft, receipt), Accepting(draft, receipt);
      ghost var start := State(naming);
      var batch := DeliveredBatch(draft, receipt);
      var ok := Await(naming, calm);
      if !ok { return RecoveryPending; }
      ghost var waiting := State(naming);
      blobs := SaveBlob(blobs, batch);
      OwnCall(before, naming, after, accepting);
      Advanced(start, waiting, naming, accepting);

      ghost var s1 := State(accepting);
      ok := Store(accepting,
                  Put(draft.thread, Accepted, None, Some(receipt.messageIds), Some(Digest(Save(batch))), Some(receipt)), calm);
      ghost var ingesting := Ingesting(draft.thread, batch, receipt, true);
      LeadsOn(start, s1, State(if ok then ingesting else Over(RecoveryPending)));
      if !ok { return RecoveryPending; }

      ghost var s2 := State(ingesting);
      outcome := StoreDeliveredReply(draft.thread, batch, receipt, true, calm);
      LeadsOn(start, s2, State(Over(outcome)));
    }

    /** The send and everything after it. `channel` and `reached` are what the channel does. */
    method SendClaimed(draft: Draft, channel: SendAnswer, reached: bool, calm: bool) returns (outcome: Outcome)
      modifies this
      ensures Leads(old(State(Sending(draft))), State(Over(outcome)))
      ensures channel.Took? && channel.receipt.accepted && calm ==> outcome == Replied
      ensures channel.NotAccepted? && calm ==> outcome == SendFailed && row.Some? && row.value.status == Rejected
      ensures channel.Unknown? || (channel.Took? && !channel.receipt.accepted) ==> outcome == SendUncertain
      ensures old(Quiet()) ==>
                && Quiet() && delivered == old(delivered) + Reaches(draft, channel, reached)
                && (channel.Took? && channel.receipt.accepted && calm ==>
                      row.Some? && row.value.status == Sent && ingested == old(ingested) + [DeliveredBatch(draft, channel.receipt)])
                && (outcome == SendUncertain ==> row == old(row))
    {
      hide Leads, Run, ReplyBatch, Save;
      ghost var start := State(Sending(draft));
      Interleave(Sending(draft));
      ghost var waiting := State(Sending(draft));
      ghost var c :=
        if channel.NotAccepted? then Rejecting(draft)
        else if channel.Took? && channel.receipt.accepted then Naming(draft, channel.receipt)
        else Over(SendUncertain);
      OwnCall(before, Sending(draft), after, c);
      LeadsByOne(waiting, Answer(|before|, channel, reached));
      delivered := delivered + Reaches(draft, channel, reached);
      ghost var answered := State(c);
      assert answered == Next(waiting, Answer(|before|, channel, reached));
      LeadsOn(start, waiting, answered);

      match channel
      case NotAccepted =>
        outcome := RecordRejection(draft, calm);
        LeadsOn(start, answered, State(Over(outcome)));
      case Took(receipt) =>
        if !receipt.accepted { return SendUncertain; }
        outcome := RecordDelivery(draft, receipt, calm);
        LeadsOn(start, answered, State(Over(outcome)));
      case Unknown =>
        outcome := SendUncertain;
    }

    /** Check, compose, save the payload, claim, send. `draft` is absent when a check refuses the input. */
    method SendOnce(thread: string, draft: Option<Draft>, channel: SendAnswer, reached: bool, calm: bool)
      returns (outcome: Outcome)
      requires draft.Some? ==> draft.value.thread == thread && thread != ""
      modifies this
      ensures Leads(old(State(Preparing(thread))), State(Over(outcome)))
      ensures old(Quiet()) && draft.Some? && calm && Claimable(old(row), thread) ==>
                && delivered == old(delivered) + Reaches(draft.value, channel, reached)
                && (channel.Took? && channel.receipt.accepted ==>
                      && outcome == Replied && row.Some? && row.value.status == Sent
                      && ingested == old(ingested) + [DeliveredBatch(draft.value, channel.receipt)])
                && (channel.NotAccepted? ==> outcome == SendFailed && row.Some? && row.value.status == Rejected)
                && (channel.Unknown? ==> outcome == SendUncertain && row.Some? && row.value.status == Pending)
    {
      hide Leads, Run, ReplyBatch, Save;
      ghost var preparing := Preparing(thread);
      ghost var start := State(preparing);
      var ok := Await(preparing, calm && draft.Some?);
      if !ok { return SendFailed; }
      if draft.None? {
        OwnCall(before, preparing, after, Over(SendFailed));
        LeadsByOne(State(preparing), Fail(|before|));
        LeadsOn(start, State(preparing), State(Over(SendFailed)));
        return SendFailed;
      }
      var d := draft.value;
      ghost var waiting := State(preparing);
      blobs := SaveBlob(blobs, ReplyBatch(d, ProvisionalId(d)));
      OwnCall(before, preparing, after, Claiming(d));
      LeadsByOne(waiting, Prepare(|before|, d));
      ghost var s1 := State(Claiming(d));
      LeadsOn(start, waiting, s1);

      var threw, claimed := ClaimAttempt(d, calm);
      ghost var s2 := State(if threw then Over(SendFailed) else if claimed then Sending(d) else LookingAgain(thread));
      LeadsOn(start, s1, s2);
      if threw { return SendFailed; }
      if !claimed {
        var prior := ReplayPriorAttempt(thread, true, calm);
        outcome := if prior.Some? then prior.value else SendInProgress;
        LeadsOn(start, s2, State(Over(outcome)));
        return;
      }
      outcome := SendClaimed(d, channel, reached, calm);
      LeadsOn(start, s2, State(Over(outcome)));
    }

    /**
     One call of the service, whatever throws and whatever other calls do meanwhile: a run of the protocol, so the
     channel never sees a second delivery, and "replied" means that the delivered message is stored and the
     attempt marked sent. Undisturbed, a retry after acceptance finishes without a send; and a first call, or one
     after a rejection, delivers, stores and marks what the channel took.
     */
    method RunIdempotentSend(thread: string, draft: Option<Draft>, channel: SendAnswer, reached: bool, calm: bool)
      returns (outcome: Outcome)
      requires draft.Some? ==> draft.value.thread == thread && thread != ""
      requires Inv(State(Looking(thread)))
      modifies this
      ensures Leads(old(State(Looking(thread))), State(Over(outcome)))
      ensures Inv(State(Over(outcome))) && |delivered| <= 1
      ensures outcome == Replied ==>
                && |delivered| == 1 && row.Some? && row.value.status == Sent && row.value.receipt.Some?
                && DeliveredBatch(delivered[0], row.value.receipt.value) in ingested
      ensures old(Quiet()) && old(Recoverable(thread)) && calm ==>
                && outcome == Replied && row.Some? && row.value.status == Sent && delivered == old(delivered)
                && ingested == old(ingested) + [DeliveredBatch(delivered[0], old(row.value.receipt.value))]
      ensures old(Quiet()) && calm && old(Foreign(row, thread)) ==> outcome == InvalidReply && Shared() == old(Shared())
      ensures old(Quiet()) && calm && old(Undecided(row, thread)) ==> outcome == SendUncertain && Shared() == old(Shared())
      ensures old(Quiet()) && calm && old(Conflicting(row, thread)) ==> outcome == RecoveryUnavailable && Shared() == old(Shared())
      ensures old(Quiet()) && calm && old(Finished(row, thread)) ==> outcome == Replied && Shared() == old(Shared())
      ensures old(Quiet()) && old(Claimable(row, thread)) && draft.Some? && calm && channel.Took? && channel.receipt.accepted ==>
                && outcome == Replied && row.Some? && row.value.status == Sent && delivered == [draft.value]
                && ingested == [DeliveredBatch(draft.value, channel.receipt)]
      ensures old(Quiet()) && old(Claimable(row, thread)) && draft.Some? && calm && channel.NotAccepted? ==>
                outcome == SendFailed && row.Some? && row.value.status == Rejected && delivered == []
    {
      hide Leads, Run, ReplyBatch, Save;
      ghost var start := State(Looking(thread));
      assert Claimable(row, thread) ==> !Settled(start) && ingested == [] by {
        if ingested != [] { assert IsDelivered(start, start.ingested[0]); }
      }
      var prior := ReplayPriorAttempt(thread, false, calm);
      ghost var looked := State(if prior.Some? then Over(prior.value) else Preparing(thread));
      if prior.Some? {
        outcome := prior.value;
      } else {
        outcome := SendOnce(thread, draft, channel, reached, calm);
        LeadsOn(start, looked, State(Over(outcome)));
      }
      LeadsKeepsInv(start, State(Over(outcome)));
      OwnCall(before, Over(outcome), after, Over(outcome));
      EndsWell(State(Over(outcome)), |before|);
    }
  }

  /** In order, a call that ended with "replied" has its message stored. */
  lemma EndsWell(w: World, i: nat)
    requires Inv(w) && i < |w.calls| && w.calls[i].Over?
    ensures |w.delivered| <= 1
    ensures w.calls[i] == Over(Replied) ==>
              && |w.delivered| == 1 && w.row.Some? && w.row.value.status == Sent && w.row.value.receipt.Some?
              && DeliveredBatch(w.delivered[0], w.row.value.receipt.value) in w.ingested
  {
    hide ReplyBatch, Save;
    assert CallOk(w, w.calls[i]);
    if w.calls[i] == Over(Replied) { assert IsDelivered(w, w.ingested[0]); }
  }

  /** What a send adds to the deliveries: an accepted receipt always, any other answer if it got through. */
  function Reaches(draft: Draft, channel: SendAnswer, reached: bool): seq<Draft> {
    match channel
    case NotAccepted => []
    case Took(receipt) => if receipt.accepted || reached then [draft] else []
    case Unknown => if reached then [draft] else []
  }
}
