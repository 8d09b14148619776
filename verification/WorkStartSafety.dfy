/** A work item is never started again while an earlier run may have reached its executor and is unsettled. */
module WorkStartSafety {
  import opened Wrappers
  import opened WorkStart

  /** Reached by the channel, and nobody has said how it ended. */
  predicate Unsettled(w: World, r: nat) {
    r in w.reached && r !in w.closed
  }

  /** A row that still looks as if nothing was sent. */
  predicate Untouched(run: Row) {
    run.start.Pending? && !run.external
  }

  predicate Ended(stage: Stage) {
    stage.MarkingItem? || stage.Gone?
  }

  /** Nothing more will come of this run. */
  predicate Inert(w: World, r: nat)
    requires Known(w, r)
  {
    r in w.closed || (r !in w.reached && Ended(w.stages[r]))
  }

  predicate StageOk(w: World, r: nat)
    requires Known(w, r)
  {
    match w.stages[r]
    case Executing => Untouched(w.runs[r]) ==> r !in w.reached
    case Calling(_) => Untouched(w.runs[r]) ==> r !in w.reached
    case Threw(true) => Untouched(w.runs[r]) ==> r !in w.reached
    case Examined(true, saved, _) => Untouched(saved) ==> r !in w.reached
    case Recording(_, saved) => Active(saved)
    case ReadBack(_, saved) => Active(saved)
    case _ => true
  }

  /** Only a run that nothing reached can end without anybody closing it. */
  predicate RowOk(w: World, r: nat)
    requires Known(w, r)
  {
    && (!w.runs[r].start.Unset? ==> Active(w.runs[r]))
    && (Active(w.runs[r]) || Inert(w, r))
  }

  predicate Inv(w: World) {
    && |w.runs| == |w.stages|
    && (forall r :: r in w.reached ==> r < |w.runs|) && (forall r :: r in w.closed ==> r < |w.runs|)
    && (forall r :: 0 <= r < |w.runs| ==> StageOk(w, r) && RowOk(w, r))
    && (forall r, q :: 0 <= r < q < |w.runs| ==> Inert(w, r) || Inert(w, q))
  }

  /** A step that touches one run: in order there, and nobody else's. */
  predicate OneRun(w: World, w': World, r: nat)
    requires Known(w, r)
  {
    && |w'.runs| == |w.runs| && |w'.stages| == |w.stages|
    && w'.runs == w.runs[r := w'.runs[r]] && w'.stages == w.stages[r := w'.stages[r]]
    && w.reached <= w'.reached <= w.reached + {r} && w.closed <= w'.closed <= w.closed + {r}
  }

  lemma OneRunOk(w: World, w': World, r: nat)
    requires Inv(w) && Known(w, r) && OneRun(w, w', r)
    requires StageOk(w', r) && RowOk(w', r) && (Inert(w, r) ==> Inert(w', r))
    ensures Inv(w')
  {
    hide Active, Untouched, Ended;
    forall q | 0 <= q < |w.runs| && q != r
      ensures StageOk(w', q) && RowOk(w', q) && (Inert(w, q) <==> Inert(w', q))
    {
      assert StageOk(w, q) && RowOk(w, q);
    }
  }

  lemma DispatchOk(w: World, r: nat, a: Action)
    requires Inv(w) && Known(w, r)
    ensures var w' := Dispatch(w, r, a);
            OneRun(w, w', r) && StageOk(w', r) && RowOk(w', r) && (Inert(w, r) ==> Inert(w', r))
  {
    assert StageOk(w, r) && RowOk(w, r);
  }

  lemma WrittenOk(w: World, r: nat, end: RunStatus, external: bool)
    requires Inv(w) && Known(w, r)
    ensures Inv(ApplyHandle(w, r, end, external))
    ensures Inv(SetRun(w, r, Row(Cancelled, Unset, external)).(closed := w.closed + {r}))
  {
    assert StageOk(w, r) && RowOk(w, r);
    OneRunOk(w, ApplyHandle(w, r, end, external), r);
    OneRunOk(w, SetRun(w, r, Row(Cancelled, Unset, external)).(closed := w.closed + {r}), r);
  }

  lemma AppendOk(w: World, run: Row, stage: Stage)
    requires Inv(w)
    requires (run == Row(Running, Pending, false) && stage.Executing? && !HasActive(w.runs))
             || (run == Row(Failed, Unset, false) && stage.Gone?)
    ensures Inv(w.(runs := w.runs + [run], stages := w.stages + [stage]))
  {
    var w', n := w.(runs := w.runs + [run], stages := w.stages + [stage]), |w.runs|;
    forall q | 0 <= q < n
      ensures StageOk(w', q) && RowOk(w', q) && (Inert(w, q) <==> Inert(w', q))
      ensures Inert(w', q) || Inert(w', n)
    {
      assert StageOk(w, q) && RowOk(w, q);
    }
    assert StageOk(w', n) && RowOk(w', n);
  }

  lemma InvNext(w: World, a: Action)
    requires Inv(w)
    ensures Inv(Next(w, a))
  {
    hide StageOk, RowOk, Inert, Dispatch, ApplyHandle, HasActive;
    match a
    case Claim(full) =>
      if Claimable(w, full) {
        AppendOk(w, Row(Running, Pending, false), Executing);
        InvItem(w.(runs := w.runs + [Row(Running, Pending, false)], stages := w.stages + [Executing]), ItemRunning);
      }
    case NoteFailed => AppendOk(w, Row(Failed, Unset, false), Gone);
    case SetItem(status) => InvItem(w, status);
    case Dismiss(r, external) => if r < |w.runs| { WrittenOk(w, r, Cancelled, external); }
    case Watch(r) => InvWatch(w, r);
    case Supervise(r, end, external) => if r < |w.runs| && r in w.watched { WrittenOk(w, r, end, external); }
    case _ =>
      var r := Actor(a).value;
      if Known(w, r) {
        DispatchOk(w, r, a);
        OneRunOk(w, Dispatch(w, r, a), r);
      }
  }

  lemma InvWatch(w: World, r: nat)
    requires Inv(w)
    ensures Inv(Next(w, Watch(r)))
  {
    var w' := Next(w, Watch(r));
    forall q | 0 <= q < |w.runs| ensures StageOk(w', q) && RowOk(w', q) && (Inert(w, q) <==> Inert(w', q)) {
      assert StageOk(w, q) && RowOk(w, q);
    }
  }

  lemma InvItem(w: World, status: ItemStatus)
    requires Inv(w)
    ensures Inv(w.(item := status))
  {
    var w' := w.(item := status);
    forall q | 0 <= q < |w.runs| ensures StageOk(w', q) && RowOk(w', q) && (Inert(w, q) <==> Inert(w', q)) {
      assert StageOk(w, q) && RowOk(w, q);
    }
  }

  lemma {:induction false} InvRun(w: World, actions: seq<Action>)
    requires Inv(w)
    ensures Inv(Run(w, actions))
    decreases |actions|
  {
    hide Inv, Next;
    if actions != [] {
      InvNext(w, actions[0]);
      InvRun(Next(w, actions[0]), actions[1..]);
    }
  }

  // ----- the results

  /** In every reachable state at most one run has reached its executor without having been settled. */
  lemma AtMostOneUnsettled(actions: seq<Action>, r: nat, q: nat)
    requires Unsettled(Run(INIT, actions), r) && Unsettled(Run(INIT, actions), q)
    ensures r == q
  {
    var w := Run(INIT, actions);
    InvRun(INIT, actions);
    assert !Inert(w, r) && !Inert(w, q);
  }

  /** A claim succeeds only when every run that was reached is settled. */
  lemma ClaimFindsAllSettled(actions: seq<Action>, full: bool, r: nat)
    requires Claimable(Run(INIT, actions), full)
    ensures !Unsettled(Run(INIT, actions), r)
  {
    var w := Run(INIT, actions);
    InvRun(INIT, actions);
    if r < |w.runs| {
      assert RowOk(w, r) && !Active(w.runs[r]);
    }
  }

  function Claims(w: World, actions: seq<Action>): nat
    decreases |actions|
  {
    if actions == [] then 0
    else (if actions[0].Claim? && Claimable(w, actions[0].full) then 1 else 0) + Claims(Next(w, actions[0]), actions[1..])
  }

  lemma {:induction false} SettledGrows(w: World, actions: seq<Action>)
    ensures w.closed <= Run(w, actions).closed && w.reached <= Run(w, actions).reached
    decreases |actions|
  {
    if actions != [] {
      SettledGrowsStep(w, actions[0]);
      SettledGrows(Next(w, actions[0]), actions[1..]);
    }
  }

  lemma SettledGrowsStep(w: World, a: Action)
    ensures w.closed <= Next(w, a).closed && w.reached <= Next(w, a).reached
  {
  }

  /** Until somebody settles it, a run that may have reached its executor blocks every further start, crashes included. */
  lemma {:induction false} UnsettledBlocksStarts(w: World, r: nat, actions: seq<Action>)
    requires Inv(w) && Unsettled(w, r) && r !in Run(w, actions).closed
    ensures Claims(w, actions) == 0
    decreases |actions|
  {
    hide Inv, Next, Claimable;
    if actions != [] {
      SettledGrowsStep(w, actions[0]);
      SettledGrows(Next(w, actions[0]), actions[1..]);
      InvNext(w, actions[0]);
      UnsettledBlocksStarts(Next(w, actions[0]), r, actions[1..]);
      if actions[0].Claim? && Claimable(w, actions[0].full) {
        ClaimableParts(w, actions[0].full);
        UnsettledIsActive(w, r);
        assert false;
      }
    }
  }

  lemma ClaimableParts(w: World, full: bool)
    requires Claimable(w, full)
    ensures !HasActive(w.runs)
  {
  }

  lemma UnsettledIsActive(w: World, r: nat)
    requires Inv(w) && Unsettled(w, r)
    ensures r < |w.runs| && HasActive(w.runs)
  {
    assert RowOk(w, r);
  }

  /** A run marked failed by its own dispatcher, and so retried, was never reached and never will be. */
  lemma {:induction false} FailedWasNeverReached(w: World, r: nat, actions: seq<Action>)
    requires Inv(w) && r < |w.runs| && w.runs[r].status.Failed? && r !in w.closed
    ensures r !in Run(w, actions).reached
  {
    assert RowOk(w, r);
    EndedStaysUnreached(w, r, actions);
  }

  lemma {:induction false} EndedStaysUnreached(w: World, r: nat, actions: seq<Action>)
    requires Known(w, r) && Ended(w.stages[r]) && r !in w.reached
    ensures r !in Run(w, actions).reached
    decreases |actions|
  {
    if actions != [] {
      EndedStep(w, r, actions[0]);
      EndedStaysUnreached(Next(w, actions[0]), r, actions[1..]);
    }
  }

  lemma EndedStep(w: World, r: nat, a: Action)
    requires Known(w, r) && Ended(w.stages[r]) && r !in w.reached
    ensures var w' := Next(w, a); Known(w', r) && Ended(w'.stages[r]) && r !in w'.reached
  {
    hide Dispatch;
    if Actor(a).Some? && Known(w, Actor(a).value) { EndedDispatch(w, r, Actor(a).value, a); }
  }

  lemma EndedDispatch(w: World, r: nat, q: nat, a: Action)
    requires Known(w, r) && Known(w, q) && Ended(w.stages[r]) && r !in w.reached
    ensures var w' := Dispatch(w, q, a); Known(w', r) && Ended(w'.stages[r]) && r !in w'.reached
  {
    hide Current, Untouched;
  }

  /** The catch block tells the two apart: a dispatcher's throw makes the run retryable exactly after a local refusal of an untouched run. */
  lemma RetryableExactlyIfUntouched(w: World, r: nat, definite: bool)
    requires Inv(w) && Known(w, r) && w.stages[r] == Threw(definite) && Active(w.runs[r]) && !w.item.Skipped?
    ensures var w' := Next(Next(w, Examine(r)), Settle(r));
            && (w'.runs[r].status.Failed? <==> definite && Untouched(w.runs[r]))
            && (!w'.runs[r].status.Failed? ==> Active(w'.runs[r]))
  {
    hide Inv;
  }

  // ----- who releases a start that needs confirmation

  /** What was read before a wait no longer looks like a start that needs confirmation. */
  predicate SnapshotConfirmed(stage: Stage) {
    match stage
    case Recording(_, saved) => !NeedsConfirmation(saved)
    case Examined(_, saved, _) => !NeedsConfirmation(saved)
    case _ => true
  }

  /** A watched run, and one that looks watchable, never needs confirmation again. */
  predicate ConfirmOk(w: World, r: nat)
    requires Known(w, r)
  {
    && (r in w.watched ==> !NeedsConfirmation(w.runs[r]))
    && (r in w.watched || (Active(w.runs[r]) && !NeedsConfirmation(w.runs[r])) ==> SnapshotConfirmed(w.stages[r]))
    && (w.runs[r].start.Uncertain? ==> Ended(w.stages[r]))
    && (w.stages[r].Recording? ==> !w.stages[r].saved.start.Uncertain?)
  }

  predicate Confirming(w: World) {
    && |w.runs| == |w.stages| && (forall r :: r in w.watched ==> r < |w.runs|)
    && (forall r :: 0 <= r < |w.runs| ==> ConfirmOk(w, r))
  }

  lemma DispatchConfirms(w: World, r: nat, a: Action)
    requires Known(w, r) && ConfirmOk(w, r)
    ensures ConfirmOk(Dispatch(w, r, a), r) && Dispatch(w, r, a).watched == w.watched
  {
    hide Current;
  }

  lemma WrittenConfirms(w: World, r: nat, end: RunStatus, external: bool)
    requires Known(w, r) && ConfirmOk(w, r)
    ensures r in w.watched ==> ConfirmOk(ApplyHandle(w, r, end, external), r)
    ensures ConfirmOk(SetRun(w, r, Row(Cancelled, Unset, external)).(closed := w.closed + {r}), r)
  {
  }

  /** One run changes by itself, or new ones are added behind. */
  predicate OthersSame(w: World, w': World, r: nat) {
    && |w'.runs| == |w'.stages| && |w.runs| == |w.stages| <= |w'.runs|
    && forall q :: 0 <= q < |w.runs| && q != r ==>
         w'.runs[q] == w.runs[q] && w'.stages[q] == w.stages[q] && (q in w'.watched <==> q in w.watched)
  }

  lemma ConfirmingOne(w: World, w': World, r: nat)
    requires Confirming(w) && OthersSame(w, w', r) && (forall q :: q in w'.watched ==> q < |w'.runs|)
    requires r < |w'.runs| && ConfirmOk(w', r) && |w'.runs| <= if r < |w.runs| then |w.runs| else |w.runs| + 1
    requires r <= |w.runs|
    ensures Confirming(w')
  {
    hide NeedsConfirmation, SnapshotConfirmed, Ended, Active;
    forall q | 0 <= q < |w'.runs| && q != r ensures ConfirmOk(w', q) {
      assert ConfirmOk(w, q);
    }
  }

  lemma ConfirmingNext(w: World, a: Action)
    requires Confirming(w)
    ensures Confirming(Next(w, a))
  {
    hide Dispatch, Confirming, HasActive, ApplyHandle, Active;
    match a
    case Claim(full) => ConfirmingAppend(w, a);
    case NoteFailed => ConfirmingAppend(w, a);
    case SetItem(status) => ConfirmingItem(w, status);
    case Watch(r) => ConfirmingWatch(w, r);
    case Dismiss(r, external) => if r < |w.runs| { ConfirmingWritten(w, r, Cancelled, external); }
    case Supervise(r, end, external) => if r < |w.runs| && r in w.watched { ConfirmingWritten(w, r, end, external); }
    case _ => if Known(w, Actor(a).value) { ConfirmingDispatch(w, Actor(a).value, a); }
  }

  lemma ConfirmingWritten(w: World, r: nat, end: RunStatus, external: bool)
    requires Confirming(w) && r < |w.runs|
    ensures r in w.watched ==> Confirming(ApplyHandle(w, r, end, external))
    ensures Confirming(SetRun(w, r, Row(Cancelled, Unset, external)).(closed := w.closed + {r}))
  {
    hide ConfirmOk, ApplyHandle;
    WrittenConfirms(w, r, end, external);
    AppliedFrame(w, r, end, external);
    ConfirmingOne(w, SetRun(w, r, Row(Cancelled, Unset, external)).(closed := w.closed + {r}), r);
    if r in w.watched { ConfirmingOne(w, ApplyHandle(w, r, end, external), r); }
  }

  lemma ConfirmingDispatch(w: World, r: nat, a: Action)
    requires Confirming(w) && Known(w, r)
    ensures Confirming(Dispatch(w, r, a))
  {
    hide ConfirmOk, Dispatch;
    DispatchConfirms(w, r, a);
    DispatchFrame(w, r, a);
    ConfirmingOne(w, Dispatch(w, r, a), r);
  }

  lemma ConfirmingAppend(w: World, a: Action)
    requires Confirming(w) && (a.Claim? || a.NoteFailed?)
    ensures Confirming(Next(w, a))
  {
    hide HasActive;
    if Next(w, a) != w {
      assert |w.runs| !in w.watched;
      ConfirmingOne(w, Next(w, a), |w.runs|);
    }
  }

  lemma ConfirmingItem(w: World, status: ItemStatus)
    requires Confirming(w)
    ensures Confirming(w.(item := status))
  {
    forall q | 0 <= q < |w.runs| ensures ConfirmOk(w.(item := status), q) {
      assert ConfirmOk(w, q);
    }
  }

  lemma ConfirmingWatch(w: World, r: nat)
    requires Confirming(w)
    ensures Confirming(Next(w, Watch(r)))
  {
    if r < |w.runs| {
      assert ConfirmOk(w, r);
      ConfirmingOne(w, Next(w, Watch(r)), r);
    }
  }

  lemma AppliedFrame(w: World, r: nat, end: RunStatus, external: bool)
    requires |w.runs| == |w.stages| && r < |w.runs|
    ensures OthersSame(w, ApplyHandle(w, r, end, external), r) && ApplyHandle(w, r, end, external).watched == w.watched
    ensures |ApplyHandle(w, r, end, external).runs| == |w.runs|
  {
  }

  lemma DispatchFrame(w: World, r: nat, a: Action)
    requires Known(w, r)
    ensures var w' := Dispatch(w, r, a);
            && |w'.runs| == |w'.stages| == |w.runs|
            && forall q :: 0 <= q < |w.runs| && q != r ==> w'.runs[q] == w.runs[q] && w'.stages[q] == w.stages[q]
  {
    hide Current;
  }

  lemma {:induction false} ConfirmingRun(w: World, actions: seq<Action>)
    requires Confirming(w)
    ensures Confirming(Run(w, actions))
    decreases |actions|
  {
    hide Confirming, Next;
    if actions != [] {
      ConfirmingNext(w, actions[0]);
      ConfirmingRun(Next(w, actions[0]), actions[1..]);
    }
  }

  /** A start that needs confirmation, whose dispatcher is done or dead. */
  predicate Unconfirmed(w: World, r: nat) {
    Known(w, r) && NeedsConfirmation(w.runs[r]) && Ended(w.stages[r]) && r !in w.closed
  }

  lemma UnconfirmedStep(w: World, r: nat, a: Action)
    requires Confirming(w) && Unconfirmed(w, r) && !(a.Dismiss? && a.r == r)
    requires w.stages[r].Gone?
    ensures Unconfirmed(Next(w, a), r) && Next(w, a).stages[r].Gone? && Next(w, a).runs[r] == w.runs[r]
  {
    hide Dispatch;
    assert ConfirmOk(w, r);
    if Actor(a).Some? && Known(w, Actor(a).value) {
      DispatchFrame(w, Actor(a).value, a);
      GoneStays(w, Actor(a).value, a);
      ClosedFrame(w, Actor(a).value, a);
    }
  }

  lemma GoneStays(w: World, r: nat, a: Action)
    requires Known(w, r)
    ensures w.stages[r].Gone? ==> Dispatch(w, r, a) == w
  {
    hide Current;
    if w.stages[r].Gone? { assert w.stages[r := Gone] == w.stages; }
  }

  lemma ClosedFrame(w: World, r: nat, a: Action)
    requires Known(w, r)
    ensures Dispatch(w, r, a).closed <= w.closed + {r}
  {
    hide Current;
  }

  /** An uncertain start, and a pending one whose process died, stays as it is until a person dismisses it. */
  lemma {:induction false} OnlyAPersonReleases(w: World, r: nat, actions: seq<Action>)
    requires Confirming(w) && Unconfirmed(w, r) && w.stages[r].Gone?
    requires forall i :: 0 <= i < |actions| ==> !(actions[i].Dismiss? && actions[i].r == r)
    ensures r < |Run(w, actions).runs| && Run(w, actions).runs[r] == w.runs[r] && r !in Run(w, actions).closed
    decreases |actions|
  {
    hide Confirming, Next;
    if actions != [] {
      UnconfirmedStep(w, r, actions[0]);
      ConfirmingNext(w, actions[0]);
      OnlyAPersonReleases(Next(w, actions[0]), r, actions[1..]);
    }
  }

  /** So it blocks every further start until then. */
  lemma {:induction false} UnconfirmedBlocksStarts(w: World, r: nat, actions: seq<Action>)
    requires Inv(w) && Confirming(w) && Unconfirmed(w, r) && w.stages[r].Gone?
    requires forall i :: 0 <= i < |actions| ==> !(actions[i].Dismiss? && actions[i].r == r)
    ensures Claims(w, actions) == 0
    decreases |actions|
  {
    hide Inv, Confirming, Next, Claimable;
    if actions != [] {
      UnconfirmedStep(w, r, actions[0]);
      ConfirmingNext(w, actions[0]);
      InvNext(w, actions[0]);
      UnconfirmedBlocksStarts(Next(w, actions[0]), r, actions[1..]);
      if actions[0].Claim? && Claimable(w, actions[0].full) {
        ClaimableParts(w, actions[0].full);
        UnconfirmedIsActive(w, r);
        assert false;
      }
    }
  }

  lemma UnconfirmedIsActive(w: World, r: nat)
    requires Inv(w) && Unconfirmed(w, r)
    ensures HasActive(w.runs)
  {
    assert RowOk(w, r);
  }

  // ----- a start that threw and may have reached the executor

  /** A throw that settles undisturbed: failed and retryable, left for a person, or already on record. */
  lemma ThrowSettles(w: World, r: nat, definite: bool)
    requires Inv(w) && Known(w, r) && w.stages[r] == Threw(definite)
    ensures var run := w.runs[r];
            var w' := Next(Next(Next(w, Examine(r)), Settle(r)), MarkItem(r));
            && w'.stages == w.stages[r := Gone] && w'.runs == w.runs[r := w'.runs[r]]
            && w'.reached == w.reached && w'.closed == w.closed && w'.watched == w.watched
            && (run.start.Pending? && !w.item.Skipped? ==>
                  if definite && !run.external
                  then w'.runs[r].status.Failed? && w'.runs[r].start.Unset? && w'.item.ItemFailed?
                  else && w'.runs[r].status.WaitingHuman? && w'.runs[r].start.Uncertain? && w'.item.ItemWaiting?
                       && w'.runs[r].external == run.external)
            && (!run.start.Pending? || w.item.Skipped? ==> w'.runs[r] == run && w'.item == w.item)
  {
    assert RowOk(w, r);
  }

  predicate Ambiguous(definite: bool, run: Row) {
    run.start.Pending? && !(definite && Untouched(run))
  }

  /** A start that threw, not by a local refusal of an untouched run, and that nobody has closed. */
  predicate LeftOpen(w: World, r: nat) {
    && Known(w, r) && r !in w.closed && NeedsConfirmation(w.runs[r])
    && match w.stages[r]
       case Threw(definite) => Ambiguous(definite, w.runs[r])
       case Examined(definite, saved, _) => Ambiguous(definite, saved)
       case MarkingItem(_) => true
       case Gone => true
       case _ => false
  }

  lemma LeftOpenDispatch(w: World, r: nat, a: Action)
    requires LeftOpen(w, r)
    ensures LeftOpen(Dispatch(w, r, a), r)
  {
    hide Current;
  }

  lemma LeftOpenStep(w: World, r: nat, a: Action)
    requires Confirming(w) && LeftOpen(w, r) && !(a.Dismiss? && a.r == r)
    ensures LeftOpen(Next(w, a), r)
  {
    hide Dispatch, Ambiguous;
    assert ConfirmOk(w, r);
    if Actor(a).Some? && Known(w, Actor(a).value) {
      var q := Actor(a).value;
      DispatchFrame(w, q, a);
      ClosedFrame(w, q, a);
      if q == r { LeftOpenDispatch(w, r, a); }
    }
  }

  lemma {:induction false} LeftOpenRun(w: World, r: nat, actions: seq<Action>)
    requires Inv(w) && Confirming(w) && LeftOpen(w, r)
    requires forall i :: 0 <= i < |actions| ==> !(actions[i].Dismiss? && actions[i].r == r)
    ensures LeftOpen(Run(w, actions), r) && Claims(w, actions) == 0
    decreases |actions|
  {
    hide Inv, Confirming, Next, Claimable, LeftOpen;
    if actions != [] {
      LeftOpenStep(w, r, actions[0]);
      ConfirmingNext(w, actions[0]);
      InvNext(w, actions[0]);
      LeftOpenRun(Next(w, actions[0]), r, actions[1..]);
      if actions[0].Claim? && Claimable(w, actions[0].full) {
        ClaimableParts(w, actions[0].full);
        LeftOpenIsActive(w, r);
        assert false;
      }
    }
  }

  lemma LeftOpenIsActive(w: World, r: nat)
    requires Inv(w) && LeftOpen(w, r)
    ensures HasActive(w.runs)
  {
    assert RowOk(w, r);
  }

  /**
   After an ambiguous throw, whatever the dispatcher, its death, the supervisor and other dispatchers do: until a
   person dismisses the run it stays unconfirmed and unclosed, and no further start of the item is claimed.
   */
  lemma AmbiguousThrowWaitsForAPerson(before: seq<Action>, r: nat, definite: bool, later: seq<Action>)
    requires var w := Run(INIT, before);
             && Known(w, r) && r !in w.closed && w.stages[r] == Threw(definite)
             && w.runs[r].start.Pending? && (definite ==> w.runs[r].external)
    requires forall i :: 0 <= i < |later| ==> !(later[i].Dismiss? && later[i].r == r)
    ensures var w' := Run(Run(INIT, before), later);
            && r < |w'.runs| && r !in w'.closed && (w'.runs[r].start.Pending? || w'.runs[r].start.Uncertain?)
    ensures Claims(Run(INIT, before), later) == 0
  {
    InvRun(INIT, before);
    ConfirmingRun(INIT, before);
    LeftOpenRun(Run(INIT, before), r, later);
  }

  // ----- a start that is on record

  /** The run does not wait for confirmation, and no read in progress says that it does. */
  predicate OnRecord(w: World, r: nat) {
    Known(w, r) && !NeedsConfirmation(w.runs[r]) && SnapshotConfirmed(w.stages[r])
  }

  /** A write that the channel took, recorded undisturbed: the run is submitted, with its session. */
  lemma WriteIsRecorded(w: World, r: nat)
    requires Inv(w) && Known(w, r) && w.stages[r] == Calling(Write) && Current(w, w.runs[r])
    ensures var w' := Next(Next(Next(w, Answer(r, true, None)), Recheck(r, false)), Record(r, true, false));
            && w'.runs == w.runs[r := Row(w.runs[r].status, Submitted, true)] && w'.stages[r].Executing?
            && r in w'.reached && OnRecord(w', r)
  {
    assert RowOk(w, r);
  }

  lemma OnRecordDispatch(w: World, r: nat, a: Action)
    requires OnRecord(w, r)
    ensures OnRecord(Dispatch(w, r, a), r)
  {
    hide Current;
  }

  lemma OnRecordStep(w: World, r: nat, a: Action)
    requires OnRecord(w, r)
    ensures OnRecord(Next(w, a), r)
  {
    hide Dispatch;
    if Actor(a).Some? && Known(w, Actor(a).value) {
      DispatchFrame(w, Actor(a).value, a);
      if Actor(a).value == r { OnRecordDispatch(w, r, a); }
    }
  }

  /** What is on record stays so: later throws, deaths and dismissals never send it back for confirmation, so the supervisor may recover it while it is active. */
  lemma {:induction false} RecordedStaysRecoverable(w: World, r: nat, actions: seq<Action>)
    requires OnRecord(w, r)
    ensures r < |Run(w, actions).runs| && !NeedsConfirmation(Run(w, actions).runs[r])
    ensures Active(Run(w, actions).runs[r]) ==> r in Next(Run(w, actions), Watch(r)).watched
    decreases |actions|
  {
    hide Next, OnRecord;
    if actions == [] {
      WatchesOnRecord(w, r);
    } else {
      OnRecordStep(w, r, actions[0]);
      RecordedStaysRecoverable(Next(w, actions[0]), r, actions[1..]);
    }
  }

  lemma WatchesOnRecord(w: World, r: nat)
    requires OnRecord(w, r)
    ensures r < |w.runs| && !NeedsConfirmation(w.runs[r])
    ensures Active(w.runs[r]) ==> r in Next(w, Watch(r)).watched
  {
  }

  /** A start that returned, applied undisturbed: the run has the handle's status, and is closed exactly if that is an end. */
  lemma ReturnSettles(w: World, r: nat, end: RunStatus)
    requires Inv(w) && Known(w, r) && w.stages[r] == Returned(end) && !w.item.Skipped? && !w.runs[r].start.Unset?
    ensures var w' := Next(Next(Next(w, Read(r)), Acknowledge(r)), Apply(r));
            && w'.runs == w.runs[r := Row(end, Unset, true)] && w'.stages == w.stages[r := Gone] && w'.item == w.item
            && (r in w'.closed <==> r in w.closed || !Active(w'.runs[r]))
  {
    hide StageOk, Inert, Current;
    assert RowOk(w, r);
  }

  /** One that a person dismissed, or whose row is final, is left as it is. */
  lemma LateReturnChangesNothing(w: World, r: nat, end: RunStatus)
    requires Inv(w) && Known(w, r) && w.stages[r] == Returned(end) && w.runs[r].start.Unset?
    ensures Next(w, Read(r)) == w.(stages := w.stages[r := Gone])
  {
  }

  // ----- what begins, and what no longer may

  /** A claim begins a run exactly if the item is open, no run of it is active, and the recipe has room. */
  lemma ClaimsExactly(w: World, full: bool)
    ensures var w' := Next(w, Claim(full));
            var free := w.item.Open? && !full && forall r :: 0 <= r < |w.runs| ==> !Active(w.runs[r]);
            if free
            then && w'.runs == w.runs + [Row(Running, Pending, false)] && w'.stages == w.stages + [Executing] && w'.item.ItemRunning?
                 && w'.reached == w.reached && w'.closed == w.closed && w'.watched == w.watched
            else w' == w
  {
  }

  /** Once the item is skipped or the run is over, its dispatcher reaches the channel no more, and records nothing. */
  lemma AbandonedRunCallsNothing(w: World, r: nat, call: Call, fails: bool)
    requires Known(w, r)
    requires w.item.Skipped? || w.runs[r].status.Completed? || w.runs[r].status.Failed? || w.runs[r].status.Cancelled?
    ensures w.stages[r].Executing? ==> Next(w, BeginCall(r, call)) == w.(stages := w.stages[r := Threw(false)])
    ensures w.stages[r].Called? ==> Next(w, Recheck(r, fails)) == w.(stages := w.stages[r := Threw(false)])
  {
  }

  /** A handle that comes after the item was skipped closes the run as cancelled. */
  lemma SkippedItemCancels(w: World, r: nat, end: RunStatus, external: bool)
    requires r < |w.runs| && w.item.Skipped?
    ensures r in w.watched ==>
              var w' := Next(w, Supervise(r, end, external)); w'.runs[r].status.Cancelled? && r in w'.closed && w'.item == w.item
    ensures Known(w, r) && w.stages[r] == Applying(end) ==>
              var w' := Next(w, Apply(r)); w'.runs[r].status.Cancelled? && r in w'.closed && w'.item == w.item
  {
  }

  /** The supervisor applies the handle of a watched run: its status, no start state, and closed exactly at an end. */
  lemma SupervisorSettles(w: World, r: nat, end: RunStatus, external: bool)
    requires r < |w.runs| && r in w.watched && !w.item.Skipped?
    ensures var w' := Next(w, Supervise(r, end, external));
            && w'.runs == w.runs[r := Row(end, Unset, external)] && w'.stages == w.stages && w'.item == w.item
            && (r in w'.closed <==> r in w.closed || end.Completed? || end.Failed? || end.Cancelled?)
  {
  }

  /** A process that dies takes its dispatcher along wherever it is, and changes nothing else: the rows stay for others to find. */
  lemma DeathLeavesTheRows(w: World, r: nat)
    requires Known(w, r)
    ensures Next(w, Die(r)) == w.(stages := w.stages[r := Gone])
  {
  }
}
