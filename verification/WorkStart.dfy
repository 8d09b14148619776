/**
 Starting a run of one work item: the durable rows of the item and its runs, every dispatcher that is in the
 middle of a start, and what the executor's channel has really accepted. Each await is a step, so dispatchers,
 the supervisor and a person who dismisses the item interleave freely, and a dispatcher can die at any point.
 */
module WorkStart {
  import opened Wrappers

  datatype ItemStatus = Open | ItemRunning | ItemWaiting | ItemFailed | Done | Skipped

  datatype RunStatus = Running | WaitingHuman | Completed | Failed | Cancelled

  datatype StartState = Unset | Pending | Submitted | Uncertain

  /** A durable run row. `external`: an external run or agent thread is recorded. */
  datatype Row = Row(status: RunStatus, start: StartState, external: bool)

  predicate Active(run: Row) {
    run.status.Running? || run.status.WaitingHuman?
  }

  /** A start the supervisor leaves alone. */
  predicate NeedsConfirmation(run: Row) {
    run.start.Pending? || run.start.Uncertain?
  }

  /** A call of the start context: spawn a session, or write to its standard input. */
  datatype Call = Spawn | Write

  datatype Stage =
    | Executing                          // inside executor.start, between two context calls
    | Calling(call: Call)                // the run was current; the channel is next
    | Called(call: Call)                 // the channel accepted; reading the run again is next
    | Recording(call: Call, saved: Row)  // writing what was read, with the session recorded
    | Threw(definite: bool)              // executor.start threw; `definite`: a local refusal
    | Examined(definite: bool, saved: Row, item: ItemStatus)
    | MarkingItem(status: ItemStatus)
    | Returned(end: RunStatus)           // executor.start returned a handle
    | ReadBack(end: RunStatus, saved: Row)
    | Applying(end: RunStatus)
    | Gone                               // finished, or the process died

  /** Dispatcher `r` starts run `r`: a claim makes a row and its one dispatcher. */
  datatype World = World(
    item: ItemStatus,
    runs: seq<Row>,
    stages: seq<Stage>,
    reached: set<nat>,     // runs of which the channel may have accepted something
    closed: set<nat>,      // runs whose executor reported an end, or that a person dismissed
    watched: set<nat>)     // runs the supervisor has read as active and not waiting for confirmation

  const INIT := World(Open, [], [], {}, {}, {})

  datatype Action =
    | Claim(full: bool)                                     // `full`: the recipe's cap is reached
    | Die(r: nat)
    | BeginCall(r: nat, call: Call)
    | Answer(r: nat, accepted: bool, error: Option<bool>)   // Some(definite): the call throws
    | Recheck(r: nat, fails: bool)
    | Record(r: nat, applied: bool, fails: bool)
    | Throw(r: nat, definite: bool)
    | Return(r: nat, end: RunStatus)
    | Examine(r: nat)
    | Settle(r: nat)
    | MarkItem(r: nat)
    | Read(r: nat)
    | Acknowledge(r: nat)
    | Apply(r: nat)
    | NoteFailed                                            // a start refused before any claim
    | SetItem(status: ItemStatus)                           // any other write of the item's row
    | Dismiss(r: nat, external: bool)                       // a person's cancel, from a stale read
    | Watch(r: nat)                                         // the supervisor reads the run
    | Supervise(r: nat, end: RunStatus, external: bool)     // and, any time later, applies a handle

  function SetRun(w: World, r: nat, run: Row): World
    requires r < |w.runs|
  {
    w.(runs := w.runs[r := run])
  }

  function SetStage(w: World, r: nat, stage: Stage): World
    requires r < |w.stages|
  {
    w.(stages := w.stages[r := stage])
  }

  predicate HasActive(runs: seq<Row>) {
    exists r :: 0 <= r < |runs| && Active(runs[r])
  }

  /** claimWorkRunStart, one transaction. */
  predicate Claimable(w: World, full: bool) {
    w.item.Open? && !HasActive(w.runs) && !full
  }

  /** The start context's check: the run may still be worked on. */
  predicate Current(w: World, run: Row) {
    !w.item.Skipped? && Active(run)
  }

  /** A handle is applied: the run takes its status and leaves the start states. */
  function ApplyHandle(w: World, r: nat, end: RunStatus, external: bool): World
    requires r < |w.runs|
  {
    if w.item.Skipped? then SetRun(w, r, Row(Cancelled, Unset, external)).(closed := w.closed + {r})
    else
      var w' := SetRun(w, r, Row(end, Unset, external));
      if end.Completed? || end.Failed? || end.Cancelled? then w'.(closed := w.closed + {r}) else w'
  }

  /** What the catch block writes after the executor threw. */
  function SettleFailure(w: World, r: nat, definite: bool, saved: Row, item: ItemStatus): World
    requires r < |w.runs| && r < |w.stages|
  {
    if definite && saved.start.Pending? && !saved.external && !item.Skipped? then
      SetStage(SetRun(w, r, Row(Failed, Unset, false)), r, MarkingItem(ItemFailed))
    else if saved.start.Pending? && !saved.status.Cancelled? && !item.Skipped? then
      SetStage(SetRun(w, r, Row(WaitingHuman, Uncertain, saved.external)), r, MarkingItem(ItemWaiting))
    else SetStage(w, r, Gone)
  }

  predicate Known(w: World, r: nat) {
    r < |w.runs| == |w.stages|
  }

  /** A step of dispatcher `r`. */
  function Dispatch(w: World, r: nat, a: Action): World
    requires Known(w, r)
  {
    match (w.stages[r], a)
    case (_, Die(_)) => SetStage(w, r, Gone)
    case (Executing, BeginCall(_, call)) =>
      SetStage(w, r, if Current(w, w.runs[r]) then Calling(call) else Threw(false))
    case (Executing, Throw(_, definite)) => SetStage(w, r, Threw(definite))
    case (Executing, Return(_, end)) => SetStage(w, r, Returned(end))
    case (Calling(call), Answer(_, accepted, error)) =>
      if !accepted then SetStage(w, r, Threw(error == Some(true)))
      else SetStage(w, r, if error.None? then Called(call) else Threw(false)).(reached := w.reached + {r})
    case (Called(call), Recheck(_, fails)) =>
      SetStage(w, r, if !fails && Current(w, w.runs[r]) then Recording(call, w.runs[r]) else Threw(false))
    case (Recording(call, saved), Record(_, applied, fails)) =>
      var w' := if applied || !fails
                then SetRun(w, r, Row(saved.status, if call.Write? then Submitted else saved.start, true)) else w;
      SetStage(w', r, if fails then Threw(false) else Executing)
    case (Threw(definite), Examine(_)) => SetStage(w, r, Examined(definite, w.runs[r], w.item))
    case (Examined(definite, saved, item), Settle(_)) => SettleFailure(w, r, definite, saved, item)
    case (MarkingItem(status), MarkItem(_)) => SetStage(w.(item := status), r, Gone)
    case (Returned(end), Read(_)) =>
      SetStage(w, r, if w.runs[r].status.Cancelled? || w.runs[r].start.Unset? then Gone else ReadBack(end, w.runs[r]))
    case (ReadBack(end, saved), Acknowledge(_)) =>
      SetStage(SetRun(w, r, Row(saved.status, Submitted, true)), r, Applying(end))
    case (Applying(end), Apply(_)) => SetStage(ApplyHandle(w, r, end, true), r, Gone)
    case _ => w
  }

  function Actor(a: Action): Option<nat> {
    match a
    case Die(r) => Some(r)
    case BeginCall(r, _) => Some(r)
    case Answer(r, _, _) => Some(r)
    case Recheck(r, _) => Some(r)
    case Record(r, _, _) => Some(r)
    case Throw(r, _) => Some(r)
    case Return(r, _) => Some(r)
    case Examine(r) => Some(r)
    case Settle(r) => Some(r)
    case MarkItem(r) => Some(r)
    case Read(r) => Some(r)
    case Acknowledge(r) => Some(r)
    case Apply(r) => Some(r)
    case _ => None
  }

  function Next(w: World, a: Action): World {
    match a
    case Claim(full) =>
      if Claimable(w, full)
      then w.(item := ItemRunning, runs := w.runs + [Row(Running, Pending, false)], stages := w.stages + [Executing])
      else w
    case NoteFailed => w.(runs := w.runs + [Row(Failed, Unset, false)], stages := w.stages + [Gone])
    case SetItem(status) => w.(item := status)
    case Dismiss(r, external) =>
      if r < |w.runs| then SetRun(w, r, Row(Cancelled, Unset, external)).(closed := w.closed + {r}) else w
    case Watch(r) =>
      if r < |w.runs| && Active(w.runs[r]) && !NeedsConfirmation(w.runs[r]) then w.(watched := w.watched + {r}) else w
    case Supervise(r, end, external) =>
      if r < |w.runs| && r in w.watched then ApplyHandle(w, r, end, external) else w
    case _ => if Known(w, Actor(a).value) then Dispatch(w, Actor(a).value, a) else w
  }

  function Run(w: World, actions: seq<Action>): World
    decreases |actions|
  {
    if actions == [] then w else Run(Next(w, actions[0]), actions[1..])
  }
}
