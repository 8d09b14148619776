/**
 Background ticks and the maintenance hold: three flags that keep the ticks apart, and one flag that every
 pauser sets, clears when it is done, and clears when it gives up. Each await is a step.
 */
module MaintenanceHold {
  datatype Tick = Steady | Bootstrap | Catalog

  /** A pauser of store maintenance only waits for quiet; one of a store clear stops the installations first. */
  datatype Stage = Stopping | Waiting | Working | Done

  /** `busy`: stream locks or a focus slot are taken. */
  datatype World = World(hold: bool, ticking: set<Tick>, busy: bool, pausers: seq<Stage>)

  const INIT := World(false, {}, false, [])

  datatype Action =
    | StartTick(tick: Tick)
    | EndTick(tick: Tick)
    | SetBusy(busy: bool)
    | Pause(clear: bool)
    | Stopped(i: nat, ok: bool)
    | Look(i: nat, timedOut: bool)    // a round of waiting for quiet
    | Resume(i: nat)

  predicate At(w: World, i: nat, stage: Stage) {
    i < |w.pausers| && w.pausers[i] == stage
  }

  function SetStage(w: World, i: nat, stage: Stage): World
    requires i < |w.pausers|
  {
    w.(pausers := w.pausers[i := stage])
  }

  function Next(w: World, a: Action): World {
    match a
    case StartTick(tick) => if w.hold || w.ticking != {} then w else w.(ticking := {tick})
    case EndTick(tick) => w.(ticking := w.ticking - {tick})
    case SetBusy(busy) => w.(busy := busy)
    case Pause(clear) => w.(hold := true, pausers := w.pausers + [if clear then Stopping else Waiting])
    case Stopped(i, ok) =>
      if !At(w, i, Stopping) then w
      else if ok then SetStage(w, i, Waiting)
      else SetStage(w, i, Done).(hold := false)
    case Look(i, timedOut) =>
      if !At(w, i, Waiting) then w
      else if w.ticking == {} && !w.busy then SetStage(w, i, Working)
      else if timedOut then SetStage(w, i, Done).(hold := false)
      else w
    case Resume(i) => if At(w, i, Working) then SetStage(w, i, Done).(hold := false) else w
  }

  function Run(w: World, actions: seq<Action>): World
    decreases |actions|
  {
    if actions == [] then w else Run(Next(w, actions[0]), actions[1..])
  }

  // ----- ticks

  predicate OneTick(w: World) {
    forall s, t :: s in w.ticking && t in w.ticking ==> s == t
  }

  lemma {:induction false} OneTickRun(w: World, actions: seq<Action>)
    requires OneTick(w)
    ensures OneTick(Run(w, actions))
    decreases |actions|
  {
    if actions != [] {
      assert OneTick(Next(w, actions[0]));
      OneTickRun(Next(w, actions[0]), actions[1..]);
    }
  }

  /** At most one of the steady, the bootstrap and the catalog tick runs, whoever pauses and resumes. */
  lemma TicksDoNotOverlap(actions: seq<Action>, s: Tick, t: Tick)
    requires s in Run(INIT, actions).ticking && t in Run(INIT, actions).ticking
    ensures s == t
  {
    OneTickRun(INIT, actions);
  }

  // ----- the hold

  predicate Pausing(w: World, i: nat) {
    i < |w.pausers| && !w.pausers[i].Done?
  }

  /** The flag is up while anybody pauses, and no tick runs beside a pauser at work. */
  predicate Held(w: World) {
    && (forall i :: 0 <= i < |w.pausers| && Pausing(w, i) ==> w.hold)
    && (forall i :: 0 <= i < |w.pausers| && At(w, i, Working) ==> w.ticking == {})
  }

  /** A pauser resumes or gives up. */
  predicate Releases(w: World, a: Action, i: nat) {
    || (a == Resume(i) && At(w, i, Working))
    || (a == Stopped(i, false) && At(w, i, Stopping))
    || (a == Look(i, true) && At(w, i, Waiting) && (w.ticking != {} || w.busy))
  }

  /** The same, while another one still pauses. */
  predicate ReleasesAnother(w: World, a: Action) {
    exists i, j :: 0 <= i < |w.pausers| && 0 <= j < |w.pausers| && i != j && Releases(w, a, i) && Pausing(w, j)
  }

  lemma OtherStepsHold(w: World, a: Action)
    requires Held(w) && !ReleasesAnother(w, a)
    ensures Held(Next(w, a))
  {
    var w' := Next(w, a);
    forall j | 0 <= j < |w'.pausers| && Pausing(w', j) ensures w'.hold {
      if j < |w.pausers| {
        assert Pausing(w, j);
        var i := if a.Resume? || a.Stopped? || a.Look? then a.i else |w.pausers|;
        if i < |w.pausers| && i != j { assert !Releases(w, a, i); }
      }
    }
    forall j | 0 <= j < |w'.pausers| && At(w', j, Working) ensures w'.ticking == {} {
      if At(w, j, Working) { assert Pausing(w, j); }
    }
  }

  /** A step keeps the hold exactly if it is not a release while another pauser is not done. */
  lemma StepKeepsHoldExactly(w: World, a: Action)
    requires Held(w)
    ensures Held(Next(w, a)) <==> !ReleasesAnother(w, a)
  {
    if ReleasesAnother(w, a) {
      var i, j :| 0 <= i < |w.pausers| && 0 <= j < |w.pausers| && i != j && Releases(w, a, i) && Pausing(w, j);
      assert Pausing(Next(w, a), j) && !Next(w, a).hold;
    } else {
      OtherStepsHold(w, a);
    }
  }

  predicate NeverReleasesAnother(w: World, actions: seq<Action>)
    decreases |actions|
  {
    actions == [] || (!ReleasesAnother(w, actions[0]) && NeverReleasesAnother(Next(w, actions[0]), actions[1..]))
  }

  lemma {:induction false} HeldRun(w: World, actions: seq<Action>)
    requires Held(w) && NeverReleasesAnother(w, actions)
    ensures Held(Run(w, actions))
    decreases |actions|
  {
    hide Held, Next, ReleasesAnother;
    if actions != [] {
      StepKeepsHoldExactly(w, actions[0]);
      HeldRun(Next(w, actions[0]), actions[1..]);
    }
  }

  /** A tick runs beside a pauser at work. */
  predicate TickBeside(w: World) {
    w.ticking != {} && exists i :: 0 <= i < |w.pausers| && At(w, i, Working)
  }

  /** A run to such a tick without any further release of another's pause. */
  predicate LeadsToTick(w: World, rest: seq<Action>) {
    NeverReleasesAnother(w, rest) && TickBeside(Run(w, rest))
  }

  /** What brings pauser `j` to work, and then a tick beside it. */
  function Onward(w: World, j: nat): (a: Action)
    requires Pausing(w, j)
  {
    match w.pausers[j]
    case Stopping => Stopped(j, true)
    case Working => StartTick(Steady)
    case _ =>
      if Steady in w.ticking then EndTick(Steady)
      else if Bootstrap in w.ticking then EndTick(Bootstrap)
      else if Catalog in w.ticking then EndTick(Catalog)
      else if w.busy then SetBusy(false)
      else Look(j, false)
  }

  function Rank(stage: Stage): nat {
    match stage case Stopping => 2 case Waiting => 1 case _ => 0
  }

  lemma NoTickLeft(w: World)
    requires Steady !in w.ticking && Bootstrap !in w.ticking && Catalog !in w.ticking
    ensures w.ticking == {}
  {
    forall t ensures t !in w.ticking { match t case Steady => case Bootstrap => case Catalog => }
  }

  lemma OnwardStep(w: World, j: nat)
    requires Pausing(w, j) && !w.hold && !(At(w, j, Working) && w.ticking != {})
    ensures var a, w' := Onward(w, j), Next(w, Onward(w, j));
            && Pausing(w', j) && !w'.hold && !ReleasesAnother(w, a)
            && Rank(w'.pausers[j]) <= Rank(w.pausers[j])
            && (At(w, j, Working) ==> TickBeside(w'))
            && (At(w, j, Waiting) ==> At(w', j, Working) || |w'.ticking| < |w.ticking| || (w'.ticking == w.ticking && w.busy && !w'.busy))
            && (At(w, j, Stopping) ==> At(w', j, Waiting))
  {
    if w.pausers[j].Waiting? && Steady !in w.ticking && Bootstrap !in w.ticking && Catalog !in w.ticking { NoTickLeft(w); }
    if w.pausers[j].Working? { assert At(Next(w, StartTick(Steady)), j, Working) && Steady in Next(w, StartTick(Steady)).ticking; }
  }

  /** Whoever still pauses without the hold may come to work beside a tick. */
  lemma {:induction false} LostHoldLeadsToTick(w: World, j: nat) returns (rest: seq<Action>)
    requires Pausing(w, j) && !w.hold
    ensures LeadsToTick(w, rest)
    decreases Rank(w.pausers[j]), |w.ticking|, w.busy
  {
    hide Onward, Next, ReleasesAnother, LeadsToTick;
    rest := [];
    if At(w, j, Working) && w.ticking != {} {
      TickIsThere(w);
    } else {
      var a := Onward(w, j);
      OnwardStep(w, j);
      if At(w, j, Working) { TickIsThere(Next(w, a)); } else { rest := LostHoldLeadsToTick(Next(w, a), j); }
      StepLeadsOn(w, a, rest);
      rest := [a] + rest;
    }
  }

  lemma TickIsThere(w: World)
    requires TickBeside(w)
    ensures LeadsToTick(w, [])
  {
  }

  lemma StepLeadsOn(w: World, a: Action, rest: seq<Action>)
    requires !ReleasesAnother(w, a) && LeadsToTick(Next(w, a), rest)
    ensures LeadsToTick(w, [a] + rest)
  {
    hide Next, ReleasesAnother, TickBeside;
    assert ([a] + rest)[1..] == rest;
  }

  /** A step releases another's pause exactly if, without any further such release, a tick may come to run beside a pauser at work. */
  lemma ReleasesExactlyIfTickFollows(w: World, a: Action)
    requires Held(w)
    ensures ReleasesAnother(w, a) <==> exists rest :: LeadsToTick(Next(w, a), rest)
  {
    hide LeadsToTick;
    if ReleasesAnother(w, a) {
      var i, j :| 0 <= i < |w.pausers| && 0 <= j < |w.pausers| && i != j && Releases(w, a, i) && Pausing(w, j);
      var rest := LostHoldLeadsToTick(Next(w, a), j);
    } else {
      StepKeepsHoldExactly(w, a);
      forall rest ensures !LeadsToTick(Next(w, a), rest) { HoldLeavesNoTick(Next(w, a), rest); }
    }
  }

  lemma HoldLeavesNoTick(w: World, rest: seq<Action>)
    requires Held(w)
    ensures !LeadsToTick(w, rest)
  {
    if NeverReleasesAnother(w, rest) { HeldRun(w, rest); }
  }

  /** If pauses do not release each other, no tick runs between the return of a pause and its resume. */
  lemma NoTickWhilePaused(actions: seq<Action>, i: nat)
    requires NeverReleasesAnother(INIT, actions) && At(Run(INIT, actions), i, Working)
    ensures Run(INIT, actions).ticking == {} && Run(INIT, actions).hold
  {
    HeldRun(INIT, actions);
    assert Pausing(Run(INIT, actions), i);
  }

  /** Store maintenance resumes while a store clear is at work: the next tick runs beside the clear. */
  lemma ResumeClearsTheOthersHold()
    ensures var w := Run(INIT, [Pause(false), Look(0, false), Pause(true), Stopped(1, true), Look(1, false), Resume(0),
                                StartTick(Steady)]);
            At(w, 1, Working) && Steady in w.ticking
  {
  }

  /** A later pause that times out does the same. */
  lemma TimeoutClearsTheOthersHold()
    ensures var w := Run(INIT, [Pause(false), Look(0, false), SetBusy(true), Pause(false), Look(1, true), StartTick(Catalog)]);
            At(w, 0, Working) && Catalog in w.ticking
  {
  }

  /** A tick starts exactly if nothing holds it and no other tick runs. */
  lemma TickStartsExactly(w: World, tick: Tick)
    requires OneTick(w) && tick !in w.ticking
    ensures tick in Next(w, StartTick(tick)).ticking <==> !w.hold && forall t :: t !in w.ticking
  {
  }

  /** A pauser that waits may work exactly when it finds everything quiet; otherwise it gives up exactly if its time is over. */
  lemma PauseReturnsExactly(w: World, i: nat, timedOut: bool)
    requires At(w, i, Waiting)
    ensures var w' := Next(w, Look(i, timedOut)); var quiet := !w.busy && forall t :: t !in w.ticking;
            && (At(w', i, Working) <==> quiet)
            && (At(w', i, Done) <==> !quiet && timedOut)
            && (w'.hold <==> w.hold && (quiet || !timedOut))
  {
  }

  /** A pause raises the hold at once; one for a store clear first stops the installations, and gives up if that fails. */
  lemma ClearStopsFirst(w: World, clear: bool, i: nat, ok: bool, a: Action)
    ensures var w' := Next(w, Pause(clear));
            w'.hold && At(w', |w.pausers|, if clear then Stopping else Waiting) && w'.ticking == w.ticking
    ensures At(w, i, Stopping) ==> !At(Next(w, a), i, Working)
    ensures At(w, i, Stopping) ==> var w' := Next(w, Stopped(i, ok)); if ok then At(w', i, Waiting) && w'.hold == w.hold else At(w', i, Done) && !w'.hold
  {
  }
}
