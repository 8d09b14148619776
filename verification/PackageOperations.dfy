/**
 Installs, updates and uninstalls of market packages, each a few awaits long, and the map that names the
 operation under way for a package. A rollback has no await and only looks at the map.
 */
module PackageOperations {
  datatype Stage =
    | Reserving      // an install or update: saving the new job
    | Working        // downloading, verifying, moving into place
    | Reporting      // over; saving the result
    | Failing        // saving the result failed; saving that
    | Removing       // an uninstall
    | Ended

  datatype Operation = Operation(package: string, stage: Stage)

  datatype World = World(operations: seq<Operation>, active: map<string, nat>)

  const INIT := World([], map[])

  datatype Action =
    | StartJob(package: string)
    | Reserved(i: nat, saved: bool)
    | Finish(i: nat)                    // the package work resolved or threw
    | Report(i: nat, saved: bool)
    | GiveUp(i: nat)
    | StartUninstall(package: string)
    | EndUninstall(i: nat)

  predicate At(w: World, i: nat, stage: Stage) {
    i < |w.operations| && w.operations[i].stage == stage
  }

  function SetStage(w: World, i: nat, stage: Stage): World
    requires i < |w.operations|
  {
    w.(operations := w.operations[i := w.operations[i].(stage := stage)])
  }

  /** Taking the package out of the map, whoever's entry it is. */
  function Forget(w: World, package: string): World {
    w.(active := w.active - {package})
  }

  function Begin(w: World, package: string, stage: Stage): World {
    if package in w.active then w
    else World(w.operations + [Operation(package, stage)], w.active[package := |w.operations|])
  }

  function Next(w: World, a: Action): World {
    match a
    case StartJob(package) => Begin(w, package, Reserving)
    case Reserved(i, saved) =>
      if !At(w, i, Reserving) then w
      else if saved then SetStage(w, i, Working)
      else Forget(SetStage(w, i, Ended), w.operations[i].package)
    case Finish(i) =>
      if At(w, i, Working) then Forget(SetStage(w, i, Reporting), w.operations[i].package) else w
    case Report(i, saved) =>
      if !At(w, i, Reporting) then w
      else if saved then SetStage(w, i, Ended)
      else Forget(SetStage(w, i, Failing), w.operations[i].package)
    case GiveUp(i) => if At(w, i, Failing) then SetStage(w, i, Ended) else w
    case StartUninstall(package) => Begin(w, package, Removing)
    case EndUninstall(i) =>
      if !At(w, i, Removing) then w
      else
        var w' := SetStage(w, i, Ended);
        var package := w.operations[i].package;
        if package in w.active && w.active[package] == i then Forget(w', package) else w'
  }

  function Run(w: World, actions: seq<Action>): World
    decreases |actions|
  {
    if actions == [] then w else Run(Next(w, actions[0]), actions[1..])
  }

  // ----- no two operations on one package

  /** The operation may still touch the package's files. */
  predicate Busy(w: World, i: nat) {
    At(w, i, Reserving) || At(w, i, Working) || At(w, i, Removing)
  }

  /** The map names exactly the busy operations. */
  predicate Inv(w: World) {
    && (forall package :: package in w.active ==>
          Busy(w, w.active[package]) && w.operations[w.active[package]].package == package)
    && (forall i :: 0 <= i < |w.operations| && Busy(w, i) ==>
          w.operations[i].package in w.active && w.active[w.operations[i].package] == i)
  }

  /** A result that could not be saved, while another operation on the package is already under way. */
  predicate Intrudes(w: World, a: Action) {
    a.Report? && !a.saved && At(w, a.i, Reporting) && w.operations[a.i].package in w.active
  }

  lemma BeginKeeps(w: World, package: string, stage: Stage)
    requires Inv(w) && (stage.Reserving? || stage.Removing?)
    ensures Inv(Begin(w, package, stage))
  {
  }

  /** A change of stage that neither begins nor ends the work leaves the map alone. */
  lemma StageKeeps(w: World, i: nat, stage: Stage)
    requires Inv(w) && i < |w.operations|
    requires Busy(w, i) <==> stage.Reserving? || stage.Working? || stage.Removing?
    ensures Inv(SetStage(w, i, stage))
  {
  }

  /** The end of the work takes the operation's own entry out. */
  lemma ReleaseKeeps(w: World, i: nat, stage: Stage)
    requires Inv(w) && Busy(w, i) && (stage.Reporting? || stage.Ended?)
    ensures w.operations[i].package in w.active && w.active[w.operations[i].package] == i
    ensures Inv(Forget(SetStage(w, i, stage), w.operations[i].package))
  {
  }

  lemma IntruderBreaks(w: World, a: Action)
    requires Inv(w) && Intrudes(w, a)
    ensures !Inv(Next(w, a))
  {
    var j := w.active[w.operations[a.i].package];
    assert Busy(Next(w, a), j);
  }

  /** A step keeps the map right exactly if it is not such a failed report. */
  lemma StepKeepsMapExactly(w: World, a: Action)
    requires Inv(w)
    ensures Inv(Next(w, a)) <==> !Intrudes(w, a)
  {
    hide Inv;
    match a
    case StartJob(package) => BeginKeeps(w, package, Reserving);
    case Reserved(i, saved) =>
      if At(w, i, Reserving) {
        if saved { StageKeeps(w, i, Working); } else { ReleaseKeeps(w, i, Ended); }
      }
    case Finish(i) => if At(w, i, Working) { ReleaseKeeps(w, i, Reporting); }
    case Report(i, saved) =>
      if At(w, i, Reporting) {
        if saved {
          StageKeeps(w, i, Ended);
        } else if Intrudes(w, a) {
          IntruderBreaks(w, a);
        } else {
          StageKeeps(w, i, Failing);
          assert w.active - {w.operations[i].package} == w.active;
        }
      }
    case GiveUp(i) => if At(w, i, Failing) { StageKeeps(w, i, Ended); }
    case StartUninstall(package) => BeginKeeps(w, package, Removing);
    case EndUninstall(i) => if At(w, i, Removing) { ReleaseKeeps(w, i, Ended); }
  }

  predicate NeverIntrudes(w: World, actions: seq<Action>)
    decreases |actions|
  {
    actions == [] || (!Intrudes(w, actions[0]) && NeverIntrudes(Next(w, actions[0]), actions[1..]))
  }

  lemma {:induction false} InvRun(w: World, actions: seq<Action>)
    requires Inv(w) && NeverIntrudes(w, actions)
    ensures Inv(Run(w, actions))
    decreases |actions|
  {
    hide Inv, Next, Intrudes;
    if actions != [] {
      StepKeepsMapExactly(w, actions[0]);
      InvRun(Next(w, actions[0]), actions[1..]);
    }
  }

  /** Unless a failed report meets a later operation, no two operations on one package are under way at once. */
  lemma OperationsDoNotOverlap(actions: seq<Action>, i: nat, j: nat)
    requires NeverIntrudes(INIT, actions)
    requires var w := Run(INIT, actions); Busy(w, i) && Busy(w, j) && w.operations[i].package == w.operations[j].package
    ensures i == j
  {
    InvRun(INIT, actions);
  }

  /** An install, an update or an uninstall begins exactly if no operation on its package is under way. */
  lemma BeginsExactly(actions: seq<Action>, package: string, uninstall: bool)
    requires NeverIntrudes(INIT, actions)
    ensures var w := Run(INIT, actions);
            var w' := Next(w, if uninstall then StartUninstall(package) else StartJob(package));
            if forall i :: 0 <= i < |w.operations| && Busy(w, i) ==> w.operations[i].package != package
            then w'.operations == w.operations + [Operation(package, if uninstall then Removing else Reserving)]
                 && Busy(w', |w.operations|)
            else w' == w
  {
    InvRun(INIT, actions);
    var w := Run(INIT, actions);
    if package in w.active { assert Busy(w, w.active[package]); }
  }

  /** Its work ended, or its start not saved, the package is free for the next operation. */
  lemma EndsFree(actions: seq<Action>, i: nat)
    requires NeverIntrudes(INIT, actions) && i < |Run(INIT, actions).operations|
    ensures var w := Run(INIT, actions); var package := w.operations[i].package;
            && (At(w, i, Reserving) ==> package !in Next(w, Reserved(i, false)).active && At(Next(w, Reserved(i, true)), i, Working))
            && (At(w, i, Working) ==> package !in Next(w, Finish(i)).active && At(Next(w, Finish(i)), i, Reporting))
            && (At(w, i, Removing) ==> package !in Next(w, EndUninstall(i)).active)
  {
    InvRun(INIT, actions);
    hide Run;
    var w := Run(INIT, actions);
    if At(w, i, Removing) { assert Busy(w, i); }
  }

  function Intrusion(p: string): seq<Action> {
    [StartJob(p), Reserved(0, true), Finish(0), StartJob(p), Reserved(1, true), Report(0, false), StartUninstall(p)]
  }

  /** The world before action `k` of the intrusion. */
  function Intruding(p: string, k: nat): World {
    match k
    case 0 => INIT
    case 1 => World([Operation(p, Reserving)], map[p := 0])
    case 2 => World([Operation(p, Working)], map[p := 0])
    case 3 => World([Operation(p, Reporting)], map[])
    case 4 => World([Operation(p, Reporting), Operation(p, Reserving)], map[p := 1])
    case 5 => World([Operation(p, Reporting), Operation(p, Working)], map[p := 1])
    case 6 => World([Operation(p, Failing), Operation(p, Working)], map[])
    case _ => World([Operation(p, Failing), Operation(p, Working), Operation(p, Removing)], map[p := 2])
  }

  lemma IntrudingStep(p: string, k: nat)
    requires k < |Intrusion(p)|
    ensures Next(Intruding(p, k), Intrusion(p)[k]) == Intruding(p, k + 1)
  {
    assert Next(Intruding(p, k), Intrusion(p)[k]).operations == Intruding(p, k + 1).operations;
  }

  lemma {:induction false} IntrusionRuns(p: string, k: nat)
    requires k <= |Intrusion(p)|
    ensures Run(Intruding(p, k), Intrusion(p)[k..]) == Intruding(p, |Intrusion(p)|)
    decreases |Intrusion(p)| - k
  {
    hide Intruding, Next;
    if k < |Intrusion(p)| {
      IntrudingStep(p, k);
      IntrusionRuns(p, k + 1);
      assert Intrusion(p)[k..][1..] == Intrusion(p)[k + 1..];
    }
  }

  /** A job's result cannot be saved after the next job of the package began: then an uninstall can begin beside it. */
  lemma FailedReportLetsOperationsOverlap(p: string)
    ensures var w := Run(INIT, Intrusion(p));
            Busy(w, 1) && Busy(w, 2) && w.operations[1].package == w.operations[2].package == p
  {
    hide Next, Run;
    IntrusionRuns(p, 0);
    assert Intrusion(p)[0..] == Intrusion(p);
  }
}
