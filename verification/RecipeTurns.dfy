/**
 Turns of a capped recipe: starts of its items queue in a lane of promises, and inside its turn a start looks
 whether its item is already starting, waits for the capacity check, and marks the item. Manual starts, and
 starts without a cap, look and mark at once, without a turn. Each await is a step.
 */
module RecipeTurns {
  import opened Wrappers

  datatype Phase = Queued | Checking | Released

  datatype Turn = Turn(recipe: nat, item: nat, previous: Option<nat>, phase: Phase)

  /**
   `starting`: items marked as being started. `live`: turns that acquired their start and have not finished it;
   `manual`: the items of the starts without a turn that are under way.
   */
  datatype World = World(turns: seq<Turn>, lanes: map<nat, nat>, starting: set<nat>, live: set<nat>, manual: multiset<nat>)

  const INIT := World([], map[], {}, {}, multiset{})

  datatype Action =
    | Arrive(recipe: nat, item: nat)
    | Enter(t: nat)
    | Capacity(t: nat, has: bool)
    | Throw(t: nat)                // the capacity check failed
    | Finish(t: nat)               // the start itself is over
    | Manual(item: nat)
    | ManualFinish(item: nat)

  /** The lane's promise up to and including turn `t` has resolved. */
  predicate Resolved(turns: seq<Turn>, t: nat)
    decreases t
  {
    && t < |turns| && turns[t].phase.Released?
    && (turns[t].previous.Some? ==> turns[t].previous.value < t && Resolved(turns, turns[t].previous.value))
  }

  predicate MayEnter(w: World, t: nat) {
    && t < |w.turns| && w.turns[t].phase.Queued?
    && (w.turns[t].previous.Some? ==> Resolved(w.turns, w.turns[t].previous.value))
  }

  function SetPhase(w: World, t: nat, phase: Phase): World
    requires t < |w.turns|
  {
    w.(turns := w.turns[t := w.turns[t].(phase := phase)])
  }

  predicate IsChecking(w: World, t: nat) {
    t < |w.turns| && w.turns[t].phase.Checking?
  }

  function Next(w: World, a: Action): World {
    match a
    case Arrive(recipe, item) =>
      if item in w.starting then w
      else
        var previous := if recipe in w.lanes then Some(w.lanes[recipe]) else None;
        w.(turns := w.turns + [Turn(recipe, item, previous, Queued)], lanes := w.lanes[recipe := |w.turns|])
    case Enter(t) =>
      if !MayEnter(w, t) then w
      else SetPhase(w, t, if w.turns[t].item in w.starting then Released else Checking)
    case Capacity(t, has) =>
      if !IsChecking(w, t) then w
      else if !has then SetPhase(w, t, Released)
      else SetPhase(w, t, Released).(starting := w.starting + {w.turns[t].item}, live := w.live + {t})
    case Throw(t) => if IsChecking(w, t) then SetPhase(w, t, Released) else w
    case Finish(t) =>
      if t in w.live && t < |w.turns|
      then w.(starting := w.starting - {w.turns[t].item}, live := w.live - {t}) else w
    case Manual(item) =>
      if item in w.starting then w
      else w.(starting := w.starting + {item}, manual := w.manual + multiset{item})
    case ManualFinish(item) =>
      if item !in w.manual then w
      else w.(starting := w.starting - {item}, manual := w.manual - multiset{item})
  }

  function Run(w: World, actions: seq<Action>): World
    decreases |actions|
  {
    if actions == [] then w else Run(Next(w, actions[0]), actions[1..])
  }

  // ----- the lane

  predicate SameRecipe(w: World, s: nat, t: nat)
    requires s < |w.turns| && t < |w.turns|
  {
    w.turns[s].recipe == w.turns[t].recipe
  }

  /** Each turn waits for the last earlier turn of its recipe. */
  predicate Linked(w: World, t: nat)
    requires t < |w.turns|
  {
    var p := w.turns[t].previous;
    && (p.Some? ==> p.value < t && SameRecipe(w, p.value, t))
    && (forall s :: 0 <= s < t && SameRecipe(w, s, t) ==> p.Some? && s <= p.value)
  }

  predicate LanesOk(w: World) {
    && (forall recipe :: recipe in w.lanes ==> w.lanes[recipe] < |w.turns| && w.turns[w.lanes[recipe]].recipe == recipe)
    && (forall t :: 0 <= t < |w.turns| ==> w.turns[t].recipe in w.lanes && t <= w.lanes[w.turns[t].recipe])
  }

  predicate InOrder(w: World) {
    forall s, t :: 0 <= s < t < |w.turns| && SameRecipe(w, s, t) && !w.turns[t].phase.Queued? ==> w.turns[s].phase.Released?
  }

  predicate Lane(w: World) {
    LanesOk(w) && InOrder(w) && forall t :: 0 <= t < |w.turns| ==> Linked(w, t)
  }

  lemma {:induction false} ResolvedMeansAllReleased(w: World, t: nat, s: nat)
    requires Lane(w) && Resolved(w.turns, t) && s <= t && SameRecipe(w, s, t)
    ensures w.turns[s].phase.Released?
    decreases t
  {
    assert Linked(w, t);
    if s < t { ResolvedMeansAllReleased(w, w.turns[t].previous.value, s); }
  }

  lemma {:induction false} AllReleasedMeansResolved(w: World, t: nat)
    requires Lane(w) && t < |w.turns|
    requires forall s :: 0 <= s <= t && SameRecipe(w, s, t) ==> w.turns[s].phase.Released?
    ensures Resolved(w.turns, t)
    decreases t
  {
    assert Linked(w, t);
    var p := w.turns[t].previous;
    assert SameRecipe(w, t, t);
    if p.Some? {
      forall s | 0 <= s <= p.value && SameRecipe(w, s, p.value) ensures w.turns[s].phase.Released? {
        assert SameRecipe(w, s, t);
      }
      AllReleasedMeansResolved(w, p.value);
    }
  }

  lemma EnterInOrder(w: World, t: nat, s: nat)
    requires Lane(w) && MayEnter(w, t) && s < t && SameRecipe(w, s, t)
    ensures w.turns[s].phase.Released?
  {
    assert Linked(w, t);
    ResolvedMeansAllReleased(w, w.turns[t].previous.value, s);
  }

  lemma PhaseKeepsLane(w: World, w': World, t: nat, phase: Phase)
    requires Lane(w) && t < |w.turns| && w'.lanes == w.lanes && w'.turns == SetPhase(w, t, phase).turns
    requires if w.turns[t].phase.Queued? then !phase.Queued? && MayEnter(w, t) else phase.Released?
    ensures Lane(w')
  {
    forall s, u | 0 <= s < u < |w'.turns| && SameRecipe(w', s, u) && !w'.turns[u].phase.Queued?
      ensures w'.turns[s].phase.Released?
    {
      assert SameRecipe(w, s, u);
      if u == t && w.turns[t].phase.Queued? { EnterInOrder(w, t, s); }
    }
    forall u | 0 <= u < |w'.turns| ensures Linked(w', u) {
      assert Linked(w, u);
      forall s | 0 <= s < u ensures SameRecipe(w', s, u) <==> SameRecipe(w, s, u) {}
    }
  }

  lemma ArriveKeepsLane(w: World, recipe: nat, item: nat)
    requires Lane(w)
    ensures Lane(Next(w, Arrive(recipe, item)))
  {
    var w', n := Next(w, Arrive(recipe, item)), |w.turns|;
    if item !in w.starting {
      forall u | 0 <= u < |w'.turns| ensures Linked(w', u) {
        if u < n {
          assert Linked(w, u);
          forall s | 0 <= s < u ensures SameRecipe(w', s, u) <==> SameRecipe(w, s, u) {}
        }
      }
      forall s, u | 0 <= s < u < |w'.turns| && SameRecipe(w', s, u) && !w'.turns[u].phase.Queued?
        ensures w'.turns[s].phase.Released?
      {
        assert SameRecipe(w, s, u);
      }
    }
  }

  lemma LaneNext(w: World, a: Action)
    requires Lane(w)
    ensures Lane(Next(w, a))
  {
    hide Lane, Resolved;
    var w' := Next(w, a);
    match a
    case Arrive(recipe, item) => ArriveKeepsLane(w, recipe, item);
    case Enter(t) => if MayEnter(w, t) { PhaseKeepsLane(w, w', t, w'.turns[t].phase); }
    case Capacity(t, _) => if IsChecking(w, t) { PhaseKeepsLane(w, w', t, Released); }
    case Throw(t) => if IsChecking(w, t) { PhaseKeepsLane(w, w', t, Released); }
    case _ => SameLane(w, w');
  }

  lemma SameLane(w: World, w': World)
    requires Lane(w) && w'.turns == w.turns && w'.lanes == w.lanes
    ensures Lane(w')
  {
    forall u | 0 <= u < |w'.turns| ensures Linked(w', u) {
      assert Linked(w, u);
      forall s | 0 <= s < u ensures SameRecipe(w', s, u) <==> SameRecipe(w, s, u) {}
    }
    forall s, u | 0 <= s < u < |w'.turns| && SameRecipe(w', s, u) && !w'.turns[u].phase.Queued?
      ensures w'.turns[s].phase.Released?
    {
      assert SameRecipe(w, s, u);
    }
  }

  lemma {:induction false} LaneRun(w: World, actions: seq<Action>)
    requires Lane(w)
    ensures Lane(Run(w, actions))
    decreases |actions|
  {
    hide Lane, Next;
    if actions != [] {
      LaneNext(w, actions[0]);
      LaneRun(Next(w, actions[0]), actions[1..]);
    }
  }

  /** First come, first served, one at a time: nobody is past the queue while an earlier turn of its recipe is not over. */
  lemma TurnsAreServedInOrder(actions: seq<Action>, s: nat, t: nat)
    requires s < t < |Run(INIT, actions).turns| && SameRecipe(Run(INIT, actions), s, t)
    requires !Run(INIT, actions).turns[t].phase.Queued?
    ensures Run(INIT, actions).turns[s].phase.Released?
  {
    LaneRun(INIT, actions);
  }

  /** No turn is lost, not even behind one that threw: the head of the queue may always enter. */
  lemma MayEnterExactlyInTurn(actions: seq<Action>, t: nat)
    requires t < |Run(INIT, actions).turns| && Run(INIT, actions).turns[t].phase.Queued?
    ensures var w := Run(INIT, actions);
            MayEnter(w, t) <==> forall s :: 0 <= s < t && SameRecipe(w, s, t) ==> w.turns[s].phase.Released?
  {
    var w := Run(INIT, actions);
    LaneRun(INIT, actions);
    assert Linked(w, t);
    var p := w.turns[t].previous;
    if MayEnter(w, t) {
      forall s | 0 <= s < t && SameRecipe(w, s, t) ensures w.turns[s].phase.Released? {
        EnterInOrder(w, t, s);
      }
    } else if (forall s :: 0 <= s < t && SameRecipe(w, s, t) ==> w.turns[s].phase.Released?) && p.Some? {
      forall s | 0 <= s <= p.value && SameRecipe(w, s, p.value) ensures w.turns[s].phase.Released? {
        assert SameRecipe(w, s, t);
      }
      AllReleasedMeansResolved(w, p.value);
    }
  }

  // ----- one start at a time

  predicate LiveOf(w: World, t: nat, item: nat) {
    t in w.live && t < |w.turns| && w.turns[t].item == item
  }

  predicate UnderWay(w: World, item: nat) {
    item in w.manual || exists t :: t in w.live && LiveOf(w, t, item)
  }

  /** At most one start of the item is under way, with or without a turn, and then the item is marked. */
  predicate OneStart(w: World, item: nat) {
    && (forall s, t :: s in w.live && t in w.live && LiveOf(w, s, item) && LiveOf(w, t, item) ==> s == t)
    && w.manual[item] <= 1
    && (forall t :: t in w.live && LiveOf(w, t, item) ==> item !in w.manual && item in w.starting)
    && (item in w.manual ==> item in w.starting)
  }

  /** The mark is the item's only while a start of it is under way. */
  predicate MarkOk(w: World, item: nat) {
    item in w.starting ==> UnderWay(w, item)
  }

  /** A turn is told that there is room when its item has been marked since the turn's look. */
  predicate Intrudes(w: World, a: Action, item: nat) {
    a.Capacity? && a.has && IsChecking(w, a.t) && w.turns[a.t].item == item && item in w.starting
  }

  /** Live turns are past the lane; and a turn past its look has no live turn of its own recipe beside it. */
  predicate TurnsApart(w: World, item: nat) {
    && (forall t :: t in w.live ==> t < |w.turns| && w.turns[t].phase.Released?)
    && (forall s, t :: s in w.live && LiveOf(w, s, item) && 0 <= t < |w.turns| && IsChecking(w, t) && w.turns[t].item == item ==>
          w.turns[s].recipe != w.turns[t].recipe)
  }

  /** The answer itself: it keeps to one start exactly if the item is not marked. */
  lemma CapacityExactly(w: World, t: nat, item: nat)
    requires OneStart(w, item) && TurnsApart(w, item) && MarkOk(w, item) && IsChecking(w, t)
    ensures OneStart(Next(w, Capacity(t, true)), item) <==> !Intrudes(w, Capacity(t, true), item)
  {
    var w' := Next(w, Capacity(t, true));
    assert t !in w.live;
    forall s ensures s != t ==> (LiveOf(w', s, item) <==> LiveOf(w, s, item)) {}
    if w.turns[t].item == item && UnderWay(w, item) && item !in w.manual {
      var s :| s in w.live && LiveOf(w, s, item);
      assert s in w'.live && LiveOf(w', s, item) && t in w'.live && LiveOf(w', t, item);
    }
  }

  /** A world with the same turns, apart from their phases and new ones, and the same starts. */
  predicate SameStarts(w: World, w': World) {
    && w'.live == w.live && w'.manual == w.manual && w'.starting == w.starting && |w.turns| <= |w'.turns|
    && forall t :: 0 <= t < |w.turns| ==> w'.turns[t].item == w.turns[t].item && w'.turns[t].recipe == w.turns[t].recipe
  }

  lemma SameStartsKeep(w: World, w': World, item: nat)
    requires OneStart(w, item) && TurnsApart(w, item) && SameStarts(w, w')
    ensures OneStart(w', item)
  {
    forall t | t in w.live ensures LiveOf(w', t, item) <==> LiveOf(w, t, item) {}
  }

  lemma EndsKeep(w: World, a: Action, item: nat)
    requires OneStart(w, item) && TurnsApart(w, item) && (a.Finish? || a.Manual? || a.ManualFinish?)
    ensures OneStart(Next(w, a), item)
  {
    var w' := Next(w, a);
    forall t | t in w'.live ensures t in w.live && (LiveOf(w', t, item) <==> LiveOf(w, t, item)) {}
    if a.Finish? && a.t in w.live && w.turns[a.t].item == item { assert LiveOf(w, a.t, item); }
  }

  /** A step keeps to one start of the item exactly if it is no such answer: a second look at the mark would do. */
  lemma StepKeepsOneStartExactly(w: World, a: Action, item: nat)
    requires OneStart(w, item) && TurnsApart(w, item) && MarkOk(w, item)
    ensures OneStart(Next(w, a), item) <==> !Intrudes(w, a, item)
  {
    hide OneStart, TurnsApart, MarkOk, Resolved;
    match a
    case Capacity(t, has) =>
      if has && IsChecking(w, t) { CapacityExactly(w, t, item); } else { SameStartsKeep(w, Next(w, a), item); }
    case Finish(_) => EndsKeep(w, a, item);
    case Manual(_) => EndsKeep(w, a, item);
    case ManualFinish(_) => EndsKeep(w, a, item);
    case _ => SameStartsKeep(w, Next(w, a), item);
  }

  lemma LookKeepsApart(w: World, t: nat, item: nat)
    requires OneStart(w, item) && TurnsApart(w, item) && MayEnter(w, t)
    ensures TurnsApart(Next(w, Enter(t)), item)
  {
    hide Resolved;
    var w' := Next(w, Enter(t));
    forall s, u | s in w'.live && LiveOf(w', s, item) && 0 <= u < |w'.turns| && IsChecking(w', u) && w'.turns[u].item == item
      ensures w'.turns[s].recipe != w'.turns[u].recipe
    {
      assert LiveOf(w, s, item);
      assert u != t ==> IsChecking(w, u);
    }
  }

  lemma AnswerKeepsApart(w: World, t: nat, item: nat)
    requires Lane(w) && TurnsApart(w, item) && IsChecking(w, t)
    ensures TurnsApart(Next(w, Capacity(t, true)), item)
  {
    hide Linked, LanesOk;
    var w' := Next(w, Capacity(t, true));
    forall s, u | s in w'.live && LiveOf(w', s, item) && 0 <= u < |w'.turns| && IsChecking(w', u) && w'.turns[u].item == item
      ensures w'.turns[s].recipe != w'.turns[u].recipe
    {
      assert IsChecking(w, u) && u != t;
      if s == t {
        assert SameRecipe(w, s, u) == SameRecipe(w, u, s);
      } else {
        assert LiveOf(w, s, item);
      }
    }
  }

  /** Without new looks and new starts turns stay apart. */
  lemma FewerKeepApart(w: World, w': World, item: nat)
    requires TurnsApart(w, item) && w'.live <= w.live && |w.turns| <= |w'.turns|
    requires forall t :: 0 <= t < |w.turns| ==>
               && w'.turns[t].item == w.turns[t].item && w'.turns[t].recipe == w.turns[t].recipe
               && (w.turns[t].phase.Released? ==> w'.turns[t].phase.Released?)
               && (w'.turns[t].phase.Checking? ==> w.turns[t].phase.Checking?)
    requires forall t :: |w.turns| <= t < |w'.turns| ==> !w'.turns[t].phase.Checking?
    ensures TurnsApart(w', item)
  {
    forall s, u | s in w'.live && LiveOf(w', s, item) && 0 <= u < |w'.turns| && IsChecking(w', u) && w'.turns[u].item == item
      ensures w'.turns[s].recipe != w'.turns[u].recipe
    {
      assert LiveOf(w, s, item) && IsChecking(w, u);
    }
  }

  lemma TurnsApartNext(w: World, a: Action, item: nat)
    requires Lane(w) && OneStart(w, item) && TurnsApart(w, item)
    ensures TurnsApart(Next(w, a), item)
  {
    hide Lane, OneStart, TurnsApart, MayEnter;
    match a
    case Enter(t) => if MayEnter(w, t) { LookKeepsApart(w, t, item); }
    case Capacity(t, has) =>
      if has && IsChecking(w, t) { AnswerKeepsApart(w, t, item); } else { FewerKeepApart(w, Next(w, a), item); }
    case _ => FewerKeepApart(w, Next(w, a), item);
  }

  /** A start takes its mark along when it ends. */
  lemma MarkOkNext(w: World, a: Action, item: nat)
    requires OneStart(w, item) && TurnsApart(w, item) && MarkOk(w, item)
    ensures MarkOk(Next(w, a), item)
  {
    hide Resolved;
    var w' := Next(w, a);
    if item in w'.starting && item !in w'.manual {
      if a.Capacity? && item !in w.starting {
        assert LiveOf(w', a.t, item);
      } else if item !in w.manual {
        var s :| s in w.live && LiveOf(w, s, item);
        assert s in w'.live && LiveOf(w', s, item);
      }
    }
  }

  predicate NeverIntrudes(w: World, actions: seq<Action>, item: nat)
    decreases |actions|
  {
    actions == [] || (!Intrudes(w, actions[0], item) && NeverIntrudes(Next(w, actions[0]), actions[1..], item))
  }

  /** What every run without such an answer keeps. */
  predicate Orderly(w: World, item: nat) {
    Lane(w) && OneStart(w, item) && TurnsApart(w, item) && MarkOk(w, item)
  }

  lemma OrderlyNext(w: World, a: Action, item: nat)
    requires Orderly(w, item) && !Intrudes(w, a, item)
    ensures Orderly(Next(w, a), item)
  {
    hide Lane, OneStart, TurnsApart, MarkOk, Next, Intrudes;
    StepKeepsOneStartExactly(w, a, item);
    TurnsApartNext(w, a, item);
    MarkOkNext(w, a, item);
    LaneNext(w, a);
  }

  lemma {:induction false} OrderlyRun(w: World, actions: seq<Action>, item: nat)
    requires Orderly(w, item) && NeverIntrudes(w, actions, item)
    ensures Orderly(Run(w, actions), item)
    decreases |actions|
  {
    hide Orderly, Next, Intrudes;
    if actions != [] {
      OrderlyNext(w, actions[0], item);
      OrderlyRun(Next(w, actions[0]), actions[1..], item);
    }
  }

  /** Without such an answer two starts of one item are never both under way, capped or not. */
  lemma NoDoubleStart(actions: seq<Action>, item: nat, s: nat, t: nat)
    requires NeverIntrudes(INIT, actions, item)
    requires LiveOf(Run(INIT, actions), s, item) && LiveOf(Run(INIT, actions), t, item)
    ensures s == t && item !in Run(INIT, actions).manual
  {
    OrderlyRun(INIT, actions, item);
  }

  /** And the item is marked exactly while a start of it is under way. */
  lemma MarkedExactlyWhileUnderWay(actions: seq<Action>, item: nat)
    requires NeverIntrudes(INIT, actions, item)
    ensures item in Run(INIT, actions).starting <==> UnderWay(Run(INIT, actions), item)
  {
    OrderlyRun(INIT, actions, item);
  }

  /** Turns of one recipe never do this to each other: the other start has no turn, or a turn of another recipe. */
  lemma OnlyOutsidersIntrude(actions: seq<Action>, a: Action, item: nat)
    requires NeverIntrudes(INIT, actions, item) && Intrudes(Run(INIT, actions), a, item)
    ensures var w := Run(INIT, actions);
            item in w.manual || exists s :: s in w.live && LiveOf(w, s, item) && w.turns[s].recipe != w.turns[a.t].recipe
  {
    OrderlyRun(INIT, actions, item);
  }

  /** No turn is wasted: the head of the lane, if its item is not marked and there is room, starts and marks the item. */
  lemma FreeTurnStarts(actions: seq<Action>, t: nat)
    requires var w := Run(INIT, actions);
             && t < |w.turns| && w.turns[t].phase.Queued? && w.turns[t].item !in w.starting
             && forall s :: 0 <= s < t && SameRecipe(w, s, t) ==> w.turns[s].phase.Released?
    ensures var w := Run(INIT, actions); var w' := Next(Next(w, Enter(t)), Capacity(t, true));
            && w'.live == w.live + {t} && w'.starting == w.starting + {w.turns[t].item} && w'.manual == w.manual
            && w'.lanes == w.lanes && w'.turns == w.turns[t := w.turns[t].(phase := Released)]
  {
    MayEnterExactlyInTurn(actions, t);
    hide Resolved, Run;
  }

  /** Without room, after an error, or with its item already marked a turn is over and nothing has started. */
  lemma RefusedTurnStartsNothing(w: World, t: nat)
    requires t < |w.turns|
    ensures IsChecking(w, t) ==>
              && Next(w, Capacity(t, false)) == w.(turns := w.turns[t := w.turns[t].(phase := Released)])
              && Next(w, Throw(t)) == Next(w, Capacity(t, false))
    ensures MayEnter(w, t) && w.turns[t].item in w.starting ==>
              Next(w, Enter(t)) == w.(turns := w.turns[t := w.turns[t].(phase := Released)])
  {
    hide Resolved;
  }

  // ----- an item started by turns of one recipe only

  /** The item gets no start without a turn, and all its turns are of one recipe. */
  predicate TurnsOf(actions: seq<Action>, recipe: nat, item: nat) {
    forall a :: a in actions ==> a != Manual(item) && (a.Arrive? && a.item == item ==> a.recipe == recipe)
  }

  predicate StartedBy(w: World, recipe: nat, item: nat) {
    item !in w.manual && forall t :: 0 <= t < |w.turns| && w.turns[t].item == item ==> w.turns[t].recipe == recipe
  }

  lemma StartedByNext(w: World, a: Action, recipe: nat, item: nat)
    requires StartedBy(w, recipe, item) && TurnsOf([a], recipe, item)
    ensures StartedBy(Next(w, a), recipe, item)
  {
    hide Resolved;
    assert a in [a];
  }

  lemma OwnTurnsNeverIntrude(w: World, a: Action, recipe: nat, item: nat)
    requires Orderly(w, item) && StartedBy(w, recipe, item)
    ensures !Intrudes(w, a, item)
  {
    hide Lane;
    if a.Capacity? && IsChecking(w, a.t) && w.turns[a.t].item == item {
      assert forall s :: s in w.live ==> !LiveOf(w, s, item);
      assert !UnderWay(w, item);
    }
  }

  lemma {:induction false} OneRecipeRun(w: World, actions: seq<Action>, recipe: nat, item: nat)
    requires Orderly(w, item) && StartedBy(w, recipe, item) && TurnsOf(actions, recipe, item)
    ensures NeverIntrudes(w, actions, item)
    decreases |actions|
  {
    hide Orderly, StartedBy, Next, Intrudes;
    if actions != [] {
      OwnTurnsNeverIntrude(w, actions[0], recipe, item);
      OrderlyNext(w, actions[0], item);
      StartedByNext(w, actions[0], recipe, item);
      OneRecipeRun(Next(w, actions[0]), actions[1..], recipe, item);
    }
  }

  /** Such an item never has two starts under way: the look inside the turn suffices. */
  lemma OneRecipeNeverStartsTwice(actions: seq<Action>, recipe: nat, item: nat, s: nat, t: nat)
    requires TurnsOf(actions, recipe, item)
    requires LiveOf(Run(INIT, actions), s, item) && LiveOf(Run(INIT, actions), t, item)
    ensures s == t && item !in Run(INIT, actions).manual
  {
    OneRecipeRun(INIT, actions, recipe, item);
    NoDoubleStart(actions, item, s, t);
  }

  const DOUBLE: seq<Action> :=
    [Arrive(0, 7), Enter(0), Manual(7), Capacity(0, true), ManualFinish(7), Arrive(0, 7), Enter(1), Capacity(1, true)]

  /**
   With a manual start of the same item it can happen: it marks the item between a turn's look and its capacity
   answer, and its end takes away the mark of both.
   */
  lemma ManualStartsBreakTheTurn()
    ensures var w := Run(INIT, DOUBLE);
            LiveOf(w, 0, 7) && LiveOf(w, 1, 7) && w.turns[0].recipe == w.turns[1].recipe
  {
  }
}
