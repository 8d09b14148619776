/**
 The one interactive focus of the connectors: a slot with a generation, taken by clicks and scrolls, and given
 back by the job that holds it. `State` is the slot, the counter, and the signals that were aborted.
 */
module FocusSlot {
  import opened Wrappers

  datatype Kind = Hydrate | LivePull | Older | Media | Receipt

  datatype Slot = Slot(thread: nat, generation: nat, kind: Kind)

  datatype State = State(slot: Option<Slot>, generation: nat, aborted: set<nat>)

  const INIT := State(None, 0, {})

  /** What a taker gets: its own job, the running job, that job's signal to work under, or a turn after it. */
  datatype Taken = Fresh(generation: nat) | Joined(generation: nat) | Borrowed(generation: nat) | Deferred(generation: nat)

  predicate Recent(kind: Kind) {
    kind.Hydrate? || kind.LivePull?
  }

  /** focusAlive: the signal is not aborted and the slot is still this generation's. */
  predicate Alive(s: State, generation: nat) {
    generation !in s.aborted && s.slot.Some? && s.slot.value.generation == generation
  }

  predicate Holds(s: State, thread: nat) {
    s.slot.Some? && s.slot.value.thread == thread && s.slot.value.generation !in s.aborted
  }

  /** The slot's job is told to stop and loses the slot. */
  function Cancel(s: State): State {
    if s.slot.None? then s else State(None, s.generation, s.aborted + {s.slot.value.generation})
  }

  function Install(s: State, thread: nat, kind: Kind): State {
    State(Some(Slot(thread, s.generation + 1, kind)), s.generation + 1, s.aborted)
  }

  function Take(s: State, thread: nat, kind: Kind): (State, Taken) {
    var mine := Holds(s, thread);
    if mine && (s.slot.value.kind == kind || (Recent(kind) && Recent(s.slot.value.kind))) then
      (s, Joined(s.slot.value.generation))
    else if mine && s.slot.value.kind.Older? then (s, Deferred(s.slot.value.generation))
    else if mine && Recent(s.slot.value.kind) && !kind.Older? then (s, Borrowed(s.slot.value.generation))
    else (Install(Cancel(s), thread, kind), Fresh(s.generation + 1))
  }

  datatype Action =
    | TakeFocus(thread: nat, kind: Kind)
    | AfterOlder(older: nat, thread: nat, kind: Kind)    // the turn after an older page has ended
    | Finish(generation: nat)                            // the job's finalizer
    | Note(thread: nat)                                  // another thread is now the interactive one
    | Abort                                              // dispose and store clear: the signal only
    | Reset                                              // maintenance: the signal and the slot

  function Next(s: State, a: Action): State {
    match a
    case TakeFocus(thread, kind) => Take(s, thread, kind).0
    case AfterOlder(older, thread, kind) =>
      if s.slot.Some? && s.slot.value.generation != older then s else Take(s, thread, kind).0
    case Finish(generation) => if s.slot.Some? && s.slot.value.generation == generation then s.(slot := None) else s
    case Note(thread) => if s.slot.Some? && s.slot.value.thread != thread then Cancel(s) else s
    case Abort => if s.slot.Some? then s.(aborted := s.aborted + {s.slot.value.generation}) else s
    case Reset => Cancel(s)
  }

  function Run(s: State, actions: seq<Action>): State
    decreases |actions|
  {
    if actions == [] then s else Run(Next(s, actions[0]), actions[1..])
  }

  predicate Inv(s: State) {
    && (s.slot.Some? ==> 1 <= s.slot.value.generation <= s.generation)
    && (forall g :: g in s.aborted ==> g <= s.generation)
  }

  // ----- the source's object

  class Focus {
    var slot: Option<Slot>
    var generation: nat
    var aborted: set<nat>

    ghost function Now(): State
      reads this
    {
      State(slot, generation, aborted)
    }

    constructor ()
      ensures Now() == INIT
    {
      slot, generation, aborted := None, 0, {};
    }

    method CancelSlot()
      requires slot.Some?
      modifies this
      ensures Now() == Cancel(old(Now()))
    {
      aborted := aborted + {slot.value.generation};
      slot := None;
    }

    method TakeFocus(thread: nat, kind: Kind) returns (taken: Taken)
      modifies this
      ensures (Now(), taken) == Take(old(Now()), thread, kind)
      ensures TakenRightly(old(Now()), thread, kind, taken)
    {
      if slot.Some? && slot.value.thread == thread && slot.value.generation !in aborted {
        if slot.value.kind == kind || (Recent(kind) && Recent(slot.value.kind)) {
          return Joined(slot.value.generation);
        }
        if kind.Older? && Recent(slot.value.kind) {
          CancelSlot();
          taken := InstallSlot(thread, kind);
          return;
        }
        if slot.value.kind.Older? {
          return Deferred(slot.value.generation);
        }
        if Recent(slot.value.kind) {
          return Borrowed(slot.value.generation);
        }
      }
      if slot.Some? {
        CancelSlot();
      }
      taken := InstallSlot(thread, kind);
    }

    method InstallSlot(thread: nat, kind: Kind) returns (taken: Taken)
      modifies this
      ensures Now() == Install(old(Now()), thread, kind) && taken == Fresh(old(generation) + 1)
    {
      generation := generation + 1;
      slot := Some(Slot(thread, generation, kind));
      taken := Fresh(generation);
    }

    method FinishJob(finished: nat)
      modifies this
      ensures Now() == Next(old(Now()), Finish(finished))
    {
      if slot.Some? && slot.value.generation == finished {
        slot := None;
      }
    }

    method NoteInteractiveFocus(thread: nat)
      modifies this
      ensures Now() == Next(old(Now()), Note(thread))
    {
      if slot.Some? && slot.value.thread != thread {
        CancelSlot();
      }
    }
  }

  // ----- what every run keeps

  lemma InvNext(s: State, a: Action)
    requires Inv(s)
    ensures Inv(Next(s, a))
    ensures s.generation <= Next(s, a).generation <= s.generation + 1
    ensures Next(s, a).generation > s.generation ==> Alive(Next(s, a), Next(s, a).generation)
  {
  }

  /** A generation that is not alive, and was once given out, is not alive after any step. */
  lemma DeadStaysDeadStep(s: State, a: Action, g: nat)
    requires Inv(s) && g <= s.generation && !Alive(s, g)
    ensures !Alive(Next(s, a), g)
  {
  }

  /** At most one generation is alive; and once one is not, it never is again, whatever old jobs and clicks still do. */
  lemma {:induction false} NeverRevives(s: State, g: nat, actions: seq<Action>)
    requires Inv(s) && g <= s.generation && !Alive(s, g)
    ensures !Alive(Run(s, actions), g)
    decreases |actions|
  {
    hide Inv, Alive, Next;
    if actions != [] {
      InvNext(s, actions[0]);
      DeadStaysDeadStep(s, actions[0], g);
      NeverRevives(Next(s, actions[0]), g, actions[1..]);
    }
  }

  lemma {:induction false} InvRun(s: State, actions: seq<Action>)
    requires Inv(s)
    ensures Inv(Run(s, actions)) && s.generation <= Run(s, actions).generation
    decreases |actions|
  {
    hide Inv, Next;
    if actions != [] {
      InvNext(s, actions[0]);
      InvRun(Next(s, actions[0]), actions[1..]);
    }
  }

  /** A later job's generation is larger, and the earlier job is dead from the moment the later one has the slot. */
  lemma NewestWins(actions: seq<Action>, thread: nat, kind: Kind, more: seq<Action>, g: nat)
    requires var s := Run(INIT, actions); Take(s, thread, kind).1.Fresh? && g <= s.generation
    ensures var s := Run(INIT, actions); var (taken, out) := Take(s, thread, kind);
            && out.generation > g && Alive(taken, out.generation) && !Alive(Run(taken, more), g)
  {
    var s := Run(INIT, actions);
    InvRun(INIT, actions);
    InvNext(s, TakeFocus(thread, kind));
    NeverRevives(Take(s, thread, kind).0, g, more);
  }

  // ----- every job is accounted for

  predicate Accounted(s: State, finished: set<nat>) {
    forall g: nat :: 1 <= g <= s.generation ==>
      g in s.aborted || g in finished || (s.slot.Some? && s.slot.value.generation == g)
  }

  function Finished(actions: seq<Action>): set<nat> {
    set a | a in actions && a.Finish? :: a.generation
  }

  lemma AccountedStep(s: State, a: Action, finished: set<nat>)
    requires Inv(s) && Accounted(s, finished)
    ensures Accounted(Next(s, a), if a.Finish? then finished + {a.generation} else finished)
  {
  }

  lemma {:induction false} AccountedRun(s: State, actions: seq<Action>, finished: set<nat>)
    requires Inv(s) && Accounted(s, finished)
    ensures Accounted(Run(s, actions), finished + Finished(actions))
    decreases |actions|
  {
    hide Inv, Accounted, Next;
    if actions == [] {
      assert finished + Finished(actions) == finished;
    } else {
      var a := actions[0];
      var more := if a.Finish? then finished + {a.generation} else finished;
      AccountedStep(s, a, finished);
      InvNext(s, a);
      AccountedRun(Next(s, a), actions[1..], more);
      assert actions == [a] + actions[1..];
      assert more + Finished(actions[1..]) == finished + Finished(actions);
    }
  }

  /** No job is forgotten: every generation ever given out was told to stop, has finished, or holds the slot. */
  lemma NoJobIsForgotten(actions: seq<Action>, g: nat)
    requires 1 <= g <= Run(INIT, actions).generation
    ensures var s := Run(INIT, actions);
            g in s.aborted || Finish(g) in actions || (s.slot.Some? && s.slot.value.generation == g)
  {
    AccountedRun(INIT, actions, {});
  }

  // ----- the interactive thread

  /** Nobody takes the focus for another thread. */
  predicate OnlyTakesFor(actions: seq<Action>, thread: nat) {
    forall i :: 0 <= i < |actions| ==>
      && (actions[i].TakeFocus? ==> actions[i].thread == thread)
      && (actions[i].AfterOlder? ==> actions[i].thread == thread)
  }

  predicate SlotOn(s: State, thread: nat) {
    s.slot.Some? ==> s.slot.value.thread == thread
  }

  lemma {:induction false} SlotStaysOn(s: State, thread: nat, actions: seq<Action>)
    requires SlotOn(s, thread) && OnlyTakesFor(actions, thread)
    ensures SlotOn(Run(s, actions), thread)
    decreases |actions|
  {
    if actions != [] {
      assert SlotOn(Next(s, actions[0]), thread);
      SlotStaysOn(Next(s, actions[0]), thread, actions[1..]);
    }
  }

  /** After a note of the interactive thread no other thread's job is alive until the focus is taken for that thread. */
  lemma OtherThreadsStayQuiet(s: State, thread: nat, actions: seq<Action>, g: nat)
    requires OnlyTakesFor(actions, thread) && Alive(Run(Next(s, Note(thread)), actions), g)
    ensures Run(Next(s, Note(thread)), actions).slot.value.thread == thread
  {
    SlotStaysOn(Next(s, Note(thread)), thread, actions);
  }

  /** Taking the focus leaves a living job of that thread in the slot, and no other thread's. */
  lemma TakenFocusIsOnTheThread(s: State, thread: nat, kind: Kind)
    requires Inv(s)
    ensures Holds(Take(s, thread, kind).0, thread)
    ensures Alive(Take(s, thread, kind).0, Take(s, thread, kind).1.generation)
  {
  }

  /**
   What a taker gets. Beside a living job of its thread: that job itself if it is of the same kind or both read the
   latest page; a turn after a scroll; the signal of a latest-page job, for a media drain or a receipt. In all other
   cases a job of its own, of a new generation, in the slot.
   */
  predicate TakenRightly(s: State, thread: nat, kind: Kind, taken: Taken) {
    var beside := s.slot.Some? && s.slot.value.thread == thread && s.slot.value.generation !in s.aborted;
    && (taken.Joined? <==>
          && beside
          && (|| s.slot.value.kind == kind
              || ((kind == Hydrate || kind == LivePull) && (s.slot.value.kind == Hydrate || s.slot.value.kind == LivePull))))
    && (taken.Deferred? <==> beside && s.slot.value.kind == Older && kind != Older)
    && (taken.Borrowed? <==>
          beside && (s.slot.value.kind == Hydrate || s.slot.value.kind == LivePull) && (kind == Media || kind == Receipt))
    && taken.generation == if taken.Fresh? then s.generation + 1 else if s.slot.Some? then s.slot.value.generation else 0
  }

  lemma TakesRightly(s: State, thread: nat, kind: Kind)
    ensures var (s', taken) := Take(s, thread, kind);
            && TakenRightly(s, thread, kind, taken)
            && (taken.Fresh? ==> s'.slot == Some(Slot(thread, taken.generation, kind)) && s'.generation == taken.generation
                                 && s'.aborted == s.aborted + if s.slot.Some? then {s.slot.value.generation} else {})
            && (!taken.Fresh? ==> s' == s)
  {
  }

  /** The slot is given back exactly by its job's finalizer, the note of another thread, and a reset. */
  lemma GivenBackExactly(s: State, a: Action)
    requires s.slot.Some?
    ensures Next(s, a).slot.None? <==>
            a == Finish(s.slot.value.generation) || (a.Note? && a.thread != s.slot.value.thread) || a.Reset?
  {
  }

  /** A deferred taker takes the focus exactly if nobody else took it since; otherwise it does nothing. */
  lemma DeferredTakesExactly(s: State, older: nat, thread: nat, kind: Kind)
    ensures var free := s.slot.None? || s.slot.value.generation == older;
            Next(s, AfterOlder(older, thread, kind)) == if free then Next(s, TakeFocus(thread, kind)) else s
  {
  }

  /**
   Who is cut off: a job of another thread always, a latest-page job only by a scroll, a scroll by nothing on its
   own thread, and a media drain or a receipt by every other kind.
   */
  predicate Cuts(held: Slot, thread: nat, kind: Kind) {
    || held.thread != thread
    || (Recent(held.kind) && kind.Older?)
    || (!Recent(held.kind) && !held.kind.Older? && held.kind != kind)
  }

  lemma CutOffExactly(s: State, thread: nat, kind: Kind, g: nat)
    requires Inv(s) && Alive(s, g)
    ensures !Alive(Take(s, thread, kind).0, g) <==> Cuts(s.slot.value, thread, kind)
  {
  }

  /** What ends a living job: its own finalizer, an abort or reset, the note of another thread, or a taker that cuts it off. */
  lemma EndedExactly(s: State, a: Action, g: nat)
    requires Inv(s) && Alive(s, g)
    ensures !Alive(Next(s, a), g) <==>
            || a == Finish(g) || a.Abort? || a.Reset?
            || (a.Note? && a.thread != s.slot.value.thread)
            || (a.TakeFocus? && Cuts(s.slot.value, a.thread, a.kind))
            || (a.AfterOlder? && a.older == g && Cuts(s.slot.value, a.thread, a.kind))
  {
  }

}
