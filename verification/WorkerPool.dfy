/** A bounded pool: workers share one counter, and each await of a worker's job is a step. */
module WorkerPool {
  datatype Worker = Ready | Busy(index: nat) | Stopped | Failed

  /** `started` and `finished` list indexes in the order of their events. */
  datatype World = World(size: nat, next: nat, workers: seq<Worker>, started: seq<nat>, finished: seq<nat>)

  datatype Action =
    | Proceed(w: nat)             // the loop's test, and the next index if there is one
    | Complete(w: nat, ok: bool)

  function Min(a: nat, b: nat): nat {
    if a < b then a else b
  }

  function Init(size: nat, limit: nat): World {
    World(size, 0, seq(Min(limit, size), i => Ready), [], [])
  }

  function Next(p: World, a: Action): World {
    match a
    case Proceed(w) =>
      if !(w < |p.workers| && p.workers[w].Ready?) then p
      else if p.next >= p.size then p.(workers := p.workers[w := Stopped])
      else p.(next := p.next + 1, workers := p.workers[w := Busy(p.next)], started := p.started + [p.next])
    case Complete(w, ok) =>
      if !(w < |p.workers| && p.workers[w].Busy?) then p
      else if ok then p.(workers := p.workers[w := Ready], finished := p.finished + [p.workers[w].index])
      else p.(workers := p.workers[w := Failed])
  }

  function Run(p: World, actions: seq<Action>): World
    decreases |actions|
  {
    if actions == [] then p else Run(Next(p, actions[0]), actions[1..])
  }

  function InFlight(workers: seq<Worker>): nat {
    if workers == [] then 0 else (if workers[0].Busy? then 1 else 0) + InFlight(workers[1..])
  }

  predicate Distinct(s: seq<nat>) {
    forall i, j :: 0 <= i < j < |s| ==> s[i] != s[j]
  }

  /** What the counter, the workers and the lists say of each other. */
  predicate Booked(p: World, size: nat, limit: nat) {
    && p.size == size && |p.workers| == Min(limit, size)
    && |p.started| == p.next <= p.size && (forall i :: 0 <= i < p.next ==> p.started[i] == i)
    && Distinct(p.finished) && (forall i :: i in p.finished ==> i < p.next)
    && (forall w :: 0 <= w < |p.workers| && p.workers[w].Busy? ==> p.workers[w].index < p.next && p.workers[w].index !in p.finished)
    && (forall v, w :: 0 <= v < w < |p.workers| && p.workers[v].Busy? && p.workers[w].Busy? ==> p.workers[v].index != p.workers[w].index)
    && (forall w :: 0 <= w < |p.workers| && p.workers[w].Stopped? ==> p.next == p.size)
  }

  predicate Working(p: World, i: nat) {
    exists w :: 0 <= w < |p.workers| && p.workers[w] == Busy(i)
  }

  /** Nothing given out is lost, unless a worker threw. */
  predicate Covered(p: World) {
    || (exists w :: 0 <= w < |p.workers| && p.workers[w].Failed?)
    || (forall i :: 0 <= i < p.next ==> i in p.finished || Working(p, i))
  }

  predicate Inv(p: World, size: nat, limit: nat) {
    Booked(p, size, limit) && Covered(p)
  }

  lemma BookedNext(p: World, a: Action, size: nat, limit: nat)
    requires Booked(p, size, limit)
    ensures Booked(Next(p, a), size, limit)
  {
  }

  lemma CoveredNext(p: World, a: Action)
    requires Covered(p)
    ensures Covered(Next(p, a))
  {
    var q := Next(p, a);
    if a.w < |p.workers| && q != p {
      assert forall w :: 0 <= w < |p.workers| && w != a.w ==> q.workers[w] == p.workers[w];
      if w :| 0 <= w < |p.workers| && p.workers[w].Failed? {
        assert q.workers[w].Failed?;
      } else if !q.workers[a.w].Failed? {
        forall i | 0 <= i < q.next ensures i in q.finished || Working(q, i) {
          if i == p.next {
            assert q.workers[a.w] == Busy(i);
          } else if i !in p.finished {
            var w :| 0 <= w < |p.workers| && p.workers[w] == Busy(i);
            if w == a.w {
              assert q.finished[|p.finished|] == i;
            } else {
              assert q.workers[w] == Busy(i);
            }
          } else {
            assert i in q.finished;
          }
        }
      }
    }
  }

  lemma InvNext(p: World, a: Action, size: nat, limit: nat)
    requires Inv(p, size, limit)
    ensures Inv(Next(p, a), size, limit)
  {
    hide Booked, Covered, Next;
    BookedNext(p, a, size, limit);
    CoveredNext(p, a);
  }

  lemma {:induction false} InvRun(p: World, actions: seq<Action>, size: nat, limit: nat)
    requires Inv(p, size, limit)
    ensures Inv(Run(p, actions), size, limit)
    decreases |actions|
  {
    hide Inv, Next;
    if actions != [] {
      InvNext(p, actions[0], size, limit);
      InvRun(Next(p, actions[0]), actions[1..], size, limit);
    }
  }

  /** Every index is given out at most once and in order, and at most `limit` are under way. */
  lemma EachIndexAtMostOnce(size: nat, limit: nat, actions: seq<Action>)
    ensures var p := Run(Init(size, limit), actions);
            Distinct(p.started) && Distinct(p.finished) && InFlight(p.workers) <= limit && forall i :: i in p.started ==> i < size
  {
    InvRun(Init(size, limit), actions, size, limit);
    InFlightBound(Run(Init(size, limit), actions).workers);
  }

  lemma {:induction false} InFlightBound(workers: seq<Worker>)
    ensures InFlight(workers) <= |workers|
  {
    if workers != [] { InFlightBound(workers[1..]); }
  }

  predicate AllStopped(p: World) {
    forall w :: 0 <= w < |p.workers| ==> p.workers[w].Stopped?
  }

  /** Then nothing was left out. */
  lemma StoppedMeansFinished(p: World, size: nat, limit: nat)
    requires Inv(p, size, limit) && AllStopped(p) && limit >= 1
    ensures forall i :: i in p.finished <==> 0 <= i < size
  {
    if size > 0 { assert p.workers[0].Stopped?; }
  }

  /** When every worker has come to its end without a throw, every index has been worked on exactly once. */
  lemma EachIndexExactlyOnce(size: nat, limit: nat, actions: seq<Action>)
    requires limit >= 1 && AllStopped(Run(Init(size, limit), actions))
    ensures var p := Run(Init(size, limit), actions);
            Distinct(p.finished) && forall i :: i in p.finished <==> 0 <= i < size
  {
    InvRun(Init(size, limit), actions, size, limit);
    StoppedMeansFinished(Run(Init(size, limit), actions), size, limit);
  }
}
