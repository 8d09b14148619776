/**
 A batch of claimed sync work: rows grouped by installation, each group's lanes polled by bounded pools under a
 deadline, and every row settled by the time the batch is over. A schedule says in which order the workers of a
 pool get on; where it stops short, the deadline has passed, and what the workers still do afterwards comes late.
 */
module DueWork {
  import opened Wrappers
  import opened PollItem
  import opened WorkerPool

  /** The census and the streams have a deadline each. */
  datatype Error = Discovery | CensusDeadline | Opening | Threw | Deadline

  datatype Census = CensusDone | CensusFails | CensusLate

  predicate TimedOut(error: Option<Error>) {
    error == Some(Deadline) || error == Some(CensusDeadline)
  }

  /** What one installation's batch meets. */
  datatype Weather = Weather(
    census: Census,
    openOk: bool,                // the installation can be read
    usable: bool,                // enabled, with a driver that polls
    liveLimit: nat,
    historyLimit: nat,
    mediaLimit: nat,             // 0: media is not polled now
    first: seq<Step>,            // live and history workers, interleaved
    second: seq<Step>,            // media workers
    late: seq<Step>,             // whoever is left when the batch has been given up
    lateMedia: seq<Step>)        // media workers that start only then

  datatype Step = OnLive(action: Action) | OnHistory(action: Action) | OnMedia(action: Action)

  function OfInstallation(claimed: seq<Work>, installation: nat): seq<Work> {
    if claimed == [] then []
    else if claimed[0].installation == installation then [claimed[0]] + OfInstallation(claimed[1..], installation)
    else OfInstallation(claimed[1..], installation)
  }

  predicate DistinctIds(rows: seq<Work>) {
    forall i, j :: 0 <= i < j < |rows| ==> rows[i].id != rows[j].id
  }

  lemma {:induction false} GroupElements(claimed: seq<Work>, installation: nat)
    ensures forall item :: item in OfInstallation(claimed, installation) <==> item in claimed && item.installation == installation
    ensures DistinctIds(claimed) ==> DistinctIds(OfInstallation(claimed, installation))
  {
    if claimed != [] {
      GroupElements(claimed[1..], installation);
      if DistinctIds(claimed) {
        forall item | item in OfInstallation(claimed[1..], installation) ensures item.id != claimed[0].id {
          var k :| 0 <= k < |claimed[1..]| && claimed[1..][k] == item;
          assert claimed[k + 1] == item;
        }
      }
    }
  }

  function Lanes(rows: seq<Work>, lanes: set<Lane>): seq<Work> {
    if rows == [] then []
    else if rows[0].lane in lanes then [rows[0]] + Lanes(rows[1..], lanes)
    else Lanes(rows[1..], lanes)
  }

  lemma {:induction false} LaneElements(rows: seq<Work>, lanes: set<Lane>)
    ensures forall item :: item in Lanes(rows, lanes) <==> item in rows && item.lane in lanes
  {
    if rows != [] { LaneElements(rows[1..], lanes); }
  }

  /** Later settlements add rows and change none. */
  predicate Extends(later: map<nat, Outcome>, earlier: map<nat, Outcome>) {
    forall id :: id in earlier ==> id in later && later[id] == earlier[id]
  }

  /** What is new in the ledger are settlements of rows by their own polls. */
  ghost predicate OwnPolls(later: map<nat, Outcome>, earlier: map<nat, Outcome>, rows: seq<Work>, plane: Plane, answers: nat -> Answers) {
    && Extends(later, earlier)
    && (forall id :: id in later && id !in earlier ==>
          exists item :: item in rows && item.id == id && later[id] == Verdict(item.lane, plane, answers(id))
                         && OwnPoll(later[id], item, plane, answers))
  }

  /** A poll that threw has settled its row only by cancelling the claim. */
  predicate OwnPoll(outcome: Outcome, item: Work, plane: Plane, answers: nat -> Answers) {
    if RowThrows(item, plane, answers) then outcome == Cancelled
    else SettledRightly(outcome, item.lane, plane, answers(item.id))
  }

  lemma OwnPollsJoin(later: map<nat, Outcome>, mid: map<nat, Outcome>, earlier: map<nat, Outcome>, part: seq<Work>,
                     rows: seq<Work>, plane: Plane, answers: nat -> Answers)
    requires OwnPolls(later, mid, part, plane, answers) && OwnPolls(mid, earlier, rows, plane, answers)
    requires forall item :: item in part ==> item in rows
    ensures OwnPolls(later, earlier, rows, plane, answers)
  {
    hide Verdict, OwnPoll;
  }

  // ----- one pool

  predicate RowThrows(item: Work, plane: Plane, answers: nat -> Answers) {
    PollThrows(item.lane, plane, answers(item.id))
  }

  predicate HasFailed(pool: World) {
    exists w :: 0 <= w < |pool.workers| && pool.workers[w].Failed?
  }

  /** The pool is in order, what it finished is settled, and a worker fails only with a poll that throws. */
  predicate PoolOk(pool: World, limit: nat, rows: seq<Work>, plane: Plane, answers: nat -> Answers, ledger: map<nat, Outcome>) {
    && WorkerPool.Inv(pool, |rows|, limit)
    && (forall i :: i in pool.finished ==> i < |rows| && rows[i].id in ledger)
    && (HasFailed(pool) ==> exists item :: item in rows && RowThrows(item, plane, answers))
  }

  lemma StartOk(limit: nat, rows: seq<Work>, plane: Plane, answers: nat -> Answers, ledger: map<nat, Outcome>)
    ensures PoolOk(WorkerPool.Init(|rows|, limit), limit, rows, plane, answers, ledger)
  {
  }

  lemma PoolKeeps(pool: World, limit: nat, rows: seq<Work>, plane: Plane, answers: nat -> Answers,
                  before: map<nat, Outcome>, after: map<nat, Outcome>)
    requires PoolOk(pool, limit, rows, plane, answers, before) && Extends(after, before)
    ensures PoolOk(pool, limit, rows, plane, answers, after)
  {
    hide WorkerPool.Inv, RowThrows, HasFailed;
  }

  /** A pool whose workers have all stopped has settled every row. */
  lemma StoppedMeansSettled(pool: World, limit: nat, rows: seq<Work>, plane: Plane, answers: nat -> Answers, ledger: map<nat, Outcome>)
    requires PoolOk(pool, limit, rows, plane, answers, ledger) && AllStopped(pool) && limit >= 1
    ensures forall item :: item in rows ==> item.id in ledger
  {
    StoppedMeansFinished(pool, |rows|, limit);
    forall item | item in rows ensures item.id in ledger {
      var i :| 0 <= i < |rows| && rows[i] == item;
      assert i in pool.finished;
    }
  }

  /** One row of the pool is polled. */
  method PollRow(s: Streams, item: Work, rows: seq<Work>, plane: Plane, answers: nat -> Answers) returns (ok: bool)
    requires item in rows
    modifies s
    ensures ok ==> item.id in s.ledger
    ensures ok <==> !RowThrows(item, plane, answers)
    ensures OwnPolls(s.ledger, old(s.ledger), rows, plane, answers)
  {
    hide PollThrows, Verdict, SettledRightly, MayNotFinish, Reaches, Polls, Skips;
    ok := s.Poll(item, plane, answers(item.id));
  }

  /** One step of a worker: taking the next row, or the end of its poll. */
  method StepPool(s: Streams, pool: World, a: Action, ghost limit: nat, rows: seq<Work>, plane: Plane, answers: nat -> Answers)
    returns (next: World)
    requires PoolOk(pool, limit, rows, plane, answers, s.ledger)
    modifies s
    ensures PoolOk(next, limit, rows, plane, answers, s.ledger)
    ensures OwnPolls(s.ledger, old(s.ledger), rows, plane, answers)
  {
    hide RowThrows, OwnPoll, Verdict;
    var ok := true;
    if a.Complete? && a.w < |pool.workers| && pool.workers[a.w].Busy? {
      var item := rows[pool.workers[a.w].index];
      assert item in rows;
      ok := PollRow(s, item, rows, plane, answers);
      next := WorkerPool.Next(pool, Complete(a.w, ok));
      WorkerPool.InvNext(pool, Complete(a.w, ok), |rows|, limit);
    } else {
      next := WorkerPool.Next(pool, a);
      WorkerPool.InvNext(pool, a, |rows|, limit);
      assert HasFailed(next) ==> HasFailed(pool);
    }
  }

  // ----- one installation

  datatype Pools = Pools(live: World, history: World, media: Option<World>)

  /** The stream rows of one installation, by lane. */
  function LiveItems(rows: seq<Work>): seq<Work> { Lanes(rows, {Interactive, Live}) }
  function HistoryItems(rows: seq<Work>): seq<Work> { Lanes(rows, {History}) }
  function MediaItems(rows: seq<Work>): seq<Work> { Lanes(rows, {Media}) }

  /** The rows whose pools have been started. */
  function Among(rows: seq<Work>, media: bool): seq<Work> {
    if media then rows else LiveItems(rows) + HistoryItems(rows)
  }

  lemma AmongElements(rows: seq<Work>, media: bool)
    ensures forall item :: item in LiveItems(rows) || item in HistoryItems(rows) || (media && item in MediaItems(rows)) ==> item in Among(rows, media)
    ensures forall item :: item in Among(rows, media) ==> item in rows && (item.lane.Media? ==> media)
  {
    LaneElements(rows, {Interactive, Live});
    LaneElements(rows, {History});
    LaneElements(rows, {Media});
  }

  function AtLeastOne(n: nat): nat {
    if n == 0 then 1 else n
  }

  predicate PoolsOk(pools: Pools, weather: Weather, rows: seq<Work>, plane: Plane, answers: nat -> Answers, ledger: map<nat, Outcome>) {
    && PoolOk(pools.live, AtLeastOne(weather.liveLimit), LiveItems(rows), plane, answers, ledger)
    && PoolOk(pools.history, AtLeastOne(weather.historyLimit), HistoryItems(rows), plane, answers, ledger)
    && (pools.media.Some? ==> PoolOk(pools.media.value, weather.mediaLimit, MediaItems(rows), plane, answers, ledger))
  }

  lemma PoolsKeep(pools: Pools, weather: Weather, rows: seq<Work>, plane: Plane, answers: nat -> Answers,
                  before: map<nat, Outcome>, after: map<nat, Outcome>)
    requires PoolsOk(pools, weather, rows, plane, answers, before) && Extends(after, before)
    ensures PoolsOk(pools, weather, rows, plane, answers, after)
  {
    hide PoolOk;
    PoolKeeps(pools.live, AtLeastOne(weather.liveLimit), LiveItems(rows), plane, answers, before, after);
    PoolKeeps(pools.history, AtLeastOne(weather.historyLimit), HistoryItems(rows), plane, answers, before, after);
    if pools.media.Some? {
      PoolKeeps(pools.media.value, weather.mediaLimit, MediaItems(rows), plane, answers, before, after);
    }
  }

  /** The workers of all pools get on in the order of the schedule; a worker that throws leaves the others running. */
  method RunSteps(s: Streams, pools: Pools, schedule: seq<Step>, ghost weather: Weather, rows: seq<Work>, plane: Plane, answers: nat -> Answers)
    returns (next: Pools)
    requires PoolsOk(pools, weather, rows, plane, answers, s.ledger)
    modifies s
    ensures PoolsOk(next, weather, rows, plane, answers, s.ledger) && (next.media.Some? <==> pools.media.Some?)
    ensures OwnPolls(s.ledger, old(s.ledger), Among(rows, pools.media.Some?), plane, answers)
  {
    hide PoolOk, LiveItems, HistoryItems, MediaItems, Among, OwnPolls, Extends;
    next := pools;
    ghost var among := Among(rows, pools.media.Some?);
    SamePolls(s.ledger, among, plane, answers);
    AmongElements(rows, pools.media.Some?);
    for k := 0 to |schedule|
      invariant PoolsOk(next, weather, rows, plane, answers, s.ledger) && (next.media.Some? <==> pools.media.Some?)
      invariant OwnPolls(s.ledger, old(s.ledger), among, plane, answers)
    {
      ghost var ledger := s.ledger;
      match schedule[k] {
        case OnLive(a) =>
          var live := StepPool(s, next.live, a, AtLeastOne(weather.liveLimit), LiveItems(rows), plane, answers);
          OwnPollsExtend(s.ledger, ledger, LiveItems(rows), plane, answers);
          PoolsKeep(next, weather, rows, plane, answers, ledger, s.ledger);
          OwnPollsJoin(s.ledger, ledger, old(s.ledger), LiveItems(rows), among, plane, answers);
          next := next.(live := live);
        case OnHistory(a) =>
          var history := StepPool(s, next.history, a, AtLeastOne(weather.historyLimit), HistoryItems(rows), plane, answers);
          OwnPollsExtend(s.ledger, ledger, HistoryItems(rows), plane, answers);
          PoolsKeep(next, weather, rows, plane, answers, ledger, s.ledger);
          OwnPollsJoin(s.ledger, ledger, old(s.ledger), HistoryItems(rows), among, plane, answers);
          next := next.(history := history);
        case OnMedia(a) =>
          if next.media.Some? {
            var media := StepPool(s, next.media.value, a, weather.mediaLimit, MediaItems(rows), plane, answers);
            OwnPollsExtend(s.ledger, ledger, MediaItems(rows), plane, answers);
            PoolsKeep(next, weather, rows, plane, answers, ledger, s.ledger);
            OwnPollsJoin(s.ledger, ledger, old(s.ledger), MediaItems(rows), among, plane, answers);
            next := next.(media := Some(media));
          }
      }
    }
  }

  lemma SamePolls(ledger: map<nat, Outcome>, rows: seq<Work>, plane: Plane, answers: nat -> Answers)
    ensures OwnPolls(ledger, ledger, rows, plane, answers)
  {
  }

  lemma OwnPollsExtend(later: map<nat, Outcome>, earlier: map<nat, Outcome>, rows: seq<Work>, plane: Plane, answers: nat -> Answers)
    requires OwnPolls(later, earlier, rows, plane, answers)
    ensures Extends(later, earlier)
  {
  }

  /** What the pools come to: every row polled, a poll that threw, or no more time. */
  method Await(pools: seq<World>) returns (error: Option<Error>)
    ensures error.None? <==> forall k :: 0 <= k < |pools| ==> AllStopped(pools[k])
    ensures error == Some(Threw) <==> exists k :: 0 <= k < |pools| && HasFailed(pools[k])
    ensures error.Some? ==> error == Some(Threw) || error == Some(Deadline)
  {
    error := None;
    for k := 0 to |pools|
      invariant error.None? ==> forall i :: 0 <= i < k ==> AllStopped(pools[i])
      invariant error == Some(Deadline) ==> exists i :: 0 <= i < k && !AllStopped(pools[i])
      invariant error == None || error == Some(Deadline)
      invariant forall i :: 0 <= i < k ==> !HasFailed(pools[i])
    {
      if HasFailed(pools[k]) {
        var w :| 0 <= w < |pools[k].workers| && pools[k].workers[w].Failed?;
        assert !AllStopped(pools[k]);
        return Some(Threw);
      }
      if !AllStopped(pools[k]) { error := Some(Deadline); }
    }
  }

  /** The settlement of a row when nothing goes wrong for its installation. */
  function Own(item: Work, weather: Weather, plane: Plane, answers: nat -> Answers): Outcome {
    if item.lane.Catalog? then Rescan
    else if !weather.usable then Outcome.Failed
    else if item.lane.Media? && weather.mediaLimit == 0 then WrongPlane
    else Verdict(item.lane, plane, answers(item.id))
  }

  /** What is new in the ledger are the rows' own settlements. */
  ghost predicate OwnSettlements(later: map<nat, Outcome>, earlier: map<nat, Outcome>, rows: seq<Work>, weather: Weather,
                                 plane: Plane, answers: nat -> Answers)
  {
    && Extends(later, earlier)
    && (forall id :: id in later && id !in earlier ==>
          exists item :: item in rows && item.id == id && later[id] == Own(item, weather, plane, answers)
                         && OwnRight(later[id], item, weather, plane, answers))
  }

  method SettleAll(s: Streams, rows: seq<Work>, outcome: Outcome)
    modifies s
    ensures Extends(s.ledger, old(s.ledger))
    ensures forall item :: item in rows ==> item.id in s.ledger
    ensures forall id :: id in s.ledger && id !in old(s.ledger) ==> s.ledger[id] == outcome && exists item :: item in rows && item.id == id
  {
    for i := 0 to |rows|
      invariant Extends(s.ledger, old(s.ledger))
      invariant forall k :: 0 <= k < i ==> rows[k].id in s.ledger
      invariant forall id :: id in s.ledger && id !in old(s.ledger) ==> s.ledger[id] == outcome && exists item :: item in rows && item.id == id
    {
      assert rows[i] in rows;
      s.Settle(rows[i].id, outcome);
    }
  }

  lemma PollsAreSettlements(later: map<nat, Outcome>, mid: map<nat, Outcome>, earlier: map<nat, Outcome>, media: bool,
                            rows: seq<Work>, weather: Weather, plane: Plane, answers: nat -> Answers)
    requires OwnSettlements(mid, earlier, rows, weather, plane, answers)
    requires OwnPolls(later, mid, Among(rows, media), plane, answers)
    requires weather.usable && (media ==> weather.mediaLimit > 0) && forall item :: item in rows ==> !item.lane.Catalog?
    ensures OwnSettlements(later, earlier, rows, weather, plane, answers)
  {
    hide Verdict, OwnPoll, Among;
    AmongElements(rows, media);
  }

  /** The streams of one installation: live and history together, then media. */
  method PollStreams(s: Streams, rows: seq<Work>, weather: Weather, plane: Plane, answers: nat -> Answers)
    returns (error: Option<Error>, pools: Option<Pools>)
    requires forall item :: item in rows ==> !item.lane.Catalog?
    modifies s
    ensures OwnSettlements(s.ledger, old(s.ledger), rows, weather, plane, answers)
    ensures error.None? ==> forall item :: item in rows ==> item.id in s.ledger
    ensures error == Some(Threw) ==> exists item :: item in rows && RowThrows(item, plane, answers)
    ensures error == Some(Opening) ==> !weather.openOk
    ensures error != Some(Discovery) && error != Some(CensusDeadline)
    ensures error == Some(Opening) ==> s.ledger == old(s.ledger)
    ensures pools.Some? ==> weather.usable && PoolsOk(pools.value, weather, rows, plane, answers, s.ledger)
    ensures pools.Some? && pools.value.media.Some? ==> weather.mediaLimit > 0
  {
    hide Verdict, OwnPoll, PoolOk, RowThrows, OwnPolls, LiveItems, HistoryItems, MediaItems, Among;
    if !weather.openOk { return Some(Opening), None; }
    if !weather.usable {
      SettleAll(s, rows, Outcome.Failed);
      return None, None;
    }
    var live, history := LiveItems(rows), HistoryItems(rows);
    var started := Pools(WorkerPool.Init(|live|, AtLeastOne(weather.liveLimit)),
                         WorkerPool.Init(|history|, AtLeastOne(weather.historyLimit)), None);
    StartOk(AtLeastOne(weather.liveLimit), live, plane, answers, s.ledger);
    StartOk(AtLeastOne(weather.historyLimit), history, plane, answers, s.ledger);
    var first := RunSteps(s, started, weather.first, weather, rows, plane, answers);
    ghost var polled := s.ledger;
    PollsAreSettlements(polled, old(s.ledger), old(s.ledger), false, rows, weather, plane, answers);
    pools := Some(first);
    var running := [first.live, first.history];
    error := Await(running);
    assert running[0] == first.live && running[1] == first.history;
    if error.Some? {
      FirstPoolsFail(first, weather, rows, plane, answers, s.ledger, error.value);
      return;
    }
    FirstPoolsDone(first, weather, rows, plane, answers, s.ledger);
    var second := MediaTurn(s, first, weather.second, weather, rows, plane, answers);
    SettlementsJoin(s.ledger, polled, old(s.ledger), rows, weather, plane, answers);
    EveryStreamLane(rows);
    pools := Some(second);
    if second.media.Some? {
      running := [second.media.value];
      error := Await(running);
      assert running[0] == second.media.value;
      MediaPoolEnds(second.media.value, weather, rows, plane, answers, s.ledger, error);
    }
  }

  /** What follows the live and history pools: media rows are deferred, or get a pool of their own. */
  method MediaTurn(s: Streams, first: Pools, schedule: seq<Step>, weather: Weather, rows: seq<Work>, plane: Plane, answers: nat -> Answers)
    returns (pools: Pools)
    requires PoolsOk(first, weather, rows, plane, answers, s.ledger) && first.media.None?
    requires weather.usable && forall item :: item in rows ==> !item.lane.Catalog?
    modifies s
    ensures OwnSettlements(s.ledger, old(s.ledger), rows, weather, plane, answers)
    ensures PoolsOk(pools, weather, rows, plane, answers, s.ledger) && (pools.media.Some? <==> weather.mediaLimit > 0)
    ensures weather.mediaLimit == 0 ==> forall item :: item in MediaItems(rows) ==> item.id in s.ledger
  {
    hide Verdict, OwnPoll, PoolOk, RowThrows, OwnPolls, LiveItems, HistoryItems, MediaItems, Among;
    var media := MediaItems(rows);
    if weather.mediaLimit == 0 {
      SettleAll(s, media, WrongPlane);
      MediaSettlements(s.ledger, old(s.ledger), old(s.ledger), rows, weather, plane, answers);
      PoolsKeep(first, weather, rows, plane, answers, old(s.ledger), s.ledger);
      pools := first;
    } else {
      StartOk(weather.mediaLimit, media, plane, answers, s.ledger);
      pools := RunSteps(s, first.(media := Some(WorkerPool.Init(|media|, weather.mediaLimit))), schedule,
                        weather, rows, plane, answers);
      PollsAreSettlements(s.ledger, old(s.ledger), old(s.ledger), true, rows, weather, plane, answers);
    }
  }

  lemma SettlementsJoin(later: map<nat, Outcome>, mid: map<nat, Outcome>, earlier: map<nat, Outcome>, rows: seq<Work>,
                        weather: Weather, plane: Plane, answers: nat -> Answers)
    requires OwnSettlements(later, mid, rows, weather, plane, answers) && OwnSettlements(mid, earlier, rows, weather, plane, answers)
    ensures OwnSettlements(later, earlier, rows, weather, plane, answers)
  {
    hide Own, OwnRight;
  }

  lemma FirstPoolsFail(pools: Pools, weather: Weather, rows: seq<Work>, plane: Plane, answers: nat -> Answers,
                       ledger: map<nat, Outcome>, error: Error)
    requires PoolsOk(pools, weather, rows, plane, answers, ledger)
    requires error == Threw ==> HasFailed(pools.live) || HasFailed(pools.history)
    ensures error == Threw ==> exists item :: item in rows && RowThrows(item, plane, answers)
  {
    hide RowThrows, WorkerPool.Inv;
    LaneElements(rows, {Interactive, Live});
    LaneElements(rows, {History});
  }

  lemma FirstPoolsDone(pools: Pools, weather: Weather, rows: seq<Work>, plane: Plane, answers: nat -> Answers, ledger: map<nat, Outcome>)
    requires PoolsOk(pools, weather, rows, plane, answers, ledger) && AllStopped(pools.live) && AllStopped(pools.history)
    ensures forall item :: item in LiveItems(rows) || item in HistoryItems(rows) ==> item.id in ledger
  {
    hide PoolOk, LiveItems, HistoryItems;
    StoppedMeansSettled(pools.live, AtLeastOne(weather.liveLimit), LiveItems(rows), plane, answers, ledger);
    StoppedMeansSettled(pools.history, AtLeastOne(weather.historyLimit), HistoryItems(rows), plane, answers, ledger);
  }

  lemma MediaPoolEnds(pool: World, weather: Weather, rows: seq<Work>, plane: Plane, answers: nat -> Answers,
                      ledger: map<nat, Outcome>, error: Option<Error>)
    requires PoolOk(pool, weather.mediaLimit, MediaItems(rows), plane, answers, ledger) && weather.mediaLimit > 0
    requires (error.None? <==> AllStopped(pool)) && (error == Some(Threw) <==> HasFailed(pool))
    ensures error.None? ==> forall item :: item in MediaItems(rows) ==> item.id in ledger
    ensures error == Some(Threw) ==> exists item :: item in rows && RowThrows(item, plane, answers)
  {
    hide RowThrows, WorkerPool.Inv;
    LaneElements(rows, {Media});
    if error.None? { StoppedMeansSettled(pool, weather.mediaLimit, MediaItems(rows), plane, answers, ledger); }
  }

  lemma MediaSettlements(later: map<nat, Outcome>, mid: map<nat, Outcome>, earlier: map<nat, Outcome>, rows: seq<Work>,
                         weather: Weather, plane: Plane, answers: nat -> Answers)
    requires OwnSettlements(mid, earlier, rows, weather, plane, answers) && weather.usable && weather.mediaLimit == 0
    requires Extends(later, mid)
    requires forall id :: id in later && id !in mid ==> later[id] == WrongPlane && exists item :: item in MediaItems(rows) && item.id == id
    ensures OwnSettlements(later, earlier, rows, weather, plane, answers)
  {
    hide Verdict, OwnPoll;
    LaneElements(rows, {Media});
  }

  lemma EveryStreamLane(rows: seq<Work>)
    ensures forall item :: item in rows && !item.lane.Catalog? ==>
              item in LiveItems(rows) || item in HistoryItems(rows) || item in MediaItems(rows)
  {
    LaneElements(rows, {Interactive, Live});
    LaneElements(rows, {History});
    LaneElements(rows, {Media});
    forall item | item in rows && !item.lane.Catalog?
      ensures item in LiveItems(rows) || item in HistoryItems(rows) || item in MediaItems(rows)
    {
      EveryLane(item.lane);
    }
  }

  lemma EveryLane(lane: Lane)
    ensures lane in {Catalog} || lane in {Interactive, Live} || lane in {History} || lane in {Media}
  {
  }

  // ----- the batch

  /** Settlements by the rows' own branches, or by the catch block where something went wrong. */
  ghost predicate SettledOrCaught(ledger: map<nat, Outcome>, rows: seq<Work>, weather: Weather, plane: Plane,
                                  answers: nat -> Answers, error: Option<Error>)
  {
    forall item :: item in rows ==>
      && item.id in ledger
      && (|| ledger[item.id] == Own(item, weather, plane, answers)
          || (error.Some? && ledger[item.id] == if TimedOut(error) then Again else Outcome.Failed))
  }

  /** The error of an installation's batch is a real one. */
  predicate Explained(error: Option<Error>, rows: seq<Work>, weather: Weather, plane: Plane, answers: nat -> Answers) {
    && (error == Some(Discovery) ==> weather.census.CensusFails? && exists item :: item in rows && item.lane.Catalog?)
    && (error == Some(CensusDeadline) ==> weather.census.CensusLate? && exists item :: item in rows && item.lane.Catalog?)
    && (error == Some(Opening) ==> !weather.openOk)
    && (error == Some(Threw) ==> exists item :: item in rows && RowThrows(item, plane, answers))
  }

  /**
   What the error of an installation's batch means for its rows. Without one every row has its own settlement: the
   next census, what its poll came to, a deferral where media is not polled, or a failure where nothing can be. A
   census that failed fails every row, one that ran out of time leaves every row due at once; and an installation
   that cannot be read fails its stream rows.
   */
  predicate ErrorTells(ledger: map<nat, Outcome>, rows: seq<Work>, weather: Weather, plane: Plane, answers: nat -> Answers,
                       error: Option<Error>)
  {
    forall item :: item in rows ==> item.id in ledger && RowTells(ledger[item.id], item, weather, plane, answers, error)
  }

  predicate RowTells(outcome: Outcome, item: Work, weather: Weather, plane: Plane, answers: nat -> Answers, error: Option<Error>) {
    match error
    case Some(Discovery) => outcome == Outcome.Failed
    case Some(CensusDeadline) => outcome == Again
    case Some(Opening) => outcome == if item.lane.Catalog? then Rescan else Outcome.Failed
    case Some(Threw) => outcome == Outcome.Failed || OwnRight(outcome, item, weather, plane, answers)
    case Some(Deadline) => outcome == Again || OwnRight(outcome, item, weather, plane, answers)
    case None => OwnRight(outcome, item, weather, plane, answers)
  }

  /** The right settlement of a row. */
  predicate OwnRight(outcome: Outcome, item: Work, weather: Weather, plane: Plane, answers: nat -> Answers) {
    if item.lane.Catalog? then outcome == Rescan
    else if !weather.usable then outcome == Outcome.Failed
    else if item.lane.Media? && weather.mediaLimit == 0 then outcome == WrongPlane
    else OwnPoll(outcome, item, plane, answers)
  }

  /** The try block of one installation. */
  method TryGroup(s: Streams, rows: seq<Work>, weather: Weather, plane: Plane, answers: nat -> Answers)
    returns (error: Option<Error>, pools: Option<Pools>)
    modifies s
    ensures OwnSettlements(s.ledger, old(s.ledger), rows, weather, plane, answers)
    ensures error.None? ==> forall item :: item in rows ==> item.id in s.ledger
    ensures Explained(error, rows, weather, plane, answers)
    ensures error == Some(Discovery) || error == Some(CensusDeadline) ==> s.ledger == old(s.ledger)
    ensures error == Some(Opening) ==>
              && (forall item :: item in rows && item.lane.Catalog? ==> item.id in s.ledger)
              && (forall id :: id in s.ledger && id !in old(s.ledger) ==>
                    s.ledger[id] == Rescan && exists item :: item in rows && item.id == id && item.lane.Catalog?)
    ensures pools.Some? ==> weather.usable && PoolsOk(pools.value, weather, StreamWork(rows), plane, answers, s.ledger)
    ensures pools.Some? && pools.value.media.Some? ==> weather.mediaLimit > 0
  {
    hide Verdict, OwnPoll, RowThrows, PoolsOk, Lanes, OwnPolls, Among;
    var catalogWork, streamWork := Lanes(rows, {Catalog}), StreamWork(rows);
    LaneElements(rows, {Catalog});
    LaneElements(rows, {Interactive, Live, History, Media});
    CatalogOrStream(rows);
    if catalogWork != [] && !weather.census.CensusDone? {
      assert catalogWork[0] in catalogWork;
      return Some(if weather.census.CensusFails? then Discovery else CensusDeadline), None;
    }
    SettleAll(s, catalogWork, Rescan);
    ghost var census := s.ledger;
    if streamWork == [] { return None, None; }
    error, pools := PollStreams(s, streamWork, weather, plane, answers);
    GroupSettlements(s.ledger, census, old(s.ledger), rows, weather, plane, answers);
  }

  function StreamWork(rows: seq<Work>): seq<Work> { Lanes(rows, {Interactive, Live, History, Media}) }

  lemma CatalogOrStream(rows: seq<Work>)
    ensures forall item :: item in rows ==> item in Lanes(rows, {Catalog}) || item in StreamWork(rows)
  {
    LaneElements(rows, {Catalog});
    LaneElements(rows, {Interactive, Live, History, Media});
    forall item | item in rows ensures item in Lanes(rows, {Catalog}) || item in StreamWork(rows) {
      EveryLane(item.lane);
    }
  }

  lemma GroupSettlements(later: map<nat, Outcome>, mid: map<nat, Outcome>, earlier: map<nat, Outcome>, rows: seq<Work>,
                         weather: Weather, plane: Plane, answers: nat -> Answers)
    requires Extends(mid, earlier) && OwnSettlements(later, mid, StreamWork(rows), weather, plane, answers)
    requires forall id :: id in mid && id !in earlier ==> mid[id] == Rescan && exists item :: item in Lanes(rows, {Catalog}) && item.id == id
    ensures OwnSettlements(later, earlier, rows, weather, plane, answers)
  {
    hide Verdict, OwnPoll;
    LaneElements(rows, {Catalog});
    LaneElements(rows, {Interactive, Live, History, Media});
  }

  /**
   One installation: the census, the streams, and the catch block that settles whatever has no settlement. Polls
   still running when the batch is given up finish late, and change nothing any more.
   */
  method RunGroup(s: Streams, rows: seq<Work>, weather: Weather, plane: Plane, answers: nat -> Answers) returns (error: Option<Error>)
    requires DistinctIds(rows) && forall item :: item in rows ==> item.id !in s.ledger
    modifies s
    ensures Extends(s.ledger, old(s.ledger))
    ensures forall id :: id in s.ledger && id !in old(s.ledger) ==> exists item :: item in rows && item.id == id
    ensures SettledOrCaught(s.ledger, rows, weather, plane, answers, error)
    ensures ErrorTells(s.ledger, rows, weather, plane, answers, error)
    ensures Explained(error, rows, weather, plane, answers)
  {
    hide Own, OwnRight, ErrorTells, PoolsOk, OwnPolls, Among, DistinctIds, Explained, StreamWork;
    var pools;
    error, pools := TryGroup(s, rows, weather, plane, answers);
    ghost var tried := s.ledger;
    if error.Some? {
      SettleAll(s, rows, if TimedOut(error) then Again else Outcome.Failed);
    }
    OneRowEach(rows);
    assert SettledOrCaught(s.ledger, rows, weather, plane, answers, error);
    ErrorDecides(s.ledger, tried, old(s.ledger), rows, weather, plane, answers, error);
    if pools.Some? {
      StreamRows(rows);
      PoolsKeep(pools.value, weather, StreamWork(rows), plane, answers, tried, s.ledger);
      var _ := FinishLate(s, pools.value, weather, StreamWork(rows), plane, answers);
    }
  }

  lemma ErrorDecides(settled: map<nat, Outcome>, tried: map<nat, Outcome>, before: map<nat, Outcome>, rows: seq<Work>,
                     weather: Weather, plane: Plane, answers: nat -> Answers, error: Option<Error>)
    requires OwnSettlements(tried, before, rows, weather, plane, answers) && Extends(settled, tried)
    requires forall item, other :: item in rows && other in rows && item.id == other.id ==> item == other
    requires forall item :: item in rows ==> item.id !in before && item.id in settled
    requires error.None? ==> settled == tried
    requires forall id :: id in settled && id !in tried ==> settled[id] == if TimedOut(error) then Again else Outcome.Failed
    requires error == Some(Discovery) || error == Some(CensusDeadline) ==> tried == before
    requires error == Some(Opening) ==>
               && (forall item :: item in rows && item.lane.Catalog? ==> item.id in tried)
               && (forall id :: id in tried && id !in before ==>
                     tried[id] == Rescan && exists item :: item in rows && item.id == id && item.lane.Catalog?)
    ensures ErrorTells(settled, rows, weather, plane, answers, error)
  {
    hide Own, OwnRight;
  }

  lemma StreamRows(rows: seq<Work>)
    ensures forall item :: item in StreamWork(rows) ==> item in rows && !item.lane.Catalog?
  {
    LaneElements(rows, {Interactive, Live, History, Media});
  }

  /**
   What goes on behind the catch block: the workers that are left, and, once live and history are through, the
   media rows. Every row has its settlement by now, and keeps it.
   */
  method FinishLate(s: Streams, pools: Pools, weather: Weather, rows: seq<Work>, plane: Plane, answers: nat -> Answers)
    returns (left: Pools)
    requires PoolsOk(pools, weather, rows, plane, answers, s.ledger) && weather.usable
    requires pools.media.Some? ==> weather.mediaLimit > 0
    requires forall item :: item in rows ==> !item.lane.Catalog? && item.id in s.ledger
    modifies s
    ensures s.ledger == old(s.ledger)
    ensures PoolsOk(left, weather, rows, plane, answers, s.ledger)
  {
    hide PoolsOk, Own, OwnPolls, OwnSettlements, Among, AllStopped;
    SameSettlements(s.ledger, rows, weather, plane, answers);
    left := RunSteps(s, pools, weather.late, weather, rows, plane, answers);
    PollsAreSettlements(s.ledger, old(s.ledger), old(s.ledger), pools.media.Some?, rows, weather, plane, answers);
    LateChangesNothing(s.ledger, old(s.ledger), rows, weather, plane, answers);
    if left.media.None? && AllStopped(left.live) && AllStopped(left.history) {
      left := MediaTurn(s, left, weather.lateMedia, weather, rows, plane, answers);
      LateChangesNothing(s.ledger, old(s.ledger), rows, weather, plane, answers);
    }
  }

  lemma SameSettlements(ledger: map<nat, Outcome>, rows: seq<Work>, weather: Weather, plane: Plane, answers: nat -> Answers)
    ensures OwnSettlements(ledger, ledger, rows, weather, plane, answers)
  {
  }

  /** What comes after a row was settled by the catch block leaves the row as it is. */
  lemma LateChangesNothing(later: map<nat, Outcome>, settled: map<nat, Outcome>, rows: seq<Work>,
                           weather: Weather, plane: Plane, answers: nat -> Answers)
    requires OwnSettlements(later, settled, rows, weather, plane, answers)
    requires forall item :: item in rows ==> item.id in settled
    ensures later == settled
  {
    hide Own, OwnRight;
  }

  lemma OneRowEach(rows: seq<Work>)
    requires DistinctIds(rows)
    ensures forall item, other :: item in rows && other in rows && item.id == other.id ==> item == other
  {
  }

  function Installations(claimed: seq<Work>): seq<nat> {
    if claimed == [] then []
    else
      var rest := Installations(claimed[..|claimed| - 1]);
      var last := claimed[|claimed| - 1].installation;
      if last in rest then rest else rest + [last]
  }

  lemma {:induction false} InstallationElements(claimed: seq<Work>)
    ensures forall item :: item in claimed ==> item.installation in Installations(claimed)
    ensures forall i, j :: 0 <= i < j < |Installations(claimed)| ==> Installations(claimed)[i] != Installations(claimed)[j]
    decreases |claimed|
  {
    if claimed != [] {
      InstallationElements(claimed[..|claimed| - 1]);
      assert claimed == claimed[..|claimed| - 1] + [claimed[|claimed| - 1]];
    }
  }

  /**
   Every claimed row is settled by the time the batch is over, through all branches of its poll, exceptions and
   deadlines. A row has the settlement of its own branch; only where its installation's batch ended in a real
   error may it have that of the catch block.
   */
  method ExecuteClaimedDueWork(s: Streams, claimed: seq<Work>, weather: nat -> Weather, plane: Plane, answers: nat -> Answers)
    returns (errors: map<nat, Option<Error>>)
    requires DistinctIds(claimed) && s.ledger == map[]
    modifies s
    ensures forall item :: item in claimed ==> item.installation in errors && item.id in s.ledger
    ensures forall item :: item in claimed && s.ledger[item.id] == Succeeded ==> item.lane == History && !answers(item.id).historyDuty
    ensures forall i :: i in errors ==>
              && SettledOrCaught(s.ledger, OfInstallation(claimed, i), weather(i), plane, answers, errors[i])
              && Explained(errors[i], OfInstallation(claimed, i), weather(i), plane, answers)
              && ErrorTells(s.ledger, OfInstallation(claimed, i), weather(i), plane, answers, errors[i])
  {
    hide SettledOrCaught, ErrorTells, RowTells, Explained, DistinctIds, OfInstallation, Installations;
    var groups := Installations(claimed);
    InstallationElements(claimed);
    OneRowEach(claimed);
    errors := map[];
    for g := 0 to |groups|
      invariant forall i :: i in errors <==> i in groups[..g]
      invariant forall id :: id in s.ledger ==> exists item :: item in claimed && item.id == id && item.installation in groups[..g]
      invariant forall i :: i in errors ==>
                  && SettledOrCaught(s.ledger, OfInstallation(claimed, i), weather(i), plane, answers, errors[i])
                  && Explained(errors[i], OfInstallation(claimed, i), weather(i), plane, answers)
                  && ErrorTells(s.ledger, OfInstallation(claimed, i), weather(i), plane, answers, errors[i])
    {
      var i := groups[g];
      var rows := OfInstallation(claimed, i);
      GroupElements(claimed, i);
      ghost var before := s.ledger;
      var error := RunGroup(s, rows, weather(i), plane, answers);
      forall k | k in errors
        ensures SettledOrCaught(s.ledger, OfInstallation(claimed, k), weather(k), plane, answers, errors[k])
        ensures ErrorTells(s.ledger, OfInstallation(claimed, k), weather(k), plane, answers, errors[k])
      {
        CaughtStays(s.ledger, before, OfInstallation(claimed, k), weather(k), plane, answers, errors[k]);
      }
      errors := errors[i := error];
      assert groups[..g + 1] == groups[..g] + [i];
    }
    assert groups[..|groups|] == groups;
    forall item | item in claimed
      ensures item.id in s.ledger && (s.ledger[item.id] == Succeeded ==> item.lane == History && !answers(item.id).historyDuty)
    {
      var i := item.installation;
      GroupElements(claimed, i);
      assert item.id in s.ledger && RowTells(s.ledger[item.id], item, weather(i), plane, answers, errors[i]) by {
        assert ErrorTells(s.ledger, OfInstallation(claimed, i), weather(i), plane, answers, errors[i]);
        RowOfGroup(s.ledger, OfInstallation(claimed, i), weather(i), plane, answers, errors[i], item);
      }
      SucceededOwesNothing(s.ledger[item.id], item, weather(i), plane, answers, errors[i]);
    }
  }

  lemma SucceededOwesNothing(outcome: Outcome, item: Work, weather: Weather, plane: Plane, answers: nat -> Answers, error: Option<Error>)
    ensures RowTells(outcome, item, weather, plane, answers, error) && outcome == Succeeded ==>
              item.lane == History && !answers(item.id).historyDuty
  {
  }

  lemma RowOfGroup(ledger: map<nat, Outcome>, rows: seq<Work>, weather: Weather, plane: Plane, answers: nat -> Answers,
                   error: Option<Error>, item: Work)
    ensures ErrorTells(ledger, rows, weather, plane, answers, error) && item in rows ==>
              item.id in ledger && RowTells(ledger[item.id], item, weather, plane, answers, error)
  {
    hide RowTells;
  }

  lemma CaughtStays(later: map<nat, Outcome>, earlier: map<nat, Outcome>, rows: seq<Work>, weather: Weather, plane: Plane,
                    answers: nat -> Answers, error: Option<Error>)
    requires SettledOrCaught(earlier, rows, weather, plane, answers, error) && Extends(later, earlier)
    ensures SettledOrCaught(later, rows, weather, plane, answers, error)
    ensures ErrorTells(earlier, rows, weather, plane, answers, error) ==> ErrorTells(later, rows, weather, plane, answers, error)
  {
    hide Own, RowTells;
  }
}
