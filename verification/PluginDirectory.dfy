/**
 The plugin directory as the startup pass changes it, one rename or remove at a time. Each primitive
 needs one unit of `fuel`; running out stands for a primitive that throws, or for the process dying.
 */
module PluginDirectory {
  import opened Wrappers
  import opened MarketFiles
  import opened MarketSwitch

  /** Pruning removed `removed` of the accepted entries beyond the three newest, and nothing else. */
  ghost predicate PrunedArchive(before: map<string, Package>, after: map<string, Package>, packageName: string,
                                history: seq<string>, removed: nat) {
    && IsHistory(before, packageName, history)
    && 3 + removed <= (if |history| < 3 then 3 else |history|)
    && after == before - (set i | 3 <= i < 3 + removed && i < |history| :: history[i])
  }

  ghost predicate Pruned(before: Home, after: Home, packageName: string, history: seq<string>, removed: nat) {
    && PrunedArchive(before.archive, after.archive, packageName, history, removed)
    && after == before.(archive := after.archive)
  }

  /** The transaction that a pass acts on: recorded, well-formed, and filed under its own package. */
  function Actionable(h: Home, key: string): Option<Change> {
    if h.transaction.Some? && h.transaction.value.Recorded?
       && IsSafeTransaction(h.transaction.value.change) && h.transaction.value.change.packageName == key
    then Some(h.transaction.value.change) else None
  }

  ghost predicate PrunedSomehow(before: Home, after: Home, packageName: string) {
    exists history, removed: nat :: Pruned(before, after, packageName, history, removed)
  }

  /** `h'` is `h` after its recorded change was worked on for `n` steps and then possibly pruned. */
  ghost predicate WorkedOn(h: Home, h': Home, key: string, n: nat) {
    match Actionable(h, key)
    case None => h' == h
    case Some(c) =>
      || h' == After(h, c, n)
      || (n == |Trace(h, c)| && After(h, c, n).transaction.None? && PrunedSomehow(After(h, c, n), h', key))
  }

  /** The same for some number of steps: all of them if `whole`. */
  ghost predicate Worked(h: Home, h': Home, key: string, whole: bool) {
    exists n: nat :: WorkedOn(h, h', key, n) &&
      (whole && Actionable(h, key).Some? ==> n == |Trace(h, Actionable(h, key).value)|)
  }

  lemma InsertedInOrder(archive: map<string, Package>, key: string, history: seq<string>, entry: string, at: nat)
    requires Listed(archive, key, entry) && entry !in history
    requires NewestFirst(archive, key, history)
    requires at <= |history|
    requires forall i :: 0 <= i < at ==> InstalledAt(archive, history[i]) >= InstalledAt(archive, entry)
    requires at < |history| ==> InstalledAt(archive, history[at]) <= InstalledAt(archive, entry)
    ensures var r := history[..at] + [entry] + history[at..];
            NewestFirst(archive, key, r) && forall d :: d in r <==> d in history || d == entry
  {
  }

  /** Steps left before a primitive throws or the process dies; `None` when nothing goes wrong. */
  type Fuel = Option<nat>

  function Spend(fuel: Fuel): Fuel
    requires fuel != Some(0)
  {
    if fuel.None? then None else Some(fuel.value - 1)
  }

  /** Whatever left the archive, three other entries at least as new are still there. */
  ghost predicate ThreeNewerKept(before: map<string, Package>, after: map<string, Package>, key: string) {
    forall d :: d in before && d !in after ==> Listed(before, key, d) && exists a, b, c :: NewerThree(before, after, key, d, a, b, c)
  }

  ghost predicate NewerThree(before: map<string, Package>, after: map<string, Package>, key: string, d: string, a: string, b: string, c: string)
  {
    && a != b && b != c && a != c && a in after && b in after && c in after
    && Listed(before, key, a) && Listed(before, key, b) && Listed(before, key, c) && Listed(before, key, d)
    && InstalledAt(before, a) >= InstalledAt(before, d) && InstalledAt(before, b) >= InstalledAt(before, d)
    && InstalledAt(before, c) >= InstalledAt(before, d)
  }

  /** Pruning never removes one of the three newest. */
  lemma NewestThreeStay(before: map<string, Package>, after: map<string, Package>, key: string, history: seq<string>, removed: nat)
    requires PrunedArchive(before, after, key, history, removed)
    ensures ThreeNewerKept(before, after, key)
  {
    forall d | d in before && d !in after
      ensures Listed(before, key, d) && exists a, b, c :: NewerThree(before, after, key, d, a, b, c)
    {
      assert NewerThree(before, after, key, d, history[0], history[1], history[2]);
    }
  }

  ghost predicate AtMostThreeListed(archive: map<string, Package>, packageName: string) {
    exists kept: seq<string> :: |kept| <= 3 && forall d :: Listed(archive, packageName, d) ==> d in kept
  }

  lemma ThreeStay(before: Home, after: Home, key: string, history: seq<string>, removed: nat)
    requires Pruned(before, after, key, history, removed) && 3 + removed >= |history|
    ensures AtMostThreeListed(after.archive, key)
  {
    var kept := history[..if |history| < 3 then |history| else 3];
    forall d | Listed(after.archive, key, d) ensures d in kept {
      assert Listed(before.archive, key, d);
      var k :| 0 <= k < |history| && history[k] == d;
    }
  }

  /** The stage of a package without a transaction file is swept; no other stage is. */
  function Swept(h: Home): Home {
    if h.transaction.None? then h.(stage := None) else h
  }

  /** `h'` is `h` after one pass: worked on, then swept or not. */
  ghost predicate PassedOver(h: Home, h': Home, key: string, whole: bool) {
    exists worked :: Worked(h, worked, key, whole) && (h' == worked || h' == Swept(worked))
  }

  /** Committed, up to the pruning of archived versions and the sweep of a stage no change refers to. */
  ghost predicate CommittedAndPruned(h: Home, h': Home, c: Change)
    requires InFlight(h, c)
  {
    && TargetIntact(ShelfOf(h, c), c)
    && h'.transaction.None? && h'.current == Some(Commit(ShelfOf(h, c), c).active)
    && (h'.stage == Commit(ShelfOf(h, c), c).staged || h'.stage == None)
    && (|| h'.archive == Commit(ShelfOf(h, c), c).archive
        || exists history, removed: nat :: PrunedArchive(Commit(ShelfOf(h, c), c).archive, h'.archive, c.packageName, history, removed))
  }

  /**
   Whatever happens during a pass, a package in the middle of a switch keeps its versions and its
   recorded change, or the switch is done. A whole pass decides by the target: an intact one becomes
   active, otherwise the old version is the active one again.
   */
  lemma PassKeepsOrCommits(h: Home, h': Home, c: Change, whole: bool)
    requires InFlight(h, c) && PassedOver(h, h', c.packageName, whole)
    ensures Undecided(h, h', c) || CommittedAndPruned(h, h', c)
    ensures whole && TargetIntact(ShelfOf(h, c), c) ==> CommittedAndPruned(h, h', c)
    ensures whole && !TargetIntact(ShelfOf(h, c), c) ==> Undecided(h, h', c) && Untouched(h', c)
  {
    hide PrunedSomehow, Trace, ShelfOf, Commit;
    FullCompletion(h, c);
    var worked :| Worked(h, worked, c.packageName, whole) && (h' == worked || h' == Swept(worked));
    var n: nat :| WorkedOn(h, worked, c.packageName, n) && (whole ==> n == |Trace(h, c)|);
    CutCompletion(h, c, n);
    assert Actionable(h, c.packageName) == Some(c);
    if worked != After(h, c, n) {
      PrunedParts(After(h, c, n), worked, c.packageName);
    }
  }

  lemma PrunedParts(before: Home, after: Home, key: string)
    requires PrunedSomehow(before, after, key)
    ensures after.current == before.current && after.stage == before.stage && after.transaction == before.transaction
    ensures exists history, removed: nat :: PrunedArchive(before.archive, after.archive, key, history, removed)
  {
    var history, removed: nat :| Pruned(before, after, key, history, removed);
    assert PrunedArchive(before.archive, after.archive, key, history, removed);
  }

  /** The states of a completion, branch by branch. */
  lemma Steps(h: Home, c: Change)
    ensures After(h, c, 0) == h
    ensures var version := InstalledVersion(h.current, c.packageName);
            if version == Some(c.toVersion) then |Trace(h, c)| == 1 && After(h, c, 1) == DropTransaction(h)
            else if version.Some? && version.value != "" && version.value != c.fromVersion then |Trace(h, c)| == 0
            else
              var moved := h.current.Some? && c.previousDirectory !in h.archive;
              var h1 := if moved then ArchiveCurrent(h, c.previousDirectory) else h;
              var m := if moved then 1 else 0;
              && After(h, c, m) == h1
              && if h1.current.Some? then |Trace(h, c)| == m
                 else if InstalledVersion(TargetOf(h1, c), c.packageName) != Some(c.toVersion) then
                   if c.previousDirectory in h1.archive
                   then |Trace(h, c)| == m + 1 && After(h, c, m + 1) == RestoreCurrent(h1, c.previousDirectory)
                   else |Trace(h, c)| == m
                 else
                   var h2 := ActivateTarget(h1, c);
                   |Trace(h, c)| == m + 2 && After(h, c, m + 1) == h2 && After(h, c, m + 2) == DropTransaction(h2)
  {
  }

  class Directory {
    var homes: map<string, Home>
    var scratch: set<string>          // download directories without a transaction

    constructor (homes: map<string, Home>, scratch: set<string>)
      ensures this.homes == homes && this.scratch == scratch
    {
      this.homes, this.scratch := homes, scratch;
    }

    /** The accepted archive directories of a package, newest install first. */
    method MarketVersionHistory(key: string) returns (history: seq<string>)
      requires key in homes
      ensures IsHistory(homes[key].archive, key, history)
      ensures forall d :: d in history <==>
                && d in homes[key].archive && IsUuid(d)
                && homes[key].archive[d].marker.Some? && homes[key].archive[d].marker.value.packageName == key
    {
      var archive := homes[key].archive;
      var left := archive.Keys;
      history := [];
      while left != {}
        invariant left <= archive.Keys
        invariant NewestFirst(archive, key, history)
        invariant forall d :: d in history ==> d !in left
        invariant forall d :: Listed(archive, key, d) && d !in left ==> d in history
        decreases left
      {
        var entry :| entry in left;
        left := left - {entry};
        if Listed(archive, key, entry) {
          history := Insert(archive, key, history, entry);
        }
      }
    }

    /** Place one more entry behind every entry that is at least as new. */
    static method Insert(archive: map<string, Package>, key: string, history: seq<string>, entry: string)
      returns (r: seq<string>)
      requires Listed(archive, key, entry) && entry !in history
      requires NewestFirst(archive, key, history)
      ensures NewestFirst(archive, key, r)
      ensures forall d :: d in r <==> d in history || d == entry
    {
      var at := 0;
      while at < |history| && InstalledAt(archive, history[at]) >= InstalledAt(archive, entry)
        invariant 0 <= at <= |history|
        invariant forall i :: 0 <= i < at ==> InstalledAt(archive, history[i]) >= InstalledAt(archive, entry)
      {
        at := at + 1;
      }
      r := history[..at] + [entry] + history[at..];
      InsertedInOrder(archive, key, history, entry, at);
    }

    /** Keep the three newest archived versions. */
    method PruneMarketVersionHistory(key: string, fuel: Fuel)
      requires key in homes
      modifies this`homes
      ensures key in homes && homes == old(homes)[key := homes[key]]
      ensures PrunedSomehow(old(homes[key]), homes[key], key)
      ensures fuel.None? ==> AtMostThreeListed(homes[key].archive, key)
      ensures ThreeNewerKept(old(homes[key]).archive, homes[key].archive, key)
    {
      var listed := MarketVersionHistory(key);
      ghost var history := listed;
      ghost var removed := 0;
      var left := fuel;
      ghost var before := homes[key];
      var i := 3;
      while i < |listed|
        invariant 3 <= i && i == 3 + removed && (i <= |listed| || (i == 3 && |listed| < 3))
        invariant key in homes && homes == old(homes)[key := homes[key]]
        invariant Pruned(before, homes[key], key, history, removed)
        invariant left.None? <==> fuel.None?
      {
        if left == Some(0) {
          NewestThreeStay(before.archive, homes[key].archive, key, history, removed);
          return;
        }
        left := Spend(left);
        var home := homes[key];
        homes := homes[key := home.(archive := home.archive - {listed[i]})];
        i := i + 1;
        removed := removed + 1;
      }
      ThreeStay(before, homes[key], key, history, removed);
      NewestThreeStay(before.archive, homes[key].archive, key, history, removed);
    }

    /** One transaction file: finish the recorded switch, then prune. */
    method CompleteChange(key: string, fuel: Fuel) returns (ghost n: nat)
      requires key in homes
      modifies this`homes
      ensures key in homes && homes == old(homes)[key := homes[key]]
      ensures WorkedOn(old(homes[key]), homes[key], key, n)
      ensures fuel.None? && Actionable(old(homes[key]), key).Some? ==>
                n == |Trace(old(homes[key]), Actionable(old(homes[key]), key).value)|
      ensures fuel.None? && old(homes[key]).transaction.Some? && homes[key].transaction.None?
              && InstalledVersion(old(homes[key].current), key) != InstalledVersion(homes[key].current, key)
              ==> AtMostThreeListed(homes[key].archive, key)
    {
      hide PrunedSomehow, AtMostThreeListed, Trace, After;
      n := 0;
      ghost var h := homes[key];
      var left := fuel;
      var home := homes[key];
      assert homes == homes[key := homes[key]];
      if home.transaction.None? || home.transaction.value.Garbled? { return; }
      var c := home.transaction.value.change;
      if !IsSafeTransaction(c) || c.packageName != key { return; }
      var previous := c.previousDirectory;
      Steps(h, c);

      var version := InstalledVersion(home.current, key);
      if version == Some(c.toVersion) {
        if left == Some(0) { return; }
        n := n + 1;
        homes := homes[key := DropTransaction(home)];
        return;
      }
      if version.Some? && version.value != "" && version.value != c.fromVersion { return; }
      if home.current.Some? && previous !in home.archive {
        if left == Some(0) { return; }
        left, n := Spend(left), n + 1;
        home := ArchiveCurrent(home, previous);
        homes := homes[key := home];
      }
      if home.current.None? {
        if InstalledVersion(TargetOf(home, c), key) != Some(c.toVersion) {
          if previous in home.archive {
            if left == Some(0) { return; }
            n := n + 1;
            homes := homes[key := RestoreCurrent(home, previous)];
          }
          return;
        }
        if left == Some(0) { return; }
        left, n := Spend(left), n + 1;
        home := ActivateTarget(home, c);
        homes := homes[key := home];
      }
      if InstalledVersion(home.current, key) != Some(c.toVersion) { return; }
      if left == Some(0) { return; }
      left, n := Spend(left), n + 1;
      homes := homes[key := DropTransaction(home)];
      PruneMarketVersionHistory(key, left);
    }

    /** The transaction files in directory order; the process dies after `until` of them. */
    method CompleteEntries(entries: seq<string>, fuel: string -> Fuel, until: nat)
      requires forall e :: e in entries ==> e in homes
      requires forall i, j :: 0 <= i < j < |entries| ==> entries[i] != entries[j]
      modifies this`homes
      ensures homes.Keys == old(homes.Keys)
      ensures forall k :: k in homes ==> Worked(old(homes[k]), homes[k], k, k in entries && until >= |entries| && fuel(k).None?)
    {
      hide WorkedOn, After, Trace;
      ghost var before := homes;
      forall k | k in homes ensures Worked(homes[k], homes[k], k, false) { NothingWorked(homes[k], k); }
      var done := 0;
      while done < |entries|
        invariant done <= |entries| && done <= until && homes.Keys == before.Keys
        invariant forall k :: k in entries[done..] ==> homes[k] == before[k]
        invariant forall k :: k in homes ==> Worked(before[k], homes[k], k, k in entries[..done] && fuel(k).None?)
      {
        if done == until { return; }
        ghost var e := entries[done];
        ghost var n := CompleteChange(entries[done], fuel(entries[done]));
        assert Worked(before[e], homes[e], e, fuel(e).None?);
        done := done + 1;
      }
      assert entries[..done] == entries;
    }

    /** Remove the stage of every package without a transaction file, then the download leftovers. */
    method Sweep(sweeps: Fuel)
      modifies this
      ensures homes.Keys == old(homes.Keys)
      ensures forall k :: k in homes ==> homes[k] == old(homes[k]) || homes[k] == Swept(old(homes[k]))
      ensures sweeps.None? ==> scratch == {} && forall k :: k in homes ==> homes[k] == Swept(old(homes[k]))
    {
      ghost var before := homes;
      var left := sweeps;
      var open := homes.Keys;
      while open != {}
        invariant open <= homes.Keys == before.Keys
        invariant forall k :: k in homes ==> homes[k] == if k in open then before[k] else Swept(before[k])
        invariant left.None? <==> sweeps.None?
        decreases open
      {
        if left == Some(0) { return; }
        left := Spend(left);
        var k :| k in open;
        open := open - {k};
        if homes[k].transaction.None? {
          homes := homes[k := homes[k].(stage := None)];
        }
      }
      if left == Some(0) { return; }
      scratch := {};
    }

    /**
     The startup pass. `entries` are the transaction files in directory order; `fuel` limits the steps
     of each, the process dies after `until` entries, and otherwise after `sweeps` swept directories.
     */
    method CompletePendingMarketVersionChanges(entries: seq<string>, fuel: string -> Fuel, until: nat, sweeps: Fuel)
      requires forall e :: e in entries ==> e in homes
      requires forall i, j :: 0 <= i < j < |entries| ==> entries[i] != entries[j]
      requires forall k :: k in homes && homes[k].transaction.Some? ==> k in entries
      modifies this
      ensures homes.Keys == old(homes.Keys)
      ensures forall k :: k in homes ==>
                PassedOver(old(homes[k]), homes[k], k, k in entries && until >= |entries| && fuel(k).None?)
      ensures until >= |entries| && sweeps.None? ==>
                scratch == {} && forall k :: k in homes && homes[k].stage.Some? ==> homes[k].transaction.Some?
    {
      hide Worked;
      CompleteEntries(entries, fuel, until);
      if until >= |entries| {
        Sweep(sweeps);
      }
    }
  }

  /** A package that was not reached was worked on for no steps. */
  lemma NothingWorked(h: Home, key: string)
    ensures Worked(h, h, key, false)
  {
    assert WorkedOn(h, h, key, 0);
  }
}
