/** Completing a recorded version switch: the loop that runs at every start, which may be cut anywhere. */
module MarketSwitch {
  import opened Wrappers
  import opened MarketFiles

  /** Every state the directory goes through while the recorded change `c` is completed, in order. */
  function Trace(h: Home, c: Change): seq<Home> {
    var version := InstalledVersion(h.current, c.packageName);
    if version == Some(c.toVersion) then [DropTransaction(h)]
    else if version.Some? && version.value != "" && version.value != c.fromVersion then []
    else
      var moved := h.current.Some? && c.previousDirectory !in h.archive;
      var h1 := if moved then ArchiveCurrent(h, c.previousDirectory) else h;
      var first := if moved then [h1] else [];
      if h1.current.Some? then first
      else if InstalledVersion(TargetOf(h1, c), c.packageName) != Some(c.toVersion) then
        if c.previousDirectory in h1.archive then first + [RestoreCurrent(h1, c.previousDirectory)] else first
      else
        var h2 := ActivateTarget(h1, c);
        first + [h2, DropTransaction(h2)]
  }

  /** The state after `n` steps of a completion that is then cut. */
  function After(h: Home, c: Change, n: nat): Home {
    var trace := Trace(h, c);
    if n == 0 || trace == [] then h else if n < |trace| then trace[n - 1] else trace[|trace| - 1]
  }

  // ----- what a pending switch stands for

  /** The package's versions apart from the mechanics of a switch: active, archived, staged. */
  datatype Shelf = Shelf(active: Package, archive: map<string, Package>, staged: Option<Package>)

  predicate Untouched(h: Home, c: Change) {
    && h.current.Some? && InstalledVersion(h.current, c.packageName) == Some(c.fromVersion)
    && c.previousDirectory !in h.archive
  }

  predicate OldArchived(h: Home, c: Change) {
    && c.previousDirectory in h.archive
    && InstalledVersion(Some(h.archive[c.previousDirectory]), c.packageName) == Some(c.fromVersion)
  }

  predicate Between(h: Home, c: Change) {
    h.current.None? && OldArchived(h, c)
  }

  predicate Switched(h: Home, c: Change) {
    && h.current.Some? && InstalledVersion(h.current, c.packageName) == Some(c.toVersion)
    && OldArchived(h, c) && TargetOf(h, c).None?
  }

  /** A recorded change in one of the three states a cut can leave it in. */
  predicate InFlight(h: Home, c: Change) {
    && IsSafeTransaction(c) && c.fromVersion != c.toVersion
    && (c.operation.Rollback? ==> c.targetDirectory.value != c.previousDirectory)
    && h.transaction == Some(Recorded(c))
    && (Untouched(h, c) || Between(h, c) || Switched(h, c))
  }

  function ShelfOf(h: Home, c: Change): Shelf
    requires InFlight(h, c)
  {
    if Untouched(h, c) then Shelf(h.current.value, h.archive, h.stage)
    else
      var replaced := h.archive[c.previousDirectory];
      var others := h.archive - {c.previousDirectory};
      if h.current.None? then Shelf(replaced, others, h.stage)
      else match c.operation
        case Update => Shelf(replaced, others, h.current)
        case Rollback => Shelf(replaced, others[c.targetDirectory.value := h.current.value], h.stage)
  }

  function ShelfTarget(s: Shelf, c: Change): Option<Package> {
    match c.operation
    case Update => s.staged
    case Rollback =>
      if c.targetDirectory.Some? && c.targetDirectory.value in s.archive
      then Some(s.archive[c.targetDirectory.value]) else None
  }

  predicate TargetIntact(s: Shelf, c: Change) {
    InstalledVersion(ShelfTarget(s, c), c.packageName) == Some(c.toVersion)
  }

  /** The switch done at once: the target becomes active and the old active package is archived. */
  function Commit(s: Shelf, c: Change): Shelf
    requires TargetIntact(s, c)
  {
    var target := ShelfTarget(s, c).value;
    match c.operation
    case Update => Shelf(target, s.archive[c.previousDirectory := s.active], None)
    case Rollback => Shelf(target, (s.archive - {c.targetDirectory.value})[c.previousDirectory := s.active], s.staged)
  }

  /** No change recorded, and the directory holds exactly the versions of `s`. */
  predicate AtRest(h: Home, s: Shelf) {
    h.transaction.None? && h.current == Some(s.active) && h.archive == s.archive && h.stage == s.staged
  }

  /** One completion, cut after any number of steps: nothing happened yet, or everything did. */
  lemma CutCompletion(h: Home, c: Change, n: nat)
    requires InFlight(h, c)
    ensures Undecided(h, After(h, c, n), c) || Committed(h, After(h, c, n), c)
  {
    if Switched(h, c) {
    } else if Between(h, c) {
      CutWithoutActive(h, c, n);
    } else if n > 0 {
      var h1 := ArchiveCurrent(h, c.previousDirectory);
      assert Between(h1, c) && ShelfOf(h1, c) == ShelfOf(h, c) by {
        assert h1.archive - {c.previousDirectory} == h.archive;
      }
      CutWithoutActive(h1, c, n - 1);
      assert After(h, c, n) == After(h1, c, n - 1);
    }
  }

  /** The state `h'` has the versions of `h`, with the change still recorded. */
  predicate Undecided(h: Home, h': Home, c: Change)
    requires InFlight(h, c)
  {
    InFlight(h', c) && ShelfOf(h', c) == ShelfOf(h, c)
  }

  predicate Committed(h: Home, h': Home, c: Change)
    requires InFlight(h, c)
  {
    TargetIntact(ShelfOf(h, c), c) && AtRest(h', Commit(ShelfOf(h, c), c))
  }

  lemma CutWithoutActive(h: Home, c: Change, n: nat)
    requires InFlight(h, c) && Between(h, c)
    ensures Undecided(h, After(h, c, n), c) || Committed(h, After(h, c, n), c)
    ensures n >= |Trace(h, c)| && TargetIntact(ShelfOf(h, c), c) ==> Committed(h, After(h, c, n), c)
    ensures n >= |Trace(h, c)| && !TargetIntact(ShelfOf(h, c), c) ==>
              Undecided(h, After(h, c, n), c) && Untouched(After(h, c, n), c)
  {
  }

  /** An uncut completion commits exactly when the target is intact; else the old version stays active. */
  lemma FullCompletion(h: Home, c: Change)
    requires InFlight(h, c)
    ensures TargetIntact(ShelfOf(h, c), c) ==> Committed(h, After(h, c, |Trace(h, c)|), c)
    ensures !TargetIntact(ShelfOf(h, c), c) ==>
              var h' := After(h, c, |Trace(h, c)|); Undecided(h, h', c) && Untouched(h', c)
  {
  }

  /** A recorded change of a version that is no longer the active one is left alone, and one that is done is only forgotten. */
  lemma ForeignVersionIsLeftAlone(h: Home, c: Change, n: nat)
    ensures var version := InstalledVersion(h.current, c.packageName);
            && (version.Some? && version.value != "" && version.value != c.fromVersion && version.value != c.toVersion ==>
                  After(h, c, n) == h)
            && (version == Some(c.toVersion) && n > 0 ==> After(h, c, n) == h.(transaction := None))
  {
  }

  /** Start after start, each cut after the given number of steps. */
  function Restarts(h: Home, c: Change, cuts: seq<nat>): Home
    decreases |cuts|
  {
    if cuts == [] then h
    else Restarts(if h.transaction == Some(Recorded(c)) then After(h, c, cuts[0]) else h, c, cuts[1..])
  }

  /**
   The switch is crash-atomic. After any number of starts cut anywhere, either the versions are what
   they were with the change still recorded, or the whole switch happened.
   */
  lemma {:induction false} CrashAtomic(h: Home, c: Change, cuts: seq<nat>)
    requires InFlight(h, c)
    ensures Undecided(h, Restarts(h, c, cuts), c) || Committed(h, Restarts(h, c, cuts), c)
    decreases |cuts|
  {
    if cuts != [] {
      CutCompletion(h, c, cuts[0]);
      var h1 := After(h, c, cuts[0]);
      if Undecided(h, h1, c) {
        CrashAtomic(h1, c, cuts[1..]);
      } else {
        AtRestStays(h1, c, cuts[1..]);
      }
    }
  }

  lemma {:induction false} AtRestStays(h: Home, c: Change, cuts: seq<nat>)
    requires h.transaction.None?
    ensures Restarts(h, c, cuts) == h
    decreases |cuts|
  {
    if cuts != [] {
      AtRestStays(h, c, cuts[1..]);
    }
  }

  /**
   However often it was cut before, the next complete start settles the switch: an intact target
   becomes active, with the old version archived and the record gone; otherwise the old version is
   active and the change stays recorded.
   */
  lemma NextStartSettles(h: Home, c: Change, cuts: seq<nat>)
    requires InFlight(h, c)
    ensures var s := ShelfOf(h, c);
            var cut := Restarts(h, c, cuts);
            var h' := if cut.transaction == Some(Recorded(c)) then After(cut, c, |Trace(cut, c)|) else cut;
            if TargetIntact(s, c)
            then AtRest(h', Commit(s, c))
            else InFlight(h', c) && h'.current == Some(s.active) && h'.archive == s.archive && h'.stage == s.staged
  {
    CrashAtomic(h, c, cuts);
    var cut := Restarts(h, c, cuts);
    if Undecided(h, cut, c) {
      FullCompletion(cut, c);
    }
  }
}
