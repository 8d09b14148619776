/** The life of one installed market package: updates and rollbacks, each pruning the archive or not. */
module MarketHistory {
  import opened Wrappers
  import opened MarketFiles
  import opened MarketSwitch
  import opened PluginDirectory

  /** `removed` entries behind the three newest were deleted; 0 if pruning was cut before it began. */
  datatype Event =
    | Updated(package: Package, previous: string, history: seq<string>, removed: nat)
    | RolledBack(target: string, previous: string, history: seq<string>, removed: nat)

  predicate Marked(p: Package, key: string) {
    p.marker.Some? && p.marker.value.packageName == key
  }

  function Time(p: Package): int
    requires p.marker.Some?
  {
    p.marker.value.installedAt
  }

  ghost predicate NewestListed(archive: map<string, Package>, key: string, d: string) {
    Listed(archive, key, d) && forall e :: Listed(archive, key, e) ==> InstalledAt(archive, e) <= InstalledAt(archive, d)
  }

  /** Well-marked versions with distinct install times, at most one of the archived newer than the active. */
  ghost predicate Orderly(s: Shelf, key: string) {
    InOrder(s.active, s.archive, key)
  }

  ghost predicate InOrder(active: Package, archive: map<string, Package>, key: string) {
    && Marked(active, key)
    && (forall d :: d in archive ==> Listed(archive, key, d) && InstalledAt(archive, d) != Time(active))
    && DistinctTimes(archive)
    && AtMostOneNewer(archive, Time(active))
  }

  predicate SameTime(p: Package, q: Package) {
    p.marker.Some? && q.marker.Some? && Time(p) == Time(q)
  }

  ghost predicate DistinctTimes(archive: map<string, Package>) {
    forall d, e :: d in archive && e in archive && SameTime(archive[d], archive[e]) ==> d == e
  }

  ghost predicate AtMostOneNewer(archive: map<string, Package>, time: int) {
    forall d, e :: d in archive && e in archive && NewerThan(archive, d, time) && NewerThan(archive, e, time) ==> d == e
  }

  predicate NewerThan(archive: map<string, Package>, d: string, time: int) {
    d in archive && archive[d].marker.Some? && Time(archive[d]) > time
  }

  function ChangeOf(s: Shelf, e: Event, key: string): Change
    requires e.RolledBack? ==> e.target in s.archive
  {
    var fromVersion := VersionOf(s.active, key);
    match e
    case Updated(p, previous, _, _) => Change(key, fromVersion, VersionOf(p, key), Update, Some(key), previous, None)
    case RolledBack(target, previous, _, _) =>
      Change(key, fromVersion, VersionOf(s.archive[target], key), Rollback, None, previous, Some(target))
  }

  function VersionOf(p: Package, key: string): string {
    var version := InstalledVersion(Some(p), key);
    if version.Some? then version.value else ""
  }

  function Staged(s: Shelf, e: Event): Shelf {
    if e.Updated? then s.(staged := Some(e.package)) else s
  }

  /** The shelf after the switch of `e`, before any pruning. */
  function SwitchedShelf(s: Shelf, e: Event, key: string): Shelf
    requires e.RolledBack? ==> e.target in s.archive
    requires TargetIntact(Staged(s, e), ChangeOf(s, e, key))
  {
    Commit(Staged(s, e), ChangeOf(s, e, key))
  }

  /**
   What the installer allows. An update is a download with the current time as install time, to a
   version other than the active one. A rollback goes to the newest archived entry, if its version
   differs. The directory for the old version is a fresh UUID.
   */
  ghost predicate Allowed(s: Shelf, e: Event, key: string) {
    && IsUuid(e.previous) && e.previous !in s.archive
    && (match e
        case Updated(p, _, _, _) =>
          && Marked(p, key) && InstalledVersion(Some(p), key).Some?
          && VersionOf(p, key) != VersionOf(s.active, key)
          && Marked(s.active, key) && Time(p) > Time(s.active)
          && forall d :: Listed(s.archive, key, d) ==> InstalledAt(s.archive, d) < Time(p)
        case RolledBack(target, _, _, _) =>
          && NewestListed(s.archive, key, target)
          && InstalledVersion(Some(s.archive[target]), key).Some?
          && VersionOf(s.archive[target], key) != VersionOf(s.active, key))
    && TargetIntact(Staged(s, e), ChangeOf(s, e, key))
    && var archive := SwitchedShelf(s, e, key).archive;
       PrunedArchive(archive, archive - Tail(e.history, e.removed), key, e.history, e.removed)
  }

  function Tail(history: seq<string>, removed: nat): set<string> {
    set i | 3 <= i < 3 + removed && i < |history| :: history[i]
  }

  function Live(s: Shelf, e: Event, key: string): Shelf
    requires e.RolledBack? ==> e.target in s.archive
    requires TargetIntact(Staged(s, e), ChangeOf(s, e, key))
  {
    var s' := SwitchedShelf(s, e, key);
    s'.(archive := s'.archive - Tail(e.history, e.removed))
  }

  ghost predicate Lives(s: Shelf, events: seq<Event>, key: string)
    decreases |events|
  {
    events == [] || (Allowed(s, events[0], key) && Lives(Live(s, events[0], key), events[1..], key))
  }

  ghost function After(s: Shelf, events: seq<Event>, key: string): Shelf
    requires Lives(s, events, key)
    decreases |events|
  {
    if events == [] then s else After(Live(s, events[0], key), events[1..], key)
  }

  lemma ArchivingKeepsOrder(active: Package, archive: map<string, Package>, next: Package, previous: string, key: string)
    requires InOrder(active, archive, key) && Marked(next, key) && IsUuid(previous) && previous !in archive
    requires Time(next) != Time(active)
    requires forall d :: d in archive ==> InstalledAt(archive, d) != Time(next)
    requires Time(next) > Time(active) || forall d :: d in archive ==> InstalledAt(archive, d) < Time(next)
    requires Time(next) > Time(active) ==> forall d :: d in archive ==> InstalledAt(archive, d) < Time(next)
    ensures InOrder(next, archive[previous := active], key)
    ensures AtMostOneNewer(archive[previous := active], Time(active))
  {
    var archived := archive[previous := active];
    assert forall d :: d in archived ==> if d == previous then archived[d] == active else archived[d] == archive[d];
  }

  lemma SwitchedForm(s: Shelf, e: Event, key: string)
    requires Allowed(s, e, key)
    ensures var s1 := SwitchedShelf(s, e, key);
            match e
            case Updated(p, previous, _, _) => s1.active == p && s1.archive == s.archive[previous := s.active]
            case RolledBack(target, previous, _, _) =>
              s1.active == s.archive[target] && s1.archive == (s.archive - {target})[previous := s.active]
  {
    hide PrunedArchive, IsUuid;
  }

  /** Before pruning: the shelf is orderly, and at most one archived version is newer than the one just archived. */
  lemma SwitchedOrderly(s: Shelf, e: Event, key: string)
    requires Orderly(s, key) && Allowed(s, e, key)
    ensures var s1 := SwitchedShelf(s, e, key);
            && Orderly(s1, key)
            && e.previous in s1.archive && s1.archive[e.previous] == s.active
            && AtMostOneNewer(s1.archive, Time(s.active))
  {
    hide PrunedArchive, SwitchedShelf, IsUuid, InstalledVersion, TargetIntact, ChangeOf;
    SwitchedForm(s, e, key);
    match e
    case Updated(p, previous, _, _) =>
      ArchivingKeepsOrder(s.active, s.archive, p, previous, key);
    case RolledBack(target, previous, _, _) =>
      var others := s.archive - {target};
      assert forall d :: d in others ==> d in s.archive && others[d] == s.archive[d];
      FewerKeepOrder(s.active, s.archive, others, key);
      NoneNewerThanNewest(s, target, key);
      ArchivingKeepsOrder(s.active, others, s.archive[target], previous, key);
  }

  lemma NoneNewerThanNewest(s: Shelf, target: string, key: string)
    requires Orderly(s, key) && NewestListed(s.archive, key, target)
    ensures forall d :: d in s.archive && d != target ==> InstalledAt(s.archive, d) < InstalledAt(s.archive, target)
  {
    hide IsUuid;
  }

  /** One switch keeps the order of the shelf, and its pruning keeps the version it just archived. */
  lemma SwitchKeepsOrder(s: Shelf, e: Event, key: string)
    requires Orderly(s, key) && Allowed(s, e, key)
    ensures Orderly(Live(s, e, key), key)
    ensures e.previous in Live(s, e, key).archive && Live(s, e, key).archive[e.previous] == s.active
  {
    hide Commit, TargetIntact;
    var s1 := SwitchedShelf(s, e, key);
    SwitchedOrderly(s, e, key);
    var kept := s1.archive - Tail(e.history, e.removed);
    FewerKeepOrder(s1.active, s1.archive, kept, key);
    NotInTail(s1.archive, e.history, e.removed, e.previous, key);
  }

  lemma FewerKeepOrder(active: Package, archive: map<string, Package>, fewer: map<string, Package>, key: string)
    requires InOrder(active, archive, key)
    requires forall d :: d in fewer ==> d in archive && fewer[d] == archive[d]
    ensures InOrder(active, fewer, key)
  {
  }

  /** An entry with at most one newer entry is among the three newest. */
  lemma NotInTail(archive: map<string, Package>, history: seq<string>, removed: nat, d: string, key: string)
    requires DistinctTimes(archive) && Listed(archive, key, d) && AtMostOneNewer(archive, InstalledAt(archive, d))
    requires NewestFirst(archive, key, history)
    ensures d !in Tail(history, removed)
  {
    forall i | 0 <= i < |history| && history[i] == d ensures i < 2 {
      if i >= 2 { TwoAhead(archive, history, i, key); }
    }
  }

  lemma TwoAhead(archive: map<string, Package>, history: seq<string>, i: nat, key: string)
    requires DistinctTimes(archive) && NewestFirst(archive, key, history) && 2 <= i < |history|
    ensures history[0] != history[1]
    ensures NewerThan(archive, history[0], InstalledAt(archive, history[i]))
    ensures NewerThan(archive, history[1], InstalledAt(archive, history[i]))
  {
  }

  /** Over any sequence of updates and rollbacks, and any cut prunings. */
  lemma {:induction false} LifeKeepsOrder(s: Shelf, events: seq<Event>, key: string)
    requires Orderly(s, key) && Lives(s, events, key)
    ensures Orderly(After(s, events, key), key)
    decreases |events|
  {
    if events != [] {
      SwitchKeepsOrder(s, events[0], key);
      LifeKeepsOrder(Live(s, events[0], key), events[1..], key);
    }
  }

  // ----- which version a rollback offers

  /**
   After an update, a rollback goes back to the version just replaced exactly when no archived version
   was newer than it, that is unless the replaced version had itself been reached by a rollback.
   */
  lemma RollbackAfterUpdate(s: Shelf, e: Event, key: string)
    requires Orderly(s, key) && Allowed(s, e, key) && e.Updated?
    ensures NewestListed(Live(s, e, key).archive, key, e.previous) <==>
            forall d :: d in s.archive ==> InstalledAt(s.archive, d) <= Time(s.active)
  {
    hide PrunedArchive, IsUuid;
    SwitchKeepsOrder(s, e, key);
    SwitchedOrderly(s, e, key);
    var switched := SwitchedShelf(s, e, key).archive;
    var archive := Live(s, e, key).archive;
    assert switched == s.archive[e.previous := s.active];
    if d :| d in s.archive && InstalledAt(s.archive, d) > Time(s.active) {
      assert switched[d] == s.archive[d];
      NewestStays(s, e, key, d);
      assert Listed(archive, key, d) && InstalledAt(archive, d) > InstalledAt(archive, e.previous);
    }
  }

  /** Pruning keeps the entry that is newer than the one just archived, too. */
  lemma NewestStays(s: Shelf, e: Event, key: string, d: string)
    requires Orderly(s, key) && Allowed(s, e, key) && e.Updated?
    requires d in s.archive && InstalledAt(s.archive, d) > Time(s.active)
    ensures d in Live(s, e, key).archive
  {
    hide IsUuid, InstalledVersion, TargetIntact;
    SwitchedForm(s, e, key);
    SwitchedOrderly(s, e, key);
    var switched := SwitchedShelf(s, e, key).archive;
    assert AtMostOneNewer(switched, InstalledAt(switched, d));
    NotInTail(switched, e.history, e.removed, d, key);
  }

  /** Two rollbacks in a row end at the version they started from. */
  lemma RollbackTwice(s: Shelf, first: Event, second: Event, key: string)
    requires Orderly(s, key) && Allowed(s, first, key) && first.RolledBack?
    requires Allowed(Live(s, first, key), second, key) && second.RolledBack?
    ensures second.target == first.previous && Live(Live(s, first, key), second, key).active == s.active
  {
    hide PrunedArchive, IsUuid;
    SwitchKeepsOrder(s, first, key);
    SwitchedOrderly(s, first, key);
    var archive := Live(s, first, key).archive;
    forall d | d in archive ensures InstalledAt(archive, d) <= Time(s.active) {
      if d != first.previous {
        assert d in s.archive && d != first.target;
      }
    }
  }

  /**
   A rollback is refused when the newest archived version equals the active one, even though older
   versions are there. So updating again to a version that was rolled back from leaves no rollback.
   */
  lemma SameVersionRefusesRollback(s: Shelf, d: string, r: Event, key: string)
    requires Orderly(s, key) && NewestListed(s.archive, key, d)
    requires VersionOf(s.archive[d], key) == VersionOf(s.active, key)
    requires r.RolledBack?
    ensures !Allowed(s, r, key)
  {
  }

  function Release(key: string, version: string, time: int): Package {
    Package(Some(Manifest(key, version)), Some(Marker(key, version, time)), 0)
  }

  /** The archive after a rollback from `newer`, and the update that installs `newer` again. */
  lemma UpdateAgain(key: string, older: string, newer: string, u: string, v: string)
    requires IsUuid(u) && IsUuid(v) && u != v && older != newer
    ensures var s := Shelf(Release(key, older, 1), map[u := Release(key, newer, 2)], None);
            var e := Updated(Release(key, newer, 3), v, [u, v], 0);
            && Orderly(s, key) && Allowed(s, e, key)
            && Live(s, e, key).archive == map[u := Release(key, newer, 2), v := Release(key, older, 1)]
            && Live(s, e, key).active == Release(key, newer, 3)
  {
  }

  /** Version `older` is active after a rollback from `newer`; updating to `newer` again leaves `older` out of reach. */
  lemma UpdateRollbackUpdate(key: string, older: string, newer: string, u: string, v: string, r: Event)
    requires IsUuid(u) && IsUuid(v) && u != v && older != newer && r.RolledBack?
    ensures var s := Shelf(Release(key, older, 1), map[u := Release(key, newer, 2)], None);
            var e := Updated(Release(key, newer, 3), v, [u, v], 0);
            && Orderly(s, key) && Allowed(s, e, key)
            && v in Live(s, e, key).archive && VersionOf(Live(s, e, key).archive[v], key) == older
            && !Allowed(Live(s, e, key), r, key)
  {
    hide IsUuid, Allowed, SwitchedShelf;
    UpdateAgain(key, older, newer, u, v);
    var s := Shelf(Release(key, older, 1), map[u := Release(key, newer, 2)], None);
    var e := Updated(Release(key, newer, 3), v, [u, v], 0);
    SwitchKeepsOrder(s, e, key);
    SameVersionRefusesRollback(Live(s, e, key), u, r, key);
  }

  /** A completed switch archives the version it replaced, and the pruning that follows keeps it. */
  lemma ReplacedVersionSurvives(h: Home, h': Home, c: Change)
    requires InFlight(h, c) && CommittedAndPruned(h, h', c)
    requires Orderly(Commit(ShelfOf(h, c), c), c.packageName)
    requires AtMostOneNewer(Commit(ShelfOf(h, c), c).archive, Time(ShelfOf(h, c).active))
    ensures c.previousDirectory in h'.archive && h'.archive[c.previousDirectory] == ShelfOf(h, c).active
  {
    hide IsUuid, InstalledVersion, ShelfOf;
    var archive := Commit(ShelfOf(h, c), c).archive;
    if h'.archive != archive {
      var history, removed: nat :| PrunedArchive(archive, h'.archive, c.packageName, history, removed);
      NotInTail(archive, history, removed, c.previousDirectory, c.packageName);
      assert h'.archive == archive - Tail(history, removed);
    }
  }
}
