/**
 The plugin directory of the connector market. Directory and file names derive from the package
 name (by a hash taken as injective), so the directory falls into one `Home` per package: the
 active package, a staged update, the archived versions and a transaction file.
 */
module MarketFiles {
  import opened Wrappers

  datatype Manifest = Manifest(name: string, version: string)

  datatype Marker = Marker(packageName: string, version: string, installedAt: int)

  /** A package directory: its package.json and install marker, when readable, and the rest. */
  datatype Package = Package(manifest: Option<Manifest>, marker: Option<Marker>, files: nat)

  datatype Operation = Update | Rollback

  datatype Change = Change(
    packageName: string,
    fromVersion: string,
    toVersion: string,
    operation: Operation,
    stageDirectory: Option<string>,     // the package whose stage directory is named
    previousDirectory: string,
    targetDirectory: Option<string>)

  datatype Transaction = Garbled | Recorded(change: Change)

  datatype Home = Home(
    current: Option<Package>,
    stage: Option<Package>,
    archive: map<string, Package>,
    transaction: Option<Transaction>)

  /** The version of a market package directory whose manifest and marker agree on the package. */
  function InstalledVersion(directory: Option<Package>, packageName: string): Option<string> {
    if directory.None? || directory.value.manifest.None? || directory.value.marker.None? then None
    else
      var manifest, marker := directory.value.manifest.value, directory.value.marker.value;
      if manifest.name == packageName && marker.packageName == packageName && marker.version == manifest.version
      then Some(manifest.version) else None
  }

  predicate IsUuid(s: string) {
    |s| == 36 && forall i :: 0 <= i < |s| ==> '0' <= s[i] <= '9' || 'a' <= s[i] <= 'f' || s[i] == '-'
  }

  /** The shape check of a transaction; name and version syntax is only required to be non-empty. */
  predicate IsSafeTransaction(c: Change) {
    && c.packageName != "" && c.fromVersion != "" && c.toVersion != "" && IsUuid(c.previousDirectory)
    && match c.operation
       case Update => c.stageDirectory == Some(c.packageName) && c.targetDirectory.None?
       case Rollback => c.stageDirectory.None? && c.targetDirectory.Some? && IsUuid(c.targetDirectory.value)
  }

  function TargetOf(h: Home, c: Change): Option<Package> {
    match c.operation
    case Update => h.stage
    case Rollback =>
      if c.targetDirectory.Some? && c.targetDirectory.value in h.archive
      then Some(h.archive[c.targetDirectory.value]) else None
  }

  // ----- the primitive steps; a rename onto an existing directory or from a missing one never happens

  function ArchiveCurrent(h: Home, directory: string): Home
    requires h.current.Some?
  {
    h.(current := None, archive := h.archive[directory := h.current.value])
  }

  function RestoreCurrent(h: Home, directory: string): Home
    requires directory in h.archive
  {
    h.(current := Some(h.archive[directory]), archive := h.archive - {directory})
  }

  function ActivateTarget(h: Home, c: Change): Home
    requires TargetOf(h, c).Some?
  {
    match c.operation
    case Update => h.(current := h.stage, stage := None)
    case Rollback => h.(current := TargetOf(h, c), archive := h.archive - {c.targetDirectory.value})
  }

  function DropTransaction(h: Home): Home {
    h.(transaction := None)
  }

  // ----- the archive listing

  /** Directory entries that the listing accepts: a UUID name and a readable marker of the package. */
  predicate Listed(archive: map<string, Package>, packageName: string, directory: string) {
    && directory in archive && IsUuid(directory)
    && archive[directory].marker.Some? && archive[directory].marker.value.packageName == packageName
  }

  function InstalledAt(archive: map<string, Package>, directory: string): int
    requires directory in archive && archive[directory].marker.Some?
  {
    archive[directory].marker.value.installedAt
  }

  /** Accepted entries, each once, newest install first. */
  ghost predicate NewestFirst(archive: map<string, Package>, packageName: string, history: seq<string>) {
    && (forall i :: 0 <= i < |history| ==> Listed(archive, packageName, history[i]))
    && (forall i, j :: 0 <= i < j < |history| ==>
          history[i] != history[j] && InstalledAt(archive, history[i]) >= InstalledAt(archive, history[j]))
  }

  /** The listing: every accepted archive directory once, newest install first. */
  ghost predicate IsHistory(archive: map<string, Package>, packageName: string, history: seq<string>) {
    && NewestFirst(archive, packageName, history)
    && (forall d :: Listed(archive, packageName, d) ==> d in history)
  }
}
