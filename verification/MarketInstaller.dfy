/** How a version change comes to be recorded: a staged download, or the newest archived version. */
module MarketInstaller {
  import opened Wrappers
  import opened MarketFiles
  import opened MarketSwitch
  import opened MarketHistory
  import opened PluginDirectory

  datatype Refusal = NotUpdatable | Unchanged | AlreadyStaged | NoPreviousVersion | NotRecorded | Died

  /** The version the plugin inventory shows for an installed market package. */
  function InventoryVersion(h: Home, key: string): Option<string> {
    if h.current.None? || h.current.value.manifest.None? || !Marked(h.current.value, key) then None
    else Some(h.current.value.manifest.value.version)
  }

  /** The package is installed with a version, and no version change and no removal of it is pending. */
  predicate Changeable(h: Home, key: string, removing: set<string>) {
    && h.current.Some? && h.current.value.manifest.Some? && h.current.value.manifest.value.version != ""
    && h.current.value.marker.Some? && h.current.value.marker.value.packageName == key
    && h.transaction.None? && key !in removing
  }

  function ShownVersion(h: Home): string {
    if h.current.Some? && h.current.value.manifest.Some? then h.current.value.manifest.value.version else ""
  }

  class Installer {
    const directory: Directory
    var removing: set<string>       // packages whose removal waits for the next start

    constructor (directory: Directory)
      ensures this.directory == directory && removing == {}
    {
      this.directory := directory;
      removing := {};
    }

    /** No package waits for a version change and for its removal. */
    predicate Exclusive()
      reads this, directory
    {
      forall k :: k in removing ==> k in directory.homes && directory.homes[k].transaction.None?
    }

    /** Mark an installed package for removal, unless it is marked already or a version change is pending. */
    method Uninstall(key: string) returns (ok: bool)
      requires key in directory.homes
      modifies this`removing
      ensures ok == (InventoryVersion(directory.homes[key], key).Some? && directory.homes[key].transaction.None? && key !in old(removing))
      ensures removing == if ok then old(removing) + {key} else old(removing)
      ensures old(Exclusive()) ==> Exclusive()
    {
      var h := directory.homes[key];
      if InventoryVersion(h, key).None? { return false; }
      if h.transaction.Some? { return false; }
      if key in removing { return false; }
      removing := removing + {key};
      return true;
    }

    /** Write the transaction file, unless the change does not fit what is installed or one is pending. */
    method BeginMarketVersionChange(c: Change) returns (ok: bool)
      requires c.packageName in directory.homes
      modifies directory`homes
      ensures var h := old(directory.homes[c.packageName]);
              && ok == (&& c.packageName !in removing && InventoryVersion(h, c.packageName) == Some(c.fromVersion)
                        && IsSafeTransaction(c) && h.transaction.None?)
              && directory.homes == if ok then old(directory.homes)[c.packageName := h.(transaction := Some(Recorded(c)))]
                                    else old(directory.homes)
      ensures old(Exclusive()) ==> Exclusive()
    {
      var h := directory.homes[c.packageName];
      if c.packageName in removing { return false; }
      if InventoryVersion(h, c.packageName) != Some(c.fromVersion) || !IsSafeTransaction(c) { return false; }
      if h.transaction.Some? { return false; }
      directory.homes := directory.homes[c.packageName := h.(transaction := Some(Recorded(c)))];
      return true;
    }

    /**
     Stage a verified download and record the update; the process may die in between. `seen` is the
     package as it was when the download began, long before. The stage comes first, so a recorded
     update always has its stage; a stage alone is swept at the next start.
     */
    method StageUpdate(key: string, seen: Home, package: Package, version: string, uuid: string, dies: bool) returns (r: Result<Change, Refusal>)
      requires key in directory.homes && key != "" && version != ""
      requires InstalledVersion(Some(package), key) == Some(version)
      requires IsUuid(uuid) && uuid !in directory.homes[key].archive
      modifies directory`homes
      ensures key in directory.homes && directory.homes == old(directory.homes)[key := directory.homes[key]]
      ensures var h, h' := old(directory.homes[key]), directory.homes[key];
              match r
              case Ok(c) =>
                InstalledVersion(h.current, key).Some? ==>
                  && InFlight(h', c) && c.operation.Update? && c.toVersion == version
                  && ShelfOf(h', c) == Shelf(h.current.value, h.archive, Some(package)) && TargetIntact(ShelfOf(h', c), c)
              case Err(Died) => h' == h.(stage := Some(package)) && (h.transaction.None? ==> Swept(h') == Swept(h))
              case Err(NotRecorded) => h' == h.(stage := None)
              case Err(_) => h' == h
      ensures var h, may := old(directory.homes[key]), Changeable(seen, key, removing);
              && (r == Err(NotUpdatable) <==> !may)
              && (r == Err(Unchanged) <==> may && ShownVersion(seen) == version)
              && (r == Err(AlreadyStaged) <==> may && ShownVersion(seen) != version && h.stage.Some?)
              && (r == Err(Died) <==> may && ShownVersion(seen) != version && h.stage.None? && dies)
              && (r.Ok? <==>
                    && may && ShownVersion(seen) != version && h.stage.None? && !dies
                    && Changeable(h, key, removing) && ShownVersion(h) == ShownVersion(seen))
              && r != Err(NoPreviousVersion)
      ensures old(Exclusive()) ==> Exclusive()
    {
      var h := directory.homes[key];
      assert directory.homes == directory.homes[key := h];
      var from := InventoryVersion(seen, key);
      if from.None? || from.value == "" || seen.transaction.Some? || key in removing { return Err(NotUpdatable); }
      if from.value == version { return Err(Unchanged); }
      if h.stage.Some? { return Err(AlreadyStaged); }
      directory.homes := directory.homes[key := h.(stage := Some(package))];
      if dies { return Err(Died); }
      var c := Change(key, from.value, version, Update, Some(key), uuid, None);
      var ok := BeginMarketVersionChange(c);
      if !ok {
        directory.homes := directory.homes[key := directory.homes[key].(stage := None)];
        return Err(NotRecorded);
      }
      return Ok(c);
    }

    /** Record a rollback to the newest archived version, if that is another version. */
    method Rollback(key: string, uuid: string) returns (r: Result<Change, Refusal>)
      requires key in directory.homes && key != ""
      requires IsUuid(uuid) && uuid !in directory.homes[key].archive
      modifies directory`homes
      ensures key in directory.homes && directory.homes == old(directory.homes)[key := directory.homes[key]]
      ensures r.Err? ==> directory.homes == old(directory.homes)
      ensures old(Exclusive()) ==> Exclusive()
      ensures r.Ok? ==>
                var h, h', c := old(directory.homes[key]), directory.homes[key], r.value;
                && c.operation.Rollback? && c.targetDirectory.Some? && NewestListed(h.archive, key, c.targetDirectory.value)
                && (InstalledVersion(h.current, key).Some? ==>
                      InFlight(h', c) && ShelfOf(h', c) == Shelf(h.current.value, h.archive, h.stage))
      ensures r == Err(NotUpdatable) <==> !Changeable(old(directory.homes[key]), key, removing)
      ensures r == Err(NoPreviousVersion) ==>
                var h := old(directory.homes[key]);
                || (forall d :: !Listed(h.archive, key, d))
                || exists d :: NewestListed(h.archive, key, d) && h.archive[d].marker.value.version == ShownVersion(h)
      ensures r.Ok? || r == Err(NotUpdatable) || r == Err(NoPreviousVersion) || r == Err(NotRecorded)
      ensures r == Err(NotRecorded) ==>
                exists d :: NewestListed(old(directory.homes[key]).archive, key, d)
                            && old(directory.homes[key]).archive[d].marker.value.version == ""
      ensures r.Ok? ==>
                && r.value.fromVersion == ShownVersion(old(directory.homes[key])) != r.value.toVersion
                && r.value.toVersion == old(directory.homes[key]).archive[r.value.targetDirectory.value].marker.value.version
    {
      var h := directory.homes[key];
      assert directory.homes == directory.homes[key := h];
      var from := InventoryVersion(h, key);
      if from.None? || from.value == "" || h.transaction.Some? || key in removing { return Err(NotUpdatable); }
      var history := directory.MarketVersionHistory(key);
      if history == [] { return Err(NoPreviousVersion); }
      var target := history[0];
      assert NewestListed(h.archive, key, target);
      var version := h.archive[target].marker.value.version;
      if version == from.value { return Err(NoPreviousVersion); }
      var c := Change(key, from.value, version, Operation.Rollback, None, uuid, Some(target));
      var ok := BeginMarketVersionChange(c);
      return if ok then Ok(c) else Err(NotRecorded);
    }
  }
}
