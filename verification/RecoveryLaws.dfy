/** Rebuilding records from the cloud: of single lost volumes, and of a store whose directory was wiped. */
module RecoveryLaws {
  import opened Basics
  import opened Capacity
  import opened IbmConfig
  import opened IbmSdk
  import opened ProviderApi
  import opened Controller
  import opened ControllerLaws
  import Prov = IbmProvider
  import Laws = IbmProviderLaws
  import Store = VolumeStore
  import StoreLaws = VolumeStoreLaws
  import Pagination

  /** The record a disk is rebuilt as: its native path and its exact size. */
  function RebuiltRecord(disk: Volume, params: Params): Store.VolumeRecord
    requires disk.name.Some? && disk.capacity.Some?
  {
    Store.VolumeRecord(disk.name.value, "ibmcloud", disk.id, disk.capacity.value * GIB, Store.Sanitize(params))
  }

  /** A recovery under these parameters that reaches the listing. */
  ghost predicate Recovers(d: Deployment, params: Params, p: Provider, f: RecoverCalls) {
    Store.HasProvider(params) && NewProvider(d, params, f.sessionOk) == Ok(p) && Pagination.ListAll(f.pages).Ok?
  }

  /** It reads a complete placement query and all its writes succeed. */
  ghost predicate FullRecovery(p: Provider, c: Cloud, f: RecoverCalls) {
    && Laws.CompleteListing(c, ByPlacement(p.config.resourceGroup, p.config.zone), f.pages)
    && f.writes == Store.MergeWrites({}, true)
    && PlainTags(c)
  }

  ghost predicate InPlacement(p: Provider, disk: Volume) {
    Selects(ByPlacement(p.config.resourceGroup, p.config.zone), disk)
  }

  function RecoveredInfos(p: Provider, f: RecoverCalls): seq<VolumeInfo>
    requires Pagination.ListAll(f.pages).Ok?
  {
    Prov.RecoverAll(p, Pagination.ListAll(f.pages).value)
  }

  ghost predicate Names(infos: seq<VolumeInfo>, name: string) {
    exists i :: 0 <= i < |infos| && infos[i].volumeID == name
  }

  /** The file holds the record of a listed entry of this name. */
  ghost predicate HoldsListed(dir: Store.Dir, infos: seq<VolumeInfo>, params: Params, name: string) {
    && Store.FileName(name) in dir
    && exists i :: 0 <= i < |infos| && infos[i].volumeID == name
         && dir[Store.FileName(name)] == Store.RecordFile(Store.RecoveredRecord(infos[i], Store.Sanitize(params)))
  }

  /** A merge writes a missing file only from an entry of its name, and does if there is one and it can. */
  lemma MergedFile(dir: Store.Dir, infos: seq<VolumeInfo>, params: Params, w: Store.MergeWrites, name: string)
    requires PlainName(name) && Store.FileName(name) !in dir
    requires forall i :: 0 <= i < |infos| ==> infos[i].volumeID != ""
    ensures var after := Store.Merge(dir, infos, params, w);
            && (Names(infos, name) && name !in w.failing ==> Store.FileName(name) in after)
            && (Store.FileName(name) in after ==> HoldsListed(after, infos, params, name))
  {
    var ps := Store.Sanitize(params);
    var merged := Store.MergeFiles(dir, infos, ps, w.failing);
    var n := Store.FileName(name);
    StoreLaws.MergeIsUnion(dir, infos, ps, w.failing);
    StoreLaws.RefreshKeepsFile(merged, n);
    if n in merged {
      var i :| StoreLaws.IsFirstFor(infos, w.failing, n, i) && merged[n] == Store.RecordFile(Store.RecoveredRecord(infos[i], ps));
      FileNamesIdentify(infos[i].volumeID, name);
    }
  }

  lemma RecoveredFile(d: Deployment, c: Cloud, dir: Store.Dir, params: Params, p: Provider, f: RecoverCalls, name: string)
    requires Laws.Orderly(c) && TruthfulPages(c, f.pages) && Recovers(d, params, p, f)
    requires PlainName(name) && Store.FileName(name) !in dir
    ensures var infos := RecoveredInfos(p, f);
            var after := Recover(d, dir, Some(params), f);
            && (Names(infos, name) && name !in f.writes.failing ==> Store.FileName(name) in after)
            && (Store.FileName(name) in after ==> HoldsListed(after, infos, params, name))
  {
    var infos := RecoveredInfos(p, f);
    forall i | 0 <= i < |infos| ensures infos[i].volumeID != "" {
      Laws.RecoveredIsBacked(p, c, Pagination.ListAll(f.pages).value, infos[i]);
    }
    MergedFile(dir, infos, params, f.writes, name);
  }

  /** An available disk, listed to recovery, carrying the name's tag and the marker, of a sane size. */
  ghost predicate Backing(p: Provider, c: Cloud, f: RecoverCalls, path: string, name: string)
    requires Pagination.ListAll(f.pages).Ok?
  {
    && path in c.disks && Lists(Pagination.ListAll(f.pages).value, path)
    && Laws.Claimed(p, c.disks[path], name) && c.disks[path].name == Some(name)
    && c.disks[path].status == "available"
    && c.disks[path].capacity.Some? && 0 < c.disks[path].capacity.value <= MAX_UNITS
  }

  /** Whatever recovery saved for a missing name is that name's one claimed disk, exactly. */
  lemma RebuiltRecordsAreDisks(d: Deployment, c: Cloud, dir: Store.Dir, params: Params, p: Provider, f: RecoverCalls, name: string)
    requires Laws.Orderly(c) && TruthfulPages(c, f.pages) && Recovers(d, params, p, f)
    requires PlainName(name) && Store.FileName(name) !in dir
    requires Store.Load(Recover(d, dir, Some(params), f), name).Ok?
    ensures var rec := Store.Load(Recover(d, dir, Some(params), f), name).value;
            && Backing(p, c, f, rec.path, name)
            && rec == RebuiltRecord(c.disks[rec.path], params)
  {
    RecoveredFile(d, c, dir, params, p, f, name);
    var after := Recover(d, dir, Some(params), f);
    var items := Pagination.ListAll(f.pages).value;
    var infos := Prov.RecoverAll(p, items);
    var i :| 0 <= i < |infos| && infos[i].volumeID == name
             && after[Store.FileName(name)] == Store.RecordFile(Store.RecoveredRecord(infos[i], Store.Sanitize(params)));
    Laws.RecoveredIsBacked(p, c, items, infos[i]);
    assert Laws.WellTagged(c) && Laws.OwnedBy(c.disks[infos[i].path], name);
  }

  lemma ListedNamesAreSaved(d: Deployment, c: Cloud, dir: Store.Dir, params: Params, p: Provider, f: RecoverCalls, name: string)
    requires Laws.Orderly(c) && TruthfulPages(c, f.pages) && Recovers(d, params, p, f)
    requires PlainName(name) && Store.FileName(name) !in dir
    requires Names(RecoveredInfos(p, f), name) && name !in f.writes.failing
    ensures Store.Load(Recover(d, dir, Some(params), f), name).Ok?
  {
    RecoveredFile(d, c, dir, params, p, f, name);
  }

  /** The listing shows the recoverable disk, so its name is among the recovered ones. */
  lemma RecoverableIsNamed(c: Cloud, p: Provider, f: RecoverCalls, id: string)
    requires Laws.Orderly(c) && FullRecovery(p, c, f)
    requires id in c.disks && InPlacement(p, c.disks[id]) && Laws.Recoverable(p, c.disks[id])
    ensures Names(RecoveredInfos(p, f), c.disks[id].name.value) && PlainName(c.disks[id].name.value)
  {
    var disk := c.disks[id];
    var items := Pagination.ListAll(f.pages).value;
    assert Lists(items, id);
    Laws.RecoverableIsRecovered(p, c, items, id);
    var info := VolumeInfo(disk.name.value, id, disk.capacity.value * GIB, "ibmcloud", Prov.InfoMetadata(disk));
    assert info in Prov.RecoverAll(p, items);
    assert Laws.OwnedBy(disk, disk.name.value);
  }

  /** Every recoverable disk of the placement whose record is missing comes back as its name's record. */
  lemma RecoverableDisksAreRebuilt(d: Deployment, c: Cloud, dir: Store.Dir, params: Params, p: Provider, f: RecoverCalls, id: string)
    requires Laws.Orderly(c) && FullRecovery(p, c, f) && Recovers(d, params, p, f)
    requires id in c.disks && InPlacement(p, c.disks[id]) && Laws.Recoverable(p, c.disks[id])
    requires Store.FileName(c.disks[id].name.value) !in dir
    ensures Store.Load(Recover(d, dir, Some(params), f), c.disks[id].name.value)
         == Ok(RebuiltRecord(c.disks[id], params))
  {
    var name := c.disks[id].name.value;
    RecoverableIsNamed(c, p, f, id);
    ListedNamesAreSaved(d, c, dir, params, p, f, name);
    RebuiltRecordsAreDisks(d, c, dir, params, p, f, name);
    var rec := Store.Load(Recover(d, dir, Some(params), f), name).value;
    OneDiskOnly(c, rec.path, id, name);
  }

  lemma OneDiskOnly(c: Cloud, a: string, b: string, name: string)
    requires Laws.OneDiskPerName(c) && a in c.disks && b in c.disks
    requires Laws.OwnedBy(c.disks[a], name) && Laws.OwnedBy(c.disks[b], name)
    ensures a == b
  {
  }

  /** loadVolumeRecord of a volume without a file: what recovery rebuilt of it, or nothing. */
  lemma LoadsWhatIsRebuilt(d: Deployment, dir: Store.Dir, params: Params, external: Option<Params>, f: RecoverCalls, name: string)
    requires Store.FileName(name) !in dir && Store.BootstrapParams(dir, dir, external) == Some(params)
    ensures var r := LoadVolumeRecord(d, dir, name, external, f).1;
            var rebuilt := Store.Load(Recover(d, dir, Some(params), f), name);
            (r.Ok? <==> rebuilt.Ok?) && (r.Ok? ==> r == rebuilt)
  {
  }

  /**
   Loading a volume without a file: a record comes back only for an available disk of the placement
   that is the name's own, with its path and exact size, and it does for every recoverable one.
   */
  lemma LoadOfMissing(d: Deployment, c: Cloud, dir: Store.Dir, params: Params, external: Option<Params>, p: Provider, f: RecoverCalls, name: string)
    requires Laws.Orderly(c) && FullRecovery(p, c, f) && Recovers(d, params, p, f)
    requires PlainName(name) && Store.FileName(name) !in dir && Store.BootstrapParams(dir, dir, external) == Some(params)
    ensures var (_, r) := LoadVolumeRecord(d, dir, name, external, f);
            && (r.Ok? ==> exists id :: id in c.disks && InPlacement(p, c.disks[id]) && Backing(p, c, f, id, name)
                            && r == Ok(RebuiltRecord(c.disks[id], params)))
            && (forall id :: id in c.disks && InPlacement(p, c.disks[id]) && Laws.Recoverable(p, c.disks[id])
                               && c.disks[id].name == Some(name)
                  ==> r == Ok(RebuiltRecord(c.disks[id], params)))
  {
    LoadsWhatIsRebuilt(d, dir, params, external, f, name);
    if Store.Load(Recover(d, dir, Some(params), f), name).Ok? {
      RebuiltRecordsAreDisks(d, c, dir, params, p, f, name);
      ListedIsInPlacement(p, c, f, Store.Load(Recover(d, dir, Some(params), f), name).value.path);
    }
    forall id | id in c.disks && InPlacement(p, c.disks[id]) && Laws.Recoverable(p, c.disks[id])
                && c.disks[id].name == Some(name)
      ensures Store.Load(Recover(d, dir, Some(params), f), name) == Ok(RebuiltRecord(c.disks[id], params))
    {
      RecoverableDisksAreRebuilt(d, c, dir, params, p, f, id);
    }
  }

  lemma ListedIsInPlacement(p: Provider, c: Cloud, f: RecoverCalls, id: string)
    requires FullRecovery(p, c, f) && id in c.disks && Lists(Pagination.ListAll(f.pages).value, id)
    ensures InPlacement(p, c.disks[id])
  {
  }

  /** In particular after the store's directory was wiped. */
  lemma LoadAfterWipe(d: Deployment, c: Cloud, params: Params, p: Provider, f: RecoverCalls, name: string)
    requires Laws.Orderly(c) && FullRecovery(p, c, f) && Recovers(d, params, p, f) && PlainName(name)
    ensures var (_, r) := LoadVolumeRecord(d, map[], name, Some(params), f);
            && (r.Ok? ==> exists id :: id in c.disks && InPlacement(p, c.disks[id]) && Backing(p, c, f, id, name)
                            && r == Ok(RebuiltRecord(c.disks[id], params)))
            && (forall id :: id in c.disks && InPlacement(p, c.disks[id]) && Laws.Recoverable(p, c.disks[id])
                               && c.disks[id].name == Some(name)
                  ==> r == Ok(RebuiltRecord(c.disks[id], params)))
  {
    assert Store.Records(map[]) == [];
    LoadOfMissing(d, c, map[], params, Some(params), p, f, name);
  }

  // ---- Disks as the driver created them ----

  /** The disk has the settings and the one ownership tag its create gave it. */
  ghost predicate Intact(p: Provider, disk: Volume, name: string) {
    Prov.OwnershipConflict(p, disk, name) == None && Prov.TagScan(disk.tags) == (name, false)
  }

  ghost predicate AsCreated(p: Provider, c: Cloud) {
    forall id, name :: id in c.disks && Laws.Claimed(p, c.disks[id], name) ==> Intact(p, c.disks[id], name)
  }

  /** The digest tells the two configurations apart if they differ in more than tags and native ID. */
  ghost predicate Distinguishes(p: Provider, q: Provider) {
    p.ConfigTag() == q.ConfigTag() ==>
      q.config.(extraTags := [], volumeID := "") == p.config.(extraTags := [], volumeID := "")
  }

  lemma OwnershipIsNoMarker(tag: string)
    requires HasPrefix(tag, OWNERSHIP_TAG_PREFIX)
    ensures !HasPrefix(tag, CONFIG_TAG_PREFIX)
  {
    assert tag[8] == OWNERSHIP_TAG_PREFIX[8] == 'v';
    assert CONFIG_TAG_PREFIX[8] == 'c';
  }

  /** A new disk carries no configuration marker but its own. */
  lemma OneMarker(q: Provider, name: string, tag: string)
    requires Accepted(q.config) && HasPrefix(tag, CONFIG_TAG_PREFIX) && tag in Prov.DiskTags(q, name)
    ensures tag == q.ConfigTag()
  {
    OwnershipIsNoMarker(OwnershipTag(name));
    forall i | 0 <= i < |q.config.extraTags|
      ensures q.config.extraTags[i] != tag
    {
      assert !IsReserved(q.config.extraTags[i]);
    }
  }

  /** A disk created under q is intact for p whenever p claims it. */
  lemma NewDiskIsIntact(p: Provider, q: Provider, c: Cloud, c': Cloud, name: string, id: string, other: string)
    requires Accepted(q.config) && Distinguishes(p, q) && Laws.AddsAtMostOne(q, c, c', name)
    requires id in c'.disks && id !in c.disks && Laws.Claimed(p, c'.disks[id], other)
    ensures Intact(p, c'.disks[id], other)
  {
    assert c'.disks[id].tags == Prov.DiskTags(q, name);
    OneMarker(q, name, p.ConfigTag());
    Laws.NewDiskOwner(q, name, other);
    Laws.NewDiskHasNoConflict(q, c, c', name, id);
    Laws.TagScanRecovers(q, name);
    SameConfigSameConflicts(p, q, c'.disks[id], name);
  }

  lemma SameConfigSameConflicts(p: Provider, q: Provider, v: Volume, name: string)
    requires p.ConfigTag() == q.ConfigTag()
    requires q.config.(extraTags := [], volumeID := "") == p.config.(extraTags := [], volumeID := "")
    ensures Prov.OwnershipConflict(p, v, name) == Prov.OwnershipConflict(q, v, name)
  {
    var a, b := p.config.(extraTags := [], volumeID := ""), q.config.(extraTags := [], volumeID := "");
    assert a.zone == b.zone && a.profile == b.profile && a.resourceGroup == b.resourceGroup;
    assert a.encryptionKey == b.encryptionKey && a.iops == b.iops && a.throughput == b.throughput;
  }

  /** A create under any configuration leaves the claimed disks so. */
  lemma CreatesStayAsCreated(p: Provider, q: Provider, c: Cloud, c': Cloud, name: string)
    requires AsCreated(p, c) && Accepted(q.config) && Distinguishes(p, q) && Laws.AddsAtMostOne(q, c, c', name)
    ensures AsCreated(p, c')
  {
    forall id, other | id in c'.disks && Laws.Claimed(p, c'.disks[id], other)
      ensures Intact(p, c'.disks[id], other)
    {
      if id in c.disks {
        assert c'.disks[id] == c.disks[id];
        assert Laws.Claimed(p, c.disks[id], other);
      } else {
        NewDiskIsIntact(p, q, c, c', name, id, other);
      }
    }
  }

  /** An available, sized disk of the placement, claimed for the name. */
  ghost predicate Available(p: Provider, disk: Volume, name: string) {
    && Laws.Claimed(p, disk, name) && InPlacement(p, disk) && disk.status == "available"
    && disk.capacity.Some? && 0 < disk.capacity.value <= MAX_UNITS
  }

  lemma AvailableIsRecoverable(p: Provider, c: Cloud, id: string, name: string)
    requires Laws.Orderly(c) && AsCreated(p, c) && name != ""
    requires id in c.disks && Available(p, c.disks[id], name)
    ensures Laws.Recoverable(p, c.disks[id]) && c.disks[id].name == Some(name)
  {
    assert Laws.WellTagged(c) && Laws.OwnedBy(c.disks[id], name);
    assert Intact(p, c.disks[id], name);
    var disk := c.disks[id];
    assert disk.name == Some(name);
  }

  /**
   For disks as the driver created them, loading a volume without a file succeeds exactly when the
   name has an available disk in the placement with its tag and the marker. A wiped store is the case
   of no files at all.
   */
  lemma LoadOfMissingIff(d: Deployment, c: Cloud, dir: Store.Dir, params: Params, external: Option<Params>, p: Provider, f: RecoverCalls, name: string)
    requires Laws.Orderly(c) && AsCreated(p, c) && FullRecovery(p, c, f) && Recovers(d, params, p, f)
    requires PlainName(name) && name != "" && Store.FileName(name) !in dir
    requires Store.BootstrapParams(dir, dir, external) == Some(params)
    ensures LoadVolumeRecord(d, dir, name, external, f).1.Ok? <==>
              exists id :: id in c.disks && Available(p, c.disks[id], name)
  {
    LoadOfMissing(d, c, dir, params, external, p, f, name);
    if LoadVolumeRecord(d, dir, name, external, f).1.Ok? {
      var id :| id in c.disks && InPlacement(p, c.disks[id]) && Backing(p, c, f, id, name);
      assert Available(p, c.disks[id], name);
    }
    if exists id :: id in c.disks && Available(p, c.disks[id], name) {
      var id :| id in c.disks && Available(p, c.disks[id], name);
      AvailableIsRecoverable(p, c, id, name);
    }
  }
}
