/**
 What the IBM provider's calls keep: which disks they may touch, one disk per volume name, the tags
 that let a disk be recognised again, and what a successful answer says about the disk behind it.
 */
module IbmProviderLaws {
  import opened Basics
  import opened Decimal
  import opened Capacity
  import opened IbmConfig
  import opened IbmSdk
  import opened IbmProvider
  import opened IbmLookupLaws
  import opened Pagination
  import opened ProviderApi

  ghost predicate OwnedBy(d: Volume, name: string) {
    OwnershipTag(name) in d.tags
  }

  /** A disk carrying the ownership tag of a name is that name's disk. */
  ghost predicate WellTagged(c: Cloud) {
    forall id, name :: id in c.disks && OwnedBy(c.disks[id], name) ==> c.disks[id].name == Some(name)
  }

  ghost predicate OneDiskPerName(c: Cloud) {
    forall i, j, name ::
      i in c.disks && j in c.disks && OwnedBy(c.disks[i], name) && OwnedBy(c.disks[j], name) ==> i == j
  }

  ghost predicate Orderly(c: Cloud) {
    ValidCloud(c) && WellTagged(c) && OneDiskPerName(c)
  }

  /** This driver's claim on a disk: the ownership tag of the name and the configuration marker. */
  ghost predicate Claimed(p: Provider, d: Volume, name: string) {
    OwnedBy(d, name) && p.ConfigTag() in d.tags
  }

  // ---- Tags ----

  lemma OwnershipTagIsInjective(a: string, b: string)
    requires OwnershipTag(a) == OwnershipTag(b)
    ensures a == b
  {
    PrependIsInjective(OWNERSHIP_TAG_PREFIX, a, b);
  }

  lemma ConfigTagIsNotOwnership(p: Provider)
    ensures !HasPrefix(p.ConfigTag(), OWNERSHIP_TAG_PREFIX)
  {
    assert p.ConfigTag()[8] == CONFIG_TAG_PREFIX[8] == 'c';
    assert OWNERSHIP_TAG_PREFIX[8] == 'v';
  }

  /** A new disk is owned by its own name only. */
  lemma NewDiskOwner(p: Provider, name: string, other: string)
    requires !AnyReserved(p.config.extraTags)
    ensures OwnershipTag(other) in DiskTags(p, name) <==> other == name
    ensures p.ConfigTag() in DiskTags(p, name)
  {
    var tags := DiskTags(p, name);
    assert tags[0] == OwnershipTag(name) && tags[1] == p.ConfigTag();
    ConfigTagIsNotOwnership(p);
    forall i | 1 <= i < |tags|
      ensures tags[i] != OwnershipTag(other)
    {
      if i > 1 {
        assert tags[i] == p.config.extraTags[i - 2];
        assert !IsReserved(p.config.extraTags[i - 2]);
      }
    }
    if OwnershipTag(other) == OwnershipTag(name) {
      OwnershipTagIsInjective(other, name);
    }
  }

  lemma {:induction false} TagScanSkips(tags: seq<string>, extra: seq<string>)
    requires !AnyReserved(extra)
    ensures TagScan(tags + extra) == TagScan(tags)
  {
    if extra == [] {
      assert tags + extra == tags;
    } else {
      var init := extra[..|extra| - 1];
      assert (tags + extra)[..|tags + extra| - 1] == tags + init;
      assert !IsReserved(extra[|extra| - 1]);
      forall i | 0 <= i < |init| ensures !IsReserved(init[i]) {
        assert init[i] == extra[i];
      }
      TagScanSkips(tags, init);
    }
  }

  lemma TagScanRecovers(p: Provider, name: string)
    requires !AnyReserved(p.config.extraTags)
    ensures TagScan(DiskTags(p, name)) == (name, false)
  {
    var tag := OwnershipTag(name);
    ConfigTagIsNotOwnership(p);
    assert tag[|OWNERSHIP_TAG_PREFIX|..] == name;
    assert [tag][..0] == [];
    assert TagScan([tag]) == (name, false);
    assert [tag, p.ConfigTag()][..1] == [tag];
    assert TagScan([tag, p.ConfigTag()]) == (name, false);
    TagScanSkips([tag, p.ConfigTag()], p.config.extraTags);
  }

  predicate IsOwnershipTag(tag: string) {
    "caa-csi-volume-id:" <= tag
  }

  /** The tag's name, its prefix taken off. */
  function TagName(tag: string): string
    requires IsOwnershipTag(tag)
  {
    tag[|"caa-csi-volume-id:"|..]
  }

  /** The scan gives the last ownership tag's name, ambiguous exactly if an earlier one named something too. */
  lemma {:induction false} TagScanIs(tags: seq<string>)
    ensures var (name, ambiguous) := TagScan(tags);
            && (ambiguous <==> exists i, j :: 0 <= i < j < |tags| && IsOwnershipTag(tags[i]) && IsOwnershipTag(tags[j]) && TagName(tags[i]) != "")
            && (forall i :: 0 <= i < |tags| && IsOwnershipTag(tags[i]) && (forall j :: i < j < |tags| ==> !IsOwnershipTag(tags[j])) ==>
                  name == TagName(tags[i]))
            && (name != "" ==> exists i :: 0 <= i < |tags| && IsOwnershipTag(tags[i]) && TagName(tags[i]) == name)
  {
    if tags != [] {
      var init, last := tags[..|tags| - 1], |tags| - 1;
      TagScanIs(init);
      assert forall i :: 0 <= i < last ==> init[i] == tags[i];
      if IsOwnershipTag(tags[last]) {
        LastOwnership(init);
      }
    }
  }

  /** If some ownership tag names something, the scan is ambiguous or has a name. */
  lemma {:induction false} LastOwnership(tags: seq<string>)
    ensures (exists i :: 0 <= i < |tags| && IsOwnershipTag(tags[i]) && TagName(tags[i]) != "") ==> TagScan(tags).0 != "" || TagScan(tags).1
  {
    if tags != [] {
      var init := tags[..|tags| - 1];
      LastOwnership(init);
      assert forall i :: 0 <= i < |init| ==> init[i] == tags[i];
    }
  }

  // ---- Ownership under lossy replies ----

  /** A reply passes the ownership check whenever the disk itself does. */
  lemma ConflictFreeInEveryView(p: Provider, d: Volume, v: Volume, name: string)
    requires Describes(v, d) && OwnershipConflict(p, d, name) == None
    ensures OwnershipConflict(p, v, name) == None
  {
  }

  function Provisioning(p: Provider, name: string, units: int, id: string, capacity: int, status: string): Volume {
    Request(p, name, units).(id := id, capacity := Some(capacity), status := status)
  }

  /**
   Create-to-recover round trip. A disk the driver created, seen through a reply that drops its
   name, resource group and key, still passes the ownership check, and its tags give back the name.
   */
  lemma CreatedDiskIsRecognised(p: Provider, name: string, units: int, id: string, capacity: int, status: string, drop: Drop)
    requires Accepted(p.config) && name != ""
    ensures var v := View(Provisioning(p, name, units, id, capacity, status), drop);
            && OwnershipConflict(p, v, name) == None
            && RecoveredName(v) == Some(name)
            && RecoveredName(v.(name := None)) == Some(name)
  {
    NewDiskOwner(p, name, name);
    TagScanRecovers(p, name);
  }

  /** A disk is encrypted with the configured key if and only if there is one, and keeps every extra tag. */
  lemma CreatedDiskIsAsConfigured(p: Provider, name: string, units: int, id: string, capacity: int, status: string)
    requires Accepted(p.config)
    ensures var d := Provisioning(p, name, units, id, capacity, status);
            && d.key == (if p.config.encryptionKey != "" then Some(p.config.encryptionKey) else None)
            && (forall tag :: tag in p.config.extraTags ==> tag in d.tags)
            && (p.config.profile == "custom" ==> d.iops == Some(p.config.iops))
            && (p.config.resourceGroup != "" ==> d.group == Some(p.config.resourceGroup))
            && d.name == Some(name) && d.bandwidth == p.config.throughput
  {
    assert ToLower("rue") == "rue" by {
      assert ToLower("ue") == "ue";
    }
    assert ToLower("true") == "true";
  }

  // ---- Create ----

  /** c' is c, or c with one more disk for the name, under a native ID never used before. */
  ghost predicate AddsAtMostOne(p: Provider, c: Cloud, c': Cloud, name: string) {
    || c' == c
    || exists units, id, capacity, status ::
         && id !in c.used && id !in c.disks && id != ""
         && c' == Cloud(c.disks[id := Provisioning(p, name, units, id, capacity, status)], c.used + {id})
  }

  /** A disk fresh from a create passes the ownership check in full. */
  lemma NewDiskHasNoConflict(p: Provider, c: Cloud, c': Cloud, name: string, id: string)
    requires Accepted(p.config) && AddsAtMostOne(p, c, c', name)
    requires id in c'.disks && id !in c.disks
    ensures OwnershipConflict(p, c'.disks[id], name) == None
  {
    NewDiskOwner(p, name, name);
  }

  /** What a successful create or adoption says about the disk it names. */
  ghost predicate Backs(p: Provider, c: Cloud, name: string, info: VolumeInfo) {
    && info.path in c.disks
    && var d := c.disks[info.path];
       && Claimed(p, d, name)
       && d.capacity.Some? && 0 < d.capacity.value <= MAX_UNITS && info.sizeBytes == d.capacity.value * GIB
       && d.az == p.config.zone && d.profile == Some(p.config.profile)
       && info.provider == "ibmcloud"
       && info.metadata == InfoMetadata(d)
  }

  lemma ProvisioningFacts(p: Provider, c: Cloud, name: string, units: int, o: CreateOutcome)
    requires ValidCloud(c)
    ensures var (c', r) := SdkCreate(c, Request(p, name, units), o);
            && ValidCloud(c')
            && AddsAtMostOne(p, c, c', name)
            && (r.Created? ==> r.volume.id in c'.disks && r.volume.id !in c.used
                               && Describes(r.volume.(status := c'.disks[r.volume.id].status), c'.disks[r.volume.id])
                               && IsProvisioning(p, name, units, c'.disks[r.volume.id]))
  {
    var (c', r) := SdkCreate(c, Request(p, name, units), o);
    if c' != c {
      var d := Provisioning(p, name, units, o.id, units + o.extra, o.status);
      assert c' == Cloud(c.disks[o.id := d], c.used + {o.id});
      assert c'.disks[o.id] == d;
    }
  }

  ghost predicate IsProvisioning(p: Provider, name: string, units: int, d: Volume) {
    d.capacity.Some? && d == Provisioning(p, name, units, d.id, d.capacity.value, d.status)
  }

  lemma AcceptedReplyIsBacked(p: Provider, c: Cloud, v: Volume, name: string, units: int, needed: int)
    requires v.id in c.disks && IsProvisioning(p, name, units, c.disks[v.id])
    requires Describes(v.(status := c.disks[v.id].status), c.disks[v.id])
    requires AcceptReply(v, name, needed).Ok?
    ensures var info := AcceptReply(v, name, needed).value;
            Backs(p, c, name, info) && info.sizeBytes >= needed && info.path == v.id
  {
    var d := c.disks[v.id];
    assert d.tags[0] == OwnershipTag(name) && d.tags[1] == p.ConfigTag();
  }

  lemma FreshFacts(p: Provider, c: Cloud, name: string, needed: int, create: CreateOutcome, refresh: GetOutcome)
    requires ValidCloud(c)
    ensures var (c', r) := CreateFresh(p, c, name, needed, create, refresh);
            && ValidCloud(c')
            && AddsAtMostOne(p, c, c', name)
            && (r.Ok? ==> Backs(p, c', name, r.value) && r.value.sizeBytes >= needed && r.value.path !in c.used)
  {
    var units := needed / GIB;
    ProvisioningFacts(p, c, name, units, create);
    var (c', created) := SdkCreate(c, Request(p, name, units), create);
    if CreateFresh(p, c, name, needed, create, refresh).1.Ok? {
      var v := if created.volume.status != "available" then SdkGet(c', created.volume.id, refresh).volume else created.volume;
      AcceptedReplyIsBacked(p, c', v, name, units, needed);
    }
  }

  lemma CreateFacts(p: Provider, c: Cloud, name: string, size: int, f: CreateCalls)
    requires ValidCloud(c) && TruthfulPages(c, f.pages)
    ensures var (c', r) := Create(p, c, name, size, f);
            && ValidCloud(c')
            && AddsAtMostOne(p, c, c', name)
            && (r.Ok? ==> Backs(p, c', name, r.value)
                          && Normalized(p.config.profile, size).Some?
                          && r.value.sizeBytes >= Normalized(p.config.profile, size).value)
  {
    if p.config.zone != "" && name != "" && Normalized(p.config.profile, size).Some? {
      var needed := Normalized(p.config.profile, size).value;
      var vol := Lookup(p, c, name, f.get, f.pages);
      if vol.Ok? {
        LookupFinds(p, c, name, f.get, f.pages);
      } else if vol.error == VolumeNotFound {
        FreshFacts(p, c, name, needed, f.create, f.refresh);
      }
    }
  }

  lemma AddingKeepsTags(p: Provider, c: Cloud, c': Cloud, name: string)
    requires ValidCloud(c) && AddsAtMostOne(p, c, c', name)
    requires WellTagged(c) && !AnyReserved(p.config.extraTags)
    ensures WellTagged(c')
  {
    forall id, other | id in c'.disks && OwnedBy(c'.disks[id], other)
      ensures c'.disks[id].name == Some(other)
    {
      if id !in c.disks {
        NewDiskOwner(p, name, other);
      }
    }
  }

  ghost predicate HasDiskFor(c: Cloud, name: string) {
    exists id :: id in c.disks && OwnedBy(c.disks[id], name)
  }

  /** Adding a disk for a name leaves one disk per name exactly when the name had none. */
  lemma AddingDuplicatesIff(p: Provider, c: Cloud, c': Cloud, name: string)
    requires Orderly(c) && AddsAtMostOne(p, c, c', name) && c' != c
    requires !AnyReserved(p.config.extraTags)
    ensures OneDiskPerName(c') <==> !HasDiskFor(c, name)
  {
    var units, id, capacity, status :|
      && id !in c.used && id !in c.disks && id != ""
      && c' == Cloud(c.disks[id := Provisioning(p, name, units, id, capacity, status)], c.used + {id});
    NewDiskOwner(p, name, name);
    assert OwnedBy(c'.disks[id], name);
    if HasDiskFor(c, name) {
      var kept :| kept in c.disks && OwnedBy(c.disks[kept], name);
      assert OwnedBy(c'.disks[kept], name) && kept != id;
    } else {
      forall i, j, other |
        i in c'.disks && j in c'.disks && OwnedBy(c'.disks[i], other) && OwnedBy(c'.disks[j], other)
        ensures i == j
      {
        NewDiskOwner(p, name, other);
        assert i in c.disks ==> c'.disks[i] == c.disks[i];
        assert j in c.disks ==> c'.disks[j] == c.disks[j];
      }
    }
  }

  // ---- Lookups that miss ----

  /** Does a lookup go by the native ID rather than by name? */
  predicate GoesByNativeID(p: Provider, get: GetOutcome) {
    p.config.volumeID != "" && get.Answers?
  }

  ghost predicate NoneMatches(items: Listing, name: string) {
    forall i :: 0 <= i < |items| ==> items[i].Some? && !Matches(items[i].value, name)
  }

  /** A lookup misses: the native ID gone by is absent, or no listed disk matches the name. */
  ghost predicate Misses(p: Provider, c: Cloud, name: string, get: GetOutcome, pages: DiskPages) {
    if GoesByNativeID(p, get) then p.config.volumeID !in c.disks
    else name != "" && ListAll(pages).Ok? && NoneMatches(ListAll(pages).value, name)
  }

  lemma {:induction false} ScanMissesIff(items: Listing, name: string)
    ensures Scan(items, name, None) == Err(VolumeNotFound) <==> NoneMatches(items, name)
  {
    if items != [] {
      var rest := items[1..];
      assert NoneMatches(items, name) ==> NoneMatches(rest, name) by {
        assert forall i :: 0 <= i < |rest| ==> rest[i] == items[i + 1];
      }
      if items[0].Some? && !Matches(items[0].value, name) {
        ScanMissesIff(rest, name);
        assert forall i :: 0 < i < |items| ==> items[i] == rest[i - 1];
      } else if items[0].Some? {
        ScanKeepsItsMatch(rest, name, Named(items[0].value, name));
      }
    }
  }

  /** Once a match is found the scan ends with it or with another error. */
  lemma {:induction false} ScanKeepsItsMatch(items: Listing, name: string, found: Volume)
    ensures Scan(items, name, Some(found)) != Err(VolumeNotFound)
  {
    if items != [] {
      ScanKeepsItsMatch(items[1..], name, found);
    }
  }

  lemma MissesIff(p: Provider, c: Cloud, name: string, get: GetOutcome, pages: DiskPages)
    ensures Lookup(p, c, name, get, pages) == Err(VolumeNotFound) <==> Misses(p, c, name, get, pages)
  {
    if !GoesByNativeID(p, get) && ListAll(pages).Ok? {
      ScanMissesIff(ListAll(pages).value, name);
    }
  }

  /** The pre-resolved native ID is definitely gone, so the name is never looked up. */
  ghost predicate StaleNativeID(p: Provider, c: Cloud, get: GetOutcome) {
    p.config.volumeID != "" && get.Answers? && p.config.volumeID !in c.disks
  }

  /** Against a complete name query, only a stale native ID makes a lookup miss a name's disk. */
  lemma CompleteQueriesMissIff(p: Provider, c: Cloud, name: string, get: GetOutcome, pages: DiskPages)
    requires Orderly(c) && CompletePages(c, ByName(name), pages) && HasDiskFor(c, name)
    ensures Misses(p, c, name, get, pages) <==> StaleNativeID(p, c, get)
  {
    if !GoesByNativeID(p, get) && ListAll(pages).Ok? {
      CompleteQueryMatches(c, name, ListAll(pages).value);
    }
  }

  lemma CompleteQueryMatches(c: Cloud, name: string, items: Listing)
    requires WellTagged(c) && Complete(c, ByName(name), items) && HasDiskFor(c, name)
    ensures !NoneMatches(items, name)
  {
    var id :| id in c.disks && OwnedBy(c.disks[id], name);
    assert Selects(ByName(name), c.disks[id]);
    assert Lists(items, id);
    var i :| 0 <= i < |items| && items[i].Some? && items[i].value.id == id;
    assert IsView(items[i].value, c.disks[id]);
  }

  // ---- One disk per name ----

  /** Whether a create call reaches the cloud's create operation and gets a disk provisioned. */
  ghost predicate Provisions(p: Provider, c: Cloud, name: string, size: int, f: CreateCalls) {
    && p.config.zone != "" && name != "" && Normalized(p.config.profile, size).Some?
    && Misses(p, c, name, f.get, f.pages)
    && f.create.Provisioned? && f.create.id != "" && f.create.id !in c.used
  }

  /** Only a provisioned disk changes the cloud of a create. */
  lemma ChangesMeanProvisioning(p: Provider, c: Cloud, name: string, size: int, f: CreateCalls)
    ensures Create(p, c, name, size, f).0 != c ==> Provisions(p, c, name, size, f)
  {
    MissesIff(p, c, name, f.get, f.pages);
  }

  lemma ProvisioningChanges(p: Provider, c: Cloud, name: string, size: int, f: CreateCalls)
    requires ValidCloud(c) && Provisions(p, c, name, size, f)
    ensures var c' := Create(p, c, name, size, f).0;
            c' != c && f.create.id in c'.disks && c'.disks[f.create.id].tags == DiskTags(p, name)
  {
    MissesIff(p, c, name, f.get, f.pages);
    UsedStaysUsed(c, Request(p, name, Normalized(p.config.profile, size).value / GIB), f.create);
  }

  /**
   One disk per name survives a create call unless the call provisions a disk while the name already has
   one: its lookup went by a native ID that is gone, or the listing left the name's disk out. It is
   exactly that case, whatever the listing shows of the disks that exist.
   */
  lemma CreateKeepsOneDiskPerNameIff(p: Provider, c: Cloud, name: string, size: int, f: CreateCalls)
    requires Orderly(c) && Accepted(p.config) && TruthfulPages(c, f.pages)
    ensures var c' := Create(p, c, name, size, f).0;
            && ValidCloud(c') && WellTagged(c')
            && (OneDiskPerName(c') <==> !(Provisions(p, c, name, size, f) && HasDiskFor(c, name)))
  {
    var c' := Create(p, c, name, size, f).0;
    CreateFacts(p, c, name, size, f);
    AddingKeepsTags(p, c, c', name);
    ChangesMeanProvisioning(p, c, name, size, f);
    if c' != c {
      AddingDuplicatesIff(p, c, c', name);
    } else if Provisions(p, c, name, size, f) {
      ProvisioningChanges(p, c, name, size, f);
    }
  }

  /** With a complete name query it is exactly the case of a stale native ID. */
  lemma CompleteQueryKeepsOneDiskPerNameIff(p: Provider, c: Cloud, name: string, size: int, f: CreateCalls)
    requires Orderly(c) && Accepted(p.config) && CompletePages(c, ByName(name), f.pages)
    ensures OneDiskPerName(Create(p, c, name, size, f).0) <==>
              !(Provisions(p, c, name, size, f) && StaleNativeID(p, c, f.get) && HasDiskFor(c, name))
  {
    CreateKeepsOneDiskPerNameIff(p, c, name, size, f);
    if HasDiskFor(c, name) {
      CompleteQueriesMissIff(p, c, name, f.get, f.pages);
    }
  }

  lemma UsedStaysUsed(c: Cloud, request: Volume, o: CreateOutcome)
    requires ValidCloud(c)
    ensures SdkCreate(c, request, o).0.used == c.used <==>
              !(o.Provisioned? && o.id != "" && o.id !in c.used)
  {
  }

  // ---- Retry ----

  /** Every reply in a listing states the disk's capacity. */
  ghost predicate StatesCapacity(items: Listing) {
    forall i :: 0 <= i < |items| && items[i].Some? ==> items[i].value.capacity.Some?
  }

  ghost predicate UniqueName(c: Cloud, name: string) {
    forall i, j :: i in c.disks && j in c.disks && c.disks[i].name == Some(name) && c.disks[j].name == Some(name) ==> i == j
  }

  /** A complete answer to a filtered query, capacities included. */
  ghost predicate CompleteListing(c: Cloud, f: Filter, pages: DiskPages) {
    ListAll(pages).Ok? && Complete(c, f, ListAll(pages).value) && StatesCapacity(ListAll(pages).value)
  }

  /** A lookup reaches the disk: by its native ID, or by a name only it has. */
  ghost predicate Reaches(p: Provider, c: Cloud, name: string, get: GetOutcome, pages: DiskPages, path: string) {
    if GoesByNativeID(p, get) then p.config.volumeID == path && !get.drop.capacity
    else UniqueName(c, name) && CompleteListing(c, ByName(name), pages)
  }

  lemma LookupReaches(p: Provider, c: Cloud, name: string, get: GetOutcome, pages: DiskPages, path: string)
    requires Orderly(c) && name != "" && Reaches(p, c, name, get, pages, path)
    requires path in c.disks && OwnedBy(c.disks[path], name)
    ensures var r := Lookup(p, c, name, get, pages);
            && r.Ok?
            && r.value.id == path && r.value.capacity == c.disks[path].capacity
            && Describes(r.value, c.disks[path]) && r.value.name == Some(name)
  {
    var d := c.disks[path];
    assert WellTagged(c) && OwnedBy(d, name);
    assert d.name == Some(name);
    if !GoesByNativeID(p, get) {
      CompleteLookup(c, name, pages);
      ScanFinds(ListAll(pages).value, name, None);
    }
  }

  /** The disk is available, free of conflicts and described by info. */
  ghost predicate Usable(p: Provider, c: Cloud, name: string, info: VolumeInfo) {
    && Backs(p, c, name, info)
    && OwnershipConflict(p, c.disks[info.path], name) == None
    && c.disks[info.path].status == "available"
  }

  /** A create whose lookup reaches a usable disk adopts it if it is large enough, and fails otherwise. */
  lemma CreateAdoptsReachedDisk(p: Provider, c: Cloud, name: string, size: int, info: VolumeInfo, f: CreateCalls)
    requires Orderly(c) && name != "" && p.config.zone != "" && Usable(p, c, name, info)
    requires Reaches(p, c, name, f.get, f.pages, info.path)
    ensures var needed := Normalized(p.config.profile, size);
            var (c', r) := Create(p, c, name, size, f);
            && c' == c
            && r == (if needed.None? then Err(InvalidParameters)
                     else if info.sizeBytes < needed.value then Err(AlreadyExists(TooSmall))
                     else Ok(VolumeInfo(name, info.path, info.sizeBytes, info.provider, info.metadata)))
  {
    var d := c.disks[info.path];
    LookupReaches(p, c, name, f.get, f.pages, info.path);
    var v := Lookup(p, c, name, f.get, f.pages).value;
    ConflictFreeInEveryView(p, d, v, name);
    assert d.id == info.path && info.path in c.used;
  }

  /**
   Repeating a create for a disk that is still there, available and free of conflicts creates
   nothing and returns the same path, size and metadata exactly when its lookup does not go by a
   native ID other than the disk's.
   */
  lemma RetryFindsTheSameDiskIff(p: Provider, c: Cloud, name: string, size: int, info: VolumeInfo, f: CreateCalls)
    requires Orderly(c) && name != "" && p.config.zone != "" && Usable(p, c, name, info)
    requires Normalized(p.config.profile, size).Some? && info.sizeBytes >= Normalized(p.config.profile, size).value
    requires UniqueName(c, name) && CompleteListing(c, ByName(name), f.pages)
    requires f.get.Answers? ==> !f.get.drop.capacity
    ensures Create(p, c, name, size, f) == (c, Ok(VolumeInfo(name, info.path, info.sizeBytes, info.provider, info.metadata)))
            <==> (GoesByNativeID(p, f.get) ==> p.config.volumeID == info.path)
  {
    if GoesByNativeID(p, f.get) && p.config.volumeID != info.path {
      OtherNativeIDMisses(p, c, name, size, f, info.path);
    } else {
      CreateAdoptsReachedDisk(p, c, name, size, info, f);
    }
  }

  /** Going by another native ID, a create makes a new disk, fails, or answers with that other disk. */
  lemma OtherNativeIDMisses(p: Provider, c: Cloud, name: string, size: int, f: CreateCalls, path: string)
    requires ValidCloud(c) && GoesByNativeID(p, f.get) && p.config.volumeID != path
    ensures var (c', r) := Create(p, c, name, size, f);
            !(c' == c && r.Ok? && r.value.path == path)
  {
    if p.config.volumeID !in c.disks && Create(p, c, name, size, f).1.Ok? {
      UsedStaysUsed(c, Request(p, name, Normalized(p.config.profile, size).value / GIB), f.create);
    }
  }

  /** A successful create's metadata names its path. */
  lemma AnswersNameTheirPath(p: Provider, c: Cloud, name: string, size: int, f: CreateCalls)
    requires Create(p, c, name, size, f).1.Ok?
    ensures var info := Create(p, c, name, size, f).1.value;
            "cloud-volume-path" in info.metadata && info.metadata["cloud-volume-path"] == info.path
  {
  }

  // ---- Delete and expand ----

  lemma DeleteFacts(p: Provider, c: Cloud, name: string, get: GetOutcome, pages: DiskPages, o: ChangeOutcome)
    requires ValidCloud(c) && TruthfulPages(c, pages)
    ensures var (c', r) := Delete(p, c, name, get, pages, o);
            || c' == c
            || exists id :: id in c.disks && Claimed(p, c.disks[id], name) && c' == c.(disks := c.disks - {id})
    ensures var (c', r) := Delete(p, c, name, get, pages, o);
            p.config.volumeID != "" && get.Answers? ==>
              && (c'.disks == c.disks || c'.disks == c.disks - {p.config.volumeID})
              && (r.Ok? ==> p.config.volumeID !in c'.disks)
  {
    if Lookup(p, c, name, get, pages).Ok? {
      LookupFinds(p, c, name, get, pages);
    }
  }

  function Resized(c: Cloud, id: string, units: int): Cloud
    requires id in c.disks
  {
    c.(disks := c.disks[id := c.disks[id].(capacity := Some(units))])
  }

  /** An expand call changes nothing, or resizes one claimed disk to at least the rounded request. */
  ghost predicate ResizesAtMostOne(p: Provider, c: Cloud, c': Cloud, name: string, units: int) {
    || c' == c
    || exists id, reached :: id in c.disks && Claimed(p, c.disks[id], name) && reached >= units && c' == Resized(c, id, reached)
  }

  lemma ExpandFacts(p: Provider, c: Cloud, name: string, size: int64, get: GetOutcome, pages: DiskPages, o: UpdateOutcome)
    requires ValidCloud(c) && TruthfulPages(c, pages)
    ensures var (c', r) := Expand(p, c, name, size, get, pages, o);
            && ResizesAtMostOne(p, c, c', name, ExpandUnits(size))
            && (r.Ok? ==> exists id, reached :: id in c.disks && Claimed(p, c.disks[id], name)
                            && reached >= ExpandUnits(size) && c' == Resized(c, id, reached))
  {
    if GetInfo(p, c, name, get, pages).Ok? {
      LookupFinds(p, c, name, get, pages);
      var v := Lookup(p, c, name, get, pages).value;
      assert v.id in c.disks && Claimed(p, c.disks[v.id], name);
      if o.Updated? {
        var units := ExpandUnits(size) + o.extra;
        assert Expand(p, c, name, size, get, pages, o).0 == Resized(c, v.id, units);
      }
    }
  }

  /** No call changes or removes a disk that does not carry its name's ownership tag and its marker. */
  lemma ForeignDisksAreUntouched(p: Provider, c: Cloud, name: string, size: int64, f: CreateCalls, del: ChangeOutcome, upd: UpdateOutcome, id: string)
    requires ValidCloud(c) && TruthfulPages(c, f.pages)
    requires id in c.disks
    ensures var c' := Create(p, c, name, size, f).0; id in c'.disks && c'.disks[id] == c.disks[id]
    ensures !Claimed(p, c.disks[id], name) ==>
              var c' := Delete(p, c, name, f.get, f.pages, del).0; id in c'.disks && c'.disks[id] == c.disks[id]
    ensures !Claimed(p, c.disks[id], name) ==>
              var c' := Expand(p, c, name, size, f.get, f.pages, upd).0; id in c'.disks && c'.disks[id] == c.disks[id]
  {
    CreateFacts(p, c, name, size, f);
    DeleteFacts(p, c, name, f.get, f.pages, del);
    ExpandFacts(p, c, name, size, f.get, f.pages, upd);
  }

  lemma ShrinkingKeepsOrder(c: Cloud, c': Cloud)
    requires Orderly(c) && c'.used == c.used && c'.disks.Keys <= c.disks.Keys
    requires forall id :: id in c'.disks ==>
               c'.disks[id].id == c.disks[id].id && c'.disks[id].tags == c.disks[id].tags && c'.disks[id].name == c.disks[id].name
    ensures Orderly(c')
  {
    forall id, name | id in c'.disks && OwnedBy(c'.disks[id], name)
      ensures c'.disks[id].name == Some(name)
    {
      assert OwnedBy(c.disks[id], name);
    }
    forall i, j, name | i in c'.disks && j in c'.disks && OwnedBy(c'.disks[i], name) && OwnedBy(c'.disks[j], name)
      ensures i == j
    {
      assert OwnedBy(c.disks[i], name) && OwnedBy(c.disks[j], name);
    }
  }

  // ---- Recovery ----

  lemma {:induction false} RecoverAllContains(p: Provider, items: Listing, info: VolumeInfo)
    ensures info in RecoverAll(p, items) <==> exists i :: 0 <= i < |items| && Recovered(p, items[i]) == Some(info)
  {
    if items != [] {
      var init := items[..|items| - 1];
      RecoverAllContains(p, init, info);
      if exists i :: 0 <= i < |items| && Recovered(p, items[i]) == Some(info) {
        var i :| 0 <= i < |items| && Recovered(p, items[i]) == Some(info);
        assert i < |init| ==> init[i] == items[i];
      }
      if exists i :: 0 <= i < |init| && Recovered(p, init[i]) == Some(info) {
        var i :| 0 <= i < |init| && Recovered(p, init[i]) == Some(info);
        assert items[i] == init[i];
      }
    }
  }

  /** Recovery keeps the order of the listing. */
  lemma {:induction false} RecoverAllKeepsOrder(p: Provider, a: Listing, b: Listing)
    ensures RecoverAll(p, a + b) == RecoverAll(p, a) + RecoverAll(p, b)
  {
    if b == [] {
      assert a + b == a;
    } else {
      assert (a + b)[..|a + b| - 1] == a + b[..|b| - 1];
      RecoverAllKeepsOrder(p, a, b[..|b| - 1]);
    }
  }

  /** Everything recovery lists is backed by a disk carrying the name's tag and the marker. */
  lemma RecoveredIsBacked(p: Provider, c: Cloud, items: Listing, info: VolumeInfo)
    requires ValidCloud(c) && Truthful(c, items) && info in RecoverAll(p, items)
    ensures Backs(p, c, info.volumeID, info) && info.volumeID != ""
    ensures c.disks[info.path].status == "available"
    ensures Lists(items, info.path)
  {
    RecoverAllContains(p, items, info);
    var i :| 0 <= i < |items| && Recovered(p, items[i]) == Some(info);
    var v := items[i].value;
    assert v.id in c.disks && IsView(v, c.disks[v.id]);
    assert items[i].value.id == info.path;
  }

  /** A disk recovery is for: available, sized, tagged for its name and free of conflicts. */
  ghost predicate Recoverable(p: Provider, d: Volume) {
    && d.name.Some? && d.name.value != ""
    && OwnershipConflict(p, d, d.name.value) == None
    && d.capacity.Some? && 0 < d.capacity.value <= MAX_UNITS
    && d.status == "available"
    && TagScan(d.tags) == (d.name.value, false)
  }

  /** A listing that shows a recoverable disk, with or without its name, recovers it exactly. */
  lemma RecoverableIsRecovered(p: Provider, c: Cloud, items: Listing, id: string)
    requires ValidCloud(c) && Truthful(c, items) && StatesCapacity(items)
    requires id in c.disks && Recoverable(p, c.disks[id]) && Lists(items, id)
    ensures var d := c.disks[id];
            VolumeInfo(d.name.value, id, d.capacity.value * GIB, "ibmcloud", InfoMetadata(d)) in RecoverAll(p, items)
  {
    var d := c.disks[id];
    var i :| 0 <= i < |items| && items[i].Some? && items[i].value.id == id;
    var v := items[i].value;
    assert IsView(v, d);
    ConflictFreeInEveryView(p, d, v, d.name.value);
    assert RecoveredName(v) == d.name;
    var info := VolumeInfo(d.name.value, id, d.capacity.value * GIB, "ibmcloud", InfoMetadata(d));
    assert Recovered(p, items[i]) == Some(info);
    RecoverAllContains(p, items, info);
  }
}
