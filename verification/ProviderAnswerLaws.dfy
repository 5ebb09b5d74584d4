/**
 When the IBM provider's calls succeed, and with what: over the outcomes of the calls inside them and
 the disks that exist, without the functions the calls are made of.
 */
module ProviderAnswerLaws {
  import opened Basics
  import opened Decimal
  import opened Capacity
  import opened IbmConfig
  import opened IbmSdk
  import opened ProviderApi
  import Prov = IbmProvider
  import Laws = IbmProviderLaws
  import Lookups = IbmLookupLaws

  // ---- Create ----

  /**
   A provisioned disk settles the create: its size is what was asked or more, and a usable reply states
   it. A reply in another status than available counts only through a refresh, and then it is the
   refreshed disk that has to be available.
   */
  predicate Settles(o: CreateOutcome, refresh: GetOutcome, units: int)
    requires o.Provisioned?
  {
    && o.extra >= 0 && units + o.extra <= MAX_UNITS
    && o.reply.Reply?
    && if o.reply.status == "available" then !o.reply.drop.capacity
       else o.status == "available" && refresh.Answers? && !refresh.drop.capacity
  }

  /** The description of a disk of this many GiB under the provider's placement. */
  function Described(p: Provider, name: string, id: string, units: int): VolumeInfo {
    VolumeInfo(name, id, units * GIB, "ibmcloud",
               map["cloud-volume-path" := id, "cloud-provider" := "ibmcloud", "ibm-volume-id" := id,
                   "zone" := p.config.zone, "profile" := p.config.profile])
  }

  /** The disk as the create call asks for it, at the size the cloud settles on. */
  lemma ProvisionedDisk(p: Provider, c: Cloud, name: string, size: int, f: Prov.CreateCalls)
    requires ValidCloud(c) && Laws.Provisions(p, c, name, size, f)
    ensures var units := Normalized(p.config.profile, size).value / GIB;
            var c' := Prov.Create(p, c, name, size, f).0;
            && c'.disks.Keys == c.disks.Keys + {f.create.id}
            && c'.disks[f.create.id] == Laws.Provisioning(p, name, units, f.create.id, units + f.create.extra, f.create.status)
  {
    Laws.MissesIff(p, c, name, f.get, f.pages);
  }

  /**
   A create whose lookup misses and whose disk is provisioned answers with that disk exactly if the
   outcomes settle it.
   */
  lemma ProvisioningSucceedsIff(p: Provider, c: Cloud, name: string, size: int, f: Prov.CreateCalls)
    requires ValidCloud(c) && Laws.Provisions(p, c, name, size, f)
    ensures var units := Normalized(p.config.profile, size).value / GIB;
            var r := Prov.Create(p, c, name, size, f).1;
            && (r.Ok? <==> Settles(f.create, f.refresh, units))
            && (r.Ok? ==> r.value == Described(p, name, f.create.id, units + f.create.extra))
  {
    Laws.MissesIff(p, c, name, f.get, f.pages);
    NormalizedIsAllocation(p.config.profile, size);
    var needed := Normalized(p.config.profile, size).value;
    var units := needed / GIB;
    var (c', r) := SdkCreate(c, Prov.Request(p, name, units), f.create);
    assert units * GIB == needed && units >= 1;
    if r.Created? {
      var disk := c'.disks[f.create.id];
      var last := if f.create.reply.status == "available" then r.volume else SdkLast(c', f.create.id, f.refresh, r.volume);
      AcceptedIff(p, disk, last, name, needed, units + f.create.extra);
    }
  }

  /** The reply a refresh gives, or the one there was. */
  function SdkLast(c: Cloud, id: string, refresh: GetOutcome, v: Volume): Volume {
    match SdkGet(c, id, refresh) case Found(w) => w case _ => v
  }

  lemma AcceptedIff(p: Provider, disk: Volume, v: Volume, name: string, needed: int, units: int)
    requires disk.name == Some(name) && disk.az == p.config.zone && disk.profile == Some(p.config.profile)
    requires disk.id != "" && disk.capacity == Some(units) && name != "" && needed > 0
    requires exists drop :: v == View(disk.(status := v.status), drop)
    ensures Prov.AcceptReply(v, name, needed).Ok? <==>
              v.status == "available" && v.capacity.Some? && needed <= units * GIB && units <= MAX_UNITS
    ensures Prov.AcceptReply(v, name, needed).Ok? ==> Prov.AcceptReply(v, name, needed).value == Described(p, name, disk.id, units)
  {
  }

  /** Each way a provisioned disk can fail to settle the create has its error, and the disk stays. */
  lemma ProvisioningErrors(p: Provider, c: Cloud, name: string, size: int, f: Prov.CreateCalls)
    requires ValidCloud(c) && Laws.Provisions(p, c, name, size, f)
    ensures var (c', r) := Prov.Create(p, c, name, size, f);
            && f.create.id in c'.disks
            && (f.create.reply.ReplyLost? ==> r == Err(Prov.CreateFailed))
            && (f.create.reply.NilReply? ==> r == Err(Prov.Incomplete))
            && (f.create.reply.Reply? && f.create.reply.status != "available" && f.refresh.Unreachable? ==> r == Err(Prov.RefreshFailed))
  {
    Laws.MissesIff(p, c, name, f.get, f.pages);
  }

  /** Without a usable request, or after a lookup that fails otherwise, nothing is provisioned. */
  lemma RefusedCreates(p: Provider, c: Cloud, name: string, size: int, f: Prov.CreateCalls)
    ensures p.config.zone == "" || name == "" || Normalized(p.config.profile, size).None? ==>
              Prov.Create(p, c, name, size, f).0 == c && Prov.Create(p, c, name, size, f).1.Err?
    ensures !Laws.Misses(p, c, name, f.get, f.pages) ==> Prov.Create(p, c, name, size, f).0 == c
    ensures Laws.Misses(p, c, name, f.get, f.pages) && Prov.Create(p, c, name, size, f).0 == c ==>
              Prov.Create(p, c, name, size, f).1.Err?
  {
    Laws.MissesIff(p, c, name, f.get, f.pages);
  }

  // ---- Which disks are the provider's ----

  /** The reply shows the name's tag, the marker and every setting, as far as it states them. */
  predicate Agrees(p: Provider, v: Volume, name: string) {
    && "caa-csi-volume-id:" + name in v.tags && p.ConfigTag() in v.tags
    && v.az == p.config.zone && v.profile == Some(p.config.profile)
    && (v.group == None || v.group == Some(p.config.resourceGroup))
    && (v.key == None || v.key == Some(p.config.encryptionKey))
    && (p.config.iops == "" || v.iops == Some(p.config.iops))
    && (p.config.throughput == 0 || v.bandwidth == p.config.throughput)
  }

  lemma ConflictFreeIff(p: Provider, v: Volume, name: string)
    ensures Prov.OwnershipConflict(p, v, name) == None <==> Agrees(p, v, name)
  {
  }

  /** A volume that does not agree in every setting it states is neither adopted, deleted nor expanded. */
  lemma DisagreeingIsLeftAlone(p: Provider, c: Cloud, name: string, size: int64, f: Prov.CreateCalls, del: ChangeOutcome, upd: UpdateOutcome)
    requires Prov.Lookup(p, c, name, f.get, f.pages).Ok? && !Agrees(p, Prov.Lookup(p, c, name, f.get, f.pages).value, name)
    ensures Prov.Create(p, c, name, size, f).0 == c && Prov.Create(p, c, name, size, f).1.Err?
    ensures Prov.Delete(p, c, name, f.get, f.pages, del).0 == c && Prov.Delete(p, c, name, f.get, f.pages, del).1.Err?
    ensures Prov.Expand(p, c, name, size, f.get, f.pages, upd).0 == c && Prov.Expand(p, c, name, size, f.get, f.pages, upd).1.Err?
  {
    ConflictFreeIff(p, Prov.Lookup(p, c, name, f.get, f.pages).value, name);
  }

  /** The reply describes a volume that can be handed out: named, sized and available. */
  predicate Ready(v: Volume) {
    && v.id != "" && v.name.Some? && v.name.value != "" && v.profile.Some? && v.status == "available"
    && v.capacity.Some? && 0 < v.capacity.value <= MAX_UNITS
  }

  /** A create adopts the volume its lookup returns exactly if that agrees, is ready and large enough. */
  lemma AdoptionSucceedsIff(p: Provider, c: Cloud, name: string, size: int, f: Prov.CreateCalls)
    requires p.config.zone != "" && name != "" && Normalized(p.config.profile, size).Some?
    requires Prov.Lookup(p, c, name, f.get, f.pages).Ok?
    ensures var v := Prov.Lookup(p, c, name, f.get, f.pages).value;
            var r := Prov.Create(p, c, name, size, f).1;
            && (r.Ok? <==> Agrees(p, v, name) && Ready(v) && v.capacity.value * GIB >= Normalized(p.config.profile, size).value)
            && (r.Ok? ==> r.value == Described(p, v.name.value, v.id, v.capacity.value))
  {
    ConflictFreeIff(p, Prov.Lookup(p, c, name, f.get, f.pages).value, name);
  }

  // ---- Delete ----

  /**
   A delete of a disk its lookup reaches does not ask whether it is available: the disk is removed
   exactly if the service applies the call, and the delete succeeds exactly if the reply arrives too.
   */
  lemma ReachedDeleteSucceedsIff(p: Provider, c: Cloud, name: string, get: GetOutcome, pages: Prov.DiskPages, o: ChangeOutcome, id: string)
    requires Laws.Orderly(c) && name != "" && Laws.Reaches(p, c, name, get, pages, id)
    requires id in c.disks && Agrees(p, c.disks[id], name)
    ensures var (c', r) := Prov.Delete(p, c, name, get, pages, o);
            && c'.disks == (if o.Applied? then c.disks - {id} else c.disks)
            && (r.Ok? <==> o == Applied(false))
  {
    ConflictFreeIff(p, c.disks[id], name);
    assert Laws.OwnedBy(c.disks[id], name);
    Laws.LookupReaches(p, c, name, get, pages, id);
    var v := Prov.Lookup(p, c, name, get, pages).value;
    Laws.ConflictFreeInEveryView(p, c.disks[id], v, name);
    assert id in c.used;
  }

  /** A volume without a native ID is never deleted, even if it agrees. */
  lemma VolumeWithoutIDIsKept(p: Provider, c: Cloud, name: string, get: GetOutcome, pages: Prov.DiskPages, o: ChangeOutcome)
    requires Prov.Lookup(p, c, name, get, pages).Ok? && Prov.Lookup(p, c, name, get, pages).value.id == ""
    ensures Prov.Delete(p, c, name, get, pages, o).0 == c && Prov.Delete(p, c, name, get, pages, o).1.Err?
  {
  }

  // ---- Expand ----

  /** An expansion of a usable disk its lookup reaches succeeds exactly if the service applies it and answers. */
  lemma ReachedExpandSucceedsIff(p: Provider, c: Cloud, name: string, size: int64, get: GetOutcome, pages: Prov.DiskPages, o: UpdateOutcome, info: VolumeInfo)
    requires Laws.Orderly(c) && name != "" && Laws.Usable(p, c, name, info) && Laws.Reaches(p, c, name, get, pages, info.path)
    ensures var (c', r) := Prov.Expand(p, c, name, size, get, pages, o);
            && c' == (if o.Updated? then Laws.Resized(c, info.path, ExpandUnits(size) + o.extra) else c)
            && (r.Ok? <==> o.Updated? && !o.replyLost)
  {
    var d := c.disks[info.path];
    assert Laws.OwnedBy(d, name);
    Laws.LookupReaches(p, c, name, get, pages, info.path);
    var v := Prov.Lookup(p, c, name, get, pages).value;
    Laws.ConflictFreeInEveryView(p, d, v, name);
    assert info.path in c.used;
  }

  // ---- Recovery ----

  /** The name an entry is recovered under: its own, or else the one its tags give without ambiguity. */
  function EntryName(v: Volume): Option<string> {
    if v.name.Some? then v.name
    else if Prov.TagScan(v.tags).0 == "" || Prov.TagScan(v.tags).1 then None
    else Some(Prov.TagScan(v.tags).0)
  }

  /**
   A listed entry is recovered exactly if it has such a name, agrees with the provider under it and is
   ready; a nil entry is skipped.
   */
  lemma EntryRecoveredIff(p: Provider, v: Volume)
    ensures var name := EntryName(v);
            && (Prov.Recovered(p, Some(v)).Some? <==> name.Some? && Agrees(p, v, name.value) && Ready(v.(name := name)))
            && (Prov.Recovered(p, Some(v)).Some? ==> Prov.Recovered(p, Some(v)).value == Described(p, name.value, v.id, v.capacity.value))
    ensures Prov.Recovered(p, None).None?
  {
    if EntryName(v).Some? {
      ConflictFreeIff(p, v, EntryName(v).value);
    }
  }
}
