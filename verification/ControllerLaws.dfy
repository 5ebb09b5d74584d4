/**
 Invariants over every run of the driver: creates, deletes, expansions, recoveries, staging on a node and
 changes made by others, with any SDK outcome, lost record writes and crashes after cloud calls.
 */
module ControllerLaws {
  import opened Basics
  import opened Decimal
  import opened Capacity
  import opened IbmConfig
  import opened IbmSdk
  import opened ProviderApi
  import opened Topology
  import opened Controller
  import opened Staging
  import Prov = IbmProvider
  import Laws = IbmProviderLaws
  import Store = VolumeStore
  import StoreLaws = VolumeStoreLaws
  import Pagination
  import Node = NodeServer

  // ---- Runs ----

  datatype Op =
    | CreateOp(req: CreateRequest, create: CreateFaults)
    | DeleteOp(volumeID: string, secrets: Params, del: DeleteFaults)
    | ExpandOp(target: string, required: int64, expand: ExpandFaults)
    | StageOp(staged: string, context: Params, stage: StageFaults)
    | RecoverOp(params: Option<Params>, recover: RecoverCalls)
    | OthersOp(cloud: Cloud)

  function Step(d: Deployment, s: State, op: Op): State {
    match op
    case CreateOp(req, f) => CreateRpc(d, s, req, f).0
    case DeleteOp(id, secrets, f) => DeleteRpc(d, s, id, secrets, f).0
    case ExpandOp(id, required, f) => ExpandRpc(d, s, id, required, f).0
    case StageOp(id, context, f) => s.(cloud := StageOnIbm(d, s.cloud, id, context, f).0)
    case RecoverOp(params, f) => s.(dir := Recover(d, s.dir, params, f))
    case OthersOp(cloud) => s.(cloud := cloud)
  }

  function Run(d: Deployment, s: State, ops: seq<Op>): State {
    if ops == [] then s else Step(d, Run(d, s, ops[..|ops| - 1]), ops[|ops| - 1])
  }

  predicate PlainName(id: string) {
    Store.FileName(id) != Store.MANIFEST
  }

  ghost predicate Tagged(d: Volume) {
    exists name :: Laws.OwnedBy(d, name)
  }

  /** Others never write ownership tags, shrink a tagged disk or reuse a native ID. */
  ghost predicate OthersMay(c: Cloud, c': Cloud) {
    && ValidCloud(c')
    && c.used <= c'.used
    && forall id :: id in c'.disks ==>
         if id in c.disks && Tagged(c.disks[id]) then
           && c'.disks[id].tags == c.disks[id].tags && c'.disks[id].name == c.disks[id].name
           && (c.disks[id].capacity.Some? ==>
                 c'.disks[id].capacity.Some? && c'.disks[id].capacity.value >= c.disks[id].capacity.value)
         else (id in c.disks || id !in c.used) && !Tagged(c'.disks[id])
  }

  /** A create under these parameters does not miss a disk the name already has. */
  ghost predicate Sees(d: Deployment, params: Params, sessionOk: bool, c: Cloud, name: string, calls: Prov.CreateCalls) {
    var made := NewProvider(d, params, sessionOk);
    made.Ok? && Laws.HasDiskFor(c, name) ==> !Laws.Misses(made.value, c, name, calls.get, calls.pages)
  }

  /** With a complete name query that only leaves out a native ID that is gone. */
  lemma CompleteQueriesSeeIff(d: Deployment, params: Params, sessionOk: bool, c: Cloud, name: string, calls: Prov.CreateCalls)
    requires Laws.Orderly(c) && CompletePages(c, ByName(name), calls.pages)
    ensures var made := NewProvider(d, params, sessionOk);
            Sees(d, params, sessionOk, c, name, calls) <==>
              !(made.Ok? && Laws.HasDiskFor(c, name) && Laws.StaleNativeID(made.value, c, calls.get))
  {
    var made := NewProvider(d, params, sessionOk);
    if made.Ok? && Laws.HasDiskFor(c, name) {
      Laws.CompleteQueriesMissIff(made.value, c, name, calls.get, calls.pages);
    }
  }

  /**
   What an operation may assume of the service: listings only describe real disks, and the lookup of a
   call that may create does not miss a disk the name has. IDs are plain names and expansions are in
   the range the provider can size.
   */
  ghost predicate Honest(d: Deployment, s: State, op: Op) {
    match op
    case CreateOp(req, f) =>
      && PlainName(req.name)
      && (Store.Load(s.dir, req.name).Err? ==>
            && TruthfulPages(s.cloud, f.calls.pages)
            && Sees(d, Apply(req.params, req.topology), f.sessionOk, s.cloud, req.name, f.calls))
    case DeleteOp(id, _, f) =>
      PlainName(id) && TruthfulPages(s.cloud, f.recover.pages) && TruthfulPages(s.cloud, f.pages)
    case ExpandOp(id, required, f) =>
      && PlainName(id) && TruthfulPages(s.cloud, f.recover.pages) && TruthfulPages(s.cloud, f.pages)
      && required <= MAX_UNITS * GIB
    case StageOp(id, context, f) =>
      && PlainName(id)
      && TruthfulPages(s.cloud, f.calls.pages)
      && Sees(d, context, f.sessionOk, s.cloud, id, f.calls)
    case RecoverOp(params, f) => TruthfulPages(s.cloud, f.pages)
    case OthersOp(cloud) => OthersMay(s.cloud, cloud)
  }

  ghost predicate HonestRun(d: Deployment, s: State, ops: seq<Op>) {
    forall i :: 0 <= i < |ops| ==> Honest(d, Run(d, s, ops[..i]), ops[i])
  }

  // ---- The invariant ----

  /** The record promises no more than the disk it names holds, and the disk is the record's. */
  ghost predicate Covered(c: Cloud, rec: Store.VolumeRecord) {
    rec.path in c.disks ==>
      && Laws.OwnedBy(c.disks[rec.path], rec.volumeID)
      && c.disks[rec.path].capacity.Some?
      && rec.capacityBytes <= c.disks[rec.path].capacity.value * GIB
  }

  ghost predicate RecordOk(c: Cloud, rec: Store.VolumeRecord) {
    && rec.capacityBytes >= 0
    && (rec.path in c.used || rec.path == "")
    && Covered(c, rec)
  }

  /** Every record that decodes is stored under its own name and satisfies ok. */
  ghost predicate EveryRecord(dir: Store.Dir, ok: Store.VolumeRecord -> bool) {
    forall n :: n in dir && Store.IsRecordName(n) && Store.AsRecord(dir[n]).Some? ==>
      n == Store.FileName(Store.AsRecord(dir[n]).value.volumeID) && ok(Store.AsRecord(dir[n]).value)
  }

  ghost function IsOk(c: Cloud): Store.VolumeRecord -> bool {
    rec => RecordOk(c, rec)
  }

  ghost predicate DirOk(c: Cloud, dir: Store.Dir) {
    EveryRecord(dir, IsOk(c))
  }

  /** Every owned disk has a plain volume ID, so recovery never writes over the manifest. */
  ghost predicate PlainTags(c: Cloud) {
    forall id, name :: id in c.disks && Laws.OwnedBy(c.disks[id], name) ==> PlainName(name)
  }

  ghost predicate CloudOk(c: Cloud) {
    Laws.Orderly(c) && PlainTags(c)
  }

  ghost predicate Inv(s: State) {
    CloudOk(s.cloud) && DirOk(s.cloud, s.dir)
  }

  // ---- Store steps ----

  lemma RefreshKeepsEvery(dir: Store.Dir, ok: Store.VolumeRecord -> bool, manifest: bool)
    requires EveryRecord(dir, ok)
    ensures EveryRecord(Store.RefreshIf(dir, manifest), ok)
  {
    var after := Store.RefreshIf(dir, manifest);
    forall n | n in after && Store.IsRecordName(n)
      ensures n in dir && after[n] == dir[n]
    {
      StoreLaws.RefreshKeepsFile(dir, n);
    }
  }

  lemma FileNamesIdentify(a: string, b: string)
    ensures Store.FileName(a) == Store.FileName(b) ==> a == b
  {
    if Store.FileName(a) == Store.FileName(b) {
      AppendIsInjective(a, b, ".json");
    }
  }

  lemma SaveKeepsEvery(dir: Store.Dir, ok: Store.VolumeRecord -> bool, rec: Store.VolumeRecord, w: Store.Writes)
    requires EveryRecord(dir, ok) && ok(rec) && PlainName(rec.volumeID)
    ensures EveryRecord(Store.Save(dir, rec, w), ok)
  {
    if w.file {
      RefreshKeepsEvery(dir[Store.FileName(rec.volumeID) := Store.RecordFile(rec)], ok, w.manifest);
    }
  }

  lemma DeleteKeepsEvery(dir: Store.Dir, ok: Store.VolumeRecord -> bool, id: string, w: Store.Writes)
    requires EveryRecord(dir, ok) && PlainName(id)
    ensures EveryRecord(Store.Delete(dir, id, w), ok)
  {
    RefreshKeepsEvery(if w.file then dir - {Store.FileName(id)} else dir, ok, w.manifest);
  }

  lemma MergeKeepsEvery(dir: Store.Dir, ok: Store.VolumeRecord -> bool, infos: seq<VolumeInfo>, params: Params, w: Store.MergeWrites)
    requires EveryRecord(dir, ok)
    requires forall i :: 0 <= i < |infos| ==>
               PlainName(infos[i].volumeID) && ok(Store.RecoveredRecord(infos[i], Store.Sanitize(params)))
    ensures EveryRecord(Store.Merge(dir, infos, params, w), ok)
  {
    var merged := Store.MergeFiles(dir, infos, Store.Sanitize(params), w.failing);
    StoreLaws.MergeIsUnion(dir, infos, Store.Sanitize(params), w.failing);
    RefreshKeepsEvery(merged, ok, w.manifest);
  }

  /** What holds of every record recovery can write holds of the store after it. */
  lemma RecoverKeepsEvery(d: Deployment, s: State, ok: Store.VolumeRecord -> bool, params: Option<Params>, f: RecoverCalls)
    requires Inv(s) && TruthfulPages(s.cloud, f.pages) && EveryRecord(s.dir, ok)
    requires forall p: Provider, info: VolumeInfo, ps: Params :: PlainName(info.volumeID) && Laws.Backs(p, s.cloud, info.volumeID, info) ==>
               ok(Store.RecoveredRecord(info, ps))
    ensures EveryRecord(Recover(d, s.dir, params, f), ok)
  {
    if params.Some? && NewProvider(d, params.value, f.sessionOk).Ok? && Pagination.ListAll(f.pages).Ok? {
      var p := NewProvider(d, params.value, f.sessionOk).value;
      var items := Pagination.ListAll(f.pages).value;
      var infos := Prov.RecoverAll(p, items);
      forall i | 0 <= i < |infos|
        ensures PlainName(infos[i].volumeID) && ok(Store.RecoveredRecord(infos[i], Store.Sanitize(params.value)))
      {
        Laws.RecoveredIsBacked(p, s.cloud, items, infos[i]);
        assert Laws.OwnedBy(s.cloud.disks[infos[i].path], infos[i].volumeID);
      }
      MergeKeepsEvery(s.dir, ok, infos, params.value, f.writes);
    }
  }

  /** A recovered record promises exactly what its disk has. */
  lemma RecoverIsOk(d: Deployment, s: State, params: Option<Params>, f: RecoverCalls)
    requires Inv(s) && TruthfulPages(s.cloud, f.pages)
    ensures DirOk(s.cloud, Recover(d, s.dir, params, f))
  {
    RecoverKeepsEvery(d, s, IsOk(s.cloud), params, f);
  }

  lemma LoadIsOk(d: Deployment, s: State, id: string, external: Option<Params>, f: RecoverCalls)
    requires Inv(s) && PlainName(id) && TruthfulPages(s.cloud, f.pages)
    ensures var (dir, r) := LoadVolumeRecord(d, s.dir, id, external, f);
            && DirOk(s.cloud, dir)
            && (r.Ok? ==> Store.Load(dir, id) == r && r.value.volumeID == id && RecordOk(s.cloud, r.value))
  {
    if Store.Load(s.dir, id).Err? && Store.BootstrapParams(s.dir, s.dir, external).Some? {
      RecoverIsOk(d, s, Store.BootstrapParams(s.dir, s.dir, external), f);
    }
    var (dir, r) := LoadVolumeRecord(d, s.dir, id, external, f);
    if r.Ok? {
      LoadedIsOk(s.cloud, dir, id);
    }
  }

  lemma LoadedIsOk(c: Cloud, dir: Store.Dir, id: string)
    requires DirOk(c, dir) && PlainName(id) && Store.Load(dir, id).Ok?
    ensures Store.Load(dir, id).value.volumeID == id && RecordOk(c, Store.Load(dir, id).value)
  {
    var n := Store.FileName(id);
    assert n[|n| - 5..] == ".json";
    assert Store.IsRecordName(n);
    FileNamesIdentify(Store.AsRecord(dir[n]).value.volumeID, id);
  }

  // ---- Cloud steps ----

  /** Nothing a record could name loses its owner or its size. */
  ghost predicate KeepsPromises(c: Cloud, c': Cloud) {
    && c.used <= c'.used
    && forall id :: id in c'.disks && id in c.used ==>
         && id in c.disks
         && (forall name :: Laws.OwnedBy(c.disks[id], name) ==> Laws.OwnedBy(c'.disks[id], name))
         && (Tagged(c.disks[id]) && c.disks[id].capacity.Some? ==>
               c'.disks[id].capacity.Some? && c'.disks[id].capacity.value >= c.disks[id].capacity.value)
  }

  lemma PromisesCarryOver(c: Cloud, c': Cloud, dir: Store.Dir)
    requires ValidCloud(c) && ValidCloud(c') && KeepsPromises(c, c') && DirOk(c, dir)
    ensures DirOk(c', dir)
  {
    forall n | n in dir && Store.IsRecordName(n) && Store.AsRecord(dir[n]).Some?
      ensures RecordOk(c', Store.AsRecord(dir[n]).value)
    {
      var rec := Store.AsRecord(dir[n]).value;
      assert RecordOk(c, rec);
      if rec.path in c'.disks {
        assert rec.path in c.disks && Laws.OwnedBy(c.disks[rec.path], rec.volumeID);
        assert Tagged(c.disks[rec.path]);
      }
    }
  }

  lemma OthersKeepOrder(c: Cloud, c': Cloud)
    requires CloudOk(c) && OthersMay(c, c')
    ensures CloudOk(c') && KeepsPromises(c, c')
  {
    forall id, name | id in c'.disks && Laws.OwnedBy(c'.disks[id], name)
      ensures id in c.disks && Laws.OwnedBy(c.disks[id], name) && c'.disks[id].name == Some(name)
    {
      assert Tagged(c'.disks[id]);
      assert id in c.disks && Tagged(c.disks[id]);
      assert Laws.OwnedBy(c.disks[id], name);
    }
    forall i, j, name |
      i in c'.disks && j in c'.disks && Laws.OwnedBy(c'.disks[i], name) && Laws.OwnedBy(c'.disks[j], name)
      ensures i == j
    {
      assert Laws.OwnedBy(c.disks[i], name) && Laws.OwnedBy(c.disks[j], name);
    }
    forall id, name | id in c'.disks && id in c.used && id in c.disks && Laws.OwnedBy(c.disks[id], name)
      ensures Laws.OwnedBy(c'.disks[id], name)
    {
      assert Tagged(c.disks[id]);
    }
  }

  // ---- Operations keep the invariant ----

  lemma ProviderIsAccepted(d: Deployment, params: Params, sessionOk: bool)
    requires NewProvider(d, params, sessionOk).Ok?
    ensures Accepted(NewProvider(d, params, sessionOk).value.config)
  {
    ParseAccepts(params);
  }

  /** The cloud half of a create: order and promises stay, and the new disk covers the request. */
  lemma CreateCloudStep(p: Provider, c: Cloud, dir: Store.Dir, name: string, size: int64, f: Prov.CreateCalls)
    requires CloudOk(c) && DirOk(c, dir) && Accepted(p.config) && PlainName(name)
    requires TruthfulPages(c, f.pages)
    requires Laws.HasDiskFor(c, name) ==> !Laws.Misses(p, c, name, f.get, f.pages)
    ensures var (c', r) := Prov.Create(p, c, name, size, f);
            && CloudOk(c') && DirOk(c', dir)
            && (r.Ok? ==> size >= 0 && r.value.sizeBytes >= size && Laws.Backs(p, c', name, r.value))
  {
    var (c', r) := Prov.Create(p, c, name, size, f);
    Laws.CreateFacts(p, c, name, size, f);
    Laws.CreateKeepsOneDiskPerNameIff(p, c, name, size, f);
    AddingKeepsPlain(p, c, c', name);
    PromisesCarryOver(c, c', dir);
    if r.Ok? {
      NormalizedIsAllocation(p.config.profile, size);
    }
  }

  /** The only name that can gain a disk is the one the create is for. */
  lemma OnlyNameGainsDisk(p: Provider, c: Cloud, c': Cloud, name: string, id: string, other: string)
    requires !AnyReserved(p.config.extraTags) && Laws.AddsAtMostOne(p, c, c', name)
    requires id in c'.disks && Laws.OwnedBy(c'.disks[id], other)
    ensures (id in c.disks && Laws.OwnedBy(c.disks[id], other)) || other == name
  {
    Laws.NewDiskOwner(p, name, other);
  }

  lemma AddingKeepsPlain(p: Provider, c: Cloud, c': Cloud, name: string)
    requires PlainTags(c) && PlainName(name) && !AnyReserved(p.config.extraTags)
    requires Laws.AddsAtMostOne(p, c, c', name)
    ensures PlainTags(c')
  {
    forall id, other | id in c'.disks && Laws.OwnedBy(c'.disks[id], other)
      ensures PlainName(other)
    {
      OnlyNameGainsDisk(p, c, c', name, id, other);
    }
  }

  lemma SameTagsStayPlain(c: Cloud, c': Cloud)
    requires PlainTags(c) && c'.disks.Keys <= c.disks.Keys
    requires forall id :: id in c'.disks ==> c'.disks[id].tags == c.disks[id].tags
    ensures PlainTags(c')
  {
    forall id, name | id in c'.disks && Laws.OwnedBy(c'.disks[id], name)
      ensures PlainName(name)
    {
      assert Laws.OwnedBy(c.disks[id], name);
    }
  }

  /** The record a create saves, and the store it saves it to. */
  lemma CreateStoreStep(p: Provider, c: Cloud, dir: Store.Dir, name: string, size: int64, params: Params, f: Prov.CreateCalls, w: Store.Writes)
    requires CloudOk(c) && DirOk(c, dir) && Accepted(p.config) && PlainName(name) && TruthfulPages(c, f.pages)
    requires Laws.HasDiskFor(c, name) ==> !Laws.Misses(p, c, name, f.get, f.pages)
    requires Prov.Create(p, c, name, size, f).1.Ok?
    ensures var (c', r) := Prov.Create(p, c, name, size, f);
            DirOk(c', Store.Save(dir, Store.VolumeRecord(name, r.value.provider, r.value.path, size, params), w))
  {
    var (c', r) := Prov.Create(p, c, name, size, f);
    CreateCloudStep(p, c, dir, name, size, f);
    SaveKeepsEvery(dir, IsOk(c'), Store.VolumeRecord(name, r.value.provider, r.value.path, size, params), w);
  }

  lemma CreateInCloudKeepsInv(d: Deployment, s: State, req: CreateRequest, f: CreateFaults)
    requires Inv(s) && Honest(d, s, CreateOp(req, f)) && Store.Load(s.dir, req.name).Err?
    ensures Inv(CreateInCloud(d, s, req, f).0)
  {
    var params := Apply(req.params, req.topology);
    if NewProvider(d, params, f.sessionOk).Ok? {
      var p := NewProvider(d, params, f.sessionOk).value;
      ProviderIsAccepted(d, params, f.sessionOk);
      CreateCloudStep(p, s.cloud, s.dir, req.name, RequestedCapacity(req), f.calls);
      if Prov.Create(p, s.cloud, req.name, RequestedCapacity(req), f.calls).1.Ok? {
        CreateStoreStep(p, s.cloud, s.dir, req.name, RequestedCapacity(req), params, f.calls, f.save);
      }
    }
  }

  lemma CreateKeepsInv(d: Deployment, s: State, req: CreateRequest, f: CreateFaults)
    requires Inv(s) && Honest(d, s, CreateOp(req, f))
    ensures Inv(CreateRpc(d, s, req, f).0)
  {
    if Store.Load(s.dir, req.name).Err? {
      CreateInCloudKeepsInv(d, s, req, f);
    }
  }

  lemma StageKeepsInv(d: Deployment, s: State, id: string, context: Params, f: StageFaults)
    requires Inv(s) && Honest(d, s, StageOp(id, context, f))
    ensures Inv(s.(cloud := StageOnIbm(d, s.cloud, id, context, f).0))
  {
    if NewProvider(d, context, f.sessionOk).Ok? {
      ProviderIsAccepted(d, context, f.sessionOk);
      CreateCloudStep(NewProvider(d, context, f.sessionOk).value, s.cloud, s.dir, id, Node.StageSize(context), f.calls);
    }
  }

  lemma DeleteKeepsInv(d: Deployment, s: State, id: string, secrets: Params, f: DeleteFaults)
    requires Inv(s) && Honest(d, s, DeleteOp(id, secrets, f))
    ensures Inv(DeleteRpc(d, s, id, secrets, f).0)
  {
    if id != "" {
      LoadIsOk(d, s, id, f.external, f.recover);
      var (dir, loaded) := LoadVolumeRecord(d, s.dir, id, f.external, f.recover);
      var params := if loaded.Ok? then Some(DeleteParams(loaded.value)) else ResolveParams(dir, secrets, f.external);
      if params.Some? && NewProvider(d, params.value, f.sessionOk).Ok? {
        var p := NewProvider(d, params.value, f.sessionOk).value;
        var cloud := Prov.Delete(p, s.cloud, id, f.get, f.pages, f.del).0;
        Laws.DeleteFacts(p, s.cloud, id, f.get, f.pages, f.del);
        Laws.ShrinkingKeepsOrder(s.cloud, cloud);
        SameTagsStayPlain(s.cloud, cloud);
        PromisesCarryOver(s.cloud, cloud, dir);
        DeleteKeepsEvery(dir, IsOk(cloud), id, f.forget);
      }
    }
  }

  /** Growing the disk of one name past its record's promise keeps every promise. */
  lemma ResizeKeepsInv(c: Cloud, dir: Store.Dir, rec: Store.VolumeRecord, id: string, reached: int)
    requires CloudOk(c) && DirOk(c, dir)
    requires PlainName(rec.volumeID) && Store.Load(dir, rec.volumeID) == Ok(rec)
    requires id in c.disks && Laws.OwnedBy(c.disks[id], rec.volumeID)
    requires rec.capacityBytes <= reached * GIB
    ensures CloudOk(Laws.Resized(c, id, reached)) && DirOk(Laws.Resized(c, id, reached), dir)
    ensures rec.path in c.disks ==> rec.path == id
  {
    var c' := Laws.Resized(c, id, reached);
    Laws.ShrinkingKeepsOrder(c, c');
    SameTagsStayPlain(c, c');
    LoadedIsOk(c, dir, rec.volumeID);
    forall n | n in dir && Store.IsRecordName(n) && Store.AsRecord(dir[n]).Some?
      ensures RecordOk(c', Store.AsRecord(dir[n]).value)
    {
      var other := Store.AsRecord(dir[n]).value;
      assert RecordOk(c, other);
      if other.path == id {
        assert c.disks[id].name == Some(other.volumeID) && c.disks[id].name == Some(rec.volumeID);
        assert other == rec;
      }
    }
  }

  /** The cloud half of an expansion: promises stay, and a success covers the request. */
  lemma ExpandCloudStep(p: Provider, c: Cloud, dir: Store.Dir, rec: Store.VolumeRecord, required: int64,
                        get: GetOutcome, pages: Prov.DiskPages, o: UpdateOutcome)
    requires CloudOk(c) && DirOk(c, dir) && TruthfulPages(c, pages)
    requires PlainName(rec.volumeID) && Store.Load(dir, rec.volumeID) == Ok(rec)
    requires 0 <= rec.capacityBytes < required <= MAX_UNITS * GIB
    ensures var (c', r) := Prov.Expand(p, c, rec.volumeID, required, get, pages, o);
            && CloudOk(c') && DirOk(c', dir)
            && (r.Ok? ==> RecordOk(c', rec.(capacityBytes := required)))
  {
    var (c', expanded) := Prov.Expand(p, c, rec.volumeID, required, get, pages, o);
    Laws.ExpandFacts(p, c, rec.volumeID, required, get, pages, o);
    ExpandCoversRequestIff(required);
    LoadedIsOk(c, dir, rec.volumeID);
    if c' != c || expanded.Ok? {
      var disk, reached :| disk in c.disks && Laws.Claimed(p, c.disks[disk], rec.volumeID)
                           && reached >= ExpandUnits(required) && c' == Laws.Resized(c, disk, reached);
      assert reached * GIB >= required;
      ResizeKeepsInv(c, dir, rec, disk, reached);
      LoadedIsOk(c', dir, rec.volumeID);
    }
  }

  lemma ExpandKeepsInv(d: Deployment, s: State, id: string, required: int64, f: ExpandFaults)
    requires Inv(s) && Honest(d, s, ExpandOp(id, required, f))
    ensures Inv(ExpandRpc(d, s, id, required, f).0)
  {
    if id != "" && required != 0 {
      LoadIsOk(d, s, id, f.external, f.recover);
      var (dir, loaded) := LoadVolumeRecord(d, s.dir, id, f.external, f.recover);
      if loaded.Ok? && loaded.value.capacityBytes < required && NewProvider(d, loaded.value.params, f.sessionOk).Ok? {
        var rec := loaded.value;
        var p := NewProvider(d, rec.params, f.sessionOk).value;
        ExpandCloudStep(p, s.cloud, dir, rec, required, f.get, f.pages, f.update);
        var (cloud, expanded) := Prov.Expand(p, s.cloud, id, required, f.get, f.pages, f.update);
        if expanded.Ok? {
          SaveKeepsEvery(dir, IsOk(cloud), rec.(capacityBytes := required), f.save);
        }
      }
    }
  }

  lemma StepKeepsInv(d: Deployment, s: State, op: Op)
    requires Inv(s) && Honest(d, s, op)
    ensures Inv(Step(d, s, op))
  {
    match op
    case CreateOp(req, f) => CreateKeepsInv(d, s, req, f);
    case DeleteOp(id, secrets, f) => DeleteKeepsInv(d, s, id, secrets, f);
    case ExpandOp(id, required, f) => ExpandKeepsInv(d, s, id, required, f);
    case StageOp(id, context, f) => StageKeepsInv(d, s, id, context, f);
    case RecoverOp(params, f) => RecoverIsOk(d, s, params, f);
    case OthersOp(cloud) =>
      OthersKeepOrder(s.cloud, cloud);
      PromisesCarryOver(s.cloud, cloud, s.dir);
  }

  lemma {:induction false} RunKeepsInv(d: Deployment, s: State, ops: seq<Op>)
    requires Inv(s) && HonestRun(d, s, ops)
    ensures Inv(Run(d, s, ops))
  {
    if ops != [] {
      var init := ops[..|ops| - 1];
      forall i | 0 <= i < |init| ensures Honest(d, Run(d, s, init[..i]), init[i]) {
        assert init[..i] == ops[..i];
      }
      RunKeepsInv(d, s, init);
      StepKeepsInv(d, Run(d, s, init), ops[|ops| - 1]);
    }
  }

  /** An installation with no volumes: whatever disks exist carry no ownership tag. */
  ghost predicate Initial(s: State) {
    ValidCloud(s.cloud) && s.dir == map[] && forall id :: id in s.cloud.disks ==> !Tagged(s.cloud.disks[id])
  }

  lemma InitialInv(s: State)
    requires Initial(s)
    ensures Inv(s)
  {
    forall id, name | id in s.cloud.disks ensures !Laws.OwnedBy(s.cloud.disks[id], name) {
      assert !Tagged(s.cloud.disks[id]);
    }
  }

  /**
   Over every run from a fresh installation: no record promises more bytes than its disk has, and the
   driver owns at most one disk per volume name.
   */
  lemma PromisesAreKept(d: Deployment, s: State, ops: seq<Op>)
    requires Initial(s) && HonestRun(d, s, ops)
    ensures var end := Run(d, s, ops);
            && (forall id :: PlainName(id) && Store.Load(end.dir, id).Ok? ==>
                  var rec := Store.Load(end.dir, id).value;
                  && rec.volumeID == id
                  && (rec.path in end.cloud.disks ==>
                        && end.cloud.disks[rec.path].capacity.Some?
                        && rec.capacityBytes <= end.cloud.disks[rec.path].capacity.value * GIB))
            && Laws.OneDiskPerName(end.cloud)
  {
    InitialInv(s);
    RunKeepsInv(d, s, ops);
    var end := Run(d, s, ops);
    forall id | PlainName(id) && Store.Load(end.dir, id).Ok?
      ensures RecordOk(end.cloud, Store.Load(end.dir, id).value) && Store.Load(end.dir, id).value.volumeID == id
    {
      LoadedIsOk(end.cloud, end.dir, id);
    }
  }
}
