/**
 Retries and the volume context: a create repeated after its record was lost, and a node staging from
 the context the controller answered with, both come back to the same disk.
 */
module RetryLaws {
  import opened Basics
  import opened Decimal
  import opened Capacity
  import opened IbmConfig
  import opened IbmSdk
  import opened ProviderApi
  import opened Topology
  import opened Controller
  import opened ControllerLaws
  import opened Staging
  import Prov = IbmProvider
  import Laws = IbmProviderLaws
  import Store = VolumeStore
  import StoreLaws = VolumeStoreLaws
  import Node = NodeServer
  import Base64Url

  // ---- What a create answered ----

  /** The provider a create request runs under. */
  function RequestProvider(d: Deployment, req: CreateRequest, sessionOk: bool): Result<Provider, ConfigError> {
    NewProvider(d, Apply(req.params, req.topology), sessionOk)
  }

  function AnsweredPath(resp: CreateResponse): string {
    Get(resp.context, "cloud-volume-path")
  }

  /** The create call inside a request, in the provider's own terms. */
  function ProviderCreate(d: Deployment, s: State, req: CreateRequest, f: CreateFaults): (Cloud, Result<VolumeInfo, Prov.Error>)
    requires RequestProvider(d, req, f.sessionOk).Ok?
  {
    Prov.Create(RequestProvider(d, req, f.sessionOk).value, s.cloud, req.name, RequestedCapacity(req), f.calls)
  }

  /** A request the store cannot answer succeeds exactly when its provider call does. */
  lemma CreateAnswersFromProvider(d: Deployment, s: State, req: CreateRequest, f: CreateFaults)
    requires Store.Load(s.dir, req.name).Err? && RequestError(req).None?
    requires RequestProvider(d, req, f.sessionOk).Ok?
    ensures var (cloud, created) := ProviderCreate(d, s, req, f);
            var (s', r) := CreateRpc(d, s, req, f);
            && s'.cloud == cloud
            && (r.Ok? <==> created.Ok?)
            && (created.Ok? ==> r.value == FreshResponse(req, created.value)
                                && s'.dir == Store.Save(s.dir, NewRecord(req, created.value), f.save))
  {
  }

  function FreshResponse(req: CreateRequest, info: VolumeInfo): CreateResponse {
    var params := Apply(req.params, req.topology);
    CreateResponse(req.name, RequestedCapacity(req), FreshContext(info, params), Accessible(params))
  }

  lemma OkMeansProvider(d: Deployment, s: State, req: CreateRequest, f: CreateFaults)
    requires Store.Load(s.dir, req.name).Err? && CreateRpc(d, s, req, f).1.Ok?
    ensures RequestError(req).None? && RequestProvider(d, req, f.sessionOk).Ok? && f.sessionOk
  {
  }

  lemma BackedPath(p: Provider, c: Cloud, name: string, info: VolumeInfo, req: CreateRequest)
    requires ValidCloud(c) && Laws.Backs(p, c, name, info)
    ensures AnsweredPath(FreshResponse(req, info)) == info.path != ""
  {
    assert info.metadata["cloud-volume-path"] == c.disks[info.path].id;
    assert info.path in c.used;
  }

  /** What the provider call of a successful create says about the disk. */
  lemma CreatedDisk(p: Provider, c: Cloud, name: string, size: int64, f: Prov.CreateCalls)
    requires ValidCloud(c) && TruthfulPages(c, f.pages) && Accepted(p.config)
    requires Prov.Create(p, c, name, size, f).1.Ok?
    ensures var (c', r) := Prov.Create(p, c, name, size, f);
            && ValidCloud(c')
            && Laws.Backs(p, c', name, r.value)
            && Normalized(p.config.profile, size).Some?
            && r.value.sizeBytes >= Normalized(p.config.profile, size).value
            && (r.value.path !in c.disks ==> Prov.OwnershipConflict(p, c'.disks[r.value.path], name) == None)
  {
    var (c', r) := Prov.Create(p, c, name, size, f);
    Laws.CreateFacts(p, c, name, size, f);
    if r.value.path !in c.disks {
      Laws.NewDiskHasNoConflict(p, c, c', name, r.value.path);
    }
  }

  /** A create the store could not answer went through the provider, and its disk backs the answer. */
  lemma FreshAnswer(d: Deployment, s: State, req: CreateRequest, f: CreateFaults) returns (p: Provider, info: VolumeInfo)
    requires Inv(s) && Honest(d, s, CreateOp(req, f)) && Store.Load(s.dir, req.name).Err?
    requires CreateRpc(d, s, req, f).1.Ok?
    ensures RequestProvider(d, req, f.sessionOk) == Ok(p) && f.sessionOk && RequestError(req).None?
    ensures Accepted(p.config)
    ensures var cloud := CreateRpc(d, s, req, f).0.cloud;
            && ValidCloud(cloud)
            && Laws.Backs(p, cloud, req.name, info)
            && Normalized(p.config.profile, RequestedCapacity(req)).Some?
            && info.sizeBytes >= Normalized(p.config.profile, RequestedCapacity(req)).value
            && (info.path !in s.cloud.disks ==> Prov.OwnershipConflict(p, cloud.disks[info.path], req.name) == None)
    ensures ProviderCreate(d, s, req, f).1 == Ok(info)
    ensures CreateRpc(d, s, req, f).1.value == FreshResponse(req, info)
    ensures AnsweredPath(CreateRpc(d, s, req, f).1.value) == info.path != ""
  {
    OkMeansProvider(d, s, req, f);
    CreateAnswersFromProvider(d, s, req, f);
    p := RequestProvider(d, req, f.sessionOk).value;
    info := ProviderCreate(d, s, req, f).1.value;
    ProviderIsAccepted(d, Apply(req.params, req.topology), f.sessionOk);
    CreatedDisk(p, s.cloud, req.name, RequestedCapacity(req), f.calls);
    BackedPath(p, ProviderCreate(d, s, req, f).0, req.name, info, req);
  }

  // ---- Crash-retry convergence ----

  /** A disk the create found, rather than made, must agree with the request in full. */
  ghost predicate NoConflictUnlessNew(d: Deployment, s: State, req: CreateRequest, disks: map<string, Volume>, path: string)
    requires path in disks
  {
    path in s.cloud.disks ==>
      RequestProvider(d, req, true).Ok?
      && Prov.OwnershipConflict(RequestProvider(d, req, true).value, disks[path], req.name) == None
  }

  /** The same disk, available by now, at whatever size the provider can report. */
  ghost predicate SameDisk(before: Volume, now: Volume) {
    && now == before.(capacity := now.capacity, status := "available")
    && now.capacity.Some? && 0 < now.capacity.value <= MAX_UNITS
  }

  ghost predicate StillThere(c: Cloud, c': Cloud, path: string) {
    path in c.disks && path in c'.disks && SameDisk(c.disks[path], c'.disks[path])
  }

  lemma ResizingKeepsOwnership(p: Provider, before: Volume, now: Volume, name: string)
    requires SameDisk(before, now)
    ensures Prov.OwnershipConflict(p, now, name) == Prov.OwnershipConflict(p, before, name)
    ensures Laws.Claimed(p, now, name) <==> Laws.Claimed(p, before, name)
  {
  }

  /** What an answer would say of the disk at its present size. */
  function Resized(info: VolumeInfo, disk: Volume): VolumeInfo
    requires disk.capacity.Some?
  {
    info.(sizeBytes := disk.capacity.value * GIB)
  }

  lemma ResizingKeepsBacking(p: Provider, c: Cloud, c': Cloud, name: string, info: VolumeInfo)
    requires Laws.Backs(p, c, name, info) && StillThere(c, c', info.path)
    ensures Laws.Backs(p, c', name, Resized(info, c'.disks[info.path]))
  {
    ResizingKeepsOwnership(p, c.disks[info.path], c'.disks[info.path], name);
  }

  /** A create answered through the provider, with its disk still usable later. */
  ghost predicate CreatedAndStillThere(d: Deployment, s: State, req: CreateRequest, f: CreateFaults, later: Cloud) {
    && Inv(s) && Honest(d, s, CreateOp(req, f)) && Store.Load(s.dir, req.name).Err?
    && CreateRpc(d, s, req, f).1.Ok?
    && Laws.Orderly(later)
    && var path := AnsweredPath(CreateRpc(d, s, req, f).1.value);
       && StillThere(CreateRpc(d, s, req, f).0.cloud, later, path)
       && NoConflictUnlessNew(d, s, req, later.disks, path)
  }

  /** The disk is still as large as the request's allocation: it was not shrunk below it. */
  predicate HoldsRequest(p: Provider, req: CreateRequest, disk: Volume) {
    var needed := Normalized(p.config.profile, RequestedCapacity(req));
    needed.Some? && disk.capacity.Some? && disk.capacity.value * GIB >= needed.value
  }

  /** The answered disk is usable to the request's provider in the later cloud. */
  lemma AnswerIsUsable(d: Deployment, s: State, req: CreateRequest, f: CreateFaults, later: Cloud) returns (p: Provider, info: VolumeInfo)
    requires CreatedAndStillThere(d, s, req, f, later)
    ensures RequestProvider(d, req, true) == Ok(p) && RequestError(req).None? && Accepted(p.config)
    ensures Laws.Usable(p, later, req.name, info) && AnsweredPath(CreateRpc(d, s, req, f).1.value) == info.path
    ensures Normalized(p.config.profile, RequestedCapacity(req)).Some?
    ensures info.sizeBytes >= Normalized(p.config.profile, RequestedCapacity(req)).value <==> HoldsRequest(p, req, later.disks[info.path])
    ensures CreateRpc(d, s, req, f).1.value == FreshResponse(req, info)
    ensures p.config.zone != "" && req.name != ""
  {
    var first: VolumeInfo;
    p, first := FreshAnswer(d, s, req, f);
    var cloud := CreateRpc(d, s, req, f).0.cloud;
    info := Resized(first, later.disks[first.path]);
    ResizingKeepsBacking(p, cloud, later, req.name, first);
    ResizingKeepsOwnership(p, cloud.disks[first.path], later.disks[first.path], req.name);
  }

  /**
   A create whose record was lost converges: repeating it in any later state where the disk is still
   there, resized or not, and the store still has no record creates nothing; whenever its lookup reaches
   the disk it gives the identical response, native path included, or refuses a disk shrunk below the
   request.
   */
  lemma LostRecordRetryConverges(d: Deployment, s: State, req: CreateRequest, f: CreateFaults, p: Provider, later: State, again: CreateFaults)
    requires CreatedAndStillThere(d, s, req, f, later.cloud) && RequestProvider(d, req, true) == Ok(p)
    requires Store.Load(later.dir, req.name).Err? && again.sessionOk
    requires Laws.Reaches(p, later.cloud, req.name, again.calls.get, again.calls.pages,
                          AnsweredPath(CreateRpc(d, s, req, f).1.value))
    ensures CreateRpc(d, later, req, again).0.cloud == later.cloud
    ensures var disk := later.cloud.disks[AnsweredPath(CreateRpc(d, s, req, f).1.value)];
            CreateRpc(d, later, req, again).1
            == if HoldsRequest(p, req, disk) then CreateRpc(d, s, req, f).1 else Err(TooSmallToReuse())
  {
    var q, info := AnswerIsUsable(d, s, req, f, later.cloud);
    Laws.CreateAdoptsReachedDisk(p, later.cloud, req.name, RequestedCapacity(req), info, again.calls);
    CreateAnswersFromProvider(d, later, req, again);
  }

  function TooSmallToReuse(): RpcError {
    ProviderFailed(Prov.AlreadyExists(Prov.TooSmall))
  }

  /**
   With a complete name query, it converges exactly when it does not go by a native ID other than the
   disk's and the disk is still as large as the request's allocation.
   */
  lemma LostRecordRetryConvergesIff(d: Deployment, s: State, req: CreateRequest, f: CreateFaults, p: Provider, later: State, again: CreateFaults)
    requires CreatedAndStillThere(d, s, req, f, later.cloud) && RequestProvider(d, req, true) == Ok(p)
    requires Store.Load(later.dir, req.name).Err? && again.sessionOk
    requires Laws.UniqueName(later.cloud, req.name) && Laws.CompleteListing(later.cloud, ByName(req.name), again.calls.pages)
    requires again.calls.get.Answers? ==> !again.calls.get.drop.capacity
    ensures CreateRpc(d, later, req, again).0.cloud == later.cloud
            && CreateRpc(d, later, req, again).1 == CreateRpc(d, s, req, f).1
            <==> && (Laws.GoesByNativeID(p, again.calls.get) ==>
                       p.config.volumeID == AnsweredPath(CreateRpc(d, s, req, f).1.value))
                 && HoldsRequest(p, req, later.cloud.disks[AnsweredPath(CreateRpc(d, s, req, f).1.value)])
  {
    var q, info := AnswerIsUsable(d, s, req, f, later.cloud);
    CreateAnswersFromProvider(d, later, req, again);
    if Laws.GoesByNativeID(p, again.calls.get) && p.config.volumeID != info.path {
      Laws.OtherNativeIDMisses(p, later.cloud, req.name, RequestedCapacity(req), again.calls, info.path);
      OtherPathOtherAnswer(p, d, later, req, again, info);
    } else {
      LostRecordRetryConverges(d, s, req, f, p, later, again);
    }
  }

  /** Answers that describe different disks differ. */
  lemma OtherPathOtherAnswer(p: Provider, d: Deployment, later: State, req: CreateRequest, again: CreateFaults, info: VolumeInfo)
    requires RequestProvider(d, req, again.sessionOk) == Ok(p) && RequestError(req).None? && Store.Load(later.dir, req.name).Err?
    requires ValidCloud(later.cloud) && Laws.Backs(p, later.cloud, req.name, info)
    requires var (c', r) := Prov.Create(p, later.cloud, req.name, RequestedCapacity(req), again.calls);
             !(c' == later.cloud && r.Ok? && r.value.path == info.path)
    ensures !(CreateRpc(d, later, req, again).0.cloud == later.cloud
              && CreateRpc(d, later, req, again).1 == Ok(FreshResponse(req, info)))
  {
    CreateAnswersFromProvider(d, later, req, again);
    BackedPath(p, later.cloud, req.name, info, req);
    var created := ProviderCreate(d, later, req, again).1;
    if created.Ok? {
      Laws.AnswersNameTheirPath(p, later.cloud, req.name, RequestedCapacity(req), again.calls);
    }
  }

  /** The disk a create added, as an answer would describe it. */
  lemma AddedDiskBacks(p: Provider, c: Cloud, name: string, size: int64, f: Prov.CreateCalls, id: string) returns (disk: Volume)
    requires ValidCloud(c) && TruthfulPages(c, f.pages) && Accepted(p.config)
    requires var c' := Prov.Create(p, c, name, size, f).0; id in c'.disks && id !in c.disks
    ensures disk == Prov.Create(p, c, name, size, f).0.disks[id]
    ensures disk.id == id && Laws.Claimed(p, disk, name) && Prov.OwnershipConflict(p, disk, name) == None
    ensures disk.az == p.config.zone && disk.profile == Some(p.config.profile) && disk.capacity.Some?
    ensures p.config.zone != "" && name != "" && Normalized(p.config.profile, size).Some?
  {
    var c' := Prov.Create(p, c, name, size, f).0;
    disk := c'.disks[id];
    Laws.CreateFacts(p, c, name, size, f);
    Laws.NewDiskHasNoConflict(p, c, c', name, id);
  }

  /** The disk is available, with at least the size that was asked for. */
  ghost predicate AvailableAtSize(p: Provider, size: int64, now: Volume) {
    && now.status == "available"
    && now.capacity.Some? && 0 < now.capacity.value <= MAX_UNITS
    && (Normalized(p.config.profile, size).Some? ==> Normalized(p.config.profile, size).value <= now.capacity.value * GIB)
  }

  lemma AddingMeansProvider(d: Deployment, s: State, req: CreateRequest, f: CreateFaults, id: string)
    requires id in CreateRpc(d, s, req, f).0.cloud.disks && id !in s.cloud.disks
    ensures RequestError(req).None? && RequestProvider(d, req, true).Ok? && f.sessionOk
    ensures CreateRpc(d, s, req, f).0.cloud == ProviderCreate(d, s, req, f).0
  {
  }

  /** The same, for the disk a request added. */
  lemma RequestedDiskBacks(d: Deployment, s: State, req: CreateRequest, f: CreateFaults, id: string, p: Provider) returns (disk: Volume)
    requires Inv(s) && Honest(d, s, CreateOp(req, f)) && RequestProvider(d, req, true) == Ok(p)
    requires id in CreateRpc(d, s, req, f).0.cloud.disks && id !in s.cloud.disks
    ensures disk == CreateRpc(d, s, req, f).0.cloud.disks[id]
    ensures disk.id == id && Laws.Claimed(p, disk, req.name) && Prov.OwnershipConflict(p, disk, req.name) == None
    ensures disk.az == p.config.zone && disk.profile == Some(p.config.profile)
    ensures p.config.zone != "" && req.name != "" && Normalized(p.config.profile, RequestedCapacity(req)).Some?
    ensures RequestError(req).None?
  {
    AddingMeansProvider(d, s, req, f, id);
    ProviderIsAccepted(d, Apply(req.params, req.topology), true);
    disk := AddedDiskBacks(p, s.cloud, req.name, RequestedCapacity(req), f.calls, id);
  }

  /** A request reaching its settled disk adopts it. */
  lemma AdoptsSettledDisk(d: Deployment, s: State, req: CreateRequest, f: CreateFaults, p: Provider, id: string)
    requires RequestProvider(d, req, f.sessionOk) == Ok(p) && RequestError(req).None? && Store.Load(s.dir, req.name).Err?
    requires p.config.zone != "" && req.name != "" && Laws.Orderly(s.cloud)
    requires id in s.cloud.disks && Laws.Claimed(p, s.cloud.disks[id], req.name)
    requires var disk := s.cloud.disks[id];
             && disk.az == p.config.zone && disk.profile == Some(p.config.profile)
             && Prov.OwnershipConflict(p, disk, req.name) == None
             && Normalized(p.config.profile, RequestedCapacity(req)).Some?
             && AvailableAtSize(p, RequestedCapacity(req), disk)
    requires Laws.Reaches(p, s.cloud, req.name, f.calls.get, f.calls.pages, id)
    ensures var (s', r) := CreateRpc(d, s, req, f);
            && s'.cloud == s.cloud
            && r.Ok? && r.value.capacityBytes == RequestedCapacity(req) && AnsweredPath(r.value) == id
  {
    var disk := s.cloud.disks[id];
    var info := VolumeInfo(req.name, id, disk.capacity.value * GIB, "ibmcloud", Prov.InfoMetadata(disk));
    Laws.CreateAdoptsReachedDisk(p, s.cloud, req.name, RequestedCapacity(req), info, f.calls);
    CreateAnswersFromProvider(d, s, req, f);
    BackedPath(p, s.cloud, req.name, info, req);
  }

  /**
   A create that provisioned a disk but failed, because its reply was lost or the disk still pending,
   converges too: once the disk is available the retry adopts it and creates nothing.
   */
  lemma LostReplyRetryAdopts(d: Deployment, s: State, req: CreateRequest, f: CreateFaults, id: string, p: Provider,
                             later: State, again: CreateFaults)
    requires Inv(s) && Honest(d, s, CreateOp(req, f)) && RequestProvider(d, req, true) == Ok(p)
    requires id in CreateRpc(d, s, req, f).0.cloud.disks && id !in s.cloud.disks
    requires StillThere(CreateRpc(d, s, req, f).0.cloud, later.cloud, id)
    requires AvailableAtSize(p, RequestedCapacity(req), later.cloud.disks[id])
    requires Laws.Orderly(later.cloud) && Store.Load(later.dir, req.name).Err?
    requires again.sessionOk && Laws.Reaches(p, later.cloud, req.name, again.calls.get, again.calls.pages, id)
    ensures var (s', r) := CreateRpc(d, later, req, again);
            && s'.cloud == later.cloud
            && r.Ok? && r.value.capacityBytes == RequestedCapacity(req) && AnsweredPath(r.value) == id
  {
    var before := RequestedDiskBacks(d, s, req, f, id, p);
    ResizingKeepsOwnership(p, before, later.cloud.disks[id], req.name);
    AdoptsSettledDisk(d, later, req, again, p, id);
  }

  /**
   A create repeated while its record is there is answered from the record: the same volume ID,
   capacity and topology, and a context holding the request's own parameters.
   */
  lemma SavedRecordAnswersAlike(d: Deployment, s: State, req: CreateRequest, f: CreateFaults, later: State, again: CreateFaults)
    requires Inv(s) && Honest(d, s, CreateOp(req, f)) && Store.Load(s.dir, req.name).Err?
    requires CreateRpc(d, s, req, f).1.Ok? && f.save.file
    requires Store.Load(later.dir, req.name) == Store.Load(CreateRpc(d, s, req, f).0.dir, req.name)
    ensures CreateRpc(d, later, req, again)
         == (later, Ok(CreateRpc(d, s, req, f).1.value.(context := Apply(req.params, req.topology))))
  {
    var p, info := FreshAnswer(d, s, req, f);
    FreshRecordIsSaved(d, s, req, f, info);
    RecordAnswers(d, later, req, again, NewRecord(req, info));
    CachedAnswer(d, req, f.sessionOk, info);
  }

  lemma FreshRecordIsSaved(d: Deployment, s: State, req: CreateRequest, f: CreateFaults, info: VolumeInfo)
    requires Store.Load(s.dir, req.name).Err? && RequestError(req).None? && PlainName(req.name)
    requires RequestProvider(d, req, f.sessionOk).Ok? && ProviderCreate(d, s, req, f).1 == Ok(info) && f.save.file
    ensures Store.Load(CreateRpc(d, s, req, f).0.dir, req.name) == Ok(NewRecord(req, info))
  {
    CreateAnswersFromProvider(d, s, req, f);
    SavedIsLoaded(s.dir, NewRecord(req, info), f.save);
  }

  lemma CachedAnswer(d: Deployment, req: CreateRequest, sessionOk: bool, info: VolumeInfo)
    requires RequestProvider(d, req, sessionOk).Ok?
    ensures CachedResponse(NewRecord(req, info), req.name)
         == FreshResponse(req, info).(context := Apply(req.params, req.topology))
  {
    ProviderParams(d, Apply(req.params, req.topology), sessionOk);
    CachedContextIsParams(NewRecord(req, info), req.name);
  }

  lemma ProviderParams(d: Deployment, params: Params, sessionOk: bool)
    requires NewProvider(d, params, sessionOk).Ok?
    ensures Store.HasProvider(params)
  {
  }

  lemma RecordAnswers(d: Deployment, s: State, req: CreateRequest, f: CreateFaults, rec: Store.VolumeRecord)
    requires RequestError(req).None? && Store.Load(s.dir, req.name) == Ok(rec)
    requires rec.capacityBytes == RequestedCapacity(req)
    ensures CreateRpc(d, s, req, f) == (s, Ok(CachedResponse(rec, req.name)))
  {
  }

  lemma SavedIsLoaded(dir: Store.Dir, rec: Store.VolumeRecord, w: Store.Writes)
    requires PlainName(rec.volumeID) && w.file
    ensures Store.Load(Store.Save(dir, rec, w), rec.volumeID) == Ok(rec)
  {
    StoreLaws.RefreshKeepsFile(dir[Store.FileName(rec.volumeID) := Store.RecordFile(rec)], Store.FileName(rec.volumeID));
  }

  // ---- Volume-context round trip ----

  const METADATA_KEYS := {"cloud-volume-path", "cloud-provider", "ibm-volume-id", "zone", "profile"}

  /** The context keeps every parameter that the provider's metadata does not override. */
  lemma ContextKeeps(info: VolumeInfo, params: Params, key: string)
    requires info.metadata.Keys == METADATA_KEYS && key !in METADATA_KEYS && key != "cloudProvider"
    ensures Get(FreshContext(info, params), key) == Get(params, key)
  {
  }

  lemma ContextKeepsPlacement(info: VolumeInfo, params: Params)
    requires info.metadata.Keys == METADATA_KEYS
    ensures var context := FreshContext(info, params);
            && Get(context, "region") == Get(params, "region") && Get(context, "ibmRegion") == Get(params, "ibmRegion")
            && Get(context, "resourceGroup") == Get(params, "resourceGroup")
            && Get(context, "ibmResourceGroup") == Get(params, "ibmResourceGroup")
  {
    ContextKeeps(info, params, "region");
    ContextKeeps(info, params, "ibmRegion");
    ContextKeeps(info, params, "resourceGroup");
    ContextKeeps(info, params, "ibmResourceGroup");
  }

  lemma ContextKeepsSettings(info: VolumeInfo, params: Params)
    requires info.metadata.Keys == METADATA_KEYS
    ensures var context := FreshContext(info, params);
            && Get(context, "iops") == Get(params, "iops") && Get(context, "ibmIops") == Get(params, "ibmIops")
            && Get(context, "tags") == Get(params, "tags") && Get(context, "throughput") == Get(params, "throughput")
  {
    ContextKeeps(info, params, "iops");
    ContextKeeps(info, params, "ibmIops");
    ContextKeeps(info, params, "tags");
    ContextKeeps(info, params, "throughput");
  }

  lemma ContextKeepsOptions(info: VolumeInfo, params: Params)
    requires info.metadata.Keys == METADATA_KEYS
    ensures var context := FreshContext(info, params);
            && Get(context, "encrypted") == Get(params, "encrypted")
            && Get(context, "encryptionKey") == Get(params, "encryptionKey")
            && Get(context, "billingType") == Get(params, "billingType")
            && Get(context, "csi.storage.k8s.io/fstype") == Get(params, "csi.storage.k8s.io/fstype")
  {
    ContextKeeps(info, params, "encrypted");
    ContextKeeps(info, params, "encryptionKey");
    ContextKeeps(info, params, "billingType");
    ContextKeeps(info, params, "csi.storage.k8s.io/fstype");
  }

  lemma ContextOverrides(info: VolumeInfo, params: Params, disk: Volume)
    requires disk.profile.Some? && info.metadata == Prov.InfoMetadata(disk)
    ensures info.metadata.Keys == METADATA_KEYS
    ensures var context := FreshContext(info, params);
            && Get(context, "ibm-volume-id") == disk.id
            && Get(context, "zone") == disk.az && Get(context, "profile") == disk.profile.value
  {
    var m := info.metadata;
    assert m["ibm-volume-id"] == disk.id && m["zone"] == disk.az && m["profile"] == disk.profile.value;
  }

  lemma ContextProvider(info: VolumeInfo, params: Params)
    requires info.metadata.Keys == METADATA_KEYS && Store.HasProvider(params)
    ensures Get(FreshContext(info, params), "cloudProvider") == Get(params, "cloudProvider")
  {
    assert "cloudProvider" !in METADATA_KEYS;
  }

  lemma ContextRaw(info: VolumeInfo, params: Params, disk: Volume)
    requires disk.profile.Some? && info.metadata == Prov.InfoMetadata(disk)
    requires disk.id != "" && disk.az == Raw(params).zone != "" && disk.profile.value == Raw(params).profile != ""
    ensures Raw(FreshContext(info, params)) == Raw(params).(volumeID := disk.id)
    ensures Get(FreshContext(info, params), "throughput") == Get(params, "throughput")
  {
    ContextOverrides(info, params, disk);
    ContextKeepsPlacement(info, params);
    ContextKeepsSettings(info, params);
    ContextKeepsOptions(info, params);
  }

  /** The pre-resolved volume ID plays no part in validation. */
  lemma ValidateIgnoresVolumeID(raw: Config, throughput: string, id: string)
    ensures Validate(raw.(volumeID := id), throughput) ==
            match Validate(raw, throughput) case Err(e) => Err(e) case Ok(cfg) => Ok(cfg.(volumeID := id))
  {
  }

  lemma ValidateKeepsPlacement(raw: Config, throughput: string)
    requires Validate(raw, throughput).Ok?
    ensures var cfg := Validate(raw, throughput).value;
            cfg.zone == raw.zone != "" && cfg.profile == raw.profile != ""
  {
    assert "" !in PROFILES;
  }

  /** Parsing the context of a fresh answer gives the original configuration plus the native ID. */
  lemma FreshContextParses(d: Deployment, params: Params, p: Provider, c: Cloud, name: string, info: VolumeInfo)
    requires NewProvider(d, params, true) == Ok(p)
    requires Laws.Backs(p, c, name, info) && ValidCloud(c)
    ensures NewProvider(d, FreshContext(info, params), true)
         == Ok(p.(config := p.config.(volumeID := info.path)))
  {
    var disk := c.disks[info.path];
    var throughput := Get(params, "throughput");
    assert info.path in c.used;
    ValidateKeepsPlacement(Raw(params), throughput);
    ContextRaw(info, params, disk);
    ContextOverrides(info, params, disk);
    ContextProvider(info, params);
    ValidateIgnoresVolumeID(Raw(params), throughput, info.path);
  }

  /** Parsing the context of a cached answer gives the record's configuration. */
  lemma CachedContextParses(d: Deployment, rec: Store.VolumeRecord, name: string)
    requires Store.HasProvider(rec.params)
    ensures NewProvider(d, CachedResponse(rec, name).context, true) == NewProvider(d, rec.params, true)
  {
    CachedContextIsParams(rec, name);
  }

  lemma CachedContextIsParams(rec: Store.VolumeRecord, name: string)
    requires Store.HasProvider(rec.params)
    ensures CachedResponse(rec, name).context == rec.params
  {
    assert "cloudProvider" in rec.params;
  }

  lemma OwnershipIgnoresVolumeID(p: Provider, v: Volume, name: string, id: string)
    ensures Prov.OwnershipConflict(p.(config := p.config.(volumeID := id)), v, name) == Prov.OwnershipConflict(p, v, name)
  {
    var q := p.(config := p.config.(volumeID := id));
    assert q.config.(extraTags := [], volumeID := "") == p.config.(extraTags := [], volumeID := "");
  }

  /** Without a size in the context, a stage fits every disk as large as some request's allocation. */
  lemma DefaultStageSizeFits(p: Provider, req: CreateRequest, context: Params, disk: Volume)
    requires Get(context, "capacity_in_bytes") == "" && HoldsRequest(p, req, disk)
    ensures StageFits(p.config.profile, context, disk.capacity.value * GIB)
  {
    NoSizeMeansDefault(context);
  }

  /** A usable disk stays usable to the provider a fresh context gives. */
  lemma UsableUnderContext(p: Provider, c: Cloud, name: string, info: VolumeInfo)
    requires Laws.Usable(p, c, name, info)
    ensures Laws.Usable(p.(config := p.config.(volumeID := info.path)), c, name, info)
  {
    OwnershipIgnoresVolumeID(p, c.disks[info.path], name, info.path);
    assert p.config.(volumeID := info.path).(extraTags := [], volumeID := "") == p.config.(extraTags := [], volumeID := "");
  }

  /** The size a stage asks for fits the disk. */
  predicate StageFits(profile: string, context: Params, sizeBytes: int) {
    var needed := Normalized(profile, Node.StageSize(context));
    needed.Some? && needed.value <= sizeBytes
  }

  /** Staging under a context whose lookup reaches a usable disk stages it exactly if the asked size fits. */
  lemma StageAdopts(d: Deployment, c: Cloud, name: string, context: Params, q: Provider, info: VolumeInfo, f: StageFaults)
    requires NewProvider(d, context, f.sessionOk) == Ok(q)
    requires Laws.Orderly(c) && name != "" && q.config.zone != "" && Laws.Usable(q, c, name, info)
    requires Laws.Reaches(q, c, name, f.calls.get, f.calls.pages, info.path)
    ensures StageOnIbm(d, c, name, context, f)
         == (c, if StageFits(q.config.profile, context, info.sizeBytes) then Some(info.path) else None)
  {
    Laws.CreateAdoptsReachedDisk(q, c, name, Node.StageSize(context), info, f.calls);
  }

  /** A stage under the context of a fresh answer reaches the disk by native ID, or by name if that fails. */
  ghost predicate ContextReaches(c: Cloud, name: string, calls: Prov.CreateCalls) {
    if calls.get.Answers? then !calls.get.drop.capacity
    else Laws.UniqueName(c, name) && Laws.CompleteListing(c, ByName(name), calls.pages)
  }

  /** Staging from a create's own context, in any later cloud with the disk, stages it exactly if the size fits. */
  lemma StagingReturnsThePath(d: Deployment, s: State, req: CreateRequest, f: CreateFaults, p: Provider, later: Cloud, stage: StageFaults)
    requires CreatedAndStillThere(d, s, req, f, later) && RequestProvider(d, req, true) == Ok(p)
    requires stage.sessionOk && ContextReaches(later, req.name, stage.calls)
    ensures var resp := CreateRpc(d, s, req, f).1.value;
            var path := AnsweredPath(resp);
            && StageOnIbm(d, later, req.name, resp.context, stage)
               == (later, if StageFits(p.config.profile, resp.context, later.disks[path].capacity.value * GIB) then Some(path) else None)
            && path != ""
  {
    var q0, info := AnswerIsUsable(d, s, req, f, later);
    var q := p.(config := p.config.(volumeID := info.path));
    FreshContextParses(d, Apply(req.params, req.topology), p, later, req.name, info);
    BackedPath(p, later, req.name, info, req);
    UsableUnderContext(p, later, req.name, info);
    StageAdopts(d, later, req.name, FreshResponse(req, info).context, q, info, stage);
  }

  /** Staging what the provider returned and publishing it writes this path as device, beside the context. */
  ghost predicate PublishesPath(n: Node.NodeState, name: string, staging: Node.Path, target: Node.Path, context: Params,
                                staged: Option<string>, path: string) {
    var n1 := Node.Stage(n, name, staging, staged).0;
    var (n2, published) := Node.Publish(n1, name, target, context, Node.PublishIo(true, true, true));
    && published.Ok?
    && Get(context, "cloud-volume-path") == path
    && Base64Url.Encode(target) in n2.mounts
    && n2.mounts[Base64Url.Encode(target)] == Node.Directory(Node.GoodInfo(Node.MountInfo(path, context["cloud-volume-id" := name])))
  }

  lemma PublishNamesThePath(n: Node.NodeState, name: string, staging: Node.Path, target: Node.Path, context: Params, path: string)
    requires name != "" && staging != [] && target != [] && Base64Url.Encode(target) !in n.mounts
    requires path == Get(context, "cloud-volume-path") != ""
    ensures PublishesPath(n, name, staging, target, context, Some(path), path)
  {
  }

  /**
   Round trip: staging a volume from the context its create answered with, in any later cloud that
   still has the disk at whatever size, passes the ownership check, creates nothing and stages the disk
   the context names exactly if the size asked for fits; publishing it then writes that same native path
   as the device, next to a context that names it as cloud-volume-path. With no size in the context it
   fits unless the disk was shrunk below the request.
   */
  lemma StagingComesBackToTheDisk(d: Deployment, s: State, req: CreateRequest, f: CreateFaults, p: Provider, later: Cloud, stage: StageFaults,
                                  n: Node.NodeState, staging: Node.Path, target: Node.Path)
    requires CreatedAndStillThere(d, s, req, f, later) && RequestProvider(d, req, true) == Ok(p)
    requires stage.sessionOk && ContextReaches(later, req.name, stage.calls)
    requires staging != [] && target != [] && Base64Url.Encode(target) !in n.mounts
    ensures var resp := CreateRpc(d, s, req, f).1.value;
            var disk := later.disks[AnsweredPath(resp)];
            var fits := StageFits(p.config.profile, resp.context, disk.capacity.value * GIB);
            var (cloud', staged) := StageOnIbm(d, later, req.name, resp.context, stage);
            && cloud' == later && (staged.Some? <==> fits)
            && (Get(resp.context, "capacity_in_bytes") == "" && HoldsRequest(p, req, disk) ==> fits)
            && (fits ==> PublishesPath(n, req.name, staging, target, resp.context, staged, AnsweredPath(resp)))
  {
    OkMeansProvider(d, s, req, f);
    StagingReturnsThePath(d, s, req, f, p, later, stage);
    var resp := CreateRpc(d, s, req, f).1.value;
    var disk := later.disks[AnsweredPath(resp)];
    if Get(resp.context, "capacity_in_bytes") == "" && HoldsRequest(p, req, disk) {
      DefaultStageSizeFits(p, req, resp.context, disk);
    }
    PublishNamesThePath(n, req.name, staging, target, resp.context, AnsweredPath(resp));
  }

  lemma NoSizeMeansDefault(context: Params)
    requires Get(context, "capacity_in_bytes") == ""
    ensures Node.StageSize(context) == GIB
  {
  }

  /**
   Staging from the context of an answer given from a record reaches the recorded disk by the record's
   own configuration and stages it exactly if the size asked for fits.
   */
  lemma CachedStagingFindsTheDisk(d: Deployment, c: Cloud, rec: Store.VolumeRecord, p: Provider, info: VolumeInfo, f: StageFaults)
    requires Laws.Orderly(c) && NewProvider(d, rec.params, true) == Ok(p) && f.sessionOk && rec.volumeID != ""
    requires Laws.Usable(p, c, rec.volumeID, info) && info.path == rec.path
    requires Laws.Reaches(p, c, rec.volumeID, f.calls.get, f.calls.pages, rec.path)
    ensures StageOnIbm(d, c, rec.volumeID, CachedResponse(rec, rec.volumeID).context, f)
         == (c, if StageFits(p.config.profile, rec.params, info.sizeBytes) then Some(rec.path) else None)
  {
    ProviderParams(d, rec.params, true);
    CachedContextIsParams(rec, rec.volumeID);
    ProviderIsAccepted(d, rec.params, true);
    StageAdopts(d, c, rec.volumeID, rec.params, p, info, f);
  }
}
