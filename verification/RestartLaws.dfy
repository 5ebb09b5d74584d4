/**
 Retrying a create after a crash and a restart. The restart's recovery may have rebuilt the lost record
 with the disk's size in place of the requested one; this says exactly when the retry then succeeds,
 and with what.
 */
module RestartLaws {
  import opened Basics
  import opened Capacity
  import opened IbmConfig
  import opened IbmSdk
  import opened ProviderApi
  import opened Topology
  import opened Controller
  import opened ControllerLaws
  import opened RecoveryLaws
  import opened RetryLaws
  import Prov = IbmProvider
  import Laws = IbmProviderLaws
  import Store = VolumeStore

  // ---- Over a rebuilt record ----

  /** The answer a rebuilt record gives: the bootstrap parameters take the place of the request's. */
  function RebuiltResponse(req: CreateRequest, boot: Params): CreateResponse {
    CreateResponse(req.name, RequestedCapacity(req), Store.Sanitize(boot), Accessible(Store.Sanitize(boot)))
  }

  /** A create over a rebuilt record succeeds exactly when the disk's size is the one requested. */
  lemma RetryOverRebuilt(d: Deployment, s: State, req: CreateRequest, f: CreateFaults, disk: Volume, boot: Params)
    requires RequestError(req).None? && Store.HasProvider(boot)
    requires disk.name.Some? && disk.capacity.Some? && disk.capacity.value > 0
    requires Store.Load(s.dir, req.name) == Ok(RebuiltRecord(disk, boot))
    ensures CreateRpc(d, s, req, f)
         == (s, if disk.capacity.value * GIB == RequestedCapacity(req) then Ok(RebuiltResponse(req, boot)) else Err(CapacityDiffers))
  {
    CachedContextIsParams(RebuiltRecord(disk, boot), req.name);
  }

  /** After any recovery, a missing record is still missing or was rebuilt from the name's own disk. */
  lemma AbsentOrRebuilt(d: Deployment, c: Cloud, dir: Store.Dir, boot: Option<Params>, f: RecoverCalls, name: string, path: string)
    requires Laws.Orderly(c) && TruthfulPages(c, f.pages) && PlainName(name) && Store.FileName(name) !in dir
    requires path in c.disks && Laws.OwnedBy(c.disks[path], name)
    ensures var r := Store.Load(Recover(d, dir, boot, f), name);
            r.Ok? ==>
              && boot.Some? && Store.HasProvider(boot.value) && NewProvider(d, boot.value, f.sessionOk).Ok?
              && Laws.Claimed(NewProvider(d, boot.value, f.sessionOk).value, c.disks[path], name)
              && c.disks[path].name.Some? && c.disks[path].capacity.Some? && c.disks[path].capacity.value > 0
              && r == Ok(RebuiltRecord(c.disks[path], boot.value))
  {
    if Store.Load(Recover(d, dir, boot, f), name).Ok? {
      RecoveryReachedListing(d, dir, boot, f, name);
      var q := NewProvider(d, boot.value, f.sessionOk).value;
      RebuiltRecordsAreDisks(d, c, dir, boot.value, q, f, name);
      OneDiskOnly(c, Store.Load(Recover(d, dir, boot, f), name).value.path, path, name);
    }
  }

  lemma RecoveryReachedListing(d: Deployment, dir: Store.Dir, boot: Option<Params>, f: RecoverCalls, name: string)
    requires Store.FileName(name) !in dir && Store.Load(Recover(d, dir, boot, f), name).Ok?
    ensures boot.Some? && NewProvider(d, boot.value, f.sessionOk).Ok?
    ensures Recovers(d, boot.value, NewProvider(d, boot.value, f.sessionOk).value, f)
  {
  }

  // ---- The retry ----

  function AfterRecovery(d: Deployment, s: State, boot: Option<Params>, f: RecoverCalls): State {
    s.(dir := Recover(d, s.dir, boot, f))
  }

  /** The response of a create that reaches its disk: a disk shrunk below the request is refused. */
  function AdoptResponse(p: Provider, req: CreateRequest, info: VolumeInfo): Result<CreateResponse, RpcError>
    requires Normalized(p.config.profile, RequestedCapacity(req)).Some?
  {
    if info.sizeBytes >= Normalized(p.config.profile, RequestedCapacity(req)).value then Ok(FreshResponse(req, info))
    else Err(TooSmallToReuse())
  }

  /**
   The response of a create repeated after a restart's recovery, while its disk is usable: as from the
   provider if the record is still missing; from the record if that was rebuilt at the requested size;
   and a refusal if it was rebuilt at another size.
   */
  function RetryResponse(p: Provider, s: State, req: CreateRequest, info: VolumeInfo, boot: Option<Params>): Result<CreateResponse, RpcError>
    requires Normalized(p.config.profile, RequestedCapacity(req)).Some?
  {
    if Store.Load(s.dir, req.name).Err? || boot.None? then AdoptResponse(p, req, info)
    else if info.sizeBytes == RequestedCapacity(req) then Ok(RebuiltResponse(req, boot.value))
    else Err(CapacityDiffers)
  }

  /** A create whose record is missing adopts its usable disk. */
  lemma RetryOverNothing(d: Deployment, s: State, req: CreateRequest, f: CreateFaults, p: Provider, info: VolumeInfo)
    requires RequestProvider(d, req, f.sessionOk) == Ok(p) && RequestError(req).None? && Store.Load(s.dir, req.name).Err?
    requires Laws.Orderly(s.cloud) && Laws.Usable(p, s.cloud, req.name, info) && p.config.zone != "" && req.name != ""
    requires Normalized(p.config.profile, RequestedCapacity(req)).Some?
    requires Laws.Reaches(p, s.cloud, req.name, f.calls.get, f.calls.pages, info.path)
    ensures CreateRpc(d, s, req, f).0.cloud == s.cloud && CreateRpc(d, s, req, f).1 == AdoptResponse(p, req, info)
  {
    Laws.CreateAdoptsReachedDisk(p, s.cloud, req.name, RequestedCapacity(req), info, f.calls);
    CreateAnswersFromProvider(d, s, req, f);
  }

  /** The record is missing, or is what recovery rebuilds of the disk at this path. */
  ghost predicate MissingOrRebuilt(s: State, name: string, path: string, boot: Option<Params>) {
    Store.Load(s.dir, name).Ok? ==>
      && boot.Some? && Store.HasProvider(boot.value) && path in s.cloud.disks
      && var disk := s.cloud.disks[path];
         && disk.name.Some? && disk.capacity.Some? && disk.capacity.value > 0
         && Store.Load(s.dir, name) == Ok(RebuiltRecord(disk, boot.value))
  }

  lemma RetryResponds(d: Deployment, s: State, boot: Option<Params>, p: Provider, info: VolumeInfo, req: CreateRequest, f: CreateFaults)
    requires RequestProvider(d, req, f.sessionOk) == Ok(p) && RequestError(req).None?
    requires Laws.Orderly(s.cloud) && Laws.Usable(p, s.cloud, req.name, info) && p.config.zone != "" && req.name != ""
    requires Normalized(p.config.profile, RequestedCapacity(req)).Some?
    requires MissingOrRebuilt(s, req.name, info.path, boot)
    requires Laws.Reaches(p, s.cloud, req.name, f.calls.get, f.calls.pages, info.path)
    ensures var (s', r) := CreateRpc(d, s, req, f);
            s'.cloud == s.cloud && r == RetryResponse(p, s, req, info, boot)
  {
    if Store.Load(s.dir, req.name).Ok? {
      RetryOverRebuilt(d, s, req, f, s.cloud.disks[info.path], boot.value);
    } else {
      RetryOverNothing(d, s, req, f, p, info);
    }
  }

  lemma RecoveryLeaves(d: Deployment, s: State, boot: Option<Params>, f: RecoverCalls, name: string, path: string)
    requires Laws.Orderly(s.cloud) && TruthfulPages(s.cloud, f.pages) && PlainName(name) && Store.FileName(name) !in s.dir
    requires path in s.cloud.disks && Laws.OwnedBy(s.cloud.disks[path], name)
    ensures MissingOrRebuilt(AfterRecovery(d, s, boot, f), name, path, boot)
  {
    AbsentOrRebuilt(d, s.cloud, s.dir, boot, f, name, path);
  }

  /** A size that is its own allocation: whole GiB, no less than the profile's minimum, not too large. */
  predicate OwnAllocation(profile: string, size: int) {
    size % GIB == 0 && Minimum(profile) * GIB <= size <= MAX_UNITS * GIB
  }

  lemma OwnAllocationIff(profile: string, size: int)
    requires Normalized(profile, size).Some?
    ensures Normalized(profile, size).value == size <==> OwnAllocation(profile, size)
  {
    NormalizedIsAllocation(profile, size);
  }

  /**
   Crash and retry. A create's record write is lost, the controller restarts and recovers, under any
   bootstrap parameters and with any outcome, and the create is repeated: nothing is created. If recovery
   left the record missing, the response is identical to the lost one, unless the disk was shrunk below
   the request. If recovery rebuilt it, the retry succeeds if and only if the disk's present size is the
   one requested; for a disk still of exactly its allocation, if and only if the request is its own
   allocation.
   */
  lemma CrashRetryConvergesIff(d: Deployment, s: State, req: CreateRequest, f: CreateFaults, p: Provider,
                               later: State, boot: Option<Params>, rf: RecoverCalls, again: CreateFaults)
    requires CreatedAndStillThere(d, s, req, f, later.cloud) && RequestProvider(d, req, true) == Ok(p)
    requires Store.FileName(req.name) !in later.dir && TruthfulPages(later.cloud, rf.pages) && again.sessionOk
    requires Laws.Reaches(p, later.cloud, req.name, again.calls.get, again.calls.pages,
                          AnsweredPath(CreateRpc(d, s, req, f).1.value))
    ensures var disk := later.cloud.disks[AnsweredPath(CreateRpc(d, s, req, f).1.value)];
            var after := AfterRecovery(d, later, boot, rf);
            var (s', r) := CreateRpc(d, after, req, again);
            && s'.cloud == later.cloud
            && (Store.Load(after.dir, req.name).Err? ==>
                  r == if HoldsRequest(p, req, disk) then CreateRpc(d, s, req, f).1 else Err(TooSmallToReuse()))
            && (Store.Load(after.dir, req.name).Ok? ==>
                  && boot.Some? && disk.capacity.Some?
                  && (if disk.capacity.value * GIB == RequestedCapacity(req)
                      then r == Ok(RebuiltResponse(req, boot.value)) else r == Err(CapacityDiffers))
                  && (Some(disk.capacity.value * GIB) == Normalized(p.config.profile, RequestedCapacity(req)) ==>
                        (r.Ok? <==> OwnAllocation(p.config.profile, RequestedCapacity(req)))))
  {
    var q, info := AnswerIsUsable(d, s, req, f, later.cloud);
    RecoveryLeaves(d, later, boot, rf, req.name, info.path);
    RetryResponds(d, AfterRecovery(d, later, boot, rf), boot, p, info, req, again);
    OwnAllocationIff(p.config.profile, RequestedCapacity(req));
  }

  /**
   The same for a create that failed after its disk was provisioned: once the disk is available the
   retry adopts it if it holds the request, or answers from the record if recovery rebuilt that first at
   the requested size, and is refused otherwise.
   */
  lemma LostReplyRetryIff(d: Deployment, s: State, req: CreateRequest, f: CreateFaults, id: string, p: Provider,
                          later: State, boot: Option<Params>, rf: RecoverCalls, again: CreateFaults)
    requires Inv(s) && Honest(d, s, CreateOp(req, f)) && RequestProvider(d, req, true) == Ok(p)
    requires id in CreateRpc(d, s, req, f).0.cloud.disks && id !in s.cloud.disks
    requires StillThere(CreateRpc(d, s, req, f).0.cloud, later.cloud, id)
    requires Laws.Orderly(later.cloud) && Store.FileName(req.name) !in later.dir && TruthfulPages(later.cloud, rf.pages)
    requires again.sessionOk && Laws.Reaches(p, later.cloud, req.name, again.calls.get, again.calls.pages, id)
    ensures var disk := later.cloud.disks[id];
            var after := AfterRecovery(d, later, boot, rf);
            var (s', r) := CreateRpc(d, after, req, again);
            && s'.cloud == later.cloud
            && (r.Ok? <==> if Store.Load(after.dir, req.name).Err? then HoldsRequest(p, req, disk)
                           else disk.capacity.value * GIB == RequestedCapacity(req))
            && (r.Ok? ==> r.value.volumeID == req.name && r.value.capacityBytes == RequestedCapacity(req))
            && (r.Ok? && Store.Load(after.dir, req.name).Err? ==> AnsweredPath(r.value) == id)
  {
    var before := RequestedDiskBacks(d, s, req, f, id, p);
    ResizingKeepsOwnership(p, before, later.cloud.disks[id], req.name);
    var disk := later.cloud.disks[id];
    var info := VolumeInfo(req.name, id, disk.capacity.value * GIB, "ibmcloud", Prov.InfoMetadata(disk));
    RecoveryLeaves(d, later, boot, rf, req.name, id);
    RetryResponds(d, AfterRecovery(d, later, boot, rf), boot, p, info, req, again);
    BackedPath(p, later.cloud, req.name, info, req);
  }

  /** A full recovery under the disk's own placement and configuration does rebuild the record. */
  lemma FullRecoveryRebuilds(d: Deployment, s: State, boot: Params, q: Provider, f: RecoverCalls, id: string)
    requires Laws.Orderly(s.cloud) && FullRecovery(q, s.cloud, f) && Recovers(d, boot, q, f)
    requires id in s.cloud.disks && InPlacement(q, s.cloud.disks[id]) && Laws.Recoverable(q, s.cloud.disks[id])
    requires Store.FileName(s.cloud.disks[id].name.value) !in s.dir
    ensures Store.Load(AfterRecovery(d, s, Some(boot), f).dir, s.cloud.disks[id].name.value) == Ok(RebuiltRecord(s.cloud.disks[id], boot))
  {
    RecoverableDisksAreRebuilt(d, s.cloud, s.dir, boot, q, f, id);
  }

  // ---- What a rebuilt answer says ----

  lemma SanitizedParams(params: Params, key: string)
    requires key != "awsAccessKeyId" && key != "awsSecretKey"
    ensures Get(Store.Sanitize(params), key) == Get(params, key)
  {
  }

  lemma SanitizedPlacement(params: Params)
    ensures var clean := Store.Sanitize(params);
            && Get(clean, "region") == Get(params, "region") && Get(clean, "ibmRegion") == Get(params, "ibmRegion")
            && Get(clean, "zone") == Get(params, "zone") && Get(clean, "ibmZone") == Get(params, "ibmZone")
            && Get(clean, "resourceGroup") == Get(params, "resourceGroup")
            && Get(clean, "ibmResourceGroup") == Get(params, "ibmResourceGroup")
            && Get(clean, "cloudProvider") == Get(params, "cloudProvider")
            && Get(clean, "awsAvailabilityZone") == Get(params, "awsAvailabilityZone")
  {
    SanitizedParams(params, "region");
    SanitizedParams(params, "ibmRegion");
    SanitizedParams(params, "zone");
    SanitizedParams(params, "ibmZone");
    SanitizedParams(params, "resourceGroup");
    SanitizedParams(params, "ibmResourceGroup");
    SanitizedParams(params, "cloudProvider");
    SanitizedParams(params, "awsAvailabilityZone");
  }

  lemma SanitizedSettings(params: Params)
    ensures var clean := Store.Sanitize(params);
            && Get(clean, "profile") == Get(params, "profile") && Get(clean, "ibmProfile") == Get(params, "ibmProfile")
            && Get(clean, "iops") == Get(params, "iops") && Get(clean, "ibmIops") == Get(params, "ibmIops")
            && Get(clean, "throughput") == Get(params, "throughput") && Get(clean, "tags") == Get(params, "tags")
            && Get(clean, "ibm-volume-id") == Get(params, "ibm-volume-id")
            && Get(clean, "cloud-volume-path") == Get(params, "cloud-volume-path")
  {
    SanitizedParams(params, "profile");
    SanitizedParams(params, "ibmProfile");
    SanitizedParams(params, "iops");
    SanitizedParams(params, "ibmIops");
    SanitizedParams(params, "throughput");
    SanitizedParams(params, "tags");
    SanitizedParams(params, "ibm-volume-id");
    SanitizedParams(params, "cloud-volume-path");
  }

  lemma SanitizedOptions(params: Params)
    ensures var clean := Store.Sanitize(params);
            && Get(clean, "encrypted") == Get(params, "encrypted")
            && Get(clean, "encryptionKey") == Get(params, "encryptionKey")
            && Get(clean, "billingType") == Get(params, "billingType")
            && Get(clean, "csi.storage.k8s.io/fstype") == Get(params, "csi.storage.k8s.io/fstype")
  {
    SanitizedParams(params, "encrypted");
    SanitizedParams(params, "encryptionKey");
    SanitizedParams(params, "billingType");
    SanitizedParams(params, "csi.storage.k8s.io/fstype");
  }

  /** Leaving out the credentials does not change the IBM provider parameters make. */
  lemma SanitizedMakesTheSame(d: Deployment, params: Params, sessionOk: bool)
    ensures NewProvider(d, Store.Sanitize(params), sessionOk) == NewProvider(d, params, sessionOk)
  {
    SanitizedPlacement(params);
    SanitizedSettings(params);
    SanitizedOptions(params);
    assert Raw(Store.Sanitize(params)) == Raw(params);
  }

  lemma ProviderPlacement(d: Deployment, params: Params, p: Provider)
    requires NewProvider(d, params, true) == Ok(p) && Get(params, "awsAvailabilityZone") == ""
    ensures Accessible(params) == Segments(p.config.zone, p.config.region)
  {
    var cfg := Parse(params).value;
    assert cfg.zone == Raw(params).zone && cfg.region == Raw(params).region;
  }

  /**
   What agrees when a rebuilt record answers. The disk carries the request's marker only, so if the
   digest tells configurations apart, the bootstrap configuration is the request's up to extra tags and
   native ID. The topology is then the same, and the context parses to that configuration, without the
   native ID that the lost response's context carried.
   */
  lemma RebuiltAnswerAgrees(d: Deployment, req: CreateRequest, p: Provider, boot: Params, q: Provider, disk: Volume)
    requires RequestProvider(d, req, true) == Ok(p) && NewProvider(d, boot, true) == Ok(q)
    requires disk.tags == Prov.DiskTags(p, req.name) && Laws.Claimed(q, disk, req.name) && Distinguishes(q, p)
    requires Get(Apply(req.params, req.topology), "awsAvailabilityZone") == "" && Get(boot, "awsAvailabilityZone") == ""
    ensures var answer := RebuiltResponse(req, boot);
            && answer.volumeID == req.name && answer.capacityBytes == RequestedCapacity(req)
            && answer.topology == Accessible(Apply(req.params, req.topology))
            && NewProvider(d, answer.context, true) == Ok(q)
            && q.config.(extraTags := p.config.extraTags, volumeID := p.config.volumeID) == p.config
  {
    ProviderIsAccepted(d, Apply(req.params, req.topology), true);
    OneMarker(p, req.name, q.ConfigTag());
    var a, b := p.config.(extraTags := [], volumeID := ""), q.config.(extraTags := [], volumeID := "");
    assert a == b && a.zone == b.zone && a.region == b.region;
    assert a.(extraTags := p.config.extraTags, volumeID := p.config.volumeID) == p.config;
    SanitizedMakesTheSame(d, boot, true);
    SanitizedPlacement(boot);
    ProviderPlacement(d, Apply(req.params, req.topology), p);
    ProviderPlacement(d, Store.Sanitize(boot), q);
  }
}
