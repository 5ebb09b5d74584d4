/**
 The controller server with the IBM provider: CreateVolume, DeleteVolume and ControllerExpandVolume
 over the cloud and the local volume store, and recovery of lost records. The functions give the
 state and answer for every outcome of the calls inside an RPC; a crash after a cloud call leaves the
 state of an outcome whose later writes do not take effect. The class runs the same steps on objects.
 */
module Controller {
  import opened Basics
  import opened Decimal
  import opened IbmConfig
  import opened IbmSdk
  import opened ProviderApi
  import opened Topology
  import Prov = IbmProvider
  import Store = VolumeStore

  datatype State = State(cloud: Cloud, dir: Store.Dir)

  datatype RpcError =
    | NameMissing
    | BadCapabilities
    | KbsKeyMissing
    | CapacityDiffers
    | ProviderUnavailable(config: ConfigError)
    | ProviderFailed(cause: Prov.Error)
    | IdMissing
    | CapacityMissing
    | NoParams
    | LoadFailed(load: Store.LoadError)
    | PersistFailed

  // ---- Recovery and loading ----

  datatype RecoverCalls = RecoverCalls(sessionOk: bool, pages: Prov.DiskPages, writes: Store.MergeWrites)

  /** RecoverFromCloud; a failed recovery leaves the store as it was. */
  function Recover(d: Deployment, dir: Store.Dir, params: Option<Params>, f: RecoverCalls): Store.Dir {
    if params == None || !Store.HasProvider(params.value) then dir
    else
      match NewProvider(d, params.value, f.sessionOk)
      case Err(_) => dir
      case Ok(p) =>
        match Prov.ListManaged(p, f.pages)
        case Err(_) => dir
        case Ok(vols) => Store.Merge(dir, vols, params.value, f.writes)
  }

  /** loadVolumeRecord: the local record, or the record after one recovery. */
  function LoadVolumeRecord(d: Deployment, dir: Store.Dir, volumeID: string, external: Option<Params>, f: RecoverCalls)
    : (Store.Dir, Result<Store.VolumeRecord, Store.LoadError>)
  {
    match Store.Load(dir, volumeID)
    case Ok(rec) => (dir, Ok(rec))
    case Err(e) =>
      match Store.BootstrapParams(dir, dir, external)
      case None => (dir, Err(e))
      case Some(params) =>
        var recovered := Recover(d, dir, Some(params), f);
        match Store.Load(recovered, volumeID)
        case Ok(rec) => (recovered, Ok(rec))
        case Err(_) => (recovered, Err(e))
  }

  // ---- CreateVolume ----

  datatype CreateRequest = CreateRequest(
    name: string,
    params: Params,
    requiredBytes: int64,
    topology: Option<Requirement>,
    capabilitiesOk: bool)

  datatype CreateResponse = CreateResponse(
    volumeID: string,
    capacityBytes: int,
    context: Params,
    topology: Option<Params>)

  datatype CreateFaults = CreateFaults(sessionOk: bool, calls: Prov.CreateCalls, save: Store.Writes)

  const DEFAULT_CAPACITY: int64 := 0x4000_0000

  function RequestedCapacity(req: CreateRequest): int64 {
    if req.requiredBytes == 0 then DEFAULT_CAPACITY else req.requiredBytes
  }

  function RequestError(req: CreateRequest): Option<RpcError> {
    if req.name == "" then Some(NameMissing)
    else if !req.capabilitiesOk then Some(BadCapabilities)
    else
      var params := Apply(req.params, req.topology);
      if Get(params, "encrypt-type") != "" && Get(params, "kbs-key-id") == "" then Some(KbsKeyMissing) else None
  }

  /** The answer from a record: its context leaves out the provider's metadata. */
  function CachedResponse(rec: Store.VolumeRecord, name: string): CreateResponse {
    CreateResponse(name, rec.capacityBytes, map["cloudProvider" := rec.provider] + rec.params, Accessible(rec.params))
  }

  function FreshContext(info: VolumeInfo, params: Params): Params {
    map["cloudProvider" := info.provider] + params + info.metadata
  }

  function NewRecord(req: CreateRequest, info: VolumeInfo): Store.VolumeRecord {
    Store.VolumeRecord(req.name, info.provider, info.path, RequestedCapacity(req), Apply(req.params, req.topology))
  }

  /** CreateVolume once the store has no record for the name. */
  function CreateInCloud(d: Deployment, s: State, req: CreateRequest, f: CreateFaults)
    : (State, Result<CreateResponse, RpcError>)
  {
    var params := Apply(req.params, req.topology);
    var capacity := RequestedCapacity(req);
    match NewProvider(d, params, f.sessionOk)
    case Err(e) => (s, Err(ProviderUnavailable(e)))
    case Ok(p) =>
      var (cloud, created) := Prov.Create(p, s.cloud, req.name, capacity, f.calls);
      match created
      case Err(e) => (s.(cloud := cloud), Err(ProviderFailed(e)))
      case Ok(info) =>
        (State(cloud, Store.Save(s.dir, NewRecord(req, info), f.save)),
         Ok(CreateResponse(req.name, capacity, FreshContext(info, params), Accessible(params))))
  }

  function CreateRpc(d: Deployment, s: State, req: CreateRequest, f: CreateFaults)
    : (State, Result<CreateResponse, RpcError>)
  {
    match RequestError(req)
    case Some(e) => (s, Err(e))
    case None =>
      match Store.Load(s.dir, req.name)
      case Ok(rec) =>
        if rec.capacityBytes != 0 && rec.capacityBytes != RequestedCapacity(req) then (s, Err(CapacityDiffers))
        else (s, Ok(CachedResponse(rec, req.name)))
      case Err(_) => CreateInCloud(d, s, req, f)
  }

  // ---- DeleteVolume ----

  datatype DeleteFaults = DeleteFaults(
    external: Option<Params>,
    recover: RecoverCalls,
    sessionOk: bool,
    get: GetOutcome,
    pages: Prov.DiskPages,
    del: ChangeOutcome,
    forget: Store.Writes)

  /** deleteProviderParams: the recorded native ID goes along. */
  function DeleteParams(rec: Store.VolumeRecord): Params {
    if rec.path != "" then rec.params["cloud-volume-path" := rec.path] else rec.params
  }

  function ResolveParams(dir: Store.Dir, secrets: Params, external: Option<Params>): Option<Params> {
    if Store.HasProvider(secrets) then Some(secrets) else Store.BootstrapParams(dir, dir, external)
  }

  function DeleteWith(d: Deployment, s: State, volumeID: string, params: Params, f: DeleteFaults)
    : (State, Result<Unit, RpcError>)
  {
    match NewProvider(d, params, f.sessionOk)
    case Err(e) => (s, Err(ProviderUnavailable(e)))
    case Ok(p) =>
      var (cloud, deleted) := Prov.Delete(p, s.cloud, volumeID, f.get, f.pages, f.del);
      match deleted
      case Err(e) => (s.(cloud := cloud), Err(ProviderFailed(e)))
      case Ok(_) => (State(cloud, Store.Delete(s.dir, volumeID, f.forget)), Ok(Unit))
  }

  function DeleteRpc(d: Deployment, s: State, volumeID: string, secrets: Params, f: DeleteFaults)
    : (State, Result<Unit, RpcError>)
  {
    if volumeID == "" then (s, Err(IdMissing))
    else
      var (dir, loaded) := LoadVolumeRecord(d, s.dir, volumeID, f.external, f.recover);
      var params := match loaded case Ok(rec) => Some(DeleteParams(rec)) case Err(_) => ResolveParams(dir, secrets, f.external);
      match params
      case None => (s.(dir := dir), Err(NoParams))
      case Some(chosen) => DeleteWith(d, s.(dir := dir), volumeID, chosen, f)
  }

  // ---- ControllerExpandVolume ----

  datatype ExpandFaults = ExpandFaults(
    external: Option<Params>,
    recover: RecoverCalls,
    sessionOk: bool,
    get: GetOutcome,
    pages: Prov.DiskPages,
    update: UpdateOutcome,
    save: Store.Writes)

  function ExpandRecord(d: Deployment, s: State, rec: Store.VolumeRecord, volumeID: string, required: int64, f: ExpandFaults)
    : (State, Result<int, RpcError>)
  {
    if rec.capacityBytes >= required then (s, Ok(rec.capacityBytes))
    else
      match NewProvider(d, rec.params, f.sessionOk)
      case Err(e) => (s, Err(ProviderUnavailable(e)))
      case Ok(p) =>
        var (cloud, expanded) := Prov.Expand(p, s.cloud, volumeID, required, f.get, f.pages, f.update);
        match expanded
        case Err(e) => (s.(cloud := cloud), Err(ProviderFailed(e)))
        case Ok(_) =>
          (State(cloud, Store.Save(s.dir, rec.(capacityBytes := required), f.save)),
           if f.save.file && f.save.manifest then Ok(required) else Err(PersistFailed))
  }

  function ExpandRpc(d: Deployment, s: State, volumeID: string, required: int64, f: ExpandFaults)
    : (State, Result<int, RpcError>)
  {
    if volumeID == "" then (s, Err(IdMissing))
    else if required == 0 then (s, Err(CapacityMissing))
    else
      var (dir, loaded) := LoadVolumeRecord(d, s.dir, volumeID, f.external, f.recover);
      match loaded
      case Err(e) => (s.(dir := dir), Err(LoadFailed(e)))
      case Ok(rec) => ExpandRecord(d, s.(dir := dir), rec, volumeID, required, f)
  }

  // ---- The server object ----

  class ControllerServer {
    const d: Deployment
    const store: Store.Store
    const session: Session

    constructor (d: Deployment, store: Store.Store, session: Session)
      ensures this.d == d && this.store == store && this.session == session
    {
      this.d := d;
      this.store := store;
      this.session := session;
    }

    ghost function Now(): State
      reads store, session
    {
      State(session.cloud, store.files)
    }

    method RecoverFromCloud(params: Option<Params>, f: RecoverCalls)
      modifies store
      ensures store.files == Recover(d, old(store.files), params, f)
    {
      if params.None? || !Store.HasProvider(params.value) {
        return;
      }
      var made := MakeProvider(d, params.value, f.sessionOk);
      if made.Err? {
        return;
      }
      var p := new Prov.IBMCloudProvider(made.value, session);
      var vols := p.ListManagedVolumes(f.pages);
      if vols.Err? {
        return;
      }
      store.MergeRecovered(vols.value, params.value, f.writes);
    }

    /** The recovery newControllerServer runs at startup. */
    method Start(external: Option<Params>, f: RecoverCalls)
      modifies store
      ensures store.files == Recover(d, old(store.files), Store.BootstrapParams(old(store.files), old(store.files), external), f)
    {
      var params := store.BootstrapParamsNow(external);
      RecoverFromCloud(params, f);
    }

    method LoadRecord(volumeID: string, external: Option<Params>, f: RecoverCalls)
      returns (r: Result<Store.VolumeRecord, Store.LoadError>)
      modifies store
      ensures (store.files, r) == LoadVolumeRecord(d, old(store.files), volumeID, external, f)
    {
      r := store.LoadRecord(volumeID);
      if r.Ok? {
        return;
      }
      var params := store.BootstrapParamsNow(external);
      if params.Some? {
        RecoverFromCloud(params, f);
        var again := store.LoadRecord(volumeID);
        if again.Ok? {
          return again;
        }
      }
    }

    method CreateVolume(req: CreateRequest, f: CreateFaults) returns (r: Result<CreateResponse, RpcError>)
      modifies store, session
      ensures (Now(), r) == CreateRpc(d, old(Now()), req, f)
    {
      if req.name == "" {
        return Err(NameMissing);
      }
      if !req.capabilitiesOk {
        return Err(BadCapabilities);
      }
      var params := ApplyTopologyParams(req.params, req.topology);
      if Get(params, "encrypt-type") != "" {
        if Get(params, "kbs-key-id") == "" {
          return Err(KbsKeyMissing);
        }
      }
      var capacity := req.requiredBytes;
      if capacity == 0 {
        capacity := DEFAULT_CAPACITY;
      }
      var existing := store.LoadRecord(req.name);
      if existing.Ok? {
        if existing.value.capacityBytes != 0 && existing.value.capacityBytes != capacity {
          return Err(CapacityDiffers);
        }
        return Ok(CachedResponse(existing.value, req.name));
      }
      var made := MakeProvider(d, params, f.sessionOk);
      if made.Err? {
        return Err(ProviderUnavailable(made.error));
      }
      var p := new Prov.IBMCloudProvider(made.value, session);
      var created := p.CreateVolume(req.name, capacity, f.calls);
      if created.Err? {
        return Err(ProviderFailed(created.error));
      }
      var info := created.value;
      var persisted := store.SaveRecord(Store.VolumeRecord(req.name, info.provider, info.path, capacity, params), f.save);
      return Ok(CreateResponse(req.name, capacity, FreshContext(info, params), Accessible(params)));
    }

    method DeleteVolume(volumeID: string, secrets: Params, f: DeleteFaults) returns (r: Result<Unit, RpcError>)
      modifies store, session
      ensures (Now(), r) == DeleteRpc(d, old(Now()), volumeID, secrets, f)
    {
      if volumeID == "" {
        return Err(IdMissing);
      }
      var params: Option<Params>;
      var rec := LoadRecord(volumeID, f.external, f.recover);
      if rec.Ok? {
        params := Some(DeleteParams(rec.value));
      } else {
        if Store.HasProvider(secrets) {
          params := Some(secrets);
        } else {
          params := store.BootstrapParamsNow(f.external);
        }
        if params.None? {
          return Err(NoParams);
        }
      }
      var made := MakeProvider(d, params.value, f.sessionOk);
      if made.Err? {
        return Err(ProviderUnavailable(made.error));
      }
      var p := new Prov.IBMCloudProvider(made.value, session);
      var deleted := p.DeleteVolume(volumeID, f.get, f.pages, f.del);
      if deleted.Err? {
        return Err(ProviderFailed(deleted.error));
      }
      store.DeleteRecord(volumeID, f.forget);
      return Ok(Unit);
    }

    method ControllerExpandVolume(volumeID: string, requiredBytes: int64, f: ExpandFaults) returns (r: Result<int, RpcError>)
      modifies store, session
      ensures (Now(), r) == ExpandRpc(d, old(Now()), volumeID, requiredBytes, f)
    {
      if volumeID == "" {
        return Err(IdMissing);
      }
      if requiredBytes == 0 {
        return Err(CapacityMissing);
      }
      var loaded := LoadRecord(volumeID, f.external, f.recover);
      if loaded.Err? {
        return Err(LoadFailed(loaded.error));
      }
      var rec := loaded.value;
      if rec.capacityBytes >= requiredBytes {
        return Ok(rec.capacityBytes);
      }
      var made := MakeProvider(d, rec.params, f.sessionOk);
      if made.Err? {
        return Err(ProviderUnavailable(made.error));
      }
      var p := new Prov.IBMCloudProvider(made.value, session);
      var expanded := p.ExpandVolume(volumeID, requiredBytes, f.get, f.pages, f.update);
      if expanded.Err? {
        return Err(ProviderFailed(expanded.error));
      }
      rec := rec.(capacityBytes := requiredBytes);
      var persisted := store.SaveRecord(rec, f.save);
      if !persisted {
        return Err(PersistFailed);
      }
      return Ok(requiredBytes);
    }
  }
}
