/**
 The controller's answers in terms of the request: the size answered and recorded, the requests that are
 refused, the parameters a delete uses, and what a failed call leaves in the store.
 */
module ControllerAnswerLaws {
  import opened Basics
  import opened Decimal
  import opened Capacity
  import opened IbmConfig
  import opened IbmSdk
  import opened ProviderApi
  import opened Topology
  import opened Controller
  import opened ControllerLaws
  import Prov = IbmProvider
  import Laws = IbmProviderLaws
  import Retry = RetryLaws
  import Own = OwnershipLaws
  import Store = VolumeStore
  import StoreLaws = VolumeStoreLaws
  import Pagination

  // ---- CreateVolume ----

  /**
   A create that goes through the provider answers exactly the size requested, a gibibyte if that is
   zero; the record, if it is written, says the same, with the request's parameters and the disk's path;
   and the disk the context names has at least that size.
   */
  lemma CreateAnswersRequestedSize(d: Deployment, s: State, req: CreateRequest, f: CreateFaults)
    requires Inv(s) && Honest(d, s, CreateOp(req, f)) && Store.Load(s.dir, req.name).Err?
    requires CreateRpc(d, s, req, f).1.Ok?
    ensures var size := if req.requiredBytes == 0 then 0x4000_0000 else req.requiredBytes;
            var (s', r) := CreateRpc(d, s, req, f);
            var path := Get(r.value.context, "cloud-volume-path");
            && r.value.volumeID == req.name && r.value.capacityBytes == size
            && path in s'.cloud.disks && s'.cloud.disks[path].capacity.Some?
            && s'.cloud.disks[path].capacity.value * 0x4000_0000 >= size
            && (f.save.file ==>
                  Store.Load(s'.dir, req.name)
                  == Ok(Store.VolumeRecord(req.name, "ibmcloud", path, size, Apply(req.params, req.topology))))
  {
    var p, info := Retry.FreshAnswer(d, s, req, f);
    NormalizedIsAllocation(p.config.profile, RequestedCapacity(req));
    if f.save.file {
      Retry.FreshRecordIsSaved(d, s, req, f, info);
    }
  }

  /** What a request must say to be considered at all. */
  predicate Valid(req: CreateRequest) {
    && req.name != "" && req.capabilitiesOk
    && (Get(req.params, "encrypt-type") == "" || Get(req.params, "kbs-key-id") != "")
  }

  /** Filling in the placement leaves every other parameter alone. */
  lemma PlacementOnly(params: Params, req: Option<Requirement>, key: string)
    requires key !in {"zone", "region", "awsAvailabilityZone"}
    ensures Get(Apply(params, req), key) == Get(params, key)
  {
  }

  /** An invalid request is refused and changes nothing. */
  lemma InvalidCreatesAreRefused(d: Deployment, s: State, req: CreateRequest, f: CreateFaults)
    requires !Valid(req)
    ensures CreateRpc(d, s, req, f).0 == s && CreateRpc(d, s, req, f).1.Err?
  {
    PlacementOnly(req.params, req.topology, "encrypt-type");
    PlacementOnly(req.params, req.topology, "kbs-key-id");
  }

  /**
   A valid request for a recorded volume never reaches the cloud. It is answered from the record exactly
   if that states no size or the requested one, a gibibyte if none is requested.
   */
  lemma RecordedCreateAnswersIff(d: Deployment, s: State, req: CreateRequest, f: CreateFaults, rec: Store.VolumeRecord)
    requires Valid(req) && Store.Load(s.dir, req.name) == Ok(rec)
    ensures var size := if req.requiredBytes == 0 then 0x4000_0000 else req.requiredBytes;
            var (s', r) := CreateRpc(d, s, req, f);
            && s' == s
            && (r.Ok? <==> rec.capacityBytes == 0 || rec.capacityBytes == size)
            && (r.Ok? ==> r.value.volumeID == req.name && r.value.capacityBytes == rec.capacityBytes)
  {
    PlacementOnly(req.params, req.topology, "encrypt-type");
    PlacementOnly(req.params, req.topology, "kbs-key-id");
  }

  /** A valid request for an unrecorded volume succeeds exactly if a provider can be made and its create does. */
  lemma UnrecordedCreateSucceedsIff(d: Deployment, s: State, req: CreateRequest, f: CreateFaults)
    requires Valid(req) && Store.Load(s.dir, req.name).Err?
    ensures var size: int64 := if req.requiredBytes == 0 then 0x4000_0000 else req.requiredBytes;
            var made := NewProvider(d, Apply(req.params, req.topology), f.sessionOk);
            CreateRpc(d, s, req, f).1.Ok? <==> made.Ok? && Prov.Create(made.value, s.cloud, req.name, size, f.calls).1.Ok?
  {
    PlacementOnly(req.params, req.topology, "encrypt-type");
    PlacementOnly(req.params, req.topology, "kbs-key-id");
  }

  /** A create that fails leaves the store as it was. */
  lemma FailedCreateKeepsTheStore(d: Deployment, s: State, req: CreateRequest, f: CreateFaults)
    requires CreateRpc(d, s, req, f).1.Err?
    ensures CreateRpc(d, s, req, f).0.dir == s.dir
  {
  }

  /** A record without a provider among its parameters is answered with the provider it names. */
  lemma CachedContextNamesTheProvider(rec: Store.VolumeRecord, name: string)
    ensures CachedResponse(rec, name).context ==
              if "cloudProvider" in rec.params then rec.params else rec.params["cloudProvider" := rec.provider]
    ensures CachedResponse(rec, name).topology == Accessible(rec.params)
  {
  }

  // ---- Loading and recovery ----

  /** A readable local record is used as it is; otherwise the first error stands unless recovery helps. */
  lemma LoadPrefersTheLocalRecord(d: Deployment, dir: Store.Dir, id: string, external: Option<Params>, f: RecoverCalls)
    ensures Store.Load(dir, id).Ok? ==> LoadVolumeRecord(d, dir, id, external, f) == (dir, Store.Load(dir, id))
    ensures Store.Load(dir, id).Err? && LoadVolumeRecord(d, dir, id, external, f).1.Err? ==>
              LoadVolumeRecord(d, dir, id, external, f).1 == Store.Load(dir, id)
  {
  }

  /** A recovery without parameters naming a provider, or that cannot connect or list, leaves the store alone. */
  lemma SkippedRecoveryKeepsTheStore(d: Deployment, dir: Store.Dir, params: Option<Params>, f: RecoverCalls)
    requires || params.None? || Get(params.value, "cloudProvider") == ""
             || NewProvider(d, params.value, f.sessionOk).Err? || Pagination.ListAll(f.pages).Err?
    ensures Recover(d, dir, params, f) == dir
  {
  }

  /** Recovery touches no file that exists. */
  lemma RecoveryKeepsRecords(d: Deployment, s: State, params: Option<Params>, f: RecoverCalls, name: string)
    requires Inv(s) && TruthfulPages(s.cloud, f.pages) && name in s.dir && name != Store.MANIFEST
    ensures var dir := Recover(d, s.dir, params, f);
            name in dir && dir[name] == s.dir[name]
  {
    if params.Some? && NewProvider(d, params.value, f.sessionOk).Ok? && Pagination.ListAll(f.pages).Ok? {
      var p := NewProvider(d, params.value, f.sessionOk).value;
      var infos := Prov.RecoverAll(p, Pagination.ListAll(f.pages).value);
      forall i | 0 <= i < |infos| ensures PlainName(infos[i].volumeID) {
        Laws.RecoveredIsBacked(p, s.cloud, Pagination.ListAll(f.pages).value, infos[i]);
        assert Laws.OwnedBy(s.cloud.disks[infos[i].path], infos[i].volumeID);
      }
      StoreLaws.RecoveryOnlyAddsAndIsIdempotent(s.dir, infos, params.value, f.writes);
    }
  }

  // ---- DeleteVolume ----

  /**
   After a delete of a recorded volume the record is gone exactly if the delete succeeded and the
   removal of its file took effect; otherwise it loads as before. In particular a refused delete, of a
   disk still attached say, keeps the record.
   */
  lemma DeleteRemovesTheRecordIff(d: Deployment, s: State, id: string, secrets: Params, f: DeleteFaults, rec: Store.VolumeRecord)
    requires PlainName(id) && Store.Load(s.dir, id) == Ok(rec)
    ensures var (s', r) := DeleteRpc(d, s, id, secrets, f);
            Store.Load(s'.dir, id) == if r.Ok? && f.forget.file then Err(Store.NotExist) else Ok(rec)
  {
    if id != "" {
      Own.DeleteRpcWithRecord(d, s, id, secrets, f, rec);
      if f.forget.file {
        Own.DeletedIsNotLoaded(s.dir, id, f.forget);
      } else {
        StoreLaws.RefreshKeepsFile(s.dir, Store.FileName(id));
      }
    }
  }

  lemma DeleteWithoutID(d: Deployment, s: State, secrets: Params, f: DeleteFaults)
    ensures DeleteRpc(d, s, "", secrets, f).0 == s && DeleteRpc(d, s, "", secrets, f).1.Err?
  {
  }

  /** A delete leaves the store, after any recovery, without its record if it succeeds, and as it was if not. */
  lemma DeleteLeavesTheStore(d: Deployment, s: State, id: string, secrets: Params, f: DeleteFaults)
    requires id != ""
    ensures var dir := LoadVolumeRecord(d, s.dir, id, f.external, f.recover).0;
            var (s', r) := DeleteRpc(d, s, id, secrets, f);
            s'.dir == if r.Ok? then Store.Delete(dir, id, f.forget) else dir
  {
    var (dir, loaded) := LoadVolumeRecord(d, s.dir, id, f.external, f.recover);
    var params := if loaded.Ok? then Some(DeleteParams(loaded.value)) else ResolveParams(dir, secrets, f.external);
    if params.Some? {
      DeleteWithLeavesTheStore(d, s.(dir := dir), id, params.value, f);
    }
  }

  lemma DeleteWithLeavesTheStore(d: Deployment, s: State, id: string, params: Params, f: DeleteFaults)
    ensures var (s', r) := DeleteWith(d, s, id, params, f);
            s'.dir == if r.Ok? then Store.Delete(s.dir, id, f.forget) else s.dir
  {
  }

  /** No other volume's record is touched by a delete. */
  lemma DeleteKeepsOtherRecords(d: Deployment, s: State, id: string, secrets: Params, f: DeleteFaults, other: string)
    requires Inv(s) && Honest(d, s, DeleteOp(id, secrets, f))
    requires other != id && PlainName(other) && Store.Load(s.dir, other).Ok?
    ensures Store.Load(DeleteRpc(d, s, id, secrets, f).0.dir, other) == Store.Load(s.dir, other)
  {
    LoadKeepsOtherRecords(d, s, id, f.external, f.recover, other);
    FileNamesIdentify(id, other);
    if id != "" {
      DeleteLeavesTheStore(d, s, id, secrets, f);
      DeletedKeepsOthers(LoadVolumeRecord(d, s.dir, id, f.external, f.recover).0, id, f.forget, other);
    }
  }

  lemma LoadKeepsOtherRecords(d: Deployment, s: State, id: string, external: Option<Params>, f: RecoverCalls, other: string)
    requires Inv(s) && TruthfulPages(s.cloud, f.pages) && PlainName(other) && Store.Load(s.dir, other).Ok?
    ensures Store.Load(LoadVolumeRecord(d, s.dir, id, external, f).0, other) == Store.Load(s.dir, other)
  {
    if Store.BootstrapParams(s.dir, s.dir, external).Some? {
      RecoveryKeepsRecords(d, s, Store.BootstrapParams(s.dir, s.dir, external), f, Store.FileName(other));
    }
  }

  lemma DeletedKeepsOthers(dir: Store.Dir, id: string, w: Store.Writes, other: string)
    requires PlainName(other) && Store.FileName(other) != Store.FileName(id)
    ensures Store.Load(Store.Delete(dir, id, w), other) == Store.Load(dir, other)
  {
    StoreLaws.RefreshKeepsFile(if w.file then dir - {Store.FileName(id)} else dir, Store.FileName(other));
  }

  /**
   Which parameters a delete uses: a record's own with its path as native ID; without a record, the
   request's secrets if they name a provider, the bootstrap parameters otherwise; without any of these it
   is refused.
   */
  lemma DeleteParameters(d: Deployment, s: State, id: string, secrets: Params, f: DeleteFaults)
    requires id != ""
    ensures var (dir, loaded) := LoadVolumeRecord(d, s.dir, id, f.external, f.recover);
            var boot := Store.BootstrapParams(dir, dir, f.external);
            var now := s.(dir := dir);
            DeleteRpc(d, s, id, secrets, f) ==
              if loaded.Ok? then
                DeleteWith(d, now, id,
                           if loaded.value.path == "" then loaded.value.params
                           else loaded.value.params["cloud-volume-path" := loaded.value.path], f)
              else if Get(secrets, "cloudProvider") != "" then DeleteWith(d, now, id, secrets, f)
              else if boot.Some? then DeleteWith(d, now, id, boot.value, f)
              else (now, Err(NoParams))
  {
  }

  /** A delete under given parameters succeeds exactly if a provider can be made and its delete does. */
  lemma DeleteSucceedsIff(d: Deployment, s: State, id: string, params: Params, f: DeleteFaults)
    ensures var made := NewProvider(d, params, f.sessionOk);
            && (DeleteWith(d, s, id, params, f).1.Ok? <==>
                  made.Ok? && Prov.Delete(made.value, s.cloud, id, f.get, f.pages, f.del).1.Ok?)
            && (DeleteWith(d, s, id, params, f).1.Err? ==> DeleteWith(d, s, id, params, f).0.dir == s.dir)
  {
  }

  // ---- ControllerExpandVolume ----

  lemma ExpandNeedsIDAndSize(d: Deployment, s: State, id: string, required: int64, f: ExpandFaults)
    requires id == "" || required == 0
    ensures ExpandRpc(d, s, id, required, f).0 == s && ExpandRpc(d, s, id, required, f).1.Err?
  {
  }

  /**
   An expansion of a recorded volume: a record that promises enough answers at once, with its own size.
   Otherwise it succeeds exactly if a provider can be made, its expansion does, and both writes take
   effect. The record changes exactly if the file was written after a successful expansion, and then
   only in its size, which becomes the request.
   */
  lemma RecordedExpandIff(d: Deployment, s: State, id: string, required: int64, f: ExpandFaults, rec: Store.VolumeRecord)
    requires PlainName(id) && id != "" && required != 0 && Store.Load(s.dir, id) == Ok(rec) && rec.volumeID == id
    ensures var made := NewProvider(d, rec.params, f.sessionOk);
            var (s', r) := ExpandRpc(d, s, id, required, f);
            if rec.capacityBytes >= required then s' == s && r == Ok(rec.capacityBytes)
            else
              var expanded := made.Ok? && Prov.Expand(made.value, s.cloud, id, required, f.get, f.pages, f.update).1.Ok?;
              && (r.Ok? <==> expanded && f.save.file && f.save.manifest)
              && (r.Ok? ==> r.value == required)
              && Store.Load(s'.dir, id) == Ok(if expanded && f.save.file then rec.(capacityBytes := required) else rec)
  {
    if rec.capacityBytes < required && f.save.file {
      Retry.SavedIsLoaded(s.dir, rec.(capacityBytes := required), f.save);
    }
  }

  /** An expansion of a volume no record can be found for is refused, and the cloud stays as it is. */
  lemma UnknownExpandIsRefused(d: Deployment, s: State, id: string, required: int64, f: ExpandFaults)
    requires LoadVolumeRecord(d, s.dir, id, f.external, f.recover).1.Err?
    ensures ExpandRpc(d, s, id, required, f).0.cloud == s.cloud && ExpandRpc(d, s, id, required, f).1.Err?
  {
  }
}
