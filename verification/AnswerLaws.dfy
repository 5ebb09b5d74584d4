/**
 What the controller's successful answers mean for the cloud and the store, and that repeating a call
 is harmless.
 */
module AnswerLaws {
  import opened Basics
  import opened Decimal
  import opened IbmConfig
  import opened IbmSdk
  import opened Controller
  import opened ControllerLaws
  import opened NamingLaws
  import Prov = IbmProvider
  import Laws = IbmProviderLaws
  import Lookups = IbmLookupLaws
  import opened Topology
  import Retry = RetryLaws
  import Own = OwnershipLaws
  import Pagination
  import Store = VolumeStore
  import StoreLaws = VolumeStoreLaws

  // ---- Delete ----

  lemma DeletingLeavesNone(c: Cloud, name: string, id: string)
    requires Laws.OneDiskPerName(c) && id in c.disks && Laws.OwnedBy(c.disks[id], name)
    ensures !Laws.HasDiskFor(c.(disks := c.disks - {id}), name)
  {
  }

  /**
   A successful provider delete leaves the name without a disk exactly unless the name has one and the
   lookup missed it: the native ID gone by is absent, or no listed disk matches the name.
   */
  lemma ProviderDeleteLeavesNoneIff(p: Provider, c: Cloud, name: string, get: GetOutcome, pages: Prov.DiskPages, o: ChangeOutcome)
    requires Laws.Orderly(c) && TruthfulPages(c, pages)
    requires Prov.Delete(p, c, name, get, pages, o).1.Ok?
    ensures !Laws.HasDiskFor(Prov.Delete(p, c, name, get, pages, o).0, name) <==>
              !(Laws.HasDiskFor(c, name) && Laws.Misses(p, c, name, get, pages))
  {
    Laws.MissesIff(p, c, name, get, pages);
    var vol := Prov.Lookup(p, c, name, get, pages);
    if vol.Ok? {
      Lookups.LookupFinds(p, c, name, get, pages);
      DeletingLeavesNone(c, name, vol.value.id);
    }
  }

  /** A provider delete succeeds without changing anything exactly when its lookup misses. */
  lemma DeleteDoesNothingIff(p: Provider, c: Cloud, name: string, get: GetOutcome, pages: Prov.DiskPages, o: ChangeOutcome)
    requires ValidCloud(c) && TruthfulPages(c, pages)
    ensures Prov.Delete(p, c, name, get, pages, o) == (c, Ok(Unit)) <==> Laws.Misses(p, c, name, get, pages)
  {
    Laws.MissesIff(p, c, name, get, pages);
    if Prov.Lookup(p, c, name, get, pages).Ok? {
      Lookups.LookupFinds(p, c, name, get, pages);
      DeletingChanges(c, Prov.Lookup(p, c, name, get, pages).value.id);
    }
  }

  /** Against a complete query, a delete by name does so exactly when no disk has the name. */
  lemma AbsentDeleteSucceedsIff(p: Provider, c: Cloud, name: string, get: GetOutcome, pages: Prov.DiskPages, o: ChangeOutcome)
    requires ValidCloud(c) && name != "" && Laws.CompleteListing(c, ByName(name), pages) && !Laws.GoesByNativeID(p, get)
    ensures Prov.Delete(p, c, name, get, pages, o) == (c, Ok(Unit)) <==>
              forall id :: id in c.disks ==> c.disks[id].name != Some(name)
  {
    DeleteDoesNothingIff(p, c, name, get, pages, o);
    Laws.MissesIff(p, c, name, get, pages);
    Lookups.CompleteLookup(c, name, pages);
  }

  lemma DeletingChanges(c: Cloud, id: string)
    ensures id in c.disks ==> c.disks - {id} != c.disks
  {
  }

  /** The parameters a delete uses: the record's with its path, or the secrets, or the bootstrap ones. */
  function ChosenParams(d: Deployment, s: State, id: string, secrets: Params, f: DeleteFaults): Option<Params> {
    var (dir, loaded) := LoadVolumeRecord(d, s.dir, id, f.external, f.recover);
    match loaded case Ok(rec) => Some(DeleteParams(rec)) case Err(_) => ResolveParams(dir, secrets, f.external)
  }

  /** Whether the delete looks its disk up by a native ID rather than by name. */
  predicate DeletesByNativeID(params: Params, f: DeleteFaults) {
    Own.NativeTarget(params) != "" && f.get.Answers?
  }

  /** The delete's lookup misses: the native ID it goes by is absent, or no listed disk matches the name. */
  ghost predicate DeleteMisses(c: Cloud, id: string, params: Params, f: DeleteFaults) {
    if DeletesByNativeID(params, f) then Own.NativeTarget(params) !in c.disks
    else Pagination.ListAll(f.pages).Ok? && Laws.NoneMatches(Pagination.ListAll(f.pages).value, id)
  }

  /**
   A successful DeleteVolume leaves no disk owned under the name exactly unless the name has one and the
   lookup missed it: through a native ID of its parameters that is gone, or a listing that leaves the
   disk out.
   */
  lemma DeleteLeavesNoDiskIff(d: Deployment, s: State, id: string, secrets: Params, f: DeleteFaults, params: Params)
    requires Inv(s) && Honest(d, s, DeleteOp(id, secrets, f))
    requires ChosenParams(d, s, id, secrets, f) == Some(params)
    requires DeleteRpc(d, s, id, secrets, f).1.Ok?
    ensures !Laws.HasDiskFor(DeleteRpc(d, s, id, secrets, f).0.cloud, id) <==>
              !(Laws.HasDiskFor(s.cloud, id) && DeleteMisses(s.cloud, id, params, f))
  {
    var (dir, loaded) := LoadVolumeRecord(d, s.dir, id, f.external, f.recover);
    var p := NewProvider(d, params, f.sessionOk).value;
    Own.ProviderTarget(d, params, f.sessionOk);
    ProviderDeleteLeavesNoneIff(p, s.cloud, id, f.get, f.pages, f.del);
    assert DeleteRpc(d, s, id, secrets, f) == DeleteWith(d, s.(dir := dir), id, params, f);
  }

  /** Whether the record's delete reaches its volume's disk, or there is none. */
  ghost predicate FindsItsDisk(c: Cloud, rec: Store.VolumeRecord, f: DeleteFaults) {
    || rec.path !in c.disks
    || if f.get.Answers? then Own.Aimed(rec)
       else !(Pagination.ListAll(f.pages).Ok? && Laws.NoneMatches(Pagination.ListAll(f.pages).value, rec.volumeID))
  }

  lemma RecordedProviderDelete(p: Provider, c: Cloud, rec: Store.VolumeRecord, f: DeleteFaults)
    requires Laws.Orderly(c) && TruthfulPages(c, f.pages) && RecordOk(c, rec) && NamesItsDisk(c, rec)
    requires rec.path != "" && rec.volumeID != "" && p.config.volumeID == Own.NativeTarget(DeleteParams(rec))
    requires Prov.Delete(p, c, rec.volumeID, f.get, f.pages, f.del).1.Ok?
    ensures !Laws.HasDiskFor(Prov.Delete(p, c, rec.volumeID, f.get, f.pages, f.del).0, rec.volumeID) <==> FindsItsDisk(c, rec, f)
  {
    Own.DeleteTarget(rec);
    if f.get.Answers? {
      var c' := Prov.Delete(p, c, rec.volumeID, f.get, f.pages, f.del).0;
      Laws.DeleteFacts(p, c, rec.volumeID, f.get, f.pages, f.del);
      assert rec.path in c.disks && !Own.Aimed(rec) ==> rec.path in c'.disks && Laws.OwnedBy(c'.disks[rec.path], rec.volumeID);
    } else {
      ProviderDeleteLeavesNoneIff(p, c, rec.volumeID, f.get, f.pages, f.del);
      assert rec.path in c.disks ==> Laws.OwnedBy(c.disks[rec.path], rec.volumeID);
    }
  }

  /**
   In terms of the record, while it names the volume's only disk: a successful DeleteVolume leaves no
   disk of the name exactly when the recorded disk was gone already, or the native lookup answers and
   the record's own `ibm-volume-id` is empty or its path, or it fails and the listing shows a disk that
   matches the name.
   */
  lemma RecordedDeleteLeavesNoDiskIff(d: Deployment, s: State, id: string, secrets: Params, f: DeleteFaults, rec: Store.VolumeRecord)
    requires Inv(s) && Named(s) && Honest(d, s, DeleteOp(id, secrets, f))
    requires LoadVolumeRecord(d, s.dir, id, f.external, f.recover).1 == Ok(rec) && rec.path != ""
    requires DeleteRpc(d, s, id, secrets, f).1.Ok?
    ensures !Laws.HasDiskFor(DeleteRpc(d, s, id, secrets, f).0.cloud, id) <==> FindsItsDisk(s.cloud, rec, f)
  {
    LoadIsOk(d, s, id, f.external, f.recover);
    LoadKeepsNames(d, s, id, f.external, f.recover);
    var p := NewProvider(d, DeleteParams(rec), f.sessionOk).value;
    Own.ProviderTarget(d, DeleteParams(rec), f.sessionOk);
    RecordedProviderDelete(p, s.cloud, rec, f);
  }

  /** A successful delete drops the record, whatever it did to the cloud, unless the removal is lost. */
  lemma DeleteDropsTheRecord(d: Deployment, s: State, id: string, secrets: Params, f: DeleteFaults)
    requires PlainName(id) && f.forget.file && DeleteRpc(d, s, id, secrets, f).1.Ok?
    ensures Store.Load(DeleteRpc(d, s, id, secrets, f).0.dir, id) == Err(Store.NotExist)
  {
    Own.DeletedIsNotLoaded(LoadVolumeRecord(d, s.dir, id, f.external, f.recover).0, id, f.forget);
  }

  /** With no disk owned under the name, no delete of it changes the cloud, whatever its lookups say. */
  lemma DeleteOfNothingChangesNothing(d: Deployment, s: State, id: string, secrets: Params, f: DeleteFaults)
    requires ValidCloud(s.cloud) && TruthfulPages(s.cloud, f.pages) && !Laws.HasDiskFor(s.cloud, id)
    ensures DeleteRpc(d, s, id, secrets, f).0.cloud == s.cloud
  {
    var (dir, loaded) := LoadVolumeRecord(d, s.dir, id, f.external, f.recover);
    var params := if loaded.Ok? then Some(DeleteParams(loaded.value)) else ResolveParams(dir, secrets, f.external);
    if params.Some? && NewProvider(d, params.value, f.sessionOk).Ok? {
      Laws.DeleteFacts(NewProvider(d, params.value, f.sessionOk).value, s.cloud, id, f.get, f.pages, f.del);
    }
  }

  lemma RecordIsLeft(d: Deployment, s: State, id: string, f: DeleteFaults, rec: Store.VolumeRecord)
    requires Store.Load(s.dir, id) == Ok(rec) && id != "" && PlainName(id) && !f.forget.file
    requires DeleteWith(d, s, id, DeleteParams(rec), f).1.Ok?
    ensures Store.Load(DeleteWith(d, s, id, DeleteParams(rec), f).0.dir, id) == Ok(rec)
    ensures f.sessionOk && NewProvider(d, DeleteParams(rec), f.sessionOk).Ok?
  {
    StoreLaws.RefreshKeepsFile(s.dir, Store.FileName(id));
  }

  lemma DeleteWithProvider(d: Deployment, s: State, id: string, params: Params, p: Provider, f: DeleteFaults)
    requires NewProvider(d, params, f.sessionOk) == Ok(p)
    ensures var (cloud, r) := Prov.Delete(p, s.cloud, id, f.get, f.pages, f.del);
            && DeleteWith(d, s, id, params, f).0.cloud == cloud
            && (DeleteWith(d, s, id, params, f).1.Ok? <==> r.Ok?)
            && (r.Ok? ==> DeleteWith(d, s, id, params, f) == (State(cloud, Store.Delete(s.dir, id, f.forget)), Ok(Unit)))
  {
  }

  lemma NativeDeleteDoesNothingIff(p: Provider, c: Cloud, name: string, get: GetOutcome, pages: Prov.DiskPages, o: ChangeOutcome)
    requires ValidCloud(c) && Laws.GoesByNativeID(p, get)
    ensures Prov.Delete(p, c, name, get, pages, o) == (c, Ok(Unit)) <==> p.config.volumeID !in c.disks
  {
    DeletingChanges(c, p.config.volumeID);
  }

  /** Nothing is left for the delete of this record: its native ID is absent, or no disk has the name. */
  ghost predicate NothingLeft(c: Cloud, rec: Store.VolumeRecord, id: string, get: GetOutcome) {
    if get.Answers? then Own.NativeTarget(DeleteParams(rec)) !in c.disks
    else forall other :: other in c.disks ==> c.disks[other].name != Some(id)
  }

  lemma ProviderDeleteOfLeftoverIff(p: Provider, c: Cloud, id: string, f: DeleteFaults, rec: Store.VolumeRecord)
    requires ValidCloud(c) && id != "" && rec.path != "" && p.config.volumeID == Own.NativeTarget(DeleteParams(rec))
    requires f.get.Unreachable? ==> Laws.CompleteListing(c, ByName(id), f.pages)
    ensures Prov.Delete(p, c, id, f.get, f.pages, f.del) == (c, Ok(Unit)) <==> NothingLeft(c, rec, id, f.get)
  {
    Own.DeleteTarget(rec);
    if f.get.Answers? {
      NativeDeleteDoesNothingIff(p, c, id, f.get, f.pages, f.del);
    } else {
      AbsentDeleteSucceedsIff(p, c, id, f.get, f.pages, f.del);
    }
  }

  /** Deleting a recorded volume succeeds without touching the cloud exactly when nothing is left of it. */
  lemma DeleteOfLeftoverIff(d: Deployment, s: State, id: string, f: DeleteFaults, rec: Store.VolumeRecord)
    requires ValidCloud(s.cloud) && id != "" && rec.path != ""
    requires NewProvider(d, DeleteParams(rec), f.sessionOk).Ok?
    requires f.get.Unreachable? ==> Laws.CompleteListing(s.cloud, ByName(id), f.pages)
    ensures DeleteWith(d, s, id, DeleteParams(rec), f) == (s.(dir := Store.Delete(s.dir, id, f.forget)), Ok(Unit))
            <==> NothingLeft(s.cloud, rec, id, f.get)
  {
    var p := NewProvider(d, DeleteParams(rec), f.sessionOk).value;
    Own.ProviderTarget(d, DeleteParams(rec), f.sessionOk);
    DeleteWithProvider(d, s, id, DeleteParams(rec), p, f);
    ProviderDeleteOfLeftoverIff(p, s.cloud, id, f, rec);
  }

  /**
   A crash between the cloud delete and the record's removal leaves the record. Repeating the delete then
   succeeds, changes nothing in the cloud and removes the record exactly when nothing is left of the
   volume: the native ID it goes by is absent, as it is after a delete that went by it, or, if that
   lookup fails, no disk has the name.
   */
  lemma DeleteRetryConvergesIff(d: Deployment, s: State, id: string, secrets: Params, f: DeleteFaults, rec: Store.VolumeRecord,
                                secrets': Params, again: DeleteFaults)
    requires Inv(s) && Honest(d, s, DeleteOp(id, secrets, f)) && Store.Load(s.dir, id) == Ok(rec) && rec.path != ""
    requires DeleteRpc(d, s, id, secrets, f).1.Ok? && !f.forget.file && again.sessionOk
    requires again.get.Unreachable? ==>
               Laws.CompleteListing(DeleteRpc(d, s, id, secrets, f).0.cloud, ByName(id), again.pages)
    ensures var left := DeleteRpc(d, s, id, secrets, f).0;
            && Store.Load(left.dir, id) == Ok(rec)
            && (DeleteRpc(d, left, id, secrets', again) == (left.(dir := Store.Delete(left.dir, id, again.forget)), Ok(Unit))
                <==> NothingLeft(left.cloud, rec, id, again.get))
            && (f.get.Answers? && again.get.Answers? ==> NothingLeft(left.cloud, rec, id, again.get))
  {
    DeleteKeepsInv(d, s, id, secrets, f);
    Own.DeleteRpcWithRecord(d, s, id, secrets, f, rec);
    RecordIsLeft(d, s, id, f, rec);
    var left := DeleteWith(d, s, id, DeleteParams(rec), f).0;
    Own.DeleteRpcWithRecord(d, left, id, secrets', again, rec);
    DeleteOfLeftoverIff(d, left, id, again, rec);
    if f.get.Answers? {
      Own.DeleteTakesTheRecordedDisk(d, s, id, secrets, f, rec);
    }
  }

  // ---- Expand ----

  lemma ExpandedIsRecorded(dir: Store.Dir, rec: Store.VolumeRecord, required: int, w: Store.Writes)
    requires PlainName(rec.volumeID) && w.file
    ensures Store.Load(Store.Save(dir, rec.(capacityBytes := required), w), rec.volumeID) == Ok(rec.(capacityBytes := required))
  {
    var grown := rec.(capacityBytes := required);
    StoreLaws.RefreshKeepsFile(dir[Store.FileName(rec.volumeID) := Store.RecordFile(grown)], Store.FileName(rec.volumeID));
  }

  /** Disks of other names are as before, and while the recorded disk exists so are all but it. */
  ghost predicate OthersKeepSize(c: Cloud, c': Cloud, rec: Store.VolumeRecord) {
    forall other :: other in c.disks && other != rec.path && (rec.path in c.disks || !Laws.OwnedBy(c.disks[other], rec.volumeID)) ==>
      other in c'.disks && c'.disks[other] == c.disks[other]
  }

  /** An expansion resizes no disk but one of the name, and none but the recorded one while that exists. */
  lemma ExpandRecordFacts(d: Deployment, s: State, rec: Store.VolumeRecord, required: int64, f: ExpandFaults)
    requires Laws.Orderly(s.cloud) && TruthfulPages(s.cloud, f.pages) && RecordOk(s.cloud, rec)
    requires PlainName(rec.volumeID) && Store.Load(s.dir, rec.volumeID) == Ok(rec)
    requires ExpandRecord(d, s, rec, rec.volumeID, required, f).1.Ok?
    ensures var (s', r) := ExpandRecord(d, s, rec, rec.volumeID, required, f);
            && r.value >= required
            && Store.Load(s'.dir, rec.volumeID) == Ok(rec.(capacityBytes := r.value))
            && OthersKeepSize(s.cloud, s'.cloud, rec)
  {
    if rec.capacityBytes < required {
      ExpandedIsRecorded(s.dir, rec, required, f.save);
      var p := NewProvider(d, rec.params, f.sessionOk).value;
      Laws.ExpandFacts(p, s.cloud, rec.volumeID, required, f.get, f.pages, f.update);
    }
  }

  /**
   A successful ControllerExpandVolume answers at least what was asked; that size is recorded and the
   recorded disk, if it exists, has it. While that exists no other disk is resized, and never one of
   another name.
   */
  lemma ExpandAnswerIsBacked(d: Deployment, s: State, id: string, required: int64, f: ExpandFaults)
    requires Inv(s) && Honest(d, s, ExpandOp(id, required, f)) && ExpandRpc(d, s, id, required, f).1.Ok?
    ensures var (s', r) := ExpandRpc(d, s, id, required, f);
            && r.value >= required
            && Store.Load(s'.dir, id).Ok?
            && var rec := Store.Load(s'.dir, id).value;
               && rec.capacityBytes == r.value
               && Covered(s'.cloud, rec)
               && OthersKeepSize(s.cloud, s'.cloud, rec)
  {
    ExpandKeepsInv(d, s, id, required, f);
    LoadIsOk(d, s, id, f.external, f.recover);
    var (dir, loaded) := LoadVolumeRecord(d, s.dir, id, f.external, f.recover);
    ExpandRecordFacts(d, s.(dir := dir), loaded.value, required, f);
    var s' := ExpandRpc(d, s, id, required, f).0;
    LoadedIsOk(s'.cloud, s'.dir, id);
  }

  /** Repeating a successful expansion, or asking for less, changes nothing and answers the same. */
  lemma ExpandRetryChangesNothing(d: Deployment, s: State, id: string, required: int64, f: ExpandFaults, smaller: int64, again: ExpandFaults)
    requires Inv(s) && Honest(d, s, ExpandOp(id, required, f)) && ExpandRpc(d, s, id, required, f).1.Ok?
    requires smaller != 0 && smaller <= required
    ensures var (s', r) := ExpandRpc(d, s, id, required, f);
            ExpandRpc(d, s', id, smaller, again) == (s', r)
  {
    ExpandAnswerIsBacked(d, s, id, required, f);
  }

  // ---- Credentials ----

  /**
   From a store without credentials, a create that is answered through the provider leaves it without
   exactly unless its record is written and the request's own parameters hold some.
   */
  lemma CreateStaysCredentialFreeIff(d: Deployment, s: State, req: CreateRequest, f: CreateFaults)
    requires PlainName(req.name) && StoreLaws.StoreCredentialFree(s.dir)
    requires Store.Load(s.dir, req.name).Err? && CreateRpc(d, s, req, f).1.Ok?
    ensures StoreLaws.StoreCredentialFree(CreateRpc(d, s, req, f).0.dir) <==>
              (f.save.file ==> Store.CredentialFree(Apply(req.params, req.topology)))
  {
    Retry.OkMeansProvider(d, s, req, f);
    Retry.CreateAnswersFromProvider(d, s, req, f);
    StoreLaws.StaysCredentialFreeIff(s.dir, StoreLaws.SaveOp(NewRecord(req, Retry.ProviderCreate(d, s, req, f).1.value), f.save));
  }
}
