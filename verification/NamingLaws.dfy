/**
 When a record names its volume's only disk. Controller operations keep that; staging on a node keeps it
 exactly unless it provisions a disk for a recorded name, which takes a recorded disk that is gone.
 */
module NamingLaws {
  import opened Basics
  import opened Decimal
  import opened IbmConfig
  import opened IbmSdk
  import opened ProviderApi
  import opened Topology
  import opened Controller
  import opened ControllerLaws
  import opened Staging
  import Prov = IbmProvider
  import Laws = IbmProviderLaws
  import Node = NodeServer
  import Store = VolumeStore

  /** No disk but the one the record names is owned under the record's ID. */
  ghost predicate NamesItsDisk(c: Cloud, rec: Store.VolumeRecord) {
    forall id :: id in c.disks && Laws.OwnedBy(c.disks[id], rec.volumeID) ==> id == rec.path
  }

  ghost function NamesDisk(c: Cloud): Store.VolumeRecord -> bool {
    rec => NamesItsDisk(c, rec)
  }

  ghost predicate Named(s: State) {
    EveryRecord(s.dir, NamesDisk(s.cloud))
  }

  /** A name gets a disk it did not own before only while the store has no record of it. */
  ghost predicate NewOwnersUnrecorded(c: Cloud, c': Cloud, dir: Store.Dir) {
    forall id, name :: id in c'.disks && Laws.OwnedBy(c'.disks[id], name) ==>
      (id in c.disks && Laws.OwnedBy(c.disks[id], name)) || Store.Load(dir, name).Err?
  }

  lemma NamesCarryOver(c: Cloud, c': Cloud, dir: Store.Dir)
    requires EveryRecord(dir, NamesDisk(c)) && NewOwnersUnrecorded(c, c', dir)
    ensures EveryRecord(dir, NamesDisk(c'))
  {
    forall n | n in dir && Store.IsRecordName(n) && Store.AsRecord(dir[n]).Some?
      ensures NamesItsDisk(c', Store.AsRecord(dir[n]).value)
    {
      var rec := Store.AsRecord(dir[n]).value;
      assert NamesDisk(c)(rec) && Store.Load(dir, rec.volumeID) == Ok(rec);
    }
  }

  /** A disk that backs an answer is its name's only one. */
  lemma BackedIsNamed(p: Provider, c: Cloud, name: string, info: VolumeInfo, rec: Store.VolumeRecord)
    requires Laws.OneDiskPerName(c) && Laws.Backs(p, c, name, info)
    requires rec.volumeID == name && rec.path == info.path
    ensures NamesItsDisk(c, rec)
  {
    assert Laws.OwnedBy(c.disks[info.path], name);
  }

  // ---- Operations that keep names ----

  lemma CreateKeepsNames(d: Deployment, s: State, req: CreateRequest, f: CreateFaults)
    requires Inv(s) && Named(s) && Honest(d, s, CreateOp(req, f)) && Store.Load(s.dir, req.name).Err?
    ensures Named(CreateInCloud(d, s, req, f).0)
  {
    var params := Apply(req.params, req.topology);
    CreateInCloudKeepsInv(d, s, req, f);
    if NewProvider(d, params, f.sessionOk).Ok? {
      var p := NewProvider(d, params, f.sessionOk).value;
      ProviderIsAccepted(d, params, f.sessionOk);
      var (cloud, created) := Prov.Create(p, s.cloud, req.name, RequestedCapacity(req), f.calls);
      Laws.CreateFacts(p, s.cloud, req.name, RequestedCapacity(req), f.calls);
      AddingIsUnrecorded(p, s.cloud, cloud, s.dir, req.name);
      NamesCarryOver(s.cloud, cloud, s.dir);
      if created.Ok? {
        BackedIsNamed(p, cloud, req.name, created.value, NewRecord(req, created.value));
        SaveKeepsEvery(s.dir, NamesDisk(cloud), NewRecord(req, created.value), f.save);
      }
    }
  }

  lemma AddingIsUnrecorded(p: Provider, c: Cloud, c': Cloud, dir: Store.Dir, name: string)
    requires !AnyReserved(p.config.extraTags) && Laws.AddsAtMostOne(p, c, c', name) && Store.Load(dir, name).Err?
    ensures NewOwnersUnrecorded(c, c', dir)
  {
    forall id, other | id in c'.disks && Laws.OwnedBy(c'.disks[id], other)
      ensures (id in c.disks && Laws.OwnedBy(c.disks[id], other)) || other == name
    {
      OnlyNameGainsDisk(p, c, c', name, id, other);
    }
  }

  lemma RecoverKeepsNames(d: Deployment, s: State, params: Option<Params>, f: RecoverCalls)
    requires Inv(s) && Named(s) && TruthfulPages(s.cloud, f.pages)
    ensures Named(s.(dir := Recover(d, s.dir, params, f)))
  {
    forall p: Provider, info: VolumeInfo, ps: Params | PlainName(info.volumeID) && Laws.Backs(p, s.cloud, info.volumeID, info)
      ensures NamesDisk(s.cloud)(Store.RecoveredRecord(info, ps))
    {
      BackedIsNamed(p, s.cloud, info.volumeID, info, Store.RecoveredRecord(info, ps));
    }
    RecoverKeepsEvery(d, s, NamesDisk(s.cloud), params, f);
  }

  lemma LoadKeepsNames(d: Deployment, s: State, id: string, external: Option<Params>, f: RecoverCalls)
    requires Inv(s) && Named(s) && PlainName(id) && TruthfulPages(s.cloud, f.pages)
    ensures var (dir, r) := LoadVolumeRecord(d, s.dir, id, external, f);
            && Named(s.(dir := dir))
            && (r.Ok? ==> NamesItsDisk(s.cloud, r.value))
  {
    LoadIsOk(d, s, id, external, f);
    if Store.Load(s.dir, id).Err? && Store.BootstrapParams(s.dir, s.dir, external).Some? {
      RecoverKeepsNames(d, s, Store.BootstrapParams(s.dir, s.dir, external), f);
    }
    var (dir, r) := LoadVolumeRecord(d, s.dir, id, external, f);
    if r.Ok? {
      LoadedIsNamed(s.cloud, dir, id);
    }
  }

  lemma LoadedIsNamed(c: Cloud, dir: Store.Dir, id: string)
    requires EveryRecord(dir, NamesDisk(c)) && PlainName(id) && Store.Load(dir, id).Ok?
    ensures NamesItsDisk(c, Store.Load(dir, id).value)
  {
    var n := Store.FileName(id);
    assert n[|n| - 5..] == ".json";
    assert Store.IsRecordName(n);
    assert NamesDisk(c)(Store.AsRecord(dir[n]).value);
  }

  lemma DeleteKeepsNames(d: Deployment, s: State, id: string, secrets: Params, f: DeleteFaults)
    requires Inv(s) && Named(s) && Honest(d, s, DeleteOp(id, secrets, f))
    ensures Named(DeleteRpc(d, s, id, secrets, f).0)
  {
    LoadKeepsNames(d, s, id, f.external, f.recover);
    var (dir, loaded) := LoadVolumeRecord(d, s.dir, id, f.external, f.recover);
    var params := if loaded.Ok? then Some(DeleteParams(loaded.value)) else ResolveParams(dir, secrets, f.external);
    if params.Some? && NewProvider(d, params.value, f.sessionOk).Ok? {
      var p := NewProvider(d, params.value, f.sessionOk).value;
      var cloud := Prov.Delete(p, s.cloud, id, f.get, f.pages, f.del).0;
      Laws.DeleteFacts(p, s.cloud, id, f.get, f.pages, f.del);
      NamesCarryOver(s.cloud, cloud, dir);
      DeleteKeepsEvery(dir, NamesDisk(cloud), id, f.forget);
    }
  }

  lemma ExpandRecordKeepsNames(d: Deployment, s: State, rec: Store.VolumeRecord, required: int64, f: ExpandFaults)
    requires ValidCloud(s.cloud) && Named(s) && NamesItsDisk(s.cloud, rec) && PlainName(rec.volumeID)
    requires TruthfulPages(s.cloud, f.pages)
    ensures Named(ExpandRecord(d, s, rec, rec.volumeID, required, f).0)
  {
    if NewProvider(d, rec.params, f.sessionOk).Ok? {
      var p := NewProvider(d, rec.params, f.sessionOk).value;
      var cloud := Prov.Expand(p, s.cloud, rec.volumeID, required, f.get, f.pages, f.update).0;
      Laws.ExpandFacts(p, s.cloud, rec.volumeID, required, f.get, f.pages, f.update);
      NamesCarryOver(s.cloud, cloud, s.dir);
      SaveKeepsEvery(s.dir, NamesDisk(cloud), rec.(capacityBytes := required), f.save);
    }
  }

  lemma ExpandKeepsNames(d: Deployment, s: State, id: string, required: int64, f: ExpandFaults)
    requires Inv(s) && Named(s) && Honest(d, s, ExpandOp(id, required, f))
    ensures Named(ExpandRpc(d, s, id, required, f).0)
  {
    LoadIsOk(d, s, id, f.external, f.recover);
    LoadKeepsNames(d, s, id, f.external, f.recover);
    var (dir, loaded) := LoadVolumeRecord(d, s.dir, id, f.external, f.recover);
    if loaded.Ok? {
      ExpandRecordKeepsNames(d, s.(dir := dir), loaded.value, required, f);
    }
  }

  // ---- Staging ----

  /** Whether staging provisions a disk: no lookup finds one and the cloud makes one. */
  ghost predicate StageProvisions(d: Deployment, c: Cloud, id: string, context: Params, f: StageFaults) {
    var made := NewProvider(d, context, f.sessionOk);
    made.Ok? && Laws.Provisions(made.value, c, id, Node.StageSize(context), f.calls)
  }

  /** Staging keeps every record naming its disk exactly unless it provisions one for a recorded name. */
  lemma StageKeepsNamesIff(d: Deployment, s: State, id: string, context: Params, f: StageFaults)
    requires Inv(s) && Named(s) && Honest(d, s, StageOp(id, context, f))
    ensures Named(s.(cloud := StageOnIbm(d, s.cloud, id, context, f).0)) <==>
              !(StageProvisions(d, s.cloud, id, context, f) && Store.Load(s.dir, id).Ok?)
  {
    if NewProvider(d, context, f.sessionOk).Ok? {
      var p := NewProvider(d, context, f.sessionOk).value;
      var cloud := StageOnIbm(d, s.cloud, id, context, f).0;
      ProviderIsAccepted(d, context, f.sessionOk);
      Laws.CreateFacts(p, s.cloud, id, Node.StageSize(context), f.calls);
      if Store.Load(s.dir, id).Err? {
        AddingIsUnrecorded(p, s.cloud, cloud, s.dir, id);
        NamesCarryOver(s.cloud, cloud, s.dir);
      } else if StageProvisions(d, s.cloud, id, context, f) {
        SecondDiskIsUnnamed(p, s, id, Node.StageSize(context), f.calls);
      } else {
        Laws.ChangesMeanProvisioning(p, s.cloud, id, Node.StageSize(context), f.calls);
      }
    }
  }

  lemma SecondDiskIsUnnamed(p: Provider, s: State, id: string, size: int64, calls: Prov.CreateCalls)
    requires Inv(s) && PlainName(id) && Store.Load(s.dir, id).Ok? && Accepted(p.config)
    requires Laws.Provisions(p, s.cloud, id, size, calls)
    ensures !Named(s.(cloud := Prov.Create(p, s.cloud, id, size, calls).0))
  {
    var cloud := Prov.Create(p, s.cloud, id, size, calls).0;
    var rec := Store.Load(s.dir, id).value;
    LoadedIsOk(s.cloud, s.dir, id);
    Laws.ProvisioningChanges(p, s.cloud, id, size, calls);
    Laws.NewDiskOwner(p, id, id);
    assert Laws.OwnedBy(cloud.disks[calls.create.id], id) && calls.create.id !in s.cloud.used;
    if Named(s.(cloud := cloud)) {
      LoadedIsNamed(cloud, s.dir, id);
    }
  }

  /** While the recorded disk is there, staging its volume provisions nothing. */
  lemma StagingWithItsDiskProvisionsNothing(d: Deployment, s: State, id: string, context: Params, f: StageFaults)
    requires Inv(s) && Honest(d, s, StageOp(id, context, f))
    requires Store.Load(s.dir, id).Ok? && Store.Load(s.dir, id).value.path in s.cloud.disks
    ensures StageOnIbm(d, s.cloud, id, context, f).0 == s.cloud
  {
    LoadedIsOk(s.cloud, s.dir, id);
    var disk := s.cloud.disks[Store.Load(s.dir, id).value.path];
    assert Laws.OwnedBy(disk, id) && Laws.HasDiskFor(s.cloud, id);
    if NewProvider(d, context, f.sessionOk).Ok? {
      var p := NewProvider(d, context, f.sessionOk).value;
      Laws.ChangesMeanProvisioning(p, s.cloud, id, Node.StageSize(context), f.calls);
    }
  }

  // ---- Whole runs ----

  /** No volume is staged whose recorded disk is gone. */
  ghost predicate StagedWithDisk(s: State, op: Op) {
    op.StageOp? && Store.Load(s.dir, op.staged).Ok? ==> Store.Load(s.dir, op.staged).value.path in s.cloud.disks
  }

  lemma StepKeepsNames(d: Deployment, s: State, op: Op)
    requires Inv(s) && Named(s) && Honest(d, s, op) && StagedWithDisk(s, op)
    ensures Named(Step(d, s, op))
  {
    match op
    case CreateOp(req, f) => if Store.Load(s.dir, req.name).Err? { CreateKeepsNames(d, s, req, f); }
    case DeleteOp(id, secrets, f) => DeleteKeepsNames(d, s, id, secrets, f);
    case ExpandOp(id, required, f) => ExpandKeepsNames(d, s, id, required, f);
    case StageOp(id, context, f) =>
      if Store.Load(s.dir, id).Ok? {
        StagingWithItsDiskProvisionsNothing(d, s, id, context, f);
      } else {
        StageKeepsNamesIff(d, s, id, context, f);
      }
    case RecoverOp(params, f) => RecoverKeepsNames(d, s, params, f);
    case OthersOp(cloud) => OthersKeepNames(s, cloud);
  }

  lemma OthersKeepNames(s: State, cloud: Cloud)
    requires Named(s) && OthersMay(s.cloud, cloud)
    ensures Named(s.(cloud := cloud))
  {
    forall id, name | id in cloud.disks && Laws.OwnedBy(cloud.disks[id], name)
      ensures id in s.cloud.disks && Laws.OwnedBy(s.cloud.disks[id], name)
    {
      assert Tagged(cloud.disks[id]);
    }
    NamesCarryOver(s.cloud, cloud, s.dir);
  }

  /**
   Over every run from a fresh installation in which no volume is staged after its recorded disk is
   gone, each record names the only disk of its volume.
   */
  lemma {:induction false} RecordsNameTheirDisks(d: Deployment, s: State, ops: seq<Op>)
    requires Initial(s) && HonestRun(d, s, ops)
    requires forall i :: 0 <= i < |ops| ==> StagedWithDisk(Run(d, s, ops[..i]), ops[i])
    ensures Named(Run(d, s, ops))
  {
    if ops != [] {
      var init := ops[..|ops| - 1];
      forall i | 0 <= i < |init|
        ensures Honest(d, Run(d, s, init[..i]), init[i]) && StagedWithDisk(Run(d, s, init[..i]), init[i])
      {
        assert init[..i] == ops[..i];
      }
      RecordsNameTheirDisks(d, s, init);
      InitialInv(s);
      RunKeepsInv(d, s, init);
      StepKeepsNames(d, Run(d, s, init), ops[|ops| - 1]);
    }
  }
}
