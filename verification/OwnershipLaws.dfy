/**
 Disks that are not this driver's: no run of the controller changes or removes them. And the disk a
 delete removes when the recorded native ID answers.
 */
module OwnershipLaws {
  import opened Basics
  import opened IbmConfig
  import opened IbmSdk
  import opened Controller
  import opened ControllerLaws
  import opened Staging
  import Prov = IbmProvider
  import Laws = IbmProviderLaws
  import Store = VolumeStore
  import StoreLaws = VolumeStoreLaws
  import Decimal
  import Topology
  import Node = NodeServer

  /** No name's ownership tag together with a marker of any configuration of this installation. */
  ghost predicate Foreign(d: Deployment, disk: Volume) {
    forall name, cfg :: !Laws.Claimed(Provider(cfg, d.digest), disk, name)
  }

  /** The listings an operation reads describe real disks; they may be incomplete or fail. */
  ghost predicate TruthfulOp(c: Cloud, op: Op) {
    match op
    case CreateOp(_, f) => TruthfulPages(c, f.calls.pages)
    case DeleteOp(_, _, f) => TruthfulPages(c, f.pages)
    case ExpandOp(_, _, f) => TruthfulPages(c, f.pages)
    case StageOp(_, _, f) => TruthfulPages(c, f.calls.pages)
    case RecoverOp(_, _) => true
    case OthersOp(_) => false
  }

  ghost predicate TruthfulRun(d: Deployment, s: State, ops: seq<Op>) {
    forall i :: 0 <= i < |ops| ==> TruthfulOp(Run(d, s, ops[..i]).cloud, ops[i])
  }

  /** c' is valid and keeps every disk that p has no claim on under any name. */
  ghost predicate Spares(p: Provider, c: Cloud, c': Cloud) {
    && ValidCloud(c')
    && forall id :: id in c.disks && (forall name :: !Laws.Claimed(p, c.disks[id], name)) ==>
         id in c'.disks && c'.disks[id] == c.disks[id]
  }

  lemma CreateSpares(p: Provider, c: Cloud, name: string, size: Decimal.int64, f: Prov.CreateCalls)
    requires ValidCloud(c) && TruthfulPages(c, f.pages)
    ensures Spares(p, c, Prov.Create(p, c, name, size, f).0)
  {
    Laws.CreateFacts(p, c, name, size, f);
  }

  lemma DeleteSpares(p: Provider, c: Cloud, name: string, get: GetOutcome, pages: Prov.DiskPages, o: ChangeOutcome)
    requires ValidCloud(c) && TruthfulPages(c, pages)
    ensures Spares(p, c, Prov.Delete(p, c, name, get, pages, o).0)
  {
    Laws.DeleteFacts(p, c, name, get, pages, o);
  }

  lemma ExpandSpares(p: Provider, c: Cloud, name: string, size: Decimal.int64, get: GetOutcome, pages: Prov.DiskPages, o: UpdateOutcome)
    requires ValidCloud(c) && TruthfulPages(c, pages)
    ensures Spares(p, c, Prov.Expand(p, c, name, size, get, pages, o).0)
  {
    Laws.ExpandFacts(p, c, name, size, get, pages, o);
  }

  /** Some provider of this installation explains the change of cloud. */
  ghost predicate SparedBySome(d: Deployment, c: Cloud, c': Cloud) {
    exists cfg :: Spares(Provider(cfg, d.digest), c, c')
  }

  lemma SparedBy(d: Deployment, params: Params, sessionOk: bool, c: Cloud, c': Cloud)
    requires NewProvider(d, params, sessionOk).Ok? && Spares(NewProvider(d, params, sessionOk).value, c, c')
    ensures SparedBySome(d, c, c')
  {
    var p := NewProvider(d, params, sessionOk).value;
    assert p == Provider(p.config, d.digest);
    assert Spares(Provider(p.config, d.digest), c, c');
  }

  lemma Unchanged(d: Deployment, c: Cloud)
    requires ValidCloud(c)
    ensures SparedBySome(d, c, c)
  {
    var none := Config("", "", "", "", "", "", "", "", [], "", 0, "");
    assert Spares(Provider(none, d.digest), c, c);
  }

  lemma ProviderCreateSpares(d: Deployment, params: Params, sessionOk: bool, c: Cloud, name: string, size: Decimal.int64, f: Prov.CreateCalls)
    requires ValidCloud(c) && TruthfulPages(c, f.pages) && NewProvider(d, params, sessionOk).Ok?
    ensures SparedBySome(d, c, Prov.Create(NewProvider(d, params, sessionOk).value, c, name, size, f).0)
  {
    var p := NewProvider(d, params, sessionOk).value;
    CreateSpares(p, c, name, size, f);
    SparedBy(d, params, sessionOk, c, Prov.Create(p, c, name, size, f).0);
  }

  lemma CreateInCloudSpares(d: Deployment, s: State, req: CreateRequest, f: CreateFaults)
    requires ValidCloud(s.cloud) && TruthfulPages(s.cloud, f.calls.pages)
    ensures SparedBySome(d, s.cloud, CreateInCloud(d, s, req, f).0.cloud)
  {
    Unchanged(d, s.cloud);
    var params := Topology.Apply(req.params, req.topology);
    if NewProvider(d, params, f.sessionOk).Ok? {
      ProviderCreateSpares(d, params, f.sessionOk, s.cloud, req.name, RequestedCapacity(req), f.calls);
    }
  }

  lemma CreateRpcSpares(d: Deployment, s: State, req: CreateRequest, f: CreateFaults)
    requires ValidCloud(s.cloud) && TruthfulPages(s.cloud, f.calls.pages)
    ensures SparedBySome(d, s.cloud, CreateRpc(d, s, req, f).0.cloud)
  {
    Unchanged(d, s.cloud);
    CreateInCloudSpares(d, s, req, f);
  }

  lemma DeleteWithSpares(d: Deployment, s: State, id: string, params: Params, f: DeleteFaults)
    requires ValidCloud(s.cloud) && TruthfulPages(s.cloud, f.pages)
    ensures SparedBySome(d, s.cloud, DeleteWith(d, s, id, params, f).0.cloud)
  {
    Unchanged(d, s.cloud);
    var made := NewProvider(d, params, f.sessionOk);
    if made.Ok? {
      DeleteSpares(made.value, s.cloud, id, f.get, f.pages, f.del);
      SparedBy(d, params, f.sessionOk, s.cloud, Prov.Delete(made.value, s.cloud, id, f.get, f.pages, f.del).0);
    }
  }

  lemma DeleteRpcSpares(d: Deployment, s: State, id: string, secrets: Params, f: DeleteFaults)
    requires ValidCloud(s.cloud) && TruthfulPages(s.cloud, f.pages)
    ensures SparedBySome(d, s.cloud, DeleteRpc(d, s, id, secrets, f).0.cloud)
  {
    Unchanged(d, s.cloud);
    var (dir, loaded) := LoadVolumeRecord(d, s.dir, id, f.external, f.recover);
    var params := if loaded.Ok? then Some(DeleteParams(loaded.value)) else ResolveParams(dir, secrets, f.external);
    if params.Some? {
      DeleteWithSpares(d, s.(dir := dir), id, params.value, f);
    }
  }

  lemma ExpandRecordSpares(d: Deployment, s: State, rec: Store.VolumeRecord, id: string, required: Decimal.int64, f: ExpandFaults)
    requires ValidCloud(s.cloud) && TruthfulPages(s.cloud, f.pages)
    ensures SparedBySome(d, s.cloud, ExpandRecord(d, s, rec, id, required, f).0.cloud)
  {
    Unchanged(d, s.cloud);
    var made := NewProvider(d, rec.params, f.sessionOk);
    if made.Ok? {
      ExpandSpares(made.value, s.cloud, id, required, f.get, f.pages, f.update);
      SparedBy(d, rec.params, f.sessionOk, s.cloud, Prov.Expand(made.value, s.cloud, id, required, f.get, f.pages, f.update).0);
    }
  }

  lemma ExpandRpcSpares(d: Deployment, s: State, id: string, required: Decimal.int64, f: ExpandFaults)
    requires ValidCloud(s.cloud) && TruthfulPages(s.cloud, f.pages)
    ensures SparedBySome(d, s.cloud, ExpandRpc(d, s, id, required, f).0.cloud)
  {
    Unchanged(d, s.cloud);
    var (dir, loaded) := LoadVolumeRecord(d, s.dir, id, f.external, f.recover);
    if loaded.Ok? {
      ExpandRecordSpares(d, s.(dir := dir), loaded.value, id, required, f);
    }
  }

  lemma StageSpares(d: Deployment, c: Cloud, id: string, context: Params, f: StageFaults)
    requires ValidCloud(c) && TruthfulPages(c, f.calls.pages)
    ensures SparedBySome(d, c, StageOnIbm(d, c, id, context, f).0)
  {
    Unchanged(d, c);
    if NewProvider(d, context, f.sessionOk).Ok? {
      ProviderCreateSpares(d, context, f.sessionOk, c, id, Node.StageSize(context), f.calls);
    }
  }

  lemma StepSpares(d: Deployment, s: State, op: Op)
    requires ValidCloud(s.cloud) && TruthfulOp(s.cloud, op)
    ensures SparedBySome(d, s.cloud, Step(d, s, op).cloud)
  {
    match op
    case CreateOp(req, f) => CreateRpcSpares(d, s, req, f);
    case DeleteOp(id, secrets, f) => DeleteRpcSpares(d, s, id, secrets, f);
    case ExpandOp(id, required, f) => ExpandRpcSpares(d, s, id, required, f);
    case StageOp(id, context, f) => StageSpares(d, s.cloud, id, context, f);
    case RecoverOp(_, _) => Unchanged(d, s.cloud);
  }

  /** Over every run, with failing and incomplete lookups, foreign disks stay exactly as they were. */
  lemma {:induction false} ForeignDisksSurviveRuns(d: Deployment, s: State, ops: seq<Op>, id: string)
    requires ValidCloud(s.cloud) && TruthfulRun(d, s, ops)
    requires id in s.cloud.disks && Foreign(d, s.cloud.disks[id])
    ensures var end := Run(d, s, ops);
            ValidCloud(end.cloud) && id in end.cloud.disks && end.cloud.disks[id] == s.cloud.disks[id]
  {
    if ops != [] {
      var init := ops[..|ops| - 1];
      forall i | 0 <= i < |init| ensures TruthfulOp(Run(d, s, init[..i]).cloud, init[i]) {
        assert init[..i] == ops[..i];
      }
      ForeignDisksSurviveRuns(d, s, init, id);
      var before := Run(d, s, init);
      StepSpares(d, before, ops[|ops| - 1]);
      var cfg :| Spares(Provider(cfg, d.digest), before.cloud, Run(d, s, ops).cloud);
    }
  }

  /** The native ID parameters resolve to: `ibm-volume-id` goes before `cloud-volume-path`. */
  function NativeTarget(params: Params): string {
    FirstNonEmpty(Get(params, "ibm-volume-id"), Get(params, "cloud-volume-path"))
  }

  lemma ProviderTarget(d: Deployment, params: Params, sessionOk: bool)
    requires NewProvider(d, params, sessionOk).Ok?
    ensures NewProvider(d, params, sessionOk).value.config.volumeID == NativeTarget(params)
  {
    ParseAccepts(params);
  }

  /** The record's own parameters do not send its delete to another native ID. */
  predicate Aimed(rec: Store.VolumeRecord) {
    Get(rec.params, "ibm-volume-id") == "" || Get(rec.params, "ibm-volume-id") == rec.path
  }

  lemma DeleteTarget(rec: Store.VolumeRecord)
    requires rec.path != ""
    ensures NativeTarget(DeleteParams(rec)) == rec.path <==> Aimed(rec)
    ensures NativeTarget(DeleteParams(rec)) != ""
  {
  }

  lemma DeleteRpcWithRecord(d: Deployment, s: State, id: string, secrets: Params, f: DeleteFaults, rec: Store.VolumeRecord)
    requires Store.Load(s.dir, id) == Ok(rec) && id != ""
    ensures DeleteRpc(d, s, id, secrets, f) == DeleteWith(d, s, id, DeleteParams(rec), f)
  {
  }

  lemma DeletedIsNotLoaded(dir: Store.Dir, id: string, w: Store.Writes)
    requires PlainName(id) && w.file
    ensures Store.Load(Store.Delete(dir, id, w), id) == Err(Store.NotExist)
  {
    StoreLaws.RefreshKeepsFile(dir - {Store.FileName(id)}, Store.FileName(id));
  }

  /**
   When the native lookup answers, a delete removes the disk its parameters resolve to or nothing. A
   success means that disk is gone; the recorded one is gone exactly when it was before or the record's
   own parameters do not name another native ID. The record is gone unless its removal was lost.
   */
  lemma DeleteTakesTheRecordedDisk(d: Deployment, s: State, id: string, secrets: Params, f: DeleteFaults, rec: Store.VolumeRecord)
    requires ValidCloud(s.cloud) && TruthfulPages(s.cloud, f.pages)
    requires Store.Load(s.dir, id) == Ok(rec) && rec.path != ""
    requires PlainName(id) && id != "" && f.get.Answers?
    ensures var target := NativeTarget(DeleteParams(rec));
            var (s', r) := DeleteRpc(d, s, id, secrets, f);
            && (s'.cloud.disks == s.cloud.disks || s'.cloud.disks == s.cloud.disks - {target})
            && (r.Ok? ==> target !in s'.cloud.disks)
            && (r.Ok? ==> (rec.path !in s'.cloud.disks <==> rec.path !in s.cloud.disks || Aimed(rec)))
            && (r.Ok? && f.forget.file ==> Store.Load(s'.dir, id) == Err(Store.NotExist))
  {
    DeleteRpcWithRecord(d, s, id, secrets, f, rec);
    DeleteTarget(rec);
    if f.forget.file {
      DeletedIsNotLoaded(s.dir, id, f.forget);
    }
    var made := NewProvider(d, DeleteParams(rec), f.sessionOk);
    if made.Ok? {
      ProviderTarget(d, DeleteParams(rec), f.sessionOk);
      Laws.DeleteFacts(made.value, s.cloud, id, f.get, f.pages, f.del);
    }
  }
}
