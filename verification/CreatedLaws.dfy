/**
 Claimed disks stay as their creates made them over every run, if the digest tells configurations apart.
 Recovery's exact condition therefore applies to every cloud a run can reach.
 */
module CreatedLaws {
  import opened Basics
  import opened Decimal
  import opened IbmConfig
  import opened IbmSdk
  import opened Topology
  import opened Controller
  import opened ControllerLaws
  import opened RecoveryLaws
  import opened Staging
  import Prov = IbmProvider
  import Laws = IbmProviderLaws
  import Node = NodeServer
  import Store = VolumeStore

  /** The installation's digest gives different configurations different values. */
  ghost predicate Separates(d: Deployment) {
    forall a: Config, b: Config :: d.digest(a) == d.digest(b) ==> a == b
  }

  lemma SeparatedAreDistinguished(d: Deployment, p: Provider, q: Provider)
    requires Separates(d) && p.digest == d.digest && q.digest == d.digest
    ensures Distinguishes(p, q)
  {
    if p.ConfigTag() == q.ConfigTag() {
      var a, b := p.config.(extraTags := [], volumeID := ""), q.config.(extraTags := [], volumeID := "");
      PrependIsInjective(CONFIG_TAG_PREFIX, d.digest(a), d.digest(b));
      assert a == b;
    }
  }

  /** The same disk up to its size and status. */
  ghost predicate SameSettings(before: Volume, now: Volume) {
    now == before.(capacity := now.capacity, status := now.status)
  }

  /** Every tagged disk was there before, with the same settings. */
  ghost predicate KeepsSettings(c: Cloud, c': Cloud) {
    forall id :: id in c'.disks && Tagged(c'.disks[id]) ==> id in c.disks && SameSettings(c.disks[id], c'.disks[id])
  }

  lemma NothingChangedKeepsSettings(c: Cloud)
    ensures KeepsSettings(c, c)
  {
  }

  lemma SettingsKeepIntact(p: Provider, before: Volume, now: Volume, name: string)
    requires SameSettings(before, now) && Intact(p, before, name)
    ensures Intact(p, now, name)
  {
  }

  lemma KeepingStaysAsCreated(p: Provider, c: Cloud, c': Cloud)
    requires AsCreated(p, c) && KeepsSettings(c, c')
    ensures AsCreated(p, c')
  {
    forall id, name | id in c'.disks && Laws.Claimed(p, c'.disks[id], name)
      ensures Intact(p, c'.disks[id], name)
    {
      assert Laws.OwnedBy(c'.disks[id], name);
      assert Tagged(c'.disks[id]);
      assert Laws.Claimed(p, c.disks[id], name);
      SettingsKeepIntact(p, c.disks[id], c'.disks[id], name);
    }
  }

  // ---- Steps ----

  lemma ProviderStaysAsCreated(d: Deployment, params: Params, sessionOk: bool, p: Provider, c: Cloud, name: string, size: int64, f: Prov.CreateCalls)
    requires Separates(d) && p.digest == d.digest && ValidCloud(c) && TruthfulPages(c, f.pages) && AsCreated(p, c)
    requires NewProvider(d, params, sessionOk).Ok?
    ensures AsCreated(p, Prov.Create(NewProvider(d, params, sessionOk).value, c, name, size, f).0)
  {
    var q := NewProvider(d, params, sessionOk).value;
    ProviderIsAccepted(d, params, sessionOk);
    SeparatedAreDistinguished(d, p, q);
    Laws.CreateFacts(q, c, name, size, f);
    CreatesStayAsCreated(p, q, c, Prov.Create(q, c, name, size, f).0, name);
  }

  lemma CreateStaysAsCreated(d: Deployment, s: State, req: CreateRequest, f: CreateFaults, p: Provider)
    requires Separates(d) && p.digest == d.digest && AsCreated(p, s.cloud)
    requires Inv(s) && Honest(d, s, CreateOp(req, f))
    ensures AsCreated(p, CreateRpc(d, s, req, f).0.cloud)
  {
    var params := Apply(req.params, req.topology);
    if Store.Load(s.dir, req.name).Err? && NewProvider(d, params, f.sessionOk).Ok? {
      ProviderStaysAsCreated(d, params, f.sessionOk, p, s.cloud, req.name, RequestedCapacity(req), f.calls);
    }
  }

  lemma StageStaysAsCreated(d: Deployment, s: State, id: string, context: Params, f: StageFaults, p: Provider)
    requires Separates(d) && p.digest == d.digest && AsCreated(p, s.cloud)
    requires Inv(s) && Honest(d, s, StageOp(id, context, f))
    ensures AsCreated(p, StageOnIbm(d, s.cloud, id, context, f).0)
  {
    if NewProvider(d, context, f.sessionOk).Ok? {
      ProviderStaysAsCreated(d, context, f.sessionOk, p, s.cloud, id, Node.StageSize(context), f.calls);
    }
  }

  lemma DeleteKeepsSettings(d: Deployment, s: State, id: string, secrets: Params, f: DeleteFaults)
    requires Inv(s) && Honest(d, s, DeleteOp(id, secrets, f))
    ensures KeepsSettings(s.cloud, DeleteRpc(d, s, id, secrets, f).0.cloud)
  {
    var (dir, loaded) := LoadVolumeRecord(d, s.dir, id, f.external, f.recover);
    var params := if loaded.Ok? then Some(DeleteParams(loaded.value)) else ResolveParams(dir, secrets, f.external);
    if params.Some? && NewProvider(d, params.value, f.sessionOk).Ok? {
      Laws.DeleteFacts(NewProvider(d, params.value, f.sessionOk).value, s.cloud, id, f.get, f.pages, f.del);
    }
  }

  lemma ExpandKeepsSettings(d: Deployment, s: State, id: string, required: int64, f: ExpandFaults)
    requires Inv(s) && Honest(d, s, ExpandOp(id, required, f))
    ensures KeepsSettings(s.cloud, ExpandRpc(d, s, id, required, f).0.cloud)
  {
    NothingChangedKeepsSettings(s.cloud);
    var (dir, loaded) := LoadVolumeRecord(d, s.dir, id, f.external, f.recover);
    if loaded.Ok? {
      ExpandRecordKeepsSettings(d, s.(dir := dir), loaded.value, id, required, f);
    }
  }

  lemma ExpandRecordKeepsSettings(d: Deployment, s: State, rec: Store.VolumeRecord, id: string, required: int64, f: ExpandFaults)
    requires ValidCloud(s.cloud) && TruthfulPages(s.cloud, f.pages)
    ensures KeepsSettings(s.cloud, ExpandRecord(d, s, rec, id, required, f).0.cloud)
  {
    if NewProvider(d, rec.params, f.sessionOk).Ok? {
      ResizingKeepsSettings(NewProvider(d, rec.params, f.sessionOk).value, s.cloud, id, required, f);
    }
  }

  lemma ResizingKeepsSettings(p: Provider, c: Cloud, name: string, required: int64, f: ExpandFaults)
    requires ValidCloud(c) && TruthfulPages(c, f.pages)
    ensures KeepsSettings(c, Prov.Expand(p, c, name, required, f.get, f.pages, f.update).0)
  {
    Laws.ExpandFacts(p, c, name, required, f.get, f.pages, f.update);
  }

  // ---- Runs ----

  /** Others leave the settings of tagged disks alone. */
  ghost predicate OthersKeepSettings(s: State, op: Op) {
    op.OthersOp? ==> KeepsSettings(s.cloud, op.cloud)
  }

  lemma StepStaysAsCreated(d: Deployment, s: State, op: Op, p: Provider)
    requires Separates(d) && p.digest == d.digest && AsCreated(p, s.cloud)
    requires Inv(s) && Honest(d, s, op) && OthersKeepSettings(s, op)
    ensures AsCreated(p, Step(d, s, op).cloud)
  {
    match op
    case CreateOp(req, f) => CreateStaysAsCreated(d, s, req, f, p);
    case DeleteOp(id, secrets, f) =>
      DeleteKeepsSettings(d, s, id, secrets, f);
      KeepingStaysAsCreated(p, s.cloud, Step(d, s, op).cloud);
    case ExpandOp(id, required, f) =>
      ExpandKeepsSettings(d, s, id, required, f);
      KeepingStaysAsCreated(p, s.cloud, Step(d, s, op).cloud);
    case StageOp(id, context, f) => StageStaysAsCreated(d, s, id, context, f, p);
    case RecoverOp(_, _) =>
    case OthersOp(cloud) => KeepingStaysAsCreated(p, s.cloud, cloud);
  }

  /** In every cloud reached from a fresh installation, the disks a configuration claims are as created. */
  lemma {:induction false} RunsStayAsCreated(d: Deployment, s: State, ops: seq<Op>, p: Provider)
    requires Separates(d) && p.digest == d.digest && Initial(s) && HonestRun(d, s, ops)
    requires forall i :: 0 <= i < |ops| ==> OthersKeepSettings(Run(d, s, ops[..i]), ops[i])
    ensures AsCreated(p, Run(d, s, ops).cloud)
  {
    if ops == [] {
      forall id, name | id in s.cloud.disks ensures !Laws.Claimed(p, s.cloud.disks[id], name) {
        assert !Tagged(s.cloud.disks[id]);
      }
    } else {
      var init := ops[..|ops| - 1];
      forall i | 0 <= i < |init|
        ensures Honest(d, Run(d, s, init[..i]), init[i]) && OthersKeepSettings(Run(d, s, init[..i]), init[i])
      {
        assert init[..i] == ops[..i];
      }
      RunsStayAsCreated(d, s, init, p);
      InitialInv(s);
      RunKeepsInv(d, s, init);
      StepStaysAsCreated(d, Run(d, s, init), ops[|ops| - 1], p);
    }
  }

  /** A cloud some run from a fresh installation ends with. */
  ghost predicate Reachable(d: Deployment, c: Cloud) {
    exists s, ops :: Reaches(d, s, ops, c)
  }

  ghost predicate Reaches(d: Deployment, s: State, ops: seq<Op>, c: Cloud) {
    && Initial(s) && HonestRun(d, s, ops)
    && (forall i :: 0 <= i < |ops| ==> OthersKeepSettings(Run(d, s, ops[..i]), ops[i]))
    && Run(d, s, ops).cloud == c
  }

  lemma ReachableIsAsCreated(d: Deployment, c: Cloud, p: Provider)
    requires Separates(d) && p.digest == d.digest && Reachable(d, c)
    ensures Laws.Orderly(c) && AsCreated(p, c)
  {
    var s, ops :| Reaches(d, s, ops, c);
    RunsStayAsCreated(d, s, ops, p);
    InitialInv(s);
    RunKeepsInv(d, s, ops);
  }

  /**
   In every reachable cloud, loading a volume whose record is missing succeeds exactly when the name has
   an available disk in the placement with its tag and the marker.
   */
  lemma LoadAfterRunIff(d: Deployment, c: Cloud, dir: Store.Dir, params: Params, external: Option<Params>,
                        p: Provider, f: RecoverCalls, name: string)
    requires Separates(d) && Reachable(d, c) && FullRecovery(p, c, f) && Recovers(d, params, p, f)
    requires PlainName(name) && name != "" && Store.FileName(name) !in dir
    requires Store.BootstrapParams(dir, dir, external) == Some(params)
    ensures LoadVolumeRecord(d, dir, name, external, f).1.Ok? <==>
              exists id :: id in c.disks && Available(p, c.disks[id], name)
  {
    ProviderHasDigest(d, params, f.sessionOk);
    ReachableIsAsCreated(d, c, p);
    LoadOfMissingIff(d, c, dir, params, external, p, f, name);
  }

  lemma ProviderHasDigest(d: Deployment, params: Params, sessionOk: bool)
    requires NewProvider(d, params, sessionOk).Ok?
    ensures NewProvider(d, params, sessionOk).value.digest == d.digest
  {
  }
}
