/**
 Concrete runs, one for every accepted configuration of their kind, in which the driver does not do
 what one would hope: a retry refused after a restart, a delete that leaves its disk, an expansion that
 asks for less than there is, and a record that holds credentials. Each starts with nothing and one
 create of a gibibyte.
 */
module FailingRuns {
  import opened Basics
  import opened Capacity
  import opened IbmConfig
  import opened IbmSdk
  import opened ProviderApi
  import opened Controller
  import opened ControllerLaws
  import opened RecoveryLaws
  import opened RetryLaws
  import opened RestartLaws
  import opened Staging
  import Own = OwnershipLaws
  import Prov = IbmProvider
  import Laws = IbmProviderLaws
  import Store = VolumeStore
  import Topology
  import opened Limits
  import opened ExpansionLaws
  import StoreLaws = VolumeStoreLaws
  import Node = NodeServer

  // ---- The first create ----

  function Nothing(): State {
    State(Cloud(map[], {}), map[])
  }

  /** A disk of ten GiB, the allocation of a gibibyte on every profile but sdp. */
  function Making(p: Provider, id: string): CreateOutcome {
    Provisioned(id, 10 - Minimum(p.config.profile), "available", Reply("available", NOTHING_DROPPED))
  }

  /** A create whose name query lists nothing, and whose record is saved or lost. */
  function BlindCreate(p: Provider, get: GetOutcome, id: string, saved: bool): CreateFaults {
    CreateFaults(true, Prov.CreateCalls(get, OnePage([]), Making(p, id), Unreachable), Store.Writes(saved, saved))
  }

  function TenGiB(p: Provider, name: string, id: string): Volume {
    Laws.Provisioning(p, name, 10, id, 10, "available")
  }

  function RequestParams(req: CreateRequest): Params {
    Topology.Apply(req.params, req.topology)
  }

  function SmallRecord(req: CreateRequest, id: string): Store.VolumeRecord {
    Store.VolumeRecord(req.name, "ibmcloud", id, GIB, RequestParams(req))
  }

  /** A request for a gibibyte that passes every check. */
  ghost predicate PlainRequest(d: Deployment, req: CreateRequest, p: Provider) {
    && RequestProvider(d, req, true) == Ok(p) && RequestError(req).None?
    && PlainName(req.name) && req.requiredBytes == GIB
  }

  /** Nothing answers to the native ID, if there is one, or the lookup of it fails. */
  predicate SeesNothing(p: Provider, c: Cloud, get: GetOutcome) {
    Laws.GoesByNativeID(p, get) ==> p.config.volumeID !in c.disks
  }

  lemma BlindProviderCreate(p: Provider, c: Cloud, name: string, get: GetOutcome, id: string)
    requires Accepted(p.config) && name != "" && SeesNothing(p, c, get)
    requires id != "" && id !in c.used && id !in c.disks
    ensures Prov.Create(p, c, name, GIB, BlindCreate(p, get, id, true).calls)
         == (Cloud(c.disks[id := TenGiB(p, name, id)], c.used + {id}),
             Ok(VolumeInfo(name, id, 10 * GIB, "ibmcloud", Prov.InfoMetadata(TenGiB(p, name, id)))))
  {
    OnePageLists([]);
    assert Prov.LookupByName(name, OnePage([])) == Err(Prov.VolumeNotFound);
  }

  lemma BlindCreateAdds(d: Deployment, s: State, req: CreateRequest, p: Provider, get: GetOutcome, id: string, saved: bool)
    requires PlainRequest(d, req, p) && Store.Load(s.dir, req.name).Err? && SeesNothing(p, s.cloud, get)
    requires id != "" && id !in s.cloud.used && id !in s.cloud.disks
    ensures CreateRpc(d, s, req, BlindCreate(p, get, id, saved)).0
         == State(Cloud(s.cloud.disks[id := TenGiB(p, req.name, id)], s.cloud.used + {id}),
                  Store.Save(s.dir, SmallRecord(req, id), Store.Writes(saved, saved)))
    ensures CreateRpc(d, s, req, BlindCreate(p, get, id, saved)).1.Ok?
  {
    ProviderIsAccepted(d, RequestParams(req), true);
    BlindProviderCreate(p, s.cloud, req.name, get, id);
    CreateAnswersFromProvider(d, s, req, BlindCreate(p, get, id, saved));
  }

  function OneDisk(p: Provider, name: string, id: string): Cloud {
    Cloud(map[id := TenGiB(p, name, id)], {id})
  }

  /** On a cloud without disks the empty listing is complete, and no lookup can miss a disk. */
  lemma EmptyListingIsComplete(c: Cloud, name: string)
    requires c.disks == map[]
    ensures CompletePages(c, ByName(name), OnePage([])) && TruthfulPages(c, OnePage([])) && !Laws.HasDiskFor(c, name)
  {
    OnePageLists([]);
  }

  lemma FirstCreateIsHonest(d: Deployment, req: CreateRequest, p: Provider, get: GetOutcome, id: string, saved: bool)
    requires PlainName(req.name)
    ensures Honest(d, Nothing(), CreateOp(req, BlindCreate(p, get, id, saved)))
  {
    EmptyListingIsComplete(Nothing().cloud, req.name);
  }

  lemma FirstCreate(d: Deployment, req: CreateRequest, p: Provider, get: GetOutcome, id: string, saved: bool)
    requires PlainRequest(d, req, p) && id != ""
    ensures var (s, r) := CreateRpc(d, Nothing(), req, BlindCreate(p, get, id, saved));
            && r.Ok?
            && s == State(OneDisk(p, req.name, id), Store.Save(map[], SmallRecord(req, id), Store.Writes(saved, saved)))
  {
    BlindCreateAdds(d, Nothing(), req, p, get, id, saved);
  }

  lemma OneDiskIsOrderly(p: Provider, name: string, id: string)
    requires Accepted(p.config) && id != "" && PlainName(name)
    ensures CloudOk(OneDisk(p, name, id)) && Laws.Claimed(p, TenGiB(p, name, id), name)
  {
    forall other | Laws.OwnedBy(TenGiB(p, name, id), other) ensures other == name {
      Laws.NewDiskOwner(p, name, other);
    }
    Laws.NewDiskOwner(p, name, name);
  }

  // ---- A retry refused after a restart ----

  /** A recovery that lists the one disk and whose writes succeed. */
  function RecoverySeeing(v: Volume): RecoverCalls {
    RecoverCalls(true, OnePage([Some(v)]), Store.MergeWrites({}, true))
  }

  lemma SeeingIsFull(p: Provider, name: string, id: string)
    requires Accepted(p.config) && p.config.resourceGroup != "" && id != "" && PlainName(name) && name != ""
    ensures var c := OneDisk(p, name, id);
            && FullRecovery(p, c, RecoverySeeing(TenGiB(p, name, id)))
            && InPlacement(p, c.disks[id]) && Laws.Recoverable(p, c.disks[id])
  {
    var v := TenGiB(p, name, id);
    OnePageLists([Some(v)]);
    OneDiskIsOrderly(p, name, id);
    Laws.CreatedDiskIsRecognised(p, name, 10, id, 10, "available", NOTHING_DROPPED);
    Laws.TagScanRecovers(p, name);
    assert [Some(v)][0].value.id == id;
  }

  lemma ProviderHasGroup(d: Deployment, params: Params, sessionOk: bool)
    requires NewProvider(d, params, sessionOk).Ok?
    ensures NewProvider(d, params, sessionOk).value.config.resourceGroup != ""
  {
  }

  lemma RestartRebuilds(d: Deployment, req: CreateRequest, p: Provider, s: State)
    requires PlainRequest(d, req, p) && s.cloud == OneDisk(p, req.name, "a") && s.dir == map[] && req.name != ""
    ensures var f := RecoverySeeing(TenGiB(p, req.name, "a"));
            && Honest(d, s, RecoverOp(Some(RequestParams(req)), f))
            && Store.Load(AfterRecovery(d, s, Some(RequestParams(req)), f).dir, req.name)
               == Ok(RebuiltRecord(TenGiB(p, req.name, "a"), RequestParams(req)))
  {
    ProviderIsAccepted(d, RequestParams(req), true);
    ProviderHasGroup(d, RequestParams(req), true);
    ProviderParams(d, RequestParams(req), true);
    OneDiskIsOrderly(p, req.name, "a");
    SeeingIsFull(p, req.name, "a");
    OnePageLists([Some(TenGiB(p, req.name, "a"))]);
    FullRecoveryRebuilds(d, s, RequestParams(req), p, RecoverySeeing(TenGiB(p, req.name, "a")), "a");
  }

  /**
   A gibibyte is asked for, ten are provisioned, the record write is lost, and the restarted
   controller's recovery, under the request's own parameters, records ten: from then on every retry of
   the same request is refused, whatever its calls answer. Every listing was complete.
   */
  lemma RestartRefusesTheRetry(d: Deployment, req: CreateRequest, p: Provider, again: CreateFaults)
    requires PlainRequest(d, req, p) && p.config.profile != "sdp"
    ensures var create := BlindCreate(p, Unreachable, "a", false);
            var s := CreateRpc(d, Nothing(), req, create).0;
            var boot := Some(RequestParams(req));
            var recover := RecoverySeeing(TenGiB(p, req.name, "a"));
            var restarted := AfterRecovery(d, s, boot, recover);
            && Honest(d, Nothing(), CreateOp(req, create)) && Honest(d, s, RecoverOp(boot, recover))
            && CreateRpc(d, Nothing(), req, create).1.Ok?
            && CreateRpc(d, restarted, req, again) == (restarted, Err(CapacityDiffers))
  {
    FirstCreateIsHonest(d, req, p, Unreachable, "a", false);
    FirstCreate(d, req, p, Unreachable, "a", false);
    var s := CreateRpc(d, Nothing(), req, BlindCreate(p, Unreachable, "a", false)).0;
    RestartRebuilds(d, req, p, s);
    ProviderParams(d, RequestParams(req), true);
    RetryOverRebuilt(d, AfterRecovery(d, s, Some(RequestParams(req)), RecoverySeeing(TenGiB(p, req.name, "a"))), req, again,
                     TenGiB(p, req.name, "a"), RequestParams(req));
  }

  // ---- Deletes that leave a disk ----

  /** A delete whose native lookup answers; its name query is never made. */
  function AnsweringDelete(): DeleteFaults {
    DeleteFaults(None, RecoverCalls(false, OnePage([]), Store.MergeWrites({}, true)), true, Answers(NOTHING_DROPPED),
                 OnePage([]), Applied(false), Store.Writes(true, true))
  }

  /** Through a native ID that is gone, such a delete succeeds, drops the record and leaves the cloud. */
  lemma ProviderDeletePastTheDisk(p: Provider, c: Cloud, name: string)
    requires p.config.volumeID != "" && p.config.volumeID !in c.disks
    ensures Prov.Delete(p, c, name, AnsweringDelete().get, AnsweringDelete().pages, AnsweringDelete().del) == (c, Ok(Unit))
  {
  }

  lemma DeletePastTheDisk(d: Deployment, s: State, req: CreateRequest, p: Provider, recorded: string)
    requires PlainRequest(d, req, p) && Store.Load(s.dir, req.name) == Ok(SmallRecord(req, recorded)) && recorded != ""
    requires Own.NativeTarget(DeleteParams(SmallRecord(req, recorded))) !in s.cloud.disks
    ensures var (s', r) := DeleteRpc(d, s, req.name, map[], AnsweringDelete());
            && r.Ok? && s'.cloud == s.cloud && Store.Load(s'.dir, req.name) == Err(Store.NotExist)
  {
    var rec := SmallRecord(req, recorded);
    Own.DeleteRpcWithRecord(d, s, req.name, map[], AnsweringDelete(), rec);
    Own.DeleteTarget(rec);
    DeleteParamsMakeAProvider(d, rec, p);
    Own.ProviderTarget(d, DeleteParams(rec), true);
    ProviderDeletePastTheDisk(NewProvider(d, DeleteParams(rec), true).value, s.cloud, req.name);
    Own.DeletedIsNotLoaded(s.dir, req.name, AnsweringDelete().forget);
  }

  /** The recorded path only changes the native ID of the configuration. */
  lemma DeleteParamsMakeAProvider(d: Deployment, rec: Store.VolumeRecord, p: Provider)
    requires NewProvider(d, rec.params, true) == Ok(p)
    ensures NewProvider(d, DeleteParams(rec), true).Ok?
  {
    var raw := Raw(DeleteParams(rec));
    assert raw == Raw(rec.params).(volumeID := raw.volumeID);
    ValidateIgnoresVolumeID(Raw(rec.params), Get(rec.params, "throughput"), raw.volumeID);
  }

  lemma HonestDelete(d: Deployment, s: State, name: string)
    requires PlainName(name)
    ensures Honest(d, s, DeleteOp(name, map[], AnsweringDelete()))
  {
    OnePageLists([]);
  }

  /**
   A create whose parameters carry an `ibm-volume-id` that is gone provisions a disk and records its
   path; the delete then looks up the `ibm-volume-id` again, finds nothing, answers success, drops the
   record and leaves the disk.
   */
  lemma DeleteLeaksTheCreatedDisk(d: Deployment, req: CreateRequest, p: Provider, id: string)
    requires PlainRequest(d, req, p) && id != ""
    requires Get(RequestParams(req), "ibm-volume-id") != "" && Get(RequestParams(req), "ibm-volume-id") != id
    ensures var create := BlindCreate(p, Answers(NOTHING_DROPPED), id, true);
            var s := CreateRpc(d, Nothing(), req, create).0;
            var (s', r) := DeleteRpc(d, s, req.name, map[], AnsweringDelete());
            && Honest(d, Nothing(), CreateOp(req, create)) && Honest(d, s, DeleteOp(req.name, map[], AnsweringDelete()))
            && Store.Load(s.dir, req.name) == Ok(SmallRecord(req, id))
            && r.Ok? && Store.Load(s'.dir, req.name) == Err(Store.NotExist)
            && id in s'.cloud.disks && Laws.OwnedBy(s'.cloud.disks[id], req.name)
  {
    FirstCreateIsHonest(d, req, p, Answers(NOTHING_DROPPED), id, true);
    FirstCreate(d, req, p, Answers(NOTHING_DROPPED), id, true);
    SavedIsLoaded(map[], SmallRecord(req, id), Store.Writes(true, true));
    var s := CreateRpc(d, Nothing(), req, BlindCreate(p, Answers(NOTHING_DROPPED), id, true)).0;
    assert Own.NativeTarget(DeleteParams(SmallRecord(req, id))) == Get(RequestParams(req), "ibm-volume-id");
    DeletePastTheDisk(d, s, req, p, id);
    HonestDelete(d, s, req.name);
    ProviderIsAccepted(d, RequestParams(req), true);
    OneDiskIsOrderly(p, req.name, id);
  }

  /** A stage whose name query lists nothing. */
  function BlindStage(p: Provider, id: string): StageFaults {
    StageFaults(true, BlindCreate(p, Unreachable, id, true).calls)
  }

  function Emptied(): Cloud {
    Cloud(map[], {"a"})
  }

  /** A node stages the volume after its recorded disk disappeared, and makes a second disk. */
  lemma StageMakesASecondDisk(d: Deployment, req: CreateRequest, p: Provider)
    requires PlainRequest(d, req, p) && Get(RequestParams(req), "capacity_in_bytes") == ""
    ensures StageOnIbm(d, Emptied(), req.name, RequestParams(req), BlindStage(p, "b")).0
         == Cloud(map["b" := TenGiB(p, req.name, "b")], {"a", "b"})
  {
    NoSizeMeansDefault(RequestParams(req));
    ProviderIsAccepted(d, RequestParams(req), true);
    PlainHasName(d, req, p);
    StageIsCreate(d, Emptied(), req.name, RequestParams(req), p, BlindStage(p, "b"));
    BlindProviderCreate(p, Emptied(), req.name, Unreachable, "b");
  }

  lemma PlainHasName(d: Deployment, req: CreateRequest, p: Provider)
    requires PlainRequest(d, req, p)
    ensures req.name != ""
  {
  }

  lemma StageIsCreate(d: Deployment, c: Cloud, name: string, context: Params, p: Provider, f: StageFaults)
    requires NewProvider(d, context, f.sessionOk) == Ok(p)
    ensures StageOnIbm(d, c, name, context, f).0 == Prov.Create(p, c, name, Node.StageSize(context), f.calls).0
  {
  }

  lemma DisappearingIsHonest(d: Deployment, p: Provider, name: string, dir: Store.Dir)
    ensures Honest(d, State(OneDisk(p, name, "a"), dir), OthersOp(Emptied()))
  {
  }

  lemma StagingIsHonest(d: Deployment, p: Provider, name: string, context: Params, dir: Store.Dir)
    requires PlainName(name)
    ensures Honest(d, State(Emptied(), dir), StageOp(name, context, BlindStage(p, "b")))
  {
    EmptyListingIsComplete(Emptied(), name);
  }

  /** The state after the create, the disappearance and the staging. */
  function Staged(req: CreateRequest, p: Provider): State {
    State(Cloud(map["b" := TenGiB(p, req.name, "b")], {"a", "b"}),
          Store.Save(map[], SmallRecord(req, "a"), Store.Writes(true, true)))
  }

  /** Every step of the run is honest and it ends in that state. */
  lemma StagedIsReached(d: Deployment, req: CreateRequest, p: Provider)
    requires PlainRequest(d, req, p) && Get(RequestParams(req), "capacity_in_bytes") == ""
    ensures var create := BlindCreate(p, Unreachable, "a", true);
            var s := CreateRpc(d, Nothing(), req, create).0;
            var gone := s.(cloud := Emptied());
            && Honest(d, Nothing(), CreateOp(req, create)) && Honest(d, s, OthersOp(gone.cloud))
            && Honest(d, gone, StageOp(req.name, RequestParams(req), BlindStage(p, "b")))
            && gone.(cloud := StageOnIbm(d, gone.cloud, req.name, RequestParams(req), BlindStage(p, "b")).0) == Staged(req, p)
  {
    FirstCreateIsHonest(d, req, p, Unreachable, "a", true);
    FirstCreate(d, req, p, Unreachable, "a", true);
    var dir := Store.Save(map[], SmallRecord(req, "a"), Store.Writes(true, true));
    DisappearingIsHonest(d, p, req.name, dir);
    StagingIsHonest(d, p, req.name, RequestParams(req), dir);
    StageMakesASecondDisk(d, req, p);
  }

  /**
   The recorded disk disappears, a node stages the volume and thereby makes a second disk, and the
   delete, going by the recorded native ID, finds nothing, answers success and leaves that disk.
   */
  lemma DeleteLeaksTheStagedDisk(d: Deployment, req: CreateRequest, p: Provider)
    requires PlainRequest(d, req, p) && Get(RequestParams(req), "ibm-volume-id") == ""
    ensures var (s', r) := DeleteRpc(d, Staged(req, p), req.name, map[], AnsweringDelete());
            && Honest(d, Staged(req, p), DeleteOp(req.name, map[], AnsweringDelete()))
            && r.Ok? && Store.Load(s'.dir, req.name) == Err(Store.NotExist)
            && "b" in s'.cloud.disks && Laws.OwnedBy(s'.cloud.disks["b"], req.name)
  {
    SavedIsLoaded(map[], SmallRecord(req, "a"), Store.Writes(true, true));
    DeletePastTheDisk(d, Staged(req, p), req, p, "a");
    HonestDelete(d, Staged(req, p), req.name);
    assert Staged(req, p).cloud.disks["b"].tags[0] == OwnershipTag(req.name);
  }

  // ---- An expansion that asks for less ----

  /** An expansion whose name query shows only the disk v, applied exactly. */
  function ExpandSeeing(v: Volume): ExpandFaults {
    ExpandFaults(None, RecoverCalls(false, OnePage([]), Store.MergeWrites({}, true)), true, Unreachable, OnePage([Some(v)]),
                 Updated(0, false), Store.Writes(true, true))
  }

  /** Seeing one disk of the name, the provider resizes that one. */
  lemma ProviderResizesTheSeenDisk(p: Provider, c: Cloud, name: string, seen: string, units: nat)
    requires Accepted(p.config) && name != "" && units <= 20
    requires seen != "" && seen in c.disks && c.disks[seen] == TenGiB(p, name, seen)
    ensures Prov.Expand(p, c, name, units * GIB, Unreachable, OnePage([Some(TenGiB(p, name, seen))]), Updated(0, false))
         == (Laws.Resized(c, seen, units), Ok(Unit))
  {
    var v := TenGiB(p, name, seen);
    OnePageLists([Some(v)]);
    Laws.CreatedDiskIsRecognised(p, name, 10, seen, 10, "available", NOTHING_DROPPED);
    assert [Some(v)][1..] == [];
    assert Prov.Scan([], name, Some(v)) == Ok(v);
    assert Prov.LookupByName(name, OnePage([Some(v)])) == Ok(v);
    assert ExpandUnits(units * GIB) == units;
  }

  function ResizedRecord(req: CreateRequest, id: string, units: nat): Store.VolumeRecord {
    SmallRecord(req, id).(capacityBytes := units * GIB)
  }

  /** So does the controller, whatever disk its record names. */
  lemma ExpandResizesTheSeenDisk(d: Deployment, s: State, req: CreateRequest, p: Provider, seen: string, recorded: string, units: nat)
    requires PlainRequest(d, req, p) && Store.Load(s.dir, req.name) == Ok(SmallRecord(req, recorded))
    requires seen != "" && seen in s.cloud.disks && s.cloud.disks[seen] == TenGiB(p, req.name, seen)
    requires 1 < units <= 20
    ensures ExpandRpc(d, s, req.name, units * GIB, ExpandSeeing(TenGiB(p, req.name, seen)))
         == (State(Laws.Resized(s.cloud, seen, units),
                   Store.Save(s.dir, ResizedRecord(req, recorded, units), Store.Writes(true, true))),
             Ok(units * GIB))
  {
    var f := ExpandSeeing(TenGiB(p, req.name, seen));
    var rec := SmallRecord(req, recorded);
    ProviderIsAccepted(d, RequestParams(req), true);
    ProviderResizesTheSeenDisk(p, s.cloud, req.name, seen, units);
    assert LoadVolumeRecord(d, s.dir, req.name, f.external, f.recover) == (s.dir, Ok(rec));
    assert ExpandRpc(d, s, req.name, units * GIB, f) == ExpandRecord(d, s, rec, req.name, units * GIB, f);
  }

  lemma SeeingIsHonest(d: Deployment, s: State, name: string, v: Volume, units: nat)
    requires PlainName(name) && v.id in s.cloud.disks && s.cloud.disks[v.id] == v && units <= 20
    ensures Honest(d, s, ExpandOp(name, units * GIB, ExpandSeeing(v)))
  {
    OnePageLists([]);
    OnePageLists([Some(v)]);
  }

  /**
   A gibibyte is asked for and ten are provisioned; the expansion to two then asks the cloud for two,
   answers success, and leaves the disk with two.
   */
  lemma ExpandAsksForLess(d: Deployment, req: CreateRequest, p: Provider)
    requires PlainRequest(d, req, p)
    ensures var create := BlindCreate(p, Unreachable, "a", true);
            var s := CreateRpc(d, Nothing(), req, create).0;
            var expand := ExpandSeeing(TenGiB(p, req.name, "a"));
            var (s', r) := ExpandRpc(d, s, req.name, 2 * GIB, expand);
            && Honest(d, Nothing(), CreateOp(req, create)) && Honest(d, s, ExpandOp(req.name, 2 * GIB, expand))
            && r == Ok(2 * GIB) && Shrinks(s.cloud, s'.cloud, "a") && s'.cloud.disks["a"].capacity == Some(2)
  {
    FirstCreateIsHonest(d, req, p, Unreachable, "a", true);
    FirstCreate(d, req, p, Unreachable, "a", true);
    SavedIsLoaded(map[], SmallRecord(req, "a"), Store.Writes(true, true));
    var s := State(OneDisk(p, req.name, "a"), Store.Save(map[], SmallRecord(req, "a"), Store.Writes(true, true)));
    SeeingIsHonest(d, s, req.name, TenGiB(p, req.name, "a"), 2);
    ExpandResizesTheSeenDisk(d, s, req, p, "a", "a", 2);
  }

  /** On every profile but sdp, no node can stage a disk left with that size. */
  lemma ShrunkDiskFitsNoStage(profile: string, context: Params)
    requires profile != "sdp"
    ensures !StageFits(profile, context, 2 * GIB)
  {
  }

  // ---- A record that holds credentials ----

  /** A request whose parameters carry an AWS secret key has it written to the store. */
  lemma CreateStoresCredentials(d: Deployment, req: CreateRequest, p: Provider)
    requires PlainRequest(d, req, p) && "awsSecretKey" in RequestParams(req)
    ensures var create := BlindCreate(p, Unreachable, "a", true);
            var s := CreateRpc(d, Nothing(), req, create).0;
            && Honest(d, Nothing(), CreateOp(req, create))
            && StoreLaws.StoreCredentialFree(Nothing().dir)
            && Store.Load(s.dir, req.name).Ok? && "awsSecretKey" in Store.Load(s.dir, req.name).value.params
  {
    FirstCreateIsHonest(d, req, p, Unreachable, "a", true);
    FirstCreate(d, req, p, Unreachable, "a", true);
    SavedIsLoaded(map[], SmallRecord(req, "a"), Store.Writes(true, true));
  }
}
