/**
 Without read-your-writes listings a promise can break: a run, for every accepted configuration, whose
 listings all describe real disks but leave some out.
 */
module LaggingRuns {
  import opened Basics
  import opened Capacity
  import opened IbmConfig
  import opened IbmSdk
  import opened Controller
  import opened ControllerLaws
  import opened RetryLaws
  import opened FailingRuns
  import Laws = IbmProviderLaws
  import opened Limits
  import Store = VolumeStore

  function TwoDisks(p: Provider, name: string): Cloud {
    Cloud(map["a" := TenGiB(p, name, "a"), "b" := TenGiB(p, name, "b")], {"a", "b"})
  }

  /** What runs assume, except that a create's name query only has to describe real disks. */
  ghost predicate Tame(d: Deployment, s: State, op: Op) {
    match op
    case CreateOp(req, f) =>
      && PlainName(req.name) && TruthfulPages(s.cloud, f.calls.pages)
      && var made := NewProvider(d, RequestParams(req), f.sessionOk);
         made.Ok? ==> !Laws.StaleNativeID(made.value, s.cloud, f.calls.get)
    case _ => Honest(d, s, op)
  }

  ghost predicate TameRun(d: Deployment, s: State, ops: seq<Op>) {
    forall i :: 0 <= i < |ops| ==> Tame(d, Run(d, s, ops[..i]), ops[i])
  }

  lemma RunExtends(d: Deployment, s: State, ops: seq<Op>, op: Op) returns (longer: seq<Op>)
    requires TameRun(d, s, ops) && Tame(d, Run(d, s, ops), op)
    ensures TameRun(d, s, longer) && Run(d, s, longer) == Step(d, Run(d, s, ops), op)
  {
    longer := ops + [op];
    assert longer[..|ops|] == ops;
    forall i | 0 <= i < |longer| ensures Tame(d, Run(d, s, longer[..i]), longer[i]) {
      assert i < |ops| ==> longer[..i] == ops[..i];
    }
  }

  lemma RunExtendsByCreate(d: Deployment, ops: seq<Op>, now: State, req: CreateRequest, p: Provider, id: string, saved: bool)
    returns (longer: seq<Op>)
    requires PlainRequest(d, req, p) && TameRun(d, Nothing(), ops) && Run(d, Nothing(), ops) == now
    requires Store.Load(now.dir, req.name).Err?
    requires id != "" && id !in now.cloud.used && id !in now.cloud.disks
    ensures TameRun(d, Nothing(), longer)
    ensures Run(d, Nothing(), longer)
         == State(Cloud(now.cloud.disks[id := TenGiB(p, req.name, id)], now.cloud.used + {id}),
                  Store.Save(now.dir, SmallRecord(req, id), Store.Writes(saved, saved)))
  {
    OnePageLists([]);
    longer := RunExtends(d, Nothing(), ops, CreateOp(req, BlindCreate(p, Unreachable, id, saved)));
    BlindCreateAdds(d, now, req, p, Unreachable, id, saved);
  }

  /** The first create's record is lost, and its disk is not listed when the create is repeated. */
  lemma LaggingCreates(d: Deployment, req: CreateRequest, p: Provider) returns (ops: seq<Op>)
    requires PlainRequest(d, req, p)
    ensures TameRun(d, Nothing(), ops)
    ensures Run(d, Nothing(), ops).cloud == TwoDisks(p, req.name)
    ensures Store.Load(Run(d, Nothing(), ops).dir, req.name) == Ok(SmallRecord(req, "b"))
  {
    ops := RunExtendsByCreate(d, [], Nothing(), req, p, "a", false);
    ops := RunExtendsByCreate(d, ops, State(OneDisk(p, req.name, "a"), map[]), req, p, "b", true);
    SavedIsLoaded(map[], SmallRecord(req, "b"), Store.Writes(true, true));
  }

  lemma GrownIsSaved(d: Deployment, s: State, req: CreateRequest, p: Provider)
    requires PlainRequest(d, req, p) && s.cloud == TwoDisks(p, req.name)
    requires Store.Load(s.dir, req.name) == Ok(SmallRecord(req, "b"))
    ensures var end := ExpandRpc(d, s, req.name, 20 * GIB, ExpandSeeing(TenGiB(p, req.name, "a"))).0;
            && end.cloud == Laws.Resized(TwoDisks(p, req.name), "a", 20)
            && Store.Load(end.dir, req.name) == Ok(ResizedRecord(req, "b", 20))
  {
    ExpandResizesTheSeenDisk(d, s, req, p, "a", "b", 20);
    SavedIsLoaded(s.dir, ResizedRecord(req, "b", 20), Store.Writes(true, true));
  }

  lemma LaggingExpand(d: Deployment, ops: seq<Op>, now: State, req: CreateRequest, p: Provider) returns (longer: seq<Op>)
    requires PlainRequest(d, req, p) && TameRun(d, Nothing(), ops) && Run(d, Nothing(), ops) == now
    requires now.cloud == TwoDisks(p, req.name) && Store.Load(now.dir, req.name) == Ok(SmallRecord(req, "b"))
    ensures TameRun(d, Nothing(), longer)
    ensures Run(d, Nothing(), longer).cloud == Laws.Resized(TwoDisks(p, req.name), "a", 20)
    ensures Store.Load(Run(d, Nothing(), longer).dir, req.name) == Ok(ResizedRecord(req, "b", 20))
  {
    var v := TenGiB(p, req.name, "a");
    SeeingIsHonest(d, now, req.name, v, 20);
    longer := RunExtends(d, Nothing(), ops, ExpandOp(req.name, 20 * GIB, ExpandSeeing(v)));
    GrownIsSaved(d, now, req, p);
  }

  /**
   Without read-your-writes listings a promise can break, for every accepted configuration: the retry
   of a create does not see the first disk, and an expansion sees only that one. The record then
   promises 20 GiB of a disk that has 10, though every listing described real disks.
   */
  lemma LaggingListingsBreakAPromise(d: Deployment, req: CreateRequest, p: Provider) returns (ops: seq<Op>)
    requires PlainRequest(d, req, p)
    ensures TameRun(d, Nothing(), ops)
    ensures var end := Run(d, Nothing(), ops);
            && Store.Load(end.dir, req.name).Ok?
            && !Covered(end.cloud, Store.Load(end.dir, req.name).value)
            && !Laws.OneDiskPerName(end.cloud)
  {
    ops := LaggingCreates(d, req, p);
    ops := LaggingExpand(d, ops, Run(d, Nothing(), ops), req, p);
    TwoDisksOfOneName(p, req.name);
  }

  lemma TwoDisksOfOneName(p: Provider, name: string)
    ensures !Laws.OneDiskPerName(Laws.Resized(TwoDisks(p, name), "a", 20))
  {
    var c := Laws.Resized(TwoDisks(p, name), "a", 20);
    assert c.disks["a"].tags[0] == OwnershipTag(name) && c.disks["b"].tags[0] == OwnershipTag(name);
    assert Laws.OwnedBy(c.disks["a"], name) && Laws.OwnedBy(c.disks["b"], name);
  }
}
