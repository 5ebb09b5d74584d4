/**
 What every run of store operations keeps: the manifest agrees with the records it indexes and holds
 no credentials, bootstrap parameters once stored are never lost, and recovery only adds.
 */
module VolumeStoreLaws {
  import opened Basics
  import opened Sorting
  import opened ProviderApi
  import opened VolumeStore

  // ---- The manifest is not a record ----

  lemma {:induction false} RecordsInAppend(dir: Dir, a: seq<string>, b: seq<string>)
    ensures RecordsIn(dir, a + b) == RecordsIn(dir, a) + RecordsIn(dir, b)
  {
    if b == [] {
      assert a + b == a;
    } else {
      assert (a + b)[..|a + b| - 1] == a + b[..|b| - 1];
      RecordsInAppend(dir, a, b[..|b| - 1]);
    }
  }

  lemma {:induction false} RecordsInFilter(dir: Dir, names: seq<string>)
    ensures RecordsIn(dir, Filter(names, IsRecordName)) == RecordsIn(dir, names)
  {
    if names != [] {
      var head := [names[0]];
      assert names == head + names[1..];
      assert head[..0] == [];
      RecordsInAppend(dir, head, names[1..]);
      RecordsInFilter(dir, names[1..]);
      RecordsInAppend(dir, if IsRecordName(names[0]) then head else [], Filter(names[1..], IsRecordName));
    }
  }

  lemma {:induction false} RecordsInFrame(a: Dir, b: Dir, names: seq<string>)
    requires a - {MANIFEST} == b - {MANIFEST}
    ensures RecordsIn(a, names) == RecordsIn(b, names)
  {
    if names != [] {
      RecordsInFrame(a, b, names[..|names| - 1]);
      var last := names[|names| - 1];
      if last != MANIFEST {
        assert last in a <==> last in a - {MANIFEST};
        assert last in b <==> last in b - {MANIFEST};
        assert last in a ==> (a - {MANIFEST})[last] == a[last];
        assert last in b ==> (b - {MANIFEST})[last] == b[last];
      }
    }
  }

  lemma KeptIgnoresManifest(a: set<string>, b: set<string>)
    requires a - {MANIFEST} == b - {MANIFEST}
    ensures Kept(a, IsRecordName) == Kept(b, IsRecordName)
  {
    forall n | IsRecordName(n)
      ensures n in a <==> n in b
    {
      assert n in a <==> n in a - {MANIFEST};
      assert n in b <==> n in b - {MANIFEST};
    }
  }

  lemma RecordsAreKept(dir: Dir)
    ensures Records(dir) == RecordsIn(dir, Sorted(Kept(dir.Keys, IsRecordName)))
  {
    RecordsInFilter(dir, Sorted(dir.Keys));
    SortedFilter(dir.Keys, IsRecordName);
  }

  /** Directories that differ only in the manifest hold the same records in the same order. */
  lemma RecordsIgnoreManifest(a: Dir, b: Dir)
    requires a - {MANIFEST} == b - {MANIFEST}
    ensures Records(a) == Records(b)
  {
    RecordsAreKept(a);
    RecordsAreKept(b);
    assert (a - {MANIFEST}).Keys == a.Keys - {MANIFEST} && (b - {MANIFEST}).Keys == b.Keys - {MANIFEST};
    KeptIgnoresManifest(a.Keys, b.Keys);
    RecordsInFrame(a, b, Sorted(Kept(a.Keys, IsRecordName)));
  }

  lemma RefreshKeepsRecords(dir: Dir)
    ensures Refresh(dir) - {MANIFEST} == dir - {MANIFEST}
    ensures Records(Refresh(dir)) == Records(dir)
  {
    RecordsIgnoreManifest(Refresh(dir), dir);
  }

  // ---- Agreement ----

  /** The manifest indexes exactly the records that decode, in listing order. */
  ghost predicate Agrees(dir: Dir) {
    if Records(dir) == [] then
      MANIFEST in dir ==> ReadManifest(dir).Some? && ReadManifest(dir).value.volumeIDs == []
    else
      ReadManifest(dir).Some? && ReadManifest(dir).value.volumeIDs == Ids(Records(dir))
  }

  ghost predicate ManifestCredentialFree(dir: Dir) {
    ReadManifest(dir).Some? ==> CredentialFree(ReadManifest(dir).value.params)
  }

  lemma RefreshAgrees(dir: Dir)
    ensures Agrees(Refresh(dir))
  {
    RefreshKeepsRecords(dir);
  }

  datatype StoreOp =
    | SaveOp(rec: VolumeRecord, writes: Writes)
    | DeleteOp(volumeID: string, writes: Writes)
    | MergeOp(infos: seq<VolumeInfo>, params: Params, mergeWrites: MergeWrites)

  function Apply(dir: Dir, op: StoreOp): Dir {
    match op
    case SaveOp(rec, w) => Save(dir, rec, w)
    case DeleteOp(id, w) => Delete(dir, id, w)
    case MergeOp(infos, params, w) => Merge(dir, infos, params, w)
  }

  function Run(dir: Dir, ops: seq<StoreOp>): Dir {
    if ops == [] then dir else Apply(Run(dir, ops[..|ops| - 1]), ops[|ops| - 1])
  }

  /** Volume IDs are plain names other than the manifest's. */
  predicate PlainOp(op: StoreOp) {
    match op
    case SaveOp(rec, _) => FileName(rec.volumeID) != MANIFEST
    case DeleteOp(id, _) => FileName(id) != MANIFEST
    case MergeOp(infos, _, _) => forall i :: 0 <= i < |infos| ==> FileName(infos[i].volumeID) != MANIFEST
  }

  predicate ManifestWritten(op: StoreOp) {
    match op
    case SaveOp(_, w) => w.manifest
    case DeleteOp(_, w) => w.manifest
    case MergeOp(_, _, w) => w.manifest
  }

  /** Does the operation get as far as rewriting the manifest? */
  predicate Refreshes(dir: Dir, op: StoreOp) {
    match op
    case SaveOp(_, w) => w.file
    case DeleteOp(_, _) => true
    case MergeOp(infos, params, w) => MergeFiles(dir, infos, Sanitize(params), w.failing) != dir
  }

  /**
   With manifest writes taking effect, the manifest agrees after an operation exactly when the operation
   rewrites it, whatever it was before, or it agreed already: a save that fails and a recovery that
   recovers nothing repair no earlier loss.
   */
  lemma ManifestAgreesIff(dir: Dir, op: StoreOp)
    requires ManifestWritten(op)
    ensures Agrees(Apply(dir, op)) <==> Refreshes(dir, op) || Agrees(dir)
  {
    match op
    case SaveOp(rec, w) => RefreshAgrees(dir[FileName(rec.volumeID) := RecordFile(rec)]);
    case DeleteOp(id, w) => RefreshAgrees(if w.file then dir - {FileName(id)} else dir);
    case MergeOp(infos, params, w) => RefreshAgrees(MergeFiles(dir, infos, Sanitize(params), w.failing));
  }

  /** From an empty store the manifest agrees after every operation, as long as manifest writes succeed. */
  lemma {:induction false} ManifestAlwaysAgrees(ops: seq<StoreOp>)
    requires forall i :: 0 <= i < |ops| ==> ManifestWritten(ops[i])
    ensures Agrees(Run(map[], ops))
  {
    if ops == [] {
      RefreshAgrees(map[]);
      assert Records(map[]) == [];
    } else {
      var before := Run(map[], ops[..|ops| - 1]);
      ManifestAlwaysAgrees(ops[..|ops| - 1]);
      ManifestAgreesIff(before, ops[|ops| - 1]);
    }
  }

  // ---- Files an operation leaves alone ----

  lemma {:induction false} MergeFilesAdds(dir: Dir, infos: seq<VolumeInfo>, params: Params, failing: set<string>)
    ensures var merged := MergeFiles(dir, infos, params, failing);
            && dir.Keys <= merged.Keys
            && (forall n :: n in dir ==> merged[n] == dir[n])
  {
    if infos != [] {
      MergeFilesAdds(dir, infos[..|infos| - 1], params, failing);
    }
  }

  lemma {:induction false} MergeFilesAvoids(dir: Dir, infos: seq<VolumeInfo>, params: Params, failing: set<string>, name: string)
    requires forall i :: 0 <= i < |infos| ==> FileName(infos[i].volumeID) != name
    ensures var merged := MergeFiles(dir, infos, params, failing);
            (name in merged <==> name in dir) && (name in dir ==> merged[name] == dir[name])
  {
    if infos != [] {
      MergeFilesAvoids(dir, infos[..|infos| - 1], params, failing, name);
    }
  }

  lemma RefreshKeepsFile(dir: Dir, name: string)
    requires name != MANIFEST
    ensures name in Refresh(dir) <==> name in dir
    ensures name in dir ==> Refresh(dir)[name] == dir[name]
  {
  }

  // ---- Credentials and bootstrap ----

  /** The manifest's step: its parameters stay usable and stay free of credentials. */
  lemma RefreshKeepsBootstrap(dir: Dir)
    ensures StoredParams(dir).Some? ==> StoredParams(Refresh(dir)).Some?
    ensures ManifestCredentialFree(dir) ==> ManifestCredentialFree(Refresh(dir))
  {
    if FirstParams(Records(dir)).Some? {
      FirstParamsHaveProvider(Records(dir));
    }
  }

  lemma {:induction false} FirstParamsHaveProvider(recs: seq<VolumeRecord>)
    ensures FirstParams(recs).Some? ==> HasProvider(FirstParams(recs).value)
  {
    if recs != [] {
      FirstParamsHaveProvider(recs[1..]);
    }
  }

  lemma SameManifest(a: Dir, b: Dir)
    requires MANIFEST in a <==> MANIFEST in b
    requires MANIFEST in a ==> a[MANIFEST] == b[MANIFEST]
    ensures ReadManifest(a) == ReadManifest(b)
  {
  }

  lemma StepKeepsBootstrap(dir: Dir, op: StoreOp)
    requires PlainOp(op)
    ensures StoredParams(dir).Some? ==> StoredParams(Apply(dir, op)).Some?
    ensures ManifestCredentialFree(dir) ==> ManifestCredentialFree(Apply(dir, op))
  {
    var written :=
      match op
      case SaveOp(rec, w) => if w.file then dir[FileName(rec.volumeID) := RecordFile(rec)] else dir
      case DeleteOp(id, w) => if w.file then dir - {FileName(id)} else dir
      case MergeOp(infos, params, w) => MergeFiles(dir, infos, Sanitize(params), w.failing);
    if op.MergeOp? {
      MergeFilesAvoids(dir, op.infos, Sanitize(op.params), op.mergeWrites.failing, MANIFEST);
    }
    SameManifest(dir, written);
    RefreshKeepsBootstrap(written);
  }

  /** Bootstrap parameters once stored are never lost; the manifest never gains credentials. */
  lemma {:induction false} BootstrapIsNeverLost(dir: Dir, ops: seq<StoreOp>)
    requires forall i :: 0 <= i < |ops| ==> PlainOp(ops[i])
    ensures StoredParams(dir).Some? ==> StoredParams(Run(dir, ops)).Some?
    ensures ManifestCredentialFree(dir) ==> ManifestCredentialFree(Run(dir, ops))
  {
    if ops != [] {
      BootstrapIsNeverLost(dir, ops[..|ops| - 1]);
      StepKeepsBootstrap(Run(dir, ops[..|ops| - 1]), ops[|ops| - 1]);
    }
  }

  // ---- Credentials in records ----

  predicate RecordsCredentialFree(dir: Dir) {
    forall n :: n in dir && IsRecordName(n) && AsRecord(dir[n]).Some? ==> CredentialFree(AsRecord(dir[n]).value.params)
  }

  /** Neither the manifest nor a record holds long-lived credentials. */
  ghost predicate StoreCredentialFree(dir: Dir) {
    ManifestCredentialFree(dir) && RecordsCredentialFree(dir)
  }

  /** A save of parameters with credentials that reaches its file. */
  predicate SavesCredentials(op: StoreOp) {
    op.SaveOp? && op.writes.file && !CredentialFree(op.rec.params)
  }

  lemma RefreshKeepsRecordsFree(dir: Dir)
    ensures RecordsCredentialFree(Refresh(dir)) <==> RecordsCredentialFree(dir)
  {
    forall n | IsRecordName(n)
      ensures n in dir <==> n in Refresh(dir)
      ensures n in dir ==> Refresh(dir)[n] == dir[n]
    {
      RefreshKeepsFile(dir, n);
    }
    if RecordsCredentialFree(Refresh(dir)) {
      forall n | n in dir && IsRecordName(n) && AsRecord(dir[n]).Some?
        ensures CredentialFree(AsRecord(dir[n]).value.params)
      {
        assert Refresh(dir)[n] == dir[n];
      }
    }
  }

  lemma MergeKeepsRecordsFree(dir: Dir, infos: seq<VolumeInfo>, params: Params, failing: set<string>)
    requires RecordsCredentialFree(dir)
    ensures RecordsCredentialFree(MergeFiles(dir, infos, Sanitize(params), failing))
  {
    MergeIsUnion(dir, infos, Sanitize(params), failing);
  }

  lemma SaveIsFreeIff(dir: Dir, rec: VolumeRecord)
    requires RecordsCredentialFree(dir) && FileName(rec.volumeID) != MANIFEST
    ensures RecordsCredentialFree(dir[FileName(rec.volumeID) := RecordFile(rec)]) <==> CredentialFree(rec.params)
  {
    var n := FileName(rec.volumeID);
    var written := dir[n := RecordFile(rec)];
    assert n[|n| - 5..] == ".json";
    assert IsRecordName(n) && AsRecord(written[n]) == Some(rec);
  }

  /**
   From a store without credentials, an operation leaves it without exactly unless it saves a record
   whose parameters hold some: the manifest and recovered records are sanitised, saved records are not.
   */
  lemma StaysCredentialFreeIff(dir: Dir, op: StoreOp)
    requires PlainOp(op) && StoreCredentialFree(dir)
    ensures StoreCredentialFree(Apply(dir, op)) <==> !SavesCredentials(op)
  {
    StepKeepsBootstrap(dir, op);
    match op
    case SaveOp(rec, w) =>
      SaveIsFreeIff(dir, rec);
      RefreshKeepsRecordsFree(dir[FileName(rec.volumeID) := RecordFile(rec)]);
    case DeleteOp(id, w) => RefreshKeepsRecordsFree(if w.file then dir - {FileName(id)} else dir);
    case MergeOp(infos, params, w) =>
      MergeKeepsRecordsFree(dir, infos, params, w.failing);
      RefreshKeepsRecordsFree(MergeFiles(dir, infos, Sanitize(params), w.failing));
  }

  /** The store holds no credentials after any number of the operations. */
  ghost predicate CredentialFreeThroughout(dir: Dir, ops: seq<StoreOp>) {
    StoreCredentialFree(Run(dir, ops)) && (ops != [] ==> CredentialFreeThroughout(dir, ops[..|ops| - 1]))
  }

  /** Over a run the store holds no credentials at any point exactly if no operation saves some. */
  lemma {:induction false} RunStaysCredentialFreeIff(dir: Dir, ops: seq<StoreOp>)
    requires StoreCredentialFree(dir) && forall i :: 0 <= i < |ops| ==> PlainOp(ops[i])
    ensures CredentialFreeThroughout(dir, ops) <==> forall i :: 0 <= i < |ops| ==> !SavesCredentials(ops[i])
  {
    if ops != [] {
      var init, op := ops[..|ops| - 1], ops[|ops| - 1];
      assert forall i :: 0 <= i < |init| ==> init[i] == ops[i];
      RunStaysCredentialFreeIff(dir, init);
      if CredentialFreeThroughout(dir, init) {
        StaysCredentialFreeIff(Run(dir, init), op);
        assert Run(dir, ops) == Apply(Run(dir, init), op);
      } else {
        var i :| 0 <= i < |init| && SavesCredentials(init[i]);
        assert SavesCredentials(ops[i]);
      }
    }
  }

  /**
   BootstrapParams takes the lock twice. Whatever other threads do before, between and after the two
   sections, it finds parameters once the manifest holds some.
   */
  lemma BootstrapSurvivesInterleaving(dir: Dir, before: seq<StoreOp>, between: seq<StoreOp>, external: Option<Params>)
    requires StoredParams(dir).Some?
    requires forall i :: 0 <= i < |before| ==> PlainOp(before[i])
    requires forall i :: 0 <= i < |between| ==> PlainOp(between[i])
    ensures var atRecords := Run(dir, before);
            var found := BootstrapParams(atRecords, Run(atRecords, between), external);
            found.Some? && HasProvider(found.value)
  {
    BootstrapIsNeverLost(dir, before);
    BootstrapIsNeverLost(Run(dir, before), between);
    FirstParamsHaveProvider(Records(Run(dir, before)));
  }

  // ---- Recovery ----

  /** The first listed entry with this ID that recovery may write. */
  ghost predicate IsFirstFor(infos: seq<VolumeInfo>, failing: set<string>, name: string, i: int) {
    && 0 <= i < |infos|
    && infos[i].volumeID != "" && infos[i].volumeID !in failing && FileName(infos[i].volumeID) == name
    && forall j :: 0 <= j < i ==> infos[j].volumeID != infos[i].volumeID
  }

  /** The directory recovery must produce, described file by file. */
  ghost predicate IsUnion(dir: Dir, merged: Dir, infos: seq<VolumeInfo>, params: Params, failing: set<string>) {
    && (forall n :: n in dir ==> n in merged && merged[n] == dir[n])
    && (forall n :: n in merged && n !in dir ==>
          exists i :: IsFirstFor(infos, failing, n, i) && merged[n] == RecordFile(RecoveredRecord(infos[i], params)))
    && (forall i :: 0 <= i < |infos| && infos[i].volumeID != "" && infos[i].volumeID !in failing ==>
          FileName(infos[i].volumeID) in merged)
  }

  lemma FirstForExtends(infos: seq<VolumeInfo>, failing: set<string>, name: string, i: int)
    requires infos != [] && IsFirstFor(infos[..|infos| - 1], failing, name, i)
    ensures IsFirstFor(infos, failing, name, i)
  {
    var init := infos[..|infos| - 1];
    assert init[i] == infos[i];
    forall j | 0 <= j < i ensures infos[j].volumeID != infos[i].volumeID {
      assert init[j] == infos[j];
    }
  }

  /** One more listed entry: written when its ID is usable and has no file yet. */
  lemma MergeLast(dir: Dir, infos: seq<VolumeInfo>, params: Params, failing: set<string>, name: string)
    requires infos != []
    requires IsUnion(dir, MergeFiles(dir, infos[..|infos| - 1], params, failing), infos[..|infos| - 1], params, failing)
    requires name in MergeFiles(dir, infos, params, failing) && name !in dir
    ensures exists i :: IsFirstFor(infos, failing, name, i)
                        && MergeFiles(dir, infos, params, failing)[name] == RecordFile(RecoveredRecord(infos[i], params))
  {
    var init := infos[..|infos| - 1];
    var earlier := MergeFiles(dir, init, params, failing);
    if name in earlier {
      var i :| IsFirstFor(init, failing, name, i) && earlier[name] == RecordFile(RecoveredRecord(init[i], params));
      FirstForExtends(infos, failing, name, i);
      assert init[i] == infos[i];
    } else {
      var last := |infos| - 1;
      forall j | 0 <= j < last ensures infos[j].volumeID != infos[last].volumeID {
        assert init[j] == infos[j];
      }
      assert IsFirstFor(infos, failing, name, last);
    }
  }

  lemma {:induction false} ListedHasFile(dir: Dir, infos: seq<VolumeInfo>, params: Params, failing: set<string>, i: nat)
    requires i < |infos| && infos[i].volumeID != "" && infos[i].volumeID !in failing
    ensures FileName(infos[i].volumeID) in MergeFiles(dir, infos, params, failing)
  {
    if i < |infos| - 1 {
      ListedHasFile(dir, infos[..|infos| - 1], params, failing, i);
    }
  }

  /** Recovery is a union: the old files, and one record per listed ID that had none, first listed wins. */
  lemma {:induction false} MergeIsUnion(dir: Dir, infos: seq<VolumeInfo>, params: Params, failing: set<string>)
    ensures IsUnion(dir, MergeFiles(dir, infos, params, failing), infos, params, failing)
  {
    MergeFilesAdds(dir, infos, params, failing);
    var merged := MergeFiles(dir, infos, params, failing);
    forall i | 0 <= i < |infos| && infos[i].volumeID != "" && infos[i].volumeID !in failing
      ensures FileName(infos[i].volumeID) in merged
    {
      ListedHasFile(dir, infos, params, failing, i);
    }
    if infos != [] {
      MergeIsUnion(dir, infos[..|infos| - 1], params, failing);
      forall n | n in merged && n !in dir
        ensures exists i :: IsFirstFor(infos, failing, n, i) && merged[n] == RecordFile(RecoveredRecord(infos[i], params))
      {
        MergeLast(dir, infos, params, failing, n);
      }
    }
  }

  lemma {:induction false} NothingToMerge(dir: Dir, infos: seq<VolumeInfo>, params: Params, failing: set<string>)
    requires forall i :: 0 <= i < |infos| && infos[i].volumeID != "" && infos[i].volumeID !in failing ==>
               FileName(infos[i].volumeID) in dir
    ensures MergeFiles(dir, infos, params, failing) == dir
  {
    if infos != [] {
      NothingToMerge(dir, infos[..|infos| - 1], params, failing);
    }
  }

  /** Recovery keeps every record file, and running it again with the same listing changes nothing. */
  lemma RecoveryOnlyAddsAndIsIdempotent(dir: Dir, infos: seq<VolumeInfo>, params: Params, w: MergeWrites)
    requires PlainOp(MergeOp(infos, params, w))
    ensures var after := Merge(dir, infos, params, w);
            && (forall n :: n in dir && n != MANIFEST ==> n in after && after[n] == dir[n])
            && Merge(after, infos, params, w) == after
  {
    var after := Merge(dir, infos, params, w);
    var merged := MergeFiles(dir, infos, Sanitize(params), w.failing);
    MergeIsUnion(dir, infos, Sanitize(params), w.failing);
    forall n | n in merged && n != MANIFEST
      ensures n in after && after[n] == merged[n]
    {
      RefreshKeepsFile(merged, n);
    }
    NothingToMerge(after, infos, Sanitize(params), w.failing);
  }

  /** Does the operation write or remove this record file on purpose? */
  predicate Targets(op: StoreOp, name: string) {
    match op
    case SaveOp(rec, _) => FileName(rec.volumeID) == name
    case DeleteOp(id, _) => FileName(id) == name
    case MergeOp(_, _, _) => false
  }

  /** However recovery interleaves with saves and deletes of other volumes, a saved record stays. */
  lemma {:induction false} SavedRecordSurvives(dir: Dir, ops: seq<StoreOp>, name: string)
    requires name in dir && name != MANIFEST
    requires forall i :: 0 <= i < |ops| ==> PlainOp(ops[i]) && !Targets(ops[i], name)
    ensures name in Run(dir, ops) && Run(dir, ops)[name] == dir[name]
  {
    if ops != [] {
      var before := Run(dir, ops[..|ops| - 1]);
      SavedRecordSurvives(dir, ops[..|ops| - 1], name);
      match ops[|ops| - 1]
      case SaveOp(rec, w) => RefreshKeepsFile(before[FileName(rec.volumeID) := RecordFile(rec)], name);
      case DeleteOp(id, w) => RefreshKeepsFile(if w.file then before - {FileName(id)} else before, name);
      case MergeOp(infos, params, w) => RecoveryOnlyAddsAndIsIdempotent(before, infos, params, w);
    }
  }

  // ---- What is read and written, file by file ----

  /** The files listAll reads: records by name that decode. */
  predicate IsListed(dir: Dir, n: string) {
    n in dir && HasSuffix(n, ".json") && n != "_manifest.json" && AsRecord(dir[n]).Some?
  }

  lemma {:induction false} RecordsAreListed(dir: Dir, names: seq<string>) returns (listed: seq<string>)
    ensures |listed| == |RecordsIn(dir, names)|
    ensures forall i :: 0 <= i < |listed| ==> IsListed(dir, listed[i]) && RecordsIn(dir, names)[i] == AsRecord(dir[listed[i]]).value
    ensures forall n :: n in listed <==> n in names && IsListed(dir, n)
    ensures Ascending(names) ==> Ascending(listed)
  {
    listed := [];
    if names != [] {
      var init, last := names[..|names| - 1], names[|names| - 1];
      assert names == init + [last];
      listed := RecordsAreListed(dir, init);
      if IsListed(dir, last) {
        if Ascending(names) {
          AscendingAppend(listed, init, last);
        }
        listed := listed + [last];
      }
    }
  }

  lemma AscendingAppend(listed: seq<string>, init: seq<string>, last: string)
    requires Ascending(init + [last]) && (Ascending(init) ==> Ascending(listed)) && forall n :: n in listed ==> n in init
    ensures Ascending(init) && Ascending(listed + [last])
  {
    var names := init + [last];
    forall i, j | 0 <= i < j < |init| ensures Less(init[i], init[j]) {
      assert names[i] == init[i] && names[j] == init[j];
    }
    forall i, j | 0 <= i < j < |listed + [last]| ensures Less((listed + [last])[i], (listed + [last])[j]) {
      if j == |listed| {
        assert listed[i] in init;
        var k :| 0 <= k < |init| && init[k] == listed[i];
        assert names[k] == init[k] && names[|init|] == last;
      }
    }
  }

  /** The records are those of the listed files, one each, in ascending order of file name. */
  lemma RecordsAreTheListedFiles(dir: Dir) returns (listed: seq<string>)
    ensures Ascending(listed) && forall n :: n in listed <==> IsListed(dir, n)
    ensures |listed| == |Records(dir)|
    ensures forall i :: 0 <= i < |listed| ==> IsListed(dir, listed[i]) && Records(dir)[i] == AsRecord(dir[listed[i]]).value
  {
    forall i, j | 0 <= i < j < |Sorted(dir.Keys)| ensures Less(Sorted(dir.Keys)[i], Sorted(dir.Keys)[j]) {
      SortedIsAscending(dir.Keys, i, j);
    }
    listed := RecordsAreListed(dir, Sorted(dir.Keys));
  }

  lemma {:induction false} IdsAre(recs: seq<VolumeRecord>)
    ensures |Ids(recs)| == |recs| && forall i :: 0 <= i < |recs| ==> Ids(recs)[i] == recs[i].volumeID
  {
    if recs != [] {
      IdsAre(recs[..|recs| - 1]);
    }
  }

  // ---- Which parameters ----

  /** The first record whose parameters name a provider supplies them. */
  lemma {:induction false} FirstParamsAreFirst(recs: seq<VolumeRecord>, params: Params)
    ensures FirstParams(recs) == Some(params) <==>
              exists i :: 0 <= i < |recs| && recs[i].params == params && Get(params, "cloudProvider") != ""
                          && forall j :: 0 <= j < i ==> Get(recs[j].params, "cloudProvider") == ""
  {
    if recs != [] && Get(recs[0].params, "cloudProvider") == "" {
      var rest := recs[1..];
      FirstParamsAreFirst(rest, params);
      assert forall j :: 0 < j < |recs| ==> recs[j] == rest[j - 1];
      if FirstParams(rest) == Some(params) {
        var i :| 0 <= i < |rest| && rest[i].params == params && Get(params, "cloudProvider") != ""
                 && forall j :: 0 <= j < i ==> Get(rest[j].params, "cloudProvider") == "";
        assert recs[i + 1] == rest[i];
        assert forall j :: 0 <= j < i + 1 ==> Get(recs[j].params, "cloudProvider") == "";
      }
      if exists i :: 0 <= i < |recs| && recs[i].params == params && Get(params, "cloudProvider") != ""
                     && forall j :: 0 <= j < i ==> Get(recs[j].params, "cloudProvider") == "" {
        var i :| 0 <= i < |recs| && recs[i].params == params && Get(params, "cloudProvider") != ""
                 && forall j :: 0 <= j < i ==> Get(recs[j].params, "cloudProvider") == "";
        assert rest[i - 1] == recs[i];
        assert forall j :: 0 <= j < i - 1 ==> rest[j] == recs[j + 1];
      }
    } else if recs != [] {
      assert FirstParams(recs) == Some(recs[0].params);
    }
  }

  /** Records go before the manifest, and the manifest before the environment's parameters. */
  lemma BootstrapOrder(atRecords: Dir, atManifest: Dir, external: Option<Params>)
    ensures var found := BootstrapParams(atRecords, atManifest, external);
            if exists i :: 0 <= i < |Records(atRecords)| && Get(Records(atRecords)[i].params, "cloudProvider") != "" then
              found.Some? && found == FirstParams(Records(atRecords))
            else if ReadManifest(atManifest).Some? && Get(ReadManifest(atManifest).value.params, "cloudProvider") != "" then
              found == Some(ReadManifest(atManifest).value.params)
            else found == external
  {
    NoParamsIff(Records(atRecords));
  }

  lemma {:induction false} NoParamsIff(recs: seq<VolumeRecord>)
    ensures FirstParams(recs).None? <==> forall i :: 0 <= i < |recs| ==> Get(recs[i].params, "cloudProvider") == ""
  {
    if recs != [] {
      NoParamsIff(recs[1..]);
      assert forall i :: 0 < i < |recs| ==> recs[i] == recs[1..][i - 1];
    }
  }

  /**
   What a manifest rewrite leaves: with records, the first provider's parameters among them, or else the
   ones it had, or none, without credentials; without records, the usable parameters it had, or no file.
   */
  lemma RefreshedManifestIs(dir: Dir)
    ensures var first := FirstParams(Records(dir));
            var kept := if ReadManifest(dir).Some? && Get(ReadManifest(dir).value.params, "cloudProvider") != ""
                        then Some(ReadManifest(dir).value.params) else None;
            if Records(dir) != [] then
              ReadManifest(Refresh(dir)) ==
                Some(VolumeManifest(if first.Some? then Sanitize(first.value) else if kept.Some? then Sanitize(kept.value) else map[],
                                    Ids(Records(dir))))
            else if kept.Some? then ReadManifest(Refresh(dir)) == Some(VolumeManifest(kept.value, []))
            else "_manifest.json" !in Refresh(dir)
  {
  }

  /** Only the two AWS credentials are taken out. */
  lemma SanitizeTakesOutCredentials(params: Params, key: string)
    ensures key in Sanitize(params) <==> key in params && key != "awsAccessKeyId" && key != "awsSecretKey"
    ensures key in Sanitize(params) ==> Sanitize(params)[key] == params[key]
  {
  }

  /** A save whose file write fails changes nothing; one whose manifest write fails leaves the manifest. */
  lemma SaveIsInOrder(dir: Dir, rec: VolumeRecord, w: Writes)
    requires FileName(rec.volumeID) != MANIFEST
    ensures !w.file ==> Save(dir, rec, w) == dir
    ensures w.file ==> Load(Save(dir, rec, w), rec.volumeID) == Ok(rec)
    ensures w.file && !w.manifest ==> ReadManifest(Save(dir, rec, w)) == ReadManifest(dir)
  {
    var written := dir[FileName(rec.volumeID) := RecordFile(rec)];
    RefreshKeepsFile(written, FileName(rec.volumeID));
    SameManifest(dir, written);
  }

  /** Loading tells a missing file from one that does not decode. */
  lemma LoadTells(dir: Dir, id: string)
    ensures Load(dir, id) == Err(NotExist) <==> id + ".json" !in dir
    ensures Load(dir, id) == Err(Unreadable) <==> id + ".json" in dir && dir[id + ".json"].Corrupt?
  {
  }
}
