/**
 The AWS provider's clone protocol: a volume is cloned through a temporary snapshot named after the
 new volume. Volumes and snapshots are listed in server order with their CSI tag. A create or delete
 call may fail, or take effect and lose its reply.
 */
module AwsClone {
  import opened Basics

  datatype Item = Item(id: string, tag: string)

  datatype Cloud = Cloud(volumes: seq<Item>, snapshots: seq<Item>)

  datatype Error =
    | NoZone
    | DescribeVolumesFailed
    | VolumeNotFound
    | CreateSnapshotFailed
    | DescribeSnapshotsFailed
    | SnapshotNotFound
    | AmbiguousSnapshot
    | CreateVolumeFailed
    | DeleteSnapshotFailed

  /** A describe call filtered by tag. */
  function Tagged(items: seq<Item>, tag: string): seq<Item> {
    if items == [] then []
    else Tagged(items[..|items| - 1], tag) + (if items[|items| - 1].tag == tag then [items[|items| - 1]] else [])
  }

  function Without(items: seq<Item>, id: string): seq<Item> {
    if items == [] then []
    else Without(items[..|items| - 1], id) + (if items[|items| - 1].id == id then [] else [items[|items| - 1]])
  }

  predicate IsFresh(items: seq<Item>, id: string) {
    forall i :: 0 <= i < |items| ==> items[i].id != id
  }

  function CloneTag(volumeID: string): string {
    "clone-" + volumeID
  }

  /** findEBSVolumeID and GetVolumeInfo: the first volume with the tag. */
  function FindVolume(c: Cloud, volumeID: string, describeOk: bool): Result<string, Error> {
    if !describeOk then Err(DescribeVolumesFailed)
    else if Tagged(c.volumes, volumeID) == [] then Err(VolumeNotFound)
    else Ok(Tagged(c.volumes, volumeID)[0].id)
  }

  /** findEBSSnapshotID: exactly one snapshot with the tag. */
  function FindSnapshot(c: Cloud, snapshotID: string, describeOk: bool): Result<string, Error> {
    if !describeOk then Err(DescribeSnapshotsFailed)
    else
      var found := Tagged(c.snapshots, snapshotID);
      if |found| == 0 then Err(SnapshotNotFound)
      else if |found| > 1 then Err(AmbiguousSnapshot)
      else Ok(found[0].id)
  }

  /** What becomes of a create call. An ID that is taken makes nothing. */
  datatype Making = NotMade | Made(id: string, replyLost: bool)

  predicate TakesEffect(items: seq<Item>, o: Making) {
    o.Made? && IsFresh(items, o.id)
  }

  function After(items: seq<Item>, tag: string, o: Making): seq<Item> {
    if TakesEffect(items, o) then items + [Item(o.id, tag)] else items
  }

  predicate Answered(items: seq<Item>, o: Making) {
    TakesEffect(items, o) && !o.replyLost
  }

  datatype Dropping = Refused | Dropped(replyLost: bool)

  function CreateSnapshot(c: Cloud, source: string, snapshotID: string, describeOk: bool, o: Making): (Cloud, Result<Unit, Error>) {
    match FindVolume(c, source, describeOk)
    case Err(e) => (c, Err(e))
    case Ok(_) =>
      (c.(snapshots := After(c.snapshots, snapshotID, o)),
       if Answered(c.snapshots, o) then Ok(Unit) else Err(CreateSnapshotFailed))
  }

  function DeleteSnapshot(c: Cloud, snapshotID: string, describeOk: bool, o: Dropping): (Cloud, Result<Unit, Error>) {
    match FindSnapshot(c, snapshotID, describeOk)
    case Err(SnapshotNotFound) => (c, Ok(Unit))
    case Err(e) => (c, Err(e))
    case Ok(id) =>
      match o
      case Refused => (c, Err(DeleteSnapshotFailed))
      case Dropped(replyLost) =>
        (c.(snapshots := Without(c.snapshots, id)), if replyLost then Err(DeleteSnapshotFailed) else Ok(Unit))
  }

  datatype FromSnapshotCalls = FromSnapshotCalls(present: bool, info: bool, find: bool, create: Making)

  function CreateVolumeFromSnapshot(c: Cloud, zone: string, volumeID: string, snapshotID: string, f: FromSnapshotCalls): (Cloud, Result<string, Error>) {
    if zone == "" then (c, Err(NoZone))
    else if !f.present then (c, Err(DescribeVolumesFailed))
    else if Tagged(c.volumes, volumeID) != [] then (c, FindVolume(c, volumeID, f.info))
    else
      match FindSnapshot(c, snapshotID, f.find)
      case Err(e) => (c, Err(e))
      case Ok(_) =>
        (c.(volumes := After(c.volumes, volumeID, f.create)),
         if Answered(c.volumes, f.create) then Ok(f.create.id) else Err(CreateVolumeFailed))
  }

  datatype CloneCalls = CloneCalls(
    present: bool,
    info: bool,
    source: bool,
    snapshot: Making,
    resolve: bool,
    build: FromSnapshotCalls,
    cleanupFind: bool,
    cleanupDelete: Dropping)

  /** CreateVolumeFromVolume. Tagging and waiting for the snapshot never stop it. */
  function Clone(c: Cloud, zone: string, volumeID: string, source: string, f: CloneCalls): (Cloud, Result<string, Error>) {
    if zone == "" then (c, Err(NoZone))
    else if !f.present then (c, Err(DescribeVolumesFailed))
    else if Tagged(c.volumes, volumeID) != [] then (c, FindVolume(c, volumeID, f.info))
    else
      var temp := CloneTag(volumeID);
      var (c1, snapped) := CreateSnapshot(c, source, temp, f.source, f.snapshot);
      match snapped
      case Err(e) => (c1, Err(e))
      case Ok(_) =>
        match FindSnapshot(c1, temp, f.resolve)
        case Err(e) => (DeleteSnapshot(c1, temp, f.cleanupFind, f.cleanupDelete).0, Err(e))
        case Ok(_) =>
          var (c2, built) := CreateVolumeFromSnapshot(c1, zone, volumeID, temp, f.build);
          (DeleteSnapshot(c2, temp, f.cleanupFind, f.cleanupDelete).0, built)
  }

  /** The EC2 client and the zone of an AWSProvider. */
  class AWSProvider {
    const zone: string
    var cloud: Cloud

    constructor (zone: string, cloud: Cloud)
      ensures this.zone == zone && this.cloud == cloud
    {
      this.zone := zone;
      this.cloud := cloud;
    }

    method TakeSnapshot(source: string, snapshotID: string, describeOk: bool, o: Making) returns (r: Result<Unit, Error>)
      modifies this
      ensures (cloud, r) == CreateSnapshot(old(cloud), source, snapshotID, describeOk, o)
    {
      var ebsVolume := FindVolume(cloud, source, describeOk);
      if ebsVolume.Err? {
        return Err(ebsVolume.error);
      }
      var answered := Answered(cloud.snapshots, o);
      cloud := cloud.(snapshots := After(cloud.snapshots, snapshotID, o));
      if !answered {
        return Err(CreateSnapshotFailed);
      }
      return Ok(Unit);
    }

    method DropSnapshot(snapshotID: string, describeOk: bool, o: Dropping) returns (r: Result<Unit, Error>)
      modifies this
      ensures (cloud, r) == DeleteSnapshot(old(cloud), snapshotID, describeOk, o)
    {
      var found := FindSnapshot(cloud, snapshotID, describeOk);
      if found == Err(SnapshotNotFound) {
        return Ok(Unit);
      }
      if found.Err? {
        return Err(found.error);
      }
      if o.Refused? {
        return Err(DeleteSnapshotFailed);
      }
      cloud := cloud.(snapshots := Without(cloud.snapshots, found.value));
      if o.replyLost {
        return Err(DeleteSnapshotFailed);
      }
      return Ok(Unit);
    }

    method VolumeFromSnapshot(volumeID: string, snapshotID: string, f: FromSnapshotCalls) returns (r: Result<string, Error>)
      modifies this
      ensures (cloud, r) == CreateVolumeFromSnapshot(old(cloud), zone, volumeID, snapshotID, f)
    {
      if zone == "" {
        return Err(NoZone);
      }
      if !f.present {
        return Err(DescribeVolumesFailed);
      }
      if |Tagged(cloud.volumes, volumeID)| > 0 {
        return FindVolume(cloud, volumeID, f.info);
      }
      var ebsSnapshot := FindSnapshot(cloud, snapshotID, f.find);
      if ebsSnapshot.Err? {
        return Err(ebsSnapshot.error);
      }
      var answered := Answered(cloud.volumes, f.create);
      cloud := cloud.(volumes := After(cloud.volumes, volumeID, f.create));
      if !answered {
        return Err(CreateVolumeFailed);
      }
      return Ok(f.create.id);
    }

    method CreateVolumeFromVolume(volumeID: string, source: string, f: CloneCalls) returns (r: Result<string, Error>)
      modifies this
      ensures (cloud, r) == Clone(old(cloud), zone, volumeID, source, f)
    {
      if zone == "" {
        return Err(NoZone);
      }
      if !f.present {
        return Err(DescribeVolumesFailed);
      }
      if |Tagged(cloud.volumes, volumeID)| > 0 {
        return FindVolume(cloud, volumeID, f.info);
      }
      var temp := CloneTag(volumeID);
      var snapped := TakeSnapshot(source, temp, f.source, f.snapshot);
      if snapped.Err? {
        return Err(snapped.error);
      }
      var resolved := FindSnapshot(cloud, temp, f.resolve);
      if resolved.Err? {
        var ignored := DropSnapshot(temp, f.cleanupFind, f.cleanupDelete);
        return Err(resolved.error);
      }
      r := VolumeFromSnapshot(volumeID, temp, f.build);
      var cleaned := DropSnapshot(temp, f.cleanupFind, f.cleanupDelete);
    }
  }

  // ---- Laws ----

  lemma TaggedAppend(items: seq<Item>, x: Item, tag: string)
    ensures Tagged(items + [x], tag) == Tagged(items, tag) + (if x.tag == tag then [x] else [])
  {
    assert (items + [x])[..|items + [x]| - 1] == items;
  }

  lemma {:induction false} WithoutFresh(items: seq<Item>, id: string)
    requires IsFresh(items, id)
    ensures Without(items, id) == items
  {
    if items != [] {
      WithoutFresh(items[..|items| - 1], id);
    }
  }

  lemma WithoutAppend(items: seq<Item>, x: Item)
    requires IsFresh(items, x.id)
    ensures Without(items + [x], x.id) == items
  {
    assert (items + [x])[..|items + [x]| - 1] == items;
    WithoutFresh(items, x.id);
  }

  /** Every snapshot describe succeeds, and the clean-up's delete takes effect. */
  predicate SnapshotCallsSucceed(f: CloneCalls) {
    f.resolve && f.build.find && f.cleanupFind && f.cleanupDelete.Dropped?
  }

  /** Whether the clone's temporary snapshot comes into being. */
  predicate TakesSnapshot(c: Cloud, zone: string, volumeID: string, source: string, f: CloneCalls) {
    && zone != "" && f.present && Tagged(c.volumes, volumeID) == []
    && FindVolume(c, source, f.source).Ok? && TakesEffect(c.snapshots, f.snapshot)
  }

  lemma AppendedIsTagged(items: seq<Item>, tag: string, o: Making)
    ensures |Tagged(After(items, tag, o), tag)| == |Tagged(items, tag)| + if TakesEffect(items, o) then 1 else 0
    ensures Tagged(items, tag) == [] && TakesEffect(items, o) ==> Tagged(After(items, tag, o), tag) == [Item(o.id, tag)]
  {
    if TakesEffect(items, o) {
      TaggedAppend(items, Item(o.id, tag), tag);
    }
  }

  /** The clean-up removes a new snapshot exactly if it is the only one of its name. */
  lemma CleanupUndoes(c: Cloud, before: seq<Item>, x: Item, o: Dropping)
    requires c.snapshots == before + [x] && IsFresh(before, x.id) && o.Dropped?
    ensures DeleteSnapshot(c, x.tag, true, o).0.snapshots == if Tagged(before, x.tag) == [] then before else before + [x]
  {
    TaggedAppend(before, x, x.tag);
    WithoutAppend(before, x);
  }

  /** With the reply of its snapshot arriving, a clone ends with its clean-up. */
  lemma CloneEndsWithCleanup(c: Cloud, zone: string, volumeID: string, source: string, f: CloneCalls) returns (last: Cloud)
    requires TakesSnapshot(c, zone, volumeID, source, f) && !f.snapshot.replyLost
    ensures last.snapshots == c.snapshots + [Item(f.snapshot.id, CloneTag(volumeID))]
    ensures Clone(c, zone, volumeID, source, f).0 == DeleteSnapshot(last, CloneTag(volumeID), f.cleanupFind, f.cleanupDelete).0
  {
    var temp := CloneTag(volumeID);
    var c1 := CreateSnapshot(c, source, temp, f.source, f.snapshot).0;
    last := if FindSnapshot(c1, temp, f.resolve).Err? then c1 else CreateVolumeFromSnapshot(c1, zone, volumeID, temp, f.build).0;
  }

  /**
   With its describes succeeding and its delete taking effect, a clone leaves the snapshots as they were
   exactly when it takes none, or takes one whose reply arrives while no snapshot had the temporary name
   before. Otherwise the new snapshot stays behind.
   */
  lemma CloneLeavesNoSnapshotIff(c: Cloud, zone: string, volumeID: string, source: string, f: CloneCalls)
    requires SnapshotCallsSucceed(f)
    ensures Clone(c, zone, volumeID, source, f).0.snapshots == c.snapshots <==>
              (TakesSnapshot(c, zone, volumeID, source, f) ==>
                 Tagged(c.snapshots, CloneTag(volumeID)) == [] && !f.snapshot.replyLost)
  {
    if TakesSnapshot(c, zone, volumeID, source, f) && !f.snapshot.replyLost {
      var last := CloneEndsWithCleanup(c, zone, volumeID, source, f);
      CleanupUndoes(last, c.snapshots, Item(f.snapshot.id, CloneTag(volumeID)), f.cleanupDelete);
    }
  }

  /** Once a snapshot with the temporary name stays behind, every retry fails and leaves one behind. */
  lemma LeftSnapshotBlocksClones(c: Cloud, zone: string, volumeID: string, source: string, f: CloneCalls)
    requires Tagged(c.volumes, volumeID) == [] && Tagged(c.snapshots, CloneTag(volumeID)) != []
    ensures var (c', r) := Clone(c, zone, volumeID, source, f);
            r.Err? && c'.volumes == c.volumes && Tagged(c'.snapshots, CloneTag(volumeID)) != []
  {
    AppendedIsTagged(c.snapshots, CloneTag(volumeID), f.snapshot);
  }

  lemma SnapshotCallsKeepVolumes(c: Cloud, source: string, snapshotID: string, findOk: bool, made: Making, dropped: Dropping)
    ensures CreateSnapshot(c, source, snapshotID, findOk, made).0.volumes == c.volumes
    ensures DeleteSnapshot(c, snapshotID, findOk, dropped).0.volumes == c.volumes
  {
  }

  /**
   A clone adds exactly one volume if it freshly succeeds or only the reply of its last call is lost, and
   none otherwise, whatever calls fail.
   */
  lemma CloneAddsOneVolumeOrNone(c: Cloud, zone: string, volumeID: string, source: string, f: CloneCalls)
    ensures var (c', r) := Clone(c, zone, volumeID, source, f);
            && (r.Ok? && Tagged(c.volumes, volumeID) == [] ==>
                  c'.volumes == c.volumes + [Item(r.value, volumeID)] && IsFresh(c.volumes, r.value))
            && (c'.volumes != c.volumes ==>
                  && Tagged(c.volumes, volumeID) == [] && TakesEffect(c.volumes, f.build.create)
                  && c'.volumes == c.volumes + [Item(f.build.create.id, volumeID)]
                  && (r.Ok? <==> !f.build.create.replyLost))
  {
    if TakesSnapshot(c, zone, volumeID, source, f) {
      var temp := CloneTag(volumeID);
      var c1 := CreateSnapshot(c, source, temp, f.source, f.snapshot).0;
      SnapshotCallsKeepVolumes(c, source, temp, f.source, f.snapshot, f.cleanupDelete);
      SnapshotCallsKeepVolumes(c1, source, temp, f.cleanupFind, f.snapshot, f.cleanupDelete);
      var c2 := CreateVolumeFromSnapshot(c1, zone, volumeID, temp, f.build).0;
      SnapshotCallsKeepVolumes(c2, source, temp, f.cleanupFind, f.snapshot, f.cleanupDelete);
    }
  }

  /**
   After a clone that succeeded, or added its volume and lost the reply, a retry changes nothing and
   answers that volume.
   */
  lemma CloneRetryChangesNothing(c: Cloud, zone: string, volumeID: string, source: string, f: CloneCalls, again: CloneCalls)
    requires var (c', r) := Clone(c, zone, volumeID, source, f); r.Ok? || c'.volumes != c.volumes
    requires again.present
    ensures var (c', r) := Clone(c, zone, volumeID, source, f);
            var (c'', r'') := Clone(c', zone, volumeID, source, again);
            && c'' == c'
            && (again.info && r.Ok? ==> r'' == r)
            && (again.info && c'.volumes != c.volumes ==> r'' == Ok(f.build.create.id))
  {
    var (c', r) := Clone(c, zone, volumeID, source, f);
    CloneAddsOneVolumeOrNone(c, zone, volumeID, source, f);
    if c'.volumes != c.volumes {
      TaggedAppend(c.volumes, Item(f.build.create.id, volumeID), volumeID);
    }
  }

  // ---- When the calls succeed ----

  /** With its snapshot taken and unambiguous, a clone answers what its build answers, and cleans up. */
  lemma CloneIsBuild(c: Cloud, zone: string, volumeID: string, source: string, f: CloneCalls) returns (built: Cloud)
    requires zone != "" && f.present && Tagged(c.volumes, volumeID) == [] && FindVolume(c, source, f.source).Ok?
    requires Answered(c.snapshots, f.snapshot) && f.resolve && Tagged(c.snapshots, CloneTag(volumeID)) == []
    ensures var x := Item(f.snapshot.id, CloneTag(volumeID));
            var c1 := c.(snapshots := c.snapshots + [x]);
            var (c', r) := Clone(c, zone, volumeID, source, f);
            && Tagged(c1.snapshots, CloneTag(volumeID)) == [x]
            && built == CreateVolumeFromSnapshot(c1, zone, volumeID, CloneTag(volumeID), f.build).0
            && r == CreateVolumeFromSnapshot(c1, zone, volumeID, CloneTag(volumeID), f.build).1
            && c' == DeleteSnapshot(built, CloneTag(volumeID), f.cleanupFind, f.cleanupDelete).0
  {
    AppendedIsTagged(c.snapshots, CloneTag(volumeID), f.snapshot);
    var c1 := c.(snapshots := c.snapshots + [Item(f.snapshot.id, CloneTag(volumeID))]);
    built := CreateVolumeFromSnapshot(c1, zone, volumeID, CloneTag(volumeID), f.build).0;
  }

  /** Otherwise it fails. */
  lemma CloneFails(c: Cloud, zone: string, volumeID: string, source: string, f: CloneCalls)
    requires Tagged(c.volumes, volumeID) == []
    requires !(zone != "" && f.present && FindVolume(c, source, f.source).Ok? && Answered(c.snapshots, f.snapshot)
               && f.resolve && Tagged(c.snapshots, CloneTag(volumeID)) == [])
    ensures Clone(c, zone, volumeID, source, f).1.Err?
  {
    AppendedIsTagged(c.snapshots, CloneTag(volumeID), f.snapshot);
  }

  /**
   A clone to a name without a volume succeeds exactly if its zone is set, the source is found, the
   snapshot's reply arrives with no earlier snapshot of the temporary name, both lookups of that answer,
   and the volume's creation takes effect with its reply. It answers that volume, adds it, and ends with
   the snapshots it started with exactly if the clean-up's lookup answers and its delete takes effect.
   */
  lemma CloneSucceedsIff(c: Cloud, zone: string, volumeID: string, source: string, f: CloneCalls)
    requires Tagged(c.volumes, volumeID) == []
    ensures var (c', r) := Clone(c, zone, volumeID, source, f);
            && (r.Ok? <==>
                  && zone != "" && f.present && f.source && Tagged(c.volumes, source) != []
                  && f.snapshot.Made? && IsFresh(c.snapshots, f.snapshot.id) && !f.snapshot.replyLost
                  && Tagged(c.snapshots, "clone-" + volumeID) == []
                  && f.resolve && f.build.present && f.build.find
                  && f.build.create.Made? && IsFresh(c.volumes, f.build.create.id) && !f.build.create.replyLost)
            && (r.Ok? ==>
                  && r.value == f.build.create.id && c'.volumes == c.volumes + [Item(r.value, volumeID)]
                  && c'.snapshots == (if f.cleanupFind && f.cleanupDelete.Dropped? then c.snapshots
                                      else c.snapshots + [Item(f.snapshot.id, "clone-" + volumeID)]))
  {
    var temp := CloneTag(volumeID);
    if zone != "" && f.present && FindVolume(c, source, f.source).Ok? && Answered(c.snapshots, f.snapshot)
       && f.resolve && Tagged(c.snapshots, temp) == [] {
      var x := Item(f.snapshot.id, temp);
      var built := CloneIsBuild(c, zone, volumeID, source, f);
      BuildSucceedsIff(c.(snapshots := c.snapshots + [x]), zone, volumeID, temp, f.build);
      SnapshotCallsKeepVolumes(built, source, temp, f.cleanupFind, f.snapshot, f.cleanupDelete);
      if f.cleanupFind && f.cleanupDelete.Dropped? {
        CleanupUndoes(built, c.snapshots, x, f.cleanupDelete);
      }
    } else {
      CloneFails(c, zone, volumeID, source, f);
    }
  }

  /** A volume is built from a snapshot exactly if there is one of that name and all calls take effect. */
  lemma BuildSucceedsIff(c: Cloud, zone: string, volumeID: string, snapshotID: string, f: FromSnapshotCalls)
    requires Tagged(c.volumes, volumeID) == []
    ensures var (c', r) := CreateVolumeFromSnapshot(c, zone, volumeID, snapshotID, f);
            && c'.snapshots == c.snapshots
            && (r.Ok? <==>
                  && zone != "" && f.present && f.find && |Tagged(c.snapshots, snapshotID)| == 1
                  && f.create.Made? && IsFresh(c.volumes, f.create.id) && !f.create.replyLost)
            && (r.Ok? ==> r.value == f.create.id && c'.volumes == c.volumes + [Item(r.value, volumeID)])
  {
  }

  /** A volume that exists is reused, from a snapshot or a clone alike, and nothing changes. */
  lemma ExistingVolumeIsReused(c: Cloud, zone: string, volumeID: string, other: string, f: FromSnapshotCalls, g: CloneCalls)
    requires Tagged(c.volumes, volumeID) != [] && zone != ""
    ensures var answer := Ok(Tagged(c.volumes, volumeID)[0].id);
            && (f.present && f.info ==> CreateVolumeFromSnapshot(c, zone, volumeID, other, f) == (c, answer))
            && (g.present && g.info ==> Clone(c, zone, volumeID, other, g) == (c, answer))
    ensures !f.present || !f.info ==> CreateVolumeFromSnapshot(c, zone, volumeID, other, f) == (c, Err(DescribeVolumesFailed))
    ensures !g.present || !g.info ==> Clone(c, zone, volumeID, other, g) == (c, Err(DescribeVolumesFailed))
  {
  }

  /** A snapshot is taken exactly if its source is found and the creation takes effect with its reply. */
  lemma SnapshotSucceedsIff(c: Cloud, source: string, snapshotID: string, describeOk: bool, o: Making)
    ensures var (c', r) := CreateSnapshot(c, source, snapshotID, describeOk, o);
            && (r.Ok? <==> describeOk && Tagged(c.volumes, source) != [] && o.Made? && IsFresh(c.snapshots, o.id) && !o.replyLost)
            && (r.Ok? ==> c'.snapshots == c.snapshots + [Item(o.id, snapshotID)])
  {
  }

  predicate UniqueIDs(items: seq<Item>) {
    forall i, j :: 0 <= i < j < |items| ==> items[i].id != items[j].id
  }

  /**
   Deleting a snapshot by name succeeds exactly if there is none, or one and the call takes effect with
   its reply. Afterwards there is none of that name, and all others are still there.
   */
  lemma DropSucceedsIff(c: Cloud, snapshotID: string, describeOk: bool, o: Dropping)
    requires UniqueIDs(c.snapshots)
    ensures var (c', r) := DeleteSnapshot(c, snapshotID, describeOk, o);
            && (r.Ok? <==> describeOk && (|| Tagged(c.snapshots, snapshotID) == []
                                          || (|Tagged(c.snapshots, snapshotID)| == 1 && o == Dropped(false))))
            && (r.Ok? ==> Tagged(c'.snapshots, snapshotID) == [])
            && (forall x :: x in c'.snapshots <== x in c.snapshots && x.tag != snapshotID)
            && (forall x :: x in c'.snapshots ==> x in c.snapshots)
  {
    var found := Tagged(c.snapshots, snapshotID);
    if describeOk && |found| == 1 && o.Dropped? {
      TaggedIsMember(c.snapshots, snapshotID, found[0]);
      NoneLeft(c.snapshots, snapshotID, found[0]);
      forall x: Item ensures x in Without(c.snapshots, found[0].id) <==> x in c.snapshots && x.id != found[0].id {
        WithoutIsMember(c.snapshots, found[0].id, x);
      }
    }
  }

  lemma NoneLeft(items: seq<Item>, tag: string, x: Item)
    requires Tagged(items, tag) == [x]
    ensures Tagged(Without(items, x.id), tag) == []
  {
    var left := Tagged(Without(items, x.id), tag);
    if left != [] {
      FirstIsMember(left);
      TaggedIsMember(Without(items, x.id), tag, left[0]);
      WithoutIsMember(items, x.id, left[0]);
      TaggedIsMember(items, tag, left[0]);
    }
  }

  lemma FirstIsMember(items: seq<Item>)
    ensures items != [] ==> items[0] in items
  {
  }

  lemma {:induction false} TaggedIsMember(items: seq<Item>, tag: string, x: Item)
    ensures x in Tagged(items, tag) <==> x in items && x.tag == tag
  {
    if items != [] {
      TaggedIsMember(items[..|items| - 1], tag, x);
      assert items == items[..|items| - 1] + [items[|items| - 1]];
    }
  }

  lemma {:induction false} WithoutIsMember(items: seq<Item>, id: string, x: Item)
    ensures x in Without(items, id) <==> x in items && x.id != id
  {
    if items != [] {
      WithoutIsMember(items[..|items| - 1], id, x);
      assert items == items[..|items| - 1] + [items[|items| - 1]];
    }
  }

  /** The first volume with the tag is the one found; a failed describe is not an absence. */
  lemma FindVolumeIff(c: Cloud, volumeID: string, describeOk: bool)
    ensures FindVolume(c, volumeID, describeOk).Ok? <==> describeOk && exists i :: 0 <= i < |c.volumes| && c.volumes[i].tag == volumeID
    ensures FindVolume(c, volumeID, describeOk).Ok? ==>
              exists i :: 0 <= i < |c.volumes| && c.volumes[i] == Item(FindVolume(c, volumeID, describeOk).value, volumeID)
                          && forall j :: 0 <= j < i ==> c.volumes[j].tag != volumeID
  {
    FirstTagged(c.volumes, volumeID);
  }

  lemma {:induction false} FirstTagged(items: seq<Item>, tag: string)
    ensures Tagged(items, tag) == [] <==> forall i :: 0 <= i < |items| ==> items[i].tag != tag
    ensures Tagged(items, tag) != [] ==>
              exists i :: 0 <= i < |items| && items[i] == Tagged(items, tag)[0] && items[i].tag == tag
                          && forall j :: 0 <= j < i ==> items[j].tag != tag
  {
    if items != [] {
      var init, last := items[..|items| - 1], |items| - 1;
      FirstTagged(init, tag);
      if Tagged(init, tag) != [] {
        var i :| 0 <= i < |init| && init[i] == Tagged(init, tag)[0] && init[i].tag == tag
                 && forall j :: 0 <= j < i ==> init[j].tag != tag;
        assert items[i] == init[i];
      } else {
        assert forall j :: 0 <= j < last ==> items[j] == init[j];
        assert items[last].tag == tag ==> items[last] == Tagged(items, tag)[0];
      }
    }
  }
}
