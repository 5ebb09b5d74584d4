/**
 The node server over every run: what is on disk for a target is exactly what the history of stage,
 publish, unpublish and restart events says, and cleanup removes exactly the stale entries.
 */
module NodeServerLaws {
  import opened Basics
  import opened Base64Url
  import opened NodeServer
  import opened Decimal

  datatype Event =
    | StageEvent(volumeID: string, staging: Path, created: Option<string>)
    | UnstageEvent(volumeID: string, staging: Path)
    | PublishEvent(volumeID: string, target: Path, context: Params, publishIo: PublishIo)
    | UnpublishEvent(target: Path, unpublishIo: UnpublishIo)
    | RestartEvent(cleanIo: CleanIo)
    | OthersEvent(paths: set<Path>)   // other processes create and remove paths

  function Step(s: NodeState, e: Event): NodeState {
    match e
    case StageEvent(v, staging, created) => Stage(s, v, staging, created).0
    case UnstageEvent(v, staging) => Unstage(s, v, staging).0
    case PublishEvent(v, target, context, io) => Publish(s, v, target, context, io).0
    case UnpublishEvent(target, io) => Unpublish(s, target, io).0
    case RestartEvent(io) => Restart(s, io)
    case OthersEvent(paths) => s.(paths := paths)
  }

  function Run(s: NodeState, es: seq<Event>): NodeState {
    if es == [] then s else Step(Run(s, es[..|es| - 1]), es[|es| - 1])
  }

  ghost predicate Fresh(s: NodeState) {
    s.devices == map[] && s.mounts == map[]
  }

  // ---- The history, per volume and per target ----

  /** One event's effect on the device a volume is staged on. */
  function DeviceAfter(earlier: string, e: Event, volumeID: string): string {
    match e
    case StageEvent(v, staging, created) =>
      if v == volumeID && v != "" && staging != [] && created.Some? then created.value else earlier
    case UnstageEvent(v, staging) => if v == volumeID && v != "" && staging != [] then "" else earlier
    case RestartEvent(_) => ""
    case _ => earlier
  }

  /** The device a volume is staged on after the events: its last stage since an unstage or restart. */
  function StagedOn(es: seq<Event>, volumeID: string): string {
    if es == [] then "" else DeviceAfter(StagedOn(es[..|es| - 1], volumeID), es[|es| - 1], volumeID)
  }

  /** Does this event, with its volume staged on `device`, write a mountInfo for the target? */
  predicate WritesInfo(e: Event, device: string, target: Path) {
    && e.PublishEvent? && e.target == target && target != [] && e.volumeID != "" && device != ""
    && e.publishIo.mkdir && e.publishIo.write
  }

  /** The volume an event is about. */
  function VolumeOf(e: Event): string {
    match e
    case PublishEvent(v, _, _, _) => v
    case _ => ""
  }

  /** The path is a directory above the target. */
  predicate IsAncestor(path: Path, target: Path) {
    0 < |path| < |target| && path <= target && target[|path|] == SLASH
  }

  /** One event's effect on a path's existence. */
  predicate PathAfter(earlier: bool, e: Event, device: string, path: Path) {
    match e
    case PublishEvent(_, target, _, io) =>
      earlier || (WritesInfo(e, device, target) && io.target && (path == target || IsAncestor(path, target)))
    case UnpublishEvent(target, io) => earlier && !(target != [] && io.target && Within(path, target))
    case OthersEvent(paths) => path in paths
    case _ => earlier
  }

  /** Whether a path exists after the events. */
  predicate PathExists(s: NodeState, es: seq<Event>, path: Path) {
    if es == [] then path in s.paths
    else
      var init := es[..|es| - 1];
      var e := es[|es| - 1];
      PathAfter(PathExists(s, init, path), e, StagedOn(init, VolumeOf(e)), path)
  }

  /** One event's effect on a target's directory, the target being `present` or not; None means there is none. */
  function Effect(earlier: Option<InfoFile>, e: Event, device: string, present: bool, target: Path): Option<InfoFile> {
    if WritesInfo(e, device, target) then Some(GoodInfo(MountInfoFor(e.volumeID, device, e.context)))
    else
      match e
      case PublishEvent(v, t, _, io) =>
        if t == target && t != [] && v != "" && device != "" && io.mkdir && earlier.None? then Some(NoInfo) else earlier
      case UnpublishEvent(t, io) => if t == target && t != [] && io.info then None else earlier
      case RestartEvent(io) =>
        if earlier.Some? && earlier.value.GoodInfo? && !present && target !in io.unclear && Encode(target) !in io.stuck
        then None else earlier
      case _ => earlier
  }

  /** The mountInfo file a target must have after the events. */
  function Expected(s: NodeState, es: seq<Event>, target: Path): Option<InfoFile> {
    if es == [] then None
    else
      var init := es[..|es| - 1];
      var e := es[|es| - 1];
      Effect(Expected(s, init, target), e, StagedOn(init, VolumeOf(e)), PathExists(s, init, target), target)
  }

  predicate Writes(es: seq<Event>, k: int, target: Path) {
    0 <= k < |es| && WritesInfo(es[k], StagedOn(es[..k], VolumeOf(es[k])), target)
  }

  function Written(es: seq<Event>, k: int): MountInfo
    requires 0 <= k < |es| && es[k].PublishEvent?
  {
    MountInfoFor(es[k].volumeID, StagedOn(es[..k], es[k].volumeID), es[k].context)
  }

  /** The directory the mounts hold for a target is the expected one. */
  ghost predicate Holds(mounts: Mounts, target: Path, file: Option<InfoFile>) {
    && (Encode(target) in mounts <==> file.Some?)
    && (file.Some? ==> mounts[Encode(target)] == Directory(file.value) && !file.value.CorruptInfo?)
  }

  ghost predicate IsTargetName(name: string) {
    exists target :: name == Encode(target)
  }

  ghost predicate MatchesHistory(s: NodeState, es: seq<Event>, n: NodeState) {
    && (forall v :: Get(n.devices, v) == StagedOn(es, v))
    && (forall target :: Holds(n.mounts, target, Expected(s, es, target)))
    && (forall path :: path in n.paths <==> PathExists(s, es, path))
    && (forall name :: name in n.mounts ==> IsTargetName(name))
  }

  lemma PublishHolds(n: NodeState, e: Event, target: Path, file: Option<InfoFile>)
    requires e.PublishEvent? && Holds(n.mounts, target, file)
    ensures Holds(Step(n, e).mounts, target, Effect(file, e, Get(n.devices, VolumeOf(e)), target in n.paths, target))
  {
    if e.target != target && Encode(e.target) == Encode(target) {
      EncodeIsInjective(e.target, target);
    }
  }

  lemma UnpublishHolds(n: NodeState, e: Event, target: Path, file: Option<InfoFile>)
    requires e.UnpublishEvent? && Holds(n.mounts, target, file)
    ensures Holds(Step(n, e).mounts, target, Effect(file, e, "", target in n.paths, target))
  {
    if e.target != target && Encode(e.target) == Encode(target) {
      EncodeIsInjective(e.target, target);
    }
  }

  lemma RestartHolds(n: NodeState, io: CleanIo, target: Path, file: Option<InfoFile>)
    requires Holds(n.mounts, target, file)
    ensures Holds(Clean(n.mounts, n.paths, io), target, Effect(file, RestartEvent(io), "", target in n.paths, target))
  {
    DecodeAfterEncode(target);
  }

  /** One event's effect on one target, on the state. */
  lemma StepHolds(n: NodeState, e: Event, target: Path, file: Option<InfoFile>)
    requires Holds(n.mounts, target, file)
    ensures Holds(Step(n, e).mounts, target, Effect(file, e, Get(n.devices, VolumeOf(e)), target in n.paths, target))
  {
    match e
    case PublishEvent(_, _, _, _) => PublishHolds(n, e, target, file);
    case UnpublishEvent(_, _) => UnpublishHolds(n, e, target, file);
    case RestartEvent(io) => RestartHolds(n, io, target, file);
    case _ =>
  }

  lemma StepNames(n: NodeState, e: Event)
    requires forall name :: name in n.mounts ==> IsTargetName(name)
    ensures forall name :: name in Step(n, e).mounts ==> IsTargetName(name)
  {
    if e.PublishEvent? {
      assert IsTargetName(Encode(e.target));
    }
  }

  lemma StepDevices(n: NodeState, e: Event, volumeID: string)
    ensures Get(Step(n, e).devices, volumeID) == DeviceAfter(Get(n.devices, volumeID), e, volumeID)
  {
  }

  /** One event's effect on one path, on the state. */
  lemma StepPaths(n: NodeState, e: Event, path: Path)
    requires e.PublishEvent? && Encode(e.target) in n.mounts ==> n.mounts[Encode(e.target)].Directory?
    ensures path in Step(n, e).paths <==> PathAfter(path in n.paths, e, Get(n.devices, VolumeOf(e)), path)
  {
    if e.PublishEvent? {
      AncestorsAre(e.target, path);
    }
  }

  lemma AncestorsAre(target: Path, path: Path)
    ensures path in Ancestors(target) <==> IsAncestor(path, target)
  {
    if IsAncestor(path, target) {
      assert path == target[..|path|];
    }
  }

  /**
   The state machine refines the history: after any run from an empty node, every target's directory
   exists and holds exactly what its history of events says, nothing else is there, and every path exists
   exactly if the events say so.
   */
  lemma {:induction false} RunMatchesHistory(s: NodeState, es: seq<Event>)
    requires Fresh(s)
    ensures MatchesHistory(s, es, Run(s, es))
  {
    if es != [] {
      var init, e := es[..|es| - 1], es[|es| - 1];
      var before := Run(s, init);
      RunMatchesHistory(s, init);
      forall target ensures Holds(Step(before, e).mounts, target, Expected(s, es, target)) {
        assert Get(before.devices, VolumeOf(e)) == StagedOn(init, VolumeOf(e));
        StepHolds(before, e, target, Expected(s, init, target));
      }
      StepNames(before, e);
      forall path ensures path in Step(before, e).paths <==> PathExists(s, es, path) {
        assert Get(before.devices, VolumeOf(e)) == StagedOn(init, VolumeOf(e));
        if e.PublishEvent? {
          assert Holds(before.mounts, e.target, Expected(s, init, e.target));
        }
        StepPaths(before, e, path);
      }
      forall v ensures Get(Step(before, e).devices, v) == StagedOn(es, v) {
        StepDevices(before, e, v);
      }
    }
  }

  lemma {:induction false} ExpectedComesFromPublish(s: NodeState, es: seq<Event>, target: Path) returns (k: int)
    requires Expected(s, es, target).Some? && Expected(s, es, target).value.GoodInfo?
    ensures Writes(es, k, target) && Expected(s, es, target).value.info == Written(es, k)
    ensures forall j :: k < j < |es| ==> !Writes(es, j, target)
    ensures forall j :: k < j < |es| && es[j].UnpublishEvent? ==> es[j].target != target || !es[j].unpublishIo.info
  {
    var last := |es| - 1;
    if Writes(es, last, target) {
      k := last;
    } else {
      k := ExpectedComesFromPublish(s, es[..last], target);
      assert es[..last][..k] == es[..k];
      forall j | k < j < |es| ensures !Writes(es, j, target) {
        if j < last {
          assert es[..last][..j] == es[..j];
          assert !Writes(es[..last], j, target);
        }
      }
      forall j | k < j < |es| && es[j].UnpublishEvent?
        ensures es[j].target != target || !es[j].unpublishIo.info
      {
        assert j < last ==> es[..last][j] == es[j];
      }
    }
  }

  /** Every mountInfo on disk names the device its volume was staged on when it was published. */
  lemma MountInfoNamesStagedDevice(s: NodeState, es: seq<Event>, name: string) returns (target: Path, k: int)
    requires Fresh(s) && name in Run(s, es).mounts
    requires Run(s, es).mounts[name].Directory? && Run(s, es).mounts[name].file.GoodInfo?
    ensures name == Encode(target) && Writes(es, k, target)
    ensures var info := Run(s, es).mounts[name].file.info;
            && info.device == StagedOn(es[..k], es[k].volumeID) != ""
            && Get(info.metadata, "cloud-volume-id") == es[k].volumeID
  {
    RunMatchesHistory(s, es);
    assert IsTargetName(name);
    target :| name == Encode(target);
    assert Holds(Run(s, es).mounts, target, Expected(s, es, target));
    k := ExpectedComesFromPublish(s, es, target);
  }

  // ---- Published targets ----

  /** The event neither removes the target nor its directory. */
  predicate Keeps(e: Event, target: Path) {
    match e
    case UnpublishEvent(t, io) => !(t == target && io.info) && !(t != [] && io.target && Within(target, t))
    case OthersEvent(paths) => target in paths
    case _ => true
  }

  lemma {:induction false} KeptInfoStays(s: NodeState, es: seq<Event>, k: int, target: Path)
    requires Writes(es, k, target) && es[k].publishIo.target
    requires forall j :: k < j < |es| ==> Keeps(es[j], target)
    ensures PathExists(s, es, target)
    ensures Expected(s, es, target).Some? && Expected(s, es, target).value.GoodInfo?
  {
    var last := |es| - 1;
    if k < last {
      var init := es[..last];
      assert init[..k] == es[..k];
      assert forall j :: k < j < |init| ==> init[j] == es[j];
      KeptInfoStays(s, init, k, target);
    }
  }

  /**
   A successfully published target that nobody removed since exists and keeps its mountInfo, over any
   number of restarts and whatever is published or unpublished besides.
   */
  lemma PublishedTargetSurvives(s: NodeState, es: seq<Event>, k: int, target: Path)
    requires Fresh(s) && Writes(es, k, target) && es[k].publishIo.target
    requires forall j :: k < j < |es| ==> Keeps(es[j], target)
    ensures var n := Run(s, es);
            && target in n.paths && Encode(target) in n.mounts
            && n.mounts[Encode(target)].Directory? && n.mounts[Encode(target)].file.GoodInfo?
  {
    RunMatchesHistory(s, es);
    KeptInfoStays(s, es, k, target);
    assert Holds(Run(s, es).mounts, target, Expected(s, es, target));
  }

  /**
   A publish succeeds exactly for a staged volume with its arguments given, no file in the directory's
   place, and all three writes taking effect. Then the target and the directories above it exist, and no
   other path or entry has changed.
   */
  lemma PublishSucceedsIff(n: NodeState, volumeID: string, target: Path, context: Params, io: PublishIo)
    ensures var (n', r) := Publish(n, volumeID, target, context, io);
            && (r.Ok? <==>
                  && volumeID != "" && target != [] && Get(n.devices, volumeID) != ""
                  && !(Encode(target) in n.mounts && n.mounts[Encode(target)].PlainFile?)
                  && io.mkdir && io.write && io.target)
            && (r.Ok? ==>
                  && (forall path :: path in n'.paths <==> path in n.paths || path == target || IsAncestor(path, target))
                  && n'.mounts - {Encode(target)} == n.mounts - {Encode(target)})
            && n'.devices == n.devices
  {
    forall path ensures path in Ancestors(target) <==> IsAncestor(path, target) {
      AncestorsAre(target, path);
    }
  }

  /** What a publish writes beside the device: the context with the volume's ID, and a path if it has none. */
  lemma MountInfoKeepsTheContext(volumeID: string, device: string, context: Params, key: string)
    ensures var info := MountInfoFor(volumeID, device, context);
            && info.device == device
            && Get(info.metadata, key) ==
                 if key == "cloud-volume-id" then volumeID
                 else if key == "cloud-volume-path" && Get(context, key) == "" then device
                 else Get(context, key)
  {
  }

  /** The other node calls succeed exactly with their arguments given, a stage also needs its volume. */
  lemma NodeAnswers(n: NodeState, volumeID: string, staging: Path, created: Option<string>, target: Path, io: UnpublishIo)
    ensures Stage(n, volumeID, staging, created).1.Ok? <==> volumeID != "" && staging != [] && created.Some?
    ensures Unstage(n, volumeID, staging).1.Ok? <==> volumeID != "" && staging != []
    ensures Unpublish(n, target, io).1.Ok? <==> target != []
    ensures Unpublish(n, target, io).0.devices == n.devices
  {
  }

  /** A size in the context is used exactly if it is a positive 64-bit number; a gibibyte otherwise. */
  lemma StageSizeIs(context: Params, n: int)
    requires "capacity_in_bytes" in context && context["capacity_in_bytes"] == FormatInt(n)
    ensures StageSize(context) == if 0 < n <= MAX_INT64 then n else 0x4000_0000
  {
    ParseFormattedIff(n);
    assert FormatInt(n) != "";
  }

  lemma StageSizeDefaults(context: Params)
    requires ParseInt64(Get(context, "capacity_in_bytes")).None?
    ensures StageSize(context) == 0x4000_0000
  {
  }

  /** A path is within a target by whole components: a target's name may be the beginning of another's. */
  lemma WithinIsByComponent(path: Path, target: Path)
    ensures Within(path, target) <==>
              path == target || (|path| > |target| && path[..|target|] == target && path[|target|] == 47)
  {
  }

  /** Unpublishing removes the target's own entry and no other, whatever the names. */
  lemma UnpublishRemovesOwnEntry(s: NodeState, target: Path, io: UnpublishIo, other: Path)
    requires target != [] && io.info
    ensures var n := Unpublish(s, target, io).0;
            && Encode(target) !in n.mounts
            && (other != target ==>
                  && (Encode(other) in n.mounts <==> Encode(other) in s.mounts)
                  && (Encode(other) in s.mounts ==> n.mounts[Encode(other)] == s.mounts[Encode(other)]))
            && (other in n.paths <==> other in s.paths && !(io.target && Within(other, target)))
  {
    if other != target && Encode(other) == Encode(target) {
      EncodeIsInjective(other, target);
    }
  }

  /**
   Startup cleanup removes exactly the directories whose name decodes, canonically or not, whose file is
   corrupt or whose target is gone, and whose removal works. It leaves the others as they were, and once
   is enough.
   */
  lemma CleanupIsExact(mounts: Mounts, paths: set<Path>, io: CleanIo, name: string)
    ensures var cleaned := Clean(mounts, paths, io);
            && Clean(cleaned, paths, io) == cleaned
            && (name in cleaned ==> name in mounts && cleaned[name] == mounts[name])
            && (name in mounts ==>
                  (name !in cleaned <==>
                     && mounts[name].Directory? && Decode(name).Some? && name !in io.stuck
                     && (|| mounts[name].file.CorruptInfo?
                         || (&& mounts[name].file.GoodInfo?
                             && Decode(name).value !in paths && Decode(name).value !in io.unclear))))
  {
  }

  /** For the entry of a target this is about that very target. */
  lemma CleanupOfTarget(mounts: Mounts, paths: set<Path>, io: CleanIo, target: Path)
    requires Encode(target) in mounts && mounts[Encode(target)].Directory?
    ensures Encode(target) !in Clean(mounts, paths, io) <==>
              var file := mounts[Encode(target)].file;
              && (file.CorruptInfo? || (file.GoodInfo? && target !in paths && target !in io.unclear))
              && Encode(target) !in io.stuck
  {
    DecodeAfterEncode(target);
  }
}
