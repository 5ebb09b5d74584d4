/**
 The node server: staged devices in memory, and on disk one directory per published target, named by
 the encoded target path and holding mountInfo.json. The disk outlives the process; a restart forgets
 the devices and cleans up stale directories.
 */
module NodeServer {
  import opened Basics
  import opened Base64Url
  import opened Decimal

  type Path = Bytes

  const SLASH: byte := 47

  /** volume-type "directvol" and fstype "ext4" are constants; the rest varies. */
  datatype MountInfo = MountInfo(device: string, metadata: Params)

  datatype InfoFile = NoInfo | UnreadableInfo | CorruptInfo | GoodInfo(info: MountInfo)

  /** An entry of the direct-volume root. */
  datatype Entry = PlainFile | Directory(file: InfoFile)

  type Mounts = map<string, Entry>

  datatype NodeState = NodeState(devices: map<string, string>, mounts: Mounts, paths: set<Path>)

  datatype NodeError = MissingArgument | StageFailed | NotStaged | IoFailed

  // ---- Paths ----

  /** The path is the target or lies below it. */
  predicate Within(path: Path, target: Path) {
    path == target || (target + [SLASH]) <= path
  }

  function RemoveAll(paths: set<Path>, target: Path): set<Path> {
    set p | p in paths && !Within(p, target)
  }

  function Ancestors(target: Path): set<Path> {
    set i | 0 < i < |target| && target[i] == SLASH :: target[..i]
  }

  // ---- Stage and unstage ----

  /** The size NodeStageVolume asks the provider for. */
  function StageSize(context: Params): int64 {
    var text := Get(context, "capacity_in_bytes");
    match ParseInt64(text)
    case None => 0x4000_0000
    case Some(n) => if text != "" && n > 0 then n else 0x4000_0000
  }

  /** `created` is the native path the provider returned, or None if its call failed. */
  function Stage(s: NodeState, volumeID: string, stagingPath: Path, created: Option<string>): (NodeState, Result<Unit, NodeError>) {
    if volumeID == "" || stagingPath == [] then (s, Err(MissingArgument))
    else
      match created
      case None => (s, Err(StageFailed))
      case Some(path) => (s.(devices := s.devices[volumeID := path]), Ok(Unit))
  }

  function Unstage(s: NodeState, volumeID: string, stagingPath: Path): (NodeState, Result<Unit, NodeError>) {
    if volumeID == "" || stagingPath == [] then (s, Err(MissingArgument))
    else (s.(devices := s.devices - {volumeID}), Ok(Unit))
  }

  // ---- Publish and unpublish ----

  /** What a publish writes: the device, and the context completed with the volume ID and a path. */
  function MountInfoFor(volumeID: string, device: string, context: Params): MountInfo {
    var named := context["cloud-volume-id" := volumeID];
    MountInfo(device, if Get(named, "cloud-volume-path") == "" then named["cloud-volume-path" := device] else named)
  }

  datatype PublishIo = PublishIo(mkdir: bool, write: bool, target: bool)

  /** MkdirAll of the volume directory: a file in the way makes it fail. */
  function MadeDirectory(mounts: Mounts, name: string): Mounts
    requires name in mounts ==> mounts[name].Directory?
  {
    if name in mounts then mounts else mounts[name := Directory(NoInfo)]
  }

  function Publish(s: NodeState, volumeID: string, target: Path, context: Params, io: PublishIo): (NodeState, Result<Unit, NodeError>) {
    var name := Encode(target);
    if volumeID == "" || target == [] then (s, Err(MissingArgument))
    else if Get(s.devices, volumeID) == "" then (s, Err(NotStaged))
    else if !io.mkdir || (name in s.mounts && s.mounts[name].PlainFile?) then (s, Err(IoFailed))
    else if !io.write then (s.(mounts := MadeDirectory(s.mounts, name)), Err(IoFailed))
    else
      var info := MountInfoFor(volumeID, s.devices[volumeID], context);
      var mounts := s.mounts[name := Directory(GoodInfo(info))];
      if !io.target then (s.(mounts := mounts), Err(IoFailed))
      else (s.(mounts := mounts, paths := s.paths + {target} + Ancestors(target)), Ok(Unit))
  }

  datatype UnpublishIo = UnpublishIo(info: bool, target: bool)

  /** Both removals are best-effort: a failure is only logged. */
  function Unpublish(s: NodeState, target: Path, io: UnpublishIo): (NodeState, Result<Unit, NodeError>) {
    if target == [] then (s, Err(MissingArgument))
    else
      (s.(mounts := if io.info then s.mounts - {Encode(target)} else s.mounts,
          paths := if io.target then RemoveAll(s.paths, target) else s.paths),
       Ok(Unit))
  }

  // ---- Restart ----

  /** `unclear` are the targets whose existence cannot be determined. */
  predicate Stale(name: string, entry: Entry, paths: set<Path>, unclear: set<Path>) {
    && entry.Directory?
    && Decode(name).Some?
    && (|| entry.file.CorruptInfo?
        || (entry.file.GoodInfo? && Decode(name).value !in paths && Decode(name).value !in unclear))
  }

  /** `stuck` are the entries whose removal fails and leaves them as they are. */
  datatype CleanIo = CleanIo(unclear: set<Path>, stuck: set<string>)

  predicate Removed(name: string, entry: Entry, paths: set<Path>, io: CleanIo) {
    Stale(name, entry, paths, io.unclear) && name !in io.stuck
  }

  function Clean(mounts: Mounts, paths: set<Path>, io: CleanIo): Mounts {
    map name | name in mounts && !Removed(name, mounts[name], paths, io) :: mounts[name]
  }

  function Restart(s: NodeState, io: CleanIo): NodeState {
    s.(devices := map[], mounts := Clean(s.mounts, s.paths, io))
  }

  // ---- The objects ----

  /** The node's file system as the server uses it. */
  class NodeDisk {
    var mounts: Mounts
    var paths: set<Path>

    constructor (mounts: Mounts, paths: set<Path>)
      ensures this.mounts == mounts && this.paths == paths
    {
      this.mounts := mounts;
      this.paths := paths;
    }

    /** os.RemoveAll of an entry's directory; a failure is only logged. */
    method RemoveDirectory(name: string, io: CleanIo)
      modifies this`mounts
      ensures mounts == if name in io.stuck then old(mounts) else old(mounts) - {name}
    {
      if name !in io.stuck {
        mounts := mounts - {name};
      }
    }

    /** cleanStaleMountInfoDirs: one pass over the entries read at the start. */
    method CleanStaleMountInfoDirs(io: CleanIo)
      modifies this`mounts
      ensures mounts == Clean(old(mounts), paths, io)
    {
      var entries := mounts.Keys;
      while entries != {}
        invariant entries <= old(mounts).Keys
        invariant mounts == map n | n in old(mounts) && (n in entries || !Removed(n, old(mounts)[n], paths, io)) :: old(mounts)[n]
        decreases entries
      {
        var name :| name in entries;
        entries := entries - {name};
        var entry := mounts[name];
        if entry.PlainFile? {
          continue;
        }
        var decoded := Decode(name);
        if decoded.None? {
          continue;
        }
        var targetPath := decoded.value;
        if entry.file.NoInfo? || entry.file.UnreadableInfo? {
          continue;
        }
        if entry.file.CorruptInfo? {
          RemoveDirectory(name, io);
          continue;
        }
        if targetPath in paths || targetPath in io.unclear {
          continue;
        }
        RemoveDirectory(name, io);
      }
    }
  }

  class Server {
    var devices: map<string, string>
    const disk: NodeDisk

    /** newNodeServer: nothing staged, stale directories cleaned. */
    constructor (disk: NodeDisk, io: CleanIo)
      modifies disk`mounts
      ensures this.disk == disk
      ensures Now() == Restart(NodeState(devices, old(disk.mounts), old(disk.paths)), io)
    {
      this.devices := map[];
      this.disk := disk;
      new;
      disk.CleanStaleMountInfoDirs(io);
    }

    ghost function Now(): NodeState
      reads this, disk
    {
      NodeState(devices, disk.mounts, disk.paths)
    }

    method NodeStageVolume(volumeID: string, stagingPath: Path, created: Option<string>) returns (r: Result<Unit, NodeError>)
      modifies this
      ensures (Now(), r) == Stage(old(Now()), volumeID, stagingPath, created)
    {
      if volumeID == "" || stagingPath == [] {
        return Err(MissingArgument);
      }
      if created.None? {
        return Err(StageFailed);
      }
      devices := devices[volumeID := created.value];
      return Ok(Unit);
    }

    method NodeUnstageVolume(volumeID: string, stagingPath: Path) returns (r: Result<Unit, NodeError>)
      modifies this
      ensures (Now(), r) == Unstage(old(Now()), volumeID, stagingPath)
    {
      if volumeID == "" || stagingPath == [] {
        return Err(MissingArgument);
      }
      devices := devices - {volumeID};
      return Ok(Unit);
    }

    method NodePublishVolume(volumeID: string, target: Path, context: Params, io: PublishIo) returns (r: Result<Unit, NodeError>)
      modifies disk
      ensures (Now(), r) == Publish(old(Now()), volumeID, target, context, io)
    {
      if volumeID == "" || target == [] {
        return Err(MissingArgument);
      }
      var devicePath := Get(devices, volumeID);
      if devicePath == "" {
        return Err(NotStaged);
      }
      var attrib := context["cloud-volume-id" := volumeID];
      if Get(attrib, "cloud-volume-path") == "" {
        attrib := attrib["cloud-volume-path" := devicePath];
      }
      var volumeDir := Encode(target);
      if !io.mkdir || (volumeDir in disk.mounts && disk.mounts[volumeDir].PlainFile?) {
        return Err(IoFailed);
      }
      if volumeDir !in disk.mounts {
        disk.mounts := disk.mounts[volumeDir := Directory(NoInfo)];
      }
      if !io.write {
        return Err(IoFailed);
      }
      var info := MountInfo(devicePath, attrib);
      disk.mounts := disk.mounts[volumeDir := Directory(GoodInfo(info))];
      assert disk.mounts == old(disk.mounts)[volumeDir := Directory(GoodInfo(info))];
      if !io.target {
        return Err(IoFailed);
      }
      disk.paths := disk.paths + {target} + Ancestors(target);
      return Ok(Unit);
    }

    method NodeUnpublishVolume(target: Path, io: UnpublishIo) returns (r: Result<Unit, NodeError>)
      modifies disk
      ensures (Now(), r) == Unpublish(old(Now()), target, io)
    {
      if target == [] {
        return Err(MissingArgument);
      }
      if io.info {
        disk.mounts := disk.mounts - {Encode(target)};
      }
      if io.target {
        disk.paths := RemoveAll(disk.paths, target);
      }
      return Ok(Unit);
    }
  }
}
