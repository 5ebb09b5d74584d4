/**
 The controller's local volume store: one JSON file per volume record plus `_manifest.json`, an
 index of the records that also keeps provider parameters for bootstrap. File contents are the values
 they decode to; a write either replaces a file or leaves it as it was.
 */
module VolumeStore {
  import opened Basics
  import opened Sorting
  import opened ProviderApi

  datatype VolumeRecord = VolumeRecord(
    volumeID: string,
    provider: string,
    path: string,
    capacityBytes: int,
    params: Params)

  datatype VolumeManifest = VolumeManifest(params: Params, volumeIDs: seq<string>)

  datatype File = Corrupt | RecordFile(rec: VolumeRecord) | ManifestFile(manifest: VolumeManifest)

  type Dir = map<string, File>

  const MANIFEST := "_manifest.json"

  function FileName(volumeID: string): string {
    volumeID + ".json"
  }

  predicate IsRecordName(name: string) {
    HasSuffix(name, ".json") && name != MANIFEST
  }

  /** Decoding is lenient: unknown fields are ignored and missing ones are empty. */
  function AsRecord(f: File): Option<VolumeRecord> {
    match f
    case Corrupt => None
    case RecordFile(rec) => Some(rec)
    case ManifestFile(m) => Some(VolumeRecord("", "", "", 0, m.params))
  }

  function AsManifest(f: File): Option<VolumeManifest> {
    match f
    case Corrupt => None
    case ManifestFile(m) => Some(m)
    case RecordFile(rec) => Some(VolumeManifest(rec.params, []))
  }

  predicate HasProvider(params: Params) {
    Get(params, "cloudProvider") != ""
  }

  function Sanitize(params: Params): Params {
    params - {"awsAccessKeyId", "awsSecretKey"}
  }

  predicate CredentialFree(params: Params) {
    "awsAccessKeyId" !in params && "awsSecretKey" !in params
  }

  // ---- Reading ----

  function RecordsIn(dir: Dir, names: seq<string>): seq<VolumeRecord> {
    if names == [] then []
    else
      var last := names[|names| - 1];
      RecordsIn(dir, names[..|names| - 1]) +
      if IsRecordName(last) && last in dir && AsRecord(dir[last]).Some? then [AsRecord(dir[last]).value] else []
  }

  /** listAll: every record that decodes, in listing order. */
  function Records(dir: Dir): seq<VolumeRecord> {
    RecordsIn(dir, Sorted(dir.Keys))
  }

  function Ids(recs: seq<VolumeRecord>): seq<string> {
    if recs == [] then [] else Ids(recs[..|recs| - 1]) + [recs[|recs| - 1].volumeID]
  }

  function FirstParams(recs: seq<VolumeRecord>): Option<Params> {
    if recs == [] then None
    else if HasProvider(recs[0].params) then Some(recs[0].params)
    else FirstParams(recs[1..])
  }

  function ReadManifest(dir: Dir): Option<VolumeManifest> {
    if MANIFEST in dir then AsManifest(dir[MANIFEST]) else None
  }

  /** The parameters the manifest offers for bootstrap. */
  function StoredParams(dir: Dir): Option<Params> {
    match ReadManifest(dir)
    case None => None
    case Some(m) => if HasProvider(m.params) then Some(m.params) else None
  }

  datatype LoadError = NotExist | Unreadable

  function Load(dir: Dir, volumeID: string): Result<VolumeRecord, LoadError> {
    if FileName(volumeID) !in dir then Err(NotExist)
    else
      match AsRecord(dir[FileName(volumeID)])
      case None => Err(Unreadable)
      case Some(rec) => Ok(rec)
  }

  // ---- Writing ----

  /** The parameters a manifest over these records is written with. */
  function ManifestParams(dir: Dir): Params {
    match FirstParams(Records(dir))
    case Some(params) => Sanitize(params)
    case None => match StoredParams(dir) case Some(kept) => Sanitize(kept) case None => map[]
  }

  /** writeManifestLocked. */
  function Refresh(dir: Dir): Dir {
    if Records(dir) == [] then
      match StoredParams(dir)
      case None => dir - {MANIFEST}
      case Some(kept) => dir[MANIFEST := ManifestFile(VolumeManifest(kept, []))]
    else dir[MANIFEST := ManifestFile(VolumeManifest(ManifestParams(dir), Ids(Records(dir))))]
  }

  /** Which of an operation's two writes take effect. */
  datatype Writes = Writes(file: bool, manifest: bool)

  function RefreshIf(dir: Dir, manifest: bool): Dir {
    if manifest then Refresh(dir) else dir
  }

  function Save(dir: Dir, rec: VolumeRecord, w: Writes): Dir {
    if !w.file then dir else RefreshIf(dir[FileName(rec.volumeID) := RecordFile(rec)], w.manifest)
  }

  function Delete(dir: Dir, volumeID: string, w: Writes): Dir {
    RefreshIf(if w.file then dir - {FileName(volumeID)} else dir, w.manifest)
  }

  function RecoveredRecord(info: VolumeInfo, params: Params): VolumeRecord {
    VolumeRecord(info.volumeID, info.provider, info.path, info.sizeBytes, params)
  }

  /** `failing` are the IDs whose file cannot be checked or written during this recovery. */
  function MergeFiles(dir: Dir, infos: seq<VolumeInfo>, params: Params, failing: set<string>): Dir {
    if infos == [] then dir
    else
      var merged := MergeFiles(dir, infos[..|infos| - 1], params, failing);
      var info := infos[|infos| - 1];
      if info.volumeID == "" || FileName(info.volumeID) in merged || info.volumeID in failing then merged
      else merged[FileName(info.volumeID) := RecordFile(RecoveredRecord(info, params))]
  }

  datatype MergeWrites = MergeWrites(failing: set<string>, manifest: bool)

  /** The locked part of RecoverFromCloud. */
  function Merge(dir: Dir, infos: seq<VolumeInfo>, params: Params, w: MergeWrites): Dir {
    var merged := MergeFiles(dir, infos, Sanitize(params), w.failing);
    if merged == dir then dir else RefreshIf(merged, w.manifest)
  }

  // ---- Bootstrap ----

  /** Levels one to four; the two locked sections may see different directories. */
  function BootstrapParams(atRecords: Dir, atManifest: Dir, external: Option<Params>): Option<Params> {
    match FirstParams(Records(atRecords))
    case Some(params) => Some(params)
    case None =>
      match StoredParams(atManifest)
      case Some(params) => Some(params)
      case None => external
  }

  // ---- The store object ----

  /** volumeStore: each method runs under the store's mutex, so it is one atomic step on `files`. */
  class Store {
    var files: Dir

    constructor (files: Dir)
      ensures this.files == files
    {
      this.files := files;
    }

    method ListAll() returns (recs: seq<VolumeRecord>)
      ensures recs == Records(files)
    {
      recs := [];
      var entries := Sorted(files.Keys);
      for i := 0 to |entries|
        invariant recs == RecordsIn(files, entries[..i])
      {
        assert entries[..i + 1][..i] == entries[..i];
        if !HasSuffix(entries[i], ".json") || entries[i] == MANIFEST {
          continue;
        }
        assert entries[i] in files.Keys;
        var rec := AsRecord(files[entries[i]]);
        if rec.None? {
          continue;
        }
        recs := recs + [rec.value];
      }
      assert entries[..|entries|] == entries;
    }

    method AnyParams() returns (params: Option<Params>)
      ensures params == FirstParams(Records(files))
    {
      var recs := ListAll();
      for i := 0 to |recs|
        invariant FirstParams(recs) == FirstParams(recs[i..])
      {
        assert recs[i..][1..] == recs[i + 1..];
        if HasProvider(recs[i].params) {
          return Some(recs[i].params);
        }
      }
      return None;
    }

    method LoadManifestParams() returns (params: Option<Params>)
      ensures params == StoredParams(files)
    {
      var m := ReadManifest(files);
      if m.None? || !HasProvider(m.value.params) {
        return None;
      }
      return Some(m.value.params);
    }

    method BootstrapParamsNow(external: Option<Params>) returns (params: Option<Params>)
      ensures params == BootstrapParams(files, files, external)
    {
      params := AnyParams();
      if params.Some? {
        return;
      }
      params := LoadManifestParams();
      if params.Some? {
        return;
      }
      return external;
    }

    method WriteManifestLocked(ok: bool)
      modifies this
      ensures files == RefreshIf(old(files), ok)
    {
      if !ok {
        return;
      }
      var recs := ListAll();
      if |recs| == 0 {
        var kept := LoadManifestParams();
        if kept.None? {
          files := files - {MANIFEST};
        } else {
          files := files[MANIFEST := ManifestFile(VolumeManifest(kept.value, []))];
        }
        return;
      }
      var params := AnyParams();
      if params.Some? {
        params := Some(Sanitize(params.value));
      } else {
        var existing := LoadManifestParams();
        params := Some(if existing.Some? then Sanitize(existing.value) else map[]);
      }
      var ids: seq<string> := [];
      for i := 0 to |recs|
        invariant ids == Ids(recs[..i])
      {
        assert recs[..i + 1][..i] == recs[..i];
        ids := ids + [recs[i].volumeID];
      }
      assert recs[..|recs|] == recs;
      files := files[MANIFEST := ManifestFile(VolumeManifest(params.value, ids))];
    }

    method SaveRecord(rec: VolumeRecord, w: Writes) returns (ok: bool)
      modifies this
      ensures files == Save(old(files), rec, w)
      ensures ok == (w.file && w.manifest)
    {
      if !w.file {
        return false;
      }
      files := files[FileName(rec.volumeID) := RecordFile(rec)];
      WriteManifestLocked(w.manifest);
      return w.manifest;
    }

    method LoadRecord(volumeID: string) returns (r: Result<VolumeRecord, LoadError>)
      ensures r == Load(files, volumeID)
    {
      if FileName(volumeID) !in files {
        return Err(NotExist);
      }
      var rec := AsRecord(files[FileName(volumeID)]);
      if rec.None? {
        return Err(Unreadable);
      }
      return Ok(rec.value);
    }

    method DeleteRecord(volumeID: string, w: Writes)
      modifies this
      ensures files == Delete(old(files), volumeID, w)
    {
      if w.file {
        files := files - {FileName(volumeID)};
      }
      WriteManifestLocked(w.manifest);
    }

    method MergeRecovered(vols: seq<VolumeInfo>, params: Params, w: MergeWrites)
      modifies this
      ensures files == Merge(old(files), vols, params, w)
    {
      var paramsCopy := Sanitize(params);
      var recovered := 0;
      ghost var before := files;
      for i := 0 to |vols|
        invariant files == MergeFiles(before, vols[..i], paramsCopy, w.failing)
        invariant before.Keys <= files.Keys
        invariant recovered == |files| - |before|
        invariant recovered == 0 ==> files == before
      {
        assert vols[..i + 1][..i] == vols[..i];
        var id := vols[i].volumeID;
        if id == "" || FileName(id) in files || id in w.failing {
          continue;
        }
        files := files[FileName(id) := RecordFile(RecoveredRecord(vols[i], paramsCopy))];
        recovered := recovered + 1;
      }
      assert vols[..|vols|] == vols;
      if recovered > 0 {
        WriteManifestLocked(w.manifest);
      }
    }
  }
}
