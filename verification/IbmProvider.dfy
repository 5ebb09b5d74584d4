/**
 The IBM Cloud volume provider: lookup, ownership check, create, delete, expand and the listing used
 for recovery. The functions say what each call does to the cloud and returns, for every outcome of
 the SDK calls inside it; the class does the same step by step over a session.
 */
module IbmProvider {
  import opened Basics
  import opened Decimal
  import opened Capacity
  import opened IbmConfig
  import opened IbmSdk
  import opened Pagination
  import opened ProviderApi

  datatype Conflict =
    | NoOwnershipTag
    | NoConfigMarker
    | PlacementMismatch
    | KeyConflict
    | IopsConflict
    | ThroughputConflict
    | Ambiguous
    | TooSmall

  datatype Error =
    | InvalidParameters
    | ZoneMissing
    | VolumeNotFound
    | AlreadyExists(why: Conflict)
    | ListingFailed(cause: ListError)
    | NilVolume
    | CreateFailed
    | RefreshFailed
    | Incomplete
    | NotAvailable
    | ResponseMismatch
    | NoNativeID
    | DeleteFailed
    | UpdateFailed

  type DiskPages = Pages<Option<Volume>>

  // ---- Lookup ----

  /** A reply without a name takes the name it was asked for. */
  function Named(v: Volume, name: string): Volume {
    if v.name == None then v.(name := Some(name)) else v
  }

  predicate Matches(v: Volume, name: string) {
    v.name == None || v.name == Some(name)
  }

  /** The name scan from some point on, with the match found so far. */
  function Scan(items: Listing, name: string, found: Option<Volume>): Result<Volume, Error> {
    if items == [] then
      (match found case None => Err(VolumeNotFound) case Some(v) => Ok(v))
    else if items[0] == None then Err(NilVolume)
    else if !Matches(items[0].value, name) then Scan(items[1..], name, found)
    else if found.Some? then Err(AlreadyExists(Ambiguous))
    else Scan(items[1..], name, Some(Named(items[0].value, name)))
  }

  function LookupByName(name: string, pages: DiskPages): Result<Volume, Error> {
    if name == "" then Err(InvalidParameters)
    else
      match ListAll(pages)
      case Err(e) => Err(ListingFailed(e))
      case Ok(items) => Scan(items, name, None)
  }

  /** A pre-resolved native ID is tried first; only its definite absence stops the name lookup. */
  function Lookup(p: Provider, c: Cloud, name: string, get: GetOutcome, pages: DiskPages): Result<Volume, Error> {
    if p.config.volumeID == "" then LookupByName(name, pages)
    else
      match SdkGet(c, p.config.volumeID, get)
      case Found(v) => Ok(Named(v, name))
      case NotFound => Err(VolumeNotFound)
      case GetFailed => LookupByName(name, pages)
  }

  // ---- Ownership and reply checks ----

  function OwnershipConflict(p: Provider, v: Volume, name: string): Option<Conflict> {
    if OwnershipTag(name) !in v.tags then Some(NoOwnershipTag)
    else if p.ConfigTag() !in v.tags then Some(NoConfigMarker)
    else if v.az != p.config.zone || v.profile != Some(p.config.profile)
         || (v.group.Some? && v.group.value != p.config.resourceGroup) then Some(PlacementMismatch)
    else if v.key.Some? && v.key.value != p.config.encryptionKey then Some(KeyConflict)
    else if p.config.iops != "" && v.iops != Some(p.config.iops) then Some(IopsConflict)
    else if p.config.throughput != 0 && v.bandwidth != p.config.throughput then Some(ThroughputConflict)
    else None
  }

  function InfoMetadata(v: Volume): Params
    requires v.profile.Some?
  {
    map["cloud-volume-path" := v.id,
        "cloud-provider" := "ibmcloud",
        "ibm-volume-id" := v.id,
        "zone" := v.az,
        "profile" := v.profile.value]
  }

  function Info(v: Volume): Result<VolumeInfo, Error> {
    if v.id == "" || v.name == None || v.name == Some("") || v.capacity == None || v.capacity.value <= 0
       || v.capacity.value > MAX_UNITS || v.profile == None then Err(Incomplete)
    else if v.status != "available" then Err(NotAvailable)
    else Ok(VolumeInfo(v.name.value, v.id, v.capacity.value * GIB, "ibmcloud", InfoMetadata(v)))
  }

  /** GetVolumeInfo. */
  function GetInfo(p: Provider, c: Cloud, name: string, get: GetOutcome, pages: DiskPages): Result<VolumeInfo, Error> {
    match Lookup(p, c, name, get, pages)
    case Err(e) => Err(e)
    case Ok(v) =>
      match OwnershipConflict(p, v, name)
      case Some(why) => Err(AlreadyExists(why))
      case None => Info(v)
  }

  // ---- Create ----

  datatype CreateCalls = CreateCalls(get: GetOutcome, pages: DiskPages, create: CreateOutcome, refresh: GetOutcome)

  function DiskTags(p: Provider, name: string): seq<string> {
    [OwnershipTag(name), p.ConfigTag()] + p.config.extraTags
  }

  function Request(p: Provider, name: string, units: int): Volume {
    Volume("", Some(name), Some(units), p.config.zone, Some(p.config.profile), DiskTags(p, name),
           if p.config.resourceGroup != "" then Some(p.config.resourceGroup) else None,
           if ToLower(p.config.encrypted) == "true" && p.config.encryptionKey != ""
             then Some(p.config.encryptionKey) else None,
           if p.config.iops != "" then Some(p.config.iops) else None,
           p.config.throughput, "")
  }

  /** Adopting the disk the lookup found. */
  function Reuse(p: Provider, v: Volume, name: string, needed: int): Result<VolumeInfo, Error> {
    match OwnershipConflict(p, v, name)
    case Some(why) => Err(AlreadyExists(why))
    case None =>
      match Info(v)
      case Err(e) => Err(e)
      case Ok(info) => if info.sizeBytes < needed then Err(AlreadyExists(TooSmall)) else Ok(info)
  }

  /** The create reply once it is available: name restored, then name and size compared. */
  function AcceptReply(v: Volume, name: string, needed: int): Result<VolumeInfo, Error> {
    match Info(Named(v, name))
    case Err(e) => Err(e)
    case Ok(info) =>
      if info.volumeID != name || info.sizeBytes < needed then Err(ResponseMismatch) else Ok(info)
  }

  function CreateFresh(p: Provider, c: Cloud, name: string, needed: int, create: CreateOutcome, refresh: GetOutcome)
    : (Cloud, Result<VolumeInfo, Error>)
  {
    var (c', r) := SdkCreate(c, Request(p, name, needed / GIB), create);
    match r
    case CreateError => (c', Err(CreateFailed))
    case CreatedNil => (c', Err(Incomplete))
    case Created(v) =>
      if v.id != "" && v.status != "available" then
        match SdkGet(c', v.id, refresh)
        case Found(w) => (c', AcceptReply(w, name, needed))
        case _ => (c', Err(RefreshFailed))
      else (c', AcceptReply(v, name, needed))
  }

  function Create(p: Provider, c: Cloud, name: string, size: int, f: CreateCalls)
    : (Cloud, Result<VolumeInfo, Error>)
  {
    if p.config.zone == "" then (c, Err(ZoneMissing))
    else if name == "" then (c, Err(InvalidParameters))
    else
      match Normalized(p.config.profile, size)
      case None => (c, Err(InvalidParameters))
      case Some(needed) =>
        match Lookup(p, c, name, f.get, f.pages)
        case Ok(v) => (c, Reuse(p, v, name, needed))
        case Err(VolumeNotFound) => CreateFresh(p, c, name, needed, f.create, f.refresh)
        case Err(e) => (c, Err(e))
  }

  // ---- Delete and expand ----

  function Delete(p: Provider, c: Cloud, name: string, get: GetOutcome, pages: DiskPages, o: ChangeOutcome)
    : (Cloud, Result<Unit, Error>)
  {
    match Lookup(p, c, name, get, pages)
    case Err(VolumeNotFound) => (c, Ok(Unit))
    case Err(e) => (c, Err(e))
    case Ok(v) =>
      match OwnershipConflict(p, v, name)
      case Some(why) => (c, Err(AlreadyExists(why)))
      case None =>
        if v.id == "" then (c, Err(NoNativeID))
        else
          var (c', ok) := SdkDelete(c, v.id, o);
          (c', if ok then Ok(Unit) else Err(DeleteFailed))
  }

  function Expand(p: Provider, c: Cloud, name: string, size: int64, get: GetOutcome, pages: DiskPages, o: UpdateOutcome)
    : (Cloud, Result<Unit, Error>)
  {
    match GetInfo(p, c, name, get, pages)
    case Err(e) => (c, Err(e))
    case Ok(info) =>
      var (c', ok) := SdkUpdate(c, info.path, ExpandUnits(size), o);
      (c', if ok then Ok(Unit) else Err(UpdateFailed))
  }

  // ---- Recovery listing ----

  /** The tag scan: the last ownership tag's name, and whether an earlier one had already named it. */
  function TagScan(tags: seq<string>): (string, bool) {
    if tags == [] then ("", false)
    else
      var (name, ambiguous) := TagScan(tags[..|tags| - 1]);
      var tag := tags[|tags| - 1];
      if HasPrefix(tag, OWNERSHIP_TAG_PREFIX) then (tag[|OWNERSHIP_TAG_PREFIX|..], ambiguous || name != "")
      else (name, ambiguous)
  }

  /** The name a listed disk is recovered under. */
  function RecoveredName(v: Volume): Option<string> {
    if v.name.Some? then v.name
    else
      var (name, ambiguous) := TagScan(v.tags);
      if name == "" || ambiguous then None else Some(name)
  }

  function Recovered(p: Provider, entry: Option<Volume>): Option<VolumeInfo> {
    if entry == None then None
    else
      match RecoveredName(entry.value)
      case None => None
      case Some(name) =>
        if OwnershipConflict(p, entry.value, name).Some? then None
        else
          match Info(entry.value.(name := Some(name)))
          case Err(_) => None
          case Ok(info) => Some(info)
  }

  function RecoverAll(p: Provider, items: Listing): seq<VolumeInfo> {
    if items == [] then []
    else
      RecoverAll(p, items[..|items| - 1]) +
      match Recovered(p, items[|items| - 1])
      case None => []
      case Some(info) => [info]
  }

  function ListManaged(p: Provider, pages: DiskPages): Result<seq<VolumeInfo>, Error> {
    match ListAll(pages)
    case Err(e) => Err(ListingFailed(e))
    case Ok(items) => Ok(RecoverAll(p, items))
  }

  // ---- The provider object ----

  method HasTag(tags: seq<string>, wanted: string) returns (has: bool)
    ensures has == (wanted in tags)
  {
    has := false;
    for i := 0 to |tags|
      invariant has == (wanted in tags[..i])
    {
      if tags[i] == wanted {
        has := true;
      }
    }
  }

  /** IBMCloudProvider: a configuration and a session. */
  class IBMCloudProvider {
    const p: Provider
    const session: Session

    constructor (p: Provider, session: Session)
      ensures this.p == p && this.session == session
    {
      this.p := p;
      this.session := session;
    }

    method LookupVolume(name: string, get: GetOutcome, pages: DiskPages) returns (r: Result<Volume, Error>)
      ensures r == Lookup(p, session.cloud, name, get, pages)
    {
      if p.config.volumeID != "" {
        var reply := session.GetVolume(p.config.volumeID, get);
        match reply {
          case Found(v) => return Ok(Named(v, name));
          case NotFound => return Err(VolumeNotFound);
          case GetFailed =>
        }
      }
      if name == "" {
        return Err(InvalidParameters);
      }
      var listing := ListVolumes(pages);
      if listing.Err? {
        return Err(ListingFailed(listing.error));
      }
      var found: Option<Volume> := None;
      var items := listing.value;
      for i := 0 to |items|
        invariant Scan(items, name, None) == Scan(items[i..], name, found)
      {
        assert items[i..][1..] == items[i + 1..];
        if items[i].None? {
          return Err(NilVolume);
        }
        var vol := Named(items[i].value, name);
        if vol.name != Some(name) {
          continue;
        }
        if found.Some? {
          return Err(AlreadyExists(Ambiguous));
        }
        found := Some(vol);
      }
      if found.None? {
        return Err(VolumeNotFound);
      }
      return Ok(found.value);
    }

    method CheckOwnedVolume(v: Volume, name: string) returns (conflict: Option<Conflict>)
      ensures conflict == OwnershipConflict(p, v, name)
    {
      var owned := HasTag(v.tags, OwnershipTag(name));
      if !owned {
        return Some(NoOwnershipTag);
      }
      var configMatches := HasTag(v.tags, p.ConfigTag());
      if !configMatches {
        return Some(NoConfigMarker);
      }
      if v.az != p.config.zone || v.profile != Some(p.config.profile) ||
         (v.group.Some? && v.group.value != p.config.resourceGroup) {
        return Some(PlacementMismatch);
      }
      if v.key.Some? && v.key.value != p.config.encryptionKey {
        return Some(KeyConflict);
      }
      if p.config.iops != "" && v.iops != Some(p.config.iops) {
        return Some(IopsConflict);
      }
      if p.config.throughput != 0 && v.bandwidth != p.config.throughput {
        return Some(ThroughputConflict);
      }
      return None;
    }

    method GetVolumeInfo(name: string, get: GetOutcome, pages: DiskPages) returns (r: Result<VolumeInfo, Error>)
      ensures r == GetInfo(p, session.cloud, name, get, pages)
    {
      var vol := LookupVolume(name, get, pages);
      if vol.Err? {
        return Err(vol.error);
      }
      var conflict := CheckOwnedVolume(vol.value, name);
      if conflict.Some? {
        return Err(AlreadyExists(conflict.value));
      }
      return Info(vol.value);
    }

    method CreateVolume(name: string, sizeBytes: int64, f: CreateCalls) returns (r: Result<VolumeInfo, Error>)
      modifies session
      ensures (session.cloud, r) == Create(p, old(session.cloud), name, sizeBytes, f)
    {
      if p.config.zone == "" {
        return Err(ZoneMissing);
      }
      if name == "" {
        return Err(InvalidParameters);
      }
      var needed := NormalizeCapacity(p.config.profile, sizeBytes);
      if needed.None? {
        return Err(InvalidParameters);
      }
      var vol := LookupVolume(name, f.get, f.pages);
      if vol.Err? && vol.error != VolumeNotFound {
        return Err(vol.error);
      }
      if vol.Ok? {
        var conflict := CheckOwnedVolume(vol.value, name);
        if conflict.Some? {
          return Err(AlreadyExists(conflict.value));
        }
        var existing := Info(vol.value);
        if existing.Ok? && existing.value.sizeBytes < needed.value {
          return Err(AlreadyExists(TooSmall));
        }
        return existing;
      }
      var reply := session.CreateVolume(Request(p, name, needed.value / GIB), f.create);
      match reply {
        case CreateError => return Err(CreateFailed);
        case CreatedNil => return Err(Incomplete);
        case Created(volume) =>
          var latest := volume;
          if volume.id != "" && volume.status != "available" {
            var refreshed := session.GetVolume(volume.id, f.refresh);
            if !refreshed.Found? {
              return Err(RefreshFailed);
            }
            latest := refreshed.volume;
          }
          var info := Info(Named(latest, name));
          if info.Ok? && (info.value.volumeID != name || info.value.sizeBytes < needed.value) {
            return Err(ResponseMismatch);
          }
          return info;
      }
    }

    method DeleteVolume(name: string, get: GetOutcome, pages: DiskPages, o: ChangeOutcome)
      returns (r: Result<Unit, Error>)
      modifies session
      ensures (session.cloud, r) == Delete(p, old(session.cloud), name, get, pages, o)
    {
      var vol := LookupVolume(name, get, pages);
      if vol == Err(VolumeNotFound) {
        return Ok(Unit);
      }
      if vol.Err? {
        return Err(vol.error);
      }
      var conflict := CheckOwnedVolume(vol.value, name);
      if conflict.Some? {
        return Err(AlreadyExists(conflict.value));
      }
      if vol.value.id == "" {
        return Err(NoNativeID);
      }
      var ok := session.DeleteVolume(vol.value.id, o);
      return if ok then Ok(Unit) else Err(DeleteFailed);
    }

    method ExpandVolume(name: string, newSizeBytes: int64, get: GetOutcome, pages: DiskPages, o: UpdateOutcome)
      returns (r: Result<Unit, Error>)
      modifies session
      ensures (session.cloud, r) == Expand(p, old(session.cloud), name, newSizeBytes, get, pages, o)
    {
      var info := GetVolumeInfo(name, get, pages);
      if info.Err? {
        return Err(info.error);
      }
      var ok := session.UpdateVolume(info.value.path, ExpandUnits(newSizeBytes), o);
      return if ok then Ok(Unit) else Err(UpdateFailed);
    }

    method ListManagedVolumes(pages: DiskPages) returns (r: Result<seq<VolumeInfo>, Error>)
      ensures r == ListManaged(p, pages)
    {
      var listing := ListVolumes(pages);
      if listing.Err? {
        return Err(ListingFailed(listing.error));
      }
      var vols: seq<VolumeInfo> := [];
      var items := listing.value;
      for i := 0 to |items|
        invariant vols == RecoverAll(p, items[..i])
      {
        assert items[..i + 1][..i] == items[..i];
        var info := RecoverEntry(items[i]);
        if info.Some? {
          vols := vols + [info.value];
        }
      }
      assert items[..|items|] == items;
      return Ok(vols);
    }

    /** The body of the recovery loop: None where it continues without a volume. */
    method RecoverEntry(entry: Option<Volume>) returns (r: Option<VolumeInfo>)
      ensures r == Recovered(p, entry)
    {
      if entry.None? {
        return None;
      }
      var vol := entry.value;
      if vol.name.None? {
        var name, ambiguous := ScanTags(vol.tags);
        if name == "" || ambiguous {
          return None;
        }
        vol := vol.(name := Some(name));
      }
      var conflict := CheckOwnedVolume(vol, vol.name.value);
      if conflict.Some? {
        return None;
      }
      var info := Info(vol);
      if info.Err? {
        return None;
      }
      return Some(info.value);
    }

    method ScanTags(tags: seq<string>) returns (name: string, ambiguous: bool)
      ensures (name, ambiguous) == TagScan(tags)
    {
      name, ambiguous := "", false;
      for i := 0 to |tags|
        invariant (name, ambiguous) == TagScan(tags[..i])
      {
        assert tags[..i + 1][..i] == tags[..i];
        if HasPrefix(tags[i], OWNERSHIP_TAG_PREFIX) {
          if name != "" {
            ambiguous := true;
          }
          name := tags[i][|OWNERSHIP_TAG_PREFIX|..];
        }
      }
      assert tags[..|tags|] == tags;
    }
  }
}
