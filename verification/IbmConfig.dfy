/**
 The IBM provider's configuration: parsing of StorageClass parameters (or a volume context), the
 ownership and configuration tags, and the resource-group default.
 */
module IbmConfig {
  import opened Basics
  import opened Decimal

  datatype Config = Config(
    region: string,
    zone: string,
    resourceGroup: string,
    profile: string,
    iops: string,
    encrypted: string,
    encryptionKey: string,
    billingType: string,
    extraTags: seq<string>,
    fsType: string,
    throughput: int32,
    volumeID: string)

  datatype ConfigError =
    | MissingPlacement
    | UnsupportedProfile
    | ZoneOutsideRegion
    | CustomNeedsIops
    | IopsNotSupported
    | BadIops
    | BadThroughput
    | BadEncrypted
    | KeyMismatch
    | ReservedTag
    | NoResourceGroup
    | NoSession
    | UnsupportedProvider

  const OWNERSHIP_TAG_PREFIX := "caa-csi-volume-id:"
  const CONFIG_TAG_PREFIX := "caa-csi-config:"
  const PROFILES := {"general-purpose", "5iops-tier", "10iops-tier", "custom", "sdp"}

  // ---- strings.Split, strings.TrimSpace and strings.ToLower ----

  function Split(s: string, sep: char): (pieces: seq<string>)
    ensures |pieces| > 0
  {
    if s == "" then [""]
    else
      var rest := Split(s[1..], sep);
      if s[0] == sep then [""] + rest else [[s[0]] + rest[0]] + rest[1..]
  }

  /** unicode.IsSpace. */
  predicate IsSpace(c: char) {
    var code := c as int;
    || 9 <= code <= 13 || code == 32 || code == 0x85 || code == 0xA0
    || code == 0x1680 || 0x2000 <= code <= 0x200A || code == 0x2028 || code == 0x2029
    || code == 0x202F || code == 0x205F || code == 0x3000
  }

  function TrimLeft(s: string): string {
    if s != "" && IsSpace(s[0]) then TrimLeft(s[1..]) else s
  }

  function TrimRight(s: string): string {
    if s != "" && IsSpace(s[|s| - 1]) then TrimRight(s[..|s| - 1]) else s
  }

  function TrimSpace(s: string): string {
    TrimRight(TrimLeft(s))
  }

  /** Lower-casing is only ever compared with "true" and "false", so ASCII is enough. */
  function ToLower(s: string): string {
    if s == "" then ""
    else
      var c := s[0];
      [if 'A' <= c <= 'Z' then (c as int + 32) as char else c] + ToLower(s[1..])
  }

  // ---- Extra tags ----

  function CleanTags(pieces: seq<string>): seq<string> {
    if pieces == [] then []
    else
      var last := TrimSpace(pieces[|pieces| - 1]);
      CleanTags(pieces[..|pieces| - 1]) + (if last != "" then [last] else [])
  }

  function ExtraTags(tags: string): seq<string> {
    if tags == "" then [] else CleanTags(Split(tags, ','))
  }

  method SplitTags(tagsStr: string) returns (extraTags: seq<string>)
    ensures extraTags == ExtraTags(tagsStr)
  {
    extraTags := [];
    if tagsStr != "" {
      var pieces := Split(tagsStr, ',');
      for i := 0 to |pieces|
        invariant extraTags == CleanTags(pieces[..i])
      {
        var trimmed := TrimSpace(pieces[i]);
        assert pieces[..i + 1][..i] == pieces[..i];
        if trimmed != "" {
          extraTags := extraTags + [trimmed];
        }
      }
      assert pieces[..|pieces|] == pieces;
    }
  }

  predicate IsReserved(tag: string) {
    HasPrefix(tag, OWNERSHIP_TAG_PREFIX) || HasPrefix(tag, CONFIG_TAG_PREFIX)
  }

  predicate AnyReserved(tags: seq<string>) {
    exists i :: 0 <= i < |tags| && IsReserved(tags[i])
  }

  method FindReserved(tags: seq<string>) returns (found: bool)
    ensures found == AnyReserved(tags)
  {
    for i := 0 to |tags|
      invariant !AnyReserved(tags[..i])
    {
      if IsReserved(tags[i]) {
        return true;
      }
    }
    return false;
  }

  // ---- Parsing ----

  /** The fields as read from the parameters, aliases and the profile default resolved. */
  function Raw(params: Params): Config {
    Config(
      FirstNonEmpty(Get(params, "region"), Get(params, "ibmRegion")),
      FirstNonEmpty(Get(params, "zone"), Get(params, "ibmZone")),
      FirstNonEmpty(Get(params, "resourceGroup"), Get(params, "ibmResourceGroup")),
      FirstNonEmpty(FirstNonEmpty(Get(params, "profile"), Get(params, "ibmProfile")), "general-purpose"),
      FirstNonEmpty(Get(params, "iops"), Get(params, "ibmIops")),
      Get(params, "encrypted"),
      Get(params, "encryptionKey"),
      Get(params, "billingType"),
      ExtraTags(Get(params, "tags")),
      Get(params, "csi.storage.k8s.io/fstype"),
      0,
      FirstNonEmpty(Get(params, "ibm-volume-id"), Get(params, "cloud-volume-path")))
  }

  /** The IOPS text in canonical form; empty stays empty. */
  function CanonicalIops(iops: string): Option<string> {
    if iops == "" then Some("")
    else
      match ParseInt64(iops)
      case None => None
      case Some(n) => if n <= 0 then None else Some(FormatInt(n))
  }

  function Throughput(value: string): Option<int32> {
    if value == "" then Some(0)
    else
      match ParseInt32(value)
      case None => None
      case Some(n) => if n <= 0 then None else Some(n)
  }

  function PlacementError(raw: Config): Option<ConfigError> {
    if raw.region == "" || raw.zone == "" then Some(MissingPlacement)
    else if raw.profile !in PROFILES then Some(UnsupportedProfile)
    else if !HasPrefix(raw.zone, raw.region) then Some(ZoneOutsideRegion)
    else if raw.profile == "custom" && raw.iops == "" then Some(CustomNeedsIops)
    else if raw.profile != "custom" && raw.profile != "sdp" && raw.iops != "" then Some(IopsNotSupported)
    else None
  }

  /** The configuration with its numbers canonical and its defaults filled in. */
  function Settled(raw: Config, iops: string, bandwidth: int32): Config {
    raw.(iops := iops,
         throughput := bandwidth,
         billingType := FirstNonEmpty(raw.billingType, "hourly"),
         fsType := FirstNonEmpty(raw.fsType, "ext4"),
         encrypted := ToLower(FirstNonEmpty(raw.encrypted, "false")))
  }

  function SettingsError(cfg: Config): Option<ConfigError> {
    if cfg.encrypted != "true" && cfg.encrypted != "false" then Some(BadEncrypted)
    else if (cfg.encrypted == "true") != (cfg.encryptionKey != "") then Some(KeyMismatch)
    else if AnyReserved(cfg.extraTags) then Some(ReservedTag)
    else None
  }

  function Validate(raw: Config, throughput: string): Result<Config, ConfigError> {
    match PlacementError(raw)
    case Some(e) => Err(e)
    case None =>
      match CanonicalIops(raw.iops)
      case None => Err(BadIops)
      case Some(iops) =>
        match Throughput(throughput)
        case None => Err(BadThroughput)
        case Some(bandwidth) =>
          var cfg := Settled(raw, iops, bandwidth);
          match SettingsError(cfg)
          case Some(e) => Err(e)
          case None => Ok(cfg)
  }

  function Parse(params: Params): Result<Config, ConfigError> {
    Validate(Raw(params), Get(params, "throughput"))
  }

  /** The first third of parseConfig: aliases, the profile default and the extra tags. */
  method ReadConfig(params: Params) returns (cfg: Config)
    ensures cfg == Raw(params)
  {
    var region := Get(params, "region");
    if region == "" { region := Get(params, "ibmRegion"); }
    var zone := Get(params, "zone");
    if zone == "" { zone := Get(params, "ibmZone"); }
    var profile := Get(params, "profile");
    if profile == "" { profile := Get(params, "ibmProfile"); }
    if profile == "" { profile := "general-purpose"; }
    var resourceGroup := Get(params, "resourceGroup");
    if resourceGroup == "" { resourceGroup := Get(params, "ibmResourceGroup"); }
    var iops := Get(params, "iops");
    if iops == "" { iops := Get(params, "ibmIops"); }
    var extraTags := SplitTags(Get(params, "tags"));
    var volumeID := Get(params, "ibm-volume-id");
    if volumeID == "" { volumeID := Get(params, "cloud-volume-path"); }
    cfg := Config(region, zone, resourceGroup, profile, iops, Get(params, "encrypted"),
                  Get(params, "encryptionKey"), Get(params, "billingType"), extraTags,
                  Get(params, "csi.storage.k8s.io/fstype"), 0, volumeID);
  }

  /** The last third: defaults, the encryption rules and the reserved tag prefixes. */
  method FinishConfig(raw: Config, iops: string, bandwidth: int32) returns (r: Result<Config, ConfigError>)
    ensures r == match SettingsError(Settled(raw, iops, bandwidth))
                 case Some(e) => Err(e)
                 case None => Ok(Settled(raw, iops, bandwidth))
  {
    var cfg := raw.(iops := iops, throughput := bandwidth);
    if cfg.billingType == "" { cfg := cfg.(billingType := "hourly"); }
    if cfg.fsType == "" { cfg := cfg.(fsType := "ext4"); }
    if cfg.encrypted == "" { cfg := cfg.(encrypted := "false"); }
    cfg := cfg.(encrypted := ToLower(cfg.encrypted));
    assert cfg == Settled(raw, iops, bandwidth);
    if cfg.encrypted != "true" && cfg.encrypted != "false" { return Err(BadEncrypted); }
    if (cfg.encrypted == "true") != (cfg.encryptionKey != "") { return Err(KeyMismatch); }
    var reserved := FindReserved(cfg.extraTags);
    if reserved { return Err(ReservedTag); }
    return Ok(cfg);
  }

  /** The middle third: IOPS in canonical form, and the bandwidth. */
  method ReadNumbers(iopsText: string, throughput: string) returns (r: Result<(string, int32), ConfigError>)
    ensures r == match CanonicalIops(iopsText)
                 case None => Err(BadIops)
                 case Some(iops) =>
                   match Throughput(throughput)
                   case None => Err(BadThroughput)
                   case Some(bandwidth) => Ok((iops, bandwidth))
  {
    var iops := iopsText;
    if iops != "" {
      var parsed := ParseInt64(iops);
      if parsed.None? || parsed.value <= 0 { return Err(BadIops); }
      iops := FormatInt(parsed.value);
    }
    var bandwidth: int32 := 0;
    if throughput != "" {
      var parsed := ParseInt32(throughput);
      if parsed.None? || parsed.value <= 0 { return Err(BadThroughput); }
      bandwidth := parsed.value;
    }
    return Ok((iops, bandwidth));
  }

  /** parseConfig. */
  method ParseConfig(params: Params) returns (r: Result<Config, ConfigError>)
    ensures r == Parse(params)
  {
    var raw := ReadConfig(params);
    var misplaced := PlacementError(raw);
    if misplaced.Some? { return Err(misplaced.value); }
    var numbers := ReadNumbers(raw.iops, Get(params, "throughput"));
    if numbers.Err? { return Err(numbers.error); }
    r := FinishConfig(raw, numbers.value.0, numbers.value.1);
  }

  // ---- The provider value ----

  /**
   A provider instance: its configuration and the SHA-256 digest of configurations, which stays an
   arbitrary function.
   */
  datatype Provider = Provider(config: Config, digest: Config -> string) {
    /** configTag: the digest leaves out the extra tags and the pre-resolved volume ID. */
    function ConfigTag(): string {
      CONFIG_TAG_PREFIX + digest(config.(extraTags := [], volumeID := ""))
    }
  }

  function OwnershipTag(name: string): string {
    OWNERSHIP_TAG_PREFIX + name
  }

  /** What is fixed for one installation: the digest and the cluster's default resource group. */
  datatype Deployment = Deployment(digest: Config -> string, defaultGroup: string)

  /** NewBlockVolumeProvider for cloudProvider=ibmcloud; `sessionOk` is the Kubernetes and SDK outcome. */
  function NewProvider(d: Deployment, params: Params, sessionOk: bool): Result<Provider, ConfigError> {
    if Get(params, "cloudProvider") != "ibmcloud" then Err(UnsupportedProvider)
    else
      match Parse(params)
      case Err(e) => Err(e)
      case Ok(cfg) =>
        if !sessionOk then Err(NoSession)
        else
          var group := FirstNonEmpty(cfg.resourceGroup, d.defaultGroup);
          if group == "" then Err(NoResourceGroup)
          else Ok(Provider(cfg.(resourceGroup := group), d.digest))
  }

  /** NewIBMCloudProvider behind the factory: parse, connect, default the resource group. */
  method MakeProvider(d: Deployment, params: Params, sessionOk: bool) returns (r: Result<Provider, ConfigError>)
    ensures r == NewProvider(d, params, sessionOk)
  {
    if Get(params, "cloudProvider") != "ibmcloud" {
      return Err(UnsupportedProvider);
    }
    var parsed := ParseConfig(params);
    if parsed.Err? {
      return Err(parsed.error);
    }
    if !sessionOk {
      return Err(NoSession);
    }
    var cfg := parsed.value;
    if cfg.resourceGroup == "" {
      if d.defaultGroup == "" {
        return Err(NoResourceGroup);
      }
      cfg := cfg.(resourceGroup := d.defaultGroup);
    }
    return Ok(Provider(cfg, d.digest));
  }

  /** Every configuration the parser accepts. */
  ghost predicate Accepted(cfg: Config) {
    && cfg.region != "" && cfg.zone != "" && HasPrefix(cfg.zone, cfg.region)
    && cfg.profile in PROFILES
    && (cfg.iops != "" ==> cfg.profile == "custom" || cfg.profile == "sdp")
    && (cfg.profile == "custom" ==> cfg.iops != "")
    && (cfg.encrypted == "true" <==> cfg.encryptionKey != "")
    && cfg.throughput >= 0
    && !AnyReserved(cfg.extraTags)
  }

  lemma ParseAccepts(params: Params)
    requires Parse(params).Ok?
    ensures Accepted(Parse(params).value)
    ensures Parse(params).value.volumeID == Raw(params).volumeID
  {
    var raw := Raw(params);
    if raw.iops != "" {
      var n := ParseInt64(raw.iops).value;
      assert FormatInt(n) != "";
    }
  }

  /** Canonical IOPS text is a fixed point, so re-parsing it compares equal with the cloud's echo. */
  lemma CanonicalIopsIsStable(iops: string)
    requires CanonicalIops(iops).Some?
    ensures CanonicalIops(CanonicalIops(iops).value) == CanonicalIops(iops)
  {
    if iops != "" {
      var n := ParseInt64(iops).value;
      ParseAfterFormat(n);
    }
  }
}
