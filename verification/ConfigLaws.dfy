/** What the configuration parser accepts and makes of its input, in terms of the parameters' text. */
module ConfigLaws {
  import opened Basics
  import opened Decimal
  import opened IbmConfig

  // ---- Text ----

  function Joined(pieces: seq<string>, sep: char): string
    requires pieces != []
  {
    if |pieces| == 1 then pieces[0] else pieces[0] + [sep] + Joined(pieces[1..], sep)
  }

  /** Splitting loses nothing and leaves no separator inside a piece. */
  lemma {:induction false} SplitRoundTrip(s: string, sep: char)
    ensures Joined(Split(s, sep), sep) == s
    ensures forall i :: 0 <= i < |Split(s, sep)| ==> sep !in Split(s, sep)[i]
  {
    if s != "" {
      var rest := Split(s[1..], sep);
      SplitRoundTrip(s[1..], sep);
      if s[0] == sep {
        assert Split(s, sep)[1..] == rest;
      } else {
        assert Split(s, sep) == [[s[0]] + rest[0]] + rest[1..];
        assert |rest| > 1 ==> Split(s, sep)[1..] == rest[1..];
      }
    }
  }

  predicate AllSpace(s: string) {
    forall i :: 0 <= i < |s| ==> IsSpace(s[i])
  }

  lemma {:induction false} TrimLeftTakesSpace(s: string) returns (lead: string)
    ensures s == lead + TrimLeft(s) && AllSpace(lead)
    ensures TrimLeft(s) != "" ==> !IsSpace(TrimLeft(s)[0])
  {
    lead := "";
    if s != "" && IsSpace(s[0]) {
      var rest := TrimLeftTakesSpace(s[1..]);
      lead := [s[0]] + rest;
    }
  }

  lemma {:induction false} TrimRightTakesSpace(s: string) returns (trail: string)
    ensures s == TrimRight(s) + trail && AllSpace(trail)
    ensures TrimRight(s) != "" ==> !IsSpace(TrimRight(s)[|TrimRight(s)| - 1]) && TrimRight(s)[0] == s[0]
  {
    trail := "";
    if s != "" && IsSpace(s[|s| - 1]) {
      var rest := TrimRightTakesSpace(s[..|s| - 1]);
      trail := rest + [s[|s| - 1]];
    }
  }

  /** Trimming takes space off both ends, all of it, and nothing else. */
  lemma TrimTakesSpace(s: string) returns (lead: string, trail: string)
    ensures s == lead + TrimSpace(s) + trail && AllSpace(lead) && AllSpace(trail)
    ensures TrimSpace(s) != "" ==> !IsSpace(TrimSpace(s)[0]) && !IsSpace(TrimSpace(s)[|TrimSpace(s)| - 1])
  {
    lead := TrimLeftTakesSpace(s);
    trail := TrimRightTakesSpace(TrimLeft(s));
  }

  lemma SpacesAre()
    ensures IsSpace(' ') && IsSpace('\t') && IsSpace('\n') && IsSpace('\r')
    ensures forall c: char :: '!' <= c <= '~' ==> !IsSpace(c)
  {
  }

  lemma {:induction false} LowerIsCharwise(s: string)
    ensures |ToLower(s)| == |s|
    ensures forall i :: 0 <= i < |s| ==>
              ToLower(s)[i] == if 'A' <= s[i] <= 'Z' then (s[i] as int + 32) as char else s[i]
  {
    if s != "" {
      LowerIsCharwise(s[1..]);
    }
  }

  // ---- Extra tags ----

  /** The extra tags are the trimmed, non-empty pieces of the tag text. */
  lemma {:induction false} CleanTagsAre(pieces: seq<string>, tag: string)
    ensures tag in CleanTags(pieces) <==> tag != "" && exists i :: 0 <= i < |pieces| && TrimSpace(pieces[i]) == tag
  {
    if pieces != [] {
      var init, last := pieces[..|pieces| - 1], |pieces| - 1;
      CleanTagsAre(init, tag);
      if exists i :: 0 <= i < |pieces| && TrimSpace(pieces[i]) == tag {
        var i :| 0 <= i < |pieces| && TrimSpace(pieces[i]) == tag;
        assert i < last ==> init[i] == pieces[i];
      }
      if exists i :: 0 <= i < |init| && TrimSpace(init[i]) == tag {
        var i :| 0 <= i < |init| && TrimSpace(init[i]) == tag;
        assert pieces[i] == init[i];
      }
    }
  }

  /** They come in the order of the text. */
  lemma {:induction false} CleanTagsKeepOrder(a: seq<string>, b: seq<string>)
    ensures CleanTags(a + b) == CleanTags(a) + CleanTags(b)
  {
    if b == [] {
      assert a + b == a;
    } else {
      assert (a + b)[..|a + b| - 1] == a + b[..|b| - 1];
      CleanTagsKeepOrder(a, b[..|b| - 1]);
    }
  }

  lemma ExtraTagsAre(tags: string, pieces: seq<string>, tag: string)
    requires pieces == Split(tags, ',')
    ensures tag in ExtraTags(tags) <==> tag != "" && exists i :: 0 <= i < |pieces| && TrimSpace(pieces[i]) == tag
  {
    CleanTagsAre(pieces, tag);
    if tags == "" {
      assert pieces == [""] && TrimSpace(pieces[0]) == "";
    }
  }

  // ---- Parameters ----

  /** The plain key counts before the prefixed one; the native ID is read from its own key first. */
  lemma PlainKeysGoFirst(params: Params)
    ensures var raw := Raw(params);
            && raw.region == (if Get(params, "region") != "" then Get(params, "region") else Get(params, "ibmRegion"))
            && raw.zone == (if Get(params, "zone") != "" then Get(params, "zone") else Get(params, "ibmZone"))
            && raw.resourceGroup == (if Get(params, "resourceGroup") != "" then Get(params, "resourceGroup") else Get(params, "ibmResourceGroup"))
            && raw.iops == (if Get(params, "iops") != "" then Get(params, "iops") else Get(params, "ibmIops"))
            && raw.profile == (if Get(params, "profile") != "" then Get(params, "profile")
                               else if Get(params, "ibmProfile") != "" then Get(params, "ibmProfile") else "general-purpose")
            && raw.volumeID == (if Get(params, "ibm-volume-id") != "" then Get(params, "ibm-volume-id") else Get(params, "cloud-volume-path"))
  {
  }

  /** A number of IOPS is accepted exactly if positive and 64-bit, and printed plainly. */
  lemma IopsAcceptedIff(n: int)
    ensures CanonicalIops(FormatInt(n)) == if 0 < n <= MAX_INT64 then Some(FormatInt(n)) else None
    ensures CanonicalIops("") == Some("")
  {
    ParseFormattedIff(n);
    assert FormatInt(n) != "";
  }

  /** Any accepted IOPS text means the number it parses as. */
  lemma IopsKeepTheirValue(text: string)
    requires text != ""
    ensures CanonicalIops(text).Some? <==> ParseInt64(text).Some? && ParseInt64(text).value > 0
    ensures CanonicalIops(text).Some? ==> ParseInt64(CanonicalIops(text).value) == ParseInt64(text)
  {
    if CanonicalIops(text).Some? {
      ParseFormattedIff(ParseInt64(text).value);
    }
  }

  lemma ThroughputAcceptedIff(n: int)
    ensures Throughput(FormatInt(n)) == if 0 < n <= 0x7fff_ffff then Some(n) else None
    ensures Throughput("") == Some(0)
  {
    ParseFormattedIff(n);
    assert FormatInt(n) != "";
  }

  /** The encryption setting in lower case, off unless given. */
  function Encryption(params: Params): string {
    ToLower(if Get(params, "encrypted") == "" then "false" else Get(params, "encrypted"))
  }

  /** A zone inside its region, a known profile, and IOPS exactly where the profile has them. */
  predicate GoodPlacement(raw: Config) {
    && raw.region != "" && raw.zone != "" && raw.region <= raw.zone
    && raw.profile in {"general-purpose", "5iops-tier", "10iops-tier", "custom", "sdp"}
    && (raw.profile == "custom" ==> raw.iops != "")
    && (raw.iops != "" ==> raw.profile == "custom" || raw.profile == "sdp")
  }

  /** Encryption on exactly with a key, and no extra tag that looks like the driver's own. */
  ghost predicate GoodSettings(encrypted: string, key: string, tags: seq<string>) {
    && (encrypted == "true" || encrypted == "false")
    && (encrypted == "true" <==> key != "")
    && forall tag :: tag in tags ==> !("caa-csi-volume-id:" <= tag) && !("caa-csi-config:" <= tag)
  }

  /** Everything the parser asks of the parameters. */
  ghost predicate Acceptable(params: Params) {
    && GoodPlacement(Raw(params))
    && CanonicalIops(Raw(params).iops).Some? && Throughput(Get(params, "throughput")).Some?
    && GoodSettings(Encryption(params), Get(params, "encryptionKey"), ExtraTags(Get(params, "tags")))
  }

  lemma PlacementAcceptedIff(raw: Config)
    ensures PlacementError(raw).None? <==> GoodPlacement(raw)
  {
  }

  lemma SettingsAcceptedIff(cfg: Config)
    ensures SettingsError(cfg).None? <==> GoodSettings(cfg.encrypted, cfg.encryptionKey, cfg.extraTags)
  {
    AnyReservedIff(cfg.extraTags);
  }

  lemma AnyReservedIff(tags: seq<string>)
    ensures AnyReserved(tags) <==> exists tag :: tag in tags && ("caa-csi-volume-id:" <= tag || "caa-csi-config:" <= tag)
  {
    if AnyReserved(tags) {
      var i :| 0 <= i < |tags| && IsReserved(tags[i]);
      assert tags[i] in tags;
    }
    forall tag | tag in tags && ("caa-csi-volume-id:" <= tag || "caa-csi-config:" <= tag)
      ensures AnyReserved(tags)
    {
      var i :| 0 <= i < |tags| && tags[i] == tag;
      assert IsReserved(tags[i]);
    }
  }

  /** Parsing succeeds exactly on acceptable parameters. */
  lemma ParseSucceedsIff(params: Params)
    ensures Parse(params).Ok? <==> Acceptable(params)
  {
    var raw := Raw(params);
    PlacementAcceptedIff(raw);
    if CanonicalIops(raw.iops).Some? && Throughput(Get(params, "throughput")).Some? {
      SettingsAcceptedIff(Settled(raw, CanonicalIops(raw.iops).value, Throughput(Get(params, "throughput")).value));
    }
  }

  /** An accepted configuration keeps what was given and fills in the defaults. */
  lemma ParsedConfigIs(params: Params)
    requires Parse(params).Ok?
    ensures var raw, cfg := Raw(params), Parse(params).value;
            && (cfg.region, cfg.zone, cfg.resourceGroup, cfg.profile) == (raw.region, raw.zone, raw.resourceGroup, raw.profile)
            && cfg.volumeID == raw.volumeID && cfg.extraTags == ExtraTags(Get(params, "tags"))
            && Some(cfg.iops) == CanonicalIops(raw.iops) && Some(cfg.throughput) == Throughput(Get(params, "throughput"))
            && cfg.encrypted == Encryption(params) && cfg.encryptionKey == Get(params, "encryptionKey")
            && cfg.billingType == (if Get(params, "billingType") == "" then "hourly" else Get(params, "billingType"))
            && cfg.fsType == (if Get(params, "csi.storage.k8s.io/fstype") == "" then "ext4" else Get(params, "csi.storage.k8s.io/fstype"))
  {
  }

  /**
   A provider is made exactly for cloudProvider=ibmcloud, acceptable parameters, a session, and a resource
   group given by either side; the parameters' own group wins.
   */
  lemma ProviderMadeIff(d: Deployment, params: Params, sessionOk: bool)
    ensures NewProvider(d, params, sessionOk).Ok? <==>
              && Get(params, "cloudProvider") == "ibmcloud" && Parse(params).Ok? && sessionOk
              && (Parse(params).value.resourceGroup != "" || d.defaultGroup != "")
    ensures NewProvider(d, params, sessionOk).Ok? ==>
              var p, cfg := NewProvider(d, params, sessionOk).value, Parse(params).value;
              && p.digest == d.digest
              && p.config.resourceGroup == (if cfg.resourceGroup != "" then cfg.resourceGroup else d.defaultGroup)
              && p.config.(resourceGroup := "") == cfg.(resourceGroup := "")
  {
  }

  /** The marker does not depend on extra tags and native ID, and on everything else through the digest only. */
  lemma MarkerDependsOn(p: Provider, tags: seq<string>, id: string)
    ensures Provider(p.config.(extraTags := tags, volumeID := id), p.digest).ConfigTag() == p.ConfigTag()
    ensures p.ConfigTag() == "caa-csi-config:" + p.digest(p.config.(extraTags := [], volumeID := ""))
  {
    assert p.config.(extraTags := tags, volumeID := id).(extraTags := [], volumeID := "") == p.config.(extraTags := [], volumeID := "");
  }
}
