/**
 Placement: choosing a zone and region from the scheduler's accessibility requirements, the topology
 a volume answers with, and the topology a node advertises.
 */
module Topology {
  import opened Basics

  const ZONE_KEY := "topology.caa-csi.io/zone"
  const REGION_KEY := "topology.caa-csi.io/region"
  const IGNORED_ZONE := "default"

  const ZONE_KEYS := [ZONE_KEY, "topology.kubernetes.io/zone", "failure-domain.beta.kubernetes.io/zone",
                      "ibm-cloud.kubernetes.io/zone"]
  const REGION_KEYS := [REGION_KEY, "topology.kubernetes.io/region", "failure-domain.beta.kubernetes.io/region",
                        "ibm-cloud.kubernetes.io/region"]

  /** One topology term; None is a nil entry. */
  type Term = Option<Params>

  datatype Requirement = Requirement(preferred: seq<Term>, requisite: seq<Term>)

  // ---- Selection ----

  /** The first of the keys that has a value. */
  function KeyValue(segments: Params, keys: seq<string>): string {
    if keys == [] then ""
    else if Get(segments, keys[0]) != "" then Get(segments, keys[0])
    else KeyValue(segments, keys[1..])
  }

  function TermValue(term: Term, keys: seq<string>): string {
    match term case None => "" case Some(segments) => KeyValue(segments, keys)
  }

  function FirstSegment(terms: seq<Term>, keys: seq<string>): string {
    if terms == [] then ""
    else if TermValue(terms[0], keys) != "" then TermValue(terms[0], keys)
    else FirstSegment(terms[1..], keys)
  }

  method FirstSegmentLoop(terms: seq<Term>, keys: seq<string>) returns (value: string)
    ensures value == FirstSegment(terms, keys)
  {
    for i := 0 to |terms|
      invariant FirstSegment(terms, keys) == FirstSegment(terms[i..], keys)
    {
      assert terms[i..][1..] == terms[i + 1..];
      if terms[i].None? {
        continue;
      }
      var segments := terms[i].value;
      for k := 0 to |keys|
        invariant KeyValue(segments, keys) == KeyValue(segments, keys[k..])
      {
        assert keys[k..][1..] == keys[k + 1..];
        if Get(segments, keys[k]) != "" {
          return Get(segments, keys[k]);
        }
      }
    }
    return "";
  }

  function TopologyValue(req: Option<Requirement>, keys: seq<string>): string {
    match req
    case None => ""
    case Some(r) => FirstNonEmpty(FirstSegment(r.preferred, keys), FirstSegment(r.requisite, keys))
  }

  function SetIfEmpty(params: Params, key: string, alias: string, value: string): Params {
    if Get(params, key) == "" && Get(params, alias) == "" && value != "" then params[key := value] else params
  }

  /** applyTopologyParams. */
  function Apply(params: Params, req: Option<Requirement>): Params {
    var provider := Get(params, "cloudProvider");
    var zone := TopologyValue(req, ZONE_KEYS);
    if (provider != "aws" && provider != "ibmcloud") || zone == "" || zone == IGNORED_ZONE then params
    else if provider == "aws" then SetIfEmpty(params, "awsAvailabilityZone", "awsAvailabilityZone", zone)
    else SetIfEmpty(SetIfEmpty(params, "zone", "ibmZone", zone), "region", "ibmRegion", TopologyValue(req, REGION_KEYS))
  }

  method ApplyTopologyParams(original: Params, req: Option<Requirement>) returns (params: Params)
    ensures params == Apply(original, req)
  {
    params := original;
    var provider := Get(params, "cloudProvider");
    if provider != "aws" && provider != "ibmcloud" {
      return;
    }
    var zone := TopologyValue(req, ZONE_KEYS);
    if zone == "" || zone == IGNORED_ZONE {
      return;
    }
    if provider == "aws" {
      if Get(params, "awsAvailabilityZone") == "" {
        params := params["awsAvailabilityZone" := zone];
      }
    } else {
      if Get(params, "zone") == "" && Get(params, "ibmZone") == "" {
        params := params["zone" := zone];
      }
      if Get(params, "region") == "" && Get(params, "ibmRegion") == "" {
        var region := TopologyValue(req, REGION_KEYS);
        if region != "" {
          params := params["region" := region];
        }
      }
    }
  }

  // ---- Advertisement ----

  /** The segments for a zone and an optional region; no zone means no topology. */
  function Segments(zone: string, region: string): Option<Params> {
    if zone == "" then None
    else if region == "" then Some(map[ZONE_KEY := zone])
    else Some(map[ZONE_KEY := zone, REGION_KEY := region])
  }

  /** accessibleTopology: the one topology a volume answers with. */
  function Accessible(params: Params): Option<Params> {
    if Get(params, "awsAvailabilityZone") != "" then
      Segments(Get(params, "awsAvailabilityZone"), Get(params, "awsRegion"))
    else if Get(params, "cloudProvider") == "ibmcloud" then
      Segments(FirstNonEmpty(Get(params, "zone"), Get(params, "ibmZone")),
               FirstNonEmpty(Get(params, "region"), Get(params, "ibmRegion")))
    else None
  }

  /** resolveNodeTopology: environment first, node labels otherwise; None is a failed label lookup. */
  function NodeTopology(envRegion: string, envZone: string, labels: Option<(string, string)>): Option<Params> {
    if envRegion != "" || envZone != "" then Segments(envZone, envRegion)
    else
      match labels
      case None => None
      case Some((region, zone)) => Segments(zone, region)
  }

  // ---- Laws ----

  lemma ApplyIsIdempotent(params: Params, req: Option<Requirement>)
    ensures Apply(Apply(params, req), req) == Apply(params, req)
  {
    var once := Apply(params, req);
    assert Get(once, "cloudProvider") == Get(params, "cloudProvider");
  }

  /** No explicit placement in the StorageClass. */
  predicate Unplaced(params: Params) {
    && Get(params, "awsAvailabilityZone") == ""
    && Get(params, "zone") == "" && Get(params, "ibmZone") == ""
    && Get(params, "region") == "" && Get(params, "ibmRegion") == ""
  }

  lemma AdvertisedValues(zone: string, region: string)
    requires zone != ""
    ensures var segments := Segments(zone, region).value;
            KeyValue(segments, ZONE_KEYS) == zone && KeyValue(segments, REGION_KEYS) == region
  {
    var segments := Segments(zone, region).value;
    assert ZONE_KEY[20..] != REGION_KEY[20..];
    assert REGION_KEY != ZONE_KEY;
    assert Get(segments, ZONE_KEYS[0]) == zone;
    if region == "" {
      assert segments.Keys == {ZONE_KEY};
      NoKeyNoValue(segments, REGION_KEYS);
    } else {
      assert Get(segments, REGION_KEYS[0]) == region;
    }
  }

  lemma {:induction false} NoKeyNoValue(segments: Params, keys: seq<string>)
    requires forall i :: 0 <= i < |keys| ==> keys[i] !in segments
    ensures KeyValue(segments, keys) == ""
  {
    if keys != [] {
      assert keys[0] !in segments;
      forall i | 0 <= i < |keys[1..]| ensures keys[1..][i] !in segments {
        assert keys[1..][i] == keys[i + 1];
      }
      NoKeyNoValue(segments, keys[1..]);
    }
  }

  /** The region the other terms would supply if the node's term carries none. */
  function OtherRegion(rest: seq<Term>, requisite: seq<Term>): string {
    FirstNonEmpty(FirstSegment(rest, REGION_KEYS), FirstSegment(requisite, REGION_KEYS))
  }

  /**
   Round trip: a node's advertised topology, preferred by the scheduler for a volume without explicit
   placement, comes back as the volume's topology. The zone always does; on IBM the segments are the
   node's own exactly when the node advertises a region or no other term carries one.
   */
  lemma NodeTopologyComesBack(params: Params, zone: string, region: string, rest: seq<Term>, requisite: seq<Term>)
    requires Unplaced(params) && zone != "" && zone != IGNORED_ZONE
    requires Get(params, "cloudProvider") == "aws" || Get(params, "cloudProvider") == "ibmcloud"
    ensures var node := NodeTopology(region, zone, None);
            var placed := Accessible(Apply(params, Some(Requirement([node] + rest, requisite))));
            && node.Some? && placed.Some?
            && Get(placed.value, ZONE_KEY) == zone
            && (Get(params, "cloudProvider") == "ibmcloud" ==>
                  (placed == node <==> region != "" || OtherRegion(rest, requisite) == ""))
  {
    AdvertisedValues(zone, region);
    assert ZONE_KEY != REGION_KEY by {
      assert ZONE_KEY[20..] != REGION_KEY[20..];
    }
    var node := Segments(zone, region);
    var terms := [node] + rest;
    assert terms[0] == node && terms[1..] == rest;
    assert FirstSegment(terms, ZONE_KEYS) == zone;
    assert FirstSegment(terms, REGION_KEYS) == FirstNonEmpty(region, FirstSegment(rest, REGION_KEYS));
    SegmentsIdentify(zone, region, OtherRegion(rest, requisite));
  }

  lemma SegmentsIdentify(zone: string, a: string, b: string)
    requires zone != ""
    ensures Segments(zone, a) == Segments(zone, b) <==> a == b
  {
    assert ZONE_KEY != REGION_KEY by {
      assert ZONE_KEY[20..] != REGION_KEY[20..];
    }
    if Segments(zone, a) == Segments(zone, b) {
      assert Get(Segments(zone, a).value, REGION_KEY) == a;
      assert Get(Segments(zone, b).value, REGION_KEY) == b;
    }
  }

  lemma {:induction false} FirstSegmentSplits(a: seq<Term>, b: seq<Term>, keys: seq<string>)
    ensures FirstSegment(a + b, keys) == FirstNonEmpty(FirstSegment(a, keys), FirstSegment(b, keys))
  {
    if a == [] {
      assert a + b == b;
    } else {
      assert (a + b)[1..] == a[1..] + b;
      FirstSegmentSplits(a[1..], b, keys);
    }
  }

  /** The index of the first term with a value for the keys. */
  ghost predicate FirstAt(terms: seq<Term>, keys: seq<string>, i: int) {
    0 <= i < |terms| && TermValue(terms[i], keys) != "" && forall j :: 0 <= j < i ==> TermValue(terms[j], keys) == ""
  }

  lemma {:induction false} FirstSegmentIsAt(terms: seq<Term>, keys: seq<string>, i: int)
    requires FirstAt(terms, keys, i)
    ensures FirstSegment(terms, keys) == TermValue(terms[i], keys)
  {
    if i > 0 {
      assert TermValue(terms[0], keys) == "";
      forall j | 0 <= j < i - 1 ensures TermValue(terms[1..][j], keys) == "" {
        assert terms[1..][j] == terms[j + 1];
      }
      FirstSegmentIsAt(terms[1..], keys, i - 1);
    }
  }

  /**
   Zone and region are read independently, preferred terms before requisite ones. They come from the
   first term with a zone and the first term with a region, so from the same term when every term that
   carries one of the two carries both.
   */
  lemma ZoneAndRegionFromOneTerm(r: Requirement, i: int)
    requires FirstAt(r.preferred + r.requisite, ZONE_KEYS, i)
    requires forall j :: 0 <= j < |r.preferred + r.requisite| ==>
               (TermValue((r.preferred + r.requisite)[j], ZONE_KEYS) != "" <==>
                TermValue((r.preferred + r.requisite)[j], REGION_KEYS) != "")
    ensures var terms := r.preferred + r.requisite;
            && TopologyValue(Some(r), ZONE_KEYS) == TermValue(terms[i], ZONE_KEYS)
            && TopologyValue(Some(r), REGION_KEYS) == TermValue(terms[i], REGION_KEYS)
  {
    var terms := r.preferred + r.requisite;
    FirstSegmentSplits(r.preferred, r.requisite, ZONE_KEYS);
    FirstSegmentSplits(r.preferred, r.requisite, REGION_KEYS);
    FirstSegmentIsAt(terms, ZONE_KEYS, i);
    assert FirstAt(terms, REGION_KEYS, i);
    FirstSegmentIsAt(terms, REGION_KEYS, i);
  }

  // ---- Keys, order and explicit placement ----

  /** The keys of a segment map count in this order. */
  lemma KeyOrder(segments: Params)
    ensures KeyValue(segments, ZONE_KEYS) ==
              FirstNonEmpty(Get(segments, "topology.caa-csi.io/zone"),
                FirstNonEmpty(Get(segments, "topology.kubernetes.io/zone"),
                  FirstNonEmpty(Get(segments, "failure-domain.beta.kubernetes.io/zone"), Get(segments, "ibm-cloud.kubernetes.io/zone"))))
    ensures KeyValue(segments, REGION_KEYS) ==
              FirstNonEmpty(Get(segments, "topology.caa-csi.io/region"),
                FirstNonEmpty(Get(segments, "topology.kubernetes.io/region"),
                  FirstNonEmpty(Get(segments, "failure-domain.beta.kubernetes.io/region"), Get(segments, "ibm-cloud.kubernetes.io/region"))))
  {
    FourKeys(segments, ZONE_KEYS);
    FourKeys(segments, REGION_KEYS);
  }

  lemma FourKeys(segments: Params, keys: seq<string>)
    requires |keys| == 4
    ensures KeyValue(segments, keys) ==
              FirstNonEmpty(Get(segments, keys[0]), FirstNonEmpty(Get(segments, keys[1]),
                FirstNonEmpty(Get(segments, keys[2]), Get(segments, keys[3]))))
  {
    KeyValueStep(segments, keys);
    KeyValueStep(segments, keys[1..]);
    KeyValueStep(segments, keys[1..][1..]);
    KeyValueStep(segments, keys[1..][1..][1..]);
  }

  lemma KeyValueStep(segments: Params, keys: seq<string>)
    requires keys != []
    ensures KeyValue(segments, keys) == FirstNonEmpty(Get(segments, keys[0]), KeyValue(segments, keys[1..]))
    ensures |keys| == 1 ==> KeyValue(segments, keys) == Get(segments, keys[0])
  {
  }

  /** Preferred terms count before requisite ones; no requirement has no value. */
  lemma PreferredGoesFirst(req: Option<Requirement>, keys: seq<string>)
    ensures TopologyValue(req, keys) ==
              if req.None? then "" else FirstSegment(req.value.preferred + req.value.requisite, keys)
  {
    if req.Some? {
      FirstSegmentSplits(req.value.preferred, req.value.requisite, keys);
    }
  }

  /** Is there a zone to use, for a provider that uses one? */
  predicate Places(params: Params, req: Option<Requirement>) {
    && (Get(params, "cloudProvider") == "aws" || Get(params, "cloudProvider") == "ibmcloud")
    && TopologyValue(req, ZONE_KEYS) != "" && TopologyValue(req, ZONE_KEYS) != "default"
  }

  /**
   A requirement fills in placement only where none is given explicitly: the zone, and on IBM the region,
   each by itself. A missing zone, the zone "default" and other providers leave everything as it is.
   */
  lemma ApplyFillsIn(params: Params, req: Option<Requirement>, key: string)
    ensures var zone, region := TopologyValue(req, ZONE_KEYS), TopologyValue(req, REGION_KEYS);
            var aws := Get(params, "cloudProvider") == "aws";
            Get(Apply(params, req), key) ==
              if !Places(params, req) then Get(params, key)
              else if aws && key == "awsAvailabilityZone" && Get(params, key) == "" then zone
              else if !aws && key == "zone" && Get(params, "zone") == "" && Get(params, "ibmZone") == "" then zone
              else if !aws && key == "region" && Get(params, "region") == "" && Get(params, "ibmRegion") == "" then region
              else Get(params, key)
  {
  }

  /** What a volume advertises: the AWS zone and region if there is a zone, else on IBM its own. */
  lemma AccessibleIs(params: Params)
    ensures var aws := Get(params, "awsAvailabilityZone") != "";
            var zone := if aws then Get(params, "awsAvailabilityZone")
                        else if Get(params, "zone") != "" then Get(params, "zone") else Get(params, "ibmZone");
            var region := if aws then Get(params, "awsRegion")
                          else if Get(params, "region") != "" then Get(params, "region") else Get(params, "ibmRegion");
            Accessible(params) ==
              if zone == "" || (!aws && Get(params, "cloudProvider") != "ibmcloud") then None
              else if region == "" then Some(map["topology.caa-csi.io/zone" := zone])
              else Some(map["topology.caa-csi.io/zone" := zone, "topology.caa-csi.io/region" := region])
  {
  }

  /** A node's own settings replace its labels as soon as one is given; labels that cannot be read give none. */
  lemma NodeTopologyIs(envRegion: string, envZone: string, labels: Option<(string, string)>)
    ensures var own := envRegion != "" || envZone != "";
            && (!own && labels.None? ==> NodeTopology(envRegion, envZone, labels).None?)
            && (own || labels.Some? ==>
                  var region := if own then envRegion else labels.value.0;
                  var zone := if own then envZone else labels.value.1;
                  NodeTopology(envRegion, envZone, labels) ==
                    if zone == "" then None
                    else if region == "" then Some(map["topology.caa-csi.io/zone" := zone])
                    else Some(map["topology.caa-csi.io/zone" := zone, "topology.caa-csi.io/region" := region]))
  {
  }
}
