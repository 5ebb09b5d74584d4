/**
 The IBM VPC volume service as the driver sees it through its SDK session: a map of disks changed by
 create, delete and update calls. Every call takes an outcome argument for what the service or the
 network does; replies may drop fields.
 */
module IbmSdk {
  import opened Basics
  import opened Pagination

  /** A disk in the cloud, and also a reply describing one. Capacity is in GiB. */
  datatype Volume = Volume(
    id: string,
    name: Option<string>,
    capacity: Option<int>,
    az: string,
    profile: Option<string>,
    tags: seq<string>,
    group: Option<string>,
    key: Option<string>,
    iops: Option<string>,
    bandwidth: int,
    status: string)

  /** `used` holds every native ID ever handed out; IDs are not reused. */
  datatype Cloud = Cloud(disks: map<string, Volume>, used: set<string>)

  ghost predicate ValidCloud(c: Cloud) {
    && c.disks.Keys <= c.used
    && "" !in c.used
    && forall id :: id in c.disks ==> c.disks[id].id == id
  }

  /** The fields a reply leaves out. */
  datatype Drop = Drop(name: bool, capacity: bool, group: bool, key: bool)

  function View(d: Volume, drop: Drop): Volume {
    d.(name := if drop.name then None else d.name,
       capacity := if drop.capacity then None else d.capacity,
       group := if drop.group then None else d.group,
       key := if drop.key then None else d.key)
  }

  /** v is some reply about the disk d. */
  ghost predicate IsView(v: Volume, d: Volume) {
    && v.(name := d.name, capacity := d.capacity, group := d.group, key := d.key) == d
    && (v.name == None || v.name == d.name)
    && (v.capacity == None || v.capacity == d.capacity)
    && (v.group == None || v.group == d.group)
    && (v.key == None || v.key == d.key)
  }

  // ---- Calls ----

  datatype GetOutcome = Answers(drop: Drop) | Unreachable

  datatype GetReply = Found(volume: Volume) | NotFound | GetFailed

  function SdkGet(c: Cloud, id: string, o: GetOutcome): GetReply {
    match o
    case Unreachable => GetFailed
    case Answers(drop) => if id in c.disks then Found(View(c.disks[id], drop)) else NotFound
  }

  datatype CreateReply = ReplyLost | NilReply | Reply(status: string, drop: Drop)

  /** The cloud provisions `extra` GiB more or less than asked; an ID that is not fresh provisions nothing. */
  datatype CreateOutcome = NotCreated | Provisioned(id: string, extra: int, status: string, reply: CreateReply)

  datatype CreateResult = CreateError | CreatedNil | Created(volume: Volume)

  function AskedUnits(request: Volume): int {
    match request.capacity case None => 0 case Some(units) => units
  }

  function SdkCreate(c: Cloud, request: Volume, o: CreateOutcome): (Cloud, CreateResult) {
    match o
    case NotCreated => (c, CreateError)
    case Provisioned(id, extra, status, reply) =>
      if id == "" || id in c.used || id in c.disks then (c, CreateError)
      else
        var disk := request.(id := id, capacity := Some(AskedUnits(request) + extra), status := status);
        (Cloud(c.disks[id := disk], c.used + {id}),
         match reply
         case ReplyLost => CreateError
         case NilReply => CreatedNil
         case Reply(replyStatus, drop) => Created(View(disk.(status := replyStatus), drop)))
  }

  datatype ChangeOutcome = Refused | Applied(replyLost: bool)

  function SdkDelete(c: Cloud, id: string, o: ChangeOutcome): (Cloud, bool) {
    match o
    case Refused => (c, false)
    case Applied(replyLost) => (c.(disks := c.disks - {id}), !replyLost)
  }

  /** The service may settle on `extra` GiB more than asked. */
  datatype UpdateOutcome = UpdateRefused | Updated(extra: nat, replyLost: bool)

  function SdkUpdate(c: Cloud, id: string, units: int, o: UpdateOutcome): (Cloud, bool) {
    match o
    case UpdateRefused => (c, false)
    case Updated(extra, replyLost) =>
      if id !in c.disks then (c, false)
      else (c.(disks := c.disks[id := c.disks[id].(capacity := Some(units + extra))]), !replyLost)
  }

  // ---- Listings ----

  type Listing = seq<Option<Volume>>

  datatype Filter = ByName(name: string) | ByPlacement(group: string, zone: string)

  predicate Selects(f: Filter, d: Volume) {
    match f
    case ByName(name) => d.name == Some(name)
    case ByPlacement(group, zone) => d.group == Some(group) && d.az == zone
  }

  /** Every entry describes a disk that exists; entries may be missing, nil or repeated. */
  ghost predicate Truthful(c: Cloud, items: Listing) {
    forall i :: 0 <= i < |items| && items[i].Some? ==>
      items[i].value.id in c.disks && IsView(items[i].value, c.disks[items[i].value.id])
  }

  ghost predicate Lists(items: Listing, id: string) {
    exists i :: 0 <= i < |items| && items[i].Some? && items[i].value.id == id
  }

  /** A read-your-writes answer to a filtered query: each selected disk exactly once, nothing else. */
  ghost predicate Complete(c: Cloud, f: Filter, items: Listing) {
    && Truthful(c, items)
    && (forall i :: 0 <= i < |items| ==> items[i].Some? && Selects(f, c.disks[items[i].value.id]))
    && (forall i, j :: 0 <= i < j < |items| ==> items[i].value.id != items[j].value.id)
    && (forall id :: id in c.disks && Selects(f, c.disks[id]) ==> Lists(items, id))
  }

  ghost predicate TruthfulPages(c: Cloud, pages: Pages<Option<Volume>>) {
    ListAll(pages).Ok? ==> Truthful(c, ListAll(pages).value)
  }

  ghost predicate CompletePages(c: Cloud, f: Filter, pages: Pages<Option<Volume>>) {
    ListAll(pages).Ok? ==> Complete(c, f, ListAll(pages).value)
  }

  /** The session object: the cloud it talks to, changed in place by its calls. */
  class Session {
    var cloud: Cloud

    constructor (cloud: Cloud)
      ensures this.cloud == cloud
    {
      this.cloud := cloud;
    }

    method GetVolume(id: string, o: GetOutcome) returns (r: GetReply)
      ensures r == SdkGet(cloud, id, o)
    {
      r := SdkGet(cloud, id, o);
    }

    method CreateVolume(request: Volume, o: CreateOutcome) returns (r: CreateResult)
      modifies this
      ensures (cloud, r) == SdkCreate(old(cloud), request, o)
    {
      var step := SdkCreate(cloud, request, o);
      cloud := step.0;
      r := step.1;
    }

    method DeleteVolume(id: string, o: ChangeOutcome) returns (ok: bool)
      modifies this
      ensures (cloud, ok) == SdkDelete(old(cloud), id, o)
    {
      var step := SdkDelete(cloud, id, o);
      cloud := step.0;
      ok := step.1;
    }

    method UpdateVolume(id: string, units: int, o: UpdateOutcome) returns (ok: bool)
      modifies this
      ensures (cloud, ok) == SdkUpdate(old(cloud), id, units, o)
    {
      var step := SdkUpdate(cloud, id, units, o);
      cloud := step.0;
      ok := step.1;
    }
  }
}
