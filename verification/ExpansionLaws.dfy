/** Expansions: when one keeps the promise of the record it writes, and when it asks for less than there is. */
module ExpansionLaws {
  import opened Basics
  import opened Decimal
  import opened Capacity
  import opened IbmConfig
  import opened IbmSdk
  import Prov = IbmProvider
  import Laws = IbmProviderLaws
  import Lookups = IbmLookupLaws
  import Store = VolumeStore
  import Pagination
  import opened Limits

  /** The disk at this path, if any, holds what is asked. */
  predicate Holds(c: Cloud, path: string, required: int) {
    path in c.disks ==> c.disks[path].capacity.Some? && required <= c.disks[path].capacity.value * GIB
  }

  /** Some listed entry is the disk at this path, under the name or none. */
  ghost predicate ListsMatching(items: Listing, path: string, name: string) {
    exists i :: 0 <= i < |items| && items[i].Some? && items[i].value.id == path && Prov.Matches(items[i].value, name)
  }

  /** What the lookup sees is the recorded disk: the native ID gone by, or a matching entry of the listing. */
  ghost predicate SeesRecorded(p: Provider, rec: Store.VolumeRecord, get: GetOutcome, pages: Prov.DiskPages) {
    if Laws.GoesByNativeID(p, get) then p.config.volumeID == rec.path
    else Pagination.ListAll(pages).Ok? && ListsMatching(Pagination.ListAll(pages).value, rec.path, rec.volumeID)
  }

  lemma FoundIsRecordedIff(p: Provider, c: Cloud, rec: Store.VolumeRecord, get: GetOutcome, pages: Prov.DiskPages)
    requires ValidCloud(c) && Prov.GetInfo(p, c, rec.volumeID, get, pages).Ok?
    ensures Prov.GetInfo(p, c, rec.volumeID, get, pages).value.path == rec.path <==> SeesRecorded(p, rec, get, pages)
  {
    if !Laws.GoesByNativeID(p, get) {
      var items := Pagination.ListAll(pages).value;
      var v := Prov.Lookup(p, c, rec.volumeID, get, pages).value;
      Lookups.ScanFinds(items, rec.volumeID, None);
      if ListsMatching(items, rec.path, rec.volumeID) {
        var i :| 0 <= i < |items| && items[i].Some? && items[i].value.id == rec.path && Prov.Matches(items[i].value, rec.volumeID);
        Lookups.ScanHasOneMatch(items, rec.volumeID, None, i);
      }
    }
  }

  lemma ResizedHoldsIff(c: Cloud, path: string, found: string, required: int64, extra: nat)
    requires found in c.disks && required >= 0
    requires required <= MAX_UNITS * GIB || extra == 0
    ensures Holds(Laws.Resized(c, found, ExpandUnits(required) + extra), path, required) <==>
              if found == path then required <= MAX_UNITS * GIB else Holds(c, path, required)
  {
    ExpandCoversRequestIff(required);
  }

  lemma ExpandResizesFound(p: Provider, c: Cloud, name: string, required: int64, get: GetOutcome, pages: Prov.DiskPages, o: UpdateOutcome)
    requires Prov.Expand(p, c, name, required, get, pages, o).1.Ok?
    ensures Prov.GetInfo(p, c, name, get, pages).Ok? && o.Updated?
    ensures var found := Prov.GetInfo(p, c, name, get, pages).value.path;
            found in c.disks
            && Prov.Expand(p, c, name, required, get, pages, o).0 == Laws.Resized(c, found, ExpandUnits(required) + o.extra)
  {
  }

  /**
   A successful expansion keeps the record's promise if and only if what its lookup sees is the recorded
   disk and the request is within the sizes create accepts; or that disk is large enough already, or
   gone. The listing may leave disks out. Within those sizes this holds whatever size the service
   settles on, beyond them if it applies the request exactly.
   */
  lemma ExpansionKeepsPromiseIff(p: Provider, c: Cloud, rec: Store.VolumeRecord, required: int64,
                                 get: GetOutcome, pages: Prov.DiskPages, o: UpdateOutcome)
    requires ValidCloud(c) && required >= 0
    requires Prov.Expand(p, c, rec.volumeID, required, get, pages, o).1.Ok?
    requires required <= MAX_UNITS * GIB || o == Updated(0, false)
    ensures Holds(Prov.Expand(p, c, rec.volumeID, required, get, pages, o).0, rec.path, required)
            <==> if SeesRecorded(p, rec, get, pages) then required <= MAX_UNITS * GIB else Holds(c, rec.path, required)
  {
    ExpandResizesFound(p, c, rec.volumeID, required, get, pages, o);
    FoundIsRecordedIff(p, c, rec, get, pages);
    ResizedHoldsIff(c, rec.path, Prov.GetInfo(p, c, rec.volumeID, get, pages).value.path, required, o.extra);
  }

  /** With a complete name query, the listing shows the recorded disk exactly if that carries the name. */
  lemma CompleteQuerySeesRecordedIff(p: Provider, c: Cloud, rec: Store.VolumeRecord, get: GetOutcome, pages: Prov.DiskPages)
    requires ValidCloud(c) && Pagination.ListAll(pages).Ok? && CompletePages(c, ByName(rec.volumeID), pages)
    requires !Laws.GoesByNativeID(p, get) && rec.path in c.disks
    ensures SeesRecorded(p, rec, get, pages) <==> c.disks[rec.path].name == Some(rec.volumeID)
  {
    var items := Pagination.ListAll(pages).value;
    if c.disks[rec.path].name == Some(rec.volumeID) {
      assert Selects(ByName(rec.volumeID), c.disks[rec.path]);
      assert Lists(items, rec.path);
      var i :| 0 <= i < |items| && items[i].Some? && items[i].value.id == rec.path;
      assert IsView(items[i].value, c.disks[rec.path]);
      assert Prov.Matches(items[i].value, rec.volumeID);
    }
  }

  // ---- Whatever the listings show ----

  /** A disk some truthful reply can show as the name's: available, sized, and free of conflicts it must show. */
  predicate Expandable(p: Provider, disk: Volume, name: string) {
    && disk.status == "available" && disk.capacity.Some? && 0 < disk.capacity.value <= MAX_UNITS
    && Prov.OwnershipConflict(p, disk.(group := None, key := None), name) == None
  }

  /** Nothing else can be taken for the recorded disk, or that is large enough already. */
  ghost predicate AlwaysKept(p: Provider, c: Cloud, rec: Store.VolumeRecord, required: int) {
    || Holds(c, rec.path, required)
    || forall id :: id in c.disks && Expandable(p, c.disks[id], rec.volumeID) ==> id == rec.path
  }

  lemma FoundIsExpandable(p: Provider, c: Cloud, name: string, get: GetOutcome, pages: Prov.DiskPages)
    requires ValidCloud(c) && TruthfulPages(c, pages) && Prov.GetInfo(p, c, name, get, pages).Ok?
    ensures var found := Prov.GetInfo(p, c, name, get, pages).value.path;
            found in c.disks && Expandable(p, c.disks[found], name)
  {
    Lookups.LookupFinds(p, c, name, get, pages);
    var v := Prov.Lookup(p, c, name, get, pages).value;
    var disk := c.disks[v.id];
    assert Lookups.Describes(v, disk);
  }

  /** A listing of one expandable disk, shown without name, group and key, gets it expanded. */
  lemma ShowingExpands(p: Provider, c: Cloud, name: string, required: int64, get: GetOutcome, id: string)
    requires ValidCloud(c) && name != "" && !Laws.GoesByNativeID(p, get)
    requires id in c.disks && Expandable(p, c.disks[id], name)
    ensures var pages := OnePage([Some(View(c.disks[id], Drop(true, false, true, true)))]);
            && TruthfulPages(c, pages)
            && Prov.Expand(p, c, name, required, get, pages, Updated(0, false)).1.Ok?
            && Prov.GetInfo(p, c, name, get, pages).value.path == id
  {
    var v := View(c.disks[id], Drop(true, false, true, true));
    OnePageLists([Some(v)]);
    var named := Prov.Named(v, name);
    assert [Some(v)][1..] == [];
    assert Prov.Scan([], name, Some(named)) == Ok(named);
    assert Prov.LookupByName(name, OnePage([Some(v)])) == Ok(named);
    ShownHasNoConflict(p, c.disks[id], named, name);
    assert id in c.used;
  }

  lemma ShownHasNoConflict(p: Provider, disk: Volume, v: Volume, name: string)
    requires Prov.OwnershipConflict(p, disk.(group := None, key := None), name) == None
    requires v == disk.(group := None, key := None, name := v.name)
    ensures Prov.OwnershipConflict(p, v, name) == None
  {
  }

  /** What every expansion by name does to the promise, over all truthful listings and outcomes. */
  ghost predicate AllExpansionsKeep(p: Provider, c: Cloud, rec: Store.VolumeRecord, required: int64, get: GetOutcome) {
    forall pages: Prov.DiskPages, o: UpdateOutcome ::
      TruthfulPages(c, pages) && Prov.Expand(p, c, rec.volumeID, required, get, pages, o).1.Ok? ==>
        Holds(Prov.Expand(p, c, rec.volumeID, required, get, pages, o).0, rec.path, required)
  }

  /**
   A condition to check before the call: every successful expansion by name keeps the promise, under
   every truthful listing, complete or not, if and only if the recorded disk is large enough already or
   gone, or no other disk can be taken for the name's.
   */
  lemma AllExpansionsKeepPromiseIff(p: Provider, c: Cloud, rec: Store.VolumeRecord, required: int64, get: GetOutcome)
    requires ValidCloud(c) && rec.volumeID != "" && !Laws.GoesByNativeID(p, get)
    requires 0 <= required <= MAX_UNITS * GIB
    ensures AllExpansionsKeep(p, c, rec, required, get) <==> AlwaysKept(p, c, rec, required)
  {
    if AlwaysKept(p, c, rec, required) {
      forall pages: Prov.DiskPages, o: UpdateOutcome |
        TruthfulPages(c, pages) && Prov.Expand(p, c, rec.volumeID, required, get, pages, o).1.Ok?
        ensures Holds(Prov.Expand(p, c, rec.volumeID, required, get, pages, o).0, rec.path, required)
      {
        KeptByAnyListing(p, c, rec, required, get, pages, o);
      }
    } else {
      var id :| id in c.disks && Expandable(p, c.disks[id], rec.volumeID) && id != rec.path;
      BrokenByOneListing(p, c, rec, required, get, id);
    }
  }

  lemma KeptByAnyListing(p: Provider, c: Cloud, rec: Store.VolumeRecord, required: int64,
                         get: GetOutcome, pages: Prov.DiskPages, o: UpdateOutcome)
    requires ValidCloud(c) && 0 <= required <= MAX_UNITS * GIB && AlwaysKept(p, c, rec, required)
    requires TruthfulPages(c, pages) && Prov.Expand(p, c, rec.volumeID, required, get, pages, o).1.Ok?
    ensures Holds(Prov.Expand(p, c, rec.volumeID, required, get, pages, o).0, rec.path, required)
  {
    ExpandResizesFound(p, c, rec.volumeID, required, get, pages, o);
    FoundIsExpandable(p, c, rec.volumeID, get, pages);
    ResizedHoldsIff(c, rec.path, Prov.GetInfo(p, c, rec.volumeID, get, pages).value.path, required, o.extra);
  }

  lemma BrokenByOneListing(p: Provider, c: Cloud, rec: Store.VolumeRecord, required: int64, get: GetOutcome, id: string)
    requires ValidCloud(c) && rec.volumeID != "" && !Laws.GoesByNativeID(p, get)
    requires 0 <= required <= MAX_UNITS * GIB && !Holds(c, rec.path, required)
    requires id in c.disks && id != rec.path && Expandable(p, c.disks[id], rec.volumeID)
    ensures !AllExpansionsKeep(p, c, rec, required, get)
  {
    var pages := OnePage([Some(View(c.disks[id], Drop(true, false, true, true)))]);
    var o := Updated(0, false);
    ShowingExpands(p, c, rec.volumeID, required, get, id);
    ExpandResizesFound(p, c, rec.volumeID, required, get, pages, o);
    ResizedHoldsIff(c, rec.path, id, required, 0);
    assert !Holds(Prov.Expand(p, c, rec.volumeID, required, get, pages, o).0, rec.path, required);
  }

  // ---- Asking for less ----

  /** The size an expansion leaves the disk it finds with, against the size it had. */
  ghost predicate Shrinks(c: Cloud, c': Cloud, path: string) {
    && path in c.disks && path in c'.disks && c.disks[path].capacity.Some? && c'.disks[path].capacity.Some?
    && c'.disks[path].capacity.value < c.disks[path].capacity.value
  }

  /**
   The controller compares the request with the record only, and the provider not at all: applied
   exactly, a successful expansion shrinks its disk if and only if the rounded request is below the
   size the disk has.
   */
  lemma ExpansionShrinksIff(p: Provider, c: Cloud, name: string, required: int64, get: GetOutcome, pages: Prov.DiskPages)
    requires ValidCloud(c) && TruthfulPages(c, pages)
    requires Prov.Expand(p, c, name, required, get, pages, Updated(0, false)).1.Ok?
    ensures var found := Prov.GetInfo(p, c, name, get, pages).value.path;
            && found in c.disks && c.disks[found].capacity.Some?
            && (Shrinks(c, Prov.Expand(p, c, name, required, get, pages, Updated(0, false)).0, found) <==>
                  ExpandUnits(required) < c.disks[found].capacity.value)
  {
    ExpandResizesFound(p, c, name, required, get, pages, Updated(0, false));
    FoundIsExpandable(p, c, name, get, pages);
  }
}
