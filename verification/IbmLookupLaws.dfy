/** What a name lookup decides, and what its answer says about the cloud. */
module IbmLookupLaws {
  import opened Basics
  import opened IbmConfig
  import opened IbmSdk
  import opened IbmProvider
  import opened Pagination

  /** The listed entries that match the name; entries without a name match. */
  ghost function Matched(items: Listing, name: string): Listing {
    if items == [] then []
    else (if items[0].Some? && Matches(items[0].value, name) then [items[0]] else []) + Matched(items[1..], name)
  }

  ghost predicate NoNil(items: Listing) {
    forall i :: 0 <= i < |items| ==> items[i].Some?
  }

  /** The answer that the number of matches dictates. */
  ghost function Classified(matched: Listing, name: string): Result<Volume, Error>
    requires NoNil(matched)
  {
    if |matched| == 0 then Err(VolumeNotFound)
    else if |matched| == 1 then Ok(Named(matched[0].value, name))
    else Err(AlreadyExists(Ambiguous))
  }

  lemma {:induction false} MatchedHasNoNil(items: Listing, name: string)
    ensures NoNil(Matched(items, name))
  {
    if items != [] {
      MatchedHasNoNil(items[1..], name);
    }
  }

  lemma {:induction false} ScanFromMatch(items: Listing, name: string, found: Volume)
    requires NoNil(items)
    ensures Scan(items, name, Some(found)) ==
            if Matched(items, name) == [] then Ok(found) else Err(AlreadyExists(Ambiguous))
  {
    if items != [] {
      ScanFromMatch(items[1..], name, found);
    }
  }

  /** The scan classifies exactly: one match is returned, none is not-found, more is ambiguous. */
  lemma {:induction false} ScanClassifies(items: Listing, name: string)
    requires NoNil(items)
    ensures NoNil(Matched(items, name))
    ensures Scan(items, name, None) == Classified(Matched(items, name), name)
  {
    MatchedHasNoNil(items, name);
    if items != [] {
      if Matches(items[0].value, name) {
        ScanFromMatch(items[1..], name, Named(items[0].value, name));
      } else {
        ScanClassifies(items[1..], name);
      }
    }
  }

  lemma {:induction false} MatchedCounts(items: Listing, name: string, x: Option<Volume>)
    ensures multiset(Matched(items, name))[x] ==
            if x.Some? && Matches(x.value, name) then multiset(items)[x] else 0
  {
    if items != [] {
      MatchedCounts(items[1..], name, x);
      assert items == [items[0]] + items[1..];
    }
  }

  lemma SameMatches(xs: Listing, ys: Listing, name: string)
    requires multiset(xs) == multiset(ys)
    ensures multiset(Matched(xs, name)) == multiset(Matched(ys, name))
  {
    forall x: Option<Volume>
      ensures multiset(Matched(xs, name))[x] == multiset(Matched(ys, name))[x]
    {
      MatchedCounts(xs, name, x);
      MatchedCounts(ys, name, x);
    }
  }

  lemma ClassifiedByMultiset(mx: Listing, my: Listing, name: string)
    requires NoNil(mx) && NoNil(my) && multiset(mx) == multiset(my)
    ensures Classified(mx, name) == Classified(my, name)
  {
    assert |mx| == |multiset(mx)| && |my| == |multiset(my)|;
    if |mx| == 1 {
      assert mx[0] in multiset(my);
    }
  }

  /** Splitting the same disks into other pages, in another order, does not change the lookup. */
  lemma LookupIgnoresPaging(a: DiskPages, b: DiskPages, name: string)
    requires ListAll(a).Ok? && ListAll(b).Ok?
    requires NoNil(ListAll(a).value)
    requires multiset(ListAll(a).value) == multiset(ListAll(b).value)
    ensures LookupByName(name, a) == LookupByName(name, b)
  {
    var xs, ys := ListAll(a).value, ListAll(b).value;
    forall i | 0 <= i < |ys| ensures ys[i].Some? {
      assert ys[i] in multiset(xs);
    }
    ScanClassifies(xs, name);
    ScanClassifies(ys, name);
    SameMatches(xs, ys, name);
    ClassifiedByMultiset(Matched(xs, name), Matched(ys, name), name);
  }

  // ---- Lookup against the cloud ----

  /** v describes the disk d in everything but possibly the name. */
  ghost predicate Describes(v: Volume, d: Volume) {
    IsView(v.(name := None), d)
  }

  lemma {:induction false} ScanFinds(items: Listing, name: string, found: Option<Volume>)
    requires Scan(items, name, found).Ok?
    ensures var v := Scan(items, name, found).value;
            || found == Some(v)
            || exists i :: 0 <= i < |items| && items[i].Some? && Matches(items[i].value, name)
                           && v == Named(items[i].value, name)
  {
    if items != [] {
      var v := Scan(items, name, found).value;
      var next := if Matches(items[0].value, name) then Some(Named(items[0].value, name)) else found;
      ScanFinds(items[1..], name, next);
      if next != Some(v) {
        var i :| 0 <= i < |items[1..]| && items[1..][i].Some? && Matches(items[1..][i].value, name)
                 && v == Named(items[1..][i].value, name);
        assert items[i + 1] == items[1..][i];
      }
    }
  }

  /** A successful scan has one match, the one it returns. */
  lemma {:induction false} ScanHasOneMatch(items: Listing, name: string, found: Option<Volume>, i: nat)
    requires Scan(items, name, found).Ok?
    requires i < |items| && items[i].Some? && Matches(items[i].value, name)
    ensures found.None? && Scan(items, name, found).value == Named(items[i].value, name)
  {
    var next := if Matches(items[0].value, name) then Some(Named(items[0].value, name)) else found;
    if i > 0 {
      ScanHasOneMatch(items[1..], name, next, i - 1);
    } else {
      ScanFromMatchIsIt(items[1..], name, Named(items[0].value, name));
    }
  }

  lemma {:induction false} ScanFromMatchIsIt(items: Listing, name: string, found: Volume)
    requires Scan(items, name, Some(found)).Ok?
    ensures Scan(items, name, Some(found)).value == found
  {
    if items != [] {
      ScanFromMatchIsIt(items[1..], name, found);
    }
  }

  /** The scan succeeds exactly over a listing without nil entries that has one match. */
  lemma ScanSucceedsIff(items: Listing, name: string)
    ensures Scan(items, name, None).Ok? <==> NoNil(items) && |Matched(items, name)| == 1
  {
    if NoNil(items) {
      ScanClassifies(items, name);
    } else {
      var i :| 0 <= i < |items| && items[i].None?;
      NilFails(items, name, None, i);
    }
  }

  lemma {:induction false} NilFails(items: Listing, name: string, found: Option<Volume>, i: nat)
    requires i < |items| && items[i].None?
    ensures Scan(items, name, found).Err?
  {
    if i > 0 && items[0].Some? {
      NilFails(items[1..], name, if Matches(items[0].value, name) then Some(Named(items[0].value, name)) else found, i - 1);
    }
  }

  /** A native ID that cannot be looked up falls back to the name; an empty name cannot be looked up. */
  lemma FallbackIsByName(p: Provider, c: Cloud, name: string, get: GetOutcome, pages: DiskPages)
    ensures p.config.volumeID == "" || get.Unreachable? ==> Lookup(p, c, name, get, pages) == LookupByName(name, pages)
    ensures LookupByName("", pages).Err?
    ensures name != "" && ListAll(pages).Ok? ==> LookupByName(name, pages) == Scan(ListAll(pages).value, name, None)
    ensures ListAll(pages).Err? ==> LookupByName(name, pages).Err?
  {
  }

  /** A native ID that answers is the lookup's result, under its own name, or the one asked for if it states none. */
  lemma NativeLookupIs(p: Provider, c: Cloud, name: string, drop: Drop, pages: DiskPages)
    requires p.config.volumeID != "" && p.config.volumeID in c.disks
    ensures var disk := c.disks[p.config.volumeID];
            var stated := if drop.name then None else disk.name;
            Lookup(p, c, name, Answers(drop), pages) == Ok(View(disk, drop).(name := Some(if stated.Some? then stated.value else name)))
  {
  }

  /** Whatever a lookup returns is a disk of the cloud. */
  lemma LookupFinds(p: Provider, c: Cloud, name: string, get: GetOutcome, pages: DiskPages)
    requires ValidCloud(c) && TruthfulPages(c, pages)
    requires Lookup(p, c, name, get, pages).Ok?
    ensures var v := Lookup(p, c, name, get, pages).value;
            v.id in c.disks && Describes(v, c.disks[v.id]) && v.name.Some?
  {
    if p.config.volumeID == "" || SdkGet(c, p.config.volumeID, get).GetFailed? {
      ScanFinds(ListAll(pages).value, name, None);
    }
  }

  /** A complete name query: the lookup succeeds, misses or is ambiguous as the cloud dictates. */
  lemma CompleteLookup(c: Cloud, name: string, pages: DiskPages)
    requires ValidCloud(c) && name != ""
    requires ListAll(pages).Ok? && Complete(c, ByName(name), ListAll(pages).value)
    ensures LookupByName(name, pages) == Err(VolumeNotFound) <==>
              forall id :: id in c.disks ==> c.disks[id].name != Some(name)
    ensures LookupByName(name, pages).Ok? <==>
              exists id :: id in c.disks && c.disks[id].name == Some(name) &&
                           forall other :: other in c.disks && c.disks[other].name == Some(name) ==> other == id
    ensures LookupByName(name, pages).Ok? ==>
              var v := LookupByName(name, pages).value;
              v.id in c.disks && Describes(v, c.disks[v.id]) && c.disks[v.id].name == Some(name) && v.name == Some(name)
  {
    var items := ListAll(pages).value;
    AllMatch(c, items, name);
    ScanClassifies(items, name);
    var result := LookupByName(name, pages);
    forall id | id in c.disks && c.disks[id].name == Some(name)
      ensures |items| > 0 && (|items| == 1 ==> items[0].value.id == id)
    {
      SelectedIsListed(c, name, items, id);
    }
    if |items| == 1 {
      assert c.disks[items[0].value.id].name == Some(name);
    } else if |items| > 1 {
      var first, second := items[0].value.id, items[1].value.id;
      assert first != second && c.disks[first].name == Some(name) && c.disks[second].name == Some(name);
    }
  }

  lemma SelectedIsListed(c: Cloud, name: string, items: Listing, id: string)
    requires Complete(c, ByName(name), items)
    requires id in c.disks && c.disks[id].name == Some(name)
    ensures |items| > 0 && (|items| == 1 ==> items[0].value.id == id)
  {
    assert Selects(ByName(name), c.disks[id]);
    assert Lists(items, id);
  }

  lemma {:induction false} AllMatch(c: Cloud, items: Listing, name: string)
    requires Truthful(c, items)
    requires forall i :: 0 <= i < |items| ==> items[i].Some? && Selects(ByName(name), c.disks[items[i].value.id])
    ensures Matched(items, name) == items
  {
    if items != [] {
      assert items[0].Some? && Selects(ByName(name), c.disks[items[0].value.id]);
      assert IsView(items[0].value, c.disks[items[0].value.id]);
      forall i | 0 <= i < |items[1..]|
        ensures items[1..][i].Some? && items[1..][i].value.id in c.disks
             && IsView(items[1..][i].value, c.disks[items[1..][i].value.id])
             && Selects(ByName(name), c.disks[items[1..][i].value.id])
      {
        assert items[1..][i] == items[i + 1];
      }
      AllMatch(c, items[1..], name);
      assert items == [items[0]] + items[1..];
    }
  }
}
