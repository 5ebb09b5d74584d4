/** A native ID that is gone gives a name a second disk; and the plainest outcomes such cases are made of. */
module Limits {
  import opened Basics
  import opened Capacity
  import opened IbmConfig
  import opened IbmSdk
  import Prov = IbmProvider
  import Laws = IbmProviderLaws
  import Pagination

  const NOTHING_DROPPED := Drop(false, false, false, false)

  function OnePage(items: Listing): Prov.DiskPages {
    map["" := Pagination.Page(items, "")]
  }

  lemma OnePageLists(items: Listing)
    ensures Pagination.ListAll(OnePage(items)) == Ok(items)
  {
  }

  /** A provider whose pre-resolved native ID no longer exists, as in the context of a deleted volume. */
  function StaleProvider(): Provider {
    Provider(Config("us-south", "us-south-1", "rg", "general-purpose", "", "false", "", "hourly", [], "ext4", 0, "gone"),
             (cfg: Config) => "digest")
  }

  function CurrentDisk(): Volume {
    Laws.Provisioning(StaleProvider(), "pvc", 10, "current", 10, "available")
  }

  function CloudWithCurrentDisk(): Cloud {
    Cloud(map["current" := CurrentDisk()], {"current", "gone"})
  }

  function StaleCalls(): Prov.CreateCalls {
    Prov.CreateCalls(Answers(NOTHING_DROPPED), OnePage([Some(CurrentDisk())]),
                     Provisioned("second", 0, "available", Reply("available", NOTHING_DROPPED)), Unreachable)
  }

  /**
   Staging from a stale context: the native ID is gone, so the name is not looked up and the volume
   gets a second disk although its first one is there and correctly listed.
   */
  lemma StaleNativeIDGivesSecondDisk()
    ensures var p := StaleProvider();
            var c := CloudWithCurrentDisk();
            && Laws.Orderly(c) && Accepted(p.config)
            && CompletePages(c, ByName("pvc"), StaleCalls().pages)
            && !Laws.OneDiskPerName(Prov.Create(p, c, "pvc", GIB, StaleCalls()).0)
  {
    var p := StaleProvider();
    var c := CloudWithCurrentDisk();
    forall id, name | id in c.disks && Laws.OwnedBy(c.disks[id], name)
      ensures name == "pvc"
    {
      Laws.NewDiskOwner(p, "pvc", name);
    }
    Laws.NewDiskOwner(p, "pvc", "pvc");
    assert Laws.OwnedBy(c.disks["current"], "pvc");
    var items := [Some(CurrentDisk())];
    OnePageLists(items);
    assert items[0].value.id == "current";
    assert Complete(c, ByName("pvc"), items);
    Laws.CompleteQueryKeepsOneDiskPerNameIff(p, c, "pvc", GIB, StaleCalls());
  }
}
