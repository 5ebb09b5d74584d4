# Verified model of the CAA CSI block driver

This Dafny project models the stateful core of a Container Storage Interface driver for
confidential-container block volumes and proves what its RPCs keep over whole runs. The public contract
behind it is the Container Storage Interface specification v1.9.0 (CreateVolume, DeleteVolume,
ControllerExpandVolume, ListSnapshots and the node RPCs) and the provider contract in
`pkg/provider/interface.go`.

## What is modelled

- **The IBM Cloud provider over an abstract cloud** (`IbmConfig`, `IbmSdk`, `Pagination`, `Capacity`,
  `IbmProvider`). The cloud is a map from native ID to disk plus the set of IDs ever used. Each SDK call
  takes an outcome argument: it may fail, fail after taking effect, drop the name, capacity, resource
  group or key from its reply, or answer a listing with any finite page graph. The SHA-256 digest inside
  the configuration tag is an arbitrary function of the configuration.
- **The volume store** (`VolumeStore`, `Sorting`). A directory is a map from file name to decoded content;
  listing order is by name. Each locked method is one atomic step.
- **The controller** (`Controller`, `Topology`). CreateVolume, DeleteVolume, ControllerExpandVolume and
  recovery over cloud and store. A crash after a cloud call leaves the same state as an outcome whose
  later writes do not take effect, so crashes are covered by the outcome arguments.
- **The node server** (`NodeServer`, `Base64Url`, `NodeTopologyCache`, `Staging`). Staged devices live in
  memory, the per-target directories on disk; a restart clears the first and cleans the second. Staging
  also calls the provider's create, and is a step of the runs over cloud and store.
- **Snapshot paging and the AWS clone protocol** (`SnapshotPaging`, `Decimal`, `AwsClone`).

Each component has functions giving the new state and the answer for every outcome, and classes or
methods that run the same steps on mutable state and loops and are proved equal to those functions. The
table below lists the methods whose loops carry the proof; the others (`ControllerServer`, `Server`,
`AWSProvider` and the rest of `IBMCloudProvider` and `Store`) follow the source's straight-line code, and
the laws about their functions are listed instead. The `*Laws` modules hold the theorems, `Limits`,
`FailingRuns` and `LaggingRuns` concrete cases where the guarantees stop.

## Assumptions

- Listings describe real disks (`TruthfulPages`). Where a result needs read-your-writes it says so
  (`CompletePages`, `CompleteListing`): a name or placement query then lists each selected disk once. The AWS
  describe calls of the clone protocol are read-your-writes.
- A volume query by native ID that reports no error returns a volume.
- The cloud echoes the requested zone, profile, tags, IOPS and bandwidth of a new disk, never reuses a
  native ID, and a successful resize reaches at least the requested size.
- Others do not write this driver's ownership tags and do not shrink tagged disks (`OthersMay`).
- Volume IDs are plain file names other than `_manifest`; a file write replaces the file or leaves it, and
  a failing directory removal leaves the directory; only tokens the server emitted come back to
  ListSnapshots.
- Publish targets lie outside the direct-volume root and do not contain it: the node's directories and the
  target paths are kept apart, so removing a target never removes a mountInfo.

## Where the guarantees stop

- A create gives a name a second disk exactly when its lookup misses the disk the name has and the cloud
  provisions another (`IbmProviderLaws.CreateKeepsOneDiskPerNameIff`). There are two ways to miss: a
  pre-resolved native ID that no longer exists, after which the name is not looked up
  (`Limits.StaleNativeIDGivesSecondDisk`), and a listing that leaves the disk out. This departs from the
  idempotency asked of providers at `pkg/provider/interface.go:33-35`. Whole-run results exclude exactly
  creates whose lookup misses their name's disk (`Sees`); complete name queries and native IDs that are
  not stale are enough (`ControllerLaws.CompleteQueriesSeeIff`). Requests, contexts, records, secrets and
  bootstrap parameters may carry native IDs.
- A retry after a crash can be refused for good. When recovery rebuilds a lost record it writes the disk's
  size, not the requested one, and CreateVolume then compares the two: a request that is not its own
  allocation (1 GiB, the default, on every profile but sdp) no longer matches.
  `FailingRuns.RestartRefusesTheRetry` is such a run and `RestartLaws.CrashRetryConvergesIff` the exact
  condition. When it does match, ID, capacity and topology agree with the lost answer and the context
  parses to the same configuration, but holds the bootstrap parameters instead of the request's and no
  native ID (`RestartLaws.RebuiltAnswerAgrees`).
- A successful delete can leave its disk, exactly when its lookup misses it
  (`AnswerLaws.DeleteLeavesNoDiskIff`). A record whose own parameters hold an `ibm-volume-id` is deleted by
  that ID, which goes before the recorded path (`FailingRuns.DeleteLeaksTheCreatedDisk`); a disk made by
  staging a volume whose recorded disk is gone is not looked for (`FailingRuns.DeleteLeaksTheStagedDisk`);
  and a name query may leave the disk out. `AnswerLaws.RecordedDeleteLeavesNoDiskIff` puts it in terms of
  the record.
- Staging a volume whose recorded disk is gone makes a record name another disk than its volume's:
  `NamingLaws.StageKeepsNamesIff` is exact, and without such a staging every record names its volume's only
  disk (`NamingLaws.RecordsNameTheirDisks`).
- Listings that leave disks out can make a record promise more than its disk has: the retry of a create
  does not see the first disk, and a later expansion sees only that one.
  `LaggingRuns.LaggingListingsBreakAPromise` gives such a run for every accepted configuration. For one
  create the exact condition is the one above; for one expansion `ExpansionLaws.ExpansionKeepsPromiseIff`
  gives it for any listing, and `ExpansionLaws.AllExpansionsKeepPromiseIff` gives a condition on cloud and
  record, to check before the call, for every truthful listing.
- An expansion can ask for less than the disk has. The controller compares the request with the record
  only, and a small request was rounded up to the profile minimum: after a 1 GiB create with a 10 GiB disk,
  expanding to 2 GiB asks for 2 GiB and answers success (`FailingRuns.ExpandAsksForLess`), and a disk that
  small can no longer be staged on any profile but sdp (`FailingRuns.ShrunkDiskFitsNoStage`). The CSI
  specification's ControllerExpandVolume says a volume already large enough should just be answered.
  `ExpansionLaws.ExpansionShrinksIff` is the exact condition.
- Expansion above (2^33-1)*2^30 bytes wraps in int64: `Capacity.ExpandCoversRequestIff` gives the exact
  bound.
- With its describes and clean-up succeeding, a clone leaves its temporary snapshot behind exactly when one
  of that name existed before or the reply to its creation is lost (`AwsClone.CloneLeavesNoSnapshotIff`);
  every later clone of that name then fails (`AwsClone.LeftSnapshotBlocksClones`).
- A recovery that recovers nothing, and a save that fails, do not repair a manifest whose earlier write was
  lost (`VolumeStoreLaws.ManifestAgreesIff`).
- On IBM a node's advertised zone alone does not bring back the same segments if another term carries a
  region: `Topology.NodeTopologyComesBack` is an equivalence.
- The comment at `pkg/driver/volumestore.go:106`, never to persist long-lived credentials in the store, holds
  of the manifest and of recovered records but not of the record CreateVolume saves, which keeps the
  request's parameters. `FailingRuns.CreateStoresCredentials` is such a request, and
  `VolumeStoreLaws.StaysCredentialFreeIff`, `VolumeStoreLaws.RunStaysCredentialFreeIff` and
  `AnswerLaws.CreateStaysCredentialFreeIff` give the exact conditions. The model follows the code.

## Model

| member | source | states |
|---|---|---|
| Capacity.NormalizeCapacity | pkg/provider/ibmcloud/provider.go:421-440 | Staying in int64 throughout, the result is the least whole number of GiB covering the request and the profile minimum; it fails exactly for negative requests and those above (2^33-1)*2^30 |
| Capacity.NormalizedIsClosure | pkg/provider/ibmcloud/provider.go:421-440 | Normalisation is monotone and idempotent |
| Capacity.SmallestAllocation | pkg/provider/ibmcloud/provider.go:429-435 | The smallest disk is 1 GiB on sdp and 10 GiB on every other profile |
| Capacity.ExpandCoversRequestIff | pkg/provider/ibmcloud/provider.go:606 | The expand rounding covers a non-negative request exactly when create would accept it; above the bound it wraps negative |
| Capacity.ExpandWrapsAtMaxInt64 | pkg/provider/ibmcloud/provider.go:606 | The concrete wrapped size at the largest int64 request |
| Capacity.ExpandAgreesWithNormalize | pkg/provider/ibmcloud/provider.go:421-440 | Create and expand round alike for accepted requests at or above the minimum |
| Pagination.ListVolumes | pkg/provider/ibmcloud/provider.go:504-525 | The loop ends on every finite page graph and returns what following the tokens returns |
| Pagination.ListIsExact | pkg/provider/ibmcloud/provider.go:504-525 | A complete answer is the concatenation of the pages along the token chain, each token once; a repetition is reported only if no walk ever meets an empty Next |
| Pagination.ChainDecidesListing | pkg/provider/ibmcloud/provider.go:504-525 | Conversely, wherever the token chain stops, the listing gives exactly that result |
| Pagination.CycleIsReported | pkg/provider/ibmcloud/provider.go:508-511 | A chain that comes back to a used token is always reported as repeated |
| IbmConfig.SplitTags | pkg/provider/ibmcloud/provider.go:107-115 | The tag loop returns the comma-separated pieces, trimmed, empties dropped |
| IbmConfig.ParseAccepts | pkg/provider/ibmcloud/provider.go:135-198 | Every accepted configuration has a zone inside its region, a known profile, consistent IOPS and encryption settings and no reserved extra tag |
| ConfigLaws.ParseSucceedsIff | pkg/provider/ibmcloud/provider.go:135-198 | Parsing succeeds exactly on parameters with a zone in its region, a known profile with IOPS exactly where it has them, positive numbers, encryption on exactly with a key, and no reserved extra tag |
| ConfigLaws.ParsedConfigIs | pkg/provider/ibmcloud/provider.go:122-188 | An accepted configuration keeps what was given, in canonical form, with the defaults filled in |
| ConfigLaws.PlainKeysGoFirst | pkg/provider/ibmcloud/provider.go:79-120 | Plain keys count before ibm-prefixed ones, and ibm-volume-id before cloud-volume-path |
| ConfigLaws.SplitRoundTrip | pkg/provider/ibmcloud/provider.go:109 | Splitting loses nothing and leaves no separator inside a piece |
| ConfigLaws.TrimTakesSpace | pkg/provider/ibmcloud/provider.go:110 | Trimming takes all space off both ends and nothing else |
| ConfigLaws.ExtraTagsAre | pkg/provider/ibmcloud/provider.go:107-115 | The extra tags are exactly the trimmed, non-empty pieces of the text |
| ConfigLaws.CleanTagsKeepOrder | pkg/provider/ibmcloud/provider.go:107-115 | They come in the order of the text |
| ConfigLaws.IopsAcceptedIff | pkg/provider/ibmcloud/provider.go:162-168 | A printed number is accepted as IOPS exactly if positive and 64-bit |
| ConfigLaws.IopsKeepTheirValue | pkg/provider/ibmcloud/provider.go:162-168 | Any accepted IOPS text keeps the number it parses as |
| ConfigLaws.ThroughputAcceptedIff | pkg/provider/ibmcloud/provider.go:170-176 | A printed number is accepted as throughput exactly if positive and 32-bit |
| ConfigLaws.ProviderMadeIff | pkg/provider/ibmcloud/provider.go:201-251 | A provider is made exactly for ibmcloud, acceptable parameters, a session and a resource group from either side; the parameters' group wins |
| ConfigLaws.MarkerDependsOn | pkg/provider/ibmcloud/provider.go:413-419 | The configuration marker ignores extra tags and native ID and depends on the rest through the digest |
| IbmConfig.CanonicalIopsIsStable | pkg/provider/ibmcloud/provider.go:162-168 | Canonical IOPS text is a fixed point of canonicalisation |
| IbmProvider.IBMCloudProvider.LookupVolume | pkg/provider/ibmcloud/provider.go:444-491 | The lookup with native-ID step, fallback and scanning loop equals its specification for every outcome |
| IbmProvider.IBMCloudProvider.CheckOwnedVolume | pkg/provider/ibmcloud/provider.go:527-564 | The tag loops and comparisons report the first conflict, if any |
| IbmProvider.IBMCloudProvider.ListManagedVolumes | pkg/provider/ibmcloud/provider.go:624-669 | The recovery loop returns the recovered description of each qualifying entry, in order |
| IbmProvider.IBMCloudProvider.ScanTags | pkg/provider/ibmcloud/provider.go:640-649 | The tag loop finds the ownership name and its ambiguity |
| IbmLookupLaws.ScanClassifies | pkg/provider/ibmcloud/provider.go:469-490 | Exactly one match is returned, none is not-found, two or more is ambiguous; entries without a name match |
| IbmLookupLaws.ScanSucceedsIff | pkg/provider/ibmcloud/provider.go:469-490 | The scan succeeds exactly over a listing without nil entries that has one match |
| IbmLookupLaws.NativeLookupIs | pkg/provider/ibmcloud/provider.go:445-452 | A native ID that answers is the result, under its own name, or the one asked for if it states none |
| IbmLookupLaws.FallbackIsByName | pkg/provider/ibmcloud/provider.go:456-468 | A native lookup that fails falls back to the name; an empty name and a failing listing are errors |
| IbmLookupLaws.LookupIgnoresPaging | pkg/provider/ibmcloud/provider.go:459-490 | The same disks in other pages and another order give the same lookup result |
| IbmLookupLaws.CompleteLookup | pkg/provider/ibmcloud/provider.go:462-490 | Against a complete query the lookup misses iff no disk has the name and succeeds iff exactly one has, returning it |
| IbmLookupLaws.LookupFinds | pkg/provider/ibmcloud/provider.go:444-491 | Whatever a lookup returns describes a disk that exists |
| IbmProviderLaws.CreatedDiskIsRecognised | pkg/provider/ibmcloud/provider.go:288-305 | A created disk seen without name, group or key passes the ownership check and its tags give back the original ID |
| IbmProviderLaws.CreatedDiskIsAsConfigured | pkg/provider/ibmcloud/provider.go:288-329 | A created disk has the name, group and throughput asked for, is encrypted with the configured key iff there is one, carries every extra tag, and on the custom profile its IOPS |
| IbmProviderLaws.TagScanRecovers | pkg/provider/ibmcloud/provider.go:639-654 | The tag scan recovers exactly the ID because reserved prefixes are kept out of extra tags |
| IbmProviderLaws.TagScanIs | pkg/provider/ibmcloud/provider.go:640-652 | For any tags the scan gives the last ownership tag's name, ambiguous exactly if an earlier one named something too |
| IbmProviderLaws.ConflictFreeInEveryView | pkg/provider/ibmcloud/provider.go:546-556 | A disk without conflicts has none in any reply that drops fields |
| IbmProviderLaws.CreateFacts | pkg/provider/ibmcloud/provider.go:254-357 | A create adds at most one disk and changes no other; a success names a claimed disk at least as large as the allocation, with its true size, zone and profile |
| ProviderAnswerLaws.ProvisioningSucceedsIff | pkg/provider/ibmcloud/provider.go:331-356 | A create that provisions a disk answers with exactly that disk iff its size is what was asked or more, and its reply arrives available and complete, or in another status and the refresh shows the disk available and complete |
| ProviderAnswerLaws.ProvisionedDisk | pkg/provider/ibmcloud/provider.go:283-331 | The disk is the one asked for, at the allocation's size up to what the cloud adds |
| ProviderAnswerLaws.ProvisioningErrors | pkg/provider/ibmcloud/provider.go:331-351 | Each way of failing has its error, and the disk stays |
| ProviderAnswerLaws.AdoptionSucceedsIff | pkg/provider/ibmcloud/provider.go:266-282 | A create adopts what its lookup returns exactly if that agrees with the configuration, is ready and large enough |
| ProviderAnswerLaws.RefusedCreates | pkg/provider/ibmcloud/provider.go:255-269 | Without zone, name or a size in range, or unless the lookup misses, nothing is provisioned |
| ProviderAnswerLaws.ConflictFreeIff | pkg/provider/ibmcloud/provider.go:527-564 | The ownership check passes exactly if tag, marker, zone and profile are right and group, key, IOPS and throughput agree as far as stated |
| ProviderAnswerLaws.DisagreeingIsLeftAlone | pkg/provider/ibmcloud/provider.go:527-564 | A volume that disagrees in a stated setting is neither adopted, deleted nor expanded |
| ProviderAnswerLaws.ReachedDeleteSucceedsIff | pkg/provider/ibmcloud/provider.go:369-389 | A delete of a disk its lookup reaches needs no availability: the disk goes exactly if the call is applied, and it succeeds exactly if the reply arrives too |
| ProviderAnswerLaws.ReachedExpandSucceedsIff | pkg/provider/ibmcloud/provider.go:600-620 | An expansion of a usable disk its lookup reaches succeeds exactly if the call is applied and answered |
| ProviderAnswerLaws.EntryRecoveredIff | pkg/provider/ibmcloud/provider.go:635-665 | A listed entry is recovered exactly if it has a name of its own or an unambiguous one in its tags, agrees under it and is ready |
| IbmProviderLaws.CreateKeepsOneDiskPerNameIff | pkg/provider/ibmcloud/provider.go:266-282 | Under any listing of real disks, one disk per name survives a create except exactly when it provisions one for a name that has a disk, its lookup having missed it |
| IbmProviderLaws.MissesIff | pkg/provider/ibmcloud/provider.go:444-490 | A lookup answers not-found exactly when the native ID it goes by is absent, or a listing read to its end without nil entries has none that matches the name |
| IbmProviderLaws.CompleteQueryKeepsOneDiskPerNameIff | pkg/provider/ibmcloud/provider.go:266-282 | Against a complete name query that is exactly a stale native ID |
| IbmProviderLaws.CompleteQueriesMissIff | pkg/provider/ibmcloud/provider.go:445-455 | Against a complete name query only a stale native ID makes a lookup miss a name's disk |
| IbmProviderLaws.CreateAdoptsReachedDisk | pkg/provider/ibmcloud/provider.go:266-282 | A create whose lookup reaches the name's usable disk, by native ID or by name, creates nothing and returns that disk if it is large enough and fails otherwise |
| IbmProviderLaws.RetryFindsTheSameDiskIff | pkg/provider/ibmcloud/provider.go:444-456 | Repeating a create while its disk is usable creates nothing and returns the same path, size and metadata exactly when the lookup does not go by a native ID other than the disk's |
| IbmProviderLaws.DeleteFacts | pkg/provider/ibmcloud/provider.go:360-390 | A delete removes nothing or one claimed disk; when the native ID answers it is that disk or nothing, and success means it is gone |
| IbmProviderLaws.ExpandFacts | pkg/provider/ibmcloud/provider.go:600-621 | An expand resizes nothing or one claimed disk to at least the rounded request, and success means it did |
| IbmProviderLaws.ForeignDisksAreUntouched | pkg/provider/ibmcloud/provider.go:527-545 | Create, delete and expand leave every disk without the name's tag and the marker as it was |
| IbmProviderLaws.RecoveredIsBacked | pkg/provider/ibmcloud/provider.go:656-665 | Everything recovery lists is an available disk with the name's tag and marker, at its exact size |
| IbmProviderLaws.RecoverableIsRecovered | pkg/provider/ibmcloud/provider.go:635-666 | Every listed, available, conflict-free disk is recovered exactly, with or without its name in the reply |
| IbmProviderLaws.RecoverAllKeepsOrder | pkg/provider/ibmcloud/provider.go:635-666 | Recovery keeps the order of the listing |
| VolumeStore.Store.ListAll | pkg/driver/volumestore.go:238-259 | The directory loop returns the decodable records in listing order |
| VolumeStore.Store.AnyParams | pkg/driver/volumestore.go:210-235 | The first record's parameters that name a provider |
| VolumeStore.Store.WriteManifestLocked | pkg/driver/volumestore.go:262-315 | The manifest rewrite, including the empty store and parameter-less records |
| VolumeStore.Store.MergeRecovered | pkg/driver/volumestore.go:106-152 | The recovery loop writes the merge and refreshes the manifest only if something was recovered |
| VolumeStoreLaws.ManifestAlwaysAgrees | pkg/driver/volumestore.go:262-315 | From an empty store the manifest's IDs equal the records' IDs in listing order after every operation whose manifest write succeeds |
| VolumeStoreLaws.ManifestAgreesIff | pkg/driver/volumestore.go:145-150 | With manifest writes taking effect, the manifest agrees after an operation exactly when it rewrites the manifest, whatever was lost before, or it agreed already |
| VolumeStoreLaws.RefreshedManifestIs | pkg/driver/volumestore.go:262-314 | What a rewrite leaves: with records their IDs and the first provider's parameters, else the ones it had, without credentials; without records the usable parameters it had, or no file |
| VolumeStoreLaws.RecordsAreTheListedFiles | pkg/driver/volumestore.go:238-259 | The records listed are those of the .json files other than the manifest that decode, one each, in ascending order |
| VolumeStoreLaws.FirstParamsAreFirst | pkg/driver/volumestore.go:218-234 | The first record whose parameters name a provider supplies them |
| VolumeStoreLaws.BootstrapOrder | pkg/driver/volumestore.go:69-80 | Records go before the manifest, and the manifest before the external levels |
| VolumeStoreLaws.SaveIsInOrder | pkg/driver/volumestore.go:171-183 | A failed file write changes nothing, a failed manifest write leaves the manifest, and a written record loads |
| VolumeStoreLaws.LoadTells | pkg/driver/volumestore.go:185-198 | Loading tells a missing file from one that does not decode |
| VolumeStoreLaws.BootstrapIsNeverLost | pkg/driver/volumestore.go:269-300 | Over every run stored bootstrap parameters stay usable and the manifest never gains credentials |
| VolumeStoreLaws.StaysCredentialFreeIff | pkg/driver/volumestore.go:106-131 | From a store without credentials in manifest and records, an operation leaves it without exactly unless it saves a record whose parameters hold some |
| VolumeStoreLaws.RunStaysCredentialFreeIff | pkg/driver/volumestore.go:171-183 | Over a run the store is free of them at every point exactly if no operation saves some |
| AnswerLaws.CreateStaysCredentialFreeIff | pkg/driver/controllerserver.go:196-202 | For a create it is the request's own parameters that decide |
| FailingRuns.CreateStoresCredentials | pkg/driver/controllerserver.go:196-202 | Every accepted request that carries an AWS secret key has it written to the store |
| VolumeStoreLaws.BootstrapSurvivesInterleaving | pkg/driver/volumestore.go:69-80 | BootstrapParams finds parameters whatever other threads do around its two locked sections |
| VolumeStoreLaws.MergeIsUnion | pkg/driver/volumestore.go:112-143 | Recovery gives the old files plus one record per listed ID without a file, first listed wins |
| VolumeStoreLaws.RecoveryOnlyAddsAndIsIdempotent | pkg/driver/volumestore.go:112-152 | Recovery overwrites no record and running it twice equals once |
| VolumeStoreLaws.SavedRecordSurvives | pkg/driver/volumestore.go:117-123 | A saved record survives every interleaving of recovery with saves and deletes of other volumes |
| Sorting.SortedIsAscending | pkg/driver/volumestore.go:239 | Directory entries are listed strictly ascending by file name |
| Sorting.LessIsLexicographic | pkg/driver/volumestore.go:239 | The order is by the first character that differs, a prefix coming first |
| ControllerLaws.PromisesAreKept | pkg/driver/controllerserver.go:119-204 | Over every run of controller calls, recoveries and staging, with failures, lost writes, crashes, native IDs anywhere and incomplete listings, in which no create's lookup misses its name's disk, each record whose disk exists promises no more than the disk has, and each name owns at most one disk |
| ControllerLaws.CompleteQueriesSeeIff | pkg/provider/ibmcloud/provider.go:444-456 | With a complete name query, a create's lookup misses its name's disk exactly through a native ID that is gone |
| ControllerLaws.CreateKeepsInv | pkg/driver/controllerserver.go:190-204 | CreateVolume keeps the invariant of cloud and store |
| ControllerAnswerLaws.CreateAnswersRequestedSize | pkg/driver/controllerserver.go:119-220 | A create through the provider answers and records exactly the bytes requested, 1 GiB if none, and the disk its context names has at least as many |
| ControllerAnswerLaws.RecordedCreateAnswersIff | pkg/driver/controllerserver.go:119-142 | A valid request for a recorded volume changes nothing and succeeds exactly if the record states no size or the requested one |
| ControllerAnswerLaws.UnrecordedCreateSucceedsIff | pkg/driver/controllerserver.go:144-194 | A valid request for an unrecorded one succeeds exactly if a provider can be made and its create does |
| ControllerAnswerLaws.InvalidCreatesAreRefused | pkg/driver/controllerserver.go:99-117 | A request without name or capabilities, or encrypted without a key reference, is refused and changes nothing |
| ControllerAnswerLaws.FailedCreateKeepsTheStore | pkg/driver/controllerserver.go:192-196 | A failed create leaves the store as it was |
| ControllerAnswerLaws.CachedContextNamesTheProvider | pkg/driver/controllerserver.go:130-139 | A cached context is the record's parameters, with its provider if they name none |
| ControllerLaws.DeleteKeepsInv | pkg/driver/controllerserver.go:231-267 | DeleteVolume keeps it |
| ControllerAnswerLaws.DeleteRemovesTheRecordIff | pkg/driver/controllerserver.go:256-264 | After a delete of a recorded volume the record is gone exactly if the delete succeeded and the removal took effect; otherwise it loads as before |
| ControllerAnswerLaws.DeleteParameters | pkg/driver/controllerserver.go:237-254 | A delete uses the record's parameters with its path, or secrets that name a provider, or the bootstrap parameters, or is refused |
| ControllerAnswerLaws.DeleteSucceedsIff | pkg/driver/controllerserver.go:251-264 | It succeeds exactly if a provider can be made and its delete does |
| ControllerAnswerLaws.DeleteKeepsOtherRecords | pkg/driver/controllerserver.go:231-267 | No other volume's record is touched by a delete |
| ControllerLaws.ExpandKeepsInv | pkg/driver/controllerserver.go:285-309 | ControllerExpandVolume keeps it: while the recorded disk exists it is the one resized |
| ControllerAnswerLaws.RecordedExpandIff | pkg/driver/controllerserver.go:285-315 | An expansion answers from a record that promises enough; otherwise it succeeds exactly if the provider's does and both writes take effect, and the record changes, in its size only, exactly if its file was written |
| ControllerAnswerLaws.UnknownExpandIsRefused | pkg/driver/controllerserver.go:280-283 | An expansion of a volume no record can be found for is refused |
| ControllerLaws.StageKeepsInv | pkg/driver/nodeserver.go:143-164 | NodeStageVolume's create keeps it |
| ControllerLaws.RecoverIsOk | pkg/driver/volumestore.go:84-153 | Recovery writes only records whose promise their disk covers |
| ControllerAnswerLaws.LoadPrefersTheLocalRecord | pkg/driver/controllerserver.go:49-64 | A readable local record is used as it is, and the first error stands unless recovery helps |
| ControllerAnswerLaws.SkippedRecoveryKeepsTheStore | pkg/driver/volumestore.go:84-104 | A recovery without a provider, or that cannot connect or list, leaves the store alone |
| ControllerAnswerLaws.RecoveryKeepsRecords | pkg/driver/volumestore.go:112-123 | Recovery touches no file that exists |
| NamingLaws.RecordsNameTheirDisks | pkg/driver/controllerserver.go:196-202 | Over every run in which no volume is staged after its recorded disk is gone, each record names the only disk of its volume |
| NamingLaws.StageKeepsNamesIff | pkg/driver/nodeserver.go:161-167 | Staging keeps that exactly unless it provisions a disk for a recorded name |
| NamingLaws.StagingWithItsDiskProvisionsNothing | pkg/driver/nodeserver.go:161-167 | Staging a volume whose recorded disk exists leaves the cloud as it is |
| RetryLaws.LostRecordRetryConverges | pkg/driver/controllerserver.go:124-142 | A create repeated while the store has no record of it, in any later cloud with its disk at any size, creates nothing and gives the identical response, or refuses a disk shrunk below the request |
| RetryLaws.LostRecordRetryConvergesIff | pkg/provider/ibmcloud/provider.go:444-456 | Against a complete name query it gives the identical response exactly when its lookup does not go by a native ID other than the disk's and the disk still holds the request |
| RestartLaws.CrashRetryConvergesIff | pkg/driver/controllerserver.go:124-128 | After a crash and a restart's recovery of any outcome, with the disk at any size, a repeated create creates nothing; it gives the identical response if the record is still missing and the disk holds the request; over a rebuilt record it succeeds iff the disk's present size is the requested one, which for a disk of exactly its allocation means the request is its own allocation |
| RestartLaws.RetryOverRebuilt | pkg/driver/volumestore.go:125-131 | Over a rebuilt record a create answers from it iff the disk's size is the requested one, and is refused otherwise |
| RestartLaws.LostReplyRetryIff | pkg/provider/ibmcloud/provider.go:331-342 | The retry of a create that failed after its disk was provisioned succeeds iff the record is still missing and the disk holds the request, or recovery rebuilt it at the requested size |
| RestartLaws.RebuiltAnswerAgrees | pkg/driver/controllerserver.go:130-140 | The answer from a rebuilt record has the lost answer's ID, capacity and topology, and a context parsing to the same configuration up to extra tags and native ID |
| FailingRuns.RestartRefusesTheRetry | pkg/driver/volumestore.go:125-131 | For every configuration but sdp a run of complete listings after which every retry of a 1 GiB request is refused |
| RetryLaws.LostReplyRetryAdopts | pkg/provider/ibmcloud/provider.go:331-342 | With no record in the store, a create that failed after its disk was provisioned converges: once the disk is available the retry adopts it and creates nothing |
| RetryLaws.SavedRecordAnswersAlike | pkg/driver/controllerserver.go:124-142 | A create repeated while its record is there changes nothing and gives the same ID, capacity and topology, without provider metadata in the context |
| RetryLaws.FreshContextParses | pkg/driver/controllerserver.go:207-215 | Parsing the context of a fresh response gives the original configuration plus the native ID |
| RetryLaws.CachedContextParses | pkg/driver/controllerserver.go:130-133 | Parsing the context of a cached response gives the record's configuration |
| RetryLaws.StagingComesBackToTheDisk | pkg/driver/nodeserver.go:143-209 | Staging from the response's context in any later cloud with the disk at any size, by native ID or by name if that lookup fails, creates nothing and stages the same native ID iff the size asked for fits; publishing it writes that as the device next to cloud-volume-path |
| RetryLaws.StageAdopts | pkg/driver/nodeserver.go:145-164 | Staging under a context whose lookup reaches a usable disk stages it exactly if the size asked for fits, and creates nothing |
| RetryLaws.CachedStagingFindsTheDisk | pkg/driver/nodeserver.go:143-165 | Staging from a cached context reaches the recorded disk by the record's own configuration and stages it exactly if the size asked for fits |
| RecoveryLaws.LoadAfterWipe | pkg/driver/controllerserver.go:49-64 | After a wiped store, loading returns every recoverable disk of the placement with its path and exact size, and nothing else |
| RecoveryLaws.LoadOfMissing | pkg/driver/controllerserver.go:49-64 | The same for any store in which only this volume's file is missing |
| RecoveryLaws.LoadOfMissingIff | pkg/driver/controllerserver.go:49-64 | For disks as the driver created them, loading a volume without a file succeeds exactly when the name has an available disk in the placement with its tag and the marker |
| CreatedLaws.RunsStayAsCreated | pkg/provider/ibmcloud/provider.go:288-305 | Over every run of creates, deletes, expansions, staging and recoveries the claimed disks keep the settings and tags their creates gave them, if the digest separates configurations |
| CreatedLaws.LoadAfterRunIff | pkg/driver/controllerserver.go:49-64 | So that condition for loading is exact in every reachable cloud |
| RecoveryLaws.CreatesStayAsCreated | pkg/provider/ibmcloud/provider.go:288-305 | Creates under any configuration keep that state of the claimed disks, if the digest tells configurations apart |
| RecoveryLaws.RebuiltRecordsAreDisks | pkg/provider/ibmcloud/provider.go:624-669 | Every record rebuilt for a missing name, by any recovery, is the name's one claimed, available disk |
| OwnershipLaws.ForeignDisksSurviveRuns | pkg/driver/controllerserver.go:231-267 | Over every run, staging included, with failing and incomplete lookups, disks lacking tag and marker stay exactly as they were |
| OwnershipLaws.DeleteTakesTheRecordedDisk | pkg/driver/controllerserver.go:78-84 | When the native lookup answers, a delete removes the disk its parameters resolve to or nothing; a success means that disk is gone, and the recorded one exactly if it was before or the record's own ibm-volume-id is empty or its path |
| Limits.StaleNativeIDGivesSecondDisk | pkg/provider/ibmcloud/provider.go:445-455 | Concrete calls after which one name has two disks |
| ExpansionLaws.ExpansionKeepsPromiseIff | pkg/provider/ibmcloud/provider.go:600-620 | Under any listing, a successful expansion keeps the record's promise iff what its lookup sees is the recorded disk and the request is within the sizes create accepts, or that disk is large enough already or gone |
| ExpansionLaws.AllExpansionsKeepPromiseIff | pkg/provider/ibmcloud/provider.go:459-490 | Every successful expansion by name, under every truthful listing, keeps the promise iff the recorded disk is large enough or gone, or no other disk can be taken for the name's |
| ExpansionLaws.CompleteQuerySeesRecordedIff | pkg/provider/ibmcloud/provider.go:465-490 | A complete name query shows the recorded disk iff that carries the name |
| ExpansionLaws.ExpansionShrinksIff | pkg/provider/ibmcloud/provider.go:606-613 | Applied exactly, an expansion shrinks its disk iff the rounded request is below the size it has |
| FailingRuns.ExpandAsksForLess | pkg/driver/controllerserver.go:285-309 | For every accepted configuration a create of 1 GiB and an expansion to 2 GiB that leaves a 10 GiB disk with 2 |
| FailingRuns.ShrunkDiskFitsNoStage | pkg/driver/nodeserver.go:150-161 | No node can stage a disk of that size except on sdp |
| LaggingRuns.LaggingListingsBreakAPromise | pkg/driver/controllerserver.go:196-204 | For every accepted configuration a run of truthful but incomplete name queries ends with two disks of one name and a record promising more than its disk has |
| AnswerLaws.DeleteLeavesNoDiskIff | pkg/driver/controllerserver.go:231-267 | Under any listing, a successful delete leaves no disk owned under the name exactly unless the name has one and the lookup missed it, by a native ID of its parameters that is gone or a listing without the disk |
| AnswerLaws.RecordedDeleteLeavesNoDiskIff | pkg/driver/controllerserver.go:78-84 | In terms of the record: exactly when the recorded disk was gone, or the native lookup answers and its own ibm-volume-id is empty or its path, or it fails and the listing does not miss the name |
| AnswerLaws.DeleteDropsTheRecord | pkg/driver/controllerserver.go:264-266 | A successful delete drops the record unless its removal is lost |
| FailingRuns.DeleteLeaksTheCreatedDisk | pkg/provider/ibmcloud/provider.go:117-120 | For every request with an ibm-volume-id that is gone, a create and a delete after which the record is gone and the disk is left |
| FailingRuns.DeleteLeaksTheStagedDisk | pkg/driver/nodeserver.go:161-167 | A delete that succeeds through the gone recorded ID and leaves the disk a node's staging made |
| FailingRuns.StagedIsReached | pkg/driver/nodeserver.go:161-167 | The honest steps that lead to that delete |
| AnswerLaws.DeleteDoesNothingIff | pkg/provider/ibmcloud/provider.go:360-388 | A provider delete succeeds without changing anything exactly when its lookup misses |
| AnswerLaws.AbsentDeleteSucceedsIff | pkg/provider/interface.go:36-38 | Against a complete query a delete by name does so exactly when no disk has the name |
| AnswerLaws.DeleteOfNothingChangesNothing | pkg/provider/ibmcloud/provider.go:360-373 | When the name owns no disk, no delete of it changes the cloud, whatever its lookups answer |
| AnswerLaws.DeleteRetryConvergesIff | pkg/driver/controllerserver.go:256-266 | After a crash between cloud delete and record removal, repeating the delete succeeds, leaves the cloud as it is and removes the record exactly when nothing is left: the native ID it goes by is absent, or, falling back to the name, no disk has it |
| AnswerLaws.ExpandAnswerIsBacked | pkg/driver/controllerserver.go:285-315 | A successful expansion answers at least the request, records that size and the recorded disk has it; while that exists no other disk is resized, and never one of another name |
| AnswerLaws.ExpandRetryChangesNothing | pkg/driver/controllerserver.go:285-291 | Repeating a successful expansion, or asking for less, changes nothing and answers the same |
| Topology.FirstSegmentLoop | pkg/driver/topology.go:77-90 | The nested search returns the first non-empty value, term by term and key by key |
| Topology.ApplyIsIdempotent | pkg/driver/topology.go:39-65 | Applying a requirement twice equals once |
| Topology.ApplyFillsIn | pkg/driver/topology.go:39-65 | A requirement fills in zone and region only where none is given; no zone, the zone default and other providers leave everything as it is |
| Topology.PreferredGoesFirst | pkg/driver/topology.go:67-75 | Preferred terms count before requisite ones |
| Topology.KeyOrder | pkg/driver/topology.go:77-90 | The segment keys count in their fixed order |
| Topology.AccessibleIs | pkg/driver/topology.go:92-120 | A volume advertises its AWS zone and region if it has a zone, else on IBM its own |
| Topology.NodeTopologyIs | pkg/driver/topology_node.go:32-51 | A node's own settings replace its labels as soon as one is given; no zone gives no topology |
| Topology.NodeTopologyComesBack | pkg/driver/topology.go:92-120 | A node's advertised zone, preferred for an unplaced volume, comes back as the volume's zone; on IBM the segments are identical exactly when the node has a region or no other term does |
| Topology.ZoneAndRegionFromOneTerm | pkg/driver/topology.go:67-75 | Zone and region come from the same term when terms carry both or neither |
| Topology.AdvertisedValues | pkg/driver/topology_node.go:32-51 | An advertised topology yields its own zone and region to the selection |
| Base64Url.DecodeAfterEncode | pkg/driver/nodeserver.go:90-94 | Decoding an encoded target path gives the path back |
| Base64Url.EncodeIsInjective | pkg/driver/nodeserver.go:216 | Different targets have different directory names |
| Base64Url.DecodeIgnoresLineBreaks | pkg/driver/nodeserver.go:90-93 | Line breaks anywhere in a name do not change what it decodes to |
| Base64Url.DecodedIsWellFormed | pkg/driver/nodeserver.go:90-93 | Otherwise only whole groups of four symbols decode, padding in the last two places only |
| NodeServer.NodeDisk.CleanStaleMountInfoDirs | pkg/driver/nodeserver.go:79-129 | The cleanup pass removes exactly the stale entries |
| NodeServerLaws.RunMatchesHistory | pkg/driver/nodeserver.go:131-268 | After any run every target's directory exists and holds exactly what its event history says, nothing else is there, and every path exists exactly if the events say so |
| NodeServerLaws.PublishedTargetSurvives | pkg/driver/nodeserver.go:216-226 | A published target that nobody removed since exists and keeps its mountInfo over any number of restarts |
| NodeServerLaws.PublishSucceedsIff | pkg/driver/nodeserver.go:172-231 | A publish succeeds exactly for a staged volume with all writes taking effect; then the target and the directories above it exist and nothing else changed |
| NodeServerLaws.MountInfoKeepsTheContext | pkg/driver/nodeserver.go:195-209 | A mountInfo holds the device and the context with the volume's ID, and the device as path if it has none |
| NodeServerLaws.NodeAnswers | pkg/driver/nodeserver.go:131-268 | Stage, unstage and unpublish succeed exactly with their arguments given, a stage also with its volume |
| NodeServerLaws.StageSizeIs | pkg/driver/nodeserver.go:150-157 | A size in the context is used exactly if it is a positive 64-bit number |
| NodeServerLaws.WithinIsByComponent | pkg/driver/nodeserver.go:244-246 | Removing a target takes paths below it by whole components |
| NodeServerLaws.MountInfoNamesStagedDevice | pkg/driver/nodeserver.go:186-222 | Each mountInfo names the device its volume was staged on when it was published |
| NodeServerLaws.UnpublishRemovesOwnEntry | pkg/driver/nodeserver.go:240-247 | Unpublish removes its own target's entry and no other, and paths only at or below the target |
| NodeServerLaws.CleanupIsExact | pkg/driver/nodeserver.go:85-128 | Cleanup removes exactly the directories whose name decodes, canonically or not, whose file is corrupt or whose target is gone, and whose removal works; it is idempotent |
| NodeServerLaws.CleanupOfTarget | pkg/driver/nodeserver.go:90-94 | For a target's own directory that is about that very target |
| NodeTopologyCache.AllAnswersAgree | pkg/driver/nodeserver.go:440-464 | Under every interleaving all successful calls answer one topology, which some call resolved |
| NodeTopologyCache.CacheIsStable | pkg/driver/nodeserver.go:446-453 | Once set the cache never changes |
| NodeTopologyCache.PublishFillsTheCache | pkg/driver/nodeserver.go:451-458 | Publishing fills an empty cache with what the call resolved and answers the cache |
| NodeTopologyCache.LoneCallAnswers | pkg/driver/nodeserver.go:440-464 | A call alone answers a filled cache, or fills it; a failed one leaves no trace |
| NodeTopologyCache.LaterCallsAnswerFromTheCache | pkg/driver/nodeserver.go:441-445 | A call that starts once the cache is filled never resolves and never fails |
| Decimal.ParseAfterFormat | pkg/driver/controllerserver.go:517-529 | Atoi(Itoa(i)) = i over all of int64 |
| Decimal.ParseFormattedIff | pkg/driver/controllerserver.go:517-521 | A printed integer parses back exactly within 64 bits, or 32, and is refused outside |
| Decimal.ParseNatIff | pkg/driver/controllerserver.go:517-521 | Only a non-empty run of digits is a number |
| SnapshotPaging.ListSnapshotsPage | pkg/driver/controllerserver.go:514-544 | The paging loop returns one page, an invalid-token error, or the index panic of a negative token |
| SnapshotPaging.TokenAdvances | pkg/driver/controllerserver.go:526-530 | A page with a token is exactly full and its token points just past it |
| SnapshotPaging.PageIs | pkg/driver/controllerserver.go:514-544 | For any token a page is the entries from there on, up to a positive maximum, with a token exactly if some are left; other tokens are refused, negative ones panic |
| SnapshotPaging.WholeListReassembles | pkg/driver/controllerserver.go:514-544 | Following the tokens terminates and concatenates to the list, every page but the last exactly full |
| AwsClone.CloneLeavesNoSnapshotIff | pkg/provider/aws/provider.go:643-684 | With its describes and its clean-up taking effect, a clone ends with the snapshots it started with exactly when it takes none, or its creation's reply arrives and none of the temporary name existed |
| AwsClone.LeftSnapshotBlocksClones | pkg/provider/aws/provider.go:646-655 | Once a snapshot of the temporary name is left, every clone fails, adds no volume and leaves one again |
| AwsClone.CloneAddsOneVolumeOrNone | pkg/provider/aws/provider.go:629-687 | A clone adds exactly one volume on a fresh success or when only the last reply is lost, and none otherwise |
| AwsClone.CloneSucceedsIff | pkg/provider/aws/provider.go:629-687 | For a name without a volume a clone succeeds, with exactly the volume it adds, iff zone, source, a fresh and unambiguous temporary snapshot with its reply, both lookups and the volume's creation with its reply are all there |
| AwsClone.BuildSucceedsIff | pkg/provider/aws/provider.go:550-624 | A volume is built from a snapshot exactly if there is one of that name and its calls take effect |
| AwsClone.SnapshotSucceedsIff | pkg/provider/aws/provider.go:345-380 | A snapshot is taken exactly if its source is found and the creation takes effect with its reply |
| AwsClone.DropSucceedsIff | pkg/provider/aws/provider.go:383-406 | Deleting a snapshot by name succeeds exactly if there is none, or one and the call takes effect with its reply; then none is left and all others are |
| AwsClone.ExistingVolumeIsReused | pkg/provider/aws/provider.go:555-562 | A volume that exists is reused and nothing changes |
| AwsClone.FindVolumeIff | pkg/provider/aws/provider.go:345-349 | The first volume with the tag is the one found |
| AwsClone.CloneRetryChangesNothing | pkg/provider/aws/provider.go:634-641 | Retrying a clone that succeeded, or added its volume and lost the reply, changes nothing and answers that volume |

## Left out

- Directory and file read errors (permission, I/O) of the store; missing and undecodable files are modelled.
- The environment and file levels of bootstrap parameters: one external parameter.
- Volume content sources in CreateVolume (`pkg/driver/controllerserver.go:150-188`), which always end in an error on IBM, and the mapping of provider error text to gRPC codes.
- Validation of volume capabilities: one boolean of a create request; their presence check in node RPCs is not modelled.
- Controllers running AWS, Azure or libvirt providers: the controller's runs are over the IBM provider; of AWS only the clone protocol is modelled.
- Concurrent controller RPCs: runs are sequential; interleavings are modelled for the store's locked sections and the node's topology cache.
- Azure and libvirt providers, gRPC plumbing, identity server, volume statistics and file-system resizing: wrappers that would only add easy members.
- The Kubernetes node-label lookup behind a node's topology: its result is a parameter.
- JSON encoding: file contents are the decoded values with a Corrupt case.
