# Verification of the virtual TPM metadata service

This project models the stateful parts of the service in Dafny and proves what
the rest of the system relies on. Each file stands for one component:

| file | component |
|---|---|
| `AliasPaths.dfy`, `Wanted.dfy`, `Entries.dfy`, `Diff.dfy`, `BanTracking.dfy` | what the SPIRE reconciler wants, compares and bans |
| `SpireServer.dfy`, `SyncPlan.dfy`, `Passes.dfy`, `Reconciling.dfy`, `ReconcileConfig.dfy` | the pass over all clusters against an unreliable SPIRE server, and the configuration it rests on |
| `Enrollment.dfy` | the EK pin and enrolment protocol, with any number of requests in flight: its steps, its history, its invariant |
| `EnrollmentSection.dfy`, `EnrollmentFrames.dfy`, `EnrollmentActions.dfy`, `EnrollmentSteps.dfy` | every step keeps that invariant: the critical section, what an action leaves alone, the actions, all steps |
| `EnrollmentRuns.dfy`, `EnrollmentChecks.dfy`, `EnrollmentExample.dfy` | what follows for all runs, what the check of a request's own pins was about, and one run |
| `SessionStores.dfy` | the enrolment sessions |
| `TokenStores.dfy`, `GuestLimiting.dfy` | the IMDSv2 tokens and the per-peer limits |
| `GuestTpm.dfy`, `GuestKeys.dfy`, `GuestRenewal.dfy` | the guest's TPM and file discipline |
| `Fingerprints.dfy`, `ProxmoxSource.dfy`, `Declarations.dfy` | change detection, and the keys guests and nodes declare |
| `NICReader.dfy`, `BridgeRules.dfy`, `TableBinder.dfy` | the bridge firewall and the binder that keeps it in place |
| `Options.dfy`, `Strings.dfy`, `Sorting.dfy` | optional values, strings in byte order, sorting |

## How it is modelled

**The reconciler.** SPIRE is a store of entries whose calls may apply any part
of what they are asked and then fail; every call is recorded with the entries
before and after it, so that safety is stated of every intermediate step. The
store is always what the record makes of the store at the start. A
cluster's read is a list of guests or a doubtful read. `Pass` works from one
listing that grows stale while it works.

**Enrolment.** A world holds the pin files, the cluster pin files, the
inventory's pins, the places of the guests' configs, the sessions, the lock and
the requests in flight. A step is one atomic read or write of one request, or an
action of an operator (deletes a pin file), of the cluster's root (writes or
removes a cluster pin), of the inventory (reloads), of a guest (its config moves
to another node at once, is destroyed, is added), or of time (a session
expires). A directory listing, a file read, the look at one config path, the
exclusive link and the removal of a blank file are one step each. Any request
may also fail at any step. The history of a run is a log of events; theorems
speak of all runs from a start without requests.

**Token store and limiter.** Both are classes with the program's fields, and a
ghost history of everything ever minted or admitted. Their methods are proved
to answer as the history says. Where the program filters or reslices a slice it
is still reading, so does the model.

**The guest client.** A TPM hands out handles; each command may fail and each
flush may fail, or as a script says. Handles still to be flushed and handles
whose flush failed are told apart, and the most there ever were is kept, of the
first and of both. Commands require that the handles they use are loaded, so a
use after a flush would not verify. Files are replaced one at a time, and the
writes of a run are recorded, so that a crash is a prefix of them.

**Fingerprints, rules, binder.** Byte strings are strings. The table is a list
of rules with a meaning over frames. The binder's calls to nft fail as its
caller says.

## Hypotheses

They are `requires` clauses where they are needed.

- Times passed in are not earlier than those passed in before under the same
  lock (the callers read the clock before they take it).
- Random tokens and session IDs are fresh.
- SPIRE entry IDs are unique, a listing names an agent once, and an agent's CA
  fingerprints belong to one configured cluster at most, the same throughout.
- Selectors are not empty and contain no NUL.
- One process serves a node's enrolment, pin files change otherwise only by
  deletion, and VM IDs are digits.
- net/http reports a connection as new once, first, and as closed or hijacked
  once at most.
- SHA-256 has no collisions, and no input is 2^64 bytes long.

## What does not hold

- After an apply whose listing fails, the binder takes a missing table for the
  state it left. A table deleted then stays deleted, although nft works
  (`TableBinder.DeletedAfterUnlistedApply`). `TableBinder.Binder.Tick` states
  exactly when a tick restores the table.
- A pin need not be there when the critical section that created it ends: an
  operator may delete it inside the section, and the certificate is issued
  (`EnrollmentExample.DeletedInsideSection`). `EnrollmentRuns.SectionEndsPinned`
  states exactly when it is there.
- The TPM is not left as it was found when a flush itself fails, and more than
  three objects may then be loaded at once: four in `GuestKeys.FourLoaded`,
  after one such flush. `GuestTpm.OnlyFailedFlushesStay` says that nothing else
  stays, and that each flush that failed adds one to the three and no more.
- `Wanted` repeats aliases when a cluster lists a fingerprint twice, although its
  comment says there are none (`Wanted.RepeatedAlias`). `Wanted.Compute` states
  exactly when there are; `ReconcileConfig.LoadClusters` lists each once.

Where code and comments differ the model follows the code. `Observe` says an
agent is returned after two consecutive misses; the code, and the model, return
it at every second miss of an unbroken run. A good read during a pass that ends
early in a SPIRE error does not reach `Observe`, so it neither counts nor
resets.

## Model

| member | source | states |
|---|---|---|
| AliasPaths.DecodeRender | internal/reconcile/wanted.go:116-151 | every SPIFFE ID of valid segments decodes to the one kind, pool, key and value it was made from |
| Wanted.Collisions | internal/reconcile/wanted.go:75-103 | a pool is marked exactly when another pool of a guest, written differently, has the same lower-case segment, and the mark lists all of them in order |
| Wanted.DedupInPlace | internal/reconcile/wanted.go:179-186 | although it writes into the list it reads, the result is the list without repetitions of neighbours |
| Wanted.Compute | internal/reconcile/wanted.go:73-187 | the aliases are exactly those specified (VM, pool, and pool with each valid tag, times each fingerprint), sorted, each as often as its fingerprint is listed, so each once exactly if no fingerprint is listed twice or all guests are templates; the problems are exactly those specified, strictly sorted |
| Wanted.RepeatedAlias | internal/reconcile/wanted.go:155-168 | a cluster whose list has a fingerprint twice, and an alias that is there twice |
| Wanted.SameForEveryOrder | internal/reconcile/wanted.go:70-73 | for any two orders of the same guests, two results that are as specified are the same lists |
| Wanted.ClaimsDecode | internal/reconcile/wanted.go:116-152 | every SPIFFE ID wanted for a guest decodes, to its own VM or to its own pool's segment |
| Wanted.OnePoolPerSegment | internal/reconcile/wanted.go:74-103 | two guests that receive an alias under one pool segment have the same pool as written |
| Wanted.WantedJoinable | internal/reconcile/wanted.go:155-162 | selectors of wanted aliases satisfy what the comparison with entries needs |
| Entries.SelectorKeyMeaning | internal/reconcile/diff.go:17-22 | two selector lists have one key exactly when they have the same selectors, each as often |
| Diff.Compare | internal/reconcile/diff.go:24-59 | deletes exactly the owned entries that are not the first fitting one for a wanted key, and creates the missing aliases, in order |
| Diff.MissingKeys | internal/reconcile/diff.go:49-57 | what is created are wanted aliases, with exactly the wanted keys no listed entry serves, each once |
| Diff.DoomedIDsMeaning | internal/reconcile/diff.go:38-48 | an ID is deleted exactly when an entry with it is doomed |
| Diff.OneKept | internal/reconcile/diff.go:43-46 | an entry that fits keeps one of its key, at its place or before |
| BanTracking.AgentInfo | internal/reconcile/diff.go:88-105 | an agent is usable exactly when it is not banned and names one VM; then its fingerprints and VM are those of its selectors |
| BanTracking.BanTracker.Observe | internal/reconcile/diff.go:107-161 | an agent is returned exactly when its VM is missed now and the run of misses of its cluster that ends now has even length; the result is sorted, each agent once |
| BanTracking.BanTracker.Count | internal/reconcile/diff.go:130-153 | what the loop over the agents leaves of the misses, and which agents it counted |
| BanTracking.BanTracker.Forget | internal/reconcile/diff.go:154-158 | drops the misses of this cluster's agents that were not seen, and no others |
| BanTracking.RunIsLongestStretch | internal/reconcile/diff.go:107-113 | a run is the longest stretch of that cluster's own reads, up to the latest, that miss the VM; reads of other clusters do not matter |
| SpireServer.Server.Create | internal/reconcile/spire.go:104-134 | what a create may do: add any part of the entries asked for, never a second one for a key; it succeeds only with all of them; it is recorded |
| SpireServer.Server.Delete | internal/reconcile/spire.go:136-152 | what a delete may do: remove any part of the entries asked for and nothing else; it is recorded |
| SpireServer.Server.Entries | internal/reconcile/spire.go:80-102 | a listing holds every entry of the server's parent, each once, in any order |
| SyncPlan.SyncConverges | internal/reconcile/run.go:59-104 | deleting what is stale and creating what is missing leaves exactly one default entry per wanted key, and no other entry of the cluster |
| SyncPlan.DefaultStays | internal/reconcile/diff.go:43-46 | a wanted key with a default entry keeps one through the deletes |
| SyncPlan.ConvergedIsQuiet | internal/reconcile/diff.go:28-59 | where entries are as wanted there is nothing to create or delete |
| Passes.Partition | internal/reconcile/run.go:65-85 | a create waits for the deletes exactly when an entry about to be deleted holds its key |
| Passes.DeleteLeavesNoGap | internal/reconcile/run.go:59-63 | a wanted key is without an entry after the deletes only if a hand-changed entry held it, which the next create replaces |
| Passes.CollidingIsClear | internal/reconcile/run.go:97-101 | once the deletes went well, no create that waited for them names a key that is held |
| Passes.SafeIsClear | internal/reconcile/run.go:87-91 | no create before the deletes names a key that is held |
| Passes.Syncer.Sync | internal/reconcile/run.go:59-107 | one cluster from a listing that is fresh for it: without an error it has converged; other clusters' entries stay; every call keeps the surviving entries and no create names a held key; the store changes by the recorded calls and nothing else; if the first create fails, no entry is gone; a converged cluster gets no call |
| Reconciling.OwnersDiffer | internal/reconcile/diff.go:29-30 | no entry lies under the prefixes of two clusters |
| Reconciling.SurvivorsServe | internal/reconcile/run.go:39-107 | a wanted key that has a default entry at the start has one that no cluster's plan dooms |
| Reconciling.StillFresh | internal/reconcile/run.go:52-57 | the listing taken once is still right for every cluster not yet synced |
| Reconciling.StillConverged | internal/reconcile/run.go:45-107 | a cluster synced before stays converged while others are synced |
| Reconciling.Reconciler.SyncTarget | internal/reconcile/run.go:59-104 | the same as for one cluster, with the aliases computed from its read |
| Reconciling.Reconciler.BanTarget | internal/reconcile/run.go:111-127 | bans only agents that are due, and without an error all of them |
| Reconciling.Reconciler.Pass | internal/reconcile/run.go:35-129 | from any entries: without an error every cluster read well ends converged; with or without one, only entries of clusters read well change, an entry goes only if its cluster does not want its key, or it is not a default one, or a default one for its key is there, a new one is wanted, and each wanted key served at the start is served at the end and at every call; the store changes by the recorded calls and nothing else; an error comes only from a call that failed by itself, and ends the pass; no create names a held key, or one its cluster does not want; doubtful reads are counted; converged entries get no create and no delete; with bans allowed the history of bans is the one before with one observation for each cluster read well, in order (the first of them if there is an error); bans name agents that are due by it, and without an error all of them; without, agents stay as they are |
| Reconciling.FailedFirstCreate | internal/reconcile/run.go:67-94 | a pass whose first change of entries is a create that fails takes no entry away |
| Reconciling.GoneIsNoLoss | internal/reconcile/diff.go:38-48 | an entry that no longer is there was unwanted, not a default one, or has a default one for its key |
| Reconciling.RunsAfterPass | internal/reconcile/run.go:111-121 | after a pass every agent's run of misses is one longer or over where the cluster was read well, and as it was elsewhere |
| Reconciling.DueByRunBefore | internal/reconcile/diff.go:130-153 | whom a pass bans is known before it: an agent a cluster read well misses, whose run of misses there was odd when the pass began |
| Reconciling.ConvergedMeaning | internal/reconcile/run.go:35-39 | converged, said without keys: each wanted alias is registered by exactly one entry of the server, a default one, and each entry under the cluster's prefix registers a wanted alias |
| Reconciling.SecondPassIsIdle | internal/reconcile/run.go:35-129 | after a pass without an error, a pass with the same reads creates and deletes nothing |
| Reconciling.Reconciler.PassTwice | internal/reconcile/run.go:35-129 | two passes run one after the other: the second creates and deletes nothing, unless the first failed |
| ReconcileConfig.ReadFingerprints | internal/reconcile/config.go:102-125 | succeeds exactly when every file can be read and no fingerprint belongs to another cluster; keeps each fingerprint once, with its file |
| ReconcileConfig.LoadClusters | internal/reconcile/config.go:82-127 | succeeds exactly when names are valid and different, the settings are there, all intermediates can be read and no two clusters share a fingerprint; then the reconciler's hypotheses about clusters hold |
| Enrollment.ParseClusterPinMeaning | internal/devid/clusterpin.go:22-37 | a file is a pin exactly if it is 64 lower-case hexadecimal digits, at most followed by one newline |
| EnrollmentSteps.StepKeeps | internal/devid/pin.go:212-280 | every step, of a request or of anyone else, keeps the protocol's invariant |
| EnrollmentActions.HeldOwn | internal/devid/pin.go:218-280 | each action inside the critical section keeps what the section knows: own file blank or seen, and every other VM with the fingerprint still to be read or ignored |
| EnrollmentSection.HeldGrows | internal/devid/pin.go:26-29 | whatever others do meanwhile keeps it too |
| EnrollmentSection.LookEnds | internal/devid/clusterpin.go:124-159 | two looks that find nothing miss the guest only if it was absent at first, destroyed meanwhile, or moved twice |
| EnrollmentSection.LookMoved | internal/devid/clusterpin.go:114-117 | one move of a guest during the looks does not lose it |
| EnrollmentRuns.RunKeeps | internal/devid/enroll.go:52-148 | the invariant holds in every world of every run |
| EnrollmentRuns.StepChange | internal/devid/pin.go:91-135 | the service leaves pin files alone, removes a blank one, or links one where none was; only an operator changes them otherwise |
| EnrollmentRuns.PinAppearsOnlyPastIgnored | internal/devid/pin.go:212-280 | whenever a fingerprint appears in a VM's pin file while another VM's file holds it, the request that wrote it had looked for the other VM's guest twice, in that critical section, and not found it |
| EnrollmentRuns.IssuedOnlyScanned | internal/devid/auth.go:97-109 | a certificate, by whatever pin, is issued only if on both requests there was a moment when of every other VM with the EK in its pin file or cluster pin (not written during that scan) the guest had been looked for and not found, and no other VM had it in the inventory; by a local pin only if there was one in the critical section too |
| EnrollmentActions.ScanTracks | internal/devid/pin.go:146-210 | each action of a scan leaves every other VM with the fingerprint still to be read, or ignored, whatever was written since it began |
| EnrollmentRuns.MissedOnlyIfGone | internal/devid/clusterpin.go:119-159 | a guest that has a config throughout and moves once at most is never missed by both looks, however its moves fall between them |
| EnrollmentRuns.NoTwoVMsShareAPin | internal/devid/pin.go:26-29 | while no guest is destroyed, requests come from guests and none moves twice within one call of guestExists, no two VMs' pin files ever hold one fingerprint |
| EnrollmentRuns.PinsPersist | internal/devid/pin.go:16-17 | a pin file that is not blank stays as it is until an operator deletes it |
| EnrollmentRuns.IssuedOncePerSession | internal/devid/session.go:39-72 | each certificate stems from exactly one session, put for the same VM and EK, no session from two puts, and the common name is the VM's ID; by a local pin only if that pin was seen |
| EnrollmentChecks.LegGrounded | internal/devid/auth.go:97-104 | in every world of every run, the pin a request came with was the inventory's for its VM in an earlier world, and the cluster pin it goes to its check with was the cluster's in a world after that |
| EnrollmentChecks.ChecksWhatWas | internal/devid/auth.go:97-151 | whenever a request passes its check, the pins compared were those of the inventory, of the cluster and of its pin file, each in a world of the run, in that order, the last one in the world of the check |
| EnrollmentChecks.BothLegsChecked | internal/devid/auth.go:97-151 | on both requests the VM's inventory pin, else cluster pin, else local pin, as it was in those worlds, agreed with the EK |
| EnrollmentRuns.DifferentKeysNeedDelete | internal/devid/pin.go:240-280 | two certificates issued to one VM by its local pin for different EKs have an operator's delete of that pin between the times it was seen |
| EnrollmentRuns.SectionEndsPinned | internal/devid/pin.go:218-280 | at the end of a section that goes well the local pin equals the fingerprint exactly if no operator deleted it since it was seen; the cluster pin does unless root touched it since it was read |
| EnrollmentExample.DeletedInsideSection | internal/devid/pin.go:260-263 | a run in which the pin is gone when the section that created it ends |
| SessionStores.SessionStore.Put | internal/devid/session.go:39-59 | stores the session under its fresh ID |
| SessionStores.SessionStore.Take | internal/devid/session.go:61-72 | hands a session out exactly if it was put, was not handed out before and its time is not over |
| SessionStores.SessionStore.Purge | internal/devid/session.go:74-81 | drops exactly the sessions whose time is over |
| SessionStores.TakeTwice | internal/devid/session.go:61-72 | whatever a first call returned, a second for the same ID hands nothing out |
| TokenStores.ExpiredCountMeaning | imds/token.go:117-137 | in a list in minting order the expired tokens come first |
| TokenStores.ListMeaning | imds/token.go:110-113 | of the tokens not expired, a peer's list holds exactly its latest 32 mints |
| TokenStores.LookupMeaning | imds/token.go:169-183 | looking a value up finds exactly what the history of mints accepts |
| TokenStores.SoundBounds | imds/token.go:33-49 | in every state map, lists and count agree; a peer has 32 tokens at most, and all together the cap at most |
| TokenStores.TokenStore.PrunePeerExpired | imds/token.go:116-137 | exactly the expired front of that peer's list is gone, from list, map and count |
| TokenStores.TokenStore.FilterInPlace | imds/token.go:122-131 | filtering within the list that is being read keeps the rest in order |
| TokenStores.TokenStore.EvictOldestOfPeer | imds/token.go:139-158 | exactly the oldest tokens beyond what is to be kept are gone, from list, map and count |
| TokenStores.TokenStore.GenerateToken | imds/token.go:77-114 | refuses for the emergency cap exactly when the count is at it and the peer has room without dropping anything, and then leaves everything as it was; otherwise the mint is recorded; other peers' lists stay |
| TokenStores.TokenStore.DiscardExpired | imds/token.go:160-166 | after the sweep the map holds exactly the tokens not expired |
| TokenStores.TokenStore.ValidateToken | imds/token.go:168-183 | true exactly for a minted token among its peer's latest 32 and not past its expiry, whatever was pruned, evicted or swept |
| TokenStores.MintThenValidate | imds/token.go:77-183 | a token just minted is valid until it expires, whatever the ticker sweeps in between |
| GuestLimiting.NoWindowExceeds | internal/server/limit.go:15-23 | no window of 60 seconds, wherever it starts, holds more admissions of a peer and kind than the limit |
| GuestLimiting.RecentCount | internal/server/limit.go:120-130 | the times kept by pruning the whole history are as many as the history has in the window |
| GuestLimiting.Prune | internal/server/limit.go:120-130 | keeps the times inside the window, in order, within the list it reads |
| GuestLimiting.GuestLimiter.AllowRequest | internal/server/limit.go:141-152 | admits exactly when fewer than 120 of the peer's admitted requests lie in the last 60 seconds |
| GuestLimiting.GuestLimiter.AllowToken | internal/server/limit.go:154-165 | the same for token requests, with 30 |
| GuestLimiting.GuestLimiter.AllowEnroll | internal/server/limit.go:167-178 | the same for enrol requests, with 6 |
| GuestLimiting.GuestLimiter.ScrubIdlePeers | internal/server/limit.go:67-95 | drops exactly the idle peers; history, and so every later answer, and connection counts are as before |
| GuestLimiting.GuestLimiter.TrackConnState | internal/server/limit.go:180-210 | a new connection is refused exactly when its peer holds 16; a refused one never gives a slot back, a counted one gives back its own |
| GuestTpm.OnlyFailedFlushesStay | internal/devid/client.go:142-160 | after a run, what is loaded is what was loaded before exactly if no flush failed; at no time were more objects loaded beside those of the start than three and one for each flush that failed in the run, so three if none did |
| GuestKeys.FourLoaded | internal/devid/keys.go:168-204 | a run that reaches that bound: one flush fails and four objects are loaded at once |
| GuestKeys.CreateUnderSRK | internal/devid/keys.go:87-96 | two objects at most beside those whose flush failed, and on return the new key at most |
| GuestKeys.LoadDevID | internal/devid/keys.go:168-204 | the key, or foreign only for blobs that do not decode or that this TPM did not make; two objects at most beside those whose flush failed, on return the key at most |
| GuestKeys.TpmHash | internal/devid/sign.go:60-86 | the digest of exactly the data, however it is cut, each piece 1024 bytes at most; one object at most, none on return unless its flush failed |
| GuestKeys.RequestResources.Flush | internal/devid/csr.go:183-198 | gives back both keys, and again gives back nothing |
| GuestKeys.RequestResources.Activate | internal/devid/csr.go:200-217 | one object at most beside the keys, none on return unless its flush failed |
| GuestKeys.CreateSigningRequest | internal/devid/csr.go:240-312 | on success the two keys are loaded, the given one kept if there was one; on any error nothing is but what a flush left; never more than three objects beside those whose flush failed since the run began |
| GuestRenewal.RenewDueMeaning | internal/devid/renew.go:14-30 | a certificate that is due stays due; one that is not is valid with a third of its lifetime left |
| GuestRenewal.ReasonMeaning | internal/devid/client.go:46-53 | no reason to renew is found exactly when the materials fit, unless the certificate could not be read |
| GuestRenewal.Client.Decide | internal/devid/client.go:71-140 | renews for the first reason that holds, with the loaded key exactly unless a blob is missing or foreign |
| GuestRenewal.Client.Store | internal/devid/client.go:222-242 | wherever the writes stop, another certificate on disk implies that the SVID cache is cleared and that the blobs are those of its key; without an error certificate and blobs are written |
| GuestRenewal.Client.EnrollOrRenew | internal/devid/client.go:54-248 | on every path three objects at most are loaded at a time beside those whose flush failed, and on return only those are left; untouched only if the materials fit; gives up without a change; otherwise renews for the first reason, keeping the key that loads, and on success the certificate and both blobs of its key are on disk; its writes are safe against a crash anywhere |
| Fingerprints.BigEndianInjective | internal/inventory/fingerprint.go:26-32 | no two lengths are written the same |
| Fingerprints.EncodeInjective | internal/inventory/fingerprint.go:15-32 | no two sequences of inputs are written the same |
| Fingerprints.FingerprintBuilder.AddFile | internal/inventory/fingerprint.go:39-54 | adds the path and the state of the file: content, absent, or the error |
| ProxmoxSource.SourceFingerprint | internal/proxmox/fingerprint.go:10-44 | feeds the builder exactly the inputs of the snapshot |
| ProxmoxSource.SourceInjective | internal/proxmox/fingerprint.go:22-42 | the inputs determine everything that is read |
| ProxmoxSource.SameFingerprintSameLoad | internal/proxmox/vmconfig.go:20-53 | two snapshots have one fingerprint exactly if they are the same; so they load the same guests or the same error, the same NICs and the same topology |
| ProxmoxSource.ParseVMConfigs | internal/proxmox/vmconfig.go:25-53 | fails exactly if the directory cannot be listed; otherwise a guest is there exactly if a readable file is its |
| ProxmoxSource.LastFileDecides | internal/proxmox/vmconfig.go:42-50 | the guest is what the last of its readable files says |
| ProxmoxSource.TopologySources | internal/proxmox/vmconfig.go:180-189 | which source each topology key takes its value from |
| ProxmoxSource.HostTopology | internal/proxmox/vmconfig.go:190-220 | the topology by those sources |
| Declarations.DeclaresMeaning | internal/proxmox/vmconfig.go:120-125 | a key is declared exactly when one place names it and that one is valid |
| Declarations.InstanceTags | internal/proxmox/vmconfig.go:126-167 | the tags are exactly the declared keys with their values |
| Declarations.DescriptionTopology | internal/proxmox/vmconfig.go:222-284 | the topology keys are exactly the declared ones, of which the first 64 in order |
| BridgeRules.TapIdentifies | internal/proxmox/nics.go:22-32 | a port name has 15 characters at most and determines VM ID and NIC index |
| BridgeRules.Render | internal/bridgebind/render.go:16-47 | a frame is accepted exactly when every NIC of its port on the bridge has a MAC, the frame is untagged, comes from that MAC, and in ARP names it as sender |
| BridgeRules.OwnNICsDecide | internal/bridgebind/render.go:16-24 | what a guest's port accepts depends on that guest's NIC alone |
| NICReader.ChosenMacMeaning | internal/proxmox/nics.go:105-124 | the MAC of a line is the last macaddr; if that is empty or there is none, the first model with a MAC after it; else none |
| NICReader.LastBridgeDecides | internal/proxmox/nics.go:109-110 | the last bridge field is the NIC's bridge |
| NICReader.NoBridgeNamed | internal/proxmox/nics.go:109-110 | without one the NIC is on no bridge |
| NICReader.LastModelDecides | internal/proxmox/nics.go:111-112 | the last model field is the model, unless a model with a MAC follows |
| NICReader.FirstFillerNamesModel | internal/proxmox/nics.go:115-118 | without one the field whose MAC is taken names it |
| NICReader.ParseNIC | internal/proxmox/nics.go:101-125 | the NIC has the model, the bridge and the MAC its fields choose, the MAC in lower case, if it is one |
| NICReader.LiveStops | internal/proxmox/nics.go:75-83 | nothing after the first section header is read |
| NICReader.NetNICsMeaning | internal/proxmox/nics.go:79-97 | one NIC for each net line and no other, each from its own line, in the order of the lines |
| NICReader.ParseNICs | internal/proxmox/nics.go:75-99 | exactly the NICs of the net lines of the file's live section, in order |
| NICReader.AllNICsMeaning | internal/proxmox/nics.go:52-63 | a NIC is read exactly if the config of a guest has it |
| NICReader.GuestNICs | internal/proxmox/nics.go:34-73 | fails exactly if the directory or the config of a VM ID cannot be read, and names the first; otherwise the NICs of all live net lines, as often as they are there, sorted, with names that identify them and a valid MAC or none |
| NICReader.AllowedMeaning | internal/bridgebind/render.go:16-24 | the NICs read allow a frame exactly if every live net line that puts its NIC on the bridge at the frame's port allows it |
| NICReader.RulesOf | internal/bridgebind/binder.go:108-117 | rules are made exactly if all configs can be read; they accept exactly the frames that the text of the configs allows |
| TableBinder.Binder.Read | internal/bridgebind/binder.go:107-118 | what is wanted is the rendering of the last configurations that could be read |
| TableBinder.Binder.Tick | internal/bridgebind/binder.go:100-151 | keeps that invariant and what is known of the table, all of it if nothing is applied; with nft working the table is as wanted afterwards, exactly unless it is missing and so was the listing after the last apply |
| TableBinder.DeletedAfterQuietTicks | internal/bridgebind/binder.go:100-151 | after any number of quiet ticks on a table that was listed, a table deleted is restored |
| TableBinder.Binder.Start | internal/bridgebind/binder.go:163-175 | the first check goes on exactly with a table applied |
| TableBinder.DeletedAfterUnlistedApply | internal/bridgebind/binder.go:123-151 | a run in which a tick does not restore a deleted table |

## Left out

- X.509, RSA, credential activation, TPM attestation and the CA (`ca.go`, `challenge.go`, `verify.go`, `san.go`): whether they succeed is open in every model; that an EK certificate is trusted and bound is taken for every request.
- HTTP handlers, JSON, headers and status mapping, and the middleware's order of the three limits.
- The gRPC and Proxmox clients, paging, YAML, PEM and regular expressions: the models take what they return.
- Log lines and their rate limiting, among them the token store's `emergencyBrake` flag and `trip`'s clock, which no answer depends on.
- Unicode case folding: lower case is ASCII, or a function of the caller's; fingerprints are lower-case hexadecimal, so folding them is equality.
- Temporary names, fsync, owners and modes: a file is replaced as a whole, or linked where none was, in one step.
- Enrollment is a transition system on values, because its point is the interleaving: the order of a directory listing is left open, a listing is one step, and memory shared by requests is the world.
- PeerBudget and the keys of the guest client are values, so aliasing between them is not modelled.
- Times are integers: saturation of very long durations is not modelled.
- Changes of files between taking a fingerprint and reading them: the fingerprint theorem is about snapshots.
- parseVMConfig beyond its NICs, tags and live section, and everything of the YAML inventory.
- The certificate's issuance in `Enroll`, `systemctl` and what SPIRE does with the files.
