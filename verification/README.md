# Verified models of the relay vault, the group protocol, the mailbox and the codecs

This project models, in Dafny, the parts of the messenger whose correctness depends on the
order of effects across several functions, and proves what they promise over every run. Each
component has two layers: functions on values that say what one locked section, one handler
or one codec does, with the lemmas about whole runs; and, where the Go code works by changing
things in place, a class or a looping method proved to do exactly what those functions say.

`dafny verify dfyconfig.toml` checks everything.

| files | what they model |
|---|---|
| `VaultLog`, `Vault`, `VaultBox` | the index log and its replay; the sections of a vault mailbox as functions; the mailbox as a class |
| `VaultRuns`, `VaultSound`, `VaultGap`, `VaultQuota`, `VaultLanes`, `VaultGrace`, `VaultReach` | the vault as a step machine with concurrent uploads, collections, purges and crashes; its theorems, and runs that reach the states where they need care |
| `VaultLaws`, `GroupLaws`, `RendezvousLaws` | what each request, handler and operation achieves: exactly when it succeeds, what holds then, and that it happens over whole runs |
| `Ratchet`, `Inbound`, `RatchetRuns`, `RatchetOrder` | the sender-key ratchet, the receive state, and runs over a hostile network |
| `Rosters`, `Agreement` | rosters, the owner's next version, the relay's roster store, and agreement of all holders |
| `Seats`, `GroupNode`, `Membership`, `Secrecy`, `Readers`, `Honesty`, `ChainUse` | one peer's place in a group, its own groups included: every operation, the class, and its run theorems |
| `Conversations`, `Mailbox`, `Receiving` | the archive with its caches, the relay inbox, and the receive loop |
| `Bytes`, `Frames`, `Rendezvous`, `WebSocket`, `Rlp` | the LAN rendezvous with its binary frames, WebSocket framing, RLP |
| `Collections` | sorted listings and sums |

## What is assumed

- Cryptography is ideal. Chain keys and message keys are the terms that built them, a
  ciphertext opens only under its own key, a roster carries the owner's signature only if the
  owner's code signed it, and chain seeds are fresh.
- An append to the vault's index log, with the compaction it may trigger, happens completely or
  not at all; a crash may leave one unparsable tail. Blob ids are content hashes. Quota and
  keep-versions are fixed during a run and the clock does not go back. `group.json`,
  `keys.json` and archive lines are written whole or not at all.
- Everything else may fail or interleave: store writes and deletes, log appends, re-reads,
  local writes, sends, replies, acknowledgements, and crashes between any two durable effects.
  Failures are parameters of the operations.

## Where the code does not keep a promise

Each of these is kept as the code has it, with a lemma that shows the failing case and one that
says exactly when the promise is kept.

- The vault index may name an id without bytes if a purge cannot rewrite the index, or a reload
  cannot read it, while an upload of a logged id may still succeed: the upload then removes
  bytes the log still names. `VaultRuns.IndexedIsStored` holds when no such upload is in
  flight; `VaultGap.ForgettingLosesBytes` and `VaultGap.UnreadableIndexLosesBytes` show that
  each half of the condition is needed, `VaultReach.RacingUploads` and
  `VaultReach.RacingUnloaded` that each is reached. Log, quota, lanes and grace need no such
  condition.
- The quota accounting is lost by an upload admitted by a collection that can neither log its
  deletions nor re-read the log, and by an index rebuilt from leftovers that do not fit; it
  holds at every point of a run if and only if no such step was taken (`VaultQuota.QuotaExact`,
  with the guards written on what the step starts from). `VaultQuota.OvercommitOverruns` and
  `VaultReach.OvercommitReached` show the first case.
- "Present" answered while the touch could not be logged is known to memory only. A crash or an
  aborted collection keeps the confirmation if and only if the log has it
  (`VaultGrace.ReloadKeepsIffHeld`, `VaultGrace.UnloggedConfirmationLost`); without one it is
  kept (`VaultGrace.GraceKept`).
- A purge that stops between emptying the index and dropping the lanes leaves lanes without
  blobs (`VaultLanes.CutPurgeBreaksLanes`); otherwise they are complete.
- After an unpublish, a duplicate of a publish that lost a race can install a different roster
  under a version others hold (`Agreement.UnpublishBreaksAgreement`); until then holders agree.
- If the new chain (or the "left" marker) cannot be written when a roster drops a member, the
  old chain stays in use and the dropped member can read on (`Secrecy.LeaksIffUnconverged` for
  members and `Secrecy.OwnerLeaksIffNotReissued` for the owner, both directions).
- A post goes out even to members whose key message could not be sent; they cannot open it.
  `Readers.ReadersAreTheReached` says exactly who can, `Readers.UnreachedStaysOwed` that the
  others are sent the chain next time.
- Messages are lost exactly when more than 512 passed-over ones were outstanding at some point
  (`RatchetOrder.LosslessIffBounded`).
- Two epoch bumps in one second let a later rotation repeat an epoch
  (`Epochs.SameSecondCollides`); a rotation outranks an earlier epoch if and only if the clock
  has passed it or the copy is as new (`Epochs.OutranksIff`).
- A redelivered letter is archived twice exactly when the conversation had to be scanned for
  seen ids and could not be opened: the empty result is cached as if the file were empty
  (`Receiving.DuplicatesIffUnscanned`). In the same way line numbers are wrong, until a
  restart, exactly from the first append that had to count a file it could not read
  (`Receiving.LinesRightIffCounted`).
- `rlpEncodeUint` casts to int64, so it is right exactly up to 2^63; above, it encodes
  2^64 - n (`Rlp.UintEncoding`).
- A big integer is encoded without its sign (`Rlp.BigEncoding`); the amounts it is used for are
  not negative.
- `writeFrame` writes payloads above 64 MiB that `readFrame` refuses
  (`WebSocket.ReadsBackIffWithinCap`).

The comment on `GroupKeyDist` says the chain is at index 0 of its epoch; the code sends and
stores the current index, and so does the model. `ReadMessage` starts over on a data frame in
the middle of a fragmented message and accepts a continuation without a start; the model does
too, and the fragmentation theorem is about well-formed messages.

## Model

| member | source | states |
|---|---|---|
| `VaultLog.ReadIndex` | relay/vaultindex.go:62-125 | the line loop returns the replay of all records and their count, skips blank lines, tolerates an unparsable line only at the unterminated end of the file, and refuses it anywhere else |
| `VaultLog.RefusedEarly` | relay/vaultindex.go:62-125 | an unreadable line that is not the last refuses the file |
| `VaultLog.TornTailInvisible` | relay/vaultindex.go:62-125 | a log with an unparsable tail reads exactly as the log without it |
| `VaultLog.ReplayCompact` | relay/vaultindex.go:167-188 | replaying a compacted log gives the map it was written from, in one line more than it has entries |
| `VaultLog.CompactReadable` | relay/vaultindex.go:167-188 | a compacted log is never refused by a later read |
| `VaultLog.ApplyRefines` | relay/vaultindex.go:129-164 | applying one record in memory and in the log keeps the same ids and sizes and times at least as new in memory |
| `VaultLog.AppendInStep` | relay/vaultindex.go:129-164 | after a successful append, with or without compaction, log, line counter and memory agree, exactly if they did before, and the log has at most 2*live + slack records |
| `VaultBox.Mailbox.CompactIndex` | relay/vaultindex.go:167-188 | the log becomes the sorted snapshot of the index |
| `VaultBox.Mailbox.AppendIndex` | relay/vaultindex.go:129-164 | the record is appended or the log compacted, or nothing changes |
| `VaultBox.Mailbox.LoadIndex` | relay/vaultindex.go:195-225 | the index is the replay of the log, a torn log is compacted, a missing one is rebuilt from disk |
| `VaultBox.Mailbox.Recount` | relay/vaultindex.go:228-234 | the counters become the sum of the sizes and the number of entries |
| `VaultBox.SumIndex` | relay/vaultindex.go:228-234 | the summing loop computes both |
| `VaultBox.SnapshotLines` | relay/vaultindex.go:167-188 | the loop writes the header and one put per id in order |
| `VaultBox.Mailbox.Load` | relay/vault.go:239-272 | a load gives the box that index and lane files describe, or leaves it unloaded |
| `VaultBox.Mailbox.TouchBlobs` | relay/vault.go:319-332 | the times of the named blobs move to now in memory, and in the log if the append succeeds |
| `VaultBox.Mailbox.Reserve` | relay/vault.go:385-419 | the reserving section: size checks, a concurrent winner, quota with one collection, reservation and in-flight count |
| `VaultBox.Mailbox.MakeRoom` | relay/vault.go:467-475 | one collection at most every gcEvery, and whether the upload fits then |
| `VaultBox.Mailbox.Finish` | relay/vault.go:423-462 | the finishing section: store error, overtaken by a purge, lost to the same id, append failure, recorded |
| `VaultBox.Mailbox.Has` | relay/vault.go:541-560 | the missing ids in request order, the present ones touched |
| `Vault.PresentExact` | relay/vault.go:541-558 | an id is reported missing exactly when it was asked for and is not indexed |
| `VaultBox.Mailbox.PutHead` | relay/vault.go:701-779 | compare-and-swap of a lane with its refusals; history keeps the last keep-1 versions |
| `VaultBox.Mailbox.DeleteHead` | relay/vault.go:784-825 | compare-and-delete of a lane |
| `VaultBox.Mailbox.Purge` | relay/vault.go:835-883 | the generation moves, the empty index is written first, then lanes, blobs and directory go |
| `VaultBox.Mailbox.Collect` | relay/vault.go:956-1024 | one collection with each of its failures |
| `VaultBox.MarkLive` | relay/vault.go:956-984 | the marked set is exactly what the retained versions of all lanes name, or some refs blob is unreadable |
| `VaultBox.SelectVictims` | relay/vault.go:985-991 | exactly the unmarked, idle and aged blobs are selected |
| `VaultRuns.StepKeepsConsistent` | relay/vault.go:395-462 | every locked section, store write and crash keeps index, log, store, in-flight counters and generations consistent |
| `VaultRuns.IndexedIsStored` | relay/vaultindex.go:32-35 | at every point of every run each indexed id, in memory and as replayed from the log, has its bytes in the store |
| `VaultSound.StepKeepsSound` | relay/vaultindex.go:129-188 | every section, store write and crash keeps log and memory in agreement, whatever fails |
| `VaultSound.LogRepeatsMemory` | relay/vaultindex.go:129-188 | from the start or any load on, until a touch fails to be logged, the log replays to exactly the index in memory, times included |
| `VaultGap.ForgettingLosesBytes` | relay/vault.go:835-883 | a purge that cannot rewrite the index while an upload of a logged id may succeed can lose its bytes |
| `VaultGap.UnreadableIndexLosesBytes` | relay/vault.go:239-246 | so can a reload that cannot read the index: both halves of the condition are needed |
| `VaultReach.RacingUploads` | relay/vault.go:395-462 | the first state is reached by two ordinary uploads of one id |
| `VaultReach.RacingUnloaded` | relay/vault.go:993-1005 | the second by the same two and a collection that fails to log and to re-read |
| `VaultQuota.QuotaKept` | relay/vault.go:395-475 | in every run, until a step the next row names, bytes is the sum of the indexed sizes, reserved the sum of the uploads in flight, and together they stay within the quota |
| `VaultQuota.QuotaExact` | relay/vault.go:395-475 | the accounting holds at every point of a run if and only if no upload overcommits and no load adopts too much |
| `VaultQuota.StepAccounted` | relay/vault.go:395-475 | one step keeps the accounting if and only if it is neither |
| `VaultQuota.OvercommitsExactly` | relay/vault.go:403-419 | the guard, stated on what the reserving section starts from, is met exactly by the grants that leave the box unloaded |
| `VaultQuota.OvercommitOverruns` | relay/vault.go:467-475 | an admission after a collection that failed twice always overruns the quota after the next load |
| `VaultReach.OvercommitReached` | relay/vault.go:467-475 | such an admission is reached from an empty mailbox |
| `VaultQuota.AdoptionFits` | relay/vaultindex.go:211-224 | a rebuilt index keeps the accounting exactly when leftovers plus reservations fit the quota, whether or not the lanes can then be read |
| `VaultLanes.LanesStayComplete` | relay/vault.go:701-779 | in every run every retained version of every lane has root, refs blob and all named ids indexed, versions are consecutive and the record holds exactly the last min(version, keep) of them |
| `VaultLanes.GCSparesLive` | relay/vault.go:956-1011 | a collection never forgets an id that a retained version needs |
| `VaultLanes.CutPurgeBreaksLanes` | relay/vault.go:835-883 | a purge cut between index and lanes leaves incomplete lanes |
| `VaultGrace.GraceKept` | relay/vault.go:316-332 | an id confirmed or uploaded at t, logged or not, is indexed at every time up to t + grace in every run without a purge in which each crash or aborted collection found the confirmation in the log; no head update is refused for it |
| `VaultGrace.LoggedGraceKept` | relay/vault.go:316-332 | in particular whenever the confirmation was logged, whatever crashes |
| `VaultGrace.ReloadKeepsIffHeld` | relay/vault.go:993-1005 | a crash or aborted collection keeps a confirmation if and only if the log has it |
| `VaultGrace.UnloggedConfirmationLost` | relay/vault.go:541-560 | a confirmation whose touch was not logged does not survive a crash |
| `VaultLaws.PutHeadAccepts` | relay/vault.go:701-779 | a head update succeeds if and only if the named version is the current one (0 for none), the lane exists or fewer than 64 do, root, refs blob and every id it names are indexed, the refs blob is stored, readable and a list, and the write succeeds; the lane is then at the next version with that root and refs, and no other lane changed |
| `VaultLaws.PutHeadRefuses` | relay/vault.go:701-779 | which condition gives each refusal, and that a refusal changes nothing |
| `VaultLaws.MissingReported` | relay/vault.go:714-757 | the ids reported missing are exactly those that are |
| `VaultLaws.DeleteHeadDrops` | relay/vault.go:784-825 | a lane is deleted if and only if it exists at the named version and can be removed; each refusal with its condition |
| `VaultLaws.PublishingSucceeds` | relay/vault.go:316-332 | in every run in which indexed ids have their bytes: once each id of a version was confirmed within the grace, naming the current version of a lane that may exist makes the head update succeed, whatever uploads and collections came between, and crashes that found the confirmation in the log |
| `VaultLaws.DoomedAreVictims` | relay/vault.go:956-991 | a collection selects exactly what no retained version names, whose grace is over and which nobody is uploading |
| `VaultLaws.CollectionFrees` | relay/vault.go:956-1024 | a collection that can read the lanes and log its deletions forgets exactly those, in memory and in the log, frees the bytes of each whose delete succeeds and of nothing else, and counts what is left |
| `VaultLaws.PurgeLeavesNothing` | relay/vault.go:835-883 | a completed purge leaves no lane, index entry, log or bytes, and a later generation |
| `VaultLaws.ReloadRestores` | relay/vault.go:239-272 | a reload after a crash gives back exactly what was logged, with the lanes, and mends a torn log |
| `VaultLaws.RebuildAdopts` | relay/vaultindex.go:195-225 | without an index file exactly the blobs on disk are adopted, with size and file time |
| `VaultLaws.ReserveAdmits` | relay/vault.go:385-419 | an upload that fits is granted; one that does not is granted if and only if a collection is due and makes it fit |
| `VaultLaws.FinishEnds` | relay/vault.go:423-462 | which condition gives each end of an upload, what is recorded then, and that the reservation always goes |
| `VaultLaws.FinishCleans` | relay/vault.go:423-445 | an upload overtaken by a purge takes its bytes away exactly when nobody else needs them; no other end touches the store |
| `VaultLaws.MissingInOrder` | relay/vault.go:541-558 | the missing ids in the order asked, each as often as asked |
| `VaultLaws.QueryConfirms` | relay/vault.go:541-560 | each present id is confirmed as of now, the others are untouched |
| `VaultLaws.LogOnlyGrows` | relay/vaultindex.go:129-164 | an append adds exactly one record unless it is due for compaction |
| `Ratchet.SenderKey.GroupSeal` | a2a/group.go:329-349 | seals under the key of the current position and moves the chain one step |
| `Ratchet.RecvState.GroupOpen` | a2a/group.go:359-415 | every branch of opening: wrong epoch, cached key, consumed, too far ahead, forward with caching |
| `Ratchet.SkipTo` | a2a/group.go:397-400 | the loop caches the message key of every index passed over and ends at the right chain key |
| `Ratchet.KeepNewest` | a2a/group.go:419-431 | sorting and deleting keeps exactly the newest 512 keys |
| `Ratchet.NewestExact` | a2a/group.go:417-431 | those are 512 of the cached indexes, each above every dropped one; with fewer none is dropped |
| `Inbound.SenderEntry.HandleGroupKey` | peer/groups.go:2084-2101 | lower epochs and identical material are ignored, anything else replaces the state |
| `Inbound.KeyIsTaken` | peer/groups.go:2084-2101 | a well-formed distribution that is not of a lower epoch is taken whatever is held: epoch, index and chain are its own, and the cache is empty unless all three already were |
| `Inbound.SenderEntry.HandleGroupEnvelope` | peer/groups.go:1869-1909 | the state is stored only when the envelope opened and the write succeeded |
| `RatchetRuns.OpensWhatWasSealed` | a2a/group.go:359-415 | a successful open returns the message sealed at the position the envelope names, even if it was relabelled |
| `RatchetRuns.RatchetStaysRight` | peer/groups.go:1869-1909 | at every point of every run the stored state is on its epoch's chain, cached keys belong to their index, opens are right, and a refused envelope changes nothing |
| `RatchetRuns.DistributionOpens` | peer/groups.go:2084-2101 | at every point of every run, whatever is held, a distribution that is not of a lower epoch makes the message sealed at its position open to its content |
| `RatchetRuns.GenuineMeets` | a2a/group.go:359-415 | at every point of every run, which state gives a genuine envelope each of the four refusals, and that it opens to its content in every other |
| `RatchetOrder.OpensExactlyOnce` | a2a/group.go:374-405 | whatever was held before the distribution, with at most 512 outstanding the next message opens if and only if it was not delivered before |
| `RatchetOrder.LosslessIffBounded` | a2a/group.go:374-431 | an order loses no message if and only if at most 512 were outstanding at each point |
| `RatchetOrder.AheadOpens` | a2a/group.go:385-405 | a forward step opens its message and keeps the newest 512 of the cached and passed-over keys |
| `RatchetOrder.AlwaysTrails` | a2a/group.go:359-431 | after every order with any repeats and gaps the cache holds outstanding keys only, and every lost key is older than all it holds |
| `RatchetOrder.OverflowKeepsNewest` | a2a/group.go:384-431 | after every forward step that overflows it, the first or a later one, the cache is exactly the newest 512 of all outstanding keys |
| `RatchetOrder.LostForever` | a2a/group.go:376-380 | a key that is neither ahead nor cached is refused in every later delivery |
| `Rosters.Verify` | a2a/group.go:162-220 | accepts exactly rosters that are well formed, list distinct genuine members including the owner, have fitting admins and the owner's signature |
| `Rosters.VerifiedMeans` | a2a/group.go:162-220 | that is: as many fingerprints as cards, every card genuine, the owner and every admin among them, at most 128 members and 16 admins, signed by the owner |
| `Rosters.Validate` | a2a/groupprofile.go:216-275 | accepts exactly profiles whose admins are members, within the cap |
| `Rosters.BuildNext` | peer/groups.go:1453-1519 | the loops build the next version: stayers in order with renewed cards, then new members, admins among them |
| `Rosters.NextMembersAre` | peer/groups.go:1469-1503 | its members are the old ones without the dropped plus the added |
| `Rosters.NextCardsAre` | peer/groups.go:1469-1503 | who stays keeps its card unless it is replaced, every addition is there, and nobody else |
| `Rosters.NextKeepsOrder` | peer/groups.go:1469-1503 | those who stay keep their order, one card each, and the additions come after them |
| `Rosters.NextProfileIs` | peer/groups.go:1504-1519 | the new profile if there is one, with exactly those of its admins who are members; the next version of the same owner and group |
| `Rosters.RepublishedVerifies` | peer/groups.go:1504-1527 | from a valid roster and genuine cards the next version verifies exactly when it is short enough and lists the owner |
| `Rosters.GroupRelay.Publish` | relay/group.go:171-214 | verified, same owner and strictly newer, or refused with its status |
| `Rosters.GroupRelay.Unpublish` | relay/group.go:62-91 | only the owner removes the roster |
| `Rosters.GroupRelay.FanOut` | relay/group.go:248-307 | signature, rate limit, membership and active device in turn with their statuses; then every other member whose mailbox takes it gets exactly one copy, and the status says if none did |
| `Agreement.GroupFrom` | peer/groups.go:1629-1719 | an operation of a member leaves the roster it had, none, or the one it was given |
| `Agreement.TurnAgrees` | relay/group.go:190-214 | every publish, reply, fetch, invite, store, stale write-back and handler keeps: one accepted roster per version, everything held was accepted, the relay holds the newest |
| `Agreement.HoldersAgree` | peer/groups.go:1453-1534 | until an unpublish, any two holders of the same version hold the same roster and nobody is ahead of the relay, in every run with lost, repeated and reordered messages and racing republishes |
| `Agreement.UnpublishBreaksAgreement` | relay/group.go:62-91 | after an unpublish a repeated losing publish installs a different roster under a held version |
| `GroupLaws.PublishStores` | relay/group.go:171-214 | a roster is stored if and only if it verifies, is let through, is the first or a newer one of the same owner, and is written; each refusal with its condition |
| `GroupLaws.FetchedIsHeld` | peer/groups.go:1608-1719 | in every state of every run a member that refetches with its writes succeeding holds the roster the relay stores if it is on it, and is marked as removed if not |
| `GroupNode.Targets` | peer/groups.go:459-466 | exactly the co-members who were not handed the current epoch |
| `GroupNode.SendKeys` | peer/groups.go:471-480 | each target is tried with the current chain position, and those whose send succeeded are told apart |
| `GroupNode.PruneSenders` | peer/groups.go:556-567 | exactly the receive states of members remain |
| `GroupNode.SomeRemoved` | peer/groups.go:1685-1701 | whether a member of the old roster is missing from the next |
| `GroupNode.Node.DistributeSenderKey` | peer/groups.go:449-498 | the chain is tried with all who are owed it; those reached have it and are recorded |
| `GroupNode.Node.EnsureSenderKey` | peer/groups.go:501-513 | a chain at epoch 1 when there is none |
| `GroupNode.Node.RekeyGroup` | peer/groups.go:527-552 | a fresh chain at the next epoch, non-members forgotten, then distributed |
| `GroupNode.Node.RedistributeSenderKey` | peer/groups.go:573-589 | the distribution record is reset and the chain handed out again |
| `GroupNode.Node.RotateSenderKey` | peer/groups.go:609-643 | a fresh chain above the current epoch and the clock, unless left |
| `GroupNode.Node.FanOutGroup` | peer/groups.go:780-804 | refused when left; key ensured, handed out, and the advanced chain stored before a post leaves |
| `GroupNode.Node.ApplyRoster` | peer/groups.go:1629-1719 | all branches: refused, dissolved, my removal, re-admission, members dropped, members added |
| `GroupNode.Node.RefreshRoster` | peer/groups.go:1608-1625 | what each answer of the relay does |
| `GroupNode.Node.HandleGroupInvite` | peer/groups.go:1993-2057 | the trust rules, then joining or applying and handing the chain out again |
| `GroupNode.Node.GroupCreate` | peer/groups.go:685-761 | a group of my own is stored once the relay took its first roster, and my chain handed out |
| `GroupNode.Node.HandleGroupKey` | peer/groups.go:2061-2102 | malformed, unknown group, non-member with one refresh, then the stored state |
| `GroupNode.Node.HandleGroupEnvelope` | peer/groups.go:1835-1940 | echo, unknown group, left, non-member with one refresh, open, store, act on the kind |
| `GroupNode.Node.DissolveIfOwner` | peer/groups.go:1813-1833 | while left only the owner's dissolution is honoured, and no key state is stored |
| `GroupNode.Node.RepublishRoster` | peer/groups.go:1453-1553 | nothing changes locally unless the relay accepted the next version; then store, rekey or hand out, and notify |
| `GroupLaws.NewsIsTaken` | peer/groups.go:1629-1719 | every verified newer roster of the same group and owner is held afterwards if it can be written, with the marker set, cleared or kept as it says; whatever is not that changes nothing |
| `GroupLaws.NewsMovesTheChain` | peer/groups.go:1664-1714 | my chain is replaced by a fresh one at the next epoch if and only if members were dropped or I came back |
| `GroupLaws.NewsReachesMembers` | peer/groups.go:1664-1714 | everybody on the new roster has been sent the chain in use then, unless it is on record as sent; whom a new chain reached is recorded |
| `GroupLaws.WelcomeInviteJoins` | peer/groups.go:1993-2057 | an invite by the owner or an admin who is a friend or the one I applied to makes me hold the group, with a chain sent to every other member; any other changes nothing |
| `GroupLaws.WelcomeInviteUpdates` | peer/groups.go:2028-2044 | to a group I hold it is news like any other, and while I am in, my chain goes out to everybody again |
| `GroupLaws.UnwelcomeInviteIgnored` | peer/groups.go:1993-2027 | an unwelcome invite changes nothing, whatever I hold |
| `GroupLaws.CreationHolds` | peer/groups.go:685-761 | a created group is held once the relay took it, with a chain sent to every member, and not before |
| `GroupLaws.AllOwedSent` | peer/groups.go:449-483 | a distribution sends my chain to every other member not recorded for its epoch |
| `GroupLaws.RecordedNotResent` | peer/groups.go:459-466 | and to nobody who is |
| `GroupLaws.MemberKeyIsStored` | peer/groups.go:2061-2102 | a member's well-formed key is stored unless a higher epoch is held, and nothing else of the seat moves |
| `GroupLaws.MemberLetterIsTaken` | peer/groups.go:1835-1940 | a member's letter that opens is taken in: the moved state is stored, an update asks for a refetch, the owner's dissolution marks the group |
| `GroupLaws.OtherLettersDoNothing` | peer/groups.go:1869-1925 | a letter that names another sender or was seen moves the ratchet only; one that does not open moves nothing |
| `GroupLaws.StrangersAreLookedUp` | peer/groups.go:1861-1868 | what a stranger sends is judged by the roster the relay then answers with |
| `GroupLaws.NewcomersKeyIsStored` | peer/groups.go:2074-2102 | a key that outruns the roster naming its sender is not lost: roster and key are both held |
| `GroupLaws.DissolutionReachesTheRemoved` | peer/groups.go:1813-1833 | who was removed still learns of the owner's dissolution |
| `GroupLaws.ChangeIsHeld` | peer/groups.go:1453-1553 | the owner holds the next version, with exactly the members asked for, once the relay took it and it was written |
| `GroupLaws.ChangeReachesMembers` | peer/groups.go:1531-1551 | then every member was sent a new chain if somebody was dropped, and a newcomer the old one otherwise |
| `GroupLaws.ChangeRefused` | peer/groups.go:1453-1527 | in every other case nothing changes |
| `GroupLaws.RotationStartsAfresh` | peer/groups.go:609-643 | a rotation that is written starts a chain above the old epoch and the clock that nobody is recorded for, and keeps exactly the members' receive states |
| `GroupLaws.TopUpSends` | peer/groups.go:671-680 | topping up sends my chain to every other member not recorded for it |
| `GroupLaws.PostingMovesOn` | peer/groups.go:780-804 | a post leaves under the current position for the members of the roster held and moves the chain one step |
| `Membership.StepKeeps` | peer/groups.go:1629-1719 | no operation but deletion undoes owner, version, a dissolution, or a staying sender's epoch |
| `Membership.MembershipHolds` | peer/groups.go:1616-1719 | over every run until deletion the owner is fixed, the version never decreases, and dissolved is final with the roster frozen |
| `Membership.EpochNeverFalls` | peer/groups.go:2087-2100 | the held epoch of a sender who stays on the roster never decreases and is never forgotten |
| `Membership.StepNotMine` | peer/groups.go:1835-1843 | a group of mine is never marked dissolved by a message |
| `Secrecy.OnlyTheAudienceReads` | peer/groups.go:527-567 | at every point of every run, of my own groups too, only members of the roster a post was made under were ever sent a key that opens it, failed sends counted as sent |
| `Readers.ReadersAreTheReached` | peer/groups.go:780-804 | at every later point exactly those members hold a key that opens a post who had been given the chain before it or were reached by the distribution in front of it |
| `Readers.ReadersAreTheRecorded` | peer/groups.go:449-498 | while records are written and no repeated invite resets them, those are exactly the recorded at its epoch and the reached |
| `Readers.UnreachedStaysOwed` | peer/groups.go:459-483 | at every point of every run a member not given the current chain is owed it, and the next distribution sends it |
| `Readers.DistributeGives` | peer/groups.go:459-483 | a distribution gives the chain to exactly the owed members it reaches |
| `Readers.OpeningSettled` | peer/groups.go:780-804 | who can open a post never changes after it was made |
| `Honesty.SeatSendsHonestly` | peer/groups.go:449-552 | what a peer sends is, up to the names of the seeds, what the ratchet runs assume: one chain per epoch, each position at its depth, the same keys opening the same posts |
| `Secrecy.LeaksIffUnconverged` | peer/groups.go:1664-1714 | once a roster without a key holder is stored, that holder can read a later post if and only if the new chain or the marker was not written |
| `Secrecy.OwnerLeaksIffNotReissued` | peer/groups.go:1528-1537 | for the owner's republish: a dropped key holder reads the notice that follows if and only if the new chain was not written |
| `Secrecy.DroppedGetsNoKey` | peer/groups.go:449-483 | while x is on no roster I hold, no chain of mine is sent to x |
| `Secrecy.RekeyNamesMembers` | peer/groups.go:527-567 | after a rekey receive states and distribution record name only members, and the epoch is higher |
| `Secrecy.DerivesForward` | a2a/group.go:269-279 | a chain key gives away only later keys of its own chain |
| `ChainUse.PositionOnlyGrows` | peer/groups.go:484-552 | under every interleaving of locked sections the stored (epoch, index) of my chain only grows |
| `ChainUse.DeliveredOnce` | peer/groups.go:780-804 | any two delivered envelopes carry different (epoch, index), crashes between storing and delivering included |
| `ChainUse.RecordIsEarned` | peer/groups.go:484-498 | under every interleaving each entry of the distribution record was made by a distribution that reached the member while the chain was at that epoch: one that finishes after a rekey does not pass the new chain off as sent |
| `ChainUse.SectionsOfASeat` | peer/groups.go:501-643 | the sections are those of the operations on a seat, cut at the lock |
| `Seats.NextSenderEpoch` | a2a/group.go:252-258 | above the current epoch, not below the clock, and no higher than needed |
| `Epochs.EpochAtMostTime` | a2a/group.go:241-258 | with bumps on distinct seconds every epoch is at most its creation time, from any stale copy on any device |
| `Epochs.RotationOutranks` | a2a/group.go:241-258 | so each rotation is above every epoch used before on any device |
| `Epochs.OutranksIff` | a2a/group.go:252-258 | a rotation outranks an earlier epoch if and only if the clock has passed it or its copy is as new |
| `Epochs.SameSecondCollides` | a2a/group.go:252-258 | two bumps in one second let a later rotation repeat an epoch |
| `Conversations.ConvStore.Seen` | a2a/store.go:234-246 | answers from the set, built on first use by a scan |
| `Conversations.ConvStore.AppendSeq` | a2a/store.go:74-119 | the line is appended, line count and seen set follow |
| `Conversations.ConvStore.Update` | a2a/store.go:130-181 | only the newest line with the id is rewritten, if the edit changes it, and its number is returned |
| `Conversations.ConvStore.Since` | a2a/store.go:203-230 | the entries after a line number, the last of them if limited |
| `Conversations.EntriesAfterExact` | a2a/store.go:203-230 | exactly the parsed lines above the number, once each, with their numbers, in order |
| `Conversations.LoadSeenSet` | a2a/store.go:249-265 | exactly the ids in the file |
| `Conversations.LookUpAgrees` | a2a/store.go:234-265 | with the seen set in agreement, an id is seen if and only if it is in the file |
| `Conversations.AppendCountsIff` | a2a/store.go:74-119 | the returned number is the line the entry is on, and stays right, if and only if the lines were counted or could be |
| `Conversations.WrongCountStays` | a2a/store.go:93-113 | a wrong count stays wrong |
| `Conversations.RewriteAgrees` | a2a/store.go:121-181 | an update changes no line number and no id, so the caches stay as right as they were |
| `Conversations.RewriteHits` | a2a/store.go:130-181 | the newest line carrying the id becomes what the edit makes of it, and no other line of any conversation changes |
| `Conversations.RewriteMisses` | a2a/store.go:130-181 | without such a line nothing changes |
| `Conversations.LimitKeepsLast` | a2a/store.go:203-230 | a limit keeps the last entries, and all if there are no more |
| `Mailbox.NamesSortByDelivery` | relay/relay.go:147-167 | sorting the file names as text sorts by time and then counter |
| `Mailbox.NewNameIsNewest` | relay/relay.go:147-184 | a delivery never overwrites a letter and sorts after all before it |
| `Mailbox.ReopenKeepsNames` | relay/relay.go:163-167 | that survives a restart that resets the counter |
| `Mailbox.Inbox.Deliver` | relay/relay.go:170-184 | one more letter under the next name |
| `Mailbox.Inbox.ReadInbox` | relay/relay.go:402-431 | every letter once, in the order of the names |
| `Mailbox.Inbox.AckMail` | relay/relay.go:434-468 | exactly the named letters are removed, and the answer counts them |
| `Mailbox.DeliveredIsThere` | relay/relay.go:170-184 | a delivered letter is there under its name and the others stay |
| `Mailbox.AckedAreGone` | relay/relay.go:434-468 | the named letters are gone and the others stay as they were |
| `Receiving.Receiver.ArchiveIncoming` | peer/recv.go:358-384 | seen, archived or transient |
| `Receiving.Receiver.HandleEnvelope` | peer/recv.go:276-312 | the pairwise branches with their permanent and transient outcomes |
| `Receiving.Receiver.HandleBatch` | peer/recv.go:116-146 | a round handles all in order and acknowledges exactly what is not transient |
| `Receiving.RoundSettles` | peer/recv.go:116-146 | the names acknowledged are in batch order; every due text among them is in its conversation; every letter left out had a transient outcome and its text is not newly archived |
| `Receiving.RoundIsTurns` | peer/recv.go:116-146 | a round is exactly as many handling turns of a run, in archive and acknowledgements |
| `Receiving.TextIsArchived` | peer/recv.go:358-384 | a friend's new text is appended with its words and id as the newest line, and with a failing write the letter stays |
| `Receiving.RecallWipes` | peer/recall.go:156-195 | a recall empties the newest incoming line of that id, once, and nothing else |
| `Receiving.ArchivedExactlyOnce` | peer/recv.go:82-166 | in every run in which ids that had to be scanned could be, a friend's text is in the inbox or in the conversation, no incoming id is there twice, and the seen set agrees with the file |
| `Receiving.DuplicatesIffUnscanned` | a2a/store.go:249-255 | a redelivered letter is archived twice if and only if the ids had to be scanned and could not be |
| `Receiving.LinesRightIffCounted` | a2a/store.go:93-113 | since the last restart the line counters are right if and only if no append had to count a file it could not read |
| `Frames.WriteItems` | a2a/rendezvous_binary.go:75-91 | the frames of all items back to back, or an error exactly when a blob is too large |
| `Frames.BinarySize` | a2a/rendezvous_binary.go:66-72 | a header and the data of each item |
| `Frames.AnnouncedIsWritten` | a2a/rendezvous_binary.go:66-91 | the announced length is the length written |
| `Frames.ReadItems` | a2a/rendezvous_binary.go:98-125 | the read loop decodes frame by frame to the end of the stream |
| `Frames.WrittenReadsBack` | a2a/rendezvous_binary.go:66-125 | items with increasing positive numbers within the cap read back unchanged |
| `Frames.AcceptedIsWritten` | a2a/rendezvous_binary.go:98-125 | any accepted stream is exactly the writing of the items read from it |
| `Rendezvous.LANRendezvous.PutBlob` | peer/lanrendezvous.go:346-390 | all refusals in order, the sweep, the caps, the stored blob |
| `Rendezvous.LANRendezvous.ReadLocked` | peer/lanrendezvous.go:394-413 | sweep, touch and the blobs above a number |
| `Rendezvous.LANRendezvous.GetBlobs` | peer/lanrendezvous.go:420-457 | the wait loop with everything that may end a wait |
| `Rendezvous.LANRendezvous.SweepLocked` | peer/lanrendezvous.go:308-314 | exactly the idle rendezvous are dropped and the total is reduced by their sizes |
| `Rendezvous.LANRendezvous.DeleteBlobs` | peer/lanrendezvous.go:460-471 | the rendezvous goes and the total with it |
| `Rendezvous.LANRendezvous.CloseAll` | peer/lanrendezvous.go:282-299 | everything is forgotten |
| `Rendezvous.AlwaysOk` | peer/lanrendezvous.go:307-390 | in every reachable state total is the sum of sizes, each size the sum of its blobs, all caps hold and numbers are positive |
| `Rendezvous.ItemsAfterExact` | peer/lanrendezvous.go:394-413 | a read returns exactly the stored blobs above `since`, strictly increasing |
| `Rendezvous.GetIsCurrent` | peer/lanrendezvous.go:415-457 | a reader, however long it waits and whatever happens meanwhile, gets exactly what is stored above `since` when it returns |
| `Rendezvous.GetTravels` | a2a/rendezvous_binary.go:66-125 | whatever Get returns in a reachable state, interleaved operations included, is what is stored, is written without error in the announced length, and reads back unchanged |
| `RendezvousLaws.SweepDropsIdle` | peer/lanrendezvous.go:308-314 | after a sweep exactly those rendezvous are left that were used within the idle time, unchanged |
| `RendezvousLaws.AlwaysTimed` | peer/lanrendezvous.go:346-413 | over every run the time kept with a rendezvous is that of its last put or read |
| `RendezvousLaws.PutIsReturned` | peer/lanrendezvous.go:346-457 | over every run a blob put with success is returned by every Get from below its number, while no operation comes later than the idle time after the last use and nobody deletes or closes |
| `RendezvousLaws.StaysPut` | peer/lanrendezvous.go:307-413 | until then it stays stored, whatever else happens |
| `RendezvousLaws.WaitIsWoken` | peer/lanrendezvous.go:420-457 | a waiting reader is woken by the blob it waits for and gets it |
| `RendezvousLaws.WaitEnds` | peer/lanrendezvous.go:438-456 | a reader that finds nothing ends empty when its time is up and without an answer when it goes away |
| `RendezvousLaws.OnlyTheGoneGetNothing` | peer/lanrendezvous.go:420-457 | only a reader that went away is left without an answer, and only a service that refuses the id refuses the reader |
| `RendezvousLaws.EmptyOnlyWhenOver` | peer/lanrendezvous.go:420-457 | a waiting reader ends empty only when its time is over or the rendezvous it had seen is gone |
| `RendezvousLaws.AbandonedGoes` | peer/lanrendezvous.go:307-314 | over every run a rendezvous idle for too long goes with the first operation that sweeps |
| `RendezvousLaws.PutAnswers` | peer/lanrendezvous.go:346-390 | a put succeeds if and only if the id is served, number and size are in range, the number is free, and both caps hold for what is in use; which condition gives each other status |
| `WebSocket.Conn.WriteFrame` | ws/ws.go:236-276 | the shortest length form, masked by a client, nothing after close |
| `WebSocket.Conn.NextFrame` | ws/ws.go:180-225 | one frame off the stream, or short, or too big |
| `WebSocket.Conn.ReadAll` | ws/ws.go:151-178 | pings answered, pongs skipped, close answered, data gathered until the final frame |
| `WebSocket.Mask` | ws/ws.go:219-223 | each byte combined with the key byte of its position |
| `WebSocket.MaskedTwice` | ws/ws.go:219-223 | masking twice gives the payload back |
| `WebSocket.FrameRoundTrip` | ws/ws.go:180-276 | reading undoes writing for every payload up to the cap, masked or not, and leaves the rest of the stream |
| `WebSocket.ReadsBackIffWithinCap` | ws/ws.go:206-208 | a written frame reads back if and only if its payload is within the cap |
| `WebSocket.ReadsMessage` | ws/ws.go:151-178 | any fragmented message with pings and pongs between gives the first opcode and the joined payload, answers the pings in order and stops at the next frame |
| `WebSocket.WriteAppends` | ws/ws.go:236-276 | a write appends exactly one final frame with the opcode and payload, masked with a fresh key if and only if the writer is a client, and nothing after a close |
| `WebSocket.SentIsReceived` | ws/ws.go:151-276 | a text or binary message written on one side is what the other side reads, with nothing left over of it |
| `WebSocket.CloseIsAnswered` | ws/ws.go:165-167 | a close frame ends the read and is answered once |
| `Rlp.RlpEncode` | payment/internal/cdp/rlp.go:145-167 | the recursive encoder with its list loop computes the encoding |
| `Rlp.RlpEncodeUint` | payment/internal/cdp/rlp.go:169-174 | integers through the int64 cast |
| `Rlp.RlpEncodeBytes` | payment/internal/cdp/rlp.go:176-181 | single small bytes stand for themselves |
| `Rlp.AppendLengthPrefix` | payment/internal/cdp/rlp.go:185-194 | short and long prefixes |
| `Rlp.RoundTrip` | payment/internal/cdp/rlp.go:144-198 | a specification decoder undoes the encoding of arbitrarily nested values, whatever follows |
| `Rlp.PrefixFree` | payment/internal/cdp/rlp.go:144-198 | no encoding is a prefix of another: equal streams have equal first values and equal rests |
| `Rlp.OnlyEncodingsDecode` | payment/internal/cdp/rlp.go:183-198 | whatever decodes without needless long forms or leading zeros is the encoding of what it decodes to: every prefix is minimal |
| `Rlp.UintEncoding` | payment/internal/cdp/rlp.go:169-174 | big-endian without leading zeros, and right if and only if n <= 2^63; above it is 2^64 - n |
| `Rlp.BigEncoding` | payment/internal/cdp/rlp.go:149-153 | a big integer is its magnitude without leading zeros: two share an encoding if and only if they agree up to sign |

## Left out

- Cryptography, HTTP handlers and status texts, clients, request signatures and rate limits: plumbing or ideal here; a rate limit is a parameter.
- The byte-level JSON of the index log and the archive, lines over the scanner limits and a file that lost only its final newline: records are modelled.
- `MigrateVaultBlobs`, the file system below relay/vaultstore.go, and changes of quota or keep-versions during a run.
- A relay that loses or truncates a stored roster: it ends agreement the way an unpublish does and is the step LoseFile of the model.
- Two devices of one identity receiving from the same mailbox at once, and host-registered handlers that take over message types.
- Exactly-once for group posts: the ratchet is stored before the post is archived, so a crash between loses the post.
- Group attachments, voices, pins, card announcements, invite intents, join applications and directory search: bookkeeping beside the roster and the keys.
- The retry budget of transient group letters, timers of the long poll, and presence: time-driven. A poll reads the inbox at once.
- Chunk reassembly: a staged part is a parameter with its verdict; its dedupe line is modelled.
- 64-bit overflow of epochs, indexes, versions and counters: integers are unbounded except for the int64 and uint64 casts of frames and RLP.
- VaultBox.Mailbox.Collect: does not remove stale upload temporaries; they are below the blob store's interface.
- Rosters.Validate: the switches, prices, tags and texts of a profile are one flag; only what refers to members is checked out.
- GroupNode.Node.RepublishRoster: the invites to added members and the notices to dropped ones are not recorded as messages; Agreement lets a roster reach anybody at any time instead.
- Readers.ReadersAreTheReached: a key message queued for later delivery counts as reached, as it does in the code.
- Seats.FanOut: a chain removed between its two sections by a concurrent deletion is not modelled; operations on a seat run one at a time, and ChainUse covers interleaved sections while the group stays on disk.
- Agreement.HoldersAgree: compares rosters of one honest owner key; a group with the same id signed by another key is a different group.
- Secrecy.OnlyTheAudienceReads: the owner's drop takes effect when the owner stores the published roster; if that local write fails, the owner still posts under the roster it holds.
- WebSocket handshake, read deadlines and write errors.
