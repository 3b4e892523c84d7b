# Verified model of a Raft-based sharded key/value system

A Dafny model of four components, with the properties they are built for:

- **Raft** (`src/raft`). Every mutex-held region of `raft.go` that changes the protocol state is a method of the
  class `RaftServer.Raft`, with the source's loops, proved equal to a pure function of `RaftSteps`. `RaftCluster`
  joins any number of servers with a network; `RaftInvariant` and `RaftPreservation` hold the inductive invariant;
  `RaftEffects` says what each handler does in a run, in terms of whole logs, voters, requests and replies;
  `RaftTheorems`, `RaftSafety`, `RaftChecked` and `RaftRanges` state what holds over whole runs; `RaftCounterexample` holds runs
  that show what does not.
- **The shardmaster** (`src/shardmaster`). `ShardRebalance` is the allocator on the array it rewrites;
  `ShardSpec` says which assignment it leaves and why that is exact, even and minimal; `ShardMaster` and
  `ShardHistory` are the replicated configuration history.
- **The key/value service** (`src/kvraft`). `KvSpec` is the state machine as a fold over the log, `KvServer` the
  server object, `KvWaiters` the handlers that wait for their operation. `ReplicatedKv` puts the service on top of
  the Raft cluster, snapshots and crashes included, and `ReplicatedRequests` the handlers on top of that: what an OK
  tells a client about the committed log.
- **MapReduce** (`src/mapreduce`). `MapReduceSpec` and `MapReduceTasks` take the map, reduce and merge loops from
  inputs to merged output; `MapReduceSchedule` is the scheduler as a token protocol; `MapReduceDistributed` joins the
  two, with workers that fail half-way.

`Deduplication` is the table of client ids that the key/value service and the shardmaster share, `Collections` a few
facts that all need. `dafny verify dfyconfig.toml` checks everything.

## How the model reads the source

**Steps.** Each mutex-held region is one atomic step. Requests may be lost, delayed, reordered and duplicated.
A vote call returns at most one reply (`src/labrpc/labrpc.go:95-107`), which is what makes the bare counter
`votesReceived` sound; replies to appends and snapshots may be handled any number of times. Election timeouts may
happen whenever a server is not leader. A server may crash and restart between any two regions.

**Broadcasts.** `Start` and the leader block of `ticker` build one request per peer. The class does this in one
loop (`Broadcast`), and starts `handleSendInstallSnapshot` (`SnapshotRequest`) for a peer behind the snapshot, which
looks at the role and the snapshot point again. In the cluster each request is a step of its own, possible whenever
the server leads. `ticker` reads `serverState` at lines 732-734, releases the lock and builds the requests from line
737 on without looking again. That a server that lost its leadership in between sends nothing is an assumption of
this model, and the code needs it: `RaftCounterexample.StaleBroadcast` is a run in which a heartbeat is handled in
that gap, after which the broadcast indexes outside the log for one peer and builds a request for another in a term
that a third server leads. Looking at the role again at line 737 restores `LeaderIndexSafety` and `RequestOrigin`.

**History.** Beside the real state a cluster carries history that no step reads: for every server its *virtual
log*, in which the entries a snapshot replaced are restored; for every term its leader, the log it was elected
with and its voters; for every vote the voter's log; for every acknowledgement its length.

**Panics.** Where a slice or index expression of the source would panic, the step is not enabled and the method
has a precondition. `RaftTheorems.LeaderIndexSafety` shows that a leader never gets there. For
`BackgroundApplyRoutine` and `Snapshot` it is false of the code: `RaftCounterexample.SnapshotOverruns` is a run in
which a late snapshot empties the log of a server that has already applied beyond it, after which a request to
compact there slices beyond the end. `RaftRanges` has the exact conditions, step by step and over whole runs of any
kind. All indices stay inside the logs if and only if every installed snapshot reaches the receiver's `commitIndex`;
no request could make `Snapshot` panic if and only if every installed snapshot reaches the receiver's `lastApplied`;
and for each of the two expressions there is the exact condition on a state under which it is out of range.

**What is true only with a hypothesis.** State Machine Safety is false of this code:
`RaftCounterexample.StateMachineSafetyFails` constructs a run of three servers, without crash or snapshot, that applies
two different commands at index 1. AppendEntries drops everything behind `PrevLogIndex` even when nothing
conflicts, so one late heartbeat erases acknowledged entries. `RaftSafety` proves Leader Completeness and State
Machine Safety for *orderly* runs: an accepted append ends no earlier than what its follower already acknowledged
in that term, and an installed snapshot covers whatever its receiver shares with the log of the sender. For single
requests both conditions are exact. A follower keeps everything it acknowledged to the sender of an append if and only
if the append is orderly (`OrderlyAppendExactly`); it keeps everything it shares with the sender of a snapshot if and
only if the snapshot is orderly (`OrderlyInstallExactly`). A snapshot that passes the check of section 7 of the paper,
which the code leaves out, always is (`CheckedInstallIsOrderly`), and so is an append that passes the check of Figure 2,
which the code leaves out as well (`RaftChecked.CheckedAppendIsOrderly`). Both are tests of the receiver's own log
against the request. So `RaftChecked` has State Machine Safety and Leader Completeness for every run of servers that
make these two checks, whatever the network does. A run is orderly if and only if no follower ever loses what it
promised (`OrderlyRunExactly`); for State Machine Safety of a whole run that is sufficient, since a run that breaks a
promise can be lucky.
Election Safety, Log Matching, Leader Append-Only, durability, index safety, back-up progress and the commit rule
need no such hypothesis.

**Where code and documentation differ** the model follows the code:

- AppendEntries truncates without a conflict (lines 415-422); Figure 2 of the extended Raft paper deletes entries
  only on a conflict.
- InstallSnapshot discards the whole log (line 167); section 7 of the paper keeps what follows the snapshot.
- The back-up scan of the leader (lines 343-349) uses offsets as if they were indices, without
  `lastIncludedIndex`, and never looks at offset 0, although its comment says it finds the last index with that
  term. Progress holds all the same.
- `XIndex` is the start of the conflicting term among the retained entries only (lines 402-408).
- A rejected append carries the follower's term from before it adopted a newer one (line 361).
- The comment on `waitAppliedOrTimeout` says that ApplyRoutine closes the channel; it sends on it.

**Numbers and names.** Terms, indices and counts are `nat`, ids are `int`; 64-bit overflow is not modelled.
`NShards` is any number. Strings are ordered by their characters. `mapF`, `reduceF` and the hash are arbitrary
functions; the sorts are used only through their contracts, and maps may be iterated in any order.

## Model

| member | source | states |
|---|---|---|
| RaftServer.Raft.constructor | src/raft/raft.go:829-856 | a server made with an empty or a filled persister starts as a follower with exactly the persisted term, vote, log and snapshot point, and applies from the snapshot point on |
| RaftServer.Raft.Persist | src/raft/raft.go:202-212 | the five persistent fields, and nothing else, reach the disk |
| RaftServer.Raft.RequestVote | src/raft/raft.go:443-475 | refines the pure vote handler in every branch: new state, disk and reply |
| RaftServer.Raft.BeginElection | src/raft/raft.go:666-680 | refines the pure start of a candidacy: term, self-vote, saved state and the request sent |
| RaftServer.Raft.InitLeaderIndex | src/raft/raft.go:637-647 | the loop sets every nextIndex just past the log, every matchIndex to 0 and the own one to the end of the log |
| RaftServer.Raft.HandleVoteReply | src/raft/raft.go:691-710 | refines the pure reply handler: ignored when stale, step down on a newer term, count, lead on a strict majority |
| RaftServer.Raft.Follow | src/raft/raft.go:369-374 | a newer term clears the vote and is saved before anything else; in every case the server follows |
| RaftServer.Raft.ConflictStart | src/raft/raft.go:401-408 | the backward scan finds the start of the run of equal terms among the retained entries |
| RaftServer.Raft.ReplaceTail | src/raft/raft.go:415-422 | both branches, with entries and as a heartbeat, leave the log up to PrevLogIndex and the entries sent |
| RaftServer.Raft.Splice | src/raft/raft.go:415-438 | everything after PrevLogIndex is replaced, with or without a conflict, and commitIndex and lastApplied are clamped to the new end |
| RaftServer.Raft.AppendEntries | src/raft/raft.go:357-440 | refines the pure append handler: every rejection with its hint, and the accepted case |
| RaftServer.Raft.CountAgreeing | src/raft/raft.go:299-304 | the loop counts the peers whose matchIndex reaches n |
| RaftServer.Raft.AdvanceCommitIndex | src/raft/raft.go:290-310 | the downward scan moves commitIndex to the commit point of the specification and touches nothing else |
| RaftServer.Raft.ProcessAppendEntriesReply | src/raft/raft.go:314-355 | refines the pure reply handler: stale, newer term, success with commit, and fast back-up |
| RaftServer.Raft.BackUpNext | src/raft/raft.go:338-354 | the scan moves nextIndex of this peer to what the fast back-up rule says, at least 1 |
| RaftServer.Raft.RequestFor | src/raft/raft.go:596-618 | for a peer behind the snapshot `handleSendInstallSnapshot` is started; any other is sent everything from its nextIndex on with the term before it |
| RaftServer.Raft.Broadcast | src/raft/raft.go:740-773 | one request for every other peer, each as RequestFor says |
| RaftServer.Raft.Start | src/raft/raft.go:579-635 | a leader appends, counts itself, saves and sends to all; anybody else changes nothing and returns -1 |
| RaftServer.Raft.SnapshotRequest | src/raft/raft.go:510-528 | a server that still leads builds the request from its snapshot point of that moment; any other sends nothing |
| RaftServer.Raft.InstallSnapshot | src/raft/raft.go:133-170 | refines the pure install handler, including the two early returns and the term in the reply |
| RaftServer.Raft.HandleInstallReply | src/raft/raft.go:537-564 | refines the pure reply handler: matchIndex and nextIndex only grow, then commit |
| RaftServer.Raft.Snapshot | src/raft/raft.go:242-268 | compaction keeps the suffix after index and remembers the term at the cut; an index already compacted, or not yet applied, wherever it points, changes nothing |
| RaftServer.Raft.ApplyNext | src/raft/raft.go:796-806 | hands over the entry at lastApplied + 1 and advances by one |
| RaftSteps.RunStart | src/raft/raft.go:401-408 | the result starts a maximal run of one term that ends at index, within the retained entries |
| RaftSteps.CommitPoint | src/raft/raft.go:291-309 | the result is the greatest committable index above commitIndex, or commitIndex if none is |
| RaftSteps.LastOffset | src/raft/raft.go:344-349 | the result is the last offset above 0 with the term, or 0 if there is none |
| RaftPreservation.InitOK | src/raft/raft.go:829-856 | a cluster of fresh servers satisfies the invariant |
| RaftPreservation.QuorumsMeet | src/raft/raft.go:706-706 | any two sets of voters larger than half intersect |
| RaftPreservation.FirstLeader | src/raft/raft.go:693-709 | a candidate with a majority behind it is the first leader of its term |
| RaftPreservation.SplicedIsFull | src/raft/raft.go:385-422 | after the consistency check has passed, compacted prefix plus spliced log is the whole log the sender had |
| RaftPreservation.AcceptedServerOK | src/raft/raft.go:415-440 | an accepted append keeps the follower's invariant and sets its virtual log to the sender's |
| RaftPreservation.BackUpBounded | src/raft/raft.go:338-354 | for any truthful hint the new nextIndex is at least 1 and at most max(1, PrevLogIndex) |
| RaftPreservation.HintIsOK | src/raft/raft.go:376-413 | every rejection a follower sends is truthful: too short, compacted, or a real conflict whose term and position history confirms |
| RaftPreservation.TimeoutKeepsInv | src/raft/raft.go:666-680 | starting a candidacy keeps the invariant |
| RaftPreservation.VoteKeepsInv | src/raft/raft.go:443-475 | answering a vote request keeps the invariant |
| RaftPreservation.VoteReplyKeepsInv | src/raft/raft.go:691-710 | counting a vote and becoming leader keep the invariant |
| RaftPreservation.AppendKeepsInv | src/raft/raft.go:357-440 | handling any append request, however late, keeps the invariant |
| RaftPreservation.AppendReplyKeepsInv | src/raft/raft.go:314-355 | handling any append reply, however late or often, keeps the invariant |
| RaftPreservation.StartKeepsInv | src/raft/raft.go:586-589 | appending a command keeps the invariant |
| RaftPreservation.InstallKeepsInv | src/raft/raft.go:133-170 | handling any snapshot keeps the invariant |
| RaftPreservation.InstallReplyKeepsInv | src/raft/raft.go:537-564 | handling any snapshot reply keeps the invariant |
| RaftPreservation.StepKeepsInv | src/raft/raft.go:133-868 | every step of any server keeps the invariant and only adds to history |
| RaftTheorems.RunInv | src/raft/raft.go:133-868 | the invariant holds in every state of every run |
| RaftTheorems.ElectionSafety | src/raft/raft.go:666-711 | at most one server ever leads a term, at any two moments of a run with crashes |
| RaftTheorems.VotesAreVoters | src/raft/raft.go:669-709 | votesReceived is the number of distinct voters, each with a durable vote for this candidate for as long as it stays in the term |
| RaftTheorems.LogMatching | src/raft/raft.go:385-422 | two virtual logs, at any two moments, that have the same term at an index agree on everything up to it |
| RaftTheorems.StoredLogsMatch | src/raft/raft.go:385-422 | the same on the entries that the servers really store, whatever each has compacted |
| RaftTheorems.LeaderAppendOnly | src/raft/raft.go:586-589 | a leader's log only grows during its term |
| RaftTheorems.RequestOrigin | src/raft/raft.go:601-618 | every append request in the network was built by its sender, leading, from its whole log of that moment |
| RaftTheorems.AcceptedAppendCopies | src/raft/raft.go:415-438 | an accepted append makes the follower's virtual log equal to the sender's whole log as it was when the request was built |
| RaftTheorems.EntryOrigin | src/raft/raft.go:586-586 | every entry of every leader's log was put there by a Start of its command, in any run |
| RaftTheorems.CommandOrigin | src/raft/raft.go:784-808 | every command a service is handed was given to Start before, in any run |
| RaftTheorems.LeaderIndexSafety | src/raft/raft.go:586-608 | for every leader in every reachable state nextIndex and matchIndex are within the log, so every slice of a broadcast is in range |
| RaftTheorems.FastBackUp | src/raft/raft.go:338-354 | every rejection a leader handles in its term brings nextIndex to 1 or strictly below the rejected request's |
| RaftTheorems.RestartForgetsNothing | src/raft/raft.go:202-236 | in every reachable state the disk equals the persistent fields, and a restart brings back exactly those |
| RaftTheorems.TermsAndVotesHold | src/raft/raft.go:443-475 | over any stretch of a run, crashes included, terms never decrease and a vote never changes within a term |
| RaftTheorems.StepKeepsWord | src/raft/raft.go:133-868 | no step lowers a term, changes a vote within a term, makes anybody but a candidate leader, or lowers a leader's commitIndex |
| RaftTheorems.AgreeingCounts | src/raft/raft.go:299-304 | the counting loop computes the size of a set of peers |
| RaftTheorems.AdvanceCommitMeans | src/raft/raft.go:287-310 | commitIndex moves to the greatest index above it that holds an entry of the leader's term and is stored on a strict majority, or stays |
| RaftTheorems.CommitRule | src/raft/raft.go:326-336 | the same for every acknowledgement, of an append or a snapshot, that a leader handles in any run |
| RaftTheorems.LeaderCommitsGrow | src/raft/raft.go:290-310 | over a whole leadership commitIndex never decreases |
| RaftEffects.BeginsEmpty | src/raft/raft.go:838-847 | every server begins as a follower in term 0 without vote, log or snapshot |
| RaftEffects.VotesExactly | src/raft/raft.go:447-474 | a vote is granted if and only if the term is not old, no other vote was cast in it and the candidate's last term and length are not behind the voter's whole log; the reply carries the newer of both terms, and nothing else changes |
| RaftEffects.TimeoutAsksAll | src/raft/raft.go:666-692 | a timeout begins the next term with a vote for itself and asks every other server with the length and last term of the whole log |
| RaftEffects.MajorityElects | src/raft/raft.go:704-710 | a counted vote makes the candidate leader if and only if a strict majority of the cluster has voted for it; every nextIndex is then just behind its whole log, and every matchIndex 0 but its own |
| RaftEffects.NewerTermStepsDown | src/raft/raft.go:318-325 | a reply of a newer term, to a vote (696-703), an append or a snapshot (543-550), makes its server a follower in that term without a vote and changes nothing else |
| RaftEffects.AppendSays | src/raft/raft.go:596-618 | the request for a peer starts right behind its nextIndex - 1, brings the term before it and the whole rest of the log, and carries the commit index |
| RaftEffects.SnapshotSays | src/raft/raft.go:515-528 | the snapshot request names the leader's snapshot point and the term of the whole log there |
| RaftEffects.AppendsExactly | src/raft/raft.go:361-440 | an append is accepted if and only if its term is not old and the follower holds or has just compacted an entry of that term at PrevLogIndex; an accepted one leaves the sender's log, commits as much of it as either knows to be committed and answers with the new term; a refused one changes no log and answers with the old term and a hint: the end of a short log, or the conflicting term and the start of its run among the retained entries |
| RaftEffects.ReplyOrigin | src/raft/raft.go:619-627 | every append reply in the network was built by the step that handled its request |
| RaftEffects.BacksUpExactly | src/raft/raft.go:338-354 | when a leader handles a rejection in its term, nextIndex of that peer becomes the end of the log the follower had if that was short; for a conflict the greatest offset but 0 with the conflicting term in the leader's entries plus one, or else the start of the follower's run; 1 without a hint; nothing else changes |
| RaftEffects.AckMoves | src/raft/raft.go:326-336 | an acknowledged append raises matchIndex of that peer to the length of the sent log and sets nextIndex behind it; otherwise only commitIndex moves |
| RaftEffects.InstallsExactly | src/raft/raft.go:136-170 | a snapshot is installed if and only if its term is not old and it reaches beyond the receiver's; it leaves an empty log at its point and raises commitIndex and lastApplied to it; any other request leaves log and indices alone |
| RaftEffects.SnapshotAckMoves | src/raft/raft.go:552-564 | an acknowledged snapshot raises matchIndex and nextIndex of that peer to it and behind it, so a leader that has not compacted further sends entries next |
| RaftEffects.CompactsExactly | src/raft/raft.go:246-264 | the log is compacted if and only if the index is beyond the snapshot and applied; what is behind it is kept, with the term at the cut, and the whole log stays what it was |
| RaftEffects.StartAppends | src/raft/raft.go:586-589 | Start puts the command at the end of the whole log in the leader's term and counts the leader as holding it |
| RaftEffects.AppliesNext | src/raft/raft.go:800-806 | the entry behind the last applied one of the whole log is handed over with its index |
| RaftEffects.RestartFollows | src/raft/raft.go:838-856 | a restarted server follows with what it had saved and applies from its snapshot on |
| RaftEffects.StaleRepliesIgnored | src/raft/raft.go:315-317 | a reply to a term or office its server has left, and one that brings nothing, changes nothing, for votes (693-695), appends and snapshots (540-554) |
| RaftSafety.LeaderCompleteness | src/raft/raft.go:462-472 | an entry acknowledged by a majority in its own term is in the log every later leader was elected with |
| RaftSafety.ChosenAgree | src/raft/raft.go:290-310 | any two chosen logs agree as far as the shorter goes |
| RaftSafety.StepKeepsSafe | src/raft/raft.go:133-868 | every orderly step keeps the safety invariant on commit indices, votes, requests in flight and applied commands |
| RaftSafety.OrderlySafe | src/raft/raft.go:133-868 | the safety invariant holds in every state of every orderly run |
| RaftSafety.StateMachineSafety | src/raft/raft.go:784-808 | over an orderly run no two servers are ever handed different commands for one index |
| RaftSafety.CommittedStays | src/raft/raft.go:290-310 | what a leader committed is in the log of every leader of the same or a later term, at every later moment of an orderly run |
| RaftSafety.OrderlyAppendExactly | src/raft/raft.go:415-422 | an accepted append is orderly if and only if the follower keeps everything it has acknowledged in that term |
| RaftSafety.OrderlyInstallExactly | src/raft/raft.go:152-170 | an installed snapshot is orderly if and only if the receiver keeps everything it shares with the sender's log, and if and only if they do not share the entry after it |
| RaftSafety.CheckedInstallIsOrderly | src/raft/raft.go:152-170 | a snapshot is orderly when it reaches the end of the receiver's log or the receiver has another term at its last index |
| RaftSafety.OrderlyRunExactly | src/raft/raft.go:415-422 | a run is orderly if and only if no follower ever loses what it acknowledged to the sender of an append, or shares with the sender of a snapshot (157-167) |
| RaftChecked.CheckedAppendIsOrderly | src/raft/raft.go:415-422 | an append is orderly when it cuts off no entry of the follower's log or some entry the follower holds differs from the one sent |
| RaftChecked.CheckedRunIsOrderly | src/raft/raft.go:133-868 | every run whose accepted appends and installed snapshots pass these checks of the receiver's own log is orderly |
| RaftChecked.CheckedStateMachineSafety | src/raft/raft.go:784-808 | State Machine Safety for every run of servers that make the two checks |
| RaftChecked.CheckedCommittedStays | src/raft/raft.go:290-310 | Leader Completeness for every run of servers that make the two checks |
| RaftRanges.StepInside | src/raft/raft.go:133-868 | of all steps this is the only one that can break the order of the indices |
| RaftRanges.InsideExactly | src/raft/raft.go:133-868 | from a state with all indices inside the logs a step leads to another one if and only if it installs no snapshot short of the receiver's commitIndex |
| RaftRanges.RunInsideExactly | src/raft/raft.go:133-868 | in any run all indices are inside the logs in all states if and only if every installed snapshot reaches the receiver's commitIndex |
| RaftRanges.NoPanics | src/raft/raft.go:242-264 | as long as installed snapshots reach the receiver's commitIndex, BackgroundApplyRoutine (784-808) and Snapshot only read entries that exist |
| RaftRanges.AppliesAllCommitted | src/raft/raft.go:787-799 | with all indices inside the log BackgroundApplyRoutine goes on if and only if something committed is unapplied |
| RaftRanges.ApplyPanicsExactly | src/raft/raft.go:787-803 | in a reachable state BackgroundApplyRoutine indexes outside the log if and only if lastIncludedIndex < lastLogIndex <= lastApplied < commitIndex |
| RaftRanges.SnapshotPanicsExactly | src/raft/raft.go:246-263 | some request makes Snapshot index outside the log if and only if lastApplied > lastLogIndex |
| RaftRanges.HeldExactly | src/raft/raft.go:133-868 | from a state where no lastApplied is beyond its log a step leads to another one if and only if it installs no snapshot short of the receiver's lastApplied |
| RaftRanges.RunSnapshotsExactly | src/raft/raft.go:242-264 | over any run no request could make Snapshot panic in any state if and only if every installed snapshot reaches the receiver's lastApplied |
| RaftRanges.OrderlyInstallsCover | src/raft/raft.go:157-167 | orderly runs are among these |
| RaftCounterexample.Erasure | src/raft/raft.go:419-422 | a delayed heartbeat of the current term empties a follower's log |
| RaftCounterexample.StateMachineSafetyFails | src/raft/raft.go:415-422 | for any two commands there is a run of three servers in which two of them apply these at index 1 |
| RaftCounterexample.SnapshotOverruns | src/raft/raft.go:246-263 | there is a run after which a server has applied index 2, no longer holds it, and would accept a Snapshot at 2 |
| RaftCounterexample.StaleBroadcast | src/raft/raft.go:732-755 | there is a run in which a server leads, handles one heartbeat, and its broadcast then indexes outside its log and uses a term another server leads |
| ReplicatedKv.CommittedAgree | src/raft/raft.go:424-431 | any two committed logs agree as far as the shorter goes |
| ReplicatedKv.AppliedReflects | src/kvraft/server.go:112-125 | applying Raft's next entry, new or repeated, leads from the fold over a committed log to the fold over a committed log |
| ReplicatedKv.InstalledReflects | src/kvraft/server.go:103-108 | so does installing any snapshot, whichever of the two is ahead |
| ReplicatedKv.StepKeepsServiceInv | src/kvraft/server.go:80-125 | every step of the cluster with its services keeps stores, saved images and snapshots in flight folds over committed logs |
| ReplicatedKv.ServiceRunInv | src/kvraft/server.go:80-125 | the same in every state of every orderly run |
| ReplicatedKv.OneLog | src/kvraft/server.go:92-125 | at any two moments the stores of any two servers are folds over two prefixes of one committed log, each at least as long as what its Raft peer applied |
| ReplicatedKv.ReplicasAgree | src/kvraft/server.go:92-125 | two servers, at whatever moments, whose last effective write has the same index hold the same store and table of client ids |
| ReplicatedKv.ReplicasApplyOnce | src/kvraft/server.go:116-125 | with client ids in order, every server's store is the plain Put/Append fold over a committed log without repeated writes |
| ReplicatedKv.ServicesExist | src/kvraft/server.go:80-125 | every run of the cluster has services that follow it, so none of the above is vacuous |
| ReplicatedRequests.MoveKeepsInv | src/kvraft/server.go:112-175 | every move of cluster, services and handlers keeps every processed operation at its place in a committed log |
| ReplicatedRequests.SystemRunInv | src/kvraft/server.go:112-175 | the same in every state of every orderly run of the whole system |
| ReplicatedRequests.OkIsSettled | src/kvraft/server.go:187-219 | an OK means that the operation stands in a committed log at the index Start returned, and that a GET was answered from a prefix of that log reaching at least up to it, with the empty string for a missing key |
| ReplicatedRequests.BegunAtItsPlace | src/kvraft/server.go:151-153 | the index a handler goes on with is the place of its command in the log of its leader |
| ReplicatedRequests.WritesStay | src/kvraft/server.go:206-219 | every store whose Raft peer has applied the index of an acknowledged write is, at every later moment, the fold over a committed log with the write at that index; with client ids in order it is the plain Put/Append fold over writes executed once, this one among them |
| ReplicatedRequests.ReadsSeeWrites | src/kvraft/server.go:187-219 | a GET answered after a write was acknowledged is answered from a prefix of a committed log that has the write in it, unless the GET itself was already committed then, as an earlier attempt |
| ReplicatedRequests.HandlerOfEntry | src/kvraft/server.go:151-153 | every entry of a log was put there by a handler that called Start with its command |
| ReplicatedRequests.LaterReadsSeeWrites | src/kvraft/server.go:187-219 | a GET whose first attempt begins after a write was acknowledged is answered from a prefix of a committed log with the write in it; with client ids in order, from the store in which the write is executed once |
| Deduplication.EffectiveExactly | src/kvraft/server.go:119-124 | with no hypothesis, the writes that get past the table of ids are exactly each client's strict running maxima |
| Deduplication.ExactlyOnceIffInOrder | src/kvraft/server.go:119-124 | exactly the first uses of each id take effect if and only if every client's ids first appear in increasing order |
| KvSpec.EffectiveExactly | src/kvraft/server.go:116-125 | with no hypothesis, the writes that take effect are exactly each client's strict running maxima |
| KvSpec.LastAppliedIsGreatest | src/kvraft/server.go:119-124 | lastApplied holds the greatest id of each client's writes so far, and no other client |
| KvSpec.RepeatChangesNothing | src/kvraft/server.go:119-124 | an entry delivered again changes nothing |
| KvSpec.IndexIsLastEffective | src/kvraft/server.go:119-124 | lastIncludedIndex is the index of the last write that took effect, or 0 |
| KvSpec.IndexTellsApart | src/kvraft/server.go:103-108 | lastIncludedIndex never goes back along a log, and while it stays the same so does the whole state |
| KvSpec.SnapshotIsJoin | src/kvraft/server.go:103-108 | installing a snapshot after k entries on a server after m gives the state after max(k, m) |
| KvSpec.ServerIsFold | src/kvraft/server.go:92-125 | after any deliveries of entries and snapshots that never skip ahead the state is the fold over the longest prefix seen |
| KvSpec.ExactlyOnce | src/kvraft/server.go:63-69 | the store is then the plain Put/Append fold over the log without its repeated writes |
| KvSpec.WriteDoes | src/kvraft/server.go:63-69 | Put replaces the value of its key, Append puts its value behind it, any other kind and any other key are left alone |
| KvSpec.StoreHolds | src/kvraft/server.go:63-69 | over any list of writes a key holds the value of its last Put, or nothing, followed by the values of all later Appends in log order |
| KvSpec.StoreHasKey | src/kvraft/server.go:63-69 | a key is in the store if and only if it was ever put or appended to |
| KvSpec.OnceHasAll | src/kvraft/server.go:119-124 | every write of the log is among those executed once, under the first use of its id; as itself if no id is used for two writes |
| KvSpec.LateWriteLost | src/kvraft/server.go:119-124 | without that order a write committed after a later one of its client is lost |
| KvServer.RaftKV.constructor | src/kvraft/server.go:248-256 | a new server holds the empty state |
| KvServer.RaftKV.HandlePutAppend | src/kvraft/server.go:63-69 | Put overwrites, Append extends what was there or the empty string, any other type changes nothing |
| KvServer.RaftKV.HandleGet | src/kvraft/server.go:71-76 | the operation comes back with the stored value, or unchanged when there is none |
| KvServer.RaftKV.Process | src/kvraft/server.go:112-125 | one entry moves store, client table and index exactly as the specification does, and answers from the state before |
| KvServer.RaftKV.ApplyRoutine | src/kvraft/server.go:92-138 | the loop over any messages leaves the specified state and sends one notice per command, in order |
| KvServer.RunIsFold | src/kvraft/server.go:92-125 | a server started empty and fed such messages holds the fold over the longest prefix seen |
| KvServer.NoticeReadsFold | src/kvraft/server.go:116-138 | the notice for an entry is answered from the fold over the longest prefix seen before it |
| KvServer.LastNotice | src/kvraft/server.go:126-138 | each command adds one notice, with its index and its answer from the state before |
| KvServer.NoNotice | src/kvraft/server.go:83-111 | a snapshot, decoded or not, adds none |
| KvWaiters.EventKeepsInv | src/kvraft/server.go:112-175 | every interleaving of start, register, apply, notify, receive, timeout and clean-up keeps channels and handlers truthful |
| KvWaiters.RunInv | src/kvraft/server.go:112-175 | so they are truthful in every state of every run |
| KvWaiters.OkMeansProcessed | src/kvraft/server.go:151-219 | a handler reports OK only if this server processed an operation with its type, key, id and client at the index Start returned; the client table then holds a write's id or a greater one, and a GET carries the store's value of that step, the empty string for a missing key |
| KvWaiters.RecordsAreSteps | src/kvraft/server.go:112-138 | whatever is on record as processed was processed by a step of the run |
| KvWaiters.RegisteredIsNotified | src/kvraft/server.go:159-162 | a handler that registers is the one notified for its index |
| KvWaiters.WaiterIsServed | src/kvraft/server.go:126-170 | when an operation is processed at the index a registered handler waits for, the handler is sent it with its result, and reports OK if and only if type, key, client and id are its own |
| KvWaiters.ReportsExactly | src/kvraft/server.go:144-175 | a handler that gave up reports no OK, one that received an operation reports OK if and only if it has its own four fields; its index is free again |
| KvWaiters.NotifyDrops | src/kvraft/server.go:133-138 | an answer not yet taken is not overwritten |
| ShardRebalance.SortedGids | src/shardmaster/server.go:72-76 | whatever the iteration order of the map, the result is its keys in increasing order |
| ShardRebalance.CountOwned | src/shardmaster/server.go:87-99 | every live group's count is the number of shards it owns, and the pool holds exactly the others, each once |
| ShardRebalance.DonateOne | src/shardmaster/server.go:103-110 | the search for a donor's shard always succeeds, and frees its last one |
| ShardRebalance.DonateExcess | src/shardmaster/server.go:102-111 | the loop ends with the group at the smaller of what it owned and its target |
| ShardRebalance.Donate | src/shardmaster/server.go:101-112 | afterwards every group shows exactly its first shards up to its target, and the pool holds the rest |
| ShardRebalance.Receivers | src/shardmaster/server.go:114-120 | every group is listed as often as it is short, in order |
| ShardRebalance.Assign | src/shardmaster/server.go:122-125 | need is never indexed out of range, and the result is the specified assignment |
| ShardRebalance.Rebalance | src/shardmaster/server.go:64-128 | the array ends as a function of the old assignment and the set of groups alone, for any number of shards |
| ShardSpec.SharesAddUp | src/shardmaster/server.go:77-85 | the targets add up to the number of shards |
| ShardSpec.FreedMatchesNeeded | src/shardmaster/server.go:91-125 | there are exactly as many pooled shards as receivers |
| ShardSpec.ExactShares | src/shardmaster/server.go:80-125 | the group with the i-th smallest id ends with exactly target(i) shards |
| ShardSpec.EveryShardLive | src/shardmaster/server.go:92-125 | every shard ends with a live group |
| ShardSpec.SharesEven | src/shardmaster/test_test.go:35-52 | shares differ by at most one |
| ShardSpec.MovesExactly | src/shardmaster/server.go:92-112 | a shard moves if and only if its owner is gone or it lies beyond its owner's target |
| ShardSpec.MovesForAReason | src/shardmaster/server.go:100-125 | a shard with a live owner moves only if that owner was above its target, and only to a group below its own |
| ShardSpec.MovesLeast | src/shardmaster/server.go:86-125 | no assignment to live groups with the same shares moves fewer shards |
| ShardSpec.HighestMoveFirst | src/shardmaster/server.go:100-112 | among the shards of one group the low ones stay |
| ShardSpec.ReceiversInOrder | src/shardmaster/server.go:113-125 | the shards that move go to their new groups in order of shard and group id |
| ShardSpec.TargetShrinks | src/shardmaster/server.go:77-85 | targets never grow with the number of groups or the rank |
| ShardSpec.QuotaShrinks | src/shardmaster/server.go:77-85 | adding groups never raises the share of one that was there |
| ShardSpec.JoinGivesOnlyToNew | src/shardmaster/test_test.go:215-228 | from a balanced assignment a Join gives shards only to new groups |
| ShardSpec.LeaveTakesOnlyFromGone | src/shardmaster/test_test.go:234-246 | from a balanced assignment a Leave takes shards only from groups that left |
| ShardMaster.CopyGroups | src/shardmaster/server.go:45-57 | the copy loop yields the same groups in whatever order it runs |
| ShardMaster.ShardMaster.constructor | src/shardmaster/server.go:384-390 | the history starts with configuration 0: no groups, every shard unassigned |
| ShardMaster.ShardMaster.IsDuplicateOp | src/shardmaster/server.go:176-186 | a duplicate is an id not above the client's last; otherwise the id is recorded |
| ShardMaster.ShardMaster.HandleJoin | src/shardmaster/server.go:131-142 | the latest groups, overwritten by those that join |
| ShardMaster.ShardMaster.HandleLeave | src/shardmaster/server.go:145-153 | the latest groups without those that leave |
| ShardMaster.ShardMaster.NewBalanced | src/shardmaster/server.go:210-219 | the next configuration has the next number, the given groups and the rebalanced shards |
| ShardMaster.ShardMaster.Apply | src/shardmaster/server.go:188-240 | one committed operation changes history and client table exactly as the specification does, and a Query is answered from the history |
| ShardHistory.EffectiveExactly | src/shardmaster/server.go:176-186 | the effective writes are exactly each client's strict running maxima |
| ShardHistory.ExactlyOnceIffInOrder | src/shardmaster/server.go:176-186 | no client's Join, Leave or Move is dropped if and only if its ids first appear in increasing order |
| ShardHistory.HistoryNext | src/shardmaster/server.go:198-226 | an effective entry adds the successor of the latest configuration; any other leaves the whole state alone |
| ShardHistory.HistoryLength | src/shardmaster/server.go:210-223 | the history has one configuration per effective Join, Leave and Move, plus the first |
| ShardHistory.HistoryNumbered | src/shardmaster/server.go:210-223 | configuration i has number i |
| ShardHistory.HistoryAppendOnly | src/shardmaster/server.go:45-57 | old configurations never change |
| ShardHistory.AnswersStand | src/shardmaster/server.go:168-174 | a Query for a number that exists gets the configuration with that number, and the same one for ever |
| ShardHistory.LatestAnswered | src/shardmaster/server.go:168-174 | a Query for a number that does not exist gets the last configuration, whose number is the number of effective writes |
| ShardHistory.FirstConfig | src/shardmaster/server.go:384-385 | configuration 0 has no groups and all shards unassigned, for ever |
| ShardHistory.JoinMakes | src/shardmaster/server.go:131-142 | the groups after a Join are those that were there and those that joined, with the servers of the latter where both name a group |
| ShardHistory.LeaveMakes | src/shardmaster/server.go:145-153 | the groups after a Leave are those that were there and did not leave, with their servers |
| ShardHistory.MoveMakes | src/shardmaster/server.go:156-166 | a Move gives the shard to the group and leaves every other shard and all groups alone |
| ShardHistory.RepeatsAbsorbed | src/shardmaster/server.go:176-209 | removing a repeated write or a Query from the log changes nothing, wherever it stands |
| ShardHistory.RebalancedFully | src/shardmaster/server.go:210-219 | every Join and Leave leaves exact shares and live owners, whatever Moves went before |
| ShardHistory.HistoryBalanced | src/shardmaster/server.go:198-226 | while no Move takes effect every configuration of the history is balanced |
| ShardHistory.TransfersAreDirected | src/shardmaster/server.go:131-153 | from a balanced configuration a Join moves shards only to new groups and a Leave only shards whose group left |
| MapReduceTasks.CreateFiles | src/mapreduce/common_map.go:36-44 | the files of this task exist and are empty; those of other tasks are untouched |
| MapReduceTasks.DoMap | src/mapreduce/common_map.go:24-51 | file r holds exactly the emitted pairs whose key hashes to r, in order; files of other tasks are untouched |
| MapReduceTasks.Collect | src/mapreduce/common_reduce.go:24-42 | all pairs of this partition from every map task, where a missing file counts as empty |
| MapReduceTasks.CollectsExactly | src/mapreduce/common_reduce.go:24-42 | a reduce task finds exactly the pairs of the files that are there, whichever are missing |
| MapReduceTasks.DoReduce | src/mapreduce/common_reduce.go:22-68 | the output has exactly the collected keys in strictly increasing order, each with reduceF of all its values |
| MapReduceTasks.Load | src/mapreduce/master_splitmerge.go:16-34 | the map built from all outputs, later ones overwriting earlier |
| MapReduceSpec.LoadedLastWins | src/mapreduce/master_splitmerge.go:16-34 | whatever the outputs hold, the map has the value of the last pair of each key |
| MapReduceSpec.LessExactly | src/mapreduce/common_reduce.go:44-44 | the order of keys is lexicographic: a proper prefix first, and otherwise by the first character that differs |
| MapReduceTasks.Merge | src/mapreduce/master_splitmerge.go:35-48 | the merged output lists exactly the loaded entries in strictly increasing order of key |
| MapReduceTasks.MapPhase | src/mapreduce/master.go:67-70 | every map task has written exactly its partitions |
| MapReduceTasks.ReducePhase | src/mapreduce/master.go:71-74 | every output holds the reductions of exactly its partition of everything emitted |
| MapReduceTasks.Sequential | src/mapreduce/master.go:60-80 | the merged output has exactly the emitted keys in strictly increasing order, each with reduceF of all values emitted for it by any map task |
| MapReduceTasks.CollectedIsPart | src/mapreduce/common_reduce.go:24-42 | a reduce task collects exactly its partition of everything emitted |
| MapReduceSpec.PartValues | src/mapreduce/common_map.go:46-51 | a key's partition holds all its values and any other partition none |
| MapReduceSpec.PartKeys | src/mapreduce/common_map.go:46-51 | a partition holds a key if and only if it was emitted and hashes there |
| MapReduceSpec.LoadedReduces | src/mapreduce/master_splitmerge.go:16-34 | no key is overwritten by another partition while loading |
| MapReduceSpec.EndToEnd | src/mapreduce/master_splitmerge.go:14-51 | outputs that reduce their partitions merge into an output that reduces everything emitted |
| MapReduceSchedule.EventKeepsInv | src/mapreduce/schedule.go:31-56 | registering, taking a worker and any answer keep every token in one place and the WaitGroup equal to the unfinished tasks |
| MapReduceSchedule.RunInv | src/mapreduce/schedule.go:31-56 | the same in every state of every run, with any failures and interleavings |
| MapReduceSchedule.OneCallPerRegistration | src/mapreduce/schedule.go:38-49 | a worker has two calls outstanding only if it registered twice |
| MapReduceSchedule.ReturnsWhenAllDone | src/mapreduce/schedule.go:31-56 | schedule returns only after every task has had a successful call with its own arguments, and then all workers are free |
| MapReduceSchedule.NeverStuck | src/mapreduce/schedule.go:35-54 | while a task is unfinished and somebody has registered, a call is outstanding or a worker can be taken |
| MapReduceDistributed.EventKeepsInv | src/mapreduce/schedule.go:31-56 | calls, answers and every single file operation of every worker, late ones included, keep all files made of right pairs at right places |
| MapReduceDistributed.RunInv | src/mapreduce/schedule.go:31-56 | the same in every state of every run |
| MapReduceDistributed.FinishedIsWhole | src/mapreduce/common_map.go:36-51 | a file whose last creator has finished is whole, whatever overlapping attempts have written |
| MapReduceDistributed.ReturnedIsWhole | src/mapreduce/schedule.go:31-56 | when schedule returns all files are whole if every last creator has finished |
| MapReduceDistributed.TidyMakersDone | src/mapreduce/schedule.go:48-52 | when schedule returns every last creator has finished if workers stop when their calls fail |
| MapReduceDistributed.TidyIsWhole | src/mapreduce/schedule.go:48-52 | when schedule returns all files are whole if workers stop when their calls fail |
| MapReduceDistributed.WorkKeepsWholeExactly | src/mapreduce/common_map.go:36-51 | while all files are whole, an operation of a worker, late or not, leaves them whole if and only if it does not create again a file that should hold something |
| MapReduceDistributed.StayWholeExactly | src/mapreduce/common_map.go:36-51 | over any run, from a state in which all files are whole they stay whole if and only if no worker does that |
| MapReduceDistributed.TidyIsFinished | src/mapreduce/schedule.go:48-56 | a phase is over when schedule returns if workers stop when their calls fail |
| MapReduceDistributed.FinishedAllWhole | src/mapreduce/schedule.go:31-56 | when a phase is over, with overlapping attempts and late workers, its files are whole |
| MapReduceDistributed.MapPlanOK | src/mapreduce/common_map.go:36-51 | the operations of doMap write every pair at its place in its partition, and every place is written |
| MapReduceDistributed.ReducePlanOK | src/mapreduce/common_reduce.go:46-68 | the operations of doReduce write every pair of the output at its place |
| MapReduceDistributed.MapsAreMapped | src/mapreduce/master.go:105-113 | when a distributed map phase is over (every last creator of a file has finished and none is created again) the files hold what they hold after a sequential one |
| MapReduceDistributed.ReducesAreWritten | src/mapreduce/master.go:105-113 | when a distributed reduce phase is over in the same sense merge reads exactly what the tasks computed |
| MapReduceDistributed.DistributedReduces | src/mapreduce/master.go:105-119 | if both phases are over in that sense, with any number of failed, repeated and overlapping calls, the merged output of Distributed reduces everything emitted just like that of Sequential |
| MapReduceDistributed.LateWorkerErases | src/mapreduce/common_map.go:36-44 | a worker that starts after its call failed can empty a completed file when schedule has already returned |

## Left out

- StateMachineSafety: proved for orderly runs, because it is false without, and for runs of servers that check in CheckedStateMachineSafety; orderliness is sufficient for a run, exact only for each request.
- CommittedStays: the same hypothesis, for the same reason.
- OneLog: the same hypothesis, and the apply channel delivers at once, so the race between the sends at src/raft/raft.go:172-177 and 804-806 is not modelled; ServerIsFold takes "no skipping ahead" as its hypothesis instead.
- LaterReadsSeeWrites: the same two hypotheses, as for WritesStay and ReadsSeeWrites; and every GET in the log carries an empty value, as the one that src/kvraft/server.go:191 makes.
- BeginElection: the deadline check and the early returns of `doElection` are replaced by a timeout that may happen whenever the server does not lead.
- Snapshot: an index that was applied but is beyond the log, which panics in the source, is excluded by a precondition; so is an entry outside the log for ApplyNext. RaftRanges says exactly when they arise.
- Broadcast: requires the bounds that LeaderIndexSafety proves of every leader; StaleBroadcast shows that a server that stopped leading can miss them.
- Rebalance: requires that 0 is not the id of a group, as src/shardmaster/common.go:14-17 requires of every client; the source uses 0 for "no group" and does not check it. The same holds for NewBalanced and Apply.
- Apply: only the four operation types that the handlers of the shardmaster create; `lastIncludedIndex`, which the shardmaster writes and never reads, is left out.
- DoMap: file-system and decoding errors, which end the program in the source, are left out.
- DistributedReduces: each phase ends with every last creator of a file finished and none created again, which LateWorkerErases shows to be needed; that every last creator has finished is sufficient for whole files, not necessary; a repeated reduce task computes the same output from the same files.
- Liveness: election deadlines, heartbeat intervals, randomised timeouts and the 500 ms apply timeout are nondeterministic steps; nothing is proved about when they happen.
- Crashes inside a mutex-held region, and between the two writes of a snapshot and of the state.
- The bytes of Raft snapshots: their index and term are in `RaftCluster`, their content in `ReplicatedKv`; `LogEntry.Index` and `AppendEntriesArgs.Log` are never used by the source and absent.
- labrpc (reflection, gob, simulated delays): only what the network may do to a message is kept.
- The waiting handlers of the shardmaster, which repeat those of the key/value service.
- The RPC servers, worker loop and registration of MapReduce: registration is an event of the scheduler.
- src/shardkv, whose handlers are empty, and src/main, whose map and reduce functions are unfinished.
