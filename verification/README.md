# Verified models of a CometBFT node

This project models the parts of a CometBFT node whose guarantees hold over whole runs, interleavings
and crashes, and proves those guarantees: Tendermint consensus with Byzantine validators and crash
recovery, the file-backed private validator, the write-ahead log, the handshake between the stores and
the application, the light client, and the stateful pools (per-peer vote tracking, block sync, evidence
and the mempool).

Code that updates an object in place is modelled by a class whose methods update fields. Each of those
methods is proved equal to a function on values, or to an outright description of the new state, and says
what its caller may rely on; the guarantees over whole runs are proved about those functions.

| file | component |
|---|---|
| `VotingPower.dfy` | tallies, quorums and quorum intersection |
| `ConsensusSpec.dfy`, `ConsensusInvariant.dfy`, `ConsensusEffects.dfy` | one validator: its transition function, what each transition keeps, and what each means for its caller |
| `ConsensusRun.dfy`, `ConsensusState.dfy` | its runs, and the same machine in place |
| `LastCommit.dfy` | the commit saved with a block, and the vote set a restart makes of it |
| `ConsensusReplay.dfy`, `LateReplay.dfy` | replaying a logged height against the run that logged it, and runs that the replay contradicts |
| `Agreement.dfy`, `UnmarkedCrash.dfy` | many validators, some Byzantine, all able to crash and to restart, and a run with an unsafe crash in which two correct validators disagree |
| `Ticker.dfy` | the timeout ticker |
| `PrivVal.dfy` | the file-backed private validator |
| `WalCodec.dfy`, `WalSearch.dfy` | the write-ahead log: records, damaged logs, repair, and the search for a height |
| `Handshake.dfy` | committing a block, crashing in between, and the handshake that reconciles store, state and application |
| `LightVerifier.dfy`, `LightClient.dfy`, `LightDetector.dfy` | the light client |
| `PeerState.dfy` | per-peer vote bit arrays |
| `BlockSync.dfy` | the block-sync requester window |
| `EvidenceKeys.dfy`, `EvidencePool.dfy`, `EvidenceRuns.dfy` | the evidence pool, and its runs with concurrent callers and crashes |
| `Mempool.dfy` | the transaction list, its index and the recheck cursor |

## Main results

- Agreement, lock preservation and the absence of panics hold in every run of the whole network with
  less than a third of the power Byzantine, in which validators crash at any moment that is safe: the
  log is replayed and no input was late, or it cannot be replayed for want of its marker but no vote of
  the height has been released.
- Replaying whatever part of the log survived a crash, from the state that the stores restore, gives a
  state that has signed every vote released before, is past the step of each, and is still bound by each
  precommit. This holds for every setting of `SkipTimeoutCommit` and of waiting for transactions.
- Signatures released for one height, round and step are over identical bytes, across any crashes.
- After a completed handshake store, state and application are at the same height, and at every moment
  the application has committed each block once and in order.
- Skipping verification terminates, computes what a cache without duplicates would compute, and accepts
  only canonical headers; the search for a bifurcation finds the first divergence.
- The pools keep their index, window and order invariants under every sequence of operations; for the
  evidence pool, whose callers take no lock, under every interleaving of their steps and with a crash at
  any step.

Where the code does not meet the promise, the exact condition is proved:

- `ConsensusRun.NilLastCommitExactly`, `Agreement.PanicExactly`: a validator that has not left an initial
  height above one stops on a precommit for the height before it, because `LastCommit` is nil.
- `Handshake.HandshakeExactly`, `Handshake.FirstBlockPanics`: the handshake panics when the first block
  of a chain that starts above height one was stored but not applied, and when the application returns
  no hash on `InitChain` while the genesis document has one.
- `Handshake.LogStoreOrder`, `Agreement.RestartWithoutMarker`, `UnmarkedCrash.UnsafeCrashDisagrees`: the
  end-of-height marker of the last block is missing exactly when a crash fell between storing the block
  and writing its marker. A restart then replays nothing, which is good for the votes released so far
  exactly as long as none is for the current height. Otherwise agreement fails: there is a run, with the
  faulty below a third, in which two correct validators finalize different blocks.
- `LastCommit.RestoredHasAll`, `LastCommit.SavedCommitVotes`: the vote set that a restart makes of the saved
  commit is documented as the inverse of `MakeExtendedCommit`. It has lost the precommits for other blocks,
  and so it holds all precommits exactly if the run's did and no validator with power precommitted another
  block.
- `ConsensusReplay.ReplayAgreesExactly`: a replay signs the votes of the run, at every point of the run, if
  and only if no input is late: one that makes exactly one of the two enter the proposal step when the
  proposal is already complete. With a commit timeout and without waiting for transactions no input is. The
  three causes of falling out of step, each with a run from genesis in which run and replay then prevote
  differently in one round, are a commit that skips its timeout without a logged input
  (`LateReplay.LateReplayContradicts`), a precommit that completes the last commit of the run but not the
  restored one, which lacks a precommit for another block (`LateReplay.DroppedPrecommitContradicts`), and
  the arrival of transactions, which is not logged (`LateReplay.UnloggedTransactionsContradict`).
- `EvidenceRuns.CommittedOnce`, `EvidenceRuns.CommittedTwice`, `EvidenceRuns.StoredLate`: evidence is
  committed twice exactly if a block brings back evidence that was not marked because the node stopped, and
  the handshake replayed its block with an empty pool, or evidence that is pending and committed at once.
  The latter comes about exactly when a call of `AddEvidence` stores evidence that has been marked since the
  call tested it, or has just been taken out for that (`EvidenceRuns.ApartExactly`).
- `EvidenceRuns.GossipExactly`, `EvidenceRuns.ListedTwice`: what is gossiped stays pending and listed once
  exactly as long as no call lists evidence that is listed already or is not pending any more.
- `WalSearch.SearchForEndHeight`, `WalSearch.SearchMisses`: the early exit of the log search is sound
  exactly when no newer file makes it give up; increasing markers guarantee that.
- `Mempool.CListMempool.FindNextEntryMatching`: the recheck cursor runs off the list exactly when a
  response matches no entry from the cursor on.

## Assumptions

- Signatures, hashes, checksums and protobuf encodings are uninterpreted; hashes and encodings are
  injective. A vote set is the contract of `types/vote_set.go`: one vote per validator and a quorum of
  more than two thirds.
- Validator sets, block validity and `ProcessProposal` are functions of the height and the block, the
  same at every validator. The application is deterministic.
- Times, network delivery, provider answers, database order and the choice of random votes are parameters.

## Model

| member | source | states |
|---|---|---|
| `VotingPower.OverlapOutside` | hetu-cometbft/types/vote_set.go:304-312 | two sets of validators whose powers exceed the total plus the faulty power share a correct member with power |
| `ConsensusSpec.MajorityIsUnique` | hetu-cometbft/types/vote_set.go:304-325 | at most one value has a quorum in a vote set, and it was voted for |
| `ConsensusSpec.TwoThirdsMajority` | hetu-cometbft/types/vote_set.go:472-482 | the majority returned is exactly the value that has a quorum |
| `ConsensusInvariant.EnterPrevoteKeeps` | hetu-cometbft/consensus/state.go:1318-1402 | prevoting keeps the run invariant: no second vote for a step, the locked block is prevoted, only valid blocks are prevoted |
| `ConsensusInvariant.EnterNewRoundKeeps` | hetu-cometbft/consensus/state.go:1052-1116 | entering a round keeps the run invariant and the lock |
| `ConsensusInvariant.EnterPrecommitKeeps` | hetu-cometbft/consensus/state.go:1441-1560 | a precommit for a block rests on a polka in its round and locks the block; the lock is given up only for a later polka |
| `ConsensusInvariant.HandleCompleteProposalKeeps` | hetu-cometbft/consensus/state.go:2030-2063 | completing a proposal keeps the run invariant |
| `ConsensusInvariant.OnPolkaKeeps` | hetu-cometbft/consensus/state.go:2253-2304 | unlocking on a polka between the locked round and the current one keeps every precommit respected |
| `ConsensusInvariant.OnPrevoteKeeps` | hetu-cometbft/consensus/state.go:2248-2325 | handling a prevote keeps the run invariant |
| `ConsensusInvariant.OnPrecommitKeeps` | hetu-cometbft/consensus/state.go:2327-2353 | handling a precommit keeps the run invariant, across the round skip and the commit it may cause |
| `ConsensusInvariant.AddVoteKeeps` | hetu-cometbft/consensus/state.go:2117-2360 | counting a vote of any height, round and validator keeps the run invariant |
| `ConsensusInvariant.HandleTimeoutKeeps` | hetu-cometbft/consensus/state.go:966-1013 | a timeout that was scheduled acts on the current round only and keeps the run invariant |
| `ConsensusInvariant.HandleKeeps` | hetu-cometbft/consensus/state.go:784-1046 | every turn of the receive routine keeps the run invariant, withdraws nothing and does not go back |
| `ConsensusInvariant.PolkaIsRecent` | hetu-cometbft/consensus/state.go:1480-1484 | the latest round with a polka is the round entered, so that panic of enterPrecommit cannot happen |
| `ConsensusInvariant.HandleLands` | hetu-cometbft/consensus/state.go:1790-1801 | a turn that commits ends at the start of the next height, or in its round 0 if the commit timeout is skipped, with nothing voted, locked or proposed there, and with a last commit that justifies the block |
| `ConsensusInvariant.StartHolds` | hetu-cometbft/consensus/state.go:585-756 | the start of that height, which the stores restore with the precommits for other blocks dropped, satisfies the run invariant |
| `ConsensusEffects.PrevoteEffect` | hetu-cometbft/consensus/state.go:1318-1402 | only a prevote for the examined round is signed: the locked block if there is one, and valid blocks only |
| `ConsensusEffects.PrecommitEffect` | hetu-cometbft/consensus/state.go:1441-1560 | only a precommit for the examined round is signed: a block only with its polka in that round and with the lock on it; the lock moves only for a later polka |
| `ConsensusEffects.CommitEffect` | hetu-cometbft/consensus/state.go:1595-1655 | nothing is signed, only a valid block with two thirds of the precommits is finalized, and then the next height starts afresh |
| `ConsensusEffects.FinalizeEffect` | hetu-cometbft/consensus/state.go:1686-1807 | the same for finalizeCommit, from any state of a run |
| `ConsensusEffects.UpdateEffect` | hetu-cometbft/consensus/state.go:647-756 | moving on touches no vote, signature or decision, goes to the next height only, and starts it afresh |
| `ConsensusEffects.PrevoteCountedEffect` | hetu-cometbft/consensus/state.go:2248-2325 | a counted prevote keeps the height, and undoes the lock only for a polka after the locked round |
| `ConsensusRun.RunIsMonotone` | hetu-cometbft/consensus/state.go:1052-1062 | over any run height/round/step never decreases and no signature, counted vote or decision is withdrawn |
| `ConsensusRun.SingleNodeRun` | hetu-cometbft/consensus/state.go:1441-1560 | over any run pending timeouts are never ahead, no step is signed twice, every vote names the round that was examined for it, and a block precommit has the polka of that round |
| `ConsensusRun.LastCommitStands` | hetu-cometbft/consensus/state.go:1284-1297 | in every state of every run above the initial height the last commit has two thirds for a block, so a proposal can be built on it |
| `ConsensusRun.NilLastCommitExactly` | hetu-cometbft/consensus/state.go:2131-2141 | an input hits the nil LastCommit exactly on the guard of that branch |
| `ConsensusRun.NilLastCommitHappens` | hetu-cometbft/consensus/state.go:2131-2141 | with an initial height above one, a single precommit reaches that panic from genesis |
| `ConsensusMachine.ConsensusState.constructor` | hetu-cometbft/consensus/state.go:154-208 | a new validator starts in the genesis state, which satisfies the run invariant |
| `LastCommit.SavedCommitVotes` | hetu-cometbft/types/block.go:1071-1117 | the vote set restored from a saved commit holds the precommits for nil and for the committed block, and no others |
| `LastCommit.RestoredHasAll` | hetu-cometbft/consensus/state.go:2157-2162 | the restored commit holds all precommits if and only if that of the run did and no validator with power precommitted another block |
| `LastCommit.MakeExtendedCommit` | hetu-cometbft/types/vote_set.go:635-671 | the loop saves a commit exactly if some value has two thirds, with a precommit for another block as absent |
| `LastCommit.ToVoteSet` | hetu-cometbft/types/block.go:1098-1117 | the loop adds exactly the precommits that the commit holds |
| `ConsensusMachine.SavedIsUsable` | hetu-cometbft/consensus/state.go:626-643 | the commit that a run saves has two thirds of the precommits, so the restart does not panic on it |
| `ConsensusMachine.ConsensusState.Restore` | hetu-cometbft/consensus/state.go:154-208 | from whatever the stores hold; those of a run give the start of its height with the last commit rebuilt, which satisfies the run invariant; it panics exactly if no usable commit is stored |
| `ConsensusMachine.ConsensusState.CatchupReplay` | hetu-cometbft/consensus/replay.go:94-167 | replaying what a run logged brings it back: the same votes signed, the same lock, valid block, proposal and votes of the height, unless an input was late |
| `ConsensusMachine.Restart` | hetu-cometbft/consensus/state.go:316-380 | restoring from the stores and replaying the log leads to where the run was that wrote them, unless an input was late |
| `ConsensusMachine.ConsensusState.EnterNewRound` | hetu-cometbft/consensus/state.go:1052-1116 | keeps the run invariant, keeps the lock, and signs at most a prevote for the round entered, of the locked block if there is one |
| `ConsensusMachine.ConsensusState.EnterPropose` | hetu-cometbft/consensus/state.go:1139-1197 | keeps the run invariant, keeps the lock, and signs at most a prevote, of the locked block if there is one |
| `ConsensusMachine.ConsensusState.EnterPrevote` | hetu-cometbft/consensus/state.go:1318-1342 | keeps the run invariant, keeps the lock, and signs at most a prevote for the examined round: the locked block if there is one, and valid blocks only |
| `ConsensusMachine.ConsensusState.DoPrevote` | hetu-cometbft/consensus/state.go:1344-1402 | a validator signs one prevote: the locked block, else the proposal block if it is acceptable, and nil only if there is no acceptable one |
| `ConsensusMachine.ConsensusState.EnterPrevoteWait` | hetu-cometbft/consensus/state.go:1405-1433 | keeps the run invariant, keeps the lock and signs nothing |
| `ConsensusMachine.ConsensusState.EnterPrecommit` | hetu-cometbft/consensus/state.go:1441-1560 | keeps the run invariant, signs a block only with its polka in the examined round and the lock on it, and moves the lock only for a later polka |
| `ConsensusMachine.ConsensusState.EnterPrecommitWait` | hetu-cometbft/consensus/state.go:1563-1592 | keeps the run invariant, keeps the lock and signs nothing |
| `ConsensusMachine.ConsensusState.EnterCommit` | hetu-cometbft/consensus/state.go:1595-1655 | keeps the run invariant, signs nothing, finalizes only a valid block with two thirds of the precommits, and then starts the next height afresh |
| `ConsensusMachine.ConsensusState.TryFinalizeCommit` | hetu-cometbft/consensus/state.go:1658-1683 | signs nothing, finalizes only a valid block with two thirds of the precommits, and then starts the next height afresh |
| `ConsensusMachine.ConsensusState.FinalizeCommit` | hetu-cometbft/consensus/state.go:1686-1807 | signs nothing, finalizes only a valid block with two thirds of the precommits, and then starts the next height afresh |
| `ConsensusMachine.ConsensusState.UpdateToState` | hetu-cometbft/consensus/state.go:647-756 | touches no vote, signature or decision, moves to the next height only, and starts it afresh |
| `ConsensusMachine.ConsensusState.SetProposal` | hetu-cometbft/consensus/state.go:1900-1947 | keeps the run invariant, keeps the lock, signs nothing, and accepts one proposal, of the current height and round |
| `ConsensusMachine.ConsensusState.AddLastPart` | hetu-cometbft/consensus/state.go:1952-2028 | keeps the run invariant, and stays at the height or starts the next one afresh |
| `ConsensusMachine.ConsensusState.HandleCompleteProposal` | hetu-cometbft/consensus/state.go:2030-2063 | keeps the run invariant, and stays at the height or starts the next one afresh |
| `ConsensusMachine.ConsensusState.AddVote` | hetu-cometbft/consensus/state.go:2117-2360 | keeps the run invariant, counts at most that vote, and stays at the height or lands at the next one |
| `ConsensusMachine.ConsensusState.OnPrevote` | hetu-cometbft/consensus/state.go:2248-2304 | keeps the run invariant, stays at the height, and gives the lock up only for a polka after the locked round |
| `ConsensusMachine.ConsensusState.PolkaReaction` | hetu-cometbft/consensus/state.go:2307-2325 | keeps the run invariant, stays at the height, and gives the lock up only for a polka after the locked round |
| `ConsensusMachine.ConsensusState.OnPrecommit` | hetu-cometbft/consensus/state.go:2327-2353 | keeps the run invariant, across round skip, precommit and commit, and stays at the height or lands at the next one |
| `ConsensusMachine.ConsensusState.HandleTimeout` | hetu-cometbft/consensus/state.go:966-1013 | keeps the run invariant, and stays at the height, for any timeout that is not ahead |
| `ConsensusMachine.ConsensusState.HandleTxsAvailable` | hetu-cometbft/consensus/state.go:1015-1046 | keeps the run invariant, keeps the lock, and signs at most a prevote |
| `ConsensusMachine.ConsensusState.Receive` | hetu-cometbft/consensus/state.go:784-873 | one turn of the receive routine computes `Handle`, keeps the run invariant, withdraws nothing and does not go back |
| `ConsensusReplay.HandleTracks` | hetu-cometbft/consensus/replay.go:94-167 | an input that is not late keeps replay and run in step, also while one of them is ahead in round 0 |
| `ConsensusReplay.LateDiverges` | hetu-cometbft/consensus/state.go:1139-1169 | at a late input of a validator exactly one of run and replay signs a prevote |
| `ConsensusReplay.ReplayAgreesExactly` | hetu-cometbft/consensus/replay.go:94-167 | for every configuration, at every point of a run, replay and run have signed the same votes if and only if no input is late; with a commit timeout and without waiting for transactions none is |
| `ConsensusReplay.ReplayRestores` | hetu-cometbft/consensus/replay.go:94-167 | replaying the logged ones of the inputs gives the votes, lock, valid block and proposal of the run |
| `LateReplay.LateReplayContradicts` | hetu-cometbft/consensus/state.go:2344-2346 | a run from genesis that skips a commit timeout, and prevotes one block in round 1 of height 2 while the replay of its log prevotes another |
| `LateReplay.DroppedPrecommitContradicts` | hetu-cometbft/consensus/state.go:2157-2162 | the same for a run whose timeout is skipped by a late precommit, with the help of one that the saved commit dropped |
| `LateReplay.UnloggedTransactionsContradict` | hetu-cometbft/consensus/state.go:1015-1046 | the same for a run that waits for transactions; here the run has precommitted the block that the replay votes against |
| `Agreement.RunKeeps` | hetu-cometbft/consensus/state.go:826-865 | in every run whose crashes are safe, all correct validators keep the network invariant |
| `Agreement.NoLaterPolka` | hetu-cometbft/consensus/state.go:1486-1559 | on every prefix of the released votes, no polka against a block locked by more than a third of correct power |
| `Agreement.LockPreservation` | hetu-cometbft/consensus/state.go:1344-1352 | once correct validators with more than a third precommitted a block, every later polka is for it, in every run whose crashes are safe |
| `Agreement.AgreementHolds` | hetu-cometbft/consensus/state.go:1595-1715 | no two correct validators finalize different blocks at one height, at whatever times and rounds, in every run whose crashes are safe |
| `Agreement.DecisionsPersist` | hetu-cometbft/consensus/state.go:1726-1790 | a finalized block stays finalized through every later step and crash |
| `Agreement.NoPanic` | hetu-cometbft/consensus/state.go:1480-1484 | no correct validator panics, except on a nil LastCommit above initial height one |
| `Agreement.PanicExactly` | hetu-cometbft/consensus/state.go:2131-2141 | an input stops a correct validator exactly when it meets that nil LastCommit |
| `Agreement.WriteAheadRecovery` | hetu-cometbft/consensus/replay.go:94-167 | unless an input was late, replaying any surviving log from its flushed part on reproduces every released vote, the step reached and the lock held; with nothing lost it tracks the state before the crash |
| `Agreement.RestartWithoutMarker` | hetu-cometbft/consensus/replay.go:117-138 | without the previous marker, what the stores restore covers every released vote exactly when none is for the current height |
| `Agreement.NothingLate` | hetu-cometbft/consensus/state.go:2344-2346 | no input is late for a validator with a commit timeout that does not wait for transactions, in any run |
| `UnmarkedCrash.UnsafeCrashDisagrees` | hetu-cometbft/consensus/state.go:343-351 | a run in which two correct validators finalize different blocks after one of them restarts without its marker, although no correct validator releases two votes for one step |
| `Ticker.RelaysLatest` | hetu-cometbft/consensus/ticker.go:99-143 | the timer is always for the first of the latest ticks, and what it relays strictly increases |
| `Ticker.TimeoutTicker.OnTick` | hetu-cometbft/consensus/ticker.go:104-127 | replaces the timer exactly for a later height, round or step |
| `Ticker.TimeoutTicker.OnExpire` | hetu-cometbft/consensus/ticker.go:130-138 | relays the timer's timeout and disarms it |
| `PrivVal.SignedExactly` | hetu-cometbft/privval/file.go:100-132 | a request is signed exactly when it is for a later height/round/step, or equals the last one up to its timestamp; no panic is reachable |
| `PrivVal.SignatureMatches` | hetu-cometbft/privval/file.go:342-357 | the signature is over the message it is returned on, after the timestamp is restored, and that is what is saved |
| `PrivVal.RetryReturnsSaved` | hetu-cometbft/privval/file.go:337-357 | the same request after a crash gets the saved signature and timestamp |
| `PrivVal.NoDoubleSigning` | hetu-cometbft/privval/file.go:308-422 | over any requests, crashes and reloads, all signatures released for one height/round/step are the same |
| `PrivVal.FreshSigningsIncrease` | hetu-cometbft/privval/file.go:413-422 | saved messages strictly increase in height/round/step, and only saved messages are released |
| `PrivVal.FilePV.constructor` | hetu-cometbft/privval/file.go:198-233 | a loaded validator agrees with its file, whatever that holds |
| `PrivVal.FilePV.SignMessage` | hetu-cometbft/privval/file.go:308-410 | signs, restores or refuses as specified and writes into the message only then; with a file that describes a signature it never panics, and what it signs is what the message says and the file holds |
| `WalCodec.PutUint32` | hetu-cometbft/consensus/wal.go:323-325 | four bytes that decode to the number |
| `WalCodec.DecodeEncode` | hetu-cometbft/consensus/wal.go:301-420 | decoding one encoded record gives the message and the bytes after it |
| `WalCodec.RoundTrip` | hetu-cometbft/consensus/wal.go:301-420 | a log decodes to the messages written and ends cleanly, through either kind of reader |
| `WalCodec.PrefixDecodes` | hetu-cometbft/consensus/wal.go:366-420 | a log cut off at any byte gives every whole record; the end is clean exactly within a checksum |
| `WalCodec.PrefixReadFromFile` | hetu-cometbft/consensus/wal.go:366-420 | a plain file read gives every whole record and at most one more |
| `WalCodec.RepairWalFile` | hetu-cometbft/consensus/state.go:2563-2595 | the loop writes exactly the decodable records, and reports a record it cannot encode |
| `WalCodec.RepairDecodesCleanly` | hetu-cometbft/consensus/state.go:2563-2595 | whatever the damage, a repaired log decodes to its end |
| `WalCodec.RepairIsIdempotent` | hetu-cometbft/consensus/state.go:2563-2595 | repairing a repaired log changes nothing |
| `WalCodec.RepairKeepsWholeRecords` | hetu-cometbft/consensus/state.go:2563-2595 | repairing a cut-off log loses no whole record |
| `WalSearch.Scan` | hetu-cometbft/consensus/wal.go:252-279 | one reader is scanned to the marker or to its end, remembering the last marker seen |
| `WalSearch.SearchForEndHeight` | hetu-cometbft/consensus/wal.go:231-284 | finds the marker exactly when no newer files make it give up, and leaves the reader behind it |
| `WalSearch.SearchIsComplete` | hetu-cometbft/consensus/wal.go:256-261 | with increasing markers a marker is found if and only if it is in the log |
| `WalSearch.SearchMisses` | hetu-cometbft/consensus/wal.go:256-261 | without that order the early exit misses a marker |
| `Handshake.ApplyKeeps` | hetu-cometbft/state/execution.go:222-323 | each of the five writes, made when enabled, keeps the order between store, state, application, response and markers |
| `Handshake.FinalizeEnabled` | hetu-cometbft/consensus/state.go:1726-1790 | finalizeCommit makes its writes in order and ends with everything at the same height |
| `Handshake.HandshakeExactly` | hetu-cometbft/consensus/replay.go:300-459 | on any disk crashes can leave, which outcomes are possible and exactly when; a completed handshake leaves everything in step |
| `Handshake.HashesFit` | hetu-cometbft/consensus/replay.go:486-505 | on a disk that crashes can leave, every hash the application returns fits the next header |
| `Handshake.MissingFits` | hetu-cometbft/consensus/replay.go:404-459 | on such a disk exactly the missing blocks are executed, and the last one is applied by the application or from the recorded response |
| `Handshake.ExactlyOnce` | hetu-cometbft/consensus/replay.go:376-542 | in every run the application has committed each block once and in order, and is in step when the node is up |
| `Handshake.HandshakeNeverPanicsOtherwise` | hetu-cometbft/consensus/replay.go:376-459 | the handshake panics in two stated cases only; the uncovered case and a missing response are unreachable |
| `Handshake.FirstBlockPanics` | hetu-cometbft/consensus/replay.go:399-401 | a run of a chain starting at height five whose restart panics |
| `Handshake.LogStoreOrder` | hetu-cometbft/consensus/replay.go:100-138 | markers are for stored blocks, so none exists for the height to replay; the previous one is there unless a crash skipped it |
| `Handshake.Handshaker.ReplayRange` | hetu-cometbft/consensus/replay.go:461-519 | executes the blocks one by one with the hash check, and if crashes left the disk behind then all hashes fit |
| `Handshake.Handshaker.ReplayMissing` | hetu-cometbft/consensus/replay.go:404-459 | the case split over the three heights makes exactly the planned writes, on any disk |
| `Handshake.Handshaker.ReplayBlocks` | hetu-cometbft/consensus/replay.go:300-459 | does what the plan says on any disk; on one that crashes can leave its writes are in order, and if it completes store, state and application are in step |
| `LightVerifier.Verify` | hetu-cometbft/light/verifier.go:135-151 | an accepted header is higher and later; only a non-adjacent one can lack trust |
| `LightVerifier.TrustLevelIsThird` | hetu-cometbft/light/verifier.go:197-204 | more than a valid trust level, rounded down, is more than a third |
| `LightVerifier.VerifiedIsCanonical` | hetu-cometbft/light/verifier.go:32-131 | verification from a canonical unexpired block accepts only the canonical header |
| `LightVerifier.TraceIncreases` | hetu-cometbft/light/verifier.go:153-181 | heights and times strictly increase along a trace |
| `LightVerifier.TraceIsCanonical` | hetu-cometbft/light/verifier.go:32-131 | every block of a trace from a canonical block is canonical |
| `LightClient.Pivot` | hetu-cometbft/light/client.go:749-750 | nine sixteenths of the way is strictly between the bounds |
| `LightClient.VerifySkipping` | hetu-cometbft/light/client.go:706-773 | terminates for every history, and the doubled cache gives the result of a cache without duplicates |
| `LightClient.BisectTrace` | hetu-cometbft/light/client.go:706-773 | a verified trace starts at the trusted block, ends at the target, and each block verifies the next |
| `LightClient.SkippingIsSound` | hetu-cometbft/light/client.go:706-773 | every block of a returned trace is canonical, with increasing heights and times |
| `LightClient.VerifySequential` | hetu-cometbft/light/client.go:613-697 | terminates with its primary replacements, for missing and for invalid blocks, and its trace has consecutive verified heights up to the target |
| `LightClient.SkippingAgreesWithSequential` | hetu-cometbft/light/client.go:613-773 | both accept the same header at a height |
| `LightDetector.Examine` | hetu-cometbft/light/detector.go:303-387 | on success the source trace is not empty, starts at an agreed block, and the block returned is the first divergence or the forward-lunatic successor |
| `LightDetector.HandleConflictingHeaders` | hetu-cometbft/light/detector.go:230-287 | indexing the traces is safe, and every piece of evidence has a common block below two different ones |
| `PeerTracking.NewBitArray` | hetu-cometbft/libs/bits/bit_array.go:26-34 | nil for no bits, else a fresh array with no bit set |
| `PeerTracking.PeerState.ClaimsSuffice` | hetu-cometbft/consensus/reactor.go:1193-1236 | the array found for a height, round and type holds only votes sent or claimed for exactly these |
| `PeerTracking.PeerState.SetHasVote` | hetu-cometbft/consensus/reactor.go:1345-1358 | sets exactly the vote's bit, where it is tracked |
| `PeerTracking.PeerState.ApplyHasVoteMessage` | hetu-cometbft/consensus/reactor.go:1449-1459 | records an announced vote of the peer's height |
| `PeerTracking.PeerState.ApplyVoteSetBitsMessage` | hetu-cometbft/consensus/reactor.go:1465-1479 | replaces the array by the claimed votes and the ones we do not have, and stays sound |
| `PeerTracking.PeerState.ApplyProposalPolMessage` | hetu-cometbft/consensus/reactor.go:1432-1446 | adopts the message's array only for the current POL round |
| `PeerTracking.PeerState.SetHasProposal` | hetu-cometbft/consensus/reactor.go:1095-1118 | moves the POL round and drops its array together |
| `PeerTracking.PeerState.ApplyNewValidBlockMessage` | hetu-cometbft/consensus/reactor.go:1415-1429 | touches no vote |
| `PeerTracking.PeerState.ApplyNewRoundStepMessage` | hetu-cometbft/consensus/reactor.go:1361-1412 | moves, shares or drops arrays without making any vote known; the last commit and the catch-up commit carry over |
| `PeerTracking.PeerState.EnsureCatchupCommitRound` | hetu-cometbft/consensus/reactor.go:1240-1266 | shares the precommits of the same round, else starts afresh |
| `PeerTracking.PeerState.EnsureVoteBitArrays` | hetu-cometbft/consensus/reactor.go:1278-1297 | allocates what is missing for a height and nothing else |
| `PeerTracking.PeerState.PickVoteToSend` | hetu-cometbft/consensus/reactor.go:1167-1190 | puts the arrays in place and picks a vote that is then missing, and none only if none is |
| `PeerTracking.PeerState.PickSendVote` | hetu-cometbft/consensus/reactor.go:1147-1162 | sends a vote that is missing once the arrays are in place, which is then no longer missing, and nothing else changes |
| `PeerTracking.PeerState.SendVotes` | hetu-cometbft/consensus/reactor.go:1147-1190 | from any start, repeated sends stop after sending exactly the votes missing once the arrays are in place, each once |
| `BlockSync.PopKeeps` | hetu-cometbft/blocksync/pool.go:247-267 | popping keeps the window, and a next height read before it is still right |
| `BlockSync.MakeNextKeeps` | hetu-cometbft/blocksync/pool.go:489-501 | a requester at the top keeps the window |
| `BlockSync.WindowHolds` | hetu-cometbft/blocksync/reactor.go:456-555 | under every interleaving the window is exact, pool and state are in step, and no panic is reachable |
| `BlockSync.AppliedInOrder` | hetu-cometbft/blocksync/reactor.go:530-538 | each applied block is the next one |
| `BlockSync.RemovePeerKeeps` | hetu-cometbft/blocksync/pool.go:403-441 | removing a peer keeps the sorted list exact and the height bound valid |
| `BlockSync.BlockPool.MakeNextRequester` | hetu-cometbft/blocksync/pool.go:489-501 | adds an empty requester at the top of the window |
| `BlockSync.BlockPool.PeekTwoBlocks` | hetu-cometbft/blocksync/pool.go:232-244 | the blocks returned have the pool's height and the next one |
| `BlockSync.BlockPool.PopRequest` | hetu-cometbft/blocksync/pool.go:247-267 | moves the window up by one; every requester it notifies exists |
| `BlockSync.BlockPool.AddBlock` | hetu-cometbft/blocksync/pool.go:311-351 | a block is taken only from a peer it was requested from, with an extended commit of its height, and kept only once; a peer whose block cannot have been wanted is reported |
| `BlockSync.BlockPool.SetPeerRange` | hetu-cometbft/blocksync/pool.go:368-392 | records the peer's range, lists a new peer once, and raises the bound |
| `BlockSync.BlockPool.RemovePeer` | hetu-cometbft/blocksync/pool.go:403-430 | takes the peer out of the map and the list, recomputes the bound if it was the highest, and leaves a signal with every requester that asked it |
| `BlockSync.BlockPool.UpdateMaxPeerHeight` | hetu-cometbft/blocksync/pool.go:433-441 | computes the largest height reported |
| `EvidenceKeys.HexOrder` | hetu-cometbft/evidence/pool.go:559-561 | zero-padded hexadecimal strings sort as the numbers do |
| `EvidenceKeys.KeyOrder` | hetu-cometbft/evidence/pool.go:559-573 | in key order heights never decrease |
| `EvidencePool.AddKeeps` | hetu-cometbft/evidence/pool.go:134-168 | adding without interruption keeps pending and committed disjoint and the list pending |
| `EvidencePool.CheckKeeps` | hetu-cometbft/evidence/pool.go:192-230 | a block that passes has no evidence twice, and of committed evidence only what the fast path lets through because it is pending all the same |
| `EvidencePool.FlushKeeps` | hetu-cometbft/evidence/pool.go:459-535 | evidence formed from reported votes keeps the pool's invariant |
| `EvidencePool.MarkKeeps` | hetu-cometbft/evidence/pool.go:328-356 | committing moves evidence out of pending and the list |
| `EvidencePool.PruneIsExact` | hetu-cometbft/evidence/pool.go:403-434 | stopping at the first unexpired entry leaves exactly the unexpired pending evidence |
| `EvidencePool.ReopenKeeps` | hetu-cometbft/evidence/pool.go:55-84 | a restart keeps pending and committed evidence, drops exactly what has expired, and lists all that is pending |
| `EvidenceRuns.AddInSteps` | hetu-cometbft/evidence/pool.go:134-168 | the steps of AddEvidence, run without interruption, do what the whole operation does |
| `EvidenceRuns.UpdateInSteps` | hetu-cometbft/evidence/pool.go:105-131 | so do the steps of Update: flushing, taking out and recording each piece, clearing the list, pruning |
| `EvidenceRuns.RunKeeps` | hetu-cometbft/evidence/pool.go:105-230 | under every interleaving of calls of AddEvidence with checks and updates, and with a crash at any step, a block that passed has of the committed evidence only what is pending, and what was applied is marked, lost or about to be marked |
| `EvidenceRuns.CommittedOnce` | hetu-cometbft/evidence/pool.go:105-230 | in every such run no evidence is committed twice if and only if no block brought back evidence that was lost, or was pending and committed at once |
| `EvidenceRuns.ApartExactly` | hetu-cometbft/evidence/pool.go:134-168 | a step leaves no evidence pending and committed at once if and only if it does not store evidence that is marked already, or record as committed what a call has stored in between |
| `EvidenceRuns.GossipExactly` | hetu-cometbft/evidence/pool.go:159-163 | a step keeps the gossiped evidence pending and listed once if and only if it does not list evidence that is listed already or no longer pending |
| `EvidenceRuns.QuietKeeps` | hetu-cometbft/evidence/pool.go:105-168 | if calls overlap neither with each other nor with an update, pending and committed evidence stay apart and the list in order |
| `EvidenceRuns.QuietCommitsOnce` | hetu-cometbft/consensus/replay.go:524-542 | if moreover the node does not stop in the middle of an update, nothing is lost and no evidence is committed twice |
| `EvidenceRuns.CommittedTwice` | hetu-cometbft/consensus/replay.go:524-542 | a run in which evidence is committed twice, after the handshake replayed its block with an empty pool |
| `EvidenceRuns.StoredLate` | hetu-cometbft/evidence/pool.go:134-168 | a run in which evidence is committed twice, after a call stored it when it had been marked; nothing was lost |
| `EvidenceRuns.ListedTwice` | hetu-cometbft/evidence/pool.go:163 | a run in which two overlapping calls list the same evidence twice |
| `EvidencePool.EvidenceStore.AddEvidence` | hetu-cometbft/evidence/pool.go:134-168 | run without interruption, adds exactly new verified evidence to pending and the list, and keeps them in order |
| `EvidencePool.EvidenceStore.CheckEvidence` | hetu-cometbft/evidence/pool.go:192-230 | the nested loops compute the check; what passes is in the block once, and committed only if it was pending all the same |
| `EvidencePool.EvidenceStore.ProcessConsensusBuffer` | hetu-cometbft/evidence/pool.go:459-537 | turns each usable pair of votes into evidence once and empties the buffer |
| `EvidencePool.EvidenceStore.MarkEvidenceAsCommitted` | hetu-cometbft/evidence/pool.go:328-356 | the loop moves exactly the block's evidence |
| `EvidencePool.EvidenceStore.RemoveEvidenceFromList` | hetu-cometbft/evidence/pool.go:436-447 | takes exactly the given hashes out of the list, in order |
| `EvidencePool.EvidenceStore.RemoveExpiredPendingEvidence` | hetu-cometbft/evidence/pool.go:403-434 | deletes the expired prefix and sets when to prune next |
| `EvidencePool.EvidenceStore.Update` | hetu-cometbft/evidence/pool.go:105-131 | flushes, commits and prunes as specified, and refuses a height that is not new |
| `Mempool.ProgressStep` | hetu-cometbft/mempool/clist_mempool.go:765-782 | a response at or after the cursor is found, and rechecking goes on behind it |
| `Mempool.CListMempool.AddTx` | hetu-cometbft/mempool/clist_mempool.go:355-360 | list, index, counter and both limits stay consistent |
| `Mempool.CListMempool.RemoveTxByKey` | hetu-cometbft/mempool/clist_mempool.go:366-376 | takes out exactly that transaction everywhere |
| `Mempool.CListMempool.ResCbFirstTime` | hetu-cometbft/mempool/clist_mempool.go:401-472 | appends an accepted new transaction exactly when the pool is not full |
| `Mempool.CListMempool.FindNextEntryMatching` | hetu-cometbft/mempool/clist_mempool.go:765-782 | the cursor moves behind the match or ends; it dereferences nil exactly when there is no match |
| `Mempool.CListMempool.TryFinish` | hetu-cometbft/mempool/clist_mempool.go:742-756 | ends at the last entry, else moves to the next |
| `Mempool.CListMempool.ResCbRecheck` | hetu-cometbft/mempool/clist_mempool.go:480-503 | removes exactly a rejected transaction, after the cursor has passed it |
| `Mempool.CListMempool.RecheckTxs` | hetu-cometbft/mempool/clist_mempool.go:647-688 | with responses in list order the result is the old list without the rejected ones, and the cursor never passes the end |
| `Mempool.CListMempool.Update` | hetu-cometbft/mempool/clist_mempool.go:582-643 | the list loses the committed and then the rejected transactions, nothing else |
| `Mempool.CListMempool.ReapMaxBytesMaxGas` | hetu-cometbft/mempool/clist_mempool.go:524-562 | the longest prefix all of whose prefixes stay within both limits |

## Left out

- Agreement.AgreementHolds: validator sets are a function of the height; a run may contain only crashes that are safe. `UnmarkedCrash.UnsafeCrashDisagrees` is a run in which an unsafe crash without the marker leads to disagreement. For an unsafe crash with the marker, after a late input, `LateReplay.UnloggedTransactionsContradict` shows that the restarted validator votes against its own precommit; a run of a whole network that ends in disagreement is not given.
- ConsensusMachine.ConsensusState.Restore: the commit stored with the last block is the one saved when the run committed it; one that block sync or state sync has stored is not modelled, nor are vote extensions.
- ConsensusMachine.ConsensusState.AddVote: votes of every round are counted; the limit on catch-up rounds per peer and claimed majorities (`SetPeerMaj23`) are not modelled, nor are vote extensions.
- ConsensusReplay.ReplayAgreesExactly: any timeout that was ever scheduled may still fire, since the ticker relays through a goroutine.
- ConsensusMachine.ConsensusState.AddLastPart: block parts arrive as one last part; a part set that does not match the block, or exceeds the size limit, is dropped before it.
- ConsensusMachine.ConsensusState.EnterPropose: creating the proposal block is one request to the signer; its parts come back as inputs.
- Ticker.TimeoutTicker.OnExpire: relaying goes through a goroutine, so the receiver may see the order changed.
- PrivVal.NoDoubleSigning: extension signatures are always made again and are not compared; `Reset` and an empty state file, which discard the last signature on purpose, are not requests of a run.
- WalSearch.SearchForEndHeight: each file decodes on its own; corruption that runs across the border between two files is not modelled.
- Handshake.Handshaker.ReplayBlocks: state sync is not an action of the runs, so nothing more is said of a node that it has left with an empty block store; cancelling the handshake through its context, and the validator and parameter updates of `InitChain`, are not modelled.
- LightClient.VerifySkipping: a provider gives one answer per height during one verification.
- LightVerifier.Verify: the 64-bit overflow checks of the voting-power product and of the trust level are not modelled.
- PeerTracking.PeerState.SendVotes: arrays that exist already have the size of the validator set, as the source asks of its callers.
- PeerTracking.PeerState.ApplyVoteSetBitsMessage: an array has exactly its declared bits; bits that a message sets beyond them in its last word are not modelled.
- BlockSync.WindowHolds: choosing a peer for a requester is a free choice, and the pending counters are not tracked.
- EvidenceRuns.RunKeeps: the steps of AddEvidence are its database accesses; of the consensus routine each piece of evidence checked, taken out or recorded is a step, and so are the flush of reported votes, the clearing of the list and the pruning as wholes. `evidenceSize` is only an upper bound.
- EvidencePool.EvidenceStore.Update: pruning may start one block or one second after the first expiry; only the pruning itself is exact.
- Mempool.CListMempool.RecheckTxs: callbacks run one at a time, and a late response after the timeout is dropped by the caller.
- Backwards verification, cleanup and the replacement of primaries and witnesses in the light client (`findNewPrimary`, `removeWitnesses`) beyond their effect on sequential verification.
- The Narwhal client and mempool wrapper, `ReapMaxTxs`, `CheckTx` before the application answers, and `Flush`.
- Peer-to-peer transport, RPC, node wiring, metrics, state sync, rollback, and the remaining reactors.
- Liveness and wall-clock time.
