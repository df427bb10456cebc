# SplitChain: a verified model

This project models the parts of SplitChain that move value or decide who may: the branch
ledger with its two-party escrow, the signed and certified failover of leadership, the
three-node prepare/commit replication built on both, the crash-safe batch distributor, the OLC
job store with its independent receipt checker, the two-thirds quorum rules, and the wallet's
canonical JSON encoder. Everything is proved for unbounded accounts, branches, runs and values.

Mutable objects of the source are Dafny classes whose methods run the same loops and branches
and are proved equal to a step function on values; what the system promises is then proved
about those functions, over every run.

| file | part |
|---|---|
| `Common.dfy` | option and outcome types, sums over finite maps |
| `Ledger.dfy`, `LedgerInvariants.dfy`, `LedgerTheorems.dfy`, `LedgerCalls.dfy`, `LedgerObject.dfy` | the ledger as values, its invariant, what it means, each call's exact terms and the life of a branch, and the mutable object |
| `Restore.dfy`, `RestoreLimits.dfy`, `RestoreFuture.dfy`, `Reload.dfy` | snapshots, the restoring validator, where it refuses, and what its acceptance is worth later |
| `Failover.dfy`, `Heartbeats.dfy`, `Certificates.dfy`, `LeadershipObject.dfy` | votes, certificates and the validator; what exactly is accepted and what a heartbeat protects from; and the mutable state |
| `Node.dfy`, `NodeInvariants.dfy`, `NodeCalls.dfy`, `Election.dfy`, `Authority.dfy`, `NodeObject.dfy` | one replica: handlers, replay, restart, their exact conditions, when a vote elects, who must have signed what, and the mutable node |
| `Spine.dfy`, `Cluster.dfy`, `ClusterSafety.dfy`, `ClusterTheorems.dfy`, `ClusterRefusals.dfy`, `ClusterTails.dfy`, `ClusterWitness.dfy`, `ClusterRegistration.dfy` | the three logs and chains, the cluster's steps, its invariant, its theorems, a run that fails over, and who registers accounts |
| `Distributor.dfy`, `DistributorResume.dfy`, `DistributorTruth.dfy`, `DistributorTurns.dfy`, `ResumeWitness.dfy`, `DistributorObject.dfy` | the funding journal against a faulty world, when it can be resumed, what each turn does, and the mutable distributor |
| `Olc.dfy`, `OlcCalls.dfy`, `OlcSoundness.dfy`, `OlcObject.dfy` | the job store and its checker, each call's exact terms, what an accepted document proves, and the mutable store |
| `Quorum.dfy` | validator quorums, joint membership, three-round finality |
| `Utf16.dfy`, `CanonicalJson.dfy`, `CanonicalSample.dfy` | string orders, the encoder, a decoder, hexadecimal, and one document written out |

The cluster is a step relation over three nodes and a growing set of sent messages: a message
may be delivered late, again or never, nodes crash and reload their last saved record, several
proposals, votes and certificates may be under way at once, and what a node tested before it
took its lock or talked to its peers (who leads, for how long the leader has been silent) may
no longer hold when it acts. Each handler is one atomic step, as each holds the
node's lock.

## What turned out not to hold

- A ledger lets an ordinary account pay a genesis-locked account (only locked senders are
  refused), but the restoring validator wants a locked balance unchanged. After such a payment
  finalises, the ledger's own snapshot is refused and the node cannot restart.
  `RestoreLimits.RestoreCanRefuse` gives a four-call run; `Restore.RestoreExact` says this is the
  only case in a ledger that calls have produced; `RestoreLimits.SparingRunsRestore` gives callers a condition on their calls.
- The wallet's encoder says it matches the server's key order. It sorts by UTF-16 unit, the
  server by code point. `CanonicalJson.WalletCanMismatch` gives an object on which they differ;
  `CanonicalJson.WalletMatchesServerIff` gives the exact condition, under which also fall integers
  beyond 64 bits, which the wallet refuses.
- An interrupted distribution cannot always be resumed by running it again, although the journal
  is kept for that. While an operation for a later recipient is unresolved, every restart stops at
  the first one, whatever the status says (`Resumption.RestartStaysStopped`);
  `ResumeWitness.CrashLeavesSecondUnresolved` reaches that state. An operation of the first
  recipient can stop every restart as well: `ResumeWitness.LostOfferStops` reaches, by true reports
  only, a state whose offer was reserved and never sent, and `TrueReports.RefusedOfferIsFinal`
  shows that an offer whose refusal was lost in a crash ends the plan for good, unless somebody
  else pays its recipient from the faucet. With true reports, `TrueReports.RestartMovesIff` says
  exactly when the first turn of a restart does something.
- Registration "requires operator authentication" only where there is a credential registry: on a
  cluster without one, some run acknowledges an unsigned registration of any free account
  (`ClusterRegistration.RegistrationClosedIff`).
- The restoring validator accepts snapshots that a ledger never writes and that fail later. With a committed branch that has no commit round every advance fails
  (`RestoreFuture.RoundsMatter`; `RestoreFuture.FundedAdvancesIff` is exact). An active branch that
  already has the id of a coming offer is overwritten by it and the locks no longer match
  (`RestoreFuture.FreshIdsMatter`; `RestoreFuture.OfferSolventIff` is exact). A branch may claim an
  origin above the head, where the next block is put, after which the ledger saves a snapshot that
  is refused (`Reload.OriginsMatter`). `Reload.StillReloadsIff` gives, call by call, exactly when an
  accepted state is still accepted afterwards, and `Reload.AcceptedRunReloadsIff` what follows for
  whole runs.
- The distributor's check that a generated account name fits 32 characters never fires
  (`Distribution.PlanForIsSound`).

## Model

| member | source | states |
|---|---|---|
| `LedgerInvariants.RunKeepsInvariant` | splitchain/model.py:108-351 | after any sequence of calls, refused ones included: solvency, exact receipts, double-entry accounting, a hash chain that replays to the balances, and no overdue branch |
| `LedgerInvariants.ExecuteKeeps` | splitchain/model.py:142-225 | every accepted call keeps that whole invariant |
| `LedgerInvariants.OfferKeeps` | splitchain/model.py:142-179 | an offer locks value plus stake without overdrawing and gets an id no earlier branch has |
| `LedgerInvariants.OfferAppends` | splitchain/model.py:153-178 | with ids derived from the branch count, an offer never overwrites an existing branch: it adds one at the end |
| `LedgerInvariants.CloseKeeps` | splitchain/model.py:200-206 | cancelling or expiring a branch releases exactly its own lock |
| `LedgerInvariants.FinalizeKeeps` | splitchain/model.py:335-351 | finalising conserves supply, leaves no balance or lock negative, appends one block and one receipt |
| `LedgerInvariants.RegisterKeeps` | splitchain/model.py:128-140 | registration adds an empty account and one block, and disturbs nothing else |
| `LedgerInvariants.AdvanceKeeps` | splitchain/model.py:208-225 | any number of rounds keeps the invariant and leaves nothing overdue |
| `LedgerTheorems.RunIsSolvent` | splitchain/simulator.py:20-36 | the simulator's invariants and more: constant supply; locks equal value plus stake of active branches and never exceed balances; balance is initial plus received minus sent FINAL values; origins and head are in history |
| `LedgerTheorems.AdvanceComposes` | splitchain/model.py:208-225 | advancing m then n rounds is advancing m+n rounds, with the results concatenated |
| `LedgerTheorems.AdvanceSucceedsIff` | splitchain/model.py:208-225 | an advance of at least one round runs to its end if and only if every committed branch has its commit round, and is then the round-by-round advance |
| `LedgerTheorems.ReachableAdvances` | splitchain/model.py:208-225 | in every reachable ledger an advance succeeds |
| `LedgerTheorems.ExactDeadlines` | splitchain/model.py:208-225 | branches do not interfere: after n rounds each is FINAL, EXPIRED or unchanged by its own deadline alone |
| `LedgerTheorems.SettlesExactlyOnTime` | splitchain/model.py:208-225 | in every reachable ledger a committed branch is FINAL exactly from its commit round plus three, and an open one EXPIRED exactly from its expiry round |
| `LedgerTheorems.HeadDeterminesBalances` | splitchain/public_status.py:88-96 | two ledgers of any two runs with equal head digests have the same genesis, height, history, finalised list and balances |
| `LedgerTheorems.ExecuteExtends` | splitchain/model.py:142-225 | no call removes a branch or changes its parties or value; only an offer adds one |
| `LedgerCalls.OfferIff` | splitchain/model.py:142-179 | an offer succeeds exactly for an unlocked sender with twice the positive value available, another and known receiver, and at least three rounds to live, and adds one branch with every field given by the arguments, the round and the head: expiry is the round plus the time to live asked for |
| `LedgerCalls.AcceptIff` | splitchain/model.py:181-188 | exactly the named receiver accepts, exactly an offered branch, before its expiry round |
| `LedgerCalls.CommitIff` | splitchain/model.py:190-198 | exactly the sender commits, exactly an accepted branch, before its expiry round, to this very payload in this round |
| `LedgerCalls.CancelIff` | splitchain/model.py:200-206 | exactly a participant cancels, exactly before commitment, and the lock released is twice the value |
| `LedgerCalls.RegisterIff` | splitchain/model.py:128-140 | exactly a free name of the allowed form is registered, and the block appended names it |
| `LedgerCalls.OfferExpiresOnTime` | splitchain/model.py:142-216 | over any run and continuation, an unanswered offer made at round r for ttl rounds is OFFERED exactly while the round is below r + ttl and EXPIRED from then on |
| `LedgerCalls.CommitFinalizesOnTime` | splitchain/model.py:190-223 | over any run and continuation, a commitment made at round r is COMMITTED exactly while the round is below r + 3 and FINAL from then on; no call can stop it |
| `LedgerCalls.RoundReports` | splitchain/model.py:211-225 | a round reports exactly the branches it expires or finalises, in order and in their new state, and rounds add up |
| `LedgerObject.Ledger.constructor` | splitchain/model.py:108-123 | a new object is the initial ledger of its genesis or balances |
| `LedgerObject.Ledger.Create` | splitchain/model.py:108-112 | refused exactly when the given balances differ from the genesis allocations |
| `LedgerObject.Ledger.RegisterAccount` | splitchain/model.py:128-140 | the object moves as the specification does, or is untouched by a refusal, and returns the new height |
| `LedgerObject.Ledger.Offer` | splitchain/model.py:142-179 | the object moves as the specification does, whose terms and fields `OfferIff` gives, or is untouched by a refusal |
| `LedgerObject.Ledger.Accept` | splitchain/model.py:181-188 | only the named receiver of a live offered branch, before its expiry round; otherwise untouched |
| `LedgerObject.Ledger.Commit` | splitchain/model.py:190-198 | only the sender of a live accepted branch; records the payload digest and round; otherwise untouched |
| `LedgerObject.Ledger.Cancel` | splitchain/model.py:200-206 | either participant, before commitment; the lock is released; otherwise untouched; asks only for that branch's own lock entry |
| `LedgerObject.Ledger.Finalize` | splitchain/model.py:335-351 | the in-place updates amount to one settlement of that branch |
| `LedgerObject.Ledger.Visit` | splitchain/model.py:214-223 | one pass of the inner loop settles its branch and reports whether it changed, or fails on a commit without a round |
| `LedgerObject.Ledger.AdvanceRound` | splitchain/model.py:213-224 | the inner loop settles each branch once, in order, collects those that changed, and stops at the first failed visit |
| `LedgerObject.Ledger.Advance` | splitchain/model.py:208-225 | the outer loop computes the round-by-round specification, up to a failed visit if there is one, and returns the changed branches in order |
| `LedgerObject.Ledger.CheckGenesis` | splitchain/model.py:28-40 | accepts exactly a well-formed network id, a positive cap, nonempty nonnegative allocations within it, and locked accounts among them; otherwise names the first fault |
| `LedgerObject.Ledger.RespectsGenesis` | splitchain/model.py:285-297 | no fault exactly when genesis digest, supply, locked balances and locked senders are respected; otherwise the first one broken |
| `LedgerObject.Ledger.ExpectedLocks` | splitchain/model.py:300-312 | the loop's totals are, for every account, value plus stake of its active branches; or the fault of the first malformed branch |
| `LedgerObject.Ledger.LocksMatch` | splitchain/model.py:300-315 | no fault exactly when every recorded lock, zero entries aside, equals what the active branches account for |
| `LedgerObject.Ledger.Validate` | splitchain/model.py:285-317 | no fault exactly on the ledgers that meet all of the validator's conditions; otherwise the first one in its order |
| `LedgerObject.Ledger.Load` | splitchain/model.py:256-281 | overwrites every field; later branches with a repeated id replace earlier ones |
| `LedgerObject.Ledger.Restored` | splitchain/model.py:247-283 | succeeds exactly when the specification does and then yields that ledger; otherwise gives the specification's reason |
| `Restore.FaultIff` | splitchain/model.py:285-317 | the validator's tests, each with its own refusal and taken in its order, find no fault exactly on the ledgers that meet all conditions |
| `Restore.CollapseIs` | splitchain/model.py:275-279 | of several saved branches with one id exactly the last is loaded |
| `Restore.RestoreExact` | splitchain/model.py:227-317 | the snapshot of a reachable ledger is accepted if and only if no payment to a genesis-locked account has been finalised, and then restores that very ledger |
| `Restore.RunRestores` | splitchain/model.py:227-317 | the same over every run from any genesis or balances |
| `Restore.AcceptedIsSolvent` | splitchain/model.py:285-317 | any accepted snapshot, forged or not, is solvent: locks are exact and covered, and supply is that of its genesis |
| `RestoreFuture.AcceptedIsFunded` | splitchain/model.py:285-317 | any accepted snapshot restores a solvent ledger with matching positive stakes and distinct branch ids |
| `RestoreFuture.FundedAdvancesIff` | splitchain/model.py:208-225 | on a restored ledger an advance of any number of rounds meets no missing entry, succeeds exactly when each committed branch has a commit round, is then the round-by-round advance, and keeps solvency and supply |
| `RestoreFuture.OfferSolventIff` | splitchain/model.py:142-179 | an offer on a restored ledger leaves it solvent if and only if it does not overwrite an active branch |
| `RestoreFuture.AcceptedStaysSolvent` | splitchain/model.py:247-317 | after any calls that overwrite no active branch, a restored ledger with known commit rounds is solvent, keeps its supply, and every further advance succeeds |
| `Reload.AdvanceSettles` | splitchain/model.py:208-225 | the whole effect of an advance on head and balances, from any ledger: the commitments that come due are paid and chained in the order their rounds visit them |
| `Reload.DueOverIs` | splitchain/model.py:217-223 | what an advance pays is exactly the commitments whose three rounds are over when it ends |
| `Reload.ExecuteSettles` | splitchain/model.py:128-225 | the exact effect of any accepted call on head, history and balances |
| `Reload.StillReloadsIff` | splitchain/model.py:247-317 | after an accepted call an accepted state is still accepted if and only if the call overwrites no active branch, puts no block where a branch claims another one as its origin, and ends no payment to a genesis-locked account |
| `Reload.AcceptedReloads` | splitchain/model.py:247-317 | whatever is restored can be saved and restored again as it is |
| `Reload.AcceptedRunReloadsIff` | splitchain/model.py:247-317 | from any accepted snapshot with origins at or below its head and known commit rounds: after any calls that overwrite no active branch, the ledger's own snapshot is accepted if and only if no call ended a payment to a genesis-locked account, and then restores that very ledger |
| `Reload.OriginsMatter` | splitchain/model.py:305-306 | an accepted snapshot after which one registration makes the ledger's own snapshot unacceptable: a branch's origin lay above the head |
| `RestoreFuture.RoundsMatter` | splitchain/model.py:219-220 | an accepted snapshot on which every advance, however long, fails |
| `RestoreFuture.FreshIdsMatter` | splitchain/model.py:165-178 | an accepted snapshot on which the next offer breaks solvency |
| `Restore.AcceptedSenderCovered` | splitchain/model.py:300-317 | in an accepted snapshot each active branch's sender has a lock entry and twice the value |
| `Restore.ReserveKeptIffUntouched` | splitchain/model.py:291-292 | a locked account's balance equals its allocation exactly when no FINAL branch pays it |
| `RestoreLimits.RestoreCanRefuse` | splitchain/model.py:143-150 | a concrete run whose snapshot is refused: the reserve received a payment |
| `RestoreLimits.SparingRunsRestore` | splitchain/model.py:227-317 | runs that offer nothing to locked accounts always restore unchanged |
| `Failover.LiveStateRestores` | splitchain/failover.py:228-297 | every state that heartbeats, votes and certificates can produce passes the from-scratch validator and restores itself, less a waiting vote |
| `Failover.SubmitKeepsLive` | splitchain/failover.py:142-183 | a submitted vote, completing a certificate or not, leaves a state the validator accepts |
| `Failover.CertifiedByBothOthers` | splitchain/failover.py:260-297 | each certificate of an accepted chain holds exactly the two votes of the roles not accused, for its own position and at least the timeout after the previous one |
| `Failover.LeaderFollowsTerm` | splitchain/failover.py:133-215 | the leader is always the role of the term, which counts the certificates and never runs past the roles |
| `Failover.PeersConverge` | splitchain/failover.py:191-215 | a peer with the same chain, timeout and position that receives the new certificate reaches the same snapshot, whatever its heartbeat tick |
| `Heartbeats.BeatIff` | splitchain/failover.py:133-140 | a heartbeat counts exactly if it is the current leader's for the current term, with a later tick and no earlier position |
| `Heartbeats.HeartbeatProtects` | splitchain/failover.py:133-183 | after a heartbeat dated k and any further heartbeats, votes and certificates, every vote against that leader dated below k plus the timeout is refused |
| `Heartbeats.SubmitIff` | splitchain/failover.py:142-168 | a vote is taken exactly if its voter signed it, it accuses the current leader of the timeout in favour of the next role at the current position, the accused does not vote, and it neither contradicts the voter's waiting vote nor names another tick than the waiting one |
| `Certificates.CertificateIff` | splitchain/failover.py:260-297 | a certificate stands in a chain exactly if the two roles not accused signed the very same vote, at its own position, the timeout or more after the chain's last tick, under a genuine digest |
| `Certificates.AdoptIff` | splitchain/failover.py:191-215 | exactly the certificate a peer has already, or one that continues its chain at its own position, is taken, and what the peer then holds |
| `Certificates.AcceptedIffReached` | splitchain/failover.py:228-297 | the from-scratch validator accepts precisely the snapshots of the states that heartbeats, votes and certificates lead to, with the committed position moved on since |
| `LeadershipObject.LeadershipState.constructor` | splitchain/failover.py:121-131 | starts in term zero under the primary |
| `LeadershipObject.LeadershipState.Heartbeat` | splitchain/failover.py:133-140 | moves as specified, exactly under the conditions of `BeatIff`; a regress or a foreign leader leaves the state alone |
| `LeadershipObject.LeadershipState.Submit` | splitchain/failover.py:142-183 | stores a vote or completes a certificate in voter order, as specified; refusals change nothing |
| `LeadershipObject.LeadershipState.AcceptCertificate` | splitchain/failover.py:191-215 | adopts exactly the next valid certificate at the local position |
| `LeadershipObject.LeadershipState.CheckChain` | splitchain/failover.py:260-297 | the loop carrying tick, nonce and leader accepts exactly the chains that are valid as a whole |
| `LeadershipObject.LeadershipState.Restored` | splitchain/failover.py:228-297 | succeeds exactly on valid snapshots and then yields that state |
| `NodeInvariants.TrialPredictsApply` | splitchain/node.py:488-518 | a mutation that passed the dry run on the restored copy cannot fail at commit and gives the very ledger the dry run computed; the dry run fails otherwise only because the copy is refused |
| `NodeInvariants.PendingApplies` | splitchain/node.py:506-518 | a saved pending record can always be committed |
| `NodeInvariants.ApplyRecords` | splitchain/auth.py:34-54 | an authenticated mutation needs a nonce above the actor's last and records it |
| `Authority.ApplyIff` | splitchain/node.py:256-313 | under a registry a mutation is applied if and only if the account it speaks for (the sender of an offer or commitment, the receiver of an acceptance, the canceller, the operator for time and registrations) signed exactly this request with a nonce above its last, and the ledger takes the call |
| `Authority.EveryEntryIsAuthorised` | splitchain/node.py:256-313 | in every run every entry of every node's log is signed by the account it speaks for, so every offer by the account it debits |
| `Authority.NothingMovesUnsigned` | splitchain/node.py:256-313 | in every run, behind every branch on every node's ledger the node's log has its sender's signed offer, for an accepted one its receiver's signed acceptance, for a committed or final one its sender's signed commitment to this payload |
| `Authority.DebitNeedsSignature` | splitchain/node.py:256-313 | on any node an account has less than at the start only if its own signed commitment is in the log |
| `NodeInvariants.NoncesIncrease` | splitchain/auth.py:34-54 | along one log each actor's nonces strictly increase, so no signed request runs twice |
| `NodeInvariants.SignerInTerm` | splitchain/node.py:134-138 | the signer the constructor infers at the end of a log is the leader of the certified term |
| `NodeInvariants.AppendKeeps` | splitchain/node.py:506-518 | appending a decided entry keeps ledger, nonces, log, position and leadership in step |
| `NodeInvariants.CertificateKeeps` | splitchain/node.py:464-476 | adopting a certificate at the replica's position, equal positions included, keeps every inferred signer |
| `NodeInvariants.CheckLogPasses` | splitchain/node.py:130-140 | the constructor's loop accepts a sound log from any starting entry |
| `NodeInvariants.RestartExact` | splitchain/node.py:96-140 | a sound replica's record passes every constructor check and reloads that replica if and only if no payment to a genesis-locked account has been finalised |
| `NodeCalls.RestartIff` | splitchain/node.py:96-140 | a saved record, sound or not, is accepted exactly if its ledger is, its nonces are not negative, its leadership is valid and at the committed position, and its log ends there: numbered without a gap, every entry sealed by the leader of its time; the node then is what the record says |
| `NodeCalls.ExpectedSignerIs` | splitchain/node.py:134-138 | the leader of a position is the last one certified at or before it, or the first leader |
| `NodeCalls.PrepareIff` | splitchain/node.py:488-504 | a follower prepares exactly an envelope sealed by the current leader beyond its position, if it passes the dry run and nothing else is prepared |
| `NodeCalls.CommitIff` | splitchain/node.py:506-518 | a follower commits exactly what it has prepared, from the current leader, and every field of the replica it leaves |
| `NodeCalls.RecordIff` | splitchain/node.py:464-476 | a certificate is recorded exactly if it is the last one again, or continues the chain at the replica's own position; whatever was prepared is then dropped |
| `NodeObject.ReferenceNode.constructor` | splitchain/node.py:61-95 | a node without a record is the fresh replica |
| `NodeObject.ReferenceNode.Save` | splitchain/node.py:315-325 | the durable record is the current state |
| `NodeObject.ReferenceNode.ApplyMutation` | splitchain/node.py:288-313 | authorise if there is a registry, execute and record the nonce: all of it, exactly under the conditions of `Authority.ApplyIff`, or none of it |
| `NodeObject.ReferenceNode.TryMutation` | splitchain/node.py:534-541 | the dry run leaves the ledger object and its contents as they were, and succeeds exactly when specified |
| `NodeObject.ReferenceNode.PrepareReplica` | splitchain/node.py:488-504 | saves before it acknowledges; repeats are idempotent; a different pending record is kept |
| `NodeObject.ReferenceNode.CommitReplica` | splitchain/node.py:506-518 | commits only the prepared envelope, and saves the whole new state |
| `NodeObject.ReferenceNode.AbortReplica` | splitchain/node.py:520-527 | drops only the matching pending record, and saves |
| `NodeObject.ReferenceNode.BeginReplication` | splitchain/node.py:534-549 | drops a stale record, tries the mutation, signs the next position and saves before anything is sent |
| `NodeObject.ReferenceNode.FinishReplication` | splitchain/node.py:550-567 | without an acknowledgement nothing is committed; with one the entry is committed and saved |
| `NodeObject.ReferenceNode.RecordLeadershipCertificate` | splitchain/node.py:464-476 | adopts only at its own position, drops its pending record and saves |
| `NodeObject.ReferenceNode.ReceiveHeartbeat` | splitchain/node.py:333-345 | accepted only with its signer's seal and at the replica's own position; saved when it changes anything |
| `NodeObject.ReferenceNode.ReceiveTimeoutVote` | splitchain/node.py:347-380 | the witness votes only from a clean replica at the candidate's position with the candidate's ledger |
| `NodeInvariants.CatchUpExact` | splitchain/node.py:611-640 | a replica takes a batch that follows its own log if and only if it is not the leader, has nothing else pending, and each entry is signed by the current leader and passes its dry run after those before it; it then holds its log extended by just those entries, the state they replay to, and nothing pending |
| `NodeObject.ReferenceNode.TakeHistory` | splitchain/node.py:631-639 | the loop prepares and commits a peer's entries one by one and stops at the first that does not fit |
| `NodeObject.ReferenceNode.BeatAsLeader` | splitchain/node.py:405-412 | dates a new tick and saves it, or is refused when the node has just been fenced; returns the signed heartbeat and the last certificate to announce |
| `NodeObject.ReferenceNode.CallForVotes` | splitchain/node.py:423-430 | only the next role in order asks, only after the timeout, and it asks the third role; of the nodes at the same clean position, the one asked is the one whose answer elects it |
| `Election.ElectsIff` | splitchain/node.py:347-462 | between two nodes at the same clean position the votes certify the candidate and both nodes take the certificate if and only if the candidate is the successor, the other is the third role, both have missed the leader for the timeout, and their clocks agree to within a tick |
| `Heartbeats.ReceiveHeartbeatIff` | splitchain/node.py:333-345 | a replica takes exactly a sealed heartbeat of its own position, a new one of its leader or a repeat of the last tick |
| `Heartbeats.LeaderBeatIff` | splitchain/node.py:405-412 | a leader dates every later tick, and a node that no longer leads none |
| `Heartbeats.AnnouncedIsTaken` | splitchain/node.py:333-420 | what a leader announces, every follower of its term at its position takes |
| `Heartbeats.TimeoutVoteIff` | splitchain/node.py:347-380 | the witness answers exactly the successor's own signed vote against the silent leader, dated within a tick of its own clock, at its own clean position and ledger, and the answer is its own signature on the same vote |
| `Heartbeats.LeaderIsProtected` | splitchain/node.py:333-462 | over any run, crashes included: a node that heard its leader at some tick never answers or takes a vote against that leader dated less than the timeout after it |
| `NodeObject.ReferenceNode.SignOwnVote` | splitchain/node.py:442-445 | the vote names the node's own term, leader and position at the moment of signing |
| `NodeObject.ReferenceNode.TryCertificate` | splitchain/node.py:451-457 | a certificate is completed on a restored copy and the node's own state is untouched |
| `NodeObject.ReferenceNode.VerifyLog` | splitchain/node.py:130-140 | the nested loops that infer each entry's signer compute the recursive specification |
| `NodeObject.ReferenceNode.Restarted` | splitchain/node.py:96-140 | succeeds exactly when the specification does and then holds that state |
| `Spine.FollowsLeader` | splitchain/node.py:593-674 | a log is a prefix of the log of its own term's leader |
| `Spine.AppendKeepsSpine` | splitchain/node.py:506-518 | extending one log by its signer's next entry keeps every agreement between logs and chains |
| `Spine.AdoptKeepsSpine` | splitchain/node.py:412-417 | adoption in the order witness, candidate, accused keeps one certificate and one log prefix per term |
| `Spine.FencedLast` | splitchain/node.py:412-417 | a fenced leader is the last to leave its term |
| `Spine.TwoCopiesSurvive` | splitchain/node.py:569-576 | an entry in its leader's log and one other survives every later crossing at its index |
| `ClusterSafety.DecideKeeps` | splitchain/node.py:550-567 | one acknowledged prepare lets the leader commit without breaking the cluster invariant, also when it has just been fenced |
| `ClusterSafety.CertificateStepKeeps` | splitchain/node.py:464-476 | a delivered certificate, however old, keeps the cluster invariant |
| `ClusterSafety.RecoverKeeps` | splitchain/node.py:395-462 | a candidate that records a certificate after the witness holds it keeps the cluster invariant |
| `ClusterTheorems.NextKeeps` | splitchain/node.py:333-687 | every one of the cluster's steps keeps the cluster invariant |
| `ClusterTheorems.RunIsOk` | splitchain/node.py:333-687 | the cluster invariant holds after every interleaving of steps |
| `ClusterTheorems.AcknowledgedDurable` | splitchain/node.py:529-577 | once a client was told an entry succeeded, in every continuation it is at its index in the log of every node certified leader for the same or a later term |
| `ClusterTheorems.SuccessesNeverConflict` | splitchain/node.py:529-577 | clients are never told of two different entries at one index, whichever leaders told them |
| `ClusterTheorems.PrefixLogs` | splitchain/node.py:593-674 | in every reachable state entry k carries number k+1, and each log is a prefix of the log of its own term's leader |
| `ClusterTheorems.CrossingAgreement` | splitchain/node.py:347-380 | all nodes that adopt a term do so with the same certificate, at the same position, with identical logs and replayed state |
| `ClusterTheorems.SamePositionSameState` | splitchain/node.py:330-331 | two nodes in one term at one position hold the same log, ledger and nonce table |
| `ClusterTheorems.StateIsReplay` | splitchain/node.py:288-313 | a node's ledger and nonce table are the replay of its log, no signed request runs twice along it, and a saved prepare can always be committed |
| `ClusterTheorems.RestartAccepted` | splitchain/node.py:96-140 | at any point of any run a node's saved record reloads that node, unless a payment to a genesis-locked account has been finalised |
| `ClusterRefusals.RefusedNeverCommitted` | splitchain/node.py:553-560 | a proposal withdrawn for want of an acknowledgement is in no node's log in any continuation in which the same request is not submitted to that leader again |
| `ClusterTails.DroppedEntriesAreStaleTails` | splitchain/node.py:569-576 | an entry that a later certified leader does not have at its index is in no log but its signer's, and that signer does not yet know it was replaced |
| `ClusterWitness.CanSucceed` | splitchain/node.py:529-577 | any request that passes the dry run on the initial ledger is acknowledged in some run |
| `ClusterWitness.CanFailOver` | splitchain/node.py:395-462 | in some run such a request is acknowledged and its entry is then in the log of the leader certified for the next term |
| `ClusterRegistration.RegistrationClosedIff` | splitchain/node.py:288-313 | in every run every acknowledged registration is the operator's if and only if the cluster has a credential registry; without one, some run acknowledges an unsigned registration of any free account |
| `ClusterRefusals.WithdrawnStays` | splitchain/node.py:553-560 | no step, however delayed its message, brings a withdrawn envelope back |
| `Distribution.PlanForIsSound` | splitchain/distributor.py:76-93 | a plan is refused exactly for its prefix, count or amount; its recipients are distinct, registrable and numbered from one, and its total is count times amount within the allocation |
| `Resumption.BlockedIff` | splitchain/distributor.py:312-317 | a turn leaves the journal alone, sends nothing and funds nothing under every report if and only if an operation for another recipient is unresolved |
| `Resumption.OthersChangeNothing` | splitchain/distributor.py:312-317 | over any steps, while every turn is for a recipient other than the unresolved one, neither the journal nor what was sent ever changes |
| `Resumption.RestartStaysStopped` | splitchain/distributor.py:378-381 | a distribution whose unresolved operation is for a later recipient never gets past the first one, however often it is restarted and whatever the status says |
| `Resumption.RestartCanMoveIff` | splitchain/distributor.py:378-381 | there is a report, true or not, on which a restart does something, exactly when nothing beyond the first recipient is unresolved |
| `TrueReports.TrueTurnMovesIff` | splitchain/distributor.py:300-375 | in any state of the journal that keeps the invariants and knows only real branches, a true report lets a recipient's turn do something exactly under the conditions of `RestartMovesIff` |
| `TrueReports.TrueReportIsClear` | splitchain/distributor.py:300-310 | where nobody else pays the recipient from the faucet, a true report shows the plan's one branch or none, and is never refused as contradictory |
| `TrueReports.RestartMovesIff` | splitchain/distributor.py:353-381 | at every point of every run with true reports, the first turn of a restart does something exactly when nothing is under way and the payment may proceed, or the first recipient's offer was applied, or its branch has reached what the pending call asks for |
| `TrueReports.RefusedOfferIsFinal` | splitchain/distributor.py:312-351 | once a crash keeps an offer's refusal from being heard, with true reports every later turn for its recipient stops and nothing is ever sent again |
| `Turns.BranchInIff` | splitchain/distributor.py:300-310 | a report gives the recipient's branch exactly if it has one faucet branch for it, of the plan's amount and the known one, and none exactly if it has none and none is known |
| `Turns.TurnExact` | splitchain/distributor.py:353-375 | with nothing under way, on any report: funded exactly when the one fitting branch is committed or final, an acceptance sent exactly on an offered one, a commitment exactly on an accepted one, an offer exactly when there is none and both balance tests pass; otherwise nothing happens |
| `Turns.PendingTurnExact` | splitchain/distributor.py:312-328 | with something under way, on any report: the turn goes on exactly if it is the recipient's and the report shows that it happened |
| `Turns.PaidRunPasses` | splitchain/distributor.py:353-381 | once every recipient's payment is committed or final, with true reports and turns in run order every turn passes its recipient and no request is ever sent, over any steps, crashes and restarts included |
| `ResumeWitness.FirstIsPaid` | splitchain/distributor.py:353-375 | a fault-free run with true reports offers, accepts and commits the first recipient's payment |
| `ResumeWitness.CrashLeavesSecondUnresolved` | splitchain/distributor.py:330-351 | a two-recipient state, reached with true reports, in which a crash left the second recipient's offer unresolved |
| `ResumeWitness.LostOfferStops` | splitchain/distributor.py:323-338 | a state, reached with true reports, in which only the first recipient's own offer is unresolved and its turn stops whatever the clock says |
| `ResumeWitness.RefusedOfferReached` | splitchain/distributor.py:338-345 | the state that `RefusedOfferIsFinal` speaks of is reachable with true reports |
| `Distribution.ReconcileIs` | splitchain/distributor.py:312-328 | an operation is cleared only together with recording the branch that shows it happened |
| `Distribution.TurnIs` | splitchain/distributor.py:353-375 | a turn sends at most one request, reserved in the journal first, and an offer only to a recipient with no known branch and nothing under way |
| `Distribution.NextKeepsWorld` | splitchain/distributor.py:300-376 | every step of the world keeps the journal, nonce, offer and branch invariants |
| `Distribution.NeverPaysTwice` | splitchain/distributor.py:300-376 | over any crashes, lost or late answers and arbitrary status reports, the plan creates at most one branch for a recipient |
| `Distribution.NeverOverspends` | splitchain/distributor.py:300-376 | the values of the branches the plan created come to one amount per paid recipient and never exceed the plan's total |
| `Distribution.NoncesStrictlyIncrease` | splitchain/distributor.py:330-337 | each actor's nonces strictly increase across restarts and a clock set back |
| `DistributorObject.Distributor.Open` | splitchain/distributor.py:171-193 | opens exactly when plan and state have the schema, the plan is for the pinned genesis, the pace is within bounds, the state is for this plan, and every recipient's draft is well formed and carries the credential on record |
| `DistributorObject.DraftRoundTrip` | splitchain/distributor.py:107-123 | a written draft gives its credential back to its own account exactly when that is 64 lower-case hexadecimal digits, and to nobody else |
| `DistributorObject.Distributor.constructor` | splitchain/distributor.py:184-186 | starts from the saved journal, or an empty one |
| `DistributorObject.Distributor.Branch` | splitchain/distributor.py:300-310 | scans the report and returns the recipient's one branch, or refuses on several, a different value or a missing known branch |
| `DistributorObject.Distributor.ReconcileStatus` | splitchain/distributor.py:312-328 | clears and saves exactly when specified; a refusal changes nothing |
| `DistributorObject.Distributor.BeginMutation` | splitchain/distributor.py:330-337 | nonce and operation are saved before the request exists |
| `DistributorObject.Distributor.FinishMutation` | splitchain/distributor.py:338-351 | only success or INVALID_REQUEST clears the operation, and that is saved; any other answer leaves it under way |
| `DistributorObject.Distributor.FundPass` | splitchain/distributor.py:353-375 | one pass of the funding loop takes the specified turn, which `TurnExact` and `PendingTurnExact` spell out, with memory and disk equal |
| `Olc.RunKeeps` | splitchain/olc_gateway.py:110-219 | every job of every run of a fresh store has its roster, its votes signed under it for this very job, and the state its votes give |
| `Olc.StoreAndCheckerAgree` | splitchain/olc_receipts.py:12-77 | for every run of a fresh store, key rotation included, the checker accepts the published receipts exactly when the caller's pins match, and counts exactly the published jobs that reached the quorum |
| `OlcSoundness.AcceptedIff` | splitchain/olc_receipts.py:12-77 | over every document, whoever wrote it: it is accepted exactly if it matches the caller's pins, every vote in it is sealed by a voter of the roster over this very job, node and result, and every state is the one those votes give; exactly the receipts in which two different voters sealed the expected result, or the old verifier its verdict, are counted as verified |
| `OlcSoundness.ForgedVoteIsRefused` | splitchain/olc_receipts.py:31-44 | one vote for another job, node or result, or without its voter's seal, makes the checker refuse the document |
| `Olc.OneLeasePerWorker` | splitchain/olc_gateway.py:121-133 | a worker never holds two leases, expired ones included, whatever the clock does |
| `Olc.VerdictIsFinal` | splitchain/olc_gateway.py:135-219 | no call changes anything about a verified, disputed or rejected job |
| `Olc.VerdictsOutlastTheRun` | splitchain/olc_gateway.py:135-219 | a decided job is the same at every later point of a run |
| `Olc.VotesStay` | splitchain/olc_gateway.py:203-213 | a recorded vote is never replaced or removed |
| `Olc.OfferedJobTakesVote` | splitchain/olc_gateway.py:174-201 | the job handed to a verifier accepts that verifier's signed vote, either way, and tallies it |
| `OlcCalls.LeaseExact` | splitchain/olc_gateway.py:121-133 | a worker with a running lease or no available job gets nothing; otherwise the first available job is leased for two minutes |
| `OlcCalls.ResultIff` | splitchain/olc_gateway.py:135-153 | exactly the job's own worker reports a result, the first while the lease runs and repeats of it later; only the expected digest goes to the verifiers |
| `OlcCalls.AttestIff` | splitchain/olc_gateway.py:185-219 | a vote is taken exactly if it states the job as it is under the voter's key of the job's own roster, which is still configured, and is new while the quorum is awaited or a repeat; two approvals verify the job and two denials dispute it |
| `OlcCalls.AwaitsIff` | splitchain/olc_gateway.py:174-183 | a verifier is offered exactly the jobs on which its own new vote, either way, would be recorded |
| `OlcObject.CountVotes` | splitchain/olc_gateway.py:209-213 | the loop counts exactly the attestations for and against |
| `OlcObject.CheckQuorumReceipt` | splitchain/olc_receipts.py:23-61 | the loop over attestations accepts exactly the receipts whose every vote and state check, in the sense that `AcceptedIff` spells out |
| `OlcObject.Verify` | splitchain/olc_receipts.py:12-77 | the counting loop computes the specified check and stops at the first bad receipt |
| `OlcObject.JobStore.constructor` | splitchain/olc_gateway.py:68-74 | starts empty or with the saved jobs, under the configured keys |
| `OlcObject.JobStore.EnqueueJob` | splitchain/olc_gateway.py:110-119 | refused without three keys; otherwise adds a queued job with the current roster |
| `OlcObject.JobStore.LeaseJob` | splitchain/olc_gateway.py:121-133 | the two scans lease the first free or overdue job exactly when no lease is running |
| `OlcObject.JobStore.SubmitResult` | splitchain/olc_gateway.py:135-153 | refuses a malformed digest, completes a leased job, repeats a known result, and otherwise changes nothing |
| `OlcObject.JobStore.AddAttestation` | splitchain/olc_gateway.py:185-219 | records a matching signed vote and tallies it, repeats are idempotent, refusals change nothing; returns the state and the approvals so far |
| `OlcObject.JobStore.NextForVerifier` | splitchain/olc_gateway.py:174-183 | the first job still waiting for this verifier, if any |
| `OlcObject.JobStore.Receipts` | splitchain/olc_gateway.py:159-172 | publishes the last twenty jobs |
| `Quorum.ApprovalsIntersect` | splitchain/membership.py:33-34 | two approving sets share at least a third of the validators |
| `Quorum.ApprovesIff` | splitchain/membership.py:29-49 | approval means two thirds of the validators, and in a transition two thirds of the old and of the new |
| `Quorum.JointIntersectsBoth` | splitchain/membership.py:38-49 | a joint approval shares a third with every old and every new quorum |
| `Finality.AcknowledgeKeeps` | splitchain/finality.py:92-131 | closed rounds hold a quorum of sealed votes for this candidate, the open one does not yet, later ones are empty |
| `Finality.AcknowledgeIff` | splitchain/finality.py:92-131 | a vote is acknowledged exactly if it is the certified, assigned observer's own sealed vote for the open round of this candidate and not its second; two thirds of the observers open the next round, or after the third finalise |
| `Finality.QuarantineIff` | splitchain/finality.py:107-124 | an observer is quarantined exactly for voting another candidate, or twice in a round |
| `Finality.FinalIffThreeQuorums` | splitchain/finality.py:92-131 | after any calls, finalised means exactly that all three rounds reached the quorum |
| `Finality.ConflictNeedsAThird` | splitchain/finality.py:88-131 | if two runs over the same observers finalise different candidates, in each round at least a third of the observers sealed a vote for both |
| `Finality.ThreeRoundFinality.constructor` | splitchain/finality.py:68-86 | starts in round one with no votes |
| `Finality.ThreeRoundFinality.Acknowledge` | splitchain/finality.py:92-131 | moves as specified; an equivocation or a conflicting candidate quarantines its observer and stores nothing |
| `CanonicalJson.Canonical` | android-wallet/app/src/main/java/net/splitchain/wallet/Protocol.java:19-46 | the recursive loops compute the canonical text with keys in unit order, or refuse exactly the values that contain an unsupported one or an integer beyond 64 bits |
| `CanonicalJson.Quote` | android-wallet/app/src/main/java/net/splitchain/wallet/Protocol.java:49-67 | the loop quotes and escapes every character as specified |
| `CanonicalJson.SortKeys` | android-wallet/app/src/main/java/net/splitchain/wallet/Protocol.java:22-25 | the unique ascending list of the object's keys |
| `CanonicalJson.Hex` | android-wallet/app/src/main/java/net/splitchain/wallet/Protocol.java:69-77 | the array loop writes the two digits of each signed byte |
| `CanonicalJson.UnhexHex` | android-wallet/app/src/main/java/net/splitchain/wallet/Protocol.java:69-77 | hexadecimal text determines its bytes: decoding it gives them back |
| `CanonicalJson.ParseWritten` | android-wallet/app/src/main/java/net/splitchain/wallet/Protocol.java:19-67 | a parser reads back any written document inside any context and leaves what follows untouched |
| `CanonicalJson.ParseEscaped` | android-wallet/app/src/main/java/net/splitchain/wallet/Protocol.java:49-67 | an escaped string ends at its own closing quote and unescapes to itself |
| `CanonicalJson.DecodeEncode` | splitchain/model.py:58-70 | decoding the canonical text of any value, in either key order, gives the value back |
| `CanonicalJson.EncodeInjective` | splitchain/model.py:58-70 | two values have the same canonical text exactly when they are equal |
| `CanonicalJson.PreimageInjective` | splitchain/model.py:73-78 | hash inputs never collide across domains or values |
| `CanonicalJson.WalletMatchesServerIff` | android-wallet/app/src/main/java/net/splitchain/wallet/Protocol.java:18-45 | on values with a canonical form, the wallet's text equals the server's if and only if all text is proper Unicode, no object has two keys that straddle the surrogate range, and every integer fits 64 bits |
| `CanonicalJson.WalletCanMismatch` | android-wallet/app/src/main/java/net/splitchain/wallet/Protocol.java:18-30 | an object on which the two differ |
| `CanonicalSample.SampleText` | splitchain/model.py:58-70 | one document with every kind of value, written out unit by unit, in either key order |
| `Utf16.OrdersAgreeIff` | android-wallet/app/src/main/java/net/splitchain/wallet/Protocol.java:25 | unit order and code-point order agree on two strings exactly when they do not straddle |

## Left out

- Cryptography: SHA-256, HMAC and Ed25519 are constructor terms, so equal digests have equal preimages and a signature verifies only under its key and content; branch ids are assumed not to collide when shortened to 16 digits.
- Persistence: a save happens whole or the process stops; file formats, fsync, renaming and disk failure are not modelled, and saved JSON is taken as already parsed.
- Transport: WebSocket, HTTP, TLS, time-outs and rate limits appear only as messages that may be late, repeated or lost.
- Liveness: the code halts on purpose in several cases, so only safety is stated.
- COMMIT_UNCERTAIN entries: whether such an entry survives is not decided; `ClusterTails.DroppedEntriesAreStaleTails` says where it can be left behind.
- `ecosystem.demo` and unauthenticated direct ledger calls on a cluster node record nonces or change the ledger outside the log; they are assumed not to be made, and the credential registry is fixed for a deployment.
- Roles other than the three ordered ones, extra peers and runtime membership changes are not represented.
- Branch: branches are values inside the ledger's sequence, so a caller holding a returned branch does not see later updates to it.
- Restored: refusals of documents with missing or wrongly typed fields are not modelled, as saved JSON is taken as already parsed.
- Offer: arguments of the wrong JSON type, and the checks on names in a genesis document beyond being nonempty, are not modelled; integers are unbounded in the source too.
- FundPass: the loop of four passes and `run` are not methods, because each pass waits for the network; the step relation `Distribution.Next` takes passes in any order instead.
- NeverPaysTwice: takes two things about the cluster for granted in `Distribution.Next`: INVALID_REQUEST means the request is never applied (`ClusterRefusals.RefusedNeverCommitted`, together with refusals before anything is signed), and a signed request is applied at most once (`NodeInvariants.NoncesIncrease`, `ClusterTheorems.StateIsReplay`). One distributor per plan is assumed, as its lock file enforces.
- CallForVotes: the talks with peers between the tests and the signature (reconciling with the witness, recovering its certificate) are steps of the cluster and not part of the method.
- DroppedEntriesAreStaleTails: does not say when a stale leader learns of its replacement.
- Run: an advance that fails on a commit without a round counts as a refused call; in the source the rounds settled before the failure stay, as they do in `LedgerModel.TryAdvance` and `Ledger.Advance`.
- Settle: where a lock or balance entry is missing the source fails; the value-level functions read it as zero, and the methods of the ledger object require the entry. No restored or reachable ledger lacks one (`RestoreFuture.FundedAdvancesIff`).
- failover_step: its parts are methods of the node object (beating as leader, calling for votes, completing and recording a certificate) and steps of the cluster, but not one method, because each waits for the network; so are the peer loops `_sync_history`, `_sync_from_peer` and `_reconcile_with_witness`.
- OneLeasePerWorker: job ids are random in the source and assumed not to repeat.
- Acknowledge: votes of quarantined observers are not excluded, because the source never consults the quarantine.
- Canonical: strings are UTF-16 text; the later conversion to UTF-8 bytes, which replaces unpaired surrogates, and floating-point values are outside the model.
- Worker heartbeats, public worker lists, bearer tokens, the HTTP handler and private SMS drafts of the OLC gateway, and file permissions, are out: no job, vote, payment or verdict depends on them beyond the checks that are modelled.
- `recovery.py`, `truelies.py`, `distops.py`, `services.py`, `network.py`, `transport.py`, gateways, status pages, CLI and Android screens are short guards or plumbing and are not part of this model.
