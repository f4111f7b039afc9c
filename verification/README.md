# quintet: a verified model of its Raft

The repository implements Raft in memory: servers keep a log of client operations, elect a leader per
term, replicate the leader's log, commit what a majority stores and hand it to the application in order.
This project models that protocol, handler by handler, and proves what it is for: every server applies the
same operations in the same order, and a client's call is applied at most once.

Run `dafny verify dfyconfig.toml` to check everything.

## How the model is laid out

| files | what they hold |
|---|---|
| `RaftDefs`, `Handlers`, `LeaderState`, `Replication` | log entries, messages and server state; each handler as a function of the state; the leader's tables, count loop and back-off; what one merge does to a log |
| `IdentityBase`, `IdentityRoles`, `RaftServer` | the source's classes, fields updated in place, loops with invariants; every method is proved to do what the function of the same step says |
| `Leadership`, `Snapshots` | one leadership exactly as the source is written: loss, delay, repeats and reordering of calls and answers, and a round that backs off |
| `Cluster` | n servers and a network as a transition system: one handler call, one client request, one timeout or one answered call is one step |
| `History`, `Invariant`, `Stability`, `Actions`, `Elections`, `Appends`, `Steps`, `Rounds`, `Counting`, `Runs` | the inductive invariant of whole runs and the proof that every step keeps it |
| `Safety`, `Origins` | what never goes wrong, over every run; where entries come from |
| `Figure2`, `Electable`, `Delivery` | what each call must answer, said without the handlers; who can be elected; and what gets through over every run: commits are applied, followers catch up, old leaders yield, requests are logged |
| `Deviations`, `OneVote` | where the source departs from what it documents, and exactly when that matters |
| `Paths`, `OldTermCommit`, `Standstill` | runs of any number of servers built step by step: how old an entry a leader may commit, and when a cluster stops electing for good |
| `EventQueue`, `Interface`, `VectorFile` | the queue that orders applies, the client's promises, the vector kept in a file |

## What is assumed, and why

* **The term rule.** `checkRpcTerm` is documented as "if a call carries a larger term, adopt it and become
  a follower" (include/quintet/raft/identity/IdentityBaseImpl.h:30), but src/raft/identity/IdentityBaseImpl.cpp:161
  compares the other way and lowers the term. Every handler takes the rule as a parameter. `Leadership` and
  `Snapshots` use the source as written, where the rule never fires. `Cluster` uses the documented rule;
  `Deviations` states for every state and message when the two agree. As written a server can vote twice in
  a term; `OneVote` proves that it does not as long as no call lowers its receiver's term, and exactly what
  breaks this. Whether a vote is cleared when a larger term is adopted is left open: each
  delivery decides freely, so the proofs hold for both.
* **Counting.** The count loop runs to the end of the leader's log, not to what the follower confirmed
  (src/raft/identity/IdentityLeader.cpp:242). `CommitsOnMajority` asks of a commit step that the index it commits
  be, by the leader's own tables, on a majority. What one round commits, whatever it confirmed, is so if and
  only if one more count would not carry the first index it did not confirm over half the list
  (`LeaderState.CommitHeldIff`, over whole leaderships `Leadership.MajorityIff`); `Deviations.OvercountCommits`
  is a run where it does, and an entry is applied that no other server stores. Runs with *exact counts* are
  those where nothing was added to the log between a snapshot and its counting (`CountsWholeLog`); they are
  the runs whose counters stay exact (`LeaderState.CountsStayExactIff`), and all they commit is held by a majority
  (`Safety.ExactCommitsHeld`).
* **Entries of older terms.** The commit rule does not ask that the entry be of the current term
  (src/raft/identity/IdentityLeader.cpp:250-258), section 5.4.2 of the Raft paper (Ongaro and Ousterhout, "In
  Search of an Understandable Consensus Algorithm (Extended Version)") does. That is more than safety needs:
  an entry of the term before, which is what this source commits right after a failover, does no harm.
  `CommitsRecent` asks of a commit step that its entry be at most a given number of terms older than the
  leader's term. With that number at one, State Machine Safety holds at every cluster size; with any greater
  one it fails from three servers on, exact counts or not (`OldTermCommit.OldTermsSafeIff`). The failing run two
  terms back stops and starts two leaders; `OldTermCommit.UnstoppedDiverges` goes three terms back without a
  stop.
* A run whose commits are on a majority and, from three servers on, at most one term back is called *guarded*.
  Only guarantees about what is committed or applied need a guarded run. Election Safety, Log Matching,
  validity, at-most-once logging and the role gate hold of every run. `OldTermCommit.GuardedRunCommits` shows
  that guarded runs commit.
* Handlers run one at a time (src/raft/service/rpc/RpcService.cpp:111, 121, 131). An accepted notification
  and the transformation it queues are one step. A round to a follower holds that follower's lock
  (src/raft/identity/IdentityLeader.cpp:172), so an answer is counted only while `nextIdx` is what its call
  was built from.
* Leaving a candidacy cancels its requests (src/raft/identity/IdentityCandidate.cpp:136-146), so a candidate
  hears only answers to the calls of its current candidacy.
* The network never forgets a packet and may deliver it at any time, again, or never.
* All servers share one duplicate-free list; a server is named by its position in it.
* A server may be stopped and started again, which the source never does; the proofs cover it.

Two things a reader may miss in the source: the initial entry takes part in the duplicate scan of `addLog`
with the null server id, so it never matches a client call; and a candidate ignores a refusal that carries
a larger term (src/raft/identity/IdentityCandidate.cpp:186-187).

## Model

| member | source | states |
|---|---|---|
| IdentityBase.ServerState.constructor | include/quintet/raft/ServerState.h:15-24 | a server starts in term 0, without a vote, with the one initial entry, nothing committed or applied |
| IdentityBase.ServerState.CheckTerm | src/raft/identity/IdentityBaseImpl.cpp:159-174 | the term moves as the chosen rule says, and a non-follower whose term moved asks to become a follower |
| IdentityBase.ServerState.ApplyReadyEntries | src/raft/identity/IdentityBaseImpl.cpp:176-197 | exactly the entries after lastApplied up to commitIdx are handed over, in order, nothing committed that the log holds is left over, and nothing else changes |
| IdentityBase.ServerState.VoteUnderTerm | src/raft/identity/IdentityBaseImpl.cpp:40-84 | new term and vote, reply and notification in each of the four cases of a vote call |
| IdentityBase.ServerState.RequestVote | src/raft/identity/IdentityBaseImpl.cpp:27-85 | the whole new state, the reply and all notifications of a vote call; the reply carries the server's term, and a grant leaves the vote with the candidate |
| Handlers.MatchFrom | src/raft/identity/IdentityBaseImpl.cpp:123-128 | the matching stretch: equal terms all along it, and at its end a conflict, the end of the log or the end of the call |
| IdentityBase.ServerState.MergeEntries | src/raft/identity/IdentityBaseImpl.cpp:121-140 | the merge loop with its truncation leaves the log that the merge function describes |
| IdentityBase.ServerState.AppendUnderTerm | src/raft/identity/IdentityBaseImpl.cpp:92-156 | consistency check, merge and commit update of an append call, with both refusals |
| IdentityBase.ServerState.AppendEntries | src/raft/identity/IdentityFollower.cpp:80-96 | an append call at a follower, a candidate or a leader: guard, step-down, shared handler, deferred apply; the reply carries the server's term |
| Handlers.ApplyReadyOk | src/raft/identity/IdentityBaseImpl.cpp:186-195 | if what was applied is entries 1..lastApplied, it is so again after an apply |
| Figure2.ApplyCatchesUp | src/raft/identity/IdentityBaseImpl.cpp:176-197 | after an apply nothing committed that the log holds is unapplied; if what was applied was a prefix, it is now entries 1..commitIdx |
| Figure2.VoteRule | src/raft/identity/IdentityBaseImpl.cpp:27-85 | under the documented term rule: the answer carries the larger term, and the vote is granted if and only if the call is not stale, the vote is free or already the candidate's, and the candidate's log has a later last term or the same and no smaller length; the new term, vote and notifications |
| Figure2.VoteAsWritten | src/raft/identity/IdentityBaseImpl.cpp:27-85 | as written: any vote call leaves its receiver in the call's term, and one of a larger term is granted whatever the logs are |
| Figure2.AppendRule | src/raft/identity/IdentityBaseImpl.cpp:87-157 | under the documented term rule: the answer carries the larger term, acceptance exactly if the call is not stale and the entry before it fits, the log changed from the first conflict on, the commit index, the notifications; a refusal changes neither log nor commit index |
| Electable.OneAccepts | src/raft/identity/IdentityBaseImpl.cpp:8-14 | of any two logs one is acceptable to the holder of the other, and both are if and only if last terms and lengths are equal |
| Electable.AcceptedTrans | src/raft/identity/IdentityBaseImpl.cpp:8-14 | acceptance is transitive |
| Electable.LongerAccepted | src/raft/identity/IdentityBaseImpl.cpp:8-14 | a candidate whose log extends the voter's is acceptable |
| Electable.SomeoneElectable | src/raft/identity/IdentityBaseImpl.cpp:53-80 | at every moment of every run some server would get the votes of all in any term nobody has reached |
| Replication.MergeShape | src/raft/identity/IdentityBaseImpl.cpp:121-140 | under Log Matching a merge leaves the log as it was or makes it a prefix of the sender's log ending with the call |
| Replication.MergeKeepsShared | src/raft/identity/IdentityBaseImpl.cpp:123-136 | a merge loses no entry the follower shares with the sender, truncation included |
| Replication.MergeKeepsMatching | src/raft/identity/IdentityBaseImpl.cpp:123-136 | Log Matching with the sender survives a merge |
| Replication.CallMerges | src/raft/identity/IdentityBaseImpl.cpp:101-140 | after an accepted call the follower has the call's part of the sender's log and still all it shared |
| Replication.CommitBound | src/raft/identity/IdentityBaseImpl.cpp:146-153 | the minimum with the own log length equals Figure 2's minimum with the last new entry and lies inside what the call verified |
| IdentityRoles.IdentityLeader.constructor | src/raft/identity/IdentityLeader.cpp:270-279 | a new leader starts every follower at 1 and 0 and every counter at 1 |
| IdentityRoles.IdentityLeader.AddLog | src/raft/identity/IdentityLeader.cpp:104-125 | a call that stands anywhere in the log changes nothing; any other is appended once, in the current term, with its counter; either way the reply is success in this server's name and the log has an entry with the call's sender and number |
| LeaderState.AddLogRecords | src/raft/identity/IdentityLeader.cpp:104-125 | afterwards an entry carries the call's sender and number; if one did before nothing changes, otherwise one entry with all of the call is added in the current term, and nothing else |
| IdentityRoles.IdentityLeader.CreateMessage | src/raft/identity/IdentityLeader.cpp:141-157 | a call carries the leader's term, its commit index, its whole log from nextIdx on and the term of the entry before it |
| Rounds.AddLogDistinct | src/raft/identity/IdentityLeader.cpp:113-119 | the duplicate scan keeps the leader's log free of repeated calls |
| LeaderState.AddLogCountsExact | src/raft/identity/IdentityLeader.cpp:119-122 | adding an entry keeps all counters exact |
| LeaderState.ReinitCountsExact | src/raft/identity/IdentityLeader.cpp:270-279 | the counters of a new leader are exact |
| LeaderState.AddAll | src/raft/identity/IdentityLeader.cpp:104-125 | any number of client requests leaves the log extended by entries of the current term, and nothing else of the state, nextIdx or matchIdx changed |
| LeaderState.CountLoop | src/raft/identity/IdentityLeader.cpp:242-259 | the loop raises every counter from its start on by one, and the commit index ends at the largest index there whose counter exceeds half the list, if that is larger |
| IdentityRoles.IdentityLeader.Count | src/raft/identity/IdentityLeader.cpp:242-259 | the in-place loop leaves the counters and commit index that the count function describes |
| LeaderState.CountsStayExactIff | src/raft/identity/IdentityLeader.cpp:238-259 | counting a round keeps the counters exact if and only if the round confirmed the whole log |
| LeaderState.NothingOverdueKept | src/raft/identity/IdentityLeader.cpp:250-258 | after any round every index whose counter exceeds half the list is committed, if it was so before |
| LeaderState.CommitHeldIff | src/raft/identity/IdentityLeader.cpp:242-259 | one round, whatever it confirmed: what it newly commits is known to be on a majority if and only if the counter of the first index it did not confirm stays within half the list |
| IdentityRoles.IdentityLeader.Succeed | src/raft/identity/IdentityLeader.cpp:212-216 | new nextIdx and matchIdx, counters, commit index and applied entries after a success |
| IdentityRoles.IdentityLeader.Refused | src/raft/identity/IdentityLeader.cpp:218-231 | a refusal with a greater term leaves the leader in that term, asking to become a follower; any other moves nextIdx back by one, or ends the round at the lowest index |
| IdentityRoles.IdentityLeader.Pass | src/raft/identity/IdentityLeader.cpp:175-231 | one pass counts what its own snapshot held, even if the log grew while the call was underway |
| Snapshots.Try | src/raft/identity/IdentityLeader.cpp:175-232 | the retry loop, with clients adding while calls are underway, sends at least one and at most nextIdx + 2 calls |
| Snapshots.TryEnds | src/raft/identity/IdentityLeader.cpp:174-231 | a round ends at the first pass that is accepted, meets a greater term, is refused at the lowest index or is the third error, and is won in the first case only |
| IdentityRoles.IdentityLeader.TryAppendEntries | src/raft/identity/IdentityLeader.cpp:161-262 | one whole round: tables, state, notifications, number of calls and outcome, for every list of answers and of requests clients add while a call is underway |
| Snapshots.BackOffConverges | src/raft/identity/IdentityLeader.cpp:175-232 | with a live server under Log Matching, in whatever role and whatever clients add meanwhile, a round ends in success after at most nextIdx calls, with the leader's log at the last call a prefix of the server's and recorded as matched, and all the leader had committed committed there |
| Snapshots.MergeOrderInsensitive | src/raft/identity/IdentityBaseImpl.cpp:123-140 | whatever the order and repetition of snapshots, the shared prefix never shrinks and reaches the end of every accepted snapshot |
| Snapshots.CommitReaches | src/raft/identity/IdentityBaseImpl.cpp:146-153 | in any order, the commit index ends at or past that of every accepted call |
| Snapshots.CallReaches | src/raft/identity/IdentityBaseImpl.cpp:146-153 | an accepted call, under either term rule and in any role, takes the commit index at least to the one it carries |
| Snapshots.LeaderCommitReaches | src/raft/identity/IdentityLeader.cpp:141-157 | an accepted call of a leader takes the follower's commit index at least to the leader's |
| Snapshots.CommitNeverBack | src/raft/identity/IdentityBaseImpl.cpp:146-153 | no sequence of calls of one leader moves a follower's commit index back |
| IdentityRoles.IdentityCandidate.constructor | src/raft/identity/IdentityCandidate.cpp:107-114 | a candidacy raises the term by one, votes for itself, counts one vote and asks for leadership if one is enough |
| IdentityRoles.IdentityCandidate.VoteAnswered | src/raft/identity/IdentityCandidate.cpp:173-192 | each peer is counted at most once, only for a granted reply of the candidacy's term, and leadership is asked for when the count exceeds half the list |
| RaftServer.IdentityTransformer.Notify | src/raft/service/IdentityTransformer.cpp:20-29 | a notification passes unless the gate already stands at its term or above; over the object's life those that passed above term 0 have strictly increasing terms |
| RaftServer.AcceptedTermsIncrease | src/raft/service/IdentityTransformer.cpp:20-29 | over any sequence of notifications the accepted ones above term 0 have strictly increasing terms |
| RaftServer.TimeoutOpensIff | src/raft/identity/IdentityFollower.cpp:68-72 | an election timeout opens a candidacy if and only if the gate is still 0 or behind the term |
| RaftServer.Raft.Transform | src/raft/Raft.cpp:181-206 | a transformation to any role drops the old role's votes and tables; a new leader gets its tables, a new candidate the next term and its own vote, asking for leadership if that is enough |
| RaftServer.Raft.Notify | src/raft/Raft.cpp:177-206 | a notification that passes the gate carries out its transformation, whatever the target, and moves the gate to its term; any other changes nothing |
| RaftServer.Raft.PassOn | src/raft/service/IdentityTransformer.cpp:20-29 | the notifications of a handler or an identity take effect in order, each towards its own target and through the gate |
| RaftServer.Raft.RPCRequestVote | src/raft/Raft.cpp:128-134 | a server that is down refuses in term 0 and changes nothing; any other takes the cluster's vote step and its answer |
| RaftServer.Raft.RPCAppendEntries | src/raft/Raft.cpp:120-126 | a server that is down refuses in term 0 and changes nothing; any other takes the cluster's append step and its answer |
| RaftServer.Raft.RPCAddLog | src/raft/Raft.cpp:136-140 | a leader takes the cluster's client step and answers success in its own name; every other role refuses and changes nothing |
| RaftServer.Raft.ElectionTimeout | src/raft/identity/IdentityCandidate.cpp:107-134 | an election timeout takes the cluster's timeout step |
| RaftServer.Raft.VoteAnswered | src/raft/identity/IdentityCandidate.cpp:186-192 | an answered vote call of any term takes the cluster's step for it |
| RaftServer.Raft.AsyncRun | src/raft/Raft.cpp:223-226 | a server that starts takes the cluster's start step |
| RaftServer.Raft.Stop | src/raft/Raft.cpp:228-233 | a server that stops takes the cluster's stop step |
| RaftServer.Raft.SendTo | src/raft/identity/IdentityLeader.cpp:184-193 | a leader's thread changes nothing by sending, and what it sends is the cluster's call |
| RaftServer.Raft.AppendAnswered | src/raft/identity/IdentityLeader.cpp:212-261 | an answered append call takes the cluster's step for it: tables, counters, commit index and applies, or step-down, or back-off |
| RaftServer.RoundIsSteps | src/raft/identity/IdentityLeader.cpp:175-261 | a whole round, whatever its answers and whatever clients add meanwhile, leaves what the cluster's client and answer steps lead to, one after the other |
| RaftServer.Raft.Round | src/raft/identity/IdentityLeader.cpp:161-262 | a round of one of the leader's threads takes those steps of the cluster, its notification included |
| Leadership.BeginsOk | src/raft/identity/IdentityLeader.cpp:270-279 | a leader just elected satisfies the replication and the counting invariant |
| Leadership.MergeOk | src/raft/identity/IdentityBaseImpl.cpp:101-153 | an accepted call keeps the follower in order, loses nothing shared, confirms what it says and un-commits nothing |
| Leadership.AsWrittenIsBody | src/raft/identity/IdentityBaseImpl.cpp:159-168 | under one leadership the term rule as written never fires, whatever role the called server is in |
| Leadership.DeliveryOk | src/raft/identity/IdentityBaseImpl.cpp:87-157 | one delivery as written, to a follower, a candidate or an old leader: accepted exactly if the previous entry fits, shared prefix, committed prefix and applied entries kept |
| Leadership.StepOk | src/raft/identity/IdentityLeader.cpp:161-262 | every step of a leadership keeps the invariant |
| Leadership.ReplicationInvariant | src/raft/identity/IdentityLeader.cpp:212-216 | at every moment matchIdx[f] = m implies that follower f has the leader's log on 0..m; lastApplied, commitIdx and the log are in order on both |
| Leadership.CommittedIsApplied | src/raft/identity/IdentityBaseImpl.cpp:176-197 | as written, at every moment of a leadership that began so, the leader and every other server have applied exactly entries 1..commitIdx |
| Leadership.SharedPrefixIsForever | src/raft/identity/IdentityBaseImpl.cpp:121-140 | what a follower shares with its leader, has committed or has applied is never lost again |
| Leadership.CountingInvariant | src/raft/identity/IdentityLeader.cpp:238-259 | while rounds are counted over the log they confirmed, replicateNum[i] is 1 plus the number of followers with matchIdx at least i |
| Leadership.CommittedOnMajority | src/raft/identity/IdentityLeader.cpp:250-258 | what a round newly commits is known to be in the logs of a strict majority if and only if the count goes no further than the round; the servers counted do store it |
| Leadership.MajorityIff | src/raft/identity/IdentityLeader.cpp:242-259 | the same at every round of every leadership whose earlier rounds were counted over what they confirmed |
| History.QuorumsMeet | src/raft/identity/IdentityCandidate.cpp:190 | two sets larger than half the list, by integer division, share a server |
| Elections.GrantGrows | src/raft/identity/IdentityBaseImpl.cpp:74-80 | a grant never contradicts a vote given earlier in the same term |
| Elections.UpToDateKeeps | src/raft/identity/IdentityBaseImpl.cpp:8-14 | what an up-to-date check's voter keeps of earlier leaders, the candidate keeps |
| Elections.CandidateKeeps | src/raft/identity/IdentityBaseImpl.cpp:74-80 | what a voter confirmed to the leader of an earlier term, an entry of that term or the one before, the candidate it votes for keeps; with at most two servers even older entries |
| Elections.WinIsFirst | src/raft/identity/IdentityCandidate.cpp:189-192 | a majority of votes is never found in a term that already has a leader |
| Elections.WinLeadersKeep | src/raft/identity/IdentityCandidate.cpp:189-192 | a new leader has every earlier leader's entry that may still be committed |
| Appends.TakeKeeps | src/raft/identity/IdentityBaseImpl.cpp:121-140 | what a follower confirmed to earlier leaders survives the merge or can no longer be committed |
| Appends.TakeKeepsCommitted | src/raft/identity/IdentityBaseImpl.cpp:129-135 | no truncation reaches a committed index |
| Steps.VoteShape | src/raft/Raft.cpp:128-134 | a vote call is a possible step-down followed by the vote proper; the gate never swallows a step-down to a higher term |
| Steps.AppendShape | src/raft/Raft.cpp:120-126 | an append call is a possible step-down followed by the merge, or nothing for a follower of a higher term |
| Counting.HeldIsChosen | src/raft/identity/IdentityLeader.cpp:250-258 | what the leader's tables show on a majority was confirmed to this leader by a majority |
| Runs.NextInv | src/raft/Raft.cpp:118-142 | every enabled step keeps the invariant of whole runs |
| Runs.RunHistories | src/raft/Raft.cpp:118-142 | the invariant holds at every moment of every run, along a history that only grows |
| Safety.ElectionSafety | src/raft/identity/IdentityCandidate.cpp:107-192 | in every run, a term has at most one leader, at whatever moments |
| Safety.LogMatching | src/raft/identity/IdentityBaseImpl.cpp:104-136 | in every run, equal terms at an index of any two logs at any two moments mean equal prefixes |
| Safety.LogMatchingInFlight | src/raft/identity/IdentityLeader.cpp:141-156 | behind every call in flight there is one log it was cut from that matches every server's log at every moment |
| Safety.CallsMatch | src/raft/identity/IdentityLeader.cpp:141-156 | the logs behind any two calls, in flight at any two moments, match each other and every server's |
| Safety.LogsSorted | src/raft/identity/IdentityLeader.cpp:107-119 | terms along a log never decrease and never exceed the holder's term |
| Safety.AtMostOnce | src/raft/identity/IdentityLeader.cpp:113-119 | in every run, no client call stands twice in any log, whoever it was retried at |
| Safety.AppliedAtMostOnce | src/Interface.cpp:60-86 | no client call is applied twice |
| Origins.EntriesWereAsked | src/raft/identity/IdentityLeader.cpp:104-119 | in every run, every entry but the initial one, in a log, applied or in flight, carries exactly a request a client made before |
| Origins.AppliedGrows | src/raft/identity/IdentityBaseImpl.cpp:186-195 | every step only extends what a server applied |
| Safety.GateBehindTerm | src/raft/service/IdentityTransformer.cpp:20-29 | in every run, the gate never exceeds the term, and a candidate's term is still open to one transition |
| Safety.TransitionsRaiseGate | src/raft/service/IdentityTransformer.cpp:20-29 | in every run, each new role and each new candidacy above term 0 raises the server's gate |
| Safety.GateOnlyRises | src/raft/service/IdentityTransformer.cpp:20-29 | in every run, no gate ever falls |
| Safety.CommittedAgree | src/raft/identity/IdentityLeader.cpp:242-259 | committed prefixes of any two servers at any two moments agree |
| Safety.AppliedIsPrefix | src/raft/identity/IdentityBaseImpl.cpp:186-195 | on every server lastApplied <= commitIdx < entries.size() and exactly entries 1..lastApplied were applied, in order, once each |
| Delivery.CommittedIsApplied | src/raft/identity/IdentityBaseImpl.cpp:176-197 | at every moment of every guarded run lastApplied equals commitIdx on every server, and exactly entries 1..commitIdx were applied |
| Delivery.FollowerCatchesUp | src/raft/identity/IdentityLeader.cpp:141-157 | a call sent at one moment of a guarded run and accepted at another leaves the follower with everything the leader had applied when it sent it |
| Delivery.LeaderYields | src/raft/identity/IdentityLeader.cpp:218-225 | an answer with a greater term makes a leader a follower in that term |
| Delivery.OldLeaderYields | src/raft/identity/IdentityBaseImpl.cpp:87-100 | in every run, when a leader's call met a server of a greater term, the answer to it makes the leader a follower in exactly that term |
| Delivery.CalledFollows | include/quintet/raft/identity/IdentityBaseImpl.h:30 | in every run, whoever hears a call of a greater term is a follower in it afterwards |
| Delivery.CandidateYields | src/raft/identity/IdentityCandidate.cpp:73-86 | in every run, a candidate that hears from the leader of its own term follows it |
| Delivery.RequestIsLogged | src/raft/identity/IdentityLeader.cpp:104-125 | in every run, after a client request at a leader exactly one entry of its log carries its sender and number |
| Safety.StateMachineSafety | src/raft/identity/IdentityBaseImpl.cpp:176-197 | of what any two servers applied, at any two moments, one is a prefix of the other |
| Safety.LeaderCompleteness | src/raft/identity/IdentityLeader.cpp:250-256 | what a server has committed by its term is in the log of every leader of every later term |
| Safety.CommitsOnlyForward | src/raft/identity/IdentityBaseImpl.cpp:146-153 | no commit index ever moves back |
| Safety.CommittedIsForever | src/raft/identity/IdentityBaseImpl.cpp:129-153 | a committed entry is never truncated or replaced |
| Safety.LeaderBookkeeping | src/raft/identity/IdentityLeader.cpp:238-259 | in every run with exact counts, every counter of every leader is exact, and every nextIdx lies inside its log |
| Safety.ExactCommitsHeld | src/raft/identity/IdentityLeader.cpp:242-259 | in every run with exact counts, what a round newly commits is held by a majority |
| Deviations.VoteRulesAgreeIff | src/raft/identity/IdentityBaseImpl.cpp:159-168 | a vote call is handled as documented if and only if its term is the server's own, or larger with the vote granted anyway |
| Deviations.AppendRulesAgreeIff | src/raft/identity/IdentityBaseImpl.cpp:159-168 | an append call is handled as documented if and only if its term is the server's own, or smaller at a follower |
| Deviations.RestrictionHoldsIff | src/raft/identity/IdentityBaseImpl.cpp:53-65 | as written, all votes granted for a term respect the election restriction if and only if the term is not larger than the receiver's or the receiver's log is empty |
| Deviations.TwoVotesInOneTerm | src/raft/identity/IdentityBaseImpl.cpp:159-168 | as written, three calls make a server vote for two candidates in one term |
| OneVote.VotesAgree | src/raft/identity/IdentityBaseImpl.cpp:27-85 | as written, through calls, own candidacies and refused rounds, as long as no call lowers the term, two votes of a server in one term go to one candidate |
| OneVote.VoteKeptIff | src/raft/identity/IdentityBaseImpl.cpp:159-164 | as written, a server that voted in its term keeps that vote through every continuation that never lowers the term if and only if what it hears next does not lower its term |
| OneVote.SecondVoteIff | src/raft/identity/IdentityBaseImpl.cpp:40-84 | as written, one more call can win a second vote in the term if and only if what was heard before it lowered the term, or raised it with a vote for somebody else, be it an own candidacy |
| Deviations.OvercountCommits | src/raft/identity/IdentityLeader.cpp:242-259 | a run as written of a leader elected with one vote, counting further than its round, which commits and applies an entry no other server stores |
| OldTermCommit.OldTermCommitDiverges | src/raft/identity/IdentityLeader.cpp:250-258 | for every cluster of three servers or more, a run with exact counts, no commit more than two terms back, in which two servers apply different entries |
| OldTermCommit.UnstoppedDiverges | src/raft/identity/IdentityLeader.cpp:250-258 | the same, no commit more than three terms back, in a run in which no server is ever stopped |
| OldTermCommit.OldTermsSafeIff | src/raft/identity/IdentityLeader.cpp:250-258 | all runs whose commits are held by a majority and lie at most so many terms back keep State Machine Safety if and only if there are at most two servers or it is at most one term; for runs with exact counts the same |
| OldTermCommit.GuardedRunCommits | src/raft/identity/IdentityLeader.cpp:242-259 | every cluster of three servers or more has a guarded run that commits and applies an entry |
| Standstill.StandstillIff | src/raft/service/IdentityTransformer.cpp:20-29 | at every moment of every run without a leader: unless a server is started again nobody ever stands for election if and only if every server that is up is a follower whose gate has reached its term and no call in flight carries it a greater term |
| Standstill.StaysStill | src/raft/service/IdentityTransformer.cpp:20-29 | from such a moment on, even with leaders whose calls carry no greater term, nobody becomes a candidate or a leader, whatever the network and the clients do, and only a leader that steps down changes its term |
| Standstill.CallsBehind | src/raft/identity/IdentityCandidate.cpp:148-158 | in every run, no call in flight carries a term its sender has not reached |
| Standstill.OneTermIsStill | src/raft/service/IdentityTransformer.cpp:20-29 | once all servers that are up have reached one term, and their gates with it, the cluster never elects again |
| Standstill.LastLeader | src/raft/identity/IdentityFollower.cpp:66-73 | every cluster of three servers or more has a run without a failure that ends with a leader and all others following, and if that leader stops nobody ever stands again |
| EventQueue.Conservation | src/raft/misc/EventQueue.cpp:30-54 | at every moment the events added are those run, then at most one in flight, then those queued, in order and numbered from 1 |
| EventQueue.AlwaysTidy | src/raft/misc/EventQueue.cpp:36-54 | the worker sleeps and exits only between events |
| EventQueue.InterruptedIsEmpty | src/raft/misc/EventQueue.cpp:63-73 | since `stop` waits for an empty queue, an interrupted worker's queue stays empty |
| EventQueue.StopRunsEverything | src/raft/misc/EventQueue.cpp:68-73 | when `stop` has joined the worker, with no concurrent adds, every event ever added has run, in order |
| EventQueue.PausedTakesNothing | src/raft/misc/EventQueue.cpp:36-48 | in every interleaving, between a pause and the next resume no event is taken |
| EventQueue.ExitWasAsked | src/raft/misc/EventQueue.cpp:36-43 | in every interleaving, a worker that was started exits only if it was interrupted since |
| EventQueue.WaitPromises | src/raft/misc/EventQueue.cpp:63-66 | in every interleaving, when the queue is empty every event added has been taken, in order, and all have run if and only if none is in flight |
| EventQueue.ExitLeaves | src/raft/misc/EventQueue.cpp:36-54 | in every interleaving, when the worker has exited the events added are those run, then those left in the queue; all have run if and only if it is empty |
| EventQueue.WaitReturnsEarly | src/raft/misc/EventQueue.cpp:63-66 | taking the only queued event empties the queue, so `wait` can return while it runs |
| EventQueue.LateAddIsLeft | src/raft/misc/EventQueue.cpp:68-73 | whatever is added after the interruption of a sleeping worker is left in the queue when it exits |
| EventQueue.EventQueueImpl.AddEvent | src/raft/misc/EventQueue.cpp:30-34 | an event gets the next number and goes to the end of the queue |
| EventQueue.EventQueueImpl.Await | src/raft/misc/EventQueue.cpp:36-48 | the worker takes the front event exactly if the queue is neither paused nor empty, and sleeps otherwise; no event is lost |
| EventQueue.EventQueueImpl.Execute | src/raft/misc/EventQueue.cpp:36-54 | left alone, the worker runs everything queued after what it has run, in order, and goes to sleep |
| EventQueue.EventQueueImpl.Stop | src/raft/misc/EventQueue.cpp:68-73 | left alone, `stop` ends with the worker exited, an empty queue and every event ever added run, in order, paused or not and with or without an event in flight |
| EventQueue.Apply | include/quintet/raft/service/Apply.h:17-25 | committed entries become queued events, one each, in log order, behind everything added before |
| Interface.PromiseConservation | src/Interface.cpp:24-33 | beside every guarded run, whatever clients ask, bound or not, and however far the apply queue lags, pending and resolved promises are disjoint and together those issued, the resolved ones are those of the own entries of bound operations consumed, and each holds the result of its own call |
| Interface.BalancedSizes | include/quintet/Interface.h:36-43 | pending and resolved promises add up to the number issued |
| Interface.PromisesOverCluster | src/Interface.cpp:24-33 | the lookup in `apply` always finds its promise, still pending, and nothing is resolved twice; the only failure is an operation that was never bound |
| Interface.NextWasAsked | src/Interface.cpp:35-41 | an own entry that comes to be applied is exactly the request one of this server's calls sent |
| Interface.ResolveRule | src/Interface.cpp:24-33 | when an entry is disposed of as unbound, as missing its promise or as fine, and what it does to the table: only an own bound entry with a pending promise sets a result, and only that one |
| Interface.InterfaceImpl.Bind | include/quintet/Interface.h:79-99 | binding a new name adds it; a name already bound keeps its operation |
| Interface.InterfaceImpl.AsyncCall | include/quintet/Interface.h:34-44 | a call gets the next number, its promise is in the table, and its request is sent with that number in this server's name |
| Interface.InterfaceImpl.Send | include/quintet/Interface.h:41-42 | a request can leave only while its promise is in the table |
| Interface.InterfaceImpl.Apply | src/Interface.cpp:24-33 | an own entry sets and erases exactly its promise; other servers' entries touch none; both failures |
| Interface.AddLog | src/Interface.cpp:60-86 | the servers are asked in list order, round and round, up to the first that accepts |
| VectorFile.IntRoundTrip | src/raft/misc/FileIO.cpp:13-21 | reading the four bytes of a size below 2^31 gives the size back |
| VectorFile.IntBytesValue | src/raft/misc/FileIO.cpp:13-21 | the four bytes of a size below 2^32 are its binary notation, the least significant first |
| VectorFile.AppendHolds | include/quintet/raft/misc/FileIO.h:56-78 | an append over whatever stale bytes makes the file hold the extended vector |
| VectorFile.FirstFrame | include/quintet/raft/misc/FileIO.h:56-78 | the bytes of a file with one element: total size, element size, element, element size |
| VectorFile.AppendKeepsTail | include/quintet/raft/misc/FileIO.h:69-77 | an append leaves what lies behind its frame in the file |
| VectorFile.PopHolds | include/quintet/raft/misc/FileIO.h:107-130 | a legal pop drops the last element and touches only the header |
| VectorFile.PopEmpty | include/quintet/raft/misc/FileIO.h:119-129 | popping an empty vector changes nothing |
| VectorFile.LastSizes | include/quintet/raft/misc/FileIO.h:117-125 | both sizes of the last frame are where `pop` reads them, and they are the payload's |
| VectorFile.PopUndoesAppend | include/quintet/raft/misc/FileIO.h:56-130 | pop exactly undoes append on every live byte |
| VectorFile.FileRefinesStack | include/quintet/raft/misc/FileIO.h:57-130 | every run of appends and pops below 2^31 bytes keeps the file a copy of the stack |
| VectorFile.File.Append | include/quintet/raft/misc/FileIO.h:56-78 | appending to a missing or existing file stores the extended vector |
| VectorFile.File.GetVector | include/quintet/raft/misc/FileIO.h:80-105 | a missing file is an error; any other reads back exactly the stored payloads, and the two sizes of every frame agree |
| VectorFile.File.Pop | include/quintet/raft/misc/FileIO.h:107-130 | a missing file is an error; otherwise the stack without its last element, whose two sizes agree |

## Left out

- gRPC, protobuf and the conversions between message types: the network is a set of packets.
- Time: timeouts are nondeterministic steps, and no progress is promised; `Standstill` shows where there is none.
- Fine-grained locks, unsynchronised reads, and the window between an accepted notification and the transformation it queues.
- Crash recovery: Raft state is in memory only, and the file class is not wired in.
- Membership changes and a server list with repetitions.
- Boost serialisation, `boost::any` and operation bodies: arguments, results and payloads are opaque.
- Logging, debug hooks, JSON configuration, `PseudoRaft`, `IdentityBogus`, the deprecated client classes, `ThreadPool`, examples.
- Machine integers: terms, indices and promise numbers are unbounded; only the file's sizes are bounded, by 2^31.
- The value file (`modify`, `getValue`), `registerVar` and `checkVar`, and files whose bytes do not hold a vector.
- IdentityBase.ServerState.ApplyReadyEntries: a commit index past the end of the log makes the source read past its vector; the model hands over nothing there. `Safety.AppliedIsPrefix` shows that no guarded run gets there.
- Interface.AddLog: the source's loop has no bound; the model's ends with the list of answers it is given.
- IdentityRoles.IdentityLeader.TryAppendEntries: an interruption between two passes and changes other handlers make while a call is underway; the cluster's `Send` and `AppendAnswered` steps allow both.
- EventQueue.EventQueueImpl.Stop: one schedule, in which nobody else calls; `EventQueue.StopRunsEverything` speaks of all interleavings.
- One leadership (`Leadership`) and the whole cluster (`Cluster`) are two transition systems with parallel definitions, because the first follows the source as written and the second the documented term rule.
