/** The two calls between servers against the rules of Figure 2 of the Raft paper, said in terms of the messages
    and the state alone. */
module Figure2 {
  import opened RaftDefs
  import opened Handlers
  import opened LeaderState

  /** What is committed has been applied, as far as the log reaches. */
  predicate CaughtUp(st: State) {
    st.commitIdx <= st.lastApplied || |st.entries| <= st.commitIdx
  }

  lemma ApplyCatchesUp(st: State)
    ensures CaughtUp(ApplyReady(st)) && ApplyReady(st).commitIdx == st.commitIdx
    ensures AppliedOk(st) ==>
              ApplyReady(st).lastApplied == st.commitIdx && ApplyReady(st).applied == st.entries[1..st.commitIdx + 1]
  {
  }

  /** Whoever stands for a later term, or sends a call of one, is followed into it by everybody who is not
      following yet. */
  function StepsDownTo(role: Role, current: Term, term: Term): seq<Note> {
    if current < term && role != Follower then [Note(Follower, term)] else []
  }

  /** The log of a candidate is at least as up-to-date as the voter's (section 5.4.1): its last term is later, or
      the last terms are equal and it is at least as long. */
  ghost predicate AtLeast(lastIdx: Index, lastTerm: Term, log: seq<Entry>)
    requires |log| > 0
  {
    log[|log| - 1].term <= lastTerm && (log[|log| - 1].term == lastTerm ==> |log| <= lastIdx + 1)
  }

  /** RequestVote: the answer carries the larger of the two terms; the vote is granted if and only if the call is
      not stale, the vote is free or already the candidate's, and its log is at least as up-to-date. */
  lemma VoteRule(clears: bool, st: State, role: Role, msg: VoteRequest)
    requires |st.entries| > 0
    ensures var out := HandleVote(AsDocumented(clears), st, role, msg);
            var kept := if clears && st.currentTerm < msg.term then None else st.votedFor;
            && out.rep.term == out.st.currentTerm == Max(st.currentTerm, msg.term)
            && (out.rep.ok <==>
                  && st.currentTerm <= msg.term && (kept == None || kept == Some(msg.candidateId))
                  && AtLeast(msg.lastLogIdx, msg.lastLogTerm, st.entries))
            && out.st.votedFor == (if out.rep.ok then Some(msg.candidateId) else kept)
            && out.st.entries == st.entries && out.st.commitIdx == st.commitIdx && CaughtUp(out.st)
            && out.notes == StepsDownTo(role, st.currentTerm, msg.term)
  {
  }

  /** As written, any vote call leaves its receiver in the call's term; one of a larger term gets the vote
      whatever the two logs are. */
  lemma VoteAsWritten(st: State, role: Role, msg: VoteRequest)
    requires |st.entries| > 0
    ensures var out := HandleVote(AsWritten, st, role, msg);
            && out.rep.term == out.st.currentTerm == msg.term
            && (out.rep.ok <==>
                  || st.currentTerm < msg.term
                  || ((st.votedFor == None || st.votedFor == Some(msg.candidateId))
                      && AtLeast(msg.lastLogIdx, msg.lastLogTerm, st.entries)))
            && out.st.votedFor == (if out.rep.ok then Some(msg.candidateId) else st.votedFor)
            && out.st.entries == st.entries && out.st.commitIdx == st.commitIdx && CaughtUp(out.st)
            && out.notes == (if role != Follower && msg.term != st.currentTerm then [Note(Follower, msg.term)] else [])
  {
  }

  /** Entry j of a call stands in the log, or has the term of what stands there. */
  predicate Fits(log: seq<Entry>, at: Index, es: seq<Entry>, j: nat)
    requires j < |es|
  {
    at + j < |log| && log[at + j].term == es[j].term
  }

  /** Steps 3 and 4: what fits stays, and from the first entry that does not on, the log ends as the call does. */
  ghost predicate MergedAt(log: seq<Entry>, at: Index, es: seq<Entry>, merged: seq<Entry>) {
    if forall j | 0 <= j < |es| :: Fits(log, at, es, j) then merged == log
    else
      exists k | 0 <= k < |es| ::
        && !Fits(log, at, es, k) && (forall j | 0 <= j < k :: Fits(log, at, es, j))
        && at + k <= |log| && merged == log[..at + k] + es[k..]
  }

  lemma MergeIsMergedAt(log: seq<Entry>, prev: Index, es: seq<Entry>)
    requires prev < |log|
    ensures MergedAt(log, prev + 1, es, Merge(log, prev, es))
  {
    var k := MatchFrom(log, prev + 1, es, 0);
    if k < |es| { assert !Fits(log, prev + 1, es, k); }
  }

  /** AppendEntries: the answer carries the larger of the two terms; the call is accepted if and only if it is not
      stale and the entry before it fits; then the log is merged and the commit index follows the leader's as far
      as the log reaches, and otherwise neither moves. */
  lemma AppendRule(clears: bool, st: State, role: Role, msg: AppendRequest)
    requires |st.entries| > 0
    ensures var out := HandleAppend(AsDocumented(clears), st, role, msg);
            && out.rep.term == out.st.currentTerm == Max(st.currentTerm, msg.term)
            && (out.rep.ok <==>
                  && st.currentTerm <= msg.term
                  && msg.prevLogIdx < |st.entries| && st.entries[msg.prevLogIdx].term == msg.prevLogTerm)
            && out.st.votedFor == (if clears && st.currentTerm < msg.term then None else st.votedFor)
            && (if out.rep.ok then
                  && MergedAt(st.entries, msg.prevLogIdx + 1, msg.logEntries, out.st.entries)
                  && out.st.commitIdx == (if msg.commitIdx <= st.commitIdx then st.commitIdx
                                          else Min(msg.commitIdx, |out.st.entries| - 1))
                else out.st.entries == st.entries && out.st.commitIdx == st.commitIdx)
            && (out.rep.ok ==> CaughtUp(out.st)) && (CaughtUp(st) ==> CaughtUp(out.st))
            && out.notes == (if role == Candidate && msg.term == st.currentTerm then [Note(Follower, msg.term)]
                             else StepsDownTo(role, st.currentTerm, msg.term))
            && (role == Follower && msg.term < st.currentTerm ==> out.st == st)
  {
    if msg.prevLogIdx < |st.entries| { MergeIsMergedAt(st.entries, msg.prevLogIdx, msg.logEntries); }
  }
}
