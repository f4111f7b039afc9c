/** The shared RPC handlers as they run: fields updated in place, proved against their functions. */
module IdentityBase {
  import opened RaftDefs
  import opened Handlers

  class ServerState {
    /** Which comparison `checkRpcTerm` makes: `AsWritten` is the source's. */
    const rule: TermRule
    var currentTerm: Term
    var votedFor: Option<ServerId>
    var entries: seq<Entry>
    var commitIdx: Index
    var lastApplied: Index
    /** Everything handed to the apply callback, in order. */
    var applied: seq<Entry>
    /** Everything said to the identity transformer, in order. */
    var notes: seq<Note>

    function Value(): State
      reads this
    {
      State(currentTerm, votedFor, entries, commitIdx, lastApplied, applied)
    }

    constructor (rule: TermRule)
      ensures this.rule == rule && Value() == INITIAL_STATE && notes == []
    {
      this.rule := rule;
      currentTerm, votedFor, entries := 0, None, [SENTINEL];
      commitIdx, lastApplied, applied, notes := 0, 0, [], [];
    }

    method Notify(target: Role, term: Term)
      modifies this`notes
      ensures notes == old(notes) + [Note(target, term)]
    {
      notes := notes + [Note(target, term)];
    }

    method CheckTerm(term: Term, role: Role)
      modifies this`currentTerm, this`votedFor, this`notes
      ensures Value() == CheckRpcTerm(rule, old(Value()), term)
      ensures notes == old(notes) + TermNotes(rule, old(Value()), role, term)
    {
      var adopts := match rule case AsWritten => term < currentTerm case AsDocumented(_) => currentTerm < term;
      if adopts {
        currentTerm := term;
        if rule == AsDocumented(true) { votedFor := None; }
        if role != Follower { Notify(Follower, term); }
      }
    }

    method ApplyReadyEntries()
      modifies this`lastApplied, this`applied
      ensures Value() == ApplyReady(old(Value()))
      ensures commitIdx <= lastApplied || |entries| <= commitIdx
    {
      if commitIdx <= lastApplied || |entries| <= commitIdx { return; }
      var entriesToApply := entries[lastApplied + 1..commitIdx + 1];
      lastApplied := commitIdx;
      applied := applied + entriesToApply;
    }

    method VoteUnderTerm(msg: VoteRequest, role: Role) returns (rep: Reply)
      requires |entries| > 0
      modifies this`currentTerm, this`votedFor, this`notes
      ensures var out := VoteBody(old(Value()), role, msg);
              Value() == out.st && rep == out.rep && notes == old(notes) + out.notes
    {
      if msg.term < currentTerm { return Reply(currentTerm, false); }
      if msg.term > currentTerm {
        votedFor := Some(msg.candidateId);
        currentTerm := msg.term;
        if role != Follower { Notify(Follower, msg.term); }
        return Reply(currentTerm, true);
      }
      if (votedFor == None || votedFor == Some(msg.candidateId)) && UpToDate(entries, msg.lastLogIdx, msg.lastLogTerm) {
        votedFor := Some(msg.candidateId);
        return Reply(currentTerm, true);
      }
      return Reply(currentTerm, false);
    }

    /** `applyReadyEntries` is deferred to the end of the handler, whichever way it returns. */
    method RequestVote(msg: VoteRequest, role: Role) returns (rep: Reply)
      requires |entries| > 0
      modifies this
      ensures var out := HandleVote(rule, old(Value()), role, msg);
              Value() == out.st && rep == out.rep && notes == old(notes) + out.notes
      ensures rep.term == currentTerm && (rep.ok ==> votedFor == Some(msg.candidateId) && currentTerm == msg.term)
    {
      CheckTerm(msg.term, role);
      rep := VoteUnderTerm(msg, role);
      ApplyReadyEntries();
    }

    /** Steps 3 and 4: skip what matches, drop what conflicts, copy the rest. */
    method MergeEntries(prev: Index, es: seq<Entry>)
      requires prev < |entries|
      modifies this`entries
      ensures entries == Merge(old(entries), prev, es)
    {
      var idxOffset := 0;
      while idxOffset < |es| && prev + idxOffset + 1 < |entries|
            && entries[prev + idxOffset + 1].term == es[idxOffset].term
        invariant 0 <= idxOffset <= |es|
        invariant prev + idxOffset + 1 <= |entries|
        invariant MatchFrom(entries, prev + 1, es, idxOffset) == MatchFrom(entries, prev + 1, es, 0)
      {
        idxOffset := idxOffset + 1;
      }
      if idxOffset != |es| {
        entries := entries[..prev + idxOffset + 1] + es[idxOffset..];
      }
    }

    method AppendUnderTerm(msg: AppendRequest) returns (rep: Reply)
      modifies this`entries, this`commitIdx
      ensures var out := AppendBody(old(Value()), msg); Value() == out.st && rep == out.rep
    {
      if msg.term < currentTerm { return Reply(currentTerm, false); }
      if |entries| <= msg.prevLogIdx || entries[msg.prevLogIdx].term != msg.prevLogTerm {
        return Reply(currentTerm, false);
      }
      MergeEntries(msg.prevLogIdx, msg.logEntries);
      if msg.commitIdx > commitIdx {
        commitIdx := Min(msg.commitIdx, |entries| - 1);
      }
      return Reply(currentTerm, true);
    }

    method AppendEntries(msg: AppendRequest, role: Role) returns (rep: Reply)
      modifies this
      ensures var out := HandleAppend(rule, old(Value()), role, msg);
              Value() == out.st && rep == out.rep && notes == old(notes) + out.notes
      ensures rep.term == currentTerm
    {
      if role == Follower && msg.term < currentTerm { return Reply(currentTerm, false); }
      if role == Candidate && msg.term == currentTerm { Notify(Follower, currentTerm); }
      CheckTerm(msg.term, role);
      rep := AppendUnderTerm(msg);
      ApplyReadyEntries();
    }
  }
}
