/** The RPC handlers every identity shares, as functions of the server state. */
module Handlers {
  import opened RaftDefs

  predicate UpToDate(entries: seq<Entry>, lastLogIdx: Index, lastLogTerm: Term)
    requires |entries| > 0
  {
    var last := entries[|entries| - 1];
    || last.term < lastLogTerm
    || (last.term == lastLogTerm && |entries| - 1 <= lastLogIdx)
  }

  function CheckRpcTerm(rule: TermRule, st: State, term: Term): State {
    match rule
    case AsWritten => if term < st.currentTerm then st.(currentTerm := term) else st
    case AsDocumented(clears) =>
      if term <= st.currentTerm then st
      else st.(currentTerm := term, votedFor := if clears then None else st.votedFor)
  }

  /** The notification `checkRpcTerm` makes when it changed the term of a non-follower. */
  function TermNotes(rule: TermRule, st: State, role: Role, term: Term): seq<Note> {
    if CheckRpcTerm(rule, st, term) != st && role != Follower then [Note(Follower, term)] else []
  }

  /** Everything committed and not yet applied is handed over, in log order. A commit index past the
      end of the log would make the source read past its vector; the model then hands over nothing. */
  function ApplyReady(st: State): State {
    if st.commitIdx <= st.lastApplied || |st.entries| <= st.commitIdx then st
    else st.(lastApplied := st.commitIdx,
             applied := st.applied + st.entries[st.lastApplied + 1..st.commitIdx + 1])
  }

  function VoteBody(st: State, role: Role, msg: VoteRequest): Outcome
    requires |st.entries| > 0
  {
    if msg.term < st.currentTerm then
      Outcome(st, Reply(st.currentTerm, false), [])
    else if st.currentTerm < msg.term then
      Outcome(st.(votedFor := Some(msg.candidateId), currentTerm := msg.term), Reply(msg.term, true),
              if role != Follower then [Note(Follower, msg.term)] else [])
    else if (st.votedFor == None || st.votedFor == Some(msg.candidateId))
            && UpToDate(st.entries, msg.lastLogIdx, msg.lastLogTerm) then
      Outcome(st.(votedFor := Some(msg.candidateId)), Reply(st.currentTerm, true), [])
    else
      Outcome(st, Reply(st.currentTerm, false), [])
  }

  function HandleVote(rule: TermRule, st: State, role: Role, msg: VoteRequest): Outcome
    requires |st.entries| > 0
  {
    var out := VoteBody(CheckRpcTerm(rule, st, msg.term), role, msg);
    Outcome(ApplyReady(out.st), out.rep, TermNotes(rule, st, role, msg.term) + out.notes)
  }

  /** How far the entries of a message match the log by term, from position k of the message on. */
  function MatchFrom(log: seq<Entry>, base: nat, es: seq<Entry>, k: nat): (r: nat)
    requires k <= |es|
    ensures k <= r <= |es|
    ensures k < r ==> base + r <= |log|
    ensures forall j | k <= j < r :: log[base + j].term == es[j].term
    ensures r < |es| ==> |log| <= base + r || log[base + r].term != es[r].term
    decreases |es| - k
  {
    if k < |es| && base + k < |log| && log[base + k].term == es[k].term
    then MatchFrom(log, base, es, k + 1)
    else k
  }

  /** The log after steps 3 and 4 of AppendEntries: truncated at the first conflict, if there is one. */
  function Merge(log: seq<Entry>, prev: Index, es: seq<Entry>): seq<Entry>
    requires prev < |log|
  {
    var k := MatchFrom(log, prev + 1, es, 0);
    if k != |es| then log[..prev + 1 + k] + es[k..] else log
  }

  function Min(a: nat, b: nat): nat { if a <= b then a else b }

  function AppendBody(st: State, msg: AppendRequest): Outcome {
    if msg.term < st.currentTerm then
      Outcome(st, Reply(st.currentTerm, false), [])
    else if |st.entries| <= msg.prevLogIdx || st.entries[msg.prevLogIdx].term != msg.prevLogTerm then
      Outcome(st, Reply(st.currentTerm, false), [])
    else
      var log := Merge(st.entries, msg.prevLogIdx, msg.logEntries);
      var commit := if msg.commitIdx > st.commitIdx then Min(msg.commitIdx, |log| - 1) else st.commitIdx;
      Outcome(st.(entries := log, commitIdx := commit), Reply(st.currentTerm, true), [])
  }

  /** A candidate that hears from the leader of its own term steps down before it handles the call. */
  function CandidateNotes(st: State, role: Role, term: Term): seq<Note> {
    if role == Candidate && term == st.currentTerm then [Note(Follower, term)] else []
  }

  function HandleAppend(rule: TermRule, st: State, role: Role, msg: AppendRequest): Outcome {
    if role == Follower && msg.term < st.currentTerm then
      Outcome(st, Reply(st.currentTerm, false), [])
    else
      var out := AppendBody(CheckRpcTerm(rule, st, msg.term), msg);
      Outcome(ApplyReady(out.st), out.rep,
              CandidateNotes(st, role, msg.term) + TermNotes(rule, st, role, msg.term) + out.notes)
  }

  /** Everything handed to apply so far is exactly entries 1..lastApplied, in order, once each. */
  ghost predicate AppliedOk(st: State) {
    && st.lastApplied <= st.commitIdx < |st.entries|
    && st.applied == st.entries[1..st.lastApplied + 1]
  }

  lemma ApplyReadyOk(st: State)
    requires AppliedOk(st)
    ensures AppliedOk(ApplyReady(st))
  {
  }
}
