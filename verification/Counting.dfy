/** An answered round: the counters stay exact, and what they commit is on a majority. */
module Counting {
  import opened RaftDefs
  import opened Handlers
  import opened LeaderState
  import opened Cluster
  import opened History
  import opened Actions
  import opened Appends
  import opened Invariant
  import opened Steps
  import opened Rounds

  /** What the leader knows a majority to store was confirmed to it by a majority. */
  lemma HeldIsChosen(n: nat, s: ServerId, st: State, p: Progress, h: History, i: Index)
    requires s < n && ProgressOk(n, s, st, p, h) && 1 <= i < |st.entries|
    requires Ack(h, st.currentTerm, s) == |st.entries| - 1
    requires Held(n, p, s, i)
    ensures ChosenBy(n, h, st.currentTerm, i, Holders(p.matchIdx, s, i) + {s})
  {
  }

  /** A round leaves the leader's bookkeeping in order. */
  lemma RoundProgress(n: nat, s: ServerId, st: State, p: Progress, f: ServerId, count: nat, h: History)
    requires ProgressOk(n, s, st, p, h) && f < n && f != s
    requires p.nextIdx[f] + count <= |st.entries| && p.nextIdx[f] - 1 + count <= Ack(h, st.currentTerm, f)
    ensures ProgressOk(n, s, st, OnSuccess(n, st, p, f, count).1, h)
  {
  }

  /** What a guarded round commits is covered by the confirmations of a majority. */
  lemma CommitCovered(n: nat, s: ServerId, st: State, p: Progress, h: History, commit: Index)
    requires s < n && ProgressOk(n, s, st, p, h) && 1 <= commit < |st.entries| && Held(n, p, s, commit)
    requires 0 < st.currentTerm && st.currentTerm in h.logs && h.logs[st.currentTerm] == st.entries
    requires Ack(h, st.currentTerm, s) == |st.entries| - 1
    requires 2 < n ==> st.currentTerm <= st.entries[commit].term + 1
    ensures Covered(n, h, st.entries, commit, st.currentTerm)
  {
    HeldIsChosen(n, s, st, p, h, commit);
    assert Chosen(n, h, st.currentTerm, commit);
    assert CoveredBy(n, h, st.entries, commit, st.currentTerm, st.currentTerm, commit);
  }

  /** What a guarded round may commit. */
  ghost predicate MayCommit(n: nat, s: ServerId, st: State, p: Progress, commit: Index) {
    && 1 <= commit < |st.entries| && Held(n, p, s, commit)
    && (2 < n ==> st.currentTerm <= st.entries[commit].term + 1)
  }

  ghost predicate RoundGuarded(n: nat, s: ServerId, st: State, p: Progress, f: ServerId, count: nat)
    requires f < |p.nextIdx| && f < |p.matchIdx| && 1 <= p.nextIdx[f]
  {
    CommitsHeld(n, st, p, s, f, count) && (2 < n ==> CommitsWithin(n, 1, st, p, f))
  }

  lemma CommitCounted(n: nat, s: ServerId, st: State, p: Progress, f: ServerId, count: nat)
    requires f < |p.nextIdx| && f < |p.matchIdx| && 1 <= p.nextIdx[f] && |p.replicateNum| == |st.entries|
    requires RoundGuarded(n, s, st, p, f, count)
    ensures var r := OnSuccess(n, st, p, f, count); var commit := r.0.commitIdx;
            st.commitIdx <= commit && (st.commitIdx < commit ==> MayCommit(n, s, st, r.1, commit))
  {
  }

  lemma RoundCovers(n: nat, s: ServerId, st: State, p: Progress, h: History, commit: Index)
    requires s < n && ProgressOk(n, s, st, p, h) && Covered(n, h, st.entries, st.commitIdx, st.currentTerm)
    requires 0 < st.currentTerm && st.currentTerm in h.logs && h.logs[st.currentTerm] == st.entries
    requires Ack(h, st.currentTerm, s) == |st.entries| - 1
    requires st.commitIdx <= commit && (st.commitIdx < commit ==> MayCommit(n, s, st, p, commit))
    ensures Covered(n, h, st.entries, commit, st.currentTerm)
  {
    if st.commitIdx < commit { CommitCovered(n, s, st, p, h, commit); }
  }

  lemma RoundApplies(n: nat, st: State, p: Progress, f: ServerId, count: nat)
    requires AppliedOk(st) && |p.replicateNum| == |st.entries|
    requires f < |p.nextIdx| && f < |p.matchIdx| && 1 <= p.nextIdx[f]
    ensures AppliedOk(OnSuccess(n, st, p, f, count).0)
  {
    ApplyReadyOk(st.(commitIdx := CountLoop(n, p.replicateNum, st.commitIdx, p.matchIdx[f] + 1).1));
  }

  /** A counted round leaves the leader in order, and commits only what it may. */
  lemma SucceededLocals(n: nat, s: ServerId, x: Server, f: ServerId, count: nat, h: History, y: Server)
    requires s < n && x.role == Leader && LocalOk(n, s, x, h) && f < n && f != s
    requires x.progress.nextIdx[f] + count <= |x.st.entries|
    requires x.progress.nextIdx[f] - 1 + count <= Ack(h, x.st.currentTerm, f)
    requires h.mode.exact ==> x.progress.nextIdx[f] + count == |x.st.entries|
    requires var r := OnSuccess(n, x.st, x.progress, f, count); y == x.(st := r.0, progress := r.1)
    ensures LocalOk(n, s, y, h)
  {
    RoundProgress(n, s, x.st, x.progress, f, count, h);
    if h.mode.exact { CountsStayExactIff(n, x.st, x.progress, s, f, count); }
    if h.mode.guarded { RoundApplies(n, x.st, x.progress, f, count); }
  }

  lemma SucceededCommits(n: nat, s: ServerId, x: Server, f: ServerId, count: nat, h: History, y: Server)
    requires s < n && ServerOk(s, x, h) && x.role == Leader && LocalOk(n, s, x, h) && f < n && f != s
    requires x.progress.nextIdx[f] + count <= |x.st.entries|
    requires x.progress.nextIdx[f] - 1 + count <= Ack(h, x.st.currentTerm, f)
    requires RoundGuarded(n, s, x.st, x.progress, f, count)
    requires Covered(n, h, x.st.entries, x.st.commitIdx, x.st.currentTerm)
    requires var r := OnSuccess(n, x.st, x.progress, f, count); y == x.(st := r.0, progress := r.1)
    ensures Recommits(n, h, x, y)
  {
    RoundProgress(n, s, x.st, x.progress, f, count, h);
    CommitCounted(n, s, x.st, x.progress, f, count);
    RoundCovers(n, s, x.st, y.progress, h, y.st.commitIdx);
  }

  function Refused(n: nat, x: Server, f: ServerId, term: Term): Server
    requires f < |x.progress.nextIdx|
  {
    var r := OnFailure(x.st, x.progress, f, term);
    NotifyAll(n, x.(st := r.0, progress := r.1), r.2)
  }

  lemma RefusedLocals(n: nat, s: ServerId, x: Server, f: ServerId, term: Term, h: History)
    requires LocalOk(n, s, x, h) && x.role == Leader && f < |x.progress.nextIdx|
    ensures LocalOk(n, s, Refused(n, x, f, term), h) && Quiet(x, Refused(n, x, f, term))
  {
    var r := OnFailure(x.st, x.progress, f, term);
    NotifyOne(n, x.(st := r.0, progress := r.1), term);
  }

  lemma RefusedRound(srv: seq<Server>, h: History, s: ServerId, f: ServerId, term: Term)
    requires s < |srv| && Core(srv, h) && DistinctOk(h) && LocalOk(|srv|, s, srv[s], h)
    requires srv[s].role == Leader && f < |srv[s].progress.nextIdx|
    ensures Settled(srv, s, Refused(|srv|, srv[s], f, term), h, h)
  {
    RefusedLocals(|srv|, s, srv[s], f, term, h);
    QuietSettles(srv, h, s, Refused(|srv|, srv[s], f, term));
  }

  lemma SucceededRound(srv: seq<Server>, h: History, s: ServerId, f: ServerId, count: nat, y: Server)
    requires s < |srv| && Core(srv, h) && DistinctOk(h) && LocalOk(|srv|, s, srv[s], h) && srv[s].role == Leader
    requires f < |srv| && f != s && srv[s].progress.nextIdx[f] - 1 + count <= Ack(h, srv[s].st.currentTerm, f)
    requires h.mode.guarded ==> RoundGuarded(|srv|, s, srv[s].st, srv[s].progress, f, count)
    requires h.mode.exact ==> srv[s].progress.nextIdx[f] + count == |srv[s].st.entries|
    requires var r := OnSuccess(|srv|, srv[s].st, srv[s].progress, f, count); y == srv[s].(st := r.0, progress := r.1)
    ensures Settled(srv, s, y, h, h)
  {
    assert ServerOk(s, srv[s], h);
    AckInside(srv, h, srv[s].st.currentTerm, f);
    SucceededLocals(|srv|, s, srv[s], f, count, h, y);
    if h.mode.guarded {
      assert Covered(|srv|, h, srv[s].st.entries, srv[s].st.commitIdx, srv[s].st.currentTerm);
      SucceededCommits(|srv|, s, srv[s], f, count, h, y);
    }
    RecommitSettles(srv, h, s, y);
  }

  /** Nobody confirms more than there is. */
  lemma AckInside(srv: seq<Server>, h: History, t: Term, v: ServerId)
    requires AcksOk(srv, h) && LogsOk(h) && t in h.logs
    ensures Ack(h, t, v) < |h.logs[t]|
  {
  }

  lemma SucceededStep(c: Cluster, h: History, e: Event)
    requires Core(c.servers, h) && DistinctOk(h) && Enabled(c, e) && LocalOk(|c.servers|, e.s, c.servers[e.s], h)
    requires Obeys(h.mode, c, e)
    requires e.AppendAnswered? && e.rep.ok && AppendAnswerOk(|c.servers|, h, e.from, e.append, e.rep)
    ensures Settled(c.servers, e.s, After(|c.servers|, c.servers[e.s], e), h, h)
  {
    SucceededRound(c.servers, h, e.s, e.from, |e.append.logEntries|, After(|c.servers|, c.servers[e.s], e));
  }

  lemma AppendAnsweredStep(c: Cluster, h: History, e: Event)
    requires Core(c.servers, h) && DistinctOk(h) && Enabled(c, e) && LocalOk(|c.servers|, e.s, c.servers[e.s], h)
    requires Obeys(h.mode, c, e)
    requires e.AppendAnswered? && AppendAnswerOk(|c.servers|, h, e.from, e.append, e.rep)
    ensures Settled(c.servers, e.s, After(|c.servers|, c.servers[e.s], e), h, h)
  {
    if e.rep.ok {
      SucceededStep(c, h, e);
    } else {
      RefusedRound(c.servers, h, e.s, e.from, e.rep.term);
    }
  }
}
