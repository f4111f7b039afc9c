/** Facts that, once true, stay true: what the history remembers only grows. */
module Stability {
  import opened RaftDefs
  import opened Replication
  import opened Cluster
  import opened History

  ghost predicate LogsGrow(h: History, h': History) {
    h'.mode == h.mode && forall t | t in h.logs :: t in h'.logs && Agree(h.logs[t], h'.logs[t], |h.logs[t]|)
  }

  ghost predicate VotesGrow(h: History, h': History) {
    && (forall k | k in h.ballots :: k in h'.ballots && h'.ballots[k] == h.ballots[k])
    && (forall k | k in h.cands :: k in h'.cands && h'.cands[k] == h.cands[k])
    && (forall t | t in h.leaderOf :: t in h'.leaderOf && h'.leaderOf[t] == h.leaderOf[t])
  }

  ghost predicate AcksGrow(h: History, h': History) {
    forall t: Term, v: ServerId :: Ack(h, t, v) <= Ack(h', t, v)
  }

  /** A leader only ever adds entries of its own term. */
  ghost predicate OwnTails(h: History, h': History) {
    forall t, i | t in h.logs && t in h'.logs && |h.logs[t]| <= i < |h'.logs[t]| :: h'.logs[t][i].term == t
  }

  ghost predicate Grows(h: History, h': History) {
    LogsGrow(h, h') && VotesGrow(h, h') && AcksGrow(h, h') && OwnTails(h, h')
  }

  /** Terms never decrease, and only servers that have not left a term confirm anything in it. */
  ghost predicate Later(srv: seq<Server>, h: History, srv': seq<Server>, h': History) {
    && |srv'| == |srv|
    && (forall v | 0 <= v < |srv| :: srv[v].st.currentTerm <= srv'[v].st.currentTerm)
    && LogsGrow(h, h')
    && forall t: Term, v: ServerId | v < |srv| && t < srv[v].st.currentTerm :: Ack(h', t, v) == Ack(h, t, v)
  }

  lemma GrowsTrans(a: History, b: History, c: History)
    requires Grows(a, b) && Grows(b, c)
    ensures Grows(a, c)
  {
  }

  lemma BlockedStable(srv: seq<Server>, h: History, srv': seq<Server>, h': History, t: Term, i: Index)
    requires Later(srv, h, srv', h') && Blocked(srv, h, t, i)
    ensures Blocked(srv', h', t, i)
  {
    var b :| BlockedBy(srv, h, t, i, b);
    forall v | v in b
      ensures v < |srv'| && t < srv'[v].st.currentTerm && Ack(h', t, v) < i
    {
      assert srv[v].st.currentTerm <= srv'[v].st.currentTerm;
    }
    assert BlockedBy(srv', h', t, i, b);
  }

  lemma KeptStable(srv: seq<Server>, h: History, srv': seq<Server>, h': History,
                   t: Term, i: Index, log: seq<Entry>, log': seq<Entry>)
    requires Later(srv, h, srv', h')
    requires t in h.logs && i < |h.logs[t]| && Kept(srv, h, t, i, log)
    requires Agree(log, log', i + 1) || log == log'
    ensures t in h'.logs && Kept(srv', h', t, i, log')
  {
    assert Agree(h.logs[t], h'.logs[t], |h.logs[t]|);
    if Blocked(srv, h, t, i) {
      BlockedStable(srv, h, srv', h', t, i);
    }
  }

  lemma ChosenStable(n: nat, h: History, h': History, t: Term, i: Index)
    requires AcksGrow(h, h') && Chosen(n, h, t, i)
    ensures Chosen(n, h', t, i)
  {
    var q :| ChosenBy(n, h, t, i, q);
    forall v | v in q ensures i <= Ack(h', t, v) {
      assert Ack(h, t, v) <= Ack(h', t, v);
    }
    assert ChosenBy(n, h', t, i, q);
  }

  lemma CoveredStable(
      n: nat, h: History, h': History, log: seq<Entry>, log': seq<Entry>, k: Index, bound: Term, bound': Term)
    requires AcksGrow(h, h') && LogsGrow(h, h')
    requires Covered(n, h, log, k, bound) && bound <= bound'
    requires h.mode.guarded ==> Agree(log, log', k + 1) || log == log'
    ensures Covered(n, h', log', k, bound')
  {
    if h.mode.guarded && k > 0 {
      var t: Term, i: Index :| CoveredBy(n, h, log, k, bound, t, i);
      ChosenStable(n, h, h', t, i);
      assert Agree(h.logs[t], h'.logs[t], |h.logs[t]|);
      assert Agree(h'.logs[t], log', k + 1);
      assert CoveredBy(n, h', log', k, bound', t, i);
    }
  }

  lemma RootedStable(h: History, h': History, log: seq<Entry>, bound: Term, bound': Term)
    requires LogsGrow(h, h') && Rooted(h.logs, log, bound) && bound <= bound'
    ensures Rooted(h'.logs, log, bound')
  {
  }

  /** Log Matching: equal terms at an index of two rooted logs mean equal prefixes. */
  lemma RootedMatch(h: History, a: seq<Entry>, b: seq<Entry>, x: Term, y: Term)
    requires Rooted(h.logs, a, x) && Rooted(h.logs, b, y)
    ensures Matching(a, b)
  {
  }

  /** Terms along a rooted log never decrease. */
  lemma RootedSorted(h: History, log: seq<Entry>, bound: Term, i: Index, j: Index)
    requires LogsOk(h) && Rooted(h.logs, log, bound) && i <= j < |log|
    ensures log[i].term <= log[j].term
  {
  }

  /** A prefix of a leader's log is rooted. */
  lemma PrefixRooted(h: History, t: Term, k: nat)
    requires t in h.logs && Rooted(h.logs, h.logs[t], t) && 0 < k <= |h.logs[t]|
    ensures Rooted(h.logs, h.logs[t][..k], t)
  {
  }

  /** An entry a majority confirmed is not blocked, so whatever keeps it really has it. */
  lemma ChosenNotBlocked(srv: seq<Server>, h: History, t: Term, i: Index)
    requires Chosen(|srv|, h, t, i)
    ensures !Blocked(srv, h, t, i)
  {
    if Blocked(srv, h, t, i) {
      var b :| BlockedBy(srv, h, t, i, b);
      var p :| ChosenBy(|srv|, h, t, i, p);
      var v := SetsMeet(|srv|, p, b);
      assert false;
    }
  }

  /** What a server covers by term `bound` is in the log of every leader from `bound` on. */
  lemma CoveredInLeader(srv: seq<Server>, h: History, log: seq<Entry>, k: Index, bound: Term, u: Term)
    requires LogsOk(h) && LeadersKeep(srv, h) && h.mode.guarded
    requires Rooted(h.logs, log, bound) && Covered(|srv|, h, log, k, bound)
    requires bound <= u && u in h.logs
    ensures Agree(log, h.logs[u], k + 1)
  {
    assert Agree(log, h.logs[log[0].term], 1);
    assert h.logs[log[0].term][0] == SENTINEL == h.logs[u][0];
    if k > 0 {
      var t: Term, i: Index :| CoveredBy(|srv|, h, log, k, bound, t, i);
      if t < u {
        ChosenNotBlocked(srv, h, t, i);
        assert Kept(srv, h, t, i, h.logs[u]);
      }
    }
  }
}
