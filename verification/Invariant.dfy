/** The invariant of the whole cluster: the core of the history, the packets in flight, and what every
    server keeps for itself. */
module Invariant {
  import opened RaftDefs
  import opened Handlers
  import opened LeaderState
  import opened Replication
  import opened Cluster
  import opened History
  import opened Stability

  ghost predicate VoteCallOk(h: History, to: ServerId, m: VoteRequest) {
    && 0 < m.term && to != m.candidateId && Key(m.term, m.candidateId) in h.cands
    && var cand := h.cands[Key(m.term, m.candidateId)];
    && |cand| == m.lastLogIdx + 1 && cand[m.lastLogIdx].term == m.lastLogTerm
  }

  ghost predicate VoteAnswerOk(n: nat, h: History, from: ServerId, m: VoteRequest, rep: Reply) {
    rep.ok ==> from < n && Key(m.term, from) in h.ballots && h.ballots[Key(m.term, from)] == m.candidateId
  }

  /** A call is a suffix of its leader's log, and its commit index is covered and inside the call. */
  ghost predicate AppendCallOk(n: nat, h: History, to: ServerId, m: AppendRequest) {
    && 0 < m.term && m.term in h.logs && m.term in h.leaderOf && h.leaderOf[m.term] == m.leaderId
    && to != m.leaderId
    && CutFrom(h.logs[m.term], m.prevLogIdx, m.prevLogTerm, m.logEntries)
    && (h.mode.guarded ==> m.commitIdx <= m.prevLogIdx + |m.logEntries|)
    && Covered(n, h, h.logs[m.term], m.commitIdx, m.term)
  }

  ghost predicate AppendAnswerOk(n: nat, h: History, from: ServerId, m: AppendRequest, rep: Reply) {
    && from != m.leaderId
    && (rep.ok ==> from < n && m.prevLogIdx + |m.logEntries| <= Ack(h, m.term, from))
  }

  ghost predicate PacketOk(n: nat, h: History, p: Packet) {
    match p
    case VoteCall(to, m) => VoteCallOk(h, to, m)
    case VoteAnswer(from, m, rep) => VoteAnswerOk(n, h, from, m, rep)
    case AppendCall(to, m) => AppendCallOk(n, h, to, m)
    case AppendAnswer(from, m, rep) => AppendAnswerOk(n, h, from, m, rep)
  }

  lemma PacketStable(n: nat, h: History, h': History, p: Packet)
    requires Grows(h, h') && PacketOk(n, h, p)
    ensures PacketOk(n, h', p)
  {
    match p
    case AppendCall(to, m) =>
      var log, log' := h.logs[m.term], h'.logs[m.term];
      assert Agree(log, log', |log|);
      CoveredStable(n, h, h', log, log', m.commitIdx, m.term, m.term);
    case AppendAnswer(from, m, rep) =>
      assert Ack(h, m.term, from) <= Ack(h', m.term, from);
    case _ =>
  }

  /** The gate never runs ahead of the term; a candidate's own term is still open to one transition. */
  ghost predicate GateOk(x: Server) {
    x.gate <= x.st.currentTerm && (x.role == Candidate ==> x.gate < x.st.currentTerm)
  }

  ghost predicate CountedOk(n: nat, id: ServerId, x: Server, h: History) {
    x.role == Candidate ==>
      forall v | v in x.counted ::
        v < n && Key(x.st.currentTerm, v) in h.ballots && h.ballots[Key(x.st.currentTerm, v)] == id
  }

  /** What the leader believes matched was confirmed to it. */
  ghost predicate ProgressOk(n: nat, id: ServerId, st: State, p: Progress, h: History) {
    && |p.nextIdx| == n && |p.matchIdx| == n && |p.replicateNum| == |st.entries|
    && (forall f | 0 <= f < n && f != id :: 1 <= p.nextIdx[f] <= |st.entries|)
    && (forall f | 0 <= f < n :: p.matchIdx[f] < |st.entries|)
    && (forall f: ServerId | f < n && f != id :: p.matchIdx[f] <= Ack(h, st.currentTerm, f))
  }

  ghost predicate LocalOk(n: nat, id: ServerId, x: Server, h: History) {
    && GateOk(x)
    && CountedOk(n, id, x, h)
    && (h.mode.guarded ==> AppliedOk(x.st))
    && (x.role == Leader ==> ProgressOk(n, id, x.st, x.progress, h))
    && (h.mode.exact && x.role == Leader ==> CountsExact(x.progress, id))
  }

  lemma LocalStable(n: nat, id: ServerId, x: Server, h: History, h': History)
    requires Grows(h, h') && LocalOk(n, id, x, h)
    ensures LocalOk(n, id, x, h')
  {
  }

  /** No client call is logged twice. */
  ghost predicate Distinct(log: seq<Entry>) {
    forall i, j | 0 <= i < j < |log| :: log[i].srvId != log[j].srvId || log[i].prmIdx != log[j].prmIdx
  }

  ghost predicate DistinctOk(h: History) {
    forall t | t in h.logs :: Distinct(h.logs[t])
  }

  lemma RootedDistinct(h: History, log: seq<Entry>, bound: Term)
    requires DistinctOk(h) && Rooted(h.logs, log, bound)
    ensures Distinct(log)
  {
  }

  ghost predicate Locals(c: Cluster, h: History) {
    forall s | 0 <= s < |c.servers| :: LocalOk(|c.servers|, s, c.servers[s], h)
  }

  ghost predicate Packets(c: Cluster, h: History) {
    forall p | p in c.net :: PacketOk(|c.servers|, h, p)
  }

  ghost predicate Inv(c: Cluster, h: History) {
    Core(c.servers, h) && Locals(c, h) && Packets(c, h) && DistinctOk(h)
  }

  lemma LocalsStep(c: Cluster, h: History, e: Event, h': History)
    requires Locals(c, h) && Enabled(c, e) && Grows(h, h')
    requires LocalOk(|c.servers|, e.s, Step(c, e).servers[e.s], h')
    ensures Locals(Step(c, e), h')
  {
    var c', n := Step(c, e), |c.servers|;
    forall s | 0 <= s < n
      ensures LocalOk(n, s, c'.servers[s], h')
    {
      if s != e.s {
        assert c'.servers[s] == c.servers[s];
        assert LocalOk(n, s, c.servers[s], h);
        LocalStable(n, s, c.servers[s], h, h');
      }
    }
  }

  lemma PacketsStep(c: Cluster, h: History, e: Event, h': History)
    requires Packets(c, h) && Enabled(c, e) && Grows(h, h')
    requires forall p | p in Sent(|c.servers|, c.servers[e.s], e) :: PacketOk(|c.servers|, h', p)
    ensures Packets(Step(c, e), h')
  {
    forall p | p in Step(c, e).net
      ensures PacketOk(|c.servers|, h', p)
    {
      if p in c.net { PacketStable(|c.servers|, h, h', p); }
    }
  }

  /** An event keeps to the mode of its run. */
  ghost predicate Obeys(mode: Mode, c: Cluster, e: Event)
    requires Enabled(c, e)
  {
    (mode.guarded ==> Guarded(c, e)) && (mode.exact ==> CountsWholeLog(c, e))
  }

  /** A step is safe once it is safe where it happens and for what it sends. */
  lemma StepInv(c: Cluster, h: History, e: Event, h': History)
    requires Enabled(c, e)
    requires forall p | p in Sent(|c.servers|, c.servers[e.s], e) :: PacketOk(|c.servers|, h', p)
    requires LocalOk(|c.servers|, e.s, Step(c, e).servers[e.s], h')
    requires Core(Step(c, e).servers, h') && DistinctOk(h')
    requires Inv(c, h) && Grows(h, h')
    ensures Inv(Step(c, e), h')
  {
    LocalsStep(c, h, e, h');
    PacketsStep(c, h, e, h');
  }
}
