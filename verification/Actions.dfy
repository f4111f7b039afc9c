/** The elementary changes steps are made of, and the proof that each keeps the invariant. */
module Actions {
  import opened RaftDefs
  import opened Cluster
  import opened History
  import opened Stability

  lemma LeadersKeepFrame(srv: seq<Server>, h: History, srv': seq<Server>, h': History)
    requires LeadersKeep(srv, h) && Later(srv, h, srv', h') && h'.logs == h.logs
    ensures LeadersKeep(srv', h')
  {
    forall t: Term, i: Index, u: Term | Own(|srv'|, h', t, i) && t < u && u in h'.logs
      ensures Kept(srv', h', t, i, h'.logs[u])
    {
      assert Own(|srv|, h, t, i);
      KeptStable(srv, h, srv', h', t, i, h.logs[u], h.logs[u]);
    }
  }

  lemma ServersKeepFrame(srv: seq<Server>, h: History, s: ServerId, y: Server, h': History)
    requires s < |srv| && y.st.entries == srv[s].st.entries
    requires ServersKeep(srv, h) && Later(srv, h, srv[s := y], h') && h'.logs == h.logs && h'.acks == h.acks
    ensures ServersKeep(srv[s := y], h')
  {
    var srv' := srv[s := y];
    forall t: Term, i: Index, v: ServerId | Own(|srv'|, h', t, i) && 0 <= v < |srv'| && i <= Ack(h', t, v)
      ensures Kept(srv', h', t, i, srv'[v].st.entries)
    {
      assert Own(|srv|, h, t, i) && i <= Ack(h, t, v);
      KeptStable(srv, h, srv', h', t, i, srv[v].st.entries, srv[v].st.entries);
    }
  }

  lemma VotersKeepFrame(srv: seq<Server>, h: History, srv': seq<Server>, h': History)
    requires VotersKeep(srv, h) && AcksOk(srv, h) && BallotsOk(srv, h) && Later(srv, h, srv', h')
    requires h'.logs == h.logs && h'.ballots == h.ballots && h'.cands == h.cands
    ensures VotersKeep(srv', h')
  {
    forall t: Term, i: Index, k: Key | Own(|srv'|, h', t, i) && k in h'.ballots && t < k.t && i <= Ack(h', t, k.v)
      ensures Key(k.t, h'.ballots[k]) in h'.cands
      ensures Kept(srv', h', t, i, h'.cands[Key(k.t, h'.ballots[k])])
    {
      assert k.t <= srv[k.v].st.currentTerm;
      assert Own(|srv|, h, t, i) && i <= Ack(h, t, k.v);
      var log := h.cands[Key(k.t, h.ballots[k])];
      KeptStable(srv, h, srv', h', t, i, log, log);
    }
  }

  lemma CommitsFrame(srv: seq<Server>, h: History, s: ServerId, y: Server, h': History)
    requires s < |srv| && CommitsOk(srv, h) && AcksGrow(h, h') && LogsGrow(h, h')
    requires Covered(|srv|, h', y.st.entries, y.st.commitIdx, y.st.currentTerm)
    ensures CommitsOk(srv[s := y], h')
  {
    var srv' := srv[s := y];
    forall v | 0 <= v < |srv'|
      ensures Covered(|srv'|, h', srv'[v].st.entries, srv'[v].st.commitIdx, srv'[v].st.currentTerm)
    {
      if v != s {
        var log := srv[v].st.entries;
        CoveredStable(|srv|, h, h', log, log, srv[v].st.commitIdx, srv[v].st.currentTerm, srv[v].st.currentTerm);
      }
    }
  }

  lemma BallotsFrame(srv: seq<Server>, h: History, s: ServerId, y: Server, h': History)
    requires s < |srv| && srv[s].st.currentTerm <= y.st.currentTerm
    requires srv[s].st.currentTerm == y.st.currentTerm ==> y.st.votedFor == srv[s].st.votedFor
    requires BallotsOk(srv, h) && h'.ballots == h.ballots && h'.cands == h.cands
    ensures BallotsOk(srv[s := y], h')
  {
  }

  lemma CandsFrame(srv: seq<Server>, h: History, s: ServerId, y: Server, h': History)
    requires s < |srv| && srv[s].st.currentTerm <= y.st.currentTerm
    requires CandsOk(srv, h) && h'.cands == h.cands && LogsGrow(h, h') && VotesGrow(h, h')
    ensures CandsOk(srv[s := y], h')
  {
  }

  lemma AcksFrame(srv: seq<Server>, h: History, s: ServerId, y: Server, h': History)
    requires s < |srv| && srv[s].st.currentTerm <= y.st.currentTerm
    requires AcksOk(srv, h) && h'.acks == h.acks && LogsGrow(h, h')
    ensures AcksOk(srv[s := y], h')
  {
  }

  lemma LeadersFrame(srv: seq<Server>, h: History, s: ServerId, y: Server, h': History)
    requires s < |srv| && srv[s].st.currentTerm <= y.st.currentTerm
    requires LeadersOk(srv, h) && VotesGrow(h, h')
    requires h'.logs.Keys == h.logs.Keys && h'.leaderOf == h.leaderOf && h'.voters == h.voters
    ensures LeadersOk(srv[s := y], h')
  {
    assert forall t :: t in h'.logs <==> t in h.logs;
  }

  /** A step at one server leaves every other server in order. */
  lemma ServersFrame(srv: seq<Server>, h: History, s: ServerId, y: Server, h': History)
    requires s < |srv| && ServersOk(srv, h) && LogsGrow(h, h') && VotesGrow(h, h')
    requires ServerOk(s, y, h')
    requires forall v | 0 <= v < |srv| && v != s && srv[v].role == Leader ::
      var t := srv[v].st.currentTerm; t in h.logs ==> h'.logs[t] == h.logs[t] && Ack(h', t, v) == Ack(h, t, v)
    requires forall v | 0 <= v < |srv| && v != s && srv[v].role == Candidate ::
      var t := srv[v].st.currentTerm; t in h'.leaderOf && t !in h.leaderOf ==> h'.leaderOf[t] != v
    ensures ServersOk(srv[s := y], h')
  {
  }

  /** The term may rise and the role may fall back; log and commit index stay. */
  ghost predicate Quiet(x: Server, y: Server) {
    && y.st.entries == x.st.entries && y.st.commitIdx == x.st.commitIdx
    && x.st.currentTerm <= y.st.currentTerm
    && (x.st.currentTerm == y.st.currentTerm ==> y.st.votedFor == x.st.votedFor)
    && (y.role == Follower || y.role == Down || (y.role == x.role && y.st.currentTerm == x.st.currentTerm))
  }

  lemma QuietBasics(srv: seq<Server>, h: History, s: ServerId, y: Server)
    requires Basics(srv, h) && s < |srv| && Quiet(srv[s], y)
    ensures Basics(srv[s := y], h)
  {
    assert ServerOk(s, srv[s], h);
    BallotsFrame(srv, h, s, y, h);
    CandsFrame(srv, h, s, y, h);
    AcksFrame(srv, h, s, y, h);
    LeadersFrame(srv, h, s, y, h);
    RootedStable(h, h, y.st.entries, srv[s].st.currentTerm, y.st.currentTerm);
    ServersFrame(srv, h, s, y, h);
  }

  lemma QuietPromises(srv: seq<Server>, h: History, s: ServerId, y: Server)
    requires Core(srv, h) && s < |srv| && Quiet(srv[s], y)
    ensures Promises(srv[s := y], h)
  {
    var srv', log := srv[s := y], y.st.entries;
    LeadersKeepFrame(srv, h, srv', h);
    ServersKeepFrame(srv, h, s, y, h);
    VotersKeepFrame(srv, h, srv', h);
    CoveredStable(|srv|, h, h, log, log, y.st.commitIdx, srv[s].st.currentTerm, y.st.currentTerm);
    CommitsFrame(srv, h, s, y, h);
  }

  /** A server stands for election in its next term and votes for itself. */
  ghost predicate Stands(s: ServerId, x: Server, y: Server) {
    && y.st.entries == x.st.entries && y.st.commitIdx == x.st.commitIdx
    && y.st.currentTerm == x.st.currentTerm + 1 && y.st.votedFor == Some(s)
    && y.role == Candidate
  }

  ghost function Stood(h: History, s: ServerId, t: Term, log: seq<Entry>): History {
    h.(ballots := h.ballots[Key(t, s) := s], cands := h.cands[Key(t, s) := log])
  }

  lemma StandVotersKeep(srv: seq<Server>, h: History, s: ServerId, y: Server)
    requires s < |srv| && Stands(s, srv[s], y)
    requires VotersKeep(srv, h) && ServersKeep(srv, h) && AcksOk(srv, h) && BallotsOk(srv, h) && CandsOk(srv, h)
    ensures VotersKeep(srv[s := y], Stood(h, s, y.st.currentTerm, y.st.entries))
  {
    var srv', h' := srv[s := y], Stood(h, s, y.st.currentTerm, y.st.entries);
    assert Later(srv, h, srv', h');
    forall t: Term, i: Index, k: Key | Own(|srv'|, h', t, i) && k in h'.ballots && t < k.t && i <= Ack(h', t, k.v)
      ensures Key(k.t, h'.ballots[k]) in h'.cands
      ensures Kept(srv', h', t, i, h'.cands[Key(k.t, h'.ballots[k])])
    {
      assert Own(|srv|, h, t, i) && i <= Ack(h, t, k.v);
      if k == Key(y.st.currentTerm, s) {
        KeptStable(srv, h, srv', h', t, i, y.st.entries, y.st.entries);
      } else {
        var key := Key(k.t, h.ballots[k]);
        assert key in h.cands && key.t <= srv[key.v].st.currentTerm;
        KeptStable(srv, h, srv', h', t, i, h.cands[key], h.cands[key]);
      }
    }
  }

  lemma StandBallots(srv: seq<Server>, h: History, s: ServerId, y: Server)
    requires s < |srv| && Stands(s, srv[s], y) && BallotsOk(srv, h)
    ensures Key(y.st.currentTerm, s) !in h.ballots
    ensures BallotsOk(srv[s := y], Stood(h, s, y.st.currentTerm, y.st.entries))
  {
  }

  lemma StandCands(srv: seq<Server>, h: History, s: ServerId, y: Server)
    requires s < |srv| && Stands(s, srv[s], y) && Rooted(h.logs, y.st.entries, srv[s].st.currentTerm)
    requires CandsOk(srv, h)
    ensures Key(y.st.currentTerm, s) !in h.cands
    ensures CandsOk(srv[s := y], Stood(h, s, y.st.currentTerm, y.st.entries))
  {
    var srv', h' := srv[s := y], Stood(h, s, y.st.currentTerm, y.st.entries);
    forall k | k in h'.cands
      ensures k.v < |srv'| && 0 < k.t <= srv'[k.v].st.currentTerm && Rooted(h'.logs, h'.cands[k], k.t - 1)
    {
      if k != Key(y.st.currentTerm, s) { assert k in h.cands; }
    }
  }

  lemma StandLeaders(srv: seq<Server>, h: History, s: ServerId, y: Server)
    requires s < |srv| && Stands(s, srv[s], y) && LeadersOk(srv, h) && BallotsOk(srv, h) && LogsOk(h)
    ensures var h' := Stood(h, s, y.st.currentTerm, y.st.entries);
            LeadersOk(srv[s := y], h') && LogsOk(h')
  {
    assert Key(y.st.currentTerm, s) !in h.ballots;
  }

  lemma StandServers(srv: seq<Server>, h: History, s: ServerId, y: Server)
    requires s < |srv| && Stands(s, srv[s], y) && ServersOk(srv, h) && LeadersOk(srv, h)
    requires Key(y.st.currentTerm, s) !in h.ballots && Key(y.st.currentTerm, s) !in h.cands
    ensures ServersOk(srv[s := y], Stood(h, s, y.st.currentTerm, y.st.entries))
  {
    var h' := Stood(h, s, y.st.currentTerm, y.st.entries);
    assert ServerOk(s, srv[s], h);
    RootedStable(h, h', y.st.entries, srv[s].st.currentTerm, y.st.currentTerm);
    ServersFrame(srv, h, s, y, h');
  }

  lemma StandBasics(srv: seq<Server>, h: History, s: ServerId, y: Server)
    requires Basics(srv, h) && s < |srv| && Stands(s, srv[s], y)
    ensures Basics(srv[s := y], Stood(h, s, y.st.currentTerm, y.st.entries))
  {
    var srv', h' := srv[s := y], Stood(h, s, y.st.currentTerm, y.st.entries);
    assert ServerOk(s, srv[s], h);
    StandBallots(srv, h, s, y);
    StandCands(srv, h, s, y);
    AcksFrame(srv, h, s, y, h');
    StandServers(srv, h, s, y);
    StandLeaders(srv, h, s, y);
  }

  lemma StandPromises(srv: seq<Server>, h: History, s: ServerId, y: Server)
    requires Core(srv, h) && s < |srv| && Stands(s, srv[s], y)
    ensures Promises(srv[s := y], Stood(h, s, y.st.currentTerm, y.st.entries))
  {
    var srv', h' := srv[s := y], Stood(h, s, y.st.currentTerm, y.st.entries);
    var log := y.st.entries;
    LeadersKeepFrame(srv, h, srv', h');
    ServersKeepFrame(srv, h, s, y, h');
    StandVotersKeep(srv, h, s, y);
    CoveredStable(|srv|, h, h', log, log, y.st.commitIdx, srv[s].st.currentTerm, y.st.currentTerm);
    CommitsFrame(srv, h, s, y, h');
  }

  lemma StandGrows(srv: seq<Server>, h: History, s: ServerId, y: Server)
    requires s < |srv| && Stands(s, srv[s], y) && BallotsOk(srv, h) && CandsOk(srv, h)
    ensures Grows(h, Stood(h, s, y.st.currentTerm, y.st.entries))
  {
    assert Key(y.st.currentTerm, s) !in h.ballots && Key(y.st.currentTerm, s) !in h.cands;
  }
}
