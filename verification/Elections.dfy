/** Granting a vote and winning an election keep the invariant. */
module Elections {
  import opened RaftDefs
  import opened Handlers
  import opened Cluster
  import opened History
  import opened Stability
  import opened Actions

  /** The voter's own up-to-date check: what it keeps, the candidate keeps. */
  lemma UpToDateKeeps(
      srv: seq<Server>, h: History, t: Term, i: Index, voter: seq<Entry>, cand: seq<Entry>, x: Term, y: Term)
    requires LogsOk(h) && LeadersKeep(srv, h)
    requires Rooted(h.logs, voter, x) && Rooted(h.logs, cand, y)
    requires UpToDate(voter, |cand| - 1, cand[|cand| - 1].term)
    requires Own(|srv|, h, t, i) && t <= h.logs[t][i].term + 1 && Kept(srv, h, t, i, voter)
    ensures Kept(srv, h, t, i, cand)
  {
  }

  /** A server votes for a candidate of its current term. */
  ghost predicate Grants(x: Server, y: Server, c: ServerId) {
    && y.st.entries == x.st.entries && y.st.commitIdx == x.st.commitIdx
    && y.st.currentTerm == x.st.currentTerm
    && (x.st.votedFor == None || x.st.votedFor == Some(c)) && y.st.votedFor == Some(c)
    && (y.role == x.role || y.role == Follower)
  }

  ghost function Granted(h: History, s: ServerId, t: Term, c: ServerId): History {
    h.(ballots := h.ballots[Key(t, s) := c])
  }

  /** One vote per term: a vote given in the current term is never given to somebody else. */
  lemma GrantGrows(srv: seq<Server>, h: History, s: ServerId, y: Server, c: ServerId)
    requires s < |srv| && Grants(srv[s], y, c) && BallotsOk(srv, h)
    ensures Grows(h, Granted(h, s, y.st.currentTerm, c))
    ensures Key(y.st.currentTerm, s) in h.ballots ==> h.ballots[Key(y.st.currentTerm, s)] == c
  {
  }

  lemma GrantBallots(srv: seq<Server>, h: History, s: ServerId, y: Server, c: ServerId)
    requires s < |srv| && Grants(srv[s], y, c) && BallotsOk(srv, h)
    requires Key(y.st.currentTerm, c) in h.cands
    ensures BallotsOk(srv[s := y], Granted(h, s, y.st.currentTerm, c))
  {
  }

  lemma GrantBasics(srv: seq<Server>, h: History, s: ServerId, y: Server, c: ServerId)
    requires Basics(srv, h) && s < |srv| && Grants(srv[s], y, c) && Key(y.st.currentTerm, c) in h.cands
    ensures Basics(srv[s := y], Granted(h, s, y.st.currentTerm, c))
  {
    var h' := Granted(h, s, y.st.currentTerm, c);
    GrantGrows(srv, h, s, y, c);
    GrantBallots(srv, h, s, y, c);
    CandsFrame(srv, h, s, y, h');
    AcksFrame(srv, h, s, y, h');
    LeadersFrame(srv, h, s, y, h');
    GrantServers(srv, h, s, y, c);
  }

  lemma GrantServers(srv: seq<Server>, h: History, s: ServerId, y: Server, c: ServerId)
    requires s < |srv| && Grants(srv[s], y, c) && ServersOk(srv, h)
    requires Grows(h, Granted(h, s, y.st.currentTerm, c))
    ensures ServersOk(srv[s := y], Granted(h, s, y.st.currentTerm, c))
  {
  }

  /** What a voter confirmed in an earlier term, the candidate it votes for keeps. With at most two servers
      the candidate itself has to have confirmed what is committed. */
  lemma CandidateKeeps(srv: seq<Server>, h: History, s: ServerId, u: Term, c: ServerId, t: Term, i: Index)
    requires s < |srv| && Key(u, c) in h.cands && 0 < u
    requires LogsOk(h) && LeadersKeep(srv, h) && ServersKeep(srv, h) && VotersKeep(srv, h) && CandsOk(srv, h)
    requires Rooted(h.logs, srv[s].st.entries, u)
    requires var cand := h.cands[Key(u, c)]; UpToDate(srv[s].st.entries, |cand| - 1, cand[|cand| - 1].term)
    requires Own(|srv|, h, t, i) && t < u && i <= Ack(h, t, s)
    ensures Kept(srv, h, t, i, h.cands[Key(u, c)])
  {
    if t <= h.logs[t][i].term + 1 {
      assert Kept(srv, h, t, i, srv[s].st.entries);
      UpToDateKeeps(srv, h, t, i, srv[s].st.entries, h.cands[Key(u, c)], u, u - 1);
    } else if Ack(h, t, c) < i {
      assert BlockedBy(srv, h, t, i, {c});
    } else {
      assert Key(u, c) in h.ballots && h.ballots[Key(u, c)] == c;
    }
  }

  lemma GrantVotersKeep(srv: seq<Server>, h: History, s: ServerId, y: Server, c: ServerId)
    requires s < |srv| && Grants(srv[s], y, c) && Key(y.st.currentTerm, c) in h.cands && 0 < y.st.currentTerm
    requires LogsOk(h) && LeadersKeep(srv, h) && ServersKeep(srv, h) && VotersKeep(srv, h) && CandsOk(srv, h)
    requires Rooted(h.logs, srv[s].st.entries, y.st.currentTerm)
    requires var cand := h.cands[Key(y.st.currentTerm, c)];
             && Rooted(h.logs, cand, y.st.currentTerm - 1)
             && UpToDate(srv[s].st.entries, |cand| - 1, cand[|cand| - 1].term)
    ensures VotersKeep(srv[s := y], Granted(h, s, y.st.currentTerm, c))
  {
    var srv', h' := srv[s := y], Granted(h, s, y.st.currentTerm, c);
    assert Later(srv, h, srv', h');
    forall t: Term, i: Index, k: Key | Own(|srv'|, h', t, i) && k in h'.ballots && t < k.t && i <= Ack(h', t, k.v)
      ensures Key(k.t, h'.ballots[k]) in h'.cands
      ensures Kept(srv', h', t, i, h'.cands[Key(k.t, h'.ballots[k])])
    {
      assert Own(|srv|, h, t, i) && i <= Ack(h, t, k.v);
      if k == Key(y.st.currentTerm, s) {
        var cand := h.cands[Key(y.st.currentTerm, c)];
        CandidateKeeps(srv, h, s, y.st.currentTerm, c, t, i);
        KeptStable(srv, h, srv', h', t, i, cand, cand);
      } else {
        var log := h.cands[Key(k.t, h.ballots[k])];
        KeptStable(srv, h, srv', h', t, i, log, log);
      }
    }
  }

  lemma GrantStays(srv: seq<Server>, h: History, s: ServerId, y: Server, c: ServerId)
    requires s < |srv| && Grants(srv[s], y, c) && Grows(h, Granted(h, s, y.st.currentTerm, c))
    requires LeadersKeep(srv, h) && ServersKeep(srv, h) && CommitsOk(srv, h)
    ensures var h' := Granted(h, s, y.st.currentTerm, c);
            LeadersKeep(srv[s := y], h') && ServersKeep(srv[s := y], h') && CommitsOk(srv[s := y], h')
  {
    var srv', h', log := srv[s := y], Granted(h, s, y.st.currentTerm, c), y.st.entries;
    LeadersKeepFrame(srv, h, srv', h');
    ServersKeepFrame(srv, h, s, y, h');
    CoveredStable(|srv|, h, h', log, log, y.st.commitIdx, y.st.currentTerm, y.st.currentTerm);
    CommitsFrame(srv, h, s, y, h');
  }

  lemma GrantPromises(srv: seq<Server>, h: History, s: ServerId, y: Server, c: ServerId)
    requires Core(srv, h) && s < |srv| && Grants(srv[s], y, c) && Key(y.st.currentTerm, c) in h.cands
    requires var cand := h.cands[Key(y.st.currentTerm, c)];
             |cand| > 0 && |srv[s].st.entries| > 0 && UpToDate(srv[s].st.entries, |cand| - 1, cand[|cand| - 1].term)
    ensures Promises(srv[s := y], Granted(h, s, y.st.currentTerm, c))
  {
    assert ServerOk(s, srv[s], h);
    GrantGrows(srv, h, s, y, c);
    GrantStays(srv, h, s, y, c);
    GrantVotersKeep(srv, h, s, y, c);
  }

  /** A candidate with the votes of a majority becomes leader. */
  ghost predicate Wins(s: ServerId, x: Server, y: Server, h: History, q: set<ServerId>) {
    && x.role == Candidate && y.role == Leader && 0 < x.st.currentTerm
    && y.st == x.st && |y.st.entries| > 0
    && forall v | v in q :: Key(x.st.currentTerm, v) in h.ballots && h.ballots[Key(x.st.currentTerm, v)] == s
  }

  ghost function Elected(h: History, s: ServerId, st: State, q: set<ServerId>): History
    requires |st.entries| > 0
  {
    h.(logs := h.logs[st.currentTerm := st.entries],
       leaderOf := h.leaderOf[st.currentTerm := s],
       voters := h.voters[st.currentTerm := q],
       acks := h.acks[Key(st.currentTerm, s) := |st.entries| - 1])
  }

  /** Election Safety, one step: no term is won twice. */
  lemma WinIsFirst(srv: seq<Server>, h: History, s: ServerId, y: Server, q: set<ServerId>)
    requires s < |srv| && Wins(s, srv[s], y, h, q) && Quorum(|srv|, q)
    requires LeadersOk(srv, h) && LogsOk(h) && ServerOk(s, srv[s], h)
    ensures y.st.currentTerm !in h.logs && y.st.currentTerm !in h.leaderOf
  {
    var t := y.st.currentTerm;
    if t in h.logs {
      var v := QuorumsMeet(|srv|, q, h.voters[t]);
      assert false;
    }
  }

  lemma WinGrows(srv: seq<Server>, h: History, s: ServerId, y: Server, q: set<ServerId>)
    requires s < |srv| && Wins(s, srv[s], y, h, q)
    requires AcksOk(srv, h)
    requires y.st.currentTerm !in h.logs && y.st.currentTerm !in h.leaderOf
    ensures Grows(h, Elected(h, s, y.st, q))
    ensures Later(srv, h, srv[s := y], Elected(h, s, y.st, q))
    ensures forall v: ServerId :: Key(y.st.currentTerm, v) !in h.acks
  {
    assert forall v: ServerId :: Key(y.st.currentTerm, v) !in h.acks;
  }

  lemma WinLogs(srv: seq<Server>, h: History, s: ServerId, y: Server, q: set<ServerId>)
    requires s < |srv| && Wins(s, srv[s], y, h, q)
    requires LogsOk(h) && Rooted(h.logs, y.st.entries, y.st.currentTerm)
    requires y.st.currentTerm !in h.logs && y.st.currentTerm > 0
    ensures LogsOk(Elected(h, s, y.st, q))
  {
  }

  lemma WinLeaders(srv: seq<Server>, h: History, s: ServerId, y: Server, q: set<ServerId>)
    requires s < |srv| && Wins(s, srv[s], y, h, q) && Quorum(|srv|, q) && LeadersOk(srv, h)
    ensures LeadersOk(srv[s := y], Elected(h, s, y.st, q))
  {
  }

  lemma WinAcks(srv: seq<Server>, h: History, s: ServerId, y: Server, q: set<ServerId>)
    requires s < |srv| && Wins(s, srv[s], y, h, q) && AcksOk(srv, h) && |y.st.entries| > 0
    requires y.st.currentTerm !in h.logs
    ensures AcksOk(srv[s := y], Elected(h, s, y.st, q))
  {
  }

  lemma WinServers(srv: seq<Server>, h: History, s: ServerId, y: Server, q: set<ServerId>)
    requires s < |srv| && Wins(s, srv[s], y, h, q) && ServersOk(srv, h)
    requires y.st.currentTerm !in h.logs && Grows(h, Elected(h, s, y.st, q))
    requires Rooted(h.logs, y.st.entries, y.st.currentTerm)
    ensures ServersOk(srv[s := y], Elected(h, s, y.st, q))
  {
    var h' := Elected(h, s, y.st, q);
    RootedStable(h, h', y.st.entries, y.st.currentTerm, y.st.currentTerm);
    ServersFrame(srv, h, s, y, h');
  }

  lemma WinBasics(srv: seq<Server>, h: History, s: ServerId, y: Server, q: set<ServerId>)
    requires Basics(srv, h) && s < |srv| && Wins(s, srv[s], y, h, q) && Quorum(|srv|, q)
    ensures Basics(srv[s := y], Elected(h, s, y.st, q))
  {
    var h' := Elected(h, s, y.st, q);
    assert ServerOk(s, srv[s], h);
    WinIsFirst(srv, h, s, y, q);
    WinGrows(srv, h, s, y, q);
    WinLogs(srv, h, s, y, q);
    WinLeaders(srv, h, s, y, q);
    BallotsFrame(srv, h, s, y, h');
    CandsFrame(srv, h, s, y, h');
    WinAcks(srv, h, s, y, q);
    WinServers(srv, h, s, y, q);
  }

  /** The voters of a leader of a later term have left this term before its leader was found. */
  lemma LaterVotersLeft(srv: seq<Server>, h: History, s: ServerId, y: Server, q: set<ServerId>, i: Index, u: Term)
    requires s < |srv| && Wins(s, srv[s], y, h, q) && BallotsOk(srv, h) && LeadersOk(srv, h)
    requires (forall v: ServerId :: Key(y.st.currentTerm, v) !in h.acks) && 0 < i
    requires y.st.currentTerm < u && u in h.logs
    ensures Blocked(srv[s := y], Elected(h, s, y.st, q), y.st.currentTerm, i)
  {
    var w, b := y.st.currentTerm, h.voters[u];
    forall v | v in b ensures v < |srv| && w < srv[v].st.currentTerm && v != s {
      assert Key(u, v) in h.ballots;
    }
    assert BlockedBy(srv[s := y], Elected(h, s, y.st, q), w, i, b);
  }

  /** Either one of the new leader's voters had confirmed the entry, or none of them ever will. */
  lemma WinnerKeeps(srv: seq<Server>, h: History, s: ServerId, y: Server, q: set<ServerId>, t: Term, i: Index)
    requires s < |srv| && Wins(s, srv[s], y, h, q) && Quorum(|srv|, q)
    requires VotersKeep(srv, h) && BallotsOk(srv, h) && ServerOk(s, srv[s], h)
    requires Own(|srv|, h, t, i) && t < y.st.currentTerm
    ensures Kept(srv, h, t, i, y.st.entries)
  {
    var w := y.st.currentTerm;
    if v :| v in q && i <= Ack(h, t, v) {
      assert Key(w, v) in h.ballots && h.ballots[Key(w, v)] == s;
      assert Kept(srv, h, t, i, h.cands[Key(w, s)]);
    } else {
      forall v | v in q ensures v < |srv| && t < srv[v].st.currentTerm && Ack(h, t, v) < i {
        assert Key(w, v) in h.ballots;
      }
      assert BlockedBy(srv, h, t, i, q);
    }
  }

  /** The new leader keeps everything earlier leaders created that may still be committed. */
  lemma WinLeadersKeep(srv: seq<Server>, h: History, s: ServerId, y: Server, q: set<ServerId>)
    requires s < |srv| && Wins(s, srv[s], y, h, q) && Quorum(|srv|, q)
    requires LeadersKeep(srv, h) && VotersKeep(srv, h) && BallotsOk(srv, h) && LeadersOk(srv, h)
    requires ServerOk(s, srv[s], h) && Rooted(h.logs, y.st.entries, y.st.currentTerm)
    requires forall v: ServerId :: Key(y.st.currentTerm, v) !in h.acks
    requires y.st.currentTerm !in h.logs
    requires Later(srv, h, srv[s := y], Elected(h, s, y.st, q))
    ensures LeadersKeep(srv[s := y], Elected(h, s, y.st, q))
  {
    var srv', h', w := srv[s := y], Elected(h, s, y.st, q), y.st.currentTerm;
    forall t: Term, i: Index, u: Term | Own(|srv'|, h', t, i) && t < u && u in h'.logs
      ensures Kept(srv', h', t, i, h'.logs[u])
    {
      if t == w {
        LaterVotersLeft(srv, h, s, y, q, i, u);
      } else {
        assert Own(|srv|, h, t, i);
        if u == w { WinnerKeeps(srv, h, s, y, q, t, i); }
        KeptStable(srv, h, srv', h', t, i, h'.logs[u], h'.logs[u]);
      }
    }
  }

  lemma WinServersKeep(srv: seq<Server>, h: History, s: ServerId, y: Server, q: set<ServerId>)
    requires s < |srv| && Wins(s, srv[s], y, h, q) && ServersKeep(srv, h)
    requires forall v: ServerId :: Key(y.st.currentTerm, v) !in h.acks
    requires y.st.currentTerm !in h.logs && Rooted(h.logs, y.st.entries, y.st.currentTerm)
    requires Later(srv, h, srv[s := y], Elected(h, s, y.st, q))
    ensures ServersKeep(srv[s := y], Elected(h, s, y.st, q))
  {
    var srv', h' := srv[s := y], Elected(h, s, y.st, q);
    forall t: Term, i: Index, v: ServerId | Own(|srv'|, h', t, i) && 0 <= v < |srv'| && i <= Ack(h', t, v)
      ensures Kept(srv', h', t, i, srv'[v].st.entries)
    {
      if t == y.st.currentTerm {
        assert v == s;
      } else {
        assert Own(|srv|, h, t, i) && Ack(h', t, v) == Ack(h, t, v);
        KeptStable(srv, h, srv', h', t, i, srv[v].st.entries, srv[v].st.entries);
      }
    }
  }

  lemma WinVotersKeep(srv: seq<Server>, h: History, s: ServerId, y: Server, q: set<ServerId>)
    requires s < |srv| && Wins(s, srv[s], y, h, q) && VotersKeep(srv, h)
    requires forall v: ServerId :: Key(y.st.currentTerm, v) !in h.acks
    requires BallotsOk(srv, h)
    requires y.st.currentTerm !in h.logs && Rooted(h.logs, y.st.entries, y.st.currentTerm)
    requires Later(srv, h, srv[s := y], Elected(h, s, y.st, q))
    ensures VotersKeep(srv[s := y], Elected(h, s, y.st, q))
  {
    var srv', h' := srv[s := y], Elected(h, s, y.st, q);
    forall t: Term, i: Index, k: Key | Own(|srv'|, h', t, i) && k in h'.ballots && t < k.t && i <= Ack(h', t, k.v)
      ensures Key(k.t, h'.ballots[k]) in h'.cands
      ensures Kept(srv', h', t, i, h'.cands[Key(k.t, h'.ballots[k])])
    {
      assert k.t <= srv[k.v].st.currentTerm;
      assert t != y.st.currentTerm;
      assert Own(|srv|, h, t, i) && i <= Ack(h, t, k.v);
      var log := h.cands[Key(k.t, h.ballots[k])];
      KeptStable(srv, h, srv', h', t, i, log, log);
    }
  }

  lemma WinPromises(srv: seq<Server>, h: History, s: ServerId, y: Server, q: set<ServerId>)
    requires Core(srv, h) && s < |srv| && Wins(s, srv[s], y, h, q) && Quorum(|srv|, q)
    ensures Promises(srv[s := y], Elected(h, s, y.st, q))
  {
    var h', log := Elected(h, s, y.st, q), y.st.entries;
    assert ServerOk(s, srv[s], h);
    WinIsFirst(srv, h, s, y, q);
    WinGrows(srv, h, s, y, q);
    WinLeadersKeep(srv, h, s, y, q);
    WinServersKeep(srv, h, s, y, q);
    WinVotersKeep(srv, h, s, y, q);
    CoveredStable(|srv|, h, h', log, log, y.st.commitIdx, y.st.currentTerm, y.st.currentTerm);
    CommitsFrame(srv, h, s, y, h');
  }
}
