/** A leader's append, a follower's merge and a move of the commit index keep the invariant. */
module Appends {
  import opened RaftDefs
  import opened Replication
  import opened Cluster
  import opened History
  import opened Stability
  import opened Actions

  /** A leader adds one entry of its own term. */
  ghost predicate Extends(x: Server, y: Server) {
    && x.role == Leader && y.role == Leader
    && |x.st.entries| > 0 && |y.st.entries| == |x.st.entries| + 1 && Agree(x.st.entries, y.st.entries, |x.st.entries|)
    && y.st.entries[|x.st.entries|].term == x.st.currentTerm
    && y.st.commitIdx == x.st.commitIdx && y.st.currentTerm == x.st.currentTerm && y.st.votedFor == x.st.votedFor
  }

  ghost function Extended(h: History, s: ServerId, st: State): History
    requires |st.entries| > 0
  {
    h.(logs := h.logs[st.currentTerm := st.entries], acks := h.acks[Key(st.currentTerm, s) := |st.entries| - 1])
  }

  lemma ExtendGrows(srv: seq<Server>, h: History, s: ServerId, y: Server)
    requires s < |srv| && Extends(srv[s], y) && ServerOk(s, srv[s], h)
    ensures Grows(h, Extended(h, s, y.st))
    ensures Later(srv, h, srv[s := y], Extended(h, s, y.st))
  {
  }

  lemma ExtendLogs(srv: seq<Server>, h: History, s: ServerId, y: Server)
    requires s < |srv| && Extends(srv[s], y) && ServerOk(s, srv[s], h) && LogsOk(h)
    requires LogsGrow(h, Extended(h, s, y.st))
    ensures LogsOk(Extended(h, s, y.st))
    ensures Rooted(Extended(h, s, y.st).logs, y.st.entries, y.st.currentTerm)
  {
    var h', t := Extended(h, s, y.st), y.st.currentTerm;
    RootedStable(h, h', srv[s].st.entries, t, t);
    forall i | 0 <= i < |y.st.entries|
      ensures var u := y.st.entries[i].term; u <= t && u in h'.logs && Agree(y.st.entries, h'.logs[u], i + 1)
    {
      if i < |srv[s].st.entries| {
        assert Agree(srv[s].st.entries, h'.logs[srv[s].st.entries[i].term], i + 1);
      }
    }
    forall u | u in h'.logs
      ensures Rooted(h'.logs, h'.logs[u], u) && h'.logs[u][0] == SENTINEL
    {
      if u != t { RootedStable(h, h', h.logs[u], u, u); }
    }
  }

  lemma ExtendAcks(srv: seq<Server>, h: History, s: ServerId, y: Server)
    requires s < |srv| && Extends(srv[s], y) && AcksOk(srv, h) && LogsGrow(h, Extended(h, s, y.st))
    ensures AcksOk(srv[s := y], Extended(h, s, y.st))
  {
  }

  lemma ExtendServers(srv: seq<Server>, h: History, s: ServerId, y: Server)
    requires s < |srv| && Extends(srv[s], y) && ServersOk(srv, h) && Grows(h, Extended(h, s, y.st))
    requires Rooted(Extended(h, s, y.st).logs, y.st.entries, y.st.currentTerm)
    ensures ServersOk(srv[s := y], Extended(h, s, y.st))
  {
  }

  lemma ExtendBasics(srv: seq<Server>, h: History, s: ServerId, y: Server)
    requires Basics(srv, h) && s < |srv| && Extends(srv[s], y)
    ensures Basics(srv[s := y], Extended(h, s, y.st))
  {
    var h' := Extended(h, s, y.st);
    assert ServerOk(s, srv[s], h);
    ExtendGrows(srv, h, s, y);
    ExtendLogs(srv, h, s, y);
    BallotsFrame(srv, h, s, y, h');
    CandsFrame(srv, h, s, y, h');
    ExtendAcks(srv, h, s, y);
    LeadersFrame(srv, h, s, y, h');
    ExtendServers(srv, h, s, y);
  }

  /** The new entry was never confirmed, and those who voted for a later leader never will. */
  lemma ExtendLeadersKeep(srv: seq<Server>, h: History, s: ServerId, y: Server)
    requires s < |srv| && Extends(srv[s], y) && LeadersKeep(srv, h)
    requires ServerOk(s, srv[s], h) && LeadersOk(srv, h) && BallotsOk(srv, h) && AcksOk(srv, h)
    requires Later(srv, h, srv[s := y], Extended(h, s, y.st))
    ensures LeadersKeep(srv[s := y], Extended(h, s, y.st))
  {
    var srv', h', last := srv[s := y], Extended(h, s, y.st), |srv[s].st.entries|;
    forall t: Term, i: Index, u: Term | Own(|srv'|, h', t, i) && t < u && u in h'.logs
      ensures Kept(srv', h', t, i, h'.logs[u])
    {
      if t == y.st.currentTerm && i == last {
        var q := h.voters[u];
        forall v | v in q ensures v < |srv| && t < srv[v].st.currentTerm && Ack(h, t, v) < i {
          assert Key(u, v) in h.ballots;
        }
        assert BlockedBy(srv, h, t, i, q);
        BlockedStable(srv, h, srv', h', t, i);
      } else {
        assert Own(|srv|, h, t, i);
        KeptStable(srv, h, srv', h', t, i, h.logs[u], h.logs[u]);
        assert Agree(h.logs[u], h'.logs[u], |h.logs[u]|);
      }
    }
  }

  lemma ExtendServersKeep(srv: seq<Server>, h: History, s: ServerId, y: Server)
    requires s < |srv| && Extends(srv[s], y) && ServersKeep(srv, h)
    requires ServerOk(s, srv[s], h) && AcksOk(srv, h)
    requires Later(srv, h, srv[s := y], Extended(h, s, y.st))
    ensures ServersKeep(srv[s := y], Extended(h, s, y.st))
  {
    var srv', h', last := srv[s := y], Extended(h, s, y.st), |srv[s].st.entries|;
    forall t: Term, i: Index, v: ServerId | Own(|srv'|, h', t, i) && 0 <= v < |srv'| && i <= Ack(h', t, v)
      ensures Kept(srv', h', t, i, srv'[v].st.entries)
    {
      if t == y.st.currentTerm && v == s {
        assert Agree(h'.logs[t], y.st.entries, i + 1);
      } else {
        assert Ack(h', t, v) == Ack(h, t, v);
        assert Own(|srv|, h, t, i);
        KeptStable(srv, h, srv', h', t, i, srv[v].st.entries, srv[v].st.entries);
        if v == s { assert Agree(srv[s].st.entries, y.st.entries, last); }
      }
    }
  }

  lemma ExtendVotersKeep(srv: seq<Server>, h: History, s: ServerId, y: Server)
    requires s < |srv| && Extends(srv[s], y) && VotersKeep(srv, h)
    requires ServerOk(s, srv[s], h) && AcksOk(srv, h) && BallotsOk(srv, h)
    requires Later(srv, h, srv[s := y], Extended(h, s, y.st))
    ensures VotersKeep(srv[s := y], Extended(h, s, y.st))
  {
    var srv', h' := srv[s := y], Extended(h, s, y.st);
    forall t: Term, i: Index, k: Key | Own(|srv'|, h', t, i) && k in h'.ballots && t < k.t && i <= Ack(h', t, k.v)
      ensures Key(k.t, h'.ballots[k]) in h'.cands
      ensures Kept(srv', h', t, i, h'.cands[Key(k.t, h'.ballots[k])])
    {
      assert k.t <= srv[k.v].st.currentTerm;
      assert Ack(h', t, k.v) == Ack(h, t, k.v);
      assert Own(|srv|, h, t, i);
      var log := h.cands[Key(k.t, h.ballots[k])];
      KeptStable(srv, h, srv', h', t, i, log, log);
    }
  }

  lemma ExtendPromises(srv: seq<Server>, h: History, s: ServerId, y: Server)
    requires Core(srv, h) && s < |srv| && Extends(srv[s], y)
    ensures Promises(srv[s := y], Extended(h, s, y.st))
  {
    var h' := Extended(h, s, y.st);
    assert ServerOk(s, srv[s], h);
    ExtendGrows(srv, h, s, y);
    ExtendLeadersKeep(srv, h, s, y);
    ExtendServersKeep(srv, h, s, y);
    ExtendVotersKeep(srv, h, s, y);
    assert Covered(|srv|, h, srv[s].st.entries, srv[s].st.commitIdx, srv[s].st.currentTerm);
    CoveredStable(|srv|, h, h', srv[s].st.entries, y.st.entries, y.st.commitIdx, y.st.currentTerm, y.st.currentTerm);
    CommitsFrame(srv, h, s, y, h');
  }

  /** A follower of the current term's leader takes over that leader's log up to index `end`. */
  ghost predicate Takes(x: Server, y: Server, h: History, end: Index) {
    && x.role != Leader && x.role != Candidate && y.role == x.role
    && y.st.commitIdx == x.st.commitIdx && y.st.currentTerm == x.st.currentTerm && y.st.votedFor == x.st.votedFor
    && var t := x.st.currentTerm;
    && t > 0 && t in h.logs && end < |h.logs[t]|
    && Agree(y.st.entries, h.logs[t], end + 1)
    && (y.st.entries == x.st.entries || y.st.entries == h.logs[t][..end + 1])
    && KeepsShared(x.st.entries, y.st.entries, h.logs[t])
  }

  ghost function Took(h: History, s: ServerId, t: Term, end: Index): History {
    h.(acks := h.acks[Key(t, s) := if Ack(h, t, s) <= end then end else Ack(h, t, s)])
  }

  lemma TakeGrows(srv: seq<Server>, h: History, s: ServerId, y: Server, end: Index)
    requires s < |srv| && Takes(srv[s], y, h, end)
    ensures Grows(h, Took(h, s, y.st.currentTerm, end))
    ensures Later(srv, h, srv[s := y], Took(h, s, y.st.currentTerm, end))
  {
  }

  lemma TakeAcks(srv: seq<Server>, h: History, s: ServerId, y: Server, end: Index)
    requires s < |srv| && Takes(srv[s], y, h, end) && AcksOk(srv, h)
    ensures AcksOk(srv[s := y], Took(h, s, y.st.currentTerm, end))
  {
  }

  lemma TakeServers(srv: seq<Server>, h: History, s: ServerId, y: Server, end: Index)
    requires s < |srv| && Takes(srv[s], y, h, end) && ServersOk(srv, h) && LogsOk(h)
    requires Grows(h, Took(h, s, y.st.currentTerm, end))
    ensures ServersOk(srv[s := y], Took(h, s, y.st.currentTerm, end))
  {
    var h', t := Took(h, s, y.st.currentTerm, end), y.st.currentTerm;
    assert ServerOk(s, srv[s], h);
    if y.st.entries == h.logs[t][..end + 1] {
      PrefixRooted(h, t, end + 1);
    }
    ServersFrame(srv, h, s, y, h');
  }

  lemma TakeBasics(srv: seq<Server>, h: History, s: ServerId, y: Server, end: Index)
    requires Basics(srv, h) && s < |srv| && Takes(srv[s], y, h, end)
    ensures Basics(srv[s := y], Took(h, s, y.st.currentTerm, end))
  {
    var h' := Took(h, s, y.st.currentTerm, end);
    TakeGrows(srv, h, s, y, end);
    BallotsFrame(srv, h, s, y, h');
    CandsFrame(srv, h, s, y, h');
    TakeAcks(srv, h, s, y, end);
    LeadersFrame(srv, h, s, y, h');
    TakeServers(srv, h, s, y, end);
  }

  /** What a follower confirmed earlier survives the merge: the current leader has it too, or nobody
      will ever commit it. */
  lemma TakeKeeps(srv: seq<Server>, h: History, s: ServerId, y: Server, end: Index, t: Term, i: Index)
    requires s < |srv| && Takes(srv[s], y, h, end) && LogsOk(h)
    requires LeadersKeep(srv, h) && ServersKeep(srv, h) && AcksOk(srv, h)
    requires Own(|srv|, h, t, i) && i <= Ack(h, t, s)
    ensures Kept(srv, h, t, i, y.st.entries)
  {
    assert Kept(srv, h, t, i, srv[s].st.entries);
    var u := y.st.currentTerm;
    assert h.logs[t][0] == SENTINEL;
    if !Blocked(srv, h, t, i) {
      if t < u { assert Kept(srv, h, t, i, h.logs[u]); }
      assert Agree(srv[s].st.entries, h.logs[u], i + 1);
      assert Agree(y.st.entries, h.logs[u], i + 1);
    }
  }

  lemma TakeServersKeep(srv: seq<Server>, h: History, s: ServerId, y: Server, end: Index)
    requires s < |srv| && Takes(srv[s], y, h, end) && LogsOk(h)
    requires LeadersKeep(srv, h) && ServersKeep(srv, h) && AcksOk(srv, h)
    requires Later(srv, h, srv[s := y], Took(h, s, y.st.currentTerm, end))
    ensures ServersKeep(srv[s := y], Took(h, s, y.st.currentTerm, end))
  {
    var srv', h' := srv[s := y], Took(h, s, y.st.currentTerm, end);
    forall t: Term, i: Index, v: ServerId | Own(|srv'|, h', t, i) && 0 <= v < |srv'| && i <= Ack(h', t, v)
      ensures Kept(srv', h', t, i, srv'[v].st.entries)
    {
      assert Own(|srv|, h, t, i);
      if v != s {
        assert Ack(h', t, v) == Ack(h, t, v);
        KeptStable(srv, h, srv', h', t, i, srv[v].st.entries, srv[v].st.entries);
      } else if t == y.st.currentTerm && i <= end {
        assert Agree(h.logs[t], y.st.entries, i + 1);
      } else {
        assert i <= Ack(h, t, s);
        TakeKeeps(srv, h, s, y, end, t, i);
        KeptStable(srv, h, srv', h', t, i, y.st.entries, y.st.entries);
      }
    }
  }

  lemma TakeVotersKeep(srv: seq<Server>, h: History, s: ServerId, y: Server, end: Index)
    requires s < |srv| && Takes(srv[s], y, h, end) && VotersKeep(srv, h) && BallotsOk(srv, h)
    requires Later(srv, h, srv[s := y], Took(h, s, y.st.currentTerm, end))
    ensures VotersKeep(srv[s := y], Took(h, s, y.st.currentTerm, end))
  {
    var srv', h' := srv[s := y], Took(h, s, y.st.currentTerm, end);
    forall t: Term, i: Index, k: Key | Own(|srv'|, h', t, i) && k in h'.ballots && t < k.t && i <= Ack(h', t, k.v)
      ensures Key(k.t, h'.ballots[k]) in h'.cands
      ensures Kept(srv', h', t, i, h'.cands[Key(k.t, h'.ballots[k])])
    {
      assert k.t <= srv[k.v].st.currentTerm;
      assert Ack(h', t, k.v) == Ack(h, t, k.v);
      assert Own(|srv|, h, t, i);
      var log := h.cands[Key(k.t, h.ballots[k])];
      KeptStable(srv, h, srv', h', t, i, log, log);
    }
  }

  /** No truncation reaches a committed index. */
  lemma TakeKeepsCommitted(srv: seq<Server>, h: History, s: ServerId, y: Server, end: Index)
    requires s < |srv| && Takes(srv[s], y, h, end) && LogsOk(h) && LeadersKeep(srv, h)
    requires ServerOk(s, srv[s], h) && h.mode.guarded
    requires Covered(|srv|, h, srv[s].st.entries, srv[s].st.commitIdx, srv[s].st.currentTerm)
    ensures Agree(srv[s].st.entries, y.st.entries, srv[s].st.commitIdx + 1)
  {
    var x, u := srv[s], y.st.currentTerm;
    CoveredInLeader(srv, h, x.st.entries, x.st.commitIdx, u, u);
    assert Agree(x.st.entries, h.logs[u], x.st.commitIdx + 1);
    assert Agree(y.st.entries, h.logs[u], x.st.commitIdx + 1);
  }

  lemma TakePromises(srv: seq<Server>, h: History, s: ServerId, y: Server, end: Index)
    requires Core(srv, h) && s < |srv| && Takes(srv[s], y, h, end)
    ensures Promises(srv[s := y], Took(h, s, y.st.currentTerm, end))
  {
    var x, h' := srv[s], Took(h, s, y.st.currentTerm, end);
    assert ServerOk(s, x, h);
    TakeGrows(srv, h, s, y, end);
    LeadersKeepFrame(srv, h, srv[s := y], h');
    TakeServersKeep(srv, h, s, y, end);
    TakeVotersKeep(srv, h, s, y, end);
    assert Covered(|srv|, h, x.st.entries, x.st.commitIdx, x.st.currentTerm);
    if h.mode.guarded {
      TakeKeepsCommitted(srv, h, s, y, end);
      CoveredStable(|srv|, h, h', x.st.entries, y.st.entries, y.st.commitIdx, y.st.currentTerm, y.st.currentTerm);
    }
    CommitsFrame(srv, h, s, y, h');
  }

  /** Only the commit index moves, to an index that is covered. */
  ghost predicate Recommits(n: nat, h: History, x: Server, y: Server) {
    && y.role == x.role && y.st.entries == x.st.entries
    && y.st.currentTerm == x.st.currentTerm && y.st.votedFor == x.st.votedFor
    && Covered(n, h, y.st.entries, y.st.commitIdx, y.st.currentTerm)
  }

  lemma RecommitBasics(srv: seq<Server>, h: History, s: ServerId, y: Server)
    requires Basics(srv, h) && s < |srv| && Recommits(|srv|, h, srv[s], y)
    ensures Basics(srv[s := y], h)
  {
    assert ServerOk(s, srv[s], h);
    BallotsFrame(srv, h, s, y, h);
    CandsFrame(srv, h, s, y, h);
    AcksFrame(srv, h, s, y, h);
    LeadersFrame(srv, h, s, y, h);
    ServersFrame(srv, h, s, y, h);
  }

  lemma RecommitPromises(srv: seq<Server>, h: History, s: ServerId, y: Server)
    requires Core(srv, h) && s < |srv| && Recommits(|srv|, h, srv[s], y)
    ensures Promises(srv[s := y], h)
  {
    var srv' := srv[s := y];
    LeadersKeepFrame(srv, h, srv', h);
    ServersKeepFrame(srv, h, s, y, h);
    VotersKeepFrame(srv, h, srv', h);
    CommitsFrame(srv, h, s, y, h);
  }
}
