/** Every event is one of the elementary changes, or a short sequence of them. */
module Steps {
  import opened RaftDefs
  import opened Handlers
  import opened Cluster
  import opened History
  import opened Stability
  import opened Actions
  import opened Elections
  import opened Invariant

  /** What an event must establish at its own server. */
  ghost predicate Settled(srv: seq<Server>, s: ServerId, y: Server, h: History, h': History)
    requires s < |srv|
  {
    Grows(h, h') && Core(srv[s := y], h') && LocalOk(|srv|, s, y, h') && DistinctOk(h')
  }

  lemma SelfGrows(h: History)
    ensures Grows(h, h)
  {
  }

  lemma QuietSettles(srv: seq<Server>, h: History, s: ServerId, y: Server)
    requires Core(srv, h) && DistinctOk(h) && s < |srv| && Quiet(srv[s], y) && LocalOk(|srv|, s, y, h)
    ensures Settled(srv, s, y, h, h)
  {
    QuietBasics(srv, h, s, y);
    QuietPromises(srv, h, s, y);
    SelfGrows(h);
  }

  /** The documented rule: a larger term is adopted, and whoever is no follower becomes one. */
  function StepDown(x: Server, term: Term, clears: bool): Server {
    if term <= x.st.currentTerm then x
    else
      var st := CheckRpcTerm(AsDocumented(clears), x.st, term);
      if x.role == Follower then x.(st := st) else Become(x, Follower).(st := st, gate := term)
  }

  /** A candidate that hears from the leader of its own term becomes a follower of it. */
  function GiveUp(x: Server, term: Term, clears: bool): Server {
    if x.role == Candidate && term == x.st.currentTerm then Become(x, Follower).(gate := term)
    else StepDown(x, term, clears)
  }

  lemma GiveUpOk(n: nat, s: ServerId, x: Server, term: Term, clears: bool, h: History)
    requires LocalOk(n, s, x, h)
    ensures LocalOk(n, s, GiveUp(x, term, clears), h) && LocalOk(n, s, StepDown(x, term, clears), h)
    ensures Quiet(x, GiveUp(x, term, clears)) && Quiet(x, StepDown(x, term, clears))
  {
  }

  lemma NotifyOne(n: nat, x: Server, term: Term)
    ensures NotifyAll(n, x, [Note(Follower, term)]) == Notified(n, x, Note(Follower, term))
  {
  }

  /** A step-down to a strictly higher term is never swallowed by the gate. */
  lemma VoteShape(n: nat, x: Server, e: Event)
    requires e.DeliverVote? && |x.st.entries| > 0 && GateOk(x)
    ensures var z := StepDown(x, e.vote.term, e.clears); var out := VoteBody(z.st, z.role, e.vote);
            && After(n, x, e) == z.(st := ApplyReady(out.st))
            && HandleVote(AsDocumented(e.clears), x.st, x.role, e.vote).rep == out.rep
  {
    var out := HandleVote(AsDocumented(e.clears), x.st, x.role, e.vote);
    if out.notes != [] {
      assert out.notes == [Note(Follower, e.vote.term)];
      NotifyOne(n, x.(st := out.st), e.vote.term);
    }
  }

  lemma AppendShape(n: nat, x: Server, e: Event)
    requires e.DeliverAppend? && |x.st.entries| > 0 && GateOk(x)
    ensures var z := GiveUp(x, e.append.term, e.clears); var out := AppendBody(z.st, e.append);
            && HandleAppend(AsDocumented(e.clears), x.st, x.role, e.append).rep == out.rep
            && (if x.role == Follower && e.append.term < x.st.currentTerm then After(n, x, e) == x && !out.rep.ok
                else After(n, x, e) == z.(st := ApplyReady(out.st)))
  {
    var out := HandleAppend(AsDocumented(e.clears), x.st, x.role, e.append);
    if out.notes != [] {
      assert out.notes == [Note(Follower, e.append.term)];
      NotifyOne(n, x.(st := out.st), e.append.term);
    }
  }

  lemma StartStop(c: Cluster, h: History, e: Event)
    requires Core(c.servers, h) && DistinctOk(h) && Enabled(c, e) && LocalOk(|c.servers|, e.s, c.servers[e.s], h)
    requires e.Start? || e.Stop?
    ensures Settled(c.servers, e.s, After(|c.servers|, c.servers[e.s], e), h, h)
  {
    QuietSettles(c.servers, h, e.s, After(|c.servers|, c.servers[e.s], e));
  }

  lemma GrantSettles(srv: seq<Server>, h: History, s: ServerId, y: Server, c: ServerId) returns (h': History)
    requires s < |srv| && Core(srv, h) && DistinctOk(h) && LocalOk(|srv|, s, y, h)
    requires Grants(srv[s], y, c) && Key(y.st.currentTerm, c) in h.cands
    requires var cand := h.cands[Key(y.st.currentTerm, c)];
             |cand| > 0 && |y.st.entries| > 0 && UpToDate(y.st.entries, |cand| - 1, cand[|cand| - 1].term)
    ensures Settled(srv, s, y, h, h')
    ensures Key(y.st.currentTerm, s) in h'.ballots && h'.ballots[Key(y.st.currentTerm, s)] == c
  {
    h' := Granted(h, s, y.st.currentTerm, c);
    GrantGrows(srv, h, s, y, c);
    GrantBasics(srv, h, s, y, c);
    GrantPromises(srv, h, s, y, c);
    LocalStable(|srv|, s, y, h, h');
  }

  /** One change at a server after another one that left the history alone. */
  lemma ThenSettled(srv: seq<Server>, s: ServerId, z: Server, y: Server, h: History, h': History)
    requires s < |srv| && Settled(srv[s := z], s, y, h, h')
    ensures Settled(srv, s, y, h, h')
  {
    assert srv[s := z][s := y] == srv[s := y];
  }

  lemma VoteLocals(n: nat, s: ServerId, z: Server, vote: VoteRequest, h: History)
    requires LocalOk(n, s, z, h) && vote.term <= z.st.currentTerm && |z.st.entries| > 0
    ensures var out := VoteBody(z.st, z.role, vote); var y := z.(st := ApplyReady(out.st));
            && LocalOk(n, s, y, h)
            && (out.rep.ok ==> vote.term == z.st.currentTerm && Grants(z, y, vote.candidateId)
                               && UpToDate(z.st.entries, vote.lastLogIdx, vote.lastLogTerm))
            && (!out.rep.ok ==> Quiet(z, y))
  {
    var out := VoteBody(z.st, z.role, vote);
    if h.mode.guarded { ApplyReadyOk(out.st); }
  }

  lemma DeliverVoteBody(srv: seq<Server>, h: History, s: ServerId, vote: VoteRequest, y: Server)
    returns (h': History)
    requires s < |srv| && Core(srv, h) && DistinctOk(h) && LocalOk(|srv|, s, srv[s], h)
    requires VoteCallOk(h, s, vote) && vote.term <= srv[s].st.currentTerm
    requires y == srv[s].(st := ApplyReady(VoteBody(srv[s].st, srv[s].role, vote).st))
    ensures Settled(srv, s, y, h, h')
    ensures VoteAnswerOk(|srv|, h', s, vote, VoteBody(srv[s].st, srv[s].role, vote).rep)
  {
    assert ServerOk(s, srv[s], h);
    VoteLocals(|srv|, s, srv[s], vote, h);
    if VoteBody(srv[s].st, srv[s].role, vote).rep.ok {
      h' := GrantSettles(srv, h, s, y, vote.candidateId);
    } else {
      h' := h;
      QuietSettles(srv, h, s, y);
    }
  }

  lemma DeliverVoteAt(srv: seq<Server>, h: History, s: ServerId, vote: VoteRequest, z: Server, y: Server)
    returns (h': History)
    requires s < |srv| && Core(srv, h) && DistinctOk(h) && Quiet(srv[s], z) && LocalOk(|srv|, s, z, h)
    requires VoteCallOk(h, s, vote) && vote.term <= z.st.currentTerm
    requires y == z.(st := ApplyReady(VoteBody(z.st, z.role, vote).st))
    ensures Settled(srv, s, y, h, h')
    ensures VoteAnswerOk(|srv|, h', s, vote, VoteBody(z.st, z.role, vote).rep)
  {
    QuietSettles(srv, h, s, z);
    h' := DeliverVoteBody(srv[s := z], h, s, vote, y);
    ThenSettled(srv, s, z, y, h, h');
  }

  lemma DeliverVoteStep(c: Cluster, h: History, e: Event) returns (h': History)
    requires Core(c.servers, h) && DistinctOk(h) && Enabled(c, e) && LocalOk(|c.servers|, e.s, c.servers[e.s], h)
    requires e.DeliverVote? && VoteCallOk(h, e.s, e.vote)
    ensures Settled(c.servers, e.s, After(|c.servers|, c.servers[e.s], e), h, h')
    ensures VoteAnswerOk(|c.servers|, h', e.s, e.vote,
                         HandleVote(AsDocumented(e.clears), c.servers[e.s].st, c.servers[e.s].role, e.vote).rep)
  {
    var n, x := |c.servers|, c.servers[e.s];
    var z, y := StepDown(x, e.vote.term, e.clears), After(n, x, e);
    VoteShape(n, x, e);
    GiveUpOk(n, e.s, x, e.vote.term, e.clears, h);
    h' := DeliverVoteAt(c.servers, h, e.s, e.vote, z, y);
  }
}
