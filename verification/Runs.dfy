/** Every run keeps the invariant, along a history that only grows; a guarded one keeps all of it. */
module Runs {
  import opened RaftDefs
  import opened Handlers
  import opened Cluster
  import opened History
  import opened Stability
  import opened Invariant
  import opened Steps
  import opened Rounds
  import opened Counting

  /** What one event must establish: a history for the server it happens at and for the packets it sends. */
  ghost predicate StepSettles(c: Cluster, e: Event, h: History, h': History)
    requires Enabled(c, e)
  {
    var n, x := |c.servers|, c.servers[e.s];
    && Settled(c.servers, e.s, After(n, x, e), h, h')
    && forall p | p in Sent(n, x, e) :: PacketOk(n, h', p)
  }

  /** The packet an event receives is in order. */
  ghost predicate HeardOk(n: nat, h: History, e: Event) {
    match e
    case DeliverVote(s, vote, _) => VoteCallOk(h, s, vote)
    case VoteAnswered(_, from, vote, rep) => VoteAnswerOk(n, h, from, vote, rep)
    case DeliverAppend(s, append, _) => AppendCallOk(n, h, s, append)
    case AppendAnswered(_, from, append, rep) => AppendAnswerOk(n, h, from, append, rep)
    case _ => true
  }

  lemma PacketsHeard(c: Cluster, h: History, e: Event)
    requires Packets(c, h) && Enabled(c, e)
    ensures HeardOk(|c.servers|, h, e)
  {
  }

  lemma NothingSent(n: nat, x: Server, e: Event)
    requires |x.st.entries| > 0 && (e.Start? || e.Stop? || e.VoteAnswered? || e.ClientCall? || e.AppendAnswered?)
    ensures Sent(n, x, e) == {}
  {
  }

  lemma VoteSent(n: nat, x: Server, e: Event, h: History)
    requires |x.st.entries| > 0 && e.DeliverVote?
    requires VoteAnswerOk(n, h, e.s, e.vote, HandleVote(AsDocumented(e.clears), x.st, x.role, e.vote).rep)
    ensures forall p | p in Sent(n, x, e) :: PacketOk(n, h, p)
  {
  }

  lemma RoleEvents(c: Cluster, h: History, e: Event) returns (h': History)
    requires Core(c.servers, h) && DistinctOk(h) && Enabled(c, e) && LocalOk(|c.servers|, e.s, c.servers[e.s], h)
    requires HeardOk(|c.servers|, h, e)
    requires e.Start? || e.Stop? || e.Timeout?
    ensures StepSettles(c, e, h, h')
  {
    if e.Timeout? {
      h' := TimeoutStep(c, h, e);
    } else {
      h' := h;
      StartStop(c, h, e);
    }
  }

  lemma VoteEvents(c: Cluster, h: History, e: Event) returns (h': History)
    requires Core(c.servers, h) && DistinctOk(h) && Enabled(c, e) && LocalOk(|c.servers|, e.s, c.servers[e.s], h)
    requires HeardOk(|c.servers|, h, e)
    requires e.DeliverVote? || e.VoteAnswered?
    ensures StepSettles(c, e, h, h')
  {
    if e.DeliverVote? {
      h' := DeliverVoteStep(c, h, e);
      VoteSent(|c.servers|, c.servers[e.s], e, h');
    } else {
      h' := VoteAnsweredStep(c, h, e);
      NothingSent(|c.servers|, c.servers[e.s], e);
    }
  }

  lemma LeaderEvents(c: Cluster, h: History, e: Event) returns (h': History)
    requires Core(c.servers, h) && DistinctOk(h) && Enabled(c, e) && LocalOk(|c.servers|, e.s, c.servers[e.s], h)
    requires HeardOk(|c.servers|, h, e)
    requires e.ClientCall? || e.Send?
    ensures StepSettles(c, e, h, h')
  {
    if e.ClientCall? {
      h' := ClientStep(c, h, e);
    } else {
      h' := h;
      SendStep(c, h, e);
    }
  }

  lemma DeliverEvent(c: Cluster, h: History, e: Event) returns (h': History)
    requires Core(c.servers, h) && DistinctOk(h) && Enabled(c, e) && LocalOk(|c.servers|, e.s, c.servers[e.s], h)
    requires HeardOk(|c.servers|, h, e)
    requires e.DeliverAppend?
    ensures StepSettles(c, e, h, h')
  {
    if c.servers[e.s].role == Follower && e.append.term < c.servers[e.s].st.currentTerm {
      h' := h;
      StaleAppendStep(c, h, e);
    } else {
      h' := DeliverAppendStep(c, h, e);
    }
  }

  lemma AnsweredEvent(c: Cluster, h: History, e: Event)
    requires Core(c.servers, h) && DistinctOk(h) && Enabled(c, e) && LocalOk(|c.servers|, e.s, c.servers[e.s], h)
    requires HeardOk(|c.servers|, h, e)
    requires e.AppendAnswered? && Obeys(h.mode, c, e)
    ensures StepSettles(c, e, h, h)
  {
    AppendAnsweredStep(c, h, e);
  }

  lemma EventSettles(c: Cluster, h: History, e: Event) returns (h': History)
    requires Core(c.servers, h) && DistinctOk(h) && Enabled(c, e) && LocalOk(|c.servers|, e.s, c.servers[e.s], h)
    requires HeardOk(|c.servers|, h, e) && Obeys(h.mode, c, e)
    ensures StepSettles(c, e, h, h')
  {
    if e.Start? || e.Stop? || e.Timeout? {
      h' := RoleEvents(c, h, e);
    } else if e.DeliverVote? || e.VoteAnswered? {
      h' := VoteEvents(c, h, e);
    } else if e.ClientCall? || e.Send? {
      h' := LeaderEvents(c, h, e);
    } else if e.DeliverAppend? {
      h' := DeliverEvent(c, h, e);
    } else {
      h' := h;
      AnsweredEvent(c, h, e);
    }
  }

  lemma NextInv(c: Cluster, h: History, e: Event) returns (h': History)
    requires Inv(c, h) && Enabled(c, e) && Obeys(h.mode, c, e)
    ensures Inv(Step(c, e), h') && Grows(h, h')
  {
    assert LocalOk(|c.servers|, e.s, c.servers[e.s], h);
    PacketsHeard(c, h, e);
    h' := EventSettles(c, h, e);
    StepInv(c, h, e, h');
  }

  lemma InitInv(n: nat, mode: Mode)
    ensures Inv(Init(n), Beginning(mode))
  {
    var srv, h := Init(n).servers, Beginning(mode);
    forall t | t in h.logs ensures Rooted(h.logs, h.logs[t], t) {
      assert h.logs[t] == [SENTINEL];
    }
    assert Promises(srv, h);
  }

  /** The histories of the first states of a run. */
  ghost predicate HistoriesTo(cs: seq<Cluster>, hs: seq<History>, mode: Mode) {
    && |hs| <= |cs|
    && (forall k | 0 <= k < |hs| :: hs[k].mode == mode && Inv(cs[k], hs[k]))
    && forall i, j | 0 <= i <= j < |hs| :: Grows(hs[i], hs[j])
  }

  ghost predicate Histories(cs: seq<Cluster>, hs: seq<History>, mode: Mode) {
    |hs| == |cs| && HistoriesTo(cs, hs, mode)
  }

  lemma NextHistory(cs: seq<Cluster>, hs: seq<History>, h: History, mode: Mode)
    requires HistoriesTo(cs, hs, mode) && 0 < |hs| < |cs|
    requires Inv(cs[|hs|], h) && Grows(hs[|hs| - 1], h)
    ensures HistoriesTo(cs, hs + [h], mode)
  {
    var all := hs + [h];
    forall i, j | 0 <= i <= j < |all| ensures Grows(all[i], all[j]) {
      if j == |hs| {
        if i == j { SelfGrows(h); } else { GrowsTrans(hs[i], hs[|hs| - 1], h); }
      }
    }
  }

  lemma FirstHistory(n: nat, cs: seq<Cluster>, mode: Mode)
    requires |cs| > 0 && cs[0] == Init(n)
    ensures HistoriesTo(cs, [Beginning(mode)], mode)
  {
    InitInv(n, mode);
    SelfGrows(Beginning(mode));
  }

  lemma OneHistoryMore(n: nat, cs: seq<Cluster>, es: seq<Event>, mode: Mode, hs: seq<History>)
    returns (hs': seq<History>)
    requires Run(n, cs, es) && (mode.guarded ==> GuardedRun(n, cs, es)) && (mode.exact ==> ExactRun(n, cs, es))
    requires HistoriesTo(cs, hs, mode) && 0 < |hs| < |cs|
    ensures HistoriesTo(cs, hs', mode) && |hs'| == |hs| + 1
  {
    var k := |hs| - 1;
    assert Enabled(cs[k], es[k]) && cs[k + 1] == Step(cs[k], es[k]);
    var h := NextInv(cs[k], hs[k], es[k]);
    NextHistory(cs, hs, h, mode);
    hs' := hs + [h];
  }

  lemma {:induction false} HistoriesUpTo(n: nat, cs: seq<Cluster>, es: seq<Event>, mode: Mode, m: nat)
    returns (hs: seq<History>)
    requires Run(n, cs, es) && (mode.guarded ==> GuardedRun(n, cs, es)) && (mode.exact ==> ExactRun(n, cs, es))
    requires 0 < m <= |cs|
    ensures HistoriesTo(cs, hs, mode) && |hs| == m
  {
    if m == 1 {
      FirstHistory(n, cs, mode);
      hs := [Beginning(mode)];
    } else {
      var first := HistoriesUpTo(n, cs, es, mode, m - 1);
      hs := OneHistoryMore(n, cs, es, mode, first);
    }
  }

  lemma RunHistories(n: nat, cs: seq<Cluster>, es: seq<Event>, mode: Mode) returns (hs: seq<History>)
    requires Run(n, cs, es) && (mode.guarded ==> GuardedRun(n, cs, es)) && (mode.exact ==> ExactRun(n, cs, es))
    ensures Histories(cs, hs, mode)
  {
    hs := HistoriesUpTo(n, cs, es, mode, |cs|);
  }
}
