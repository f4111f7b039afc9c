/** What gets through, over whole runs: what is committed is applied, a follower that accepts a call has all its
    leader had applied, a leader that was left behind steps down, and a request answered with success is logged. */
module Delivery {
  import opened RaftDefs
  import opened Handlers
  import opened LeaderState
  import opened Cluster
  import opened History
  import opened Invariant
  import opened Steps
  import opened Safety
  import opened Figure2
  import Snapshots

  lemma AnswerCatchesUp(c: Cluster, e: Event)
    requires Enabled(c, e) && e.AppendAnswered? && CaughtUp(c.servers[e.s].st)
    ensures CaughtUp(After(|c.servers|, c.servers[e.s], e).st)
  {
    var x := c.servers[e.s];
    if !e.rep.ok {
      var r := OnFailure(x.st, x.progress, e.from, e.rep.term);
      NotifyOne(|c.servers|, x.(st := r.0, progress := r.1), e.rep.term);
    }
  }

  lemma EventCatchesUp(c: Cluster, e: Event)
    requires Enabled(c, e) && GateOk(c.servers[e.s]) && CaughtUp(c.servers[e.s].st)
    requires c.servers[e.s].st.commitIdx < |c.servers[e.s].st.entries|
    ensures CaughtUp(After(|c.servers|, c.servers[e.s], e).st)
  {
    match e
    case DeliverVote(_, _, _) => VoteShape(|c.servers|, c.servers[e.s], e);
    case DeliverAppend(_, _, _) => AppendShape(|c.servers|, c.servers[e.s], e);
    case AppendAnswered(_, _, _, _) => AnswerCatchesUp(c, e);
    case _ =>
  }

  lemma LastCatchesUp(n: nat, cs: seq<Cluster>, es: seq<Event>, k: nat, a: ServerId)
    requires GuardedRun(n, cs, es) && 0 < k < |cs| && a < n
    requires |cs[k - 1].servers| == |cs[k].servers| == n && CaughtUp(cs[k - 1].servers[a].st)
    ensures CaughtUp(cs[k].servers[a].st)
  {
    assert Guarded(cs[k - 1], es[k - 1]) && Enabled(cs[k - 1], es[k - 1]) && cs[k] == Step(cs[k - 1], es[k - 1]);
    if a == es[k - 1].s {
      GateBehindTerm(n, cs, es, k - 1, a);
      AppliedIsPrefix(n, cs, es, k - 1, a);
      EventCatchesUp(cs[k - 1], es[k - 1]);
    }
  }

  /** Nothing committed is left unapplied: at every moment of every guarded run, what a server has applied is
      exactly its entries 1..commitIdx, in order. */
  lemma {:induction false} CommittedIsApplied(n: nat, cs: seq<Cluster>, es: seq<Event>, k: nat, a: ServerId)
    requires GuardedRun(n, cs, es) && k < |cs| && a < n
    ensures |cs[k].servers| == n
    ensures var st := cs[k].servers[a].st;
            && st.lastApplied == st.commitIdx < |st.entries| && st.applied == st.entries[1..st.commitIdx + 1]
    decreases k
  {
    SameServers(n, cs, es, k);
    AppliedIsPrefix(n, cs, es, k, a);
    if k > 0 {
      CommittedIsApplied(n, cs, es, k - 1, a);
      LastCatchesUp(n, cs, es, k, a);
    }
  }

  lemma SentCarriesCommit(n: nat, cs: seq<Cluster>, es: seq<Event>, j: nat, m: AppendRequest)
    requires GuardedRun(n, cs, es) && j < |es| && es[j].Send? && es[j].s < n
    requires Enabled(cs[j], es[j]) && AppendCall(es[j].f, m) in Sent(n, cs[j].servers[es[j].s], es[j])
    ensures es[j].s < |cs[j].servers| && cs[j].servers[es[j].s].st.commitIdx == m.commitIdx
    ensures m.commitIdx <= m.prevLogIdx + |m.logEntries|
  {
    CommittedIsApplied(n, cs, es, j, es[j].s);
  }

  lemma AcceptedCommits(n: nat, x: Server, e: Event)
    requires e.DeliverAppend? && |x.st.entries| > 0 && GateOk(x)
    requires HandleAppend(AsDocumented(e.clears), x.st, x.role, e.append).rep.ok
    requires e.append.commitIdx <= e.append.prevLogIdx + |e.append.logEntries|
    ensures e.append.commitIdx <= After(n, x, e).st.commitIdx
  {
    AppendShape(n, x, e);
    Snapshots.CallReaches(AsDocumented(e.clears), x.st, x.role, e.append);
  }

  /** Followers catch up: a call that was sent at moment j and is accepted at moment k, however late, leaves the
      follower with everything its leader had applied when it sent it. */
  lemma FollowerCatchesUp(n: nat, cs: seq<Cluster>, es: seq<Event>, j: nat, k: nat, m: AppendRequest)
    requires GuardedRun(n, cs, es) && j < |es| && k < |es| && es[j].Send? && es[k].DeliverAppend?
    requires Enabled(cs[j], es[j]) && AppendCall(es[j].f, m) in Sent(n, cs[j].servers[es[j].s], es[j])
    requires Enabled(cs[k], es[k]) && es[k].append == m
    requires AppendAnswer(es[k].s, m, Reply(m.term, true)) in Sent(n, cs[k].servers[es[k].s], es[k])
    ensures es[j].s < |cs[j].servers| == n && es[k].s < |cs[k + 1].servers| == n
    ensures var x, y := cs[j].servers[es[j].s].st, cs[k + 1].servers[es[k].s].st;
            x.commitIdx <= y.commitIdx && x.applied <= y.applied
  {
    var s, f := es[j].s, es[k].s;
    SameServers(n, cs, es, j);
    SameServers(n, cs, es, k);
    SentCarriesCommit(n, cs, es, j, m);
    GateBehindTerm(n, cs, es, k, f);
    assert Guarded(cs[k], es[k]) && cs[k + 1] == Step(cs[k], es[k]);
    AcceptedCommits(n, cs[k].servers[f], es[k]);
    CommittedIsApplied(n, cs, es, j, s);
    CommittedIsApplied(n, cs, es, k + 1, f);
    StateMachineSafety(n, cs, es, j, k + 1, s, f);
  }

  /** A leader that hears of a greater term adopts it and follows. */
  lemma LeaderYields(n: nat, x: Server, e: Event)
    requires e.AppendAnswered? && x.role == Leader && |x.st.entries| > 0 && GateOk(x)
    requires e.from < |x.progress.nextIdx| && e.from < |x.progress.matchIdx| && 1 <= x.progress.nextIdx[e.from]
    requires !e.rep.ok && x.st.currentTerm < e.rep.term
    ensures var y := After(n, x, e);
            y.role == Follower && y.st == x.st.(currentTerm := e.rep.term) && y.gate == e.rep.term
  {
    var r := OnFailure(x.st, x.progress, e.from, e.rep.term);
    NotifyOne(n, x.(st := r.0, progress := r.1), e.rep.term);
  }

  /** A call that arrives too late is answered with its receiver's term. */
  lemma StaleAnswer(n: nat, x: Server, e: Event)
    requires e.DeliverAppend? && |x.st.entries| > 0 && e.append.term < x.st.currentTerm
    ensures Sent(n, x, e) == {AppendAnswer(e.s, e.append, Reply(x.st.currentTerm, false))}
  {
    AppendRule(e.clears, x.st, x.role, e.append);
  }

  /** A leader that was left behind learns of it: whenever its call met a server of a greater term, the answer
      makes it a follower in that term, if it still leads its own when the answer arrives. */
  lemma OldLeaderYields(n: nat, cs: seq<Cluster>, es: seq<Event>, j: nat, k: nat)
    requires Run(n, cs, es) && j < |es| && k < |es| && es[j].DeliverAppend? && es[k].AppendAnswered?
    requires Enabled(cs[j], es[j]) && es[j].append.term < cs[j].servers[es[j].s].st.currentTerm
    requires es[k].append == es[j].append && es[k].from == es[j].s
    requires AppendAnswer(es[k].from, es[k].append, es[k].rep) in Sent(n, cs[j].servers[es[j].s], es[j])
    ensures es[k].s < |cs[k].servers| && es[k].s < |cs[k + 1].servers|
    ensures cs[k].servers[es[k].s].role == Leader && cs[k + 1].servers[es[k].s].role == Follower
    ensures cs[k + 1].servers[es[k].s].st.currentTerm == cs[j].servers[es[j].s].st.currentTerm
  {
    assert Enabled(cs[k], es[k]) && cs[k + 1] == Step(cs[k], es[k]);
    StaleAnswer(n, cs[j].servers[es[j].s], es[j]);
    GateBehindTerm(n, cs, es, k, es[k].s);
    LeaderYields(|cs[k].servers|, cs[k].servers[es[k].s], es[k]);
  }

  /** A candidate that hears from the leader of its own term follows it. */
  lemma CandidateYields(n: nat, cs: seq<Cluster>, es: seq<Event>, k: nat)
    requires Run(n, cs, es) && k < |es| && es[k].DeliverAppend? && Enabled(cs[k], es[k])
    requires cs[k].servers[es[k].s].role == Candidate
    requires es[k].append.term == cs[k].servers[es[k].s].st.currentTerm
    ensures es[k].s < |cs[k + 1].servers| && cs[k + 1].servers[es[k].s].role == Follower
    ensures cs[k + 1].servers[es[k].s].st.currentTerm == es[k].append.term
  {
    assert cs[k + 1] == Step(cs[k], es[k]);
    GateBehindTerm(n, cs, es, k, es[k].s);
    AppendShape(|cs[k].servers|, cs[k].servers[es[k].s], es[k]);
  }

  /** Whoever hears a call of a greater term follows in it. */
  lemma CalledFollows(n: nat, cs: seq<Cluster>, es: seq<Event>, k: nat)
    requires Run(n, cs, es) && k < |es| && (es[k].DeliverVote? || es[k].DeliverAppend?) && Enabled(cs[k], es[k])
    requires var term := if es[k].DeliverVote? then es[k].vote.term else es[k].append.term;
             cs[k].servers[es[k].s].st.currentTerm < term
    ensures es[k].s < |cs[k + 1].servers| && cs[k + 1].servers[es[k].s].role == Follower
    ensures cs[k + 1].servers[es[k].s].st.currentTerm
         == if es[k].DeliverVote? then es[k].vote.term else es[k].append.term
  {
    assert cs[k + 1] == Step(cs[k], es[k]);
    GateBehindTerm(n, cs, es, k, es[k].s);
    if es[k].DeliverVote? {
      VoteShape(|cs[k].servers|, cs[k].servers[es[k].s], es[k]);
    } else {
      AppendShape(|cs[k].servers|, cs[k].servers[es[k].s], es[k]);
    }
  }

  /** The entry that carries a request. */
  predicate Carries(e: Entry, cmd: Command) {
    e.srvId == cmd.srvId && e.prmIdx == cmd.prmIdx
  }

  ghost predicate OnlyAt(log: seq<Entry>, i: Index, cmd: Command) {
    i < |log| && forall j | 0 <= j < |log| :: Carries(log[j], cmd) <==> j == i
  }

  /** A leader answers a request with success only when it is in its log, and it is there once: in every run, after
      every client request at a leader exactly one entry of its log carries the request's number and sender. */
  lemma RequestIsLogged(n: nat, cs: seq<Cluster>, es: seq<Event>, k: nat) returns (i: Index)
    requires Run(n, cs, es) && k < |es| && es[k].ClientCall? && Enabled(cs[k], es[k])
    requires cs[k].servers[es[k].s].role == Leader
    ensures es[k].s < |cs[k + 1].servers| && OnlyAt(cs[k + 1].servers[es[k].s].st.entries, i, es[k].cmd)
  {
    assert cs[k + 1] == Step(cs[k], es[k]);
    var x := cs[k].servers[es[k].s];
    var log := cs[k + 1].servers[es[k].s].st.entries;
    AddLogRecords(x.st, x.progress, es[k].cmd);
    i :| 0 <= i < |log| && Carries(log[i], es[k].cmd);
    AtMostOnce(n, cs, es, k + 1, es[k].s);
  }
}
