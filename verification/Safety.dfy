/** The guarantees of Raft, for every server at every moment: of every run where commits play no part, of
    every guarded run where they do. */
module Safety {
  import opened RaftDefs
  import opened Handlers
  import opened LeaderState
  import opened Replication
  import opened Cluster
  import opened History
  import opened Stability
  import opened Invariant
  import opened Steps
  import opened Runs

  lemma {:induction false} SameServers(n: nat, cs: seq<Cluster>, es: seq<Event>, k: nat)
    requires Run(n, cs, es) && k < |cs|
    ensures |cs[k].servers| == n
  {
    if k > 0 {
      SameServers(n, cs, es, k - 1);
      assert Enabled(cs[k - 1], es[k - 1]);
    }
  }

  /** Election Safety (section 5.2): a term never has two leaders, not even at different moments. */
  lemma ElectionSafety(n: nat, cs: seq<Cluster>, es: seq<Event>, i: nat, j: nat, a: ServerId, b: ServerId)
    requires Run(n, cs, es) && i < |cs| && j < |cs|
    requires a < |cs[i].servers| && b < |cs[j].servers|
    requires cs[i].servers[a].role == Leader && cs[j].servers[b].role == Leader
    requires cs[i].servers[a].st.currentTerm == cs[j].servers[b].st.currentTerm
    ensures a == b
  {
    var hs := RunHistories(n, cs, es, ANY);
    assert ServerOk(a, cs[i].servers[a], hs[i]) && ServerOk(b, cs[j].servers[b], hs[j]);
    if i <= j { assert Grows(hs[i], hs[j]); } else { assert Grows(hs[j], hs[i]); }
  }

  /** Log Matching (section 5.3): equal terms at an index of two logs mean equal prefixes, for any two
      servers at any two moments. */
  lemma LogMatching(n: nat, cs: seq<Cluster>, es: seq<Event>, i: nat, j: nat, a: ServerId, b: ServerId)
    requires Run(n, cs, es) && i < |cs| && j < |cs|
    requires a < |cs[i].servers| && b < |cs[j].servers|
    ensures Matching(cs[i].servers[a].st.entries, cs[j].servers[b].st.entries)
  {
    var hs := RunHistories(n, cs, es, ANY);
    var m := if i <= j then j else i;
    var x, y := cs[i].servers[a].st, cs[j].servers[b].st;
    assert ServerOk(a, cs[i].servers[a], hs[i]) && ServerOk(b, cs[j].servers[b], hs[j]);
    assert Grows(hs[i], hs[m]) && Grows(hs[j], hs[m]);
    RootedStable(hs[i], hs[m], x.entries, x.currentTerm, x.currentTerm);
    RootedStable(hs[j], hs[m], y.entries, y.currentTerm, y.currentTerm);
    RootedMatch(hs[m], x.entries, y.entries, x.currentTerm, y.currentTerm);
  }

  /** A log that a call was cut from, and that matches the log of every server at every moment. */
  ghost predicate SentFrom(cs: seq<Cluster>, full: seq<Entry>, m: AppendRequest) {
    && CutFrom(full, m.prevLogIdx, m.prevLogTerm, m.logEntries)
    && forall j, a | 0 <= j < |cs| && 0 <= a < |cs[j].servers| :: Matching(cs[j].servers[a].st.entries, full)
  }

  /** Every log at every moment is rooted in the last history. */
  lemma RootedLast(cs: seq<Cluster>, hs: seq<History>, j: nat, a: ServerId)
    requires Histories(cs, hs, ANY) && j < |cs| && a < |cs[j].servers|
    ensures Rooted(hs[|hs| - 1].logs, cs[j].servers[a].st.entries, cs[j].servers[a].st.currentTerm)
  {
    var st := cs[j].servers[a].st;
    assert Inv(cs[j], hs[j]) && ServerOk(a, cs[j].servers[a], hs[j]) && Grows(hs[j], hs[|hs| - 1]);
    RootedStable(hs[j], hs[|hs| - 1], st.entries, st.currentTerm, st.currentTerm);
  }

  lemma CallCut(c: Cluster, h: History, h': History, to: ServerId, m: AppendRequest)
    requires Packets(c, h) && LogsGrow(h, h') && AppendCall(to, m) in c.net
    ensures m.term in h'.logs && CutFrom(h'.logs[m.term], m.prevLogIdx, m.prevLogTerm, m.logEntries)
  {
    assert PacketOk(|c.servers|, h, AppendCall(to, m));
    assert Agree(h.logs[m.term], h'.logs[m.term], |h.logs[m.term]|);
  }

  lemma SentFromLast(
      n: nat, cs: seq<Cluster>, es: seq<Event>, hs: seq<History>, k: nat, to: ServerId, m: AppendRequest)
    requires Run(n, cs, es) && Histories(cs, hs, ANY) && k < |cs| && AppendCall(to, m) in cs[k].net
    ensures var h := hs[|hs| - 1];
            m.term in h.logs && Rooted(h.logs, h.logs[m.term], m.term) && SentFrom(cs, h.logs[m.term], m)
  {
    var h := hs[|hs| - 1];
    assert Inv(cs[k], hs[k]) && Grows(hs[k], h);
    CallCut(cs[k], hs[k], h, to, m);
    assert Inv(cs[|cs| - 1], h) && Rooted(h.logs, h.logs[m.term], m.term);
    forall j, a | 0 <= j < |cs| && 0 <= a < |cs[j].servers|
      ensures Matching(cs[j].servers[a].st.entries, h.logs[m.term])
    {
      var st := cs[j].servers[a].st;
      RootedLast(cs, hs, j, a);
      RootedMatch(h, st.entries, h.logs[m.term], st.currentTerm, m.term);
    }
  }

  /** Log Matching for calls in flight: one log behind each call that matches every server's log at every
      moment. */
  lemma LogMatchingInFlight(n: nat, cs: seq<Cluster>, es: seq<Event>, k: nat, to: ServerId, m: AppendRequest)
    returns (full: seq<Entry>)
    requires Run(n, cs, es) && k < |cs| && AppendCall(to, m) in cs[k].net
    ensures SentFrom(cs, full, m)
  {
    var hs := RunHistories(n, cs, es, ANY);
    SentFromLast(n, cs, es, hs, k, to, m);
    full := hs[|hs| - 1].logs[m.term];
  }

  /** Log Matching between calls: the logs behind any two calls, in flight at any two moments, match. */
  lemma CallsMatch(
      n: nat, cs: seq<Cluster>, es: seq<Event>, i: nat, j: nat,
      to: ServerId, m: AppendRequest, to': ServerId, m': AppendRequest)
    returns (full: seq<Entry>, full': seq<Entry>)
    requires Run(n, cs, es) && i < |cs| && j < |cs|
    requires AppendCall(to, m) in cs[i].net && AppendCall(to', m') in cs[j].net
    ensures SentFrom(cs, full, m) && SentFrom(cs, full', m') && Matching(full, full')
  {
    var hs := RunHistories(n, cs, es, ANY);
    var h := hs[|hs| - 1];
    SentFromLast(n, cs, es, hs, i, to, m);
    SentFromLast(n, cs, es, hs, j, to', m');
    full, full' := h.logs[m.term], h.logs[m'.term];
    RootedMatch(h, full, full', m.term, m'.term);
  }

  /** Terms along a log never decrease and never exceed the holder's term. */
  lemma LogsSorted(n: nat, cs: seq<Cluster>, es: seq<Event>, k: nat, a: ServerId, i: nat, j: nat)
    requires Run(n, cs, es) && k < |cs| && a < |cs[k].servers|
    requires i <= j < |cs[k].servers[a].st.entries|
    ensures var st := cs[k].servers[a].st; st.entries[i].term <= st.entries[j].term <= st.currentTerm
  {
    var hs := RunHistories(n, cs, es, ANY);
    var st := cs[k].servers[a].st;
    assert ServerOk(a, cs[k].servers[a], hs[k]);
    RootedSorted(hs[k], st.entries, st.currentTerm, i, j);
  }

  lemma CoveredPair(
      srv: seq<Server>, h: History, x: seq<Entry>, kx: Index, tx: Term, y: seq<Entry>, ky: Index, ty: Term)
    requires LogsOk(h) && LeadersKeep(srv, h) && h.mode.guarded
    requires Rooted(h.logs, x, tx) && Rooted(h.logs, y, ty)
    requires Covered(|srv|, h, x, kx, tx) && Covered(|srv|, h, y, ky, ty)
    ensures Agree(x, y, (if kx <= ky then kx else ky) + 1)
  {
    assert Agree(x, h.logs[x[0].term], 1) && Agree(y, h.logs[y[0].term], 1);
    if kx > 0 && ky > 0 {
      var t: Term, i: Index :| CoveredBy(|srv|, h, x, kx, tx, t, i);
      var u: Term, j: Index :| CoveredBy(|srv|, h, y, ky, ty, u, j);
      if t < u {
        ChosenNotBlocked(srv, h, t, i);
        assert Kept(srv, h, t, i, h.logs[u]);
      } else if u < t {
        ChosenNotBlocked(srv, h, u, j);
        assert Kept(srv, h, u, j, h.logs[t]);
      }
    }
  }

  /** Committed prefixes agree, whoever committed them and whenever. */
  lemma CommittedAgree(n: nat, cs: seq<Cluster>, es: seq<Event>, i: nat, j: nat, a: ServerId, b: ServerId)
    requires GuardedRun(n, cs, es) && i < |cs| && j < |cs|
    requires a < |cs[i].servers| && b < |cs[j].servers|
    ensures var x, y := cs[i].servers[a].st, cs[j].servers[b].st;
            Agree(x.entries, y.entries, (if x.commitIdx <= y.commitIdx then x.commitIdx else y.commitIdx) + 1)
  {
    var hs := RunHistories(n, cs, es, GUARDED);
    var m := if i <= j then j else i;
    var h := hs[m];
    var x, y := cs[i].servers[a].st, cs[j].servers[b].st;
    SameServers(n, cs, es, i); SameServers(n, cs, es, j); SameServers(n, cs, es, m);
    assert ServerOk(a, cs[i].servers[a], hs[i]) && ServerOk(b, cs[j].servers[b], hs[j]);
    assert Covered(n, hs[i], x.entries, x.commitIdx, x.currentTerm);
    assert Covered(n, hs[j], y.entries, y.commitIdx, y.currentTerm);
    assert Grows(hs[i], h) && Grows(hs[j], h);
    RootedStable(hs[i], h, x.entries, x.currentTerm, x.currentTerm);
    RootedStable(hs[j], h, y.entries, y.currentTerm, y.currentTerm);
    CoveredStable(n, hs[i], h, x.entries, x.entries, x.commitIdx, x.currentTerm, x.currentTerm);
    CoveredStable(n, hs[j], h, y.entries, y.entries, y.commitIdx, y.currentTerm, y.currentTerm);
    CoveredPair(cs[m].servers, h, x.entries, x.commitIdx, x.currentTerm, y.entries, y.commitIdx, y.currentTerm);
  }

  /** On every server: what was handed to apply is exactly entries 1..lastApplied, in order, once each,
      and nothing past the commit index or the log. */
  lemma AppliedIsPrefix(n: nat, cs: seq<Cluster>, es: seq<Event>, k: nat, a: ServerId)
    requires GuardedRun(n, cs, es) && k < |cs| && a < |cs[k].servers|
    ensures AppliedOk(cs[k].servers[a].st)
  {
    var hs := RunHistories(n, cs, es, GUARDED);
    assert LocalOk(|cs[k].servers|, a, cs[k].servers[a], hs[k]);
  }

  /** State Machine Safety (section 5.4.3): of what any two servers applied, at whatever two moments, one
      is a prefix of the other. */
  lemma StateMachineSafety(n: nat, cs: seq<Cluster>, es: seq<Event>, i: nat, j: nat, a: ServerId, b: ServerId)
    requires GuardedRun(n, cs, es) && i < |cs| && j < |cs|
    requires a < |cs[i].servers| && b < |cs[j].servers|
    ensures var x, y := cs[i].servers[a].st, cs[j].servers[b].st; x.applied <= y.applied || y.applied <= x.applied
  {
    var x, y := cs[i].servers[a].st, cs[j].servers[b].st;
    AppliedIsPrefix(n, cs, es, i, a);
    AppliedIsPrefix(n, cs, es, j, b);
    CommittedAgree(n, cs, es, i, j, a, b);
    if x.lastApplied <= y.lastApplied { AppliedAgree(x, y); } else { AppliedAgree(y, x); }
  }

  lemma AppliedAgree(x: State, y: State)
    requires AppliedOk(x) && AppliedOk(y) && x.lastApplied <= y.lastApplied
    requires Agree(x.entries, y.entries, x.lastApplied + 1) || Agree(y.entries, x.entries, x.lastApplied + 1)
    ensures x.applied <= y.applied
  {
  }

  lemma CoveredInLeaderAt(srv: seq<Server>, h: History, h': History, log: seq<Entry>, k: Index, bound: Term, u: Term)
    requires LogsOk(h') && LeadersKeep(srv, h') && Rooted(h'.logs, log, bound) && Covered(|srv|, h', log, k, bound)
    requires h'.mode.guarded && bound < u && u in h.logs && LogsGrow(h, h') && OwnTails(h, h') && |h.logs[u]| > 0
    ensures Agree(log, h.logs[u], k + 1)
  {
    assert Agree(h.logs[u], h'.logs[u], |h.logs[u]|);
    CoveredInLeader(srv, h', log, k, bound, u);
    assert h'.logs[u][k].term == log[k].term <= bound;
  }

  /** Leader Completeness (section 5.4): whatever a server has committed by its term is in the log of
      every leader of every later term, elected before or after. */
  lemma LeaderCompleteness(n: nat, cs: seq<Cluster>, es: seq<Event>, i: nat, j: nat, a: ServerId, b: ServerId)
    requires GuardedRun(n, cs, es) && i < |cs| && j < |cs|
    requires a < |cs[i].servers| && b < |cs[j].servers|
    requires cs[j].servers[b].role == Leader
    requires cs[i].servers[a].st.currentTerm < cs[j].servers[b].st.currentTerm
    ensures Agree(cs[i].servers[a].st.entries, cs[j].servers[b].st.entries, cs[i].servers[a].st.commitIdx + 1)
  {
    var hs := RunHistories(n, cs, es, GUARDED);
    var m := if i <= j then j else i;
    var h := hs[m];
    var x, y := cs[i].servers[a].st, cs[j].servers[b].st;
    SameServers(n, cs, es, i); SameServers(n, cs, es, m);
    assert ServerOk(a, cs[i].servers[a], hs[i]) && ServerOk(b, cs[j].servers[b], hs[j]);
    assert Covered(n, hs[i], x.entries, x.commitIdx, x.currentTerm);
    assert Grows(hs[i], h) && Grows(hs[j], h);
    RootedStable(hs[i], h, x.entries, x.currentTerm, x.currentTerm);
    CoveredStable(n, hs[i], h, x.entries, x.entries, x.commitIdx, x.currentTerm, x.currentTerm);
    CoveredInLeaderAt(cs[m].servers, hs[j], h, x.entries, x.commitIdx, x.currentTerm, y.currentTerm);
  }

  /** A follower's commit index never moves back, although the source takes a minimum with the log length. */
  lemma MergeCommitsForward(srv: seq<Server>, h: History, s: ServerId, m: AppendRequest, clears: bool)
    requires s < |srv| && LogsOk(h) && ServerOk(s, srv[s], h) && AppendCallOk(|srv|, h, s, m) && GateOk(srv[s])
    requires h.mode.guarded
    ensures srv[s].st.commitIdx <= AppendBody(GiveUp(srv[s], m.term, clears).st, m).st.commitIdx
  {
    var z := GiveUp(srv[s], m.term, clears);
    var out := AppendBody(z.st, m);
    if out.rep.ok {
      var full := h.logs[m.term];
      RootedMatch(h, srv[s].st.entries, full, srv[s].st.currentTerm, m.term);
      CommitBound(z.st, m, full);
    }
  }

  lemma RoundForward(c: Cluster, e: Event)
    requires Enabled(c, e) && e.AppendAnswered?
    ensures c.servers[e.s].st.commitIdx <= After(|c.servers|, c.servers[e.s], e).st.commitIdx
  {
    var x := c.servers[e.s];
    if !e.rep.ok {
      var r := OnFailure(x.st, x.progress, e.from, e.rep.term);
      NotifyOne(|c.servers|, x.(st := r.0, progress := r.1), e.rep.term);
    }
  }

  lemma CommitsForward(c: Cluster, e: Event)
    requires Enabled(c, e) && GateOk(c.servers[e.s]) && !e.DeliverAppend?
    ensures c.servers[e.s].st.commitIdx <= After(|c.servers|, c.servers[e.s], e).st.commitIdx
  {
    match e
    case DeliverVote(_, _, _) => VoteShape(|c.servers|, c.servers[e.s], e);
    case AppendAnswered(_, _, _, _) => RoundForward(c, e);
    case _ =>
  }

  lemma DeliveryForward(c: Cluster, h: History, e: Event)
    requires Enabled(c, e) && LogsOk(h) && ServerOk(e.s, c.servers[e.s], h) && GateOk(c.servers[e.s])
    requires h.mode.guarded && e.DeliverAppend? && AppendCallOk(|c.servers|, h, e.s, e.append)
    ensures c.servers[e.s].st.commitIdx <= After(|c.servers|, c.servers[e.s], e).st.commitIdx
  {
    AppendShape(|c.servers|, c.servers[e.s], e);
    MergeCommitsForward(c.servers, h, e.s, e.append, e.clears);
  }

  lemma EventForward(c: Cluster, h: History, e: Event)
    requires Enabled(c, e) && LogsOk(h) && ServerOk(e.s, c.servers[e.s], h) && GateOk(c.servers[e.s])
    requires h.mode.guarded && Packets(c, h)
    ensures c.servers[e.s].st.commitIdx <= After(|c.servers|, c.servers[e.s], e).st.commitIdx
  {
    if e.DeliverAppend? {
      assert PacketOk(|c.servers|, h, AppendCall(e.s, e.append));
      DeliveryForward(c, h, e);
    } else {
      CommitsForward(c, e);
    }
  }

  lemma StepCommitsForward(c: Cluster, h: History, e: Event, a: ServerId)
    requires Inv(c, h) && h.mode.guarded && Enabled(c, e) && a < |c.servers|
    ensures c.servers[a].st.commitIdx <= Step(c, e).servers[a].st.commitIdx
  {
    if a == e.s {
      assert LocalOk(|c.servers|, a, c.servers[a], h) && ServerOk(a, c.servers[a], h);
      EventForward(c, h, e);
    }
  }

  lemma LastStepForward(n: nat, cs: seq<Cluster>, es: seq<Event>, j: nat, a: ServerId)
    requires GuardedRun(n, cs, es) && 0 < j < |cs| && a < |cs[j - 1].servers|
    ensures a < |cs[j].servers| && cs[j - 1].servers[a].st.commitIdx <= cs[j].servers[a].st.commitIdx
  {
    var hs := RunHistories(n, cs, es, GUARDED);
    assert Guarded(cs[j - 1], es[j - 1]) && cs[j] == Step(cs[j - 1], es[j - 1]);
    StepCommitsForward(cs[j - 1], hs[j - 1], es[j - 1], a);
  }

  lemma {:induction false} CommitsOnlyForward(n: nat, cs: seq<Cluster>, es: seq<Event>, i: nat, j: nat, a: ServerId)
    requires GuardedRun(n, cs, es) && i <= j < |cs| && a < n
    ensures |cs[i].servers| == |cs[j].servers| == n
    ensures cs[i].servers[a].st.commitIdx <= cs[j].servers[a].st.commitIdx
    decreases j
  {
    SameServers(n, cs, es, i); SameServers(n, cs, es, j);
    if i < j {
      CommitsOnlyForward(n, cs, es, i, j - 1, a);
      LastStepForward(n, cs, es, j, a);
    }
  }

  /** No truncation ever reaches a committed index, and what was committed stays committed. */
  lemma CommittedIsForever(n: nat, cs: seq<Cluster>, es: seq<Event>, i: nat, j: nat, a: ServerId)
    requires GuardedRun(n, cs, es) && i <= j < |cs| && a < n
    ensures |cs[i].servers| == |cs[j].servers| == n
    ensures var x, y := cs[i].servers[a].st, cs[j].servers[a].st;
            x.commitIdx <= y.commitIdx && Agree(x.entries, y.entries, x.commitIdx + 1)
  {
    CommitsOnlyForward(n, cs, es, i, j, a);
    CommittedAgree(n, cs, es, i, j, a, a);
  }

  /** At-most-once logging: no client call stands twice in any log, whoever it was retried at. */
  lemma AtMostOnce(n: nat, cs: seq<Cluster>, es: seq<Event>, k: nat, a: ServerId)
    requires Run(n, cs, es) && k < |cs| && a < |cs[k].servers|
    ensures Distinct(cs[k].servers[a].st.entries)
  {
    var hs := RunHistories(n, cs, es, ANY);
    var st := cs[k].servers[a].st;
    assert ServerOk(a, cs[k].servers[a], hs[k]);
    RootedDistinct(hs[k], st.entries, st.currentTerm);
  }

  /** No client call is applied twice. */
  lemma AppliedAtMostOnce(n: nat, cs: seq<Cluster>, es: seq<Event>, k: nat, a: ServerId)
    requires GuardedRun(n, cs, es) && k < |cs| && a < |cs[k].servers|
    ensures Distinct(cs[k].servers[a].st.applied)
  {
    var st := cs[k].servers[a].st;
    AtMostOnce(n, cs, es, k, a);
    AppliedIsPrefix(n, cs, es, k, a);
    forall i, j | 0 <= i < j < |st.applied|
      ensures st.applied[i].srvId != st.applied[j].srvId || st.applied[i].prmIdx != st.applied[j].prmIdx
    {
      assert st.applied[i] == st.entries[i + 1] && st.applied[j] == st.entries[j + 1];
    }
  }

  /** Role gate: the gate never runs ahead of the term, and a candidate's term is always still open. */
  lemma GateBehindTerm(n: nat, cs: seq<Cluster>, es: seq<Event>, k: nat, a: ServerId)
    requires Run(n, cs, es) && k < |cs| && a < |cs[k].servers|
    ensures GateOk(cs[k].servers[a])
  {
    var hs := RunHistories(n, cs, es, ANY);
    assert LocalOk(|cs[k].servers|, a, cs[k].servers[a], hs[k]);
  }

  lemma AnswerRaises(c: Cluster, e: Event)
    requires Enabled(c, e) && e.AppendAnswered? && GateOk(c.servers[e.s])
    ensures Raised(c.servers[e.s], After(|c.servers|, c.servers[e.s], e))
  {
    var x := c.servers[e.s];
    if !e.rep.ok {
      var r := OnFailure(x.st, x.progress, e.from, e.rep.term);
      NotifyOne(|c.servers|, x.(st := r.0, progress := r.1), e.rep.term);
    }
  }

  /** A new role or a new candidacy is one the gate let through. */
  ghost predicate Raised(x: Server, y: Server) {
    && x.gate <= y.gate
    && (y.role != x.role || (y.role == Candidate && x.st.currentTerm < y.st.currentTerm) ==>
          x.gate < y.gate || y.gate == 0)
  }

  lemma EventRaises(c: Cluster, e: Event)
    requires Enabled(c, e) && GateOk(c.servers[e.s]) && !e.Start? && !e.Stop?
    ensures Raised(c.servers[e.s], After(|c.servers|, c.servers[e.s], e))
  {
    match e
    case DeliverVote(_, _, _) => VoteShape(|c.servers|, c.servers[e.s], e);
    case DeliverAppend(_, _, _) => AppendShape(|c.servers|, c.servers[e.s], e);
    case AppendAnswered(_, _, _, _) => AnswerRaises(c, e);
    case _ =>
  }

  /** One transition per term, over every run: each new role and each new candidacy of a server above term 0
      raises its gate; only starting and stopping go past it. */
  lemma TransitionsRaiseGate(n: nat, cs: seq<Cluster>, es: seq<Event>, k: nat)
    requires Run(n, cs, es) && k < |es| && !es[k].Start? && !es[k].Stop?
    ensures es[k].s < |cs[k].servers| && es[k].s < |cs[k + 1].servers|
    ensures Raised(cs[k].servers[es[k].s], cs[k + 1].servers[es[k].s])
  {
    assert Enabled(cs[k], es[k]) && cs[k + 1] == Step(cs[k], es[k]);
    GateBehindTerm(n, cs, es, k, es[k].s);
    EventRaises(cs[k], es[k]);
  }

  lemma LastGateRises(n: nat, cs: seq<Cluster>, es: seq<Event>, j: nat, a: ServerId)
    requires Run(n, cs, es) && 0 < j < |cs| && a < |cs[j - 1].servers|
    ensures a < |cs[j].servers| && cs[j - 1].servers[a].gate <= cs[j].servers[a].gate
  {
    assert Enabled(cs[j - 1], es[j - 1]) && cs[j] == Step(cs[j - 1], es[j - 1]);
    if a == es[j - 1].s && !es[j - 1].Start? && !es[j - 1].Stop? { TransitionsRaiseGate(n, cs, es, j - 1); }
  }

  lemma {:induction false} GateOnlyRises(n: nat, cs: seq<Cluster>, es: seq<Event>, i: nat, j: nat, a: ServerId)
    requires Run(n, cs, es) && i <= j < |cs| && a < n
    ensures |cs[i].servers| == |cs[j].servers| == n
    ensures cs[i].servers[a].gate <= cs[j].servers[a].gate
    decreases j
  {
    SameServers(n, cs, es, i);
    SameServers(n, cs, es, j);
    if i < j {
      GateOnlyRises(n, cs, es, i, j - 1, a);
      LastGateRises(n, cs, es, j, a);
    }
  }

  /** Counting: every counter of every leader is exactly one plus the number of followers it knows to
      store the entry. */
  lemma LeaderBookkeeping(n: nat, cs: seq<Cluster>, es: seq<Event>, k: nat, a: ServerId)
    requires ExactRun(n, cs, es) && k < |cs| && a < |cs[k].servers| && cs[k].servers[a].role == Leader
    ensures var x := cs[k].servers[a];
            && |x.progress.nextIdx| == |x.progress.matchIdx| == n
            && (forall f | 0 <= f < n && f != a :: 1 <= x.progress.nextIdx[f] <= |x.st.entries|)
            && |x.progress.replicateNum| == |x.st.entries|
            && CountsExact(x.progress, a)
  {
    var hs := RunHistories(n, cs, es, EXACT);
    SameServers(n, cs, es, k);
    assert LocalOk(n, a, cs[k].servers[a], hs[k]);
  }

  /** A round that leaves the counters exact commits only what a majority is known to store. */
  lemma ExactRoundHeld(n: nat, s: ServerId, st: State, p: Progress, f: ServerId, count: nat)
    requires f < |p.nextIdx| && f < |p.matchIdx| && 1 <= p.nextIdx[f] && f != s && CountsExact(p, s)
    requires p.matchIdx[f] < |p.replicateNum| == p.nextIdx[f] + count
    ensures CommitsHeld(n, st, p, s, f, count)
  {
    CountsStayExactIff(n, st, p, s, f, count);
  }

  /** Exact counts are one way to commit only what a majority is known to store. */
  lemma ExactCommitsHeld(n: nat, cs: seq<Cluster>, es: seq<Event>, k: nat)
    requires ExactRun(n, cs, es) && k < |es|
    ensures Enabled(cs[k], es[k]) && CommitsOnMajority(cs[k], es[k])
  {
    var hs := RunHistories(n, cs, es, EXACT);
    var c, e := cs[k], es[k];
    if e.AppendAnswered? && e.rep.ok {
      assert LocalOk(|c.servers|, e.s, c.servers[e.s], hs[k]) && CountsWholeLog(c, e);
      assert PacketOk(|c.servers|, hs[k], AppendAnswer(e.from, e.append, e.rep));
      ExactRoundHeld(|c.servers|, e.s, c.servers[e.s].st, c.servers[e.s].progress, e.from, |e.append.logEntries|);
    }
  }
}
