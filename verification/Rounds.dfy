/** The remaining events: standing, winning, appending, replicating and counting. */
module Rounds {
  import opened RaftDefs
  import opened Handlers
  import opened LeaderState
  import opened Replication
  import opened Cluster
  import opened History
  import opened Stability
  import opened Actions
  import opened Elections
  import opened Appends
  import opened Invariant
  import opened Steps

  lemma WinLocals(n: nat, s: ServerId, x: Server, h: History)
    requires LocalOk(n, s, x, h) && x.role == Candidate && |x.st.entries| > 0
    ensures var y := Become(x, Leader).(gate := x.st.currentTerm, progress := Reinit(n, |x.st.entries|));
            LocalOk(n, s, y, h)
  {
  }

  lemma WinCore(srv: seq<Server>, h: History, s: ServerId, y: Server, q: set<ServerId>)
    requires s < |srv| && Core(srv, h) && Wins(s, srv[s], y, h, q) && Quorum(|srv|, q)
    ensures Grows(h, Elected(h, s, y.st, q)) && Core(srv[s := y], Elected(h, s, y.st, q))
  {
    assert ServerOk(s, srv[s], h);
    WinIsFirst(srv, h, s, y, q);
    WinGrows(srv, h, s, y, q);
    WinBasics(srv, h, s, y, q);
    WinPromises(srv, h, s, y, q);
  }

  lemma WinSettles(srv: seq<Server>, h: History, s: ServerId, y: Server, q: set<ServerId>) returns (h': History)
    requires s < |srv| && Core(srv, h) && DistinctOk(h)
    requires Wins(s, srv[s], y, h, q) && Quorum(|srv|, q) && LocalOk(|srv|, s, y, h)
    ensures Settled(srv, s, y, h, h')
  {
    h' := Elected(h, s, y.st, q);
    WinCore(srv, h, s, y, q);
    assert ServerOk(s, srv[s], h);
    RootedDistinct(h, y.st.entries, y.st.currentTerm);
    LocalStable(|srv|, s, y, h, h');
  }

  /** A candidate asks to become leader exactly when its votes are a majority. */
  lemma MajoritySettles(srv: seq<Server>, h: History, s: ServerId) returns (h': History)
    requires s < |srv| && Core(srv, h) && DistinctOk(h)
    requires srv[s].role == Candidate && LocalOk(|srv|, s, srv[s], h) && |srv[s].st.entries| > 0
    ensures Settled(srv, s, CheckMajority(|srv|, srv[s], srv[s].st.currentTerm), h, h')
  {
    var x, n := srv[s], |srv|;
    var y := CheckMajority(n, x, x.st.currentTerm);
    if |x.counted| > n / 2 {
      WinLocals(n, s, x, h);
      h' := WinSettles(srv, h, s, y, x.counted);
    } else {
      h' := h;
      QuietSettles(srv, h, s, y);
    }
  }

  lemma ThenGrown(srv: seq<Server>, s: ServerId, z: Server, y: Server, h: History, mid: History, h': History)
    requires s < |srv| && Grows(h, mid) && Settled(srv[s := z], s, y, mid, h')
    ensures Settled(srv, s, y, h, h')
  {
    assert srv[s := z][s := y] == srv[s := y];
    GrowsTrans(h, mid, h');
  }

  lemma StandSettles(srv: seq<Server>, h: History, s: ServerId, y: Server) returns (h': History)
    requires s < |srv| && Core(srv, h) && DistinctOk(h) && Stands(s, srv[s], y)
    requires (h.mode.guarded ==> AppliedOk(y.st)) && GateOk(y) && y.counted == {s}
    ensures Settled(srv, s, y, h, h')
    ensures Key(y.st.currentTerm, s) in h'.cands && h'.cands[Key(y.st.currentTerm, s)] == y.st.entries
  {
    h' := Stood(h, s, y.st.currentTerm, y.st.entries);
    StandGrows(srv, h, s, y);
    StandBasics(srv, h, s, y);
    StandPromises(srv, h, s, y);
  }

  lemma StandThenWin(srv: seq<Server>, h: History, s: ServerId, z: Server) returns (h': History)
    requires s < |srv| && Core(srv, h) && DistinctOk(h) && Stands(s, srv[s], z)
    requires (h.mode.guarded ==> AppliedOk(z.st)) && GateOk(z) && z.counted == {s}
    ensures Settled(srv, s, CheckMajority(|srv|, z, z.st.currentTerm), h, h')
    ensures Key(z.st.currentTerm, s) in h'.cands && h'.cands[Key(z.st.currentTerm, s)] == z.st.entries
  {
    var mid := StandSettles(srv, h, s, z);
    h' := MajoritySettles(srv[s := z], mid, s);
    ThenGrown(srv, s, z, CheckMajority(|srv|, z, z.st.currentTerm), h, mid, h');
  }

  lemma VoteCallsOk(n: nat, s: ServerId, st: State, h: History)
    requires 0 < st.currentTerm && |st.entries| > 0
    requires Key(st.currentTerm, s) in h.cands && h.cands[Key(st.currentTerm, s)] == st.entries
    ensures forall p | p in Others(n, s) :: PacketOk(n, h, VoteCall(p, VoteCallOf(s, st)))
  {
  }

  lemma StandingStands(n: nat, s: ServerId, x: Server, h: History)
    requires LocalOk(n, s, x, h)
    ensures var z := Standing(s, x);
            Stands(s, x, z) && (h.mode.guarded ==> AppliedOk(z.st)) && GateOk(z) && z.counted == {s}
  {
  }

  lemma TimeoutOpens(srv: seq<Server>, h: History, s: ServerId, y: Server) returns (h': History)
    requires s < |srv| && Core(srv, h) && DistinctOk(h) && LocalOk(|srv|, s, srv[s], h)
    requires y == StartCandidacy(|srv|, s, srv[s])
    ensures Settled(srv, s, y, h, h') && Opened(srv[s], s, h')
  {
    StandingStands(|srv|, s, srv[s], h);
    h' := StandThenWin(srv, h, s, Standing(s, srv[s]));
  }

  /** The server's new candidacy is on record. */
  ghost predicate Opened(x: Server, s: ServerId, h: History) {
    var k := Key(x.st.currentTerm + 1, s);
    k in h.cands && h.cands[k] == x.st.entries
  }

  lemma CallsOpened(n: nat, x: Server, s: ServerId, h: History)
    requires |x.st.entries| > 0 && (Accepts(x.gate, x.st.currentTerm) ==> Opened(x, s, h))
    ensures forall p | p in Sent(n, x, Timeout(s)) :: PacketOk(n, h, p)
  {
    if Accepts(x.gate, x.st.currentTerm) {
      VoteCallsOk(n, s, x.st.(currentTerm := x.st.currentTerm + 1, votedFor := Some(s)), h);
    }
  }

  lemma TimeoutSettles(srv: seq<Server>, h: History, s: ServerId) returns (h': History)
    requires Core(srv, h) && DistinctOk(h) && s < |srv| && LocalOk(|srv|, s, srv[s], h) && |srv[s].st.entries| > 0
    ensures Settled(srv, s, After(|srv|, srv[s], Timeout(s)), h, h')
    ensures Accepts(srv[s].gate, srv[s].st.currentTerm) ==> Opened(srv[s], s, h')
  {
    if Accepts(srv[s].gate, srv[s].st.currentTerm) {
      h' := TimeoutOpens(srv, h, s, After(|srv|, srv[s], Timeout(s)));
    } else {
      h' := h;
      QuietSettles(srv, h, s, srv[s]);
    }
  }

  lemma TimeoutStep(c: Cluster, h: History, e: Event) returns (h': History)
    requires Core(c.servers, h) && DistinctOk(h) && Enabled(c, e) && LocalOk(|c.servers|, e.s, c.servers[e.s], h)
    requires e.Timeout?
    ensures Settled(c.servers, e.s, After(|c.servers|, c.servers[e.s], e), h, h')
    ensures forall p | p in Sent(|c.servers|, c.servers[e.s], e) :: PacketOk(|c.servers|, h', p)
  {
    assert e == Timeout(e.s);
    h' := TimeoutSettles(c.servers, h, e.s);
    CallsOpened(|c.servers|, c.servers[e.s], e.s, h');
  }

  lemma CountSettles(srv: seq<Server>, h: History, s: ServerId, z: Server) returns (h': History)
    requires s < |srv| && Core(srv, h) && DistinctOk(h)
    requires Quiet(srv[s], z) && z.role == Candidate && LocalOk(|srv|, s, z, h)
    ensures Settled(srv, s, CheckMajority(|srv|, z, z.st.currentTerm), h, h')
  {
    QuietSettles(srv, h, s, z);
    assert ServerOk(s, srv[s := z][s], h);
    h' := MajoritySettles(srv[s := z], h, s);
    ThenSettled(srv, s, z, CheckMajority(|srv|, z, z.st.currentTerm), h, h');
  }

  lemma VoteAnsweredStep(c: Cluster, h: History, e: Event) returns (h': History)
    requires Core(c.servers, h) && DistinctOk(h) && Enabled(c, e) && LocalOk(|c.servers|, e.s, c.servers[e.s], h)
    requires e.VoteAnswered? && VoteAnswerOk(|c.servers|, h, e.from, e.vote, e.rep)
    ensures Settled(c.servers, e.s, After(|c.servers|, c.servers[e.s], e), h, h')
  {
    var n, s, x := |c.servers|, e.s, c.servers[e.s];
    if e.rep.term != e.vote.term || !e.rep.ok {
      h' := h;
      QuietSettles(c.servers, h, s, x);
    } else {
      h' := CountSettles(c.servers, h, s, x.(counted := x.counted + {e.from}));
    }
  }

  lemma ClientLocals(n: nat, s: ServerId, x: Server, cmd: Command, h: History)
    requires LocalOk(n, s, x, h) && x.role == Leader
    ensures var r := AddLog(x.st, x.progress, cmd); LocalOk(n, s, x.(st := r.0, progress := r.1), h)
  {
    if h.mode.exact { AddLogCountsExact(x.st, x.progress, cmd, s); }
  }

  /** The leader's scan of its whole log keeps client calls from being logged twice. */
  lemma AddLogDistinct(st: State, p: Progress, cmd: Command)
    requires Distinct(st.entries)
    ensures Distinct(AddLog(st, p, cmd).0.entries)
  {
  }

  lemma ExtendSettles(srv: seq<Server>, h: History, s: ServerId, y: Server) returns (h': History)
    requires s < |srv| && Core(srv, h) && DistinctOk(h)
    requires Extends(srv[s], y) && Distinct(y.st.entries) && LocalOk(|srv|, s, y, h)
    ensures Settled(srv, s, y, h, h')
  {
    h' := Extended(h, s, y.st);
    assert ServerOk(s, srv[s], h);
    ExtendGrows(srv, h, s, y);
    ExtendBasics(srv, h, s, y);
    ExtendPromises(srv, h, s, y);
    LocalStable(|srv|, s, y, h, h');
  }

  lemma LeaderAdds(srv: seq<Server>, h: History, s: ServerId, cmd: Command) returns (h': History)
    requires s < |srv| && Core(srv, h) && DistinctOk(h) && LocalOk(|srv|, s, srv[s], h)
    requires srv[s].role == Leader && !Logged(srv[s].st.entries, cmd)
    ensures var r := AddLog(srv[s].st, srv[s].progress, cmd);
            Settled(srv, s, srv[s].(st := r.0, progress := r.1), h, h')
  {
    var x := srv[s];
    var r := AddLog(x.st, x.progress, cmd);
    assert ServerOk(s, x, h);
    RootedDistinct(h, x.st.entries, x.st.currentTerm);
    AddLogDistinct(x.st, x.progress, cmd);
    ClientLocals(|srv|, s, x, cmd, h);
    h' := ExtendSettles(srv, h, s, x.(st := r.0, progress := r.1));
  }

  lemma ClientStep(c: Cluster, h: History, e: Event) returns (h': History)
    requires Core(c.servers, h) && DistinctOk(h) && Enabled(c, e) && LocalOk(|c.servers|, e.s, c.servers[e.s], h)
    requires e.ClientCall?
    ensures Settled(c.servers, e.s, After(|c.servers|, c.servers[e.s], e), h, h')
  {
    var s, x := e.s, c.servers[e.s];
    if x.role == Leader && !Logged(x.st.entries, e.cmd) {
      h' := LeaderAdds(c.servers, h, s, e.cmd);
    } else {
      h' := h;
      QuietSettles(c.servers, h, s, x);
    }
  }

  lemma SendPackets(srv: seq<Server>, h: History, s: ServerId, f: ServerId)
    requires s < |srv| && ServersOk(srv, h) && CommitsOk(srv, h) && (h.mode.guarded ==> AppliedOk(srv[s].st))
    requires srv[s].role == Leader && f != s
    requires f < |srv[s].progress.nextIdx| && 1 <= srv[s].progress.nextIdx[f] <= |srv[s].st.entries|
    ensures AppendCallOk(|srv|, h, f, CreateAppendEntries(srv[s].st, s, srv[s].progress.nextIdx[f]))
  {
  }

  lemma CallSent(n: nat, x: Server, e: Event, h: History)
    requires e.Send? && |x.st.entries| > 0
    requires e.f < |x.progress.nextIdx| && 1 <= x.progress.nextIdx[e.f] <= |x.st.entries|
    requires AppendCallOk(n, h, e.f, CreateAppendEntries(x.st, e.s, x.progress.nextIdx[e.f]))
    ensures forall p | p in Sent(n, x, e) :: PacketOk(n, h, p)
  {
  }

  lemma SendStep(c: Cluster, h: History, e: Event)
    requires Core(c.servers, h) && DistinctOk(h) && Enabled(c, e) && LocalOk(|c.servers|, e.s, c.servers[e.s], h)
    requires e.Send?
    ensures Settled(c.servers, e.s, c.servers[e.s], h, h)
    ensures forall p | p in Sent(|c.servers|, c.servers[e.s], e) :: PacketOk(|c.servers|, h, p)
  {
    SendPackets(c.servers, h, e.s, e.f);
    CallSent(|c.servers|, c.servers[e.s], e, h);
    QuietSettles(c.servers, h, e.s, c.servers[e.s]);
  }

  lemma TakeSettles(srv: seq<Server>, h: History, s: ServerId, y: Server, end: Index)
    requires s < |srv| && Core(srv, h) && DistinctOk(h)
    requires Takes(srv[s], y, h, end)
    ensures var h' := Took(h, s, y.st.currentTerm, end); Grows(h, h') && Core(srv[s := y], h') && DistinctOk(h')
  {
    TakeGrows(srv, h, s, y, end);
    TakeBasics(srv, h, s, y, end);
    TakePromises(srv, h, s, y, end);
  }

  lemma RecommitSettles(srv: seq<Server>, h: History, s: ServerId, y: Server)
    requires s < |srv| && Core(srv, h) && DistinctOk(h) && Recommits(|srv|, h, srv[s], y) && LocalOk(|srv|, s, y, h)
    ensures Settled(srv, s, y, h, h)
  {
    RecommitBasics(srv, h, s, y);
    RecommitPromises(srv, h, s, y);
    SelfGrows(h);
  }

  /** Only a follower of the current term ever merges: the term's leader is never called by itself. */
  lemma MergerIsFollower(srv: seq<Server>, h: History, s: ServerId, m: AppendRequest)
    requires s < |srv| && ServerOk(s, srv[s], h) && AppendCallOk(|srv|, h, s, m) && m.term == srv[s].st.currentTerm
    ensures srv[s].role != Leader
  {
  }

  /** Truncation spares what was applied. */
  lemma AppliedKept(st: State, log: seq<Entry>, commit: Index)
    requires AppliedOk(st) && Agree(st.entries, log, st.commitIdx + 1) && st.commitIdx <= commit < |log|
    ensures AppliedOk(st.(entries := log, commitIdx := commit))
  {
  }

  /** The server after an accepted merge, before its commit index moves. */
  function Merged(x: Server, m: AppendRequest): Server {
    x.(st := x.st.(entries := AppendBody(x.st, m).st.entries))
  }

  lemma MergeTakes(srv: seq<Server>, h: History, s: ServerId, m: AppendRequest)
    requires s < |srv| && LogsOk(h) && ServerOk(s, srv[s], h) && AppendCallOk(|srv|, h, s, m)
    requires srv[s].role != Candidate && AppendBody(srv[s].st, m).rep.ok && m.term == srv[s].st.currentTerm
    ensures Takes(srv[s], Merged(srv[s], m), h, m.prevLogIdx + |m.logEntries|)
    ensures var commit := if srv[s].st.commitIdx < m.commitIdx then m.commitIdx else srv[s].st.commitIdx;
            h.mode.guarded ==> AppendBody(srv[s].st, m).st.commitIdx == commit
  {
    var full := h.logs[m.term];
    RootedMatch(h, srv[s].st.entries, full, srv[s].st.currentTerm, m.term);
    CallMerges(srv[s].st, m, full);
    if h.mode.guarded { CommitBound(srv[s].st, m, full); }
    MergerIsFollower(srv, h, s, m);
  }

  lemma MergeKeeps(srv: seq<Server>, h: History, s: ServerId, m: AppendRequest)
    requires s < |srv| && LogsOk(h) && LeadersKeep(srv, h) && ServerOk(s, srv[s], h) && AppendCallOk(|srv|, h, s, m)
    requires srv[s].role != Candidate && AppendBody(srv[s].st, m).rep.ok && m.term == srv[s].st.currentTerm
    requires AppliedOk(srv[s].st) && h.mode.guarded
    requires Covered(|srv|, h, srv[s].st.entries, srv[s].st.commitIdx, srv[s].st.currentTerm)
    ensures AppliedOk(AppendBody(srv[s].st, m).st)
    ensures Agree(srv[s].st.entries, AppendBody(srv[s].st, m).st.entries, srv[s].st.commitIdx + 1)
  {
    var x, w := srv[s], Merged(srv[s], m);
    MergeTakes(srv, h, s, m);
    TakeKeepsCommitted(srv, h, s, w, m.prevLogIdx + |m.logEntries|);
    AppliedKept(x.st, w.st.entries, AppendBody(x.st, m).st.commitIdx);
  }

  /** The commit index a follower takes over is covered in its own merged log. */
  lemma MergeCovers(srv: seq<Server>, h: History, s: ServerId, m: AppendRequest)
    requires s < |srv| && LogsOk(h) && ServerOk(s, srv[s], h) && AppendCallOk(|srv|, h, s, m) && h.mode.guarded
    requires srv[s].role != Candidate && AppendBody(srv[s].st, m).rep.ok && m.term == srv[s].st.currentTerm
    requires Covered(|srv|, h, srv[s].st.entries, srv[s].st.commitIdx, srv[s].st.currentTerm)
    requires Agree(srv[s].st.entries, AppendBody(srv[s].st, m).st.entries, srv[s].st.commitIdx + 1)
    ensures var st := AppendBody(srv[s].st, m).st; Covered(|srv|, h, st.entries, st.commitIdx, st.currentTerm)
  {
    var x, log := srv[s], AppendBody(srv[s].st, m).st.entries;
    MergeTakes(srv, h, s, m);
    if x.st.commitIdx < m.commitIdx {
      CoveredStable(|srv|, h, h, h.logs[m.term], log, m.commitIdx, m.term, m.term);
    } else {
      CoveredStable(|srv|, h, h, x.st.entries, log, x.st.commitIdx, m.term, m.term);
    }
  }

  lemma MergeCommits(srv: seq<Server>, h: History, s: ServerId, m: AppendRequest)
    requires s < |srv| && LogsOk(h) && LeadersKeep(srv, h) && ServersOk(srv, h) && CommitsOk(srv, h)
    requires h.mode.guarded && AppliedOk(srv[s].st) && AppendCallOk(|srv|, h, s, m) && srv[s].role != Candidate
    requires AppendBody(srv[s].st, m).rep.ok && m.term == srv[s].st.currentTerm
    ensures var st := AppendBody(srv[s].st, m).st;
            AppliedOk(st) && Covered(|srv|, h, st.entries, st.commitIdx, st.currentTerm)
  {
    assert ServerOk(s, srv[s], h);
    assert Covered(|srv|, h, srv[s].st.entries, srv[s].st.commitIdx, srv[s].st.currentTerm);
    MergeKeeps(srv, h, s, m);
    MergeCovers(srv, h, s, m);
  }

  lemma TakenThenRecommitted(srv: seq<Server>, h: History, s: ServerId, w: Server, y: Server, end: Index)
    returns (h': History)
    requires s < |srv| && Takes(srv[s], w, h, end) && Recommits(|srv|, h, w, y) && LocalOk(|srv|, s, y, h)
    requires Core(srv, h) && DistinctOk(h)
    ensures Settled(srv, s, y, h, h')
    ensures end <= Ack(h', w.st.currentTerm, s)
  {
    h' := Took(h, s, w.st.currentTerm, end);
    TakeSettles(srv, h, s, w, end);
    CoveredStable(|srv|, h, h', y.st.entries, y.st.entries, y.st.commitIdx, y.st.currentTerm, y.st.currentTerm);
    LocalStable(|srv|, s, y, h, h');
    RecommitSettles(srv[s := w], h', s, y);
    ThenGrown(srv, s, w, y, h, h', h');
  }

  lemma MergeRecommits(srv: seq<Server>, h: History, s: ServerId, m: AppendRequest, y: Server)
    requires s < |srv| && LogsOk(h) && LeadersKeep(srv, h) && ServersOk(srv, h) && CommitsOk(srv, h)
    requires LocalOk(|srv|, s, srv[s], h) && AppendCallOk(|srv|, h, s, m) && srv[s].role != Candidate
    requires AppendBody(srv[s].st, m).rep.ok && m.term == srv[s].st.currentTerm
    requires y == srv[s].(st := ApplyReady(AppendBody(srv[s].st, m).st))
    ensures Takes(srv[s], Merged(srv[s], m), h, m.prevLogIdx + |m.logEntries|)
    ensures Recommits(|srv|, h, Merged(srv[s], m), y) && LocalOk(|srv|, s, y, h)
  {
    assert ServerOk(s, srv[s], h);
    MergeTakes(srv, h, s, m);
    if h.mode.guarded {
      MergeCommits(srv, h, s, m);
      ApplyReadyOk(AppendBody(srv[s].st, m).st);
    }
  }

  lemma AcceptedStep(srv: seq<Server>, h: History, s: ServerId, m: AppendRequest, y: Server) returns (h': History)
    requires s < |srv| && Core(srv, h) && DistinctOk(h) && LocalOk(|srv|, s, srv[s], h)
    requires AppendCallOk(|srv|, h, s, m) && srv[s].role != Candidate
    requires AppendBody(srv[s].st, m).rep.ok && m.term == srv[s].st.currentTerm
    requires y == srv[s].(st := ApplyReady(AppendBody(srv[s].st, m).st))
    ensures Settled(srv, s, y, h, h')
    ensures AppendAnswerOk(|srv|, h', s, m, Reply(m.term, true))
  {
    var w, end := Merged(srv[s], m), m.prevLogIdx + |m.logEntries|;
    MergeRecommits(srv, h, s, m, y);
    h' := TakenThenRecommitted(srv, h, s, w, y, end);
  }

  lemma RefusedStep(srv: seq<Server>, h: History, s: ServerId, y: Server)
    requires s < |srv| && Core(srv, h) && DistinctOk(h) && LocalOk(|srv|, s, srv[s], h)
    requires y == srv[s].(st := ApplyReady(srv[s].st))
    ensures Settled(srv, s, y, h, h)
  {
    if h.mode.guarded { ApplyReadyOk(srv[s].st); }
    QuietSettles(srv, h, s, y);
  }

  lemma DeliverAppendBody(srv: seq<Server>, h: History, s: ServerId, m: AppendRequest, y: Server)
    returns (h': History)
    requires s < |srv| && Core(srv, h) && DistinctOk(h) && LocalOk(|srv|, s, srv[s], h)
    requires AppendCallOk(|srv|, h, s, m) && m.term <= srv[s].st.currentTerm
    requires srv[s].role == Candidate ==> m.term < srv[s].st.currentTerm
    requires y == srv[s].(st := ApplyReady(AppendBody(srv[s].st, m).st))
    ensures Settled(srv, s, y, h, h')
    ensures AppendAnswerOk(|srv|, h', s, m, AppendBody(srv[s].st, m).rep)
  {
    if AppendBody(srv[s].st, m).rep.ok {
      h' := AcceptedStep(srv, h, s, m, y);
    } else {
      h' := h;
      RefusedStep(srv, h, s, y);
    }
  }

  lemma DeliverAppendAt(srv: seq<Server>, h: History, s: ServerId, m: AppendRequest, z: Server, y: Server)
    returns (h': History)
    requires s < |srv| && Core(srv, h) && DistinctOk(h) && Quiet(srv[s], z) && LocalOk(|srv|, s, z, h)
    requires AppendCallOk(|srv|, h, s, m) && m.term <= z.st.currentTerm
    requires z.role == Candidate ==> m.term < z.st.currentTerm
    requires y == z.(st := ApplyReady(AppendBody(z.st, m).st))
    ensures Settled(srv, s, y, h, h')
    ensures AppendAnswerOk(|srv|, h', s, m, AppendBody(z.st, m).rep)
  {
    QuietSettles(srv, h, s, z);
    h' := DeliverAppendBody(srv[s := z], h, s, m, y);
    ThenSettled(srv, s, z, y, h, h');
  }

  lemma AnswerSent(n: nat, x: Server, e: Event, h: History)
    requires e.DeliverAppend? && |x.st.entries| > 0
    requires AppendAnswerOk(n, h, e.s, e.append, HandleAppend(AsDocumented(e.clears), x.st, x.role, e.append).rep)
    ensures forall p | p in Sent(n, x, e) :: PacketOk(n, h, p)
  {
  }

  lemma StaleAppendStep(c: Cluster, h: History, e: Event)
    requires Core(c.servers, h) && DistinctOk(h) && Enabled(c, e) && LocalOk(|c.servers|, e.s, c.servers[e.s], h)
    requires e.DeliverAppend? && c.servers[e.s].role == Follower && e.append.term < c.servers[e.s].st.currentTerm
    requires e.s != e.append.leaderId
    ensures Settled(c.servers, e.s, After(|c.servers|, c.servers[e.s], e), h, h)
    ensures forall p | p in Sent(|c.servers|, c.servers[e.s], e) :: PacketOk(|c.servers|, h, p)
  {
    AppendShape(|c.servers|, c.servers[e.s], e);
    QuietSettles(c.servers, h, e.s, After(|c.servers|, c.servers[e.s], e));
    AnswerSent(|c.servers|, c.servers[e.s], e, h);
  }

  lemma DeliverAppendStep(c: Cluster, h: History, e: Event) returns (h': History)
    requires Core(c.servers, h) && DistinctOk(h) && Enabled(c, e) && LocalOk(|c.servers|, e.s, c.servers[e.s], h)
    requires e.DeliverAppend? && AppendCallOk(|c.servers|, h, e.s, e.append)
    requires !(c.servers[e.s].role == Follower && e.append.term < c.servers[e.s].st.currentTerm)
    ensures Settled(c.servers, e.s, After(|c.servers|, c.servers[e.s], e), h, h')
    ensures forall p | p in Sent(|c.servers|, c.servers[e.s], e) :: PacketOk(|c.servers|, h', p)
  {
    var n, x := |c.servers|, c.servers[e.s];
    var z, y := GiveUp(x, e.append.term, e.clears), After(n, x, e);
    AppendShape(n, x, e);
    GiveUpOk(n, e.s, x, e.append.term, e.clears, h);
    h' := DeliverAppendAt(c.servers, h, e.s, e.append, z, y);
    AnswerSent(n, x, e, h');
  }
}
