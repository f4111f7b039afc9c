/** How old an entry a leader may commit. Section 5.4.2 (Figure 8) asks for one of the leader's own term; the
    source asks nothing, and with three servers or more two of them can then apply different entries. One term
    back is always safe, two terms back is not. */
module OldTermCommit {
  import opened RaftDefs
  import opened Handlers
  import opened LeaderState
  import opened Cluster
  import opened Invariant
  import opened Paths
  import opened Safety

  const A := Entry(1, "a", "", 1, Some(0))
  const B := Entry(2, "b", "", 1, Some(1))

  lemma Add(r: Rules, c: Cluster, s: ServerId, e: Entry) returns (d: Cluster)
    requires s < |c.servers| && c.servers[s] == LeaderAt(|c.servers|, s, e.term, [SENTINEL]) && e.srvId != None
    ensures Leads(r, c, d)
    ensures d.servers == c.servers[s := LeaderAt(|c.servers|, s, e.term, [SENTINEL, e])]
  {
    var call := ClientCall(s, Command(e.opName, e.args, e.prmIdx, e.srvId));
    assert [SENTINEL] + [e] == [SENTINEL, e];
    assert Reinit(|c.servers|, 1).replicateNum + [1] == Reinit(|c.servers|, 2).replicateNum;
    LeadsOne(r, c, call);
    d := Step(c, call);
  }

  /** A leader whose log is [SENTINEL, e], that has not committed anything, and that sent nothing yet to
      the servers from k on, while m servers are known to store e. */
  ghost predicate Holds(n: nat, x: Server, e: Entry, k: ServerId, m: nat) {
    && x.role == Leader && x.st.entries == [SENTINEL, e]
    && x.st.commitIdx == 0 && x.st.lastApplied == 0 && x.st.applied == []
    && |x.progress.nextIdx| == n && |x.progress.matchIdx| == n && x.progress.replicateNum == [1, m]
    && forall v | k <= v < n :: x.progress.nextIdx[v] == 1 && x.progress.matchIdx[v] == 0
  }

  /** A follower of the same term that has nothing after the initial entry, or something older. */
  predicate Behind(x: Server, term: Term, e: Entry) {
    && x.role == Follower && x.st.currentTerm == term && x.st.commitIdx == 0 && x.st.lastApplied == 0
    && |x.st.entries| > 0 && x.st.entries[0] == SENTINEL
    && (|x.st.entries| > 1 ==> x.st.entries[1].term != e.term)
  }

  function Took(x: Server, e: Entry): Server {
    x.(st := x.st.(entries := [SENTINEL, e]))
  }

  function OneEntry(s: ServerId, term: Term, e: Entry): AppendRequest {
    AppendRequest(term, s, 0, 0, [e], 0)
  }

  lemma Dispatch(r: Rules, c: Cluster, s: ServerId, v: ServerId, e: Entry, m: nat) returns (d: Cluster)
    requires s < v < |c.servers| && Holds(|c.servers|, c.servers[s], e, v, m)
    ensures Leads(r, c, d) && d.servers == c.servers
    ensures AppendCall(v, OneEntry(s, c.servers[s].st.currentTerm, e)) in d.net
  {
    assert c.servers[s].st.entries[1..] == [e];
    LeadsOne(r, c, Send(s, v));
    d := Step(c, Send(s, v));
  }

  lemma BehindTakes(n: nat, x: Server, s: ServerId, v: ServerId, term: Term, e: Entry)
    requires Behind(x, term, e)
    ensures var m := OneEntry(s, term, e);
            && After(n, x, DeliverAppend(v, m, true)) == Took(x, e)
            && HandleAppend(AsDocumented(true), x.st, x.role, m).rep == Reply(term, true)
  {
    assert MatchFrom(x.st.entries, 1, [e], 0) == 0;
    assert x.st.entries[..1] + [e][0..] == [SENTINEL, e];
    assert HandleAppend(AsDocumented(true), x.st, x.role, OneEntry(s, term, e)).notes == [];
  }

  lemma Take(r: Rules, c: Cluster, s: ServerId, v: ServerId, term: Term, e: Entry) returns (d: Cluster)
    requires v < |c.servers| && Behind(c.servers[v], term, e) && AppendCall(v, OneEntry(s, term, e)) in c.net
    ensures Leads(r, c, d) && d.servers == c.servers[v := Took(c.servers[v], e)]
    ensures AppendAnswer(v, OneEntry(s, term, e), Reply(term, true)) in d.net
  {
    var deliver := DeliverAppend(v, OneEntry(s, term, e), true);
    BehindTakes(|c.servers|, c.servers[v], s, v, term, e);
    LeadsOne(r, c, deliver);
    d := Step(c, deliver);
  }

  /** A leader that has committed and applied its one entry. */
  ghost predicate Committed(x: Server, y: Server, e: Entry) {
    y.role == Leader && y.gate == x.gate && y.st == x.st.(commitIdx := 1, lastApplied := 1, applied := [e])
  }

  lemma HolderCounts(n: nat, x: Server, s: ServerId, v: ServerId, e: Entry, m: nat)
    requires s < v < n && Holds(n, x, e, v, m)
    ensures var answer := Reply(x.st.currentTerm, true);
            var y := After(n, x, AppendAnswered(s, v, OneEntry(s, x.st.currentTerm, e), answer));
            && (m + 1 > n / 2 ==> Committed(x, y, e))
            && (m + 1 <= n / 2 ==> Holds(n, y, e, v + 1, m + 1) && y.st == x.st && y.gate == x.gate)
    ensures forall back: nat | x.st.currentTerm <= e.term + back :: CommitsWithin(n, back, x.st, x.progress, v)
  {
    var r := CountLoop(n, [1, m], 0, 1);
    assert r.0 == [1, m + 1];
    assert x.st.entries[1..2] == [e];
  }

  lemma Confirm(r: Rules, c: Cluster, s: ServerId, v: ServerId, e: Entry, m: nat) returns (d: Cluster)
    requires s < v < |c.servers| && Holds(|c.servers|, c.servers[s], e, v, m)
    requires c.servers[s].st.currentTerm <= e.term + r.back
    requires var term := c.servers[s].st.currentTerm;
             AppendAnswer(v, OneEntry(s, term, e), Reply(term, true)) in c.net
    ensures Leads(r, c, d) && d.servers == c.servers[s := d.servers[s]]
    ensures var x, y, n := c.servers[s], d.servers[s], |c.servers|;
            && (m + 1 > n / 2 ==> Committed(x, y, e))
            && (m + 1 <= n / 2 ==> Holds(n, y, e, v + 1, m + 1) && y.st == x.st && y.gate == x.gate)
  {
    var term := c.servers[s].st.currentTerm;
    HolderCounts(|c.servers|, c.servers[s], s, v, e, m);
    var answered := AppendAnswered(s, v, OneEntry(s, term, e), Reply(term, true));
    LeadsOne(r, c, answered);
    d := Step(c, answered);
  }

  /** One round: the leader sends its one entry to server v, which takes it and answers. */
  lemma Round(r: Rules, c: Cluster, s: ServerId, v: ServerId, e: Entry, m: nat) returns (d: Cluster)
    requires s < v < |c.servers| && Holds(|c.servers|, c.servers[s], e, v, m)
    requires Behind(c.servers[v], c.servers[s].st.currentTerm, e)
    requires c.servers[s].st.currentTerm <= e.term + r.back
    ensures Leads(r, c, d) && d.servers == c.servers[s := d.servers[s]][v := Took(c.servers[v], e)]
    ensures var x, y, n := c.servers[s], d.servers[s], |c.servers|;
            && (m + 1 > n / 2 ==> Committed(x, y, e))
            && (m + 1 <= n / 2 ==> Holds(n, y, e, v + 1, m + 1) && y.st == x.st && y.gate == x.gate)
  {
    var a := Dispatch(r, c, s, v, e, m);
    var b := Take(r, a, s, v, c.servers[s].st.currentTerm, e);
    assert b.servers[s] == c.servers[s];
    d := Confirm(r, b, s, v, e, m);
    LeadsTrans(r, c, a, b);
    LeadsTrans(r, c, b, d);
  }

  /** The leader goes on with servers k, k + 1, ... until it may commit. */
  lemma Replicate(r: Rules, c: Cluster, s: ServerId, k: ServerId, e: Entry) returns (d: Cluster)
    requires 3 <= |c.servers| && s < 2 <= k && Holds(|c.servers|, c.servers[s], e, k, k - 1) && k - 1 <= |c.servers| / 2
    requires c.servers[s].st.currentTerm <= e.term + r.back
    requires forall v | k <= v < |c.servers| :: Behind(c.servers[v], c.servers[s].st.currentTerm, e)
    ensures Leads(r, c, d) && Committed(c.servers[s], d.servers[s], e)
    ensures forall v | 0 <= v < k && v != s :: d.servers[v] == c.servers[v]
    ensures forall v | k <= v < |c.servers| :: d.servers[v] == c.servers[v] || d.servers[v] == Took(c.servers[v], e)
    decreases |c.servers| - k
  {
    d := Round(r, c, s, k, e, k - 1);
    if k <= |c.servers| / 2 {
      var b := d;
      d := Replicate(r, b, s, k + 1, e);
      LeadsTrans(r, c, b, d);
    }
  }

  lemma FreshHolds(n: nat, s: ServerId, term: Term, e: Entry)
    ensures Holds(n, LeaderAt(n, s, term, [SENTINEL, e]), e, 2, 1)
  {
  }

  /** A server from 2 on during the run: it follows, and has at most A in its log. */
  ghost predicate Plain(x: Server, term: Term) {
    && x.role == Follower && x.st.currentTerm == term && GateOk(x)
    && x.st.commitIdx == 0 && x.st.lastApplied == 0
    && (x.st.entries == [SENTINEL] || x.st.entries == [SENTINEL, A])
  }

  ghost predicate AllPlain(c: Cluster, k: ServerId, term: Term) {
    forall v | k <= v < |c.servers| :: Plain(c.servers[v], term)
  }

  lemma PlainVotes(x: Server, call: VoteRequest)
    requires Plain(x.(role := Follower), x.st.currentTerm) && GateOk(x) && (x.role == Follower || x.role == Candidate)
    requires x.st.currentTerm < call.term
    requires UpToDate(x.st.entries, call.lastLogIdx, call.lastLogTerm)
    ensures Votes(x, call) && Plain(VotedServer(x, call), call.term)
    ensures VotedServer(x, call).st.entries == x.st.entries
  {
  }

  const CALL_1 := VoteRequest(1, 0, 0, 0)
  const CALL_2 := VoteRequest(2, 1, 0, 0)
  const CALL_3 := VoteRequest(3, 2, 0, 0)

  lemma FirstElected(r: Rules, n: nat) returns (d: Cluster)
    requires 3 <= n
    ensures Leads(r, Init(n), d) && VoteCall(1, CALL_1) in d.net
    ensures d.servers[0] == LeaderAt(n, 0, 1, [SENTINEL]) && d.servers[1] == BOOTED
    ensures forall v | 2 <= v < n :: d.servers[v] == FollowerAt(1, Some(0), [SENTINEL], 0)
  {
    var a := StartFrom(r, Init(n), 0);
    assert CallOf(0, a.servers[0]) == CALL_1;
    d := Elect(r, a, 0);
    LeadsTrans(r, Init(n), a, d);
  }

  /** Server 0 leads term 1 and logs A. */
  lemma FirstLeader(r: Rules, n: nat) returns (d: Cluster)
    requires 3 <= n
    ensures Leads(r, Init(n), d) && VoteCall(1, CALL_1) in d.net
    ensures d.servers[0] == LeaderAt(n, 0, 1, [SENTINEL, A]) && d.servers[1] == BOOTED
    ensures forall v | 2 <= v < n :: d.servers[v] == FollowerAt(1, Some(0), [SENTINEL], 0)
  {
    var b := FirstElected(r, n);
    d := Add(r, b, 0, A);
    LeadsTrans(r, Init(n), b, d);
  }

  /** Server 1 then leads term 2 and logs B. Nothing is replicated. */
  lemma SecondLeader(r: Rules, c: Cluster, n: nat) returns (d: Cluster)
    requires 3 <= n == |c.servers| && VoteCall(1, CALL_1) in c.net
    requires c.servers[0] == LeaderAt(n, 0, 1, [SENTINEL, A]) && c.servers[1] == BOOTED
    requires forall v | 2 <= v < n :: c.servers[v] == FollowerAt(1, Some(0), [SENTINEL], 0)
    ensures Leads(r, c, d) && VoteCall(0, CALL_2) in d.net
    ensures d.servers[0] == c.servers[0] && d.servers[1] == LeaderAt(n, 1, 2, [SENTINEL, B])
    ensures forall v | 2 <= v < n :: d.servers[v] == FollowerAt(2, Some(1), [SENTINEL], 0)
  {
    var a := Hear(r, c, 1, CALL_1);
    assert a.servers[1] == FollowerAt(1, Some(0), [SENTINEL], 0);
    assert CallOf(1, a.servers[1]) == CALL_2;
    var b := Elect(r, a, 1);
    assert b.servers[1] == LeaderAt(n, 1, 2, [SENTINEL]);
    d := Add(r, b, 1, B);
    LeadsTrans(r, c, a, b);
    LeadsTrans(r, c, b, d);
  }

  lemma TwoLeaders(r: Rules, n: nat) returns (d: Cluster)
    requires 3 <= n
    ensures Leads(r, Init(n), d) && VoteCall(0, CALL_2) in d.net
    ensures d.servers[0] == LeaderAt(n, 0, 1, [SENTINEL, A]) && d.servers[1] == LeaderAt(n, 1, 2, [SENTINEL, B])
    ensures forall v | 2 <= v < n :: d.servers[v] == FollowerAt(2, Some(1), [SENTINEL], 0)
  {
    var a := FirstLeader(r, n);
    d := SecondLeader(r, a, n);
    LeadsTrans(r, Init(n), a, d);
  }

  /** A server from 2 on that has nothing yet. */
  ghost predicate Blank(x: Server, term: Term) {
    && (x.role == Follower || x.role == Candidate) && x.st.currentTerm <= term && GateOk(x)
    && x.st.commitIdx == 0 && x.st.lastApplied == 0 && x.st.entries == [SENTINEL]
  }

  /** Server 0 comes back as leader of the next term, with its entry of term 1. */
  lemma FirstReturns(r: Rules, c: Cluster, n: nat, term: Term, gate: Term) returns (d: Cluster)
    requires 3 <= n == |c.servers| && gate < term
    requires c.servers[0] == FollowerAt(term, None, [SENTINEL, A], gate)
    requires forall v | 2 <= v < n :: Blank(c.servers[v], term)
    ensures Leads(r, c, d) && VoteCall(1, VoteRequest(term + 1, 0, 1, 1)) in d.net
    ensures d.servers[0] == LeaderAt(n, 0, term + 1, [SENTINEL, A]) && d.servers[1] == c.servers[1]
    ensures AllPlain(d, 2, term + 1) && forall v | 2 <= v < n :: d.servers[v].st.entries == [SENTINEL]
  {
    var call := VoteRequest(term + 1, 0, 1, 1);
    assert CallOf(0, c.servers[0]) == call;
    forall v | 2 <= v < n
      ensures Votes(c.servers[v], call) && Plain(VotedServer(c.servers[v], call), term + 1)
      ensures VotedServer(c.servers[v], call).st.entries == [SENTINEL]
    {
      PlainVotes(c.servers[v], call);
    }
    d := Elect(r, c, 0);
  }

  /** Server 0 commits A, an entry of term 1, in a later term. */
  lemma FirstCommits(r: Rules, c: Cluster, n: nat, term: Term) returns (d: Cluster)
    requires 3 <= n == |c.servers| && c.servers[0] == LeaderAt(n, 0, term, [SENTINEL, A]) && 1 < term <= 1 + r.back
    requires AllPlain(c, 2, term) && forall v | 2 <= v < n :: c.servers[v].st.entries == [SENTINEL]
    ensures Leads(r, c, d) && d.servers[0].st.applied == [A] && d.servers[1] == c.servers[1]
    ensures AllPlain(d, 2, term)
  {
    FreshHolds(n, 0, term, A);
    d := Replicate(r, c, 0, 2, A);
  }

  /** Server 1 still gets elected, in the next term, and commits B. */
  lemma SecondCommits(r: Rules, c: Cluster, n: nat, term: Term, gate: Term) returns (d: Cluster)
    requires 3 <= n == |c.servers| && gate < term && 2 <= term < 2 + r.back && AllPlain(c, 2, term)
    requires c.servers[1] == FollowerAt(term, None, [SENTINEL, B], gate)
    ensures Leads(r, c, d) && d.servers[1].st.applied == [B] && d.servers[0] == c.servers[0]
  {
    var call := CallOf(1, c.servers[1]);
    assert call == VoteRequest(term + 1, 1, 1, 2);
    forall v | 2 <= v < n
      ensures Votes(c.servers[v], call) && Plain(VotedServer(c.servers[v], call), term + 1)
    {
      PlainVotes(c.servers[v], call);
    }
    var a := Elect(r, c, 1);
    assert a.servers[1] == LeaderAt(n, 1, term + 1, [SENTINEL, B]);
    FreshHolds(n, 1, term + 1, B);
    d := Replicate(r, a, 1, 2, B);
    LeadsTrans(r, c, a, d);
  }

  /** A leader stops, starts again, and hears a candidate it does not vote for: it is a follower of that
      candidate's term, and its gate still stands at its own. */
  lemma RestartAndHear(r: Rules, c: Cluster, s: ServerId, term: Term, e: Entry, call: VoteRequest)
    returns (d: Cluster)
    requires r.stops && s < |c.servers| && c.servers[s] == LeaderAt(|c.servers|, s, term, [SENTINEL, e])
    requires VoteCall(s, call) in c.net && term < call.term
    requires !UpToDate([SENTINEL, e], call.lastLogIdx, call.lastLogTerm)
    ensures Leads(r, c, d) && d.servers == c.servers[s := FollowerAt(call.term, None, [SENTINEL, e], term)]
  {
    LeadsOne(r, c, Stop(s));
    var a := Step(c, Stop(s));
    LeadsOne(r, a, Start(s));
    var b := Step(a, Start(s));
    assert b.servers[s] == FollowerAt(term, Some(s), [SENTINEL, e], term);
    d := Hear(r, b, s, call);
    LeadsTrans(r, c, a, b);
    LeadsTrans(r, c, b, d);
  }

  /** With a restart of either leader: server 0 commits A in term 3, server 1 commits B in term 4. */
  lemma DivergesTwoBack(n: nat) returns (d: Cluster)
    requires 3 <= n
    ensures Leads(Rules(2, true), Init(n), d)
    ensures d.servers[0].st.applied == [A] && d.servers[1].st.applied == [B]
  {
    var r := Rules(2, true);
    var a := TwoLeaders(r, n);
    var b := RestartAndHear(r, a, 0, 1, A, CALL_2);
    LeadsTrans(r, Init(n), a, b);
    var c := FirstReturns(r, b, n, 2, 1);
    LeadsTrans(r, Init(n), b, c);
    d := SecondAfterFirst(r, c, n);
    LeadsTrans(r, Init(n), c, d);
  }

  lemma SecondAfterFirst(r: Rules, c: Cluster, n: nat) returns (d: Cluster)
    requires 3 <= n == |c.servers| && r.stops && 2 <= r.back && VoteCall(1, VoteRequest(3, 0, 1, 1)) in c.net
    requires c.servers[0] == LeaderAt(n, 0, 3, [SENTINEL, A]) && c.servers[1] == LeaderAt(n, 1, 2, [SENTINEL, B])
    requires AllPlain(c, 2, 3) && forall v | 2 <= v < n :: c.servers[v].st.entries == [SENTINEL]
    ensures Leads(r, c, d) && d.servers[0].st.applied == [A] && d.servers[1].st.applied == [B]
  {
    var a := FirstCommits(r, c, n, 3);
    var b := RestartAndHear(r, a, 1, 2, B, VoteRequest(3, 0, 1, 1));
    LeadsTrans(r, c, a, b);
    d := SecondCommits(r, b, n, 3, 2);
    LeadsTrans(r, c, b, d);
  }

  /** Two later vote calls carry server 0 past its gate. */
  lemma FirstWakes(r: Rules, c: Cluster, n: nat) returns (d: Cluster)
    requires 3 <= n == |c.servers| && VoteCall(0, CALL_2) in c.net
    requires c.servers[0] == LeaderAt(n, 0, 1, [SENTINEL, A])
    requires forall v | 2 <= v < n :: c.servers[v] == FollowerAt(2, Some(1), [SENTINEL], 0)
    ensures Leads(r, c, d) && VoteCall(1, CALL_3) in d.net
    ensures d.servers[0] == FollowerAt(3, None, [SENTINEL, A], 2) && d.servers[1] == c.servers[1]
    ensures forall v | 2 <= v < n :: Blank(d.servers[v], 3)
  {
    var a := Hear(r, c, 0, CALL_2);
    assert a.servers[0] == FollowerAt(2, None, [SENTINEL, A], 2);
    assert CallOf(2, a.servers[2]) == CALL_3;
    var b := Stand(r, a, 2);
    d := Hear(r, b, 0, CALL_3);
    LeadsTrans(r, c, a, b);
    LeadsTrans(r, c, b, d);
  }

  /** The two calls server 1 missed carry it past its gate, too. */
  lemma SecondWakes(r: Rules, c: Cluster, n: nat) returns (d: Cluster)
    requires 3 <= n == |c.servers| && VoteCall(1, CALL_3) in c.net && VoteCall(1, VoteRequest(4, 0, 1, 1)) in c.net
    requires c.servers[1] == LeaderAt(n, 1, 2, [SENTINEL, B])
    ensures Leads(r, c, d) && d.servers == c.servers[1 := FollowerAt(4, None, [SENTINEL, B], 3)]
  {
    var a := Hear(r, c, 1, CALL_3);
    assert a.servers[1] == FollowerAt(3, None, [SENTINEL, B], 3);
    d := Hear(r, a, 1, VoteRequest(4, 0, 1, 1));
    LeadsTrans(r, c, a, d);
  }

  lemma FirstTermFour(r: Rules, n: nat) returns (d: Cluster)
    requires 3 <= n
    ensures Leads(r, Init(n), d) && VoteCall(1, CALL_3) in d.net && VoteCall(1, VoteRequest(4, 0, 1, 1)) in d.net
    ensures d.servers[0] == LeaderAt(n, 0, 4, [SENTINEL, A]) && d.servers[1] == LeaderAt(n, 1, 2, [SENTINEL, B])
    ensures AllPlain(d, 2, 4) && forall v | 2 <= v < n :: d.servers[v].st.entries == [SENTINEL]
  {
    var a := TwoLeaders(r, n);
    var b := FirstWakes(r, a, n);
    LeadsTrans(r, Init(n), a, b);
    d := FirstReturns(r, b, n, 3, 2);
    LeadsTrans(r, Init(n), b, d);
  }

  /** Without any stop: server 0 commits A in term 4, server 1 commits B in term 5. */
  lemma DivergesThreeBack(n: nat) returns (d: Cluster)
    requires 3 <= n
    ensures Leads(Rules(3, false), Init(n), d)
    ensures d.servers[0].st.applied == [A] && d.servers[1].st.applied == [B]
  {
    var r := Rules(3, false);
    var a := FirstTermFour(r, n);
    var b := FirstCommits(r, a, n, 4);
    LeadsTrans(r, Init(n), a, b);
    var c := SecondWakes(r, b, n);
    LeadsTrans(r, Init(n), b, c);
    d := SecondCommits(r, c, n, 4, 3);
    LeadsTrans(r, Init(n), c, d);
  }

  /** A run with exact counts whose commits lie at most `back` terms back. */
  ghost predicate ExactWithin(back: nat, n: nat, cs: seq<Cluster>, es: seq<Event>) {
    ExactRun(n, cs, es) && forall k | 0 <= k < |es| :: CommitsRecent(back, cs[k], es[k])
  }

  /** A run whose commits are held by a majority and lie at most `back` terms back. */
  ghost predicate HeldWithin(back: nat, n: nat, cs: seq<Cluster>, es: seq<Event>) {
    && Run(n, cs, es)
    && forall k | 0 <= k < |es| :: CommitsOnMajority(cs[k], es[k]) && CommitsRecent(back, cs[k], es[k])
  }

  /** What servers applied never diverges. */
  ghost predicate Agrees(cs: seq<Cluster>) {
    forall i, j, a, b | 0 <= i < |cs| && 0 <= j < |cs| && 0 <= a < |cs[i].servers| && 0 <= b < |cs[j].servers| ::
      cs[i].servers[a].st.applied <= cs[j].servers[b].st.applied
      || cs[j].servers[b].st.applied <= cs[i].servers[a].st.applied
  }

  lemma Differ(cs: seq<Cluster>, k: nat)
    requires k < |cs| && 2 <= |cs[k].servers|
    requires cs[k].servers[0].st.applied == [A] && cs[k].servers[1].st.applied == [B]
    ensures !Agrees(cs)
  {
    var x, y := cs[k].servers[0].st.applied, cs[k].servers[1].st.applied;
    assert x[0] != y[0];
    assert !(x <= y || y <= x);
  }

  /** With three servers or more, two of them can apply different entries although every count is exact and no
      commit lies more than two terms back: the commit of older entries breaks State Machine Safety. */
  lemma OldTermCommitDiverges(n: nat) returns (cs: seq<Cluster>, es: seq<Event>)
    requires 3 <= n
    ensures ExactWithin(2, n, cs, es) && !Agrees(cs)
  {
    var d := DivergesTwoBack(n);
    cs, es := LeadsRun(Rules(2, true), n, d);
    Differ(cs, |es|);
  }

  /** It takes one term more if no server is ever stopped. */
  lemma UnstoppedDiverges(n: nat) returns (cs: seq<Cluster>, es: seq<Event>)
    requires 3 <= n
    ensures ExactWithin(3, n, cs, es) && !Agrees(cs) && forall k | 0 <= k < |es| :: !es[k].Stop?
  {
    var d := DivergesThreeBack(n);
    cs, es := LeadsRun(Rules(3, false), n, d);
    Differ(cs, |es|);
  }

  lemma HeldIsGuarded(back: nat, n: nat, cs: seq<Cluster>, es: seq<Event>)
    requires HeldWithin(back, n, cs, es) && (n <= 2 || back <= 1)
    ensures GuardedRun(n, cs, es)
  {
    forall k | 0 <= k < |es| ensures Guarded(cs[k], es[k]) {
      SameServers(n, cs, es, k);
      assert Enabled(cs[k], es[k]) && CommitsOnMajority(cs[k], es[k]) && CommitsRecent(back, cs[k], es[k]);
    }
  }

  lemma GuardedAgrees(n: nat, cs: seq<Cluster>, es: seq<Event>)
    requires GuardedRun(n, cs, es)
    ensures Agrees(cs)
  {
    forall i, j, a, b | 0 <= i < |cs| && 0 <= j < |cs| && 0 <= a < |cs[i].servers| && 0 <= b < |cs[j].servers|
      ensures cs[i].servers[a].st.applied <= cs[j].servers[b].st.applied
           || cs[j].servers[b].st.applied <= cs[i].servers[a].st.applied
    {
      StateMachineSafety(n, cs, es, i, j, a, b);
    }
  }

  lemma ExactIsHeld(back: nat, n: nat, cs: seq<Cluster>, es: seq<Event>)
    requires ExactWithin(back, n, cs, es)
    ensures HeldWithin(back, n, cs, es)
  {
    forall k | 0 <= k < |es| ensures CommitsOnMajority(cs[k], es[k]) && CommitsRecent(back, cs[k], es[k]) {
      ExactCommitsHeld(n, cs, es, k);
    }
  }

  /** How far back a commit may reach: State Machine Safety holds of all runs whose commits are held by a
      majority and lie at most `back` terms back if and only if there are at most two servers or `back` is at
      most one. Exact counts change nothing about it. */
  lemma OldTermsSafeIff(n: nat, back: nat)
    ensures (forall cs, es | HeldWithin(back, n, cs, es) :: Agrees(cs)) <==> n <= 2 || back <= 1
    ensures (forall cs, es | ExactWithin(back, n, cs, es) :: Agrees(cs)) <==> n <= 2 || back <= 1
  {
    if n <= 2 || back <= 1 {
      forall cs, es | HeldWithin(back, n, cs, es) ensures Agrees(cs) {
        HeldIsGuarded(back, n, cs, es);
        GuardedAgrees(n, cs, es);
      }
      forall cs, es | ExactWithin(back, n, cs, es) ensures Agrees(cs) {
        ExactIsHeld(back, n, cs, es);
      }
    } else {
      var cs, es := OldTermCommitDiverges(n);
      MoreIsAllowed(2, back, n, cs, es);
      ExactIsHeld(back, n, cs, es);
    }
  }

  lemma MoreIsAllowed(back: nat, more: nat, n: nat, cs: seq<Cluster>, es: seq<Event>)
    requires ExactWithin(back, n, cs, es) && back <= more
    ensures ExactWithin(more, n, cs, es)
  {
    forall k | 0 <= k < |es| ensures CommitsRecent(more, cs[k], es[k]) {
      assert Enabled(cs[k], es[k]) && CommitsRecent(back, cs[k], es[k]);
    }
  }

  /** The guarantees are not empty: every cluster of three servers or more has a guarded run in which a leader
      commits and applies an entry that a majority stores. */
  lemma GuardedRunCommits(n: nat) returns (cs: seq<Cluster>, es: seq<Event>)
    requires 3 <= n
    ensures GuardedRun(n, cs, es) && |cs[|es|].servers| == n
    ensures cs[|es|].servers[0].st.commitIdx == 1 && cs[|es|].servers[0].st.applied == [A]
  {
    var r := Rules(0, false);
    var a := FirstLeader(r, n);
    FreshHolds(n, 0, 1, A);
    var d := Replicate(r, a, 0, 2, A);
    LeadsTrans(r, Init(n), a, d);
    cs, es := LeadsRun(r, n, d);
    ExactIsHeld(0, n, cs, es);
    HeldIsGuarded(0, n, cs, es);
  }
}
