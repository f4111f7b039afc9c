/** The price of one transition per term (src/raft/service/IdentityTransformer.cpp): a server that stepped down
    into a term ignores every election timeout of that term, and a cluster of such servers never elects again. */
module Standstill {
  import opened RaftDefs
  import opened LeaderState
  import opened Cluster
  import opened History
  import opened Invariant
  import opened Steps
  import opened Runs
  import opened Safety
  import opened Paths

  /** An election timeout that opens a candidacy. */
  predicate Stands(c: Cluster, e: Event) {
    e.Timeout? && Enabled(c, e) && Accepts(c.servers[e.s].gate, c.servers[e.s].st.currentTerm)
  }

  /** What can follow while no server is started again. */
  ghost predicate Continues(cs: seq<Cluster>, es: seq<Event>) {
    && |cs| == |es| + 1
    && forall k | 0 <= k < |es| :: Enabled(cs[k], es[k]) && !es[k].Start? && cs[k + 1] == Step(cs[k], es[k])
  }

  ghost predicate StandsAt(c: Cluster, cs: seq<Cluster>, es: seq<Event>, k: nat) {
    Continues(cs, es) && cs[0] == c && k < |es| && Stands(cs[k], es[k])
  }

  ghost predicate CanStandAgain(c: Cluster) {
    exists cs: seq<Cluster>, es: seq<Event>, k: nat :: StandsAt(c, cs, es, k)
  }

  /** Not a candidate, and its gate has reached its term. */
  predicate Closed(x: Server) {
    x.role == Down || ((x.role == Follower || x.role == Leader) && 0 < x.gate == x.st.currentTerm)
  }

  /** A call in flight that would not carry the server it is addressed to into a new term. */
  predicate CallBelow(srv: seq<Server>, p: Packet) {
    match p
    case VoteCall(to, m) => to < |srv| && srv[to].role != Down ==> m.term <= srv[to].st.currentTerm
    case AppendCall(to, m) => to < |srv| && srv[to].role != Down ==> m.term <= srv[to].st.currentTerm
    case _ => true
  }

  /** Every server is closed, and so it stays: no call in flight, and none a leader can still send, carries a
      greater term. */
  ghost predicate Still(c: Cluster) {
    && (forall s | 0 <= s < |c.servers| :: Closed(c.servers[s]))
    && (forall p | p in c.net :: CallBelow(c.servers, p))
    && forall s, f | 0 <= s < |c.servers| && 0 <= f < |c.servers| && c.servers[s].role == Leader
                     && c.servers[f].role != Down :: c.servers[s].st.currentTerm <= c.servers[f].st.currentTerm
  }

  /** What becomes of a closed server: a leader may step down into a greater term, every other term stays. */
  predicate Tame(x: Server, y: Server) {
    && Closed(y) && x.st.currentTerm <= y.st.currentTerm
    && (x.role == Down ==> y.role == Down)
    && (y.role == Leader || x.role != Leader ==> y.st.currentTerm == x.st.currentTerm)
    && (y.role == Leader ==> x.role == Leader)
  }

  lemma CallTames(n: nat, x: Server, e: Event)
    requires Closed(x) && |x.st.entries| > 0 && x.role != Down
    requires e.DeliverVote? || e.DeliverAppend?
    requires if e.DeliverVote? then e.vote.term <= x.st.currentTerm else e.append.term <= x.st.currentTerm
    ensures Tame(x, After(n, x, e))
  {
    if e.DeliverVote? { VoteShape(n, x, e); } else { AppendShape(n, x, e); }
  }

  lemma AnswerTames(n: nat, x: Server, e: Event)
    requires Closed(x) && x.role == Leader && |x.st.entries| > 0 && e.AppendAnswered?
    requires e.from < |x.progress.nextIdx| && e.from < |x.progress.matchIdx| && 1 <= x.progress.nextIdx[e.from]
    ensures Tame(x, After(n, x, e))
  {
    if !e.rep.ok {
      var r := OnFailure(x.st, x.progress, e.from, e.rep.term);
      NotifyOne(n, x.(st := r.0, progress := r.1), e.rep.term);
    }
  }

  lemma EventTames(c: Cluster, e: Event)
    requires Still(c) && Enabled(c, e) && !e.Start?
    ensures Tame(c.servers[e.s], After(|c.servers|, c.servers[e.s], e))
  {
    var n, x := |c.servers|, c.servers[e.s];
    assert Closed(x);
    match e
    case DeliverVote(s, vote, _) =>
      assert CallBelow(c.servers, VoteCall(s, vote));
      CallTames(n, x, e);
    case DeliverAppend(s, append, _) =>
      assert CallBelow(c.servers, AppendCall(s, append));
      CallTames(n, x, e);
    case AppendAnswered(_, _, _, _) => AnswerTames(n, x, e);
    case _ =>
  }

  lemma SentBelow(c: Cluster, e: Event, p: Packet)
    requires Still(c) && Enabled(c, e) && !e.Start? && p in Sent(|c.servers|, c.servers[e.s], e)
    ensures CallBelow(c.servers, p)
  {
    assert Closed(c.servers[e.s]);
  }

  lemma BelowStays(srv: seq<Server>, srv': seq<Server>, p: Packet)
    requires |srv'| == |srv| && CallBelow(srv, p) && forall s | 0 <= s < |srv| :: Tame(srv[s], srv'[s])
    ensures CallBelow(srv', p)
  {
    if (p.VoteCall? || p.AppendCall?) && p.to < |srv| { assert Tame(srv[p.to], srv'[p.to]); }
  }

  lemma StillStep(c: Cluster, e: Event)
    requires Still(c) && Enabled(c, e) && !e.Start?
    ensures Still(Step(c, e)) && forall s | 0 <= s < |c.servers| :: Tame(c.servers[s], Step(c, e).servers[s])
  {
    var d := Step(c, e);
    EventTames(c, e);
    forall s | 0 <= s < |c.servers| ensures Closed(d.servers[s]) && Tame(c.servers[s], d.servers[s]) {
      assert Closed(c.servers[s]);
    }
    forall p | p in d.net ensures CallBelow(d.servers, p) {
      if p !in c.net { SentBelow(c, e, p); }
      BelowStays(c.servers, d.servers, p);
    }
    forall s, f | 0 <= s < |d.servers| && 0 <= f < |d.servers| && d.servers[s].role == Leader
                  && d.servers[f].role != Down
      ensures d.servers[s].st.currentTerm <= d.servers[f].st.currentTerm
    {
      assert Tame(c.servers[s], d.servers[s]) && Tame(c.servers[f], d.servers[f]);
    }
  }

  lemma TameTwice(x: Server, y: Server, z: Server)
    requires Tame(x, y) && Tame(y, z) && Closed(x)
    ensures Tame(x, z)
  {
  }

  /** Once all are closed they stay so, whatever the network and the clients do: nobody becomes a candidate or a
      leader, and only a leader that steps down changes its term. */
  lemma {:induction false} StaysStill(cs: seq<Cluster>, es: seq<Event>, k: nat, a: ServerId)
    requires Continues(cs, es) && Still(cs[0]) && k < |cs| && a < |cs[0].servers|
    ensures Still(cs[k]) && |cs[k].servers| == |cs[0].servers| && Tame(cs[0].servers[a], cs[k].servers[a])
  {
    if k == 0 {
      assert Closed(cs[0].servers[a]);
    } else {
      StaysStill(cs, es, k - 1, a);
      assert Enabled(cs[k - 1], es[k - 1]) && !es[k - 1].Start? && cs[k - 1 + 1] == Step(cs[k - 1], es[k - 1]);
      StillStep(cs[k - 1], es[k - 1]);
      assert Closed(cs[0].servers[a]);
      TameTwice(cs[0].servers[a], cs[k - 1].servers[a], cs[k].servers[a]);
    }
  }

  lemma StillNeverStands(c: Cluster)
    requires Still(c)
    ensures !CanStandAgain(c)
  {
    forall cs: seq<Cluster>, es: seq<Event>, k: nat | StandsAt(c, cs, es, k) ensures false {
      StaysStill(cs, es, k, 0);
    }
  }

  /** The gate lets a timeout through. */
  predicate Open(x: Server) {
    (x.role == Follower || x.role == Candidate) && Accepts(x.gate, x.st.currentTerm)
  }

  lemma TimeoutStands(c: Cluster, s: ServerId)
    requires s < |c.servers| && |c.servers[s].st.entries| > 0 && Open(c.servers[s])
    ensures CanStandAgain(c)
  {
    assert StandsAt(c, [c, Step(c, Timeout(s))], [Timeout(s)], 0);
  }

  lemma ContinuesBefore(c: Cluster, e: Event, cs: seq<Cluster>, es: seq<Event>)
    requires Enabled(c, e) && !e.Start? && Continues(cs, es) && cs[0] == Step(c, e)
    ensures Continues([c] + cs, [e] + es)
  {
    var cs', es' := [c] + cs, [e] + es;
    forall j | 0 <= j < |es'| ensures Enabled(cs'[j], es'[j]) && !es'[j].Start? && cs'[j + 1] == Step(cs'[j], es'[j]) {
      if j > 0 {
        assert es'[j] == es[j - 1] && cs'[j] == cs[j - 1] && cs'[j + 1] == cs[j - 1 + 1];
        assert Enabled(cs[j - 1], es[j - 1]);
      }
    }
  }

  lemma StepThenStands(c: Cluster, e: Event)
    requires Enabled(c, e) && !e.Start? && CanStandAgain(Step(c, e))
    ensures CanStandAgain(c)
  {
    var cs, es, k: nat :| StandsAt(Step(c, e), cs, es, k);
    ContinuesBefore(c, e, cs, es);
    assert ([e] + es)[k + 1] == es[k] && ([c] + cs)[k + 1] == cs[k];
    assert StandsAt(c, [c] + cs, [e] + es, k + 1);
  }

  /** A call of a greater term carries a follower past its gate. */
  lemma CallOpens(n: nat, x: Server, e: Event)
    requires GateOk(x) && x.role == Follower && |x.st.entries| > 0 && (e.DeliverVote? || e.DeliverAppend?)
    requires x.st.currentTerm < if e.DeliverVote? then e.vote.term else e.append.term
    ensures Open(After(n, x, e)) && |After(n, x, e).st.entries| > 0
  {
    if e.DeliverVote? { VoteShape(n, x, e); } else { AppendShape(n, x, e); }
  }

  lemma CallStands(c: Cluster, s: ServerId, e: Event)
    requires s < |c.servers| && GateOk(c.servers[s]) && c.servers[s].role == Follower && |c.servers[s].st.entries| > 0
    requires e.s == s && (e.DeliverVote? || e.DeliverAppend?) && Enabled(c, e)
    requires c.servers[s].st.currentTerm < if e.DeliverVote? then e.vote.term else e.append.term
    ensures CanStandAgain(c)
  {
    CallOpens(|c.servers|, c.servers[s], e);
    TimeoutStands(Step(c, e), s);
    StepThenStands(c, e);
  }

  /** What every run gives a server. */
  ghost predicate Plausible(x: Server) {
    GateOk(x) && |x.st.entries| > 0
  }

  lemma NotStillStands(c: Cluster)
    requires !Still(c) && forall s | 0 <= s < |c.servers| :: Plausible(c.servers[s]) && c.servers[s].role != Leader
    ensures CanStandAgain(c)
  {
    if s: ServerId :| s < |c.servers| && !Closed(c.servers[s]) {
      assert Plausible(c.servers[s]);
      TimeoutStands(c, s);
    } else {
      var p :| p in c.net && !CallBelow(c.servers, p);
      assert Closed(c.servers[p.to]) && Plausible(c.servers[p.to]);
      CallStands(c, p.to, if p.VoteCall? then DeliverVote(p.to, p.vote, true) else DeliverAppend(p.to, p.append, true));
    }
  }

  lemma AllPlausible(n: nat, cs: seq<Cluster>, es: seq<Event>, k: nat)
    requires Run(n, cs, es) && k < |cs|
    ensures forall s | 0 <= s < |cs[k].servers| :: Plausible(cs[k].servers[s])
  {
    var hs := RunHistories(n, cs, es, ANY);
    forall s | 0 <= s < |cs[k].servers| ensures Plausible(cs[k].servers[s]) {
      assert LocalOk(|cs[k].servers|, s, cs[k].servers[s], hs[k]) && ServerOk(s, cs[k].servers[s], hs[k]);
    }
  }

  /** At any moment of any run without a leader: unless a server is started again, nobody will ever stand for
      election, and so nobody will ever lead, if and only if every server that is up is a follower whose gate has
      reached its term, and no call in flight carries a greater term to it. */
  lemma StandstillIff(n: nat, cs: seq<Cluster>, es: seq<Event>, k: nat)
    requires Run(n, cs, es) && k < |cs|
    requires forall s | 0 <= s < |cs[k].servers| :: cs[k].servers[s].role != Leader
    ensures !CanStandAgain(cs[k]) <==> Still(cs[k])
  {
    AllPlausible(n, cs, es, k);
    if Still(cs[k]) { StillNeverStands(cs[k]); } else { NotStillStands(cs[k]); }
  }

  /** No call carries a term its sender has not reached. */
  lemma CallsBehind(n: nat, cs: seq<Cluster>, es: seq<Event>, k: nat, p: Packet)
    requires Run(n, cs, es) && k < |cs| && p in cs[k].net
    ensures p.VoteCall? ==>
              p.vote.candidateId < n == |cs[k].servers|
              && p.vote.term <= cs[k].servers[p.vote.candidateId].st.currentTerm
    ensures p.AppendCall? ==>
              p.append.leaderId < n == |cs[k].servers|
              && p.append.term <= cs[k].servers[p.append.leaderId].st.currentTerm
  {
    var hs := RunHistories(n, cs, es, ANY);
    SameServers(n, cs, es, k);
    assert Inv(cs[k], hs[k]) && PacketOk(n, hs[k], p);
  }

  /** All servers that are up are closed in one term, and no other has a greater one. */
  predicate ClosedAt(x: Server, term: Term) {
    Closed(x) && if x.role == Down then x.st.currentTerm <= term else x.st.currentTerm == term
  }

  /** Agreement on the term is enough, a leader included: when all servers that are up have reached one term and
      their gates with it, the leader of that term is the last one. */
  lemma OneTermIsStill(n: nat, cs: seq<Cluster>, es: seq<Event>, k: nat, term: Term)
    requires Run(n, cs, es) && k < |cs|
    requires forall s | 0 <= s < |cs[k].servers| :: ClosedAt(cs[k].servers[s], term)
    ensures Still(cs[k])
  {
    var srv := cs[k].servers;
    forall p | p in cs[k].net ensures CallBelow(srv, p) {
      CallsBehind(n, cs, es, k, p);
      assert p.VoteCall? ==> ClosedAt(srv[p.vote.candidateId], term);
      assert p.AppendCall? ==> ClosedAt(srv[p.append.leaderId], term);
      assert (p.VoteCall? || p.AppendCall?) && p.to < |srv| ==> ClosedAt(srv[p.to], term);
    }
    assert forall s | 0 <= s < |srv| :: ClosedAt(srv[s], term);
  }

  /** All servers from k on stand for election in term 1. */
  lemma StandFrom(r: Rules, c: Cluster, k: ServerId) returns (d: Cluster)
    requires 2 <= |c.servers| && k <= |c.servers| && forall v | k <= v < |c.servers| :: c.servers[v] == BOOTED
    ensures Leads(r, c, d) && forall v | 0 <= v < k :: d.servers[v] == c.servers[v]
    ensures forall v: ServerId | k <= v < |c.servers| :: d.servers[v] == Standing(v, BOOTED)
    ensures 0 < k < |c.servers| ==> VoteCall(0, VoteRequest(1, k, 0, 0)) in d.net
    decreases |c.servers| - k
  {
    if k == |c.servers| {
      d := c;
      LeadsSelf(r, c);
    } else {
      assert CallOf(k, c.servers[k]) == VoteRequest(1, k, 0, 0);
      var b := Stand(r, c, k);
      d := StandFrom(r, b, k + 1);
      LeadsTrans(r, c, b, d);
    }
  }

  const FIRST_CALL := VoteRequest(1, 1, 0, 0)
  const SECOND_CALL := VoteRequest(2, 0, 0, 0)

  /** Everybody but server 0 stands in term 1, and server 0 votes for server 1. */
  lemma OthersStand(r: Rules, n: nat) returns (d: Cluster)
    requires 3 <= n
    ensures Leads(r, Init(n), d) && d.servers[0] == FollowerAt(1, Some(1), [SENTINEL], 0)
    ensures forall v: ServerId | 1 <= v < n :: d.servers[v] == Standing(v, BOOTED)
  {
    var a := StartFrom(r, Init(n), 0);
    var b := StandFrom(r, a, 1);
    LeadsTrans(r, Init(n), a, b);
    d := Hear(r, b, 0, FIRST_CALL);
    LeadsTrans(r, Init(n), b, d);
  }

  /** Then server 0 stands in term 2. */
  lemma AllStand(r: Rules, n: nat) returns (d: Cluster)
    requires 3 <= n
    ensures Leads(r, Init(n), d) && d.servers[0] == Standing(0, FollowerAt(1, Some(1), [SENTINEL], 0))
    ensures forall v: ServerId | 1 <= v < n ::
              d.servers[v] == Standing(v, BOOTED) && VoteCall(v, SECOND_CALL) in d.net
  {
    var c := OthersStand(r, n);
    assert CallOf(0, c.servers[0]) == SECOND_CALL;
    d := Stand(r, c, 0);
    LeadsTrans(r, Init(n), c, d);
  }

  /** The candidates of term 1 step down into term 2 and elect server 0. */
  lemma AllVote(r: Rules, n: nat) returns (d: Cluster)
    requires 3 <= n
    ensures Leads(r, Init(n), d) && d.servers[0] == LeaderAt(n, 0, 2, [SENTINEL])
    ensures forall v | 1 <= v < n :: d.servers[v] == FollowerAt(2, Some(0), [SENTINEL], 2)
  {
    var a := AllStand(r, n);
    forall v: ServerId | 1 <= v < n
      ensures Votes(a.servers[v], SECOND_CALL)
      ensures VotedServer(a.servers[v], SECOND_CALL) == FollowerAt(2, Some(0), [SENTINEL], 2)
    {
      assert a.servers[v] == Standing(v, BOOTED);
    }
    var b := HearAll(r, a, 1, SECOND_CALL);
    LeadsTrans(r, Init(n), a, b);
    d := CountFrom(r, b, 0, 2, SECOND_CALL);
    LeadsTrans(r, Init(n), b, d);
  }

  /** It takes no failure to get there. Every cluster of three servers or more has a run, without a stop, that
      ends with all servers up, one of them leading and all others following; if that leader then stops, nobody
      will ever stand for election again, although all others are up. */
  lemma LastLeader(n: nat) returns (cs: seq<Cluster>, es: seq<Event>)
    requires 3 <= n
    ensures Run(n, cs, es) && (forall k | 0 <= k < |es| :: !es[k].Stop?) && |cs[|es|].servers| == n
    ensures cs[|es|].servers[0].role == Leader && forall v | 1 <= v < n :: cs[|es|].servers[v].role == Follower
    ensures Enabled(cs[|es|], Stop(0)) && !CanStandAgain(Step(cs[|es|], Stop(0)))
  {
    var d := AllVote(Rules(0, false), n);
    cs, es := LeadsRun(Rules(0, false), n, d);
    SameServers(n, cs, es, |es|);
    OneTermIsStill(n, cs, es, |es|, 2);
    StillStep(d, Stop(0));
    StillNeverStands(Step(d, Stop(0)));
  }
}
