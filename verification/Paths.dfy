/** Runs built step by step: servers start, stand for election, vote and are elected. */
module Paths {
  import opened RaftDefs
  import opened Handlers
  import opened LeaderState
  import opened Cluster
  import opened Invariant
  import opened Steps

  /** How many terms back the entry of a commit may lie, and whether a server may be stopped. */
  datatype Rules = Rules(back: nat, stops: bool)

  /** A step whose counts are exact and that keeps to the rules. */
  predicate Allowed(r: Rules, c: Cluster, e: Event) {
    Enabled(c, e) && CountsWholeLog(c, e) && CommitsRecent(r.back, c, e) && (e.Stop? ==> r.stops)
  }

  ghost predicate Via(r: Rules, c: Cluster, d: Cluster, cs: seq<Cluster>, es: seq<Event>) {
    && |cs| == |es| + 1 && cs[0] == c && cs[|es|] == d
    && forall k | 0 <= k < |es| :: Allowed(r, cs[k], es[k]) && cs[k + 1] == Step(cs[k], es[k])
  }

  ghost predicate Path(r: Rules, c: Cluster, d: Cluster) {
    exists cs: seq<Cluster>, es: seq<Event> :: Via(r, c, d, cs, es)
  }

  /** Allowed steps lead from c to d; packets are only added. */
  ghost predicate Leads(r: Rules, c: Cluster, d: Cluster) {
    Path(r, c, d) && c.net <= d.net && |d.servers| == |c.servers|
  }

  lemma LeadsSelf(r: Rules, c: Cluster)
    ensures Leads(r, c, c)
  {
    assert Via(r, c, c, [c], []);
  }

  lemma LeadsOne(r: Rules, c: Cluster, e: Event)
    requires Allowed(r, c, e)
    ensures Leads(r, c, Step(c, e))
  {
    assert Via(r, c, Step(c, e), [c, Step(c, e)], [e]);
  }

  lemma ViaJoin(r: Rules, a: Cluster, b: Cluster, c: Cluster,
                xs: seq<Cluster>, es: seq<Event>, ys: seq<Cluster>, fs: seq<Event>)
    requires Via(r, a, b, xs, es) && Via(r, b, c, ys, fs)
    ensures Via(r, a, c, xs + ys[1..], es + fs)
  {
    var cs, all := xs + ys[1..], es + fs;
    forall k | 0 <= k < |all|
      ensures Allowed(r, cs[k], all[k]) && cs[k + 1] == Step(cs[k], all[k])
    {
      if k < |es| {
        assert all[k] == es[k] && cs[k] == xs[k] && cs[k + 1] == xs[k + 1];
      } else {
        assert all[k] == fs[k - |es|] && cs[k] == ys[k - |es|] && cs[k + 1] == ys[k - |es| + 1];
      }
    }
  }

  lemma LeadsTrans(r: Rules, a: Cluster, b: Cluster, c: Cluster)
    requires Leads(r, a, b) && Leads(r, b, c)
    ensures Leads(r, a, c)
  {
    var xs: seq<Cluster>, es: seq<Event> :| Via(r, a, b, xs, es);
    var ys: seq<Cluster>, fs: seq<Event> :| Via(r, b, c, ys, fs);
    ViaJoin(r, a, b, c, xs, es, ys, fs);
  }

  /** What leads away from the beginning is a run. */
  lemma LeadsRun(r: Rules, n: nat, d: Cluster) returns (cs: seq<Cluster>, es: seq<Event>)
    requires Leads(r, Init(n), d)
    ensures ExactRun(n, cs, es) && cs[|es|] == d
    ensures forall k | 0 <= k < |es| :: CommitsRecent(r.back, cs[k], es[k]) && (es[k].Stop? ==> r.stops)
  {
    cs, es :| Via(r, Init(n), d, cs, es);
    assert forall k | 0 <= k < |es| :: Allowed(r, cs[k], es[k]);
  }

  function Fresh(term: Term, voted: Option<ServerId>, log: seq<Entry>): State {
    State(term, voted, log, 0, 0, [])
  }

  function FollowerAt(term: Term, voted: Option<ServerId>, log: seq<Entry>, gate: Term): Server {
    Server(Fresh(term, voted, log), Follower, gate, {}, NO_PROGRESS)
  }

  function LeaderAt(n: nat, s: ServerId, term: Term, log: seq<Entry>): Server {
    Server(Fresh(term, Some(s), log), Leader, term, {}, Reinit(n, |log|))
  }

  function ElectedServer(n: nat, s: ServerId, x: Server): Server {
    Become(x, Leader).(st := x.st.(currentTerm := x.st.currentTerm + 1, votedFor := Some(s)),
                       gate := x.st.currentTerm + 1, progress := Reinit(n, |x.st.entries|))
  }

  function VotedServer(x: Server, call: VoteRequest): Server {
    var z := StepDown(x, call.term, true);
    z.(st := z.st.(votedFor := Some(call.candidateId)))
  }

  predicate CanStand(x: Server) {
    x.role == Follower && Accepts(x.gate, x.st.currentTerm) && |x.st.entries| > 0
  }

  function CallOf(s: ServerId, x: Server): VoteRequest
    requires |x.st.entries| > 0
  {
    VoteCallOf(s, Standing(s, x).st)
  }

  /** An election timer fires. */
  lemma Stand(r: Rules, c: Cluster, s: ServerId) returns (d: Cluster)
    requires 2 <= |c.servers| && s < |c.servers| && CanStand(c.servers[s])
    ensures Leads(r, c, d) && d.servers == c.servers[s := Standing(s, c.servers[s])]
    ensures forall p: ServerId | p < |c.servers| && p != s :: VoteCall(p, CallOf(s, c.servers[s])) in d.net
  {
    d := Step(c, Timeout(s));
    LeadsOne(r, c, Timeout(s));
    assert forall p: ServerId | p < |c.servers| && p != s :: p in Others(|c.servers|, s);
  }

  /** A server a vote call of a higher term reaches. */
  ghost predicate Reached(x: Server, call: VoteRequest) {
    x.role != Down && |x.st.entries| > 0 && x.st.commitIdx <= x.st.lastApplied && GateOk(x)
    && x.st.currentTerm < call.term
  }

  /** It adopts the term, forgets its vote, and votes if the candidate is up to date. */
  lemma Hear(r: Rules, c: Cluster, v: ServerId, call: VoteRequest) returns (d: Cluster)
    requires v < |c.servers| && VoteCall(v, call) in c.net && Reached(c.servers[v], call)
    ensures var w := c.servers[v];
            var grants := UpToDate(w.st.entries, call.lastLogIdx, call.lastLogTerm);
            && Leads(r, c, d) && VoteAnswer(v, call, Reply(call.term, grants)) in d.net
            && d.servers == c.servers[v := if grants then VotedServer(w, call) else StepDown(w, call.term, true)]
  {
    var e := DeliverVote(v, call, true);
    LeadsOne(r, c, e);
    VoteShape(|c.servers|, c.servers[v], e);
    d := Step(c, e);
  }

  ghost predicate Votes(x: Server, call: VoteRequest) {
    Reached(x, call) && UpToDate(x.st.entries, call.lastLogIdx, call.lastLogTerm)
  }

  /** All servers from k on give their vote. */
  lemma HearAll(r: Rules, c: Cluster, k: ServerId, call: VoteRequest) returns (d: Cluster)
    requires k <= |c.servers|
    requires forall v: ServerId | k <= v < |c.servers| :: VoteCall(v, call) in c.net && Votes(c.servers[v], call)
    ensures Leads(r, c, d) && forall v | 0 <= v < k :: d.servers[v] == c.servers[v]
    ensures forall v: ServerId | k <= v < |c.servers| ::
              d.servers[v] == VotedServer(c.servers[v], call) && VoteAnswer(v, call, Reply(call.term, true)) in d.net
    decreases |c.servers| - k
  {
    if k == |c.servers| {
      d := c;
      LeadsSelf(r, c);
    } else {
      var b := Hear(r, c, k, call);
      d := HearAll(r, b, k + 1, call);
      LeadsTrans(r, c, b, d);
    }
  }

  /** The candidate counts the votes of servers k, k + 1, ... until they are a majority. */
  lemma CountFrom(r: Rules, c: Cluster, s: ServerId, k: ServerId, call: VoteRequest) returns (d: Cluster)
    requires 3 <= |c.servers| && s < 2 <= k && call.candidateId == s
    requires var x := c.servers[s];
             && x.role == Candidate && |x.st.entries| > 0 && x.gate < x.st.currentTerm == call.term
             && |x.counted| == k - 1 <= |c.servers| / 2 && forall v | v in x.counted :: v < k
    requires forall v: ServerId | k <= v < |c.servers| :: VoteAnswer(v, call, Reply(call.term, true)) in c.net
    ensures Leads(r, c, d)
    ensures var x := c.servers[s]; d.servers == c.servers[s :=
              Become(x, Leader).(gate := x.st.currentTerm, progress := Reinit(|c.servers|, |x.st.entries|))]
    decreases |c.servers| - k
  {
    var e := VoteAnswered(s, k, call, Reply(call.term, true));
    LeadsOne(r, c, e);
    d := Step(c, e);
    if k <= |c.servers| / 2 {
      var b := d;
      d := CountFrom(r, b, s, k + 1, call);
      LeadsTrans(r, c, b, d);
    }
  }

  ghost predicate CanElect(c: Cluster, s: ServerId) {
    && 3 <= |c.servers| && s < 2 && CanStand(c.servers[s])
    && forall v: ServerId | 2 <= v < |c.servers| :: Votes(c.servers[v], CallOf(s, c.servers[s]))
  }

  /** Server 0 or 1 is elected by the servers from 2 on. */
  lemma Elect(r: Rules, c: Cluster, s: ServerId) returns (d: Cluster)
    requires CanElect(c, s)
    ensures Leads(r, c, d) && VoteCall(1 - s, CallOf(s, c.servers[s])) in d.net
    ensures d.servers[s] == ElectedServer(|c.servers|, s, c.servers[s]) && d.servers[1 - s] == c.servers[1 - s]
    ensures forall v | 2 <= v < |c.servers| :: d.servers[v] == VotedServer(c.servers[v], CallOf(s, c.servers[s]))
  {
    var call := CallOf(s, c.servers[s]);
    var a := Stand(r, c, s);
    var b := HearAll(r, a, 2, call);
    d := CountFrom(r, b, s, 2, call);
    LeadsTrans(r, c, a, b);
    LeadsTrans(r, c, b, d);
  }

  const BOOTED := FollowerAt(0, None, [SENTINEL], 0)

  /** All servers from k on start. */
  lemma StartFrom(r: Rules, c: Cluster, k: ServerId) returns (d: Cluster)
    requires k <= |c.servers| && forall v | k <= v < |c.servers| :: c.servers[v] == BOOT
    ensures Leads(r, c, d) && forall v | 0 <= v < k :: d.servers[v] == c.servers[v]
    ensures forall v | k <= v < |c.servers| :: d.servers[v] == BOOTED
    decreases |c.servers| - k
  {
    if k == |c.servers| {
      d := c;
      LeadsSelf(r, c);
    } else {
      LeadsOne(r, c, Start(k));
      var b := Step(c, Start(k));
      d := StartFrom(r, b, k + 1);
      LeadsTrans(r, c, b, d);
    }
  }
}
