/** The election restriction never shuts everybody out: being at least as up-to-date is a total order on logs, so
    some server's log is good enough for all. */
module Electable {
  import opened RaftDefs
  import opened Handlers
  import opened Cluster
  import opened History
  import opened Runs
  import opened Safety
  import opened Figure2

  /** A voter with log a accepts a candidate with log b. */
  predicate Accepted(a: seq<Entry>, b: seq<Entry>)
    requires |a| > 0 && |b| > 0
  {
    UpToDate(a, |b| - 1, b[|b| - 1].term)
  }

  /** Of any two servers one accepts the other, and both do if and only if their last terms and lengths are equal. */
  lemma OneAccepts(a: seq<Entry>, b: seq<Entry>)
    requires |a| > 0 && |b| > 0
    ensures Accepted(a, b) || Accepted(b, a)
    ensures Accepted(a, b) && Accepted(b, a) <==> |a| == |b| && a[|a| - 1].term == b[|b| - 1].term
  {
  }

  lemma AcceptedTrans(a: seq<Entry>, b: seq<Entry>, c: seq<Entry>)
    requires |a| > 0 && |b| > 0 && |c| > 0 && Accepted(a, b) && Accepted(b, c)
    ensures Accepted(a, c)
  {
  }

  /** A candidate that has all the voter has, and possibly more, is accepted; terms never decrease along a log. */
  lemma LongerAccepted(a: seq<Entry>, b: seq<Entry>)
    requires 0 < |a| <= |b| && Agree(a, b, |a|)
    requires forall i, j | 0 <= i <= j < |b| :: b[i].term <= b[j].term
    ensures Accepted(a, b)
  {
  }

  /** Among any number of logs one is acceptable to all. */
  lemma {:induction false} BestLog(logs: seq<seq<Entry>>) returns (s: nat)
    requires |logs| > 0 && forall v | 0 <= v < |logs| :: |logs[v]| > 0
    ensures s < |logs| && forall v | 0 <= v < |logs| :: Accepted(logs[v], logs[s])
    decreases |logs|
  {
    var last := |logs| - 1;
    if last == 0 {
      s := 0;
    } else {
      var best := BestLog(logs[..last]);
      assert forall v | 0 <= v < last :: logs[..last][v] == logs[v];
      OneAccepts(logs[last], logs[best]);
      s := if Accepted(logs[last], logs[best]) then best else last;
      forall v | 0 <= v < |logs| ensures Accepted(logs[v], logs[s]) {
        if v < last {
          assert Accepted(logs[..last][v], logs[best]);
          if s == last { AcceptedTrans(logs[v], logs[best], logs[last]); }
        } else if s == last {
          OneAccepts(logs[last], logs[last]);
        }
      }
    }
  }

  /** The answer of server v, whatever its role, to a candidacy of server s in a term. */
  function Answer(c: Cluster, v: ServerId, s: ServerId, term: Term): Reply
    requires v < |c.servers| && s < |c.servers| && |c.servers[v].st.entries| > 0 && |c.servers[s].st.entries| > 0
  {
    var x, log := c.servers[v], c.servers[s].st.entries;
    HandleVote(AsDocumented(true), x.st, x.role, VoteRequest(term, s, |log| - 1, log[|log| - 1].term)).rep
  }

  lemma NoLogEmpty(n: nat, cs: seq<Cluster>, es: seq<Event>, k: nat)
    requires Run(n, cs, es) && k < |cs|
    ensures |cs[k].servers| == n && forall v | 0 <= v < n :: |cs[k].servers[v].st.entries| > 0
  {
    var hs := RunHistories(n, cs, es, ANY);
    SameServers(n, cs, es, k);
    forall v | 0 <= v < n ensures |cs[k].servers[v].st.entries| > 0 {
      assert ServerOk(v, cs[k].servers[v], hs[k]);
    }
  }

  /** At every moment of every run some server would get the vote of all, itself included, in any term nobody has
      reached yet. */
  lemma SomeoneElectable(n: nat, cs: seq<Cluster>, es: seq<Event>, k: nat, term: Term) returns (s: ServerId)
    requires Run(n, cs, es) && k < |cs| && 0 < n
    requires forall v | 0 <= v < |cs[k].servers| :: cs[k].servers[v].st.currentTerm < term
    ensures s < n == |cs[k].servers| && forall v | 0 <= v < n :: |cs[k].servers[v].st.entries| > 0
    ensures forall v: ServerId | v < n :: Answer(cs[k], v, s, term) == Reply(term, true)
  {
    var c := cs[k];
    NoLogEmpty(n, cs, es, k);
    var logs := seq(n, v requires 0 <= v < n => c.servers[v].st.entries);
    s := BestLog(logs);
    forall v: ServerId | v < n ensures Answer(c, v, s, term) == Reply(term, true) {
      assert Accepted(logs[v], logs[s]);
      var log := c.servers[s].st.entries;
      VoteRule(true, c.servers[v].st, c.servers[v].role, VoteRequest(term, s, |log| - 1, log[|log| - 1].term));
    }
  }
}
