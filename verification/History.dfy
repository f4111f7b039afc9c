/** What happened so far, as the proofs remember it, and the invariant that ties it to the servers.
    Nothing here influences a step of the cluster. */
module History {
  import opened RaftDefs
  import opened Cluster

  datatype Key = Key(t: Term, v: ServerId)

  /** The commits of a run are guarded; its counts are exact. */
  datatype Mode = Mode(guarded: bool, exact: bool)

  const ANY := Mode(false, false)
  const GUARDED := Mode(true, false)
  const EXACT := Mode(false, true)

  /** For every term with a leader: its log (as far as it grew), its identity and the peers that voted
      for it. For every vote (term, voter): the candidate. For every candidacy (term, candidate): its
      log. For every confirmation (term, follower): the last index confirmed to that term's leader.
      `mode` says what every round so far obeyed: what is said about commit indices rests on `guarded`, what is
      said about counters on `exact`, and nothing else on either. */
  datatype History = History(
    logs: map<Term, seq<Entry>>,
    leaderOf: map<Term, ServerId>,
    voters: map<Term, set<ServerId>>,
    ballots: map<Key, ServerId>,
    cands: map<Key, seq<Entry>>,
    acks: map<Key, Index>,
    mode: Mode)

  function Beginning(mode: Mode): History {
    History(map[0 := [SENTINEL]], map[], map[], map[], map[], map[], mode)
  }

  ghost predicate Quorum(n: nat, q: set<ServerId>) {
    (forall v | v in q :: v < n) && |q| > n / 2
  }

  ghost function Upto(n: nat): (r: set<ServerId>)
    ensures forall v: ServerId :: v in r <==> v < n
    ensures |r| == n
  {
    if n == 0 then {} else Upto(n - 1) + {n - 1}
  }

  lemma SubsetSize(a: set<ServerId>, b: set<ServerId>)
    requires a <= b
    ensures |a| <= |b|
  {
    assert b == a + (b - a);
  }

  /** A set that leaves no quorum without one of its servers. */
  ghost predicate Blocking(n: nat, b: set<ServerId>) {
    (forall v | v in b :: v < n) && |b| >= n - n / 2
  }

  lemma SetsMeet(n: nat, a: set<ServerId>, b: set<ServerId>) returns (v: ServerId)
    requires (forall v | v in a :: v < n) && (forall v | v in b :: v < n) && |a| + |b| > n
    ensures v in a && v in b && v < n
  {
    if a * b == {} {
      assert |a + b| == |a| + |b|;
      SubsetSize(a + b, Upto(n));
      assert false;
    }
    v :| v in a * b;
  }

  /** Two sets larger than half the list share a server. */
  lemma QuorumsMeet(n: nat, a: set<ServerId>, b: set<ServerId>) returns (v: ServerId)
    requires Quorum(n, a) && Quorum(n, b)
    ensures v in a && v in b && v < n
  {
    v := SetsMeet(n, a, b);
  }

  /** Every entry of `log` was created by the leader of its term, and the log agrees with that leader's
      log up to the entry. Terms in the log do not exceed `bound`. */
  ghost predicate Rooted(logs: map<Term, seq<Entry>>, log: seq<Entry>, bound: Term) {
    && |log| > 0
    && forall i | 0 <= i < |log| ::
         log[i].term <= bound && log[i].term in logs && Agree(log, logs[log[i].term], i + 1)
  }

  ghost predicate LogsOk(h: History) {
    && 0 in h.logs && h.logs[0] == [SENTINEL] && 0 !in h.leaderOf
    && forall t | t in h.logs :: Rooted(h.logs, h.logs[t], t) && h.logs[t][0] == SENTINEL
  }

  /** A leader of term t got votes from a majority in term t. */
  ghost predicate LeadersOk(srv: seq<Server>, h: History) {
    && (forall t | t in h.leaderOf :: t in h.logs)
    && forall t | t in h.logs && t > 0 ::
      && t in h.leaderOf && t in h.voters
      && Quorum(|srv|, h.voters[t])
      && h.leaderOf[t] < |srv| && t <= srv[h.leaderOf[t]].st.currentTerm
      && forall v | v in h.voters[t] :: Key(t, v) in h.ballots && h.ballots[Key(t, v)] == h.leaderOf[t]
  }

  ghost predicate BallotsOk(srv: seq<Server>, h: History) {
    forall k | k in h.ballots ::
      && k.v < |srv|
      && k.t <= srv[k.v].st.currentTerm
      && (k.t == srv[k.v].st.currentTerm ==> srv[k.v].st.votedFor == Some(h.ballots[k]))
      && Key(k.t, h.ballots[k]) in h.cands
  }

  ghost predicate CandsOk(srv: seq<Server>, h: History) {
    forall k | k in h.cands ::
      && k.v < |srv| && 0 < k.t <= srv[k.v].st.currentTerm
      && Rooted(h.logs, h.cands[k], k.t - 1)
      && k in h.ballots && h.ballots[k] == k.v
  }

  ghost predicate AcksOk(srv: seq<Server>, h: History) {
    forall k | k in h.acks ::
      && k.v < |srv| && k.t <= srv[k.v].st.currentTerm
      && k.t in h.logs && h.acks[k] < |h.logs[k.t]|
  }

  ghost predicate ServerOk(id: ServerId, x: Server, h: History) {
    && Rooted(h.logs, x.st.entries, x.st.currentTerm)
    && (x.role == Candidate ==>
          && Key(x.st.currentTerm, id) in h.cands && h.cands[Key(x.st.currentTerm, id)] == x.st.entries
          && Key(x.st.currentTerm, id) in h.ballots && h.ballots[Key(x.st.currentTerm, id)] == id
          && (x.st.currentTerm in h.leaderOf ==> h.leaderOf[x.st.currentTerm] != id))
    && (x.role == Leader ==>
          && 0 < x.st.currentTerm && x.st.currentTerm in h.logs && x.st.currentTerm in h.leaderOf
          && h.leaderOf[x.st.currentTerm] == id && h.logs[x.st.currentTerm] == x.st.entries
          && Ack(h, x.st.currentTerm, id) == |x.st.entries| - 1)
  }

  ghost predicate ServersOk(srv: seq<Server>, h: History) {
    forall s | 0 <= s < |srv| :: ServerOk(s, srv[s], h)
  }

  /** The last index a follower confirmed to the leader of term t; all logs share index 0. */
  ghost function Ack(h: History, t: Term, v: ServerId): Index {
    if Key(t, v) in h.acks then h.acks[Key(t, v)] else 0
  }

  /** Index i of the log of the leader of term t is one it may commit: it holds an entry of that very term or
      of the one before, or there are at most two servers, so that every quorum is the whole list. */
  ghost predicate Own(n: nat, h: History, t: Term, i: Index) {
    t > 0 && t in h.logs && 0 < i < |h.logs[t]| && (t <= h.logs[t][i].term + 1 || n <= 2)
  }

  /** Section 5.4.2's commitment: a majority confirmed index i to the leader of term t. */
  ghost predicate ChosenBy(n: nat, h: History, t: Term, i: Index, q: set<ServerId>) {
    Quorum(n, q) && forall v | v in q :: i <= Ack(h, t, v)
  }

  ghost predicate Chosen(n: nat, h: History, t: Term, i: Index) {
    exists q :: ChosenBy(n, h, t, i, q)
  }

  /** Enough servers have left term t without confirming index i to its leader: nobody will ever commit it. */
  ghost predicate BlockedBy(srv: seq<Server>, h: History, t: Term, i: Index, b: set<ServerId>) {
    Blocking(|srv|, b) && forall v | v in b :: v < |srv| && t < srv[v].st.currentTerm && Ack(h, t, v) < i
  }

  ghost predicate Blocked(srv: seq<Server>, h: History, t: Term, i: Index) {
    exists b :: BlockedBy(srv, h, t, i, b)
  }

  /** `log` still holds entry (t, i) of the leader of term t, or that entry can no longer be committed. */
  ghost predicate Kept(srv: seq<Server>, h: History, t: Term, i: Index, log: seq<Entry>)
    requires t in h.logs
  {
    Agree(h.logs[t], log, i + 1) || Blocked(srv, h, t, i)
  }

  /** Later leaders keep what earlier leaders created, unless it can no longer be committed. */
  ghost predicate LeadersKeep(srv: seq<Server>, h: History) {
    forall t: Term, i: Index, u: Term | Own(|srv|, h, t, i) && t < u && u in h.logs :: Kept(srv, h, t, i, h.logs[u])
  }

  /** A server keeps what it confirmed. */
  ghost predicate ServersKeep(srv: seq<Server>, h: History) {
    forall t: Term, i: Index, v: ServerId | Own(|srv|, h, t, i) && 0 <= v < |srv| && i <= Ack(h, t, v) ::
      Kept(srv, h, t, i, srv[v].st.entries)
  }

  /** A candidate has what its voters had confirmed in earlier terms. */
  ghost predicate VotersKeep(srv: seq<Server>, h: History) {
    forall t: Term, i: Index, k: Key | Own(|srv|, h, t, i) && k in h.ballots && t < k.t && i <= Ack(h, t, k.v) ::
      Key(k.t, h.ballots[k]) in h.cands && Kept(srv, h, t, i, h.cands[Key(k.t, h.ballots[k])])
  }

  /** Indices 0..k of `log` are covered by an entry (t, i) that a majority confirmed, with t <= bound. */
  ghost predicate CoveredBy(n: nat, h: History, log: seq<Entry>, k: Index, bound: Term, t: Term, i: Index) {
    Own(n, h, t, i) && Chosen(n, h, t, i) && t <= bound && k <= i && Agree(h.logs[t], log, k + 1)
  }

  ghost predicate Covered(n: nat, h: History, log: seq<Entry>, k: Index, bound: Term) {
    h.mode.guarded ==> k < |log| && (k > 0 ==> exists t: Term, i: Index :: CoveredBy(n, h, log, k, bound, t, i))
  }

  ghost predicate CommitsOk(srv: seq<Server>, h: History) {
    forall s | 0 <= s < |srv| ::
      Covered(|srv|, h, srv[s].st.entries, srv[s].st.commitIdx, srv[s].st.currentTerm)
  }

  ghost predicate Basics(srv: seq<Server>, h: History) {
    && LogsOk(h)
    && LeadersOk(srv, h)
    && BallotsOk(srv, h)
    && CandsOk(srv, h)
    && AcksOk(srv, h)
    && ServersOk(srv, h)
  }

  ghost predicate Promises(srv: seq<Server>, h: History) {
    && LeadersKeep(srv, h)
    && ServersKeep(srv, h)
    && VotersKeep(srv, h)
    && CommitsOk(srv, h)
  }

  ghost predicate Core(srv: seq<Server>, h: History) {
    Basics(srv, h) && Promises(srv, h)
  }
}
