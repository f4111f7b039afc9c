/** n servers and a network that may lose, delay, repeat and reorder: one handler call, one client
    request, one timeout or one answered call is one step. */
module Cluster {
  import opened RaftDefs
  import opened Handlers
  import opened LeaderState

  /** `gate` is the identity transformer's termTriggered; `counted` the peers whose vote was counted. */
  datatype Server = Server(st: State, role: Role, gate: Term, counted: set<ServerId>, progress: Progress)

  /** Calls carry their addressee, answers carry the call they answer. Packets are never removed: a call
      that is delivered again, late or never is a repeated, delayed or lost one. */
  datatype Packet =
    | VoteCall(to: ServerId, vote: VoteRequest)
    | VoteAnswer(from: ServerId, vote: VoteRequest, rep: Reply)
    | AppendCall(to: ServerId, append: AppendRequest)
    | AppendAnswer(from: ServerId, append: AppendRequest, rep: Reply)

  datatype Cluster = Cluster(servers: seq<Server>, net: set<Packet>)

  const BOOT := Server(INITIAL_STATE, Down, 0, {}, NO_PROGRESS)

  function Init(n: nat): Cluster {
    Cluster(seq(n, _ => BOOT), {})
  }

  /** The identity transformer lets a notification through unless its gate already stands at that term. */
  predicate Accepts(gate: Term, term: Term) {
    gate == 0 || gate < term
  }

  /** Leaving an identity drops its votes, requests and follower bookkeeping. */
  function Become(x: Server, role: Role): Server {
    x.(role := role, counted := {}, progress := NO_PROGRESS)
  }

  /** A new leader sets up its tables; other identities keep nothing of their own. */
  function Tables(n: nat, role: Role, logSize: nat): Progress {
    if role == Leader then Reinit(n, logSize) else NO_PROGRESS
  }

  function Notified(n: nat, x: Server, note: Note): Server {
    if Accepts(x.gate, note.term)
    then Become(x, note.target).(gate := note.term, progress := Tables(n, note.target, |x.st.entries|))
    else x
  }

  function NotifyAll(n: nat, x: Server, notes: seq<Note>): Server
    decreases |notes|
  {
    if notes == [] then x
    else NotifyAll(n, Notified(n, x, notes[0]), notes[1..])
  }

  /** A candidate whose count exceeds half the list asks to become leader of the term it stood in. */
  function CheckMajority(n: nat, x: Server, term: Term): Server {
    if |x.counted| > n / 2 then Notified(n, x, Note(Leader, term)) else x
  }

  /** A server that has just stood for election in its next term. */
  function Standing(id: ServerId, x: Server): Server {
    var st := x.st.(currentTerm := x.st.currentTerm + 1, votedFor := Some(id));
    Become(x, Candidate).(st := st, gate := x.st.currentTerm, counted := {id})
  }

  function StartCandidacy(n: nat, id: ServerId, x: Server): Server {
    CheckMajority(n, Standing(id, x), x.st.currentTerm + 1)
  }

  function VoteCallOf(id: ServerId, st: State): VoteRequest
    requires |st.entries| > 0
  {
    VoteRequest(st.currentTerm, id, |st.entries| - 1, st.entries[|st.entries| - 1].term)
  }

  datatype Event =
    | Start(s: ServerId)
    | Stop(s: ServerId)
    | Timeout(s: ServerId)
    | DeliverVote(s: ServerId, vote: VoteRequest, clears: bool)
    | VoteAnswered(s: ServerId, from: ServerId, vote: VoteRequest, rep: Reply)
    | ClientCall(s: ServerId, cmd: Command)
    | Send(s: ServerId, f: ServerId)
    | DeliverAppend(s: ServerId, append: AppendRequest, clears: bool)
    | AppendAnswered(s: ServerId, from: ServerId, append: AppendRequest, rep: Reply)

  predicate Enabled(c: Cluster, e: Event) {
    var n := |c.servers|;
    && e.s < n
    && var x := c.servers[e.s];
    && |x.st.entries| > 0
    && match e
       case Start(_) => x.role == Down
       case Stop(_) => true
       case Timeout(_) => x.role == Follower || x.role == Candidate
       case DeliverVote(s, vote, _) => VoteCall(s, vote) in c.net && x.role != Down
       // leaving a candidacy cancels its requests, so only answers of the current one are heard
       case VoteAnswered(s, from, vote, rep) =>
         && VoteAnswer(from, vote, rep) in c.net
         && vote.candidateId == s && x.role == Candidate && vote.term == x.st.currentTerm && from !in x.counted
       case ClientCall(_, _) => true
       case Send(s, f) =>
         && x.role == Leader && f < n && f != s
         && f < |x.progress.nextIdx| && 1 <= x.progress.nextIdx[f] <= |x.st.entries|
       case DeliverAppend(s, append, _) => AppendCall(s, append) in c.net && x.role != Down
       case AppendAnswered(s, from, append, rep) =>
         && AppendAnswer(from, append, rep) in c.net
         && append.leaderId == s && x.role == Leader && append.term == x.st.currentTerm
         && from < |x.progress.nextIdx| && from < |x.progress.matchIdx|
         && x.progress.nextIdx[from] == append.prevLogIdx + 1
  }

  function Others(n: nat, s: ServerId): (r: set<ServerId>)
    ensures forall p: ServerId :: p in r <==> p < n && p != s
  {
    if n == 0 then {} else if n - 1 == s then Others(n - 1, s) else Others(n - 1, s) + {n - 1}
  }

  /** The server an event happens at, afterwards. */
  function After(n: nat, x: Server, e: Event): Server
    requires |x.st.entries| > 0
    requires e.AppendAnswered? ==>
      e.from < |x.progress.nextIdx| && e.from < |x.progress.matchIdx| && 1 <= x.progress.nextIdx[e.from]
  {
    match e
    case Start(_) => Become(x, Follower)
    case Stop(_) => Become(x, Down)
    case Timeout(s) => if Accepts(x.gate, x.st.currentTerm) then StartCandidacy(n, s, x) else x
    case DeliverVote(_, vote, clears) =>
      var out := HandleVote(AsDocumented(clears), x.st, x.role, vote);
      NotifyAll(n, x.(st := out.st), out.notes)
    case VoteAnswered(_, from, vote, rep) =>
      if rep.term != vote.term || !rep.ok then x
      else CheckMajority(n, x.(counted := x.counted + {from}), vote.term)
    case ClientCall(_, cmd) =>
      if x.role != Leader then x
      else var r := AddLog(x.st, x.progress, cmd); x.(st := r.0, progress := r.1)
    case Send(_, _) => x
    case DeliverAppend(_, append, clears) =>
      var out := HandleAppend(AsDocumented(clears), x.st, x.role, append);
      NotifyAll(n, x.(st := out.st), out.notes)
    case AppendAnswered(_, from, append, rep) =>
      if rep.ok then
        var r := OnSuccess(n, x.st, x.progress, from, |append.logEntries|);
        x.(st := r.0, progress := r.1)
      else
        var r := OnFailure(x.st, x.progress, from, rep.term);
        NotifyAll(n, x.(st := r.0, progress := r.1), r.2)
  }

  /** The packets an event puts on the network. */
  function Sent(n: nat, x: Server, e: Event): set<Packet>
    requires |x.st.entries| > 0
    requires e.Send? ==> e.f < |x.progress.nextIdx| && 1 <= x.progress.nextIdx[e.f] <= |x.st.entries|
  {
    match e
    case Timeout(s) =>
      if Accepts(x.gate, x.st.currentTerm) then
        var st := x.st.(currentTerm := x.st.currentTerm + 1, votedFor := Some(s));
        set p | p in Others(n, s) :: VoteCall(p, VoteCallOf(s, st))
      else {}
    case DeliverVote(s, vote, clears) => {VoteAnswer(s, vote, HandleVote(AsDocumented(clears), x.st, x.role, vote).rep)}
    case Send(s, f) => {AppendCall(f, CreateAppendEntries(x.st, s, x.progress.nextIdx[f]))}
    case DeliverAppend(s, append, clears) =>
      {AppendAnswer(s, append, HandleAppend(AsDocumented(clears), x.st, x.role, append).rep)}
    case _ => {}
  }

  function Step(c: Cluster, e: Event): Cluster
    requires Enabled(c, e)
  {
    var n, x := |c.servers|, c.servers[e.s];
    Cluster(c.servers[e.s := After(n, x, e)], c.net + Sent(n, x, e))
  }

  /** No entry was added to the leader's log between the snapshot an answer confirms and its counting. */
  predicate CountsWholeLog(c: Cluster, e: Event)
    requires Enabled(c, e)
  {
    e.AppendAnswered? && e.rep.ok ==>
      e.append.prevLogIdx + 1 + |e.append.logEntries| == |c.servers[e.s].st.entries|
  }

  /** What a round newly commits is, by the leader's own tables, stored on a majority. */
  ghost predicate CommitsOnMajority(c: Cluster, e: Event)
    requires Enabled(c, e)
  {
    e.AppendAnswered? && e.rep.ok ==>
      CommitsHeld(|c.servers|, c.servers[e.s].st, c.servers[e.s].progress, e.s, e.from, |e.append.logEntries|)
  }

  /** Rounds commit only entries at most `back` terms older than the leader's term. */
  predicate CommitsRecent(back: nat, c: Cluster, e: Event)
    requires Enabled(c, e)
  {
    e.AppendAnswered? && e.rep.ok ==>
      CommitsWithin(|c.servers|, back, c.servers[e.s].st, c.servers[e.s].progress, e.from)
  }

  /** What is committed is on a majority and not too old: with two servers or one, where every quorum is the whole
      list, any entry will do; otherwise one of the term before the leader's at the oldest. */
  ghost predicate Guarded(c: Cluster, e: Event) {
    Enabled(c, e) && CommitsOnMajority(c, e) && (2 < |c.servers| ==> CommitsRecent(1, c, e))
  }

  /** A finite run: the states passed through and the events between them. */
  ghost predicate Run(n: nat, cs: seq<Cluster>, es: seq<Event>) {
    && |cs| == |es| + 1
    && cs[0] == Init(n)
    && forall k | 0 <= k < |es| :: Enabled(cs[k], es[k]) && cs[k + 1] == Step(cs[k], es[k])
  }

  /** A run whose commits are held by a majority and not too old. */
  ghost predicate GuardedRun(n: nat, cs: seq<Cluster>, es: seq<Event>) {
    Run(n, cs, es) && forall k | 0 <= k < |es| :: Guarded(cs[k], es[k])
  }

  /** A run whose rounds are counted over the whole log, which they confirmed. */
  ghost predicate ExactRun(n: nat, cs: seq<Cluster>, es: seq<Event>) {
    Run(n, cs, es) && forall k | 0 <= k < |es| :: CountsWholeLog(cs[k], es[k])
  }
}
