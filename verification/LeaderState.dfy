/** What a leader keeps about its followers, and how its log, its counters and its commit index move. */
module LeaderState {
  import opened RaftDefs
  import opened Handlers

  /** One slot per server of the list (the leader's own is unused) and one counter per log entry. */
  datatype Progress = Progress(nextIdx: seq<Index>, matchIdx: seq<Index>, replicateNum: seq<nat>)

  const NO_PROGRESS := Progress([], [], [])

  function Reinit(n: nat, logSize: nat): Progress {
    Progress(seq(n, _ => 1), seq(n, _ => 0), seq(logSize, _ => 1))
  }

  /** The pair by which a client call is recognised. */
  predicate SameCall(e: Entry, cmd: Command) {
    e.srvId == cmd.srvId && e.prmIdx == cmd.prmIdx
  }

  predicate Logged(log: seq<Entry>, cmd: Command) {
    exists i | 0 <= i < |log| :: SameCall(log[i], cmd)
  }

  function AddLog(st: State, p: Progress, cmd: Command): (State, Progress) {
    if Logged(st.entries, cmd) then (st, p)
    else
      var e := Entry(st.currentTerm, cmd.opName, cmd.args, cmd.prmIdx, cmd.srvId);
      (st.(entries := st.entries + [e]), p.(replicateNum := p.replicateNum + [1]))
  }

  /** Whoever asked and whatever the log holds: afterwards an entry carries the request's number and sender. If one
      did before, nothing changed; otherwise one entry with all of the request was added, in the current term. */
  lemma AddLogRecords(st: State, p: Progress, cmd: Command)
    ensures var r := AddLog(st, p, cmd); var log := r.0.entries;
            && (exists i | 0 <= i < |log| :: log[i].srvId == cmd.srvId && log[i].prmIdx == cmd.prmIdx)
            && if exists i | 0 <= i < |st.entries| ::
                    st.entries[i].srvId == cmd.srvId && st.entries[i].prmIdx == cmd.prmIdx
               then r == (st, p)
               else
                 && |log| == |st.entries| + 1 && Agree(st.entries, log, |st.entries|)
                 && log[|st.entries|] == Entry(st.currentTerm, cmd.opName, cmd.args, cmd.prmIdx, cmd.srvId)
                 && r.0 == st.(entries := log) && r.1 == p.(replicateNum := p.replicateNum + [1])
  {
    var log := AddLog(st, p, cmd).0.entries;
    if !Logged(st.entries, cmd) { assert SameCall(log[|st.entries|], cmd); }
  }

  /** Client requests that reach the leader one after the other. */
  function AddAll(st: State, p: Progress, cmds: seq<Command>): (r: (State, Progress))
    ensures |st.entries| <= |r.0.entries| && Agree(st.entries, r.0.entries, |st.entries|)
    ensures forall i | |st.entries| <= i < |r.0.entries| :: r.0.entries[i].term == st.currentTerm
    ensures r.0 == st.(entries := r.0.entries)
    ensures r.1.nextIdx == p.nextIdx && r.1.matchIdx == p.matchIdx
    decreases |cmds|
  {
    if cmds == [] then (st, p)
    else var r := AddLog(st, p, cmds[0]); AddAll(r.0, r.1, cmds[1..])
  }

  /** The leader always sends its whole suffix from `start` on. */
  function CreateAppendEntries(st: State, leader: ServerId, start: Index): AppendRequest
    requires 1 <= start <= |st.entries|
  {
    AppendRequest(st.currentTerm, leader, start - 1, st.entries[start - 1].term, st.entries[start..], st.commitIdx)
  }

  /** The count loop that follows a successful round, from log index i to the last counter. */
  function CountLoop(n: nat, reps: seq<nat>, commit: Index, i: Index): (r: (seq<nat>, Index))
    ensures |r.0| == |reps|
    ensures forall j | 0 <= j < |reps| :: r.0[j] == if j < i then reps[j] else reps[j] + 1
    ensures commit <= r.1
    ensures commit < r.1 ==> i <= r.1 < |reps| && r.0[r.1] > n / 2
    ensures forall j | i <= j < |reps| && r.0[j] > n / 2 :: j <= r.1
    decreases |reps| - i
  {
    if |reps| <= i then (reps, commit)
    else
      var reps' := reps[i := reps[i] + 1];
      CountLoop(n, reps', if reps'[i] > n / 2 && commit < i then i else commit, i + 1)
  }

  /** A round that succeeded with `count` entries sent. */
  function OnSuccess(n: nat, st: State, p: Progress, f: ServerId, count: nat): (State, Progress)
    requires f < |p.nextIdx| && f < |p.matchIdx| && 1 <= p.nextIdx[f]
  {
    var next := p.nextIdx[f] + count;
    var counted := CountLoop(n, p.replicateNum, st.commitIdx, p.matchIdx[f] + 1);
    (ApplyReady(st.(commitIdx := counted.1)),
     Progress(p.nextIdx[f := next], p.matchIdx[f := next - 1], counted.0))
  }

  /** The index the count loop is about to commit holds an entry at most `back` terms older than the leader's
      own; none older is what section 5.4.2 asks for. */
  predicate CommitsWithin(n: nat, back: nat, st: State, p: Progress, f: ServerId)
    requires f < |p.matchIdx|
  {
    var commit := CountLoop(n, p.replicateNum, st.commitIdx, p.matchIdx[f] + 1).1;
    st.commitIdx < commit < |st.entries| ==> st.currentTerm <= st.entries[commit].term + back
  }

  /** A round that was refused: a greater term is adopted, otherwise the next try starts one entry earlier. */
  function OnFailure(st: State, p: Progress, f: ServerId, term: Term): (State, Progress, seq<Note>)
    requires f < |p.nextIdx|
  {
    if st.currentTerm < term then (st.(currentTerm := term), p, [Note(Follower, term)])
    else if p.nextIdx[f] <= 1 then (st, p, [])
    else (st, p.(nextIdx := p.nextIdx[f := p.nextIdx[f] - 1]), [])
  }

  /** The followers known to store the entry at index i. */
  ghost function Holders(matchIdx: seq<Index>, me: ServerId, i: Index): set<ServerId> {
    set f | 0 <= f < |matchIdx| && f != me && i <= matchIdx[f]
  }

  /** The counters say exactly how many servers, the leader included, are known to store each entry. */
  ghost predicate CountsExact(p: Progress, me: ServerId) {
    forall i | 1 <= i < |p.replicateNum| :: p.replicateNum[i] == 1 + |Holders(p.matchIdx, me, i)|
  }

  lemma ReinitCountsExact(n: nat, logSize: nat, me: ServerId)
    ensures CountsExact(Reinit(n, logSize), me)
  {
  }

  lemma AddLogCountsExact(st: State, p: Progress, cmd: Command, me: ServerId)
    requires CountsExact(p, me)
    requires |p.replicateNum| == |st.entries|
    requires forall f | 0 <= f < |p.matchIdx| :: p.matchIdx[f] < |st.entries|
    ensures var r := AddLog(st, p, cmd); CountsExact(r.1, me) && |r.1.replicateNum| == |r.0.entries|
  {
  }

  /** Moving one follower's match index from a to b adds it to the holders of exactly a+1..b. */
  lemma HoldersAfter(matchIdx: seq<Index>, me: ServerId, f: ServerId, b: Index, i: Index)
    requires f < |matchIdx| && f != me && matchIdx[f] <= b
    ensures |Holders(matchIdx[f := b], me, i)|
         == |Holders(matchIdx, me, i)| + if matchIdx[f] < i <= b then 1 else 0
  {
    var before, after := Holders(matchIdx, me, i), Holders(matchIdx[f := b], me, i);
    if matchIdx[f] < i <= b {
      assert after == before + {f};
    } else {
      assert after == before;
    }
  }

  /** The count loop runs over the whole log, not over what the follower confirmed. The counters stay
      exact if and only if the confirmed part is the whole log, that is, nothing was added to the log
      between taking the snapshot and counting. */
  lemma CountsStayExactIff(n: nat, st: State, p: Progress, me: ServerId, f: ServerId, count: nat)
    requires CountsExact(p, me)
    requires f < |p.nextIdx| && f < |p.matchIdx| && f != me && 1 <= p.nextIdx[f]
    requires p.matchIdx[f] <= p.nextIdx[f] - 1 + count
    ensures CountsExact(OnSuccess(n, st, p, f, count).1, me) <==> |p.replicateNum| <= p.nextIdx[f] + count
  {
    var p' := OnSuccess(n, st, p, f, count).1;
    var b := p.nextIdx[f] - 1 + count;
    forall i | 1 <= i < |p.replicateNum|
      ensures p'.replicateNum[i] == 1 + |Holders(p'.matchIdx, me, i)| <==> i <= b
    {
      assert p.replicateNum[i] == 1 + |Holders(p.matchIdx, me, i)|;
      HoldersAfter(p.matchIdx, me, f, b, i);
    }
    if b + 1 < |p.replicateNum| {
      assert p'.replicateNum[b + 1] != 1 + |Holders(p'.matchIdx, me, b + 1)|;
    }
  }

  /** What the leader knows a majority to store, itself included. */
  ghost predicate Held(n: nat, p: Progress, me: ServerId, i: Index) {
    |Holders(p.matchIdx, me, i)| + 1 > n / 2
  }

  /** What a round newly commits is so held. */
  ghost predicate CommitsHeld(n: nat, st: State, p: Progress, me: ServerId, f: ServerId, count: nat)
    requires f < |p.nextIdx| && f < |p.matchIdx| && 1 <= p.nextIdx[f]
  {
    var r := OnSuccess(n, st, p, f, count);
    st.commitIdx < r.0.commitIdx ==> Held(n, r.1, me, r.0.commitIdx)
  }

  /** Every index whose counter exceeds half the list is committed. */
  ghost predicate NothingOverdue(n: nat, p: Progress, commit: Index) {
    forall i | commit < i < |p.replicateNum| :: p.replicateNum[i] <= n / 2
  }

  lemma NothingOverdueKept(n: nat, st: State, p: Progress, f: ServerId, count: nat)
    requires f < |p.nextIdx| && f < |p.matchIdx| && 1 <= p.nextIdx[f] && NothingOverdue(n, p, st.commitIdx)
    ensures var r := OnSuccess(n, st, p, f, count); NothingOverdue(n, r.1, r.0.commitIdx)
  {
  }

  lemma CountersFall(p: Progress, me: ServerId, i: Index, j: Index)
    requires CountsExact(p, me) && 1 <= i <= j < |p.replicateNum|
    ensures p.replicateNum[j] <= p.replicateNum[i]
  {
    var few, many := Holders(p.matchIdx, me, j), Holders(p.matchIdx, me, i);
    assert many == few + (many - few);
  }

  function Max(a: nat, b: nat): nat { if a <= b then b else a }

  /** The first index the count loop may newly commit although the round did not confirm it. */
  function FirstUnconfirmed(st: State, p: Progress, f: ServerId, count: nat): Index
    requires f < |p.nextIdx| && f < |p.matchIdx|
  {
    Max(p.nextIdx[f] + count, Max(p.matchIdx[f], st.commitIdx) + 1)
  }

  /** One more count would not carry that index over half the list. */
  predicate CountsNoFurther(n: nat, st: State, p: Progress, f: ServerId, count: nat)
    requires f < |p.nextIdx| && f < |p.matchIdx|
  {
    var x := FirstUnconfirmed(st, p, f, count);
    x < |p.replicateNum| ==> p.replicateNum[x] + 1 <= n / 2
  }

  /** One round, whatever it confirmed: what it newly commits is known to be stored on a majority if and
      only if the count goes no further than the round. */
  lemma CommitHeldIff(n: nat, st: State, p: Progress, me: ServerId, f: ServerId, count: nat)
    requires CountsExact(p, me) && NothingOverdue(n, p, st.commitIdx)
    requires f < |p.nextIdx| && f < |p.matchIdx| && f != me && 1 <= p.nextIdx[f]
    ensures CommitsHeld(n, st, p, me, f, count) <==> CountsNoFurther(n, st, p, f, count)
  {
    var r := OnSuccess(n, st, p, f, count);
    var b, commit, x := p.nextIdx[f] - 1 + count, r.0.commitIdx, FirstUnconfirmed(st, p, f, count);
    if st.commitIdx < commit {
      assert p.replicateNum[commit] == 1 + |Holders(p.matchIdx, me, commit)|;
      if x <= commit {
        CountersFall(p, me, x, commit);
        assert Holders(r.1.matchIdx, me, commit) == Holders(p.matchIdx, me, commit);
      } else {
        HoldersAfter(p.matchIdx, me, f, b, commit);
      }
    }
  }
}
