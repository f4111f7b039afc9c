/** One leadership exactly as the source is written: one leader of one term, other servers whose terms are
    at most that term, and a network that loses, delays, repeats and reorders calls and answers. */
module Leadership {
  import opened RaftDefs
  import opened Handlers
  import opened LeaderState
  import opened Replication

  datatype Packet = Call(to: ServerId, m: AppendRequest) | Answer(from: ServerId, m: AppendRequest, rep: Reply)

  /** `flw` has one slot per server of the list; the leader's own is unused. */
  datatype Reign = Reign(me: ServerId, ldr: State, p: Progress, flw: seq<State>, net: set<Packet>)

  /** A called server may still stand for election in this term, or lead an earlier one. */
  datatype Event =
    | Add(cmd: Command)
    | Send(f: ServerId)
    | Deliver(f: ServerId, role: Role, m: AppendRequest)
    | Answered(f: ServerId, m: AppendRequest, rep: Reply)

  predicate Peer(r: Reign, f: ServerId) { f < |r.flw| && f != r.me }

  predicate Enabled(r: Reign, e: Event) {
    match e
    case Add(_) => true
    case Send(f) => Peer(r, f) && f < |r.p.nextIdx| && 1 <= r.p.nextIdx[f] <= |r.ldr.entries|
    case Deliver(f, _, m) => Peer(r, f) && Call(f, m) in r.net
    case Answered(f, m, rep) =>
      && Peer(r, f) && Answer(f, m, rep) in r.net
      && f < |r.p.nextIdx| && f < |r.p.matchIdx| && r.p.nextIdx[f] == m.prevLogIdx + 1
  }

  function Step(r: Reign, e: Event): Reign
    requires Enabled(r, e)
  {
    match e
    case Add(cmd) => var a := AddLog(r.ldr, r.p, cmd); r.(ldr := a.0, p := a.1)
    case Send(f) => r.(net := r.net + {Call(f, CreateAppendEntries(r.ldr, r.me, r.p.nextIdx[f]))})
    case Deliver(f, role, m) =>
      var out := HandleAppend(AsWritten, r.flw[f], role, m);
      r.(flw := r.flw[f := out.st], net := r.net + {Answer(f, m, out.rep)})
    case Answered(f, m, rep) =>
      if rep.ok then var a := OnSuccess(|r.flw|, r.ldr, r.p, f, |m.logEntries|); r.(ldr := a.0, p := a.1)
      else var a := OnFailure(r.ldr, r.p, f, rep.term); r.(ldr := a.0, p := a.1)
  }

  /** How a follower stands to its leader: Log Matching, no entry of this term the leader does not have,
      and everything it committed inside the leader's log. */
  ghost predicate FollowerOk(st: State, ldr: State) {
    && st.currentTerm <= ldr.currentTerm
    && AppliedOk(st)
    && Matching(st.entries, ldr.entries) && Agree(st.entries, ldr.entries, st.commitIdx + 1)
    && forall i | 0 <= i < |st.entries| && st.entries[i].term == ldr.currentTerm :: i < |ldr.entries|
  }

  ghost predicate CallOk(m: AppendRequest, ldr: State) {
    && m.term == ldr.currentTerm
    && CutFrom(ldr.entries, m.prevLogIdx, m.prevLogTerm, m.logEntries)
    && m.commitIdx <= m.prevLogIdx + |m.logEntries|
  }

  /** What a follower has confirmed is in its log, and stays there. */
  ghost predicate AnswerOk(st: State, m: AppendRequest, rep: Reply, ldr: State) {
    && rep.term <= ldr.currentTerm
    && (rep.ok ==> Agree(st.entries, ldr.entries, m.prevLogIdx + |m.logEntries| + 1))
  }

  ghost predicate PacketOk(r: Reign, p: Packet) {
    match p
    case Call(f, m) => CallOk(m, r.ldr)
    case Answer(f, m, rep) => f < |r.flw| && AnswerOk(r.flw[f], m, rep, r.ldr)
  }

  ghost predicate ShapeOk(r: Reign) {
    && |r.p.nextIdx| == |r.p.matchIdx| == |r.flw| && r.me < |r.flw|
    && |r.p.replicateNum| == |r.ldr.entries|
    && (forall f | 0 <= f < |r.flw| && f != r.me :: 1 <= r.p.nextIdx[f] <= |r.ldr.entries|)
    && forall i | 0 <= i < |r.ldr.entries| :: r.ldr.entries[i].term <= r.ldr.currentTerm
  }

  /** matchIdx[f] = m implies that follower f has the leader's log on 0..m. */
  ghost predicate MatchesOk(r: Reign)
    requires |r.p.matchIdx| == |r.flw|
  {
    forall f | 0 <= f < |r.flw| && f != r.me :: Agree(r.flw[f].entries, r.ldr.entries, r.p.matchIdx[f] + 1)
  }

  ghost predicate FollowersOk(r: Reign) {
    forall f | 0 <= f < |r.flw| && f != r.me :: FollowerOk(r.flw[f], r.ldr)
  }

  ghost predicate PacketsOk(r: Reign) {
    forall p | p in r.net :: PacketOk(r, p)
  }

  ghost predicate ReignOk(r: Reign) {
    ShapeOk(r) && AppliedOk(r.ldr) && FollowersOk(r) && MatchesOk(r) && PacketsOk(r)
  }

  /** A leader just elected: no entry of its term anywhere yet, Log Matching with every follower, and
      every committed prefix inside the new leader's log. */
  ghost predicate Begins(r: Reign) {
    && r.net == {} && r.me < |r.flw| && r.p == Reinit(|r.flw|, |r.ldr.entries|)
    && AppliedOk(r.ldr)
    && (forall i | 0 <= i < |r.ldr.entries| :: r.ldr.entries[i].term < r.ldr.currentTerm)
    && r.ldr.entries[0] == SENTINEL
    && forall f | 0 <= f < |r.flw| && f != r.me ::
         && r.flw[f].currentTerm <= r.ldr.currentTerm && AppliedOk(r.flw[f]) && r.flw[f].entries[0] == SENTINEL
         && Matching(r.flw[f].entries, r.ldr.entries)
         && Agree(r.flw[f].entries, r.ldr.entries, r.flw[f].commitIdx + 1)
         && forall i | 0 <= i < |r.flw[f].entries| :: r.flw[f].entries[i].term < r.ldr.currentTerm
  }

  lemma BeginsOk(r: Reign)
    requires Begins(r)
    ensures ReignOk(r) && CountsExact(r.p, r.me) && |r.p.replicateNum| == |r.ldr.entries|
  {
  }

  /** The leader's log grew by one entry of its own term, or not at all; its commit index moved inside it. */
  ghost predicate LeaderMoves(a: State, b: State) {
    && b.currentTerm == a.currentTerm && AppliedOk(b)
    && |a.entries| <= |b.entries| && Agree(a.entries, b.entries, |a.entries|)
    && forall i | |a.entries| <= i < |b.entries| :: b.entries[i].term == b.currentTerm
  }

  lemma FollowerStable(st: State, a: State, b: State)
    requires FollowerOk(st, a) && LeaderMoves(a, b)
    ensures FollowerOk(st, b)
  {
  }

  lemma PacketsAfterLeader(r: Reign, r': Reign)
    requires PacketsOk(r) && r'.flw == r.flw && r'.net == r.net && LeaderMoves(r.ldr, r'.ldr)
    ensures PacketsOk(r')
  {
  }

  /** A leader step that keeps its own tables in order keeps the whole reign in order. */
  lemma LeaderStepOk(r: Reign, r': Reign)
    requires ReignOk(r) && r'.flw == r.flw && r'.net == r.net && r'.me == r.me
    requires LeaderMoves(r.ldr, r'.ldr) && ShapeOk(r') && MatchesOk(r')
    ensures ReignOk(r')
  {
    forall f | 0 <= f < |r'.flw| && f != r'.me ensures FollowerOk(r'.flw[f], r'.ldr) {
      FollowerStable(r.flw[f], r.ldr, r'.ldr);
    }
    PacketsAfterLeader(r, r');
  }

  lemma AddOk(r: Reign, cmd: Command)
    requires ReignOk(r)
    ensures ReignOk(Step(r, Add(cmd)))
  {
    var r' := Step(r, Add(cmd));
    assert r'.ldr.entries[1..r.ldr.lastApplied + 1] == r.ldr.entries[1..r.ldr.lastApplied + 1];
    LeaderStepOk(r, r');
  }

  lemma SendOk(r: Reign, f: ServerId)
    requires ReignOk(r) && Enabled(r, Send(f))
    ensures ReignOk(Step(r, Send(f)))
  {
    var r' := Step(r, Send(f));
    forall p | p in r'.net ensures PacketOk(r', p) {
      if p in r.net { assert PacketOk(r, p); }
    }
  }

  lemma CountsInside(n: nat, st: State, p: Progress, f: ServerId, count: nat)
    requires f < |p.nextIdx| && f < |p.matchIdx| && 1 <= p.nextIdx[f]
    requires AppliedOk(st) && |p.replicateNum| == |st.entries|
    ensures LeaderMoves(st, OnSuccess(n, st, p, f, count).0)
    ensures st.commitIdx <= OnSuccess(n, st, p, f, count).0.commitIdx
  {
  }

  lemma SuccessOk(r: Reign, f: ServerId, m: AppendRequest, rep: Reply)
    requires ReignOk(r) && Enabled(r, Answered(f, m, rep)) && rep.ok
    ensures ReignOk(Step(r, Answered(f, m, rep)))
  {
    assert PacketOk(r, Answer(f, m, rep));
    CountsInside(|r.flw|, r.ldr, r.p, f, |m.logEntries|);
    LeaderStepOk(r, Step(r, Answered(f, m, rep)));
  }

  lemma FailureOk(r: Reign, f: ServerId, m: AppendRequest, rep: Reply)
    requires ReignOk(r) && Enabled(r, Answered(f, m, rep)) && !rep.ok
    ensures ReignOk(Step(r, Answered(f, m, rep)))
  {
    assert PacketOk(r, Answer(f, m, rep));
    LeaderStepOk(r, Step(r, Answered(f, m, rep)));
  }

  lemma MergedFollowerOk(st: State, log: seq<Entry>, commit: Index, ldr: State, end: nat)
    requires FollowerOk(st, ldr) && Matching(log, ldr.entries) && end <= |ldr.entries|
    requires log == st.entries || log == ldr.entries[..end]
    requires st.commitIdx <= commit && Agree(log, ldr.entries, commit + 1)
    ensures FollowerOk(st.(entries := log, commitIdx := commit), ldr)
    ensures Agree(st.entries, log, st.commitIdx + 1)
  {
  }

  lemma MergeOk(st: State, ldr: State, m: AppendRequest)
    requires FollowerOk(st, ldr) && CallOk(m, ldr) && AppendBody(st, m).rep.ok
    ensures var st' := AppendBody(st, m).st;
            && FollowerOk(st', ldr) && KeepsShared(st.entries, st'.entries, ldr.entries)
            && Agree(st'.entries, ldr.entries, m.prevLogIdx + |m.logEntries| + 1)
            && st.commitIdx <= st'.commitIdx && Agree(st.entries, st'.entries, st.commitIdx + 1)
  {
    var st' := AppendBody(st, m).st;
    CallMerges(st, m, ldr.entries);
    CommitBound(st, m, ldr.entries);
    MergeKeepsMatching(st.entries, ldr.entries, m.prevLogIdx, m.logEntries);
    assert Agree(st'.entries, ldr.entries, st.commitIdx + 1);
    MergedFollowerOk(st, st'.entries, st'.commitIdx, ldr, m.prevLogIdx + |m.logEntries| + 1);
  }

  /** A call of the leader's term never meets a larger one here, so the term rule as written never fires. */
  lemma AsWrittenIsBody(st: State, role: Role, m: AppendRequest)
    requires st.currentTerm <= m.term
    ensures var out := HandleAppend(AsWritten, st, role, m);
            out.st == ApplyReady(AppendBody(st, m).st) && out.rep == AppendBody(st, m).rep
  {
  }

  lemma BodyOk(st: State, ldr: State, m: AppendRequest)
    requires FollowerOk(st, ldr) && CallOk(m, ldr)
    ensures var out := AppendBody(st, m);
            && FollowerOk(out.st, ldr) && AnswerOk(out.st, m, out.rep, ldr)
            && KeepsShared(st.entries, out.st.entries, ldr.entries)
            && st.commitIdx <= out.st.commitIdx && Agree(st.entries, out.st.entries, st.commitIdx + 1)
            && (out.rep.ok <==> m.prevLogIdx < |st.entries| && st.entries[m.prevLogIdx].term == m.prevLogTerm)
  {
    if AppendBody(st, m).rep.ok { MergeOk(st, ldr, m); }
  }

  lemma AppliesInOrder(st: State, ldr: State)
    requires FollowerOk(st, ldr)
    ensures FollowerOk(ApplyReady(st), ldr) && st.applied <= ApplyReady(st).applied
  {
  }

  /** One delivery: the follower stays in order, loses nothing it shares with the leader, confirms only
      what it has, and never truncates or un-commits a committed index. */
  lemma DeliveryOk(st: State, ldr: State, role: Role, m: AppendRequest)
    requires FollowerOk(st, ldr) && CallOk(m, ldr)
    ensures var out := HandleAppend(AsWritten, st, role, m);
            && FollowerOk(out.st, ldr) && AnswerOk(out.st, m, out.rep, ldr)
            && KeepsShared(st.entries, out.st.entries, ldr.entries)
            && st.commitIdx <= out.st.commitIdx && Agree(st.entries, out.st.entries, st.commitIdx + 1)
            && st.applied <= out.st.applied
            && (out.rep.ok <==> m.prevLogIdx < |st.entries| && st.entries[m.prevLogIdx].term == m.prevLogTerm)
  {
    AsWrittenIsBody(st, role, m);
    BodyOk(st, ldr, m);
    AppliesInOrder(AppendBody(st, m).st, ldr);
  }

  lemma AnswersAfterDelivery(st: State, st': State, m: AppendRequest, rep: Reply, ldr: State)
    requires AnswerOk(st, m, rep, ldr) && KeepsShared(st.entries, st'.entries, ldr.entries)
    ensures AnswerOk(st', m, rep, ldr)
  {
  }

  lemma DeliverOk(r: Reign, f: ServerId, role: Role, m: AppendRequest)
    requires ReignOk(r) && Enabled(r, Deliver(f, role, m))
    ensures ReignOk(Step(r, Deliver(f, role, m)))
  {
    var r' := Step(r, Deliver(f, role, m));
    assert PacketOk(r, Call(f, m));
    DeliveryOk(r.flw[f], r.ldr, role, m);
    forall p | p in r'.net ensures PacketOk(r', p) {
      if p in r.net {
        assert PacketOk(r, p);
        if p.Answer? && p.from == f { AnswersAfterDelivery(r.flw[f], r'.flw[f], p.m, p.rep, r.ldr); }
      }
    }
  }

  lemma StepOk(r: Reign, e: Event)
    requires ReignOk(r) && Enabled(r, e)
    ensures ReignOk(Step(r, e))
  {
    match e
    case Add(cmd) => AddOk(r, cmd);
    case Send(f) => SendOk(r, f);
    case Deliver(f, role, m) => DeliverOk(r, f, role, m);
    case Answered(f, m, rep) => if rep.ok { SuccessOk(r, f, m, rep); } else { FailureOk(r, f, m, rep); }
  }

  ghost predicate Steps(rs: seq<Reign>, es: seq<Event>) {
    && |rs| == |es| + 1
    && forall k | 0 <= k < |es| :: Enabled(rs[k], es[k]) && rs[k + 1] == Step(rs[k], es[k])
  }

  ghost predicate Run(rs: seq<Reign>, es: seq<Event>) {
    Steps(rs, es) && Begins(rs[0])
  }

  lemma {:induction false} RunOk(rs: seq<Reign>, es: seq<Event>, k: nat)
    requires Run(rs, es) && k < |rs|
    ensures ReignOk(rs[k]) && rs[k].me == rs[0].me && |rs[k].flw| == |rs[0].flw|
  {
    if k == 0 {
      BeginsOk(rs[0]);
    } else {
      RunOk(rs, es, k - 1);
      assert Enabled(rs[k - 1], es[k - 1]) && rs[k] == Step(rs[k - 1], es[k - 1]);
      StepOk(rs[k - 1], es[k - 1]);
    }
  }

  /** Replication invariant: under loss, delay, repeats and reordering, what the leader believes a
      follower matched is in that follower's log; and on every server lastApplied <= commitIdx <
      entries.size(), with exactly entries 1..lastApplied applied. */
  lemma ReplicationInvariant(rs: seq<Reign>, es: seq<Event>, k: nat, f: ServerId)
    requires Run(rs, es) && k < |rs| && Peer(rs[k], f)
    ensures f < |rs[k].p.matchIdx|
    ensures Agree(rs[k].flw[f].entries, rs[k].ldr.entries, rs[k].p.matchIdx[f] + 1)
    ensures Matching(rs[k].flw[f].entries, rs[k].ldr.entries)
    ensures AppliedOk(rs[k].ldr) && AppliedOk(rs[k].flw[f])
  {
    RunOk(rs, es, k);
    assert FollowerOk(rs[k].flw[f], rs[k].ldr);
  }

  lemma StepApplies(r: Reign, e: Event, f: ServerId)
    requires ReignOk(r) && Enabled(r, e) && Peer(r, f)
    requires r.ldr.lastApplied == r.ldr.commitIdx && r.flw[f].lastApplied == r.flw[f].commitIdx
    ensures var r' := Step(r, e);
            && f < |r'.flw| && r'.ldr.lastApplied == r'.ldr.commitIdx
            && r'.flw[f].lastApplied == r'.flw[f].commitIdx
  {
    StepOk(r, e);
    assert FollowerOk(r.flw[f], r.ldr) && FollowerOk(Step(r, e).flw[f], Step(r, e).ldr);
  }

  /** Nothing committed is left unapplied, on the leader or any other server, if nothing was when it began. */
  lemma {:induction false} CommittedIsApplied(rs: seq<Reign>, es: seq<Event>, k: nat, f: ServerId)
    requires Run(rs, es) && k < |rs| && Peer(rs[0], f)
    requires rs[0].ldr.lastApplied == rs[0].ldr.commitIdx && rs[0].flw[f].lastApplied == rs[0].flw[f].commitIdx
    ensures Peer(rs[k], f) && rs[k].ldr.commitIdx < |rs[k].ldr.entries|
    ensures rs[k].flw[f].commitIdx < |rs[k].flw[f].entries|
    ensures rs[k].ldr.applied == rs[k].ldr.entries[1..rs[k].ldr.commitIdx + 1]
    ensures rs[k].flw[f].applied == rs[k].flw[f].entries[1..rs[k].flw[f].commitIdx + 1]
    ensures rs[k].ldr.lastApplied == rs[k].ldr.commitIdx && rs[k].flw[f].lastApplied == rs[k].flw[f].commitIdx
    decreases k
  {
    RunOk(rs, es, k);
    assert FollowerOk(rs[k].flw[f], rs[k].ldr);
    if k > 0 {
      CommittedIsApplied(rs, es, k - 1, f);
      RunOk(rs, es, k - 1);
      assert Enabled(rs[k - 1], es[k - 1]) && rs[k] == Step(rs[k - 1], es[k - 1]);
      StepApplies(rs[k - 1], es[k - 1], f);
    }
  }

  /** A later state of a follower still shares the first p entries, and has kept all it committed. */
  ghost predicate Kept(st: State, st': State, ldr: State, p: nat) {
    && Agree(st'.entries, ldr.entries, p)
    && st.commitIdx <= st'.commitIdx && Agree(st.entries, st'.entries, st.commitIdx + 1)
    && st.applied <= st'.applied
  }

  lemma StepKeepsShared(r: Reign, e: Event, f: ServerId, p: nat)
    requires ReignOk(r) && Enabled(r, e) && Peer(r, f) && Agree(r.flw[f].entries, r.ldr.entries, p)
    ensures Peer(Step(r, e), f) && Kept(r.flw[f], Step(r, e).flw[f], Step(r, e).ldr, p)
  {
    assert FollowerOk(r.flw[f], r.ldr);
    match e
    case Deliver(g, role, m) =>
      assert PacketOk(r, Call(g, m));
      if g == f { DeliveryOk(r.flw[f], r.ldr, role, m); }
    case Answered(g, m, rep) =>
      assert PacketOk(r, Answer(g, m, rep));
      if rep.ok { CountsInside(|r.flw|, r.ldr, r.p, g, |m.logEntries|); }
    case _ =>
  }

  lemma KeptTrans(a: State, b: State, c: State, ldr: State, ldr': State, p: nat)
    requires Kept(a, b, ldr, p) && Kept(b, c, ldr', p)
    ensures Kept(a, c, ldr', p)
  {
  }

  lemma KeptSelf(r: Reign, f: ServerId, p: nat)
    requires ReignOk(r) && Peer(r, f) && Agree(r.flw[f].entries, r.ldr.entries, p)
    ensures Kept(r.flw[f], r.flw[f], r.ldr, p)
  {
    assert FollowerOk(r.flw[f], r.ldr);
  }

  ghost predicate KeepsOn(xs: seq<State>, ldrs: seq<State>, k: nat, p: nat) {
    && k + 1 < |xs| == |ldrs|
    && (Agree(xs[k].entries, ldrs[k].entries, p) ==> Kept(xs[k], xs[k + 1], ldrs[k + 1], p))
  }

  lemma {:induction false} KeptAlong(xs: seq<State>, ldrs: seq<State>, i: nat, j: nat, p: nat)
    requires i <= j < |xs| == |ldrs| && Kept(xs[i], xs[i], ldrs[i], p)
    requires forall k | i <= k < j :: KeepsOn(xs, ldrs, k, p)
    ensures Kept(xs[i], xs[j], ldrs[j], p)
    decreases j
  {
    if i < j {
      KeptAlong(xs, ldrs, i, j - 1, p);
      assert KeepsOn(xs, ldrs, j - 1, p);
      KeptTrans(xs[i], xs[j - 1], xs[j], ldrs[j - 1], ldrs[j], p);
    }
  }

  lemma StepKeepsOn(rs: seq<Reign>, es: seq<Event>, k: nat, f: ServerId, p: nat)
    requires Run(rs, es) && k < |es| && Peer(rs[k], f)
    ensures Peer(rs[k + 1], f)
    ensures Agree(rs[k].flw[f].entries, rs[k].ldr.entries, p) ==>
              Kept(rs[k].flw[f], rs[k + 1].flw[f], rs[k + 1].ldr, p)
  {
    RunOk(rs, es, k);
    RunOk(rs, es, k + 1);
    assert Enabled(rs[k], es[k]) && rs[k + 1] == Step(rs[k], es[k]);
    if Agree(rs[k].flw[f].entries, rs[k].ldr.entries, p) { StepKeepsShared(rs[k], es[k], f, p); }
  }

  /** The shared prefix is never lost again, and neither is anything committed or applied. */
  lemma SharedPrefixIsForever(rs: seq<Reign>, es: seq<Event>, i: nat, j: nat, f: ServerId, p: nat)
    requires Run(rs, es) && i <= j < |rs| && Peer(rs[i], f) && Agree(rs[i].flw[f].entries, rs[i].ldr.entries, p)
    ensures Peer(rs[j], f) && Kept(rs[i].flw[f], rs[j].flw[f], rs[j].ldr, p)
  {
    forall k | 0 <= k < |rs| ensures Peer(rs[k], f) {
      RunOk(rs, es, i);
      RunOk(rs, es, k);
    }
    var xs := seq(|rs|, k requires 0 <= k < |rs| => rs[k].flw[f]);
    var ldrs := seq(|rs|, k requires 0 <= k < |rs| => rs[k].ldr);
    RunOk(rs, es, i);
    KeptSelf(rs[i], f, p);
    forall k | i <= k < j ensures KeepsOn(xs, ldrs, k, p) {
      StepKeepsOn(rs, es, k, f, p);
    }
    KeptAlong(xs, ldrs, i, j, p);
  }

  /** Nothing was added to the log between the snapshot an answer confirms and its counting. */
  predicate CountsWholeLog(r: Reign, e: Event) {
    e.Answered? && e.rep.ok ==> e.m.prevLogIdx + 1 + |e.m.logEntries| == |r.ldr.entries|
  }

  lemma CountsStayExact(r: Reign, e: Event)
    requires ReignOk(r) && Enabled(r, e) && CountsWholeLog(r, e) && CountsExact(r.p, r.me)
    ensures CountsExact(Step(r, e).p, r.me)
  {
    match e
    case Add(cmd) =>
      assert forall f | 0 <= f < |r.p.matchIdx| && f != r.me :: r.p.matchIdx[f] < |r.ldr.entries|;
      AddCountsExact(r, cmd);
    case Answered(f, m, rep) =>
      if rep.ok { CountsStayExactIff(|r.flw|, r.ldr, r.p, r.me, f, |m.logEntries|); }
    case _ =>
  }

  lemma AddCountsExact(r: Reign, cmd: Command)
    requires ReignOk(r) && CountsExact(r.p, r.me)
    ensures CountsExact(Step(r, Add(cmd)).p, r.me)
  {
  }

  /** Counting invariant: as long as every counted round confirmed the whole log, replicateNum[i] is 1
      plus the number of followers with matchIdx at least i. */
  lemma {:induction false} CountingInvariant(rs: seq<Reign>, es: seq<Event>, k: nat)
    requires Run(rs, es) && k < |rs|
    requires forall j | 0 <= j < k :: CountsWholeLog(rs[j], es[j])
    ensures CountsExact(rs[k].p, rs[k].me)
  {
    BeginsOk(rs[0]);
    if k > 0 {
      CountingInvariant(rs, es, k - 1);
      RunOk(rs, es, k - 1);
      assert Enabled(rs[k - 1], es[k - 1]) && rs[k] == Step(rs[k - 1], es[k - 1]);
      CountsStayExact(rs[k - 1], es[k - 1]);
    }
  }

  lemma {:induction false} OverdueAlong(rs: seq<Reign>, es: seq<Event>, k: nat)
    requires Run(rs, es) && k < |rs| && 2 <= |rs[0].flw|
    ensures NothingOverdue(|rs[k].flw|, rs[k].p, rs[k].ldr.commitIdx)
  {
    if k > 0 {
      OverdueAlong(rs, es, k - 1);
      RunOk(rs, es, k - 1);
      assert Enabled(rs[k - 1], es[k - 1]) && rs[k] == Step(rs[k - 1], es[k - 1]);
      StepNotOverdue(rs[k - 1], es[k - 1]);
    }
  }

  lemma StepNotOverdue(r: Reign, e: Event)
    requires ReignOk(r) && Enabled(r, e) && 2 <= |r.flw| && NothingOverdue(|r.flw|, r.p, r.ldr.commitIdx)
    ensures var r' := Step(r, e); NothingOverdue(|r'.flw|, r'.p, r'.ldr.commitIdx)
  {
    match e
    case Answered(f, m, rep) =>
      if rep.ok { NothingOverdueKept(|r.flw|, r.ldr, r.p, f, |m.logEntries|); }
    case _ =>
  }

  /** What the leader believes matched is in the logs of the servers it counts. */
  lemma HoldersStore(r: Reign, i: Index)
    requires ReignOk(r) && i < |r.ldr.entries|
    ensures forall v | v in Holders(r.p.matchIdx, r.me, i) ::
              v < |r.flw| && v != r.me && Agree(r.flw[v].entries, r.ldr.entries, i + 1)
  {
  }

  /** An index the leader newly commits is known to be in the logs of a strict majority, its own included, if
      and only if the count goes no further than what the round confirmed. */
  lemma CommittedOnMajority(r: Reign, f: ServerId, m: AppendRequest, rep: Reply)
    requires ReignOk(r) && Enabled(r, Answered(f, m, rep)) && rep.ok
    requires CountsExact(r.p, r.me) && NothingOverdue(|r.flw|, r.p, r.ldr.commitIdx)
    requires r.ldr.commitIdx < Step(r, Answered(f, m, rep)).ldr.commitIdx
    ensures var r' := Step(r, Answered(f, m, rep));
            && (Held(|r.flw|, r'.p, r.me, r'.ldr.commitIdx)
                <==> CountsNoFurther(|r.flw|, r.ldr, r.p, f, |m.logEntries|))
            && forall v | v in Holders(r'.p.matchIdx, r.me, r'.ldr.commitIdx) ::
                 v < |r.flw| && v != r.me && Agree(r'.flw[v].entries, r'.ldr.entries, r'.ldr.commitIdx + 1)
  {
    SuccessOk(r, f, m, rep);
    CommitHeldIff(|r.flw|, r.ldr, r.p, r.me, f, |m.logEntries|);
    HoldersStore(Step(r, Answered(f, m, rep)), Step(r, Answered(f, m, rep)).ldr.commitIdx);
  }

  /** Over a whole leadership whose earlier rounds were counted over what they confirmed. */
  lemma MajorityIff(rs: seq<Reign>, es: seq<Event>, k: nat)
    requires Run(rs, es) && k < |es| && forall j | 0 <= j < k :: CountsWholeLog(rs[j], es[j])
    requires rs[k].ldr.commitIdx < rs[k + 1].ldr.commitIdx
    ensures es[k].Answered? && es[k].f < |rs[k].p.nextIdx| && es[k].f < |rs[k].p.matchIdx|
    ensures Held(|rs[k].flw|, rs[k + 1].p, rs[k].me, rs[k + 1].ldr.commitIdx)
       <==> CountsNoFurther(|rs[k].flw|, rs[k].ldr, rs[k].p, es[k].f, |es[k].m.logEntries|)
  {
    RunOk(rs, es, k);
    CountingInvariant(rs, es, k);
    assert Enabled(rs[k], es[k]) && rs[k + 1] == Step(rs[k], es[k]);
    assert es[k].Answered? && es[k].rep.ok;
    OverdueAlong(rs, es, k);
    CommittedOnMajority(rs[k], es[k].f, es[k].m, es[k].rep);
  }
}
