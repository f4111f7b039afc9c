/** Snapshots of one append-only log, fed to a follower in any order and any number of times, and the
    leader's search for the point where the follower's log fits. */
module Snapshots {
  import opened RaftDefs
  import opened Handlers
  import opened LeaderState
  import opened Replication
  import opened Leadership

  /** A call, and the role of the server it arrives at. */
  datatype Arrival = Arrival(role: Role, m: AppendRequest)

  /** The called server after a sequence of calls. */
  function DeliverAll(st: State, ms: seq<Arrival>): State
    decreases |ms|
  {
    if ms == [] then st
    else DeliverAll(HandleAppend(AsWritten, st, ms[0].role, ms[0].m).st, ms[1..])
  }

  predicate Accepted(st: State, a: Arrival) {
    HandleAppend(AsWritten, st, a.role, a.m).rep.ok
  }

  /** Whatever the order: the shared prefix never shrinks, and it reaches past every snapshot that was
      accepted at its turn. */
  lemma {:induction false} MergeOrderInsensitive(st: State, ldr: State, ms: seq<Arrival>, p: nat)
    requires FollowerOk(st, ldr) && (forall a | a in ms :: CallOk(a.m, ldr))
    requires Agree(st.entries, ldr.entries, p)
    ensures var st' := DeliverAll(st, ms);
            && FollowerOk(st', ldr) && Agree(st'.entries, ldr.entries, p)
            && Agree(st.entries, st'.entries, st.commitIdx + 1) && st.applied <= st'.applied
    ensures forall k | 0 <= k < |ms| && Accepted(DeliverAll(st, ms[..k]), ms[k]) ::
              Agree(DeliverAll(st, ms).entries, ldr.entries, ms[k].m.prevLogIdx + |ms[k].m.logEntries| + 1)
    decreases |ms|
  {
    if ms == [] {
      assert Agree(st.entries, st.entries, st.commitIdx + 1);
    } else {
      var next := HandleAppend(AsWritten, st, ms[0].role, ms[0].m).st;
      DeliveryOk(st, ldr, ms[0].role, ms[0].m);
      MergeOrderInsensitive(next, ldr, ms[1..], p);
      if Accepted(st, ms[0]) {
        MergeOrderInsensitive(next, ldr, ms[1..], ms[0].m.prevLogIdx + |ms[0].m.logEntries| + 1);
      }
      forall k | 0 <= k < |ms| && Accepted(DeliverAll(st, ms[..k]), ms[k])
        ensures Agree(DeliverAll(st, ms).entries, ldr.entries, ms[k].m.prevLogIdx + |ms[k].m.logEntries| + 1)
      {
        if k > 0 {
          assert ms[..k][1..] == ms[1..][..k - 1] && ms[..k][0] == ms[0];
        }
      }
    }
  }

  /** Whatever the order of the calls, the commit index ends at or past that of every accepted one. */
  lemma {:induction false} CommitReaches(st: State, ldr: State, ms: seq<Arrival>, k: nat)
    requires FollowerOk(st, ldr) && (forall a | a in ms :: CallOk(a.m, ldr))
    requires k < |ms| && Accepted(DeliverAll(st, ms[..k]), ms[k])
    ensures ms[k].m.commitIdx <= DeliverAll(st, ms).commitIdx
    decreases |ms|
  {
    var next := HandleAppend(AsWritten, st, ms[0].role, ms[0].m).st;
    DeliveryOk(st, ldr, ms[0].role, ms[0].m);
    if k == 0 {
      assert DeliverAll(st, ms[..0]) == st;
      CallMerges(st, ms[0].m, ldr.entries);
      CommitBound(st, ms[0].m, ldr.entries);
      CommitNeverBack(next, ldr, ms[1..]);
    } else {
      assert ms[..k][1..] == ms[1..][..k - 1] && ms[..k][0] == ms[0];
      CommitReaches(next, ldr, ms[1..], k - 1);
    }
  }

  lemma {:induction false} CommitNeverBack(st: State, ldr: State, ms: seq<Arrival>)
    requires FollowerOk(st, ldr) && (forall a | a in ms :: CallOk(a.m, ldr))
    ensures st.commitIdx <= DeliverAll(st, ms).commitIdx
    decreases |ms|
  {
    if ms != [] {
      DeliveryOk(st, ldr, ms[0].role, ms[0].m);
      CommitNeverBack(HandleAppend(AsWritten, st, ms[0].role, ms[0].m).st, ldr, ms[1..]);
    }
  }

  /** An accepted call takes the follower's commit index to the one it carries, whatever its role and log. */
  lemma CallReaches(rule: TermRule, st: State, role: Role, m: AppendRequest)
    requires HandleAppend(rule, st, role, m).rep.ok && m.commitIdx <= m.prevLogIdx + |m.logEntries|
    ensures m.commitIdx <= HandleAppend(rule, st, role, m).st.commitIdx
  {
  }

  /** ... and a leader's call carries the leader's own. */
  lemma LeaderCommitReaches(rule: TermRule, g: State, role: Role, st: State, me: ServerId, next: Index)
    requires 1 <= next <= |st.entries| && st.commitIdx < |st.entries|
    ensures var out := HandleAppend(rule, g, role, CreateAppendEntries(st, me, next));
            out.rep.ok ==> st.commitIdx <= out.st.commitIdx
  {
    var m := CreateAppendEntries(st, me, next);
    if HandleAppend(rule, g, role, m).rep.ok { CallReaches(rule, g, role, m); }
  }

  /** What a call of `tryAppendEntries` left behind: the leader's state and tables, the notifications, how
      many calls it sent, and whether it ended in success. */
  datatype Attempt = Attempt(st: State, p: Progress, notes: seq<Note>, sends: nat, won: bool)

  /** One pass of the retry loop: the requests clients add while the call is underway, and its answer; none
      is an RPC error. */
  datatype Turn = Turn(adds: seq<Command>, answer: Option<Reply>)

  /** The retry loop of one round. The third error ends it, and so does a refusal at the lowest index. */
  function Try(n: nat, st: State, p: Progress, f: ServerId, turns: seq<Turn>, errors: nat): (a: Attempt)
    requires f < |p.nextIdx| && f < |p.matchIdx| && 1 <= p.nextIdx[f] <= |st.entries| && errors <= 2
    requires p.nextIdx[f] + 2 - errors <= |turns|
    ensures 1 <= a.sends <= p.nextIdx[f] + 2 - errors
    decreases p.nextIdx[f] + 2 - errors
  {
    var sent := |st.entries| - p.nextIdx[f];
    var now := AddAll(st, p, turns[0].adds);
    match turns[0].answer
    case None =>
      if errors == 2 then Attempt(now.0, now.1, [], 1, false)
      else
        var a := Try(n, now.0, now.1, f, turns[1..], errors + 1);
        a.(sends := a.sends + 1)
    case Some(rep) =>
      if rep.ok then
        var r := OnSuccess(n, now.0, now.1, f, sent);
        Attempt(r.0, r.1, [], 1, true)
      else
        var r := OnFailure(now.0, now.1, f, rep.term);
        if st.currentTerm < rep.term || p.nextIdx[f] == 1 then Attempt(r.0, r.1, r.2, 1, false)
        else
          var a := Try(n, r.0, r.1, f, turns[1..], errors);
          a.(sends := a.sends + 1)
  }

  /** After `sends` calls the rest of the round is what it would be from here. */
  ghost predicate Remains(goal: Attempt, sends: nat, rest: Attempt) {
    goal == rest.(sends := sends + rest.sends)
  }

  /** How many of the first k passes were errors. */
  function Errors(turns: seq<Turn>, k: nat): nat
    requires k <= |turns|
  {
    if k == 0 then 0 else Errors(turns, k - 1) + if turns[k - 1].answer == None then 1 else 0
  }

  lemma {:induction false} ErrorsShift(turns: seq<Turn>, k: nat)
    requires 0 < k <= |turns|
    ensures Errors(turns, k) == Errors(turns[1..], k - 1) + if turns[0].answer == None then 1 else 0
  {
    if k > 1 { ErrorsShift(turns, k - 1); }
  }

  /** Pass k does not end a round that started at `next` with some errors behind it: it is an error and not the
      third, or a refusal without a greater term above the lowest index. */
  predicate GoesOn(term: Term, next: Index, errors: nat, turns: seq<Turn>, k: nat)
    requires k < |turns|
  {
    match turns[k].answer
    case None => errors + Errors(turns, k) < 2
    case Some(rep) => !rep.ok && rep.term <= term && k - Errors(turns, k) + 1 < next
  }

  ghost predicate EndsAfter(term: Term, next: Index, errors: nat, turns: seq<Turn>, sends: nat) {
    && 1 <= sends <= |turns| && !GoesOn(term, next, errors, turns, sends - 1)
    && forall k | 0 <= k < sends - 1 :: GoesOn(term, next, errors, turns, k)
  }

  lemma EndsLater(term: Term, next: Index, next': Index, errors: nat, errors': nat, turns: seq<Turn>, sends: nat)
    requires |turns| > 0 && GoesOn(term, next, errors, turns, 0)
    requires if turns[0].answer == None then next' == next && errors' == errors + 1
             else next' + 1 == next && errors' == errors
    requires EndsAfter(term, next', errors', turns[1..], sends)
    ensures EndsAfter(term, next, errors, turns, sends + 1)
  {
    forall k | 1 <= k < sends + 1
      ensures GoesOn(term, next, errors, turns, k) <==> GoesOn(term, next', errors', turns[1..], k - 1)
    {
      ErrorsShift(turns, k);
    }
  }

  /** When a round ends: at the first pass that is accepted, meets a greater term, is refused at the lowest index,
      or is the third error; it is won in the first case only. */
  lemma {:induction false} TryEnds(n: nat, st: State, p: Progress, f: ServerId, turns: seq<Turn>, errors: nat)
    requires f < |p.nextIdx| && f < |p.matchIdx| && 1 <= p.nextIdx[f] <= |st.entries| && errors <= 2
    requires p.nextIdx[f] + 2 - errors <= |turns|
    ensures var a := Try(n, st, p, f, turns, errors);
            && EndsAfter(st.currentTerm, p.nextIdx[f], errors, turns, a.sends)
            && a.won == (turns[a.sends - 1].answer.Some? && turns[a.sends - 1].answer.value.ok)
    decreases p.nextIdx[f] + 2 - errors
  {
    var a, next, term := Try(n, st, p, f, turns, errors), p.nextIdx[f], st.currentTerm;
    var now := AddAll(st, p, turns[0].adds);
    match turns[0].answer
    case None =>
      if errors < 2 {
        TryEnds(n, now.0, now.1, f, turns[1..], errors + 1);
        EndsLater(term, next, next, errors, errors + 1, turns, a.sends - 1);
      }
    case Some(rep) =>
      if !rep.ok && rep.term <= term && 1 < next {
        var r := OnFailure(now.0, now.1, f, rep.term);
        TryEnds(n, r.0, r.1, f, turns[1..], errors);
        EndsLater(term, next, next - 1, errors, errors, turns, a.sends - 1);
      }
  }

  lemma TryPass(goal: Attempt, sends: nat, n: nat, st: State, p: Progress, f: ServerId, turns: seq<Turn>, errors: nat)
    requires f < |p.nextIdx| && f < |p.matchIdx| && 1 <= p.nextIdx[f] <= |st.entries| && errors <= 2
    requires p.nextIdx[f] + 2 - errors <= |turns| && Remains(goal, sends, Try(n, st, p, f, turns, errors))
    ensures var now := AddAll(st, p, turns[0].adds);
            match turns[0].answer
            case None => errors < 2 ==> Remains(goal, sends + 1, Try(n, now.0, now.1, f, turns[1..], errors + 1))
            case Some(rep) =>
              !rep.ok && rep.term <= st.currentTerm && 1 < p.nextIdx[f] ==>
                var r := OnFailure(now.0, now.1, f, rep.term);
                Remains(goal, sends + 1, Try(n, r.0, r.1, f, turns[1..], errors))
  {
  }

  /** The role of the called server when a call arrives, and the requests added meanwhile. */
  datatype Hop = Hop(role: Role, adds: seq<Command>)

  /** What a live server makes of a round: its last state, the leader's log its last call was cut from, and
      the turns of the loop. */
  datatype Visit = Visit(st: State, snapshot: seq<Entry>, turns: seq<Turn>)

  /** A live server whose every answer gets through, the leader starting one entry earlier after each
      refusal. */
  function Replies(
      rule: TermRule, st: State, p: Progress, me: ServerId, next: Index, g: State, hops: seq<Hop>): Visit
    requires 1 <= next <= |st.entries| && next <= |hops|
    decreases next
  {
    var out := HandleAppend(rule, g, hops[0].role, CreateAppendEntries(st, me, next));
    var turn := Turn(hops[0].adds, Some(out.rep));
    if out.rep.ok || next == 1 then Visit(out.st, st.entries, [turn])
    else
      var now := AddAll(st, p, hops[0].adds);
      var rest := Replies(rule, now.0, now.1, me, next - 1, out.st, hops[1..]);
      rest.(turns := [turn] + rest.turns)
  }

  /** Log Matching with a leader that may go on adding entries of its term. */
  ghost predicate Follows(g: State, st: State) {
    && |g.entries| > 0 && |st.entries| > 0 && g.currentTerm <= st.currentTerm
    && g.entries[0] == st.entries[0] && Matching(g.entries, st.entries)
    && forall i | 0 <= i < |g.entries| && g.entries[i].term == st.currentTerm :: i < |st.entries|
  }

  lemma FollowsOn(g: State, st: State, p: Progress, cmds: seq<Command>)
    requires Follows(g, st)
    ensures Follows(g, AddAll(st, p, cmds).0)
  {
    var log := AddAll(st, p, cmds).0.entries;
    forall i | 0 <= i < |g.entries| && i < |log| && g.entries[i].term == log[i].term
      ensures Agree(g.entries, log, i + 1)
    {
      assert i < |st.entries|;
      assert Agree(g.entries, st.entries, i + 1);
    }
  }

  lemma CallFits(st: State, me: ServerId, next: Index, z: State)
    requires 1 <= next <= |st.entries| && |z.entries| > 0 && z.currentTerm <= st.currentTerm
    requires z.entries[0] == st.entries[0] && Matching(z.entries, st.entries)
    ensures var out := AppendBody(z, CreateAppendEntries(st, me, next));
            && out.rep.term <= st.currentTerm && out.st.currentTerm == z.currentTerm
            && (out.rep.ok ==> Agree(out.st.entries, st.entries, |st.entries|))
            && (!out.rep.ok ==> 1 < next && out.st == z)
  {
    var m := CreateAppendEntries(st, me, next);
    if AppendBody(z, m).rep.ok { MergeShape(z.entries, st.entries, m.prevLogIdx, m.logEntries); }
  }

  lemma OneCall(rule: TermRule, role: Role, st: State, me: ServerId, next: Index, g: State)
    requires 1 <= next <= |st.entries| && Follows(g, st)
    ensures var out := HandleAppend(rule, g, role, CreateAppendEntries(st, me, next));
            && out.rep.term <= st.currentTerm
            && (out.rep.ok ==> Agree(out.st.entries, st.entries, |st.entries|))
            && (!out.rep.ok ==> 1 < next && Follows(out.st, st))
  {
    CallFits(st, me, next, CheckRpcTerm(rule, g, st.currentTerm));
  }

  lemma TryWon(n: nat, st: State, p: Progress, f: ServerId, turns: seq<Turn>)
    requires f < |p.nextIdx| && f < |p.matchIdx| && 1 <= p.nextIdx[f] <= |st.entries|
    requires p.nextIdx[f] + 2 <= |turns| && turns[0].answer.Some? && turns[0].answer.value.ok
    ensures var a := Try(n, st, p, f, turns, 0);
            && a.won && a.sends == 1
            && a.p.matchIdx == p.matchIdx[f := |st.entries| - 1] && a.p.nextIdx == p.nextIdx[f := |st.entries|]
  {
  }

  lemma TryRefused(
      n: nat, st: State, p: Progress, f: ServerId, turns: seq<Turn>, now: State, p': Progress)
    returns (b: Attempt)
    requires f < |p.nextIdx| && f < |p.matchIdx| && 1 < p.nextIdx[f] <= |st.entries|
    requires p.nextIdx[f] + 2 <= |turns| && turns[0].answer.Some? && !turns[0].answer.value.ok
    requires turns[0].answer.value.term <= st.currentTerm
    requires var grown := AddAll(st, p, turns[0].adds);
             now == grown.0 && p' == grown.1.(nextIdx := p.nextIdx[f := p.nextIdx[f] - 1])
    ensures p'.nextIdx == p.nextIdx[f := p.nextIdx[f] - 1] && p'.matchIdx == p.matchIdx && |st.entries| <= |now.entries|
    ensures b == Try(n, now, p', f, turns[1..], 0) && Try(n, st, p, f, turns, 0) == b.(sends := b.sends + 1)
  {
    b := Try(n, now, p', f, turns[1..], 0);
  }

  /** The round ended in success, one call per turn, with the leader's log, as it was when the last call was
      cut from it, a prefix of the server's and recorded as matched; and the server has committed all the leader,
      whose commit index is `commit`, had. */
  ghost predicate Converged(p: Progress, f: ServerId, v: Visit, a: Attempt, commit: Index)
    requires f < |p.nextIdx| && f < |p.matchIdx|
  {
    && a.won && a.sends == |v.turns| <= p.nextIdx[f] && |v.snapshot| > 0
    && Agree(v.st.entries, v.snapshot, |v.snapshot|) && (commit < |v.snapshot| ==> commit <= v.st.commitIdx)
    && a.p.matchIdx == p.matchIdx[f := |v.snapshot| - 1] && a.p.nextIdx == p.nextIdx[f := |v.snapshot|]
  }

  lemma ConvergedLater(p: Progress, p': Progress, f: ServerId, v: Visit, b: Attempt, commit: Index, first: Turn)
    requires f < |p.nextIdx| && f < |p.matchIdx| && 1 < p.nextIdx[f]
    requires p'.nextIdx == p.nextIdx[f := p.nextIdx[f] - 1] && p'.matchIdx == p.matchIdx
    requires Converged(p', f, v, b, commit)
    ensures Converged(p, f, v.(turns := [first] + v.turns), b.(sends := b.sends + 1), commit)
  {
    assert p.nextIdx[f := p.nextIdx[f] - 1][f := |v.snapshot|] == p.nextIdx[f := |v.snapshot|];
  }

  /** The leader's tables have no say in what it sends. */
  lemma {:induction false} AddAllSame(st: State, p: Progress, p': Progress, cmds: seq<Command>)
    ensures AddAll(st, p, cmds).0 == AddAll(st, p', cmds).0
    decreases |cmds|
  {
    if cmds != [] {
      AddAllSame(AddLog(st, p, cmds[0]).0, AddLog(st, p, cmds[0]).1, AddLog(st, p', cmds[0]).1, cmds[1..]);
    }
  }

  lemma {:induction false} RepliesSame(
      rule: TermRule, st: State, p: Progress, p': Progress, me: ServerId, next: Index, g: State, hops: seq<Hop>)
    requires 1 <= next <= |st.entries| && next <= |hops|
    ensures Replies(rule, st, p, me, next, g, hops) == Replies(rule, st, p', me, next, g, hops)
    decreases next
  {
    var out := HandleAppend(rule, g, hops[0].role, CreateAppendEntries(st, me, next));
    if !out.rep.ok && next > 1 {
      var now, now' := AddAll(st, p, hops[0].adds), AddAll(st, p', hops[0].adds);
      AddAllSame(st, p, p', hops[0].adds);
      RepliesSame(rule, now.0, now.1, now'.1, me, next - 1, out.st, hops[1..]);
    }
  }

  /** What the server makes of the rest of a round whose first call it refused. */
  lemma VisitGoesOn(
      rule: TermRule, st: State, p: Progress, p': Progress, me: ServerId, next: Index, g: State, hops: seq<Hop>,
      v: Visit)
    returns (g': State, now: State, v': Visit)
    requires 1 <= next <= |st.entries| && next <= |hops| && Follows(g, st)
    requires !HandleAppend(rule, g, hops[0].role, CreateAppendEntries(st, me, next)).rep.ok
    requires v == Replies(rule, st, p, me, next, g, hops)
    ensures 1 < next <= |now.entries| && Follows(g', now) && now == AddAll(st, p, hops[0].adds).0
    ensures v' == Replies(rule, now, p', me, next - 1, g', hops[1..])
    ensures |v.turns| > 0 && v == v'.(turns := [v.turns[0]] + v'.turns) && v.turns[0].adds == hops[0].adds
    ensures v.turns[0].answer.Some? && !v.turns[0].answer.value.ok && v.turns[0].answer.value.term <= st.currentTerm
  {
    var out := HandleAppend(rule, g, hops[0].role, CreateAppendEntries(st, me, next));
    OneCall(rule, hops[0].role, st, me, next, g);
    g', now := out.st, AddAll(st, p, hops[0].adds).0;
    FollowsOn(g', st, p, hops[0].adds);
    RepliesSame(rule, now, AddAll(st, p, hops[0].adds).1, p', me, next - 1, g', hops[1..]);
    v' := Replies(rule, now, p', me, next - 1, g', hops[1..]);
  }

  lemma VisitEnds(
      rule: TermRule, st: State, p: Progress, me: ServerId, next: Index, g: State, hops: seq<Hop>, v: Visit)
    requires 1 <= next <= |st.entries| && next <= |hops| && Follows(g, st)
    requires HandleAppend(rule, g, hops[0].role, CreateAppendEntries(st, me, next)).rep.ok
    requires v == Replies(rule, st, p, me, next, g, hops)
    ensures |v.turns| == 1 && v.turns[0].answer.Some? && v.turns[0].answer.value.ok
    ensures v.snapshot == st.entries && Agree(v.st.entries, st.entries, |st.entries|)
    ensures st.commitIdx < |st.entries| ==> st.commitIdx <= v.st.commitIdx
  {
    OneCall(rule, hops[0].role, st, me, next, g);
    if st.commitIdx < |st.entries| { LeaderCommitReaches(rule, g, hops[0].role, st, me, next); }
  }

  lemma RoundWins(
      rule: TermRule, n: nat, st: State, p: Progress, me: ServerId, f: ServerId, g: State,
      hops: seq<Hop>, v: Visit, turns: seq<Turn>)
    requires f < |p.nextIdx| && f < |p.matchIdx| && 1 <= p.nextIdx[f] <= |st.entries| && Follows(g, st)
    requires p.nextIdx[f] <= |hops| && p.nextIdx[f] + 2 <= |turns|
    requires HandleAppend(rule, g, hops[0].role, CreateAppendEntries(st, me, p.nextIdx[f])).rep.ok
    requires v == Replies(rule, st, p, me, p.nextIdx[f], g, hops) && v.turns <= turns
    ensures Converged(p, f, v, Try(n, st, p, f, turns, 0), st.commitIdx)
  {
    VisitEnds(rule, st, p, me, p.nextIdx[f], g, hops, v);
    assert turns[0] == v.turns[0];
    TryWon(n, st, p, f, turns);
  }

  lemma FirstTurn(first: Turn, rest: seq<Turn>, turns: seq<Turn>)
    requires [first] + rest <= turns
    ensures turns[0] == first && rest <= turns[1..]
  {
    assert rest == ([first] + rest)[1..];
  }

  /** Where the round stands after a refused first call. */
  lemma RoundGoesOn(
      rule: TermRule, n: nat, st: State, p: Progress, me: ServerId, f: ServerId, g: State,
      hops: seq<Hop>, v: Visit, turns: seq<Turn>)
    returns (now: State, p': Progress, g': State, v': Visit, b: Attempt)
    requires f < |p.nextIdx| && f < |p.matchIdx| && 1 <= p.nextIdx[f] <= |st.entries| && Follows(g, st)
    requires p.nextIdx[f] <= |hops| && p.nextIdx[f] + 2 <= |turns|
    requires !HandleAppend(rule, g, hops[0].role, CreateAppendEntries(st, me, p.nextIdx[f])).rep.ok
    requires v == Replies(rule, st, p, me, p.nextIdx[f], g, hops) && v.turns <= turns
    ensures 1 < p.nextIdx[f] <= |now.entries| && Follows(g', now) && now.commitIdx == st.commitIdx
    ensures p'.nextIdx == p.nextIdx[f := p.nextIdx[f] - 1] && p'.matchIdx == p.matchIdx
    ensures v' == Replies(rule, now, p', me, p.nextIdx[f] - 1, g', hops[1..]) && v'.turns <= turns[1..]
    ensures v == v'.(turns := [turns[0]] + v'.turns)
    ensures b == Try(n, now, p', f, turns[1..], 0) && Try(n, st, p, f, turns, 0) == b.(sends := b.sends + 1)
  {
    p' := AddAll(st, p, hops[0].adds).1.(nextIdx := p.nextIdx[f := p.nextIdx[f] - 1]);
    g', now, v' := VisitGoesOn(rule, st, p, p', me, p.nextIdx[f], g, hops, v);
    FirstTurn(v.turns[0], v'.turns, turns);
    b := TryRefused(n, st, p, f, turns, now, p');
  }

  /** Back-off converges, whatever clients add meanwhile and whatever role the called server is in: since all
      logs share index 0, the round ends in success, after at most as many calls as the index it started
      from, with the leader's log at the last call a prefix of the server's and recorded as matched, and with all
      the leader had committed committed there. */
  lemma {:induction false} BackOffConverges(
      rule: TermRule, n: nat, st: State, p: Progress, me: ServerId, f: ServerId, g: State,
      hops: seq<Hop>, v: Visit, turns: seq<Turn>)
    requires f < |p.nextIdx| && f < |p.matchIdx| && 1 <= p.nextIdx[f] <= |st.entries| && Follows(g, st)
    requires p.nextIdx[f] <= |hops| && p.nextIdx[f] + 2 <= |turns|
    requires v == Replies(rule, st, p, me, p.nextIdx[f], g, hops) && v.turns <= turns
    ensures Converged(p, f, v, Try(n, st, p, f, turns, 0), st.commitIdx)
    decreases p.nextIdx[f]
  {
    if HandleAppend(rule, g, hops[0].role, CreateAppendEntries(st, me, p.nextIdx[f])).rep.ok {
      RoundWins(rule, n, st, p, me, f, g, hops, v, turns);
    } else {
      var now, p', g', v', b := RoundGoesOn(rule, n, st, p, me, f, g, hops, v, turns);
      BackOffConverges(rule, n, now, p', me, f, g', hops[1..], v', turns[1..]);
      ConvergedLater(p, p', f, v', b, st.commitIdx, turns[0]);
    }
  }
}
