/** Where log entries come from, and how what a server applied grows: for every run, guarded or not. */
module Origins {
  import opened RaftDefs
  import opened Handlers
  import opened LeaderState
  import opened Cluster

  /** The client request an entry carries. */
  function CommandOf(e: Entry): Command {
    Command(e.opName, e.args, e.prmIdx, e.srvId)
  }

  ghost predicate AllAsked(es: seq<Entry>, asked: set<Command>) {
    forall i | 0 <= i < |es| :: CommandOf(es[i]) in asked
  }

  /** All entries after the initial one carry requests that were made. */
  ghost predicate StateAsked(st: State, asked: set<Command>) {
    && |st.entries| > 0 && st.entries[0] == SENTINEL
    && AllAsked(st.entries[1..], asked) && AllAsked(st.applied, asked)
  }

  ghost predicate AllOriginal(c: Cluster, asked: set<Command>) {
    && (forall s | 0 <= s < |c.servers| :: StateAsked(c.servers[s].st, asked))
    && forall p | p in c.net && p.AppendCall? :: AllAsked(p.append.logEntries, asked)
  }

  lemma NotifyKeepsState(n: nat, x: Server, notes: seq<Note>)
    ensures NotifyAll(n, x, notes).st == x.st
    decreases |notes|
  {
    if notes != [] { NotifyKeepsState(n, Notified(n, x, notes[0]), notes[1..]); }
  }

  /** How a step may change the state it happens at: the log is kept, or gets the leader's new entry, or is
      merged with a call; and what was applied is extended from that log. */
  ghost predicate Evolves(st: State, st': State, asked: set<Command>) {
    && (StateAsked(st, asked) ==> StateAsked(st', asked))
    && st.applied <= st'.applied
  }

  lemma ApplyEvolves(st: State, asked: set<Command>)
    ensures Evolves(st, ApplyReady(st), asked)
  {
    if st.lastApplied < st.commitIdx < |st.entries| {
      var more := st.entries[st.lastApplied + 1..st.commitIdx + 1];
      assert forall i | 0 <= i < |more| :: more[i] == st.entries[1..][st.lastApplied + i];
    }
  }

  lemma MergeAsked(log: seq<Entry>, prev: Index, es: seq<Entry>, asked: set<Command>)
    requires prev < |log| && log[0] == SENTINEL && AllAsked(log[1..], asked) && AllAsked(es, asked)
    ensures var m := Merge(log, prev, es); |m| > 0 && m[0] == SENTINEL && AllAsked(m[1..], asked)
  {
    var k := MatchFrom(log, prev + 1, es, 0);
    var m := Merge(log, prev, es);
    forall i | 0 <= i < |m| - 1 ensures CommandOf(m[1..][i]) in asked {
      if k != |es| && prev + k <= i {
        assert m[i + 1] == es[i - prev];
      } else {
        assert m[i + 1] == log[1..][i];
      }
    }
  }

  lemma VoteEvolves(rule: TermRule, st: State, role: Role, vote: VoteRequest, asked: set<Command>)
    requires |st.entries| > 0
    ensures Evolves(st, HandleVote(rule, st, role, vote).st, asked)
  {
    ApplyEvolves(VoteBody(CheckRpcTerm(rule, st, vote.term), role, vote).st, asked);
  }

  lemma AppendEvolves(rule: TermRule, st: State, role: Role, m: AppendRequest, asked: set<Command>)
    requires AllAsked(m.logEntries, asked)
    ensures Evolves(st, HandleAppend(rule, st, role, m).st, asked)
  {
    var z := CheckRpcTerm(rule, st, m.term);
    var out := AppendBody(z, m);
    if out.rep.ok && StateAsked(st, asked) { MergeAsked(z.entries, m.prevLogIdx, m.logEntries, asked); }
    ApplyEvolves(out.st, asked);
  }

  lemma AddEvolves(st: State, p: Progress, cmd: Command, asked: set<Command>)
    requires cmd in asked
    ensures Evolves(st, AddLog(st, p, cmd).0, asked)
  {
    var log := AddLog(st, p, cmd).0.entries;
    if StateAsked(st, asked) && log != st.entries {
      assert log[1..] == st.entries[1..] + [log[|log| - 1]];
    }
  }

  /** The requests made after an event. */
  function Asked(asked: set<Command>, e: Event): set<Command> {
    if e.ClientCall? then asked + {e.cmd} else asked
  }

  lemma AnswerEvolves(c: Cluster, e: Event, asked: set<Command>)
    requires Enabled(c, e) && e.AppendAnswered?
    ensures Evolves(c.servers[e.s].st, After(|c.servers|, c.servers[e.s], e).st, asked)
  {
    var n, x := |c.servers|, c.servers[e.s];
    if e.rep.ok {
      var commit := CountLoop(n, x.progress.replicateNum, x.st.commitIdx, x.progress.matchIdx[e.from] + 1).1;
      ApplyEvolves(x.st.(commitIdx := commit), asked);
    } else {
      var r := OnFailure(x.st, x.progress, e.from, e.rep.term);
      NotifyKeepsState(n, x.(st := r.0, progress := r.1), r.2);
    }
  }

  lemma AfterEvolves(c: Cluster, e: Event, asked: set<Command>)
    requires Enabled(c, e)
    requires e.DeliverAppend? ==> AllAsked(e.append.logEntries, Asked(asked, e))
    ensures Evolves(c.servers[e.s].st, After(|c.servers|, c.servers[e.s], e).st, Asked(asked, e))
  {
    var x := c.servers[e.s];
    match e
    case DeliverVote(_, vote, clears) =>
      var out := HandleVote(AsDocumented(clears), x.st, x.role, vote);
      VoteEvolves(AsDocumented(clears), x.st, x.role, vote, asked);
      NotifyKeepsState(|c.servers|, x.(st := out.st), out.notes);
    case DeliverAppend(_, append, clears) =>
      var out := HandleAppend(AsDocumented(clears), x.st, x.role, append);
      AppendEvolves(AsDocumented(clears), x.st, x.role, append, asked);
      NotifyKeepsState(|c.servers|, x.(st := out.st), out.notes);
    case ClientCall(_, cmd) => AddEvolves(x.st, x.progress, cmd, Asked(asked, e));
    case AppendAnswered(_, _, _, _) => AnswerEvolves(c, e, asked);
    case _ =>
  }

  lemma SuffixAsked(log: seq<Entry>, start: nat, asked: set<Command>)
    requires 1 <= start <= |log| && AllAsked(log[1..], asked)
    ensures AllAsked(log[start..], asked)
  {
    assert forall i | 0 <= i < |log| - start :: log[start..][i] == log[1..][start - 1 + i];
  }

  lemma SentAsked(c: Cluster, e: Event, asked: set<Command>)
    requires Enabled(c, e) && StateAsked(c.servers[e.s].st, asked)
    ensures forall p | p in Sent(|c.servers|, c.servers[e.s], e) && p.AppendCall? ::
              AllAsked(p.append.logEntries, asked)
  {
    if e.Send? {
      SuffixAsked(c.servers[e.s].st.entries, c.servers[e.s].progress.nextIdx[e.f], asked);
    }
  }

  lemma StepOriginal(c: Cluster, e: Event, asked: set<Command>)
    requires AllOriginal(c, asked) && Enabled(c, e)
    ensures AllOriginal(Step(c, e), Asked(asked, e))
  {
    if e.DeliverAppend? { assert AppendCall(e.s, e.append) in c.net; }
    AfterEvolves(c, e, asked);
    assert StateAsked(c.servers[e.s].st, asked);
    SentAsked(c, e, asked);
  }

  /** What a server applied is only ever extended. */
  lemma AppliedGrows(c: Cluster, e: Event, a: ServerId)
    requires Enabled(c, e) && a < |c.servers|
    ensures c.servers[a].st.applied <= Step(c, e).servers[a].st.applied
  {
    if a == e.s {
      var all := if e.DeliverAppend? then set x | x in e.append.logEntries :: CommandOf(x) else {};
      AfterEvolves(c, e, all);
    }
  }

  /** The requests clients made in a run. */
  ghost function Requests(es: seq<Event>): set<Command> {
    set k | 0 <= k < |es| && es[k].ClientCall? :: es[k].cmd
  }

  lemma {:induction false} RunOriginal(n: nat, cs: seq<Cluster>, es: seq<Event>, k: nat)
    requires Run(n, cs, es) && k < |cs|
    ensures AllOriginal(cs[k], Requests(es[..k]))
  {
    if k == 0 {
    } else {
      RunOriginal(n, cs, es, k - 1);
      assert Enabled(cs[k - 1], es[k - 1]) && cs[k] == Step(cs[k - 1], es[k - 1]);
      StepOriginal(cs[k - 1], es[k - 1], Requests(es[..k - 1]));
      RequestsSnoc(es, k);
    }
  }

  lemma RequestsSnoc(es: seq<Event>, k: nat)
    requires 0 < k <= |es|
    ensures Requests(es[..k]) == Asked(Requests(es[..k - 1]), es[k - 1])
  {
    forall cmd | cmd in Asked(Requests(es[..k - 1]), es[k - 1]) ensures cmd in Requests(es[..k]) {
      if cmd in Requests(es[..k - 1]) {
        var i :| 0 <= i < k - 1 && es[..k - 1][i].ClientCall? && es[..k - 1][i].cmd == cmd;
        assert es[..k][i] == es[i];
      } else {
        assert es[..k][k - 1] == es[k - 1];
      }
    }
    forall cmd | cmd in Requests(es[..k]) ensures cmd in Asked(Requests(es[..k - 1]), es[k - 1]) {
      var i :| 0 <= i < k && es[..k][i].ClientCall? && es[..k][i].cmd == cmd;
      if i < k - 1 { assert es[..k - 1][i] == es[i]; }
    }
  }

  /** An entry somewhere in the cluster: after the initial one in a log, applied, or in a call in flight. */
  ghost predicate Occurs(c: Cluster, e: Entry) {
    || (exists s, i :: 0 <= s < |c.servers| && 0 < i < |c.servers[s].st.entries| && c.servers[s].st.entries[i] == e)
    || (exists s :: 0 <= s < |c.servers| && e in c.servers[s].st.applied)
    || (exists p :: p in c.net && p.AppendCall? && e in p.append.logEntries)
  }

  /** Validity: in every run, every entry but the initial one carries exactly a request that a client made
      before. */
  lemma EntriesWereAsked(n: nat, cs: seq<Cluster>, es: seq<Event>, k: nat, e: Entry)
    requires Run(n, cs, es) && k < |cs| && Occurs(cs[k], e)
    ensures exists j :: 0 <= j < k && es[j].ClientCall? && es[j].cmd == CommandOf(e)
  {
    RunOriginal(n, cs, es, k);
    if s, i :| 0 <= s < |cs[k].servers| && 0 < i < |cs[k].servers[s].st.entries|
               && cs[k].servers[s].st.entries[i] == e {
      assert cs[k].servers[s].st.entries[1..][i - 1] == e;
    }
    assert CommandOf(e) in Requests(es[..k]);
    var j :| 0 <= j < k && es[..k][j].ClientCall? && es[..k][j].cmd == CommandOf(e);
    assert es[j] == es[..k][j];
  }
}
