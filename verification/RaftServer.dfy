/** The role gate and the dispatch by current role as they run. */
module RaftServer {
  import opened RaftDefs
  import opened LeaderState
  import opened Cluster
  import opened Snapshots
  import opened IdentityBase
  import opened IdentityRoles

  /** What the transformer lets through, in order, starting with its gate at `gate`. */
  function Passed(gate: Term, terms: seq<Term>): seq<Term>
    decreases |terms|
  {
    if terms == [] then []
    else if Accepts(gate, terms[0]) then [terms[0]] + Passed(terms[0], terms[1..])
    else Passed(gate, terms[1..])
  }

  lemma {:induction false} PassedAbove(gate: Term, terms: seq<Term>)
    ensures forall i | 0 <= i < |Passed(gate, terms)| && gate > 0 :: gate < Passed(gate, terms)[i]
    ensures forall i, j | 0 <= i < j < |Passed(gate, terms)| && 0 < Passed(gate, terms)[i] ::
              Passed(gate, terms)[i] < Passed(gate, terms)[j]
    decreases |terms|
  {
    if terms != [] {
      PassedAbove(gate, terms[1..]);
      PassedAbove(terms[0], terms[1..]);
    }
  }

  /** Whatever is notified and however often: accepted transitions above term 0 have strictly increasing
      terms. */
  lemma AcceptedTermsIncrease(terms: seq<Term>)
    ensures var p := Passed(0, terms); forall i, j | 0 <= i < j < |p| && 0 < p[i] :: p[i] < p[j]
  {
    PassedAbove(0, terms);
  }

  /** One transition per term has a price: a server that stepped down in term t stays a follower through
      every election timeout of term t. The timeout opens a candidacy exactly when the gate is behind. */
  lemma TimeoutOpensIff(n: nat, s: ServerId, x: Server)
    requires |x.st.entries| > 0 && (x.role == Follower || x.role == Candidate)
    ensures var y := After(n, x, Timeout(s));
            (y.st.currentTerm == x.st.currentTerm + 1 <==> x.gate == 0 || x.gate < x.st.currentTerm)
            && (y.st.currentTerm != x.st.currentTerm + 1 ==> y == x)
  {
  }

  /** Where the gate stands after a sequence of notifications. */
  function GateAfter(gate: Term, terms: seq<Term>): Term
    decreases |terms|
  {
    if terms == [] then gate
    else GateAfter(if Accepts(gate, terms[0]) then terms[0] else gate, terms[1..])
  }

  lemma {:induction false} PassedSnoc(gate: Term, terms: seq<Term>, term: Term)
    ensures GateAfter(gate, terms + [term])
         == if Accepts(GateAfter(gate, terms), term) then term else GateAfter(gate, terms)
    ensures Passed(gate, terms + [term])
         == Passed(gate, terms) + if Accepts(GateAfter(gate, terms), term) then [term] else []
    decreases |terms|
  {
    if terms == [] {
      assert [term][1..] == [];
    } else {
      assert (terms + [term])[1..] == terms[1..] + [term];
      PassedSnoc(if Accepts(gate, terms[0]) then terms[0] else gate, terms[1..], term);
    }
  }

  class IdentityTransformer {
    var termTriggered: Term
    /** Every term it was notified of, and those it let through. */
    ghost var heard: seq<Term>
    ghost var passed: seq<Term>

    ghost predicate Valid()
      reads this
    {
      termTriggered == GateAfter(0, heard) && passed == Passed(0, heard)
    }

    constructor ()
      ensures Valid() && termTriggered == 0 && heard == []
    {
      termTriggered, heard, passed := 0, [], [];
    }

    method Notify(term: Term) returns (accepted: bool)
      requires Valid()
      modifies this
      ensures Valid() && heard == old(heard) + [term]
      ensures passed == old(passed) + if accepted then [term] else []
      ensures forall i, j | 0 <= i < j < |passed| && 0 < passed[i] :: passed[i] < passed[j]
      ensures accepted == Accepts(old(termTriggered), term)
      ensures termTriggered == if accepted then term else old(termTriggered)
    {
      PassedSnoc(0, heard, term);
      accepted := termTriggered == 0 || termTriggered < term;
      if accepted {
        termTriggered := term;
        passed := passed + [term];
      }
      heard := heard + [term];
      AcceptedTermsIncrease(heard);
    }
  }

  /** The server after a transformation, its gate aside. */
  function Transformed(n: nat, me: ServerId, x: Server, target: Role): Server {
    if target == Candidate then Standing(me, x).(gate := x.gate)
    else Become(x, target).(progress := Tables(n, target, |x.st.entries|))
  }

  /** What a new identity says to the transformer at once. */
  function Asks(n: nat, target: Role, term: Term): seq<Note> {
    if target == Candidate && 1 > n / 2 then [Note(Leader, term)] else []
  }

  /** Client requests that reach a leader one after the other, each a step of the cluster. */
  function AfterCalls(n: nat, me: ServerId, x: Server, cmds: seq<Command>): (y: Server)
    requires x.role == Leader && |x.st.entries| > 0
    ensures y == x.(st := y.st, progress := y.progress)
    ensures (y.st, y.progress) == AddAll(x.st, x.progress, cmds)
    decreases |cmds|
  {
    if cmds == [] then x else AfterCalls(n, me, After(n, x, ClientCall(me, cmds[0])), cmds[1..])
  }

  predicate CanSend(x: Server, f: ServerId) {
    && x.role == Leader && f < |x.progress.nextIdx| && f < |x.progress.matchIdx|
    && 1 <= x.progress.nextIdx[f] <= |x.st.entries|
  }

  /** A round as steps of the cluster: after each call the requests that arrive meanwhile, then its answer. */
  function RoundSteps(n: nat, me: ServerId, f: ServerId, x: Server, turns: seq<Turn>, errors: nat): Server
    requires CanSend(x, f) && errors <= 2 && x.progress.nextIdx[f] + 2 - errors <= |turns|
    decreases x.progress.nextIdx[f] + 2 - errors
  {
    var msg := CreateAppendEntries(x.st, me, x.progress.nextIdx[f]);
    var y := AfterCalls(n, me, x, turns[0].adds);
    match turns[0].answer
    case None => if errors == 2 then y else RoundSteps(n, me, f, y, turns[1..], errors + 1)
    case Some(rep) =>
      var z := After(n, y, AppendAnswered(me, f, msg, rep));
      if rep.ok || x.st.currentTerm < rep.term || x.progress.nextIdx[f] == 1 then z
      else RoundSteps(n, me, f, z, turns[1..], errors)
  }

  /** A refusal that does not end the round only moves the leader's tables. */
  lemma BacksOff(n: nat, me: ServerId, f: ServerId, y: Server, msg: AppendRequest, rep: Reply)
    requires CanSend(y, f) && !rep.ok && rep.term <= y.st.currentTerm
    ensures After(n, y, AppendAnswered(me, f, msg, rep))
         == y.(st := OnFailure(y.st, y.progress, f, rep.term).0, progress := OnFailure(y.st, y.progress, f, rep.term).1)
  {
  }

  /** What a round leaves behind is what these steps lead to. */
  lemma {:induction false} RoundIsSteps(n: nat, me: ServerId, f: ServerId, x: Server, turns: seq<Turn>, errors: nat)
    requires CanSend(x, f) && errors <= 2 && x.progress.nextIdx[f] + 2 - errors <= |turns|
    ensures var a := Try(n, x.st, x.progress, f, turns, errors);
            RoundSteps(n, me, f, x, turns, errors) == NotifyAll(n, x.(st := a.st, progress := a.p), a.notes)
    decreases x.progress.nextIdx[f] + 2 - errors
  {
    var msg := CreateAppendEntries(x.st, me, x.progress.nextIdx[f]);
    var y := AfterCalls(n, me, x, turns[0].adds);
    match turns[0].answer
    case None => if errors < 2 { RoundIsSteps(n, me, f, y, turns[1..], errors + 1); }
    case Some(rep) =>
      var z := After(n, y, AppendAnswered(me, f, msg, rep));
      if !rep.ok && rep.term <= x.st.currentTerm && 1 < x.progress.nextIdx[f] {
        BacksOff(n, me, f, y, msg, rep);
        RoundIsSteps(n, me, f, z, turns[1..], errors);
      }
  }

  /** A round only ever asks to step down. */
  lemma {:induction false} RoundNotes(n: nat, st: State, p: Progress, f: ServerId, turns: seq<Turn>, errors: nat)
    requires f < |p.nextIdx| && f < |p.matchIdx| && 1 <= p.nextIdx[f] <= |st.entries| && errors <= 2
    requires p.nextIdx[f] + 2 - errors <= |turns|
    ensures forall note | note in Try(n, st, p, f, turns, errors).notes :: note.target == Follower
    decreases p.nextIdx[f] + 2 - errors
  {
    var now := AddAll(st, p, turns[0].adds);
    match turns[0].answer
    case None => if errors < 2 { RoundNotes(n, now.0, now.1, f, turns[1..], errors + 1); }
    case Some(rep) =>
      if !rep.ok && rep.term <= st.currentTerm && 1 < p.nextIdx[f] {
        var r := OnFailure(now.0, now.1, f, rep.term);
        RoundNotes(n, r.0, r.1, f, turns[1..], errors);
      }
  }

  class Raft {
    const n: nat
    const me: ServerId
    const state: ServerState
    const transformer: IdentityTransformer
    var currentIdentity: Role
    var candidate: IdentityCandidate?
    var leader: IdentityLeader?

    /** The current identity has its object, which works on the shared state. */
    ghost predicate Valid()
      reads this, transformer, candidate
    {
      && me < n && transformer.Valid()
      && (currentIdentity == Candidate ==>
            && candidate != null && candidate.Valid()
            && candidate.n == n && candidate.me == me && candidate.state == state)
      && (currentIdentity == Leader ==>
            leader != null && leader.n == n && leader.me == me && leader.state == state)
    }

    /** The server of the cluster this object is. */
    ghost function Snapshot(): Server
      reads this, state, transformer, candidate, leader
    {
      Server(state.Value(), currentIdentity, transformer.termTriggered,
             if currentIdentity == Candidate && candidate != null then candidate.counted else {},
             if currentIdentity == Leader && leader != null then leader.Tables() else NO_PROGRESS)
    }

    constructor (n: nat, me: ServerId, clears: bool)
      requires me < n
      ensures this.n == n && this.me == me && state.rule == AsDocumented(clears)
      ensures fresh(state) && fresh(transformer) && Valid() && Snapshot() == BOOT
    {
      this.n, this.me := n, me;
      state := new ServerState(AsDocumented(clears));
      transformer := new IdentityTransformer();
      currentIdentity, candidate, leader := Down, null, null;
    }

    /** Leaves the current identity and initialises the next one. A candidate that needs no other vote asks for
        leadership at once; `transform` only queues that. */
    method Transform(target: Role)
      requires Valid()
      modifies this, state`currentTerm, state`votedFor, state`notes
      ensures Valid() && (leader == old(leader) || fresh(leader)) && (candidate == old(candidate) || fresh(candidate))
      ensures Snapshot() == Transformed(n, me, old(Snapshot()), target)
      ensures state.notes == old(state.notes) + Asks(n, target, state.currentTerm)
    {
      if target == Candidate {
        candidate := new IdentityCandidate(n, me, state);
      } else if target == Leader {
        leader := new IdentityLeader(n, me, state);
      }
      currentIdentity := target;
    }

    method Notify(note: Note)
      requires Valid()
      modifies this, transformer, state`currentTerm, state`votedFor, state`notes
      ensures Valid() && (leader == old(leader) || fresh(leader)) && (candidate == old(candidate) || fresh(candidate))
      ensures if Accepts(old(transformer.termTriggered), note.term) then
                && Snapshot() == Transformed(n, me, old(Snapshot()), note.target).(gate := note.term)
                && state.notes == old(state.notes) + Asks(n, note.target, state.currentTerm)
              else Snapshot() == old(Snapshot()) && state.notes == old(state.notes)
      ensures note.target != Candidate ==> Snapshot() == Notified(n, old(Snapshot()), note)
    {
      var accepted := transformer.Notify(note.term);
      if accepted { Transform(note.target); }
    }

    method AsyncRun()
      requires Valid() && currentIdentity == Down && |state.entries| > 0
      modifies this, state`currentTerm, state`votedFor, state`notes
      ensures Valid() && Snapshot() == After(n, old(Snapshot()), Start(me))
    {
      Transform(Follower);
    }

    method Stop()
      requires Valid() && |state.entries| > 0
      modifies this, state`currentTerm, state`votedFor, state`notes
      ensures Valid() && Snapshot() == After(n, old(Snapshot()), Event.Stop(me))
    {
      Transform(Down);
    }

    /** Hands over the notifications a handler or an identity made, in order. */
    method PassOn(notes: seq<Note>)
      requires Valid() && forall k | 0 <= k < |notes| :: notes[k].target != Candidate
      modifies this, transformer, state`currentTerm, state`votedFor, state`notes
      ensures Valid() && (leader == old(leader) || fresh(leader))
      ensures Snapshot() == NotifyAll(n, old(Snapshot()), notes)
    {
      var i := 0;
      while i < |notes|
        invariant 0 <= i <= |notes| && Valid() && (leader == old(leader) || fresh(leader))
        invariant candidate == old(candidate) || fresh(candidate)
        invariant NotifyAll(n, Snapshot(), notes[i..]) == NotifyAll(n, old(Snapshot()), notes)
      {
        assert notes[i..][1..] == notes[i + 1..];
        Notify(notes[i]);
        i := i + 1;
      }
    }

    method RPCRequestVote(msg: VoteRequest) returns (rep: Reply)
      requires Valid() && |state.entries| > 0 && state.rule.AsDocumented?
      modifies this, state, transformer
      ensures Valid()
      ensures old(currentIdentity) == Down ==> rep == Reply(0, false) && Snapshot() == old(Snapshot())
      ensures old(currentIdentity) != Down ==>
        && Snapshot() == After(n, old(Snapshot()), DeliverVote(me, msg, state.rule.clears))
        && VoteAnswer(me, msg, rep) in Sent(n, old(Snapshot()), DeliverVote(me, msg, state.rule.clears))
    {
      if currentIdentity == Down { return Reply(0, false); }
      var before := |state.notes|;
      rep := state.RequestVote(msg, currentIdentity);
      PassOn(state.notes[before..]);
    }

    method RPCAppendEntries(msg: AppendRequest) returns (rep: Reply)
      requires Valid() && |state.entries| > 0 && state.rule.AsDocumented?
      modifies this, state, transformer
      ensures Valid()
      ensures old(currentIdentity) == Down ==> rep == Reply(0, false) && Snapshot() == old(Snapshot())
      ensures old(currentIdentity) != Down ==>
        && Snapshot() == After(n, old(Snapshot()), DeliverAppend(me, msg, state.rule.clears))
        && AppendAnswer(me, msg, rep) in Sent(n, old(Snapshot()), DeliverAppend(me, msg, state.rule.clears))
    {
      if currentIdentity == Down { return Reply(0, false); }
      var before := |state.notes|;
      rep := state.AppendEntries(msg, currentIdentity);
      PassOn(state.notes[before..]);
    }

    /** Only a leader takes client requests. */
    method RPCAddLog(cmd: Command) returns (rep: AddLogReply)
      requires Valid() && |state.entries| > 0
      modifies leader, state
      ensures Valid() && Snapshot() == After(n, old(Snapshot()), ClientCall(me, cmd))
      ensures rep == if currentIdentity == Leader then AddLogReply(true, Some(me)) else AddLogReply(false, None)
    {
      if currentIdentity != Leader { return AddLogReply(false, None); }
      rep := leader.AddLog(cmd);
    }

    /** The election timer of a follower or a candidate fires. */
    method ElectionTimeout()
      requires Valid() && |state.entries| > 0
      modifies this, state, transformer
      ensures Valid() && Snapshot() == After(n, old(Snapshot()), Timeout(me))
    {
      var before := |state.notes|;
      Notify(Note(Candidate, state.currentTerm));
      ghost var stood := Snapshot();
      PassOn(state.notes[before..]);
      NotifyMajority(n, stood, state.currentTerm);
    }

    /** A request thread of the current candidacy ends with a reply. */
    method VoteAnswered(from: ServerId, msg: VoteRequest, rep: Reply)
      requires Valid() && |state.entries| > 0 && currentIdentity == Candidate && from in candidate.waiting
      modifies this, candidate, transformer, state`currentTerm, state`votedFor, state`notes
      ensures Valid() && Snapshot() == After(n, old(Snapshot()), Event.VoteAnswered(me, from, msg, rep))
    {
      var before := |state.notes|;
      candidate.VoteAnswered(from, msg, Some(rep));
      ghost var counted := Snapshot();
      PassOn(state.notes[before..]);
      NotifyMajority(n, counted, msg.term);
    }

    /** A leader's thread makes the call its tables ask for; nothing changes by that. */
    method SendTo(f: ServerId) returns (msg: AppendRequest)
      requires Valid() && currentIdentity == Leader && f < |leader.nextIdx|
      requires 1 <= leader.nextIdx[f] <= |state.entries|
      ensures Snapshot() == After(n, Snapshot(), Send(me, f))
      ensures Sent(n, Snapshot(), Send(me, f)) == {AppendCall(f, msg)}
    {
      msg := leader.CreateMessage(f);
    }

    /** A whole round of one of the leader's threads. */
    method Round(f: ServerId, turns: seq<Turn>) returns (sends: nat, won: bool)
      requires Valid() && currentIdentity == Leader && CanSend(Snapshot(), f)
      requires leader.nextIdx[f] + 2 <= |turns|
      modifies this, leader, state, transformer
      ensures Valid() && Snapshot() == RoundSteps(n, me, f, old(Snapshot()), turns, 0)
    {
      var before := |state.notes|;
      RoundIsSteps(n, me, f, Snapshot(), turns, 0);
      RoundNotes(n, state.Value(), leader.Tables(), f, turns, 0);
      sends, won := leader.TryAppendEntries(f, turns);
      PassOn(state.notes[before..]);
    }

    /** An answered append call: the leader counts it, or steps down, or backs off. */
    method AppendAnswered(from: ServerId, msg: AppendRequest, rep: Reply)
      requires Valid() && currentIdentity == Leader && |state.entries| > 0
      requires from < |leader.nextIdx| && from < |leader.matchIdx| && 1 <= leader.nextIdx[from]
      modifies this, leader, state, transformer
      ensures Valid()
      ensures Snapshot() == After(n, old(Snapshot()), Event.AppendAnswered(me, from, msg, rep))
    {
      var before := |state.notes|;
      if rep.ok {
        leader.Succeed(from, |msg.logEntries|);
      } else {
        var over := leader.Refused(from, rep.term);
      }
      PassOn(state.notes[before..]);
    }
  }

  /** Asking for leadership is a notification like any other. */
  lemma NotifyMajority(n: nat, x: Server, term: Term)
    ensures NotifyAll(n, x, if |x.counted| > n / 2 then [Note(Leader, term)] else []) == CheckMajority(n, x, term)
  {
    assert [Note(Leader, term)][1..] == [];
  }
}
