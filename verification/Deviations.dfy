/** Where the source as written departs from what it documents, and exactly when. */
module Deviations {
  import opened RaftDefs
  import opened Handlers
  import opened LeaderState
  import opened Leadership

  /** The vote a request would get under the documented rule. */
  predicate WouldGrant(clears: bool, st: State, msg: VoteRequest)
    requires |st.entries| > 0
  {
    && (st.votedFor == None || st.votedFor == Some(msg.candidateId) || (clears && st.currentTerm < msg.term))
    && UpToDate(st.entries, msg.lastLogIdx, msg.lastLogTerm)
  }

  /** A vote call is handled as documented if and only if its term is the server's own, or larger and the
      vote would have been granted anyway. */
  lemma VoteRulesAgreeIff(clears: bool, st: State, role: Role, msg: VoteRequest)
    requires |st.entries| > 0
    ensures HandleVote(AsWritten, st, role, msg) == HandleVote(AsDocumented(clears), st, role, msg)
       <==> msg.term == st.currentTerm || (st.currentTerm < msg.term && WouldGrant(clears, st, msg))
  {
  }

  /** An append call is handled as documented if and only if its term is the server's own, or smaller and
      the server is a follower. */
  lemma AppendRulesAgreeIff(clears: bool, st: State, role: Role, msg: AppendRequest)
    ensures HandleAppend(AsWritten, st, role, msg) == HandleAppend(AsDocumented(clears), st, role, msg)
       <==> msg.term == st.currentTerm || (msg.term < st.currentTerm && role == Follower)
  {
  }

  /** As written, every vote granted in a term respects the election restriction if and only if the term
      is not larger than the receiver's, or the receiver has nothing a candidate could lack. */
  lemma RestrictionHoldsIff(st: State, role: Role, msg: VoteRequest)
    requires |st.entries| > 0
    ensures (forall i: Index, t: Term ::
              HandleVote(AsWritten, st, role, msg.(lastLogIdx := i, lastLogTerm := t)).rep.ok ==>
              UpToDate(st.entries, i, t))
       <==> msg.term <= st.currentTerm || (|st.entries| == 1 && st.entries[0].term == 0)
  {
    if st.currentTerm < msg.term && !(|st.entries| == 1 && st.entries[0].term == 0) {
      assert HandleVote(AsWritten, st, role, msg.(lastLogIdx := 0, lastLogTerm := 0)).rep.ok;
      assert !UpToDate(st.entries, 0, 0);
    }
  }

  /** As written, a server can vote for two candidates in one term: the late repetition of a call from
      term 1 takes it back from term 2. */
  lemma TwoVotesInOneTerm()
    ensures var a := VoteRequest(1, 0, 0, 0);
            var b, b' := VoteRequest(2, 1, 0, 0), VoteRequest(1, 1, 0, 0);
            var x := HandleVote(AsWritten, INITIAL_STATE, Follower, a);
            var y := HandleVote(AsWritten, x.st, Follower, b);
            var z := HandleVote(AsWritten, y.st, Follower, b');
            x.rep == Reply(1, true) && z.rep == Reply(1, true) && a.candidateId != b'.candidateId
  {
  }

  const FIRST := Entry(1, "first", "", 1, Some(0))
  const SECOND := Entry(1, "second", "", 2, Some(0))
  const NEW_LEADER := State(1, Some(0), [SENTINEL], 0, 0, [])

  const CALL := AppendRequest(1, 0, 0, 0, [FIRST], 0)
  const ONE_FIRST := INITIAL_STATE.(entries := [SENTINEL, FIRST])
  const VOTER := INITIAL_STATE.(currentTerm := 1, votedFor := Some(0))

  /** Three servers, server 0 leads with the vote of server 2: it sends its first entry to server 1, adds a
      second one, and then counts the answer over both. */
  function OvercountEvents(): seq<Event> {
    [Add(Command("first", "", 1, Some(0))), Send(1), Deliver(1, Follower, CALL),
     Add(Command("second", "", 2, Some(0))), Answered(1, CALL, Reply(0, true))]
  }

  function OvercountRun(): seq<Reign> {
    var idle, took := [INITIAL_STATE, INITIAL_STATE, VOTER], [INITIAL_STATE, ONE_FIRST, VOTER];
    var one, two := NEW_LEADER.(entries := [SENTINEL, FIRST]), NEW_LEADER.(entries := [SENTINEL, FIRST, SECOND]);
    var answer := Answer(1, CALL, Reply(0, true));
    [Reign(0, NEW_LEADER, Progress([1, 1, 1], [0, 0, 0], [1]), idle, {}),
     Reign(0, one, Progress([1, 1, 1], [0, 0, 0], [1, 1]), idle, {}),
     Reign(0, one, Progress([1, 1, 1], [0, 0, 0], [1, 1]), idle, {Call(1, CALL)}),
     Reign(0, one, Progress([1, 1, 1], [0, 0, 0], [1, 1]), took, {Call(1, CALL), answer}),
     Reign(0, two, Progress([1, 1, 1], [0, 0, 0], [1, 1, 1]), took, {Call(1, CALL), answer}),
     Reign(0, two.(commitIdx := 2, lastApplied := 2, applied := [FIRST, SECOND]),
           Progress([1, 2, 1], [0, 1, 0], [1, 2, 2]), took, {Call(1, CALL), answer})]
  }

  lemma OvercountAdds()
    ensures var rs, es := OvercountRun(), OvercountEvents();
            Step(rs[0], es[0]) == rs[1] && Step(rs[3], es[3]) == rs[4]
  {
  }

  lemma OvercountCalls()
    ensures var rs, es := OvercountRun(), OvercountEvents();
            && Enabled(rs[1], es[1]) && Step(rs[1], es[1]) == rs[2]
            && Enabled(rs[2], es[2]) && Step(rs[2], es[2]) == rs[3]
  {
    assert [SENTINEL, FIRST][1..] == [FIRST];
    assert [SENTINEL][..1] + [FIRST][0..] == [SENTINEL, FIRST];
    assert OvercountRun()[1].flw[1 := ONE_FIRST] == OvercountRun()[3].flw;
  }

  lemma OvercountCounts()
    ensures var rs, es := OvercountRun(), OvercountEvents(); Enabled(rs[4], es[4]) && Step(rs[4], es[4]) == rs[5]
  {
    var r := CountLoop(3, [1, 1, 1], 0, 1);
    assert r.0 == [1, 2, 2];
    assert r.0[2] > 3 / 2;
    assert [SENTINEL, FIRST, SECOND][1..3] == [FIRST, SECOND];
    assert [1, 1, 1][1 := 2] == [1, 2, 1] && [0, 0, 0][1 := 1] == [0, 1, 0];
  }

  lemma OvercountBegins()
    ensures Begins(OvercountRun()[0])
  {
  }

  lemma OvercountStep(k: nat)
    requires k < 5
    ensures Enabled(OvercountRun()[k], OvercountEvents()[k])
    ensures OvercountRun()[k + 1] == Step(OvercountRun()[k], OvercountEvents()[k])
  {
    if k == 0 || k == 3 { OvercountAdds(); } else if k == 4 { OvercountCounts(); } else { OvercountCalls(); }
  }

  lemma OvercountIsRun()
    ensures Run(OvercountRun(), OvercountEvents())
  {
    OvercountBegins();
    var rs, es := OvercountRun(), OvercountEvents();
    forall k | 0 <= k < |es| ensures Enabled(rs[k], es[k]) && rs[k + 1] == Step(rs[k], es[k]) {
      OvercountStep(k);
    }
  }

  /** As written, without the guard on counting, the leader commits and applies an entry that no other
      server stores. */
  lemma OvercountCommits()
    ensures var vote := VoteRequest(1, 0, 0, 0);
            HandleVote(AsWritten, INITIAL_STATE, Follower, vote) == Outcome(VOTER, Reply(1, true), [])
    ensures Run(OvercountRun(), OvercountEvents())
    ensures !Leadership.CountsWholeLog(OvercountRun()[4], OvercountEvents()[4])
    ensures var r := OvercountRun()[4]; !CountsNoFurther(3, r.ldr, r.p, 1, |CALL.logEntries|)
    ensures var r := OvercountRun()[5];
            && r.ldr.commitIdx == 2 && r.ldr.applied[1] == SECOND
            && forall f | 0 <= f < 3 :: SECOND !in r.flw[f].entries
  {
    OvercountIsRun();
  }
}
