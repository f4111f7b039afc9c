/** One vote per term, as the source is written: exactly when a server keeps to it. */
module OneVote {
  import opened RaftDefs
  import opened Handlers
  import opened LeaderState

  /** What can move a server's term or vote: a call it receives, in the role it has then, a candidacy of its own,
      or the refusal of a round it leads. */
  datatype Heard =
    | Vote(role: Role, vote: VoteRequest)
    | Append(role: Role, append: AppendRequest)
    | Stand(me: ServerId)
    | Refusal(term: Term)

  /** A leader that is refused adopts a greater term and keeps its vote. */
  function Hear(st: State, x: Heard): (r: State)
    requires |st.entries| > 0
    ensures |r.entries| > 0
  {
    match x
    case Vote(role, vote) => HandleVote(AsWritten, st, role, vote).st
    case Append(role, append) => HandleAppend(AsWritten, st, role, append).st
    case Stand(me) => st.(currentTerm := st.currentTerm + 1, votedFor := Some(me))
    case Refusal(term) => OnFailure(st, Progress([1], [0], []), 0, term).0
  }

  /** As written, the call lowers the receiver's term. A follower drops an append call of a smaller term
      before it comes to that. */
  predicate Lowers(st: State, x: Heard) {
    match x
    case Vote(_, vote) => vote.term < st.currentTerm
    case Append(role, append) => append.term < st.currentTerm && role != Follower
    case _ => false
  }

  /** The states a server passes through while nothing lowers its term. */
  ghost predicate NeverLowered(sts: seq<State>, xs: seq<Heard>) {
    && |sts| == |xs| + 1
    && forall k | 0 <= k < |xs| ::
         |sts[k].entries| > 0 && !Lowers(sts[k], xs[k]) && sts[k + 1] == Hear(sts[k], xs[k])
  }

  /** A vote for candidate c in term t: one that is granted, or a candidate's own. */
  predicate Grants(st: State, x: Heard, t: Term, c: ServerId)
    requires |st.entries| > 0
  {
    match x
    case Vote(role, vote) => vote.term == t && vote.candidateId == c && HandleVote(AsWritten, st, role, vote).rep.ok
    case Stand(me) => st.currentTerm + 1 == t && me == c
    case _ => false
  }

  predicate GrantsAt(sts: seq<State>, xs: seq<Heard>, k: nat, t: Term, c: ServerId) {
    k < |sts| && k < |xs| && |sts[k].entries| > 0 && Grants(sts[k], xs[k], t, c)
  }

  /** Whatever the server votes in term t from now on, it votes for a. */
  predicate Bound(st: State, t: Term, a: ServerId) {
    t <= st.currentTerm && (st.currentTerm == t ==> st.votedFor == Some(a))
  }

  lemma BoundStep(st: State, x: Heard, t: Term, a: ServerId)
    requires |st.entries| > 0 && Bound(st, t, a) && !Lowers(st, x)
    ensures Bound(Hear(st, x), t, a)
    ensures forall c | Grants(st, x, t, c) :: c == a
  {
  }

  lemma {:induction false} BoundAlong(sts: seq<State>, xs: seq<Heard>, i: nat, k: nat, t: Term, a: ServerId)
    requires NeverLowered(sts, xs) && i <= k <= |xs| && Bound(sts[i], t, a)
    ensures Bound(sts[k], t, a)
    decreases k
  {
    if i < k {
      BoundAlong(sts, xs, i, k - 1, t, a);
      assert sts[k - 1 + 1] == Hear(sts[k - 1], xs[k - 1]);
      BoundStep(sts[k - 1], xs[k - 1], t, a);
    }
  }

  lemma GrantBinds(st: State, x: Heard, t: Term, a: ServerId)
    requires |st.entries| > 0 && Grants(st, x, t, a)
    ensures Hear(st, x).currentTerm == t && Hear(st, x).votedFor == Some(a)
  {
  }

  /** One vote per term: as long as no call lowers the term, two votes in one term go to one candidate. */
  lemma VotesAgree(sts: seq<State>, xs: seq<Heard>, i: nat, j: nat, t: Term, a: ServerId, b: ServerId)
    requires NeverLowered(sts, xs) && i < j && GrantsAt(sts, xs, i, t, a) && GrantsAt(sts, xs, j, t, b)
    ensures a == b
  {
    GrantBinds(sts[i], xs[i], t, a);
    BoundAlong(sts, xs, i + 1, j, t, a);
    BoundStep(sts[j], xs[j], t, a);
  }

  lemma TermFallsIff(st: State, x: Heard)
    requires |st.entries| > 0
    ensures Hear(st, x).currentTerm < st.currentTerm <==> Lowers(st, x)
  {
  }

  /** In every continuation that never lowers the term, votes in term t are for a. */
  ghost predicate StaysBound(st: State, t: Term, a: ServerId) {
    forall sts, xs, k, c | NeverLowered(sts, xs) && sts[0] == st && GrantsAt(sts, xs, k, t, c) :: c == a
  }

  lemma BoundStays(st: State, t: Term, a: ServerId)
    requires Bound(st, t, a)
    ensures StaysBound(st, t, a)
  {
    forall sts, xs, k, c | NeverLowered(sts, xs) && sts[0] == st && GrantsAt(sts, xs, k, t, c) ensures c == a {
      BoundAlong(sts, xs, 0, k, t, a);
      BoundStep(sts[k], xs[k], t, a);
    }
  }

  /** A vote call of candidate c that is up to date with every log whose last term is `last`. */
  function Strong(t: Term, c: ServerId, last: Term): Heard {
    Vote(Follower, VoteRequest(t, c, 0, last + 1))
  }

  /** A server that has voted for a in its current term, whatever it hears next: it will vote for nobody
      else in that term, in every continuation that never lowers its term, if and only if what it hears does
      not lower its term. */
  lemma VoteKeptIff(st: State, a: ServerId, x: Heard)
    requires |st.entries| > 0 && st.votedFor == Some(a)
    ensures StaysBound(Hear(st, x), st.currentTerm, a) <==> !Lowers(st, x)
  {
    var st', t := Hear(st, x), st.currentTerm;
    TermFallsIff(st, x);
    if Lowers(st, x) {
      var y := Strong(t, a + 1, 0);
      var sts := [st', Hear(st', y)];
      assert NeverLowered(sts, [y]) && GrantsAt(sts, [y], 0, t, a + 1);
    } else {
      BoundStays(st', t, a);
    }
  }

  /** Who has the vote of a server that has voted for a, after a candidacy or a call of a greater term. */
  function NewVote(st: State, a: ServerId, x: Heard): ServerId {
    match x
    case Vote(_, vote) => if st.currentTerm < vote.term then vote.candidateId else a
    case Stand(me) => me
    case _ => a
  }

  lemma VoteAfter(st: State, a: ServerId, x: Heard)
    requires |st.entries| > 0 && st.votedFor == Some(a)
    ensures var st', t := Hear(st, x), st.currentTerm;
            && (Lowers(st, x) <==> st'.currentTerm < t)
            && st'.votedFor == Some(NewVote(st, a, x)) && (st'.currentTerm <= t ==> NewVote(st, a, x) == a)
  {
  }

  lemma SecondVoteFrom(st: State, t: Term, a: ServerId, c: ServerId)
    requires |st.entries| > 0 && st.votedFor == Some(c) && (st.currentTerm <= t ==> c == a)
    ensures (exists y, b :: b != a && Grants(st, y, t, b)) <==> st.currentTerm < t || c != a
  {
    if st.currentTerm < t {
      assert Grants(st, Strong(t, a + 1, 0), t, a + 1);
    } else if c != a {
      assert Grants(st, Strong(t, c, st.entries[|st.entries| - 1].term), t, c);
    }
  }

  /** One more call can win a second vote in that term if and only if what the server heard before it lowered the
      term, or raised it with a vote for somebody else. */
  lemma SecondVoteIff(st: State, a: ServerId, x: Heard)
    requires |st.entries| > 0 && st.votedFor == Some(a)
    ensures (exists y, b :: b != a && Grants(Hear(st, x), y, st.currentTerm, b))
       <==> Lowers(st, x) || NewVote(st, a, x) != a
  {
    VoteAfter(st, a, x);
    SecondVoteFrom(Hear(st, x), st.currentTerm, a, NewVote(st, a, x));
  }
}
