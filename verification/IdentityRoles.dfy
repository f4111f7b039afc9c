/** The leader's and the candidate's own work as it runs: loops over the log, the answers and the peers. */
module IdentityRoles {
  import opened RaftDefs
  import opened LeaderState
  import opened Cluster
  import opened Snapshots
  import opened IdentityBase

  class IdentityLeader {
    const n: nat
    const me: ServerId
    const state: ServerState
    var nextIdx: seq<Index>
    var matchIdx: seq<Index>
    var replicateNum: seq<nat>

    function Tables(): Progress
      reads this
    {
      Progress(nextIdx, matchIdx, replicateNum)
    }

    constructor (n: nat, me: ServerId, state: ServerState)
      ensures this.n == n && this.me == me && this.state == state && Tables() == Reinit(n, |state.entries|)
    {
      this.n, this.me, this.state := n, me, state;
      nextIdx := seq(n, _ => 1);
      matchIdx := seq(n, _ => 0);
      replicateNum := seq(|state.entries|, _ => 1);
    }

    /** The scan runs from the newest entry back over the whole log, the initial entry included. */
    method AddLog(cmd: Command) returns (rep: AddLogReply)
      modifies this`replicateNum, state`entries
      ensures rep == AddLogReply(true, Some(me))
      ensures (state.Value(), Tables()) == LeaderState.AddLog(old(state.Value()), old(Tables()), cmd)
      ensures exists k | 0 <= k < |state.entries| ::
                state.entries[k].srvId == cmd.srvId && state.entries[k].prmIdx == cmd.prmIdx
    {
      AddLogRecords(state.Value(), Tables(), cmd);
      var i := |state.entries|;
      while 0 < i
        invariant 0 <= i <= |state.entries|
        invariant forall k | i <= k < |state.entries| :: !SameCall(state.entries[k], cmd)
      {
        i := i - 1;
        if SameCall(state.entries[i], cmd) { return AddLogReply(true, Some(me)); }
      }
      assert !Logged(state.entries, cmd);
      state.entries := state.entries + [Entry(state.currentTerm, cmd.opName, cmd.args, cmd.prmIdx, cmd.srvId)];
      replicateNum := replicateNum + [1];
      return AddLogReply(true, Some(me));
    }

    /** The call to a follower: the leader's whole log from nextIdx on. */
    method CreateMessage(f: ServerId) returns (msg: AppendRequest)
      requires f < |nextIdx| && 1 <= nextIdx[f] <= |state.entries|
      ensures msg == CreateAppendEntries(state.Value(), me, nextIdx[f])
      ensures msg.term == state.currentTerm && msg.leaderId == me && msg.commitIdx == state.commitIdx
      ensures state.entries[..msg.prevLogIdx + 1] + msg.logEntries == state.entries
      ensures msg.prevLogTerm == state.entries[msg.prevLogIdx].term
    {
      var start := nextIdx[f];
      var prevLogTerm := state.entries[start - 1].term;
      msg := AppendRequest(state.currentTerm, me, start - 1, prevLogTerm, state.entries[start..], state.commitIdx);
    }

    /** The count loop after a successful round. */
    method Count(from: Index)
      modifies this`replicateNum, state`commitIdx
      ensures (replicateNum, state.commitIdx)
           == CountLoop(n, old(replicateNum), old(state.commitIdx), from)
    {
      var i := from;
      while i < |replicateNum|
        invariant from <= i
        invariant CountLoop(n, replicateNum, state.commitIdx, i)
               == CountLoop(n, old(replicateNum), old(state.commitIdx), from)
        decreases |replicateNum| - i
      {
        replicateNum := replicateNum[i := replicateNum[i] + 1];
        if replicateNum[i] > n / 2 {
          if state.commitIdx < i { state.commitIdx := i; }
        }
        i := i + 1;
      }
    }

    method Succeed(f: ServerId, count: nat)
      requires f < |nextIdx| && f < |matchIdx| && 1 <= nextIdx[f]
      modifies this, state`commitIdx, state`lastApplied, state`applied
      ensures (state.Value(), Tables()) == OnSuccess(n, old(state.Value()), old(Tables()), f, count)
    {
      var oldMatchIdx := matchIdx[f];
      nextIdx := nextIdx[f := nextIdx[f] + count];
      matchIdx := matchIdx[f := nextIdx[f] - 1];
      Count(oldMatchIdx + 1);
      state.ApplyReadyEntries();
    }

    /** Requests of clients that come one after the other. */
    method AddLogs(cmds: seq<Command>)
      modifies this`replicateNum, state`entries
      ensures (state.Value(), Tables()) == AddAll(old(state.Value()), old(Tables()), cmds)
    {
      var i := 0;
      while i < |cmds|
        invariant 0 <= i <= |cmds|
        invariant AddAll(state.Value(), Tables(), cmds[i..]) == AddAll(old(state.Value()), old(Tables()), cmds)
      {
        assert cmds[i..][1..] == cmds[i + 1..];
        var rep := AddLog(cmds[i]);
        i := i + 1;
      }
    }

    /** A refusal: a greater term is adopted, otherwise the next call starts one entry earlier. */
    method Refused(f: ServerId, term: Term) returns (over: bool)
      requires f < |nextIdx| && 1 <= nextIdx[f]
      modifies this`nextIdx, state`currentTerm, state`notes
      ensures var r := OnFailure(old(state.Value()), old(Tables()), f, term);
              && (state.Value(), Tables()) == (r.0, r.1) && state.notes == old(state.notes) + r.2
      ensures old(state.currentTerm) < term ==>
                state.currentTerm == term && state.notes == old(state.notes) + [Note(Follower, term)]
      ensures over == (old(state.currentTerm) < term || old(nextIdx[f]) == 1)
    {
      if term > state.currentTerm {
        state.currentTerm := term;
        state.Notify(Follower, term);
        return true;
      }
      over := nextIdx[f] == 1;
      if !over { nextIdx := nextIdx[f := nextIdx[f] - 1]; }
    }

    /** One pass of the loop: the call, what clients add while it is underway, and its answer. */
    method Pass(f: ServerId, turn: Turn) returns (over: bool, won: bool)
      requires f < |nextIdx| && f < |matchIdx| && 1 <= nextIdx[f] <= |state.entries|
      modifies this, state
      ensures var now := AddAll(old(state.Value()), old(Tables()), turn.adds);
              match turn.answer
              case None =>
                !over && !won && (state.Value(), Tables(), state.notes) == (now.0, now.1, old(state.notes))
              case Some(rep) =>
                if rep.ok then
                  && over && won && state.notes == old(state.notes)
                  && (state.Value(), Tables())
                     == OnSuccess(n, now.0, now.1, f, old(|state.entries|) - old(nextIdx[f]))
                else
                  var r := OnFailure(now.0, now.1, f, rep.term);
                  && !won && (state.Value(), Tables()) == (r.0, r.1) && state.notes == old(state.notes) + r.2
                  && over == (old(state.currentTerm) < rep.term || old(nextIdx[f]) == 1)
    {
      var msg := CreateMessage(f);
      AddLogs(turn.adds);
      if turn.answer == None {
        return false, false;
      } else if turn.answer.value.ok {
        Succeed(f, |msg.logEntries|);
        return true, true;
      }
      over := Refused(f, turn.answer.value.term);
      won := false;
    }

    /** A pass, counting the errors so far; `goal` is what the whole round, `sends` calls old, comes to. */
    method CountedPass(f: ServerId, turns: seq<Turn>, retryTimes: nat, ghost goal: Attempt, ghost sends: nat)
      returns (over: bool, won: bool, retries: nat)
      requires f < |nextIdx| && f < |matchIdx| && 1 <= nextIdx[f] <= |state.entries| && retryTimes <= 2
      requires nextIdx[f] + 2 - retryTimes <= |turns|
      requires Remains(goal, sends, Try(n, state.Value(), Tables(), f, turns, retryTimes))
      modifies this, state
      ensures !over ==>
        && !won && state.notes == old(state.notes) && retries <= 2
        && f < |nextIdx| && f < |matchIdx| && 1 <= nextIdx[f] <= |state.entries|
        && nextIdx[f] - retries < old(nextIdx[f]) - retryTimes
        && Remains(goal, sends + 1, Try(n, state.Value(), Tables(), f, turns[1..], retries))
      ensures over ==>
        && (state.Value(), Tables(), sends + 1, won) == (goal.st, goal.p, goal.sends, goal.won)
        && state.notes == old(state.notes) + goal.notes
    {
      TryPass(goal, sends, n, state.Value(), Tables(), f, turns, retryTimes);
      over, won := Pass(f, turns[0]);
      retries := retryTimes;
      if turns[0].answer == None {
        if retryTimes == 2 { over := true; } else { retries := retryTimes + 1; }
      }
    }

    /** One round; while a call is underway clients go on adding, and `None` is an RPC error. The loop sends
        at most nextIdx + 2 calls. */
    method TryAppendEntries(f: ServerId, turns: seq<Turn>) returns (sends: nat, won: bool)
      requires f < |nextIdx| && f < |matchIdx| && 1 <= nextIdx[f] <= |state.entries|
      requires nextIdx[f] + 2 <= |turns|
      modifies this, state
      ensures sends <= old(nextIdx[f]) + 2
      ensures var a := Try(n, old(state.Value()), old(Tables()), f, turns, 0);
              && (state.Value(), Tables(), sends, won) == (a.st, a.p, a.sends, a.won)
              && state.notes == old(state.notes) + a.notes
    {
      ghost var goal := Try(n, state.Value(), Tables(), f, turns, 0);
      var retryTimes: nat, over, rest := 0, false, turns;
      sends, won := 0, false;
      while !over
        invariant !over ==>
          && !won && state.notes == old(state.notes) && retryTimes <= 2
          && f < |nextIdx| && f < |matchIdx| && 1 <= nextIdx[f] <= |state.entries|
          && nextIdx[f] + 2 - retryTimes <= |rest|
          && Remains(goal, sends, Try(n, state.Value(), Tables(), f, rest, retryTimes))
        invariant over ==>
          && (state.Value(), Tables(), sends, won) == (goal.st, goal.p, goal.sends, goal.won)
          && state.notes == old(state.notes) + goal.notes
        decreases !over, |rest|
      {
        over, won, retryTimes := CountedPass(f, rest, retryTimes, goal, sends);
        sends, rest := sends + 1, rest[1..];
      }
    }
  }

  class IdentityCandidate {
    const n: nat
    const me: ServerId
    const state: ServerState
    var votesReceived: nat
    /** The peers whose request is still unanswered. */
    var waiting: set<ServerId>
    /** Whose votes the counter stands for. */
    ghost var counted: set<ServerId>

    /** Each peer is counted at most once in a candidacy: the counter is the size of a set of servers, none
        of which is still to answer. */
    ghost predicate Valid()
      reads this
    {
      && votesReceived == |counted| && me in counted && counted !! waiting
      && (forall v | v in counted :: v < n) && forall v | v in waiting :: v < n
    }

    constructor (n: nat, me: ServerId, state: ServerState)
      requires me < n
      modifies state`currentTerm, state`votedFor, state`notes
      ensures this.n == n && this.me == me && this.state == state && Valid()
      ensures votesReceived == 1 && counted == {me} && waiting == Others(n, me)
      ensures state.Value() == old(state.Value()).(currentTerm := old(state.currentTerm) + 1, votedFor := Some(me))
      ensures state.notes == old(state.notes) + if 1 > n / 2 then [Note(Leader, state.currentTerm)] else []
    {
      this.n, this.me, this.state := n, me, state;
      votesReceived, waiting, counted := 1, Others(n, me), {me};
      new;
      state.currentTerm := state.currentTerm + 1;
      state.votedFor := Some(me);
      if votesReceived > n / 2 { state.Notify(Leader, state.currentTerm); }
    }

    /** The end of one request thread: an error, a refusal and a reply of another term count nothing. */
    method VoteAnswered(from: ServerId, msg: VoteRequest, answer: Option<Reply>)
      requires Valid() && from in waiting
      modifies this, state`notes
      ensures Valid() && waiting == old(waiting) - {from}
      ensures var yes := answer.Some? && answer.value.ok && answer.value.term == msg.term;
              && counted == (if yes then old(counted) + {from} else old(counted))
              && state.notes == old(state.notes)
                   + if yes && |counted| > n / 2 then [Note(Leader, msg.term)] else []
    {
      waiting := waiting - {from};
      if answer == None { return; }
      if answer.value.term != msg.term || !answer.value.ok { return; }
      votesReceived := votesReceived + 1;
      counted := counted + {from};
      if votesReceived > n / 2 { state.Notify(Leader, msg.term); }
    }
  }
}
