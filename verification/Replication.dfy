/** What one merge does to a follower's log, relative to the log the message was cut from. */
module Replication {
  import opened RaftDefs
  import opened Handlers

  /** Log Matching between two logs: equal terms at an index mean equal prefixes up to it. */
  ghost predicate Matching(log: seq<Entry>, full: seq<Entry>) {
    forall i | 0 <= i < |log| && i < |full| && log[i].term == full[i].term :: Agree(log, full, i + 1)
  }

  /** The entries of a message are those of `full` after index `prev`. */
  ghost predicate CutFrom(full: seq<Entry>, prev: Index, prevTerm: Term, es: seq<Entry>) {
    && prev + |es| < |full|
    && full[prev].term == prevTerm
    && forall j | 0 <= j < |es| :: es[j] == full[prev + 1 + j]
  }

  /** If nothing conflicts the log is kept as it is; otherwise it becomes a prefix of the sender's log,
      cut right after the last entry of the message. */
  lemma MergeShape(log: seq<Entry>, full: seq<Entry>, prev: Index, es: seq<Entry>)
    requires prev < |log| && CutFrom(full, prev, log[prev].term, es) && Matching(log, full)
    ensures var m := Merge(log, prev, es); var end := prev + 1 + |es|;
            && Agree(m, full, end)
            && (m == log || m == full[..end])
  {
    var k := MatchFrom(log, prev + 1, es, 0);
    var m := Merge(log, prev, es);
    if k > 0 {
      assert log[prev + 1 + (k - 1)].term == es[k - 1].term == full[prev + 1 + (k - 1)].term;
      assert Agree(log, full, prev + 1 + k);
    } else {
      assert Agree(log, full, prev + 1);
    }
    if k != |es| {
      forall i | 0 <= i < prev + 1 + |es|
        ensures m[i] == full[i]
      {
        if prev + 1 + k <= i { assert m[i] == es[i - prev - 1]; }
      }
      assert m == full[..prev + 1 + |es|];
    }
  }

  /** A merge never loses anything the follower already shares with the sender. */
  lemma MergeKeepsShared(log: seq<Entry>, full: seq<Entry>, prev: Index, es: seq<Entry>, p: nat)
    requires prev < |log| && CutFrom(full, prev, log[prev].term, es) && Matching(log, full)
    requires Agree(log, full, p)
    ensures Agree(Merge(log, prev, es), full, p)
    ensures Agree(Merge(log, prev, es), log, p)
  {
  }

  /** Log Matching with the sender survives the merge. */
  lemma MergeKeepsMatching(log: seq<Entry>, full: seq<Entry>, prev: Index, es: seq<Entry>)
    requires prev < |log| && CutFrom(full, prev, log[prev].term, es) && Matching(log, full)
    ensures Matching(Merge(log, prev, es), full)
  {
    MergeShape(log, full, prev, es);
  }

  /** `log` has everything `was` shares with `full`. */
  ghost predicate KeepsShared(was: seq<Entry>, log: seq<Entry>, full: seq<Entry>) {
    forall p: nat | Agree(was, full, p) :: Agree(log, full, p)
  }

  /** An accepted call: the follower has the call's part of the sender's log, and loses nothing of it. */
  lemma CallMerges(st: State, m: AppendRequest, full: seq<Entry>)
    requires st.currentTerm <= m.term && m.prevLogIdx < |st.entries|
    requires CutFrom(full, m.prevLogIdx, st.entries[m.prevLogIdx].term, m.logEntries) && Matching(st.entries, full)
    requires m.prevLogTerm == st.entries[m.prevLogIdx].term
    ensures var out := AppendBody(st, m);
            && out.rep.ok
            && Agree(out.st.entries, full, m.prevLogIdx + |m.logEntries| + 1)
            && KeepsShared(st.entries, out.st.entries, full)
            && (out.st.entries == st.entries || out.st.entries == full[..m.prevLogIdx + |m.logEntries| + 1])
  {
    MergeShape(st.entries, full, m.prevLogIdx, m.logEntries);
    forall p: nat | Agree(st.entries, full, p)
      ensures Agree(Merge(st.entries, m.prevLogIdx, m.logEntries), full, p)
    {
      MergeKeepsShared(st.entries, full, m.prevLogIdx, m.logEntries, p);
    }
  }

  /** Because the leader sends its whole suffix and its commit index lies inside it, the receiver's
      minimum with its own log length is Figure 2's minimum with the last entry of the message, and it
      commits only what the message verified. */
  lemma CommitBound(st: State, m: AppendRequest, full: seq<Entry>)
    requires st.currentTerm <= m.term && m.prevLogIdx < |st.entries|
    requires CutFrom(full, m.prevLogIdx, st.entries[m.prevLogIdx].term, m.logEntries) && Matching(st.entries, full)
    requires m.prevLogTerm == st.entries[m.prevLogIdx].term
    requires m.commitIdx <= m.prevLogIdx + |m.logEntries|
    ensures var out := AppendBody(st, m);
            && out.rep.ok
            && out.st.commitIdx == (if st.commitIdx < m.commitIdx then m.commitIdx else st.commitIdx)
            && (st.commitIdx < m.commitIdx ==>
                  out.st.commitIdx == Min(m.commitIdx, m.prevLogIdx + |m.logEntries|))
            && Agree(out.st.entries, full, m.prevLogIdx + |m.logEntries| + 1)
  {
    CallMerges(st, m, full);
  }
}
