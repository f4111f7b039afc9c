/** The values the servers keep and exchange: log entries, messages, persistent and volatile state. */
module RaftDefs {

  datatype Option<+T> = None | Some(value: T)

  type Term = nat
  type Index = nat

  /** A server is named by its position in the shared server list; the null id is `None`. */
  type ServerId = nat

  datatype Entry = Entry(term: Term, opName: string, args: string, prmIdx: nat, srvId: Option<ServerId>)

  /** The default-constructed entry every log starts with. */
  const SENTINEL := Entry(0, "", "", 0, None)

  /** What the apply callback sees of a log entry. */
  datatype BasicEntry = BasicEntry(opName: string, args: string, prmIdx: nat, srvId: Option<ServerId>)

  function Basic(e: Entry): BasicEntry { BasicEntry(e.opName, e.args, e.prmIdx, e.srvId) }

  datatype Role = Follower | Candidate | Leader | Down

  /** `applied` is the sequence of entries handed to the apply callback so far. */
  datatype State = State(
    currentTerm: Term,
    votedFor: Option<ServerId>,
    entries: seq<Entry>,
    commitIdx: Index,
    lastApplied: Index,
    applied: seq<Entry>)

  const INITIAL_STATE := State(0, None, [SENTINEL], 0, 0, [])

  datatype VoteRequest = VoteRequest(term: Term, candidateId: ServerId, lastLogIdx: Index, lastLogTerm: Term)

  datatype AppendRequest = AppendRequest(
    term: Term,
    leaderId: ServerId,
    prevLogIdx: Index,
    prevLogTerm: Term,
    logEntries: seq<Entry>,
    commitIdx: Index)

  datatype Command = Command(opName: string, args: string, prmIdx: nat, srvId: Option<ServerId>)

  datatype AddLogReply = AddLogReply(ok: bool, srvId: Option<ServerId>)

  datatype Reply = Reply(term: Term, ok: bool)

  /** A call `notify(target, term)` made on the identity transformer. */
  datatype Note = Note(target: Role, term: Term)

  /** What a handler leaves behind: the new state, its reply, and the notifications in call order. */
  datatype Outcome = Outcome(st: State, rep: Reply, notes: seq<Note>)

  /** Which way `checkRpcTerm` compares: as the source is written, or as its header documents it. The
      documented rule says nothing about the vote of the term that is left; it may be cleared or not. */
  datatype TermRule = AsWritten | AsDocumented(clears: bool)

  /** Two logs are identical on indices 0..k-1. */
  ghost predicate Agree(a: seq<Entry>, b: seq<Entry>, k: nat) {
    k <= |a| && k <= |b| && forall j | 0 <= j < k :: a[j] == b[j]
  }
}
