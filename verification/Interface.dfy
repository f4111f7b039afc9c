/** The client side: a promise per call, from the call to the apply that resolves it. */
module Interface {
  import opened RaftDefs
  import opened Cluster
  import opened History
  import opened Invariant
  import opened Safety
  import opened Origins

  /** A bound operation: from serialised arguments to a result, both opaque. */
  type Operation = string -> string

  /** Promises issued so far are numbered 0..cur-1; `pending` are those not yet set. */
  datatype Table = Table(cur: nat, pending: set<nat>, resolved: map<nat, string>)

  datatype Verdict = Fine | NoSuchOperation | PromiseMissing

  /** The promise is in the table before the request leaves. */
  function Issue(t: Table): Table {
    Table(t.cur + 1, t.pending + {t.cur}, t.resolved)
  }

  /** An unbound operation throws before anything is looked up; only the caller's own entries resolve. */
  function Resolve(t: Table, local: ServerId, fs: map<string, Operation>, e: BasicEntry): (Table, Verdict) {
    if e.opName !in fs then (t, NoSuchOperation)
    else if e.srvId != Some(local) then (t, Fine)
    else if e.prmIdx !in t.pending then (t, PromiseMissing)
    else (Table(t.cur, t.pending - {e.prmIdx}, t.resolved[e.prmIdx := fs[e.opName](e.args)]), Fine)
  }

  /** What an entry does to the table: only an own bound one whose promise is pending sets a result, its own, and
      the three ways it can end. */
  lemma ResolveRule(t: Table, local: ServerId, fs: map<string, Operation>, e: BasicEntry)
    ensures var r := Resolve(t, local, fs, e);
            && (r.1 == NoSuchOperation <==> e.opName !in fs)
            && (r.1 == PromiseMissing <==> e.opName in fs && e.srvId == Some(local) && e.prmIdx !in t.pending)
            && r.0.cur == t.cur
            && (r.0 != t ==> r.1 == Fine && e.srvId == Some(local) && e.prmIdx in t.pending)
            && (r.1 == Fine && e.srvId == Some(local) ==>
                  && e.prmIdx !in r.0.pending && r.0.pending + {e.prmIdx} == t.pending
                  && e.prmIdx in r.0.resolved && r.0.resolved[e.prmIdx] == fs[e.opName](e.args)
                  && forall i | i in t.resolved && i != e.prmIdx ::
                       i in r.0.resolved && r.0.resolved[i] == t.resolved[i])
  {
  }

  ghost predicate OnceEach(es: seq<BasicEntry>) {
    forall i, j | 0 <= i < j < |es| :: es[i].srvId != es[j].srvId || es[i].prmIdx != es[j].prmIdx
  }

  predicate Resolves(local: ServerId, fs: map<string, Operation>, e: BasicEntry) {
    e.srvId == Some(local) && e.opName in fs
  }

  /** The numbers of this server's own calls of bound operations among the entries. */
  ghost function Own(local: ServerId, fs: map<string, Operation>, es: seq<BasicEntry>): set<nat> {
    set i | 0 <= i < |es| && Resolves(local, fs, es[i]) :: es[i].prmIdx
  }

  /** Pending and resolved promises are disjoint and together those issued; the resolved ones are those of
      the own bound entries applied so far. */
  ghost predicate Balanced(t: Table, local: ServerId, fs: map<string, Operation>, es: seq<BasicEntry>) {
    && t.resolved.Keys == Own(local, fs, es)
    && t.resolved.Keys <= Upto(t.cur)
    && t.pending == Upto(t.cur) - t.resolved.Keys
  }

  lemma BalancedSizes(t: Table, local: ServerId, fs: map<string, Operation>, es: seq<BasicEntry>)
    requires Balanced(t, local, fs, es)
    ensures |t.pending| + |t.resolved| == t.cur
  {
  }

  lemma OwnSnoc(local: ServerId, fs: map<string, Operation>, es: seq<BasicEntry>, e: BasicEntry)
    ensures Own(local, fs, es + [e]) == Own(local, fs, es) + if Resolves(local, fs, e) then {e.prmIdx} else {}
  {
    var all := es + [e];
    forall x: nat | x in Own(local, fs, es) ensures x in Own(local, fs, all) {
      var i :| 0 <= i < |es| && Resolves(local, fs, es[i]) && es[i].prmIdx == x;
      assert all[i] == es[i];
    }
    if Resolves(local, fs, e) { assert all[|es|] == e; }
  }

  /** A number that no earlier entry carries is still pending. */
  lemma FreshIsPending(
      t: Table, local: ServerId, fs: map<string, Operation>, es: seq<BasicEntry>, e: BasicEntry)
    requires Balanced(t, local, fs, es) && OnceEach(es + [e]) && e.srvId == Some(local) && e.prmIdx < t.cur
    ensures e.prmIdx in t.pending
  {
    var all := es + [e];
    forall i | 0 <= i < |es|
      ensures es[i].srvId != Some(local) || es[i].prmIdx != e.prmIdx
    {
      assert all[i] == es[i] && all[|es|] == e;
    }
  }

  /** How an entry is disposed of when no promise is ever missing. */
  function Due(fs: map<string, Operation>, e: BasicEntry): Verdict {
    if e.opName in fs then Fine else NoSuchOperation
  }

  /** The apply of an own bound entry finds its promise. */
  lemma ResolveFinds(t: Table, local: ServerId, fs: map<string, Operation>, es: seq<BasicEntry>, e: BasicEntry)
    requires Balanced(t, local, fs, es) && OnceEach(es + [e])
    requires e.srvId == Some(local) ==> e.prmIdx < t.cur
    ensures e.srvId == Some(local) ==> e.prmIdx in t.pending
    ensures Resolve(t, local, fs, e).1 == Due(fs, e) && Balanced(Resolve(t, local, fs, e).0, local, fs, es + [e])
  {
    OwnSnoc(local, fs, es, e);
    if e.srvId == Some(local) {
      FreshIsPending(t, local, fs, es, e);
    }
    if Resolves(local, fs, e) {
      assert Resolve(t, local, fs, e).0.resolved.Keys == t.resolved.Keys + {e.prmIdx};
    }
  }

  /** What an entry that is consumed finds: never a missing promise, and an own entry finds its own pending. */
  ghost predicate Resolved(local: ServerId, fs: map<string, Operation>, t: Table, e: BasicEntry) {
    Resolve(t, local, fs, e).1 == Due(fs, e) && (e.srvId == Some(local) ==> e.prmIdx in t.pending)
  }

  lemma IssueBalanced(t: Table, local: ServerId, fs: map<string, Operation>, es: seq<BasicEntry>)
    requires Balanced(t, local, fs, es)
    ensures Balanced(Issue(t), local, fs, es)
  {
  }

  /** The client of server `local` beside the whole cluster: its promise table, the requests its calls sent so
      far, all requests the cluster has seen, and how many applied entries it has consumed. */
  datatype Joint = Joint(c: Cluster, t: Table, calls: seq<Command>, asked: set<Command>, consumed: nat)

  datatype Move = Ask(opName: string, args: string) | Net(e: Event) | Consume

  /** The cluster may be asked anything in other servers' names, and any number of times; in this server's
      name only what one of its calls sent. The apply queue may lag as far as it likes. */
  ghost predicate Possible(local: ServerId, j: Joint, m: Move) {
    match m
    case Ask(_, _) => true
    case Net(e) => Guarded(j.c, e) && (e.ClientCall? && e.cmd.srvId == Some(local) ==> e.cmd in j.calls)
    case Consume => local < |j.c.servers| && j.consumed < |j.c.servers[local].st.applied|
  }

  ghost function Next(local: ServerId, fs: map<string, Operation>, j: Joint, m: Move): Joint
    requires Possible(local, j, m)
  {
    match m
    case Ask(opName, args) =>
      j.(t := Issue(j.t), calls := j.calls + [Command(opName, args, j.t.cur, Some(local))])
    case Net(e) => j.(c := Step(j.c, e), asked := Asked(j.asked, e))
    case Consume =>
      var e := Basic(j.c.servers[local].st.applied[j.consumed]);
      j.(t := Resolve(j.t, local, fs, e).0, consumed := j.consumed + 1)
  }

  ghost predicate JointRun(n: nat, local: ServerId, fs: map<string, Operation>, js: seq<Joint>, ms: seq<Move>) {
    && |js| == |ms| + 1 && js[0] == Joint(Init(n), Table(0, {}, map[]), [], {}, 0)
    && forall k | 0 <= k < |ms| ::
         Possible(local, js[k], ms[k]) && js[k + 1] == Next(local, fs, js[k], ms[k])
  }

  function Basics(es: seq<Entry>): seq<BasicEntry> {
    seq(|es|, i requires 0 <= i < |es| => Basic(es[i]))
  }

  function Consumed(local: ServerId, j: Joint): seq<BasicEntry>
    requires local < |j.c.servers| && j.consumed <= |j.c.servers[local].st.applied|
  {
    Basics(j.c.servers[local].st.applied[..j.consumed])
  }

  /** A resolved promise holds what its own call asked for. */
  ghost predicate OwnResults(t: Table, fs: map<string, Operation>, calls: seq<Command>) {
    forall i | i in t.resolved ::
      i < |calls| && calls[i].opName in fs && t.resolved[i] == fs[calls[i].opName](calls[i].args)
  }

  /** The requests sent carry the numbers given out, in order; the cluster has seen nothing else in this
      server's name. */
  ghost predicate CallsOk(local: ServerId, j: Joint) {
    && |j.calls| == j.t.cur
    && (forall i | 0 <= i < |j.calls| :: j.calls[i].prmIdx == i && j.calls[i].srvId == Some(local))
    && forall cmd | cmd in j.asked && cmd.srvId == Some(local) :: cmd in j.calls
  }

  ghost predicate JointOk(n: nat, local: ServerId, fs: map<string, Operation>, j: Joint) {
    && local < |j.c.servers| == n && j.consumed <= |j.c.servers[local].st.applied|
    && AllOriginal(j.c, j.asked) && CallsOk(local, j)
    && Balanced(j.t, local, fs, Consumed(local, j)) && OwnResults(j.t, fs, j.calls)
  }

  lemma AskCalls(local: ServerId, fs: map<string, Operation>, j: Joint, m: Move)
    requires CallsOk(local, j) && OwnResults(j.t, fs, j.calls) && m.Ask?
    ensures var j' := Next(local, fs, j, m); CallsOk(local, j') && OwnResults(j'.t, fs, j'.calls)
  {
  }

  lemma AskOk(n: nat, local: ServerId, fs: map<string, Operation>, j: Joint, m: Move)
    requires JointOk(n, local, fs, j) && m.Ask?
    ensures JointOk(n, local, fs, Next(local, fs, j, m))
  {
    IssueBalanced(j.t, local, fs, Consumed(local, j));
    AskCalls(local, fs, j, m);
  }

  lemma NetOk(n: nat, local: ServerId, fs: map<string, Operation>, j: Joint, m: Move)
    requires JointOk(n, local, fs, j) && m.Net? && Possible(local, j, m)
    ensures JointOk(n, local, fs, Next(local, fs, j, m))
  {
    StepOriginal(j.c, m.e, j.asked);
    AppliedGrows(j.c, m.e, local);
    assert Consumed(local, Next(local, fs, j, m)) == Consumed(local, j);
  }

  /** If the next applied entry is an own one, it is what one of this server's calls sent. */
  lemma NextWasAsked(n: nat, local: ServerId, fs: map<string, Operation>, j: Joint)
    requires JointOk(n, local, fs, j) && Possible(local, j, Consume)
    ensures var e := Basic(j.c.servers[local].st.applied[j.consumed]);
            e.srvId == Some(local) ==>
              e.prmIdx < |j.calls| && j.calls[e.prmIdx] == Command(e.opName, e.args, e.prmIdx, e.srvId)
  {
    var e := j.c.servers[local].st.applied[j.consumed];
    assert CommandOf(e) in j.asked;
    if e.srvId == Some(local) {
      var i :| 0 <= i < |j.calls| && j.calls[i] == CommandOf(e);
      assert j.calls[i].prmIdx == i;
    }
  }

  lemma ConsumedSnoc(local: ServerId, j: Joint)
    requires local < |j.c.servers| && j.consumed < |j.c.servers[local].st.applied|
    requires Distinct(j.c.servers[local].st.applied)
    ensures var es, e := Consumed(local, j), Basic(j.c.servers[local].st.applied[j.consumed]);
            Consumed(local, j.(consumed := j.consumed + 1)) == es + [e] && OnceEach(es + [e])
  {
  }

  lemma ConsumeOk(n: nat, local: ServerId, fs: map<string, Operation>, j: Joint)
    requires JointOk(n, local, fs, j) && Possible(local, j, Consume) && Distinct(j.c.servers[local].st.applied)
    ensures JointOk(n, local, fs, Next(local, fs, j, Consume))
    ensures var e := Basic(j.c.servers[local].st.applied[j.consumed]); Resolved(local, fs, j.t, e)
  {
    var e := Basic(j.c.servers[local].st.applied[j.consumed]);
    NextWasAsked(n, local, fs, j);
    ConsumedSnoc(local, j);
    ResolveFinds(j.t, local, fs, Consumed(local, j), e);
  }

  /** The cluster's part of a joint run. */
  lemma {:induction false} ClusterPart(
      n: nat, local: ServerId, fs: map<string, Operation>, js: seq<Joint>, ms: seq<Move>, k: nat)
    returns (cs: seq<Cluster>, es: seq<Event>)
    requires JointRun(n, local, fs, js, ms) && k < |js|
    ensures GuardedRun(n, cs, es) && cs[|es|] == js[k].c
  {
    if k == 0 {
      cs, es := [Init(n)], [];
    } else {
      cs, es := ClusterPart(n, local, fs, js, ms, k - 1);
      assert Possible(local, js[k - 1], ms[k - 1]) && js[k] == Next(local, fs, js[k - 1], ms[k - 1]);
      if ms[k - 1].Net? {
        LongerRun(n, cs, es, ms[k - 1].e);
        cs, es := cs + [Step(cs[|es|], ms[k - 1].e)], es + [ms[k - 1].e];
      }
    }
  }

  lemma LongerRun(n: nat, cs: seq<Cluster>, es: seq<Event>, e: Event)
    requires GuardedRun(n, cs, es) && Guarded(cs[|es|], e)
    ensures GuardedRun(n, cs + [Step(cs[|es|], e)], es + [e])
  {
    var cs', es' := cs + [Step(cs[|es|], e)], es + [e];
    forall k | 0 <= k < |es'| ensures Guarded(cs'[k], es'[k]) && cs'[k + 1] == Step(cs'[k], es'[k]) {
      if k < |es| { assert Guarded(cs[k], es[k]) && Enabled(cs[k], es[k]); }
    }
  }

  lemma {:induction false} JointAlong(
      n: nat, local: ServerId, fs: map<string, Operation>, js: seq<Joint>, ms: seq<Move>, k: nat)
    requires JointRun(n, local, fs, js, ms) && k < |js| && local < n
    ensures JointOk(n, local, fs, js[k])
    ensures 0 < k && ms[k - 1].Consume? ==>
              var j := js[k - 1]; Resolved(local, fs, j.t, Basic(j.c.servers[local].st.applied[j.consumed]))
  {
    if k == 0 {
      assert Own(local, fs, []) == {};
    } else {
      JointAlong(n, local, fs, js, ms, k - 1);
      assert Possible(local, js[k - 1], ms[k - 1]);
      assert js[k] == Next(local, fs, js[k - 1], ms[k - 1]);
      match ms[k - 1]
      case Ask(_, _) => AskOk(n, local, fs, js[k - 1], ms[k - 1]);
      case Net(_) => NetOk(n, local, fs, js[k - 1], ms[k - 1]);
      case Consume =>
        var cs, es := ClusterPart(n, local, fs, js, ms, k - 1);
        AppliedAtMostOnce(n, cs, es, |es|, local);
        ConsumeOk(n, local, fs, js[k - 1]);
    }
  }

  /** Promise conservation: whatever clients ask anywhere and however far the apply queue lags, at every moment
      pending and resolved promises are disjoint and together exactly those issued, the resolved ones are
      those of the own bound entries consumed, and each holds the result of its own call. */
  lemma PromiseConservation(
      n: nat, local: ServerId, fs: map<string, Operation>, js: seq<Joint>, ms: seq<Move>, k: nat)
    requires JointRun(n, local, fs, js, ms) && k < |js| && local < n
    ensures local < |js[k].c.servers| && js[k].consumed <= |js[k].c.servers[local].st.applied|
    ensures Balanced(js[k].t, local, fs, Consumed(local, js[k])) && OwnResults(js[k].t, fs, js[k].calls)
    ensures |js[k].t.pending| + |js[k].t.resolved| == js[k].t.cur == |js[k].calls|
  {
    JointAlong(n, local, fs, js, ms, k);
    BalancedSizes(js[k].t, local, fs, Consumed(local, js[k]));
  }

  /** The lookup in `apply` always finds its promise, and what is resolved is never resolved again; the only
      failure left is that the operation was never bound. */
  lemma PromisesOverCluster(
      n: nat, local: ServerId, fs: map<string, Operation>, js: seq<Joint>, ms: seq<Move>, k: nat)
    requires JointRun(n, local, fs, js, ms) && k < |ms| && local < n && ms[k].Consume?
    ensures local < |js[k].c.servers| && js[k].consumed < |js[k].c.servers[local].st.applied|
    ensures var e := Basic(js[k].c.servers[local].st.applied[js[k].consumed]);
            && Resolve(js[k].t, local, fs, e).1 == Due(fs, e)
            && (e.srvId == Some(local) ==> e.prmIdx in js[k].t.pending && e.prmIdx !in js[k].t.resolved)
  {
    JointAlong(n, local, fs, js, ms, k);
    assert Possible(local, js[k], ms[k]);
    JointAlong(n, local, fs, js, ms, k + 1);
  }

  class InterfaceImpl {
    const local: ServerId
    var fs: map<string, Operation>
    var curPrmIdx: nat
    var prms: set<nat>
    var results: map<nat, string>
    /** The requests handed to `addLog`, in order. */
    var sent: seq<Command>

    function Value(): Table
      reads this
    {
      Table(curPrmIdx, prms, results)
    }

    constructor (local: ServerId)
      ensures this.local == local && fs == map[] && Value() == Table(0, {}, map[]) && sent == []
    {
      this.local := local;
      fs, curPrmIdx, prms, results, sent := map[], 0, {}, map[], [];
    }

    /** `insert` keeps the operation that is already bound to the name. */
    method Bind(name: string, f: Operation)
      modifies this`fs
      ensures fs.Keys == old(fs.Keys) + {name}
      ensures forall k | k in old(fs) :: fs[k] == old(fs)[k]
      ensures name !in old(fs) ==> fs[name] == f
    {
      if name !in fs { fs := fs[name := f]; }
    }

    /** A request leaves only while its promise is in the table. */
    method Send(cmd: Command)
      requires cmd.prmIdx in prms
      modifies this`sent
      ensures sent == old(sent) + [cmd]
    {
      sent := sent + [cmd];
    }

    method AsyncCall(opName: string, args: string) returns (idx: nat)
      modifies this`curPrmIdx, this`prms, this`sent
      ensures idx == old(curPrmIdx) && Value() == Issue(old(Value()))
      ensures sent == old(sent) + [Command(opName, args, idx, Some(local))]
    {
      idx := curPrmIdx;
      curPrmIdx := curPrmIdx + 1;
      prms := prms + {idx};
      Send(Command(opName, args, idx, Some(local)));
    }

    method Apply(e: BasicEntry) returns (v: Verdict)
      modifies this`prms, this`results
      ensures (Value(), v) == Resolve(old(Value()), local, fs, e)
    {
      if e.opName !in fs { return NoSuchOperation; }
      var res := fs[e.opName](e.args);
      if e.srvId == Some(local) {
        if e.prmIdx !in prms { return PromiseMissing; }
        results := results[e.prmIdx := res];
        prms := prms - {e.prmIdx};
      }
      return Fine;
    }
  }

  /** The retry loop of `addLog`: the servers of the list in turn, round and round, until one accepts. The
      answers are the network's; an RPC error counts as a refusal. */
  method AddLog(n: nat, answers: seq<bool>) returns (accepted: Option<ServerId>, asked: seq<ServerId>)
    requires 0 < n
    ensures |asked| <= |answers| && forall k | 0 <= k < |asked| && k < n :: asked[k] == k
    ensures forall k | 0 < k < |asked| :: asked[k] == if asked[k - 1] + 1 == n then 0 else asked[k - 1] + 1
    ensures match accepted
            case Some(s) => asked != [] && s == asked[|asked| - 1] && answers[|asked| - 1]
                            && forall k | 0 <= k < |asked| - 1 :: !answers[k]
            case None => |asked| == |answers| && forall k | 0 <= k < |answers| :: !answers[k]
  {
    var iter := 0;
    asked := [];
    while |asked| < |answers|
      invariant |asked| <= |answers| && 0 <= iter < n
      invariant |asked| < n ==> iter == |asked|
      invariant asked == [] ==> iter == 0
      invariant asked != [] ==> iter == if asked[|asked| - 1] + 1 == n then 0 else asked[|asked| - 1] + 1
      invariant forall k | 0 <= k < |asked| && k < n :: asked[k] == k
      invariant forall k | 0 < k < |asked| :: asked[k] == if asked[k - 1] + 1 == n then 0 else asked[k - 1] + 1
      invariant forall k | 0 <= k < |asked| :: !answers[k]
    {
      var srv := iter;
      iter := iter + 1;
      asked := asked + [srv];
      if answers[|asked| - 1] { return Some(srv), asked; }
      if iter == n { iter := 0; }
    }
    accepted := None;
  }
}
