/** A chat request over all interleavings: the handler of a request tries each receiver once, in the
    order of its list, and nobody else, whatever other handlers, nodes and Redis do in between. */
module Requests {
  import opened Wrappers
  import opened Json
  import opened MessageTable
  import opened Protocol
  import opened Effects
  import opened Durability
  import opened Persistence
  import opened Delivery
  import FanOut
  import Groups

  /** A copy to be stored: of which request, for whom. */
  datatype Job = Job(req: Request, to: UserId)

  function Jobs(req: Request, list: seq<UserId>): seq<Job> {
    seq(|list|, i requires 0 <= i < |list| => Job(req, list[i]))
  }

  lemma JobsFromFirst(req: Request, to: UserId, rest: seq<UserId>)
    ensures Jobs(req, [to] + rest) == [Job(req, to)] + Jobs(req, rest)
  {
  }

  /** The copies that a handler has not tried to store yet. */
  function Pending(h: Handler): seq<Job> {
    match h
    case Send(req, to, rest, ToGenerate) => [Job(req, to)] + Jobs(req, rest)
    case Send(req, to, rest, ToInsert(_)) => [Job(req, to)] + Jobs(req, rest)
    case Send(req, _, rest, _) => Jobs(req, rest)
    case _ => []
  }

  function PendingAt(s: State, c: Conn): seq<Job> {
    if c in s.handlers then Pending(s.handlers[c]) else []
  }

  /** One execution of the insert statement; added says whether it added a row. */
  datatype Attempt = Attempt(job: Job, id: MsgId, added: bool)

  function AttemptsOf(s: State, l: Label, c: Conn): seq<Attempt> {
    match l
    case S(Insert(d, outcome)) =>
      if d == c && InSend(s, c) && s.handlers[c].sp.ToInsert? then
        var h := s.handlers[c];
        [Attempt(Job(h.req, h.to), h.sp.id, Applied(outcome) && h.sp.id !in s.rows)]
      else []
    case _ => []
  }

  ghost function Attempts(g: Regime, k: Codec, s: State, ls: seq<Label>, c: Conn): seq<Attempt>
    requires ValidRun(g, k, s, ls)
    decreases |ls|
  {
    if ls == [] then [] else AttemptsOf(s, ls[0], c) + Attempts(g, k, Step(k, s, ls[0]), ls[1..], c)
  }

  function Tried(a: seq<Attempt>): seq<Job> {
    seq(|a|, i requires 0 <= i < |a| => a[i].job)
  }

  /** The step does not give the handler of c a new request. */
  predicate NoRequest(l: Label, c: Conn) {
    match l
    case S(BeginOneChat(d, _, _, _)) => d != c
    case S(BeginGroupChat(d, _, _, _)) => d != c
    case S(QueryGroup(d, _)) => d != c
    case _ => true
  }

  predicate SameRequest(ls: seq<Label>, c: Conn) {
    forall i | 0 <= i < |ls| :: NoRequest(ls[i], c)
  }

  predicate Crashes(l: Label, n: NodeId) {
    l == F(Crash(n))
  }

  /** The step takes from the pending receivers of c exactly the one that it tries, if any. */
  predicate Takes(s: State, s': State, l: Label, c: Conn) {
    Tried(AttemptsOf(s, l, c)) + PendingAt(s', c) == PendingAt(s, c)
  }

  lemma PendingAfterAdvance(h: Handler)
    requires h.Send?
    ensures Pending(Advance(h)) == Jobs(h.req, h.rest)
  {
    if h.rest != [] {
      JobsFromFirst(h.req, h.rest[0], h.rest[1..]);
      assert [h.rest[0]] + h.rest[1..] == h.rest;
    }
  }

  lemma InsertTakes(k: Codec, s: State, c: Conn, o: Outcome, e: Conn)
    requires EnabledS(s, Insert(c, o))
    ensures Takes(s, DoInsert(k, s, c, o), S(Insert(c, o)), e)
  {
    if e == c {
      PendingAfterAdvance(s.handlers[c]);
    } else {
      InsertEffect(k, s, c, o);
      assert PendingAt(DoInsert(k, s, c, o), e) == PendingAt(s, e);
    }
  }

  /** In any state: the insert adds the handler's row if and only if its id is new and the statement takes
      effect; the message is sent on if and only if that is also reported. Otherwise the handler drops it and
      goes on with its next receiver, or is done. */
  lemma SentOnExactly(k: Codec, s: State, c: Conn, o: Outcome)
    requires EnabledS(s, Insert(c, o))
    ensures var s' := Step(k, s, S(Insert(c, o)));
            var h := s.handlers[c];
            var sends := At(s', c, h.(sp := ToLookup(h.sp.id)));
      && (s'.rows != s.rows <==> h.sp.id !in s.rows && o != Failed)
      && (s'.rows != s.rows ==> s'.rows.Keys == s.rows.Keys + {h.sp.id})
      && (sends <==> h.sp.id !in s.rows && o == Done)
      && (!sends ==> Pending(s'.handlers[c]) == Jobs(h.req, h.rest))
      && s'.accepted == if sends then s.accepted[h.sp.id := c.node] else s.accepted
  {
    PendingAfterAdvance(s.handlers[c]);
  }

  lemma LookupTakes(k: Codec, s: State, c: Conn, e: Conn)
    requires EnabledS(s, Lookup(c))
    ensures Takes(s, DoLookup(k, s, c), S(Lookup(c)), e)
  {
  }

  lemma ReadStateTakes(s: State, c: Conn, ok: bool, e: Conn)
    requires EnabledS(s, ReadState(c, ok))
    ensures Takes(s, DoReadState(s, c, ok), S(ReadState(c, ok)), e)
  {
    PendingAfterAdvance(s.handlers[c]);
  }

  lemma PublishTakes(k: Codec, s: State, c: Conn, o: Outcome, e: Conn)
    requires EnabledS(s, Publish(c, o))
    ensures Takes(s, DoPublish(k, s, c, o), S(Publish(c, o)), e)
  {
    PendingAfterAdvance(s.handlers[c]);
  }

  lemma GenerateIdTakes(s: State, c: Conn, now: nat, pid: nat, counter: nat, e: Conn)
    requires EnabledS(s, GenerateId(c, now, pid, counter))
    ensures Takes(s, DoGenerateId(s, c, now, pid, counter), S(GenerateId(c, now, pid, counter)), e)
  {
  }

  lemma ReleaseTakes(s: State, n: NodeId, o: Outcome, now: nat, e: Conn)
    requires EnabledS(s, Release(n, o, now)) && HoldersMark(s.locks, s.handlers)
    ensures Takes(s, DoRelease(s, n, o, now), S(Release(n, o, now)), e)
  {
    ReleaseEffect(s, n, o, now);
    if e in s.handlers {
      if InSend(s, e) && s.handlers[e].sp.Marking? {
        PendingAfterAdvance(s.handlers[e]);
      } else {
        ReleaseOnlyMarking(s, n, o, now, e);
      }
    }
  }

  lemma BeginTakes(s: State, c: Conn, u: UserId, h: Handler, e: Conn)
    requires At(s, c, Idle) && e != c
    ensures PendingAt(IfBound(s, c, u, h), e) == PendingAt(s, e)
  {
  }

  lemma QueryGroupTakes(s: State, c: Conn, members: seq<UserId>, e: Conn)
    requires EnabledS(s, QueryGroup(c, members)) && e != c
    ensures PendingAt(DoQueryGroup(s, c, members), e) == PendingAt(s, e)
  {
  }

  lemma ReceiveTakes(k: Codec, s: State, n: NodeId, e: Conn)
    requires EnabledS(s, Receive(n))
    ensures Takes(s, DoReceive(k, s, n), S(Receive(n)), e)
  {
    ReceiveEffect(k, s, n);
  }

  lemma SendTakes(k: Codec, s: State, d: SendLabel, e: Conn)
    requires EnabledS(s, d) && NoRequest(S(d), e) && HoldersMark(s.locks, s.handlers)
    ensures Takes(s, StepS(k, s, d), S(d), e)
  {
    match d
    case BeginOneChat(c, u, to, body) =>
      BeginTakes(s, c, u, Send(Request(u, 0, ONE_CHAT_MSG, body), to, [], ToGenerate), e);
    case BeginGroupChat(c, u, group, body) =>
      BeginTakes(s, c, u, GroupQuery(Request(u, group, GROUP_CHAT_MSG, body)), e);
    case QueryGroup(c, members) => QueryGroupTakes(s, c, members, e);
    case GenerateId(c, now, pid, counter) => GenerateIdTakes(s, c, now, pid, counter, e);
    case Insert(c, o) => InsertTakes(k, s, c, o, e);
    case Lookup(c) => LookupTakes(k, s, c, e);
    case ReadState(c, ok) => ReadStateTakes(s, c, ok, e);
    case Publish(c, o) => PublishTakes(k, s, c, o, e);
    case Receive(n) => ReceiveTakes(k, s, n, e);
    case Release(n, o, now) => ReleaseTakes(s, n, o, now, e);
  }

  lemma AckTakes(s: State, a: AckLabel, e: Conn)
    requires EnabledA(s, a)
    ensures PendingAt(StepA(s, a), e) == PendingAt(s, e)
  {
    match a
    case BeginAck(c, u, id) => IfBoundEffect(s, c, u, AckUpdate(u, id));
    case ApplyAck(c, o, now) => ApplyAckMoves(s, c, o, now);
  }

  lemma FaultTakes(s: State, f: FaultLabel, e: Conn)
    ensures PendingAt(StepF(s, f), e) == [] || PendingAt(StepF(s, f), e) == PendingAt(s, e)
    ensures f != Crash(e.node) ==> PendingAt(StepF(s, f), e) == PendingAt(s, e)
  {
    match f
    case Crash(n) =>
    case RedisLost(n) =>
    case Reset =>
  }

  lemma LoginTakes(s: State, l: LoginLabel, e: Conn)
    requires EnabledL(s, l)
    ensures PendingAt(StepL(s, l), e) == PendingAt(s, e)
  {
    LoginEffect(s, l);
    assert InLogin(s, l.c) || At(s, l.c, Idle);
  }

  lemma ExitTakes(s: State, x: ExitLabel, e: Conn)
    requires EnabledX(s, x)
    ensures PendingAt(StepX(s, x), e) == PendingAt(s, e)
  {
    ExitEffect(s, x);
    assert Leaving(s.handlers[x.c]);
  }

  /** Every step but a crash of the node keeps the account; a crash loses what was pending. */
  lemma StepTakes(k: Codec, s: State, l: Label, e: Conn)
    requires Enabled(s, l) && NoRequest(l, e) && HoldersMark(s.locks, s.handlers)
    ensures !Crashes(l, e.node) ==> Takes(s, Step(k, s, l), l, e)
    ensures Crashes(l, e.node) ==> AttemptsOf(s, l, e) == []
  {
    match l
    case L(l) => LoginTakes(s, l, e);
    case X(x) => ExitTakes(s, x, e);
    case S(d) => SendTakes(k, s, d, e);
    case A(a) => AckTakes(s, a, e);
    case F(f) => FaultTakes(s, f, e);
  }

  // ---- over whole runs ----

  predicate NoCrash(ls: seq<Label>, n: NodeId) {
    forall i | 0 <= i < |ls| :: !Crashes(ls[i], n)
  }

  /** Holds in every reachable state. */
  ghost predicate Settled(k: Codec, s: State) {
    Persisted(k, s) && Base(s) && NoGap(false, s)
  }

  lemma ReachableIsSettled(g: Regime, k: Codec, s: State, ls: seq<Label>)
    requires Faithful(k) && Init(s) && ValidRun(g, k, s, ls)
    ensures Settled(k, Run(g, k, s, ls))
  {
    InitHasNoGap(false, k, s);
    NoGapFrom(false, g, k, s, ls);
    PersistedFrom(g, k, s, ls);
  }

  lemma TriedSplits(a: seq<Attempt>, b: seq<Attempt>)
    ensures Tried(a + b) == Tried(a) + Tried(b)
  {
  }

  lemma SettledStays(g: Regime, k: Codec, s: State, l: Label)
    requires Faithful(k) && Settled(k, s) && Allowed(g, k, s, l)
    ensures Settled(k, Step(k, s, l))
  {
    StepKeepsPersisted(k, s, l);
    StepKeepsNoGap(false, g, k, s, l);
  }

  /** What was tried is a prefix of what was pending, and with what is pending now it is all of it. */
  predicate Accounts(tried: seq<Job>, before: seq<Job>, after: seq<Job>, crashed: bool) {
    tried <= before && (!crashed ==> tried + after == before)
  }

  lemma AccountsChain(first: seq<Job>, later: seq<Job>, p0: seq<Job>, p1: seq<Job>, p2: seq<Job>, crashed: bool)
    requires first + p1 == p0 && Accounts(later, p1, p2, crashed)
    ensures Accounts(first + later, p0, p2, crashed)
  {
    assert !crashed ==> (first + later) + p2 == first + (later + p2);
  }

  /** Over every interleaving: the handler tries its pending receivers in order, each once, and nobody
      else; without a crash of its node, those it has not tried are still pending. */
  lemma {:induction false} TriedExactly(g: Regime, k: Codec, s: State, ls: seq<Label>, c: Conn)
    requires Faithful(k) && Settled(k, s) && ValidRun(g, k, s, ls) && SameRequest(ls, c)
    ensures Accounts(Tried(Attempts(g, k, s, ls, c)), PendingAt(s, c), PendingAt(Run(g, k, s, ls), c),
            !NoCrash(ls, c.node))
    decreases |ls|
  {
    if ls != [] {
      var s1 := Step(k, s, ls[0]);
      SettledStays(g, k, s, ls[0]);
      TriedExactly(g, k, s1, ls[1..], c);
      StepAccounts(g, k, s, ls, c);
    }
  }

  lemma StepAccounts(g: Regime, k: Codec, s: State, ls: seq<Label>, c: Conn)
    requires ls != [] && ValidRun(g, k, s, ls) && NoRequest(ls[0], c) && HoldersMark(s.locks, s.handlers)
    requires var s1 := Step(k, s, ls[0]);
             Accounts(Tried(Attempts(g, k, s1, ls[1..], c)), PendingAt(s1, c), PendingAt(Run(g, k, s, ls), c),
                      !NoCrash(ls[1..], c.node))
    ensures Accounts(Tried(Attempts(g, k, s, ls, c)), PendingAt(s, c), PendingAt(Run(g, k, s, ls), c),
            !NoCrash(ls, c.node))
  {
    var s1 := Step(k, s, ls[0]);
    var first, later := AttemptsOf(s, ls[0], c), Attempts(g, k, s1, ls[1..], c);
    StepTakes(k, s, ls[0], c);
    TriedSplits(first, later);
    if Crashes(ls[0], c.node) {
      CrashedTriesNothing(s, c);
      assert !NoCrash(ls, c.node);
    } else {
      AccountsChain(Tried(first), Tried(later), PendingAt(s, c), PendingAt(s1, c), PendingAt(Run(g, k, s, ls), c),
                    !NoCrash(ls[1..], c.node));
      NoCrashSplits(ls, c.node);
    }
  }

  lemma NoCrashSplits(ls: seq<Label>, n: NodeId)
    requires ls != [] && !Crashes(ls[0], n)
    ensures NoCrash(ls, n) <==> NoCrash(ls[1..], n)
  {
    assert forall i | 1 <= i < |ls| :: ls[i] == ls[1..][i - 1];
  }

  lemma CrashedTriesNothing(s: State, c: Conn)
    ensures PendingAt(DoCrash(s, c.node), c) == []
  {
  }

  // ---- what the attempts leave in the table ----

  /** The row that an attempt added is there, with the request's text for its receiver. */
  predicate RowLeft(k: Codec, t: Table, a: Attempt) {
    var req, to := a.job.req, a.job.to;
    a.id in t && SameMessage(NewRow(req.sender, to, req.group, req.msgType, Payload(k, req, to, a.id)), t[a.id])
  }

  ghost predicate RowsLeft(k: Codec, before: Table, after: Table, a: seq<Attempt>) {
    && (forall i | 0 <= i < |a| && a[i].added :: a[i].id !in before && RowLeft(k, after, a[i]))
    && (forall i, j | 0 <= i < j < |a| && a[i].added && a[j].added :: a[i].id != a[j].id)
  }

  lemma AttemptAdds(k: Codec, s: State, l: Label, c: Conn)
    requires Enabled(s, l)
    ensures RowsLeft(k, s.rows, Step(k, s, l).rows, AttemptsOf(s, l, c))
  {
    if AttemptsOf(s, l, c) != [] {
      assert Step(k, s, l) == DoInsert(k, s, c, l.d.outcome);
    }
  }

  lemma AttemptStays(k: Codec, t: Table, t': Table, a: seq<Attempt>, before: Table)
    requires RowsLeft(k, before, t, a) && Extends(t, t')
    ensures RowsLeft(k, before, t', a)
  {
    forall i | 0 <= i < |a| && a[i].added ensures RowLeft(k, t', a[i]) {
      assert RowKept(t, t', a[i].id);
    }
  }

  lemma RowsLeftChain(k: Codec, t0: Table, t1: Table, t2: Table, first: seq<Attempt>, later: seq<Attempt>)
    requires RowsLeft(k, t0, t1, first) && RowsLeft(k, t0, t2, first) && RowsLeft(k, t1, t2, later)
    requires forall id | id in t0 :: id in t1
    ensures RowsLeft(k, t0, t2, first + later)
  {
  }

  /** Every attempt that added a row added its own, which was not there before and stays. */
  lemma {:induction false} AttemptsAddRows(g: Regime, k: Codec, s: State, ls: seq<Label>, c: Conn)
    requires ValidRun(g, k, s, ls)
    ensures RowsLeft(k, s.rows, Run(g, k, s, ls).rows, Attempts(g, k, s, ls, c))
    decreases |ls|
  {
    if ls != [] {
      var s1 := Step(k, s, ls[0]);
      AttemptAdds(k, s, ls[0], c);
      AttemptsAddRows(g, k, s1, ls[1..], c);
      FirstRowsStay(g, k, s, ls, c);
    }
  }

  lemma FirstRowsStay(g: Regime, k: Codec, s: State, ls: seq<Label>, c: Conn)
    requires ls != [] && ValidRun(g, k, s, ls)
    requires var s1 := Step(k, s, ls[0]);
             RowsLeft(k, s.rows, s1.rows, AttemptsOf(s, ls[0], c)) &&
             RowsLeft(k, s1.rows, Run(g, k, s, ls).rows, Attempts(g, k, s1, ls[1..], c))
    ensures RowsLeft(k, s.rows, Run(g, k, s, ls).rows, Attempts(g, k, s, ls, c))
  {
    var s1 := Step(k, s, ls[0]);
    var end := Run(g, k, s, ls).rows;
    StepExtendsRows(k, s, ls[0]);
    RowsAreDurable(g, k, s1, ls[1..]);
    AttemptStays(k, s1.rows, end, AttemptsOf(s, ls[0], c), s.rows);
    forall id | id in s.rows ensures id in s1.rows {
      assert RowKept(s.rows, s1.rows, id);
    }
    RowsLeftChain(k, s.rows, s1.rows, end, AttemptsOf(s, ls[0], c), Attempts(g, k, s1, ls[1..], c));
  }

  /** Over every interleaving from the start of the system: after the membership query of a group
      request, its handler adds at most one row per listed member, with that member's own text, and
      none for anyone else; when it is done and its node did not crash, every member was tried. */
  lemma GroupRequestServes(g: Regime, k: Codec, s: State, before: seq<Label>, c: Conn, members: seq<UserId>,
                           ls: seq<Label>)
    requires Faithful(k) && Init(s) && ValidRun(g, k, s, before) &&
             EnabledS(Run(g, k, s, before), QueryGroup(c, members))
    requires ValidRun(g, k, DoQueryGroup(Run(g, k, s, before), c, members), ls) && SameRequest(ls, c)
    requires forall i, j | 0 <= i < j < |members| :: members[i] != members[j]
    ensures var s1 := DoQueryGroup(Run(g, k, s, before), c, members);
            Served(k, s1, Run(g, k, s1, ls), ls, Attempts(g, k, s1, ls, c), c, Run(g, k, s, before).handlers[c].req,
                members)
  {
    var s1 := DoQueryGroup(Run(g, k, s, before), c, members);
    ReachableIsSettled(g, k, s, before);
    QueryGroupSettled(k, Run(g, k, s, before), c, members);
    ServesFrom(g, k, s1, ls, c, Run(g, k, s, before).handlers[c].req, members);
  }

  /** The handler of c serves the copies of req for members, from s on. */
  ghost predicate Served(k: Codec, s: State, end: State, ls: seq<Label>, a: seq<Attempt>, c: Conn, req: Request,
                         members: seq<UserId>) {
    && Tried(a) <= Jobs(req, members) && (forall i, j | 0 <= i < j < |a| :: a[i].job.to != a[j].job.to)
    && RowsLeft(k, s.rows, end.rows, a)
    && (NoCrash(ls, c.node) && At(end, c, Idle) ==> Tried(a) == Jobs(req, members))
  }

  lemma ServesFrom(g: Regime, k: Codec, s: State, ls: seq<Label>, c: Conn, req: Request, members: seq<UserId>)
    requires Faithful(k) && Settled(k, s) && ValidRun(g, k, s, ls) && SameRequest(ls, c)
    requires PendingAt(s, c) == Jobs(req, members)
    requires forall i, j | 0 <= i < j < |members| :: members[i] != members[j]
    ensures Served(k, s, Run(g, k, s, ls), ls, Attempts(g, k, s, ls, c), c, req, members)
  {
    AttemptsAddRows(g, k, s, ls, c);
    TriedExactly(g, k, s, ls, c);
    TriedDistinct(Attempts(g, k, s, ls, c), req, members);
  }

  lemma TriedDistinct(a: seq<Attempt>, req: Request, members: seq<UserId>)
    requires Tried(a) <= Jobs(req, members) && forall i, j | 0 <= i < j < |members| :: members[i] != members[j]
    ensures forall i, j | 0 <= i < j < |a| :: a[i].job.to != a[j].job.to
  {
    forall i, j | 0 <= i < j < |a| ensures a[i].job.to != a[j].job.to {
      assert Tried(a)[i] == Jobs(req, members)[i] && Tried(a)[j] == Jobs(req, members)[j];
    }
  }

  lemma PendingMembers(s: State, c: Conn, members: seq<UserId>)
    requires EnabledS(s, QueryGroup(c, members))
    ensures PendingAt(DoQueryGroup(s, c, members), c) == Jobs(s.handlers[c].req, members)
  {
    if members != [] {
      JobsFromFirst(s.handlers[c].req, members[0], members[1..]);
      assert [members[0]] + members[1..] == members;
    }
  }

  lemma QueryGroupSettled(k: Codec, s: State, c: Conn, members: seq<UserId>)
    requires Faithful(k) && Settled(k, s) && EnabledS(s, QueryGroup(c, members))
    ensures Settled(k, DoQueryGroup(s, c, members)) &&
            PendingAt(DoQueryGroup(s, c, members), c) == Jobs(s.handlers[c].req, members)
  {
    StepKeepsPersisted(k, s, S(QueryGroup(c, members)));
    Delivery.StartKeeps(false, k, s, QueryGroup(c, members));
    PendingMembers(s, c, members);
  }

  /** With the members that the group has when it is asked: over every interleaving only other members are
      tried, and once the handler is done without a crash of its node, each of them was, exactly once. */
  lemma OtherMembersAreTried(g: Regime, k: Codec, s: State, before: seq<Label>, c: Conn, members: seq<UserId>,
                             ls: seq<Label>, m: Groups.Members)
    requires Faithful(k) && Init(s) && ValidRun(g, k, s, before) &&
             EnabledS(Run(g, k, s, before), QueryGroup(c, members))
    requires ValidRun(g, k, DoQueryGroup(Run(g, k, s, before), c, members), ls) && SameRequest(ls, c)
    requires var req := Run(g, k, s, before).handlers[c].req;
             FanOut.Enumerates(members, Groups.Others(m, req.sender, req.group))
    ensures var req := Run(g, k, s, before).handlers[c].req;
            var s1 := DoQueryGroup(Run(g, k, s, before), c, members);
            var tried := Tried(Attempts(g, k, s1, ls, c));
      && (forall i, j | 0 <= i < j < |tried| :: tried[i] != tried[j])
      && (forall job | job in tried :: job.req == req && FanOut.IsOtherMember(m, req, job.to))
      && (NoCrash(ls, c.node) && At(Run(g, k, s1, ls), c, Idle) ==>
            forall u | FanOut.IsOtherMember(m, req, u) :: Job(req, u) in tried)
  {
    var req := Run(g, k, s, before).handlers[c].req;
    var s1 := DoQueryGroup(Run(g, k, s, before), c, members);
    var a := Attempts(g, k, s1, ls, c);
    GroupRequestServes(g, k, s, before, c, members, ls);
    assert forall i, j | 0 <= i < j < |Tried(a)| :: Tried(a)[i] != Tried(a)[j] by {
      forall i, j | 0 <= i < j < |Tried(a)| ensures Tried(a)[i] != Tried(a)[j] {
        assert a[i].job.to != a[j].job.to;
      }
    }
    forall job | job in Tried(a) ensures job.req == req && FanOut.IsOtherMember(m, req, job.to) {
      JobInPrefix(req, members, Tried(a), job);
      Groups.OthersExactly(m, req.sender, req.group, job.to);
    }
    forall u | FanOut.IsOtherMember(m, req, u) ensures Job(req, u) in Jobs(req, members) {
      Groups.OthersExactly(m, req.sender, req.group, u);
      JobOfMember(req, members, u);
    }
  }

  lemma JobInPrefix(req: Request, members: seq<UserId>, tried: seq<Job>, job: Job)
    requires tried <= Jobs(req, members) && job in tried
    ensures job.req == req && job.to in members
  {
    var i :| 0 <= i < |tried| && tried[i] == job;
    assert Jobs(req, members)[i] == job;
  }

  lemma JobOfMember(req: Request, members: seq<UserId>, u: UserId)
    requires u in members
    ensures Job(req, u) in Jobs(req, members)
  {
    var i :| 0 <= i < |members| && members[i] == u;
    assert Jobs(req, members)[i] == Job(req, u);
  }
}
