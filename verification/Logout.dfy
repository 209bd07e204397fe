/** The end of a session: after a logout the connection goes on serving, and only a close or a crash ends it. */
module Logout {
  import opened Wrappers
  import opened Json
  import opened MessageTable
  import opened Protocol
  import opened Effects
  import opened Runs
  import opened Persistence
  import opened Client
  import opened Drain
  import opened Rounds

  // ---- a logout that meets no obstacle ----

  /** Nothing but the session of u on c is gone. */
  predicate LoggedOut(s: State, s': State, c: Conn, u: UserId) {
    && s'.handlers == s.handlers && s'.bound == s.bound - {Slot(c.node, u)} && s'.subs == s.subs - {Slot(c.node, u)}
    && s'.users.Keys == s.users.Keys && (forall v | v in s.users && v != u :: s'.users[v] == s.users[v])
    && (u in s.users ==> s'.users[u] == User(s.users[u].password, false))
    && s'.rows == s.rows && s'.logs == s.logs && s'.queues == s.queues && s'.locks == s.locks
  }

  lemma SessionErased(g: Regime, k: Codec, s: State, c: Conn, u: UserId) returns (s': State)
    requires At(s, c, Idle) && Free(s, c.node) && Bound(s, c, u)
    ensures Reach(g, k, s, s')
    ensures s' == With(s, c, Exit(u, ToUnsubscribe, false)).(bound := s.bound - {Slot(c.node, u)})
  {
    var s1 := With(s, c, Exit(u, ToErase, false));
    FirstStep(g, k, s, X(BeginLogout(c, u)));
    s' := DoErase(s1, c);
    ReachStep(g, k, s, s1, X(Erase(c)));
  }

  lemma SessionUnsubscribed(g: Regime, k: Codec, s: State, c: Conn, u: UserId) returns (s': State)
    requires At(s, c, Idle) && Free(s, c.node) && Bound(s, c, u)
    ensures Reach(g, k, s, s')
    ensures s' == With(s, c, Exit(u, ToSetOffline, false)).(
                    bound := s.bound - {Slot(c.node, u)}, subs := s.subs - {Slot(c.node, u)})
  {
    var s1 := SessionErased(g, k, s, c, u);
    s' := DoUnsubscribe(s1, c, Done);
    ReachStep(g, k, s, s1, X(Unsubscribe(c, Done)));
  }

  /** From any state in which u is bound to an idle connection, a logout leads to where the connection is
      idle again, the user is in no map and channel of this node, and is stored offline. */
  lemma LogoutIsRun(g: Regime, k: Codec, s: State, c: Conn, u: UserId) returns (s': State)
    requires At(s, c, Idle) && Free(s, c.node) && Bound(s, c, u)
    ensures Reach(g, k, s, s') && LoggedOut(s, s', c, u)
  {
    var s1 := SessionUnsubscribed(g, k, s, c, u);
    s' := DoGoOffline(s1, c, Done);
    ReachStep(g, k, s, s1, X(GoOffline(c, Done)));
    assert s'.handlers == s.handlers;
  }

  /** v is registered, stored offline or about to be, and no login of it is under way. */
  ghost predicate MayFollow(g: Regime, s: State, c: Conn, u: UserId, v: UserId) {
    && IsInt32(v) && v in s.users && (v == u || !s.users[v].online)
    && (g.alone ==> !LoginUnderWay(s, v))
    && (g.oneUser ==> forall slot | slot in s.bound && s.bound[slot] == c :: slot == Slot(c.node, u))
  }

  lemma CanLogInAfter(g: Regime, s: State, s': State, c: Conn, u: UserId, v: UserId)
    requires At(s, c, Idle) && Free(s, c.node) && LoggedOut(s, s', c, u) && MayFollow(g, s, c, u, v)
    ensures CanLogIn(g, s', c, v)
  {
    assert LoginUnderWay(s', v) ==> LoginUnderWay(s, v);
  }

  /** On the connection of a client that still runs, a logout can be followed by a login of the same or any
      other offline user: the connection is bound to it and the client gets and acknowledges its backlog. */
  lemma LogoutThenLogin(g: Regime, k: Codec, s: State, c: Conn, u: UserId, v: UserId, now: nat)
    returns (mid: State, end: State)
    requires At(s, c, Idle) && Free(s, c.node) && Bound(s, c, u) && MayFollow(g, s, c, u, v)
    requires !g.backlog && RowsOk(k, s.rows) && !OnLog(k, Log(s.logs, c)).stopped
    ensures Reach(g, k, s, mid) && LoggedOut(s, mid, c, u) && Reach(g, k, s, end)
    ensures At(end, c, Idle) && Bound(end, c, v) && end.rows == ClientRound(k, s.rows, v, now)
    ensures Log(end.logs, c) == Log(s.logs, c) + [LoginOk(v, Payloads(s.rows, Listed(s.rows, v)))]
  {
    mid := LogoutIsRun(g, k, s, c, u);
    CanLogInAfter(g, s, mid, c, u, v);
    end := RoundIsRun(g, k, mid, c, v, now);
    ReachChains(g, k, s, mid, end);
  }

  // ---- what ends a connection ----

  /** The handler is in a close, or was ended. */
  predicate Going(h: Handler) {
    h.Closing? || (h.Exit? && h.closing) || h.Dead?
  }

  predicate GoingAt(s: State, c: Conn) {
    c in s.handlers && Going(s.handlers[c])
  }

  /** The handler of c is what it was, or is not in a close. */
  predicate GoesOn(s: State, s': State, c: Conn) {
    c in s'.handlers ==> c in s.handlers && (s'.handlers[c] == s.handlers[c] || !Going(s'.handlers[c]))
  }

  lemma StartGoesOn(k: Codec, s: State, d: SendLabel, c: Conn)
    requires EnabledS(s, d) && IsStart(d)
    ensures GoesOn(s, StepS(k, s, d), c)
  {
    match d
    case BeginOneChat(e, u, to, body) =>
    case BeginGroupChat(e, u, group, body) =>
    case QueryGroup(e, members) => assert StepS(k, s, d) == DoQueryGroup(s, e, members);
    case GenerateId(e, now, pid, counter) => assert StepS(k, s, d) == DoGenerateId(s, e, now, pid, counter);
  }

  lemma MovesOn(s: State, s': State, e: Conn, c: Conn)
    requires SendMove(s, s', e)
    ensures GoesOn(s, s', c)
  {
  }

  lemma ReceiveGoesOn(k: Codec, s: State, n: NodeId, c: Conn)
    requires EnabledS(s, Receive(n))
    ensures GoesOn(s, DoReceive(k, s, n), c)
  {
    ReceiveEffect(k, s, n);
  }

  lemma ReleaseGoesOn(s: State, n: NodeId, o: Outcome, now: nat, c: Conn)
    requires EnabledS(s, Release(n, o, now))
    ensures GoesOn(s, DoRelease(s, n, o, now), c)
  {
    ReleaseEffect(s, n, o, now);
  }

  lemma SendGoesOn(k: Codec, s: State, d: SendLabel, c: Conn)
    requires EnabledS(s, d)
    ensures GoesOn(s, StepS(k, s, d), c)
  {
    if IsStart(d) {
      StartGoesOn(k, s, d, c);
    } else {
      match d
      case Insert(e, o) => InsertEffect(k, s, e, o); MovesOn(s, DoInsert(k, s, e, o), e, c);
      case Lookup(e) => LookupEffect(k, s, e); MovesOn(s, DoLookup(k, s, e), e, c);
      case ReadState(e, ok) => ReadStateEffect(s, e, ok); MovesOn(s, DoReadState(s, e, ok), e, c);
      case Publish(e, o) => PublishEffect(k, s, e, o); MovesOn(s, DoPublish(k, s, e, o), e, c);
      case Receive(n) => ReceiveGoesOn(k, s, n, c);
      case Release(n, o, now) => ReleaseGoesOn(s, n, o, now, c);
    }
  }

  lemma AckGoesOn(s: State, a: AckLabel, c: Conn)
    requires EnabledA(s, a)
    ensures GoesOn(s, StepA(s, a), c)
  {
  }

  lemma RequestGoesOn(k: Codec, s: State, l: Label, c: Conn)
    requires Enabled(s, l) && !l.X? && !l.F?
    ensures GoesOn(s, Step(k, s, l), c)
  {
    match l
    case L(l) => LoginEffect(s, l);
    case S(d) => SendGoesOn(k, s, d, c);
    case A(a) => AckGoesOn(s, a, c);
  }

  /** The step is the end of a close of c, or a crash of its node. */
  predicate Ends(s: State, l: Label, c: Conn) {
    match l
    case X(EraseClosed(d, victim)) => d == c && (victim == None || victim == Some(-1))
    case X(GoOffline(d, _)) => d == c && c in s.handlers && s.handlers[c].Exit? && s.handlers[c].closing
    case F(Crash(n)) => n == c.node && c in s.handlers
    case _ => false
  }

  lemma ExitEnds(s: State, x: ExitLabel, c: Conn)
    requires EnabledX(s, x) && !At(s, c, Dead)
    ensures At(StepX(s, x), c, Dead) <==> Ends(s, X(x), c)
  {
    ExitEffect(s, x);
  }

  lemma FaultEnds(s: State, f: FaultLabel, c: Conn)
    requires !At(s, c, Dead)
    ensures At(StepF(s, f), c, Dead) <==> Ends(s, F(f), c)
  {
  }

  /** In any state: a step ends a connection if and only if it is the end of its close, or a crash. */
  lemma EndsExactly(k: Codec, s: State, l: Label, c: Conn)
    requires Enabled(s, l) && !At(s, c, Dead)
    ensures At(Step(k, s, l), c, Dead) <==> Ends(s, l, c)
  {
    match l
    case X(x) => ExitEnds(s, x, c);
    case F(f) => FaultEnds(s, f, c);
    case _ => RequestGoesOn(k, s, l, c);
  }

  // ---- over whole runs ----

  predicate Dismisses(l: Label, c: Conn) {
    l == X(BeginClose(c)) || l == F(Crash(c.node))
  }

  lemma ExitGoesOn(s: State, x: ExitLabel, c: Conn)
    requires EnabledX(s, x) && !GoingAt(s, c) && x != BeginClose(c)
    ensures !GoingAt(StepX(s, x), c)
  {
    ExitEffect(s, x);
  }

  lemma FaultGoesOn(s: State, f: FaultLabel, c: Conn)
    requires !GoingAt(s, c) && f != Crash(c.node)
    ensures !GoingAt(StepF(s, f), c)
  {
  }

  lemma StepGoesOn(k: Codec, s: State, l: Label, c: Conn)
    requires Enabled(s, l) && !GoingAt(s, c) && !Dismisses(l, c)
    ensures !GoingAt(Step(k, s, l), c)
  {
    match l
    case X(x) => ExitGoesOn(s, x, c);
    case F(f) => FaultGoesOn(s, f, c);
    case _ => RequestGoesOn(k, s, l, c);
  }

  lemma {:induction false} GoingFrom(g: Regime, k: Codec, s: State, ls: seq<Label>, c: Conn)
    requires ValidRun(g, k, s, ls) && !GoingAt(s, c) && GoingAt(Run(g, k, s, ls), c)
    ensures X(BeginClose(c)) in ls || F(Crash(c.node)) in ls
    decreases |ls|
  {
    if ls != [] && !Dismisses(ls[0], c) {
      StepGoesOn(k, s, ls[0], c);
      GoingFrom(g, k, Step(k, s, ls[0]), ls[1..], c);
    }
  }

  /** Over every run with any faults: a connection that serves nothing any more was closed, or its node
      crashed; no login, logout, chat or ACK has that effect. */
  lemma EndedOnlyByClose(g: Regime, k: Codec, s: State, ls: seq<Label>, c: Conn)
    requires Init(s) && ValidRun(g, k, s, ls) && At(Run(g, k, s, ls), c, Dead)
    ensures X(BeginClose(c)) in ls || F(Crash(c.node)) in ls
  {
    GoingFrom(g, k, s, ls, c);
  }
}
