/** How a user comes to be bound on two nodes, over every run with any faults: its logins overlapped,
    its update to online was lost, or every user was reset to offline. */
module Twice {
  import opened Wrappers
  import opened Json
  import opened Protocol
  import opened Effects
  import opened Durability
  import opened Sessions

  /** A login that has not stored its user as online yet. */
  predicate Early(h: Handler, u: UserId) {
    h.Login? && h.user == u && (h.lp.ToBind? || h.lp.ToSubscribe? || h.lp.ToSetOnline?)
  }

  predicate EarlyAt(s: State, c: Conn, u: UserId) {
    c in s.handlers && Early(s.handlers[c], u)
  }

  /** A logout or close after its erase. */
  predicate Erased(h: Handler, u: UserId) {
    h.Exit? && h.user == u && !h.ep.ToErase?
  }

  /** u has one owner at most, and is stored as online once the owner's login is past its update. */
  ghost predicate Single(s: State, u: UserId) {
    && OneOwner(s, u) && BoundWell(s)
    && (forall c | Owns(s, c, u) :: u in s.users && (s.users[u].online || EarlyAt(s, c, u)))
    && (forall c | c in s.handlers && Erased(s.handlers[c], u) :: !Bound(s, c, u))
  }

  /** The three kinds of steps that can lead to a second owner of u. */
  ghost predicate Excuse(s: State, l: Label, u: UserId)
    requires Enabled(s, l)
  {
    match l
    case L(GoOnline(c, outcome)) => s.handlers[c].user == u && !Applied(outcome)
    case F(f) => f.Reset?
    case _ => Overlaps(s, l, u)
  }

  // ---- steps that give u no new owner ----

  /** The stored row of u and the owners of u are as before, or fewer owners, and no further from online. */
  ghost predicate NoNewOwner(s: State, s': State, u: UserId) {
    && BoundWell(s') && s'.users.Keys == s.users.Keys
    && (u in s.users && s.users[u].online ==> s'.users[u].online)
    && (forall d | Owns(s', d, u) :: Owns(s, d, u) &&
          (Early(s.handlers[d], u) ==> Early(s'.handlers[d], u) || (u in s.users && s'.users[u].online)))
    && (forall d | d in s'.handlers && Erased(s'.handlers[d], u) :: !Bound(s', d, u))
  }

  lemma StaysSingle(s: State, s': State, u: UserId)
    requires Single(s, u) && NoNewOwner(s, s', u)
    ensures Single(s', u)
  {
  }

  /** A handler that serves neither a login nor an exit moves. */
  lemma BystanderMoves(s: State, s': State, c: Conn, u: UserId)
    requires Single(s, u) && OnlyMoves(s, s', c) && SameSessions(s, s')
    requires OwnsNobody(s.handlers[c]) && OwnsNobody(s'.handlers[c])
    ensures Single(s', u)
  {
    forall d | Owns(s', d, u) ensures Owns(s, d, u) && (Early(s.handlers[d], u) ==> Early(s'.handlers[d], u)) {
      assert d != c ==> s'.handlers[d] == s.handlers[d];
    }
    StaysSingle(s, s', u);
  }

  // ---- login ----

  lemma BeginLoginSingle(s: State, c: Conn, v: UserId, password: string, ok: bool, u: UserId)
    requires Single(s, u) && u != -1 && EnabledL(s, BeginLogin(c, v, password, ok))
    requires !Overlaps(s, L(BeginLogin(c, v, password, ok)), u)
    ensures Single(DoBeginLogin(s, c, v, password, ok), u)
  {
    var s' := DoBeginLogin(s, c, v, password, ok);
    BeginLoginEffect(s, c, v, password, ok);
    if s'.handlers[c] == Idle {
      BystanderMoves(s, s', c, u);
    } else if v == u {
      PassedSingle(s, s', c, u);
    } else {
      StaysSingle(s, s', u);
    }
  }

  /** Nobody owns a user that reads as offline while no login of it is under way. */
  lemma PassedSingle(s: State, s': State, c: Conn, u: UserId)
    requires Single(s, u) && At(s, c, Idle) && u in s.users && !s.users[u].online && !LoginUnderWay(s, u)
    requires s'.handlers == s.handlers[c := Login(u, ToBind)] && SameSessions(s, s')
    ensures Single(s', u)
  {
    forall d ensures !Owns(s, d, u) {
      assert Owns(s, d, u) ==> EarlyAt(s, d, u);
    }
    assert forall d | Owns(s', d, u) :: d == c || Owns(s, d, u);
  }

  lemma BindSingle(s: State, c: Conn, u: UserId)
    requires Single(s, u) && EnabledL(s, Bind(c))
    ensures Single(DoBind(s, c), u)
  {
    var v := s.handlers[c].user;
    var s' := DoBind(s, c);
    BindEffect(s, c);
    BindShrinks(s, c);
    forall d | Owns(s', d, u) ensures Owns(s, d, u) && (Early(s.handlers[d], u) ==> Early(s'.handlers[d], u)) {
      assert d != c ==> s'.handlers[d] == s.handlers[d];
    }
    forall d | d in s'.handlers && Erased(s'.handlers[d], u) ensures !Bound(s', d, u) {
      assert d != c && Erased(s.handlers[d], u);
    }
    StaysSingle(s, s', u);
  }

  lemma SubscribeSingle(s: State, c: Conn, o: Outcome, u: UserId)
    requires Single(s, u) && EnabledL(s, Subscribe(c, o))
    ensures Single(DoSubscribe(s, c, o), u)
  {
    var s' := DoSubscribe(s, c, o);
    SubscribeEffect(s, c, o);
    forall d | Owns(s', d, u) ensures Owns(s, d, u) && (Early(s.handlers[d], u) ==> Early(s'.handlers[d], u)) {
      assert d != c ==> s'.handlers[d] == s.handlers[d];
    }
    StaysSingle(s, s', u);
  }

  lemma GoOnlineSingle(s: State, c: Conn, o: Outcome, u: UserId)
    requires Single(s, u) && EnabledL(s, GoOnline(c, o)) && (s.handlers[c].user == u ==> Applied(o))
    ensures Single(DoGoOnline(s, c, o), u)
  {
    var s' := DoGoOnline(s, c, o);
    GoOnlineEffect(s, c, o);
    assert s.handlers[c].user == u ==> Owns(s, c, u);
    forall d | Owns(s', d, u)
      ensures Owns(s, d, u) && (Early(s.handlers[d], u) ==> Early(s'.handlers[d], u) || s'.users[u].online)
    {
      assert d != c ==> s'.handlers[d] == s.handlers[d];
    }
    StaysSingle(s, s', u);
  }

  lemma LoginTailSingle(s: State, s': State, c: Conn, u: UserId)
    requires Single(s, u) && InLogin(s, c) && (s.handlers[c].lp.ToQuery? || s.handlers[c].lp.ToMark?)
    requires OnlyMoves(s, s', c) && SameSessions(s, s')
    requires s'.handlers[c] == Idle ||
             (s'.handlers[c].Login? && s'.handlers[c].user == s.handlers[c].user && s'.handlers[c].lp.ToMark?)
    ensures Single(s', u)
  {
    forall d | Owns(s', d, u) ensures Owns(s, d, u) && (Early(s.handlers[d], u) ==> Early(s'.handlers[d], u)) {
      assert d != c ==> s'.handlers[d] == s.handlers[d];
    }
    StaysSingle(s, s', u);
  }

  lemma QueryBacklogSingle(s: State, c: Conn, ok: bool, u: UserId)
    requires Single(s, u) && EnabledL(s, QueryBacklog(c, ok))
    ensures Single(DoQueryBacklog(s, c, ok), u)
  {
    QueryBacklogEffect(s, c, ok);
    LoginTailSingle(s, DoQueryBacklog(s, c, ok), c, u);
  }

  lemma MarkBacklogSingle(s: State, c: Conn, o: Outcome, now: nat, u: UserId)
    requires Single(s, u) && EnabledL(s, MarkBacklog(c, o, now))
    ensures Single(DoMarkBacklog(s, c, o, now), u)
  {
    MarkBacklogEffect(s, c, o, now);
    LoginTailSingle(s, DoMarkBacklog(s, c, o, now), c, u);
  }

  lemma RespondSingle(s: State, c: Conn, u: UserId)
    requires Single(s, u) && EnabledL(s, Respond(c))
    ensures Single(DoRespond(s, c), u)
  {
    RespondEffect(s, c);
    LoginTailSingle(s, DoRespond(s, c), c, u);
  }

  lemma LoginSingle(s: State, l: LoginLabel, u: UserId)
    requires Single(s, u) && u != -1 && EnabledL(s, l) && !Excuse(s, L(l), u)
    ensures Single(StepL(s, l), u)
  {
    match l
    case BeginLogin(c, v, password, ok) => BeginLoginSingle(s, c, v, password, ok, u);
    case Bind(c) => BindSingle(s, c, u);
    case Subscribe(c, o) => SubscribeSingle(s, c, o, u);
    case GoOnline(c, o) => GoOnlineSingle(s, c, o, u);
    case QueryBacklog(c, ok) => QueryBacklogSingle(s, c, ok, u);
    case MarkBacklog(c, o, now) => MarkBacklogSingle(s, c, o, now, u);
    case Respond(c) => RespondSingle(s, c, u);
  }

  // ---- logout and close ----

  lemma BeginLogoutSingle(s: State, c: Conn, v: UserId, u: UserId)
    requires Single(s, u) && At(s, c, Idle)
    ensures Single(IfBound(s, c, v, Exit(v, ToErase, false)), u)
  {
    var s' := IfBound(s, c, v, Exit(v, ToErase, false));
    IfBoundEffect(s, c, v, Exit(v, ToErase, false));
    forall d | Owns(s', d, u) ensures Owns(s, d, u) && (Early(s.handlers[d], u) ==> Early(s'.handlers[d], u)) {
      assert d != c ==> s'.handlers[d] == s.handlers[d];
    }
    StaysSingle(s, s', u);
  }

  /** The handler of c drops an entry for v, or keeps the map, and goes on as an exit of v, idle or dead. */
  lemma ExitSingle(s: State, s': State, c: Conn, v: UserId, u: UserId)
    requires Single(s, u) && OnlyMoves(s, s', c) && s'.users == s.users && Owns(s, c, v)
    requires !s.handlers[c].Login?
    requires s'.bound == s.bound || s'.bound == s.bound - {Slot(c.node, v)}
    requires s'.handlers[c] == Dead || (s'.handlers[c].Exit? && s'.handlers[c].user == v)
    requires s'.handlers[c].Exit? && !s'.handlers[c].ep.ToErase? ==> !Bound(s', c, v)
    ensures Single(s', u)
  {
    forall d | Owns(s', d, u) ensures Owns(s, d, u) && (Early(s.handlers[d], u) ==> Early(s'.handlers[d], u)) {
      assert d != c ==> s'.handlers[d] == s.handlers[d];
    }
    forall d | d in s'.handlers && Erased(s'.handlers[d], u) ensures !Bound(s', d, u) {
      assert d != c ==> Erased(s.handlers[d], u);
    }
    StaysSingle(s, s', u);
  }

  lemma EraseClosedSingle(s: State, c: Conn, victim: Option<UserId>, u: UserId)
    requires Single(s, u) && EnabledX(s, EraseClosed(c, victim))
    ensures Single(DoEraseClosed(s, c, victim), u)
  {
    EraseClosedEffect(s, c, victim);
    match victim
    case None => BystanderMoves(s, DoEraseClosed(s, c, victim), c, u);
    case Some(v) => ExitSingle(s, DoEraseClosed(s, c, victim), c, v, u);
  }

  lemma UnsubscribeSingle(s: State, c: Conn, o: Outcome, u: UserId)
    requires Single(s, u) && EnabledX(s, Unsubscribe(c, o))
    ensures Single(DoUnsubscribe(s, c, o), u)
  {
    var s' := DoUnsubscribe(s, c, o);
    UnsubscribeEffect(s, c, o);
    forall d | Owns(s', d, u) ensures Owns(s, d, u) && (Early(s.handlers[d], u) ==> Early(s'.handlers[d], u)) {
      assert d != c ==> s'.handlers[d] == s.handlers[d];
    }
    forall d | d in s'.handlers && Erased(s'.handlers[d], u) ensures !Bound(s', d, u) {
      assert Erased(s.handlers[d], u);
    }
    StaysSingle(s, s', u);
  }

  /** The last step of an exit: nobody owns the user that it stores as offline. */
  lemma GoOfflineSingle(s: State, c: Conn, o: Outcome, u: UserId)
    requires Single(s, u) && EnabledX(s, GoOffline(c, o))
    ensures Single(DoGoOffline(s, c, o), u)
  {
    var s' := DoGoOffline(s, c, o);
    GoOfflineEffect(s, c, o);
    if s.handlers[c].user == u {
      assert Owns(s, c, u) && Erased(s.handlers[c], u);
      forall d ensures !Owns(s', d, u) {
        assert Owns(s, d, u) ==> d == c;
      }
    } else {
      forall d | Owns(s', d, u) ensures Owns(s, d, u) && (Early(s.handlers[d], u) ==> Early(s'.handlers[d], u)) {
        assert d != c ==> s'.handlers[d] == s.handlers[d];
      }
      StaysSingle(s, s', u);
    }
  }

  lemma LeaveSingle(s: State, x: ExitLabel, u: UserId)
    requires Single(s, u) && EnabledX(s, x)
    ensures Single(StepX(s, x), u)
  {
    match x
    case BeginLogout(c, v) => BeginLogoutSingle(s, c, v, u);
    case Erase(c) => EraseEffect(s, c); ExitSingle(s, DoErase(s, c), c, s.handlers[c].user, u);
    case BeginClose(c) => BystanderMoves(s, With(s, c, Closing), c, u);
    case EraseClosed(c, victim) => EraseClosedSingle(s, c, victim, u);
    case Unsubscribe(c, o) => UnsubscribeSingle(s, c, o, u);
    case GoOffline(c, o) => GoOfflineSingle(s, c, o, u);
  }

  // ---- everything else ----

  lemma SessionsSame(s: State, s': State, u: UserId)
    requires Single(s, u) && s'.users == s.users && s'.bound == s.bound && s'.handlers == s.handlers
    ensures Single(s', u)
  {
    assert forall d :: Owns(s', d, u) == Owns(s, d, u);
  }

  lemma ReleaseSingle(s: State, n: NodeId, o: Outcome, now: nat, u: UserId)
    requires Single(s, u) && EnabledS(s, Release(n, o, now))
    ensures Single(DoRelease(s, n, o, now), u)
  {
    var s' := DoRelease(s, n, o, now);
    ReleaseEffect(s, n, o, now);
    var holder := s.locks[n].holder;
    if holder.Some? && InSend(s, holder.value) {
      BystanderMoves(s, s', holder.value, u);
    } else {
      SessionsSame(s, s', u);
    }
  }

  lemma SenderSingle(k: Codec, s: State, d: SendLabel, u: UserId)
    requires Single(s, u) && EnabledS(s, d) && !IsStart(d) && !d.Release?
    ensures Single(StepS(k, s, d), u)
  {
    match d
    case Insert(c, o) => InsertEffect(k, s, c, o); BystanderMoves(s, DoInsert(k, s, c, o), c, u);
    case Lookup(c) => LookupEffect(k, s, c); BystanderMoves(s, DoLookup(k, s, c), c, u);
    case ReadState(c, ok) => ReadStateEffect(s, c, ok); BystanderMoves(s, DoReadState(s, c, ok), c, u);
    case Publish(c, o) => PublishEffect(k, s, c, o); BystanderMoves(s, DoPublish(k, s, c, o), c, u);
    case Receive(n) => ReceiveEffect(k, s, n); SessionsSame(s, DoReceive(k, s, n), u);
  }

  lemma SendSingle(k: Codec, s: State, d: SendLabel, u: UserId)
    requires Single(s, u) && EnabledS(s, d)
    ensures Single(StepS(k, s, d), u)
  {
    if IsStart(d) {
      StartEffect(k, s, d);
      assert OwnsNobody(s.handlers[d.c]) && OwnsNobody(StepS(k, s, d).handlers[d.c]);
      BystanderMoves(s, StepS(k, s, d), d.c, u);
    } else if d.Release? {
      ReleaseSingle(s, d.n, d.outcome, d.now, u);
    } else {
      SenderSingle(k, s, d, u);
    }
  }

  lemma AckSingle(s: State, a: AckLabel, u: UserId)
    requires Single(s, u) && EnabledA(s, a)
    ensures Single(StepA(s, a), u)
  {
    match a
    case BeginAck(c, v, id) =>
      IfBoundEffect(s, c, v, AckUpdate(v, id));
      BystanderMoves(s, IfBound(s, c, v, AckUpdate(v, id)), c, u);
    case ApplyAck(c, o, now) =>
      ApplyAckMoves(s, c, o, now);
      BystanderMoves(s, DoAcknowledge(s, c, o, now), c, u);
  }

  lemma CrashSingle(s: State, n: NodeId, u: UserId)
    requires Single(s, u)
    ensures Single(DoCrash(s, n), u)
  {
    var s' := DoCrash(s, n);
    forall d | Owns(s', d, u) ensures Owns(s, d, u) && (Early(s.handlers[d], u) ==> Early(s'.handlers[d], u)) {
      assert d.node != n;
    }
    StaysSingle(s, s', u);
  }

  /** Every other step keeps the user single, whatever fails and whoever else logs in. */
  lemma StepSingle(k: Codec, s: State, l: Label, u: UserId)
    requires Single(s, u) && u != -1 && Enabled(s, l) && !Excuse(s, l, u)
    ensures Single(Step(k, s, l), u)
  {
    match l
    case L(l) => LoginSingle(s, l, u);
    case X(x) => LeaveSingle(s, x, u);
    case S(d) => SendSingle(k, s, d, u);
    case A(a) => AckSingle(s, a, u);
    case F(Crash(n)) => CrashSingle(s, n, u);
    case F(RedisLost(n)) => SessionsSame(s, DoRedisLost(s, n), u);
    case F(Reset) => assert false;
  }

  // ---- over whole runs ----

  ghost predicate Excused(g: Regime, k: Codec, s: State, ls: seq<Label>, u: UserId)
    requires ValidRun(g, k, s, ls)
    decreases |ls|
  {
    ls != [] && (Excuse(s, ls[0], u) || Excused(g, k, Step(k, s, ls[0]), ls[1..], u))
  }

  lemma {:induction false} SingleOrExcused(g: Regime, k: Codec, s: State, ls: seq<Label>, u: UserId)
    requires Single(s, u) && u != -1 && ValidRun(g, k, s, ls)
    ensures Single(Run(g, k, s, ls), u) || Excused(g, k, s, ls, u)
    decreases |ls|
  {
    if ls != [] && !Excuse(s, ls[0], u) {
      StepSingle(k, s, ls[0], u);
      SingleOrExcused(g, k, Step(k, s, ls[0]), ls[1..], u);
    }
  }

  lemma InitSingle(s: State, u: UserId)
    requires Init(s)
    ensures Single(s, u)
  {
  }

  /** Over every run with any faults: a user is bound twice only if, earlier, one of its logins passed its
      read while another was under way, one of its logins failed to store it as online, or a node was reset. */
  lemma TwiceOnlyAfter(g: Regime, k: Codec, s: State, ls: seq<Label>, u: UserId)
    requires Init(s) && ValidRun(g, k, s, ls) && u != -1 && BoundTwice(Run(g, k, s, ls), u)
    ensures Excused(g, k, s, ls, u)
  {
    InitSingle(s, u);
    SingleOrExcused(g, k, s, ls, u);
    SingleIsOnce(Run(g, k, s, ls), u);
  }

  lemma SingleIsOnce(s: State, u: UserId)
    ensures Single(s, u) ==> !BoundTwice(s, u)
  {
    forall m, n | Single(s, u) && Slot(m, u) in s.bound && Slot(n, u) in s.bound ensures m == n {
      assert Owns(s, s.bound[Slot(m, u)], u) && Owns(s, s.bound[Slot(n, u)], u);
    }
  }
}
