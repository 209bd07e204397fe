/** Session agreement: when logins of one user do not overlap and a connection serves one user at a
    time, the node maps, the stored online flags and the Redis subscriptions agree. */
module Sessions {
  import opened Wrappers
  import opened Json
  import opened Protocol
  import opened Effects

  // ---- who owns a user ----

  predicate HandlerOwns(h: Handler, u: UserId) {
    (h.Login? || h.Exit?) && h.user == u
  }

  /** u is bound to c, or c is running a login, logout or close of u. */
  predicate Owns(s: State, c: Conn, u: UserId) {
    c in s.handlers && (Bound(s, c, u) || HandlerOwns(s.handlers[c], u))
  }

  /** What the shared state must look like for a user, given the handler of its owner. */
  datatype Stage = Stage(bound: bool, online: bool, subscribed: bool)

  function StageOf(h: Handler, u: UserId): Stage {
    if !HandlerOwns(h, u) then Stage(true, true, true)
    else
      match h
      case Login(_, ToBind) => Stage(false, false, false)
      case Login(_, ToSubscribe) => Stage(true, false, false)
      case Login(_, ToSetOnline) => Stage(true, false, true)
      case Exit(_, ToUnsubscribe, _) => Stage(false, true, true)
      case Exit(_, ToSetOffline, _) => Stage(false, true, false)
      case _ => Stage(true, true, true)
  }

  predicate AtStage(redis: bool, s: State, c: Conn, u: UserId) {
    && c in s.handlers
    && var stage := StageOf(s.handlers[c], u);
    && u in s.users
    && !s.handlers[c].Dead?
    && Bound(s, c, u) == stage.bound
    && s.users[u].online == stage.online
    && (redis ==> (Slot(c.node, u) in s.subs) == stage.subscribed)
  }

  ghost predicate Owned(s: State, u: UserId) {
    exists c :: Owns(s, c, u)
  }

  ghost predicate SubscriberOwns(s: State, slot: Slot) {
    exists c :: Owns(s, c, slot.user) && c.node == slot.node
  }

  ghost predicate OneOwner(s: State, u: UserId) {
    forall c, d | Owns(s, c, u) && Owns(s, d, u) :: c == d
  }

  ghost predicate OneUserEach(s: State) {
    forall c, u, v | Owns(s, c, u) && Owns(s, c, v) :: u == v
  }

  ghost predicate BoundWell(s: State) {
    forall slot | slot in s.bound :: s.bound[slot].node == slot.node && s.bound[slot] in s.handlers
  }

  /** The part of the agreement that concerns user u. */
  ghost predicate AgreedFor(redis: bool, s: State, u: UserId) {
    && OneOwner(s, u) && OneUserEach(s) && BoundWell(s) && -1 !in s.users
    && (forall c | Owns(s, c, u) :: AtStage(redis, s, c, u))
    && (u in s.users && s.users[u].online ==> Owned(s, u))
    && (redis ==> forall n | Slot(n, u) in s.subs :: SubscriberOwns(s, Slot(n, u)))
  }

  ghost predicate Agreed(redis: bool, s: State) {
    forall u :: AgreedFor(redis, s, u)
  }

  // ---- the ways a step can go, seen from user u ----

  ghost predicate OwnersShrink(s: State, s': State) {
    BoundWell(s') && s'.users.Keys == s.users.Keys && forall c, v | Owns(s', c, v) :: Owns(s, c, v)
  }

  lemma ShrunkOwners(s: State, s': State, u: UserId)
    requires OneOwner(s, u) && OneUserEach(s) && OwnersShrink(s, s')
    ensures OneOwner(s', u) && OneUserEach(s')
  {
  }

  /** The owner of u takes a step on behalf of u and stays its owner. */
  lemma OwnerSteps(redis: bool, s: State, s': State, c: Conn, u: UserId)
    requires AgreedFor(redis, s, u) && Owns(s, c, u) && Owns(s', c, u) && OwnersShrink(s, s')
    requires AtStage(redis, s', c, u)
    requires forall n | Slot(n, u) in s'.subs :: Slot(n, u) in s.subs || n == c.node
    ensures AgreedFor(redis, s', u)
  {
    ShrunkOwners(s, s', u);
    forall n | redis && Slot(n, u) in s'.subs ensures SubscriberOwns(s', Slot(n, u)) {
      if Slot(n, u) in s.subs {
        assert SubscriberOwns(s, Slot(n, u));
        assert n == c.node;
      }
      assert Owns(s', c, u);
    }
  }

  /** Nothing changes for u: not its entries, not its row, and not what its owner does for it. */
  ghost predicate Untouched(s: State, s': State, u: UserId) {
    && s'.users.Keys == s.users.Keys && (u in s.users ==> s'.users[u] == s.users[u])
    && (forall n :: (Slot(n, u) in s'.subs) == (Slot(n, u) in s.subs))
    && (forall n :: (Slot(n, u) in s'.bound) == (Slot(n, u) in s.bound))
    && (forall n | Slot(n, u) in s.bound :: s'.bound[Slot(n, u)] == s.bound[Slot(n, u)])
  }

  /** The handler of c moves without serving u, before or after. */
  ghost predicate NotFor(s: State, s': State, c: Conn, u: UserId) {
    OnlyMoves(s, s', c) && !HandlerOwns(s.handlers[c], u) && !HandlerOwns(s'.handlers[c], u) &&
    (s'.handlers[c].Dead? ==> !Bound(s, c, u))
  }

  lemma SameOwnersOf(s: State, s': State, c: Conn, u: UserId)
    requires Untouched(s, s', u) && NotFor(s, s', c, u)
    ensures forall d :: Owns(s', d, u) <==> Owns(s, d, u)
  {
  }

  lemma OthersStep(redis: bool, s: State, s': State, c: Conn, u: UserId)
    requires AgreedFor(redis, s, u) && Untouched(s, s', u) && NotFor(s, s', c, u)
    requires OneUserEach(s') && BoundWell(s')
    ensures AgreedFor(redis, s', u)
  {
    SameOwnersOf(s, s', c, u);
    forall d | Owns(s', d, u) ensures AtStage(redis, s', d, u) {
      assert AtStage(redis, s, d, u);
    }
    if u in s'.users && s'.users[u].online {
      var d :| Owns(s, d, u);
      assert Owns(s', d, u);
    }
    forall n | redis && Slot(n, u) in s'.subs ensures SubscriberOwns(s', Slot(n, u)) {
      assert SubscriberOwns(s, Slot(n, u));
      var d :| Owns(s, d, u) && d.node == n;
      assert Owns(s', d, u);
    }
  }

  /** A step on behalf of user v, which owns c before or after it, seen from another user u. */
  lemma StepForAnother(redis: bool, s: State, s': State, c: Conn, v: UserId, u: UserId)
    requires AgreedFor(redis, s, u) && u != v && Untouched(s, s', u) && OnlyMoves(s, s', c)
    requires Owns(s, c, v) && OwnersShrink(s, s') && !HandlerOwns(s'.handlers[c], u)
    ensures AgreedFor(redis, s', u)
  {
    ShrunkOwners(s, s', u);
    assert !Owns(s, c, u);
    OthersStep(redis, s, s', c, u);
  }

  predicate OwnsNobody(h: Handler) {
    !h.Login? && !h.Exit?
  }

  /** A handler that serves no login or exit takes a step. */
  lemma BystanderSteps(redis: bool, s: State, s': State, c: Conn, u: UserId)
    requires AgreedFor(redis, s, u) && OnlyMoves(s, s', c) && SameSessions(s, s')
    requires OwnsNobody(s.handlers[c]) && OwnsNobody(s'.handlers[c])
    requires s'.handlers[c].Dead? ==> !Bound(s, c, u)
    ensures AgreedFor(redis, s', u)
  {
    assert OwnersShrink(s, s');
    ShrunkOwners(s, s', u);
    OthersStep(redis, s, s', c, u);
  }

  // ---- login ----

  /** A login gets past its read, with no other login of its user under way, only if nobody owns it. */
  lemma PassedLoginIsFree(redis: bool, s: State, u: UserId)
    requires AgreedFor(redis, s, u) && u in s.users && !s.users[u].online && !LoginUnderWay(s, u)
    ensures forall d :: !Owns(s, d, u)
  {
    forall d ensures !Owns(s, d, u) {
      assert Owns(s, d, u) ==> AtStage(redis, s, d, u);
    }
  }

  /** The login of v starts on a connection that serves nobody else. */
  lemma StartKeepsOneUser(s: State, s': State, c: Conn, v: UserId)
    requires OneUserEach(s) && At(s, c, Idle)
    requires forall slot | slot in s.bound && s.bound[slot] == c :: slot.user == v
    requires s'.handlers == s.handlers[c := Login(v, ToBind)] && s'.bound == s.bound
    ensures OneUserEach(s')
  {
    forall d, w | Owns(s', d, w) ensures if d == c then w == v else Owns(s, d, w) {
      if d == c && Bound(s, c, w) {
        assert Slot(c.node, w).user == v;
      }
    }
  }

  lemma LoginStarts(redis: bool, s: State, s': State, c: Conn, u: UserId)
    requires AgreedFor(redis, s, u) && c in s.handlers && u in s.users && !s.users[u].online
    requires forall d :: !Owns(s, d, u)
    requires s'.handlers == s.handlers[c := Login(u, ToBind)] && SameSessions(s, s') && OneUserEach(s')
    ensures AgreedFor(redis, s', u)
  {
    forall d ensures Owns(s', d, u) <==> d == c {
      assert !Owns(s, d, u);
    }
    assert !Owns(s, c, u);
    assert redis ==> forall n :: Slot(n, u) in s.subs ==> SubscriberOwns(s, Slot(n, u));
    assert AtStage(redis, s', c, u);
  }

  lemma BeginLoginKeeps(redis: bool, s: State, c: Conn, v: UserId, password: string, u: UserId)
    requires AgreedFor(redis, s, u) && EnabledL(s, BeginLogin(c, v, password, true)) && v in s.users
    requires OneUser(s, L(BeginLogin(c, v, password, true))) && !Overlaps(s, L(BeginLogin(c, v, password, true)), u)
    ensures AgreedFor(redis, DoBeginLogin(s, c, v, password, true), u)
  {
    var s' := DoBeginLogin(s, c, v, password, true);
    BeginLoginEffect(s, c, v, password, true);
    if s'.handlers[c] == Idle {
      BystanderSteps(redis, s, s', c, u);
    } else {
      StartKeepsOneUser(s, s', c, v);
      if u == v {
        PassedLoginIsFree(redis, s, u);
        LoginStarts(redis, s, s', c, u);
      } else {
        OthersStep(redis, s, s', c, u);
      }
    }
  }

  /** A login, logout or close step of v on its own behalf: what has to be shown for v itself. */
  lemma HandlerSteps(redis: bool, s: State, s': State, c: Conn, v: UserId, u: UserId)
    requires AgreedFor(redis, s, u) && Owns(s, c, v) && OnlyMoves(s, s', c) && OwnersShrink(s, s')
    requires u != v ==> Untouched(s, s', u) && !HandlerOwns(s'.handlers[c], u)
    requires u == v ==> Owns(s', c, u) && AtStage(redis, s', c, u)
    requires u == v ==> forall n | Slot(n, u) in s'.subs :: Slot(n, u) in s.subs || n == c.node
    ensures AgreedFor(redis, s', u)
  {
    if u == v {
      OwnerSteps(redis, s, s', c, u);
    } else {
      StepForAnother(redis, s, s', c, v, u);
    }
  }

  lemma BindShrinks(s: State, c: Conn)
    requires EnabledL(s, Bind(c)) && BoundWell(s)
    ensures OwnersShrink(s, DoBind(s, c))
  {
    BindEffect(s, c);
  }

  lemma BindKeeps(redis: bool, s: State, c: Conn, u: UserId)
    requires AgreedFor(redis, s, u) && EnabledL(s, Bind(c))
    ensures AgreedFor(redis, DoBind(s, c), u)
  {
    var v := s.handlers[c].user;
    BindEffect(s, c);
    BindShrinks(s, c);
    assert Owns(s, c, v) && (u == v ==> AtStage(redis, s, c, u));
    HandlerSteps(redis, s, DoBind(s, c), c, v, u);
  }

  lemma SubscribeKeeps(redis: bool, s: State, c: Conn, o: Outcome, u: UserId)
    requires AgreedFor(redis, s, u) && EnabledL(s, Subscribe(c, o)) && (redis ==> Applied(o))
    ensures AgreedFor(redis, DoSubscribe(s, c, o), u)
  {
    var v := s.handlers[c].user;
    SubscribeEffect(s, c, o);
    assert Owns(s, c, v) && (u == v ==> AtStage(redis, s, c, u));
    HandlerSteps(redis, s, DoSubscribe(s, c, o), c, v, u);
  }

  lemma GoOnlineKeeps(redis: bool, s: State, c: Conn, o: Outcome, u: UserId)
    requires AgreedFor(redis, s, u) && EnabledL(s, GoOnline(c, o)) && Applied(o)
    ensures AgreedFor(redis, DoGoOnline(s, c, o), u)
  {
    var v := s.handlers[c].user;
    GoOnlineEffect(s, c, o);
    assert Owns(s, c, v) && (u == v ==> AtStage(redis, s, c, u));
    HandlerSteps(redis, s, DoGoOnline(s, c, o), c, v, u);
  }

  /** The later phases of a login change nothing that sessions depend on. */
  lemma LoginTailKeeps(redis: bool, s: State, s': State, c: Conn, u: UserId)
    requires AgreedFor(redis, s, u) && InLogin(s, c) && (s.handlers[c].lp.ToQuery? || s.handlers[c].lp.ToMark?)
    requires OnlyMoves(s, s', c) && SameSessions(s, s')
    requires s'.handlers[c] == Idle ||
             (s'.handlers[c].Login? && s'.handlers[c].user == s.handlers[c].user && s'.handlers[c].lp.ToMark?)
    ensures AgreedFor(redis, s', u)
  {
    var v := s.handlers[c].user;
    assert Owns(s, c, v) && (u == v ==> AtStage(redis, s, c, u));
    HandlerSteps(redis, s, s', c, v, u);
  }

  lemma QueryBacklogKeeps(redis: bool, s: State, c: Conn, ok: bool, u: UserId)
    requires AgreedFor(redis, s, u) && EnabledL(s, QueryBacklog(c, ok))
    ensures AgreedFor(redis, DoQueryBacklog(s, c, ok), u)
  {
    QueryBacklogEffect(s, c, ok);
    LoginTailKeeps(redis, s, DoQueryBacklog(s, c, ok), c, u);
  }

  lemma MarkBacklogKeeps(redis: bool, s: State, c: Conn, o: Outcome, now: nat, u: UserId)
    requires AgreedFor(redis, s, u) && EnabledL(s, MarkBacklog(c, o, now))
    ensures AgreedFor(redis, DoMarkBacklog(s, c, o, now), u)
  {
    MarkBacklogEffect(s, c, o, now);
    LoginTailKeeps(redis, s, DoMarkBacklog(s, c, o, now), c, u);
  }

  lemma RespondKeeps(redis: bool, s: State, c: Conn, u: UserId)
    requires AgreedFor(redis, s, u) && EnabledL(s, Respond(c))
    ensures AgreedFor(redis, DoRespond(s, c), u)
  {
    RespondEffect(s, c);
    LoginTailKeeps(redis, s, DoRespond(s, c), c, u);
  }

  lemma KeepsL(redis: bool, s: State, l: LoginLabel, u: UserId)
    requires AgreedFor(redis, s, u) && EnabledL(s, l) && OneUser(s, L(l)) && Orderly(s, L(l))
    requires (redis ==> RedisWorks(L(l))) && !Overlaps(s, L(l), u)
    ensures AgreedFor(redis, StepL(s, l), u)
  {
    match l
    case BeginLogin(c, v, password, ok) => BeginLoginKeeps(redis, s, c, v, password, u);
    case Bind(c) => BindKeeps(redis, s, c, u);
    case Subscribe(c, o) => SubscribeKeeps(redis, s, c, o, u);
    case GoOnline(c, o) => GoOnlineKeeps(redis, s, c, o, u);
    case QueryBacklog(c, ok) => QueryBacklogKeeps(redis, s, c, ok, u);
    case MarkBacklog(c, o, now) => MarkBacklogKeeps(redis, s, c, o, now, u);
    case Respond(c) => RespondKeeps(redis, s, c, u);
  }

  // ---- logout and close ----

  lemma BeginLogoutKeeps(redis: bool, s: State, c: Conn, v: UserId, u: UserId)
    requires AgreedFor(redis, s, u) && At(s, c, Idle)
    ensures AgreedFor(redis, IfBound(s, c, v, Exit(v, ToErase, false)), u)
  {
    var s' := IfBound(s, c, v, Exit(v, ToErase, false));
    IfBoundEffect(s, c, v, Exit(v, ToErase, false));
    if Bound(s, c, v) {
      assert Owns(s, c, v) && (u == v ==> AtStage(redis, s, c, u));
      HandlerSteps(redis, s, s', c, v, u);
    } else {
      assert s' == s;
    }
  }

  lemma EraseKeeps(redis: bool, s: State, c: Conn, u: UserId)
    requires AgreedFor(redis, s, u) && EnabledX(s, Erase(c))
    ensures AgreedFor(redis, DoErase(s, c), u)
  {
    var v := s.handlers[c].user;
    EraseEffect(s, c);
    assert Owns(s, c, v) && (u == v ==> AtStage(redis, s, c, u));
    HandlerSteps(redis, s, DoErase(s, c), c, v, u);
  }

  lemma EraseClosedKeeps(redis: bool, s: State, c: Conn, victim: Option<UserId>, u: UserId)
    requires AgreedFor(redis, s, u) && EnabledX(s, EraseClosed(c, victim))
    ensures AgreedFor(redis, DoEraseClosed(s, c, victim), u)
  {
    EraseClosedEffect(s, c, victim);
    match victim
    case None => BystanderSteps(redis, s, DoEraseClosed(s, c, victim), c, u);
    case Some(v) =>
      assert Owns(s, c, v) && (u == v ==> AtStage(redis, s, c, u));
      HandlerSteps(redis, s, DoEraseClosed(s, c, victim), c, v, u);
  }

  lemma UnsubscribeKeeps(redis: bool, s: State, c: Conn, o: Outcome, u: UserId)
    requires AgreedFor(redis, s, u) && EnabledX(s, Unsubscribe(c, o)) && (redis ==> Applied(o))
    ensures AgreedFor(redis, DoUnsubscribe(s, c, o), u)
  {
    var v := s.handlers[c].user;
    UnsubscribeEffect(s, c, o);
    assert Owns(s, c, v) && (u == v ==> AtStage(redis, s, c, u));
    HandlerSteps(redis, s, DoUnsubscribe(s, c, o), c, v, u);
  }

  lemma GoOfflineShrinks(s: State, c: Conn, o: Outcome)
    requires EnabledX(s, GoOffline(c, o)) && BoundWell(s)
    ensures OwnersShrink(s, DoGoOffline(s, c, o))
  {
    GoOfflineEffect(s, c, o);
  }

  /** The last step of a logout or close gives the user up. */
  lemma GivesUp(redis: bool, s: State, c: Conn, o: Outcome, u: UserId)
    requires AgreedFor(redis, s, u) && EnabledX(s, GoOffline(c, o)) && Applied(o) && s.handlers[c].user == u
    ensures AgreedFor(redis, DoGoOffline(s, c, o), u)
  {
    var s' := DoGoOffline(s, c, o);
    GoOfflineEffect(s, c, o);
    GoOfflineShrinks(s, c, o);
    ShrunkOwners(s, s', u);
    assert Owns(s, c, u) && AtStage(redis, s, c, u);
    forall d ensures !Owns(s', d, u) {
      assert Owns(s, d, u) ==> d == c;
    }
    forall n | redis && Slot(n, u) in s.subs ensures n == c.node {
      assert SubscriberOwns(s, Slot(n, u));
    }
  }

  lemma GoOfflineKeeps(redis: bool, s: State, c: Conn, o: Outcome, u: UserId)
    requires AgreedFor(redis, s, u) && EnabledX(s, GoOffline(c, o)) && Applied(o)
    ensures AgreedFor(redis, DoGoOffline(s, c, o), u)
  {
    var v := s.handlers[c].user;
    GoOfflineEffect(s, c, o);
    GoOfflineShrinks(s, c, o);
    assert Owns(s, c, v);
    if u == v {
      GivesUp(redis, s, c, o, u);
    } else {
      StepForAnother(redis, s, DoGoOffline(s, c, o), c, v, u);
    }
  }

  lemma KeepsX(redis: bool, s: State, x: ExitLabel, u: UserId)
    requires AgreedFor(redis, s, u) && EnabledX(s, x) && Orderly(s, X(x)) && (redis ==> RedisWorks(X(x)))
    ensures AgreedFor(redis, StepX(s, x), u)
  {
    match x
    case BeginLogout(c, v) => BeginLogoutKeeps(redis, s, c, v, u);
    case Erase(c) => EraseKeeps(redis, s, c, u);
    case BeginClose(c) => BystanderSteps(redis, s, With(s, c, Closing), c, u);
    case EraseClosed(c, victim) => EraseClosedKeeps(redis, s, c, victim, u);
    case Unsubscribe(c, o) => UnsubscribeKeeps(redis, s, c, o, u);
    case GoOffline(c, o) => GoOfflineKeeps(redis, s, c, o, u);
  }

  // ---- everything else ----

  lemma ReleaseKeeps(redis: bool, s: State, n: NodeId, o: Outcome, now: nat, u: UserId)
    requires AgreedFor(redis, s, u) && EnabledS(s, Release(n, o, now))
    ensures AgreedFor(redis, DoRelease(s, n, o, now), u)
  {
    var s' := DoRelease(s, n, o, now);
    ReleaseEffect(s, n, o, now);
    var holder := s.locks[n].holder;
    if holder.Some? && InSend(s, holder.value) {
      BystanderSteps(redis, s, s', holder.value, u);
    } else {
      SessionsUntouched(redis, s, s', u);
    }
  }

  lemma SessionsUntouched(redis: bool, s: State, s': State, u: UserId)
    requires AgreedFor(redis, s, u) && s'.users == s.users && s'.bound == s.bound && s'.handlers == s.handlers
    requires redis ==> s'.subs == s.subs
    ensures AgreedFor(redis, s', u)
  {
    assert forall d, v :: Owns(s, d, v) <==> Owns(s', d, v);
    forall d | Owns(s', d, u) ensures AtStage(redis, s', d, u) {
      assert AtStage(redis, s, d, u);
    }
    if u in s.users && s.users[u].online {
      var d :| Owns(s, d, u);
      assert Owns(s', d, u);
    }
    forall n | redis && Slot(n, u) in s'.subs ensures SubscriberOwns(s', Slot(n, u)) {
      assert SubscriberOwns(s, Slot(n, u));
      var d :| Owns(s, d, u) && d.node == n;
      assert Owns(s', d, u);
    }
  }

  lemma SenderKeeps(redis: bool, k: Codec, s: State, d: SendLabel, u: UserId)
    requires AgreedFor(redis, s, u) && EnabledS(s, d) && !IsStart(d) && !d.Release?
    ensures AgreedFor(redis, StepS(k, s, d), u)
  {
    match d
    case Insert(c, o) =>
      InsertEffect(k, s, c, o);
      BystanderSteps(redis, s, DoInsert(k, s, c, o), c, u);
    case Lookup(c) =>
      LookupEffect(k, s, c);
      BystanderSteps(redis, s, DoLookup(k, s, c), c, u);
    case ReadState(c, ok) =>
      ReadStateEffect(s, c, ok);
      BystanderSteps(redis, s, DoReadState(s, c, ok), c, u);
    case Publish(c, o) =>
      PublishEffect(k, s, c, o);
      BystanderSteps(redis, s, DoPublish(k, s, c, o), c, u);
    case Receive(n) =>
      ReceiveEffect(k, s, n);
      SessionsUntouched(redis, s, DoReceive(k, s, n), u);
  }

  lemma KeepsS(redis: bool, k: Codec, s: State, d: SendLabel, u: UserId)
    requires AgreedFor(redis, s, u) && EnabledS(s, d)
    ensures AgreedFor(redis, StepS(k, s, d), u)
  {
    if IsStart(d) {
      StartEffect(k, s, d);
      StartIsBystander(redis, k, s, d, u);
    } else if d.Release? {
      ReleaseKeeps(redis, s, d.n, d.outcome, d.now, u);
    } else {
      SenderKeeps(redis, k, s, d, u);
    }
  }

  lemma StartIsBystander(redis: bool, k: Codec, s: State, d: SendLabel, u: UserId)
    requires AgreedFor(redis, s, u) && EnabledS(s, d) && IsStart(d) && Started(k, s, d)
    requires !StepS(k, s, d).handlers[d.c].Dead?
    ensures AgreedFor(redis, StepS(k, s, d), u)
  {
    assert OwnsNobody(s.handlers[d.c]);
    BystanderSteps(redis, s, StepS(k, s, d), d.c, u);
  }

  lemma KeepsA(redis: bool, s: State, a: AckLabel, u: UserId)
    requires AgreedFor(redis, s, u) && EnabledA(s, a)
    ensures AgreedFor(redis, StepA(s, a), u)
  {
    match a
    case BeginAck(c, v, id) =>
      IfBoundEffect(s, c, v, AckUpdate(v, id));
      BystanderSteps(redis, s, IfBound(s, c, v, AckUpdate(v, id)), c, u);
    case ApplyAck(c, o, now) => BystanderSteps(redis, s, DoAcknowledge(s, c, o, now), c, u);
  }

  /** Only a login of u that overlaps another login of u can break the agreement for u. */
  lemma StepKeepsAgreedFor(g: Regime, k: Codec, s: State, l: Label, u: UserId)
    requires g.oneUser && g.orderly && g.steady && AgreedFor(g.redis, s, u) && Allowed(g, k, s, l) && !Overlaps(s, l, u)
    ensures AgreedFor(g.redis, Step(k, s, l), u)
  {
    match l
    case L(l) => KeepsL(g.redis, s, l, u);
    case X(x) => KeepsX(g.redis, s, x, u);
    case S(d) => KeepsS(g.redis, k, s, d, u);
    case A(a) => KeepsA(g.redis, s, a, u);
    case F(f) => SessionsUntouched(g.redis, s, DoRedisLost(s, f.n), u);
  }

  lemma StepKeepsAgreed(g: Regime, k: Codec, s: State, l: Label)
    requires g.oneUser && g.alone && g.orderly && g.steady && Agreed(g.redis, s) && Allowed(g, k, s, l)
    ensures Agreed(g.redis, Step(k, s, l))
  {
    forall u ensures AgreedFor(g.redis, Step(k, s, l), u) {
      assert AgreedFor(g.redis, s, u) && !Overlaps(s, l, u);
      StepKeepsAgreedFor(g, k, s, l, u);
    }
  }

  lemma InitAgreed(redis: bool, s: State)
    requires Init(s)
    ensures Agreed(redis, s)
  {
    assert forall c, u :: !Owns(s, c, u);
  }

  // ---- over whole runs ----

  lemma {:induction false} AgreedFrom(g: Regime, k: Codec, s: State, ls: seq<Label>)
    requires g.oneUser && g.alone && g.orderly && g.steady && Agreed(g.redis, s) && ValidRun(g, k, s, ls)
    ensures Agreed(g.redis, Run(g, k, s, ls))
    decreases |ls|
  {
    if ls != [] {
      StepKeepsAgreed(g, k, s, ls[0]);
      AgreedFrom(g, k, Step(k, s, ls[0]), ls[1..]);
    }
  }

  /** In every reachable state a user is bound at most once over all nodes, on a connection of
      that node, and a connection serves at most one user. */
  lemma AtMostOneBinding(g: Regime, k: Codec, s: State, ls: seq<Label>, a: Slot, b: Slot)
    requires g.oneUser && g.alone && g.orderly && g.steady && Init(s) && ValidRun(g, k, s, ls)
    requires a in Run(g, k, s, ls).bound && b in Run(g, k, s, ls).bound
    ensures var s' := Run(g, k, s, ls);
      && (a.user == b.user ==> a == b)
      && (s'.bound[a] == s'.bound[b] ==> a == b)
  {
    var s' := Run(g, k, s, ls);
    InitAgreed(g.redis, s);
    AgreedFrom(g, k, s, ls);
    assert AgreedFor(g.redis, s', a.user);
    assert Owns(s', s'.bound[a], a.user) && Owns(s', s'.bound[b], b.user);
  }

  // ---- when a user is bound twice ----

  /** Two nodes hold u in their maps. */
  ghost predicate BoundTwice(s: State, u: UserId) {
    exists m, n :: m != n && Slot(m, u) in s.bound && Slot(n, u) in s.bound
  }

  ghost predicate NobodyNew(s: State, s': State) {
    forall slot | slot in s'.bound :: slot in s.bound
  }

  lemma OnlyBindBinds(k: Codec, s: State, l: Label)
    requires Enabled(s, l) && !(l.L? && l.l.Bind?)
    ensures NobodyNew(s, Step(k, s, l))
  {
    match l
    case L(l) => LoginEffect(s, l);
    case X(x) => ExitsBindNobody(s, x);
    case S(d) => SendersBindNobody(k, s, d);
    case A(a) => AckersBindNobody(s, a);
    case F(f) => FaultsBindNobody(s, f);
  }

  lemma FaultsBindNobody(s: State, f: FaultLabel)
    ensures NobodyNew(s, StepF(s, f))
  {
    match f
    case Crash(n) =>
    case RedisLost(n) =>
    case Reset =>
  }

  lemma ExitsBindNobody(s: State, x: ExitLabel)
    requires EnabledX(s, x)
    ensures NobodyNew(s, StepX(s, x))
  {
    match x
    case BeginLogout(c, u) => IfBoundEffect(s, c, u, Exit(u, ToErase, false));
    case Erase(c) =>
    case BeginClose(c) =>
    case EraseClosed(c, victim) =>
    case Unsubscribe(c, o) =>
    case GoOffline(c, o) =>
  }

  lemma SendersBindNobody(k: Codec, s: State, d: SendLabel)
    requires EnabledS(s, d)
    ensures StepS(k, s, d).bound == s.bound
  {
    if IsStart(d) {
      StartEffect(k, s, d);
    } else {
      match d
      case Insert(c, o) => InsertEffect(k, s, c, o);
      case Lookup(c) => LookupEffect(k, s, c);
      case ReadState(c, ok) => ReadStateEffect(s, c, ok);
      case Publish(c, o) => PublishEffect(k, s, c, o);
      case Receive(n) => ReceiveEffect(k, s, n);
      case Release(n, o, now) => ReleaseEffect(s, n, o, now);
    }
  }

  lemma AckersBindNobody(s: State, a: AckLabel)
    requires EnabledA(s, a)
    ensures StepA(s, a).bound == s.bound
  {
    match a
    case BeginAck(c, u, id) => IfBoundEffect(s, c, u, AckUpdate(u, id));
    case ApplyAck(c, o, now) =>
  }

  /** The step binds u while another node's map holds u. */
  ghost predicate BindsAgain(s: State, l: Label, u: UserId)
    requires Enabled(s, l)
  {
    l.L? && l.l.Bind? && s.handlers[l.l.c].user == u && exists n :: n != l.l.c.node && Slot(n, u) in s.bound
  }

  /** In any state in which u is bound at most once, exactly one kind of step binds it twice. */
  lemma SecondBindingExactly(k: Codec, s: State, l: Label, u: UserId)
    requires Enabled(s, l) && !BoundTwice(s, u)
    ensures BoundTwice(Step(k, s, l), u) <==> BindsAgain(s, l, u)
  {
    if l.L? && l.l.Bind? {
      BindAgainTwice(s, l.l.c, u);
    } else {
      OnlyBindBinds(k, s, l);
    }
  }

  lemma BindAgainTwice(s: State, c: Conn, u: UserId)
    requires EnabledL(s, Bind(c)) && !BoundTwice(s, u)
    ensures BoundTwice(DoBind(s, c), u) <==>
            s.handlers[c].user == u && exists n :: n != c.node && Slot(n, u) in s.bound
  {
    var s' := DoBind(s, c);
    if s.handlers[c].user == u && exists n :: n != c.node && Slot(n, u) in s.bound {
      var n :| n != c.node && Slot(n, u) in s.bound;
      assert Slot(c.node, u) in s'.bound && Slot(n, u) in s'.bound;
    }
  }

  ghost predicate InFlight(s: State, u: UserId) {
    exists c :: c in s.handlers && HandlerOwns(s.handlers[c], u)
  }

  lemma RestingUser(redis: bool, s: State, u: UserId, n: NodeId)
    requires AgreedFor(redis, s, u) && u in s.users && !InFlight(s, u)
    ensures s.users[u].online <==> exists m :: Slot(m, u) in s.bound
    ensures redis ==> (Slot(n, u) in s.bound <==> Slot(n, u) in s.subs)
  {
    if s.users[u].online {
      assert Owned(s, u);
      var c :| Owns(s, c, u);
      assert Slot(c.node, u) in s.bound;
    }
    forall m | Slot(m, u) in s.bound ensures s.users[u].online && (redis ==> Slot(m, u) in s.subs) {
      var c := s.bound[Slot(m, u)];
      assert Owns(s, c, u) && AtStage(redis, s, c, u);
    }
    if redis && Slot(n, u) in s.subs {
      assert SubscriberOwns(s, Slot(n, u));
    }
  }

  /** While no login, logout or close of u is in flight: u is stored as online exactly if some
      node's map holds u, and each node's map holds u exactly if that node is subscribed to u. */
  lemma AgreementAtRest(g: Regime, k: Codec, s: State, ls: seq<Label>, u: UserId, n: NodeId)
    requires g.oneUser && g.alone && g.orderly && g.steady && g.redis && Init(s) && ValidRun(g, k, s, ls)
    requires u in Run(g, k, s, ls).users && !InFlight(Run(g, k, s, ls), u)
    ensures var s' := Run(g, k, s, ls);
      && (s'.users[u].online <==> exists m :: Slot(m, u) in s'.bound)
      && (Slot(n, u) in s'.bound <==> Slot(n, u) in s'.subs)
  {
    InitAgreed(g.redis, s);
    AgreedFrom(g, k, s, ls);
    assert AgreedFor(g.redis, Run(g, k, s, ls), u);
    RestingUser(g.redis, Run(g, k, s, ls), u, n);
  }
}
