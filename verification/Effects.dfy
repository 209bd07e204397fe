/** What the steps outside the delivery path change: only the acting connection's handler, and
    never the messages. */
module Effects {
  import opened Wrappers
  import opened Json
  import opened Protocol

  /** A handler that is neither between bind and response of a login nor holding a stored message. */
  predicate Quiet(h: Handler) {
    match h
    case Login(_, lp) => lp.ToBind?
    case Send(_, _, _, sp) => sp.ToGenerate? || sp.ToInsert?
    case _ => true
  }

  predicate SameMessages(s: State, s': State) {
    s'.rows == s.rows && s'.logs == s.logs && s'.queues == s.queues && s'.locks == s.locks &&
    s'.since == s.since && s'.accepted == s.accepted
  }

  predicate SameSessions(s: State, s': State) {
    s'.users == s.users && s'.bound == s.bound && s'.subs == s.subs
  }

  predicate OnlyMoves(s: State, s': State, c: Conn) {
    c in s.handlers && c in s'.handlers && s'.handlers == s.handlers[c := s'.handlers[c]]
  }

  predicate QuietMove(s: State, s': State, c: Conn) {
    SameMessages(s, s') && s'.missed == s.missed &&
    OnlyMoves(s, s', c) && Quiet(s.handlers[c]) && Quiet(s'.handlers[c])
  }

  predicate Leaving(h: Handler) {
    h.Idle? || h.Exit? || h.Closing? || h.Dead?
  }

  lemma SameEntry(m: map<Conn, Handler>, c: Conn)
    requires c in m
    ensures m == m[c := m[c]]
  {
  }

  lemma IfBoundEffect(s: State, c: Conn, u: UserId, h: Handler)
    requires c in s.handlers && Quiet(s.handlers[c]) && Quiet(h)
    ensures QuietMove(s, IfBound(s, c, u, h), c) && SameSessions(s, IfBound(s, c, u, h))
    ensures IfBound(s, c, u, h).handlers[c] == h || IfBound(s, c, u, h) == s
  {
    SameEntry(s.handlers, c);
  }

  // ---- logout and close ----

  lemma EraseEffect(s: State, c: Conn)
    requires EnabledX(s, Erase(c))
    ensures QuietMove(s, DoErase(s, c), c) && Leaving(DoErase(s, c).handlers[c])
  {
  }

  lemma EraseClosedEffect(s: State, c: Conn, victim: Option<UserId>)
    requires EnabledX(s, EraseClosed(c, victim))
    ensures QuietMove(s, DoEraseClosed(s, c, victim), c) && Leaving(DoEraseClosed(s, c, victim).handlers[c])
  {
  }

  lemma UnsubscribeEffect(s: State, c: Conn, o: Outcome)
    requires EnabledX(s, Unsubscribe(c, o))
    ensures QuietMove(s, DoUnsubscribe(s, c, o), c) && Leaving(DoUnsubscribe(s, c, o).handlers[c])
  {
  }

  lemma GoOfflineEffect(s: State, c: Conn, o: Outcome)
    requires EnabledX(s, GoOffline(c, o))
    ensures QuietMove(s, DoGoOffline(s, c, o), c) && Leaving(DoGoOffline(s, c, o).handlers[c])
  {
  }

  lemma ExitEffect(s: State, x: ExitLabel)
    requires EnabledX(s, x)
    ensures QuietMove(s, StepX(s, x), x.c) && Leaving(StepX(s, x).handlers[x.c])
  {
    match x
    case BeginLogout(c, u) => IfBoundEffect(s, c, u, Exit(u, ToErase, false));
    case Erase(c) => EraseEffect(s, c);
    case BeginClose(c) => assert QuietMove(s, With(s, c, Closing), c);
    case EraseClosed(c, victim) => EraseClosedEffect(s, c, victim);
    case Unsubscribe(c, o) => UnsubscribeEffect(s, c, o);
    case GoOffline(c, o) => GoOfflineEffect(s, c, o);
  }

  // ---- steps of a handler before it stores anything ----

  predicate IsStart(d: SendLabel) {
    d.BeginOneChat? || d.BeginGroupChat? || d.QueryGroup? || d.GenerateId?
  }

  predicate Started(k: Codec, s: State, d: SendLabel)
    requires IsStart(d) && EnabledS(s, d)
  {
    QuietMove(s, StepS(k, s, d), d.c) && SameSessions(s, StepS(k, s, d)) &&
    !StepS(k, s, d).handlers[d.c].Login? && !StepS(k, s, d).handlers[d.c].AckUpdate? &&
    !StepS(k, s, d).handlers[d.c].Exit?
  }

  lemma QueryGroupEffect(k: Codec, s: State, c: Conn, members: seq<UserId>)
    requires EnabledS(s, QueryGroup(c, members))
    ensures Started(k, s, QueryGroup(c, members))
  {
  }

  lemma GenerateIdEffect(k: Codec, s: State, c: Conn, now: nat, pid: nat, counter: nat)
    requires EnabledS(s, GenerateId(c, now, pid, counter))
    ensures Started(k, s, GenerateId(c, now, pid, counter))
  {
    var h := s.handlers[c].(sp := ToInsert(MessageId.Pack(now, pid, counter)));
    var s' := With(s, c, h);
    assert QuietMove(s, s', c) && SameSessions(s, s') && s'.handlers[c] == h;
  }

  lemma StartEffect(k: Codec, s: State, d: SendLabel)
    requires EnabledS(s, d) && IsStart(d)
    ensures Started(k, s, d)
  {
    match d
    case BeginOneChat(c, u, to, body) =>
      IfBoundEffect(s, c, u, Send(Request(u, 0, ONE_CHAT_MSG, body), to, [], ToGenerate));
    case BeginGroupChat(c, u, group, body) =>
      IfBoundEffect(s, c, u, GroupQuery(Request(u, group, GROUP_CHAT_MSG, body)));
    case QueryGroup(c, members) => QueryGroupEffect(k, s, c, members);
    case GenerateId(c, now, pid, counter) => GenerateIdEffect(k, s, c, now, pid, counter);
  }

  // ---- login ----

  predicate LoginMove(s: State, s': State, c: Conn) {
    s'.queues == s.queues && s'.locks == s.locks && s'.accepted == s.accepted && OnlyMoves(s, s', c) &&
    (s'.handlers[c].Login? || s'.handlers[c].Idle?)
  }

  predicate PastBind(h: Handler) {
    h.Idle? || (h.Login? && !h.lp.ToBind?)
  }

  lemma BeginLoginEffect(s: State, c: Conn, u: UserId, password: string, ok: bool)
    requires EnabledL(s, BeginLogin(c, u, password, ok))
    ensures var s' := DoBeginLogin(s, c, u, password, ok);
            LoginMove(s, s', c) && SameSessions(s, s') && s'.rows == s.rows && s'.since == s.since &&
            s'.missed == s.missed && (s'.handlers[c] == Login(u, ToBind) || s'.handlers[c] == Idle)
  {
    SameEntry(s.handlers, c);
  }

  lemma BindEffect(s: State, c: Conn)
    requires EnabledL(s, Bind(c))
    ensures LoginMove(s, DoBind(s, c), c) && PastBind(DoBind(s, c).handlers[c]) && DoBind(s, c).rows == s.rows &&
            DoBind(s, c).logs == s.logs
  {
  }

  lemma SubscribeEffect(s: State, c: Conn, o: Outcome)
    requires EnabledL(s, Subscribe(c, o))
    ensures LoginMove(s, DoSubscribe(s, c, o), c) && PastBind(DoSubscribe(s, c, o).handlers[c]) &&
            SameMessages(s, DoSubscribe(s, c, o))
    ensures DoSubscribe(s, c, o).bound == s.bound && DoSubscribe(s, c, o).users == s.users
    ensures DoSubscribe(s, c, o).missed == s.missed
  {
  }

  lemma GoOnlineEffect(s: State, c: Conn, o: Outcome)
    requires EnabledL(s, GoOnline(c, o))
    ensures LoginMove(s, DoGoOnline(s, c, o), c) && PastBind(DoGoOnline(s, c, o).handlers[c]) &&
            SameMessages(s, DoGoOnline(s, c, o))
    ensures DoGoOnline(s, c, o).bound == s.bound && DoGoOnline(s, c, o).subs == s.subs
    ensures DoGoOnline(s, c, o).missed == s.missed
  {
  }

  lemma QueryBacklogEffect(s: State, c: Conn, ok: bool)
    requires EnabledL(s, QueryBacklog(c, ok))
    ensures LoginMove(s, DoQueryBacklog(s, c, ok), c) && PastBind(DoQueryBacklog(s, c, ok).handlers[c]) &&
            SameMessages(s, DoQueryBacklog(s, c, ok))
    ensures SameSessions(s, DoQueryBacklog(s, c, ok)) && s.missed <= DoQueryBacklog(s, c, ok).missed
  {
  }

  lemma MarkBacklogEffect(s: State, c: Conn, o: Outcome, now: nat)
    requires EnabledL(s, MarkBacklog(c, o, now))
    ensures var s' := DoMarkBacklog(s, c, o, now);
            LoginMove(s, s', c) && PastBind(s'.handlers[c]) && SameSessions(s, s') &&
            s'.logs == s.logs && s'.since == s.since && s'.missed == s.missed
  {
  }

  lemma RespondEffect(s: State, c: Conn)
    requires EnabledL(s, Respond(c))
    ensures LoginMove(s, DoRespond(s, c), c) && PastBind(DoRespond(s, c).handlers[c]) &&
            SameSessions(s, DoRespond(s, c))
    ensures DoRespond(s, c).rows == s.rows && DoRespond(s, c).since == s.since && DoRespond(s, c).missed == s.missed
  {
  }

  lemma LoginEffect(s: State, l: LoginLabel)
    requires EnabledL(s, l)
    ensures LoginMove(s, StepL(s, l), l.c)
    ensures !l.MarkBacklog? ==> StepL(s, l).rows == s.rows
    ensures !l.Bind? ==> StepL(s, l).bound == s.bound
    ensures !l.BeginLogin? ==> PastBind(StepL(s, l).handlers[l.c])
  {
    match l
    case BeginLogin(c, u, password, ok) => BeginLoginEffect(s, c, u, password, ok);
    case Bind(c) => BindEffect(s, c);
    case Subscribe(c, o) => SubscribeEffect(s, c, o);
    case GoOnline(c, o) => GoOnlineEffect(s, c, o);
    case QueryBacklog(c, ok) => QueryBacklogEffect(s, c, ok);
    case MarkBacklog(c, o, now) => MarkBacklogEffect(s, c, o, now);
    case Respond(c) => RespondEffect(s, c);
  }

  // ---- the delivery path ----

  predicate SendMove(s: State, s': State, c: Conn) {
    SameSessions(s, s') && s'.since == s.since && s'.missed == s.missed && OnlyMoves(s, s', c) &&
    (s'.handlers[c].Send? || s'.handlers[c].Idle?)
  }

  lemma InsertEffect(k: Codec, s: State, c: Conn, o: Outcome)
    requires EnabledS(s, Insert(c, o))
    ensures SendMove(s, DoInsert(k, s, c, o), c)
    ensures var s' := DoInsert(k, s, c, o); s'.logs == s.logs && s'.locks == s.locks && s'.queues == s.queues
  {
  }

  lemma LookupEffect(k: Codec, s: State, c: Conn)
    requires EnabledS(s, Lookup(c))
    ensures SendMove(s, DoLookup(k, s, c), c)
    ensures var s' := DoLookup(k, s, c); s'.rows == s.rows && s'.queues == s.queues && s'.accepted == s.accepted
  {
  }

  lemma ReadStateEffect(s: State, c: Conn, ok: bool)
    requires EnabledS(s, ReadState(c, ok))
    ensures SendMove(s, DoReadState(s, c, ok), c) && SameMessages(s, DoReadState(s, c, ok))
  {
  }

  lemma PublishEffect(k: Codec, s: State, c: Conn, o: Outcome)
    requires EnabledS(s, Publish(c, o))
    ensures SendMove(s, DoPublish(k, s, c, o), c)
    ensures var s' := DoPublish(k, s, c, o);
            s'.rows == s.rows && s'.logs == s.logs && s'.locks == s.locks && s'.accepted == s.accepted &&
            Quiet(s'.handlers[c])
  {
  }

  lemma ReceiveEffect(k: Codec, s: State, n: NodeId)
    requires EnabledS(s, Receive(n))
    ensures var s' := DoReceive(k, s, n);
            SameSessions(s, s') && s'.rows == s.rows && s'.handlers == s.handlers &&
            s'.since == s.since && s'.missed == s.missed && s'.accepted == s.accepted
  {
  }

  lemma ReleaseEffect(s: State, n: NodeId, o: Outcome, now: nat)
    requires EnabledS(s, Release(n, o, now))
    ensures var s' := DoRelease(s, n, o, now);
            && SameSessions(s, s') && s'.logs == s.logs && s'.queues == s.queues
            && s'.since == s.since && s'.missed == s.missed && s'.accepted == s.accepted
            && s'.handlers.Keys == s.handlers.Keys
            && forall c | c in s.handlers ::
                s'.handlers[c] == s.handlers[c] || (InSend(s, c) && s'.handlers[c] == Advance(s.handlers[c]))
  {
  }

  // ---- faults ----

  lemma FaultsKeepHandlers(s: State, f: FaultLabel, c: Conn)
    ensures StepF(s, f).rows == s.rows && StepF(s, f).logs == s.logs
    ensures StepF(s, f).handlers.Keys == s.handlers.Keys
    ensures c in s.handlers ==> StepF(s, f).handlers[c] == s.handlers[c] || StepF(s, f).handlers[c] == Dead
  {
    match f
    case Crash(n) =>
    case RedisLost(n) =>
    case Reset =>
  }

  /** What a fault takes from node n itself: its subscriptions and waiting publications, and in a crash also
      its map entries and its mutex. */
  predicate GoneFrom(s: State, n: NodeId, crashed: bool) {
    && (forall slot | slot in s.subs :: slot.node != n)
    && (n in s.queues ==> s.queues[n] == [])
    && (crashed ==> n !in s.locks && forall slot | slot in s.bound :: slot.node != n)
  }

  ghost predicate SameElsewhere(s: State, s': State, n: NodeId) {
    && (forall slot: Slot | slot.node != n :: slot in s'.subs <==> slot in s.subs)
    && (forall slot: Slot | slot.node != n :: slot in s'.bound <==> slot in s.bound)
    && (forall slot: Slot | slot.node != n && slot in s'.bound && slot in s.bound :: s'.bound[slot] == s.bound[slot])
    && s'.queues.Keys == s.queues.Keys && (forall m | m != n && m in s.queues :: s'.queues[m] == s.queues[m])
    && s'.handlers.Keys == s.handlers.Keys
    && (forall c | c in s.handlers && c.node != n :: s'.handlers[c] == s.handlers[c])
    && s'.users == s.users && s'.rows == s.rows && s'.logs == s.logs
  }

  /** A crash takes a node's own state and leaves the other nodes and the tables alone. */
  lemma CrashIsLocal(s: State, n: NodeId)
    ensures GoneFrom(StepF(s, Crash(n)), n, true) && SameElsewhere(s, StepF(s, Crash(n)), n)
  {
  }

  /** The loss of Redis takes less: map, mutex and handlers of the node stay too. */
  lemma RedisLossIsLocal(s: State, n: NodeId)
    ensures GoneFrom(StepF(s, RedisLost(n)), n, false) && SameElsewhere(s, StepF(s, RedisLost(n)), n)
    ensures var s' := StepF(s, RedisLost(n)); s'.bound == s.bound && s'.handlers == s.handlers && s'.locks == s.locks
  {
  }
}
