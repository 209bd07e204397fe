/** Runs that show which assumptions the session and status properties need. */
module Witnesses {
  import opened Wrappers
  import opened Json
  import opened MessageTable
  import opened Protocol
  import opened Runs
  import opened Effects
  import opened Persistence
  import opened Sessions
  import opened Bindings
  import Client
  import Delivered
  import Framing
  import MessageId

  // ---- a login that meets no obstacle ----

  predicate CameOnline(s: State, s': State, c: Conn, u: UserId) {
    && s'.bound == s.bound[Slot(c.node, u) := c] && s'.handlers == s.handlers && s'.rows == s.rows
    && s'.locks == s.locks && s'.queues == s.queues && s'.users == SetOnline(s.users, u, true)
    && s'.logs == Append(s.logs, c, LoginOk(u, []))
  }

  lemma NoBacklog(u: UserId)
    ensures |Unacked(map[], u)| == 0 && SelectUnacked(map[], u, 1000) == []
  {
    assert Unacked(map[], u) == {};
  }

  lemma GetEmptyBacklog(g: Regime, k: Codec, s0: State, s: State, c: Conn, u: UserId) returns (s': State)
    requires Reach(g, k, s0, s) && At(s, c, Login(u, ToQuery)) && s.rows == map[]
    ensures Reach(g, k, s0, s') && s'.handlers == s.handlers[c := Idle]
    ensures SameSessions(s, s') && s'.rows == s.rows && s'.locks == s.locks && s'.queues == s.queues
    ensures s'.logs == Append(s.logs, c, LoginOk(u, []))
  {
    NoBacklog(u);
    var s1 := DoQueryBacklog(s, c, true);
    ReachStep(g, k, s0, s, L(QueryBacklog(c, true)));
    s' := DoRespond(s1, c);
    ReachStep(g, k, s0, s1, L(Respond(c)));
  }

  lemma LogIn(g: Regime, k: Codec, s0: State, s: State, c: Conn, u: UserId) returns (s': State)
    requires Reach(g, k, s0, s) && CanLogIn(g, s, c, u) && s.rows == map[]
    ensures Reach(g, k, s0, s') && CameOnline(s, s', c, u)
  {
    var s1 := PassAndBind(g, k, s0, s, c, u);
    var s2 := ComeOnline(g, k, s0, s1, c, u);
    s' := GetEmptyBacklog(g, k, s0, s2, c, u);
    SameEntry(s.handlers, c);
  }

  function Start(users: set<UserId>, nodes: set<NodeId>, conns: set<Conn>): State {
    State(map u | u in users :: User("", false), map[], map[], map[], {},
          map n | n in nodes :: [], map c | c in conns :: Idle, map[], map[], {}, map[])
  }

  // ---- two users on one connection ----

  /** Every assumption but the one named. */
  const ANY_USERS := Regime(false, true, true, true, true, true, true, true)
  const ANY_LOGINS := Regime(true, false, true, true, true, true, true, true)
  const ANY_MARKS := Regime(true, true, true, true, true, true, false, true)

  ghost predicate Reachable(g: Regime, k: Codec, s: State) {
    exists s0 :: Init(s0) && Reach(g, k, s0, s)
  }

  lemma FromStart(g: Regime, k: Codec, users: set<UserId>, nodes: set<NodeId>, conns: set<Conn>, s: State)
    requires -1 !in users && (forall c | c in conns :: c.node in nodes) && Reach(g, k, Start(users, nodes, conns), s)
    ensures Reachable(g, k, s)
  {
    assert Init(Start(users, nodes, conns));
  }

  lemma TwoUsersLogIn(k: Codec, s0: State, c: Conn) returns (s: State)
    requires s0 == Start({1, 2}, {0}, {c}) && c == Conn(0, 0)
    ensures Reach(ANY_USERS, k, s0, s) && At(s, c, Idle) && Bound(s, c, 1) && Bound(s, c, 2) && Free(s, 0)
  {
    ReachSelf(ANY_USERS, k, s0);
    var s1 := LogIn(ANY_USERS, k, s0, s0, c, 1);
    s := LogIn(ANY_USERS, k, s0, s1, c, 2);
  }

  /** Without the one-user assumption a close can leave a dead connection in the map. */
  lemma CloseCanForgetOnlyOne(k: Codec) returns (s: State, c: Conn)
    ensures Reachable(ANY_USERS, k, s) && EnabledX(s, EraseClosed(c, Some(1)))
    ensures !Forgotten(DoEraseClosed(s, c, Some(1)), c)
  {
    c := Conn(0, 0);
    var s0 := Start({1, 2}, {0}, {c});
    var s1 := TwoUsersLogIn(k, s0, c);
    s := CloseBegins(ANY_USERS, k, s0, s1, c);
    FromStart(ANY_USERS, k, {1, 2}, {0}, {c}, s);
    OneStaysBound(s, c);
  }

  lemma CloseBegins(g: Regime, k: Codec, s0: State, s: State, c: Conn) returns (s': State)
    requires Reach(g, k, s0, s) && At(s, c, Idle)
    ensures Reach(g, k, s0, s') && At(s', c, Closing) && s'.bound == s.bound && s'.locks == s.locks
  {
    s' := With(s, c, Closing);
    ReachStep(g, k, s0, s, X(BeginClose(c)));
  }

  lemma OneStaysBound(s: State, c: Conn)
    requires At(s, c, Closing) && Free(s, c.node) && Bound(s, c, 1) && Bound(s, c, 2)
    ensures EnabledX(s, EraseClosed(c, Some(1))) && !Forgotten(DoEraseClosed(s, c, Some(1)), c)
  {
    CloseForgetsExactly(s, c, Some(1));
  }

  // ---- overlapping logins ----

  /** Only the logins overlap: both pass the online check and bind their user on two nodes. */
  lemma OverlappingLoginsBindTwice(k: Codec) returns (s: State)
    ensures Reachable(ANY_LOGINS, k, s) && BoundTwice(s, 1)
  {
    var c, d := Conn(0, 0), Conn(1, 0);
    var s0 := Start({1}, {0, 1}, {c, d});
    var s1 := BothPass(k, s0, c, d);
    s := BothBind(k, s0, s1, c, d);
    FromStart(ANY_LOGINS, k, {1}, {0, 1}, {c, d}, s);
    assert Slot(0, 1) in s.bound && Slot(1, 1) in s.bound;
  }

  lemma BothBind(k: Codec, s0: State, s: State, c: Conn, d: Conn) returns (s': State)
    requires Reach(ANY_LOGINS, k, s0, s) && At(s, c, Login(1, ToBind)) && At(s, d, Login(1, ToBind)) && c != d
    requires s.locks == map[] && c.node != d.node
    ensures Reach(ANY_LOGINS, k, s0, s') && Slot(c.node, 1) in s'.bound && Slot(d.node, 1) in s'.bound
  {
    var s1 := BindNow(ANY_LOGINS, k, s0, s, c, 1);
    s' := BindNow(ANY_LOGINS, k, s0, s1, d, 1);
  }

  lemma BothPass(k: Codec, s0: State, c: Conn, d: Conn) returns (s: State)
    requires s0 == Start({1}, {0, 1}, {c, d}) && c == Conn(0, 0) && d == Conn(1, 0)
    ensures Reach(ANY_LOGINS, k, s0, s) && At(s, c, Login(1, ToBind)) && At(s, d, Login(1, ToBind)) && s.locks == map[]
  {
    ReachSelf(ANY_LOGINS, k, s0);
    var s1 := PassRead(ANY_LOGINS, k, s0, s0, c, 1);
    s := PassRead(ANY_LOGINS, k, s0, s1, d, 1);
  }

  // ---- an update that is lost ----

  const ANY_USER_CALLS := Regime(true, true, false, true, true, true, true, true)

  /** The login goes on when storing its user as online fails. */
  lemma StaysOffline(g: Regime, k: Codec, s0: State, s: State, c: Conn, u: UserId) returns (s': State)
    requires !g.orderly && Reach(g, k, s0, s) && At(s, c, Login(u, ToSubscribe))
    ensures Reach(g, k, s0, s') && s'.handlers == s.handlers[c := Login(u, ToQuery)]
    ensures s'.bound == s.bound && s'.rows == s.rows && s'.logs == s.logs
    ensures s'.locks == s.locks && s'.queues == s.queues && s'.users == s.users
  {
    var s1 := SubscribeNow(g, k, s0, s, c, u);
    s' := DoGoOnline(s1, c, Failed);
    ReachStep(g, k, s0, s1, L(GoOnline(c, Failed)));
  }

  lemma InWhileOffline(g: Regime, k: Codec, s0: State, s: State, c: Conn) returns (s': State)
    requires !g.orderly && Reach(g, k, s0, s) && CanLogIn(g, s, c, 1) && s.rows == map[]
    ensures Reach(g, k, s0, s') && s'.handlers == s.handlers
    ensures s'.bound == s.bound[Slot(c.node, 1) := c] && s'.users == s.users && s'.locks == s.locks
  {
    var s1 := PassAndBind(g, k, s0, s, c, 1);
    var s2 := StaysOffline(g, k, s0, s1, c, 1);
    s' := GetEmptyBacklog(g, k, s0, s2, c, 1);
    SameEntry(s.handlers, c);
  }

  /** Without any overlap: the first login ends with its user stored as offline, so a second one on
      another node passes too. */
  lemma LostUpdateBindsTwice(k: Codec) returns (s: State)
    ensures Reachable(ANY_USER_CALLS, k, s) && BoundTwice(s, 1)
  {
    var c, d := Conn(0, 0), Conn(1, 0);
    var s0 := Start({1}, {0, 1}, {c, d});
    ReachSelf(ANY_USER_CALLS, k, s0);
    var s1 := InWhileOffline(ANY_USER_CALLS, k, s0, s0, c);
    s := PassAndBind(ANY_USER_CALLS, k, s0, s1, d, 1);
    FromStart(ANY_USER_CALLS, k, {1}, {0, 1}, {c, d}, s);
    assert Slot(0, 1) in s.bound && Slot(1, 1) in s.bound;
  }

  // ---- a reset ----

  /** Nodes may crash and be reset. */
  const ANY_CRASH := Regime(true, true, true, false, true, true, true, true)

  /** Every user is stored as offline, and everything else is as before. */
  lemma AllOffline(k: Codec, s0: State, s: State) returns (s': State)
    requires Reach(ANY_CRASH, k, s0, s)
    ensures Reach(ANY_CRASH, k, s0, s') && s'.users.Keys == s.users.Keys && s' == s.(users := s'.users)
    ensures forall u | u in s.users :: s'.users[u] == User(s.users[u].password, false)
  {
    s' := StepF(s, Reset);
    ReachStep(ANY_CRASH, k, s0, s, F(Reset));
  }

  /** Without any overlap or lost update: a reset stores a bound user as offline, so it can log in again. */
  lemma ResetBindsTwice(k: Codec) returns (s: State)
    ensures Reachable(ANY_CRASH, k, s) && BoundTwice(s, 1)
  {
    var c, d := Conn(0, 0), Conn(1, 0);
    var s0 := Start({1}, {0, 1}, {c, d});
    ReachSelf(ANY_CRASH, k, s0);
    var s1 := LogIn(ANY_CRASH, k, s0, s0, c, 1);
    var s2 := AllOffline(k, s0, s1);
    s := PassAndBind(ANY_CRASH, k, s0, s2, d, 1);
    FromStart(ANY_CRASH, k, {1}, {0, 1}, {c, d}, s);
    assert Slot(0, 1) in s.bound && Slot(1, 1) in s.bound;
  }

  // ---- a mark that fails ----

  /** The least that oneChat accepts. */
  function Bare(from: Int32, to: Int32): (body: Object)
    ensures IsOneChat(body, from, to) && !HasText(body, "time")
  {
    map["msgid" := Number(ONE_CHAT_MSG), "id" := Number(from), "toid" := Number(to), "msg" := Text("")]
  }

  /** A user writes to itself and the markDelivered of the delivery fails: the row stays created with
      the message already written on the connection. */
  lemma SelfMessageUnmarked(g: Regime, k: Codec, s0: State, s: State, c: Conn) returns (s': State, id: MsgId)
    requires g == ANY_MARKS && Faithful(k) && Reach(g, k, s0, s)
    requires At(s, c, Idle) && Free(s, c.node) && Bound(s, c, 1) && s.rows == map[]
    ensures Reach(g, k, s0, s') && At(s', c, Idle) && Free(s', c.node) && Bound(s', c, 1) && Arrived(k, s', c, id)
    ensures id in s'.rows && s'.rows[id].receiver == 1 && s'.rows[id].status == CREATED
  {
    var req := Request(1, 0, ONE_CHAT_MSG, Bare(1, 1));
    id := MessageId.Pack(1, 0, 0);
    var s2 := MessageNumbered(g, k, s0, s, c, req, 1, id);
    var s3 := DoInsert(k, s2, c, Done);
    ReachStep(g, k, s0, s2, S(Insert(c, Done)));
    s', id := LookupUnmarked(g, k, s0, s3, c, req, id);
  }

  predicate SameButHandlers(s: State, s': State) {
    s'.bound == s.bound && s'.users == s.users && s'.logs == s.logs && s'.locks == s.locks && s'.queues == s.queues
  }

  lemma MessageNumbered(g: Regime, k: Codec, s0: State, s: State, c: Conn, req: Request, to: UserId, id: MsgId)
    returns (s': State)
    requires Reach(g, k, s0, s) && req == Request(req.sender, 0, ONE_CHAT_MSG, req.body) &&
             id == MessageId.Pack(1, 0, 0)
    requires IsOneChat(req.body, req.sender, to)
    requires At(s, c, Idle) && Free(s, c.node) && Bound(s, c, req.sender)
    ensures Reach(g, k, s0, s') && s'.handlers == s.handlers[c := Send(req, to, [], ToInsert(id))]
    ensures SameButHandlers(s, s') && s'.rows == s.rows
  {
    var s1 := MessageBegun(g, k, s0, s, c, req, to);
    s' := DoGenerateId(s1, c, 1, 0, 0);
    ReachStep(g, k, s0, s1, S(GenerateId(c, 1, 0, 0)));
  }

  lemma MessageBegun(g: Regime, k: Codec, s0: State, s: State, c: Conn, req: Request, to: UserId) returns (s': State)
    requires Reach(g, k, s0, s) && req == Request(req.sender, 0, ONE_CHAT_MSG, req.body)
    requires IsOneChat(req.body, req.sender, to)
    requires At(s, c, Idle) && Free(s, c.node) && Bound(s, c, req.sender)
    ensures Reach(g, k, s0, s') && s' == With(s, c, Send(req, to, [], ToGenerate))
  {
    s' := IfBound(s, c, req.sender, Send(req, to, [], ToGenerate));
    ReachStep(g, k, s0, s, S(BeginOneChat(c, req.sender, to, req.body)));
  }

  lemma LookupUnmarked(g: Regime, k: Codec, s0: State, s: State, c: Conn, req: Request, id: MsgId)
    returns (s': State, same: MsgId)
    requires g == ANY_MARKS && Faithful(k) && Reach(g, k, s0, s)
    requires At(s, c, Send(req, 1, [], ToLookup(id))) && Free(s, c.node) && Bound(s, c, 1)
    requires id == MessageId.Pack(1, 0, 0) && id in s.rows && s.rows[id].receiver == 1 && s.rows[id].status == CREATED
    ensures same == id && Reach(g, k, s0, s') && At(s', c, Idle) && Free(s', c.node) && Bound(s', c, 1)
    ensures Arrived(k, s', c, id) && s'.rows == s.rows
  {
    same := id;
    var s1 := WrittenToSelf(g, k, s0, s, c, req, id);
    s' := DoRelease(s1, c.node, Failed, 0);
    ReachStep(g, k, s0, s1, S(Release(c.node, Failed, 0)));
    assert Arrived(k, s', c, id);
  }

  lemma WrittenToSelf(g: Regime, k: Codec, s0: State, s: State, c: Conn, req: Request, id: MsgId) returns (s': State)
    requires g == ANY_MARKS && Faithful(k) && Reach(g, k, s0, s)
    requires At(s, c, Send(req, 1, [], ToLookup(id))) && Free(s, c.node) && Bound(s, c, 1)
    requires id == MessageId.Pack(1, 0, 0)
    ensures Reach(g, k, s0, s') && At(s', c, Send(req, 1, [], Marking(id))) && s'.bound == s.bound && s'.rows == s.rows
    ensures c.node in s'.locks && s'.locks[c.node] == Lock(id, 1, Some(c)) && Arrived(k, s', c, id)
  {
    s' := DoLookup(k, s, c);
    ReachStep(g, k, s0, s, S(Lookup(c)));
    ChatCarriesId(k, req, id);
    assert Log(s'.logs, c)[|Log(s.logs, c)|] == Chat(1, Framing.SendJson(Payload(k, req, 1, id)));
  }

  lemma ChatCarriesId(k: Codec, req: Request, id: MsgId)
    requires Faithful(k) && id == MessageId.Pack(1, 0, 0)
    ensures FrameHasId(k, Chat(1, Framing.SendJson(Payload(k, req, 1, id))), id)
  {
    var text := Payload(k, req, 1, id);
    MessageId.PackIsPositional(1, 0, 0);
    PayloadCarriesId(k, req, 1, id);
    assert Framing.SendJson(text)[..|text|] == text;
  }

  /** With every other assumption in place, one failing markDelivered lets an honest ACK take a row
      from created straight to acked. */
  lemma FailedMarkSkipsDelivered(k: Codec) returns (s: State, l: Label, id: MsgId)
    requires Faithful(k)
    ensures Reachable(ANY_MARKS, k, s) && Allowed(ANY_MARKS, k, s, l)
    ensures id in s.rows && s.rows[id].status == CREATED
    ensures id in Step(k, s, l).rows && Step(k, s, l).rows[id].status == ACKED
  {
    var c := Conn(0, 0);
    s, id := UnmarkedAckWaits(k, Start({1}, {0}, {c}), c);
    FromStart(ANY_MARKS, k, {1}, {0}, {c}, s);
    l := A(ApplyAck(c, Done, 0));
    assert Step(k, s, l) == DoAcknowledge(s, c, Done, 0);
  }

  lemma UnmarkedAckWaits(k: Codec, s0: State, c: Conn) returns (s: State, id: MsgId)
    requires Faithful(k) && s0 == Start({1}, {0}, {c}) && c == Conn(0, 0)
    ensures Reach(ANY_MARKS, k, s0, s) && At(s, c, AckUpdate(1, id))
    ensures id in s.rows && s.rows[id].receiver == 1 && s.rows[id].status == CREATED
  {
    ReachSelf(ANY_MARKS, k, s0);
    var s1 := LogIn(ANY_MARKS, k, s0, s0, c, 1);
    var s2, m := SelfMessageUnmarked(ANY_MARKS, k, s0, s1, c);
    s := AckChecked(k, s0, s2, c, m);
    id := m;
  }

  lemma AckChecked(k: Codec, s0: State, s: State, c: Conn, id: MsgId) returns (s': State)
    requires Reach(ANY_MARKS, k, s0, s) && At(s, c, Idle) && Free(s, c.node) && Bound(s, c, 1) && Arrived(k, s, c, id)
    ensures Reach(ANY_MARKS, k, s0, s') && At(s', c, AckUpdate(1, id)) && s'.rows == s.rows
  {
    s' := IfBound(s, c, 1, AckUpdate(1, id));
    ReachStep(ANY_MARKS, k, s0, s, A(BeginAck(c, 1, id)));
  }

  // ---- a message inside the login window ----

  const ALL := Regime(true, true, true, true, true, true, true, true)

  /** What the shipped client sends. */
  function Hello(from: Int32, to: Int32): (body: Object)
    ensures IsOneChat(body, from, to) && HasText(body, "time") && HasText(body, "name")
  {
    Bare(from, to)["time" := Text("")]["name" := Text("")]
  }

  /** User 2 is logged in on d; user 1 is bound to c by a login that has not answered yet. */
  lemma HalfwayIn(g: Regime, k: Codec, s0: State, c: Conn, d: Conn) returns (s: State)
    requires s0 == Start({1, 2}, {0}, {c, d}) && c == Conn(0, 0) && d == Conn(0, 1)
    ensures Reach(g, k, s0, s) && At(s, d, Idle) && Bound(s, d, 2) && Bound(s, c, 1) && Free(s, 0)
    ensures s.rows == map[] && Log(s.logs, c) == []
  {
    ReachSelf(g, k, s0);
    var s1 := LogIn(g, k, s0, s0, d, 2);
    s := PassAndBind(g, k, s0, s1, c, 1);
  }

  /** Both are logged in. */
  lemma BothIn(g: Regime, k: Codec, s0: State, c: Conn, d: Conn) returns (s: State)
    requires s0 == Start({1, 2}, {0}, {c, d}) && c == Conn(0, 0) && d == Conn(0, 1)
    ensures Reach(g, k, s0, s) && At(s, d, Idle) && Bound(s, d, 2) && Bound(s, c, 1) && Free(s, 0)
    ensures s.rows == map[] && Log(s.logs, c) == [LoginOk(1, [])]
  {
    ReachSelf(g, k, s0);
    var s1 := LogIn(g, k, s0, s0, d, 2);
    s := LogIn(g, k, s0, s1, c, 1);
  }

  lemma WrittenTo(g: Regime, k: Codec, s0: State, s: State, c: Conn, d: Conn, req: Request)
    returns (s': State, id: MsgId, text: string)
    requires Reach(g, k, s0, s) && At(s, d, Idle) && Bound(s, d, 2) && Bound(s, c, 1) && Free(s, 0) && s.rows == map[]
    requires c == Conn(0, 0) && d == Conn(0, 1)
    requires Faithful(k) && req == Request(2, 0, ONE_CHAT_MSG, req.body) && IsOneChat(req.body, 2, 1)
    ensures Reach(g, k, s0, s') && Log(s'.logs, c) == Log(s.logs, c) + [Chat(1, Framing.SendJson(text))]
    ensures IsStored(k, s'.rows, 1, text) && s'.rows[ParsedId(k, text)].status < ACKED
    ensures k.parse(text).Some? && Client.IsChat(k.parse(text).value)
    ensures Client.PrintableText(k, text) <==> HasText(req.body, "time") && HasText(req.body, "name")
  {
    id, text := FirstId(k, req);
    s' := StoredAndWritten(g, k, s0, s, c, d, req, id);
  }

  lemma FirstId(k: Codec, req: Request) returns (id: MsgId, text: string)
    requires Faithful(k) && req == Request(2, 0, ONE_CHAT_MSG, req.body) && IsOneChat(req.body, 2, 1)
    ensures id == MessageId.Pack(1, 0, 0) && text == Payload(k, req, 1, id) && ParsedId(k, text) == id
    ensures k.parse(text).Some? && Client.IsChat(k.parse(text).value)
    ensures Client.PrintableText(k, text) <==> HasText(req.body, "time") && HasText(req.body, "name")
  {
    id := MessageId.Pack(1, 0, 0);
    text := Payload(k, req, 1, id);
    MessageId.PackIsPositional(1, 0, 0);
    PrintableExactly(k, req, id);
    PayloadCarriesId(k, req, 1, id);
  }

  lemma StoredAndWritten(g: Regime, k: Codec, s0: State, s: State, c: Conn, d: Conn, req: Request, id: MsgId)
    returns (s': State)
    requires Reach(g, k, s0, s) && At(s, d, Idle) && Bound(s, d, 2) && Bound(s, c, 1) && Free(s, 0) && s.rows == map[]
    requires c == Conn(0, 0) && d == Conn(0, 1)
    requires req == Request(2, 0, ONE_CHAT_MSG, req.body) && IsOneChat(req.body, 2, 1) && id == MessageId.Pack(1, 0, 0)
    ensures Reach(g, k, s0, s')
    ensures Log(s'.logs, c) == Log(s.logs, c) + [Chat(1, Framing.SendJson(Payload(k, req, 1, id)))]
    ensures id in s'.rows && s'.rows[id].receiver == 1 && s'.rows[id].status < ACKED
    ensures s'.rows[id].payload == Payload(k, req, 1, id)
  {
    var s1 := MessageNumbered(g, k, s0, s, d, req, 1, id);
    var s2 := DoInsert(k, s1, d, Done);
    ReachStep(g, k, s0, s1, S(Insert(d, Done)));
    s' := LookedUp(g, k, s0, s2, c, d, req, id);
  }

  lemma LookedUp(g: Regime, k: Codec, s0: State, s: State, c: Conn, d: Conn, req: Request, id: MsgId)
    returns (s': State)
    requires Reach(g, k, s0, s) && At(s, d, Send(req, 1, [], ToLookup(id))) && Bound(s, c, 1) && Free(s, d.node)
    requires c.node == d.node
    ensures Reach(g, k, s0, s') && s'.rows == s.rows
    ensures Log(s'.logs, c) == Log(s.logs, c) + [Chat(1, Framing.SendJson(Payload(k, req, 1, id)))]
  {
    s' := DoLookup(k, s, d);
    ReachStep(g, k, s0, s, S(Lookup(d)));
  }

  lemma PrintableExactly(k: Codec, req: Request, id: MsgId)
    requires Faithful(k) && req == Request(2, 0, ONE_CHAT_MSG, req.body) && IsOneChat(req.body, 2, 1)
    requires 0 < id <= INT64_MAX
    ensures var text := Payload(k, req, 1, id);
            && k.parse(text).Some? && Client.IsChat(k.parse(text).value)
            && (Client.PrintableText(k, text) <==> HasText(req.body, "time") && HasText(req.body, "name"))
  {
    assert k.parse(Payload(k, req, 1, id)) == Some(Stamp(req, 1, id));
  }

  /** With every assumption in place: a message that is written between the binding and the login
      response is acknowledged for no user, so this ACK cannot reach the row. */
  lemma EarlyFrameAckedForNobody(k: Codec) returns (s: State, c: Conn, text: string)
    requires Faithful(k)
    ensures Reachable(ALL, k, s) && Log(s.logs, c) == [Chat(1, Framing.SendJson(text))]
    ensures var view := Client.OnLog(k, Log(s.logs, c));
            |view.acks| == 1 && view.acks[0].user == Client.NO_USER && !Client.Reaches(s.rows, view.acks[0], text)
  {
    c := Conn(0, 0);
    var d := Conn(0, 1);
    var s0 := Start({1, 2}, {0}, {c, d});
    s, text := WrittenEarly(k, s0, c, d);
    FromStart(ALL, k, {1, 2}, {0}, {c, d}, s);
    AckedForNobody(k, s0, s, c, text);
  }

  lemma WrittenEarly(k: Codec, s0: State, c: Conn, d: Conn) returns (s: State, text: string)
    requires Faithful(k) && s0 == Start({1, 2}, {0}, {c, d}) && c == Conn(0, 0) && d == Conn(0, 1)
    ensures Reach(ALL, k, s0, s) && Log(s.logs, c) == [Chat(1, Framing.SendJson(text))]
    ensures Client.PrintableText(k, text) && Client.IsChat(k.parse(text).value)
  {
    var s1 := HalfwayIn(ALL, k, s0, c, d);
    var id;
    s, id, text := WrittenTo(ALL, k, s0, s1, c, d, Request(2, 0, ONE_CHAT_MSG, Hello(2, 1)));
  }

  lemma AckedForNobody(k: Codec, s0: State, s: State, c: Conn, text: string)
    requires Faithful(k) && Init(s0) && Reach(ALL, k, s0, s)
    requires Log(s.logs, c) == [Chat(1, Framing.SendJson(text))]
    requires Client.PrintableText(k, text) && Client.IsChat(k.parse(text).value)
    ensures var view := Client.OnLog(k, Log(s.logs, c));
            |view.acks| == 1 && view.acks[0].user == Client.NO_USER && !Client.Reaches(s.rows, view.acks[0], text)
  {
    var ls :| ValidRun(ALL, k, s0, ls) && Run(ALL, k, s0, ls) == s;
    PersistedFrom(ALL, k, s0, ls);
    assert FrameOk(k, s.rows, Log(s.logs, c)[0]);
    Client.FirstChatIsNobodys(k, s.rows, 1, text);
  }

  // ---- a message that the client cannot print ----

  /** With every assumption in place: a request without time and name is stored and written to its
      receiver after the receiver's login response, and ends the client instead of being acknowledged. */
  lemma UnprintableEndsClient(k: Codec) returns (s: State, c: Conn, text: string)
    requires Faithful(k)
    ensures Reachable(ALL, k, s) && Log(s.logs, c) == [LoginOk(1, []), Chat(1, Framing.SendJson(text))]
    ensures IsStored(k, s.rows, 1, text) && s.rows[ParsedId(k, text)].status < ACKED
    ensures var view := Client.OnLog(k, Log(s.logs, c)); view.stopped && view.acks == [] && view.user == 1
  {
    c := Conn(0, 0);
    var d := Conn(0, 1);
    var s0 := Start({1, 2}, {0}, {c, d});
    s, text := WrittenUnprintable(k, s0, c, d);
    FromStart(ALL, k, {1, 2}, {0}, {c, d}, s);
    Client.UnprintableStops(k, 1, text);
  }

  lemma WrittenUnprintable(k: Codec, s0: State, c: Conn, d: Conn) returns (s: State, text: string)
    requires Faithful(k) && s0 == Start({1, 2}, {0}, {c, d}) && c == Conn(0, 0) && d == Conn(0, 1)
    ensures Reach(ALL, k, s0, s) && Log(s.logs, c) == [LoginOk(1, []), Chat(1, Framing.SendJson(text))]
    ensures !Client.PrintableText(k, text) && k.parse(text).Some? && Client.IsChat(k.parse(text).value)
    ensures IsStored(k, s.rows, 1, text) && s.rows[ParsedId(k, text)].status < ACKED
  {
    var s1 := BothIn(ALL, k, s0, c, d);
    var id;
    s, id, text := WrittenTo(ALL, k, s0, s1, c, d, Request(2, 0, ONE_CHAT_MSG, Bare(2, 1)));
  }

  // ---- a crash inside a login ----

  /** The table holds one message, for user 1. */
  predicate Lone(t: Table, id: MsgId, status: Status) {
    t.Keys == {id} && t[id].receiver == 1 && t[id].status == status && t[id].payload != ""
  }

  lemma FirstStored(g: Regime, k: Codec, s0: State, s: State, d: Conn, req: Request, id: MsgId) returns (s': State)
    requires Reach(g, k, s0, s) && At(s, d, Send(req, 1, [], ToInsert(id))) && s.rows == map[]
    requires Payload(k, req, 1, id) != ""
    ensures Reach(g, k, s0, s') && s'.handlers == s.handlers[d := Send(req, 1, [], ToLookup(id))]
    ensures SameButHandlers(s, s') && Lone(s'.rows, id, CREATED)
  {
    s' := DoInsert(k, s, d, Done);
    ReachStep(g, k, s0, s, S(Insert(d, Done)));
  }

  lemma LookedPast(g: Regime, k: Codec, s0: State, s: State, d: Conn, req: Request, id: MsgId) returns (s': State)
    requires Reach(g, k, s0, s) && At(s, d, Send(req, 1, [], ToLookup(id))) && Free(s, d.node)
    requires Slot(d.node, 1) !in s.bound
    ensures Reach(g, k, s0, s') && s' == With(s, d, Send(req, 1, [], ToReadState(id)))
  {
    s' := DoLookup(k, s, d);
    ReachStep(g, k, s0, s, S(Lookup(d)));
  }

  lemma ReadOffline(g: Regime, k: Codec, s0: State, s: State, d: Conn, req: Request, id: MsgId) returns (s': State)
    requires Reach(g, k, s0, s) && At(s, d, Send(req, 1, [], ToReadState(id)))
    requires 1 in s.users && !s.users[1].online
    ensures Reach(g, k, s0, s') && s' == With(s, d, Idle)
  {
    s' := DoReadState(s, d, true);
    ReachStep(g, k, s0, s, S(ReadState(d, true)));
  }

  lemma NonEmptyFirst(k: Codec, req: Request) returns (id: MsgId)
    requires Faithful(k) && req == Request(2, 0, ONE_CHAT_MSG, req.body) && IsOneChat(req.body, 2, 1)
    ensures id == MessageId.Pack(1, 0, 0) && Payload(k, req, 1, id) != ""
  {
    var text;
    id, text := FirstId(k, req);
    assert k.parse(text).Some? && text == k.dump(Stamp(req, 1, id));
  }

  /** The receiver is offline: the message is stored and nothing is sent. */
  lemma StoredOffline(g: Regime, k: Codec, s0: State, s: State, d: Conn, req: Request) returns (s': State, id: MsgId)
    requires Faithful(k) && Reach(g, k, s0, s) && At(s, d, Idle) && Bound(s, d, 2) && Free(s, d.node)
    requires req == Request(2, 0, ONE_CHAT_MSG, req.body) && IsOneChat(req.body, 2, 1)
    requires s.rows == map[] && Slot(d.node, 1) !in s.bound && 1 in s.users && !s.users[1].online
    ensures Reach(g, k, s0, s') && s'.handlers == s.handlers && s'.bound == s.bound && s'.users == s.users
    ensures s'.logs == s.logs && s'.locks == s.locks && s'.queues == s.queues && Lone(s'.rows, id, CREATED)
  {
    var s1;
    s1, id := NumberedAndStored(g, k, s0, s, d, req);
    s' := NotSent(g, k, s0, s1, d, req, id);
    SameEntry(s.handlers, d);
  }

  lemma NumberedAndStored(g: Regime, k: Codec, s0: State, s: State, d: Conn, req: Request)
    returns (s': State, id: MsgId)
    requires Faithful(k) && Reach(g, k, s0, s) && At(s, d, Idle) && Bound(s, d, 2) && Free(s, d.node)
    requires req == Request(2, 0, ONE_CHAT_MSG, req.body) && IsOneChat(req.body, 2, 1) && s.rows == map[]
    ensures Reach(g, k, s0, s') && s'.handlers == s.handlers[d := Send(req, 1, [], ToLookup(id))]
    ensures SameButHandlers(s, s') && Lone(s'.rows, id, CREATED)
  {
    id := NonEmptyFirst(k, req);
    var s1 := MessageNumbered(g, k, s0, s, d, req, 1, id);
    s' := FirstStored(g, k, s0, s1, d, req, id);
  }

  lemma NotSent(g: Regime, k: Codec, s0: State, s: State, d: Conn, req: Request, id: MsgId) returns (s': State)
    requires Reach(g, k, s0, s) && At(s, d, Send(req, 1, [], ToLookup(id))) && Free(s, d.node)
    requires Slot(d.node, 1) !in s.bound && 1 in s.users && !s.users[1].online
    ensures Reach(g, k, s0, s') && s'.handlers == s.handlers[d := Idle]
    ensures SameButHandlers(s, s') && s'.rows == s.rows
  {
    var s1 := LookedPast(g, k, s0, s, d, req, id);
    s' := ReadOffline(g, k, s0, s1, d, req, id);
  }

  lemma OneListed(t: Table, id: MsgId)
    requires Lone(t, id, CREATED)
    ensures |Unacked(t, 1)| == 1
    ensures var list := SelectUnacked(t, 1, 1000); |list| > 0 && list[0].id == id && list[0].payload == t[id].payload
  {
    assert Unacked(t, 1) == {id};
    SelectedRows(t, 1, 1000);
  }

  lemma BacklogFound(g: Regime, k: Codec, s0: State, s: State, c: Conn, id: MsgId)
    returns (s': State, list: seq<Stored>)
    requires Reach(g, k, s0, s) && At(s, c, Login(1, ToQuery)) && Lone(s.rows, id, CREATED)
    ensures Reach(g, k, s0, s') && s'.logs == s.logs && s'.rows == s.rows
    ensures s'.handlers == s.handlers[c := Login(1, ToMark(list, 0))]
    ensures |list| > 0 && list[0].id == id && list[0].payload != ""
  {
    OneListed(s.rows, id);
    list := SelectUnacked(s.rows, 1, 1000);
    s' := DoQueryBacklog(s, c, true);
    ReachStep(g, k, s0, s, L(QueryBacklog(c, true)));
  }

  lemma FirstMarked(g: Regime, k: Codec, s0: State, s: State, c: Conn, id: MsgId, list: seq<Stored>) returns (s': State)
    requires Reach(g, k, s0, s) && At(s, c, Login(1, ToMark(list, 0))) && Lone(s.rows, id, CREATED)
    requires |list| > 0 && list[0].id == id && list[0].payload != ""
    ensures Reach(g, k, s0, s') && s'.logs == s.logs && Lone(s'.rows, id, DELIVERED)
    ensures s'.handlers == s.handlers[c := Login(1, ToMark(list, 1))]
  {
    s' := DoMarkBacklog(s, c, Done, 0);
    ReachStep(g, k, s0, s, L(MarkBacklog(c, Done, 0)));
  }

  /** The receiver logs in up to the first mark. */
  lemma MarkedInLogin(g: Regime, k: Codec, s0: State, s: State, c: Conn, id: MsgId)
    returns (s': State, list: seq<Stored>)
    requires Reach(g, k, s0, s) && At(s, c, Login(1, ToQuery)) && Lone(s.rows, id, CREATED)
    ensures Reach(g, k, s0, s') && s'.logs == s.logs && Lone(s'.rows, id, DELIVERED)
    ensures s'.handlers == s.handlers[c := Login(1, ToMark(list, 1))]
    ensures |list| > 0 && list[0].id == id && list[0].payload != ""
  {
    var s1;
    s1, list := BacklogFound(g, k, s0, s, c, id);
    s' := FirstMarked(g, k, s0, s1, c, id, list);
  }

  /** User 2 has written to user 1, who is offline. */
  lemma BacklogWaits(g: Regime, k: Codec, s0: State, c: Conn, d: Conn) returns (s: State, id: MsgId)
    requires Faithful(k) && s0 == Start({1, 2}, {0, 1}, {c, d}) && c == Conn(0, 0) && d == Conn(1, 0)
    ensures Reach(g, k, s0, s) && s.handlers == map[c := Idle, d := Idle] &&
            s.logs == map[d := [LoginOk(2, [])]]
    ensures Lone(s.rows, id, CREATED) && CanLogIn(g, s, c, 1)
  {
    var s1 := SenderIn(g, k, s0, c, d);
    s, id := StoredOffline(g, k, s0, s1, d, Request(2, 0, ONE_CHAT_MSG, Bare(2, 1)));
  }

  lemma SenderIn(g: Regime, k: Codec, s0: State, c: Conn, d: Conn) returns (s: State)
    requires s0 == Start({1, 2}, {0, 1}, {c, d}) && c == Conn(0, 0) && d == Conn(1, 0)
    ensures Reach(g, k, s0, s) && s.handlers == map[c := Idle, d := Idle] &&
            s.logs == map[d := [LoginOk(2, [])]]
    ensures s.rows == map[] && CanLogIn(g, s, c, 1) && Bound(s, d, 2) && Free(s, 1) && Slot(1, 1) !in s.bound
  {
    ReachSelf(g, k, s0);
    s := LogIn(g, k, s0, s0, d, 2);
    assert Log(s0.logs, d) == [] && [] + [LoginOk(2, [])] == [LoginOk(2, [])];
  }

  /** User 1 logs in on another node, up to its backlog query. */
  lemma LoginWithBacklog(g: Regime, k: Codec, s0: State, s: State, c: Conn) returns (s': State)
    requires Reach(g, k, s0, s) && CanLogIn(g, s, c, 1)
    ensures Reach(g, k, s0, s') && s'.handlers == s.handlers[c := Login(1, ToQuery)]
    ensures s'.logs == s.logs && s'.rows == s.rows
  {
    s' := PassAndBind(g, k, s0, s, c, 1);
    s' := ComeOnline(g, k, s0, s', c, 1);
  }

  lemma HalfwayMarked(g: Regime, k: Codec, s0: State, c: Conn, d: Conn) returns (s: State, id: MsgId, list: seq<Stored>)
    requires Faithful(k) && s0 == Start({1, 2}, {0, 1}, {c, d}) && c == Conn(0, 0) && d == Conn(1, 0)
    ensures Reach(g, k, s0, s) && s.logs == map[d := [LoginOk(2, [])]] && Lone(s.rows, id, DELIVERED)
    ensures s.handlers == map[c := Login(1, ToMark(list, 1)), d := Idle]
    ensures |list| > 0 && list[0].id == id && list[0].payload != ""
  {
    var s1, s2;
    s1, id := BacklogWaits(g, k, s0, c, d);
    s2 := LoginWithBacklog(g, k, s0, s1, c);
    s, list := MarkedInLogin(g, k, s0, s2, c, id);
  }

  lemma NobodyGot(s: State, id: MsgId, d: Conn)
    requires Lone(s.rows, id, DELIVERED) && s.logs == map[d := [LoginOk(2, [])]]
    ensures !Delivered.RowWritten(s, id)
  {
    forall e ensures !Got(s, e, 1, s.rows[id].payload) {
    }
  }

  lemma OneSender(s: State, id: MsgId, c: Conn, d: Conn, list: seq<Stored>)
    requires s.handlers == map[c := Login(1, ToMark(list, 1)), d := Idle] && c != d
    requires |list| > 0 && list[0].id == id && list[0].payload != ""
    ensures forall e :: Delivered.AboutToSend(s, e, id) <==> e == c
    ensures forall e :: !Delivered.AboutToSend(DoCrash(s, c.node), e, id)
  {
    assert Delivered.InMarkedPart(s.handlers[c], id);
  }

  /** One crash suffices: a node dies after the mark and before the response. */
  lemma CrashLosesDelivered(k: Codec) returns (s: State, l: Label, id: MsgId)
    requires Faithful(k)
    ensures Reachable(ANY_CRASH, k, s) && Allowed(ANY_CRASH, k, s, l) && Delivered.TakesAway(s, l, id)
    ensures Delivered.Lost(Step(k, s, l), id)
  {
    var c, d := Conn(0, 0), Conn(1, 0);
    var s0 := Start({1, 2}, {0, 1}, {c, d});
    var list;
    s, id, list := HalfwayMarked(ANY_CRASH, k, s0, c, d);
    l := F(Crash(0));
    FromStart(ANY_CRASH, k, {1, 2}, {0, 1}, {c, d}, s);
    CrashTakes(k, s, id, c, d, list);
  }

  lemma CrashTakes(k: Codec, s: State, id: MsgId, c: Conn, d: Conn, list: seq<Stored>)
    requires s.logs == map[d := [LoginOk(2, [])]] && Lone(s.rows, id, DELIVERED) && c != d
    requires s.handlers == map[c := Login(1, ToMark(list, 1)), d := Idle]
    requires |list| > 0 && list[0].id == id && list[0].payload != ""
    ensures Delivered.TakesAway(s, F(Crash(c.node)), id) && Delivered.Lost(DoCrash(s, c.node), id)
  {
    NobodyGot(s, id, d);
    NobodyGot(DoCrash(s, c.node), id, d);
    OneSender(s, id, c, d, list);
    assert Delivered.AboutToSend(s, c, id);
  }
}
